/** Reads and the tabs that wait for them, over whole runs of the tab operations. */
module TabsReads {
  import opened Wrappers
  import opened Tabs
  import opened TabsRelocate

  /** Keys are distinct and correct; a tab is loading exactly while its key names a
      read that has not settled, and that read was started for this key. */
  ghost predicate Valid(s: State) {
    ListSound(s.tabs, s.generations) && ReadsSound(s)
  }

  ghost predicate ReadsSound(s: State) {
    && (forall key :: key in s.generations ==>
          && s.generations[key] in s.requests
          && s.requests[s.generations[key]].key == key)
    && (forall token :: token in s.requests ==> token < s.nextToken && CorrectIdentity(s.requests[token]))
  }

  predicate CorrectIdentity(file: Identity) {
    file.key == FileKey(file.server, file.root, file.path)
  }

  datatype Action =
    | DoOpen(file: Identity)
    | DoRetry(key: Key)
    | DoClose(key: Key)
    | DoSettle(token: nat, outcome: Outcome)
    | DoAdopt(file: Identity, text: string, original: string, conflict: Option<Conflict>)
    | DoUpdate(key: Key, edit: Edit)
    | DoSetTransfer(key: Key, transferring: Option<string>)
    | DoBind(key: Key, context: string)
    | DoLocationFailed(key: Key, error: string)
    | DoRelocate(move: Move)

  /** What callers owe: correct keys, and no adoption over a read in flight. */
  predicate Allowed(s: State, a: Action) {
    match a
    case DoOpen(file) => CorrectIdentity(file)
    case DoAdopt(file, _, _, _) => CorrectIdentity(file) && file.key !in s.generations
    case _ => true
  }

  function Next(s: State, a: Action): State {
    match a
    case DoOpen(file) => Open(s, file)
    case DoRetry(key) => Retry(s, key)
    case DoClose(key) => Close(s, key)
    case DoSettle(token, outcome) => Settle(s, token, outcome)
    case DoAdopt(file, text, original, conflict) => Adopt(s, file, text, original, conflict)
    case DoUpdate(key, edit) => Update(s, key, edit)
    case DoSetTransfer(key, transferring) => SetTransfer(s, key, transferring)
    case DoBind(key, context) => Bind(s, key, context)
    case DoLocationFailed(key, error) => LocationFailed(s, key, error)
    case DoRelocate(move) => Relocate(s, move)
  }

  function Run(s: State, actions: seq<Action>): State
    decreases |actions|
  {
    if actions == [] then s else Run(Next(s, actions[0]), actions[1..])
  }

  predicate AllAllowed(s: State, actions: seq<Action>)
    decreases |actions|
  {
    actions == [] || (Allowed(s, actions[0]) && AllAllowed(Next(s, actions[0]), actions[1..]))
  }

  // ----- Each operation keeps the invariant -----

  /** A change in place that does not touch identity or whether the tab loads. */
  predicate Gentle(before: Tab, after: Tab) {
    && after.key == before.key && after.server == before.server && after.root == before.root && after.path == before.path
    && (after.status.Loading? <==> before.status.Loading?)
  }

  lemma GentleKeeps(s: State, tabs: seq<Tab>)
    requires Valid(s)
    requires |tabs| == |s.tabs| && forall i :: 0 <= i < |tabs| ==> Gentle(s.tabs[i], tabs[i])
    ensures Valid(s.(tabs := tabs))
  {
    forall key | key in s.generations ensures exists i :: 0 <= i < |tabs| && tabs[i].key == key {
      var i :| 0 <= i < |s.tabs| && s.tabs[i].key == key;
      assert tabs[i].key == key;
    }
  }

  /** With distinct keys a change by key is a change at one position. */
  lemma ChangeIsUpdate(tabs: seq<Tab>, key: Key, change: Tab -> Tab)
    requires DistinctKeys(tabs)
    ensures Find(tabs, key).None? ==> Change(tabs, key, change) == tabs
    ensures Find(tabs, key).Some? ==>
              var at := Find(tabs, key).value; Change(tabs, key, change) == tabs[at := change(tabs[at])]
  {}

  /** Replace a tab in place, and say whether it waits for a read. */
  lemma UpdateSound(tabs: seq<Tab>, at: nat, tab: Tab, before: map<Key, nat>, after: map<Key, nat>)
    requires ListSound(tabs, before) && at < |tabs|
    requires tab.key == tabs[at].key && CorrectKey(tab)
    requires tab.status.Loading? <==> tab.key in after
    requires forall key :: key != tab.key ==> (key in after <==> key in before)
    ensures ListSound(tabs[at := tab], after)
  {
    var result := tabs[at := tab];
    forall key | key in after ensures exists i :: 0 <= i < |result| && result[i].key == key {
      if key == tab.key {
        assert result[at].key == key;
      } else {
        var i :| 0 <= i < |tabs| && tabs[i].key == key;
        assert result[i].key == key;
      }
    }
  }

  lemma AppendSound(tabs: seq<Tab>, tab: Tab, before: map<Key, nat>, after: map<Key, nat>)
    requires ListSound(tabs, before) && CorrectKey(tab)
    requires forall i :: 0 <= i < |tabs| ==> tabs[i].key != tab.key
    requires tab.status.Loading? <==> tab.key in after
    requires forall key :: key != tab.key ==> (key in after <==> key in before)
    ensures ListSound(tabs + [tab], after)
  {
    var result := tabs + [tab];
    assert result[|tabs|] == tab;
    forall key | key in after ensures exists i :: 0 <= i < |result| && result[i].key == key {
      if key != tab.key {
        var i :| 0 <= i < |tabs| && tabs[i].key == key;
        assert result[i].key == key;
      }
    }
  }

  lemma LoadKeeps(s: State, file: Identity)
    requires Valid(s) && CorrectIdentity(file)
    requires file.key !in s.generations
    ensures Valid(Load(s, file))
  {
    var at := Find(s.tabs, file.key);
    var generations := s.generations[file.key := s.nextToken];
    ChangeIsUpdate(s.tabs, file.key, _ => LoadingTab(file));
    if at.Some? {
      UpdateSound(s.tabs, at.value, LoadingTab(file), s.generations, generations);
    } else {
      AppendSound(s.tabs, LoadingTab(file), s.generations, generations);
    }
    RequestsKeep(s, file);
  }

  lemma RequestsKeep(s: State, file: Identity)
    requires ReadsSound(s) && CorrectIdentity(file)
    ensures ReadsSound(Load(s, file))
  {}

  lemma {:induction false} WithoutDistinct(tabs: seq<Tab>, key: Key)
    requires DistinctKeys(tabs)
    ensures DistinctKeys(Without(tabs, key))
  {
    if tabs != [] {
      WithoutDistinct(tabs[1..], key);
      var rest := Without(tabs[1..], key);
      forall i | 0 <= i < |rest| ensures rest[i].key != tabs[0].key {
        assert rest[i] in tabs[1..];
      }
    }
  }

  lemma WithoutSound(tabs: seq<Tab>, key: Key, generations: map<Key, nat>)
    requires ListSound(tabs, generations)
    ensures ListSound(Without(tabs, key), generations - {key})
  {
    var result, rest := Without(tabs, key), generations - {key};
    WithoutDistinct(tabs, key);
    forall i | 0 <= i < |result|
      ensures CorrectKey(result[i]) && (result[i].status.Loading? <==> result[i].key in rest)
    {
      WithoutMember(tabs, key, generations, i);
    }
    forall k | k in rest ensures exists i :: 0 <= i < |result| && result[i].key == k {
      var i := WithoutKeeps(tabs, key, generations, k);
    }
  }

  lemma WithoutMember(tabs: seq<Tab>, key: Key, generations: map<Key, nat>, i: nat)
    requires ListSound(tabs, generations) && i < |Without(tabs, key)|
    ensures var t := Without(tabs, key)[i];
            t.key != key && CorrectKey(t) && (t.status.Loading? <==> t.key in generations)
  {
    var t := Without(tabs, key)[i];
    assert t in Without(tabs, key);
    var k :| 0 <= k < |tabs| && tabs[k] == t;
  }

  lemma WithoutKeeps(tabs: seq<Tab>, key: Key, generations: map<Key, nat>, kept: Key) returns (i: nat)
    requires GenerationsMatch(tabs, generations) && kept in generations && kept != key
    ensures i < |Without(tabs, key)| && Without(tabs, key)[i].key == kept
  {
    var k :| 0 <= k < |tabs| && tabs[k].key == kept;
    assert tabs[k] in Without(tabs, key);
    i :| 0 <= i < |Without(tabs, key)| && Without(tabs, key)[i] == tabs[k];
  }

  lemma AdoptKeeps(s: State, file: Identity, text: string, original: string, conflict: Option<Conflict>)
    requires Valid(s) && CorrectIdentity(file)
    requires file.key !in s.generations
    ensures Valid(Adopt(s, file, text, original, conflict))
  {
    WithoutSound(s.tabs, file.key, s.generations);
    assert s.generations - {file.key} == s.generations;
    var rest := Without(s.tabs, file.key);
    forall i | 0 <= i < |rest| ensures rest[i].key != file.key {
      assert rest[i] in rest;
    }
    AppendSound(rest, LoadingTab(file).(status := Text(text, original, false, conflict)), s.generations, s.generations);
  }

  lemma SettleReads(s: State, token: nat, outcome: Outcome)
    requires Valid(s)
    ensures ReadsSound(Settle(s, token, outcome))
  {}

  lemma SettleKeeps(s: State, token: nat, outcome: Outcome)
    requires Valid(s)
    ensures Valid(Settle(s, token, outcome))
  {
    if token in s.requests {
      var file := s.requests[token];
      SettleReads(s, token, outcome);
      if file.key in s.generations && s.generations[file.key] == token {
        var i :| 0 <= i < |s.tabs| && s.tabs[i].key == file.key;
        ChangeIsUpdate(s.tabs, file.key, _ => SettledTab(file, outcome));
        UpdateSound(s.tabs, Find(s.tabs, file.key).value, SettledTab(file, outcome), s.generations, s.generations - {file.key});
      }
    }
  }

  lemma RelocateKeeps(s: State, move: Move)
    requires Valid(s)
    ensures Valid(Relocate(s, move))
  {
    RelocateKeepsTabs(s, move);
  }

  lemma RetryKeeps(s: State, key: Key)
    requires Valid(s)
    ensures Valid(Retry(s, key))
  {
    var at := Find(s.tabs, key);
    if at.Some? && (s.tabs[at.value].status.Failed? || s.tabs[at.value].status.Preview?) {
      LoadKeeps(s, IdentityOf(s.tabs[at.value]));
    }
  }

  /** No read is pending for a tab that is not open. */
  lemma OpenFresh(s: State, key: Key)
    requires Valid(s) && Find(s.tabs, key).None?
    ensures key !in s.generations
  {}

  lemma OpenKeeps(s: State, file: Identity)
    requires Valid(s) && CorrectIdentity(file)
    ensures Valid(Open(s, file))
  {
    if Find(s.tabs, file.key).None? {
      OpenFresh(s, file.key);
      LoadKeeps(s, file);
    }
  }

  lemma CloseKeeps(s: State, key: Key)
    requires Valid(s)
    ensures Valid(Close(s, key))
  {
    WithoutSound(s.tabs, key, s.generations);
  }

  /** A change by key that is gentle on the tab it concerns. */
  lemma ChangeKeeps(s: State, key: Key, change: Tab -> Tab)
    requires Valid(s)
    requires forall t: Tab :: Gentle(t, change(t))
    ensures Valid(s.(tabs := Change(s.tabs, key, change)))
  {
    GentleKeeps(s, Change(s.tabs, key, change));
  }

  lemma UpdateKeeps(s: State, key: Key, edit: Edit)
    requires Valid(s)
    ensures Valid(Update(s, key, edit))
  {
    ChangeKeeps(s, key, (t: Tab) => Edited(t, edit));
  }

  lemma SetTransferKeeps(s: State, key: Key, transferring: Option<string>)
    requires Valid(s)
    ensures Valid(SetTransfer(s, key, transferring))
  {
    ChangeKeeps(s, key, (t: Tab) => if Ready(t) then t.(transferring := transferring) else t);
  }

  lemma BindKeeps(s: State, key: Key, context: string)
    requires Valid(s)
    ensures Valid(Bind(s, key, context))
  {
    ChangeKeeps(s, key, (t: Tab) => if t.pendingMove.None? then t.(context := context, locationError := None) else t);
  }

  lemma LocationFailedKeeps(s: State, key: Key, error: string)
    requires Valid(s)
    ensures Valid(LocationFailed(s, key, error))
  {
    ChangeKeeps(s, key, (t: Tab) => t.(locationError := Some(error)));
  }

  lemma NextKeeps(s: State, a: Action)
    requires Valid(s) && Allowed(s, a)
    ensures Valid(Next(s, a))
  {
    match a
    case DoOpen(file) => OpenKeeps(s, file);
    case DoRetry(key) => RetryKeeps(s, key);
    case DoClose(key) => CloseKeeps(s, key);
    case DoSettle(token, outcome) => SettleKeeps(s, token, outcome);
    case DoAdopt(file, text, original, conflict) => AdoptKeeps(s, file, text, original, conflict);
    case DoRelocate(move) => RelocateKeeps(s, move);
    case DoUpdate(key, edit) => UpdateKeeps(s, key, edit);
    case DoSetTransfer(key, transferring) => SetTransferKeeps(s, key, transferring);
    case DoBind(key, context) => BindKeeps(s, key, context);
    case DoLocationFailed(key, error) => LocationFailedKeeps(s, key, error);
  }

  /** In every reachable state the generations are exactly the keys of the loading
      tabs, and each names a read that has not settled. */
  lemma {:induction false} RunKeeps(s: State, actions: seq<Action>)
    requires Valid(s) && AllAllowed(s, actions)
    ensures Valid(Run(s, actions))
    decreases |actions|
  {
    if actions != [] {
      NextKeeps(s, actions[0]);
      RunKeeps(Next(s, actions[0]), actions[1..]);
    }
  }

  lemma ReachableValid(actions: seq<Action>)
    requires AllAllowed(EMPTY, actions)
    ensures Valid(Run(EMPTY, actions))
    ensures var s := Run(EMPTY, actions);
            s.generations.Keys == set t | t in s.tabs && t.status.Loading? :: t.key
  {
    RunKeeps(EMPTY, actions);
    var s := Run(EMPTY, actions);
    forall key | key in s.generations ensures exists t :: t in s.tabs && t.status.Loading? && t.key == key {
      var i :| 0 <= i < |s.tabs| && s.tabs[i].key == key;
      assert s.tabs[i] in s.tabs;
    }
  }

  // ----- Stale reads -----

  /** A read that some tab still waits for. */
  predicate Current(s: State, token: nat) {
    token in s.generations.Values
  }

  /** Every generation is an old one of the same key or names the newest read. */
  predicate GenerationsFrom(before: State, after: State) {
    && before.nextToken <= after.nextToken
    && forall key :: key in after.generations ==>
         || (key in before.generations && after.generations[key] == before.generations[key])
         || (after.generations[key] == before.nextToken && before.nextToken < after.nextToken)
  }

  lemma LoadFrom(s: State, file: Identity)
    ensures GenerationsFrom(s, Load(s, file))
  {}

  lemma SettleFrom(s: State, token: nat, outcome: Outcome)
    ensures GenerationsFrom(s, Settle(s, token, outcome))
  {}

  lemma RelocateFrom(s: State, move: Move)
    requires Valid(s)
    ensures GenerationsFrom(s, Relocate(s, move))
  {
    RelocateKeepsTabs(s, move);
  }

  lemma NextFrom(s: State, a: Action)
    requires Valid(s)
    ensures GenerationsFrom(s, Next(s, a))
  {
    match a
    case DoOpen(file) => LoadFrom(s, file);
    case DoRetry(key) =>
      var at := Find(s.tabs, key);
      if at.Some? {
        LoadFrom(s, IdentityOf(s.tabs[at.value]));
      }
    case DoSettle(token, outcome) => SettleFrom(s, token, outcome);
    case DoRelocate(move) => RelocateFrom(s, move);
    case _ =>
  }

  lemma NewTokensOnly(s: State, a: Action, token: nat)
    requires Valid(s) && token < s.nextToken && !Current(s, token)
    ensures !Current(Next(s, a), token) && token < Next(s, a).nextToken
  {
    NextFrom(s, a);
  }

  /** Once no tab waits for a read, no later operation makes one wait for it again. */
  lemma {:induction false} StaleForever(s: State, actions: seq<Action>, token: nat)
    requires Valid(s) && AllAllowed(s, actions)
    requires token < s.nextToken && !Current(s, token)
    ensures !Current(Run(s, actions), token)
    decreases |actions|
  {
    if actions != [] {
      NewTokensOnly(s, actions[0], token);
      NextKeeps(s, actions[0]);
      StaleForever(Next(s, actions[0]), actions[1..], token);
    }
  }

  /** Its late result changes no tab, whenever it arrives. */
  lemma StaleReadChangesNothing(s: State, actions: seq<Action>, token: nat, outcome: Outcome)
    requires Valid(s) && AllAllowed(s, actions)
    requires token < s.nextToken && !Current(s, token)
    ensures Settle(Run(s, actions), token, outcome).tabs == Run(s, actions).tabs
    ensures Settle(Run(s, actions), token, outcome).generations == Run(s, actions).generations
  {
    StaleForever(s, actions, token);
  }

  /** A current read fills exactly the tab that waits for it. */
  lemma CurrentReadFillsItsTab(s: State, token: nat, outcome: Outcome, i: nat)
    requires Valid(s) && token in s.requests && Current(s, token) && i < |s.tabs|
    ensures var after := Settle(s, token, outcome);
            && |after.tabs| == |s.tabs|
            && after.tabs[i] == if s.tabs[i].key == s.requests[token].key then SettledTab(s.requests[token], outcome) else s.tabs[i]
  {
    var key :| key in s.generations && s.generations[key] == token;
    assert s.requests[token].key == key;
  }

  // ----- How a read becomes stale -----

  /** One read is waited for by one tab. */
  lemma OneKeyWaits(s: State, a: Key, b: Key)
    requires ReadsSound(s) && a in s.generations && b in s.generations && s.generations[a] == s.generations[b]
    ensures a == b
  {
    assert s.requests[s.generations[a]].key == a;
  }

  lemma ClosingMakesStale(s: State, key: Key)
    requires Valid(s) && key in s.generations
    ensures !Current(Close(s, key), s.generations[key])
    ensures s.generations[key] < Close(s, key).nextToken
  {
    var rest := Close(s, key).generations;
    forall other | other in rest ensures rest[other] != s.generations[key] {
      if s.generations[other] == s.generations[key] {
        OneKeyWaits(s, key, other);
      }
    }
  }

  /** The result of a read whose tab was closed changes no tab, whatever happens
      before it arrives: not even one that was opened again under the same key. */
  lemma ClosedReadChangesNothing(s: State, key: Key, actions: seq<Action>, outcome: Outcome)
    requires Valid(s) && key in s.generations && AllAllowed(Close(s, key), actions)
    ensures var after := Run(Close(s, key), actions);
            && Settle(after, s.generations[key], outcome).tabs == after.tabs
            && Settle(after, s.generations[key], outcome).generations == after.generations
  {
    ClosingMakesStale(s, key);
    CloseKeeps(s, key);
    StaleReadChangesNothing(Close(s, key), actions, s.generations[key], outcome);
  }

  /** A tab that is closed and opened again waits for another read. */
  lemma ReopenedWaitsForAnother(s: State, file: Identity)
    requires Valid(s) && CorrectIdentity(file) && file.key in s.generations
    ensures var after := Open(Close(s, file.key), file);
            && file.key in after.generations
            && after.generations[file.key] != s.generations[file.key]
            && !Current(after, s.generations[file.key])
  {
    ClosedIsOpened(s, file);
    CloseKeeps(s, file.key);
    ClosingMakesStale(s, file.key);
    NewTokensOnly(Close(s, file.key), DoOpen(file), s.generations[file.key]);
  }

  lemma ClosedIsOpened(s: State, file: Identity)
    ensures Open(Close(s, file.key), file) == Load(Close(s, file.key), file)
  {
    assert forall t :: t in Close(s, file.key).tabs ==> t.key != file.key;
  }

  /** A read that replaces another one under the same key supersedes it. */
  lemma SupersededIsStale(s: State, file: Identity)
    requires Valid(s) && file.key in s.generations
    ensures !Current(Load(s, file), s.generations[file.key])
  {
    var after := Load(s, file).generations;
    forall other | other in after ensures after[other] != s.generations[file.key] {
      if other != file.key && s.generations[other] == s.generations[file.key] {
        OneKeyWaits(s, file.key, other);
      }
    }
  }

  lemma SameTab(tabs: seq<Tab>, i: nat, j: nat)
    requires DistinctKeys(tabs) && i < |tabs| && j < |tabs| && tabs[i].key == tabs[j].key
    ensures i == j
  {}

  /** The tab that still loads under this key after a move was not moved. */
  lemma LoadsUnmoved(before: seq<Tab>, origins: seq<nat>, after: seq<Tab>, move: Move, k: nat, i: nat)
    requires DistinctKeys(before) && k < |before| && i < |after|
    requires Relocation(before, origins, after, move)
    requires after[i].key == before[k].key && after[i].status.Loading?
    ensures !Selected(before[k], move) && k in origins
  {
    var o := origins[i];
    assert o in origins;
    assert Relocated(before[o], after[i], move);
    CarriedKeepsDraft(before[o].status);
    assert after[i] == before[o];
    SameTab(before, o, k);
  }

  lemma StaysLoading(before: seq<Tab>, origins: seq<nat>, after: seq<Tab>, move: Move, k: nat) returns (i: nat)
    requires Relocation(before, origins, after, move) && k < |before|
    requires !Selected(before[k], move) && k in origins
    ensures i < |after| && after[i] == before[k]
  {
    i :| 0 <= i < |origins| && origins[i] == k;
  }

  /** After a move the read of a tab is still waited for exactly if the move does not
      concern the tab and leaves it in the list. */
  lemma MovingMakesStale(s: State, move: Move, k: nat)
    requires Valid(s) && k < |s.tabs| && s.tabs[k].key in s.generations
    ensures Current(Relocate(s, move), s.generations[s.tabs[k].key]) <==>
              !Selected(s.tabs[k], move) && k in Moved(s, move).origins
    ensures s.generations[s.tabs[k].key] < Relocate(s, move).nextToken
  {
    RelocateKeepsTabs(s, move);
    var after, origins := Relocate(s, move), Moved(s, move).origins;
    var key := s.tabs[k].key;
    if Current(after, s.generations[key]) {
      var other :| other in after.generations && after.generations[other] == s.generations[key];
      OneKeyWaits(s, key, other);
      var i :| 0 <= i < |after.tabs| && after.tabs[i].key == key;
      LoadsUnmoved(s.tabs, origins, after.tabs, move, k, i);
    }
    if !Selected(s.tabs[k], move) && k in origins {
      var i := StaysLoading(s.tabs, origins, after.tabs, move, k);
      assert key in after.generations;
    }
  }

  /** The result of a read whose tab a move took along, made wait or removed changes
      no tab, whatever happens before it arrives. */
  lemma MovedReadChangesNothing(s: State, move: Move, k: nat, actions: seq<Action>, outcome: Outcome)
    requires Valid(s) && k < |s.tabs| && s.tabs[k].key in s.generations
    requires Selected(s.tabs[k], move) || k !in Moved(s, move).origins
    requires AllAllowed(Relocate(s, move), actions)
    ensures var after, token := Run(Relocate(s, move), actions), s.generations[s.tabs[k].key];
            Settle(after, token, outcome).tabs == after.tabs && Settle(after, token, outcome).generations == after.generations
  {
    MovingMakesStale(s, move, k);
    RelocateKeeps(s, move);
    StaleReadChangesNothing(Relocate(s, move), actions, s.generations[s.tabs[k].key], outcome);
  }

  /** Until it settles, a read keeps its context retained. */
  lemma {:induction false} ContextRetained(s: State, actions: seq<Action>, token: nat)
    requires Valid(s) && AllAllowed(s, actions)
    requires token in s.requests
    requires forall a :: a in actions ==> !(a.DoSettle? && a.token == token)
    ensures token in Run(s, actions).requests
    ensures s.requests[token].context in RetainedContexts(Run(s, actions))
    ensures Run(s, actions).requests[token] == s.requests[token]
    decreases |actions|
  {
    if actions != [] {
      NextKeeps(s, actions[0]);
      assert Next(s, actions[0]).requests[token] == s.requests[token];
      ContextRetained(Next(s, actions[0]), actions[1..], token);
    }
  }
}
