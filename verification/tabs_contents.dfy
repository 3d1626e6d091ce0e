/** What the tabs hold after each operation. */
module TabsContents {
  import opened Wrappers
  import opened Paths
  import opened Tabs
  import opened TabsRelocate
  import opened TabsReads
  import opened TabsOutcome
  import T = TabsTurns

  /** The tab is for that file, at no other place than its own. */
  predicate OpenedFor(tab: Tab, file: Identity) {
    && tab.key == file.key && tab.context == file.context
    && tab.server == file.server && tab.root == file.root && tab.path == file.path
    && tab.pendingMove.None? && tab.locationError.None? && tab.transferring.None?
  }

  /** Tabs at other places, or under other keys, are as they were. */
  predicate OnlyChanges(before: seq<Tab>, after: seq<Tab>, key: Key) {
    |after| == |before| && forall i :: 0 <= i < |before| && before[i].key != key ==> after[i] == before[i]
  }

  lemma ChangeOnly(tabs: seq<Tab>, key: Key, change: Tab -> Tab)
    ensures OnlyChanges(tabs, Change(tabs, key, change), key)
    ensures forall i :: 0 <= i < |tabs| && tabs[i].key == key ==> Change(tabs, key, change)[i] == change(tabs[i])
  {}

  // ----- Reads -----

  /** What a finished read leaves. Text that was just read is not a draft. */
  predicate Delivered(tab: Tab, outcome: Outcome) {
    match outcome
    case TextRead(text) =>
      && tab.status.Text? && tab.status.text == text && tab.status.original == text
      && !tab.status.saving && tab.status.conflict.None? && !Unsaved(tab) && !Protected(tab)
    case PreviewRead => tab.status.Preview? && !Protected(tab)
    case ReadFailed(error) => tab.status.Failed? && tab.status.error == error && !Protected(tab)
  }

  lemma SettledDelivers(file: Identity, outcome: Outcome)
    ensures OpenedFor(SettledTab(file, outcome), file) && Delivered(SettledTab(file, outcome), outcome)
  {}

  lemma SettleIs(s: State, token: nat, outcome: Outcome)
    requires Valid(s) && token in s.requests && Current(s, token)
    ensures var file := s.requests[token];
            && file.key in s.generations && s.generations[file.key] == token
            && Settle(s, token, outcome) == s.(requests := s.requests - {token}, generations := s.generations - {file.key},
                                               tabs := Change(s.tabs, file.key, _ => SettledTab(file, outcome)))
  {
    var key :| key in s.generations && s.generations[key] == token;
    assert s.requests[token].key == key;
  }

  /** A current read fills the one tab that waits for it with what was read. */
  lemma ReadFillsTab(s: State, token: nat, outcome: Outcome)
    requires Valid(s) && token in s.requests && Current(s, token)
    ensures var after, file := Settle(s, token, outcome), s.requests[token];
            && OnlyChanges(s.tabs, after.tabs, file.key)
            && (exists i :: 0 <= i < |after.tabs| && s.tabs[i].key == file.key)
            && (forall i :: 0 <= i < |after.tabs| && s.tabs[i].key == file.key ==>
                  s.tabs[i].status.Loading? && OpenedFor(after.tabs[i], file) && Delivered(after.tabs[i], outcome))
            && token !in after.requests && file.key !in after.generations
  {
    var file := s.requests[token];
    SettleIs(s, token, outcome);
    SettledDelivers(file, outcome);
    ChangeOnly(s.tabs, file.key, _ => SettledTab(file, outcome));
    WaitingTab(s, file.key);
  }

  /** A tab waits for every current read. */
  lemma WaitingTab(s: State, key: Key)
    requires Valid(s) && key in s.generations
    ensures exists i :: 0 <= i < |s.tabs| && s.tabs[i].key == key
    ensures forall i :: 0 <= i < |s.tabs| && s.tabs[i].key == key ==> s.tabs[i].status.Loading?
  {}

  /** A new read is started for the file; its tab loads, where it was or at the end. */
  lemma OpenStartsRead(s: State, file: Identity)
    requires Valid(s) && CorrectIdentity(file)
    ensures var after := Open(s, file);
            if exists i :: 0 <= i < |s.tabs| && s.tabs[i].key == file.key then after == s
            else
              && |after.tabs| == |s.tabs| + 1 && after.tabs[..|s.tabs|] == s.tabs
              && OpenedFor(after.tabs[|s.tabs|], file) && after.tabs[|s.tabs|].status.Loading?
              && after.requests == s.requests[s.nextToken := file] && after.generations == s.generations[file.key := s.nextToken]
              && after.nextToken == s.nextToken + 1
  {}

  /** A failed or previewed tab is read again in its place; any other is left alone. */
  lemma RetryReadsAgain(s: State, i: nat)
    requires Valid(s) && i < |s.tabs|
    ensures var after := Retry(s, s.tabs[i].key);
            if s.tabs[i].status.Failed? || s.tabs[i].status.Preview? then
              && OnlyChanges(s.tabs, after.tabs, s.tabs[i].key)
              && OpenedFor(after.tabs[i], IdentityOf(s.tabs[i])) && after.tabs[i].status.Loading?
              && after.requests == s.requests[s.nextToken := IdentityOf(s.tabs[i])]
              && after.generations == s.generations[s.tabs[i].key := s.nextToken]
            else after == s
  {
    FoundAt(s.tabs, i);
    ChangeOnly(s.tabs, s.tabs[i].key, _ => LoadingTab(IdentityOf(s.tabs[i])));
  }

  lemma FoundAt(tabs: seq<Tab>, i: nat)
    requires DistinctKeys(tabs) && i < |tabs|
    ensures Find(tabs, tabs[i].key) == Some(i)
  {
    SameTab(tabs, Find(tabs, tabs[i].key).value, i);
  }

  /** Closing removes the tab and nothing else. */
  lemma {:induction false} WithoutOne(tabs: seq<Tab>, i: nat)
    requires DistinctKeys(tabs) && i < |tabs|
    ensures Without(tabs, tabs[i].key) == tabs[..i] + tabs[i + 1..]
  {
    if i == 0 {
      WithoutNone(tabs[1..], tabs[0].key);
    } else {
      WithoutOne(tabs[1..], i - 1);
      assert tabs[1..][i - 1] == tabs[i] && tabs[0].key != tabs[i].key;
      assert [tabs[0]] + (tabs[1..][..i - 1] + tabs[1..][i..]) == tabs[..i] + tabs[i + 1..];
    }
  }

  lemma {:induction false} WithoutNone(tabs: seq<Tab>, key: Key)
    requires forall i :: 0 <= i < |tabs| ==> tabs[i].key != key
    ensures Without(tabs, key) == tabs
  {
    if tabs != [] {
      WithoutNone(tabs[1..], key);
    }
  }

  lemma CloseRemovesTab(s: State, i: nat)
    requires Valid(s) && i < |s.tabs|
    ensures var after := Close(s, s.tabs[i].key);
            && after.tabs == s.tabs[..i] + s.tabs[i + 1..] && after.requests == s.requests
            && after.generations == s.generations - {s.tabs[i].key} && after.nextToken == s.nextToken
  {
    WithoutOne(s.tabs, i);
  }

  // ----- Drafts -----

  /** An adopted draft is the last tab, with its text, its original and its conflict,
      in place of any other tab under its key. */
  lemma AdoptShowsDraft(s: State, file: Identity, text: string, original: string, conflict: Option<Conflict>)
    requires Valid(s)
    ensures var after := Adopt(s, file, text, original, conflict).tabs;
            && after != []
            && OpenedFor(after[|after| - 1], file)
            && after[|after| - 1].status == Text(text, original, false, conflict)
            && (Unsaved(after[|after| - 1]) <==> text != original)
            && ((forall i :: 0 <= i < |s.tabs| ==> s.tabs[i].key != file.key) ==> after[..|after| - 1] == s.tabs)
            && (forall i :: 0 <= i < |s.tabs| && s.tabs[i].key == file.key ==> after[..|after| - 1] == s.tabs[..i] + s.tabs[i + 1..])
  {
    if forall i :: 0 <= i < |s.tabs| ==> s.tabs[i].key != file.key {
      WithoutNone(s.tabs, file.key);
    }
    forall i: nat | i < |s.tabs| && s.tabs[i].key == file.key ensures Without(s.tabs, file.key) == s.tabs[..i] + s.tabs[i + 1..] {
      WithoutOne(s.tabs, i);
    }
  }

  /** The editor's changes reach the text they are for, part by part; while a text is
      being handed over its words do not change. */
  lemma UpdateEdits(s: State, i: nat, edit: Edit)
    requires Valid(s) && i < |s.tabs|
    ensures var before, after := s.tabs[i], Update(s, s.tabs[i].key, edit);
            if !before.status.Text? || (before.transferring.Some? && edit.text.Some?) then after == s
            else
              && after == s.(tabs := after.tabs) && OnlyChanges(s.tabs, after.tabs, before.key)
              && var tab := after.tabs[i];
              && tab.status.Text? && tab == before.(status := tab.status)
              && tab.status.text == (match edit.text case Some(text) => text case None => before.status.text)
              && tab.status.original == (match edit.original case Some(original) => original case None => before.status.original)
              && tab.status.saving == (match edit.saving case Some(saving) => saving case None => before.status.saving)
              && tab.status.conflict == before.status.conflict
  {
    FoundAt(s.tabs, i);
    ChangeOnly(s.tabs, s.tabs[i].key, (t: Tab) => Edited(t, edit));
  }

  lemma TransferMarks(s: State, i: nat, transferring: Option<string>)
    requires Valid(s) && i < |s.tabs|
    ensures var before, after := s.tabs[i], SetTransfer(s, s.tabs[i].key, transferring);
            && after == s.(tabs := after.tabs) && OnlyChanges(s.tabs, after.tabs, before.key)
            && after.tabs[i] ==
                 if before.status.Text? || before.status.Preview? then before.(transferring := transferring) else before
  {
    ChangeOnly(s.tabs, s.tabs[i].key, (t: Tab) => if Ready(t) then t.(transferring := transferring) else t);
  }

  lemma BindSetsContext(s: State, i: nat, context: string)
    requires Valid(s) && i < |s.tabs|
    ensures var before, after := s.tabs[i], Bind(s, s.tabs[i].key, context);
            && after == s.(tabs := after.tabs) && OnlyChanges(s.tabs, after.tabs, before.key)
            && after.tabs[i] == if before.pendingMove.Some? then before else before.(context := context, locationError := None)
  {
    ChangeOnly(s.tabs, s.tabs[i].key, (t: Tab) => if t.pendingMove.None? then t.(context := context, locationError := None) else t);
  }

  lemma LocationFailedTells(s: State, i: nat, error: string)
    requires Valid(s) && i < |s.tabs|
    ensures var after := LocationFailed(s, s.tabs[i].key, error);
            && after == s.(tabs := after.tabs) && OnlyChanges(s.tabs, after.tabs, s.tabs[i].key)
            && after.tabs[i] == s.tabs[i].(locationError := Some(error))
  {
    ChangeOnly(s.tabs, s.tabs[i].key, (t: Tab) => t.(locationError := Some(error)));
  }

  // ----- Renames -----

  /** A draft travels unchanged and its save counts as ended; what was not ready has to
      be opened again. */
  predicate Travels(before: Status, after: Status) {
    match before
    case Text(text, original, _, conflict) =>
      && after.Text? && after.text == text && after.original == original && !after.saving
      && (after.conflict.Some? <==> conflict.Some?) && (conflict.Some? ==> after.conflict.value.text == conflict.value.text)
    case Preview => after.Preview?
    case _ => after.Failed? && after.error == "Opening the moved file…"
  }

  /** A bound tab is at its new place: below its old root if that contains the place,
      and otherwise below `/` with its context to be found again. */
  predicate BoundAt(before: Tab, after: Tab, next: string) {
    && RemotePath(after.root, after.path) == next && after.key == Key(before.server, next)
    && after.server == before.server && after.transferring == before.transferring
    && after.pendingMove.None? && after.locationError.None?
    && Travels(before.status, after.status)
    && (after.status.Text? && after.status.conflict.Some? ==> after.status.conflict.value.path == after.path)
    && (if Segments(before.root) <= Segments(next) then after.root == before.root && after.context == before.context
        else after.root == "/" && after.context == "")
  }

  /** A waiting tab is where it was and says where it belongs. */
  predicate WaitsFor(before: Tab, after: Tab, next: string) {
    && after == before.(status := after.status, pendingMove := Some(next), locationError := after.locationError)
    && after.locationError == Some("This file moved to " + next + ". Close the conflicting destination tab, then retry.")
    && Travels(before.status, after.status)
    && (after.status.Text? ==> after.status.conflict == before.status.conflict)
  }

  lemma BoundHolds(tab: Tab, move: Move)
    requires Rename(move) && Anchored(tab) && CorrectKey(tab) && Selected(tab, move)
    ensures BoundAt(tab, Bound(tab, move), NextPath(tab, move))
    ensures WaitsFor(tab, Waiting(tab, move), NextPath(tab, move))
  {
    var next := NextPath(tab, move);
    NextPathSegments(tab, move);
    BoundNamesNext(tab, next);
    RelativePathSegments(tab.root, next);
  }

  /** Every tab left by a rename is as it was, bound at its new place or waiting for it. */
  lemma RelocateHolds(s: State, move: Move, p: nat)
    requires ListSound(s.tabs, s.generations) && Rename(move)
    requires forall i :: 0 <= i < |s.tabs| ==> Anchored(s.tabs[i])
    requires p < |Relocate(s, move).tabs|
    ensures var after, f := Relocate(s, move).tabs[p], Facts(s.tabs, move);
            p < |Moved(s, move).origins| && Moved(s, move).origins[p] < |s.tabs| &&
            var o := Moved(s, move).origins[p];
            && (!Selected(s.tabs[o], move) ==> after == s.tabs[o])
            && (Selected(s.tabs[o], move) && T.Binds(f, o) ==> BoundAt(s.tabs[o], after, NextPath(s.tabs[o], move)))
            && (Selected(s.tabs[o], move) && !T.Binds(f, o) ==> WaitsFor(s.tabs[o], after, NextPath(s.tabs[o], move)))
  {
    RelocateExact(s, move);
    OrderCovers(s.tabs);
    var o := Moved(s, move).origins[p];
    assert o in Members(Order(s.tabs));
    if Selected(s.tabs[o], move) {
      BoundHolds(s.tabs[o], move);
    }
  }

  // ----- The keys that a rename reports -----

  predicate BoundBy(f: seq<T.Fact>, i: nat, done: set<nat>) {
    i < |f| && i in done && T.Binds(f, i)
  }

  /** The old keys of the tabs bound so far, each with the new one. */
  ghost predicate Reported(f: seq<T.Fact>, keys: map<Key, Key>, done: set<nat>) {
    && (forall i: nat :: BoundBy(f, i, done) ==> f[i].own in keys && keys[f[i].own] == f[i].goal)
    && (forall key :: key in keys ==> exists i: nat :: BoundBy(f, i, done) && f[i].own == key)
  }

  lemma TurnReports(before: seq<Tab>, f: seq<T.Fact>, m: Moving, done: set<nat>, x: nat, move: Move)
    requires f == Facts(before, move) && Exact(before, f, m, done, move)
    requires T.Next(f, done, x) && DistinctKeys(m.tabs) && Distinct(m.origins)
    ensures MoveOne(m, x, move).keys == if T.Binds(f, x) then m.keys[f[x].own := f[x].goal] else m.keys
  {
    var at := Locate(m.origins, x);
    T.GoneIsSkipped(f, done, x);
    if at.Some? && f[x].moves {
      MovingReports(before, f, m, done, x, at.value, move);
    } else {
      assert at.Some? ==> m.tabs[at.value] == before[x];
    }
  }

  lemma MovingReports(before: seq<Tab>, f: seq<T.Fact>, m: Moving, done: set<nat>, x: nat, at: nat, move: Move)
    requires f == Facts(before, move) && Exact(before, f, m, done, move)
    requires T.Next(f, done, x) && DistinctKeys(m.tabs) && Distinct(m.origins)
    requires Locate(m.origins, x) == Some(at) && f[x].moves
    ensures MoveOne(m, x, move).keys == if T.Binds(f, x) then m.keys[f[x].own := f[x].goal] else m.keys
  {
    StillThere(before, f, m, done, x, at, move);
    ExactMatches(before, f, m, done, move);
    var rival := Rival(m.tabs, at, f[x].goal);
    RivalMeansHeld(f, m, done, x, at, rival);
    TurnKeys(m, at, rival, move);
  }

  lemma StillThere(before: seq<Tab>, f: seq<T.Fact>, m: Moving, done: set<nat>, x: nat, at: nat, move: Move)
    requires f == Facts(before, move) && Exact(before, f, m, done, move) && T.Next(f, done, x)
    requires at < |m.tabs| && m.origins[at] == x && f[x].moves
    ensures m.tabs[at] == before[x] && !T.Skipped(f, x)
  {
    assert m.origins[at] in m.origins;
    T.NotYetMoved(f, done, x);
    T.GoneIsSkipped(f, done, x);
  }

  lemma TurnKeys(m: Moving, at: nat, rival: Option<nat>, move: Move)
    requires |m.origins| == |m.tabs| && at < |m.tabs| && (rival.Some? ==> rival.value < |m.tabs|)
    ensures Turn(m, at, rival, move).keys ==
              if rival.Some? && Protected(m.tabs[rival.value]) then m.keys else m.keys[m.tabs[at].key := NewKey(m.tabs[at], move)]
  {}

  lemma ReportedNext(f: seq<T.Fact>, keys: map<Key, Key>, done: set<nat>, x: nat)
    requires Reported(f, keys, done) && x < |f|
    requires forall i, j :: 0 <= i < j < |f| ==> f[i].own != f[j].own
    ensures Reported(f, if T.Binds(f, x) then keys[f[x].own := f[x].goal] else keys, done + {x})
  {
    var after := if T.Binds(f, x) then keys[f[x].own := f[x].goal] else keys;
    assert forall i: nat :: i < |f| && i != x ==> (BoundBy(f, i, done + {x}) <==> BoundBy(f, i, done));
    forall key | key in after ensures exists i: nat :: BoundBy(f, i, done + {x}) && f[i].own == key {
      if key in keys && !(T.Binds(f, x) && key == f[x].own) {
        var i: nat :| BoundBy(f, i, done) && f[i].own == key;
        assert BoundBy(f, i, done + {x});
      } else {
        assert BoundBy(f, x, done + {x});
      }
    }
  }

  /** What holds between two turns. */
  ghost predicate Told(before: seq<Tab>, f: seq<T.Fact>, m: Moving, n: nat, move: Move) {
    && Between(before, f, m, n, move)
    && Reported(f, m.keys, Members(Order(before)[..n]))
  }

  lemma OneReport(before: seq<Tab>, f: seq<T.Fact>, m: Moving, n: nat, move: Move)
    requires f == Facts(before, move) && Told(before, f, m, n, move) && DistinctKeys(before) && n < |Order(before)|
    ensures Told(before, f, MoveOne(m, Order(before)[n], move), n + 1, move)
  {
    var order := Order(before);
    NextInOrder(before, f, n);
    TurnReports(before, f, m, Members(order[..n]), order[n], move);
    ReportedNext(f, m.keys, Members(order[..n]), order[n]);
    MembersNext(order, n);
    OneTurn(before, f, m, n, move);
  }

  lemma {:induction false} MoveAllReports(before: seq<Tab>, f: seq<T.Fact>, m: Moving, n: nat, move: Move)
    requires f == Facts(before, move) && DistinctKeys(before) && n <= |Order(before)| && Told(before, f, m, n, move)
    ensures Told(before, f, MoveAll(m, Order(before)[n..], move), |Order(before)|, move)
    decreases |Order(before)| - n
  {
    var order := Order(before);
    if n == |order| {
      assert order[n..] == [];
    } else {
      var next := MoveOne(m, order[n], move);
      OneReport(before, f, m, n, move);
      TurnFirst(m, order, n, move);
      MoveAllReports(before, f, next, n + 1, move);
    }
  }

  lemma TurnFirst(m: Moving, order: seq<nat>, n: nat, move: Move)
    requires |m.origins| == |m.tabs| && n < |order|
    ensures MoveAll(m, order[n..], move) == MoveAll(MoveOne(m, order[n], move), order[n + 1..], move)
  {
    assert order[n..][0] == order[n] && order[n..][1..] == order[n + 1..];
  }

  /** `relocate` reports exactly the tabs that it has bound, by their old keys. */
  lemma RelocateReports(s: State, move: Move, k: nat)
    requires ListSound(s.tabs, s.generations) && k < |s.tabs|
    ensures s.tabs[k].key in Moved(s, move).keys <==> T.Binds(Facts(s.tabs, move), k)
    ensures s.tabs[k].key in Moved(s, move).keys ==> Moved(s, move).keys[s.tabs[k].key] == NewKey(s.tabs[k], move)
    ensures forall key :: key in Moved(s, move).keys ==> exists i :: 0 <= i < |s.tabs| && s.tabs[i].key == key
  {
    var m, f := Unmoved(s.tabs, s.generations), Facts(s.tabs, move);
    BeforeAll(s.tabs, f, m, move);
    assert Told(s.tabs, f, m, 0, move);
    MoveAllReports(s.tabs, f, m, 0, move);
    assert Order(s.tabs)[0..] == Order(s.tabs) && Order(s.tabs)[..|Order(s.tabs)|] == Order(s.tabs);
    OrderCovers(s.tabs);
    assert k in Members(Order(s.tabs));
    OwnKeys(s.tabs, f, Moved(s, move).keys, Members(Order(s.tabs)), move, k);
  }

  lemma OwnKeys(tabs: seq<Tab>, f: seq<T.Fact>, keys: map<Key, Key>, all: set<nat>, move: Move, k: nat)
    requires f == Facts(tabs, move) && DistinctKeys(tabs) && Reported(f, keys, all) && k < |tabs| && k in all
    ensures tabs[k].key in keys <==> T.Binds(f, k)
    ensures tabs[k].key in keys ==> keys[tabs[k].key] == NewKey(tabs[k], move)
    ensures forall key :: key in keys ==> exists i :: 0 <= i < |tabs| && tabs[i].key == key
  {
    assert f[k].own == tabs[k].key && f[k].goal == NewKey(tabs[k], move);
    if T.Binds(f, k) {
      assert BoundBy(f, k, all);
    }
    forall key | key in keys ensures exists i: nat :: i < |tabs| && tabs[i].key == key && T.Binds(f, i) {
      var i := ReportedTab(tabs, f, keys, all, move, key);
    }
    if tabs[k].key in keys {
      var i: nat :| i < |tabs| && tabs[i].key == tabs[k].key && T.Binds(f, i);
      SameTab(tabs, i, k);
    }
  }

  lemma ReportedTab(tabs: seq<Tab>, f: seq<T.Fact>, keys: map<Key, Key>, all: set<nat>, move: Move, key: Key) returns (i: nat)
    requires f == Facts(tabs, move) && Reported(f, keys, all) && key in keys
    ensures i < |tabs| && tabs[i].key == key && T.Binds(f, i)
  {
    i :| BoundBy(f, i, all) && f[i].own == key;
  }
}
