/** What a rename does to the open tabs: keys stay distinct and correct, no draft
    is lost, and every tab inside the moved path is bound there or waits for it. */
module TabsRelocate {
  import opened Wrappers
  import opened Paths
  import opened Tabs

  // ----- The invariant of the tab list -----

  predicate DistinctKeys(tabs: seq<Tab>) {
    forall i, j :: 0 <= i < j < |tabs| ==> tabs[i].key != tabs[j].key
  }

  predicate CorrectKey(tab: Tab) {
    tab.key == FileKey(tab.server, tab.root, tab.path)
  }

  /** A tab is loading exactly while a generation names the read it waits for. */
  ghost predicate GenerationsMatch(tabs: seq<Tab>, generations: map<Key, nat>) {
    && (forall i :: 0 <= i < |tabs| ==> (tabs[i].status.Loading? <==> tabs[i].key in generations))
    && (forall key :: key in generations ==> exists i :: 0 <= i < |tabs| && tabs[i].key == key)
  }

  ghost predicate ListSound(tabs: seq<Tab>, generations: map<Key, nat>) {
    && DistinctKeys(tabs)
    && (forall i :: 0 <= i < |tabs| ==> CorrectKey(tabs[i]))
    && GenerationsMatch(tabs, generations)
  }

  // ----- What relocate promises -----

  /** A tab that may disappear in a move: it holds no draft and is not being handed over. */
  predicate Expendable(tab: Tab) {
    !Unsaved(tab) && !(Ready(tab) && tab.transferring.Some?)
  }

  /** Another tab is on its way to the same place. */
  predicate Contested(tabs: seq<Tab>, k: nat, move: Move)
    requires k < |tabs|
  {
    && Selected(tabs[k], move)
    && exists i :: 0 <= i < |tabs| && i != k && Selected(tabs[i], move) && NewKey(tabs[i], move) == NewKey(tabs[k], move)
  }

  /** What disappears is expendable, and a tab that was protected only by a save
      in progress or by waiting itself gives way only to a tab with the same goal. */
  predicate Removable(tabs: seq<Tab>, k: nat, move: Move)
    requires k < |tabs|
  {
    Expendable(tabs[k]) && (Protected(tabs[k]) ==> Contested(tabs, k, move))
  }

  predicate Relocated(before: Tab, after: Tab, move: Move) {
    if !Selected(before, move) then after == before
    else after == Waiting(before, move) || after == Bound(before, move)
  }

  /** `origins[i]` is the old position of the tab now at position `i`. */
  ghost predicate Relocation(before: seq<Tab>, origins: seq<nat>, after: seq<Tab>, move: Move) {
    && |origins| == |after|
    && Increasing(origins)
    && (forall i :: 0 <= i < |origins| ==> origins[i] < |before| && Relocated(before[origins[i]], after[i], move))
    && (forall k :: 0 <= k < |before| && k !in origins ==> Removable(before, k, move))
  }

  // ----- The loop -----

  predicate Increasing(origins: seq<nat>) {
    forall i, j :: 0 <= i < j < |origins| ==> origins[i] < origins[j]
  }

  /** The state between two turns; `todo` holds the tabs whose turn is still to come. */
  ghost predicate Rebuilding(before: seq<Tab>, m: Moving, todo: set<nat>, move: Move) {
    && |m.origins| == |m.tabs|
    && Increasing(m.origins)
    && (forall i :: 0 <= i < |m.tabs| ==>
          && m.origins[i] < |before|
          && if m.origins[i] in todo then m.tabs[i] == before[m.origins[i]]
             else Relocated(before[m.origins[i]], m.tabs[i], move))
    && (forall k :: 0 <= k < |before| && k !in m.origins ==> Removable(before, k, move))
  }

  lemma CarriedKeepsDraft(status: Status)
    ensures status.Text? ==> Carried(status).Text? && Carried(status).text == status.text && Carried(status).original == status.original
    ensures !Carried(status).Loading?
  {}

  /** Replace one tab by one with a key that no other tab has. */
  lemma PlaceSound(tabs: seq<Tab>, at: nat, tab: Tab, generations: map<Key, nat>)
    requires at < |tabs|
    requires ListSound(tabs, generations)
    requires CorrectKey(tab) && !tab.status.Loading?
    requires forall i :: 0 <= i < |tabs| && i != at ==> tabs[i].key != tab.key
    ensures ListSound(tabs[at := tab], generations - {tabs[at].key})
  {
    var after, rest := tabs[at := tab], generations - {tabs[at].key};
    forall key | key in rest ensures exists i :: 0 <= i < |after| && after[i].key == key {
      var i :| 0 <= i < |tabs| && tabs[i].key == key;
      assert after[i].key == key;
    }
  }

  /** Remove one tab together with the read it waits for. */
  lemma DropSound(tabs: seq<Tab>, at: nat, generations: map<Key, nat>)
    requires at < |tabs|
    requires ListSound(tabs, generations)
    ensures ListSound(Drop(tabs, at), generations - {tabs[at].key})
  {
    DropAt(tabs, at);
    LeftSound(tabs, at, Drop(tabs, at), generations);
  }

  lemma LeftSound(tabs: seq<Tab>, at: nat, after: seq<Tab>, generations: map<Key, nat>)
    requires at < |tabs| && |after| == |tabs| - 1
    requires ListSound(tabs, generations)
    requires forall i :: 0 <= i < |after| ==> after[i] == tabs[if i < at then i else i + 1]
    ensures ListSound(after, generations - {tabs[at].key})
  {
    LeftKeys(tabs, at, after);
    LeftGenerations(tabs, at, after, generations);
  }

  lemma LeftGenerations(tabs: seq<Tab>, at: nat, after: seq<Tab>, generations: map<Key, nat>)
    requires at < |tabs| && |after| == |tabs| - 1
    requires GenerationsMatch(tabs, generations)
    requires forall i :: 0 <= i < |after| ==> after[i] == tabs[if i < at then i else i + 1]
    requires forall i :: 0 <= i < |after| ==> after[i].key != tabs[at].key
    ensures GenerationsMatch(after, generations - {tabs[at].key})
  {
    var rest := generations - {tabs[at].key};
    forall key | key in rest ensures exists i :: 0 <= i < |after| && after[i].key == key {
      var i :| 0 <= i < |tabs| && tabs[i].key == key;
      assert after[if i < at then i else i - 1].key == key;
    }
  }

  lemma LeftKeys(tabs: seq<Tab>, at: nat, after: seq<Tab>)
    requires at < |tabs| && |after| == |tabs| - 1
    requires DistinctKeys(tabs)
    requires forall i :: 0 <= i < |after| ==> after[i] == tabs[if i < at then i else i + 1]
    ensures DistinctKeys(after)
    ensures forall i :: 0 <= i < |after| ==> after[i].key != tabs[at].key
  {}

  lemma DropAt<T>(list: seq<T>, at: nat)
    requires at < |list|
    ensures |Drop(list, at)| == |list| - 1
    ensures forall i :: 0 <= i < |list| - 1 ==> Drop(list, at)[i] == list[if i < at then i else i + 1]
    ensures forall i :: 0 <= i < |list| && i != at ==> list[i] == Drop(list, at)[if i < at then i else i - 1]
  {}

  lemma DropAfterUpdate<T>(list: seq<T>, at: nat, dropped: nat, value: T)
    requires at < |list| && dropped < |list| && at != dropped
    ensures Drop(list[at := value], dropped) == Drop(list, dropped)[if at < dropped then at else at - 1 := value]
  {}

  lemma DroppedKeyIsGone(tabs: seq<Tab>, at: nat)
    requires at < |tabs| && DistinctKeys(tabs)
    ensures forall t :: t in Drop(tabs, at) ==> t.key != tabs[at].key
  {
    DropAt(tabs, at);
  }

  /** A new place that somebody expendable still holds. */
  lemma TakeOverSound(tabs: seq<Tab>, at: nat, rival: nat, tab: Tab, generations: map<Key, nat>)
    requires at < |tabs| && rival < |tabs| && at != rival
    requires ListSound(tabs, generations)
    requires CorrectKey(tab) && !tab.status.Loading? && tabs[rival].key == tab.key
    ensures ListSound(Drop(tabs[at := tab], rival), generations - {tabs[at].key} - {tab.key})
  {
    // The order of the two changes does not matter.
    DropSound(tabs, rival, generations);
    DroppedKeyIsGone(tabs, rival);
    var rest := Drop(tabs, rival);
    var at' := if at < rival then at else at - 1;
    assert rest[at'] == tabs[at];
    PlaceSound(rest, at', tab, generations - {tab.key});
    DropAfterUpdate(tabs, at, rival, tab);
    assert generations - {tabs[at].key} - {tab.key} == generations - {tab.key} - {tabs[at].key};
  }

  /** One turn keeps the list well formed. */
  lemma MoveOneSound(m: Moving, origin: nat, move: Move)
    requires |m.origins| == |m.tabs|
    requires ListSound(m.tabs, m.generations)
    ensures var after := MoveOne(m, origin, move); ListSound(after.tabs, after.generations)
  {
    var at := Locate(m.origins, origin);
    if at.Some? && Selected(m.tabs[at.value], move) {
      TurnSound(m, at.value, Rival(m.tabs, at.value, NewKey(m.tabs[at.value], move)), move);
    }
  }

  /** What `Rival` promises. */
  predicate IsRival(tabs: seq<Tab>, at: nat, key: Key, rival: Option<nat>) {
    && (rival.Some? ==> rival.value < |tabs| && rival.value != at && tabs[rival.value].key == key)
    && (rival.None? ==> forall i :: 0 <= i < |tabs| && i != at ==> tabs[i].key != key)
  }

  lemma TurnSound(m: Moving, at: nat, rival: Option<nat>, move: Move)
    requires |m.origins| == |m.tabs| && at < |m.tabs|
    requires ListSound(m.tabs, m.generations) && m.tabs[at].server == move.server
    requires IsRival(m.tabs, at, NewKey(m.tabs[at], move), rival)
    ensures var after := Turn(m, at, rival, move); ListSound(after.tabs, after.generations)
  {
    var tab := m.tabs[at];
    CarriedKeepsDraft(tab.status);
    if rival.Some? && Protected(m.tabs[rival.value]) {
      WaitingSound(m.tabs, at, Waiting(tab, move), m.generations);
    } else if rival.None? {
      PlaceSound(m.tabs, at, Bound(tab, move), m.generations);
    } else {
      TakeOverSound(m.tabs, at, rival.value, Bound(tab, move), m.generations);
    }
  }

  lemma WaitingSound(tabs: seq<Tab>, at: nat, tab: Tab, generations: map<Key, nat>)
    requires at < |tabs| && ListSound(tabs, generations)
    requires CorrectKey(tab) && !tab.status.Loading? && tab.key == tabs[at].key
    ensures ListSound(tabs[at := tab], generations - {tabs[at].key})
  {
    forall i: nat | i < |tabs| && i != at ensures tabs[i].key != tab.key {
      assert tabs[if i < at then i else at].key != tabs[if i < at then at else i].key;
    }
    PlaceSound(tabs, at, tab, generations);
  }

  predicate Submap(a: map<Key, nat>, b: map<Key, nat>) {
    forall key :: key in a ==> key in b && a[key] == b[key]
  }

  /** A rival that gives way holds nothing that would be lost. */
  lemma RivalRemovable(before: seq<Tab>, r: nat, current: Tab, mover: nat, move: Move)
    requires r < |before| && mover < |before| && r != mover
    requires current == before[r] || Relocated(before[r], current, move)
    requires !Protected(current)
    requires Selected(before[mover], move) && current.key == NewKey(before[mover], move)
    ensures Removable(before, r, move)
  {
    if current != before[r] {
      MovedTabIsContested(before, r, current, mover, move);
    }
  }

  /** A tab that was moved to the goal of another one. */
  lemma MovedTabIsContested(before: seq<Tab>, r: nat, current: Tab, mover: nat, move: Move)
    requires r < |before| && mover < |before| && r != mover
    requires Relocated(before[r], current, move) && current != before[r]
    requires !Protected(current)
    requires Selected(before[mover], move) && current.key == NewKey(before[mover], move)
    ensures Expendable(before[r]) && Contested(before, r, move)
  {
    assert current == Bound(before[r], move);
  }

  lemma DropRebuilds(before: seq<Tab>, m: Moving, at: nat, todo: set<nat>, move: Move)
    requires Rebuilding(before, m, todo, move)
    requires at < |m.tabs| && Removable(before, m.origins[at], move)
    ensures Rebuilding(before, m.(tabs := Drop(m.tabs, at), origins := Drop(m.origins, at)), todo, move)
  {
    DropAt(m.origins, at);
    DropAt(m.tabs, at);
    DropMembers(m.origins, at);
  }

  lemma DropMembers(list: seq<nat>, at: nat)
    requires at < |list|
    ensures forall k :: k in list && k != list[at] ==> k in Drop(list, at)
  {
    DropAt(list, at);
  }

  lemma PlaceRebuilds(before: seq<Tab>, m: Moving, at: nat, tab: Tab, todo: set<nat>, move: Move)
    requires Rebuilding(before, m, todo, move)
    requires at < |m.tabs| && Relocated(before[m.origins[at]], tab, move)
    ensures Rebuilding(before, m.(tabs := m.tabs[at := tab]), todo - {m.origins[at]}, move)
  {}

  lemma MoveOneRebuilds(before: seq<Tab>, m: Moving, origin: nat, todo: set<nat>, move: Move)
    requires Rebuilding(before, m, todo, move)
    requires origin in todo
    ensures Rebuilding(before, MoveOne(m, origin, move), todo - {origin}, move)
  {
    var at := Locate(m.origins, origin);
    if at.Some? && Selected(m.tabs[at.value], move) {
      TurnRebuilds(before, m, at.value, Rival(m.tabs, at.value, NewKey(m.tabs[at.value], move)), todo, move);
    } else {
      assert MoveOne(m, origin, move) == m;
      SkipRebuilds(before, m, origin, at, todo, move);
    }
  }

  lemma SkipRebuilds(before: seq<Tab>, m: Moving, origin: nat, at: Option<nat>, todo: set<nat>, move: Move)
    requires Rebuilding(before, m, todo, move)
    requires match at
             case None => origin !in m.origins
             case Some(p) => p < |m.tabs| && m.origins[p] == origin && !Selected(m.tabs[p], move)
    requires origin in todo
    ensures Rebuilding(before, m, todo - {origin}, move)
  {
    if at.Some? {
      PlaceRebuilds(before, m, at.value, m.tabs[at.value], todo, move);
      assert m.tabs[at.value := m.tabs[at.value]] == m.tabs;
    }
  }

  lemma MoveOneForgets(m: Moving, origin: nat, move: Move)
    requires |m.origins| == |m.tabs|
    ensures Submap(MoveOne(m, origin, move).generations, m.generations)
  {}

  lemma TurnRebuilds(before: seq<Tab>, m: Moving, at: nat, rival: Option<nat>, todo: set<nat>, move: Move)
    requires Rebuilding(before, m, todo, move)
    requires at < |m.tabs| && m.origins[at] in todo && Selected(m.tabs[at], move)
    requires IsRival(m.tabs, at, NewKey(m.tabs[at], move), rival)
    ensures Rebuilding(before, Turn(m, at, rival, move), todo - {m.origins[at]}, move)
  {
    var tab := m.tabs[at];
    if rival.Some? && Protected(m.tabs[rival.value]) {
      PlaceRebuilds(before, m, at, Waiting(tab, move), todo, move);
    } else {
      PlaceRebuilds(before, m, at, Bound(tab, move), todo, move);
      if rival.Some? {
        GivesWay(before, m, at, rival.value, todo, move);
        DropRebuilds(before, m.(tabs := m.tabs[at := Bound(tab, move)]), rival.value, todo - {m.origins[at]}, move);
      }
    }
  }

  lemma GivesWay(before: seq<Tab>, m: Moving, at: nat, r: nat, todo: set<nat>, move: Move)
    requires Rebuilding(before, m, todo, move)
    requires at < |m.tabs| && m.origins[at] in todo && Selected(m.tabs[at], move)
    requires r < |m.tabs| && r != at && m.tabs[r].key == NewKey(m.tabs[at], move) && !Protected(m.tabs[r])
    ensures Removable(before, m.origins[r], move)
  {
    assert m.origins[if r < at then r else at] < m.origins[if r < at then at else r];
    RivalRemovable(before, m.origins[r], m.tabs[r], m.origins[at], move);
  }

  lemma {:induction false} MoveAllRebuilds(before: seq<Tab>, m: Moving, order: seq<nat>, todo: set<nat>, move: Move)
    requires Rebuilding(before, m, todo, move) && ListSound(m.tabs, m.generations)
    requires forall i :: i in order ==> i in todo
    requires forall a, b :: 0 <= a < b < |order| ==> order[a] != order[b]
    ensures Rebuilding(before, MoveAll(m, order, move), todo - (set i | i in order), move)
    ensures ListSound(MoveAll(m, order, move).tabs, MoveAll(m, order, move).generations)
    ensures Submap(MoveAll(m, order, move).generations, m.generations)
    decreases |order|
  {
    if order == [] {
      assert todo - (set i | i in order) == todo;
    } else {
      MoveOneRebuilds(before, m, order[0], todo, move);
      MoveOneForgets(m, order[0], move);
      MoveOneSound(m, order[0], move);
      MoveAllRebuilds(before, MoveOne(m, order[0], move), order[1..], todo - {order[0]}, move);
      TurnsLeft(order, todo);
    }
  }

  lemma TurnsLeft(order: seq<nat>, todo: set<nat>)
    requires order != []
    ensures todo - {order[0]} - (set i | i in order[1..]) == todo - (set i | i in order)
  {
    assert order == [order[0]] + order[1..];
  }

  /** Every tab gets exactly one turn. */
  lemma OrderCovers(tabs: seq<Tab>)
    ensures forall i :: i in Order(tabs) <==> 0 <= i < |tabs|
    ensures forall a, b :: 0 <= a < b < |Order(tabs)| ==> Order(tabs)[a] != Order(tabs)[b]
  {
    var bound, waiting := Positions(tabs, false, 0), Positions(tabs, true, 0);
    forall a, b | 0 <= a < b < |Order(tabs)| ensures Order(tabs)[a] != Order(tabs)[b] {
      if a < |bound| <= b {
        assert bound[a] in bound && waiting[b - |bound|] in waiting;
      }
    }
  }

  /** relocate: the list stays sound, its order is kept, every tab that stays is
      untouched, bound or waiting, and every tab that goes is expendable. */
  lemma RelocateKeepsTabs(s: State, move: Move)
    requires ListSound(s.tabs, s.generations)
    ensures ListSound(Relocate(s, move).tabs, Relocate(s, move).generations)
    ensures Relocation(s.tabs, Moved(s, move).origins, Relocate(s, move).tabs, move)
    ensures Submap(Relocate(s, move).generations, s.generations)
  {
    var m, todo := Unmoved(s.tabs, s.generations), set i | i in Order(s.tabs);
    OrderCovers(s.tabs);
    BeforeTurns(s.tabs, m, todo, move);
    MoveAllRebuilds(s.tabs, m, Order(s.tabs), todo, move);
    assert todo - (set i | i in Order(s.tabs)) == {};
    AfterTurns(s.tabs, Moved(s, move), move);
  }

  lemma BeforeTurns(tabs: seq<Tab>, m: Moving, todo: set<nat>, move: Move)
    requires m.tabs == tabs && m.origins == seq(|tabs|, i => i) && forall i: nat :: i < |tabs| ==> i in todo
    ensures Rebuilding(tabs, m, todo, move)
  {
    forall k | 0 <= k < |tabs| ensures k in m.origins {
      assert m.origins[k] == k;
    }
  }

  lemma AfterTurns(before: seq<Tab>, m: Moving, move: Move)
    requires Rebuilding(before, m, {}, move)
    ensures Relocation(before, m.origins, m.tabs, move)
  {}

  // ----- Drafts -----

  function Draft(tab: Tab): seq<(string, string)> {
    if Unsaved(tab) then [(tab.status.text, tab.status.original)] else []
  }

  function DraftsUpTo(tabs: seq<Tab>, n: nat): seq<(string, string)>
    requires n <= |tabs|
  {
    if n == 0 then [] else DraftsUpTo(tabs, n - 1) + Draft(tabs[n - 1])
  }

  /** The unsaved drafts, in tab order. */
  function Drafts(tabs: seq<Tab>): seq<(string, string)> {
    DraftsUpTo(tabs, |tabs|)
  }

  /** A tab keeps its draft whether it waits or is bound. */
  lemma RelocatedDraft(before: Tab, after: Tab, move: Move)
    requires Relocated(before, after, move)
    ensures Draft(after) == Draft(before)
  {}

  /** `p` tabs are left of the first `k`. */
  predicate LeftOf(origins: seq<nat>, k: nat, p: nat) {
    p <= |origins| && forall i :: 0 <= i < |origins| ==> (i < p <==> origins[i] < k)
  }

  lemma OneLess(origins: seq<nat>, k: nat, p: nat)
    requires Increasing(origins) && LeftOf(origins, k, p) && k > 0
    ensures if p > 0 && origins[p - 1] == k - 1 then LeftOf(origins, k - 1, p - 1)
            else LeftOf(origins, k - 1, p) && k - 1 !in origins
  {
    if k - 1 in origins {
      var i :| 0 <= i < |origins| && origins[i] == k - 1;
      assert i < p;
    }
  }

  lemma NoneLeftOfZero(origins: seq<nat>, p: nat)
    requires LeftOf(origins, 0, p)
    ensures p == 0
  {
    assert |origins| > 0 ==> origins[0] >= 0;
  }

  predicate AllRelocated(before: seq<Tab>, origins: seq<nat>, after: seq<Tab>, move: Move) {
    && |origins| == |after|
    && forall i :: 0 <= i < |origins| ==> origins[i] < |before| && Relocated(before[origins[i]], after[i], move)
  }

  predicate OthersSaved(before: seq<Tab>, origins: seq<nat>) {
    forall i :: 0 <= i < |before| && i !in origins ==> !Unsaved(before[i])
  }

  lemma KeptDraft(before: seq<Tab>, origins: seq<nat>, after: seq<Tab>, move: Move, i: nat)
    requires AllRelocated(before, origins, after, move) && i < |after|
    ensures Draft(after[i]) == Draft(before[origins[i]])
  {
    RelocatedDraft(before[origins[i]], after[i], move);
  }

  /** One more of the old tabs: either it is the next one left, or it holds no draft. */
  lemma DraftStep(before: seq<Tab>, origins: seq<nat>, after: seq<Tab>, move: Move, k: nat, p: nat)
    requires AllRelocated(before, origins, after, move) && OthersSaved(before, origins)
    requires k < |before| && p <= |origins| && (k !in origins || (p > 0 && origins[p - 1] == k))
    ensures Draft(before[k]) == if p > 0 && origins[p - 1] == k then Draft(after[p - 1]) else []
  {
    if p > 0 && origins[p - 1] == k {
      KeptDraft(before, origins, after, move, p - 1);
    }
  }

  lemma {:induction false} RelocationKeepsDrafts(before: seq<Tab>, origins: seq<nat>, after: seq<Tab>, move: Move, k: nat, p: nat)
    requires AllRelocated(before, origins, after, move) && Increasing(origins) && OthersSaved(before, origins)
    requires k <= |before| && LeftOf(origins, k, p)
    ensures DraftsUpTo(after, p) == DraftsUpTo(before, k)
    decreases k
  {
    if k == 0 {
      NoneLeftOfZero(origins, p);
      return;
    }
    OneLess(origins, k, p);
    DraftStep(before, origins, after, move, k - 1, p);
    RelocationKeepsDrafts(before, origins, after, move, k - 1, if p > 0 && origins[p - 1] == k - 1 then p - 1 else p);
  }

  /** No unsaved draft is dropped, merged or reordered by a move. */
  lemma RelocateKeepsDrafts(s: State, move: Move)
    requires ListSound(s.tabs, s.generations)
    ensures Drafts(Relocate(s, move).tabs) == Drafts(s.tabs)
  {
    RelocateKeepsTabs(s, move);
    RelocationKeepsDrafts(s.tabs, Moved(s, move).origins, Relocate(s, move).tabs, move, |s.tabs|, |Moved(s, move).origins|);
  }

  // ----- Where the tabs end up -----

  /** A rename between normalised paths; nothing is renamed to or from the root. */
  predicate Rename(move: Move) {
    && Normalised(move.source) && Normalised(move.destination)
    && (move.source == "/" <==> move.destination == "/")
  }

  predicate Anchored(tab: Tab) {
    tab.pendingMove.Some? ==> Normalised(tab.pendingMove.value)
  }

  lemma NextPathSegments(tab: Tab, move: Move)
    requires Rename(move) && Anchored(tab) && Selected(tab, move)
    ensures Segments(move.source) <= Segments(CurrentPath(tab))
    ensures NextPath(tab, move)
            == Absolute(Segments(move.destination) + Segments(CurrentPath(tab))[|Segments(move.source)|..])
    ensures Normalised(NextPath(tab, move))
  {
    RemotePathSegments(tab.root, tab.path);
    var p, source, destination := Segments(CurrentPath(tab)), Segments(move.source), Segments(move.destination);
    SegmentsClean(CurrentPath(tab));
    SegmentsClean(move.source);
    SegmentsClean(move.destination);
    WithinIsPrefix(source, p);
    assert Absolute([]) == "/";
    SegmentsOfAbsolute([]);
    MovedPathSegments(p, source, destination);
    SegmentsOfAbsolute(destination + p[|source|..]);
  }

  /** A bound tab names exactly the moved path, whatever root it keeps. */
  lemma BoundNamesNext(tab: Tab, next: string)
    requires Normalised(next)
    ensures RemotePath(NewRoot(tab, next), NewPath(tab, next)) == next
  {
    RelativePathSegments(tab.root, next);
    if RelativePath(tab.root, next).None? {
      RelativePathSegments("/", next);
      assert Absolute([]) == "/";
      SegmentsOfAbsolute([]);
      RemotePathSegments("/", "");
      assert [] + Segments("") == [];
      assert Segments("/") <= Segments(next);
      assert RelativePath("/", next) == Some(Slice(next, 1));
    }
  }

  /** Every tab of the server inside the source ends at its moved path, or waits
      for it with its own path and key unchanged. */
  lemma RelocatedReachesDestination(before: Tab, after: Tab, move: Move)
    requires Rename(move) && Anchored(before) && CorrectKey(before)
    requires Relocated(before, after, move)
    requires before.server == move.server && Within(move.source, CurrentPath(before))
    ensures Anchored(after)
    ensures Segments(move.source) <= Segments(CurrentPath(before))
    ensures var next := Absolute(Segments(move.destination) + Segments(CurrentPath(before))[|Segments(move.source)|..]);
            || (after.pendingMove.None? && after.key == Key(move.server, next) && RemotePath(after.root, after.path) == next)
            || (after.pendingMove == Some(next) && after.key == before.key && after.root == before.root && after.path == before.path)
  {
    if Selected(before, move) {
      NextPathSegments(before, move);
      BoundNamesNext(before, NextPath(before, move));
    } else {
      StayedInPlace(before, move);
    }
  }

  /** The only tab inside the source that is passed over is one already in place. */
  lemma StayedInPlace(tab: Tab, move: Move)
    requires Rename(move) && tab.pendingMove.None?
    requires Within(move.source, CurrentPath(tab)) && NextPath(tab, move) == CurrentPath(tab)
    ensures Segments(move.source) <= Segments(CurrentPath(tab))
    ensures Absolute(Segments(move.destination) + Segments(CurrentPath(tab))[|Segments(move.source)|..]) == CurrentPath(tab)
  {
    RemotePathSegments(tab.root, tab.path);
    var p, source, destination := Segments(CurrentPath(tab)), Segments(move.source), Segments(move.destination);
    SegmentsClean(CurrentPath(tab));
    SegmentsClean(move.source);
    SegmentsClean(move.destination);
    WithinIsPrefix(source, p);
    assert Absolute([]) == "/";
    SegmentsOfAbsolute([]);
    MovedPathSegments(p, source, destination);
  }

  // ----- Protection is not absolute -----

  /** When no two tabs are on their way to the same place, only unprotected tabs go. */
  lemma UncontestedRemovesOnlyUnprotected(s: State, move: Move, k: nat)
    requires ListSound(s.tabs, s.generations)
    requires k < |s.tabs| && !Contested(s.tabs, k, move)
    requires k !in Moved(s, move).origins
    ensures !Protected(s.tabs[k])
  {
    RelocateKeepsTabs(s, move);
  }

  const SAVING := Tab(Key("dev", "/a"), "", "dev", "/", "a", None, None, None, Text("x", "x", true, None))
  const WAITING := Tab(Key("dev", "/b"), "", "dev", "/", "b", None, Some("/a"), None, Text("y", "z", false, None))

  lemma ShortPath(c: char)
    requires c != '/'
    ensures RemotePath("/", [c]) == "/" + [c] && Normalised("/" + [c])
  {
    RemotePathSegments("/", [c]);
    SplitPiece([c]);
    assert Absolute([]) == "/";
    SegmentsOfAbsolute([]);
    assert NonEmpty([[c]]) == [[c]] + NonEmpty([]);
    assert [] + [[c]] == [[c]];
  }

  const EXAMPLE := Move("dev", "/a", "/c")

  lemma ExampleKeys()
    ensures CurrentPath(SAVING) == CurrentPath(WAITING) == "/a"
    ensures CorrectKey(SAVING) && CorrectKey(WAITING)
    ensures Selected(SAVING, EXAMPLE) && Selected(WAITING, EXAMPLE)
    ensures NewKey(SAVING, EXAMPLE) == NewKey(WAITING, EXAMPLE) == Key("dev", "/c")
  {
    ShortPath('a');
    ShortPath('b');
    ShortPath('c');
    assert NextPath(SAVING, EXAMPLE) == "/c" == NextPath(WAITING, EXAMPLE);
    BoundNamesNext(SAVING, "/c");
    BoundNamesNext(WAITING, "/c");
  }

  lemma ExampleOrder()
    ensures Order([SAVING, WAITING]) == [0, 1]
  {
    var tabs := [SAVING, WAITING];
    assert Positions(tabs, false, 2) == [] && Positions(tabs, true, 2) == [];
    assert Positions(tabs, false, 1) == [] && Positions(tabs, true, 1) == [1];
    assert Positions(tabs, false, 0) == [0] && Positions(tabs, true, 0) == [1];
  }

  lemma ExampleFirstTurn(keys: map<Key, Key>)
    ensures var m := Moving([SAVING, WAITING], [0, 1], map[], keys);
            && MoveOne(m, 0, EXAMPLE).tabs == [Bound(SAVING, EXAMPLE), WAITING]
            && MoveOne(m, 0, EXAMPLE).origins == [0, 1]
            && MoveOne(m, 0, EXAMPLE).generations == map[]
  {
    ExampleKeys();
    assert Rival([SAVING, WAITING], 0, Key("dev", "/c")).None?;
  }

  /** A turn that finds an unprotected rival takes its place. */
  lemma TakesOver(m: Moving, origin: nat, at: nat, rival: nat, move: Move)
    requires |m.origins| == |m.tabs| && at < |m.tabs| && rival < |m.tabs|
    requires Locate(m.origins, origin) == Some(at) && Selected(m.tabs[at], move)
    requires Rival(m.tabs, at, NewKey(m.tabs[at], move)) == Some(rival) && !Protected(m.tabs[rival])
    ensures MoveOne(m, origin, move).tabs == Drop(m.tabs[at := Bound(m.tabs[at], move)], rival)
  {}

  lemma DropUpdated(tabs: seq<Tab>, b: Tab)
    requires |tabs| == 2
    ensures Drop(tabs[1 := b], 0) == [b]
  {}

  lemma RivalOfTwo(m: Moving, a: Tab, b: Tab, key: Key)
    requires m.tabs == [a, b] && m.origins == [0, 1]
    requires a.key == key
    ensures Locate(m.origins, 1) == Some(1)
    ensures Rival(m.tabs, 1, key) == Some(0)
  {
    assert [0, 1][1..] == [1];
    assert [a, b][..1] == [a];
  }

  lemma ExampleSecondTurn(m: Moving, a: Tab, b: Tab, move: Move)
    requires m.tabs == [a, b] && m.origins == [0, 1]
    requires Selected(b, move) && a.key == NewKey(b, move) && !Protected(a)
    ensures MoveOne(m, 1, move).tabs == [Bound(b, move)]
  {
    RivalOfTwo(m, a, b, NewKey(b, move));
    TakesOver(m, 1, 1, 0, move);
    DropUpdated(m.tabs, Bound(b, move));
  }

  /** A tab that is protected only because its save is still running can vanish:
      the move ends the save, and a tab that was waiting for the place takes it. */
  lemma ContestedRemovesProtected()
    ensures var s := State([SAVING, WAITING], map[], map[], 0);
            && ListSound(s.tabs, s.generations)
            && Protected(s.tabs[0])
            && Relocate(s, EXAMPLE).tabs == [Bound(WAITING, EXAMPLE)]
  {
    ExampleSound();
    ExampleOrder();
    ExampleTurns(Unmoved([SAVING, WAITING], map[]));
  }

  lemma ExampleSound()
    ensures ListSound([SAVING, WAITING], map[]) && Protected(SAVING)
  {
    ExampleKeys();
  }

  lemma ExampleTurns(m: Moving)
    requires m.tabs == [SAVING, WAITING] && m.origins == [0, 1] && m.generations == map[]
    ensures MoveAll(m, [0, 1], EXAMPLE).tabs == [Bound(WAITING, EXAMPLE)]
  {
    ExampleFirstTurn(m.keys);
    ExampleLastTurn(MoveOne(m, 0, EXAMPLE));
    TwoTurns(m, EXAMPLE);
  }

  lemma ExampleLastTurn(m: Moving)
    requires m.tabs == [Bound(SAVING, EXAMPLE), WAITING] && m.origins == [0, 1]
    ensures MoveOne(m, 1, EXAMPLE).tabs == [Bound(WAITING, EXAMPLE)]
  {
    ExampleKeys();
    ExampleSecondTurn(m, Bound(SAVING, EXAMPLE), WAITING, EXAMPLE);
  }

  lemma TwoTurns(m: Moving, move: Move)
    requires |m.origins| == |m.tabs|
    ensures MoveAll(m, [0, 1], move) == MoveOne(MoveOne(m, 0, move), 1, move)
  {
    var order := [0, 1];
    assert order[1..] == [1] && order[1..][1..] == [];
  }
}
