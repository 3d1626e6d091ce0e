/** Exactly which tabs a move removes, and what becomes of the others. */
module TabsOutcome {
  import opened Wrappers
  import opened Paths
  import opened Tabs
  import opened TabsRelocate
  import T = TabsTurns

  function FactOf(tab: Tab, move: Move): T.Fact {
    T.Fact(Selected(tab, move), NewKey(tab, move), tab.key, Protected(tab), Expendable(tab), tab.pendingMove.Some?)
  }

  function Facts(tabs: seq<Tab>, move: Move): (f: seq<T.Fact>)
    ensures |f| == |tabs| && forall i :: 0 <= i < |tabs| ==> f[i] == FactOf(tabs[i], move)
  {
    seq(|tabs|, i requires 0 <= i < |tabs| => FactOf(tabs[i], move))
  }

  /** What becomes of a tab that is not removed. */
  function Image(tab: Tab, f: seq<T.Fact>, i: nat, done: set<nat>, move: Move): Tab
    requires i < |f|
  {
    if !f[i].moves || i !in done then tab
    else if T.Binds(f, i) then Bound(tab, move)
    else Waiting(tab, move)
  }

  lemma MovedFacts(tab: Tab, move: Move)
    ensures Waiting(tab, move).key == tab.key && Protected(Waiting(tab, move))
    ensures Bound(tab, move).key == NewKey(tab, move)
    ensures Protected(Bound(tab, move)) <==> !Expendable(tab)
  {}

  lemma ImageFacts(tab: Tab, f: seq<T.Fact>, i: nat, done: set<nat>, move: Move)
    requires i < |f| && f[i].goal == NewKey(tab, move) && f[i].own == tab.key
    requires f[i].protected == Protected(tab) && f[i].expendable == Expendable(tab)
    ensures Shown(f, Image(tab, f, i, done, move), i, done)
  {
    MovedFacts(tab, move);
  }

  /** The tab is as the facts say. */
  predicate Shown(f: seq<T.Fact>, tab: Tab, i: nat, done: set<nat>)
    requires i < |f|
  {
    tab.key == T.PlaceOf(f, i, done) && (Protected(tab) <==> T.Firm(f, i, done))
  }

  /** The list being rebuilt is known completely. */
  ghost predicate Exact(before: seq<Tab>, f: seq<T.Fact>, m: Moving, done: set<nat>, move: Move) {
    && |m.origins| == |m.tabs| && |f| == |before|
    && (forall p :: 0 <= p < |m.tabs| ==>
          m.origins[p] < |before| && m.tabs[p] == Image(before[m.origins[p]], f, m.origins[p], done, move))
    && (forall i: nat :: i < |before| ==> (i in m.origins <==> !T.Gone(f, i, done)))
  }

  /** What the list shows of each tab is what the facts say. */
  ghost predicate Matched(f: seq<T.Fact>, m: Moving, done: set<nat>) {
    && |m.origins| == |m.tabs|
    && (forall p :: 0 <= p < |m.tabs| ==> m.origins[p] < |f| && Shown(f, m.tabs[p], m.origins[p], done))
    && (forall i: nat :: i < |f| ==> (i in m.origins <==> !T.Gone(f, i, done)))
  }

  lemma ExactMatches(before: seq<Tab>, f: seq<T.Fact>, m: Moving, done: set<nat>, move: Move)
    requires f == Facts(before, move) && Exact(before, f, m, done, move)
    ensures Matched(f, m, done)
  {
    forall p | 0 <= p < |m.tabs| ensures m.origins[p] < |f| && Shown(f, m.tabs[p], m.origins[p], done) {
      ImageFacts(before[m.origins[p]], f, m.origins[p], done, move);
    }
  }

  /** Where a tab that is not gone stands. */
  lemma Stands(f: seq<T.Fact>, m: Moving, done: set<nat>, i: nat) returns (p: nat)
    requires Matched(f, m, done) && i < |f| && !T.Gone(f, i, done)
    ensures p < |m.tabs| && m.origins[p] == i && Shown(f, m.tabs[p], i, done)
  {
    assert i in m.origins;
    p :| 0 <= p < |m.origins| && m.origins[p] == i;
  }

  /** The loop finds a protected rival exactly if the place is held. */
  lemma {:induction false} RivalMeansHeld(f: seq<T.Fact>, m: Moving, done: set<nat>, x: nat, at: nat, rival: Option<nat>)
    requires Matched(f, m, done) && T.Next(f, done, x) && DistinctKeys(m.tabs) && Distinct(m.origins)
    requires at < |m.tabs| && m.origins[at] == x && IsRival(m.tabs, at, f[x].goal, rival)
    ensures T.Held(f, x) <==> rival.Some? && Protected(m.tabs[rival.value])
  {
    if rival.Some? && Protected(m.tabs[rival.value]) {
      ProtectedRivalHolds(f, m, done, x, at, rival.value);
    }
    if T.Held(f, x) {
      var b := T.Holder(f, done, x);
      var p := Stands(f, m, done, b);
      OneRival(m.tabs, at, f[x].goal, rival, p);
    }
  }

  lemma ProtectedRivalHolds(f: seq<T.Fact>, m: Moving, done: set<nat>, x: nat, at: nat, r: nat)
    requires Matched(f, m, done) && T.Next(f, done, x) && Distinct(m.origins)
    requires at < |m.tabs| && m.origins[at] == x && r < |m.tabs| && r != at
    requires m.tabs[r].key == f[x].goal && Protected(m.tabs[r])
    ensures T.Held(f, x)
  {
    assert Shown(f, m.tabs[r], m.origins[r], done);
    assert m.origins[if r < at then r else at] != m.origins[if r < at then at else r];
    assert m.origins[r] in m.origins;
    T.BlocksIff(f, done, x, m.origins[r]);
  }

  lemma OneRival(tabs: seq<Tab>, at: nat, key: Key, rival: Option<nat>, p: nat)
    requires DistinctKeys(tabs) && IsRival(tabs, at, key, rival) && p < |tabs| && p != at && tabs[p].key == key
    ensures rival == Some(p)
  {
    assert forall i, j :: 0 <= i < |tabs| && 0 <= j < |tabs| && tabs[i].key == tabs[j].key ==> i == j;
  }

  lemma ImagesGrow(before: seq<Tab>, f: seq<T.Fact>, m: Moving, done: set<nat>, x: nat, p: nat, move: Move)
    requires Exact(before, f, m, done, move) && p < |m.tabs| && (m.origins[p] != x || !f[x].moves)
    ensures m.tabs[p] == Image(before[m.origins[p]], f, m.origins[p], done + {x}, move)
  {}

  ghost predicate Distinct(origins: seq<nat>) {
    forall a, b :: 0 <= a < b < |origins| ==> origins[a] != origins[b]
  }

  lemma SameGone(f: seq<T.Fact>, done: set<nat>, x: nat)
    requires x < |f| && !T.Binds(f, x)
    ensures forall i: nat :: i < |f| ==> (T.Gone(f, i, done + {x}) <==> T.Gone(f, i, done))
  {
    forall i: nat | i < |f| ensures T.Gone(f, i, done + {x}) <==> T.Gone(f, i, done) {
      T.HeldTurn(f, done, x, i);
    }
  }

  /** The turn of a tab that stays, or that is gone already. */
  lemma QuietTurn(before: seq<Tab>, f: seq<T.Fact>, m: Moving, done: set<nat>, x: nat, move: Move)
    requires Exact(before, f, m, done, move) && x < |f| && (!f[x].moves || x !in m.origins)
    requires forall i: nat :: i < |f| ==> (T.Gone(f, i, done + {x}) <==> T.Gone(f, i, done))
    ensures Exact(before, f, m, done + {x}, move)
  {
    forall p: nat | p < |m.tabs| ensures m.tabs[p] == Image(before[m.origins[p]], f, m.origins[p], done + {x}, move) {
      ImagesGrow(before, f, m, done, x, p, move);
    }
  }

  /** The turn of a tab that must wait, or that finds its place free. */
  lemma PlacedTurn(before: seq<Tab>, f: seq<T.Fact>, m: Moving, done: set<nat>, x: nat, at: nat, tab: Tab, move: Move)
    requires Exact(before, f, m, done, move) && x < |f| && f[x].moves && Distinct(m.origins)
    requires at < |m.tabs| && m.origins[at] == x
    requires tab == Image(before[x], f, x, done + {x}, move)
    ensures forall p :: 0 <= p < |m.tabs| ==>
              m.tabs[at := tab][p] == Image(before[m.origins[p]], f, m.origins[p], done + {x}, move)
  {
    forall p: nat | p < |m.tabs| && p != at
      ensures m.tabs[p] == Image(before[m.origins[p]], f, m.origins[p], done + {x}, move)
    {
      assert m.origins[if p < at then p else at] != m.origins[if p < at then at else p];
      ImagesGrow(before, f, m, done, x, p, move);
    }
  }

  lemma DropMembersExactly(origins: seq<nat>, at: nat)
    requires Distinct(origins) && at < |origins|
    ensures forall k :: k in Drop(origins, at) <==> k in origins && k != origins[at]
  {
    DropAt(origins, at);
    forall k | k in origins && k != origins[at] ensures k in Drop(origins, at) {
      var i :| 0 <= i < |origins| && origins[i] == k;
      assert Drop(origins, at)[if i < at then i else i - 1] == k;
    }
  }

  /** The turn of a tab whose place is free or yields: who stood there is gone. */
  lemma GoneIsRival(f: seq<T.Fact>, m: Moving, done: set<nat>, x: nat, at: nat, rival: Option<nat>, i: nat)
    requires Matched(f, m, done) && T.Next(f, done, x) && T.Binds(f, x)
    requires DistinctKeys(m.tabs) && Distinct(m.origins) && i < |f|
    requires at < |m.tabs| && m.origins[at] == x && IsRival(m.tabs, at, f[x].goal, rival)
    ensures T.Gone(f, i, done + {x}) <==> T.Gone(f, i, done) || (rival.Some? && i == m.origins[rival.value])
  {
    T.FreeTurn(f, done, x, i);
    if rival.Some? {
      var r := rival.value;
      assert Shown(f, m.tabs[r], m.origins[r], done);
      assert m.origins[if r < at then r else at] != m.origins[if r < at then at else r];
    }
    if !T.Gone(f, i, done) && i != x && T.PlaceOf(f, i, done) == f[x].goal {
      var p := Stands(f, m, done, i);
      OneRival(m.tabs, at, f[x].goal, rival, p);
    }
  }

  lemma DroppedExact(
    before: seq<Tab>, f: seq<T.Fact>, placed: Moving, done: set<nat>, r: nat, move: Move)
    requires |placed.origins| == |placed.tabs| && |f| == |before| && Distinct(placed.origins) && r < |placed.tabs|
    requires forall p :: 0 <= p < |placed.tabs| ==>
               placed.origins[p] < |before| &&
               placed.tabs[p] == Image(before[placed.origins[p]], f, placed.origins[p], done, move)
    requires forall i: nat :: i < |before| ==> (i in placed.origins && i != placed.origins[r] <==> !T.Gone(f, i, done))
    ensures Exact(before, f, placed.(tabs := Drop(placed.tabs, r), origins := Drop(placed.origins, r)), done, move)
  {
    DropAt(placed.tabs, r);
    DropAt(placed.origins, r);
    DropMembersExactly(placed.origins, r);
  }

  lemma {:induction false} FreeTurn(before: seq<Tab>, f: seq<T.Fact>, m: Moving, done: set<nat>, x: nat, at: nat, rival: Option<nat>, move: Move)
    requires Exact(before, f, m, done, move) && Matched(f, m, done)
    requires T.Next(f, done, x) && DistinctKeys(m.tabs) && Distinct(m.origins)
    requires T.Binds(f, x) && at < |m.tabs| && m.origins[at] == x && IsRival(m.tabs, at, f[x].goal, rival)
    ensures var placed := m.(tabs := m.tabs[at := Bound(before[x], move)]);
            Exact(before, f,
                  if rival.None? then placed
                  else placed.(tabs := Drop(placed.tabs, rival.value), origins := Drop(placed.origins, rival.value)),
                  done + {x}, move)
  {
    forall i: nat | i < |f|
      ensures T.Gone(f, i, done + {x}) <==> T.Gone(f, i, done) || (rival.Some? && i == m.origins[rival.value])
    {
      GoneIsRival(f, m, done, x, at, rival, i);
    }
    PlacedTurn(before, f, m, done, x, at, Bound(before[x], move), move);
    if rival.Some? {
      DroppedExact(before, f, m.(tabs := m.tabs[at := Bound(before[x], move)]), done + {x}, rival.value, move);
    }
  }

  /** The turn of a tab that is still there and moves. */
  lemma {:induction false} MovingTurn(before: seq<Tab>, f: seq<T.Fact>, m: Moving, done: set<nat>, x: nat, at: nat, move: Move)
    requires f == Facts(before, move) && Exact(before, f, m, done, move)
    requires T.Next(f, done, x) && f[x].moves && DistinctKeys(m.tabs) && Distinct(m.origins)
    requires Locate(m.origins, x) == Some(at)
    ensures Exact(before, f, MoveOne(m, x, move), done + {x}, move)
  {
    ExactMatches(before, f, m, done, move);
    assert m.origins[at] in m.origins;
    T.NotYetMoved(f, done, x);
    T.GoneIsSkipped(f, done, x);
    assert m.tabs[at] == before[x];
    var rival := Rival(m.tabs, at, f[x].goal);
    RivalMeansHeld(f, m, done, x, at, rival);
    if T.Held(f, x) {
      SameGone(f, done, x);
      PlacedTurn(before, f, m, done, x, at, Waiting(before[x], move), move);
    } else {
      FreeTurn(before, f, m, done, x, at, rival, move);
    }
  }

  lemma ExactTurn(before: seq<Tab>, f: seq<T.Fact>, m: Moving, done: set<nat>, x: nat, move: Move)
    requires f == Facts(before, move) && Exact(before, f, m, done, move)
    requires T.Next(f, done, x) && DistinctKeys(m.tabs) && Distinct(m.origins)
    ensures Exact(before, f, MoveOne(m, x, move), done + {x}, move)
  {
    var at := Locate(m.origins, x);
    if at.Some? && f[x].moves {
      MovingTurn(before, f, m, done, x, at.value, move);
    } else {
      StillTurn(before, f, m, done, x, move);
    }
  }

  /** The turn of a tab that stays, or that is gone already, changes nothing. */
  lemma StillTurn(before: seq<Tab>, f: seq<T.Fact>, m: Moving, done: set<nat>, x: nat, move: Move)
    requires f == Facts(before, move) && Exact(before, f, m, done, move)
    requires T.Next(f, done, x) && (Locate(m.origins, x).None? || !f[x].moves)
    ensures Exact(before, f, MoveOne(m, x, move), done + {x}, move)
  {
    var at := Locate(m.origins, x);
    T.GoneIsSkipped(f, done, x);
    SameGone(f, done, x);
    QuietTurn(before, f, m, done, x, move);
    assert at.Some? ==> m.tabs[at.value] == before[x];
    assert MoveOne(m, x, move) == m;
  }

  // ----- All turns -----

  function Members(order: seq<nat>): set<nat> {
    set i | i in order
  }

  predicate SameWaits(tabs: seq<Tab>, f: seq<T.Fact>) {
    |f| == |tabs| && forall i :: 0 <= i < |tabs| ==> f[i].waits == tabs[i].pendingMove.Some?
  }

  lemma OrderRanked(tabs: seq<Tab>, f: seq<T.Fact>)
    requires SameWaits(tabs, f)
    ensures forall a :: 0 <= a < |Order(tabs)| ==> Order(tabs)[a] < |tabs|
    ensures forall a, b :: 0 <= a < b < |Order(tabs)| ==> T.Rank(f, Order(tabs)[a]) < T.Rank(f, Order(tabs)[b])
  {
    var bound, waiting := Positions(tabs, false, 0), Positions(tabs, true, 0);
    assert forall a :: 0 <= a < |bound| ==> bound[a] in bound;
    assert forall a :: 0 <= a < |waiting| ==> waiting[a] in waiting;
  }

  lemma NextInOrder(tabs: seq<Tab>, f: seq<T.Fact>, n: nat)
    requires SameWaits(tabs, f) && n < |Order(tabs)|
    ensures Order(tabs)[n] < |tabs|
    ensures T.Next(f, Members(Order(tabs)[..n]), Order(tabs)[n])
  {
    OrderRanked(tabs, f);
    OrderCovers(tabs);
    forall i: nat | i < |tabs| ensures i in Members(Order(tabs)[..n]) <==> T.Rank(f, i) < T.Rank(f, Order(tabs)[n]) {
      RankedBefore(f, Order(tabs), n, i);
    }
  }

  lemma RankedBefore(f: seq<T.Fact>, order: seq<nat>, n: nat, i: nat)
    requires (forall a :: 0 <= a < |order| ==> order[a] < |f|)
    requires (forall a, b :: 0 <= a < b < |order| ==> T.Rank(f, order[a]) < T.Rank(f, order[b]))
    requires n < |order| && i < |f| && i in order
    ensures i in Members(order[..n]) <==> T.Rank(f, i) < T.Rank(f, order[n])
  {
    var a :| 0 <= a < |order| && order[a] == i;
    if a < n {
      assert order[..n][a] == i;
    }
    if i in order[..n] {
      var b :| 0 <= b < n && order[..n][b] == i;
    }
  }

  lemma {:induction false} MoveOneDistinct(m: Moving, x: nat, move: Move)
    requires |m.origins| == |m.tabs| && Distinct(m.origins)
    ensures Distinct(MoveOne(m, x, move).origins)
  {
    var at := Locate(m.origins, x);
    if at.Some? && Selected(m.tabs[at.value], move) {
      var rival := Rival(m.tabs, at.value, NewKey(m.tabs[at.value], move));
      if rival.Some? {
        DropDistinct(m.origins, rival.value);
      }
    }
  }

  lemma DropDistinct(origins: seq<nat>, at: nat)
    requires Distinct(origins) && at < |origins|
    ensures Distinct(Drop(origins, at))
  {
    DropAt(origins, at);
  }

  /** What holds between two turns. */
  ghost predicate Between(before: seq<Tab>, f: seq<T.Fact>, m: Moving, n: nat, move: Move) {
    && n <= |Order(before)| && Exact(before, f, m, Members(Order(before)[..n]), move)
    && ListSound(m.tabs, m.generations) && Distinct(m.origins)
  }

  lemma OneTurn(before: seq<Tab>, f: seq<T.Fact>, m: Moving, n: nat, move: Move)
    requires f == Facts(before, move) && n < |Order(before)| && Between(before, f, m, n, move)
    ensures Between(before, f, MoveOne(m, Order(before)[n], move), n + 1, move)
  {
    NextInOrder(before, f, n);
    MembersNext(Order(before), n);
    OneTurnExact(before, f, m, Order(before)[n], Members(Order(before)[..n]), Members(Order(before)[..n + 1]), move);
    MoveOneSound(m, Order(before)[n], move);
    MoveOneDistinct(m, Order(before)[n], move);
  }

  lemma MembersNext(order: seq<nat>, n: nat)
    requires n < |order|
    ensures Members(order[..n]) + {order[n]} == Members(order[..n + 1])
  {
    assert order[..n + 1] == order[..n] + [order[n]];
  }

  /** The turn of `x` takes the list from what is known at `done` to `after`. */
  lemma OneTurnExact(before: seq<Tab>, f: seq<T.Fact>, m: Moving, x: nat, done: set<nat>, after: set<nat>, move: Move)
    requires f == Facts(before, move) && T.Next(f, done, x) && after == done + {x}
    requires Exact(before, f, m, done, move) && DistinctKeys(m.tabs) && Distinct(m.origins)
    ensures Exact(before, f, MoveOne(m, x, move), after, move)
  {
    ExactTurn(before, f, m, done, x, move);
  }

  lemma {:induction false} MoveAllExact(before: seq<Tab>, f: seq<T.Fact>, m: Moving, n: nat, move: Move)
    requires f == Facts(before, move) && Between(before, f, m, n, move)
    ensures Between(before, f, MoveAll(m, Order(before)[n..], move), |Order(before)|, move)
    decreases |Order(before)| - n
  {
    var order := Order(before);
    if n < |order| {
      OneTurn(before, f, m, n, move);
      MoveAllExact(before, f, MoveOne(m, order[n], move), n + 1, move);
      assert order[n..][0] == order[n] && order[n..][1..] == order[n + 1..];
    }
  }

  /** Every tab that is left is untouched, waits for a place that is held, or is bound. */
  lemma RelocateExact(s: State, move: Move)
    requires ListSound(s.tabs, s.generations)
    ensures Exact(s.tabs, Facts(s.tabs, move), Moved(s, move), Members(Order(s.tabs)), move)
  {
    var m, order, f := Unmoved(s.tabs, s.generations), Order(s.tabs), Facts(s.tabs, move);
    BeforeAll(s.tabs, f, m, move);
    MoveAllExact(s.tabs, f, m, 0, move);
    assert order[..|order|] == order && order[0..] == order;
  }

  lemma BeforeAll(tabs: seq<Tab>, f: seq<T.Fact>, m: Moving, move: Move)
    requires m.tabs == tabs && |f| == |tabs| && m.origins == seq(|tabs|, i => i) && ListSound(tabs, m.generations)
    ensures Between(tabs, f, m, 0, move)
  {
    assert Members(Order(tabs)[..0]) == {};
    forall i: nat | i < |tabs| ensures i in m.origins && !T.Gone(f, i, {}) {
      assert m.origins[i] == i;
    }
  }

  // ----- What that means -----

  /** Some turn removes the tab. */
  predicate Disappears(f: seq<T.Fact>, k: nat)
    requires k < |f|
  {
    exists j: nat :: j < |f| && T.Ousts(f, j, k)
  }

  lemma AllTurns(f: seq<T.Fact>, k: nat, all: set<nat>)
    requires k < |f| && forall j: nat :: j < |f| ==> j in all
    ensures T.Gone(f, k, all) <==> Disappears(f, k)
  {
    if Disappears(f, k) {
      var j: nat :| j < |f| && T.Ousts(f, j, k);
      assert j in all;
    }
  }

  /** Which tabs a move removes, whatever the move and the tabs. */
  lemma RelocateRemovesExactly(s: State, move: Move, k: nat)
    requires ListSound(s.tabs, s.generations) && k < |s.tabs|
    ensures k !in Moved(s, move).origins <==> Disappears(Facts(s.tabs, move), k)
  {
    RelocateExact(s, move);
    OrderCovers(s.tabs);
    AllTurns(Facts(s.tabs, move), k, Members(Order(s.tabs)));
  }

  /** A protected tab is bound first, was protected only by a running save or by
      waiting itself, and another tab is bound at the same place after it. */
  predicate Overtakes(f: seq<T.Fact>, k: nat, j: nat) {
    && k < |f| && j < |f| && f[k].protected && f[k].expendable
    && f[k].goal == f[j].goal && T.Rank(f, k) < T.Rank(f, j)
    && T.Binds(f, k) && T.Binds(f, j)
  }

  /** Only unprotected tabs are removed, exactly if no protected one is overtaken. */
  lemma OnlyUnprotectedRemovedIff(s: State, move: Move)
    requires ListSound(s.tabs, s.generations)
    ensures (forall k: nat :: k < |s.tabs| && k !in Moved(s, move).origins ==> !Protected(s.tabs[k])) <==>
              !exists k: nat, j: nat :: Overtakes(Facts(s.tabs, move), k, j)
  {
    var f := Facts(s.tabs, move);
    forall k: nat | k < |s.tabs|
      ensures k !in Moved(s, move).origins && Protected(s.tabs[k]) <==> exists j: nat :: Overtakes(f, k, j)
    {
      RelocateRemovesExactly(s, move, k);
      OvertakenIff(f, k);
    }
  }

  lemma OvertakenIff(f: seq<T.Fact>, k: nat)
    requires k < |f|
    ensures Disappears(f, k) && f[k].protected <==> exists j: nat :: Overtakes(f, k, j)
  {
    if Disappears(f, k) && f[k].protected {
      var j: nat :| j < |f| && T.Ousts(f, j, k);
      assert Overtakes(f, k, j);
    }
    if j: nat :| Overtakes(f, k, j) {
      assert T.Ousts(f, j, k);
    }
  }

  // ----- A rename that meets no waiting tab -----

  /** With no tab waiting, a rename takes no two tabs to the same place, so that it
      removes only unprotected ones. */
  lemma NobodyWaitingOnlyUnprotectedRemoved(s: State, move: Move, k: nat)
    requires ListSound(s.tabs, s.generations) && Rename(move)
    requires forall i :: 0 <= i < |s.tabs| ==> s.tabs[i].pendingMove.None?
    requires k < |s.tabs| && k !in Moved(s, move).origins
    ensures !Protected(s.tabs[k])
  {
    forall i: nat | i < |s.tabs| && i != k && Selected(s.tabs[i], move) && Selected(s.tabs[k], move)
      ensures NewKey(s.tabs[i], move) != NewKey(s.tabs[k], move)
    {
      TwoGoals(s.tabs, i, k, move);
    }
    UncontestedRemovesOnlyUnprotected(s, move, k);
  }

  lemma TwoGoals(tabs: seq<Tab>, i: nat, k: nat, move: Move)
    requires DistinctKeys(tabs) && i < |tabs| && k < |tabs| && i != k && Rename(move)
    requires CorrectKey(tabs[i]) && tabs[i].pendingMove.None? && CorrectKey(tabs[k]) && tabs[k].pendingMove.None?
    requires Selected(tabs[i], move) && Selected(tabs[k], move)
    ensures NewKey(tabs[i], move) != NewKey(tabs[k], move)
  {
    assert tabs[if i < k then i else k].key != tabs[if i < k then k else i].key;
    if NewKey(tabs[i], move) == NewKey(tabs[k], move) {
      GoalsApart(tabs[i], tabs[k], move);
    }
  }

  lemma GoalsApart(a: Tab, b: Tab, move: Move)
    requires Rename(move) && CorrectKey(a) && a.pendingMove.None? && CorrectKey(b) && b.pendingMove.None?
    requires Selected(a, move) && Selected(b, move) && NewKey(a, move) == NewKey(b, move)
    ensures a.key == b.key
  {
    NextPathSegments(a, move);
    NextPathSegments(b, move);
    BoundNamesNext(a, NextPath(a, move));
    BoundNamesNext(b, NextPath(b, move));
    SamePath(move, CurrentPath(a), CurrentPath(b));
    RemotePathSegments(a.root, a.path);
    RemotePathSegments(b.root, b.path);
  }

  lemma SamePath(move: Move, a: string, b: string)
    requires Segments(move.source) <= Segments(a) && Segments(move.source) <= Segments(b)
    requires Absolute(Segments(move.destination) + Segments(a)[|Segments(move.source)|..])
             == Absolute(Segments(move.destination) + Segments(b)[|Segments(move.source)|..])
    ensures Segments(a) == Segments(b)
  {
    MovedClean(a, move);
    MovedClean(b, move);
    var n, d := |Segments(move.source)|, Segments(move.destination);
    SegmentsOfAbsolute(d + Segments(a)[n..]);
    SegmentsOfAbsolute(d + Segments(b)[n..]);
    assert (d + Segments(a)[n..])[|d|..] == Segments(a)[n..];
    assert (d + Segments(b)[n..])[|d|..] == Segments(b)[n..];
    assert Segments(a) == Segments(move.source) + Segments(a)[n..];
    assert Segments(b) == Segments(move.source) + Segments(b)[n..];
  }

  lemma MovedClean(path: string, move: Move)
    requires Segments(move.source) <= Segments(path)
    ensures Clean(Segments(move.destination) + Segments(path)[|Segments(move.source)|..])
  {
    SegmentsClean(move.destination);
    SegmentsClean(path);
  }
}
