/** Who keeps a place that several tabs go to, by the order of their turns. */
module TabsTurns {
  import opened Tabs

  /** What matters of a tab: whether it moves and where, the place it has, whether it
      is protected, whether it can be given up once bound, and whether it waits. */
  datatype Fact = Fact(moves: bool, goal: Key, own: Key, protected: bool, expendable: bool, waits: bool)

  /** Bound tabs take their turns before waiting ones, otherwise in tab order. */
  function Rank(f: seq<Fact>, i: nat): nat
    requires i < |f|
  {
    if f[i].waits then |f| + i else i
  }

  // ----- What each turn comes to, from the tabs before the move -----

  /** The tab is gone before its turn: a tab bound earlier took its place. */
  predicate Skipped(f: seq<Fact>, i: nat)
    requires i < |f|
    decreases Rank(f, i), 0
  {
    !f[i].protected &&
    exists j: nat :: j < |f| && Rank(f, j) < Rank(f, i) && f[j].goal == f[i].own && Binds(f, j)
  }

  /** At the turn of `i`, the tab `r` stands at its goal and cannot be given up. A tab
      whose turn is over stands at its goal if it was bound, and otherwise waits at its
      own place; a tab whose turn is to come stands at its own place. */
  predicate Blocks(f: seq<Fact>, r: nat, i: nat)
    requires r < |f| && i < |f|
    decreases Rank(f, i), 0
  {
    if f[r].moves && Rank(f, r) < Rank(f, i) then
      if Binds(f, r) then f[r].goal == f[i].goal && !f[r].expendable
      else f[r].own == f[i].goal && !Skipped(f, r)
    else r != i && f[r].own == f[i].goal && f[r].protected
  }

  /** The tab finds its goal taken for good. */
  predicate Held(f: seq<Fact>, i: nat)
    requires i < |f|
    decreases Rank(f, i), 1
  {
    exists r: nat :: r < |f| && Blocks(f, r, i)
  }

  /** The tab has its turn and is bound at its goal. */
  predicate Binds(f: seq<Fact>, i: nat)
    requires i < |f|
    decreases Rank(f, i), 2
  {
    f[i].moves && !Skipped(f, i) && !Held(f, i)
  }

  /** The turn of `j` removes `i`: it stands at the goal of `j` and can be given up. */
  predicate Ousts(f: seq<Fact>, j: nat, i: nat)
    requires j < |f| && i < |f|
  {
    && j != i && Binds(f, j)
    && if f[i].moves && Rank(f, i) < Rank(f, j) then Binds(f, i) && f[i].goal == f[j].goal && f[i].expendable
       else f[i].own == f[j].goal && !f[i].protected
  }

  // ----- The list between two turns -----

  /** The tab is gone once those have had their turns. */
  predicate Gone(f: seq<Fact>, i: nat, done: set<nat>)
    requires i < |f|
  {
    exists j :: j in done && j < |f| && Ousts(f, j, i)
  }

  predicate Bound(f: seq<Fact>, i: nat, done: set<nat>)
    requires i < |f|
  {
    i in done && Binds(f, i)
  }

  function PlaceOf(f: seq<Fact>, i: nat, done: set<nat>): Key
    requires i < |f|
  {
    if Bound(f, i, done) then f[i].goal else f[i].own
  }

  /** Nobody can take the tab's place from it. */
  predicate Firm(f: seq<Fact>, i: nat, done: set<nat>)
    requires i < |f|
  {
    if Bound(f, i, done) then !f[i].expendable
    else (f[i].moves && i in done) || f[i].protected
  }

  /** The turn of `x`: everything with a lower rank is done, nothing else. */
  ghost predicate Next(f: seq<Fact>, done: set<nat>, x: nat) {
    x < |f| && forall i {:trigger i in done} :: 0 <= i < |f| ==> (i in done <==> Rank(f, i) < Rank(f, x))
  }

  lemma RanksDiffer(f: seq<Fact>, i: nat, j: nat)
    requires i < |f| && j < |f| && i != j
    ensures Rank(f, i) != Rank(f, j)
  {}

  /** A tab is gone before its turn exactly if it is skipped. */
  lemma GoneIsSkipped(f: seq<Fact>, done: set<nat>, x: nat)
    requires Next(f, done, x)
    ensures f[x].moves ==> (Gone(f, x, done) <==> Skipped(f, x))
  {
    if Skipped(f, x) {
      var j: nat :| j < |f| && Rank(f, j) < Rank(f, x) && f[j].goal == f[x].own && Binds(f, j);
      assert j in done && Ousts(f, j, x);
    }
    if Gone(f, x, done) {
      var j :| j in done && j < |f| && Ousts(f, j, x);
    }
  }

  /** A tab that was skipped is gone ever after. */
  lemma SkippedIsGone(f: seq<Fact>, done: set<nat>, x: nat, i: nat)
    requires Next(f, done, x) && i < |f| && i in done && Skipped(f, i)
    ensures Gone(f, i, done)
  {
    var j: nat :| j < |f| && Rank(f, j) < Rank(f, i) && f[j].goal == f[i].own && Binds(f, j);
    assert j in done && Ousts(f, j, i);
  }

  lemma OustedBefore(f: seq<Fact>, j: nat, r: nat)
    requires j < |f| && r < |f|
    ensures Ousts(f, j, r) && f[r].moves && Rank(f, j) < Rank(f, r) ==> Skipped(f, r)
  {}

  /** Who blocks a turn is still there. */
  lemma BlockerStays(f: seq<Fact>, done: set<nat>, x: nat, r: nat)
    requires Next(f, done, x) && r < |f| && Blocks(f, r, x)
    ensures !Gone(f, r, done)
  {
    forall j | j in done && j < |f| ensures !Ousts(f, j, r) {
      OustedBefore(f, j, r);
      if j != r {
        RanksDiffer(f, j, r);
      }
    }
  }

  /** Somebody firm stands at the goal. */
  predicate Stands(f: seq<Fact>, r: nat, key: Key, done: set<nat>)
    requires r < |f|
  {
    !Gone(f, r, done) && PlaceOf(f, r, done) == key && Firm(f, r, done)
  }

  /** To block a turn is to stand firm at its goal when it comes. */
  lemma BlocksIff(f: seq<Fact>, done: set<nat>, x: nat, r: nat)
    requires Next(f, done, x) && r < |f| && r != x
    ensures Blocks(f, r, x) <==> Stands(f, r, f[x].goal, done)
  {
    RanksDiffer(f, r, x);
    if Blocks(f, r, x) {
      BlockerStays(f, done, x, r);
    }
    if r in done && Skipped(f, r) {
      SkippedIsGone(f, done, x, r);
    }
  }

  lemma Holder(f: seq<Fact>, done: set<nat>, x: nat) returns (r: nat)
    requires Next(f, done, x) && Held(f, x)
    ensures r < |f| && r != x && Stands(f, r, f[x].goal, done)
  {
    r :| r < |f| && Blocks(f, r, x);
    BlocksIff(f, done, x, r);
  }

  /** A turn that binds nobody removes nobody. */
  lemma HeldTurn(f: seq<Fact>, done: set<nat>, x: nat, i: nat)
    requires x < |f| && i < |f| && !Binds(f, x)
    ensures Gone(f, i, done + {x}) <==> Gone(f, i, done)
  {
    if Gone(f, i, done + {x}) {
      var j :| j in done + {x} && j < |f| && Ousts(f, j, i);
      assert j in done;
    }
    if Gone(f, i, done) {
      var j :| j in done && j < |f| && Ousts(f, j, i);
      assert j in done + {x};
    }
  }

  /** Who stands at the goal of a tab that binds is removed by it, and nobody else. */
  lemma OustsIff(f: seq<Fact>, done: set<nat>, x: nat, i: nat)
    requires Next(f, done, x) && Binds(f, x) && i < |f| && i != x && !Gone(f, i, done)
    ensures Ousts(f, x, i) <==> PlaceOf(f, i, done) == f[x].goal
  {
    RanksDiffer(f, i, x);
    BlocksIff(f, done, x, i);
    assert !Blocks(f, i, x);
    if i in done && Skipped(f, i) {
      SkippedIsGone(f, done, x, i);
    }
  }

  /** A turn that finds its place free or yielding removes exactly who stands there. */
  lemma FreeTurn(f: seq<Fact>, done: set<nat>, x: nat, i: nat)
    requires Next(f, done, x) && Binds(f, x) && i < |f|
    ensures Gone(f, i, done + {x}) <==> Gone(f, i, done) || (i != x && PlaceOf(f, i, done) == f[x].goal)
  {
    if Gone(f, i, done) {
      var j :| j in done && j < |f| && Ousts(f, j, i);
      assert j in done + {x};
    } else {
      if i != x {
        OustsIff(f, done, x, i);
      }
      assert x in done + {x};
    }
  }

  /** Before its turn a tab stands where it always stood. */
  lemma NotYetMoved(f: seq<Fact>, done: set<nat>, x: nat)
    requires Next(f, done, x)
    ensures PlaceOf(f, x, done) == f[x].own && x !in done
  {}
}
