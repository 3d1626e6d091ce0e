/** Exactly when merging a page keeps the page's order within a turn. */
module ChatPageOrder {
  import opened Wrappers
  import opened StableSorting
  import opened ChatHistory
  import opened ChatMerge

  /** All items of a turn come out in page order. */
  ghost predicate PageOrderKept(messages: seq<Message>, items: seq<Message>, older: bool, collate: Collation) {
    forall k, l :: 0 <= k < l < |items| && items[k].turn == items[l].turn ==>
      Precedes(Merged(messages, items, older, collate), Blended(messages, items)[k], Blended(messages, items)[l])
  }

  /** The turns the items come out with are not against the page order. */
  predicate RanksKept(messages: seq<Message>, items: seq<Message>, collate: Collation) {
    forall k, l :: 0 <= k < l < |items| && items[k].turn == items[l].turn ==>
      Ordered(messages, items, collate, k, l)
  }

  predicate Ordered(messages: seq<Message>, items: seq<Message>, collate: Collation, k: nat, l: nat)
    requires k < |items| && l < |items|
  {
    TurnOrder(collate)(Blended(messages, items)[k], Blended(messages, items)[l])
  }

  /** No item comes out with a turn that the page could be mixed up with. */
  predicate Elsewhere(messages: seq<Message>, items: seq<Message>, collate: Collation) {
    forall k, l :: 0 <= k < |items| && 0 <= l < |items| && Lags(messages, items, k) ==>
      !SameRank(Blended(messages, items)[k].turn, items[l].turn, collate)
  }

  lemma ElsewhereIsForeign(messages: seq<Message>, items: seq<Message>, collate: Collation)
    requires TotalPreorder(collate) && Elsewhere(messages, items, collate)
    ensures Foreign(messages, items)
  {
    forall k, l | 0 <= k < |items| && 0 <= l < |items| && Lags(messages, items, k)
      ensures Blended(messages, items)[k].turn != items[l].turn
    {
      SameTurnSameRank(items[l].turn, collate);
    }
  }

  lemma OrderRanks(a: Message, b: Message, collate: Collation)
    ensures TurnOrder(collate)(a, b) && TurnOrder(collate)(b, a) <==> SameRank(a.turn, b.turn, collate)
  {
    var le := TurnOrder(collate);
    if HasTurn(a) && HasTurn(b) {
      assert le(a, b) == collate(a.turn.value, b.turn.value) && le(b, a) == collate(b.turn.value, a.turn.value);
    } else {
      assert le(a, b) == (HasTurn(a) || !HasTurn(b)) && le(b, a) == (HasTurn(b) || !HasTurn(a));
    }
  }

  /** In a sorted list what ranks lower stands before what ranks higher. */
  lemma SortedByRank(list: seq<Message>, le: (Message, Message) -> bool, x: Message, y: Message)
    requires TotalPreorder(le) && x in list && y in list && le(x, y) && !le(y, x)
    ensures Precedes(Sort(list, le), x, y)
  {
    SortSorts(list, le);
    SortMembers(list, le);
    var sorted := Sort(list, le);
    var i :| 0 <= i < |sorted| && sorted[i] == x;
    var j :| 0 <= j < |sorted| && sorted[j] == y;
    assert i != j && !(j < i);
  }

  lemma PrecedesRanked(list: seq<Message>, le: (Message, Message) -> bool, x: Message, y: Message)
    requires TotalPreorder(le) && Precedes(Sort(list, le), x, y)
    ensures le(x, y)
  {
    SortSorts(list, le);
  }

  /** If the turns agree with the page order, no item with another turn stands
      between two that keep theirs. */
  lemma RanksStayGrouped(messages: seq<Message>, items: seq<Message>, collate: Collation)
    requires Consistent(messages, items) && TotalPreorder(collate) && Grouped(items)
    requires Elsewhere(messages, items, collate) && RanksKept(messages, items, collate)
    ensures StaysGrouped(messages, items)
  {
    ElsewhereIsForeign(messages, items, collate);
    var history := Blended(messages, items);
    forall i: nat, j: nat, k: nat | i < j < k < |items| && Together(history[i], history[k], TurnsOf(items))
      ensures history[j].turn == history[i].turn
    {
      PageTurnKept(messages, items, i);
      PageTurnKept(messages, items, j);
      PageTurnKept(messages, items, k);
      if Lags(messages, items, j) {
        BetweenSameRank(messages, items, collate, i, j, k);
      }
    }
  }

  lemma BetweenSameRank(messages: seq<Message>, items: seq<Message>, collate: Collation, i: nat, j: nat, k: nat)
    requires TotalPreorder(collate) && RanksKept(messages, items, collate)
    requires i < j < k < |items| && items[i].turn == items[j].turn == items[k].turn
    requires Blended(messages, items)[i].turn == Blended(messages, items)[k].turn == items[k].turn
    ensures SameRank(Blended(messages, items)[j].turn, items[k].turn, collate)
  {
    var history := Blended(messages, items);
    assert Ordered(messages, items, collate, i, j) && Ordered(messages, items, collate, j, k);
    var le := TurnOrder(collate);
    assert le(history[i], history[j]) && le(history[j], history[k]);
    assert le(history[k], history[j]) == le(history[i], history[j]);
    OrderRanks(history[j], history[k], collate);
  }

  /** A lagging item was in the list before. */
  lemma LaggingIsMatched(messages: seq<Message>, items: seq<Message>, k: nat)
    requires Consistent(messages, items) && k < |items| && Lags(messages, items, k)
    ensures Blended(messages, items)[k] in Replaced(messages, Blended(messages, items))
  {
    var i :| 0 <= i < |messages| && Same(messages[i], items[k]);
    ReplacedAt(messages, items, i);
    assert Replaced(messages, Blended(messages, items))[i] == Blended(messages, items)[k];
  }

  lemma InsertedHolds(messages: seq<Message>, items: seq<Message>, older: bool)
    requires Consistent(messages, items)
    ensures var history := Blended(messages, items);
            var inserted := InsertFrom(Replaced(messages, history), history, 0, older);
            && (forall k :: 0 <= k < |history| ==> history[k] in inserted)
            && forall x, y :: Precedes(Replaced(messages, history), x, y) ==> Precedes(inserted, x, y)
  {
    ReplacedAligned(messages, items);
    var history := Blended(messages, items);
    InsertFromKeeps(Replaced(messages, history), history, 0, older);
    assert history[0..] == history;
  }

  /** Two items of a turn whose ranks agree with the page come out in page order. */
  lemma OrderedPair(messages: seq<Message>, items: seq<Message>, older: bool, collate: Collation, k: nat, l: nat)
    requires Consistent(messages, items) && TotalPreorder(collate) && OverlapInOrder(messages, items)
    requires Elsewhere(messages, items, collate) && StaysGrouped(messages, items)
    requires k < l < |items| && items[k].turn == items[l].turn && Ordered(messages, items, collate, k, l)
    ensures Precedes(Merged(messages, items, older, collate), Blended(messages, items)[k], Blended(messages, items)[l])
  {
    var history := Blended(messages, items);
    var inserted := InsertFrom(Replaced(messages, history), history, 0, older);
    ElsewhereIsForeign(messages, items, collate);
    InsertedHolds(messages, items, older);
    OrderRanks(history[k], history[l], collate);
    if !SameRank(history[k].turn, history[l].turn, collate) {
      TurnOrderTotal(collate);
      SortedByRank(inserted, TurnOrder(collate), history[k], history[l]);
    } else if Lags(messages, items, k) && Lags(messages, items, l) {
      LaggingIsMatched(messages, items, k);
      LaggingIsMatched(messages, items, l);
      MatchedInOrder(messages, items, k, l);
      RankedKeepOrder(inserted, collate, history[k], history[l]);
    } else {
      NeitherLags(messages, items, collate, k, l);
      KeptPairInOrder(messages, items, older, collate, k, l);
    }
  }

  /** An item that lags and one that does not have different ranks. */
  lemma NeitherLags(messages: seq<Message>, items: seq<Message>, collate: Collation, k: nat, l: nat)
    requires Consistent(messages, items) && Elsewhere(messages, items, collate)
    requires k < |items| && l < |items|
    requires SameRank(Blended(messages, items)[k].turn, Blended(messages, items)[l].turn, collate)
    requires !(Lags(messages, items, k) && Lags(messages, items, l))
    ensures !Lags(messages, items, k) && !Lags(messages, items, l)
  {
    LagsMeans(messages, items, k);
    LagsMeans(messages, items, l);
  }

  /** Page order is kept exactly if the turns the items come out with allow it. */
  lemma PageOrderIff(messages: seq<Message>, items: seq<Message>, older: bool, collate: Collation)
    requires Consistent(messages, items) && TotalPreorder(collate)
    requires Grouped(items) && OverlapInOrder(messages, items) && Elsewhere(messages, items, collate)
    ensures PageOrderKept(messages, items, older, collate) <==> RanksKept(messages, items, collate)
  {
    TurnOrderTotal(collate);
    var history := Blended(messages, items);
    if PageOrderKept(messages, items, older, collate) {
      forall k: nat, l: nat | k < l < |items| && items[k].turn == items[l].turn ensures Ordered(messages, items, collate, k, l) {
        PrecedesRanked(InsertFrom(Replaced(messages, history), history, 0, older), TurnOrder(collate), history[k], history[l]);
      }
    }
    if RanksKept(messages, items, collate) {
      RanksStayGrouped(messages, items, collate);
      forall k: nat, l: nat | k < l < |items| && items[k].turn == items[l].turn
        ensures Precedes(Merged(messages, items, older, collate), history[k], history[l])
      {
        OrderedPair(messages, items, older, collate, k, l);
      }
    }
  }

  // ----- Messages that do not know their turn yet -----

  /** A live message that would keep another turn than the page's has none at all,
      as a message that was just submitted. */
  predicate OnlyTurnlessLag(messages: seq<Message>, items: seq<Message>) {
    && (forall k :: 0 <= k < |items| ==> HasTurn(items[k]))
    && (forall k :: 0 <= k < |items| && Lags(messages, items, k) ==> !HasTurn(Blended(messages, items)[k]))
  }

  /** No item of a turn that keeps it stands behind one that does not. */
  predicate LagLast(messages: seq<Message>, items: seq<Message>) {
    forall k, l :: 0 <= k < l < |items| && items[k].turn == items[l].turn && Lags(messages, items, k) ==> Lags(messages, items, l)
  }

  lemma TurnlessOrdered(messages: seq<Message>, items: seq<Message>, collate: Collation, k: nat, l: nat)
    requires Consistent(messages, items) && TotalPreorder(collate) && OnlyTurnlessLag(messages, items)
    requires k < |items| && l < |items| && items[k].turn == items[l].turn
    ensures Ordered(messages, items, collate, k, l) <==> (Lags(messages, items, k) ==> Lags(messages, items, l))
  {
    LagsMeans(messages, items, k);
    LagsMeans(messages, items, l);
    var a, b := Blended(messages, items)[k], Blended(messages, items)[l];
    var le := TurnOrder(collate);
    if HasTurn(a) && HasTurn(b) {
      var id := a.turn.value;
      assert collate(id, id);
      assert le(a, b);
    } else {
      assert le(a, b) == (HasTurn(a) || !HasTurn(b));
    }
  }

  /** Then page order is kept exactly if, turn by turn, the items that neither
      complete nor extend a message without a turn come last. */
  lemma TurnlessPageOrderIff(messages: seq<Message>, items: seq<Message>, older: bool, collate: Collation)
    requires Consistent(messages, items) && TotalPreorder(collate)
    requires Grouped(items) && OverlapInOrder(messages, items) && OnlyTurnlessLag(messages, items)
    ensures PageOrderKept(messages, items, older, collate) <==> LagLast(messages, items)
  {
    assert Elsewhere(messages, items, collate) by {
      assert forall l :: 0 <= l < |items| ==> HasTurn(items[l]);
    }
    PageOrderIff(messages, items, older, collate);
    forall k: nat, l: nat | k < l < |items| && items[k].turn == items[l].turn
      ensures Ordered(messages, items, collate, k, l) <==> (Lags(messages, items, k) ==> Lags(messages, items, l))
    {
      TurnlessOrdered(messages, items, collate, k, l);
    }
  }

  // ----- A page that loses its order -----

  const SUBMITTED := Message("c", Some("c"), true, None, "ask", false, Some(1))
  const QUESTION := Message("u", Some("c"), true, Some("t"), "ask", false, None)
  const ANSWER := Message("a", None, false, Some("t"), "reply", false, None)

  /** A submitted message that its page shows unfinished and no longer than before
      ends up behind the answer. */
  lemma UnfinishedQuestionFallsBehind(older: bool, collate: Collation)
    requires TotalPreorder(collate)
    ensures Consistent([SUBMITTED], [QUESTION, ANSWER]) && Grouped([QUESTION, ANSWER])
    ensures OverlapInOrder([SUBMITTED], [QUESTION, ANSWER])
    ensures !PageOrderKept([SUBMITTED], [QUESTION, ANSWER], older, collate)
  {
    ExampleNames();
    FallsBehind([SUBMITTED], [QUESTION, ANSWER], older, collate);
  }

  lemma ExampleNames()
    ensures Same(SUBMITTED, QUESTION) && !Same(SUBMITTED, ANSWER) && !Same(QUESTION, ANSWER)
    ensures !Overrides(QUESTION, SUBMITTED)
  {
    assert "c" in Names(SUBMITTED) * Names(QUESTION);
    assert Names(SUBMITTED) == {"c"} && Names(QUESTION) == {"u", "c"} && Names(ANSWER) == {"a"};
  }

  lemma FallsBehind(messages: seq<Message>, items: seq<Message>, older: bool, collate: Collation)
    requires TotalPreorder(collate) && |messages| == 1 && |items| == 2
    requires Same(messages[0], items[0]) && !Same(messages[0], items[1]) && !Same(items[0], items[1])
    requires messages[0].clientId != Some("") && !HasTurn(messages[0]) && !Overrides(items[0], messages[0])
    requires items[0].turn == items[1].turn && HasTurn(items[0])
    ensures Consistent(messages, items) && Grouped(items) && OverlapInOrder(messages, items)
    ensures !PageOrderKept(messages, items, older, collate)
  {
    OneOfTwoMatched(messages, items);
    assert Lags(messages, items, 0) && !Lags(messages, items, 1);
    BlendedAt(messages, items, 0);
    TurnlessPageOrderIff(messages, items, older, collate);
  }

  lemma OneOfTwoMatched(messages: seq<Message>, items: seq<Message>)
    requires |messages| == 1 && |items| == 2 && messages[0].clientId != Some("")
    requires !Same(messages[0], items[1]) && !Same(items[0], items[1])
    ensures Consistent(messages, items) && Grouped(items) && OverlapInOrder(messages, items)
  {}
}
