/** What the messages of a page and of the merged list say, and where new ones stand. */
module ChatContents {
  import opened Wrappers
  import opened StableSorting
  import opened ChatHistory
  import opened ChatMerge

  // ----- What a page shows -----

  predicate FirstByUser(turn: Turn, k: nat)
    requires k < |turn.items|
  {
    turn.items[k].kind == "userMessage" && forall j :: 0 <= j < k ==> turn.items[j].kind != "userMessage"
  }

  /** The message says what the item says. It counts as finished with its turn; a time
      that is missing is the start of the turn for the message that opened it. */
  predicate Conveys(m: Message, turn: Turn, k: nat)
    requires k < |turn.items|
  {
    var item := turn.items[k];
    && m.id == item.id && m.clientId == item.clientId && m.turn == Some(turn.id) && m.text == item.text
    && (m.user <==> item.kind == "userMessage")
    && (m.complete <==> turn.state.status != "inProgress")
    && (item.sentAt.Some? ==> m.sentAt == item.sentAt)
    && (item.sentAt.None? && FirstByUser(turn, k) && !turn.itemsBefore ==> m.sentAt == turn.state.startedAt)
    && (item.sentAt.None? && !(FirstByUser(turn, k) && !turn.itemsBefore) ==> m.sentAt == None)
  }

  /** No item before `k` is by the user. */
  predicate Unopened(turn: Turn, k: nat)
    requires k <= |turn.items|
  {
    forall j :: 0 <= j < k ==> turn.items[j].kind != "userMessage"
  }

  lemma MessageConveys(turn: Turn, k: nat)
    requires k < |turn.items|
    ensures Conveys(MessageOf(turn, turn.items[k], Unopened(turn, k)), turn, k)
  {}

  lemma UnopenedNext(turn: Turn, k: nat)
    requires k < |turn.items|
    ensures Unopened(turn, k + 1) <==> Unopened(turn, k) && !ByUser(turn.items[k])
  {}

  /** `at[i]` is the item that the message at `i` conveys: the visible ones, in order. */
  ghost predicate Delivers(messages: seq<Message>, turn: Turn, k: nat, at: seq<nat>) {
    && |at| == |messages|
    && (forall i :: 0 <= i < |at| ==> k <= at[i] < |turn.items| && Conveys(messages[i], turn, at[i]))
    && (forall i, j :: 0 <= i < j < |at| ==> at[i] < at[j])
    && (forall n :: k <= n < |turn.items| ==> (n in at <==> turn.items[n].text != "" || turn.items[n].attached))
  }

  lemma DeliversMore(m: Message, messages: seq<Message>, turn: Turn, k: nat, at: seq<nat>)
    requires k < |turn.items| && Delivers(messages, turn, k + 1, at)
    requires Visible(turn.items[k]) && Conveys(m, turn, k)
    ensures Delivers([m] + messages, turn, k, [k] + at)
  {
    assert forall i :: 0 < i < |at| + 1 ==> ([k] + at)[i] == at[i - 1] && ([m] + messages)[i] == messages[i - 1];
    assert forall n :: n in [k] + at <==> n == k || n in at;
  }

  lemma {:induction false} ShownFromDelivers(turn: Turn, k: nat) returns (at: seq<nat>)
    requires k <= |turn.items|
    ensures Delivers(ShownFrom(turn, k, Unopened(turn, k)), turn, k, at)
    decreases |turn.items| - k
  {
    at := [];
    if k < |turn.items| {
      UnopenedNext(turn, k);
      var rest := ShownFrom(turn, k + 1, Unopened(turn, k + 1));
      at := ShownFromDelivers(turn, k + 1);
      if Visible(turn.items[k]) {
        MessageConveys(turn, k);
        DeliversMore(MessageOf(turn, turn.items[k], Unopened(turn, k)), rest, turn, k, at);
        at := [k] + at;
      } else {
        assert ShownFrom(turn, k, Unopened(turn, k)) == [] + rest == rest;
        assert forall n :: n in at ==> n != k;
      }
    }
  }

  /** Of a turn the page shows exactly the items that are not empty, in their order. */
  lemma TurnShown(turn: Turn) returns (at: seq<nat>)
    ensures Delivers(Shown(turn), turn, 0, at)
  {
    at := ShownFromDelivers(turn, 0);
  }

  /** The page is the concatenation of its turns in some order `sorted`. */
  lemma {:induction false} FlattenAt(sorted: seq<Turn>, t: nat) returns (from: nat)
    requires t < |sorted|
    ensures from + |Shown(sorted[t])| <= |Flatten(sorted)|
    ensures Flatten(sorted)[from..from + |Shown(sorted[t])|] == Shown(sorted[t])
  {
    var first, rest := Shown(sorted[0]), Flatten(sorted[1..]);
    if t == 0 {
      from := 0;
      assert (first + rest)[..|first|] == first;
    } else {
      var inner := FlattenAt(sorted[1..], t - 1);
      from := |first| + inner;
      var n := |Shown(sorted[t])|;
      assert (first + rest)[from..from + n] == rest[inner..inner + n];
    }
  }

  lemma {:induction false} FlattenMember(sorted: seq<Turn>, i: nat) returns (t: nat)
    requires i < |Flatten(sorted)|
    ensures t < |sorted| && Flatten(sorted)[i] in Shown(sorted[t])
  {
    var first := Shown(sorted[0]);
    if i < |first| {
      t := 0;
    } else {
      t := FlattenMember(sorted[1..], i - |first|);
      t := t + 1;
    }
  }

  /** Every item with something to show stands on the page as its message. */
  lemma PageShowsItem(turns: seq<Turn>, collate: Collation, turn: Turn, k: nat)
    requires turn in turns && k < |turn.items| && (turn.items[k].text != "" || turn.items[k].attached)
    ensures exists m :: m in PageItems(turns, collate) && Conveys(m, turn, k)
  {
    var le := (a: Turn, b: Turn) => collate(a.id, b.id);
    SortMembers(turns, le);
    var sorted := Sort(turns, le);
    var t :| 0 <= t < |sorted| && sorted[t] == turn;
    var from := FlattenAt(sorted, t);
    var at := TurnShown(turn);
    var i :| 0 <= i < |at| && at[i] == k;
    assert Shown(turn)[i] == Flatten(sorted)[from..from + |Shown(turn)|][i] == Flatten(sorted)[from + i];
  }

  /** And nothing else does. */
  lemma PageShowsOnlyItems(turns: seq<Turn>, collate: Collation, i: nat)
    requires i < |PageItems(turns, collate)|
    ensures exists turn, k: nat :: turn in turns && k < |turn.items| && (turn.items[k].text != "" || turn.items[k].attached)
                                   && Conveys(PageItems(turns, collate)[i], turn, k)
  {
    var le := (a: Turn, b: Turn) => collate(a.id, b.id);
    SortMembers(turns, le);
    var sorted := Sort(turns, le);
    var t := FlattenMember(sorted, i);
    var at := TurnShown(sorted[t]);
    var p :| 0 <= p < |Shown(sorted[t])| && Shown(sorted[t])[p] == Flatten(sorted)[i];
    assert sorted[t] in sorted && at[p] in at;
    assert Conveys(Flatten(sorted)[i], sorted[t], at[p]);
  }

  // ----- What a merged message says -----

  /** The item under its own identifier, with the live time if there is one: as the
      page has it if it is finished or longer, and otherwise as it is live. */
  predicate Combines(m: Message, live: Message, item: Message) {
    && m.id == item.id
    && m.sentAt == (if live.sentAt.Some? then live.sentAt else item.sentAt)
    && (item.complete || |item.text| > |live.text| ==>
          && m.text == item.text && m.complete == item.complete && m.user == item.user
          && m.turn == item.turn && m.clientId == item.clientId)
    && (!item.complete && |item.text| <= |live.text| ==>
          && m.text == live.text && m.complete == live.complete && m.user == live.user && m.turn == live.turn
          && m.clientId == (if live.clientId.Some? then live.clientId else item.clientId))
  }

  /** What the merged list says of an item: it is there once under its identifier,
      combined with the live message that is the same, or unchanged without one. */
  lemma MergedItem(messages: seq<Message>, items: seq<Message>, older: bool, collate: Collation, k: nat)
    requires Consistent(messages, items) && TotalPreorder(collate) && k < |items|
    ensures var merged := Merged(messages, items, older, collate);
            && (forall i :: 0 <= i < |messages| && Same(messages[i], items[k]) ==>
                  exists m :: m in merged && Combines(m, messages[i], items[k]))
            && ((forall i :: 0 <= i < |messages| ==> !Same(messages[i], items[k])) ==> items[k] in merged)
            && (forall p, q :: 0 <= p < |merged| && 0 <= q < |merged| && merged[p].id == merged[q].id ==> p == q)
  {
    MergeIsCompleteAndSorted(messages, items, older, collate);
    BlendedAt(messages, items, k);
    var m := Blended(messages, items)[k];
    assert m in Merged(messages, items, older, collate);
    forall i | 0 <= i < |messages| && Same(messages[i], items[k]) ensures Combines(m, messages[i], items[k]) {}
  }

  /** A live message that the page does not have stays as it was. */
  lemma MergedKeepsOthers(messages: seq<Message>, items: seq<Message>, older: bool, collate: Collation, i: nat)
    requires Consistent(messages, items) && TotalPreorder(collate) && i < |messages|
    requires forall k :: 0 <= k < |items| ==> !Same(messages[i], items[k])
    ensures messages[i] in Merged(messages, items, older, collate)
  {
    MergeIsCompleteAndSorted(messages, items, older, collate);
    ReplacedAt(messages, items, i);
    assert messages[i] in Replaced(messages, Blended(messages, items));
  }

  /** Nothing else is in the merged list. */
  lemma MergedHoldsNothingElse(messages: seq<Message>, items: seq<Message>, older: bool, collate: Collation, m: Message)
    requires Consistent(messages, items) && TotalPreorder(collate)
    requires m in Merged(messages, items, older, collate)
    ensures || (m in messages && forall k :: 0 <= k < |items| ==> !Same(m, items[k]))
            || (m in items && forall i :: 0 <= i < |messages| ==> !Same(messages[i], m))
            || (exists i, k :: 0 <= i < |messages| && 0 <= k < |items| && Same(messages[i], items[k]) && Combines(m, messages[i], items[k]))
  {
    MergeIsCompleteAndSorted(messages, items, older, collate);
    if m in Blended(messages, items) {
      var k :| 0 <= k < |items| && Blended(messages, items)[k] == m;
      BlendedElse(messages, items, k);
    } else {
      var i :| 0 <= i < |messages| && Replaced(messages, Blended(messages, items))[i] == m;
      ReplacedAt(messages, items, i);
      assert forall k :: 0 <= k < |items| && Same(messages[i], items[k]) ==> m == Blended(messages, items)[k];
    }
  }

  lemma BlendedElse(messages: seq<Message>, items: seq<Message>, k: nat)
    requires Consistent(messages, items) && k < |items|
    ensures var m := Blended(messages, items)[k];
            || (m == items[k] && forall i :: 0 <= i < |messages| ==> !Same(messages[i], items[k]))
            || (exists i :: 0 <= i < |messages| && Same(messages[i], items[k]) && Combines(m, messages[i], items[k]))
  {
    BlendedAt(messages, items, k);
    if i :| 0 <= i < |messages| && Same(messages[i], items[k]) {
      assert Combines(Blended(messages, items)[k], messages[i], items[k]);
    }
  }

  lemma OrderMeans(a: Message, b: Message, collate: Collation)
    requires TurnOrder(collate)(a, b)
    ensures b.turn.Some? && b.turn.value != "" ==> a.turn.Some? && a.turn.value != "" && collate(a.turn.value, b.turn.value)
  {
    assert HasTurn(b) ==> HasTurn(a);
  }

  /** Turns stand in the order of their identifiers, messages without one at the end. */
  lemma MergedByTurn(messages: seq<Message>, items: seq<Message>, older: bool, collate: Collation, p: nat, q: nat)
    requires Consistent(messages, items) && TotalPreorder(collate)
    requires p < q < |Merged(messages, items, older, collate)|
    ensures var a, b := Merged(messages, items, older, collate)[p].turn, Merged(messages, items, older, collate)[q].turn;
            b.Some? && b.value != "" ==> a.Some? && a.value != "" && collate(a.value, b.value)
  {
    MergeIsCompleteAndSorted(messages, items, older, collate);
    var merged := Merged(messages, items, older, collate);
    OrderMeans(merged[p], merged[q], collate);
  }

  // ----- Where a turn goes that was not in the list -----

  /** No live message that is also on the page has this turn, live or on the page. */
  predicate NewTurn(messages: seq<Message>, items: seq<Message>, turn: Option<string>) {
    forall l, i :: 0 <= l < |items| && 0 <= i < |messages| && Same(messages[i], items[l]) ==>
      messages[i].turn != turn && items[l].turn != turn
  }

  /** All items of the turn that are in the list stand at that end of `fixed`. */
  ghost predicate AtEnd(list: seq<Message>, history: seq<Message>, turn: Option<string>, fixed: seq<Message>, older: bool) {
    forall k, m :: 0 <= k < |history| && history[k].turn == turn && history[k] in list && m in fixed ==>
      if older then Precedes(list, history[k], m) else Precedes(list, m, history[k])
  }

  lemma PrecedesMember(list: seq<Message>, x: Message, y: Message)
    requires DistinctIds(list) && Precedes(list, x, y)
    ensures x in list && y in list && IndexOf(list, x.id).Some? && IndexOf(list, y.id).Some?
    ensures IndexOf(list, x.id).value < IndexOf(list, y.id).value
    ensures list[IndexOf(list, x.id).value] == x && list[IndexOf(list, y.id).value] == y
  {
    PrecedesByIndex(list, x, y);
    var i, j :| 0 <= i < j < |list| && list[i] == x && list[j] == y;
    IndexOfMember(list, x);
    IndexOfMember(list, y);
  }

  /** The slot of another item of such a turn is at the same end. */
  lemma SlotAtEnd(list: seq<Message>, history: seq<Message>, k: nat, fixed: seq<Message>, older: bool, m: Message)
    requires Aligned(list, history) && k < |history| && AtEnd(list, history, history[k].turn, fixed, older)
    requires forall j :: 0 <= j < k ==> history[j] in list
    requires forall j :: k < j < |history| && history[j].turn == history[k].turn ==> history[j] !in list
    requires m in fixed && m in list
    ensures IndexOf(list, m.id).Some?
    ensures var at := Slot(list, history, k, older);
            if older then at <= IndexOf(list, m.id).value else IndexOf(list, m.id).value < at
  {
    IndexOfMember(list, m);
    var next := NextAnchor(list, history, history[k].turn, k + 1);
    if next.Some? {
      AlignedMember(list, history, next.value);
      assert false;
    } else if k > 0 && history[k - 1].turn == history[k].turn {
      IndexOfMember(list, history[k - 1]);
      if older {
        PrecedesMember(list, history[k - 1], m);
      } else {
        PrecedesMember(list, m, history[k - 1]);
      }
    }
  }

  lemma InsertOneAtEnd(list: seq<Message>, history: seq<Message>, k: nat, turn: Option<string>, fixed: seq<Message>, older: bool)
    requires Aligned(list, history) && k < |history| && AtEnd(list, history, turn, fixed, older)
    requires forall j :: 0 <= j < k ==> history[j] in list
    requires forall j :: k <= j < |history| && history[j].turn == turn ==> history[j] !in list
    requires forall m :: m in fixed ==> m in list
    ensures AtEnd(InsertOne(list, history, k, older), history, turn, fixed, older)
  {
    var result := InsertOne(list, history, k, older);
    InsertOneKeeps(list, history, k, older);
    forall j, m | 0 <= j < |history| && history[j].turn == turn && history[j] in result && m in fixed
      ensures if older then Precedes(result, history[j], m) else Precedes(result, m, history[j])
    {
      if history[j] !in list {
        assert history[j] == history[k];
        AlignedMember(list, history, k);
        SlotAtEnd(list, history, k, fixed, older, m);
        IndexOfMember(list, m);
        SplicePrecedes(list, Slot(list, history, k, older), history[k]);
      }
    }
  }

  lemma {:induction false} InsertFromAtEnd(
    list: seq<Message>, history: seq<Message>, k: nat, turn: Option<string>, fixed: seq<Message>, older: bool)
    requires Aligned(list, history) && k <= |history| && AtEnd(list, history, turn, fixed, older)
    requires forall j :: 0 <= j < k ==> history[j] in list
    requires forall j :: k <= j < |history| && history[j].turn == turn ==> history[j] !in list
    requires forall m :: m in fixed ==> m in list
    ensures AtEnd(InsertFrom(list, history, k, older), history, turn, fixed, older)
    decreases |history| - k
  {
    if k < |history| {
      var next := InsertOne(list, history, k, older);
      InsertOneAtEnd(list, history, k, turn, fixed, older);
      InsertOneKeeps(list, history, k, older);
      assert forall j :: k < j < |history| ==> history[j].id != history[k].id;
      InsertFromAtEnd(next, history, k + 1, turn, fixed, older);
    }
  }

  lemma NewTurnAbsent(messages: seq<Message>, items: seq<Message>, turn: Option<string>)
    requires Consistent(messages, items) && NewTurn(messages, items, turn)
    ensures forall k :: 0 <= k < |items| && Blended(messages, items)[k].turn == turn ==>
              Blended(messages, items)[k] !in Replaced(messages, Blended(messages, items))
  {
    ReplacedIds(messages, items);
    forall k: nat | k < |items| && Blended(messages, items)[k].turn == turn
      ensures Blended(messages, items)[k].id == items[k].id && forall i :: 0 <= i < |messages| ==> !Same(messages[i], items[k])
    {
      BlendedAt(messages, items, k);
      BlendedElse(messages, items, k);
    }
  }

  lemma InsertedAtEnd(messages: seq<Message>, items: seq<Message>, older: bool, k: nat, i: nat)
    requires Consistent(messages, items) && k < |items| && i < |messages|
    requires NewTurn(messages, items, Blended(messages, items)[k].turn)
    ensures var inserted := InsertFrom(Replaced(messages, Blended(messages, items)), Blended(messages, items), 0, older);
            var image, item := Replaced(messages, Blended(messages, items))[i], Blended(messages, items)[k];
            if older then Precedes(inserted, item, image) else Precedes(inserted, image, item)
  {
    var history := Blended(messages, items);
    var images := Replaced(messages, history);
    ReplacedAligned(messages, items);
    NewTurnAbsent(messages, items, history[k].turn);
    InsertFromAtEnd(images, history, 0, history[k].turn, images, older);
    InsertFromKeeps(images, history, 0, older);
    assert history[0..] == history;
    assert history[k] in InsertFrom(images, history, 0, older) && images[i] in images;
  }

  /** The items of a turn that the list has only from elsewhere go before the old
      messages of the same rank if the page is older, and behind them otherwise. */
  lemma NewTurnAtEnd(messages: seq<Message>, items: seq<Message>, older: bool, collate: Collation, k: nat, i: nat)
    requires Consistent(messages, items) && TotalPreorder(collate) && k < |items| && i < |messages|
    requires NewTurn(messages, items, items[k].turn) && SameRank(messages[i].turn, items[k].turn, collate)
    requires forall j :: 0 <= j < |messages| ==> !Same(messages[j], items[k])
    requires forall l :: 0 <= l < |items| ==> !Same(messages[i], items[l])
    ensures var merged := Merged(messages, items, older, collate);
            if older then Precedes(merged, items[k], messages[i]) else Precedes(merged, messages[i], items[k])
  {
    BlendedAt(messages, items, k);
    ReplacedAt(messages, items, i);
    InsertedAtEnd(messages, items, older, k, i);
    var inserted := InsertFrom(Replaced(messages, Blended(messages, items)), Blended(messages, items), 0, older);
    if older {
      RankedKeepOrder(inserted, collate, items[k], messages[i]);
    } else {
      RankedKeepOrder(inserted, collate, messages[i], items[k]);
    }
  }
}
