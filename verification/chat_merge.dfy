/** What merging history guarantees for the order and the completeness of the list. */
module ChatMerge {
  import opened Wrappers
  import opened StableSorting
  import opened ChatHistory

  // ----- Consistent input -----

  /** Two messages are the same one under some name. */
  predicate Same(a: Message, b: Message) {
    Names(a) * Names(b) != {}
  }

  predicate AllDifferent(messages: seq<Message>) {
    forall i, j :: 0 <= i < j < |messages| ==> !Same(messages[i], messages[j])
  }

  /** The list and the page each name a message once and agree on which of their
      messages are the same. */
  predicate Consistent(messages: seq<Message>, items: seq<Message>) {
    && AllDifferent(messages) && AllDifferent(items)
    && (forall i :: 0 <= i < |messages| ==> messages[i].clientId != Some(""))
    && (forall i, k, k' :: 0 <= i < |messages| && 0 <= k < k' < |items| ==> !(Same(messages[i], items[k]) && Same(messages[i], items[k'])))
    && (forall i, i', k :: 0 <= i < i' < |messages| && 0 <= k < |items| ==> !(Same(messages[i], items[k]) && Same(messages[i'], items[k])))
  }

  // ----- Lookup by name -----

  lemma {:induction false} ByNameKeys(messages: seq<Message>, name: string)
    ensures name in ByName(messages) <==> exists i :: 0 <= i < |messages| && name in Names(messages[i])
    ensures name in ByName(messages) ==> ByName(messages)[name] in messages && name in Names(ByName(messages)[name])
  {
    if messages != [] {
      var n := |messages| - 1;
      ByNameKeys(messages[..n], name);
      if name in Names(messages[n]) {
        assert name in ByName(messages);
      } else if name in ByName(messages[..n]) {
        var i :| 0 <= i < n && name in Names(messages[..n][i]);
        assert messages[i] == messages[..n][i];
      }
    }
  }

  /** Lookup finds the one message that is the same, or nothing. */
  lemma LookupFinds(messages: seq<Message>, m: Message)
    ensures Lookup(ByName(messages), m).Some? ==>
              Lookup(ByName(messages), m).value in messages && Same(m, Lookup(ByName(messages), m).value)
    ensures (exists i :: 0 <= i < |messages| && Same(m, messages[i])) ==> Lookup(ByName(messages), m).Some?
  {
    ByNameKeys(messages, m.id);
    if HasClient(m) {
      ByNameKeys(messages, m.clientId.value);
    }
    var found := Lookup(ByName(messages), m);
    if found.Some? {
      var name := if m.id in ByName(messages) then m.id else m.clientId.value;
      assert name in Names(m) * Names(found.value);
    }
    if i :| 0 <= i < |messages| && Same(m, messages[i]) {
      var name :| name in Names(m) * Names(messages[i]);
      assert name in Names(messages[i]);
    }
  }

  lemma BlendedAt(messages: seq<Message>, items: seq<Message>, k: nat)
    requires Consistent(messages, items) && k < |items|
    ensures Blended(messages, items)[k].id == items[k].id
    ensures (forall i :: 0 <= i < |messages| ==> !Same(messages[i], items[k])) ==> Blended(messages, items)[k] == items[k]
    ensures forall i :: 0 <= i < |messages| && Same(messages[i], items[k]) ==>
              && Blended(messages, items)[k] == Blend(messages[i], items[k])
              && Same(messages[i], Blended(messages, items)[k])
  {
    LookupFinds(messages, items[k]);
    var current := Lookup(ByName(messages), items[k]);
    if current.Some? {
      var c :| 0 <= c < |messages| && messages[c] == current.value;
      assert Same(messages[c], items[k]);
      forall i | 0 <= i < |messages| && Same(messages[i], items[k])
        ensures i == c
      {
        assert !(Same(messages[if i < c then i else c], items[k]) && Same(messages[if i < c then c else i], items[k])) || i == c;
      }
      BlendNames(messages[c], items[k]);
    } else {
      assert forall i :: 0 <= i < |messages| ==> Same(items[k], messages[i]) == Same(messages[i], items[k]);
    }
  }

  lemma BlendNames(current: Message, item: Message)
    requires Same(current, item) && current.clientId != Some("")
    ensures Same(current, Blend(current, item))
    ensures Names(Blend(current, item)) <= Names(current) + Names(item)
    ensures item.id in Names(Blend(current, item))
  {
    var name :| name in Names(current) * Names(item);
    var blend := Blend(current, item);
    if name == item.id || blend.clientId == item.clientId {
      assert name in Names(current) * Names(blend);
    } else {
      assert current.clientId.value in Names(current) * Names(blend);
    }
  }

  /** Where the names of a blended item come from. */
  lemma BlendedNames(messages: seq<Message>, items: seq<Message>, k: nat)
    requires Consistent(messages, items) && k < |items|
    ensures var names := Names(Blended(messages, items)[k]);
            || names == Names(items[k])
            || exists i :: 0 <= i < |messages| && Same(messages[i], items[k]) && names <= Names(messages[i]) + Names(items[k])
  {
    BlendedAt(messages, items, k);
    if i :| 0 <= i < |messages| && Same(messages[i], items[k]) {
      BlendNames(messages[i], items[k]);
    }
  }

  /** A message shares names with a blended item only if it did so with the item. */
  lemma BlendedSame(messages: seq<Message>, items: seq<Message>, i: nat, k: nat)
    requires Consistent(messages, items) && i < |messages| && k < |items|
    ensures Same(messages[i], Blended(messages, items)[k]) <==> Same(messages[i], items[k])
  {
    BlendedAt(messages, items, k);
    BlendedNames(messages, items, k);
    if Same(messages[i], Blended(messages, items)[k]) {
      var name :| name in Names(messages[i]) * Names(Blended(messages, items)[k]);
      if name !in Names(items[k]) {
        var c :| 0 <= c < |messages| && Same(messages[c], items[k]) && name in Names(messages[c]);
        assert name in Names(messages[i]) * Names(messages[c]);
        assert c == i;
      } else {
        assert name in Names(messages[i]) * Names(items[k]);
      }
    }
  }

  /** An old message becomes the item that is the same, or stays as it was. */
  lemma ReplacedAt(messages: seq<Message>, items: seq<Message>, i: nat)
    requires Consistent(messages, items) && i < |messages|
    ensures var history := Blended(messages, items);
            var image := Replaced(messages, history)[i];
            && (forall k :: 0 <= k < |items| && Same(messages[i], items[k]) ==> image == history[k])
            && ((forall k :: 0 <= k < |items| ==> !Same(messages[i], items[k])) ==> image == messages[i])
  {
    var history := Blended(messages, items);
    LookupFinds(history, messages[i]);
    forall k | 0 <= k < |items| ensures Same(messages[i], history[k]) <==> Same(messages[i], items[k]) {
      BlendedSame(messages, items, i, k);
    }
    var item := Lookup(ByName(history), messages[i]);
    if item.Some? {
      var h :| 0 <= h < |history| && history[h] == item.value;
      assert Same(messages[i], items[h]);
      forall k | 0 <= k < |items| && Same(messages[i], items[k]) ensures k == h {}
      BlendedAt(messages, items, h);
    }
  }

  predicate DistinctIds(messages: seq<Message>) {
    forall i, j :: 0 <= i < j < |messages| ==> messages[i].id != messages[j].id
  }

  lemma DifferentIds(a: Message, b: Message)
    requires !Same(a, b)
    ensures a.id != b.id
  {
    assert a.id in Names(b) ==> a.id in Names(a) * Names(b);
  }

  /** The identifiers of the updated list are distinct, and those of the page are
      in it exactly for the items that are not new. */
  lemma ReplacedIds(messages: seq<Message>, items: seq<Message>)
    requires Consistent(messages, items)
    ensures DistinctIds(Replaced(messages, Blended(messages, items)))
    ensures DistinctIds(Blended(messages, items))
    ensures forall k, i :: 0 <= k < |items| && 0 <= i < |messages| ==>
              (Replaced(messages, Blended(messages, items))[i].id == items[k].id <==> Same(messages[i], items[k]))
  {
    var history := Blended(messages, items);
    var images := Replaced(messages, history);
    forall k | 0 <= k < |items| ensures history[k].id == items[k].id {
      BlendedAt(messages, items, k);
    }
    forall k, l | 0 <= k < l < |items| ensures items[k].id != items[l].id {
      DifferentIds(items[k], items[l]);
    }
    forall k: nat, i: nat | k < |items| && i < |messages| ensures images[i].id == items[k].id <==> Same(messages[i], items[k]) {
      ReplacedIdAt(messages, items, i, k);
    }
    forall i: nat, j: nat | i < j < |messages| ensures images[i].id != images[j].id {
      ReplacedDistinct(messages, items, i, j);
    }
  }

  lemma ReplacedIdAt(messages: seq<Message>, items: seq<Message>, i: nat, k: nat)
    requires Consistent(messages, items) && i < |messages| && k < |items|
    ensures Replaced(messages, Blended(messages, items))[i].id == items[k].id <==> Same(messages[i], items[k])
  {
    ReplacedAt(messages, items, i);
    BlendedAt(messages, items, k);
    if l :| 0 <= l < |items| && Same(messages[i], items[l]) {
      BlendedAt(messages, items, l);
      if l != k {
        DifferentIds(items[if l < k then l else k], items[if l < k then k else l]);
        assert !(Same(messages[i], items[if l < k then l else k]) && Same(messages[i], items[if l < k then k else l]));
      }
    } else {
      DifferentIds(messages[i], items[k]);
    }
  }

  lemma ReplacedDistinct(messages: seq<Message>, items: seq<Message>, i: nat, j: nat)
    requires Consistent(messages, items) && i < |messages| && j < |messages| && i != j
    ensures Replaced(messages, Blended(messages, items))[i].id != Replaced(messages, Blended(messages, items))[j].id
  {
    ReplacedAt(messages, items, i);
    ReplacedAt(messages, items, j);
    if k :| 0 <= k < |items| && Same(messages[i], items[k]) {
      BlendedAt(messages, items, k);
      ReplacedIdAt(messages, items, i, k);
      ReplacedIdAt(messages, items, j, k);
      assert !(Same(messages[if i < j then i else j], items[k]) && Same(messages[if i < j then j else i], items[k]));
    } else if k :| 0 <= k < |items| && Same(messages[j], items[k]) {
      ReplacedIdAt(messages, items, i, k);
      ReplacedIdAt(messages, items, j, k);
    } else {
      DifferentIds(messages[if i < j then i else j], messages[if i < j then j else i]);
    }
  }

  // ----- Insertion -----

  /** Distinct identifiers, and a page item that is in the list is there as itself. */
  predicate Aligned(list: seq<Message>, history: seq<Message>) {
    && DistinctIds(list) && DistinctIds(history)
    && forall i, k :: 0 <= i < |list| && 0 <= k < |history| && list[i].id == history[k].id ==> list[i] == history[k]
  }

  lemma IndexOfAt(list: seq<Message>, i: nat)
    requires DistinctIds(list) && i < |list|
    ensures IndexOf(list, list[i].id) == Some(i)
  {}

  lemma SplicePrecedes(list: seq<Message>, at: nat, m: Message)
    requires at <= |list|
    ensures forall x :: x in Splice(list, at, m) <==> x in list || x == m
    ensures forall x, y :: Precedes(list, x, y) ==> Precedes(Splice(list, at, m), x, y)
    ensures forall i :: 0 <= i < at ==> Precedes(Splice(list, at, m), list[i], m)
    ensures forall i :: at <= i < |list| ==> Precedes(Splice(list, at, m), m, list[i])
  {
    var result := Splice(list, at, m);
    assert result[at] == m;
    assert forall i :: 0 <= i < at ==> result[i] == list[i];
    assert forall i :: at <= i < |list| ==> result[i + 1] == list[i];
    forall x, y | Precedes(list, x, y) ensures Precedes(result, x, y) {
      var i, j :| 0 <= i < j < |list| && list[i] == x && list[j] == y;
      assert result[if i < at then i else i + 1] == x && result[if j < at then j else j + 1] == y;
    }
    forall x | x in list ensures x in result {
      var i :| 0 <= i < |list| && list[i] == x;
      assert result[if i < at then i else i + 1] == x;
    }
  }

  lemma InsertOneKeeps(list: seq<Message>, history: seq<Message>, k: nat, older: bool)
    requires Aligned(list, history) && k < |history|
    ensures Aligned(InsertOne(list, history, k, older), history)
    ensures forall x :: x in InsertOne(list, history, k, older) <==> x in list || x == history[k]
    ensures forall x, y :: Precedes(list, x, y) ==> Precedes(InsertOne(list, history, k, older), x, y)
  {
    if IndexOf(list, history[k].id).None? {
      var at := Slot(list, history, k, older);
      SplicePrecedes(list, at, history[k]);
      SpliceAligned(list, history, k, at);
    }
  }

  lemma SpliceAt(list: seq<Message>, at: nat, m: Message, i: nat)
    requires at <= |list| && i <= |list|
    ensures Splice(list, at, m)[i] == if i < at then list[i] else if i == at then m else list[i - 1]
  {}

  lemma SpliceAligned(list: seq<Message>, history: seq<Message>, k: nat, at: nat)
    requires Aligned(list, history) && k < |history| && at <= |list|
    requires forall i :: 0 <= i < |list| ==> list[i].id != history[k].id
    ensures Aligned(Splice(list, at, history[k]), history)
  {
    var result := Splice(list, at, history[k]);
    forall i: nat | i < |result| ensures result[i] == if i < at then list[i] else if i == at then history[k] else list[i - 1] {
      SpliceAt(list, at, history[k], i);
    }
  }

  /** After insertion the list holds exactly what it held and the page, every
      identifier once, and no two old messages have changed places. */
  lemma {:induction false} InsertFromKeeps(list: seq<Message>, history: seq<Message>, k: nat, older: bool)
    requires Aligned(list, history) && k <= |history|
    ensures Aligned(InsertFrom(list, history, k, older), history)
    ensures forall x :: x in InsertFrom(list, history, k, older) <==> x in list || x in history[k..]
    ensures forall x, y :: Precedes(list, x, y) ==> Precedes(InsertFrom(list, history, k, older), x, y)
    decreases |history| - k
  {
    if k < |history| {
      InsertOneKeeps(list, history, k, older);
      InsertFromKeeps(InsertOne(list, history, k, older), history, k + 1, older);
      assert history[k..] == [history[k]] + history[k + 1..];
    }
  }

  // ----- Page order -----

  /** Items of one turn stand together. */
  predicate Grouped(items: seq<Message>) {
    forall i, j, k :: 0 <= i < j < k < |items| && items[i].turn == items[k].turn ==> items[j].turn == items[i].turn
  }

  /** Both are items of one turn, and that turn is one of those looked at. */
  predicate Together(a: Message, b: Message, turns: set<Option<string>>) {
    a.turn == b.turn && a.turn in turns
  }

  /** Items of each of these turns stand together. */
  predicate GroupedIn(items: seq<Message>, turns: set<Option<string>>) {
    forall i, j, k :: 0 <= i < j < k < |items| && Together(items[i], items[k], turns) ==> items[j].turn == items[i].turn
  }

  /** Items of each of these turns that are in the list are there in page order. */
  ghost predicate InPageOrder(list: seq<Message>, history: seq<Message>, turns: set<Option<string>>) {
    forall j, k :: 0 <= j < k < |history| && Together(history[j], history[k], turns) && history[j] in list && history[k] in list ==>
      Precedes(list, history[j], history[k])
  }

  lemma PrecedesByIndex(list: seq<Message>, x: Message, y: Message)
    requires DistinctIds(list) && Precedes(list, x, y)
    ensures IndexOf(list, x.id).Some? && IndexOf(list, y.id).Some?
    ensures IndexOf(list, x.id).value < IndexOf(list, y.id).value
  {
    var i, j :| 0 <= i < j < |list| && list[i] == x && list[j] == y;
    IndexOfAt(list, i);
    IndexOfAt(list, j);
  }

  lemma IndexOfMember(list: seq<Message>, x: Message)
    requires DistinctIds(list) && x in list
    ensures IndexOf(list, x.id).Some? && list[IndexOf(list, x.id).value] == x
  {
    var i :| 0 <= i < |list| && list[i] == x;
    IndexOfAt(list, i);
  }

  lemma AlignedMember(list: seq<Message>, history: seq<Message>, k: nat)
    requires Aligned(list, history) && k < |history|
    ensures IndexOf(list, history[k].id).Some? <==> history[k] in list
  {
    if history[k] in list {
      IndexOfMember(list, history[k]);
    }
  }

  /** The slot lies behind every earlier item of the turn and before every later one. */
  lemma SlotBetween(
    list: seq<Message>, history: seq<Message>, turns: set<Option<string>>, k: nat, older: bool, other: nat)
    requires Aligned(list, history) && GroupedIn(history, turns) && InPageOrder(list, history, turns)
    requires k < |history| && other < |history| && other != k && Together(history[other], history[k], turns)
    requires forall j :: 0 <= j < k ==> history[j] in list
    requires history[other] in list
    ensures var at := Slot(list, history, k, older);
            var index := IndexOf(list, history[other].id);
            index.Some? && (if other < k then index.value < at else at <= index.value)
  {
    IndexOfMember(list, history[other]);
    var next := NextAnchor(list, history, history[k].turn, k + 1);
    if next.Some? {
      var n := next.value;
      AlignedMember(list, history, n);
      if other < k {
        assert Together(history[other], history[n], turns);
        PrecedesByIndex(list, history[other], history[n]);
      } else if other != n {
        assert n < other && Together(history[n], history[other], turns);
        PrecedesByIndex(list, history[n], history[other]);
      }
    } else {
      assert other < k;
      assert other < k - 1 ==> history[k - 1].turn == history[other].turn;
      IndexOfMember(list, history[k - 1]);
      if other < k - 1 {
        assert Together(history[other], history[k - 1], turns);
        PrecedesByIndex(list, history[other], history[k - 1]);
      }
    }
  }

  lemma InsertOneOrdered(list: seq<Message>, history: seq<Message>, turns: set<Option<string>>, k: nat, older: bool)
    requires Aligned(list, history) && GroupedIn(history, turns) && InPageOrder(list, history, turns)
    requires k < |history| && forall j :: 0 <= j < k ==> history[j] in list
    ensures InPageOrder(InsertOne(list, history, k, older), history, turns)
  {
    InsertOneKeeps(list, history, k, older);
    var result := InsertOne(list, history, k, older);
    if IndexOf(list, history[k].id).None? {
      var at := Slot(list, history, k, older);
      SplicePrecedes(list, at, history[k]);
      forall j, l | 0 <= j < l < |history| && Together(history[j], history[l], turns) && history[j] in result && history[l] in result
        ensures Precedes(result, history[j], history[l])
      {
        assert history[j].id != history[l].id;
        if l == k {
          SlotBetween(list, history, turns, k, older, j);
        } else if j == k {
          SlotBetween(list, history, turns, k, older, l);
        }
      }
    }
  }

  lemma {:induction false} InsertFromOrdered(
    list: seq<Message>, history: seq<Message>, turns: set<Option<string>>, k: nat, older: bool)
    requires Aligned(list, history) && GroupedIn(history, turns) && InPageOrder(list, history, turns)
    requires k <= |history| && forall j :: 0 <= j < k ==> history[j] in list
    ensures InPageOrder(InsertFrom(list, history, k, older), history, turns)
    decreases |history| - k
  {
    if k < |history| {
      InsertOneKeeps(list, history, k, older);
      InsertOneOrdered(list, history, turns, k, older);
      InsertFromOrdered(InsertOne(list, history, k, older), history, turns, k + 1, older);
    }
  }

  // ----- The merged list -----

  lemma TurnOrderTotal(collate: Collation)
    requires TotalPreorder(collate)
    ensures TotalPreorder(TurnOrder(collate))
  {
    var le := TurnOrder(collate);
    forall a, b ensures le(a, b) || le(b, a) {
      if HasTurn(a) && HasTurn(b) {
        assert collate(a.turn.value, b.turn.value) || collate(b.turn.value, a.turn.value);
      }
    }
    forall a, b, c | le(a, b) && le(b, c) ensures le(a, c) {
      if HasTurn(a) && HasTurn(b) && HasTurn(c) {
        assert collate(a.turn.value, b.turn.value) && collate(b.turn.value, c.turn.value);
      }
    }
  }

  lemma ReplacedAligned(messages: seq<Message>, items: seq<Message>)
    requires Consistent(messages, items)
    ensures Aligned(Replaced(messages, Blended(messages, items)), Blended(messages, items))
  {
    ReplacedIds(messages, items);
    var history := Blended(messages, items);
    var images := Replaced(messages, history);
    forall i: nat, k: nat | i < |images| && k < |history| && images[i].id == history[k].id ensures images[i] == history[k] {
      BlendedAt(messages, items, k);
      ReplacedAt(messages, items, i);
    }
  }

  lemma SortDistinct(s: seq<Message>, le: (Message, Message) -> bool)
    requires TotalPreorder(le) && DistinctIds(s)
    ensures DistinctIds(Sort(s, le))
  {
    SortSorts(s, le);
    var sorted := Sort(s, le);
    forall i, j | 0 <= i < j < |sorted| ensures sorted[i].id != sorted[j].id {
      if sorted[i].id == sorted[j].id {
        DuplicateCounts(sorted, i, j);
        IdsOnce(s, sorted[i], sorted[j]);
      }
    }
  }

  lemma DuplicateCounts(s: seq<Message>, i: nat, j: nat)
    requires i < j < |s|
    ensures s[i] in multiset(s) && s[j] in multiset(s)
    ensures s[i] == s[j] ==> multiset(s)[s[i]] >= 2
  {
    assert s == s[..i] + [s[i]] + s[i + 1..j] + [s[j]] + s[j + 1..];
  }

  lemma IdsOnce(s: seq<Message>, x: Message, y: Message)
    requires DistinctIds(s) && x in s && y in s && x.id == y.id
    ensures x == y && multiset(s)[x] == 1
  {
    var i :| 0 <= i < |s| && s[i] == x;
    assert s == s[..i] + [x] + s[i + 1..];
    assert x !in s[..i] && x !in s[i + 1..];
  }

  /** Every old message and every page item is in the result exactly once, the two
      that are the same as one; the result is sorted by turn, turnless last. */
  lemma MergeIsCompleteAndSorted(messages: seq<Message>, items: seq<Message>, older: bool, collate: Collation)
    requires Consistent(messages, items) && TotalPreorder(collate)
    ensures var merged := Merged(messages, items, older, collate);
            && DistinctIds(merged)
            && Sorted(merged, TurnOrder(collate))
            && (forall x :: x in merged <==>
                  x in Replaced(messages, Blended(messages, items)) || x in Blended(messages, items))
  {
    TurnOrderTotal(collate);
    ReplacedAligned(messages, items);
    var history := Blended(messages, items);
    var list := Replaced(messages, history);
    InsertFromKeeps(list, history, 0, older);
    assert history[0..] == history;
    var inserted := InsertFrom(list, history, 0, older);
    SortSorts(inserted, TurnOrder(collate));
    SortMembers(inserted, TurnOrder(collate));
    SortDistinct(inserted, TurnOrder(collate));
  }

  /** The image of an old message: the same page item, or itself when the page has none. */
  lemma ImageOfOldMessage(messages: seq<Message>, items: seq<Message>, i: nat)
    requires Consistent(messages, items) && i < |messages|
    ensures var image := Replaced(messages, Blended(messages, items))[i];
            && (forall k :: 0 <= k < |items| && Same(messages[i], items[k]) ==>
                  image == Blend(messages[i], items[k]) && image.id == items[k].id)
            && ((forall k :: 0 <= k < |items| ==> !Same(messages[i], items[k])) ==> image == messages[i])
  {
    ReplacedAt(messages, items, i);
    forall k: nat | k < |items| && Same(messages[i], items[k])
      ensures Replaced(messages, Blended(messages, items))[i] == Blend(messages[i], items[k])
    {
      BlendedAt(messages, items, k);
    }
  }

  /** The order of turns does not tell these two apart. */
  predicate SameRank(a: Option<string>, b: Option<string>, collate: Collation) {
    if a.Some? && a.value != "" && b.Some? && b.value != "" then collate(a.value, b.value) && collate(b.value, a.value)
    else (a.Some? && a.value != "") == (b.Some? && b.value != "")
  }

  lemma SameTurnSameRank(turn: Option<string>, collate: Collation)
    requires TotalPreorder(collate)
    ensures SameRank(turn, turn, collate)
  {
    if turn.Some? {
      var id := turn.value;
      assert collate(id, id);
    }
  }

  /** Two messages of the same rank keep their order when the list is sorted. */
  lemma RankedKeepOrder(list: seq<Message>, collate: Collation, x: Message, y: Message)
    requires TotalPreorder(collate) && Precedes(list, x, y) && SameRank(x.turn, y.turn, collate)
    ensures Precedes(Sort(list, TurnOrder(collate)), x, y)
  {
    TurnOrderTotal(collate);
    var le := TurnOrder(collate);
    assert HasTurn(x) == HasTurn(y);
    if HasTurn(x) {
      assert collate(x.turn.value, y.turn.value) && collate(y.turn.value, x.turn.value);
    }
    SortKeepsOrder(list, le, x, y);
  }

  lemma ImagesKeepOrder(messages: seq<Message>, items: seq<Message>, older: bool, i: nat, j: nat)
    requires Consistent(messages, items) && i < j < |messages|
    ensures var history := Blended(messages, items);
            var images := Replaced(messages, history);
            Precedes(InsertFrom(images, history, 0, older), images[i], images[j])
  {
    ReplacedAligned(messages, items);
    var images := Replaced(messages, Blended(messages, items));
    InsertFromKeeps(images, Blended(messages, items), 0, older);
    assert Precedes(images, images[i], images[j]);
  }

  /** Old messages keep their order as far as the turns they come out with allow. */
  lemma MergeKeepsOldOrder(messages: seq<Message>, items: seq<Message>, older: bool, collate: Collation, i: nat, j: nat)
    requires Consistent(messages, items) && TotalPreorder(collate) && i < j < |messages|
    requires var images := Replaced(messages, Blended(messages, items));
             SameRank(images[i].turn, images[j].turn, collate)
    ensures var images := Replaced(messages, Blended(messages, items));
            Precedes(Merged(messages, items, older, collate), images[i], images[j])
  {
    var history := Blended(messages, items);
    var images := Replaced(messages, history);
    ImagesKeepOrder(messages, items, older, i, j);
    RankedKeepOrder(InsertFrom(images, history, 0, older), collate, images[i], images[j]);
  }

  // ----- Page order in the merged list -----

  /** The messages that are also on the page stand in page order, turn by turn. */
  predicate OverlapInOrder(messages: seq<Message>, items: seq<Message>) {
    forall i, j, k, l ::
      (0 <= i < |messages| && 0 <= j < |messages| && 0 <= k < l < |items| &&
       Same(messages[i], items[k]) && Same(messages[j], items[l]) && items[k].turn == items[l].turn) ==> i < j
  }

  function TurnsOf(items: seq<Message>): set<Option<string>> {
    set m | m in items :: m.turn
  }

  /** The item comes out with another turn than the page gives it: it neither
      completes nor extends a live message that has another turn, or none. */
  predicate Lags(messages: seq<Message>, items: seq<Message>, k: nat)
    requires k < |items|
  {
    exists i :: 0 <= i < |messages| && Same(messages[i], items[k]) &&
      !Overrides(items[k], messages[i]) && messages[i].turn != items[k].turn
  }

  lemma LagsMeans(messages: seq<Message>, items: seq<Message>, k: nat)
    requires Consistent(messages, items) && k < |items|
    ensures Lags(messages, items, k) <==> Blended(messages, items)[k].turn != items[k].turn
  {
    BlendedAt(messages, items, k);
    if !Lags(messages, items, k) {
      if i :| 0 <= i < |messages| && Same(messages[i], items[k]) {
        assert Blended(messages, items)[k] == Blend(messages[i], items[k]);
      }
    }
  }

  /** Matched items are in the updated list as far as it is in page order, whatever
      turns they come out with. */
  lemma MatchedInOrder(messages: seq<Message>, items: seq<Message>, k: nat, l: nat)
    requires Consistent(messages, items) && OverlapInOrder(messages, items)
    requires k < l < |items| && items[k].turn == items[l].turn
    ensures var history := Blended(messages, items);
            var images := Replaced(messages, history);
            history[k] in images && history[l] in images ==> Precedes(images, history[k], history[l])
  {
    ReplacedIds(messages, items);
    var history := Blended(messages, items);
    var images := Replaced(messages, history);
    BlendedAt(messages, items, k);
    BlendedAt(messages, items, l);
    if history[k] in images && history[l] in images {
      var i :| 0 <= i < |images| && images[i] == history[k];
      var j :| 0 <= j < |images| && images[j] == history[l];
      assert Same(messages[i], items[k]) && Same(messages[j], items[l]);
    }
  }

  /** No item comes out with the turn of another part of the page. */
  predicate Foreign(messages: seq<Message>, items: seq<Message>) {
    forall k, l :: 0 <= k < |items| && 0 <= l < |items| && Lags(messages, items, k) ==>
      Blended(messages, items)[k].turn != items[l].turn
  }

  /** An item that comes out with a turn of the page has it from the page. */
  lemma PageTurnKept(messages: seq<Message>, items: seq<Message>, k: nat)
    requires Consistent(messages, items) && Foreign(messages, items) && k < |items|
    ensures Blended(messages, items)[k].turn in TurnsOf(items) <==> !Lags(messages, items, k)
    ensures !Lags(messages, items, k) ==> Blended(messages, items)[k].turn == items[k].turn
  {
    LagsMeans(messages, items, k);
    assert items[k] in items;
    if Blended(messages, items)[k].turn in TurnsOf(items) {
      var m :| m in items && m.turn == Blended(messages, items)[k].turn;
      var l :| 0 <= l < |items| && items[l] == m;
    }
  }

  lemma ReplacedInOrder(messages: seq<Message>, items: seq<Message>)
    requires Consistent(messages, items) && OverlapInOrder(messages, items) && Foreign(messages, items)
    ensures InPageOrder(Replaced(messages, Blended(messages, items)), Blended(messages, items), TurnsOf(items))
  {
    var history := Blended(messages, items);
    var images := Replaced(messages, history);
    forall k: nat, l: nat | k < l < |history| && Together(history[k], history[l], TurnsOf(items)) && history[k] in images && history[l] in images
      ensures Precedes(images, history[k], history[l])
    {
      PageTurnKept(messages, items, k);
      PageTurnKept(messages, items, l);
      MatchedInOrder(messages, items, k, l);
    }
  }

  /** The page stays grouped: no item that comes out with another turn stands
      between two that keep theirs. */
  predicate StaysGrouped(messages: seq<Message>, items: seq<Message>) {
    GroupedIn(Blended(messages, items), TurnsOf(items))
  }

  lemma InsertedInPageOrder(messages: seq<Message>, items: seq<Message>, older: bool)
    requires Consistent(messages, items) && OverlapInOrder(messages, items)
    requires Foreign(messages, items) && StaysGrouped(messages, items)
    ensures var history := Blended(messages, items);
            var inserted := InsertFrom(Replaced(messages, history), history, 0, older);
            InPageOrder(inserted, history, TurnsOf(items)) && forall k :: 0 <= k < |history| ==> history[k] in inserted
  {
    ReplacedAligned(messages, items);
    ReplacedInOrder(messages, items);
    var history := Blended(messages, items);
    var list := Replaced(messages, history);
    InsertFromKeeps(list, history, 0, older);
    assert history[0..] == history;
    InsertFromOrdered(list, history, TurnsOf(items), 0, older);
  }

  /** Two items of a turn that both keep it come out in page order. */
  lemma KeptPairInOrder(messages: seq<Message>, items: seq<Message>, older: bool, collate: Collation, k: nat, l: nat)
    requires Consistent(messages, items) && TotalPreorder(collate) && OverlapInOrder(messages, items)
    requires Foreign(messages, items) && StaysGrouped(messages, items)
    requires k < l < |items| && items[k].turn == items[l].turn
    requires !Lags(messages, items, k) && !Lags(messages, items, l)
    ensures Precedes(Merged(messages, items, older, collate), Blended(messages, items)[k], Blended(messages, items)[l])
  {
    InsertedInPageOrder(messages, items, older);
    PageTurnKept(messages, items, k);
    PageTurnKept(messages, items, l);
    var history := Blended(messages, items);
    assert Together(history[k], history[l], TurnsOf(items));
    SameTurnSameRank(history[k].turn, collate);
    RankedKeepOrder(InsertFrom(Replaced(messages, history), history, 0, older), collate, history[k], history[l]);
  }

  /** Every matched item completes its live message, extends it, or has its turn. */
  predicate KeepsTurns(messages: seq<Message>, items: seq<Message>) {
    forall k :: 0 <= k < |items| ==> !Lags(messages, items, k)
  }

  lemma KeptTurnsStayGrouped(messages: seq<Message>, items: seq<Message>)
    requires Consistent(messages, items) && Grouped(items) && KeepsTurns(messages, items)
    ensures Foreign(messages, items) && StaysGrouped(messages, items)
  {
    forall k: nat | k < |items| ensures Blended(messages, items)[k].turn == items[k].turn {
      LagsMeans(messages, items, k);
    }
  }

  /** If the overlap was in page order, all items of a turn come out in page order,
      old and new ones together, when every item keeps its turn. */
  lemma MergeKeepsPageOrder(messages: seq<Message>, items: seq<Message>, older: bool, collate: Collation, k: nat, l: nat)
    requires Consistent(messages, items) && TotalPreorder(collate)
    requires Grouped(items) && OverlapInOrder(messages, items) && KeepsTurns(messages, items)
    requires k < l < |items| && items[k].turn == items[l].turn
    ensures Precedes(Merged(messages, items, older, collate), Blended(messages, items)[k], Blended(messages, items)[l])
  {
    KeptTurnsStayGrouped(messages, items);
    KeptPairInOrder(messages, items, older, collate, k, l);
  }

  // ----- Pages are grouped -----

  lemma {:induction false} ShownTurn(turn: Turn, k: nat, first: bool)
    requires k <= |turn.items|
    ensures forall i :: 0 <= i < |ShownFrom(turn, k, first)| ==> ShownFrom(turn, k, first)[i].turn == Some(turn.id)
    decreases |turn.items| - k
  {
    if k < |turn.items| {
      ShownTurn(turn, k + 1, first && !ByUser(turn.items[k]));
    }
  }

  predicate DistinctTurns(turns: seq<Turn>) {
    forall i, j :: 0 <= i < j < |turns| ==> turns[i].id != turns[j].id
  }

  lemma {:induction false} FlattenGrouped(turns: seq<Turn>)
    requires DistinctTurns(turns)
    ensures Grouped(Flatten(turns))
    ensures forall i :: 0 <= i < |Flatten(turns)| ==> exists t :: t in turns && Flatten(turns)[i].turn == Some(t.id)
  {
    if turns != [] {
      FlattenGrouped(turns[1..]);
      ShownTurn(turns[0], 0, true);
      var first, rest := Shown(turns[0]), Flatten(turns[1..]);
      var all := first + rest;
      assert forall i :: |first| <= i < |all| ==> all[i] == rest[i - |first|];
      forall i | |first| <= i < |all| ensures all[i].turn != Some(turns[0].id) {
        var t :| t in turns[1..] && rest[i - |first|].turn == Some(t.id);
      }
      forall i | 0 <= i < |all| ensures exists t :: t in turns && all[i].turn == Some(t.id) {
        if i < |first| {
          assert turns[0] in turns;
        } else {
          var t :| t in turns[1..] && rest[i - |first|].turn == Some(t.id);
          assert t in turns;
        }
      }
    }
  }

  lemma SortedTurnsDistinct(turns: seq<Turn>, le: (Turn, Turn) -> bool)
    requires DistinctTurns(turns) && TotalPreorder(le)
    ensures DistinctTurns(Sort(turns, le))
  {
    SortSorts(turns, le);
    var sorted := Sort(turns, le);
    forall i, j | 0 <= i < j < |sorted| ensures sorted[i].id != sorted[j].id {
      if sorted[i].id == sorted[j].id {
        assert sorted == sorted[..i] + [sorted[i]] + sorted[i + 1..j] + [sorted[j]] + sorted[j + 1..];
        assert sorted[i] in multiset(turns) && sorted[j] in multiset(turns);
        TurnOnce(turns, sorted[i], sorted[j]);
      }
    }
  }

  lemma TurnOnce(turns: seq<Turn>, x: Turn, y: Turn)
    requires DistinctTurns(turns) && x in turns && y in turns && x.id == y.id
    ensures x == y && multiset(turns)[x] == 1
  {
    var i :| 0 <= i < |turns| && turns[i] == x;
    assert turns == turns[..i] + [x] + turns[i + 1..];
    assert x !in turns[..i] && x !in turns[i + 1..];
  }

  /** What a page delivers stands together turn by turn. */
  lemma PageItemsGrouped(turns: seq<Turn>, collate: Collation)
    requires DistinctTurns(turns) && TotalPreorder(collate)
    ensures Grouped(PageItems(turns, collate))
  {
    var le := (a: Turn, b: Turn) => collate(a.id, b.id);
    assert TotalPreorder(le) by {
      forall a, b ensures le(a, b) || le(b, a) {
        assert collate(a.id, b.id) || collate(b.id, a.id);
      }
      forall a, b, c | le(a, b) && le(b, c) ensures le(a, c) {
        assert collate(a.id, b.id) && collate(b.id, c.id);
      }
    }
    SortedTurnsDistinct(turns, le);
    FlattenGrouped(Sort(turns, le));
  }
}
