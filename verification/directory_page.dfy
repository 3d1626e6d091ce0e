/** Listing a directory page by page while holding only one page of names. */
module DirectoryPage {
  import opened Wrappers

  const PAGE: nat := 100

  type Name = string

  /** An entry as the directory enumerates it: no name when it is not UTF-8;
      `internal` marks a transfer's staging directory. */
  datatype Entry = Entry(name: Option<Name>, internal: bool)

  datatype Listing = Page(names: seq<Name>, after: Option<Name>) | BadName

  /** The order of names, byte by byte, is a parameter. */
  type Order = (Name, Name) -> bool

  ghost predicate StrictTotal(lt: Order) {
    && (forall a :: !lt(a, a))
    && (forall a, b :: lt(a, b) || lt(b, a) || a == b)
    && (forall a, b, c :: lt(a, b) && lt(b, c) ==> lt(a, c))
  }

  predicate Eligible(entry: Entry, after: Option<Name>, lt: Order) {
    entry.name.Some? && !entry.internal && (after.Some? ==> lt(after.value, entry.name.value))
  }

  predicate Readable(dir: seq<Entry>) {
    forall e :: e in dir ==> e.name.Some?
  }

  // ----- All eligible names in order -----

  function Insert(x: Name, names: seq<Name>, lt: Order): seq<Name> {
    if names == [] then [x]
    else if lt(x, names[0]) then [x] + names
    else if x == names[0] then names
    else [names[0]] + Insert(x, names[1..], lt)
  }

  function Names(dir: seq<Entry>, after: Option<Name>, lt: Order): seq<Name> {
    if dir == [] then []
    else
      var n := |dir| - 1;
      var names := Names(dir[..n], after, lt);
      if Eligible(dir[n], after, lt) then Insert(dir[n].name.value, names, lt) else names
  }

  predicate Ascending(names: seq<Name>, lt: Order) {
    forall i, j :: 0 <= i < j < |names| ==> lt(names[i], names[j])
  }

  lemma {:induction false} InsertAscends(x: Name, names: seq<Name>, lt: Order)
    requires StrictTotal(lt) && Ascending(names, lt)
    ensures Ascending(Insert(x, names, lt), lt)
    ensures forall y :: y in Insert(x, names, lt) <==> y == x || y in names
  {
    if names != [] && !lt(x, names[0]) && x != names[0] {
      var rest := Insert(x, names[1..], lt);
      InsertAscends(x, names[1..], lt);
      assert names == [names[0]] + names[1..];
      forall j | 0 <= j < |rest| ensures lt(names[0], rest[j]) {
        assert rest[j] in rest;
      }
    }
  }

  /** `Names` are the eligible names, each once, in ascending order. */
  lemma {:induction false} NamesOf(dir: seq<Entry>, after: Option<Name>, lt: Order)
    requires StrictTotal(lt)
    ensures Ascending(Names(dir, after, lt), lt)
    ensures forall x :: x in Names(dir, after, lt) <==>
              exists e :: e in dir && e.name == Some(x) && !e.internal && (after.Some? ==> lt(after.value, x))
  {
    if dir != [] {
      var n := |dir| - 1;
      NamesOf(dir[..n], after, lt);
      assert dir == dir[..n] + [dir[n]];
      if Eligible(dir[n], after, lt) {
        InsertAscends(dir[n].name.value, Names(dir[..n], after, lt), lt);
      }
    }
  }

  /** Only one ascending sequence has given elements. */
  lemma {:induction false} AscendingUnique(a: seq<Name>, b: seq<Name>, lt: Order)
    requires StrictTotal(lt) && Ascending(a, lt) && Ascending(b, lt)
    requires forall x :: x in a <==> x in b
    ensures a == b
  {
    if a == [] {
      assert forall x :: x in multiset(b) ==> x in a;
      assert multiset(b) == multiset{};
      assert |b| == |multiset(b)|;
    } else {
      assert a[0] in b && b[0] in a;
      var i :| 0 <= i < |b| && b[i] == a[0];
      var j :| 0 <= j < |a| && a[j] == b[0];
      assert a[0] == b[0];
      forall x ensures x in a[1..] <==> x in b[1..] {
        TailMember(a, x, lt);
        TailMember(b, x, lt);
      }
      AscendingUnique(a[1..], b[1..], lt);
    }
  }

  lemma TailMember(a: seq<Name>, x: Name, lt: Order)
    requires StrictTotal(lt) && Ascending(a, lt) && a != []
    ensures x in a[1..] <==> x in a && x != a[0]
  {
    assert a == [a[0]] + a[1..];
    assert forall j :: 0 <= j < |a[1..]| ==> lt(a[0], a[1..][j]);
  }

  ghost predicate SameEntries(a: seq<Entry>, b: seq<Entry>) {
    forall e :: e in a <==> e in b
  }

  /** The order of enumeration does not matter. */
  lemma OrderIrrelevant(a: seq<Entry>, b: seq<Entry>, after: Option<Name>, lt: Order)
    requires StrictTotal(lt) && SameEntries(a, b)
    ensures Names(a, after, lt) == Names(b, after, lt)
  {
    NamesOf(a, after, lt);
    NamesOf(b, after, lt);
    AscendingUnique(Names(a, after, lt), Names(b, after, lt), lt);
  }

  // ----- The bounded page -----

  function Take(names: seq<Name>, n: nat): seq<Name> {
    if |names| <= n then names else names[..n]
  }

  /** Dropping what is past the bound before an insertion or after it comes to the same. */
  lemma {:induction false} TakeInsert(x: Name, names: seq<Name>, n: nat, lt: Order)
    ensures Take(Insert(x, Take(names, n), lt), n) == Take(Insert(x, names, lt), n)
    decreases n
  {
    if n > 0 && names != [] && !lt(x, names[0]) && x != names[0] {
      TakeInsert(x, names[1..], n - 1, lt);
      assert Take(names, n)[1..] == Take(names[1..], n - 1);
      TakeCons(names[0], Insert(x, names[1..], lt), n);
      TakeCons(names[0], Insert(x, Take(names[1..], n - 1), lt), n);
    }
  }

  lemma TakeCons(x: Name, names: seq<Name>, n: nat)
    requires n > 0
    ensures Take([x] + names, n) == [x] + Take(names, n - 1)
  {}

  lemma {:induction false} InsertGrows(x: Name, names: seq<Name>, lt: Order)
    ensures |names| <= |Insert(x, names, lt)| <= |names| + 1
  {
    if names != [] {
      InsertGrows(x, names[1..], lt);
    }
  }

  /** What a page of this directory shows. */
  function Expected(dir: seq<Entry>, after: Option<Name>, lt: Order): Listing {
    if !Readable(dir) then BadName
    else
      var names := Names(dir, after, lt);
      Page(Take(names, PAGE), if |names| > PAGE then Some(names[PAGE - 1]) else None)
  }

  /** Names are kept in an ordered set that never holds more than two past a page. */
  type Held = names: seq<Name> | |names| <= PAGE + 2 witness []

  method List(dir: seq<Entry>, after: Option<Name>, lt: Order) returns (listing: Listing)
    ensures listing == Expected(dir, after, lt)
    ensures listing.BadName? <==> exists e :: e in dir && e.name.None?
    ensures listing.Page? ==>
              && listing.names <= Names(dir, after, lt)
              && (listing.after.None? ==> listing.names == Names(dir, after, lt) && |listing.names| <= PAGE)
              && (listing.after.Some? ==>
                    |listing.names| == PAGE < |Names(dir, after, lt)| && listing.after.value == listing.names[PAGE - 1])
  {
    var names: Held := [];
    for i := 0 to |dir|
      invariant Readable(dir[..i])
      invariant names == Take(Names(dir[..i], after, lt), PAGE + 1)
    {
      assert dir[..i + 1] == dir[..i] + [dir[i]] && dir[..i + 1][..i] == dir[..i];
      if dir[i].name.None? {
        assert dir[i] in dir;
        return BadName;
      }
      if Eligible(dir[i], after, lt) {
        InsertGrows(dir[i].name.value, names, lt);
        TakeInsert(dir[i].name.value, Names(dir[..i], after, lt), PAGE + 1, lt);
        names := Insert(dir[i].name.value, names, lt);
        if |names| > PAGE + 1 {
          names := names[..|names| - 1];
        }
      }
    }
    assert dir[..|dir|] == dir;
    var more := |names| > PAGE;
    if more {
      names := names[..|names| - 1];
    }
    listing := Page(names, if more then Some(names[|names| - 1]) else None);
  }

  // ----- All pages -----

  lemma NextMember(dir: seq<Entry>, after: Option<Name>, name: Name, x: Name, lt: Order)
    requires StrictTotal(lt) && name in Names(dir, after, lt)
    ensures x in Names(dir, Some(name), lt) <==> x in Names(dir, after, lt) && lt(name, x)
  {
    NamesOf(dir, after, lt);
    NamesOf(dir, Some(name), lt);
    forall e | e in dir && e.name == Some(x) ensures Eligible(e, Some(name), lt) <==> Eligible(e, after, lt) && lt(name, x) {}
  }

  lemma BehindMember(names: seq<Name>, at: nat, x: Name, lt: Order)
    requires StrictTotal(lt) && Ascending(names, lt) && at < |names|
    ensures x in names[at + 1..] <==> x in names && lt(names[at], x)
  {
    if x in names[at + 1..] {
      var j :| 0 <= j < |names[at + 1..]| && names[at + 1..][j] == x;
      assert names[at + 1 + j] == x;
    }
    if x in names && lt(names[at], x) {
      var j :| 0 <= j < |names| && names[j] == x;
      assert j > at;
      assert names[at + 1..][j - at - 1] == x;
    }
  }

  /** Behind a name of the listing comes the rest of the listing. */
  lemma NamesAfter(dir: seq<Entry>, after: Option<Name>, at: nat, lt: Order)
    requires StrictTotal(lt) && at < |Names(dir, after, lt)|
    ensures Names(dir, Some(Names(dir, after, lt)[at]), lt) == Names(dir, after, lt)[at + 1..]
  {
    var names := Names(dir, after, lt);
    NamesOf(dir, after, lt);
    NamesOf(dir, Some(names[at]), lt);
    forall x ensures x in Names(dir, Some(names[at]), lt) <==> x in names[at + 1..] {
      NextMember(dir, after, names[at], x, lt);
      BehindMember(names, at, x, lt);
    }
    AscendingUnique(Names(dir, Some(names[at]), lt), names[at + 1..], lt);
  }

  /** A directory that does not change, though each call may enumerate it differently. */
  ghost predicate Unchanged(enumerate: nat -> seq<Entry>) {
    forall i, j :: SameEntries(enumerate(i), enumerate(j))
  }

  /** All names a client sees that follows `after` from call to call until there is none. */
  ghost function Follow(enumerate: nat -> seq<Entry>, call: nat, after: Option<Name>, lt: Order): seq<Name>
    requires StrictTotal(lt) && Unchanged(enumerate) && Readable(enumerate(call))
    decreases |Names(enumerate(call), after, lt)|
  {
    var page := Expected(enumerate(call), after, lt);
    if page.after.None? then page.names
    else
      assert SameEntries(enumerate(call), enumerate(call + 1));
      OrderIrrelevant(enumerate(call), enumerate(call + 1), page.after, lt);
      NamesAfter(enumerate(call), after, PAGE - 1, lt);
      page.names + Follow(enumerate, call + 1, page.after, lt)
  }

  /** It sees every eligible name exactly once, in ascending order. */
  lemma {:induction false} FollowSeesAll(enumerate: nat -> seq<Entry>, call: nat, after: Option<Name>, lt: Order)
    requires StrictTotal(lt) && Unchanged(enumerate) && Readable(enumerate(call))
    ensures var names := Follow(enumerate, call, after, lt);
            && Ascending(names, lt)
            && forall x :: x in names <==>
                 exists e :: e in enumerate(call) && e.name == Some(x) && !e.internal && (after.Some? ==> lt(after.value, x))
  {
    FollowIsNames(enumerate, call, after, lt);
    NamesOf(enumerate(call), after, lt);
  }

  lemma {:induction false} FollowIsNames(enumerate: nat -> seq<Entry>, call: nat, after: Option<Name>, lt: Order)
    requires StrictTotal(lt) && Unchanged(enumerate) && Readable(enumerate(call))
    ensures Follow(enumerate, call, after, lt) == Names(enumerate(call), after, lt)
    decreases |Names(enumerate(call), after, lt)|
  {
    var names := Names(enumerate(call), after, lt);
    if |names| > PAGE {
      assert SameEntries(enumerate(call), enumerate(call + 1));
      OrderIrrelevant(enumerate(call), enumerate(call + 1), Some(names[PAGE - 1]), lt);
      NamesAfter(enumerate(call), after, PAGE - 1, lt);
      FollowIsNames(enumerate, call + 1, Some(names[PAGE - 1]), lt);
    }
  }
}
