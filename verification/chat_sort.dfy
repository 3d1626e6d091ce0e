/** Stable sorting by a total preorder, as the language's own sort promises it. */
module StableSorting {

  /** `le` compares like a library comparison function does. */
  ghost predicate TotalPreorder<T(!new)>(le: (T, T) -> bool) {
    && (forall a, b :: le(a, b) || le(b, a))
    && (forall a, b, c :: le(a, b) && le(b, c) ==> le(a, c))
  }

  function Insert<T>(x: T, sorted: seq<T>, le: (T, T) -> bool): seq<T> {
    if sorted == [] then [x]
    else if le(x, sorted[0]) then [x] + sorted
    else [sorted[0]] + Insert(x, sorted[1..], le)
  }

  function Sort<T>(s: seq<T>, le: (T, T) -> bool): seq<T> {
    if s == [] then [] else Insert(s[0], Sort(s[1..], le), le)
  }

  predicate Sorted<T>(s: seq<T>, le: (T, T) -> bool) {
    forall i, j :: 0 <= i < j < |s| ==> le(s[i], s[j])
  }

  function Filter<T>(s: seq<T>, p: T -> bool): seq<T> {
    if s == [] then [] else (if p(s[0]) then [s[0]] else []) + Filter(s[1..], p)
  }

  /** `x` stands somewhere before `y`. */
  ghost predicate Precedes<T(!new)>(s: seq<T>, x: T, y: T) {
    exists i, j :: 0 <= i < j < |s| && s[i] == x && s[j] == y
  }

  lemma {:induction false} InsertMultiset<T>(x: T, s: seq<T>, le: (T, T) -> bool)
    ensures multiset(Insert(x, s, le)) == multiset{x} + multiset(s)
  {
    if s != [] {
      assert s == [s[0]] + s[1..];
      if !le(x, s[0]) {
        InsertMultiset(x, s[1..], le);
      }
    }
  }

  lemma {:induction false} InsertMembers<T>(x: T, s: seq<T>, le: (T, T) -> bool)
    ensures forall y :: y in Insert(x, s, le) <==> y == x || y in s
  {
    if s != [] && !le(x, s[0]) {
      InsertMembers(x, s[1..], le);
    }
  }

  lemma {:induction false} InsertSorts<T(!new)>(x: T, s: seq<T>, le: (T, T) -> bool)
    requires TotalPreorder(le) && Sorted(s, le)
    ensures Sorted(Insert(x, s, le), le)
  {
    if s != [] {
      var rest := Insert(x, s[1..], le);
      if le(x, s[0]) {
        SortedCons(x, s, le);
      } else {
        InsertSorts(x, s[1..], le);
        InsertMembers(x, s[1..], le);
        SortedCons(s[0], rest, le);
      }
    }
  }

  lemma SortedCons<T(!new)>(x: T, s: seq<T>, le: (T, T) -> bool)
    requires TotalPreorder(le) && Sorted(s, le)
    requires forall y :: y in s ==> le(x, y) || (s != [] && le(x, s[0]))
    ensures Sorted([x] + s, le)
  {
    var all := [x] + s;
    forall j | 0 <= j < |s| ensures le(x, s[j]) {
      assert s[j] in s;
      assert j > 0 ==> le(s[0], s[j]);
    }
    assert forall j :: 0 < j < |all| ==> all[j] == s[j - 1];
  }

  lemma {:induction false} SortSorts<T(!new)>(s: seq<T>, le: (T, T) -> bool)
    requires TotalPreorder(le)
    ensures Sorted(Sort(s, le), le)
    ensures multiset(Sort(s, le)) == multiset(s)
  {
    if s != [] {
      SortSorts(s[1..], le);
      InsertSorts(s[0], Sort(s[1..], le), le);
      InsertMultiset(s[0], Sort(s[1..], le), le);
      assert s == [s[0]] + s[1..];
    }
  }

  lemma {:induction false} SortMembers<T>(s: seq<T>, le: (T, T) -> bool)
    ensures forall x :: x in Sort(s, le) <==> x in s
  {
    if s != [] {
      SortMembers(s[1..], le);
      InsertMembers(s[0], Sort(s[1..], le), le);
    }
  }

  lemma {:induction false} SortLength<T>(s: seq<T>, le: (T, T) -> bool)
    ensures |Sort(s, le)| == |s|
  {
    if s != [] {
      SortLength(s[1..], le);
      InsertMultiset(s[0], Sort(s[1..], le), le);
      assert |Insert(s[0], Sort(s[1..], le), le)| == |multiset(Insert(s[0], Sort(s[1..], le), le))|;
    }
  }

  lemma {:induction false} InsertStable<T(!new)>(x: T, s: seq<T>, le: (T, T) -> bool, p: T -> bool)
    requires TotalPreorder(le)
    requires forall a, b :: p(a) && p(b) ==> le(a, b)
    ensures Filter(Insert(x, s, le), p) == (if p(x) then [x] else []) + Filter(s, p)
  {
    if s == [] {
      assert Filter([x], p) == (if p(x) then [x] else []) + Filter([], p);
    } else if le(x, s[0]) {
      assert ([x] + s)[1..] == s;
    } else {
      InsertStable(x, s[1..], le, p);
      assert ([s[0]] + Insert(x, s[1..], le))[1..] == Insert(x, s[1..], le);
    }
  }

  /** Elements that compare as equal keep their order. */
  lemma {:induction false} SortStable<T(!new)>(s: seq<T>, le: (T, T) -> bool, p: T -> bool)
    requires TotalPreorder(le)
    requires forall a, b :: p(a) && p(b) ==> le(a, b)
    ensures Filter(Sort(s, le), p) == Filter(s, p)
  {
    if s != [] {
      SortStable(s[1..], le, p);
      InsertStable(s[0], Sort(s[1..], le), le, p);
    }
  }

  lemma {:induction false} FilterMembers<T(!new)>(s: seq<T>, p: T -> bool)
    ensures forall x :: x in Filter(s, p) <==> x in s && p(x)
  {
    if s != [] {
      FilterMembers(s[1..], p);
    }
  }

  /** A filter keeps the order of what it keeps, and shows no other order. */
  lemma {:induction false} FilterPrecedes<T(!new)>(s: seq<T>, p: T -> bool, x: T, y: T)
    requires p(x) && p(y)
    ensures Precedes(Filter(s, p), x, y) <==> Precedes(s, x, y)
  {
    if s != [] {
      FilterPrecedes(s[1..], p, x, y);
      FilterMembers(s[1..], p);
      PrecedesCons(s[0], s[1..], x, y);
      assert s == [s[0]] + s[1..];
      if p(s[0]) {
        PrecedesCons(s[0], Filter(s[1..], p), x, y);
      } else {
        assert Filter(s, p) == Filter(s[1..], p);
      }
    }
  }

  lemma PrecedesCons<T(!new)>(first: T, rest: seq<T>, x: T, y: T)
    ensures Precedes([first] + rest, x, y) <==> (first == x && y in rest) || Precedes(rest, x, y)
  {
    var s := [first] + rest;
    if Precedes(s, x, y) {
      var i, j :| 0 <= i < j < |s| && s[i] == x && s[j] == y;
      assert rest[j - 1] == y;
      if i > 0 {
        assert rest[i - 1] == x;
      }
    }
    if first == x && y in rest {
      var j :| 0 <= j < |rest| && rest[j] == y;
      assert s[0] == x && s[j + 1] == y;
    }
    if Precedes(rest, x, y) {
      var i, j :| 0 <= i < j < |rest| && rest[i] == x && rest[j] == y;
      assert s[i + 1] == x && s[j + 1] == y;
    }
  }

  /** So sorting keeps the order of two elements that compare as equal. */
  lemma SortKeepsOrder<T(!new)>(s: seq<T>, le: (T, T) -> bool, x: T, y: T)
    requires TotalPreorder(le)
    requires le(x, y) && le(y, x)
    ensures Precedes(Sort(s, le), x, y) <==> Precedes(s, x, y)
  {
    var p := (a: T) => le(a, x) && le(x, a);
    SortStable(s, le, p);
    FilterPrecedes(s, p, x, y);
    FilterPrecedes(Sort(s, le), p, x, y);
  }
}
