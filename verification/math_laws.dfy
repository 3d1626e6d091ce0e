/** What the scan and the substitution of formulas mean, character by character. */
module MathLaws {
  import opened Wrappers
  import opened MathDelimiters

  /** Right in front of a place stand exactly so many backslashes. */
  predicate BackslashesBefore(source: string, at: nat, n: nat)
    requires at <= |source|
  {
    n <= at && (forall p :: at - n <= p < at ==> source[p] == '\\') && (n < at ==> source[at - n - 1] != '\\')
  }

  lemma {:induction false} BackslashesAre(source: string, at: nat)
    requires at <= |source|
    ensures BackslashesBefore(source, at, Backslashes(source, at))
  {
    if at > 0 && source[at - 1] == '\\' {
      BackslashesAre(source, at - 1);
    }
  }

  /** A character is escaped if an odd number of backslashes stands in front of it. */
  lemma EscapedMeans(source: string, at: nat, n: nat)
    requires at <= |source| && BackslashesBefore(source, at, n)
    ensures IsEscaped(source, at) <==> n % 2 == 1
  {
    BackslashesAre(source, at);
  }

  predicate Bracket(source: string, at: int, c: char) {
    0 <= at && at + 1 < |source| && source[at] == '\\' && source[at + 1] == c && !IsEscaped(source, at)
  }

  function Closer(c: char): char {
    if c == '[' then ']' else ')'
  }

  lemma DelimitedMeans(source: string, f: Formula)
    requires Delimited(source, f)
    ensures var c := if f.display then '[' else '(';
            && Bracket(source, f.start, c) && Bracket(source, f.end - 2, Closer(c))
            && (forall p :: f.start + 2 <= p < f.end - 2 ==> !Bracket(source, p, Closer(c)))
  {
    var close := Closing(source, f.start);
    assert close == Closer(if f.display then '[' else '(');
    assert Delimits(source, f.end - 2, close);
    forall p | f.start + 2 <= p < f.end - 2 ensures !Bracket(source, p, close) {
      assert !Delimits(source, p, close);
    }
  }

  /** A found formula runs from an opening to the first closing of its kind behind it,
      in brackets for a display and in parentheses otherwise, clear of what is protected. */
  lemma FormulaMeans(source: string, blocks: seq<Formula>, protected: seq<Range>, formulas: seq<Formula>, f: Formula)
    requires Scanned(source, blocks, protected, formulas, |source|) && f in formulas[|blocks|..]
    ensures var c := if f.display then '[' else '(';
            && f.start + 4 <= f.end <= |source|
            && Bracket(source, f.start, c) && Bracket(source, f.end - 2, Closer(c))
            && (forall p :: f.start + 2 <= p < f.end - 2 ==> !Bracket(source, p, Closer(c)))
    ensures forall r :: r in protected ==> f.end <= r.start || r.end <= f.start
    ensures forall b :: b in blocks ==> !(b.start <= f.start < b.end)
  {
    assert Delimited(source, f) && !Overlaps(protected, f.start, f.end) && !Covers(blocks, f.start);
    DelimitedMeans(source, f);
  }

  /** An unescaped opening with a closing is found, unless it is inside a formula or
      the two reach into something protected. */
  lemma ScanMissesNone(
    source: string, blocks: seq<Formula>, protected: seq<Range>, formulas: seq<Formula>, c: char, at: nat, end: nat)
    requires Scanned(source, blocks, protected, formulas, |source|) && (c == '[' || c == '(')
    requires Bracket(source, at, c) && at + 2 <= end && Bracket(source, end, Closer(c))
    requires forall p :: at + 2 <= p < end ==> !Bracket(source, p, Closer(c))
    requires forall r :: r in protected ==> end + 2 <= r.start || r.end <= at
    ensures exists f :: f in formulas && f.start <= at < f.end
  {
    assert Opens(source, at) && Closing(source, at) == Closer(c);
    assert Skipped(source, at, formulas, protected);
    assert Delimits(source, end, Closer(c));
    forall e: nat | FirstDelimiter(source, at + 2, Closing(source, at), Some(e)) ensures e == end {
      assert Bracket(source, e, Closer(c));
      assert end < e ==> !Delimits(source, end, Closer(c));
    }
    assert !Overlaps(protected, at, end + 2);
  }

  /** What is hidden is clear of everything protected; what is not is protected or
      begins inside something hidden. */
  lemma SelectedMeans(formulas: seq<Formula>, protected: seq<Range>, chosen: seq<Formula>, f: Formula)
    requires Selected(formulas, protected, chosen) && f in formulas
    ensures f in chosen ==> forall r :: r in protected ==> f.end <= r.start || r.end <= f.start
    ensures f !in chosen ==>
              || (exists r :: r in protected && f.start < r.end && r.start < f.end)
              || (exists g :: g in chosen && g.start <= f.start < g.end)
  {
    assert Settled(f, protected, chosen);
    if f in chosen {
      assert !Overlaps(protected, f.start, f.end);
    } else if Overlaps(protected, f.start, f.end) {
      var r :| r in protected && f.start < r.end && f.end > r.start;
      assert r.start < f.end;
    }
  }

  /** Text with no backslash before a letter or an opening is left as it is. */
  lemma PlainIsLeft(source: string)
    requires forall p :: 0 <= p < |source| - 1 && source[p] == '\\' ==>
               !(source[p + 1] == '(' || source[p + 1] == '[' || 'a' <= source[p + 1] <= 'z' || 'A' <= source[p + 1] <= 'Z')
    ensures !Commanded(source) && forall p :: !Opens(source, p)
  {}
}
