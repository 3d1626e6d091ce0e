/** Finding formulas between alternate delimiters and hiding them behind placeholders. */
module MathDelimiters {
  import opened Wrappers
  import opened StableSorting

  /** A stretch of the source. */
  datatype Range = Range(start: nat, end: nat)

  datatype Formula = Formula(start: nat, end: nat, display: bool)

  /** What stands for a formula in the text that is parsed again. */
  type Mark = s: string | s != "" witness "$"

  const PLACEHOLDER: Mark := "$$RCMATH$$"

  // ----- Delimiters -----

  /** How many backslashes stand right in front. */
  function Backslashes(source: string, offset: nat): nat
    requires offset <= |source|
  {
    if offset > 0 && source[offset - 1] == '\\' then Backslashes(source, offset - 1) + 1 else 0
  }

  predicate IsEscaped(source: string, offset: nat)
    requires offset <= |source|
  {
    Backslashes(source, offset) % 2 == 1
  }

  method Escaped(source: string, offset: nat) returns (escaped: bool)
    requires offset <= |source|
    ensures escaped == IsEscaped(source, offset)
  {
    var count, at := 0, offset;
    while at > 0 && source[at - 1] == '\\'
      invariant 0 <= at <= offset
      invariant Backslashes(source, offset) == count + Backslashes(source, at)
    {
      at := at - 1;
      count := count + 1;
    }
    escaped := count % 2 == 1;
  }

  predicate DelimiterAt(source: string, at: int, mark: char) {
    0 <= at && at + 1 < |source| && source[at] == '\\' && source[at + 1] == mark
  }

  predicate Opens(source: string, at: int) {
    DelimiterAt(source, at, '(') || DelimiterAt(source, at, '[')
  }

  function Closing(source: string, at: nat): char
    requires Opens(source, at)
  {
    if source[at + 1] == '[' then ']' else ')'
  }

  /** An unescaped delimiter of that kind. */
  predicate Delimits(source: string, at: int, mark: char) {
    DelimiterAt(source, at, mark) && !IsEscaped(source, at)
  }

  /** The first one at or behind a place. */
  ghost predicate FirstDelimiter(source: string, from: nat, mark: char, at: Option<nat>) {
    && (at.Some? ==> from <= at.value && Delimits(source, at.value, mark))
    && forall p :: from <= p < (if at.Some? then at.value else |source|) ==> !Delimits(source, p, mark)
  }

  method IndexOf(source: string, mark: char, from: nat) returns (at: Option<nat>)
    ensures at.Some? ==> from <= at.value && DelimiterAt(source, at.value, mark)
    ensures forall p :: from <= p < (if at.Some? then at.value else |source|) ==> !DelimiterAt(source, p, mark)
  {
    var i := from;
    while i + 1 < |source|
      invariant from <= i
      invariant forall p :: from <= p < i ==> !DelimiterAt(source, p, mark)
    {
      if source[i] == '\\' && source[i + 1] == mark {
        return Some(i);
      }
      i := i + 1;
    }
    at := None;
  }

  /** Skipping escaped closings, two characters at a time, misses none. */
  method FindClosing(source: string, mark: char, from: nat) returns (at: Option<nat>)
    requires mark != '\\'
    ensures FirstDelimiter(source, from, mark, at)
  {
    at := IndexOf(source, mark, from);
    while at.Some?
      invariant at.Some? ==> from <= at.value && DelimiterAt(source, at.value, mark)
      invariant forall p :: from <= p < (if at.Some? then at.value else |source|) ==> !Delimits(source, p, mark)
      decreases if at.Some? then |source| - at.value else 0, at.Some?
    {
      var escaped := Escaped(source, at.value);
      if !escaped {
        return;
      }
      ghost var skipped := at.value;
      assert !DelimiterAt(source, skipped + 1, mark);
      at := IndexOf(source, mark, at.value + 2);
      assert forall p :: from <= p < skipped + 2 ==> !Delimits(source, p, mark);
    }
  }

  // ----- The scan for formulas -----

  predicate Overlaps(ranges: seq<Range>, start: nat, end: nat) {
    exists r :: r in ranges && start < r.end && end > r.start
  }

  predicate Covers(formulas: seq<Formula>, at: nat) {
    exists f :: f in formulas && f.start <= at < f.end
  }

  /** A formula as the scan finds it: from an opening to the first closing behind it. */
  ghost predicate Delimited(source: string, f: Formula) {
    && Opens(source, f.start) && !IsEscaped(source, f.start)
    && f.start + 4 <= f.end <= |source|
    && f.display == (source[f.start + 1] == '[')
    && FirstDelimiter(source, f.start + 2, Closing(source, f.start), Some(f.end - 2))
  }

  /** An opening is passed over only if it is escaped or inside a formula, has no
      closing, or would reach into a protected range. */
  ghost predicate Skipped(source: string, at: nat, formulas: seq<Formula>, protected: seq<Range>)
    requires Opens(source, at)
  {
    || IsEscaped(source, at)
    || Covers(formulas, at)
    || FirstDelimiter(source, at + 2, Closing(source, at), None)
    || exists end: nat :: FirstDelimiter(source, at + 2, Closing(source, at), Some(end)) && Overlaps(protected, at, end + 2)
  }

  /** What the scan adds to the display paragraphs `blocks`: delimited formulas from
      left to right, clear of protected ranges, and none is missed. */
  ghost predicate Scanned(source: string, blocks: seq<Formula>, protected: seq<Range>, formulas: seq<Formula>, upTo: nat) {
    && blocks <= formulas
    && (forall f :: f in formulas[|blocks|..] ==>
          Delimited(source, f) && f.end <= upTo && !Overlaps(protected, f.start, f.end) && !Covers(blocks, f.start))
    && (forall i, j :: |blocks| <= i < j < |formulas| ==> formulas[i].end <= formulas[j].start)
    && (forall p: nat :: p < upTo && Opens(source, p) ==> Skipped(source, p, formulas, protected))
  }

  lemma ScanSkips(source: string, blocks: seq<Formula>, protected: seq<Range>, formulas: seq<Formula>, upTo: nat, at: nat)
    requires Scanned(source, blocks, protected, formulas, upTo) && upTo <= at
    requires forall p: nat :: upTo <= p < at ==> !Opens(source, p)
    requires Opens(source, at) && Skipped(source, at, formulas, protected)
    ensures Scanned(source, blocks, protected, formulas, at + 2)
  {
    assert !Opens(source, at + 1);
  }

  lemma ScanAdds(source: string, blocks: seq<Formula>, protected: seq<Range>, formulas: seq<Formula>, upTo: nat, f: Formula)
    requires Scanned(source, blocks, protected, formulas, upTo) && upTo <= f.start
    requires forall p: nat :: upTo <= p < f.start ==> !Opens(source, p)
    requires Delimited(source, f) && !Overlaps(protected, f.start, f.end) && !Covers(formulas, f.start)
    ensures Scanned(source, blocks, protected, formulas + [f], f.end)
  {
    var more := formulas + [f];
    assert more[|blocks|..] == formulas[|blocks|..] + [f];
    assert forall g :: g in blocks ==> g in formulas;
    assert f in more;
    assert forall p: nat :: f.start <= p < f.end ==> Covers(more, p);
    forall p: nat | p < f.end && Opens(source, p) ensures Skipped(source, p, more, protected) {
      if p < upTo {
        assert Skipped(source, p, formulas, protected);
        assert Covers(formulas, p) ==> Covers(more, p);
      }
    }
  }

  method Scan(source: string, blocks: seq<Formula>, protected: seq<Range>) returns (formulas: seq<Formula>)
    ensures Scanned(source, blocks, protected, formulas, |source|)
  {
    formulas := blocks;
    var last := 0;
    while true
      invariant Scanned(source, blocks, protected, formulas, last)
      invariant 0 <= last <= |source|
      decreases |source| - last
    {
      var opening := NextOpening(source, last);
      if opening.None? {
        return;
      }
      var start := opening.value;
      var escaped := Escaped(source, start);
      if escaped || Covers(formulas, start) {
        ScanSkips(source, blocks, protected, formulas, last, start);
        last := start + 2;
        continue;
      }
      var end := FindClosing(source, Closing(source, start), start + 2);
      if end.None? || Overlaps(protected, start, end.value + 2) {
        assert end.Some? ==> FirstDelimiter(source, start + 2, Closing(source, start), Some(end.value));
        ScanSkips(source, blocks, protected, formulas, last, start);
        last := start + 2;
        continue;
      }
      var f := Formula(start, end.value + 2, source[start + 1] == '[');
      ScanAdds(source, blocks, protected, formulas, last, f);
      formulas := formulas + [f];
      last := end.value + 2;
    }
  }

  method NextOpening(source: string, from: nat) returns (at: Option<nat>)
    ensures at.Some? ==> from <= at.value && Opens(source, at.value)
    ensures forall p: nat :: from <= p < (if at.Some? then at.value else |source|) ==> !Opens(source, p)
  {
    var i := from;
    while i + 1 < |source|
      invariant from <= i
      invariant forall p: nat :: from <= p < i ==> !Opens(source, p)
    {
      if source[i] == '\\' && (source[i + 1] == '(' || source[i + 1] == '[') {
        return Some(i);
      }
      i := i + 1;
    }
    at := None;
  }

  // ----- Placeholders -----

  function ByStart(): (Formula, Formula) -> bool {
    (a: Formula, b: Formula) => a.start <= b.start
  }

  predicate Within(source: string, formulas: seq<Formula>) {
    forall f :: f in formulas ==> f.start <= f.end <= |source|
  }

  /** Where the first `n` formulas end. */
  function Last(chosen: seq<Formula>, n: nat): nat
    requires n <= |chosen|
  {
    if n == 0 then 0 else chosen[n - 1].end
  }

  /** From left to right and apart from one another. */
  predicate Apart(chosen: seq<Formula>) {
    && (forall i :: 0 <= i < |chosen| ==> chosen[i].start <= chosen[i].end)
    && (forall i, j :: 0 <= i < j < |chosen| ==> chosen[i].end <= chosen[j].start)
  }

  predicate Ordered(source: string, chosen: seq<Formula>) {
    Apart(chosen) && forall i :: 0 <= i < |chosen| ==> chosen[i].end <= |source|
  }

  /** The source up to the end of the first `n` formulas, with marks for them. */
  function Normalised(source: string, chosen: seq<Formula>, mark: Mark, n: nat): string
    requires Ordered(source, chosen) && n <= |chosen|
  {
    if n == 0 then ""
    else Normalised(source, chosen, mark, n - 1) + source[Last(chosen, n - 1)..chosen[n - 1].start] + mark
  }

  /** How long that is, for marks of that width. */
  function Size(chosen: seq<Formula>, width: nat, n: nat): nat
    requires Apart(chosen) && n <= |chosen|
  {
    if n == 0 then 0 else Size(chosen, width, n - 1) + (chosen[n - 1].start - Last(chosen, n - 1)) + width
  }

  /** Where the mark of a formula stands. */
  function At(chosen: seq<Formula>, width: nat, i: nat): nat
    requires Apart(chosen) && i < |chosen|
  {
    Size(chosen, width, i) + (chosen[i].start - Last(chosen, i))
  }

  lemma {:induction false} SizeOf(source: string, chosen: seq<Formula>, mark: Mark, n: nat)
    requires Ordered(source, chosen) && n <= |chosen|
    ensures |Normalised(source, chosen, mark, n)| == Size(chosen, |mark|, n)
  {
    if n > 0 {
      SizeOf(source, chosen, mark, n - 1);
    }
  }

  /** Every mark is recorded with its formula, and nothing else. */
  ghost predicate Recorded(chosen: seq<Formula>, width: nat, restored: map<nat, Formula>)
    requires Apart(chosen)
  {
    && (forall i: nat :: i < |chosen| ==> Holds(chosen, width, restored, i))
    && (forall o {:trigger IsMark(chosen, width, o)} :: o in restored ==> IsMark(chosen, width, o))
  }

  predicate Holds(chosen: seq<Formula>, width: nat, restored: map<nat, Formula>, i: nat)
    requires Apart(chosen) && i < |chosen|
  {
    At(chosen, width, i) in restored && restored[At(chosen, width, i)] == chosen[i]
  }

  ghost predicate IsMark(chosen: seq<Formula>, width: nat, o: nat)
    requires Apart(chosen)
  {
    exists i {:trigger At(chosen, width, i)} :: 0 <= i < |chosen| && o == At(chosen, width, i)
  }

  /** The text with the original source put back at every recorded offset. */
  function Restore(normalized: string, restored: map<nat, Formula>, source: string, width: nat, at: nat): string
    requires width > 0 && forall o :: o in restored ==> restored[o].start <= restored[o].end <= |source|
    decreases |normalized| - at
  {
    if at >= |normalized| then ""
    else if at in restored then
      source[restored[at].start..restored[at].end] + Restore(normalized, restored, source, width, at + width)
    else [normalized[at]] + Restore(normalized, restored, source, width, at + 1)
  }

  /** Marks come one behind the other. */
  lemma {:induction false} MarksInOrder(chosen: seq<Formula>, width: nat, i: nat, n: nat)
    requires Apart(chosen) && i < n <= |chosen|
    ensures At(chosen, width, i) + width <= Size(chosen, width, n)
    ensures n < |chosen| ==> At(chosen, width, i) + width <= At(chosen, width, n)
    decreases n
  {
    if i < n - 1 {
      MarksInOrder(chosen, width, i, n - 1);
    }
  }

  lemma {:induction false} SamePrefix(a: seq<Formula>, b: seq<Formula>, width: nat, n: nat)
    requires Apart(a) && Apart(b) && n <= |a| && a <= b
    ensures Size(a, width, n) == Size(b, width, n)
    ensures n < |a| ==> At(a, width, n) == At(b, width, n)
  {
    if n > 0 {
      SamePrefix(a, b, width, n - 1);
    }
  }

  lemma {:induction false} SameText(source: string, a: seq<Formula>, b: seq<Formula>, mark: Mark, n: nat)
    requires Ordered(source, a) && Ordered(source, b) && n <= |a| && a <= b
    ensures Normalised(source, a, mark, n) == Normalised(source, b, mark, n)
  {
    if n > 0 {
      SameText(source, a, b, mark, n - 1);
    }
  }

  /** Text without recorded offsets stays as it is. */
  lemma {:induction false} RestorePlain(
    normalized: string, restored: map<nat, Formula>, source: string, width: nat, at: nat, n: nat)
    requires width > 0 && forall o :: o in restored ==> restored[o].start <= restored[o].end <= |source|
    requires at + n <= |normalized| && forall o :: at <= o < at + n ==> o !in restored
    ensures Restore(normalized, restored, source, width, at) ==
              normalized[at..at + n] + Restore(normalized, restored, source, width, at + n)
    decreases n
  {
    if n > 0 {
      RestorePlain(normalized, restored, source, width, at + 1, n - 1);
      assert normalized[at..at + n] == [normalized[at]] + normalized[at + 1..at + n];
    }
  }

  /** Between two marks nothing is recorded. */
  lemma GapIsPlain(chosen: seq<Formula>, width: nat, restored: map<nat, Formula>, n: nat, o: nat)
    requires width > 0 && Apart(chosen) && Recorded(chosen, width, restored) && n <= |chosen|
    requires Size(chosen, width, n) <= o && (n < |chosen| ==> o < At(chosen, width, n))
    ensures o !in restored
  {
    forall i: nat | i < |chosen| ensures o != At(chosen, width, i) {
      if i < n {
        MarksInOrder(chosen, width, i, n);
      } else if i > n {
        MarksInOrder(chosen, width, n, i);
      }
    }
    assert !IsMark(chosen, width, o);
  }

  /** The piece stands there in the text. */
  ghost predicate StandsAt(text: string, at: nat, piece: string) {
    exists front, back :: text == front + piece + back && |front| == at
  }

  lemma StandsAtSlice(text: string, at: nat, piece: string)
    requires StandsAt(text, at, piece)
    ensures at + |piece| <= |text| && text[at..at + |piece|] == piece
  {
    var front, back :| text == front + piece + back && |front| == at;
    assert (front + piece + back)[at..at + |piece|] == piece;
  }

  lemma StandsAtEnd(text: string, at: nat, first: string, second: string)
    requires StandsAt(text, at, first + second)
    ensures StandsAt(text, at, first) && StandsAt(text, at + |first|, second)
  {
    var front, back :| text == front + (first + second) + back && |front| == at;
    assert text == front + first + (second + back);
    assert text == (front + first) + second + back;
  }

  /** The gap in front of a formula. */
  function Gap(source: string, chosen: seq<Formula>, n: nat): string
    requires Ordered(source, chosen) && n < |chosen|
  {
    source[Last(chosen, n)..chosen[n].start]
  }

  lemma {:induction false} PieceText(source: string, chosen: seq<Formula>, mark: Mark, i: nat, n: nat, tail: string)
    requires Ordered(source, chosen) && i < n <= |chosen|
    ensures StandsAt(Normalised(source, chosen, mark, n) + tail, Size(chosen, |mark|, i), Gap(source, chosen, i) + mark)
    decreases n
  {
    var before, gap := Normalised(source, chosen, mark, n - 1), Gap(source, chosen, n - 1);
    if i < n - 1 {
      PieceText(source, chosen, mark, i, n - 1, gap + mark + tail);
      assert before + gap + mark + tail == before + (gap + mark + tail);
    } else {
      SizeOf(source, chosen, mark, n - 1);
      assert before + gap + mark + tail == before + (gap + mark) + tail;
    }
  }

  /** What is restored from the gap in front of a mark on. */
  lemma RestoreNext(
    source: string, chosen: seq<Formula>, mark: Mark, restored: map<nat, Formula>, normalized: string, n: nat)
    requires Ordered(source, chosen) && Recorded(chosen, |mark|, restored) && n < |chosen|
    requires forall o :: o in restored ==> restored[o].start <= restored[o].end <= |source|
    requires StandsAt(normalized, Size(chosen, |mark|, n), Gap(source, chosen, n) + mark)
    requires Restore(normalized, restored, source, |mark|, Size(chosen, |mark|, n + 1)) == source[Last(chosen, n + 1)..]
    ensures Restore(normalized, restored, source, |mark|, Size(chosen, |mark|, n)) == source[Last(chosen, n)..]
  {
    var here, f := Size(chosen, |mark|, n), chosen[n];
    forall o | here <= o < At(chosen, |mark|, n) ensures o !in restored {
      GapIsPlain(chosen, |mark|, restored, n, o);
    }
    assert Holds(chosen, |mark|, restored, n);
    RestoreStep(normalized, restored, source, mark, here, Gap(source, chosen, n), f);
    Cut(source, Last(chosen, n), f.start, f.end);
  }

  /** Over a gap and the mark behind it. */
  lemma RestoreStep(
    normalized: string, restored: map<nat, Formula>, source: string, mark: Mark, here: nat, gap: string, f: Formula)
    requires forall o :: o in restored ==> restored[o].start <= restored[o].end <= |source|
    requires f.start <= f.end <= |source|
    requires StandsAt(normalized, here, gap + mark)
    requires forall o :: here <= o < here + |gap| ==> o !in restored
    requires here + |gap| in restored && restored[here + |gap|] == f
    ensures Restore(normalized, restored, source, |mark|, here) ==
              gap + (source[f.start..f.end] + Restore(normalized, restored, source, |mark|, here + |gap| + |mark|))
  {
    StandsAtEnd(normalized, here, gap, mark);
    StandsAtSlice(normalized, here, gap);
    RestorePlain(normalized, restored, source, |mark|, here, |gap|);
    RestoreMark(normalized, restored, source, mark, here + |gap|, f);
  }

  lemma Cut(source: string, a: nat, b: nat, c: nat)
    requires a <= b <= c <= |source|
    ensures source[a..b] + (source[b..c] + source[c..]) == source[a..]
  {}

  lemma RestoreMark(normalized: string, restored: map<nat, Formula>, source: string, mark: Mark, at: nat, f: Formula)
    requires forall o :: o in restored ==> restored[o].start <= restored[o].end <= |source|
    requires StandsAt(normalized, at, mark) && at in restored && restored[at] == f
    ensures f.start <= f.end <= |source|
    ensures Restore(normalized, restored, source, |mark|, at) ==
              source[f.start..f.end] + Restore(normalized, restored, source, |mark|, at + |mark|)
  {}

  lemma {:induction false} RestoreFrom(
    source: string, chosen: seq<Formula>, mark: Mark, restored: map<nat, Formula>, normalized: string, n: nat)
    requires Ordered(source, chosen) && Recorded(chosen, |mark|, restored) && n <= |chosen|
    requires forall o :: o in restored ==> restored[o].start <= restored[o].end <= |source|
    requires normalized == Normalised(source, chosen, mark, |chosen|) + source[Last(chosen, |chosen|)..]
    ensures Restore(normalized, restored, source, |mark|, Size(chosen, |mark|, n)) == source[Last(chosen, n)..]
    decreases |chosen| - n
  {
    if n < |chosen| {
      RestoreFrom(source, chosen, mark, restored, normalized, n + 1);
      PieceText(source, chosen, mark, n, |chosen|, source[Last(chosen, |chosen|)..]);
      RestoreNext(source, chosen, mark, restored, normalized, n);
    } else {
      RestoreTail(source, chosen, mark, restored, normalized);
    }
  }

  lemma RestoreTail(source: string, chosen: seq<Formula>, mark: Mark, restored: map<nat, Formula>, normalized: string)
    requires Ordered(source, chosen) && Recorded(chosen, |mark|, restored)
    requires forall o :: o in restored ==> restored[o].start <= restored[o].end <= |source|
    requires normalized == Normalised(source, chosen, mark, |chosen|) + source[Last(chosen, |chosen|)..]
    ensures Restore(normalized, restored, source, |mark|, Size(chosen, |mark|, |chosen|)) == source[Last(chosen, |chosen|)..]
  {
    var here, tail := Size(chosen, |mark|, |chosen|), source[Last(chosen, |chosen|)..];
    SizeOf(source, chosen, mark, |chosen|);
    forall o | here <= o < here + |tail| ensures o !in restored {
      GapIsPlain(chosen, |mark|, restored, |chosen|, o);
    }
    RestorePlain(normalized, restored, source, |mark|, here, |tail|);
    assert normalized[here..here + |tail|] == tail;
  }

  // ----- Substitution -----

  /** Chosen, or left out because it is protected or begins inside a chosen one. */
  predicate Settled(f: Formula, protected: seq<Range>, chosen: seq<Formula>) {
    f in chosen || Overlaps(protected, f.start, f.end) || Covers(chosen, f.start)
  }

  ghost predicate Selected(formulas: seq<Formula>, protected: seq<Range>, chosen: seq<Formula>) {
    && (forall f :: f in chosen ==> f in formulas && !Overlaps(protected, f.start, f.end))
    && (forall f {:trigger Settled(f, protected, chosen)} :: f in formulas ==> Settled(f, protected, chosen))
  }

  lemma SelectedSkip(seen: seq<Formula>, protected: seq<Range>, chosen: seq<Formula>, f: Formula)
    requires Selected(seen, protected, chosen) && (Overlaps(protected, f.start, f.end) || Covers(chosen, f.start))
    ensures Selected(seen + [f], protected, chosen)
  {}

  lemma SelectedTake(seen: seq<Formula>, protected: seq<Range>, chosen: seq<Formula>, f: Formula)
    requires Selected(seen, protected, chosen) && !Overlaps(protected, f.start, f.end)
    ensures Selected(seen + [f], protected, chosen + [f])
  {
    forall g | g in seen + [f] ensures Settled(g, protected, chosen + [f]) {
      if g in seen {
        assert Settled(g, protected, chosen);
        if Covers(chosen, g.start) {
          CoversMore(chosen, f, g.start);
        }
      } else {
        assert f in chosen + [f];
      }
    }
  }

  lemma CoversMore(chosen: seq<Formula>, f: Formula, at: nat)
    requires Covers(chosen, at)
    ensures Covers(chosen + [f], at)
  {
    var g :| g in chosen && g.start <= at < g.end;
    assert g in chosen + [f];
  }

  /** What substitution promises: the chosen formulas are apart and clear of what is
      protected; a formula is left out only for one of these two reasons. */
  ghost predicate Substituted(
    source: string, formulas: seq<Formula>, protected: seq<Range>, mark: Mark,
    chosen: seq<Formula>, normalized: string, restored: map<nat, Formula>)
  {
    && Ordered(source, chosen)
    && Selected(formulas, protected, chosen)
    && normalized == Normalised(source, chosen, mark, |chosen|) + source[Last(chosen, |chosen|)..]
    && Recorded(chosen, |mark|, restored)
  }

  lemma NextChosen(source: string, chosen: seq<Formula>, mark: Mark, f: Formula)
    requires Ordered(source, chosen) && Last(chosen, |chosen|) <= f.start <= f.end <= |source|
    ensures var more, n := chosen + [f], |chosen|;
            && Ordered(source, more)
            && Normalised(source, more, mark, n + 1) == Normalised(source, chosen, mark, n) + source[Last(chosen, n)..f.start] + mark
            && At(more, |mark|, n) == |Normalised(source, chosen, mark, n) + source[Last(chosen, n)..f.start]|
  {
    var more, n := chosen + [f], |chosen|;
    AppendOrdered(source, chosen, f);
    SameText(source, chosen, more, mark, n);
    SizeOf(source, more, mark, n);
    assert Last(more, n) == Last(chosen, n);
  }

  lemma AppendOrdered(source: string, chosen: seq<Formula>, f: Formula)
    requires Ordered(source, chosen) && Last(chosen, |chosen|) <= f.start <= f.end <= |source|
    ensures Ordered(source, chosen + [f])
  {
    var n := |chosen|;
    forall i | 0 <= i < n ensures chosen[i].end <= f.start {
      assert i < n - 1 ==> chosen[i].end <= chosen[n - 1].start;
    }
  }

  lemma RecordNext(chosen: seq<Formula>, width: nat, restored: map<nat, Formula>, f: Formula)
    requires width > 0 && Apart(chosen) && Recorded(chosen, width, restored) && Apart(chosen + [f])
    ensures Recorded(chosen + [f], width, restored[At(chosen + [f], width, |chosen|) := f])
  {
    var more, n := chosen + [f], |chosen|;
    var now := restored[At(more, width, n) := f];
    forall i: nat | i < |more| ensures Holds(more, width, now, i) {
      if i < n {
        assert Holds(chosen, width, restored, i);
        SamePrefix(chosen, more, width, i);
        MarksInOrder(more, width, i, n);
      }
    }
    forall o | o in restored ensures IsMark(more, width, o) {
      assert IsMark(chosen, width, o);
      var i :| 0 <= i < n && o == At(chosen, width, i);
      SamePrefix(chosen, more, width, i);
      assert o == At(more, width, i);
    }
  }

  /** In the order of starts, a formula that begins before the cursor begins inside
      the formula chosen last. */
  lemma BehindIsCovered(sorted: seq<Formula>, i: nat, chosen: seq<Formula>)
    requires Sorted(sorted, ByStart()) && i < |sorted|
    requires forall f :: f in chosen ==> f in sorted[..i]
    ensures sorted[i].start < Last(chosen, |chosen|) ==> Covers(chosen, sorted[i].start)
  {
    if sorted[i].start < Last(chosen, |chosen|) {
      var last := chosen[|chosen| - 1];
      assert last in chosen;
      var k :| 0 <= k < i && sorted[k] == last;
      assert ByStart()(sorted[k], sorted[i]);
    }
  }

  lemma SelectedSame(a: seq<Formula>, b: seq<Formula>, protected: seq<Range>, chosen: seq<Formula>)
    requires Selected(a, protected, chosen) && forall f :: f in a <==> f in b
    ensures Selected(b, protected, chosen)
  {
    forall f | f in b ensures Settled(f, protected, chosen) {
      assert f in a;
    }
  }

  /** One more mark in the text. */
  method Place(
    source: string, ghost chosen: seq<Formula>, mark: Mark, before: string, recorded: map<nat, Formula>, cursor: nat, f: Formula)
    returns (normalized: string, restored: map<nat, Formula>)
    requires Ordered(source, chosen) && cursor == Last(chosen, |chosen|) <= f.start <= f.end <= |source|
    requires before == Normalised(source, chosen, mark, |chosen|) && Recorded(chosen, |mark|, recorded)
    ensures Ordered(source, chosen + [f])
    ensures normalized == Normalised(source, chosen + [f], mark, |chosen| + 1)
    ensures Recorded(chosen + [f], |mark|, restored)
  {
    NextChosen(source, chosen, mark, f);
    RecordNext(chosen, |mark|, recorded, f);
    normalized := before + source[cursor..f.start];
    restored := recorded[|normalized| := f];
    normalized := normalized + mark;
  }

  /** Where substitution stands after some formulas. */
  ghost predicate Progress(
    source: string, seen: seq<Formula>, protected: seq<Range>, mark: Mark,
    chosen: seq<Formula>, normalized: string, restored: map<nat, Formula>, cursor: nat)
  {
    && Ordered(source, chosen) && cursor == Last(chosen, |chosen|)
    && normalized == Normalised(source, chosen, mark, |chosen|) && Recorded(chosen, |mark|, restored)
    && Selected(seen, protected, chosen)
  }

  method Consider(
    source: string, ghost sorted: seq<Formula>, ghost i: nat, f: Formula, protected: seq<Range>, mark: Mark,
    ghost before: seq<Formula>, text: string, recorded: map<nat, Formula>, passed: nat)
    returns (normalized: string, restored: map<nat, Formula>, cursor: nat, ghost chosen: seq<Formula>)
    requires Sorted(sorted, ByStart()) && i < |sorted| && f == sorted[i] && f.start <= f.end <= |source|
    requires Progress(source, sorted[..i], protected, mark, before, text, recorded, passed)
    ensures Progress(source, sorted[..i] + [f], protected, mark, chosen, normalized, restored, cursor)
  {
    normalized, restored, cursor, chosen := text, recorded, passed, before;
    if f.start < passed || Overlaps(protected, f.start, f.end) {
      BehindIsCovered(sorted, i, before);
      SelectedSkip(sorted[..i], protected, before, f);
      return;
    }
    SelectedTake(sorted[..i], protected, before, f);
    normalized, restored := Place(source, before, mark, text, recorded, passed, f);
    cursor := f.end;
    chosen := before + [f];
  }

  /** From left to right through formulas in order of their start. */
  method SubstituteSorted(source: string, sorted: seq<Formula>, protected: seq<Range>, mark: Mark)
    returns (normalized: string, restored: map<nat, Formula>, ghost chosen: seq<Formula>)
    requires Within(source, sorted) && Sorted(sorted, ByStart())
    ensures Substituted(source, sorted, protected, mark, chosen, normalized, restored)
  {
    normalized, restored, chosen := "", map[], [];
    var cursor: nat := 0;
    ProgressBegins(source, protected, mark);
    assert sorted[..0] == [];
    for i := 0 to |sorted|
      invariant Progress(source, sorted[..i], protected, mark, chosen, normalized, restored, cursor)
    {
      ghost var next := sorted[..i + 1];
      assert next == sorted[..i] + [sorted[i]];
      assert sorted[i] in sorted;
      normalized, restored, cursor, chosen :=
        Consider(source, sorted, i, sorted[i], protected, mark, chosen, normalized, restored, cursor);
    }
    assert sorted[..|sorted|] == sorted;
    ProgressEnds(source, sorted, protected, mark, chosen, normalized, restored, cursor);
    normalized := normalized + source[cursor..];
  }

  method Substitute(source: string, formulas: seq<Formula>, protected: seq<Range>, mark: Mark)
    returns (normalized: string, restored: map<nat, Formula>)
    requires Within(source, formulas)
    ensures exists chosen :: Substituted(source, formulas, protected, mark, chosen, normalized, restored)
  {
    SortSorts(formulas, ByStart());
    SortMembers(formulas, ByStart());
    var sorted := Sort(formulas, ByStart());
    ghost var chosen;
    normalized, restored, chosen := SubstituteSorted(source, sorted, protected, mark);
    SelectedSame(sorted, formulas, protected, chosen);
    assert Substituted(source, formulas, protected, mark, chosen, normalized, restored);
  }

  lemma ProgressEnds(
    source: string, sorted: seq<Formula>, protected: seq<Range>, mark: Mark,
    chosen: seq<Formula>, normalized: string, restored: map<nat, Formula>, cursor: nat)
    requires Progress(source, sorted, protected, mark, chosen, normalized, restored, cursor)
    ensures cursor <= |source| && Substituted(source, sorted, protected, mark, chosen, normalized + source[cursor..], restored)
  {}

  lemma ProgressBegins(source: string, protected: seq<Range>, mark: Mark)
    ensures Progress(source, [], protected, mark, [], "", map[], 0)
  {}

  /** Putting the source back at the recorded offsets gives exactly the source again. */
  lemma RestoreIsSource(
    source: string, formulas: seq<Formula>, protected: seq<Range>, mark: Mark,
    chosen: seq<Formula>, normalized: string, restored: map<nat, Formula>)
    requires Substituted(source, formulas, protected, mark, chosen, normalized, restored)
    ensures forall o :: o in restored ==> restored[o].start <= restored[o].end <= |source|
    ensures Restore(normalized, restored, source, |mark|, 0) == source
  {
    forall o | o in restored ensures restored[o].start <= restored[o].end <= |source| {
      assert IsMark(chosen, |mark|, o);
      var i :| 0 <= i < |chosen| && o == At(chosen, |mark|, i);
      assert Holds(chosen, |mark|, restored, i);
    }
    RestoreFrom(source, chosen, mark, restored, normalized, 0);
  }

  /** Every recorded offset holds a mark, marks do not touch one another, and every
      chosen formula is recorded. */
  lemma MarksStand(
    source: string, formulas: seq<Formula>, protected: seq<Range>, mark: Mark,
    chosen: seq<Formula>, normalized: string, restored: map<nat, Formula>)
    requires Substituted(source, formulas, protected, mark, chosen, normalized, restored)
    ensures forall o :: o in restored ==> StandsAt(normalized, o, mark)
    ensures forall o, p :: o in restored && p in restored && o < p ==> o + |mark| <= p
    ensures forall f :: f in chosen <==> f in restored.Values
  {
    forall o | o in restored ensures StandsAt(normalized, o, mark) {
      assert IsMark(chosen, |mark|, o);
      var i :| 0 <= i < |chosen| && o == At(chosen, |mark|, i);
      PieceText(source, chosen, mark, i, |chosen|, source[Last(chosen, |chosen|)..]);
      StandsAtEnd(normalized, Size(chosen, |mark|, i), Gap(source, chosen, i), mark);
    }
    forall o, p | o in restored && p in restored && o < p ensures o + |mark| <= p {
      MarksApart(chosen, |mark|, o, p);
    }
    RecordedValues(chosen, |mark|, restored);
  }

  lemma RecordedValues(chosen: seq<Formula>, width: nat, restored: map<nat, Formula>)
    requires Apart(chosen) && Recorded(chosen, width, restored)
    ensures forall f :: f in chosen <==> f in restored.Values
  {
    forall f | f in chosen ensures f in restored.Values {
      var i :| 0 <= i < |chosen| && chosen[i] == f;
      assert Holds(chosen, width, restored, i);
    }
    forall f | f in restored.Values ensures f in chosen {
      var o :| o in restored && restored[o] == f;
      assert IsMark(chosen, width, o);
      var i :| 0 <= i < |chosen| && o == At(chosen, width, i);
      assert Holds(chosen, width, restored, i);
    }
  }

  lemma MarksApart(chosen: seq<Formula>, width: nat, o: nat, p: nat)
    requires Apart(chosen) && IsMark(chosen, width, o) && IsMark(chosen, width, p) && o < p
    ensures o + width <= p
  {
    var i :| 0 <= i < |chosen| && o == At(chosen, width, i);
    var j :| 0 <= j < |chosen| && p == At(chosen, width, j);
    if i < j {
      MarksInOrder(chosen, width, i, j);
    } else if j < i {
      MarksInOrder(chosen, width, j, i);
    }
  }

  // ----- The parser's first half -----

  /** A backslash in front of a letter or of an opening. */
  predicate Commanded(source: string) {
    exists p :: 0 <= p < |source| - 1 && source[p] == '\\' &&
      (source[p + 1] == '(' || source[p + 1] == '[' || 'a' <= source[p + 1] <= 'z' || 'A' <= source[p + 1] <= 'Z')
  }

  /** `blocks` are the display paragraphs and `protected` the literal stretches of the
      first parse. The text for the second parse restores to the source. */
  method Normalise(source: string, blocks: seq<Formula>, protected: seq<Range>)
    returns (normalized: string, restored: map<nat, Formula>, ghost formulas: seq<Formula>, ghost chosen: seq<Formula>)
    requires Within(source, blocks)
    ensures forall o :: o in restored ==> restored[o].start <= restored[o].end <= |source| && restored[o] in formulas
    ensures Restore(normalized, restored, source, |PLACEHOLDER|, 0) == source
    ensures if Commanded(source) then Scanned(source, blocks, protected, formulas, |source|) else formulas == []
    ensures Selected(formulas, protected, chosen) && forall f :: f in chosen <==> f in restored.Values
    ensures forall o, p :: o in restored && p in restored && o < p ==> o + |PLACEHOLDER| <= p
    ensures forall o :: o in restored ==> StandsAt(normalized, o, PLACEHOLDER)
  {
    var found: seq<Formula> := [];
    if Commanded(source) {
      found := Scan(source, blocks, protected);
      ScannedWithin(source, blocks, protected, found);
    }
    formulas := found;
    normalized, restored := Substitute(source, found, protected, PLACEHOLDER);
    chosen :| Substituted(source, found, protected, PLACEHOLDER, chosen, normalized, restored);
    RestoreIsSource(source, found, protected, PLACEHOLDER, chosen, normalized, restored);
    MarksStand(source, found, protected, PLACEHOLDER, chosen, normalized, restored);
    assert forall o :: o in restored ==> restored[o] in restored.Values;
  }

  lemma ScannedWithin(source: string, blocks: seq<Formula>, protected: seq<Range>, formulas: seq<Formula>)
    requires Within(source, blocks) && Scanned(source, blocks, protected, formulas, |source|)
    ensures Within(source, formulas)
  {
    forall f | f in formulas ensures f.start <= f.end <= |source| {
      var i :| 0 <= i < |formulas| && formulas[i] == f;
      if i < |blocks| {
        assert f == blocks[i];
      } else {
        assert f == formulas[|blocks|..][i - |blocks|];
        assert Delimited(source, f);
      }
    }
  }
}
