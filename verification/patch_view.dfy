/** The unified and the split view of a patch hunk. */
module PatchView {
  import opened Wrappers

  datatype Line = Line(number: int, text: string)

  datatype Row = Row(before: Option<Line>, after: Option<Line>, changed: bool)

  datatype View = View(unified: seq<Row>, split: seq<Row>)

  // ----- What a hunk says -----

  predicate Starts(line: string, mark: char) {
    line != "" && line[0] == mark
  }

  predicate Supported(line: string) {
    Starts(line, '-') || Starts(line, '+') || Starts(line, ' ') || Starts(line, '\\')
  }

  function Text(line: string): string {
    if line == "" then "" else line[1..]
  }

  /** The text before the change, and after it. */
  function Side(lines: seq<string>, mark: char): seq<string> {
    if lines == [] then []
    else
      var n := |lines| - 1;
      Side(lines[..n], mark) + if Starts(lines[n], mark) || Starts(lines[n], ' ') then [Text(lines[n])] else []
  }

  function Context(lines: seq<string>): seq<string> {
    if lines == [] then []
    else
      var n := |lines| - 1;
      Context(lines[..n]) + if Starts(lines[n], ' ') then [Text(lines[n])] else []
  }

  function Numbered(texts: seq<string>, start: int): (r: seq<Line>)
    ensures |r| == |texts|
  {
    seq(|texts|, i requires 0 <= i < |texts| => Line(start + i, texts[i]))
  }

  /** The least number of rows: a block of changes takes as many as its longer side. */
  function Height(lines: seq<string>, removed: nat, added: nat): nat {
    if lines == [] then Max(removed, added)
    else if Starts(lines[0], '-') then Height(lines[1..], removed + 1, added)
    else if Starts(lines[0], '+') then Height(lines[1..], removed, added + 1)
    else if Starts(lines[0], ' ') then Max(removed, added) + 1 + Height(lines[1..], 0, 0)
    else Height(lines[1..], removed, added)
  }

  function Max(a: nat, b: nat): nat {
    if a < b then b else a
  }

  // ----- What a view shows -----

  function Befores(rows: seq<Row>): seq<Line> {
    if rows == [] then []
    else
      var n := |rows| - 1;
      Befores(rows[..n]) + if rows[n].before.Some? then [rows[n].before.value] else []
  }

  function Afters(rows: seq<Row>): seq<Line> {
    if rows == [] then []
    else
      var n := |rows| - 1;
      Afters(rows[..n]) + if rows[n].after.Some? then [rows[n].after.value] else []
  }

  function Unchanged(rows: seq<Row>): seq<Row> {
    if rows == [] then []
    else
      var n := |rows| - 1;
      Unchanged(rows[..n]) + if rows[n].changed then [] else [rows[n]]
  }

  function Kept(rows: seq<Row>): seq<string> {
    if rows == [] then []
    else
      var n := |rows| - 1;
      Kept(rows[..n]) + if !rows[n].changed && rows[n].before.Some? then [rows[n].before.value.text] else []
  }

  /** A context row has the same text on both sides. */
  predicate Aligned(rows: seq<Row>) {
    forall row :: row in rows && !row.changed ==> row.before.Some? && row.after.Some? && row.before.value.text == row.after.value.text
  }

  /** In the split view the two sides of a block start together, and no row is empty. */
  predicate TopAligned(rows: seq<Row>) {
    && (forall row :: row in rows ==> row.before.Some? || row.after.Some?)
    && (forall n :: 0 <= n < |rows| - 1 && rows[n].changed && rows[n + 1].changed ==>
          && (rows[n].before.None? ==> rows[n + 1].before.None?)
          && (rows[n].after.None? ==> rows[n + 1].after.None?))
  }

  /** No block of changes is open at the end. */
  predicate Settled(rows: seq<Row>) {
    rows == [] || !rows[|rows| - 1].changed
  }

  /** How many of the lines are shown: all but the notes. */
  function Entries(lines: seq<string>): nat {
    if lines == [] then 0 else Entries(lines[..|lines| - 1]) + if Starts(lines[|lines| - 1], '\\') then 0 else 1
  }

  /** The row shows that line and nothing else. */
  predicate ShowsLine(row: Row, lines: seq<string>, i: nat, oldStart: int, newStart: int)
    requires i < |lines|
  {
    var before, after := Line(oldStart + |Side(lines[..i], '-')|, Text(lines[i])), Line(newStart + |Side(lines[..i], '+')|, Text(lines[i]));
    && (Starts(lines[i], '-') ==> row == Row(Some(before), None, true))
    && (Starts(lines[i], '+') ==> row == Row(None, Some(after), true))
    && (Starts(lines[i], ' ') ==> row == Row(Some(before), Some(after), false))
  }

  /** The unified view has a row for each of the first `n` lines, in their order. */
  predicate InOrder(unified: seq<Row>, lines: seq<string>, n: nat, oldStart: int, newStart: int)
    requires n <= |lines|
  {
    && |unified| == Entries(lines[..n])
    && forall i :: 0 <= i < n && !Starts(lines[i], '\\') ==>
         Entries(lines[..i]) < |unified| && ShowsLine(unified[Entries(lines[..i])], lines, i, oldStart, newStart)
  }

  lemma InOrderNext(unified: seq<Row>, lines: seq<string>, n: nat, oldStart: int, newStart: int, row: Row)
    requires n < |lines| && InOrder(unified, lines, n, oldStart, newStart)
    ensures Starts(lines[n], '\\') ==> InOrder(unified, lines, n + 1, oldStart, newStart)
    ensures !Starts(lines[n], '\\') && ShowsLine(row, lines, n, oldStart, newStart) ==>
              InOrder(unified + [row], lines, n + 1, oldStart, newStart)
  {
    assert lines[..n + 1][..n] == lines[..n];
  }

  lemma AppendedOne(a: seq<Row>, row: Row)
    ensures Befores(a + [row]) == Befores(a) + if row.before.Some? then [row.before.value] else []
    ensures Afters(a + [row]) == Afters(a) + if row.after.Some? then [row.after.value] else []
    ensures Unchanged(a + [row]) == Unchanged(a) + if row.changed then [] else [row]
    ensures Kept(a + [row]) == Kept(a) + if !row.changed && row.before.Some? then [row.before.value.text] else []
  {
    assert (a + [row])[..|a|] == a;
  }

  // ----- Pairing a block of changes -----

  function Pair(removed: seq<Line>, added: seq<Line>, i: nat): Row {
    Row(if i < |removed| then Some(removed[i]) else None, if i < |added| then Some(added[i]) else None, true)
  }

  /** The first `i` pairs of the block stand behind the split view. */
  ghost predicate Paired(split: seq<Row>, removed: seq<Line>, added: seq<Line>, rows: seq<Row>, i: nat)
    requires i <= Max(|removed|, |added|)
  {
    && Befores(rows) == Befores(split) + removed[..if i < |removed| then i else |removed|]
    && Afters(rows) == Afters(split) + added[..if i < |added| then i else |added|]
    && Unchanged(rows) == Unchanged(split)
    && |rows| == |split| + i
    && (Aligned(split) ==> Aligned(rows))
    && (TopAligned(split) && Settled(split) ==> TopAligned(rows))
    && (if i > 0 then rows[|rows| - 1] == Pair(removed, added, i - 1) else rows == split)
  }

  lemma PairedNext(split: seq<Row>, removed: seq<Line>, added: seq<Line>, rows: seq<Row>, i: nat)
    requires i < Max(|removed|, |added|) && Paired(split, removed, added, rows, i)
    ensures Paired(split, removed, added, rows + [Pair(removed, added, i)], i + 1)
  {
    AppendedOne(rows, Pair(removed, added, i));
    assert i < |removed| ==> removed[..i + 1] == removed[..i] + [removed[i]];
    assert i < |added| ==> added[..i + 1] == added[..i] + [added[i]];
    if TopAligned(split) && Settled(split) {
      TopAlignedNext(rows, Pair(removed, added, i));
    }
  }

  lemma TopAlignedNext(rows: seq<Row>, row: Row)
    requires TopAligned(rows) && (row.before.Some? || row.after.Some?)
    requires rows != [] && rows[|rows| - 1].changed && row.changed ==>
               && (rows[|rows| - 1].before.None? ==> row.before.None?) && (rows[|rows| - 1].after.None? ==> row.after.None?)
    ensures TopAligned(rows + [row])
  {
    var all := rows + [row];
    assert forall r :: r in all ==> r in rows || r == row;
    assert forall n :: 0 <= n < |rows| ==> all[n] == rows[n];
  }

  /** Removed and added lines side by side. */
  method Flush(split: seq<Row>, removed: seq<Line>, added: seq<Line>) returns (rows: seq<Row>)
    ensures Befores(rows) == Befores(split) + removed
    ensures Afters(rows) == Afters(split) + added
    ensures Unchanged(rows) == Unchanged(split)
    ensures |rows| == |split| + Max(|removed|, |added|)
    ensures Aligned(split) ==> Aligned(rows)
    ensures TopAligned(split) && Settled(split) ==> TopAligned(rows)
  {
    rows := split;
    assert removed[..0] == [] && added[..0] == [];
    for i := 0 to Max(|removed|, |added|)
      invariant Paired(split, removed, added, rows, i)
    {
      PairedNext(split, removed, added, rows, i);
      rows := rows + [Pair(removed, added, i)];
    }
    assert removed[..|removed|] == removed && added[..|added|] == added;
  }

  lemma SideStep(lines: seq<string>, i: nat, mark: char, start: int)
    requires i < |lines|
    ensures Numbered(Side(lines[..i + 1], mark), start) ==
              Numbered(Side(lines[..i], mark), start) +
              if Starts(lines[i], mark) || Starts(lines[i], ' ') then [Line(start + |Side(lines[..i], mark)|, Text(lines[i]))] else []
  {
    assert lines[..i + 1][..i] == lines[..i];
  }

  lemma ContextStep(lines: seq<string>, i: nat)
    requires i < |lines|
    ensures Context(lines[..i + 1]) == Context(lines[..i]) + if Starts(lines[i], ' ') then [Text(lines[i])] else []
  {
    assert lines[..i + 1][..i] == lines[..i];
  }

  lemma HeightStep(lines: seq<string>, i: nat, removed: nat, added: nat)
    requires i < |lines|
    ensures Height(lines[i..], removed, added) ==
              if Starts(lines[i], '-') then Height(lines[i + 1..], removed + 1, added)
              else if Starts(lines[i], '+') then Height(lines[i + 1..], removed, added + 1)
              else if Starts(lines[i], ' ') then Max(removed, added) + 1 + Height(lines[i + 1..], 0, 0)
              else Height(lines[i + 1..], removed, added)
  {
    assert lines[i..][1..] == lines[i + 1..];
  }

  /** Both views show the same text before and after, numbered consecutively, with
      the same context rows; the unified view has the order of the patch, and the split
      view is as short as it can be, with the sides of a block starting together. */
  ghost predicate Shows(view: View, lines: seq<string>, oldStart: int, newStart: int) {
    && Befores(view.unified) == Befores(view.split) == Numbered(Side(lines, '-'), oldStart)
    && Afters(view.unified) == Afters(view.split) == Numbered(Side(lines, '+'), newStart)
    && Unchanged(view.unified) == Unchanged(view.split) && Kept(view.unified) == Context(lines)
    && Aligned(view.unified) && Aligned(view.split)
    && |view.split| == Height(lines, 0, 0)
    && |view.split| <= |view.unified|
    && InOrder(view.unified, lines, |lines|, oldStart, newStart)
    && TopAligned(view.split)
  }

  /** Where the parser stands after some lines. */
  ghost predicate Parsed(
    lines: seq<string>, i: nat, oldStart: int, newStart: int,
    unified: seq<Row>, split: seq<Row>, removed: seq<Line>, added: seq<Line>)
    requires i <= |lines|
  {
    && Befores(unified) == Befores(split) + removed == Numbered(Side(lines[..i], '-'), oldStart)
    && Afters(unified) == Afters(split) + added == Numbered(Side(lines[..i], '+'), newStart)
    && Unchanged(unified) == Unchanged(split) && Kept(unified) == Context(lines[..i])
    && Aligned(unified) && Aligned(split)
    && Sized(lines, i, |unified|, |split|, |removed|, |added|)
  }

  predicate Sized(lines: seq<string>, i: nat, unified: nat, split: nat, removed: nat, added: nat)
    requires i <= |lines|
  {
    && split + Height(lines[i..], removed, added) == Height(lines, 0, 0)
    && split + removed + added <= unified
  }

  lemma SizedContext(lines: seq<string>, i: nat, unified: nat, split: nat, removed: nat, added: nat)
    requires i < |lines| && Starts(lines[i], ' ') && Sized(lines, i, unified, split, removed, added)
    ensures Sized(lines, i + 1, unified + 1, split + Max(removed, added) + 1, 0, 0)
  {
    HeightStep(lines, i, removed, added);
  }

  lemma ParsedRemoval(
    lines: seq<string>, i: nat, oldStart: int, newStart: int,
    unified: seq<Row>, split: seq<Row>, removed: seq<Line>, added: seq<Line>, entry: Line)
    requires i < |lines| && Parsed(lines, i, oldStart, newStart, unified, split, removed, added)
    requires Starts(lines[i], '-') && entry == Line(oldStart + |Side(lines[..i], '-')|, Text(lines[i]))
    ensures Parsed(lines, i + 1, oldStart, newStart, unified + [Row(Some(entry), None, true)], split, removed + [entry], added)
  {
    SideStep(lines, i, '-', oldStart);
    SideStep(lines, i, '+', newStart);
    ContextStep(lines, i);
    HeightStep(lines, i, |removed|, |added|);
    AppendedOne(unified, Row(Some(entry), None, true));
  }

  lemma ParsedAddition(
    lines: seq<string>, i: nat, oldStart: int, newStart: int,
    unified: seq<Row>, split: seq<Row>, removed: seq<Line>, added: seq<Line>, entry: Line)
    requires i < |lines| && Parsed(lines, i, oldStart, newStart, unified, split, removed, added)
    requires Starts(lines[i], '+') && entry == Line(newStart + |Side(lines[..i], '+')|, Text(lines[i]))
    ensures Parsed(lines, i + 1, oldStart, newStart, unified + [Row(None, Some(entry), true)], split, removed, added + [entry])
  {
    SideStep(lines, i, '-', oldStart);
    SideStep(lines, i, '+', newStart);
    ContextStep(lines, i);
    HeightStep(lines, i, |removed|, |added|);
    AppendedOne(unified, Row(None, Some(entry), true));
  }

  /** `flushed` is the split view with the pending block in it. */
  lemma ParsedContext(
    lines: seq<string>, i: nat, oldStart: int, newStart: int,
    unified: seq<Row>, split: seq<Row>, removed: seq<Line>, added: seq<Line>, flushed: seq<Row>, b: Line, a: Line)
    requires i < |lines| && Parsed(lines, i, oldStart, newStart, unified, split, removed, added) && Starts(lines[i], ' ')
    requires Befores(flushed) == Befores(split) + removed && Afters(flushed) == Afters(split) + added
    requires Unchanged(flushed) == Unchanged(split) && Aligned(flushed)
    requires |flushed| == |split| + Max(|removed|, |added|)
    requires b == Line(oldStart + |Side(lines[..i], '-')|, Text(lines[i]))
    requires a == Line(newStart + |Side(lines[..i], '+')|, Text(lines[i]))
    ensures var row := Row(Some(b), Some(a), false);
            Parsed(lines, i + 1, oldStart, newStart, unified + [row], flushed + [row], [], [])
  {
    SideStep(lines, i, '-', oldStart);
    SideStep(lines, i, '+', newStart);
    ContextStep(lines, i);
    SizedContext(lines, i, |unified|, |split|, |removed|, |added|);
    assert Numbered(Side(lines[..i + 1], '-'), oldStart) == Befores(unified) + [b];
    assert Numbered(Side(lines[..i + 1], '+'), newStart) == Afters(unified) + [a];
    BothEnd(unified, flushed, Row(Some(b), Some(a), false));
  }

  /** A context row at the end of two views that show the same. */
  lemma BothEnd(unified: seq<Row>, flushed: seq<Row>, row: Row)
    requires Befores(unified) == Befores(flushed) && Afters(unified) == Afters(flushed)
    requires Unchanged(unified) == Unchanged(flushed) && Aligned(unified) && Aligned(flushed)
    requires !row.changed && row.before.Some? && row.after.Some? && row.before.value.text == row.after.value.text
    ensures Befores(unified + [row]) == Befores(flushed + [row]) + [] == Befores(unified) + [row.before.value]
    ensures Afters(unified + [row]) == Afters(flushed + [row]) + [] == Afters(unified) + [row.after.value]
    ensures Unchanged(unified + [row]) == Unchanged(flushed + [row])
    ensures Kept(unified + [row]) == Kept(unified) + [row.before.value.text]
    ensures Aligned(unified + [row]) && Aligned(flushed + [row])
  {
    AppendedOne(unified, row);
    AppendedOne(flushed, row);
  }

  lemma ParsedNote(
    lines: seq<string>, i: nat, oldStart: int, newStart: int,
    unified: seq<Row>, split: seq<Row>, removed: seq<Line>, added: seq<Line>)
    requires i < |lines| && Parsed(lines, i, oldStart, newStart, unified, split, removed, added) && Starts(lines[i], '\\')
    ensures Parsed(lines, i + 1, oldStart, newStart, unified, split, removed, added)
  {
    SideStep(lines, i, '-', oldStart);
    SideStep(lines, i, '+', newStart);
    ContextStep(lines, i);
    HeightStep(lines, i, |removed|, |added|);
  }

  /** Everything that holds between two lines. */
  ghost predicate Reads(
    lines: seq<string>, i: nat, oldStart: int, newStart: int, before: int, after: int,
    view: View, removed: seq<Line>, added: seq<Line>)
    requires i <= |lines|
  {
    && before == oldStart + |Side(lines[..i], '-')| && after == newStart + |Side(lines[..i], '+')|
    && Parsed(lines, i, oldStart, newStart, view.unified, view.split, removed, added)
    && InOrder(view.unified, lines, i, oldStart, newStart) && TopAligned(view.split) && Settled(view.split)
  }

  lemma CountStep(lines: seq<string>, i: nat, mark: char)
    requires i < |lines|
    ensures |Side(lines[..i + 1], mark)| == |Side(lines[..i], mark)| + if Starts(lines[i], mark) || Starts(lines[i], ' ') then 1 else 0
  {
    SideStep(lines, i, mark, 0);
  }

  lemma ReadsRemoval(
    lines: seq<string>, i: nat, oldStart: int, newStart: int, before: int, after: int, view: View, removed: seq<Line>, added: seq<Line>)
    requires i < |lines| && Reads(lines, i, oldStart, newStart, before, after, view, removed, added) && Starts(lines[i], '-')
    ensures var entry := Line(before, Text(lines[i]));
            Reads(lines, i + 1, oldStart, newStart, before + 1, after,
                  view.(unified := view.unified + [Row(Some(entry), None, true)]), removed + [entry], added)
  {
    var entry := Line(before, Text(lines[i]));
    CountStep(lines, i, '-');
    CountStep(lines, i, '+');
    InOrderNext(view.unified, lines, i, oldStart, newStart, Row(Some(entry), None, true));
    ParsedRemoval(lines, i, oldStart, newStart, view.unified, view.split, removed, added, entry);
  }

  lemma ReadsAddition(
    lines: seq<string>, i: nat, oldStart: int, newStart: int, before: int, after: int, view: View, removed: seq<Line>, added: seq<Line>)
    requires i < |lines| && Reads(lines, i, oldStart, newStart, before, after, view, removed, added) && Starts(lines[i], '+')
    ensures var entry := Line(after, Text(lines[i]));
            Reads(lines, i + 1, oldStart, newStart, before, after + 1,
                  view.(unified := view.unified + [Row(None, Some(entry), true)]), removed, added + [entry])
  {
    var entry := Line(after, Text(lines[i]));
    CountStep(lines, i, '-');
    CountStep(lines, i, '+');
    InOrderNext(view.unified, lines, i, oldStart, newStart, Row(None, Some(entry), true));
    ParsedAddition(lines, i, oldStart, newStart, view.unified, view.split, removed, added, entry);
  }

  /** `flushed` is the split view with the pending block in it. */
  lemma ReadsContext(
    lines: seq<string>, i: nat, oldStart: int, newStart: int, before: int, after: int, view: View, removed: seq<Line>, added: seq<Line>,
    flushed: seq<Row>)
    requires i < |lines| && Reads(lines, i, oldStart, newStart, before, after, view, removed, added) && Starts(lines[i], ' ')
    requires Befores(flushed) == Befores(view.split) + removed && Afters(flushed) == Afters(view.split) + added
    requires Unchanged(flushed) == Unchanged(view.split) && Aligned(flushed) && TopAligned(flushed)
    requires |flushed| == |view.split| + Max(|removed|, |added|)
    ensures var row := Row(Some(Line(before, Text(lines[i]))), Some(Line(after, Text(lines[i]))), false);
            Reads(lines, i + 1, oldStart, newStart, before + 1, after + 1, View(view.unified + [row], flushed + [row]), [], [])
  {
    var b, a := Line(before, Text(lines[i])), Line(after, Text(lines[i]));
    CountStep(lines, i, '-');
    CountStep(lines, i, '+');
    InOrderNext(view.unified, lines, i, oldStart, newStart, Row(Some(b), Some(a), false));
    ParsedContext(lines, i, oldStart, newStart, view.unified, view.split, removed, added, flushed, b, a);
    TopAlignedNext(flushed, Row(Some(b), Some(a), false));
  }

  lemma ReadsNote(
    lines: seq<string>, i: nat, oldStart: int, newStart: int, before: int, after: int, view: View, removed: seq<Line>, added: seq<Line>)
    requires i < |lines| && Reads(lines, i, oldStart, newStart, before, after, view, removed, added) && Starts(lines[i], '\\')
    ensures Reads(lines, i + 1, oldStart, newStart, before, after, view, removed, added)
  {
    CountStep(lines, i, '-');
    CountStep(lines, i, '+');
    InOrderNext(view.unified, lines, i, oldStart, newStart, Row(None, None, true));
    ParsedNote(lines, i, oldStart, newStart, view.unified, view.split, removed, added);
  }

  lemma ReadsAll(
    lines: seq<string>, oldStart: int, newStart: int, before: int, after: int, view: View, removed: seq<Line>, added: seq<Line>,
    flushed: seq<Row>)
    requires Reads(lines, |lines|, oldStart, newStart, before, after, view, removed, added)
    requires Befores(flushed) == Befores(view.split) + removed && Afters(flushed) == Afters(view.split) + added
    requires Unchanged(flushed) == Unchanged(view.split) && Aligned(flushed) && TopAligned(flushed)
    requires |flushed| == |view.split| + Max(|removed|, |added|)
    ensures Shows(view.(split := flushed), lines, oldStart, newStart)
  {
    assert lines[..|lines|] == lines && lines[|lines|..] == [];
  }

  /** What the parser has so far: the numbers of the next lines, both views, and the
      block of changes that is still open. */
  datatype Progress = Progress(before: int, after: int, unified: seq<Row>, split: seq<Row>, removed: seq<Line>, added: seq<Line>)

  ghost predicate Reading(p: Progress, lines: seq<string>, i: nat, oldStart: int, newStart: int)
    requires i <= |lines|
  {
    Reads(lines, i, oldStart, newStart, p.before, p.after, View(p.unified, p.split), p.removed, p.added)
  }

  /** The parser takes one line. */
  method TakeLine(p: Progress, line: string, ghost lines: seq<string>, ghost i: nat, ghost oldStart: int, ghost newStart: int)
    returns (next: Option<Progress>)
    requires i < |lines| && line == lines[i] && Reading(p, lines, i, oldStart, newStart)
    ensures next.Some? <==> Supported(line)
    ensures next.Some? ==> Reading(next.value, lines, i + 1, oldStart, newStart)
  {
    ghost var view := View(p.unified, p.split);
    var text := Text(line);
    if Starts(line, '-') {
      ReadsRemoval(lines, i, oldStart, newStart, p.before, p.after, view, p.removed, p.added);
      var entry := Line(p.before, text);
      next := Some(p.(before := p.before + 1, removed := p.removed + [entry], unified := p.unified + [Row(Some(entry), None, true)]));
    } else if Starts(line, '+') {
      ReadsAddition(lines, i, oldStart, newStart, p.before, p.after, view, p.removed, p.added);
      var entry := Line(p.after, text);
      next := Some(p.(after := p.after + 1, added := p.added + [entry], unified := p.unified + [Row(None, Some(entry), true)]));
    } else if Starts(line, ' ') {
      var flushed := Flush(p.split, p.removed, p.added);
      ReadsContext(lines, i, oldStart, newStart, p.before, p.after, view, p.removed, p.added, flushed);
      var row := Row(Some(Line(p.before, text)), Some(Line(p.after, text)), false);
      next := Some(Progress(p.before + 1, p.after + 1, p.unified + [row], flushed + [row], [], []));
    } else if Starts(line, '\\') {
      ReadsNote(lines, i, oldStart, newStart, p.before, p.after, view, p.removed, p.added);
      next := Some(p);
    } else {
      next := None;
    }
  }

  lemma ReadsNothing(lines: seq<string>, oldStart: int, newStart: int)
    ensures Reading(Progress(oldStart, newStart, [], [], [], []), lines, 0, oldStart, newStart)
  {
    assert lines[0..] == lines;
  }

  method ParseHunk(lines: seq<string>, oldStart: int, newStart: int) returns (view: Option<View>)
    ensures view.Some? <==> forall line :: line in lines ==> Supported(line)
    ensures view.Some? ==> Shows(view.value, lines, oldStart, newStart)
  {
    var p := Progress(oldStart, newStart, [], [], [], []);
    ReadsNothing(lines, oldStart, newStart);
    for i := 0 to |lines|
      invariant forall k :: 0 <= k < i ==> Supported(lines[k])
      invariant Reading(p, lines, i, oldStart, newStart)
    {
      var next := TakeLine(p, lines[i], lines, i, oldStart, newStart);
      if next.None? {
        assert lines[i] in lines;
        return None;
      }
      p := next.value;
    }
    var flushed := Flush(p.split, p.removed, p.added);
    ReadsAll(lines, oldStart, newStart, p.before, p.after, View(p.unified, p.split), p.removed, p.added, flushed);
    view := Some(View(p.unified, flushed));
  }
}
