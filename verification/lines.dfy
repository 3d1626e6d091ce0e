/** Byte streams as records that end with a newline. */
module Lines {
  import opened Wrappers

  const NEWLINE: byte := 10

  predicate OneLine(bytes: Bytes) {
    NEWLINE !in bytes
  }

  /** The records of a stream, without their newlines. */
  function Records(stream: Bytes): seq<Bytes> {
    if stream == [] then []
    else if stream[0] == NEWLINE then [[]] + Records(stream[1..])
    else
      var rest := Records(stream[1..]);
      if rest == [] then [] else [[stream[0]] + rest[0]] + rest[1..]
  }

  /** What follows the last newline. */
  function Remainder(stream: Bytes): Bytes {
    if OneLine(stream) then stream else Remainder(stream[1..])
  }

  /** What stands in front of the first newline. */
  function Line(stream: Bytes): (line: Bytes)
    requires !OneLine(stream)
    ensures OneLine(line) && |line| < |stream|
    ensures line == stream[..|line|] && stream[|line|] == NEWLINE
  {
    if stream[0] == NEWLINE then [] else [stream[0]] + Line(stream[1..])
  }

  lemma LineOf(line: Bytes, rest: Bytes)
    requires OneLine(line)
    ensures !OneLine(line + [NEWLINE] + rest) && Line(line + [NEWLINE] + rest) == line
    ensures (line + [NEWLINE] + rest)[|line| + 1..] == rest
  {
    var stream := line + [NEWLINE] + rest;
    assert stream[|line|] == NEWLINE;
    var found := Line(stream);
    assert forall i :: 0 <= i < |line| ==> stream[i] == line[i];
    assert forall i :: 0 <= i < |found| ==> found[i] == stream[i];
  }

  function Join(records: seq<Bytes>): Bytes {
    if records == [] then [] else records[0] + [NEWLINE] + Join(records[1..])
  }

  lemma {:induction false} NoRecords(stream: Bytes)
    ensures Records(stream) == [] <==> OneLine(stream)
  {
    if stream != [] {
      NoRecords(stream[1..]);
    }
  }

  lemma {:induction false} FirstRecord(line: Bytes, rest: Bytes)
    requires OneLine(line)
    ensures Records(line + [NEWLINE] + rest) == [line] + Records(rest)
    ensures Remainder(line + [NEWLINE] + rest) == Remainder(rest)
  {
    var stream := line + [NEWLINE] + rest;
    assert stream[|line|] == NEWLINE;
    if line == [] {
      assert stream[1..] == rest;
    } else {
      FirstRecord(line[1..], rest);
      assert stream[1..] == line[1..] + [NEWLINE] + rest;
      assert [stream[0]] + line[1..] == line;
    }
  }

  /** Splitting is the only way to take a stream apart into records and a remainder. */
  lemma {:induction false} SplitUnique(records: seq<Bytes>, tail: Bytes)
    requires (forall r :: r in records ==> OneLine(r)) && OneLine(tail)
    ensures Records(Join(records) + tail) == records
    ensures Remainder(Join(records) + tail) == tail
  {
    if records == [] {
      assert Join(records) + tail == tail;
      NoRecords(tail);
    } else {
      SplitUnique(records[1..], tail);
      FirstRecord(records[0], Join(records[1..]) + tail);
      assert Join(records) + tail == records[0] + [NEWLINE] + (Join(records[1..]) + tail);
    }
  }

  /** Splitting loses nothing. */
  lemma {:induction false} SplitJoins(stream: Bytes)
    ensures stream == Join(Records(stream)) + Remainder(stream)
    ensures OneLine(Remainder(stream)) && forall r :: r in Records(stream) ==> OneLine(r)
    decreases |stream|
  {
    NoRecords(stream);
    if !OneLine(stream) {
      var line := Line(stream);
      var rest := stream[|line| + 1..];
      assert stream == line + [NEWLINE] + rest;
      FirstRecord(line, rest);
      SplitJoins(rest);
      assert ([line] + Records(rest))[1..] == Records(rest);
    }
  }
}
