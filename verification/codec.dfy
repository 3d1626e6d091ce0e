/** Reading and writing frames that end with a newline. */
module Codec {
  import opened Wrappers
  import opened Lines

  const MAX_FRAME: nat := 2 * 1024 * 1024

  /** What one call of `Reader.Next` comes back with. */
  datatype Outcome<+T> = Frame(value: T) | Invalid | Ended | Oversized | Truncated | Abandoned

  // ----- What the whole stream determines -----

  function Decoded<T>(line: Bytes, decode: Bytes -> Option<T>): Outcome<T> {
    match decode(line + [NEWLINE])
    case Some(value) => Frame(value)
    case None => Invalid
  }

  /** What comes back for a stream of which nothing has been delivered. */
  function Answer<T>(stream: Bytes, limit: nat, decode: Bytes -> Option<T>): Outcome<T> {
    if !OneLine(stream) then
      var line := Line(stream);
      if |line| + 1 > limit then Oversized else Decoded(line, decode)
    else if stream == [] then Ended
    else if |stream| > limit then Oversized
    else Truncated
  }

  /** What is still to be delivered then. Only a frame is ever taken away. */
  function Left(stream: Bytes, limit: nat): Bytes {
    if !OneLine(stream) && |Line(stream)| + 1 <= limit then stream[|Line(stream)| + 1..] else stream
  }

  /** A beginning without a newline that is too long already decides. */
  lemma TooLong<T>(start: Bytes, rest: Bytes, limit: nat, decode: Bytes -> Option<T>)
    requires OneLine(start) && |start| > limit
    ensures Answer(start + rest, limit, decode) == Oversized
    ensures Left(start + rest, limit) == start + rest
  {
    if !OneLine(start + rest) {
      var line := Line(start + rest);
      assert forall i :: 0 <= i < |start| ==> (start + rest)[i] == start[i];
      assert |line| >= |start|;
    }
  }

  // ----- The reader -----

  /** A buffered input: `rest` is everything the peer still sends before it closes. */
  class Input {
    var rest: Bytes

    constructor (stream: Bytes)
      ensures rest == stream
    {
      rest := stream;
    }

    /** Some part of what is coming, of any size; empty only at the end. */
    method FillBuf() returns (chunk: Bytes)
      ensures chunk <= rest
      ensures chunk == [] <==> rest == []
    {
      if rest == [] {
        return [];
      }
      var n :| 1 <= n <= |rest|;
      chunk := rest[..n];
    }

    method Consume(count: nat)
      requires count <= |rest|
      modifies this
      ensures rest == old(rest[count..])
    {
      rest := rest[count..];
    }
  }

  method Position(chunk: Bytes) returns (at: Option<nat>)
    ensures at.Some? ==> at.value < |chunk| && chunk[at.value] == NEWLINE && OneLine(chunk[..at.value])
    ensures at.None? ==> OneLine(chunk)
  {
    for i := 0 to |chunk|
      invariant OneLine(chunk[..i])
    {
      if chunk[i] == NEWLINE {
        return Some(i);
      }
    }
    assert chunk[..|chunk|] == chunk;
    at := None;
  }

  class Reader<T> {
    const input: Input
    var bytes: Bytes
    const limit: nat
    const decode: Bytes -> Option<T>

    ghost predicate Valid()
      reads this
    {
      OneLine(bytes) && |bytes| <= limit
    }

    /** Everything that has not been delivered. */
    ghost function Unread(): Bytes
      reads this, input
    {
      bytes + input.rest
    }

    constructor (input: Input, decode: Bytes -> Option<T>)
      ensures Valid() && Unread() == input.rest
      ensures this.input == input && this.limit == MAX_FRAME && this.decode == decode
    {
      this.input := input;
      this.bytes := [];
      this.limit := MAX_FRAME;
      this.decode := decode;
    }

    constructor WithLimit(input: Input, limit: nat, decode: Bytes -> Option<T>)
      ensures Valid() && Unread() == input.rest
      ensures this.input == input && this.limit == limit && this.decode == decode
    {
      this.input := input;
      this.bytes := [];
      this.limit := limit;
      this.decode := decode;
    }

    /** The answer depends only on the stream, not on how it arrives. A call that is
        abandoned while it waits for input changes nothing. */
    method Next() returns (result: Outcome<T>)
      requires Valid()
      modifies this, input
      ensures Valid()
      ensures result == Abandoned ==> Unread() == old(Unread())
      ensures result != Abandoned ==>
                result == Answer(old(Unread()), limit, decode) && Unread() == Left(old(Unread()), limit)
    {
      ghost var stream := Unread();
      while true
        invariant Valid() && Unread() == stream
        decreases |input.rest|
      {
        if * {
          return Abandoned;
        }
        var chunk := input.FillBuf();
        if chunk == [] {
          assert stream == bytes;
          return if bytes == [] then Ended else Truncated;
        }
        var end := Position(chunk);
        var count := if end.Some? then end.value + 1 else |chunk|;
        if |bytes| + count > limit {
          Rejects(chunk, end, count);
          return Oversized;
        }
        ghost var before := bytes;
        bytes := bytes + chunk[..count];
        input.Consume(count);
        assert bytes + input.rest == stream;
        if end.Some? {
          var line := bytes[..|bytes| - 1];
          assert line == before + chunk[..end.value];
          assert bytes == line + [NEWLINE];
          LineOf(line, input.rest);
          assert stream == line + [NEWLINE] + input.rest;
          var value := decode(bytes);
          bytes := [];
          assert Unread() == input.rest;
          return if value.Some? then Frame(value.value) else Invalid;
        }
      }
    }

    lemma Rejects(chunk: Bytes, end: Option<nat>, count: nat)
      requires Valid() && chunk <= input.rest
      requires end.Some? ==> end.value < |chunk| && chunk[end.value] == NEWLINE && OneLine(chunk[..end.value])
      requires end.None? ==> OneLine(chunk)
      requires count == if end.Some? then end.value + 1 else |chunk|
      requires |bytes| + count > limit
      ensures Answer(Unread(), limit, decode) == Oversized && Left(Unread(), limit) == Unread()
    {
      var rest := input.rest;
      if end.Some? {
        var line := bytes + chunk[..end.value];
        LineOf(line, rest[count..]);
        assert Unread() == line + [NEWLINE] + rest[count..];
      } else {
        TooLong(bytes + chunk, rest[|chunk|..], limit, decode);
        assert Unread() == bytes + chunk + rest[|chunk|..];
      }
    }
  }

  // ----- Sequences of calls -----

  /** What is left after that many calls that were not abandoned. */
  function LeftAfter(stream: Bytes, limit: nat, calls: nat): Bytes
    decreases calls
  {
    if calls == 0 then stream else LeftAfter(Left(stream, limit), limit, calls - 1)
  }

  /** The answer of the call after that many others. */
  function AnswerAfter<T>(stream: Bytes, limit: nat, calls: nat, decode: Bytes -> Option<T>): Outcome<T> {
    Answer(LeftAfter(stream, limit, calls), limit, decode)
  }

  predicate Fit(records: seq<Bytes>, limit: nat) {
    forall i :: 0 <= i < |records| ==> |records[i]| + 1 <= limit
  }

  predicate AllOneLine(records: seq<Bytes>) {
    forall i :: 0 <= i < |records| ==> OneLine(records[i])
  }

  lemma JoinFirst(records: seq<Bytes>, tail: Bytes)
    requires records != [] && OneLine(records[0])
    ensures var stream := Join(records) + tail;
            && stream == records[0] + [NEWLINE] + (Join(records[1..]) + tail)
            && !OneLine(stream) && Line(stream) == records[0]
            && stream[|records[0]| + 1..] == Join(records[1..]) + tail
  {
    LineOf(records[0], Join(records[1..]) + tail);
    assert Join(records) + tail == records[0] + [NEWLINE] + (Join(records[1..]) + tail);
  }

  lemma {:induction false} LeftAfterFrames(records: seq<Bytes>, tail: Bytes, limit: nat, calls: nat)
    requires AllOneLine(records) && calls <= |records| && Fit(records[..calls], limit)
    ensures LeftAfter(Join(records) + tail, limit, calls) == Join(records[calls..]) + tail
    decreases calls
  {
    if calls > 0 {
      JoinFirst(records, tail);
      assert records[..calls][0] == records[0];
      assert records[..calls][1..] == records[1..][..calls - 1];
      LeftAfterFrames(records[1..], tail, limit, calls - 1);
      assert records[1..][calls - 1..] == records[calls..];
    } else {
      assert records[0..] == records;
    }
  }

  lemma {:induction false} Stuck(stream: Bytes, limit: nat, calls: nat)
    requires Left(stream, limit) == stream
    ensures LeftAfter(stream, limit, calls) == stream
  {
    if calls > 0 {
      Stuck(stream, limit, calls - 1);
    }
  }

  lemma {:induction false} LeftAfterSum(stream: Bytes, limit: nat, first: nat, second: nat)
    ensures LeftAfter(stream, limit, first + second) == LeftAfter(LeftAfter(stream, limit, first), limit, second)
    decreases first
  {
    if first > 0 {
      LeftAfterSum(Left(stream, limit), limit, first - 1, second);
    }
  }

  lemma StuckAfter(stream: Bytes, limit: nat, first: nat, calls: nat)
    requires first <= calls && Left(LeftAfter(stream, limit, first), limit) == LeftAfter(stream, limit, first)
    ensures LeftAfter(stream, limit, calls) == LeftAfter(stream, limit, first)
  {
    Stuck(LeftAfter(stream, limit, first), limit, calls - first);
    LeftAfterSum(stream, limit, first, calls - first);
    assert first + (calls - first) == calls;
  }

  /** A record that fits is decoded by itself; one that does not blocks the reader. */
  lemma AtRecord<T>(records: seq<Bytes>, tail: Bytes, limit: nat, k: nat, decode: Bytes -> Option<T>)
    requires AllOneLine(records) && k < |records| && Fit(records[..k], limit)
    ensures var left := LeftAfter(Join(records) + tail, limit, k);
            if |records[k]| + 1 <= limit then Answer(left, limit, decode) == Decoded(records[k], decode)
            else Answer(left, limit, decode) == Oversized && Left(left, limit) == left
  {
    LeftAfterFrames(records, tail, limit, k);
    JoinFirst(records[k..], tail);
  }

  /** The first record over the limit is the answer of every later call. */
  lemma OversizedIsSticky<T>(records: seq<Bytes>, tail: Bytes, limit: nat, k: nat, calls: nat, decode: Bytes -> Option<T>)
    requires AllOneLine(records) && k < |records| && Fit(records[..k], limit) && |records[k]| + 1 > limit
    requires k <= calls
    ensures AnswerAfter(Join(records) + tail, limit, calls, decode) == Oversized
  {
    AtRecord(records, tail, limit, k, decode);
    StuckAfter(Join(records) + tail, limit, k, calls);
  }

  /** The number of records before the first that is over the limit. */
  function Fitting(records: seq<Bytes>, limit: nat): (n: nat)
    ensures n <= |records| && Fit(records[..n], limit)
    ensures n < |records| ==> |records[n]| + 1 > limit
  {
    if records == [] || |records[0]| + 1 > limit then 0
    else Fitting(records[1..], limit) + 1
  }

  /** The answers are those of the records in order, each by itself, until one is
      over the limit: from then on that is the answer for ever. */
  lemma AnswersOfRecords<T>(stream: Bytes, limit: nat, calls: nat, decode: Bytes -> Option<T>)
    requires calls < |Records(stream)|
    ensures AnswerAfter(stream, limit, calls, decode) ==
              if Fit(Records(stream)[..calls + 1], limit) then Decoded(Records(stream)[calls], decode) else Oversized
  {
    var records := Records(stream);
    SplitJoins(stream);
    var n := Fitting(records, limit);
    if calls < n {
      assert forall i :: 0 <= i < n ==> records[..n][i] == records[i];
      AtRecord(records, Remainder(stream), limit, calls, decode);
    } else {
      OversizedIsSticky(records, Remainder(stream), limit, n, calls, decode);
      assert records[..calls + 1][n] == records[n];
    }
  }

  lemma AtTail(records: seq<Bytes>, tail: Bytes, limit: nat, calls: nat)
    requires AllOneLine(records) && OneLine(tail) && Fit(records, limit) && calls >= |records|
    ensures LeftAfter(Join(records) + tail, limit, calls) == tail
  {
    var n := |records|;
    LeftAfterFrames(records, tail, limit, n);
    assert Join(records[n..]) + tail == tail;
    StuckAfter(Join(records) + tail, limit, n, calls);
  }

  /** After the last record: the end, or what is wrong with the rest, for ever. */
  lemma AnswersAtTheEnd<T>(stream: Bytes, limit: nat, calls: nat, decode: Bytes -> Option<T>)
    requires Fit(Records(stream), limit) && calls >= |Records(stream)|
    ensures var tail := Remainder(stream);
            AnswerAfter(stream, limit, calls, decode) ==
              if tail == [] then Ended else if |tail| > limit then Oversized else Truncated
  {
    SplitJoins(stream);
    AtTail(Records(stream), Remainder(stream), limit, calls);
  }

  // ----- Writing -----

  class Writer<T> {
    var output: Bytes
    const limit: nat
    const encode: T -> Bytes

    constructor (encode: T -> Bytes)
      ensures output == [] && this.limit == MAX_FRAME && this.encode == encode
    {
      this.output := [];
      this.limit := MAX_FRAME;
      this.encode := encode;
    }

    constructor WithLimit(limit: nat, encode: T -> Bytes)
      ensures output == [] && this.limit == limit && this.encode == encode
    {
      this.output := [];
      this.limit := limit;
      this.encode := encode;
    }

    /** A value over the limit is refused and leaves no trace. */
    method Write(value: T) returns (ok: bool)
      modifies this
      ensures ok <==> |encode(value)| + 1 <= limit
      ensures output == old(output) + Written([value], limit, encode)
    {
      var bytes := encode(value) + [NEWLINE];
      ok := |bytes| <= limit;
      if ok {
        output := output + bytes;
      }
    }
  }

  /** What a series of writes leaves in the stream. */
  function Written<T>(values: seq<T>, limit: nat, encode: T -> Bytes): Bytes {
    if values == [] then []
    else
      (if |encode(values[0])| + 1 <= limit then encode(values[0]) + [NEWLINE] else []) + Written(values[1..], limit, encode)
  }

  /** The values that are not refused. */
  function Accepted<T>(values: seq<T>, limit: nat, encode: T -> Bytes): seq<T> {
    if values == [] then []
    else (if |encode(values[0])| + 1 <= limit then [values[0]] else []) + Accepted(values[1..], limit, encode)
  }

  /** A text that encodes a value has no newline (section 7 of RFC 8259) and, with
      one after it, is decoded as that value. */
  ghost predicate Inverse<T(!new)>(encode: T -> Bytes, decode: Bytes -> Option<T>) {
    forall value :: OneLine(encode(value)) && decode(encode(value) + [NEWLINE]) == Some(value)
  }

  lemma {:induction false} WrittenIsJoin<T>(values: seq<T>, limit: nat, encode: T -> Bytes)
    ensures var accepted := Accepted(values, limit, encode);
            && Written(values, limit, encode) == Join(seq(|accepted|, i requires 0 <= i < |accepted| => encode(accepted[i])))
            && forall value :: value in accepted ==> |encode(value)| + 1 <= limit
  {
    if values != [] {
      WrittenIsJoin(values[1..], limit, encode);
      var accepted := Accepted(values, limit, encode);
      var lines := seq(|accepted|, i requires 0 <= i < |accepted| => encode(accepted[i]));
      var rest := Accepted(values[1..], limit, encode);
      if |encode(values[0])| + 1 <= limit {
        assert lines[1..] == seq(|rest|, i requires 0 <= i < |rest| => encode(rest[i]));
      } else {
        assert accepted == rest;
      }
    }
  }

  /** Whatever is written is read back unchanged and in order, then the stream ends. */
  lemma RoundTrip<T(!new)>(values: seq<T>, limit: nat, encode: T -> Bytes, decode: Bytes -> Option<T>, calls: nat)
    requires Inverse(encode, decode)
    ensures var accepted := Accepted(values, limit, encode);
            AnswerAfter(Written(values, limit, encode), limit, calls, decode) ==
              if calls < |accepted| then Frame(accepted[calls]) else Ended
  {
    WrittenIsJoin(values, limit, encode);
    var accepted := Accepted(values, limit, encode);
    var lines := seq(|accepted|, i requires 0 <= i < |accepted| => encode(accepted[i]));
    var stream := Written(values, limit, encode);
    SplitUnique(lines, []);
    assert Join(lines) + [] == stream;
    assert Fit(lines, limit);
    if calls < |accepted| {
      AnswersOfRecords(stream, limit, calls, decode);
      assert Fit(lines[..calls + 1], limit);
    } else {
      AnswersAtTheEnd(stream, limit, calls, decode);
    }
  }
}
