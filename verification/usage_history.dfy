/** Reading the last usage report of a session log from its end. */
module UsageHistory {
  import opened Wrappers
  import opened Lines

  const CHUNK: nat := 64 * 1024
  const MAX_RECORD: nat := 1024 * 1024

  /** The buffer of the scan never outgrows the bound. */
  type Record = r: Bytes | |r| <= MAX_RECORD witness []

  // ----- What the reader looks for -----

  /** The report of one record; parsing is a parameter. */
  function Reported<U>(record: Bytes, report: Bytes -> Option<U>): Option<U> {
    if |record| <= MAX_RECORD then report(record) else None
  }

  /** The report of the last record that has one, the first record excepted. */
  function LastReport<U>(records: seq<Bytes>, report: Bytes -> Option<U>): Option<U> {
    if |records| <= 1 then None
    else
      var n := |records| - 1;
      var usage := Reported(records[n], report);
      if usage.Some? then usage else LastReport(records[..n], report)
  }

  lemma {:induction false} LastReportIff<U>(records: seq<Bytes>, report: Bytes -> Option<U>, usage: U)
    ensures LastReport(records, report) == Some(usage) <==>
              exists k :: && 1 <= k < |records| && Reported(records[k], report) == Some(usage)
                          && forall l :: k < l < |records| ==> Reported(records[l], report).None?
  {
    if |records| > 1 {
      var n := |records| - 1;
      LastReportIff(records[..n], report, usage);
      if k :| && 1 <= k < n && Reported(records[k], report) == Some(usage)
              && forall l :: k < l <= n ==> Reported(records[l], report).None? {
        assert records[..n][k] == records[k];
      }
      if k :| && 1 <= k < n && Reported(records[..n][k], report) == Some(usage)
              && forall l :: k < l < n ==> Reported(records[..n][l], report).None? {
        assert forall l :: k < l < n ==> records[l] == records[..n][l];
      }
    }
  }

  /** In front of more records, the first one counts too. */
  lemma {:induction false} LastReportCons<U>(first: Bytes, records: seq<Bytes>, report: Bytes -> Option<U>)
    ensures LastReport([first] + records, report) ==
              if LastReport(records, report).Some? || records == [] then LastReport(records, report)
              else Reported(records[0], report)
  {
    var all := [first] + records;
    if |records| <= 1 {
      if |records| == 1 {
        assert all[1] == records[0];
        assert LastReport(all[..1], report).None?;
      }
    } else {
      var n := |records| - 1;
      assert all[..n + 1] == [first] + records[..n] && all[n + 1] == records[n];
      LastReportCons(first, records[..n], report);
    }
  }

  lemma {:induction false} LastReportSkipsFirst<U>(first: Bytes, second: Bytes, records: seq<Bytes>, report: Bytes -> Option<U>)
    ensures LastReport([first] + records, report) == LastReport([second] + records, report)
  {
    LastReportCons(first, records, report);
    LastReportCons(second, records, report);
  }

  // ----- The scan -----

  function Reversed(s: Bytes): (r: Bytes)
    ensures |r| == |s|
  {
    if s == [] then [] else Reversed(s[1..]) + [s[0]]
  }

  lemma {:induction false} ReversedTwice(s: Bytes)
    ensures Reversed(Reversed(s)) == s
  {
    if s != [] {
      ReversedTwice(s[1..]);
      ReversedSnoc(Reversed(s[1..]), s[0]);
    }
  }

  lemma {:induction false} ReversedSnoc(s: Bytes, b: byte)
    ensures Reversed(s + [b]) == [b] + Reversed(s)
  {
    if s == [] {
      assert Reversed([b]) == [b];
    } else {
      ReversedSnoc(s[1..], b);
      assert (s + [b])[1..] == s[1..] + [b];
    }
  }

  /** The state of the scan after it has seen this end of the file. */
  ghost predicate Scanned<U>(seen: Bytes, record: Bytes, complete: bool, oversized: bool, report: Bytes -> Option<U>) {
    && complete == (Records(seen) != [])
    && oversized == (complete && |Records(seen)[0]| > MAX_RECORD)
    && record == (if !complete || oversized then [] else Reversed(Records(seen)[0]))
    && LastReport(Records(seen), report).None?
  }

  /** A byte that is no newline joins the first record. */
  lemma ScanByte<U>(seen: Bytes, b: byte, record: Bytes, complete: bool, oversized: bool, report: Bytes -> Option<U>)
    requires Scanned(seen, record, complete, oversized, report) && b != NEWLINE
    ensures var full := complete && !oversized && |record| == MAX_RECORD;
            Scanned([b] + seen,
                    if complete && !oversized && !full then record + [b] else if full then [] else record,
                    complete, oversized || full, report)
  {
    assert ([b] + seen)[1..] == seen;
    if complete {
      var rest := Records(seen);
      LastReportSkipsFirst(rest[0], [b] + rest[0], rest[1..], report);
      assert [rest[0]] + rest[1..] == rest;
      assert ([b] + rest[0])[1..] == rest[0];
    }
  }

  /** A newline makes the first record a candidate. */
  lemma ScanNewline<U>(seen: Bytes, record: Bytes, complete: bool, oversized: bool, report: Bytes -> Option<U>)
    requires Scanned(seen, record, complete, oversized, report)
    ensures var usage := if complete && !oversized then report(Reversed(record)) else None;
            if usage.Some? then LastReport(Records([NEWLINE] + seen), report) == usage
            else Scanned([NEWLINE] + seen, [], true, false, report)
  {
    assert ([NEWLINE] + seen)[1..] == seen;
    LastReportCons([], Records(seen), report);
    if complete && !oversized {
      ReversedTwice(Records(seen)[0]);
    }
  }

  /** Bytes in front of a report do not hide it. */
  lemma {:induction false} EarlierBytes<U>(front: Bytes, seen: Bytes, report: Bytes -> Option<U>)
    requires LastReport(Records(seen), report).Some?
    ensures LastReport(Records(front + seen), report) == LastReport(Records(seen), report)
  {
    if front == [] {
      assert front + seen == seen;
    } else {
      EarlierBytes(front[1..], seen, report);
      assert (front + seen)[1..] == front[1..] + seen;
      var rest := Records(front[1..] + seen);
      if front[0] == NEWLINE {
        LastReportCons([], rest, report);
      } else {
        LastReportSkipsFirst(rest[0], [front[0]] + rest[0], rest[1..], report);
        assert [rest[0]] + rest[1..] == rest;
      }
    }
  }

  lemma FoundAt<U>(file: Bytes, at: nat, report: Bytes -> Option<U>)
    requires at <= |file| && LastReport(Records(file[at..]), report).Some?
    ensures LastReport(Records(file), report) == LastReport(Records(file[at..]), report)
  {
    EarlierBytes(file[..at], file[at..], report);
    assert file == file[..at] + file[at..];
  }

  /** One byte of the scan: a report, or the state with that byte seen. */
  method Feed<U>(ghost seen: Bytes, b: byte, before: Record, complete: bool, oversized: bool, report: Bytes -> Option<U>)
    returns (usage: Option<U>, record: Record, complete': bool, oversized': bool)
    requires Scanned(seen, before, complete, oversized, report)
    ensures usage.Some? ==> LastReport(Records([b] + seen), report) == usage
    ensures usage.None? ==> Scanned([b] + seen, record, complete', oversized', report)
  {
    usage, record, complete', oversized' := None, before, complete, oversized;
    if b == NEWLINE {
      ScanNewline(seen, before, complete, oversized, report);
      if complete && !oversized {
        usage := report(Reversed(record));
      }
      record := [];
      oversized' := false;
      complete' := true;
    } else {
      ScanByte(seen, b, before, complete, oversized, report);
      if complete && !oversized {
        if |record| == MAX_RECORD {
          record := [];
          oversized' := true;
        } else {
          record := record + [b];
        }
      }
    }
  }

  /** The bytes of a chunk, the last one first. */
  method ScanChunk<U>(
    ghost file: Bytes, ghost position: nat, chunk: array<byte>, length: nat,
    before: Record, completed: bool, exceeded: bool, report: Bytes -> Option<U>)
    returns (usage: Option<U>, record: Record, complete: bool, oversized: bool)
    requires length <= chunk.Length && position + length <= |file|
    requires forall k :: 0 <= k < length ==> chunk[k] == file[position + k]
    requires Scanned(file[position + length..], before, completed, exceeded, report)
    ensures usage.Some? ==> LastReport(Records(file), report) == usage
    ensures usage.None? ==> Scanned(file[position..], record, complete, oversized, report)
  {
    usage, record, complete, oversized := None, before, completed, exceeded;
    var i := length;
    while i > 0
      invariant 0 <= i <= length && usage.None?
      invariant Scanned(file[position + i..], record, complete, oversized, report)
    {
      i := i - 1;
      assert file[position + i..] == [chunk[i]] + file[position + i + 1..];
      usage, record, complete, oversized :=
        Feed(file[position + i + 1..], chunk[i], record, complete, oversized, report);
      if usage.Some? {
        FoundAt(file, position + i, report);
        return;
      }
    }
  }

  /** Scanning backwards finds the last report, whatever the size of the chunks. */
  method Scan<U>(file: Bytes, size: nat, report: Bytes -> Option<U>) returns (usage: Option<U>)
    requires size > 0
    ensures usage == LastReport(Records(file), report)
  {
    var position := |file|;
    var chunk := new byte[size];
    var record: Record := [];
    var complete, oversized := false, false;
    while position > 0
      invariant 0 <= position <= |file|
      invariant Scanned(file[position..], record, complete, oversized, report)
    {
      var length := if position < size then position else size;
      position := position - length;
      ReadExact(file, position, chunk, length);
      usage, record, complete, oversized :=
        ScanChunk(file, position, chunk, length, record, complete, oversized, report);
      if usage.Some? {
        return;
      }
    }
    assert file[0..] == file;
    usage := None;
  }

  method ReadExact(file: Bytes, position: nat, chunk: array<byte>, length: nat)
    requires length <= chunk.Length && position + length <= |file|
    modifies chunk
    ensures forall k :: 0 <= k < length ==> chunk[k] == file[position + k]
  {
    for i := 0 to length
      invariant forall k :: 0 <= k < i ==> chunk[k] == file[position + k]
    {
      chunk[i] := file[position + i];
    }
  }

  // ----- Which files are read -----

  /** A path is the sequence of its components, links resolved. */
  type Path = seq<string>

  predicate Recorded(home: Path, path: Path) {
    home + ["sessions"] <= path || home + ["archived_sessions"] <= path
  }

  /** What is read while the first line lasts, at most one byte too many. */
  method ReadFirst(file: Bytes) returns (first: Bytes)
    ensures first <= file
    ensures |first| <= MAX_RECORD && first != [] && first[|first| - 1] == NEWLINE <==>
              Records(file) != [] && |Records(file)[0]| + 1 <= MAX_RECORD
    ensures Records(file) != [] && |Records(file)[0]| + 1 <= MAX_RECORD ==> first == Records(file)[0] + [NEWLINE]
  {
    var n := 0;
    while n < |file| && n < MAX_RECORD + 1 && (n == 0 || file[n - 1] != NEWLINE)
      invariant n <= |file| && n <= MAX_RECORD + 1
      invariant n > 0 ==> OneLine(file[..n - 1])
      decreases |file| - n
    {
      if n > 0 {
        assert file[..n] == file[..n - 1] + [file[n - 1]];
      }
      n := n + 1;
    }
    first := file[..n];
    if n > 0 && file[n - 1] == NEWLINE {
      FirstRecord(file[..n - 1], file[n..]);
      assert file == file[..n - 1] + [NEWLINE] + file[n..];
    } else {
      assert OneLine(first) by {
        assert n > 0 ==> first == file[..n - 1] + [file[n - 1]];
      }
      LongFirst(first, file[n..]);
      assert file == first + file[n..];
      NoRecords(first);
    }
  }

  lemma {:induction false} LongFirst(line: Bytes, rest: Bytes)
    requires OneLine(line)
    ensures Records(line + rest) != [] ==> |Records(line + rest)[0]| >= |line|
    ensures Records(line + rest) == [] <==> Records(rest) == []
  {
    if line == [] {
      assert line + rest == rest;
    } else {
      LongFirst(line[1..], rest);
      assert (line + rest)[1..] == line[1..] + rest;
    }
  }

  /** Reads a log only if it is a file below one of the two directories, and its first
      line is complete, short enough and names the thread. */
  method ReadChecked<U>(
    home: Path, path: Path, isFile: bool, file: Bytes, thread: string,
    session: Bytes -> Option<string>, report: Bytes -> Option<U>) returns (usage: Option<U>)
    ensures usage ==
              if (home + ["sessions"] <= path || home + ["archived_sessions"] <= path) && isFile
                 && Records(file) != [] && |Records(file)[0]| + 1 <= MAX_RECORD
                 && session(Records(file)[0] + [NEWLINE]) == Some(thread)
              then LastReport(Records(file), report) else None
  {
    if !Recorded(home, path) || !isFile {
      return None;
    }
    var first := ReadFirst(file);
    if |first| > MAX_RECORD || first == [] || first[|first| - 1] != NEWLINE {
      return None;
    }
    if session(first) != Some(thread) {
      return None;
    }
    usage := Scan(file, CHUNK, report);
  }

  // ----- What that means for a log that grows -----

  /** A record that is still being written is not seen. */
  lemma UnfinishedTailIgnored<U>(records: seq<Bytes>, tail: Bytes, report: Bytes -> Option<U>)
    requires (forall r :: r in records ==> OneLine(r)) && OneLine(tail)
    ensures LastReport(Records(Join(records) + tail), report) == LastReport(records, report)
  {
    SplitUnique(records, tail);
  }

  lemma {:induction false} JoinAppend(records: seq<Bytes>, last: Bytes)
    ensures Join(records + [last]) == Join(records) + last + [NEWLINE]
  {
    if records == [] {
      assert records + [last] == [last];
      assert Join([last]) == last + [NEWLINE] + Join([]);
    } else {
      JoinAppend(records[1..], last);
      assert (records + [last])[1..] == records[1..] + [last];
    }
  }

  predicate AllOneLine(records: seq<Bytes>) {
    forall r :: r in records ==> OneLine(r)
  }

  lemma LastOf<U>(records: seq<Bytes>, written: Bytes, others: seq<Bytes>, report: Bytes -> Option<U>)
    requires records != [] && |written| <= MAX_RECORD && report(written).Some?
    requires forall r :: r in others ==> |r| > MAX_RECORD || report(r).None?
    ensures LastReport(records + [written] + others, report) == report(written)
  {
    var all, k := records + [written] + others, |records|;
    assert all[k] == written;
    forall l | k < l < |all| ensures Reported(all[l], report).None? {
      assert all[l] == others[l - k - 1] && all[l] in others;
    }
    LastReportIff(all, report, report(written).value);
  }

  /** A report appended to a log is the one that is read, until another follows. */
  lemma AppendedReportIsRead<U>(records: seq<Bytes>, written: Bytes, others: seq<Bytes>, report: Bytes -> Option<U>)
    requires records != [] && forall r :: r in records + [written] + others ==> OneLine(r)
    requires |written| <= MAX_RECORD && report(written).Some?
    requires forall r :: r in others ==> |r| > MAX_RECORD || report(r).None?
    ensures LastReport(Records(Join(records + [written] + others)), report) == report(written)
  {
    var all := records + [written] + others;
    assert AllOneLine(all) by {
      assert forall r :: r in all ==> OneLine(r);
    }
    SplitUnique(all, []);
    assert Join(all) + [] == Join(all);
    LastOf(records, written, others, report);
  }
}
