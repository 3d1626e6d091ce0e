/** The path algebra of the file views, over the strings the program handles. */
module Paths {
  import opened Wrappers

  // ----- Splitting and joining -----

  function Split(s: string): (r: seq<string>)
    ensures |r| > 0
  {
    if s == "" then [""]
    else
      var rest := Split(s[1..]);
      if s[0] == '/' then [""] + rest else [[s[0]] + rest[0]] + rest[1..]
  }

  /** `filter(Boolean)` */
  function NonEmpty(parts: seq<string>): seq<string> {
    if parts == [] then []
    else (if parts[0] == "" then [] else [parts[0]]) + NonEmpty(parts[1..])
  }

  function Join(parts: seq<string>): string {
    if parts == [] then ""
    else if |parts| == 1 then parts[0]
    else parts[0] + "/" + Join(parts[1..])
  }

  function Segments(s: string): seq<string> {
    NonEmpty(Split(s))
  }

  predicate Clean(segments: seq<string>) {
    forall i :: 0 <= i < |segments| ==> segments[i] != "" && '/' !in segments[i]
  }

  /** The absolute path of a list of segments. */
  function Absolute(segments: seq<string>): string {
    "/" + Join(segments)
  }

  predicate Normalised(path: string) {
    path == Absolute(Segments(path))
  }

  // ----- The program's functions -----

  /** `slice`, which yields nothing beyond the end. */
  function Slice(s: string, from: nat): string {
    if from <= |s| then s[from..] else ""
  }

  function RemotePath(root: string, path: string): string {
    Absolute(NonEmpty(Split(root) + Split(path)))
  }

  predicate Within(directory: string, path: string) {
    directory == "/" || directory == path || directory + "/" <= path
  }

  function RelativePath(root: string, absolute: string): Option<string> {
    var base := RemotePath(root, "");
    if Within(base, absolute) then Some(Slice(absolute, if base == "/" then 1 else |base| + 1)) else None
  }

  function MovedPath(path: string, source: string, destination: string): string {
    if Within(source, path) then destination + Slice(path, |source|) else path
  }

  // ----- Splitting undoes joining -----

  lemma {:induction false} SplitPieces(s: string)
    ensures forall i :: 0 <= i < |Split(s)| ==> '/' !in Split(s)[i]
  {
    if s != "" {
      SplitPieces(s[1..]);
    }
  }

  lemma {:induction false} NonEmptyPieces(parts: seq<string>)
    requires forall i :: 0 <= i < |parts| ==> '/' !in parts[i]
    ensures Clean(NonEmpty(parts))
  {
    if parts != [] {
      NonEmptyPieces(parts[1..]);
    }
  }

  lemma SegmentsClean(s: string)
    ensures Clean(Segments(s))
  {
    SplitPieces(s);
    NonEmptyPieces(Split(s));
  }

  lemma {:induction false} NonEmptyAppend(a: seq<string>, b: seq<string>)
    ensures NonEmpty(a + b) == NonEmpty(a) + NonEmpty(b)
  {
    if a == [] {
      assert a + b == b;
    } else {
      assert (a + b)[1..] == a[1..] + b;
      NonEmptyAppend(a[1..], b);
    }
  }

  lemma {:induction false} SplitPiece(piece: string)
    requires '/' !in piece
    ensures Split(piece) == [piece]
  {
    if piece != "" {
      SplitPiece(piece[1..]);
      assert [piece[0]] + piece[1..] == piece;
    }
  }

  lemma {:induction false} SplitFirst(piece: string, rest: string)
    requires '/' !in piece
    ensures Split(piece + "/" + rest) == [piece] + Split(rest)
  {
    var s := piece + "/" + rest;
    if piece == "" {
      assert s[1..] == rest;
    } else {
      assert s[1..] == piece[1..] + "/" + rest;
      SplitFirst(piece[1..], rest);
      assert [piece[0]] + piece[1..] == piece;
    }
  }

  lemma {:induction false} SegmentsOfJoin(segments: seq<string>)
    requires Clean(segments)
    ensures Segments(Join(segments)) == segments
  {
    if |segments| == 1 {
      SplitPiece(segments[0]);
      assert Segments(Join(segments)) == [segments[0]] + NonEmpty([]);
    } else if |segments| > 1 {
      SplitFirst(segments[0], Join(segments[1..]));
      SegmentsOfJoin(segments[1..]);
      var tail := Split(Join(segments[1..]));
      assert ([segments[0]] + tail)[1..] == tail;
    }
  }

  lemma SegmentsOfAbsolute(segments: seq<string>)
    requires Clean(segments)
    ensures Segments(Absolute(segments)) == segments
    ensures Normalised(Absolute(segments))
  {
    SegmentsOfJoin(segments);
    assert Absolute(segments)[1..] == Join(segments);
    assert ([""] + Split(Join(segments)))[1..] == Split(Join(segments));
  }

  /** `remotePath` is concatenation of segments, and always normalised. */
  lemma RemotePathSegments(root: string, path: string)
    ensures RemotePath(root, path) == Absolute(Segments(root) + Segments(path))
    ensures Segments(RemotePath(root, path)) == Segments(root) + Segments(path)
    ensures Normalised(RemotePath(root, path))
  {
    NonEmptyAppend(Split(root), Split(path));
    SegmentsClean(root);
    SegmentsClean(path);
    SegmentsOfAbsolute(Segments(root) + Segments(path));
  }

  // ----- Containment is the prefix order on segments -----

  lemma {:induction false} JoinAppend(a: seq<string>, b: seq<string>)
    requires a != [] && b != []
    ensures Join(a + b) == Join(a) + "/" + Join(b)
  {
    if |a| == 1 {
      assert (a + b)[1..] == b;
    } else {
      assert (a + b)[1..] == a[1..] + b;
      JoinAppend(a[1..], b);
    }
  }

  lemma {:induction false} JoinPrefix(a: seq<string>, b: seq<string>)
    requires Clean(a) && Clean(b) && a != []
    requires Join(a) + "/" <= Join(b)
    ensures a <= b
  {
    assert b != [];
    var xs, ys := if |a| == 1 then "" else Join(a[1..]), if |b| == 1 then "" else Join(b[1..]);
    FirstPiece(a[0], xs, b[0], ys, |a| == 1, |b| == 1);
    if |a| > 1 {
      RestPrefix(a[0], xs, ys);
      JoinPrefix(a[1..], b[1..]);
      assert a == [a[0]] + a[1..] && b == [b[0]] + b[1..];
    }
  }

  lemma RestPrefix(piece: string, xs: string, ys: string)
    requires (piece + "/" + xs) + "/" <= piece + "/" + ys
    ensures xs + "/" <= ys
  {
    var n := |piece| + 1;
    var long, short := piece + "/" + ys, (piece + "/" + xs) + "/";
    assert short[n..] == xs + "/" && long[n..] == ys;
    assert short == long[..|short|];
    assert short[n..] == long[n..][..|short| - n];
  }

  /** Pieces without a separator are delimited by the first separator. */
  lemma FirstPiece(x: string, xs: string, y: string, ys: string, lastX: bool, lastY: bool)
    requires '/' !in x && '/' !in y
    requires (if lastX then x else x + "/" + xs) + "/" <= (if lastY then y else y + "/" + ys)
    ensures x == y && !lastY
  {
    var long := if lastY then y else y + "/" + ys;
    var short := (if lastX then x else x + "/" + xs) + "/";
    assert forall i :: 0 <= i < |x| ==> short[i] == x[i];
    assert forall i :: 0 <= i < |y| ==> long[i] == y[i];
    assert short[|x|] == long[|x|] == '/';
    assert !lastY ==> long[|y|] == '/';
    assert |y| <= |x| && !lastY;
    assert |x| <= |y|;
    assert x == short[..|x|] == long[..|x|] == y;
  }

  lemma WithinIsPrefix(a: seq<string>, b: seq<string>)
    requires Clean(a) && Clean(b)
    ensures Within(Absolute(a), Absolute(b)) <==> a <= b
  {
    if a == [] {
      assert Absolute(a) == "/";
    } else if a == b {
    } else if a <= b {
      var rest := b[|a|..];
      assert b == a + rest;
      JoinAppend(a, rest);
      assert Absolute(b) == Absolute(a) + "/" + Join(rest);
    } else {
      if Absolute(a) == Absolute(b) {
        SegmentsOfAbsolute(a);
        SegmentsOfAbsolute(b);
      }
      assert Absolute(a) != "/" by {
        SegmentsOfAbsolute(a);
        SegmentsOfAbsolute([]);
        assert Absolute([]) == "/";
      }
      if Absolute(a) + "/" <= Absolute(b) {
        assert (Absolute(a) + "/")[1..] == Join(a) + "/";
        assert Absolute(b)[1..] == Join(b);
        JoinPrefix(a, b);
      }
    }
  }

  /** `relativePath` strips the root, and `remotePath` puts it back. */
  lemma RelativePathSegments(root: string, absolute: string)
    requires Normalised(absolute)
    ensures RelativePath(root, absolute).Some? <==> Segments(root) <= Segments(absolute)
    ensures RelativePath(root, absolute).Some? ==> RemotePath(root, RelativePath(root, absolute).value) == absolute
  {
    var a, b := Segments(root), Segments(absolute);
    RemotePathSegments(root, "");
    assert a + Segments("") == a;
    SegmentsClean(root);
    SegmentsClean(absolute);
    WithinIsPrefix(a, b);
    if a <= b {
      var rest := b[|a|..];
      assert b == a + rest;
      assert Clean(rest);
      AbsoluteSuffix(a, rest);
      assert RelativePath(root, absolute) == Some(Join(rest));
      SegmentsOfJoin(rest);
      RemotePathSegments(root, Join(rest));
    }
  }

  /** What is left of an absolute path when a leading directory is cut off. */
  lemma AbsoluteSuffix(a: seq<string>, rest: seq<string>)
    requires Clean(a) && Clean(rest)
    ensures a == [] ==> Absolute(a + rest)[1..] == Join(rest)
    ensures a != [] ==> |Absolute(a)| > 1
    ensures a != [] && rest == [] ==> Absolute(a + rest) == Absolute(a)
    ensures a != [] && rest != [] ==> |Join(rest)| > 0 && Absolute(a + rest) == Absolute(a) + "/" + Join(rest)
  {
    if a == [] {
      assert a + rest == rest;
    } else {
      assert |Join(a)| >= |a[0]| > 0;
      if rest == [] {
        assert a + rest == a;
      } else {
        JoinAppend(a, rest);
        assert |Join(rest)| >= |rest[0]| > 0;
      }
    }
  }

  /** `movedPath` replaces the leading segments exactly when the moved path is the
      source itself or source and destination are both, or neither, the root. */
  lemma MovedPathSegments(path: seq<string>, source: seq<string>, destination: seq<string>)
    requires Clean(path) && Clean(source) && Clean(destination)
    requires source <= path
    ensures MovedPath(Absolute(path), Absolute(source), Absolute(destination)) == Absolute(destination + path[|source|..])
            <==> path == source || (source == [] <==> destination == [])
  {
    WithinIsPrefix(source, path);
    var rest := path[|source|..];
    assert path == source + rest;
    AbsoluteSuffix(source, rest);
    AbsoluteSuffix(destination, rest);
    var moved := MovedPath(Absolute(path), Absolute(source), Absolute(destination));
    if rest == [] {
      assert moved == Absolute(destination) && destination + rest == destination;
    } else if source == [] {
      assert moved == Absolute(destination) + Join(rest);
      if destination == [] {
        assert destination + rest == rest;
      } else {
        assert |moved| + 1 == |Absolute(destination + rest)|;
      }
    } else {
      assert moved == Absolute(destination) + "/" + Join(rest);
      if destination == [] {
        assert destination + rest == rest;
        assert |moved| == |Absolute(rest)| + 1;
      }
    }
  }
}
