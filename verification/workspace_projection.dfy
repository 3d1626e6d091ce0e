/** What the projected tree of workspaces shows. */
module WorkspaceProjection {
  import opened Wrappers
  import StableSorting
  import opened Paths
  import opened WorkspaceTree

  // ----- The trie of normalised paths -----

  predicate Proper(segment: string) {
    segment != "" && '/' !in segment
  }

  predicate Occupied(node: Directory) {
    node.workspace.Some? || node.children != []
  }

  /** Every directory is at its path, and below it is nothing but ways to workspaces. */
  ghost predicate Formed(node: Directory, at: seq<string>)
    decreases node
  {
    && Clean(at) && node.path == Absolute(at)
    && (node.workspace.Some? ==> node.workspace.value.path == node.path)
    && forall i :: 0 <= i < |node.children| ==> ChildFormed(node.children[i], at)
  }

  ghost predicate ChildFormed(child: Child, at: seq<string>)
    decreases child
  {
    Proper(child.segment) && Occupied(child.node) && Formed(child.node, at + [child.segment])
  }

  lemma ChildPathAbsolute(at: seq<string>, segment: string)
    requires Clean(at) && Proper(segment)
    ensures ChildPath(Absolute(at), segment) == Absolute(at + [segment]) && Clean(at + [segment])
  {
    AbsoluteSuffix(at, [segment]);
    if at == [] {
      assert at + [segment] == [segment];
    }
  }

  lemma {:induction false} InsertFormed(node: Directory, at: seq<string>, segments: seq<string>, w: Workspace)
    requires Formed(node, at) && Clean(segments) && w.path == Absolute(at + segments)
    ensures Formed(Insert(node, segments, w), at) && Occupied(Insert(node, segments, w))
    decreases |segments|
  {
    if segments == [] {
      assert at + segments == at;
    } else {
      var segment := segments[0];
      var found := Find(node.children, segment);
      assert at + segments == (at + [segment]) + segments[1..];
      ChildPathAbsolute(at, segment);
      if found.Some? {
        assert ChildFormed(node.children[found.value], at);
        InsertFormed(node.children[found.value].node, at + [segment], segments[1..], w);
      } else {
        InsertFormed(Fresh(ChildPath(node.path, segment)), at + [segment], segments[1..], w);
      }
    }
  }

  lemma {:induction false} GrownFormed(own: seq<Workspace>)
    requires forall i :: 0 <= i < |own| ==> Normalised(own[i].path)
    ensures Formed(Grown(own), [])
  {
    if own != [] {
      var n := |own| - 1;
      GrownFormed(own[..n]);
      SegmentsClean(own[n].path);
      assert [] + Segments(own[n].path) == Segments(own[n].path);
      InsertFormed(Grown(own[..n]), [], Segments(own[n].path), own[n]);
    }
  }

  /** Compression goes further down the same way. */
  lemma {:induction false} CompressFormed(node: Directory, at: seq<string>) returns (further: seq<string>)
    requires Formed(node, at)
    ensures Formed(Compress(node), at + further) && Clean(further)
    ensures Occupied(node) ==> Occupied(Compress(node))
    decreases node
  {
    further := [];
    assert at + further == at;
    if node.workspace.None? && |node.children| == 1 && node.children[0].node.workspace.None? {
      var child := node.children[0];
      assert ChildFormed(child, at);
      var more := CompressFormed(child.node, at + [child.segment]);
      further := [child.segment] + more;
      assert at + further == (at + [child.segment]) + more;
    }
  }

  lemma {:induction false} ProjectAllAt(children: seq<Child>, parent: Option<string>, server: string, le: Order, key: DirectoryKey, i: nat)
    requires i < |children|
    ensures ProjectAll(children, parent, server, le, key)[i] == Project(children[i].node, parent, server, le, key)
  {
    if i > 0 {
      ProjectAllAt(children[1..], parent, server, le, key, i - 1);
    }
  }

  /** The children of a projected directory are the projected children, sorted. */
  lemma ProjectedChild(node: Directory, parent: Option<string>, server: string, le: Order, key: DirectoryKey, i: nat) returns (child: Child)
    requires i < |Ordered(node.children, le)|
    ensures child == Ordered(node.children, le)[i] && child in node.children
    ensures Height(child.node) < Height(node)
    ensures ProjectAll(Ordered(node.children, le), parent, server, le, key)[i] == Project(child.node, parent, server, le, key)
  {
    child := Ordered(node.children, le)[i];
    StableSorting.SortMembers(node.children, ByPath(le));
    assert child in Ordered(node.children, le);
    var j :| 0 <= j < |node.children| && node.children[j] == child;
    HeightMember(node.children, j);
    ProjectAllAt(Ordered(node.children, le), parent, server, le, key, i);
  }

  // ----- Shape -----

  /** A node that is no workspace branches, or leads to one workspace directly below. */
  predicate Shaped(node: PathNode) {
    && (node.workspace.Some? || |node.children| >= 2 || (|node.children| == 1 && node.children[0].workspace.Some?))
    && forall i :: 0 <= i < |node.children| ==> Shaped(node.children[i])
  }

  lemma {:induction false} ProjectShaped(source: Directory, at: seq<string>, parent: Option<string>, server: string, le: Order, key: DirectoryKey)
    requires Formed(source, at) && Occupied(source)
    ensures Shaped(Project(source, parent, server, le, key))
    decreases Height(source)
  {
    var node := Compress(source);
    var further := CompressFormed(source, at);
    CompressHeight(source);
    var projected := Project(source, parent, server, le, key);
    OrderedLength(node.children, le);
    forall i | 0 <= i < |projected.children|
      ensures Shaped(projected.children[i])
      ensures |node.children| == 1 && node.children[0].node.workspace.Some? ==> projected.children[i].workspace.Some?
    {
      var child := ProjectedChild(node, Some(node.path), server, le, key, i);
      assert ChildFormed(child, at + further);
      ProjectShaped(child.node, at + further + [child.segment], Some(node.path), server, le, key);
    }
  }

  lemma OrderedLength(children: seq<Child>, le: Order)
    ensures |Ordered(children, le)| == |children|
  {
    StableSorting.SortLength(children, ByPath(le));
  }

  // ----- Paths and names -----

  /** The name of a node joined to its parent's path is its path. */
  predicate Joined(node: PathNode, parent: Option<string>)
    decreases node
  {
    && (if parent.None? then node.name == node.path
        else node.name != "" && node.path == ChildPath(parent.value, node.name))
    && (node.workspace.Some? ==> node.workspace.value.path == node.path)
    && forall i :: 0 <= i < |node.children| ==> Joined(node.children[i], Some(node.path))
  }

  lemma NameJoins(at: seq<string>, rest: seq<string>)
    requires Clean(at) && Clean(rest) && rest != []
    ensures var path := Absolute(at + rest);
            Name(path, Some(Absolute(at))) != "" && path == ChildPath(Absolute(at), Name(path, Some(Absolute(at))))
  {
    AbsoluteSuffix(at, rest);
    if at == [] {
      assert Absolute(at) == "/";
      assert |Join(rest)| > 0 by {
        assert |Join(rest)| >= |rest[0]|;
      }
    } else {
      var parent, path := Absolute(at), Absolute(at + rest);
      assert path == parent + "/" + Join(rest);
      assert path[|parent| + 1..] == Join(rest);
    }
  }

  /** Below nothing, or below the directory `above` that it continues. */
  ghost predicate Below(parent: Option<string>, above: seq<string>, at: seq<string>) {
    parent.Some? ==> Clean(above) && parent.value == Absolute(above) && above < at
  }

  lemma {:induction false} ProjectJoined(
    source: Directory, at: seq<string>, parent: Option<string>, above: seq<string>, server: string, le: Order, key: DirectoryKey)
    requires Formed(source, at) && Below(parent, above, at)
    ensures Joined(Project(source, parent, server, le, key), parent)
    decreases Height(source)
  {
    var node := Compress(source);
    var further := CompressFormed(source, at);
    CompressHeight(source);
    var here := at + further;
    var projected := Project(source, parent, server, le, key);
    if parent.Some? {
      assert here == above + here[|above|..];
      NameJoins(above, here[|above|..]);
    }
    forall i | 0 <= i < |projected.children| ensures Joined(projected.children[i], Some(node.path)) {
      var child := ProjectedChild(node, Some(node.path), server, le, key, i);
      assert ChildFormed(child, here);
      ProjectJoined(child.node, here + [child.segment], Some(node.path), here, server, le, key);
    }
  }

  // ----- Every workspace once -----

  function Shown(node: PathNode, w: Workspace): nat {
    (if node.workspace == Some(w) then 1 else 0) + ShownAll(node.children, w)
  }

  function ShownAll(nodes: seq<PathNode>, w: Workspace): nat {
    if nodes == [] then 0 else Shown(nodes[0], w) + ShownAll(nodes[1..], w)
  }

  lemma {:induction false} CompressCount(node: Directory, w: Workspace)
    ensures Count(Compress(node), w) == Count(node, w)
  {
    if node.workspace.None? && |node.children| == 1 && node.children[0].node.workspace.None? {
      CompressCount(node.children[0].node, w);
      assert CountAll(node.children, w) == Count(node.children[0].node, w) + CountAll([], w);
    }
  }

  lemma {:induction false} InsertCount(x: Child, s: seq<Child>, le: (Child, Child) -> bool, w: Workspace)
    ensures CountAll(StableSorting.Insert(x, s, le), w) == Count(x.node, w) + CountAll(s, w)
  {
    if s != [] && !le(x, s[0]) {
      InsertCount(x, s[1..], le, w);
    } else if s == [] {
      assert CountAll([x], w) == Count(x.node, w) + CountAll([], w);
    } else {
      assert ([x] + s)[1..] == s;
    }
  }

  lemma {:induction false} SortCount(s: seq<Child>, le: (Child, Child) -> bool, w: Workspace)
    ensures CountAll(StableSorting.Sort(s, le), w) == CountAll(s, w)
  {
    if s != [] {
      SortCount(s[1..], le, w);
      InsertCount(s[0], StableSorting.Sort(s[1..], le), le, w);
    }
  }

  lemma {:induction false} ProjectCount(source: Directory, parent: Option<string>, server: string, le: Order, key: DirectoryKey, w: Workspace)
    ensures Shown(Project(source, parent, server, le, key), w) == Count(source, w)
    decreases Height(source), 0
  {
    var node := Compress(source);
    CompressHeight(source);
    OrderedHeight(node.children, le);
    CompressCount(source, w);
    SortCount(node.children, ByPath(le), w);
    ProjectAllCount(Ordered(node.children, le), Some(node.path), server, le, key, w);
  }

  lemma {:induction false} ProjectAllCount(children: seq<Child>, parent: Option<string>, server: string, le: Order, key: DirectoryKey, w: Workspace)
    ensures ShownAll(ProjectAll(children, parent, server, le, key), w) == CountAll(children, w)
    decreases HeightAll(children), 1, |children|
  {
    if children != [] {
      ProjectCount(children[0].node, parent, server, le, key, w);
      ProjectAllCount(children[1..], parent, server, le, key, w);
      assert ProjectAll(children, parent, server, le, key)[1..] == ProjectAll(children[1..], parent, server, le, key);
    }
  }

  /** For distinct normalised paths the tree shows every workspace of the server
      exactly once, and no other. */
  lemma EveryWorkspaceOnce(workspaces: seq<Workspace>, server: string, le: Order, key: DirectoryKey, w: Workspace)
    requires DistinctPaths(Own(workspaces, server))
    ensures ShownAll(Tree(Grown(Own(workspaces, server)), server, le, key), w) ==
              if w in workspaces && w.server == server then 1 else 0
  {
    var own := Own(workspaces, server);
    StableSorting.FilterMembers(workspaces, (w: Workspace) => w.server == server);
    var root := Grown(own);
    GrownCount(own, w);
    if root.workspace.Some? {
      ProjectCount(root, None, server, le, key, w);
      assert ShownAll(Tree(root, server, le, key), w) == Shown(Project(root, None, server, le, key), w) + ShownAll([], w);
    } else {
      SortCount(root.children, ByPath(le), w);
      ProjectAllCount(Ordered(root.children, le), None, server, le, key, w);
    }
  }

  /** The tree has no needless directory, and its names join to its paths. */
  lemma TreeShapedAndJoined(own: seq<Workspace>, server: string, le: Order, key: DirectoryKey, i: nat)
    requires forall k :: 0 <= k < |own| ==> Normalised(own[k].path)
    requires i < |Tree(Grown(own), server, le, key)|
    ensures Shaped(Tree(Grown(own), server, le, key)[i]) && Joined(Tree(Grown(own), server, le, key)[i], None)
  {
    var root := Grown(own);
    GrownFormed(own);
    if root.workspace.Some? {
      ProjectShaped(root, [], None, server, le, key);
      ProjectJoined(root, [], None, [], server, le, key);
    } else {
      var child := ProjectedChild(root, None, server, le, key, i);
      assert ChildFormed(child, []);
      ProjectShaped(child.node, [] + [child.segment], None, server, le, key);
      ProjectJoined(child.node, [] + [child.segment], None, [], server, le, key);
    }
  }

  // ----- Siblings -----

  /** The directory where the way to the path turns off below `at`. */
  predicate TurnsOff(path: string, at: seq<string>, segment: string) {
    at + [segment] <= Segments(path)
  }

  /** Siblings stand in the order of the directories where their ways part. */
  ghost predicate InOrder(nodes: seq<PathNode>, at: seq<string>, le: Order) {
    exists turns: seq<string> ::
      && |turns| == |nodes|
      && (forall i :: 0 <= i < |nodes| ==> TurnsOff(nodes[i].path, at, turns[i]))
      && (forall i, j :: 0 <= i < j < |nodes| ==> le(Absolute(at + [turns[i]]), Absolute(at + [turns[j]])))
  }

  lemma ChildTurnsOff(node: Directory, at: seq<string>, parent: Option<string>, server: string, le: Order, key: DirectoryKey, i: nat)
    requires Formed(node, at) && i < |Ordered(node.children, le)|
    ensures var child, shown := Ordered(node.children, le)[i], ProjectAll(Ordered(node.children, le), parent, server, le, key)[i];
            TurnsOff(shown.path, at, child.segment) && child.node.path == Absolute(at + [child.segment])
  {
    var child := ProjectedChild(node, parent, server, le, key, i);
    assert ChildFormed(child, at);
    var further := CompressFormed(child.node, at + [child.segment]);
    SegmentsOfAbsolute(at + [child.segment] + further);
  }

  lemma ChildrenInOrder(node: Directory, at: seq<string>, parent: Option<string>, server: string, le: Order, key: DirectoryKey)
    requires Formed(node, at) && StableSorting.TotalPreorder(le)
    ensures InOrder(ProjectAll(Ordered(node.children, le), parent, server, le, key), at, le)
  {
    var sorted := Ordered(node.children, le);
    var shown := ProjectAll(sorted, parent, server, le, key);
    var turns := seq(|sorted|, i requires 0 <= i < |sorted| => sorted[i].segment);
    ByPathTotal(le);
    StableSorting.SortSorts(node.children, ByPath(le));
    forall i: nat | i < |sorted| ensures TurnsOff(shown[i].path, at, turns[i]) && sorted[i].node.path == Absolute(at + [turns[i]]) {
      ChildTurnsOff(node, at, parent, server, le, key, i);
    }
    forall i: nat, j: nat | i < j < |sorted| ensures le(Absolute(at + [turns[i]]), Absolute(at + [turns[j]])) {
      assert ByPath(le)(sorted[i], sorted[j]);
    }
  }

  lemma ByPathTotal(le: Order)
    requires StableSorting.TotalPreorder(le)
    ensures StableSorting.TotalPreorder(ByPath(le))
  {
    var total := ByPath(le);
    forall a, b ensures total(a, b) || total(b, a) {
      assert le(a.node.path, b.node.path) || le(b.node.path, a.node.path);
    }
    forall a, b, c | total(a, b) && total(b, c) ensures total(a, c) {
      assert le(a.node.path, b.node.path) && le(b.node.path, c.node.path);
    }
  }

  /** Everywhere in the tree siblings are in order. */
  ghost predicate AllInOrder(node: PathNode, le: Order)
    decreases node
  {
    InOrder(node.children, Segments(node.path), le) && forall i :: 0 <= i < |node.children| ==> AllInOrder(node.children[i], le)
  }

  lemma {:induction false} ProjectInOrder(source: Directory, at: seq<string>, parent: Option<string>, server: string, le: Order, key: DirectoryKey)
    requires Formed(source, at) && StableSorting.TotalPreorder(le)
    ensures AllInOrder(Project(source, parent, server, le, key), le)
    decreases Height(source)
  {
    var node := Compress(source);
    var further := CompressFormed(source, at);
    CompressHeight(source);
    var here := at + further;
    SegmentsOfAbsolute(here);
    ChildrenInOrder(node, here, Some(node.path), server, le, key);
    var projected := Project(source, parent, server, le, key);
    forall i | 0 <= i < |projected.children| ensures AllInOrder(projected.children[i], le) {
      var child := ProjectedChild(node, Some(node.path), server, le, key, i);
      assert ChildFormed(child, here);
      ProjectInOrder(child.node, here + [child.segment], Some(node.path), server, le, key);
    }
  }

  /** The tree is in order at the top and below. */
  lemma TreeInOrder(own: seq<Workspace>, server: string, le: Order, key: DirectoryKey)
    requires forall k :: 0 <= k < |own| ==> Normalised(own[k].path)
    requires StableSorting.TotalPreorder(le)
    ensures var tree := Tree(Grown(own), server, le, key);
            && (Grown(own).workspace.None? ==> InOrder(tree, [], le))
            && forall i :: 0 <= i < |tree| ==> AllInOrder(tree[i], le)
  {
    var root := Grown(own);
    GrownFormed(own);
    if root.workspace.Some? {
      ProjectInOrder(root, [], None, server, le, key);
    } else {
      ChildrenInOrder(root, [], None, server, le, key);
      forall i: nat | i < |Ordered(root.children, le)| ensures AllInOrder(Tree(root, server, le, key)[i], le) {
        var child := ProjectedChild(root, None, server, le, key, i);
        assert ChildFormed(child, []);
        ProjectInOrder(child.node, [] + [child.segment], None, server, le, key);
      }
    }
  }

  // ----- The way to a workspace -----

  /** A directory key names one path and is no other kind of key. */
  ghost predicate Unambiguous(server: string, key: DirectoryKey) {
    && (forall p, q :: key(server, p) == key(server, q) ==> p == q)
    && (forall p, q :: key(server, p) != server + ":" + q)
    && (forall p :: key(server, p) != server)
  }

  lemma {:induction false} KeysAre(server: string, segments: seq<string>, n: nat, key: DirectoryKey, k: string)
    requires n <= |segments|
    ensures k in KeysUpTo(server, segments, n, key) <==>
              k == server || exists m :: 0 <= m <= n && (k == server + ":" + Absolute(segments[..m]) || k == key(server, Absolute(segments[..m])))
  {
    if n == 0 {
      assert segments[..0] == [] && Absolute([]) == "/";
      assert server + ":" + "/" == server + ":/";
    } else {
      KeysAre(server, segments, n - 1, key, k);
    }
  }

  lemma AbsoluteSame(a: seq<string>, b: seq<string>)
    requires Clean(a) && Clean(b) && Absolute(a) == Absolute(b)
    ensures a == b
  {
    SegmentsOfAbsolute(a);
    SegmentsOfAbsolute(b);
  }

  lemma Concatenated(prefix: string, a: string, b: string)
    requires prefix + a == prefix + b
    ensures a == b
  {
    assert (prefix + a)[|prefix|..] == a && (prefix + b)[|prefix|..] == b;
  }

  /** The keys of a path are those of exactly the directories on the way to it. */
  lemma KeysExactly(server: string, path: string, at: seq<string>, key: DirectoryKey)
    requires Clean(at) && Unambiguous(server, key)
    ensures server + ":" + Absolute(at) in AncestorKeys(server, path, key) <==> at <= Segments(path)
    ensures key(server, Absolute(at)) in AncestorKeys(server, path, key) <==> at <= Segments(path)
  {
    var segments := Segments(path);
    SegmentsClean(path);
    KeysAre(server, segments, |segments|, key, server + ":" + Absolute(at));
    KeysAre(server, segments, |segments|, key, key(server, Absolute(at)));
    assert |server + ":" + Absolute(at)| > |server|;
    forall m | 0 <= m <= |segments|
      ensures server + ":" + Absolute(at) == server + ":" + Absolute(segments[..m]) <==> at == segments[..m]
      ensures key(server, Absolute(at)) == key(server, Absolute(segments[..m])) <==> at == segments[..m]
    {
      if Absolute(at) == Absolute(segments[..m]) {
        AbsoluteSame(at, segments[..m]);
      }
      if server + ":" + Absolute(at) == server + ":" + Absolute(segments[..m]) {
        Concatenated(server + ":", Absolute(at), Absolute(segments[..m]));
      }
    }
    if at <= segments {
      assert segments[..|at|] == at;
    }
  }

  /** A node's key is among those of a workspace's path exactly if its own path is on
      the way there; in particular if the workspace is shown below it. */
  ghost predicate Revealed(node: PathNode, server: string, key: DirectoryKey)
    decreases node
  {
    && (forall path :: node.key in AncestorKeys(server, path, key) <==> Segments(node.path) <= Segments(path))
    && (forall w :: Shown(node, w) > 0 ==> node.key in AncestorKeys(server, w.path, key))
    && forall i :: 0 <= i < |node.children| ==> Revealed(node.children[i], server, key)
  }

  lemma {:induction false} FormedPrefix(node: Directory, at: seq<string>, w: Workspace)
    requires Formed(node, at) && Count(node, w) > 0
    ensures at <= Segments(w.path)
    decreases node, 1
  {
    if node.workspace == Some(w) {
      SegmentsOfAbsolute(at);
    } else {
      FormedPrefixAll(node.children, at, w);
    }
  }

  lemma {:induction false} FormedPrefixAll(children: seq<Child>, at: seq<string>, w: Workspace)
    requires (forall i :: 0 <= i < |children| ==> ChildFormed(children[i], at)) && CountAll(children, w) > 0
    ensures at <= Segments(w.path)
    decreases children, 0
  {
    if Count(children[0].node, w) > 0 {
      assert ChildFormed(children[0], at);
      FormedPrefix(children[0].node, at + [children[0].segment], w);
    } else {
      FormedPrefixAll(children[1..], at, w);
    }
  }

  lemma {:induction false} ProjectRevealed(source: Directory, at: seq<string>, parent: Option<string>, server: string, le: Order, key: DirectoryKey)
    requires Formed(source, at) && Unambiguous(server, key)
    ensures Revealed(Project(source, parent, server, le, key), server, key)
    decreases Height(source)
  {
    var node := Compress(source);
    var further := CompressFormed(source, at);
    CompressHeight(source);
    var projected := Project(source, parent, server, le, key);
    NodeRevealed(source, node, at + further, parent, server, le, key);
    forall i | 0 <= i < |projected.children| ensures Revealed(projected.children[i], server, key) {
      var child := ProjectedChild(node, Some(node.path), server, le, key, i);
      assert ChildFormed(child, at + further);
      ProjectRevealed(child.node, at + further + [child.segment], Some(node.path), server, le, key);
    }
  }

  lemma NodeRevealed(source: Directory, node: Directory, here: seq<string>, parent: Option<string>, server: string, le: Order, key: DirectoryKey)
    requires node == Compress(source) && Formed(node, here) && Unambiguous(server, key)
    ensures var projected := Project(source, parent, server, le, key);
            && (forall path :: projected.key in AncestorKeys(server, path, key) <==> Segments(projected.path) <= Segments(path))
            && (forall w :: Shown(projected, w) > 0 ==> projected.key in AncestorKeys(server, w.path, key))
  {
    var projected := Project(source, parent, server, le, key);
    SegmentsOfAbsolute(here);
    forall path ensures projected.key in AncestorKeys(server, path, key) <==> Segments(projected.path) <= Segments(path) {
      KeysExactly(server, path, here, key);
    }
    forall w | Shown(projected, w) > 0 ensures projected.key in AncestorKeys(server, w.path, key) {
      ProjectCount(source, parent, server, le, key, w);
      CompressCount(source, w);
      FormedPrefix(node, here, w);
    }
  }

  /** So revealing a workspace opens exactly the nodes on the way to it. */
  lemma TreeRevealed(own: seq<Workspace>, server: string, le: Order, key: DirectoryKey, i: nat)
    requires forall k :: 0 <= k < |own| ==> Normalised(own[k].path)
    requires Unambiguous(server, key) && i < |Tree(Grown(own), server, le, key)|
    ensures Revealed(Tree(Grown(own), server, le, key)[i], server, key)
  {
    var root := Grown(own);
    GrownFormed(own);
    if root.workspace.Some? {
      ProjectRevealed(root, [], None, server, le, key);
    } else {
      var child := ProjectedChild(root, None, server, le, key, i);
      assert ChildFormed(child, []);
      ProjectRevealed(child.node, [] + [child.segment], None, server, le, key);
    }
  }
}
