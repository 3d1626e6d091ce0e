/** The tree of saved workspaces and its compact projection. */
module WorkspaceTree {
  import opened Wrappers
  import opened StableSorting
  import opened Paths

  datatype Workspace = Workspace(server: string, path: string)

  /** A directory of the trie; children carry their segment. */
  datatype Directory = Directory(path: string, workspace: Option<Workspace>, children: seq<Child>)

  datatype Child = Child(segment: string, node: Directory)

  datatype PathNode = PathNode(
    key: string, path: string, name: string, workspace: Option<Workspace>, children: seq<PathNode>)

  /** The order of strings and the encoding of directory keys are parameters. */
  type Order = (string, string) -> bool
  type DirectoryKey = (string, string) -> string

  // ----- Growing the trie -----

  function Fresh(path: string): Directory {
    Directory(path, None, [])
  }

  function ChildPath(path: string, segment: string): string {
    (if path == "/" then "" else path) + "/" + segment
  }

  function Find(children: seq<Child>, segment: string): (at: Option<nat>)
    ensures at.Some? ==> at.value < |children| && children[at.value].segment == segment
    ensures at.None? ==> forall i :: 0 <= i < |children| ==> children[i].segment != segment
  {
    if children == [] then None
    else if children[0].segment == segment then Some(0)
    else
      var rest := Find(children[1..], segment);
      if rest.Some? then Some(rest.value + 1) else None
  }

  function Insert(node: Directory, segments: seq<string>, w: Workspace): Directory
    decreases |segments|
  {
    if segments == [] then node.(workspace := Some(w))
    else
      var at := Find(node.children, segments[0]);
      if at.Some? then
        node.(children := node.children[at.value := Child(segments[0], Insert(node.children[at.value].node, segments[1..], w))])
      else
        node.(children := node.children + [Child(segments[0], Insert(Fresh(ChildPath(node.path, segments[0])), segments[1..], w))])
  }

  function Own(workspaces: seq<Workspace>, server: string): seq<Workspace> {
    Filter(workspaces, (w: Workspace) => w.server == server)
  }

  function Grown(own: seq<Workspace>): Directory {
    if own == [] then Fresh("/")
    else Insert(Grown(own[..|own| - 1]), Segments(own[|own| - 1].path), own[|own| - 1])
  }

  // ----- What a trie holds -----

  /** How often the workspace is in the trie. */
  function Count(node: Directory, w: Workspace): nat {
    (if node.workspace == Some(w) then 1 else 0) + CountAll(node.children, w)
  }

  function CountAll(children: seq<Child>, w: Workspace): nat {
    if children == [] then 0 else Count(children[0].node, w) + CountAll(children[1..], w)
  }

  function Lookup(node: Directory, segments: seq<string>): Option<Workspace>
    decreases |segments|
  {
    if segments == [] then node.workspace
    else
      var at := Find(node.children, segments[0]);
      if at.Some? then Lookup(node.children[at.value].node, segments[1..]) else None
  }

  lemma {:induction false} LookupInserted(node: Directory, segments: seq<string>, w: Workspace, other: seq<string>)
    ensures Lookup(Insert(node, segments, w), other) == if other == segments then Some(w) else Lookup(node, other)
    decreases |segments|
  {
    if segments != [] {
      var at := Find(node.children, segments[0]);
      var after := Insert(node, segments, w).children;
      if at.Some? {
        FindUpdated(node.children, at.value, after[at.value].node, if other == [] then "" else other[0]);
      } else {
        FindAppended(node.children, after[|node.children|], if other == [] then "" else other[0]);
      }
      if other != [] && other[0] == segments[0] {
        assert other == segments <==> other[1..] == segments[1..] by {
          assert other == [other[0]] + other[1..] && segments == [segments[0]] + segments[1..];
        }
        LookupInserted(if at.Some? then node.children[at.value].node else Fresh(ChildPath(node.path, segments[0])),
                       segments[1..], w, other[1..]);
        if at.None? {
          LookupFresh(ChildPath(node.path, segments[0]), other[1..]);
        }
      }
    }
  }

  lemma LookupFresh(path: string, segments: seq<string>)
    ensures Lookup(Fresh(path), segments).None?
  {}

  lemma {:induction false} FindUpdated(children: seq<Child>, at: nat, node: Directory, segment: string)
    requires at < |children|
    ensures Find(children[at := Child(children[at].segment, node)], segment) == Find(children, segment)
  {
    if at > 0 {
      FindUpdated(children[1..], at - 1, node, segment);
      assert children[at := Child(children[at].segment, node)][1..] == children[1..][at - 1 := Child(children[at].segment, node)];
    } else {
      assert children[0 := Child(children[0].segment, node)][1..] == children[1..];
    }
  }

  lemma {:induction false} FindAppended(children: seq<Child>, child: Child, segment: string)
    ensures Find(children + [child], segment) ==
              if Find(children, segment).Some? then Find(children, segment)
              else if child.segment == segment then Some(|children|) else None
  {
    if children != [] {
      FindAppended(children[1..], child, segment);
      assert (children + [child])[1..] == children[1..] + [child];
    }
  }

  lemma {:induction false} CountUpdated(children: seq<Child>, at: nat, child: Child, w: Workspace)
    requires at < |children|
    ensures CountAll(children[at := child], w) == CountAll(children, w) - Count(children[at].node, w) + Count(child.node, w)
  {
    if at > 0 {
      CountUpdated(children[1..], at - 1, child, w);
      assert children[at := child][1..] == children[1..][at - 1 := child];
    } else {
      assert children[0 := child][1..] == children[1..];
    }
  }

  lemma {:induction false} CountAppended(children: seq<Child>, child: Child, w: Workspace)
    ensures CountAll(children + [child], w) == CountAll(children, w) + Count(child.node, w)
  {
    if children == [] {
      assert children + [child] == [child];
      assert CountAll([child], w) == Count(child.node, w) + CountAll([], w);
    } else {
      CountAppended(children[1..], child, w);
      assert (children + [child])[1..] == children[1..] + [child];
    }
  }

  /** A new path adds its workspace and loses none. */
  lemma {:induction false} CountInserted(node: Directory, segments: seq<string>, w: Workspace, x: Workspace)
    requires Lookup(node, segments).None?
    ensures Count(Insert(node, segments, w), x) == Count(node, x) + if x == w then 1 else 0
    decreases |segments|
  {
    if segments != [] {
      var at := Find(node.children, segments[0]);
      if at.Some? {
        var below := node.children[at.value].node;
        CountInserted(below, segments[1..], w, x);
        CountUpdated(node.children, at.value, Child(segments[0], Insert(below, segments[1..], w)), x);
      } else {
        var below := Fresh(ChildPath(node.path, segments[0]));
        LookupFresh(below.path, segments[1..]);
        CountInserted(below, segments[1..], w, x);
        CountAppended(node.children, Child(segments[0], Insert(below, segments[1..], w)), x);
      }
    }
  }

  predicate DistinctPaths(own: seq<Workspace>) {
    && (forall i :: 0 <= i < |own| ==> Normalised(own[i].path))
    && (forall i, j :: 0 <= i < j < |own| ==> own[i].path != own[j].path)
  }

  /** The trie holds a workspace at the segments of its path and nowhere else. */
  lemma {:induction false} GrownLookup(own: seq<Workspace>, segments: seq<string>)
    ensures Lookup(Grown(own), segments).Some? ==>
              Lookup(Grown(own), segments).value in own && Segments(Lookup(Grown(own), segments).value.path) == segments
  {
    if own == [] {
      LookupFresh("/", segments);
    } else {
      var n := |own| - 1;
      GrownLookup(own[..n], segments);
      LookupInserted(Grown(own[..n]), Segments(own[n].path), own[n], segments);
      assert own == own[..n] + [own[n]];
    }
  }

  /** It holds every workspace once. */
  lemma {:induction false} GrownCount(own: seq<Workspace>, x: Workspace)
    requires DistinctPaths(own)
    ensures Count(Grown(own), x) == if x in own then 1 else 0
  {
    if own != [] {
      var n := |own| - 1;
      GrownCount(own[..n], x);
      var before, segments := Grown(own[..n]), Segments(own[n].path);
      GrownLookup(own[..n], segments);
      assert forall i :: 0 <= i < n ==> own[..n][i].path != own[n].path;
      assert forall v :: v in own[..n] ==> v.path != own[n].path && Normalised(v.path);
      assert Lookup(before, segments).None?;
      CountInserted(before, segments, own[n], x);
      assert own == own[..n] + [own[n]];
    }
  }

  // ----- The projection -----

  /** Past single directories, as far as the next workspace or branch. */
  function Compress(node: Directory): (r: Directory)
    ensures r.workspace.Some? || |r.children| != 1 || r.children[0].node.workspace.Some?
  {
    if node.workspace.None? && |node.children| == 1 && node.children[0].node.workspace.None?
    then Compress(node.children[0].node) else node
  }

  method Compact(source: Directory) returns (node: Directory)
    ensures node == Compress(source)
  {
    node := source;
    while node.workspace.None? && |node.children| == 1
      invariant Compress(node) == Compress(source)
      decreases node
    {
      var child := node.children[0].node;
      if child.workspace.Some? {
        break;
      }
      node := child;
    }
  }

  function Height(node: Directory): nat {
    1 + HeightAll(node.children)
  }

  function HeightAll(children: seq<Child>): nat {
    if children == [] then 0
    else
      var first, rest := Height(children[0].node), HeightAll(children[1..]);
      if first < rest then rest else first
  }

  lemma {:induction false} HeightMember(children: seq<Child>, i: nat)
    requires i < |children|
    ensures Height(children[i].node) <= HeightAll(children)
  {
    if i > 0 {
      HeightMember(children[1..], i - 1);
    }
  }

  lemma {:induction false} HeightBound(children: seq<Child>, h: nat)
    requires forall i :: 0 <= i < |children| ==> Height(children[i].node) <= h
    ensures HeightAll(children) <= h
  {
    if children != [] {
      HeightBound(children[1..], h);
    }
  }

  lemma {:induction false} CompressHeight(node: Directory)
    ensures Height(Compress(node)) <= Height(node)
  {
    if node.workspace.None? && |node.children| == 1 && node.children[0].node.workspace.None? {
      CompressHeight(node.children[0].node);
    }
  }

  function ByPath(le: Order): (Child, Child) -> bool {
    (a: Child, b: Child) => le(a.node.path, b.node.path)
  }

  function Ordered(children: seq<Child>, le: Order): seq<Child> {
    Sort(children, ByPath(le))
  }

  lemma OrderedHeight(children: seq<Child>, le: Order)
    ensures HeightAll(Ordered(children, le)) <= HeightAll(children)
  {
    SortMembers(children, ByPath(le));
    var sorted := Ordered(children, le);
    forall i | 0 <= i < |sorted| ensures Height(sorted[i].node) <= HeightAll(children) {
      assert sorted[i] in children;
      var j :| 0 <= j < |children| && children[j] == sorted[i];
      HeightMember(children, j);
    }
    HeightBound(sorted, HeightAll(children));
  }

  function Key(server: string, node: Directory, directoryKey: DirectoryKey): string {
    if node.workspace.Some? then server + ":" + node.path else directoryKey(server, node.path)
  }

  function Name(path: string, parent: Option<string>): string {
    if parent.None? then path else Slice(path, if parent.value == "/" then 1 else |parent.value| + 1)
  }

  function Project(source: Directory, parent: Option<string>, server: string, le: Order, directoryKey: DirectoryKey): PathNode
    decreases Height(source), 0
  {
    var node := Compress(source);
    CompressHeight(source);
    OrderedHeight(node.children, le);
    PathNode(Key(server, node, directoryKey), node.path, Name(node.path, parent), node.workspace,
             ProjectAll(Ordered(node.children, le), Some(node.path), server, le, directoryKey))
  }

  function ProjectAll(children: seq<Child>, parent: Option<string>, server: string, le: Order, directoryKey: DirectoryKey): (r: seq<PathNode>)
    ensures |r| == |children|
    decreases HeightAll(children), 1, |children|
  {
    if children == [] then []
    else
      [Project(children[0].node, parent, server, le, directoryKey)] +
      ProjectAll(children[1..], parent, server, le, directoryKey)
  }

  function Tree(root: Directory, server: string, le: Order, directoryKey: DirectoryKey): seq<PathNode> {
    if root.workspace.Some? then [Project(root, None, server, le, directoryKey)]
    else ProjectAll(Ordered(root.children, le), None, server, le, directoryKey)
  }

  /** One node of the tree: past single directories, then its sorted children. */
  method ProjectNode(source: Directory, parent: Option<string>, server: string, le: Order, directoryKey: DirectoryKey)
    returns (tree: PathNode)
    ensures tree == Project(source, parent, server, le, directoryKey)
    decreases Height(source), 0
  {
    var node := Compact(source);
    CompressHeight(source);
    OrderedHeight(node.children, le);
    var children := ProjectNodes(Ordered(node.children, le), Some(node.path), server, le, directoryKey);
    tree := PathNode(Key(server, node, directoryKey), node.path, Name(node.path, parent), node.workspace, children);
  }

  method ProjectNodes(children: seq<Child>, parent: Option<string>, server: string, le: Order, directoryKey: DirectoryKey)
    returns (trees: seq<PathNode>)
    ensures trees == ProjectAll(children, parent, server, le, directoryKey)
    decreases HeightAll(children), 1
  {
    trees := [];
    for i := 0 to |children|
      invariant trees + ProjectAll(children[i..], parent, server, le, directoryKey) == ProjectAll(children, parent, server, le, directoryKey)
    {
      HeightMember(children, i);
      var tree := ProjectNode(children[i].node, parent, server, le, directoryKey);
      assert children[i..][1..] == children[i + 1..];
      trees := trees + [tree];
    }
    assert children[|children|..] == [];
  }

  /** The tree as the program builds it, workspace by workspace. */
  method BuildWorkspaceTree(server: string, workspaces: seq<Workspace>, le: Order, directoryKey: DirectoryKey)
    returns (tree: seq<PathNode>)
    ensures tree == Tree(Grown(Own(workspaces, server)), server, le, directoryKey)
  {
    var root := Fresh("/");
    for i := 0 to |workspaces|
      invariant root == Grown(Own(workspaces[..i], server))
    {
      GrownNext(workspaces, i, server);
      if workspaces[i].server == server {
        root := Insert(root, Segments(workspaces[i].path), workspaces[i]);
      }
    }
    assert workspaces[..|workspaces|] == workspaces;
    if root.workspace.Some? {
      var node := ProjectNode(root, None, server, le, directoryKey);
      tree := [node];
    } else {
      tree := ProjectNodes(Ordered(root.children, le), None, server, le, directoryKey);
    }
  }

  lemma GrownNext(workspaces: seq<Workspace>, i: nat, server: string)
    requires i < |workspaces|
    ensures var before := Grown(Own(workspaces[..i], server));
            Grown(Own(workspaces[..i + 1], server)) ==
              if workspaces[i].server == server then Insert(before, Segments(workspaces[i].path), workspaces[i]) else before
  {
    var own, w := Own(workspaces[..i], server), workspaces[i];
    OwnNext(workspaces[..i], w, server);
    assert workspaces[..i + 1] == workspaces[..i] + [w];
    assert (own + [w])[..|own|] == own;
    assert own + [] == own;
  }

  lemma {:induction false} OwnNext(workspaces: seq<Workspace>, w: Workspace, server: string)
    ensures Own(workspaces + [w], server) == Own(workspaces, server) + if w.server == server then [w] else []
  {
    if workspaces == [] {
      assert workspaces + [w] == [w];
      assert [w][1..] == [];
    } else {
      OwnNext(workspaces[1..], w, server);
      assert (workspaces + [w])[1..] == workspaces[1..] + [w];
    }
  }

  // ----- The keys on the way to a workspace -----

  function KeysUpTo(server: string, segments: seq<string>, n: nat, directoryKey: DirectoryKey): seq<string>
    requires n <= |segments|
  {
    if n == 0 then [server, server + ":/", directoryKey(server, "/")]
    else
      KeysUpTo(server, segments, n - 1, directoryKey) +
      [server + ":" + Absolute(segments[..n]), directoryKey(server, Absolute(segments[..n]))]
  }

  function AncestorKeys(server: string, path: string, directoryKey: DirectoryKey): seq<string> {
    KeysUpTo(server, Segments(path), |Segments(path)|, directoryKey)
  }

  method WorkspaceAncestorKeys(server: string, path: string, directoryKey: DirectoryKey) returns (keys: seq<string>)
    ensures keys == AncestorKeys(server, path, directoryKey)
  {
    keys := [server, server + ":/", directoryKey(server, "/")];
    var prefix := "";
    var segments := Segments(path);
    for i := 0 to |segments|
      invariant prefix == if i == 0 then "" else Absolute(segments[..i])
      invariant keys == KeysUpTo(server, segments, i, directoryKey)
    {
      AbsoluteNext(segments, i);
      prefix := prefix + "/" + segments[i];
      keys := keys + [server + ":" + prefix, directoryKey(server, prefix)];
    }
  }

  lemma AbsoluteNext(segments: seq<string>, i: nat)
    requires i < |segments|
    ensures (if i == 0 then "" else Absolute(segments[..i])) + "/" + segments[i] == Absolute(segments[..i + 1])
  {
    assert segments[..i + 1] == segments[..i] + [segments[i]];
    if i > 0 {
      JoinAppend(segments[..i], [segments[i]]);
    } else {
      assert segments[..1] == [segments[0]];
    }
  }
}
