/** What a transfer endpoint sees of the file system: regular files with their
    metadata, the journal saved in `state.json`, and one staging directory. */
module TransferDisk {
  import opened Wrappers

  type Path = string

  /** The largest block a single Write may carry. */
  const CHUNK: nat := 256 * 1024

  datatype Kind = RegularFile | Directory | Unsupported

  datatype Stamp = Stamp(kind: Kind, length: nat, modified: nat, device: nat, inode: nat, mode: nat)

  /** Contents and metadata. */
  datatype Node = Node(kind: Kind, bytes: Bytes, modified: nat, device: nat, inode: nat, mode: nat)

  /** Metadata the operating system picks for a file that is created or changed. */
  datatype Meta = Meta(modified: nat, device: nat, inode: nat, mode: nat)

  function StampOf(n: Node): Stamp {
    Stamp(n.kind, |n.bytes|, n.modified, n.device, n.inode, n.mode)
  }

  /** A file. `stable` is what the last flush of its contents wrote. */
  datatype Inode = Inode(node: Node, stable: Bytes)

  predicate Flushed(inode: Inode) {
    inode.stable == inode.node.bytes
  }

  function Stat(files: map<Path, Inode>, path: Path): Option<Stamp> {
    if path in files then Some(StampOf(files[path].node)) else None
  }

  datatype Journal = Journal(
    owner: string, path: Path, source: Stamp, expected: Option<Stamp>,
    offset: nat, digest: Option<string>, committed: bool)

  /** A JSON document on disk. `None` stands for truncated or torn contents;
      `synced` says whether the contents were flushed. */
  datatype Doc = Doc(journal: Option<Journal>, synced: bool)

  /** The staging directory of one token. The first four fields are directory
      entries (`data` names an inode). The others are history used by the
      specification only: the checkpointed blocks in order, how often this
      stage was published, and whether a Cancel has begun on it. */
  datatype Dir = Dir(
    data: Option<nat>, next: Option<Doc>, state: Option<Doc>, lock: bool,
    kept: Bytes, published: nat, cancelled: bool)

  const EMPTY_DIR := Dir(None, None, None, false, [], 0, false)

  /** Directory structure: the published tree and the staging directory. */
  datatype Disk = Disk(files: map<Path, Inode>, stage: Option<Dir>)

  function Max(a: nat, b: nat): nat { if a < b then b else a }

  function Min(a: nat, b: nat): nat { if a < b then a else b }

  /** Contents after writing `block` at `offset`; a hole reads as zeros. */
  function WriteAt(bytes: Bytes, offset: nat, block: Bytes): (r: Bytes)
    ensures |r| == Max(|bytes|, offset + |block|)
    ensures r[offset..offset + |block|] == block
    ensures forall i :: 0 <= i < offset && i < |bytes| ==> r[i] == bytes[i]
  {
    var padded := if |bytes| < offset then bytes + seq(offset - |bytes|, _ => 0 as byte) else bytes;
    padded[..offset] + block + (if offset + |block| <= |padded| then padded[offset + |block|..] else [])
  }

  /** What an unflushed file may hold after power is lost: wherever the flushed
      and the latest contents both have a byte, one of the two survives. */
  ghost predicate Survives(stable: Bytes, latest: Bytes, after: Bytes) {
    && Min(|stable|, |latest|) <= |after| <= Max(|stable|, |latest|)
    && forall i :: 0 <= i < |after| && i < |stable| && i < |latest| ==> after[i] == stable[i] || after[i] == latest[i]
  }

  /** What a loss of power may leave of a file. */
  ghost predicate Remains(before: Inode, after: Inode) {
    && Survives(before.stable, before.node.bytes, after.node.bytes)
    && after == Inode(before.node.(bytes := after.node.bytes), after.node.bytes)
  }

  /** Unflushed JSON contents are lost with the power. */
  function Settled(doc: Option<Doc>): Option<Doc> {
    if doc.Some? && !doc.value.synced then Some(Doc(None, true)) else doc
  }

  function SettledDisk(d: Disk): Disk {
    match d.stage
    case None => d
    case Some(dir) => d.(stage := Some(dir.(next := Settled(dir.next), state := Settled(dir.state))))
  }
}
