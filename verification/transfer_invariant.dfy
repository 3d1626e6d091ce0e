/** The invariant of the transfer protocol and the proof that every step keeps
    it. It holds of the directory structure the endpoint sees and of every
    earlier structure that a loss of power could bring back. */
module TransferInvariant {
  import opened Wrappers
  import opened TransferDisk
  import opened TransferProtocol

  predicate JournalSound(j: Journal) {
    && j.source.kind == RegularFile
    && j.offset <= j.source.length
    && (j.digest.Some? ==> j.offset == j.source.length)
    && (j.committed ==> j.digest.Some?)
  }

  /** Both the latest and the flushed contents hold every checkpointed block and
      no more than the source; a recorded digest describes flushed contents. */
  predicate InodeSound(env: Env, inode: Inode, j: Journal, kept: Bytes) {
    && |kept| == j.offset
    && kept <= inode.node.bytes
    && kept <= inode.stable
    && |inode.node.bytes| <= j.source.length
    && |inode.stable| <= j.source.length
    && (j.digest.Some? ==> inode.stable == inode.node.bytes && env.digest(inode.node.bytes) == j.digest.value)
  }

  predicate DirSound(env: Env, inodes: seq<Inode>, dir: Dir, acked: Bytes) {
    && (dir.data.Some? ==> dir.data.value < |inodes| && inodes[dir.data.value].node.kind == RegularFile)
    && match dir.state
       case None => acked == []
       case Some(doc) =>
         && doc.synced
         && doc.journal.Some?
         && var j := doc.journal.value;
         && JournalSound(j)
         && |dir.kept| == j.offset
         && acked <= dir.kept
         && dir.published <= 1
         && (dir.published == 1 ==> dir.data.None? && j.digest == Some(env.digest(dir.kept)))
         && (if dir.data.Some? then !dir.cancelled && !j.committed && InodeSound(env, inodes[dir.data.value], j, dir.kept)
             else dir.cancelled || dir.published == 1)
  }

  predicate DiskSound(env: Env, inodes: seq<Inode>, d: Disk, acked: Bytes) {
    match d.stage
    case None => acked == []
    case Some(dir) => DirSound(env, inodes, dir, acked)
  }

  predicate HasState(d: Disk) {
    d.stage.Some? && d.stage.value.state.Some? && d.stage.value.state.value.journal.Some?
  }

  function StateOf(d: Disk): Journal
    requires HasState(d)
  {
    d.stage.value.state.value.journal.value
  }

  function DataOf(d: Disk): Option<nat> {
    if d.stage.Some? then d.stage.value.data else None
  }

  /** An earlier structure that shares the current data file has a checkpoint
      for the same source, no further than the current one. */
  predicate Older(earlier: Disk, current: Disk) {
    HasState(earlier) && DataOf(earlier).Some? && DataOf(current) == DataOf(earlier) ==>
      && HasState(current)
      && StateOf(earlier).source == StateOf(current).source
      && StateOf(earlier).offset <= StateOf(current).offset
  }

  predicate Loaded(w: World, p: Proc) {
    && HasState(w.disk)
    && StateOf(w.disk) == p.journal
    && p.journal.path == p.call.path
    && p.journal.owner == p.call.owner
  }

  predicate Starting(p: Proc) {
    p.call.op.Prepare? && p.call.op.source.kind == RegularFile && p.journal == Initial(p.call)
  }

  /** A data file that no saved journal describes yet. */
  predicate Blank(w: World, p: Proc) {
    && Starting(p)
    && HasData(w)
    && w.disk.stage.value.state.None?
    && DataInode(w).node.bytes == []
    && w.disk.stage.value.kept == []
    && w.disk.stage.value.published == 0
    && !w.disk.stage.value.cancelled
  }

  /** The file has the permissions and the modification time of its source. */
  predicate Stamped(node: Node, source: Stamp) {
    node.mode == source.mode % 512 && node.modified == source.modified
  }

  /** What makes it safe to replace the saved journal by the one in memory. */
  predicate SaveReady(env: Env, w: World, p: Proc, purpose: Purpose) {
    && p.journal.path == p.call.path
    && p.journal.owner == p.call.owner
    && if purpose.ForInit? then Blank(w, p) && DataInode(w).stable == []
       else
         && HasState(w.disk)
         && var j := StateOf(w.disk);
         match purpose
         case ForBlock =>
           && p.call.op.Write?
           && p.call.op.offset == j.offset
           && p.journal == j.(offset := j.offset + |p.call.op.block|)
           && p.journal.offset <= j.source.length
           && 0 < |p.call.op.block|
           && HasData(w)
           && InodeSound(env, DataInode(w), p.journal, w.disk.stage.value.kept + p.call.op.block)
         case ForDigest =>
           && p.call.op.Commit?
           && p.journal == j.(digest := Some(p.call.op.digest))
           && j.offset == j.source.length
           && HasData(w)
           && Stamped(DataInode(w).node, j.source)
           && InodeSound(env, DataInode(w), p.journal, w.disk.stage.value.kept)
         case _ =>
           && p.journal == j.(committed := true)
           && j.digest.Some?
           && !HasData(w)
           && (purpose.ForCommit? ==> p.call.op.Commit?)
           && (purpose.ForReconcile? ==> p.call.op.Commit? || p.call.op.Prepare?)
  }

  /** How far `next.json` has got. */
  predicate Drafted(w: World, p: Proc, step: SaveStep) {
    && w.disk.stage.Some?
    && match step
       case SaveOpen => true
       case SaveWrite => w.disk.stage.value.next.Some?
       case SaveSync => w.disk.stage.value.next == Some(Doc(Some(p.journal), false))
       case _ => w.disk.stage.value.next == Some(Doc(Some(p.journal), true))
  }

  /** After the rename the saved journal is the one in memory. */
  predicate Saved(w: World, p: Proc, purpose: Purpose) {
    && Loaded(w, p)
    && match purpose
       case ForInit => p.call.op.Prepare?
       case ForBlock =>
         && p.call.op.Write?
         && w.disk.stage.value.kept[..Min(|w.disk.stage.value.kept|, p.call.op.offset)] + p.call.op.block
            == w.disk.stage.value.kept
         && p.journal.offset == p.call.op.offset + |p.call.op.block|
       case ForDigest =>
         && p.call.op.Commit? && HasData(w) && p.journal.digest == Some(p.call.op.digest)
         && Stamped(DataInode(w).node, p.journal.source)
       case ForCommit => p.call.op.Commit? && p.journal.committed
       case ForReconcile => (p.call.op.Commit? || p.call.op.Prepare?) && p.journal.committed
  }

  /** The staged file passed its final verification. */
  predicate Verified(env: Env, w: World, p: Proc) {
    && Loaded(w, p)
    && p.call.op.Commit?
    && p.journal.offset == p.journal.source.length
    && HasData(w)
    && env.digest(DataInode(w).node.bytes) == p.call.op.digest
  }

  predicate OpenSound(p: Proc, step: OpenStep) {
    match step
    case MakeDir => Starting(p)
    case _ => p.call.op.Prepare? ==> Starting(p)
  }

  predicate InitSound(w: World, p: Proc, step: InitStep) {
    match step
    case InitData => Starting(p) && w.disk.stage.Some? && w.disk.stage.value.state.None?
    case InitSync => Blank(w, p)
    case InitSyncParent => Loaded(w, p) && p.call.op.Prepare?
  }

  predicate SaveSound(env: Env, w: World, p: Proc, step: SaveStep, purpose: Purpose) {
    if step.SaveSyncDir? then Saved(w, p, purpose) else SaveReady(env, w, p, purpose) && Drafted(w, p, step)
  }

  predicate PrepareSound(w: World, p: Proc, step: PrepareStep) {
    && Loaded(w, p)
    && match step
       case Reconcile => p.journal.digest.Some? && !HasData(w) && (p.call.op.Commit? || p.call.op.Prepare?)
       case _ => p.call.op.Prepare?
  }

  predicate WriteSound(env: Env, w: World, p: Proc, step: WriteStep) {
    && Loaded(w, p)
    && match step
       case WriteCheck => p.call.op.Write?
       case WriteData => Acceptable(env, p.journal, p.call.op)
       case WriteSync =>
         && Acceptable(env, p.journal, p.call.op)
         && HasData(w)
         && w.disk.stage.value.kept + p.call.op.block <= DataInode(w).node.bytes
  }

  predicate CommitSound(env: Env, w: World, p: Proc, step: CommitStep) {
    && Loaded(w, p)
    && p.call.op.Commit?
    && match step
       case CommitCheck => true
       case CommitHash => p.journal.offset == p.journal.source.length
       case CommitMeta => Verified(env, w, p)
       case CommitMetaSync => Verified(env, w, p) && Stamped(DataInode(w).node, p.journal.source)
       case CommitRecheck | CommitRename =>
         && Verified(env, w, p) && p.journal.digest == Some(p.call.op.digest)
         && Stamped(DataInode(w).node, p.journal.source)
       case CommitSyncParent => p.journal.digest.Some? && !HasData(w)
  }

  predicate CancelSound(w: World, p: Proc, step: CancelStep) {
    && p.call.op.Cancel?
    && match step
       case RemoveData => Loaded(w, p)
       case RemoveSync => w.disk.stage.None? && w.acked == []
       case _ =>
         && w.acked == []
         && w.disk.stage.Some?
         && var dir := w.disk.stage.value;
         && dir.data.None?
         && dir.cancelled
         && (!step.RemoveNext? ==> dir.next.None?)
         && (step.RemoveLock? || step.RemoveDir? ==> dir.state.None?)
         && (step.RemoveDir? ==> !dir.lock)
  }

  predicate ProcSound(env: Env, w: World, p: Proc) {
    match p.pc
    case Opening(step) => OpenSound(p, step)
    case Initialising(step) => InitSound(w, p, step)
    case Saving(step, purpose) => SaveSound(env, w, p, step, purpose)
    case Preparing(step) => PrepareSound(w, p, step)
    case Writing(step) => WriteSound(env, w, p, step)
    case Committing(step) => CommitSound(env, w, p, step)
    case Cancelling(step) => CancelSound(w, p, step)
  }

  ghost predicate DisksSound(env: Env, w: World) {
    && DiskSound(env, w.inodes, w.disk, w.acked)
    && forall s :: s in w.unsynced ==> DiskSound(env, w.inodes, s, w.acked) && Older(s, w.disk)
  }

  ghost predicate Inv(env: Env, w: World) {
    && DisksSound(env, w)
    && (w.proc.Some? ==> ProcSound(env, w, w.proc.value))
  }

  lemma BootSound(env: Env, files: map<Path, Inode>)
    ensures Inv(env, Boot(files))
  {}

  // ----- Directory operations -----

  /** A directory operation keeps the invariant when the new structure is sound
      and either drops the data entry, keeps it under a later checkpoint of the
      same source, or names a data file that did not exist before. */
  lemma RelinkSound(env: Env, w: World, disk: Disk)
    requires DisksSound(env, w)
    requires DiskSound(env, w.inodes, disk, w.acked)
    requires DataOf(disk).Some? ==> DataOf(disk) == DataOf(w.disk)
    requires Older(w.disk, disk)
    ensures DisksSound(env, Relink(w, disk))
  {}

  lemma MakeDirKeeps(env: Env, w: World, p: Proc)
    requires DisksSound(env, w) && OpenSound(p, MakeDir)
    ensures Inv(env, StepOpen(w, p, MakeDir))
  {
    if w.disk.stage.None? {
      RelinkSound(env, w, w.disk.(stage := Some(EMPTY_DIR)));
    }
  }

  lemma OpenLockKeeps(env: Env, w: World, p: Proc)
    requires DisksSound(env, w) && OpenSound(p, OpenLock)
    ensures Inv(env, StepOpen(w, p, OpenLock))
  {
    if w.disk.stage.Some? {
      RelinkSound(env, w, w.disk.(stage := Some(w.disk.stage.value.(lock := true))));
    }
  }

  /** With its checkpoint loaded a command has what its first step relies on. */
  lemma LoadedSound(env: Env, w: World, p: Proc)
    requires Loaded(w, p) && p.pc == AfterStage(p.call.op)
    ensures ProcSound(env, w, p)
  {}

  lemma LoadKeeps(env: Env, w: World, p: Proc)
    requires DisksSound(env, w) && OpenSound(p, Load)
    ensures Inv(env, StepOpen(w, p, Load))
  {
    var after := StepOpen(w, p, Load);
    SameDisks(env, w, after);
    if after.proc.Some? {
      if after.proc.value.pc == Initialising(InitData) {
        assert InitSound(after, after.proc.value, InitData);
      } else {
        LoadedSound(env, after, after.proc.value);
      }
    }
  }

  lemma SameDisks(env: Env, w: World, after: World)
    requires DisksSound(env, w)
    requires after.disk == w.disk && after.inodes == w.inodes && after.unsynced == w.unsynced && after.acked == w.acked
    ensures DisksSound(env, after)
  {}

  lemma OpenKeeps(env: Env, w: World, p: Proc, step: OpenStep)
    requires DisksSound(env, w) && OpenSound(p, step)
    ensures Inv(env, StepOpen(w, p, step))
  {
    match step
    case MakeDir => MakeDirKeeps(env, w, p);
    case OpenLock => OpenLockKeeps(env, w, p);
    case Load => LoadKeeps(env, w, p);
  }

  /** Without a checkpoint the data file may be cut to nothing. */
  lemma EmptyDataKeeps(env: Env, w: World, p: Proc, now: Meta)
    requires DisksSound(env, w) && InitSound(w, p, InitData) && HasData(w)
    ensures Inv(env, StepInit(w, p, InitData, now))
  {}

  lemma NewDataKeeps(env: Env, w: World, p: Proc, now: Meta)
    requires DisksSound(env, w) && InitSound(w, p, InitData) && !HasData(w)
    ensures Inv(env, StepInit(w, p, InitData, now))
  {}

  lemma InitKeeps(env: Env, w: World, p: Proc, step: InitStep, now: Meta)
    requires DisksSound(env, w) && InitSound(w, p, step)
    ensures Inv(env, StepInit(w, p, step, now))
  {
    if step.InitData? {
      if HasData(w) {
        EmptyDataKeeps(env, w, p, now);
      } else {
        NewDataKeeps(env, w, p, now);
      }
    }
  }

  // ----- Saving the journal -----

  /** Changing `next.json`, which recovery never reads. */
  lemma DraftSound(env: Env, w: World, next: Option<Doc>)
    requires DisksSound(env, w)
    requires w.disk.stage.Some?
    ensures DisksSound(env, PutDir(w, w.disk.stage.value.(next := next)))
    ensures DisksSound(env, RelinkDir(w, w.disk.stage.value.(next := next)))
  {
    RelinkSound(env, w, w.disk.(stage := Some(w.disk.stage.value.(next := next))));
  }

  /** The conditions for a save do not mention `next.json`. */
  lemma DraftReady(env: Env, w: World, after: World, p: Proc, purpose: Purpose, next: Option<Doc>)
    requires w.disk.stage.Some? && SaveReady(env, w, p, purpose)
    requires after.disk == w.disk.(stage := Some(w.disk.stage.value.(next := next))) && after.inodes == w.inodes
    ensures SaveReady(env, after, p, purpose)
  {}

  lemma DraftKeeps(env: Env, w: World, p: Proc, next: Option<Doc>, step: SaveStep, purpose: Purpose)
    requires DisksSound(env, w) && w.disk.stage.Some?
    requires SaveReady(env, w, p, purpose)
    requires !step.SaveSyncDir? && Drafted(PutDir(w, w.disk.stage.value.(next := next)), p, step)
    ensures Inv(env, Goto(PutDir(w, w.disk.stage.value.(next := next)), p, Saving(step, purpose)))
    ensures Inv(env, Goto(RelinkDir(w, w.disk.stage.value.(next := next)), p, Saving(step, purpose)))
  {
    DraftSound(env, w, next);
    DraftGoes(env, w, PutDir(w, w.disk.stage.value.(next := next)), p, next, step, purpose);
    DraftGoes(env, w, RelinkDir(w, w.disk.stage.value.(next := next)), p, next, step, purpose);
  }

  lemma DraftGoes(env: Env, w: World, after: World, p: Proc, next: Option<Doc>, step: SaveStep, purpose: Purpose)
    requires w.disk.stage.Some? && SaveReady(env, w, p, purpose) && DisksSound(env, after)
    requires after.disk == w.disk.(stage := Some(w.disk.stage.value.(next := next))) && after.inodes == w.inodes
    requires !step.SaveSyncDir? && Drafted(after, p, step)
    ensures Inv(env, Goto(after, p, Saving(step, purpose)))
  {
    DraftReady(env, w, Goto(after, p, Saving(step, purpose)), p, purpose, next);
  }

  /** The rename that replaces the checkpoint. */
  lemma RenameKeeps(env: Env, w: World, p: Proc, purpose: Purpose)
    requires DisksSound(env, w) && SaveSound(env, w, p, SaveRename, purpose)
    ensures Inv(env, StepSave(w, p, SaveRename, purpose))
  {
    var dir := w.disk.stage.value;
    var kept := if purpose.ForBlock? then dir.kept + p.call.op.block else dir.kept;
    var after := dir.(state := dir.next, next := None, kept := kept);
    assert DirSound(env, w.inodes, after, w.acked);
    RelinkSound(env, w, w.disk.(stage := Some(after)));
  }

  lemma SavedKeeps(env: Env, w: World, p: Proc, purpose: Purpose)
    requires DisksSound(env, w) && Saved(w, p, purpose)
    ensures Inv(env, StepSave(w, p, SaveSyncDir, purpose))
  {}

  lemma SaveKeeps(env: Env, w: World, p: Proc, step: SaveStep, purpose: Purpose)
    requires DisksSound(env, w) && SaveSound(env, w, p, step, purpose)
    ensures Inv(env, StepSave(w, p, step, purpose))
  {
    match step
    case SaveOpen => DraftKeeps(env, w, p, Some(Doc(None, false)), SaveWrite, purpose);
    case SaveWrite => DraftKeeps(env, w, p, Some(Doc(Some(p.journal), false)), SaveSync, purpose);
    case SaveSync => DraftKeeps(env, w, p, Some(Doc(Some(p.journal), true)), SaveRename, purpose);
    case SaveRename => RenameKeeps(env, w, p, purpose);
    case SaveSyncDir => SavedKeeps(env, w, p, purpose);
  }

  // ----- Prepare and Write -----

  /** Cutting the data file back to its checkpoint. */
  lemma TrimSound(env: Env, w: World, offset: nat, now: Meta)
    requires DisksSound(env, w) && HasData(w) && HasState(w.disk) && offset == StateOf(w.disk).offset
    requires offset < |DataInode(w).node.bytes|
    ensures var inode := DataInode(w);
            DisksSound(env, PutData(w, inode.(node := inode.node.(bytes := inode.node.bytes[..offset], modified := now.modified))))
  {}

  lemma TruncateKeeps(env: Env, w: World, p: Proc, now: Meta)
    requires DisksSound(env, w) && PrepareSound(w, p, PrepareData)
    ensures Inv(env, StepPrepare(env, w, p, PrepareData, now))
  {
    if HasData(w) && |DataInode(w).node.bytes| > p.journal.offset {
      TrimSound(env, w, p.journal.offset, now);
    }
  }

  lemma ReconcileKeeps(env: Env, w: World, p: Proc, now: Meta)
    requires DisksSound(env, w) && PrepareSound(w, p, Reconcile)
    ensures Inv(env, StepPrepare(env, w, p, Reconcile, now))
  {}

  lemma PrepareCheckKeeps(env: Env, w: World, p: Proc, step: PrepareStep, now: Meta)
    requires step.PrepareCheck? || step.PrepareStat?
    requires DisksSound(env, w) && PrepareSound(w, p, step)
    ensures Inv(env, StepPrepare(env, w, p, step, now))
  {
    var after := StepPrepare(env, w, p, step, now);
    SameDisks(env, w, after);
    assert after.proc.Some? ==> after.proc.value.pc.Preparing? && PrepareSound(after, after.proc.value, after.proc.value.pc.prepare);
  }

  lemma PrepareKeeps(env: Env, w: World, p: Proc, step: PrepareStep, now: Meta)
    requires DisksSound(env, w) && PrepareSound(w, p, step)
    ensures Inv(env, StepPrepare(env, w, p, step, now))
  {
    match step
    case Reconcile => ReconcileKeeps(env, w, p, now);
    case PrepareData => TruncateKeeps(env, w, p, now);
    case _ => PrepareCheckKeeps(env, w, p, step, now);
  }

  /** A block, whole or torn, lands behind every checkpoint that could return. */
  lemma BlockKeeps(env: Env, w: World, j: Journal, block: Bytes, now: Meta)
    requires DisksSound(env, w) && HasData(w)
    requires HasState(w.disk) && StateOf(w.disk) == j && j.digest.None? && j.offset + |block| <= j.source.length
    ensures DisksSound(env, WriteBlock(w, j.offset, block, now))
  {}

  lemma BlockSyncKeeps(env: Env, w: World, p: Proc, now: Meta)
    requires DisksSound(env, w) && WriteSound(env, w, p, WriteSync)
    ensures Inv(env, StepWrite(env, w, p, WriteSync, now))
  {}

  lemma WriteKeeps(env: Env, w: World, p: Proc, step: WriteStep, now: Meta)
    requires DisksSound(env, w) && WriteSound(env, w, p, step)
    ensures Inv(env, StepWrite(env, w, p, step, now))
  {
    match step
    case WriteCheck =>
    case WriteData => if HasData(w) { BlockKeeps(env, w, p.journal, p.call.op.block, now); }
    case WriteSync => BlockSyncKeeps(env, w, p, now);
  }

  lemma TornKeeps(env: Env, w: World, p: Proc, count: nat, now: Meta)
    requires Inv(env, w) && w.proc == Some(p)
    ensures Inv(env, Torn(w, p, count, now))
  {
    if p.pc == Writing(WriteData) && HasData(w) && count <= |p.call.op.block| {
      BlockKeeps(env, w, p.journal, p.call.op.block[..count], now);
    }
  }

  // ----- Commit -----

  /** Publishing moves the verified data file out of the stage. */
  lemma PublishSound(env: Env, w: World, path: Path)
    requires DisksSound(env, w)
    requires HasData(w) && HasState(w.disk) && StateOf(w.disk).digest.Some?
    ensures DisksSound(env, Publish(w, path))
  {
    assert InodeSound(env, DataInode(w), StateOf(w.disk), w.disk.stage.value.kept);
    assert DataInode(w).node.bytes == w.disk.stage.value.kept;
    RelinkSound(env, w, Publish(w, path).disk);
  }

  lemma CommitRenameKeeps(env: Env, w: World, p: Proc, now: Meta)
    requires DisksSound(env, w) && CommitSound(env, w, p, CommitRename)
    ensures Inv(env, StepCommit(env, w, p, CommitRename, now))
  {
    if CanPublish(w.disk.files, p.journal) {
      PublishSound(env, w, p.journal.path);
    }
  }

  /** Setting the metadata and flushing the verified file. */
  lemma CommitFlushKeeps(env: Env, w: World, p: Proc, step: CommitStep, now: Meta)
    requires step.CommitMeta? || step.CommitMetaSync?
    requires DisksSound(env, w) && CommitSound(env, w, p, step)
    ensures Inv(env, StepCommit(env, w, p, step, now))
  {}

  lemma CommitParentKeeps(env: Env, w: World, p: Proc, now: Meta)
    requires DisksSound(env, w) && CommitSound(env, w, p, CommitSyncParent)
    ensures Inv(env, StepCommit(env, w, p, CommitSyncParent, now))
  {}

  lemma CommitCheckKeeps(env: Env, w: World, p: Proc, now: Meta)
    requires DisksSound(env, w) && CommitSound(env, w, p, CommitCheck)
    ensures Inv(env, StepCommit(env, w, p, CommitCheck, now))
  {}

  lemma CommitHashKeeps(env: Env, w: World, p: Proc, now: Meta)
    requires DisksSound(env, w) && CommitSound(env, w, p, CommitHash)
    ensures Inv(env, StepCommit(env, w, p, CommitHash, now))
  {}

  lemma CommitRecheckKeeps(env: Env, w: World, p: Proc, now: Meta)
    requires DisksSound(env, w) && CommitSound(env, w, p, CommitRecheck)
    ensures Inv(env, StepCommit(env, w, p, CommitRecheck, now))
  {}

  lemma CommitKeeps(env: Env, w: World, p: Proc, step: CommitStep, now: Meta)
    requires DisksSound(env, w) && CommitSound(env, w, p, step)
    ensures Inv(env, StepCommit(env, w, p, step, now))
  {
    match step
    case CommitMeta | CommitMetaSync => CommitFlushKeeps(env, w, p, step, now);
    case CommitRename => CommitRenameKeeps(env, w, p, now);
    case CommitSyncParent => CommitParentKeeps(env, w, p, now);
    case CommitCheck => CommitCheckKeeps(env, w, p, now);
    case CommitHash => CommitHashKeeps(env, w, p, now);
    case CommitRecheck => CommitRecheckKeeps(env, w, p, now);
  }

  // ----- Cancel -----

  /** Giving up the promises made to the client is always sound. */
  lemma Forget(env: Env, w: World)
    requires DisksSound(env, w)
    ensures DisksSound(env, w.(acked := []))
  {}

  lemma Unlink(env: Env, w: World, p: Proc, disk: Disk, step: CancelStep)
    requires DisksSound(env, w) && w.acked == []
    requires DataOf(disk).None? && DiskSound(env, w.inodes, disk, [])
    requires !step.RemoveData? && CancelSound(w.(disk := disk), p, step)
    ensures Inv(env, Goto(Relink(w, disk), p, Cancelling(step)))
  {
    RelinkSound(env, w, disk);
  }

  lemma CancelKeeps(env: Env, w: World, p: Proc, step: CancelStep)
    requires DisksSound(env, w) && CancelSound(w, p, step)
    ensures Inv(env, StepCancel(w, p, step))
  {
    if step.RemoveSync? {
      return;
    }
    var dir := w.disk.stage.value;
    match step
    case RemoveData =>
      Forget(env, w);
      Unlink(env, w.(acked := []), p, w.disk.(stage := Some(dir.(data := None, cancelled := true))), RemoveNext);
    case RemoveNext => Unlink(env, w, p, w.disk.(stage := Some(dir.(next := None))), RemoveState);
    case RemoveState => Unlink(env, w, p, w.disk.(stage := Some(dir.(state := None))), RemoveLock);
    case RemoveLock => Unlink(env, w, p, w.disk.(stage := Some(dir.(lock := false))), RemoveDir);
    case RemoveDir => Unlink(env, w, p, w.disk.(stage := None), RemoveSync);
  }

  // ----- Loss of power -----

  /** Contents that survive a loss of power still hold every checkpointed block. */
  lemma SurvivingInode(env: Env, inode: Inode, after: Inode, j: Journal, kept: Bytes)
    requires JournalSound(j) && InodeSound(env, inode, j, kept)
    requires Remains(inode, after)
    ensures InodeSound(env, after, j, kept)
  {
    var bytes := after.node.bytes;
    forall i | 0 <= i < |kept| ensures bytes[i] == kept[i] {
      assert kept[i] == inode.stable[i] == inode.node.bytes[i];
    }
    if j.digest.Some? {
      FlushedRemains(inode, after);
    }
  }

  /** A flushed file survives a loss of power as it is. */
  lemma FlushedRemains(inode: Inode, after: Inode)
    requires Flushed(inode) && Remains(inode, after)
    ensures after == inode
  {
    assert after.node.bytes == inode.stable;
  }

  lemma LossKeeps(env: Env, w: World, survivor: nat, staged: seq<Inode>, files: map<Path, Inode>)
    requires DisksSound(env, w)
    requires Plausible(w.inodes, staged)
    ensures Inv(env, World(SettledDisk(Candidate(w, survivor)).(files := files), staged, [], None, w.acked, None))
  {
    var d := Candidate(w, survivor);
    assert DiskSound(env, w.inodes, d, w.acked);
    if HasState(d) && DataOf(d).Some? {
      var i := DataOf(d).value;
      SurvivingInode(env, w.inodes[i], staged[i], StateOf(d), d.stage.value.kept);
    }
  }

  // ----- Every step -----

  lemma StepKeeps(env: Env, w: World, now: Meta)
    requires Inv(env, w) && w.proc.Some?
    ensures Inv(env, Step(env, w, w.proc.value, now))
  {
    var p := w.proc.value;
    match p.pc
    case Opening(step) => OpenKeeps(env, w, p, step);
    case Initialising(step) => InitKeeps(env, w, p, step, now);
    case Saving(step, purpose) => SaveKeeps(env, w, p, step, purpose);
    case Preparing(step) => PrepareKeeps(env, w, p, step, now);
    case Writing(step) => WriteKeeps(env, w, p, step, now);
    case Committing(step) => CommitKeeps(env, w, p, step, now);
    case Cancelling(step) => CancelKeeps(env, w, p, step);
  }

  /** What a command relies on is all inside its stage. */
  lemma ProcFrame(env: Env, w: World, after: World, p: Proc)
    requires ProcSound(env, w, p)
    requires after.disk.stage == w.disk.stage && after.inodes == w.inodes && after.acked == w.acked
    ensures ProcSound(env, after, p)
  {
    if p.pc.Saving? {
      SaveFrame(env, w, after, p);
    }
  }

  lemma SaveFrame(env: Env, w: World, after: World, p: Proc)
    requires p.pc.Saving? && ProcSound(env, w, p)
    requires after.disk.stage == w.disk.stage && after.inodes == w.inodes
    ensures ProcSound(env, after, p)
  {}

  lemma StartKeeps(env: Env, w: World, call: Call)
    requires Inv(env, w)
    ensures Inv(env, Next(env, w, Start(call)))
  {
    if w.proc.Some? {
      ProcFrame(env, w, Next(env, w, Start(call)), w.proc.value);
    } else {
      var after := Begin(w, call);
      assert DisksSound(env, after);
      assert after.proc.Some? ==> ProcSound(env, after, after.proc.value);
    }
  }

  /** A change by somebody else leaves the stage alone. */
  lemma OutsideKeeps(env: Env, w: World, files: map<Path, Inode>)
    requires Inv(env, w)
    ensures Inv(env, Relink(w, w.disk.(files := files)))
  {
    var after := Relink(w, w.disk.(files := files));
    RelinkSound(env, w, after.disk);
    if w.proc.Some? {
      ProcFrame(env, w, after, w.proc.value);
    }
  }

  lemma NextKeeps(env: Env, w: World, a: Action)
    requires Inv(env, w)
    ensures Inv(env, Next(env, w, a))
  {
    match a
    case Start(call) => StartKeeps(env, w, call);
    case Advance(now) => if w.proc.Some? { StepKeeps(env, w, now); }
    case Abort =>
    case TornWrite(count, now) => if w.proc.Some? { TornKeeps(env, w, w.proc.value, count, now); }
    case Outside(_, _) => OutsideKeeps(env, w, Next(env, w, a).disk.files);
    case PowerLoss(survivor, staged, files) =>
      if Plausible(w.inodes, staged) { LossKeeps(env, w, survivor, staged, files); }
  }

  /** Safety over whole runs: the invariant holds in every reachable state. */
  lemma {:induction false} RunKeeps(env: Env, w: World, actions: seq<Action>)
    requires Inv(env, w)
    ensures Inv(env, Run(env, w, actions))
    decreases |actions|
  {
    if actions != [] {
      NextKeeps(env, w, actions[0]);
      RunKeeps(env, Next(env, w, actions[0]), actions[1..]);
    }
  }
}
