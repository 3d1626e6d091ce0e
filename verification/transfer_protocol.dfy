/** The resumable transfer of one token as a state machine. Every step is one
    file-system operation of Prepare, Write, Commit or Cancel, or one event of
    their surroundings: a stop between two operations, a torn write, a change
    made by somebody else, or a loss of power. */
module TransferProtocol {
  import opened Wrappers
  import opened TransferDisk

  /** The hash is a parameter of the model. */
  datatype Env = Env(digest: Bytes -> string)

  datatype Op =
    | Prepare(source: Stamp, expected: Option<Stamp>)
    | Write(offset: nat, digest: string, block: Bytes)
    | Commit(digest: string)
    | Cancel

  datatype Call = Call(owner: string, path: Path, op: Op)

  datatype Fault = Type | SourceChanged | Conflict | Checkpoint | Checksum | Missing | Owner | Busy | Io

  datatype Reply = Ready(offset: nat, complete: bool) | Done | Failed(fault: Fault)

  /** `Stage::save`, one operation at a time. */
  datatype SaveStep = SaveOpen | SaveWrite | SaveSync | SaveRename | SaveSyncDir

  /** Why the journal is being saved. */
  datatype Purpose = ForInit | ForBlock | ForDigest | ForCommit | ForReconcile

  datatype OpenStep = MakeDir | OpenLock | Load

  datatype InitStep = InitData | InitSync | InitSyncParent

  datatype PrepareStep = PrepareCheck | Reconcile | PrepareStat | PrepareData

  datatype WriteStep = WriteCheck | WriteData | WriteSync

  datatype CommitStep =
    | CommitCheck | CommitHash | CommitMeta | CommitMetaSync | CommitRecheck | CommitRename | CommitSyncParent

  datatype CancelStep = RemoveData | RemoveNext | RemoveState | RemoveLock | RemoveDir | RemoveSync

  /** The next operation of the running command. */
  datatype Pc =
    | Opening(open: OpenStep)
    | Initialising(init: InitStep)
    | Saving(step: SaveStep, purpose: Purpose)
    | Preparing(prepare: PrepareStep)
    | Writing(write: WriteStep)
    | Committing(commit: CommitStep)
    | Cancelling(cancel: CancelStep)

  /** A command with its copy of the journal; there is one at a time, which
      `TransferLock` derives from the lock. */
  datatype Proc = Proc(call: Call, pc: Pc, journal: Journal)

  /** `unsynced` holds the directory structure as it was before each directory
      operation since the last directory flush, oldest first. `acked` is what
      Write replies have promised the client. */
  datatype World = World(
    disk: Disk, inodes: seq<Inode>, unsynced: seq<Disk>, proc: Option<Proc>,
    acked: Bytes, reply: Option<Reply>)

  datatype Action =
    | Start(call: Call)
    | Advance(now: Meta)
    | Abort
    | TornWrite(count: nat, now: Meta)
    | Outside(path: Path, file: Option<Inode>)
    | PowerLoss(survivor: nat, staged: seq<Inode>, files: map<Path, Inode>)

  function Initial(call: Call): Journal {
    match call.op
    case Prepare(source, expected) => Journal(call.owner, call.path, source, expected, 0, None, false)
    case _ => Journal(call.owner, call.path, Stamp(RegularFile, 0, 0, 0, 0, 0), None, 0, None, false)
  }

  // ----- Building blocks -----

  function Finish(w: World, reply: Reply): World {
    w.(proc := None, reply := Some(reply))
  }

  function Fail(w: World, fault: Fault): World {
    Finish(w, Failed(fault))
  }

  function Goto(w: World, p: Proc, pc: Pc): World {
    w.(proc := Some(p.(pc := pc)))
  }

  /** Change file contents or history inside the staging directory. */
  function PutDir(w: World, dir: Dir): World {
    w.(disk := w.disk.(stage := Some(dir)))
  }

  /** A directory operation: not durable until a directory is flushed. */
  function Relink(w: World, disk: Disk): World {
    w.(disk := disk, unsynced := w.unsynced + [w.disk])
  }

  function RelinkDir(w: World, dir: Dir): World {
    Relink(w, w.disk.(stage := Some(dir)))
  }

  function SyncDirectories(w: World): World {
    w.(unsynced := [])
  }

  function PutInode(w: World, i: nat, inode: Inode): World
    requires i < |w.inodes|
  {
    w.(inodes := w.inodes[i := inode])
  }

  predicate HasData(w: World) {
    w.disk.stage.Some? && w.disk.stage.value.data.Some? && w.disk.stage.value.data.value < |w.inodes|
  }

  function DataInode(w: World): Inode
    requires HasData(w)
  {
    w.inodes[w.disk.stage.value.data.value]
  }

  function PutData(w: World, inode: Inode): World
    requires HasData(w)
  {
    PutInode(w, w.disk.stage.value.data.value, inode)
  }

  /** Flush the contents of the data file. */
  function SyncData(w: World): World
    requires HasData(w)
  {
    var inode := DataInode(w);
    PutData(w, inode.(stable := inode.node.bytes))
  }

  // ----- Opening the stage (journal.rs) -----

  function AfterStage(op: Op): Pc {
    match op
    case Prepare(_, _) => Preparing(PrepareCheck)
    case Write(_, _, _) => Writing(WriteCheck)
    case Commit(_) => Committing(CommitCheck)
    case Cancel => Cancelling(RemoveData)
  }

  function Begin(w: World, call: Call): World {
    match call.op
    case Prepare(source, _) =>
      if source.kind != RegularFile then Fail(w, Type)
      else w.(proc := Some(Proc(call, Opening(MakeDir), Initial(call))), reply := None)
    case Cancel =>
      if w.disk.stage.None? then Finish(w, Done)
      else w.(proc := Some(Proc(call, Opening(OpenLock), Initial(call))), reply := None)
    case _ => w.(proc := Some(Proc(call, Opening(OpenLock), Initial(call))), reply := None)
  }

  function StepOpen(w: World, p: Proc, step: OpenStep): World {
    match step
    case MakeDir =>
      Goto(if w.disk.stage.None? then RelinkDir(w, EMPTY_DIR) else w, p, Opening(OpenLock))
    case OpenLock =>
      if w.disk.stage.None? then Fail(w, Io)
      else
        var dir := w.disk.stage.value;
        Goto(if dir.lock then w else RelinkDir(w, dir.(lock := true)), p, Opening(Load))
    case _ =>
      if w.disk.stage.None? then Fail(w, Io)
      else
        match w.disk.stage.value.state
        case None => if p.call.op.Prepare? then Goto(w, p, Initialising(InitData)) else Fail(w, Missing)
        case Some(doc) =>
          if doc.journal.None? then Fail(w, Io)
          else if doc.journal.value.owner != p.call.owner || doc.journal.value.path != p.call.path then Fail(w, Owner)
          else w.(proc := Some(p.(pc := AfterStage(p.call.op), journal := doc.journal.value)))
  }

  function StepInit(w: World, p: Proc, step: InitStep, now: Meta): World {
    if w.disk.stage.None? then Fail(w, Io)
    else
      var dir := w.disk.stage.value;
      match step
      case InitData =>
        var reset := dir.(kept := [], published := 0, cancelled := false);
        if HasData(w) then
          var inode := DataInode(w);
          Goto(PutData(PutDir(w, reset), inode.(node := inode.node.(bytes := [], modified := now.modified))).(acked := []),
               p, Initialising(InitSync))
        else
          var created := Inode(Node(RegularFile, [], now.modified, now.device, now.inode, now.mode), []);
          Goto(RelinkDir(w, reset.(data := Some(|w.inodes|))).(inodes := w.inodes + [created], acked := []), p, Initialising(InitSync))
      case InitSync =>
        if HasData(w) then Goto(SyncData(w), p, Saving(SaveOpen, ForInit)) else Fail(w, Io)
      case _ => Goto(SyncDirectories(w), p, Preparing(PrepareCheck))
  }

  // ----- Saving the journal (journal.rs) -----

  /** Where a command continues once its journal is durable. */
  function AfterSave(w: World, p: Proc, purpose: Purpose): World {
    match purpose
    case ForInit => Goto(w, p, Initialising(InitSyncParent))
    case ForBlock =>
      Finish(w, Ready(p.journal.offset, false)).(
        acked := if w.disk.stage.Some? then w.disk.stage.value.kept else w.acked)
    case ForDigest => Goto(w, p, Committing(CommitRecheck))
    case ForCommit => Finish(w, Done)
    case ForReconcile => if p.call.op.Prepare? then Goto(w, p, Preparing(PrepareStat)) else Finish(w, Done)
  }

  function StepSave(w: World, p: Proc, step: SaveStep, purpose: Purpose): World {
    if w.disk.stage.None? then Fail(w, Io)
    else
      var dir := w.disk.stage.value;
      match step
      case SaveOpen =>
        var started := dir.(next := Some(Doc(None, false)));
        Goto(if dir.next.None? then RelinkDir(w, started) else PutDir(w, started), p, Saving(SaveWrite, purpose))
      case SaveWrite =>
        Goto(PutDir(w, dir.(next := Some(Doc(Some(p.journal), false)))), p, Saving(SaveSync, purpose))
      case SaveSync =>
        if dir.next.None? then Fail(w, Io)
        else Goto(PutDir(w, dir.(next := Some(dir.next.value.(synced := true)))), p, Saving(SaveRename, purpose))
      case SaveRename =>
        if dir.next.None? then Fail(w, Io)
        else
          var kept := if purpose.ForBlock? && p.call.op.Write? then dir.kept + p.call.op.block else dir.kept;
          Goto(RelinkDir(w, dir.(state := dir.next, next := None, kept := kept)), p, Saving(SaveSyncDir, purpose))
      case SaveSyncDir => AfterSave(SyncDirectories(w), p, purpose)
  }

  // ----- Prepare, Write, Commit, Cancel (staging.rs) -----

  function SavingJournal(w: World, p: Proc, journal: Journal, purpose: Purpose): World {
    w.(proc := Some(p.(journal := journal, pc := Saving(SaveOpen, purpose))))
  }

  predicate DestinationMatches(env: Env, files: map<Path, Inode>, j: Journal) {
    && j.path in files
    && files[j.path].node.kind == RegularFile
    && |files[j.path].node.bytes| == j.source.length
    && j.digest == Some(env.digest(files[j.path].node.bytes))
  }

  function StepPrepare(env: Env, w: World, p: Proc, step: PrepareStep, now: Meta): World {
    var j := p.journal;
    match step
    case PrepareCheck =>
      if !p.call.op.Prepare? || j.source != p.call.op.source || j.expected != p.call.op.expected then
        Fail(w, SourceChanged)
      else Goto(w, p, if j.digest.Some? && !HasData(w) then Preparing(Reconcile) else Preparing(PrepareStat))
    case Reconcile =>
      if DestinationMatches(env, w.disk.files, j) then SavingJournal(w, p, j.(committed := true), ForReconcile)
      else Fail(w, Conflict)
    case PrepareStat =>
      if !j.committed && Stat(w.disk.files, p.call.path) != j.expected then Fail(w, Conflict)
      else if j.committed then Finish(w, Ready(j.offset, true))
      else Goto(w, p, Preparing(PrepareData))
    case _ =>
      if !HasData(w) then Fail(w, Io)
      else
        var inode := DataInode(w);
        if |inode.node.bytes| < j.offset then Fail(w, Checkpoint)
        else if |inode.node.bytes| > j.offset then
          Finish(PutData(w, inode.(node := inode.node.(bytes := inode.node.bytes[..j.offset], modified := now.modified))),
                 Ready(j.offset, false))
        else Finish(w, Ready(j.offset, false))
  }

  predicate Acceptable(env: Env, j: Journal, op: Op) {
    && op.Write?
    && !j.committed
    && 0 < |op.block| <= CHUNK
    && op.offset == j.offset
    && op.offset + |op.block| <= j.source.length
    && env.digest(op.block) == op.digest
  }

  function WriteBlock(w: World, offset: nat, block: Bytes, now: Meta): World
    requires HasData(w)
  {
    var inode := DataInode(w);
    PutData(w, inode.(node := inode.node.(bytes := WriteAt(inode.node.bytes, offset, block), modified := now.modified)))
  }

  function StepWrite(env: Env, w: World, p: Proc, step: WriteStep, now: Meta): World {
    var j := p.journal;
    match step
    case WriteCheck => if Acceptable(env, j, p.call.op) then Goto(w, p, Writing(WriteData)) else Fail(w, Checkpoint)
    case WriteData =>
      if HasData(w) && p.call.op.Write? then Goto(WriteBlock(w, p.call.op.offset, p.call.op.block, now), p, Writing(WriteSync))
      else Fail(w, Io)
    case _ =>
      if HasData(w) && p.call.op.Write? then
        SavingJournal(SyncData(w), p, j.(offset := j.offset + |p.call.op.block|), ForBlock)
      else Fail(w, Io)
  }

  /** Renaming onto an existing directory fails; a new name is never replaced. */
  predicate CanPublish(files: map<Path, Inode>, j: Journal) {
    if j.expected.None? then j.path !in files
    else j.path in files ==> files[j.path].node.kind != Directory
  }

  function Publish(w: World, path: Path): World
    requires HasData(w)
  {
    var dir := w.disk.stage.value;
    Relink(w, Disk(w.disk.files[path := DataInode(w)],
                   Some(dir.(data := None, published := dir.published + 1))))
  }

  function StepCommit(env: Env, w: World, p: Proc, step: CommitStep, now: Meta): World {
    var j := p.journal;
    match step
    case CommitCheck =>
      if j.digest.Some? && !HasData(w) then Goto(w, p, Preparing(Reconcile))
      else if j.offset != j.source.length || Stat(w.disk.files, p.call.path) != j.expected then Fail(w, Conflict)
      else Goto(w, p, Committing(CommitHash))
    case CommitHash =>
      if !HasData(w) || !p.call.op.Commit? then Fail(w, Io)
      else if env.digest(DataInode(w).node.bytes) != p.call.op.digest then Fail(w, Checksum)
      else Goto(w, p, Committing(CommitMeta))
    case CommitMeta =>
      if !HasData(w) then Fail(w, Io)
      else
        var inode := DataInode(w);
        Goto(PutData(w, inode.(node := inode.node.(mode := j.source.mode % 512, modified := j.source.modified))),
             p, Committing(CommitMetaSync))
    case CommitMetaSync =>
      if !HasData(w) || !p.call.op.Commit? then Fail(w, Io)
      else SavingJournal(SyncData(w), p, j.(digest := Some(p.call.op.digest)), ForDigest)
    case CommitRecheck =>
      if Stat(w.disk.files, p.call.path) != j.expected then Fail(w, Conflict) else Goto(w, p, Committing(CommitRename))
    case CommitRename =>
      if HasData(w) && CanPublish(w.disk.files, j) then Goto(Publish(w, j.path), p, Committing(CommitSyncParent)) else Fail(w, Io)
    case _ => SavingJournal(SyncDirectories(w), p, j.(committed := true), ForCommit)
  }

  function StepCancel(w: World, p: Proc, step: CancelStep): World {
    if step.RemoveSync? then Finish(SyncDirectories(w), Done)
    else if w.disk.stage.None? then Fail(w, Io)
    else
      var dir := w.disk.stage.value;
      match step
      case RemoveData => Goto(RelinkDir(w, dir.(data := None, cancelled := true)).(acked := []), p, Cancelling(RemoveNext))
      case RemoveNext => Goto(RelinkDir(w, dir.(next := None)), p, Cancelling(RemoveState))
      case RemoveState => Goto(RelinkDir(w, dir.(state := None)), p, Cancelling(RemoveLock))
      case RemoveLock => Goto(RelinkDir(w, dir.(lock := false)), p, Cancelling(RemoveDir))
      case _ => Goto(Relink(w, w.disk.(stage := None)), p, Cancelling(RemoveSync))
  }

  // ----- The machine -----

  function Step(env: Env, w: World, p: Proc, now: Meta): World {
    match p.pc
    case Opening(step) => StepOpen(w, p, step)
    case Initialising(step) => StepInit(w, p, step, now)
    case Saving(step, purpose) => StepSave(w, p, step, purpose)
    case Preparing(step) => StepPrepare(env, w, p, step, now)
    case Writing(step) => StepWrite(env, w, p, step, now)
    case Committing(step) => StepCommit(env, w, p, step, now)
    case Cancelling(step) => StepCancel(w, p, step)
  }

  function Torn(w: World, p: Proc, count: nat, now: Meta): World {
    if p.pc == Writing(WriteData) && HasData(w) && p.call.op.Write? && count <= |p.call.op.block| then
      Fail(WriteBlock(w, p.call.op.offset, p.call.op.block[..count], now), Io)
    else Fail(w, Io)
  }

  /** Directory operations survive a loss of power in the order they were made
      (an ordered metadata journal), so some earlier structure comes back. */
  function Candidate(w: World, survivor: nat): Disk {
    if survivor < |w.unsynced| then w.unsynced[survivor] else w.disk
  }

  /** What is left of the data files and of the published tree. */
  ghost predicate Plausible(inodes: seq<Inode>, staged: seq<Inode>) {
    |staged| == |inodes| && forall i :: 0 <= i < |inodes| ==> Remains(inodes[i], staged[i])
  }

  ghost predicate PlausibleTree(before: map<Path, Inode>, after: map<Path, Inode>) {
    after.Keys == before.Keys && forall path :: path in before ==> Remains(before[path], after[path])
  }

  ghost function Next(env: Env, w: World, a: Action): World {
    match a
    case Start(call) => if w.proc.Some? then w.(reply := Some(Failed(Busy))) else Begin(w, call)
    case Advance(now) => if w.proc.Some? then Step(env, w, w.proc.value, now) else w
    case Abort => if w.proc.Some? then Fail(w, Io) else w
    case TornWrite(count, now) => if w.proc.Some? then Torn(w, w.proc.value, count, now) else w
    case Outside(path, file) =>
      Relink(w, w.disk.(files := if file.Some? then w.disk.files[path := file.value] else w.disk.files - {path}))
    case PowerLoss(survivor, staged, files) =>
      var d := Candidate(w, survivor);
      if Plausible(w.inodes, staged) && PlausibleTree(d.files, files) then
        World(SettledDisk(d).(files := files), staged, [], None, w.acked, None)
      else w
  }

  ghost function Run(env: Env, w: World, actions: seq<Action>): World
    decreases |actions|
  {
    if actions == [] then w else Run(env, Next(env, w, actions[0]), actions[1..])
  }

  function Boot(files: map<Path, Inode>): World {
    World(Disk(files, None), [], [], None, [], None)
  }
}
