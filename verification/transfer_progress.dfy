/** A transfer whose client keeps sending the same source, whose destination
    nobody else touches and which is not cancelled stays on track: wherever it is
    stopped, what is on disk can be resumed. */
module TransferProgress {
  import opened Wrappers
  import opened TransferDisk
  import opened TransferProtocol
  import opened TransferInvariant
  import opened TransferSafety

  /** What a client wants: its source, byte by byte, at one path. */
  datatype Target = Target(owner: string, path: Path, source: Stamp, expected: Option<Stamp>, content: Bytes)

  predicate Sensible(t: Target) {
    && t.source.kind == RegularFile
    && |t.content| == t.source.length
    && (t.expected.Some? ==> t.expected.value.kind != Directory)
  }

  predicate Fits(t: Target, j: Journal) {
    j.owner == t.owner && j.path == t.path && j.source == t.source && j.expected == t.expected
  }

  /** The calls such a client makes, any number of times and in any order. */
  predicate CallFits(t: Target, call: Call) {
    && call.owner == t.owner
    && call.path == t.path
    && match call.op
       case Prepare(source, expected) => source == t.source && expected == t.expected
       case Write(offset, _, block) => offset + |block| <= |t.content| ==> block == t.content[offset..offset + |block|]
       case Commit(_) => true
       case Cancel => false
  }

  predicate ActionFits(t: Target, a: Action) {
    && (a.Start? ==> CallFits(t, a.call))
    && (a.Outside? ==> a.path != t.path)
  }

  predicate DocFits(t: Target, doc: Option<Doc>) {
    doc.Some? && doc.value.journal.Some? ==> Fits(t, doc.value.journal.value)
  }

  predicate DirOnTrack(t: Target, dir: Dir) {
    && !dir.cancelled
    && DocFits(t, dir.state)
    && (dir.state.Some? ==> dir.kept <= t.content)
    && (dir.state.None? ==> dir.published == 0)
  }

  /** The destination is untouched until the transfer publishes, and its own
      afterwards; either way it is flushed. */
  predicate DiskOnTrack(t: Target, d: Disk) {
    && (t.path in d.files ==> Flushed(d.files[t.path]))
    && (d.stage.Some? ==> DirOnTrack(t, d.stage.value))
    && if d.stage.Some? && d.stage.value.published > 0 then
         && t.path in d.files
         && d.files[t.path].node.kind == RegularFile
         && d.files[t.path].node.bytes == d.stage.value.kept
         && Stamped(d.files[t.path].node, t.source)
       else Stat(d.files, t.path) == t.expected
  }

  ghost predicate OnTrack(t: Target, w: World) {
    && Sensible(t)
    && DiskOnTrack(t, w.disk)
    && (forall d :: d in w.unsynced ==> DiskOnTrack(t, d))
    && (w.proc.Some? ==>
          var p := w.proc.value;
          && CallFits(t, p.call)
          && !p.pc.Cancelling?
          && (p.pc.Opening? ==> p.journal == Initial(p.call))
          && (p.pc.Opening? || Fits(t, p.journal)))
  }

  lemma OpenOnTrack(t: Target, w: World, p: Proc, step: OpenStep)
    requires OnTrack(t, w) && w.proc == Some(p) && p.pc == Opening(step)
    ensures OnTrack(t, StepOpen(w, p, step))
  {}

  lemma InitOnTrack(t: Target, w: World, p: Proc, step: InitStep, now: Meta)
    requires OnTrack(t, w) && w.proc == Some(p) && p.pc == Initialising(step)
    requires InitSound(w, p, step)
    ensures OnTrack(t, StepInit(w, p, step, now))
  {}

  lemma SaveOnTrack(env: Env, t: Target, w: World, p: Proc, step: SaveStep, purpose: Purpose)
    requires OnTrack(t, w) && w.proc == Some(p) && p.pc == Saving(step, purpose) && Inv(env, w)
    ensures OnTrack(t, StepSave(w, p, step, purpose))
  {
    if step.SaveRename? {
      RenameOnTrack(env, t, w, p, purpose);
    }
  }

  lemma NextPrefix(content: Bytes, kept: Bytes, block: Bytes)
    requires kept <= content && |kept| + |block| <= |content| && block == content[|kept|..|kept| + |block|]
    ensures kept + block <= content
  {}

  lemma RenameOnTrack(env: Env, t: Target, w: World, p: Proc, purpose: Purpose)
    requires OnTrack(t, w) && w.proc == Some(p) && p.pc == Saving(SaveRename, purpose) && Inv(env, w)
    ensures OnTrack(t, StepSave(w, p, SaveRename, purpose))
  {
    assert SaveReady(env, w, p, purpose) && Drafted(w, p, SaveRename);
    var kept := w.disk.stage.value.kept;
    if purpose.ForBlock? {
      var offset, block := p.call.op.offset, p.call.op.block;
      assert |kept| == offset && offset + |block| <= |t.content|;
      NextPrefix(t.content, kept, block);
    }
  }

  lemma CommitOnTrack(env: Env, t: Target, w: World, p: Proc, step: CommitStep, now: Meta)
    requires OnTrack(t, w) && w.proc == Some(p) && p.pc == Committing(step) && Inv(env, w)
    ensures OnTrack(t, StepCommit(env, w, p, step, now))
  {
    if Publishes(w, Advance(now)) {
      OnlyPublishingChangesFiles(env, w, Advance(now));
      assert StepCommit(env, w, p, step, now) == Goto(Publish(w, p.journal.path), p, Committing(CommitSyncParent));
      assert DiskOnTrack(t, Publish(w, p.journal.path).disk);
    }
  }

  lemma PrepareOnTrack(env: Env, t: Target, w: World, p: Proc, step: PrepareStep, now: Meta)
    requires OnTrack(t, w) && w.proc == Some(p) && p.pc == Preparing(step)
    ensures OnTrack(t, StepPrepare(env, w, p, step, now))
  {}

  lemma WriteOnTrack(env: Env, t: Target, w: World, p: Proc, step: WriteStep, now: Meta)
    requires OnTrack(t, w) && w.proc == Some(p) && p.pc == Writing(step)
    ensures OnTrack(t, StepWrite(env, w, p, step, now))
  {}

  lemma StepOnTrack(env: Env, t: Target, w: World, now: Meta)
    requires OnTrack(t, w) && w.proc.Some? && Inv(env, w)
    ensures OnTrack(t, Step(env, w, w.proc.value, now))
  {
    var p := w.proc.value;
    match p.pc
    case Opening(step) => OpenOnTrack(t, w, p, step);
    case Initialising(step) => InitOnTrack(t, w, p, step, now);
    case Saving(step, purpose) => SaveOnTrack(env, t, w, p, step, purpose);
    case Committing(step) => CommitOnTrack(env, t, w, p, step, now);
    case Preparing(step) => PrepareOnTrack(env, t, w, p, step, now);
    case Writing(step) => WriteOnTrack(env, t, w, p, step, now);
    case Cancelling(_) =>
  }

  lemma LossOnTrack(env: Env, t: Target, w: World, survivor: nat, staged: seq<Inode>, files: map<Path, Inode>)
    requires OnTrack(t, w)
    ensures OnTrack(t, Next(env, w, PowerLoss(survivor, staged, files)))
  {
    var d := Candidate(w, survivor);
    if Plausible(w.inodes, staged) && PlausibleTree(d.files, files) {
      SettledOnTrack(t, d, files);
    }
  }

  lemma SettledOnTrack(t: Target, d: Disk, files: map<Path, Inode>)
    requires DiskOnTrack(t, d) && PlausibleTree(d.files, files)
    ensures DiskOnTrack(t, SettledDisk(d).(files := files))
  {
    if t.path in d.files {
      FlushedRemains(d.files[t.path], files[t.path]);
    }
  }

  lemma NextOnTrack(env: Env, t: Target, w: World, a: Action)
    requires OnTrack(t, w) && Inv(env, w) && ActionFits(t, a)
    ensures OnTrack(t, Next(env, w, a))
  {
    match a
    case Start(call) => StartOnTrack(env, t, w, call);
    case Advance(now) => if w.proc.Some? { StepOnTrack(env, t, w, now); }
    case PowerLoss(survivor, staged, files) => LossOnTrack(env, t, w, survivor, staged, files);
    case _ =>
  }

  lemma StartOnTrack(env: Env, t: Target, w: World, call: Call)
    requires OnTrack(t, w) && CallFits(t, call)
    ensures OnTrack(t, Next(env, w, Start(call)))
  {}

  /** Stops, torn writes and losses of power in any number keep a transfer on track. */
  lemma {:induction false} RunOnTrack(env: Env, t: Target, w: World, actions: seq<Action>)
    requires OnTrack(t, w) && Inv(env, w)
    requires forall a :: a in actions ==> ActionFits(t, a)
    ensures OnTrack(t, Run(env, w, actions)) && Inv(env, Run(env, w, actions))
    decreases |actions|
  {
    if actions != [] {
      NextOnTrack(env, t, w, actions[0]);
      NextKeeps(env, w, actions[0]);
      RunOnTrack(env, t, Next(env, w, actions[0]), actions[1..]);
    }
  }

  /** Every transfer starts on track: nothing staged, and at its path what it expects. */
  lemma BootOnTrack(t: Target, files: map<Path, Inode>)
    requires Sensible(t) && Stat(files, t.path) == t.expected && (t.path in files ==> Flushed(files[t.path]))
    ensures OnTrack(t, Boot(files))
  {}
}
