/** What the transfer invariant means for the destination and for the client,
    in every reachable state and over whole runs. */
module TransferSafety {
  import opened Wrappers
  import opened TransferDisk
  import opened TransferProtocol
  import opened TransferInvariant

  // ----- One state -----

  /** The staged data agrees with its checkpoint. */
  lemma CheckpointFacts(env: Env, w: World)
    requires Inv(env, w)
    requires HasState(w.disk)
    ensures var j, dir := StateOf(w.disk), w.disk.stage.value;
            && |dir.kept| == j.offset <= j.source.length
            && w.acked <= dir.kept
            && (j.digest.Some? ==> j.offset == j.source.length)
            && (j.committed ==> j.digest.Some? && !HasData(w))
            && (!dir.cancelled && !HasData(w) ==> dir.published == 1 && j.digest.Some?)
    ensures HasData(w) ==>
              var j, bytes := StateOf(w.disk), DataInode(w).node.bytes;
              && j.offset <= |bytes| <= j.source.length
              && bytes[..j.offset] == w.disk.stage.value.kept
              && (j.offset == j.source.length ==> bytes == w.disk.stage.value.kept)
              && (j.digest.Some? ==> env.digest(bytes) == j.digest.value)
  {
    if HasData(w) {
      assert InodeSound(env, DataInode(w), StateOf(w.disk), w.disk.stage.value.kept);
    }
  }

  /** A block acknowledged to the client is in the checkpoint, whatever happened since. */
  lemma AcknowledgedIsCheckpointed(env: Env, w: World)
    requires Inv(env, w)
    requires w.acked != []
    ensures HasState(w.disk) && w.acked <= w.disk.stage.value.kept
    ensures HasData(w) ==> w.acked <= DataInode(w).node.bytes
  {
    CheckpointFacts(env, w);
  }

  // ----- One step -----

  predicate OwnStep(a: Action) {
    a.Start? || a.Advance? || a.Abort? || a.TornWrite?
  }

  /** The step that publishes. */
  predicate Publishes(w: World, a: Action) {
    && a.Advance?
    && w.proc.Some?
    && w.proc.value.pc == Committing(CommitRename)
    && HasData(w)
    && CanPublish(w.disk.files, w.proc.value.journal)
  }

  /** The commands change the destination in one step only: it becomes a complete
      file with the digest that is already on disk in the journal, with the permissions
      and the modification time of its source, and everything of it has been flushed. */
  lemma OnlyPublishingChangesFiles(env: Env, w: World, a: Action)
    requires Inv(env, w) && OwnStep(a)
    ensures !Publishes(w, a) ==> Next(env, w, a).disk.files == w.disk.files
    ensures Publishes(w, a) ==>
              && HasState(w.disk)
              && var j, node := StateOf(w.disk), DataInode(w).node;
              && Next(env, w, a).disk.files == w.disk.files[j.path := DataInode(w)]
              && Flushed(DataInode(w))
              && node.mode == j.source.mode % 512 && node.modified == j.source.modified
              && node.kind == RegularFile
              && |node.bytes| == j.source.length
              && node.bytes == w.disk.stage.value.kept
              && j.digest == Some(env.digest(node.bytes))
              && j.path == w.proc.value.call.path
              && w.proc.value.call.op == Commit(j.digest.value)
              && (j.expected.None? ==> j.path !in w.disk.files)
  {
    if Publishes(w, a) {
      assert CommitSound(env, w, w.proc.value, CommitRename);
      CheckpointFacts(env, w);
      assert InodeSound(env, DataInode(w), StateOf(w.disk), w.disk.stage.value.kept);
    } else if a.Advance? && w.proc.Some? {
      StepKeepsFiles(env, w, a.now);
    }
  }

  lemma StepKeepsFiles(env: Env, w: World, now: Meta)
    requires w.proc.Some? && !Publishes(w, Advance(now))
    ensures Step(env, w, w.proc.value, now).disk.files == w.disk.files
  {}

  /** Once a digest is recorded nothing alters the staged file any more: no
      command, no stop, no torn write and no loss of power. */
  lemma RecordedDigestFreezesData(env: Env, w: World, a: Action)
    requires Inv(env, w)
    requires HasState(w.disk) && StateOf(w.disk).digest.Some? && HasData(w)
    ensures var i := w.disk.stage.value.data.value;
            && i < |Next(env, w, a).inodes|
            && Next(env, w, a).inodes[i].node.bytes == w.inodes[i].node.bytes
  {
    var inode := DataInode(w);
    assert InodeSound(env, inode, StateOf(w.disk), w.disk.stage.value.kept);
    match a
    case PowerLoss(_, staged, _) =>
      if Plausible(w.inodes, staged) {
        FlushedRemains(inode, staged[w.disk.stage.value.data.value]);
      }
    case Advance(now) =>
      if w.proc.Some? {
        FrozenStep(env, w, now);
      }
    case _ =>
  }

  lemma FrozenStep(env: Env, w: World, now: Meta)
    requires Inv(env, w) && w.proc.Some?
    requires HasState(w.disk) && StateOf(w.disk).digest.Some? && HasData(w)
    ensures var i := w.disk.stage.value.data.value;
            && i < |Step(env, w, w.proc.value, now).inodes|
            && Step(env, w, w.proc.value, now).inodes[i].node.bytes == w.inodes[i].node.bytes
  {
    assert InodeSound(env, DataInode(w), StateOf(w.disk), w.disk.stage.value.kept);
  }

  /** Prepare never finds the data file shorter than its checkpoint. */
  lemma PrepareNeverFindsShortData(env: Env, w: World, now: Meta)
    requires Inv(env, w) && w.proc.Some? && w.proc.value.call.op.Prepare?
    ensures Next(env, w, Advance(now)).proc.Some? || Next(env, w, Advance(now)).reply != Some(Failed(Checkpoint))
  {
    var p := w.proc.value;
    if p.pc == Preparing(PrepareData) {
      CheckpointFacts(env, w);
    }
  }

  /** Only Cancel takes back what a Write acknowledged. */
  lemma AcknowledgementsGrow(env: Env, w: World, a: Action)
    requires Inv(env, w)
    requires !(a.Advance? && w.proc.Some? && w.proc.value.pc == Cancelling(RemoveData))
    ensures w.acked <= Next(env, w, a).acked
  {
    if a.Advance? && w.proc.Some? {
      var p := w.proc.value;
      if p.pc.Saving? && p.pc.step.SaveSyncDir? {
        assert Loaded(w, p);
        CheckpointFacts(env, w);
      }
    }
  }

  /** A Write that answers Ready has appended exactly its block, and the block
      can no longer be lost. */
  lemma WriteReplyPromises(env: Env, w: World, a: Action)
    requires Inv(env, w)
    requires w.proc.Some? && w.proc.value.call.op.Write?
    requires Next(env, w, a).reply.Some? && Next(env, w, a).reply.value.Ready?
    requires Next(env, w, a).proc.None?
    ensures var after, p := Next(env, w, a), w.proc.value;
            && after.unsynced == []
            && after.acked == w.disk.stage.value.kept
            && |after.acked| == after.reply.value.offset == p.call.op.offset + |p.call.op.block|
            && after.acked[p.call.op.offset..] == p.call.op.block
  {
    var p := w.proc.value;
    assert a.Advance? && p.pc == Saving(SaveSyncDir, ForBlock);
    assert Saved(w, p, ForBlock);
    CheckpointFacts(env, w);
    var kept := w.disk.stage.value.kept;
    assert kept[..p.call.op.offset] + p.call.op.block == kept;
  }

  /** Done is answered only when every directory operation has been flushed, except for
      a cancel that finds nothing to remove. */
  lemma DoneIsDurable(env: Env, w: World, a: Action)
    requires Inv(env, w) && w.proc.Some?
    requires Next(env, w, a).proc.None? && Next(env, w, a).reply == Some(Done)
    ensures Next(env, w, a).unsynced == []
    ensures w.proc.value.call.op.Commit? ==> HasState(Next(env, w, a).disk) && StateOf(Next(env, w, a).disk).committed
    ensures w.proc.value.call.op.Cancel? ==> Next(env, w, a).disk.stage.None?
  {
    var p := w.proc.value;
    assert a.Advance?;
    match p.pc
    case Saving(step, purpose) => SaveDone(env, w, p, step, purpose);
    case Cancelling(step) => CancelDone(w, p, step);
    case _ => NotDoneYet(env, w, p, a.now);
  }

  lemma SaveDone(env: Env, w: World, p: Proc, step: SaveStep, purpose: Purpose)
    requires w.proc == Some(p) && SaveSound(env, w, p, step, purpose)
    requires StepSave(w, p, step, purpose).proc.None? && StepSave(w, p, step, purpose).reply == Some(Done)
    ensures var after := StepSave(w, p, step, purpose);
            after.unsynced == [] && HasState(after.disk) && StateOf(after.disk).committed && !p.call.op.Cancel?
  {
    assert step.SaveSyncDir? && Saved(w, p, purpose);
  }

  lemma CancelDone(w: World, p: Proc, step: CancelStep)
    requires w.proc == Some(p) && CancelSound(w, p, step)
    requires StepCancel(w, p, step).proc.None? && StepCancel(w, p, step).reply == Some(Done)
    ensures StepCancel(w, p, step).unsynced == [] && StepCancel(w, p, step).disk.stage.None? && p.call.op.Cancel?
  {}

  lemma NotDoneYet(env: Env, w: World, p: Proc, now: Meta)
    requires w.proc == Some(p) && !p.pc.Saving? && !p.pc.Cancelling?
    ensures var after := Step(env, w, p, now); after.proc.None? ==> after.reply != Some(Done)
  {
    match p.pc
    case Opening(step) => assert StepOpen(w, p, step).proc.None? ==> StepOpen(w, p, step).reply != Some(Done);
    case Initialising(step) => assert StepInit(w, p, step, now).proc.None? ==> StepInit(w, p, step, now).reply != Some(Done);
    case Preparing(step) => assert StepPrepare(env, w, p, step, now).proc.None? ==> StepPrepare(env, w, p, step, now).reply != Some(Done);
    case Writing(step) => assert StepWrite(env, w, p, step, now).proc.None? ==> StepWrite(env, w, p, step, now).reply != Some(Done);
    case Committing(step) => assert StepCommit(env, w, p, step, now).proc.None? ==> StepCommit(env, w, p, step, now).reply != Some(Done);
  }

  /** A publication is flushed before the commit is recorded, and a new stage before
      anything is answered about it. */
  lemma FlushedBeforeRecorded(env: Env, w: World, now: Meta)
    requires Inv(env, w) && w.proc.Some?
    ensures var p, after := w.proc.value, Step(env, w, w.proc.value, now);
            && (p.pc.Committing? && after.proc.Some? && after.proc.value.pc == Saving(SaveOpen, ForCommit) ==> after.unsynced == [])
            && (p.pc.Initialising? && after.proc.Some? && after.proc.value.pc.Preparing? ==> after.unsynced == [])
  {
    var p := w.proc.value;
    match p.pc
    case Committing(step) => CommitFlushes(env, w, p, step, now);
    case Initialising(step) => InitFlushes(w, p, step, now);
    case _ =>
  }

  lemma CommitFlushes(env: Env, w: World, p: Proc, step: CommitStep, now: Meta)
    ensures var after := StepCommit(env, w, p, step, now);
            after.proc.Some? && after.proc.value.pc == Saving(SaveOpen, ForCommit) && p.pc.Committing? && w.proc == Some(p) ==>
              after.unsynced == []
  {}

  lemma InitFlushes(w: World, p: Proc, step: InitStep, now: Meta)
    requires p.pc.Initialising? && w.proc == Some(p)
    ensures var after := StepInit(w, p, step, now);
            after.proc.Some? && after.proc.value.pc.Preparing? ==> after.unsynced == []
  {}
}
