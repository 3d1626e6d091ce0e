/** Whole runs of the transfer protocol: where the contents of the destination
    come from, and how often a transfer can publish. */
module TransferRuns {
  import opened Wrappers
  import opened TransferDisk
  import opened TransferProtocol
  import opened TransferInvariant
  import opened TransferSafety

  // ----- Provenance -----

  function CallsOf(actions: seq<Action>): set<Call> {
    set a | a in actions && a.Start? :: a.call
  }

  /** The files that others put into the tree. */
  function GivenBy(actions: seq<Action>): set<(Path, Inode)> {
    set a | a in actions && a.Outside? && a.file.Some? :: (a.path, a.file.value)
  }

  /** A file of others, or what a loss of power left of it. */
  ghost predicate From(given: set<(Path, Inode)>, path: Path, file: Inode) {
    (path, file) in given || exists g: (Path, Inode) :: g in given && g.0 == path && Remains(g.1, file)
  }

  /** The transfer was announced with this source. */
  ghost predicate Prepared(calls: set<Call>, j: Journal) {
    exists c :: c in calls && c.op.Prepare? && c.path == j.path && c.op.source == j.source
  }

  /** A complete file: as long as an announced source and with its permissions and
      modification time, with the digest a client asked to commit, and flushed. */
  ghost predicate Complete(env: Env, calls: set<Call>, path: Path, file: Inode) {
    && var node := file.node;
    && Flushed(file)
    && node.kind == RegularFile
    && (exists c :: c in calls && c.path == path && c.op == Commit(env.digest(node.bytes)))
    && (exists c :: c in calls && c.path == path && c.op.Prepare? && c.op.source.length == |node.bytes| && Stamped(node, c.op.source))
  }

  ghost predicate FilesAccounted(env: Env, files: map<Path, Inode>, given: set<(Path, Inode)>, calls: set<Call>) {
    forall path :: path in files ==> From(given, path, files[path]) || Complete(env, calls, path, files[path])
  }

  ghost predicate DiskAccounted(env: Env, d: Disk, given: set<(Path, Inode)>, calls: set<Call>) {
    && FilesAccounted(env, d.files, given, calls)
    && (HasState(d) ==> Prepared(calls, StateOf(d)))
  }

  ghost predicate Accounted(env: Env, w: World, given: set<(Path, Inode)>, calls: set<Call>) {
    && DiskAccounted(env, w.disk, given, calls)
    && (forall d :: d in w.unsynced ==> DiskAccounted(env, d, given, calls))
    && (w.proc.Some? ==>
          var p := w.proc.value;
          && p.call in calls
          && (p.pc.Opening? ==> p.journal == Initial(p.call))
          && ((p.pc.Opening? && !p.call.op.Prepare?) || Prepared(calls, p.journal)))
  }

  lemma AccountedGrows(env: Env, w: World, given: set<(Path, Inode)>, calls: set<Call>,
                       given': set<(Path, Inode)>, calls': set<Call>)
    requires Accounted(env, w, given, calls)
    requires given <= given' && calls <= calls'
    ensures Accounted(env, w, given', calls')
  {
    forall path, file | Complete(env, calls, path, file) ensures Complete(env, calls', path, file) {}
    forall path, file | From(given, path, file) ensures From(given', path, file) {}
    forall j | Prepared(calls, j) ensures Prepared(calls', j) {}
  }

  /** A new structure is accounted for when its files and its checkpoint are. */
  lemma RelinkAccounted(env: Env, w: World, disk: Disk, given: set<(Path, Inode)>, calls: set<Call>)
    requires Accounted(env, w, given, calls)
    requires DiskAccounted(env, disk, given, calls)
    ensures Accounted(env, Relink(w, disk), given, calls)
  {}

  lemma PublishAccounted(env: Env, w: World, given: set<(Path, Inode)>, calls: set<Call>, now: Meta)
    requires Inv(env, w) && Accounted(env, w, given, calls)
    requires Publishes(w, Advance(now))
    ensures DiskAccounted(env, Step(env, w, w.proc.value, now).disk, given, calls)
  {
    OnlyPublishingChangesFiles(env, w, Advance(now));
    var p, node := w.proc.value, DataInode(w).node;
    assert p.call.op == Commit(env.digest(node.bytes));
    assert Prepared(calls, StateOf(w.disk));
    assert Complete(env, calls, p.journal.path, DataInode(w));
  }

  /** Steps that leave the files alone can only save the journal in memory. */
  lemma QuietStepAccounted(env: Env, w: World, given: set<(Path, Inode)>, calls: set<Call>, now: Meta)
    requires Inv(env, w) && Accounted(env, w, given, calls) && w.proc.Some?
    requires !Publishes(w, Advance(now))
    ensures DiskAccounted(env, Step(env, w, w.proc.value, now).disk, given, calls)
  {
    StepKeepsFiles(env, w, now);
    StepState(env, w, now);
  }

  /** The saved journal stays, or becomes the one in memory. */
  lemma StepState(env: Env, w: World, now: Meta)
    requires Inv(env, w) && w.proc.Some?
    ensures var after := Step(env, w, w.proc.value, now);
            HasState(after.disk) ==>
              (HasState(w.disk) && StateOf(after.disk) == StateOf(w.disk)) || StateOf(after.disk) == w.proc.value.journal
  {
    var p := w.proc.value;
    match p.pc
    case Opening(step) => OpenState(w, p, step);
    case Saving(step, purpose) => SaveState(env, w, p, step, purpose);
    case Committing(step) => CommitState(env, w, p, step, now);
    case _ =>
  }

  predicate JournalFrom(w: World, after: World, j: Journal) {
    HasState(after.disk) ==> (HasState(w.disk) && StateOf(after.disk) == StateOf(w.disk)) || StateOf(after.disk) == j
  }

  lemma OpenState(w: World, p: Proc, step: OpenStep)
    ensures JournalFrom(w, StepOpen(w, p, step), p.journal)
  {}

  lemma SaveState(env: Env, w: World, p: Proc, step: SaveStep, purpose: Purpose)
    requires w.proc == Some(p) && SaveSound(env, w, p, step, purpose)
    ensures JournalFrom(w, StepSave(w, p, step, purpose), p.journal)
  {}

  lemma CommitState(env: Env, w: World, p: Proc, step: CommitStep, now: Meta)
    requires CommitSound(env, w, p, step)
    ensures JournalFrom(w, StepCommit(env, w, p, step, now), p.journal)
  {}

  /** A step keeps its earlier structures, drops them, or adds the one it leaves. */
  lemma StepSnapshots(env: Env, w: World, now: Meta)
    requires w.proc.Some?
    ensures var after := Step(env, w, w.proc.value, now);
            after.unsynced == w.unsynced || after.unsynced == [] || after.unsynced == w.unsynced + [w.disk]
  {}

  /** While the stage is being opened the journal comes from the call or from disk. */
  lemma OpenJournal(w: World, p: Proc, step: OpenStep)
    ensures var after := StepOpen(w, p, step);
            after.proc.Some? ==>
              && after.proc.value.call == p.call
              && (after.proc.value.pc.Opening? || after.proc.value.pc == Initialising(InitData) ==>
                    after.proc.value.journal == p.journal)
              && (after.proc.value.pc == Initialising(InitData) ==> p.call.op.Prepare?)
              && (!after.proc.value.pc.Opening? && after.proc.value.pc != Initialising(InitData) ==>
                    HasState(w.disk) && after.proc.value.journal == StateOf(w.disk))
  {}

  /** The command is the same, and its journal is for the same transfer. */
  predicate SameTransfer(p: Proc, after: World) {
    after.proc.Some? ==>
      && after.proc.value.call == p.call
      && !after.proc.value.pc.Opening?
      && after.proc.value.journal.source == p.journal.source
      && after.proc.value.journal.path == p.journal.path
  }

  lemma InitJournal(w: World, p: Proc, step: InitStep, now: Meta)
    ensures SameTransfer(p, StepInit(w, p, step, now))
  {}

  lemma SaveJournal(w: World, p: Proc, step: SaveStep, purpose: Purpose)
    ensures SameTransfer(p, StepSave(w, p, step, purpose))
  {}

  lemma PrepareJournal(env: Env, w: World, p: Proc, step: PrepareStep, now: Meta)
    ensures SameTransfer(p, StepPrepare(env, w, p, step, now))
  {}

  lemma WriteJournal(env: Env, w: World, p: Proc, step: WriteStep, now: Meta)
    ensures SameTransfer(p, StepWrite(env, w, p, step, now))
  {}

  lemma CommitJournal(env: Env, w: World, p: Proc, step: CommitStep, now: Meta)
    ensures SameTransfer(p, StepCommit(env, w, p, step, now))
  {}

  lemma CancelJournal(w: World, p: Proc, step: CancelStep)
    ensures SameTransfer(p, StepCancel(w, p, step))
  {}

  /** From then on a command changes only what it is entitled to change. */
  lemma StepJournal(env: Env, w: World, now: Meta)
    requires w.proc.Some? && !w.proc.value.pc.Opening?
    ensures SameTransfer(w.proc.value, Step(env, w, w.proc.value, now))
  {
    var p := w.proc.value;
    match p.pc
    case Initialising(step) => InitJournal(w, p, step, now);
    case Saving(step, purpose) => SaveJournal(w, p, step, purpose);
    case Preparing(step) => PrepareJournal(env, w, p, step, now);
    case Writing(step) => WriteJournal(env, w, p, step, now);
    case Committing(step) => CommitJournal(env, w, p, step, now);
    case Cancelling(step) => CancelJournal(w, p, step);
    case Opening(_) =>
  }

  lemma StepAccounted(env: Env, w: World, given: set<(Path, Inode)>, calls: set<Call>, now: Meta)
    requires Inv(env, w) && Accounted(env, w, given, calls) && w.proc.Some?
    ensures Accounted(env, Step(env, w, w.proc.value, now), given, calls)
  {
    if Publishes(w, Advance(now)) {
      PublishAccounted(env, w, given, calls, now);
    } else {
      QuietStepAccounted(env, w, given, calls, now);
    }
    StepSnapshots(env, w, now);
    if w.proc.value.pc.Opening? {
      OpenJournal(w, w.proc.value, w.proc.value.pc.open);
    } else {
      StepJournal(env, w, now);
    }
  }

  /** What a loss of power leaves of the tree is accounted for like the tree. */
  lemma TreeAccounted(env: Env, before: map<Path, Inode>, after: map<Path, Inode>, given: set<(Path, Inode)>, calls: set<Call>)
    requires FilesAccounted(env, before, given, calls) && PlausibleTree(before, after)
    ensures FilesAccounted(env, after, given, calls)
  {
    forall path | path in after ensures From(given, path, after[path]) || Complete(env, calls, path, after[path]) {
      if Flushed(before[path]) {
        FlushedRemains(before[path], after[path]);
      } else {
        assert (path, before[path]) in given;
      }
    }
  }

  lemma LossAccounted(
    env: Env, w: World, survivor: nat, staged: seq<Inode>, files: map<Path, Inode>, given: set<(Path, Inode)>, calls: set<Call>)
    requires Inv(env, w) && Accounted(env, w, given, calls)
    requires Plausible(w.inodes, staged) && PlausibleTree(Candidate(w, survivor).files, files)
    ensures Accounted(env, Next(env, w, PowerLoss(survivor, staged, files)), given, calls)
  {
    var d := Candidate(w, survivor);
    assert DiskAccounted(env, d, given, calls) && DiskSound(env, w.inodes, d, w.acked);
    TreeAccounted(env, d.files, files, given, calls);
    assert HasState(SettledDisk(d)) ==> HasState(d) && StateOf(SettledDisk(d)) == StateOf(d);
  }

  /** One action, when the callers and what others put there are already counted. */
  lemma ActionAccounted(env: Env, w: World, a: Action, given: set<(Path, Inode)>, calls: set<Call>)
    requires Inv(env, w) && Accounted(env, w, given, calls)
    requires GivenBy([a]) <= given && CallsOf([a]) <= calls
    ensures Accounted(env, Next(env, w, a), given, calls)
  {
    match a
    case Start(call) =>
      assert call in CallsOf([a]);
    case Advance(now) =>
      if w.proc.Some? {
        StepAccounted(env, w, given, calls, now);
      }
    case Outside(path, file) => OutsideAccounted(env, w, path, file, given, calls);
    case PowerLoss(survivor, staged, files) =>
      if Plausible(w.inodes, staged) && PlausibleTree(Candidate(w, survivor).files, files) {
        LossAccounted(env, w, survivor, staged, files, given, calls);
      }
    case _ =>
  }

  lemma OutsideAccounted(env: Env, w: World, path: Path, file: Option<Inode>, given: set<(Path, Inode)>, calls: set<Call>)
    requires Accounted(env, w, given, calls)
    requires GivenBy([Outside(path, file)]) <= given
    ensures Accounted(env, Next(env, w, Outside(path, file)), given, calls)
  {
    if file.Some? {
      assert (path, file.value) in GivenBy([Outside(path, file)]);
    }
    RelinkAccounted(env, w, Next(env, w, Outside(path, file)).disk, given, calls);
  }

  lemma NextAccounted(env: Env, w: World, a: Action, given: set<(Path, Inode)>, calls: set<Call>)
    requires Inv(env, w) && Accounted(env, w, given, calls)
    ensures Accounted(env, Next(env, w, a), given + GivenBy([a]), calls + CallsOf([a]))
  {
    AccountedGrows(env, w, given, calls, given + GivenBy([a]), calls + CallsOf([a]));
    ActionAccounted(env, w, a, given + GivenBy([a]), calls + CallsOf([a]));
  }

  lemma {:induction false} RunAccounted(env: Env, w: World, actions: seq<Action>, given: set<(Path, Inode)>, calls: set<Call>)
    requires Inv(env, w) && Accounted(env, w, given, calls)
    ensures Accounted(env, Run(env, w, actions), given + GivenBy(actions), calls + CallsOf(actions))
    decreases |actions|
  {
    if actions == [] {
      AccountedGrows(env, w, given, calls, given + GivenBy(actions), calls + CallsOf(actions));
    } else {
      var first, rest := actions[0], actions[1..];
      NextAccounted(env, w, first, given, calls);
      NextKeeps(env, w, first);
      RunAccounted(env, Next(env, w, first), rest, given + GivenBy([first]), calls + CallsOf([first]));
      assert actions == [first] + rest;
      assert given + GivenBy([first]) + GivenBy(rest) == given + GivenBy(actions);
      assert calls + CallsOf([first]) + CallsOf(rest) == calls + CallsOf(actions);
    }
  }

  /** A file that was there before or that others put there, or what a loss of power
      left of it. */
  ghost predicate Foreign(files: map<Path, Inode>, actions: seq<Action>, path: Path, file: Inode) {
    || (path in files && (file == files[path] || Remains(files[path], file)))
    || (exists a :: a in actions && a.Outside? && a.path == path && a.file.Some?
                    && (file == a.file.value || Remains(a.file.value, file)))
  }

  /** No partial file is ever visible: after any run, with stops, torn writes and
      losses of power anywhere, every file was there before, was put there by
      somebody else, or is complete, flushed, and has the digest a client asked for. */
  lemma DestinationNeverPartial(env: Env, files: map<Path, Inode>, actions: seq<Action>, path: Path)
    requires path in Run(env, Boot(files), actions).disk.files
    ensures var file := Run(env, Boot(files), actions).disk.files[path];
            Foreign(files, actions, path, file) || Complete(env, CallsOf(actions), path, file)
  {
    var given := set p | p in files :: (p, files[p]);
    assert Accounted(env, Boot(files), given, {}) by {
      BootAccounted(env, files, given);
    }
    RunAccounted(env, Boot(files), actions, given, {});
    var file := Run(env, Boot(files), actions).disk.files[path];
    assert {} + CallsOf(actions) == CallsOf(actions);
    if From(given + GivenBy(actions), path, file) {
      FromIsForeign(files, actions, given, path, file);
    }
  }

  lemma BootAccounted(env: Env, files: map<Path, Inode>, given: set<(Path, Inode)>)
    requires forall p :: p in files ==> (p, files[p]) in given
    ensures Accounted(env, Boot(files), given, {})
  {}

  lemma FromIsForeign(files: map<Path, Inode>, actions: seq<Action>, given: set<(Path, Inode)>, path: Path, file: Inode)
    requires given == set p | p in files :: (p, files[p])
    requires From(given + GivenBy(actions), path, file)
    ensures Foreign(files, actions, path, file)
  {
    var g: (Path, Inode) :| g in given + GivenBy(actions) && g.0 == path && (file == g.1 || Remains(g.1, file));
    if g in GivenBy(actions) {
      var a :| a in actions && a.Outside? && a.file.Some? && g == (a.path, a.file.value);
    }
  }

  // ----- Publishing at most once -----

  /** The token is not cancelled. */
  predicate Undisturbed(a: Action) {
    !(a.Start? && a.call.op.Cancel?)
  }

  function Losses(actions: seq<Action>): nat {
    if actions == [] then 0 else (if actions[0].PowerLoss? then 1 else 0) + Losses(actions[1..])
  }

  ghost function Publications(env: Env, w: World, actions: seq<Action>): nat
    decreases |actions|
  {
    if actions == [] then 0
    else (if Publishes(w, actions[0]) then 1 else 0) + Publications(env, Next(env, w, actions[0]), actions[1..])
  }

  function Tally(w: World): nat {
    if w.disk.stage.Some? then w.disk.stage.value.published else 0
  }

  predicate Pristine(d: Disk) {
    d.stage.Some? ==> !d.stage.value.cancelled && (d.stage.value.state.None? ==> d.stage.value.published == 0)
  }

  /** No Cancel has begun; nothing was published before there is a checkpoint. */
  predicate Untouched(w: World) {
    && Pristine(w.disk)
    && (w.proc.Some? ==> !w.proc.value.call.op.Cancel? && !w.proc.value.pc.Cancelling?)
  }

  lemma TallyCounts(env: Env, w: World, a: Action)
    requires Inv(env, w) && Untouched(w) && Undisturbed(a) && !a.PowerLoss?
    ensures Untouched(Next(env, w, a))
    ensures Tally(Next(env, w, a)) == Tally(w) + if Publishes(w, a) then 1 else 0
  {
    if a.Advance? && w.proc.Some? {
      TallyStep(env, w, a.now);
    }
  }

  lemma TallyStep(env: Env, w: World, now: Meta)
    requires Inv(env, w) && Untouched(w) && w.proc.Some?
    ensures var after := Step(env, w, w.proc.value, now);
            Untouched(after) && Tally(after) == Tally(w) + if Publishes(w, Advance(now)) then 1 else 0
  {
    var p := w.proc.value;
    match p.pc
    case Opening(step) => TallyOpen(w, p, step);
    case Initialising(step) => TallyInit(w, p, step, now);
    case Saving(step, purpose) => TallySave(env, w, p, step, purpose);
    case Committing(step) => TallyCommit(env, w, p, step, now);
    case Preparing(step) => TallyPrepare(env, w, p, step, now);
    case Writing(step) => TallyWrite(env, w, p, step, now);
    case Cancelling(_) =>
  }

  lemma TallyCommit(env: Env, w: World, p: Proc, step: CommitStep, now: Meta)
    requires Untouched(w) && w.proc == Some(p) && p.pc == Committing(step) && CommitSound(env, w, p, step)
    ensures Untouched(StepCommit(env, w, p, step, now))
    ensures Tally(StepCommit(env, w, p, step, now)) == Tally(w) + if Publishes(w, Advance(now)) then 1 else 0
  {}

  lemma TallyPrepare(env: Env, w: World, p: Proc, step: PrepareStep, now: Meta)
    requires Untouched(w) && w.proc == Some(p)
    ensures Untouched(StepPrepare(env, w, p, step, now)) && Tally(StepPrepare(env, w, p, step, now)) == Tally(w)
  {}

  lemma TallyWrite(env: Env, w: World, p: Proc, step: WriteStep, now: Meta)
    requires Untouched(w) && w.proc == Some(p)
    ensures Untouched(StepWrite(env, w, p, step, now)) && Tally(StepWrite(env, w, p, step, now)) == Tally(w)
  {}

  lemma TallyOpen(w: World, p: Proc, step: OpenStep)
    requires Untouched(w) && w.proc == Some(p)
    ensures Untouched(StepOpen(w, p, step)) && Tally(StepOpen(w, p, step)) == Tally(w)
  {}

  lemma TallyInit(w: World, p: Proc, step: InitStep, now: Meta)
    requires Untouched(w) && w.proc == Some(p) && InitSound(w, p, step)
    ensures Untouched(StepInit(w, p, step, now)) && Tally(StepInit(w, p, step, now)) == Tally(w)
  {}

  lemma TallySave(env: Env, w: World, p: Proc, step: SaveStep, purpose: Purpose)
    requires Untouched(w) && w.proc == Some(p) && SaveSound(env, w, p, step, purpose)
    ensures Untouched(StepSave(w, p, step, purpose)) && Tally(StepSave(w, p, step, purpose)) == Tally(w)
  {}

  /** The same holds of every structure that a loss of power could bring back. */
  ghost predicate UntouchedBefore(w: World) {
    Untouched(w) && forall d :: d in w.unsynced ==> Pristine(d)
  }

  lemma UntouchedKept(env: Env, w: World, a: Action)
    requires Inv(env, w) && UntouchedBefore(w) && Undisturbed(a)
    ensures UntouchedBefore(Next(env, w, a))
  {
    match a
    case PowerLoss(survivor, _, _) => assert Pristine(Candidate(w, survivor));
    case Advance(now) =>
      TallyCounts(env, w, a);
      if w.proc.Some? {
        StepSnapshots(env, w, now);
      }
    case _ => TallyCounts(env, w, a);
  }

  lemma TallyBounded(env: Env, w: World)
    requires Inv(env, w) && Untouched(w)
    ensures Tally(w) <= 1
  {}

  lemma {:induction false} PublicationsCounted(env: Env, w: World, actions: seq<Action>)
    requires Inv(env, w) && UntouchedBefore(w)
    requires forall a :: a in actions ==> Undisturbed(a)
    ensures Tally(w) + Publications(env, w, actions) <= 1 + Losses(actions)
    decreases |actions|
  {
    TallyBounded(env, w);
    if actions != [] {
      var a, rest := actions[0], actions[1..];
      UntouchedKept(env, w, a);
      NextKeeps(env, w, a);
      PublicationsCounted(env, Next(env, w, a), rest);
      if !a.PowerLoss? {
        TallyCounts(env, w, a);
      }
    }
  }

  /** Without Cancel, any number of interrupted and repeated commands, whatever
      others do to the destination, performs the publishing rename at most once; a
      loss of power may undo it, so at most once more for each. */
  lemma PublishedAtMostOnce(env: Env, files: map<Path, Inode>, actions: seq<Action>)
    requires forall a :: a in actions ==> Undisturbed(a)
    ensures Publications(env, Boot(files), actions) <= 1 + Losses(actions)
    ensures (forall a :: a in actions ==> !a.PowerLoss?) ==> Publications(env, Boot(files), actions) <= 1
  {
    PublicationsCounted(env, Boot(files), actions);
    NoLosses(actions);
  }

  lemma {:induction false} NoLosses(actions: seq<Action>)
    ensures (forall a :: a in actions ==> !a.PowerLoss?) ==> Losses(actions) == 0
  {
    if actions != [] {
      NoLosses(actions[1..]);
    }
  }
}
