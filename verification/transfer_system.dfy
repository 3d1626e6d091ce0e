/** Several transfers with distinct tokens working on the same tree, interleaved
    one file-system operation at a time. Each token has its own stage, guarded by
    its lock; only the destination files are shared. */
module TransferSystem {
  import opened Wrappers
  import opened TransferDisk
  import opened TransferProtocol
  import opened TransferInvariant
  import opened TransferSafety
  import opened TransferRuns

  type Token = string

  /** `published` is history: who published where, in order. */
  datatype System = System(files: map<Path, Inode>, stages: map<Token, World>, published: seq<(Token, Path)>)

  /** Something happens at one token, or power is lost: every stage is left as a loss
      of power leaves it, and the tree in whatever state. */
  datatype Event =
    | Event(token: Token, action: Action)
    | Blackout(stages: map<Token, World>, files: map<Path, Inode>)

  /** One token's view: its own stage and the shared files. */
  function View(s: System, t: Token): World {
    var w := if t in s.stages then s.stages[t] else Boot(map[]);
    w.(disk := w.disk.(files := s.files))
  }

  /** The token's world after a loss of power, wherever its structure comes back. */
  ghost predicate Recovers(w: World, after: World) {
    exists survivor, staged ::
      Plausible(w.inodes, staged) &&
      after == World(SettledDisk(Candidate(w, survivor)), staged, [], None, w.acked, None)
  }

  ghost predicate AllRecover(s: System, stages: map<Token, World>) {
    stages.Keys == s.stages.Keys && forall t :: t in stages ==> Recovers(s.stages[t], stages[t])
  }

  ghost function SystemNext(env: Env, s: System, e: Event): System {
    match e
    case Event(token, action) =>
      var w := View(s, token);
      var after := Next(env, w, action);
      System(after.disk.files, s.stages[token := after],
             if Publishes(w, action) then s.published + [(token, w.proc.value.journal.path)] else s.published)
    case Blackout(stages, files) =>
      if AllRecover(s, stages) then System(files, stages, s.published) else s
  }

  ghost function SystemRun(env: Env, s: System, events: seq<Event>): System
    decreases |events|
  {
    if events == [] then s else SystemRun(env, SystemNext(env, s, events[0]), events[1..])
  }

  /** Every Prepare expects that its destination is a new name. Power is lost by a
      blackout, not for one token alone. */
  predicate NewNameEvent(e: Event) {
    e.Event? ==>
      && !e.action.PowerLoss?
      && (e.action.Start? && e.action.call.op.Prepare? ==> e.action.call.op.expected.None?)
  }

  predicate NewNameDoc(doc: Option<Doc>) {
    doc.Some? && doc.value.journal.Some? ==> doc.value.journal.value.expected.None?
  }

  predicate NewNameDisk(d: Disk) {
    d.stage.Some? ==> NewNameDoc(d.stage.value.state) && NewNameDoc(d.stage.value.next)
  }

  predicate NewNameProc(p: Proc) {
    p.journal.expected.None? && (p.call.op.Prepare? ==> p.call.op.expected.None?)
  }

  /** No journal of this token, saved, in memory or in a structure that may come back,
      expects an existing destination. */
  predicate NewNameWorld(w: World) {
    && NewNameDisk(w.disk)
    && (forall d :: d in w.unsynced ==> NewNameDisk(d))
    && (w.proc.Some? ==> NewNameProc(w.proc.value))
  }

  ghost predicate NewNames(s: System) {
    forall t :: t in s.stages ==> NewNameWorld(s.stages[t])
  }

  /** A step leaves only such journals. */
  predicate NewNameAfter(after: World) {
    NewNameDisk(after.disk) && (after.proc.Some? ==> NewNameProc(after.proc.value))
  }

  lemma NewNameStep(env: Env, w: World, now: Meta)
    requires NewNameWorld(w) && w.proc.Some?
    ensures NewNameWorld(Step(env, w, w.proc.value, now))
  {
    var p := w.proc.value;
    match p.pc {
      case Opening(step) => NewNameOpen(w, p, step);
      case Initialising(step) => NewNameInit(w, p, step, now);
      case Saving(step, purpose) => NewNameSave(w, p, step, purpose);
      case Preparing(step) => NewNamePrepare(env, w, p, step, now);
      case Writing(step) => NewNameWrite(env, w, p, step, now);
      case Committing(step) => NewNameCommit(env, w, p, step, now);
      case Cancelling(step) => NewNameCancel(w, p, step);
    }
    StepSnapshots(env, w, now);
  }

  lemma NewNameSave(w: World, p: Proc, step: SaveStep, purpose: Purpose)
    requires NewNameWorld(w) && w.proc == Some(p)
    ensures NewNameAfter(StepSave(w, p, step, purpose))
  {}

  lemma NewNameOpen(w: World, p: Proc, step: OpenStep)
    requires NewNameWorld(w) && w.proc == Some(p)
    ensures NewNameAfter(StepOpen(w, p, step))
  {}

  lemma NewNameInit(w: World, p: Proc, step: InitStep, now: Meta)
    requires NewNameWorld(w) && w.proc == Some(p)
    ensures NewNameAfter(StepInit(w, p, step, now))
  {}

  lemma NewNamePrepare(env: Env, w: World, p: Proc, step: PrepareStep, now: Meta)
    requires NewNameWorld(w) && w.proc == Some(p)
    ensures NewNameAfter(StepPrepare(env, w, p, step, now))
  {}

  lemma NewNameWrite(env: Env, w: World, p: Proc, step: WriteStep, now: Meta)
    requires NewNameWorld(w) && w.proc == Some(p)
    ensures NewNameAfter(StepWrite(env, w, p, step, now))
  {}

  lemma NewNameCommit(env: Env, w: World, p: Proc, step: CommitStep, now: Meta)
    requires NewNameWorld(w) && w.proc == Some(p)
    ensures NewNameAfter(StepCommit(env, w, p, step, now))
  {}

  lemma NewNameCancel(w: World, p: Proc, step: CancelStep)
    requires NewNameWorld(w) && w.proc == Some(p)
    ensures NewNameAfter(StepCancel(w, p, step))
  {}

  lemma NewNameNext(env: Env, w: World, a: Action)
    requires NewNameWorld(w) && !a.PowerLoss?
    requires a.Start? && a.call.op.Prepare? ==> a.call.op.expected.None?
    ensures NewNameWorld(Next(env, w, a))
  {
    if a.Advance? && w.proc.Some? {
      NewNameStep(env, w, a.now);
    }
  }

  lemma NewNameRecovers(w: World, after: World)
    requires NewNameWorld(w) && Recovers(w, after)
    ensures NewNameWorld(after)
  {
    var survivor, staged :| Plausible(w.inodes, staged)
      && after == World(SettledDisk(Candidate(w, survivor)), staged, [], None, w.acked, None);
    assert NewNameDisk(Candidate(w, survivor));
  }

  lemma NewNamesKept(env: Env, s: System, e: Event)
    requires NewNames(s) && NewNameEvent(e)
    ensures NewNames(SystemNext(env, s, e))
  {
    match e
    case Event(token, action) => NewNameNext(env, View(s, token), action);
    case Blackout(stages, files) =>
      if AllRecover(s, stages) {
        forall t | t in stages ensures NewNameWorld(stages[t]) {
          NewNameRecovers(s.stages[t], stages[t]);
        }
      }
  }

  /** Somebody outside removes the file, or a loss of power may. */
  predicate Removes(e: Event, path: Path) {
    e.Blackout? || (e.action.Outside? && e.action.path == path && e.action.file.None?)
  }

  predicate Touches(e: Event, path: Path) {
    e.Blackout? || (e.action.Outside? && e.action.path == path)
  }

  /** One event: a publication lands on a name that does not exist, and nothing a
      transfer does changes a file that is already there. */
  lemma PublishesOnlyNewNames(env: Env, s: System, e: Event, path: Path)
    requires NewNames(s) && NewNameEvent(e) && e.Event?
    ensures var after := SystemNext(env, s, e);
            && (after.published != s.published ==>
                  && after.published == s.published + [(e.token, View(s, e.token).proc.value.journal.path)]
                  && View(s, e.token).proc.value.journal.path !in s.files
                  && after.files.Keys == s.files.Keys + {View(s, e.token).proc.value.journal.path})
            && (after.published == s.published && !Touches(e, path) ==> (path in after.files <==> path in s.files))
            && (path in s.files && !Touches(e, path) ==> path in after.files && after.files[path] == s.files[path])
  {
    var w := View(s, e.token);
    if e.action.Advance? && w.proc.Some? && !Publishes(w, e.action) {
      StepKeepsFiles(env, w, e.action.now);
    }
  }

  function CountAt(published: seq<(Token, Path)>, path: Path): nat {
    if published == [] then 0
    else CountAt(published[..|published| - 1], path) + if published[|published| - 1].1 == path then 1 else 0
  }

  function Removals(events: seq<Event>, path: Path): nat {
    if events == [] then 0 else (if Removes(events[0], path) then 1 else 0) + Removals(events[1..], path)
  }

  function Present(s: System, path: Path): nat {
    if path in s.files then 1 else 0
  }

  lemma CountStep(env: Env, s: System, e: Event, path: Path)
    requires NewNames(s) && NewNameEvent(e)
    ensures var after := SystemNext(env, s, e);
            CountAt(after.published, path) - Present(after, path)
            <= CountAt(s.published, path) - Present(s, path) + if Removes(e, path) then 1 else 0
  {
    if e.Blackout? {
      return;
    }
    PublishesOnlyNewNames(env, s, e, path);
    var after := SystemNext(env, s, e);
    if after.published != s.published {
      assert after.published[..|after.published| - 1] == s.published;
    }
  }

  /** For every interleaving: a path is published at most once more than somebody
      else removed it or power was lost, so at most once when neither happens. */
  lemma {:induction false} PublishedPerRemoval(env: Env, s: System, events: seq<Event>, path: Path)
    requires NewNames(s)
    requires forall e :: e in events ==> NewNameEvent(e)
    ensures CountAt(SystemRun(env, s, events).published, path) - Present(SystemRun(env, s, events), path)
            <= CountAt(s.published, path) - Present(s, path) + Removals(events, path)
    decreases |events|
  {
    if events != [] {
      CountStep(env, s, events[0], path);
      NewNamesKept(env, s, events[0]);
      PublishedPerRemoval(env, SystemNext(env, s, events[0]), events[1..], path);
    }
  }

  lemma NoRemovals(events: seq<Event>, path: Path)
    requires forall e :: e in events ==> !Removes(e, path)
    ensures Removals(events, path) == 0
  {}

  lemma AtMostOneTransferPublishes(env: Env, files: map<Path, Inode>, events: seq<Event>, path: Path)
    requires forall e :: e in events ==> NewNameEvent(e) && !Removes(e, path)
    ensures CountAt(SystemRun(env, System(files, map[], []), events).published, path) <= 1
    ensures path in files ==> CountAt(SystemRun(env, System(files, map[], []), events).published, path) == 0
  {
    PublishedPerRemoval(env, System(files, map[], []), events, path);
    NoRemovals(events, path);
  }

  /** Whatever the other transfers do, a file that exists keeps its contents until
      somebody outside changes it. */
  lemma {:induction false} NoTransferOverwrites(env: Env, s: System, events: seq<Event>, path: Path)
    requires NewNames(s) && path in s.files
    requires forall e :: e in events ==> NewNameEvent(e) && !Touches(e, path)
    ensures path in SystemRun(env, s, events).files
    ensures SystemRun(env, s, events).files[path] == s.files[path]
    decreases |events|
  {
    if events != [] {
      PublishesOnlyNewNames(env, s, events[0], path);
      NewNamesKept(env, s, events[0]);
      NoTransferOverwrites(env, SystemNext(env, s, events[0]), events[1..], path);
    }
  }

  // ----- Every token keeps its own invariant -----

  ghost predicate AllSound(env: Env, s: System) {
    forall t :: Inv(env, View(s, t))
  }

  lemma FilesFrame(env: Env, w: World, files: map<Path, Inode>)
    requires Inv(env, w)
    ensures Inv(env, w.(disk := w.disk.(files := files)))
  {
    var after := w.(disk := w.disk.(files := files));
    if w.proc.Some? {
      ProcFrame(env, w, after, w.proc.value);
    }
  }

  lemma EventStaysSound(env: Env, s: System, e: Event)
    requires AllSound(env, s) && e.Event?
    ensures AllSound(env, SystemNext(env, s, e))
  {
    var after := SystemNext(env, s, e);
    forall t ensures Inv(env, View(after, t)) {
      if t == e.token {
        NextKeeps(env, View(s, t), e.action);
        assert View(after, t) == Next(env, View(s, t), e.action);
      } else {
        FilesFrame(env, View(s, t), after.files);
        assert View(after, t) == View(s, t).(disk := View(s, t).disk.(files := after.files));
      }
    }
  }

  lemma BlackoutStaysSound(env: Env, s: System, stages: map<Token, World>, files: map<Path, Inode>)
    requires AllSound(env, s) && AllRecover(s, stages)
    ensures AllSound(env, System(files, stages, s.published))
  {
    var after := System(files, stages, s.published);
    forall t ensures Inv(env, View(after, t)) {
      if t in stages {
        assert Inv(env, View(s, t));
        StageRecovers(env, s.stages[t], stages[t], s.files, files);
        assert View(after, t) == stages[t].(disk := stages[t].disk.(files := files));
      }
    }
  }

  lemma StageRecovers(env: Env, w: World, after: World, files: map<Path, Inode>, files': map<Path, Inode>)
    requires Inv(env, w.(disk := w.disk.(files := files))) && Recovers(w, after)
    ensures Inv(env, after.(disk := after.disk.(files := files')))
  {
    FilesFrame(env, w.(disk := w.disk.(files := files)), w.disk.files);
    assert w.(disk := w.disk.(files := files)).(disk := w.disk) == w;
    var survivor, staged :| Plausible(w.inodes, staged)
      && after == World(SettledDisk(Candidate(w, survivor)), staged, [], None, w.acked, None);
    LossKeeps(env, w, survivor, staged, files');
  }

  /** What one token's steps do to the shared files never breaks another's stage, and
      a loss of power breaks none. */
  lemma {:induction false} AllStaySound(env: Env, s: System, events: seq<Event>)
    requires AllSound(env, s)
    ensures AllSound(env, SystemRun(env, s, events))
    decreases |events|
  {
    if events != [] {
      match events[0] {
        case Event(_, _) => EventStaysSound(env, s, events[0]);
        case Blackout(stages, files) => if AllRecover(s, stages) { BlackoutStaysSound(env, s, stages, files); }
      }
      AllStaySound(env, SystemNext(env, s, events[0]), events[1..]);
    }
  }
}
