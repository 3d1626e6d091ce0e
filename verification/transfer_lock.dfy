/** Several processes on one token. A staging directory and the lock file in it have
    identities, so that a process may hold one that no longer has its name; the lock
    is taken on the file, not on the name. Every process performs the steps of the
    protocol; nothing but the lock keeps two of them apart. */
module TransferLock {
  import opened Wrappers
  import opened TransferDisk
  import opened TransferProtocol
  import opened TransferInvariant

  type Pid = nat

  /** A running command with the directory and the lock file it has opened. */
  datatype Member = Member(proc: Proc, dir: Option<nat>, file: Option<nat>, locked: bool)

  /** `dir` and `file` identify the staging directory and the file named `lock` in it,
      if they exist; identities from `unused` on are new. `world.proc` is not used. */
  datatype Crowd = Crowd(world: World, dir: nat, file: nat, unused: nat, members: map<Pid, Member>, replies: map<Pid, Reply>)

  datatype Event =
    | Begin(pid: Pid, call: Call)
    | Go(pid: Pid, now: Meta)
    | Stop(pid: Pid)
    | Tear(pid: Pid, count: nat, now: Meta)
    | Others(path: Path, file: Option<Inode>)
    | Loss(survivor: nat, staged: seq<Inode>, files: map<Path, Inode>)

  /** The directory it has opened is the one that has the name. */
  predicate Here(c: Crowd, m: Member) {
    c.world.disk.stage.Some? && m.dir == Some(c.dir)
  }

  /** A cancel that has removed the lock file and can only remove the directory. */
  predicate Finishing(m: Member) {
    m.proc.pc == Cancelling(RemoveDir) || m.proc.pc == Cancelling(RemoveSync)
  }

  /** Past the lock, free to read and change what is in the stage. */
  predicate Working(c: Crowd, pid: Pid) {
    pid in c.members && c.members[pid].locked && Here(c, c.members[pid]) && !Finishing(c.members[pid])
  }

  ghost predicate Held(c: Crowd, file: nat) {
    exists q :: q in c.members && c.members[q].locked && c.members[q].file == Some(file)
  }

  // ----- The steps -----

  function Ended(c: Crowd, pid: Pid, reply: Reply): Crowd {
    c.(members := c.members - {pid}, replies := c.replies[pid := reply])
  }

  function Became(c: Crowd, pid: Pid, m: Member): Crowd {
    c.(members := c.members[pid := m])
  }

  /** The world as the process sees it. */
  function Seen(c: Crowd, m: Member): World {
    c.world.(proc := Some(m.proc))
  }

  /** The process has taken a step of the protocol. */
  function Took(c: Crowd, pid: Pid, m: Member, after: World): Crowd {
    var rest := c.(world := after.(proc := None));
    if after.proc.Some? then Became(rest, pid, m.(proc := after.proc.value))
    else Ended(rest, pid, if after.reply.Some? then after.reply.value else Failed(Io))
  }

  function Begun(c: Crowd, pid: Pid, call: Call): Crowd {
    if pid in c.members then c
    else if call.op.Prepare? && call.op.source.kind != RegularFile then Ended(c, pid, Failed(Type))
    else if call.op.Cancel? && c.world.disk.stage.None? then Ended(c, pid, Done)
    else Became(c, pid, Member(Proc(call, Opening(if call.op.Prepare? then MakeDir else OpenLock), Initial(call)), None, None, false))
  }

  function MakeStage(c: Crowd, pid: Pid, m: Member): Crowd {
    var next := m.(proc := m.proc.(pc := Opening(OpenLock)));
    if c.world.disk.stage.None? then
      Became(c.(world := RelinkDir(c.world, EMPTY_DIR), dir := c.unused, unused := c.unused + 1), pid, next)
    else Became(c, pid, next)
  }

  /** Open the directory by its name. */
  function OpenDir(c: Crowd, pid: Pid, m: Member): Crowd {
    if c.world.disk.stage.None? then Ended(c, pid, Failed(Io)) else Became(c, pid, m.(dir := Some(c.dir)))
  }

  function CreateFile(c: Crowd): Crowd
    requires c.world.disk.stage.Some?
  {
    c.(world := RelinkDir(c.world, c.world.disk.stage.value.(lock := true)), file := c.unused, unused := c.unused + 1)
  }

  /** Open the lock file by its name in the directory, creating it if it is not there. */
  function OpenFile(c: Crowd, pid: Pid, m: Member): Crowd {
    if !Here(c, m) then Ended(c, pid, Failed(Io))
    else if c.world.disk.stage.value.lock then Became(c, pid, m.(file := Some(c.file)))
    else Became(CreateFile(c), pid, m.(file := Some(c.unused)))
  }

  /** Lock the opened file unless another process has. */
  ghost function TryLock(c: Crowd, pid: Pid, m: Member): Crowd
    requires m.file.Some?
  {
    if Held(c, m.file.value) then Ended(c, pid, Failed(Busy))
    else Became(c, pid, m.(proc := m.proc.(pc := Opening(Load)), locked := true))
  }

  /** Only an empty directory can be removed. */
  function RemoveStage(c: Crowd, pid: Pid, m: Member): Crowd {
    if !Here(c, m) then Ended(c, pid, Failed(Io))
    else
      var dir := c.world.disk.stage.value;
      if dir.data.Some? || dir.next.Some? || dir.state.Some? || dir.lock then Ended(c, pid, Failed(Io))
      else Became(c.(world := Relink(c.world, c.world.disk.(stage := None))), pid, m.(proc := m.proc.(pc := Cancelling(RemoveSync))))
  }

  ghost function Going(env: Env, c: Crowd, pid: Pid, m: Member, now: Meta): Crowd {
    if m.proc.pc == Opening(MakeDir) then MakeStage(c, pid, m)
    else if m.proc.pc == Opening(OpenLock) then
      if m.dir.None? then OpenDir(c, pid, m)
      else if m.file.None? then OpenFile(c, pid, m)
      else TryLock(c, pid, m)
    else if m.proc.pc == Cancelling(RemoveDir) then RemoveStage(c, pid, m)
    else if m.proc.pc == Cancelling(RemoveSync) then Ended(c.(world := SyncDirectories(c.world)), pid, Done)
    else if !Here(c, m) then Ended(c, pid, Failed(Io))
    else Took(c, pid, m, Step(env, Seen(c, m), m.proc, now))
  }

  ghost function CrowdNext(env: Env, c: Crowd, e: Event): Crowd {
    match e
    case Begin(pid, call) => Begun(c, pid, call)
    case Go(pid, now) => if pid in c.members then Going(env, c, pid, c.members[pid], now) else c
    case Stop(pid) => if pid in c.members then Ended(c, pid, Failed(Io)) else c
    case Tear(pid, count, now) =>
      if pid in c.members && Working(c, pid) then
        Took(c, pid, c.members[pid], Torn(Seen(c, c.members[pid]), c.members[pid].proc, count, now))
      else c
    case Others(path, file) => c.(world := Next(env, c.world, Outside(path, file)))
    case Loss(survivor, staged, files) =>
      if Plausible(c.world.inodes, staged) && PlausibleTree(Candidate(c.world, survivor).files, files) then
        c.(world := Next(env, c.world, PowerLoss(survivor, staged, files)), members := map[])
      else c
  }

  ghost function CrowdRun(env: Env, c: Crowd, events: seq<Event>): Crowd
    decreases |events|
  {
    if events == [] then c else CrowdRun(env, CrowdNext(env, c, events[0]), events[1..])
  }

  function CrowdBoot(files: map<Path, Inode>): Crowd {
    Crowd(Boot(files), 0, 0, 1, map[], map[])
  }

  // ----- What holds while nobody loses its lock file -----

  /** It has the directory open, and the file in it, in this order. */
  predicate Handles(c: Crowd, m: Member) {
    && (m.dir.Some? ==> m.dir.value < c.unused)
    && (m.file.Some? ==> m.dir.Some? && m.file.value < c.unused)
    && (m.locked ==> m.file.Some?)
    && (m.proc.pc == Opening(MakeDir) ==> m.dir.None?)
    && (if m.proc.pc == Opening(MakeDir) || m.proc.pc == Opening(OpenLock) then !m.locked && OpenSound(m.proc, m.proc.pc.open)
        else m.locked)
  }

  /** Whoever has opened a lock file in the directory, and is not done with it, has
      the one with the name; and whoever is at work has what its step relies on. */
  predicate MemberSound(env: Env, c: Crowd, m: Member) {
    && Handles(c, m)
    && (Here(c, m) && m.file.Some? && !Finishing(m) ==>
          && c.world.disk.stage.value.lock && m.file == Some(c.file)
          && (m.locked ==> ProcSound(env, c.world, m.proc)))
  }

  ghost predicate Exclusive(c: Crowd) {
    forall p, q :: p in c.members && q in c.members && p != q && c.members[p].locked && c.members[q].locked ==>
      c.members[p].file != c.members[q].file
  }

  ghost predicate CrowdInv(env: Env, c: Crowd) {
    && c.world.proc.None? && DisksSound(env, c.world)
    && c.dir < c.unused && c.file < c.unused
    && Exclusive(c)
    && forall p :: p in c.members ==> MemberSound(env, c, c.members[p])
  }

  /** Nobody else has the named lock file open. */
  predicate Alone(c: Crowd, pid: Pid) {
    forall q :: q in c.members && q != pid && Here(c, c.members[q]) ==> c.members[q].file != Some(c.file)
  }

  /** No step removes the lock file while another process has it open. */
  predicate Considerate(c: Crowd, e: Event) {
    e.Go? && e.pid in c.members && c.members[e.pid].proc.pc == Cancelling(RemoveLock) && Working(c, e.pid) ==>
      Alone(c, e.pid)
  }

  /** At most one process is past the lock. */
  lemma OneAtWork(env: Env, c: Crowd, p: Pid, q: Pid)
    requires CrowdInv(env, c) && Working(c, p) && Working(c, q)
    ensures p == q
  {
    assert MemberSound(env, c, c.members[p]) && MemberSound(env, c, c.members[q]);
  }

  /** A process that tries the lock meanwhile is refused and has changed nothing. */
  lemma OthersAreRefused(env: Env, c: Crowd, p: Pid, r: Pid, now: Meta)
    requires CrowdInv(env, c) && Working(c, p) && r in c.members && r != p
    requires c.members[r].proc.pc == Opening(OpenLock) && c.members[r].file.Some? && Here(c, c.members[r])
    ensures var after := CrowdNext(env, c, Go(r, now));
            after.world == c.world && r !in after.members && after.replies[r] == Failed(Busy)
  {
    assert MemberSound(env, c, c.members[p]) && MemberSound(env, c, c.members[r]);
    assert Held(c, c.file);
  }

  /** It is in a state of the protocol, so that everything proved of those holds. */
  lemma AtWorkSound(env: Env, c: Crowd, p: Pid)
    requires CrowdInv(env, c) && Working(c, p)
    ensures Inv(env, Seen(c, c.members[p]))
  {
    assert MemberSound(env, c, c.members[p]);
    ProcFrame(env, c.world, Seen(c, c.members[p]), c.members[p].proc);
  }

  // ----- Each event keeps it -----

  lemma EndedKeeps(env: Env, c: Crowd, pid: Pid, reply: Reply)
    requires CrowdInv(env, c)
    ensures CrowdInv(env, Ended(c, pid, reply))
  {
    forall p | p in c.members && p != pid ensures MemberSound(env, Ended(c, pid, reply), c.members[p]) {
      assert MemberSound(env, c, c.members[p]);
    }
  }

  /** A process moves on without changing anything around it. */
  lemma BecameKeeps(env: Env, c: Crowd, pid: Pid, m: Member)
    requires CrowdInv(env, c)
    requires MemberSound(env, c, m)
    requires m.locked ==> m.file.Some? && forall q :: q in c.members && q != pid && c.members[q].locked ==> c.members[q].file != m.file
    ensures CrowdInv(env, Became(c, pid, m))
  {
    var after := Became(c, pid, m);
    forall p | p in after.members ensures MemberSound(env, after, after.members[p]) {
      assert MemberSound(env, c, after.members[p]);
    }
  }

  lemma BegunKeeps(env: Env, c: Crowd, pid: Pid, call: Call)
    requires CrowdInv(env, c)
    ensures CrowdInv(env, Begun(c, pid, call))
  {
    if pid in c.members {
      return;
    }
    EndedKeeps(env, c, pid, Failed(Type));
    EndedKeeps(env, c, pid, Done);
    if !(call.op.Prepare? && call.op.source.kind != RegularFile) {
      BecameKeeps(env, c, pid, Member(Proc(call, Opening(if call.op.Prepare? then MakeDir else OpenLock), Initial(call)), None, None, false));
    }
  }

  /** A change of the world that no process at work notices. */
  lemma WorldKeeps(env: Env, c: Crowd, after: Crowd)
    requires CrowdInv(env, c)
    requires after.members == c.members && after.unused >= c.unused && after.world.proc.None?
    requires DisksSound(env, after.world) && after.dir < after.unused && after.file < after.unused
    requires forall p :: p in c.members ==> MemberSound(env, after, c.members[p])
    ensures CrowdInv(env, after)
  {}

  /** With a new directory nobody is in it yet. */
  lemma NobodyHere(env: Env, c: Crowd, after: Crowd, m: Member)
    requires Handles(c, m) && after.unused >= c.unused && !Here(after, m)
    ensures MemberSound(env, after, m)
  {}

  lemma MakeStageKeeps(env: Env, c: Crowd, pid: Pid)
    requires CrowdInv(env, c) && pid in c.members && c.members[pid].proc.pc == Opening(MakeDir)
    ensures CrowdInv(env, MakeStage(c, pid, c.members[pid]))
  {
    var m := c.members[pid];
    assert MemberSound(env, c, m);
    var next := m.(proc := m.proc.(pc := Opening(OpenLock)));
    if c.world.disk.stage.None? {
      var made := c.(world := RelinkDir(c.world, EMPTY_DIR), dir := c.unused, unused := c.unused + 1);
      RelinkSound(env, c.world, made.world.disk);
      forall p | p in c.members ensures MemberSound(env, made, c.members[p]) {
        assert MemberSound(env, c, c.members[p]);
        NobodyHere(env, c, made, c.members[p]);
      }
      WorldKeeps(env, c, made);
      BecameKeeps(env, made, pid, next);
    } else {
      BecameKeeps(env, c, pid, next);
    }
  }

  /** A new lock file appears only where nobody has one open. */
  lemma NewFileKeeps(env: Env, c: Crowd, after: Crowd, m: Member)
    requires MemberSound(env, c, m) && c.world.disk.stage.Some? && !c.world.disk.stage.value.lock
    requires after.world.disk.stage.Some? && after.dir == c.dir && after.unused >= c.unused
    ensures MemberSound(env, after, m)
  {}

  lemma OpenFileKeeps(env: Env, c: Crowd, pid: Pid)
    requires CrowdInv(env, c) && pid in c.members
    requires c.members[pid].proc.pc == Opening(OpenLock) && c.members[pid].dir.Some? && c.members[pid].file.None?
    ensures CrowdInv(env, OpenFile(c, pid, c.members[pid]))
  {
    var m := c.members[pid];
    assert MemberSound(env, c, m);
    if !Here(c, m) {
      EndedKeeps(env, c, pid, Failed(Io));
    } else if c.world.disk.stage.value.lock {
      BecameKeeps(env, c, pid, m.(file := Some(c.file)));
    } else {
      var made := CreateFile(c);
      CreateFileKeeps(env, c);
      assert MemberSound(env, made, m);
      BecameKeeps(env, made, pid, m.(file := Some(c.unused)));
    }
  }

  lemma CreateFileKeeps(env: Env, c: Crowd)
    requires CrowdInv(env, c) && c.world.disk.stage.Some? && !c.world.disk.stage.value.lock
    ensures CrowdInv(env, CreateFile(c))
  {
    var made := CreateFile(c);
    RelinkSound(env, c.world, made.world.disk);
    forall p | p in c.members ensures MemberSound(env, made, c.members[p]) {
      NewFileKeeps(env, c, made, c.members[p]);
    }
    WorldKeeps(env, c, made);
  }

  lemma TryLockKeeps(env: Env, c: Crowd, pid: Pid)
    requires CrowdInv(env, c) && pid in c.members
    requires c.members[pid].proc.pc == Opening(OpenLock) && c.members[pid].file.Some?
    ensures CrowdInv(env, TryLock(c, pid, c.members[pid]))
  {
    var m := c.members[pid];
    assert MemberSound(env, c, m);
    if Held(c, m.file.value) {
      EndedKeeps(env, c, pid, Failed(Busy));
    } else {
      BecameKeeps(env, c, pid, m.(proc := m.proc.(pc := Opening(Load)), locked := true));
    }
  }

  lemma OpenDirKeeps(env: Env, c: Crowd, pid: Pid)
    requires CrowdInv(env, c) && pid in c.members
    requires c.members[pid].proc.pc == Opening(OpenLock) && c.members[pid].dir.None?
    ensures CrowdInv(env, OpenDir(c, pid, c.members[pid]))
  {
    assert MemberSound(env, c, c.members[pid]);
    if c.world.disk.stage.None? {
      EndedKeeps(env, c, pid, Failed(Io));
    } else {
      BecameKeeps(env, c, pid, c.members[pid].(dir := Some(c.dir)));
    }
  }

  /** Removing the directory while it is empty. */
  lemma RemoveStageKeeps(env: Env, c: Crowd, pid: Pid)
    requires CrowdInv(env, c) && pid in c.members && c.members[pid].proc.pc == Cancelling(RemoveDir)
    ensures CrowdInv(env, RemoveStage(c, pid, c.members[pid]))
  {
    var m := c.members[pid];
    assert MemberSound(env, c, m);
    EndedKeeps(env, c, pid, Failed(Io));
    if Here(c, m) && RemoveStage(c, pid, m) != Ended(c, pid, Failed(Io)) {
      var gone := c.(world := Relink(c.world, c.world.disk.(stage := None)));
      RelinkSound(env, c.world, gone.world.disk);
      forall p | p in c.members ensures MemberSound(env, gone, c.members[p]) {
        assert MemberSound(env, c, c.members[p]);
        NobodyHere(env, c, gone, c.members[p]);
      }
      WorldKeeps(env, c, gone);
      BecameKeeps(env, gone, pid, m.(proc := m.proc.(pc := Cancelling(RemoveSync))));
    }
  }

  // ----- The steps past the lock -----

  /** Neither opening nor finishing. */
  predicate Inside(pc: Pc) {
    && pc != Opening(MakeDir) && pc != Opening(OpenLock)
    && pc != Cancelling(RemoveDir) && pc != Cancelling(RemoveSync)
  }

  /** A step past the lock leaves the directory and the lock file where they are. */
  predicate KeepsLock(w: World, p: Proc, after: World)
    requires w.disk.stage.Some?
  {
    && after.disk.stage.Some? && after.disk.stage.value.lock == w.disk.stage.value.lock
    && (after.proc.Some? ==> Inside(after.proc.value.pc) && after.proc.value.call == p.call)
  }

  lemma OpenKeepsLock(w: World, p: Proc)
    requires w.disk.stage.Some?
    ensures KeepsLock(w, p, StepOpen(w, p, Load))
  {}

  lemma InitKeepsLock(w: World, p: Proc, step: InitStep, now: Meta)
    requires w.disk.stage.Some?
    ensures KeepsLock(w, p, StepInit(w, p, step, now))
  {}

  lemma SaveKeepsLock(w: World, p: Proc, step: SaveStep, purpose: Purpose)
    requires w.disk.stage.Some?
    ensures KeepsLock(w, p, StepSave(w, p, step, purpose))
  {}

  lemma PrepareKeepsLock(env: Env, w: World, p: Proc, step: PrepareStep, now: Meta)
    requires w.disk.stage.Some?
    ensures KeepsLock(w, p, StepPrepare(env, w, p, step, now))
  {}

  lemma WriteKeepsLock(env: Env, w: World, p: Proc, step: WriteStep, now: Meta)
    requires w.disk.stage.Some?
    ensures KeepsLock(w, p, StepWrite(env, w, p, step, now))
  {}

  lemma CommitKeepsLock(env: Env, w: World, p: Proc, step: CommitStep, now: Meta)
    requires w.disk.stage.Some?
    ensures KeepsLock(w, p, StepCommit(env, w, p, step, now))
  {}

  lemma CancelKeepsLock(w: World, p: Proc, step: CancelStep)
    requires w.disk.stage.Some? && (step.RemoveData? || step.RemoveNext? || step.RemoveState?)
    ensures KeepsLock(w, p, StepCancel(w, p, step))
  {}

  lemma StepKeepsLock(env: Env, w: World, p: Proc, now: Meta)
    requires w.disk.stage.Some? && Inside(p.pc) && p.pc != Cancelling(RemoveLock)
    ensures KeepsLock(w, p, Step(env, w, p, now))
  {
    match p.pc
    case Opening(_) => OpenKeepsLock(w, p);
    case Initialising(step) => InitKeepsLock(w, p, step, now);
    case Saving(step, purpose) => SaveKeepsLock(w, p, step, purpose);
    case Preparing(step) => PrepareKeepsLock(env, w, p, step, now);
    case Writing(step) => WriteKeepsLock(env, w, p, step, now);
    case Committing(step) => CommitKeepsLock(env, w, p, step, now);
    case Cancelling(step) => CancelKeepsLock(w, p, step);
  }

  /** What the others rely on after a step of the process at work. */
  lemma BystanderKeeps(env: Env, c: Crowd, pid: Pid, q: Pid, after: World)
    requires CrowdInv(env, c) && Working(c, pid) && q in c.members && q != pid
    requires after.disk.stage.Some? && after.proc.None?
    requires after.disk.stage.value.lock || (Here(c, c.members[q]) ==> c.members[q].file != Some(c.file))
    ensures MemberSound(env, c.(world := after), c.members[q])
  {
    assert MemberSound(env, c, c.members[q]) && MemberSound(env, c, c.members[pid]);
  }

  /** The crowd without the process at work, in the world after its step. */
  function Rest(c: Crowd, pid: Pid, after: World): Crowd {
    c.(world := after.(proc := None), members := c.members - {pid})
  }

  lemma RestKeeps(env: Env, c: Crowd, pid: Pid, after: World)
    requires CrowdInv(env, c) && Working(c, pid) && after.disk.stage.Some? && DisksSound(env, after)
    requires after.disk.stage.value.lock || Alone(c, pid)
    ensures CrowdInv(env, Rest(c, pid, after))
  {
    var left := c.(members := c.members - {pid});
    var rest := Rest(c, pid, after);
    forall q | q in rest.members ensures MemberSound(env, rest, c.members[q]) {
      BystanderKeeps(env, c, pid, q, after.(proc := None));
    }
    LeftKeeps(env, c, pid);
    WorldKeeps(env, left, rest);
  }

  lemma LeftKeeps(env: Env, c: Crowd, pid: Pid)
    requires CrowdInv(env, c)
    ensures CrowdInv(env, c.(members := c.members - {pid}))
  {
    EndedKeeps(env, c, pid, Failed(Io));
    var left := c.(members := c.members - {pid});
    forall p | p in left.members ensures MemberSound(env, left, c.members[p]) {
      assert MemberSound(env, c, c.members[p]);
    }
  }

  /** The process goes on inside, or is about to remove the directory. */
  ghost predicate GoesOn(env: Env, after: World) {
    after.proc.Some? ==>
      var p := after.proc.value;
      || (Inside(p.pc) && after.disk.stage.Some? && after.disk.stage.value.lock && ProcSound(env, after, p))
      || p.pc == Cancelling(RemoveDir)
  }

  lemma TookIs(c: Crowd, pid: Pid, m: Member, after: World)
    ensures Took(c, pid, m, after) ==
              if after.proc.Some? then Became(Rest(c, pid, after), pid, m.(proc := after.proc.value))
              else Ended(Rest(c, pid, after), pid, if after.reply.Some? then after.reply.value else Failed(Io))
  {
    var rest := Rest(c, pid, after);
    assert rest.members - {pid} == rest.members;
    assert after.proc.Some? ==> rest.members[pid := m.(proc := after.proc.value)] == c.members[pid := m.(proc := after.proc.value)];
  }

  lemma TookKeeps(env: Env, c: Crowd, pid: Pid, after: World)
    requires CrowdInv(env, c) && Working(c, pid) && after.disk.stage.Some? && DisksSound(env, after)
    requires after.disk.stage.value.lock || Alone(c, pid)
    requires GoesOn(env, after)
    ensures CrowdInv(env, Took(c, pid, c.members[pid], after))
  {
    var m, rest := c.members[pid], Rest(c, pid, after);
    RestKeeps(env, c, pid, after);
    TookIs(c, pid, m, after);
    if after.proc.Some? {
      ReturnKeeps(env, c, pid, after, rest);
    } else {
      EndedKeeps(env, rest, pid, if after.reply.Some? then after.reply.value else Failed(Io));
    }
  }

  lemma ReturnKeeps(env: Env, c: Crowd, pid: Pid, after: World, rest: Crowd)
    requires CrowdInv(env, c) && Working(c, pid) && after.disk.stage.Some?
    requires rest == Rest(c, pid, after) && CrowdInv(env, rest)
    requires after.proc.Some? && GoesOn(env, after)
    ensures CrowdInv(env, Became(rest, pid, c.members[pid].(proc := after.proc.value)))
  {
    assert MemberSound(env, c, c.members[pid]);
    ProcMoved(env, after, rest.world, after.proc.value);
    BecameKeeps(env, rest, pid, c.members[pid].(proc := after.proc.value));
  }

  lemma ProcMoved(env: Env, w: World, after: World, p: Proc)
    requires after.disk == w.disk && after.inodes == w.inodes && after.acked == w.acked
    ensures ProcSound(env, w, p) ==> ProcSound(env, after, p)
  {
    if ProcSound(env, w, p) {
      ProcFrame(env, w, after, p);
    }
  }

  lemma WorkKeeps(env: Env, c: Crowd, pid: Pid, now: Meta)
    requires CrowdInv(env, c) && Working(c, pid) && Considerate(c, Go(pid, now))
    ensures CrowdInv(env, Took(c, pid, c.members[pid], Step(env, Seen(c, c.members[pid]), c.members[pid].proc, now)))
  {
    var m := c.members[pid];
    assert MemberSound(env, c, m);
    AtWorkSound(env, c, pid);
    StepKeeps(env, Seen(c, m), now);
    if m.proc.pc != Cancelling(RemoveLock) {
      StepKeepsLock(env, Seen(c, m), m.proc, now);
    }
    TookKeeps(env, c, pid, Step(env, Seen(c, m), m.proc, now));
  }

  /** A change of the world outside the stage. */
  lemma FrameKeeps(env: Env, c: Crowd, world: World)
    requires CrowdInv(env, c) && world.proc.None? && DisksSound(env, world)
    requires world.disk.stage == c.world.disk.stage && world.inodes == c.world.inodes && world.acked == c.world.acked
    ensures CrowdInv(env, c.(world := world))
  {
    forall p | p in c.members ensures MemberSound(env, c.(world := world), c.members[p]) {
      MemberFrame(env, c, world, c.members[p]);
    }
    WorldKeeps(env, c, c.(world := world));
  }

  lemma MemberFrame(env: Env, c: Crowd, world: World, m: Member)
    requires MemberSound(env, c, m)
    requires world.disk.stage == c.world.disk.stage && world.inodes == c.world.inodes && world.acked == c.world.acked
    ensures MemberSound(env, c.(world := world), m)
  {
    if ProcSound(env, c.world, m.proc) {
      ProcFrame(env, c.world, world, m.proc);
    }
  }

  /** The last step of a cancel only flushes the parent directory. */
  lemma FlushKeeps(env: Env, c: Crowd, pid: Pid)
    requires CrowdInv(env, c) && pid in c.members
    ensures CrowdInv(env, Ended(c.(world := SyncDirectories(c.world)), pid, Done))
  {
    FrameKeeps(env, c, SyncDirectories(c.world));
    EndedKeeps(env, c.(world := SyncDirectories(c.world)), pid, Done);
  }

  lemma GoKeeps(env: Env, c: Crowd, pid: Pid, now: Meta)
    requires CrowdInv(env, c) && pid in c.members && Considerate(c, Go(pid, now))
    ensures CrowdInv(env, Going(env, c, pid, c.members[pid], now))
  {
    var m := c.members[pid];
    assert MemberSound(env, c, m);
    match m.proc.pc
    case Opening(MakeDir) => MakeStageKeeps(env, c, pid);
    case Opening(OpenLock) =>
      if m.dir.None? {
        OpenDirKeeps(env, c, pid);
      } else if m.file.None? {
        OpenFileKeeps(env, c, pid);
      } else {
        TryLockKeeps(env, c, pid);
      }
    case Cancelling(RemoveDir) => RemoveStageKeeps(env, c, pid);
    case Cancelling(RemoveSync) => FlushKeeps(env, c, pid);
    case _ =>
      if Here(c, m) {
        WorkKeeps(env, c, pid, now);
      } else {
        EndedKeeps(env, c, pid, Failed(Io));
      }
  }

  lemma TearKeeps(env: Env, c: Crowd, pid: Pid, count: nat, now: Meta)
    requires CrowdInv(env, c) && Working(c, pid)
    ensures CrowdInv(env, Took(c, pid, c.members[pid], Torn(Seen(c, c.members[pid]), c.members[pid].proc, count, now)))
  {
    var m := c.members[pid];
    assert MemberSound(env, c, m);
    AtWorkSound(env, c, pid);
    TornKeeps(env, Seen(c, m), m.proc, count, now);
    TookKeeps(env, c, pid, Torn(Seen(c, m), m.proc, count, now));
  }

  lemma OthersKeep(env: Env, c: Crowd, path: Path, file: Option<Inode>)
    requires CrowdInv(env, c)
    ensures CrowdInv(env, CrowdNext(env, c, Others(path, file)))
  {
    var after := Next(env, c.world, Outside(path, file));
    RelinkSound(env, c.world, after.disk);
    FrameKeeps(env, c, after);
  }

  lemma CrowdNextKeeps(env: Env, c: Crowd, e: Event)
    requires CrowdInv(env, c) && Considerate(c, e)
    ensures CrowdInv(env, CrowdNext(env, c, e))
  {
    match e
    case Begin(pid, call) => BegunKeeps(env, c, pid, call);
    case Go(pid, now) => if pid in c.members { GoKeeps(env, c, pid, now); }
    case Stop(pid) => EndedKeeps(env, c, pid, Failed(Io));
    case Tear(pid, count, now) => if Working(c, pid) { TearKeeps(env, c, pid, count, now); }
    case Others(path, file) => OthersKeep(env, c, path, file);
    case Loss(survivor, staged, files) =>
      if Plausible(c.world.inodes, staged) { LossKeeps(env, c.world, survivor, staged, files); }
  }

  // ----- Whole runs -----

  ghost predicate AllConsiderate(env: Env, c: Crowd, events: seq<Event>)
    decreases |events|
  {
    events == [] || (Considerate(c, events[0]) && AllConsiderate(env, CrowdNext(env, c, events[0]), events[1..]))
  }

  lemma {:induction false} CrowdRunKeeps(env: Env, c: Crowd, events: seq<Event>)
    requires CrowdInv(env, c) && AllConsiderate(env, c, events)
    ensures CrowdInv(env, CrowdRun(env, c, events))
    decreases |events|
  {
    if events != [] {
      CrowdNextKeeps(env, c, events[0]);
      CrowdRunKeeps(env, CrowdNext(env, c, events[0]), events[1..]);
    }
  }

  /** In every run in which no cancel removes a lock file that another process has
      open, at most one process at a time is past the lock of the stage, and the
      stage is as the protocol of a single process leaves it. */
  lemma OnePastTheLock(env: Env, files: map<Path, Inode>, events: seq<Event>, p: Pid, q: Pid)
    requires AllConsiderate(env, CrowdBoot(files), events)
    ensures var c := CrowdRun(env, CrowdBoot(files), events);
            && DisksSound(env, c.world)
            && (Working(c, p) ==> Inv(env, Seen(c, c.members[p])))
            && (Working(c, p) && Working(c, q) ==> p == q)
  {
    CrowdRunKeeps(env, CrowdBoot(files), events);
    var c := CrowdRun(env, CrowdBoot(files), events);
    if Working(c, p) {
      AtWorkSound(env, c, p);
      if Working(c, q) {
        OneAtWork(env, c, p, q);
      }
    }
  }

  // ----- Runs without a cancel -----

  /** Nobody is giving the transfer up. */
  predicate Uncancelled(c: Crowd) {
    forall p :: p in c.members ==> !c.members[p].proc.call.op.Cancel? && !c.members[p].proc.pc.Cancelling?
  }

  lemma UncancelledKept(env: Env, c: Crowd, e: Event)
    requires CrowdInv(env, c) && Uncancelled(c) && !(e.Begin? && e.call.op.Cancel?)
    ensures Uncancelled(CrowdNext(env, c, e))
  {
    if e.Go? && e.pid in c.members {
      GoUncancelled(env, c, e.pid, e.now);
    }
  }

  lemma GoUncancelled(env: Env, c: Crowd, pid: Pid, now: Meta)
    requires CrowdInv(env, c) && Uncancelled(c) && pid in c.members
    ensures Uncancelled(Going(env, c, pid, c.members[pid], now))
  {
    var m := c.members[pid];
    assert MemberSound(env, c, m);
    if Inside(m.proc.pc) && Here(c, m) {
      StepUncancelled(env, Seen(c, m), m.proc, now);
    }
  }

  lemma StepUncancelled(env: Env, w: World, p: Proc, now: Meta)
    requires w.disk.stage.Some? && Inside(p.pc) && !p.call.op.Cancel? && !p.pc.Cancelling?
    ensures var after := Step(env, w, p, now);
            after.proc.Some? ==> !after.proc.value.call.op.Cancel? && !after.proc.value.pc.Cancelling?
  {}

  lemma {:induction false} UncancelledConsiderate(env: Env, c: Crowd, events: seq<Event>)
    requires CrowdInv(env, c) && Uncancelled(c)
    requires forall e :: e in events && e.Begin? ==> !e.call.op.Cancel?
    ensures AllConsiderate(env, c, events)
    decreases |events|
  {
    if events != [] {
      CrowdNextKeeps(env, c, events[0]);
      UncancelledKept(env, c, events[0]);
      UncancelledConsiderate(env, CrowdNext(env, c, events[0]), events[1..]);
    }
  }

  /** Without a cancel there is never more than one process past the lock. */
  lemma WithoutCancelOnePastTheLock(env: Env, files: map<Path, Inode>, events: seq<Event>, p: Pid, q: Pid)
    requires forall e :: e in events && e.Begin? ==> !e.call.op.Cancel?
    ensures var c := CrowdRun(env, CrowdBoot(files), events);
            Working(c, p) && Working(c, q) ==> p == q
  {
    UncancelledConsiderate(env, CrowdBoot(files), events);
    OnePastTheLock(env, files, events, p, q);
  }

  // ----- When a cancel breaks it -----

  /** No step removes the lock file by its name. */
  predicate LeavesLock(c: Crowd, e: Event) {
    !(e.Go? && e.pid in c.members && c.members[e.pid].proc.pc == Cancelling(RemoveLock))
  }

  ghost predicate AllLeaveLock(env: Env, c: Crowd, events: seq<Event>)
    decreases |events|
  {
    events == [] || (LeavesLock(c, events[0]) && AllLeaveLock(env, CrowdNext(env, c, events[0]), events[1..]))
  }

  /** Two processes can get past the lock of the same stage although nobody removes
      the lock file from now on. */
  ghost predicate Breakable(env: Env, c: Crowd) {
    exists events, p, q ::
      AllLeaveLock(env, c, events) && p != q && Working(CrowdRun(env, c, events), p) && Working(CrowdRun(env, c, events), q)
  }

  lemma {:induction false} LeavingIsConsiderate(env: Env, c: Crowd, events: seq<Event>)
    requires AllLeaveLock(env, c, events)
    ensures AllConsiderate(env, c, events)
    decreases |events|
  {
    if events != [] {
      LeavingIsConsiderate(env, CrowdNext(env, c, events[0]), events[1..]);
    }
  }

  lemma SoundIsUnbreakable(env: Env, c: Crowd)
    requires CrowdInv(env, c)
    ensures !Breakable(env, c)
  {
    forall events, p, q | AllLeaveLock(env, c, events) && Working(CrowdRun(env, c, events), p) && Working(CrowdRun(env, c, events), q)
      ensures p == q
    {
      LeavingIsConsiderate(env, c, events);
      CrowdRunKeeps(env, c, events);
      OneAtWork(env, CrowdRun(env, c, events), p, q);
    }
  }

  lemma {:induction false} RunAppend(env: Env, c: Crowd, a: seq<Event>, b: seq<Event>)
    ensures CrowdRun(env, c, a + b) == CrowdRun(env, CrowdRun(env, c, a), b)
    ensures AllLeaveLock(env, c, a) && AllLeaveLock(env, CrowdRun(env, c, a), b) ==> AllLeaveLock(env, c, a + b)
    decreases |a|
  {
    if a == [] {
      assert a + b == b;
    } else {
      assert (a + b)[1..] == a[1..] + b;
      RunAppend(env, CrowdNext(env, c, a[0]), a[1..], b);
    }
  }

  lemma UnusedPid(c: Crowd) returns (r: Pid)
    ensures r !in c.members
  {
    r := Above(c.members.Keys);
  }

  lemma Above(pids: set<Pid>) returns (r: Pid)
    ensures forall p :: p in pids ==> p < r
  {
    r := 0;
    if pids != {} {
      var p :| p in pids;
      var rest := Above(pids - {p});
      r := Max(rest, p + 1);
      assert forall x :: x in pids ==> x == p || x in pids - {p};
    }
  }

  const JOINER := Call("", "", Prepare(Stamp(RegularFile, 0, 0, 0, 0, 0), None))
  const JOINED := Proc(JOINER, Opening(OpenLock), Initial(JOINER))

  /** Another process is past the lock, but its lock file no longer has the name. */
  ghost predicate Unguarded(c: Crowd, q: Pid) {
    && Working(c, q) && !c.world.disk.stage.value.lock
    && forall p :: p in c.members && c.members[p].file.Some? ==> c.members[p].file.value < c.unused
  }

  /** A process that arrives opens the directory. */
  lemma Arrives(env: Env, c: Crowd, r: Pid)
    requires c.world.disk.stage.Some? && r !in c.members
    ensures var events := [Begin(r, JOINER), Go(r, Meta(0, 0, 0, 0)), Go(r, Meta(0, 0, 0, 0))];
            && CrowdRun(env, c, events) == Became(c, r, Member(JOINED, Some(c.dir), None, false))
            && AllLeaveLock(env, c, events)
  {
    var go := Go(r, Meta(0, 0, 0, 0));
    var first := Became(c, r, Member(Proc(JOINER, Opening(MakeDir), Initial(JOINER)), None, None, false));
    var second := Became(c, r, Member(JOINED, None, None, false));
    var third := Became(c, r, Member(JOINED, Some(c.dir), None, false));
    assert CrowdNext(env, c, Begin(r, JOINER)) == first;
    assert CrowdNext(env, first, go) == second;
    assert CrowdNext(env, second, go) == third;
    ThreeEvents(env, c, Begin(r, JOINER), go, go);
  }

  lemma ThreeEvents(env: Env, c: Crowd, a: Event, b: Event, d: Event)
    ensures CrowdRun(env, c, [a, b, d]) == CrowdNext(env, CrowdNext(env, CrowdNext(env, c, a), b), d)
    ensures LeavesLock(c, a) && LeavesLock(CrowdNext(env, c, a), b) && LeavesLock(CrowdNext(env, CrowdNext(env, c, a), b), d)
            ==> AllLeaveLock(env, c, [a, b, d])
  {
    TwoEvents(env, CrowdNext(env, c, a), b, d);
    assert [a, b, d][1..] == [b, d];
  }

  lemma TwoEvents(env: Env, c: Crowd, a: Event, b: Event)
    ensures CrowdRun(env, c, [a, b]) == CrowdNext(env, CrowdNext(env, c, a), b)
    ensures LeavesLock(c, a) && LeavesLock(CrowdNext(env, c, a), b) ==> AllLeaveLock(env, c, [a, b])
  {
    assert [a, b][1..] == [b];
    assert [b][1..] == [];
    assert CrowdRun(env, CrowdNext(env, c, a), [b]) == CrowdNext(env, CrowdNext(env, c, a), b);
  }

  /** It creates a lock file of its own and locks it. */
  lemma GetsIn(env: Env, c: Crowd, q: Pid, r: Pid)
    requires Unguarded(c, q) && r in c.members && r != q && c.members[r] == Member(JOINED, Some(c.dir), None, false)
    ensures var events := [Go(r, Meta(0, 0, 0, 0)), Go(r, Meta(0, 0, 0, 0))];
            && Working(CrowdRun(env, c, events), q) && Working(CrowdRun(env, c, events), r)
            && AllLeaveLock(env, c, events)
  {
    var go := Go(r, Meta(0, 0, 0, 0));
    var m := c.members[r].(file := Some(c.unused));
    var created := Became(CreateFile(c), r, m);
    assert CrowdNext(env, c, go) == created;
    assert !Held(created, c.unused);
    assert CrowdNext(env, created, go) == TryLock(created, r, m);
    TwoEvents(env, c, go, go);
  }

  lemma UnguardedIsBreakable(env: Env, c: Crowd, q: Pid)
    requires Unguarded(c, q)
    ensures Breakable(env, c)
  {
    var r := UnusedPid(c);
    var go := Go(r, Meta(0, 0, 0, 0));
    Arrives(env, c, r);
    var arrived := Became(c, r, Member(JOINED, Some(c.dir), None, false));
    GetsIn(env, arrived, q, r);
    RunAppend(env, c, [Begin(r, JOINER), go, go], [go, go]);
    assert AllLeaveLock(env, c, [Begin(r, JOINER), go, go] + [go, go]);
  }

  /** The cancel goes away, and the process that had its lock file open locks it. */
  lemma SlipsIn(env: Env, c: Crowd, after: Crowd, p: Pid, q: Pid, now: Meta)
    requires CrowdInv(env, c) && Working(c, p) && c.members[p].proc.pc == Cancelling(RemoveLock)
    requires q in c.members && q != p && Here(c, c.members[q]) && c.members[q].file == Some(c.file)
    requires after == CrowdNext(env, c, Go(p, now))
    ensures var events := [Stop(p), Go(q, now)];
            AllLeaveLock(env, after, events) && Unguarded(CrowdRun(env, after, events), q)
  {
    assert MemberSound(env, c, c.members[p]) && MemberSound(env, c, c.members[q]);
    var left := CrowdNext(env, after, Stop(p));
    LockRemoved(env, c, p, now);
    assert !Held(left, c.file);
    assert CrowdNext(env, left, Go(q, now)) == TryLock(left, q, c.members[q]);
    TwoEvents(env, after, Stop(p), Go(q, now));
    forall m | m in c.members && c.members[m].file.Some? ensures c.members[m].file.value < c.unused {
      assert MemberSound(env, c, c.members[m]);
    }
  }

  lemma LockRemoved(env: Env, c: Crowd, p: Pid, now: Meta)
    requires Working(c, p) && c.world.proc.None? && c.members[p].proc.pc == Cancelling(RemoveLock)
    ensures var after := CrowdNext(env, c, Go(p, now));
            && after.world.disk.stage == Some(c.world.disk.stage.value.(lock := false))
            && after.dir == c.dir && after.file == c.file && after.unused == c.unused
            && p in after.members && after.members == c.members[p := after.members[p]]
  {}

  /** The removal of the lock file lets two processes past the lock exactly if some
      process has opened that file and not yet locked it. */
  lemma RemovalBreaksIff(env: Env, c: Crowd, p: Pid, now: Meta)
    requires CrowdInv(env, c) && Working(c, p) && c.members[p].proc.pc == Cancelling(RemoveLock)
    ensures !Breakable(env, c)
    ensures Breakable(env, CrowdNext(env, c, Go(p, now))) <==> !Alone(c, p)
  {
    SoundIsUnbreakable(env, c);
    var after := CrowdNext(env, c, Go(p, now));
    if Alone(c, p) {
      CrowdNextKeeps(env, c, Go(p, now));
      SoundIsUnbreakable(env, after);
    } else {
      var q :| q in c.members && q != p && Here(c, c.members[q]) && c.members[q].file == Some(c.file);
      var events := [Stop(p), Go(q, now)];
      SlipsIn(env, c, after, p, q, now);
      UnguardedIsBreakable(env, CrowdRun(env, after, events), q);
      BreakableBefore(env, after, events);
    }
  }

  lemma BreakableBefore(env: Env, c: Crowd, events: seq<Event>)
    requires AllLeaveLock(env, c, events) && Breakable(env, CrowdRun(env, c, events))
    ensures Breakable(env, c)
  {
    var after := CrowdRun(env, c, events);
    var more, p, q :|
      AllLeaveLock(env, after, more) && p != q && Working(CrowdRun(env, after, more), p) && Working(CrowdRun(env, after, more), q);
    RunAppend(env, c, events, more);
    assert AllLeaveLock(env, c, events + more);
  }

  /** Every cancel can meet with that: a process that arrives before the removal and
      gets as far as opening the lock file is enough. */
  lemma EveryCancelIsExposed(env: Env, c: Crowd, p: Pid)
    requires CrowdInv(env, c) && Working(c, p) && c.members[p].proc.pc == Cancelling(RemoveLock)
    ensures exists events ::
              AllLeaveLock(env, c, events)
              && var after := CrowdRun(env, c, events);
              && Working(after, p) && after.members[p] == c.members[p] && !Alone(after, p)
  {
    assert MemberSound(env, c, c.members[p]);
    var r := UnusedPid(c);
    var go := Go(r, Meta(0, 0, 0, 0));
    var m := Member(JOINED, Some(c.dir), None, false);
    Arrives(env, c, r);
    var arrived := Became(c, r, m);
    var after := Became(arrived, r, m.(file := Some(c.file)));
    assert CrowdNext(env, arrived, go) == after;
    assert after.members[r].file == Some(after.file) && Here(after, after.members[r]);
    var events := [Begin(r, JOINER), go, go] + [go];
    RunAppend(env, c, [Begin(r, JOINER), go, go], [go]);
    assert [go][1..] == [];
    assert CrowdRun(env, arrived, [go]) == CrowdRun(env, after, []);
    assert AllLeaveLock(env, arrived, [go]);
    assert CrowdRun(env, c, events) == after;
  }
}
