/** The commands of one endpoint as imperative code over its disk. Every method is
    proved to be a run of the protocol machine, also when it stops half-way, and
    to have the effect the client relies on when nothing stops it. */
module TransferEndpoint {
  import opened Wrappers
  import opened TransferDisk
  import opened TransferProtocol
  import opened TransferInvariant
  import opened TransferSafety
  import opened TransferProgress

  lemma {:induction false} RunAppends(env: Env, w: World, actions: seq<Action>, a: Action)
    ensures Run(env, w, actions + [a]) == Next(env, Run(env, w, actions), a)
    decreases |actions|
  {
    if actions == [] {
      assert Run(env, w, [a]) == Run(env, Next(env, w, a), [a][1..]);
    } else {
      assert (actions + [a])[1..] == actions[1..] + [a];
      RunAppends(env, Next(env, w, actions[0]), actions[1..], a);
    }
  }

  /** The world after the five steps of a save. */
  function SaveOutcome(w: World, p: Proc, purpose: Purpose): World
    requires w.disk.stage.Some?
  {
    var dir := w.disk.stage.value;
    var kept := if purpose.ForBlock? && p.call.op.Write? then dir.kept + p.call.op.block else dir.kept;
    AfterSave(PutDir(w, dir.(state := Some(Doc(Some(p.journal), true)), next := None, kept := kept)).(unsynced := []), p, purpose)
  }

  const NO_META := Meta(0, 0, 0, 0)

  function Existing(stage: Option<Dir>): Dir {
    if stage.Some? then stage.value else EMPTY_DIR
  }

  /** The same disk with the stage's lock file in place. */
  function Locked(d: Disk): Disk
    requires d.stage.Some?
  {
    d.(stage := Some(d.stage.value.(lock := true)))
  }

  datatype Opened = Stage(journal: Journal) | Refused(reply: Reply)

  class Endpoint {
    const env: Env
    const owner: string
    /** While set, any operation may fail or be the last one of its command. */
    var flaky: bool
    var disk: Disk
    var inodes: seq<Inode>
    ghost const origin: map<Path, Inode>
    ghost var trace: seq<Action>
    ghost var world: World

    /** The disk is where the recorded run of the machine has led. */
    ghost predicate Valid()
      reads this
    {
      && world.disk == disk
      && world.inodes == inodes
      && world == Run(env, Boot(origin), trace)
    }

    /** So the protocol invariant holds of it. */
    lemma Sound()
      requires Valid()
      ensures Inv(env, world)
    {
      BootSound(env, origin);
      RunKeeps(env, Boot(origin), trace);
    }

    ghost predicate Idle()
      reads this
    {
      Valid() && world.proc.None?
    }

    ghost predicate At(p: Proc)
      reads this
    {
      Valid() && world.proc == Some(p)
    }

    constructor (env: Env, owner: string, files: map<Path, Inode>)
      ensures Idle() && disk == Disk(files, None) && this.env == env && this.owner == owner && this.flaky
    {
      this.env := env;
      this.owner := owner;
      this.flaky := true;
      this.disk := Disk(files, None);
      this.inodes := [];
      this.origin := files;
      this.trace := [];
      this.world := Boot(files);
    }

    /** Record that the machine moves. */
    ghost method Tick(a: Action)
      requires world == Run(env, Boot(origin), trace)
      modifies this`trace, this`world
      ensures world == Next(env, old(world), a)
      ensures world == Run(env, Boot(origin), trace)
    {
      RunAppends(env, Boot(origin), trace, a);
      trace := trace + [a];
      world := Next(env, world, a);
    }

    /** Does the next operation succeed? If not, the command ends here. */
    method Works() returns (ok: bool)
      requires Valid() && world.proc.Some?
      modifies this`trace, this`world
      ensures Valid()
      ensures !flaky ==> ok
      ensures ok ==> world == old(world)
      ensures !ok ==> world == Fail(old(world), Io)
    {
      ok := true;
      if flaky {
        ok := *;
        if !ok {
          Tick(Abort);
        }
      }
    }

    // ----- journal.rs -----

    /** Write the journal to `next.json` and flush it. */
    method Draft(call: Call, journal: Journal, purpose: Purpose) returns (ok: bool)
      requires At(Proc(call, Saving(SaveOpen, purpose), journal)) && disk.stage.Some?
      modifies this`disk, this`trace, this`world
      ensures Valid()
      ensures !flaky ==> ok
      ensures disk.files == old(disk).files
      ensures ok ==> At(Proc(call, Saving(SaveRename, purpose), journal))
      ensures ok ==> disk == old(disk).(stage := Some(old(disk).stage.value.(next := Some(Doc(Some(journal), true)))))
      ensures ok ==> inodes == old(inodes) && world.acked == old(world).acked && world.reply == old(world).reply
      ensures !ok ==> world.proc.None? && world.reply == Some(Failed(Io))
    {
      ok := Works();
      if !ok { return; }
      disk := disk.(stage := Some(disk.stage.value.(next := Some(Doc(None, false)))));
      Tick(Advance(NO_META));
      ok := Works();
      if !ok { return; }
      disk := disk.(stage := Some(disk.stage.value.(next := Some(Doc(Some(journal), false)))));
      Tick(Advance(NO_META));
      ok := Works();
      if !ok { return; }
      disk := disk.(stage := Some(disk.stage.value.(next := Some(Doc(Some(journal), true)))));
      Tick(Advance(NO_META));
    }

    /** Replace the checkpoint by the draft. */
    method Save(call: Call, journal: Journal, purpose: Purpose) returns (ok: bool)
      requires At(Proc(call, Saving(SaveOpen, purpose), journal)) && disk.stage.Some?
      modifies this`disk, this`trace, this`world
      ensures Valid()
      ensures !flaky ==> ok
      ensures disk.files == old(disk).files
      ensures ok ==> world == SaveOutcome(old(world), Proc(call, Saving(SaveOpen, purpose), journal), purpose)
      ensures !ok ==> world.proc.None? && world.reply == Some(Failed(Io))
    {
      ok := Draft(call, journal, purpose);
      if !ok { return; }
      ok := Works();
      if !ok { return; }
      var dir := disk.stage.value;
      var kept := if purpose.ForBlock? && call.op.Write? then dir.kept + call.op.block else dir.kept;
      disk := disk.(stage := Some(dir.(state := dir.next, next := None, kept := kept)));
      Tick(Advance(NO_META));
      ok := Works();
      if !ok { return; }
      Tick(Advance(NO_META));
    }

    /** Create the staging directory unless it exists, and take its lock. */
    method LockStage(call: Call) returns (ok: bool)
      requires At(Proc(call, Opening(if call.op.Prepare? then MakeDir else OpenLock), Initial(call)))
      modifies this`disk, this`trace, this`world
      ensures Valid()
      ensures !flaky && (call.op.Prepare? || old(disk).stage.Some?) ==> ok
      ensures ok ==> At(Proc(call, Opening(Load), Initial(call))) && inodes == old(inodes) && world.acked == old(world).acked
      ensures ok ==> disk == old(disk).(stage := Some(Existing(old(disk).stage).(lock := true)))
      ensures !ok ==> world.proc.None? && world.reply == Some(Failed(Io)) && disk.files == old(disk).files
    {
      if call.op.Prepare? {
        ok := Works();
        if !ok { return; }
        if disk.stage.None? {
          disk := disk.(stage := Some(EMPTY_DIR));
        }
        Tick(Advance(NO_META));
      }
      ok := Works();
      if !ok { return; }
      if disk.stage.None? {
        Tick(Advance(NO_META));
        return false;
      }
      disk := disk.(stage := Some(disk.stage.value.(lock := true)));
      Tick(Advance(NO_META));
    }


    method CreateData(now: Meta)
      requires disk.stage.Some?
      requires disk.stage.value.data.Some? ==> disk.stage.value.data.value < |inodes|
      modifies this`disk, this`inodes
      ensures var dir := old(disk).stage.value.(kept := [], published := 0, cancelled := false);
              if dir.data.Some? then
                var i := dir.data.value;
                && disk == old(disk).(stage := Some(dir))
                && inodes == old(inodes)[i := old(inodes)[i].(node := old(inodes)[i].node.(bytes := [], modified := now.modified))]
              else
                && disk == old(disk).(stage := Some(dir.(data := Some(|old(inodes)|))))
                && inodes == old(inodes) + [Inode(Node(RegularFile, [], now.modified, now.device, now.inode, now.mode), [])]
    {
      var dir := disk.stage.value.(kept := [], published := 0, cancelled := false);
      if dir.data.Some? {
        var inode := inodes[dir.data.value];
        inodes := inodes[dir.data.value := inode.(node := inode.node.(bytes := [], modified := now.modified))];
      } else {
        dir := dir.(data := Some(|inodes|));
        inodes := inodes + [Inode(Node(RegularFile, [], now.modified, now.device, now.inode, now.mode), [])];
      }
      disk := disk.(stage := Some(dir));
    }

    method FlushData()
      requires Valid() && HasData(world)
      modifies this`inodes
      ensures inodes == SyncData(world).inodes
    {
      var i := disk.stage.value.data.value;
      inodes := inodes[i := inodes[i].(stable := inodes[i].node.bytes)];
    }

    /** At the start of an initialisation the stage exists and its entries make sense. */
    lemma SoundInit(call: Call)
      requires At(Proc(call, Initialising(InitData), Initial(call)))
      ensures disk.stage.Some? && disk.stage.value.state.None?
      ensures disk.stage.value.data.Some? ==> disk.stage.value.data.value < |inodes|
    {
      Sound();
    }

    /** Create an empty data file and flush it. */
    method BlankData(call: Call) returns (ok: bool)
      requires At(Proc(call, Initialising(InitData), Initial(call)))
      modifies this`disk, this`inodes, this`trace, this`world
      ensures Valid()
      ensures !flaky ==> ok
      ensures ok ==> At(Proc(call, Saving(SaveOpen, ForInit), Initial(call)))
      ensures disk.files == old(disk).files
      ensures ok ==> HasData(world) && disk.stage.value.kept == []
      ensures !ok ==> world.proc.None? && world.reply == Some(Failed(Io))
    {
      SoundInit(call);
      ok := Works();
      if !ok { return; }
      var now: Meta := *;
      CreateData(now);
      Tick(Advance(now));
      ok := Works();
      if !ok { return; }
      FlushData();
      Tick(Advance(NO_META));
    }

    /** Create an empty data file and the first checkpoint. */
    method Initialise(call: Call) returns (ok: bool)
      requires At(Proc(call, Initialising(InitData), Initial(call)))
      modifies this`disk, this`inodes, this`trace, this`world
      ensures Valid()
      ensures !flaky ==> ok
      ensures ok ==> At(Proc(call, Preparing(PrepareCheck), Initial(call)))
      ensures disk.files == old(disk).files
      ensures ok ==> HasData(world) && HasState(disk) && StateOf(disk) == Initial(call) && disk.stage.value.kept == []
      ensures !ok ==> world.proc.None? && world.reply == Some(Failed(Io))
    {
      ok := BlankData(call);
      if !ok { return; }
      ok := Save(call, Initial(call), ForInit);
      if !ok { return; }
      ok := Works();
      if !ok { return; }
      Tick(Advance(NO_META));
    }

    /** `Endpoint::stage`: open, lock and load, or create, the stage of a token. */
    method OpenStage(call: Call) returns (r: Opened)
      requires At(Proc(call, Opening(if call.op.Prepare? then MakeDir else OpenLock), Initial(call)))
      requires call.op.Prepare? ==> call.op.source.kind == RegularFile
      modifies this`disk, this`inodes, this`trace, this`world
      ensures disk.files == old(disk).files
      ensures r.Refused? ==> Idle() && world.reply == Some(r.reply) && r.reply.Failed?
      ensures r.Stage? ==> At(Proc(call, AfterStage(call.op), r.journal)) && HasState(disk) && StateOf(disk) == r.journal
      ensures r.Stage? ==> r.journal.owner == call.owner && r.journal.path == call.path
      ensures r.Stage? && !call.op.Prepare? ==> HasState(old(disk))
      ensures r.Stage? && HasState(old(disk)) ==> inodes == old(inodes) && disk == Locked(old(disk)) && world.acked == old(world).acked
      ensures !flaky && HasState(old(disk)) && StateOf(old(disk)).owner == call.owner && StateOf(old(disk)).path == call.path ==>
                r == Stage(StateOf(old(disk)))
      ensures !flaky && HasState(old(disk)) && !(StateOf(old(disk)).owner == call.owner && StateOf(old(disk)).path == call.path) ==>
                r == Refused(Failed(Owner))
      ensures !flaky && call.op.Prepare? && Existing(old(disk).stage).state.None? ==>
                r == Stage(Initial(call)) && HasData(world) && disk.stage.value.kept == []
      ensures !flaky && !call.op.Prepare? && old(disk).stage.Some? && old(disk).stage.value.state.None? ==>
                r == Refused(Failed(Missing))
    {
      var ok := LockStage(call);
      if !ok { return Refused(Failed(Io)); }
      ok := Works();
      if !ok { return Refused(Failed(Io)); }
      match disk.stage.value.state
      case None =>
        Tick(Advance(NO_META));
        if !call.op.Prepare? { return Refused(Failed(Missing)); }
        ok := Initialise(call);
        r := if ok then Stage(Initial(call)) else Refused(Failed(Io));
      case Some(doc) =>
        Tick(Advance(NO_META));
        if doc.journal.None? {
          r := Refused(Failed(Io));
        } else if doc.journal.value.owner != call.owner || doc.journal.value.path != call.path {
          r := Refused(Failed(Owner));
        } else {
          r := Stage(doc.journal.value);
        }
    }

    // ----- staging.rs -----

    /** The announced transfer is the one this stage holds. */
    ghost predicate Resumes(call: Call)
      reads this
    {
      && call.op.Prepare?
      && HasState(disk)
      && var j := StateOf(disk);
      && j.owner == call.owner && j.path == call.path
      && j.source == call.op.source && j.expected == call.op.expected
    }

    /** What the protocol invariant says about the stage between two operations. */
    lemma SoundStage()
      requires Valid() && HasState(disk)
      ensures var j := StateOf(disk);
              && |disk.stage.value.kept| == j.offset <= j.source.length
              && (HasData(world) ==>
                    && !j.committed
                    && disk.stage.value.kept <= DataInode(world).node.bytes
                    && (j.offset == j.source.length ==> DataInode(world).node.bytes == disk.stage.value.kept))
              && (!HasData(world) ==> disk.stage.value.data.None?)
    {
      Sound();
      CheckpointFacts(env, world);
    }

    /** `reconcile`: after a crash, a missing data file must already be the destination. */
    method ReconcileStage(call: Call, journal: Journal) returns (fault: Option<Fault>)
      requires At(Proc(call, Preparing(Reconcile), journal)) && disk.stage.Some?
      modifies this`disk, this`trace, this`world
      ensures Valid() && disk.files == old(disk).files && inodes == old(inodes)
      ensures !flaky ==> fault == if DestinationMatches(env, old(disk).files, journal) then None else Some(Conflict)
      ensures fault.None? ==>
                && DestinationMatches(env, disk.files, journal)
                && HasState(disk) && StateOf(disk) == journal.(committed := true)
                && disk.stage.value.kept == old(disk).stage.value.kept && disk.stage.value.data == old(disk).stage.value.data
      ensures fault.None? && call.op.Prepare? ==> At(Proc(call, Preparing(PrepareStat), journal.(committed := true)))
      ensures fault.None? && !call.op.Prepare? ==> world.proc.None? && world.reply == Some(Done)
      ensures fault.Some? ==> world.proc.None? && world.reply == Some(Failed(fault.value))
    {
      var ok := Works();
      if !ok { return Some(Io); }
      Tick(Advance(NO_META));
      if !DestinationMatches(env, disk.files, journal) { return Some(Conflict); }
      ok := Save(call, journal.(committed := true), ForReconcile);
      fault := if ok then None else Some(Io);
    }

    method Prepare(path: Path, source: Stamp, expected: Option<Stamp>) returns (r: Reply)
      requires Idle()
      modifies this`disk, this`inodes, this`trace, this`world
      ensures Idle() && world.reply == Some(r) && disk.files == old(disk).files
      ensures source.kind != RegularFile ==> r == Failed(Type) && disk == old(disk)
      ensures !flaky && source.kind == RegularFile && Existing(old(disk).stage).state.None? && Stat(old(disk).files, path) == expected ==>
                && r == Ready(0, false)
                && HasState(disk) && StateOf(disk) == Initial(Call(owner, path, Op.Prepare(source, expected)))
                && HasData(world) && disk.stage.value.kept == []
      ensures !flaky && source.kind == RegularFile && old(Resumes(Call(owner, path, Op.Prepare(source, expected)))) ==>
                PrepareResumed(r, old(world), StateOf(old(disk)))
      ensures !flaky && source.kind == RegularFile && HasState(old(disk))
              && StateOf(old(disk)).owner == owner && StateOf(old(disk)).path == path
              && !(StateOf(old(disk)).source == source && StateOf(old(disk)).expected == expected) ==>
                r == Failed(SourceChanged)
    {
      var call := Call(owner, path, Op.Prepare(source, expected));
      Tick(Start(call));
      if source.kind != RegularFile { return Failed(Type); }
      var stage := OpenStage(call);
      if stage.Refused? { return stage.reply; }
      r := PrepareStage(call, stage.journal);
    }

    /** What an undisturbed Prepare finds and leaves when it resumes a stage. */
    ghost predicate PrepareResumed(r: Reply, before: World, j: Journal)
      reads this
      requires before.disk.stage.Some?
    {
      && (HasData(before) && Stat(before.disk.files, j.path) == j.expected ==>
            && r == Ready(j.offset, false)
            && HasState(disk) && StateOf(disk) == j
            && HasData(world) && disk.stage.value.kept == before.disk.stage.value.kept
            && DataInode(world).node.bytes == disk.stage.value.kept)
      && (j.digest.Some? && !HasData(before) && DestinationMatches(env, before.disk.files, j) ==>
            && r == Ready(j.offset, true)
            && HasState(disk) && StateOf(disk) == j.(committed := true)
            && disk.stage.value.kept == before.disk.stage.value.kept)
      && (!j.committed && HasData(before) && Stat(before.disk.files, j.path) != j.expected ==> r == Failed(Conflict))
      && (j.digest.Some? && !HasData(before) && !DestinationMatches(env, before.disk.files, j) ==> r == Failed(Conflict))
    }

    /** The part of `prepare` that runs under the stage lock. */
    method PrepareStage(call: Call, journal: Journal) returns (r: Reply)
      requires At(Proc(call, Preparing(PrepareCheck), journal)) && HasState(disk) && StateOf(disk) == journal
      requires call.op.Prepare? && journal.owner == call.owner && journal.path == call.path
      modifies this`disk, this`inodes, this`trace, this`world
      ensures Idle() && world.reply == Some(r) && disk.files == old(disk).files
      ensures !flaky && old(Resumes(call)) ==> PrepareResumed(r, old(world), journal)
      ensures !(journal.source == call.op.source && journal.expected == call.op.expected) ==> r == Failed(SourceChanged)
    {
      var j := journal;
      SoundStage();
      Tick(Advance(NO_META));
      if j.source != call.op.source || j.expected != call.op.expected { return Failed(SourceChanged); }
      if j.digest.Some? && disk.stage.value.data.None? {
        var fault := ReconcileStage(call, j);
        if fault.Some? { return Failed(fault.value); }
        j := j.(committed := true);
      }
      var ok := Works();
      if !ok { return Failed(Io); }
      Tick(Advance(NO_META));
      if j.committed { return Ready(j.offset, true); }
      if Stat(disk.files, call.path) != j.expected { return Failed(Conflict); }
      r := TrimData(call, j);
    }

    /** Cut the data file back to its checkpoint. */
    method TrimData(call: Call, j: Journal) returns (r: Reply)
      requires At(Proc(call, Preparing(PrepareData), j)) && HasState(disk) && StateOf(disk) == j && !j.committed
      modifies this`inodes, this`trace, this`world
      ensures Idle() && world.reply == Some(r)
      ensures !flaky && old(HasData(world)) ==>
                r == Ready(j.offset, false) && HasData(world) && DataInode(world).node.bytes == disk.stage.value.kept
    {
      SoundStage();
      var ok := Works();
      if !ok { return Failed(Io); }
      var now: Meta := *;
      if disk.stage.value.data.None? {
        Tick(Advance(now));
        return Failed(Io);
      }
      var i := disk.stage.value.data.value;
      var bytes := inodes[i].node.bytes;
      assert j.offset <= |bytes|;  // the fault for a file shorter than its checkpoint cannot occur
      if |bytes| > j.offset {
        inodes := inodes[i := inodes[i].(node := inodes[i].node.(bytes := bytes[..j.offset], modified := now.modified))];
      }
      Tick(Advance(now));
      r := Ready(j.offset, false);
    }

    /** Store one block and move the checkpoint behind it. */
    method Write(path: Path, offset: nat, digest: string, block: Bytes) returns (r: Reply)
      requires Idle()
      modifies this`disk, this`inodes, this`trace, this`world
      ensures Idle() && world.reply == Some(r) && disk.files == old(disk).files
      ensures r.Ready? ==> HasState(disk) && |disk.stage.value.kept| == r.offset == offset + |block| && disk.stage.value.kept[offset..] == block
      ensures r.Ready? ==> env.digest(block) == digest && 0 < |block| <= CHUNK && HasState(old(disk)) && StateOf(old(disk)).offset == offset
      ensures !flaky && HasState(old(disk)) && StateOf(old(disk)).owner == owner && StateOf(old(disk)).path == path
              && (StateOf(old(disk)).committed || block == [] || |block| > CHUNK || offset != StateOf(old(disk)).offset
                  || offset + |block| > StateOf(old(disk)).source.length || env.digest(block) != digest) ==>
                r == Failed(Checkpoint)
      ensures !flaky && HasState(old(disk)) && StateOf(old(disk)).owner == owner && StateOf(old(disk)).path == path
              && Acceptable(env, StateOf(old(disk)), Op.Write(offset, digest, block)) && old(HasData(world)) ==>
                && r == Ready(offset + |block|, false)
                && HasState(disk) && StateOf(disk) == StateOf(old(disk)).(offset := offset + |block|)
                && HasData(world) && disk.stage.value.kept == old(disk).stage.value.kept + block
    {
      var call := Call(owner, path, Op.Write(offset, digest, block));
      Tick(Start(call));
      var stage := OpenStage(call);
      if stage.Refused? { return stage.reply; }
      SoundStage();
      r := WriteStage(call, stage.journal);
    }

    /** The part of `write` that runs under the stage lock. */
    method WriteStage(call: Call, journal: Journal) returns (r: Reply)
      requires At(Proc(call, Writing(WriteCheck), journal)) && call.op.Write? && HasState(disk) && StateOf(disk) == journal
      modifies this`disk, this`inodes, this`trace, this`world
      ensures Idle() && world.reply == Some(r) && disk.files == old(disk).files
      ensures r.Ready? ==>
                && r == Ready(journal.offset + |call.op.block|, false)
                && journal.offset == call.op.offset
                && HasState(disk) && StateOf(disk) == journal.(offset := journal.offset + |call.op.block|)
                && HasData(world)
                && disk.stage.value.kept == old(disk).stage.value.kept + call.op.block
      ensures r.Ready? ==> Acceptable(env, journal, call.op)
      ensures !Acceptable(env, journal, call.op) ==> r == Failed(Checkpoint)
      ensures !flaky && Acceptable(env, journal, call.op) && old(HasData(world)) ==> r.Ready?
    {
      var j := journal;
      Tick(Advance(NO_META));
      if !Acceptable(env, j, call.op) { return Failed(Checkpoint); }
      var ok := StoreBlock(call, j);
      if !ok { return Failed(Io); }
      j := j.(offset := j.offset + |call.op.block|);
      ok := Save(call, j, ForBlock);
      if !ok { return Failed(Io); }
      r := Ready(j.offset, false);
    }

    /** Write the block into the data file and flush it. */
    method StoreBlock(call: Call, j: Journal) returns (ok: bool)
      requires At(Proc(call, Writing(WriteData), j)) && call.op.Write? && HasState(disk) && StateOf(disk) == j
      modifies this`inodes, this`trace, this`world
      ensures Valid()
      ensures !flaky && old(HasData(world)) ==> ok
      ensures ok ==> HasData(world) && At(Proc(call, Saving(SaveOpen, ForBlock), j.(offset := j.offset + |call.op.block|)))
      ensures !ok ==> world.proc.None? && world.reply == Some(Failed(Io))
    {
      SoundStage();
      var now: Meta := *;
      if disk.stage.value.data.None? {
        Tick(Advance(now));
        return false;
      }
      ok := AppendBlock(call, j, now);
      if !ok { return; }
      ok := Works();
      if !ok { return; }
      FlushData();
      Tick(Advance(NO_META));
    }

    /** Stopping inside the write may leave any prefix of the block behind. */
    method AppendBlock(call: Call, j: Journal, now: Meta) returns (ok: bool)
      requires At(Proc(call, Writing(WriteData), j)) && call.op.Write? && HasData(world)
      modifies this`inodes, this`trace, this`world
      ensures Valid() && (!flaky ==> ok)
      ensures ok ==> HasData(world) && At(Proc(call, Writing(WriteSync), j))
      ensures !ok ==> world.proc.None? && world.reply == Some(Failed(Io))
    {
      var i := disk.stage.value.data.value;
      var node := inodes[i].node;
      ok := true;
      if flaky {
        ok := *;
        if !ok {
          var count: nat :| count <= |call.op.block|;
          inodes := inodes[i := inodes[i].(node := node.(bytes := WriteAt(node.bytes, call.op.offset, call.op.block[..count]), modified := now.modified))];
          Tick(TornWrite(count, now));
          return;
        }
      }
      inodes := inodes[i := inodes[i].(node := node.(bytes := WriteAt(node.bytes, call.op.offset, call.op.block), modified := now.modified))];
      Tick(Advance(now));
    }

    ghost predicate KeepsOthers(files: map<Path, Inode>, path: Path)
      reads this
    {
      forall p :: p in files && p != path ==> p in disk.files && disk.files[p] == files[p]
    }

    method Commit(path: Path, digest: string) returns (r: Reply)
      requires Idle()
      modifies this`disk, this`inodes, this`trace, this`world
      ensures Idle() && world.reply == Some(r)
      ensures KeepsOthers(old(disk).files, path)
      ensures r.Done? ==> CommitDone(path, digest, old(world))
      ensures !flaky && HasState(old(disk)) && StateOf(old(disk)).owner == owner && StateOf(old(disk)).path == path ==>
                && CommitResumed(r, digest, old(world), StateOf(old(disk)))
                && CommitRefused(r, digest, old(world), StateOf(old(disk)))
    {
      var call := Call(owner, path, Op.Commit(digest));
      Tick(Start(call));
      var stage := OpenStage(call);
      if stage.Refused? { return stage.reply; }
      r := CommitStage(call, stage.journal);
    }

    /** The part of `commit` that runs under the stage lock. */
    method CommitStage(call: Call, journal: Journal) returns (r: Reply)
      requires At(Proc(call, Committing(CommitCheck), journal)) && call.op.Commit? && HasState(disk) && StateOf(disk) == journal
      requires journal.path == call.path
      modifies this`disk, this`inodes, this`trace, this`world
      ensures Idle() && world.reply == Some(r)
      ensures KeepsOthers(old(disk).files, call.path)
      ensures r.Done? ==> CommitDone(call.path, call.op.digest, old(world))
      ensures !flaky ==> CommitResumed(r, call.op.digest, old(world), journal) && CommitRefused(r, call.op.digest, old(world), journal)
    {
      var j := journal;
      SoundStage();
      Tick(Advance(NO_META));
      if j.digest.Some? && disk.stage.value.data.None? {
        var fault := ReconcileStage(call, j);
        return if fault.None? then Done else Failed(fault.value);
      }
      if j.offset != j.source.length || Stat(disk.files, call.path) != j.expected { return Failed(Conflict); }
      var fault := VerifyData(call, j);
      if fault.Some? { return Failed(fault.value); }
      j := j.(digest := Some(call.op.digest));
      var ok := Save(call, j, ForDigest);
      if !ok { return Failed(Io); }
      SoundData(call, j);
      r := PublishData(call, j);
    }

    /** A file that is about to be published is what its journal says, with the
        metadata of its source. */
    lemma SoundData(call: Call, journal: Journal)
      requires At(Proc(call, Committing(CommitRecheck), journal)) && call.op.Commit?
      ensures HasData(world) && Stamped(DataInode(world).node, journal.source)
      ensures DataInode(world).node.kind == RegularFile && |DataInode(world).node.bytes| == journal.source.length
      ensures env.digest(DataInode(world).node.bytes) == call.op.digest && journal.digest == Some(call.op.digest)
    {
      Sound();
      assert CommitSound(env, world, Proc(call, Committing(CommitRecheck), journal), CommitRecheck);
      CheckpointFacts(env, world);
    }

    /** What an undisturbed Commit achieves: it publishes the staged file, or
        confirms that this was already done. */
    ghost predicate CommitResumed(r: Reply, digest: string, before: World, j: Journal)
      reads this
      requires before.disk.stage.Some?
    {
      && (HasData(before) && j.offset == j.source.length && Stat(before.disk.files, j.path) == j.expected
          && CanPublish(before.disk.files, j) && env.digest(DataInode(before).node.bytes) == digest ==>
            && r == Done
            && j.path in disk.files
            && disk.files[j.path].node.bytes == DataInode(before).node.bytes
            && Stamped(disk.files[j.path].node, j.source)
            && HasState(disk) && StateOf(disk) == j.(digest := Some(digest), committed := true))
      && (j.digest.Some? && !HasData(before) && DestinationMatches(env, before.disk.files, j) ==>
            && r == Done
            && disk.files == before.disk.files
            && HasState(disk) && StateOf(disk) == j.(committed := true))
    }

    /** What Done stands for, however often the stage was interrupted before: the
        destination is the recorded file; and if it was still staged, it is the staged
        file with the client's digest and the metadata of its source. */
    ghost predicate CommitDone(path: Path, digest: string, before: World)
      reads this
    {
      && HasState(disk) && StateOf(disk).committed && StateOf(disk).path == path
      && DestinationMatches(env, disk.files, StateOf(disk))
      && (HasData(before) ==>
            && disk.files[path].node.bytes == DataInode(before).node.bytes
            && StateOf(disk).digest == Some(digest)
            && Stamped(disk.files[path].node, StateOf(disk).source))
    }

    /** What an undisturbed Commit refuses. */
    ghost predicate CommitRefused(r: Reply, digest: string, before: World, j: Journal)
      requires before.disk.stage.Some?
      reads this
    {
      && (HasData(before) && (j.offset != j.source.length || Stat(before.disk.files, j.path) != j.expected) ==>
            r == Failed(Conflict))
      && (HasData(before) && j.offset == j.source.length && Stat(before.disk.files, j.path) == j.expected
          && env.digest(DataInode(before).node.bytes) != digest ==>
            r == Failed(Checksum))
      && (j.digest.Some? && !HasData(before) && !DestinationMatches(env, before.disk.files, j) ==> r == Failed(Conflict))
    }

    /** Check the staged file against the client's digest, then set and flush its metadata. */
    method VerifyData(call: Call, j: Journal) returns (fault: Option<Fault>)
      requires At(Proc(call, Committing(CommitHash), j)) && call.op.Commit? && HasState(disk) && StateOf(disk) == j
      modifies this`inodes, this`trace, this`world
      ensures Valid()
      ensures !flaky && old(HasData(world)) ==>
                fault == if env.digest(old(DataInode(world)).node.bytes) == call.op.digest then None else Some(Checksum)
      ensures fault.None? ==>
                && old(HasData(world)) && HasData(world)
                && At(Proc(call, Saving(SaveOpen, ForDigest), j.(digest := Some(call.op.digest))))
                && DataInode(world).node.bytes == old(DataInode(world)).node.bytes
      ensures fault.Some? ==> world.proc.None? && world.reply == Some(Failed(fault.value))
    {
      SoundStage();
      var ok := Works();
      if !ok { return Some(Io); }
      Tick(Advance(NO_META));
      if disk.stage.value.data.None? { return Some(Io); }
      var i := disk.stage.value.data.value;
      if env.digest(inodes[i].node.bytes) != call.op.digest { return Some(Checksum); }
      ok := StampData(call, j);
      fault := if ok then None else Some(Io);
    }

    /** Give the staged file the permissions and times of its source, durably. */
    method StampData(call: Call, j: Journal) returns (ok: bool)
      requires At(Proc(call, Committing(CommitMeta), j)) && call.op.Commit? && HasData(world)
      modifies this`inodes, this`trace, this`world
      ensures Valid() && (!flaky ==> ok)
      ensures ok ==>
                && At(Proc(call, Saving(SaveOpen, ForDigest), j.(digest := Some(call.op.digest))))
                && HasData(world) && DataInode(world).node.bytes == old(DataInode(world)).node.bytes
      ensures !ok ==> world.proc.None? && world.reply == Some(Failed(Io))
    {
      ok := Works();
      if !ok { return; }
      var i := disk.stage.value.data.value;
      inodes := inodes[i := inodes[i].(node := inodes[i].node.(mode := j.source.mode % 512, modified := j.source.modified))];
      Tick(Advance(NO_META));
      ok := Works();
      if !ok { return; }
      FlushData();
      Tick(Advance(NO_META));
    }

    /** Recheck the destination, rename the data file onto it and record that. */
    method PublishData(call: Call, journal: Journal) returns (r: Reply)
      requires At(Proc(call, Committing(CommitRecheck), journal)) && HasState(disk) && StateOf(disk) == journal && HasData(world)
      requires journal.path == call.path
      modifies this`disk, this`trace, this`world
      ensures Idle() && world.reply == Some(r)
      ensures KeepsOthers(old(disk).files, journal.path)
      ensures r.Done? ==>
                && HasState(disk) && StateOf(disk) == journal.(committed := true)
                && journal.path in disk.files && disk.files[journal.path] == old(DataInode(world))
      ensures !flaky && Stat(old(disk).files, journal.path) == journal.expected && CanPublish(old(disk).files, journal) ==> r == Done
    {
      var ok := Works();
      if !ok { return Failed(Io); }
      Tick(Advance(NO_META));
      if Stat(disk.files, call.path) != journal.expected { return Failed(Conflict); }
      ok := RenameData(call, journal);
      if !ok { return Failed(Io); }
      r := RecordCommit(call, journal);
    }

    /** Flush the directory of the destination and record the commit. */
    method RecordCommit(call: Call, journal: Journal) returns (r: Reply)
      requires At(Proc(call, Committing(CommitSyncParent), journal)) && disk.stage.Some?
      modifies this`disk, this`trace, this`world
      ensures Idle() && world.reply == Some(r) && disk.files == old(disk).files
      ensures r.Done? ==> HasState(disk) && StateOf(disk) == journal.(committed := true)
      ensures !flaky ==> r == Done
    {
      var ok := Works();
      if !ok { return Failed(Io); }
      Tick(Advance(NO_META));
      ok := Save(call, journal.(committed := true), ForCommit);
      r := if ok then Done else Failed(Io);
    }

    /** The one step that changes the destination. */
    method RenameData(call: Call, journal: Journal) returns (ok: bool)
      requires At(Proc(call, Committing(CommitRename), journal)) && HasState(disk) && StateOf(disk) == journal && HasData(world)
      modifies this`disk, this`trace, this`world
      ensures Valid() && inodes == old(inodes)
      ensures !flaky && CanPublish(old(disk).files, journal) ==> ok
      ensures !ok ==> world.proc.None? && world.reply == Some(Failed(Io)) && disk == old(disk)
      ensures ok ==>
                && At(Proc(call, Committing(CommitSyncParent), journal)) && disk.stage.Some?
                && disk.files == old(disk).files[journal.path := old(DataInode(world))]
    {
      ok := Works();
      if !ok { return; }
      if CanPublish(disk.files, journal) {
        var dir := disk.stage.value;
        disk := Disk(disk.files[journal.path := inodes[dir.data.value]],
                     Some(dir.(data := None, published := dir.published + 1)));
      } else {
        ok := false;
      }
      Tick(Advance(NO_META));
    }
 
    /** Give the transfer up and clear its stage. */
    method Cancel(path: Path) returns (r: Reply)
      requires Idle()
      modifies this`disk, this`inodes, this`trace, this`world
      ensures Idle() && world.reply == Some(r) && disk.files == old(disk).files
      ensures old(disk).stage.None? ==> r == Done && disk == old(disk)
      ensures r.Done? ==> disk.stage.None?
      ensures !flaky && HasState(old(disk)) && StateOf(old(disk)).owner == owner && StateOf(old(disk)).path == path ==> r == Done
      ensures !flaky && old(disk).stage.Some? && old(disk).stage.value.state.None? ==> r == Failed(Missing)
    {
      var call := Call(owner, path, Op.Cancel);
      Tick(Start(call));
      if disk.stage.None? { return Done; }
      var stage := OpenStage(call);
      if stage.Refused? { return stage.reply; }
      var ok := ClearStage(call, stage.journal);
      r := if ok then Done else Failed(Io);
    }

    /** Remove the stage's entries in the order of the source: data first, so that
        a checkpoint never outlives its data unnoticed. */
    method ClearStage(call: Call, journal: Journal) returns (ok: bool)
      requires At(Proc(call, Cancelling(RemoveData), journal)) && disk.stage.Some?
      modifies this`disk, this`trace, this`world
      ensures Idle() && disk.files == old(disk).files && inodes == old(inodes)
      ensures !flaky ==> ok
      ensures ok ==> disk.stage.None? && world.reply == Some(Done)
      ensures !ok ==> world.reply == Some(Failed(Io))
    {
      var dir := disk.stage.value;
      ok := Works();
      if !ok { return; }
      dir := dir.(data := None, cancelled := true);
      disk := disk.(stage := Some(dir));
      Tick(Advance(NO_META));
      ok := Works();
      if !ok { return; }
      dir := dir.(next := None);
      disk := disk.(stage := Some(dir));
      Tick(Advance(NO_META));
      ok := Works();
      if !ok { return; }
      dir := dir.(state := None);
      disk := disk.(stage := Some(dir));
      Tick(Advance(NO_META));
      ok := RemoveStage(call, journal);
    }

    method RemoveStage(call: Call, journal: Journal) returns (ok: bool)
      requires At(Proc(call, Cancelling(RemoveLock), journal)) && disk.stage.Some?
      modifies this`disk, this`trace, this`world
      ensures Idle() && disk.files == old(disk).files && inodes == old(inodes)
      ensures !flaky ==> ok
      ensures ok ==> disk.stage.None? && world.reply == Some(Done)
      ensures !ok ==> world.reply == Some(Failed(Io))
    {
      ok := Works();
      if !ok { return; }
      disk := disk.(stage := Some(disk.stage.value.(lock := false)));
      Tick(Advance(NO_META));
      ok := Works();
      if !ok { return; }
      disk := disk.(stage := None);
      Tick(Advance(NO_META));
      ok := Works();
      if !ok { return; }
      Tick(Advance(NO_META));
    }

    // ----- Recovery -----

    /** What being on track means for a client that resumes. */
    lemma Resumable(t: Target)
      requires Idle() && OnTrack(t, world)
      ensures HasState(disk) ==>
                && Fits(t, StateOf(disk))
                && disk.stage.value.kept <= t.content
                && (HasData(world) ==> Stat(disk.files, t.path) == t.expected)
                && (!HasData(world) ==>
                      && StateOf(disk).digest.Some?
                      && DestinationMatches(env, disk.files, StateOf(disk))
                      && disk.files[t.path].node.bytes == t.content
                      && Stamped(disk.files[t.path].node, t.source))
      ensures !HasState(disk) ==> Existing(disk.stage).state.None? && Stat(disk.files, t.path) == t.expected
    {
      Sound();
      if HasState(disk) {
        CheckpointFacts(env, world);
      }
    }

    /** Send the missing blocks after `offset`. */
    method SendBlocks(t: Target, start: nat)
      requires Idle() && !flaky && Sensible(t) && t.owner == owner
      requires HasState(disk) && Fits(t, StateOf(disk)) && StateOf(disk).offset == start
      requires HasData(world) && disk.stage.value.kept <= t.content
      requires Stat(disk.files, t.path) == t.expected
      modifies this`disk, this`inodes, this`trace, this`world
      ensures Idle() && disk.files == old(disk).files
      ensures HasState(disk) && Fits(t, StateOf(disk)) && StateOf(disk).offset == |t.content|
      ensures HasData(world) && DataInode(world).node.bytes == t.content
    {
      var offset := start;
      SoundStage();
      while offset < |t.content|
        invariant Idle() && disk.files == old(disk).files
        invariant HasState(disk) && Fits(t, StateOf(disk)) && StateOf(disk).offset == offset <= |t.content|
        invariant HasData(world) && disk.stage.value.kept <= t.content && |disk.stage.value.kept| == offset
      {
        SoundStage();
        var count := Min(CHUNK, |t.content| - offset);
        var block := t.content[offset..offset + count];
        ghost var kept := disk.stage.value.kept;
        assert kept + block == t.content[..offset + count];
        var r := Write(t.path, offset, env.digest(block), block);
        offset := offset + count;
      }
      SoundStage();
    }

    /** Recovery always succeeds: from every state that stops, torn writes and
        losses of power can leave, an undisturbed client completes its transfer
        and the destination holds exactly its source. */
    method Complete(t: Target) returns (r: Reply)
      requires Idle() && !flaky && OnTrack(t, world) && t.owner == owner
      modifies this`disk, this`inodes, this`trace, this`world
      ensures Idle() && r == Done
      ensures HasState(disk) && StateOf(disk).committed
      ensures t.path in disk.files && disk.files[t.path].node.bytes == t.content
      ensures disk.files[t.path].node.mode == t.source.mode % 512 && disk.files[t.path].node.modified == t.source.modified
      ensures KeepsOthers(old(disk).files, t.path)
    {
      Resumable(t);
      var ready := Prepare(t.path, t.source, t.expected);
      if ready.Ready? && ready.complete { return Done; }
      SendBlocks(t, ready.offset);
      r := Commit(t.path, env.digest(t.content));
    }
  }
}
