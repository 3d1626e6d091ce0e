/** A destination is replaced only after it was found to be what the client expects. */
module TransferRecheck {
  import opened Wrappers
  import opened TransferDisk
  import opened TransferProtocol
  import opened TransferSafety

  predicate Renaming(w: World) {
    w.proc.Some? && w.proc.value.pc == Committing(CommitRename)
  }

  /** The destination is what the command expects. */
  predicate AsExpected(w: World) {
    w.proc.Some? && Stat(w.disk.files, w.proc.value.call.path) == w.proc.value.journal.expected
  }

  /** Not a step of the command. */
  predicate Meanwhile(a: Action) {
    a.Start? || a.Outside? || a.PowerLoss?
  }

  lemma CommitReachesRename(env: Env, w: World, p: Proc, step: CommitStep, now: Meta)
    requires w.proc == Some(p) && p.pc == Committing(step) && Renaming(StepCommit(env, w, p, step, now))
    ensures step.CommitRecheck? && AsExpected(w) && StepCommit(env, w, p, step, now).proc == Some(p.(pc := Committing(CommitRename)))
    ensures StepCommit(env, w, p, step, now).disk == w.disk
  {}

  lemma OthersDoNot(env: Env, w: World, p: Proc, now: Meta)
    requires w.proc == Some(p) && !p.pc.Committing?
    ensures !Renaming(Step(env, w, p, now))
  {
    match p.pc
    case Opening(step) => assert !Renaming(StepOpen(w, p, step));
    case Initialising(step) => assert !Renaming(StepInit(w, p, step, now));
    case Saving(step, purpose) => assert !Renaming(StepSave(w, p, step, purpose));
    case Preparing(step) => assert !Renaming(StepPrepare(env, w, p, step, now));
    case Writing(step) => assert !Renaming(StepWrite(env, w, p, step, now));
    case Cancelling(step) => assert !Renaming(StepCancel(w, p, step));
  }

  /** The rename is reached only from the recheck that found the destination as
      expected, and then waits until the command goes on. */
  lemma RenameFollowsRecheck(env: Env, w: World, a: Action)
    requires Renaming(Next(env, w, a))
    ensures || (a.Advance? && AsExpected(w) && AsExpected(Next(env, w, a)))
            || (Meanwhile(a) && Renaming(w) && Next(env, w, a).proc == w.proc)
  {
    if a.Advance? && w.proc.Some? {
      var p := w.proc.value;
      match p.pc
      case Committing(step) => CommitReachesRename(env, w, p, step, a.now);
      case _ => OthersDoNot(env, w, p, a.now);
    }
  }

  lemma {:induction false} RunLast(env: Env, w: World, actions: seq<Action>)
    requires actions != []
    ensures Run(env, w, actions) == Next(env, Run(env, w, actions[..|actions| - 1]), actions[|actions| - 1])
    decreases |actions|
  {
    var n := |actions| - 1;
    if n > 0 {
      RunLast(env, Next(env, w, actions[0]), actions[1..]);
      assert actions[1..][..n - 1] == actions[..n][1..] && actions[1..][n - 1] == actions[n];
    } else {
      assert actions[..0] == [];
      assert Run(env, Next(env, w, actions[0]), actions[1..]) == Next(env, w, actions[0]);
    }
  }

  /** The step at `i` rechecked the destination, and only others acted after it. */
  ghost predicate RecheckedAt(env: Env, w: World, actions: seq<Action>, i: nat) {
    && i < |actions| && actions[i].Advance?
    && AsExpected(Run(env, w, actions[..i])) && AsExpected(Run(env, w, actions[..i + 1]))
    && Run(env, w, actions[..i + 1]).proc == Run(env, w, actions).proc
    && forall j :: i < j < |actions| ==> Meanwhile(actions[j])
  }

  /** In every run each publishing rename was preceded by a recheck that found the
      destination as expected, and since then only others have acted. */
  lemma {:induction false} EveryRenameRechecked(env: Env, w: World, actions: seq<Action>)
    requires !Renaming(w) && Renaming(Run(env, w, actions))
    ensures exists i: nat :: RecheckedAt(env, w, actions, i)
    decreases |actions|
  {
    var n := |actions| - 1;
    var before := Run(env, w, actions[..n]);
    RunLast(env, w, actions);
    RenameFollowsRecheck(env, before, actions[n]);
    assert actions[..n + 1] == actions;
    if actions[n].Advance? {
      assert RecheckedAt(env, w, actions, n);
    } else {
      EveryRenameRechecked(env, w, actions[..n]);
      var i: nat :| RecheckedAt(env, w, actions[..n], i);
      assert actions[..n][..i] == actions[..i] && actions[..n][..i + 1] == actions[..i + 1];
      assert forall j :: i < j < n ==> actions[j] == actions[..n][j];
      assert RecheckedAt(env, w, actions, i);
    }
  }

  lemma {:induction false} NoneRenames(env: Env, w: World, actions: seq<Action>)
    requires !Renaming(w) && forall a :: a in actions ==> Meanwhile(a)
    ensures !Renaming(Run(env, w, actions))
    decreases |actions|
  {
    if actions != [] {
      assert Meanwhile(actions[0]) && !Renaming(Next(env, w, actions[0]));
      NoneRenames(env, Next(env, w, actions[0]), actions[1..]);
    }
  }

  /** Only a change at the path between the two can let it replace something else. */
  lemma {:induction false} ElsewhereKeeps(env: Env, w: World, actions: seq<Action>)
    requires Renaming(w) && AsExpected(w) && Renaming(Run(env, w, actions))
    requires forall a :: a in actions ==> Meanwhile(a) && (a.Outside? ==> a.path != w.proc.value.call.path)
    ensures Run(env, w, actions).proc == w.proc && AsExpected(Run(env, w, actions))
    decreases |actions|
  {
    if actions != [] {
      var next := Next(env, w, actions[0]);
      if !Renaming(next) {
        NoneRenames(env, next, actions[1..]);
      }
      ElsewhereKeeps(env, next, actions[1..]);
    }
  }

  lemma {:induction false} RunSplit(env: Env, w: World, a: seq<Action>, b: seq<Action>)
    ensures Run(env, w, a + b) == Run(env, Run(env, w, a), b)
    decreases |a|
  {
    if a == [] {
      assert a + b == b;
    } else {
      assert (a + b)[1..] == a[1..] + b;
      RunSplit(env, Next(env, w, a[0]), a[1..], b);
    }
  }

  /** So a run that publishes replaces what the client expects, nothing if it expects a
      new name, unless somebody else touches the path after the recheck. */
  lemma PublishesOverExpected(env: Env, files: map<Path, Inode>, actions: seq<Action>, now: Meta)
    requires Publishes(Run(env, Boot(files), actions), Advance(now))
    ensures var w := Run(env, Boot(files), actions);
            exists i: nat :: RecheckedAt(env, Boot(files), actions, i) &&
              ((forall j :: i < j < |actions| && actions[j].Outside? ==> actions[j].path != w.proc.value.call.path) ==> AsExpected(w))
  {
    EveryRenameRechecked(env, Boot(files), actions);
    var i: nat :| RecheckedAt(env, Boot(files), actions, i);
    var w := Run(env, Boot(files), actions);
    var upto, rest := actions[..i + 1], actions[i + 1..];
    assert actions == upto + rest;
    RunSplit(env, Boot(files), upto, rest);
    if forall j :: i < j < |actions| && actions[j].Outside? ==> actions[j].path != w.proc.value.call.path {
      forall a | a in rest ensures Meanwhile(a) && (a.Outside? ==> a.path != w.proc.value.call.path) {
        var k :| 0 <= k < |rest| && rest[k] == a;
        assert actions[i + 1 + k] == a;
      }
      ElsewhereKeeps(env, Run(env, Boot(files), upto), rest);
    }
  }
}
