/** Concurrent calls of configure and snapshot, interrupted at every wait. */
module ProfileCalls {
  import opened Wrappers
  import opened Profiles

  /** A call between two of its waits: before the lock, under it, and under it with
      the row committed or read. */
  datatype Task =
    | Configuring(id: string, runtime: Runtime)
    | Saving(id: string, runtime: Runtime)
    | Publishing(id: string, runtime: Runtime)
    | Asking(id: string)
    | Finding(id: string)
    | Loading(id: string, config: Config)

  datatype World = World(registry: Registry, tasks: map<nat, Task>, lock: Option<nat>)

  datatype Action =
    | Configure(task: nat, id: string, config: Config)
    | Snapshot(task: nat, id: string)
    | Advance(task: nat)
    | Abandon(task: nat)
    | Unsubscribe(receiver: nat)

  predicate Locked(task: Task) {
    !task.Configuring? && !task.Asking?
  }

  /** The call ends and gives the lock back. */
  function End(w: World, t: nat): World {
    w.(tasks := w.tasks - {t}, lock := if w.lock == Some(t) then None else w.lock)
  }

  function Progress(w: World, t: nat, load: Load): World
    requires t in w.tasks
  {
    var r := w.registry;
    match w.tasks[t]
    case Configuring(id, runtime) =>
      if w.lock.Some? then w else w.(tasks := w.tasks[t := Saving(id, runtime)], lock := Some(t))
    case Saving(id, runtime) =>
      if Accepts(r.store, id, runtime.config)
      then w.(registry := r.(store := r.store[id := runtime.config]), tasks := w.tasks[t := Publishing(id, runtime)])
      else End(w, t)
    case Publishing(id, runtime) => End(w.(registry := Published(r, id, runtime)), t)
    case Asking(id) =>
      if w.lock.Some? then w
      else w.(registry := Retained(r), tasks := w.tasks[t := Finding(id)], lock := Some(t))
    case Finding(id) =>
      if id in r.cache then End(w.(registry := Subscribed(r, id)), t)
      else if id in r.store then w.(tasks := w.tasks[t := Loading(id, r.store[id])])
      else End(w, t)
    case Loading(id, config) =>
      match load(config)
      case None => End(w, t)
      case Some(settings) => End(w.(registry := Subscribed(Installed(r, id, Runtime(config, settings)), id)), t)
  }

  function Step(w: World, a: Action, load: Load): World {
    match a
    case Configure(t, id, config) =>
      if t in w.tasks || load(config).None? then w
      else w.(tasks := w.tasks[t := Configuring(id, Runtime(config, load(config).value))])
    case Snapshot(t, id) => if t in w.tasks then w else w.(tasks := w.tasks[t := Asking(id)])
    case Advance(t) => if t in w.tasks then Progress(w, t, load) else w
    case Abandon(t) => if t in w.tasks then End(w, t) else w
    case Unsubscribe(n) => w.(registry := w.registry.(receivers := w.registry.receivers - {n}))
  }

  function Run(w: World, actions: seq<Action>, load: Load): World
    decreases |actions|
  {
    if actions == [] then w else Run(Step(w, actions[0], load), actions[1..], load)
  }

  // ----- The invariant -----

  predicate TaskSound(r: Registry, task: Task, load: Load) {
    match task
    case Configuring(_, runtime) => load(runtime.config) == Some(runtime.settings)
    case Saving(_, runtime) => load(runtime.config) == Some(runtime.settings)
    case Publishing(id, runtime) =>
      load(runtime.config) == Some(runtime.settings) && id in r.store && r.store[id] == runtime.config
    case Asking(_) => true
    case Finding(_) => true
    case Loading(id, config) => id !in r.cache && id in r.store && r.store[id] == config
  }

  /** The profile whose row is committed but not yet published. */
  function Behind(w: World): Option<string> {
    if w.lock.Some? && w.lock.value in w.tasks && w.tasks[w.lock.value].Publishing?
    then Some(w.tasks[w.lock.value].id) else None
  }

  predicate Inv(w: World, load: Load) {
    && CacheSound(w.registry, load, Behind(w)) && ReceiversSound(w.registry)
    && (w.lock.Some? ==> w.lock.value in w.tasks && Locked(w.tasks[w.lock.value]))
    && (forall t :: t in w.tasks ==> TaskSound(w.registry, w.tasks[t], load))
    && (forall t :: t in w.tasks && Locked(w.tasks[t]) ==> w.lock == Some(t))
  }

  /** Only an abandoned call that has committed and not published is excluded. */
  predicate Orderly(w: World, a: Action) {
    a.Abandon? && a.task in w.tasks ==> !w.tasks[a.task].Publishing?
  }

  /** A task that waits for the lock does not depend on the registry. */
  lemma EndKeeps(w: World, r: Registry, t: nat, load: Load)
    requires Inv(w, load) && Sound(r, load) && t in w.tasks && w.lock == Some(t)
    ensures Inv(End(w.(registry := r), t), load)
  {
    forall other | other in w.tasks && other != t ensures TaskSound(r, w.tasks[other], load) {
      assert !Locked(w.tasks[other]);
    }
  }

  lemma ConfigureKeeps(w: World, t: nat, load: Load)
    requires Inv(w, load) && t in w.tasks && (w.tasks[t].Configuring? || w.tasks[t].Saving? || w.tasks[t].Publishing?)
    ensures Inv(Progress(w, t, load), load) && Later(w.registry.store, Progress(w, t, load).registry.store)
  {
    var r := w.registry;
    match w.tasks[t]
    case Configuring(id, runtime) =>
    case Saving(id, runtime) =>
      if Accepts(r.store, id, runtime.config) {
        SavedSound(r, id, runtime.config, load);
        var s := r.(store := r.store[id := runtime.config]);
        forall other | other in w.tasks && other != t ensures TaskSound(s, w.tasks[other], load) {
          assert !Locked(w.tasks[other]);
        }
      } else {
        EndKeeps(w, r, t, load);
      }
    case Publishing(id, runtime) =>
      PublishedSound(r, id, runtime, load);
      EndKeeps(w, Published(r, id, runtime), t, load);
  }

  lemma SnapshotKeeps(w: World, t: nat, load: Load)
    requires Inv(w, load) && t in w.tasks && (w.tasks[t].Asking? || w.tasks[t].Finding? || w.tasks[t].Loading?)
    ensures Inv(Progress(w, t, load), load) && Later(w.registry.store, Progress(w, t, load).registry.store)
  {
    var r := w.registry;
    match w.tasks[t]
    case Asking(id) =>
      if w.lock.None? {
        RetainedSound(r, load);
        forall other | other in w.tasks && other != t ensures TaskSound(Retained(r), w.tasks[other], load) {
          assert !Locked(w.tasks[other]);
        }
      }
    case Finding(id) =>
      if id in r.cache {
        SubscribedSound(r, id, load);
        EndKeeps(w, Subscribed(r, id), t, load);
      } else if id !in r.store {
        EndKeeps(w, r, t, load);
      }
    case Loading(id, config) =>
      if load(config).Some? {
        var installed := Installed(r, id, Runtime(config, load(config).value));
        InstalledSound(r, id, load);
        SubscribedSound(installed, id, load);
        EndKeeps(w, Subscribed(installed, id), t, load);
      } else {
        EndKeeps(w, r, t, load);
      }
  }

  lemma UnsubscribeKeeps(w: World, n: nat, load: Load)
    requires Inv(w, load)
    ensures Inv(Step(w, Unsubscribe(n), load), load)
  {
    var r := w.registry;
    var s := r.(receivers := r.receivers - {n});
    forall id | id in s.cache ensures ProfileSound(s, id) && (Some(id) != Behind(w) ==> Current(s, id, load)) {
      assert ProfileSound(r, id) && (Some(id) != Behind(w) ==> Current(r, id, load));
    }
  }

  lemma AbandonKeeps(w: World, t: nat, load: Load)
    requires Inv(w, load) && t in w.tasks && !w.tasks[t].Publishing?
    ensures Inv(Step(w, Abandon(t), load), load)
  {}

  lemma StepKeeps(w: World, a: Action, load: Load)
    requires Inv(w, load) && Orderly(w, a)
    ensures Inv(Step(w, a, load), load)
    ensures Later(w.registry.store, Step(w, a, load).registry.store)
  {
    match a
    case Advance(t) =>
      if t in w.tasks {
        if w.tasks[t].Configuring? || w.tasks[t].Saving? || w.tasks[t].Publishing? {
          ConfigureKeeps(w, t, load);
        } else {
          SnapshotKeeps(w, t, load);
        }
      }
    case Unsubscribe(n) => UnsubscribeKeeps(w, n, load);
    case Abandon(t) =>
      if t in w.tasks {
        AbandonKeeps(w, t, load);
      }
    case _ =>
  }

  // ----- Runs -----

  function Boot(store: map<string, Config>): World {
    World(Registry(store, map[], [], map[], 0), map[], None)
  }

  predicate AllOrderly(w: World, actions: seq<Action>, load: Load)
    decreases |actions|
  {
    actions != [] ==> Orderly(w, actions[0]) && AllOrderly(Step(w, actions[0], load), actions[1..], load)
  }

  lemma LaterTransitive(a: map<string, Config>, b: map<string, Config>, c: map<string, Config>)
    requires Later(a, b) && Later(b, c)
    ensures Later(a, c)
  {}

  lemma {:induction false} RunKeeps(w: World, actions: seq<Action>, load: Load)
    requires Inv(w, load) && AllOrderly(w, actions, load)
    ensures Inv(Run(w, actions, load), load)
    ensures Later(w.registry.store, Run(w, actions, load).registry.store)
    decreases |actions|
  {
    if actions != [] {
      var next := Step(w, actions[0], load);
      StepKeeps(w, actions[0], load);
      RunKeeps(next, actions[1..], load);
      LaterTransitive(w.registry.store, next.registry.store, Run(w, actions, load).registry.store);
    }
  }

  /** In every run, whenever nobody is between commit and publication, each cached
      runtime is the stored configuration's and each live subscriber sees exactly
      its settings. */
  lemma CachedIsStored(store: map<string, Config>, actions: seq<Action>, load: Load)
    requires AllOrderly(Boot(store), actions, load)
    ensures var w := Run(Boot(store), actions, load);
            var r := w.registry;
            && (Behind(w).None? ==>
                  forall id :: id in r.cache ==>
                    id in r.store && r.cache[id].runtime.config == r.store[id] &&
                    load(r.store[id]) == Some(r.cache[id].runtime.settings))
            && (forall n :: n in r.receivers ==>
                  && r.receivers[n].id in r.cache
                  && r.receivers[n].channel < |r.channels|
                  && r.channels[r.receivers[n].channel] == r.cache[r.receivers[n].id].runtime.settings)
  {
    RunKeeps(Boot(store), actions, load);
    var r := Run(Boot(store), actions, load).registry;
    assert forall id :: id in r.cache ==> ProfileSound(r, id);
  }

  /** Along every run, abandoned calls included, a profile's revision never goes
      down, and one revision never stands for two configurations. */
  lemma {:induction false} RevisionsGrow(w: World, actions: seq<Action>, load: Load)
    ensures Later(w.registry.store, Run(w, actions, load).registry.store)
    decreases |actions|
  {
    if actions != [] {
      var next := Step(w, actions[0], load);
      RevisionsGrow(next, actions[1..], load);
      LaterTransitive(w.registry.store, next.registry.store, Run(w, actions, load).registry.store);
    }
  }

  /** A call abandoned between commit and publication leaves the cache behind the
      store, exactly if the profile is cached with another runtime. */
  lemma AbandonedPublication(w: World, t: nat, load: Load)
    requires Inv(w, load) && t in w.tasks && w.tasks[t].Publishing?
    ensures var id, runtime := w.tasks[t].id, w.tasks[t].runtime;
            Inv(Step(w, Abandon(t), load), load) <==> id !in w.registry.cache || w.registry.cache[id].runtime == runtime
  {
    var r := w.registry;
    var id, runtime := w.tasks[t].id, w.tasks[t].runtime;
    var after := Step(w, Abandon(t), load);
    assert w.lock == Some(t) && after.registry == r && Behind(after).None?;
    forall other | other in after.tasks ensures TaskSound(r, after.tasks[other], load) && !Locked(after.tasks[other]) {
      assert other in w.tasks && other != t;
    }
    if id in r.cache {
      assert Current(r, id, load) <==> r.cache[id].runtime == runtime;
    }
  }

  lemma {:induction false} RunAppends(w: World, actions: seq<Action>, a: Action, load: Load)
    ensures Run(w, actions + [a], load) == Step(Run(w, actions, load), a, load)
    decreases |actions|
  {
    if actions == [] {
      assert Run(w, [a], load) == Run(Step(w, a, load), [a][1..], load);
    } else {
      assert (actions + [a])[1..] == actions[1..] + [a];
      RunAppends(Step(w, actions[0], load), actions[1..], a, load);
    }
  }

  /** A client subscribes to a profile that is not cached. */
  lemma FirstSnapshot(store: map<string, Config>, id: string, load: Load)
    requires id in store && load(store[id]).Some?
    ensures var w := Run(Boot(store), [Snapshot(0, id), Advance(0), Advance(0), Advance(0)], load);
            && w.registry.store == store && id in w.registry.cache
            && w.registry.cache[id] == Profile(Runtime(store[id], load(store[id]).value), 0)
            && w.registry.channels == [load(store[id]).value]
            && w.registry.receivers == map[0 := Subscription(id, 0)]
            && w.tasks == map[] && w.lock == None
  {
    var w := Boot(store);
    RunAppends(w, [], Snapshot(0, id), load);
    RunAppends(w, [Snapshot(0, id)], Advance(0), load);
    RunAppends(w, [Snapshot(0, id), Advance(0)], Advance(0), load);
    RunAppends(w, [Snapshot(0, id), Advance(0), Advance(0)], Advance(0), load);
    assert [Snapshot(0, id), Advance(0), Advance(0)] + [Advance(0)] == [Snapshot(0, id), Advance(0), Advance(0), Advance(0)];
  }

  /** A newer configuration is committed and its call abandoned. */
  lemma AbandonedConfigure(w: World, id: string, config: Config, load: Load)
    requires w.tasks == map[] && w.lock == None && load(config).Some? && Accepts(w.registry.store, id, config)
    ensures Run(w, [Configure(1, id, config), Advance(1), Advance(1), Abandon(1)], load)
            == w.(registry := w.registry.(store := w.registry.store[id := config]))
  {
    RunAppends(w, [], Configure(1, id, config), load);
    RunAppends(w, [Configure(1, id, config)], Advance(1), load);
    RunAppends(w, [Configure(1, id, config), Advance(1)], Advance(1), load);
    RunAppends(w, [Configure(1, id, config), Advance(1), Advance(1)], Abandon(1), load);
    assert [Configure(1, id, config), Advance(1), Advance(1)] + [Abandon(1)] == [Configure(1, id, config), Advance(1), Advance(1), Abandon(1)];
  }

  lemma {:induction false} RunConcat(w: World, a: seq<Action>, b: seq<Action>, load: Load)
    ensures Run(w, a + b, load) == Run(Run(w, a, load), b, load)
    decreases |a|
  {
    if a == [] {
      assert a + b == b;
    } else {
      assert (a + b)[1..] == a[1..] + b;
      RunConcat(Step(w, a[0], load), a[1..], b, load);
    }
  }

  /** So it happens: for any stored configuration and any newer one there is a run of
      eight actions after which nobody is at work, the newer one is stored, and both
      the cache and a live subscriber have the older one. */
  lemma CacheLeftBehind(store: map<string, Config>, id: string, config: Config, load: Load)
    requires id in store && load(store[id]).Some? && load(config).Some? && config.revision > store[id].revision
    ensures var w := Run(Boot(store), [Snapshot(0, id), Advance(0), Advance(0), Advance(0)]
                                      + [Configure(1, id, config), Advance(1), Advance(1), Abandon(1)], load);
            && w.tasks == map[] && w.lock == None
            && w.registry.store == store[id := config] && id in w.registry.cache
            && w.registry.cache[id].runtime.config == store[id] != config
            && w.registry.receivers == map[0 := Subscription(id, 0)]
            && w.registry.channels == [load(store[id]).value]
            && !Inv(w, load)
  {
    FirstSnapshot(store, id, load);
    var watched := Run(Boot(store), [Snapshot(0, id), Advance(0), Advance(0), Advance(0)], load);
    AbandonedConfigure(watched, id, config, load);
    RunConcat(Boot(store), [Snapshot(0, id), Advance(0), Advance(0), Advance(0)],
              [Configure(1, id, config), Advance(1), Advance(1), Abandon(1)], load);
  }
}
