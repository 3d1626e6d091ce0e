/** Stored configurations, their cached runtimes and live subscribers. */
module Profiles {
  import opened Wrappers

  datatype Config = Config(values: string, revision: int)

  datatype Settings = Settings(background: bool, grace: nat)

  datatype Runtime = Runtime(config: Config, settings: Settings)

  /** `updates` is the number of the watch channel. */
  datatype Profile = Profile(runtime: Runtime, updates: nat)

  /** `id` is history: what the subscriber asked for. */
  datatype Subscription = Subscription(id: string, channel: nat)

  /** Which settings a configuration resolves to, if it is valid. */
  type Load = Config -> Option<Settings>

  datatype Registry = Registry(
    store: map<string, Config>, cache: map<string, Profile>, channels: seq<Settings>,
    receivers: map<nat, Subscription>, subscribed: nat)

  // ----- What the parts of a call do -----

  /** A row is replaced by a newer revision, or by itself. */
  predicate Accepts(store: map<string, Config>, id: string, config: Config) {
    id !in store || config.revision > store[id].revision || config == store[id]
  }

  function Published(r: Registry, id: string, runtime: Runtime): Registry {
    if id in r.cache && r.cache[id].updates < |r.channels| then
      r.(cache := r.cache[id := r.cache[id].(runtime := runtime)],
         channels := r.channels[r.cache[id].updates := runtime.settings])
    else r
  }

  predicate Watched(receivers: map<nat, Subscription>, channel: nat) {
    exists n :: n in receivers && receivers[n].channel == channel
  }

  function Kept(cache: map<string, Profile>, receivers: map<nat, Subscription>): map<string, Profile> {
    map id | id in cache && Watched(receivers, cache[id].updates) :: cache[id]
  }

  function Retained(r: Registry): Registry {
    r.(cache := Kept(r.cache, r.receivers))
  }

  function Installed(r: Registry, id: string, runtime: Runtime): Registry {
    r.(cache := r.cache[id := Profile(runtime, |r.channels|)], channels := r.channels + [runtime.settings])
  }

  function Subscribed(r: Registry, id: string): Registry
    requires id in r.cache
  {
    r.(receivers := r.receivers[r.subscribed := Subscription(id, r.cache[id].updates)], subscribed := r.subscribed + 1)
  }

  // ----- Whole calls, one at a time -----

  datatype Reply<+T> = Done(value: T) | Invalid | Conflict | Required

  function Configured(r: Registry, id: string, config: Config, load: Load): (Registry, Reply<()>) {
    match load(config)
    case None => (r, Invalid)
    case Some(settings) =>
      if !Accepts(r.store, id, config) then (r, Conflict)
      else (Published(r.(store := r.store[id := config]), id, Runtime(config, settings)), Done(()))
  }

  function Snapshotted(r: Registry, id: string, load: Load): (Registry, Reply<(Runtime, nat)>) {
    var kept := Retained(r);
    if id in kept.cache then (Subscribed(kept, id), Done((kept.cache[id].runtime, r.subscribed)))
    else if id !in r.store then (kept, Required)
    else
      match load(r.store[id])
      case None => (kept, Invalid)
      case Some(settings) =>
        var runtime := Runtime(r.store[id], settings);
        (Subscribed(Installed(kept, id, runtime), id), Done((runtime, r.subscribed)))
  }

  // ----- The invariant -----

  /** Every cached profile is what the store has, and no two share a channel. */
  predicate CacheSound(r: Registry, load: Load, except: Option<string>) {
    && (forall id :: id in r.cache ==> ProfileSound(r, id))
    && (forall id :: id in r.cache && Some(id) != except ==> Current(r, id, load))
    && (forall a, b :: a in r.cache && b in r.cache && a != b ==> r.cache[a].updates != r.cache[b].updates)
  }

  predicate ProfileSound(r: Registry, id: string)
    requires id in r.cache
  {
    && id in r.store
    && r.cache[id].updates < |r.channels|
    && r.channels[r.cache[id].updates] == r.cache[id].runtime.settings
  }

  predicate Current(r: Registry, id: string, load: Load)
    requires id in r.cache
  {
    && id in r.store
    && r.cache[id].runtime.config == r.store[id]
    && load(r.store[id]) == Some(r.cache[id].runtime.settings)
  }

  /** Every live subscriber belongs to a cached profile and watches its channel. */
  predicate ReceiversSound(r: Registry) {
    && (forall n :: n in r.receivers ==> n < r.subscribed)
    && (forall n :: n in r.receivers ==>
          r.receivers[n].id in r.cache && r.cache[r.receivers[n].id].updates == r.receivers[n].channel)
  }

  predicate Sound(r: Registry, load: Load) {
    CacheSound(r, load, None) && ReceiversSound(r)
  }

  /** Rows only gain newer revisions; a revision keeps its configuration. */
  predicate Later(a: map<string, Config>, b: map<string, Config>) {
    forall id :: id in a ==> id in b && (b[id].revision > a[id].revision || b[id] == a[id])
  }

  lemma RetainedSound(r: Registry, load: Load)
    requires Sound(r, load)
    ensures Sound(Retained(r), load)
    ensures forall id :: id in Retained(r).cache <==> exists n :: n in r.receivers && r.receivers[n].id == id
  {
    var kept := Retained(r);
    forall n | n in r.receivers ensures r.receivers[n].id in kept.cache {
      assert Watched(r.receivers, r.receivers[n].channel);
    }
    forall id | id in kept.cache ensures exists n :: n in r.receivers && r.receivers[n].id == id {
      var n :| n in r.receivers && r.receivers[n].channel == r.cache[id].updates;
      assert r.receivers[n].id == id;
    }
    forall id | id in kept.cache ensures ProfileSound(kept, id) && Current(kept, id, load) {
      assert ProfileSound(r, id) && Current(r, id, load);
    }
  }

  lemma InstalledSound(r: Registry, id: string, load: Load)
    requires Sound(r, load) && id in r.store && id !in r.cache && load(r.store[id]).Some?
    ensures Sound(Installed(r, id, Runtime(r.store[id], load(r.store[id]).value)), load)
  {
    var s := Installed(r, id, Runtime(r.store[id], load(r.store[id]).value));
    forall other | other in s.cache ensures ProfileSound(s, other) && Current(s, other, load) {
      if other != id {
        assert ProfileSound(r, other) && Current(r, other, load);
      }
    }
    forall a, b | a in s.cache && b in s.cache && a != b ensures s.cache[a].updates != s.cache[b].updates {
      assert a != id ==> ProfileSound(r, a);
      assert b != id ==> ProfileSound(r, b);
    }
  }

  lemma SubscribedSound(r: Registry, id: string, load: Load)
    requires Sound(r, load) && id in r.cache
    ensures Sound(Subscribed(r, id), load)
  {
    var s := Subscribed(r, id);
    forall other | other in s.cache ensures ProfileSound(s, other) && Current(s, other, load) {
      assert ProfileSound(r, other) && Current(r, other, load);
    }
  }

  /** Between the commit and the publication only that profile may be behind. */
  lemma SavedSound(r: Registry, id: string, config: Config, load: Load)
    requires Sound(r, load) && Accepts(r.store, id, config)
    ensures var s := r.(store := r.store[id := config]);
            CacheSound(s, load, Some(id)) && ReceiversSound(s) && Later(r.store, s.store)
  {
    var s := r.(store := r.store[id := config]);
    forall other | other in s.cache ensures ProfileSound(s, other) && (other != id ==> Current(s, other, load)) {
      assert ProfileSound(r, other) && Current(r, other, load);
    }
  }

  lemma PublishedSound(r: Registry, id: string, runtime: Runtime, load: Load)
    requires CacheSound(r, load, Some(id)) && ReceiversSound(r)
    requires id in r.store && r.store[id] == runtime.config && load(runtime.config) == Some(runtime.settings)
    ensures Sound(Published(r, id, runtime), load)
  {
    var s := Published(r, id, runtime);
    forall other | other in s.cache ensures ProfileSound(s, other) && Current(s, other, load) {
      assert ProfileSound(r, other) && (other != id ==> Current(r, other, load));
    }
  }

  lemma UnsubscribedSound(r: Registry, n: nat, load: Load)
    requires Sound(r, load)
    ensures Sound(r.(receivers := r.receivers - {n}), load)
  {
    var s := r.(receivers := r.receivers - {n});
    forall id | id in s.cache ensures ProfileSound(s, id) && Current(s, id, load) {
      assert ProfileSound(r, id) && Current(r, id, load);
    }
  }

  // ----- What is answered -----

  /** Configuring is refused if the configuration does not resolve, and as a conflict if
      its revision is stale or stands for something else; a refusal changes nothing.
      Otherwise the row is stored, and a cached profile and its channel follow. */
  lemma ConfigureAnswers(r: Registry, id: string, config: Config, load: Load)
    requires Sound(r, load)
    ensures var (after, reply) := Configured(r, id, config, load);
            && (reply == Invalid <==> load(config).None?)
            && (reply == Conflict <==>
                  && load(config).Some? && id in r.store
                  && (config.revision < r.store[id].revision || (config.revision == r.store[id].revision && config != r.store[id])))
            && reply != Required
            && (!reply.Done? ==> after == r)
            && (reply.Done? ==>
                  && after.store == r.store[id := config]
                  && after.cache.Keys == r.cache.Keys && |after.channels| == |r.channels|
                  && after.receivers == r.receivers && after.subscribed == r.subscribed
                  && (forall other :: other in r.cache && other != id ==>
                        after.cache[other] == r.cache[other] && r.cache[other].updates < |r.channels|
                        && after.channels[r.cache[other].updates] == r.channels[r.cache[other].updates])
                  && (id in r.cache ==>
                        && after.cache[id].runtime.config == config
                        && Some(after.cache[id].runtime.settings) == load(config)
                        && after.cache[id].updates == r.cache[id].updates < |r.channels|
                        && Some(after.channels[r.cache[id].updates]) == load(config)))
  {
    forall other | other in r.cache ensures ProfileSound(r, other) {}
  }

  /** A snapshot hands out the runtime of the stored configuration and a subscription
      to a channel that shows its settings; it is refused if there is none stored, or
      if the stored one has to be resolved and does not. */
  lemma SnapshotAnswers(r: Registry, id: string, load: Load)
    requires Sound(r, load)
    ensures var (after, reply) := Snapshotted(r, id, load);
            && (reply == Required <==> id !in r.store)
            && (reply == Invalid <==> id in r.store && load(r.store[id]).None?)
            && reply != Conflict && after.store == r.store
            && (reply.Done? ==>
                  && id in r.store && load(r.store[id]).Some?
                  && reply.value.0 == Runtime(r.store[id], load(r.store[id]).value)
                  && reply.value.1 == r.subscribed
                  && id in after.cache && after.cache[id].runtime == reply.value.0
                  && after.receivers == r.receivers[r.subscribed := Subscription(id, after.cache[id].updates)]
                  && after.cache[id].updates < |after.channels|
                  && after.channels[after.cache[id].updates] == reply.value.0.settings)
            && (!reply.Done? ==> after.receivers == r.receivers)
  {
    RetainedSound(r, load);
    var kept := Retained(r);
    if id in kept.cache {
      assert ProfileSound(kept, id) && Current(kept, id, load);
    }
  }

  /** It forgets exactly the profiles that nobody watches. */
  lemma SnapshotRetains(r: Registry, id: string, load: Load, other: string)
    requires Sound(r, load) && other != id
    ensures var after := Snapshotted(r, id, load).0;
            && (other in after.cache <==> exists n :: n in r.receivers && r.receivers[n].id == other)
            && (other in after.cache ==> other in r.cache && after.cache[other] == r.cache[other])
  {
    RetainedSound(r, load);
  }

  // ----- The objects -----

  class Store {
    var rows: map<string, Config>

    constructor ()
      ensures rows == map[]
    {
      rows := map[];
    }

    /** The conditional upsert: whether a row was written. */
    method SaveConfig(id: string, config: Config) returns (changed: bool)
      modifies this
      ensures changed == Accepts(old(rows), id, config)
      ensures rows == if changed then old(rows)[id := config] else old(rows)
    {
      if id !in rows {
        rows := rows[id := config];
        return true;
      }
      var row := rows[id];
      changed := config.revision > row.revision || (config.revision == row.revision && config == row);
      if changed {
        rows := rows[id := config];
      }
    }

    method ReadConfig(id: string) returns (config: Option<Config>)
      ensures config == if id in rows then Some(rows[id]) else None
    {
      config := if id in rows then Some(rows[id]) else None;
    }
  }

  class Directory {
    const store: Store
    const load: Load
    var profiles: map<string, Profile>
    var channels: seq<Settings>
    var receivers: map<nat, Subscription>
    var subscribed: nat

    ghost function View(): Registry
      reads this, store
    {
      Registry(store.rows, profiles, channels, receivers, subscribed)
    }

    ghost predicate Valid()
      reads this, store
    {
      Sound(View(), load)
    }

    constructor (store: Store, load: Load)
      ensures Valid() && View() == Registry(store.rows, map[], [], map[], 0)
      ensures this.store == store && this.load == load
    {
      this.store := store;
      this.load := load;
      this.profiles := map[];
      this.channels := [];
      this.receivers := map[];
      this.subscribed := 0;
    }

    /** Persist, then publish to the cached runtime and its subscribers. */
    method Configure(id: string, config: Config) returns (reply: Reply<()>)
      requires Valid()
      modifies this`profiles, this`channels, store
      ensures Valid()
      ensures (View(), reply) == Configured(old(View()), id, config, load)
      ensures Later(old(store.rows), store.rows)
    {
      var settings := load(config);
      if settings.None? {
        return Invalid;
      }
      ghost var before := View();
      var changed := store.SaveConfig(id, config);
      if !changed {
        return Conflict;
      }
      SavedSound(before, id, config, load);
      PublishedSound(View(), id, Runtime(config, settings.value), load);
      if id in profiles {
        assert ProfileSound(View(), id);
        channels := channels[profiles[id].updates := settings.value];
        profiles := profiles[id := profiles[id].(runtime := Runtime(config, settings.value))];
      }
      reply := Done(());
    }

    /** Forget the profiles nobody watches. */
    method Retain()
      requires Valid()
      modifies this`profiles
      ensures Valid() && View() == Retained(old(View()))
    {
      RetainedSound(View(), load);
      profiles := Kept(profiles, receivers);
    }

    method Subscribe(id: string) returns (n: nat)
      requires Valid() && id in profiles
      modifies this`receivers, this`subscribed
      ensures Valid() && View() == Subscribed(old(View()), id) && n == old(subscribed)
    {
      SubscribedSound(View(), id, load);
      n := subscribed;
      receivers := receivers[n := Subscription(id, profiles[id].updates)];
      subscribed := n + 1;
    }

    method Install(id: string, config: Config, settings: Settings)
      requires Valid() && id !in profiles && id in store.rows && store.rows[id] == config && load(config) == Some(settings)
      modifies this`profiles, this`channels
      ensures Valid() && View() == Installed(old(View()), id, Runtime(config, settings))
    {
      InstalledSound(View(), id, load);
      profiles := profiles[id := Profile(Runtime(config, settings), |channels|)];
      channels := channels + [settings];
    }

    /** The runtime of a profile and a subscription to its changes. */
    method Snapshot(id: string) returns (reply: Reply<(Runtime, nat)>)
      requires Valid()
      modifies this
      ensures Valid() && store.rows == old(store.rows)
      ensures (View(), reply) == Snapshotted(old(View()), id, load)
    {
      Retain();
      if id !in profiles {
        var config := store.ReadConfig(id);
        if config.None? {
          return Required;
        }
        var settings := load(config.value);
        if settings.None? {
          return Invalid;
        }
        Install(id, config.value, settings.value);
      }
      var n := Subscribe(id);
      reply := Done((profiles[id].runtime, n));
    }

    /** A subscriber goes away, whenever it likes. */
    method Unsubscribe(n: nat)
      requires Valid()
      modifies this`receivers
      ensures Valid() && View() == old(View()).(receivers := old(receivers) - {n})
    {
      UnsubscribedSound(View(), n, load);
      receivers := receivers - {n};
    }
  }
}
