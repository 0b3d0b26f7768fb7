/** `TokenizerCache` and `ProcessorManager` as the program writes them: dictionaries that are updated in place. Every
    method is the part between two suspension points and is tied to the step of `ProcessorCache` it performs. */
module ProcessorProgram {
  import opened Text
  import opened ProcessorCache

  // ---- laws of the moves that the loops need ----

  lemma {:induction false} SelectTwice(es: seq<Entry>, a: set<Key>, b: set<Key>)
    ensures Select(Select(es, a, false), b, false) == Select(es, a + b, false)
    ensures PathsOf(Select(es, a + b, true)) == PathsOf(Select(es, a, true)) + PathsOf(Select(Select(es, a, false), b, true))
  {
    hide Uses;
    if es != [] {
      SelectTwice(es[1..], a, b);
      var kept, cut, both := Select(es[1..], a, false), Select(es[1..], a, true), Select(es[1..], a + b, true);
      assert ([es[0]] + kept)[1..] == kept && ([es[0]] + cut)[1..] == cut && ([es[0]] + both)[1..] == both;
      var late := Select(kept, b, true);
      assert ([es[0]] + late)[1..] == late;
    }
  }

  lemma ReleaseTwice(refs: map<string, nat>, a: multiset<string>, b: multiset<string>)
    ensures ReleaseAll(ReleaseAll(refs, a), b) == ReleaseAll(refs, a + b)
  {}

  lemma ReleaseNone(refs: map<string, nat>)
    ensures ReleaseAll(refs, multiset{}) == refs
  {}

  lemma DropTwice(m: Manager, a: set<Key>, b: set<Key>)
    ensures Drop(Drop(m, a), b) == Drop(m, a + b)
  {
    hide Select, PathsOf, ReleaseAll;
    SelectTwice(m.cache, a, b);
    var pa, pb := PathsOf(Select(m.cache, a, true)), PathsOf(Select(Select(m.cache, a, false), b, true));
    ReleaseTwice(m.refs, pa, pb);
    assert (m.lastAccess - a) - b == m.lastAccess - (a + b);
    FewerRefs(m.refs, pa);
    FewerRefs(ReleaseAll(m.refs, pa), pb);
  }

  lemma FewerRefs(refs: map<string, nat>, a: multiset<string>)
    ensures ReleaseAll(refs, a).Keys <= refs.Keys
  {}

  lemma DropNothing(m: Manager)
    ensures Drop(m, {}) == m
  {
    SelectNothing(m.cache);
    ReleaseNone(m.refs);
    assert m.lastAccess - {} == m.lastAccess;
  }

  lemma {:induction false} SelectNothing(es: seq<Entry>)
    ensures Select(es, {}, false) == es && Select(es, {}, true) == []
  {
    if es != [] { SelectNothing(es[1..]); }
  }

  lemma {:induction false} PathsAppend(a: seq<Entry>, b: seq<Entry>)
    ensures PathsOf(a + b) == PathsOf(a) + PathsOf(b)
  {
    hide Uses;
    if a == [] {
      assert a + b == b;
    } else {
      assert (a + b)[1..] == a[1..] + b;
      PathsAppend(a[1..], b);
    }
  }

  lemma {:induction false} SelectAll(es: seq<Entry>, ks: set<Key>)
    requires KeysOf(es) <= ks
    ensures Select(es, ks, false) == [] && Select(es, ks, true) == es
  {
    if es != [] {
      HeadKeys(es);
      SelectAll(es[1..], ks);
    }
  }

  /** At most one processor has a given key. */
  lemma Popped(es: seq<Entry>, key: Key)
    requires DistinctKeys(es)
    ensures var removed := Select(es, {key}, true);
            removed == [] || (|removed| == 1 && PathsOf(removed) == Held(removed[0].config))
    ensures PathsOf([]) == multiset{}
  {
    hide Uses, DistinctKeys;
    if key in KeysOf(es) {
      var e := EntryOf(es, key);
      OneSelected(es, e);
      SinglePath(e);
    } else {
      NoneSelected(es, key);
    }
  }

  /** The tokenizers in memory (`cache`) and how many processors hold them. */
  class TokenizerCache {
    var cache: set<string>
    var refCounts: map<string, nat>

    constructor ()
      ensures cache == {} && refCounts == map[]
    {
      cache, refCounts := {}, map[];
    }

    /** `get_or_load` for a path that is in memory. On a miss the caller suspends until the load has ended. */
    method Acquire(path: string) returns (hit: bool)
      requires cache == refCounts.Keys
      modifies this
      ensures hit <==> path in old(cache)
      ensures cache == old(cache)
      ensures refCounts == if hit then old(refCounts[path := Total(refCounts, path) + 1]) else old(refCounts)
    {
      hit := path in cache;
      if hit { refCounts := refCounts[path := refCounts[path] + 1]; }
    }

    /** The end of a successful load. */
    method Store(path: string)
      modifies this
      ensures cache == old(cache) + {path} && refCounts == old(refCounts)[path := 1]
    {
      cache := cache + {path};
      refCounts := refCounts[path := 1];
    }

    method Release(path: string)
      modifies this
      ensures refCounts == ReleaseAll(old(refCounts), multiset{path})
      ensures cache == old(cache) - (old(refCounts).Keys - refCounts.Keys)
    {
      if path !in refCounts { return; }
      var count: int := refCounts[path];
      count := count - 1;
      if count <= 0 {
        cache := cache - {path};
        refCounts := refCounts - {path};
        assert old(refCounts).Keys - refCounts.Keys == {path};
      } else {
        refCounts := refCounts[path := count];
      }
    }
  }

  class ProcessorManager {
    var configConfigs: map<Key, Config>
    var dynamicConfigs: map<Key, Config>
    var processorCache: seq<Entry>
    var lastAccessTime: map<Key, nat>
    const cacheMaxSize: nat
    const idleTimeout: nat
    const tokenizerCache: TokenizerCache
    var monotonic: nat
    // the load lock: its holder, if that is suspended, and the coroutines that wait for it
    var lock: Lock
    var waiting: seq<Entry>
    ghost var registering: multiset<Key>
    ghost var leaked: multiset<string>

    constructor (max: nat, timeout: nat, now: nat)
      ensures View() == Start(max, timeout, now) && fresh(tokenizerCache)
    {
      configConfigs, dynamicConfigs, processorCache, lastAccessTime := map[], map[], [], map[];
      cacheMaxSize, idleTimeout, monotonic := max, timeout, now;
      lock, waiting, registering, leaked := Free, [], multiset{}, multiset{};
      tokenizerCache := new TokenizerCache();
    }

    ghost function View(): Manager
      reads this, tokenizerCache
    {
      Manager(configConfigs, dynamicConfigs, processorCache, lastAccessTime, cacheMaxSize, idleTimeout, monotonic,
              tokenizerCache.refCounts, tokenizerCache.cache, lock, waiting, registering, leaked)
    }

    method Lookup(key: Key) returns (config: Option<Config>)
      ensures config == Current(View(), key)
    {
      if key in configConfigs {
        config := Some(configConfigs[key]);
      } else if key in dynamicConfigs {
        config := Some(dynamicConfigs[key]);
      } else {
        config := None;
      }
    }

    method ReleaseProcessor(config: Config)
      modifies tokenizerCache
      ensures tokenizerCache.refCounts == ReleaseAll(old(tokenizerCache.refCounts), Held(config))
      ensures tokenizerCache.cache == old(tokenizerCache.cache) - (old(tokenizerCache.refCounts).Keys - tokenizerCache.refCounts.Keys)
    {
      ReleaseNone(tokenizerCache.refCounts);
      if HasPath(config) && config.tito { tokenizerCache.Release(config.path.value); }
    }

    method MarkUsed(key: Key)
      modifies this`processorCache, this`lastAccessTime
      ensures View() == Touch(old(View()), key)
    {
      if key in KeysOf(processorCache) {
        processorCache := Select(processorCache, {key}, false) + Select(processorCache, {key}, true);
        lastAccessTime := lastAccessTime[key := monotonic];
      }
    }

    /** `_last_access_time.pop`, `_processor_cache.pop` and the release of what was removed. */
    method Discard(key: Key)
      requires DistinctKeys(processorCache)
      modifies this`processorCache, this`lastAccessTime, tokenizerCache
      ensures View() == Drop(old(View()), {key}) && DistinctKeys(processorCache)
    {
      hide Select, PathsOf, DistinctKeys, ReleaseAll, Uses, HasPath;
      Popped(processorCache, key);
      SelectDistinct(processorCache, {key}, false);
      ReleaseNone(tokenizerCache.refCounts);
      var removed := Select(processorCache, {key}, true);
      lastAccessTime := lastAccessTime - {key};
      processorCache := Select(processorCache, {key}, false);
      if removed != [] { ReleaseProcessor(removed[0].config); }
    }

    /** `while len(cache) >= max: evict_one`. */
    method MakeRoom()
      requires DistinctKeys(processorCache) && 1 <= cacheMaxSize
      modifies this`processorCache, this`lastAccessTime, tokenizerCache
      ensures View() == EvictDown(old(View())) && DistinctKeys(processorCache)
    {
      hide Select, DistinctKeys, Drop, PathsOf;
      while |processorCache| >= cacheMaxSize
        invariant EvictDown(View()) == EvictDown(old(View())) && DistinctKeys(processorCache)
        decreases |processorCache|
      {
        var victim := processorCache[0].key;
        SelectSize(processorCache, victim);
        VictimKey(processorCache);
        DropCache(View(), {victim});
        Discard(victim);
      }
    }

    /** The processor is built: the second look at the configuration. */
    method Cache(key: Key, config: Config, built: bool)
      modifies this`processorCache, this`lastAccessTime, this`leaked, tokenizerCache
      ensures View() == Admit(old(View()), key, config, built)
    {
      hide Uses, ReleaseAll;
      ReleaseNone(tokenizerCache.refCounts);
      if !built {
        leaked := leaked + Held(config);
        assert old(leaked) + multiset{} == old(leaked);
        return;
      }
      var current := Lookup(key);
      if current == Some(config) {
        processorCache := processorCache + [Entry(key, config)];
        lastAccessTime := lastAccessTime[key := monotonic];
      } else {
        ReleaseProcessor(config);
      }
    }

    /** `_load_processor` from the moment it holds the lock. */
    method LoadUnderLock(key: Key, config: Config, built: bool)
      requires Inv(View())
      modifies this`processorCache, this`lastAccessTime, this`leaked, this`lock, tokenizerCache
      ensures View() == Enter(old(View()), key, config, built)
    {
      hide Inv, EvictDown, Admit, Select, DistinctKeys, KeysOf, PathsOf;
      InvFacts(View());
      if key in KeysOf(processorCache) {
        MarkUsed(key);
        return;
      }
      EvictDownKeeps(View());
      MakeRoom();
      LoadedKeys(View());
      if config.tito && !HasPath(config) { return; }
      if Uses(config) {
        var hit := tokenizerCache.Acquire(config.path.value);
        if !hit {
          lock := Loading(key, config);
          return;
        }
      }
      Cache(key, config, built);
    }

    /** `get_processor_async` up to its first suspension. */
    method GetProcessor(key: Key, built: bool)
      requires Inv(View())
      modifies this`processorCache, this`lastAccessTime, this`leaked, this`lock, this`waiting, tokenizerCache
      ensures View() == OnLoad(old(View()), key, built)
    {
      hide Inv, Enter, Select, KeysOf, PathsOf;
      if key in KeysOf(processorCache) {
        MarkUsed(key);
        return;
      }
      var config := Lookup(key);
      if config == None { return; }
      if lock.Free? {
        LoadUnderLock(key, config.value, built);
      } else {
        waiting := waiting + [Entry(key, config.value)];
      }
    }

    /** The tokenizer load of the lock holder has ended. */
    method TokenizerArrived(key: Key, config: Config, result: LoadResult)
      requires lock == Loading(key, config) && Uses(config)
      modifies this`processorCache, this`lastAccessTime, this`leaked, this`lock, tokenizerCache
      ensures View() == OnTokenizerLoaded(old(View()), result)
    {
      hide Admit;
      lock := Free;
      if result.LoadFailed? { return; }
      tokenizerCache.Store(config.path.value);
      Cache(key, config, result.Constructed?);
    }

    /** Registration; `accepted` is false for the ValueError. */
    method RegisterStaticProcessor(key: Key, config: Config) returns (accepted: bool)
      modifies this`configConfigs
      ensures View() == Step(old(View()), RegisterStatic(key, config))
      ensures accepted <==> old(Current(View(), key)) == None && !(config.tito && !HasPath(config))
    {
      if key in configConfigs || key in dynamicConfigs { return false; }
      if config.tito && !HasPath(config) { return false; }
      configConfigs := configConfigs[key := config];
      return true;
    }

    method RegisterDynamicProcessor(key: Key, config: Config, persist: bool) returns (accepted: bool)
      modifies this`dynamicConfigs, this`registering
      ensures View() == Step(old(View()), RegisterDynamic(key, config, persist))
      ensures accepted <==> old(Current(View(), key)) == None && !(config.tito && !HasPath(config))
    {
      if key in configConfigs || key in dynamicConfigs { return false; }
      if config.tito && !HasPath(config) { return false; }
      dynamicConfigs := dynamicConfigs[key := config];
      registering := registering + if persist then multiset{key} else multiset{};
      return true;
    }

    /** The database refused a registration: the roll-back. `undone` is false if `del` raised a KeyError. */
    method RollBack(key: Key) returns (undone: bool)
      requires Inv(View()) && key in registering
      modifies this`dynamicConfigs, this`registering, this`processorCache, this`lastAccessTime, tokenizerCache
      ensures View() == Step(old(View()), RegisterFailed(key))
      ensures undone <==> key in old(dynamicConfigs)
    {
      hide Inv, Drop, Select;
      InvFacts(View());
      registering := registering - multiset{key};
      undone := key in dynamicConfigs;
      if undone {
        dynamicConfigs := dynamicConfigs - {key};
        Discard(key);
      }
    }

    method UnregisterDynamicProcessor(key: Key) returns (deleted: bool)
      requires Inv(View())
      modifies this`dynamicConfigs, this`processorCache, this`lastAccessTime, tokenizerCache
      ensures View() == Step(old(View()), UnregisterDynamic(key))
      ensures deleted <==> key in old(dynamicConfigs)
    {
      hide Inv, Drop, Select;
      InvFacts(View());
      deleted := key in dynamicConfigs;
      if deleted {
        dynamicConfigs := dynamicConfigs - {key};
        Discard(key);
      }
    }

    method StoreConfig(key: Key, config: Config)
      modifies this`dynamicConfigs
      ensures View() == Step(old(View()), RegisterFromConfig(key, config))
    {
      dynamicConfigs := dynamicConfigs[key := config];
    }

    method RemoveByKey(key: Key)
      requires Inv(View())
      modifies this`dynamicConfigs, this`processorCache, this`lastAccessTime, tokenizerCache
      ensures View() == Step(old(View()), UnregisterByKey(key))
    {
      hide Inv, Drop, Select;
      InvFacts(View());
      dynamicConfigs := dynamicConfigs - {key};
      Discard(key);
    }

    method SyncModel(model: Entry)
      requires DistinctKeys(processorCache)
      modifies this`dynamicConfigs, this`processorCache, this`lastAccessTime, tokenizerCache
      ensures View() == SyncOne(old(View()), model) && DistinctKeys(processorCache)
    {
      hide Drop, DistinctKeys, Select;
      if model.key !in dynamicConfigs {
        dynamicConfigs := dynamicConfigs[model.key := model.config];
      } else if !SameContent(dynamicConfigs[model.key], model.config) {
        dynamicConfigs := dynamicConfigs[model.key := model.config];
        Discard(model.key);
      }
    }

    method SyncModels(models: seq<Entry>)
      requires Inv(View())
      modifies this`dynamicConfigs, this`processorCache, this`lastAccessTime, tokenizerCache
      ensures View() == OnFullSync(old(View()), models)
    {
      hide Inv, Drop, DistinctKeys, Select, KeysOf, SyncOne;
      InvFacts(View());
      var toRemove := dynamicConfigs.Keys - KeysOf(models);
      for i := 0 to |models|
        invariant SyncAll(View(), models[i..]) == SyncAll(old(View()), models)
        invariant DistinctKeys(processorCache)
      {
        assert models[i..][0] == models[i] && models[i..][1..] == models[i + 1..];
        SyncModel(models[i]);
      }
      DiscardModels(toRemove);
    }

    method DiscardModels(keys: set<Key>)
      requires DistinctKeys(processorCache)
      modifies this`dynamicConfigs, this`processorCache, this`lastAccessTime, tokenizerCache
      ensures View() == Drop(old(View()).(dynamic := old(View()).dynamic - keys), keys)
    {
      hide Drop, DistinctKeys, Select;
      ghost var m := View();
      var rest := keys;
      assert keys - rest == {} && m.dynamic - {} == m.dynamic;
      DropNothing(m);
      while rest != {}
        invariant rest <= keys && DistinctKeys(processorCache)
        invariant View() == Drop(m.(dynamic := m.dynamic - (keys - rest)), keys - rest)
      {
        var key :| key in rest;
        ghost var gone := keys - rest;
        DropFrame(m.(dynamic := m.dynamic - gone), gone, m.dynamic - (gone + {key}));
        DropTwice(m.(dynamic := m.dynamic - (gone + {key})), gone, {key});
        dynamicConfigs := dynamicConfigs - {key};
        assert (m.dynamic - gone) - {key} == m.dynamic - (gone + {key});
        Discard(key);
        rest := rest - {key};
        assert keys - rest == gone + {key};
        assert View() == Drop(m.(dynamic := m.dynamic - (gone + {key})), gone + {key});
      }
      assert keys - rest == keys;
    }

    method EvictIdleProcessors()
      requires Inv(View())
      modifies this`processorCache, this`lastAccessTime, tokenizerCache
      ensures View() == Step(old(View()), EvictIdle)
    {
      hide Inv, Drop, DistinctKeys, Select;
      InvFacts(View());
      ghost var m := View();
      var keysToEvict := set key | key in lastAccessTime && monotonic - lastAccessTime[key] > idleTimeout;
      var rest := keysToEvict;
      assert keysToEvict - rest == {};
      DropNothing(m);
      while rest != {}
        invariant rest <= keysToEvict && DistinctKeys(processorCache)
        invariant View() == Drop(m, keysToEvict - rest)
      {
        var key :| key in rest;
        DropTwice(m, keysToEvict - rest, {key});
        assert keysToEvict - (rest - {key}) == keysToEvict - rest + {key};
        Discard(key);
        rest := rest - {key};
      }
      assert keysToEvict - rest == keysToEvict;
    }

    method ClearCache()
      requires Inv(View())
      modifies this`processorCache, this`lastAccessTime, tokenizerCache
      ensures View() == Step(old(View()), Clear)
    {
      hide Inv, Select, PathsOf, ReleaseAll, KeysOf, Uses;
      ghost var m := View();
      ReleaseNone(m.refs);
      EmptyPaths();
      for i := 0 to |processorCache|
        invariant processorCache == m.cache && lastAccessTime == m.lastAccess
        invariant tokenizerCache.refCounts == ReleaseAll(m.refs, PathsOf(m.cache[..i]))
        invariant tokenizerCache.cache == m.loaded - (m.refs.Keys - tokenizerCache.refCounts.Keys)
      {
        assert m.cache[..i + 1] == m.cache[..i] + [m.cache[i]];
        PathsAppend(m.cache[..i], [m.cache[i]]);
        SinglePath(m.cache[i]);
        ReleaseTwice(m.refs, PathsOf(m.cache[..i]), Held(m.cache[i].config));
        FewerRefs(m.refs, PathsOf(m.cache[..i]));
        FewerRefs(tokenizerCache.refCounts, Held(m.cache[i].config));
        ReleaseProcessor(processorCache[i].config);
      }
      assert m.cache[..|m.cache|] == m.cache;
      SelectAll(m.cache, KeysOf(m.cache));
      ClearedTimes(m);
      processorCache, lastAccessTime := [], map[];
    }
  }

  lemma InvFacts(m: Manager)
    requires Inv(m)
    ensures DistinctKeys(m.cache) && 1 <= m.max
  {}

  lemma VictimKey(es: seq<Entry>)
    requires es != []
    ensures es[0].key in KeysOf(es)
  {
    assert es[0] in es;
  }

  lemma DropCache(m: Manager, ks: set<Key>)
    ensures Drop(m, ks).cache == Select(m.cache, ks, false) && Drop(m, ks).max == m.max
  {}

  /** What leaves the cache does not depend on the configurations. */
  lemma DropFrame(m: Manager, ks: set<Key>, dynamic: map<Key, Config>)
    ensures Drop(m.(dynamic := dynamic), ks) == Drop(m, ks).(dynamic := dynamic)
    ensures Drop(m, ks).dynamic == m.dynamic
  {}

  lemma EmptyPaths()
    ensures PathsOf([]) == multiset{}
  {}

  lemma ClearedTimes(m: Manager)
    requires Inv(m)
    ensures m.lastAccess - KeysOf(m.cache) == map[]
  {}
}
