/** What a request for a processor leads to, from every reachable state of the processor cache: a finished load is in
    the cache, processors leave it for a named reason only, and a registration takes effect. */
module ProcessorLoads {
  import opened Text
  import opened ProcessorCache

  /** The processors that stay when room is made for one more: all of them, or all but the least recently used. */
  function Room(m: Manager): seq<Entry> {
    if |m.cache| < m.max || m.cache == [] then m.cache else m.cache[1..]
  }

  /** No processor of this configuration can be built: it works on tokens and names no tokenizer. */
  predicate Invalid(c: Config) {
    c.tito && (c.path == None || c.path == Some(""))
  }

  /** Nothing has to be waited for: the processor needs no tokenizer, or one that stays in memory when room is made. */
  ghost predicate AtHand(m: Manager, c: Config) {
    Uses(c) ==> c.path.value in PathsOf(Room(m)) || c.path.value in m.leaked
  }

  /** The configuration a request for `key` would load after the event, before the cache is looked at. */
  function Wanted(m: Manager, e: Event, key: Key): Option<Config> {
    match e
    case FallbackReply(k, config, _) => if key == k && key !in m.configs then Some(config) else Current(m, key)
    case _ => Current(m, key)
  }

  /** The event takes the load lock for the load `x`, whose processor is not cached. */
  ghost predicate Takes(m: Manager, e: Event, x: Entry) {
    && m.lock.Free? && x.key !in KeysOf(m.cache)
    && match e
       case Load(key, _) => key == x.key && Current(m, key) == Some(x.config)
       case FallbackReply(key, _, _) => key == x.key && Wanted(m, e, key) == Some(x.config)
       case Resume(i, _) => i < |m.waiting| && m.waiting[i] == x
       case _ => false
  }

  /** The constructor of the processor returns. */
  predicate Builds(e: Event) {
    match e
    case Load(_, built) => built
    case Resume(_, built) => built
    case FallbackReply(_, _, built) => built
    case TokenizerLoaded(result) => result.Constructed?
    case _ => false
  }

  /** With this event the load `x` has its processor. */
  ghost predicate Finishes(m: Manager, e: Event, x: Entry) {
    && Builds(e)
    && if e.TokenizerLoaded? then m.lock == Loading(x.key, x.config)
       else Takes(m, e, x) && !Invalid(x.config) && AtHand(m, x.config)
  }

  // ---- making room ----

  /** Room is made by one eviction at most, and only in a full cache. */
  lemma RoomIsMade(m: Manager)
    requires Inv(m)
    ensures var m' := EvictDown(m);
            && m'.cache == Room(m) && |Room(m)| < m.max && Inv(m') && SameTables(m, m')
            && m'.waiting == m.waiting && m'.lastAccess.Keys == KeysOf(Room(m))
            && (forall k | k in m'.lastAccess :: k in m.lastAccess && m'.lastAccess[k] == m.lastAccess[k])
  {
    hide KeysOf, PathsOf, Select, LruSorted, Uses, Accounts, DistinctKeys, ReleaseAll;
    EvictDownKeeps(m);
    if |m.cache| >= m.max {
      VictimIsOldest(m);
      EvictOneKeeps(m);
      assert EvictDown(m) == EvictOne(m);
    }
  }

  lemma LoadedMeansUsed(m: Manager, p: string)
    requires Inv(m)
    ensures p in m.loaded <==> p in PathsOf(m.cache) || p in m.leaked
  {
    hide PathsOf, LruOk, Backed, LockOk;
    assert Total(m.refs, p) == PathsOf(m.cache)[p] + m.leaked[p];
  }

  // ---- one load under the lock ----

  /** A load that ends with a processor inserts it at the recent end, unless the configuration changed meanwhile. */
  lemma AdmitInserts(m: Manager, key: Key, config: Config, built: bool)
    ensures var m' := Admit(m, key, config, built);
            && m'.lock == m.lock && m'.waiting == m.waiting && m'.clock == m.clock
            && if built && Current(m, key) == Some(config)
               then m'.cache == m.cache + [Entry(key, config)] && m'.lastAccess == m.lastAccess[key := m.clock]
               else m'.cache == m.cache && m'.lastAccess == m.lastAccess
  {
    hide ReleaseAll, Uses, Current;
  }

  /** `_load_processor` under the lock, for a model that is not cached. */
  lemma EnterLoads(m: Manager, key: Key, config: Config, built: bool)
    requires Inv(m) && m.lock.Free? && key !in KeysOf(m.cache)
    ensures var m' := Enter(m, key, config, built);
            && m'.waiting == m.waiting
            && (forall k | k in KeysOf(Room(m)) :: k in m.lastAccess && k in m'.lastAccess && m'.lastAccess[k] == m.lastAccess[k])
            && if !Invalid(config) && !AtHand(m, config) then m'.lock == Loading(key, config) && m'.cache == Room(m)
               else if !Invalid(config) && built && Current(m, key) == Some(config)
               then m'.lock.Free? && m'.cache == Room(m) + [Entry(key, config)] && key in m'.lastAccess && m'.lastAccess[key] == m.clock
               else m'.lock.Free? && m'.cache == Room(m)
  {
    hide KeysOf, PathsOf, EvictDown, Admit, Inv, Current, Room, Total;
    RoomIsMade(m);
    var m1 := EvictDown(m);
    FewerKeys(m, m1);
    SameCurrent(m, m1, key);
    if Uses(config) {
      var p := config.path.value;
      LoadedMeansUsed(m1, p);
      var m2 := m1.(refs := m1.refs[p := Total(m1.refs, p) + 1]);
      SameCurrent(m1, m2, key);
      AdmitInserts(m2, key, config, built);
    } else {
      AdmitInserts(m1, key, config, built);
    }
  }

  // ---- what one request leads to ----

  /** The load that finishes was made for the model that is current, or for one that changed since. */
  ghost predicate UpToDate(m: Manager, x: Entry) {
    Current(m, x.key) == Some(x.config)
  }

  /** Taking the lock leads to one of four ends: a cached processor, a tokenizer to wait for, a processor that is thrown
      away because its configuration changed, or none at all. */
  lemma TakingTheLock(m: Manager, e: Event, x: Entry)
    requires Inv(m) && Enabled(m, e) && Takes(m, e, x)
    ensures var m' := Step(m, e);
            && (forall k | k in KeysOf(Room(m)) :: k in m.lastAccess && k in m'.lastAccess && m'.lastAccess[k] == m.lastAccess[k])
            && if !Invalid(x.config) && !AtHand(m, x.config) then m'.lock == Loading(x.key, x.config) && m'.cache == Room(m)
               else if Finishes(m, e, x) && UpToDate(m', x)
               then m'.lock.Free? && m'.cache == Room(m) + [x] && x.key in m'.lastAccess && m'.lastAccess[x.key] == m.clock
               else m'.lock.Free? && m'.cache == Room(m)
  {
    hide Inv, KeysOf, Enter, Uses, Invalid, AtHand;
    match e
    case Load(key, built) =>
      EnterLoads(m, key, x.config, built);
      EnterTables(m, key, x.config, built);
    case Resume(i, built) =>
      var m1 := m.(waiting := m.waiting[..i] + m.waiting[i + 1..]);
      MoreConfigsKeep(m, m1);
      SameRoom(m, m1, x.config);
      EnterLoads(m1, x.key, x.config, built);
      EnterTables(m1, x.key, x.config, built);
    case FallbackReply(key, config, built) =>
      var m1 := m.(dynamic := m.dynamic[key := config]);
      MoreConfigsKeep(m, m1);
      SameRoom(m, m1, x.config);
      EnterLoads(m1, key, x.config, built);
      EnterTables(m1, key, x.config, built);
    case _ =>
  }

  lemma SameRoom(m: Manager, m1: Manager, c: Config)
    requires m1.cache == m.cache && m1.max == m.max && m1.leaked == m.leaked
    ensures Room(m1) == Room(m) && AtHand(m1, c) == AtHand(m, c)
  {
    hide PathsOf, Uses;
  }

  /** From every reachable state, the call that finishes the load of a model whose configuration is still the same
      leaves its processor at the recent end of the cache, accessed now. Beside it stay all other processors, or all but
      the least recently used if the cache was full. If the configuration changed meanwhile, the processor is not
      cached. */
  lemma FinishedLoadIsCached(m: Manager, e: Event, x: Entry)
    requires Inv(m) && Enabled(m, e) && Finishes(m, e, x)
    ensures var m' := Step(m, e);
            && m'.lock.Free?
            && m'.cache == (if UpToDate(m', x) then Room(m) + [x] else Room(m))
            && (UpToDate(m', x) ==> x.key in m'.lastAccess && m'.lastAccess[x.key] == m.clock)
  {
    hide Inv, KeysOf, Takes, AtHand, Invalid, Admit, OnLoad, Enter, Current;
    if e.TokenizerLoaded? {
      RoomForOne(m);
      var p := x.config.path.value;
      var m1 := m.(lock := Free, loaded := m.loaded + {p}, refs := m.refs[p := 1]);
      AdmitInserts(m1, x.key, x.config, true);
      AdmitTables(m1, x.key, x.config, true);
      SameCurrent(m, m1, x.key);
      SameCurrent(m, Step(m, e), x.key);
    } else {
      TakingTheLock(m, e, x);
    }
  }

  /** The same over every run from the start. */
  lemma LoadsAreCached(max: nat, timeout: nat, clock: nat, es: seq<Event>, e: Event, x: Entry)
    requires 1 <= max && ValidRun(Start(max, timeout, clock), es)
    requires var m := Exec(Start(max, timeout, clock), es); Enabled(m, e) && Finishes(m, e, x) && UpToDate(Step(m, e), x)
    ensures var m := Exec(Start(max, timeout, clock), es);
            && Step(m, e).cache == Room(m) + [x] && x.key in Step(m, e).lastAccess && Step(m, e).lastAccess[x.key] == m.clock
  {
    hide Start, ValidRun, Exec, Finishes, Step, Enabled, UpToDate, Room, Inv;
    StartInv(max, timeout, clock);
    ExecKeepsInv(Start(max, timeout, clock), es);
    FinishedLoadIsCached(Exec(Start(max, timeout, clock), es), e, x);
  }

  lemma RoomForOne(m: Manager)
    requires Inv(m) && m.lock.Loading?
    ensures Room(m) == m.cache
  {
    hide LruOk, AccountsOk, Backed, KeysOf, Uses;
  }

  /** A load whose tokenizer is not in memory keeps the lock until it arrives. */
  lemma LoadAwaitsTokenizer(m: Manager, e: Event, x: Entry)
    requires Inv(m) && Enabled(m, e) && Takes(m, e, x) && !Invalid(x.config) && !AtHand(m, x.config)
    ensures var m' := Step(m, e);
            && m'.lock == Loading(x.key, x.config) && m'.cache == Room(m)
            && forall r :: Enabled(m', TokenizerLoaded(r)) && Step(m', TokenizerLoaded(r)).lock.Free?
  {
    hide Inv, KeysOf, AtHand, Takes, OnLoad, Enter, Step;
    TakingTheLock(m, e, x);
    StepKeepsInv(m, e);
    NeverStuck(Step(m, e));
  }

  /** No load waits for ever: while the lock is held an answer for its tokenizer frees it, and while it is free every
      waiting load can take it. */
  lemma NeverStuck(m: Manager)
    requires Inv(m)
    ensures m.lock.Loading? ==> forall r :: Enabled(m, TokenizerLoaded(r)) && Step(m, TokenizerLoaded(r)).lock.Free?
    ensures m.lock.Free? ==> forall i, built | 0 <= i < |m.waiting| :: Enabled(m, Resume(i, built))
  {
    hide LruOk, AccountsOk, Backed, KeysOf, Admit;
    if m.lock.Loading? {
      forall r ensures Enabled(m, TokenizerLoaded(r)) && Step(m, TokenizerLoaded(r)).lock.Free? {
        var p := m.lock.config.path.value;
        AdmitInserts(m.(lock := Free, loaded := m.loaded + {p}, refs := m.refs[p := 1]), m.lock.key, m.lock.config, r.Constructed?);
      }
    }
  }

  /** A request for a model that is neither cached nor loadable at once waits behind the load in progress, with the
      configuration it has read. */
  lemma LoadIsQueued(m: Manager, key: Key, built: bool)
    requires Inv(m) && m.lock.Loading? && key !in KeysOf(m.cache) && Current(m, key).Some?
    ensures Step(m, Load(key, built)) == m.(waiting := m.waiting + [Entry(key, Current(m, key).value)])
  {
    hide Inv, KeysOf;
  }

  /** The model the event asks for. */
  predicate AsksFor(m: Manager, e: Event, key: Key) {
    match e
    case Load(k, _) => k == key
    case FallbackReply(k, _, _) => k == key
    case Resume(i, _) => i < |m.waiting| && m.waiting[i].key == key
    case _ => false
  }

  /** A request for a cached model moves its processor to the recent end, accessed now, and nothing else in the cache. */
  lemma HitIsTouched(m: Manager, e: Event, x: Entry)
    requires Inv(m) && Enabled(m, e) && x in m.cache && AsksFor(m, e, x.key)
    ensures var m' := Step(m, e);
            && (exists i | 0 <= i < |m.cache| :: m.cache[i] == x && m'.cache == m.cache[..i] + m.cache[i + 1..] + [x])
            && m'.lastAccess == m.lastAccess[x.key := m.clock]
            && m'.lock == m.lock && m'.refs == m.refs && m'.loaded == m.loaded
  {
    hide Inv, Touch, Select, KeysOf;
    CachedKey(m, x);
    var i := TouchMoves(m, x);
    assert m.cache[i] == x;
    match e
    case Load(key, built) =>
    case Resume(j, built) =>
      var m1 := m.(waiting := m.waiting[..j] + m.waiting[j + 1..]);
      SameTouch(m, m1, x.key);
    case FallbackReply(key, config, built) =>
      var m1 := m.(dynamic := m.dynamic[key := config]);
      SameTouch(m, m1, x.key);
    case _ =>
  }

  lemma CachedKey(m: Manager, x: Entry)
    requires x in m.cache
    ensures x.key in KeysOf(m.cache)
  {}

  lemma SameTouch(m: Manager, m1: Manager, key: Key)
    requires m1.cache == m.cache && m1.lastAccess == m.lastAccess && m1.clock == m.clock
    ensures Touch(m1, key).cache == Touch(m, key).cache && Touch(m1, key).lastAccess == Touch(m, key).lastAccess
    ensures Touch(m1, key).lock == m1.lock && Touch(m1, key).refs == m1.refs && Touch(m1, key).loaded == m1.loaded
  {
    hide Select, KeysOf;
  }

  lemma TouchMoves(m: Manager, x: Entry) returns (i: nat)
    requires Inv(m) && x in m.cache
    ensures i < |m.cache| && m.cache[i] == x
    ensures Touch(m, x.key).cache == m.cache[..i] + m.cache[i + 1..] + [x]
    ensures Touch(m, x.key).lastAccess == m.lastAccess[x.key := m.clock]
    ensures Touch(m, x.key).lock == m.lock && Touch(m, x.key).refs == m.refs && Touch(m, x.key).loaded == m.loaded
  {
    hide KeysOf, PathsOf, Select, LruSorted, Uses, Accounts, DistinctKeys;
    CachedKey(m, x);
    OneSelected(m.cache, x);
    i := OthersOf(m.cache, x);
  }

  lemma {:induction false} OthersOf(es: seq<Entry>, x: Entry) returns (i: nat)
    requires DistinctKeys(es) && x in es
    ensures i < |es| && es[i] == x && Select(es, {x.key}, false) == es[..i] + es[i + 1..]
  {
    if es[0] == x {
      i := 0;
      NoneSelected(es[1..], x.key);
    } else {
      assert x in es[1..] && es[0].key != x.key;
      var j := OthersOf(es[1..], x);
      i := j + 1;
      assert es[..i] == [es[0]] + es[1..][..j] && es[i + 1..] == es[1..][j + 1..];
    }
  }

  // ---- why a processor leaves the cache ----

  /** The reason for which `x` leaves the cache. */
  ghost predicate Leaves(m: Manager, e: Event, x: Entry) {
    match e
    case Load(_, _) => Displaced(m, e, x)
    case Resume(_, _) => Displaced(m, e, x)
    case FallbackReply(_, _, _) => Displaced(m, e, x)
    case RegisterFailed(key) => x.key == key && key in m.dynamic
    case UnregisterDynamic(key) => x.key == key && key in m.dynamic
    case UnregisterByKey(key) => x.key == key
    case FullSync(models) => x.key in m.dynamic && forall y | y in models && y.key == x.key :: !SameContent(m.dynamic[x.key], y.config)
    case EvictIdle => x.key in m.lastAccess && m.clock - m.lastAccess[x.key] > m.timeout
    case Clear => true
    case _ => false
  }

  /** A load takes the lock, the cache is full, and `x` is the least recently used. */
  ghost predicate Displaced(m: Manager, e: Event, x: Entry) {
    |m.cache| == m.max && m.cache != [] && x == m.cache[0] && exists y :: Takes(m, e, y)
  }

  lemma DropLeaves(m: Manager, ks: set<Key>, x: Entry)
    requires x in m.cache
    ensures x !in Drop(m, ks).cache <==> x.key in ks
  {
    hide Select, PathsOf, ReleaseAll;
    Selected(m.cache, ks, false);
  }

  lemma RoomLeaves(m: Manager, x: Entry)
    requires Inv(m) && x in m.cache
    ensures x !in Room(m) <==> |m.cache| == m.max && x == m.cache[0]
  {
    hide AccountsOk, Backed, LruSorted;
    if |m.cache| == m.max {
      assert m.cache == [m.cache[0]] + m.cache[1..];
      assert forall y | y in m.cache[1..] :: y.key in KeysOf(m.cache[1..]);
    }
  }

  lemma LoadLeaves(m: Manager, e: Event, x: Entry)
    requires Inv(m) && Enabled(m, e) && x in m.cache && (e.Load? || e.Resume? || e.FallbackReply?)
    ensures x !in Step(m, e).cache <==> Displaced(m, e, x)
  {
    hide Inv, KeysOf, Takes, Step, Enabled, AtHand;
    if y :| Takes(m, e, y) {
      TakingTheLock(m, e, y);
      RoomLeaves(m, x);
      assert x != y by { TakesNew(m, e, y); CachedKey(m, x); }
    } else {
      NothingTaken(m, e);
    }
  }

  lemma TakesNew(m: Manager, e: Event, y: Entry)
    requires Takes(m, e, y)
    ensures y.key !in KeysOf(m.cache)
  {}

  /** A request that does not take the lock leaves the same processors in the cache. */
  lemma NothingTaken(m: Manager, e: Event)
    requires Inv(m) && Enabled(m, e) && (e.Load? || e.Resume? || e.FallbackReply?)
    requires forall y :: !Takes(m, e, y)
    ensures forall x :: x in Step(m, e).cache <==> x in m.cache
  {
    hide Inv, KeysOf, Touch, Enter, HasPath, Drop;
    match e
    case Load(key, built) =>
      TouchKeeps(m, key);
      if Current(m, key).Some? { assert !Takes(m, e, Entry(key, Current(m, key).value)); }
    case Resume(i, built) =>
      var m1 := m.(waiting := m.waiting[..i] + m.waiting[i + 1..]);
      MoreConfigsKeep(m, m1);
      TouchKeeps(m1, m.waiting[i].key);
      assert !Takes(m, e, m.waiting[i]);
      assert m.waiting[i].key in KeysOf(m.cache);
      EnterHit(m1, m.waiting[i].key, m.waiting[i].config, built);
    case FallbackReply(key, config, built) =>
      var m1 := m.(dynamic := m.dynamic[key := config]);
      MoreConfigsKeep(m, m1);
      TouchKeeps(m1, key);
      assert !Takes(m, e, Entry(key, Current(m1, key).value));
    case _ =>
  }

  lemma EnterHit(m: Manager, key: Key, config: Config, built: bool)
    requires key in KeysOf(m.cache)
    ensures Enter(m, key, config, built) == Touch(m, key)
  {
    hide Touch, KeysOf, Admit, EvictDown;
  }

  /** From every reachable state and for every event: a cached processor leaves the cache exactly for a reason. It is
      the least recently used of a full cache while a load takes the lock; or its model is unregistered, rolled back, or
      changed or gone in a full synchronisation; or it has been idle for too long; or the cache is cleared. */
  lemma LeavesOnlyFor(m: Manager, e: Event, x: Entry)
    requires Inv(m) && Enabled(m, e) && x in m.cache && (e.FullSync? ==> DistinctKeys(e.models))
    ensures x !in Step(m, e).cache <==> Leaves(m, e, x)
  {
    hide Inv, KeysOf, OnLoad, Enter, OnTokenizerLoaded, OnFullSync, Drop, HasPath, Displaced, SameContent, DistinctKeys;
    match e
    case Load(key, built) => LoadLeaves(m, e, x);
    case Resume(i, built) => LoadLeaves(m, e, x);
    case FallbackReply(key, config, built) => LoadLeaves(m, e, x);
    case TokenizerLoaded(result) => LoadedLeaves(m, result, x);
    case RegisterFailed(key) =>
      DropLeaves(m.(registering := m.registering - multiset{key}, dynamic := m.dynamic - {key}), {key}, x);
    case UnregisterDynamic(key) => DropLeaves(m.(dynamic := m.dynamic - {key}), {key}, x);
    case UnregisterByKey(key) => DropLeaves(m.(dynamic := m.dynamic - {key}), {key}, x);
    case FullSync(models) => SyncLeaves(m, models, x);
    case EvictIdle => DropLeaves(m, Idle(m), x);
    case Clear =>
      DropLeaves(m, KeysOf(m.cache), x);
      CachedKey(m, x);
    case _ =>
  }

  lemma LoadedLeaves(m: Manager, result: LoadResult, x: Entry)
    requires Inv(m) && m.lock.Loading? && Uses(m.lock.config) && x in m.cache
    ensures x in OnTokenizerLoaded(m, result).cache
  {
    hide Admit, Inv;
    var p := m.lock.config.path.value;
    AdmitInserts(m.(lock := Free, loaded := m.loaded + {p}, refs := m.refs[p := 1]), m.lock.key, m.lock.config, result.Constructed?);
  }

  /** What a synchronisation does to the processor of one model. */
  lemma {:induction false} SyncAllLeaves(m: Manager, models: seq<Entry>, x: Entry)
    requires x in m.cache && DistinctKeys(models)
    ensures x !in SyncAll(m, models).cache <==>
              x.key in m.dynamic && exists y | y in models :: y.key == x.key && !SameContent(m.dynamic[x.key], y.config)
    decreases |models|
  {
    hide Drop, SameContent;
    if models != [] {
      var m1 := SyncOne(m, models[0]);
      DropLeaves(m.(dynamic := m.dynamic[models[0].key := models[0].config]), {models[0].key}, x);
      assert models == [models[0]] + models[1..];
      if x in m1.cache {
        SyncAllLeaves(m1, models[1..], x);
        if models[0].key == x.key {
          assert x.key !in KeysOf(models[1..]);
          assert forall y | y in models[1..] :: y.key != x.key;
        }
        SyncOneTables(m, models[0]);
      } else {
        assert models[0] in models;
        SyncAllShrinks(m1, models[1..]);
      }
    }
  }

  lemma {:induction false} SyncAllShrinks(m: Manager, models: seq<Entry>)
    ensures forall e | e in SyncAll(m, models).cache :: e in m.cache
    decreases |models|
  {
    hide Select, ReleaseAll, PathsOf, SameContent;
    if models != [] {
      Selected(m.cache, {models[0].key}, false);
      SyncAllShrinks(SyncOne(m, models[0]), models[1..]);
    }
  }

  lemma {:induction false} SyncAllDynamic(m: Manager, models: seq<Entry>)
    ensures SyncAll(m, models).dynamic.Keys == m.dynamic.Keys + KeysOf(models)
    decreases |models|
  {
    hide Drop, SameContent;
    if models != [] {
      SyncOneTables(m, models[0]);
      SyncAllDynamic(SyncOne(m, models[0]), models[1..]);
      HeadKeys(models);
    }
  }

  lemma SyncLeaves(m: Manager, models: seq<Entry>, x: Entry)
    requires x in m.cache && DistinctKeys(models)
    ensures x !in OnFullSync(m, models).cache <==> Leaves(m, FullSync(models), x)
  {
    hide SyncAll, Drop, SameContent, DistinctKeys, LruOk;
    InKeys(models);
    SyncAllDynamic(m, models);
    SyncAllLeaves(m, models, x);
    var m1, gone := SyncAll(m, models), m.dynamic.Keys - KeysOf(models);
    if x in m1.cache {
      DropLeaves(m1.(dynamic := m1.dynamic - gone), gone, x);
    } else {
      DropShrinks(m1.(dynamic := m1.dynamic - gone), gone);
    }
    forall y, z | y in models && z in models && y.key == x.key && z.key == x.key ensures y == z { OnePerKey(models, y, z); }
  }

  lemma DropShrinks(m: Manager, ks: set<Key>)
    ensures forall e | e in Drop(m, ks).cache :: e in m.cache
  {
    hide PathsOf, ReleaseAll;
    Selected(m.cache, ks, false);
  }

  lemma {:induction false} OnePerKey(es: seq<Entry>, y: Entry, z: Entry)
    requires DistinctKeys(es) && y in es && z in es && y.key == z.key
    ensures y == z
  {
    if y != es[0] && z != es[0] { OnePerKey(es[1..], y, z); }
  }

  /** From every reachable state: after a time longer than the timeout in which no processor is used, idle eviction empties
      the cache. */
  lemma UnusedAreEvicted(m: Manager, d: nat)
    requires Inv(m) && d > m.timeout
    ensures Step(Step(m, Tick(d)), EvictIdle).cache == []
  {
    hide Inv, KeysOf, LruSorted, DistinctKeys, Drop;
    var m1 := Step(m, Tick(d));
    StepKeepsInv(m, Tick(d));
    var m2 := Step(m1, EvictIdle);
    StepKeepsInv(m1, EvictIdle);
    forall x | x in m.cache ensures x !in m2.cache {
      AccessIsPast(m, x);
      LeavesOnlyFor(m1, EvictIdle, x);
    }
    DropShrinks(m1, Idle(m1));
    FirstIsIn(m2.cache);
  }

  lemma FirstIsIn(es: seq<Entry>)
    ensures es != [] ==> es[0] in es
  {}

  lemma AccessIsPast(m: Manager, x: Entry)
    requires Inv(m) && x in m.cache
    ensures x.key in m.lastAccess && m.lastAccess[x.key] <= m.clock
  {
    hide KeysOf, DistinctKeys, AccountsOk, Backed, LockOk;
    InOrder(m.cache, m.lastAccess, m.clock);
  }

  // ---- what a registration leads to ----

  /** The configuration of `key` after the event. */
  ghost predicate ConfiguredAs(m: Manager, e: Event, key: Key, now: Option<Config>) {
    var preset := if key in m.configs then Some(m.configs[key]) else None;
    match e
    case RegisterStatic(k, config) =>
      now == if k == key && Current(m, key).None? && !Invalid(config) then Some(config) else Current(m, key)
    case RegisterDynamic(k, config, _) =>
      now == if k == key && Current(m, key).None? && !Invalid(config) then Some(config) else Current(m, key)
    case RegisterFailed(k) => now == if k == key then preset else Current(m, key)
    case UnregisterDynamic(k) => now == if k == key then preset else Current(m, key)
    case UnregisterByKey(k) => now == if k == key then preset else Current(m, key)
    case RegisterFromConfig(k, config) => now == if k == key && preset.None? then Some(config) else Current(m, key)
    case FallbackReply(k, config, _) => now == if k == key && preset.None? then Some(config) else Current(m, key)
    case FullSync(models) =>
      if preset.Some? then now == preset
      else (now.Some? <==> key in KeysOf(models)) && forall y | y in models && y.key == key :: now.Some? && SameContent(now.value, y.config)
    case _ => now == Current(m, key)
  }

  /** For every state, event and model: a registration takes effect exactly if the model is new and its configuration
      valid, a notification or a fallback takes effect unless the model is preset, a removal or roll-back takes the
      dynamic model away, a full synchronisation brings the content of the registry, and no other event and no other
      model changes anything. */
  lemma ConfigurationAfter(m: Manager, e: Event, key: Key)
    requires Enabled(m, e) && (e.FullSync? ==> DistinctKeys(e.models))
    ensures ConfiguredAs(m, e, key, Current(Step(m, e), key))
  {
    hide KeysOf, OnLoad, Enter, OnTokenizerLoaded, OnFullSync, Drop, HasPath, Idle, DistinctKeys, ConfiguredAs, SameContent, Current;
    match e
    case Load(k, built) => LoadTables(m, k, built); Untouched(m, e, key);
    case Resume(i, built) =>
      EnterTables(m.(waiting := m.waiting[..i] + m.waiting[i + 1..]), m.waiting[i].key, m.waiting[i].config, built);
      Untouched(m, e, key);
    case TokenizerLoaded(result) => TokenizerTables(m, result); Untouched(m, e, key);
    case FallbackReply(k, config, built) =>
      LoadTables(m.(dynamic := m.dynamic[k := config]), k, built);
      Replaced(m, e, k, config, key);
    case RegisterFromConfig(k, config) => Replaced(m, e, k, config, key);
    case FullSync(models) => Synchronised(m, models, key);
    case RegisterStatic(k, config) => Entered(m, e, k, config, key);
    case RegisterDynamic(k, config, persist) => Entered(m, e, k, config, key);
    case RegisterFailed(k) => Removed(m, e, k, key);
    case UnregisterDynamic(k) => Removed(m, e, k, key);
    case UnregisterByKey(k) => Removed(m, e, k, key);
    case RegisterDone(_) => Untouched(m, e, key);
    case EvictIdle => DropTables(m, Idle(m)); Untouched(m, e, key);
    case Clear => DropTables(m, KeysOf(m.cache)); Untouched(m, e, key);
    case Tick(_) => Untouched(m, e, key);
  }

  lemma DropTables(m: Manager, ks: set<Key>)
    ensures Drop(m, ks).configs == m.configs && Drop(m, ks).dynamic == m.dynamic
  {
    hide Select, PathsOf, ReleaseAll;
  }

  /** An event that is no registration changes no configuration. */
  lemma Untouched(m: Manager, e: Event, key: Key)
    requires Enabled(m, e) && Step(m, e).configs == m.configs && Step(m, e).dynamic == m.dynamic
    requires e.Load? || e.Resume? || e.TokenizerLoaded? || e.RegisterDone? || e.EvictIdle? || e.Clear? || e.Tick?
    ensures ConfiguredAs(m, e, key, Current(Step(m, e), key))
  {
    hide Step, Enabled;
  }

  lemma Replaced(m: Manager, e: Event, k: Key, config: Config, key: Key)
    requires Enabled(m, e) && Step(m, e).configs == m.configs && Step(m, e).dynamic == m.dynamic[k := config]
    requires e == RegisterFromConfig(k, config) || (e.FallbackReply? && e.key == k && e.config == config)
    ensures ConfiguredAs(m, e, key, Current(Step(m, e), key))
  {
    hide Step, Enabled;
  }

  lemma Entered(m: Manager, e: Event, k: Key, config: Config, key: Key)
    requires Enabled(m, e)
    requires e == RegisterStatic(k, config) || (e.RegisterDynamic? && e.key == k && e.config == config)
    ensures ConfiguredAs(m, e, key, Current(Step(m, e), key))
  {
  }

  lemma Removed(m: Manager, e: Event, k: Key, key: Key)
    requires Enabled(m, e) && (e == RegisterFailed(k) || e == UnregisterDynamic(k) || e == UnregisterByKey(k))
    ensures ConfiguredAs(m, e, key, Current(Step(m, e), key))
  {
    hide Drop;
    var m1 := m.(dynamic := m.dynamic - {k});
    DropTables(m1, {k});
    DropTables(m1.(registering := m.registering - multiset{k}), {k});
  }

  lemma Synchronised(m: Manager, models: seq<Entry>, key: Key)
    requires DistinctKeys(models)
    ensures ConfiguredAs(m, FullSync(models), key, Current(Step(m, FullSync(models)), key))
  {
    hide KeysOf, OnFullSync, SameContent, DistinctKeys;
    FullSyncAgrees(m, models);
    InKeys(models);
  }

  /** A valid new model is served: from every reachable state in which the lock is free, its registration and the first
      request leave its processor at the recent end of the cache, after the tokenizer arrived if one has to be loaded. */
  lemma NewModelIsServed(m: Manager, key: Key, config: Config, persist: bool)
    requires Inv(m) && m.lock.Free? && Current(m, key).None? && !Invalid(config)
    ensures var m1 := Step(m, RegisterDynamic(key, config, persist));
            var m2 := Step(m1, Load(key, true));
            if AtHand(m1, config) then m2.cache == Room(m) + [Entry(key, config)]
            else m2.lock.Loading? && Enabled(m2, TokenizerLoaded(Constructed))
                 && Step(m2, TokenizerLoaded(Constructed)).cache == Room(m) + [Entry(key, config)]
  {
    hide Inv, KeysOf, AtHand, Invalid, Step, Enabled, Takes, Finishes, Room, Current, Uses;
    var e1, e2, e3 := RegisterDynamic(key, config, persist), Load(key, true), TokenizerLoaded(Constructed);
    Registered(m, key, config, persist);
    StepKeepsInv(m, e1);
    var m1 := Step(m, e1);
    NotCached(m, m1, key);
    var x := Entry(key, config);
    RequestTakes(m1, x);
    StepKeepsInv(m1, e2);
    var m2 := Step(m1, e2);
    ConfigurationAfter(m1, e2, key);
    TakingTheLock(m1, e2, x);
    SameRoom(m, m1, config);
    if !AtHand(m1, config) {
      NeverStuck(m2);
      ArrivalFinishes(m2, x);
      FinishedLoadIsCached(m2, e3, x);
      ConfigurationAfter(m2, e3, key);
      RoomForOne(m2);
    }
  }

  lemma Registered(m: Manager, key: Key, config: Config, persist: bool)
    requires Current(m, key).None? && !Invalid(config)
    ensures var e := RegisterDynamic(key, config, persist);
            && Enabled(m, e) && Current(Step(m, e), key) == Some(config)
            && Step(m, e) == m.(dynamic := m.dynamic[key := config], registering := Step(m, e).registering)
  {
  }

  /** A registration is stored in the database exactly if it is accepted and asked to be; then it waits for one answer,
      either of which ends the wait. */
  lemma RegistrationAwaitsAnswer(m: Manager, key: Key, config: Config, persist: bool)
    ensures var m' := Step(m, RegisterDynamic(key, config, persist));
            && m'.registering[key] == m.registering[key] + (if persist && Current(m, key).None? && !Invalid(config) then 1 else 0)
            && (m'.registering[key] > 0 <==> Enabled(m', RegisterDone(key)))
            && (m'.registering[key] > 0 <==> Enabled(m', RegisterFailed(key)))
            && (m'.registering[key] > 0 ==> Step(m', RegisterDone(key)).registering[key] == m'.registering[key] - 1)
            && (m'.registering[key] > 0 ==> Step(m', RegisterFailed(key)).registering[key] == m'.registering[key] - 1)
  {
    hide Select, PathsOf, ReleaseAll;
  }

  lemma NotCached(m: Manager, m1: Manager, key: Key)
    requires Inv(m) && Current(m, key).None? && m1.cache == m.cache
    ensures key !in KeysOf(m1.cache)
  {
    hide LruOk, AccountsOk, LockOk, Current;
  }

  lemma RequestTakes(m: Manager, x: Entry)
    requires m.lock.Free? && x.key !in KeysOf(m.cache) && Current(m, x.key) == Some(x.config)
    ensures Enabled(m, Load(x.key, true)) && Takes(m, Load(x.key, true), x)
    ensures !Invalid(x.config) && AtHand(m, x.config) ==> Finishes(m, Load(x.key, true), x)
  {
    hide KeysOf, AtHand;
  }

  lemma ArrivalFinishes(m: Manager, x: Entry)
    requires m.lock == Loading(x.key, x.config)
    ensures Finishes(m, TokenizerLoaded(Constructed), x)
  {}
}
