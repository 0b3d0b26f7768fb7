/** The processor cache of a worker and the tokenizers its processors share. The program runs on one event loop,
    so it is a state machine over its suspension points: waiting for the load lock, loading a tokenizer, and
    waiting for the database. Everything between two of these points is one step. */
module ProcessorCache {
  import opened Text

  datatype Key = Key(run: string, model: string)

  /** A stored configuration. `oid` stands for the identity of the object, so that equality is Python's `is`. */
  datatype Config = Config(oid: nat, path: Option<string>, tito: bool, url: string, apiKey: string,
                           toolParser: string, reasoningParser: string)

  /** A cached processor, with the configuration it was built from. */
  datatype Entry = Entry(key: Key, config: Config)

  datatype Lock = Free | Loading(key: Key, config: Config)

  /** `static`, `dynamic`: the two configuration tables; `cache`: least recently used first; `refs`, `loaded`:
      counts and instances of the tokenizer cache; `registering`: registrations waiting for the database.
      `leaked` is not known to the program: the references held by processors whose constructor raised. */
  datatype Manager = Manager(
    configs: map<Key, Config>, dynamic: map<Key, Config>,
    cache: seq<Entry>, lastAccess: map<Key, nat>, max: nat, timeout: nat, clock: nat,
    refs: map<string, nat>, loaded: set<string>,
    lock: Lock, waiting: seq<Entry>, registering: multiset<Key>,
    leaked: multiset<string>)

  datatype LoadResult = LoadFailed | ConstructorRaised | Constructed

  datatype Event =
    | Load(key: Key, built: bool)
    | Resume(i: nat, built: bool)
    | TokenizerLoaded(result: LoadResult)
    | RegisterStatic(key: Key, config: Config)
    | RegisterDynamic(key: Key, config: Config, persist: bool)
    | RegisterDone(key: Key)
    | RegisterFailed(key: Key)
    | UnregisterDynamic(key: Key)
    | RegisterFromConfig(key: Key, config: Config)
    | UnregisterByKey(key: Key)
    | FullSync(models: seq<Entry>)
    | FallbackReply(key: Key, config: Config, built: bool)
    | EvictIdle
    | Clear
    | Tick(d: nat)

  // ---- reading the state ----

  function Current(m: Manager, key: Key): Option<Config> {
    if key in m.configs then Some(m.configs[key]) else if key in m.dynamic then Some(m.dynamic[key]) else None
  }

  function KeysOf(es: seq<Entry>): set<Key> {
    set e | e in es :: e.key
  }

  predicate HasPath(c: Config) {
    c.path.Some? && c.path.value != ""
  }

  /** A processor of this configuration holds a tokenizer. */
  predicate Uses(c: Config) {
    c.tito && HasPath(c)
  }

  function PathsOf(es: seq<Entry>): multiset<string> {
    if es == [] then multiset{}
    else (if Uses(es[0].config) then multiset{es[0].config.path.value} else multiset{}) + PathsOf(es[1..])
  }

  function Total(refs: map<string, nat>, p: string): nat {
    if p in refs then refs[p] else 0
  }

  /** The entries with a key in `ks`, or those without. */
  function Select(es: seq<Entry>, ks: set<Key>, within: bool): seq<Entry> {
    if es == [] then []
    else if (es[0].key in ks) == within then [es[0]] + Select(es[1..], ks, within)
    else Select(es[1..], ks, within)
  }

  // ---- the moves ----

  /** `release` for every path of `paths`: a count that reaches zero is deleted, with its tokenizer. */
  function ReleaseAll(refs: map<string, nat>, paths: multiset<string>): map<string, nat> {
    map p | p in refs && (p !in paths || refs[p] > paths[p]) :: refs[p] - paths[p]
  }

  /** The processors of `ks` leave the cache and release their tokenizers. */
  function Drop(m: Manager, ks: set<Key>): Manager {
    var refs := ReleaseAll(m.refs, PathsOf(Select(m.cache, ks, true)));
    m.(cache := Select(m.cache, ks, false), lastAccess := m.lastAccess - ks,
       refs := refs, loaded := m.loaded - (m.refs.Keys - refs.Keys))
  }

  function Touch(m: Manager, key: Key): Manager {
    if key in KeysOf(m.cache) then
      m.(cache := Select(m.cache, {key}, false) + Select(m.cache, {key}, true), lastAccess := m.lastAccess[key := m.clock])
    else m
  }

  function EvictOne(m: Manager): Manager {
    if m.cache == [] then m else Drop(m, {m.cache[0].key})
  }

  function EvictDown(m: Manager): Manager
    decreases |m.cache|
  {
    if |m.cache| < m.max || m.cache == [] then m
    else
      SelectSize(m.cache, m.cache[0].key);
      EvictDown(EvictOne(m))
  }

  lemma {:induction false} SelectSize(es: seq<Entry>, key: Key)
    ensures key in KeysOf(es) ==> |Select(es, {key}, false)| < |es|
    ensures |Select(es, {key}, false)| <= |es|
  {
    if es != [] {
      SelectSize(es[1..], key);
      assert es[0].key != key && key in KeysOf(es) ==> key in KeysOf(es[1..]);
    }
  }

  /** The processor of `config` is built and holds its tokenizer: the second look at the configuration. */
  function Admit(m: Manager, key: Key, config: Config, built: bool): Manager {
    if !built then if Uses(config) then m.(leaked := m.leaked + multiset{config.path.value}) else m
    else if Current(m, key) == Some(config) then
      m.(cache := m.cache + [Entry(key, config)], lastAccess := m.lastAccess[key := m.clock])
    else if Uses(config) then
      var refs := ReleaseAll(m.refs, multiset{config.path.value});
      m.(refs := refs, loaded := m.loaded - (m.refs.Keys - refs.Keys))
    else m
  }

  /** `_load_processor` from the moment it holds the lock to its next suspension. */
  function Enter(m: Manager, key: Key, config: Config, built: bool): Manager {
    if key in KeysOf(m.cache) then Touch(m, key)
    else
      var m1 := EvictDown(m);
      if config.tito && !HasPath(config) then m1
      else if !Uses(config) then Admit(m1, key, config, built)
      else
        var p := config.path.value;
        if p in m1.loaded then Admit(m1.(refs := m1.refs[p := Total(m1.refs, p) + 1]), key, config, built)
        else m1.(lock := Loading(key, config))
  }

  function OnLoad(m: Manager, key: Key, built: bool): Manager {
    if key in KeysOf(m.cache) then Touch(m, key)
    else
      match Current(m, key)
      case None => m
      case Some(config) =>
        if m.lock.Free? then Enter(m, key, config, built) else m.(waiting := m.waiting + [Entry(key, config)])
  }

  function OnTokenizerLoaded(m: Manager, result: LoadResult): Manager
    requires m.lock.Loading? && Uses(m.lock.config)
  {
    var key, config := m.lock.key, m.lock.config;
    var p := config.path.value;
    if result.LoadFailed? then m.(lock := Free)
    else Admit(m.(lock := Free, loaded := m.loaded + {p}, refs := m.refs[p := 1]), key, config, result.Constructed?)
  }

  predicate SameContent(a: Config, b: Config) {
    && a.path == b.path && a.tito == b.tito && a.url == b.url && a.apiKey == b.apiKey
    && a.toolParser == b.toolParser && a.reasoningParser == b.reasoningParser
  }

  function SyncOne(m: Manager, model: Entry): Manager {
    if model.key in m.dynamic && SameContent(m.dynamic[model.key], model.config) then m
    else
      var m1 := m.(dynamic := m.dynamic[model.key := model.config]);
      if model.key in m.dynamic then Drop(m1, {model.key}) else m1
  }

  function SyncAll(m: Manager, models: seq<Entry>): Manager
    decreases |models|
  {
    if models == [] then m else SyncAll(SyncOne(m, models[0]), models[1..])
  }

  function OnFullSync(m: Manager, models: seq<Entry>): Manager {
    var gone := m.dynamic.Keys - KeysOf(models);
    var m1 := SyncAll(m, models);
    Drop(m1.(dynamic := m1.dynamic - gone), gone)
  }

  /** The models whose last access is further back than the timeout. */
  function Idle(m: Manager): set<Key> {
    set k | k in m.lastAccess && m.clock - m.lastAccess[k] > m.timeout
  }

  // ---- the state machine ----

  predicate Enabled(m: Manager, e: Event) {
    match e
    case Resume(i, _) => m.lock.Free? && i < |m.waiting|
    case TokenizerLoaded(_) => m.lock.Loading? && Uses(m.lock.config)
    case RegisterDone(key) => key in m.registering
    case RegisterFailed(key) => key in m.registering
    case _ => true
  }

  function Step(m: Manager, e: Event): Manager
    requires Enabled(m, e)
  {
    match e
    case Load(key, built) => OnLoad(m, key, built)
    case Resume(i, built) => Enter(m.(waiting := m.waiting[..i] + m.waiting[i + 1..]), m.waiting[i].key, m.waiting[i].config, built)
    case TokenizerLoaded(result) => OnTokenizerLoaded(m, result)
    case RegisterStatic(key, config) =>
      if key in m.configs || key in m.dynamic || (config.tito && !HasPath(config)) then m
      else m.(configs := m.configs[key := config])
    case RegisterDynamic(key, config, persist) =>
      if key in m.configs || key in m.dynamic || (config.tito && !HasPath(config)) then m
      else m.(dynamic := m.dynamic[key := config], registering := m.registering + if persist then multiset{key} else multiset{})
    case RegisterDone(key) => m.(registering := m.registering - multiset{key})
    case RegisterFailed(key) =>
      var m1 := m.(registering := m.registering - multiset{key});
      // `del` of a key that is gone raises before the cache is looked at
      if key in m.dynamic then Drop(m1.(dynamic := m.dynamic - {key}), {key}) else m1
    case UnregisterDynamic(key) =>
      if key in m.dynamic then Drop(m.(dynamic := m.dynamic - {key}), {key}) else m
    case RegisterFromConfig(key, config) => m.(dynamic := m.dynamic[key := config])
    case UnregisterByKey(key) => Drop(m.(dynamic := m.dynamic - {key}), {key})
    case FullSync(models) => OnFullSync(m, models)
    case FallbackReply(key, config, built) => OnLoad(m.(dynamic := m.dynamic[key := config]), key, built)
    case EvictIdle => Drop(m, Idle(m))
    case Clear => Drop(m, KeysOf(m.cache))
    case Tick(d) => m.(clock := m.clock + d)
  }

  ghost predicate ValidRun(m: Manager, es: seq<Event>)
    decreases |es|
  {
    es == [] || (Enabled(m, es[0]) && ValidRun(Step(m, es[0]), es[1..]))
  }

  function Exec(m: Manager, es: seq<Event>): Manager
    requires ValidRun(m, es)
    decreases |es|
  {
    if es == [] then m else Exec(Step(m, es[0]), es[1..])
  }

  function Start(max: nat, timeout: nat, clock: nat): Manager {
    Manager(map[], map[], [], map[], max, timeout, clock, map[], {}, Free, [], multiset{}, multiset{})
  }

  // ---- what every step keeps ----

  ghost predicate DistinctKeys(es: seq<Entry>) {
    es == [] || (es[0].key !in KeysOf(es[1..]) && DistinctKeys(es[1..]))
  }

  /** The cache is in the order of the last accesses, none of which lies in the future. */
  ghost predicate LruSorted(es: seq<Entry>, last: map<Key, nat>, clock: nat) {
    es == [] ||
    (&& es[0].key in last && last[es[0].key] <= clock
     && (forall e | e in es[1..] :: e.key in last && last[es[0].key] <= last[e.key])
     && LruSorted(es[1..], last, clock))
  }

  ghost predicate Accounts(refs: map<string, nat>, loaded: set<string>, used: multiset<string>, leaked: multiset<string>) {
    && (forall p :: Total(refs, p) == used[p] + leaked[p])
    && (forall p | p in refs :: refs[p] >= 1)
    && loaded == refs.Keys
  }

  ghost predicate AccountsOk(m: Manager) {
    Accounts(m.refs, m.loaded, PathsOf(m.cache), m.leaked)
  }

  ghost predicate LruOk(m: Manager) {
    && DistinctKeys(m.cache) && m.lastAccess.Keys == KeysOf(m.cache) && LruSorted(m.cache, m.lastAccess, m.clock)
  }

  /** Every cached processor has a configuration. */
  ghost predicate Backed(m: Manager) {
    forall e | e in m.cache :: Current(m, e.key).Some?
  }

  ghost predicate LockOk(m: Manager) {
    && 1 <= m.max && |m.cache| <= m.max
    && (m.lock.Loading? ==>
          && |m.cache| < m.max && m.lock.key !in KeysOf(m.cache)
          && Uses(m.lock.config) && m.lock.config.path.value !in m.refs)
  }

  ghost predicate Inv(m: Manager) {
    LruOk(m) && AccountsOk(m) && Backed(m) && LockOk(m)
  }

  // ---- selecting from the cache ----

  lemma {:induction false} Selected(es: seq<Entry>, ks: set<Key>, within: bool)
    ensures forall e :: e in Select(es, ks, within) <==> e in es && (e.key in ks) == within
    ensures |Select(es, ks, within)| <= |es|
  {
    if es != [] { Selected(es[1..], ks, within); }
  }

  lemma SelectedKeys(es: seq<Entry>, ks: set<Key>)
    ensures KeysOf(Select(es, ks, false)) == KeysOf(es) - ks
    ensures KeysOf(Select(es, ks, true)) == KeysOf(es) * ks
  {
    Selected(es, ks, false);
    Selected(es, ks, true);
    forall k | k in KeysOf(es) - ks ensures k in KeysOf(Select(es, ks, false)) {
      var e :| e in es && e.key == k;
      assert e in Select(es, ks, false);
    }
    forall k | k in KeysOf(es) * ks ensures k in KeysOf(Select(es, ks, true)) {
      var e :| e in es && e.key == k;
      assert e in Select(es, ks, true);
    }
  }

  lemma {:induction false} SelectPaths(es: seq<Entry>, ks: set<Key>)
    ensures PathsOf(Select(es, ks, true)) + PathsOf(Select(es, ks, false)) == PathsOf(es)
  {
    hide Uses;
    if es != [] {
      SelectPaths(es[1..], ks);
      var a, b := Select(es[1..], ks, true), Select(es[1..], ks, false);
      assert ([es[0]] + a)[1..] == a && ([es[0]] + b)[1..] == b;
    }
  }

  lemma {:induction false} SelectDistinct(es: seq<Entry>, ks: set<Key>, within: bool)
    requires DistinctKeys(es)
    ensures DistinctKeys(Select(es, ks, within))
  {
    if es != [] {
      SelectDistinct(es[1..], ks, within);
      Selected(es[1..], ks, within);
      var rest := Select(es[1..], ks, within);
      assert ([es[0]] + rest)[1..] == rest;
    }
  }

  lemma {:induction false} SelectSorted(es: seq<Entry>, ks: set<Key>, last: map<Key, nat>, clock: nat)
    requires LruSorted(es, last, clock)
    ensures LruSorted(Select(es, ks, false), last - ks, clock)
  {
    if es != [] {
      SelectSorted(es[1..], ks, last, clock);
      Selected(es[1..], ks, false);
      var rest := Select(es[1..], ks, false);
      assert ([es[0]] + rest)[1..] == rest;
    }
  }

  lemma {:induction false} AppendSorted(es: seq<Entry>, e: Entry, last: map<Key, nat>, clock: nat)
    requires LruSorted(es, last, clock) && e.key !in KeysOf(es)
    ensures LruSorted(es + [e], last[e.key := clock], clock)
  {
    if es == [] {
      assert [e][1..] == [];
    } else {
      AppendSorted(es[1..], e, last, clock);
      assert (es + [e])[1..] == es[1..] + [e];
      assert es[0] in es && forall x | x in es[1..] :: x in es;
      InOrder(es, last, clock);
    }
  }

  /** No access is later than the clock. */
  lemma {:induction false} InOrder(es: seq<Entry>, last: map<Key, nat>, clock: nat)
    requires LruSorted(es, last, clock)
    ensures forall e | e in es :: e.key in last && last[e.key] <= clock
  {
    if es != [] { InOrder(es[1..], last, clock); }
  }

  lemma {:induction false} AppendDistinct(es: seq<Entry>, e: Entry)
    requires DistinctKeys(es) && e.key !in KeysOf(es)
    ensures DistinctKeys(es + [e])
    ensures KeysOf(es + [e]) == KeysOf(es) + {e.key}
  {
    if es != [] {
      assert forall x | x in es[1..] :: x in es;
      AppendDistinct(es[1..], e);
      assert (es + [e])[1..] == es[1..] + [e];
      assert es[0] in es;
    }
    AppendKeys(es, e);
  }

  lemma AppendKeys(es: seq<Entry>, e: Entry)
    ensures KeysOf(es + [e]) == KeysOf(es) + {e.key}
  {
    assert forall x :: x in es + [e] <==> x in es || x == e;
    assert e in es + [e];
    forall k | k in KeysOf(es) ensures k in KeysOf(es + [e]) {
      var x :| x in es && x.key == k;
      assert x in es + [e];
    }
  }

  lemma {:induction false} AppendPaths(es: seq<Entry>, e: Entry)
    ensures PathsOf(es + [e]) == PathsOf(es) + (if Uses(e.config) then multiset{e.config.path.value} else multiset{})
  {
    hide Uses;
    if es == [] {
      assert [e][1..] == [];
    } else {
      AppendPaths(es[1..], e);
      assert (es + [e])[1..] == es[1..] + [e];
    }
  }

  // ---- dropping ----

  lemma ReleaseKeeps(refs: map<string, nat>, loaded: set<string>, used: multiset<string>, freed: multiset<string>, leaked: multiset<string>)
    requires Accounts(refs, loaded, freed + used, leaked)
    ensures var refs' := ReleaseAll(refs, freed);
            && Accounts(refs', loaded - (refs.Keys - refs'.Keys), used, leaked)
            && refs'.Keys <= refs.Keys
  {
    var refs' := ReleaseAll(refs, freed);
    forall p ensures Total(refs', p) == used[p] + leaked[p] {
      assert Total(refs, p) == (freed + used)[p] + leaked[p];
    }
    assert refs.Keys - (refs.Keys - refs'.Keys) == refs'.Keys;
  }

  lemma DropKeeps(m: Manager, ks: set<Key>)
    requires LruOk(m) && AccountsOk(m) && LockOk(m)
    requires forall e | e in m.cache && e.key !in ks :: Current(m, e.key).Some?
    ensures Inv(Drop(m, ks))
    ensures KeysOf(Drop(m, ks).cache) == KeysOf(m.cache) - ks
  {
    hide KeysOf, PathsOf, Select, Accounts, DistinctKeys, LruSorted, Uses, ReleaseAll;
    Selected(m.cache, ks, false);
    SelectedKeys(m.cache, ks);
    SelectPaths(m.cache, ks);
    SelectDistinct(m.cache, ks, false);
    SelectSorted(m.cache, ks, m.lastAccess, m.clock);
    ReleaseKeeps(m.refs, m.loaded, PathsOf(Select(m.cache, ks, false)), PathsOf(Select(m.cache, ks, true)), m.leaked);
  }

  lemma EntryOf(es: seq<Entry>, key: Key) returns (e: Entry)
    requires key in KeysOf(es)
    ensures e in es && e.key == key
  {
    e :| e in es && e.key == key;
  }

  lemma TouchedCache(m: Manager, key: Key) returns (e: Entry)
    requires LruOk(m) && key in KeysOf(m.cache)
    ensures e in m.cache && e.key == key && Touch(m, key).cache == Select(m.cache, {key}, false) + [e]
    ensures forall x :: x in Touch(m, key).cache <==> x in m.cache
    ensures |Touch(m, key).cache| == |m.cache| && KeysOf(Touch(m, key).cache) == KeysOf(m.cache)
    ensures PathsOf(Touch(m, key).cache) == PathsOf(m.cache)
  {
    hide KeysOf, PathsOf, Select, LruSorted, Uses;
    e := EntryOf(m.cache, key);
    var rest := Select(m.cache, {key}, false);
    OneSelected(m.cache, e);
    Selected(m.cache, {key}, false);
    Selected(m.cache, {key}, true);
    SelectedKeys(m.cache, {key});
    AppendKeys(rest, e);
    SelectPaths(m.cache, {key});
    AppendPaths(rest, e);
    SinglePath(e);
    assert e in rest + [e];
    assert key in KeysOf(m.cache);
  }

  lemma TouchLru(m: Manager, key: Key)
    requires LruOk(m) && key in KeysOf(m.cache)
    ensures LruOk(Touch(m, key))
  {
    hide KeysOf, PathsOf, Select, LruSorted, Uses, DistinctKeys;
    var e := TouchedCache(m, key);
    var rest := Select(m.cache, {key}, false);
    SelectedKeys(m.cache, {key});
    SelectDistinct(m.cache, {key}, false);
    SelectSorted(m.cache, {key}, m.lastAccess, m.clock);
    MapLess(m.lastAccess, key, m.clock);
    AppendSorted(rest, e, m.lastAccess - {key}, m.clock);
    AppendDistinct(rest, e);
  }

  lemma TouchKeeps(m: Manager, key: Key)
    requires Inv(m)
    ensures Inv(Touch(m, key))
    ensures forall e :: e in Touch(m, key).cache <==> e in m.cache
  {
    hide KeysOf, PathsOf, Select, LruSorted, Uses, DistinctKeys, Accounts, LruOk;
    if key in KeysOf(m.cache) {
      TouchLru(m, key);
      var e := TouchedCache(m, key);
    }
  }

  lemma MapLess(last: map<Key, nat>, key: Key, t: nat)
    ensures (last - {key})[key := t] == last[key := t]
  {}

  lemma SinglePath(e: Entry)
    ensures PathsOf([e]) == if Uses(e.config) then multiset{e.config.path.value} else multiset{}
  {
    assert [e][1..] == [];
  }

  lemma {:induction false} OneSelected(es: seq<Entry>, e: Entry)
    requires DistinctKeys(es) && e in es
    ensures Select(es, {e.key}, true) == [e]
    ensures |Select(es, {e.key}, false)| == |es| - 1
  {
    if es[0] == e {
      NoneSelected(es[1..], e.key);
    } else {
      assert e in es[1..];
      OneSelected(es[1..], e);
    }
  }

  lemma {:induction false} NoneSelected(es: seq<Entry>, key: Key)
    requires key !in KeysOf(es)
    ensures Select(es, {key}, true) == [] && Select(es, {key}, false) == es
  {
    if es != [] {
      assert es[0] in es && forall x | x in es[1..] :: x in es;
      NoneSelected(es[1..], key);
    }
  }

  // ---- loading ----

  lemma CountKeys(es: seq<Entry>)
    requires es != []
    ensures es[0].key in KeysOf(es) && es[0] in es
  {}

  lemma EvictOneKeeps(m: Manager)
    requires Inv(m)
    ensures var m' := EvictOne(m); Inv(m') && (m.cache != [] ==> |m'.cache| == |m.cache| - 1)
    ensures forall e | e in EvictOne(m).cache :: e in m.cache
  {
    hide KeysOf, PathsOf, Select, LruSorted, Uses, Accounts, DistinctKeys;
    if m.cache != [] {
      CountKeys(m.cache);
      DropKeeps(m, {m.cache[0].key});
      OneSelected(m.cache, m.cache[0]);
      Selected(m.cache, {m.cache[0].key}, false);
    }
  }

  /** What eviction leaves alone. */
  ghost predicate SameTables(m: Manager, m': Manager) {
    && m'.configs == m.configs && m'.dynamic == m.dynamic && m'.lock == m.lock && m'.leaked == m.leaked && m'.clock == m.clock
    && m'.max == m.max && (forall e | e in m'.cache :: e in m.cache)
  }

  lemma {:induction false} EvictDownKeeps(m: Manager)
    requires Inv(m)
    ensures var m' := EvictDown(m); Inv(m') && |m'.cache| < m.max && SameTables(m, m')
    decreases |m.cache|
  {
    hide LruOk, AccountsOk, Backed, PathsOf, Select;
    if |m.cache| >= m.max && m.cache != [] {
      EvictOneKeeps(m);
      EvictDownKeeps(EvictOne(m));
    }
  }

  /** The tokenizer reference of a processor that is built but not cached yet. */
  function Held(config: Config): multiset<string> {
    if Uses(config) then multiset{config.path.value} else multiset{}
  }

  /** A processor is built and holds its tokenizer, under the lock. */
  ghost predicate Built(m: Manager, key: Key, config: Config) {
    && LruOk(m) && Backed(m) && LockOk(m) && m.lock.Free? && key !in KeysOf(m.cache) && |m.cache| < m.max
    && Accounts(m.refs, m.loaded, Held(config) + PathsOf(m.cache), m.leaked)
  }

  lemma AdmitKeeps(m: Manager, key: Key, config: Config, built: bool)
    requires Built(m, key, config)
    ensures Inv(Admit(m, key, config, built))
    ensures forall e | e in Admit(m, key, config, built).cache ::
              e in m.cache || (e == Entry(key, config) && Current(m, key) == Some(config))
  {
    hide Built, Inv, ReleaseAll, Uses;
    if !built {
      LeakKeeps(m, key, config);
    } else if Current(m, key) == Some(config) {
      InsertKeeps(m, key, config);
    } else {
      DiscardKeeps(m, key, config);
    }
  }

  lemma LeakKeeps(m: Manager, key: Key, config: Config)
    requires Built(m, key, config)
    ensures Inv(Admit(m, key, config, false))
  {
    hide PathsOf, Uses, LruSorted, DistinctKeys, Accounts, KeysOf;
    LeakAccounts(m.refs, m.loaded, Held(config), PathsOf(m.cache), m.leaked);
    assert m.leaked + multiset{} == m.leaked;
  }

  lemma DiscardKeeps(m: Manager, key: Key, config: Config)
    requires Built(m, key, config) && Current(m, key) != Some(config)
    ensures Inv(Admit(m, key, config, true))
  {
    hide PathsOf, Uses, LruSorted, DistinctKeys, Accounts, KeysOf, ReleaseAll;
    ReleaseKeeps(m.refs, m.loaded, PathsOf(m.cache), Held(config), m.leaked);
    assert multiset{} + PathsOf(m.cache) == PathsOf(m.cache);
  }

  lemma LeakAccounts(refs: map<string, nat>, loaded: set<string>, held: multiset<string>, used: multiset<string>, leaked: multiset<string>)
    requires Accounts(refs, loaded, held + used, leaked)
    ensures Accounts(refs, loaded, used, leaked + held)
  {
    forall p ensures Total(refs, p) == used[p] + (leaked + held)[p] { assert Total(refs, p) == (held + used)[p] + leaked[p]; }
  }

  lemma InsertKeeps(m: Manager, key: Key, config: Config)
    requires Built(m, key, config) && Current(m, key) == Some(config)
    ensures Inv(Admit(m, key, config, true))
  {
    hide KeysOf, PathsOf, LruSorted, DistinctKeys, Uses, Accounts;
    var e := Entry(key, config);
    AppendSorted(m.cache, e, m.lastAccess, m.clock);
    AppendDistinct(m.cache, e);
    AppendPaths(m.cache, e);
    assert Held(config) + PathsOf(m.cache) == PathsOf(m.cache) + Held(config);
  }

  lemma RetainAccounts(refs: map<string, nat>, loaded: set<string>, used: multiset<string>, leaked: multiset<string>, p: string)
    requires Accounts(refs, loaded, used, leaked)
    ensures Accounts(refs[p := Total(refs, p) + 1], loaded + {p}, multiset{p} + used, leaked)
  {}

  lemma NewlyLoaded(m: Manager, p: string)
    requires AccountsOk(m) && p !in m.refs
    ensures Accounts(m.refs[p := 1], m.loaded + {p}, multiset{p} + PathsOf(m.cache), m.leaked)
  {
    hide PathsOf;
    RetainAccounts(m.refs, m.loaded, PathsOf(m.cache), m.leaked, p);
  }

  lemma FewerKeys(m: Manager, m': Manager)
    requires SameTables(m, m')
    ensures KeysOf(m'.cache) <= KeysOf(m.cache)
  {}

  /** A processor that is new in the cache was built from what is the configuration of its key after the step. */
  ghost predicate NewAreCurrent(m: Manager, m': Manager) {
    forall e | e in m'.cache && e !in m.cache :: Current(m', e.key) == Some(e.config)
  }

  lemma EnterKeeps(m: Manager, key: Key, config: Config, built: bool)
    requires Inv(m) && m.lock.Free?
    ensures Inv(Enter(m, key, config, built)) && NewAreCurrent(m, Enter(m, key, config, built))
  {
    hide KeysOf, PathsOf, EvictDown, Touch, Admit, LruOk, AccountsOk, LockOk, Backed, Built;
    if key in KeysOf(m.cache) {
      TouchKeeps(m, key);
    } else {
      EvictDownKeeps(m);
      var m1 := EvictDown(m);
      FewerKeys(m, m1);
      if !Uses(config) {
        ReadyToBuild(m1, key, config);
        AdmitKeeps(m1, key, config, built);
        AdmitTables(m1, key, config, built);
      } else {
        AcquireKeeps(m1, key, config, built);
      }
    }
  }

  lemma AdmitTables(m: Manager, key: Key, config: Config, built: bool)
    ensures var m' := Admit(m, key, config, built); m'.configs == m.configs && m'.dynamic == m.dynamic
  {
    hide ReleaseAll, Uses;
  }

  lemma ReadyToBuild(m: Manager, key: Key, config: Config)
    requires Inv(m) && m.lock.Free? && key !in KeysOf(m.cache) && |m.cache| < m.max && !Uses(config)
    ensures Built(m, key, config)
  {
    hide KeysOf, PathsOf, LruOk, Accounts;
    assert multiset{} + PathsOf(m.cache) == PathsOf(m.cache);
  }

  /** `get_or_load` and what follows, up to the next suspension. */
  lemma AcquireKeeps(m: Manager, key: Key, config: Config, built: bool)
    requires Inv(m) && m.lock.Free? && key !in KeysOf(m.cache) && |m.cache| < m.max && Uses(config)
    ensures var p := config.path.value;
            var m' := if p in m.loaded then Admit(m.(refs := m.refs[p := Total(m.refs, p) + 1]), key, config, built)
                      else m.(lock := Loading(key, config));
            Inv(m') && NewAreCurrent(m, m') && m'.configs == m.configs && m'.dynamic == m.dynamic
  {
    hide KeysOf, PathsOf, LruSorted, DistinctKeys, Accounts, Admit, Total;
    var p := config.path.value;
    LoadedKeys(m);
    if p in m.loaded {
      RetainAccounts(m.refs, m.loaded, PathsOf(m.cache), m.leaked, p);
      assert m.loaded + {p} == m.loaded;
      var m1 := m.(refs := m.refs[p := Total(m.refs, p) + 1]);
      AdmitKeeps(m1, key, config, built);
      AdmitTables(m1, key, config, built);
    }
  }

  lemma LoadedKeys(m: Manager)
    requires Inv(m)
    ensures m.loaded == m.refs.Keys
  {}

  lemma TokenizerLoadedKeeps(m: Manager, result: LoadResult)
    requires Inv(m) && m.lock.Loading? && Uses(m.lock.config)
    ensures Inv(OnTokenizerLoaded(m, result)) && NewAreCurrent(m, OnTokenizerLoaded(m, result))
  {
    hide KeysOf, PathsOf, LruSorted, DistinctKeys, Accounts, Admit;
    if !result.LoadFailed? {
      var key, config := m.lock.key, m.lock.config;
      var p := config.path.value;
      NewlyLoaded(m, p);
      var m1 := m.(lock := Free, loaded := m.loaded + {p}, refs := m.refs[p := 1]);
      AdmitKeeps(m1, key, config, result.Constructed?);
      AdmitTables(m1, key, config, result.Constructed?);
    }
  }

  lemma LoadKeeps(m: Manager, key: Key, built: bool)
    requires Inv(m)
    ensures Inv(OnLoad(m, key, built)) && NewAreCurrent(m, OnLoad(m, key, built))
  {
    hide KeysOf, Inv, Touch, Enter;
    if key in KeysOf(m.cache) {
      TouchKeeps(m, key);
    } else if Current(m, key).Some? {
      if m.lock.Free? { EnterKeeps(m, key, Current(m, key).value, built); }
      MoreConfigsKeep(m, m.(waiting := m.waiting + [Entry(key, Current(m, key).value)]));
    }
  }

  // ---- configuration changes ----

  /** Configurations are added or replaced. */
  lemma MoreConfigsKeep(m: Manager, m': Manager)
    requires Inv(m) && m'.cache == m.cache
    requires m' == m.(configs := m'.configs, dynamic := m'.dynamic, registering := m'.registering, waiting := m'.waiting)
    requires m.configs.Keys <= m'.configs.Keys && m.dynamic.Keys <= m'.dynamic.Keys
    ensures Inv(m') && NewAreCurrent(m, m')
  {
    hide KeysOf, PathsOf, LruSorted, DistinctKeys, Accounts;
  }

  /** A configuration is removed together with the processor. */
  lemma RemoveKeeps(m: Manager, m1: Manager, ks: set<Key>)
    requires Inv(m) && m1 == m.(dynamic := m1.dynamic, registering := m1.registering)
    requires forall k | k in m.dynamic && k !in ks :: k in m1.dynamic
    ensures Inv(Drop(m1, ks)) && NewAreCurrent(m, Drop(m1, ks))
  {
    hide KeysOf, PathsOf, LruSorted, DistinctKeys, Accounts, Select, ReleaseAll;
    Selected(m1.cache, ks, false);
    DropKeeps(m1, ks);
  }

  lemma SyncOneKeeps(m: Manager, model: Entry)
    requires Inv(m)
    ensures var m' := SyncOne(m, model); Inv(m') && (forall e | e in m'.cache :: e in m.cache) && m'.dynamic.Keys == m.dynamic.Keys + {model.key}
  {
    hide KeysOf, PathsOf, LruSorted, DistinctKeys, Accounts, Select, ReleaseAll, Inv, SameContent;
    var m1 := m.(dynamic := m.dynamic[model.key := model.config]);
    Selected(m1.cache, {model.key}, false);
    RemoveKeeps(m, m1, {model.key});
    MoreConfigsKeep(m, m1);
  }

  lemma {:induction false} SyncAllKeeps(m: Manager, models: seq<Entry>)
    requires Inv(m)
    ensures var m' := SyncAll(m, models);
            Inv(m') && (forall e | e in m'.cache :: e in m.cache) && m'.dynamic.Keys == m.dynamic.Keys + KeysOf(models)
    decreases |models|
  {
    hide Inv, SyncOne;
    if models != [] {
      SyncOneKeeps(m, models[0]);
      SyncAllKeeps(SyncOne(m, models[0]), models[1..]);
      assert KeysOf(models) == {models[0].key} + KeysOf(models[1..]) by { HeadKeys(models); }
    }
  }

  lemma HeadKeys(es: seq<Entry>)
    requires es != []
    ensures KeysOf(es) == {es[0].key} + KeysOf(es[1..])
  {
    assert es == [es[0]] + es[1..];
    assert forall x :: x in es <==> x == es[0] || x in es[1..];
    forall k | k in {es[0].key} + KeysOf(es[1..]) ensures k in KeysOf(es) {
      if k != es[0].key {
        var x :| x in es[1..] && x.key == k;
        assert x in es;
      } else {
        assert es[0] in es;
      }
    }
  }

  lemma FullSyncKeeps(m: Manager, models: seq<Entry>)
    requires Inv(m)
    ensures Inv(OnFullSync(m, models)) && NewAreCurrent(m, OnFullSync(m, models))
  {
    hide KeysOf, Inv, SyncAll, Select, ReleaseAll, PathsOf;
    SyncAllKeeps(m, models);
    var gone := m.dynamic.Keys - KeysOf(models);
    var m1 := SyncAll(m, models);
    var m2 := m1.(dynamic := m1.dynamic - gone);
    Selected(m2.cache, gone, false);
    RemoveKeeps(m1, m2, gone);
  }

  lemma ClockKeeps(m: Manager, d: nat)
    requires Inv(m)
    ensures Inv(m.(clock := m.clock + d))
  {
    hide KeysOf, PathsOf, LruSorted, DistinctKeys, Accounts;
    LaterClock(m.cache, m.lastAccess, m.clock, m.clock + d);
  }

  lemma {:induction false} LaterClock(es: seq<Entry>, last: map<Key, nat>, clock: nat, clock': nat)
    requires LruSorted(es, last, clock) && clock <= clock'
    ensures LruSorted(es, last, clock')
  {
    if es != [] { LaterClock(es[1..], last, clock, clock'); }
  }

  lemma StepKeepsInv(m: Manager, e: Event)
    requires Inv(m) && Enabled(m, e)
    ensures Inv(Step(m, e)) && NewAreCurrent(m, Step(m, e))
  {
    hide Inv, KeysOf, Drop, Enter, OnLoad, OnTokenizerLoaded, OnFullSync, Idle, HasPath;
    match e
    case Load(key, built) => LoadKeeps(m, key, built);
    case Resume(i, built) => ResumeKeeps(m, i, built);
    case TokenizerLoaded(result) => TokenizerLoadedKeeps(m, result);
    case RegisterStatic(key, config) => MoreConfigsKeep(m, Step(m, e));
    case RegisterDynamic(key, config, persist) => MoreConfigsKeep(m, Step(m, e));
    case RegisterDone(key) => MoreConfigsKeep(m, Step(m, e));
    case RegisterFailed(key) =>
      var m1 := m.(registering := m.registering - multiset{key});
      MoreConfigsKeep(m, m1);
      RemoveKeeps(m, m1.(dynamic := m.dynamic - {key}), {key});
    case UnregisterDynamic(key) =>
      MoreConfigsKeep(m, m);
      RemoveKeeps(m, m.(dynamic := m.dynamic - {key}), {key});
    case RegisterFromConfig(key, config) => MoreConfigsKeep(m, Step(m, e));
    case UnregisterByKey(key) => RemoveKeeps(m, m.(dynamic := m.dynamic - {key}), {key});
    case FullSync(models) => FullSyncKeeps(m, models);
    case FallbackReply(key, config, built) =>
      var m1 := m.(dynamic := m.dynamic[key := config]);
      MoreConfigsKeep(m, m1);
      LoadKeeps(m1, key, built);
    case EvictIdle => RemoveKeeps(m, m, Idle(m));
    case Clear => RemoveKeeps(m, m, KeysOf(m.cache));
    case Tick(d) => ClockKeeps(m, d);
  }

  lemma ResumeKeeps(m: Manager, i: nat, built: bool)
    requires Inv(m) && m.lock.Free? && i < |m.waiting|
    ensures Inv(Step(m, Resume(i, built))) && NewAreCurrent(m, Step(m, Resume(i, built)))
  {
    hide Inv, Enter;
    var m1 := m.(waiting := m.waiting[..i] + m.waiting[i + 1..]);
    MoreConfigsKeep(m, m1);
    EnterKeeps(m1, m.waiting[i].key, m.waiting[i].config, built);
  }

  lemma {:induction false} ExecKeepsInv(m: Manager, es: seq<Event>)
    requires Inv(m) && ValidRun(m, es)
    ensures Inv(Exec(m, es))
    decreases |es|
  {
    hide Inv, Step, Enabled;
    if es != [] {
      StepKeepsInv(m, es[0]);
      ExecKeepsInv(Step(m, es[0]), es[1..]);
    }
  }

  // ---- theorems about every interleaving ----

  lemma StartInv(max: nat, timeout: nat, clock: nat)
    requires 1 <= max
    ensures Inv(Start(max, timeout, clock))
  {}

  ghost predicate LruAgrees(m: Manager) {
    && m.lastAccess.Keys == KeysOf(m.cache)
    && (forall i, j | 0 <= i < j < |m.cache| ::
          && m.cache[i].key in m.lastAccess && m.cache[j].key in m.lastAccess
          && m.cache[i].key != m.cache[j].key && m.lastAccess[m.cache[i].key] <= m.lastAccess[m.cache[j].key])
  }

  lemma {:induction false} SortedAt(es: seq<Entry>, last: map<Key, nat>, clock: nat, i: nat, j: nat)
    requires DistinctKeys(es) && LruSorted(es, last, clock) && i < j < |es|
    ensures es[i].key in last && es[j].key in last && es[i].key != es[j].key && last[es[i].key] <= last[es[j].key]
  {
    if i == 0 {
      assert es[j] == es[1..][j - 1] && es[j] in es[1..];
    } else {
      SortedAt(es[1..], last, clock, i - 1, j - 1);
    }
  }

  /** In every reachable state the cache is within its bound, every cached model has a configuration, the cache is in
      the order of the last accesses, and the tokenizer counts are exact. */
  lemma CacheIsSafe(max: nat, timeout: nat, clock: nat, es: seq<Event>)
    requires 1 <= max && ValidRun(Start(max, timeout, clock), es)
    ensures var m := Exec(Start(max, timeout, clock), es);
            && |m.cache| <= m.max
            && (forall e | e in m.cache :: Current(m, e.key).Some?)
            && LruAgrees(m)
            && (forall p :: Total(m.refs, p) == PathsOf(m.cache)[p] + m.leaked[p])
            && m.loaded == m.refs.Keys && (forall p | p in m.refs :: m.refs[p] >= 1)
  {
    hide Start, ValidRun, Exec, KeysOf, Select, PathsOf;
    StartInv(max, timeout, clock);
    ExecKeepsInv(Start(max, timeout, clock), es);
    var m := Exec(Start(max, timeout, clock), es);
    forall i, j | 0 <= i < j < |m.cache|
      ensures m.cache[i].key in m.lastAccess && m.cache[j].key in m.lastAccess
      ensures m.cache[i].key != m.cache[j].key && m.lastAccess[m.cache[i].key] <= m.lastAccess[m.cache[j].key]
    {
      SortedAt(m.cache, m.lastAccess, m.clock, i, j);
    }
  }

  /** The processor that is evicted to make room is one whose last access is furthest back. */
  lemma VictimIsOldest(m: Manager)
    requires Inv(m) && m.cache != []
    ensures var m' := EvictOne(m); var victim := m.cache[0];
            && m'.cache == m.cache[1..]
            && (forall k | k in m'.lastAccess :: k in m.lastAccess && victim.key in m.lastAccess && m.lastAccess[victim.key] <= m'.lastAccess[k])
  {
    hide PathsOf, Select, Accounts, ReleaseAll;
    NoneSelected(m.cache[1..], m.cache[0].key);
    HeadKeys(m.cache);
    SelectHead(m.cache);
    forall k | k in m.lastAccess && k != m.cache[0].key ensures m.lastAccess[m.cache[0].key] <= m.lastAccess[k] {
      var e :| e in m.cache[1..] && e.key == k;
    }
  }

  lemma SelectHead(es: seq<Entry>)
    requires es != []
    ensures Select(es, {es[0].key}, false) == Select(es[1..], {es[0].key}, false)
  {}

  /** Idle eviction removes exactly the processors whose last access is further back than the timeout. */
  lemma IdleEvictionIsExact(m: Manager)
    requires Inv(m)
    ensures forall e :: e in Step(m, EvictIdle).cache <==>
              e in m.cache && e.key in m.lastAccess && m.clock - m.lastAccess[e.key] <= m.timeout
    ensures Inv(Step(m, EvictIdle))
  {
    hide PathsOf, Select, AccountsOk, ReleaseAll, DistinctKeys, LruSorted;
    StepKeepsInv(m, EvictIdle);
    Selected(m.cache, Idle(m), false);
  }

  // ---- when cached processors are up to date ----

  ghost predicate FreshCache(m: Manager) {
    forall e | e in m.cache :: Current(m, e.key) == Some(e.config)
  }

  /** A notification or a database fallback replaces the configuration of a cached model. */
  predicate Overwrites(m: Manager, e: Event) {
    match e
    case RegisterFromConfig(key, config) => key !in m.configs && key in KeysOf(m.cache) && Current(m, key) != Some(config)
    case FallbackReply(key, config, _) => key !in m.configs && key in KeysOf(m.cache) && Current(m, key) != Some(config)
    case _ => false
  }

  lemma DropFresh(m: Manager, m1: Manager, ks: set<Key>)
    requires FreshCache(m) && m1 == m.(dynamic := m1.dynamic, registering := m1.registering)
    requires forall k | k in m.dynamic && k !in ks :: k in m1.dynamic && m1.dynamic[k] == m.dynamic[k]
    ensures FreshCache(Drop(m1, ks))
  {
    hide Select, PathsOf, ReleaseAll;
    Selected(m1.cache, ks, false);
  }

  lemma InsertFresh(m: Manager, m': Manager)
    requires FreshCache(m) && NewAreCurrent(m, m') && m'.configs == m.configs && m'.dynamic == m.dynamic
    ensures FreshCache(m')
  {}

  lemma {:induction false} EvictDownTables(m: Manager)
    ensures EvictDown(m).configs == m.configs && EvictDown(m).dynamic == m.dynamic
    decreases |m.cache|
  {
    hide Select, ReleaseAll, PathsOf;
    if |m.cache| >= m.max && m.cache != [] {
      SelectSize(m.cache, m.cache[0].key);
      EvictDownTables(EvictOne(m));
    }
  }

  lemma EnterTables(m: Manager, key: Key, config: Config, built: bool)
    ensures var m' := Enter(m, key, config, built); m'.configs == m.configs && m'.dynamic == m.dynamic
  {
    hide EvictDown, Admit, Select, KeysOf, Uses, HasPath;
    var m1 := EvictDown(m);
    EvictDownTables(m);
    AdmitTables(m1, key, config, built);
    if Uses(config) { AcquireTables(m1, key, config, built); }
  }

  lemma AcquireTables(m: Manager, key: Key, config: Config, built: bool)
    requires Uses(config)
    ensures var m' := Admit(m.(refs := m.refs[config.path.value := Total(m.refs, config.path.value) + 1]), key, config, built);
            m'.configs == m.configs && m'.dynamic == m.dynamic
  {
    hide Admit, Total;
    AdmitTables(m.(refs := m.refs[config.path.value := Total(m.refs, config.path.value) + 1]), key, config, built);
  }

  lemma LoadTables(m: Manager, key: Key, built: bool)
    ensures var m' := OnLoad(m, key, built); m'.configs == m.configs && m'.dynamic == m.dynamic
  {
    hide Enter, Select, KeysOf;
    if Current(m, key).Some? { EnterTables(m, key, Current(m, key).value, built); }
  }

  lemma SyncOneFresh(m: Manager, model: Entry)
    requires Inv(m) && FreshCache(m)
    ensures FreshCache(SyncOne(m, model))
  {
    hide KeysOf, Drop, LruOk, AccountsOk, LockOk, SameContent;
    var m1 := m.(dynamic := m.dynamic[model.key := model.config]);
    if model.key in m.dynamic && !SameContent(m.dynamic[model.key], model.config) { DropFresh(m, m1, {model.key}); }
  }

  lemma {:induction false} SyncAllFresh(m: Manager, models: seq<Entry>)
    requires Inv(m) && FreshCache(m)
    ensures FreshCache(SyncAll(m, models))
    decreases |models|
  {
    hide Inv, SyncOne, FreshCache;
    if models != [] {
      SyncOneKeeps(m, models[0]);
      SyncOneFresh(m, models[0]);
      SyncAllFresh(SyncOne(m, models[0]), models[1..]);
    }
  }

  /** A step from a state whose cached processors are all up to date keeps them so exactly if it does not replace the
      configuration of a cached model. */
  lemma StepFreshIff(m: Manager, e: Event)
    requires Inv(m) && Enabled(m, e) && FreshCache(m)
    ensures FreshCache(Step(m, e)) <==> !Overwrites(m, e)
  {
    hide Inv, KeysOf, Drop, Enter, OnLoad, Idle, HasPath, FreshCache, SyncAll, Current;
    match e
    case Load(key, built) => LoadKeeps(m, key, built); LoadTables(m, key, built); InsertFresh(m, Step(m, e));
    case Resume(i, built) => ResumeFresh(m, i, built);
    case TokenizerLoaded(result) => TokenizerLoadedKeeps(m, result); TokenizerTables(m, result); InsertFresh(m, Step(m, e));
    case RegisterStatic(key, config) => NewKeyFresh(m, Step(m, e), key);
    case RegisterDynamic(key, config, persist) => NewKeyFresh(m, Step(m, e), key);
    case RegisterDone(key) => InsertFresh(m, Step(m, e));
    case RegisterFailed(key) =>
      InsertFresh(m, m.(registering := m.registering - multiset{key}));
      DropFresh(m, m.(registering := m.registering - multiset{key}, dynamic := m.dynamic - {key}), {key});
    case UnregisterDynamic(key) => DropFresh(m, m.(dynamic := m.dynamic - {key}), {key});
    case RegisterFromConfig(key, config) => OverwriteIff(m, key, config);
    case UnregisterByKey(key) => DropFresh(m, m.(dynamic := m.dynamic - {key}), {key});
    case FullSync(models) => FullSyncFresh(m, models);
    case FallbackReply(key, config, built) => FallbackFreshIff(m, key, config, built);
    case EvictIdle => DropFresh(m, m, Idle(m));
    case Clear => DropFresh(m, m, KeysOf(m.cache));
    case Tick(d) => InsertFresh(m, Step(m, e));
  }

  /** Every state of the run has only processors that are up to date. */
  ghost predicate FreshThroughout(m: Manager, es: seq<Event>)
    requires ValidRun(m, es)
    decreases |es|
  {
    FreshCache(m) && (es == [] || FreshThroughout(Step(m, es[0]), es[1..]))
  }

  ghost predicate NeverOverwrites(m: Manager, es: seq<Event>)
    requires ValidRun(m, es)
    decreases |es|
  {
    es == [] || (!Overwrites(m, es[0]) && NeverOverwrites(Step(m, es[0]), es[1..]))
  }

  lemma {:induction false} FreshRunIff(m: Manager, es: seq<Event>)
    requires Inv(m) && FreshCache(m) && ValidRun(m, es)
    ensures FreshThroughout(m, es) <==> NeverOverwrites(m, es)
    decreases |es|
  {
    hide Inv, FreshCache, Step, Enabled, Overwrites;
    if es != [] {
      StepFreshIff(m, es[0]);
      StepKeepsInv(m, es[0]);
      if !Overwrites(m, es[0]) { FreshRunIff(Step(m, es[0]), es[1..]); }
    }
  }

  /** For every run from the start: the cached processors are up to date all the time exactly if no notification or
      fallback ever replaces the configuration of a model that is cached at that moment. */
  lemma FreshThroughoutIff(max: nat, timeout: nat, clock: nat, es: seq<Event>)
    requires 1 <= max && ValidRun(Start(max, timeout, clock), es)
    ensures FreshThroughout(Start(max, timeout, clock), es) <==> NeverOverwrites(Start(max, timeout, clock), es)
  {
    hide ValidRun, FreshThroughout, NeverOverwrites;
    StartInv(max, timeout, clock);
    FreshRunIff(Start(max, timeout, clock), es);
  }

  /** A run that ends with a stale processor: a model is registered and used, then a notification brings a new
      configuration. */
  lemma NotificationMakesStale(max: nat, timeout: nat, clock: nat, key: Key, config: Config, config': Config)
    requires 1 <= max && !config.tito && config' != config
    ensures var es := [RegisterDynamic(key, config, false), Load(key, true), RegisterFromConfig(key, config')];
            && ValidRun(Start(max, timeout, clock), es)
            && var m := Exec(Start(max, timeout, clock), es);
               m.cache == [Entry(key, config)] && Current(m, key) == Some(config')
  {
    var m0 := Start(max, timeout, clock);
    var e1, e2, e3 := RegisterDynamic(key, config, false), Load(key, true), RegisterFromConfig(key, config');
    var m1 := Step(m0, e1);
    var m2 := Step(m1, e2);
    assert KeysOf(m1.cache) == {};
    assert m2.cache == [Entry(key, config)];
    NoEvent(Step(m2, e3));
    RunOf(m2, e3, []);
    RunOf(m1, e2, [e3]);
    RunOf(m0, e1, [e2, e3]);
  }

  lemma NoEvent(m: Manager)
    ensures ValidRun(m, []) && Exec(m, []) == m
  {}

  lemma RunOf(m: Manager, e: Event, es: seq<Event>)
    requires Enabled(m, e) && ValidRun(Step(m, e), es)
    ensures ValidRun(m, [e] + es) && Exec(m, [e] + es) == Exec(Step(m, e), es)
  {
    hide Step, Enabled;
    assert ([e] + es)[1..] == es;
  }

  lemma TokenizerTables(m: Manager, result: LoadResult)
    requires m.lock.Loading? && Uses(m.lock.config)
    ensures var m' := OnTokenizerLoaded(m, result); m'.configs == m.configs && m'.dynamic == m.dynamic
  {
    hide Admit;
    var p := m.lock.config.path.value;
    AdmitTables(m.(lock := Free, loaded := m.loaded + {p}, refs := m.refs[p := 1]), m.lock.key, m.lock.config, result.Constructed?);
  }

  lemma ResumeFresh(m: Manager, i: nat, built: bool)
    requires Inv(m) && m.lock.Free? && i < |m.waiting| && FreshCache(m)
    ensures FreshCache(Step(m, Resume(i, built)))
  {
    hide Inv, Enter, FreshCache;
    ResumeKeeps(m, i, built);
    EnterTables(m.(waiting := m.waiting[..i] + m.waiting[i + 1..]), m.waiting[i].key, m.waiting[i].config, built);
    InsertFresh(m, Step(m, Resume(i, built)));
  }

  /** A key without a configuration is not cached. */
  lemma NewKeyFresh(m: Manager, m': Manager, key: Key)
    requires Inv(m) && FreshCache(m) && m'.cache == m.cache
    requires m' == m || (key !in m.configs && key !in m.dynamic && m'.configs - {key} == m.configs && m'.dynamic - {key} == m.dynamic)
    ensures FreshCache(m')
  {
    hide KeysOf, LruOk, AccountsOk, LockOk;
    if m' != m {
      forall e | e in m'.cache ensures Current(m', e.key) == Some(e.config) {
        assert Current(m, e.key) == Some(e.config);
        assert e.key != key;
        assert e.key in m'.configs - {key} <==> e.key in m.configs;
        assert e.key in m'.dynamic - {key} <==> e.key in m.dynamic;
      }
    }
  }

  lemma OverwriteIff(m: Manager, key: Key, config: Config)
    requires FreshCache(m)
    ensures FreshCache(m.(dynamic := m.dynamic[key := config])) <==> !Overwrites(m, RegisterFromConfig(key, config))
  {}

  lemma FallbackFreshIff(m: Manager, key: Key, config: Config, built: bool)
    requires Inv(m) && FreshCache(m)
    ensures FreshCache(Step(m, FallbackReply(key, config, built))) <==> !Overwrites(m, FallbackReply(key, config, built))
  {
    hide Inv, KeysOf, OnLoad, FreshCache, Current;
    var m1 := m.(dynamic := m.dynamic[key := config]);
    OverwriteIff(m, key, config);
    MoreConfigsKeep(m, m1);
    LoadKeeps(m1, key, built);
    LoadTables(m1, key, built);
    if FreshCache(m1) {
      InsertFresh(m1, OnLoad(m1, key, built));
    } else {
      StaleTouch(m1, key, built);
    }
  }

  lemma StaleTouch(m: Manager, key: Key, built: bool)
    requires Inv(m) && !FreshCache(m) && key in KeysOf(m.cache)
    ensures !FreshCache(OnLoad(m, key, built))
  {
    hide Inv, KeysOf, Touch, Current;
    TouchKeeps(m, key);
    LoadTables(m, key, built);
    var e :| e in m.cache && Current(m, e.key) != Some(e.config);
    assert e in Touch(m, key).cache;
    SameCurrent(m, Touch(m, key), e.key);
  }

  lemma SameCurrent(m: Manager, m': Manager, key: Key)
    requires m'.configs == m.configs && m'.dynamic == m.dynamic
    ensures Current(m', key) == Current(m, key)
  {}

  lemma FullSyncFresh(m: Manager, models: seq<Entry>)
    requires Inv(m) && FreshCache(m)
    ensures FreshCache(OnFullSync(m, models))
  {
    hide Inv, KeysOf, SyncAll, Drop, FreshCache;
    SyncAllFresh(m, models);
    var m1, gone := SyncAll(m, models), m.dynamic.Keys - KeysOf(models);
    DropFresh(m1, m1.(dynamic := m1.dynamic - gone), gone);
  }

  // ---- the leak of a constructor that raises ----

  predicate Raises(e: Event) {
    match e
    case Load(_, built) => !built
    case Resume(_, built) => !built
    case FallbackReply(_, _, built) => !built
    case TokenizerLoaded(result) => result.ConstructorRaised?
    case _ => false
  }

  lemma AdmitLeak(m: Manager, key: Key, config: Config, built: bool)
    ensures var m' := Admit(m, key, config, built); m'.leaked == if built then m.leaked else m.leaked + Held(config)
  {
    hide Uses, ReleaseAll;
    assert m.leaked + multiset{} == m.leaked;
  }

  lemma {:induction false} EvictDownLeak(m: Manager)
    ensures EvictDown(m).leaked == m.leaked
    decreases |m.cache|
  {
    hide Select, ReleaseAll, PathsOf;
    if |m.cache| >= m.max && m.cache != [] {
      SelectSize(m.cache, m.cache[0].key);
      EvictDownLeak(EvictOne(m));
    }
  }

  lemma EnterLeak(m: Manager, key: Key, config: Config, built: bool)
    ensures var m' := Enter(m, key, config, built); m.leaked <= m'.leaked && (built ==> m'.leaked == m.leaked)
  {
    hide EvictDown, Admit, Select, KeysOf, Total, Held;
    var m1 := EvictDown(m);
    EvictDownLeak(m);
    AdmitLeak(m1, key, config, built);
    if Uses(config) { AdmitLeak(m1.(refs := m1.refs[config.path.value := Total(m1.refs, config.path.value) + 1]), key, config, built); }
  }

  lemma {:induction false} SyncAllLeak(m: Manager, models: seq<Entry>)
    ensures SyncAll(m, models).leaked == m.leaked
    decreases |models|
  {
    hide Select, ReleaseAll, PathsOf, SameContent;
    if models != [] { SyncAllLeak(SyncOne(m, models[0]), models[1..]); }
  }

  /** Nothing but a raising constructor leaks a tokenizer reference, and no step takes one back. */
  lemma StepLeak(m: Manager, e: Event)
    requires Enabled(m, e)
    ensures m.leaked <= Step(m, e).leaked && (!Raises(e) ==> Step(m, e).leaked == m.leaked)
  {
    hide Enter, KeysOf, Idle, Select, ReleaseAll, PathsOf, SyncAll, Admit;
    match e
    case Load(key, built) => if Current(m, key).Some? { EnterLeak(m, key, Current(m, key).value, built); }
    case Resume(i, built) => EnterLeak(m.(waiting := m.waiting[..i] + m.waiting[i + 1..]), m.waiting[i].key, m.waiting[i].config, built);
    case TokenizerLoaded(result) =>
      var p := m.lock.config.path.value;
      AdmitLeak(m.(lock := Free, loaded := m.loaded + {p}, refs := m.refs[p := 1]), m.lock.key, m.lock.config, result.Constructed?);
    case FallbackReply(key, config, built) =>
      var m1 := m.(dynamic := m.dynamic[key := config]);
      if Current(m1, key).Some? { EnterLeak(m1, key, Current(m1, key).value, built); }
    case FullSync(models) => SyncAllLeak(m, models);
    case _ =>
  }

  lemma {:induction false} ExecLeak(m: Manager, es: seq<Event>)
    requires ValidRun(m, es)
    ensures m.leaked <= Exec(m, es).leaked
    ensures (forall e | e in es :: !Raises(e)) ==> Exec(m, es).leaked == m.leaked
    decreases |es|
  {
    hide Step, Enabled;
    if es != [] {
      StepLeak(m, es[0]);
      ExecLeak(Step(m, es[0]), es[1..]);
    }
  }

  /** If no constructor raises, the count of a tokenizer is the number of cached processors that use it, in every
      reachable state: a tokenizer is loaded exactly while a cached processor uses it. */
  lemma TokenizerCountsAreExact(max: nat, timeout: nat, clock: nat, es: seq<Event>)
    requires 1 <= max && ValidRun(Start(max, timeout, clock), es) && forall e | e in es :: !Raises(e)
    ensures var m := Exec(Start(max, timeout, clock), es);
            && (forall p :: Total(m.refs, p) == PathsOf(m.cache)[p])
            && (forall p :: p in m.loaded <==> p in PathsOf(m.cache))
  {
    hide ValidRun, Exec, KeysOf, PathsOf, LruAgrees;
    CacheIsSafe(max, timeout, clock, es);
    ExecLeak(Start(max, timeout, clock), es);
  }

  /** A reference leaked by a raising constructor keeps its tokenizer in memory for good, even when the cache is
      cleared. */
  lemma LeakIsForGood(m: Manager, es: seq<Event>, p: string)
    requires Inv(m) && ValidRun(m, es) && p in m.leaked
    ensures p in Exec(m, es).loaded && Total(Exec(m, es).refs, p) >= m.leaked[p]
  {
    hide ValidRun, Exec, LruOk, PathsOf, LockOk;
    ExecKeepsInv(m, es);
    ExecLeak(m, es);
  }

  /** A run that leaks: the tokenizer of a registered model is loaded, and the constructor of its processor raises. The
      cache is empty and the tokenizer is held. */
  lemma RaisingConstructorLeaks(max: nat, timeout: nat, clock: nat, key: Key, config: Config)
    requires 1 <= max && Uses(config)
    ensures var es := [RegisterDynamic(key, config, false), Load(key, true), TokenizerLoaded(ConstructorRaised)];
            && ValidRun(Start(max, timeout, clock), es)
            && var m := Exec(Start(max, timeout, clock), es);
               m.cache == [] && config.path.value in m.leaked && config.path.value in m.loaded
  {
    var m0 := Start(max, timeout, clock);
    var e1, e2, e3 := RegisterDynamic(key, config, false), Load(key, true), TokenizerLoaded(ConstructorRaised);
    var m1 := Step(m0, e1);
    var m2 := Step(m1, e2);
    assert KeysOf(m1.cache) == {};
    assert m2.lock == Loading(key, config) && m2.cache == [];
    NoEvent(Step(m2, e3));
    RunOf(m2, e3, []);
    RunOf(m1, e2, [e3]);
    RunOf(m0, e1, [e2, e3]);
  }

  // ---- full synchronisation ----

  lemma {:induction false} SyncAllAgrees(m: Manager, models: seq<Entry>)
    requires DistinctKeys(models)
    ensures var m' := SyncAll(m, models);
            && m'.dynamic.Keys == m.dynamic.Keys + KeysOf(models)
            && (forall k | k in m.dynamic && k !in KeysOf(models) :: m'.dynamic[k] == m.dynamic[k])
            && (forall e | e in models :: SameContent(m'.dynamic[e.key], e.config))
    decreases |models|
  {
    hide Drop, SameContent;
    if models != [] {
      var m1 := SyncOne(m, models[0]);
      SyncOneTables(m, models[0]);
      SyncAllAgrees(m1, models[1..]);
      HeadKeys(models);
    }
  }

  lemma SyncOneTables(m: Manager, model: Entry)
    ensures var m' := SyncOne(m, model);
            && m'.dynamic.Keys == m.dynamic.Keys + {model.key} && SameContent(m'.dynamic[model.key], model.config)
            && forall k | k in m.dynamic && k != model.key :: m'.dynamic[k] == m.dynamic[k]
  {
    hide Select, ReleaseAll, PathsOf;
  }

  /** After a full synchronisation the dynamic models are those of the database, with the same contents. */
  lemma FullSyncAgrees(m: Manager, models: seq<Entry>)
    requires DistinctKeys(models)
    ensures var m' := OnFullSync(m, models);
            && m'.dynamic.Keys == KeysOf(models)
            && (forall e | e in models :: SameContent(m'.dynamic[e.key], e.config))
            && m'.configs == m.configs
  {
    hide KeysOf, SyncAll, Select, ReleaseAll, PathsOf, SameContent;
    SyncAllAgrees(m, models);
    SyncAllStatic(m, models);
    InKeys(models);
  }

  lemma InKeys(es: seq<Entry>)
    ensures forall e | e in es :: e.key in KeysOf(es)
  {}

  lemma {:induction false} SyncAllStatic(m: Manager, models: seq<Entry>)
    ensures SyncAll(m, models).configs == m.configs
    decreases |models|
  {
    hide Select, ReleaseAll, PathsOf, SameContent;
    if models != [] { SyncAllStatic(SyncOne(m, models[0]), models[1..]); }
  }
}
