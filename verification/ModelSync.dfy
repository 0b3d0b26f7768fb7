/** How a worker's table of dynamic models follows the model registry: writes of this worker and of others, the
    notifications they send, and the handler that reads the registry before it applies what it read. */
module ModelSync {
  import opened Text
  import opened ProcessorCache

  /** What a registration says about a model. */
  datatype Content = Content(path: Option<string>, tito: bool, url: string, apiKey: string, toolParser: string, reasoningParser: string)

  datatype Action = Register | Unregister

  datatype Note = Note(action: Action, key: Key)

  /** The handler of one notification: it reads the registry, then applies what it read. */
  datatype Handler = Idle | Reading(key: Key) | Applying(key: Key, content: Content)

  /** A local change that waits for the database. */
  datatype Write = Registering(key: Key, content: Content) | Unregistering(key: Key)

  /** `db`: the registry; `local`: the dynamic models of the worker; `queue`: its notifications, oldest first;
      `dirty`: the models that a failed write or handler has left different from the registry. */
  datatype World = World(
    db: map<Key, Content>, local: map<Key, Content>, queue: seq<Note>, handler: Handler,
    writes: multiset<Write>, dirty: set<Key>)

  datatype SyncEvent =
    | RemoteRegister(key: Key, content: Content)
    | RemoteUnregister(key: Key)
    | LocalRegister(key: Key, content: Content)
    | LocalUnregister(key: Key)
    | Commit(write: Write)
    | Fail(write: Write)
    | Receive
    | Read
    | ReadFails(synced: bool)
    | Apply
    | Periodic
    | Fallback(key: Key)

  // ---- the moves ----

  /** Every registration passes an absent tokenizer path to the registry as an empty string. */
  function Stored(c: Content): Content {
    if c.path.None? then c.(path := Some("")) else c
  }

  /** An upsert, with its notification in the same transaction. */
  function Upsert(w: World, key: Key, content: Content): World {
    w.(db := w.db[key := Stored(content)], queue := w.queue + [Note(Register, key)])
  }

  /** A delete notifies only if there was a row. */
  function Delete(w: World, key: Key): World {
    if key in w.db then w.(db := w.db - {key}, queue := w.queue + [Note(Unregister, key)]) else w
  }

  function SyncTable(w: World): World {
    w.(local := w.db, dirty := {})
  }

  function OnReceive(w: World): World
    requires w.queue != []
  {
    var note := w.queue[0];
    var w1 := w.(queue := w.queue[1..]);
    if note.action.Register? then w1.(handler := Reading(note.key))
    else w1.(local := w1.local - {note.key}, dirty := w1.dirty - {note.key})
  }

  /** The registry answers; a model that is not there makes the handler synchronise everything. */
  function OnRead(w: World): World
    requires w.handler.Reading?
  {
    var key := w.handler.key;
    if key in w.db then w.(handler := Applying(key, w.db[key])) else SyncTable(w).(handler := Idle)
  }

  function OnFail(w: World, write: Write): World {
    var w1 := w.(writes := w.writes - multiset{write});
    match write
    case Registering(key, _) => MarkDirty(w1.(local := w1.local - {key}), key)
    case Unregistering(key) => MarkDirty(w1, key)
  }

  function MarkDirty(w: World, key: Key): World {
    if Agree(w, key) || Pending(w, key) then w else w.(dirty := w.dirty + {key})
  }

  predicate AgreeAt(local: map<Key, Content>, db: map<Key, Content>, key: Key) {
    (key in local <==> key in db) && (key in local ==> local[key] == db[key])
  }

  predicate Agree(w: World, key: Key) {
    AgreeAt(w.local, w.db, key)
  }

  /** The last notification about `key` that is still queued. */
  function Last(queue: seq<Note>, key: Key): Option<Action> {
    if queue == [] then None
    else if queue[|queue| - 1].key == key then Some(queue[|queue| - 1].action)
    else Last(queue[..|queue| - 1], key)
  }

  /** A notification about `key` is queued or being handled. */
  predicate Pending(w: World, key: Key) {
    Last(w.queue, key).Some? || (!w.handler.Idle? && w.handler.key == key)
  }

  predicate Possible(w: World, e: SyncEvent) {
    match e
    case LocalRegister(key, _) => key !in w.local
    case LocalUnregister(key) => key in w.local
    case Commit(write) => write in w.writes
    case Fail(write) => write in w.writes
    case Receive => w.handler.Idle? && w.queue != []
    case Read => w.handler.Reading?
    case ReadFails(_) => w.handler.Reading?
    case Apply => w.handler.Applying?
    case _ => true
  }

  function Next(w: World, e: SyncEvent): World
    requires Possible(w, e)
  {
    match e
    case RemoteRegister(key, content) => Upsert(w, key, content)
    case RemoteUnregister(key) => Delete(w, key)
    case LocalRegister(key, content) =>
      w.(local := w.local[key := content], writes := w.writes + multiset{Registering(key, content)})
    case LocalUnregister(key) => w.(local := w.local - {key}, writes := w.writes + multiset{Unregistering(key)})
    case Commit(write) =>
      var w1 := w.(writes := w.writes - multiset{write});
      if write.Registering? then Upsert(w1, write.key, write.content) else Delete(w1, write.key)
    case Fail(write) => OnFail(w, write)
    case Receive => OnReceive(w)
    case Read => OnRead(w)
    case ReadFails(synced) =>
      if synced then SyncTable(w).(handler := Idle) else MarkDirty(w.(handler := Idle), w.handler.key)
    case Apply =>
      w.(local := w.local[w.handler.key := w.handler.content], dirty := w.dirty - {w.handler.key}, handler := Idle)
    case Periodic => SyncTable(w)
    case Fallback(key) => if key !in w.local && key in w.db then w.(local := w.local[key := w.db[key]]) else w
  }

  ghost predicate ValidTrace(w: World, es: seq<SyncEvent>)
    decreases |es|
  {
    es == [] || (Possible(w, es[0]) && ValidTrace(Next(w, es[0]), es[1..]))
  }

  function After(w: World, es: seq<SyncEvent>): World
    requires ValidTrace(w, es)
    decreases |es|
  {
    if es == [] then w else After(Next(w, es[0]), es[1..])
  }

  // ---- what every step keeps ----

  ghost predicate IsRegistering(w: World, key: Key) {
    exists c :: Registering(key, c) in w.writes
  }

  /** Where a model stands: what is pending brings it to the state of the registry, and with nothing pending it
      agrees, unless a local write is in flight or one has failed. */
  ghost predicate Ok(w: World, key: Key) {
    if Last(w.queue, key).Some? then Last(w.queue, key).value == (if key in w.db then Register else Unregister)
    else if w.handler.Reading? && w.handler.key == key then true
    else if w.handler.Applying? && w.handler.key == key then key in w.db && w.db[key] == w.handler.content
    else if IsRegistering(w, key) then true
    else if Unregistering(key) in w.writes then key !in w.local || Agree(w, key) || key in w.dirty
    else Agree(w, key) || key in w.dirty
  }

  lemma {:induction false} LastAppend(queue: seq<Note>, note: Note, key: Key)
    ensures Last(queue + [note], key) == if note.key == key then Some(note.action) else Last(queue, key)
  {
    assert (queue + [note])[..|queue|] == queue;
  }

  lemma {:induction false} LastTail(queue: seq<Note>, key: Key)
    requires queue != []
    ensures Last(queue, key) ==
              if Last(queue[1..], key).Some? then Last(queue[1..], key)
              else if queue[0].key == key then Some(queue[0].action) else None
  {
    if |queue| == 1 {
      assert queue[..0] == [] && queue[1..] == [];
    } else {
      var init := queue[..|queue| - 1];
      LastTail(init, key);
      assert init[1..] == queue[1..][..|queue[1..]| - 1];
      assert queue[1..][|queue[1..]| - 1] == queue[|queue| - 1];
    }
  }

  lemma UpsertKeeps(w: World, k: Key, content: Content, key: Key)
    requires key == k || Ok(w, key)
    ensures Ok(Upsert(w, k, content), key)
  {
    hide Last, IsRegistering, Stored;
    LastAppend(w.queue, Note(Register, k), key);
    SameWrites(w, Upsert(w, k, content), key);
  }

  lemma DeleteKeeps(w: World, k: Key, key: Key)
    requires Ok(w, key) || (key == k && k in w.db)
    ensures Ok(Delete(w, k), key)
  {
    hide Last, IsRegistering;
    LastAppend(w.queue, Note(Unregister, k), key);
    SameWrites(w, Delete(w, k), key);
  }

  lemma CommitKeeps(w: World, write: Write, key: Key)
    requires Ok(w, key) && write in w.writes
    ensures Ok(Next(w, Commit(write)), key)
  {
    hide Last, Upsert, Delete, Stored;
    var w1 := w.(writes := w.writes - multiset{write});
    OtherWrites(w, write);
    if write.Registering? {
      if key != write.key { FewerWrites(w, write, key); }
      UpsertKeeps(w1, write.key, write.content, key);
    } else {
      if key != write.key || key !in w.db { FewerWrites(w, write, key); }
      DeleteKeeps(w1, write.key, key);
    }
  }

  lemma OtherWrites(w: World, write: Write)
    ensures forall x :: x in w.writes - multiset{write} ==> x in w.writes
    ensures forall x | x != write && x in w.writes :: x in w.writes - multiset{write}
  {}

  /** A write of another model, or the delete of a model that the registry does not have, is finished. */
  lemma FewerWrites(w: World, write: Write, key: Key)
    requires Ok(w, key) && write in w.writes && (write.key != key || (write.Unregistering? && key !in w.db))
    ensures Ok(w.(writes := w.writes - multiset{write}), key)
  {
    hide Last;
    OtherWrites(w, write);
    var w1 := w.(writes := w.writes - multiset{write});
    assert IsRegistering(w1, key) <==> IsRegistering(w, key) by {
      if IsRegistering(w, key) {
        var c :| Registering(key, c) in w.writes;
        assert Registering(key, c) in w1.writes;
      }
    }
  }

  lemma FailKeeps(w: World, write: Write, key: Key)
    requires Ok(w, key) && write in w.writes
    ensures Ok(OnFail(w, write), key)
  {
    hide Last, Ok;
    if write.key != key {
      FewerWrites(w, write, key);
      OtherKeyKeeps(w.(writes := w.writes - multiset{write}), OnFail(w, write), key) by { OnFailFrame(w, write, key); }
    } else {
      FailedKeyKeeps(w, write);
    }
  }

  lemma OnFailFrame(w: World, write: Write, key: Key)
    requires write.key != key
    ensures var w' := OnFail(w, write);
            && w'.db == w.db && w'.queue == w.queue && w'.handler == w.handler && w'.writes == w.writes - multiset{write}
            && (key in w'.local <==> key in w.local) && (key in w.local ==> w'.local[key] == w.local[key])
            && (key in w'.dirty <==> key in w.dirty)
  {
    hide Last;
  }

  /** Whatever happens to other models. */
  lemma OtherKeyKeeps(w: World, w': World, key: Key)
    requires Ok(w, key)
    requires w'.db == w.db && w'.queue == w.queue && w'.handler == w.handler && w'.writes == w.writes
    requires (key in w'.local <==> key in w.local) && (key in w.local ==> w'.local[key] == w.local[key])
    requires key in w'.dirty <==> key in w.dirty
    ensures Ok(w', key)
  {
    hide Last;
  }

  lemma FailedKeyKeeps(w: World, write: Write)
    requires Ok(w, write.key) && write in w.writes
    ensures Ok(OnFail(w, write), write.key)
  {
    hide Last;
    OtherWrites(w, write);
  }

  lemma ReceiveKeeps(w: World, key: Key)
    requires Ok(w, key) && w.handler.Idle? && w.queue != []
    ensures Ok(OnReceive(w), key)
  {
    hide Last, IsRegistering;
    LastTail(w.queue, key);
    assert IsRegistering(OnReceive(w), key) <==> IsRegistering(w, key) by { SameWrites(w, OnReceive(w), key); }
  }

  lemma SameWrites(w: World, w': World, key: Key)
    requires w'.writes == w.writes
    ensures IsRegistering(w', key) <==> IsRegistering(w, key)
  {}

  lemma LocalKeeps(w: World, e: SyncEvent, key: Key)
    requires Ok(w, key) && Possible(w, e) && (e.LocalRegister? || e.LocalUnregister?)
    ensures Ok(Next(w, e), key)
  {
    hide Last;
    var w' := Next(w, e);
    assert forall x | x in w.writes :: x in w'.writes;
    if e.LocalRegister? && e.key == key {
      assert Registering(key, e.content) in w'.writes;
    } else {
      assert IsRegistering(w', key) <==> IsRegistering(w, key);
    }
  }

  lemma StepKeepsOk(w: World, e: SyncEvent, key: Key)
    requires Ok(w, key) && Possible(w, e)
    ensures Ok(Next(w, e), key)
  {
    hide Last, IsRegistering, OnReceive, OnFail, Upsert, Delete, Stored;
    match e
    case RemoteRegister(k, content) => UpsertKeeps(w, k, content, key);
    case RemoteUnregister(k) => DeleteKeeps(w, k, key);
    case Commit(write) => CommitKeeps(w, write, key);
    case Fail(write) => FailKeeps(w, write, key);
    case Receive => ReceiveKeeps(w, key);
    case LocalRegister(_, _) => LocalKeeps(w, e, key);
    case LocalUnregister(_) => LocalKeeps(w, e, key);
    case Read => SameWrites(w, Next(w, e), key);
    case ReadFails(_) => SameWrites(w, Next(w, e), key);
    case Apply => SameWrites(w, Next(w, e), key);
    case Periodic => SameWrites(w, Next(w, e), key);
    case Fallback(_) => SameWrites(w, Next(w, e), key);
  }

  lemma {:induction false} TraceKeepsOk(w: World, es: seq<SyncEvent>, key: Key)
    requires Ok(w, key) && ValidTrace(w, es)
    ensures Ok(After(w, es), key)
    decreases |es|
  {
    hide Ok, Next, Possible;
    if es != [] {
      StepKeepsOk(w, es[0], key);
      TraceKeepsOk(Next(w, es[0]), es[1..], key);
    }
  }

  // ---- convergence ----

  /** The worker starts from a full synchronisation. */
  function Begin(db: map<Key, Content>): World {
    World(db, db, [], Idle, multiset{}, {})
  }

  predicate Fails(e: SyncEvent) {
    e.Fail? || (e.ReadFails? && !e.synced)
  }

  lemma {:induction false} NoFailureNotDirty(w: World, es: seq<SyncEvent>)
    requires ValidTrace(w, es) && w.dirty == {} && forall e | e in es :: !Fails(e)
    ensures After(w, es).dirty == {}
    decreases |es|
  {
    if es != [] {
      NotDirtyStep(w, es[0]);
      hide Next, Possible, Fails;
      NoFailureNotDirty(Next(w, es[0]), es[1..]);
    }
  }

  lemma NotDirtyStep(w: World, e: SyncEvent)
    requires Possible(w, e) && w.dirty == {} && !Fails(e)
    ensures Next(w, e).dirty == {}
  {
    hide Last, Stored;
  }

  /** For every interleaving: once the notifications about a model are handled and no local write of it is in flight,
      the worker agrees with the registry about it, unless a write or a handler has failed. */
  lemma Converges(db: map<Key, Content>, es: seq<SyncEvent>, key: Key)
    requires ValidTrace(Begin(db), es)
    ensures var w := After(Begin(db), es);
            !Pending(w, key) && (forall write | write in w.writes :: write.key != key) ==> Agree(w, key) || key in w.dirty
    ensures var w := After(Begin(db), es);
            Last(w.queue, key).Some? ==> Last(w.queue, key).value == (if key in w.db then Register else Unregister)
  {
    hide ValidTrace, After;
    TraceKeepsOk(Begin(db), es, key);
  }

  /** Without failures, a worker that has handled every notification holds exactly the registry. */
  lemma DrainedMeansEqual(db: map<Key, Content>, es: seq<SyncEvent>)
    requires ValidTrace(Begin(db), es) && forall e | e in es :: !Fails(e)
    requires var w := After(Begin(db), es); w.queue == [] && w.handler.Idle? && w.writes == multiset{}
    ensures After(Begin(db), es).local == After(Begin(db), es).db
  {
    hide ValidTrace, After, Fails;
    var w := After(Begin(db), es);
    NoFailureNotDirty(Begin(db), es);
    assert forall key :: Last([], key) == None by { NothingQueued(); }
    forall key ensures AgreeAt(w.local, w.db, key) { Converges(db, es, key); }
    EqualMaps(w.local, w.db);
  }

  lemma NothingQueued()
    ensures forall key :: Last([], key) == None
  {}

  lemma EqualMaps(a: map<Key, Content>, b: map<Key, Content>)
    requires forall key :: AgreeAt(a, b, key)
    ensures a == b
  {
    assert forall key | key in a :: AgreeAt(a, b, key);
    assert forall key | key in b :: AgreeAt(a, b, key);
  }

  // ---- what the registry and the worker hold ----

  /** A change that has been committed: the content of a registration, or none for a delete. */
  datatype Change = Change(key: Key, content: Option<Content>)

  function Committed(e: SyncEvent): Option<Change> {
    match e
    case RemoteRegister(key, content) => Some(Change(key, Some(content)))
    case RemoteUnregister(key) => Some(Change(key, None))
    case Commit(Registering(key, content)) => Some(Change(key, Some(content)))
    case Commit(Unregistering(key)) => Some(Change(key, None))
    case _ => None
  }

  /** The last committed change of a model in a run. */
  function LastCommitted(es: seq<SyncEvent>, key: Key): Option<Change> {
    if es == [] then None
    else
      var last := Committed(es[|es| - 1]);
      if last.Some? && last.value.key == key then last else LastCommitted(es[..|es| - 1], key)
  }

  /** The row says what the registration said, field by field; an absent path is an empty one. */
  predicate Says(row: Content, content: Content) {
    && row.url == content.url && row.apiKey == content.apiKey && row.tito == content.tito
    && row.toolParser == content.toolParser && row.reasoningParser == content.reasoningParser
    && row.path == Some(if content.path.Some? then content.path.value else "")
  }

  /** The table holds of `key` what the last change says, or what `start` holds if there was none. */
  ghost predicate HoldsLast(table: map<Key, Content>, start: map<Key, Content>, last: Option<Change>, key: Key) {
    match last
    case None => AgreeAt(table, start, key)
    case Some(Change(_, None)) => key !in table
    case Some(Change(_, Some(content))) => key in table && Says(table[key], content)
  }

  lemma UpsertHolds(w: World, k: Key, content: Content, key: Key)
    ensures var db := Upsert(w, k, content).db;
            if k == key then key in db && Says(db[key], content) else AgreeAt(db, w.db, key)
  {}

  lemma DeleteHolds(w: World, k: Key, key: Key)
    ensures var db := Delete(w, k).db; if k == key then key !in db else AgreeAt(db, w.db, key)
  {}

  /** Only a commit changes the registry. */
  lemma CommitsOnly(w: World, e: SyncEvent)
    requires Possible(w, e) && Committed(e) == None
    ensures Next(w, e).db == w.db
  {
    hide MarkDirty, Upsert, Delete, Stored;
    match e
    case Fail(write) =>
      SameDb(w.(writes := w.writes - multiset{write}), write.key);
      if write.Registering? { SameDb(w.(writes := w.writes - multiset{write}, local := w.local - {write.key}), write.key); }
    case ReadFails(synced) => SameDb(w.(handler := Idle), w.handler.key);
    case _ =>
  }

  lemma SameDb(w: World, key: Key)
    ensures MarkDirty(w, key).db == w.db
  {
    hide Agree, Pending;
  }

  lemma CommitHolds(w: World, e: SyncEvent, key: Key)
    requires Possible(w, e)
    ensures var c := Committed(e);
            if c.Some? && c.value.key == key then HoldsLast(Next(w, e).db, w.db, c, key) else AgreeAt(Next(w, e).db, w.db, key)
  {
    hide Last, Upsert, Delete, Says, OnFail, OnReceive, OnRead, MarkDirty;
    match e
    case RemoteRegister(k, content) => UpsertHolds(w, k, content, key);
    case RemoteUnregister(k) => DeleteHolds(w, k, key);
    case Commit(write) =>
      var w1 := w.(writes := w.writes - multiset{write});
      if write.Registering? { UpsertHolds(w1, write.key, write.content, key); } else { DeleteHolds(w1, write.key, key); }
    case _ => CommitsOnly(w, e);
  }

  lemma {:induction false} AfterSplit(w: World, es: seq<SyncEvent>, e: SyncEvent)
    requires ValidTrace(w, es + [e])
    ensures ValidTrace(w, es) && Possible(After(w, es), e) && After(w, es + [e]) == Next(After(w, es), e)
    decreases |es|
  {
    hide Next, Possible;
    if es == [] {
      assert ([e])[1..] == [];
      assert es + [e] == [e];
    } else {
      assert (es + [e])[1..] == es[1..] + [e];
      AfterSplit(Next(w, es[0]), es[1..], e);
    }
  }

  /** For every interleaving: the row of a model is what the last committed registration of it said, and there is none
      exactly if a delete came last, or if there was none at the start and nothing was committed. */
  lemma {:induction false} RowIsLastRegistration(db: map<Key, Content>, es: seq<SyncEvent>, key: Key)
    requires ValidTrace(Begin(db), es)
    ensures HoldsLast(After(Begin(db), es).db, db, LastCommitted(es, key), key)
    decreases |es|
  {
    hide Next, Possible, ValidTrace, Says;
    if es == [] {
      NoEvents(Begin(db));
    } else {
      var init, e := es[..|es| - 1], es[|es| - 1];
      assert es == init + [e];
      AfterSplit(Begin(db), init, e);
      RowIsLastRegistration(db, init, key);
      CommitHolds(After(Begin(db), init), e, key);
    }
  }

  lemma NoEvents(w: World)
    ensures ValidTrace(w, []) && After(w, []) == w
  {}

  /** So does the worker, once the notifications about the model are handled and no local write of it is in flight,
      unless a write or a handler has failed. */
  lemma WorkerHoldsLastRegistration(db: map<Key, Content>, es: seq<SyncEvent>, key: Key)
    requires ValidTrace(Begin(db), es)
    requires var w := After(Begin(db), es);
             !Pending(w, key) && (forall write | write in w.writes :: write.key != key) && key !in w.dirty
    ensures HoldsLast(After(Begin(db), es).local, db, LastCommitted(es, key), key)
  {
    hide ValidTrace, After, Says, Last, LastCommitted;
    Converges(db, es, key);
    RowIsLastRegistration(db, es, key);
  }

  function Begins(e: SyncEvent): multiset<Write> {
    match e
    case LocalRegister(key, content) => multiset{Registering(key, content)}
    case LocalUnregister(key) => multiset{Unregistering(key)}
    case _ => multiset{}
  }

  function Answers(e: SyncEvent): multiset<Write> {
    match e
    case Commit(write) => multiset{write}
    case Fail(write) => multiset{write}
    case _ => multiset{}
  }

  /** The local writes that a run begins. */
  function Begun(es: seq<SyncEvent>): multiset<Write> {
    if es == [] then multiset{} else Begun(es[..|es| - 1]) + Begins(es[|es| - 1])
  }

  /** The local writes that the database has answered. */
  function Answered(es: seq<SyncEvent>): multiset<Write> {
    if es == [] then multiset{} else Answered(es[..|es| - 1]) + Answers(es[|es| - 1])
  }

  /** For every interleaving: the writes in flight are those begun and not answered, so every commit writes the content
      of one local registration. */
  lemma {:induction false} WritesAreConserved(db: map<Key, Content>, es: seq<SyncEvent>)
    requires ValidTrace(Begin(db), es)
    ensures After(Begin(db), es).writes + Answered(es) == Begun(es)
    decreases |es|
  {
    hide Next, Possible, ValidTrace, Begins, Answers;
    if es == [] {
      NoEvents(Begin(db));
    } else {
      var init, e := es[..|es| - 1], es[|es| - 1];
      assert es == init + [e];
      AfterSplit(Begin(db), init, e);
      WritesAreConserved(db, init);
      var w := After(Begin(db), init);
      WritesMove(w, e);
      AddBoth(w.writes, Next(w, e).writes, Answered(init), Begun(init), Answers(e), Begins(e));
    }
  }

  lemma AddBoth(w: multiset<Write>, w': multiset<Write>, answered: multiset<Write>, begun: multiset<Write>, a: multiset<Write>, b: multiset<Write>)
    requires w + answered == begun && w' + a == w + b
    ensures w' + (answered + a) == begun + b
  {
    assert w' + (answered + a) == (w' + a) + answered;
  }

  lemma WritesMove(w: World, e: SyncEvent)
    requires Possible(w, e)
    ensures Next(w, e).writes + Answers(e) == w.writes + Begins(e)
  {
    hide Last, Stored;
  }

  /** A registration takes effect in the worker at once, a removal too, and a request for a model that the worker does
      not hold finds it in the registry. */
  lemma LocalEffect(w: World, e: SyncEvent)
    requires Possible(w, e)
    ensures e.LocalRegister? ==> e.key in Next(w, e).local && Next(w, e).local[e.key] == e.content
    ensures e.LocalUnregister? ==> e.key !in Next(w, e).local
    ensures e.Fallback? && e.key !in w.local ==> Agree(Next(w, e), e.key)
    ensures e.LocalRegister? || e.LocalUnregister? || e.Fallback? ==> Next(w, e).db == w.db && Next(w, e).queue == w.queue
  {}

  /** At this point of the run a write or a handler has failed, and the worker differs from the registry about the model
      with nothing pending that would repair it. */
  ghost predicate LeftDifferent(db: map<Key, Content>, es: seq<SyncEvent>, key: Key, i: nat)
    requires ValidTrace(Begin(db), es)
  {
    && i < |es| && Fails(es[i]) && ValidTrace(Begin(db), es[..i + 1])
    && var w := After(Begin(db), es[..i + 1]); !Agree(w, key) && !Pending(w, key)
  }

  /** A model is marked only if that has happened. */
  lemma {:induction false} MarkedOnlyIfLeft(db: map<Key, Content>, es: seq<SyncEvent>, key: Key) returns (i: nat)
    requires ValidTrace(Begin(db), es) && key in After(Begin(db), es).dirty
    ensures LeftDifferent(db, es, key, i)
    decreases |es|
  {
    hide Next, Possible, ValidTrace, Fails, Agree, Pending;
    if es == [] {
      NoEvents(Begin(db));
      assert false;
    } else {
      var init, e := es[..|es| - 1], es[|es| - 1];
      assert es == init + [e];
      AfterSplit(Begin(db), init, e);
      var w := After(Begin(db), init);
      if key in w.dirty {
        i := MarkedOnlyIfLeft(db, init, key);
        assert init[..i + 1] == es[..i + 1];
      } else {
        MarksOnFailure(w, e, key);
        i := |es| - 1;
        assert es[..i + 1] == es;
      }
    }
  }

  lemma MarksOnFailure(w: World, e: SyncEvent, key: Key)
    requires Possible(w, e) && key !in w.dirty && key in Next(w, e).dirty
    ensures Fails(e) && !Agree(Next(w, e), key) && !Pending(Next(w, e), key)
  {
    hide Last, Stored;
  }

  /** A failed write, with nothing else pending for the model, leaves the worker in agreement exactly if the registry
      does not have the model. */
  lemma FailedWriteAgreesIff(w: World, write: Write)
    requires write in w.writes && !Pending(w, write.key)
    requires write.Unregistering? ==> write.key !in w.local
    ensures Agree(OnFail(w, write), write.key) <==> write.key !in w.db
    ensures write.key in w.db ==> write.key in OnFail(w, write).dirty && !Pending(OnFail(w, write), write.key)
  {
    hide Last;
  }

  /** A run that ends in disagreement with nothing pending: the worker forgets a model that the registry has, and the
      delete fails. */
  lemma FailedDeleteDisagrees(db: map<Key, Content>, key: Key)
    requires key in db
    ensures var es := [LocalUnregister(key), Fail(Unregistering(key))];
            && ValidTrace(Begin(db), es)
            && var w := After(Begin(db), es);
               w.queue == [] && w.handler.Idle? && w.writes == multiset{} && !Agree(w, key) && w.dirty == {key}
  {
    var e1, e2 := LocalUnregister(key), Fail(Unregistering(key));
    var w1 := Next(Begin(db), e1);
    assert w1.writes == multiset{Unregistering(key)};
    var w2 := Next(w1, e2);
    assert w2.writes == multiset{};
    OneStep(w1, e2, []);
    OneStep(Begin(db), e1, [e2]);
  }

  /** Whatever has failed before: after a full synchronisation and any steps without a failure, a worker that has handled
      every notification holds exactly the registry again. */
  lemma SyncRepairs(db: map<Key, Content>, before: seq<SyncEvent>, es: seq<SyncEvent>)
    requires ValidTrace(Begin(db), before)
    requires var w := Next(After(Begin(db), before), Periodic); ValidTrace(w, es) && forall e | e in es :: !Fails(e)
    requires var w := After(Next(After(Begin(db), before), Periodic), es); w.queue == [] && w.handler.Idle? && w.writes == multiset{}
    ensures var w := After(Next(After(Begin(db), before), Periodic), es); w.local == w.db
  {
    hide ValidTrace, After, Fails, Ok;
    var w0 := After(Begin(db), before);
    var w1 := Next(w0, Periodic);
    var w := After(w1, es);
    NoFailureNotDirty(w1, es);
    forall key ensures AgreeAt(w.local, w.db, key) {
      BeginOk(db, key);
      TraceKeepsOk(Begin(db), before, key);
      StepKeepsOk(w0, Periodic, key);
      TraceKeepsOk(w1, es, key);
      QuietAgrees(w, key);
    }
    EqualMaps(w.local, w.db);
  }

  lemma BeginOk(db: map<Key, Content>, key: Key)
    ensures Ok(Begin(db), key)
  {}

  lemma QuietAgrees(w: World, key: Key)
    requires Ok(w, key) && w.queue == [] && w.handler.Idle? && w.writes == multiset{} && w.dirty == {}
    ensures Agree(w, key)
  {}

  // ---- the table of the processor manager ----

  function ContentOf(c: Config): Content {
    Content(c.path, c.tito, c.url, c.apiKey, c.toolParser, c.reasoningParser)
  }

  /** The dynamic models of a manager. */
  function Models(m: Manager): map<Key, Content> {
    map k | k in m.dynamic :: ContentOf(m.dynamic[k])
  }

  /** The configuration says field by field what the content says. */
  predicate Carries(config: Config, content: Content) {
    && config.path == content.path && config.tito == content.tito && config.url == content.url && config.apiKey == content.apiKey
    && config.toolParser == content.toolParser && config.reasoningParser == content.reasoningParser
  }

  /** A registry row for each model, as `get_all` returns them. */
  ghost predicate Rows(models: seq<Entry>, db: map<Key, Content>) {
    && DistinctKeys(models) && KeysOf(models) == db.Keys
    && forall e | e in models :: e.key in db && Carries(e.config, db[e.key])
  }

  /** The callbacks of the synchroniser change the manager's table as the steps above change `local`. */
  lemma ManagerFollows(m: Manager, key: Key, config: Config)
    ensures Models(Step(m, RegisterFromConfig(key, config))) == Models(m)[key := ContentOf(config)] && Carries(config, ContentOf(config))
    ensures Models(Step(m, UnregisterByKey(key))) == Models(m) - {key}
    ensures Models(Step(m, UnregisterDynamic(key))) == Models(m) - {key}
    ensures key in m.registering ==> Models(Step(m, RegisterFailed(key))) == Models(m) - {key}
  {
    hide Models, Drop;
    StoredModel(m, key, config);
    var m1 := m.(registering := m.registering - multiset{key});
    RemovedModel(m, m, key);
    RemovedModel(m, m1, key);
    if key !in m.dynamic { NotAModel(m, key); }
    SameModels(m, m1);
  }

  /** A registration or a removal by the worker itself is accepted exactly if the step of the worker is possible, and
      changes the manager's table as that step does. */
  lemma ManagerRegisters(m: Manager, w: World, key: Key, config: Config, persist: bool)
    requires w.local == Models(m) && key !in m.configs && (config.tito ==> HasPath(config))
    ensures var m' := Step(m, RegisterDynamic(key, config, persist)); var e := LocalRegister(key, ContentOf(config));
            if Possible(w, e) then Models(m') == Next(w, e).local else m' == m
    ensures var m' := Step(m, UnregisterDynamic(key)); var e := LocalUnregister(key);
            if Possible(w, e) then Models(m') == Next(w, e).local else m' == m
  {
    hide Models, HasPath, Drop;
    ModelKeys(m);
    StoredModel(m, key, config);
    if key !in m.dynamic { SameModels(m.(dynamic := m.dynamic[key := config]), Step(m, RegisterDynamic(key, config, persist))); }
    RemovedModel(m, m, key);
  }

  lemma ModelKeys(m: Manager)
    ensures Models(m).Keys == m.dynamic.Keys
  {}

  lemma StoredModel(m: Manager, key: Key, config: Config)
    ensures Models(m.(dynamic := m.dynamic[key := config])) == Models(m)[key := ContentOf(config)]
  {}

  lemma RemovedModel(m: Manager, m1: Manager, key: Key)
    requires m1.dynamic == m.dynamic
    ensures Models(Drop(m1.(dynamic := m1.dynamic - {key}), {key})) == Models(m) - {key}
  {
    hide Select, PathsOf, ReleaseAll;
  }

  lemma NotAModel(m: Manager, key: Key)
    requires key !in m.dynamic
    ensures Models(m) - {key} == Models(m)
  {}

  lemma SameModels(m: Manager, m1: Manager)
    requires m1.dynamic == m.dynamic
    ensures Models(m1) == Models(m)
  {}

  lemma ManagerSyncs(m: Manager, models: seq<Entry>, db: map<Key, Content>)
    requires Rows(models, db)
    ensures Models(Step(m, FullSync(models))) == db
  {
    hide KeysOf, DistinctKeys, OnFullSync;
    FullSyncAgrees(m, models);
    forall k | k in db ensures ContentOf(OnFullSync(m, models).dynamic[k]) == db[k] {
      var e := EntryOf(models, k);
    }
  }

  // ---- the program ----

  /** The registry table with the notifications of its committed transactions. A model is in the table exactly if the
      last notification about it is a registration. */
  class ModelRepository {
    var table: map<Key, Content>
    var channel: seq<Note>

    ghost predicate Valid()
      reads this
    {
      forall key :: key in table <==> Last(channel, key) == Some(Register)
    }

    constructor ()
      ensures Valid() && table == map[] && channel == []
    {
      table, channel := map[], [];
    }

    /** The upsert and its NOTIFY commit together: the step of a worker that registers a model, whose path is passed as
        an empty one if there is none. */
    method RegisterModel(key: Key, url: string, apiKey: string, path: Option<string>, tito: bool, toolParser: string,
                         reasoningParser: string)
      requires Valid()
      modifies this
      ensures Valid() && table.Keys == old(table).Keys + {key} && forall k | k in old(table) && k != key :: table[k] == old(table)[k]
      ensures table[key].url == url && table[key].apiKey == apiKey && table[key].path == path && table[key].tito == tito
      ensures table[key].toolParser == toolParser && table[key].reasoningParser == reasoningParser
      ensures channel == old(channel) + [Note(Register, key)]
      ensures forall w: World, c: Content | w.db == old(table) && w.queue == old(channel) && Says(table[key], c) ::
                Next(w, RemoteRegister(key, c)).db == table && Next(w, RemoteRegister(key, c)).queue == channel
    {
      hide Last;
      forall k { LastAppend(channel, Note(Register, key), k); }
      table := table[key := Content(path, tito, url, apiKey, toolParser, reasoningParser)];
      channel := channel + [Note(Register, key)];
    }

    method UnregisterModel(key: Key) returns (success: bool)
      requires Valid()
      modifies this
      ensures Valid()
      ensures success <==> key in old(table)
      ensures table == old(table) - {key}
      ensures channel == if success then old(channel) + [Note(Unregister, key)] else old(channel)
      ensures forall w: World | w.db == old(table) && w.queue == old(channel) ::
                Next(w, RemoteUnregister(key)).db == table && Next(w, RemoteUnregister(key)).queue == channel
    {
      hide Last;
      forall k { LastAppend(channel, Note(Unregister, key), k); }
      success := key in table;
      table := table - {key};
      if success { channel := channel + [Note(Unregister, key)]; }
    }

    /** A reader finds the model exactly if the last committed change of it was a registration. */
    method GetByKey(key: Key) returns (content: Option<Content>)
      requires Valid()
      ensures content.Some? <==> Last(channel, key) == Some(Register)
      ensures content.Some? ==> key in table && content.value == table[key]
    {
      hide Last;
      content := if key in table then Some(table[key]) else None;
    }
  }

  /** The steps of one notification that is handled without interruption; `answers` and `syncs` say whether the query
      and the two possible full synchronisations succeed. */
  function Handling(w: World, answers: bool, syncs: bool, again: bool): seq<SyncEvent>
    requires w.queue != []
  {
    var note := w.queue[0];
    if note.action.Unregister? then [Receive]
    else if !answers then [Receive, ReadFails(again)]
    else if note.key in w.db then [Receive, Read, Apply]
    else if syncs then [Receive, Read]
    else [Receive, ReadFails(again)]
  }

  /** A worker's synchroniser: the notifications it has received and its table. */
  class ModelSynchronizer {
    const registry: ModelRepository
    var received: seq<Note>
    var models: map<Key, Content>
    ghost var writes: multiset<Write>
    ghost var dirty: set<Key>

    constructor (registry: ModelRepository)
      ensures this.registry == registry && View() == World(registry.table, registry.table, [], Idle, multiset{}, {})
    {
      this.registry, received, models, writes, dirty := registry, [], registry.table, multiset{}, {};
    }

    ghost function View(): World
      reads this, registry
    {
      World(registry.table, models, received, Idle, writes, dirty)
    }

    /** `_full_sync_from_db`; the query may fail. */
    method FullSyncFromDb(succeeds: bool) returns (ok: bool)
      modifies this`models, this`dirty
      ensures ok == succeeds && View() == if ok then SyncTable(old(View())) else old(View())
    {
      ok := succeeds;
      if ok { models, dirty := registry.table, {}; }
    }

    /** `_handle_notification` for the oldest notification; `raised` is an exception that reaches the listener. */
    method HandleNotification(answers: bool, syncs: bool, again: bool) returns (raised: bool)
      requires received != [] && registry.Valid()
      modifies this`received, this`models, this`dirty
      ensures ValidTrace(old(View()), Handling(old(View()), answers, syncs, again))
      ensures View() == After(old(View()), Handling(old(View()), answers, syncs, again))
      ensures raised ==> !again
    {
      hide ValidTrace, After, Last, Stored;
      HandlingSteps(View(), answers, syncs, again);
      var note := received[0];
      received := received[1..];
      raised := false;
      if note.action.Unregister? {
        models, dirty := models - {note.key}, dirty - {note.key};
        return;
      }
      var failed := !answers;
      if answers {
        var content := registry.GetByKey(note.key);
        if content.Some? {
          models, dirty := models[note.key := content.value], dirty - {note.key};
        } else {
          var ok := FullSyncFromDb(syncs);
          failed := !ok;
        }
      }
      if failed {
        var ok := FullSyncFromDb(again);
        raised := !ok;
        if raised { dirty := MarkDirty(View(), note.key).dirty; }
      }
    }
  }

  lemma HandlingSteps(w: World, answers: bool, syncs: bool, again: bool)
    requires w.queue != [] && w.handler.Idle?
    ensures ValidTrace(w, Handling(w, answers, syncs, again))
    ensures After(w, Handling(w, answers, syncs, again)) ==
              var w1, key := w.(queue := w.queue[1..]), w.queue[0].key;
              if w.queue[0].action.Unregister? then w1.(local := w1.local - {key}, dirty := w1.dirty - {key})
              else if answers && key in w.db then w1.(local := w1.local[key := w.db[key]], dirty := w1.dirty - {key})
              else if (answers && syncs) || again then SyncTable(w1)
              else MarkDirty(w1, key)
  {
    hide MarkDirty, Last;
    var es := Handling(w, answers, syncs, again);
    assert es[0] == Receive;
    var w1 := Next(w, Receive);
    if |es| == 1 {
      OneStep(w, Receive, []);
    } else if |es| == 2 {
      OneStep(w1, es[1], []);
      OneStep(w, Receive, [es[1]]);
    } else {
      OneStep(Next(w1, Read), Apply, []);
      OneStep(w1, Read, [Apply]);
      OneStep(w, Receive, [Read, Apply]);
    }
  }

  lemma OneStep(w: World, e: SyncEvent, rest: seq<SyncEvent>)
    requires Possible(w, e) && ValidTrace(Next(w, e), rest)
    ensures ValidTrace(w, [e] + rest) && After(w, [e] + rest) == After(Next(w, e), rest)
  {
    hide Next, Possible;
    assert ([e] + rest)[1..] == rest;
  }
}
