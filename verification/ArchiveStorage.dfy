/** When archiving overwrites what it has stored: every deleted row is in the stored file of its session, unless a row
    came late or a query opened a file that other rows still depend on. */
module ArchiveStorage {
  import opened Text
  import opened ArchiveDispatch
  import opened ArchiveData
  import opened ArchiveLoss

  /** The row belongs to a file with this key. */
  predicate Under(db: Db, id: nat, key: string) {
    id in db.metas && id in db.bodies && db.metas[id].run.Some? && FileKey(db.metas[id].run.value, db.metas[id].session) == key
  }

  predicate InFile(db: Db, id: nat) {
    && id in db.metas && id in db.bodies && db.metas[id].run.Some?
    && var key := FileKey(db.metas[id].run.value, db.metas[id].session);
       key in db.files && Line(id, db.bodies[id]) in db.files[key]
  }

  /** Every row is in the details table or in the file of its session. */
  ghost predicate AllStored(db: Db) {
    forall id | id in db.bodies :: id in db.details || InFile(db, id)
  }

  /** A row that needs the stored file with this key: it is deleted, or will be without a further upload. */
  ghost predicate Owed(db: Db, id: nat, key: string) {
    Under(db, id, key) && (id !in db.details || Due(db, id))
  }

  lemma OwedHaveBodies(db: Db)
    ensures forall id, key | Owed(db, id, key) :: id in db.bodies
  {
    hide FileKey, Due;
  }

  // ---- the danger ----

  predicate PendingUnder(db: Db, c: nat, key: string) {
    c in db.calls && Pending(db.calls[c]) && KeyOf(db.calls[c].pair) == key
  }

  /** A query opens a temporary file, and then
      - a call that the coordinator waits for would send the wrong file;
      - or it is the new call that would, as another call has the file open;
      - or a row needs the stored file, and either the new call would send a file without that row, or another call
        would send the file before the new one has written it. */
  ghost predicate Overwrites(db: Db, e: DataEvent) {
    && e.Open?
    && var key := KeyOf(e.pair);
       || (exists c :: PendingUnder(db, c, key) && Live(db, db.calls[c]))
       || (e.current && e.lines != [] && Shared(db, e.pair))
       || (exists id :: Owed(db, id, key) && Replaces(db, e, key, id))
  }

  ghost predicate Replaces(db: Db, e: DataEvent, key: string, id: nat)
    requires e.Open? && id in db.bodies
  {
    (e.lines != [] && (Shared(db, e.pair) || Line(id, db.bodies[id]) !in e.lines)) || exists c :: PendingUnder(db, c, key)
  }

  ghost predicate StoredRun(db: Db, es: seq<DataEvent>)
    decreases |es|
  {
    es == [] || (Allowed(db, es[0]) && !Late(db, es[0]) && !Overwrites(db, es[0]) && StoredRun(NextDb(db, es[0]), es[1..]))
  }

  lemma {:induction false} StoredIsAllowed(db: Db, es: seq<DataEvent>)
    requires StoredRun(db, es)
    ensures AllowedRun(db, es)
    decreases |es|
  {
    hide Allowed, NextDb, Late, Overwrites;
    if es != [] { StoredIsAllowed(NextDb(db, es[0]), es[1..]); }
  }

  lemma {:induction false} CalmIsStored(db: Db, es: seq<DataEvent>)
    requires AllowedRun(db, es) && Calm(es)
    ensures StoredRun(db, es)
    decreases |es|
  {
    hide Allowed, NextDb;
    if es != [] {
      assert es[0] in es && forall e | e in es[1..] :: e in es;
      CalmIsStored(NextDb(db, es[0]), es[1..]);
    }
  }

  // ---- what every other step keeps ----

  /** What the call may send has every row that needs it, and of a call that the coordinator waits for every active row
      of its session. */
  ghost predicate FileFits(db: Db, c: nat)
    requires c in db.calls
  {
    var x := db.calls[c]; var key := KeyOf(x.pair);
    key in db.temps ==>
      && (forall id | Owed(db, id, key) ::
            (db.temps[key].state.Whole? || OwnFile(db, c)) && Line(id, db.bodies[id]) in db.temps[key].lines)
      && (Live(db, x) ==> OwnFile(db, c) && Covers(db, x.pair, x.lines))
  }

  ghost predicate CallStores(db: Db, c: nat)
    requires c in db.calls
  {
    && (Pending(db.calls[c]) ==> FileFits(db, c))
    && (Live(db, db.calls[c]) && db.calls[c].lines == [] ==> Covers(db, db.calls[c].pair, []))
  }

  ghost predicate RowsStored(db: Db) {
    forall id, key | Owed(db, id, key) :: InFile(db, id)
  }

  ghost predicate StoreInv(db: Db) {
    RowsStored(db) && forall c | c in db.calls :: CallStores(db, c)
  }

  lemma NothingStored()
    ensures StoreInv(NO_DATA)
  {}

  /** Rows that come to need their file: those of a call that has sent its file. */
  ghost predicate NewlyOwed(db: Db, e: DataEvent, id: nat) {
    && e.Upload? && e.call in db.calls && Live(db, db.calls[e.call])
    && id in db.details && Of(db, id, db.calls[e.call].pair)
  }

  lemma TableOwes(db: Db, e: DataEvent, id: nat, key: string)
    requires DataInv(db) && Allowed(db, e) && IsTableEvent(e) && !Late(db, e) && Owed(NextDb(db, e), id, key)
    ensures Owed(db, id, key)
    ensures db.bodies[id] == NextDb(db, e).bodies[id]
  {
    hide SafePath, FileKey, TempOk, FilesOk, CallOk, KeyOf;
    var db' := NextDb(db, e);
    if e.BeginRun? {
      BeginOwes(db, e);
    } else if e.Arrive? {
      if id == e.id {
        ArrivedIsNotDue(db, e);
      } else if id in db'.details {
        SameDue(db, e, id);
      }
    }
  }

  lemma BeginOwes(db: Db, e: DataEvent)
    requires DataInv(db) && Allowed(db, e) && e.BeginRun?
    ensures forall id :: !Due(NextDb(db, e), id)
  {
    hide KeyOf, TempOk, FilesOk, RowsOk;
    forall c | c in db.calls ensures !Live(NextDb(db, e), db.calls[c]) { assert CallOk(db, c); }
  }

  lemma ArrivedIsNotDue(db: Db, e: DataEvent)
    requires DataInv(db) && Allowed(db, e) && e.Arrive? && !Late(db, e)
    ensures !Due(NextDb(db, e), e.id)
  {
    hide FileKey, FilesOk, CallOk, TempOk, KeyOf, RowsOk;
  }

  lemma SameDue(db: Db, e: DataEvent, id: nat)
    requires Allowed(db, e) && e.Arrive? && id != e.id && Due(NextDb(db, e), id)
    ensures Due(db, id)
  {
    hide FileKey, KeyOf;
    var db' := NextDb(db, e);
    if !(db'.cleanup.Deleting? && id in db'.cleanup.ids) && !(db'.run == db'.metas[id].run && db'.metas[id].session in db'.archived) {
      var c :| c in db'.calls && Live(db', db'.calls[c]) && Of(db', id, db'.calls[c].pair) && HasSent(db'.calls[c]);
      assert Live(db, db.calls[c]) && Of(db, id, db.calls[c].pair);
    }
  }

  lemma EmptyHasNone(db: Db, c: nat)
    requires StoreInv(db) && c in db.calls && Live(db, db.calls[c]) && db.calls[c].lines == []
    ensures forall id | id in db.details :: !Of(db, id, db.calls[c].pair)
  {
    hide KeyOf, RowsStored, FileFits;
    assert CallStores(db, c);
  }

  lemma CallOwes(db: Db, e: DataEvent, id: nat, key: string)
    requires DataInv(db) && StoreInv(db) && Allowed(db, e) && !IsTableEvent(e) && Owed(NextDb(db, e), id, key)
    ensures Owed(db, id, key) || NewlyOwed(db, e, id)
    ensures Under(db, id, key) && db.bodies[id] == NextDb(db, e).bodies[id]
  {
    hide NextDb, FileKey, KeyOf, DataInv, RowsStored, OneKey, FileFits, Readable, IsExport, MayOpen;
    CallFrame(db, e);
    var db' := NextDb(db, e);
    if e.Finish? && Live(db, db.calls[e.call]) && db.calls[e.call].lines == [] { EmptyHasNone(db, e.call); }
    if id in db.details && !(db'.cleanup.Deleting? && id in db'.cleanup.ids) && !(db.run == db.metas[id].run && db.metas[id].session in db.archived) {
      if e.Return? && e.replied && Live(db, db.calls[e.call]) && db'.metas[id].session == db.calls[e.call].pair.session && db'.run == db'.metas[id].run {
        assert Of(db, id, db.calls[e.call].pair) && HasSent(db.calls[e.call]);
      } else {
        var c :| c in db'.calls && Live(db', db'.calls[c]) && Of(db', id, db'.calls[c].pair) && HasSent(db'.calls[c]);
        if c != e.call { assert Of(db, id, db.calls[c].pair); }
      }
    }
  }

  // ---- the stored files ----

  lemma TableKeepsStored(db: Db, e: DataEvent)
    requires DataInv(db) && StoreInv(db) && Allowed(db, e) && IsTableEvent(e) && !Late(db, e)
    ensures RowsStored(NextDb(db, e))
  {
    hide NextDb, DataInv, Late, CallStores, Owed, InFile;
    var db' := NextDb(db, e);
    forall id, key | Owed(db', id, key) ensures InFile(db', id) {
      TableOwes(db, e, id, key);
      StillInFile(db, e, id);
    }
  }

  /** A step that does not write the file. */
  lemma StillInFile(db: Db, e: DataEvent, id: nat)
    requires DataInv(db) && Allowed(db, e) && InFile(db, id)
    requires e.Upload? ==> !Under(db, id, KeyOf(PairOf(db, e)))
    ensures InFile(NextDb(db, e), id)
  {
    hide NextDb, FileKey, TempOk, CallOk, FilesOk, CycleOk;
    Grows(db, e);
    var pair := Pair(db.metas[id].run.value, db.metas[id].session);
    assert Of(db, id, pair) && Known(db, Line(id, db.bodies[id]));
    assert Of(NextDb(db, e), id, pair) && Known(NextDb(db, e), Line(id, db.bodies[id]));
    if IsTableEvent(e) { TableFrame(db, e); } else { CallFrame(db, e); }
  }

  lemma SentIsInFile(db: Db, e: DataEvent, id: nat)
    requires DataInv(db) && Allowed(db, e) && e.Upload? && Under(db, id, KeyOf(PairOf(db, e))) && Line(id, db.bodies[id]) in e.sent
    ensures InFile(NextDb(db, e), id)
  {
    hide FileKey, TempOk, CallOk, FilesOk, CycleOk, RowsOk;
  }

  /** An upload sends every row that needs the file. */
  lemma UploadHas(db: Db, e: DataEvent, id: nat)
    requires DataInv(db) && StoreInv(db) && Allowed(db, e) && e.Upload?
    requires Owed(db, id, KeyOf(PairOf(db, e))) || (NewlyOwed(db, e, id) && id in db.bodies)
    ensures Line(id, db.bodies[id]) in e.sent
    ensures db.temps[KeyOf(PairOf(db, e))].state.Whole? && e.sent == db.temps[KeyOf(PairOf(db, e))].lines
  {
    hide KeyOf, TempOk, CallOk, FilesOk, CycleOk, Owed, RowsStored;
    assert CallStores(db, e.call) && FileFits(db, e.call);
    if NewlyOwed(db, e, id) { assert Line(id, db.details[id]) in db.calls[e.call].lines; }
  }

  lemma CallKeepsStored(db: Db, e: DataEvent)
    requires DataInv(db) && StoreInv(db) && Allowed(db, e) && !IsTableEvent(e)
    ensures RowsStored(NextDb(db, e))
  {
    hide NextDb, DataInv, CallStores, Owed, InFile, Under, Allowed, NewlyOwed, KeyOf;
    var db' := NextDb(db, e);
    forall id, key | Owed(db', id, key) ensures InFile(db', id) {
      CallOwes(db, e, id, key);
      NewIsUpload(db, e, id);
      if e.Upload? && key == KeyOf(PairOf(db, e)) {
        UnderHasBody(db, id, key);
        UploadHas(db, e, id);
        SentIsInFile(db, e, id);
      } else {
        NewHasKey(db, e, id, key);
        OneKeyOnly(db, id, key);
        StillInFile(db, e, id);
      }
    }
  }

  lemma NewIsUpload(db: Db, e: DataEvent, id: nat)
    ensures NewlyOwed(db, e, id) ==> e.Upload?
  {}

  lemma UnderHasBody(db: Db, id: nat, key: string)
    requires Under(db, id, key)
    ensures id in db.bodies
  {
    hide FileKey;
  }

  lemma NewHasKey(db: Db, e: DataEvent, id: nat, key: string)
    requires Under(db, id, key) && Allowed(db, e) && !IsTableEvent(e)
    ensures NewlyOwed(db, e, id) ==> key == KeyOf(PairOf(db, e))
  {
    hide FileKey;
  }

  lemma OneKeyOnly(db: Db, id: nat, key: string)
    requires Under(db, id, key)
    ensures forall k | Under(db, id, k) :: k == key
  {
    hide FileKey;
  }

  // ---- the calls ----

  lemma TableKeepsFits(db: Db, e: DataEvent, c: nat)
    requires DataInv(db) && StoreInv(db) && Allowed(db, e) && IsTableEvent(e) && !Late(db, e) && c in NextDb(db, e).calls
    ensures CallStores(NextDb(db, e), c)
  {
    hide NextDb, DataInv, RowsStored, Owed, Late, KeyOf, Live, Covers, Allowed;
    TableFrame(db, e);
    var db' := NextDb(db, e);
    OwedHaveBodies(db);
    OwedHaveBodies(db');
    assert CallStores(db, c);
    forall id, key | Owed(db', id, key) ensures Owed(db, id, key) && db.bodies[id] == db'.bodies[id] { TableOwes(db, e, id, key); }
    if Live(db', db.calls[c]) { LiveCovers(db, e, c); }
  }

  /** A row that arrives in time does not belong to a call that can still succeed. */
  lemma LiveCovers(db: Db, e: DataEvent, c: nat)
    requires DataInv(db) && Allowed(db, e) && IsTableEvent(e) && !Late(db, e) && c in db.calls && Live(NextDb(db, e), db.calls[c])
    ensures Live(db, db.calls[c])
    ensures !Doomed(db, c) ==> forall lines | Covers(db, db.calls[c].pair, lines) :: Covers(NextDb(db, e), db.calls[c].pair, lines)
  {
    hide SafePath, KeyOf, TempOk, FilesOk, RowsOk, Doomed, Covers, Located, Selected, SavedAll;
    assert CallOk(db, c);
    if e.Arrive? && !Doomed(db, c) { OtherArrival(db, e, db.calls[c].pair); }
  }

  /** A call under another key. */
  lemma OtherKeyFits(db: Db, e: DataEvent, c: nat)
    requires DataInv(db) && StoreInv(db) && Allowed(db, e) && !IsTableEvent(e) && c in NextDb(db, e).calls && c != e.call
    requires NextDb(db, e).calls[c] == db.calls[c] && KeyOf(db.calls[c].pair) != KeyOf(PairOf(db, e))
    ensures CallStores(NextDb(db, e), c)
  {
    hide NextDb, DataInv, RowsStored, Owed, KeyOf, Allowed, NewlyOwed, Under;
    CallFrame(db, e);
    var db', key := NextDb(db, e), KeyOf(db.calls[c].pair);
    OwedHaveBodies(db);
    OwedHaveBodies(db');
    assert CallStores(db, c);
    assert forall id, p :: Of(db', id, p) <==> Of(db, id, p);
    forall id | Owed(db', id, key) ensures Owed(db, id, key) && db.bodies[id] == db'.bodies[id] {
      CallOwes(db, e, id, key);
      NewHasKey(db, e, id, key);
    }
  }

  lemma SameFile(db: Db, e: DataEvent, key: string)
    requires DataInv(db) && Allowed(db, e) && (e.Finish? || e.Crash? || e.Upload?) && key == KeyOf(db.calls[e.call].pair)
    ensures key in NextDb(db, e).temps ==> key in db.temps
    ensures key in NextDb(db, e).temps && (db.temps[key].state.Whole? || e.Upload?) ==> NextDb(db, e).temps[key] == db.temps[key]
  {
    hide FileKey, RowsOk, FilesOk, CycleOk, CallOk;
    if key in db.temps { assert TempOk(db, key); }
  }

  lemma SameKeyFits(db: Db, e: DataEvent, c: nat)
    requires DataInv(db) && StoreInv(db) && Allowed(db, e) && !IsTableEvent(e) && !Overwrites(db, e) && c in NextDb(db, e).calls && c != e.call
    requires NextDb(db, e).calls[c] == db.calls[c] && KeyOf(db.calls[c].pair) == KeyOf(PairOf(db, e)) && !e.Open?
    ensures CallStores(NextDb(db, e), c)
  {
    hide NextDb, DataInv, RowsStored, Owed, KeyOf, Allowed, NewlyOwed, Under, Overwrites;
    CallFrame(db, e);
    var db', key := NextDb(db, e), KeyOf(db.calls[c].pair);
    OwedHaveBodies(db);
    OwedHaveBodies(db');
    assert CallStores(db, c);
    assert forall id, p :: Of(db', id, p) <==> Of(db, id, p);
    if key in db'.temps && Pending(db.calls[c]) {
      SameFile(db, e, key);
      SameKeyFile(db, e, c);
      forall id | Owed(db', id, key)
        ensures (db'.temps[key].state.Whole? || OwnFile(db', c)) && Line(id, db'.bodies[id]) in db'.temps[key].lines
      {
        CallOwes(db, e, id, key);
        NewIsUpload(db, e, id);
        UnderHasBody(db, id, key);
        if e.Upload? { UploadHas(db, e, id); }
      }
    }
  }

  lemma OpenFitsOthers(db: Db, e: DataEvent, c: nat)
    requires DataInv(db) && StoreInv(db) && Allowed(db, e) && e.Open? && !Overwrites(db, e) && c in db.calls && c != e.call
    requires c in NextDb(db, e).calls && NextDb(db, e).calls[c] == db.calls[c] && KeyOf(db.calls[c].pair) == KeyOf(e.pair)
    ensures CallStores(NextDb(db, e), c)
  {
    hide NextDb, DataInv, RowsStored, Owed, KeyOf, Allowed, NewlyOwed, Under, OwnFile;
    CallFrame(db, e);
    var db', key := NextDb(db, e), KeyOf(e.pair);
    assert CallStores(db, c);
    assert forall id, p :: Of(db', id, p) <==> Of(db, id, p);
    if Pending(db.calls[c]) {
      assert PendingUnder(db, c, key);
      forall id ensures !Owed(db', id, key) {
        if Owed(db', id, key) {
          CallOwes(db, e, id, key);
          NewIsUpload(db, e, id);
          UnderHasBody(db, id, key);
        }
      }
    }
  }

  lemma OpenFits(db: Db, e: DataEvent)
    requires DataInv(db) && StoreInv(db) && Allowed(db, e) && e.Open? && !Overwrites(db, e)
    ensures e.call in NextDb(db, e).calls && CallStores(NextDb(db, e), e.call)
  {
    hide RowsOk, CycleOk, FilesOk, TempOk, CallOk, RowsStored, Owed, KeyOf, NewlyOwed, Under, MayOpen, CallStores, FileFits;
    CallFrame(db, e);
    var db', key := NextDb(db, e), KeyOf(e.pair);
    OwedHaveBodies(db);
    OwedHaveBodies(db');
    assert forall id, p :: Of(db', id, p) <==> Of(db, id, p);
    forall id | Owed(db', id, key) && e.lines != []
      ensures Line(id, db'.bodies[id]) in e.lines && !Shared(db, e.pair)
    {
      CallOwes(db, e, id, key);
      NewIsUpload(db, e, id);
      UnderHasBody(db, id, key);
      assert Owed(db, id, key);
      assert !Replaces(db, e, key, id);
    }
    OpenedFits(db, e);
  }

  lemma OpenedFits(db: Db, e: DataEvent)
    requires Allowed(db, e) && e.Open? && (e.current && e.lines != [] ==> !Shared(db, e.pair))
    requires var db' := NextDb(db, e);
             && (forall id | Owed(db', id, KeyOf(e.pair)) && e.lines != [] :: id in db'.bodies && Line(id, db'.bodies[id]) in e.lines && !Shared(db, e.pair))
             && forall id, p :: Of(db', id, p) <==> Of(db, id, p)
    requires RowsOk(db) && CycleOk(db)
    ensures e.call in NextDb(db, e).calls && CallStores(NextDb(db, e), e.call)
  {
    hide KeyOf, Owed;
  }

  lemma FinishFits(db: Db, c: nat)
    requires DataInv(db) && StoreInv(db) && Allowed(db, Finish(c))
    ensures c in NextDb(db, Finish(c)).calls && CallStores(NextDb(db, Finish(c)), c)
  {
    hide DataInv, RowsStored, Owed, KeyOf, NewlyOwed, Under;
    var e := Finish(c);
    CallFrame(db, e);
    var db', key := NextDb(db, e), KeyOf(db.calls[c].pair);
    OwedHaveBodies(db);
    OwedHaveBodies(db');
    assert CallStores(db, c);
    assert forall id, p :: Of(db', id, p) <==> Of(db, id, p);
    if key in db'.temps && Pending(db.calls[c]) {
      SameFile(db, e, key);
      forall id | Owed(db', id, key)
        ensures (db'.temps[key].state.Whole? || OwnFile(db', c)) && Line(id, db'.bodies[id]) in db'.temps[key].lines
      {
        CallOwes(db, e, id, key);
        NewIsUpload(db, e, id);
      }
    }
  }

  lemma CallKeepsFits(db: Db, e: DataEvent, c: nat)
    requires DataInv(db) && StoreInv(db) && Allowed(db, e) && !IsTableEvent(e) && !Overwrites(db, e) && c in NextDb(db, e).calls
    ensures CallStores(NextDb(db, e), c)
  {
    hide NextDb, DataInv, StoreInv, CallStores, Overwrites, KeyOf, Allowed, OneKey;
    CallFrame(db, e);
    if c != e.call {
      if KeyOf(db.calls[c].pair) != KeyOf(PairOf(db, e)) {
        OtherKeyFits(db, e, c);
      } else if e.Open? {
        OpenFitsOthers(db, e, c);
      } else {
        SameKeyFits(db, e, c);
      }
    } else {
      match e
      case Open(_, _, _, _) => OpenFits(db, e);
      case Finish(_) => FinishFits(db, c);
      case Upload(_, _, _) => SentFits(db, e);
    }
  }

  lemma SentFits(db: Db, e: DataEvent)
    requires Allowed(db, e) && e.Upload?
    ensures e.call in NextDb(db, e).calls && CallStores(NextDb(db, e), e.call)
  {
    hide KeyOf;
  }

  lemma StepKeepsFiles(db: Db, e: DataEvent)
    requires DataInv(db) && StoreInv(db) && Allowed(db, e) && !Late(db, e) && !Overwrites(db, e)
    ensures StoreInv(NextDb(db, e))
  {
    hide NextDb, DataInv, RowsStored, CallStores, Allowed, Late, Overwrites;
    if IsTableEvent(e) { TableKeepsStored(db, e); } else { CallKeepsStored(db, e); }
    forall c | c in NextDb(db, e).calls ensures CallStores(NextDb(db, e), c) {
      if IsTableEvent(e) { TableKeepsFits(db, e, c); } else { CallKeepsFits(db, e, c); }
    }
  }

  lemma {:induction false} RunKeepsFiles(db: Db, es: seq<DataEvent>)
    requires DataInv(db) && StoreInv(db) && StoredRun(db, es)
    ensures AllowedRun(db, es) && DataInv(RunDb(db, es)) && StoreInv(RunDb(db, es))
    decreases |es|
  {
    hide DataInv, StoreInv, NextDb, Allowed, Late, Overwrites;
    if es != [] {
      StepKeepsData(db, es[0]);
      StepKeepsFiles(db, es[0]);
      RunKeepsFiles(NextDb(db, es[0]), es[1..]);
    }
  }

  lemma EverythingStored(db: Db)
    requires DataInv(db) && StoreInv(db)
    ensures AllStored(db)
  {
    hide FileKey, TempOk, CallOk, FilesOk, CycleOk, CallStores, InFile, Due;
    forall id | id in db.bodies && id !in db.details ensures InFile(db, id) {
      var key := FileKey(db.metas[id].run.value, db.metas[id].session);
      assert Owed(db, id, key);
    }
  }

  /** In every state of every run without late rows and overwriting queries, over any number of cycles, each row is in
      the details table or in the stored file of its session. */
  lemma EveryRowIsStored(es: seq<DataEvent>)
    requires StoredRun(NO_DATA, es)
    ensures AllowedRun(NO_DATA, es) && AllStored(RunDb(NO_DATA, es))
  {
    hide RunDb, StoredRun, DataInv, StoreInv, AllStored;
    NoDataInv();
    NothingStored();
    RunKeepsFiles(NO_DATA, es);
    EverythingStored(RunDb(NO_DATA, es));
  }

  // ---- exactly these steps can lose a stored row ----

  ghost predicate CanUnstore(db: Db) {
    exists es :: StoredRun(db, es) && AllowedRun(db, es) && !AllStored(RunDb(db, es))
  }

  lemma SameRowInFile(db: Db, es: seq<DataEvent>, id: nat)
    requires DataInv(db) && AllowedRun(db, es) && id in db.bodies && RunDb(db, es).files == db.files && InFile(RunDb(db, es), id)
    ensures InFile(db, id)
  {
    hide FileKey, AllowedRun, RunDb, TempOk, CallOk, FilesOk, CycleOk;
    RunGrows(db, es);
    var db' := RunDb(db, es);
    var pair := Pair(db'.metas[id].run.value, db'.metas[id].session);
    assert Of(db', id, pair) && Of(db, id, pair);
    assert Known(db, Line(id, db.bodies[id]));
    assert Known(db', Line(id, db.bodies[id]));
  }

  lemma DueIsUnstored(db: Db, id: nat, es: seq<DataEvent>)
    requires Calm(es) && AllowedRun(db, es) && DataInv(RunDb(db, es)) && Due(RunDb(db, es), id)
    requires id in RunDb(db, es).bodies && !InFile(RunDb(db, es), id)
    ensures CanUnstore(db)
  {
    hide DataInv, AllowedRun, RunDb, Due, StoredRun, InFile;
    var db1 := RunDb(db, es);
    var more := DueIsDeleted(db1, id);
    if InFile(RunDb(db1, more), id) { SameRowInFile(db1, more, id); }
    DataAppend(db, es, more);
    CalmIsStored(db, es + more);
    assert !AllStored(RunDb(db, es + more));
  }

  /** A row that needs the file and is not in it. */
  lemma OwedIsUnstored(db: Db, id: nat, key: string, es: seq<DataEvent>)
    requires Calm(es) && AllowedRun(db, es) && DataInv(RunDb(db, es)) && Owed(RunDb(db, es), id, key) && !InFile(RunDb(db, es), id)
    ensures CanUnstore(db)
  {
    hide DataInv, AllowedRun, RunDb, Due, StoredRun, InFile, FileKey;
    if id in RunDb(db, es).details {
      DueIsUnstored(db, id, es);
    } else {
      CalmIsStored(db, es);
      assert !AllStored(RunDb(db, es));
    }
  }

  lemma BadUploadUnstores(db: Db, c: nat, sent: seq<Line>, id: nat, key: string)
    requires DataInv(db) && PendingUnder(db, c, key) && key in db.temps && Readable(FileToSend(db, c), sent)
    requires Under(db, id, key) && Line(id, db.bodies[id]) !in sent
    requires Owed(db, id, key) || (Live(db, db.calls[c]) && id in db.details && Of(db, id, db.calls[c].pair))
    ensures CanUnstore(db)
  {
    hide DataInv, AllowedRun, RunDb, KeyOf, Readable, FileToSend, CanUnstore, Delivered, Owed, InFile, Under;
    var es := Deliver(db, c, sent);
    RunKeepsData(db, es);
    DeliveredIsOwed(db, RunDb(db, es), c, sent, id, key);
    OwedIsUnstored(db, id, key, es);
  }

  lemma DeliveredIsOwed(db: Db, db': Db, c: nat, sent: seq<Line>, id: nat, key: string)
    requires PendingUnder(db, c, key) && Delivered(db, db', c, sent) && Under(db, id, key) && Line(id, db.bodies[id]) !in sent
    requires Owed(db, id, key) || (Live(db, db.calls[c]) && id in db.details && Of(db, id, db.calls[c].pair))
    ensures Owed(db', id, key) && !InFile(db', id)
  {
    hide FileKey;
    assert forall p :: Of(db', id, p) <==> Of(db, id, p);
    if id in db.details {
      if Live(db, db.calls[c]) && Of(db, id, db.calls[c].pair) {
        assert Live(db', db'.calls[c]) && Of(db', id, db'.calls[c].pair) && HasSent(db'.calls[c]);
      } else {
        DueStays(db, db', c, sent, id);
      }
    }
  }

  lemma DueStays(db: Db, db': Db, c: nat, sent: seq<Line>, id: nat)
    requires c in db.calls && Pending(db.calls[c]) && Delivered(db, db', c, sent) && Due(db, id)
    ensures Due(db', id)
  {
    hide KeyOf;
    if !(db.cleanup.Deleting? && id in db.cleanup.ids) && !(db.run == db.metas[id].run && db.metas[id].session in db.archived) {
      var d :| d in db.calls && Live(db, db.calls[d]) && Of(db, id, db.calls[d].pair) && HasSent(db.calls[d]);
      assert d != c && Live(db', db'.calls[d]) && Of(db', id, db'.calls[d].pair);
    }
  }

  /** A query leaves what rows need alone. */
  lemma OpenOwes(db: Db, e: DataEvent, id: nat, key: string)
    requires Allowed(db, e) && e.Open? && Under(db, id, key)
    ensures Under(NextDb(db, e), id, key) && NextDb(db, e).bodies == db.bodies
    ensures Owed(db, id, key) ==> Owed(NextDb(db, e), id, key)
  {
    hide FileKey, NextDb, OneKey, KeyOf, IsExport, MayOpen;
    CallFrame(db, e);
    var db' := NextDb(db, e);
    if Owed(db, id, key) && id in db.details
       && !(db.cleanup.Deleting? && id in db.cleanup.ids) && !(db.run == db.metas[id].run && db.metas[id].session in db.archived) {
      var d :| d in db.calls && Live(db, db.calls[d]) && Of(db, id, db.calls[d].pair) && HasSent(db.calls[d]);
      assert d != e.call && Live(db', db'.calls[d]) && Of(db', id, db'.calls[d].pair);
    }
  }

  lemma LineIsUnder(db: Db, pair: Pair, l: Line)
    requires DataInv(db) && Of(db, l.id, pair) && l.id in db.details
    ensures Under(db, l.id, KeyOf(pair)) && l.id in db.bodies
  {
    hide FileKey, TempOk, CallOk, FilesOk, CycleOk;
  }

  /** A call that the coordinator waits for sends the wrong file. */
  lemma DisturbedUnstores(db: Db, e: DataEvent, c: nat)
    requires DataInv(db) && Allowed(db, e) && e.Open? && PendingUnder(db, c, KeyOf(e.pair)) && Live(db, db.calls[c])
    ensures CanUnstore(NextDb(db, e))
  {
    hide NextDb, KeyOf, RowsOk, FilesOk, TempOk, CycleOk, CanUnstore, Readable, FileToSend, IsExport, MayOpen, Under;
    var l := db.calls[c].lines[0];
    assert CallOk(db, c) && l in db.calls[c].lines;
    LineIsUnder(db, db.calls[c].pair, l);
    StepKeepsData(db, e);
    CallFrame(db, e);
    NothingToRead(db, e, c);
    OpenOwes(db, e, l.id, KeyOf(e.pair));
    BadUploadUnstores(NextDb(db, e), c, [], l.id, KeyOf(e.pair));
  }

  lemma GarbledUnstores(db: Db, e: DataEvent)
    requires DataInv(db) && Allowed(db, e) && e.Open? && e.current && e.lines != [] && Shared(db, e.pair)
    ensures CanUnstore(NextDb(db, e))
  {
    hide NextDb, KeyOf, RowsOk, FilesOk, TempOk, CallOk, CycleOk, CanUnstore, Readable, FileToSend, Under, Shared;
    var l := e.lines[0];
    assert l in e.lines;
    LineIsUnder(db, e.pair, l);
    StepKeepsData(db, e);
    CallFrame(db, e);
    NothingToRead(db, e, e.call);
    OpenOwes(db, e, l.id, KeyOf(e.pair));
    BadUploadUnstores(NextDb(db, e), e.call, [], l.id, KeyOf(e.pair));
  }

  /** The new call sends its own file. */
  lemma WholeToSend(db: Db, e: DataEvent)
    requires Allowed(db, e) && e.Open? && !Shared(db, e.pair)
    ensures e.call in NextDb(db, e).calls && KeyOf(NextDb(db, e).calls[e.call].pair) == KeyOf(e.pair)
    ensures KeyOf(e.pair) in NextDb(db, e).temps && Readable(FileToSend(NextDb(db, e), e.call), e.lines)
  {
    hide FileKey, IsExport, MayOpen;
  }

  lemma ReplacedUnstores(db: Db, e: DataEvent, id: nat)
    requires DataInv(db) && Allowed(db, e) && e.Open? && Owed(db, id, KeyOf(e.pair)) && Replaces(db, e, KeyOf(e.pair), id)
    ensures CanUnstore(NextDb(db, e))
  {
    hide NextDb, KeyOf, DataInv, CanUnstore, Readable, FileToSend, Under, Shared, Due, IsExport, MayOpen;
    var db', key := NextDb(db, e), KeyOf(e.pair);
    StepKeepsData(db, e);
    CallFrame(db, e);
    OpenOwes(db, e, id, key);
    OwedHaveBodies(db);
    if e.lines != [] && Shared(db, e.pair) {
      NothingToRead(db, e, e.call);
      BadUploadUnstores(db', e.call, [], id, key);
    } else if e.lines != [] && Line(id, db.bodies[id]) !in e.lines {
      WholeToSend(db, e);
      BadUploadUnstores(db', e.call, e.lines, id, key);
    } else {
      var c :| PendingUnder(db, c, key);
      NotReopened(db, e, c);
      NothingToRead(db, e, c);
      BadUploadUnstores(db', c, [], id, key);
    }
  }

  lemma OverwritesUnstores(db: Db, e: DataEvent)
    requires DataInv(db) && Allowed(db, e) && Overwrites(db, e)
    ensures CanUnstore(NextDb(db, e))
  {
    hide NextDb, KeyOf, DataInv, CanUnstore, Allowed, Shared, Owed, Replaces;
    var key := KeyOf(e.pair);
    OwedHaveBodies(db);
    if e.current && e.lines != [] && Shared(db, e.pair) {
      GarbledUnstores(db, e);
    } else if exists c :: PendingUnder(db, c, key) && Live(db, db.calls[c]) {
      var c :| PendingUnder(db, c, key) && Live(db, db.calls[c]);
      DisturbedUnstores(db, e, c);
    } else {
      var id :| Owed(db, id, key) && Replaces(db, e, key, id);
      ReplacedUnstores(db, e, id);
    }
  }

  /** A row that comes late is not in the file it will need. */
  lemma LateUnstores(db: Db, e: DataEvent)
    requires DataInv(db) && Allowed(db, e) && Late(db, e)
    ensures CanUnstore(NextDb(db, e))
  {
    hide DataInv, CanUnstore, KeyOf, Readable, FileToSend, AllowedRun, RunDb, Due, InFile, Under, Owed;
    var db' := NextDb(db, e);
    StepKeepsData(db, e);
    FreshIsNotStored(db, e);
    if e.session in db.archived {
      LateIsDue(db, e);
      DataEnd(db');
      DueIsUnstored(db', e.id, []);
    } else {
      var c :| c in db.calls && Live(db, db.calls[c]) && db.calls[c].pair == Pair(db.run.value, e.session) && !Doomed(db, c);
      if HasSent(db.calls[c]) {
        LateIsDue(db, e);
        DataEnd(db');
        DueIsUnstored(db', e.id, []);
      } else if db.calls[c].lines == [] {
        FreshIsUnsaved(db, e);
        EmptyIsDue(db', c, e.id);
        OneEvent(db', Finish(c));
        RunKeepsData(db', [Finish(c)]);
        if InFile(NextDb(db', Finish(c)), e.id) { FinishSameFiles(db', c); SameRowInFile(db', [Finish(c)], e.id); }
        DueIsUnstored(db', e.id, [Finish(c)]);
      } else {
        var sent := SafeToSend(db, e, c);
        LineIsUnder(db', Pair(db.run.value, e.session), Line(e.id, e.body));
        BadUploadUnstores(db', c, sent, e.id, KeyOf(db.calls[c].pair));
      }
    }
  }

  lemma FinishSameFiles(db: Db, c: nat)
    requires Allowed(db, Finish(c))
    ensures NextDb(db, Finish(c)).files == db.files
  {
    hide KeyOf;
  }

  lemma FreshIsNotStored(db: Db, e: DataEvent)
    requires DataInv(db) && Allowed(db, e) && e.Arrive?
    ensures e.id in NextDb(db, e).bodies && !InFile(NextDb(db, e), e.id)
  {
    hide FileKey, TempOk, CallOk, CycleOk, RowsOk;
    forall key | key in db.files ensures Line(e.id, e.body) !in db.files[key] {
      assert forall l | l in db.files[key] :: Known(db, l);
    }
  }

  lemma CannotUnstore(db: Db)
    requires DataInv(db) && StoreInv(db)
    ensures !CanUnstore(db)
  {
    hide StoredRun, AllowedRun, RunDb, DataInv, StoreInv, AllStored;
    forall es | StoredRun(db, es) && AllowedRun(db, es) ensures AllStored(RunDb(db, es)) {
      RunKeepsFiles(db, es);
      EverythingStored(RunDb(db, es));
    }
  }

  /** In every state that is reached without late rows and overwriting queries, a step can lead to a row that is in
      neither table nor file, with nothing else late and no other such query, exactly if it is one of the two. */
  lemma EveryRowIsStoredIff(before: seq<DataEvent>, e: DataEvent)
    requires StoredRun(NO_DATA, before) && AllowedRun(NO_DATA, before) && Allowed(RunDb(NO_DATA, before), e)
    ensures CanUnstore(NextDb(RunDb(NO_DATA, before), e)) <==> Late(RunDb(NO_DATA, before), e) || Overwrites(RunDb(NO_DATA, before), e)
  {
    hide StoredRun, AllowedRun, RunDb, DataInv, StoreInv, Late, Overwrites, Allowed, NextDb, CanUnstore;
    var db := RunDb(NO_DATA, before);
    NoDataInv();
    NothingStored();
    RunKeepsFiles(NO_DATA, before);
    if Late(db, e) {
      LateUnstores(db, e);
    } else if Overwrites(db, e) {
      OverwritesUnstores(db, e);
    } else {
      StepKeepsData(db, e);
      StepKeepsFiles(db, e);
      CannotUnstore(NextDb(db, e));
    }
  }

  // ---- sessions with files of their own that are archived once ----

  /** Sessions that were exported have different files. */
  ghost predicate DistinctFiles(db: Db) {
    forall p, q | p in db.exported && q in db.exported && KeyOf(p) == KeyOf(q) :: p == q
  }

  /** A session is exported by one call at a time, and only while none of its rows was archived before. */
  ghost predicate OpensOnce(db: Db, e: DataEvent) {
    e.Open? ==>
      && e.current && (forall id | Of(db, id, e.pair) :: id in db.details)
      && forall c | c in db.calls :: db.calls[c].pair != e.pair
  }

  ghost predicate OnceRun(db: Db, es: seq<DataEvent>)
    decreases |es|
  {
    es == [] || (Allowed(db, es[0]) && !Late(db, es[0]) && OpensOnce(db, es[0]) && OnceRun(NextDb(db, es[0]), es[1..]))
  }

  lemma {:induction false} ExportedGrows(db: Db, es: seq<DataEvent>)
    requires AllowedRun(db, es)
    ensures db.exported <= RunDb(db, es).exported
    decreases |es|
  {
    hide Allowed, NextDb;
    if es != [] {
      Grows(db, es[0]);
      ExportedGrows(NextDb(db, es[0]), es[1..]);
    }
  }

  /** The pair of a row is exported when it needs a file. */
  lemma OwedIsExported(db: Db, id: nat, key: string)
    requires DataInv(db) && Owed(db, id, key)
    ensures var pair := Pair(db.metas[id].run.value, db.metas[id].session); pair in db.exported && KeyOf(pair) == key && Of(db, id, pair)
  {
    hide FileKey, TempOk, FilesOk;
    if id in db.details && !(db.cleanup.Deleting? && id in db.cleanup.ids) && !(db.run == db.metas[id].run && db.metas[id].session in db.archived) {
      var c :| c in db.calls && Live(db, db.calls[c]) && Of(db, id, db.calls[c].pair) && HasSent(db.calls[c]);
      assert CallOk(db, c);
    }
  }

  lemma OnceOverwritesNothing(db: Db, e: DataEvent)
    requires DataInv(db) && Allowed(db, e) && OpensOnce(db, e) && DistinctFiles(NextDb(db, e))
    ensures !Overwrites(db, e)
  {
    hide FileKey, RowsOk, FilesOk, CycleOk, IsExport, Owed, Replaces, NextDb, KeyOf, MayOpen, DataInv;
    if e.Open? {
      CallFrame(db, e);
      forall c | PendingUnder(db, c, KeyOf(e.pair)) ensures false { NoCallUnder(db, e, c); }
      NotShared(db, e);
      forall id | Owed(db, id, KeyOf(e.pair)) ensures false { NoRowUnder(db, e, id); }
    }
  }

  lemma NoCallUnder(db: Db, e: DataEvent, c: nat)
    requires DataInv(db) && Allowed(db, e) && e.Open? && OpensOnce(db, e) && DistinctFiles(NextDb(db, e))
    ensures c in db.calls ==> KeyOf(db.calls[c].pair) != KeyOf(e.pair)
  {
    hide KeyOf, TempOk, FilesOk, RowsOk, CycleOk, IsExport, MayOpen, OneKey;
    CallFrame(db, e);
    if c in db.calls { assert CallOk(db, c); }
  }

  lemma NotShared(db: Db, e: DataEvent)
    requires DataInv(db) && Allowed(db, e) && e.Open? && OpensOnce(db, e) && DistinctFiles(NextDb(db, e))
    ensures !Shared(db, e.pair)
  {
    hide KeyOf, CallOk, FilesOk, RowsOk, CycleOk, IsExport, MayOpen, DistinctFiles, NextDb;
    if Shared(db, e.pair) {
      assert TempOk(db, KeyOf(e.pair));
      var c :| c in db.temps[KeyOf(e.pair)].writers;
      NoCallUnder(db, e, c);
    }
  }

  lemma NoRowUnder(db: Db, e: DataEvent, id: nat)
    requires DataInv(db) && Allowed(db, e) && e.Open? && OpensOnce(db, e) && DistinctFiles(NextDb(db, e))
    ensures !Owed(db, id, KeyOf(e.pair))
  {
    hide KeyOf, TempOk, CallOk, FilesOk, RowsOk, IsExport, NextDb, OneKey;
    CallFrame(db, e);
    if Owed(db, id, KeyOf(e.pair)) { OwedIsExported(db, id, KeyOf(e.pair)); }
  }

  lemma {:induction false} OnceIsStored(db: Db, es: seq<DataEvent>)
    requires DataInv(db) && OnceRun(db, es) && AllowedRun(db, es) && DistinctFiles(RunDb(db, es))
    ensures StoredRun(db, es)
    decreases |es|
  {
    hide DataInv, NextDb, Allowed, Late, OpensOnce, Overwrites, DistinctFiles;
    if es != [] {
      var db1 := NextDb(db, es[0]);
      ExportedGrows(db1, es[1..]);
      EarlierDistinct(db1, RunDb(db1, es[1..]));
      OnceOverwritesNothing(db, es[0]);
      StepKeepsData(db, es[0]);
      OnceIsStored(db1, es[1..]);
    }
  }

  lemma EarlierDistinct(db: Db, db': Db)
    requires DistinctFiles(db') && db.exported <= db'.exported
    ensures DistinctFiles(db)
  {
    hide FileKey;
  }

  /** So if exported sessions have different files, and each is exported once at a time and in one cycle only, every row
      is stored. */
  lemma OnceArchivedIsStored(es: seq<DataEvent>)
    requires OnceRun(NO_DATA, es) && AllowedRun(NO_DATA, es) && DistinctFiles(RunDb(NO_DATA, es))
    ensures AllStored(RunDb(NO_DATA, es))
  {
    hide RunDb, OnceRun, AllowedRun, DistinctFiles, StoredRun, AllStored, DataInv;
    NoDataInv();
    OnceIsStored(NO_DATA, es);
    EveryRowIsStored(es);
  }

  // ---- runs in which stored rows are lost ----

  /** The row is in neither table nor storage. */
  ghost predicate Nowhere(db: Db, id: nat) {
    id in db.bodies && id !in db.details && forall key | key in db.files :: Line(id, db.bodies[id]) !in db.files[key]
  }

  /** One row of one session, archived and cleaned up. */
  function OneDone(run: string, s: Session, a: string): Db {
    AfterCall(OneRow(run, s, a), Pair(run, s), [Line(0, a)])
      .(metas := map[0 := Meta(Some(run), s, Some(SafePath(run) + "/"))], details := map[], run := None, archived := {})
  }

  lemma OneIsDone(run: string, s: Session, a: string)
    ensures var db := AfterCall(OneRow(run, s, a), Pair(run, s), [Line(0, a)]); var es := [Delete([s])] + [Commit];
            AllowedRun(db, es) && KeptRun(db, es) && RunDb(db, es) == OneDone(run, s, a)
  {
    hide SafePath, KeyOf, AllowedRun, RunDb;
    var db := AfterCall(OneRow(run, s, a), Pair(run, s), [Line(0, a)]);
    var db1 := NextDb(db, Delete([s]));
    assert Selected(db, run, [s], 0) && db1.cleanup == Deleting(run, [s], {0});
    var db2 := NextDb(db1, Commit);
    assert db2.details == map[] && db2.metas == map[0 := Meta(Some(run), s, Some(SafePath(run) + "/"))];
    OneEvent(db1, Commit);
    DataCons(db, Delete([s]), [Commit]);
    CalmIsKept(db, [Delete([s])] + [Commit]);
  }

  /** The same session gets another row, and its run is archived again. */
  lemma SecondCycleBegins(run: string, s: Session, a: string, b: string)
    ensures var es := [Arrive(1, Some(run), s, b)] + [BeginRun(run)]; var db := OneDone(run, s, a);
            && AllowedRun(db, es) && KeptRun(db, es)
            && var db' := RunDb(db, es);
               && Allowed(db', Open(1, Pair(run, s), [Line(1, b)], true)) && db'.calls == map[] && db'.temps == map[]
               && db'.details == map[1 := b] && db'.bodies == map[0 := a, 1 := b] && db'.exported == {Pair(run, s)}
               && db'.files == map[KeyOf(Pair(run, s)) := [Line(0, a)]]
  {
    hide SafePath, KeyOf, AllowedRun, RunDb;
    var db := OneDone(run, s, a);
    var e1, e2 := Arrive(1, Some(run), s, b), BeginRun(run);
    var db1 := NextDb(db, e1);
    var db2 := NextDb(db1, e2);
    assert db2.details == map[1 := b] && IsExport(db2, Pair(run, s), [Line(1, b)]);
    OneEvent(db1, e2);
    DataCons(db, e1, [e2]);
    NoOpenIsKept(db, [e1] + [e2]);
  }

  lemma ReplacedIsNowhere(db: Db, pair: Pair, lines: seq<Line>, id: nat)
    requires id in db.bodies && id !in db.details && Line(id, db.bodies[id]) !in lines
    requires forall key | key in db.files && key != KeyOf(pair) :: Line(id, db.bodies[id]) !in db.files[key]
    ensures Nowhere(AfterCall(db, pair, lines), id)
  {
    hide KeyOf;
  }

  /** A session that is archived in two cycles, with nothing late, no clash and no other session: the file of the second
      cycle replaces that of the first, whose row is then nowhere. */
  lemma SecondCycleReplacesFile(run: string, s: Session, a: string, b: string)
    ensures var p := Pair(run, s);
            var first := ([Arrive(0, Some(run), s, a)] + [BeginRun(run)]) + (Archiving(0, p, [Line(0, a)]) + ([Delete([s])] + [Commit]));
            var second := ([Arrive(1, Some(run), s, b)] + [BeginRun(run)]) + Archiving(1, p, [Line(1, b)]);
            && KeptRun(NO_DATA, first + second) && AllowedRun(NO_DATA, first + second)
            && Nowhere(RunDb(NO_DATA, first + second), 0) && DistinctFiles(RunDb(NO_DATA, first + second))
  {
    hide SafePath, KeyOf, AllowedRun, RunDb, KeptRun, NextDb, Allowed, AfterCall, Archiving, OneDone, Nowhere;
    var p := Pair(run, s);
    var arrive1, archive1, clean := [Arrive(0, Some(run), s, a)] + [BeginRun(run)], Archiving(0, p, [Line(0, a)]), [Delete([s])] + [Commit];
    var arrive2, archive2 := [Arrive(1, Some(run), s, b)] + [BeginRun(run)], Archiving(1, p, [Line(1, b)]);
    var db := OneRow(run, s, a);
    OneRowIsReached(run, s, a);
    NoOpenIsKept(NO_DATA, arrive1);
    OneRowOpens(run, s, a);
    Undisturbed(db, 0, p, [Line(0, a)]);
    LoneCallIsKept(db, 0, p, [Line(0, a)]);
    OneIsDone(run, s, a);
    SecondCycleBegins(run, s, a, b);
    var db2 := RunDb(OneDone(run, s, a), arrive2);
    Undisturbed(db2, 1, p, [Line(1, b)]);
    LoneCallIsKept(db2, 1, p, [Line(1, b)]);
    ReplacedIsNowhere(db2, p, [Line(1, b)], 0);
    OneExported(db2, p, [Line(1, b)]);
    JoinRuns(db, archive1, clean);
    JoinRuns(NO_DATA, arrive1, archive1 + clean);
    JoinRuns(OneDone(run, s, a), arrive2, archive2);
    JoinRuns(NO_DATA, arrive1 + (archive1 + clean), arrive2 + archive2);
  }

  lemma JoinRuns(db: Db, es: seq<DataEvent>, more: seq<DataEvent>)
    requires KeptRun(db, es) && AllowedRun(db, es) && KeptRun(RunDb(db, es), more) && AllowedRun(RunDb(db, es), more)
    ensures KeptRun(db, es + more) && AllowedRun(db, es + more) && RunDb(db, es + more) == RunDb(RunDb(db, es), more)
  {
    hide KeptRun, AllowedRun, RunDb;
    DataAppend(db, es, more);
    KeptAppend(db, es, more);
  }

  lemma OneExported(db: Db, pair: Pair, lines: seq<Line>)
    requires db.exported == {pair}
    ensures DistinctFiles(AfterCall(db, pair, lines))
  {
    hide KeyOf;
  }

  /** Two sessions of one run with one file, archived one after the other in one cycle, with nothing late and no clash:
      the file of the second replaces that of the first, and the clean-up deletes the row of the first. */
  lemma SharedFileIsReplaced(run: string, s: Session, t: Session, a: string, b: string)
    requires s != t && FileKey(run, s) == FileKey(run, t)
    ensures var es := ([Arrive(0, Some(run), s, a)] + ([Arrive(1, Some(run), t, b)] + [BeginRun(run)]))
                      + (Archiving(0, Pair(run, s), [Line(0, a)]) + (Archiving(1, Pair(run, t), [Line(1, b)]) + ([Delete([s, t])] + [Commit])));
            KeptRun(NO_DATA, es) && AllowedRun(NO_DATA, es) && Nowhere(RunDb(NO_DATA, es), 0)
  {
    hide SafePath, KeyOf, FileKey, AllowedRun, RunDb, KeptRun, NextDb, Allowed, AfterCall, Archiving, TwoRows, Nowhere;
    var p, q := Pair(run, s), Pair(run, t);
    var arrivals := [Arrive(0, Some(run), s, a)] + ([Arrive(1, Some(run), t, b)] + [BeginRun(run)]);
    var one, two, clean := Archiving(0, p, [Line(0, a)]), Archiving(1, q, [Line(1, b)]), [Delete([s, t])] + [Commit];
    var db := TwoRows(run, s, t, a, b);
    TwoRowsAreReached(run, s, t, a, b);
    NoOpenIsKept(NO_DATA, arrivals);
    BothOpen(run, s, t, a, b);
    Undisturbed(db, 0, p, [Line(0, a)]);
    LoneCallIsKept(db, 0, p, [Line(0, a)]);
    var db1 := AfterCall(db, p, [Line(0, a)]);
    Undisturbed(db1, 1, q, [Line(1, b)]);
    LoneCallIsKept(db1, 1, q, [Line(1, b)]);
    BothDeleted(run, s, t, a, b);
    CalmIsKept(AfterCall(db1, q, [Line(1, b)]), clean);
    JoinRuns(db1, two, clean);
    JoinRuns(db, one, two + clean);
    JoinRuns(NO_DATA, arrivals, one + (two + clean));
  }

  lemma BothOpen(run: string, s: Session, t: Session, a: string, b: string)
    requires s != t
    ensures var db := TwoRows(run, s, t, a, b); var db1 := AfterCall(db, Pair(run, s), [Line(0, a)]);
            && Allowed(db, Open(0, Pair(run, s), [Line(0, a)], true)) && Allowed(db1, Open(1, Pair(run, t), [Line(1, b)], true))
            && db.calls == db1.calls == map[] && db.temps == db1.temps == map[]
  {
    hide KeyOf;
    var db := TwoRows(run, s, t, a, b);
    assert IsExport(db, Pair(run, s), [Line(0, a)]);
    assert IsExport(AfterCall(db, Pair(run, s), [Line(0, a)]), Pair(run, t), [Line(1, b)]);
  }

  lemma BothDeleted(run: string, s: Session, t: Session, a: string, b: string)
    requires s != t && FileKey(run, s) == FileKey(run, t)
    ensures var db := AfterCall(AfterCall(TwoRows(run, s, t, a, b), Pair(run, s), [Line(0, a)]), Pair(run, t), [Line(1, b)]);
            var es := [Delete([s, t])] + [Commit];
            Calm(es) && AllowedRun(db, es) && Nowhere(RunDb(db, es), 0)
  {
    hide SafePath, FileKey, AllowedRun, RunDb;
    var db := AfterCall(AfterCall(TwoRows(run, s, t, a, b), Pair(run, s), [Line(0, a)]), Pair(run, t), [Line(1, b)]);
    var db1 := NextDb(db, Delete([s, t]));
    OneEvent(db1, Commit);
    DataCons(db, Delete([s, t]), [Commit]);
  }
}
