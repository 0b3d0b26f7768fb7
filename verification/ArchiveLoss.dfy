/** When archiving loses rows: every row that was deleted has been uploaded, unless a row came late or two calls shared a
    temporary file at the wrong moment. */
module ArchiveLoss {
  import opened Text
  import opened ArchiveDispatch
  import opened ArchiveData

  predicate IsSaved(db: Db, id: nat) {
    id in db.bodies && Line(id, db.bodies[id]) in db.saved
  }

  /** A row that is neither in the details table nor in a file that was uploaded. */
  predicate Lost(db: Db, id: nat) {
    id in db.bodies && id !in db.details && !IsSaved(db, id)
  }

  /** Every active row of the session is saved. */
  ghost predicate SavedAll(db: Db, pair: Pair) {
    forall id | id in db.details && Of(db, id, pair) :: IsSaved(db, id)
  }

  /** The file of the call is gone before it was sent: the call will fail. */
  predicate Doomed(db: Db, c: nat)
    requires c in db.calls
  {
    Pending(db.calls[c]) && KeyOf(db.calls[c].pair) !in db.temps
  }

  // ---- the two dangers ----

  /** A row joins a session of the current run that was archived, or has a call that can still succeed. */
  ghost predicate Late(db: Db, e: DataEvent) {
    && e.Arrive? && db.run.Some? && e.run == db.run
    && (e.session in db.archived ||
        exists c | c in db.calls :: Live(db, db.calls[c]) && db.calls[c].pair == Pair(db.run.value, e.session) && !Doomed(db, c))
  }

  /** A query opens a temporary file that a call the coordinator waits for has not sent yet, or that another call is
      still writing, and a row of the call that is disturbed was never uploaded. */
  ghost predicate Clash(db: Db, e: DataEvent) {
    && e.Open?
    && ((exists c | c in db.calls ::
           && Live(db, db.calls[c]) && !db.calls[c].stage.Sent? && KeyOf(db.calls[c].pair) == KeyOf(e.pair)
           && !SavedAll(db, db.calls[c].pair))
        || (e.current && Shared(db, e.pair) && !SavedAll(db, e.pair)))
  }

  /** Another call has the file of this session open. */
  predicate Shared(db: Db, pair: Pair) {
    KeyOf(pair) in db.temps && db.temps[KeyOf(pair)].writers != {}
  }

  ghost predicate KeptRun(db: Db, es: seq<DataEvent>)
    decreases |es|
  {
    es == [] || (Allowed(db, es[0]) && !Late(db, es[0]) && !Clash(db, es[0]) && KeptRun(NextDb(db, es[0]), es[1..]))
  }

  lemma {:induction false} KeptIsAllowed(db: Db, es: seq<DataEvent>)
    requires KeptRun(db, es)
    ensures AllowedRun(db, es)
    decreases |es|
  {
    hide Allowed, NextDb, Late, Clash;
    if es != [] { KeptIsAllowed(NextDb(db, es[0]), es[1..]); }
  }

  lemma {:induction false} CalmIsKept(db: Db, es: seq<DataEvent>)
    requires AllowedRun(db, es) && Calm(es)
    ensures KeptRun(db, es)
    decreases |es|
  {
    hide Allowed, NextDb;
    if es != [] {
      assert es[0] in es && forall e | e in es[1..] :: e in es;
      CalmIsKept(NextDb(db, es[0]), es[1..]);
    }
  }

  // ---- what every other step keeps ----

  /** The file is the call's own and nobody has disturbed it. */
  predicate OwnFile(db: Db, c: nat)
    requires c in db.calls
  {
    var x := db.calls[c];
    && KeyOf(x.pair) in db.temps
    && db.temps[KeyOf(x.pair)] == if x.stage.Writing? then Temp(x.lines, Growing, {c}) else Temp(x.lines, Whole, {})
  }

  /** If the call succeeds, every active row of its session is saved. */
  ghost predicate CallSafe(db: Db, c: nat)
    requires c in db.calls
  {
    var x := db.calls[c];
    SavedAll(db, x.pair) || Doomed(db, c) || (Pending(x) && OwnFile(db, c) && Covers(db, x.pair, x.lines))
  }

  ghost predicate RowsSafe(db: Db) {
    && (forall id | id in db.bodies :: !Lost(db, id))
    && (forall s | s in db.archived :: db.run.Some? && SavedAll(db, Pair(db.run.value, s)))
    && (db.cleanup.Deleting? ==> forall id | id in db.cleanup.ids :: IsSaved(db, id))
  }

  ghost predicate KeptInv(db: Db) {
    RowsSafe(db) && forall c | c in db.calls && Live(db, db.calls[c]) :: CallSafe(db, c)
  }

  lemma NoLoss()
    ensures KeptInv(NO_DATA)
  {}

  /** Uploads only add to what is saved. */
  lemma SavedGrows(db: Db, db': Db, pair: Pair)
    requires SavedAll(db, pair) && db.saved <= db'.saved
    requires db'.metas == db.metas && db'.details == db.details && db'.bodies == db.bodies
    ensures SavedAll(db', pair)
  {
    assert forall id :: Of(db', id, pair) <==> Of(db, id, pair);
  }

  lemma RowsSafeInCall(db: Db, e: DataEvent)
    requires DataInv(db) && KeptInv(db) && Allowed(db, e) && !IsTableEvent(e)
    ensures RowsSafe(NextDb(db, e))
  {
    hide NextDb, TempOk, FilesOk, RowsOk, CallOk, OneKey, Allowed, SavedAll, KeyOf;
    CallFrame(db, e);
    Grows(db, e);
    var db' := NextDb(db, e);
    forall id | id in db'.bodies ensures !Lost(db', id) { assert !Lost(db, id); }
    forall s | s in db'.archived ensures db'.run.Some? && SavedAll(db', Pair(db'.run.value, s)) {
      if s in db.archived {
        SavedGrows(db, db', Pair(db.run.value, s));
      } else {
        ReturnedIsSaved(db, e);
        SavedGrows(db, db', Pair(db.run.value, s));
      }
    }
  }

  lemma ReturnedIsSaved(db: Db, e: DataEvent)
    requires KeptInv(db) && Allowed(db, e) && e.Return? && Live(db, db.calls[e.call])
    ensures SavedAll(db, db.calls[e.call].pair)
  {
    hide FileKey, RowsSafe, SavedAll;
    assert CallSafe(db, e.call);
  }

  /** A call that a step of another call leaves alone. */
  lemma OtherCallSafe(db: Db, db': Db, c: nat)
    requires c in db.calls && CallSafe(db, c) && c in db'.calls && db'.calls[c] == db.calls[c] && db.saved <= db'.saved
    requires db'.metas == db.metas && db'.details == db.details && db'.bodies == db.bodies
    requires var key := KeyOf(db.calls[c].pair);
             SavedAll(db, db.calls[c].pair)
             || ((key !in db.temps ==> key !in db'.temps) && (OwnFile(db, c) ==> key !in db'.temps || db'.temps[key] == db.temps[key]))
    ensures CallSafe(db', c)
  {
    hide KeyOf;
    if SavedAll(db, db.calls[c].pair) {
      SavedGrows(db, db', db.calls[c].pair);
    } else {
      assert forall id :: Of(db', id, db.calls[c].pair) <==> Of(db, id, db.calls[c].pair);
    }
  }

  /** A step under the same key leaves an undisturbed file alone or removes it. */
  lemma SameKeyFile(db: Db, e: DataEvent, c: nat)
    requires DataInv(db) && Allowed(db, e) && !IsTableEvent(e) && !e.Open? && c in db.calls && c != e.call
    requires KeyOf(db.calls[c].pair) == KeyOf(db.calls[e.call].pair)
    ensures var key, db' := KeyOf(db.calls[c].pair), NextDb(db, e);
            (key !in db.temps ==> key !in db'.temps) && (OwnFile(db, c) ==> key !in db'.temps || db'.temps[key] == db.temps[key])
  {
    hide FileKey, DataInv, SafePath;
  }

  lemma OthersSafe(db: Db, e: DataEvent, c: nat)
    requires DataInv(db) && KeptInv(db) && Allowed(db, e) && !IsTableEvent(e) && !Clash(db, e)
    requires c in NextDb(db, e).calls && c != e.call && Live(NextDb(db, e), NextDb(db, e).calls[c])
    ensures CallSafe(NextDb(db, e), c)
  {
    hide NextDb, DataInv, RowsSafe, CallSafe, Allowed, SavedAll, KeyOf, OwnFile;
    CallFrame(db, e);
    Grows(db, e);
    assert CallSafe(db, c);
    if KeyOf(db.calls[c].pair) == KeyOf(PairOf(db, e)) {
      if e.Open? { UndisturbedIsSaved(db, e, c); } else { SameKeyFile(db, e, c); }
    }
    OtherCallSafe(db, NextDb(db, e), c);
  }

  lemma UndisturbedIsSaved(db: Db, e: DataEvent, c: nat)
    requires e.Open? && !Clash(db, e) && c in db.calls && Live(db, db.calls[c]) && CallSafe(db, c)
    requires KeyOf(db.calls[c].pair) == KeyOf(e.pair)
    ensures SavedAll(db, db.calls[c].pair)
  {
    hide KeyOf, SavedAll;
  }

  lemma OpenedIsSafe(db: Db, e: DataEvent)
    requires DataInv(db) && Allowed(db, e) && e.Open? && e.current && !Clash(db, e)
    ensures e.call in NextDb(db, e).calls && CallSafe(NextDb(db, e), e.call)
  {
    hide FileKey, TempOk, CallOk, FilesOk, CycleOk, MayOpen;
    var db' := NextDb(db, e);
    assert forall id :: Of(db', id, e.pair) <==> Of(db, id, e.pair);
    if Shared(db, e.pair) { SavedGrows(db, db', e.pair); }
  }

  lemma FinishedIsSafe(db: Db, c: nat)
    requires Allowed(db, Finish(c)) && CallSafe(db, c)
    ensures c in NextDb(db, Finish(c)).calls && CallSafe(NextDb(db, Finish(c)), c)
  {
    hide FileKey;
    var db' := NextDb(db, Finish(c));
    assert forall id :: Of(db', id, db.calls[c].pair) <==> Of(db, id, db.calls[c].pair);
  }

  lemma UploadedIsSafe(db: Db, e: DataEvent)
    requires DataInv(db) && Allowed(db, e) && e.Upload? && CallSafe(db, e.call)
    ensures e.call in NextDb(db, e).calls && CallSafe(NextDb(db, e), e.call)
  {
    hide FileKey, TempOk, CallOk, FilesOk, CycleOk;
    var db', pair := NextDb(db, e), db.calls[e.call].pair;
    if SavedAll(db, pair) {
      SavedGrows(db, db', pair);
    } else {
      assert e.sent == db.calls[e.call].lines;
      forall id | id in db'.details && Of(db', id, pair) ensures IsSaved(db', id) {
        assert Of(db, id, pair) && Line(id, db.details[id]) in e.sent;
      }
    }
  }

  lemma OwnIsSafe(db: Db, e: DataEvent)
    requires DataInv(db) && KeptInv(db) && Allowed(db, e) && !IsTableEvent(e) && !Clash(db, e)
    requires e.call in NextDb(db, e).calls && Live(NextDb(db, e), NextDb(db, e).calls[e.call])
    ensures CallSafe(NextDb(db, e), e.call)
  {
    hide NextDb, RowsSafe, RowsOk, CallOk, TempOk, FilesOk, CallSafe, SavedAll, KeyOf, OwnFile, OneKey, IsExport, Readable, Clash;
    CallFrame(db, e);
    match e
    case Open(_, _, _, current) => assert current; OpenedIsSafe(db, e);
    case Finish(c) => assert CallSafe(db, c); FinishedIsSafe(db, c);
    case Upload(c, _, _) => assert CallSafe(db, c); UploadedIsSafe(db, e);
  }

  // ---- the tables ----

  lemma TableKeepsRowsSafe(db: Db, e: DataEvent)
    requires DataInv(db) && KeptInv(db) && Allowed(db, e) && IsTableEvent(e) && !e.Arrive?
    ensures RowsSafe(NextDb(db, e))
  {
    hide SafePath, TempOk, CallOk, FilesOk, CallSafe;
  }

  lemma ArriveKeepsRowsSafe(db: Db, e: DataEvent)
    requires DataInv(db) && KeptInv(db) && Allowed(db, e) && e.Arrive? && !Late(db, e)
    ensures RowsSafe(NextDb(db, e))
  {
    hide SafePath, TempOk, CallOk, FilesOk, CallSafe, SavedAll;
    var db' := NextDb(db, e);
    forall s | s in db'.archived ensures SavedAll(db', Pair(db'.run.value, s)) { OtherArrival(db, e, Pair(db.run.value, s)); }
  }

  lemma OtherArrival(db: Db, e: DataEvent, pair: Pair)
    requires DataInv(db) && Allowed(db, e) && e.Arrive? && (e.run != Some(pair.run) || e.session != pair.session)
    ensures SavedAll(db, pair) ==> SavedAll(NextDb(db, e), pair)
    ensures forall lines | Covers(db, pair, lines) :: Covers(NextDb(db, e), pair, lines)
  {
    hide TempOk, CallOk, FilesOk;
    var db' := NextDb(db, e);
    assert !Of(db', e.id, pair) && forall id | id != e.id :: Of(db', id, pair) <==> Of(db, id, pair);
  }

  lemma TableKeepsCalls(db: Db, e: DataEvent, c: nat)
    requires DataInv(db) && KeptInv(db) && Allowed(db, e) && IsTableEvent(e) && !Late(db, e)
    requires c in NextDb(db, e).calls && Live(NextDb(db, e), NextDb(db, e).calls[c])
    ensures CallSafe(NextDb(db, e), c)
  {
    hide SafePath, FileKey, TempOk, FilesOk, RowsOk, RowsSafe, SavedAll, Covers, Located, Selected;
    assert CallOk(db, c);
    if e.Arrive? {
      assert CallSafe(db, c);
      if db.calls[c].pair != Pair(db.run.value, e.session) || e.run != db.run { OtherArrival(db, e, db.calls[c].pair); }
    }
  }

  lemma StepKeepsRows(db: Db, e: DataEvent)
    requires DataInv(db) && KeptInv(db) && Allowed(db, e) && !Late(db, e) && !Clash(db, e)
    ensures KeptInv(NextDb(db, e))
  {
    hide NextDb, DataInv, RowsSafe, CallSafe, Allowed, Late, Clash, Live;
    var db' := NextDb(db, e);
    if IsTableEvent(e) {
      assert RowsSafe(db') by { if e.Arrive? { ArriveKeepsRowsSafe(db, e); } else { TableKeepsRowsSafe(db, e); } }
      forall c | c in db'.calls && Live(db', db'.calls[c]) ensures CallSafe(db', c) { TableKeepsCalls(db, e, c); }
    } else {
      RowsSafeInCall(db, e);
      forall c | c in db'.calls && Live(db', db'.calls[c]) ensures CallSafe(db', c) {
        if c == e.call { OwnIsSafe(db, e); } else { OthersSafe(db, e, c); }
      }
    }
  }

  lemma {:induction false} RunKeepsRows(db: Db, es: seq<DataEvent>)
    requires DataInv(db) && KeptInv(db) && KeptRun(db, es)
    ensures AllowedRun(db, es) && DataInv(RunDb(db, es)) && KeptInv(RunDb(db, es))
    decreases |es|
  {
    hide DataInv, KeptInv, NextDb, Allowed, Late, Clash;
    if es != [] {
      StepKeepsData(db, es[0]);
      StepKeepsRows(db, es[0]);
      RunKeepsRows(NextDb(db, es[0]), es[1..]);
    }
  }

  lemma NothingLost(db: Db, id: nat)
    requires KeptInv(db)
    ensures !Lost(db, id)
  {
    hide CallSafe;
  }

  /** No row is lost: in every state of every run without late rows and clashes, over any number of cycles, each row that
      ever arrived is in the details table, or was with its body in a file that was uploaded. */
  lemma EveryRowIsKept(es: seq<DataEvent>, id: nat)
    requires KeptRun(NO_DATA, es)
    ensures AllowedRun(NO_DATA, es) && !Lost(RunDb(NO_DATA, es), id)
  {
    hide RunDb, KeptRun, DataInv, KeptInv;
    NoDataInv();
    NoLoss();
    RunKeepsRows(NO_DATA, es);
    NothingLost(RunDb(NO_DATA, es), id);
  }

  // ---- exactly these two can lose a row ----

  ghost predicate CanLose(db: Db, id: nat) {
    exists es :: KeptRun(db, es) && AllowedRun(db, es) && Lost(RunDb(db, es), id)
  }

  lemma DueIsLost(db: Db, id: nat, es: seq<DataEvent>)
    requires Calm(es) && AllowedRun(db, es) && DataInv(RunDb(db, es)) && Due(RunDb(db, es), id)
    requires id in RunDb(db, es).bodies && !IsSaved(RunDb(db, es), id)
    ensures CanLose(db, id)
  {
    hide DataInv, AllowedRun, RunDb, Due, KeptRun;
    var more := DueIsDeleted(RunDb(db, es), id);
    DataAppend(db, es, more);
    CalmIsKept(db, es + more);
    assert Lost(RunDb(db, es + more), id);
  }

  /** A call that sends nothing of an unsaved row loses it. */
  lemma BadUploadLoses(db: Db, c: nat, sent: seq<Line>, id: nat)
    requires DataInv(db) && c in db.calls && Pending(db.calls[c]) && Live(db, db.calls[c]) && KeyOf(db.calls[c].pair) in db.temps
    requires Readable(FileToSend(db, c), sent) && id in db.details && Of(db, id, db.calls[c].pair)
    requires id in db.bodies && !IsSaved(db, id) && Line(id, db.bodies[id]) !in sent
    ensures CanLose(db, id)
  {
    hide DataInv, AllowedRun, RunDb, KeyOf, Readable, FileToSend, CanLose, Delivered, Due, IsSaved;
    var es := Deliver(db, c, sent);
    RunKeepsData(db, es);
    DeliveredIsDue(db, RunDb(db, es), c, sent, id);
    DueIsLost(db, id, es);
  }

  lemma DeliveredIsDue(db: Db, db': Db, c: nat, sent: seq<Line>, id: nat)
    requires c in db.calls && Live(db, db.calls[c]) && Delivered(db, db', c, sent)
    requires id in db.details && Of(db, id, db.calls[c].pair)
    requires id in db.bodies && !IsSaved(db, id) && Line(id, db.bodies[id]) !in sent
    ensures Due(db', id) && id in db'.bodies && !IsSaved(db', id)
  {
    hide KeyOf;
    assert Live(db', db'.calls[c]) && Of(db', id, db'.calls[c].pair) && HasSent(db'.calls[c]);
  }

  /** Whatever is open or garbled may be read as nothing. */
  lemma NothingToRead(db: Db, e: DataEvent, c: nat)
    requires DataInv(db) && Allowed(db, e) && e.Open?
    requires c in NextDb(db, e).calls && KeyOf(NextDb(db, e).calls[c].pair) == KeyOf(e.pair)
    requires c != e.call || Shared(db, e.pair)
    ensures KeyOf(e.pair) in NextDb(db, e).temps && Readable(FileToSend(NextDb(db, e), c), [])
  {
    hide FileKey, RowsOk, FilesOk, CycleOk, CallOk, IsExport, MayOpen;
    if KeyOf(e.pair) in db.temps { assert TempOk(db, KeyOf(e.pair)); }
  }

  lemma ClashLoses(db: Db, e: DataEvent) returns (id: nat)
    requires DataInv(db) && KeptInv(db) && Allowed(db, e) && Clash(db, e)
    ensures CanLose(NextDb(db, e), id)
  {
    hide DataInv, NextDb, CanLose, KeyOf, Readable, FileToSend, RowsSafe, OwnFile, Covers, IsExport, MayOpen;
    var db' := NextDb(db, e);
    StepKeepsData(db, e);
    CallFrame(db, e);
    if e.current && Shared(db, e.pair) && !SavedAll(db, e.pair) {
      id :| id in db.details && Of(db, id, e.pair) && !IsSaved(db, id);
      OpenedHas(db, e, id);
      NothingToRead(db, e, e.call);
      BadUploadLoses(db', e.call, [], id);
    } else {
      var c :| c in db.calls && Live(db, db.calls[c]) && !db.calls[c].stage.Sent? && KeyOf(db.calls[c].pair) == KeyOf(e.pair)
               && !SavedAll(db, db.calls[c].pair);
      assert CallSafe(db, c);
      id :| id in db.details && Of(db, id, db.calls[c].pair) && !IsSaved(db, id);
      ActiveHasBody(db, id);
      NotReopened(db, e, c);
      NothingToRead(db, e, c);
      BadUploadLoses(db', c, [], id);
    }
  }

  lemma ActiveHasBody(db: Db, id: nat)
    requires DataInv(db) && id in db.details
    ensures id in db.bodies
  {
    hide TempOk, CallOk, FilesOk, CycleOk;
  }

  lemma NotReopened(db: Db, e: DataEvent, c: nat)
    requires Allowed(db, e) && e.Open? && c in db.calls
    ensures c != e.call
  {
    hide IsExport, MayOpen;
  }

  lemma OpenedHas(db: Db, e: DataEvent, id: nat)
    requires DataInv(db) && Allowed(db, e) && e.Open? && e.current && id in db.details && Of(db, id, e.pair)
    ensures e.lines != [] && id in db.bodies && db.run == Some(e.pair.run)
  {
    hide TempOk, CallOk, FilesOk, CycleOk;
    assert Line(id, db.details[id]) in e.lines;
  }

  lemma LateLoses(db: Db, e: DataEvent)
    requires DataInv(db) && Allowed(db, e) && Late(db, e)
    ensures CanLose(NextDb(db, e), e.id)
  {
    hide DataInv, CanLose, KeyOf, Readable, FileToSend, AllowedRun, RunDb, Due, IsSaved;
    var db' := NextDb(db, e);
    StepKeepsData(db, e);
    FreshIsUnsaved(db, e);
    if e.session in db.archived {
      LateIsDue(db, e);
      DataEnd(db');
      DueIsLost(db', e.id, []);
    } else {
      var c :| c in db.calls && Live(db, db.calls[c]) && db.calls[c].pair == Pair(db.run.value, e.session) && !Doomed(db, c);
      if HasSent(db.calls[c]) {
        LateIsDue(db, e);
        DataEnd(db');
        DueIsLost(db', e.id, []);
      } else if db.calls[c].lines == [] {
        EmptyIsDue(db', c, e.id);
        OneEvent(db', Finish(c));
        RunKeepsData(db', [Finish(c)]);
        DueIsLost(db', e.id, [Finish(c)]);
      } else {
        var sent := SafeToSend(db, e, c);
        BadUploadLoses(db', c, sent, e.id);
      }
    }
  }

  lemma FreshIsUnsaved(db: Db, e: DataEvent)
    requires DataInv(db) && Allowed(db, e) && e.Arrive?
    ensures e.id in NextDb(db, e).bodies && !IsSaved(NextDb(db, e), e.id)
  {
    hide TempOk, CallOk, CycleOk, RowsOk;
  }

  lemma LateIsDue(db: Db, e: DataEvent)
    requires Allowed(db, e) && e.Arrive? && db.run.Some? && e.run == db.run
    requires e.session in db.archived
             || exists c | c in db.calls :: Live(db, db.calls[c]) && db.calls[c].pair == Pair(db.run.value, e.session) && HasSent(db.calls[c])
    ensures Due(NextDb(db, e), e.id)
  {
    var db' := NextDb(db, e);
    if e.session !in db.archived {
      var c :| c in db.calls && Live(db, db.calls[c]) && db.calls[c].pair == Pair(db.run.value, e.session) && HasSent(db.calls[c]);
      assert Live(db', db'.calls[c]) && Of(db', e.id, db'.calls[c].pair);
    }
  }

  lemma EmptyIsDue(db: Db, c: nat, id: nat)
    requires AtStage(db, c, Writing) && db.calls[c].lines == [] && Live(db, db.calls[c]) && Of(db, id, db.calls[c].pair) && id in db.details
    requires id in db.bodies && !IsSaved(db, id)
    ensures Allowed(db, Finish(c)) && Due(NextDb(db, Finish(c)), id) && !IsSaved(NextDb(db, Finish(c)), id) && id in NextDb(db, Finish(c)).bodies
    ensures Calm([Finish(c)])
  {
    hide KeyOf, Closed;
    var db' := NextDb(db, Finish(c));
    assert c in db'.calls && Live(db', db'.calls[c]) && Of(db', id, db'.calls[c].pair);
  }

  /** What a file holds before a row arrives does not have the row. */
  lemma SafeToSend(db: Db, e: DataEvent, c: nat) returns (sent: seq<Line>)
    requires DataInv(db) && Allowed(db, e) && e.Arrive? && c in db.calls && Pending(db.calls[c]) && KeyOf(db.calls[c].pair) in db.temps
    ensures Readable(FileToSend(NextDb(db, e), c), sent) && Line(e.id, e.body) !in sent
  {
    hide FileKey, RowsOk, FilesOk, CycleOk, CallOk;
    assert TempOk(db, KeyOf(db.calls[c].pair));
    var f := FileToSend(NextDb(db, e), c);
    sent := if f.state.Whole? then f.lines else [];
  }

  /** In every state that is reached without late rows and clashes, a step can lose a row by what follows (with nothing
      else late and no other clash) exactly if it is one of the two. */
  lemma LostIff(before: seq<DataEvent>, e: DataEvent)
    requires KeptRun(NO_DATA, before) && AllowedRun(NO_DATA, before) && Allowed(RunDb(NO_DATA, before), e)
    ensures (exists id :: CanLose(NextDb(RunDb(NO_DATA, before), e), id))
            <==> Late(RunDb(NO_DATA, before), e) || Clash(RunDb(NO_DATA, before), e)
    ensures Late(RunDb(NO_DATA, before), e) ==> CanLose(NextDb(RunDb(NO_DATA, before), e), e.id)
  {
    hide KeptRun, AllowedRun, RunDb, DataInv, KeptInv, Late, Clash, Allowed, NextDb, CanLose;
    var db := RunDb(NO_DATA, before);
    NoDataInv();
    NoLoss();
    RunKeepsRows(NO_DATA, before);
    if Late(db, e) {
      LateLoses(db, e) by { LateArrives(db, e); }
      assert CanLose(NextDb(db, e), e.id) by { LateArrives(db, e); }
    } else if Clash(db, e) {
      var id := ClashLoses(db, e);
    } else {
      StepKeepsData(db, e);
      StepKeepsRows(db, e);
      forall id ensures !CanLose(NextDb(db, e), id) { CannotLose(NextDb(db, e), id); }
    }
  }

  lemma LateArrives(db: Db, e: DataEvent)
    requires Late(db, e)
    ensures e.Arrive?
  {}

  lemma CannotLose(db: Db, id: nat)
    requires DataInv(db) && KeptInv(db)
    ensures !CanLose(db, id)
  {
    hide KeptRun, AllowedRun, RunDb, DataInv, KeptInv, Lost;
    forall es | KeptRun(db, es) && AllowedRun(db, es) ensures !Lost(RunDb(db, es), id) {
      RunKeepsRows(db, es);
      NothingLost(RunDb(db, es), id);
    }
  }

  // ---- runs in which rows are lost ----

  lemma KeptCons(db: Db, e: DataEvent, rest: seq<DataEvent>)
    requires Allowed(db, e) && !Late(db, e) && !Clash(db, e) && KeptRun(NextDb(db, e), rest)
    ensures KeptRun(db, [e] + rest)
  {
    hide Allowed, NextDb, Late, Clash;
    assert ([e] + rest)[1..] == rest;
  }

  lemma KeptEnd(db: Db)
    ensures KeptRun(db, [])
  {}

  lemma {:induction false} KeptAppend(db: Db, es: seq<DataEvent>, more: seq<DataEvent>)
    requires KeptRun(db, es) && AllowedRun(db, es) && KeptRun(RunDb(db, es), more)
    ensures KeptRun(db, es + more)
    decreases |es|
  {
    hide Allowed, NextDb, Late, Clash;
    if es == [] {
      assert es + more == more;
    } else {
      KeptAppend(NextDb(db, es[0]), es[1..], more);
      assert (es + more)[1..] == es[1..] + more;
    }
  }

  lemma {:induction false} NoOpenIsKept(db: Db, es: seq<DataEvent>)
    requires AllowedRun(db, es) && db.run.None? && (forall e | e in es :: e.Arrive? || e.BeginRun?)
    requires forall i | 0 <= i < |es| - 1 :: es[i].Arrive?
    ensures KeptRun(db, es)
    decreases |es|
  {
    if |es| > 0 {
      assert es[0] in es && forall e | e in es[1..] :: e in es;
      if |es| > 1 {
        NoOpenIsKept(NextDb(db, es[0]), es[1..]);
      } else {
        KeptEnd(NextDb(db, es[0]));
      }
    }
  }

  /** With no other call under way and the file not there, a query is no clash. */
  lemma LoneCallIsKept(db: Db, c: nat, pair: Pair, lines: seq<Line>)
    requires Allowed(db, Open(c, pair, lines, true)) && lines != [] && KeyOf(pair) !in db.temps && db.calls == map[]
    ensures KeptRun(db, Archiving(c, pair, lines))
  {
    hide Allowed, NextDb, KeyOf, AllowedRun, RunDb, SavedAll;
    var e := Open(c, pair, lines, true);
    Undisturbed(db, c, pair, lines);
    var rest := [Finish(c)] + ([Upload(c, lines, true)] + [Return(c, true)]);
    assert Archiving(c, pair, lines) == [e] + rest;
    SplitRun(db, e, rest);
    CalmIsKept(NextDb(db, e), rest);
    KeptCons(db, e, rest);
  }

  lemma SplitRun(db: Db, e: DataEvent, rest: seq<DataEvent>)
    requires AllowedRun(db, [e] + rest)
    ensures Allowed(db, e) && AllowedRun(NextDb(db, e), rest)
  {
    hide Allowed, NextDb;
    assert ([e] + rest)[1..] == rest;
  }

  /** A second row that arrives between the cursor and the upload of the first is late, and can be lost. */
  lemma LateRowIsLost(run: string, s: Session, a: string, b: string)
    ensures var before := ([Arrive(0, Some(run), s, a)] + [BeginRun(run)]) + [Open(0, Pair(run, s), [Line(0, a)], true)];
            var e := Arrive(1, Some(run), s, b);
            && KeptRun(NO_DATA, before) && AllowedRun(NO_DATA, before) && Allowed(RunDb(NO_DATA, before), e)
            && CanLose(NextDb(RunDb(NO_DATA, before), e), 1)
  {
    hide KeyOf, KeptRun, AllowedRun, RunDb, CanLose, NextDb;
    var es1, open := [Arrive(0, Some(run), s, a)] + [BeginRun(run)], Open(0, Pair(run, s), [Line(0, a)], true);
    OneRowIsReached(run, s, a);
    OneRowOpens(run, s, a);
    var db := OneRow(run, s, a);
    NoOpenIsKept(NO_DATA, es1);
    OneEvent(db, open);
    KeptEnd(NextDb(db, open));
    KeptCons(db, open, []);
    assert [open] + [] == [open];
    DataAppend(NO_DATA, es1, [open]);
    KeptAppend(NO_DATA, es1, [open]);
    SecondIsLate(run, s, a, b);
    LostIff(es1 + [open], Arrive(1, Some(run), s, b));
  }

  lemma SecondIsLate(run: string, s: Session, a: string, b: string)
    ensures var open := Open(0, Pair(run, s), [Line(0, a)], true); var e := Arrive(1, Some(run), s, b);
            && Allowed(OneRow(run, s, a), open)
            && Allowed(NextDb(OneRow(run, s, a), open), e) && Late(NextDb(OneRow(run, s, a), open), e)
  {
    hide FileKey;
    OneRowOpens(run, s, a);
    var db := NextDb(OneRow(run, s, a), Open(0, Pair(run, s), [Line(0, a)], true));
    assert Live(db, db.calls[0]) && !Doomed(db, 0);
  }

  /** Two sessions of one run with one file, whose rows both arrive before the run is archived. The second call opens the
      temporary file that the first has written and not sent; the first then sends an empty file and succeeds, the
      second finds no file and fails, and the clean-up deletes the row of the first. */
  lemma SharedTempFileLosesRow(run: string, s: Session, t: Session, a: string, b: string)
    requires s != t && FileKey(run, s) == FileKey(run, t)
    ensures var p, q := Pair(run, s), Pair(run, t);
            var arrivals := [Arrive(0, Some(run), s, a)] + ([Arrive(1, Some(run), t, b)] + [BeginRun(run)]);
            var first := [Open(0, p, [Line(0, a)], true)] + [Finish(0)];
            var clash := Open(1, q, [Line(1, b)], true);
            var rest := [Upload(0, [], true)] + ([Return(0, true)] + ([Fail(1)] + ([Delete([s])] + [Commit])));
            var es := arrivals + (first + ([clash] + rest));
            && KeptRun(NO_DATA, arrivals + first) && AllowedRun(NO_DATA, es) && Lost(RunDb(NO_DATA, es), 0)
  {
    hide KeyOf, FileKey, KeptRun, AllowedRun, RunDb, NextDb, Lost;
    var p, q := Pair(run, s), Pair(run, t);
    var arrivals := [Arrive(0, Some(run), s, a)] + ([Arrive(1, Some(run), t, b)] + [BeginRun(run)]);
    var open, finish := Open(0, p, [Line(0, a)], true), Finish(0);
    var first := [open] + [finish];
    var clash := Open(1, q, [Line(1, b)], true);
    var rest := [Upload(0, [], true)] + ([Return(0, true)] + ([Fail(1)] + ([Delete([s])] + [Commit])));
    TwoRowsAreReached(run, s, t, a, b);
    NoOpenIsKept(NO_DATA, arrivals);
    var db := TwoRows(run, s, t, a, b);
    FirstIsWritten(run, s, t, a, b);
    OneEvent(NextDb(db, open), finish);
    DataCons(db, open, [finish]);
    CalmIsKept(NextDb(db, open), [finish]);
    KeptCons(db, open, [finish]);
    KeptAppend(NO_DATA, arrivals, first);
    SecondDisturbs(run, s, t, a, b);
    DisturbedRun(run, s, t, a, b);
    DataCons(FirstWritten(run, s, t, a, b), clash, rest);
    DataAppend(db, first, [clash] + rest);
    DataAppend(NO_DATA, arrivals, first + ([clash] + rest));
  }

  function FirstWritten(run: string, s: Session, t: Session, a: string, b: string): Db {
    var p := Pair(run, s);
    TwoRows(run, s, t, a, b).(calls := map[0 := Call(1, p, [Line(0, a)], Written)], temps := map[KeyOf(p) := Temp([Line(0, a)], Whole, {})],
                              exported := {p})
  }

  lemma FirstIsWritten(run: string, s: Session, t: Session, a: string, b: string)
    requires s != t
    ensures var open := Open(0, Pair(run, s), [Line(0, a)], true); var db := TwoRows(run, s, t, a, b);
            && Allowed(db, open) && !Clash(db, open) && Allowed(NextDb(db, open), Finish(0))
            && NextDb(NextDb(db, open), Finish(0)) == FirstWritten(run, s, t, a, b)
  {
    hide FileKey;
    var db, p := TwoRows(run, s, t, a, b), Pair(run, s);
    assert IsExport(db, p, [Line(0, a)]);
    OpensOwn(db, 0, p, [Line(0, a)]);
    assert Closing(db, 0, p, [Line(0, a)]) == FirstWritten(run, s, t, a, b);
  }

  /** Both calls are under way and the file is the second one's. */
  function Disturbed(run: string, s: Session, t: Session, a: string, b: string): Db {
    var p, q := Pair(run, s), Pair(run, t);
    TwoRows(run, s, t, a, b).(calls := map[0 := Call(1, p, [Line(0, a)], Written), 1 := Call(1, q, [Line(1, b)], Writing)],
                              temps := map[KeyOf(p) := Temp([Line(1, b)], Growing, {1})], exported := {p, q})
  }

  lemma SecondDisturbs(run: string, s: Session, t: Session, a: string, b: string)
    requires s != t && FileKey(run, s) == FileKey(run, t)
    ensures var clash := Open(1, Pair(run, t), [Line(1, b)], true); var db := FirstWritten(run, s, t, a, b);
            Allowed(db, clash) && NextDb(db, clash) == Disturbed(run, s, t, a, b)
  {
    hide FileKey;
    var db, q := FirstWritten(run, s, t, a, b), Pair(run, t);
    assert IsExport(db, q, [Line(1, b)]);
  }

  lemma DisturbedRun(run: string, s: Session, t: Session, a: string, b: string)
    requires s != t && FileKey(run, s) == FileKey(run, t)
    ensures var db := Disturbed(run, s, t, a, b);
            var rest := [Upload(0, [], true)] + ([Return(0, true)] + ([Fail(1)] + ([Delete([s])] + [Commit])));
            AllowedRun(db, rest) && Lost(RunDb(db, rest), 0)
  {
    hide FileKey, SafePath, AllowedRun, RunDb;
    var p, q := Pair(run, s), Pair(run, t);
    var db := Disturbed(run, s, t, a, b);
    var db1 := NextDb(db, Upload(0, [], true));
    assert db1.temps == map[] && db1.calls == map[0 := Call(1, p, [Line(0, a)], Sent), 1 := Call(1, q, [Line(1, b)], Writing)];
    EmptySentRun(db1, p, q, a, b);
    DataCons(db, Upload(0, [], true), [Return(0, true)] + ([Fail(1)] + ([Delete([s])] + [Commit])));
  }

  lemma EmptySentRun(db: Db, p: Pair, q: Pair, a: string, b: string)
    requires db.calls == map[0 := Call(1, p, [Line(0, a)], Sent), 1 := Call(1, q, [Line(1, b)], Writing)]
    requires db.cycle == 1 && db.run == Some(p.run) && db.archived == {} && Of(db, 0, p) && 0 in db.details && 0 in db.bodies && db.saved == {}
    ensures var rest := [Return(0, true)] + ([Fail(1)] + ([Delete([p.session])] + [Commit]));
            AllowedRun(db, rest) && Lost(RunDb(db, rest), 0)
  {
    hide FileKey, SafePath, AllowedRun, RunDb, Lost;
    var db2 := NextDb(db, Return(0, true));
    assert db2.calls == map[1 := Call(1, q, [Line(1, b)], Writing)] && db2.archived == {p.session};
    var db3 := NextDb(db2, Fail(1));
    DeletedUnsaved(db3, p.session);
    DataCons(db2, Fail(1), [Delete([p.session])] + [Commit]);
    DataCons(db, Return(0, true), [Fail(1)] + ([Delete([p.session])] + [Commit]));
  }

  lemma DeletedUnsaved(db: Db, s: Session)
    requires db.run.Some? && db.archived == {s} && Of(db, 0, Pair(db.run.value, s)) && 0 in db.details && 0 in db.bodies && db.saved == {}
    ensures var es := [Delete([s])] + [Commit]; AllowedRun(db, es) && Lost(RunDb(db, es), 0)
  {
    hide SafePath, AllowedRun, RunDb;
    var db1 := NextDb(db, Delete([s]));
    OneEvent(db1, Commit);
    DataCons(db, Delete([s]), [Commit]);
  }
}
