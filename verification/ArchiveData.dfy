/** What archiving does to the data: a worker exports the rows of a session and uploads them as one file, and the
    coordinator then deletes the rows of the sessions that succeeded. Rows may arrive, calls may be repeated and
    their replies lost at any time in between. */
module ArchiveData {
  import opened Text
  import opened ArchiveDispatch
  import opened BlobKey

  // ---- keys ----

  const NULL_SESSION_DIR := "_null_session"

  /** `_safe_path`. */
  function SafePath(segment: string): string {
    ReplaceChar(ReplaceChar(segment, ','), '/')
  }

  function Display(session: Session): string {
    if session.Null? || session.name == "" then NULL_SESSION_DIR else session.name
  }

  function FileKey(run: string, session: Session): string {
    SafePath(run) + "/" + (SafePath(Display(session)) + ".jsonl.gz")
  }

  lemma SafePathHasNoSlash(segment: string)
    ensures '/' !in SafePath(segment) && ',' !in SafePath(segment)
  {
    ReplaceCharRemoves(segment, ',');
    ReplaceCharRemoves(ReplaceChar(segment, ','), '/');
  }

  /** Two sessions share a file exactly if their runs and their displayed names have the same safe form. */
  lemma SameFileIff(run: string, session: Session, run': string, session': Session)
    ensures FileKey(run, session) == FileKey(run', session') <==>
              SafePath(run) == SafePath(run') && SafePath(Display(session)) == SafePath(Display(session'))
  {
    hide SafePath, Display;
    SafePathHasNoSlash(run);
    SafePathHasNoSlash(run');
    var a, b := SafePath(Display(session)), SafePath(Display(session'));
    if FileKey(run, session) == FileKey(run', session') {
      SplitOnce(SafePath(run), a + ".jsonl.gz", SafePath(run'), b + ".jsonl.gz");
      assert a == (a + ".jsonl.gz")[..|a|] && b == (b + ".jsonl.gz")[..|b|];
    }
  }

  /** NULL, the empty session id and the placeholder itself all have the same file. */
  lemma NullSessionsShareAFile(run: string)
    ensures FileKey(run, Null) == FileKey(run, Id("")) == FileKey(run, Id(NULL_SESSION_DIR))
  {
    hide SafePath;
  }

  // ---- the export loop ----

  const BATCH_SIZE := 500

  datatype Line = Line(id: nat, body: string)

  /** `FETCH 500 FROM cursor` at position `pos`. */
  function Fetch(rows: seq<Line>, pos: nat): seq<Line>
    requires pos <= |rows|
  {
    if |rows| - pos <= BATCH_SIZE then rows[pos..] else rows[pos..pos + BATCH_SIZE]
  }

  /** `_export_session`: batch by batch, the file gets every row of the cursor once and in order. */
  method ExportSession(rows: seq<Line>) returns (file: seq<Line>, recordCount: nat)
    ensures file == rows && recordCount == |rows|
  {
    file, recordCount := [], 0;
    var pos := 0;
    while true
      invariant pos <= |rows| && file == rows[..pos] && recordCount == pos
      decreases |rows| - pos
    {
      var batch := Fetch(rows, pos);
      if batch == [] {
        assert rows[..pos] == rows;
        break;
      }
      for i := 0 to |batch|
        invariant file == rows[..pos] + batch[..i] && recordCount == pos + i
      {
        file := file + [batch[i]];
        recordCount := recordCount + 1;
      }
      assert rows[..pos] + batch[..|batch|] == rows[..pos + |batch|];
      pos := pos + |batch|;
    }
  }

  // ---- the tables, the temporary files and the storage ----

  datatype Pair = Pair(run: string, session: Session)

  datatype Meta = Meta(run: Option<string>, session: Session, location: Option<string>)

  /** A call between two of its steps: its file is open; closed; uploaded. */
  datatype Stage = Writing | Written | Sent

  /** One execution of `archive`, with the rows of its cursor. Its cycle is 0 if nobody waits for its reply. */
  datatype Call = Call(cycle: nat, pair: Pair, lines: seq<Line>, stage: Stage)

  datatype FileState = Growing | Whole | Garbled

  /** A temporary file. `lines` is what it will hold or holds; in a garbled file, the lines of all that wrote to it at
      the same time. `writers`: the calls that have it open. */
  datatype Temp = Temp(lines: seq<Line>, state: FileState, writers: set<nat>)

  /** The transaction of a clean-up between its two statements: `ids` are the rows that the first has deleted. */
  datatype Cleanup = Idle | Deleting(run: string, success: seq<Session>, ids: set<nat>)

  /** `metas`, `details`: the two tables; `files`: the storage; `temps`: the directory of temporary files, which all
      workers share; `calls`: the calls under way, also those of earlier cycles that nobody waits for; `run`: the run
      that is being archived, and `cycle` its number; `archived`: the sessions of this cycle whose call has returned.
      The rest is history: the body of every row, the lines that were ever uploaded, and the sessions that were ever
      exported. */
  datatype Db = Db(
    metas: map<nat, Meta>, details: map<nat, string>, files: map<string, seq<Line>>, temps: map<string, Temp>,
    cycle: nat, run: Option<string>, calls: map<nat, Call>, archived: set<Session>, cleanup: Cleanup,
    bodies: map<nat, string>, saved: set<Line>, exported: set<Pair>)

  /** `Open` executes the query and truncates the file; without `current` it is an attempt that Ray repeats for an
      earlier cycle. `Upload` sends what the file holds at that moment, and `moved` says that the storage takes the
      file itself. `Return` removes the file and replies; `Fail` removes it and raises; `Crash` is the end of the
      process. `Delete` and `Commit` are the two statements of the clean-up; what the first deletes is visible to
      others after the second. */
  datatype DataEvent =
    | Arrive(id: nat, run: Option<string>, session: Session, body: string)
    | BeginRun(target: string)
    | Open(call: nat, pair: Pair, lines: seq<Line>, current: bool)
    | Finish(call: nat)
    | Upload(call: nat, sent: seq<Line>, moved: bool)
    | Return(call: nat, replied: bool)
    | Fail(call: nat)
    | Crash(call: nat)
    | Delete(success: seq<Session>)
    | Commit
    | RollBack

  predicate Of(db: Db, id: nat, pair: Pair) {
    id in db.metas && db.metas[id].run == Some(pair.run) && db.metas[id].session == pair.session
  }

  /** The cursor's rows: those of the session that are still active, each once. */
  ghost predicate IsExport(db: Db, pair: Pair, lines: seq<Line>) {
    && (forall l | l in lines :: Of(db, l.id, pair) && l.id in db.details && l.body == db.details[l.id])
    && Covers(db, pair, lines)
    && (forall i, j | 0 <= i < j < |lines| :: lines[i].id != lines[j].id)
  }

  /** The lines have every active row of the session. */
  ghost predicate Covers(db: Db, pair: Pair, lines: seq<Line>) {
    forall id | id in db.details && Of(db, id, pair) :: Line(id, db.details[id]) in lines
  }

  function KeyOf(pair: Pair): string {
    FileKey(pair.run, pair.session)
  }

  /** The coordinator waits for the reply of this call. */
  predicate Live(db: Db, c: Call) {
    c.cycle == db.cycle && db.run == Some(c.pair.run)
  }

  predicate AtStage(db: Db, call: nat, stage: Stage) {
    call in db.calls && db.calls[call].stage == stage
  }

  /** What a reader of the file may get: all of a whole file, the beginning of a growing one, any of the lines of a
      garbled one. */
  ghost predicate Readable(f: Temp, sent: seq<Line>) {
    match f.state
    case Whole => sent == f.lines
    case Growing => sent <= f.lines
    case Garbled => forall l | l in sent :: l in f.lines
  }

  /** The rows that a clean-up selects: `run_id = … AND session_id IN …`, or `IS NULL`. */
  predicate Selected(db: Db, run: string, success: seq<Session>, id: nat) {
    id in db.metas && db.metas[id].run == Some(run) && db.metas[id].session in success
  }

  function Located(db: Db, run: string, success: seq<Session>, id: nat): Meta
    requires id in db.metas
  {
    var m := db.metas[id];
    if Selected(db, run, success, id) && m.location.None? then m.(location := Some(SafePath(run) + "/")) else m
  }

  // ---- the steps ----

  /** Truncating a file that another call is writing garbles it for both. */
  function Truncated(db: Db, call: nat, key: string, lines: seq<Line>): Temp {
    if key in db.temps && db.temps[key].writers != {} then
      Temp(db.temps[key].lines + lines, Garbled, db.temps[key].writers + {call})
    else Temp(lines, Growing, {call})
  }

  function OnOpen(db: Db, call: nat, pair: Pair, lines: seq<Line>, current: bool): Db {
    db.(calls := db.calls[call := Call(if current then db.cycle else 0, pair, lines, Writing)],
        temps := db.temps[KeyOf(pair) := Truncated(db, call, KeyOf(pair), lines)],
        exported := db.exported + {pair})
  }

  /** The file after a call has closed it. */
  function Closed(f: Temp, call: nat): Temp {
    if call !in f.writers then f
    else f.(state := if f.state.Growing? then Whole else f.state, writers := f.writers - {call})
  }

  function OnFinish(db: Db, call: nat): Db
    requires call in db.calls
  {
    var key := KeyOf(db.calls[call].pair);
    db.(calls := db.calls[call := db.calls[call].(stage := Written)],
        temps := if key in db.temps then db.temps[key := Closed(db.temps[key], call)] else db.temps)
  }

  function OnUpload(db: Db, call: nat, sent: seq<Line>, moved: bool): Db
    requires call in db.calls
  {
    var key := KeyOf(db.calls[call].pair);
    db.(calls := db.calls[call := db.calls[call].(stage := Sent)],
        temps := if moved then db.temps - {key} else db.temps,
        files := db.files[key := sent], saved := db.saved + set l | l in sent)
  }

  /** A call is over and removes the file, whoever has written it. */
  function Gone(db: Db, call: nat): Db
    requires call in db.calls
  {
    db.(calls := db.calls - {call}, temps := db.temps - {KeyOf(db.calls[call].pair)})
  }

  function OnReturn(db: Db, call: nat, replied: bool): Db
    requires call in db.calls
  {
    if replied && Live(db, db.calls[call]) then
      Gone(db, call).(archived := db.archived + {db.calls[call].pair.session})
    else Gone(db, call)
  }

  function OnCrash(db: Db, call: nat): Db
    requires call in db.calls
  {
    var key := KeyOf(db.calls[call].pair);
    db.(calls := db.calls - {call},
        temps := if key in db.temps then db.temps[key := db.temps[key].(writers := db.temps[key].writers - {call})] else db.temps)
  }

  function OnDelete(db: Db, run: string, success: seq<Session>): Db {
    db.(run := None, archived := {},
        cleanup := if success == [] then Idle
                   else Deleting(run, success, set id | id in db.details && Selected(db, run, success, id)))
  }

  function OnCommit(db: Db, run: string, success: seq<Session>, ids: set<nat>): Db {
    db.(details := map id | id in db.details && id !in ids :: db.details[id],
        metas := map id | id in db.metas :: Located(db, run, success, id),
        cleanup := Idle)
  }

  /** A session has one call at a time that the coordinator waits for, and none after it has succeeded. */
  ghost predicate MayOpen(db: Db, pair: Pair) {
    && db.run == Some(pair.run) && pair.session !in db.archived
    && forall c | c in db.calls :: !(Live(db, db.calls[c]) && db.calls[c].pair == pair)
  }

  ghost predicate Allowed(db: Db, e: DataEvent) {
    match e
    case Arrive(id, _, _, _) => id !in db.metas && id !in db.details && id !in db.bodies
    case BeginRun(_) => db.cleanup.Idle?
    case Open(c, pair, lines, current) =>
      c !in db.calls && IsExport(db, pair, lines) && if current then MayOpen(db, pair) else pair in db.exported
    case Finish(c) => AtStage(db, c, Writing)
    case Upload(c, sent, _) =>
      && AtStage(db, c, Written) && db.calls[c].lines != []
      && KeyOf(db.calls[c].pair) in db.temps && Readable(db.temps[KeyOf(db.calls[c].pair)], sent)
    case Return(c, _) => AtStage(db, c, Sent) || (AtStage(db, c, Written) && db.calls[c].lines == [])
    case Fail(c) => c in db.calls
    case Crash(c) => c in db.calls
    case Delete(success) => db.run.Some? && forall s | s in success :: s in db.archived
    case Commit => db.cleanup.Deleting?
    case RollBack => db.cleanup.Deleting?
  }

  function NextDb(db: Db, e: DataEvent): Db
    requires Allowed(db, e)
  {
    match e
    case Arrive(id, run, session, body) =>
      db.(metas := db.metas[id := Meta(run, session, None)], details := db.details[id := body], bodies := db.bodies[id := body])
    case BeginRun(target) => db.(cycle := db.cycle + 1, run := Some(target), archived := {})
    case Open(c, pair, lines, current) => OnOpen(db, c, pair, lines, current)
    case Finish(c) => OnFinish(db, c)
    case Upload(c, sent, moved) => OnUpload(db, c, sent, moved)
    case Return(c, replied) => OnReturn(db, c, replied)
    case Fail(c) => Gone(db, c)
    case Crash(c) => OnCrash(db, c)
    case Delete(success) => OnDelete(db, db.run.value, success)
    case Commit => OnCommit(db, db.cleanup.run, db.cleanup.success, db.cleanup.ids)
    case RollBack => db.(cleanup := Idle)
  }

  ghost predicate AllowedRun(db: Db, es: seq<DataEvent>)
    decreases |es|
  {
    es == [] || (Allowed(db, es[0]) && AllowedRun(NextDb(db, es[0]), es[1..]))
  }

  ghost function RunDb(db: Db, es: seq<DataEvent>): Db
    requires AllowedRun(db, es)
    decreases |es|
  {
    if es == [] then db else RunDb(NextDb(db, es[0]), es[1..])
  }

  const NO_DATA := Db(map[], map[], map[], map[], 0, None, map[], {}, Idle, map[], {}, {})

  // ---- what every step keeps ----

  /** A line is a row that has arrived. */
  predicate Known(db: Db, l: Line) {
    l.id in db.bodies && l.body == db.bodies[l.id]
  }

  ghost predicate RowsOk(db: Db) {
    && db.bodies.Keys == db.metas.Keys
    && (forall id | id in db.details :: id in db.metas && db.details[id] == db.bodies[id])
    && (forall id | id in db.metas && id !in db.details ::
          db.metas[id].run.Some? && Pair(db.metas[id].run.value, db.metas[id].session) in db.exported)
  }

  ghost predicate FilesOk(db: Db) {
    && (forall key, l | key in db.files && l in db.files[key] :: Known(db, l))
    && (forall l | l in db.saved :: Known(db, l))
  }

  /** A call that has a file open, and the only one if the file is growing. */
  ghost predicate TempOk(db: Db, key: string)
    requires key in db.temps
  {
    var f := db.temps[key];
    && (forall l | l in f.lines :: Known(db, l))
    && (forall c | c in f.writers :: AtStage(db, c, Writing) && KeyOf(db.calls[c].pair) == key)
    && (f.state.Whole? ==> f.writers == {})
    && (f.state.Growing? ==> forall c | c in f.writers :: f.writers == {c} && db.calls[c].lines == f.lines)
  }

  ghost predicate CallOk(db: Db, c: nat)
    requires c in db.calls
  {
    var x := db.calls[c];
    && x.cycle <= db.cycle && x.pair in db.exported && (forall l | l in x.lines :: Known(db, l))
    && (Live(db, x) ==>
          && x.pair.session !in db.archived
          && (forall l | l in x.lines :: l.id in db.details && Of(db, l.id, x.pair))
          && (forall d | d in db.calls && d != c :: !(Live(db, db.calls[d]) && db.calls[d].pair == x.pair)))
  }

  ghost predicate CycleOk(db: Db) {
    && (db.run.Some? ==> db.cycle >= 1 && db.cleanup.Idle?)
    && (db.run.None? ==> db.archived == {})
    && (forall s | s in db.archived :: Pair(db.run.value, s) in db.exported)
    && (db.cleanup.Deleting? ==>
          forall id | id in db.cleanup.ids ::
            && id in db.details && Selected(db, db.cleanup.run, db.cleanup.success, id)
            && Pair(db.cleanup.run, db.metas[id].session) in db.exported)
  }

  ghost predicate DataInv(db: Db) {
    && RowsOk(db) && FilesOk(db) && CycleOk(db)
    && (forall key | key in db.temps :: TempOk(db, key))
    && (forall c | c in db.calls :: CallOk(db, c))
  }

  lemma NoDataInv()
    ensures DataInv(NO_DATA)
  {}

  /** The steps that leave the calls alone. */
  predicate IsTableEvent(e: DataEvent) {
    e.Arrive? || e.BeginRun? || e.Delete? || e.Commit? || e.RollBack?
  }

  /** What a step of call `c` leaves alone: the tables, and other calls. */
  ghost predicate OneCall(db: Db, db': Db, c: nat) {
    && db'.metas == db.metas && db'.details == db.details && db'.bodies == db.bodies
    && db'.cycle == db.cycle && db'.run == db.run && db'.cleanup == db.cleanup
    && (forall d | d in db'.calls && d != c :: d in db.calls && db'.calls[d] == db.calls[d])
    && (forall d | d in db.calls && d != c :: d in db'.calls)
  }

  /** What a step with this key leaves alone: the files under other keys. */
  ghost predicate OneKey(db: Db, db': Db, key: string) {
    && (forall k | k != key :: (k in db'.temps <==> k in db.temps) && (k in db.temps ==> db'.temps[k] == db.temps[k]))
    && (forall k | k != key :: (k in db'.files <==> k in db.files) && (k in db.files ==> db'.files[k] == db.files[k]))
  }

  lemma OpenFrame(db: Db, c: nat, pair: Pair, lines: seq<Line>, current: bool)
    ensures var db' := OnOpen(db, c, pair, lines, current);
            && OneCall(db, db', c) && OneKey(db, db', KeyOf(pair)) && db'.archived == db.archived
            && db'.files == db.files && db'.saved == db.saved && db'.exported == db.exported + {pair}
            && c in db'.calls && db'.calls[c] == Call(if current then db.cycle else 0, pair, lines, Writing)
  {
    hide FileKey, Truncated;
  }

  lemma FinishFrame(db: Db, c: nat)
    requires c in db.calls
    ensures var db' := OnFinish(db, c);
            && OneCall(db, db', c) && OneKey(db, db', KeyOf(db.calls[c].pair)) && db'.archived == db.archived
            && db'.files == db.files && db'.saved == db.saved && db'.exported == db.exported
            && c in db'.calls && db'.calls[c] == db.calls[c].(stage := Written)
  {
    hide FileKey, Closed;
  }

  lemma UploadFrame(db: Db, c: nat, sent: seq<Line>, moved: bool)
    requires c in db.calls
    ensures var db' := OnUpload(db, c, sent, moved);
            && OneCall(db, db', c) && OneKey(db, db', KeyOf(db.calls[c].pair)) && db'.archived == db.archived && db'.exported == db.exported
            && db'.files == db.files[KeyOf(db.calls[c].pair) := sent] && db'.saved == db.saved + (set l | l in sent)
            && c in db'.calls && db'.calls[c] == db.calls[c].(stage := Sent)
  {
    hide FileKey;
  }

  lemma GoneFrame(db: Db, c: nat)
    requires c in db.calls
    ensures var db' := Gone(db, c);
            && OneCall(db, db', c) && OneKey(db, db', KeyOf(db.calls[c].pair)) && KeyOf(db.calls[c].pair) !in db'.temps
            && db'.archived == db.archived && c !in db'.calls
            && db'.files == db.files && db'.saved == db.saved && db'.exported == db.exported
  {
    hide FileKey;
  }

  lemma ReturnFrame(db: Db, c: nat, replied: bool)
    requires c in db.calls
    ensures var db' := OnReturn(db, c, replied);
            && OneCall(db, db', c) && OneKey(db, db', KeyOf(db.calls[c].pair)) && KeyOf(db.calls[c].pair) !in db'.temps && c !in db'.calls
            && db'.files == db.files && db'.saved == db.saved && db'.exported == db.exported
            && db'.archived == db.archived + if replied && Live(db, db.calls[c]) then {db.calls[c].pair.session} else {}
  {
    hide Gone, KeyOf, Live;
    GoneFrame(db, c);
  }

  lemma CrashFrame(db: Db, c: nat)
    requires c in db.calls
    ensures var db' := OnCrash(db, c);
            && OneCall(db, db', c) && OneKey(db, db', KeyOf(db.calls[c].pair)) && db'.archived == db.archived && c !in db'.calls
            && db'.files == db.files && db'.saved == db.saved && db'.exported == db.exported
  {
    hide FileKey;
  }

  function PairOf(db: Db, e: DataEvent): Pair
    requires Allowed(db, e) && !IsTableEvent(e)
  {
    if e.Open? then e.pair else db.calls[e.call].pair
  }

  lemma CallFrame(db: Db, e: DataEvent)
    requires Allowed(db, e) && !IsTableEvent(e)
    ensures var db' := NextDb(db, e);
            && OneCall(db, db', e.call) && OneKey(db, db', KeyOf(PairOf(db, e)))
            && (!e.Upload? ==> db'.files == db.files && db'.saved == db.saved)
            && db'.exported == (if e.Open? then db.exported + {e.pair} else db.exported)
            && (e.Upload? ==> db'.files == db.files[KeyOf(PairOf(db, e)) := e.sent] && db'.saved == db.saved + (set l | l in e.sent))
            && (e.Return? || e.Fail? ==> KeyOf(PairOf(db, e)) !in db'.temps)
            && (e.Open? ==> e.call in db'.calls && db'.calls[e.call] == Call(if e.current then db.cycle else 0, e.pair, e.lines, Writing))
            && (!e.Open? ==> e.call in db.calls)
            && (e.Finish? ==> e.call in db'.calls && db'.calls[e.call] == db.calls[e.call].(stage := Written))
            && (e.Upload? ==> e.call in db'.calls && db'.calls[e.call] == db.calls[e.call].(stage := Sent))
            && (e.Return? || e.Fail? || e.Crash? ==> e.call !in db'.calls)
            && db'.archived == db.archived + if e.Return? && e.replied && Live(db, db.calls[e.call]) then {db.calls[e.call].pair.session} else {}
  {
    hide OneCall, OneKey, OnOpen, OnFinish, OnUpload, OnReturn, Gone, OnCrash, Live, IsExport, MayOpen, Readable, FileKey;
    match e
    case Open(c, pair, lines, current) => OpenFrame(db, c, pair, lines, current);
    case Finish(c) => FinishFrame(db, c);
    case Upload(c, sent, moved) => UploadFrame(db, c, sent, moved);
    case Return(c, replied) => ReturnFrame(db, c, replied);
    case Fail(c) => GoneFrame(db, c);
    case Crash(c) => CrashFrame(db, c);
  }

  lemma TableFrame(db: Db, e: DataEvent)
    requires Allowed(db, e) && IsTableEvent(e)
    ensures var db' := NextDb(db, e);
            && db'.calls == db.calls && db'.temps == db.temps && db'.files == db.files && db'.saved == db.saved && db'.exported == db.exported
  {
    hide Located, Selected;
  }

  /** What every step leaves as it is or adds to. */
  lemma Grows(db: Db, e: DataEvent)
    requires Allowed(db, e)
    ensures var db' := NextDb(db, e);
            && db.exported <= db'.exported && db.saved <= db'.saved
            && (forall l | Known(db, l) && RowsOk(db) :: Known(db', l))
            && (RowsOk(db) ==> forall id, p | id in db.metas :: Of(db', id, p) <==> Of(db, id, p))
  {
    hide NextDb, OneKey;
    if IsTableEvent(e) { TableGrows(db, e); } else { CallFrame(db, e); }
  }

  lemma TableGrows(db: Db, e: DataEvent)
    requires Allowed(db, e) && IsTableEvent(e)
    ensures var db' := NextDb(db, e);
            && db.exported <= db'.exported && db.saved <= db'.saved
            && (forall l | Known(db, l) && RowsOk(db) :: Known(db', l))
            && (RowsOk(db) ==> forall id, p | id in db.metas :: Of(db', id, p) <==> Of(db, id, p))
  {
    hide SafePath;
  }

  lemma TableKeepsRows(db: Db, e: DataEvent)
    requires RowsOk(db) && CycleOk(db) && Allowed(db, e) && IsTableEvent(e)
    ensures RowsOk(NextDb(db, e))
  {
    hide SafePath;
  }

  lemma RowsKept(db: Db, e: DataEvent)
    requires RowsOk(db) && CycleOk(db) && Allowed(db, e)
    ensures RowsOk(NextDb(db, e))
  {
    hide NextDb, CycleOk, OneKey;
    if IsTableEvent(e) {
      TableKeepsRows(db, e);
    } else {
      CallFrame(db, e);
      Grows(db, e);
    }
  }

  lemma FilesKept(db: Db, e: DataEvent)
    requires DataInv(db) && Allowed(db, e)
    ensures FilesOk(NextDb(db, e))
  {
    hide SafePath, FileKey, Truncated, Closed, IsExport, MayOpen, Located, CallOk, CycleOk;
    Grows(db, e);
    if e.Upload? {
      var f := db.temps[KeyOf(db.calls[e.call].pair)];
      assert TempOk(db, KeyOf(db.calls[e.call].pair));
      assert forall l | l in e.sent :: l in f.lines;
    }
  }

  lemma TableKeepsCycle(db: Db, e: DataEvent)
    requires RowsOk(db) && CycleOk(db) && Allowed(db, e) && IsTableEvent(e)
    ensures CycleOk(NextDb(db, e))
  {
    hide SafePath;
  }

  lemma CycleKept(db: Db, e: DataEvent)
    requires DataInv(db) && Allowed(db, e)
    ensures CycleOk(NextDb(db, e))
  {
    hide NextDb, TempOk, FilesOk, RowsOk, OneKey;
    if IsTableEvent(e) {
      TableKeepsCycle(db, e);
    } else {
      CallFrame(db, e);
      Grows(db, e);
      if e.Return? { assert CallOk(db, e.call); }
    }
  }

  /** A file that a step does not touch, and whose writers it does not touch either. */
  lemma SameTemp(db: Db, db': Db, key: string)
    requires key in db.temps && TempOk(db, key) && key in db'.temps && db'.temps[key] == db.temps[key]
    requires forall l | Known(db, l) :: Known(db', l)
    requires forall c | c in db.temps[key].writers && c in db.calls :: c in db'.calls && db'.calls[c] == db.calls[c]
    ensures TempOk(db', key)
  {
    hide FileKey;
  }

  lemma OpenTemp(db: Db, e: DataEvent)
    requires DataInv(db) && Allowed(db, e) && e.Open?
    ensures TempOk(NextDb(db, e), KeyOf(e.pair))
  {
    hide SafePath, FileKey, CallOk, MayOpen, FilesOk, CycleOk;
    Grows(db, e);
    var key := KeyOf(e.pair);
    if key in db.temps { assert TempOk(db, key); }
    forall l | l in e.lines ensures Known(NextDb(db, e), l) { assert Known(db, l); }
  }

  lemma FinishTemp(db: Db, call: nat)
    requires DataInv(db) && Allowed(db, Finish(call)) && KeyOf(db.calls[call].pair) in NextDb(db, Finish(call)).temps
    ensures TempOk(NextDb(db, Finish(call)), KeyOf(db.calls[call].pair))
  {
    hide SafePath, FileKey, CallOk, FilesOk, CycleOk, RowsOk;
    assert TempOk(db, KeyOf(db.calls[call].pair));
  }

  lemma UploadTemp(db: Db, e: DataEvent)
    requires DataInv(db) && Allowed(db, e) && e.Upload? && KeyOf(db.calls[e.call].pair) in NextDb(db, e).temps
    ensures TempOk(NextDb(db, e), KeyOf(db.calls[e.call].pair))
  {
    hide SafePath, FileKey, CallOk, FilesOk, CycleOk, RowsOk;
    assert TempOk(db, KeyOf(db.calls[e.call].pair));
  }

  lemma CrashTemp(db: Db, e: DataEvent)
    requires DataInv(db) && Allowed(db, e) && e.Crash? && KeyOf(db.calls[e.call].pair) in NextDb(db, e).temps
    ensures TempOk(NextDb(db, e), KeyOf(db.calls[e.call].pair))
  {
    hide SafePath, FileKey, CallOk, FilesOk, CycleOk, RowsOk;
    assert TempOk(db, KeyOf(db.calls[e.call].pair));
  }

  lemma TempsKept(db: Db, e: DataEvent, key: string)
    requires DataInv(db) && Allowed(db, e) && key in NextDb(db, e).temps
    ensures TempOk(NextDb(db, e), key)
  {
    hide NextDb, CallOk, FilesOk, CycleOk, RowsOk, KeyOf, IsExport, MayOpen, Readable;
    Grows(db, e);
    if IsTableEvent(e) {
      TableFrame(db, e);
      assert TempOk(db, key);
      SameTemp(db, NextDb(db, e), key);
    } else {
      CallFrame(db, e);
      if key != KeyOf(PairOf(db, e)) {
        assert TempOk(db, key);
        SameTemp(db, NextDb(db, e), key);
      } else {
        match e
        case Open(_, _, _, _) => OpenTemp(db, e);
        case Finish(c) => FinishTemp(db, c);
        case Upload(c, sent, moved) => UploadTemp(db, e);
        case Crash(c) => CrashTemp(db, e);
      }
    }
  }

  /** A call that a step leaves as it is, up to its stage. */
  lemma SameCall(db: Db, db': Db, c: nat)
    requires c in db.calls && CallOk(db, c) && c in db'.calls && db'.calls[c] == db.calls[c].(stage := db'.calls[c].stage)
    requires db.cycle <= db'.cycle && db.exported <= db'.exported && forall l | Known(db, l) :: Known(db', l)
    requires Live(db', db.calls[c]) ==>
               && Live(db, db.calls[c]) && db.calls[c].pair.session !in db'.archived
               && (forall id | id in db.details && Of(db, id, db.calls[c].pair) :: id in db'.details && Of(db', id, db.calls[c].pair))
               && (forall d | d in db'.calls && Live(db', db'.calls[d]) && db'.calls[d].pair == db.calls[c].pair ::
                     d in db.calls && Live(db, db.calls[d]) && db.calls[d].pair == db.calls[c].pair)
    ensures CallOk(db', c)
  {
    hide FileKey;
  }

  lemma NewCall(db: Db, e: DataEvent)
    requires DataInv(db) && Allowed(db, e) && e.Open?
    ensures CallOk(NextDb(db, e), e.call)
  {
    hide SafePath, FileKey, TempOk, FilesOk, Truncated;
    Grows(db, e);
    forall l | l in e.lines ensures Known(NextDb(db, e), l) { assert Known(db, l); }
  }

  lemma TableKeepsCall(db: Db, e: DataEvent, c: nat)
    requires DataInv(db) && Allowed(db, e) && IsTableEvent(e) && c in db.calls
    ensures c in NextDb(db, e).calls && CallOk(NextDb(db, e), c)
  {
    hide SafePath, FileKey, TempOk, FilesOk, Located, Selected, RowsOk;
    Grows(db, e);
    assert CallOk(db, c);
    assert RowsOk(db);
    assert forall id | id in db.details :: id in db.metas by { ActiveAreKnown(db); }
    SameCall(db, NextDb(db, e), c);
  }

  lemma ActiveAreKnown(db: Db)
    requires RowsOk(db)
    ensures forall id | id in db.details :: id in db.metas
  {}

  lemma CallKeepsCall(db: Db, e: DataEvent, c: nat)
    requires DataInv(db) && Allowed(db, e) && !IsTableEvent(e) && c in NextDb(db, e).calls && !(e.Open? && c == e.call)
    ensures CallOk(NextDb(db, e), c)
  {
    hide TempOk, FilesOk, NextDb, IsExport, Readable, FileKey;
    Grows(db, e);
    CallFrame(db, e);
    assert CallOk(db, c) && RowsOk(db);
    SameCall(db, NextDb(db, e), c);
  }

  lemma CallsKept(db: Db, e: DataEvent, c: nat)
    requires DataInv(db) && Allowed(db, e) && c in NextDb(db, e).calls
    ensures CallOk(NextDb(db, e), c)
  {
    hide DataInv, Allowed, CallOk, OnOpen, OnFinish, OnUpload, OnReturn, Gone, OnCrash, OnDelete, OnCommit, NextDb;
    if IsTableEvent(e) {
      TableFrame(db, e);
      TableKeepsCall(db, e, c);
    } else if e.Open? && c == e.call {
      NewCall(db, e);
    } else {
      CallKeepsCall(db, e, c);
    }
  }

  lemma StepKeepsData(db: Db, e: DataEvent)
    requires DataInv(db) && Allowed(db, e)
    ensures DataInv(NextDb(db, e))
  {
    hide RowsOk, FilesOk, CycleOk, TempOk, CallOk, Allowed, NextDb;
    RowsKept(db, e);
    FilesKept(db, e);
    CycleKept(db, e);
    forall key | key in NextDb(db, e).temps ensures TempOk(NextDb(db, e), key) { TempsKept(db, e, key); }
    forall c | c in NextDb(db, e).calls ensures CallOk(NextDb(db, e), c) { CallsKept(db, e, c); }
  }

  // ---- runs ----

  lemma {:induction false} RunKeepsData(db: Db, es: seq<DataEvent>)
    requires DataInv(db) && AllowedRun(db, es)
    ensures DataInv(RunDb(db, es))
    decreases |es|
  {
    hide DataInv, NextDb, Allowed;
    if es != [] {
      StepKeepsData(db, es[0]);
      RunKeepsData(NextDb(db, es[0]), es[1..]);
    }
  }

  lemma ReachableData(es: seq<DataEvent>)
    requires AllowedRun(NO_DATA, es)
    ensures DataInv(RunDb(NO_DATA, es))
  {
    hide DataInv, AllowedRun, RunDb;
    NoDataInv();
    RunKeepsData(NO_DATA, es);
  }

  lemma DataCons(db: Db, e: DataEvent, rest: seq<DataEvent>)
    requires Allowed(db, e) && AllowedRun(NextDb(db, e), rest)
    ensures AllowedRun(db, [e] + rest) && RunDb(db, [e] + rest) == RunDb(NextDb(db, e), rest)
  {
    hide Allowed, NextDb;
    assert ([e] + rest)[1..] == rest;
  }

  lemma DataEnd(db: Db)
    ensures AllowedRun(db, []) && RunDb(db, []) == db
  {}

  lemma OneEvent(db: Db, e: DataEvent)
    requires Allowed(db, e)
    ensures AllowedRun(db, [e]) && RunDb(db, [e]) == NextDb(db, e)
  {
    hide Allowed, NextDb;
    DataEnd(NextDb(db, e));
    DataCons(db, e, []);
    assert [e] + [] == [e];
  }

  lemma {:induction false} DataAppend(db: Db, es: seq<DataEvent>, more: seq<DataEvent>)
    requires AllowedRun(db, es) && AllowedRun(RunDb(db, es), more)
    ensures AllowedRun(db, es + more) && RunDb(db, es + more) == RunDb(RunDb(db, es), more)
    decreases |es|
  {
    hide Allowed, NextDb;
    if es == [] {
      assert es + more == more;
    } else {
      DataAppend(NextDb(db, es[0]), es[1..], more);
      assert (es + more)[1..] == es[1..] + more;
    }
  }

  /** Rows stay what they are. */
  lemma {:induction false} RunGrows(db: Db, es: seq<DataEvent>)
    requires DataInv(db) && AllowedRun(db, es)
    ensures forall l | Known(db, l) :: Known(RunDb(db, es), l)
    ensures forall id, p | id in db.metas :: Of(RunDb(db, es), id, p) <==> Of(db, id, p)
    decreases |es|
  {
    hide NextDb, Allowed, Known, TempOk, CallOk, FilesOk, CycleOk;
    if es != [] {
      var db1 := NextDb(db, es[0]);
      StepKeepsData(db, es[0]);
      Grows(db, es[0]);
      MetasGrow(db, es[0]);
      RunGrows(db1, es[1..]);
    }
  }

  lemma MetasGrow(db: Db, e: DataEvent)
    requires Allowed(db, e)
    ensures forall id | id in db.metas :: id in NextDb(db, e).metas
  {
    hide NextDb, OneKey;
    if IsTableEvent(e) { TableMetasGrow(db, e); } else { CallFrame(db, e); }
  }

  lemma TableMetasGrow(db: Db, e: DataEvent)
    requires Allowed(db, e) && IsTableEvent(e)
    ensures forall id | id in db.metas :: id in NextDb(db, e).metas
  {
    hide SafePath;
  }

  // ---- what calls and clean-ups can still do ----

  /** Neither a query nor a new row. */
  ghost predicate Calm(es: seq<DataEvent>) {
    forall e | e in es :: !e.Open? && !e.Arrive?
  }

  /** The row will be deleted if the calls and the clean-up go on without an upload. */
  ghost predicate Due(db: Db, id: nat) {
    && id in db.metas && id in db.details && db.metas[id].run.Some?
    && ((db.cleanup.Deleting? && id in db.cleanup.ids)
        || (db.run == db.metas[id].run && db.metas[id].session in db.archived)
        || (exists c | c in db.calls :: Live(db, db.calls[c]) && Of(db, id, db.calls[c].pair) && HasSent(db.calls[c])))
  }

  /** The call needs nothing more for its success. */
  predicate HasSent(c: Call) {
    c.stage.Sent? || (c.stage.Written? && c.lines == [])
  }

  /** What such steps leave alone. */
  ghost predicate SameUploads(db: Db, db': Db) {
    db'.files == db.files && db'.saved == db.saved && db'.bodies == db.bodies
  }

  lemma CommitDeletes(db: Db, id: nat)
    requires DataInv(db) && db.cleanup.Deleting? && id in db.cleanup.ids
    ensures Allowed(db, Commit) && SameUploads(db, NextDb(db, Commit)) && id !in NextDb(db, Commit).details
  {
    hide SafePath, TempOk, CallOk, FilesOk;
  }

  lemma DeleteSelects(db: Db, id: nat, s: Session)
    requires DataInv(db) && db.run.Some? && s in db.archived && Of(db, id, Pair(db.run.value, s)) && id in db.details
    ensures Allowed(db, Delete([s])) && SameUploads(db, NextDb(db, Delete([s])))
    ensures NextDb(db, Delete([s])).cleanup.Deleting? && id in NextDb(db, Delete([s])).cleanup.ids
  {
    hide SafePath, TempOk, CallOk, FilesOk;
  }

  /** A clean-up that is rolled back has deleted and marked nothing, and the next run can begin. */
  lemma RollBackUndoes(db: Db, success: seq<Session>, target: string)
    requires Allowed(db, Delete(success)) && success != []
    ensures Allowed(NextDb(db, Delete(success)), RollBack) && !Allowed(NextDb(db, Delete(success)), BeginRun(target))
    ensures var db' := NextDb(NextDb(db, Delete(success)), RollBack);
            db'.details == db.details && db'.metas == db.metas && db'.files == db.files && Allowed(db', BeginRun(target))
  {
    hide Selected;
  }

  lemma DeleteAndCommit(db: Db, id: nat, s: Session)
    requires DataInv(db) && db.run.Some? && s in db.archived && Of(db, id, Pair(db.run.value, s)) && id in db.details
    ensures var es := [Delete([s])] + [Commit];
            AllowedRun(db, es) && SameUploads(db, RunDb(db, es)) && id !in RunDb(db, es).details
  {
    hide DataInv, Allowed, NextDb, AllowedRun, RunDb;
    DeleteSelects(db, id, s);
    var db1 := NextDb(db, Delete([s]));
    StepKeepsData(db, Delete([s]));
    CommitDeletes(db1, id);
    OneEvent(db1, Commit);
    DataCons(db, Delete([s]), [Commit]);
  }

  lemma DueIsDeleted(db: Db, id: nat) returns (es: seq<DataEvent>)
    requires DataInv(db) && Due(db, id)
    ensures Calm(es) && AllowedRun(db, es) && SameUploads(db, RunDb(db, es)) && id !in RunDb(db, es).details
  {
    hide DataInv, Allowed, NextDb, AllowedRun, RunDb, HasSent;
    if db.cleanup.Deleting? && id in db.cleanup.ids {
      CommitDeletes(db, id);
      OneEvent(db, Commit);
      es := [Commit];
    } else if db.run == db.metas[id].run && db.metas[id].session in db.archived {
      DeleteAndCommit(db, id, db.metas[id].session);
      es := [Delete([db.metas[id].session])] + [Commit];
    } else {
      var c :| c in db.calls && Live(db, db.calls[c]) && Of(db, id, db.calls[c].pair) && HasSent(db.calls[c]);
      var s := db.calls[c].pair.session;
      ReturnArchives(db, c, id);
      var db1 := NextDb(db, Return(c, true));
      StepKeepsData(db, Return(c, true));
      DeleteAndCommit(db1, id, s);
      DataCons(db, Return(c, true), [Delete([s])] + [Commit]);
      es := [Return(c, true)] + ([Delete([s])] + [Commit]);
    }
  }

  lemma ReturnArchives(db: Db, c: nat, id: nat)
    requires c in db.calls && Live(db, db.calls[c]) && Of(db, id, db.calls[c].pair) && HasSent(db.calls[c]) && id in db.details
    ensures Allowed(db, Return(c, true))
    ensures var db' := NextDb(db, Return(c, true));
            && SameUploads(db, db') && db'.run.Some? && db.calls[c].pair.session in db'.archived && id in db'.details
            && Of(db', id, Pair(db'.run.value, db.calls[c].pair.session))
  {
    hide FileKey;
  }

  /** The file that a call will send, once it has closed it. */
  function FileToSend(db: Db, c: nat): Temp
    requires c in db.calls && KeyOf(db.calls[c].pair) in db.temps
  {
    var f := db.temps[KeyOf(db.calls[c].pair)];
    if db.calls[c].stage.Writing? then Closed(f, c) else f
  }

  predicate Pending(c: Call) {
    !c.stage.Sent? && c.lines != []
  }

  /** The state after the upload, up to the temporary files. */
  ghost predicate Delivered(db: Db, db': Db, c: nat, sent: seq<Line>)
    requires c in db.calls
  {
    && c in db'.calls && db'.calls[c] == db.calls[c].(stage := Sent)
    && (forall d | d in db.calls && d != c :: d in db'.calls && db'.calls[d] == db.calls[d])
    && db'.files == db.files[KeyOf(db.calls[c].pair) := sent] && db'.saved == db.saved + (set l | l in sent)
    && db'.metas == db.metas && db'.details == db.details && db'.bodies == db.bodies && db'.archived == db.archived
    && db'.cycle == db.cycle && db'.run == db.run && db'.cleanup == db.cleanup
  }

  lemma Deliver(db: Db, c: nat, sent: seq<Line>) returns (es: seq<DataEvent>)
    requires c in db.calls && Pending(db.calls[c]) && KeyOf(db.calls[c].pair) in db.temps && Readable(FileToSend(db, c), sent)
    ensures Calm(es) && AllowedRun(db, es) && Delivered(db, RunDb(db, es), c, sent)
  {
    hide AllowedRun, RunDb, Readable, KeyOf, Closed;
    var upload := Upload(c, sent, true);
    if db.calls[c].stage.Writing? {
      var db1 := NextDb(db, Finish(c));
      OneEvent(db1, upload);
      DataCons(db, Finish(c), [upload]);
      es := [Finish(c)] + [upload];
    } else {
      OneEvent(db, upload);
      es := [upload];
    }
  }

  // ---- a call that nothing disturbs ----

  function Archiving(c: nat, pair: Pair, lines: seq<Line>): seq<DataEvent> {
    [Open(c, pair, lines, true)] + ([Finish(c)] + ([Upload(c, lines, true)] + [Return(c, true)]))
  }

  function AfterCall(db: Db, pair: Pair, lines: seq<Line>): Db {
    db.(files := db.files[KeyOf(pair) := lines], saved := db.saved + (set l | l in lines),
        archived := db.archived + {pair.session}, exported := db.exported + {pair})
  }

  /** Its rows are in the file of its session, and its session is archived. */
  lemma Undisturbed(db: Db, c: nat, pair: Pair, lines: seq<Line>)
    requires Allowed(db, Open(c, pair, lines, true)) && lines != [] && KeyOf(pair) !in db.temps
    ensures AllowedRun(db, Archiving(c, pair, lines)) && RunDb(db, Archiving(c, pair, lines)) == AfterCall(db, pair, lines)
  {
    hide KeyOf, IsExport, AllowedRun, RunDb, Closing, Sending, AfterCall, NextDb;
    var e1, e2, e3, e4 := Open(c, pair, lines, true), Finish(c), Upload(c, lines, true), Return(c, true);
    OpensOwn(db, c, pair, lines);
    UploadsOwn(db, c, pair, lines);
    ReturnsOwn(db, c, pair, lines);
    OneEvent(Sending(db, c, pair, lines), e4);
    DataCons(Closing(db, c, pair, lines), e3, [e4]);
    DataCons(NextDb(db, e1), e2, [e3] + [e4]);
    DataCons(db, e1, [e2] + ([e3] + [e4]));
  }

  /** So the file of the session then has each active row of the session once, and nothing else. */
  lemma StoresEachRowOnce(db: Db, c: nat, pair: Pair, lines: seq<Line>)
    requires Allowed(db, Open(c, pair, lines, true)) && lines != [] && KeyOf(pair) !in db.temps
    ensures AllowedRun(db, Archiving(c, pair, lines)) && KeyOf(pair) in RunDb(db, Archiving(c, pair, lines)).files
    ensures var file := RunDb(db, Archiving(c, pair, lines)).files[KeyOf(pair)];
            && (forall id :: id in db.details && Of(db, id, pair) <==> exists i | 0 <= i < |file| :: file[i].id == id)
            && (forall i, j | 0 <= i < j < |file| :: file[i].id != file[j].id)
            && (forall i | 0 <= i < |file| :: file[i].id in db.details && file[i].body == db.details[file[i].id])
  {
    hide KeyOf, AllowedRun, RunDb, Archiving, Of, MayOpen;
    Undisturbed(db, c, pair, lines);
    forall id | id in db.details && Of(db, id, pair) ensures exists i | 0 <= i < |lines| :: lines[i].id == id {
      assert Line(id, db.details[id]) in lines;
    }
    assert forall i | 0 <= i < |lines| :: lines[i] in lines;
  }

  lemma OpensOwn(db: Db, c: nat, pair: Pair, lines: seq<Line>)
    requires Allowed(db, Open(c, pair, lines, true)) && KeyOf(pair) !in db.temps
    ensures var db1 := NextDb(db, Open(c, pair, lines, true)); Allowed(db1, Finish(c)) && NextDb(db1, Finish(c)) == Closing(db, c, pair, lines)
  {
    hide KeyOf, IsExport;
    var db1 := NextDb(db, Open(c, pair, lines, true));
    assert db1.temps == db.temps[KeyOf(pair) := Temp(lines, Growing, {c})] && {c} - {c} == {};
    assert db1.temps[KeyOf(pair) := Temp(lines, Whole, {})] == db.temps[KeyOf(pair) := Temp(lines, Whole, {})];
    assert db1.calls[c := Call(db.cycle, pair, lines, Written)] == db.calls[c := Call(db.cycle, pair, lines, Written)];
  }

  /** A call that has closed its file, and one that has sent it. */
  function Closing(db: Db, c: nat, pair: Pair, lines: seq<Line>): Db {
    db.(calls := db.calls[c := Call(db.cycle, pair, lines, Written)], temps := db.temps[KeyOf(pair) := Temp(lines, Whole, {})],
        exported := db.exported + {pair})
  }

  function Sending(db: Db, c: nat, pair: Pair, lines: seq<Line>): Db {
    db.(calls := db.calls[c := Call(db.cycle, pair, lines, Sent)], files := db.files[KeyOf(pair) := lines],
        saved := db.saved + (set l | l in lines), exported := db.exported + {pair})
  }

  lemma UploadsOwn(db: Db, c: nat, pair: Pair, lines: seq<Line>)
    requires lines != [] && KeyOf(pair) !in db.temps
    ensures var e := Upload(c, lines, true); Allowed(Closing(db, c, pair, lines), e) && NextDb(Closing(db, c, pair, lines), e) == Sending(db, c, pair, lines)
  {
    hide KeyOf;
    assert db.temps[KeyOf(pair) := Temp(lines, Whole, {})] - {KeyOf(pair)} == db.temps;
    assert db.calls[c := Call(db.cycle, pair, lines, Written)][c := Call(db.cycle, pair, lines, Sent)] == db.calls[c := Call(db.cycle, pair, lines, Sent)];
  }

  lemma ReturnsOwn(db: Db, c: nat, pair: Pair, lines: seq<Line>)
    requires c !in db.calls && KeyOf(pair) !in db.temps && db.run == Some(pair.run)
    ensures var e := Return(c, true); Allowed(Sending(db, c, pair, lines), e) && NextDb(Sending(db, c, pair, lines), e) == AfterCall(db, pair, lines)
  {
    hide KeyOf;
    assert db.calls[c := Call(db.cycle, pair, lines, Sent)] - {c} == db.calls && db.temps - {KeyOf(pair)} == db.temps;
  }

  // ---- small runs ----

  /** One row, at the start of the archiving of its run. */
  function OneRow(run: string, s: Session, a: string): Db {
    Db(map[0 := Meta(Some(run), s, None)], map[0 := a], map[], map[], 1, Some(run), map[], {}, Idle, map[0 := a], {}, {})
  }

  lemma OneRowIsReached(run: string, s: Session, a: string)
    ensures var es := [Arrive(0, Some(run), s, a)] + [BeginRun(run)];
            AllowedRun(NO_DATA, es) && RunDb(NO_DATA, es) == OneRow(run, s, a)
  {
    hide AllowedRun, RunDb;
    var db1 := NextDb(NO_DATA, Arrive(0, Some(run), s, a));
    OneEvent(db1, BeginRun(run));
    DataCons(NO_DATA, Arrive(0, Some(run), s, a), [BeginRun(run)]);
  }

  lemma OneRowOpens(run: string, s: Session, a: string)
    ensures Allowed(OneRow(run, s, a), Open(0, Pair(run, s), [Line(0, a)], true))
  {}

  /** Two rows of two sessions. */
  function TwoRows(run: string, s: Session, t: Session, a: string, b: string): Db {
    Db(map[0 := Meta(Some(run), s, None), 1 := Meta(Some(run), t, None)], map[0 := a, 1 := b], map[], map[], 1, Some(run), map[], {}, Idle,
       map[0 := a, 1 := b], {}, {})
  }

  lemma TwoRowsAreReached(run: string, s: Session, t: Session, a: string, b: string)
    ensures var es := [Arrive(0, Some(run), s, a)] + ([Arrive(1, Some(run), t, b)] + [BeginRun(run)]);
            AllowedRun(NO_DATA, es) && RunDb(NO_DATA, es) == TwoRows(run, s, t, a, b)
  {
    hide AllowedRun, RunDb;
    var e1, e2, e3 := Arrive(0, Some(run), s, a), Arrive(1, Some(run), t, b), BeginRun(run);
    var db1 := NextDb(NO_DATA, e1);
    var db2 := NextDb(db1, e2);
    assert NextDb(db2, e3) == TwoRows(run, s, t, a, b);
    OneEvent(db2, e3);
    DataCons(db1, e2, [e3]);
    DataCons(NO_DATA, e1, [e2] + [e3]);
  }

  // ---- metadata ----

  /** A metadata row is marked archived exactly when its detail row is gone. */
  ghost predicate MarksOk(db: Db) {
    forall id | id in db.metas :: id in db.details <==> db.metas[id].location.None?
  }

  /** A row of a session of the clean-up arrives between its two statements. */
  predicate Between(db: Db, e: DataEvent) {
    e.Arrive? && db.cleanup.Deleting? && e.run == Some(db.cleanup.run) && e.session in db.cleanup.success
  }

  /** A run in which no row arrives there. */
  ghost predicate MarkedRun(db: Db, es: seq<DataEvent>)
    decreases |es|
  {
    es == [] || (Allowed(db, es[0]) && !Between(db, es[0]) && MarkedRun(NextDb(db, es[0]), es[1..]))
  }

  lemma {:induction false} MarkedIsAllowed(db: Db, es: seq<DataEvent>)
    requires MarkedRun(db, es)
    ensures AllowedRun(db, es)
    decreases |es|
  {
    hide Allowed, NextDb, Between;
    if es != [] { MarkedIsAllowed(NextDb(db, es[0]), es[1..]); }
  }

  /** The first statement has deleted all active rows of its sessions. */
  ghost predicate MarksInv(db: Db) {
    && MarksOk(db)
    && (db.cleanup.Deleting? ==>
          forall id | id in db.details && Selected(db, db.cleanup.run, db.cleanup.success, id) :: id in db.cleanup.ids)
  }

  lemma TableKeepsMarks(db: Db, e: DataEvent)
    requires RowsOk(db) && CycleOk(db) && MarksInv(db) && Allowed(db, e) && !Between(db, e) && IsTableEvent(e)
    ensures MarksInv(NextDb(db, e))
  {
    hide SafePath;
  }

  lemma MarksKept(db: Db, e: DataEvent)
    requires DataInv(db) && MarksInv(db) && Allowed(db, e) && !Between(db, e)
    ensures MarksInv(NextDb(db, e))
  {
    hide NextDb, TempOk, FilesOk, CallOk, RowsOk, CycleOk, OneKey;
    if IsTableEvent(e) { TableKeepsMarks(db, e); } else { CallFrame(db, e); }
  }

  lemma {:induction false} MarkedRunKeeps(db: Db, es: seq<DataEvent>)
    requires DataInv(db) && MarksInv(db) && MarkedRun(db, es) && AllowedRun(db, es)
    ensures MarksInv(RunDb(db, es))
    decreases |es|
  {
    hide DataInv, MarksInv, NextDb, Allowed, Between;
    if es != [] {
      StepKeepsData(db, es[0]);
      MarksKept(db, es[0]);
      MarkedRunKeeps(NextDb(db, es[0]), es[1..]);
    }
  }

  /** In every run, with late rows too, a metadata row is marked exactly when its detail row is gone, if no row of a
      session of a clean-up arrives between the two statements. */
  lemma MarkedIffGone(es: seq<DataEvent>)
    requires MarkedRun(NO_DATA, es)
    ensures AllowedRun(NO_DATA, es) && MarksOk(RunDb(NO_DATA, es))
  {
    hide MarkedRun, AllowedRun, RunDb, DataInv;
    NoDataInv();
    MarkedIsAllowed(NO_DATA, es);
    MarkedRunKeeps(NO_DATA, es);
  }

  ghost predicate CanMismark(db: Db) {
    exists es :: MarkedRun(db, es) && AllowedRun(db, es) && !MarksOk(RunDb(db, es))
  }

  /** In every state that is reached without such rows, a step can lead to a wrong mark, with no other such row, exactly
      if it is one. */
  lemma MismarkedIff(before: seq<DataEvent>, e: DataEvent)
    requires MarkedRun(NO_DATA, before) && AllowedRun(NO_DATA, before) && Allowed(RunDb(NO_DATA, before), e)
    ensures CanMismark(NextDb(RunDb(NO_DATA, before), e)) <==> Between(RunDb(NO_DATA, before), e)
  {
    hide MarkedRun, AllowedRun, RunDb, DataInv, MarksInv, MarksOk, Between, Allowed, NextDb;
    NoDataInv();
    ReachableData(before);
    var db := RunDb(NO_DATA, before);
    var db' := NextDb(db, e);
    if Between(db, e) {
      BetweenIsMarked(db, e);
      OneEvent(db', Commit);
      assert MarkedRun(db', [Commit]) by { OneMarked(db', Commit); }
    } else {
      MarkedRunKeeps(NO_DATA, before) by { NoMarks(); }
      StepKeepsData(db, e);
      MarksKept(db, e);
      forall es | MarkedRun(db', es) && AllowedRun(db', es) ensures MarksOk(RunDb(db', es)) {
        MarkedRunKeeps(db', es);
        MarksOnly(RunDb(db', es));
      }
    }
  }

  lemma NoMarks()
    ensures MarksInv(NO_DATA)
  {}

  lemma MarksOnly(db: Db)
    requires MarksInv(db)
    ensures MarksOk(db)
  {}

  lemma OneMarked(db: Db, e: DataEvent)
    requires Allowed(db, e) && !Between(db, e)
    ensures MarkedRun(db, [e])
  {
    hide Allowed, Between, NextDb;
    assert [e][1..] == [];
  }

  lemma BetweenIsMarked(db: Db, e: DataEvent)
    requires DataInv(db) && Allowed(db, e) && Between(db, e)
    ensures Allowed(NextDb(db, e), Commit) && !Between(NextDb(db, e), Commit) && !MarksOk(NextDb(NextDb(db, e), Commit))
  {
    hide SafePath, TempOk, FilesOk, CallOk;
    var db2 := NextDb(NextDb(db, e), Commit);
    assert e.id !in db.cleanup.ids;
    assert e.id in db2.metas && e.id in db2.details && db2.metas[e.id].location.Some?;
  }

  /** A run in which a row arrives between the two statements and is marked archived, with its details in the table. */
  lemma RowBetweenIsMarked(run: string, s: Session, a: string, b: string)
    ensures var es := ([Arrive(0, Some(run), s, a)] + [BeginRun(run)]) + Archiving(0, Pair(run, s), [Line(0, a)])
                      + ([Delete([s])] + ([Arrive(1, Some(run), s, b)] + [Commit]));
            && AllowedRun(NO_DATA, es)
            && var db := RunDb(NO_DATA, es); 1 in db.details && 1 in db.metas && db.metas[1].location.Some?
  {
    hide SafePath, KeyOf, AllowedRun, RunDb, IsExport, AfterCall, Archiving;
    var es1, es2 := [Arrive(0, Some(run), s, a)] + [BeginRun(run)], Archiving(0, Pair(run, s), [Line(0, a)]);
    OneRowIsReached(run, s, a);
    OneRowOpens(run, s, a);
    Undisturbed(OneRow(run, s, a), 0, Pair(run, s), [Line(0, a)]);
    DataAppend(NO_DATA, es1, es2);
    ArrivesBetween(run, s, a, b);
    DataAppend(NO_DATA, es1 + es2, [Delete([s])] + ([Arrive(1, Some(run), s, b)] + [Commit]));
  }

  lemma ArrivesBetween(run: string, s: Session, a: string, b: string)
    ensures var db := AfterCall(OneRow(run, s, a), Pair(run, s), [Line(0, a)]);
            var es := [Delete([s])] + ([Arrive(1, Some(run), s, b)] + [Commit]);
            && AllowedRun(db, es)
            && var db' := RunDb(db, es); 1 in db'.details && 1 in db'.metas && db'.metas[1].location.Some?
  {
    hide SafePath, KeyOf, AllowedRun, RunDb;
    var db := AfterCall(OneRow(run, s, a), Pair(run, s), [Line(0, a)]);
    var db1 := NextDb(db, Delete([s]));
    var db2 := NextDb(db1, Arrive(1, Some(run), s, b));
    OneEvent(db2, Commit);
    DataCons(db1, Arrive(1, Some(run), s, b), [Commit]);
    DataCons(db, Delete([s]), [Arrive(1, Some(run), s, b)] + [Commit]);
  }

  // ---- one call as the program writes it ----

  /** The directory of temporary files and the storage. */
  class Disk {
    var temps: map<string, seq<Line>>
    var files: map<string, seq<Line>>

    constructor ()
      ensures temps == map[] && files == map[]
    {
      temps, files := map[], map[];
    }
  }

  class SessionArchiveWorker {
    const disk: Disk

    constructor (disk: Disk)
      ensures this.disk == disk
    {
      this.disk := disk;
    }

    /** `archive`, when nothing else touches the file; `rows` is what the query finds. */
    method Archive(run: string, session: Session, rows: seq<Line>) returns (records: nat, file: Option<string>)
      modifies disk
      ensures records == |rows| && file == if rows == [] then None else Some(FileKey(run, session))
      ensures disk.temps == old(disk.temps) - {FileKey(run, session)}
      ensures rows == [] ==> disk.files == old(disk.files)
      ensures rows != [] ==> forall db: Db | db.files == old(disk.files) :: disk.files == AfterCall(db, Pair(run, session), rows).files
    {
      hide FileKey;
      var key := FileKey(run, session);
      disk.temps := disk.temps[key := []];
      var lines;
      lines, records := ExportSession(rows);
      disk.temps := disk.temps[key := lines];
      file := None;
      if records != 0 {
        disk.files := disk.files[key := disk.temps[key]];
        file := Some(key);
      }
      disk.temps := disk.temps - {key};
    }
  }

  // ---- the clean-up as the program writes it ----

  /** The three forms of the session filter. */
  predicate Matches(hasNull: bool, named: seq<string>, session: Session) {
    if hasNull && named != [] then session.Null? || session.name in named
    else if hasNull then session.Null?
    else session.Id? && session.name in named
  }

  /** `WHERE run_id = … AND` the filter. */
  predicate Where(metadata: map<nat, Meta>, run: string, hasNull: bool, named: seq<string>, id: nat) {
    id in metadata && metadata[id].run == Some(run) && Matches(hasNull, named, metadata[id].session)
  }

  function DeleteWhere(details: map<nat, string>, metadata: map<nat, Meta>, run: string, hasNull: bool, named: seq<string>): map<nat, string> {
    map id | id in details && !Where(metadata, run, hasNull, named, id) :: details[id]
  }

  function UpdateWhere(metadata: map<nat, Meta>, location: string, run: string, hasNull: bool, named: seq<string>): map<nat, Meta> {
    map id | id in metadata ::
      if Where(metadata, run, hasNull, named, id) && metadata[id].location.None?
      then metadata[id].(location := Some(location)) else metadata[id]
  }

  /** The tables after a clean-up whose transaction nothing interrupts. */
  function CleanedUp(db: Db, run: string, success: seq<Session>): Db {
    var db1 := OnDelete(db, run, success);
    if db1.cleanup.Idle? then db1 else OnCommit(db1, run, success, db1.cleanup.ids)
  }

  lemma StatementsAreCleanup(db: Db, run: string, success: seq<Session>, hasNull: bool, named: seq<string>)
    requires success != [] && forall session :: Matches(hasNull, named, session) <==> session in success
    ensures DeleteWhere(db.details, db.metas, run, hasNull, named) == CleanedUp(db, run, success).details
    ensures UpdateWhere(db.metas, SafePath(run) + "/", run, hasNull, named) == CleanedUp(db, run, success).metas
  {
    hide SafePath, Matches;
    assert forall id :: Where(db.metas, run, hasNull, named, id) <==> Selected(db, run, success, id);
  }

  /** The two tables. */
  class RequestTables {
    var metadata: map<nat, Meta>
    var details: map<nat, string>

    constructor ()
      ensures metadata == map[] && details == map[]
    {
      metadata, details := map[], map[];
    }

    /** `_cleanup_run`: DELETE and then UPDATE. */
    method CleanupRun(ghost db: Db, run: string, location: string, success: seq<Session>)
      requires db.metas == metadata && db.details == details && location == SafePath(run) + "/"
      modifies this
      ensures metadata == CleanedUp(db, run, success).metas && details == CleanedUp(db, run, success).details
    {
      hide SafePath, Matches, DeleteWhere, UpdateWhere, Located, Selected;
      if success == [] { return; }
      var hasNull := Null in success;
      var named: seq<string> := [];
      for i := 0 to |success|
        invariant forall name :: name in named <==> Id(name) in success[..i]
      {
        if success[i].Id? { named := named + [success[i].name]; }
      }
      assert success[..|success|] == success;
      MatchesIsMembership(success, named);
      StatementsAreCleanup(db, run, success, hasNull, named);
      details := DeleteWhere(details, metadata, run, hasNull, named);
      metadata := UpdateWhere(metadata, location, run, hasNull, named);
    }
  }

  /** The filter selects exactly the sessions of the list, NULL included. */
  lemma MatchesIsMembership(success: seq<Session>, named: seq<string>)
    requires success != [] && forall name :: name in named <==> Id(name) in success
    ensures forall session :: Matches(Null in success, named, session) <==> session in success
  {
    forall session ensures Matches(Null in success, named, session) <==> session in success {
      if session.Id? { assert session == Id(session.name); }
    }
    assert success[0] in success;
  }
}
