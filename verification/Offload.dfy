/** The offloading of route experts: every `insert` and every background upload is a sequence of steps between
    suspension points, and all of them interleave. Each suspended call may also be cancelled. */
module Offload {
  import opened Text
  import opened BlobKey

  /** The field that may be offloaded; `json` is its serialisation. */
  datatype Experts = Data(json: string) | Marker(key: string)

  /** `choices[0]` of a response, as far as it matters here. */
  datatype Slot = Absent | Holds(experts: Experts)

  datatype Context = Context(request: string, session: Option<string>, run: Option<string>, token: Slot, raw: Slot)

  datatype Field = TokenResponse | RawResponse

  datatype Found = Found(json: string, field: Field)

  datatype Status = Uploading | Ready | Consumed

  datatype Ref = Ref(session: string, key: string, status: Status)

  datatype Outcome = Inserted | Failed | Cancelled

  /** Where an `insert` is suspended. `PlainInTry` is the insert of an oversized record, whose failure is still
      caught by the fallback. */
  datatype Phase = Serialising | InsertingRef | PlainInTry | Plain | Delegating | Done(outcome: Outcome)

  datatype Call = Call(context: Context, phase: Phase)

  datatype Upload = Putting | Marking

  /** `origins`: every context as it was passed to `insert`; `records`: what the inner repository has stored. */
  datatype Store = Store(
    origins: map<string, Context>, calls: map<string, Call>, refs: map<string, Ref>,
    blobs: map<string, string>, uploads: map<string, Upload>, records: map<string, Context>)

  const MAX_BYTES := 52428800

  datatype Event =
    | Begin(context: Context)
    | Serialised(request: string, ok: bool)
    | RefInserted(request: string, ok: bool)
    | Inner(request: string, ok: bool)
    | Cancel(request: string, committed: bool)
    | Put(request: string, ok: bool)
    | Mark(request: string, ok: bool)
    | CancelUpload(request: string)
    | Consume(request: string)

  // ---- the context ----

  /** `_extract`: the first of the two responses with data that is not a marker. */
  function Extract(c: Context): Option<Found> {
    if c.token.Holds? && c.token.experts.Data? then Some(Found(c.token.experts.json, TokenResponse))
    else if c.raw.Holds? && c.raw.experts.Data? then Some(Found(c.raw.experts.json, RawResponse))
    else None
  }

  function WithExperts(c: Context, field: Field, experts: Experts): Context {
    match field
    case TokenResponse => c.(token := Holds(experts))
    case RawResponse => c.(raw := Holds(experts))
  }

  function KeyOf(c: Context): string {
    MakeKey(c.run, c.session, c.request)
  }

  /** The context with the marker in place of the data. */
  function Marked(c: Context): Context
    requires Extract(c).Some?
  {
    WithExperts(c, Extract(c).value.field, Marker(KeyOf(c)))
  }

  // ---- the steps ----

  function SetCall(s: Store, request: string, context: Context, phase: Phase): Store {
    s.(calls := s.calls[request := Call(context, phase)])
  }

  function OnBegin(s: Store, c: Context): Store {
    SetCall(s.(origins := s.origins[c.request := c]), c.request, c, if Extract(c).Some? then Serialising else Plain)
  }

  function OnSerialised(s: Store, request: string, ok: bool): Store
    requires request in s.calls && Extract(s.calls[request].context).Some?
  {
    var c := s.calls[request].context;
    SetCall(s, request, c,
            if !ok then Plain else if |Extract(c).value.json| > MAX_BYTES then PlainInTry else InsertingRef)
  }

  /** INSERT … ON CONFLICT DO NOTHING. */
  function InsertRow(s: Store, c: Context): Store {
    if c.request in s.refs then s
    else s.(refs := s.refs[c.request := Ref(OrUnknown(c.session), KeyOf(c), Uploading)])
  }

  /** With the row in place the upload starts and the marker replaces the data. */
  function OnRefInserted(s: Store, request: string, ok: bool): Store
    requires request in s.calls && Extract(s.calls[request].context).Some?
  {
    var c := s.calls[request].context;
    if !ok then SetCall(s, request, c, Plain)
    else
      var s1 := InsertRow(s, c);
      SetCall(s1.(uploads := s1.uploads[request := Putting]), request, Marked(c), Delegating)
  }

  /** The inner repository answers. */
  function OnInner(s: Store, request: string, ok: bool): Store
    requires request in s.calls && request in s.origins
  {
    var call := s.calls[request];
    if ok then SetCall(s.(records := s.records[request := call.context]), request, call.context, Done(Inserted))
    else if call.phase.PlainInTry? then SetCall(s, request, call.context, Plain)
    else if call.phase.Delegating? && Extract(s.origins[request]).Some? then
      var found := Extract(s.origins[request]).value;
      SetCall(s, request, WithExperts(call.context, found.field, Data(found.json)), Done(Failed))
    else SetCall(s, request, call.context, Done(Failed))
  }

  /** `CancelledError` is not an `Exception`: no handler runs. A row may already have been committed. */
  function OnCancel(s: Store, request: string, committed: bool): Store
    requires request in s.calls
  {
    var call := s.calls[request];
    var s1 := if call.phase.InsertingRef? && committed then InsertRow(s, call.context) else s;
    SetCall(s1, request, call.context, Done(Cancelled))
  }

  function OnPut(s: Store, request: string, ok: bool): Store
    requires request in s.origins && Extract(s.origins[request]).Some?
  {
    if !ok then s.(uploads := s.uploads - {request})
    else s.(blobs := s.blobs[KeyOf(s.origins[request]) := Extract(s.origins[request]).value.json],
            uploads := s.uploads[request := Marking])
  }

  /** UPDATE … WHERE status = …. */
  function Advance(s: Store, request: string, from: Status, to: Status): Store {
    if request in s.refs && s.refs[request].status == from then
      s.(refs := s.refs[request := s.refs[request].(status := to)])
    else s
  }

  function OnMark(s: Store, request: string, ok: bool): Store {
    var s1 := s.(uploads := s.uploads - {request});
    if ok then Advance(s1, request, Uploading, Ready) else s1
  }

  predicate InPhase(s: Store, request: string, phase: Phase) {
    request in s.calls && request in s.origins && s.calls[request].phase == phase
  }

  predicate Offloads(s: Store, request: string) {
    request in s.origins && Extract(s.origins[request]).Some?
  }

  predicate Suspended(s: Store, request: string) {
    request in s.calls && !s.calls[request].phase.Done?
  }

  /** Request ids are unique. */
  predicate Possible(s: Store, e: Event) {
    match e
    case Begin(c) => c.request !in s.origins
    case Serialised(q, _) => InPhase(s, q, Serialising) && Extract(s.calls[q].context).Some?
    case RefInserted(q, _) => InPhase(s, q, InsertingRef) && Extract(s.calls[q].context).Some?
    case Inner(q, _) => InPhase(s, q, PlainInTry) || InPhase(s, q, Plain) || InPhase(s, q, Delegating)
    case Cancel(q, _) => Suspended(s, q)
    case Put(q, _) => q in s.uploads && s.uploads[q] == Putting && Offloads(s, q)
    case Mark(q, _) => q in s.uploads && s.uploads[q] == Marking
    case CancelUpload(q) => q in s.uploads
    case Consume(q) => true
  }

  function Next(s: Store, e: Event): Store
    requires Possible(s, e)
  {
    match e
    case Begin(c) => OnBegin(s, c)
    case Serialised(q, ok) => OnSerialised(s, q, ok)
    case RefInserted(q, ok) => OnRefInserted(s, q, ok)
    case Inner(q, ok) => OnInner(s, q, ok)
    case Cancel(q, committed) => OnCancel(s, q, committed)
    case Put(q, ok) => OnPut(s, q, ok)
    case Mark(q, ok) => OnMark(s, q, ok)
    case CancelUpload(q) => s.(uploads := s.uploads - {q})
    case Consume(q) => Advance(s, q, Ready, Consumed)
  }

  ghost predicate ValidRun(s: Store, es: seq<Event>)
    decreases |es|
  {
    es == [] || (Possible(s, es[0]) && ValidRun(Next(s, es[0]), es[1..]))
  }

  function Exec(s: Store, es: seq<Event>): Store
    requires ValidRun(s, es)
    decreases |es|
  {
    if es == [] then s else Exec(Next(s, es[0]), es[1..])
  }

  const EMPTY := Store(map[], map[], map[], map[], map[], map[])

  // ---- what every step keeps ----

  /** The row of a request is the one its context asks for. */
  ghost predicate RowOf(s: Store, request: string) {
    && Offloads(s, request) && request in s.refs
    && s.refs[request].key == KeyOf(s.origins[request]) && s.refs[request].session == OrUnknown(s.origins[request].session)
  }

  /** The context is as it was passed in, or holds a marker whose row exists. */
  ghost predicate Intact(s: Store, request: string, context: Context) {
    && request in s.origins
    && (context == s.origins[request] || (RowOf(s, request) && context == Marked(s.origins[request])))
  }

  ghost predicate CallOk(s: Store, request: string)
    requires request in s.calls
  {
    var call := s.calls[request];
    && request in s.origins && s.origins[request].request == request
    && match call.phase
       case Serialising => call.context == s.origins[request] && Offloads(s, request)
       case InsertingRef => call.context == s.origins[request] && Offloads(s, request)
       case PlainInTry => call.context == s.origins[request]
       case Plain => call.context == s.origins[request]
       case Delegating => RowOf(s, request) && call.context == Marked(s.origins[request])
       case Done(outcome) => Intact(s, request, call.context) && (outcome.Failed? ==> call.context == s.origins[request])
  }

  /** A row belongs to a request that offloads, and has left `Uploading` only when its blob was there. */
  ghost predicate RefOk(s: Store, request: string) {
    RowOf(s, request) && (!s.refs[request].status.Uploading? ==> s.refs[request].key in s.blobs)
  }

  ghost predicate UploadOk(s: Store, request: string)
    requires request in s.uploads
  {
    && RowOf(s, request)
    && (s.uploads[request].Marking? ==> KeyOf(s.origins[request]) in s.blobs)
  }

  /** A blob holds what some request with its key has serialised. */
  ghost predicate BlobOk(s: Store, key: string)
    requires key in s.blobs
  {
    exists q | q in s.origins :: Offloads(s, q) && KeyOf(s.origins[q]) == key && s.blobs[key] == Extract(s.origins[q]).value.json
  }

  ghost predicate Inv(s: Store) {
    && (forall q | q in s.calls :: CallOk(s, q))
    && (forall q | q in s.refs :: RefOk(s, q))
    && (forall q | q in s.uploads :: UploadOk(s, q))
    && (forall k | k in s.blobs :: BlobOk(s, k))
    && (forall q | q in s.records :: Intact(s, q, s.records[q]))
  }

  /** `s'` knows everything `s` knows: what a step never takes back. */
  ghost predicate Grows(s: Store, s': Store) {
    && (forall q | q in s.origins :: q in s'.origins && s'.origins[q] == s.origins[q])
    && (forall q | q in s.refs ::
          && q in s'.refs && s'.refs[q].key == s.refs[q].key && s'.refs[q].session == s.refs[q].session
          && Rank(s.refs[q].status) <= Rank(s'.refs[q].status) <= Rank(s.refs[q].status) + 1)
    && (forall k | k in s.blobs :: k in s'.blobs)
  }

  function Rank(status: Status): nat {
    match status
    case Uploading => 0
    case Ready => 1
    case Consumed => 2
  }

  lemma IntactGrows(s: Store, s': Store, request: string, context: Context)
    requires Intact(s, request, context) && Grows(s, s')
    ensures Intact(s', request, context)
  {
    hide KeyOf, Marked, Extract, OrUnknown, Rank;
  }

  lemma CallGrows(s: Store, s': Store, request: string)
    requires request in s.calls && CallOk(s, request) && Grows(s, s')
    requires request in s'.calls && s'.calls[request] == s.calls[request]
    ensures CallOk(s', request)
  {
    hide KeyOf, Marked, Extract, OrUnknown, Rank, Intact;
    if s.calls[request].phase.Done? { IntactGrows(s, s', request, s.calls[request].context); }
  }

  lemma RowGrows(s: Store, s': Store, request: string)
    requires RowOf(s, request) && Grows(s, s')
    ensures RowOf(s', request)
  {
    hide KeyOf, Marked, Extract, OrUnknown, Rank;
  }

  lemma BlobGrows(s: Store, s': Store, key: string)
    requires key in s.blobs && BlobOk(s, key) && Grows(s, s') && key in s'.blobs && s'.blobs[key] == s.blobs[key]
    ensures BlobOk(s', key)
  {
    hide KeyOf, Marked, Extract, OrUnknown, Rank;
    var q :| q in s.origins && Offloads(s, q) && KeyOf(s.origins[q]) == key && s.blobs[key] == Extract(s.origins[q]).value.json;
    assert q in s'.origins;
  }

  /** A step that changes one call and adds at most one row. */
  lemma FrameKeeps(s: Store, s': Store, request: string)
    requires Inv(s) && Grows(s, s')
    requires request in s'.calls && CallOk(s', request)
    requires forall q | q in s'.calls && q != request :: q in s.calls && s'.calls[q] == s.calls[q]
    requires forall q | q in s'.refs :: (q in s.refs && s'.refs[q] == s.refs[q]) || (q == request && RefOk(s', q))
    requires forall q | q in s'.uploads :: (q in s.uploads && s'.uploads[q] == s.uploads[q]) || (q == request && UploadOk(s', q))
    requires s'.blobs == s.blobs
    requires forall q | q in s'.records :: (q in s.records && s'.records[q] == s.records[q]) || (q == request && Intact(s', q, s'.records[q]))
    ensures Inv(s')
  {
    hide CallOk, RowOf, Intact, BlobOk, Grows, KeyOf;
    forall q | q in s'.calls ensures CallOk(s', q) { if q != request { CallGrows(s, s', q); } }
    forall q | q in s'.refs ensures RefOk(s', q) { if q in s.refs && s'.refs[q] == s.refs[q] { RefGrows(s, s', q); } }
    forall q | q in s'.uploads ensures UploadOk(s', q) {
      if q in s.uploads && s'.uploads[q] == s.uploads[q] { UploadGrows(s, s', q); }
    }
    forall k | k in s'.blobs ensures BlobOk(s', k) { BlobGrows(s, s', k); }
    forall q | q in s'.records ensures Intact(s', q, s'.records[q]) {
      if q in s.records && s'.records[q] == s.records[q] { IntactGrows(s, s', q, s.records[q]); }
    }
  }

  lemma RefGrows(s: Store, s': Store, request: string)
    requires request in s.refs && RefOk(s, request) && Grows(s, s') && request in s'.refs && s'.refs[request] == s.refs[request]
    ensures RefOk(s', request)
  {
    hide KeyOf, Marked, Extract, OrUnknown, Rank, RowOf;
    RowGrows(s, s', request);
  }

  lemma UploadGrows(s: Store, s': Store, request: string)
    requires request in s.uploads && UploadOk(s, request) && Grows(s, s')
    requires request in s'.uploads && s'.uploads[request] == s.uploads[request]
    ensures UploadOk(s', request)
  {
    hide KeyOf, Marked, Extract, OrUnknown, Rank;
    RowGrows(s, s', request);
  }

  // ---- the steps one by one ----

  lemma InvCall(s: Store, request: string)
    requires Inv(s) && request in s.calls
    ensures CallOk(s, request)
  {}

  lemma BeginKeeps(s: Store, c: Context)
    requires Inv(s) && c.request !in s.origins
    ensures Inv(OnBegin(s, c)) && Grows(s, OnBegin(s, c))
  {
    hide KeyOf, Marked, Extract, OrUnknown, RowOf, Intact, BlobOk;
    var s' := OnBegin(s, c);
    assert Grows(s, s');
    FrameKeeps(s, s', c.request);
  }

  lemma SerialisedKeeps(s: Store, request: string, ok: bool)
    requires Inv(s) && Possible(s, Serialised(request, ok))
    ensures Inv(OnSerialised(s, request, ok)) && Grows(s, OnSerialised(s, request, ok))
  {
    hide KeyOf, Marked, Extract, OrUnknown, RowOf, Intact, BlobOk;
    var s' := OnSerialised(s, request, ok);
    InvCall(s, request);
    assert Grows(s, s');
    FrameKeeps(s, s', request);
  }

  lemma InsertRowKeeps(s: Store, c: Context)
    requires Inv(s) && c.request in s.origins && s.origins[c.request] == c && Extract(c).Some?
    ensures var s' := InsertRow(s, c); Grows(s, s') && RowOf(s', c.request) && RefOk(s', c.request)
    ensures var s' := InsertRow(s, c); forall q | q in s'.refs :: (q in s.refs && s'.refs[q] == s.refs[q]) || q == c.request
  {
    hide KeyOf, Extract, OrUnknown, CallOk, UploadOk, BlobOk, Intact;
    if c.request in s.refs { assert RefOk(s, c.request); }
  }

  lemma RefInsertedKeeps(s: Store, request: string, ok: bool)
    requires Inv(s) && Possible(s, RefInserted(request, ok))
    ensures Inv(OnRefInserted(s, request, ok)) && Grows(s, OnRefInserted(s, request, ok))
  {
    hide Inv, Grows, KeyOf, Marked, InsertRow;
    InvCall(s, request);
    if ok { RowInserted(s, request); } else { CallMoves(s, request, s.calls[request].context, Plain); }
  }

  lemma RowInserted(s: Store, request: string)
    requires Inv(s) && Possible(s, RefInserted(request, true))
    ensures Inv(OnRefInserted(s, request, true)) && Grows(s, OnRefInserted(s, request, true))
  {
    hide KeyOf, Marked, OrUnknown, BlobOk, RefOk, Intact, InsertRow, RowOf, Rank;
    var s', c := OnRefInserted(s, request, true), s.calls[request].context;
    InvCall(s, request);
    InsertRowFrame(s, c);
    InsertRowKeeps(s, c);
    RefFrame(InsertRow(s, c), s', request);
    FrameKeeps(s, s', request);
  }

  lemma InsertRowFrame(s: Store, c: Context)
    ensures InsertRow(s, c) == s.(refs := InsertRow(s, c).refs)
  {
    hide KeyOf, OrUnknown;
  }

  lemma RefFrame(s: Store, s': Store, request: string)
    requires RefOk(s, request) && s'.refs == s.refs && s'.blobs == s.blobs && s'.origins == s.origins
    ensures RefOk(s', request) && RowOf(s', request)
  {
    hide KeyOf, Extract, OrUnknown;
  }

  /** Putting the data back undoes the marker. */
  lemma RestoreUndoes(c: Context)
    requires Extract(c).Some?
    ensures WithExperts(Marked(c), Extract(c).value.field, Data(Extract(c).value.json)) == c
    ensures Marked(c) != c
  {
    hide KeyOf;
  }

  /** One call moves on. */
  lemma CallMoves(s: Store, request: string, context: Context, phase: Phase)
    requires Inv(s) && CallOk(SetCall(s, request, context, phase), request)
    ensures Inv(SetCall(s, request, context, phase)) && Grows(s, SetCall(s, request, context, phase))
  {
    hide KeyOf, Marked, Extract, OrUnknown, BlobOk, RefOk, RowOf, Intact;
    FrameKeeps(s, SetCall(s, request, context, phase), request);
  }

  /** What the inner repository is given is intact. */
  lemma DelegatedIsIntact(s: Store, request: string)
    requires request in s.calls && CallOk(s, request)
    ensures Intact(s, request, s.calls[request].context)
    ensures request in s.origins
    ensures s.calls[request].phase.Delegating? ==> Offloads(s, request) && s.calls[request].context == Marked(s.origins[request])
    ensures s.calls[request].phase.Plain? || s.calls[request].phase.PlainInTry? ==> s.calls[request].context == s.origins[request]
  {
    hide KeyOf, Marked, Extract, OrUnknown;
  }

  lemma InnerFails(s: Store, request: string)
    requires Inv(s) && Possible(s, Inner(request, false))
    ensures Inv(OnInner(s, request, false)) && Grows(s, OnInner(s, request, false))
  {
    hide Inv, Grows, Marked, Extract, RowOf;
    InvCall(s, request);
    DelegatedIsIntact(s, request);
    var c := s.origins[request];
    if s.calls[request].phase.Delegating? { RestoreUndoes(c); }
    CallMoves(s, request, c, if s.calls[request].phase.PlainInTry? then Plain else Done(Failed));
  }

  lemma InnerSucceeds(s: Store, request: string)
    requires Inv(s) && Possible(s, Inner(request, true))
    ensures Inv(OnInner(s, request, true)) && Grows(s, OnInner(s, request, true))
  {
    hide KeyOf, Marked, Extract, OrUnknown, BlobOk, RefOk, RowOf, Rank;
    var s' := OnInner(s, request, true);
    InvCall(s, request);
    DelegatedIsIntact(s, request);
    IntactGrows(s, s', request, s.calls[request].context);
    FrameKeeps(s, s', request);
  }

  lemma InnerKeeps(s: Store, request: string, ok: bool)
    requires Inv(s) && Possible(s, Inner(request, ok))
    ensures Inv(OnInner(s, request, ok)) && Grows(s, OnInner(s, request, ok))
  {
    hide Inv, Grows, OnInner;
    if ok { InnerSucceeds(s, request); } else { InnerFails(s, request); }
  }

  lemma CancelKeeps(s: Store, request: string, committed: bool)
    requires Inv(s) && Possible(s, Cancel(request, committed))
    ensures Inv(OnCancel(s, request, committed)) && Grows(s, OnCancel(s, request, committed))
  {
    hide Inv, Grows, KeyOf, Marked, InsertRow;
    InvCall(s, request);
    if s.calls[request].phase.InsertingRef? && committed {
      RowCancelled(s, request);
    } else {
      DelegatedIsIntact(s, request);
      CallMoves(s, request, s.calls[request].context, Done(Cancelled));
    }
  }

  lemma RowCancelled(s: Store, request: string)
    requires Inv(s) && Possible(s, Cancel(request, true)) && s.calls[request].phase.InsertingRef?
    ensures Inv(OnCancel(s, request, true)) && Grows(s, OnCancel(s, request, true))
  {
    hide KeyOf, Marked, OrUnknown, BlobOk, RefOk, InsertRow, RowOf, Rank;
    var s', c := OnCancel(s, request, true), s.calls[request].context;
    InvCall(s, request);
    InsertRowFrame(s, c);
    InsertRowKeeps(s, c);
    RefFrame(InsertRow(s, c), s', request);
    FrameKeeps(s, s', request);
  }

  lemma PutKeeps(s: Store, request: string, ok: bool)
    requires Inv(s) && Possible(s, Put(request, ok))
    ensures Inv(OnPut(s, request, ok)) && Grows(s, OnPut(s, request, ok))
  {
    hide KeyOf, Marked, Extract, OrUnknown, BlobOk, RefOk, CallOk, Intact, RowOf, Rank;
    var s' := OnPut(s, request, ok);
    assert Grows(s, s');
    forall q | q in s'.calls ensures CallOk(s', q) { CallGrows(s, s', q); }
    forall q | q in s'.refs ensures RefOk(s', q) { RefGrows(s, s', q); }
    forall q | q in s'.uploads ensures UploadOk(s', q) {
      assert UploadOk(s, q);
      RowGrows(s, s', q);
    }
    forall k | k in s'.blobs ensures BlobOk(s', k) {
      if ok && k == KeyOf(s.origins[request]) {
        OwnBlob(s', request);
      } else {
        BlobGrows(s, s', k);
      }
    }
    forall q | q in s'.records ensures Intact(s', q, s'.records[q]) { IntactGrows(s, s', q, s.records[q]); }
  }

  lemma OwnBlob(s: Store, request: string)
    requires Offloads(s, request)
    requires var k := KeyOf(s.origins[request]); k in s.blobs && s.blobs[k] == Extract(s.origins[request]).value.json
    ensures BlobOk(s, KeyOf(s.origins[request]))
  {}

  lemma AdvanceKeeps(s: Store, request: string, from: Status, to: Status)
    requires Inv(s) && Rank(to) == Rank(from) + 1
    requires request in s.refs ==> s.refs[request].key in s.blobs || s.refs[request].status != from
    ensures Inv(Advance(s, request, from, to)) && Grows(s, Advance(s, request, from, to))
  {
    hide KeyOf, Marked, Extract, OrUnknown, BlobOk, CallOk, Intact, RowOf, UploadOk, Offloads;
    var s' := Advance(s, request, from, to);
    assert Grows(s, s');
    forall q | q in s'.calls ensures CallOk(s', q) { CallGrows(s, s', q); }
    forall q | q in s'.refs ensures RefOk(s', q) {
      assert RefOk(s, q);
      RowGrows(s, s', q);
    }
    forall q | q in s'.uploads ensures UploadOk(s', q) { UploadGrows(s, s', q); }
    forall k | k in s'.blobs ensures BlobOk(s', k) { BlobGrows(s, s', k); }
    forall q | q in s'.records ensures Intact(s', q, s'.records[q]) { IntactGrows(s, s', q, s.records[q]); }
  }

  lemma NoUpload(s: Store, request: string)
    requires Inv(s)
    ensures var s' := s.(uploads := s.uploads - {request}); Inv(s') && Grows(s, s')
  {
    hide KeyOf, Marked, Extract, OrUnknown, BlobOk, CallOk, Intact, RowOf, UploadOk, RefOk;
    var s' := s.(uploads := s.uploads - {request});
    assert Grows(s, s');
    forall q | q in s'.calls ensures CallOk(s', q) { CallGrows(s, s', q); }
    forall q | q in s'.refs ensures RefOk(s', q) { RefGrows(s, s', q); }
    forall q | q in s'.uploads ensures UploadOk(s', q) { UploadGrows(s, s', q); }
    forall k | k in s'.blobs ensures BlobOk(s', k) { BlobGrows(s, s', k); }
    forall q | q in s'.records ensures Intact(s', q, s'.records[q]) { IntactGrows(s, s', q, s.records[q]); }
  }

  lemma MarkKeeps(s: Store, request: string, ok: bool)
    requires Inv(s) && Possible(s, Mark(request, ok))
    ensures Inv(OnMark(s, request, ok)) && Grows(s, OnMark(s, request, ok))
  {
    hide KeyOf, Extract, OrUnknown, BlobOk, CallOk, Intact, Inv;
    NoUpload(s, request);
    UploadFacts(s, request);
    AdvanceKeeps(s.(uploads := s.uploads - {request}), request, Uploading, Ready);
  }

  lemma UploadFacts(s: Store, request: string)
    requires Inv(s) && request in s.uploads
    ensures UploadOk(s, request)
  {}

  lemma ConsumeKeeps(s: Store, request: string)
    requires Inv(s)
    ensures Inv(Advance(s, request, Ready, Consumed)) && Grows(s, Advance(s, request, Ready, Consumed))
  {
    hide KeyOf, Extract, OrUnknown, BlobOk, CallOk, Intact, UploadOk;
    assert request in s.refs ==> RefOk(s, request);
    AdvanceKeeps(s, request, Ready, Consumed);
  }

  lemma StepKeepsInv(s: Store, e: Event)
    requires Inv(s) && Possible(s, e)
    ensures Inv(Next(s, e)) && Grows(s, Next(s, e))
  {
    hide Inv, Grows, Extract, OnInner, OnRefInserted, OnSerialised, OnCancel, OnPut, OnMark, Advance;
    match e
    case Begin(c) => BeginKeeps(s, c);
    case Serialised(q, ok) => SerialisedKeeps(s, q, ok);
    case RefInserted(q, ok) => RefInsertedKeeps(s, q, ok);
    case Inner(q, ok) => InnerKeeps(s, q, ok);
    case Cancel(q, committed) => CancelKeeps(s, q, committed);
    case Put(q, ok) => PutKeeps(s, q, ok);
    case Mark(q, ok) => MarkKeeps(s, q, ok);
    case CancelUpload(q) => NoUpload(s, q);
    case Consume(q) => ConsumeKeeps(s, q);
  }

  lemma {:induction false} ExecKeepsInv(s: Store, es: seq<Event>)
    requires Inv(s) && ValidRun(s, es)
    ensures Inv(Exec(s, es))
    decreases |es|
  {
    hide Inv, Next, Possible, Grows;
    if es != [] {
      StepKeepsInv(s, es[0]);
      ExecKeepsInv(Next(s, es[0]), es[1..]);
    }
  }

  // ---- theorems about every interleaving ----

  lemma ReachableInv(es: seq<Event>)
    requires ValidRun(EMPTY, es)
    ensures Inv(Exec(EMPTY, es))
  {
    hide ValidRun, Exec;
    ExecKeepsInv(EMPTY, es);
  }

  /** Every context, and every stored record, is as it was passed to `insert` or holds a marker with the key of an
      existing row; a failed `insert` leaves the context as it was. */
  lemma NothingIsLost(es: seq<Event>, request: string)
    requires ValidRun(EMPTY, es)
    ensures var s := Exec(EMPTY, es);
            && (request in s.calls ==> Intact(s, request, s.calls[request].context))
            && (request in s.records ==> Intact(s, request, s.records[request]))
            && (request in s.calls && s.calls[request].phase == Done(Failed) ==> s.calls[request].context == s.origins[request])
  {
    hide ValidRun, Exec, KeyOf, Marked, Extract, RefOk, UploadOk, BlobOk, OrUnknown;
    ReachableInv(es);
  }

  /** Cancelling the inner insert leaves the marker in the context: the restore only follows an `Exception`. A
      cancelled context is intact exactly if it was cancelled before the marker. */
  lemma CancelledKeepsMarker(es: seq<Event>, request: string, committed: bool)
    requires ValidRun(EMPTY, es) && Possible(Exec(EMPTY, es), Cancel(request, committed))
    ensures var s := Exec(EMPTY, es); var s' := Next(s, Cancel(request, committed));
            request in s.origins && request in s'.calls
            && (s'.calls[request].context == s.origins[request] <==> !s.calls[request].phase.Delegating?)
  {
    hide ValidRun, Exec, KeyOf, Marked, Extract, RefOk, UploadOk, BlobOk, OrUnknown, RowOf;
    ReachableInv(es);
    var s := Exec(EMPTY, es);
    InvCall(s, request);
    if s.calls[request].phase.Delegating? { RestoreUndoes(s.origins[request]) by { Delegated(s, request); } }
  }

  lemma Delegated(s: Store, request: string)
    requires request in s.calls && CallOk(s, request) && s.calls[request].phase.Delegating?
    ensures Offloads(s, request)
  {}

  /** Every request id is safe, as the uuids are that the program issues. */
  ghost predicate SafeIds(es: seq<Event>) {
    forall e | e in es :: e.Begin? ==> IsSafe(e.context.request)
  }

  ghost predicate SafeOrigins(s: Store) {
    forall q | q in s.origins :: IsSafe(q) && s.origins[q].request == q
  }

  lemma StepOrigins(s: Store, e: Event)
    requires Possible(s, e)
    ensures Next(s, e).origins == if e.Begin? then s.origins[e.context.request := e.context] else s.origins
  {
    hide KeyOf, Extract, OrUnknown, WithExperts, Marked, InsertRow;
    match e
    case RefInserted(q, _) => InsertRowFrame(s, s.calls[q].context);
    case Cancel(q, _) => InsertRowFrame(s, s.calls[q].context);
    case _ =>
  }

  lemma {:induction false} SafeRun(s: Store, es: seq<Event>)
    requires ValidRun(s, es) && SafeIds(es) && SafeOrigins(s)
    ensures SafeOrigins(Exec(s, es))
    decreases |es|
  {
    hide Next, Possible, IsSafe;
    if es != [] {
      StepOrigins(s, es[0]);
      assert es[0] in es;
      SafeRun(Next(s, es[0]), es[1..]);
    }
  }

  lemma ReachableSafe(es: seq<Event>)
    requires ValidRun(EMPTY, es) && SafeIds(es)
    ensures Inv(Exec(EMPTY, es)) && SafeOrigins(Exec(EMPTY, es))
  {
    hide ValidRun, Exec, Inv, SafeIds;
    ReachableInv(es);
    SafeRun(EMPTY, es);
  }

  /** No other request has the key of `request`. */
  lemma KeysApart(s: Store, request: string, other: string)
    requires SafeOrigins(s) && request in s.origins && other in s.origins && request != other
    ensures KeyOf(s.origins[request]) != KeyOf(s.origins[other])
  {
    hide IsSafe, MakeKey;
    var c, c' := s.origins[request], s.origins[other];
    SafeIdsKeepKeysApart(c.run, c.session, request, c'.run, c'.session, other);
  }

  /** Under the key of a request lies nothing but what this request has serialised. */
  lemma BlobIsOwn(s: Store, request: string)
    requires Inv(s) && SafeOrigins(s) && request in s.origins && KeyOf(s.origins[request]) in s.blobs
    ensures Offloads(s, request) && s.blobs[KeyOf(s.origins[request])] == Extract(s.origins[request]).value.json
  {
    hide KeyOf, Extract, CallOk, RefOk, UploadOk, Intact, SafeOrigins;
    var key := KeyOf(s.origins[request]);
    assert BlobOk(s, key);
    var q :| q in s.origins && Offloads(s, q) && KeyOf(s.origins[q]) == key && s.blobs[key] == Extract(s.origins[q]).value.json;
    if q != request { KeysApart(s, request, q); }
  }

  /** A row that is ready names a blob, and the blob is what this request has serialised. */
  lemma ReadyMeansOriginal(es: seq<Event>, request: string)
    requires ValidRun(EMPTY, es) && SafeIds(es)
    ensures var s := Exec(EMPTY, es);
            request in s.refs && !s.refs[request].status.Uploading? ==>
              && Offloads(s, request) && s.refs[request].key in s.blobs
              && s.blobs[s.refs[request].key] == Extract(s.origins[request]).value.json
  {
    hide ValidRun, Exec, KeyOf, Marked, Extract, CallOk, UploadOk, BlobOk, Intact, OrUnknown, SafeIds;
    ReachableSafe(es);
    var s := Exec(EMPTY, es);
    if request in s.refs && !s.refs[request].status.Uploading? {
      assert RefOk(s, request);
      BlobIsOwn(s, request);
    }
  }

  /** No step ever changes or removes a stored blob. */
  lemma BlobsNeverChange(es: seq<Event>, e: Event)
    requires ValidRun(EMPTY, es) && SafeIds(es) && Possible(Exec(EMPTY, es), e)
    ensures var s := Exec(EMPTY, es); forall k | k in s.blobs :: k in Next(s, e).blobs && Next(s, e).blobs[k] == s.blobs[k]
  {
    hide ValidRun, Exec, KeyOf, Marked, Extract, Inv, OrUnknown, SafeIds, SafeOrigins, WithExperts;
    ReachableSafe(es);
    var s := Exec(EMPTY, es);
    match e
    case Put(q, true) => if KeyOf(s.origins[q]) in s.blobs { BlobIsOwn(s, q); }
    case _ =>
  }

  /** Whatever the ids are: what another request has uploaded survives an upload exactly if the keys differ or the data
      is the same. */
  lemma UploadSparesIff(s: Store, request: string, other: string)
    requires Possible(s, Put(request, true)) && Offloads(s, other)
    requires var key := KeyOf(s.origins[other]); key in s.blobs && s.blobs[key] == Extract(s.origins[other]).value.json
    ensures var s' := Next(s, Put(request, true)); var key := KeyOf(s.origins[other]);
            key in s'.blobs
            && (s'.blobs[key] == Extract(s.origins[other]).value.json <==>
                  KeyOf(s.origins[request]) != key || Extract(s.origins[request]).value.json == Extract(s.origins[other]).value.json)
  {
    hide KeyOf, Extract;
  }

  // ---- fetching ----

  datatype FetchResult = NotFound | StillUploading(retryAfter: nat) | Stream(key: string) | Gone

  /** `get_for_fetch`, then `get_route_experts`. */
  function GetRouteExperts(s: Store, enabled: bool, session: string, request: string): FetchResult {
    if !enabled || request !in s.refs || s.refs[request].session != session then NotFound
    else
      match s.refs[request].status
      case Uploading => StillUploading(30)
      case Ready => if s.refs[request].key == "" then NotFound else Stream(s.refs[request].key)
      case Consumed => Gone
  }

  /** Only the session that a request came with can fetch its data, which for a request without a session is
      "unknown"; what it streams is this request's data. */
  lemma FetchIsOwn(es: seq<Event>, session: string, request: string)
    requires ValidRun(EMPTY, es) && SafeIds(es)
    ensures var s := Exec(EMPTY, es);
            match GetRouteExperts(s, true, session, request)
            case Stream(key) =>
              && Offloads(s, request) && session == OrUnknown(s.origins[request].session)
              && key in s.blobs && s.blobs[key] == Extract(s.origins[request]).value.json
            case NotFound => request !in s.refs || (request in s.origins && session != OrUnknown(s.origins[request].session))
            case StillUploading(_) => request in s.refs && s.refs[request].status == Uploading
            case Gone => request in s.refs && s.refs[request].status == Consumed
  {
    hide ValidRun, Exec, Marked, Extract, CallOk, UploadOk, Intact, OrUnknown, BlobOk, MakeKey, SafeIds;
    ReachableInv(es);
    ReadyMeansOriginal(es, request);
    var s := Exec(EMPTY, es);
    if request in s.refs {
      assert RefOk(s, request);
      KeyIsNotEmpty(s.origins[request]);
    }
  }

  lemma KeyIsNotEmpty(c: Context)
    ensures KeyOf(c) != ""
  {
    hide Sanitize, OrUnknown;
    assert KeyOf(c)[0] == 'r';
  }

  // ---- the program ----

  /** `ProcessContext`, whose responses are changed in place. */
  class ProcessContext {
    const requestId: string
    const sessionId: Option<string>
    var tokenResponse: Slot
    var rawResponse: Slot

    constructor (requestId: string, sessionId: Option<string>, tokenResponse: Slot, rawResponse: Slot)
      ensures this.requestId == requestId && this.sessionId == sessionId
      ensures this.tokenResponse == tokenResponse && this.rawResponse == rawResponse
    {
      this.requestId, this.sessionId, this.tokenResponse, this.rawResponse := requestId, sessionId, tokenResponse, rawResponse;
    }

    ghost function View(run: Option<string>): Context
      reads this
    {
      Context(requestId, sessionId, run, tokenResponse, rawResponse)
    }

    method Assign(field: Field, experts: Experts)
      modifies this
      ensures forall run :: View(run) == WithExperts(old(View(run)), field, experts)
    {
      if field.TokenResponse? { tokenResponse := Holds(experts); } else { rawResponse := Holds(experts); }
    }

    method FindExperts() returns (found: Option<Found>)
      ensures forall run :: found == Extract(View(run))
    {
      if tokenResponse.Holds? && tokenResponse.experts.Data? { return Some(Found(tokenResponse.experts.json, TokenResponse)); }
      if rawResponse.Holds? && rawResponse.experts.Data? { return Some(Found(rawResponse.experts.json, RawResponse)); }
      return None;
    }
  }

  /** The reference table. */
  class R3RefRepository {
    var rows: map<string, Ref>

    constructor ()
      ensures rows == map[]
    {
      rows := map[];
    }

    method InsertRef(requestId: string, sessionId: string, blobKey: string)
      modifies this
      ensures rows == if requestId in old(rows) then old(rows) else old(rows)[requestId := Ref(sessionId, blobKey, Uploading)]
    {
      if requestId !in rows { rows := rows[requestId := Ref(sessionId, blobKey, Uploading)]; }
    }

    /** `mark_ready` is `Move(_, Uploading, Ready)`, `mark_consumed` is `Move(_, Ready, Consumed)`. */
    method Move(requestId: string, from: Status, to: Status) returns (matched: bool)
      modifies this
      ensures matched <==> requestId in old(rows) && old(rows)[requestId].status == from
      ensures forall s: Store :: Advance(s.(refs := old(rows)), requestId, from, to) == s.(refs := rows)
    {
      matched := requestId in rows && rows[requestId].status == from;
      if matched { rows := rows[requestId := rows[requestId].(status := to)]; }
    }

    method GetForFetch(sessionId: string, requestId: string) returns (row: Option<Ref>)
      ensures row.Some? <==> requestId in rows && rows[requestId].session == sessionId
      ensures row.Some? ==> row.value == rows[requestId]
    {
      if requestId in rows && rows[requestId].session == sessionId { return Some(rows[requestId]); }
      return None;
    }
  }

  /** What the environment answers to one `insert`. */
  datatype Answers = Answers(serialises: bool, refCommits: bool, inserts: bool, insertsAgain: bool)

  /** The steps of an `insert` that is not interrupted. */
  function Insertion(c: Context, a: Answers): seq<Event> {
    var q := c.request;
    if Extract(c).None? then [Begin(c), Inner(q, a.inserts)]
    else if !a.serialises then [Begin(c), Serialised(q, false), Inner(q, a.inserts)]
    else if |Extract(c).value.json| > MAX_BYTES then
      [Begin(c), Serialised(q, true), Inner(q, a.inserts)] + if a.inserts then [] else [Inner(q, a.insertsAgain)]
    else [Begin(c), Serialised(q, true), RefInserted(q, a.refCommits), Inner(q, a.inserts)]
  }

  class OffloadingRepository {
    const refRepo: R3RefRepository
    var backgroundTasks: map<string, Upload>
    var inner: map<string, Context>
    ghost var origins: map<string, Context>
    ghost var calls: map<string, Call>
    ghost var blobs: map<string, string>

    constructor ()
      ensures fresh(refRepo) && View() == EMPTY
    {
      refRepo := new R3RefRepository();
      backgroundTasks, inner, origins, calls, blobs := map[], map[], map[], map[], map[];
    }

    ghost function View(): Store
      reads this, refRepo
    {
      Store(origins, calls, refRepo.rows, blobs, backgroundTasks, inner)
    }

    /** The delegate: the record holds the context as it is now. */
    method InnerInsert(context: ProcessContext, run: Option<string>, ok: bool) returns (raised: bool)
      modifies this`inner
      ensures raised == !ok
      ensures inner == if ok then old(inner)[context.requestId := context.View(run)] else old(inner)
    {
      if ok { inner := inner[context.requestId := Context(context.requestId, context.sessionId, run, context.tokenResponse, context.rawResponse)]; }
      raised := !ok;
    }

    method InsertAsIs(context: ProcessContext, run: Option<string>, ok: bool) returns (raised: bool)
      modifies this`inner, this`calls
      ensures View() == Kept(old(View()), context.View(run), ok) && raised == !ok
    {
      raised := InnerInsert(context, run, ok);
      calls := calls[context.requestId := Call(context.View(run), Done(if ok then Inserted else Failed))];
    }

    /** The row, the upload, the marker, the delegate; and the data is put back if that raises. */
    method InsertMarked(context: ProcessContext, run: Option<string>, found: Found, ok: bool) returns (raised: bool)
      requires Extract(context.View(run)) == Some(found)
      modifies this`inner, this`calls, this`backgroundTasks, refRepo, context
      ensures View() == Moved(old(View()), old(context.View(run)), ok) && raised == !ok
      ensures context.View(run) == if ok then Marked(old(context.View(run))) else old(context.View(run))
    {
      hide MakeKey, Extract;
      ghost var c := context.View(run);
      RestoreUndoes(c);
      var key := MakeKey(run, context.sessionId, context.requestId);
      refRepo.InsertRef(context.requestId, OrUnknown(context.sessionId), key);
      backgroundTasks := backgroundTasks[context.requestId := Putting];
      context.Assign(found.field, Marker(key));
      raised := InnerInsert(context, run, ok);
      if raised { context.Assign(found.field, Data(found.json)); }
      calls := calls[context.requestId := Call(context.View(run), Done(if ok then Inserted else Failed))];
    }

    method Insert(context: ProcessContext, run: Option<string>, answers: Answers) returns (raised: bool)
      requires context.requestId !in origins
      modifies this, refRepo, context
      ensures ValidRun(old(View()), Insertion(old(context.View(run)), answers))
      ensures View() == Exec(old(View()), Insertion(old(context.View(run)), answers))
      ensures raised ==> context.View(run) == old(context.View(run))
    {
      hide ValidRun, Exec, Extract, Kept, Moved, MAX_BYTES, Insertion;
      ghost var c := context.View(run);
      InsertionSteps(View(), c, answers);
      origins := origins[context.requestId := c];
      ghost var s := View();
      var found := context.FindExperts();
      if found.None? || !answers.serialises {
        raised := InsertAsIs(context, run, answers.inserts);
      } else if |found.value.json| > MAX_BYTES {
        raised := InsertAsIs(context, run, answers.inserts);
        if raised {
          KeptTwice(s, c, answers.insertsAgain);
          raised := InsertAsIs(context, run, answers.insertsAgain);
        }
      } else if !answers.refCommits {
        raised := InsertAsIs(context, run, answers.inserts);
      } else {
        raised := InsertMarked(context, run, found.value, answers.inserts);
      }
    }
  }

  lemma KeptTwice(s: Store, c: Context, ok: bool)
    ensures Kept(Kept(s, c, false), c, ok) == Kept(s, c, ok)
  {
    CallTwice(s, c.request, c, Done(Failed), c, Done(if ok then Inserted else Failed));
    CallTwice(s.(records := s.records[c.request := c]), c.request, c, Done(Failed), c, Done(Inserted));
  }

  lemma OneStep(s: Store, e: Event, rest: seq<Event>)
    requires Possible(s, e) && ValidRun(Next(s, e), rest)
    ensures ValidRun(s, [e] + rest) && Exec(s, [e] + rest) == Exec(Next(s, e), rest)
  {
    hide Next, Possible;
    assert ([e] + rest)[1..] == rest;
  }

  lemma NoStep(s: Store)
    ensures ValidRun(s, []) && Exec(s, []) == s
  {}

  lemma CallTwice(s: Store, request: string, c: Context, phase: Phase, c': Context, phase': Phase)
    ensures SetCall(SetCall(s, request, c, phase), request, c', phase') == SetCall(s, request, c', phase')
  {
    assert s.calls[request := Call(c, phase)][request := Call(c', phase')] == s.calls[request := Call(c', phase')];
  }

  /** The state after an insert that delegates the context as it is. */
  function Kept(s: Store, c: Context, ok: bool): Store {
    var s1 := if ok then s.(records := s.records[c.request := c]) else s;
    SetCall(s1, c.request, c, Done(if ok then Inserted else Failed))
  }

  /** The state after an insert that delegates the marker. */
  function Moved(s: Store, c: Context, ok: bool): Store
    requires Extract(c).Some?
  {
    var s1 := InsertRow(s, c);
    var s2 := s1.(uploads := s1.uploads[c.request := Putting]);
    if ok then SetCall(s2.(records := s2.records[c.request := Marked(c)]), c.request, Marked(c), Done(Inserted))
    else SetCall(s2, c.request, c, Done(Failed))
  }

  function Known(s: Store, c: Context): Store {
    s.(origins := s.origins[c.request := c])
  }

  lemma PlainInner(s: Store, c: Context, ok: bool)
    requires c.request in s.origins && s.origins[c.request] == c
    ensures var s' := SetCall(s, c.request, c, Plain); var e := Inner(c.request, ok);
            ValidRun(s', [e]) && Exec(s', [e]) == Kept(s, c, ok)
  {
    hide ValidRun, Exec, Extract;
    var s', e := SetCall(s, c.request, c, Plain), Inner(c.request, ok);
    NoStep(Next(s', e));
    OneStep(s', e, []);
    assert [e] + [] == [e];
    CallTwice(s, c.request, c, Plain, c, Done(if ok then Inserted else Failed));
    CallTwice(s.(records := s.records[c.request := c]), c.request, c, Plain, c, Done(Inserted));
  }

  lemma GuardedInner(s: Store, c: Context, ok: bool, again: bool)
    requires c.request in s.origins && s.origins[c.request] == c
    ensures var s' := SetCall(s, c.request, c, PlainInTry); var es := [Inner(c.request, ok)] + if ok then [] else [Inner(c.request, again)];
            ValidRun(s', es) && Exec(s', es) == Kept(s, c, ok || again)
  {
    hide ValidRun, Exec, Extract;
    var s', e := SetCall(s, c.request, c, PlainInTry), Inner(c.request, ok);
    if ok {
      NoStep(Next(s', e));
      OneStep(s', e, []);
      CallTwice(s.(records := s.records[c.request := c]), c.request, c, PlainInTry, c, Done(Inserted));
    } else {
      CallTwice(s, c.request, c, PlainInTry, c, Plain);
      PlainInner(s, c, again);
      OneStep(s', e, [Inner(c.request, again)]);
    }
  }

  lemma MarkedInner(s: Store, c: Context, ok: bool)
    requires c.request in s.origins && s.origins[c.request] == c && Extract(c).Some?
    ensures var s' := SetCall(s, c.request, c, InsertingRef); var es := [RefInserted(c.request, true), Inner(c.request, ok)];
            ValidRun(s', es) && Exec(s', es) == Moved(s, c, ok)
  {
    hide ValidRun, Exec, Extract, MakeKey, InsertRow, Marked;
    var s', e, q := SetCall(s, c.request, c, InsertingRef), Inner(c.request, ok), c.request;
    InsertRowFrame(s, c);
    RowAnyCall(s, c, s'.calls);
    var s1 := InsertRow(s, c);
    var s2 := s1.(uploads := s1.uploads[q := Putting]);
    var s3 := SetCall(s2, q, Marked(c), Delegating);
    CallTwice(s2, q, c, InsertingRef, Marked(c), Delegating);
    CallTwice(s2, q, Marked(c), Delegating, c, Done(Failed));
    CallTwice(s2.(records := s2.records[q := Marked(c)]), q, Marked(c), Delegating, Marked(c), Done(Inserted));
    RestoreUndoes(c);
    NoStep(Next(s3, e));
    OneStep(s3, e, []);
    assert [e] + [] == [e] && [RefInserted(q, true)] + [e] == [RefInserted(q, true), e];
    OneStep(s', RefInserted(q, true), [e]);
  }

  lemma RowAnyCall(s: Store, c: Context, calls: map<string, Call>)
    ensures InsertRow(s.(calls := calls), c) == InsertRow(s, c).(calls := calls)
  {
    hide MakeKey;
  }

  lemma InsertionSteps(s: Store, c: Context, a: Answers)
    requires c.request !in s.origins
    ensures ValidRun(s, Insertion(c, a))
    ensures Exec(s, Insertion(c, a)) ==
              if Extract(c).None? || !a.serialises then Kept(Known(s, c), c, a.inserts)
              else if |Extract(c).value.json| > MAX_BYTES then Kept(Known(s, c), c, a.inserts || a.insertsAgain)
              else if !a.refCommits then Kept(Known(s, c), c, a.inserts)
              else Moved(Known(s, c), c, a.inserts)
  {
    hide ValidRun, Exec, Extract, MakeKey, Kept, Moved, MAX_BYTES;
    var q, s0, es := c.request, Known(s, c), Insertion(c, a);
    assert es == [Begin(c)] + es[1..];
    if Extract(c).None? {
      PlainInner(s0, c, a.inserts);
      assert es[1..] == [Inner(q, a.inserts)];
      OneStep(s, Begin(c), es[1..]);
    } else {
      AfterSerialising(s0, c, a);
      OneStep(s, Begin(c), es[1..]);
    }
  }

  lemma AfterSerialising(s: Store, c: Context, a: Answers)
    requires c.request in s.origins && s.origins[c.request] == c && Extract(c).Some?
    ensures var s' := SetCall(s, c.request, c, Serialising); var es := Insertion(c, a)[1..];
            && ValidRun(s', es)
            && Exec(s', es) ==
                 if !a.serialises then Kept(s, c, a.inserts)
                 else if |Extract(c).value.json| > MAX_BYTES then Kept(s, c, a.inserts || a.insertsAgain)
                 else if !a.refCommits then Kept(s, c, a.inserts)
                 else Moved(s, c, a.inserts)
  {
    hide ValidRun, Exec, Extract, MakeKey, Kept, Moved, MAX_BYTES;
    var q, s', es := c.request, SetCall(s, c.request, c, Serialising), Insertion(c, a)[1..];
    var first := Serialised(q, a.serialises);
    assert es == [first] + es[1..];
    if !a.serialises {
      CallTwice(s, q, c, Serialising, c, Plain);
      PlainInner(s, c, a.inserts);
      assert es[1..] == [Inner(q, a.inserts)];
    } else if |Extract(c).value.json| > MAX_BYTES {
      CallTwice(s, q, c, Serialising, c, PlainInTry);
      GuardedInner(s, c, a.inserts, a.insertsAgain);
      assert es[1..] == [Inner(q, a.inserts)] + if a.inserts then [] else [Inner(q, a.insertsAgain)];
    } else {
      CallTwice(s, q, c, Serialising, c, InsertingRef);
      if a.refCommits {
        MarkedInner(s, c, a.inserts);
      } else {
        var s1, e := SetCall(s, q, c, InsertingRef), RefInserted(q, false);
        CallTwice(s, q, c, InsertingRef, c, Plain);
        PlainInner(s, c, a.inserts);
        OneStep(s1, e, [Inner(q, a.inserts)]);
        assert [e] + [Inner(q, a.inserts)] == es[1..];
      }
      assert es[1..] == [RefInserted(q, a.refCommits), Inner(q, a.inserts)];
    }
    OneStep(s', first, es[1..]);
  }
}
