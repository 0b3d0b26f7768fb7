/** What an offload that succeeds leads to: the row becomes ready, and the own session can fetch the original data from
    then on. */
module OffloadReady {
  import opened Text
  import opened BlobKey
  import opened Offload

  /** The row of a running upload is waiting for it, and a call that has not asked for its row has none. */
  ghost predicate Awaited(s: Store) {
    && (forall q | q in s.uploads :: q in s.refs && s.refs[q].status.Uploading?)
    && (forall q | q in s.calls && (s.calls[q].phase.Serialising? || s.calls[q].phase.InsertingRef?) :: q !in s.refs && q !in s.uploads)
  }

  lemma Unknown(s: Store, request: string)
    requires Inv(s) && request !in s.origins
    ensures request !in s.refs && request !in s.uploads
  {
    hide CallOk, Intact, BlobOk, KeyOf, Extract;
    assert forall q | q in s.refs :: RefOk(s, q);
    assert forall q | q in s.uploads :: UploadOk(s, q);
  }

  lemma StepAwaited(s: Store, e: Event)
    requires Inv(s) && Awaited(s) && Possible(s, e)
    ensures Awaited(Next(s, e))
  {
    hide Inv, Awaited, Next, Possible;
    match e
    case Begin(c) => BeginAwaited(s, c);
    case Serialised(q, ok) => SerialisedAwaited(s, q, ok);
    case RefInserted(q, ok) => RowAwaited(s, e, q);
    case Inner(q, ok) => InnerAwaited(s, q, ok);
    case Cancel(q, committed) => RowAwaited(s, e, q);
    case Put(q, ok) => BackgroundAwaited(s, e);
    case Mark(q, ok) => BackgroundAwaited(s, e);
    case CancelUpload(q) => BackgroundAwaited(s, e);
    case Consume(q) => BackgroundAwaited(s, e);
  }

  lemma SerialisedAwaited(s: Store, request: string, ok: bool)
    requires Awaited(s) && Possible(s, Serialised(request, ok))
    ensures Awaited(Next(s, Serialised(request, ok)))
  {
    hide KeyOf, Extract, OrUnknown, WithExperts, Awaited, Offloads;
    CallAwaited(s, request, Next(s, Serialised(request, ok)));
  }

  lemma InnerAwaited(s: Store, request: string, ok: bool)
    requires Awaited(s) && Possible(s, Inner(request, ok))
    ensures Awaited(Next(s, Inner(request, ok)))
  {
    hide KeyOf, Extract, OrUnknown, WithExperts, Awaited, Offloads;
    CallAwaited(s, request, Next(s, Inner(request, ok)));
  }

  lemma BackgroundAwaited(s: Store, e: Event)
    requires Awaited(s) && Possible(s, e) && (e.Put? || e.Mark? || e.CancelUpload? || e.Consume?)
    ensures Awaited(Next(s, e))
  {
    hide KeyOf, Extract, Advance, Awaited, Offloads;
    match e
    case Mark(q, ok) =>
      UploadAwaited(s, s.(uploads := s.uploads - {q}));
      AdvanceAwaited(s.(uploads := s.uploads - {q}), q, Uploading, Ready);
    case Consume(q) => AdvanceAwaited(s, q, Ready, Consumed);
    case Put(_, _) => UploadAwaited(s, Next(s, e));
    case CancelUpload(_) => UploadAwaited(s, Next(s, e));
    case _ =>
  }

  lemma BeginAwaited(s: Store, c: Context)
    requires Inv(s) && Awaited(s) && Possible(s, Begin(c))
    ensures Awaited(Next(s, Begin(c)))
  {
    hide Inv, KeyOf, Extract, OrUnknown;
    Unknown(s, c.request);
  }

  /** Only the call of `request` moves, to a later phase. */
  lemma CallAwaited(s: Store, request: string, s': Store)
    requires Awaited(s) && request in s.calls && request in s'.calls && s'.refs == s.refs && s'.uploads == s.uploads
    requires forall q | q in s'.calls && q != request :: q in s.calls && s'.calls[q] == s.calls[q]
    requires s'.calls[request].phase.InsertingRef? ==> s.calls[request].phase.Serialising?
    requires !s'.calls[request].phase.Serialising?
    ensures Awaited(s')
  {}

  lemma UploadAwaited(s: Store, s': Store)
    requires Awaited(s) && s'.calls == s.calls && s'.refs == s.refs && s'.uploads.Keys <= s.uploads.Keys
    ensures Awaited(s')
  {}

  /** A row moves on only when no upload waits for it, or from a state that no waiting row is in. */
  lemma AdvanceAwaited(s: Store, request: string, from: Status, to: Status)
    requires Awaited(s) && (request !in s.uploads || from != Uploading)
    ensures Awaited(Advance(s, request, from, to))
  {}

  lemma RowAwaited(s: Store, e: Event, request: string)
    requires Inv(s) && Awaited(s) && (e.RefInserted? || e.Cancel?) && Possible(s, e) && e.request == request
    ensures Awaited(Next(s, e))
  {
    hide Inv, KeyOf, Extract, OrUnknown, Marked;
    OwnRequest(s, request);
  }

  lemma OwnRequest(s: Store, request: string)
    requires Inv(s) && request in s.calls && !s.calls[request].phase.Done?
    ensures request in s.origins && s.origins[request].request == request
    ensures s.calls[request].phase.InsertingRef? ==> s.calls[request].context.request == request
  {
    hide KeyOf, Extract, OrUnknown, Marked, RowOf, Intact, RefOk, UploadOk, BlobOk;
  }

  lemma {:induction false} RunAwaited(s: Store, es: seq<Event>)
    requires Inv(s) && Awaited(s) && ValidRun(s, es)
    ensures Inv(Exec(s, es)) && Awaited(Exec(s, es))
    decreases |es|
  {
    hide Inv, Awaited, Next, Possible;
    if es != [] {
      StepKeepsInv(s, es[0]);
      StepAwaited(s, es[0]);
      RunAwaited(Next(s, es[0]), es[1..]);
    }
  }

  lemma {:induction false} RunAppends(s: Store, es: seq<Event>, fs: seq<Event>)
    requires ValidRun(s, es) && ValidRun(Exec(s, es), fs)
    ensures ValidRun(s, es + fs) && Exec(s, es + fs) == Exec(Exec(s, es), fs)
    decreases |es|
  {
    hide Next, Possible;
    if es == [] {
      assert es + fs == fs;
    } else {
      assert (es + fs)[1..] == es[1..] + fs;
      RunAppends(Next(s, es[0]), es[1..], fs);
    }
  }

  // ---- a successful upload ----

  /** The two answers of a background upload that succeeds. */
  function Success(request: string): seq<Event> {
    [Put(request, true), Mark(request, true)]
  }

  /** The own session is sent the data that the request came with. */
  ghost predicate Fetches(s: Store, request: string) {
    && request in s.origins && Extract(s.origins[request]).Some?
    && match GetRouteExperts(s, true, OrUnknown(s.origins[request].session), request)
       case Stream(key) => key == KeyOf(s.origins[request]) && key in s.blobs && s.blobs[key] == Extract(s.origins[request]).value.json
       case _ => false
  }

  lemma UploadFinishes(s: Store, request: string)
    requires Inv(s) && Awaited(s) && request in s.uploads && s.uploads[request] == Putting
    ensures ValidRun(s, Success(request)) && request in s.origins
    ensures var s' := Exec(s, Success(request)); Fetches(s', request) && request !in s'.uploads && s'.refs[request].status == Ready
    ensures s.refs[request].status.Uploading? && GetRouteExperts(s, true, OrUnknown(s.origins[request].session), request) == StillUploading(30)
  {
    hide Inv, KeyOf, Extract, OrUnknown, Next, Possible, Fetches;
    UploadFacts(s, request);
    var e1, e2 := Put(request, true), Mark(request, true);
    PutSucceeds(s, request);
    var s1 := Next(s, e1);
    MarkSucceeds(s1, request);
    var s2 := Next(s1, e2);
    NoStep(s2);
    OneStep(s1, e2, []);
    OneStep(s, e1, [e2]);
    assert [e1] + [e2] == Success(request) && [e2] + [] == [e2];
  }

  lemma PutSucceeds(s: Store, request: string)
    requires RowOf(s, request) && request in s.uploads && s.uploads[request] == Putting
    ensures var e := Put(request, true); Possible(s, e) && var s' := Next(s, e);
            && s'.origins == s.origins && s'.refs == s.refs && request in s'.uploads && s'.uploads[request] == Marking
            && KeyOf(s.origins[request]) in s'.blobs && s'.blobs[KeyOf(s.origins[request])] == Extract(s.origins[request]).value.json
  {
    hide KeyOf, Extract, OrUnknown;
  }

  lemma MarkSucceeds(s: Store, request: string)
    requires RowOf(s, request) && s.refs[request].status == Uploading && request in s.uploads && s.uploads[request] == Marking
    requires KeyOf(s.origins[request]) in s.blobs && s.blobs[KeyOf(s.origins[request])] == Extract(s.origins[request]).value.json
    ensures var e := Mark(request, true); Possible(s, e) && var s' := Next(s, e);
            && Fetches(s', request) && request !in s'.uploads && request in s'.refs && s'.refs[request].status == Ready
  {
    hide KeyOf, Extract, OrUnknown;
    KeyIsNotEmpty(s.origins[request]);
  }

  /** In every reachable state with an upload under way, whatever the other calls have done: a fetch is told to wait; the
      upload can succeed, and then the row is ready and the own session is sent the original data. */
  lemma UploadMakesReady(es: seq<Event>, request: string)
    requires ValidRun(EMPTY, es) && request in Exec(EMPTY, es).uploads && Exec(EMPTY, es).uploads[request] == Putting
    ensures ValidRun(EMPTY, es + Success(request)) && Fetches(Exec(EMPTY, es + Success(request)), request)
    ensures Exec(EMPTY, es + Success(request)).refs[request].status == Ready
    ensures var s := Exec(EMPTY, es);
            request in s.origins && GetRouteExperts(s, true, OrUnknown(s.origins[request].session), request) == StillUploading(30)
  {
    hide ValidRun, Exec, Inv, KeyOf, Extract, OrUnknown, Fetches, Success, GetRouteExperts;
    ReachableAwaited(es);
    UploadFinishes(Exec(EMPTY, es), request);
    RunAppends(EMPTY, es, Success(request));
  }

  lemma ReachableAwaited(es: seq<Event>)
    requires ValidRun(EMPTY, es)
    ensures Inv(Exec(EMPTY, es)) && Awaited(Exec(EMPTY, es))
  {
    hide ValidRun, Exec;
    RunAwaited(EMPTY, es);
  }

  // ---- from then on ----

  lemma StepStaysReady(s: Store, e: Event, request: string)
    requires Possible(s, e) && e != Consume(request) && request in s.refs && s.refs[request].status == Ready
    ensures request in Next(s, e).refs && Next(s, e).refs[request] == s.refs[request]
  {
    hide KeyOf, Extract, OrUnknown, Marked, WithExperts, InsertRow, Offloads;
    match e
    case RefInserted(q, _) => RowKept(s, s.calls[q].context, request);
    case Cancel(q, _) => RowKept(s, s.calls[q].context, request);
    case _ =>
  }

  lemma RowKept(s: Store, c: Context, request: string)
    requires request in s.refs
    ensures request in InsertRow(s, c).refs && InsertRow(s, c).refs[request] == s.refs[request]
  {
    hide KeyOf, OrUnknown;
  }

  lemma {:induction false} StaysReady(s: Store, fs: seq<Event>, request: string)
    requires ValidRun(s, fs) && Consume(request) !in fs && request in s.refs && s.refs[request].status == Ready
    ensures request in Exec(s, fs).refs && Exec(s, fs).refs[request] == s.refs[request]
    decreases |fs|
  {
    hide Next, Possible;
    if fs != [] {
      StepStaysReady(s, fs[0], request);
      StaysReady(Next(s, fs[0]), fs[1..], request);
    }
  }

  lemma StaysFetched(es: seq<Event>, fs: seq<Event>, request: string)
    requires ValidRun(EMPTY, es) && ValidRun(Exec(EMPTY, es), fs) && SafeIds(es + fs) && Consume(request) !in fs
    requires request in Exec(EMPTY, es).refs && Exec(EMPTY, es).refs[request].status == Ready
    ensures ValidRun(EMPTY, es + fs) && Fetches(Exec(EMPTY, es + fs), request)
  {
    hide ValidRun, Exec, SafeIds, KeyOf, Extract, OrUnknown;
    RunAppends(EMPTY, es, fs);
    StaysReady(Exec(EMPTY, es), fs, request);
    RowIsKnown(es + fs, request);
    var s := Exec(EMPTY, es + fs);
    FetchIsOwn(es + fs, OrUnknown(s.origins[request].session), request);
    KeyIsNotEmpty(s.origins[request]);
  }

  lemma RowIsKnown(es: seq<Event>, request: string)
    requires ValidRun(EMPTY, es) && request in Exec(EMPTY, es).refs
    ensures var s := Exec(EMPTY, es);
            request in s.origins && s.refs[request].session == OrUnknown(s.origins[request].session)
            && s.refs[request].key == KeyOf(s.origins[request])
  {
    hide ValidRun, Exec, CallOk, UploadOk, BlobOk, Intact, KeyOf, Extract, OrUnknown;
    ReachableInv(es);
    assert RefOk(Exec(EMPTY, es), request);
  }

  /** An insert whose data fits and whose row is committed, whatever the inner repository answers, followed by a
      successful upload: from then on, over every run of other calls in which the row is not consumed, the own session
      fetches exactly the data that was passed in, and the record of the request names the key it is fetched under. */
  lemma OffloadedIsFetched(es: seq<Event>, c: Context, inserts: bool, again: bool, fs: seq<Event>)
    requires ValidRun(EMPTY, es) && c.request !in Exec(EMPTY, es).origins
    requires Extract(c).Some? && |Extract(c).value.json| <= 52428800
    requires var run := es + Insertion(c, Answers(true, true, inserts, again)) + Success(c.request);
             SafeIds(run + fs) && Consume(c.request) !in fs && (ValidRun(EMPTY, run) ==> ValidRun(Exec(EMPTY, run), fs))
    ensures var run := es + Insertion(c, Answers(true, true, inserts, again)) + Success(c.request);
            && ValidRun(EMPTY, run) && ValidRun(EMPTY, run + fs)
            && Fetches(Exec(EMPTY, run + fs), c.request)
            && c.request in Exec(EMPTY, run).origins && Exec(EMPTY, run).origins[c.request] == c
            && (inserts ==> c.request in Exec(EMPTY, run).records && Exec(EMPTY, run).records[c.request] == Marked(c))
  {
    hide ValidRun, Exec, SafeIds, KeyOf, Extract, OrUnknown, Insertion, Fetches, Success, Marked;
    var s, ins := Exec(EMPTY, es), Insertion(c, Answers(true, true, inserts, again));
    InsertionSteps(s, c, Answers(true, true, inserts, again));
    RunAppends(EMPTY, es, ins);
    var s1 := Exec(EMPTY, es + ins);
    MovedStarts(s, c, inserts);
    UploadMakesReady(es + ins, c.request);
    SuccessKeeps(es + ins, c.request);
    StaysFetched(es + ins + Success(c.request), fs, c.request) by { UploadMakesReady(es + ins, c.request); RowIsThere(es + ins + Success(c.request), c.request); }
  }

  lemma RowIsThere(es: seq<Event>, request: string)
    requires ValidRun(EMPTY, es) && Fetches(Exec(EMPTY, es), request)
    ensures request in Exec(EMPTY, es).refs
  {
    hide ValidRun, Exec, KeyOf, Extract, OrUnknown;
  }

  lemma MovedStarts(s: Store, c: Context, inserts: bool)
    requires Extract(c).Some?
    ensures var s' := Moved(Known(s, c), c, inserts);
            && c.request in s'.uploads && s'.uploads[c.request] == Putting
            && c.request in s'.origins && s'.origins[c.request] == c
            && (inserts ==> c.request in s'.records && s'.records[c.request] == Marked(c))
  {
    hide KeyOf, Extract, OrUnknown, Marked;
    InsertRowFrame(Known(s, c), c);
  }

  lemma SuccessKeeps(es: seq<Event>, request: string)
    requires ValidRun(EMPTY, es) && ValidRun(EMPTY, es + Success(request)) && request in Exec(EMPTY, es).origins
    requires request in Exec(EMPTY, es).uploads && Exec(EMPTY, es).uploads[request] == Putting
    ensures var s, s' := Exec(EMPTY, es), Exec(EMPTY, es + Success(request)); s'.origins == s.origins && s'.records == s.records
  {
    hide ValidRun, Exec, KeyOf, Extract, OrUnknown, Inv;
    ReachableAwaited(es);
    UploadFinishes(Exec(EMPTY, es), request);
    RunAppends(EMPTY, es, Success(request));
    TwoSteps(Exec(EMPTY, es), request);
  }

  lemma TwoSteps(s: Store, request: string)
    requires ValidRun(s, Success(request))
    ensures var s' := Exec(s, Success(request)); s'.origins == s.origins && s'.records == s.records
  {
    hide KeyOf, Extract;
    var es := Success(request);
    var s1 := Next(s, es[0]);
    assert es[1..] == [Mark(request, true)] && es[1..][1..] == [];
    assert Exec(s, es) == Exec(Next(s1, Mark(request, true)), []);
  }

  // ---- an upload that fails ----

  /** The row waits for an upload that is over. */
  ghost predicate Abandoned(s: Store, request: string) {
    request in s.refs && s.refs[request].status.Uploading? && request !in s.uploads
  }

  /** A failed upload, a failed mark and a cancelled upload leave the row waiting. */
  lemma FailureAbandons(es: seq<Event>, e: Event)
    requires ValidRun(EMPTY, es) && Possible(Exec(EMPTY, es), e)
    requires e.CancelUpload? || (e.Put? && !e.ok) || (e.Mark? && !e.ok)
    ensures Abandoned(Next(Exec(EMPTY, es), e), e.request)
  {
    hide ValidRun, Exec, Inv, KeyOf, Extract, OrUnknown;
    ReachableAwaited(es);
  }

  lemma StepAbandoned(s: Store, e: Event, request: string)
    requires Inv(s) && Awaited(s) && Possible(s, e) && Abandoned(s, request)
    ensures Abandoned(Next(s, e), request)
  {
    hide Inv, KeyOf, Extract, OrUnknown, Marked, WithExperts, InsertRow, Offloads;
    match e
    case RefInserted(q, _) =>
      assert q != request;
      RowKept(s, s.calls[q].context, request);
      InsertRowFrame(s, s.calls[q].context);
    case Cancel(q, _) =>
      RowKept(s, s.calls[q].context, request);
      InsertRowFrame(s, s.calls[q].context);
    case _ =>
  }

  lemma {:induction false} StaysAbandoned(s: Store, fs: seq<Event>, request: string)
    requires Inv(s) && Awaited(s) && ValidRun(s, fs) && Abandoned(s, request)
    ensures Abandoned(Exec(s, fs), request)
    decreases |fs|
  {
    hide Inv, Awaited, Next, Possible, Abandoned;
    if fs != [] {
      StepKeepsInv(s, fs[0]);
      StepAwaited(s, fs[0]);
      StepAbandoned(s, fs[0], request);
      StaysAbandoned(Next(s, fs[0]), fs[1..], request);
    }
  }

  /** Nothing repeats an upload: once it has failed, a fetch by the own session is told to wait in every later state. */
  lemma FailedUploadNeverReady(es: seq<Event>, e: Event, fs: seq<Event>)
    requires ValidRun(EMPTY, es) && Possible(Exec(EMPTY, es), e)
    requires e.CancelUpload? || (e.Put? && !e.ok) || (e.Mark? && !e.ok)
    requires ValidRun(Next(Exec(EMPTY, es), e), fs)
    ensures var s := Exec(Next(Exec(EMPTY, es), e), fs);
            && e.request in s.origins
            && GetRouteExperts(s, true, OrUnknown(s.origins[e.request].session), e.request) == StillUploading(30)
  {
    hide ValidRun, Exec, Inv, Awaited, Next, Possible, KeyOf, Extract, OrUnknown, RowOf;
    ReachableAwaited(es);
    var s := Exec(EMPTY, es);
    StepKeepsInv(s, e);
    StepAwaited(s, e);
    FailureAbandons(es, e);
    StaysAbandoned(Next(s, e), fs, e.request);
    RunAwaited(Next(s, e), fs);
    RowFacts(Exec(Next(s, e), fs), e.request);
  }

  lemma RowFacts(s: Store, request: string)
    requires Inv(s) && request in s.refs
    ensures request in s.origins && s.refs[request].session == OrUnknown(s.origins[request].session)
  {
    hide CallOk, UploadOk, BlobOk, Intact, KeyOf, Extract, OrUnknown;
    assert RefOk(s, request);
  }

  // ---- an insert that does not offload ----

  /** Without data, when it cannot be serialised, when it is too large, or when its row is refused, an insert that succeeds
      stores the context as it was passed in, and touches no row and no upload. */
  lemma PlainIsStored(s: Store, c: Context, a: Answers)
    requires c.request !in s.origins && a.inserts
    requires Extract(c).None? || !a.serialises || |Extract(c).value.json| > 52428800 || !a.refCommits
    ensures ValidRun(s, Insertion(c, a))
    ensures var s' := Exec(s, Insertion(c, a));
            && c.request in s'.records && s'.records[c.request] == c
            && s'.refs == s.refs && s'.uploads == s.uploads && s'.blobs == s.blobs
  {
    hide ValidRun, Exec, Extract, Insertion, Marked, KeyOf, InsertRow;
    InsertionSteps(s, c, a);
  }
}
