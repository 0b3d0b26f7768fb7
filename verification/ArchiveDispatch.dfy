/** The dispatch loop that hands the sessions of a run to crash-prone workers. Each remote interaction
    (a submission, a wait) is one step, and its outcome is the environment's choice. */
module ArchiveDispatch {

  type Worker = nat

  /** A session id, which may be NULL. */
  datatype Session = Null | Id(name: string)

  datatype Job = Job(idx: nat, session: Session)

  /** A submitted call, in the order of the `active` dictionary. */
  datatype Task = Task(worker: Worker, job: Job)

  const MAX_SESSION_RETRIES := 3

  /** How a finished call turned out: a result, a dead worker (or a result that timed out), or an
      exception of the archiving itself. */
  datatype Outcome = Archived | Died | Broken

  datatype Reply = Accepted | Raised | TimedOut | Completed(k: nat, outcome: Outcome)

  /** Where the loop waits for the environment. `Crashed` stands for an index error. */
  datatype Phase =
    | Filling(i: nat, snapshot: seq<Worker>)
    | Sweeping(i: nat, snapshot: seq<Worker>)
    | Waiting
    | Refilling(worker: Worker)
    | Finished
    | Crashed

  /** What has happened so far; only `rebuilds` is also counted by the program. `gone` holds the sessions
      that were given up, `accepted` the accepted submissions of each session. */
  datatype Ledger = Ledger(
    rebuilds: nat, sinceSuccess: nat, completions: nat, raises: nat, accepts: nat, aborts: nat,
    gone: multiset<Session>, accepted: map<Session, nat>)

  datatype Run = Run(
    phase: Phase, pool: seq<Worker>, nextWorker: Worker,
    pending: seq<Job>, active: seq<Task>, done: seq<Session>, failed: multiset<Session>,
    counts: map<Session, nat>, consecutive: nat, ledger: Ledger)

  function Limit(r: Run): nat {
    3 * |r.pool|
  }

  function Count(m: map<Session, nat>, s: Session): nat {
    if s in m then m[s] else 0
  }

  function Bump(m: map<Session, nat>, s: Session): map<Session, nat> {
    m[s := Count(m, s) + 1]
  }

  function Sids(js: seq<Job>): multiset<Session> {
    if js == [] then multiset{} else multiset{js[0].session} + Sids(js[1..])
  }

  function JobsOf(ts: seq<Task>): seq<Job> {
    if ts == [] then [] else [ts[0].job] + JobsOf(ts[1..])
  }

  function WorkersOf(ts: seq<Task>): multiset<Worker> {
    if ts == [] then multiset{} else multiset{ts[0].worker} + WorkersOf(ts[1..])
  }

  // ---- the moves ----

  /** The head of `pending` goes to worker `w`. */
  function Submit(r: Run, w: Worker): Run
    requires r.pending != []
  {
    var job := r.pending[0];
    r.(pending := r.pending[1..], active := r.active + [Task(w, job)],
       ledger := r.ledger.(accepts := r.ledger.accepts + 1, accepted := Bump(r.ledger.accepted, job.session)))
  }

  /** The head of `pending` goes back to the end. */
  function Requeue(r: Run): Run
    requires r.pending != []
  {
    r.(pending := r.pending[1..] + [r.pending[0]])
  }

  function IndexOf(ws: seq<Worker>, w: Worker): (i: nat)
    ensures i <= |ws|
    ensures i < |ws| ==> ws[i] == w
    ensures i == |ws| <==> w !in ws
  {
    if ws == [] || ws[0] == w then 0 else 1 + IndexOf(ws[1..], w)
  }

  /** `_rebuild_worker_in_list`: a new worker in place of `w`; an unknown `w` is an index error. */
  function Rebuild(r: Run, w: Worker): Run {
    var i := IndexOf(r.pool, w);
    if i == |r.pool| then r.(phase := Crashed)
    else r.(pool := r.pool[i := r.nextWorker], nextWorker := r.nextWorker + 1,
            ledger := r.ledger.(rebuilds := r.ledger.rebuilds + 1, sinceSuccess := r.ledger.sinceSuccess + 1))
  }

  /** A submission raised: one more failure in a row. */
  function CountRaise(r: Run): Run {
    r.(consecutive := r.consecutive + 1, ledger := r.ledger.(raises := r.ledger.raises + 1))
  }

  function CountFailure(r: Run, s: Session): Run {
    r.(counts := Bump(r.counts, s))
  }

  /** The session is recorded as failed and no longer tracked. */
  function GiveUp(r: Run, s: Session): Run {
    r.(failed := r.failed + multiset{s}, ledger := r.ledger.(gone := r.ledger.gone + multiset{s}))
  }

  /** A tracked session that has just failed goes back to `pending`, or is given up. */
  function RetryOrGiveUp(r: Run, job: Job): Run {
    if Count(r.counts, job.session) < MAX_SESSION_RETRIES then r.(pending := r.pending + [job])
    else GiveUp(r, job.session)
  }

  // ---- the end of the loop ----

  /** All of `pending` fails; a session that already failed is not recorded again. */
  function FailPending(r: Run): Run
    decreases |r.pending|
  {
    if r.pending == [] then r
    else
      var s := r.pending[0].session;
      var rest := r.(pending := r.pending[1..]);
      FailPending(if s in r.failed then rest.(ledger := r.ledger.(gone := r.ledger.gone + multiset{s})) else GiveUp(rest, s))
  }

  function Finish(r: Run): Run {
    var r1 := if r.consecutive >= Limit(r) && r.pending != [] then FailPending(r) else r;
    var r2 := if r1.pending != [] && r1.pool == [] then FailPending(r1) else r1;
    r2.(phase := Finished)
  }

  function LoopHead(r: Run): Run {
    if r.phase.Crashed? then r
    else if r.active != [] then r.(phase := Waiting)
    else if r.pending != [] && r.pool != [] && r.consecutive < Limit(r) then r.(phase := Sweeping(0, r.pool))
    else Finish(r)
  }

  // ---- initial fill ----

  function NextFill(r: Run, i: nat, snapshot: seq<Worker>): Run {
    if r.phase.Crashed? then r
    else if i < |snapshot| && r.pending != [] then r.(phase := Filling(i, snapshot))
    else LoopHead(r)
  }

  /** The abort inside the initial fill: everything pending fails. */
  function AbortFill(r: Run): Run
    decreases |r.pending|
  {
    if r.pending == [] then r
    else
      var s := r.pending[0].session;
      AbortFill(GiveUp(CountFailure(r.(pending := r.pending[1..]), s), s))
  }

  function OnFill(r: Run, reply: Reply): Run
    requires r.phase.Filling? && r.phase.i < |r.phase.snapshot| && r.pending != []
  {
    var i, snapshot := r.phase.i, r.phase.snapshot;
    if reply.Accepted? then NextFill(Submit(r, snapshot[i]), i + 1, snapshot)
    else
      var r1 := Requeue(CountRaise(r));
      if r1.consecutive >= Limit(r1) then LoopHead(AbortFill(r1))
      else NextFill(Rebuild(r1, snapshot[i]), i + 1, snapshot)
  }

  // ---- a sweep over the idle workers ----

  function NextSweep(r: Run, i: nat, snapshot: seq<Worker>): Run {
    if r.phase.Crashed? then r
    else if i < |snapshot| && r.pending != [] then r.(phase := Sweeping(i, snapshot))
    else AfterSweep(r)
  }

  predicate Retriable(counts: map<Session, nat>, job: Job) {
    Count(counts, job.session) < MAX_SESSION_RETRIES
  }

  function Retained(counts: map<Session, nat>, js: seq<Job>): seq<Job> {
    if js == [] then []
    else if Retriable(counts, js[0]) then [js[0]] + Retained(counts, js[1..])
    else Retained(counts, js[1..])
  }

  /** The sessions whose count has reached the cap and that are not recorded as failed yet. */
  function Exceeded(r: Run): set<Session> {
    set s | s in r.counts && r.counts[s] >= MAX_SESSION_RETRIES && s !in r.failed
  }

  /** The filter and the bookkeeping after a sweep. */
  function DropExceeded(r: Run): Run {
    var kept := Retained(r.counts, r.pending);
    r.(pending := kept, failed := r.failed + multiset(Exceeded(r)),
       ledger := r.ledger.(gone := r.ledger.gone + (Sids(r.pending) - Sids(kept))))
  }

  function AfterSweep(r: Run): Run {
    if r.consecutive >= Limit(r) then Finish(r) else LoopHead(DropExceeded(r))
  }

  function OnSweep(r: Run, reply: Reply): Run
    requires r.phase.Sweeping? && r.phase.i < |r.phase.snapshot| && r.pending != []
  {
    var i, snapshot := r.phase.i, r.phase.snapshot;
    if reply.Accepted? then NextSweep(Submit(r, snapshot[i]), i + 1, snapshot)
    else
      var s := r.pending[0].session;
      var r1 := Requeue(CountRaise(r));
      if r1.consecutive >= Limit(r1) then AfterSweep(r1.(ledger := r1.ledger.(aborts := r1.ledger.aborts + 1)))
      else NextSweep(CountFailure(Rebuild(r1, snapshot[i]), s), i + 1, snapshot)
  }

  // ---- a finished call ----

  function TasksOn(ts: seq<Task>, w: Worker, same: bool): seq<Task> {
    if ts == [] then []
    else if (ts[0].worker == w) == same then [ts[0]] + TasksOn(ts[1..], w, same)
    else TasksOn(ts[1..], w, same)
  }

  /** The loops over other tasks of the same worker: cancelled and failed, or cancelled and retried. */
  function FailSiblings(r: Run, ts: seq<Task>): Run
    decreases |ts|
  {
    if ts == [] then r else FailSiblings(GiveUp(r, ts[0].job.session), ts[1..])
  }

  function RetrySiblings(r: Run, ts: seq<Task>): Run
    decreases |ts|
  {
    if ts == [] then r else RetrySiblings(RetryOrGiveUp(CountFailure(r, ts[0].job.session), ts[0].job), ts[1..])
  }

  function OnDeath(r: Run, task: Task): Run {
    var s := task.job.session;
    var r1 := CountFailure(r.(consecutive := r.consecutive + 1), s);
    var siblings := TasksOn(r1.active, task.worker, true);
    var others := TasksOn(r1.active, task.worker, false);
    if r1.consecutive >= Limit(r1) then FailSiblings(GiveUp(r1, s).(active := others), siblings)
    else RetrySiblings(RetryOrGiveUp(Rebuild(r1, task.worker), task.job).(active := others), siblings)
  }

  function OnCompleted(r: Run, k: nat, outcome: Outcome): Run
    requires k < |r.active|
  {
    var task := r.active[k];
    var r1 := r.(active := r.active[..k] + r.active[k + 1..], ledger := r.ledger.(completions := r.ledger.completions + 1));
    match outcome
    case Archived =>
      var r2 := r1.(done := r1.done + [task.job.session], consecutive := 0, ledger := r1.ledger.(sinceSuccess := 0));
      if r2.pending != [] then r2.(phase := Refilling(task.worker)) else LoopHead(r2)
    case Died => LoopHead(OnDeath(r1, task))
    case Broken => LoopHead(GiveUp(r1, task.job.session))
  }

  function OnRefill(r: Run, reply: Reply): Run
    requires r.phase.Refilling? && r.pending != []
  {
    var w, job := r.phase.worker, r.pending[0];
    if reply.Accepted? then LoopHead(Submit(r, w))
    else
      var r1 := CountRaise(r).(pending := r.pending[1..]);
      if r1.consecutive >= Limit(r1) then LoopHead(GiveUp(r1, job.session))
      else LoopHead(RetryOrGiveUp(CountFailure(Rebuild(r1, w), job.session), job))
  }

  // ---- runs ----

  /** The replies that can come in this phase. */
  predicate Applies(r: Run, reply: Reply) {
    match r.phase
    case Filling(i, snapshot) => i < |snapshot| && r.pending != [] && (reply.Accepted? || reply.Raised?)
    case Sweeping(i, snapshot) => i < |snapshot| && r.pending != [] && (reply.Accepted? || reply.Raised?)
    case Waiting => reply.TimedOut? || (reply.Completed? && reply.k < |r.active|)
    case Refilling(_) => r.pending != [] && (reply.Accepted? || reply.Raised?)
    case Finished => false
    case Crashed => false
  }

  function Step(r: Run, reply: Reply): Run
    requires Applies(r, reply)
  {
    match r.phase
    case Filling(_, _) => OnFill(r, reply)
    case Sweeping(_, _) => OnSweep(r, reply)
    case Waiting => if reply.TimedOut? then LoopHead(r) else OnCompleted(r, reply.k, reply.outcome)
    case Refilling(_) => OnRefill(r, reply)
  }

  function Enumerate(sessions: seq<Session>): seq<Job> {
    seq(|sessions|, i requires 0 <= i < |sessions| => Job(i, sessions[i]))
  }

  function Initial(workers: seq<Worker>, nextWorker: Worker, sessions: seq<Session>): Run {
    Run(Waiting, workers, nextWorker, Enumerate(sessions), [], [], multiset{}, map[], 0, Ledger(0, 0, 0, 0, 0, 0, multiset{}, map[]))
  }

  function Start(workers: seq<Worker>, nextWorker: Worker, sessions: seq<Session>): Run {
    NextFill(Initial(workers, nextWorker, sessions), 0, workers)
  }

  ghost predicate ValidRun(r: Run, env: seq<Reply>)
    decreases |env|
  {
    env == [] || (Applies(r, env[0]) && ValidRun(Step(r, env[0]), env[1..]))
  }

  function Exec(r: Run, env: seq<Reply>): Run
    requires ValidRun(r, env)
    decreases |env|
  {
    if env == [] then r else Exec(Step(r, env[0]), env[1..])
  }

  // ---- what every run keeps ----

  /** The pool keeps its size, its workers are distinct, and a busy worker is in it, with one task. */
  ghost predicate Pool(pool: seq<Worker>, nextWorker: Worker, busy: multiset<Worker>, size: nat) {
    && |pool| == size
    && (forall i, j | 0 <= i < j < |pool| :: pool[i] != pool[j])
    && (forall i | 0 <= i < |pool| :: pool[i] < nextWorker)
    && (forall w | w in busy :: w in pool && busy[w] == 1)
  }

  ghost predicate PoolOk(r: Run, size: nat) {
    Pool(r.pool, r.nextWorker, WorkersOf(r.active), size)
  }

  /** Every session of the run is in one place: pending, active, done or given up. */
  ghost predicate Books(
    pending: multiset<Session>, active: multiset<Session>, done: multiset<Session>, gone: multiset<Session>,
    failed: multiset<Session>, counts: map<Session, nat>, all: multiset<Session>)
  {
    && all == pending + active + done + gone
    && (forall s :: all[s] <= 1)
    && gone <= failed
    && (forall s | s in pending :: s !in failed)
    && (forall s | s in active && s in failed :: Count(counts, s) >= MAX_SESSION_RETRIES)
  }

  ghost predicate BooksOk(r: Run, all: multiset<Session>) {
    Books(Sids(r.pending), Sids(JobsOf(r.active)), multiset(r.done), r.ledger.gone, r.failed, r.counts, all)
  }

  /** No session is accepted by a worker more often than the retry cap. */
  ghost predicate Retries(pending: multiset<Session>, active: multiset<Session>, accepted: map<Session, nat>, counts: map<Session, nat>) {
    && (forall s :: Count(accepted, s) <= MAX_SESSION_RETRIES)
    && (forall s | s in pending :: Count(accepted, s) < MAX_SESSION_RETRIES && Count(accepted, s) <= Count(counts, s))
    && (forall s | s in active :: Count(accepted, s) <= Count(counts, s) + 1)
  }

  ghost predicate RetriesOk(r: Run) {
    Retries(Sids(r.pending), Sids(JobsOf(r.active)), r.ledger.accepted, r.counts)
  }

  /** Outside a sweep every pending session may still be retried. */
  ghost predicate AllRetriable(pending: multiset<Session>, counts: map<Session, nat>) {
    forall s | s in pending :: Count(counts, s) < MAX_SESSION_RETRIES
  }

  ghost predicate Fresh(r: Run) {
    AllRetriable(Sids(r.pending), r.counts)
  }

  /** The rebuilds allowed in a row without a success. */
  function Cap(size: nat): nat {
    if size == 0 then 0 else 3 * size - 1
  }

  ghost predicate LedgerOk(r: Run, size: nat) {
    && r.ledger.sinceSuccess <= r.consecutive && r.ledger.sinceSuccess <= Cap(size)
    && r.ledger.rebuilds <= |r.done| * Cap(size) + r.ledger.sinceSuccess
    && r.ledger.completions + r.ledger.raises <= |r.done| + |r.ledger.gone| + r.ledger.rebuilds + r.ledger.aborts
    && r.ledger.accepts == r.ledger.completions + |r.active|
  }

  ghost predicate Core(r: Run, size: nat, all: multiset<Session>) {
    PoolOk(r, size) && BooksOk(r, all) && RetriesOk(r) && LedgerOk(r, size) && !r.phase.Crashed?
  }

  /** The workers from number `i` of the snapshot on are still in their place and idle. */
  ghost predicate IdleFrom(r: Run, i: nat, snapshot: seq<Worker>) {
    && |snapshot| == |r.pool|
    && forall j | i <= j < |snapshot| :: r.pool[j] == snapshot[j] && snapshot[j] !in WorkersOf(r.active)
  }

  ghost predicate PhaseOk(r: Run) {
    match r.phase
    case Filling(i, snapshot) => i < |snapshot| && r.pending != [] && IdleFrom(r, i, snapshot) && r.consecutive <= i && Fresh(r)
    case Sweeping(i, snapshot) =>
      && i < |snapshot| && r.pending != [] && IdleFrom(r, i, snapshot) && r.consecutive < Limit(r)
      && |r.active| <= i && (i == 0 ==> Fresh(r))
    case Waiting => r.active != [] && Fresh(r)
    case Refilling(w) => r.pending != [] && w in r.pool && w !in WorkersOf(r.active) && r.consecutive == 0 && Fresh(r)
    case Finished => r.pending == []
    case Crashed => false
  }

  ghost predicate Inv(r: Run, size: nat, all: multiset<Session>) {
    Core(r, size, all) && PhaseOk(r) && r.ledger.aborts <= (if r.phase.Finished? then 1 else 0)
  }

  // ---- counting lemmas ----

  lemma {:induction false} SidsAppend(a: seq<Job>, b: seq<Job>)
    ensures Sids(a + b) == Sids(a) + Sids(b)
  {
    if a == [] {
      assert a + b == b;
    } else {
      assert (a + b)[1..] == a[1..] + b;
      SidsAppend(a[1..], b);
    }
  }

  lemma {:induction false} TasksAppend(a: seq<Task>, b: seq<Task>)
    ensures JobsOf(a + b) == JobsOf(a) + JobsOf(b)
    ensures WorkersOf(a + b) == WorkersOf(a) + WorkersOf(b)
  {
    if a == [] {
      assert a + b == b;
    } else {
      assert (a + b)[1..] == a[1..] + b;
      TasksAppend(a[1..], b);
    }
  }

  lemma One(job: Job, t: Task)
    ensures Sids([job]) == multiset{job.session} && Sids([]) == multiset{}
    ensures JobsOf([t]) == [t.job] && WorkersOf([t]) == multiset{t.worker}
  {
    assert [job][1..] == [] && [t][1..] == [];
  }

  lemma HeadIsPending(r: Run)
    requires r.pending != []
    ensures Sids(r.pending) == multiset{r.pending[0].session} + Sids(r.pending[1..])
    ensures Sids(Requeue(r).pending) == Sids(r.pending)
  {
    SidsAppend(r.pending[1..], [r.pending[0]]);
    One(r.pending[0], Task(0, r.pending[0]));
  }

  lemma SubmitCounts(r: Run, w: Worker)
    requires r.pending != []
    ensures var r' := Submit(r, w); var s := r.pending[0].session;
            && Sids(r.pending) == multiset{s} + Sids(r'.pending)
            && Sids(JobsOf(r'.active)) == Sids(JobsOf(r.active)) + multiset{s}
            && WorkersOf(r'.active) == WorkersOf(r.active) + multiset{w}
  {
    var job := r.pending[0];
    HeadIsPending(r);
    TasksAppend(r.active, [Task(w, job)]);
    One(job, Task(w, job));
    SidsAppend(JobsOf(r.active), [job]);
  }

  lemma SubmitKeeps(r: Run, w: Worker, size: nat, all: multiset<Session>)
    requires Core(r, size, all) && r.pending != [] && w in r.pool && w !in WorkersOf(r.active)
    ensures Core(Submit(r, w), size, all)
    ensures Fresh(r) ==> Fresh(Submit(r, w))
  {
    hide Sids, JobsOf, WorkersOf, Books, Retries, Pool, Count, Bump;
    SubmitCounts(r, w);
    var r', s := Submit(r, w), r.pending[0].session;
    BooksSubmit(Sids(r'.pending), s, Sids(JobsOf(r.active)), multiset(r.done), r.ledger.gone, r.failed, r.counts, all);
    RetriesSubmit(Sids(r'.pending), s, Sids(JobsOf(r.active)), r.ledger.accepted, r.counts);
    PoolSubmit(r.pool, r.nextWorker, WorkersOf(r.active), size, w);
    assert forall x | x in Sids(r'.pending) :: x in Sids(r.pending);
  }

  lemma Bumped(m: map<Session, nat>, s: Session)
    ensures forall x :: Count(Bump(m, s), x) == Count(m, x) + (if x == s then 1 else 0)
  {}

  lemma BooksSubmit(p: multiset<Session>, s: Session, a: multiset<Session>, d: multiset<Session>, g: multiset<Session>,
                    f: multiset<Session>, counts: map<Session, nat>, all: multiset<Session>)
    requires Books(multiset{s} + p, a, d, g, f, counts, all)
    ensures Books(p, a + multiset{s}, d, g, f, counts, all)
    ensures s !in p && s !in a
  {
    assert all[s] == 1 + p[s] + a[s] + d[s] + g[s];
    assert s in multiset{s} + p;
  }

  lemma RetriesSubmit(p: multiset<Session>, s: Session, a: multiset<Session>, accepted: map<Session, nat>, counts: map<Session, nat>)
    requires Retries(multiset{s} + p, a, accepted, counts) && s !in p && s !in a
    ensures Retries(p, a + multiset{s}, Bump(accepted, s), counts)
  {
    Bumped(accepted, s);
    assert s in multiset{s} + p;
    assert forall x | x in p :: x in multiset{s} + p;
  }

  lemma PoolSubmit(pool: seq<Worker>, nextWorker: Worker, busy: multiset<Worker>, size: nat, w: Worker)
    requires Pool(pool, nextWorker, busy, size) && w in pool && w !in busy
    ensures Pool(pool, nextWorker, busy + multiset{w}, size)
  {}

  lemma IdleAfterSubmit(r: Run, i: nat, snapshot: seq<Worker>, size: nat, all: multiset<Session>)
    requires Core(r, size, all) && r.pending != [] && i < |snapshot| && IdleFrom(r, i, snapshot)
    ensures IdleFrom(Submit(r, snapshot[i]), i + 1, snapshot)
  {
    hide Sids, JobsOf, WorkersOf, BooksOk, RetriesOk, LedgerOk;
    SubmitCounts(r, snapshot[i]);
    forall j | i + 1 <= j < |snapshot| ensures snapshot[j] !in WorkersOf(Submit(r, snapshot[i]).active) {
      assert r.pool[j] != r.pool[i];
    }
  }

  // ---- moves of one session between the places ----

  /** One session out of `active` or `pending`: it is nowhere else. */
  lemma BooksOut(p: multiset<Session>, a: multiset<Session>, s: Session, d: multiset<Session>, g: multiset<Session>,
                 f: multiset<Session>, counts: map<Session, nat>, all: multiset<Session>)
    requires Books(p, a + multiset{s}, d, g, f, counts, all) || Books(multiset{s} + p, a, d, g, f, counts, all)
    ensures s !in p && s !in a && s !in d && s !in g
    ensures Books(p, a, d, g + multiset{s}, f + multiset{s}, counts, all)
    ensures g <= f && (s !in f || Count(counts, s) >= MAX_SESSION_RETRIES)
  {
    assert all[s] == 1 + p[s] + a[s] + d[s] + g[s];
    assert s in a + multiset{s} && s in multiset{s} + p;
    assert forall x | x in p :: x in multiset{s} + p;
    assert forall x | x in a :: x in a + multiset{s};
  }

  /** A session that has just failed once more is retried or given up. */
  lemma BooksRetry(p: multiset<Session>, a: multiset<Session>, s: Session, d: multiset<Session>, g: multiset<Session>,
                   f: multiset<Session>, counts: map<Session, nat>, all: multiset<Session>)
    requires Books(p, a + multiset{s}, d, g, f, counts, all) || Books(multiset{s} + p, a, d, g, f, counts, all)
    ensures var counts' := Bump(counts, s);
            if Count(counts', s) < MAX_SESSION_RETRIES then Books(p + multiset{s}, a, d, g, f, counts', all)
            else Books(p, a, d, g + multiset{s}, f + multiset{s}, counts', all)
    ensures s !in p && s !in a
  {
    hide Books, Bump, Count;
    Bumped(counts, s);
    BooksOut(p, a, s, d, g, f, counts, all);
    if Count(Bump(counts, s), s) < MAX_SESSION_RETRIES {
      BooksBack(p, a, s, d, g, f, counts, all);
    } else {
      BooksBump(p, a, d, g + multiset{s}, f + multiset{s}, counts, all, s);
    }
  }

  lemma BooksBack(p: multiset<Session>, a: multiset<Session>, s: Session, d: multiset<Session>, g: multiset<Session>,
                  f: multiset<Session>, counts: map<Session, nat>, all: multiset<Session>)
    requires Books(p, a, d, g + multiset{s}, f + multiset{s}, counts, all) && s !in f && s !in p && g <= f
    ensures Books(p + multiset{s}, a, d, g, f, Bump(counts, s), all)
  {
    hide Bump, Count;
    Bumped(counts, s);
    assert all[s] == 1 + p[s] + a[s] + d[s] + g[s];
    assert forall x | x in p :: x !in f + multiset{s};
    assert forall x | x in a && x in f :: x in f + multiset{s};
  }

  lemma BooksFail(p: multiset<Session>, a: multiset<Session>, s: Session, d: multiset<Session>, g: multiset<Session>,
                  f: multiset<Session>, counts: map<Session, nat>, all: multiset<Session>)
    requires Books(p, a + multiset{s}, d, g, f, counts, all) || Books(multiset{s} + p, a, d, g, f, counts, all)
    ensures Books(p, a, d, g + multiset{s}, f + multiset{s}, counts, all)
    ensures s !in p && s !in a
  {
    assert all[s] == 1 + p[s] + a[s] + d[s] + g[s];
    assert forall x | x in p :: x in multiset{s} + p;
    assert forall x | x in a :: x in a + multiset{s};
  }

  lemma BooksDone(p: multiset<Session>, a: multiset<Session>, s: Session, d: multiset<Session>, g: multiset<Session>,
                  f: multiset<Session>, counts: map<Session, nat>, all: multiset<Session>)
    requires Books(p, a + multiset{s}, d, g, f, counts, all)
    ensures Books(p, a, d + multiset{s}, g, f, counts, all)
  {
    assert forall x | x in a :: x in a + multiset{s};
  }

  lemma BooksBump(p: multiset<Session>, a: multiset<Session>, d: multiset<Session>, g: multiset<Session>,
                  f: multiset<Session>, counts: map<Session, nat>, all: multiset<Session>, s: Session)
    requires Books(p, a, d, g, f, counts, all)
    ensures Books(p, a, d, g, f, Bump(counts, s), all)
  {
    Bumped(counts, s);
  }

  lemma RetriesRetry(p: multiset<Session>, a: multiset<Session>, s: Session, accepted: map<Session, nat>, counts: map<Session, nat>)
    requires Retries(p, a + multiset{s}, accepted, counts) || Retries(multiset{s} + p, a, accepted, counts)
    ensures var counts' := Bump(counts, s);
            && (Count(counts', s) < MAX_SESSION_RETRIES ==> Retries(p + multiset{s}, a, accepted, counts'))
            && Retries(p, a, accepted, counts')
  {
    Bumped(counts, s);
    assert s in a + multiset{s} && s in multiset{s} + p;
    assert forall x | x in p :: x in multiset{s} + p;
    assert forall x | x in a :: x in a + multiset{s};
  }

  lemma RetriesLess(p: multiset<Session>, a: multiset<Session>, s: Session, accepted: map<Session, nat>, counts: map<Session, nat>)
    requires Retries(p, a + multiset{s}, accepted, counts) || Retries(multiset{s} + p, a, accepted, counts)
    ensures Retries(p, a, accepted, counts)
  {
    assert forall x | x in p :: x in multiset{s} + p;
    assert forall x | x in a :: x in a + multiset{s};
  }

  lemma RetriesBump(p: multiset<Session>, a: multiset<Session>, accepted: map<Session, nat>, counts: map<Session, nat>, s: Session)
    requires Retries(p, a, accepted, counts)
    ensures Retries(p, a, accepted, Bump(counts, s))
  {
    Bumped(counts, s);
  }

  lemma FreshRetry(p: multiset<Session>, s: Session, counts: map<Session, nat>)
    requires AllRetriable(p, counts) && s !in p
    ensures var counts' := Bump(counts, s);
            AllRetriable(p, counts') && (Count(counts', s) < MAX_SESSION_RETRIES ==> AllRetriable(p + multiset{s}, counts'))
  {
    Bumped(counts, s);
  }

  // ---- rebuilding ----

  lemma PoolRebuild(pool: seq<Worker>, nextWorker: Worker, busy: multiset<Worker>, size: nat, w: Worker)
    requires Pool(pool, nextWorker, busy, size) && w in pool && w !in busy
    ensures IndexOf(pool, w) < |pool|
    ensures Pool(pool[IndexOf(pool, w) := nextWorker], nextWorker + 1, busy, size)
    ensures forall j | 0 <= j < |pool| && pool[j] != w :: pool[IndexOf(pool, w) := nextWorker][j] == pool[j]
  {
    var i := IndexOf(pool, w);
    var pool' := pool[i := nextWorker];
    forall v | v in busy ensures v in pool' {
      var j :| 0 <= j < |pool| && pool[j] == v;
      assert pool'[j] == v;
    }
  }

  // ---- the end of the loop ----

  /** Nothing else counts as failed than what was given up, and a session at the cap is failed or waits to be. */
  ghost predicate Exact(r: Run) {
    r.failed == r.ledger.gone && forall s | Count(r.counts, s) >= MAX_SESSION_RETRIES :: s in r.failed || s in Sids(r.pending)
  }

  lemma FailHead(r: Run, size: nat, all: multiset<Session>)
    requires Core(r, size, all) && r.pending != []
    ensures var s := r.pending[0].session; var r' := GiveUp(r.(pending := r.pending[1..]), s);
            s !in r.failed && Core(r', size, all) && (Exact(r) ==> Exact(r'))
  {
    hide Sids, JobsOf, WorkersOf, Books, Retries, Pool, Count;
    var s := r.pending[0].session;
    HeadIsPending(r);
    var p, a := Sids(r.pending[1..]), Sids(JobsOf(r.active));
    assert s !in r.failed by { PendingNotFailed(r, all); assert s in Sids(r.pending); }
    BooksFail(p, a, s, multiset(r.done), r.ledger.gone, r.failed, r.counts, all);
    RetriesLess(p, a, s, r.ledger.accepted, r.counts);
    assert forall x | x in Sids(r.pending) :: x == s || x in p;
  }

  lemma PendingNotFailed(r: Run, all: multiset<Session>)
    requires BooksOk(r, all)
    ensures forall s | s in Sids(r.pending) :: s !in r.failed
  {}

  lemma {:induction false} FailPendingKeeps(r: Run, size: nat, all: multiset<Session>)
    requires Core(r, size, all)
    ensures var r' := FailPending(r);
            && Core(r', size, all) && r'.pending == [] && r'.active == r.active && r'.phase == r.phase
            && r'.ledger.aborts == r.ledger.aborts && (Exact(r) ==> Exact(r'))
    decreases |r.pending|
  {
    if r.pending != [] {
      FailHead(r, size, all);
      hide Core, Exact;
      FailPendingKeeps(GiveUp(r.(pending := r.pending[1..]), r.pending[0].session), size, all);
    }
  }

  lemma FinishKeeps(r: Run, size: nat, all: multiset<Session>)
    requires Core(r, size, all) && (r.pending == [] || r.pool == [] || r.consecutive >= Limit(r)) && r.ledger.aborts <= 1
    ensures var r' := Finish(r);
            Inv(r', size, all) && r'.phase == Finished && r'.active == r.active && (Exact(r) ==> Exact(r'))
  {
    hide Books, Retries, Pool, Sids, JobsOf, WorkersOf, Count, FailPending;
    FailPendingKeeps(r, size, all);
  }

  lemma LoopHeadKeeps(r: Run, size: nat, all: multiset<Session>)
    requires Core(r, size, all) && Fresh(r) && r.ledger.aborts == 0
    ensures var r' := LoopHead(r);
            Inv(r', size, all) && (Exact(r) ==> Exact(r')) && (r'.phase.Sweeping? ==> Fresh(r')) && (r'.phase.Finished? ==> r'.active == [])
  {
    hide Books, Retries, Pool, Sids, JobsOf, Count, Finish, AllRetriable;
    if r.active == [] && !(r.pending != [] && r.pool != [] && r.consecutive < Limit(r)) { FinishKeeps(r, size, all); }
  }

  // ---- the filter after a sweep ----

  lemma {:induction false} RetainedCounts(counts: map<Session, nat>, js: seq<Job>)
    ensures forall s :: Sids(Retained(counts, js))[s] == (if Count(counts, s) < MAX_SESSION_RETRIES then Sids(js)[s] else 0)
  {
    hide Count;
    if js != [] {
      RetainedCounts(counts, js[1..]);
      var rest := Retained(counts, js[1..]);
      assert ([js[0]] + rest)[1..] == rest;
    }
  }

  lemma BooksDrop(p: multiset<Session>, kept: multiset<Session>, a: multiset<Session>, d: multiset<Session>, g: multiset<Session>,
                  f: multiset<Session>, counts: map<Session, nat>, all: multiset<Session>, exceeded: set<Session>)
    requires Books(p, a, d, g, f, counts, all)
    requires forall s :: kept[s] == (if Count(counts, s) < MAX_SESSION_RETRIES then p[s] else 0)
    requires forall s :: s in exceeded <==> Count(counts, s) >= MAX_SESSION_RETRIES && s !in f
    ensures Books(kept, a, d, g + (p - kept), f + multiset(exceeded), counts, all)
    ensures AllRetriable(kept, counts)
    ensures f == g && (forall s | Count(counts, s) >= MAX_SESSION_RETRIES :: s in f || s in p) ==>
              f + multiset(exceeded) == g + (p - kept)
  {
    var removed := p - kept;
    assert forall s :: p[s] <= 1 by { assert forall s :: all[s] == p[s] + a[s] + d[s] + g[s]; }
    assert kept + removed == p;
    assert forall s | s in kept :: s in p;
    assert forall s :: removed[s] <= multiset(exceeded)[s] by {
      forall s ensures removed[s] <= multiset(exceeded)[s] { assert s in removed ==> s in p; }
    }
    if f == g && forall s | Count(counts, s) >= MAX_SESSION_RETRIES :: s in f || s in p {
      forall s ensures multiset(exceeded)[s] == removed[s] { assert s in exceeded ==> s in p; }
    }
  }

  lemma RetriesKept(p: multiset<Session>, kept: multiset<Session>, a: multiset<Session>, accepted: map<Session, nat>, counts: map<Session, nat>)
    requires Retries(p, a, accepted, counts) && forall s :: kept[s] <= p[s]
    ensures Retries(kept, a, accepted, counts)
  {
    assert forall s | s in kept :: s in p;
  }

  lemma DropExact(r: Run, all: multiset<Session>)
    requires BooksOk(r, all) && Exact(r)
    ensures Exact(DropExceeded(r))
  {
    RetainedCounts(r.counts, r.pending);
    var p, kept := Sids(r.pending), Sids(Retained(r.counts, r.pending));
    assert forall s :: s in Exceeded(r) <==> Count(r.counts, s) >= MAX_SESSION_RETRIES && s !in r.failed;
    hide Sids, JobsOf, Books, Count, AllRetriable, Exceeded;
    BooksDrop(p, kept, Sids(JobsOf(r.active)), multiset(r.done), r.ledger.gone, r.failed, r.counts, all, Exceeded(r));
    forall s | Count(r.counts, s) >= MAX_SESSION_RETRIES ensures s in DropExceeded(r).failed {
      assert s !in r.failed ==> s in Exceeded(r);
    }
  }

  lemma DropBooks(r: Run, all: multiset<Session>)
    requires BooksOk(r, all) && RetriesOk(r)
    ensures var r' := DropExceeded(r); BooksOk(r', all) && RetriesOk(r') && Fresh(r')
  {
    RetainedCounts(r.counts, r.pending);
    var p, kept, a := Sids(r.pending), Sids(Retained(r.counts, r.pending)), Sids(JobsOf(r.active));
    assert forall s :: s in Exceeded(r) <==> Count(r.counts, s) >= MAX_SESSION_RETRIES && s !in r.failed;
    hide Sids, JobsOf, Books, Retries, Count, AllRetriable, Exceeded;
    BooksDrop(p, kept, a, multiset(r.done), r.ledger.gone, r.failed, r.counts, all, Exceeded(r));
    RetriesKept(p, kept, a, r.ledger.accepted, r.counts);
  }

  lemma DropKeeps(r: Run, size: nat, all: multiset<Session>)
    requires Core(r, size, all)
    ensures var r' := DropExceeded(r);
            && Core(r', size, all) && Fresh(r') && r'.active == r.active && r'.phase == r.phase
            && r'.ledger.aborts == r.ledger.aborts && (Exact(r) ==> Exact(r'))
  {
    hide BooksOk, RetriesOk, Exact, Fresh, Exceeded, Retained, Sids;
    if Exact(r) { DropExact(r, all); }
    DropBooks(r, all);
    assert |r.ledger.gone| <= |DropExceeded(r).ledger.gone|;
  }

  lemma AfterSweepKeeps(r: Run, size: nat, all: multiset<Session>)
    requires Core(r, size, all) && r.ledger.aborts <= (if r.consecutive >= Limit(r) then 1 else 0)
    ensures var r' := AfterSweep(r);
            && Inv(r', size, all) && (Exact(r) ==> Exact(r')) && (r'.phase.Sweeping? ==> Fresh(r'))
            && (r'.phase.Finished? ==> r'.active == [] || (r'.active == r.active && r.consecutive >= Limit(r)))
  {
    hide Core, Fresh, LoopHead, Finish, DropExceeded, Exact, PhaseOk;
    if r.consecutive >= Limit(r) {
      FinishKeeps(r, size, all);
    } else {
      DropKeeps(r, size, all);
      LoopHeadKeeps(DropExceeded(r), size, all);
    }
  }

  // ---- submissions ----

  /** What the loop hands on: the strict part holds as long as no call is accepted for a session at the cap. */
  ghost predicate Strict(r: Run) {
    && Exact(r) && (r.phase.Sweeping? ==> Fresh(r)) && (r.phase.Finished? ==> r.active == [])
  }

  /** A submission raised, the worker is replaced and the session goes to the end of the queue. */
  function RaiseAndRebuild(r: Run, w: Worker): Run
    requires r.pending != []
  {
    Rebuild(Requeue(CountRaise(r)), w)
  }

  lemma RaiseAndRebuildKeeps(r: Run, w: Worker, size: nat, all: multiset<Session>)
    requires Core(r, size, all) && r.pending != [] && w in r.pool && w !in WorkersOf(r.active) && r.consecutive + 1 < Limit(r)
    ensures var r' := RaiseAndRebuild(r, w);
            && Core(r', size, all) && Sids(r'.pending) == Sids(r.pending) && r'.pending != []
            && r'.active == r.active && r'.consecutive == r.consecutive + 1 && r'.phase == r.phase
            && r'.counts == r.counts && r'.failed == r.failed && r'.ledger.gone == r.ledger.gone && r'.ledger.aborts == r.ledger.aborts
            && |r'.pool| == |r.pool| && forall j | 0 <= j < |r.pool| && r.pool[j] != w :: r'.pool[j] == r.pool[j]
  {
    hide Sids, JobsOf, WorkersOf, Books, Retries, Pool, Count, IndexOf;
    assert |r.pool| == size by { PoolSize(r, size); }
    PoolRebuild(r.pool, r.nextWorker, WorkersOf(r.active), size, w);
    HeadIsPending(CountRaise(r));
  }

  lemma PoolSize(r: Run, size: nat)
    requires PoolOk(r, size)
    ensures |r.pool| == size
    ensures forall i, j | 0 <= i < j < |r.pool| :: r.pool[i] != r.pool[j]
  {}

  lemma CountFailureKeeps(r: Run, s: Session, size: nat, all: multiset<Session>)
    requires Core(r, size, all) && s in Sids(r.pending)
    ensures Core(CountFailure(r, s), size, all)
    ensures Exact(r) ==> Exact(CountFailure(r, s))
  {
    Bumped(r.counts, s);
    hide Sids, JobsOf, WorkersOf, Books, Retries, Pool, Count, Bump;
    BooksBump(Sids(r.pending), Sids(JobsOf(r.active)), multiset(r.done), r.ledger.gone, r.failed, r.counts, all, s);
    RetriesBump(Sids(r.pending), Sids(JobsOf(r.active)), r.ledger.accepted, r.counts, s);
  }

  lemma NextFillKeeps(r: Run, i: nat, snapshot: seq<Worker>, size: nat, all: multiset<Session>)
    requires Core(r, size, all) && Fresh(r) && IdleFrom(r, i, snapshot) && r.consecutive <= i <= |snapshot| && r.ledger.aborts == 0
    ensures var r' := NextFill(r, i, snapshot); Inv(r', size, all) && (Exact(r) ==> Strict(r'))
  {
    hide Books, Retries, Pool, Sids, JobsOf, Count, LoopHead, AllRetriable, WorkersOf;
    LoopHeadKeeps(r, size, all);
  }

  lemma NextSweepKeeps(r: Run, i: nat, snapshot: seq<Worker>, size: nat, all: multiset<Session>)
    requires Core(r, size, all) && IdleFrom(r, i, snapshot) && |r.active| <= i && 0 < i <= |snapshot|
    requires r.consecutive < Limit(r) && r.ledger.aborts == 0
    ensures var r' := NextSweep(r, i, snapshot);
            Inv(r', size, all) && (Exact(r) && (Fresh(r) || size <= 1) ==> Strict(r'))
  {
    hide Books, Retries, Sids, JobsOf, Count, AfterSweep, AllRetriable, WorkersOf;
    AfterSweepKeeps(r, size, all);
  }

  /** The next worker of the snapshot is idle; once it is busy or replaced, the ones behind it still are. */
  lemma IdleHead(r: Run, i: nat, snapshot: seq<Worker>)
    requires IdleFrom(r, i, snapshot) && i < |snapshot|
    ensures snapshot[i] in r.pool && snapshot[i] !in WorkersOf(r.active)
  {
    assert snapshot[i] == r.pool[i];
  }

  lemma IdleAfterRebuild(r: Run, r': Run, i: nat, snapshot: seq<Worker>, size: nat)
    requires PoolOk(r, size) && IdleFrom(r, i, snapshot) && i < |snapshot|
    requires r'.active == r.active && |r'.pool| == |r.pool|
    requires forall j | 0 <= j < |r.pool| && r.pool[j] != snapshot[i] :: r'.pool[j] == r.pool[j]
    ensures IdleFrom(r', i + 1, snapshot)
  {
    hide WorkersOf;
    forall j | i + 1 <= j < |snapshot| ensures r'.pool[j] == snapshot[j] && snapshot[j] !in WorkersOf(r'.active) {
      assert r.pool[j] != r.pool[i];
    }
  }

  lemma FillAccepted(r: Run, i: nat, snapshot: seq<Worker>, size: nat, all: multiset<Session>)
    requires Core(r, size, all) && Fresh(r) && r.pending != [] && i < |snapshot| && IdleFrom(r, i, snapshot)
    requires r.consecutive <= i && r.ledger.aborts == 0
    ensures var r' := NextFill(Submit(r, snapshot[i]), i + 1, snapshot); Inv(r', size, all) && (Exact(r) ==> Strict(r'))
  {
    hide Exact, Fresh, Core, IdleFrom, NextFill, Inv, Strict, WorkersOf;
    IdleHead(r, i, snapshot);
    SubmitKeeps(r, snapshot[i], size, all);
    IdleAfterSubmit(r, i, snapshot, size, all);
    if Exact(r) { ExactSubmit(r, snapshot[i]); }
    NextFillKeeps(Submit(r, snapshot[i]), i + 1, snapshot, size, all);
  }

  lemma FillRaised(r: Run, i: nat, snapshot: seq<Worker>, size: nat, all: multiset<Session>)
    requires Core(r, size, all) && Fresh(r) && r.pending != [] && i < |snapshot| && IdleFrom(r, i, snapshot)
    requires r.consecutive <= i && r.ledger.aborts == 0
    ensures r.consecutive + 1 < Limit(r)
    ensures var r' := NextFill(RaiseAndRebuild(r, snapshot[i]), i + 1, snapshot); Inv(r', size, all) && (Exact(r) ==> Strict(r'))
  {
    hide Sids, JobsOf, WorkersOf, BooksOk, RetriesOk, LedgerOk, NextFill, Strict, Rebuild;
    IdleHead(r, i, snapshot);
    RaiseAndRebuildKeeps(r, snapshot[i], size, all);
    var r' := RaiseAndRebuild(r, snapshot[i]);
    IdleAfterRebuild(r, r', i, snapshot, size);
    hide Core, IdleFrom, Inv;
    NextFillKeeps(r', i + 1, snapshot, size, all);
  }

  lemma FillingFacts(r: Run, size: nat, all: multiset<Session>)
    requires Inv(r, size, all) && r.phase.Filling?
    ensures Core(r, size, all) && Fresh(r) && IdleFrom(r, r.phase.i, r.phase.snapshot)
    ensures r.pending != [] && r.phase.i < |r.phase.snapshot| && r.consecutive <= r.phase.i && r.ledger.aborts == 0
    ensures Strict(r) ==> Exact(r)
  {}

  /** The first fill refuses at most once per worker, so its abort branch is never reached. */
  lemma FillNeverAborts(r: Run, size: nat, all: multiset<Session>)
    requires Inv(r, size, all) && r.phase.Filling?
    ensures CountRaise(r).consecutive < Limit(CountRaise(r))
  {
    hide Core, Fresh, Exact, Strict;
    FillingFacts(r, size, all);
  }

  lemma OnFillKeeps(r: Run, reply: Reply, size: nat, all: multiset<Session>)
    requires Inv(r, size, all) && r.phase.Filling? && Applies(r, reply)
    ensures Inv(OnFill(r, reply), size, all) && (Strict(r) ==> Strict(OnFill(r, reply)))
  {
    hide Core, PhaseOk, Strict, Fresh, Exact, IdleFrom, Inv, NextFill, AbortFill, LoopHead, Rebuild;
    FillingFacts(r, size, all);
    if reply.Accepted? {
      FillAccepted(r, r.phase.i, r.phase.snapshot, size, all);
    } else {
      FillRaised(r, r.phase.i, r.phase.snapshot, size, all);
    }
  }

  lemma ExactSubmit(r: Run, w: Worker)
    requires Exact(r) && Fresh(r) && r.pending != []
    ensures Exact(Submit(r, w))
  {
    hide Sids, JobsOf, WorkersOf, Count;
    SubmitCounts(r, w);
    assert r.pending[0].session in Sids(r.pending);
  }

  lemma SweepAccepted(r: Run, i: nat, snapshot: seq<Worker>, size: nat, all: multiset<Session>)
    requires Core(r, size, all) && r.pending != [] && i < |snapshot| && IdleFrom(r, i, snapshot)
    requires |r.active| <= i && r.consecutive < Limit(r) && r.ledger.aborts == 0
    ensures var r' := NextSweep(Submit(r, snapshot[i]), i + 1, snapshot);
            Inv(r', size, all) && (Exact(r) && Fresh(r) ==> Strict(r'))
  {
    hide Exact, Fresh, Core, IdleFrom, NextSweep, Inv, Strict, WorkersOf;
    IdleHead(r, i, snapshot);
    SubmitKeeps(r, snapshot[i], size, all);
    IdleAfterSubmit(r, i, snapshot, size, all);
    if Exact(r) && Fresh(r) { ExactSubmit(r, snapshot[i]); }
    NextSweepKeeps(Submit(r, snapshot[i]), i + 1, snapshot, size, all);
  }

  lemma SweepRaised(r: Run, i: nat, snapshot: seq<Worker>, size: nat, all: multiset<Session>)
    requires Core(r, size, all) && r.pending != [] && i < |snapshot| && IdleFrom(r, i, snapshot)
    requires |r.active| <= i && r.consecutive + 1 < Limit(r) && r.ledger.aborts == 0
    ensures var s := r.pending[0].session;
            var r' := NextSweep(CountFailure(RaiseAndRebuild(r, snapshot[i]), s), i + 1, snapshot);
            Inv(r', size, all) && (Exact(r) && size <= 1 ==> Strict(r'))
  {
    hide Core, Sids, JobsOf, WorkersOf, PoolOk, NextSweep, Strict, RaiseAndRebuild, Exact, IdleFrom, Inv, Fresh;
    IdleHead(r, i, snapshot);
    HeadIsPending(r);
    RaiseAndRebuildKeeps(r, snapshot[i], size, all);
    var r1, s := RaiseAndRebuild(r, snapshot[i]), r.pending[0].session;
    if Exact(r) { SameExact(r, r1); }
    CountFailureKeeps(r1, s, size, all);
    CorePool(r, size, all);
    IdleAfterRebuild(r, CountFailure(r1, s), i, snapshot, size);
    NextSweepKeeps(CountFailure(r1, s), i + 1, snapshot, size, all);
  }

  lemma CorePool(r: Run, size: nat, all: multiset<Session>)
    requires Core(r, size, all)
    ensures PoolOk(r, size)
  {}

  lemma SameExact(r: Run, r': Run)
    requires Exact(r) && r'.counts == r.counts && r'.failed == r.failed && r'.ledger.gone == r.ledger.gone && Sids(r'.pending) == Sids(r.pending)
    ensures Exact(r')
  {}

  lemma SweepingFacts(r: Run, size: nat, all: multiset<Session>)
    requires Inv(r, size, all) && r.phase.Sweeping?
    ensures Core(r, size, all) && IdleFrom(r, r.phase.i, r.phase.snapshot) && |r.pool| == size
    ensures r.pending != [] && r.phase.i < |r.phase.snapshot| && r.consecutive < Limit(r) && r.ledger.aborts == 0
    ensures |r.active| <= r.phase.i && (r.phase.i == 0 ==> Fresh(r))
    ensures Strict(r) ==> Exact(r) && Fresh(r)
  {}

  lemma OnSweepKeeps(r: Run, reply: Reply, size: nat, all: multiset<Session>)
    requires Inv(r, size, all) && r.phase.Sweeping? && Applies(r, reply)
    ensures Inv(OnSweep(r, reply), size, all)
    ensures Strict(r) && (size <= 1 || reply.Accepted?) ==> Strict(OnSweep(r, reply))
  {
    hide Core, PhaseOk, Strict, Fresh, Exact, IdleFrom, Inv, NextSweep, AfterSweep, Rebuild;
    SweepingFacts(r, size, all);
    if reply.Accepted? {
      SweepAccepted(r, r.phase.i, r.phase.snapshot, size, all);
    } else if r.consecutive + 1 >= Limit(r) {
      AbortSweepKeeps(r, size, all);
    } else {
      SweepRaised(r, r.phase.i, r.phase.snapshot, size, all);
    }
  }

  lemma AbortSweepKeeps(r: Run, size: nat, all: multiset<Session>)
    requires Inv(r, size, all) && r.phase.Sweeping? && r.consecutive + 1 >= Limit(r)
    ensures var r1 := Requeue(CountRaise(r));
            var r' := AfterSweep(r1.(ledger := r1.ledger.(aborts := r1.ledger.aborts + 1)));
            Inv(r', size, all) && (Strict(r) && size <= 1 ==> Strict(r'))
  {
    hide Books, Retries, Pool, Sids, JobsOf, Count, WorkersOf, AllRetriable, AfterSweep;
    var r1 := Requeue(CountRaise(r));
    var r2 := r1.(ledger := r1.ledger.(aborts := r1.ledger.aborts + 1));
    HeadIsPending(CountRaise(r));
    AfterSweepKeeps(r2, size, all);
    PoolSize(r, size);
  }

  // ---- finished calls ----

  /** The run without its `k`th active task. */
  function Collect(r: Run, k: nat): Run
    requires k < |r.active|
  {
    r.(active := r.active[..k] + r.active[k + 1..], ledger := r.ledger.(completions := r.ledger.completions + 1))
  }

  lemma CollectCounts(r: Run, k: nat)
    requires k < |r.active|
    ensures var r' := Collect(r, k); var task := r.active[k];
            && Sids(JobsOf(r.active)) == Sids(JobsOf(r'.active)) + multiset{task.job.session}
            && WorkersOf(r.active) == WorkersOf(r'.active) + multiset{task.worker}
            && |r'.active| == |r.active| - 1
  {
    var a, t, b := r.active[..k], r.active[k], r.active[k + 1..];
    assert r.active == a + [t] + b;
    hide Sids, JobsOf, WorkersOf;
    TasksAppend(a + [t], b);
    TasksAppend(a, [t]);
    TasksAppend(a, b);
    One(t.job, t);
    SidsAppend(JobsOf(a) + [t.job], JobsOf(b));
    SidsAppend(JobsOf(a), [t.job]);
    SidsAppend(JobsOf(a), JobsOf(b));
  }

  lemma {:induction false} NoTasksOn(ts: seq<Task>, w: Worker)
    requires w !in WorkersOf(ts)
    ensures TasksOn(ts, w, true) == [] && TasksOn(ts, w, false) == ts
  {
    if ts != [] {
      assert forall v | v in WorkersOf(ts[1..]) :: v in WorkersOf(ts);
      NoTasksOn(ts[1..], w);
    }
  }

  /** What the death of a worker comes to, without the loops over other tasks of the same worker. */
  function OnLoneDeath(r: Run, task: Task): Run {
    var s := task.job.session;
    var r1 := CountFailure(r.(consecutive := r.consecutive + 1), s);
    if r1.consecutive >= Limit(r1) then GiveUp(r1, s)
    else RetryOrGiveUp(Rebuild(r1, task.worker), task.job)
  }

  lemma DiesAlone(r: Run, task: Task)
    requires TasksOn(r.active, task.worker, true) == [] && TasksOn(r.active, task.worker, false) == r.active
    ensures OnDeath(r, task) == OnLoneDeath(r, task)
  {
    hide TasksOn, Bump, IndexOf, Count;
  }

  /** A busy worker has one task, so the cancel loops never cancel anything. */
  lemma CancelLoopsNeverFire(r: Run, k: nat, size: nat, all: multiset<Session>)
    requires Inv(r, size, all) && k < |r.active|
    ensures var task := r.active[k]; var r1 := Collect(r, k);
            TasksOn(r1.active, task.worker, true) == [] && OnDeath(r1, task) == OnLoneDeath(r1, task)
  {
    hide WorkersOf, TasksOn, PhaseOk, OnDeath, OnLoneDeath, Core;
    CollectPool(r, k, size, all);
    NoTasksOn(Collect(r, k).active, r.active[k].worker);
    DiesAlone(Collect(r, k), r.active[k]);
  }

  lemma CollectPool(r: Run, k: nat, size: nat, all: multiset<Session>)
    requires Core(r, size, all) && k < |r.active|
    ensures var r' := Collect(r, k); PoolOk(r', size) && r.active[k].worker in r.pool && r.active[k].worker !in WorkersOf(r'.active)
  {
    hide Sids, JobsOf, WorkersOf, BooksOk, RetriesOk, LedgerOk;
    CollectCounts(r, k);
    var w, busy := r.active[k].worker, WorkersOf(Collect(r, k).active);
    assert w in busy + multiset{w};
    assert forall v | v in busy :: v in busy + multiset{w};
  }

  /** The sessions as they are while one of them, `s`, is out of `active` or `pending`. */
  ghost predicate InHand(r: Run, s: Session, all: multiset<Session>) {
    var p, a, d, l := Sids(r.pending), Sids(JobsOf(r.active)), multiset(r.done), r.ledger;
    || (Books(p, a + multiset{s}, d, l.gone, r.failed, r.counts, all) && Retries(p, a + multiset{s}, l.accepted, r.counts))
    || (Books(multiset{s} + p, a, d, l.gone, r.failed, r.counts, all) && Retries(multiset{s} + p, a, l.accepted, r.counts))
  }

  lemma InHandRetried(r: Run, job: Job, all: multiset<Session>)
    requires InHand(r, job.session, all) && Fresh(r)
    ensures var r' := RetryOrGiveUp(CountFailure(r, job.session), job);
            BooksOk(r', all) && RetriesOk(r') && Fresh(r') && (Exact(r) ==> Exact(r'))
  {
    hide Sids, JobsOf, WorkersOf, Books, Retries, Count, AllRetriable, Bump;
    var s, p, a, l := job.session, Sids(r.pending), Sids(JobsOf(r.active)), r.ledger;
    SidsAppend(r.pending, [job]);
    One(job, Task(0, job));
    BooksRetry(p, a, s, multiset(r.done), l.gone, r.failed, r.counts, all);
    RetriesRetry(p, a, s, l.accepted, r.counts);
    FreshRetry(p, s, r.counts);
    Bumped(r.counts, s);
  }

  lemma InHandGivenUp(r: Run, s: Session, counted: bool, all: multiset<Session>)
    requires InHand(r, s, all) && Fresh(r)
    ensures var r' := GiveUp(if counted then CountFailure(r, s) else r, s);
            BooksOk(r', all) && RetriesOk(r') && Fresh(r') && (Exact(r) ==> Exact(r'))
  {
    hide Sids, JobsOf, WorkersOf, Books, Retries, Count, AllRetriable, Bump;
    var p, a, l := Sids(r.pending), Sids(JobsOf(r.active)), r.ledger;
    BooksFail(p, a, s, multiset(r.done), l.gone, r.failed, r.counts, all);
    RetriesLess(p, a, s, l.accepted, r.counts);
    if counted {
      BooksBump(p, a, multiset(r.done), l.gone + multiset{s}, r.failed + multiset{s}, r.counts, all, s);
      RetriesBump(p, a, l.accepted, r.counts, s);
      FreshRetry(p, s, r.counts);
      Bumped(r.counts, s);
    }
  }

  /** The ledger while one finished call or refused submission is not booked yet. */
  ghost predicate LedgerInHand(r: Run, size: nat) {
    && r.ledger.sinceSuccess <= r.consecutive && r.ledger.sinceSuccess <= Cap(size)
    && r.ledger.rebuilds <= |r.done| * Cap(size) + r.ledger.sinceSuccess
    && r.ledger.completions + r.ledger.raises <= |r.done| + |r.ledger.gone| + r.ledger.rebuilds + r.ledger.aborts + 1
    && r.ledger.accepts == r.ledger.completions + |r.active|
  }

  ghost predicate Settled(r: Run, r': Run, size: nat, all: multiset<Session>) {
    && Core(r', size, all) && Fresh(r') && (Exact(r) ==> Exact(r'))
    && r'.consecutive == r.consecutive && r'.ledger.aborts == r.ledger.aborts
  }

  lemma GiveUpSettles(r: Run, s: Session, counted: bool, size: nat, all: multiset<Session>)
    requires PoolOk(r, size) && InHand(r, s, all) && Fresh(r) && LedgerInHand(r, size) && !r.phase.Crashed?
    ensures Settled(r, GiveUp(if counted then CountFailure(r, s) else r, s), size, all)
  {
    hide Sids, JobsOf, WorkersOf, BooksOk, RetriesOk, Pool, Fresh, Exact, InHand, Bump, Cap;
    InHandGivenUp(r, s, counted, all);
  }

  lemma RebuildAndRetrySettles(r: Run, w: Worker, job: Job, size: nat, all: multiset<Session>)
    requires PoolOk(r, size) && InHand(r, job.session, all) && Fresh(r) && LedgerInHand(r, size) && !r.phase.Crashed?
    requires w in r.pool && w !in WorkersOf(r.active) && r.ledger.sinceSuccess < r.consecutive < Limit(r)
    ensures Settled(r, RetryOrGiveUp(CountFailure(Rebuild(r, w), job.session), job), size, all)
    ensures Rebuild(CountFailure(r, job.session), w) == CountFailure(Rebuild(r, w), job.session)
  {
    hide Sids, JobsOf, WorkersOf, BooksOk, RetriesOk, Pool, Fresh, Exact, InHand, Bump, IndexOf, Count, AllRetriable;
    RebuiltInHand(r, w, job.session, size, all);
    InHandRetried(Rebuild(r, w), job, all);
  }

  lemma RebuiltInHand(r: Run, w: Worker, s: Session, size: nat, all: multiset<Session>)
    requires PoolOk(r, size) && InHand(r, s, all) && Fresh(r) && w in r.pool && w !in WorkersOf(r.active)
    ensures var r' := Rebuild(r, w);
            && IndexOf(r.pool, w) < |r.pool| && |r.pool| == size
            && PoolOk(r', size) && InHand(r', s, all) && Fresh(r') && (Exact(r) ==> Exact(r'))
  {
    hide Sids, JobsOf, WorkersOf, Books, Retries, IndexOf, Count, AllRetriable;
    PoolRebuild(r.pool, r.nextWorker, WorkersOf(r.active), size, w);
  }

  lemma OnRefillKeeps(r: Run, reply: Reply, size: nat, all: multiset<Session>)
    requires Inv(r, size, all) && r.phase.Refilling? && Applies(r, reply)
    ensures Inv(OnRefill(r, reply), size, all) && (Strict(r) ==> Strict(OnRefill(r, reply)))
  {
    hide Inv, Core, Strict, Exact, Fresh, LoopHead, Rebuild, WorkersOf, Settled, Bump, Count;
    RefillingFacts(r, size, all);
    var w, job := r.phase.worker, r.pending[0];
    if reply.Accepted? {
      SubmitKeeps(r, w, size, all);
      if Exact(r) { ExactSubmit(r, w); }
      LoopHeadStrict(r, Submit(r, w), size, all);
    } else {
      var r1 := CountRaise(r).(pending := r.pending[1..]);
      RefusedInHand(r, size, all);
      RebuildAndRetrySettles(r1, w, job, size, all);
      var r' := RetryOrGiveUp(CountFailure(Rebuild(r1, w), job.session), job);
      SettledFacts(r1, r', size, all);
      LoopHeadStrict(r, r', size, all);
    }
  }

  lemma RefillingFacts(r: Run, size: nat, all: multiset<Session>)
    requires Inv(r, size, all) && r.phase.Refilling?
    ensures Core(r, size, all) && Fresh(r) && r.pending != [] && r.consecutive == 0 && r.ledger.aborts == 0
    ensures r.phase.worker in r.pool && r.phase.worker !in WorkersOf(r.active) && 1 < Limit(r)
    ensures Strict(r) ==> Exact(r)
  {}

  lemma SettledFacts(r: Run, r': Run, size: nat, all: multiset<Session>)
    requires Settled(r, r', size, all)
    ensures Core(r', size, all) && Fresh(r') && (Exact(r) ==> Exact(r')) && r'.ledger.aborts == r.ledger.aborts
  {}

  /** Back at the head of the loop. */
  lemma LoopHeadStrict(r: Run, r': Run, size: nat, all: multiset<Session>)
    requires Core(r', size, all) && Fresh(r') && r'.ledger.aborts == 0 && (Exact(r) ==> Exact(r'))
    ensures Inv(LoopHead(r'), size, all) && (Strict(r) ==> Strict(LoopHead(r')))
  {
    hide Core, Exact, Fresh, LoopHead, Inv;
    LoopHeadKeeps(r', size, all);
  }

  lemma RefusedInHand(r: Run, size: nat, all: multiset<Session>)
    requires Core(r, size, all) && Fresh(r) && r.pending != [] && r.consecutive == 0 && 1 < Limit(r)
    ensures var r1 := CountRaise(r).(pending := r.pending[1..]);
            && PoolOk(r1, size) && InHand(r1, r.pending[0].session, all) && Fresh(r1) && LedgerInHand(r1, size)
            && !r1.phase.Crashed? && r1.ledger.sinceSuccess < r1.consecutive < Limit(r1) && (Exact(r) ==> Exact(r1))
  {
    hide JobsOf, WorkersOf, Books, Retries, Pool, Count, Cap, Sids;
    HeadIsPending(r);
    assert r.pending[0].session in Sids(r.pending);
    assert forall x | x in Sids(r.pending[1..]) :: x in Sids(r.pending);
    assert forall x | x in Sids(r.pending) :: x == r.pending[0].session || x in Sids(r.pending[1..]);
  }

  lemma CollectedInHand(r: Run, k: nat, size: nat, all: multiset<Session>)
    requires Core(r, size, all) && Fresh(r) && k < |r.active|
    ensures var r1 := Collect(r, k);
            && PoolOk(r1, size) && InHand(r1, r.active[k].job.session, all) && Fresh(r1) && LedgerInHand(r1, size)
            && !r1.phase.Crashed? && (Exact(r) ==> Exact(r1)) && r1.ledger.aborts == r.ledger.aborts
            && r.active[k].worker in r1.pool && r.active[k].worker !in WorkersOf(r1.active)
  {
    hide JobsOf, WorkersOf, Books, Retries, Pool, Count, Cap, Sids;
    CollectCounts(r, k);
    CollectPool(r, k, size, all);
  }

  lemma OnDeathKeeps(r: Run, k: nat, size: nat, all: multiset<Session>)
    requires Inv(r, size, all) && r.phase.Waiting? && k < |r.active|
    ensures var r' := LoopHead(OnDeath(Collect(r, k), r.active[k])); Inv(r', size, all) && (Strict(r) ==> Strict(r'))
  {
    hide Inv, Core, Strict, Exact, Fresh, LoopHead, Rebuild, WorkersOf, Settled, Bump, Count, InHand, LedgerInHand, PoolOk, OnDeath, Collect;
    WaitingFacts(r, size, all);
    CancelLoopsNeverFire(r, k, size, all);
    CollectedInHand(r, k, size, all);
    var task := r.active[k];
    var r1 := Collect(r, k);
    var r2 := r1.(consecutive := r1.consecutive + 1);
    DeathInHand(r1, task.job.session, size, all);
    if r2.consecutive >= Limit(r2) {
      GiveUpSettles(r2, task.job.session, true, size, all);
    } else {
      RebuildAndRetrySettles(r2, task.worker, task.job, size, all);
    }
    SettledFacts(r2, OnLoneDeath(r1, task), size, all);
    LoopHeadStrict(r, OnLoneDeath(r1, task), size, all);
  }

  lemma DeathInHand(r: Run, s: Session, size: nat, all: multiset<Session>)
    requires PoolOk(r, size) && InHand(r, s, all) && Fresh(r) && LedgerInHand(r, size)
    ensures var r' := r.(consecutive := r.consecutive + 1);
            PoolOk(r', size) && InHand(r', s, all) && Fresh(r') && LedgerInHand(r', size) && (Exact(r) ==> Exact(r'))
            && r'.ledger.sinceSuccess < r'.consecutive && Limit(r') == Limit(r)
  {
    hide JobsOf, WorkersOf, Books, Retries, Pool, Count, Cap, Sids;
  }

  lemma WaitingFacts(r: Run, size: nat, all: multiset<Session>)
    requires Inv(r, size, all) && r.phase.Waiting?
    ensures Core(r, size, all) && Fresh(r) && r.active != [] && r.ledger.aborts == 0
    ensures Strict(r) ==> Exact(r)
  {}

  lemma OnBrokenKeeps(r: Run, k: nat, size: nat, all: multiset<Session>)
    requires Inv(r, size, all) && r.phase.Waiting? && k < |r.active|
    ensures var r' := OnCompleted(r, k, Broken); Inv(r', size, all) && (Strict(r) ==> Strict(r'))
  {
    hide Inv, Core, Strict, Exact, Fresh, LoopHead, WorkersOf, Settled, InHand, LedgerInHand, PoolOk;
    WaitingFacts(r, size, all);
    CollectedInHand(r, k, size, all);
    var r1, s := Collect(r, k), r.active[k].job.session;
    GiveUpSettles(r1, s, false, size, all);
    SettledFacts(r1, GiveUp(r1, s), size, all);
    LoopHeadStrict(r, GiveUp(r1, s), size, all);
  }

  /** The collected session is recorded as archived. */
  function Succeed(r: Run, s: Session): Run {
    r.(done := r.done + [s], consecutive := 0, ledger := r.ledger.(sinceSuccess := 0))
  }

  lemma SucceedSettles(r: Run, k: nat, size: nat, all: multiset<Session>)
    requires Core(r, size, all) && Fresh(r) && k < |r.active| && r.ledger.aborts == 0
    ensures var r' := Succeed(Collect(r, k), r.active[k].job.session);
            && Core(r', size, all) && Fresh(r') && (Exact(r) ==> Exact(r')) && r'.ledger.aborts == 0 && r'.consecutive == 0
            && r.active[k].worker in r'.pool && r.active[k].worker !in WorkersOf(r'.active) && r'.pending == r.pending
  {
    hide JobsOf, WorkersOf, Books, Retries, Pool, Count, Cap, Sids, InHand;
    CollectCounts(r, k);
    CollectPool(r, k, size, all);
    var r1, s := Collect(r, k), r.active[k].job.session;
    BooksDone(Sids(r1.pending), Sids(JobsOf(r1.active)), s, multiset(r1.done), r1.ledger.gone, r1.failed, r1.counts, all);
    RetriesLess(Sids(r1.pending), Sids(JobsOf(r1.active)), s, r1.ledger.accepted, r1.counts);
    OneMore(|r.done|, Cap(size));
  }

  lemma OneMore(n: nat, c: nat)
    ensures (n + 1) * c == n * c + c
  {}

  lemma OnArchivedKeeps(r: Run, k: nat, size: nat, all: multiset<Session>)
    requires Inv(r, size, all) && r.phase.Waiting? && k < |r.active|
    ensures var r' := OnCompleted(r, k, Archived); Inv(r', size, all) && (Strict(r) ==> Strict(r'))
  {
    hide Core, Strict, Exact, Fresh, LoopHead, WorkersOf, Inv;
    WaitingFacts(r, size, all);
    SucceedSettles(r, k, size, all);
    var r1 := Succeed(Collect(r, k), r.active[k].job.session);
    assert r1.pending != [] || OnCompleted(r, k, Archived) == LoopHead(r1);
    if r1.pending != [] {
      NowRefilling(r, r1, r.active[k].worker, size, all);
    } else {
      LoopHeadStrict(r, r1, size, all);
    }
  }

  lemma NowRefilling(r: Run, r1: Run, w: Worker, size: nat, all: multiset<Session>)
    requires Core(r1, size, all) && Fresh(r1) && (Exact(r) ==> Exact(r1)) && r1.ledger.aborts == 0 && r1.consecutive == 0
    requires w in r1.pool && w !in WorkersOf(r1.active) && r1.pending != []
    ensures var r' := r1.(phase := Refilling(w)); Inv(r', size, all) && (Strict(r) ==> Strict(r'))
  {
    hide WorkersOf, Books, Retries, Pool, AllRetriable, Sids, JobsOf, Count;
  }

  // ---- all runs ----

  /** The replies that keep the sessions partitioned: with two or more workers, no submission of a sweep
      raises. (Every other submission may raise, and every worker may die.) */
  predicate Tame(r: Run, reply: Reply, size: nat) {
    size <= 1 || !(r.phase.Sweeping? && reply.Raised?)
  }

  lemma StepKeepsInv(r: Run, reply: Reply, size: nat, all: multiset<Session>)
    requires Inv(r, size, all) && Applies(r, reply)
    ensures Inv(Step(r, reply), size, all)
    ensures Strict(r) && Tame(r, reply, size) ==> Strict(Step(r, reply))
  {
    hide Inv, Core, Strict, LoopHead, OnFill, OnSweep, OnRefill, PhaseOk, OnDeath, GiveUp;
    match r.phase
    case Filling(_, _) => OnFillKeeps(r, reply, size, all);
    case Sweeping(_, _) => OnSweepKeeps(r, reply, size, all);
    case Refilling(_) => OnRefillKeeps(r, reply, size, all);
    case Waiting =>
      match reply {
        case TimedOut =>
          WaitingFacts(r, size, all);
          LoopHeadStrict(r, r, size, all);
        case Completed(k, outcome) =>
          match outcome {
            case Archived => OnArchivedKeeps(r, k, size, all);
            case Died => OnDeathKeeps(r, k, size, all);
            case Broken => OnBrokenKeeps(r, k, size, all);
          }
      }
  }

  ghost predicate TameRun(r: Run, env: seq<Reply>, size: nat)
    requires ValidRun(r, env)
    decreases |env|
  {
    env == [] || (Tame(r, env[0], size) && TameRun(Step(r, env[0]), env[1..], size))
  }

  lemma {:induction false} ExecKeepsInv(r: Run, env: seq<Reply>, size: nat, all: multiset<Session>)
    requires Inv(r, size, all) && ValidRun(r, env)
    ensures Inv(Exec(r, env), size, all)
    ensures Strict(r) && TameRun(r, env, size) ==> Strict(Exec(r, env))
    decreases |env|
  {
    if env != [] {
      hide Inv, Strict, Step, Applies, Tame;
      StepKeepsInv(r, env[0], size, all);
      ExecKeepsInv(Step(r, env[0]), env[1..], size, all);
    }
  }

  // ---- theorems about every run ----

  ghost predicate Distinct<T>(xs: seq<T>) {
    forall i, j | 0 <= i < j < |xs| :: xs[i] != xs[j]
  }

  /** What `_archive_run` is called with: distinct workers, and distinct sessions (a SELECT DISTINCT). */
  ghost predicate Callable(workers: seq<Worker>, nextWorker: Worker, sessions: seq<Session>) {
    Distinct(workers) && (forall w | w in workers :: w < nextWorker) && Distinct(sessions)
  }

  lemma {:induction false} SidsOf(js: seq<Job>, sessions: seq<Session>)
    requires |js| == |sessions| && forall i | 0 <= i < |js| :: js[i].session == sessions[i]
    ensures Sids(js) == multiset(sessions)
  {
    if js != [] {
      SidsOf(js[1..], sessions[1..]);
      assert sessions == [sessions[0]] + sessions[1..];
    }
  }

  lemma {:induction false} DistinctOnce<T>(xs: seq<T>)
    requires Distinct(xs)
    ensures forall x :: multiset(xs)[x] <= 1
  {
    if xs != [] {
      DistinctOnce(xs[1..]);
      assert xs == [xs[0]] + xs[1..];
    }
  }

  lemma InitialKeeps(workers: seq<Worker>, nextWorker: Worker, sessions: seq<Session>)
    requires Callable(workers, nextWorker, sessions)
    ensures var r := Initial(workers, nextWorker, sessions);
            Core(r, |workers|, multiset(sessions)) && Fresh(r) && IdleFrom(r, 0, workers) && Exact(r)
  {
    SidsOf(Enumerate(sessions), sessions);
    DistinctOnce(sessions);
    assert Sids([]) == multiset{};
    var r := Initial(workers, nextWorker, sessions);
    assert PoolOk(r, |workers|) by {
      assert WorkersOf([]) == multiset{};
      assert forall i | 0 <= i < |workers| :: workers[i] in workers;
    }
  }

  lemma StartInv(workers: seq<Worker>, nextWorker: Worker, sessions: seq<Session>)
    requires Callable(workers, nextWorker, sessions)
    ensures Inv(Start(workers, nextWorker, sessions), |workers|, multiset(sessions)) && Strict(Start(workers, nextWorker, sessions))
  {
    hide Core, Fresh, IdleFrom, Exact, NextFill, Inv, Strict, Enumerate, Callable;
    InitialKeeps(workers, nextWorker, sessions);
    NextFillKeeps(Initial(workers, nextWorker, sessions), 0, workers, |workers|, multiset(sessions));
  }

  lemma RunInv(workers: seq<Worker>, nextWorker: Worker, sessions: seq<Session>, env: seq<Reply>)
    requires Callable(workers, nextWorker, sessions) && ValidRun(Start(workers, nextWorker, sessions), env)
    ensures var r := Start(workers, nextWorker, sessions);
            && Inv(Exec(r, env), |workers|, multiset(sessions)) && (TameRun(r, env, |workers|) ==> Strict(Exec(r, env)))
  {
    hide Callable, Inv, Strict, Start, Exec, TameRun, ValidRun;
    StartInv(workers, nextWorker, sessions);
    ExecKeepsInv(Start(workers, nextWorker, sessions), env, |workers|, multiset(sessions));
  }

  /** In every reachable state each session is in one place (waiting, with a worker, archived or given up), and
      what was given up is recorded as failed. */
  lemma SessionsConserved(workers: seq<Worker>, nextWorker: Worker, sessions: seq<Session>, env: seq<Reply>)
    requires Callable(workers, nextWorker, sessions) && ValidRun(Start(workers, nextWorker, sessions), env)
    ensures var r := Exec(Start(workers, nextWorker, sessions), env);
            && Sids(r.pending) + Sids(JobsOf(r.active)) + multiset(r.done) + r.ledger.gone == multiset(sessions)
            && r.ledger.gone <= r.failed
            && (r.phase.Finished? ==> r.pending == [])
  {
    hide Callable, Start, Exec, Sids, JobsOf, WorkersOf, Strict, TameRun, ValidRun;
    RunInv(workers, nextWorker, sessions, env);
  }

  /** A finished run has put every session once into exactly one of archived and failed, if the pool has at most
      one worker or no submission of a sweep raised. */
  lemma FinishedPartition(workers: seq<Worker>, nextWorker: Worker, sessions: seq<Session>, env: seq<Reply>)
    requires Callable(workers, nextWorker, sessions) && ValidRun(Start(workers, nextWorker, sessions), env)
    requires TameRun(Start(workers, nextWorker, sessions), env, |workers|)
    requires Exec(Start(workers, nextWorker, sessions), env).phase.Finished?
    ensures Partitioned(Exec(Start(workers, nextWorker, sessions), env), sessions)
  {
    hide Callable, Start, Exec, TameRun, ValidRun;
    RunInv(workers, nextWorker, sessions, env);
  }

  ghost predicate Partitioned(r: Run, sessions: seq<Session>) {
    r.pending == [] && r.active == [] && multiset(r.done) + r.failed == multiset(sessions)
  }

  /** The pool keeps its size and stays distinct, no worker has two tasks, every busy worker is in the pool, and no
      lookup of a worker fails. */
  lemma PoolIsSafe(workers: seq<Worker>, nextWorker: Worker, sessions: seq<Session>, env: seq<Reply>)
    requires Callable(workers, nextWorker, sessions) && ValidRun(Start(workers, nextWorker, sessions), env)
    ensures var r := Exec(Start(workers, nextWorker, sessions), env);
            && !r.phase.Crashed? && |r.pool| == |workers| && Distinct(r.pool)
            && (forall w | w in WorkersOf(r.active) :: w in r.pool && WorkersOf(r.active)[w] == 1)
  {
    hide Callable, Start, Exec, TameRun, ValidRun, WorkersOf, BooksOk, RetriesOk, Strict;
    RunInv(workers, nextWorker, sessions, env);
  }

  /** A session is accepted by a worker at most three times; between two successes at most 3W - 1 workers are
      rebuilt. */
  lemma RetriesAndRebuildsBounded(workers: seq<Worker>, nextWorker: Worker, sessions: seq<Session>, env: seq<Reply>)
    requires Callable(workers, nextWorker, sessions) && ValidRun(Start(workers, nextWorker, sessions), env)
    ensures var r := Exec(Start(workers, nextWorker, sessions), env);
            && (forall s :: Count(r.ledger.accepted, s) <= 3)
            && r.ledger.sinceSuccess <= Cap(|workers|)
            && r.ledger.rebuilds <= (|r.done| + 1) * Cap(|workers|)
  {
    hide Callable, Start, Exec, TameRun, ValidRun, WorkersOf, BooksOk, PoolOk, Strict, Sids, JobsOf, Count, Cap;
    RunInv(workers, nextWorker, sessions, env);
    OneMore(|Exec(Start(workers, nextWorker, sessions), env).done|, Cap(|workers|));
  }

  // ---- the loop ends ----

  /** The replies of a run other than waits that timed out. */
  function Events(env: seq<Reply>): nat {
    if env == [] then 0 else (if env[0].TimedOut? then 0 else 1) + Events(env[1..])
  }

  function Counted(r: Run): nat {
    r.ledger.accepts + r.ledger.raises + r.ledger.completions
  }

  lemma {:induction false} FailPendingCounts(r: Run)
    ensures Counted(FailPending(r)) == Counted(r)
    decreases |r.pending|
  {
    if r.pending != [] {
      var s := r.pending[0].session;
      var rest := r.(pending := r.pending[1..]);
      FailPendingCounts(if s in r.failed then rest.(ledger := r.ledger.(gone := r.ledger.gone + multiset{s})) else GiveUp(rest, s));
    }
  }

  lemma {:induction false} AbortFillCounts(r: Run)
    ensures Counted(AbortFill(r)) == Counted(r)
    decreases |r.pending|
  {
    if r.pending != [] {
      var s := r.pending[0].session;
      AbortFillCounts(GiveUp(CountFailure(r.(pending := r.pending[1..]), s), s));
    }
  }

  lemma LoopHeadCounts(r: Run)
    ensures Counted(LoopHead(r)) == Counted(r) && Counted(Finish(r)) == Counted(r)
  {
    hide FailPending;
    FailPendingCounts(r);
    FailPendingCounts(FailPending(r));
  }

  lemma AfterSweepCounts(r: Run)
    ensures Counted(AfterSweep(r)) == Counted(r)
  {
    hide LoopHead, Finish, Sids, Retained, Exceeded;
    LoopHeadCounts(r);
    LoopHeadCounts(DropExceeded(r));
  }

  lemma {:induction false} SiblingCounts(r: Run, ts: seq<Task>)
    ensures Counted(FailSiblings(r, ts)) == Counted(r) && Counted(RetrySiblings(r, ts)) == Counted(r)
    decreases |ts|
  {
    hide Counted, Count, Bump;
    if ts != [] {
      var s := ts[0].job.session;
      SiblingCounts(GiveUp(r, s), ts[1..]);
      SiblingCounts(RetryOrGiveUp(CountFailure(r, s), ts[0].job), ts[1..]);
      MoveCounts(r, s, ts[0].job);
    }
  }

  lemma MoveCounts(r: Run, s: Session, job: Job)
    ensures Counted(GiveUp(r, s)) == Counted(r) && Counted(RetryOrGiveUp(r, job)) == Counted(r)
    ensures Counted(CountFailure(r, s)) == Counted(r) && forall w :: Counted(Rebuild(r, w)) == Counted(r)
    ensures Counted(RetryOrGiveUp(CountFailure(r, s), job)) == Counted(r)
  {
    hide Count, Bump, IndexOf;
  }

  lemma StepCounts(r: Run, reply: Reply)
    requires Applies(r, reply)
    ensures Counted(Step(r, reply)) == Counted(r) + (if reply.TimedOut? then 0 else 1)
  {
    match r.phase
    case Filling(_, _) => FillCounts(r, reply);
    case Sweeping(_, _) => SweepCounts(r, reply);
    case Refilling(_) => RefillCounts(r, reply);
    case Waiting => if reply.TimedOut? { LoopHeadCounts(r); } else { CompletedCounts(r, reply.k, reply.outcome); }
  }

  lemma FillCounts(r: Run, reply: Reply)
    requires Applies(r, reply) && r.phase.Filling?
    ensures Counted(OnFill(r, reply)) == Counted(r) + 1
  {
    hide LoopHead, AbortFill, IndexOf, Bump;
    var w := r.phase.snapshot[r.phase.i];
    var r1 := Requeue(CountRaise(r));
    LoopHeadCounts(Submit(r, w));
    AbortFillCounts(r1);
    LoopHeadCounts(AbortFill(r1));
    LoopHeadCounts(Rebuild(r1, w));
  }

  lemma SweepCounts(r: Run, reply: Reply)
    requires Applies(r, reply) && r.phase.Sweeping?
    ensures Counted(OnSweep(r, reply)) == Counted(r) + 1
  {
    hide AfterSweep, IndexOf, Bump;
    var w, s := r.phase.snapshot[r.phase.i], r.pending[0].session;
    var r1 := Requeue(CountRaise(r));
    AfterSweepCounts(Submit(r, w));
    AfterSweepCounts(r1.(ledger := r1.ledger.(aborts := r1.ledger.aborts + 1)));
    AfterSweepCounts(CountFailure(Rebuild(r1, w), s));
  }

  lemma RefillCounts(r: Run, reply: Reply)
    requires Applies(r, reply) && r.phase.Refilling?
    ensures Counted(OnRefill(r, reply)) == Counted(r) + 1
  {
    hide LoopHead, IndexOf, Bump, Count;
    var w, job := r.phase.worker, r.pending[0];
    var r1 := CountRaise(r).(pending := r.pending[1..]);
    LoopHeadCounts(Submit(r, w));
    LoopHeadCounts(GiveUp(r1, job.session));
    LoopHeadCounts(RetryOrGiveUp(CountFailure(Rebuild(r1, w), job.session), job));
  }

  lemma CompletedCounts(r: Run, k: nat, outcome: Outcome)
    requires k < |r.active|
    ensures Counted(OnCompleted(r, k, outcome)) == Counted(r) + 1
  {
    hide LoopHead, OnDeath;
    var r1, task := Collect(r, k), r.active[k];
    LoopHeadCounts(Succeed(r1, task.job.session));
    LoopHeadCounts(GiveUp(r1, task.job.session));
    LoopHeadCounts(OnDeath(r1, task));
    DeathCounts(r1, task);
  }

  lemma DeathCounts(r: Run, task: Task)
    ensures Counted(OnDeath(r, task)) == Counted(r)
  {
    hide IndexOf, Bump, Count, FailSiblings, RetrySiblings, TasksOn;
    var s := task.job.session;
    var r1 := CountFailure(r.(consecutive := r.consecutive + 1), s);
    var siblings, others := TasksOn(r1.active, task.worker, true), TasksOn(r1.active, task.worker, false);
    SiblingCounts(GiveUp(r1, s).(active := others), siblings);
    SiblingCounts(RetryOrGiveUp(Rebuild(r1, task.worker), task.job).(active := others), siblings);
  }

  lemma {:induction false} ExecCounts(r: Run, env: seq<Reply>)
    requires ValidRun(r, env)
    ensures Counted(Exec(r, env)) == Counted(r) + Events(env)
    decreases |env|
  {
    if env != [] {
      hide Counted, Step, Applies;
      StepCounts(r, env[0]);
      ExecCounts(Step(r, env[0]), env[1..]);
    }
  }

  lemma Arithmetic(n: nat, m: nat, c: nat)
    requires n <= m
    ensures n * c <= m * c
  {}

  /** Apart from waits that time out, a run of N sessions on W workers has at most
      2 (N + (N + 1)(3W - 1) + 1) + W remote interactions. */
  lemma RunsAreBounded(workers: seq<Worker>, nextWorker: Worker, sessions: seq<Session>, env: seq<Reply>)
    requires Callable(workers, nextWorker, sessions) && ValidRun(Start(workers, nextWorker, sessions), env)
    ensures Events(env) <= 2 * (|sessions| + (|sessions| + 1) * Cap(|workers|) + 1) + |workers|
  {
    hide Start, ValidRun, Exec, Callable, Cap, TameRun, Strict, Counted, Events;
    var r := Exec(Start(workers, nextWorker, sessions), env);
    RunInv(workers, nextWorker, sessions, env);
    StartCounts(workers, nextWorker, sessions);
    ExecCounts(Start(workers, nextWorker, sessions), env);
    Tally(r, |workers|, multiset(sessions));
    assert |multiset(sessions)| == |sessions|;
    Arithmetic(|r.done| + 1, |sessions| + 1, Cap(|workers|));
  }

  lemma StartCounts(workers: seq<Worker>, nextWorker: Worker, sessions: seq<Session>)
    ensures Counted(Start(workers, nextWorker, sessions)) == 0
  {
    hide LoopHead, Enumerate;
    LoopHeadCounts(Initial(workers, nextWorker, sessions));
  }

  lemma Tally(r: Run, size: nat, all: multiset<Session>)
    requires Inv(r, size, all)
    ensures Counted(r) <= 2 * (|all| + (|r.done| + 1) * Cap(size) + 1) + size
    ensures |r.done| <= |all|
  {
    hide Sids, JobsOf, WorkersOf, PhaseOk, RetriesOk, Pool, Cap;
    OneMore(|r.done|, Cap(size));
    assert |all| == |Sids(r.pending)| + |Sids(JobsOf(r.active))| + |r.done| + |r.ledger.gone|;
    ActiveFits(r, size);
  }

  lemma ActiveFits(r: Run, size: nat)
    requires PoolOk(r, size)
    ensures |r.active| <= size
  {
    hide JobsOf;
    WorkersSize(r.active);
    var busy, pool := WorkersOf(r.active), multiset(r.pool);
    assert forall w | w in busy :: w in pool;
    assert busy <= pool;
    assert busy + (pool - busy) == pool;
  }

  lemma {:induction false} WorkersSize(ts: seq<Task>)
    ensures |WorkersOf(ts)| == |ts|
  {
    if ts != [] { WorkersSize(ts[1..]); }
  }

  /** A run that has not finished is waiting for a reply. */
  lemma NeverStuck(workers: seq<Worker>, nextWorker: Worker, sessions: seq<Session>, env: seq<Reply>)
    requires Callable(workers, nextWorker, sessions) && ValidRun(Start(workers, nextWorker, sessions), env)
    ensures var r := Exec(Start(workers, nextWorker, sessions), env);
            if r.phase.Finished? then forall reply :: !Applies(r, reply)
            else if r.phase.Waiting? then forall outcome :: Applies(r, Completed(0, outcome))
            else Applies(r, Accepted) && Applies(r, Raised)
  {
    hide Start, ValidRun, Exec, Callable, TameRun, Strict, Core, Fresh, IdleFrom, WorkersOf;
    RunInv(workers, nextWorker, sessions, env);
  }

  // ---- calls that are never collected ----

  lemma {:induction false} FailPendingActive(r: Run)
    ensures FailPending(r).active == r.active
    decreases |r.pending|
  {
    if r.pending != [] {
      var s := r.pending[0].session;
      var rest := r.(pending := r.pending[1..]);
      FailPendingActive(if s in r.failed then rest.(ledger := r.ledger.(gone := r.ledger.gone + multiset{s})) else GiveUp(rest, s));
    }
  }

  lemma FinishActive(r: Run)
    ensures Finish(r).active == r.active
  {
    hide FailPending;
    FailPendingActive(r);
    FailPendingActive(FailPending(r));
  }

  lemma LoopHeadEnds(r: Run)
    ensures LoopHead(r).phase.Finished? && !r.phase.Finished? ==> LoopHead(r).active == []
  {
    hide Finish;
    FinishActive(r);
  }

  lemma AfterSweepEnds(r: Run)
    requires r.phase.Sweeping?
    ensures AfterSweep(r).phase.Finished? ==> AfterSweep(r).active == if r.consecutive >= Limit(r) then r.active else []
  {
    hide Finish, LoopHead, Sids, Retained, Exceeded;
    FinishActive(r);
    LoopHeadEnds(DropExceeded(r));
  }

  /** A step ends the run with calls still active exactly if it is the refused submission of a sweep that reaches the
      rebuild limit after other submissions of the sweep were accepted. */
  lemma UncollectedIff(r: Run, reply: Reply, size: nat, all: multiset<Session>)
    requires Inv(r, size, all) && Applies(r, reply) && Step(r, reply).phase.Finished?
    ensures Step(r, reply).active != [] <==>
              r.phase.Sweeping? && reply.Raised? && r.consecutive + 1 >= Limit(r) && r.active != []
  {
    hide Inv, LoopHead, AfterSweep, AbortFill, IndexOf, Bump, OnCompleted, OnRefill, TasksOn, Limit;
    match r.phase
    case Filling(i, snapshot) =>
      LoopHeadEnds(Submit(r, snapshot[i]));
      LoopHeadEnds(AbortFill(Requeue(CountRaise(r))));
      LoopHeadEnds(Rebuild(Requeue(CountRaise(r)), snapshot[i]));
      AbortFillPhase(Requeue(CountRaise(r)));
    case Sweeping(i, snapshot) => SweepEnds(r, reply, size, all);
    case Waiting => WaitEnds(r, reply, size, all);
    case Refilling(w) => RefillEnds(r, reply, size, all);
  }

  lemma {:induction false} AbortFillPhase(r: Run)
    ensures AbortFill(r).phase == r.phase
    decreases |r.pending|
  {
    if r.pending != [] {
      var s := r.pending[0].session;
      AbortFillPhase(GiveUp(CountFailure(r.(pending := r.pending[1..]), s), s));
    }
  }

  lemma SweepEnds(r: Run, reply: Reply, size: nat, all: multiset<Session>)
    requires Inv(r, size, all) && Applies(r, reply) && r.phase.Sweeping? && OnSweep(r, reply).phase.Finished?
    ensures OnSweep(r, reply).active != [] <==> reply.Raised? && r.consecutive + 1 >= Limit(r) && r.active != []
  {
    hide Core, PhaseOk, Inv, AfterSweep, IndexOf, Bump;
    SweepingFacts(r, size, all);
    var w, s := r.phase.snapshot[r.phase.i], r.pending[0].session;
    var r1 := Requeue(CountRaise(r));
    AfterSweepEnds(Submit(r, w));
    AfterSweepEnds(r1.(ledger := r1.ledger.(aborts := r1.ledger.aborts + 1)));
    if !Rebuild(r1, w).phase.Crashed? { AfterSweepEnds(CountFailure(Rebuild(r1, w), s)); }
  }

  lemma WaitEnds(r: Run, reply: Reply, size: nat, all: multiset<Session>)
    requires Inv(r, size, all) && Applies(r, reply) && r.phase.Waiting? && Step(r, reply).phase.Finished?
    ensures Step(r, reply).active == []
  {
    hide Inv, LoopHead, OnDeath, IndexOf, Bump;
    LoopHeadEnds(r);
    if reply.Completed? {
      var r1, task := Collect(r, reply.k), r.active[reply.k];
      LoopHeadEnds(Succeed(r1, task.job.session));
      LoopHeadEnds(GiveUp(r1, task.job.session));
      if reply.outcome.Died? {
        CancelLoopsNeverFire(r, reply.k, size, all);
        LonePhase(r1, task);
        LoopHeadEnds(OnDeath(r1, task));
      }
    }
  }

  lemma LonePhase(r: Run, task: Task)
    ensures OnLoneDeath(r, task).phase == r.phase || OnLoneDeath(r, task).phase.Crashed?
  {
    hide IndexOf, Bump, Count;
  }

  lemma RefillEnds(r: Run, reply: Reply, size: nat, all: multiset<Session>)
    requires Inv(r, size, all) && Applies(r, reply) && r.phase.Refilling? && OnRefill(r, reply).phase.Finished?
    ensures OnRefill(r, reply).active == []
  {
    hide Inv, LoopHead, IndexOf, Bump, Count;
    var w, job := r.phase.worker, r.pending[0];
    var r1 := CountRaise(r).(pending := r.pending[1..]);
    LoopHeadEnds(Submit(r, w));
    LoopHeadEnds(GiveUp(r1, job.session));
    LoopHeadEnds(RetryOrGiveUp(CountFailure(Rebuild(r1, w), job.session), job));
  }

  lemma {:induction false} RunAppend(r: Run, a: seq<Reply>, b: seq<Reply>)
    requires ValidRun(r, a) && ValidRun(Exec(r, a), b)
    ensures ValidRun(r, a + b) && Exec(r, a + b) == Exec(Exec(r, a), b)
    decreases |a|
  {
    hide Step, Applies;
    if a == [] {
      assert a + b == b;
    } else {
      RunAppend(Step(r, a[0]), a[1..], b);
      assert (a + b)[1..] == a[1..] + b;
    }
  }

  lemma {:induction false} RunSplits(r: Run, env: seq<Reply>, n: nat)
    requires ValidRun(r, env) && n <= |env|
    ensures ValidRun(r, env[..n]) && ValidRun(Exec(r, env[..n]), env[n..]) && Exec(r, env) == Exec(Exec(r, env[..n]), env[n..])
    decreases n
  {
    hide Step, Applies;
    if n == 0 {
      assert env[..0] == [] && env[0..] == env;
    } else {
      RunSplits(Step(r, env[0]), env[1..], n - 1);
      assert env[..n][1..] == env[1..][..n - 1] && env[1..][n - 1..] == env[n..];
    }
  }

  lemma StartEnds(workers: seq<Worker>, nextWorker: Worker, sessions: seq<Session>)
    ensures Start(workers, nextWorker, sessions).phase.Finished? ==> Start(workers, nextWorker, sessions).active == []
  {
    hide LoopHead, Enumerate;
    LoopHeadEnds(Initial(workers, nextWorker, sessions));
  }

  /** A finished run has left calls running exactly if its last answer is such a refusal. */
  lemma UncollectedRunIff(workers: seq<Worker>, nextWorker: Worker, sessions: seq<Session>, env: seq<Reply>)
    requires Finishes(workers, nextWorker, sessions, env)
    ensures var start := Start(workers, nextWorker, sessions);
            && (env == [] ==> Exec(start, env).active == [])
            && (env != [] ==>
                  var last := |env| - 1;
                  && ValidRun(start, env[..last])
                  && var r := Exec(start, env[..last]);
                     Exec(start, env).active != [] <==>
                       r.phase.Sweeping? && env[last].Raised? && r.consecutive + 1 >= Limit(r) && r.active != [])
  {
    hide Start, Inv, Step, Applies, Callable, Limit, TameRun, Strict;
    var start := Start(workers, nextWorker, sessions);
    if env == [] {
      StartEnds(workers, nextWorker, sessions);
    } else {
      var last := |env| - 1;
      RunSplits(start, env, last);
      var r := Exec(start, env[..last]);
      RunInv(workers, nextWorker, sessions, env[..last]);
      assert env[last..] == [env[last]];
      OneAnswer(r, env[last]);
      UncollectedIff(r, env[last], |workers|, multiset(sessions));
    }
  }

  lemma OneAnswer(r: Run, reply: Reply)
    requires ValidRun(r, [reply])
    ensures Applies(r, reply) && Exec(r, [reply]) == Step(r, reply)
  {
    hide Step, Applies;
    assert [reply][1..] == [];
  }

  // ---- a run that leaves a call behind ----

  function Refusals(n: nat): seq<Reply> {
    if n == 0 then [] else [Raised] + Refusals(n - 1)
  }

  /** The queue `q` after its first `k` jobs went to the end. */
  function Rotated(q: seq<Job>, k: nat): seq<Job>
    requires k <= |q|
  {
    q[k..] + q[..k]
  }

  ghost predicate DistinctJobs(q: seq<Job>) {
    forall i, j | 0 <= i < j < |q| :: q[i].session != q[j].session
  }

  lemma RotateOne(q: seq<Job>, k: nat)
    requires k < |q|
    ensures Rotated(q, k) != [] && Rotated(q, k)[0] == q[k]
    ensures Rotated(q, k)[1..] + [Rotated(q, k)[0]] == Rotated(q, k + 1)
  {}

  /** One refusal of the first fill. */
  lemma FillRefused(r: Run, q: seq<Job>, k: nat, size: nat, all: multiset<Session>)
    requires Inv(r, size, all) && r.phase.Filling? && r.phase.i == k && |r.phase.snapshot| == size
    requires k < |q| && r.pending == Rotated(q, k) && r.active == [] && r.counts == map[] && r.consecutive == k
    ensures Applies(r, Raised)
    ensures var r' := Step(r, Raised);
            && Inv(r', size, all) && r'.pending == Rotated(q, k + 1) && r'.active == [] && r'.counts == map[] && r'.consecutive == k + 1
            && (if k + 1 < size then r'.phase == Filling(k + 1, r.phase.snapshot) else r'.phase == Sweeping(0, r'.pool))
  {
    hide Core, Fresh, Exact, Strict, PhaseOk, IdleFrom, IndexOf, Rotated;
    FillingFacts(r, size, all);
    RotateOne(q, k);
    FilledPool(r, size, all);
    assert Applies(r, Raised);
    FillRaised(r, k, r.phase.snapshot, size, all);
    OnFillKeeps(r, Raised, size, all);
    IdleHead(r, k, r.phase.snapshot);
    RotatedSize(q, k + 1);
  }

  lemma RotatedSize(q: seq<Job>, k: nat)
    requires k <= |q|
    ensures |Rotated(q, k)| == |q|
  {}

  lemma FilledPool(r: Run, size: nat, all: multiset<Session>)
    requires Inv(r, size, all)
    ensures |r.pool| == size
  {
    hide BooksOk, RetriesOk, LedgerOk, PhaseOk;
  }

  lemma {:induction false} FillAllRefused(r: Run, q: seq<Job>, k: nat, size: nat, all: multiset<Session>)
    requires Inv(r, size, all) && r.phase.Filling? && r.phase.i == k && |r.phase.snapshot| == size
    requires k < size <= |q| && r.pending == Rotated(q, k) && r.active == [] && r.counts == map[] && r.consecutive == k
    ensures ValidRun(r, Refusals(size - k))
    ensures var r' := Exec(r, Refusals(size - k));
            && Inv(r', size, all) && r'.pending == Rotated(q, size) && r'.active == [] && r'.counts == map[] && r'.consecutive == size
            && r'.phase == Sweeping(0, r'.pool)
    decreases size - k
  {
    hide Inv, Step, Applies, Rotated;
    FillRefused(r, q, k, size, all);
    var r' := Step(r, Raised);
    assert Refusals(size - k) == [Raised] + Refusals(size - k - 1);
    if k + 1 < size { FillAllRefused(r', q, k + 1, size, all); } else { EmptyRun(r'); }
    RunCons(r, Raised, Refusals(size - k - 1));
  }

  /** Sessions that wait for their turn have failed at most `c` times, all others at most once more. */
  ghost predicate FailedAtMost(counts: map<Session, nat>, q: seq<Job>, k: nat, c: nat) {
    && (forall s :: Count(counts, s) <= c + 1)
    && (forall j | k <= j < |q| :: Count(counts, q[j].session) <= c)
  }

  lemma FailedOneMore(counts: map<Session, nat>, q: seq<Job>, k: nat, c: nat)
    requires FailedAtMost(counts, q, k, c) && DistinctJobs(q) && k < |q|
    ensures FailedAtMost(Bump(counts, q[k].session), q, k + 1, c)
  {
    hide Bump, Count;
    Bumped(counts, q[k].session);
  }

  lemma NothingDropped(r: Run)
    requires forall s :: Count(r.counts, s) < MAX_SESSION_RETRIES
    ensures DropExceeded(r) == r
  {
    AllRetained(r.counts, r.pending);
    assert Exceeded(r) == {} by {
      forall s | s in r.counts ensures r.counts[s] < MAX_SESSION_RETRIES { assert Count(r.counts, s) < MAX_SESSION_RETRIES; }
    }
    assert Sids(r.pending) - Sids(r.pending) == multiset{};
    assert r.failed + multiset({}) == r.failed;
  }

  lemma {:induction false} AllRetained(counts: map<Session, nat>, js: seq<Job>)
    requires forall s :: Count(counts, s) < MAX_SESSION_RETRIES
    ensures Retained(counts, js) == js
  {
    hide Count;
    if js != [] { AllRetained(counts, js[1..]); }
  }

  /** One refusal of a sweep; `on` says that the sweep goes on. */
  lemma SweepRefused(r: Run, q: seq<Job>, k: nat, c: nat, size: nat, all: multiset<Session>)
    requires Inv(r, size, all) && r.phase.Sweeping? && |r.phase.snapshot| == size && r.consecutive + 1 < 3 * size
    requires k < |q| && DistinctJobs(q) && r.pending == Rotated(q, k) && FailedAtMost(r.counts, q, k, c) && c <= 1
    ensures Applies(r, Raised)
    ensures var r' := Step(r, Raised); var i := r.phase.i + 1;
            && Inv(r', size, all) && r'.pending == Rotated(q, k + 1) && r'.active == r.active
            && FailedAtMost(r'.counts, q, k + 1, c) && r'.consecutive == r.consecutive + 1
            && (if i < size then r'.phase == Sweeping(i, r.phase.snapshot)
                else if r.active == [] then r'.phase == Sweeping(0, r'.pool) else r'.phase == Waiting)
  {
    hide Core, Fresh, Exact, Strict, PhaseOk, IdleFrom, IndexOf, Rotated, Bump, Count, DropExceeded, Inv;
    SweepingFacts(r, size, all);
    RotateOne(q, k);
    RotatedSize(q, k + 1);
    assert Applies(r, Raised);
    OnSweepKeeps(r, Raised, size, all);
    IdleHead(r, r.phase.i, r.phase.snapshot);
    FailedOneMore(r.counts, q, k, c);
    var x := CountFailure(Rebuild(Requeue(CountRaise(r)), r.phase.snapshot[r.phase.i]), q[k].session);
    assert x.counts == Bump(r.counts, q[k].session);
    NothingDropped(x);
  }

  lemma {:induction false} SweepAllRefused(r: Run, q: seq<Job>, k: nat, c: nat, n: nat, size: nat, all: multiset<Session>)
    requires Inv(r, size, all) && r.phase.Sweeping? && |r.phase.snapshot| == size && r.consecutive + n < 3 * size
    requires r.phase.i + n == size && 0 < n && k + n <= |q| && DistinctJobs(q) && r.pending == Rotated(q, k)
    requires FailedAtMost(r.counts, q, k, c) && c <= 1
    ensures ValidRun(r, Refusals(n))
    ensures var r' := Exec(r, Refusals(n));
            && Inv(r', size, all) && r'.pending == Rotated(q, k + n) && r'.active == r.active
            && (forall s :: Count(r'.counts, s) <= c + 1) && r'.consecutive == r.consecutive + n
            && (if r.active == [] then r'.phase == Sweeping(0, r'.pool) else r'.phase == Waiting)
    decreases n
  {
    hide Inv, Step, Applies, Rotated, Count;
    SweepRefused(r, q, k, c, size, all);
    var r' := Step(r, Raised);
    assert Refusals(n) == [Raised] + Refusals(n - 1);
    if n > 1 { SweepAllRefused(r', q, k + 1, c, n - 1, size, all); } else { EmptyRun(r'); }
    RunCons(r, Raised, Refusals(n - 1));
  }

  /** The first submission of a sweep is accepted and sessions are left. */
  lemma SweepTakesOne(r: Run, size: nat, all: multiset<Session>)
    requires Inv(r, size, all) && r.phase == Sweeping(0, r.pool) && 2 <= size && r.active == [] && 2 <= |r.pending|
    ensures Applies(r, Accepted)
    ensures var r' := Step(r, Accepted);
            && Inv(r', size, all) && r'.phase == Sweeping(1, r.pool) && r'.pending == r.pending[1..] && |r'.active| == 1
            && r'.counts == r.counts && r'.consecutive == r.consecutive && |r'.pool| == size && |r.pool| == size
  {
    hide Core, Fresh, Exact, Strict, PhaseOk, Inv, IdleFrom, Bump, AfterSweep;
    SweepingFacts(r, size, all);
    assert Applies(r, Accepted);
    OnSweepKeeps(r, Accepted, size, all);
  }

  /** The one active call ends with an exception, and the next sweep begins. */
  lemma BrokenThenSweep(r: Run, size: nat, all: multiset<Session>)
    requires Inv(r, size, all) && r.phase == Waiting && |r.active| == 1 && r.pending != [] && r.consecutive < 3 * size
    ensures Applies(r, Completed(0, Broken))
    ensures var r' := Step(r, Completed(0, Broken));
            && Inv(r', size, all) && r'.phase == Sweeping(0, r'.pool) && r'.pending == r.pending && r'.active == []
            && r'.consecutive == r.consecutive
  {
    hide Core, Fresh, Exact, Strict, PhaseOk, Inv, OnDeath, Finish;
    FilledPool(r, size, all);
    assert Applies(r, Completed(0, Broken));
    OnBrokenKeeps(r, 0, size, all);
    assert Collect(r, 0).active == [];
  }

  /** The refusal that reaches the limit ends the run with the accepted call still active. */
  lemma LimitLeavesCall(r: Run, size: nat, all: multiset<Session>)
    requires Inv(r, size, all) && r.phase.Sweeping? && r.active != [] && r.consecutive + 1 == 3 * size
    ensures Applies(r, Raised)
    ensures Step(r, Raised).phase.Finished? && Step(r, Raised).active != []
  {
    hide Core, Fresh, Exact, Strict, PhaseOk, Inv, IdleFrom, IndexOf, FailPending;
    SweepingFacts(r, size, all);
    assert Applies(r, Raised);
    var r1 := Requeue(CountRaise(r));
    FinishActive(r1.(ledger := r1.ledger.(aborts := r1.ledger.aborts + 1)));
  }

  /** One session more than there are workers. */
  function Names(n: nat): seq<Session> {
    seq(n, i requires 0 <= i < n => Id(seq(i, _ => 'x')))
  }

  lemma NamesDistinct(n: nat)
    ensures |Names(n)| == n && Distinct(Names(n)) && DistinctJobs(Enumerate(Names(n))) && |Enumerate(Names(n))| == n
  {
    forall i, j | 0 <= i < j < n ensures Names(n)[i] != Names(n)[j] {
      assert |Names(n)[i].name| == i && |Names(n)[j].name| == j;
    }
  }

  lemma RotatedDistinct(q: seq<Job>, k: nat)
    requires DistinctJobs(q) && k <= |q|
    ensures DistinctJobs(Rotated(q, k))
  {
    var p := Rotated(q, k);
    forall i, j | 0 <= i < j < |p| ensures p[i].session != p[j].session {
      var a := if i < |q| - k then k + i else i - (|q| - k);
      var b := if j < |q| - k then k + j else j - (|q| - k);
      assert p[i] == q[a] && p[j] == q[b] && a != b;
    }
  }

  /** Every submission of the first fill and of a sweep is refused; of the next sweep all but the first; the accepted
      call breaks; and in the last sweep one submission is accepted and one refused. */
  function Stranding(size: nat): seq<Reply>
    requires 2 <= size
  {
    Refusals(size) + (Refusals(size) + ([Accepted] + (Refusals(size - 1) + ([Completed(0, Broken)] + ([Accepted] + [Raised])))))
  }

  /** The last sweep. */
  lemma StrandsLast(r: Run, size: nat, all: multiset<Session>)
    requires Inv(r, size, all) && r.phase == Waiting && |r.active| == 1 && 2 <= |r.pending| && 2 <= size && r.consecutive + 1 == 3 * size
    ensures var env := [Completed(0, Broken)] + ([Accepted] + [Raised]);
            ValidRun(r, env) && Exec(r, env).phase.Finished? && Exec(r, env).active != []
  {
    hide Inv, Step, Applies;
    BrokenThenSweep(r, size, all);
    var r1 := Step(r, Completed(0, Broken));
    SweepTakesOne(r1, size, all);
    var r2 := Step(r1, Accepted);
    LimitLeavesCall(r2, size, all);
    EmptyRun(Step(r2, Raised));
    RunCons(r2, Raised, []);
    assert [Raised] + [] == [Raised];
    RunCons(r1, Accepted, [Raised]);
    RunCons(r, Completed(0, Broken), [Accepted] + [Raised]);
  }

  /** From the second sweep on. */
  lemma StrandsFromSweep(r: Run, size: nat, all: multiset<Session>)
    requires Inv(r, size, all) && r.phase == Sweeping(0, r.pool) && r.active == [] && |r.pending| == size + 1 && DistinctJobs(r.pending)
    requires 2 <= size && r.consecutive == 2 * size && forall s :: Count(r.counts, s) <= 1
    ensures var env := [Accepted] + (Refusals(size - 1) + ([Completed(0, Broken)] + ([Accepted] + [Raised])));
            ValidRun(r, env) && Exec(r, env).phase.Finished? && Exec(r, env).active != []
  {
    hide Inv, Step, Applies, Count, ValidRun, Exec;
    SweepTakesOne(r, size, all);
    var r1 := Step(r, Accepted);
    var q := r1.pending;
    assert Rotated(q, 0) == q;
    SweepAllRefused(r1, q, 0, 1, size - 1, size, all);
    var r2 := Exec(r1, Refusals(size - 1));
    RotatedSize(q, size - 1);
    StrandsLast(r2, size, all);
    RunAppend(r1, Refusals(size - 1), [Completed(0, Broken)] + ([Accepted] + [Raised]));
    RunCons(r, Accepted, Refusals(size - 1) + ([Completed(0, Broken)] + ([Accepted] + [Raised])));
  }

  /** For every pool of two or more workers there is a run that ends with a call nobody collects. */
  lemma CallIsLeftBehind(workers: seq<Worker>, nextWorker: Worker)
    requires Distinct(workers) && (forall w | w in workers :: w < nextWorker) && 2 <= |workers|
    ensures var sessions := Names(|workers| + 1); var env := Stranding(|workers|);
            Finishes(workers, nextWorker, sessions, env) && Exec(Start(workers, nextWorker, sessions), env).active != []
  {
    hide Inv, Strict, Start, Enumerate, Names, Count, ValidRun, Exec, DistinctJobs;
    var size, sessions := |workers|, Names(|workers| + 1);
    var q, all := Enumerate(sessions), multiset(sessions);
    NamesDistinct(size + 1);
    StartInv(workers, nextWorker, sessions);
    var r := Start(workers, nextWorker, sessions);
    StartFills(workers, nextWorker, sessions);
    assert Rotated(q, 0) == q;
    FillAllRefused(r, q, 0, size, all);
    var r1 := Exec(r, Refusals(size));
    FilledPool(r1, size, all);
    var q1 := r1.pending;
    RotatedDistinct(q, size);
    RotatedSize(q, size);
    assert Rotated(q1, 0) == q1;
    NoFailures(q1);
    SweepAllRefused(r1, q1, 0, 0, size, size, all);
    var r2 := Exec(r1, Refusals(size));
    RotatedDistinct(q1, size);
    RotatedSize(q1, size);
    StrandsFromSweep(r2, size, all);
    var env := [Accepted] + (Refusals(size - 1) + ([Completed(0, Broken)] + ([Accepted] + [Raised])));
    RunAppend(r1, Refusals(size), env);
    RunAppend(r, Refusals(size), Refusals(size) + env);
  }

  lemma NoFailures(q: seq<Job>)
    ensures FailedAtMost(map[], q, 0, 0)
  {}

  lemma StartFills(workers: seq<Worker>, nextWorker: Worker, sessions: seq<Session>)
    requires workers != [] && sessions != []
    ensures var r := Start(workers, nextWorker, sessions);
            && r.phase == Filling(0, workers) && r.pending == Enumerate(sessions) && r.active == [] && r.counts == map[] && r.consecutive == 0
  {
    hide LoopHead;
    assert |Enumerate(sessions)| == |sessions|;
  }

  /** Calls can be left behind exactly if there are two or more workers. */
  lemma LeftBehindIff(workers: seq<Worker>, nextWorker: Worker)
    requires Distinct(workers) && forall w | w in workers :: w < nextWorker
    ensures (exists sessions, env :: Finishes(workers, nextWorker, sessions, env) && Exec(Start(workers, nextWorker, sessions), env).active != [])
            <==> 2 <= |workers|
  {
    hide Start, Exec, ValidRun, TameRun, Callable, Names, Stranding;
    if 2 <= |workers| {
      CallIsLeftBehind(workers, nextWorker);
    } else {
      forall sessions, env | Finishes(workers, nextWorker, sessions, env)
        ensures Exec(Start(workers, nextWorker, sessions), env).active == []
      {
        SmallPoolIsTame(Start(workers, nextWorker, sessions), env, |workers|);
        FinishedPartition(workers, nextWorker, sessions, env);
      }
    }
  }

  // ---- when the partition fails ----

  /** Two deaths of the only session leave it one failure from the cap; the sweep then has its submission to the
      first worker refused and to the second accepted, so the session is recorded as failed while it runs. */
  const REFUSED_IN_A_SWEEP: seq<Reply> :=
    [Accepted, Completed(0, Died), Accepted, Completed(0, Died), Raised, Accepted, Completed(0, Archived)]

  /** A run with one session, which is waiting (`r.pending`) or with a worker. */
  predicate Solo(r: Run, job: Job, waits: bool) {
    && 2 <= |r.pool| && r.consecutive + 1 < Limit(r) && r.done == []
    && r.pending == (if waits then [job] else [])
    && (if waits then r.active == [] else |r.active| == 1 && r.active[0].job == job && r.active[0].worker in r.pool && r.phase == Waiting)
  }

  lemma SoloStart(workers: seq<Worker>, nextWorker: Worker, s: Session)
    requires 2 <= |workers|
    ensures var r := Start(workers, nextWorker, [s]);
            && Solo(r, Job(0, s), true) && r.phase == Filling(0, workers) && r.pool == workers
            && r.counts == map[] && r.consecutive == 0 && r.failed == multiset{}
  {
    assert Enumerate([s]) == [Job(0, s)];
  }

  lemma SoloFill(r: Run, job: Job)
    requires Solo(r, job, true) && r.phase == Filling(0, r.pool)
    ensures var r' := Step(r, Accepted);
            Solo(r', job, false) && r'.counts == r.counts && r'.consecutive == r.consecutive && r'.failed == r.failed && r'.pool == r.pool
  {
    hide AfterSweep, DropExceeded, Finish, OnSweep, OnCompleted, OnRefill, Bump;
    assert r.pending[1..] == [];
  }

  lemma SoloDies(r: Run, job: Job)
    requires Solo(r, job, false) && r.consecutive + 2 < Limit(r) && Count(r.counts, job.session) + 1 < MAX_SESSION_RETRIES
    ensures Applies(r, Completed(0, Died))
    ensures var r' := Step(r, Completed(0, Died));
            && Solo(r', job, true) && r'.phase == Sweeping(0, r'.pool) && |r'.pool| == |r.pool|
            && r'.counts == Bump(r.counts, job.session) && r'.consecutive == r.consecutive + 1 && r'.failed == r.failed
  {
    hide AfterSweep, DropExceeded, Finish, OnSweep, OnRefill, OnFill, IndexOf, Bump, TasksOn;
    Bumped(r.counts, job.session);
    assert Collect(r, 0).active == [];
    assert r.pending + [job] == [job];
    assert TasksOn([], r.active[0].worker, true) == [] && TasksOn([], r.active[0].worker, false) == [] by { SoloTasks(r.active[0].worker); }
  }

  lemma SoloTasks(w: Worker)
    ensures TasksOn([], w, true) == [] && TasksOn([], w, false) == []
  {}

  lemma SoloSweep(r: Run, job: Job, i: nat, snapshot: seq<Worker>)
    requires Solo(r, job, true) && r.phase == Sweeping(i, snapshot) && i < |snapshot| && snapshot[i] in r.pool
    ensures var r' := Step(r, Accepted);
            && Solo(r', job, false) && r'.counts == r.counts && r'.consecutive == r.consecutive && r'.pool == r.pool
            && r'.failed == r.failed + multiset(Exceeded(r))
  {
    hide Finish, OnCompleted, OnRefill, OnFill, Bump, Count;
    assert r.pending[1..] == [];
    assert Retained(r.counts, []) == [];
  }

  lemma SoloRefused(r: Run, job: Job)
    requires Solo(r, job, true) && r.phase == Sweeping(0, r.pool) && r.consecutive + 2 < Limit(r)
    ensures var r' := Step(r, Raised);
            && Solo(r', job, true) && r'.phase == Sweeping(1, r.pool) && |r'.pool| == |r.pool| && r'.pool[1] == r.pool[1]
            && r'.counts == Bump(r.counts, job.session) && r'.consecutive == r.consecutive + 1 && r'.failed == r.failed
  {
    hide Finish, OnCompleted, OnRefill, OnFill, Bump, LoopHead, AfterSweep;
    assert r.pending[1..] + [r.pending[0]] == [job];
    assert IndexOf(r.pool, r.pool[0]) == 0;
  }

  lemma SoloArchived(r: Run, job: Job)
    requires Solo(r, job, false)
    ensures Applies(r, Completed(0, Archived))
    ensures var r' := Step(r, Completed(0, Archived));
            r'.phase.Finished? && r'.done == [job.session] && r'.failed == r.failed
  {
    hide OnRefill, OnFill, OnSweep, OnDeath;
    assert Collect(r, 0).active == [];
  }

  lemma AtTheCap(r: Run, s: Session)
    requires Count(r.counts, s) >= MAX_SESSION_RETRIES && s !in r.failed
    ensures s in Exceeded(r)
  {}

  lemma RunCons(r: Run, reply: Reply, rest: seq<Reply>)
    requires Applies(r, reply) && ValidRun(Step(r, reply), rest)
    ensures ValidRun(r, [reply] + rest) && Exec(r, [reply] + rest) == Exec(Step(r, reply), rest)
  {
    hide Step, Applies;
    assert ([reply] + rest)[1..] == rest;
  }

  /** With two or more workers the partition fails for every single session. */
  lemma RefusedSweepCountsTwice(workers: seq<Worker>, nextWorker: Worker, s: Session)
    requires 2 <= |workers|
    ensures var r := Start(workers, nextWorker, [s]);
            && ValidRun(r, REFUSED_IN_A_SWEEP)
            && Exec(r, REFUSED_IN_A_SWEEP).phase.Finished? && Exec(r, REFUSED_IN_A_SWEEP).done == [s]
            && s in Exec(r, REFUSED_IN_A_SWEEP).failed
  {
    hide Start, Step, Exceeded, Bump, Exec, ValidRun;
    var r0, job := Start(workers, nextWorker, [s]), Job(0, s);
    SoloStart(workers, nextWorker, s);
    SoloFill(r0, job);
    var r1 := Step(r0, Accepted);
    Bumped(r1.counts, s);
    SoloDies(r1, job);
    var r2 := Step(r1, Completed(0, Died));
    SoloSweep(r2, job, 0, r2.pool);
    var r3 := Step(r2, Accepted);
    BumpedKeys(r1.counts, s);
    NoneExceeded(r2, s);
    Bumped(r3.counts, s);
    SoloDies(r3, job);
    var r4 := Step(r3, Completed(0, Died));
    Bumped(r4.counts, s);
    SoloRefused(r4, job);
    var r5 := Step(r4, Raised);
    SoloSweep(r5, job, 1, r4.pool);
    AtTheCap(r5, s);
    var r6 := Step(r5, Accepted);
    SoloArchived(r6, job);
    var r7 := Step(r6, Completed(0, Archived));
    EmptyRun(r7);
    Suffixes();
    RunCons(r6, Completed(0, Archived), REFUSED_IN_A_SWEEP[7..]);
    RunCons(r5, Accepted, REFUSED_IN_A_SWEEP[6..]);
    RunCons(r4, Raised, REFUSED_IN_A_SWEEP[5..]);
    RunCons(r3, Completed(0, Died), REFUSED_IN_A_SWEEP[4..]);
    RunCons(r2, Accepted, REFUSED_IN_A_SWEEP[3..]);
    RunCons(r1, Completed(0, Died), REFUSED_IN_A_SWEEP[2..]);
    RunCons(r0, Accepted, REFUSED_IN_A_SWEEP[1..]);
  }

  lemma EmptyRun(r: Run)
    ensures ValidRun(r, []) && Exec(r, []) == r
  {}

  lemma Suffixes()
    ensures forall i | 0 <= i < 7 :: [REFUSED_IN_A_SWEEP[i]] + REFUSED_IN_A_SWEEP[i + 1..] == REFUSED_IN_A_SWEEP[i..]
    ensures REFUSED_IN_A_SWEEP[7..] == [] && REFUSED_IN_A_SWEEP[0..] == REFUSED_IN_A_SWEEP
  {}

  lemma BumpedKeys(m: map<Session, nat>, s: Session)
    ensures Bump(m, s).Keys == m.Keys + {s}
  {}

  lemma NoneExceeded(r: Run, s: Session)
    requires r.counts.Keys <= {s} && Count(r.counts, s) < MAX_SESSION_RETRIES
    ensures Exceeded(r) == {}
  {}

  lemma {:induction false} SmallPoolIsTame(r: Run, env: seq<Reply>, size: nat)
    requires ValidRun(r, env) && size <= 1
    ensures TameRun(r, env, size)
    decreases |env|
  {
    hide Step, Applies;
    if env != [] { SmallPoolIsTame(Step(r, env[0]), env[1..], size); }
  }

  /** Every finished run, over all sessions and replies, leaves a partition exactly if there is at most one worker. */
  lemma PartitionIff(workers: seq<Worker>, nextWorker: Worker)
    requires Distinct(workers) && forall w | w in workers :: w < nextWorker
    ensures (forall sessions, env | Finishes(workers, nextWorker, sessions, env) ::
               Partitioned(Exec(Start(workers, nextWorker, sessions), env), sessions))
            <==> |workers| <= 1
  {
    hide Start, Exec, ValidRun, TameRun, Partitioned;
    if |workers| <= 1 {
      forall sessions, env | Finishes(workers, nextWorker, sessions, env)
        ensures Partitioned(Exec(Start(workers, nextWorker, sessions), env), sessions)
      {
        SmallPoolIsTame(Start(workers, nextWorker, sessions), env, |workers|);
        FinishedPartition(workers, nextWorker, sessions, env);
      }
    } else {
      RefusedSweepCountsTwice(workers, nextWorker, Null);
      assert Finishes(workers, nextWorker, [Null], REFUSED_IN_A_SWEEP);
      NotPartitioned(Exec(Start(workers, nextWorker, [Null]), REFUSED_IN_A_SWEEP), Null);
    }
  }

  ghost predicate Finishes(workers: seq<Worker>, nextWorker: Worker, sessions: seq<Session>, env: seq<Reply>) {
    && Callable(workers, nextWorker, sessions) && ValidRun(Start(workers, nextWorker, sessions), env)
    && Exec(Start(workers, nextWorker, sessions), env).phase.Finished?
  }

  lemma NotPartitioned(r: Run, s: Session)
    requires r.done == [s] && s in r.failed
    ensures !Partitioned(r, [s])
  {
    assert (multiset(r.done) + r.failed)[s] >= 2 && multiset([s])[s] == 1;
  }
}
