/** What a run of the dispatch loop has recorded, read off the answers it was given: a session is archived by a call
    that returned, given up for a reason, and counted as often as it failed. */
module ArchiveHistory {
  import opened ArchiveDispatch

  // ---- one answer ----

  /** The session whose call an answer collects with this outcome. */
  function Collected(r: Run, reply: Reply, outcome: Outcome): seq<Session> {
    if r.phase.Waiting? && reply.Completed? && reply.k < |r.active| && reply.outcome == outcome then [r.active[reply.k].job.session] else []
  }

  /** The answer says that a worker is dead. */
  predicate IsFailure(r: Run, reply: Reply) {
    reply.Raised? || Collected(r, reply, Died) != []
  }

  /** The session that the failure counts against: none while the workers get their first sessions, and none for the
      refusal that ends a sweep. */
  function Blamed(r: Run, reply: Reply): seq<Session> {
    if r.phase.Waiting? then Collected(r, reply, Died)
    else if reply.Raised? && !r.phase.Filling? && r.pending != [] && r.consecutive + 1 < Limit(r) then [r.pending[0].session]
    else []
  }

  function FailedWorker(r: Run, reply: Reply): Worker
    requires Applies(r, reply) && IsFailure(r, reply)
  {
    match r.phase
    case Filling(i, snapshot) => snapshot[i]
    case Sweeping(i, snapshot) => snapshot[i]
    case Refilling(w) => w
    case Waiting => r.active[reply.k].worker
  }

  /** Failures in a row, after this answer. */
  function InARow(n: nat, r: Run, reply: Reply): nat {
    if Collected(r, reply, Archived) != [] then 0 else if IsFailure(r, reply) then n + 1 else n
  }

  // ---- what the moves leave alone ----

  ghost predicate SameRecord(r: Run, r': Run) {
    r'.done == r.done && r'.counts == r.counts && r'.consecutive == r.consecutive && r'.pool == r.pool
  }

  ghost predicate SameGone(r: Run, r': Run) {
    r.ledger.gone <= r'.ledger.gone && (r'.consecutive < Limit(r') ==> r'.ledger.gone == r.ledger.gone)
  }

  lemma {:induction false} FailPendingRecord(r: Run)
    ensures SameRecord(r, FailPending(r)) && r.ledger.gone <= FailPending(r).ledger.gone
    decreases |r.pending|
  {
    if r.pending != [] {
      var s := r.pending[0].session;
      var rest := r.(pending := r.pending[1..]);
      FailPendingRecord(if s in r.failed then rest.(ledger := r.ledger.(gone := r.ledger.gone + multiset{s})) else GiveUp(rest, s));
    }
  }

  lemma FinishRecord(r: Run)
    ensures SameRecord(r, Finish(r)) && SameGone(r, Finish(r))
  {
    hide FailPending;
    FailPendingRecord(r);
    FailPendingRecord(FailPending(r));
  }

  lemma LoopHeadRecord(r: Run)
    ensures SameRecord(r, LoopHead(r)) && SameGone(r, LoopHead(r))
  {
    hide Finish;
    FinishRecord(r);
  }

  /** The filter gives up sessions at the cap. */
  lemma DropRecord(r: Run)
    ensures SameRecord(r, DropExceeded(r)) && r.ledger.gone <= DropExceeded(r).ledger.gone
    ensures forall s | Count(r.counts, s) < MAX_SESSION_RETRIES :: DropExceeded(r).ledger.gone[s] == r.ledger.gone[s]
  {
    RetainedCounts(r.counts, r.pending);
    hide Sids, Retained, Exceeded, Count;
  }

  lemma NextSweepRecord(r: Run, i: nat, snapshot: seq<Worker>)
    requires r.consecutive < Limit(r) && !r.phase.Crashed?
    ensures var r' := NextSweep(r, i, snapshot);
            && SameRecord(r, r') && r.ledger.gone <= r'.ledger.gone
            && forall s | Count(r.counts, s) < MAX_SESSION_RETRIES :: r'.ledger.gone[s] == r.ledger.gone[s]
  {
    hide LoopHead, DropExceeded, Count;
    DropRecord(r);
    LoopHeadRecord(DropExceeded(r));
  }

  // ---- one answer, recorded ----

  /** Why a session is given up. */
  ghost predicate Deserved(r: Run, reply: Reply, r': Run, s: Session) {
    Collected(r, reply, Broken) == [s] || Count(r'.counts, s) >= MAX_SESSION_RETRIES || r'.consecutive >= Limit(r')
  }

  ghost predicate Recorded(r: Run, reply: Reply, r': Run) {
    && r'.done == r.done + Collected(r, reply, Archived)
    && (forall s :: Count(r'.counts, s) == Count(r.counts, s) + if Blamed(r, reply) == [s] then 1 else 0)
    && r'.consecutive == InARow(r.consecutive, r, reply)
    && r.ledger.gone <= r'.ledger.gone
    && (forall s | s in Collected(r, reply, Broken) :: s in r'.ledger.gone)
    && (forall s | r'.ledger.gone[s] > r.ledger.gone[s] :: Deserved(r, reply, r', s))
  }

  /** The dead worker leaves the pool and a new one takes its place, unless that was one failure too many. */
  ghost predicate Replaced(r: Run, reply: Reply, r': Run)
    requires Applies(r, reply)
  {
    if IsFailure(r, reply) && r.consecutive + 1 < Limit(r) then
      && FailedWorker(r, reply) !in r'.pool && r.nextWorker in r'.pool && |r'.pool| == |r.pool|
      && forall w | w in r.pool && w != FailedWorker(r, reply) :: w in r'.pool
    else r'.pool == r.pool
  }

  lemma RebuiltPool(r: Run, w: Worker, size: nat)
    requires PoolOk(r, size) && w in r.pool && w !in WorkersOf(r.active)
    ensures var r' := Rebuild(r, w);
            && w !in r'.pool && r.nextWorker in r'.pool && |r'.pool| == |r.pool| && forall v | v in r.pool && v != w :: v in r'.pool
    ensures var r' := Rebuild(r, w); r' == r.(pool := r'.pool, nextWorker := r'.nextWorker, ledger := r'.ledger) && r'.ledger.gone == r.ledger.gone
  {
    hide WorkersOf;
    var i, r' := IndexOf(r.pool, w), Rebuild(r, w);
    assert r'.pool[i] == r.nextWorker;
    forall j | 0 <= j < |r.pool| ensures r'.pool[j] != w { if j != i { assert r.pool[j] != r.pool[i]; } }
    forall v | v in r.pool && v != w ensures v in r'.pool {
      var j :| 0 <= j < |r.pool| && r.pool[j] == v;
      assert r'.pool[j] == v;
    }
  }

  lemma FillRecorded(r: Run, reply: Reply, size: nat, all: multiset<Session>)
    requires Inv(r, size, all) && r.phase.Filling? && Applies(r, reply)
    ensures Recorded(r, reply, OnFill(r, reply)) && Replaced(r, reply, OnFill(r, reply))
  {
    hide Core, Fresh, Exact, Strict, PhaseOk, IdleFrom, Inv, AbortFill, LoopHead, Rebuild, WorkersOf, Bump, Count;
    FillingFacts(r, size, all);
    FillNeverAborts(r, size, all);
    CorePool(r, size, all);
    var i, snapshot := r.phase.i, r.phase.snapshot;
    IdleHead(r, i, snapshot);
    var r1 := Requeue(CountRaise(r));
    RebuiltPool(r1, snapshot[i], size);
    LoopHeadRecord(Submit(r, snapshot[i]));
    LoopHeadRecord(Rebuild(r1, snapshot[i]));
  }

  lemma SweepRecorded(r: Run, reply: Reply, size: nat, all: multiset<Session>)
    requires Inv(r, size, all) && r.phase.Sweeping? && Applies(r, reply)
    ensures Recorded(r, reply, OnSweep(r, reply)) && Replaced(r, reply, OnSweep(r, reply))
  {
    hide Core, Fresh, Exact, Strict, PhaseOk, IdleFrom, Inv, NextSweep, Finish, LoopHead, DropExceeded, Rebuild, WorkersOf, Bump, Count;
    SweepingFacts(r, size, all);
    CorePool(r, size, all);
    var i, snapshot, s := r.phase.i, r.phase.snapshot, r.pending[0].session;
    IdleHead(r, i, snapshot);
    Bumped(r.counts, s);
    var r1 := Requeue(CountRaise(r));
    if reply.Accepted? {
      NextSweepRecord(Submit(r, snapshot[i]), i + 1, snapshot);
    } else if r1.consecutive >= Limit(r1) {
      FinishRecord(r1.(ledger := r1.ledger.(aborts := r1.ledger.aborts + 1)));
    } else {
      RebuiltPool(r1, snapshot[i], size);
      NextSweepRecord(CountFailure(Rebuild(r1, snapshot[i]), s), i + 1, snapshot);
    }
  }

  /** The record of a refused session that is tried again or given up. */
  lemma RetryRecord(r: Run, w: Worker, job: Job, size: nat)
    requires PoolOk(r, size) && w in r.pool && w !in WorkersOf(r.active)
    ensures var r' := RetryOrGiveUp(CountFailure(Rebuild(r, w), job.session), job); var s := job.session;
            && r'.done == r.done && r'.counts == Bump(r.counts, s) && r'.consecutive == r.consecutive
            && (r'.ledger.gone == r.ledger.gone
                || (r'.ledger.gone == r.ledger.gone + multiset{s} && Count(r'.counts, s) >= MAX_SESSION_RETRIES))
            && w !in r'.pool && r.nextWorker in r'.pool && |r'.pool| == |r.pool| && forall v | v in r.pool && v != w :: v in r'.pool
  {
    hide WorkersOf, Bump, Count, Rebuild, PoolOk;
    RebuiltPool(r, w, size);
  }

  lemma RefillRecorded(r: Run, reply: Reply, size: nat, all: multiset<Session>)
    requires Inv(r, size, all) && r.phase.Refilling? && Applies(r, reply)
    ensures Recorded(r, reply, OnRefill(r, reply)) && Replaced(r, reply, OnRefill(r, reply))
  {
    hide Core, Fresh, Exact, Strict, PhaseOk, Inv, LoopHead, Rebuild, WorkersOf, Bump, Count, PoolOk, RetryOrGiveUp;
    RefillingFacts(r, size, all);
    CorePool(r, size, all);
    var w, job := r.phase.worker, r.pending[0];
    Bumped(r.counts, job.session);
    if reply.Accepted? {
      LoopHeadRecord(Submit(r, w));
    } else {
      var r1 := CountRaise(r).(pending := r.pending[1..]);
      SamePoolOk(r, r1, size);
      RetryRecord(r1, w, job, size);
      LoopHeadRecord(RetryOrGiveUp(CountFailure(Rebuild(r1, w), job.session), job));
    }
  }

  /** The record of a death, before the head of the loop. */
  lemma LoneDeathRecord(r: Run, task: Task, size: nat)
    requires PoolOk(r, size) && task.worker in r.pool && task.worker !in WorkersOf(r.active)
    ensures var r' := OnLoneDeath(r, task); var s := task.job.session;
            && r'.done == r.done && r'.counts == Bump(r.counts, s) && r'.consecutive == r.consecutive + 1
            && (r'.ledger.gone == r.ledger.gone
                || (r'.ledger.gone == r.ledger.gone + multiset{s} && (r'.consecutive >= Limit(r') || Count(r'.counts, s) >= MAX_SESSION_RETRIES)))
            && (if r.consecutive + 1 < Limit(r) then
                  && task.worker !in r'.pool && r.nextWorker in r'.pool && |r'.pool| == |r.pool|
                  && forall v | v in r.pool && v != task.worker :: v in r'.pool
                else r'.pool == r.pool)
  {
    hide WorkersOf, Bump, Count, Rebuild, PoolOk;
    var r1 := CountFailure(r.(consecutive := r.consecutive + 1), task.job.session);
    SamePoolOk(r, r1, size);
    RebuiltPool(r1, task.worker, size);
  }

  /** From the record before the head of the loop to the record of the answer. */
  lemma DeathIsRecorded(r: Run, k: nat, q: Run, r': Run)
    requires r.phase.Waiting? && k < |r.active| && SameRecord(q, r') && SameGone(q, r')
    requires var task := r.active[k]; var s := task.job.session;
             && q.done == r.done && q.counts == Bump(r.counts, s) && q.consecutive == r.consecutive + 1
             && (q.ledger.gone == r.ledger.gone
                 || (q.ledger.gone == r.ledger.gone + multiset{s} && (q.consecutive >= Limit(q) || Count(q.counts, s) >= MAX_SESSION_RETRIES)))
             && (if r.consecutive + 1 < Limit(r) then
                   && task.worker !in q.pool && r.nextWorker in q.pool && |q.pool| == |r.pool|
                   && forall v | v in r.pool && v != task.worker :: v in q.pool
                 else q.pool == r.pool)
    ensures Recorded(r, Completed(k, Died), r') && Replaced(r, Completed(k, Died), r')
  {
    hide Bump, Count;
    Bumped(r.counts, r.active[k].job.session);
  }

  lemma DeathRecorded(r: Run, k: nat, size: nat, all: multiset<Session>)
    requires Inv(r, size, all) && r.phase.Waiting? && k < |r.active|
    ensures Recorded(r, Completed(k, Died), OnCompleted(r, k, Died)) && Replaced(r, Completed(k, Died), OnCompleted(r, k, Died))
  {
    hide Inv, Core, Strict, Exact, Fresh, LoopHead, WorkersOf, Bump, Count, PoolOk, OnDeath, OnLoneDeath, Recorded, Replaced, SameRecord, SameGone;
    WaitingFacts(r, size, all);
    CancelLoopsNeverFire(r, k, size, all);
    CollectPool(r, k, size, all);
    var task, r1 := r.active[k], Collect(r, k);
    LoneDeathRecord(r1, task, size);
    LoopHeadRecord(OnLoneDeath(r1, task));
    DeathIsRecorded(r, k, OnLoneDeath(r1, task), LoopHead(OnLoneDeath(r1, task)));
  }

  lemma SamePoolOk(r: Run, r': Run, size: nat)
    requires PoolOk(r, size) && r'.pool == r.pool && r'.nextWorker == r.nextWorker && r'.active == r.active
    ensures PoolOk(r', size)
  {}

  lemma ArchivedRecorded(r: Run, k: nat)
    requires r.phase.Waiting? && k < |r.active|
    ensures Recorded(r, Completed(k, Archived), OnCompleted(r, k, Archived)) && OnCompleted(r, k, Archived).pool == r.pool
  {
    hide LoopHead, Count;
    LoopHeadRecord(Succeed(Collect(r, k), r.active[k].job.session));
  }

  lemma BrokenRecorded(r: Run, k: nat)
    requires r.phase.Waiting? && k < |r.active|
    ensures Recorded(r, Completed(k, Broken), OnCompleted(r, k, Broken)) && OnCompleted(r, k, Broken).pool == r.pool
  {
    hide LoopHead, Count;
    LoopHeadRecord(GiveUp(Collect(r, k), r.active[k].job.session));
  }

  lemma WaitRecorded(r: Run, reply: Reply, size: nat, all: multiset<Session>)
    requires Inv(r, size, all) && r.phase.Waiting? && Applies(r, reply)
    ensures Recorded(r, reply, Step(r, reply)) && Replaced(r, reply, Step(r, reply))
  {
    hide Inv, LoopHead, OnCompleted, Count;
    match reply
    case TimedOut => LoopHeadRecord(r);
    case Completed(k, outcome) =>
      match outcome {
        case Archived => ArchivedRecorded(r, k);
        case Died => DeathRecorded(r, k, size, all);
        case Broken => BrokenRecorded(r, k);
      }
  }

  /** Every answer is recorded as what it is. */
  lemma StepRecorded(r: Run, reply: Reply, size: nat, all: multiset<Session>)
    requires Inv(r, size, all) && Applies(r, reply)
    ensures Recorded(r, reply, Step(r, reply)) && Replaced(r, reply, Step(r, reply))
  {
    hide Inv, Recorded, Replaced, OnFill, OnSweep, OnRefill, OnCompleted, LoopHead;
    match r.phase
    case Filling(_, _) => FillRecorded(r, reply, size, all);
    case Sweeping(_, _) => SweepRecorded(r, reply, size, all);
    case Refilling(_) => RefillRecorded(r, reply, size, all);
    case Waiting => WaitRecorded(r, reply, size, all);
  }

  // ---- whole runs ----

  /** The sessions whose calls were collected with this outcome, in the order of the answers. */
  function Sessions(r: Run, env: seq<Reply>, outcome: Outcome): seq<Session>
    requires ValidRun(r, env)
    decreases |env|
  {
    if env == [] then [] else Collected(r, env[0], outcome) + Sessions(Step(r, env[0]), env[1..], outcome)
  }

  /** How often a failure was counted against the session. */
  function Failures(r: Run, env: seq<Reply>, s: Session): nat
    requires ValidRun(r, env)
    decreases |env|
  {
    if env == [] then 0 else (if Blamed(r, env[0]) == [s] then 1 else 0) + Failures(Step(r, env[0]), env[1..], s)
  }

  /** The failures since the last success, `n` before this run. */
  function SinceSuccess(n: nat, r: Run, env: seq<Reply>): nat
    requires ValidRun(r, env)
    decreases |env|
  {
    if env == [] then n else SinceSuccess(InARow(n, r, env[0]), Step(r, env[0]), env[1..])
  }

  /** In some state the failures in a row have reached the limit. */
  ghost predicate ReachesLimit(r: Run, env: seq<Reply>)
    requires ValidRun(r, env)
    decreases |env|
  {
    r.consecutive >= Limit(r) || (env != [] && ReachesLimit(Step(r, env[0]), env[1..]))
  }

  lemma {:induction false} RunRecorded(r: Run, env: seq<Reply>, size: nat, all: multiset<Session>)
    requires Inv(r, size, all) && ValidRun(r, env)
    ensures var r' := Exec(r, env);
            && r'.done == r.done + Sessions(r, env, Archived)
            && (forall s :: Count(r'.counts, s) == Count(r.counts, s) + Failures(r, env, s))
            && r'.consecutive == SinceSuccess(r.consecutive, r, env)
            && r.ledger.gone <= r'.ledger.gone
            && (forall s | s in Sessions(r, env, Broken) :: s in r'.ledger.gone)
            && (forall s | r'.ledger.gone[s] > r.ledger.gone[s] ::
                  s in Sessions(r, env, Broken) || Count(r'.counts, s) >= MAX_SESSION_RETRIES || ReachesLimit(r, env))
    decreases |env|
  {
    hide Inv, Step, Applies, Collected, InARow, Blamed, Count, Limit, Replaced;
    if env != [] {
      var r1 := Step(r, env[0]);
      StepRecorded(r, env[0], size, all);
      StepKeepsInv(r, env[0], size, all);
      RunRecorded(r1, env[1..], size, all);
      assert r.done + (Collected(r, env[0], Archived) + Sessions(r1, env[1..], Archived)) == r1.done + Sessions(r1, env[1..], Archived);
      LimitNow(r1, env[1..]);
    }
  }

  // ---- archived sessions, in any state ----

  lemma {:induction false} SiblingsDone(r: Run, ts: seq<Task>)
    ensures FailSiblings(r, ts).done == r.done && RetrySiblings(r, ts).done == r.done
    decreases |ts|
  {
    hide Count, Bump;
    if ts != [] {
      SiblingsDone(GiveUp(r, ts[0].job.session), ts[1..]);
      SiblingsDone(RetryOrGiveUp(CountFailure(r, ts[0].job.session), ts[0].job), ts[1..]);
    }
  }

  lemma {:induction false} AbortFillDone(r: Run)
    ensures AbortFill(r).done == r.done
    decreases |r.pending|
  {
    if r.pending != [] {
      var s := r.pending[0].session;
      AbortFillDone(GiveUp(CountFailure(r.(pending := r.pending[1..]), s), s));
    }
  }

  lemma LoopHeadDone(r: Run)
    ensures LoopHead(r).done == r.done && AfterSweep(r).done == r.done
  {
    hide Finish, Exceeded, Retained, Sids;
    FinishRecord(r);
    FinishRecord(DropExceeded(r));
  }

  lemma SubmissionDone(r: Run, reply: Reply)
    requires Applies(r, reply) && !r.phase.Waiting?
    ensures Step(r, reply).done == r.done
  {
    hide LoopHead, AfterSweep, AbortFill, IndexOf, Bump, Count;
    var s := r.pending[0].session;
    var r1 := Requeue(CountRaise(r));
    var r2 := CountRaise(r).(pending := r.pending[1..]);
    match r.phase
    case Filling(i, snapshot) =>
      LoopHeadDone(Submit(r, snapshot[i]));
      LoopHeadDone(Rebuild(r1, snapshot[i]));
      AbortFillDone(r1);
      LoopHeadDone(AbortFill(r1));
    case Sweeping(i, snapshot) =>
      LoopHeadDone(Submit(r, snapshot[i]));
      LoopHeadDone(CountFailure(Rebuild(r1, snapshot[i]), s));
      LoopHeadDone(r1.(ledger := r1.ledger.(aborts := r1.ledger.aborts + 1)));
    case Refilling(w) =>
      LoopHeadDone(Submit(r, w));
      LoopHeadDone(GiveUp(r2, s));
      LoopHeadDone(RetryOrGiveUp(CountFailure(Rebuild(r2, w), s), r.pending[0]));
  }

  lemma DeathDone(r: Run, task: Task)
    ensures OnDeath(r, task).done == r.done
  {
    hide TasksOn, FailSiblings, RetrySiblings, IndexOf, Bump, Count;
    var s := task.job.session;
    var r1 := CountFailure(r.(consecutive := r.consecutive + 1), s);
    var others := TasksOn(r1.active, task.worker, false);
    SiblingsDone(GiveUp(r1, s).(active := others), TasksOn(r1.active, task.worker, true));
    SiblingsDone(RetryOrGiveUp(Rebuild(r1, task.worker), task.job).(active := others), TasksOn(r1.active, task.worker, true));
  }

  lemma CollectedDone(r: Run, reply: Reply)
    requires Applies(r, reply) && r.phase.Waiting?
    ensures Step(r, reply).done == r.done + Collected(r, reply, Archived)
  {
    hide LoopHead, OnDeath;
    LoopHeadDone(r);
    if reply.Completed? {
      var r1, task := Collect(r, reply.k), r.active[reply.k];
      LoopHeadDone(Succeed(r1, task.job.session));
      LoopHeadDone(GiveUp(r1, task.job.session));
      DeathDone(r1, task);
      LoopHeadDone(OnDeath(r1, task));
    }
  }

  /** From any state: what a run archives are the sessions of the answers with a result. */
  lemma {:induction false} RunDone(r: Run, env: seq<Reply>)
    requires ValidRun(r, env)
    ensures Exec(r, env).done == r.done + Sessions(r, env, Archived)
    decreases |env|
  {
    hide Step, Applies, Collected;
    if env != [] {
      OneDone(r, env[0]);
      RunDone(Step(r, env[0]), env[1..]);
    }
  }

  lemma OneDone(r: Run, reply: Reply)
    requires Applies(r, reply)
    ensures Step(r, reply).done == r.done + Collected(r, reply, Archived)
  {
    hide Step, Applies;
    if r.phase.Waiting? { CollectedDone(r, reply); } else { SubmissionDone(r, reply); }
  }

  lemma LimitNow(r: Run, env: seq<Reply>)
    requires ValidRun(r, env)
    ensures r.consecutive >= Limit(r) ==> ReachesLimit(r, env)
  {
    hide Limit;
  }

  lemma StartRecord(workers: seq<Worker>, nextWorker: Worker, sessions: seq<Session>)
    ensures var r := Start(workers, nextWorker, sessions);
            && r.done == [] && r.counts == map[] && r.consecutive == 0
            && (r.ledger.gone != multiset{} ==> r.consecutive >= Limit(r))
  {
    hide LoopHead, Enumerate;
    LoopHeadRecord(Initial(workers, nextWorker, sessions));
  }

  /** In every reachable state the archived sessions are those whose call was answered with a result, in that order; a
      session whose call raised is recorded as failed and never archived; the failure counts and the failures in a row
      are those of the answers. */
  lemma RecordIsHistory(workers: seq<Worker>, nextWorker: Worker, sessions: seq<Session>, env: seq<Reply>)
    requires Callable(workers, nextWorker, sessions) && ValidRun(Start(workers, nextWorker, sessions), env)
    ensures var start := Start(workers, nextWorker, sessions); var r := Exec(start, env);
            && r.done == Sessions(start, env, Archived)
            && (forall s | s in Sessions(start, env, Broken) :: s in r.failed && s !in r.done)
            && (forall s :: Count(r.counts, s) == Failures(start, env, s))
            && r.consecutive == SinceSuccess(0, start, env)
  {
    hide Start, Exec, ValidRun, Callable, Sessions, Failures, SinceSuccess, TameRun, Strict, ReachesLimit, Core;
    var start, all := Start(workers, nextWorker, sessions), multiset(sessions);
    StartInv(workers, nextWorker, sessions);
    RunInv(workers, nextWorker, sessions, env);
    RunRecorded(start, env, |workers|, all);
    StartRecord(workers, nextWorker, sessions);
    var r := Exec(start, env);
    assert [] + Sessions(start, env, Archived) == Sessions(start, env, Archived);
    forall s | s in Sessions(start, env, Broken) ensures s in r.failed && s !in r.done { GoneIsFailed(r, s, |workers|, all); }
  }

  lemma GoneIsFailed(r: Run, s: Session, size: nat, all: multiset<Session>)
    requires Inv(r, size, all) && s in r.ledger.gone
    ensures s in r.failed && s !in r.done
  {
    hide Sids, JobsOf, PoolOk, RetriesOk, LedgerOk, PhaseOk;
    var p, a := Sids(r.pending), Sids(JobsOf(r.active));
    assert all[s] == p[s] + a[s] + multiset(r.done)[s] + r.ledger.gone[s];
  }

  /** A session is given up only for a reason: its call raised, it failed three times, or the failures in a row of the
      whole run reached the limit. */
  lemma GivenUpOnlyFor(workers: seq<Worker>, nextWorker: Worker, sessions: seq<Session>, env: seq<Reply>, s: Session)
    requires Callable(workers, nextWorker, sessions) && ValidRun(Start(workers, nextWorker, sessions), env)
    requires s in Exec(Start(workers, nextWorker, sessions), env).ledger.gone
    ensures var start := Start(workers, nextWorker, sessions);
            s in Sessions(start, env, Broken) || Failures(start, env, s) >= MAX_SESSION_RETRIES || ReachesLimit(start, env)
  {
    hide Start, Exec, ValidRun, Callable, Sessions, Failures, SinceSuccess, ReachesLimit, Inv, Strict, Limit;
    var start := Start(workers, nextWorker, sessions);
    StartInv(workers, nextWorker, sessions);
    RunRecorded(start, env, |workers|, multiset(sessions));
    StartRecord(workers, nextWorker, sessions);
    LimitNow(start, env);
  }
}
