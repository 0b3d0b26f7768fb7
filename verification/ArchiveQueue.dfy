/** The order in which the dispatch loop hands out sessions: first come, first served, with a session that failed behind
    all that wait. */
module ArchiveQueue {
  import opened ArchiveDispatch
  import opened ArchiveHistory

  /** `queue` waits after the answer, in this order, but for sessions over the cap, which a sweep drops at its end, and
      unless the loop is over because the rebuild limit is reached. */
  ghost predicate Waits(queue: seq<Job>, r': Run) {
    r'.pending == queue || r'.pending == Retained(r'.counts, queue) || (r'.phase.Finished? && r'.pending == [] && r'.consecutive >= Limit(r'))
  }

  /** The worker that a submission is made to. */
  function Asked(r: Run, reply: Reply): Worker
    requires Applies(r, reply) && !r.phase.Waiting?
  {
    match r.phase
    case Filling(i, snapshot) => snapshot[i]
    case Sweeping(i, snapshot) => snapshot[i]
    case Refilling(w) => w
  }

  /** A failure of this session below both limits: it is tried again. */
  predicate TriedAgain(r: Run, s: Session) {
    r.consecutive + 1 < Limit(r) && Count(r.counts, s) + 1 < 3
  }

  /** What an answer does to the queue and to the calls. */
  ghost predicate Queued(r: Run, reply: Reply, r': Run)
    requires Applies(r, reply)
  {
    match reply
    case Accepted =>
      r'.active == r.active + [Task(Asked(r, reply), r.pending[0])] && Waits(r.pending[1..], r')
    case Raised =>
      && r'.active == r.active
      && var back := !r.phase.Refilling? || TriedAgain(r, r.pending[0].session);
         Waits(r.pending[1..] + if back then [r.pending[0]] else [], r')
    case TimedOut => r'.active == r.active && Waits(r.pending, r')
    case Completed(k, outcome) =>
      && r'.active == r.active[..k] + r.active[k + 1..]
      && var back := outcome.Died? && TriedAgain(r, r.active[k].job.session);
         Waits(r.pending + if back then [r.active[k].job] else [], r')
  }

  // ---- the moves ----

  lemma {:induction false} FailPendingQueue(r: Run)
    ensures FailPending(r).pending == [] && FailPending(r).active == r.active
    decreases |r.pending|
  {
    if r.pending != [] {
      var s := r.pending[0].session;
      var rest := r.(pending := r.pending[1..]);
      FailPendingQueue(if s in r.failed then rest.(ledger := r.ledger.(gone := r.ledger.gone + multiset{s})) else GiveUp(rest, s));
    }
  }

  lemma FinishQueue(r: Run)
    requires r.pending == [] || r.pool == [] || r.consecutive >= Limit(r)
    ensures var r' := Finish(r); r'.active == r.active && r'.phase.Finished? && r'.pending == [] && Waits(r.pending, r')
  {
    hide FailPending, Retained;
    FailPendingQueue(r);
    FailPendingRecord(r);
  }

  lemma LoopHeadQueue(r: Run)
    requires !r.phase.Crashed?
    ensures LoopHead(r).active == r.active && Waits(r.pending, LoopHead(r))
  {
    hide Finish, Retained;
    if r.active == [] && (r.pending == [] || r.pool == [] || r.consecutive >= Limit(r)) { FinishQueue(r); }
  }

  lemma NextSweepQueue(r: Run, i: nat, snapshot: seq<Worker>)
    requires !r.phase.Crashed?
    ensures NextSweep(r, i, snapshot).active == r.active && Waits(r.pending, NextSweep(r, i, snapshot))
  {
    hide Finish, LoopHead, Retained, Exceeded, Sids;
    if i >= |snapshot| || r.pending == [] { AfterSweepQueue(r); }
  }

  lemma AfterSweepQueue(r: Run)
    requires !r.phase.Crashed?
    ensures AfterSweep(r).active == r.active && Waits(r.pending, AfterSweep(r))
  {
    hide Finish, LoopHead, Retained, Exceeded, Sids;
    if r.consecutive >= Limit(r) {
      FinishQueue(r);
    } else {
      LoopHeadQueue(DropExceeded(r));
      LoopHeadRecord(DropExceeded(r));
      RetainedTwice(r.counts, r.pending);
    }
  }

  lemma {:induction false} RetainedTwice(counts: map<Session, nat>, js: seq<Job>)
    ensures Retained(counts, Retained(counts, js)) == Retained(counts, js)
  {
    hide Retriable;
    if js != [] {
      RetainedTwice(counts, js[1..]);
      var rest := Retained(counts, js[1..]);
      assert ([js[0]] + rest)[1..] == rest;
    }
  }

  /** A worker of the pool is replaced, and the queue, the calls and the counts stay. */
  lemma RebuildQueue(r: Run, w: Worker)
    requires w in r.pool
    ensures var r' := Rebuild(r, w);
            && r'.pending == r.pending && r'.active == r.active && r'.counts == r.counts && r'.phase == r.phase
            && r'.consecutive == r.consecutive && |r'.pool| == |r.pool|
  {
    hide IndexOf;
  }

  // ---- one answer ----

  lemma FillQueued(r: Run, reply: Reply, size: nat, all: multiset<Session>)
    requires Inv(r, size, all) && r.phase.Filling? && Applies(r, reply)
    ensures Queued(r, reply, OnFill(r, reply))
  {
    hide Core, Fresh, Exact, Strict, PhaseOk, IdleFrom, Inv, AbortFill, LoopHead, Rebuild, WorkersOf, Bump, Count, Retained;
    FillingFacts(r, size, all);
    FillNeverAborts(r, size, all);
    CorePool(r, size, all);
    var i, snapshot := r.phase.i, r.phase.snapshot;
    IdleHead(r, i, snapshot);
    var r1 := Requeue(CountRaise(r));
    RebuildQueue(r1, snapshot[i]);
    LoopHeadQueue(Submit(r, snapshot[i]));
    LoopHeadQueue(Rebuild(r1, snapshot[i]));
  }

  lemma SweepQueued(r: Run, reply: Reply, size: nat, all: multiset<Session>)
    requires Inv(r, size, all) && r.phase.Sweeping? && Applies(r, reply)
    ensures Queued(r, reply, OnSweep(r, reply))
  {
    hide Core, Fresh, Exact, Strict, PhaseOk, IdleFrom, Inv, NextSweep, AfterSweep, Rebuild, WorkersOf, Bump, Count, Retained;
    SweepingFacts(r, size, all);
    CorePool(r, size, all);
    var i, snapshot, s := r.phase.i, r.phase.snapshot, r.pending[0].session;
    IdleHead(r, i, snapshot);
    var r1 := Requeue(CountRaise(r));
    if reply.Accepted? {
      NextSweepQueue(Submit(r, snapshot[i]), i + 1, snapshot);
    } else if r1.consecutive >= Limit(r1) {
      AfterSweepQueue(r1.(ledger := r1.ledger.(aborts := r1.ledger.aborts + 1)));
    } else {
      RebuildQueue(r1, snapshot[i]);
      NextSweepQueue(CountFailure(Rebuild(r1, snapshot[i]), s), i + 1, snapshot);
    }
  }

  lemma RefillQueued(r: Run, reply: Reply, size: nat, all: multiset<Session>)
    requires Inv(r, size, all) && r.phase.Refilling? && Applies(r, reply)
    ensures Queued(r, reply, OnRefill(r, reply))
  {
    hide Core, Fresh, Exact, Strict, PhaseOk, Inv, LoopHead, Rebuild, WorkersOf, Bump, PoolOk, Retained, Count;
    RefillingFacts(r, size, all);
    CorePool(r, size, all);
    var w, job := r.phase.worker, r.pending[0];
    Bumped(r.counts, job.session);
    var tail := r.pending[1..];
    assert tail + [] == tail;
    if reply.Accepted? {
      LoopHeadQueue(Submit(r, w));
    } else {
      var r1 := CountRaise(r).(pending := tail);
      if r1.consecutive >= Limit(r1) {
        LoopHeadQueue(GiveUp(r1, job.session));
      } else {
        RebuildQueue(r1, w);
        LoopHeadQueue(RetryOrGiveUp(CountFailure(Rebuild(r1, w), job.session), job));
      }
    }
  }

  lemma DeathQueued(r: Run, k: nat, size: nat, all: multiset<Session>)
    requires Inv(r, size, all) && r.phase.Waiting? && k < |r.active|
    ensures Queued(r, Completed(k, Died), OnCompleted(r, k, Died))
  {
    hide Inv, Core, Strict, Exact, Fresh, LoopHead, WorkersOf, Bump, Count, PoolOk, OnDeath, Rebuild, Retained;
    WaitingFacts(r, size, all);
    CancelLoopsNeverFire(r, k, size, all);
    CollectPool(r, k, size, all);
    var task, r1 := r.active[k], Collect(r, k);
    var s := task.job.session;
    Bumped(r.counts, s);
    assert r.pending + [] == r.pending;
    RebuildQueue(CountFailure(r1.(consecutive := r1.consecutive + 1), s), task.worker);
    LoopHeadQueue(OnLoneDeath(r1, task));
  }

  lemma ReturnQueued(r: Run, k: nat, outcome: Outcome)
    requires r.phase.Waiting? && k < |r.active| && !outcome.Died?
    ensures Queued(r, Completed(k, outcome), OnCompleted(r, k, outcome))
  {
    hide LoopHead, Retained, Count;
    assert r.pending + [] == r.pending;
    LoopHeadQueue(Succeed(Collect(r, k), r.active[k].job.session));
    LoopHeadQueue(GiveUp(Collect(r, k), r.active[k].job.session));
  }

  /** Every answer in every reachable state: an accepted submission takes the first that waits, to the worker that was asked;
      a session that failed goes behind all others, unless it is given up; and nothing else changes the order. */
  lemma StepQueued(r: Run, reply: Reply, size: nat, all: multiset<Session>)
    requires Inv(r, size, all) && Applies(r, reply)
    ensures Queued(r, reply, Step(r, reply))
  {
    hide Inv, Queued, OnFill, OnSweep, OnRefill, OnCompleted, LoopHead;
    match r.phase
    case Filling(_, _) => FillQueued(r, reply, size, all);
    case Sweeping(_, _) => SweepQueued(r, reply, size, all);
    case Refilling(_) => RefillQueued(r, reply, size, all);
    case Waiting =>
      match reply {
        case TimedOut => WaitQueued(r);
        case Completed(k, outcome) => if outcome.Died? { DeathQueued(r, k, size, all); } else { ReturnQueued(r, k, outcome); }
      }
  }

  lemma WaitQueued(r: Run)
    requires r.phase.Waiting?
    ensures Queued(r, TimedOut, LoopHead(r))
  {
    hide LoopHead, Retained;
    LoopHeadQueue(r);
  }

  // ---- runs without a failure ----

  /** The sessions that were handed out, in the order of the answers. */
  function HandedOut(r: Run, env: seq<Reply>): seq<Job>
    requires ValidRun(r, env)
    decreases |env|
  {
    if env == [] then [] else (if env[0].Accepted? then [r.pending[0]] else []) + HandedOut(Step(r, env[0]), env[1..])
  }

  ghost predicate Uncounted(counts: map<Session, nat>) {
    forall s :: Count(counts, s) == 0
  }

  lemma {:induction false} NobodyDropped(counts: map<Session, nat>, js: seq<Job>)
    requires Uncounted(counts)
    ensures Retained(counts, js) == js
  {
    hide Count;
    if js != [] {
      NobodyDropped(counts, js[1..]);
      assert Count(counts, js[0].session) == 0;
    }
  }

  predicate Fails(reply: Reply) {
    reply.Raised? || (reply.Completed? && reply.outcome.Died?)
  }

  lemma StepInOrder(r: Run, reply: Reply, size: nat, all: multiset<Session>)
    requires Inv(r, size, all) && Applies(r, reply) && Uncounted(r.counts) && r.consecutive < Limit(r) && !Fails(reply)
    ensures var r' := Step(r, reply);
            && Uncounted(r'.counts) && r'.consecutive < Limit(r')
            && r'.pending == if reply.Accepted? then r.pending[1..] else r.pending
  {
    hide Inv, Step, Retained, Count;
    StepQueued(r, reply, size, all);
    StepRecorded(r, reply, size, all);
    var r' := Step(r, reply);
    var queue := if reply.Accepted? then r.pending[1..] else r.pending;
    assert r.pending + [] == r.pending;
    NobodyDropped(r'.counts, queue);
  }

  lemma {:induction false} RunInOrder(r: Run, env: seq<Reply>, size: nat, all: multiset<Session>)
    requires Inv(r, size, all) && ValidRun(r, env) && Uncounted(r.counts) && r.consecutive < Limit(r) && forall x | x in env :: !Fails(x)
    ensures HandedOut(r, env) + Exec(r, env).pending == r.pending
    decreases |env|
  {
    hide Inv, Step, Uncounted;
    if env != [] {
      var r1 := Step(r, env[0]);
      assert env[0] in env;
      StepKeepsInv(r, env[0], size, all);
      StepInOrder(r, env[0], size, all);
      RunInOrder(r1, env[1..], size, all);
      if env[0].Accepted? { HeadFirst(r.pending, HandedOut(r1, env[1..]), Exec(r1, env[1..]).pending); }
      assert [] + HandedOut(r1, env[1..]) == HandedOut(r1, env[1..]);
    } else {
      assert [] + r.pending == r.pending;
    }
  }

  lemma HeadFirst(queue: seq<Job>, out: seq<Job>, rest: seq<Job>)
    requires queue != [] && out + rest == queue[1..]
    ensures [queue[0]] + out + rest == queue
  {
    assert [queue[0]] + out + rest == [queue[0]] + (out + rest);
  }

  /** Over every run without a refusal and without a death, whatever the calls return and in whatever order they finish: the
      sessions are handed out in the order of the list, each to one worker. */
  lemma HandedOutInOrder(workers: seq<Worker>, nextWorker: Worker, sessions: seq<Session>, env: seq<Reply>)
    requires Callable(workers, nextWorker, sessions) && workers != [] && ValidRun(Start(workers, nextWorker, sessions), env)
    requires forall x | x in env :: !Fails(x)
    ensures var start := Start(workers, nextWorker, sessions);
            HandedOut(start, env) + Exec(start, env).pending == Enumerate(sessions)
  {
    hide Callable, Inv, Strict, Start, Exec, ValidRun, HandedOut, Enumerate;
    StartInv(workers, nextWorker, sessions);
    FreshStart(workers, nextWorker, sessions);
    RunInOrder(Start(workers, nextWorker, sessions), env, |workers|, multiset(sessions));
  }

  lemma FreshStart(workers: seq<Worker>, nextWorker: Worker, sessions: seq<Session>)
    requires workers != []
    ensures var r := Start(workers, nextWorker, sessions);
            r.pending == Enumerate(sessions) && Uncounted(r.counts) && r.consecutive < Limit(r)
  {}
}
