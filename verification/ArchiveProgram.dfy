/** `_archive_run` as the program writes it: nested loops over local variables that are updated in place. Every
    method is tied to the moves of `ArchiveDispatch`, so what holds of its runs holds of the program. */
module ArchiveProgram {
  import opened ArchiveDispatch
  import opened ArchiveHistory

  lemma {:induction false} TasksOnAppend(a: seq<Task>, b: seq<Task>, w: Worker, same: bool)
    ensures TasksOn(a + b, w, same) == TasksOn(a, w, same) + TasksOn(b, w, same)
  {
    if a == [] {
      assert a + b == b;
    } else {
      assert (a + b)[1..] == a[1..] + b;
      TasksOnAppend(a[1..], b, w, same);
    }
  }

  lemma {:induction false} RetainedAppend(counts: map<Session, nat>, a: seq<Job>, b: seq<Job>)
    ensures Retained(counts, a + b) == Retained(counts, a) + Retained(counts, b)
  {
    hide Count;
    if a == [] {
      assert a + b == b;
    } else {
      assert (a + b)[1..] == a[1..] + b;
      RetainedAppend(counts, a[1..], b);
    }
  }

  /** From `r` the replies lead to the finished state `target`. */
  ghost predicate Leads(r: Run, replies: seq<Reply>, target: Run) {
    ValidRun(r, replies) && Exec(r, replies) == target && target.phase.Finished?
  }

  /** A state that is not final consumes a reply. */
  lemma LeadsOn(r: Run, replies: seq<Reply>, target: Run)
    requires Leads(r, replies, target)
    ensures !r.phase.Crashed?
    ensures r.phase.Finished? ==> replies == [] && r == target
    ensures !r.phase.Finished? ==>
              replies != [] && Applies(r, replies[0]) && Leads(Step(r, replies[0]), replies[1..], target)
  {
    hide Step;
  }

  /** A run that leads to an end has found every worker that it had to rebuild. */
  lemma FoundInFill(r: Run, w: Worker, i: nat, snapshot: seq<Worker>, replies: seq<Reply>, target: Run)
    requires Leads(NextFill(Rebuild(r, w), i, snapshot), replies, target)
    ensures w in r.pool
  {
    hide Leads, LoopHead;
    LeadsOn(NextFill(Rebuild(r, w), i, snapshot), replies, target);
  }

  lemma FoundInSweep(r: Run, w: Worker, s: Session, i: nat, snapshot: seq<Worker>, replies: seq<Reply>, target: Run)
    requires Leads(NextSweep(CountFailure(Rebuild(r, w), s), i, snapshot), replies, target)
    ensures w in r.pool
  {
    hide Leads, AfterSweep, Bump;
    LeadsOn(NextSweep(CountFailure(Rebuild(r, w), s), i, snapshot), replies, target);
  }

  lemma FoundInRefill(r: Run, w: Worker, job: Job, replies: seq<Reply>, target: Run)
    requires Leads(LoopHead(RetryOrGiveUp(CountFailure(Rebuild(r, w), job.session), job)), replies, target)
    ensures w in r.pool
  {
    hide Leads, Finish, Bump, Count;
    LeadsOn(LoopHead(RetryOrGiveUp(CountFailure(Rebuild(r, w), job.session), job)), replies, target);
  }

  lemma {:induction false} SiblingsKeepPhase(r: Run, ts: seq<Task>)
    ensures RetrySiblings(r, ts).phase == r.phase
    decreases |ts|
  {
    hide Bump, Count;
    if ts != [] { SiblingsKeepPhase(RetryOrGiveUp(CountFailure(r, ts[0].job.session), ts[0].job), ts[1..]); }
  }

  lemma FoundAfterDeath(r: Run, task: Task, replies: seq<Reply>, target: Run)
    requires Leads(LoopHead(OnDeath(r, task)), replies, target) && r.consecutive + 1 < Limit(r)
    ensures task.worker in r.pool
  {
    hide Leads, Finish, Bump, Count, TasksOn, RetrySiblings;
    var r1 := CountFailure(r.(consecutive := r.consecutive + 1), task.job.session);
    SiblingsKeepPhase(RetryOrGiveUp(Rebuild(r1, task.worker), task.job).(active := TasksOn(r1.active, task.worker, false)),
                      TasksOn(r1.active, task.worker, true));
    LeadsOn(LoopHead(OnDeath(r, task)), replies, target);
  }

  lemma FillHead(r: Run, i: nat, snapshot: seq<Worker>)
    requires !r.phase.Crashed?
    ensures NextFill(r, i, snapshot) == if i < |snapshot| && r.pending != [] then r.(phase := Filling(i, snapshot)) else LoopHead(r)
  {}

  lemma FillStep(r: Run, reply: Reply)
    requires Applies(r, reply) && r.phase.Filling?
    ensures var i, snapshot := r.phase.i, r.phase.snapshot;
            var r1 := Requeue(CountRaise(r));
            Step(r, reply) ==
              if reply.Accepted? then NextFill(Submit(r, snapshot[i]), i + 1, snapshot)
              else if r1.consecutive >= Limit(r1) then LoopHead(AbortFill(r1))
              else NextFill(Rebuild(r1, snapshot[i]), i + 1, snapshot)
  {}

  lemma SweepHead(r: Run, i: nat, snapshot: seq<Worker>)
    requires !r.phase.Crashed?
    ensures NextSweep(r, i, snapshot) == if i < |snapshot| && r.pending != [] then r.(phase := Sweeping(i, snapshot)) else AfterSweep(r)
  {}

  lemma ExceededAlone(r: Run)
    ensures forall p, l :: Exceeded(r.(pending := p, ledger := l)) == Exceeded(r)
  {}

  lemma SweepEnd(r: Run)
    ensures AfterSweep(r) == if r.consecutive >= 3 * |r.pool| then Finish(r) else LoopHead(DropExceeded(r))
  {}

  lemma SweepStep(r: Run, reply: Reply)
    requires Applies(r, reply) && r.phase.Sweeping?
    ensures var i, snapshot := r.phase.i, r.phase.snapshot;
            var r1, s := Requeue(CountRaise(r)), r.pending[0].session;
            Step(r, reply) ==
              if reply.Accepted? then NextSweep(Submit(r, snapshot[i]), i + 1, snapshot)
              else if r1.consecutive >= Limit(r1) then AfterSweep(r1.(ledger := r1.ledger.(aborts := r1.ledger.aborts + 1)))
              else NextSweep(CountFailure(Rebuild(r1, snapshot[i]), s), i + 1, snapshot)
  {}

  lemma RefillStep(r: Run, reply: Reply)
    requires Applies(r, reply) && r.phase.Refilling?
    ensures var w, job := r.phase.worker, r.pending[0];
            var r1 := CountRaise(r).(pending := r.pending[1..]);
            Step(r, reply) ==
              if reply.Accepted? then LoopHead(Submit(r, w))
              else if r1.consecutive >= Limit(r1) then LoopHead(GiveUp(r1, job.session))
              else LoopHead(RetryOrGiveUp(CountFailure(Rebuild(r1, w), job.session), job))
  {}

  lemma LoopCases(r: Run)
    requires !r.phase.Crashed?
    ensures LoopHead(r) ==
              if r.active != [] then r.(phase := Waiting)
              else if r.pending != [] && r.pool != [] && r.consecutive < 3 * |r.pool| then NextSweep(r, 0, r.pool)
              else Finish(r)
  {}

  lemma WaitStep(r: Run, reply: Reply)
    requires Applies(r, reply) && r.phase.Waiting?
    ensures if reply.Completed? then reply.k < |r.active| && Step(r, reply) == OnCompleted(r, reply.k, reply.outcome)
            else Step(r, reply) == LoopHead(r)
  {}

  function Cancelled(r: Run, siblings: seq<Task>, retry: bool): Run {
    if retry then RetrySiblings(r, siblings) else FailSiblings(r, siblings)
  }

  lemma NoneLeft(w: Worker)
    ensures TasksOn([], w, true) == [] && TasksOn([], w, false) == []
    ensures forall r, retry :: Cancelled(r, [], retry) == r
  {}

  lemma CancelHead(r: Run, ts: seq<Task>, w: Worker, retry: bool)
    requires ts != []
    ensures TasksOn([ts[0]], w, false) == if ts[0].worker == w then [] else [ts[0]]
    ensures var rest := TasksOn(ts[1..], w, true);
            Cancelled(r, TasksOn(ts, w, true), retry) ==
              if ts[0].worker != w then Cancelled(r, rest, retry)
              else if retry then Cancelled(RetryOrGiveUp(CountFailure(r, ts[0].job.session), ts[0].job), rest, retry)
              else Cancelled(GiveUp(r, ts[0].job.session), rest, retry)
  {
    hide CountFailure, GiveUp, RetryOrGiveUp;
    assert [ts[0]][1..] == [];
    if ts[0].worker == w { assert ([ts[0]] + TasksOn(ts[1..], w, true))[1..] == TasksOn(ts[1..], w, true); }
  }

  lemma MoveFrame(r: Run, job: Job, others: seq<Task>)
    ensures RetryOrGiveUp(CountFailure(r.(active := others), job.session), job) == RetryOrGiveUp(CountFailure(r, job.session), job).(active := others)
    ensures GiveUp(r.(active := others), job.session) == GiveUp(r, job.session).(active := others)
  {}

  lemma DeathCases(r: Run, task: Task)
    ensures var r1 := CountFailure(r.(consecutive := r.consecutive + 1), task.job.session);
            var siblings, others := TasksOn(r.active, task.worker, true), TasksOn(r.active, task.worker, false);
            OnDeath(r, task) ==
              if r1.consecutive >= Limit(r1) then FailSiblings(GiveUp(r1, task.job.session).(active := others), siblings)
              else RetrySiblings(RetryOrGiveUp(Rebuild(r1, task.worker), task.job).(active := others), siblings)
  {}

  /** The local variables of `_archive_run`, with the replies still to come. */
  class Dispatch {
    var pool: seq<Worker>
    var nextWorker: Worker
    var pending: seq<Job>
    var active: seq<Task>
    var successful: seq<Session>
    var failedSessions: seq<Session>
    var failCounts: map<Session, nat>
    var consecutiveRebuilds: nat
    var replies: seq<Reply>
    ghost var phase: Phase
    ghost var ledger: Ledger

    constructor (workers: seq<Worker>, nextWorker: Worker, sessions: seq<Session>, replies: seq<Reply>)
      ensures Now() == Initial(workers, nextWorker, sessions) && this.replies == replies
    {
      pool, this.nextWorker, pending, active := workers, nextWorker, Enumerate(sessions), [];
      successful, failedSessions, failCounts, consecutiveRebuilds := [], [], map[], 0;
      this.replies := replies;
      phase, ledger := Waiting, Ledger(0, 0, 0, 0, 0, 0, multiset{}, map[]);
    }

    ghost function Now(): Run
      reads this
    {
      Run(phase, pool, nextWorker, pending, active, successful, multiset(failedSessions), failCounts, consecutiveRebuilds, ledger)
    }

    method Answer(ghost r: Run, ghost target: Run) returns (reply: Reply)
      requires Leads(r, replies, target) && !r.phase.Finished?
      modifies this`replies
      ensures Applies(r, reply) && Leads(Step(r, reply), replies, target) && |replies| < |old(replies)|
    {
      LeadsOn(r, replies, target);
      reply, replies := replies[0], replies[1..];
    }

    method Accept(w: Worker)
      requires pending != []
      modifies this`pending, this`active, this`ledger
      ensures Now() == Submit(old(Now()), w)
    {
      var job := pending[0];
      pending := pending[1..];
      active := active + [Task(w, job)];
      ledger := ledger.(accepts := ledger.accepts + 1, accepted := Bump(ledger.accepted, job.session));
    }

    method RebuildWorker(w: Worker)
      requires w in pool
      modifies this`pool, this`nextWorker, this`ledger
      ensures Now() == Rebuild(old(Now()), w)
    {
      var dead := IndexOf(pool, w);
      pool := pool[dead := nextWorker];
      nextWorker := nextWorker + 1;
      ledger := ledger.(rebuilds := ledger.rebuilds + 1, sinceSuccess := ledger.sinceSuccess + 1);
    }

    method RecordFailure(s: Session)
      modifies this`failedSessions, this`ledger
      ensures Now() == GiveUp(old(Now()), s)
    {
      failedSessions := failedSessions + [s];
      ledger := ledger.(gone := ledger.gone + multiset{s});
    }

    /** `session_fail_counts.setdefault(sid, 0)`, then one more. */
    method NoteFailure(s: Session)
      modifies this`failCounts
      ensures Now() == CountFailure(old(Now()), s) && s in failCounts
    {
      if s !in failCounts { failCounts := failCounts[s := 0]; }
      failCounts := failCounts[s := failCounts[s] + 1];
    }

    method RetryOrRecord(job: Job)
      requires job.session in failCounts
      modifies this`pending, this`failedSessions, this`ledger
      ensures Now() == RetryOrGiveUp(old(Now()), job)
    {
      if failCounts[job.session] < MAX_SESSION_RETRIES {
        pending := pending + [job];
      } else {
        RecordFailure(job.session);
      }
    }

    method RetryAfterFailure(job: Job)
      modifies this`pending, this`failedSessions, this`failCounts, this`ledger
      ensures Now() == RetryOrGiveUp(CountFailure(old(Now()), job.session), job)
    {
      hide Bump, Count, RetryOrGiveUp;
      NoteFailure(job.session);
      RetryOrRecord(job);
    }

    /** The abort in the initial fill: everything that is pending fails. */
    method FailAll()
      modifies this`pending, this`failedSessions, this`failCounts, this`ledger
      ensures Now() == AbortFill(old(Now()))
    {
      ghost var goal := AbortFill(Now());
      var rest := pending;
      while rest != []
        invariant AbortFill(Now().(pending := rest)) == goal
        invariant pending == old(pending)
      {
        hide Bump, Count;
        NoteFailure(rest[0].session);
        RecordFailure(rest[0].session);
        rest := rest[1..];
      }
      pending := [];
    }

    method FillWorkers(ghost target: Run)
      requires Leads(NextFill(Now(), 0, pool), replies, target) && !phase.Crashed?
      modifies this
      ensures Leads(LoopHead(Now()), replies, target) && !phase.Crashed?
    {
      hide Leads, IndexOf, Submit, LoopHead, AbortFill, NextFill, Step, Rebuild;
      var snapshot, i := pool, 0;
      while i < |snapshot| && pending != []
        invariant i <= |snapshot| && !phase.Crashed?
        invariant Leads(NextFill(Now(), i, snapshot), replies, target)
      {
        FillHead(Now(), i, snapshot);
        phase := Filling(i, snapshot);
        ghost var r := Now();
        var reply := Answer(r, target);
        FillStep(r, reply);
        if reply.Accepted? {
          Accept(snapshot[i]);
        } else {
          var stop := RefusedInFill(snapshot[i], i + 1, snapshot, target);
          if stop { return; }
        }
        i := i + 1;
      }
      FillHead(Now(), i, snapshot);
    }

    /** A submission of the initial fill raised. */
    method RefusedInFill(w: Worker, i: nat, snapshot: seq<Worker>, ghost target: Run) returns (stop: bool)
      requires pending != [] && !phase.Crashed?
      requires var r := Requeue(CountRaise(Now()));
               Leads(if r.consecutive >= Limit(r) then LoopHead(AbortFill(r)) else NextFill(Rebuild(r, w), i, snapshot), replies, target)
      modifies this
      ensures !phase.Crashed? && Leads(if stop then LoopHead(Now()) else NextFill(Now(), i, snapshot), replies, target)
      ensures replies == old(replies)
    {
      hide Leads, IndexOf, LoopHead, AbortFill, NextFill, Rebuild;
      var job := pending[0];
      pending := pending[1..];
      consecutiveRebuilds := consecutiveRebuilds + 1;
      ledger := ledger.(raises := ledger.raises + 1);
      stop := consecutiveRebuilds >= 3 * |pool|;
      pending := pending + [job];
      if stop {
        FailAll();
      } else {
        FoundInFill(Now(), w, i, snapshot, replies, target);
        RebuildWorker(w);
      }
    }

    /** The filter of `pending` and the record of the sessions at the cap. */
    method DropOverCap()
      modifies this`pending, this`failedSessions, this`ledger
      ensures Now() == DropExceeded(old(Now()))
    {
      hide Sids, Retained, Exceeded;
      ExceededAlone(Now());
      ledger := ledger.(gone := ledger.gone + (Sids(pending) - Sids(Retained(failCounts, pending))));
      FilterPending();
      RecordOverCap();
    }

    method FilterPending()
      modifies this`pending
      ensures Now() == old(Now()).(pending := Retained(failCounts, old(pending)))
    {
      hide Count;
      var jobs, kept: seq<Job> := pending, [];
      for i := 0 to |jobs|
        invariant kept == Retained(failCounts, jobs[..i])
      {
        RetainedAppend(failCounts, jobs[..i], [jobs[i]]);
        assert jobs[..i + 1] == jobs[..i] + [jobs[i]];
        if Count(failCounts, jobs[i].session) < MAX_SESSION_RETRIES { kept := kept + [jobs[i]]; }
      }
      assert jobs[..|jobs|] == jobs;
      pending := kept;
    }

    method RecordOverCap()
      modifies this`failedSessions
      ensures Now() == old(Now()).(failed := old(Now()).failed + multiset(Exceeded(old(Now()))))
    {
      var exceeded := set s | s in failCounts && failCounts[s] >= MAX_SESSION_RETRIES && s !in failedSessions;
      assert exceeded == Exceeded(Now());
      var failed, rest := failedSessions, exceeded;
      while rest != {}
        invariant rest <= exceeded
        invariant multiset(failed) + multiset(rest) == multiset(failedSessions) + multiset(exceeded)
      {
        var s :| s in rest;
        assert multiset(rest) == multiset(rest - {s}) + multiset{s};
        failed := failed + [s];
        rest := rest - {s};
      }
      failedSessions := failed;
    }

    /** One sweep over the workers while nothing is active; `stop` says that the rebuild limit ended the loop. */
    method SweepWorkers(ghost target: Run) returns (stop: bool)
      requires Leads(NextSweep(Now(), 0, pool), replies, target) && !phase.Crashed?
      modifies this
      ensures Leads(if stop then Finish(Now()) else LoopHead(Now()), replies, target) && !phase.Crashed?
      ensures old(pool != [] && pending != []) ==> |replies| < |old(replies)|
    {
      hide Leads, IndexOf, Submit, LoopHead, AfterSweep, NextSweep, Step, Rebuild, DropExceeded, Finish, Bump;
      var snapshot, i, broken := pool, 0, false;
      while i < |snapshot| && pending != [] && !broken
        invariant i <= |snapshot| && !phase.Crashed?
        invariant Leads(if broken then AfterSweep(Now()) else NextSweep(Now(), i, snapshot), replies, target)
        invariant if i == 0 then replies == old(replies) && pending == old(pending) && !broken else |replies| < |old(replies)|
      {
        SweepHead(Now(), i, snapshot);
        phase := Sweeping(i, snapshot);
        ghost var r := Now();
        var reply := Answer(r, target);
        SweepStep(r, reply);
        if reply.Accepted? {
          Accept(snapshot[i]);
        } else {
          broken := RefusedInSweep(snapshot[i], i + 1, snapshot, target);
        }
        i := i + 1;
      }
      if !broken { SweepHead(Now(), i, snapshot); }
      SweepEnd(Now());
      stop := consecutiveRebuilds >= 3 * |pool|;
      if !stop { DropOverCap(); }
    }

    /** A submission of a sweep raised. */
    method RefusedInSweep(w: Worker, i: nat, snapshot: seq<Worker>, ghost target: Run) returns (stop: bool)
      requires pending != [] && !phase.Crashed?
      requires var r, s := Requeue(CountRaise(Now())), pending[0].session;
               Leads(if r.consecutive >= Limit(r) then AfterSweep(r.(ledger := r.ledger.(aborts := r.ledger.aborts + 1)))
                     else NextSweep(CountFailure(Rebuild(r, w), s), i, snapshot), replies, target)
      modifies this
      ensures !phase.Crashed? && Leads(if stop then AfterSweep(Now()) else NextSweep(Now(), i, snapshot), replies, target)
      ensures replies == old(replies)
    {
      hide Leads, IndexOf, LoopHead, AfterSweep, NextSweep, Rebuild, Bump;
      var job := pending[0];
      pending := pending[1..];
      consecutiveRebuilds := consecutiveRebuilds + 1;
      ledger := ledger.(raises := ledger.raises + 1);
      stop := consecutiveRebuilds >= 3 * |pool|;
      pending := pending + [job];
      if stop {
        ledger := ledger.(aborts := ledger.aborts + 1);
      } else {
        FoundInSweep(Now(), w, job.session, i, snapshot, replies, target);
        RebuildWorker(w);
        NoteFailure(job.session);
      }
    }

    /** One call finished: `active.pop`, `ray.get`, and the next session for the worker that is free. */
    method HandleDone(k: nat, outcome: Outcome, ghost target: Run)
      requires k < |active| && Leads(OnCompleted(Now(), k, outcome), replies, target) && !phase.Crashed?
      modifies this
      ensures Leads(LoopHead(Now()), replies, target) && !phase.Crashed? && |replies| <= |old(replies)|
    {
      hide Leads, LoopHead, OnDeath, GiveUp;
      var task := active[k];
      ghost var r := Collect(Now(), k);
      active := active[..k] + active[k + 1..];
      ledger := ledger.(completions := ledger.completions + 1);
      assert Now() == r;
      match outcome {
        case Archived =>
          successful := successful + [task.job.session];
          consecutiveRebuilds := 0;
          ledger := ledger.(sinceSuccess := 0);
          if pending != [] { Refill(task.worker, target); }
        case Died => HandleDeath(task, target);
        case Broken => RecordFailure(task.job.session);
      }
    }

    /** The worker that has just succeeded gets the next session. */
    method Refill(w: Worker, ghost target: Run)
      requires pending != [] && Leads(Now().(phase := Refilling(w)), replies, target)
      modifies this
      ensures Leads(LoopHead(Now()), replies, target) && !phase.Crashed? && |replies| <= |old(replies)|
    {
      hide Leads, LoopHead, Rebuild, Submit, IndexOf, Step, RetryOrGiveUp, CountFailure;
      phase := Refilling(w);
      ghost var r := Now();
      var reply := Answer(r, target);
      RefillStep(r, reply);
      if reply.Accepted? {
        Accept(w);
      } else {
        RefusedInRefill(w, target);
      }
    }

    /** The worker has died since. */
    method RefusedInRefill(w: Worker, ghost target: Run)
      requires pending != [] && !phase.Crashed?
      requires var r, job := CountRaise(Now()).(pending := pending[1..]), pending[0];
               Leads(LoopHead(if r.consecutive >= Limit(r) then GiveUp(r, job.session)
                              else RetryOrGiveUp(CountFailure(Rebuild(r, w), job.session), job)), replies, target)
      modifies this
      ensures Leads(LoopHead(Now()), replies, target) && !phase.Crashed? && replies == old(replies)
    {
      hide Leads, LoopHead, Rebuild, IndexOf, RetryOrGiveUp, CountFailure, GiveUp;
      var job := pending[0];
      pending := pending[1..];
      consecutiveRebuilds := consecutiveRebuilds + 1;
      ledger := ledger.(raises := ledger.raises + 1);
      if consecutiveRebuilds >= 3 * |pool| {
        RecordFailure(job.session);
      } else {
        FoundInRefill(Now(), w, job, replies, target);
        RebuildWorker(w);
        RetryAfterFailure(job);
      }
    }

    /** A worker died: count, rebuild, retry, and the same for other tasks of this worker. */
    method HandleDeath(task: Task, ghost target: Run)
      requires Leads(LoopHead(OnDeath(Now(), task)), replies, target) && !phase.Crashed?
      modifies this
      ensures Leads(LoopHead(Now()), replies, target) && !phase.Crashed? && replies == old(replies)
    {
      hide Leads, LoopHead, Rebuild, IndexOf, FailSiblings, RetrySiblings, TasksOn, OnDeath, RetryOrGiveUp, GiveUp;
      if consecutiveRebuilds + 1 < 3 * |pool| { FoundAfterDeath(Now(), task, replies, target); }
      DeathCases(Now(), task);
      consecutiveRebuilds := consecutiveRebuilds + 1;
      NoteFailure(task.job.session);
      if consecutiveRebuilds >= 3 * |pool| {
        RecordFailure(task.job.session);
        CancelOthers(task.worker, false);
      } else {
        RebuildWorker(task.worker);
        RetryOrRecord(task.job);
        CancelOthers(task.worker, true);
      }
    }

    /** The loop over the other tasks of a dead worker, which are retried or recorded as failed. */
    method CancelOthers(w: Worker, retry: bool)
      modifies this`active, this`pending, this`failedSessions, this`failCounts, this`ledger
      ensures var siblings := TasksOn(old(active), w, true);
              var r := old(Now()).(active := TasksOn(old(active), w, false));
              Now() == if retry then RetrySiblings(r, siblings) else FailSiblings(r, siblings)
    {
      hide TasksOn, GiveUp, RetryOrGiveUp, CountFailure, RetrySiblings, FailSiblings;
      var snapshot, kept: seq<Task> := active, [];
      ghost var others := TasksOn(active, w, false);
      ghost var goal := Cancelled(Now().(active := others), TasksOn(active, w, true), retry);
      NoneLeft(w);
      for j := 0 to |snapshot|
        invariant active == snapshot && kept == TasksOn(snapshot[..j], w, false)
        invariant goal == Cancelled(Now().(active := others), TasksOn(snapshot[j..], w, true), retry)
      {
        var t := snapshot[j];
        TasksOnAppend(snapshot[..j], [t], w, false);
        assert snapshot[..j + 1] == snapshot[..j] + [t];
        CancelHead(Now().(active := others), snapshot[j..], w, retry);
        if t.worker != w {
          kept := kept + [t];
        } else if retry {
          MoveFrame(Now(), t.job, others);
          RetryAfterFailure(t.job);
        } else {
          MoveFrame(Now(), t.job, others);
          RecordFailure(t.job.session);
        }
      }
      assert snapshot[..|snapshot|] == snapshot;
      active := kept;
    }

    /** A session that was never tried is recorded as failed unless it already is. */
    method FailRest()
      modifies this`pending, this`failedSessions, this`ledger
      ensures Now() == FailPending(old(Now()))
    {
      ghost var goal := FailPending(Now());
      var rest := pending;
      while rest != []
        invariant FailPending(Now().(pending := rest)) == goal
        invariant pending == old(pending)
      {
        var s := rest[0].session;
        if s !in failedSessions {
          RecordFailure(s);
        } else {
          ledger := ledger.(gone := ledger.gone + multiset{s});
        }
        rest := rest[1..];
      }
      pending := [];
    }

    /** `_archive_run` up to the statistics: `raises` is the final RuntimeError; otherwise `archived` is what is
        passed to the clean-up. */
    method ArchiveRun(ghost target: Run) returns (raises: bool, archived: seq<Session>)
      requires Leads(NextFill(Now(), 0, pool), replies, target) && !phase.Crashed?
      modifies this
      ensures Now() == target && archived == target.done
      ensures archived == old(successful) + Sessions(NextFill(old(Now()), 0, old(pool)), old(replies), Archived)
      ensures raises <==> target.done == [] && target.failed != multiset{}
    {
      hide Leads, LoopHead, NextFill, NextSweep, OnCompleted, Finish, Sessions;
      LeadsArchives(Now(), pool, replies, target);
      FillWorkers(target);
      var stop := false;
      while !stop && (active != [] || (pending != [] && pool != [] && consecutiveRebuilds < 3 * |pool|))
        invariant !phase.Crashed? && Leads(if stop then Finish(Now()) else LoopHead(Now()), replies, target)
        decreases |replies|, !stop
      {
        LoopCases(Now());
        if active == [] {
          stop := SweepWorkers(target);
        } else {
          phase := Waiting;
          ghost var r := Now();
          var reply := Answer(r, target);
          WaitStep(r, reply);
          if reply.Completed? { HandleDone(reply.k, reply.outcome, target); }
        }
      }
      LoopCases(Now());
      FinishRun(target);
      archived := successful;
      raises := successful == [] && failedSessions != [];
    }

    method FinishRun(ghost target: Run)
      requires Leads(Finish(Now()), replies, target)
      modifies this
      ensures Now() == target
    {
      hide Leads, FailPending;
      LeadsOn(Finish(Now()), replies, target);
      if consecutiveRebuilds >= 3 * |pool| && pending != [] { FailRest(); }
      if pending != [] && pool == [] { FailRest(); }
      phase := Finished;
    }
  }

  lemma LeadsArchives(r: Run, pool: seq<Worker>, replies: seq<Reply>, target: Run)
    requires Leads(NextFill(r, 0, pool), replies, target)
    ensures target.done == r.done + Sessions(NextFill(r, 0, pool), replies, Archived)
  {
    hide ValidRun, Exec, LoopHead, Sessions;
    LoopHeadDone(r);
    RunDone(NextFill(r, 0, pool), replies);
  }

  /** `_archive_run` for the given replies: the archived sessions are those of the run, each once, and only these
      are cleaned up. */
  method ArchiveSessions(workers: seq<Worker>, nextWorker: Worker, sessions: seq<Session>, env: seq<Reply>)
    returns (raises: bool, archived: seq<Session>, failed: seq<Session>)
    requires Finishes(workers, nextWorker, sessions, env)
    ensures var r := Exec(Start(workers, nextWorker, sessions), env);
            archived == r.done && multiset(failed) == r.failed && (raises <==> archived == [] && failed != [])
    ensures archived == Sessions(Start(workers, nextWorker, sessions), env, Archived)
    ensures forall s | s in Sessions(Start(workers, nextWorker, sessions), env, Broken) :: s in failed && s !in archived
    ensures multiset(archived) <= multiset(sessions)
    ensures |workers| <= 1 ==> multiset(archived) + multiset(failed) == multiset(sessions)
  {
    hide Exec, ValidRun, NextFill, Initial, Callable, Partitioned, TameRun, Sids, JobsOf, Sessions, Failures, SinceSuccess;
    RecordIsHistory(workers, nextWorker, sessions, env);
    ghost var target := Exec(Start(workers, nextWorker, sessions), env);
    var dispatch := new Dispatch(workers, nextWorker, sessions, env);
    InitialParts(workers, nextWorker, sessions);
    raises, archived := dispatch.ArchiveRun(target);
    failed := dispatch.failedSessions;
    SessionsConserved(workers, nextWorker, sessions, env);
    if |workers| <= 1 { SmallPoolPartitions(workers, nextWorker, sessions, env); }
  }

  lemma InitialParts(workers: seq<Worker>, nextWorker: Worker, sessions: seq<Session>)
    ensures var r := Initial(workers, nextWorker, sessions); r.pool == workers && !r.phase.Crashed?
  {}

  lemma SmallPoolPartitions(workers: seq<Worker>, nextWorker: Worker, sessions: seq<Session>, env: seq<Reply>)
    requires Finishes(workers, nextWorker, sessions, env) && |workers| <= 1
    ensures var r := Exec(Start(workers, nextWorker, sessions), env); multiset(r.done) + r.failed == multiset(sessions)
  {
    hide Exec, ValidRun, Start, Callable, TameRun;
    SmallPoolIsTame(Start(workers, nextWorker, sessions), env, |workers|);
    FinishedPartition(workers, nextWorker, sessions, env);
  }
}
