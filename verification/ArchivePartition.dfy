/** Exactly which runs of the dispatch loop put every session once into one of archived and failed. */
module ArchivePartition {
  import opened ArchiveDispatch

  /** A sweep hands a session to a worker although its failures have reached the cap. */
  predicate AcceptsAtCap(r: Run, reply: Reply) {
    r.phase.Sweeping? && reply.Accepted? && r.pending != [] && !Retriable(r.counts, r.pending[0])
  }

  /** A refused submission of a sweep reaches the rebuild limit while calls are running. */
  predicate AbortsSweep(r: Run, reply: Reply) {
    r.phase.Sweeping? && reply.Raised? && r.consecutive + 1 >= Limit(r) && r.active != []
  }

  ghost predicate NeverSpoils(r: Run, env: seq<Reply>)
    requires ValidRun(r, env)
    decreases |env|
  {
    env == [] || (!AcceptsAtCap(r, env[0]) && !AbortsSweep(r, env[0]) && NeverSpoils(Step(r, env[0]), env[1..]))
  }

  // ---- what keeps the partition ----

  lemma SubmitExact(r: Run, w: Worker)
    requires Exact(r) && r.pending != [] && Retriable(r.counts, r.pending[0])
    ensures Exact(Submit(r, w))
  {
    hide Sids, JobsOf, WorkersOf, Count;
    SubmitCounts(r, w);
  }

  lemma NextSweepExact(r: Run, i: nat, snapshot: seq<Worker>, size: nat, all: multiset<Session>)
    requires Core(r, size, all) && Exact(r) && r.ledger.aborts == 0
    ensures Exact(NextSweep(r, i, snapshot))
  {
    hide Books, Retries, Pool, Sids, JobsOf, Count, AfterSweep, WorkersOf;
    AfterSweepKeeps(r, size, all);
  }

  lemma SweepExact(r: Run, reply: Reply, size: nat, all: multiset<Session>)
    requires Inv(r, size, all) && Exact(r) && r.phase.Sweeping? && Applies(r, reply) && !AcceptsAtCap(r, reply)
    ensures Exact(OnSweep(r, reply))
  {
    hide Core, PhaseOk, Strict, Fresh, Exact, IdleFrom, Inv, NextSweep, AfterSweep, Rebuild, Sids, Count;
    SweepingFacts(r, size, all);
    var i, snapshot, s := r.phase.i, r.phase.snapshot, r.pending[0].session;
    IdleHead(r, i, snapshot);
    HeadIsPending(r);
    if reply.Accepted? {
      SubmitExact(r, snapshot[i]);
      SubmitKeeps(r, snapshot[i], size, all);
      NextSweepExact(Submit(r, snapshot[i]), i + 1, snapshot, size, all);
    } else if r.consecutive + 1 >= Limit(r) {
      var r1 := Requeue(CountRaise(r));
      var r2 := r1.(ledger := r1.ledger.(aborts := r1.ledger.aborts + 1));
      SameExact(r, r2);
      AbortCore(r, size, all);
      AfterSweepKeeps(r2, size, all);
    } else {
      RaiseAndRebuildKeeps(r, snapshot[i], size, all);
      var r1 := RaiseAndRebuild(r, snapshot[i]);
      SameExact(r, r1);
      CountFailureKeeps(r1, s, size, all);
      NextSweepExact(CountFailure(r1, s), i + 1, snapshot, size, all);
    }
  }

  lemma AbortCore(r: Run, size: nat, all: multiset<Session>)
    requires Core(r, size, all) && r.pending != [] && r.ledger.aborts == 0
    ensures var r1 := Requeue(CountRaise(r)); var r2 := r1.(ledger := r1.ledger.(aborts := r1.ledger.aborts + 1));
            Core(r2, size, all) && Sids(r2.pending) == Sids(r.pending)
  {
    hide Books, Retries, Pool, Sids, JobsOf, Count, WorkersOf;
    HeadIsPending(CountRaise(r));
  }

  lemma StepExact(r: Run, reply: Reply, size: nat, all: multiset<Session>)
    requires Inv(r, size, all) && Exact(r) && Applies(r, reply) && !AcceptsAtCap(r, reply)
    ensures Exact(Step(r, reply))
  {
    hide Inv, Exact, Fresh, OnSweep, OnFill, OnRefill, OnCompleted, LoopHead, Retriable;
    if r.phase.Sweeping? {
      SweepExact(r, reply, size, all);
    } else {
      StepKeepsInv(r, reply, size, all);
    }
  }

  ghost predicate Sound(r: Run) {
    Exact(r) && (r.phase.Finished? ==> r.active == [])
  }

  lemma StepSound(r: Run, reply: Reply, size: nat, all: multiset<Session>)
    requires Inv(r, size, all) && Sound(r) && Applies(r, reply) && !AcceptsAtCap(r, reply) && !AbortsSweep(r, reply)
    ensures Sound(Step(r, reply))
  {
    hide Inv, Exact, Step, Applies, AcceptsAtCap;
    StepExact(r, reply, size, all);
    if Step(r, reply).phase.Finished? { UncollectedIff(r, reply, size, all); }
  }

  lemma {:induction false} RunSound(r: Run, env: seq<Reply>, size: nat, all: multiset<Session>)
    requires Inv(r, size, all) && Sound(r) && ValidRun(r, env) && NeverSpoils(r, env)
    ensures Sound(Exec(r, env))
    decreases |env|
  {
    hide Inv, Sound, Step, Applies, AcceptsAtCap, AbortsSweep;
    if env != [] {
      StepSound(r, env[0], size, all);
      StepKeepsInv(r, env[0], size, all);
      RunSound(Step(r, env[0]), env[1..], size, all);
    }
  }

  // ---- what breaks it for good ----

  /** A session is recorded as failed more often than it was given up. */
  ghost predicate Over(r: Run) {
    exists s :: r.failed[s] > r.ledger.gone[s]
  }

  ghost predicate NoLess(r: Run, r': Run) {
    forall s :: r'.failed[s] + r.ledger.gone[s] >= r.failed[s] + r'.ledger.gone[s]
  }

  /** A session at the cap is with a worker. */
  ghost predicate Capped(r: Run) {
    exists s | s in Sids(JobsOf(r.active)) :: Count(r.counts, s) >= MAX_SESSION_RETRIES
  }

  ghost predicate Spoilt(r: Run) {
    Over(r) || (r.phase.Sweeping? && Capped(r)) || (r.phase.Finished? && r.active != [])
  }

  lemma StaysOver(r: Run, r': Run)
    requires Over(r) && NoLess(r, r')
    ensures Over(r')
  {
    var s :| r.failed[s] > r.ledger.gone[s];
    assert r'.failed[s] > r'.ledger.gone[s];
  }

  lemma {:induction false} FailPendingNoLess(r: Run, size: nat, all: multiset<Session>)
    requires Core(r, size, all)
    ensures NoLess(r, FailPending(r))
    decreases |r.pending|
  {
    if r.pending != [] {
      FailHead(r, size, all);
      hide Core;
      FailPendingNoLess(GiveUp(r.(pending := r.pending[1..]), r.pending[0].session), size, all);
    }
  }

  lemma FinishNoLess(r: Run, size: nat, all: multiset<Session>)
    requires Core(r, size, all)
    ensures NoLess(r, Finish(r))
  {
    hide Core, FailPending;
    FailPendingNoLess(r, size, all);
    FailPendingKeeps(r, size, all);
    FailPendingNoLess(FailPending(r), size, all);
  }

  lemma LoopHeadNoLess(r: Run, size: nat, all: multiset<Session>)
    requires Core(r, size, all)
    ensures NoLess(r, LoopHead(r))
  {
    hide Core, Finish;
    FinishNoLess(r, size, all);
  }

  lemma DropNoLess(r: Run, all: multiset<Session>)
    requires BooksOk(r, all)
    ensures NoLess(r, DropExceeded(r))
    ensures forall s | Count(r.counts, s) >= MAX_SESSION_RETRIES :: s in DropExceeded(r).failed
  {
    RetainedCounts(r.counts, r.pending);
    var p, kept := Sids(r.pending), Sids(Retained(r.counts, r.pending));
    PendingOnce(r, all);
    hide Sids, JobsOf, Books;
    forall s ensures (p - kept)[s] <= multiset(Exceeded(r))[s] {
      if s in p && Count(r.counts, s) >= MAX_SESSION_RETRIES { assert s in Exceeded(r); }
    }
    forall s | Count(r.counts, s) >= MAX_SESSION_RETRIES ensures s in DropExceeded(r).failed {
      assert s in r.counts && (s !in r.failed ==> s in Exceeded(r));
    }
  }

  lemma PendingOnce(r: Run, all: multiset<Session>)
    requires BooksOk(r, all)
    ensures forall s :: Sids(r.pending)[s] <= 1
    ensures forall s | s in Sids(r.pending) :: s !in r.failed
    ensures forall s | s in Sids(JobsOf(r.active)) :: r.ledger.gone[s] == 0
  {
    hide Sids, JobsOf;
    var p, a := Sids(r.pending), Sids(JobsOf(r.active));
    assert forall s :: all[s] == p[s] + a[s] + multiset(r.done)[s] + r.ledger.gone[s];
  }

  /** The filter records a session at the cap that is with a worker. */
  lemma DropIsOver(r: Run, size: nat, all: multiset<Session>)
    requires Core(r, size, all) && Capped(r)
    ensures Over(DropExceeded(r))
  {
    hide Sids, JobsOf, Books, Retries, Pool, Count, WorkersOf, Exceeded, Retained;
    var s :| s in Sids(JobsOf(r.active)) && Count(r.counts, s) >= MAX_SESSION_RETRIES;
    DropNoLess(r, all);
    DropKeeps(r, size, all);
    PendingOnce(DropExceeded(r), all);
    assert DropExceeded(r).failed[s] > DropExceeded(r).ledger.gone[s];
  }

  lemma AfterSweepNoLess(r: Run, size: nat, all: multiset<Session>)
    requires Core(r, size, all)
    ensures NoLess(r, AfterSweep(r))
  {
    hide Core, LoopHead, Finish, DropExceeded;
    if r.consecutive >= Limit(r) {
      FinishNoLess(r, size, all);
    } else {
      BooksOnly(r, size, all);
      DropNoLess(r, all);
      DropKeeps(r, size, all);
      LoopHeadNoLess(DropExceeded(r), size, all);
    }
  }

  lemma BooksOnly(r: Run, size: nat, all: multiset<Session>)
    requires Core(r, size, all)
    ensures BooksOk(r, all)
  {}

  // ---- sweeps ----

  lemma NextSweepSpoilt(r: Run, i: nat, snapshot: seq<Worker>, size: nat, all: multiset<Session>)
    requires Core(r, size, all) && (Over(r) || Capped(r)) && r.consecutive < Limit(r)
    ensures Spoilt(NextSweep(r, i, snapshot))
  {
    hide Core, LoopHead, DropExceeded, Over, NoLess, Capped;
    assert !r.phase.Crashed? by { NotCrashed(r, size, all); }
    if !(i < |snapshot| && r.pending != []) {
      if Capped(r) {
        DropIsOver(r, size, all);
        DropKeeps(r, size, all);
        LoopHeadNoLess(DropExceeded(r), size, all);
        StaysOver(DropExceeded(r), LoopHead(DropExceeded(r)));
      } else {
        AfterSweepNoLess(r, size, all);
        StaysOver(r, AfterSweep(r));
      }
    } else {
      SameSpoilt(r, Sweeping(i, snapshot));
    }
  }

  lemma SameSpoilt(r: Run, phase: Phase)
    ensures Over(r) ==> Over(r.(phase := phase))
    ensures Capped(r) ==> Capped(r.(phase := phase))
  {}

  lemma NotCrashed(r: Run, size: nat, all: multiset<Session>)
    requires Core(r, size, all)
    ensures !r.phase.Crashed?
  {}

  lemma SubmitSpoilt(r: Run, w: Worker)
    requires r.pending != [] && (Over(r) || Capped(r) || !Retriable(r.counts, r.pending[0]))
    ensures Over(Submit(r, w)) || Capped(Submit(r, w))
  {
    hide Sids, JobsOf, WorkersOf, Count;
    SubmitCounts(r, w);
    var r' := Submit(r, w);
    if !Retriable(r.counts, r.pending[0]) {
      assert r.pending[0].session in Sids(JobsOf(r'.active));
    } else if Capped(r) {
      var s :| s in Sids(JobsOf(r.active)) && Count(r.counts, s) >= MAX_SESSION_RETRIES;
      assert s in Sids(JobsOf(r'.active));
    } else {
      StaysOver(r, r');
    }
  }

  lemma CountedSpoilt(r: Run, r': Run, s: Session)
    requires Over(r) || Capped(r)
    requires r'.active == r.active && r'.failed == r.failed && r'.ledger.gone == r.ledger.gone
    requires r'.counts == r.counts || r'.counts == Bump(r.counts, s)
    ensures Over(r') || Capped(r')
  {
    hide Sids, JobsOf;
    if Over(r) {
      StaysOver(r, r');
    } else {
      var x :| x in Sids(JobsOf(r.active)) && Count(r.counts, x) >= MAX_SESSION_RETRIES;
      assert Count(r'.counts, x) >= MAX_SESSION_RETRIES;
    }
  }

  lemma CappedIsActive(r: Run)
    requires Capped(r)
    ensures r.active != []
  {}

  lemma SweepSpoilt(r: Run, reply: Reply, size: nat, all: multiset<Session>)
    requires Inv(r, size, all) && r.phase.Sweeping? && Applies(r, reply) && (Over(r) || Capped(r) || AcceptsAtCap(r, reply))
    ensures Spoilt(OnSweep(r, reply))
  {
    hide Core, PhaseOk, Strict, Fresh, Exact, IdleFrom, Inv, NextSweep, Finish, DropExceeded, Rebuild, Sids, Count, Over, Capped, NoLess, Bump;
    SweepingFacts(r, size, all);
    var i, snapshot, s := r.phase.i, r.phase.snapshot, r.pending[0].session;
    IdleHead(r, i, snapshot);
    HeadIsPending(r);
    if reply.Accepted? {
      SubmitSpoilt(r, snapshot[i]);
      SubmitKeeps(r, snapshot[i], size, all);
      NextSweepSpoilt(Submit(r, snapshot[i]), i + 1, snapshot, size, all);
    } else if r.consecutive + 1 >= Limit(r) {
      var r1 := Requeue(CountRaise(r));
      var r2 := r1.(ledger := r1.ledger.(aborts := r1.ledger.aborts + 1));
      AbortCore(r, size, all);
      CountedSpoilt(r, r2, s);
      AbortSpoilt(r2, size, all);
    } else {
      RaiseAndRebuildKeeps(r, snapshot[i], size, all);
      var r1 := RaiseAndRebuild(r, snapshot[i]);
      CountFailureKeeps(r1, s, size, all);
      CountedSpoilt(r, CountFailure(r1, s), s);
      NextSweepSpoilt(CountFailure(r1, s), i + 1, snapshot, size, all);
    }
  }

  lemma AbortSpoilt(r: Run, size: nat, all: multiset<Session>)
    requires Core(r, size, all) && (Over(r) || Capped(r)) && r.consecutive >= Limit(r) && r.ledger.aborts == 1
    ensures Spoilt(AfterSweep(r))
  {
    hide Core, Over, Capped, NoLess, Finish;
    FinishNoLess(r, size, all);
    FinishKeeps(r, size, all);
    if Over(r) { StaysOver(r, Finish(r)); } else { CappedIsActive(r); }
  }

  // ---- the other phases ----

  lemma FillNoLess(r: Run, reply: Reply, size: nat, all: multiset<Session>)
    requires Inv(r, size, all) && r.phase.Filling? && Applies(r, reply)
    ensures NoLess(r, OnFill(r, reply))
  {
    hide Core, Fresh, Exact, Strict, PhaseOk, IdleFrom, Inv, AbortFill, LoopHead, Rebuild, WorkersOf, Bump;
    FillingFacts(r, size, all);
    FillNeverAborts(r, size, all);
    var i, snapshot := r.phase.i, r.phase.snapshot;
    IdleHead(r, i, snapshot);
    if reply.Accepted? {
      SubmitKeeps(r, snapshot[i], size, all);
      LoopHeadNoLess(Submit(r, snapshot[i]), size, all);
    } else {
      RaiseAndRebuildKeeps(r, snapshot[i], size, all);
      LoopHeadNoLess(RaiseAndRebuild(r, snapshot[i]), size, all);
    }
  }

  lemma RefillNoLess(r: Run, reply: Reply, size: nat, all: multiset<Session>)
    requires Inv(r, size, all) && r.phase.Refilling? && Applies(r, reply)
    ensures NoLess(r, OnRefill(r, reply))
  {
    hide Core, Fresh, Exact, Strict, PhaseOk, Inv, LoopHead, IndexOf, WorkersOf, Bump, Count, Settled, InHand, LedgerInHand;
    RefillingFacts(r, size, all);
    var w, job := r.phase.worker, r.pending[0];
    if reply.Accepted? {
      SubmitKeeps(r, w, size, all);
      LoopHeadNoLess(Submit(r, w), size, all);
    } else {
      var r1 := CountRaise(r).(pending := r.pending[1..]);
      RefusedInHand(r, size, all);
      RebuildAndRetrySettles(r1, w, job, size, all);
      var r' := RetryOrGiveUp(CountFailure(Rebuild(r1, w), job.session), job);
      SettledFacts(r1, r', size, all);
      LoopHeadNoLess(r', size, all);
    }
  }

  lemma DeathNoLess(r: Run, k: nat, size: nat, all: multiset<Session>)
    requires Inv(r, size, all) && r.phase.Waiting? && k < |r.active|
    ensures NoLess(r, LoopHead(OnDeath(Collect(r, k), r.active[k])))
  {
    hide Inv, Core, Strict, Exact, Fresh, LoopHead, IndexOf, WorkersOf, Settled, Bump, Count, InHand, LedgerInHand, PoolOk, OnDeath;
    WaitingFacts(r, size, all);
    CancelLoopsNeverFire(r, k, size, all);
    CollectedInHand(r, k, size, all);
    var task := r.active[k];
    var r1 := Collect(r, k);
    var r2 := r1.(consecutive := r1.consecutive + 1);
    DeathInHand(r1, task.job.session, size, all);
    if r2.consecutive >= Limit(r2) {
      GiveUpSettles(r2, task.job.session, true, size, all);
    } else {
      RebuildAndRetrySettles(r2, task.worker, task.job, size, all);
    }
    SettledFacts(r2, OnLoneDeath(r1, task), size, all);
    LoopHeadNoLess(OnLoneDeath(r1, task), size, all);
  }

  lemma WaitNoLess(r: Run, reply: Reply, size: nat, all: multiset<Session>)
    requires Inv(r, size, all) && r.phase.Waiting? && Applies(r, reply)
    ensures NoLess(r, Step(r, reply))
  {
    hide Inv, Core, Strict, Exact, Fresh, LoopHead, WorkersOf, Settled, InHand, LedgerInHand, PoolOk, OnDeath;
    WaitingFacts(r, size, all);
    match reply
    case TimedOut => LoopHeadNoLess(r, size, all);
    case Completed(k, outcome) =>
      match outcome {
        case Archived =>
          SucceedSettles(r, k, size, all);
          LoopHeadNoLess(Succeed(Collect(r, k), r.active[k].job.session), size, all);
        case Died => DeathNoLess(r, k, size, all);
        case Broken =>
          CollectedInHand(r, k, size, all);
          var r1, s := Collect(r, k), r.active[k].job.session;
          GiveUpSettles(r1, s, false, size, all);
          SettledFacts(r1, GiveUp(r1, s), size, all);
          LoopHeadNoLess(GiveUp(r1, s), size, all);
      }
  }

  lemma AbortSpoils(r: Run, reply: Reply, size: nat, all: multiset<Session>)
    requires Inv(r, size, all) && Applies(r, reply) && AbortsSweep(r, reply)
    ensures Spoilt(OnSweep(r, reply))
  {
    hide Core, PhaseOk, Inv, Over, Capped, Finish;
    SweepingFacts(r, size, all);
    var r1 := Requeue(CountRaise(r));
    var r2 := r1.(ledger := r1.ledger.(aborts := r1.ledger.aborts + 1));
    AbortCore(r, size, all);
    FinishKeeps(r2, size, all);
  }

  lemma StepSpoilt(r: Run, reply: Reply, size: nat, all: multiset<Session>)
    requires Inv(r, size, all) && Applies(r, reply) && (Spoilt(r) || AcceptsAtCap(r, reply) || AbortsSweep(r, reply))
    ensures Spoilt(Step(r, reply))
  {
    hide Inv, Over, Capped, NoLess, OnSweep, OnFill, OnRefill, OnCompleted, LoopHead, Retriable, AbortsSweep;
    if AbortsSweep(r, reply) {
      AbortsSweeping(r, reply);
      AbortSpoils(r, reply, size, all);
    } else {
      match r.phase
      case Sweeping(_, _) => SweepSpoilt(r, reply, size, all);
      case Filling(_, _) => FillNoLess(r, reply, size, all); StaysOver(r, Step(r, reply));
      case Refilling(_) => RefillNoLess(r, reply, size, all); StaysOver(r, Step(r, reply));
      case Waiting => WaitNoLess(r, reply, size, all); StaysOver(r, Step(r, reply));
    }
  }

  lemma AbortsSweeping(r: Run, reply: Reply)
    requires AbortsSweep(r, reply)
    ensures r.phase.Sweeping?
  {}

  lemma {:induction false} RunSpoilt(r: Run, env: seq<Reply>, size: nat, all: multiset<Session>)
    requires Inv(r, size, all) && ValidRun(r, env) && (Spoilt(r) || !NeverSpoils(r, env))
    ensures Spoilt(Exec(r, env))
    decreases |env|
  {
    hide Inv, Spoilt, Step, Applies, AcceptsAtCap, AbortsSweep;
    if env != [] {
      StepKeepsInv(r, env[0], size, all);
      if Spoilt(r) || AcceptsAtCap(r, env[0]) || AbortsSweep(r, env[0]) { StepSpoilt(r, env[0], size, all); }
      RunSpoilt(Step(r, env[0]), env[1..], size, all);
    }
  }

  // ---- the theorem ----

  lemma EndIff(r: Run, sessions: seq<Session>, size: nat)
    requires Inv(r, size, multiset(sessions)) && r.phase.Finished?
    ensures Sound(r) ==> Partitioned(r, sessions)
    ensures Spoilt(r) ==> !Partitioned(r, sessions)
  {
    hide Pool, Retries, LedgerOk;
    assert Sids([]) == multiset{} && JobsOf([]) == [];
    var all := multiset(sessions);
    if r.active == [] {
      assert all == multiset(r.done) + r.ledger.gone;
      if Over(r) {
        var s :| r.failed[s] > r.ledger.gone[s];
        assert (multiset(r.done) + r.failed)[s] > all[s];
      }
    }
  }

  /** A finished run has put every session once into exactly one of archived and failed, with no call left running,
      exactly if no sweep handed on a session at the cap and none was aborted with calls running. */
  lemma PartitionedIff(workers: seq<Worker>, nextWorker: Worker, sessions: seq<Session>, env: seq<Reply>)
    requires Finishes(workers, nextWorker, sessions, env)
    ensures var start := Start(workers, nextWorker, sessions);
            Partitioned(Exec(start, env), sessions) <==> NeverSpoils(start, env)
  {
    hide Start, Exec, ValidRun, NeverSpoils, Inv, Callable, Partitioned, Sound, Spoilt, TameRun, Strict;
    var start, all := Start(workers, nextWorker, sessions), multiset(sessions);
    StartInv(workers, nextWorker, sessions);
    RunInv(workers, nextWorker, sessions, env);
    StrictIsSound(start);
    if NeverSpoils(start, env) {
      RunSound(start, env, |workers|, all);
    } else {
      RunSpoilt(start, env, |workers|, all);
    }
    EndIff(Exec(start, env), sessions, |workers|);
  }

  lemma StrictIsSound(r: Run)
    requires Strict(r)
    ensures Sound(r)
  {}
}
