/** Every drain of the code is a stretch of the loop's run, and ends where the loop may wait. */
module DrainRuns {
  import opened Accounted
  import opened BingX
  import opened Common
  import opened Config
  import opened Drain
  import opened Runs
  import opened Tables
  import opened Transfers
  import opened Wake

  /** Call numbers are given out in order. */
  ghost predicate Fresh(w: World) {
    && (forall key :: key in w.ledger ==> w.ledger[key].callId < w.calls)
    && (forall c :: c in w.wire ==> c < w.calls)
  }

  lemma WorkerFresh(s: Settings, w: World, e: Event)
    requires ByWorker(e) && WorkerEnabled(s, w, e) && Fresh(w)
    ensures Fresh(WorkerStep(s, w, e))
  {
    hide ClaimRow, Record, RecordTransfer, RecordTxn, VerdictOf, IsNext, SaysAccepted, CallOf, WithPhase, JobOf;
  }

  lemma StepFresh(s: Settings, w: World, e: Event)
    requires Validated(s) && Fresh(w)
    ensures Fresh(Apply(s, w, e))
  {
    hide WorkerStep, ServiceStep, WorkerEnabled, ServiceEnabled;
    if Enabled(s, w, e) && ByWorker(e) { WorkerFresh(s, w, e); }
  }

  lemma {:induction false} RunFresh(s: Settings, w: World, es: seq<Event>)
    requires Validated(s) && Fresh(w)
    ensures Fresh(Exec(s, w, es))
  {
    if es != [] {
      RunFresh(s, w, es[..|es| - 1]);
      hide Apply, Fresh;
      StepFresh(s, Exec(s, w, es[..|es| - 1]), es[|es| - 1]);
    }
  }

  // ------------------------------------------------------------------------ one task

  /** An attempt on transfer i; the exchange accepts the call before it answers so, unless it has
      accepted the transfer before. */
  function TaskEvents(w: World, i: Id, now: Time, reply: Reply, recordedAt: Time): seq<Event>
    requires i in w.db.transfers
  {
    if SaysAccepted(reply) && w.db.transfers[i].key !in w.ledger
    then [ClaimTask(0, i, now, true), SendCall(0), Accept(w.calls), Answer(0, reply), Commit(0, recordedAt)]
    else Attempt(0, i, now, reply, recordedAt)
  }

  /** A step of the worker's own, or an acceptance by the exchange. */
  predicate InDrain(e: Event) { Own(e) || e.Accept? }

  /** The worker's call is on its way, and nothing else has changed. */
  ghost predicate Calling(w: World, w2: World, job: Job, now: Time) {
    && w2.db == w.db && w2.ledger == w.ledger
    && w2.workers == w.workers[0 := Worker(job, true, now, Sent(w.calls))]
    && w.calls in w2.wire && w2.wire[w.calls] == CallOf(job)
  }

  lemma ClaimedThenSent(s: Settings, w: World, i: Id, now: Time)
    requires Validated(s) && Enabled(s, w, ClaimTask(0, i, now, true)) && i in w.db.transfers
    ensures Calling(w, Apply(s, Apply(s, w, ClaimTask(0, i, now, true)), SendCall(0)),
                    JobOf(i, WithClaim(w.db.transfers[i], now)), now)
  {
    hide ServiceStep, ServiceEnabled, IsNext, SaysAccepted, LockedRows;
  }

  lemma SentThenAnswered(s: Settings, w: World, w2: World, job: Job, now: Time, reply: Reply)
    requires Validated(s) && Calling(w, w2, job, now) && SaysAccepted(reply) && job.key !in w.ledger
    ensures var w3 := Apply(s, Apply(s, w2, Accept(w.calls)), Answer(0, reply));
      w3.db == w.db && w3.workers == w.workers[0 := Worker(job, true, now, Answered(reply))]
  {
    hide ServiceStep, ServiceEnabled, IsNext, SaysAccepted, LockedRows;
  }

  lemma AcceptedThenAnswered(s: Settings, w: World, i: Id, now: Time, reply: Reply)
    requires Validated(s) && Enabled(s, w, ClaimTask(0, i, now, true)) && i in w.db.transfers
    requires SaysAccepted(reply) && w.db.transfers[i].key !in w.ledger
    ensures var w2 := Apply(s, Apply(s, Apply(s, w, ClaimTask(0, i, now, true)), SendCall(0)), Accept(w.calls));
      var w3 := Apply(s, w2, Answer(0, reply));
      && w3.db == w.db
      && w3.workers == w.workers[0 := Worker(JobOf(i, WithClaim(w.db.transfers[i], now)), true, now, Answered(reply))]
  {
    hide Apply, Enabled, SaysAccepted, Calling;
    ClaimedThenSent(s, w, i, now);
    SentThenAnswered(s, w, Apply(s, Apply(s, w, ClaimTask(0, i, now, true)), SendCall(0)),
                     JobOf(i, WithClaim(w.db.transfers[i], now)), now, reply);
  }

  lemma AcceptedTask(s: Settings, w: World, i: Id, now: Time, reply: Reply, recordedAt: Time)
    requires Validated(s) && Enabled(s, w, ClaimTask(0, i, now, true)) && i in w.db.transfers
    requires SaysAccepted(reply) && w.db.transfers[i].key !in w.ledger
    ensures var w2 := Exec(s, w, TaskEvents(w, i, now, reply, recordedAt));
      && OneTask(w.db, w2.db, LockedRows(w), s, _ => reply, now, recordedAt,
        Some(JobOf(i, WithClaim(w.db.transfers[i], now))))
      && w2.workers == w.workers
  {
    hide Exec, Enabled, Apply, SaysAccepted, LockedRows, OneTask;
    var (a, b, c, d, e) := (ClaimTask(0, i, now, true), SendCall(0), Accept(w.calls), Answer(0, reply),
      Commit(0, recordedAt));
    EmptyRun(s, w);
    AttemptRun(s, w, [], a, b, c);
    assert [] + [a, b, c] == [a, b, c];
    ExecAppend(s, w, [a, b, c], d);
    ExecAppend(s, w, [a, b, c] + [d], e);
    assert [a, b, c] + [d] + [e] == [a, b, c, d, e];
    AcceptedThenAnswered(s, w, i, now, reply);
    CommitIsRecord(s, w, Exec(s, w, [a, b, c] + [d]), 0, i, now, reply, recordedAt);
  }

  /** The events of a task, whatever the exchange answers, do what the worker's code does. */
  lemma TaskIsEvents(s: Settings, w: World, job: Job, now: Time, reply: Reply, recordedAt: Time)
    requires Validated(s) && w.workers == map[] && Fresh(w) && NextJob(w.db, job, {}, s, now)
    ensures job.transferId in w.db.transfers
    ensures var w2 := Exec(s, w, TaskEvents(w, job.transferId, now, reply, recordedAt));
      && w2.db == Record(ClaimRow(w.db, job.transferId, now), job, VerdictOf(reply, job.attempt), recordedAt)
      && w2.workers == map[]
  {
    var i := job.transferId;
    NextJobRow(s, w, job, now);
    hide Exec, Enabled, SaysAccepted, Record, VerdictOf, ClaimRow;
    if SaysAccepted(reply) && w.db.transfers[i].key !in w.ledger {
      AcceptedTask(s, w, i, now, reply, recordedAt);
    } else {
      AttemptIsOneTask(s, w, 0, i, now, reply, recordedAt);
    }
  }

  lemma NextJobRow(s: Settings, w: World, job: Job, now: Time)
    requires w.workers == map[] && NextJob(w.db, job, {}, s, now)
    ensures job.transferId in w.db.transfers
      && job == JobOf(job.transferId, WithClaim(w.db.transfers[job.transferId], now))
    ensures Enabled(s, w, ClaimTask(0, job.transferId, now, true))
  {
    assert LockedRows(w) == {};
    hide Ready;
  }

  lemma TaskInDrain(w: World, i: Id, now: Time, reply: Reply, recordedAt: Time)
    requires i in w.db.transfers
    ensures forall n :: 0 <= n < |TaskEvents(w, i, now, reply, recordedAt)| ==>
      InDrain(TaskEvents(w, i, now, reply, recordedAt)[n])
  {
    hide SaysAccepted;
  }

  // ----------------------------------------------------------------- the whole drain

  /** Events that a drain runs through, and what they come to. */
  ghost predicate DrainedBy(s: Settings, w: World, es: seq<Event>, db: Db)
    requires Validated(s)
  {
    && (forall n :: 0 <= n < |es| ==> InDrain(es[n]))
    && Exec(s, w, es).db == db && Exec(s, w, es).workers == map[] && Fresh(Exec(s, w, es))
  }

  /** The tasks of a drain are a run of events. */
  lemma {:induction false} DrainIsRun(
      s: Settings, w: World, jobs: seq<Job>, exchange: (nat, Job) -> Reply, clock: nat -> Time, recorded: nat -> Time)
    returns (es: seq<Event>)
    requires Validated(s) && w.workers == map[] && Fresh(w)
    requires ClaimedInTurn(w.db, jobs, {}, s, exchange, clock, recorded)
    ensures DrainedBy(s, w, es, AfterTasks(w.db, jobs, exchange, clock, recorded))
  {
    if jobs == [] {
      es := [];
    } else {
      var (init, n, job) := (jobs[..|jobs| - 1], |jobs| - 1, jobs[|jobs| - 1]);
      LastTask(w.db, jobs, s, exchange, clock, recorded);
      hide Exec, NextJob, Fresh, InDrain, AfterTasks, ClaimedInTurn, DrainedBy;
      var before := DrainIsRun(s, w, init, exchange, clock, recorded);
      var task := OneMore(s, w, before, AfterTasks(w.db, init, exchange, clock, recorded), job, clock(n),
                          exchange(n, job), recorded(n));
      es := before + task;
    }
  }

  lemma LastTask(
      db: Db, jobs: seq<Job>, s: Settings, exchange: (nat, Job) -> Reply, clock: nat -> Time, recorded: nat -> Time)
    requires jobs != [] && ClaimedInTurn(db, jobs, {}, s, exchange, clock, recorded)
    ensures var (init, n, job) := (jobs[..|jobs| - 1], |jobs| - 1, jobs[|jobs| - 1]);
      var before := AfterTasks(db, init, exchange, clock, recorded);
      && ClaimedInTurn(db, init, {}, s, exchange, clock, recorded)
      && NextJob(before, job, {}, s, clock(n))
      && AfterTasks(db, jobs, exchange, clock, recorded) ==
           Record(ClaimRow(before, job.transferId, clock(n)), job, VerdictOf(exchange(n, job), job.attempt),
             recorded(n))
  {
    hide NextJob, Record, ClaimRow, VerdictOf, ClaimedInTurn;
    TurnsBefore(db, jobs, s, exchange, clock, recorded);
  }

  lemma TurnsBefore(
      db: Db, jobs: seq<Job>, s: Settings, exchange: (nat, Job) -> Reply, clock: nat -> Time, recorded: nat -> Time)
    requires jobs != [] && ClaimedInTurn(db, jobs, {}, s, exchange, clock, recorded)
    ensures ClaimedInTurn(db, jobs[..|jobs| - 1], {}, s, exchange, clock, recorded)
    ensures NextJob(AfterTasks(db, jobs[..|jobs| - 1], exchange, clock, recorded), jobs[|jobs| - 1], {}, s,
                    clock(|jobs| - 1))
  {
    hide NextJob, AfterTasks;
    var init := jobs[..|jobs| - 1];
    forall n | 0 <= n < |init|
      ensures NextJob(AfterTasks(db, init[..n], exchange, clock, recorded), init[n], {}, s, clock(n))
    {
      assert init[..n] == jobs[..n];
    }
  }

  lemma OneMore(s: Settings, w: World, es: seq<Event>, db: Db, job: Job, now: Time, reply: Reply, recordedAt: Time)
    returns (task: seq<Event>)
    requires Validated(s) && DrainedBy(s, w, es, db) && NextJob(db, job, {}, s, now)
    ensures DrainedBy(s, w, es + task,
                      Record(ClaimRow(db, job.transferId, now), job, VerdictOf(reply, job.attempt), recordedAt))
  {
    hide Exec, NextJob, Fresh, InDrain, Record, ClaimRow, VerdictOf, TaskEvents;
    var mid := Exec(s, w, es);
    TaskIsEvents(s, mid, job, now, reply, recordedAt);
    task := TaskEvents(mid, job.transferId, now, reply, recordedAt);
    TaskInDrain(mid, job.transferId, now, reply, recordedAt);
    ExecSplit(s, w, es, task);
    RunFresh(s, mid, task);
  }

  /** The acts of the loop that these events are. */
  function ActsOf(es: seq<Event>): (acts: seq<Act>)
    ensures |acts| == |es|
  {
    if es == [] then [] else
    var e := es[|es| - 1];
    ActsOf(es[..|es| - 1]) + [if e.Accept? then Env(e) else Work(e)]
  }

  lemma {:induction false} LoopFollows(s: Settings, l: Loop, es: seq<Event>)
    requires Validated(s) && l.pc.Draining? && forall n :: 0 <= n < |es| ==> InDrain(es[n])
    ensures RunFrom(s, l, ActsOf(es)).world == Exec(s, l.world, es) && RunFrom(s, l, ActsOf(es)).pc.Draining?
  {
    if es != [] {
      var (init, e) := (es[..|es| - 1], es[|es| - 1]);
      LoopFollows(s, l, init);
      assert ActsOf(es)[..|es| - 1] == ActsOf(init);
      hide Enabled, Step;
    }
  }

  /** The code's drain and the loop's: from a draining loop without a task under way, every drain
      that DrainQueue can report is a sequence of this worker's steps and the exchange's
      acceptances, reaches the same tables, and, when it ended normally at a final claim that found
      nothing, may finish there. */
  lemma {:induction false} DrainMayFinish(
      s: Settings, l: Loop, jobs: seq<Job>, exchange: (nat, Job) -> Reply, clock: nat -> Time, recorded: nat -> Time)
    returns (acts: seq<Act>)
    requires Validated(s) && l.pc.Draining? && l.world.workers == map[] && Fresh(l.world)
    requires ClaimedInTurn(l.world.db, jobs, {}, s, exchange, clock, recorded)
    requires var db := AfterTasks(l.world.db, jobs, exchange, clock, recorded);
      forall i :: i in db.transfers ==> !Claimable(db, s, clock(|jobs|), i)
    ensures forall n :: 0 <= n < |acts| ==> acts[n].Work? || (acts[n].Env? && acts[n].e.Accept?)
    ensures var l2 := RunFrom(s, l, acts);
      && l2.world.db == AfterTasks(l.world.db, jobs, exchange, clock, recorded)
      && Can(s, l2, FinishDrain(clock(|jobs|)))
  {
    hide Exec, RunFrom, Fresh, Claimable, AfterTasks, ClaimedInTurn;
    var es := DrainIsRun(s, l.world, jobs, exchange, clock, recorded);
    LoopFollows(s, l, es);
    acts := ActsOf(es);
    OnlyWork(es);
  }

  lemma {:induction false} OnlyWork(es: seq<Event>)
    ensures forall n :: 0 <= n < |es| ==> ActsOf(es)[n].Work? || (ActsOf(es)[n].Env? && ActsOf(es)[n].e.Accept?)
  {
    if es != [] { OnlyWork(es[..|es| - 1]); }
  }
}
