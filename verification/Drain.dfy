/** Draining the queue: one pass always ends, and leaves nothing claimable. */
module Drain {
  import opened BingX
  import opened Common
  import opened Config
  import opened Sums
  import opened Tables
  import opened Transfers

  /** How many more tasks the row can cost while nobody resets it: max(1, 3 - attempts). */
  function Weight(tr: Transfer): nat {
    if tr.status !in {TrPending, TrProcessing} then 0
    else if MAX_TRANSFER_ATTEMPTS - tr.attempts > 1 then MAX_TRANSFER_ATTEMPTS - tr.attempts
    else 1
  }

  function Weights(rows: map<Id, Transfer>): (m: map<string, nat>)
    ensures m.Keys == rows.Keys && forall i :: i in rows ==> m[i] == Weight(rows[i])
  {
    map i | i in rows :: Weight(rows[i])
  }

  /** The sum of max(1, 3 - attempt_number) over pending and processing transfers. */
  ghost function Backlog(rows: map<Id, Transfer>): nat {
    Total(Weights(rows))
  }

  /** One processed task always shrinks the backlog, whatever the exchange answers. */
  lemma TaskShrinksBacklog(db: Db, s: Settings, i: Id, r: Reply, now: Time, recordedAt: Time)
    requires Claimable(db, s, now, i)
    ensures var job := JobOf(i, WithClaim(db.transfers[i], now));
      Backlog(
        Record(ClaimRow(db, i, now), job, VerdictOf(r, job.attempt), recordedAt).transfers) < Backlog(db.transfers)
  {
    var tr := db.transfers[i];
    var job := JobOf(i, WithClaim(tr, now));
    var v := VerdictOf(r, job.attempt);
    var tr2 := WithVerdict(WithClaim(tr, now), v, recordedAt);
    assert tr.status in {TrPending, TrProcessing};
    VerdictCosts(tr, r, now, recordedAt);
    var rows2 := Record(ClaimRow(db, i, now), job, v, recordedAt).transfers;
    assert rows2 == db.transfers[i := tr2];
    assert Weights(rows2) == Weights(db.transfers)[i := Weight(tr2)];
    TotalUpdate(Weights(db.transfers), i, Weight(tr2));
  }

  lemma NextShrinks(db: Db, locked: set<Id>, s: Settings, job: Job, r: Reply, now: Time, recordedAt: Time)
    requires NextJob(db, job, locked, s, now)
    ensures Backlog(Record(ClaimRow(db, job.transferId, now), job, VerdictOf(r, job.attempt), recordedAt).transfers)
              < Backlog(db.transfers)
  {
    TaskShrinksBacklog(db, s, job.transferId, r, now, recordedAt);
  }

  lemma TaskTaken(db: Db, db2: Db, locked: set<Id>, s: Settings, exchange: Job -> Reply,
                  now: Time, recordedAt: Time, job: Job)
    requires OneTask(db, db2, locked, s, exchange, now, recordedAt, Some(job))
    ensures NextJob(db, job, locked, s, now)
    ensures db2 == Record(ClaimRow(db, job.transferId, now), job, VerdictOf(exchange(job), job.attempt), recordedAt)
  {
  }

  lemma VerdictCosts(tr: Transfer, r: Reply, now: Time, recordedAt: Time)
    requires tr.status in {TrPending, TrProcessing}
    ensures Weight(WithVerdict(WithClaim(tr, now), VerdictOf(r, tr.attempts + 1), recordedAt)) < Weight(tr)
  {
    hide IsDuplicate, IsInsufficientBalance, IsRecipientNotFound;
  }

  /** The state after the tasks of a drain, in order: the nth is claimed at clock(n), answered by
      exchange(n) and recorded at recorded(n). */
  ghost function AfterTasks(
      db: Db, jobs: seq<Job>, exchange: (nat, Job) -> Reply, clock: nat -> Time, recorded: nat -> Time): Db
  {
    if jobs == [] then db else
    var (n, j) := (|jobs| - 1, jobs[|jobs| - 1]);
    var before := AfterTasks(db, jobs[..n], exchange, clock, recorded);
    Record(ClaimRow(before, j.transferId, clock(n)), j, VerdictOf(exchange(n, j), j.attempt), recorded(n))
  }

  /** The jobs are the tasks a drain claims, one after the other. */
  ghost predicate ClaimedInTurn(
      db: Db, jobs: seq<Job>, locked: set<Id>, s: Settings,
      exchange: (nat, Job) -> Reply, clock: nat -> Time, recorded: nat -> Time)
  {
    forall n :: 0 <= n < |jobs| ==>
      NextJob(AfterTasks(db, jobs[..n], exchange, clock, recorded), jobs[n], locked, s, clock(n))
  }

  /** The job is what a claim at this time takes. */
  ghost predicate NextJob(db: Db, job: Job, locked: set<Id>, s: Settings, now: Time) {
    && IsNext(db, locked, s, now, job.transferId)
    && job == JobOf(job.transferId, ClaimRow(db, job.transferId, now).transfers[job.transferId])
  }

  /** Processes tasks until none is claimable, or one aborts: then the tasks before it stay
      committed.  `locked` are the rows other workers hold. */
  method DrainQueue(store: Store, locked: set<Id>, s: Settings,
                    exchange: (nat, Job) -> Reply, clock: nat -> Time, recorded: nat -> Time, aborts: nat -> bool)
    returns (processed: nat, failed: bool, ghost jobs: seq<Job>)
    modifies store
    ensures processed == |jobs| <= Backlog(old(store.transfers)) - Backlog(store.transfers)
    ensures store.Snapshot() == AfterTasks(old(store.Snapshot()), jobs, exchange, clock, recorded)
    ensures ClaimedInTurn(old(store.Snapshot()), jobs, locked, s, exchange, clock, recorded)
    ensures failed == aborts(processed)
    ensures !failed ==>
      forall i :: i in store.transfers && i !in locked ==> !Claimable(store.Snapshot(), s, clock(processed), i)
  {
    hide Record, ClaimRow, VerdictOf, NextJob, Backlog, Claimable;
    processed := 0;
    jobs := [];
    while true
      invariant processed == |jobs| && processed + Backlog(store.transfers) <= Backlog(old(store.transfers))
      invariant store.Snapshot() == AfterTasks(old(store.Snapshot()), jobs, exchange, clock, recorded)
      invariant ClaimedInTurn(old(store.Snapshot()), jobs, locked, s, exchange, clock, recorded)
      decreases Backlog(store.transfers)
    {
      ghost var before := store.Snapshot();
      var n := processed;
      var more, done := ProcessInTransaction(store, locked, s, j => exchange(n, j), clock(n), recorded(n), aborts(n));
      if more.Err? {
        return processed, true, jobs;
      }
      if !more.value {
        return processed, false, jobs;
      }
      TaskTaken(before, store.Snapshot(), locked, s, j => exchange(n, j), clock(n), recorded(n), done.value);
      NextShrinks(before, locked, s, done.value, exchange(n, done.value), clock(n), recorded(n));
      assert (jobs + [done.value])[..n] == jobs;
      assert forall m :: 0 <= m < n ==> (jobs + [done.value])[..m] == jobs[..m];
      jobs := jobs + [done.value];
      processed := processed + 1;
    }
  }
}
