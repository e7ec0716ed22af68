/** How often a transfer is attempted before it ends in error. */
module Retries {
  import opened BingX
  import opened Config
  import opened Coupling
  import opened Ledger
  import opened Moves
  import opened Runs
  import opened Tables
  import opened Timing
  import opened Transfers
  import opened Truth
  import opened Webhooks

  // ------------------------------------------------------------------ held rows

  /** A worker that holds its row will commit the attempt after the row's last, and the row stays
      claimable by status. */
  predicate HeldRow(rows: map<Id, Transfer>, k: Worker) {
    && k.job.transferId in rows
    && var tr := rows[k.job.transferId];
      tr.status in {TrPending, TrProcessing} && k.job.attempt == tr.attempts + 1
  }

  /** A worker that does not hold its row has committed its claim. */
  predicate CommittedJob(rows: map<Id, Transfer>, k: Worker) {
    k.job.transferId in rows && 0 < k.job.attempt <= rows[k.job.transferId].attempts
  }

  ghost predicate JobsCounted(w: World) {
    forall k :: k in w.workers ==>
      if w.workers[k].locked then HeldRow(w.db.transfers, w.workers[k])
      else CommittedJob(w.db.transfers, w.workers[k])
  }

  /** A chargeback that would cancel a held row waits. */
  lemma HeldNotReversed(s: Settings, w: World, e: Event, k: nat)
    requires Wired(w) && k in w.workers && w.workers[k].locked && HeldRow(w.db.transfers, w.workers[k])
    ensures !ChargesBack(s, w, e, w.workers[k].job.txId)
  {
    JobRow(w, k);
    assert w.workers[k].job.transferId in LockedRows(w);
    hide Wired;
  }

  /** Only its holder writes to a held row. */
  lemma HeldNotWritten(s: Settings, w: World, e: Event, k: nat)
    requires HoldersAlone(w.workers) && k in w.workers && w.workers[k].locked
    requires HeldRow(w.db.transfers, w.workers[k]) && !(e.Commit? && e.worker == k)
    ensures var i := w.workers[k].job.transferId;
      !ClaimsRow(s, w, e, i) && !RecordsRow(s, w, e, i) && !Resets(s, w, e, i)
  {
    var i := w.workers[k].job.transferId;
    assert i in LockedRows(w);
    hide Ready, SaysAccepted, VerdictOf, ServiceEnabled;
    if e.ClaimTask? && Enabled(s, w, e) { ClaimedIsReady(s, w, e); }
    if Resets(s, w, e, i) { OnHoldReset(s, w, e, i); }
  }

  lemma HeldStays(s: Settings, w: World, e: Event, k: nat)
    requires Validated(s) && Wired(w) && HoldersAlone(w.workers) && k in w.workers && w.workers[k].locked
    requires HeldRow(w.db.transfers, w.workers[k]) && !(e.Commit? && e.worker == k)
    ensures HeldRow(Apply(s, w, e).db.transfers, w.workers[k])
  {
    hide Apply, Wired, HoldersAlone, ChargesBack, ClaimsRow, RecordsRow, Resets, Enabled, Step;
    var i := w.workers[k].job.transferId;
    HeldNotReversed(s, w, e, k);
    HeldNotWritten(s, w, e, k);
    JobRow(w, k);
    StepRow(s, w, e, i);
  }

  lemma AttemptsGrow(s: Settings, w: World, e: Event, i: Id)
    requires Validated(s) && i in w.db.transfers
    ensures i in Apply(s, w, e).db.transfers
    ensures w.db.transfers[i].attempts <= Apply(s, w, e).db.transfers[i].attempts
  {
    hide Apply, ClaimOf;
    StepAttempts(s, w, e, i);
  }

  /** A new worker's job is the attempt after the row's last. */
  lemma NewJob(s: Settings, w: World, e: Event)
    requires Validated(s) && e.ClaimTask? && Enabled(s, w, e)
    ensures var w2 := Apply(s, w, e);
      && e.worker in w2.workers && w2.workers[e.worker].locked == e.locked
      && w2.workers[e.worker].job.transferId == e.transferId
      && if e.locked then HeldRow(w2.db.transfers, w2.workers[e.worker])
         else CommittedJob(w2.db.transfers, w2.workers[e.worker])
  {
    ClaimedIsReady(s, w, e);
    hide ServiceStep, ServiceEnabled, SaysAccepted, VerdictOf, IsNext;
  }

  lemma JobKept(s: Settings, w: World, e: Event, k: nat)
    requires Validated(s) && Wired(w) && HoldersAlone(w.workers) && JobsCounted(w) && Enabled(s, w, e)
    requires k in w.workers && k in Apply(s, w, e).workers
    ensures var rows := Apply(s, w, e).db.transfers;
      if w.workers[k].locked then HeldRow(rows, w.workers[k]) else CommittedJob(rows, w.workers[k])
  {
    hide Wired, HoldersAlone, HeldRow, Enabled, Step;
    if w.workers[k].locked {
      if e.Commit? { CommitLeaves(s, w, e); }
      hide Apply;
      HeldStays(s, w, e, k);
    } else {
      hide Apply;
      AttemptsGrow(s, w, e, w.workers[k].job.transferId);
    }
  }

  lemma SameJob(rows: map<Id, Transfer>, k: Worker, k2: Worker)
    requires k2.job == k.job
    ensures HeldRow(rows, k) == HeldRow(rows, k2) && CommittedJob(rows, k) == CommittedJob(rows, k2)
  {
  }

  lemma StepJobsCounted(s: Settings, w: World, e: Event)
    requires Validated(s) && Wired(w) && HoldersAlone(w.workers) && JobsCounted(w)
    ensures JobsCounted(Apply(s, w, e))
  {
    hide Wired, HoldersAlone, HeldRow, CommittedJob, Enabled, Step;
    if Enabled(s, w, e) {
      StepWorkers(s, w, e);
      if e.ClaimTask? {
        ClaimedIsReady(s, w, e);
        NewJob(s, w, e);
      }
      var w2 := Apply(s, w, e);
      forall k | k in w2.workers
        ensures if w2.workers[k].locked then HeldRow(w2.db.transfers, w2.workers[k])
                else CommittedJob(w2.db.transfers, w2.workers[k])
      {
        if k in w.workers {
          JobKept(s, w, e, k);
          SameJob(w2.db.transfers, w.workers[k], w2.workers[k]);
        }
      }
    }
  }

  lemma {:induction false} RunJobsCounted(s: Settings, es: seq<Event>)
    requires Validated(s)
    ensures HoldersAlone(Exec(s, START, es).workers) && JobsCounted(Exec(s, START, es))
  {
    if es != [] {
      RunJobsCounted(s, es[..|es| - 1]);
      RunBooks(s, es[..|es| - 1]);
      hide Apply, Wired, Linked, Truthful, HoldersAlone, JobsCounted;
      StepHoldersAlone(s, Exec(s, START, es[..|es| - 1]), es[|es| - 1]);
      StepJobsCounted(s, Exec(s, START, es[..|es| - 1]), es[|es| - 1]);
    }
  }

  // ------------------------------------------------------ what a row may still use up

  /** The worker can still write its row back to pending: its claim is committed, its verdict is
      not, and its attempt is below the limit. */
  predicate MayRetry(k: Worker, i: Id) {
    !k.locked && k.job.transferId == i && k.job.attempt < MAX_TRANSFER_ATTEMPTS && !k.phase.RowRecorded?
  }

  function Retrying(workers: map<nat, Worker>, i: Id): set<nat> {
    set k | k in workers && MayRetry(workers[k], i)
  }

  /** The attempts of a row, one more while it is pending, and those of the first two not begun. */
  function Weight(tr: Transfer): nat {
    tr.attempts + (if tr.status == TrPending then 1 else 0) + (if tr.attempts < 2 then 2 - tr.attempts else 0)
  }

  /** The step commits a claim of a row found in processing: its last worker is taken for dead. */
  ghost predicate Reclaims(s: Settings, w: World, e: Event, i: Id) {
    && (ClaimsRow(s, w, e, i) || (e.Commit? && RecordsRow(s, w, e, i)))
    && i in w.db.transfers && w.db.transfers[i].status == TrProcessing
  }

  /** How many resets of the row, and how many stale reclaims, the run has. */
  ghost function ResetsOf(s: Settings, es: seq<Event>, i: Id): nat
    requires Validated(s)
  {
    if es == [] then 0 else
    ResetsOf(s, es[..|es| - 1], i)
    + if Resets(s, Exec(s, START, es[..|es| - 1]), es[|es| - 1], i) then 1 else 0
  }

  ghost function ReclaimsOf(s: Settings, es: seq<Event>, i: Id): nat
    requires Validated(s)
  {
    if es == [] then 0 else
    ReclaimsOf(s, es[..|es| - 1], i)
    + if Reclaims(s, Exec(s, START, es[..|es| - 1]), es[|es| - 1], i) then 1 else 0
  }

  /** The step's claim adds a worker that may retry, and its verdict takes one away. */
  ghost predicate Starts(s: Settings, w: World, e: Event, i: Id)
    requires i in w.db.transfers
  {
    ClaimsRow(s, w, e, i) && w.db.transfers[i].attempts + 1 < MAX_TRANSFER_ATTEMPTS
  }

  ghost predicate Ends(s: Settings, w: World, e: Event, i: Id) {
    e.RecordRow? && RecordsRow(s, w, e, i) && w.workers[e.worker].job.attempt < MAX_TRANSFER_ATTEMPTS
  }

  /** A claim adds its worker; no other step makes a worker one that may retry. */
  lemma MayRetryMove(s: Settings, w: World, e: Event, k: nat, i: Id)
    requires ByWorker(e) && WorkerEnabled(s, w, e) && !e.ClaimTask?
    requires k in WorkerStep(s, w, e).workers && MayRetry(WorkerStep(s, w, e).workers[k], i)
    ensures k in w.workers && MayRetry(w.workers[k], i) && !(e.RecordRow? && k == e.worker)
  {
    hide ClaimRow, Record, RecordTransfer, RecordTxn, VerdictOf, IsNext, SaysAccepted;
  }

  lemma MayRetryOnClaim(s: Settings, w: World, e: Event, k: nat, i: Id)
    requires e.ClaimTask? && WorkerEnabled(s, w, e) && i in w.db.transfers
    requires k in WorkerStep(s, w, e).workers && MayRetry(WorkerStep(s, w, e).workers[k], i)
    ensures (k in w.workers && MayRetry(w.workers[k], i)) || (k == e.worker && Starts(s, w, e, i))
  {
    hide IsNext, ServiceEnabled, SaysAccepted;
  }

  lemma RetryingMove(s: Settings, w: World, e: Event, i: Id)
    requires Validated(s) && i in w.db.transfers
    ensures forall k :: k in Retrying(Apply(s, w, e).workers, i) ==>
      || (k in Retrying(w.workers, i) && !(Ends(s, w, e, i) && k == e.worker))
      || (e.ClaimTask? && k == e.worker && Starts(s, w, e, i))
    ensures Ends(s, w, e, i) ==> e.worker in Retrying(w.workers, i)
  {
    hide ServiceStep, ServiceEnabled, WorkerStep, WorkerEnabled, MayRetry, Starts;
    if Ends(s, w, e, i) { EndsRetrying(s, w, e, i); }
    forall k | k in Retrying(Apply(s, w, e).workers, i)
      ensures || (k in Retrying(w.workers, i) && !(Ends(s, w, e, i) && k == e.worker))
              || (e.ClaimTask? && k == e.worker && Starts(s, w, e, i))
    {
      if Enabled(s, w, e) && ByWorker(e) {
        if e.ClaimTask? { MayRetryOnClaim(s, w, e, k, i); } else { MayRetryMove(s, w, e, k, i); }
      }
    }
  }

  lemma EndsRetrying(s: Settings, w: World, e: Event, i: Id)
    requires Ends(s, w, e, i)
    ensures e.worker in Retrying(w.workers, i)
  {
    hide ServiceEnabled, IsNext, SaysAccepted;
  }

  lemma RetryingStep(s: Settings, w: World, e: Event, i: Id)
    requires Validated(s) && i in w.db.transfers
    ensures |Retrying(Apply(s, w, e).workers, i)| + (if Ends(s, w, e, i) then 1 else 0) <=
            |Retrying(w.workers, i)| + (if Starts(s, w, e, i) then 1 else 0)
  {
    RetryingMove(s, w, e, i);
    hide Apply, Retrying, Starts, Ends;
    var (a, b) := (Retrying(w.workers, i), Retrying(Apply(s, w, e).workers, i));
    if Ends(s, w, e, i) {
      assert !Starts(s, w, e, i) by { EndsNotStarts(s, w, e, i); }
      SubsetSize(b, a - {e.worker});
    } else if Starts(s, w, e, i) {
      SubsetSize(b, a + {e.worker});
    } else {
      SubsetSize(b, a);
    }
  }

  lemma EndsNotStarts(s: Settings, w: World, e: Event, i: Id)
    requires i in w.db.transfers && Ends(s, w, e, i)
    ensures !Starts(s, w, e, i)
  {
  }

  lemma {:induction false} SubsetSize(a: set<nat>, b: set<nat>)
    requires a <= b
    ensures |a| <= |b|
  {
    if a != {} {
      var k :| k in a;
      SubsetSize(a - {k}, b - {k});
    }
  }

  /** A verdict to retry comes only below the limit. */
  lemma RetryBelowLimit(k: Worker)
    requires k.phase.Answered?
    ensures VerdictFor(k).Retry? ==> k.job.attempt < MAX_TRANSFER_ATTEMPTS
    ensures VerdictFor(k).Escalate? ==> k.job.attempt >= MAX_TRANSFER_ATTEMPTS
  {
    hide IsDuplicate, IsInsufficientBalance, IsRecipientNotFound;
  }

  lemma WeightOnClaim(tr: Transfer, now: Time)
    requires tr.status in {TrPending, TrProcessing}
    ensures Weight(WithClaim(tr, now)) + (if tr.attempts + 1 < MAX_TRANSFER_ATTEMPTS then 1 else 0) <=
            Weight(tr) + (if tr.status == TrProcessing then 1 else 0)
  {
  }

  lemma WeightOnVerdict(tr: Transfer, v: Verdict, now: Time)
    ensures Weight(WithVerdict(tr, v, now)) <= Weight(tr) + if v.Retry? then 1 else 0
  {
  }

  lemma WeightOnCommit(tr: Transfer, v: Verdict, claimedAt: Time, now: Time)
    requires tr.status in {TrPending, TrProcessing} && (v.Retry? ==> tr.attempts + 1 < MAX_TRANSFER_ATTEMPTS)
    ensures Weight(WithVerdict(WithClaim(tr, claimedAt), v, now)) <=
            Weight(tr) + if tr.status == TrProcessing then 1 else 0
  {
  }

  /** The verdict of a step comes from an answered worker that has committed its claim, or holds
      the row. */
  lemma RecordingWorker(s: Settings, w: World, e: Event, i: Id)
    requires JobsCounted(w) && RecordsRow(s, w, e, i)
    ensures e.worker in w.workers && w.workers[e.worker].phase.Answered?
    ensures if e.Commit? then HeldRow(w.db.transfers, w.workers[e.worker])
            else CommittedJob(w.db.transfers, w.workers[e.worker])
  {
    hide ServiceEnabled, HeldRow, CommittedJob, SaysAccepted, IsNext;
  }

  lemma ClaimedStatus(s: Settings, w: World, e: Event, i: Id)
    requires ClaimsRow(s, w, e, i)
    ensures i in w.db.transfers && w.db.transfers[i].status in {TrPending, TrProcessing}
  {
    ClaimedIsReady(s, w, e);
    hide Enabled;
  }

  lemma RowWeight(s: Settings, w: World, e: Event, i: Id)
    requires Validated(s) && JobsCounted(w) && i in w.db.transfers
    ensures i in Apply(s, w, e).db.transfers
    ensures Weight(Apply(s, w, e).db.transfers[i]) + (if Starts(s, w, e, i) then 1 else 0) <=
            Weight(w.db.transfers[i]) + (if Ends(s, w, e, i) then 1 else 0)
            + (if Resets(s, w, e, i) then 1 else 0) + (if Reclaims(s, w, e, i) then 1 else 0)
  {
    StepRow(s, w, e, i);
    hide Apply, JobsCounted, Enabled, Weight, WithClaim, WithVerdict, WithCancel, ChargesBack, VerdictOf;
    var tr := w.db.transfers[i];
    if ClaimsRow(s, w, e, i) {
      ClaimedStatus(s, w, e, i);
      WeightOnClaim(tr, e.now);
    } else if RecordsRow(s, w, e, i) {
      RecordingWorker(s, w, e, i);
      var k := w.workers[e.worker];
      RetryBelowLimit(k);
      if e.Commit? {
        WeightOnCommit(tr, VerdictFor(k), k.claimedAt, e.now);
      } else {
        WeightOnVerdict(tr, VerdictFor(k), e.now);
      }
    }
    if e.ChargebackHook? { WeightOnCancel(tr, e.now); }
    WeightOnReset(tr);
  }

  lemma WeightOnCancel(tr: Transfer, now: Time)
    ensures Weight(WithCancel(tr, now)) <= Weight(tr)
  {
  }

  lemma WeightOnReset(tr: Transfer)
    ensures Weight(tr.(status := TrPending)) <= Weight(tr) + 1
  {
  }

  lemma NoneRetryingYet(w: World, i: Id)
    requires JobsCounted(w) && i !in w.db.transfers
    ensures Retrying(w.workers, i) == {}
  {
  }

  /** A row inserted by a step is pending and not attempted, and no worker knows it. */
  lemma NewRowWeight(s: Settings, w: World, e: Event, i: Id)
    requires Validated(s) && JobsCounted(w) && i !in w.db.transfers && i in Apply(s, w, e).db.transfers
    ensures Weight(Apply(s, w, e).db.transfers[i]) == 3 && Retrying(Apply(s, w, e).workers, i) == {}
  {
    StepNewRow(s, w, e, i);
    NoneRetryingYet(w, i);
    SameWorkersOnPayment(s, w, e);
    hide Apply, JobsCounted, Retrying, Enabled;
  }

  lemma SameWorkersOnPayment(s: Settings, w: World, e: Event)
    requires Validated(s) && e.PaymentHook?
    ensures Apply(s, w, e).workers == w.workers
  {
    hide WorkerStep, WorkerEnabled, HandlePayment, Accepts;
  }

  /** What a row has used and may still use up is never more than three attempts, and one for each
      reset and each stale reclaim. */
  lemma {:induction false} RunWeight(s: Settings, es: seq<Event>, i: Id)
    requires Validated(s) && i in Exec(s, START, es).db.transfers
    ensures var w := Exec(s, START, es);
      Weight(w.db.transfers[i]) + |Retrying(w.workers, i)| <= 3 + ResetsOf(s, es, i) + ReclaimsOf(s, es, i)
  {
    var (init, e) := (es[..|es| - 1], es[|es| - 1]);
    var w := Exec(s, START, init);
    RunJobsCounted(s, init);
    hide Apply, JobsCounted, HoldersAlone, Retrying, Weight, Resets, Reclaims, Starts, Ends;
    if i in w.db.transfers {
      RunWeight(s, init, i);
      RowWeight(s, w, e, i);
      RetryingStep(s, w, e, i);
    } else {
      NewRowWeight(s, w, e, i);
    }
  }

  /** Over every run, at either granularity: at most three committed attempts, and one more for each
      reset by an admin and each stale reclaim; one less while the transfer waits for another. */
  lemma {:induction false} AttemptsAreBounded(s: Settings, es: seq<Event>, i: Id)
    requires Validated(s) && i in Exec(s, START, es).db.transfers
    ensures var tr := Exec(s, START, es).db.transfers[i];
      tr.attempts + (if tr.status == TrPending then 1 else 0) <=
        MAX_TRANSFER_ATTEMPTS + ResetsOf(s, es, i) + ReclaimsOf(s, es, i)
  {
    RunWeight(s, es, i);
    hide Exec, ResetsOf, ReclaimsOf, Retrying;
  }

  // ------------------------------------------------------------------ only then error

  ghost predicate ErrorsLate(rows: map<Id, Transfer>) {
    forall i :: i in rows && rows[i].status == TrError ==> rows[i].attempts >= MAX_TRANSFER_ATTEMPTS
  }

  lemma ErrorStep(s: Settings, w: World, e: Event, i: Id)
    requires Validated(s) && JobsCounted(w) && i in w.db.transfers
    requires w.db.transfers[i].status == TrError ==> w.db.transfers[i].attempts >= MAX_TRANSFER_ATTEMPTS
    ensures i in Apply(s, w, e).db.transfers
    ensures var tr := Apply(s, w, e).db.transfers[i];
      tr.status == TrError ==> tr.attempts >= MAX_TRANSFER_ATTEMPTS
  {
    StepRow(s, w, e, i);
    hide Apply, JobsCounted, Enabled, ChargesBack, VerdictOf;
    if RecordsRow(s, w, e, i) {
      RecordingWorker(s, w, e, i);
      RetryBelowLimit(w.workers[e.worker]);
    }
  }

  lemma {:induction false} RunErrorsLate(s: Settings, es: seq<Event>)
    requires Validated(s)
    ensures ErrorsLate(Exec(s, START, es).db.transfers)
  {
    if es != [] {
      var (w, e) := (Exec(s, START, es[..|es| - 1]), es[|es| - 1]);
      RunErrorsLate(s, es[..|es| - 1]);
      RunJobsCounted(s, es[..|es| - 1]);
      hide Apply, JobsCounted, HoldersAlone;
      forall i | i in Apply(s, w, e).db.transfers && Apply(s, w, e).db.transfers[i].status == TrError
        ensures Apply(s, w, e).db.transfers[i].attempts >= MAX_TRANSFER_ATTEMPTS
      {
        if i in w.db.transfers { ErrorStep(s, w, e, i); } else { StepNewRow(s, w, e, i); }
      }
    }
  }

  // ---------------------------------------------------------------------- production

  /** In production no transfer is ever found in processing. */
  lemma {:induction false} NoReclaims(s: Settings, es: seq<Event>, i: Id)
    requires Validated(s) && Transactional(es)
    ensures ReclaimsOf(s, es, i) == 0
  {
    if es != [] {
      var init := es[..|es| - 1];
      assert forall n :: 0 <= n < |init| ==> init[n] == es[n];
      NoReclaims(s, init, i);
      RunCoupled(s, init);
      NoneProcessing(Exec(s, START, init).db, i);
      hide Exec, AllPaired, AllHold, Alone, ClaimsRow, RecordsRow;
    }
  }

  lemma NoneProcessing(db: Db, i: Id)
    requires AllPaired(db)
    ensures i in db.transfers ==> db.transfers[i].status != TrProcessing
  {
    if i in db.transfers { assert RowPaired(db, i); }
  }

  /** "Retry up to MAX_TRANSFER_ATTEMPTS, then error", over every production run: a transfer has at
      most three committed attempts and one for each time an admin has reset it, it waits for
      another only below that, and it is in error only after at least three. */
  lemma {:induction false} RetryThenError(s: Settings, es: seq<Event>, i: Id)
    requires Validated(s) && Transactional(es) && i in Exec(s, START, es).db.transfers
    ensures var (tr, most) := (Exec(s, START, es).db.transfers[i], MAX_TRANSFER_ATTEMPTS + ResetsOf(s, es, i));
      && tr.attempts <= most && (tr.status == TrPending ==> tr.attempts < most)
      && (tr.status == TrError ==> MAX_TRANSFER_ATTEMPTS <= tr.attempts)
  {
    AttemptsAreBounded(s, es, i);
    NoReclaims(s, es, i);
    RunErrorsLate(s, es);
    hide Exec, ResetsOf, ReclaimsOf;
  }
}
