/** The transfer worker: claiming a task, recording the exchange's answer, draining the queue. */
module Transfers {
  import opened BingX
  import opened Common
  import opened Config
  import opened Tables

  /** The columns the claiming UPDATE returns. */
  datatype Job = Job(
    transferId: Id,
    txId: Id,
    recipientUid: string,
    amountUsdt: nat,
    attempt: nat,
    key: string
  )

  // --------------------------------------------------------------------- claim

  predicate Ready(tr: Transfer, s: Settings, now: Time) {
    || (&& tr.status == TrPending
        && tr.scheduledAt <= now
        && (tr.attempts == 0 || tr.updatedAt <= now - s.backoffSeconds * SECOND))
    || (&& s.staleSeconds > 0
        && tr.status == TrProcessing
        && tr.updatedAt < now - s.staleSeconds * SECOND)
  }

  predicate Claimable(db: Db, s: Settings, now: Time, i: Id) {
    && i in db.transfers
    && Ready(db.transfers[i], s, now)
    && db.transfers[i].txId in db.transactions
    && db.transactions[db.transfers[i].txId].status !in {TxChargeback, TxFailed}
  }

  /** The oldest claimable row that is not locked: ORDER BY created_at, SKIP LOCKED, LIMIT 1. */
  predicate IsNext(db: Db, locked: set<Id>, s: Settings, now: Time, i: Id) {
    && Claimable(db, s, now, i)
    && i !in locked
    && forall j :: j in db.transfers && j !in locked && Claimable(db, s, now, j) ==>
         db.transfers[i].createdAt <= db.transfers[j].createdAt
  }

  function WithClaim(tr: Transfer, now: Time): Transfer {
    tr.(status := TrProcessing, attempts := tr.attempts + 1, updatedAt := now)
  }

  function ClaimRow(db: Db, i: Id, now: Time): Db {
    if i in db.transfers then db.(transfers := db.transfers[i := WithClaim(db.transfers[i], now)]) else db
  }

  function JobOf(i: Id, tr: Transfer): Job {
    Job(i, tr.txId, tr.recipientUid, tr.amountUsdt, tr.attempts, tr.key)
  }

  lemma {:induction false} OldestExists(rows: map<Id, Transfer>, ready: set<Id>)
    requires ready != {} && ready <= rows.Keys
    ensures exists i :: i in ready && forall j :: j in ready ==> rows[i].createdAt <= rows[j].createdAt
    decreases |ready|
  {
    var k :| k in ready;
    if ready != {k} {
      var rest := ready - {k};
      assert ready == rest + {k};
      OldestExists(rows, rest);
      var i :| i in rest && forall j :: j in rest ==> rows[i].createdAt <= rows[j].createdAt;
      var best := if rows[k].createdAt <= rows[i].createdAt then k else i;
      assert forall j :: j in ready ==> j == k || j in rest;
      assert best in ready && forall j :: j in ready ==> rows[best].createdAt <= rows[j].createdAt;
    }
  }

  /** Row i is a task of the queue, by its columns: its transaction is neither in chargeback nor
      failed, and it is pending, scheduled by now and either never tried or updated at least the
      backoff ago, or processing and, with the reaper on, stale. */
  ghost predicate Due(db: Db, s: Settings, now: Time, i: Id) {
    && i in db.transfers
    && var tr := db.transfers[i];
    && tr.txId in db.transactions
    && db.transactions[tr.txId].status != TxChargeback && db.transactions[tr.txId].status != TxFailed
    && (|| (&& tr.status == TrPending && tr.scheduledAt <= now
            && (tr.attempts == 0 || tr.updatedAt + s.backoffSeconds * 1_000_000 <= now))
        || (tr.status == TrProcessing && 0 < s.staleSeconds && tr.updatedAt + s.staleSeconds * 1_000_000 < now))
  }

  lemma ClaimableIsDue(db: Db, s: Settings, now: Time, i: Id)
    ensures Claimable(db, s, now, i) <==> Due(db, s, now, i)
  {
  }

  /** The job is the oldest task that nobody holds; its row is now processing, tried once more and
      updated now, and nothing else has changed. */
  ghost predicate Claimed(o: Db, db: Db, locked: set<Id>, s: Settings, now: Time, job: Job) {
    var i := job.transferId;
    && Due(o, s, now, i) && i !in locked
    && (forall j :: j in o.transfers && j !in locked && Due(o, s, now, j) ==>
          o.transfers[i].createdAt <= o.transfers[j].createdAt)
    && var tr := o.transfers[i];
    && db == o.(transfers := db.transfers) && db.transfers.Keys == o.transfers.Keys
    && (forall j :: j in o.transfers && j != i ==> db.transfers[j] == o.transfers[j])
    && db.transfers[i] == tr.(status := TrProcessing, attempts := tr.attempts + 1, updatedAt := now)
    && job.txId == tr.txId && job.key == tr.key && job.attempt == tr.attempts + 1
    && job.recipientUid == tr.recipientUid && job.amountUsdt == tr.amountUsdt
  }

  lemma NextIsClaimed(o: Db, locked: set<Id>, s: Settings, now: Time, i: Id)
    requires IsNext(o, locked, s, now, i)
    ensures i in o.transfers
    ensures Claimed(o, ClaimRow(o, i, now), locked, s, now, JobOf(i, WithClaim(o.transfers[i], now)))
  {
    ClaimableIsDue(o, s, now, i);
    DueIsRow(o, s, now, i);
    hide Claimable, Due;
    forall j | j in o.transfers && j !in locked && Due(o, s, now, j)
      ensures o.transfers[i].createdAt <= o.transfers[j].createdAt
    {
      ClaimableIsDue(o, s, now, j);
    }
  }

  lemma DueIsRow(db: Db, s: Settings, now: Time, i: Id)
    requires Due(db, s, now, i)
    ensures i in db.transfers
  {
  }

  /** A task is claimed exactly when some row that nobody holds is due. */
  method ClaimNextTransfer(store: Store, locked: set<Id>, s: Settings, now: Time) returns (job: Option<Job>)
    modifies store`transfers
    ensures var o := old(store.Snapshot());
      match job
      case None => store.Snapshot() == o && forall i :: i in o.transfers && i !in locked ==> !Claimable(o, s, now, i)
      case Some(j) =>
        && IsNext(o, locked, s, now, j.transferId)
        && store.Snapshot() == ClaimRow(o, j.transferId, now)
        && j == JobOf(j.transferId, store.transfers[j.transferId])
    ensures job.Some? <==> exists i :: i !in locked && Due(old(store.Snapshot()), s, now, i)
    ensures job.Some? ==> Claimed(old(store.Snapshot()), store.Snapshot(), locked, s, now, job.value)
  {
    hide Due, Claimed, Ready;
    var db := store.Snapshot();
    var ready := set i | i in store.transfers && i !in locked && Claimable(db, s, now, i);
    if ready == {} {
      assert forall i :: i in store.transfers && i !in locked && Claimable(db, s, now, i) ==> i in ready;
      forall i | i !in locked
        ensures !Due(db, s, now, i)
      {
        ClaimableIsDue(db, s, now, i);
      }
      return None;
    }
    OldestExists(store.transfers, ready);
    var i :| i in ready && forall j :: j in ready ==> store.transfers[i].createdAt <= store.transfers[j].createdAt;
    ClaimableIsDue(db, s, now, i);
    NextIsClaimed(db, locked, s, now, i);
    var tr := store.transfers[i].(status := TrProcessing, attempts := store.transfers[i].attempts + 1,
      updatedAt := now);
    store.transfers := store.transfers[i := tr];
    job := Some(Job(i, tr.txId, tr.recipientUid, tr.amountUsdt, tr.attempts, tr.key));
  }

  // -------------------------------------------------------------------- record

  function StatusFor(v: Verdict): TransferStatus {
    match v
    case Complete(_) => TrCompleted
    case Retry => TrPending
    case Escalate => TrError
    case Hold => TrOnHold
    case Fail => TrFailed
  }

  function WithVerdict(tr: Transfer, v: Verdict, now: Time): Transfer {
    tr.(status := StatusFor(v), exchangeId := if v.Complete? then v.exchangeId else tr.exchangeId, updatedAt := now)
  }

  /** The UPDATE of the transfer row, by id only. */
  function RecordTransfer(db: Db, job: Job, v: Verdict, now: Time): Db {
    if job.transferId !in db.transfers then db else
    db.(transfers := db.transfers[job.transferId := WithVerdict(db.transfers[job.transferId], v, now)])
  }

  /** The new state of a paid transaction, if the verdict changes it. */
  function Settled(t: Txn, v: Verdict): Txn {
    if t.status != TxPaid then t else
    match v
    case Complete(id) => t.(status := TxCompleted, exchangeId := id)
    case Escalate => t.(status := TxError)
    case Fail => t.(status := TxFailed)
    case _ => t
  }

  function AuditFor(v: Verdict, txId: Id): seq<Audit> {
    match v
    case Complete(_) => [Audit("transfer_completed", Some(txId))]
    case Retry => []
    case Escalate => [Audit("transfer_error", Some(txId))]
    case Hold => [Audit("transfer_on_hold", Some(txId))]
    case Fail => [Audit("transfer_failed", Some(txId))]
  }

  /** What follows it: the transaction, guarded by status = 'paid', the alert, the audit entry. */
  function RecordTxn(db: Db, job: Job, v: Verdict): Db {
    db.(
      transactions :=
        if job.txId in db.transactions then db.transactions[job.txId := Settled(db.transactions[job.txId], v)]
        else db.transactions,
      alerts := if v.Hold? then db.alerts + [Alert("low_balance", job.txId)] else db.alerts,
      audit := db.audit + AuditFor(v, job.txId))
  }

  function Record(db: Db, job: Job, v: Verdict, now: Time): Db {
    RecordTxn(RecordTransfer(db, job, v, now), job, v)
  }

  /** What recording an answer has done, by the columns: the transfer has this status, its transaction,
      if it was paid, has that one, both have this exchange id if one is given, the alerts and audit
      entries are added, and nothing else has changed. */
  ghost predicate Recorded(o: Db, db: Db, job: Job, now: Time, status: TransferStatus, closed: TxStatus,
                           exchangeId: Option<Option<string>>, alerts: seq<Alert>, entries: seq<Audit>) {
    && db == o.(transfers := db.transfers, transactions := db.transactions,
                alerts := o.alerts + alerts, audit := o.audit + entries)
    && db.transfers.Keys == o.transfers.Keys && db.transactions.Keys == o.transactions.Keys
    && (forall i :: i in o.transfers ==>
          var tr := o.transfers[i];
          db.transfers[i] == if i != job.transferId then tr else
            tr.(status := status, updatedAt := now,
                exchangeId := if exchangeId.Some? then exchangeId.value else tr.exchangeId))
    && (forall t :: t in o.transactions ==>
          var x := o.transactions[t];
          db.transactions[t] == if t != job.txId || x.status != TxPaid then x else
            x.(status := closed, exchangeId := if exchangeId.Some? then exchangeId.value else x.exchangeId))
  }

  ghost predicate RecordedComplete(o: Db, db: Db, job: Job, exchangeId: Option<string>, now: Time) {
    Recorded(o, db, job, now, TrCompleted, TxCompleted, Some(exchangeId), [],
             [Audit("transfer_completed", Some(job.txId))])
  }

  ghost predicate RecordedRetry(o: Db, db: Db, job: Job, now: Time) {
    if job.attempt < 3 then Recorded(o, db, job, now, TrPending, TxPaid, None, [], [])
    else Recorded(o, db, job, now, TrError, TxError, None, [], [Audit("transfer_error", Some(job.txId))])
  }

  ghost predicate RecordedHold(o: Db, db: Db, job: Job, now: Time) {
    Recorded(o, db, job, now, TrOnHold, TxPaid, None, [Alert("low_balance", job.txId)],
             [Audit("transfer_on_hold", Some(job.txId))])
  }

  ghost predicate RecordedFailure(o: Db, db: Db, job: Job, now: Time) {
    Recorded(o, db, job, now, TrFailed, TxFailed, None, [], [Audit("transfer_failed", Some(job.txId))])
  }

  /** The record of a rejection, by its text: a duplicate completes, missing balance puts on hold, a
      missing recipient fails, in this order, and anything else is retried or ends in error. */
  ghost predicate RecordedRejection(o: Db, db: Db, job: Job, msg: string, exchangeId: Option<string>, now: Time) {
    if NamesDuplicate(msg) then RecordedComplete(o, db, job, exchangeId, now)
    else if NamesMissingBalance(msg) then RecordedHold(o, db, job, now)
    else if NamesMissingRecipient(msg) then RecordedFailure(o, db, job, now)
    else RecordedRetry(o, db, job, now)
  }

  ghost predicate RecordedAnswer(o: Db, db: Db, job: Job, reply: Reply, now: Time) {
    match reply
    case Accepted(exchangeId) => RecordedComplete(o, db, job, exchangeId, now)
    case Rejected(msg, exchangeId) => RecordedRejection(o, db, job, msg, exchangeId, now)
    case NoAnswer => RecordedRetry(o, db, job, now)
  }

  /** The status a verdict gives the transfer, and that of its transaction if it was paid. */
  function ClosedBy(v: Verdict): (TransferStatus, TxStatus) {
    match v
    case Complete(_) => (TrCompleted, TxCompleted)
    case Retry => (TrPending, TxPaid)
    case Escalate => (TrError, TxError)
    case Hold => (TrOnHold, TxPaid)
    case Fail => (TrFailed, TxFailed)
  }

  lemma VerdictColumns(o: Db, job: Job, v: Verdict, now: Time)
    ensures var db := Record(o, job, v, now);
      Recorded(o, db, job, now, ClosedBy(v).0, ClosedBy(v).1, if v.Complete? then Some(v.exchangeId) else None,
               if v.Hold? then [Alert("low_balance", job.txId)] else [], AuditFor(v, job.txId))
  {
    RowColumns(o, job, v, now);
    TxnColumns(o, job, v);
    OnlyRows(o, job, v, now);
    hide AuditFor, WithVerdict, Settled, ClosedBy, RecordTransfer, RecordTxn;
  }

  lemma OnlyRows(o: Db, job: Job, v: Verdict, now: Time)
    ensures Record(o, job, v, now) ==
              o.(transfers := RecordTransfer(o, job, v, now).transfers,
                 transactions := RecordTxn(o, job, v).transactions,
                 alerts := o.alerts + (if v.Hold? then [Alert("low_balance", job.txId)] else []),
                 audit := o.audit + AuditFor(v, job.txId))
  {
    hide AuditFor, WithVerdict, Settled;
  }

  lemma RowColumns(o: Db, job: Job, v: Verdict, now: Time)
    ensures var rows := RecordTransfer(o, job, v, now).transfers;
      && rows.Keys == o.transfers.Keys
      && forall i :: i in o.transfers ==>
           var tr := o.transfers[i];
           rows[i] == if i != job.transferId then tr else
             tr.(status := ClosedBy(v).0, updatedAt := now,
                 exchangeId := if v.Complete? then v.exchangeId else tr.exchangeId)
  {
  }

  lemma TxnColumns(o: Db, job: Job, v: Verdict)
    ensures var rows := RecordTxn(o, job, v).transactions;
      && rows.Keys == o.transactions.Keys
      && forall t :: t in o.transactions ==>
           var x := o.transactions[t];
           rows[t] == if t != job.txId || x.status != TxPaid then x else
             x.(status := ClosedBy(v).1, exchangeId := if v.Complete? then v.exchangeId else x.exchangeId)
  {
  }

  lemma RecordIs(o: Db, job: Job, v: Verdict, now: Time)
    ensures var db := Record(o, job, v, now);
      match v
      case Complete(id) => RecordedComplete(o, db, job, id, now)
      case Retry => Recorded(o, db, job, now, TrPending, TxPaid, None, [], [])
      case Escalate =>
        Recorded(o, db, job, now, TrError, TxError, None, [], [Audit("transfer_error", Some(job.txId))])
      case Hold => RecordedHold(o, db, job, now)
      case Fail => RecordedFailure(o, db, job, now)
  {
    VerdictColumns(o, job, v, now);
    hide Record, Recorded;
  }

  /** Every answer is recorded as its text says. */
  lemma AnswerIsRecorded(o: Db, job: Job, reply: Reply, now: Time)
    ensures RecordedAnswer(o, Record(o, job, VerdictOf(reply, job.attempt), now), job, reply, now)
  {
    RecordIs(o, job, VerdictOf(reply, job.attempt), now);
    if reply.Rejected? { TextClasses(reply.msg); }
    hide Record, Recorded, IsDuplicate, IsInsufficientBalance, IsRecipientNotFound;
    hide NamesDuplicate, NamesMissingBalance, NamesMissingRecipient;
  }

  method MarkTransferCompleted(store: Store, job: Job, exchangeId: Option<string>, now: Time)
    modifies store
    ensures store.Snapshot() == Record(old(store.Snapshot()), job, Complete(exchangeId), now)
    ensures RecordedComplete(old(store.Snapshot()), store.Snapshot(), job, exchangeId, now)
  {
    RecordIs(store.Snapshot(), job, Complete(exchangeId), now);
    hide RecordedComplete;
    if job.transferId in store.transfers {
      var tr := store.transfers[job.transferId];
      store.transfers := store.transfers[job.transferId :=
        tr.(status := TrCompleted, exchangeId := exchangeId, updatedAt := now)];
    }
    if job.txId in store.transactions && store.transactions[job.txId].status == TxPaid {
      store.transactions := store.transactions[job.txId :=
        store.transactions[job.txId].(status := TxCompleted, exchangeId := exchangeId)];
    }
    store.WriteAudit("transfer_completed", Some(job.txId));
  }

  method RetryOrEscalateTransfer(store: Store, job: Job, now: Time)
    modifies store
    ensures store.Snapshot() == Record(old(store.Snapshot()), job, RetryOrEscalate(job.attempt), now)
    ensures RecordedRetry(old(store.Snapshot()), store.Snapshot(), job, now)
  {
    RecordIs(store.Snapshot(), job, RetryOrEscalate(job.attempt), now);
    hide Recorded;
    var next := if job.attempt < MAX_TRANSFER_ATTEMPTS then TrPending else TrError;
    if job.transferId in store.transfers {
      store.transfers := store.transfers[job.transferId :=
        store.transfers[job.transferId].(status := next, updatedAt := now)];
    }
    if next == TrError {
      if job.txId in store.transactions && store.transactions[job.txId].status == TxPaid {
        store.transactions := store.transactions[job.txId := store.transactions[job.txId].(status := TxError)];
      }
      store.WriteAudit("transfer_error", Some(job.txId));
    }
  }

  method HoldTransferLowBalance(store: Store, job: Job, now: Time)
    modifies store
    ensures store.Snapshot() == Record(old(store.Snapshot()), job, Hold, now)
    ensures RecordedHold(old(store.Snapshot()), store.Snapshot(), job, now)
  {
    RecordIs(store.Snapshot(), job, Hold, now);
    hide RecordedHold;
    if job.transferId in store.transfers {
      store.transfers := store.transfers[job.transferId :=
        store.transfers[job.transferId].(status := TrOnHold, updatedAt := now)];
    }
    store.RaiseAlert("low_balance", job.txId);
    store.WriteAudit("transfer_on_hold", Some(job.txId));
  }

  method MarkTransferTerminalFailed(store: Store, job: Job, now: Time)
    modifies store
    ensures store.Snapshot() == Record(old(store.Snapshot()), job, Fail, now)
    ensures RecordedFailure(old(store.Snapshot()), store.Snapshot(), job, now)
  {
    RecordIs(store.Snapshot(), job, Fail, now);
    hide RecordedFailure;
    if job.transferId in store.transfers {
      store.transfers := store.transfers[job.transferId :=
        store.transfers[job.transferId].(status := TrFailed, updatedAt := now)];
    }
    if job.txId in store.transactions && store.transactions[job.txId].status == TxPaid {
      store.transactions := store.transactions[job.txId := store.transactions[job.txId].(status := TxFailed)];
    }
    store.WriteAudit("transfer_failed", Some(job.txId));
  }

  method HandleApiError(store: Store, job: Job, msg: string, exchangeId: Option<string>, now: Time)
    modifies store
    ensures store.Snapshot() ==
      Record(old(store.Snapshot()), job, VerdictOf(Rejected(msg, exchangeId), job.attempt), now)
    ensures RecordedRejection(old(store.Snapshot()), store.Snapshot(), job, msg, exchangeId, now)
  {
    AnswerIsRecorded(store.Snapshot(), job, Rejected(msg, exchangeId), now);
    hide Record, RecordedRejection, RecordedComplete, RecordedRetry, RecordedHold, RecordedFailure;
    if IsDuplicate(msg) {
      MarkTransferCompleted(store, job, exchangeId, now);
      return;
    }
    if IsInsufficientBalance(msg) {
      HoldTransferLowBalance(store, job, now);
      return;
    }
    if IsRecipientNotFound(msg) {
      MarkTransferTerminalFailed(store, job, now);
      return;
    }
    RetryOrEscalateTransfer(store, job, now);
  }

  // ------------------------------------------------------------------ one task

  /** What one task does to the tables: `done` is the claimed job, None on an empty queue. */
  ghost predicate OneTask(o: Db, db: Db, locked: set<Id>, s: Settings, exchange: Job -> Reply,
                          now: Time, recordedAt: Time, done: Option<Job>) {
    match done
    case None => db == o && forall i :: i in o.transfers && i !in locked ==> !Claimable(o, s, now, i)
    case Some(j) =>
      && IsNext(o, locked, s, now, j.transferId)
      && j == JobOf(j.transferId, ClaimRow(o, j.transferId, now).transfers[j.transferId])
      && db == Record(ClaimRow(o, j.transferId, now), j, VerdictOf(exchange(j), j.attempt), recordedAt)
  }

  /** The same by the columns: the oldest task that is due and not held is claimed, and its answer is
      recorded as its text says; nothing happens exactly when none is due. */
  ghost predicate TaskDone(o: Db, db: Db, locked: set<Id>, s: Settings, exchange: Job -> Reply,
                           now: Time, recordedAt: Time, done: Option<Job>) {
    match done
    case None => db == o && forall i :: i !in locked ==> !Due(o, s, now, i)
    case Some(j) =>
      exists mid :: Claimed(o, mid, locked, s, now, j) && RecordedAnswer(mid, db, j, exchange(j), recordedAt)
  }

  /** Claims one task, calls the exchange and records the answer; false on an empty queue.
      `exchange` is what the exchange answers to this call. */
  method ProcessNextBingxTransfer(
      store: Store, locked: set<Id>, s: Settings, exchange: Job -> Reply, now: Time, recordedAt: Time)
    returns (processed: bool, ghost done: Option<Job>)
    modifies store
    ensures processed <==> done.Some?
    ensures OneTask(old(store.Snapshot()), store.Snapshot(), locked, s, exchange, now, recordedAt, done)
    ensures TaskDone(old(store.Snapshot()), store.Snapshot(), locked, s, exchange, now, recordedAt, done)
  {
    hide Claimed, Due, RecordedRejection, RecordedComplete, RecordedRetry, Recorded;
    var job := ClaimNextTransfer(store, locked, s, now);
    done := job;
    if job.None? {
      return false, None;
    }
    ghost var mid := store.Snapshot();
    match exchange(job.value) {
      case Rejected(msg, exchangeId) =>
        HandleApiError(store, job.value, msg, exchangeId, recordedAt);
      case NoAnswer =>
        RetryOrEscalateTransfer(store, job.value, recordedAt);
      case Accepted(exchangeId) =>
        MarkTransferCompleted(store, job.value, exchangeId, recordedAt);
    }
    assert RecordedAnswer(mid, store.Snapshot(), job.value, exchange(job.value), recordedAt);
    processed := true;
  }

  /** One task as one database transaction: an exception anywhere, the commit included, undoes
      it as a whole, but not the call to the exchange. */
  method ProcessInTransaction(
      store: Store, locked: set<Id>, s: Settings, exchange: Job -> Reply, now: Time, recordedAt: Time, aborted: bool)
    returns (out: Result<bool>, ghost done: Option<Job>)
    modifies store
    ensures out.Err? <==> aborted
    ensures out.Err? ==> store.Snapshot() == old(store.Snapshot())
    ensures out.Ok? ==>
      (out.value <==> done.Some?)
      && OneTask(old(store.Snapshot()), store.Snapshot(), locked, s, exchange, now, recordedAt, done)
      && TaskDone(old(store.Snapshot()), store.Snapshot(), locked, s, exchange, now, recordedAt, done)
  {
    hide OneTask, TaskDone;
    var before := store.Snapshot();
    var processed, job := ProcessNextBingxTransfer(store, locked, s, exchange, now, recordedAt);
    if aborted {
      store.Rollback(before);
      return Err(Internal), None;
    }
    out, done := Ok(processed), job;
  }
}
