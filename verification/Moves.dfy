/** Which step moves which transaction, and where to. */
module Moves {
  import opened BingX
  import opened Common
  import opened Config
  import opened Deposits
  import opened History
  import opened Ledger
  import opened Runs
  import opened Tables
  import opened Transfers
  import opened Webhooks

  /** A failed report, or a paid one that carries everything and the stored amount. */
  predicate Decisive(db: Db, p: Payment) {
    p.txId in db.transactions && (!p.paid || FullyValid(p, db.transactions[p.txId]))
  }

  /** The step is a payment webhook that decides transaction t. */
  ghost predicate Decides(s: Settings, w: World, e: Event, t: Id) {
    e.PaymentHook? && Enabled(s, w, e) && e.payment.txId == t && Decisive(w.db, e.payment)
  }

  /** The step is a chargeback that closes transaction t. */
  ghost predicate ChargesBack(s: Settings, w: World, e: Event, t: Id) {
    e.ChargebackHook? && Enabled(s, w, e) && e.txId == t && Found(w.db, t)
    && ChargebackEligible(w.db.transactions[t].status)
  }

  /** The step records a verdict on transaction t. */
  ghost predicate Settles(s: Settings, w: World, e: Event, t: Id) {
    (e.RecordRest? || e.Commit?) && Enabled(s, w, e) && w.workers[e.worker].job.txId == t
  }

  function SettlingVerdict(w: World, e: Event): Verdict
    requires (e.RecordRest? || e.Commit?) && e.worker in w.workers
    requires if e.RecordRest? then w.workers[e.worker].phase.RowRecorded? else w.workers[e.worker].phase.Answered?
  {
    if e.RecordRest? then w.workers[e.worker].phase.verdict else VerdictFor(w.workers[e.worker])
  }

  // ------------------------------------------------------------- one operation

  /** The tables after a payment webhook. */
  lemma PaymentDb(s: Settings, w: World, e: Event)
    requires Validated(s) && e.PaymentHook? && Enabled(s, w, e)
    ensures var out := HandlePayment(w.db, e.payment, s.holdMinutes, e.now, e.transferId);
      Apply(s, w, e).db == if out.Ok? then out.value else w.db
  {
    hide WorkerStep, WorkerEnabled, ServiceEnabled, HandlePayment, Accepts;
  }

  lemma DecisiveResult(db: Db, p: Payment, hold: int, now: Time, transferId: Id)
    requires Decisive(db, p) && db.transactions[p.txId].status == TxPending
    ensures var out := HandlePayment(db, p, hold, now, transferId);
      && out.Ok? && p.txId in out.value.transactions
      && out.value.transactions[p.txId].status == (if p.paid then TxPaid else TxFailed)
      && out.value.kyc.Keys == (if p.paid then db.kyc.Keys + {p.txId} else db.kyc.Keys)
  {
    ReleaseKeeps(CloseFailed(db, p), p.txId);
    hide ReleasePromo, HasTransfer;
  }

  lemma PaymentElsewhere(db: Db, p: Payment, hold: int, now: Time, transferId: Id, t: Id)
    requires t in db.transactions && !(p.txId == t && Decisive(db, p) && db.transactions[t].status == TxPending)
    ensures var out := HandlePayment(db, p, hold, now, transferId);
      out.Ok? ==> t in out.value.transactions && out.value.transactions[t] == db.transactions[t]
  {
    if p.txId in db.transactions { ReleaseKeeps(CloseFailed(db, p), p.txId); }
    hide ReleasePromo, HasTransfer;
  }

  lemma DepositElsewhere(db: Db, s: Settings, r: Request, now: Time, txId: Id, t: Id)
    requires Validated(s) && Acceptable(r) && txId !in db.transactions
    requires InsertDeposit(db, s, r, now, txId).Ok? && t in db.transactions
    ensures var db2 := InsertDeposit(db, s, r, now, txId).value;
      t in db2.transactions && db2.transactions[t] == db.transactions[t]
  {
    hide Quoted, RowFor, Blacklisted;
  }

  lemma ChargebackElsewhere(db: Db, txId: Id, reason: string, now: Time, ids: seq<Id>, t: Id)
    requires |ids| == 2 && t in db.transactions
    requires !(t == txId && Found(db, t) && ChargebackEligible(db.transactions[t].status))
    ensures var db2 := HandleChargeback(db, txId, reason, now, ids);
      t in db2.transactions && db2.transactions[t] == db.transactions[t]
  {
    hide BanAll, ReleasePromo, CancelTransfers;
  }

  lemma ChargebackResult(db: Db, txId: Id, reason: string, now: Time, ids: seq<Id>)
    requires |ids| == 2 && Found(db, txId) && ChargebackEligible(db.transactions[txId].status)
    ensures var db2 := HandleChargeback(db, txId, reason, now, ids);
      txId in db2.transactions && db2.transactions[txId] == db.transactions[txId].(status := TxChargeback)
  {
    hide BanAll, ReleasePromo, CancelTransfers;
  }

  lemma RecordResult(db: Db, job: Job, v: Verdict, now: Time, t: Id)
    requires t in db.transactions
    ensures var db2 := Record(db, job, v, now);
      && t in db2.transactions
      && db2.transactions[t] == (if t == job.txId then Settled(db.transactions[t], v) else db.transactions[t])
  {
    hide StatusFor, AuditFor, Settled;
  }

  // ------------------------------------------------------------------ every step

  ghost predicate StatusMove(s: Settings, w: World, e: Event, t: Id, b: Txn)
    requires t in w.db.transactions
  {
    var a := w.db.transactions[t];
    if Decides(s, w, e, t) && a.status == TxPending then b.status == (if e.payment.paid then TxPaid else TxFailed)
    else if ChargesBack(s, w, e, t) then b.status == TxChargeback
    else if Settles(s, w, e, t) then b == Settled(a, SettlingVerdict(w, e))
    else b == a
  }

  lemma StatusOnPayment(s: Settings, w: World, e: Event, t: Id)
    requires Validated(s) && t in w.db.transactions && e.PaymentHook? && Enabled(s, w, e)
    ensures t in Step(s, w, e).db.transactions && StatusMove(s, w, e, t, Step(s, w, e).db.transactions[t])
  {
    PaymentDb(s, w, e);
    hide Step, Enabled, HandlePayment, Decisive, Settled, VerdictOf;
    if Decides(s, w, e, t) && w.db.transactions[t].status == TxPending {
      DecisiveResult(w.db, e.payment, s.holdMinutes, e.now, e.transferId);
    } else {
      PaymentElsewhere(w.db, e.payment, s.holdMinutes, e.now, e.transferId, t);
    }
  }

  lemma StatusOnChargeback(s: Settings, w: World, e: Event, t: Id)
    requires Validated(s) && t in w.db.transactions && e.ChargebackHook? && Enabled(s, w, e)
    ensures t in Step(s, w, e).db.transactions && StatusMove(s, w, e, t, Step(s, w, e).db.transactions[t])
  {
    hide WorkerStep, WorkerEnabled, HandleChargeback, ChargebackBlocked;
    if ChargesBack(s, w, e, t) {
      ChargebackResult(w.db, t, e.reason, e.now, e.ids);
    } else {
      ChargebackElsewhere(w.db, e.txId, e.reason, e.now, e.ids, t);
    }
  }

  lemma StatusOnRecord(s: Settings, w: World, e: Event, t: Id)
    requires Validated(s) && t in w.db.transactions && (e.RecordRest? || e.Commit?) && Enabled(s, w, e)
    ensures t in Step(s, w, e).db.transactions && StatusMove(s, w, e, t, Step(s, w, e).db.transactions[t])
  {
    hide ServiceStep, ServiceEnabled, IsNext, SaysAccepted, Record, VerdictOf, Settled, RecordTransfer, AuditFor;
    if e.Commit? {
      var k := w.workers[e.worker];
      RecordResult(ClaimRow(w.db, k.job.transferId, k.claimedAt), k.job, VerdictFor(k), e.now, t);
    }
  }

  lemma RowLeavesTxns(db: Db, job: Job, v: Verdict, now: Time)
    ensures RecordTransfer(db, job, v, now).transactions == db.transactions
  {
  }

  lemma StatusElsewhere(s: Settings, w: World, e: Event, t: Id)
    requires Validated(s) && t in w.db.transactions && Enabled(s, w, e)
    requires !e.PaymentHook? && !e.ChargebackHook? && !e.RecordRest? && !e.Commit?
    ensures t in Step(s, w, e).db.transactions && Step(s, w, e).db.transactions[t] == w.db.transactions[t]
  {
    hide WorkerStep, ServiceStep, WorkerEnabled, ServiceEnabled;
    if ByWorker(e) { WorkerElsewhere(s, w, e); } else { ServiceElsewhere(s, w, e, t); }
  }

  lemma WorkerElsewhere(s: Settings, w: World, e: Event)
    requires ByWorker(e) && WorkerEnabled(s, w, e) && !e.RecordRest? && !e.Commit?
    ensures WorkerStep(s, w, e).db.transactions == w.db.transactions
  {
    hide RecordTransfer, VerdictOf, IsNext, SaysAccepted;
    if e.RecordRow? {
      RowLeavesTxns(w.db, w.workers[e.worker].job, VerdictFor(w.workers[e.worker]), e.now);
    }
  }

  lemma ServiceElsewhere(s: Settings, w: World, e: Event, t: Id)
    requires Validated(s) && !ByWorker(e) && ServiceEnabled(w, e) && t in w.db.transactions
    requires !e.PaymentHook? && !e.ChargebackHook?
    ensures var rows := ServiceStep(s, w, e).db.transactions; t in rows && rows[t] == w.db.transactions[t]
  {
    hide CheckDeposit, InsertDeposit;
    if e.Deposit? && InsertDeposit(w.db, s, e.request, e.now, e.txId).Ok? {
      DepositElsewhere(w.db, s, e.request, e.now, e.txId, t);
    }
  }

  /** A transaction row changes only by a webhook that decides it while it is pending, by a
      chargeback that closes it, or by a verdict on it; nothing else touches the row. */
  lemma StepStatus(s: Settings, w: World, e: Event, t: Id)
    requires Validated(s) && t in w.db.transactions
    ensures t in Apply(s, w, e).db.transactions
    ensures StatusMove(s, w, e, t, Apply(s, w, e).db.transactions[t])
  {
    hide Step, Enabled;
    if Enabled(s, w, e) {
      hide StatusMove;
      if e.PaymentHook? {
        StatusOnPayment(s, w, e, t);
      } else if e.ChargebackHook? {
        StatusOnChargeback(s, w, e, t);
      } else if e.RecordRest? || e.Commit? {
        StatusOnRecord(s, w, e, t);
      } else {
        StatusElsewhere(s, w, e, t);
        UntouchedMove(s, w, e, t);
      }
    }
  }

  lemma UntouchedMove(s: Settings, w: World, e: Event, t: Id)
    requires t in w.db.transactions && !e.PaymentHook? && !e.ChargebackHook? && !e.RecordRest? && !e.Commit?
    ensures StatusMove(s, w, e, t, w.db.transactions[t])
  {
    hide Enabled;
  }

  /** b is a with other contents of the transaction and transfer rows, alerts and audit log. */
  ghost predicate SameButRows(a: Db, b: Db) {
    && b.transactions.Keys == a.transactions.Keys && b.transfers.Keys == a.transfers.Keys
    && b == a.(transactions := b.transactions, transfers := b.transfers, alerts := b.alerts, audit := b.audit)
  }

  lemma RecordTouches(db: Db, job: Job, v: Verdict, now: Time)
    ensures SameButRows(db, RecordTransfer(db, job, v, now)) && SameButRows(db, RecordTxn(db, job, v))
  {
  }

  lemma ClaimTouches(db: Db, i: Id, now: Time)
    ensures SameButRows(db, ClaimRow(db, i, now))
  {
  }

  lemma CommitTouches(db: Db, job: Job, v: Verdict, claimedAt: Time, now: Time)
    ensures SameButRows(db, Record(ClaimRow(db, job.transferId, claimedAt), job, v, now))
  {
    var claimed := ClaimRow(db, job.transferId, claimedAt);
    hide RecordTransfer, RecordTxn, ClaimRow;
    ClaimTouches(db, job.transferId, claimedAt);
    RecordTouches(claimed, job, v, now);
    RecordTouches(RecordTransfer(claimed, job, v, now), job, v, now);
  }

  /** Workers change the contents of existing rows only. */
  lemma WorkerTouches(s: Settings, w: World, e: Event)
    requires ByWorker(e) && WorkerEnabled(s, w, e)
    ensures SameButRows(w.db, WorkerStep(s, w, e).db)
  {
    hide ClaimRow, Record, RecordTransfer, RecordTxn, VerdictOf, IsNext, SaysAccepted;
    match e
    case ClaimTask(k, i, now, locked) => ClaimTouches(w.db, i, now);
    case RecordRow(k, now) => RecordTouches(w.db, w.workers[k].job, VerdictFor(w.workers[k]), now);
    case RecordRest(k) => RecordTouches(w.db, w.workers[k].job, w.workers[k].phase.verdict, 0);
    case Commit(k, now) =>
      CommitTouches(w.db, w.workers[k].job, VerdictFor(w.workers[k]), w.workers[k].claimedAt, now);
    case _ =>
  }

  /** Only a deposit adds a transaction; none is ever removed. */
  lemma SameTxns(s: Settings, w: World, e: Event)
    requires Validated(s) && !e.Deposit?
    ensures Apply(s, w, e).db.transactions.Keys == w.db.transactions.Keys
  {
    hide WorkerStep, ServiceStep, WorkerEnabled, ServiceEnabled;
    if Enabled(s, w, e) {
      if ByWorker(e) { WorkerTouches(s, w, e); } else { ServiceSameTxns(s, w, e); }
    }
  }

  lemma ServiceSameTxns(s: Settings, w: World, e: Event)
    requires Validated(s) && !ByWorker(e) && ServiceEnabled(w, e) && !e.Deposit?
    ensures ServiceStep(s, w, e).db.transactions.Keys == w.db.transactions.Keys
  {
    hide CheckDeposit, HandlePayment, HandleChargeback, ChargebackBlocked, Accepts;
    if e.PaymentHook? {
      PaymentTouches(w.db, e.payment, s.holdMinutes, e.now, e.transferId);
    } else if e.ChargebackHook? {
      ChargebackSameTxns(w.db, e.txId, e.reason, e.now, e.ids);
    }
  }

  lemma ChargebackSameTxns(db: Db, txId: Id, reason: string, now: Time, ids: seq<Id>)
    requires |ids| == 2
    ensures HandleChargeback(db, txId, reason, now, ids).transactions.Keys == db.transactions.Keys
  {
    hide BanAll, ReleasePromo, CancelTransfers;
  }

  /** A payment webhook touches neither users nor bans, and no transaction's presence. */
  lemma PaymentTouches(db: Db, p: Payment, hold: int, now: Time, transferId: Id)
    ensures var out := HandlePayment(db, p, hold, now, transferId);
      out.Ok? ==>
        out.value.transactions.Keys == db.transactions.Keys && out.value.users == db.users && out.value.bans == db.bans
  {
    hide MarkFailed, MarkPaid;
    if p.txId in db.transactions {
      FailedTouches(db, p);
      if p.payerName.Some? && p.payerPhone.Some? { PaidTouches(db, p, hold, now, transferId); }
    }
  }

  lemma FailedTouches(db: Db, p: Payment)
    requires p.txId in db.transactions
    ensures var db2 := MarkFailed(db, p);
      db2.transactions.Keys == db.transactions.Keys && db2.users == db.users && db2.bans == db.bans
  {
    ReleaseKeeps(CloseFailed(db, p), p.txId);
    hide ReleasePromo;
  }

  lemma PaidTouches(db: Db, p: Payment, hold: int, now: Time, transferId: Id)
    requires p.txId in db.transactions && p.payerName.Some? && p.payerPhone.Some?
    ensures var db2 := MarkPaid(db, p, hold, now, transferId);
      db2.transactions.Keys == db.transactions.Keys && db2.users == db.users && db2.bans == db.bans
  {
    hide HasTransfer;
  }

  // -------------------------------------------------------------- transfer rows

  ghost predicate ClaimsRow(s: Settings, w: World, e: Event, i: Id) {
    e.ClaimTask? && Enabled(s, w, e) && !e.locked && e.transferId == i
  }

  /** The step writes a verdict to transfer row i: on its own, or in the worker's commit. */
  ghost predicate RecordsRow(s: Settings, w: World, e: Event, i: Id) {
    (e.RecordRow? || e.Commit?) && Enabled(s, w, e) && w.workers[e.worker].job.transferId == i
  }

  ghost predicate Resets(s: Settings, w: World, e: Event, i: Id) {
    e.ResetHold? && Enabled(s, w, e) && e.transferId == i
  }

  ghost predicate RowMove(s: Settings, w: World, e: Event, i: Id, b: Transfer)
    requires i in w.db.transfers
  {
    var a := w.db.transfers[i];
    if ChargesBack(s, w, e, a.txId) then b == WithCancel(a, e.now)
    else if ClaimsRow(s, w, e, i) then b == WithClaim(a, e.now)
    else if RecordsRow(s, w, e, i) then
      var k := w.workers[e.worker];
      b == WithVerdict(if e.Commit? then WithClaim(a, k.claimedAt) else a, VerdictFor(k), e.now)
    else if Resets(s, w, e, i) then b == a.(status := TrPending)
    else b == a
  }

  lemma PaymentRows(db: Db, p: Payment, hold: int, now: Time, transferId: Id)
    requires transferId !in db.transfers
    ensures var out := HandlePayment(db, p, hold, now, transferId);
      out.Ok? ==>
        (|| out.value.transfers == db.transfers
         || (Accepts(db, p)
             && out.value.transfers ==
               db.transfers[transferId := NewTransfer(p.txId, db.transactions[p.txId], hold, now)]))
  {
    if p.txId in db.transactions { ReleaseKeeps(CloseFailed(db, p), p.txId); }
    hide ReleasePromo, HasTransfer;
  }

  lemma ChargebackRow(db: Db, txId: Id, reason: string, now: Time, ids: seq<Id>, i: Id)
    requires |ids| == 2 && i in db.transfers
    ensures var db2 := HandleChargeback(db, txId, reason, now, ids);
      var hit := Found(db, txId) && ChargebackEligible(db.transactions[txId].status) && db.transfers[i].txId == txId;
      && db2.transfers.Keys == db.transfers.Keys
      && db2.transfers[i] == if hit then WithCancel(db.transfers[i], now) else db.transfers[i]
  {
    hide BanAll, ReleasePromo, WithCancel;
  }

  lemma RowOnChargeback(s: Settings, w: World, e: Event, i: Id)
    requires Validated(s) && i in w.db.transfers && e.ChargebackHook? && Enabled(s, w, e)
    ensures i in Step(s, w, e).db.transfers && RowMove(s, w, e, i, Step(s, w, e).db.transfers[i])
  {
    hide WorkerStep, WorkerEnabled, HandleChargeback, ChargebackBlocked, WithCancel;
    ChargebackRow(w.db, e.txId, e.reason, e.now, e.ids, i);
  }

  lemma RowOnPayment(s: Settings, w: World, e: Event, i: Id)
    requires Validated(s) && i in w.db.transfers && e.PaymentHook? && Enabled(s, w, e)
    ensures i in Step(s, w, e).db.transfers && RowMove(s, w, e, i, Step(s, w, e).db.transfers[i])
  {
    hide WorkerStep, WorkerEnabled, HandlePayment, Accepts;
    PaymentRows(w.db, e.payment, s.holdMinutes, e.now, e.transferId);
  }

  lemma RowOnClaim(s: Settings, w: World, e: Event, i: Id)
    requires Validated(s) && i in w.db.transfers && Enabled(s, w, e) && e.ClaimTask?
    ensures i in Step(s, w, e).db.transfers && RowMove(s, w, e, i, Step(s, w, e).db.transfers[i])
  {
    hide ServiceStep, ServiceEnabled, VerdictOf, IsNext, WithClaim, SaysAccepted;
  }

  lemma CommittedRow(db: Db, job: Job, v: Verdict, claimedAt: Time, now: Time, i: Id)
    requires i in db.transfers
    ensures var db2 := Record(ClaimRow(db, job.transferId, claimedAt), job, v, now);
      && i in db2.transfers
      && db2.transfers[i] ==
           if i == job.transferId then WithVerdict(WithClaim(db.transfers[i], claimedAt), v, now) else db.transfers[i]
  {
    hide WithVerdict, WithClaim, AuditFor, Settled;
  }

  lemma RecordedRow(db: Db, job: Job, v: Verdict, now: Time, i: Id)
    requires i in db.transfers
    ensures var db2 := RecordTransfer(db, job, v, now);
      && i in db2.transfers
      && db2.transfers[i] == if i == job.transferId then WithVerdict(db.transfers[i], v, now) else db.transfers[i]
  {
    hide WithVerdict;
  }

  lemma RowOnRecord(s: Settings, w: World, e: Event, i: Id)
    requires Validated(s) && i in w.db.transfers && Enabled(s, w, e)
    requires e.RecordRow? || e.RecordRest? || e.Commit?
    ensures i in Step(s, w, e).db.transfers && RowMove(s, w, e, i, Step(s, w, e).db.transfers[i])
  {
    hide ServiceStep, ServiceEnabled, IsNext, SaysAccepted;
    hide VerdictOf, RecordTransfer, Record, ClaimRow, WithClaim, WithVerdict, AuditFor, Settled;
    if e.RecordRow? {
      RecordedRow(w.db, w.workers[e.worker].job, VerdictFor(w.workers[e.worker]), e.now, i);
    } else if e.Commit? {
      CommittedRow(w.db, w.workers[e.worker].job, VerdictFor(w.workers[e.worker]), w.workers[e.worker].claimedAt,
        e.now, i);
    }
  }

  lemma RowElsewhere(s: Settings, w: World, e: Event, i: Id)
    requires Validated(s) && i in w.db.transfers && Enabled(s, w, e) && !e.ChargebackHook? && !e.PaymentHook?
    requires !e.ClaimTask? && !e.RecordRow? && !e.RecordRest? && !e.Commit?
    ensures i in Step(s, w, e).db.transfers && RowMove(s, w, e, i, Step(s, w, e).db.transfers[i])
  {
    if ByWorker(e) {
      hide ServiceStep, ServiceEnabled, IsNext, SaysAccepted;
    } else {
      hide WorkerStep, WorkerEnabled, CheckDeposit, InsertDeposit, VerdictOf;
      if e.Deposit? && InsertDeposit(w.db, s, e.request, e.now, e.txId).Ok? {
        DepositRows(w.db, s, e.request, e.now, e.txId);
      }
    }
  }

  lemma DepositRows(db: Db, s: Settings, r: Request, now: Time, txId: Id)
    requires Validated(s) && Acceptable(r) && InsertDeposit(db, s, r, now, txId).Ok?
    ensures InsertDeposit(db, s, r, now, txId).value.transfers == db.transfers
  {
    hide Quoted, RowFor, Blacklisted;
  }

  /** A transfer row changes only by a chargeback of its transaction, a claim, a verdict or an
      admin's reset of that row, and only as each says. */
  lemma StepRow(s: Settings, w: World, e: Event, i: Id)
    requires Validated(s) && i in w.db.transfers
    ensures i in Apply(s, w, e).db.transfers && RowMove(s, w, e, i, Apply(s, w, e).db.transfers[i])
  {
    hide Step, Enabled;
    if Enabled(s, w, e) {
      hide RowMove;
      if e.ChargebackHook? {
        RowOnChargeback(s, w, e, i);
      } else if e.PaymentHook? {
        RowOnPayment(s, w, e, i);
      } else if e.ClaimTask? {
        RowOnClaim(s, w, e, i);
      } else if e.RecordRow? || e.RecordRest? || e.Commit? {
        RowOnRecord(s, w, e, i);
      } else {
        RowElsewhere(s, w, e, i);
      }
    }
  }

  /** A transfer row appears only with the payment that makes its transaction paid. */
  lemma StepNewRow(s: Settings, w: World, e: Event, i: Id)
    requires Validated(s) && i !in w.db.transfers && i in Apply(s, w, e).db.transfers
    ensures e.PaymentHook? && Enabled(s, w, e) && Accepts(w.db, e.payment) && i == e.transferId
    ensures Apply(s, w, e).db.transfers[i] ==
              NewTransfer(e.payment.txId, w.db.transactions[e.payment.txId], s.holdMinutes, e.now)
  {
    hide WorkerStep, WorkerEnabled, HandlePayment, Accepts;
    if e.PaymentHook? {
      PaymentRows(w.db, e.payment, s.holdMinutes, e.now, e.transferId);
    } else {
      hide Apply;
      StepQuiet(s, w, e);
    }
  }

  /** Registrations and admin steps by the columns; nothing else changes. */
  lemma AdminSteps(s: Settings, w: World, e: Event)
    requires Validated(s) && Enabled(s, w, e)
    ensures var db := Apply(s, w, e).db;
      match e
      case Register(userId, email) => db == w.db.(users := w.db.users[userId := User(Lower(Strip(email)))])
      case ResetHold(i) =>
        && i in w.db.transfers && w.db.transfers[i].status == TrOnHold
        && db == w.db.(transfers := w.db.transfers[i := w.db.transfers[i].(status := TrPending)])
      case AddBan(key, ban) => db == w.db.(bans := w.db.bans[key := ban])
      case RemoveBan(key) => db == w.db.(bans := db.bans) && db.bans.Keys == w.db.bans.Keys - {key}
      case PutPromo(id, promo) =>
        && db == w.db.(promos := db.promos) && db.promos.Keys == w.db.promos.Keys + {id}
        && db.promos[id] == promo.(used := if id in w.db.promos then w.db.promos[id].used else 0)
        && forall j :: j in w.db.promos && j != id ==> db.promos[j] == w.db.promos[j]
      case DeletePromo(id) => db == w.db.(promos := db.promos) && db.promos.Keys == w.db.promos.Keys - {id}
      case _ => true
  {
    hide WorkerStep, WorkerEnabled, CheckDeposit, InsertDeposit, HandlePayment, HandleChargeback, ChargebackBlocked;
    hide Accepts, Lower, Strip;
  }
}
