/** What every step keeps and how it may change a row: quotes, transfer contents and keys are
    frozen, statuses move along the status machine. */
module History {
  import opened BingX
  import opened Common
  import opened Config
  import opened Deposits
  import opened Runs
  import opened Tables
  import opened Transfers
  import opened Webhooks

  /** Only status and the provider's ids differ. */
  predicate SameQuote(a: Txn, b: Txn) {
    a.(status := b.status, sbpPaymentId := b.sbpPaymentId, exchangeId := b.exchangeId) == b
  }

  /** Only status, attempts, the exchange's id and updated_at differ. */
  predicate SameRow(a: Transfer, b: Transfer) {
    a.(status := b.status, attempts := b.attempts, exchangeId := b.exchangeId, updatedAt := b.updatedAt) == b
    && a.attempts <= b.attempts
  }

  /** pending -> paid/failed, paid -> completed/error/failed, paid/completed/error -> chargeback. */
  predicate AllowedMove(a: TxStatus, b: TxStatus) {
    || a == b
    || (a == TxPending && b in {TxPaid, TxFailed})
    || (a == TxPaid && b in {TxCompleted, TxError, TxFailed})
    || (a in {TxPaid, TxCompleted, TxError} && b == TxChargeback)
  }

  ghost predicate TxnsStep(a: map<Id, Txn>, b: map<Id, Txn>) {
    && (forall t :: t in a ==> t in b && SameQuote(a[t], b[t]) && AllowedMove(a[t].status, b[t].status))
    && (forall t :: t in b && t !in a ==> b[t].status == TxPending)
  }

  ghost predicate RowsStep(a: map<Id, Transfer>, b: map<Id, Transfer>) {
    forall i :: i in a ==> i in b && SameRow(a[i], b[i])
  }

  ghost predicate UsersStep(a: map<Id, User>, b: map<Id, User>) {
    forall u :: u in a ==> u in b && a[u] == b[u]
  }

  ghost predicate DbStep(a: Db, b: Db) {
    TxnsStep(a.transactions, b.transactions) && RowsStep(a.transfers, b.transfers) && UsersStep(a.users, b.users)
  }

  // --------------------------------------------------------- one row at a time

  lemma TxnUpdate(rows: map<Id, Txn>, t: Id, x: Txn)
    requires t in rows && SameQuote(rows[t], x) && AllowedMove(rows[t].status, x.status)
    ensures TxnsStep(rows, rows[t := x])
  {
  }

  lemma TxnInsert(rows: map<Id, Txn>, t: Id, x: Txn)
    requires t !in rows && x.status == TxPending
    ensures TxnsStep(rows, rows[t := x])
  {
  }

  lemma RowUpdate(rows: map<Id, Transfer>, i: Id, tr: Transfer)
    requires i in rows && SameRow(rows[i], tr)
    ensures RowsStep(rows, rows[i := tr])
  {
  }

  lemma RowInsert(rows: map<Id, Transfer>, i: Id, tr: Transfer)
    requires i !in rows
    ensures RowsStep(rows, rows[i := tr])
  {
  }

  lemma NoTxnChange(rows: map<Id, Txn>)
    ensures TxnsStep(rows, rows)
  {
  }

  // --------------------------------------------------------- one step at a time

  lemma DepositKeeps(db: Db, s: Settings, r: Request, now: Time, txId: Id)
    requires Validated(s) && Acceptable(r) && txId !in db.transactions
    requires InsertDeposit(db, s, r, now, txId).Ok?
    ensures DbStep(db, InsertDeposit(db, s, r, now, txId).value)
  {
    hide Quoted, RowFor, TxnsStep;
    var row := if Blank(r.promoCode) then None else RowFor(db.promos, r.promoCode.value, now);
    TxnInsert(db.transactions, txId, NewTxn(r, row, Quoted(s, r.amountRub, Discount(db, row)).value));
  }

  lemma PaymentKeeps(db: Db, p: Payment, hold: int, now: Time, transferId: Id)
    requires transferId !in db.transfers && HandlePayment(db, p, hold, now, transferId).Ok?
    ensures DbStep(db, HandlePayment(db, p, hold, now, transferId).value)
  {
    NoTxnChange(db.transactions);
    NoRowChange(db.transfers);
    hide TxnsStep, RowsStep, MarkFailed, MarkPaid;
    if p.txId in db.transactions && db.transactions[p.txId].status == TxPending {
      MarkFailedKeeps(db, p);
      if p.payerName.Some? && p.payerPhone.Some? {
        MarkPaidKeeps(db, p, hold, now, transferId);
      }
    }
  }

  lemma MarkFailedKeeps(db: Db, p: Payment)
    requires p.txId in db.transactions && db.transactions[p.txId].status == TxPending
    ensures DbStep(db, MarkFailed(db, p))
  {
    NoRowChange(db.transfers);
    TxnUpdate(db.transactions, p.txId, CloseFailed(db, p).transactions[p.txId]);
    hide TxnsStep, RowsStep, ReleasePromo;
    ReleaseKeeps(CloseFailed(db, p), p.txId);
  }

  lemma MarkPaidKeeps(db: Db, p: Payment, hold: int, now: Time, transferId: Id)
    requires p.txId in db.transactions && db.transactions[p.txId].status == TxPending && transferId !in db.transfers
    requires p.payerName.Some? && p.payerPhone.Some?
    ensures DbStep(db, MarkPaid(db, p, hold, now, transferId))
  {
    var t := db.transactions[p.txId];
    NoRowChange(db.transfers);
    TxnUpdate(db.transactions, p.txId, t.(status := TxPaid, sbpPaymentId := Coalesce(p.sbpPaymentId, t.sbpPaymentId)));
    RowInsert(db.transfers, transferId, NewTransfer(p.txId, t, hold, now));
    hide TxnsStep, RowsStep, HasTransfer;
  }

  lemma NoRowChange(rows: map<Id, Transfer>)
    ensures RowsStep(rows, rows)
  {
  }

  /** Releasing a promo use touches nothing but the promo table. */
  lemma ReleaseKeeps(db: Db, txId: Id)
    ensures ReleasePromo(db, txId) == db.(promos := ReleasePromo(db, txId).promos)
  {
  }

  lemma ChargebackKeeps(db: Db, txId: Id, reason: string, now: Time, ids: seq<Id>)
    requires |ids| == 2
    ensures DbStep(db, HandleChargeback(db, txId, reason, now, ids))
  {
    hide BanAll, ReleasePromo;
    NoTxnChange(db.transactions);
    NoRowChange(db.transfers);
    if Found(db, txId) && ChargebackEligible(db.transactions[txId].status) {
      TxnUpdate(db.transactions, txId, db.transactions[txId].(status := TxChargeback));
      hide TxnsStep;
      assert RowsStep(db.transfers, CancelTransfers(db.transfers, txId, now));
    }
  }

  lemma ClaimKeeps(db: Db, i: Id, now: Time)
    ensures DbStep(db, ClaimRow(db, i, now))
  {
    NoTxnChange(db.transactions);
    NoRowChange(db.transfers);
    hide TxnsStep;
  }

  lemma RecordTransferKeeps(db: Db, job: Job, v: Verdict, now: Time)
    ensures DbStep(db, RecordTransfer(db, job, v, now))
  {
    NoTxnChange(db.transactions);
    NoRowChange(db.transfers);
    hide TxnsStep, StatusFor;
  }

  lemma SettledMoves(t: Txn, v: Verdict)
    ensures SameQuote(t, Settled(t, v)) && AllowedMove(t.status, Settled(t, v).status)
  {
  }

  lemma RecordTxnKeeps(db: Db, job: Job, v: Verdict)
    ensures DbStep(db, RecordTxn(db, job, v))
  {
    hide TxnsStep, RowsStep, AuditFor;
    NoTxnChange(db.transactions);
    NoRowChange(db.transfers);
    if job.txId in db.transactions {
      SettledMoves(db.transactions[job.txId], v);
      TxnUpdate(db.transactions, job.txId, Settled(db.transactions[job.txId], v));
    }
    hide Settled;
  }

  lemma CommitKeeps(db: Db, job: Job, v: Verdict, claimedAt: Time, now: Time)
    ensures DbStep(db, Record(ClaimRow(db, job.transferId, claimedAt), job, v, now))
  {
    var claimed := ClaimRow(db, job.transferId, claimedAt);
    var recorded := RecordTransfer(claimed, job, v, now);
    ClaimKeeps(db, job.transferId, claimedAt);
    RecordTransferKeeps(claimed, job, v, now);
    RecordTxnKeeps(recorded, job, v);
    assert RowsStep(db.transfers, recorded.transfers);
  }

  lemma SameKeeps(a: Db, b: Db)
    ensures a.transactions == b.transactions && a.transfers == b.transfers && a.users == b.users ==> DbStep(a, b)
  {
    NoTxnChange(a.transactions);
    NoRowChange(a.transfers);
    hide TxnsStep, RowsStep;
  }

  lemma RegisterKeeps(db: Db, userId: Id, user: User)
    requires userId !in db.users
    ensures DbStep(db, db.(users := db.users[userId := user]))
  {
    NoTxnChange(db.transactions);
    NoRowChange(db.transfers);
    hide TxnsStep, RowsStep;
  }

  lemma ResetKeeps(db: Db, i: Id)
    requires i in db.transfers
    ensures DbStep(db, db.(transfers := db.transfers[i := db.transfers[i].(status := TrPending)]))
  {
    NoTxnChange(db.transactions);
    RowUpdate(db.transfers, i, db.transfers[i].(status := TrPending));
    hide TxnsStep, RowsStep;
  }

  lemma ServiceKeeps(s: Settings, w: World, e: Event)
    requires Validated(s) && !ByWorker(e) && ServiceEnabled(w, e)
    ensures DbStep(w.db, ServiceStep(s, w, e).db)
  {
    hide DbStep, CheckDeposit, InsertDeposit, HandlePayment, HandleChargeback, ChargebackBlocked, Accepts;
    SameKeeps(w.db, ServiceStep(s, w, e).db);
    match e
    case Register(userId, email) => RegisterKeeps(w.db, userId, User(Lower(Strip(email))));
    case Deposit(check, r, now, txId) =>
      if InsertDeposit(w.db, s, r, now, txId).Ok? { DepositKeeps(w.db, s, r, now, txId); }
    case PaymentHook(p, now, transferId) =>
      if HandlePayment(w.db, p, s.holdMinutes, now, transferId).Ok? {
        PaymentKeeps(w.db, p, s.holdMinutes, now, transferId);
      }
    case ChargebackHook(txId, reason, now, ids) => ChargebackKeeps(w.db, txId, reason, now, ids);
    case ResetHold(i) => ResetKeeps(w.db, i);
    case _ =>
  }

  lemma WorkerKeeps(s: Settings, w: World, e: Event)
    requires ByWorker(e) && WorkerEnabled(s, w, e)
    ensures DbStep(w.db, WorkerStep(s, w, e).db)
  {
    hide DbStep, ClaimRow, Record, RecordTransfer, RecordTxn, VerdictOf, IsNext, SaysAccepted;
    SameKeeps(w.db, WorkerStep(s, w, e).db);
    match e
    case ClaimTask(k, i, now, locked) => ClaimKeeps(w.db, i, now);
    case RecordRow(k, now) => RecordTransferKeeps(w.db, w.workers[k].job, VerdictFor(w.workers[k]), now);
    case RecordRest(k) => RecordTxnKeeps(w.db, w.workers[k].job, w.workers[k].phase.verdict);
    case Commit(k, now) =>
      CommitKeeps(w.db, w.workers[k].job, VerdictFor(w.workers[k]), w.workers[k].claimedAt, now);
    case _ =>
  }

  /** No step ever rewrites a quote, a transfer's content or key, or a user, and every status
      change is a move of the status machine. */
  lemma StepKeepsHistory(s: Settings, w: World, e: Event)
    requires Validated(s)
    ensures DbStep(w.db, Apply(s, w, e).db)
  {
    hide DbStep, WorkerStep, ServiceStep, WorkerEnabled, ServiceEnabled;
    SameKeeps(w.db, w.db);
    if Enabled(s, w, e) {
      if ByWorker(e) { WorkerKeeps(s, w, e); } else { ServiceKeeps(s, w, e); }
    }
  }

  // ------------------------------------------------------------------ whole runs

  ghost predicate Kept(a: Db, b: Db) {
    && (forall t :: t in a.transactions ==> t in b.transactions && SameQuote(a.transactions[t], b.transactions[t]))
    && RowsStep(a.transfers, b.transfers)
    && UsersStep(a.users, b.users)
  }

  lemma KeptTransitive(a: Db, b: Db, c: Db)
    requires Kept(a, b) && DbStep(b, c)
    ensures Kept(a, c)
  {
    forall i | i in a.transfers
      ensures i in c.transfers && SameRow(a.transfers[i], c.transfers[i])
    {
      assert SameRow(a.transfers[i], b.transfers[i]) && SameRow(b.transfers[i], c.transfers[i]);
    }
  }

  /** Over any run no quote, recipient, amount, key or user is ever rewritten or removed. */
  lemma {:induction false} RunKeepsQuotes(s: Settings, w: World, es: seq<Event>)
    requires Validated(s)
    ensures Kept(w.db, Exec(s, w, es).db)
  {
    if es != [] {
      var mid := Exec(s, w, es[..|es| - 1]);
      RunKeepsQuotes(s, w, es[..|es| - 1]);
      StepKeepsHistory(s, mid, es[|es| - 1]);
      hide Apply;
      KeptTransitive(w.db, mid.db, Exec(s, w, es).db);
    }
  }

  /** How far along the status machine a status is. */
  function Rank(s: TxStatus): nat {
    match s
    case TxPending => 0
    case TxPaid => 1
    case TxCompleted => 2
    case TxError => 2
    case TxFailed => 2
    case TxChargeback => 3
  }

  /** How often the status of transaction t changes along the run. */
  ghost function Changes(s: Settings, w: World, es: seq<Event>, t: Id): nat
    requires Validated(s)
  {
    if es == [] then 0 else
    var before, after := Exec(s, w, es[..|es| - 1]).db.transactions, Exec(s, w, es).db.transactions;
    Changes(s, w, es[..|es| - 1], t)
      + if t in before && t in after && before[t].status != after[t].status then 1 else 0
  }

  /** A status changes at most three times over any run. */
  lemma {:induction false} AtMostThreeChanges(s: Settings, es: seq<Event>, t: Id)
    requires Validated(s)
    ensures Changes(s, START, es, t) <= 3
    ensures var rows := Exec(s, START, es).db.transactions;
      Changes(s, START, es, t) <= if t in rows then Rank(rows[t].status) else 0
  {
    if es != [] {
      var mid := Exec(s, START, es[..|es| - 1]);
      hide Apply, RowsStep, UsersStep;
      AtMostThreeChanges(s, es[..|es| - 1], t);
      StepKeepsHistory(s, mid, es[|es| - 1]);
      var a, b := mid.db.transactions, Exec(s, START, es).db.transactions;
      if t in a {
        assert AllowedMove(a[t].status, b[t].status);
      }
    }
  }

  predicate Absorbing(s: TxStatus) { s == TxFailed || s == TxChargeback }

  /** Failed and chargeback are absorbing, whatever duplicate or late workers do, and once one
      is reached no transfer of the transaction is ever claimed again. */
  lemma {:induction false} AbsorbingForever(s: Settings, w: World, es: seq<Event>, t: Id)
    requires Validated(s) && t in w.db.transactions && Absorbing(w.db.transactions[t].status)
    ensures var w2 := Exec(s, w, es);
      && t in w2.db.transactions && w2.db.transactions[t].status == w.db.transactions[t].status
      && forall k, i, now, locked :: Enabled(s, w2, ClaimTask(k, i, now, locked)) ==> w2.db.transfers[i].txId != t
  {
    if es != [] {
      var mid := Exec(s, w, es[..|es| - 1]);
      AbsorbingForever(s, w, es[..|es| - 1], t);
      StepKeepsHistory(s, mid, es[|es| - 1]);
      hide Apply;
      assert AllowedMove(mid.db.transactions[t].status, Exec(s, w, es).db.transactions[t].status);
    }
  }
}
