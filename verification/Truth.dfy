/** The record is truthful: what the tables call completed, the exchange accepted. */
module Truth {
  import opened BingX
  import opened Config
  import opened Deposits
  import opened History
  import opened Ledger
  import opened Runs
  import opened Tables
  import opened Transfers
  import opened Webhooks

  ghost predicate RowsTrue(rows: map<Id, Transfer>, ledger: map<string, Payout>) {
    forall i :: i in rows && rows[i].status == TrCompleted ==> rows[i].key in ledger
  }

  ghost predicate TxnsTrue(txns: map<Id, Txn>, ledger: map<string, Payout>) {
    forall t :: t in txns && txns[t].status == TxCompleted ==> KeyOf(t) in ledger
  }

  ghost predicate PhaseTrue(k: Worker, ledger: map<string, Payout>) {
    && (k.phase.Answered? && SaysAccepted(k.phase.reply) ==> k.job.key in ledger)
    && (k.phase.RowRecorded? && k.phase.verdict.Complete? ==> k.job.key in ledger)
  }

  ghost predicate WorkersTrue(workers: map<nat, Worker>, ledger: map<string, Payout>) {
    forall k :: k in workers ==> PhaseTrue(workers[k], ledger)
  }

  ghost predicate Truthful(w: World) {
    && RowsTrue(w.db.transfers, w.ledger)
    && TxnsTrue(w.db.transactions, w.ledger)
    && WorkersTrue(w.workers, w.ledger)
  }

  /** The exchange never takes a payout back or changes one. */
  lemma StepKeepsLedger(s: Settings, w: World, e: Event)
    requires Validated(s)
    ensures forall key :: key in w.ledger ==>
      key in Apply(s, w, e).ledger && Apply(s, w, e).ledger[key] == w.ledger[key]
  {
    hide ServiceStep, ServiceEnabled, Record, RecordTransfer, RecordTxn, VerdictOf, IsNext, SaysAccepted;
  }

  /** Does this step record a completed transfer for worker k's job? */
  ghost predicate CompletesRow(w: World, e: Event) {
    && (e.RecordRow? || e.Commit?) && e.worker in w.workers
    && w.workers[e.worker].phase.Answered? && VerdictFor(w.workers[e.worker]).Complete?
  }

  ghost predicate CompletesTxn(w: World, e: Event) {
    || (e.RecordRest? && e.worker in w.workers && w.workers[e.worker].phase.RowRecorded?
        && w.workers[e.worker].phase.verdict.Complete?)
    || (e.Commit? && CompletesRow(w, e))
  }

  /** No row and no transaction becomes completed. */
  ghost predicate NoneCompletes(a: Db, b: Db) {
    && (forall i :: i in b.transfers && b.transfers[i].status == TrCompleted ==>
          i in a.transfers && a.transfers[i].status == TrCompleted)
    && (forall t :: t in b.transactions && b.transactions[t].status == TxCompleted ==>
          t in a.transactions && a.transactions[t].status == TxCompleted)
  }

  lemma DepositCompletesNone(db: Db, s: Settings, r: Request, now: Time, txId: Id)
    requires Validated(s) && Acceptable(r) && InsertDeposit(db, s, r, now, txId).Ok?
    ensures NoneCompletes(db, InsertDeposit(db, s, r, now, txId).value)
  {
    hide Quoted, RowFor, Blacklisted;
  }

  lemma PaymentCompletesNone(db: Db, p: Payment, hold: int, now: Time, transferId: Id)
    requires HandlePayment(db, p, hold, now, transferId).Ok?
    ensures NoneCompletes(db, HandlePayment(db, p, hold, now, transferId).value)
  {
    hide MarkPaid, MarkFailed;
    if p.txId in db.transactions {
      FailedCompletesNone(db, p);
      if p.payerName.Some? && p.payerPhone.Some? { PaidCompletesNone(db, p, hold, now, transferId); }
    }
  }

  lemma FailedCompletesNone(db: Db, p: Payment)
    requires p.txId in db.transactions
    ensures NoneCompletes(db, MarkFailed(db, p))
  {
    ReleaseKeeps(CloseFailed(db, p), p.txId);
    hide ReleasePromo;
  }

  lemma PaidCompletesNone(db: Db, p: Payment, hold: int, now: Time, transferId: Id)
    requires p.txId in db.transactions && p.payerName.Some? && p.payerPhone.Some?
    ensures NoneCompletes(db, MarkPaid(db, p, hold, now, transferId))
  {
    hide HasTransfer;
  }

  lemma CancelCompletesNone(rows: map<Id, Transfer>, txId: Id, now: Time)
    ensures forall i :: i in rows && CancelTransfers(rows, txId, now)[i].status == TrCompleted ==>
      rows[i].status == TrCompleted
  {
  }

  lemma ChargebackCompletesNone(db: Db, txId: Id, reason: string, now: Time, ids: seq<Id>)
    requires |ids| == 2
    ensures NoneCompletes(db, HandleChargeback(db, txId, reason, now, ids))
  {
    hide NoneCompletes, AcceptChargeback;
    SameCompletesNone(db, HandleChargeback(db, txId, reason, now, ids));
    if Found(db, txId) { AcceptCompletesNone(db, txId, reason, now, ids); }
  }

  lemma AcceptCompletesNone(db: Db, txId: Id, reason: string, now: Time, ids: seq<Id>)
    requires |ids| == 2 && Found(db, txId)
    ensures NoneCompletes(db, AcceptChargeback(db, txId, reason, now, ids))
  {
    hide BanAll, ReleasePromo, CancelTransfers, BanEntries;
    CancelCompletesNone(db.transfers, txId, now);
  }

  /** A recorded verdict completes at most its own job's row and transaction. */
  ghost predicate OnlyCompletes(a: Db, b: Db, i: Id, t: Id) {
    && (forall j :: j in b.transfers && b.transfers[j].status == TrCompleted && j != i ==>
          j in a.transfers && a.transfers[j].status == TrCompleted)
    && (forall u :: u in b.transactions && b.transactions[u].status == TxCompleted && u != t ==>
          u in a.transactions && a.transactions[u].status == TxCompleted)
  }

  lemma RecordRowCompletes(db: Db, job: Job, v: Verdict, now: Time)
    ensures var db2 := RecordTransfer(db, job, v, now);
      OnlyCompletes(db, db2, job.transferId, job.txId) && (!v.Complete? ==> NoneCompletes(db, db2))
  {
  }

  lemma RecordTxnCompletes(db: Db, job: Job, v: Verdict)
    ensures var db2 := RecordTxn(db, job, v);
      OnlyCompletes(db, db2, job.transferId, job.txId) && (!v.Complete? ==> NoneCompletes(db, db2))
  {
  }

  lemma CommitCompletes(db: Db, job: Job, v: Verdict, claimedAt: Time, now: Time)
    ensures var db2 := Record(ClaimRow(db, job.transferId, claimedAt), job, v, now);
      OnlyCompletes(db, db2, job.transferId, job.txId) && (!v.Complete? ==> NoneCompletes(db, db2))
  {
    var claimed := ClaimRow(db, job.transferId, claimedAt);
    assert NoneCompletes(db, claimed);
    RecordRowCompletes(claimed, job, v, now);
    RecordTxnCompletes(RecordTransfer(claimed, job, v, now), job, v);
    hide RecordTransfer, RecordTxn, ClaimRow;
  }

  lemma ServiceCompletesNone(s: Settings, w: World, e: Event)
    requires Validated(s) && !ByWorker(e) && ServiceEnabled(w, e)
    ensures NoneCompletes(w.db, ServiceStep(s, w, e).db)
  {
    hide NoneCompletes, CheckDeposit, InsertDeposit, HandlePayment, HandleChargeback, ChargebackBlocked, Accepts;
    SameCompletesNone(w.db, ServiceStep(s, w, e).db);
    match e
    case Deposit(check, r, now, txId) =>
      if InsertDeposit(w.db, s, r, now, txId).Ok? { DepositCompletesNone(w.db, s, r, now, txId); }
    case PaymentHook(p, now, transferId) =>
      if HandlePayment(w.db, p, s.holdMinutes, now, transferId).Ok? {
        PaymentCompletesNone(w.db, p, s.holdMinutes, now, transferId);
      }
    case ChargebackHook(txId, reason, now, ids) => ChargebackCompletesNone(w.db, txId, reason, now, ids);
    case ResetHold(i) => ResetCompletesNone(w.db, i);
    case _ =>
  }

  lemma WorkerCompletes(s: Settings, w: World, e: Event)
    requires ByWorker(e) && WorkerEnabled(s, w, e)
    ensures var w2 := WorkerStep(s, w, e);
      || NoneCompletes(w.db, w2.db)
      || ((CompletesRow(w, e) || CompletesTxn(w, e))
          && OnlyCompletes(w.db, w2.db, w.workers[e.worker].job.transferId, w.workers[e.worker].job.txId))
  {
    hide ClaimRow, Record, RecordTransfer, RecordTxn, VerdictOf, IsNext, SaysAccepted, NoneCompletes, OnlyCompletes;
    SameCompletesNone(w.db, WorkerStep(s, w, e).db);
    match e
    case ClaimTask(k, i, now, locked) => ClaimCompletesNone(w.db, i, now);
    case RecordRow(k, now) => RecordRowCompletes(w.db, w.workers[k].job, VerdictFor(w.workers[k]), now);
    case RecordRest(k) => RecordTxnCompletes(w.db, w.workers[k].job, w.workers[k].phase.verdict);
    case Commit(k, now) =>
      CommitCompletes(w.db, w.workers[k].job, VerdictFor(w.workers[k]), w.workers[k].claimedAt, now);
    case _ =>
  }

  /** Only recording a verdict completes anything, and only for its own job. */
  lemma StepCompletes(s: Settings, w: World, e: Event)
    requires Validated(s) && Enabled(s, w, e)
    ensures var w2 := Step(s, w, e);
      || NoneCompletes(w.db, w2.db)
      || ((CompletesRow(w, e) || CompletesTxn(w, e))
          && OnlyCompletes(w.db, w2.db, w.workers[e.worker].job.transferId, w.workers[e.worker].job.txId))
  {
    hide WorkerStep, ServiceStep, WorkerEnabled, ServiceEnabled, NoneCompletes, OnlyCompletes, CompletesRow,
      CompletesTxn;
    if ByWorker(e) { WorkerCompletes(s, w, e); } else { ServiceCompletesNone(s, w, e); }
  }

  lemma SameCompletesNone(a: Db, b: Db)
    ensures a.transfers == b.transfers && a.transactions == b.transactions ==> NoneCompletes(a, b)
  {
  }

  lemma ClaimCompletesNone(db: Db, i: Id, now: Time)
    ensures NoneCompletes(db, ClaimRow(db, i, now))
  {
  }

  lemma ResetCompletesNone(db: Db, i: Id)
    requires i in db.transfers
    ensures NoneCompletes(db, db.(transfers := db.transfers[i := db.transfers[i].(status := TrPending)]))
  {
  }

  lemma StepWorkersTrue(s: Settings, w: World, e: Event)
    requires Validated(s) && Enabled(s, w, e) && WorkersTrue(w.workers, w.ledger)
    ensures WorkersTrue(Step(s, w, e).workers, Step(s, w, e).ledger)
  {
    hide ServiceStep, ServiceEnabled, Record, RecordTransfer, RecordTxn, VerdictOf, IsNext, SaysAccepted;
    if e.RecordRow? {
      CompleteIffAccepted(w.workers[e.worker].phase.reply, w.workers[e.worker].job.attempt);
    }
  }

  lemma JobKey(w: World, k: nat)
    requires Linked(w.db) && Wired(w) && k in w.workers
    ensures w.workers[k].job.key == KeyOf(w.workers[k].job.txId)
  {
    var job := w.workers[k].job;
    assert JobOk(w.db.transfers, job);
    assert RowOk(w.db, job.transferId);
  }

  lemma StepTruthful(s: Settings, w: World, e: Event)
    requires Validated(s) && Linked(w.db) && Wired(w) && Truthful(w)
    ensures Truthful(Apply(s, w, e))
  {
    hide Step, Enabled, CompletedBy, DbStep, Linked, Wired, RowsTrue, TxnsTrue, WorkersTrue;
    if Enabled(s, w, e) {
      var w2 := Step(s, w, e);
      StepKeepsLedger(s, w, e);
      StepWorkersTrue(s, w, e);
      StepCompletedBy(s, w, e);
      RowsStayTrue(s, w, e);
      TxnsStayTrue(w, w2, e);
    }
  }

  lemma StepCompletedBy(s: Settings, w: World, e: Event)
    requires Validated(s) && Enabled(s, w, e) && Linked(w.db) && Wired(w) && Truthful(w)
    ensures CompletedBy(w, Step(s, w, e), e)
  {
    StepCompletes(s, w, e);
    hide Step, Enabled, CompletesRow, CompletesTxn, OnlyCompletes, NoneCompletes, Linked, Wired, RowsTrue, TxnsTrue,
      WorkersTrue;
    if CompletesRow(w, e) || CompletesTxn(w, e) {
      CompletingKeyPaid(w, e);
    }
  }

  lemma CompletingKeyPaid(w: World, e: Event)
    requires Linked(w.db) && Wired(w) && WorkersTrue(w.workers, w.ledger) && (CompletesRow(w, e) || CompletesTxn(w, e))
    ensures var job := w.workers[e.worker].job;
      job.key in w.ledger && job.key == KeyOf(job.txId) && JobOk(w.db.transfers, job)
  {
    JobKey(w, e.worker);
    var k := w.workers[e.worker];
    assert PhaseTrue(k, w.ledger);
    if k.phase.Answered? { CompleteIffAccepted(k.phase.reply, k.job.attempt); }
    hide VerdictOf, SaysAccepted, Linked;
  }

  ghost predicate CompletedBy(w: World, w2: World, e: Event) {
    || NoneCompletes(w.db, w2.db)
    || ((CompletesRow(w, e) || CompletesTxn(w, e))
        && w.workers[e.worker].job.key in w.ledger
        && w.workers[e.worker].job.key == KeyOf(w.workers[e.worker].job.txId)
        && JobOk(w.db.transfers, w.workers[e.worker].job)
        && OnlyCompletes(w.db, w2.db, w.workers[e.worker].job.transferId, w.workers[e.worker].job.txId))
  }

  lemma RowsStayTrue(s: Settings, w: World, e: Event)
    requires Validated(s) && Enabled(s, w, e) && RowsTrue(w.db.transfers, w.ledger) && CompletedBy(w, Step(s, w, e), e)
    ensures RowsTrue(Step(s, w, e).db.transfers, Step(s, w, e).ledger)
  {
    StepKeepsLedger(s, w, e);
    StepKeepsHistory(s, w, e);
    hide Step, Enabled, CompletesRow, CompletesTxn, TxnsStep, UsersStep;
    var w2 := Step(s, w, e);
    forall i | i in w2.db.transfers && w2.db.transfers[i].status == TrCompleted
      ensures w2.db.transfers[i].key in w2.ledger
    {
      assert i in w.db.transfers;
      assert SameRow(w.db.transfers[i], w2.db.transfers[i]);
    }
  }

  lemma TxnsStayTrue(w: World, w2: World, e: Event)
    requires TxnsTrue(w.db.transactions, w.ledger) && CompletedBy(w, w2, e)
    requires forall key :: key in w.ledger ==> key in w2.ledger
    ensures TxnsTrue(w2.db.transactions, w2.ledger)
  {
    hide CompletesRow, CompletesTxn, JobOk;
    forall t | t in w2.db.transactions && w2.db.transactions[t].status == TxCompleted
      ensures KeyOf(t) in w2.ledger
    {
      assert KeyOf(t) in w.ledger;
    }
  }

  // ------------------------------------------------------------- reachable states

  /** The invariant of every run, at either granularity. */
  ghost predicate Books(w: World) {
    Linked(w.db) && Wired(w) && Truthful(w)
  }

  lemma {:induction false} RunBooks(s: Settings, es: seq<Event>)
    requires Validated(s)
    ensures Books(Exec(s, START, es))
  {
    if es != [] {
      RunBooks(s, es[..|es| - 1]);
      var w, e := Exec(s, START, es[..|es| - 1]), es[|es| - 1];
      hide Apply, Linked, Wired, Truthful;
      StepLinked(s, w, e);
      StepWired(s, w, e);
      StepTruthful(s, w, e);
    }
  }

  /** A completed transfer, and a completed transaction, was accepted by the exchange, over any
      run at any granularity. */
  lemma {:induction false} CompletedWasAccepted(s: Settings, es: seq<Event>)
    requires Validated(s)
    ensures var w := Exec(s, START, es);
      && (forall i :: i in w.db.transfers && w.db.transfers[i].status == TrCompleted ==>
        w.db.transfers[i].key in w.ledger)
      && (forall t :: t in w.db.transactions && w.db.transactions[t].status == TxCompleted ==> KeyOf(t) in w.ledger)
  {
    RunBooks(s, es);
  }

  /** The payout the exchange made for transaction t, if any, is of t's frozen amount to t's
      stored recipient. */
  ghost predicate PayoutFor(w: World, t: Id)
    requires KeyOf(t) in w.ledger
  {
    && t in w.db.transactions && t in w.db.kyc
    && w.ledger[KeyOf(t)].recipientUid == w.db.transactions[t].recipientUid
    && w.ledger[KeyOf(t)].amountUsdt == w.db.transactions[t].amountUsdt
  }

  /** Every payout is for one ever-paid transaction, of exactly its amount to exactly its
      recipient; a transaction has at most one transfer row, and distinct transactions have
      distinct keys, so it has at most one payout. */
  lemma OnePayoutEach(s: Settings, es: seq<Event>)
    requires Validated(s)
    ensures var w := Exec(s, START, es);
      && OnePerTxn(w.db.transfers)
      && (forall key :: key in w.ledger ==> exists t :: key == KeyOf(t) && PayoutFor(w, t))
  {
    RunBooks(s, es);
    var w := Exec(s, START, es);
    hide Exec;
    forall key | key in w.ledger
      ensures exists t :: key == KeyOf(t) && PayoutFor(w, t)
    {
      var t := PayoutTxn(w, key);
    }
  }

  lemma PayoutTxn(w: World, key: string) returns (t: Id)
    requires Books(w) && key in w.ledger
    ensures key == KeyOf(t) && PayoutFor(w, t)
  {
    hide Truthful, KycOk, JobsOk, WireOk;
    assert Backed(w.db.transfers, key, w.ledger[key].recipientUid, w.ledger[key].amountUsdt);
    var i :| i in w.db.transfers && w.db.transfers[i].key == key
      && w.db.transfers[i].recipientUid == w.ledger[key].recipientUid
      && w.db.transfers[i].amountUsdt == w.ledger[key].amountUsdt;
    assert RowOk(w.db, i);
    t := w.db.transfers[i].txId;
  }

  /** On every reachable state, the KYC and transfer inserts of an accepted payment meet no
      existing row. */
  lemma {:induction false} ConflictClausesUnused(s: Settings, es: seq<Event>, p: Payment)
    requires Validated(s) && Accepts(Exec(s, START, es).db, p)
    ensures var db := Exec(s, START, es).db;
      p.txId !in db.kyc && !HasTransfer(db.transfers, KeyOf(p.txId))
  {
    RunBooks(s, es);
    NoConflictOnPaid(Exec(s, START, es).db, p);
  }
}
