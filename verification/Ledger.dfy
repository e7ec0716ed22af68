/** The payout books: which transfers exist, what the exchange may have paid, and for what. */
module Ledger {
  import opened BingX
  import opened Config
  import opened Deposits
  import opened History
  import opened Runs
  import opened Tables
  import opened Transfers
  import opened Webhooks

  // -------------------------------------------------------------- linked tables

  /** A transfer row copies its transaction's recipient and amount, under its key. */
  ghost predicate RowOk(db: Db, i: Id)
    requires i in db.transfers
  {
    var tr := db.transfers[i];
    && tr.txId in db.kyc && tr.txId in db.transactions
    && tr.key == KeyOf(tr.txId)
    && tr.recipientUid == db.transactions[tr.txId].recipientUid
    && tr.amountUsdt == db.transactions[tr.txId].amountUsdt
  }

  ghost predicate OnePerTxn(rows: map<Id, Transfer>) {
    forall i, j :: i in rows && j in rows && rows[i].txId == rows[j].txId ==> i == j
  }

  /** The transactions with a KYC record are those ever paid; each has a transfer row. */
  ghost predicate KycOk(db: Db) {
    && (forall t :: t in db.kyc ==>
          t in db.transactions && db.kyc[t].amountRub == db.transactions[t].amountRub
          && HasTransfer(db.transfers, KeyOf(t)))
    && (forall t :: t in db.transactions ==>
          && (db.transactions[t].status == TxPending ==> t !in db.kyc)
          && (db.transactions[t].status !in {TxPending, TxFailed} ==> t in db.kyc))
  }

  ghost predicate Linked(db: Db) {
    && (forall i :: i in db.transfers ==> RowOk(db, i))
    && OnePerTxn(db.transfers)
    && KycOk(db)
  }

  /** Neither of the two inserts of an accepted payment meets an existing row, so neither
      ON CONFLICT clause is ever used. */
  lemma NoConflictOnPaid(db: Db, p: Payment)
    requires Linked(db) && Accepts(db, p)
    ensures p.txId !in db.kyc && !HasTransfer(db.transfers, KeyOf(p.txId))
  {
    if HasTransfer(db.transfers, KeyOf(p.txId)) {
      var i :| i in db.transfers && db.transfers[i].key == KeyOf(p.txId);
      assert RowOk(db, i);
      KeyInjective(db.transfers[i].txId, p.txId);
    }
  }

  /** No payment is accepted: no KYC or transfer row appears, and no transaction becomes paid. */
  ghost predicate Quiet(a: Db, b: Db) {
    && a.kyc == b.kyc && a.transfers.Keys == b.transfers.Keys
    && forall t :: t in a.transactions && t in b.transactions && a.transactions[t].status == TxPending ==>
         b.transactions[t].status != TxPaid
  }

  lemma LinkedKept(a: Db, b: Db)
    requires Linked(a) && DbStep(a, b) && Quiet(a, b)
    ensures Linked(b)
  {
    hide TxnsStep, KycOk, HasTransfer;
    forall i | i in b.transfers
      ensures RowOk(b, i)
    {
      RowOkKept(a, b, i);
    }
    forall i, j | i in b.transfers && j in b.transfers && b.transfers[i].txId == b.transfers[j].txId
      ensures i == j
    {
      assert SameRow(a.transfers[i], b.transfers[i]) && SameRow(a.transfers[j], b.transfers[j]);
    }
    KycOkKept(a, b);
  }

  lemma RowOkKept(a: Db, b: Db, i: Id)
    requires i in a.transfers && i in b.transfers && RowOk(a, i) && DbStep(a, b) && a.kyc == b.kyc
    ensures RowOk(b, i)
  {
    assert SameRow(a.transfers[i], b.transfers[i]);
    assert SameQuote(a.transactions[a.transfers[i].txId], b.transactions[a.transfers[i].txId]);
  }

  lemma KycOkKept(a: Db, b: Db)
    requires KycOk(a) && DbStep(a, b) && Quiet(a, b)
    ensures KycOk(b)
  {
    forall t | t in b.kyc
      ensures t in b.transactions && b.kyc[t].amountRub == b.transactions[t].amountRub
      ensures HasTransfer(b.transfers, KeyOf(t))
    {
      assert SameQuote(a.transactions[t], b.transactions[t]);
      RowPersists(a.transfers, b.transfers, KeyOf(t));
    }
    hide HasTransfer;
    forall t | t in b.transactions
      ensures b.transactions[t].status == TxPending ==> t !in b.kyc
      ensures b.transactions[t].status !in {TxPending, TxFailed} ==> t in b.kyc
    {
      if t in a.transactions { assert AllowedMove(a.transactions[t].status, b.transactions[t].status); }
    }
  }

  lemma RowPersists(a: map<Id, Transfer>, b: map<Id, Transfer>, key: string)
    requires HasTransfer(a, key) && RowsStep(a, b)
    ensures HasTransfer(b, key)
  {
    var i :| i in a && a[i].key == key;
    assert i in b && SameRow(a[i], b[i]);
  }

  lemma LinkedOnPaid(db: Db, p: Payment, hold: int, now: Time, transferId: Id)
    requires Linked(db) && Accepts(db, p) && transferId !in db.transfers
    ensures Linked(MarkPaid(db, p, hold, now, transferId))
  {
    hide MarkPaid, PaidFrom, KycOk, RowOk, OnePerTxn;
    var db2 := MarkPaid(db, p, hold, now, transferId);
    MarkPaidIs(db, p, hold, now, transferId);
    PaidRows(db, db2, p, transferId);
    PaidKyc(db, db2, p, transferId);
  }

  lemma MarkPaidIs(db: Db, p: Payment, hold: int, now: Time, transferId: Id)
    requires Linked(db) && Accepts(db, p) && transferId !in db.transfers
    ensures PaidFrom(db, MarkPaid(db, p, hold, now, transferId), p, transferId)
  {
    NoConflictOnPaid(db, p);
    hide HasTransfer, Linked;
    var rows := db.transfers[transferId := NewTransfer(p.txId, db.transactions[p.txId], hold, now)];
    assert rows - {transferId} == db.transfers;
    assert MarkPaid(db, p, hold, now, transferId).transfers == rows;
  }

  /** db2 is db with p's transaction paid, its KYC record, and its transfer row. */
  ghost predicate PaidFrom(db: Db, db2: Db, p: Payment, transferId: Id) {
    && Accepts(db, p) && transferId !in db.transfers
    && transferId in db2.transfers && db.transfers == db2.transfers - {transferId}
    && var (t, tr) := (db.transactions[p.txId], db2.transfers[transferId]);
    && tr.txId == p.txId && tr.key == KeyOf(p.txId) && tr.recipientUid == t.recipientUid
      && tr.amountUsdt == t.amountUsdt
    && db2.transactions == db.transactions[p.txId :=
         t.(status := TxPaid, sbpPaymentId := Coalesce(p.sbpPaymentId, t.sbpPaymentId))]
    && db2.kyc == db.kyc[p.txId := Kyc(p.payerName.value, p.payerPhone.value, t.amountRub)]
  }

  lemma PaidRows(db: Db, db2: Db, p: Payment, transferId: Id)
    requires Linked(db) && PaidFrom(db, db2, p, transferId)
    ensures forall i :: i in db2.transfers ==> RowOk(db2, i)
    ensures OnePerTxn(db2.transfers)
  {
    hide HasTransfer;
    forall i | i in db.transfers
      ensures i in db2.transfers && db2.transfers[i] == db.transfers[i] && db.transfers[i].txId != p.txId
      ensures RowOk(db2, i)
    {
      assert RowOk(db, i);
      assert i in db2.transfers && i != transferId;
    }
    forall i | i in db2.transfers
      ensures RowOk(db2, i) && (i == transferId || i in db.transfers)
    {
      if i != transferId { assert i in db.transfers; }
    }
  }

  lemma PaidKyc(db: Db, db2: Db, p: Payment, transferId: Id)
    requires Linked(db) && PaidFrom(db, db2, p, transferId)
    ensures KycOk(db2)
  {
    assert transferId in db2.transfers;
    HasTransferGrows(db.transfers, db2.transfers, transferId);
    hide HasTransfer, RowOk, OnePerTxn, PaidFrom, KycOk;
    PaidKycRows(db, db2, p, transferId);
    PaidKycStatus(db, db2, p, transferId);
    KycFrom(db2);
  }

  ghost predicate KycRow(db: Db, t: Id) {
    t in db.kyc ==> t in db.transactions && db.kyc[t].amountRub == db.transactions[t].amountRub
  }

  ghost predicate KycStatus(db: Db, t: Id) {
    t in db.transactions ==>
      (db.transactions[t].status == TxPending ==> t !in db.kyc)
      && (db.transactions[t].status !in {TxPending, TxFailed} ==> t in db.kyc)
  }

  lemma KycFrom(db: Db)
    requires forall t :: KycRow(db, t) && KycStatus(db, t)
    requires forall t :: t in db.kyc ==> HasTransfer(db.transfers, KeyOf(t))
    ensures KycOk(db)
  {
    hide HasTransfer;
    forall t | t in db.kyc
      ensures t in db.transactions && db.kyc[t].amountRub == db.transactions[t].amountRub
    {
      assert KycRow(db, t);
    }
    forall t | t in db.transactions
      ensures db.transactions[t].status == TxPending ==> t !in db.kyc
      ensures db.transactions[t].status !in {TxPending, TxFailed} ==> t in db.kyc
    {
      assert KycStatus(db, t);
    }
  }

  lemma PaidKycRows(db: Db, db2: Db, p: Payment, transferId: Id)
    requires KycOk(db) && PaidFrom(db, db2, p, transferId)
    requires transferId in db2.transfers && HasTransfer(db2.transfers, db2.transfers[transferId].key)
    requires forall key :: HasTransfer(db.transfers, key) ==> HasTransfer(db2.transfers, key)
    ensures forall t :: KycRow(db2, t)
    ensures forall t :: t in db2.kyc ==> HasTransfer(db2.transfers, KeyOf(t))
  {
    hide HasTransfer;
  }

  lemma PaidKycStatus(db: Db, db2: Db, p: Payment, transferId: Id)
    requires KycOk(db) && PaidFrom(db, db2, p, transferId)
    ensures forall t :: KycStatus(db2, t)
  {
    hide HasTransfer, KeyOf;
  }

  lemma HasTransferGrows(a: map<Id, Transfer>, b: map<Id, Transfer>, i: Id)
    requires i in b && a == b - {i}
    ensures HasTransfer(b, b[i].key) && forall key :: HasTransfer(a, key) ==> HasTransfer(b, key)
  {
    forall key | HasTransfer(a, key)
      ensures HasTransfer(b, key)
    {
      var j :| j in a && a[j].key == key;
      assert j in b && b[j].key == key;
    }
  }

  lemma ServiceQuiet(s: Settings, w: World, e: Event)
    requires Validated(s) && !ByWorker(e) && ServiceEnabled(w, e)
    requires !(e.PaymentHook? && Accepts(w.db, e.payment))
    ensures Quiet(w.db, ServiceStep(s, w, e).db)
  {
    hide Quiet, CheckDeposit, InsertDeposit, HandlePayment, HandleChargeback, ChargebackBlocked, Accepts;
    QuietSame(w.db, ServiceStep(s, w, e).db);
    match e
    case Deposit(check, r, now, txId) =>
      if InsertDeposit(w.db, s, r, now, txId).Ok? { QuietDeposit(w.db, s, r, now, txId); }
    case PaymentHook(p, now, transferId) =>
      if HandlePayment(w.db, p, s.holdMinutes, now, transferId).Ok? {
        QuietPayment(w.db, p, s.holdMinutes, now, transferId);
      }
    case ChargebackHook(txId, reason, now, ids) => QuietChargeback(w.db, txId, reason, now, ids);
    case _ =>
  }

  lemma WorkerQuiet(s: Settings, w: World, e: Event)
    requires ByWorker(e) && WorkerEnabled(s, w, e)
    ensures Quiet(w.db, WorkerStep(s, w, e).db)
  {
    hide Quiet, ClaimRow, Record, RecordTransfer, RecordTxn, VerdictOf, IsNext, SaysAccepted;
    QuietSame(w.db, WorkerStep(s, w, e).db);
    match e
    case ClaimTask(k, i, now, locked) => QuietClaim(w.db, i, now);
    case RecordRow(k, now) => QuietRecordRow(w.db, w.workers[k].job, VerdictFor(w.workers[k]), now);
    case RecordRest(k) => QuietRecordTxn(w.db, w.workers[k].job, w.workers[k].phase.verdict);
    case Commit(k, now) =>
      QuietCommit(w.db, w.workers[k].job, VerdictFor(w.workers[k]), w.workers[k].claimedAt, now);
    case _ =>
  }

  /** Every step is quiet or the acceptance of a payment. */
  lemma StepQuiet(s: Settings, w: World, e: Event)
    requires Validated(s)
    requires !(e.PaymentHook? && Accepts(w.db, e.payment))
    ensures Quiet(w.db, Apply(s, w, e).db)
  {
    hide Quiet, WorkerStep, ServiceStep, WorkerEnabled, ServiceEnabled, Accepts;
    QuietSame(w.db, w.db);
    if Enabled(s, w, e) {
      if ByWorker(e) { WorkerQuiet(s, w, e); } else { ServiceQuiet(s, w, e); }
    }
  }

  lemma QuietSame(a: Db, b: Db)
    ensures a.kyc == b.kyc && a.transfers.Keys == b.transfers.Keys && a.transactions == b.transactions ==> Quiet(a, b)
  {
  }

  lemma QuietClaim(db: Db, i: Id, now: Time)
    ensures Quiet(db, ClaimRow(db, i, now))
  {
  }

  lemma QuietRecordRow(db: Db, job: Job, v: Verdict, now: Time)
    ensures Quiet(db, RecordTransfer(db, job, v, now))
  {
  }

  lemma QuietRecordTxn(db: Db, job: Job, v: Verdict)
    ensures Quiet(db, RecordTxn(db, job, v))
  {
  }

  lemma QuietDeposit(db: Db, s: Settings, r: Request, now: Time, txId: Id)
    requires Validated(s) && Acceptable(r) && txId !in db.transactions
    requires InsertDeposit(db, s, r, now, txId).Ok?
    ensures Quiet(db, InsertDeposit(db, s, r, now, txId).value)
  {
    hide Quoted, RowFor, Blacklisted;
  }

  lemma QuietChargeback(db: Db, txId: Id, reason: string, now: Time, ids: seq<Id>)
    requires |ids| == 2
    ensures Quiet(db, HandleChargeback(db, txId, reason, now, ids))
  {
    hide BanAll;
  }

  lemma QuietCommit(db: Db, job: Job, v: Verdict, claimedAt: Time, now: Time)
    ensures Quiet(db, Record(ClaimRow(db, job.transferId, claimedAt), job, v, now))
  {
    QuietRecord(ClaimRow(db, job.transferId, claimedAt), job, v, now);
  }

  lemma QuietRecord(db: Db, job: Job, v: Verdict, now: Time)
    ensures Quiet(db, Record(db, job, v, now))
  {
  }

  lemma QuietPayment(db: Db, p: Payment, hold: int, now: Time, transferId: Id)
    requires !Accepts(db, p) && HandlePayment(db, p, hold, now, transferId).Ok?
    ensures Quiet(db, HandlePayment(db, p, hold, now, transferId).value)
  {
    if p.txId in db.transactions {
      ReleaseKeeps(CloseFailed(db, p), p.txId);
      hide ReleasePromo, MarkPaid;
    }
  }

  lemma StepLinked(s: Settings, w: World, e: Event)
    requires Validated(s) && Linked(w.db)
    ensures Linked(Apply(s, w, e).db)
  {
    hide Linked, Quiet, MarkPaid;
    if Enabled(s, w, e) && e.PaymentHook? && Accepts(w.db, e.payment) {
      LinkedOnPaid(w.db, e.payment, s.holdMinutes, e.now, e.transferId);
    } else {
      StepKeepsHistory(s, w, e);
      if !(e.PaymentHook? && Accepts(w.db, e.payment)) {
        StepQuiet(s, w, e);
        LinkedKept(w.db, Apply(s, w, e).db);
      }
    }
  }

  // ------------------------------------------------------- workers, wire, ledger

  ghost predicate Backed(rows: map<Id, Transfer>, key: string, recipientUid: string, amountUsdt: nat) {
    exists i :: i in rows && rows[i].key == key && rows[i].recipientUid == recipientUid
      && rows[i].amountUsdt == amountUsdt
  }

  /** The job carries the content of its transfer row. */
  ghost predicate JobOk(rows: map<Id, Transfer>, job: Job) {
    && job.transferId in rows
    && var tr := rows[job.transferId];
    && job.txId == tr.txId && job.key == tr.key && job.recipientUid == tr.recipientUid
      && job.amountUsdt == tr.amountUsdt
  }

  ghost predicate JobsOk(rows: map<Id, Transfer>, workers: map<nat, Worker>) {
    forall k :: k in workers ==> JobOk(rows, workers[k].job)
  }

  ghost predicate WireOk(rows: map<Id, Transfer>, wire: map<nat, Call>) {
    forall c :: c in wire ==> Backed(rows, wire[c].key, wire[c].recipientUid, wire[c].amountUsdt)
  }

  ghost predicate LedgerOk(rows: map<Id, Transfer>, ledger: map<string, Payout>) {
    forall key :: key in ledger ==> Backed(rows, key, ledger[key].recipientUid, ledger[key].amountUsdt)
  }

  lemma BackedKept(a: map<Id, Transfer>, b: map<Id, Transfer>, key: string, recipientUid: string, amountUsdt: nat)
    requires Backed(a, key, recipientUid, amountUsdt) && RowsStep(a, b)
    ensures Backed(b, key, recipientUid, amountUsdt)
  {
    var i :| i in a && a[i].key == key && a[i].recipientUid == recipientUid && a[i].amountUsdt == amountUsdt;
    assert i in b && SameRow(a[i], b[i]);
  }

  lemma RowsKept(a: map<Id, Transfer>, b: map<Id, Transfer>, w: World)
    requires RowsStep(a, b) && JobsOk(a, w.workers) && WireOk(a, w.wire) && LedgerOk(a, w.ledger)
    ensures JobsOk(b, w.workers) && WireOk(b, w.wire) && LedgerOk(b, w.ledger)
  {
    forall k | k in w.workers
      ensures JobOk(b, w.workers[k].job)
    {
      assert JobOk(a, w.workers[k].job);
      assert SameRow(a[w.workers[k].job.transferId], b[w.workers[k].job.transferId]);
    }
    hide Backed, RowsStep;
    forall c | c in w.wire
      ensures Backed(b, w.wire[c].key, w.wire[c].recipientUid, w.wire[c].amountUsdt)
    {
      BackedKept(a, b, w.wire[c].key, w.wire[c].recipientUid, w.wire[c].amountUsdt);
    }
    forall key | key in w.ledger
      ensures Backed(b, key, w.ledger[key].recipientUid, w.ledger[key].amountUsdt)
    {
      BackedKept(a, b, key, w.ledger[key].recipientUid, w.ledger[key].amountUsdt);
    }
  }

  ghost predicate Wired(w: World) {
    JobsOk(w.db.transfers, w.workers) && WireOk(w.db.transfers, w.wire) && LedgerOk(w.db.transfers, w.ledger)
  }

  /** Workers keep their jobs, except that a claim starts one on its row. */
  lemma StepWorkers(s: Settings, w: World, e: Event)
    requires Validated(s) && Enabled(s, w, e)
    ensures var w2 := Step(s, w, e);
      forall k :: k in w2.workers ==>
        || (k in w.workers && w2.workers[k].job == w.workers[k].job && w2.workers[k].locked == w.workers[k].locked
            && w2.workers[k].claimedAt == w.workers[k].claimedAt)
        || (e.ClaimTask? && k == e.worker && e.transferId in w.db.transfers
            && w2.workers[k] == Worker(JobOf(e.transferId, ClaimRow(w.db, e.transferId, e.now).transfers[e.transferId]),
                                       e.locked, e.now, Claimed))
  {
    hide ServiceStep, ServiceEnabled, Record, RecordTransfer, RecordTxn, VerdictOf, SaysAccepted;
    if e.ClaimTask? {
      assert IsNext(w.db, LockedRows(w), s, e.now, e.transferId);
    }
  }

  lemma StepWired(s: Settings, w: World, e: Event)
    requires Validated(s) && Wired(w)
    ensures Wired(Apply(s, w, e))
  {
    if Enabled(s, w, e) {
      var w2 := Step(s, w, e);
      StepKeepsHistory(s, w, e);
      RowsKept(w.db.transfers, w2.db.transfers, w);
      hide Step, Enabled, RowsStep, JobsOk, WireOk, LedgerOk;
      StepJobs(s, w, e);
      StepWire(s, w, e);
      StepLedger(s, w, e);
    }
  }

  lemma StepJobs(s: Settings, w: World, e: Event)
    requires Validated(s) && Enabled(s, w, e)
    requires JobsOk(Step(s, w, e).db.transfers, w.workers)
    ensures JobsOk(Step(s, w, e).db.transfers, Step(s, w, e).workers)
  {
    var w2 := Step(s, w, e);
    StepWorkers(s, w, e);
    StepKeepsHistory(s, w, e);
    hide Step, Enabled;
    forall k | k in w2.workers
      ensures JobOk(w2.db.transfers, w2.workers[k].job)
    {
      if e.ClaimTask? && k == e.worker && e.transferId in w.db.transfers {
        assert SameRow(w.db.transfers[e.transferId], w2.db.transfers[e.transferId]);
      }
      if k in w.workers { assert JobOk(w2.db.transfers, w.workers[k].job); }
    }
  }

  lemma StepWire(s: Settings, w: World, e: Event)
    requires Validated(s) && Enabled(s, w, e)
    requires JobsOk(Step(s, w, e).db.transfers, w.workers) && WireOk(Step(s, w, e).db.transfers, w.wire)
    ensures WireOk(Step(s, w, e).db.transfers, Step(s, w, e).wire)
  {
    hide ServiceStep, ServiceEnabled, Record, RecordTransfer, RecordTxn, VerdictOf, IsNext, Backed, SaysAccepted;
    if e.SendCall? {
      BackedJob(w.db.transfers, w.workers[e.worker].job);
    }
  }

  lemma BackedJob(rows: map<Id, Transfer>, job: Job)
    requires JobOk(rows, job)
    ensures Backed(rows, job.key, job.recipientUid, job.amountUsdt)
  {
  }

  lemma StepLedger(s: Settings, w: World, e: Event)
    requires Validated(s) && Enabled(s, w, e)
    requires WireOk(Step(s, w, e).db.transfers, w.wire) && LedgerOk(Step(s, w, e).db.transfers, w.ledger)
    ensures LedgerOk(Step(s, w, e).db.transfers, Step(s, w, e).ledger)
  {
    hide ServiceStep, ServiceEnabled, Record, RecordTransfer, RecordTxn, VerdictOf, IsNext, Backed, SaysAccepted;
  }

  // ------------------------------------------------------- what a row or a job tells

  /** A transfer row's transaction exists and has left pending; the row is under its key. */
  lemma RowTxn(db: Db, i: Id)
    requires Linked(db) && i in db.transfers
    ensures db.transfers[i].txId in db.transactions && db.transfers[i].key == KeyOf(db.transfers[i].txId)
    ensures db.transactions[db.transfers[i].txId].status != TxPending
  {
    assert RowOk(db, i);
    hide OnePerTxn, HasTransfer;
  }

  lemma OneRow(db: Db, i: Id, j: Id)
    requires Linked(db) && i in db.transfers && j in db.transfers && db.transfers[i].txId == db.transfers[j].txId
    ensures i == j
  {
  }

  lemma JobRow(w: World, k: nat)
    requires Wired(w) && k in w.workers
    ensures w.workers[k].job.transferId in w.db.transfers
    ensures w.workers[k].job.txId == w.db.transfers[w.workers[k].job.transferId].txId
    ensures w.workers[k].job.key == w.db.transfers[w.workers[k].job.transferId].key
  {
    assert JobOk(w.db.transfers, w.workers[k].job);
    hide WireOk, LedgerOk;
  }

  /** A claim takes a free worker slot and a claimable row that nobody holds. */
  lemma ClaimedIsReady(s: Settings, w: World, e: Event)
    requires e.ClaimTask? && Enabled(s, w, e)
    ensures Claimable(w.db, s, e.now, e.transferId) && e.transferId in w.db.transfers
    ensures e.transferId !in LockedRows(w) && e.worker !in w.workers
  {
    hide Claimable;
    ClaimableIsRow(w.db, s, e.now, e.transferId);
  }

  lemma ClaimableIsRow(db: Db, s: Settings, now: Time, i: Id)
    ensures Claimable(db, s, now, i) ==> i in db.transfers
  {
  }

  /** A worker that commits is gone. */
  lemma CommitLeaves(s: Settings, w: World, e: Event)
    requires Validated(s) && e.Commit? && Enabled(s, w, e)
    ensures e.worker in w.workers && w.workers[e.worker].locked && e.worker !in Step(s, w, e).workers
  {
    hide Record, ClaimRow, VerdictOf;
  }
}
