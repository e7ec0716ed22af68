/** Production runs: the transfer and transaction state machines move in step, however many
    workers there are. */
module Coupling {
  import opened BingX
  import opened Config
  import opened Ledger
  import opened Moves
  import opened Runs
  import opened Tables
  import opened Transfers
  import opened Truth
  import opened Webhooks

  /** The transfer statuses that go with each transaction status. */
  predicate Paired(t: TxStatus, tr: TransferStatus) {
    match t
    case TxPending => false
    case TxPaid => tr in {TrPending, TrOnHold}
    case TxCompleted => tr == TrCompleted
    case TxError => tr == TrError
    case TxFailed => tr == TrFailed
    case TxChargeback => tr in {TrCancelled, TrOnHold, TrPending, TrCompleted, TrError}
  }

  predicate RowPaired(db: Db, i: Id) {
    && i in db.transfers && db.transfers[i].txId in db.transactions
    && Paired(db.transactions[db.transfers[i].txId].status, db.transfers[i].status)
  }

  ghost predicate AllPaired(db: Db) {
    forall i :: i in db.transfers ==> RowPaired(db, i)
  }

  /** The worker holds its row, which is a pending transfer of a paid transaction. */
  predicate HoldsRow(db: Db, k: Worker) {
    && k.locked
    && k.job.transferId in db.transfers && k.job.txId in db.transactions
    && db.transfers[k.job.transferId].status == TrPending
    && db.transactions[k.job.txId].status == TxPaid
    && k.job.attempt == db.transfers[k.job.transferId].attempts + 1
  }

  ghost predicate AllHold(w: World) {
    forall k :: k in w.workers ==> HoldsRow(w.db, w.workers[k])
  }

  /** No two workers hold one transfer. */
  ghost predicate Alone(workers: map<nat, Worker>) {
    forall k, m :: k in workers && m in workers && workers[k].job.transferId == workers[m].job.transferId ==> k == m
  }

  ghost predicate Coupled(w: World) { AllPaired(w.db) && AllHold(w) && Alone(w.workers) }

  /** A claim of this step locks its row. */
  predicate LockedOnly(e: Event) { e.ClaimTask? ==> e.locked }

  // ------------------------------------------------------------------- one row

  /** The verdict moves both rows together. */
  lemma VerdictPairs(v: Verdict, t: Txn)
    requires t.status == TxPaid
    ensures Paired(Settled(t, v).status, StatusFor(v))
  {
  }

  lemma PairedOnRecord(s: Settings, w: World, e: Event, i: Id)
    requires Validated(s) && Linked(w.db) && Wired(w) && AllHold(w) && i in w.db.transfers && RecordsRow(s, w, e, i)
    ensures RowPaired(Apply(s, w, e).db, i)
  {
    hide Apply, Linked, Wired, AllHold, Enabled, VerdictOf, Settled, StatusFor, Paired;
    OnlyCommits(s, w, e);
    var k := w.workers[e.worker];
    HoldsIts(w, e.worker);
    JobRow(w, e.worker);
    StepRow(s, w, e, i);
    StepStatus(s, w, e, k.job.txId);
    VerdictPairs(VerdictFor(k), w.db.transactions[k.job.txId]);
  }

  lemma HoldsIts(w: World, k: nat)
    requires AllHold(w) && k in w.workers
    ensures HoldsRow(w.db, w.workers[k])
  {
  }

  /** With every claim locked, a verdict is only ever written by a commit. */
  lemma OnlyCommits(s: Settings, w: World, e: Event)
    requires AllHold(w) && Enabled(s, w, e)
    ensures !e.RecordRow? && !e.RecordRest?
      && (e.Commit? ==> e.worker in w.workers && w.workers[e.worker].phase.Answered?)
  {
    AllLocked(w);
    hide IsNext, SaysAccepted, ChargebackBlocked, AllHold;
  }

  lemma AllLocked(w: World)
    requires AllHold(w)
    ensures forall k :: k in w.workers ==> w.workers[k].locked
  {
    forall k | k in w.workers
      ensures w.workers[k].locked
    {
      assert HoldsRow(w.db, w.workers[k]);
    }
  }

  lemma NotSettled(s: Settings, w: World, e: Event, i: Id)
    requires Linked(w.db) && Wired(w) && AllHold(w) && i in w.db.transfers && !RecordsRow(s, w, e, i)
    ensures !Settles(s, w, e, w.db.transfers[i].txId)
  {
    hide Enabled, Linked, Wired, AllHold;
    if Settles(s, w, e, w.db.transfers[i].txId) {
      OnlyCommits(s, w, e);
      JobRow(w, e.worker);
      OneRow(w.db, i, w.workers[e.worker].job.transferId);
    }
  }

  /** What happens to a row that no verdict is written to. */
  ghost predicate Unworked(w: World, db2: Db, i: Id, charged: bool, reset: bool)
    requires i in w.db.transfers && w.db.transfers[i].txId in w.db.transactions
  {
    var (tr, t) := (w.db.transfers[i], w.db.transactions[w.db.transfers[i].txId]);
    && i in db2.transfers && db2.transfers[i].txId == tr.txId && tr.txId in db2.transactions
    && db2.transfers[i].attempts == tr.attempts
    && var (tr2, t2) := (db2.transfers[i].status, db2.transactions[tr.txId].status);
    if charged then
      ChargebackEligible(t.status) && t2 == TxChargeback
      && tr2 == if tr.status in {TrPending, TrProcessing} then TrCancelled else tr.status
    else t2 == t.status && if reset then tr.status == TrOnHold && tr2 == TrPending else tr2 == tr.status
  }

  lemma UnworkedStep(s: Settings, w: World, e: Event, i: Id)
    requires Validated(s) && Linked(w.db) && Wired(w) && AllHold(w) && LockedOnly(e)
    requires i in w.db.transfers && !RecordsRow(s, w, e, i)
    ensures w.db.transfers[i].txId in w.db.transactions
    ensures Unworked(w, Apply(s, w, e).db, i, ChargesBack(s, w, e, w.db.transfers[i].txId), Resets(s, w, e, i))
  {
    hide Apply, Linked, Wired, AllHold, RecordsRow, Settles, Decides;
    RowTxn(w.db, i);
    var t := w.db.transfers[i].txId;
    NotSettled(s, w, e, i);
    StepRow(s, w, e, i);
    StepStatus(s, w, e, t);
    if Resets(s, w, e, i) { OnHoldReset(s, w, e, i); }
    hide Enabled;
  }

  lemma OnHoldReset(s: Settings, w: World, e: Event, i: Id)
    requires Resets(s, w, e, i)
    ensures i in w.db.transfers && w.db.transfers[i].status == TrOnHold && forall t :: !ChargesBack(s, w, e, t)
  {
  }

  lemma PairedElsewhere(s: Settings, w: World, e: Event, i: Id)
    requires Validated(s) && Linked(w.db) && Wired(w) && Coupled(w) && LockedOnly(e)
    requires i in w.db.transfers && !RecordsRow(s, w, e, i)
    ensures RowPaired(Apply(s, w, e).db, i)
  {
    assert RowPaired(w.db, i);
    hide Apply, Linked, Wired, AllHold, AllPaired, Alone, RecordsRow, ChargesBack, Resets, RowPaired, Unworked;
    UnworkedStep(s, w, e, i);
    PairKept(w, Apply(s, w, e).db, i, ChargesBack(s, w, e, w.db.transfers[i].txId), Resets(s, w, e, i));
  }

  lemma PairKept(w: World, db2: Db, i: Id, charged: bool, reset: bool)
    requires RowPaired(w.db, i) && Unworked(w, db2, i, charged, reset)
    ensures RowPaired(db2, i)
  {
  }

  lemma PairedNew(s: Settings, w: World, e: Event, i: Id)
    requires Validated(s) && i !in w.db.transfers && i in Apply(s, w, e).db.transfers
    ensures RowPaired(Apply(s, w, e).db, i)
  {
    StepNewRow(s, w, e, i);
    hide Apply, Step;
    StepStatus(s, w, e, e.payment.txId);
  }

  lemma StepPaired(s: Settings, w: World, e: Event)
    requires Validated(s) && Linked(w.db) && Wired(w) && Coupled(w) && LockedOnly(e)
    ensures AllPaired(Apply(s, w, e).db)
  {
    hide Apply, Linked, Wired, AllHold, Alone, RecordsRow, RowPaired;
    forall i | i in Apply(s, w, e).db.transfers
      ensures RowPaired(Apply(s, w, e).db, i)
    {
      if i !in w.db.transfers {
        PairedNew(s, w, e, i);
      } else if RecordsRow(s, w, e, i) {
        PairedOnRecord(s, w, e, i);
      } else {
        PairedElsewhere(s, w, e, i);
      }
    }
  }

  // ------------------------------------------------------------------ the workers

  /** In a coupled state the claim's guard "not in chargeback or failed" selects exactly the
      transfers of paid transactions. */
  lemma GuardSelectsPaid(db: Db, s: Settings, now: Time, i: Id)
    requires AllPaired(db) && i in db.transfers && Ready(db.transfers[i], s, now)
    ensures Claimable(db, s, now, i) <==> db.transactions[db.transfers[i].txId].status == TxPaid
    ensures db.transfers[i].status == TrPending
  {
    assert RowPaired(db, i);
  }

  /** Held rows are left alone by everyone but their own worker. */
  lemma HeldStays(s: Settings, w: World, e: Event, k: nat)
    requires Validated(s) && Linked(w.db) && Wired(w) && Coupled(w) && LockedOnly(e)
    requires k in w.workers && !(e.Commit? && e.worker == k)
    ensures HoldsRow(Apply(s, w, e).db, w.workers[k])
  {
    var i := w.workers[k].job.transferId;
    assert HoldsRow(w.db, w.workers[k]);
    JobRow(w, k);
    OnlyOwnCommit(s, w, e, k);
    NotChargedBack(s, w, e, k);
    hide Apply, Linked, Wired, AllHold, AllPaired, Alone, RecordsRow, ChargesBack, Resets, HoldsRow, Unworked;
    UnworkedStep(s, w, e, i);
    HoldKept(w, Apply(s, w, e).db, w.workers[k], Resets(s, w, e, i));
  }

  lemma HoldKept(w: World, db2: Db, k: Worker, reset: bool)
    requires HoldsRow(w.db, k) && k.job.txId == w.db.transfers[k.job.transferId].txId
    requires Unworked(w, db2, k.job.transferId, false, reset)
    ensures HoldsRow(db2, k)
  {
  }

  lemma OnlyOwnCommit(s: Settings, w: World, e: Event, k: nat)
    requires Coupled(w) && k in w.workers && !(e.Commit? && e.worker == k)
    ensures !RecordsRow(s, w, e, w.workers[k].job.transferId)
  {
    hide AllHold, AllPaired, Enabled;
    if RecordsRow(s, w, e, w.workers[k].job.transferId) { OnlyCommits(s, w, e); }
  }

  /** A chargeback that would cancel a held row waits. */
  lemma NotChargedBack(s: Settings, w: World, e: Event, k: nat)
    requires Wired(w) && k in w.workers && HoldsRow(w.db, w.workers[k])
    ensures !ChargesBack(s, w, e, w.workers[k].job.txId)
  {
    JobRow(w, k);
    assert w.workers[k].job.transferId in LockedRows(w);
    hide Wired;
  }

  lemma NewHolds(s: Settings, w: World, e: Event)
    requires Validated(s) && Coupled(w) && Linked(w.db) && e.ClaimTask? && e.locked && Enabled(s, w, e)
    ensures var w2 := Apply(s, w, e);
      e.worker in w2.workers && HoldsRow(w2.db, w2.workers[e.worker])
        && w2.workers[e.worker].job.transferId == e.transferId
    ensures forall m :: m in w.workers ==> w.workers[m].job.transferId != e.transferId
  {
    hide Linked, AllHold, Alone, Ready;
    ClaimedIsReady(s, w, e);
    NoneHolds(w, e.transferId);
    RowTxn(w.db, e.transferId);
    assert RowPaired(w.db, e.transferId);
    GuardSelectsPaid(w.db, s, e.now, e.transferId);
  }

  lemma NoneHolds(w: World, i: Id)
    requires AllHold(w) && i !in LockedRows(w)
    ensures forall m :: m in w.workers ==> w.workers[m].job.transferId != i
  {
    AllLocked(w);
    hide AllHold;
    forall m | m in w.workers
      ensures w.workers[m].job.transferId != i
    {
      assert w.workers[m].job.transferId in LockedRows(w);
    }
  }

  lemma StepHolds(s: Settings, w: World, e: Event)
    requires Validated(s) && Linked(w.db) && Wired(w) && Coupled(w) && LockedOnly(e)
    ensures AllHold(Apply(s, w, e)) && Alone(Apply(s, w, e).workers)
  {
    hide Step, Enabled, Linked, Wired, AllPaired, HoldsRow;
    if Enabled(s, w, e) {
      StepWorkers(s, w, e);
      if e.Commit? { CommitLeaves(s, w, e); }
      if e.ClaimTask? {
        ClaimedIsReady(s, w, e);
        NewHolds(s, w, e);
      }
      var w2 := Step(s, w, e);
      forall k | k in w2.workers
        ensures HoldsRow(w2.db, w2.workers[k])
      {
        if k in w.workers {
          HeldStays(s, w, e, k);
          SameHold(w2.db, w.workers[k], w2.workers[k]);
        }
      }
    }
  }

  lemma SameHold(db: Db, k: Worker, k2: Worker)
    requires HoldsRow(db, k) && k2.job == k.job && k2.locked == k.locked
    ensures HoldsRow(db, k2)
  {
  }

  lemma {:induction false} RunCoupled(s: Settings, es: seq<Event>)
    requires Validated(s) && Transactional(es)
    ensures Coupled(Exec(s, START, es))
  {
    if es != [] {
      var init := es[..|es| - 1];
      assert forall n :: 0 <= n < |init| ==> init[n] == es[n];
      RunCoupled(s, init);
      RunBooks(s, init);
      assert LockedOnly(es[|es| - 1]);
      hide Apply, Linked, Wired, Truthful, AllPaired, AllHold, Alone;
      StepPaired(s, Exec(s, START, init), es[|es| - 1]);
      StepHolds(s, Exec(s, START, init), es[|es| - 1]);
    }
  }

  /** The transaction has exactly one transfer row. */
  ghost predicate OneTransfer(db: Db, t: Id) {
    exists i :: i in db.transfers && db.transfers[i].txId == t
                && forall j :: j in db.transfers && db.transfers[j].txId == t ==> j == i
  }

  /** Every transaction ever paid has exactly one transfer. */
  lemma PaidHasOneTransfer(db: Db, t: Id)
    requires Linked(db) && t in db.kyc
    ensures OneTransfer(db, t)
  {
    var i :| i in db.transfers && db.transfers[i].key == KeyOf(t);
    RowTxn(db, i);
    KeyInjective(db.transfers[i].txId, t);
    forall j | j in db.transfers && db.transfers[j].txId == t
      ensures j == i
    {
      OneRow(db, i, j);
    }
  }

  /** A transaction that is neither pending nor failed was paid. */
  lemma SettledWasPaid(db: Db, t: Id)
    requires Linked(db) && t in db.transactions && db.transactions[t].status !in {TxPending, TxFailed}
    ensures t in db.kyc
  {
    hide RowOk, OnePerTxn, HasTransfer;
  }

  /** The coupling of every production run: no two workers hold one transfer; the two statuses of a
      payment always go together; a pending transaction has no transfer, and one that is neither
      pending nor failed has exactly one; and the claim's guard selects exactly paid
      transactions. */
  lemma {:induction false} RunsAreCoupled(s: Settings, es: seq<Event>)
    requires Validated(s) && Transactional(es)
    ensures var w := Exec(s, START, es);
      && Alone(w.workers)
      && (forall i :: i in w.db.transfers ==>
            w.db.transfers[i].txId in w.db.transactions
            && Paired(w.db.transactions[w.db.transfers[i].txId].status, w.db.transfers[i].status))
      && (forall t :: t in w.db.transactions && w.db.transactions[t].status !in {TxPending, TxFailed} ==>
            OneTransfer(w.db, t))
      && (forall i, now :: i in w.db.transfers && Ready(w.db.transfers[i], s, now) ==>
            (Claimable(w.db, s, now, i) <==> w.db.transactions[w.db.transfers[i].txId].status == TxPaid))
  {
    RunCoupled(s, es);
    RunBooks(s, es);
    var w := Exec(s, START, es);
    hide Exec, Paired, OneTransfer, Linked, Wired, Truthful;
    forall i | i in w.db.transfers
      ensures RowPaired(w.db, i)
    {
    }
    forall t | t in w.db.transactions && w.db.transactions[t].status !in {TxPending, TxFailed}
      ensures OneTransfer(w.db, t)
    {
      SettledWasPaid(w.db, t);
      PaidHasOneTransfer(w.db, t);
    }
    hide Claimable, Ready;
    forall i, now | i in w.db.transfers && Ready(w.db.transfers[i], s, now)
      ensures Claimable(w.db, s, now, i) <==> w.db.transactions[w.db.transfers[i].txId].status == TxPaid
    {
      GuardSelectsPaid(w.db, s, now, i);
    }
  }
}
