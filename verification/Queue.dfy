/** Production runs: a pending payout is always taken up again when its time has come. */
module Queue {
  import opened BingX
  import opened Config
  import opened Coupling
  import opened Ledger
  import opened Moves
  import opened Runs
  import opened Tables
  import opened Transfers
  import opened Truth

  /** From when on the transfer may be claimed: its schedule, and once it was tried, the backoff after
      its last update. */
  function DueAt(tr: Transfer, s: Settings): Time {
    var retry := tr.updatedAt + s.backoffSeconds * 1_000_000;
    if tr.attempts > 0 && retry > tr.scheduledAt then retry else tr.scheduledAt
  }

  lemma PendingIsDue(db: Db, s: Settings, i: Id, now: Time)
    requires i in db.transfers && db.transfers[i].txId in db.transactions
    requires db.transfers[i].status == TrPending && db.transactions[db.transfers[i].txId].status == TxPaid
    requires DueAt(db.transfers[i], s) <= now
    ensures Due(db, s, now, i) && Claimable(db, s, now, i)
  {
    ClaimableIsDue(db, s, now, i);
  }

  /** Some claimable row that nobody holds is the next one. */
  lemma NextExists(db: Db, locked: set<Id>, s: Settings, now: Time, i: Id) returns (j: Id)
    requires Claimable(db, s, now, i) && i !in locked
    ensures IsNext(db, locked, s, now, j) && j in db.transfers && i in db.transfers
    ensures db.transfers[j].createdAt <= db.transfers[i].createdAt
  {
    var ready := set k | k in db.transfers && k !in locked && Claimable(db, s, now, k);
    ClaimableIsRow(db, s, now, i);
    assert i in ready;
    hide Claimable;
    OldestExists(db.transfers, ready);
    j :| j in ready && forall k :: k in ready ==> db.transfers[j].createdAt <= db.transfers[k].createdAt;
  }

  /** Over every production run: at any time at or after its due time, a pending transfer of a paid
      transaction that no worker holds is due, and a free worker can claim it or one created no
      later. */
  lemma {:induction false} PendingIsClaimed(s: Settings, es: seq<Event>, i: Id, now: Time, k: nat) returns (j: Id)
    requires Validated(s) && Transactional(es)
    requires var w := Exec(s, START, es);
      && i in w.db.transfers && w.db.transfers[i].status == TrPending && i !in LockedRows(w) && k !in w.workers
      && w.db.transfers[i].txId in w.db.transactions && w.db.transactions[w.db.transfers[i].txId].status == TxPaid
      && DueAt(w.db.transfers[i], s) <= now
    ensures var w := Exec(s, START, es);
      && Due(w.db, s, now, i) && Enabled(s, w, ClaimTask(k, j, now, true))
      && j in w.db.transfers && w.db.transfers[j].createdAt <= w.db.transfers[i].createdAt
  {
    hide Exec, Due, Claimable, LockedRows, IsNext, DueAt;
    var w := Exec(s, START, es);
    PendingIsDue(w.db, s, i, now);
    j := NextExists(w.db, LockedRows(w), s, now, i);
  }

  /** The answer calls for another attempt: none, or a text that is no duplicate, no missing balance
      and no missing recipient, below the third attempt. */
  predicate TryAgain(r: Reply, attempt: nat) {
    && attempt < 3
    && (r.NoAnswer? || (r.Rejected? && !NamesDuplicate(r.msg) && !NamesMissingBalance(r.msg)
                        && !NamesMissingRecipient(r.msg)))
  }

  lemma TryAgainRetries(k: Worker)
    requires k.phase.Answered? && TryAgain(k.phase.reply, k.job.attempt)
    ensures VerdictFor(k) == Retry
  {
    if k.phase.reply.Rejected? { TextClasses(k.phase.reply.msg); }
    hide IsDuplicate, IsInsufficientBalance, IsRecipientNotFound;
    hide NamesDuplicate, NamesMissingBalance, NamesMissingRecipient;
  }

  /** The commit of such an answer, by the columns. */
  lemma RetryCommitted(s: Settings, w: World, e: Event)
    requires Validated(s) && Linked(w.db) && Wired(w) && Coupled(w) && e.Commit? && Enabled(s, w, e)
    requires e.worker in w.workers && w.workers[e.worker].phase.Answered?
    requires TryAgain(w.workers[e.worker].phase.reply, w.workers[e.worker].job.attempt)
    ensures var (k, w2) := (w.workers[e.worker], Apply(s, w, e));
      var i := k.job.transferId;
      && i in w.db.transfers && i in w2.db.transfers && k.job.txId in w2.db.transactions
      && w2.db.transfers[i].txId == k.job.txId && w2.db.transactions[k.job.txId].status == TxPaid
      && w2.db.transfers[i] == w.db.transfers[i].(status := TrPending, attempts := k.job.attempt, updatedAt := e.now)
      && i !in LockedRows(w2) && e.worker !in w2.workers
  {
    hide Apply, Linked, Wired, AllHold, AllPaired, Alone, Step, LockedRows, ChargesBack, Decides, Enabled;
    hide TryAgain, VerdictOf, StatusMove, RowMove;
    var k := w.workers[e.worker];
    HoldsIts(w, e.worker);
    JobRow(w, e.worker);
    TryAgainRetries(k);
    CommitWorkers(s, w, e);
    CommittedFree(s, w, e);
    StepRow(s, w, e, k.job.transferId);
    StepStatus(s, w, e, k.job.txId);
    RetriedRow(s, w, e, Apply(s, w, e).db.transfers[k.job.transferId]);
    RetriedTxn(s, w, e, Apply(s, w, e).db.transactions[k.job.txId]);
  }

  lemma RetriedRow(s: Settings, w: World, e: Event, b: Transfer)
    requires e.Commit? && Enabled(s, w, e) && e.worker in w.workers && w.workers[e.worker].phase.Answered?
    requires w.workers[e.worker].job.transferId in w.db.transfers && VerdictFor(w.workers[e.worker]) == Retry
    requires RowMove(s, w, e, w.workers[e.worker].job.transferId, b)
    ensures var tr := w.db.transfers[w.workers[e.worker].job.transferId];
      b == tr.(status := TrPending, attempts := tr.attempts + 1, updatedAt := e.now)
  {
    hide Enabled, VerdictFor;
  }

  lemma RetriedTxn(s: Settings, w: World, e: Event, b: Txn)
    requires e.Commit? && Enabled(s, w, e) && e.worker in w.workers && w.workers[e.worker].phase.Answered?
    requires w.workers[e.worker].job.txId in w.db.transactions && VerdictFor(w.workers[e.worker]) == Retry
    requires StatusMove(s, w, e, w.workers[e.worker].job.txId, b)
    ensures b == w.db.transactions[w.workers[e.worker].job.txId]
  {
    hide Enabled, VerdictFor;
  }

  /** Nobody else holds the row of a worker that commits. */
  lemma CommittedFree(s: Settings, w: World, e: Event)
    requires Validated(s) && Alone(w.workers) && e.Commit? && Enabled(s, w, e) && e.worker in w.workers
    ensures w.workers[e.worker].job.transferId !in LockedRows(Apply(s, w, e))
  {
    CommitWorkers(s, w, e);
    hide Apply, Enabled;
    var w2 := Apply(s, w, e);
    forall k | k in w2.workers
      ensures w2.workers[k].job.transferId != w.workers[e.worker].job.transferId
    {
      assert k in w.workers;
    }
  }

  lemma CommitWorkers(s: Settings, w: World, e: Event)
    requires Validated(s) && e.Commit? && Enabled(s, w, e)
    ensures Apply(s, w, e).workers == w.workers - {e.worker}
  {
    hide ServiceStep, ServiceEnabled, Record, ClaimRow, VerdictOf;
  }

  /** After a failed attempt that is to be retried the payout is pending again, its transaction still
      paid and nobody holds it; from its schedule and the backoff after the record on it is due, and
      the free worker can claim it or one created no later. */
  lemma {:induction false} RetryIsClaimed(s: Settings, es: seq<Event>, e: Event, now: Time) returns (j: Id)
    requires Validated(s) && Transactional(es) && e.Commit?
    requires var w := Exec(s, START, es);
      && Enabled(s, w, e) && e.worker in w.workers && w.workers[e.worker].phase.Answered?
      && TryAgain(w.workers[e.worker].phase.reply, w.workers[e.worker].job.attempt)
      && w.workers[e.worker].job.transferId in w.db.transfers
      && w.db.transfers[w.workers[e.worker].job.transferId].scheduledAt <= now
      && e.now + s.backoffSeconds * 1_000_000 <= now
    ensures var (w, w2) := (Exec(s, START, es), Exec(s, START, es + [e]));
      var i := w.workers[e.worker].job.transferId;
      && i in w2.db.transfers && w2.db.transfers[i].status == TrPending
      && Due(w2.db, s, now, i) && Enabled(s, w2, ClaimTask(e.worker, j, now, true))
      && j in w2.db.transfers && w2.db.transfers[j].createdAt <= w2.db.transfers[i].createdAt
  {
    hide Exec, Apply, Enabled, Coupled, Linked, Wired, Truthful, Due, LockedRows, TryAgain;
    var w := Exec(s, START, es);
    RunBooks(s, es);
    RunCoupled(s, es);
    RetryCommitted(s, w, e);
    ExecAppend(s, START, es, e);
    assert Transactional(es + [e]);
    j := PendingIsClaimed(s, es + [e], w.workers[e.worker].job.transferId, now, e.worker);
  }
}
