/** Every outcome of a payout goes back to an answer of the exchange that calls for it. */
module Answers {
  import opened BingX
  import opened Common
  import opened Config
  import opened Ledger
  import opened Moves
  import opened PaymentRuns
  import opened Runs
  import opened Tables
  import opened Transfers
  import opened Truth

  // ------------------------------------------------------- what an answer calls for

  /** Success, or a text that names a duplicate. */
  predicate TellsDone(r: Reply) {
    r.Accepted? || (r.Rejected? && NamesDuplicate(r.msg))
  }

  predicate TellsHold(r: Reply) {
    r.Rejected? && !NamesDuplicate(r.msg) && NamesMissingBalance(r.msg)
  }

  predicate TellsMissing(r: Reply) {
    r.Rejected? && !NamesDuplicate(r.msg) && !NamesMissingBalance(r.msg) && NamesMissingRecipient(r.msg)
  }

  /** No answer, or a text that names none of these. */
  predicate TellsAgain(r: Reply) {
    || r.NoAnswer?
    || (r.Rejected? && !NamesDuplicate(r.msg) && !NamesMissingBalance(r.msg) && !NamesMissingRecipient(r.msg))
  }

  /** The answer to this job can leave a transfer with this status. */
  predicate CausesRow(job: Job, r: Reply, status: TransferStatus) {
    match status
    case TrCompleted => TellsDone(r)
    case TrOnHold => TellsHold(r)
    case TrFailed => TellsMissing(r)
    case TrError => TellsAgain(r) && 3 <= job.attempt
    case _ => true
  }

  predicate CausesTxn(job: Job, r: Reply, status: TxStatus) {
    match status
    case TxCompleted => TellsDone(r)
    case TxFailed => TellsMissing(r)
    case TxError => TellsAgain(r) && 3 <= job.attempt
    case _ => true
  }

  lemma VerdictCauses(job: Job, r: Reply, t: Txn)
    ensures var v := VerdictOf(r, job.attempt);
      && CausesRow(job, r, StatusFor(v))
      && (t.status == TxPaid ==> CausesTxn(job, r, Settled(t, v).status))
      && (t.status != TxPaid ==> Settled(t, v) == t)
  {
    if r.Rejected? { TextClasses(r.msg); }
    hide IsDuplicate, IsInsufficientBalance, IsRecipientNotFound;
    hide NamesDuplicate, NamesMissingBalance, NamesMissingRecipient;
  }

  // -------------------------------------------------------------- the answers of a run

  type Answered = (Job, Reply)

  /** The answers the workers of the run got, each with the job it was for. */
  ghost function AnswersOf(s: Settings, es: seq<Event>): set<Answered>
    requires Validated(s)
  {
    if es == [] then {} else
    AnswersOf(s, es[..|es| - 1]) + NewAnswer(s, Exec(s, START, es[..|es| - 1]), es[|es| - 1])
  }

  ghost function NewAnswer(s: Settings, w: World, e: Event): set<Answered> {
    if e.Answer? && Enabled(s, w, e) then {(w.workers[e.worker].job, e.reply)} else {}
  }

  /** A worker's answer is one of these, and so is the one behind its verdict. */
  ghost predicate Heard(answers: set<Answered>, k: Worker) {
    match k.phase
    case Answered(r) => (k.job, r) in answers
    case RowRecorded(v) => exists r :: (k.job, r) in answers && v == VerdictOf(r, k.job.attempt)
    case _ => true
  }

  ghost predicate AllHeard(answers: set<Answered>, w: World) {
    forall k :: k in w.workers ==> Heard(answers, w.workers[k])
  }

  ghost predicate RowCaused(answers: set<Answered>, i: Id, status: TransferStatus) {
    status in {TrPending, TrProcessing, TrCancelled}
    || exists a :: a in answers && a.0.transferId == i && CausesRow(a.0, a.1, status)
  }

  ghost predicate RowsCaused(answers: set<Answered>, db: Db) {
    forall i :: i in db.transfers ==> RowCaused(answers, i, db.transfers[i].status)
  }

  ghost predicate TxnCaused(answers: set<Answered>, t: Id, status: TxStatus) {
    status in {TxPending, TxPaid, TxChargeback}
    || exists a :: a in answers && a.0.txId == t && CausesTxn(a.0, a.1, status)
  }

  /** Of the transactions that were ever paid. */
  ghost predicate TxnsCaused(answers: set<Answered>, db: Db) {
    forall t :: t in db.transactions && t in db.kyc ==> TxnCaused(answers, t, db.transactions[t].status)
  }

  // --------------------------------------------------------------------------- steps

  lemma HeardMore(a: set<Answered>, b: set<Answered>, k: Worker)
    requires Heard(a, k) && a <= b
    ensures Heard(b, k)
  {
  }

  /** A worker is as it was, new, has sent, has been answered, or has recorded its row. */
  lemma PhaseMove(s: Settings, w: World, e: Event, k: nat)
    requires ByWorker(e) && WorkerEnabled(s, w, e) && k in WorkerStep(s, w, e).workers
    ensures var x := WorkerStep(s, w, e).workers[k];
      || (k in w.workers && x == w.workers[k])
      || x.phase.Claimed? || x.phase.Sent?
      || (e.Answer? && k == e.worker && k in w.workers && x == w.workers[k].(phase := Phase.Answered(e.reply)))
      || (e.RecordRow? && k == e.worker && k in w.workers && w.workers[k].phase.Answered?
          && x == w.workers[k].(phase := RowRecorded(VerdictFor(w.workers[k]))))
  {
    hide ClaimRow, Record, RecordTransfer, RecordTxn, VerdictOf, IsNext, SaysAccepted;
  }

  lemma StepHeard(s: Settings, w: World, e: Event, answers: set<Answered>)
    requires Validated(s) && AllHeard(answers, w)
    ensures AllHeard(answers + NewAnswer(s, w, e), Apply(s, w, e))
  {
    hide WorkerStep, ServiceStep, WorkerEnabled, ServiceEnabled, VerdictOf;
    var more := answers + NewAnswer(s, w, e);
    forall k | k in Apply(s, w, e).workers
      ensures Heard(more, Apply(s, w, e).workers[k])
    {
      if Enabled(s, w, e) && ByWorker(e) { PhaseMove(s, w, e, k); }
      if k in w.workers { HeardMore(answers, more, w.workers[k]); }
    }
  }

  /** A verdict is written to a row by an answered worker. */
  lemma RecordingAnswered(s: Settings, w: World, e: Event, i: Id)
    requires RecordsRow(s, w, e, i)
    ensures e.worker in w.workers && w.workers[e.worker].phase.Answered? && w.workers[e.worker].job.transferId == i
  {
    hide ServiceEnabled, IsNext, SaysAccepted;
  }

  lemma VerdictCaused(answers: set<Answered>, k: Worker)
    requires Heard(answers, k) && k.phase.Answered?
    ensures RowCaused(answers, k.job.transferId, StatusFor(VerdictFor(k)))
  {
    VerdictCauses(k.job, k.phase.reply, Txn("", None, 0, 0, 0, TxPaid, None, None, ""));
    hide VerdictOf, StatusFor, CausesRow;
    assert (k.job, k.phase.reply) in answers;
  }

  lemma RowCausedStep(s: Settings, w: World, e: Event, answers: set<Answered>, i: Id)
    requires Validated(s) && AllHeard(answers, w) && i in w.db.transfers
    requires RowCaused(answers, i, w.db.transfers[i].status)
    ensures i in Apply(s, w, e).db.transfers && RowCaused(answers, i, Apply(s, w, e).db.transfers[i].status)
  {
    StepRow(s, w, e, i);
    hide Apply, Enabled, CausesRow, VerdictFor, StatusFor, Heard, ChargesBack;
    if RecordsRow(s, w, e, i) {
      RecordingAnswered(s, w, e, i);
      VerdictCaused(answers, w.workers[e.worker]);
    }
  }

  lemma MoreAnswers(a: set<Answered>, b: set<Answered>, i: Id, row: TransferStatus, txn: TxStatus)
    requires a <= b
    ensures RowCaused(a, i, row) ==> RowCaused(b, i, row)
    ensures TxnCaused(a, i, txn) ==> TxnCaused(b, i, txn)
  {
    hide CausesRow, CausesTxn;
  }

  /** The verdict a transaction is settled by comes from an answer to a job of that transaction. */
  lemma SettlingAnswer(s: Settings, w: World, e: Event, answers: set<Answered>, t: Id) returns (a: Answered)
    requires AllHeard(answers, w) && Settles(s, w, e, t)
    ensures e.worker in w.workers
    ensures if e.RecordRest? then w.workers[e.worker].phase.RowRecorded? else w.workers[e.worker].phase.Answered?
    ensures a in answers && a.0.txId == t && SettlingVerdict(w, e) == VerdictOf(a.1, a.0.attempt)
  {
    hide ServiceEnabled, IsNext, SaysAccepted, VerdictOf;
    var k := w.workers[e.worker];
    assert Heard(answers, k);
    if e.RecordRest? {
      var r :| (k.job, r) in answers && k.phase.verdict == VerdictOf(r, k.job.attempt);
      a := (k.job, r);
    } else {
      a := (k.job, k.phase.reply);
    }
  }

  lemma TxnCausedStep(s: Settings, w: World, e: Event, answers: set<Answered>, t: Id)
    requires Validated(s) && Linked(w.db) && AllHeard(answers, w) && t in w.db.transactions
    requires t in w.db.kyc ==> TxnCaused(answers, t, w.db.transactions[t].status)
    ensures t in Apply(s, w, e).db.transactions
    ensures t in Apply(s, w, e).db.kyc ==> TxnCaused(answers, t, Apply(s, w, e).db.transactions[t].status)
  {
    var x := w.db.transactions[t];
    StepStatus(s, w, e, t);
    KycByStatus(w.db, t);
    hide Apply, Enabled, Linked, AllHeard, CausesTxn, VerdictOf, Settled, Settles, Decides, ChargesBack;
    if x.status == TxPending && Decides(s, w, e, t) {
      DecisiveCloses(s, w, e, t);
    } else {
      if x.status != TxPending { KycWhenDecided(s, w, e, t); }
      if Settles(s, w, e, t) {
        var a := SettlingAnswer(s, w, e, answers, t);
        VerdictCauses(a.0, a.1, x);
      }
    }
  }

  ghost predicate Caused(answers: set<Answered>, w: World) {
    AllHeard(answers, w) && RowsCaused(answers, w.db) && TxnsCaused(answers, w.db)
  }

  lemma NewTxnIsPending(s: Settings, w: World, e: Event, t: Id)
    requires Validated(s) && Linked(w.db) && t !in w.db.transactions && t in Apply(s, w, e).db.transactions
    ensures t !in Apply(s, w, e).db.kyc
  {
    NewIsUndecided(s, w, e, t);
    hide Apply, Linked;
  }

  lemma StepCaused(s: Settings, w: World, e: Event, answers: set<Answered>)
    requires Validated(s) && Linked(w.db) && Caused(answers, w)
    ensures Caused(answers + NewAnswer(s, w, e), Apply(s, w, e))
  {
    hide Apply, Linked, AllHeard, RowCaused, TxnCaused, NewAnswer;
    var (w2, more) := (Apply(s, w, e), answers + NewAnswer(s, w, e));
    StepHeard(s, w, e, answers);
    forall i | i in w2.db.transfers
      ensures RowCaused(more, i, w2.db.transfers[i].status)
    {
      if i in w.db.transfers {
        RowCausedStep(s, w, e, answers, i);
        MoreAnswers(answers, more, i, w2.db.transfers[i].status, TxPaid);
      } else {
        StepNewRow(s, w, e, i);
        NothingToCause(more, i);
      }
    }
    forall t | t in w2.db.transactions && t in w2.db.kyc
      ensures TxnCaused(more, t, w2.db.transactions[t].status)
    {
      if t in w.db.transactions {
        TxnCausedStep(s, w, e, answers, t);
        MoreAnswers(answers, more, t, TrPending, w2.db.transactions[t].status);
      } else {
        NewTxnIsPending(s, w, e, t);
      }
    }
  }

  lemma NothingToCause(answers: set<Answered>, i: Id)
    ensures RowCaused(answers, i, TrPending)
  {
  }

  lemma {:induction false} RunCaused(s: Settings, es: seq<Event>)
    requires Validated(s)
    ensures Caused(AnswersOf(s, es), Exec(s, START, es))
  {
    if es != [] {
      RunCaused(s, es[..|es| - 1]);
      RunBooks(s, es[..|es| - 1]);
      hide Apply, Caused, Linked, Wired, Truthful, NewAnswer;
      StepCaused(s, Exec(s, START, es[..|es| - 1]), es[|es| - 1], AnswersOf(s, es[..|es| - 1]));
    }
  }

  /** Over every run, at either granularity: a transfer is on hold only after an answer to one of its
      own attempts that names missing balance, failed only after one that names a missing recipient,
      completed only after a success or a duplicate, and in error only after no answer or an
      unknown text on the third attempt or a later one; and so is a transaction once it has been
      paid. */
  lemma {:induction false} OutcomesWereAnswered(s: Settings, es: seq<Event>)
    requires Validated(s)
    ensures var (db, answers) := (Exec(s, START, es).db, AnswersOf(s, es));
      && (forall i :: i in db.transfers && db.transfers[i].status !in {TrPending, TrProcessing, TrCancelled} ==>
            exists a :: a in answers && a.0.transferId == i && CausesRow(a.0, a.1, db.transfers[i].status))
      && (forall t ::
            (t in db.kyc && t in db.transactions
             && db.transactions[t].status !in {TxPending, TxPaid, TxChargeback}) ==>
              exists a :: a in answers && a.0.txId == t && CausesTxn(a.0, a.1, db.transactions[t].status))
  {
    RunCaused(s, es);
    hide Exec, AnswersOf, AllHeard, CausesRow, CausesTxn;
    var (db, answers) := (Exec(s, START, es).db, AnswersOf(s, es));
    forall i | i in db.transfers && db.transfers[i].status !in {TrPending, TrProcessing, TrCancelled}
      ensures exists a :: a in answers && a.0.transferId == i && CausesRow(a.0, a.1, db.transfers[i].status)
    {
      assert RowCaused(answers, i, db.transfers[i].status);
    }
    forall t | t in db.kyc && t in db.transactions && db.transactions[t].status !in {TxPending, TxPaid, TxChargeback}
      ensures exists a :: a in answers && a.0.txId == t && CausesTxn(a.0, a.1, db.transactions[t].status)
    {
      assert TxnCaused(answers, t, db.transactions[t].status);
    }
  }
}
