/** The first decisive payment webhook of a transaction wins, whatever is interleaved. */
module PaymentRuns {
  import opened Common
  import opened Config
  import opened History
  import opened Ledger
  import opened Moves
  import opened Runs
  import opened Tables
  import opened Truth
  import opened Webhooks

  /** A payment webhook leaves everything of money as it was unless it decides a pending
      transaction: at most an alert and an audit entry appear. */
  lemma OnlyDecisiveMoves(s: Settings, w: World, p: Payment, now: Time, transferId: Id)
    requires Validated(s)
    requires !(Decisive(w.db, p) && w.db.transactions[p.txId].status == TxPending)
    ensures var w2 := Apply(s, w, PaymentHook(p, now, transferId));
      w2 == w.(db := w.db.(alerts := w2.db.alerts, audit := w2.db.audit))
  {
    hide WorkerStep, WorkerEnabled, MarkPaid, MarkFailed;
  }

  /** A decisive webhook closes a pending transaction, as reported. */
  lemma DecisiveCloses(s: Settings, w: World, e: Event, t: Id)
    requires Validated(s) && Decides(s, w, e, t) && w.db.transactions[t].status == TxPending
    ensures var db2 := Apply(s, w, e).db;
      && t in db2.transactions
      && db2.transactions[t].status == (if e.payment.paid then TxPaid else TxFailed)
      && db2.kyc.Keys == (if e.payment.paid then w.db.kyc.Keys + {t} else w.db.kyc.Keys)
  {
    hide Apply, Enabled, HandlePayment, FullyValid;
    PaymentDb(s, w, e);
    DecisiveResult(w.db, e.payment, s.holdMinutes, e.now, e.transferId);
  }

  lemma NeverPendingAgain(s: Settings, w: World, es: seq<Event>, t: Id)
    requires Validated(s) && t in w.db.transactions && w.db.transactions[t].status != TxPending
    ensures t in Exec(s, w, es).db.transactions && Exec(s, w, es).db.transactions[t].status != TxPending
  {
    if es != [] {
      hide Apply, RowsStep, UsersStep;
      NeverPendingAgain(s, w, es[..|es| - 1], t);
      StepKeepsHistory(s, Exec(s, w, es[..|es| - 1]), es[|es| - 1]);
    }
  }

  /** After the first decisive webhook of a transaction, and any steps whatever, every further
      payment webhook for it changes nothing at all. */
  lemma {:induction false} FirstDecisiveWins(s: Settings, w: World, first: Event, es: seq<Event>, later: Event)
    requires Validated(s) && first.PaymentHook? && Decides(s, w, first, first.payment.txId)
    requires later.PaymentHook? && later.payment.txId == first.payment.txId
    ensures var w2 := Exec(s, Apply(s, w, first), es);
      Apply(s, w2, later) == w2
  {
    var t := first.payment.txId;
    var w1 := Apply(s, w, first);
    if w.db.transactions[t].status == TxPending {
      DecisiveCloses(s, w, first, t);
    } else {
      StepKeepsHistory(s, w, first);
    }
    NeverPendingAgain(s, w1, es, t);
    hide Exec, MarkPaid, MarkFailed, Decides;
  }

  /** The outcome of the first decisive webhook of t in the run, if there was one. */
  ghost function Outcome(s: Settings, es: seq<Event>, t: Id): Option<bool>
    requires Validated(s)
  {
    if es == [] then None else
    var before, e := Outcome(s, es[..|es| - 1], t), es[|es| - 1];
    if before.Some? then before
    else if Decides(s, Exec(s, START, es[..|es| - 1]), e, t) then Some(e.payment.paid)
    else None
  }

  ghost predicate DecidedSo(db: Db, outcome: Option<bool>, t: Id) {
    if t !in db.transactions then outcome.None? else
    && (outcome.None? <==> db.transactions[t].status == TxPending)
    && (outcome == Some(true) <==> t in db.kyc)
    && (outcome == Some(false) ==> db.transactions[t].status == TxFailed)
  }

  /** The KYC record of t appears with the payment that decides it, and never otherwise. */
  lemma KycWhenDecided(s: Settings, w: World, e: Event, t: Id)
    requires Validated(s) && t in w.db.transactions && w.db.transactions[t].status != TxPending
    ensures t in Apply(s, w, e).db.kyc <==> t in w.db.kyc
  {
    if e.PaymentHook? && Enabled(s, w, e) && Accepts(w.db, e.payment) {
      DecisiveCloses(s, w, e, e.payment.txId);
    } else if !(e.PaymentHook? && Accepts(w.db, e.payment)) {
      StepQuiet(s, w, e);
    }
    hide Step, Enabled;
  }

  lemma KycByStatus(db: Db, t: Id)
    requires Linked(db) && t in db.transactions
    ensures db.transactions[t].status == TxPending ==> t !in db.kyc
    ensures db.transactions[t].status == TxPaid ==> t in db.kyc
  {
    hide HasTransfer, RowOk, OnePerTxn;
  }

  lemma NewIsUndecided(s: Settings, w: World, e: Event, t: Id)
    requires Validated(s) && Linked(w.db) && t !in w.db.transactions
    ensures !Decides(s, w, e, t) && DecidedSo(Apply(s, w, e).db, None, t)
  {
    hide Enabled, Step, Linked;
    StepKeepsHistory(s, w, e);
    StepLinked(s, w, e);
    var db2 := Apply(s, w, e).db;
    hide Apply;
    if t in db2.transactions { KycByStatus(db2, t); }
  }

  lemma UndecidedStep(s: Settings, w: World, e: Event, t: Id)
    requires Validated(s) && Linked(w.db) && t in w.db.transactions && w.db.transactions[t].status == TxPending
    ensures DecidedSo(Apply(s, w, e).db, if Decides(s, w, e, t) then Some(e.payment.paid) else None, t)
  {
    hide Enabled, Step, Linked, Decisive, Apply;
    KycByStatus(w.db, t);
    if Decides(s, w, e, t) {
      DecisiveCloses(s, w, e, t);
    } else {
      StepStatus(s, w, e, t);
      StepLinked(s, w, e);
      KycByStatus(Apply(s, w, e).db, t);
    }
  }

  lemma DecidedStep(s: Settings, w: World, e: Event, outcome: Option<bool>, t: Id)
    requires Validated(s) && DecidedSo(w.db, outcome, t) && outcome.Some?
    ensures DecidedSo(Apply(s, w, e).db, outcome, t)
  {
    hide Apply;
    StepKeepsHistory(s, w, e);
    KycWhenDecided(s, w, e, t);
    assert AllowedMove(w.db.transactions[t].status, Apply(s, w, e).db.transactions[t].status);
  }

  lemma StepDecided(s: Settings, w: World, e: Event, before: Option<bool>, t: Id)
    requires Validated(s) && Linked(w.db) && DecidedSo(w.db, before, t)
    ensures DecidedSo(Apply(s, w, e).db,
                      if before.None? && Decides(s, w, e, t) then Some(e.payment.paid) else before, t)
  {
    hide Apply, Decides, Linked;
    if t !in w.db.transactions {
      NewIsUndecided(s, w, e, t);
    } else if before.None? {
      UndecidedStep(s, w, e, t);
    } else {
      DecidedStep(s, w, e, before, t);
    }
  }

  lemma {:induction false} RunDecided(s: Settings, es: seq<Event>, t: Id)
    requires Validated(s)
    ensures DecidedSo(Exec(s, START, es).db, Outcome(s, es, t), t)
  {
    if es != [] {
      RunDecided(s, es[..|es| - 1], t);
      RunBooks(s, es[..|es| - 1]);
      hide DecidedSo, Apply, Decides, Linked, Wired, Truthful;
      StepDecided(s, Exec(s, START, es[..|es| - 1]), es[|es| - 1], Outcome(s, es[..|es| - 1], t), t);
    }
  }

  /** Over any run a transaction is pending exactly while no decisive webhook has come, and the
      first one alone decides whether it is ever paid. */
  lemma {:induction false} FirstDecisiveDecides(s: Settings, es: seq<Event>, t: Id)
    requires Validated(s) && t in Exec(s, START, es).db.transactions
    ensures var db := Exec(s, START, es).db;
      && (Outcome(s, es, t).None? <==> db.transactions[t].status == TxPending)
      && (Outcome(s, es, t) == Some(true) <==> t in db.kyc)
      && (Outcome(s, es, t) == Some(false) ==> db.transactions[t].status == TxFailed)
  {
    RunDecided(s, es, t);
  }
}
