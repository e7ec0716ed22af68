/** Promo codes: every use is held by a transaction and given back when it falls through. */
module Promos {
  import opened Checks
  import opened Common
  import opened Config
  import opened PaymentRuns
  import opened Deposits
  import opened History
  import opened Ledger
  import opened Moves
  import opened Runs
  import opened Tables
  import opened Truth
  import opened Webhooks

  /** Transaction t holds a use of promo p: it is not closed, or the worker failed it after
      payment. */
  predicate Holds(db: Db, t: Id, p: Id) {
    && t in db.transactions && db.transactions[t].promoId == Some(p)
    && (db.transactions[t].status in {TxPending, TxPaid, TxCompleted, TxError}
        || (db.transactions[t].status == TxFailed && t in db.kyc))
  }

  function Holders(db: Db, p: Id): set<Id> {
    set t | t in db.transactions && Holds(db, t, p)
  }

  /** The counter of every promo is the number of its holders. */
  ghost predicate CountersOk(db: Db) {
    forall p :: p in db.promos ==> db.promos[p].used == |Holders(db, p)|
  }

  ghost predicate PromosKnown(db: Db) {
    forall t :: t in db.transactions && db.transactions[t].promoId.Some? ==>
      db.transactions[t].promoId.value in db.promos
  }

  ghost predicate PromosOk(db: Db) { CountersOk(db) && PromosKnown(db) }

  /** The step closes transaction t before any payout of it can follow: a decisive failed report
      on it while pending, or an accepted chargeback. */
  ghost predicate Closes(s: Settings, w: World, e: Event, t: Id) {
    || (Decides(s, w, e, t) && w.db.transactions[t].status == TxPending && !e.payment.paid)
    || ChargesBack(s, w, e, t)
  }

  ghost predicate ClosesAny(s: Settings, w: World, e: Event) { exists t :: Closes(s, w, e, t) }

  // ---------------------------------------------------------------- who holds a use

  lemma HoldsStep(s: Settings, w: World, e: Event, t: Id, p: Id)
    requires Validated(s) && Linked(w.db) && t in w.db.transactions
    ensures if Closes(s, w, e, t) then !Holds(Apply(s, w, e).db, t, p)
            else Holds(Apply(s, w, e).db, t, p) == Holds(w.db, t, p)
  {
    hide Apply, Linked, Step, Enabled, Decisive, RowsStep, UsersStep;
    var db2 := Apply(s, w, e).db;
    StepStatus(s, w, e, t);
    StepKeepsHistory(s, w, e);
    StepLinked(s, w, e);
    assert SameQuote(w.db.transactions[t], db2.transactions[t]);
    KycByStatus(w.db, t);
    KycByStatus(db2, t);
    if w.db.transactions[t].status != TxPending {
      KycWhenDecided(s, w, e, t);
    } else if Decides(s, w, e, t) {
      DecisiveCloses(s, w, e, t);
    }
  }

  lemma HoldersKept(s: Settings, w: World, e: Event, p: Id)
    requires Validated(s) && Linked(w.db) && !e.Deposit? && !ClosesAny(s, w, e)
    ensures Holders(Apply(s, w, e).db, p) == Holders(w.db, p)
  {
    SameTxns(s, w, e);
    hide Apply, Linked, Holds, Closes;
    var db2 := Apply(s, w, e).db;
    forall t | t in w.db.transactions
      ensures Holds(db2, t, p) == Holds(w.db, t, p)
    {
      assert !Closes(s, w, e, t);
      HoldsStep(s, w, e, t, p);
    }
  }

  lemma HoldersDrop(s: Settings, w: World, e: Event, closed: Id, p: Id)
    requires Validated(s) && Linked(w.db) && Closes(s, w, e, closed)
    ensures Holders(Apply(s, w, e).db, p) == Holders(w.db, p) - {closed}
    ensures closed in w.db.transactions && (Holds(w.db, closed, p) <==> w.db.transactions[closed].promoId == Some(p))
  {
    hide Apply, Linked, Holds, Closes;
    OneCloses(s, w, e, closed);
    SameTxns(s, w, e);
    var db2 := Apply(s, w, e).db;
    forall t | t in w.db.transactions
      ensures Holds(db2, t, p) == (t != closed && Holds(w.db, t, p))
    {
      HoldsStep(s, w, e, t, p);
    }
  }

  lemma OneCloses(s: Settings, w: World, e: Event, closed: Id)
    requires Closes(s, w, e, closed)
    ensures !e.Deposit? && closed in w.db.transactions && forall t :: Closes(s, w, e, t) ==> t == closed
    ensures forall p :: Holds(w.db, closed, p) <==> w.db.transactions[closed].promoId == Some(p)
  {
    hide Enabled;
  }

  // --------------------------------------------------------------- what the counters do

  lemma ReleasedPromos(s: Settings, w: World, e: Event, closed: Id)
    requires Validated(s) && Closes(s, w, e, closed)
    ensures Apply(s, w, e).db.promos == ReleasePromo(w.db, closed).promos
  {
    hide WorkerStep, WorkerEnabled, ReleasePromo, HasTransfer, BanAll, CancelTransfers, ChargebackBlocked;
    if e.PaymentHook? { ReleaseClosed(w.db, e.payment); }
  }

  lemma ReleaseClosed(db: Db, p: Payment)
    requires p.txId in db.transactions
    ensures MarkFailed(db, p).promos == ReleasePromo(db, p.txId).promos
  {
  }

  lemma SamePromos(s: Settings, w: World, e: Event)
    requires Validated(s) && !e.Deposit? && !ClosesAny(s, w, e) && !e.PutPromo? && !e.DeletePromo?
    ensures Apply(s, w, e).db.promos == w.db.promos
  {
    hide WorkerStep, ServiceStep, WorkerEnabled, ServiceEnabled, ClosesAny;
    if Enabled(s, w, e) {
      if ByWorker(e) { WorkerTouches(s, w, e); } else { ServiceSamePromos(s, w, e); }
    }
  }

  lemma ServiceSamePromos(s: Settings, w: World, e: Event)
    requires Validated(s) && !ByWorker(e) && Enabled(s, w, e)
    requires !e.Deposit? && !ClosesAny(s, w, e) && !e.PutPromo? && !e.DeletePromo?
    ensures ServiceStep(s, w, e).db.promos == w.db.promos
  {
    hide CheckDeposit, HandlePayment, HandleChargeback, ChargebackBlocked, Accepts, ClosesAny;
    match e
    case PaymentHook(p, now, transferId) =>
      NotClosed(s, w, e, p.txId);
      PaymentPromos(w.db, p, s.holdMinutes, now, transferId);
    case ChargebackHook(txId, reason, now, ids) =>
      NotClosed(s, w, e, txId);
      ChargebackPromos(w.db, txId, reason, now, ids);
    case _ =>
  }

  lemma NotClosed(s: Settings, w: World, e: Event, t: Id)
    requires !ClosesAny(s, w, e)
    ensures !Closes(s, w, e, t)
  {
  }

  lemma PaymentPromos(db: Db, p: Payment, hold: int, now: Time, transferId: Id)
    requires !(Decisive(db, p) && db.transactions[p.txId].status == TxPending && !p.paid)
    ensures var out := HandlePayment(db, p, hold, now, transferId);
      out.Ok? ==> out.value.promos == db.promos
  {
    hide HasTransfer;
  }

  lemma ChargebackPromos(db: Db, txId: Id, reason: string, now: Time, ids: seq<Id>)
    requires |ids| == 2 && !(Found(db, txId) && ChargebackEligible(db.transactions[txId].status))
    ensures HandleChargeback(db, txId, reason, now, ids).promos == db.promos
  {
  }

  lemma DepositPromos(db: Db, s: Settings, r: Request, now: Time, txId: Id)
    requires Validated(s) && Acceptable(r) && txId !in db.transactions
    requires InsertDeposit(db, s, r, now, txId).Ok?
    ensures var db2 := InsertDeposit(db, s, r, now, txId).value;
      && txId in db2.transactions && db2.transactions == db.transactions[txId := db2.transactions[txId]]
      && db2.transactions[txId].status == TxPending && db2.kyc == db.kyc
      && var promo := db2.transactions[txId].promoId;
      && (promo.None? ==> db2.promos == db.promos)
      && (promo.Some? ==>
            promo.value in db.promos && Reservable(db.promos[promo.value], r.promoCode.value, now)
            && db2.promos == AddUse(db, promo.value).promos)
  {
    hide Quoted, Blacklisted;
  }

  // ----------------------------------------------------------------- counters stay right

  lemma CountersOnClose(s: Settings, w: World, e: Event, closed: Id)
    requires Validated(s) && Linked(w.db) && PromosOk(w.db) && Closes(s, w, e, closed)
    ensures CountersOk(Apply(s, w, e).db)
  {
    ReleasedPromos(s, w, e, closed);
    hide Apply, Closes, Linked, Holds;
    var db2 := Apply(s, w, e).db;
    forall p | p in db2.promos
      ensures db2.promos[p].used == |Holders(db2, p)|
    {
      HoldersDrop(s, w, e, closed, p);
      assert closed in Holders(w.db, p) <==> w.db.transactions[closed].promoId == Some(p);
      hide Holders;
    }
  }

  lemma CountersOnDeposit(a: Db, b: Db, txId: Id)
    requires Linked(a) && CountersOk(a) && txId !in a.transactions && txId in b.transactions && b.kyc == a.kyc
    requires b.transactions == a.transactions[txId := b.transactions[txId]] && b.transactions[txId].status == TxPending
    requires var promo := b.transactions[txId].promoId;
      && (promo.None? ==> b.promos == a.promos)
      && (promo.Some? ==> promo.value in a.promos && b.promos == AddUse(a, promo.value).promos)
    ensures CountersOk(b)
  {
    hide Linked;
    forall p | p in b.promos
      ensures b.promos[p].used == |Holders(b, p)|
    {
      HoldersOnDeposit(a, b, txId, p);
      hide Holders;
    }
  }

  lemma HoldersOnDeposit(a: Db, b: Db, txId: Id, p: Id)
    requires txId !in a.transactions && txId in b.transactions && b.kyc == a.kyc
    requires b.transactions == a.transactions[txId := b.transactions[txId]] && b.transactions[txId].status == TxPending
    ensures Holders(b, p) == Holders(a, p) + (if b.transactions[txId].promoId == Some(p) then {txId} else {})
    ensures txId !in Holders(a, p)
  {
    forall t
      ensures t in Holders(b, p) <==> t in Holders(a, p) || (t == txId && b.transactions[txId].promoId == Some(p))
    {
    }
  }

  lemma CountersOnEdit(s: Settings, w: World, e: Event)
    requires Validated(s) && PromosOk(w.db) && Enabled(s, w, e) && (e.PutPromo? || e.DeletePromo?)
    ensures PromosOk(Apply(s, w, e).db)
  {
    var db2 := Apply(s, w, e).db;
    assert db2.transactions == w.db.transactions && db2.kyc == w.db.kyc;
    forall p | p in db2.promos
      ensures db2.promos[p].used == |Holders(db2, p)|
    {
      assert Holders(db2, p) == Holders(w.db, p);
      if p !in w.db.promos { assert Holders(w.db, p) == {}; }
    }
  }

  lemma KnownKept(s: Settings, w: World, e: Event)
    requires Validated(s) && PromosKnown(w.db) && !e.Deposit?
    requires w.db.promos.Keys <= Apply(s, w, e).db.promos.Keys
    ensures PromosKnown(Apply(s, w, e).db)
  {
    SameTxns(s, w, e);
    StepKeepsHistory(s, w, e);
    hide Apply;
    var db2 := Apply(s, w, e).db;
    forall t | t in db2.transactions && db2.transactions[t].promoId.Some?
      ensures db2.transactions[t].promoId.value in db2.promos
    {
      assert SameQuote(w.db.transactions[t], db2.transactions[t]);
    }
  }

  lemma StepPromosOk(s: Settings, w: World, e: Event)
    requires Validated(s) && Linked(w.db) && PromosOk(w.db)
    ensures PromosOk(Apply(s, w, e).db)
  {
    hide Linked, CountersOk, PromosKnown, Closes, Enabled, Step, Inserts, InsertDeposit;
    if e.Deposit? {
      DepositDb(s, w, e);
      if Inserts(s, w, e) { OkDeposit(s, w, e); }
    } else {
      if ClosesAny(s, w, e) {
        var closed :| Closes(s, w, e, closed);
        CountersOnClose(s, w, e, closed);
        ReleasedPromos(s, w, e, closed);
        hide Apply;
        KnownKept(s, w, e);
      } else if Enabled(s, w, e) && (e.PutPromo? || e.DeletePromo?) {
        CountersOnEdit(s, w, e);
      } else if !e.PutPromo? && !e.DeletePromo? {
        SamePromos(s, w, e);
        CountersSame(s, w, e);
        KnownKept(s, w, e);
      }
    }
  }

  lemma OkDeposit(s: Settings, w: World, e: Event)
    requires Validated(s) && Linked(w.db) && PromosOk(w.db) && Inserts(s, w, e)
    ensures PromosOk(InsertDeposit(w.db, s, e.request, e.now, e.txId).value)
  {
    hide Linked, Holders, WorkerEnabled, InsertDeposit;
    var db2 := InsertDeposit(w.db, s, e.request, e.now, e.txId).value;
    DepositPromos(w.db, s, e.request, e.now, e.txId);
    CountersOnDeposit(w.db, db2, e.txId);
  }

  lemma CountersSame(s: Settings, w: World, e: Event)
    requires Validated(s) && Linked(w.db) && CountersOk(w.db) && !e.Deposit? && !ClosesAny(s, w, e)
    requires Apply(s, w, e).db.promos == w.db.promos
    ensures CountersOk(Apply(s, w, e).db)
  {
    hide Apply, Linked, Holders, ClosesAny;
    forall p | p in w.db.promos
      ensures w.db.promos[p].used == |Holders(Apply(s, w, e).db, p)|
    {
      HoldersKept(s, w, e, p);
    }
  }

  lemma {:induction false} RunPromos(s: Settings, es: seq<Event>)
    requires Validated(s)
    ensures PromosOk(Exec(s, START, es).db)
  {
    if es != [] {
      RunPromos(s, es[..|es| - 1]);
      RunBooks(s, es[..|es| - 1]);
      hide PromosOk, Linked, Wired, Truthful, Apply;
      StepPromosOk(s, Exec(s, START, es[..|es| - 1]), es[|es| - 1]);
    }
  }

  // ----------------------------------------------------------------------- main results

  /** Over every run a promo's counter is the number of its transactions that are pending, paid,
      completed or in error, or failed after having a transfer. */
  lemma {:induction false} PromoConservation(s: Settings, es: seq<Event>, p: Id)
    requires Validated(s) && p in Exec(s, START, es).db.promos
    ensures var db := Exec(s, START, es).db;
      db.promos[p].used == |set t | t in db.transactions && Holds(db, t, p)|
  {
    RunPromos(s, es);
  }

  /** The guard used_count > 0 never blocks a release: every step that closes a transaction with
      a promo code takes exactly one use off that code's counter. */
  lemma {:induction false} ReleaseNeverBlocked(s: Settings, es: seq<Event>, e: Event, closed: Id)
    requires Validated(s) && Closes(s, Exec(s, START, es), e, closed)
    ensures var (db, db2) := (Exec(s, START, es).db, Apply(s, Exec(s, START, es), e).db);
      var promo := db.transactions[closed].promoId;
      promo.Some? ==>
        (promo.value in db.promos && promo.value in db2.promos
         && db2.promos[promo.value].used == db.promos[promo.value].used - 1)
  {
    RunPromos(s, es);
    RunBooks(s, es);
    var w := Exec(s, START, es);
    hide Exec, Wired, Truthful, Closes, Holds;
    OneCloses(s, w, e, closed);
    ReleasedPromos(s, w, e, closed);
    var promo := w.db.transactions[closed].promoId;
    if promo.Some? {
      HoldersDrop(s, w, e, closed, promo.value);
      assert closed in Holders(w.db, promo.value);
    }
  }

  function LimitOf(p: Promo): Option<nat> {
    if p.maxUses.None? then None else Some(if p.maxUses.value < 0 then 0 else p.maxUses.value)
  }

  ghost predicate WithinLimits(promos: map<Id, Promo>) {
    forall p :: p in promos && LimitOf(promos[p]).Some? ==> promos[p].used <= LimitOf(promos[p]).value
  }

  /** No admin edit sets a code's limit below its present count. */
  ghost predicate LimitsRespected(s: Settings, es: seq<Event>)
    requires Validated(s)
  {
    forall n :: 0 <= n < |es| && es[n].PutPromo? ==>
      EditRespects(Exec(s, START, es[..n]).db.promos, es[n].promoId, es[n].promo)
  }

  predicate EditRespects(promos: map<Id, Promo>, id: Id, promo: Promo) {
    id in promos && LimitOf(promo).Some? ==> promos[id].used <= LimitOf(promo).value
  }

  lemma LimitsOnUse(db: Db, s: Settings, r: Request, now: Time, txId: Id)
    requires Validated(s) && Acceptable(r) && txId !in db.transactions
    requires InsertDeposit(db, s, r, now, txId).Ok? && WithinLimits(db.promos)
    ensures WithinLimits(InsertDeposit(db, s, r, now, txId).value.promos)
  {
    DepositPromos(db, s, r, now, txId);
    hide InsertDeposit;
  }

  lemma LimitsOnRelease(db: Db, t: Id)
    requires WithinLimits(db.promos)
    ensures WithinLimits(ReleasePromo(db, t).promos)
  {
  }

  lemma StepLimits(s: Settings, w: World, e: Event)
    requires Validated(s) && WithinLimits(w.db.promos)
    requires e.PutPromo? ==> EditRespects(w.db.promos, e.promoId, e.promo)
    ensures WithinLimits(Apply(s, w, e).db.promos)
  {
    hide Closes, WithinLimits, ReleasePromo, InsertDeposit, WorkerEnabled, WorkerStep, ServiceStep;
    if e.Deposit? {
      DepositDb(s, w, e);
      if Inserts(s, w, e) {
        LimitsOnUse(w.db, s, e.request, e.now, e.txId);
      }
    } else if ClosesAny(s, w, e) {
      hide Apply;
      var closed :| Closes(s, w, e, closed);
      ReleasedPromos(s, w, e, closed);
      LimitsOnRelease(w.db, closed);
    } else if e.PutPromo? || e.DeletePromo? {
      LimitsOnEdit(s, w, e);
    } else {
      hide Apply;
      SamePromos(s, w, e);
    }
  }

  lemma LimitsOnEdit(s: Settings, w: World, e: Event)
    requires Validated(s) && WithinLimits(w.db.promos) && (e.PutPromo? || e.DeletePromo?)
    requires e.PutPromo? ==> EditRespects(w.db.promos, e.promoId, e.promo)
    ensures WithinLimits(Apply(s, w, e).db.promos)
  {
  }

  /** A limited code is never used more often than its limit, over any run whose admin edits
      respect the uses already made. */
  lemma {:induction false} NeverOverLimit(s: Settings, es: seq<Event>)
    requires Validated(s) && LimitsRespected(s, es)
    ensures WithinLimits(Exec(s, START, es).db.promos)
  {
    if es != [] {
      var init := es[..|es| - 1];
      assert forall n :: 0 <= n < |init| ==> es[..n] == init[..n] && es[n] == init[n];
      hide EditRespects, WithinLimits, Apply;
      NeverOverLimit(s, init);
      StepLimits(s, Exec(s, START, init), es[|es| - 1]);
    }
  }

  lemma CodesOnUse(db: Db, s: Settings, r: Request, now: Time, txId: Id)
    requires Validated(s) && Acceptable(r) && txId !in db.transactions
    requires InsertDeposit(db, s, r, now, txId).Ok? && UniqueCodes(db.promos)
    ensures UniqueCodes(InsertDeposit(db, s, r, now, txId).value.promos)
  {
    DepositPromos(db, s, r, now, txId);
    hide InsertDeposit;
  }

  lemma CodesOnRelease(db: Db, t: Id)
    requires UniqueCodes(db.promos)
    ensures UniqueCodes(ReleasePromo(db, t).promos)
  {
  }

  lemma StepCodes(s: Settings, w: World, e: Event)
    requires Validated(s) && UniqueCodes(w.db.promos)
    ensures UniqueCodes(Apply(s, w, e).db.promos)
  {
    hide Closes, UniqueCodes, InsertDeposit, WorkerEnabled, WorkerStep, ServiceStep;
    if e.Deposit? {
      DepositDb(s, w, e);
      if Inserts(s, w, e) {
        CodesOnUse(w.db, s, e.request, e.now, e.txId);
      }
    } else if ClosesAny(s, w, e) {
      hide Apply;
      var closed :| Closes(s, w, e, closed);
      ReleasedPromos(s, w, e, closed);
      CodesOnRelease(w.db, closed);
    } else if e.PutPromo? || e.DeletePromo? {
      EditedCodes(s, w, e);
    } else {
      hide Apply;
      SamePromos(s, w, e);
    }
  }

  lemma EditedCodes(s: Settings, w: World, e: Event)
    requires Validated(s) && UniqueCodes(w.db.promos) && (e.PutPromo? || e.DeletePromo?)
    ensures UniqueCodes(Apply(s, w, e).db.promos)
  {
  }

  /** Over every run at most one row carries a code, so a reservation names its row. */
  lemma {:induction false} CodesStayUnique(s: Settings, es: seq<Event>)
    requires Validated(s)
    ensures UniqueCodes(Exec(s, START, es).db.promos)
  {
    if es != [] {
      CodesStayUnique(s, es[..|es| - 1]);
      hide UniqueCodes, Apply;
      StepCodes(s, Exec(s, START, es[..|es| - 1]), es[|es| - 1]);
    }
  }
}
