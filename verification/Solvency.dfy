/** Money conservation: what the exchange pays out is covered by what was received. */
module Solvency {
  import opened BingX
  import opened Checks
  import opened Common
  import opened Config
  import opened Decimal28
  import opened Deposits
  import opened History
  import opened Ledger
  import opened Moves
  import opened Quotes
  import opened Runs
  import opened Sums
  import opened Tables
  import opened Transfers
  import opened Truth
  import opened Webhooks

  // ------------------------------------------------------------------ the books

  function Amounts(ledger: map<string, Payout>): (m: map<string, nat>)
    ensures m.Keys == ledger.Keys
  {
    map key | key in ledger :: ledger[key].amountUsdt
  }

  /** USDT the exchange has paid out. */
  ghost function PaidOut(ledger: map<string, Payout>): nat {
    Total(Amounts(ledger))
  }

  function UsdtOf(txns: map<Id, Txn>, t: Id): nat { if t in txns then txns[t].amountUsdt else 0 }

  function CommissionOf(txns: map<Id, Txn>, t: Id): nat { if t in txns then txns[t].commission else 0 }

  /** RUB confirmed by accepted paid webhooks, in kopecks. */
  function RubReceived(rs: seq<Receipt>): nat {
    if rs == [] then 0 else RubReceived(rs[..|rs| - 1]) + rs[|rs| - 1].amountRub
  }

  /** Commissions of the transactions ever paid. */
  function CommissionKept(txns: map<Id, Txn>, rs: seq<Receipt>): nat {
    if rs == [] then 0 else CommissionKept(txns, rs[..|rs| - 1]) + CommissionOf(txns, rs[|rs| - 1].txId)
  }

  /** USDT due for the transactions ever paid. */
  function Owed(txns: map<Id, Txn>, rs: seq<Receipt>): nat {
    if rs == [] then 0 else Owed(txns, rs[..|rs| - 1]) + UsdtOf(txns, rs[|rs| - 1].txId)
  }

  /** The part of it the exchange has not accepted. */
  function Outstanding(txns: map<Id, Txn>, ledger: map<string, Payout>, rs: seq<Receipt>): nat {
    if rs == [] then 0 else
    var t := rs[|rs| - 1].txId;
    Outstanding(txns, ledger, rs[..|rs| - 1]) + if KeyOf(t) in ledger then 0 else UsdtOf(txns, t)
  }

  ghost predicate Receipted(rs: seq<Receipt>, t: Id) {
    exists n :: 0 <= n < |rs| && rs[n].txId == t
  }

  /** The receipts name the ever-paid transactions, each once, with its stored amount. */
  ghost predicate ReceiptsOk(db: Db, rs: seq<Receipt>) {
    && (forall n :: 0 <= n < |rs| ==>
          rs[n].txId in db.kyc && rs[n].txId in db.transactions
            && rs[n].amountRub == db.transactions[rs[n].txId].amountRub)
    && (forall m, n :: 0 <= m < n < |rs| ==> rs[m].txId != rs[n].txId)
    && (forall t :: t in db.kyc ==> Receipted(rs, t))
  }

  /** PaidOut + Outstanding == Owed. */
  ghost predicate Conserved(w: World) {
    PaidOut(w.ledger) + Outstanding(w.db.transactions, w.ledger, w.receipts) == Owed(w.db.transactions, w.receipts)
  }

  /** The stored quote is within its amount at the fixed rate. */
  predicate QuoteOk(s: Settings, t: Txn) {
    t.commission <= t.amountRub && Within(t.amountUsdt, t.amountRub - t.commission, s.rate)
  }

  ghost predicate QuotesOk(s: Settings, txns: map<Id, Txn>) {
    forall t :: t in txns ==> QuoteOk(s, txns[t])
  }

  // -------------------------------------------------------------- sums over steps

  lemma {:induction false} SumsKept(a: map<Id, Txn>, b: map<Id, Txn>, ledger: map<string, Payout>, rs: seq<Receipt>)
    requires TxnsStep(a, b) && forall n :: 0 <= n < |rs| ==> rs[n].txId in a
    ensures Owed(a, rs) == Owed(b, rs) && Outstanding(a, ledger, rs) == Outstanding(b, ledger, rs)
  {
    if rs != [] {
      SumsKept(a, b, ledger, rs[..|rs| - 1]);
      var t := rs[|rs| - 1].txId;
      assert SameQuote(a[t], b[t]);
    }
  }

  lemma {:induction false} OutstandingAbsent(
      txns: map<Id, Txn>, l: map<string, Payout>, l2: map<string, Payout>, rs: seq<Receipt>, t: Id)
    requires forall n :: 0 <= n < |rs| ==> rs[n].txId != t
    requires forall key :: key != KeyOf(t) ==> (key in l <==> key in l2)
    ensures Outstanding(txns, l2, rs) == Outstanding(txns, l, rs)
  {
    if rs != [] {
      OutstandingAbsent(txns, l, l2, rs[..|rs| - 1], t);
      NotKey(rs[|rs| - 1].txId, t);
    }
  }

  lemma NotKey(a: Id, b: Id)
    requires a != b
    ensures KeyOf(a) != KeyOf(b)
  {
    if KeyOf(a) == KeyOf(b) { KeyInjective(a, b); }
  }

  /** Accepting t's transfer takes exactly its amount out of what is outstanding. */
  lemma {:induction false} OutstandingOnAccept(
      txns: map<Id, Txn>, l: map<string, Payout>, l2: map<string, Payout>, rs: seq<Receipt>, t: Id)
    requires forall m, n :: 0 <= m < n < |rs| ==> rs[m].txId != rs[n].txId
    requires Receipted(rs, t) && KeyOf(t) !in l && KeyOf(t) in l2
    requires forall key :: key != KeyOf(t) ==> (key in l <==> key in l2)
    ensures Outstanding(txns, l2, rs) + UsdtOf(txns, t) == Outstanding(txns, l, rs)
  {
    var last := rs[|rs| - 1].txId;
    var init := rs[..|rs| - 1];
    if last == t {
      OutstandingAbsent(txns, l, l2, init, t);
    } else {
      var n :| 0 <= n < |rs| && rs[n].txId == t;
      assert init[n].txId == t;
      OutstandingOnAccept(txns, l, l2, init, t);
      NotKey(last, t);
    }
  }

  lemma PaidOutInsert(ledger: map<string, Payout>, key: string, p: Payout)
    requires key !in ledger
    ensures PaidOut(ledger[key := p]) == PaidOut(ledger) + p.amountUsdt
  {
    assert Amounts(ledger[key := p]) == Amounts(ledger)[key := p.amountUsdt];
    TotalInsert(Amounts(ledger), key, p.amountUsdt);
  }

  // -------------------------------------------------------------------- receipts

  lemma ReceiptsKept(a: Db, b: Db, rs: seq<Receipt>)
    requires ReceiptsOk(a, rs) && DbStep(a, b) && a.kyc == b.kyc
    ensures ReceiptsOk(b, rs)
  {
    forall n | 0 <= n < |rs|
      ensures rs[n].txId in b.transactions && rs[n].amountRub == b.transactions[rs[n].txId].amountRub
    {
      assert SameQuote(a.transactions[rs[n].txId], b.transactions[rs[n].txId]);
    }
  }

  lemma ReceiptsOnPaid(a: Db, b: Db, p: Payment, transferId: Id, rs: seq<Receipt>)
    requires ReceiptsOk(a, rs) && PaidFrom(a, b, p, transferId) && p.txId !in a.kyc
    ensures ReceiptsOk(b, rs + [Receipt(p.txId, p.amountRub.value)])
  {
    var rs2 := rs + [Receipt(p.txId, p.amountRub.value)];
    forall t | t in b.kyc
      ensures Receipted(rs2, t)
    {
      if t == p.txId {
        assert rs2[|rs|].txId == t;
      } else {
        var n :| 0 <= n < |rs| && rs[n].txId == t;
        assert rs2[n].txId == t;
      }
    }
  }

  ghost predicate MoneyOk(w: World) {
    Books(w) && ReceiptsOk(w.db, w.receipts) && Conserved(w)
  }

  /** A ledger key belongs to an ever-paid transaction. */
  lemma LedgerKeyPaid(w: World, t: Id)
    requires Books(w) && t !in w.db.kyc
    ensures KeyOf(t) !in w.ledger
  {
    if KeyOf(t) in w.ledger {
      var u := PayoutTxn(w, KeyOf(t));
      KeyInjective(t, u);
    }
  }

  lemma MoneyOnPaid(s: Settings, w: World, e: Event)
    requires Validated(s) && MoneyOk(w) && Enabled(s, w, e) && e.PaymentHook? && Accepts(w.db, e.payment)
    ensures ReceiptsOk(Step(s, w, e).db, Step(s, w, e).receipts) && Conserved(Step(s, w, e))
  {
    var p, w2 := e.payment, Step(s, w, e);
    StepKeepsHistory(s, w, e);
    PaidWorld(s, w, e);
    MarkPaidIs(w.db, p, s.holdMinutes, e.now, e.transferId);
    NoConflictOnPaid(w.db, p);
    LedgerKeyPaid(w, p.txId);
    hide Step, Enabled, MarkPaid, RowsStep;
    ReceiptsOnPaid(w.db, w2.db, p, e.transferId, w.receipts);
    ConservedOnPaid(w, w2, p.txId, p.amountRub.value);
  }

  /** A receipt of a payment not paid out yet adds its USDT to what is due and outstanding. */
  lemma SumsAppend(txns: map<Id, Txn>, ledger: map<string, Payout>, rs: seq<Receipt>, r: Receipt)
    requires KeyOf(r.txId) !in ledger
    ensures Owed(txns, rs + [r]) == Owed(txns, rs) + UsdtOf(txns, r.txId)
    ensures Outstanding(txns, ledger, rs + [r]) == Outstanding(txns, ledger, rs) + UsdtOf(txns, r.txId)
  {
    assert (rs + [r])[..|rs + [r]| - 1] == rs;
  }

  lemma ConservedOnPaid(w: World, w2: World, t: Id, amountRub: nat)
    requires ReceiptsOk(w.db, w.receipts) && Conserved(w) && TxnsStep(w.db.transactions, w2.db.transactions)
    requires w2.ledger == w.ledger && KeyOf(t) !in w.ledger && w2.receipts == w.receipts + [Receipt(t, amountRub)]
    ensures Conserved(w2)
  {
    SumsKept(w.db.transactions, w2.db.transactions, w.ledger, w.receipts);
    SumsAppend(w2.db.transactions, w.ledger, w.receipts, Receipt(t, amountRub));
    hide ReceiptsOk, TxnsStep, PaidOut, Owed, Outstanding, KeyOf;
  }

  lemma PaidWorld(s: Settings, w: World, e: Event)
    requires Validated(s) && Enabled(s, w, e) && e.PaymentHook? && Accepts(w.db, e.payment)
    ensures Step(s, w, e).receipts == w.receipts + [Receipt(e.payment.txId, e.payment.amountRub.value)]
    ensures Step(s, w, e).ledger == w.ledger
    ensures Step(s, w, e).db == MarkPaid(w.db, e.payment, s.holdMinutes, e.now, e.transferId)
  {
  }

  lemma MoneyOnAccept(s: Settings, w: World, e: Event)
    requires Validated(s) && MoneyOk(w) && Enabled(s, w, e) && e.Accept?
    ensures ReceiptsOk(Step(s, w, e).db, Step(s, w, e).receipts) && Conserved(Step(s, w, e))
  {
    var w2 := Step(s, w, e);
    var key := w.wire[e.callId].key;
    StepLinked(s, w, e);
    StepWired(s, w, e);
    StepTruthful(s, w, e);
    AcceptedWorld(s, w, e);
    hide Step, Enabled, Linked, Wired, Truthful;
    var t := PayoutTxn(w2, key);
    ConservedOnAccept(w, w2, key, t);
  }

  lemma AcceptedWorld(s: Settings, w: World, e: Event)
    requires Validated(s) && Enabled(s, w, e) && e.Accept?
    ensures var (w2, key) := (Step(s, w, e), w.wire[e.callId].key);
      && w2.db == w.db && w2.receipts == w.receipts && key !in w.ledger && key in w2.ledger
      && w2.ledger == w.ledger[key := w2.ledger[key]]
  {
  }

  lemma ConservedOnAccept(w: World, w2: World, key: string, t: Id)
    requires ReceiptsOk(w.db, w.receipts) && Conserved(w) && w2.db == w.db && w2.receipts == w.receipts
    requires key !in w.ledger && key in w2.ledger && w2.ledger == w.ledger[key := w2.ledger[key]]
    requires key == KeyOf(t) && PayoutFor(w2, t)
    ensures Conserved(w2)
  {
    OutstandingOnAccept(w.db.transactions, w.ledger, w2.ledger, w.receipts, t);
    PaidOutInsert(w.ledger, key, w2.ledger[key]);
    hide Outstanding, Owed, PaidOut;
  }

  lemma MoneyElsewhere(s: Settings, w: World, e: Event)
    requires Validated(s) && MoneyOk(w) && !e.Accept? && !(e.PaymentHook? && Accepts(w.db, e.payment))
    ensures ReceiptsOk(Apply(s, w, e).db, Apply(s, w, e).receipts) && Conserved(Apply(s, w, e))
  {
    hide Apply, Books, Conserved, ReceiptsOk, DbStep, Quiet, Accepts;
    StepKeepsHistory(s, w, e);
    StepQuiet(s, w, e);
    SameMoney(s, w, e);
    MoneyKept(w, Apply(s, w, e));
  }

  lemma MoneyKept(w: World, w2: World)
    requires ReceiptsOk(w.db, w.receipts) && Conserved(w) && DbStep(w.db, w2.db) && Quiet(w.db, w2.db)
    requires w2.receipts == w.receipts && w2.ledger == w.ledger
    ensures ReceiptsOk(w2.db, w2.receipts) && Conserved(w2)
  {
    ReceiptsKept(w.db, w2.db, w.receipts);
    SumsKept(w.db.transactions, w2.db.transactions, w.ledger, w.receipts);
    hide ReceiptsOk, DbStep, PaidOut, Owed, Outstanding;
  }

  lemma ServiceSameMoney(s: Settings, w: World, e: Event)
    requires Validated(s) && !ByWorker(e) && ServiceEnabled(w, e) && !(e.PaymentHook? && Accepts(w.db, e.payment))
    ensures ServiceStep(s, w, e).receipts == w.receipts
  {
    hide CheckDeposit, InsertDeposit, HandlePayment, HandleChargeback, ChargebackBlocked, Accepts;
  }

  lemma WorkerSameMoney(s: Settings, w: World, e: Event)
    requires ByWorker(e) && WorkerEnabled(s, w, e) && !e.Accept?
    ensures WorkerStep(s, w, e).ledger == w.ledger
  {
    hide ClaimRow, Record, RecordTransfer, RecordTxn, VerdictOf, IsNext, SaysAccepted;
  }

  lemma SameMoney(s: Settings, w: World, e: Event)
    requires Validated(s) && !e.Accept? && !(e.PaymentHook? && Accepts(w.db, e.payment))
    ensures Apply(s, w, e).receipts == w.receipts && Apply(s, w, e).ledger == w.ledger
  {
    hide WorkerStep, ServiceStep, WorkerEnabled, ServiceEnabled, Accepts;
    if Enabled(s, w, e) {
      if ByWorker(e) { WorkerSameMoney(s, w, e); } else { ServiceSameMoney(s, w, e); }
    }
  }

  lemma {:induction false} RunMoney(s: Settings, es: seq<Event>)
    requires Validated(s)
    ensures MoneyOk(Exec(s, START, es))
  {
    RunBooks(s, es);
    if es == [] {
      assert Amounts(START.ledger) == map[];
    } else {
      RunMoney(s, es[..|es| - 1]);
      var w, e := Exec(s, START, es[..|es| - 1]), es[|es| - 1];
      hide Books, ReceiptsOk, Conserved, Step;
      if Enabled(s, w, e) && e.Accept? {
        MoneyOnAccept(s, w, e);
      } else if Enabled(s, w, e) && e.PaymentHook? && Accepts(w.db, e.payment) {
        MoneyOnPaid(s, w, e);
      } else if !e.Accept? && !(e.PaymentHook? && Accepts(w.db, e.payment)) {
        MoneyElsewhere(s, w, e);
      }
    }
  }

  // -------------------------------------------------------------------- quotes

  /** The service takes deposits of this amount. */
  predicate Depositable(s: Settings, amountRub: nat) {
    0 < amountRub <= SCHEMA_MAX && s.depositMin <= amountRub <= s.depositMax
  }

  /** The quote of this deposit rounds up, and its USDT amount can be stored. */
  predicate OverpaysAt(s: Settings, amountRub: nat, discount: Percent)
    requires Validated(s) && amountRub <= SCHEMA_MAX
  {
    SchemaFits();
    RoundsUp(amountRub, s, discount) && ExactUsdt(NetOf(amountRub, s, discount), s.rate) + 1 < USDT_COLUMN_LIMIT
  }

  /** No deposit the service takes, at any discount, has a quote that rounds up. */
  ghost predicate NeverOverpays(s: Settings)
    requires Validated(s)
  {
    forall amountRub: nat, discount: Percent :: Depositable(s, amountRub) ==> !OverpaysAt(s, amountRub, discount)
  }

  lemma DepositQuoteOk(s: Settings, db: Db, r: Request, now: Time, txId: Id)
    requires Validated(s) && NeverOverpays(s) && Acceptable(r) && Depositable(s, r.amountRub)
    requires QuotesOk(s, db.transactions) && InsertDeposit(db, s, r, now, txId).Ok?
    ensures QuotesOk(s, InsertDeposit(db, s, r, now, txId).value.transactions)
  {
    hide Quoted, RowFor, QuoteOk, OverpaysAt;
    var row := if Blank(r.promoCode) then None else RowFor(db.promos, r.promoCode.value, now);
    NewQuoteOk(s, r, row, Discount(db, row));
  }

  lemma NewQuoteOk(s: Settings, r: Request, row: Option<Id>, discount: Percent)
    requires Validated(s) && r.amountRub <= SCHEMA_MAX && !OverpaysAt(s, r.amountRub, discount)
    ensures var quote := Quoted(s, r.amountRub, discount);
      quote.Some? && quote.value.1 < USDT_COLUMN_LIMIT ==> QuoteOk(s, NewTxn(r, row, quote.value))
  {
    SchemaFits();
    hide CalculateDepositAmounts, Dividend, Pow10, Validated, NetOf, RoundsUp, ExactUsdt;
    QuoteLaws(r.amountRub, s, discount);
  }

  lemma QuotesKept(s: Settings, a: map<Id, Txn>, b: map<Id, Txn>)
    requires TxnsStep(a, b) && QuotesOk(s, a) && a.Keys == b.Keys
    ensures QuotesOk(s, b)
  {
    forall t | t in b
      ensures QuoteOk(s, b[t])
    {
      assert SameQuote(a[t], b[t]);
    }
  }

  lemma {:induction false} RunQuotes(s: Settings, es: seq<Event>)
    requires Validated(s) && NeverOverpays(s)
    ensures QuotesOk(s, Exec(s, START, es).db.transactions)
  {
    if es != [] {
      var w, e := Exec(s, START, es[..|es| - 1]), es[|es| - 1];
      RunQuotes(s, es[..|es| - 1]);
      RunPassed(s, es[..|es| - 1]);
      hide Apply, QuotesOk, NeverOverpays, AllPassed;
      StepQuotes(s, w, e);
    }
  }

  lemma StepQuotes(s: Settings, w: World, e: Event)
    requires Validated(s) && NeverOverpays(s) && AllPassed(s, w) && QuotesOk(s, w.db.transactions)
    ensures QuotesOk(s, Apply(s, w, e).db.transactions)
  {
    hide QuotesOk, NeverOverpays, ServiceStep, WorkerStep, WorkerEnabled, InsertDeposit;
    if e.Deposit? {
      DepositDb(s, w, e);
      if Inserts(s, w, e) {
        assert Passed(s, w.db.users, w.checked[e.check]);
        DepositQuoteOk(s, w.db, e.request, e.now, e.txId);
      }
    } else {
      hide Apply;
      StepKeepsHistory(s, w, e);
      SameTxns(s, w, e);
      QuotesKept(s, w.db.transactions, Apply(s, w, e).db.transactions);
    }
  }

  lemma {:induction false} OwedWithinReceipts(s: Settings, db: Db, rs: seq<Receipt>, unit: nat)
    requires unit == Pow10(6 + s.rate.scale)
    requires QuotesOk(s, db.transactions)
    requires forall n :: 0 <= n < |rs| ==>
      rs[n].txId in db.transactions && rs[n].amountRub == db.transactions[rs[n].txId].amountRub
    ensures Owed(db.transactions, rs) * s.rate.coef + CommissionKept(db.transactions, rs) * unit <=
      RubReceived(rs) * unit
  {
    if rs != [] {
      var init, t := rs[..|rs| - 1], db.transactions[rs[|rs| - 1].txId];
      OwedWithinReceipts(s, db, init, unit);
      assert QuoteOk(s, t);
      AddOne(Owed(db.transactions, init), t.amountUsdt, s.rate.coef, CommissionKept(db.transactions, init),
             t.commission, RubReceived(init), t.amountRub, unit);
    }
  }

  lemma AddOne(owed: int, usdt: int, rate: int, kept: int, commission: int, rub: int, amount: int, unit: int)
    requires owed * rate + kept * unit <= rub * unit && usdt * rate <= (amount - commission) * unit
    ensures (owed + usdt) * rate + (kept + commission) * unit <= (rub + amount) * unit
  {
    Distribute(amount, commission, unit);
    Distribute(owed + usdt, usdt, rate);
    Distribute(kept + commission, commission, unit);
    Distribute(rub + amount, amount, unit);
  }

  // --------------------------------------------------------------- main results

  /** Conservation over every run: USDT paid out plus USDT not yet accepted is the USDT due for
      the transactions ever paid. */
  lemma {:induction false} Conservation(s: Settings, es: seq<Event>)
    requires Validated(s)
    ensures var w := Exec(s, START, es);
      PaidOut(w.ledger) + Outstanding(w.db.transactions, w.ledger, w.receipts) == Owed(w.db.transactions, w.receipts)
  {
    RunMoney(s, es);
  }

  /** USDT paid out, at the rate, plus the commissions of ever-paid transactions is at most the RUB
      that accepted paid webhooks confirmed (all in 10^-8 kopecks, times the rate's power of ten). */
  ghost predicate Solvent(s: Settings, w: World) {
    var unit := Pow10(6 + s.rate.scale);
    PaidOut(w.ledger) * s.rate.coef + CommissionKept(w.db.transactions, w.receipts) * unit <=
      RubReceived(w.receipts) * unit
  }

  /** Solvency over every run, at either granularity, for all settings under which no quote of a
      deposit rounds up. */
  lemma {:induction false} AlwaysSolvent(s: Settings, es: seq<Event>)
    requires Validated(s) && NeverOverpays(s)
    ensures Solvent(s, Exec(s, START, es))
  {
    hide Exec, Books, NeverOverpays, Solvent;
    RunMoney(s, es);
    RunQuotes(s, es);
    SolventBooks(s, Exec(s, START, es));
  }

  lemma SolventBooks(s: Settings, w: World)
    requires Validated(s) && ReceiptsOk(w.db, w.receipts) && Conserved(w) && QuotesOk(s, w.db.transactions)
    ensures Solvent(s, w)
  {
    hide Pow10, PaidOut, Outstanding, Owed, RubReceived, CommissionKept;
    OwedWithinReceipts(s, w.db, w.receipts, Pow10(6 + s.rate.scale));
    MulLe(PaidOut(w.ledger), Owed(w.db.transactions, w.receipts), s.rate.coef);
  }

  /** In particular at every rate of at least one and at most 11 digits, whatever the commission
      percent. */
  lemma {:induction false} ShortRateSolvent(s: Settings, es: seq<Event>)
    requires Validated(s) && ShortRate(s)
    ensures Solvent(s, Exec(s, START, es))
  {
    hide Exec, Solvent, RoundsUp, ShortRate, NetOf;
    forall amountRub: nat, discount: Percent | Depositable(s, amountRub)
      ensures !OverpaysAt(s, amountRub, discount)
    {
      ShortRateQuoteLaws(amountRub, s, discount);
    }
    AlwaysSolvent(s, es);
  }
}
