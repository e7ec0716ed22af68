/** One customer from registration to payout, and the properties that fail along the way. */
module Scenarios {
  import opened Accounted
  import opened Bans
  import opened Checks
  import opened Common
  import opened Config
  import opened Decimal28
  import opened Deposits
  import opened Quotes
  import opened Runs
  import opened Solvency
  import opened Sums
  import opened Tables
  import opened Transfers
  import opened Webhooks

  const USER: Id := "user"
  const EMAIL := "a@b.c"
  const UID := "123"
  const PROMO: Id := "promo"
  const CODE := "CODE"
  const TXN: Id := "txn"
  const ROW: Id := "row"

  /** A code with this discount, no limit and no end. */
  function Offer(discount: Percent): Promo { Promo(CODE, discount, None, 0, true, None) }

  function Order(amountRub: nat): Request { Request(USER, amountRub, UID, None, Some(CODE)) }

  function Report(amountRub: nat): Payment {
    Payment(TXN, true, None, Some("name"), Some("phone"), Some(amountRub))
  }

  /** When the hold of a transfer paid at time 0 ends. */
  function HoldEnd(s: Settings): Time { s.holdMinutes * MINUTE }

  function Ordered(discount: Percent, amountRub: nat): seq<Event> {
    [Register(USER, EMAIL), PutPromo(PROMO, Offer(discount)), Check(Order(amountRub)),
      Deposit(0, Order(amountRub), 0, TXN)]
  }

  function Sending(s: Settings): seq<Event> {
    [ClaimTask(0, ROW, HoldEnd(s), true), SendCall(0)]
  }

  // ------------------------------------------------------------- the states on the way

  const USERS: map<Id, User> := map[USER := User(EMAIL)]

  function Sold(quote: (nat, nat), amountRub: nat): Txn {
    Txn(USER, Some(PROMO), amountRub, quote.1, quote.0, TxPending, None, None, UID)
  }

  function Joined(): World { START.(db := EMPTY_DB.(users := USERS)) }

  function Offered(discount: Percent): World {
    START.(db := EMPTY_DB.(users := USERS, promos := map[PROMO := Offer(discount)]))
  }

  function Placed(discount: Percent, amountRub: nat): World {
    Offered(discount).(checked := map[0 := Order(amountRub)], checks := 1)
  }

  function Bought(discount: Percent, amountRub: nat, quote: (nat, nat)): World {
    START.(
      db := EMPTY_DB.(
        users := USERS,
        transactions := map[TXN := Sold(quote, amountRub)],
        promos := map[PROMO := Offer(discount).(used := 1)],
        audit := [Audit("deposit_created", Some(TXN))]),
      checks := 1,
      checkOf := map[TXN := 0])
  }

  function Paid(s: Settings, discount: Percent, amountRub: nat, quote: (nat, nat)): World {
    var w := Bought(discount, amountRub, quote);
    var t := Sold(quote, amountRub);
    w.(
      db := w.db.(
        transactions := map[TXN := t.(status := TxPaid)],
        transfers := map[ROW := NewTransfer(TXN, t, s.holdMinutes, 0)],
        kyc := map[TXN := Kyc("name", "phone", amountRub)],
        audit := w.db.audit + [Audit("sbp_payment_paid", Some(TXN))],
        notices := 1),
      receipts := [Receipt(TXN, amountRub)])
  }

  /** The worker's call is on its way. */
  function Sent(s: Settings, discount: Percent, amountRub: nat, quote: (nat, nat)): World {
    var w := Paid(s, discount, amountRub, quote);
    var job := JobOf(ROW, WithClaim(w.db.transfers[ROW], HoldEnd(s)));
    w.(workers := map[0 := Worker(job, true, HoldEnd(s), Phase.Sent(0))], wire := map[0 := CallOf(job)], calls := 1)
  }

  // -------------------------------------------------------------------- one step each

  lemma Joins(s: Settings)
    requires Validated(s)
    ensures Apply(s, START, Register(USER, EMAIL)) == Joined()
  {
    assert Lower(EMAIL) == EMAIL;
    assert Strip(EMAIL) == EMAIL;
  }

  lemma Offers(s: Settings, discount: Percent)
    requires Validated(s)
    ensures Apply(s, Joined(), PutPromo(PROMO, Offer(discount))) == Offered(discount)
  {
  }

  lemma Places(s: Settings, discount: Percent, amountRub: nat)
    requires Validated(s) && Depositable(s, amountRub)
    ensures Apply(s, Offered(discount), Check(Order(amountRub))) == Placed(discount, amountRub)
  {
  }

  lemma FindsOffer(discount: Percent)
    ensures RowFor(map[PROMO := Offer(discount)], CODE, 0) == Some(PROMO)
  {
    assert Reservable(map[PROMO := Offer(discount)][PROMO], CODE, 0);
  }

  lemma Buys(s: Settings, discount: Percent, amountRub: nat, quote: (nat, nat))
    requires Validated(s) && Depositable(s, amountRub) && Quoted(s, amountRub, discount) == Some(quote)
    requires 0 < quote.1 < USDT_COLUMN_LIMIT
    ensures Apply(s, Placed(discount, amountRub), Deposit(0, Order(amountRub), 0, TXN)) ==
      Bought(discount, amountRub, quote)
  {
    FindsOffer(discount);
    hide Quoted, RowFor;
  }

  lemma Pays(s: Settings, discount: Percent, amountRub: nat, quote: (nat, nat))
    requires Validated(s)
    ensures Apply(s, Bought(discount, amountRub, quote), PaymentHook(Report(amountRub), 0, ROW))
         == Paid(s, discount, amountRub, quote)
  {
  }

  lemma Sends(s: Settings, discount: Percent, amountRub: nat, quote: (nat, nat))
    requires Validated(s)
    ensures var w := Paid(s, discount, amountRub, quote);
      Apply(s, Apply(s, w, ClaimTask(0, ROW, HoldEnd(s), true)), SendCall(0)) == Sent(s, discount, amountRub, quote)
  {
  }

  /** Registration, a promo code, an order, its payment, and the worker's call. */
  function ToCall(s: Settings, discount: Percent, amountRub: nat): seq<Event> {
    Ordered(discount, amountRub) + [PaymentHook(Report(amountRub), 0, ROW)] + Sending(s)
  }

  /** Every deposit that gets a quote reaches the exchange by such a run. */
  lemma ReachesExchange(s: Settings, discount: Percent, amountRub: nat, quote: (nat, nat))
    requires Validated(s) && Depositable(s, amountRub) && Quoted(s, amountRub, discount) == Some(quote)
    requires 0 < quote.1 < USDT_COLUMN_LIMIT
    ensures Exec(s, START, ToCall(s, discount, amountRub)) == Sent(s, discount, amountRub, quote)
    ensures Transactional(ToCall(s, discount, amountRub))
  {
    hide Exec, Apply, Joined, Offered, Placed, Bought, Paid, Sent, Quoted, Depositable, Offer, Order, Report, HoldEnd;
    var (a, b, c, d) := (Register(USER, EMAIL), PutPromo(PROMO, Offer(discount)), Check(Order(amountRub)),
                         Deposit(0, Order(amountRub), 0, TXN));
    var (e, f, g) := (PaymentHook(Report(amountRub), 0, ROW), ClaimTask(0, ROW, HoldEnd(s), true), SendCall(0));
    Joins(s);
    Offers(s, discount);
    Places(s, discount, amountRub);
    Buys(s, discount, amountRub, quote);
    Pays(s, discount, amountRub, quote);
    Sends(s, discount, amountRub, quote);
    SevenSteps(s, START, a, b, c, d, e, f, g);
    assert ToCall(s, discount, amountRub) == [a, b, c, d, e, f, g];
  }

  lemma SevenSteps(s: Settings, w: World, a: Event, b: Event, c: Event, d: Event, e: Event, f: Event, g: Event)
    requires Validated(s)
    ensures Exec(s, w, [a, b, c, d, e, f, g]) ==
              Apply(s, Apply(s, Apply(s, Apply(s, Apply(s, Apply(s, Apply(s, w, a), b), c), d), e), f), g)
  {
    hide Exec, Apply;
    ThreeSteps(s, w, a, b, c);
    AttemptRun(s, w, [a, b, c], d, e, f);
    ExecAppend(s, w, [a, b, c] + [d, e, f], g);
    assert [a, b, c] + [d, e, f] + [g] == [a, b, c, d, e, f, g];
  }

  lemma ThreeSteps(s: Settings, w: World, a: Event, b: Event, c: Event)
    requires Validated(s)
    ensures Exec(s, w, [a, b, c]) == Apply(s, Apply(s, Apply(s, w, a), b), c)
  {
    hide Exec, Apply;
    EmptyRun(s, w);
    AttemptRun(s, w, [], a, b, c);
    assert [] + [a, b, c] == [a, b, c];
  }

  // --------------------------------------------------------------- when solvency fails

  /** That run, and the exchange's acceptance. */
  function ToPayout(s: Settings, discount: Percent, amountRub: nat): seq<Event> {
    ToCall(s, discount, amountRub) + [Accept(0)]
  }

  lemma PayoutWorld(s: Settings, discount: Percent, amountRub: nat, quote: (nat, nat))
    requires Validated(s)
    ensures var w := Apply(s, Sent(s, discount, amountRub, quote), Accept(0));
      && w.db == Paid(s, discount, amountRub, quote).db && w.receipts == [Receipt(TXN, amountRub)]
      && w.ledger == map[KeyOf(TXN) := Payout(UID, quote.1, 0)]
  {
  }

  lemma OnePayment(w: World, s: Settings, discount: Percent, amountRub: nat, quote: (nat, nat))
    requires w.db == Paid(s, discount, amountRub, quote).db && w.receipts == [Receipt(TXN, amountRub)]
    requires w.ledger == map[KeyOf(TXN) := Payout(UID, quote.1, 0)]
    ensures PaidOut(w.ledger) == quote.1 && CommissionKept(w.db.transactions, w.receipts) == quote.0
    ensures RubReceived(w.receipts) == amountRub
  {
    var none: map<string, nat> := map[];
    TotalInsert(none, KeyOf(TXN), quote.1);
    assert Amounts(w.ledger) == none[KeyOf(TXN) := quote.1];
    assert w.receipts[..0] == [];
  }

  /** A deposit whose quote rounds up pays out more than was received for it. */
  lemma OverpayingRun(s: Settings, amountRub: nat, discount: Percent)
    requires Validated(s) && Depositable(s, amountRub) && OverpaysAt(s, amountRub, discount)
    ensures !Solvent(s, Exec(s, START, ToPayout(s, discount, amountRub)))
  {
    hide Exec, Apply, Sent, Paid, ToCall, Quoted, OverpaysAt, Depositable, Pow10, PaidOut, CommissionKept, RubReceived;
    IsPositive(s, amountRub);
    OverpaidQuote(s, amountRub, discount);
    var quote := Quoted(s, amountRub, discount).value;
    ReachesExchange(s, discount, amountRub, quote);
    ExecAppend(s, START, ToCall(s, discount, amountRub), Accept(0));
    PayoutWorld(s, discount, amountRub, quote);
    OnePayment(Exec(s, START, ToPayout(s, discount, amountRub)), s, discount, amountRub, quote);
    Distribute(amountRub, quote.0, Pow10(6 + s.rate.scale));
  }

  lemma IsPositive(s: Settings, amountRub: nat)
    requires Depositable(s, amountRub)
    ensures 0 < amountRub <= SCHEMA_MAX
  {
  }

  /** Its USDT amount is worth more than the net amount. */
  lemma OverpaidQuote(s: Settings, amountRub: nat, discount: Percent)
    requires Validated(s) && 0 < amountRub <= SCHEMA_MAX && OverpaysAt(s, amountRub, discount)
    ensures Quoted(s, amountRub, discount).Some?
    ensures var quote := Quoted(s, amountRub, discount).value;
      && 0 < quote.1 < USDT_COLUMN_LIMIT && quote.0 <= amountRub
      && quote.1 * s.rate.coef > (amountRub - quote.0) * Pow10(6 + s.rate.scale)
  {
    SchemaFits();
    hide CalculateDepositAmounts, Pow10, NetOf, RoundsUp, ExactUsdt, LargestWithin;
    LimitFits();
    QuoteLaws(amountRub, s, discount);
    NextIsOver(ExactUsdt(NetOf(amountRub, s, discount), s.rate), NetOf(amountRub, s, discount), s.rate);
  }

  lemma LimitFits()
    ensures USDT_COLUMN_LIMIT < Pow10(28)
  {
    Pow10Add(9, 9);
    assert Pow10(9) == 1_000_000_000;
    Pow10Monotone(18, 28);
  }

  lemma NextIsOver(u: nat, net: nat, rate: Decimal)
    requires LargestWithin(u, net, rate)
    ensures (u + 1) * rate.coef > net * Pow10(6 + rate.scale)
  {
  }

  /** The exact condition of solvency: every run is solvent if and only if no quote of a deposit
      rounds up. */
  lemma {:induction false} SolventIffNeverOverpays(s: Settings)
    requires Validated(s)
    ensures (forall es :: Solvent(s, Exec(s, START, es))) <==> NeverOverpays(s)
  {
    hide Exec, Solvent, OverpaysAt;
    if NeverOverpays(s) {
      forall es
        ensures Solvent(s, Exec(s, START, es))
      {
        AlwaysSolvent(s, es);
      }
    } else {
      var amountRub: nat, discount: Percent :| Depositable(s, amountRub) && OverpaysAt(s, amountRub, discount);
      OverpayingRun(s, amountRub, discount);
    }
  }

  /** At a rate of 1 + 10^-30 roubles per USDT and no commission, an order of 100 roubles pays out
      100 USDT, worth more than it. */
  lemma InsolventAtLongRate(s: Settings)
    requires Validated(s) && Depositable(s, 10_000)
    requires s.commissionPercent == Decimal(0, 0) && s.rate == Decimal(Pow10(30) + 1, 30)
    ensures !Solvent(s, Exec(s, START, ToPayout(s, 0, 10_000)))
  {
    hide Exec, Solvent, Usdt, ExactUsdt, RoundingReachesNext, Dividend, Pow10, Commission;
    SchemaFits();
    NoCommission(s, 10_000);
    LongRateRoundsUp(s);
    UsdtExactIff(10_000, 0, s);
    OverpayingRun(s, 10_000, 0);
  }

  lemma NoCommission(s: Settings, amountRub: nat)
    requires Validated(s) && s.commissionPercent == Decimal(0, 0) && amountRub < Pow10(26)
    ensures Commission(amountRub, s, 0) == Some(0)
  {
    hide Commission, Pow10;
    PositiveTen(28);
    CommissionIsExact(amountRub, s, 0, 0);
    HalfEvenWhole(0, Pow10(6));
  }

  lemma PositiveTen(k: nat)
    ensures Pow10(k) > 0
  {
  }

  // ------------------------------------------------------------ cancelled yet paid out

  /** 100 roubles per USDT, 5 percent, deposits from one rouble. */
  const SETTINGS: Settings := Settings(100, 10_000_000, Decimal(5, 0), Decimal(100, 0), 300, 30, 0)

  lemma SmallQuote()
    ensures Validated(SETTINGS) && Depositable(SETTINGS, 10_000)
    ensures Quoted(SETTINGS, 10_000, 0) == Some((500, 95_000_000))
  {
    SmallSettings();
    SchemaFits();
    hide CalculateDepositAmounts, ExactCommission, ExactUsdt, Pow10, Validated;
    QuoteIsExact(10_000, SETTINGS, 0);
  }

  lemma SmallSettings()
    ensures Validated(SETTINGS) && ShortPercent(SETTINGS) && ShortRate(SETTINGS) && Depositable(SETTINGS, 10_000)
    ensures ExactCommission(10_000, SETTINGS.commissionPercent, 0) == 500
    ensures ExactUsdt(9_500, SETTINGS.rate) == 95_000_000
  {
    assert Pow10(6) == 1_000_000 && Pow10(0) == 1;
    assert Pow10(11) == 100_000_000_000;
    assert HalfEven(500_000_000, 1_000_000) == 500;
  }

  /** The transfer of a payment of 100 roubles is accepted by the exchange, its worker aborts, and
      the payment is charged back. */
  function CancelledAndPaid(): seq<Event> {
    ToCall(SETTINGS, 0, 10_000) + [Accept(0), Drop(0), ChargebackHook(TXN, "fraud", 0, ["one", "two"])]
  }

  /** A production run from the empty service to a transfer that is cancelled and paid out. */
  lemma CancelledAndPaidRun()
    ensures Validated(SETTINGS) && Transactional(CancelledAndPaid())
    ensures var w := Exec(SETTINGS, START, CancelledAndPaid());
      && ROW in w.db.transfers && w.db.transfers[ROW].status == TrCancelled
      && w.db.transfers[ROW].key in w.ledger
  {
    SmallQuote();
    hide Exec, Quoted, Depositable, Validated, ToCall;
    ReachesExchange(SETTINGS, 0, 10_000, (500, 95_000_000));
    var es := ToCall(SETTINGS, 0, 10_000);
    var w := Exec(SETTINGS, START, es);
    assert w == Sent(SETTINGS, 0, 10_000, (500, 95_000_000));
    CancelledCanBePaid(SETTINGS, es, 0, 0, "fraud", 0, ["one", "two"]);
  }

  // ------------------------------------------------------------- created after the ban

  const LATE: Id := "late"

  /** Of two orders of one customer the first is paid and charged back while the second is between
      its checks and its insert. */
  function ToBan(): seq<Event> {
    Ordered(0, 10_000) + [Check(Order(10_000)), PaymentHook(Report(10_000), 0, ROW), Reversal()]
  }

  function Reversal(): Event { ChargebackHook(TXN, "fraud", 0, ["one", "two"]) }

  const QUOTE := (500, 95_000_000)

  /** The second order is under way. */
  function WithSecond(w: World): World { w.(checked := map[1 := Order(10_000)], checks := 2) }

  lemma ChecksSecond()
    requires Validated(SETTINGS) && Depositable(SETTINGS, 10_000)
    ensures Apply(SETTINGS, Bought(0, 10_000, QUOTE), Check(Order(10_000))) == WithSecond(Bought(0, 10_000, QUOTE))
  {
  }

  lemma PaysFirst()
    requires Validated(SETTINGS)
    ensures Apply(SETTINGS, WithSecond(Bought(0, 10_000, QUOTE)), PaymentHook(Report(10_000), 0, ROW))
         == WithSecond(Paid(SETTINGS, 0, 10_000, QUOTE))
  {
  }

  /** The chargeback is accepted and gives the promo use back. */
  lemma ReversesFirst()
    requires Validated(SETTINGS)
    ensures var w := WithSecond(Paid(SETTINGS, 0, 10_000, QUOTE));
      var w2 := Apply(SETTINGS, w, Reversal());
      && Enabled(SETTINGS, w, Reversal()) && TXN in w.db.transactions && w.db.transactions[TXN].status == TxPaid
      && w.db.transactions[TXN].recipientUid == UID && w.db.users[w.db.transactions[TXN].userId].email == EMAIL
      && w2.checked == w.checked && TXN in w2.db.transactions && LATE !in w2.db.transactions
      && w2.db.transactions[TXN].status == TxChargeback && w2.db.promos == map[PROMO := Offer(0)]
  {
    assert LockedRows(WithSecond(Paid(SETTINGS, 0, 10_000, QUOTE))) == {};
    hide BanAll, CancelTransfers;
  }

  lemma InsertPasses(s: Settings, db: Db, r: Request, row: Id, quote: (nat, nat))
    requires Validated(s) && Acceptable(r) && !Blank(r.promoCode)
    requires RowFor(db.promos, r.promoCode.value, 0) == Some(row)
    requires Quoted(s, r.amountRub, Discount(db, Some(row))) == Some(quote) && 0 < quote.1 < USDT_COLUMN_LIMIT
    ensures InsertDeposit(db, s, r, 0, LATE).Ok?
  {
    hide Quoted, RowFor, Validated, Acceptable, Discount;
  }

  lemma OrderIsAcceptable()
    ensures Acceptable(Order(10_000)) && !Blank(Order(10_000).promoCode)
  {
  }

  lemma InsertsSecond(s: Settings, db: Db)
    requires Validated(s) && Quoted(s, 10_000, 0) == Some(QUOTE) && db.promos == map[PROMO := Offer(0)]
    ensures Acceptable(Order(10_000)) && InsertDeposit(db, s, Order(10_000), 0, LATE).Ok?
  {
    FindsOffer(0);
    OrderIsAcceptable();
    hide Quoted, RowFor, Validated, Acceptable, Blank, InsertDeposit;
    InsertPasses(s, db, Order(10_000), PROMO, QUOTE);
  }

  lemma BanWorld()
    ensures Validated(SETTINGS) && Depositable(SETTINGS, 10_000)
    ensures Exec(SETTINGS, START, ToBan()) ==
              Apply(SETTINGS, WithSecond(Paid(SETTINGS, 0, 10_000, QUOTE)), Reversal())
  {
    SmallQuote();
    hide Exec, Apply, Joined, Offered, Placed, Bought, Paid, Quoted, Depositable, Validated;
    hide Offer, Order, Report, WithSecond, Reversal;
    var (a, b, c, d) := (Register(USER, EMAIL), PutPromo(PROMO, Offer(0)), Check(Order(10_000)),
                         Deposit(0, Order(10_000), 0, TXN));
    var (e, f, g) := (Check(Order(10_000)), PaymentHook(Report(10_000), 0, ROW), Reversal());
    Joins(SETTINGS);
    Offers(SETTINGS, 0);
    Places(SETTINGS, 0, 10_000);
    Buys(SETTINGS, 0, 10_000, QUOTE);
    ChecksSecond();
    PaysFirst();
    SevenSteps(SETTINGS, START, a, b, c, d, e, f, g);
    assert ToBan() == [a, b, c, d, e, f, g];
  }

  /** The chargeback has banned the customer and the recipient, and the second order is under way. */
  lemma BannedUnderWay()
    ensures Validated(SETTINGS) && Depositable(SETTINGS, 10_000) && Quoted(SETTINGS, 10_000, 0) == Some(QUOTE)
    ensures var w := Exec(SETTINGS, START, ToBan());
      && Banned(w.db, EMAIL, UID) && w.checked == map[1 := Order(10_000)]
      && TXN in w.db.transactions && LATE !in w.db.transactions
      && w.db.transactions[TXN].status == TxChargeback && w.db.promos == map[PROMO := Offer(0)]
  {
    SmallQuote();
    BanWorld();
    ReversesFirst();
    var w := WithSecond(Paid(SETTINGS, 0, 10_000, QUOTE));
    assert w.checked == map[1 := Order(10_000)];
    PaidPeople();
    hide Exec, Apply, Enabled, Paid, Quoted, Depositable, Validated, Banned, PeopleOk, Found, Offer, WithSecond;
    ChargebackBans(SETTINGS, w, Reversal());
  }

  lemma PaidPeople()
    ensures PeopleOk(WithSecond(Paid(SETTINGS, 0, 10_000, QUOTE)).db)
  {
    assert Lower(EMAIL) == EMAIL;
  }

  /** A run from the empty service in which a chargeback bans email and recipient, and a transaction
      of that email to that recipient is created after it while both entries stand. */
  lemma SlippedPastBanRun()
    ensures Validated(SETTINGS) && Transactional(ToBan())
    ensures var w1 := Exec(SETTINGS, START, ToBan());
      var w2 := Exec(SETTINGS, w1, [Deposit(1, Order(10_000), 0, LATE)]);
      && TXN in w1.db.transactions && w1.db.transactions[TXN].status == TxChargeback
      && LATE !in w1.db.transactions
      && Banned(w1.db, EMAIL, UID) && Banned(w2.db, EMAIL, UID)
      && LATE in w2.db.transactions && TxnConcerned(w2.db, LATE, EMAIL, UID)
  {
    hide *;
    BannedUnderWay();
    NothingClaimed();
    RunPassed(SETTINGS, ToBan());
    SecondSlipsPast(SETTINGS, Exec(SETTINGS, START, ToBan()));
  }

  lemma SecondSlipsPast(s: Settings, w: World)
    requires Validated(s) && AllPassed(s, w) && Banned(w.db, EMAIL, UID) && Quoted(s, 10_000, 0) == Some(QUOTE)
    requires w.checked == map[1 := Order(10_000)] && LATE !in w.db.transactions
    requires w.db.promos == map[PROMO := Offer(0)]
    ensures var w2 := Exec(s, w, [Deposit(1, Order(10_000), 0, LATE)]);
      && Banned(w2.db, EMAIL, UID)
      && LATE in w2.db.transactions && TxnConcerned(w2.db, LATE, EMAIL, UID)
  {
    hide *;
    SecondConcerned(w);
    InsertsSecond(s, w.db.(bans := map[]));
    UnderWaySlipsPast(s, w, 1, 0, LATE, EMAIL, UID);
  }

  lemma SecondConcerned(w: World)
    requires w.checked == map[1 := Order(10_000)]
    ensures 1 in w.checked && w.checked[1] == Order(10_000) && CheckConcerned(w, 1, EMAIL, UID)
  {
  }

  lemma NothingClaimed()
    ensures Transactional(ToBan())
  {
  }

  // --------------------------------------------- attempts without an end, one by one

  /** When the n-th worker claims: each time just after the last claim has become stale. */
  function ClaimAt(n: nat): Time { n * 301 * SECOND }

  /** A paid order, and n workers that each commit their claim and die. */
  function Crashing(n: nat): seq<Event> {
    if n == 0 then Ordered(0, 10_000) + [PaymentHook(Report(10_000), 0, ROW)]
    else Crashing(n - 1) + [ClaimTask(0, ROW, ClaimAt(n - 1), false)] + [Drop(0)]
  }

  /** The only transfer has n committed claims, and its transaction is still paid. */
  ghost predicate Crashed(w: World, n: nat) {
    && w.workers == map[] && w.db.transfers.Keys == {ROW} && w.db.transactions.Keys == {TXN}
    && w.db.transactions[TXN].status == TxPaid
    && var tr := w.db.transfers[ROW];
    && tr.txId == TXN && tr.attempts == n && tr.scheduledAt <= 0
    && if n == 0 then tr.status == TrPending else tr.status == TrProcessing && tr.updatedAt == ClaimAt(n - 1)
  }

  lemma PaidRun()
    ensures Validated(SETTINGS) && Crashed(Exec(SETTINGS, START, Crashing(0)), 0)
  {
    SmallQuote();
    PaidIsUnclaimed();
    hide Exec, Apply, Joined, Offered, Placed, Bought, Paid, Quoted, Depositable, Validated;
    hide Offer, Order, Report, Crashed;
    var (a, b, c, d) := (Register(USER, EMAIL), PutPromo(PROMO, Offer(0)), Check(Order(10_000)),
                         Deposit(0, Order(10_000), 0, TXN));
    var e := PaymentHook(Report(10_000), 0, ROW);
    Joins(SETTINGS);
    Offers(SETTINGS, 0);
    Places(SETTINGS, 0, 10_000);
    Buys(SETTINGS, 0, 10_000, QUOTE);
    Pays(SETTINGS, 0, 10_000, QUOTE);
    ThreeSteps(SETTINGS, START, a, b, c);
    ExecAppend(SETTINGS, START, [a, b, c], d);
    ExecAppend(SETTINGS, START, [a, b, c] + [d], e);
    assert Crashing(0) == [a, b, c] + [d] + [e];
  }

  lemma PaidIsUnclaimed()
    ensures Crashed(Paid(SETTINGS, 0, 10_000, QUOTE), 0)
  {
  }

  /** The row is claimable when the next worker comes. */
  lemma NextClaims(w: World, n: nat)
    requires Crashed(w, n)
    ensures IsNext(w.db, LockedRows(w), SETTINGS, ClaimAt(n), ROW)
  {
    assert LockedRows(w) == {};
  }

  lemma ClaimsAndDies(w: World, n: nat)
    requires Validated(SETTINGS) && Crashed(w, n)
    ensures Crashed(Apply(SETTINGS, Apply(SETTINGS, w, ClaimTask(0, ROW, ClaimAt(n), false)), Drop(0)), n + 1)
  {
    NextClaims(w, n);
    hide IsNext, ServiceStep, ServiceEnabled, SETTINGS, Validated, ClaimAt;
  }

  /** With claims committed on their own the limit of three attempts does not hold: workers that die
      after claiming use up any number of attempts, and the transfer never ends in error. */
  lemma {:induction false} CrashesUseAttempts(n: nat)
    ensures Validated(SETTINGS)
    ensures var w := Exec(SETTINGS, START, Crashing(n));
      ROW in w.db.transfers && w.db.transfers[ROW].attempts == n && w.db.transfers[ROW].status != TrError
    ensures Crashed(Exec(SETTINGS, START, Crashing(n)), n)
  {
    if n == 0 {
      PaidRun();
    } else {
      CrashesUseAttempts(n - 1);
      hide Exec, Apply, ClaimAt, SETTINGS;
      ExecAppend(SETTINGS, START, Crashing(n - 1), ClaimTask(0, ROW, ClaimAt(n - 1), false));
      ExecAppend(SETTINGS, START, Crashing(n - 1) + [ClaimTask(0, ROW, ClaimAt(n - 1), false)], Drop(0));
      ClaimsAndDies(Exec(SETTINGS, START, Crashing(n - 1)), n - 1);
    }
  }
}
