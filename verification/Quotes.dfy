/** The deposit quote: commission and USDT amount, computed in 28-digit decimals, against
    the exact rational computation. */
module Quotes {
  import opened Common
  import opened Config
  import opened Decimal28

  const FULL: nat := 10_000  // 100 percent, in hundredths of a percent

  /** Rounds q to `places` decimals; the decimal context refuses a result of more than
      28 digits. */
  function Quantize(q: Q, places: nat, down: bool): (r: Option<nat>)
    requires q.den > 0
  {
    var x := q.num * Pow10(places);
    var v := if down then x / q.den else HalfEven(x, q.den);
    if v < Pow10(28) then Some(v) else None
  }

  /** amount * percent / 100, in roubles. */
  function BaseCommission(amountRub: nat, percent: Decimal): (q: Q)
    ensures q.den > 0
  {
    Div(Mul(Q(amountRub, 100), Value(percent)), Q(100, 1))
  }

  /** 100 - discount, in percent. */
  function Kept(discount: nat): (q: Q)
    requires discount <= FULL
    ensures q.den > 0
  {
    Sub(Q(100, 1), Q(discount, 100))
  }

  /** Commission in kopecks: base * (100 - discount) / 100, half-even. */
  function Commission(amountRub: nat, s: Settings, discount: nat): (c: Option<nat>)
    requires discount <= FULL
  {
    Quantize(Div(Mul(BaseCommission(amountRub, s.commissionPercent), Kept(discount)), Q(100, 1)), 2, false)
  }

  /** USDT in 10^-8 parts: the net amount over the rate, truncated. */
  function Usdt(amountRub: nat, commission: nat, s: Settings): (u: Option<nat>)
    requires Validated(s) && commission <= amountRub
  {
    MulLe(commission, amountRub, 100);
    var net := Sub(Q(amountRub, 100), Q(commission, 100));
    Quantize(Div(net, Value(s.rate)), 8, true)
  }

  /** None when the decimal context raises. */
  function CalculateDepositAmounts(amountRub: nat, s: Settings, discount: nat): (r: Option<(nat, nat)>)
    requires Validated(s) && discount <= FULL && amountRub < Pow10(26)
  {
    var c := Commission(amountRub, s, discount);
    CommissionWithinAmount(amountRub, s, discount);
    var u := Usdt(amountRub, c.value, s);
    if u.None? then None else Some((c.value, u.value))
  }

  // ------------------------------------------ for settings of any number of digits

  /** Whatever the number of digits in the settings, the commission is at most the amount. */
  lemma CommissionWithinAmount(amountRub: nat, s: Settings, discount: nat)
    requires Validated(s) && discount <= FULL && amountRub < Pow10(26)
    ensures Commission(amountRub, s, discount).Some?
    ensures Commission(amountRub, s, discount).value <= amountRub
  {
    Pow10Monotone(26, 28);
    PartsPower();
    hide Pow10, Mul, Div, BaseCommission, Kept;
    var base, kept := BaseCommission(amountRub, s.commissionPercent), Kept(discount);
    BaseAtMost(amountRub, s.commissionPercent);
    KeptAtMost(discount);
    MulAtMost(base, kept, amountRub);
    DivBy100AtMost(Mul(base, kept), amountRub);
    var z := Div(Mul(base, kept), Q(100, 1));
    WholeBound(z.num * 100, z.den, amountRub);
  }

  lemma BaseAtMost(amountRub: nat, percent: Decimal)
    requires percent.coef < 100 * Pow10(percent.scale) && amountRub < Pow10(28)
    ensures var q := BaseCommission(amountRub, percent); q.num * 100 <= amountRub * q.den
  {
    MulAtMost(Q(amountRub, 100), Value(percent), amountRub);
    DivBy100AtMost(Mul(Q(amountRub, 100), Value(percent)), amountRub);
  }

  lemma KeptAtMost(discount: nat)
    requires discount <= FULL
    ensures var q := Kept(discount); q.num <= 100 * q.den
  {
    assert Pow10(0) == 1;
    RoundBelow(FULL - discount, 100, 100, 0);
  }

  /** A product of x <= c/100 and a percentage is at most c. */
  lemma MulAtMost(x: Q, y: Q, c: nat)
    requires x.den > 0 && y.den > 0 && c < Pow10(28)
    requires x.num * 100 <= c * x.den && y.num <= 100 * y.den
    ensures var r := Mul(x, y); r.num <= c * r.den
  {
    PositiveProduct(x.den, y.den);
    BoundProduct(x.num, x.den, y.num, y.den, c);
    assert Pow10(0) == 1;
    RoundBelow(x.num * y.num, x.den * y.den, c, 0);
  }

  lemma DivBy100AtMost(x: Q, c: nat)
    requires x.den > 0 && c < Pow10(28) && x.num <= c * x.den
    ensures var r := Div(x, Q(100, 1)); r.num * 100 <= c * r.den
  {
    PositiveProduct(x.den, 100);
    MulAssoc(c, x.den, 100);
    assert Pow10(2) == 100;
    RoundBelow(x.num * 1, x.den * 100, c, 2);
  }

  lemma BoundProduct(bn: nat, bd: nat, kn: nat, kd: nat, a: nat)
    requires bn * 100 <= a * bd && kn <= 100 * kd
    ensures bn * kn <= a * (bd * kd)
  {
    MulLe(kn, 100 * kd, bn);
    MulAssoc(bn, 100, kd);
    MulLe(bn * 100, a * bd, kd);
    MulAssoc(a, bd, kd);
  }

  // --------------------------------------------------- the exact rational quote

  function ShareOf(n: nat, k: nat, m: nat): nat
    requires m > 0
  {
    PositiveOrZero(n, k);
    HalfEven(n * k, m)
  }

  lemma PositiveOrZero(a: nat, b: nat)
    ensures a * b >= 0
  {
  }

  /** The exact commission, amount * percent * (100 - discount), rounded once. */
  function ExactCommission(amountRub: nat, percent: Decimal, discount: nat): (c: nat)
    requires discount <= FULL
  {
    ShareOf(amountRub * percent.coef, FULL - discount, Pow10(percent.scale + 6))
  }

  /** It is the nearest number of kopecks, and the even one of two equally near. */
  lemma ExactCommissionNearest(amountRub: nat, percent: Decimal, discount: nat)
    requires discount <= 10_000
    ensures var (c, unit) := (ExactCommission(amountRub, percent, discount), Pow10(percent.scale + 6));
      var off := 2 * (c * unit) - 2 * ((amountRub * percent.coef) * (10_000 - discount));
      -unit <= off <= unit && (off == unit || off == -unit ==> c % 2 == 0)
  {
    var n := amountRub * percent.coef;
    PositiveOrZero(amountRub, percent.coef);
    PositiveOrZero(n, 10_000 - discount);
    HalfEvenNearest(n * (10_000 - discount), Pow10(percent.scale + 6));
    hide HalfEven, Pow10;
  }

  /** The net amount in 10^-8 roubles times the rate's power of ten: the exact USDT amount
      is this over the rate's coefficient. */
  function Dividend(net: nat, rate: Decimal): (x: nat)
  {
    net * Pow10(6 + rate.scale)
  }

  /** The exact quotient, truncated to eight decimals. */
  function ExactUsdt(net: nat, rate: Decimal): (u: nat)
    requires rate.coef > 0
  {
    Dividend(net, rate) / rate.coef
  }

  /** q is c / 10^j. */
  ghost predicate IsDec(q: Q, c: nat, j: nat) {
    Same(q, c, Pow10(j))
  }

  lemma MulStep(x: Q, y: Q, c1: nat, j1: nat, c2: nat, j2: nat)
    requires IsDec(x, c1, j1) && IsDec(y, c2, j2) && c1 * c2 < Pow10(28)
    ensures IsDec(Mul(x, y), c1 * c2, j1 + j2)
  {
    Pow10Add(j1, j2);
    PositiveProduct(x.den, y.den);
    SameProduct(x.num, x.den, c1, Pow10(j1), y.num, y.den, c2, Pow10(j2));
    RepresentableIsExact(x.num * y.num, x.den * y.den, c1 * c2, j1 + j2);
    SameTrans(Mul(x, y), x.num * y.num, x.den * y.den, c1 * c2, Pow10(j1 + j2));
  }

  lemma SameProduct(a: int, b: int, c: int, p: int, a2: int, b2: int, c2: int, p2: int)
    requires a * p == c * b && a2 * p2 == c2 * b2
    ensures (a * a2) * (p * p2) == (c * c2) * (b * b2)
  {
    MulAssoc(a, a2, p * p2); MulAssoc(a2, p2, p); MulAssoc(a, p, a2 * p2);
    MulAssoc(c, c2, b * b2); MulAssoc(c2, b2, b); MulAssoc(c, b, c2 * b2);
  }

  lemma Div100Step(x: Q, c: nat, j: nat)
    requires IsDec(x, c, j) && c < Pow10(28)
    ensures IsDec(Div(x, Q(100, 1)), c, j + 2)
  {
    Pow10Add(j, 2);
    assert Pow10(2) == 100;
    PositiveProduct(x.den, 100);
    MulAssoc(x.num, Pow10(j), 100);
    MulAssoc(c, x.den, 100);
    RepresentableIsExact(x.num * 1, x.den * 100, c, j + 2);
    SameTrans(Div(x, Q(100, 1)), x.num * 1, x.den * 100, c, Pow10(j + 2));
  }

  lemma HundredthsStep(hi: nat, lo: nat)
    requires lo <= hi < Pow10(28)
    ensures IsDec(Sub(Q(hi, 100), Q(lo, 100)), hi - lo, 2)
  {
    assert Pow10(2) == 100;
    RepresentableIsExact(hi * 100 - lo * 100, 10000, hi - lo, 2);
    SameTrans(Sub(Q(hi, 100), Q(lo, 100)), hi * 100 - lo * 100, 10000, hi - lo, 100);
  }

  lemma KeptStep(discount: nat)
    requires discount <= FULL
    ensures IsDec(Kept(discount), FULL - discount, 2)
  {
    assert Pow10(2) == 100;
    RepresentableIsExact(FULL - discount, 100, FULL - discount, 2);
  }

  /** As long as the product fits in 28 digits the commission is rounded exactly once. */
  lemma CommissionIsExact(amountRub: nat, s: Settings, discount: nat, n: nat)
    requires Validated(s) && discount <= FULL && amountRub < Pow10(26)
    requires n == amountRub * s.commissionPercent.coef && n * FULL < Pow10(28)
    ensures Commission(amountRub, s, discount) == Some(ExactCommission(amountRub, s.commissionPercent, discount))
  {
    CommissionIsExactOrRefused(amountRub, s, discount, n);
    CommissionWithinAmount(amountRub, s, discount);
  }

  lemma CommissionIsExactOrRefused(amountRub: nat, s: Settings, discount: nat, n: nat)
    requires discount <= FULL
    requires n == amountRub * s.commissionPercent.coef && n * FULL < Pow10(28)
    ensures var v := ExactCommission(amountRub, s.commissionPercent, discount);
      Commission(amountRub, s, discount) == if v < Pow10(28) then Some(v) else None
  {
    hide Commission, ExactCommission, ShareOf, Pow10;
    CommissionIsExactAt(amountRub, s, discount, n);
    ExactCommissionAt(amountRub, s.commissionPercent, discount, n);
  }

  lemma ExactCommissionAt(amountRub: nat, percent: Decimal, discount: nat, n: nat)
    requires discount <= FULL && n == amountRub * percent.coef
    ensures ExactCommission(amountRub, percent, discount) == ShareOf(n, FULL - discount, Pow10(percent.scale + 6))
  {
  }

  lemma CommissionIsExactAt(amountRub: nat, s: Settings, discount: nat, n: nat)
    requires discount <= FULL && n == amountRub * s.commissionPercent.coef && n * FULL < Pow10(28)
    ensures Commission(amountRub, s, discount)
         == var v := ShareOf(n, FULL - discount, Pow10(s.commissionPercent.scale + 6));
            if v < Pow10(28) then Some(v) else None
  {
    hide BaseCommission, Kept, Mul, Div, IsDec, Pow10, Quantize;
    KeptFits(n, FULL - discount, Pow10(28));
    BaseStep(amountRub, s.commissionPercent, n);
    KeptStep(discount);
    var base, kept := BaseCommission(amountRub, s.commissionPercent), Kept(discount);
    KeptPart(base, kept, n, s.commissionPercent.scale, FULL - discount, n * (FULL - discount));
    Cents(Div(Mul(base, kept), Q(100, 1)), n * (FULL - discount), s.commissionPercent.scale);
  }

  lemma KeptFits(n: int, k: int, m: int)
    requires 0 <= n && 0 <= k <= FULL && n * FULL < m
    ensures 0 <= n * k < m && n < m
  {
    MulLe(k, FULL, n);
  }

  lemma KeptPart(base: Q, kept: Q, n: nat, scale: nat, k: nat, c: nat)
    requires IsDec(base, n, 4 + scale) && IsDec(kept, k, 2) && c == n * k && c < Pow10(28)
    ensures IsDec(Div(Mul(base, kept), Q(100, 1)), c, 8 + scale)
  {
    PercentStep(base, kept, n, 4 + scale, k, 2);
  }

  lemma BaseStep(amountRub: nat, p: Decimal, n: nat)
    requires n == amountRub * p.coef && n < Pow10(28)
    ensures IsDec(BaseCommission(amountRub, p), n, 4 + p.scale)
  {
    AmountStep(amountRub);
    ValueStep(p);
    hide Mul, Div, Pow10, IsDec, Value;
    PercentStep(Q(amountRub, 100), Value(p), amountRub, 2, p.coef, p.scale);
  }

  lemma ValueStep(p: Decimal)
    ensures IsDec(Value(p), p.coef, p.scale)
  {
    hide Pow10;
  }

  lemma AmountStep(amountRub: nat)
    ensures IsDec(Q(amountRub, 100), amountRub, 2)
  {
    PartsPower();
  }

  /** x * y / 100 */
  lemma PercentStep(x: Q, y: Q, c1: nat, j1: nat, c2: nat, j2: nat)
    requires IsDec(x, c1, j1) && IsDec(y, c2, j2) && c1 * c2 < Pow10(28)
    ensures IsDec(Div(Mul(x, y), Q(100, 1)), c1 * c2, j1 + j2 + 2)
  {
    DenPositive(x, c1, j1);
    DenPositive(y, c2, j2);
    hide *;
    MulStep(x, y, c1, j1, c2, j2);
    PositiveOrZero(c1, c2);
    Div100Step(Mul(x, y), c1 * c2, j1 + j2);
  }

  lemma DenPositive(x: Q, c: nat, j: nat)
    requires IsDec(x, c, j)
    ensures x.den > 0
  {
  }

  lemma Cents(z: Q, c: nat, scale: nat)
    requires IsDec(z, c, 8 + scale)
    ensures Quantize(z, 2, false)
         == var v := HalfEven(c, Pow10(scale + 6)); if v < Pow10(28) then Some(v) else None
  {
    Pow10Add(2, scale + 6);
    MulAssoc(z.num, Pow10(2), Pow10(scale + 6));
    HalfEvenSameValue(z.num * Pow10(2), z.den, c, Pow10(scale + 6));
  }

  // ------------------------------------- the rounded quotient and its truncation

  const PARTS: nat := 100_000_000  // 10^-8 parts of one USDT

  lemma PartsPower()
    ensures Pow10(8) == PARTS && Pow10(2) == 100
  {
  }

  function FloorDiv(n: nat, d: nat): (v: nat)
    requires d > 0
  {
    n / d
  }

  /** x / r parts as USDT, rounded to 28 digits and then truncated to whole parts. */
  function RoundedFloor(x: nat, r: nat): (v: nat)
    requires r > 0
  {
    var q := Round28(x, r * PARTS);
    FloorDiv(q.num * PARTS, q.den)
  }

  lemma UsdtIsRoundedQuotient(amountRub: nat, commission: nat, s: Settings)
    requires Validated(s) && commission <= amountRub < Pow10(26)
    ensures var v := RoundedFloor(Dividend(amountRub - commission, s.rate), s.rate.coef);
      Usdt(amountRub, commission, s) == if v < Pow10(28) then Some(v) else None
  {
    hide Round28, Sub, Div, Dividend;
    var net, r := amountRub - commission, s.rate;
    Pow10Monotone(26, 28);
    HundredthsStep(amountRub, commission);
    var q := Sub(Q(amountRub, 100), Q(commission, 100));
    PartsPower();
    QuotientCanonical(q, net, r);
  }

  lemma QuotientCanonical(q: Q, net: nat, rate: Decimal)
    requires IsDec(q, net, 2) && rate.coef > 0
    ensures Div(q, Value(rate)) == Round28(Dividend(net, rate), rate.coef * PARTS)
  {
    PartsPower();
    PositiveProduct(q.den, rate.coef);
    Pow10Add(6, rate.scale);
    assert Pow10(6) == 1_000_000;
    QuotientSameValue(q.num, q.den, net, rate.coef, Pow10(rate.scale), 1_000_000);
    Round28SameValue(q.num * Pow10(rate.scale), q.den * rate.coef, Dividend(net, rate), rate.coef * PARTS);
  }

  lemma QuotientSameValue(n: int, d: int, net: int, r: int, t: int, m: int)
    requires n * 100 == net * d
    ensures (n * t) * (r * (100 * m)) == (net * (m * t)) * (d * r)
  {
    MulAssoc(n * t, r, 100 * m); MulAssoc(n, t, r); MulAssoc(n * (t * r), 100, m); MulAssoc(n, t * r, 100);
    MulAssoc(net, m * t, d * r); MulAssoc(m * t, d, r); MulAssoc(m * t, r, d); MulAssoc(net, d, (m * t) * r);
    assert (net * (m * t)) * (d * r) == (net * d) * ((m * t) * r);
    assert (n * t) * (r * (100 * m)) == (n * 100) * ((t * r) * m);
    MulAssoc(m, t, r); MulAssoc(t, r, m);
  }

  lemma Bracket(x: int, r: int)
    requires r > 0
    ensures (x / r) * r <= x < (x / r + 1) * r
    ensures (x / r + 1) * r - x == r - x % r
  {
    assert x == (x / r) * r + x % r;
    Distribute(x / r, -1, r);
  }

  // ----------------------------- exactly when rounding first changes the truncation

  /** Half-even rounding of x / r to units of 1 / m reaches the next whole part: the gap to it is
      less than half a unit, or just half a unit and the part an even number of units. */
  predicate ReachesNext(x: nat, r: nat, m: nat)
    requires r > 0
  {
    var gap := 2 * (m * (r - x % r));
    gap < r || (gap == r && ((x / r + 1) * m) % 2 == 0)
  }

  /** Rounding x / r parts to 28 digits reaches the next whole part. */
  predicate RoundingReachesNext(x: nat, r: nat)
    requires r > 0
  {
    x > 0 &&
    var k := Scale(x, r * PARTS);
    k >= 8 && ReachesNext(x, r, Pow10(k - 8))
  }

  /** A quotient that rounding shows at fewer than eight decimals is of 10^28 parts or more. */
  lemma FewPlacesTooLarge(x: nat, r: nat)
    requires r > 0 && x > 0 && Scale(x, r * PARTS) < 8
    ensures x / r >= Pow10(28) && RoundedFloor(x, r) >= Pow10(28)
  {
    LargeQuotient(x, r, Scale(x, r * PARTS));
    hide Scale;
    LargeFloor(x, r);
    Bracket(x, r);
    CancelLt(Pow10(28), x / r + 1, r);
  }

  lemma LargeQuotient(x: nat, r: nat, k: int)
    requires r > 0 && k < 8 && AtLeast28(x, r * PARTS, k)
    ensures Pow10(28) * r <= x
  {
    if x < Pow10(28) * r { PlacesAtLeast(x, r, k, 8, 28); }
  }

  lemma LargeFloor(x: nat, r: nat)
    requires r > 0 && Pow10(28) * r <= x
    ensures RoundedFloor(x, r) >= Pow10(28)
  {
    var z := Pow10(20);
    hide Round28, Pow10;
    TwentyEight(x, r);
    Round28Monotone(z, 1, x, r * PARTS);
    RepresentableIsExact(z, 1, z, 0);
    FloorAtLeast(Round28(z, 1), Round28(x, r * PARTS), z);
  }

  /** 10^20 USDT are 10^28 parts. */
  lemma TwentyEight(x: nat, r: nat)
    requires Pow10(28) * r <= x
    ensures Pow10(20) * PARTS == Pow10(28) && Pow10(20) < Pow10(28) && Pow10(0) == 1
    ensures Pow10(20) * (r * PARTS) <= x * 1
  {
    PartsPower();
    ZeroPower();
    hide Pow10;
    Pow10Add(8, 20);
    TenPowers(Pow10(20), Pow10(28), x, r);
  }

  lemma ZeroPower()
    ensures Pow10(0) == 1 && Pow10(20) > 0
  {
  }

  lemma TenPowers(a: int, b: int, x: int, r: int)
    requires a > 0 && a * PARTS == b && b * r <= x
    ensures a < b && a * (r * PARTS) <= x
  {
    MulAssoc(a, PARTS, r);
  }

  lemma FloorAtLeast(a: Q, q: Q, z: nat)
    requires q.den > 0 && Same(a, z, 1) && AtMost(a, q)
    ensures FloorDiv(q.num * PARTS, q.den) >= z * PARTS
  {
    MulAssoc(z, a.den, q.den);
    MulAssoc(z, q.den, a.den);
    CancelLe(z * q.den, q.num, a.den);
    MulLe(z * q.den, q.num, PARTS);
    MulAssoc(z, PARTS, q.den);
    MulAssoc(z, q.den, PARTS);
    var v := FloorDiv(q.num * PARTS, q.den);
    Bracket(q.num * PARTS, q.den);
    CancelLt(z * PARTS, v + 1, q.den);
  }

  /** The division gives the exact truncation, or the next part if and only if rounding reaches
      it; from 10^28 parts on, both are out of the decimal context's reach. */
  lemma RoundedFloorExactIff(x: nat, r: nat)
    requires r > 0
    ensures var v := if RoundingReachesNext(x, r) then x / r + 1 else x / r;
      RoundedFloor(x, r) == v || (RoundedFloor(x, r) >= Pow10(28) && v >= Pow10(28))
  {
    hide RoundedFloor, ReachesNext, Pow10, Scale;
    if x == 0 {
      ZeroQuotient(r);
    } else if Scale(x, r * PARTS) >= 8 {
      RoundedFloorExactAt(x, r, Scale(x, r * PARTS));
    } else {
      FewPlacesTooLarge(x, r);
    }
  }

  lemma ZeroQuotient(r: nat)
    requires r > 0
    ensures RoundedFloor(0, r) == 0 == 0 / r
  {
    assert Round28(0, r * PARTS) == Q(0, 1);
  }

  lemma RoundedFloorExactAt(x: nat, r: nat, k: int)
    requires x > 0 && r > 0 && k >= 8 && k == Scale(x, r * PARTS)
    ensures RoundedFloor(x, r) == (if ReachesNext(x, r, Pow10(k - 8)) then x / r + 1 else x / r)
  {
    hide RoundedFloor, Scale, ReachesNext, Pow10;
    RoundedFloorAt(x, r, k);
    Crossing(x, r, Pow10(k - 8));
  }

  /** x / r rounded to units of 1 / m and truncated. */
  function TruncatedAt(x: nat, r: nat, m: nat): (v: nat)
    requires r > 0 && m > 0
  {
    PositiveOrZero(x, m);
    FloorDiv(HalfEven(x * m, r), m)
  }

  /** A small quotient is rounded at many decimal places. */
  lemma PlacesAtLeast(x: nat, r: nat, k: int, places: nat, e: nat)
    requires r > 0 && AtLeast28(x, r * PARTS, k) && places >= 1 && e + places == 36
    requires x < Pow10(e) * r
    ensures k >= places
  {
    if k < places {
      var top := places - 1;
      AtLeastShift(x, r * PARTS, k, top - k);
      WholePower(top);
      Pow10Add(e, top);
      Pow10Add(27, 8);
      PartsPower();
      MulLe(1, Pow10(top - k), Pow10(27));
      TooBig(x, r, Pow10(27), Pow10(top - k), Pow10(top), Pow10(e));
    }
  }

  lemma TooBig(x: int, r: int, z: int, t: int, p: int, b: int)
    requires r > 0 && z > 0 && p > 0 && z <= z * t && b * p == z * PARTS
    requires (z * t) * (r * PARTS * 1) <= x * p
    ensures b * r <= x
  {
    PositiveProduct(r, PARTS);
    MulLe(z, z * t, r * PARTS);
    assert z * (r * PARTS) == (b * r) * p by { MulAssoc(z, PARTS, r); MulAssoc(b, p, r); }
    CancelLe(b * r, x, p);
  }

  lemma RoundedFloorAt(x: nat, r: nat, k: int)
    requires x > 0 && r > 0 && k >= 8 && k == Scale(x, r * PARTS)
    ensures RoundedFloor(x, r) == TruncatedAt(x, r, Pow10(k - 8))
  {
    PartsPower();
    hide HalfEven, Scale, RoundAt, Pow10;
    RoundAtFineGrid(x, r * PARTS, k);
    Pow10Add(k - 8, 8);
    var m := Pow10(k - 8);
    MulAssoc(x, m, PARTS);
    SameByParts(x * m, r);
    HalfEvenSameValue((x * m) * PARTS, r * PARTS, x * m, r);
    FloorByParts(HalfEven(x * m, r), m);
  }

  lemma SameByParts(n: int, r: int)
    ensures (n * PARTS) * r == n * (r * PARTS)
  {
    MulAssoc(n, PARTS, r);
  }

  lemma FloorByParts(h: nat, m: nat)
    requires m > 0
    ensures FloorDiv(h * PARTS, m * PARTS) == h / m
  {
    var v := h / m;
    Bracket(h, m);
    var a, b := h * PARTS, m * PARTS;
    MulAssoc(v, m, PARTS);
    MulAssoc(v + 1, m, PARTS);
    var w := a / b;
    Bracket(a, b);
    CancelLt(v, w + 1, b);
    CancelLt(w, v + 1, b);
  }

  lemma Crossing(x: nat, r: nat, m: nat)
    requires r > 0 && m > 0
    ensures TruncatedAt(x, r, m) == (if ReachesNext(x, r, m) then x / r + 1 else x / r)
  {
    var f, g := x / r, r - x % r;
    var h := HalfEven(x * m, r);
    Bracket(x, r);
    // f * m <= h <= (f + 1) * m
    MulLe(f * r, x, m);
    MulLe(x, (f + 1) * r, m);
    MulAssoc(f, r, m);
    MulAssoc(f + 1, r, m);
    WholeBound(x * m, r, f * m);
    WholeBound(x * m, r, (f + 1) * m);
    HalfEvenNearest(x * m, r);
    hide HalfEven;
    Gap(x, f, g, r, m, h);
    if ReachesNext(x, r, m) {
      assert h == (f + 1) * m;
      QuotientIs(h, m, f + 1);
    } else {
      QuotientIs(h, m, f);
    }
  }

  lemma QuotientIs(h: int, m: int, f: int)
    requires m > 0 && f * m <= h < f * m + m
    ensures h / m == f
  {
    Bracket(h, m);
    Distribute(f, -1, m);
    CancelLt(f, h / m + 1, m);
    CancelLt(h / m, f + 1, m);
  }

  lemma Gap(x: int, f: int, g: int, r: int, m: int, h: int)
    requires r > 0 && m > 0 && f * m <= h <= (f + 1) * m
    requires (f + 1) * r - x == g
    requires var s := 2 * (x * m) - 2 * (h * r);
      0 <= s + r && s <= r && (s == r || s + r == 0 ==> h % 2 == 0)
    ensures h == (f + 1) * m <==> 2 * (m * g) < r || (2 * (m * g) == r && ((f + 1) * m) % 2 == 0)
    ensures (f + 1) * m == f * m + m
  {
    var top := (f + 1) * m;
    Distribute(f, -1, m);
    GapTop(x, f, g, r, m);
    GapCore(top * r - x * m, top, h, r, x * m);
  }

  lemma GapTop(x: int, f: int, g: int, r: int, m: int)
    requires (f + 1) * r - x == g
    ensures m * g == ((f + 1) * m) * r - x * m
  {
    Distribute((f + 1) * r, x, m);
    MulAssoc(f + 1, r, m);
  }

  /** With gap = top * r - xm, the nearest integer h <= top to xm / r is top exactly when the gap
      is less than half of r, or half of r and top even. */
  lemma GapCore(gap: int, top: int, h: int, r: int, xm: int)
    requires r > 0 && h <= top && gap == top * r - xm
    requires var s := 2 * xm - 2 * (h * r); 0 <= s + r && s <= r && (s == r || s + r == 0 ==> h % 2 == 0)
    ensures h == top <==> 2 * gap < r || (2 * gap == r && top % 2 == 0)
  {
    Distribute(top, h, r);
    if h < top {
      MulLe(1, top - h, r);
      if 2 * gap <= r {
        CancelLe(top - h, 1, r);
        assert h == top - 1;
      }
    }
  }

  // --------------------------------------------------------------- main results

  /** For any settings: the USDT amount is the exact truncated quotient or one 10^-8 part
      above it, and it is above exactly when 28-digit rounding reaches the next part.  It exists
      exactly while it has at most 28 digits. */
  lemma UsdtExactIff(amountRub: nat, commission: nat, s: Settings)
    requires Validated(s) && commission <= amountRub < Pow10(26)
    ensures var up := RoundingReachesNext(Dividend(amountRub - commission, s.rate), s.rate.coef);
      var exact := ExactUsdt(amountRub - commission, s.rate);
      var v := if up then exact + 1 else exact;
      Usdt(amountRub, commission, s) == if v < Pow10(28) then Some(v) else None
  {
    hide Usdt, RoundedFloor, RoundingReachesNext, Dividend, Pow10;
    UsdtIsRoundedQuotient(amountRub, commission, s);
    RoundedFloorExactIff(Dividend(amountRub - commission, s.rate), s.rate.coef);
  }

  /** The USDT amount is worth no more than the net amount, at the full rate, if and only if
      rounding does not reach the next part. */
  lemma UsdtAffordableIff(amountRub: nat, commission: nat, s: Settings)
    requires Validated(s) && commission <= amountRub < Pow10(26) && Usdt(amountRub, commission, s).Some?
    ensures var x := Dividend(amountRub - commission, s.rate);
      Usdt(amountRub, commission, s).value * s.rate.coef <= x <==> !RoundingReachesNext(x, s.rate.coef)
  {
    hide Usdt, RoundingReachesNext, Pow10, Dividend;
    UsdtExactIff(amountRub, commission, s);
    Bracket(Dividend(amountRub - commission, s.rate), s.rate.coef);
  }

  /** Settings for which it does reach the next part: 100 roubles at 1 + 10^-30 roubles per USDT
      give 100 USDT where the exact quotient truncates to 99.99999999. */
  lemma LongRateRoundsUp(s: Settings)
    requires Validated(s) && s.rate == Decimal(Pow10(30) + 1, 30)
    ensures Usdt(10_000, 0, s) == Some(100 * PARTS) && ExactUsdt(10_000, s.rate) == 100 * PARTS - 1
  {
    var x, r := Dividend(10_000, s.rate), s.rate.coef;
    LongRateNumbers(x, r);
    RoundsUpAt(x, r, 26, 1_000_000_000_000_000_000);
    assert Pow10(27) > 100 * PARTS by { Pow10Add(11, 16); assert Pow10(11) == 100_000_000_000; }
    UsdtExactIff(10_000, 0, s);
  }

  lemma LongRateNumbers(x: nat, r: nat)
    requires x == 10_000 * Pow10(36) && r == Pow10(30) + 1
    ensures x / r == 100 * PARTS - 1 && r - x % r == 10_000_000_000
    ensures Pow10(18) == 1_000_000_000_000_000_000
    ensures Pow10(27) * (r * PARTS) <= x * Pow10(26) < Pow10(28) * (r * PARTS)
    ensures 2 * (1_000_000_000_000_000_000 * 10_000_000_000) <= r
  {
    assert Pow10(10) == 10_000_000_000 && Pow10(8) == PARTS;
    Pow10Add(8, 10);
    Pow10Add(10, 10); Pow10Add(20, 10); Pow10Add(30, 6);
    assert Pow10(6) == 1_000_000;
    Pow10Add(8, 18); Pow10Add(1, 26); Pow10Add(1, 27);
  }

  lemma RoundsUpAt(x: nat, r: nat, k: int, m: nat)
    requires x > 0 && r > 0 && k >= 9 && m == Pow10(k - 8)
    requires Pow10(27) * (r * PARTS) <= x * Pow10(k) < Pow10(28) * (r * PARTS)
    requires ReachesNext(x, r, m)
    ensures RoundingReachesNext(x, r)
  {
    WholePower(k);
    assert AtLeast28(x, r * PARTS, k) && Below28(x, r * PARTS, k);
    ScaleUnique(x, r * PARTS, k, Scale(x, r * PARTS));
  }

  /** With a rate of at least one and at most 11 digits it never does, for any amount the
      request schema allows. */
  lemma ShortRateNeverRoundsUp(net: nat, s: Settings)
    requires Validated(s) && ShortRate(s) && net <= SCHEMA_MAX
    ensures !RoundingReachesNext(Dividend(net, s.rate), s.rate.coef)
    ensures ExactUsdt(net, s.rate) < Pow10(27)
  {
    DividendBound(net, s.rate);
    FineGridNeverRoundsUp(Dividend(net, s.rate), s.rate.coef);
    QuotientBelow(Dividend(net, s.rate), s.rate.coef, Pow10(17));
    Pow10Monotone(17, 27);
  }

  lemma QuotientBelow(x: nat, r: nat, b: nat)
    requires r > 0 && x < b * r
    ensures x / r < b
  {
    Bracket(x, r);
    CancelLt(x / r, b, r);
  }

  lemma FineGridNeverRoundsUp(x: nat, r: nat)
    requires 0 < r < Pow10(11) && x < Pow10(17) * r
    ensures !RoundingReachesNext(x, r)
  {
    if x > 0 {
      hide Pow10, Scale;
      var k := Scale(x, r * PARTS);
      PlacesAtLeast(x, r, k, 19, 17);
      Pow10Monotone(11, k - 8);
      FineGap(r, r - x % r, Pow10(k - 8));
    }
  }

  lemma FineGap(r: nat, g: nat, m: nat)
    requires r < m && g >= 1
    ensures 2 * (m * g) > r
  {
    MulLe(1, g, m);
  }

  lemma DividendBound(net: nat, rate: Decimal)
    requires net <= SCHEMA_MAX && Pow10(rate.scale) <= rate.coef
    ensures Dividend(net, rate) < Pow10(17) * rate.coef
  {
    Pow10Add(6, rate.scale);
    assert Pow10(6) == 1_000_000;
    assert Pow10(17) == 100_000_000_000_000_000;
    MulLe(net, SCHEMA_MAX, Pow10(6 + rate.scale));
  }

  /** The quote is the exact rational one: one half-even rounding to kopecks, one truncation
      to eight decimals. */
  lemma QuoteIsExact(amountRub: nat, s: Settings, discount: nat)
    requires Validated(s) && ShortPercent(s) && ShortRate(s) && amountRub <= SCHEMA_MAX && discount <= FULL
    ensures SCHEMA_MAX < Pow10(26)
    ensures var c := ExactCommission(amountRub, s.commissionPercent, discount);
      && c <= amountRub
      && CalculateDepositAmounts(amountRub, s, discount) == Some((c, ExactUsdt(amountRub - c, s.rate)))
  {
    SchemaFits();
    hide Commission, Usdt, ExactCommission, ExactUsdt, Pow10;
    ShortCommission(amountRub, s, discount);
    ShortUsdt(amountRub, ExactCommission(amountRub, s.commissionPercent, discount), s);
  }

  lemma SchemaFits()
    ensures SCHEMA_MAX < Pow10(26)
  {
  }

  lemma ShortCommission(amountRub: nat, s: Settings, discount: nat)
    requires Validated(s) && ShortPercent(s) && amountRub <= SCHEMA_MAX < Pow10(26) && discount <= FULL
    ensures var c := ExactCommission(amountRub, s.commissionPercent, discount);
      c <= amountRub && Commission(amountRub, s, discount) == Some(c)
  {
    hide Commission, ExactCommission, Pow10;
    ShortProduct(amountRub, s.commissionPercent.coef);
    CommissionIsExact(amountRub, s, discount, amountRub * s.commissionPercent.coef);
    CommissionWithinAmount(amountRub, s, discount);
  }

  lemma ShortUsdt(amountRub: nat, commission: nat, s: Settings)
    requires Validated(s) && ShortRate(s) && commission <= amountRub <= SCHEMA_MAX < Pow10(26)
    ensures Usdt(amountRub, commission, s) == Some(ExactUsdt(amountRub - commission, s.rate))
  {
    hide Usdt, ExactUsdt, RoundingReachesNext, Pow10;
    Pow10Monotone(27, 28);
    ShortRateNeverRoundsUp(amountRub - commission, s);
    UsdtExactIff(amountRub, commission, s);
  }

  lemma ShortProduct(a: nat, p: nat)
    requires a <= SCHEMA_MAX && p < Pow10(11)
    ensures (a * p) * FULL < Pow10(28)
  {
    assert Pow10(11) == 100_000_000_000;
    MulLe(a, SCHEMA_MAX, p);
    assert a * p <= 1_000_000_000_000_000_000_000;
    Pow10Add(11, 17);
    assert Pow10(17) == 100_000_000_000_000_000;
  }

  /** u parts are worth at most net at the rate. */
  predicate Within(u: nat, net: nat, rate: Decimal) {
    u * rate.coef <= Dividend(net, rate)
  }

  /** u is the largest whole number of 10^-8 parts whose value at the rate is within net. */
  predicate LargestWithin(u: nat, net: nat, rate: Decimal) {
    Within(u, net, rate) && !Within(u + 1, net, rate)
  }

  lemma ExactUsdtIsLargest(net: nat, rate: Decimal)
    requires rate.coef > 0
    ensures LargestWithin(ExactUsdt(net, rate), net, rate)
  {
    Bracket(Dividend(net, rate), rate.coef);
  }

  /** The net amount of a quote. */
  function NetOf(amountRub: nat, s: Settings, discount: nat): (net: nat)
    requires Validated(s) && discount <= FULL && amountRub < Pow10(26)
    ensures net <= amountRub
  {
    CommissionWithinAmount(amountRub, s, discount);
    amountRub - Commission(amountRub, s, discount).value
  }

  /** Rounding the quotient of this quote to 28 digits reaches the next part. */
  predicate RoundsUp(amountRub: nat, s: Settings, discount: nat)
    requires Validated(s) && discount <= FULL && amountRub < Pow10(26)
  {
    RoundingReachesNext(Dividend(NetOf(amountRub, s, discount), s.rate), s.rate.coef)
  }

  /** Quote laws, for any settings: 0 <= commission <= amount, and the USDT amount is the largest
      whole number of 10^-8 parts whose value at the rate is within the net amount, or, exactly
      when rounding reaches the next part, one part more.  There is a quote exactly while the USDT
      amount has at most 28 digits. */
  lemma QuoteLaws(amountRub: nat, s: Settings, discount: nat)
    requires Validated(s) && amountRub < Pow10(26) && discount <= FULL
    ensures var (q, net) := (CalculateDepositAmounts(amountRub, s, discount), NetOf(amountRub, s, discount));
      var v := if RoundsUp(amountRub, s, discount) then ExactUsdt(net, s.rate) + 1 else ExactUsdt(net, s.rate);
      && LargestWithin(ExactUsdt(net, s.rate), net, s.rate)
      && q == if v < Pow10(28) then Some((amountRub - net, v)) else None
  {
    hide Commission, Usdt, RoundingReachesNext, Pow10, Dividend;
    CommissionWithinAmount(amountRub, s, discount);
    UsdtExactIff(amountRub, Commission(amountRub, s, discount).value, s);
    ExactUsdtIsLargest(NetOf(amountRub, s, discount), s.rate);
  }

  /** With a rate of at least one and at most 11 digits the quote always exists and is within the
      net amount, whatever the commission percent. */
  lemma ShortRateQuoteLaws(amountRub: nat, s: Settings, discount: nat)
    requires Validated(s) && ShortRate(s) && amountRub <= SCHEMA_MAX && discount <= FULL
    ensures SCHEMA_MAX < Pow10(26) && !RoundsUp(amountRub, s, discount)
    ensures var q := CalculateDepositAmounts(amountRub, s, discount);
      q.Some? && q.value.0 <= amountRub && LargestWithin(q.value.1, amountRub - q.value.0, s.rate)
  {
    SchemaFits();
    hide RoundingReachesNext, Pow10, Dividend, CalculateDepositAmounts, NetOf, ExactUsdt, LargestWithin, ShortRate;
    Pow10Monotone(27, 28);
    QuoteLaws(amountRub, s, discount);
    ShortRateNeverRoundsUp(NetOf(amountRub, s, discount), s);
  }
}
