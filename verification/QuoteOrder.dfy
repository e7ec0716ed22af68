/** How quotes compare: more money or more discount never buys less. */
module QuoteOrder {
  import opened Common
  import opened Config
  import opened Decimal28
  import opened Quotes

  // ------------------------------------------------------- the operations are monotone

  lemma MulMonotone(x: Q, y1: Q, y2: Q)
    requires x.den > 0 && y1.den > 0 && y2.den > 0 && AtMost(y1, y2)
    ensures AtMost(Mul(x, y1), Mul(x, y2))
  {
    PositiveProduct(x.den, y1.den);
    PositiveProduct(x.den, y2.den);
    SameFactor(x.num, x.den, y1.num, y1.den, y2.num, y2.den);
    hide Round28;
    Round28Monotone(x.num * y1.num, x.den * y1.den, x.num * y2.num, x.den * y2.den);
  }

  lemma SameFactor(xn: nat, xd: nat, n1: nat, d1: nat, n2: nat, d2: nat)
    requires n1 * d2 <= n2 * d1
    ensures (xn * n1) * (xd * d2) <= (xn * n2) * (xd * d1)
  {
    PositiveOrZero(xn, xd);
    MulLe(n1 * d2, n2 * d1, xn * xd);
    MulAssoc(xn, n1, xd * d2); MulAssoc(n1, xd, d2); MulAssoc(n1, d2, xd); MulAssoc(xn, xd, n1 * d2);
    MulAssoc(xn, n2, xd * d1); MulAssoc(n2, xd, d1); MulAssoc(n2, d1, xd); MulAssoc(xn, xd, n2 * d1);
  }

  lemma Div100Monotone(x1: Q, x2: Q)
    requires x1.den > 0 && x2.den > 0 && AtMost(x1, x2)
    ensures AtMost(Div(x1, Q(100, 1)), Div(x2, Q(100, 1)))
  {
    MulAssoc(x1.num, x2.den, 100);
    MulAssoc(x2.num, x1.den, 100);
    hide Round28;
    Round28Monotone(x1.num * 1, x1.den * 100, x2.num * 1, x2.den * 100);
  }

  lemma CentsMonotone(q1: Q, q2: Q)
    requires q1.den > 0 && q2.den > 0 && AtMost(q1, q2)
    ensures HalfEven(q1.num * 100, q1.den) <= HalfEven(q2.num * 100, q2.den)
  {
    MulAssoc(q1.num, q2.den, 100);
    MulAssoc(q2.num, q1.den, 100);
    HalfEvenMonotone(q1.num * 100, q1.den, q2.num * 100, q2.den);
  }

  lemma FloorMonotone(q1: Q, q2: Q)
    requires q1.den > 0 && q2.den > 0 && AtMost(q1, q2)
    ensures FloorDiv(q1.num * PARTS, q1.den) <= FloorDiv(q2.num * PARTS, q2.den)
  {
    var (v1, v2) := (FloorDiv(q1.num * PARTS, q1.den), FloorDiv(q2.num * PARTS, q2.den));
    Bracket(q1.num * PARTS, q1.den);
    Bracket(q2.num * PARTS, q2.den);
    FloorCore(q1.num * PARTS, q1.den, q2.num * PARTS, q2.den, v1, v2, q1.num, q2.num);
  }

  lemma FloorCore(n1: int, d1: int, n2: int, d2: int, v1: int, v2: int, a1: int, a2: int)
    requires d1 > 0 && d2 > 0 && v1 * d1 <= n1 && n2 < (v2 + 1) * d2
    requires n1 == a1 * PARTS && n2 == a2 * PARTS && a1 * d2 <= a2 * d1
    ensures v1 <= v2
  {
    MulLe(a1 * d2, a2 * d1, PARTS);
    MulAssoc(a1, PARTS, d2);
    MulAssoc(a1, d2, PARTS);
    MulAssoc(a2, PARTS, d1);
    MulAssoc(a2, d1, PARTS);
    MulLe(v1 * d1, n1, d2);
    MulLt(n2, (v2 + 1) * d2, d1);
    MulAssoc(v1, d1, d2);
    MulAssoc(v2 + 1, d2, d1);
    PositiveProduct(d1, d2);
    CancelLt(v1, v2 + 1, d1 * d2);
  }

  // ------------------------------------------------------------------ the discount

  function Share(amountRub: nat, s: Settings, discount: nat): (z: Q)
    requires discount <= FULL
    ensures z.den > 0
  {
    Div(Mul(BaseCommission(amountRub, s.commissionPercent), Kept(discount)), Q(100, 1))
  }

  lemma CommissionIs(amountRub: nat, s: Settings, discount: nat)
    requires Validated(s) && discount <= FULL && amountRub < Pow10(26)
    ensures var z := Share(amountRub, s, discount);
      Commission(amountRub, s, discount) == Some(HalfEven(z.num * 100, z.den))
  {
    assert Pow10(2) == 100;
    hide BaseCommission, Kept, Mul, Div, HalfEven;
    CommissionWithinAmount(amountRub, s, discount);
  }

  /** A larger discount never gives a larger commission. */
  lemma CommissionByDiscount(amountRub: nat, s: Settings, d1: nat, d2: nat)
    requires Validated(s) && d1 <= d2 <= FULL && amountRub < Pow10(26)
    ensures Commission(amountRub, s, d1).Some? && Commission(amountRub, s, d2).Some?
    ensures Commission(amountRub, s, d2).value <= Commission(amountRub, s, d1).value
  {
    KeptOrder(d1, d2);
    CommissionIs(amountRub, s, d1);
    CommissionIs(amountRub, s, d2);
    hide Commission, BaseCommission, Kept, Mul, Div, HalfEven, AtMost;
    var base := BaseCommission(amountRub, s.commissionPercent);
    MulMonotone(base, Kept(d2), Kept(d1));
    Div100Monotone(Mul(base, Kept(d2)), Mul(base, Kept(d1)));
    CentsMonotone(Share(amountRub, s, d2), Share(amountRub, s, d1));
  }

  lemma KeptOrder(d1: nat, d2: nat)
    requires d1 <= d2 <= FULL
    ensures AtMost(Kept(d2), Kept(d1))
  {
    KeptStep(d1);
    KeptStep(d2);
    assert Pow10(2) == 100;
    hide Kept;
    KeptCore(Kept(d2).num, Kept(d2).den, Kept(d1).num, Kept(d1).den, FULL - d2, FULL - d1);
  }

  lemma KeptCore(n2: int, m2: int, n1: int, m1: int, k2: int, k1: int)
    requires m1 > 0 && m2 > 0 && k2 <= k1 && n2 * 100 == k2 * m2 && n1 * 100 == k1 * m1
    ensures n2 * m1 <= n1 * m2
  {
    PositiveProduct(m1, m2);
    MulLe(k2, k1, m1 * m2);
    MulAssoc(k2, m2, m1);
    MulAssoc(k1, m1, m2);
    MulAssoc(n2, 100, m1);
    MulAssoc(n1, 100, m2);
    MulAssoc(n2, m1, 100);
    MulAssoc(n1, m2, 100);
  }

  // -------------------------------------------------------------------- the amount

  const FINE: nat := 2_000_000_000_000_000_000_000_000_000  // 2 * 10^27

  /** q differs from n/m by at most c parts in 2 * 10^27. */
  ghost predicate Near(q: Q, n: nat, m: nat, c: nat) {
    && q.den > 0 && m > 0
    && FINE * (q.num * m - n * q.den) <= c * (n * q.den)
    && FINE * (n * q.den - q.num * m) <= c * (n * q.den)
  }

  lemma FineIs()
    ensures FINE == 2 * Pow10(27)
  {
    assert Pow10(9) == 1_000_000_000;
    Pow10Add(9, 9);
    Pow10Add(18, 9);
  }

  lemma RoundNear(n: nat, m: nat)
    requires m > 0
    ensures Near(Round28(n, m), n, m, 1)
  {
    FineIs();
    Round28Close(n, m);
    hide Round28, Pow10;
  }

  /** Scaling by a/b and rounding once more adds two parts. */
  lemma NearStep(q: Q, n: nat, m: nat, c: nat, a: nat, b: nat)
    requires Near(q, n, m, c) && c <= 8 && b > 0
    ensures m * b > 0 && q.den * b > 0
    ensures Near(Round28(q.num * a, q.den * b), n * a, m * b, c + 2)
  {
    PositiveProduct(m, b);
    PositiveProduct(q.den, b);
    RoundNear(q.num * a, q.den * b);
    var r := Round28(q.num * a, q.den * b);
    hide Round28;
    Scaled(q.num, q.den, n, m, c, a, b);
    PositiveOrZero(q.num, a);
    PositiveOrZero(n, a);
    NearCore(q.num * a, q.den * b, n * a, m * b, c, r.num, r.den);
  }

  lemma Scaled(qn: nat, qd: nat, n: nat, m: nat, c: nat, a: nat, b: nat)
    requires FINE * (qn * m - n * qd) <= c * (n * qd) && FINE * (n * qd - qn * m) <= c * (n * qd)
    ensures FINE * ((qn * a) * (m * b) - (n * a) * (qd * b)) <= c * ((n * a) * (qd * b))
    ensures FINE * ((n * a) * (qd * b) - (qn * a) * (m * b)) <= c * ((n * a) * (qd * b))
  {
    PositiveOrZero(a, b);
    var (x, y, ab) := (qn * m, n * qd, a * b);
    assert (qn * a) * (m * b) == x * ab by {
      MulAssoc(qn, a, m * b); MulAssoc(a, m, b); MulAssoc(m, a, b); MulAssoc(qn, m, ab);
    }
    assert (n * a) * (qd * b) == y * ab by {
      MulAssoc(n, a, qd * b); MulAssoc(a, qd, b); MulAssoc(qd, a, b); MulAssoc(n, qd, ab);
    }
    ScaledBy(x, y, c, ab);
  }

  lemma ScaledBy(x: int, y: int, c: int, k: int)
    requires k >= 0 && FINE * (x - y) <= c * y && FINE * (y - x) <= c * y
    ensures FINE * (x * k - y * k) <= c * (y * k) && FINE * (y * k - x * k) <= c * (y * k)
  {
    MulLe(FINE * (x - y), c * y, k);
    MulLe(FINE * (y - x), c * y, k);
    MulAssoc(c, y, k);
    MulAssoc(FINE, x - y, k);
    MulAssoc(FINE, y - x, k);
    Distribute(x, y, k);
    Distribute(y, x, k);
  }

  /** If A/B is within c parts of N/D and s/t within one part of A/B, s/t is within c + 2 parts of
      N/D. */
  lemma NearCore(a: nat, b: nat, n: nat, d: nat, c: nat, s: nat, t: nat)
    requires b > 0 && d > 0 && t > 0 && c <= 8
    requires FINE * (a * d - n * b) <= c * (n * b) && FINE * (n * b - a * d) <= c * (n * b)
    requires FINE * (s * b - a * t) <= a * t && FINE * (a * t - s * b) <= a * t
    ensures FINE * (s * d - n * t) <= (c + 2) * (n * t) && FINE * (n * t - s * d) <= (c + 2) * (n * t)
  {
    // with everything over b * d * t: |s/t - n/d| <= |s/t - a/b| + |a/b - n/d|
    var (x, y, z) := ((s * d) * b, (n * t) * b, (a * t) * d);
    ScaledBy(a * d, n * b, c, t);
    assert (a * d) * t == z by { MulAssoc(a, d, t); MulAssoc(a, t, d); }
    assert (n * b) * t == y by { MulAssoc(n, b, t); MulAssoc(n, t, b); }
    ScaledBy(s * b, a * t, 1, d);
    assert (s * b) * d == x by { MulAssoc(s, b, d); MulAssoc(s, d, b); }
    PositiveOrZero(n, t);
    PositiveOrZero(n * t, b);
    CloseAndNear(x, y, z, c);
    Unscale(s * d, n * t, c + 2, b);
  }

  lemma CloseAndNear(x: int, y: int, z: int, c: int)
    requires 0 <= c <= 8 && y >= 0
    requires FINE * (z - y) <= c * y && FINE * (y - z) <= c * y && FINE * (x - z) <= z && FINE * (z - x) <= z
    ensures FINE * (x - y) <= (c + 2) * y && FINE * (y - x) <= (c + 2) * y
  {
    MulLe(c, 8, y);
    assert z <= 2 * y;
    Distribute(c, -2, y);
  }

  lemma Unscale(x: int, y: int, c: int, k: int)
    requires k > 0 && FINE * (x * k - y * k) <= c * (y * k) && FINE * (y * k - x * k) <= c * (y * k)
    ensures FINE * (x - y) <= c * y && FINE * (y - x) <= c * y
  {
    Distribute(x, y, k);
    Distribute(y, x, k);
    MulAssoc(c, y, k);
    MulAssoc(FINE, x - y, k);
    MulAssoc(FINE, y - x, k);
    CancelLe(FINE * (x - y), c * y, k);
    CancelLe(FINE * (y - x), c * y, k);
  }

  /** Being near depends on the value of n/m only. */
  lemma NearSame(q: Q, n: nat, m: nat, n2: nat, m2: nat, c: nat)
    requires Near(q, n, m, c) && m2 > 0 && n * m2 == n2 * m
    ensures Near(q, n2, m2, c)
  {
    ScaledBy(q.num * m, n * q.den, c, m2);
    MulAssoc(q.num, m, m2);
    MulAssoc(q.num, m2, m);
    MulAssoc(n, q.den, m2);
    MulAssoc(n, m2, q.den);
    MulAssoc(n2, m, q.den);
    MulAssoc(n2, q.den, m);
    Unscale(q.num * m2, n2 * q.den, c, m);
  }

  /** percent * (100 - discount), whose ratio to Whole is the commission's share of the amount. */
  function Weight(s: Settings, discount: nat): (w: nat)
    requires discount <= FULL
  {
    PositiveOrZero(s.commissionPercent.coef, FULL - discount);
    s.commissionPercent.coef * (FULL - discount)
  }

  function Whole(s: Settings): (m: nat)
    ensures m > 0
  {
    Pow10(s.commissionPercent.scale + 6)
  }

  lemma BaseNear(amountRub: nat, p: Decimal)
    ensures amountRub * p.coef >= 0
    ensures Near(BaseCommission(amountRub, p), amountRub * p.coef, 100 * Pow10(p.scale) * 100, 3)
  {
    var (n, m) := (amountRub * p.coef, 100 * Pow10(p.scale));
    PositiveOrZero(amountRub, p.coef);
    hide Near, Round28, Pow10;
    RoundNear(n, m);
    NearStep(Mul(Q(amountRub, 100), Value(p)), n, m, 1, 1, 100);
  }

  /** The four roundings of the commission leave its share within seven parts in 2 * 10^27. */
  lemma ShareNear(amountRub: nat, s: Settings, discount: nat)
    requires discount <= FULL
    ensures amountRub * Weight(s, discount) >= 0
    ensures Near(Share(amountRub, s, discount), amountRub * Weight(s, discount), Whole(s) * 100, 7)
  {
    var (p, kept) := (s.commissionPercent, Kept(discount));
    var (n, m) := (amountRub * p.coef, 100 * Pow10(p.scale) * 100);
    hide Near, BaseCommission, Kept, Round28, Pow10;
    BaseNear(amountRub, p);
    PositiveOrZero(amountRub, Weight(s, discount));
    var base := BaseCommission(amountRub, p);
    NearStep(base, n, m, 3, kept.num, kept.den);
    PositiveOrZero(n, kept.num);
    NearStep(Mul(base, kept), n * kept.num, m * kept.den, 5, 1, 100);
    hide Mul, Div;
    ShareIs(amountRub, s, discount, kept, n, m);
    NearSame(Share(amountRub, s, discount), n * kept.num * 1, m * kept.den * 100,
             amountRub * Weight(s, discount), Whole(s) * 100, 7);
  }

  lemma ShareIs(amountRub: nat, s: Settings, discount: nat, kept: Q, n: nat, m: nat)
    requires discount <= FULL && kept == Kept(discount)
    requires n == amountRub * s.commissionPercent.coef && m == 100 * Pow10(s.commissionPercent.scale) * 100
    ensures n * kept.num * 1 * (Whole(s) * 100) == amountRub * Weight(s, discount) * (m * kept.den * 100)
    ensures m * kept.den * 100 > 0 && n * kept.num >= 0
  {
    ShareTerms(s, discount);
    var (t, whole, weight) := (Pow10(s.commissionPercent.scale), Whole(s), Weight(s, discount));
    hide *;
    ShareParts(amountRub, s.commissionPercent.coef, FULL - discount, t, kept.num, kept.den, n, m, whole, weight);
  }

  lemma ShareTerms(s: Settings, discount: nat)
    requires discount <= FULL
    ensures Whole(s) == Pow10(s.commissionPercent.scale) * 1_000_000
    ensures Weight(s, discount) == s.commissionPercent.coef * (FULL - discount)
    ensures Kept(discount).num * 100 == (FULL - discount) * Kept(discount).den
  {
    KeptStep(discount);
    SmallPowers();
    Pow10Add(s.commissionPercent.scale, 6);
    hide Kept, Pow10;
  }

  lemma ShareParts(a: int, p: int, k: int, t: int, kn: int, kd: int, n: int, m: int, whole: int, weight: int)
    requires n == a * p && n >= 0 && kn >= 0 && m == 100 * t * 100 && t > 0 && kd > 0 && kn * 100 == k * kd
    requires whole == t * 1_000_000 && weight == p * k
    ensures n * kn * 1 * (whole * 100) == a * weight * (m * kd * 100)
    ensures m * kd * 100 > 0 && n * kn >= 0
  {
    SameShare(a, p, k, t, kn, kd);
    PositiveProduct(m, kd);
    MulLe(0, n, kn);
  }

  lemma SmallPowers()
    ensures Pow10(2) == 100 && Pow10(6) == 1_000_000
  {
  }

  lemma SameShare(a: int, p: int, k: int, t: int, kn: int, kd: int)
    requires kn * 100 == k * kd
    ensures ((((a * p) * 1) * kn) * 1) * ((t * 1_000_000) * 100)
         == (a * (p * k)) * ((((100 * t) * 100) * kd) * 100)
  {
    var ap := a * p;
    MulAssoc(a, p, k);
    MulAssoc(ap * kn, t, 100_000_000);
    MulAssoc(ap, kn, t);
    MulAssoc(ap, k, t * kd);
    MulAssoc(k, kd, t);
    MulAssoc(kn, 100, t);
    assert (ap * kn) * (t * 100_000_000) == (ap * (kn * t)) * 100_000_000;
    assert (kn * 100) * t == k * (t * kd) by { MulAssoc(k, t, kd); MulAssoc(t, kd, k); }
    assert 100 * (kn * t) == k * (t * kd) by { MulAssoc(100, kn, t); }
    assert (ap * k) * (t * kd) == ap * (100 * (kn * t));
    MulAssoc(ap, 100, kn * t);
    MulAssoc(t, kd, 1_000_000);
    MulAssoc(ap * k, t * kd, 1_000_000);
  }

  const TIGHT: nat := 10_000_000_000_000_000  // 10^16

  /** The rounded commission c is within half a kopeck of its exact share, give or take 10^-16. */
  ghost predicate HalfWithin(amountRub: int, w: int, m: int, c: int) {
    && TIGHT * (2 * (amountRub * w) - 2 * (c * m)) <= (TIGHT + 2) * m
    && TIGHT * (2 * (c * m) - 2 * (amountRub * w)) <= (TIGHT + 2) * m
  }

  lemma CommissionWithin(amountRub: nat, s: Settings, discount: nat)
    requires Validated(s) && discount <= FULL && amountRub <= SCHEMA_MAX < Pow10(26)
    ensures Commission(amountRub, s, discount).Some?
    ensures Weight(s, discount) < Whole(s)
    ensures HalfWithin(amountRub, Weight(s, discount), Whole(s), Commission(amountRub, s, discount).value)
  {
    var (w, m) := (Weight(s, discount), Whole(s));
    var z := Share(amountRub, s, discount);
    CommissionIs(amountRub, s, discount);
    ShareNear(amountRub, s, discount);
    WeightBelow(s, discount);
    HalfEvenNearest(z.num * 100, z.den);
    var c := HalfEven(z.num * 100, z.den);
    hide Commission, Share, Weight, Whole, HalfEven, Pow10;
    SharesClose(amountRub, w, m, z.num, z.den);
    HalfWithinCore(amountRub * w, m, z.num * 100, z.den, c);
  }

  lemma WeightBelow(s: Settings, discount: nat)
    requires Validated(s) && discount <= FULL
    ensures Weight(s, discount) < Whole(s)
  {
    Pow10Add(s.commissionPercent.scale, 6);
    assert Pow10(6) == 1_000_000;
    MulLe(FULL - discount, FULL, s.commissionPercent.coef);
  }

  /** In kopecks the computed share is within 10^-16 of the exact one. */
  lemma SharesClose(a: nat, w: nat, m: nat, zn: nat, zd: nat)
    requires a <= SCHEMA_MAX && w < m && zd > 0
    requires a * w >= 0 && Near(Q(zn, zd), a * w, m * 100, 7)
    ensures TIGHT * ((zn * 100) * m - (a * w) * zd) <= zd * m
    ensures TIGHT * ((a * w) * zd - (zn * 100) * m) <= zd * m
  {
    MulLe(a, SCHEMA_MAX, w);
    MulLe(w, m, SCHEMA_MAX);
    MulLe(a * w, SCHEMA_MAX * m, zd);
    MulAssoc(SCHEMA_MAX, m, zd);
    MulAssoc(zn, 100, m);
    assert zn * (m * 100) == (zn * 100) * m;
    PositiveOrZero(m, zd);
    SharesCore((zn * 100) * m, (a * w) * zd, m * zd);
  }

  lemma SharesCore(x: int, y: int, z: int)
    requires FINE * (x - y) <= 7 * y && FINE * (y - x) <= 7 * y && y <= SCHEMA_MAX * z && z >= 0
    ensures TIGHT * (x - y) <= z && TIGHT * (y - x) <= z
  {
  }

  lemma HalfWithinCore(aw: int, m: int, zn: int, zd: int, c: int)
    requires m > 0 && zd > 0
    requires TIGHT * (zn * m - aw * zd) <= zd * m && TIGHT * (aw * zd - zn * m) <= zd * m
    requires var slack := 2 * zn - 2 * (c * zd); slack <= zd && 0 <= slack + zd
    ensures TIGHT * (2 * aw - 2 * (c * m)) <= (TIGHT + 2) * m && TIGHT * (2 * (c * m) - 2 * aw) <= (TIGHT + 2) * m
  {
    var (x, y) := (2 * aw - 2 * (c * m), 2 * (c * m) - 2 * aw);
    MulLe(2 * zn - 2 * (c * zd), zd, m);
    MulLe(2 * (c * zd) - 2 * zn, zd, m);
    Distribute(2 * zn, 2 * (c * zd), m);
    Distribute(2 * (c * zd), 2 * zn, m);
    MulAssoc(2, zn, m);
    MulAssoc(2, c * zd, m);
    MulAssoc(c, zd, m);
    MulAssoc(c, m, zd);
    Distribute(2 * aw, 2 * (c * m), zd);
    Distribute(2 * (c * m), 2 * aw, zd);
    MulAssoc(2, aw, zd);
    MulAssoc(2, c * m, zd);
    MulAssoc(TIGHT, x, zd);
    MulAssoc(TIGHT, y, zd);
    MulAssoc(TIGHT + 2, m, zd);
    assert TIGHT * (x * zd) <= (TIGHT + 2) * (m * zd);
    assert TIGHT * (y * zd) <= (TIGHT + 2) * (m * zd);
    CancelLe(TIGHT * x, (TIGHT + 2) * m, zd);
    CancelLe(TIGHT * y, (TIGHT + 2) * m, zd);
  }

  /** A commission below 100 percent grows no faster than the amount: half-even rounding of two
      shares can differ by one kopeck more only if the percent is within 10^-16 of 100, and then
      it takes the whole amount. */
  lemma CommissionByAmount(a1: nat, a2: nat, s: Settings, discount: nat)
    requires Validated(s) && a1 <= a2 <= SCHEMA_MAX < Pow10(26) && discount <= FULL
    ensures Commission(a1, s, discount).Some? && Commission(a2, s, discount).Some?
    ensures Commission(a2, s, discount).value - Commission(a1, s, discount).value <= a2 - a1
  {
    hide Commission, Weight, Whole, Pow10, HalfWithin;
    CommissionWithin(a1, s, discount);
    CommissionWithin(a2, s, discount);
    CommissionWithinAmount(a2, s, discount);
    if a1 < a2 {
      GrowsSlower(a1, a2, Weight(s, discount), Whole(s),
                  Commission(a1, s, discount).value, Commission(a2, s, discount).value);
    }
  }

  lemma GrowsSlower(a1: int, a2: int, w: int, m: int, c1: int, c2: int)
    requires 0 <= a1 < a2 <= SCHEMA_MAX && 0 <= w < m && c2 <= a2
    requires HalfWithin(a1, w, m, c1) && HalfWithin(a2, w, m, c2)
    ensures c2 - c1 <= a2 - a1
  {
    if c2 - c1 > a2 - a1 {
      NearlyAll(a1, a2, w, m, c1, c2);
      TakesAll(a1, w, m, c1);
    }
  }

  /** A jump of one kopeck too many leaves no more than 2 / 10^16 of the amount. */
  lemma NearlyAll(a1: int, a2: int, w: int, m: int, c1: int, c2: int)
    requires a1 < a2 && 0 <= w < m && c2 - c1 > a2 - a1
    requires HalfWithin(a1, w, m, c1) && HalfWithin(a2, w, m, c2)
    ensures TIGHT * (m - w) <= 2 * m
  {
    var d := a2 - a1;
    MulLe(d + 1, c2 - c1, m);
    Distribute(c2, c1, m);
    Distribute(d, -1, m);
    Distribute(a2, a1, w);
    Distribute(m, w, d);
    MulLe(1, d, m - w);
    assert 2 * m + 2 * (d * (m - w)) <= 2 * (c2 * m - c1 * m) - 2 * (a2 * w - a1 * w);
  }

  lemma TakesAll(a: int, w: int, m: int, c: int)
    requires 0 <= a <= SCHEMA_MAX && 0 <= w < m && HalfWithin(a, w, m, c) && TIGHT * (m - w) <= 2 * m
    ensures a <= c
  {
    MulLe(a, SCHEMA_MAX, m - w);
    Distribute(m, w, a);
    Distribute(a, c, m);
    if c < a {
      MulLe(1, a - c, m);
    }
  }

  // ------------------------------------------------------------------ main result

  lemma UsdtByNet(a1: nat, c1: nat, a2: nat, c2: nat, s: Settings)
    requires Validated(s) && c1 <= a1 < Pow10(26) && c2 <= a2 < Pow10(26) && a1 - c1 <= a2 - c2
    ensures Usdt(a2, c2, s).Some? ==> Usdt(a1, c1, s).Some? && Usdt(a1, c1, s).value <= Usdt(a2, c2, s).value
  {
    hide Usdt, RoundedFloor, Dividend, Pow10;
    UsdtIsRoundedQuotient(a1, c1, s);
    UsdtIsRoundedQuotient(a2, c2, s);
    DividendOrder(a1 - c1, a2 - c2, s.rate);
    RoundedFloorMonotone(Dividend(a1 - c1, s.rate), Dividend(a2 - c2, s.rate), s.rate.coef);
  }

  lemma DividendOrder(n1: nat, n2: nat, rate: Decimal)
    requires n1 <= n2
    ensures Dividend(n1, rate) <= Dividend(n2, rate)
  {
    MulLe(n1, n2, Pow10(6 + rate.scale));
  }

  lemma RoundedFloorMonotone(x1: nat, x2: nat, r: nat)
    requires x1 <= x2 && r > 0
    ensures RoundedFloor(x1, r) <= RoundedFloor(x2, r)
  {
    hide Round28, AtMost, FloorDiv;
    MulLe(x1, x2, r * PARTS);
    Round28Monotone(x1, r * PARTS, x2, r * PARTS);
    FloorMonotone(Round28(x1, r * PARTS), Round28(x2, r * PARTS));
  }

  /** For any settings a larger amount or discount never yields less USDT, and a larger discount
      never more commission; if the larger quote exists, so does the smaller. */
  lemma QuoteMonotone(a1: nat, a2: nat, s: Settings, d1: nat, d2: nat)
    requires Validated(s) && a1 <= a2 <= SCHEMA_MAX && d1 <= d2 <= FULL
    ensures SCHEMA_MAX < Pow10(26)
    ensures var (q1, q2) := (CalculateDepositAmounts(a1, s, d1), CalculateDepositAmounts(a2, s, d2));
      q2.Some? ==> q1.Some? && q1.value.1 <= q2.value.1 && (a1 == a2 ==> q2.value.0 <= q1.value.0)
  {
    SchemaFits();
    hide Commission, Usdt, Pow10;
    CommissionWithinAmount(a1, s, d1);
    CommissionWithinAmount(a2, s, d2);
    CommissionByAmount(a1, a2, s, d1);
    CommissionByDiscount(a2, s, d1, d2);
    UsdtByNet(a1, Commission(a1, s, d1).value, a2, Commission(a2, s, d2).value, s);
  }
}
