/** Python's `decimal` arithmetic at the default precision of 28 significant digits, on
    non-negative values.  A value is a fraction; every operation is the exact result
    rounded half-even to 28 digits, which is how the decimal context defines it. */
module Decimal28 {

  // ------------------------------------------------------------- integer facts

  lemma MulLe(a: int, b: int, c: int)
    requires a <= b && c >= 0
    ensures a * c <= b * c
  {
  }

  lemma MulLt(a: int, b: int, c: int)
    requires a < b && c > 0
    ensures a * c < b * c
  {
  }

  lemma CancelLe(a: int, b: int, c: int)
    requires c > 0 && a * c <= b * c
    ensures a <= b
  {
    if a > b { MulLt(b, a, c); }
  }

  lemma CancelLt(a: int, b: int, c: int)
    requires c >= 0 && a * c < b * c
    ensures a < b
  {
    if a >= b { MulLe(b, a, c); }
  }

  lemma MulAssoc(a: int, b: int, c: int)
    ensures (a * b) * c == a * (b * c)
    ensures (a * b) * c == (a * c) * b
  {
  }

  function Pow10(k: nat): (p: nat)
    ensures p >= 1
  {
    if k == 0 then 1 else 10 * Pow10(k - 1)
  }

  lemma {:induction false} Pow10Add(a: nat, b: nat)
    ensures Pow10(a + b) == Pow10(a) * Pow10(b)
  {
    if a > 0 {
      Pow10Add(a - 1, b);
      MulAssoc(10, Pow10(a - 1), Pow10(b));
      assert Pow10(a + b) == 10 * Pow10(a - 1 + b);
    }
  }

  lemma {:induction false} Pow10Monotone(a: nat, b: nat)
    requires a <= b
    ensures Pow10(a) <= Pow10(b)
    decreases b - a
  {
    if a < b {
      Pow10Monotone(a + 1, b);
    }
  }

  /** The number of decimal digits, with one digit for zero. */
  function Digits(n: nat): (d: nat)
    ensures d >= 1 && n < Pow10(d)
    ensures n > 0 ==> Pow10(d - 1) <= n
  {
    if n < 10 then
      assert Pow10(1) == 10 * Pow10(0);
      1
    else
      1 + Digits(n / 10)
  }

  // ---------------------------------------------------------------- rounding

  /** The integer nearest to n/m, the even one of two at equal distance. */
  function HalfEven(n: nat, m: nat): (q: nat)
    requires m > 0
    ensures q == n / m || q == n / m + 1
  {
    var q, r := n / m, n % m;
    if 2 * r < m || (2 * r == m && q % 2 == 0) then q else q + 1
  }

  /** Twice the distance from n/m to its rounding, times m. */
  ghost function Slack(n: nat, m: nat): int
    requires m > 0
  {
    2 * n - 2 * (HalfEven(n, m) * m)
  }

  /** HalfEven(n, m) is within half a unit of n/m, and even at exactly half. */
  lemma HalfEvenNearest(n: nat, m: nat)
    requires m > 0
    ensures 0 <= Slack(n, m) + m && Slack(n, m) <= m
    ensures Slack(n, m) == m || Slack(n, m) + m == 0 ==> HalfEven(n, m) % 2 == 0
  {
    var q := n / m;
    assert n == q * m + n % m;
    assert (q + 1) * m == q * m + m;
  }

  /** Half-even rounding is monotone in the value of the fraction. */
  lemma HalfEvenMonotone(n1: nat, m1: nat, n2: nat, m2: nat)
    requires m1 > 0 && m2 > 0
    requires n1 * m2 <= n2 * m1
    ensures HalfEven(n1, m1) <= HalfEven(n2, m2)
  {
    HalfEvenNearest(n1, m1);
    HalfEvenNearest(n2, m2);
    SlackScaled(n1, m1, HalfEven(n1, m1), m2);
    SlackScaled(n2, m2, HalfEven(n2, m2), m1);
    SlackOrder(HalfEven(n1, m1), HalfEven(n2, m2), m1 * m2, n1 * m2, n2 * m1);
    if HalfEven(n1, m1) == HalfEven(n2, m2) + 1 {
      CancelEq(Slack(n1, m1) + m1, 0, m2);
      CancelEq(Slack(n2, m2) - m2, 0, m1);
    }
  }

  lemma SlackScaled(n: int, m: int, q: int, c: int)
    requires c > 0
    ensures var s := 2 * n - 2 * (q * m);
      && s * c == 2 * (n * c) - 2 * (q * (m * c))
      && (0 <= s + m ==> 0 <= s * c + m * c)
      && (s <= m ==> s * c <= m * c)
      && (s + m) * c == s * c + m * c
      && (s - m) * c == s * c - m * c
  {
    var s := 2 * n - 2 * (q * m);
    MulAssoc(q, m, c);
    Distribute(2 * n, 2 * (q * m), c);
    MulAssoc(2, n, c);
    MulAssoc(2, q * m, c);
    Distribute(s, -m, c);
    Distribute(s, m, c);
    assert (-m) * c == -(m * c);
    if s <= m { MulLe(s, m, c); }
    if 0 <= s + m { MulLe(0, s + m, c); }
  }

  lemma Distribute(a: int, b: int, c: int)
    ensures (a - b) * c == a * c - b * c
  {
  }

  lemma SlackOrder(a: int, b: int, mm: int, x1: int, x2: int)
    requires mm > 0 && x1 <= x2
    requires 2 * x1 - 2 * (a * mm) + mm >= 0 && 2 * x2 - 2 * (b * mm) <= mm
    ensures a <= b + 1
    ensures a == b + 1 ==> 2 * x1 - 2 * (a * mm) + mm == 0 && 2 * x2 - 2 * (b * mm) == mm
  {
    Distribute(a, b, mm);
    CancelLe(a - b, 1, mm);
  }

  lemma CancelEq(a: int, b: int, c: int)
    requires c > 0 && a * c == b * c
    ensures a == b
  {
    CancelLe(a, b, c);
    CancelLe(b, a, c);
  }

  /** It depends only on the value of the fraction, not on how it is written. */
  lemma HalfEvenSameValue(n1: nat, m1: nat, n2: nat, m2: nat)
    requires m1 > 0 && m2 > 0
    requires n1 * m2 == n2 * m1
    ensures HalfEven(n1, m1) == HalfEven(n2, m2)
  {
    HalfEvenMonotone(n1, m1, n2, m2);
    HalfEvenMonotone(n2, m2, n1, m1);
  }

  /** A whole number is left alone. */
  lemma HalfEvenWhole(c: nat, m: nat)
    requires m > 0
    ensures HalfEven(c * m, m) == c
  {
    var q := HalfEven(c * m, m);
    HalfEvenNearest(c * m, m);
    WholeCore(c, q, m);
  }

  lemma WholeCore(c: int, q: int, m: int)
    requires m > 0 && 0 <= 2 * (c * m) - 2 * (q * m) + m && 2 * (c * m) - 2 * (q * m) <= m
    ensures c == q
  {
    Distribute(c, q, m);
    if c > q { MulLe(1, c - q, m); }
    if c < q { MulLe(1, q - c, m); Distribute(q, c, m); }
  }

  // ------------------------------------------------------ 28 significant digits

  datatype Q = Q(num: nat, den: nat)

  /** q is the fraction n/m. */
  ghost predicate Same(q: Q, n: nat, m: nat) {
    q.den > 0 && q.num * m == n * q.den
  }

  /** 10^k, and 1 for a negative k. */
  function P(k: int): (p: nat)
    ensures p >= 1
  {
    if k > 0 then Pow10(k) else 1
  }

  /** Does n/m written with k decimal places have at most 28 digits before the point? */
  predicate Below28(n: nat, m: nat, k: int) {
    n * P(k) < Pow10(28) * (m * P(-k))
  }

  predicate AtLeast28(n: nat, m: nat, k: int) {
    Pow10(27) * (m * P(-k)) <= n * P(k)
  }

  /** The number of decimal places at which n/m shows exactly 28 digits. */
  function Scale(n: nat, m: nat): (k: int)
    requires n > 0 && m > 0
    ensures AtLeast28(n, m, k) && Below28(n, m, k)
  {
    var k := 28 - Digits(n) + Digits(m);
    ScaleBounds(n, m, k, 27);
    if Below28(n, m, k) then k else
      OneStepDown(n, m, k);
      k - 1
  }

  lemma ScaleBounds(n: nat, m: nat, k: int, e: nat)
    requires n > 0 && m > 0 && k == e + 1 - Digits(n) + Digits(m)
    ensures Pow10(e) * (m * P(-k)) <= n * P(k) < Pow10(e + 2) * (m * P(-k))
  {
    var dn, dm := Digits(n), Digits(m);
    PowersMeet(dn - 1, k, e, dm);
    PowersMeet(dn, k, e + 2, dm - 1);
    Squeeze(n, m, Pow10(dn - 1), Pow10(dn), Pow10(dm - 1), Pow10(dm), P(k), P(-k), Pow10(e), Pow10(e + 2));
  }

  lemma Squeeze(n: int, m: int, n0: int, n1: int, m0: int, m1: int, up: int, down: int, z: int, w: int)
    requires n0 <= n < n1 && m0 <= m <= m1 && up > 0 && down > 0 && z >= 0 && w >= 0
    requires n0 * up == z * (m1 * down) && n1 * up == w * (m0 * down)
    ensures z * (m * down) <= n * up < w * (m * down)
  {
    Chain(z, m, m1, down);
    Chain(w, m0, m, down);
    MulLe(n0, n, up);
    MulLt(n, n1, up);
  }

  lemma Chain(z: int, a: int, b: int, c: int)
    requires z >= 0 && c >= 0 && a <= b
    ensures z * (a * c) <= z * (b * c)
  {
    MulLe(a, b, c);
    MulLe(a * c, b * c, z);
  }

  lemma PowersMeet(a: nat, k: int, b: nat, c: nat)
    requires a + k == b + c
    ensures Pow10(a) * P(k) == Pow10(b) * (Pow10(c) * P(-k))
  {
    Pow10Add(b, c);
    MulAssoc(Pow10(b), Pow10(c), P(-k));
    if k >= 0 {
      Pow10Add(a, k);
      assert P(k) == Pow10(k) && P(-k) == 1;
    } else {
      Pow10Add(b + c, -k);
      assert P(k) == 1 && P(-k) == Pow10(-k);
    }
  }

  lemma OneStepDown(n: nat, m: nat, k: int)
    requires !Below28(n, m, k) && n * P(k) < Pow10(29) * (m * P(-k))
    ensures AtLeast28(n, m, k - 1) && Below28(n, m, k - 1)
  {
    ThreePowers();
    TenTimesUp(k);
    var (p, q, p1, q1) := (P(k), P(-k), P(k - 1), P(-(k - 1)));
    var (z, w, v) := (Pow10(27), Pow10(28), Pow10(29));
    hide P, Pow10;
    if k > 0 {
      DownAbove(n, m, p1, q, z, w, v);
    } else {
      DownBelow(n, m, p, q, z, w, v);
    }
  }

  lemma ThreePowers()
    ensures Pow10(28) == 10 * Pow10(27) && Pow10(29) == 10 * Pow10(28)
  {
  }

  lemma TenTimesUp(k: int)
    ensures if k > 0 then P(k) == 10 * P(k - 1) && P(-k) == P(-(k - 1))
            else P(k) == P(k - 1) && P(-(k - 1)) == 10 * P(-k)
  {
  }

  lemma DownAbove(n: int, m: int, p: int, q: int, z: int, w: int, v: int)
    requires w == 10 * z && v == 10 * w && !(n * (10 * p) < w * (m * q)) && n * (10 * p) < v * (m * q)
    ensures z * (m * q) <= n * p < w * (m * q)
  {
    MulAssoc(n, p, 10);
    MulAssoc(10, z, m * q);
    MulAssoc(10, w, m * q);
  }

  lemma DownBelow(n: int, m: int, p: int, q: int, z: int, w: int, v: int)
    requires w == 10 * z && v == 10 * w && !(n * p < w * (m * q)) && n * p < v * (m * q)
    ensures z * (m * (10 * q)) <= n * p < w * (m * (10 * q))
  {
    MulAssoc(m, q, 10);
    MulAssoc(z, 10, m * q);
    MulAssoc(w, 10, m * q);
  }

  lemma PositiveProduct(a: int, b: int)
    requires a > 0 && b > 0
    ensures a * b > 0
  {
  }

  /** n/m rounded half-even to 28 significant digits. */
  function Round28(n: nat, m: nat): (r: Q)
    requires m > 0
    ensures r.den > 0
  {
    if n == 0 then Q(0, 1) else RoundAt(n, m, Scale(n, m))
  }

  /** n/m rounded half-even to k decimal places. */
  function RoundAt(n: nat, m: nat, k: int): (r: Q)
    requires m > 0
    ensures r.den > 0
  {
    PositiveProduct(m, P(-k));
    Q(HalfEven(n * P(k), m * P(-k)) * P(-k), P(k))
  }

  /** A value that needs no more than 28 digits is not changed by rounding. */
  lemma RepresentableIsExact(n: nat, m: nat, c: nat, j: nat)
    requires m > 0 && c < Pow10(28) && n * Pow10(j) == c * m
    ensures Same(Round28(n, m), n, m)
  {
    if n > 0 {
      var k := Scale(n, m);
      ScaleReaches(n, m, c, j, k);
      RoundAtFine(n, m, c, j, k);
    }
  }

  lemma RoundAtFine(n: nat, m: nat, c: nat, j: nat, k: int)
    requires m > 0 && k >= j && n * Pow10(j) == c * m
    ensures Same(RoundAt(n, m, k), n, m)
  {
    Pow10Add(j, k - j);
    var d := Pow10(k - j);
    assert P(k) == Pow10(k) && P(-k) == 1;
    MulAssoc(n, Pow10(j), d);
    MulAssoc(c, m, d);
    HalfEvenWhole(c * d, m);
  }

  lemma ScaleReaches(n: nat, m: nat, c: nat, j: nat, k: int)
    requires m > 0 && c < Pow10(28) && n * Pow10(j) == c * m
    requires AtLeast28(n, m, k)
    ensures k >= j
  {
    MulLt(c, Pow10(28), m);
    if k < 0 {
      assert P(k) == 1 && P(-k) == 10 * Pow10(-k - 1);
      TooLarge(n, m, Pow10(27), 10 * Pow10(-k - 1), Pow10(j));
    } else if k < j {
      Pow10Add(k, j - k);
      assert P(k) == Pow10(k) && P(-k) == 1;
      MulAssoc(n, Pow10(k), Pow10(j - k));
      assert Pow10(j - k) == 10 * Pow10(j - k - 1);
      TooLarge(n * Pow10(k), m, Pow10(27), 1, Pow10(j - k));
    }
  }

  lemma TooLarge(n: int, m: int, z: int, p: int, q: int)
    requires m > 0 && z > 0 && p >= 1 && q >= 1 && (p >= 10 || q >= 10)
    requires z * (m * p) <= n
    ensures n * q >= (10 * z) * m
  {
    MulLe(1, p, m);
    MulLe(m, m * p, z);
    MulAssoc(10, z, m);
    MulAssoc(z, m, 10);
    if p >= 10 {
      MulLe(10, p, m);
      MulLe(10 * m, m * p, z);
      MulAssoc(z, 10, m);
      MulLe(1, q, n);
    } else {
      MulLe(10, q, n);
    }
  }

  function Mul(a: Q, b: Q): (r: Q)
    requires a.den > 0 && b.den > 0
    ensures r.den > 0
  {
    PositiveProduct(a.den, b.den);
    Round28(a.num * b.num, a.den * b.den)
  }

  function Div(a: Q, b: Q): (r: Q)
    requires a.den > 0 && b.den > 0 && b.num > 0
    ensures r.den > 0
  {
    PositiveProduct(a.den, b.num);
    Round28(a.num * b.den, a.den * b.num)
  }

  /** a - b, for a >= b. */
  function Sub(a: Q, b: Q): (r: Q)
    requires a.den > 0 && b.den > 0 && b.num * a.den <= a.num * b.den
    ensures r.den > 0
  {
    PositiveProduct(a.den, b.den);
    Round28(a.num * b.den - b.num * a.den, a.den * b.den)
  }

  // ------------------------------------------- rounding depends on the value only

  lemma PowerRatio(k: int, d: nat)
    ensures P(k + d) * P(-k) == (P(k) * P(-(k + d))) * Pow10(d)
  {
    if k >= 0 {
      Pow10Add(k, d);
    } else if k + d >= 0 {
      Pow10Add(k + d, -k);
      assert P(k + d) == Pow10(k + d) && P(-k) == Pow10(-k);
    } else {
      Pow10Add(-(k + d), d);
      assert P(-k) == Pow10(-k) && P(-(k + d)) == Pow10(-(k + d));
    }
  }

  /** With more decimal places n/m only grows. */
  lemma AtLeastShift(n: nat, m: nat, k: int, d: nat)
    requires AtLeast28(n, m, k)
    ensures (Pow10(27) * Pow10(d)) * (m * P(-(k + d))) <= n * P(k + d)
  {
    PowerRatio(k, d);
    ShiftCore(n, m, Pow10(27), P(k), P(-k), P(k + d), P(-(k + d)), Pow10(d));
  }

  lemma ShiftCore(n: int, m: int, z: int, u: int, v: int, u1: int, v1: int, t: int)
    requires z * (m * v) <= n * u && u1 * v == (u * v1) * t
    requires v > 0 && v1 > 0 && t > 0
    ensures (z * t) * (m * v1) <= n * u1
  {
    PositiveProduct(v1, t);
    MulLe(z * (m * v), n * u, v1 * t);
    assert (n * u) * (v1 * t) == (n * u1) * v by {
      MulAssoc(n, u, v1 * t);
      MulAssoc(u, v1, t);
      MulAssoc(n, u1, v);
    }
    assert (z * (m * v)) * (v1 * t) == ((z * t) * (m * v1)) * v by {
      MulAssoc(m, v, v1 * t);
      MulAssoc(m, v1 * t, v);
      MulAssoc(m, v1, t);
      MulAssoc(z, m * v, v1 * t);
      MulAssoc(z, (m * v1) * t, v);
      MulAssoc(z, t, m * v1);
    }
    CancelLe((z * t) * (m * v1), n * u1, v);
  }

  lemma ScaleUnique(n: nat, m: nat, k: int, l: int)
    requires m > 0
    requires AtLeast28(n, m, k) && Below28(n, m, k)
    requires AtLeast28(n, m, l) && Below28(n, m, l)
    ensures k == l
  {
    if k < l { ScaleNotAbove(n, m, k, l); }
    if l < k { ScaleNotAbove(n, m, l, k); }
  }

  lemma TenMore(k: nat)
    requires k > 0
    ensures Pow10(k) == 10 * Pow10(k - 1) && Pow10(k) >= 10
  {
  }

  lemma ScaleNotAbove(n: nat, m: nat, k: int, l: int)
    requires k < l && m > 0 && AtLeast28(n, m, k)
    ensures !Below28(n, m, l)
  {
    hide Pow10, P;
    AtLeastShift(n, m, k, l - k);
    TenMore(l - k);
    TenMore(28);
    MulLe(10, Pow10(l - k), Pow10(27));
    MulLe(Pow10(28), Pow10(27) * Pow10(l - k), m * P(-l));
  }

  /** Two ways to write one value round to the same fraction. */
  lemma Round28SameValue(n1: nat, m1: nat, n2: nat, m2: nat)
    requires m1 > 0 && m2 > 0 && n1 * m2 == n2 * m1
    ensures Round28(n1, m1) == Round28(n2, m2)
  {
    hide RoundAt, Pow10, P;
    if n1 == 0 || n2 == 0 {
      if n1 > 0 { PositiveProduct(n1, m2); }
      if n2 > 0 { PositiveProduct(n2, m1); }
    } else {
      var k := Scale(n1, m1);
      SameRange(n1, m1, n2, m2, Pow10(27), P(k), P(-k));
      SameRange(n1, m1, n2, m2, Pow10(28), P(k), P(-k));
      ScaleUnique(n2, m2, k, Scale(n2, m2));
      RoundAtSameValue(n1, m1, n2, m2, k);
    }
  }

  lemma RoundAtSameValue(n1: nat, m1: nat, n2: nat, m2: nat, k: int)
    requires m1 > 0 && m2 > 0 && n1 * m2 == n2 * m1
    ensures RoundAt(n1, m1, k) == RoundAt(n2, m2, k)
  {
    SameScaled(n1, m1, n2, m2, P(k), P(-k));
    PositiveProduct(m1, P(-k));
    PositiveProduct(m2, P(-k));
    HalfEvenSameValue(n1 * P(k), m1 * P(-k), n2 * P(k), m2 * P(-k));
  }

  lemma SameScaled(n1: int, m1: int, n2: int, m2: int, u: int, v: int)
    requires n1 * m2 == n2 * m1
    ensures (n1 * u) * (m2 * v) == (n2 * u) * (m1 * v)
  {
    assert (n1 * u) * (m2 * v) == (n1 * m2) * (u * v) by {
      MulAssoc(n1 * u, m2, v); MulAssoc(n1, u, m2); MulAssoc(n1 * m2, u, v);
    }
    assert (n2 * u) * (m1 * v) == (n2 * m1) * (u * v) by {
      MulAssoc(n2 * u, m1, v); MulAssoc(n2, u, m1); MulAssoc(n2 * m1, u, v);
    }
  }

  lemma SameRange(n1: int, m1: int, n2: int, m2: int, z: int, u: int, v: int)
    requires m1 > 0 && m2 > 0 && n1 * m2 == n2 * m1
    ensures z * (m1 * v) <= n1 * u <==> z * (m2 * v) <= n2 * u
  {
    SameRangeOne(n1, m1, n2, m2, z, u, v);
    SameRangeOne(n2, m2, n1, m1, z, u, v);
  }

  lemma SameRangeOne(n1: int, m1: int, n2: int, m2: int, z: int, u: int, v: int)
    requires m1 > 0 && m2 > 0 && n1 * m2 == n2 * m1
    ensures z * (m1 * v) <= n1 * u ==> z * (m2 * v) <= n2 * u
  {
    if z * (m1 * v) <= n1 * u {
      MulLe(z * (m1 * v), n1 * u, m2);
      assert (n1 * u) * m2 == (n2 * u) * m1 by { MulAssoc(n1, u, m2); MulAssoc(n2, u, m1); }
      assert (z * (m1 * v)) * m2 == (z * (m2 * v)) * m1 by {
        MulAssoc(z, m1 * v, m2); MulAssoc(z, m2 * v, m1); MulAssoc(m1, v, m2); MulAssoc(m2, v, m1);
      }
      CancelLe(z * (m2 * v), n2 * u, m1);
    }
  }

  lemma SameTrans(q: Q, n: nat, m: nat, n1: nat, m1: nat)
    requires Same(q, n, m) && m > 0 && n * m1 == n1 * m
    ensures Same(q, n1, m1)
  {
    MulAssoc(q.num, m, m1);
    MulAssoc(n, q.den, m1);
    MulAssoc(q.num, m1, m);
    MulAssoc(n1, q.den, m);
    CancelEq(q.num * m1, n1 * q.den, m);
  }

  // ------------------------------- rounding never crosses a representable value

  /** Rounding stays at or below any 28-digit decimal that n/m is at or below. */
  lemma RoundBelow(n: nat, m: nat, c: nat, j: nat)
    requires m > 0 && c < Pow10(28) && n * Pow10(j) <= c * m
    ensures var r := Round28(n, m); r.num * Pow10(j) <= c * r.den
  {
    if n > 0 {
      var k := Scale(n, m);
      BelowReaches(n, m, c, j, k, 27);
      Pow10Add(j, k - j);
      RoundAtFineGrid(n, m, k);
      GridBelow(n, m, c, Pow10(j), Pow10(k - j));
    }
  }

  lemma RoundAtFineGrid(n: nat, m: nat, k: int)
    requires m > 0 && k >= 0
    ensures RoundAt(n, m, k) == Q(HalfEven(n * Pow10(k), m), Pow10(k))
  {
    assert P(k) == Pow10(k) && P(-k) == 1;
    assert m * 1 == m;
  }

  lemma GridBelow(n: nat, m: nat, c: nat, t: nat, d: nat)
    requires m > 0 && n * t <= c * m
    ensures HalfEven(n * (t * d), m) * t <= c * (t * d)
  {
    MulLe(n * t, c * m, d);
    MulAssoc(n, t, d);
    MulAssoc(c, m, d);
    WholeBound(n * (t * d), m, c * d);
    MulLe(HalfEven(n * (t * d), m), c * d, t);
    MulAssoc(c, d, t);
  }

  /** Half-even rounding never crosses a whole number. */
  lemma WholeBound(x: nat, m: nat, w: nat)
    requires m > 0
    ensures x <= w * m ==> HalfEven(x, m) <= w
    ensures w * m <= x ==> w <= HalfEven(x, m)
  {
    HalfEvenWhole(w, m);
    if x <= w * m {
      MulLe(x, w * m, m);
      HalfEvenMonotone(x, m, w * m, m);
    }
    if w * m <= x {
      MulLe(w * m, x, m);
      HalfEvenMonotone(w * m, m, x, m);
    }
  }

  lemma BelowReaches(n: nat, m: nat, c: nat, j: int, k: int, e: nat)
    requires j >= 0 && m > 0 && c < Pow10(e + 1) && n * Pow10(j) <= c * m
    requires Pow10(e) * (m * P(-k)) <= n * P(k)
    ensures k >= j
  {
    if k < j {
      PowerRatio(k, j - k);
      ShiftCore(n, m, Pow10(e), P(k), P(-k), P(j), P(-j), Pow10(j - k));
      WholePower(j);
      MulLt(c, Pow10(e + 1), m);
      TenTimes(Pow10(e), Pow10(j - k - 1), m);
    }
  }

  lemma WholePower(j: int)
    requires j >= 0
    ensures P(j) == Pow10(j) && P(-j) == 1
  {
  }

  lemma TenTimes(z: int, t: int, m: int)
    requires z > 0 && t > 0 && m > 0
    ensures (10 * z) * m <= (z * (10 * t)) * m
  {
    MulLe(1, t, 10 * z);
    MulAssoc(z, 10, t);
    MulLe(10 * z, z * (10 * t), m);
  }

  // ---------------------------------------- rounding is monotone, and stays close

  /** A smaller value shows 28 digits at no fewer decimal places. */
  lemma ScaleOrder(n1: nat, m1: nat, n2: nat, m2: nat)
    requires n1 > 0 && m1 > 0 && n2 > 0 && m2 > 0 && n1 * m2 <= n2 * m1
    ensures Scale(n1, m1) >= Scale(n2, m2)
  {
    var k1, k2 := Scale(n1, m1), Scale(n2, m2);
    if k1 < k2 {
      LargerAtLeast(n1, m1, n2, m2, Pow10(27), P(k1), P(-k1));
      ScaleNotAbove(n2, m2, k1, k2);
    }
  }

  lemma LargerAtLeast(n1: int, m1: int, n2: int, m2: int, z: int, u: int, v: int)
    requires m1 > 0 && m2 > 0 && u > 0 && n1 * m2 <= n2 * m1 && z * (m1 * v) <= n1 * u
    ensures z * (m2 * v) <= n2 * u
  {
    MulLe(z * (m1 * v), n1 * u, m2);
    MulLe(n1 * m2, n2 * m1, u);
    assert (n1 * u) * m2 == (n1 * m2) * u by { MulAssoc(n1, u, m2); MulAssoc(n1, m2, u); }
    assert (n2 * u) * m1 == (n2 * m1) * u by { MulAssoc(n2, u, m1); MulAssoc(n2, m1, u); }
    assert (z * (m1 * v)) * m2 == (z * (m2 * v)) * m1 by {
      MulAssoc(z, m1 * v, m2); MulAssoc(z, m2 * v, m1); MulAssoc(m1, v, m2); MulAssoc(m2, v, m1);
    }
    CancelLe(z * (m2 * v), n2 * u, m1);
  }

  /** a is at most b. */
  ghost predicate AtMost(a: Q, b: Q) {
    a.num * b.den <= b.num * a.den
  }

  /** Rounding to 28 digits is monotone in the value. */
  lemma Round28Monotone(n1: nat, m1: nat, n2: nat, m2: nat)
    requires m1 > 0 && m2 > 0 && n1 * m2 <= n2 * m1
    ensures AtMost(Round28(n1, m1), Round28(n2, m2))
  {
    if n1 > 0 {
      PositiveProduct(n1, m2);
      ScaleOrder(n1, m1, n2, m2);
      var k1, k2 := Scale(n1, m1), Scale(n2, m2);
      if k1 == k2 {
        RoundAtMonotone(n1, m1, n2, m2, k1);
      } else {
        RoundAtApart(n1, m1, n2, m2, k1, k2);
      }
    }
  }

  lemma RoundAtMonotone(n1: nat, m1: nat, n2: nat, m2: nat, k: int)
    requires m1 > 0 && m2 > 0 && n1 * m2 <= n2 * m1
    ensures AtMost(RoundAt(n1, m1, k), RoundAt(n2, m2, k))
  {
    var u, v := P(k), P(-k);
    PositiveProduct(m1, v);
    PositiveProduct(m2, v);
    ScaledOrder(n1, m1, n2, m2, u, v);
    HalfEvenMonotone(n1 * u, m1 * v, n2 * u, m2 * v);
    var h1, h2 := HalfEven(n1 * u, m1 * v), HalfEven(n2 * u, m2 * v);
    MulLe(h1, h2, v);
    MulLe(h1 * v, h2 * v, u);
  }

  lemma ScaledOrder(n1: int, m1: int, n2: int, m2: int, u: int, v: int)
    requires n1 * m2 <= n2 * m1 && u > 0 && v > 0
    ensures (n1 * u) * (m2 * v) <= (n2 * u) * (m1 * v)
  {
    PositiveProduct(u, v);
    MulLe(n1 * m2, n2 * m1, u * v);
    assert (n1 * u) * (m2 * v) == (n1 * m2) * (u * v) by {
      MulAssoc(n1 * u, m2, v); MulAssoc(n1, u, m2); MulAssoc(n1 * m2, u, v);
    }
    assert (n2 * u) * (m1 * v) == (n2 * m1) * (u * v) by {
      MulAssoc(n2 * u, m1, v); MulAssoc(n2, u, m1); MulAssoc(n2 * m1, u, v);
    }
  }

  /** At different scales a power of ten lies between the two roundings. */
  lemma RoundAtApart(n1: nat, m1: nat, n2: nat, m2: nat, k1: int, k2: int)
    requires m1 > 0 && m2 > 0 && k1 > k2 && Below28(n1, m1, k1) && AtLeast28(n2, m2, k2)
    ensures AtMost(RoundAt(n1, m1, k1), RoundAt(n2, m2, k2))
  {
    PositiveProduct(m1, P(-k1));
    PositiveProduct(m2, P(-k2));
    WholeBound(n1 * P(k1), m1 * P(-k1), Pow10(28));
    WholeBound(n2 * P(k2), m2 * P(-k2), Pow10(27));
    PowerRatio(k2, k1 - k2);
    assert Pow10(k1 - k2) == 10 * Pow10(k1 - k2 - 1);
    assert Pow10(28) == 10 * Pow10(27);
    ApartCore(HalfEven(n1 * P(k1), m1 * P(-k1)), HalfEven(n2 * P(k2), m2 * P(-k2)), Pow10(27),
              P(k1), P(-k1), P(k2), P(-k2), Pow10(k1 - k2 - 1));
  }

  lemma ApartCore(h1: int, h2: int, z: int, u1: int, v1: int, u2: int, v2: int, t: int)
    requires h1 <= 10 * z && z <= h2 && z > 0 && t >= 1 && u1 > 0 && v1 > 0 && u2 > 0 && v2 > 0
    requires u1 * v2 == (u2 * v1) * (10 * t)
    ensures (h1 * v1) * u2 <= (h2 * v2) * u1
  {
    var x, y := u2 * v1, u1 * v2;
    PositiveProduct(u2, v1);
    PositiveProduct(u1, v2);
    MulLe(h1, 10 * z, x);
    MulLe(z, h2, y);
    MulAssoc(10, z, x);
    MulLe(1, t, x * 10);
    MulAssoc(x, 10, t);
    MulLe(10 * x, y, z);
    MulAssoc(10, x, z);
    MulAssoc(h1, v1, u2);
    MulAssoc(h2, v2, u1);
  }

  /** b is within a share of 1 / (2 * 10^27) of the value a = n/m. */
  ghost predicate Close(q: Q, n: nat, m: nat) {
    && 2 * Pow10(27) * (q.num * m - n * q.den) <= n * q.den
    && 2 * Pow10(27) * (n * q.den - q.num * m) <= n * q.den
  }

  /** Rounding to 28 digits changes a value by at most one part in 2 * 10^27 of it. */
  lemma Round28Close(n: nat, m: nat)
    requires m > 0
    ensures Close(Round28(n, m), n, m)
  {
    if n > 0 {
      var k := Scale(n, m);
      PositiveProduct(m, P(-k));
      hide HalfEven, Scale, Pow10, P;
      HalfEvenNearest(n * P(k), m * P(-k));
      RoundedAt(n, m, k, P(k), P(-k), HalfEven(n * P(k), m * P(-k)));
    }
  }

  lemma RoundedAt(n: int, m: int, k: int, u: int, v: int, h: int)
    requires Pow10(27) * (m * v) <= n * u
    requires var slack := 2 * (n * u) - 2 * (h * (m * v)); slack <= m * v && 0 <= slack + m * v
    ensures 2 * Pow10(27) * ((h * v) * m - n * u) <= n * u && 2 * Pow10(27) * (n * u - (h * v) * m) <= n * u
  {
    MulAssoc(h, v, m);
    MulAssoc(h, m, v);
    hide Pow10;
    CloseCore(n * u, h * (m * v), m * v, Pow10(27));
  }

  lemma CloseCore(big: int, rounded: int, small: int, z: int)
    requires z > 0 && z * small <= big
    requires 2 * big - 2 * rounded <= small && 0 <= 2 * big - 2 * rounded + small
    ensures 2 * z * (rounded - big) <= big && 2 * z * (big - rounded) <= big
  {
    MulLe(2 * (rounded - big), small, z);
    MulLe(2 * (big - rounded), small, z);
    MulAssoc(2, rounded - big, z);
    MulAssoc(2, big - rounded, z);
    MulAssoc(2, z, rounded - big);
    MulAssoc(2, z, big - rounded);
  }
}
