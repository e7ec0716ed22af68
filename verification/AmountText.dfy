/** How a transfer amount is printed for the exchange: the client's `_format_amount`. */
module AmountText {
  import opened Common
  import opened Decimal28

  /** The decimal coef * 10^exp. */
  datatype Num = Num(coef: int, exp: int)

  ghost function Low(a: Num, b: Num): int {
    if a.exp < b.exp then a.exp else b.exp
  }

  /** a and b are one number. */
  ghost predicate SameNumber(a: Num, b: Num) {
    a.coef * Pow10(a.exp - Low(a, b)) == b.coef * Pow10(b.exp - Low(a, b))
  }

  function DigitChar(d: nat): (c: char)
    requires d < 10
  {
    "0123456789"[d]
  }

  predicate IsDigit(c: char) { '0' <= c <= '9' }

  function Zeros(k: nat): (s: string)
    ensures |s| == k && forall i :: 0 <= i < k ==> s[i] == '0'
  {
    if k == 0 then "" else "0" + Zeros(k - 1)
  }

  /** The decimal digits of n. */
  function Decimals(n: nat): (s: string)
    ensures |s| > 0 && forall i :: 0 <= i < |s| ==> IsDigit(s[i])
    ensures s[|s| - 1] == DigitChar(n % 10)
  {
    if n < 10 then [DigitChar(n)] else Decimals(n / 10) + [DigitChar(n % 10)]
  }

  /** Removes trailing zeros of the coefficient. */
  function Stripped(d: Num): (r: Num)
    requires d.coef > 0
    ensures 0 < r.coef <= d.coef && r.coef % 10 != 0 && r.exp >= d.exp
    decreases d.coef
  {
    if d.coef % 10 == 0 then Stripped(Num(d.coef / 10, d.exp + 1)) else d
  }

  /** Rounds to the decimal context's 28 digits, half-even. */
  function Rounded(d: Num): (r: Num)
    requires d.coef > 0
    ensures 0 < r.coef <= Pow10(28)
  {
    var n := Digits(d.coef);
    if n <= 28 then
      Pow10Monotone(n, 28);
      d
    else
      RoundedSize(d.coef, n);
      Num(HalfEven(d.coef, Pow10(n - 28)), d.exp + n - 28)
  }

  lemma RoundedSize(c: nat, n: nat)
    requires n > 28 && Pow10(n - 1) <= c < Pow10(n)
    ensures 0 < HalfEven(c, Pow10(n - 28)) <= Pow10(28)
  {
    Pow10Add(27, n - 28);
    Pow10Add(28, n - 28);
    WholeBound(c, Pow10(n - 28), Pow10(27));
    WholeBound(c, Pow10(n - 28), Pow10(28));
  }

  /** Decimal.normalize: rounds to the context, then removes trailing zeros. */
  function Normalize(d: Num): (r: Num)
    requires d.coef > 0
    ensures r.coef > 0 && r.coef % 10 != 0
  {
    Stripped(Rounded(d))
  }

  /** Fixed-point notation without an exponent. */
  function Fixed(d: Num): (s: string)
    requires d.coef > 0
  {
    var s := Decimals(d.coef);
    if d.exp >= 0 then s + Zeros(d.exp)
    else if |s| > -d.exp then s[..|s| + d.exp] + "." + s[|s| + d.exp..]
    else "0." + Zeros(-d.exp - |s|) + s
  }

  /** The text sent to the exchange; an amount that is not positive raises. */
  function FormatAmount(d: Num): (r: Result<string>)
    ensures r.Ok? <==> d.coef > 0
  {
    if d.coef <= 0 then Err(Internal) else Ok(Fixed(Normalize(d)))
  }

  // ------------------------------------------------------------ reading it back

  function DigitValue(c: char): (d: nat)
    requires IsDigit(c)
  {
    c as nat - '0' as nat
  }

  predicate AllDigits(s: string) { forall i :: 0 <= i < |s| ==> IsDigit(s[i]) }

  function ParseDigits(s: string): (n: nat)
    requires AllDigits(s)
  {
    if s == "" then 0 else ParseDigits(s[..|s| - 1]) * 10 + DigitValue(s[|s| - 1])
  }

  /** The position of the first point, or the length. */
  function PointAt(s: string): (p: nat)
    ensures p <= |s| && (p < |s| ==> s[p] == '.') && forall i :: 0 <= i < p ==> s[i] != '.'
  {
    if s == "" || s[0] == '.' then 0 else 1 + PointAt(s[1..])
  }

  /** Digits with at most one point; None for any other text. */
  function Parse(s: string): (r: Option<Num>) {
    var p := PointAt(s);
    if p == |s| then
      if AllDigits(s) then Some(Num(ParseDigits(s), 0)) else None
    else
      var digits := s[..p] + s[p + 1..];
      if AllDigits(digits) then Some(Num(ParseDigits(digits), -(|s| - p - 1))) else None
  }

  // ------------------------------------------------------------------- lemmas

  lemma {:induction false} ParseDecimals(n: nat)
    ensures ParseDigits(Decimals(n)) == n
  {
    var s := Decimals(n);
    if n >= 10 {
      ParseDecimals(n / 10);
      assert s[..|s| - 1] == Decimals(n / 10);
    } else {
      assert s[..|s| - 1] == "";
    }
  }

  lemma {:induction false} ParseLeadingZeros(z: string, s: string)
    requires AllDigits(s) && forall i :: 0 <= i < |z| ==> z[i] == '0'
    ensures AllDigits(z + s) && ParseDigits(z + s) == ParseDigits(s)
    decreases |z| + |s|
  {
    if s != "" {
      ParseLeadingZeros(z, s[..|s| - 1]);
      assert (z + s)[..|z + s| - 1] == z + s[..|s| - 1];
    } else if z != "" {
      ParseLeadingZeros(z[..|z| - 1], "");
      assert z[..|z| - 1] + "" == (z + s)[..|z + s| - 1];
      assert z + s == z;
    }
  }

  lemma {:induction false} ParseTrailingZeros(s: string, k: nat)
    requires AllDigits(s)
    ensures AllDigits(s + Zeros(k)) && ParseDigits(s + Zeros(k)) == ParseDigits(s) * Pow10(k)
  {
    if k == 0 {
      assert s + Zeros(0) == s;
    } else {
      ParseTrailingZeros(s, k - 1);
      var t := s + Zeros(k);
      assert t[..|t| - 1] == s + Zeros(k - 1);
      MulAssoc(ParseDigits(s), Pow10(k - 1), 10);
    }
  }

  lemma PointPosition(a: string, b: string)
    requires AllDigits(a)
    ensures PointAt(a + "." + b) == |a|
  {
    var s := a + "." + b;
    assert s[|a|] == '.';
    assert forall i :: 0 <= i < |a| ==> s[i] == a[i];
  }

  /** Printing in fixed point keeps the number. */
  lemma FixedParses(d: Num)
    requires d.coef > 0
    ensures var r := Parse(Fixed(d));
      r == Some(if d.exp >= 0 then Num(d.coef * Pow10(d.exp), 0) else d)
  {
    hide Parse, ParseDigits, PointAt, Zeros, Decimals, Pow10;
    ParseDecimals(d.coef);
    if d.exp >= 0 {
      WholeParses(d);
    } else if |Decimals(d.coef)| > -d.exp {
      var s, cut := Decimals(d.coef), |Decimals(d.coef)| + d.exp;
      SplitJoin(s, cut);
      PointParses(s[..cut], s[cut..]);
    } else {
      SmallParses(d.coef, Decimals(d.coef), -d.exp);
    }
  }

  lemma WholeParses(d: Num)
    requires d.coef > 0 && d.exp >= 0 && ParseDigits(Decimals(d.coef)) == d.coef
    ensures Parse(Decimals(d.coef) + Zeros(d.exp)) == Some(Num(d.coef * Pow10(d.exp), 0))
  {
    ParseTrailingZeros(Decimals(d.coef), d.exp);
    NoPoint(Decimals(d.coef) + Zeros(d.exp));
  }

  lemma PointParses(a: string, b: string)
    requires AllDigits(a + b)
    ensures Parse(a + "." + b) == Some(Num(ParseDigits(a + b), 0 - |b|))
  {
    var t := a + "." + b;
    assert forall i :: 0 <= i < |a| ==> a[i] == (a + b)[i];
    PointPosition(a, b);
    assert t[..|a|] == a;
    assert t[|a| + 1..] == b;
  }

  lemma SplitJoin(s: string, cut: nat)
    requires cut <= |s|
    ensures s[..cut] + s[cut..] == s
  {
  }

  lemma SmallParses(c: nat, s: string, k: nat)
    requires AllDigits(s) && ParseDigits(s) == c && |s| <= k
    ensures Parse("0." + Zeros(k - |s|) + s) == Some(Num(c, 0 - k))
  {
    var z, frac := Zeros(k - |s|), Zeros(k - |s|) + s;
    ParseLeadingZeros("0" + z, s);
    assert "0" + frac == "0" + z + s;
    PointParses("0", frac);
    assert "0" + "." + frac == "0." + z + s;
  }

  lemma NoPoint(s: string)
    requires AllDigits(s)
    ensures PointAt(s) == |s|
  {
    assert !IsDigit('.');
  }

  /** Both sides at any common lower exponent. */
  lemma SameAt(a: Num, b: Num, k: int)
    requires k <= a.exp && k <= b.exp
    ensures SameNumber(a, b) <==> a.coef * Pow10(a.exp - k) == b.coef * Pow10(b.exp - k)
  {
    var low := Low(a, b);
    Pow10Add(a.exp - low, low - k);
    Pow10Add(b.exp - low, low - k);
    MulAssoc(a.coef, Pow10(a.exp - low), Pow10(low - k));
    MulAssoc(b.coef, Pow10(b.exp - low), Pow10(low - k));
    if a.coef * Pow10(a.exp - k) == b.coef * Pow10(b.exp - k) {
      CancelEq(a.coef * Pow10(a.exp - low), b.coef * Pow10(b.exp - low), Pow10(low - k));
    }
  }

  lemma SameNumberTransitive(a: Num, b: Num, c: Num)
    requires SameNumber(a, b) && SameNumber(b, c)
    ensures SameNumber(a, c)
  {
    var k := if Low(a, b) < Low(b, c) then Low(a, b) else Low(b, c);
    SameAt(a, b, k);
    SameAt(b, c, k);
    SameAt(a, c, k);
  }

  lemma {:induction false} StrippedSame(d: Num)
    requires d.coef > 0
    ensures SameNumber(d, Stripped(d))
    decreases d.coef
  {
    if d.coef % 10 == 0 {
      var e := Num(d.coef / 10, d.exp + 1);
      StrippedSame(e);
      assert Pow10(1) == 10 * Pow10(0);
      assert SameNumber(d, e);
      SameNumberTransitive(d, e, Stripped(d));
    }
  }

  lemma NormalUnique(a: Num, b: Num)
    requires a.coef % 10 != 0 && b.coef % 10 != 0 && SameNumber(a, b)
    ensures a == b
  {
    if a.exp < b.exp {
      MulAssoc(b.coef, 10, Pow10(b.exp - a.exp - 1));
      MultipleOfTen(b.coef, Pow10(b.exp - a.exp - 1));
    } else if b.exp < a.exp {
      MulAssoc(a.coef, 10, Pow10(a.exp - b.exp - 1));
      MultipleOfTen(a.coef, Pow10(a.exp - b.exp - 1));
    }
  }

  lemma MultipleOfTen(a: int, t: int)
    ensures (a * (10 * t)) % 10 == 0
  {
    MulAssoc(10, t, a);
  }

  lemma SameSymmetric(a: Num, b: Num)
    ensures SameNumber(a, b) <==> SameNumber(b, a)
  {
  }

  lemma StrippedUnique(a: Num, b: Num)
    requires a.coef > 0 && b.coef > 0 && SameNumber(a, b)
    ensures Stripped(a) == Stripped(b)
  {
    var (x, y) := (Stripped(a), Stripped(b));
    hide Stripped, SameNumber;
    StrippedSame(a);
    StrippedSame(b);
    SameSymmetric(a, x);
    SameNumberTransitive(x, a, b);
    SameNumberTransitive(x, b, y);
    UniqueStripped(x, y);
  }

  lemma UniqueStripped(x: Num, y: Num)
    requires x.coef % 10 != 0 && y.coef % 10 != 0 && SameNumber(x, y)
    ensures x == y
  {
    NormalUnique(x, y);
  }

  // ------------------------------------------------------------------- rounding

  lemma DigitsAre(c: nat, n: nat)
    requires n >= 1 && Pow10(n - 1) <= c < Pow10(n)
    ensures Digits(c) == n
  {
    var k := Digits(c);
    PositivePower(n - 1);
    if k < n { Pow10Monotone(k, n - 1); }
    if k > n { Pow10Monotone(n, k - 1); }
  }

  lemma PositivePower(k: nat)
    ensures Pow10(k) >= 1
  {
  }

  /** A trailing zero does not matter to rounding. */
  lemma RoundedTen(d: Num)
    requires d.coef > 0 && d.coef % 10 == 0
    ensures SameNumber(Rounded(d), Rounded(Num(d.coef / 10, d.exp + 1)))
  {
    var (n, e) := (Digits(d.coef), Num(d.coef / 10, d.exp + 1));
    TenthDigits(d.coef, n);
    assert Pow10(1) == 10 * Pow10(0) && Pow10(0) == 1;
    if n == 29 {
      HalfEvenWhole(e.coef, 10);
    } else if n > 29 {
      assert Pow10(n - 28) == 10 * Pow10(n - 29);
      TenthRounds(e.coef, Pow10(n - 29));
    }
  }

  lemma TenthDigits(c: nat, n: nat)
    requires c > 0 && c % 10 == 0 && n == Digits(c)
    ensures n > 1 && Digits(c / 10) == n - 1
  {
  }

  lemma TenthRounds(c: nat, m: nat)
    requires m > 0
    ensures HalfEven(10 * c, 10 * m) == HalfEven(c, m)
  {
    MulAssoc(10, c, m);
    MulAssoc(c, 10, m);
    HalfEvenSameValue(10 * c, 10 * m, c, m);
  }

  lemma {:induction false} RoundedStripped(d: Num)
    requires d.coef > 0
    ensures SameNumber(Rounded(d), Rounded(Stripped(d)))
    decreases d.coef
  {
    hide Rounded, SameNumber;
    if d.coef % 10 == 0 {
      var e := Num(d.coef / 10, d.exp + 1);
      RoundedTen(d);
      RoundedStripped(e);
      SameNumberTransitive(Rounded(d), Rounded(e), Rounded(Stripped(d)));
    } else {
      SameAt(Rounded(d), Rounded(d), Rounded(d).exp);
    }
  }

  /** Equal numbers are rounded to equal numbers. */
  lemma RoundedSame(a: Num, b: Num)
    requires a.coef > 0 && b.coef > 0 && SameNumber(a, b)
    ensures SameNumber(Rounded(a), Rounded(b))
  {
    hide Rounded, Stripped, SameNumber;
    StrippedUnique(a, b);
    RoundedStripped(a);
    RoundedStripped(b);
    SameSymmetric(Rounded(b), Rounded(Stripped(b)));
    SameNumberTransitive(Rounded(a), Rounded(Stripped(a)), Rounded(b));
  }

  /** Normalising leaves at most 28 digits. */
  lemma NormalizedFits(d: Num)
    requires d.coef > 0
    ensures Normalize(d).coef < Pow10(28)
  {
    hide Pow10, Rounded, Stripped;
    NextPower(28, 27);
  }

  lemma NextPower(n: nat, k: nat)
    requires n == k + 1
    ensures Pow10(n) == 10 * Pow10(k) && Pow10(k) >= 1
  {
  }

  /** Rounding keeps the number if and only if it needs no more than 28 digits. */
  lemma RoundedExactIff(d: Num)
    requires d.coef > 0
    ensures SameNumber(Rounded(d), d) <==> Stripped(d).coef < Pow10(28)
  {
    if SameNumber(Rounded(d), d) {
      NormalizedFits(d);
      hide Rounded;
      StrippedUnique(Rounded(d), d);
    }
    if Stripped(d).coef < Pow10(28) {
      var c := Stripped(d);
      FitsUnchanged(c);
      hide Rounded, Stripped, SameNumber;
      RoundedStripped(d);
      StrippedSame(d);
      SameSymmetric(d, c);
      SameNumberTransitive(Rounded(d), c, d);
    }
  }

  lemma FitsUnchanged(d: Num)
    requires 0 < d.coef < Pow10(28)
    ensures Rounded(d) == d
  {
    if Digits(d.coef) > 28 { Pow10Monotone(28, Digits(d.coef) - 1); }
  }

  // -------------------------------------------------------------- main results

  /** The printed text of a normal form reads back as it, with no trailing fractional zero. */
  lemma {:induction false} NoLeadingZero(n: nat)
    requires n > 0
    ensures Decimals(n)[0] != '0'
  {
    if n >= 10 { NoLeadingZero(n / 10); }
  }

  /** The text starts with a digit, and with a zero only directly before the point. */
  predicate Plain(s: string) {
    s != "" && IsDigit(s[0]) && (s[0] == '0' ==> |s| > 1 && s[1] == '.')
  }

  lemma FixedIsPlain(d: Num)
    requires d.coef > 0
    ensures Plain(Fixed(d))
  {
    NoLeadingZero(d.coef);
    hide Decimals, Zeros;
  }

  /** The amount is kept if it has at most 28 digits; else it moves by at most half a unit of the
      28th digit, and at exactly half that digit is even. */
  lemma RoundedNearest(d: Num)
    requires d.coef > 0
    ensures if d.coef < Pow10(28) then Rounded(d) == d else
      var (n, r) := (Digits(d.coef), Rounded(d));
      && n > 28 && Pow10(n - 1) <= d.coef < Pow10(n) && r.exp == d.exp + n - 28
      && var (unit, off) := (Pow10(n - 28), r.coef * Pow10(n - 28) - d.coef);
        -unit <= 2 * off <= unit && (2 * off == unit || 2 * off == -unit ==> r.coef % 2 == 0)
  {
    var n := Digits(d.coef);
    hide Pow10, Digits, HalfEven;
    if d.coef < Pow10(28) {
      if n > 28 { Pow10Monotone(28, n - 1); }
    } else {
      if n <= 28 { Pow10Monotone(n, 28); }
      HalfEvenNearest(d.coef, Pow10(n - 28));
    }
  }

  lemma NormalReadsBack(n: Num)
    requires n.coef > 0 && n.coef % 10 != 0
    ensures var s := Fixed(n);
      && Parse(s).Some? && SameNumber(n, Parse(s).value)
      && (PointAt(s) < |s| ==> s[|s| - 1] != '0' && s[|s| - 1] != '.')
  {
    FixedParses(n);
    var r := Parse(Fixed(n)).value;
    if n.exp >= 0 {
      assert Pow10(0) == 1;
      assert SameNumber(n, r);
      ParseTrailingZeros(Decimals(n.coef), n.exp);
      NoPoint(Fixed(n));
    }
  }

  /** Every positive amount prints as digits with at most one point, so without an exponent,
      without a trailing fractional zero and without a leading one but directly before the point;
      the text reads back as the amount rounded to 28 digits, and as the amount itself if and only
      if that needs no more than 28 digits. */
  lemma PrintParseRoundTrip(d: Num)
    requires d.coef > 0
    ensures FormatAmount(d).Ok?
    ensures var s := FormatAmount(d).value;
      && Parse(s).Some? && SameNumber(Parse(s).value, Rounded(d))
      && (SameNumber(Parse(s).value, d) <==> Stripped(d).coef < Pow10(28))
      && (PointAt(s) < |s| ==> s[|s| - 1] != '0' && s[|s| - 1] != '.') && Plain(s)
  {
    hide Fixed, Parse, SameNumber, PointAt, Rounded, Stripped, Normalize, Plain, Pow10;
    NormalReadsBack(Normalize(d));
    FixedIsPlain(Normalize(d));
    ReadsAsRounded(d, Parse(Fixed(Normalize(d))).value);
  }

  lemma ReadsAsRounded(d: Num, r: Num)
    requires d.coef > 0 && SameNumber(Normalize(d), r)
    ensures SameNumber(r, Rounded(d)) && (SameNumber(r, d) <==> Stripped(d).coef < Pow10(28))
  {
    hide SameNumber, Rounded, Stripped, Pow10;
    StrippedSame(Rounded(d));
    SameNumberTransitive(Rounded(d), Normalize(d), r);
    SameSymmetric(Rounded(d), r);
    RoundedExactIff(d);
    if SameNumber(r, d) { SameNumberTransitive(Rounded(d), r, d); }
    if SameNumber(Rounded(d), d) { SameNumberTransitive(r, Rounded(d), d); }
  }

  /** Two amounts print alike exactly when they round to the same number; equal amounts always do,
      and amounts of at most 28 digits only if they are equal. */
  lemma PrintCanonical(a: Num, b: Num)
    requires a.coef > 0 && b.coef > 0
    ensures FormatAmount(a) == FormatAmount(b) <==> SameNumber(Rounded(a), Rounded(b))
    ensures SameNumber(a, b) ==> FormatAmount(a) == FormatAmount(b)
    ensures Stripped(a).coef < Pow10(28) && Stripped(b).coef < Pow10(28) ==>
      (FormatAmount(a) == FormatAmount(b) <==> SameNumber(a, b))
  {
    hide Fixed, Parse, SameNumber, PointAt, Rounded, Stripped;
    PrintParseRoundTrip(a);
    PrintParseRoundTrip(b);
    if SameNumber(a, b) { RoundedSame(a, b); }
    if SameNumber(Rounded(a), Rounded(b)) { StrippedUnique(Rounded(a), Rounded(b)); }
    if FormatAmount(a) == FormatAmount(b) {
      var r := Parse(FormatAmount(a).value).value;
      SameSymmetric(r, Rounded(a));
      SameNumberTransitive(Rounded(a), r, Rounded(b));
      if SameNumber(r, a) && SameNumber(r, b) {
        SameSymmetric(r, a);
        SameNumberTransitive(a, r, b);
      }
    }
  }

  /** Amounts as the database stores them, numeric(18, 8), always read back as they are. */
  lemma StoredAmountRoundTrip(d: Num)
    requires 0 < d.coef < Pow10(18)
    ensures FormatAmount(d).Ok? && Parse(FormatAmount(d).value).Some?
    ensures SameNumber(Parse(FormatAmount(d).value).value, d)
  {
    hide Fixed, Parse, SameNumber, Rounded, Pow10;
    Pow10Monotone(18, 28);
    PrintParseRoundTrip(d);
  }

  /** A longer amount need not: 1 + 10^-28 prints as 1 does. */
  lemma LongAmountPrintsAsOne(long: Num, one: Num)
    requires long == Num(Pow10(28) + 1, -28) && one == Num(1, 0)
    ensures FormatAmount(long) == FormatAmount(one) && !SameNumber(long, one)
  {
    hide Pow10, FormatAmount, Rounded, Digits, Stripped;
    NextPower(28, 27);
    NextPower(29, 28);
    TenPower();
    LongRounds(long, 28, 29, Pow10(27));
    FitsUnchanged(one);
    PrintCanonical(long, one);
    SameAt(Num(Pow10(27), -27), one, -27);
    SameAt(long, one, -28);
  }

  lemma LongRounds(d: Num, k: nat, n: nat, z: nat)
    requires k == 28 && n == 29 && z >= 1 && Pow10(k) == 10 * z && Pow10(n) == 10 * Pow10(k)
      && d == Num(10 * z + 1, -28)
    ensures Rounded(d) == Num(z, -27)
  {
    hide Pow10, Digits;
    DigitsAre(10 * z + 1, n);
    TenPower();
    assert HalfEven(10 * z + 1, 10) == z;
  }

  lemma TenPower()
    ensures Pow10(1) == 10 && Pow10(0) == 1
  {
  }
}
