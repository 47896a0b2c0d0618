/** Decimal numerals: the literals Python's `int()` and `float()` accept (ASCII
    digits only) and Python's `str()` of an integer. */
module Numerals {
  import opened Text

  predicate IsDigit(c: char)
  {
    '0' <= c <= '9'
  }

  function DigitValue(c: char): (d: nat)
    requires IsDigit(c)
    ensures d < 10
  {
    c as int - '0' as int
  }

  function DigitChar(d: nat): (c: char)
    requires d < 10
    ensures IsDigit(c) && DigitValue(c) == d
  {
    ('0' as int + d) as char
  }

  /** A run of digits in which single underscores may separate two digits (PEP 515). */
  predicate IsDigitPart(s: string)
  {
    && |s| > 0
    && IsDigit(s[0])
    && IsDigit(s[|s| - 1])
    && (forall i :: 0 <= i < |s| ==> IsDigit(s[i]) || s[i] == '_')
    && (forall i :: 0 < i < |s| && s[i - 1] == '_' ==> IsDigit(s[i]))
  }

  /** The value of a digit part; underscores carry no value. */
  function DigitsValue(s: string): nat
    requires forall i :: 0 <= i < |s| ==> IsDigit(s[i]) || s[i] == '_'
    decreases |s|
  {
    if |s| == 0 then 0
    else if s[|s| - 1] == '_' then DigitsValue(s[..|s| - 1])
    else DigitsValue(s[..|s| - 1]) * 10 + DigitValue(s[|s| - 1])
  }

  predicate IsSign(c: char)
  {
    c == '+' || c == '-'
  }

  /** The text after an optional leading sign. */
  function Unsigned(s: string): (r: string)
    ensures |r| <= |s|
  {
    if |s| > 0 && IsSign(s[0]) then s[1..] else s
  }

  /** What Python's `int(s)` accepts for an already stripped `s`, restricted to ASCII digits. */
  predicate IsIntLiteral(s: string)
  {
    IsDigitPart(Unsigned(s))
  }

  /** The integer `int(s)` returns. */
  function IntValue(s: string): (r: int)
    requires IsIntLiteral(s)
    ensures |s| > 0 && s[0] == '-' ==> r <= 0
    ensures !(|s| > 0 && s[0] == '-') ==> r >= 0
  {
    var u := Unsigned(s);
    var magnitude: int := DigitsValue(u);
    if |s| > 0 && s[0] == '-' then -magnitude else magnitude
  }

  /** Python's `str(n)` for a non-negative integer. */
  function ShowNat(n: nat): (r: string)
    ensures |r| > 0 && forall i :: 0 <= i < |r| ==> IsDigit(r[i])
    decreases n
  {
    if n < 10 then [DigitChar(n)] else ShowNat(n / 10) + [DigitChar(n % 10)]
  }

  /** Python's `str(n)` (and `f"{n}"`) for an integer. */
  function Show(n: int): (r: string)
    ensures |r| > 0
    ensures r[0] == '-' || IsDigit(r[0])
    ensures forall i :: 0 < i < |r| ==> IsDigit(r[i])
  {
    if n < 0 then "-" + ShowNat(-n) else ShowNat(n)
  }

  lemma {:induction false} ShowNatValue(n: nat)
    ensures IsDigitPart(ShowNat(n))
    ensures DigitsValue(ShowNat(n)) == n
    decreases n
  {
    if n >= 10 {
      ShowNatValue(n / 10);
      var r := ShowNat(n);
      assert r[..|r| - 1] == ShowNat(n / 10);
    }
  }

  /** `int(str(n)) == n`: every rendered integer reads back as itself. */
  lemma IntRoundTrip(n: int)
    ensures IsIntLiteral(Show(n))
    ensures IntValue(Show(n)) == n
  {
    var m: nat := if n < 0 then -n else n;
    var digits := ShowNat(m);
    ShowNatValue(m);
    var s := Show(n);
    if n < 0 {
      assert s == "-" + digits;
      assert Unsigned(s) == digits;
    } else {
      assert s == digits;
      assert !IsSign(s[0]);
      assert Unsigned(s) == digits;
    }
  }

  /** Index of the first exponent marker `e` or `E`, or `|s|`. */
  function ExponentAt(s: string): (k: nat)
    ensures k <= |s|
    ensures k < |s| ==> s[k] == 'e' || s[k] == 'E'
    ensures forall j :: 0 <= j < k ==> s[j] != 'e' && s[j] != 'E'
    decreases |s|
  {
    if |s| == 0 then 0
    else if s[0] == 'e' || s[0] == 'E' then 0
    else 1 + ExponentAt(s[1..])
  }

  /** `[digitpart] "." digitpart | digitpart ["."]` of Python's float grammar. */
  predicate IsMantissa(m: string)
  {
    if '.' in m then
      var whole, fraction := Before(m, '.'), After(m, '.');
      && (whole == "" || IsDigitPart(whole))
      && (fraction == "" || IsDigitPart(fraction))
      && (whole != "" || fraction != "")
    else IsDigitPart(m)
  }

  /** A decimal floating-point literal without its sign: mantissa and optional exponent. */
  predicate IsDecimalLiteral(s: string)
  {
    var k := ExponentAt(s);
    && IsMantissa(s[..k])
    && (k < |s| ==> IsDigitPart(Unsigned(s[k + 1..])))
  }

  /** What Python's `float(s)` accepts for an already stripped `s`, restricted to ASCII digits. */
  predicate IsFloatLiteral(s: string)
  {
    var body := Unsigned(s);
    || Lower(body) == "inf" || Lower(body) == "infinity" || Lower(body) == "nan"
    || IsDecimalLiteral(body)
  }

  function Pow(b: nat, n: nat): (r: nat)
    decreases n
  {
    if n == 0 then 1 else b * Pow(b, n - 1)
  }

  lemma {:induction false} PowAdd(b: nat, m: nat, n: nat)
    ensures Pow(b, m + n) == Pow(b, m) * Pow(b, n)
    decreases n
  {
    if n > 0 {
      PowAdd(b, m, n - 1);
      var x, y := Pow(b, m), Pow(b, n - 1);
      assert Pow(b, m + n) == b * (x * y);
      MulRotate(b, x, y);
    }
  }

  lemma MulRotate(a: int, b: int, c: int)
    ensures a * (b * c) == b * (a * c)
  {
  }

  lemma MulMonotone(a: nat, b: nat, c: nat)
    requires a <= b
    ensures a * c <= b * c
  {
  }

  lemma {:induction false} PowMul(b: nat, m: nat, n: nat)
    ensures Pow(b, m * n) == Pow(Pow(b, m), n)
    decreases n
  {
    if n > 0 {
      PowMul(b, m, n - 1);
      assert m * n == m * (n - 1) + m;
      PowAdd(b, m * (n - 1), m);
    }
  }

  lemma {:induction false} PowMonotoneBase(a: nat, b: nat, n: nat)
    requires a <= b
    ensures Pow(a, n) <= Pow(b, n)
    decreases n
  {
    if n > 0 {
      PowMonotoneBase(a, b, n - 1);
      var p, q := Pow(a, n - 1), Pow(b, n - 1);
      MulMonotone(a, b, p);
      MulMonotone(p, q, b);
      assert Pow(a, n) == a * p && Pow(b, n) == q * b;
    }
  }

  lemma {:induction false} PowMonotoneExponent(b: nat, m: nat, n: nat)
    requires 1 <= b && m <= n
    ensures Pow(b, m) <= Pow(b, n)
    decreases n
  {
    if m < n {
      PowMonotoneExponent(b, m, n - 1);
      assert Pow(b, n - 1) <= b * Pow(b, n - 1);
    }
  }

  /** The number of digits in a digit part, underscores not counted. */
  function DigitCount(s: string): (r: nat)
    ensures r <= |s|
    decreases |s|
  {
    if |s| == 0 then 0 else DigitCount(s[..|s| - 1]) + (if s[|s| - 1] == '_' then 0 else 1)
  }

  /** The digits before and after the point of a mantissa (`"" ` when absent). */
  function MantissaParts(m: string): (string, string)
  {
    if '.' in m then (Before(m, '.'), After(m, '.')) else (m, "")
  }

  predicate DigitsOrUnderscores(s: string)
  {
    forall i :: 0 <= i < |s| ==> IsDigit(s[i]) || s[i] == '_'
  }

  lemma DigitsConcat(a: string, b: string)
    requires DigitsOrUnderscores(a) && DigitsOrUnderscores(b)
    ensures DigitsOrUnderscores(a + b)
  {
    forall i | 0 <= i < |a + b| ensures IsDigit((a + b)[i]) || (a + b)[i] == '_' {
      if i >= |a| {
        assert (a + b)[i] == b[i - |a|];
      }
    }
  }

  /** The digits of a mantissa, without its point, are digits and underscores. */
  lemma MantissaDigits(m: string)
    requires IsMantissa(m)
    ensures var (whole, fraction) := MantissaParts(m); DigitsOrUnderscores(whole + fraction)
  {
    var (whole, fraction) := MantissaParts(m);
    assert DigitsOrUnderscores(whole) && DigitsOrUnderscores(fraction);
    DigitsConcat(whole, fraction);
  }

  /** A decimal literal (without its sign) as `(M, e)` with value `M * 10^e`:
      `M` is the mantissa's digits read as one integer, and `e` the exponent less
      the number of fraction digits. */
  function Decimal(body: string): (r: (nat, int))
    requires IsDecimalLiteral(body)
  {
    var k := ExponentAt(body);
    var (whole, fraction) := MantissaParts(body[..k]);
    MantissaDigits(body[..k]);
    var exponent := if k < |body| then IntValue(body[k + 1..]) else 0;
    (DigitsValue(whole + fraction), exponent - DigitCount(fraction))
  }

  /** `M * 10^e` is at most `2^-1075`, half the smallest subnormal double, so a
      correctly rounded conversion (ties to even) gives 0.0. */
  predicate Underflows(mantissa: nat, e: int)
  {
    e < 0 && mantissa * Pow(2, 1075) <= Pow(10, -e)
  }

  /** `float(s) == 0.0`: a decimal literal whose value is zero, or so small that it
      rounds to zero; `inf`, `infinity` and `nan` are never zero. */
  predicate IsZeroFloat(s: string)
  {
    var body := Unsigned(s);
    && IsDecimalLiteral(body)
    && var (mantissa, e) := Decimal(body);
       mantissa == 0 || Underflows(mantissa, e)
  }

  /** `2^1075 <= 8^400 <= 10^400`. */
  lemma TinyBound()
    ensures Pow(2, 1075) <= Pow(10, 400)
  {
    PowMonotoneExponent(2, 1075, 1200);
    PowMul(2, 3, 400);
    PowMonotoneBase(8, 10, 400);
  }

  /** `10^300 = 1000^100 <= 1024^100 = 2^1000 <= 2^1074 < 2^1075`. */
  lemma SmallBound()
    ensures Pow(10, 300) < Pow(2, 1075)
  {
    PowMul(10, 3, 100);
    PowMonotoneBase(1000, 1024, 100);
    PowMul(2, 10, 100);
    PowMonotoneExponent(2, 1000, 1074);
    PowMonotoneExponent(2, 0, 1074);
  }

  /** `1 * 10^-n` is at most `2^-1075` from `n = 400` on. */
  lemma TinyUnderflows(n: nat)
    requires n >= 400
    ensures Underflows(1, -(n as int))
  {
    TinyBound();
    PowMonotoneExponent(10, 400, n);
  }

  /** `1 * 10^-n` is above `2^-1075` up to `n = 300`. */
  lemma SmallAboveBound(n: nat)
    requires n <= 300
    ensures !Underflows(1, -(n as int))
  {
    SmallBound();
    PowMonotoneExponent(10, n, 300);
  }

  /** The mantissa `1`: one digit, no point. */
  lemma OneMantissa()
    ensures IsMantissa("1") && MantissaParts("1") == ("1", "")
    ensures DigitsValue("1" + "") == 1 && DigitCount("") == 0
  {
    assert '.' !in "1" && "1"[..0] == "" && "1" + "" == "1";
    assert IsDigitPart("1");
  }

  /** `1e-n` cuts into the mantissa `1` and the exponent `-n`. */
  lemma NegativeExponentParts(n: nat)
    ensures var s := "1e-" + ShowNat(n);
      && Unsigned(s) == s && ExponentAt(s) == 1 && s[..1] == "1" && 1 < |s|
      && IsDigitPart(Unsigned(s[2..])) && IntValue(s[2..]) == -(n as int)
  {
    var d := ShowNat(n);
    ShowNatValue(n);
    var s := "1e-" + d;
    assert s[0] == '1' && !IsSign(s[0]) && s[1] == 'e';
    assert s[..1] == "1" && s[2..] == "-" + d;
    assert Unsigned("-" + d) == d;
  }

  /** `1e-n` reads as `1 * 10^-n`. */
  lemma NegativeExponentLiteral(n: nat)
    ensures var s := "1e-" + ShowNat(n);
      Unsigned(s) == s && IsDecimalLiteral(s) && IsFloatLiteral(s) && Decimal(s) == (1, -(n as int))
  {
    NegativeExponentParts(n);
    OneMantissa();
  }

  /** `1e-n` underflows to 0.0 from `n = 400` on, although its digit is not 0. */
  lemma TinyExponentZero(n: nat)
    requires n >= 400
    ensures IsFloatLiteral("1e-" + ShowNat(n)) && IsZeroFloat("1e-" + ShowNat(n))
  {
    NegativeExponentLiteral(n);
    TinyUnderflows(n);
  }

  /** `1e-n` is not zero up to `n = 300`. */
  lemma SmallExponentNonzero(n: nat)
    requires n <= 300
    ensures IsFloatLiteral("1e-" + ShowNat(n)) && !IsZeroFloat("1e-" + ShowNat(n))
  {
    NegativeExponentLiteral(n);
    SmallAboveBound(n);
  }

  /** A digit part is zero exactly when every digit in it is `0`. */
  lemma {:induction false} DigitsZero(s: string)
    requires forall i :: 0 <= i < |s| ==> IsDigit(s[i]) || s[i] == '_'
    ensures DigitsValue(s) == 0 <==> forall i :: 0 <= i < |s| ==> s[i] == '0' || s[i] == '_'
    decreases |s|
  {
    if |s| > 0 {
      var p := s[..|s| - 1];
      assert forall i :: 0 <= i < |p| ==> p[i] == s[i];
      DigitsZero(p);
    }
  }

  /** A digit part is a decimal literal with no fraction and no exponent. */
  lemma DigitPartDecimal(u: string)
    requires IsDigitPart(u)
    ensures ExponentAt(u) == |u| && u[..ExponentAt(u)] == u
    ensures '.' !in u && IsDecimalLiteral(u)
  {
    assert forall i :: 0 <= i < |u| ==> u[i] != '.' && u[i] != 'e' && u[i] != 'E';
    assert u[..|u|] == u;
  }

  /** Whatever `int()` accepts, `float()` accepts too. */
  lemma IntLiteralIsFloat(s: string)
    requires IsIntLiteral(s)
    ensures IsFloatLiteral(s)
  {
    DigitPartDecimal(Unsigned(s));
  }

  /** An integer literal read as a float is zero exactly when its integer value is. */
  lemma IntLiteralZero(s: string)
    requires IsIntLiteral(s)
    ensures IsZeroFloat(s) <==> IntValue(s) == 0
  {
    var u := Unsigned(s);
    DigitPartDecimal(u);
    DigitsZero(u);
    assert MantissaParts(u) == (u, "");
    assert u + "" == u;
  }
}
