/** Decimal numerals: the digit strings that `BigInt(...)` reads and `toString()` prints. */
module Numerals {

  predicate IsDigit(c: char) {
    '0' <= c <= '9'
  }

  predicate AllDigits(s: string) {
    forall i :: 0 <= i < |s| ==> IsDigit(s[i])
  }

  function DigitChar(d: nat): (c: char)
    requires d < 10
    ensures IsDigit(c)
  {
    '0' + d as char
  }

  function DigitValue(c: char): (d: nat)
    requires IsDigit(c)
    ensures d < 10
  {
    (c - '0') as nat
  }

  function Pow10(k: nat): (p: nat)
    ensures p > 0
  {
    if k == 0 then 1 else 10 * Pow10(k - 1)
  }

  lemma TenTimes(x: int, y: int)
    ensures 10 * (x * y) == 10 * x * y
  {
  }

  lemma {:induction false} Pow10Add(a: nat, b: nat)
    ensures Pow10(a + b) == Pow10(a) * Pow10(b)
  {
    if a != 0 {
      Pow10Add(a - 1, b);
      assert a + b - 1 == a - 1 + b;
      TenTimes(Pow10(a - 1), Pow10(b));
    }
  }

  /** The digits of n, most significant first. */
  function Digits(n: nat): (s: string)
    ensures |s| > 0 && AllDigits(s)
  {
    if n < 10 then [DigitChar(n)] else Digits(n / 10) + [DigitChar(n % 10)]
  }

  function NumeralValue(s: string): nat
    requires AllDigits(s)
  {
    if s == "" then 0 else NumeralValue(s[..|s| - 1]) * 10 + DigitValue(s[|s| - 1])
  }

  lemma {:induction false} NumeralValueDigits(n: nat)
    ensures NumeralValue(Digits(n)) == n
  {
    if n < 10 {
      assert Digits(n)[..0] == "";
    } else {
      NumeralValueDigits(n / 10);
      assert Digits(n)[..|Digits(n)| - 1] == Digits(n / 10);
    }
  }

  lemma {:induction false} NumeralValueConcat(a: string, b: string)
    requires AllDigits(a) && AllDigits(b)
    ensures NumeralValue(a + b) == NumeralValue(a) * Pow10(|b|) + NumeralValue(b)
  {
    if b == "" {
      assert a + b == a;
    } else {
      var m := |b| - 1;
      NumeralValueConcat(a, b[..m]);
      assert (a + b)[..|a + b| - 1] == a + b[..m];
      AppendDigit(NumeralValue(a), Pow10(m), NumeralValue(b[..m]), DigitValue(b[m]));
    }
  }

  lemma AppendDigit(x: nat, p: nat, y: nat, d: nat)
    ensures (x * p + y) * 10 + d == x * (10 * p) + (y * 10 + d)
  {
  }

  function Zeros(n: nat): (s: string)
    ensures |s| == n && AllDigits(s)
  {
    seq(n, i => '0')
  }

  lemma {:induction false} ZerosValue(n: nat)
    ensures NumeralValue(Zeros(n)) == 0
  {
    if n != 0 {
      ZerosValue(n - 1);
      assert Zeros(n)[..n - 1] == Zeros(n - 1);
    }
  }

  /** Prepending zeros (`padStart`) leaves the value alone. */
  lemma PaddedValue(n: nat, s: string)
    requires AllDigits(s)
    ensures NumeralValue(Zeros(n) + s) == NumeralValue(s)
  {
    ZerosValue(n);
    NumeralValueConcat(Zeros(n), s);
  }

  /** `String(n)` of an integer. */
  function Show(n: int): (s: string)
    ensures |s| > 0
  {
    if n < 0 then "-" + Digits(-n) else Digits(n)
  }

  /** Printing integers is injective. */
  lemma ShowInjective(m: int, n: int)
    requires Show(m) == Show(n)
    ensures m == n
  {
    hide Digits, NumeralValue;
    assert (m < 0) == (Show(m)[0] == '-');
    assert (n < 0) == (Show(n)[0] == '-');
    if m < 0 {
      assert Show(m)[1..] == Digits(-m) && Show(n)[1..] == Digits(-n);
      NumeralValueDigits(-m);
      NumeralValueDigits(-n);
    } else {
      NumeralValueDigits(m);
      NumeralValueDigits(n);
    }
  }
}

/** Exact decimal-string arithmetic (src/pnl/decimal.ts). */
module Decimal {
  import opened Arithmetic
  import opened Prelude
  import opened Numerals

  datatype PnlError = InvalidDecimal | DivisionByZero | NegativePrecision | NegativeExponent | MissingPrice

  /** The number coefficient / 10^scale. */
  datatype Scaled = Scaled(coefficient: int, scale: nat)

  type Parsed = Result<Scaled, PnlError>
  type Computed = Result<string, PnlError>

  // ----- Parsing -----

  predicate HasSign(s: string) {
    s != "" && (s[0] == '-' || s[0] == '+')
  }

  function FindDot(s: string): (i: nat)
    ensures i <= |s|
    ensures i < |s| ==> s[i] == '.'
    ensures forall j :: 0 <= j < i ==> s[j] != '.'
  {
    if s == "" then 0
    else if s[0] == '.' then 0
    else
      var i := FindDot(s[1..]);
      assert forall j :: 0 < j <= i ==> s[j] == s[1..][j - 1] || j == i + 1;
      i + 1
  }

  /** The unsigned part: digits with an optional fraction, or a bare fraction. */
  function ParseUnsigned(s: string): Parsed {
    var dot := FindDot(s);
    var intPart := s[..dot];
    var fracPart := if dot < |s| then s[dot + 1..] else "";
    if !AllDigits(intPart) || !AllDigits(fracPart) || (intPart == "" && fracPart == "") then
      Err(InvalidDecimal)
    else
      Ok(Scaled(NumeralValue((if intPart == "" then "0" else intPart) + fracPart), |fracPart|))
  }

  function Parse(value: string): (r: Parsed)
    ensures r.Err? ==> r.error == InvalidDecimal
  {
    var negative := value != "" && value[0] == '-';
    var u :- ParseUnsigned(if HasSign(value) then value[1..] else value);
    Ok(Scaled(if negative then -u.coefficient else u.coefficient, u.scale))
  }

  predicate IsDecimal(s: string) {
    Parse(s).Ok?
  }

  // ----- Printing -----

  /** Drop trailing fractional zeros. */
  function Strip(v: Scaled): Scaled
    decreases v.scale
  {
    if v.scale > 0 && v.coefficient % 10 == 0 then Strip(Scaled(v.coefficient / 10, v.scale - 1)) else v
  }

  /** The digits before the decimal point. */
  function IntPart(body: string, scale: nat): string {
    if |body| <= scale then "0" else body[..|body| - scale]
  }

  /** The last `scale` digits, padded with zeros in front. */
  function FracPart(body: string, scale: nat): (f: string)
    ensures |f| == scale
  {
    if |body| <= scale then Zeros(scale - |body|) + body else body[|body| - scale..]
  }

  function RenderUnsigned(n: nat, scale: nat): string {
    var body := Digits(n);
    if scale == 0 then body else IntPart(body, scale) + "." + FracPart(body, scale)
  }

  function Render(v: Scaled): string {
    var u := RenderUnsigned(Abs(v.coefficient), v.scale);
    if v.coefficient < 0 then "-" + u else u
  }

  function Format(v: Scaled): string {
    if v.coefficient == 0 then "0" else Render(Strip(v))
  }

  /** The printing loop of the source: strip zeros in place, then render. */
  method FormatDecimal(coefficient: int, scale: nat) returns (text: string)
    ensures text == Format(Scaled(coefficient, scale))
  {
    if coefficient == 0 {
      return "0";
    }
    var c, s := coefficient, scale;
    while s > 0 && c % 10 == 0
      invariant c != 0
      invariant Strip(Scaled(c, s)) == Strip(Scaled(coefficient, scale))
    {
      c, s := c / 10, s - 1;
    }
    text := Render(Scaled(c, s));
  }

  // ----- Printing is inverse to parsing, and canonical -----

  lemma DigitsHaveNoDot(s: string)
    requires AllDigits(s)
    ensures FindDot(s) == |s|
  {
  }

  lemma FindDotBetween(a: string, b: string)
    requires AllDigits(a)
    ensures FindDot(a + "." + b) == |a|
  {
    var s := a + "." + b;
    assert s[|a|] == '.';
    assert forall j :: 0 <= j < |a| ==> s[j] == a[j];
  }

  lemma ParseWhole(digits: string)
    requires AllDigits(digits) && digits != ""
    ensures ParseUnsigned(digits) == Ok(Scaled(NumeralValue(digits), 0))
  {
    DigitsHaveNoDot(digits);
    assert digits[..|digits|] == digits && digits + "" == digits;
  }

  lemma ParsePoint(intPart: string, fracPart: string)
    requires AllDigits(intPart) && AllDigits(fracPart) && intPart != ""
    ensures ParseUnsigned(intPart + "." + fracPart) == Ok(Scaled(NumeralValue(intPart + fracPart), |fracPart|))
  {
    var s := intPart + "." + fracPart;
    FindDotBetween(intPart, fracPart);
    assert s[..|intPart|] == intPart && s[|intPart| + 1..] == fracPart;
  }

  lemma PartsValue(body: string, scale: nat)
    requires AllDigits(body) && body != ""
    ensures IntPart(body, scale) != "" && AllDigits(IntPart(body, scale)) && AllDigits(FracPart(body, scale))
    ensures NumeralValue(IntPart(body, scale) + FracPart(body, scale)) == NumeralValue(body)
  {
    if |body| <= scale {
      var k := scale - |body|;
      PaddedValue(k + 1, body);
      assert "0" + (Zeros(k) + body) == Zeros(k + 1) + body;
    } else {
      assert IntPart(body, scale) + FracPart(body, scale) == body;
    }
  }

  lemma ParseUnsignedRender(n: nat, scale: nat)
    ensures ParseUnsigned(RenderUnsigned(n, scale)) == Ok(Scaled(n, scale))
    ensures RenderUnsigned(n, scale) != "" && IsDigit(RenderUnsigned(n, scale)[0])
  {
    var body := Digits(n);
    NumeralValueDigits(n);
    if scale == 0 {
      ParseWhole(body);
    } else {
      PartsValue(body, scale);
      ParsePoint(IntPart(body, scale), FracPart(body, scale));
    }
  }

  lemma ParseSigned(u: string, n: int, scale: nat)
    requires u != "" && IsDigit(u[0]) && ParseUnsigned(u) == Ok(Scaled(n, scale))
    ensures Parse(u) == Ok(Scaled(n, scale))
    ensures Parse("-" + u) == Ok(Scaled(-n, scale))
  {
    assert ("-" + u)[1..] == u;
  }

  /** Reading back any rendered number gives exactly its coefficient and scale. */
  lemma ParseRender(v: Scaled)
    ensures Parse(Render(v)) == Ok(v)
  {
    var u := RenderUnsigned(Abs(v.coefficient), v.scale);
    ParseUnsignedRender(Abs(v.coefficient), v.scale);
    ParseSigned(u, Abs(v.coefficient), v.scale);
  }

  /** The rational a parsed decimal denotes. */
  function Value(v: Scaled): real {
    v.coefficient as real / Pow10(v.scale) as real
  }

  predicate Stripped(v: Scaled) {
    (v.coefficient == 0 ==> v.scale == 0) && (v.scale > 0 ==> v.coefficient % 10 != 0)
  }

  function Normal(v: Scaled): Scaled {
    if v.coefficient == 0 then Scaled(0, 0) else Strip(v)
  }

  lemma {:induction false} StripKeepsValue(v: Scaled)
    requires v.coefficient != 0
    ensures Value(Strip(v)) == Value(v) && Stripped(Strip(v)) && Strip(v).coefficient != 0
    decreases v.scale
  {
    if v.scale > 0 && v.coefficient % 10 == 0 {
      var w := Scaled(v.coefficient / 10, v.scale - 1);
      StripKeepsValue(w);
      assert v.coefficient == 10 * w.coefficient && Pow10(v.scale) == 10 * Pow10(w.scale);
      SameRatio(v, w);
    }
  }

  /** Equal as rationals is equal after cross-multiplication. */
  lemma SameRatio(v: Scaled, w: Scaled)
    ensures Value(v) == Value(w) <==> v.coefficient * Pow10(w.scale) == w.coefficient * Pow10(v.scale)
  {
    CrossMultiply(v.coefficient, Pow10(v.scale), w.coefficient, Pow10(w.scale));
  }

  lemma CrossMultiply(a: int, p: nat, b: int, q: nat)
    requires p > 0 && q > 0
    ensures a as real / p as real == b as real / q as real <==> a * q == b * p
  {
    assert (a * q) as real == a as real * q as real;
    assert (b * p) as real == b as real * p as real;
  }

  lemma StrippedUnique(v: Scaled, w: Scaled)
    requires Stripped(v) && Stripped(w) && Value(v) == Value(w)
    ensures v == w
  {
    SameRatio(v, w);
    if v.scale <= w.scale {
      ScaleUp(v.coefficient, v.scale, w.coefficient, w.scale);
    } else {
      ScaleUp(w.coefficient, w.scale, v.coefficient, v.scale);
    }
  }

  /** At a larger scale, the same number's coefficient is a multiple of ten. */
  lemma ScaleUp(a: int, s: nat, b: int, t: nat)
    requires s <= t && a * Pow10(t) == b * Pow10(s)
    ensures b == a * Pow10(t - s)
    ensures s < t ==> b % 10 == 0
  {
    Pow10Add(s, t - s);
    Rescaled(a, b, Pow10(s), Pow10(t - s), Pow10(t));
    if s < t {
      TenDivides(a, Pow10(t - s - 1));
    }
  }

  lemma Rescaled(a: int, b: int, p: nat, q: nat, pq: nat)
    requires p > 0 && pq == p * q && a * pq == b * p
    ensures b == a * q
  {
    Reassociate(a, p, q);
    CancelFactor(a * q, b, p);
  }

  lemma TenDivides(a: int, p: int)
    ensures a * (10 * p) % 10 == 0
  {
    assert a * (10 * p) == 10 * (a * p);
  }

  lemma Reassociate(a: int, p: int, q: int)
    ensures a * (p * q) == a * q * p == (a * q) * p
  {
  }

  lemma CancelFactor(a: int, b: int, p: nat)
    requires p > 0 && a * p == b * p
    ensures a == b
  {
    assert (a - b) * p == 0;
  }

  lemma NormalKeepsValue(v: Scaled)
    ensures Value(Normal(v)) == Value(v) && Stripped(Normal(v))
  {
    if v.coefficient != 0 {
      StripKeepsValue(v);
    }
  }

  /** parse(format(c, s)) is the shortest exact representation of c / 10^s. */
  lemma ParseFormat(v: Scaled)
    ensures Parse(Format(v)) == Ok(Normal(v)) && Value(Normal(v)) == Value(v)
  {
    NormalKeepsValue(v);
    ParseRender(Normal(v));
    assert Render(Scaled(0, 0)) == "0" by {
      assert Digits(0) == "0";
    }
  }

  /** Two printed results are the same string exactly when they are the same rational. */
  lemma FormatCanonical(v: Scaled, w: Scaled)
    ensures Format(v) == Format(w) <==> Value(v) == Value(w)
  {
    ParseFormat(v);
    ParseFormat(w);
    NormalKeepsValue(v);
    NormalKeepsValue(w);
    if Value(v) == Value(w) {
      StrippedUnique(Normal(v), Normal(w));
      assert Stripped(Normal(v));
      if v.coefficient == 0 {
        ZeroValue(v); ZeroValue(w);
      } else {
        ZeroValue(v); ZeroValue(w);
      }
    }
  }

  lemma ZeroValue(v: Scaled)
    ensures Value(v) == 0.0 <==> v.coefficient == 0
  {
  }

  // ----- Operations -----

  datatype Aligned = Aligned(av: int, bv: int, scale: nat)

  /** Both coefficients at the larger of the two scales. */
  function Align(a: Scaled, b: Scaled): Aligned {
    var scale := if a.scale < b.scale then b.scale else a.scale;
    Aligned(a.coefficient * Pow10(scale - a.scale), b.coefficient * Pow10(scale - b.scale), scale)
  }

  function Plus(a: Scaled, b: Scaled): Scaled {
    var al := Align(a, b);
    Scaled(al.av + al.bv, al.scale)
  }

  function Minus(a: Scaled, b: Scaled): Scaled {
    var al := Align(a, b);
    Scaled(al.av - al.bv, al.scale)
  }

  function Times(a: Scaled, b: Scaled): Scaled {
    Scaled(a.coefficient * b.coefficient, a.scale + b.scale)
  }

  function DAdd(a: string, b: string): Computed {
    var pa :- Parse(a);
    var pb :- Parse(b);
    Ok(Format(Plus(pa, pb)))
  }

  function DSub(a: string, b: string): Computed {
    var pa :- Parse(a);
    var pb :- Parse(b);
    Ok(Format(Minus(pa, pb)))
  }

  function DMul(a: string, b: string): Computed {
    var pa :- Parse(a);
    var pb :- Parse(b);
    Ok(Format(Times(pa, pb)))
  }

  /** -1, 0 or 1. */
  function DCompare(a: string, b: string): Result<int, PnlError> {
    var pa :- Parse(a);
    var pb :- Parse(b);
    var al := Align(pa, pb);
    Ok(if al.av < al.bv then -1 else if al.av > al.bv then 1 else 0)
  }

  function IsZero(a: string): Result<bool, PnlError> {
    var pa :- Parse(a);
    Ok(pa.coefficient == 0)
  }

  function TenPow(exp: int): Computed {
    if exp < 0 then Err(NegativeExponent) else Ok("1" + Zeros(exp))
  }

  /** The shortest spelling of a decimal string. */
  function Canonicalise(a: string): Computed {
    var pa :- Parse(a);
    Ok(Format(pa))
  }

  // ----- What the operations compute -----

  function ValueOf(s: string): real
    requires IsDecimal(s)
  {
    Value(Parse(s).value)
  }

  predicate Canonical(s: string) {
    Canonicalise(s) == Ok(s)
  }

  /** r is the canonical spelling of the rational x. */
  predicate Denotes(r: Computed, x: real) {
    r.Ok? && Canonical(r.value) && ValueOf(r.value) == x
  }

  lemma FormatDenotes(v: Scaled)
    ensures Denotes(Ok(Format(v)), Value(v))
  {
    ParseFormat(v);
    FormatCanonical(v, Normal(v));
  }

  /** A rational has one canonical spelling, so equal results are equal strings. */
  lemma DenotesUnique(r: Computed, s: Computed, x: real)
    requires Denotes(r, x)
    ensures Denotes(s, x) <==> r == s
  {
    if Denotes(s, x) {
      FormatCanonical(Parse(r.value).value, Parse(s.value).value);
    }
  }

  lemma ScaleValue(c: int, s: nat, t: nat)
    requires s <= t
    ensures Value(Scaled(c * Pow10(t - s), t)) == Value(Scaled(c, s))
  {
    Pow10Add(s, t - s);
    Reassociate(c, Pow10(s), Pow10(t - s));
    SameRatio(Scaled(c * Pow10(t - s), t), Scaled(c, s));
  }

  lemma AlignValues(a: Scaled, b: Scaled)
    ensures var al := Align(a, b);
      Value(Scaled(al.av, al.scale)) == Value(a) && Value(Scaled(al.bv, al.scale)) == Value(b)
  {
    var al := Align(a, b);
    ScaleValue(a.coefficient, a.scale, al.scale);
    ScaleValue(b.coefficient, b.scale, al.scale);
  }

  lemma SumOfRatios(a: int, b: int, p: nat)
    requires p > 0
    ensures (a + b) as real / p as real == a as real / p as real + b as real / p as real
    ensures (a - b) as real / p as real == a as real / p as real - b as real / p as real
  {
  }

  lemma ProductOfRatios(a: int, p: nat, b: int, q: nat)
    requires p > 0 && q > 0
    ensures (a * b) as real / (p * q) as real == (a as real / p as real) * (b as real / q as real)
  {
    var x, y, u, v := a as real, p as real, b as real, q as real;
    assert (a * b) as real == x * u && (p * q) as real == y * v;
    var m, n := x / y, u / v;
    assert x * u == (m * y) * (n * v) == (m * n) * (y * v);
  }

  lemma PlusValue(a: Scaled, b: Scaled)
    ensures Value(Plus(a, b)) == Value(a) + Value(b)
    ensures Value(Minus(a, b)) == Value(a) - Value(b)
  {
    var al := Align(a, b);
    AlignValues(a, b);
    SumOfRatios(al.av, al.bv, Pow10(al.scale));
  }

  lemma TimesValue(a: Scaled, b: Scaled)
    ensures Value(Times(a, b)) == Value(a) * Value(b)
  {
    Pow10Add(a.scale, b.scale);
    ProductOfRatios(a.coefficient, Pow10(a.scale), b.coefficient, Pow10(b.scale));
  }

  // ----- What is read -----

  /** The accepted spellings: an optional sign, then digits, digits with a fraction, or a bare fraction. */
  ghost predicate Spells(s: string, sign: string, whole: string, fraction: string) {
    && (sign == "" || sign == "+" || sign == "-")
    && (forall c :: c in whole + fraction ==> '0' <= c <= '9')
    && whole + fraction != ""
    && (s == sign + whole + "." + fraction || (s == sign + whole && fraction == ""))
  }

  lemma SpellsDigits(s: string, sign: string, whole: string, fraction: string)
    requires Spells(s, sign, whole, fraction)
    ensures AllDigits(whole) && AllDigits(fraction)
  {
    var digits := whole + fraction;
    forall i | 0 <= i < |whole| ensures IsDigit(whole[i]) {
      assert digits[i] == whole[i] && digits[i] in digits;
    }
    forall i | 0 <= i < |fraction| ensures IsDigit(fraction[i]) {
      assert digits[|whole| + i] == fraction[i] && digits[|whole| + i] in digits;
    }
  }

  lemma ParseAfterSign(sign: string, body: string)
    requires (sign == "" || sign == "+" || sign == "-") && body != "" && !HasSign(body) && ParseUnsigned(body).Ok?
    ensures var u := ParseUnsigned(body).value;
      Parse(sign + body) == Ok(Scaled(if sign == "-" then -u.coefficient else u.coefficient, u.scale))
  {
    hide ParseUnsigned;
    assert (sign + body)[|sign|..] == body;
  }

  lemma ParseBody(body: string, whole: string, fraction: string)
    requires AllDigits(whole) && AllDigits(fraction) && whole + fraction != ""
    requires body == whole + "." + fraction || (body == whole && fraction == "")
    ensures ParseUnsigned(body) == Ok(Scaled(NumeralValue(whole + fraction), |fraction|))
  {
    if body == whole && fraction == "" {
      assert whole + fraction == whole;
      ParseWhole(whole);
    } else if whole != "" {
      ParsePoint(whole, fraction);
    } else {
      FindDotBetween("", fraction);
      assert body[1..] == fraction && body[..0] == "" && "" + fraction == fraction;
      PaddedValue(1, fraction);
      assert Zeros(1) == "0";
    }
  }

  /** A spelled number is read as its digits, the fraction's scaled down, with its sign. */
  lemma ParseSpelled(s: string, sign: string, whole: string, fraction: string)
    requires Spells(s, sign, whole, fraction)
    ensures AllDigits(whole) && AllDigits(fraction)
    ensures var n: int := NumeralValue(whole + fraction);
      Parse(s) == Ok(Scaled(if sign == "-" then -n else n, |fraction|))
  {
    hide ParseUnsigned, NumeralValue, Parse, Spells;
    SpellsDigits(s, sign, whole, fraction);
    var body := SpelledBody(s, sign, whole, fraction);
    ParseBody(body, whole, fraction);
    ParseAfterSign(sign, body);
  }

  lemma SpelledBody(s: string, sign: string, whole: string, fraction: string) returns (body: string)
    requires Spells(s, sign, whole, fraction)
    ensures sign == "" || sign == "+" || sign == "-"
    ensures whole + fraction != "" && s == sign + body && body != "" && !HasSign(body)
    ensures body == whole + "." + fraction || (body == whole && fraction == "")
  {
    SpellsDigits(s, sign, whole, fraction);
    body := if s == sign + whole && fraction == "" then whole else whole + "." + fraction;
    assert sign + (whole + "." + fraction) == sign + whole + "." + fraction;
    assert body[0] == (if whole != "" then whole[0] else '.');
  }

  lemma ReadIsSpelled(s: string) returns (sign: string, whole: string, fraction: string)
    requires IsDecimal(s)
    ensures Spells(s, sign, whole, fraction)
  {
    hide ParseUnsigned, Spells;
    sign := if HasSign(s) then s[..1] else "";
    var body := s[|sign|..];
    whole, fraction := BodyIsSpelled(body);
    SignSpelled(body, sign, whole, fraction);
    assert s == sign + body;
  }

  lemma SignSpelled(body: string, sign: string, whole: string, fraction: string)
    requires Spells(body, "", whole, fraction) && (sign == "" || sign == "+" || sign == "-")
    ensures Spells(sign + body, sign, whole, fraction)
  {
    assert "" + whole == whole && "" + whole + "." + fraction == whole + "." + fraction;
    assert sign + (whole + "." + fraction) == sign + whole + "." + fraction;
  }

  lemma BodyIsSpelled(body: string) returns (whole: string, fraction: string)
    requires ParseUnsigned(body).Ok?
    ensures Spells(body, "", whole, fraction)
  {
    hide NumeralValue, Spells;
    var dot := FindDot(body);
    whole, fraction := body[..dot], if dot < |body| then body[dot + 1..] else "";
    assert body == if dot < |body| then whole + "." + fraction else whole;
    DigitsSpell(body, whole, fraction);
  }

  lemma DigitsSpell(body: string, whole: string, fraction: string)
    requires AllDigits(whole) && AllDigits(fraction) && (whole != "" || fraction != "")
    requires body == whole + "." + fraction || (body == whole && fraction == "")
    ensures Spells(body, "", whole, fraction)
  {
    assert "" + whole == whole;
    assert |whole + fraction| > 0;
    forall c | c in whole + fraction ensures '0' <= c <= '9' {
      assert c in whole || c in fraction;
    }
  }

  /** A string is accepted exactly when it is one of the spellings. */
  lemma AcceptedMeaning(s: string)
    ensures IsDecimal(s) <==> exists sign, whole, fraction :: Spells(s, sign, whole, fraction)
  {
    hide IsDecimal, Spells;
    if IsDecimal(s) {
      var sign, whole, fraction := ReadIsSpelled(s);
    }
    if sign, whole, fraction :| Spells(s, sign, whole, fraction) {
      SpelledIsRead(s, sign, whole, fraction);
    }
  }

  lemma SpelledIsRead(s: string, sign: string, whole: string, fraction: string)
    requires Spells(s, sign, whole, fraction)
    ensures IsDecimal(s)
  {
    ParseSpelled(s, sign, whole, fraction);
  }

  /** Each digit counts for ten times what it would one place further on. */
  lemma NumeralMeaning(c: char, s: string)
    requires IsDigit(c) && AllDigits(s)
    ensures NumeralValue([c] + s) == (c as int - '0' as int) * Pow10(|s|) + NumeralValue(s)
    ensures NumeralValue("") == 0
  {
    OneDigit(c);
    hide NumeralValue, Pow10;
    NumeralValueConcat([c], s);
  }

  lemma OneDigit(c: char)
    requires IsDigit(c)
    ensures NumeralValue([c]) == c as int - '0' as int && NumeralValue("") == 0
  {
    assert [c][..0] == "";
  }

  lemma FractionBelow(whole: string, fraction: string, negative: bool)
    requires AllDigits(whole) && AllDigits(fraction)
    ensures var n: int, p := NumeralValue(whole + fraction), Pow10(|fraction|) as real;
      (if negative then -n else n) as real / p
      == (if negative then -1.0 else 1.0) * (NumeralValue(whole) as real + NumeralValue(fraction) as real / p)
  {
    hide NumeralValue, Pow10;
    NumeralValueConcat(whole, fraction);
    SignedShare(NumeralValue(whole), NumeralValue(fraction), Pow10(|fraction|), negative);
  }

  lemma SignedShare(w: nat, f: nat, p: nat, negative: bool)
    requires p > 0
    ensures var n: int := w * p + f;
      (if negative then -n else n) as real / p as real
      == (if negative then -1.0 else 1.0) * (w as real + f as real / p as real)
  {
    var q, whole, share := p as real, w as real, f as real / p as real;
    RealFactors(w, p, f as real, whole, share, q);
    var n: int := w * p + f;
    assert n as real == (w * p) as real + f as real;
    if negative {
      QuotientOf((-n) as real, -(whole + share), q);
    } else {
      QuotientOf(n as real, whole + share, q);
    }
  }

  lemma RealFactors(w: nat, p: nat, f: real, whole: real, share: real, q: real)
    requires p > 0 && q == p as real && whole == w as real && share == f / q
    ensures (w * p) as real + f == (whole + share) * q
    ensures -((w * p) as real + f) == -(whole + share) * q
  {
    assert (w * p) as real == whole * q;
    assert share * q == f;
  }

  lemma QuotientOf(y: real, x: real, q: real)
    requires q != 0.0 && y == x * q
    ensures y / q == x
  {
  }

  /** What a spelling denotes: the whole part and its share of a unit, negated by a minus sign alone. */
  lemma SpelledValue(s: string, sign: string, whole: string, fraction: string)
    requires Spells(s, sign, whole, fraction)
    ensures IsDecimal(s) && AllDigits(whole) && AllDigits(fraction)
    ensures ValueOf(s) == (if sign == "-" then -1.0 else 1.0)
      * (NumeralValue(whole) as real + NumeralValue(fraction) as real / Pow10(|fraction|) as real)
  {
    hide NumeralValue, Parse, Pow10;
    ParseSpelled(s, sign, whole, fraction);
    FractionBelow(whole, fraction, sign == "-");
  }

  /** A sign alone, a point alone, two points and an exponent are refused. */
  lemma RefusedExamples()
    ensures !IsDecimal("") && !IsDecimal(".") && !IsDecimal("-") && !IsDecimal("1.2.3") && !IsDecimal("1e3")
  {
    hide NumeralValue;
    FindDotBetween("1", "2.3");
    assert "1" + "." + "2.3" == "1.2.3" && "1.2.3"[2..] == "2.3" && "2.3"[1] == '.';
    assert "-"[1..] == "" && "."[1..] == "";
    assert FindDot("1e3") == 3 && "1e3"[..3][1] == 'e';
  }

  // ----- Exact operations -----

  /** Addition, subtraction and multiplication are exact, and fail exactly on malformed input. */
  lemma DAddMeaning(a: string, b: string)
    ensures DAdd(a, b).Ok? <==> IsDecimal(a) && IsDecimal(b)
    ensures DAdd(a, b).Err? ==> DAdd(a, b) == Err(InvalidDecimal)
    ensures IsDecimal(a) && IsDecimal(b) ==> Denotes(DAdd(a, b), ValueOf(a) + ValueOf(b))
  {
    hide Value, Format, Parse;
    if IsDecimal(a) && IsDecimal(b) {
      PlusValue(Parse(a).value, Parse(b).value);
      FormatDenotes(Plus(Parse(a).value, Parse(b).value));
    }
  }

  lemma DSubMeaning(a: string, b: string)
    ensures DSub(a, b).Ok? <==> IsDecimal(a) && IsDecimal(b)
    ensures DSub(a, b).Err? ==> DSub(a, b) == Err(InvalidDecimal)
    ensures IsDecimal(a) && IsDecimal(b) ==> Denotes(DSub(a, b), ValueOf(a) - ValueOf(b))
  {
    hide Value, Format, Parse;
    if IsDecimal(a) && IsDecimal(b) {
      PlusValue(Parse(a).value, Parse(b).value);
      FormatDenotes(Minus(Parse(a).value, Parse(b).value));
    }
  }

  lemma DMulMeaning(a: string, b: string)
    ensures DMul(a, b).Ok? <==> IsDecimal(a) && IsDecimal(b)
    ensures DMul(a, b).Err? ==> DMul(a, b) == Err(InvalidDecimal)
    ensures IsDecimal(a) && IsDecimal(b) ==> Denotes(DMul(a, b), ValueOf(a) * ValueOf(b))
  {
    hide Value, Format, Parse;
    if IsDecimal(a) && IsDecimal(b) {
      TimesValue(Parse(a).value, Parse(b).value);
      FormatDenotes(Times(Parse(a).value, Parse(b).value));
    }
  }

  lemma DCompareMeaning(a: string, b: string)
    ensures DCompare(a, b).Ok? <==> IsDecimal(a) && IsDecimal(b)
    ensures IsDecimal(a) && IsDecimal(b) ==>
      DCompare(a, b) == Ok(if ValueOf(a) < ValueOf(b) then -1 else if ValueOf(a) > ValueOf(b) then 1 else 0)
  {
    hide Parse;
    if IsDecimal(a) && IsDecimal(b) {
      var al := Align(Parse(a).value, Parse(b).value);
      PlusValue(Parse(a).value, Parse(b).value);
      RatioSign(al.av - al.bv, Pow10(al.scale));
    }
  }

  lemma RatioSign(a: int, p: nat)
    requires p > 0
    ensures a < 0 <==> a as real / p as real < 0.0
    ensures a > 0 <==> a as real / p as real > 0.0
  {
    var q := a as real / p as real;
    assert q * p as real == a as real;
  }

  /** The ring laws, as literal equalities of strings, for all strings (malformed ones fail on both sides). */
  lemma AdditionLaws(a: string, b: string, c: string)
    ensures DAdd(a, b) == DAdd(b, a)
    ensures DAdd(a, b).Then(x => DAdd(x, c)) == DAdd(b, c).Then(x => DAdd(a, x))
    ensures DAdd(a, "0") == Canonicalise(a)
  {
    hide Value, Format, Parse;
    DAddMeaning(a, b);
    DAddMeaning(b, a);
    DAddMeaning(b, c);
    ZeroNumeral();
    DAddMeaning(a, "0");
    if IsDecimal(a) {
      FormatDenotes(Parse(a).value);
      DenotesUnique(DAdd(a, "0"), Canonicalise(a), ValueOf(a));
    }
    if IsDecimal(a) && IsDecimal(b) {
      DenotesUnique(DAdd(a, b), DAdd(b, a), ValueOf(a) + ValueOf(b));
      DAddMeaning(DAdd(a, b).value, c);
      if IsDecimal(c) {
        DAddMeaning(a, DAdd(b, c).value);
        DenotesUnique(DAdd(DAdd(a, b).value, c), DAdd(a, DAdd(b, c).value), ValueOf(a) + ValueOf(b) + ValueOf(c));
      }
    } else if IsDecimal(b) && IsDecimal(c) {
      DAddMeaning(a, DAdd(b, c).value);
    }
  }

  lemma ZeroNumeral()
    ensures Parse("0") == Ok(Scaled(0, 0)) && ValueOf("0") == 0.0 && Canonical("0")
  {
    FormatDenotes(Scaled(0, 0));
    ParseFormat(Scaled(0, 0));
  }

  /** Subtraction undoes addition, exactly and canonically. */
  lemma SubtractionLaws(a: string, b: string)
    requires IsDecimal(a) && IsDecimal(b)
    ensures DSub(a, a) == Ok("0")
    ensures DSub(a, b).Then(x => DAdd(x, b)) == Canonicalise(a)
    ensures DAdd(a, b).Then(x => DSub(x, b)) == Canonicalise(a)
  {
    hide Value, Format, Parse;
    ZeroNumeral();
    DSubMeaning(a, a);
    DenotesUnique(DSub(a, a), Ok("0"), 0.0);
    FormatDenotes(Parse(a).value);
    DSubMeaning(a, b);
    DAddMeaning(DSub(a, b).value, b);
    DenotesUnique(Canonicalise(a), DAdd(DSub(a, b).value, b), ValueOf(a));
    DAddMeaning(a, b);
    DSubMeaning(DAdd(a, b).value, b);
    DenotesUnique(Canonicalise(a), DSub(DAdd(a, b).value, b), ValueOf(a));
  }

  lemma MultiplicationLaws(a: string, b: string, c: string)
    ensures DMul(a, b) == DMul(b, a)
    ensures DMul(a, b).Then(x => DMul(x, c)) == DMul(b, c).Then(x => DMul(a, x))
  {
    hide Value, Format, Parse;
    DMulMeaning(a, b);
    DMulMeaning(b, a);
    DMulMeaning(b, c);
    if IsDecimal(a) && IsDecimal(b) {
      DenotesUnique(DMul(a, b), DMul(b, a), ValueOf(a) * ValueOf(b));
      DMulMeaning(DMul(a, b).value, c);
      if IsDecimal(c) {
        DMulMeaning(a, DMul(b, c).value);
        RealLaws(ValueOf(a), ValueOf(b), ValueOf(c));
        DenotesUnique(DMul(DMul(a, b).value, c), DMul(a, DMul(b, c).value), ValueOf(a) * ValueOf(b) * ValueOf(c));
      }
    } else if IsDecimal(b) && IsDecimal(c) {
      DMulMeaning(a, DMul(b, c).value);
    }
  }

  lemma RealLaws(x: real, y: real, z: real)
    ensures x * y * z == x * (y * z)
    ensures x * (y + z) == x * y + x * z
  {
  }

  lemma Distributivity(a: string, b: string, c: string)
    ensures DAdd(b, c).Then(x => DMul(a, x)) == DMul(a, b).Then(x => DMul(a, c).Then(y => DAdd(x, y)))
  {
    hide Value, Format, Parse;
    DAddMeaning(b, c);
    DMulMeaning(a, b);
    DMulMeaning(a, c);
    if IsDecimal(b) && IsDecimal(c) {
      DMulMeaning(a, DAdd(b, c).value);
      if IsDecimal(a) {
        DAddMeaning(DMul(a, b).value, DMul(a, c).value);
        RealLaws(ValueOf(a), ValueOf(b), ValueOf(c));
        DenotesUnique(DMul(a, DAdd(b, c).value), DAdd(DMul(a, b).value, DMul(a, c).value),
                      ValueOf(a) * (ValueOf(b) + ValueOf(c)));
      }
    }
  }

  // ----- Division -----

  /** BigInt division and remainder truncate toward zero. */
  function TruncDiv(a: int, b: int): int
    requires b != 0
  {
    if (a < 0) == (b < 0) then Abs(a) / Abs(b) else -(Abs(a) / Abs(b))
  }

  function TruncMod(a: int, b: int): int
    requires b != 0
  {
    if a < 0 then -(Abs(a) % Abs(b)) else Abs(a) % Abs(b)
  }

  /** The rounding step: adjust the truncated quotient when the doubled remainder passes the divisor. */
  function RoundQuotient(numerator: int, denominator: int): int
    requires denominator != 0
  {
    var quotient := TruncDiv(numerator, denominator);
    var twice := 2 * TruncMod(numerator, denominator);
    if twice >= denominator || twice <= -denominator then quotient + (if numerator < 0 then -1 else 1) else quotient
  }

  /** The two integers whose quotient is a / b in units of 10^-precision. */
  function DivNumerator(a: Scaled, b: Scaled, precision: nat): int {
    var shift := b.scale + precision - a.scale;
    if shift >= 0 then a.coefficient * Pow10(shift) else a.coefficient
  }

  function DivDenominator(a: Scaled, b: Scaled, precision: nat): int {
    var shift := b.scale + precision - a.scale;
    if shift >= 0 then b.coefficient else b.coefficient * Pow10(-shift)
  }

  lemma DivDenominatorSign(a: Scaled, b: Scaled, precision: nat)
    ensures DivDenominator(a, b, precision) == 0 <==> b.coefficient == 0
    ensures DivDenominator(a, b, precision) > 0 <==> b.coefficient > 0
  {
    var shift := b.scale + precision - a.scale;
    if shift < 0 {
      SignOfProduct(b.coefficient, Pow10(-shift));
    }
  }

  lemma SignOfProduct(a: int, p: nat)
    requires p > 0
    ensures a * p == 0 <==> a == 0
    ensures a * p > 0 <==> a > 0
  {
  }

  /** The quotient before printing. */
  function DivScaled(a: Scaled, b: Scaled, precision: nat): Scaled
    requires b.coefficient != 0
  {
    DivDenominatorSign(a, b, precision);
    Scaled(RoundQuotient(DivNumerator(a, b, precision), DivDenominator(a, b, precision)), precision)
  }

  function DDiv(a: string, b: string, precision: int): Computed {
    var pa :- Parse(a);
    var pb :- Parse(b);
    if pb.coefficient == 0 then Err(DivisionByZero)
    else if precision < 0 then Err(NegativePrecision)
    else
      Ok(Format(DivScaled(pa, pb, precision)))
  }

  /** The division of the source, reassigning numerator and denominator. */
  method DivideDecimal(a: string, b: string, precision: int) returns (r: Computed)
    ensures r == DDiv(a, b, precision)
  {
    hide Parse, Format, Pow10, TruncDiv, TruncMod;
    var pa, pb := Parse(a), Parse(b);
    if pa.Err? {
      return Err(pa.error);
    }
    if pb.Err? {
      return Err(pb.error);
    }
    if pb.value.coefficient == 0 {
      return Err(DivisionByZero);
    }
    if precision < 0 {
      return Err(NegativePrecision);
    }
    DivDenominatorSign(pa.value, pb.value, precision);
    var shift := pb.value.scale + precision - pa.value.scale;
    var numerator, denominator := pa.value.coefficient, pb.value.coefficient;
    if shift >= 0 {
      numerator := numerator * Pow10(shift);
    } else {
      denominator := denominator * Pow10(-shift);
    }
    var quotient := TruncDiv(numerator, denominator);
    var twiceRemainder := TruncMod(numerator, denominator) * 2;
    if twiceRemainder >= denominator || twiceRemainder <= -denominator {
      quotient := quotient + (if numerator < 0 then -1 else 1);
    }
    var text := FormatDecimal(quotient, precision);
    r := Ok(text);
  }

  /** n is the integer nearest to num / den (den > 0), with ties away from zero. */
  predicate NearestAwayFromZero(n: int, num: int, den: int) {
    var twiceError := 2 * (n * den - num);
    -den <= twiceError <= den && (twiceError == den ==> n > 0) && (twiceError == -den ==> n < 0)
  }

  lemma TruncDivMod(a: int, b: int)
    requires b != 0
    ensures TruncDiv(a, b) * b + TruncMod(a, b) == a
    ensures Abs(TruncMod(a, b)) < Abs(b)
    ensures a >= 0 ==> TruncMod(a, b) >= 0 && TruncDiv(a, b) * b >= 0
    ensures a < 0 ==> TruncMod(a, b) <= 0 && TruncDiv(a, b) * b <= 0
  {
    DivMod(Abs(a), Abs(b));
    Signs(Abs(a) / Abs(b), Abs(b));
  }

  lemma Signs(q: int, d: int)
    requires q >= 0 && d >= 0
    ensures q * d >= 0 && (-q) * d == -(q * d) == q * (-d) && (-q) * (-d) == q * d
  {
  }

  lemma Multiples(m: int, n: int, den: int)
    requires den > 0
    ensures m < n ==> n * den >= m * den + den
    ensures m < 0 ==> m * den <= -den
    ensures n > 0 ==> n * den >= den
    ensures m >= 0 ==> m * den >= 0
    ensures n <= 0 ==> n * den <= 0
    ensures (m + 1) * den == m * den + den && (m - 1) * den == m * den - den
  {
    NonNegative(n - m - 1, den);
    NonNegative(-m - 1, den);
    NonNegative(n - 1, den);
    NonNegative(m, den);
    NonNegative(-n, den);
  }

  lemma NonNegative(k: int, den: int)
    requires den > 0
    ensures k >= 0 ==> k * den >= 0
  {
  }

  /** Rounding to nearest with ties away from zero picks out a single integer. */
  lemma NearestUnique(m: int, n: int, num: int, den: int)
    requires den > 0 && NearestAwayFromZero(m, num, den) && NearestAwayFromZero(n, num, den)
    ensures m == n
  {
    Multiples(m, n, den);
    Multiples(n, m, den);
  }

  lemma RoundQuotientNear(num: int, den: int)
    requires den != 0
    ensures den > 0 ==> NearestAwayFromZero(RoundQuotient(num, den), num, den)
    ensures den < 0 ==> Abs(RoundQuotient(num, den) * den - num) >= -den
  {
    TruncDivMod(num, den);
    var q, m := TruncDiv(num, den), TruncMod(num, den);
    Neighbours(q, den);
    hide TruncDiv, TruncMod;
  }

  /**
   * For a positive divisor the rounded quotient is the one integer nearest to the true one, ties away from zero;
   * for a negative one it is always a whole unit or more away.
   */
  lemma RoundQuotientMeaning(num: int, den: int)
    requires den != 0
    ensures den > 0 ==> forall n :: NearestAwayFromZero(n, num, den) <==> n == RoundQuotient(num, den)
    ensures den < 0 ==> Abs(RoundQuotient(num, den) * den - num) >= -den
  {
    RoundQuotientNear(num, den);
    if den > 0 {
      forall n | NearestAwayFromZero(n, num, den)
        ensures n == RoundQuotient(num, den)
      {
        NearestUnique(n, RoundQuotient(num, den), num, den);
      }
    }
    hide RoundQuotient, NearestAwayFromZero;
  }

  lemma Neighbours(q: int, den: int)
    ensures (q + 1) * den == q * den + den && (q + -1) * den == q * den - den
  {
  }

  /** The integer n is nearest to x, and a tie goes away from zero. */
  predicate Nearest(n: real, x: real) {
    var twiceError := 2.0 * (n - x);
    -1.0 <= twiceError <= 1.0 && (twiceError == 1.0 ==> n > 0.0) && (twiceError == -1.0 ==> n < 0.0)
  }

  /** r is x rounded to `precision` fractional digits; both are compared in units of the last digit. */
  predicate RoundedTo(r: real, x: real, precision: nat) {
    Nearest(r * Pow10(precision) as real, x * Pow10(precision) as real)
  }

  /** r has no more than `precision` fractional digits. */
  ghost predicate HasDigits(r: real, precision: nat) {
    exists n: int :: r == InUnits(n, precision)
  }

  /** n units of the last of `precision` fractional digits. */
  function InUnits(n: int, precision: nat): real {
    n as real / Pow10(precision) as real
  }

  /** (ca / A) / (cb / B) in units of 1 / P, when N / D = ca * B * P / (cb * A). */
  lemma QuotientInUnits(ca: real, A: real, cb: real, B: real, P: real, N: real, D: real)
    requires A > 0.0 && B > 0.0 && P > 0.0 && cb != 0.0 && D != 0.0
    requires N * (cb * A) == D * (ca * B * P)
    ensures cb / B != 0.0 && D * (((ca / A) / (cb / B)) * P) == N
  {
    var u, v := ca / A, cb / B;
    assert ca == u * A && cb == v * B;
    var w := u / v;
    assert u == w * v;
    var c := cb * A;
    assert c != 0.0;
    Regroup(w, v, A, B, P, D);
    assert ca * B * P == w * P * c;
    assert N * c == (D * (w * P)) * c;
    CancelFactorReal(N, D * (w * P), c);
  }

  lemma Regroup(w: real, v: real, A: real, B: real, P: real, D: real)
    ensures w * v * A * B * P == w * P * (v * B * A)
    ensures D * (w * P * (v * B * A)) == (D * (w * P)) * (v * B * A)
  {
  }

  lemma DivCross(a: Scaled, b: Scaled, precision: nat)
    ensures DivNumerator(a, b, precision) * (b.coefficient * Pow10(a.scale))
         == DivDenominator(a, b, precision) * (a.coefficient * (Pow10(b.scale) * Pow10(precision)))
  {
    var shift := b.scale + precision - a.scale;
    Pow10Add(b.scale, precision);
    if shift >= 0 {
      Pow10Add(shift, a.scale);
      Rearrange(a.coefficient, Pow10(shift), b.coefficient, Pow10(a.scale));
    } else {
      Pow10Add(b.scale + precision, -shift);
      Rearrange(b.coefficient, Pow10(-shift), a.coefficient, Pow10(b.scale + precision));
    }
  }

  lemma Rearrange(a: int, s: int, b: int, p: int)
    ensures (a * s) * (b * p) == b * (a * (s * p)) == b * (a * (p * s)) == a * (b * p) * s
  {
  }

  lemma CastProducts(n: int, b: int, p: int, d: int, a: int, q: int, r: int)
    requires n * (b * p) == d * (a * (q * r))
    ensures n as real * (b as real * p as real) == d as real * (a as real * q as real * r as real)
  {
    assert (b * p) as real == b as real * p as real;
    assert (q * r) as real == q as real * r as real;
    assert (a * (q * r)) as real == a as real * (q * r) as real;
    assert (n * (b * p)) as real == n as real * (b * p) as real;
    assert (d * (a * (q * r))) as real == d as real * (a * (q * r)) as real;
  }

  /** The true quotient in units of 10^-precision is DivNumerator / DivDenominator. */
  lemma TrueQuotient(a: Scaled, b: Scaled, precision: nat)
    requires b.coefficient != 0
    ensures Value(b) != 0.0
    ensures DivDenominator(a, b, precision) != 0
    ensures DivDenominator(a, b, precision) as real * (Value(a) / Value(b) * Pow10(precision) as real)
         == DivNumerator(a, b, precision) as real
  {
    hide DivNumerator, DivDenominator, Pow10;
    DivDenominatorSign(a, b, precision);
    DivCross(a, b, precision);
    var n, d := DivNumerator(a, b, precision), DivDenominator(a, b, precision);
    CastProducts(n, b.coefficient, Pow10(a.scale), d, a.coefficient, Pow10(b.scale), Pow10(precision));
    QuotientInUnits(a.coefficient as real, Pow10(a.scale) as real, b.coefficient as real, Pow10(b.scale) as real,
                    Pow10(precision) as real, n as real, d as real);
  }

  lemma CancelOrder(x: real, y: real, k: real, xk: real, yk: real)
    requires k > 0.0 && xk == x * k && yk == y * k
    ensures x <= y <==> xk <= yk
  {
  }

  lemma Doubled(e: real, d: real)
    ensures 2.0 * e * d == 2.0 * (e * d)
    ensures -1.0 * d == -d
  {
  }

  /** Comparing e with multiples of one half after scaling by d. */
  lemma ScaledBounds(e: real, d: real, ed: real)
    requires d > 0.0 && ed == e * d
    ensures (2.0 * e <= 1.0 <==> 2.0 * ed <= d) && (2.0 * e >= 1.0 <==> 2.0 * ed >= d)
    ensures (2.0 * e >= -1.0 <==> 2.0 * ed >= -d) && (2.0 * e <= -1.0 <==> 2.0 * ed <= -d)
  {
    Doubled(e, d);
    CancelOrder(2.0 * e, 1.0, d, 2.0 * ed, d);
    CancelOrder(1.0, 2.0 * e, d, d, 2.0 * ed);
    CancelOrder(-1.0, 2.0 * e, d, -d, 2.0 * ed);
    CancelOrder(2.0 * e, -1.0, d, 2.0 * ed, -d);
  }

  lemma NearestQuotient(n: int, num: int, den: int, x: real)
    requires den != 0 && den as real * x == num as real
    requires den > 0 ==> NearestAwayFromZero(n, num, den)
    requires den < 0 ==> Abs(n * den - num) >= -den
    ensures Nearest(n as real, x) <==> den > 0
  {
    assert (n * den) as real == n as real * den as real;
    if den > 0 {
      ScaledBounds(n as real - x, den as real, (n * den - num) as real);
    } else {
      assert (n as real - x) * (-den) as real == (num - n * den) as real;
      ScaledBounds(n as real - x, (-den) as real, (num - n * den) as real);
    }
  }

  /** dDiv succeeds exactly on decimal operands with a nonzero divisor and a non-negative precision. */
  lemma DDivErrors(a: string, b: string, precision: int)
    ensures DDiv(a, b, precision).Ok? <==> IsDecimal(a) && IsDecimal(b) && ValueOf(b) != 0.0 && precision >= 0
    ensures IsDecimal(a) && IsDecimal(b) && ValueOf(b) == 0.0 ==> DDiv(a, b, precision) == Err(DivisionByZero)
  {
    if IsDecimal(b) {
      ZeroValue(Parse(b).value);
    }
  }

  /**
   * The quotient has no more digits than requested, and is within half a unit of the last of them of the true
   * quotient, with ties away from zero, if and only if the divisor is positive.
   */
  lemma DDivRounds(a: string, b: string, precision: nat)
    requires IsDecimal(a) && IsDecimal(b) && ValueOf(b) != 0.0
    ensures DDiv(a, b, precision).Ok? && Canonical(DDiv(a, b, precision).value)
    ensures RoundedTo(ValueOf(DDiv(a, b, precision).value), ValueOf(a) / ValueOf(b), precision) <==> ValueOf(b) > 0.0
    ensures HasDigits(ValueOf(DDiv(a, b, precision).value), precision)
  {
    var pa, pb := Parse(a).value, Parse(b).value;
    ZeroValue(pb);
    RatioSign(pb.coefficient, Pow10(pb.scale));
    DivScaledDigits(pa, pb, precision);
    FormatDenotes(DivScaled(pa, pb, precision));
    DivScaledRounds(pa, pb, precision);
    hide Value, Parse, Format, DivScaled, Nearest, HasDigits;
  }

  lemma DivScaledDigits(a: Scaled, b: Scaled, precision: nat)
    requires b.coefficient != 0
    ensures HasDigits(Value(DivScaled(a, b, precision)), precision)
  {
    hide RoundQuotient, DivNumerator, DivDenominator, Pow10;
    var q := DivScaled(a, b, precision);
    assert Value(q) == InUnits(q.coefficient, precision);
  }

  /** The nearest integer, halves away from zero. */
  function RoundAway(x: real): int {
    if x >= 0.0 then (x + 0.5).Floor else -((0.5 - x).Floor)
  }

  /** x rounded to some fractional digits. */
  function RoundedReal(x: real, precision: nat): real {
    InUnits(RoundAway(x * Pow10(precision) as real), precision)
  }

  /** Rounding to some digits has a single result. */
  lemma RoundedIsUnique(r: real, x: real, precision: nat)
    requires RoundedTo(r, x, precision) && HasDigits(r, precision)
    ensures r == RoundedReal(x, precision)
  {
    hide Pow10, RoundAway;
    var n: int :| r == InUnits(n, precision);
    UnscaledRatio(n, Pow10(precision));
    assert r * Pow10(precision) as real == n as real;
    NearestIsRoundAway(n, x * Pow10(precision) as real);
  }

  lemma NearestIsRoundAway(n: int, x: real)
    requires Nearest(n as real, x)
    ensures n == RoundAway(x)
  {
  }

  lemma DivScaledRounds(a: Scaled, b: Scaled, precision: nat)
    requires b.coefficient != 0
    ensures Value(b) != 0.0
    ensures RoundedTo(Value(DivScaled(a, b, precision)), Value(a) / Value(b), precision) <==> b.coefficient > 0
  {
    hide Value, Pow10, RoundedTo, RoundQuotient, DivNumerator, DivDenominator;
    TrueQuotient(a, b, precision);
    DivDenominatorSign(a, b, precision);
    RoundedRatio(DivNumerator(a, b, precision), DivDenominator(a, b, precision), Value(a) / Value(b), precision);
  }

  lemma RoundedRatio(num: int, den: int, x: real, precision: nat)
    requires den != 0 && den as real * (x * Pow10(precision) as real) == num as real
    ensures RoundedTo(Value(Scaled(RoundQuotient(num, den), precision)), x, precision) <==> den > 0
  {
    hide RoundQuotient, NearestAwayFromZero, Pow10, Abs;
    RoundQuotientNear(num, den);
    NearestQuotient(RoundQuotient(num, den), num, den, x * Pow10(precision) as real);
    UnscaledRatio(RoundQuotient(num, den), Pow10(precision));
    var q := Value(Scaled(RoundQuotient(num, den), precision));
    assert q * Pow10(precision) as real == RoundQuotient(num, den) as real;
  }

  lemma UnscaledRatio(n: int, p: nat)
    requires p > 0
    ensures n as real / p as real * p as real == n as real
  {
  }
}
