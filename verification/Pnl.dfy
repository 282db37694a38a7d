/** Fee conversion and the per-kind breakdown (src/pnl/fees.ts). */
module Fees {
  import opened Arithmetic
  import opened Prelude
  import opened Numerals
  import opened Decimal

  datatype FeeKind = VENUE | PLATFORM | PRIORITY | BASE | JITO | SLIPPAGE_MEMO

  datatype FeeComponent = FeeComponent(kind: FeeKind, tokenMint: string, amountAtomic: string)

  datatype PriceInfo = PriceInfo(priceUsd: string, decimals: int)

  type TokenPrice = map<string, PriceInfo>

  type Breakdown = map<FeeKind, string>

  const SOL_MINT_CODE := "SOL"
  const QUOTE_MINT := "quote"
  const ATOMIC_PRECISION: nat := 18

  /** One component in quote units; a 'quote' amount is passed through unread. */
  function FeeToQuote(fee: FeeComponent, prices: TokenPrice): Computed {
    if fee.tokenMint == QUOTE_MINT then Ok(fee.amountAtomic)
    else if fee.tokenMint !in prices then Err(MissingPrice)
    else
      var info := prices[fee.tokenMint];
      var unit :- TenPow(info.decimals);
      var wholeTokens :- DDiv(fee.amountAtomic, unit, ATOMIC_PRECISION);
      DMul(wholeTokens, info.priceUsd)
  }

  // ----- Exactness of the conversion -----

  lemma {:induction false} OneFollowedByZeros(n: nat)
    ensures NumeralValue("1" + Zeros(n)) == Pow10(n)
  {
    if n == 0 {
      assert "1" + Zeros(0) == "1" && "1"[..0] == "";
    } else {
      OneFollowedByZeros(n - 1);
      assert ("1" + Zeros(n))[..n] == "1" + Zeros(n - 1);
    }
  }

  lemma TenPowMeaning(exp: nat)
    ensures TenPow(exp).Ok? && Parse(TenPow(exp).value) == Ok(Scaled(Pow10(exp), 0))
  {
    OneFollowedByZeros(exp);
    ParseWhole("1" + Zeros(exp));
  }

  lemma DivisibleScaled(num: int, den: int, p: nat)
    requires den > 0 && p > 0
    ensures (num * p) % (den * p) == 0 <==> num % den == 0
  {
    var q := num / den;
    assert num == q * den + num % den;
    assert num * p == q * (den * p) + (num % den) * p by {
      assert (q * den + num % den) * p == q * (den * p) + (num % den) * p;
    }
    assert 0 <= (num % den) * p < den * p;
    QuotientUnique(num * p, den * p, q, (num % den) * p);
  }

  /** Rounding is exact exactly when the division leaves no remainder. */
  lemma RoundQuotientExact(num: int, den: int)
    requires den > 0
    ensures RoundQuotient(num, den) * den == num <==> num % den == 0
  {
    var n, q := RoundQuotient(num, den), num / den;
    RoundQuotientNear(num, den);
    DivMod(num, den);
    hide RoundQuotient;
    if n * den == num {
      QuotientUnique(num, den, n, 0);
    } else if num % den == 0 {
      Multiples(n, q, den);
      Multiples(q, n, den);
    }
  }

  /** The amount has no digits beyond `precision` fractional digits of a whole token. */
  predicate FitsPrecision(amount: Scaled, decimals: nat, precision: nat) {
    IsMultiple(amount.coefficient * Pow10(precision), Pow10(decimals + amount.scale))
  }

  predicate IsMultiple(n: int, d: int) {
    d > 0 && n % d == 0
  }

  lemma DivisibleUp(c: int, s: nat, t: nat, d: nat, p: nat, e: nat)
    requires t > 0 && d > 0 && s * t == p && d * t == e
    ensures IsMultiple(c * p, e) <==> IsMultiple(c * s, d)
  {
    DivisibleScaled(c * s, d, t);
    assert c * s * t == c * (s * t);
  }

  lemma DivisibleDown(c: int, s: nat, p: nat, d: nat, t: nat, e: nat)
    requires s > 0 && p > 0 && d > 0 && s * p == t && d * t == e
    ensures d * s > 0
    ensures IsMultiple(c * p, e) <==> IsMultiple(c, d * s)
  {
    DivisibleScaled(c, d * s, p);
    assert d * s * p == d * (s * p);
  }

  lemma DivParts(a: Scaled, d: int, precision: nat)
    ensures var shift := precision - a.scale; var unit := Scaled(d, 0);
      && (shift >= 0 ==>
           DivNumerator(a, unit, precision) == a.coefficient * Pow10(shift) && DivDenominator(a, unit, precision) == d)
      && (shift < 0 ==>
           DivNumerator(a, unit, precision) == a.coefficient && DivDenominator(a, unit, precision) == d * Pow10(-shift))
  {
    hide Pow10;
  }

  lemma DivisibleQuotient(amount: Scaled, decimals: nat, precision: nat, num: int, den: int)
    requires num == DivNumerator(amount, Scaled(Pow10(decimals), 0), precision)
    requires den == DivDenominator(amount, Scaled(Pow10(decimals), 0), precision)
    ensures den > 0
    ensures IsMultiple(num, den) <==> FitsPrecision(amount, decimals, precision)
  {
    hide Pow10, IsMultiple, DivNumerator, DivDenominator;
    var c, d, e := amount.coefficient, Pow10(decimals), Pow10(decimals + amount.scale);
    var shift := precision - amount.scale;
    Pow10Add(decimals, amount.scale);
    DivParts(amount, d, precision);
    if shift >= 0 {
      Pow10Add(shift, amount.scale);
      DivisibleUp(c, Pow10(shift), Pow10(amount.scale), d, Pow10(precision), e);
    } else {
      Pow10Add(-shift, precision);
      DivisibleDown(c, Pow10(-shift), Pow10(precision), d, Pow10(amount.scale), e);
    }
  }

  lemma ExactRatio(n: int, p: nat, x: real, num: int, den: int)
    requires p > 0 && den > 0 && den as real * (x * p as real) == num as real
    ensures n as real / p as real == x <==> n * den == num
  {
    var y := n as real / p as real;
    assert y * p as real == n as real;
    assert (n * den) as real == den as real * (y * p as real);
    CancelFactorReal(x * p as real, y * p as real, den as real);
    CancelFactorReal(x, y, p as real);
  }

  lemma WholeValue(c: int)
    ensures Value(Scaled(c, 0)) == c as real
  {
  }

  lemma ValueIs(a: Scaled)
    ensures Value(a) == a.coefficient as real / Pow10(a.scale) as real
  {
  }

  lemma QuotientExact(a: Scaled, decimals: nat, precision: nat)
    ensures var q := DivScaled(a, Scaled(Pow10(decimals), 0), precision);
      Value(q) == Value(a) / Pow10(decimals) as real <==> FitsPrecision(a, decimals, precision)
  {
    hide DivNumerator, DivDenominator, RoundQuotient, Pow10, FitsPrecision, Value;
    var unit := Scaled(Pow10(decimals), 0);
    ValueIs(DivScaled(a, unit, precision));
    var num, den := DivNumerator(a, unit, precision), DivDenominator(a, unit, precision);
    WholeValue(Pow10(decimals));
    DivisibleQuotient(a, decimals, precision, num, den);
    TrueQuotient(a, unit, precision);
    RoundQuotientExact(num, den);
    ExactRatio(RoundQuotient(num, den), Pow10(precision), Value(a) / Value(unit), num, den);
  }

  /** An atomic amount in whole tokens, unrounded. */
  function InTokens(amount: string, decimals: nat): real
    requires IsDecimal(amount)
  {
    ValueOf(amount) / Pow10(decimals) as real
  }

  /** The rounded quotient amount / 10^decimals is exact exactly when its digits fit. */
  lemma WholeTokensExact(amount: string, decimals: nat, precision: nat)
    requires IsDecimal(amount)
    ensures var tokens := DDiv(amount, TenPow(decimals).value, precision);
      && tokens.Ok? && IsDecimal(tokens.value)
      && (ValueOf(tokens.value) == InTokens(amount, decimals) <==>
           FitsPrecision(Parse(amount).value, decimals, precision))
  {
    TenPowMeaning(decimals);
    hide Parse, Format, FitsPrecision, DivScaled, Pow10, Value;
    QuotientExact(Parse(amount).value, decimals, precision);
    FormatDenotes(DivScaled(Parse(amount).value, Scaled(Pow10(decimals), 0), precision));
  }

  /** Conversion to quote units is exact if and only if the amount fits in 18 fractional digits of a token. */
  lemma FeeToQuoteExact(fee: FeeComponent, prices: TokenPrice)
    requires fee.tokenMint != QUOTE_MINT && fee.tokenMint in prices && prices[fee.tokenMint].decimals >= 0
    requires IsDecimal(fee.amountAtomic) && IsDecimal(prices[fee.tokenMint].priceUsd)
    requires ValueOf(prices[fee.tokenMint].priceUsd) != 0.0
    ensures var info := prices[fee.tokenMint];
      Denotes(FeeToQuote(fee, prices), InTokens(fee.amountAtomic, info.decimals) * ValueOf(info.priceUsd))
      <==> FitsPrecision(Parse(fee.amountAtomic).value, info.decimals, ATOMIC_PRECISION)
  {
    hide Parse, Format, Value, DDiv, DMul, Pow10, InTokens;
    var info := prices[fee.tokenMint];
    WholeTokensExact(fee.amountAtomic, info.decimals, ATOMIC_PRECISION);
    TenPowMeaning(info.decimals);
    var tokens := DDiv(fee.amountAtomic, TenPow(info.decimals).value, ATOMIC_PRECISION).value;
    DMulMeaning(tokens, info.priceUsd);
    DenotesProduct(FeeToQuote(fee, prices), ValueOf(tokens), InTokens(fee.amountAtomic, info.decimals),
      ValueOf(info.priceUsd));
  }

  lemma DenotesProduct(r: Computed, x: real, y: real, price: real)
    requires price != 0.0 && Denotes(r, x * price)
    ensures Denotes(r, y * price) <==> x == y
  {
    hide Value, Parse, Canonical;
    CancelFactorReal(x, y, price);
  }

  /** In particular whenever token decimals plus the amount's fractional digits are at most the precision. */
  lemma ShortAmountsFit(amount: Scaled, decimals: nat, precision: nat)
    requires decimals + amount.scale <= precision
    ensures FitsPrecision(amount, decimals, precision)
  {
    var k := decimals + amount.scale;
    Pow10Add(precision - k, k);
    MultiplyThrough(amount.coefficient, Pow10(precision - k), Pow10(k));
    QuotientUnique(amount.coefficient * Pow10(precision), Pow10(k), amount.coefficient * Pow10(precision - k), 0);
  }

  lemma MultiplyThrough(a: int, p: int, q: int)
    ensures a * p * q == a * (p * q)
  {
  }

  // ----- Breakdown per kind -----

  function AddCharge(b: Breakdown, kind: FeeKind, quote: string): Result<Breakdown, PnlError> {
    var total :- DAdd(if kind in b then b[kind] else "0", quote);
    Ok(b[kind := total])
  }

  /** Sum the converted components per kind, in list order. */
  function FeeBreakdown(components: seq<FeeComponent>, prices: TokenPrice): Result<Breakdown, PnlError> {
    if components == [] then Ok(map[])
    else
      var m := |components| - 1;
      var b :- FeeBreakdown(components[..m], prices);
      var quote :- FeeToQuote(components[m], prices);
      AddCharge(b, components[m].kind, quote)
  }

  /** The accumulating loop of the source, which stops at the first component it cannot convert. */
  method FeeBreakdownToQuote(components: seq<FeeComponent>, prices: TokenPrice) returns (r: Result<Breakdown, PnlError>)
    ensures r == FeeBreakdown(components, prices)
  {
    var breakdown: Breakdown := map[];
    for i := 0 to |components|
      invariant FeeBreakdown(components[..i], prices) == Ok(breakdown)
    {
      assert components[..i + 1][..i] == components[..i];
      var quote := FeeToQuote(components[i], prices);
      var added := if quote.Ok? then AddCharge(breakdown, components[i].kind, quote.value) else Err(quote.error);
      if added.Err? {
        BreakdownErrorPersists(components, prices, i + 1);
        return added;
      }
      breakdown := added.value;
    }
    assert components[..|components|] == components;
    r := Ok(breakdown);
  }

  lemma {:induction false} BreakdownErrorPersists(components: seq<FeeComponent>, prices: TokenPrice, i: nat)
    requires i <= |components| && FeeBreakdown(components[..i], prices).Err?
    ensures FeeBreakdown(components, prices) == FeeBreakdown(components[..i], prices)
  {
    if i < |components| {
      var front := components[..|components| - 1];
      assert front[..i] == components[..i];
      BreakdownErrorPersists(front, prices, i);
    } else {
      assert components[..i] == components;
    }
  }

  /** A well-formed amount, and for another mint a known price and token unit. */
  predicate Chargeable(fee: FeeComponent, prices: TokenPrice) {
    && IsDecimal(fee.amountAtomic)
    && (fee.tokenMint != "quote" ==>
          && fee.tokenMint in prices && prices[fee.tokenMint].decimals >= 0
          && IsDecimal(prices[fee.tokenMint].priceUsd))
  }

  /** An atomic amount in whole tokens, rounded to 18 fractional digits. */
  function Tokens(amount: string, decimals: nat): real
    requires IsDecimal(amount)
  {
    RoundedReal(InTokens(amount, decimals), 18)
  }

  /** What a component is worth: the amount itself in quote units, else its tokens at their price. */
  function QuoteValue(fee: FeeComponent, prices: TokenPrice): real {
    if !Chargeable(fee, prices) then 0.0
    else if fee.tokenMint == "quote" then ValueOf(fee.amountAtomic)
    else
      var info := prices[fee.tokenMint];
      Tokens(fee.amountAtomic, info.decimals) * ValueOf(info.priceUsd)
  }

  lemma UnitValue(decimals: nat)
    ensures TenPow(decimals).Ok? && IsDecimal(TenPow(decimals).value)
    ensures ValueOf(TenPow(decimals).value) == Pow10(decimals) as real > 0.0
  {
    hide Parse, Value;
    TenPowMeaning(decimals);
    WholeValue(Pow10(decimals));
  }

  lemma TokensRounded(amount: string, decimals: nat)
    requires IsDecimal(amount)
    ensures TenPow(decimals).Ok?
    ensures var tokens := DDiv(amount, TenPow(decimals).value, ATOMIC_PRECISION);
      tokens.Ok? && IsDecimal(tokens.value) && ValueOf(tokens.value) == Tokens(amount, decimals)
  {
    hide IsDecimal, ValueOf, Format, DDiv, RoundedTo, RoundedReal, HasDigits, Pow10, TenPow, Canonicalise;
    UnitValue(decimals);
    var unit := TenPow(decimals).value;
    DDivRounds(amount, unit, ATOMIC_PRECISION);
    CanonicalIsDecimal(DDiv(amount, unit, ATOMIC_PRECISION).value);
    RoundedIsUnique(ValueOf(DDiv(amount, unit, ATOMIC_PRECISION).value), InTokens(amount, decimals), ATOMIC_PRECISION);
  }

  lemma CanonicalIsDecimal(s: string)
    requires Canonical(s)
    ensures IsDecimal(s)
  {
    hide Format;
  }

  lemma ConversionMeaning(fee: FeeComponent, info: PriceInfo)
    requires info.decimals >= 0
    ensures TenPow(info.decimals).Ok?
    ensures var tokens := DDiv(fee.amountAtomic, TenPow(info.decimals).value, ATOMIC_PRECISION);
      && (tokens.Ok? <==> IsDecimal(fee.amountAtomic))
      && (tokens.Ok? ==>
            var quote := DMul(tokens.value, info.priceUsd);
            && (quote.Ok? <==> IsDecimal(info.priceUsd))
            && (quote.Ok? ==> Denotes(quote, Tokens(fee.amountAtomic, info.decimals) * ValueOf(info.priceUsd))))
  {
    hide IsDecimal, ValueOf, Format, DDiv, DMul, Tokens, Pow10, TenPow, Canonical;
    UnitValue(info.decimals);
    DDivErrors(fee.amountAtomic, TenPow(info.decimals).value, ATOMIC_PRECISION);
    if IsDecimal(fee.amountAtomic) {
      TokensRounded(fee.amountAtomic, info.decimals);
      DMulMeaning(DDiv(fee.amountAtomic, TenPow(info.decimals).value, ATOMIC_PRECISION).value, info.priceUsd);
    }
  }

  /**
   * What converting a component yields: a quote amount is passed through as it is; another mint is converted at its
   * price, canonically, once its amount is rounded to 18 digits of a token; and a mint without a price is an error.
   */
  lemma FeeToQuoteMeaning(fee: FeeComponent, prices: TokenPrice)
    ensures fee.tokenMint == "quote" ==> FeeToQuote(fee, prices) == Ok(fee.amountAtomic)
    ensures fee.tokenMint != "quote" && fee.tokenMint !in prices ==> FeeToQuote(fee, prices) == Err(MissingPrice)
    ensures fee.tokenMint != "quote" && Chargeable(fee, prices) ==>
      Denotes(FeeToQuote(fee, prices), QuoteValue(fee, prices))
    ensures Chargeable(fee, prices) <==> FeeToQuote(fee, prices).Ok? && IsDecimal(FeeToQuote(fee, prices).value)
    ensures Chargeable(fee, prices) ==> ValueOf(FeeToQuote(fee, prices).value) == QuoteValue(fee, prices)
  {
    hide IsDecimal, ValueOf, DDiv, DMul, Tokens, Canonical;
    if fee.tokenMint != "quote" && fee.tokenMint in prices && prices[fee.tokenMint].decimals >= 0 {
      ConversionMeaning(fee, prices[fee.tokenMint]);
      var r := FeeToQuote(fee, prices);
      if r.Ok? {
        DenotedIsDecimal(r, QuoteValue(fee, prices));
      }
    }
  }

  lemma DenotedIsDecimal(r: Computed, x: real)
    requires Denotes(r, x)
    ensures r.Ok? && IsDecimal(r.value) && ValueOf(r.value) == x
  {
    hide Format, Value;
  }

  /** The total charged under one kind. */
  function KindTotal(components: seq<FeeComponent>, prices: TokenPrice, kind: FeeKind): real {
    if components == [] then 0.0
    else
      var m := |components| - 1;
      KindTotal(components[..m], prices, kind) + PartOf(components[m], prices, kind)
  }

  function KindsOf(components: seq<FeeComponent>): set<FeeKind> {
    set c | c in components :: c.kind
  }

  /** b spells out each kind's total canonically, for exactly the kinds that occur. */
  ghost predicate BreakdownOf(b: Breakdown, components: seq<FeeComponent>, prices: TokenPrice) {
    && b.Keys == KindsOf(components)
    && forall k :: k in b ==> Denotes(Ok(b[k]), KindTotal(components, prices, k))
  }

  lemma OneMoreCharge(b: Breakdown, front: seq<FeeComponent>, last: FeeComponent, prices: TokenPrice, total: string)
    requires BreakdownOf(b, front, prices)
    requires Denotes(Ok(total), KindTotal(front, prices, last.kind) + QuoteValue(last, prices))
    ensures BreakdownOf(b[last.kind := total], front + [last], prices)
  {
    hide Denotes, QuoteValue, KindTotal, KindsOf;
    var components := front + [last];
    KindsOfMore(front, last);
    var after := b[last.kind := total];
    forall k | k in after ensures Denotes(Ok(after[k]), KindTotal(components, prices, k)) {
      KindTotalMore(front, last, prices, k);
    }
  }

  lemma KindTotalMore(front: seq<FeeComponent>, last: FeeComponent, prices: TokenPrice, kind: FeeKind)
    ensures KindTotal(front + [last], prices, kind)
      == KindTotal(front, prices, kind) + (if last.kind == kind then QuoteValue(last, prices) else 0.0)
  {
    hide QuoteValue;
    assert (front + [last])[..|front|] == front;
  }

  lemma KindsOfMore(front: seq<FeeComponent>, last: FeeComponent)
    ensures KindsOf(front + [last]) == KindsOf(front) + {last.kind}
  {
    assert last in front + [last];
    forall k ensures k in KindsOf(front + [last]) <==> k in KindsOf(front) + {last.kind} {
      if k in KindsOf(front) {
        var c :| c in front && c.kind == k;
        assert c in front + [last];
      }
    }
  }

  lemma AddChargeMeaning(b: Breakdown, front: seq<FeeComponent>, last: FeeComponent, prices: TokenPrice)
    requires BreakdownOf(b, front, prices) && FeeToQuote(last, prices).Ok?
    ensures var r := AddCharge(b, last.kind, FeeToQuote(last, prices).value);
      && (r.Ok? <==> Chargeable(last, prices))
      && (r.Ok? ==> BreakdownOf(r.value, front + [last], prices))
  {
    hide IsDecimal, ValueOf, FeeToQuote, DAdd, QuoteValue, Chargeable, Denotes, BreakdownOf, KindTotal;
    FeeToQuoteMeaning(last, prices);
    ChargedSoFar(b, front, prices, last.kind);
    var before := if last.kind in b then b[last.kind] else "0";
    DAddMeaning(before, FeeToQuote(last, prices).value);
    var r := DAdd(before, FeeToQuote(last, prices).value);
    if r.Ok? {
      OneMoreCharge(b, front, last, prices, r.value);
    }
  }

  lemma ChargedSoFar(b: Breakdown, front: seq<FeeComponent>, prices: TokenPrice, kind: FeeKind)
    requires BreakdownOf(b, front, prices)
    ensures var before := if kind in b then b[kind] else "0";
      IsDecimal(before) && ValueOf(before) == KindTotal(front, prices, kind)
  {
    hide IsDecimal, ValueOf, KindTotal, Canonical;
    ZeroIsDecimal();
    if kind in b {
      CanonicalIsDecimal(b[kind]);
    } else {
      UnusedKindTotal(front, prices, kind);
    }
  }

  lemma ZeroIsDecimal()
    ensures IsDecimal("0") && ValueOf("0") == 0.0
  {
    ZeroNumeral();
    hide Value;
  }

  /**
   * The breakdown succeeds exactly when every component can be charged, and then spells out each kind's total worth,
   * for exactly the kinds that occur.
   */
  lemma {:induction false} FeeBreakdownMeaning(components: seq<FeeComponent>, prices: TokenPrice)
    ensures FeeBreakdown(components, prices).Ok? <==> forall c :: c in components ==> Chargeable(c, prices)
    ensures FeeBreakdown(components, prices).Ok? ==>
      BreakdownOf(FeeBreakdown(components, prices).value, components, prices)
  {
    hide FeeToQuote, BreakdownOf, AddCharge, Chargeable, QuoteValue;
    if components == [] {
      EmptyBreakdown(prices);
    } else {
      var m := |components| - 1;
      assert components == components[..m] + [components[m]];
      FeeBreakdownMeaning(components[..m], prices);
      FeeToQuoteMeaning(components[m], prices);
      if FeeBreakdown(components[..m], prices).Ok? && FeeToQuote(components[m], prices).Ok? {
        AddChargeMeaning(FeeBreakdown(components[..m], prices).value, components[..m], components[m], prices);
      }
      assert components[m] in components && forall c :: c in components[..m] ==> c in components;
    }
  }

  lemma EmptyBreakdown(prices: TokenPrice)
    ensures BreakdownOf(map[], [], prices)
  {
  }

  lemma {:induction false} UnusedKindTotal(components: seq<FeeComponent>, prices: TokenPrice, kind: FeeKind)
    requires kind !in KindsOf(components)
    ensures KindTotal(components, prices, kind) == 0.0
  {
    if components != [] {
      var m := |components| - 1;
      assert components[m].kind in KindsOf(components);
      assert forall c :: c in components[..m] ==> c in components;
      UnusedKindTotal(components[..m], prices, kind);
    }
  }

  function PartOf(fee: FeeComponent, prices: TokenPrice, kind: FeeKind): real {
    if fee.kind == kind then QuoteValue(fee, prices) else 0.0
  }

  lemma {:induction false} KindTotalConcat(a: seq<FeeComponent>, b: seq<FeeComponent>, prices: TokenPrice,
          kind: FeeKind)
    ensures KindTotal(a + b, prices, kind) == KindTotal(a, prices, kind) + KindTotal(b, prices, kind)
  {
    hide PartOf;
    if b == [] {
      assert a + b == a;
    } else {
      var m := |b| - 1;
      assert (a + b)[..|a| + m] == a + b[..m];
      KindTotalConcat(a, b[..m], prices, kind);
    }
  }

  lemma RemoveComponent(components: seq<FeeComponent>, prices: TokenPrice, kind: FeeKind, i: nat)
    requires i < |components|
    ensures KindTotal(components, prices, kind)
      == KindTotal(components[..i] + components[i + 1..], prices, kind) + PartOf(components[i], prices, kind)
  {
    hide PartOf;
    var before, one, after := components[..i], [components[i]], components[i + 1..];
    assert KindTotal(one, prices, kind) == PartOf(components[i], prices, kind) by {
      assert one[..0] == [];
    }
    hide KindTotal;
    KindTotalConcat(before, one, prices, kind);
    KindTotalConcat(before + one, after, prices, kind);
    KindTotalConcat(before, after, prices, kind);
    assert components == before + one + after;
  }

  lemma RemoveFromMultiset(a: seq<FeeComponent>, b: seq<FeeComponent>) returns (j: nat)
    requires a != [] && multiset(a) == multiset(b)
    ensures j < |b| && b[j] == a[|a| - 1]
    ensures multiset(a[..|a| - 1]) == multiset(b[..j] + b[j + 1..])
  {
    var m := |a| - 1;
    assert a[m] in multiset(a);
    assert a[m] in multiset(b);
    j :| 0 <= j < |b| && b[j] == a[m];
    Without(a, m);
    Without(b, j);
    assert a[..m] + a[m + 1..] == a[..m];
  }

  lemma Without<T>(s: seq<T>, i: nat)
    requires i < |s|
    ensures multiset(s[..i] + s[i + 1..]) == multiset(s) - multiset{s[i]}
  {
    assert s == s[..i] + ([s[i]] + s[i + 1..]);
  }

  lemma {:induction false} KindTotalPermuted(a: seq<FeeComponent>, b: seq<FeeComponent>, prices: TokenPrice,
          kind: FeeKind)
    requires multiset(a) == multiset(b)
    ensures KindTotal(a, prices, kind) == KindTotal(b, prices, kind)
    decreases |a|
  {
    hide QuoteValue;
    if a == [] {
      assert |multiset(b)| == 0;
    } else {
      var j := RemoveFromMultiset(a, b);
      KindTotalPermuted(a[..|a| - 1], b[..j] + b[j + 1..], prices, kind);
      RemoveComponent(b, prices, kind, j);
    }
  }

  /** The breakdown does not depend on the order of the components, and neither does its failure. */
  lemma BreakdownOrderIrrelevant(a: seq<FeeComponent>, b: seq<FeeComponent>, prices: TokenPrice)
    requires multiset(a) == multiset(b)
    ensures FeeBreakdown(a, prices).Ok? <==> FeeBreakdown(b, prices).Ok?
    ensures FeeBreakdown(a, prices).Ok? ==> FeeBreakdown(a, prices) == FeeBreakdown(b, prices)
  {
    hide Denotes, FeeToQuote, FeeBreakdown;
    assert forall c :: c in a <==> c in multiset(a);
    assert forall c :: c in b <==> c in multiset(b);
    FeeBreakdownMeaning(a, prices);
    FeeBreakdownMeaning(b, prices);
    if FeeBreakdown(a, prices).Ok? {
      assert KindsOf(a) == KindsOf(b);
      EqualBreakdowns(FeeBreakdown(a, prices).value, FeeBreakdown(b, prices).value, a, b, prices);
    }
  }

  lemma EqualBreakdowns(x: Breakdown, y: Breakdown, a: seq<FeeComponent>, b: seq<FeeComponent>, prices: TokenPrice)
    requires multiset(a) == multiset(b) && KindsOf(a) == KindsOf(b)
    requires BreakdownOf(x, a, prices) && BreakdownOf(y, b, prices)
    ensures x == y
  {
    hide Denotes;
    forall k | k in x
      ensures x[k] == y[k]
    {
      KindTotalPermuted(a, b, prices, k);
      DenotesUnique(Ok(x[k]), Ok(y[k]), KindTotal(a, prices, k));
    }
  }
}

/** Realized profit and loss (src/pnl/core.ts and src/pnl/aggregate.ts). */
module RealizedPnl {
  import opened Prelude
  import opened Numerals
  import opened Decimal
  import opened Fees

  // ----- Core arithmetic -----

  datatype Side = LONG | SHORT

  function GrossPnlLong(exit: string, entry: string, qty: string): Computed {
    var move :- DSub(exit, entry);
    DMul(move, qty)
  }

  function GrossPnlShort(exit: string, entry: string, qty: string): Computed {
    var move :- DSub(entry, exit);
    DMul(move, qty)
  }

  function NetPnl(gross: string, fees: string): Computed {
    DSub(gross, fees)
  }

  /** Sum the amounts of the listed kinds, left to right from zero. */
  function SumKinds(b: Breakdown, kinds: seq<FeeKind>): Computed
    requires forall k :: k in kinds ==> k in b
  {
    if kinds == [] then Ok("0")
    else
      var m := |kinds| - 1;
      var total :- SumKinds(b, kinds[..m]);
      DAdd(total, b[kinds[m]])
  }

  /** The summing loop of feeTotal and of the anchor rule. */
  method SumFees(b: Breakdown, kinds: seq<FeeKind>) returns (total: Computed)
    requires forall k :: k in kinds ==> k in b
    ensures total == SumKinds(b, kinds)
  {
    var sum := "0";
    for i := 0 to |kinds|
      invariant SumKinds(b, kinds[..i]) == Ok(sum)
    {
      assert kinds[..i + 1][..i] == kinds[..i];
      var next := DAdd(sum, b[kinds[i]]);
      if next.Err? {
        SumErrorPersists(b, kinds, i + 1);
        return next;
      }
      sum := next.value;
    }
    assert kinds[..|kinds|] == kinds;
    total := Ok(sum);
  }

  lemma {:induction false} SumErrorPersists(b: Breakdown, kinds: seq<FeeKind>, i: nat)
    requires forall k :: k in kinds ==> k in b
    requires i <= |kinds| && SumKinds(b, kinds[..i]).Err?
    ensures SumKinds(b, kinds) == SumKinds(b, kinds[..i])
  {
    if i < |kinds| {
      assert kinds[..|kinds| - 1][..i] == kinds[..i];
      SumErrorPersists(b, kinds[..|kinds| - 1], i);
    } else {
      assert kinds[..i] == kinds;
    }
  }

  // ----- The anchor rule -----

  datatype Fill = Fill(qty: string, fillPrice: string)

  datatype PnlAnchor = Fills | OutAmount

  datatype Args = Args(side: Side, entryFill: Option<Fill>, exitFill: Option<Fill>,
                       components: Option<seq<FeeComponent>>, prices: TokenPrice, anchor: PnlAnchor)

  datatype Realized = Realized(side: Side, gross: string, feesTotal: string, net: string, fills: nat,
                               feeBreakdown: Breakdown, subtractedFromNet: seq<FeeKind>,
                               observed: bool, feesUnknown: bool)

  const SUBTRACTED_FILLS := [VENUE, PLATFORM, PRIORITY, BASE, JITO]
  const SUBTRACTED_OUT_AMOUNT := [PRIORITY, BASE, JITO]

  predicate HasFills(args: Args) {
    args.entryFill.Some? && args.exitFill.Some?
  }

  /** Key order of the breakdown object: kinds by first occurrence. */
  function InsertionOrder(components: seq<FeeComponent>): seq<FeeKind> {
    if components == [] then []
    else
      var order := InsertionOrder(components[..|components| - 1]);
      var kind := components[|components| - 1].kind;
      if kind in order then order else order + [kind]
  }

  function Present(kinds: seq<FeeKind>, b: Breakdown): (present: seq<FeeKind>)
    ensures forall k :: k in present <==> k in kinds && k in b
  {
    if kinds == [] then []
    else
      var rest := Present(kinds[1..], b);
      if kinds[0] in b then [kinds[0]] + rest else rest
  }

  function Gross(args: Args): Computed {
    if !HasFills(args) then Ok("0")
    else
      var entry, exit := args.entryFill.value, args.exitFill.value;
      if args.side == LONG then GrossPnlLong(exit.fillPrice, entry.fillPrice, entry.qty)
      else GrossPnlShort(exit.fillPrice, entry.fillPrice, entry.qty)
  }

  function Components(args: Args): seq<FeeComponent> {
    args.components.GetOr([])
  }

  function Subtracted(args: Args, b: Breakdown): (kinds: seq<FeeKind>)
    ensures forall k :: k in kinds ==> k in b
  {
    if HasFills(args) then
      Present(if args.anchor == OutAmount then SUBTRACTED_OUT_AMOUNT else SUBTRACTED_FILLS, b)
    else []
  }

  function Aggregate(args: Args): Result<Realized, PnlError> {
    var gross :- Gross(args);
    var b :- FeeBreakdown(Components(args), args.prices);
    InsertionOrderKinds(Components(args), args.prices);
    var feesTotal :- SumKinds(b, InsertionOrder(Components(args)));
    var subtracted := Subtracted(args, b);
    var subtractedTotal :- SumKinds(b, subtracted);
    var net :- if HasFills(args) then NetPnl(gross, subtractedTotal) else Ok(gross);
    Ok(Realized(args.side, gross, feesTotal, net,
                (if args.entryFill.Some? then 1 else 0) + (if args.exitFill.Some? then 1 else 0),
                b, subtracted, args.components.Some?, args.components.None? || !HasFills(args)))
  }

  method AggregateRealizedPnl(args: Args) returns (r: Result<Realized, PnlError>)
    ensures r == Aggregate(args)
  {
    var hasFills := HasFills(args);
    var gross := "0";
    if hasFills {
      var qty := args.entryFill.value.qty;
      gross :- if args.side == LONG
        then GrossPnlLong(args.exitFill.value.fillPrice, args.entryFill.value.fillPrice, qty)
        else GrossPnlShort(args.exitFill.value.fillPrice, args.entryFill.value.fillPrice, qty);
    }
    var breakdown: Breakdown := map[];
    var feesUnknown := args.components.None?;
    if args.components.Some? {
      breakdown :- FeeBreakdownToQuote(args.components.value, args.prices);
    }
    if !hasFills {
      feesUnknown := true;
    }
    InsertionOrderKinds(Components(args), args.prices);
    var feesTotal :- SumFees(breakdown, InsertionOrder(Components(args)));
    var subtracted: seq<FeeKind> := [];
    var subtractedTotal := "0";
    if hasFills {
      subtracted := Present(if args.anchor == OutAmount then SUBTRACTED_OUT_AMOUNT else SUBTRACTED_FILLS, breakdown);
      subtractedTotal :- SumFees(breakdown, subtracted);
    }
    var net :- if hasFills then NetPnl(gross, subtractedTotal) else Ok(gross);
    r := Ok(Realized(args.side, gross, feesTotal, net,
                     (if args.entryFill.Some? then 1 else 0) + (if args.exitFill.Some? then 1 else 0),
                     breakdown, subtracted, args.components.Some?, feesUnknown));
  }

  lemma InsertionOrderKinds(components: seq<FeeComponent>, prices: TokenPrice)
    ensures (set k | k in InsertionOrder(components)) == KindsOf(components)
    ensures NoRepeats(InsertionOrder(components))
    ensures FeeBreakdown(components, prices).Ok? ==> FeeBreakdown(components, prices).value.Keys == KindsOf(components)
  {
    hide FeeBreakdown;
    InsertionOrderMeaning(components);
    FeeBreakdownMeaning(components, prices);
    hide InsertionOrder, KindsOf;
  }

  lemma {:induction false} InsertionOrderMeaning(components: seq<FeeComponent>)
    ensures (set k | k in InsertionOrder(components)) == KindsOf(components)
    ensures NoRepeats(InsertionOrder(components))
  {
    if components != [] {
      var m := |components| - 1;
      InsertionOrderMeaning(components[..m]);
      assert components == components[..m] + [components[m]];
      assert KindsOf(components) == KindsOf(components[..m]) + {components[m].kind};
    }
  }

  // ----- What the aggregate says -----

  /** Every amount of the breakdown is a canonical decimal. */
  predicate WellFormed(b: Breakdown) {
    forall k :: k in b ==> Canonical(b[k])
  }

  function Amount(b: Breakdown, kinds: set<FeeKind>, k: FeeKind): real
    requires WellFormed(b)
  {
    if k in kinds && k in b then ValueOf(b[k]) else 0.0
  }

  /** The total of a set of kinds, kind by kind. */
  function TotalOf(b: Breakdown, kinds: set<FeeKind>): real
    requires WellFormed(b)
  {
    Amount(b, kinds, VENUE) + Amount(b, kinds, PLATFORM) + Amount(b, kinds, PRIORITY)
    + Amount(b, kinds, BASE) + Amount(b, kinds, JITO) + Amount(b, kinds, SLIPPAGE_MEMO)
  }

  lemma TotalWithOneMore(b: Breakdown, kinds: set<FeeKind>, k: FeeKind)
    requires WellFormed(b) && k !in kinds && k in b
    ensures TotalOf(b, kinds + {k}) == TotalOf(b, kinds) + ValueOf(b[k])
  {
    hide ValueOf, Canonical;
    match k
    case VENUE =>
    case PLATFORM =>
    case PRIORITY =>
    case BASE =>
    case JITO =>
    case SLIPPAGE_MEMO =>
  }

  /** Summing kinds in any order, without repeats, spells the same total. */
  lemma {:induction false} SumKindsMeaning(b: Breakdown, kinds: seq<FeeKind>)
    requires WellFormed(b) && NoRepeats(kinds) && forall k :: k in kinds ==> k in b
    ensures Denotes(SumKinds(b, kinds), TotalOf(b, set k | k in kinds))
  {
    hide DAdd, Value, Parse, Format, TotalOf, WellFormed;
    if kinds == [] {
      NothingTotals(b);
      ZeroNumeral();
      assert (set k | k in kinds) == {};
    } else {
      var m := |kinds| - 1;
      SumKindsMeaning(b, kinds[..m]);
      var front := set k | k in kinds[..m];
      assert kinds == kinds[..m] + [kinds[m]];
      assert (set k | k in kinds) == front + {kinds[m]};
      TotalWithOneMore(b, front, kinds[m]);
      WellFormedAmount(b, kinds[m]);
      DAddMeaning(SumKinds(b, kinds[..m]).value, b[kinds[m]]);
    }
  }

  lemma WellFormedAmount(b: Breakdown, k: FeeKind)
    requires WellFormed(b) && k in b
    ensures IsDecimal(b[k])
  {
  }

  lemma NothingTotals(b: Breakdown)
    requires WellFormed(b)
    ensures TotalOf(b, {}) == 0.0
  {
  }

  lemma BreakdownWellFormed(components: seq<FeeComponent>, prices: TokenPrice)
    requires FeeBreakdown(components, prices).Ok?
    ensures WellFormed(FeeBreakdown(components, prices).value)
  {
    hide Parse, Value, Format;
    FeeBreakdownMeaning(components, prices);
  }

  lemma {:induction false} PresentNoRepeats(kinds: seq<FeeKind>, b: Breakdown)
    requires NoRepeats(kinds)
    ensures NoRepeats(Present(kinds, b))
  {
    if kinds != [] {
      PresentNoRepeats(kinds[1..], b);
      assert forall k :: k in Present(kinds[1..], b) ==> k in kinds[1..];
    }
  }

  /** The kinds that reduce net: all charged kinds for fills, the SOL-side ones for an out-amount, else none. */
  ghost predicate AnchorKinds(args: Args, r: Realized) {
    forall k :: k in r.subtractedFromNet <==>
      && HasFills(args) && k in r.feeBreakdown && k != SLIPPAGE_MEMO
      && (args.anchor == OutAmount ==> k != VENUE && k != PLATFORM)
  }

  lemma SubtractedMembers(args: Args, b: Breakdown)
    ensures NoRepeats(Subtracted(args, b))
    ensures forall k :: k in Subtracted(args, b) <==>
      && HasFills(args) && k in b && k != SLIPPAGE_MEMO
      && (args.anchor == OutAmount ==> k != VENUE && k != PLATFORM)
  {
    hide Present, HasFills;
    PresentNoRepeats(SUBTRACTED_FILLS, b);
    PresentNoRepeats(SUBTRACTED_OUT_AMOUNT, b);
    assert forall k :: k in SUBTRACTED_FILLS <==> k != SLIPPAGE_MEMO by {
      forall k: FeeKind
        ensures k in SUBTRACTED_FILLS <==> k != SLIPPAGE_MEMO
      {
        assert SUBTRACTED_FILLS[0] == VENUE && SUBTRACTED_FILLS[1] == PLATFORM && SUBTRACTED_FILLS[2] == PRIORITY
            && SUBTRACTED_FILLS[3] == BASE && SUBTRACTED_FILLS[4] == JITO;
      }
    }
    assert forall k :: k in SUBTRACTED_OUT_AMOUNT <==> k == PRIORITY || k == BASE || k == JITO by {
      assert SUBTRACTED_OUT_AMOUNT[0] == PRIORITY && SUBTRACTED_OUT_AMOUNT[1] == BASE
        && SUBTRACTED_OUT_AMOUNT[2] == JITO;
    }
  }

  lemma SubtractedKinds(args: Args)
    requires Aggregate(args).Ok?
    ensures NoRepeats(Aggregate(args).value.subtractedFromNet)
    ensures AnchorKinds(args, Aggregate(args).value)
  {
    hide Gross, FeeBreakdown, SumKinds, NetPnl, Subtracted;
    SubtractedMembers(args, Aggregate(args).value.feeBreakdown);
  }

  /** The subtracted kinds as a set. */
  function SubtractedSet(r: Realized): set<FeeKind> {
    set k | k in r.subtractedFromNet
  }

  /**
   * net is gross minus the breakdown summed over subtractedFromNet, as strings and as rationals;
   * feesTotal sums every kind, also the ones that are only shown.
   */
  lemma NetIsGrossMinusSubtracted(args: Args)
    requires Aggregate(args).Ok?
    ensures var r := Aggregate(args).value;
      && AnchorKinds(args, r)
      && SumKinds(r.feeBreakdown, r.subtractedFromNet).Then(fees => DSub(r.gross, fees)) == Ok(r.net)
      && WellFormed(r.feeBreakdown) && IsDecimal(r.gross)
      && Denotes(Ok(r.net), ValueOf(r.gross) - TotalOf(r.feeBreakdown, SubtractedSet(r)))
      && Denotes(Ok(r.feesTotal), TotalOf(r.feeBreakdown, r.feeBreakdown.Keys))
  {
    hide Parse, Format, Value, DSub, DMul, FeeBreakdown, TotalOf, Present;
    var r := Aggregate(args).value;
    SubtractedKinds(args);
    BreakdownWellFormed(Components(args), args.prices);
    InsertionOrderKinds(Components(args), args.prices);
    SumKindsMeaning(r.feeBreakdown, r.subtractedFromNet);
    SumKindsMeaning(r.feeBreakdown, InsertionOrder(Components(args)));
    GrossCanonical(args);
    var fees := SumKinds(r.feeBreakdown, r.subtractedFromNet).value;
    DSubMeaning(r.gross, fees);
    if !HasFills(args) {
      assert r.subtractedFromNet == [];
      SubtractZero(r.gross);
    }
  }

  lemma SubtractZero(a: string)
    requires Canonical(a)
    ensures DSub(a, "0") == Ok(a)
  {
    hide Format, Value;
    ZeroNumeral();
    DSubMeaning(a, "0");
    DenotesUnique(DSub(a, "0"), Ok(a), ValueOf(a));
  }

  /** Gross is the signed price move times the entry quantity, or zero without both fills. */
  lemma GrossCanonical(args: Args)
    requires Gross(args).Ok?
    ensures Canonical(Gross(args).value)
    ensures HasFills(args) ==>
      var entry, exit := args.entryFill.value, args.exitFill.value;
      && IsDecimal(entry.fillPrice) && IsDecimal(exit.fillPrice) && IsDecimal(entry.qty)
      && ValueOf(Gross(args).value) ==
           (if args.side == LONG then ValueOf(exit.fillPrice) - ValueOf(entry.fillPrice)
            else ValueOf(entry.fillPrice) - ValueOf(exit.fillPrice)) * ValueOf(entry.qty)
  {
    hide Parse, Format, Value, DSub, DMul;
    ZeroNumeral();
    if HasFills(args) {
      var entry, exit := args.entryFill.value, args.exitFill.value;
      var first := if args.side == LONG then exit.fillPrice else entry.fillPrice;
      var second := if args.side == LONG then entry.fillPrice else exit.fillPrice;
      DSubMeaning(first, second);
      DMulMeaning(DSub(first, second).value, entry.qty);
    }
  }

  lemma GrossSucceeds(args: Args)
    ensures Gross(args).Ok? <==>
      (HasFills(args) ==>
         && IsDecimal(args.entryFill.value.fillPrice) && IsDecimal(args.exitFill.value.fillPrice)
         && IsDecimal(args.entryFill.value.qty))
  {
    hide IsDecimal, ValueOf, DSub, DMul, Canonicalise;
    if HasFills(args) {
      var entry, exit := args.entryFill.value, args.exitFill.value;
      var first := if args.side == LONG then exit.fillPrice else entry.fillPrice;
      var second := if args.side == LONG then entry.fillPrice else exit.fillPrice;
      DSubMeaning(first, second);
      if DSub(first, second).Ok? {
        CanonicalIsDecimal(DSub(first, second).value);
        DMulMeaning(DSub(first, second).value, entry.qty);
      }
    }
  }

  /** The aggregate succeeds exactly on well-formed fills and components that can all be converted, for either side. */
  lemma AggregateSucceeds(args: Args)
    ensures Aggregate(args).Ok? <==> Gross(args).Ok? && forall c :: c in Components(args) ==> Chargeable(c, args.prices)
    ensures Aggregate(args).Ok? ==>
      var r := Aggregate(args).value;
      && r.side == args.side && r.observed == args.components.Some?
      && r.feesUnknown == (args.components.None? || args.entryFill.None? || args.exitFill.None?)
      && r.fills == (if args.entryFill.Some? then 1 else 0) + (if args.exitFill.Some? then 1 else 0)
      && BreakdownOf(r.feeBreakdown, Components(args), args.prices)
  {
    hide Parse, IsDecimal, ValueOf, DSub, FeeBreakdown, TotalOf, Present, Chargeable, Canonical, WellFormed,
      BreakdownOf, InsertionOrder, Gross;
    FeeBreakdownMeaning(Components(args), args.prices);
    if Gross(args).Ok? && FeeBreakdown(Components(args), args.prices).Ok? {
      var b := FeeBreakdown(Components(args), args.prices).value;
      BreakdownWellFormed(Components(args), args.prices);
      InsertionOrderKinds(Components(args), args.prices);
      SumKindsMeaning(b, InsertionOrder(Components(args)));
      SubtractedMembers(args, b);
      SumKindsMeaning(b, Subtracted(args, b));
      GrossCanonical(args);
      NetSucceeds(Gross(args).value, SumKinds(b, Subtracted(args, b)));
    }
  }

  lemma NetSucceeds(gross: string, fees: Computed)
    requires Canonical(gross) && fees.Ok? && Canonical(fees.value)
    ensures NetPnl(gross, fees.value).Ok?
  {
    CanonicalIsDecimal(gross);
    CanonicalIsDecimal(fees.value);
    DSubMeaning(gross, fees.value);
    hide *;
  }

  /** The amount of one kind, "0" when absent. */
  function AmountOrZero(b: Breakdown, k: FeeKind): string {
    if k in b then b[k] else "0"
  }

  /** With both fills, the two anchors differ by exactly the venue and platform fees. */
  lemma AnchorsDifferByVenueAndPlatform(args: Args)
    requires HasFills(args)
    requires Aggregate(args.(anchor := Fills)).Ok? && Aggregate(args.(anchor := OutAmount)).Ok?
    ensures var fills, outAmount := Aggregate(args.(anchor := Fills)).value,
      Aggregate(args.(anchor := OutAmount)).value;
      var b := fills.feeBreakdown;
      && outAmount.feeBreakdown == b && outAmount.gross == fills.gross && outAmount.feesTotal == fills.feesTotal
      && DSub(outAmount.net, fills.net) == DAdd(AmountOrZero(b, VENUE), AmountOrZero(b, PLATFORM))
  {
    SameButForAnchor(args);
    NetIsGrossMinusSubtracted(args.(anchor := Fills));
    NetIsGrossMinusSubtracted(args.(anchor := OutAmount));
    VenueAndPlatform(args, Aggregate(args.(anchor := Fills)).value, Aggregate(args.(anchor := OutAmount)).value);
    hide *;
  }

  lemma SameButForAnchor(args: Args)
    requires Aggregate(args.(anchor := Fills)).Ok? && Aggregate(args.(anchor := OutAmount)).Ok?
    ensures var fills, outAmount := Aggregate(args.(anchor := Fills)).value,
      Aggregate(args.(anchor := OutAmount)).value;
      outAmount.feeBreakdown == fills.feeBreakdown && outAmount.gross == fills.gross
        && outAmount.feesTotal == fills.feesTotal
  {
    hide SumKinds, NetPnl, Subtracted, FeeBreakdown;
    assert Gross(args.(anchor := Fills)) == Gross(args.(anchor := OutAmount));
  }

  lemma VenueAndPlatform(args: Args, fills: Realized, outAmount: Realized)
    requires HasFills(args) && fills.feeBreakdown == outAmount.feeBreakdown && fills.gross == outAmount.gross
    requires AnchorKinds(args.(anchor := Fills), fills) && AnchorKinds(args.(anchor := OutAmount), outAmount)
    requires WellFormed(fills.feeBreakdown) && IsDecimal(fills.gross)
    requires Denotes(Ok(fills.net), ValueOf(fills.gross) - TotalOf(fills.feeBreakdown, SubtractedSet(fills)))
    requires Denotes(Ok(outAmount.net),
      ValueOf(outAmount.gross) - TotalOf(outAmount.feeBreakdown, SubtractedSet(outAmount)))
    ensures var b := fills.feeBreakdown;
      DSub(outAmount.net, fills.net) == DAdd(AmountOrZero(b, VENUE), AmountOrZero(b, PLATFORM))
  {
    hide Parse, Format, Value, DSub, DAdd;
    var b := fills.feeBreakdown;
    TotalDifference(b, SubtractedSet(fills), SubtractedSet(outAmount));
    ZeroNumeral();
    DSubMeaning(outAmount.net, fills.net);
    DAddMeaning(AmountOrZero(b, VENUE), AmountOrZero(b, PLATFORM));
    DenotesUnique(DSub(outAmount.net, fills.net), DAdd(AmountOrZero(b, VENUE), AmountOrZero(b, PLATFORM)),
                  Amount(b, b.Keys, VENUE) + Amount(b, b.Keys, PLATFORM));
  }

  lemma TotalDifference(b: Breakdown, more: set<FeeKind>, less: set<FeeKind>)
    requires WellFormed(b)
    requires forall k :: k in more <==> k in b && k != SLIPPAGE_MEMO
    requires forall k :: k in less <==> k in b && k != SLIPPAGE_MEMO && k != VENUE && k != PLATFORM
    ensures TotalOf(b, more) - TotalOf(b, less) == Amount(b, b.Keys, VENUE) + Amount(b, b.Keys, PLATFORM)
  {
    hide ValueOf, WellFormed;
  }

  /** Reordering the fee components changes nothing in the result. */
  lemma AggregateOrderIrrelevant(args: Args, components: seq<FeeComponent>)
    requires args.components.Some? && multiset(components) == multiset(args.components.value)
    ensures var other := args.(components := Some(components));
      && (Aggregate(args).Ok? <==> Aggregate(other).Ok?)
      && (Aggregate(args).Ok? ==> Aggregate(args) == Aggregate(other))
  {
    hide Parse, Value, Format, FeeBreakdown, Gross, NetPnl, InsertionOrder, SumKinds;
    var mine := args.components.value;
    BreakdownOrderIrrelevant(mine, components, args.prices);
    InsertionOrderKinds(mine, args.prices);
    InsertionOrderKinds(components, args.prices);
    assert Gross(args) == Gross(args.(components := Some(components))) by {
      SameGross(args, args.(components := Some(components)));
    }
    if FeeBreakdown(mine, args.prices).Ok? {
      var b := FeeBreakdown(mine, args.prices).value;
      BreakdownWellFormed(mine, args.prices);
      SumKindsMeaning(b, InsertionOrder(mine));
      SumKindsMeaning(b, InsertionOrder(components));
      DenotesUnique(SumKinds(b, InsertionOrder(mine)), SumKinds(b, InsertionOrder(components)), TotalOf(b, b.Keys));
      assert Subtracted(args, b) == Subtracted(args.(components := Some(components)), b);
    }
  }

  lemma SameGross(a: Args, b: Args)
    requires a.side == b.side && a.entryFill == b.entryFill && a.exitFill == b.exitFill
    ensures Gross(a) == Gross(b)
  {
  }

  // ----- Modeled (backtest) fees -----

  const BPS_BASE := "10000"
  const SIGS_PER_ORDER := "2"
  const DEFAULT_BASE_LAMPORTS := "5000"

  datatype FeeModel = FeeModel(venueBps: Option<string>, platformBps: Option<string>,
                               priorityLamports: Option<string>, baseLamports: Option<string>)

  type FeeList = Result<seq<FeeComponent>, PnlError>

  /** A basis-point charge on the trade value, or nothing for an absent or zero rate. */
  function BpsFee(kind: FeeKind, tradeValue: string, bps: Option<string>): FeeList {
    if bps.None? then Ok([])
    else
      var zero :- IsZero(bps.value);
      if zero then Ok([])
      else
        var product :- DMul(tradeValue, bps.value);
        var amount :- DDiv(product, BPS_BASE, ATOMIC_PRECISION);
        Ok([FeeComponent(kind, QUOTE_MINT, amount)])
  }

  function PriorityFee(lamports: Option<string>): FeeList {
    if lamports.None? then Ok([])
    else
      var zero :- IsZero(lamports.value);
      Ok(if zero then [] else [FeeComponent(PRIORITY, SOL_MINT_CODE, lamports.value)])
  }

  /** Two signatures per round trip. */
  function BaseFee(baseLamports: Option<string>): FeeList {
    var base := baseLamports.GetOr(DEFAULT_BASE_LAMPORTS);
    var zero :- IsZero(base);
    if zero then Ok([])
    else
      var amount :- DMul(base, SIGS_PER_ORDER);
      Ok([FeeComponent(BASE, SOL_MINT_CODE, amount)])
  }

  function ModelFees(tradeValue: string, model: FeeModel): FeeList {
    var venue :- BpsFee(VENUE, tradeValue, model.venueBps);
    var platform :- BpsFee(PLATFORM, tradeValue, model.platformBps);
    var priority :- PriorityFee(model.priorityLamports);
    var base :- BaseFee(model.baseLamports);
    Ok(venue + platform + priority + base)
  }

  /** A rate in basis points charges that part of the trade value, to 18 digits and in quote units; zero nothing. */
  lemma BpsFeeMeaning(kind: FeeKind, tradeValue: string, bps: Option<string>)
    requires IsDecimal(tradeValue) && (bps.Some? ==> IsDecimal(bps.value))
    ensures var fees := BpsFee(kind, tradeValue, bps);
      && fees.Ok?
      && (bps.None? || ValueOf(bps.value) == 0.0 ==> fees.value == [])
      && (bps.Some? && ValueOf(bps.value) != 0.0 ==>
            && |fees.value| == 1 && fees.value[0].kind == kind && fees.value[0].tokenMint == "quote"
            && IsBpsOf(fees.value[0].amountAtomic, tradeValue, bps.value))
  {
    hide IsDecimal, ValueOf, DMul, DDiv, IsZero, IsBpsOf;
    if bps.Some? {
      ZeroIff(bps.value);
      BpsAmount(tradeValue, bps.value);
    }
  }

  /** The amount is the rate in ten-thousandths of the value, rounded to 18 digits and spelled canonically. */
  predicate IsBpsOf(amount: string, tradeValue: string, bps: string)
    requires IsDecimal(tradeValue) && IsDecimal(bps)
  {
    Denotes(Ok(amount), RoundedReal(ValueOf(tradeValue) * ValueOf(bps) / 10000.0, 18))
  }

  lemma BpsAmount(tradeValue: string, bps: string)
    requires IsDecimal(tradeValue) && IsDecimal(bps)
    ensures var product := DMul(tradeValue, bps);
      && product.Ok?
      && var amount := DDiv(product.value, BPS_BASE, ATOMIC_PRECISION);
      amount.Ok? && IsBpsOf(amount.value, tradeValue, bps)
  {
    hide IsDecimal, ValueOf, DMul, DDiv, RoundedTo, RoundedReal, HasDigits, Canonicalise;
    DMulMeaning(tradeValue, bps);
    TenThousand();
    var product := DMul(tradeValue, bps).value;
    CanonicalIsDecimal(product);
    DDivRounds(product, BPS_BASE, ATOMIC_PRECISION);
    var amount := DDiv(product, BPS_BASE, ATOMIC_PRECISION).value;
    CanonicalIsDecimal(amount);
    RoundedIsUnique(ValueOf(amount), ValueOf(product) / 10000.0, ATOMIC_PRECISION);
  }

  lemma ZeroIff(s: string)
    requires IsDecimal(s)
    ensures IsZero(s) == Ok(ValueOf(s) == 0.0)
  {
    ZeroValue(Parse(s).value);
    hide Parse, Value;
  }

  lemma TenThousand()
    ensures IsDecimal("10000") && ValueOf("10000") == 10000.0
  {
    hide IsDecimal, ValueOf;
    UnitValue(4);
    assert TenPow(4).value == "10000";
    assert Pow10(1) == 10 && Pow10(2) == 100 && Pow10(3) == 1000 && Pow10(4) == 10000;
  }

  /** The priority fee is the lamports as given; nothing for none, or zero. */
  lemma PriorityFeeMeaning(lamports: Option<string>)
    requires lamports.Some? ==> IsDecimal(lamports.value)
    ensures PriorityFee(lamports)
      == Ok(if lamports.None? || ValueOf(lamports.value) == 0.0 then []
            else [FeeComponent(PRIORITY, "SOL", lamports.value)])
  {
    if lamports.Some? {
      ZeroIff(lamports.value);
    }
    hide IsZero, ValueOf, IsDecimal;
  }

  /** The modeled fees are those of venue, platform, priority and base, in this order. */
  lemma ModelFeesMeaning(tradeValue: string, model: FeeModel)
    requires ModelFees(tradeValue, model).Ok?
    ensures var venue := BpsFee(VENUE, tradeValue, model.venueBps);
      var platform := BpsFee(PLATFORM, tradeValue, model.platformBps);
      var priority, base := PriorityFee(model.priorityLamports), BaseFee(model.baseLamports);
      && venue.Ok? && platform.Ok? && priority.Ok? && base.Ok?
      && ModelFees(tradeValue, model).value == venue.value + platform.value + priority.value + base.value
      && (forall c :: c in base.value ==> c.kind == BASE && c.tokenMint == "SOL")
  {
    hide BpsFee, PriorityFee, IsZero, DMul;
  }

  /** The modeled base fee is exactly twice the per-signature lamports, canonically, and disappears only at zero. */
  lemma BaseFeeIsTwoSignatures(baseLamports: Option<string>)
    requires IsDecimal(baseLamports.GetOr("5000"))
    ensures var base := ValueOf(baseLamports.GetOr("5000"));
      var fees := BaseFee(baseLamports);
      && fees.Ok?
      && (base == 0.0 <==> fees.value == [])
      && (base != 0.0 ==> |fees.value| == 1 && fees.value[0].kind == BASE && fees.value[0].tokenMint == "SOL"
                          && Denotes(Ok(fees.value[0].amountAtomic), 2.0 * base))
  {
    var base := baseLamports.GetOr(DEFAULT_BASE_LAMPORTS);
    ZeroValue(Parse(base).value);
    TwoNumeral();
    DMulMeaning(base, SIGS_PER_ORDER);
    hide Format, DMul, Value;
  }

  lemma TwoNumeral()
    ensures IsDecimal("2") && ValueOf("2") == 2.0
  {
    ParseRender(Scaled(2, 0));
    assert Render(Scaled(2, 0)) == "2";
  }

  /** Modeled fees never contain the informational slippage memo. */
  lemma ModeledFeesAreCharged(tradeValue: string, model: FeeModel)
    requires ModelFees(tradeValue, model).Ok?
    ensures SLIPPAGE_MEMO !in KindsOf(ModelFees(tradeValue, model).value)
  {
    hide DMul, DDiv, IsZero;
  }

  /** For fills, net is gross minus feesTotal exactly when the informational memo contributes nothing. */
  lemma FillsNetSubtractsAllFees(args: Args)
    requires HasFills(args) && args.anchor == Fills && Aggregate(args).Ok?
    ensures var r := Aggregate(args).value;
      && WellFormed(r.feeBreakdown)
      && (DSub(r.gross, r.feesTotal) == Ok(r.net) <==>
           Amount(r.feeBreakdown, r.feeBreakdown.Keys, SLIPPAGE_MEMO) == 0.0)
  {
    NetIsGrossMinusSubtracted(args);
    MemoDifference(args, Aggregate(args).value);
    hide *;
  }

  lemma MemoDifference(args: Args, r: Realized)
    requires HasFills(args) && args.anchor == Fills && AnchorKinds(args, r)
    requires WellFormed(r.feeBreakdown) && IsDecimal(r.gross)
    requires Denotes(Ok(r.net), ValueOf(r.gross) - TotalOf(r.feeBreakdown, SubtractedSet(r)))
    requires Denotes(Ok(r.feesTotal), TotalOf(r.feeBreakdown, r.feeBreakdown.Keys))
    ensures DSub(r.gross, r.feesTotal) == Ok(r.net) <==>
      Amount(r.feeBreakdown, r.feeBreakdown.Keys, SLIPPAGE_MEMO) == 0.0
  {
    hide Parse, Format, Value, DSub;
    var b := r.feeBreakdown;
    MemoPart(b, SubtractedSet(r));
    DSubMeaning(r.gross, r.feesTotal);
    DenotesUnique(DSub(r.gross, r.feesTotal), Ok(r.net), ValueOf(r.gross) - TotalOf(b, b.Keys));
  }

  lemma MemoPart(b: Breakdown, charged: set<FeeKind>)
    requires WellFormed(b)
    requires forall k :: k in charged <==> k in b && k != SLIPPAGE_MEMO
    ensures TotalOf(b, b.Keys) == TotalOf(b, charged) + Amount(b, b.Keys, SLIPPAGE_MEMO)
  {
    hide ValueOf, WellFormed;
  }
}
