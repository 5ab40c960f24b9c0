/** The instrument-filter validator: basic argument checks and the exchange's LOT_SIZE, PRICE_FILTER and
    MIN_NOTIONAL/NOTIONAL constraints. Exchange decimals are exact rationals (`real`). */
module Validator {
  import opened Basics
  import opened Text

  /** Every way validation can fail; each carries the field name or the observed and required values
      the source's message reports. */
  datatype ValidationError =
    | InvalidSymbol(symbol: string)
    | InvalidSide
    | NotPositive(name: string)
    | BelowMinQty(symbol: string, quantity: real, minQty: real)
    | QtyNotStepMultiple(symbol: string, quantity: real, stepSize: real)
    | PriceOutOfBounds(symbol: string, price: real, minPrice: real, maxPrice: real)
    | PriceNotTickMultiple(symbol: string, price: real, tickSize: real)
    | BelowMinNotional(symbol: string, notional: real, minNotional: real)
    | UpperNotAboveLower
    | TooFewLevels

  /** One entry of a symbol's `filters` list. A notional filter stands for both the MIN_NOTIONAL and the
      NOTIONAL filter type; its optional fields are the `notional` and `minNotional` keys, present (`Some`)
      when the exchange sends a non-empty decimal string for them. Any other filter type is ignored. */
  datatype Filter =
    | LotSize(minQty: real, stepSize: real)
    | PriceFilter(minPrice: real, maxPrice: real, tickSize: real)
    | NotionalFilter(notional: Option<real>, minNotional: Option<real>)
    | OtherFilter(filterType: string)  // a type other than LOT_SIZE, PRICE_FILTER, MIN_NOTIONAL and NOTIONAL

  datatype FilterKind = LotSizeKind | PriceFilterKind | NotionalKind

  predicate OfKind(f: Filter, k: FilterKind) {
    match k
    case LotSizeKind => f.LotSize?
    case PriceFilterKind => f.PriceFilter?
    case NotionalKind => f.NotionalFilter?
  }

  function ValidateSymbol(symbol: string): (r: Outcome<ValidationError>)
    ensures r == Pass <==> symbol != [] && forall i | 0 <= i < |symbol| :: IsAlnumChar(symbol[i])
    ensures r != Pass ==> r == Fail(InvalidSymbol(symbol))
  {
    if symbol == [] || exists i | 0 <= i < |symbol| :: !IsAlnumChar(symbol[i]) then Fail(InvalidSymbol(symbol))
    else Pass
  }

  function ValidateSide(side: string): (r: Outcome<ValidationError>)
    ensures r == Pass || r == Fail(InvalidSide)
  {
    if Upper(side) == "BUY" || Upper(side) == "SELL" then Pass else Fail(InvalidSide)
  }

  /** The side is accepted exactly when it spells BUY or SELL in any mix of letter cases. */
  lemma SideAcceptedInAnyCase(side: string)
    ensures ValidateSide(side) == Pass <==> SpellsIgnoringCase(side, "BUY") || SpellsIgnoringCase(side, "SELL")
  {
    UpperMatchesIgnoringCase(side, "BUY");
    UpperMatchesIgnoringCase(side, "SELL");
  }

  function ValidatePositive(name: string, value: real): (r: Outcome<ValidationError>)
    ensures r == Pass <==> value > 0.0
    ensures r != Pass ==> r == Fail(NotPositive(name))
  {
    if value <= 0.0 then Fail(NotPositive(name)) else Pass
  }

  /** `Decimal //`: the quotient truncated toward zero. */
  function TruncDiv(v: real, step: real): int
    requires step != 0.0
  {
    var q := v / step;
    if q >= 0.0 then q.Floor else -((-q).Floor)
  }

  /** `_apply_step`: round a value to a whole number of steps (toward zero); a zero step leaves it alone. */
  function ApplyStep(v: real, step: real): real {
    if step == 0.0 then v else TruncDiv(v, step) as real * step
  }

  function Times(k: int, step: real): real {
    k as real * step
  }

  /** `v` is a whole number of steps. */
  ghost predicate IsMultipleOf(v: real, step: real) {
    exists k: int :: Times(k, step) == v
  }

  lemma ApplyStepZero(v: real)
    ensures ApplyStep(v, 0.0) == v
  {}

  /** A value survives step rounding exactly when it is a whole number of steps. */
  lemma ApplyStepFixesMultiples(v: real, step: real)
    ensures step != 0.0 ==> (ApplyStep(v, step) == v <==> IsMultipleOf(v, step))
  {
    if step == 0.0 { return; }
    var k := TruncDiv(v, step);
    if ApplyStep(v, step) == v {
      assert Times(k, step) == v;
    }
    if IsMultipleOf(v, step) {
      var j: int :| Times(j, step) == v;
      assert v / step == j as real;
      assert k == j;
    }
  }

  lemma MulMono(x: real, y: real, c: real)
    requires x <= y && c > 0.0
    ensures x * c <= y * c
  {}

  lemma MulMonoStrict(x: real, y: real, c: real)
    requires x < y && c > 0.0
    ensures x * c < y * c
  {}

  /** For a non-negative value and a positive step, rounding goes down by less than one step. */
  lemma ApplyStepRoundsDown(v: real, step: real)
    requires v >= 0.0 && step > 0.0
    ensures v - step < ApplyStep(v, step) <= v
  {
    var q := v / step;
    var k := q.Floor as real;
    assert q * step == v;
    MulMono(k, q, step);
    MulMonoStrict(q, k + 1.0, step);
    assert (k + 1.0) * step == k * step + step;
    if q < 0.0 { MulMonoStrict(q, 0.0, step); }
    assert ApplyStep(v, step) == k * step;
  }

  /** Index of the first filter of a kind, or |filters| when there is none (`next(...)` over the list). */
  function FirstOfKind(filters: seq<Filter>, k: FilterKind): (i: nat)
    ensures i <= |filters|
    ensures i < |filters| ==> OfKind(filters[i], k)
    ensures forall j | 0 <= j < i :: !OfKind(filters[j], k)
  {
    if filters == [] then 0
    else if OfKind(filters[0], k) then 0
    else 1 + FirstOfKind(filters[1..], k)
  }

  function Lookup(filters: seq<Filter>, k: FilterKind): (r: Option<Filter>)
    ensures r.Some? ==> OfKind(r.value, k) && r.value in filters
    ensures r.Some? ==> exists i | 0 <= i < |filters| :: filters[i] == r.value && forall j | 0 <= j < i :: !OfKind(filters[j], k)
    ensures r.None? <==> forall j | 0 <= j < |filters| :: !OfKind(filters[j], k)
  {
    var i := FirstOfKind(filters, k);
    if i < |filters| then Some(filters[i]) else None
  }

  /** The LOT_SIZE part: minQty first, then the step. */
  function CheckLotSize(symbol: string, qty: real, lot: Filter): (r: Outcome<ValidationError>)
    requires lot.LotSize?
    ensures qty < lot.minQty ==> r == Fail(BelowMinQty(symbol, qty, lot.minQty))
    ensures qty >= lot.minQty && lot.stepSize == 0.0 ==> r == Pass
    ensures qty >= lot.minQty && lot.stepSize != 0.0 ==>
              (r == Pass <==> IsMultipleOf(qty, lot.stepSize)) &&
              (r != Pass ==> r == Fail(QtyNotStepMultiple(symbol, qty, lot.stepSize)))
  {
    ApplyStepFixesMultiples(qty, lot.stepSize);
    if qty < lot.minQty then Fail(BelowMinQty(symbol, qty, lot.minQty))
    else if qty != ApplyStep(qty, lot.stepSize) then Fail(QtyNotStepMultiple(symbol, qty, lot.stepSize))
    else Pass
  }

  /** The PRICE_FILTER part: inclusive bounds first, then the tick. */
  function CheckPrice(symbol: string, price: real, pf: Filter): (r: Outcome<ValidationError>)
    requires pf.PriceFilter?
    ensures r == Pass <==> pf.minPrice <= price <= pf.maxPrice && (pf.tickSize == 0.0 || IsMultipleOf(price, pf.tickSize))
    ensures !(pf.minPrice <= price <= pf.maxPrice) ==> r == Fail(PriceOutOfBounds(symbol, price, pf.minPrice, pf.maxPrice))
    ensures pf.minPrice <= price <= pf.maxPrice && r != Pass ==> r == Fail(PriceNotTickMultiple(symbol, price, pf.tickSize))
  {
    ApplyStepFixesMultiples(price, pf.tickSize);
    if price < pf.minPrice || price > pf.maxPrice then Fail(PriceOutOfBounds(symbol, price, pf.minPrice, pf.maxPrice))
    else if price != ApplyStep(price, pf.tickSize) then Fail(PriceNotTickMultiple(symbol, price, pf.tickSize))
    else Pass
  }

  /** The minimum a notional filter demands: `notional` when present, else `minNotional`, else 0. */
  function NotionalMinimum(nf: Filter): (m: real)
    requires nf.NotionalFilter?
    ensures nf.notional.Some? ==> m == nf.notional.value
    ensures nf.notional.None? && nf.minNotional.Some? ==> m == nf.minNotional.value
    ensures nf.notional.None? && nf.minNotional.None? ==> m == 0.0
  {
    match nf.notional
    case Some(n) => n
    case None => match nf.minNotional { case Some(n) => n case None => 0.0 }
  }

  /** The notional part: only with a price and a positive minimum; the minimum itself passes. */
  function CheckNotional(symbol: string, qty: real, price: Option<real>, nf: Filter): (r: Outcome<ValidationError>)
    requires nf.NotionalFilter?
    ensures r == Pass <==> price.None? || NotionalMinimum(nf) <= 0.0 || qty * price.value >= NotionalMinimum(nf)
    ensures r != Pass ==> r == Fail(BelowMinNotional(symbol, qty * price.value, NotionalMinimum(nf)))
  {
    var minimum := NotionalMinimum(nf);
    if price.Some? && minimum > 0.0 && qty * price.value < minimum then
      Fail(BelowMinNotional(symbol, qty * price.value, minimum))
    else Pass
  }

  /** `validate_with_filters`: the first filter of each kind is checked, in the order lot size, price, notional,
      and the first failure is the result. */
  function ValidateWithFilters(symbol: string, qty: real, price: Option<real>, filters: seq<Filter>): (r: Outcome<ValidationError>)
    ensures Lookup(filters, LotSizeKind).Some? && CheckLotSize(symbol, qty, Lookup(filters, LotSizeKind).value) != Pass ==>
              r == CheckLotSize(symbol, qty, Lookup(filters, LotSizeKind).value)
    ensures (Lookup(filters, LotSizeKind).Some? ==> CheckLotSize(symbol, qty, Lookup(filters, LotSizeKind).value) == Pass) &&
            Lookup(filters, PriceFilterKind).Some? && price.Some? && CheckPrice(symbol, price.value, Lookup(filters, PriceFilterKind).value) != Pass ==>
              r == CheckPrice(symbol, price.value, Lookup(filters, PriceFilterKind).value)
    ensures (Lookup(filters, LotSizeKind).Some? ==> CheckLotSize(symbol, qty, Lookup(filters, LotSizeKind).value) == Pass) &&
            (Lookup(filters, PriceFilterKind).Some? && price.Some? ==> CheckPrice(symbol, price.value, Lookup(filters, PriceFilterKind).value) == Pass) &&
            Lookup(filters, NotionalKind).Some? && CheckNotional(symbol, qty, price, Lookup(filters, NotionalKind).value) != Pass ==>
              r == CheckNotional(symbol, qty, price, Lookup(filters, NotionalKind).value)
    ensures r == Pass <==>
              (Lookup(filters, LotSizeKind).Some? ==> CheckLotSize(symbol, qty, Lookup(filters, LotSizeKind).value) == Pass) &&
              (Lookup(filters, PriceFilterKind).Some? && price.Some? ==> CheckPrice(symbol, price.value, Lookup(filters, PriceFilterKind).value) == Pass) &&
              (Lookup(filters, NotionalKind).Some? ==> CheckNotional(symbol, qty, price, Lookup(filters, NotionalKind).value) == Pass)
  {
    var lot := Lookup(filters, LotSizeKind);
    var pf := Lookup(filters, PriceFilterKind);
    var nf := Lookup(filters, NotionalKind);
    if lot.Some? && CheckLotSize(symbol, qty, lot.value) != Pass then CheckLotSize(symbol, qty, lot.value)
    else if pf.Some? && price.Some? && CheckPrice(symbol, price.value, pf.value) != Pass then CheckPrice(symbol, price.value, pf.value)
    else if nf.Some? then CheckNotional(symbol, qty, price, nf.value)
    else Pass
  }

  /** With no filters every order passes (only the basic checks elsewhere apply). */
  lemma EmptyFiltersAccept(symbol: string, qty: real, price: Option<real>)
    ensures ValidateWithFilters(symbol, qty, price, []) == Pass
  {}

  lemma {:induction false} FirstOfKindAppend(fs: seq<Filter>, g: Filter, k: FilterKind)
    ensures FirstOfKind(fs, k) < |fs| ==> FirstOfKind(fs + [g], k) == FirstOfKind(fs, k)
    ensures FirstOfKind(fs, k) == |fs| && !OfKind(g, k) ==> FirstOfKind(fs + [g], k) == |fs| + 1
  {
    if fs != [] {
      assert (fs + [g])[1..] == fs[1..] + [g];
      if !OfKind(fs[0], k) {
        FirstOfKindAppend(fs[1..], g, k);
      }
    }
  }

  /** Only the first filter of each type is consulted: a later filter of a type already present changes nothing. */
  lemma LaterFilterIgnored(symbol: string, qty: real, price: Option<real>, fs: seq<Filter>, g: Filter)
    requires g.OtherFilter? || exists j | 0 <= j < |fs| :: fs[j].LotSize? == g.LotSize? && fs[j].PriceFilter? == g.PriceFilter? && fs[j].NotionalFilter? == g.NotionalFilter?
    ensures ValidateWithFilters(symbol, qty, price, fs + [g]) == ValidateWithFilters(symbol, qty, price, fs)
  {
    forall k: FilterKind ensures Lookup(fs + [g], k) == Lookup(fs, k) {
      if OfKind(g, k) {
        var j :| 0 <= j < |fs| && fs[j].LotSize? == g.LotSize? && fs[j].PriceFilter? == g.PriceFilter? && fs[j].NotionalFilter? == g.NotionalFilter?;
        assert OfKind(fs[j], k);
      }
      FirstOfKindAppend(fs, g, k);
      var i := FirstOfKind(fs, k);
      if i < |fs| { assert (fs + [g])[i] == fs[i]; }
    }
  }

  /** Quantity 1.0005 is not a whole number of 0.001 steps (1.0005 // 0.001 is 1000), nor is 1.00055. */
  lemma StepSizeExamples()
    ensures ValidateWithFilters("BTCUSDT", 1.0005, None, [LotSize(0.001, 0.001)]) == Fail(QtyNotStepMultiple("BTCUSDT", 1.0005, 0.001))
    ensures ValidateWithFilters("BTCUSDT", 1.00055, None, [LotSize(0.001, 0.001)]) == Fail(QtyNotStepMultiple("BTCUSDT", 1.00055, 0.001))
    ensures ValidateWithFilters("BTCUSDT", 1.001, None, [LotSize(0.001, 0.001)]) == Pass
    ensures ValidateWithFilters("BTCUSDT", 0.0005, None, [LotSize(0.001, 0.0005)]) == Fail(BelowMinQty("BTCUSDT", 0.0005, 0.001))
  {
    assert (1.0005 / 0.001).Floor == 1000;
    assert (1.00055 / 0.001).Floor == 1000;
    assert (1.001 / 0.001).Floor == 1001;
  }

  /** The notional minimum is inclusive: 0.001 at 10000 meets a minimum of 10, 0.001 at 9999.99 does not. */
  lemma NotionalExamples()
    ensures ValidateWithFilters("BTCUSDT", 0.001, Some(10000.0), [NotionalFilter(None, Some(10.0))]) == Pass
    ensures ValidateWithFilters("BTCUSDT", 0.001, Some(9999.99), [NotionalFilter(None, Some(10.0))]) ==
              Fail(BelowMinNotional("BTCUSDT", 9.99999, 10.0))
    ensures ValidateWithFilters("BTCUSDT", 0.001, Some(9999.99), [NotionalFilter(Some(5.0), Some(10.0))]) == Pass
    ensures ValidateWithFilters("BTCUSDT", 0.001, None, [NotionalFilter(None, Some(10.0))]) == Pass
  {}
}
