/**
 Exchange quantity rules: `_normalize_exchange_quantity` of src/paper_broker.py,
 the market-rule evidence it leaves behind, and the independent re-derivation
 of fills and rejection reasons in `reconcile` of src/paper_store.py.
 */
module Quantities {
  import opened Common
  import opened Numbers
  import opened Grid

  /** A float or Decimal that may be NaN or infinite. */
  datatype Num = NonFinite | Fin(v: real)

  datatype Reason =
    | NonPositiveQuantity
    | MissingExchangeRules
    | SymbolNotTradable
    | MarketOrdersNotAllowed
    | InvalidExchangeRules
    | MarketNotionalReferenceUnverifiable
    | BelowMinQuantity
    | AboveMaxQuantity
    | BelowMarketMinQuantity
    | AboveMarketMaxQuantity
    | MarketLotStepMismatch
    | LotStepMismatch
    | BelowMinNotional
    | BelowMarketNotional
    | AboveMarketNotional
    | PriceRangeExceeded
    | RangeEvidenceUnavailable
    | InsufficientCash

  datatype Verdict = Accepted(quantity: real) | Rejected(reason: Reason)

  datatype Limits<+T> = Limits(
    minQuantity: T, maxQuantity: T, step: T,
    marketMin: T, marketMax: T, marketStep: T,
    minNotional: T, notionalMin: T, notionalMax: T)

  /** Which notional filters bind MARKET orders, and their average-price windows. */
  datatype Flags = Flags(
    minNotionalApplies: bool, minNotionalAvgMins: int,
    notionalMinApplies: bool, notionalMaxApplies: bool, notionalAvgMins: int)

  /** `raw` holds the exact Decimal values, `float` the legacy convenience values. */
  datatype SymbolRules = SymbolRules(
    active: bool, marketOrderAllowed: bool, flags: Flags,
    raw: Limits<Option<Num>>, float: Limits<Option<Num>>)

  // ---------------------------------------------------------------- the broker

  function Exact(x: Option<Num>): Option<real> {
    match x
    case Some(Fin(v)) => Some(v)
    case _ => None
  }

  /** The raw value when there is one, else the finite float. */
  function Effective(raw: Option<Num>, float: Option<Num>): Option<Num> {
    if raw.Some? then raw
    else if Exact(float).Some? then float
    else None
  }

  function EffectiveLimits(r: SymbolRules): Limits<Option<Num>> {
    Limits(
      Effective(r.raw.minQuantity, r.float.minQuantity),
      Effective(r.raw.maxQuantity, r.float.maxQuantity),
      Effective(r.raw.step, r.float.step),
      Effective(r.raw.marketMin, r.float.marketMin),
      Effective(r.raw.marketMax, r.float.marketMax),
      Effective(r.raw.marketStep, r.float.marketStep),
      Effective(r.raw.minNotional, r.float.minNotional),
      Effective(r.raw.notionalMin, r.float.notionalMin),
      Effective(r.raw.notionalMax, r.float.notionalMax))
  }

  function ExactLimits(l: Limits<Option<Num>>): Limits<Option<real>> {
    Limits(Exact(l.minQuantity), Exact(l.maxQuantity), Exact(l.step),
           Exact(l.marketMin), Exact(l.marketMax), Exact(l.marketStep),
           Exact(l.minNotional), Exact(l.notionalMin), Exact(l.notionalMax))
  }

  predicate Malformed(x: Option<Num>) {
    x.Some? && (x.value.NonFinite? || x.value.v < 0.0)
  }

  predicate AnyMalformed(l: Limits<Option<Num>>) {
    || Malformed(l.minQuantity) || Malformed(l.maxQuantity) || Malformed(l.step)
    || Malformed(l.marketMin) || Malformed(l.marketMax) || Malformed(l.marketStep)
    || Malformed(l.minNotional) || Malformed(l.notionalMin) || Malformed(l.notionalMax)
  }

  predicate Inverted(lo: Option<real>, hi: Option<real>) {
    lo.Some? && 0.0 < lo.value && hi.Some? && 0.0 < hi.value && hi.value < lo.value
  }

  predicate RequiresAverage(f: Flags) {
    || (f.minNotionalApplies && f.minNotionalAvgMins > 0)
    || (f.notionalMinApplies && f.notionalAvgMins > 0)
    || (f.notionalMaxApplies && f.notionalAvgMins > 0)
  }

  predicate PositiveFloat(x: Option<Num>) {
    x.Some? && x.value.Fin? && 0.0 < x.value.v
  }

  /** The legacy float limits are checked only where no raw value replaces them. */
  predicate FloatFallbackBroken(r: SymbolRules) {
    || (r.raw.minQuantity.None? && !PositiveFloat(r.float.minQuantity))
    || (r.raw.step.None? && !PositiveFloat(r.float.step))
    || (r.raw.minNotional.None? && r.flags.minNotionalApplies && !PositiveFloat(r.float.minNotional))
    || (r.raw.maxQuantity.None? && r.float.maxQuantity.Some?
        && (!PositiveFloat(r.float.maxQuantity)
            || (PositiveFloat(r.float.minQuantity)
                && r.float.maxQuantity.value.v < r.float.minQuantity.value.v)))
  }

  function FloorTo(q: real, step: Option<real>): real {
    if step.Some? && 0.0 < step.value then FloorStep(q, step.value) else q
  }

  predicate Misaligned(q: real, step: Option<real>) {
    step.Some? && 0.0 < step.value && !Aligned(q, step.value)
  }

  predicate Below(q: real, limit: Option<real>) {
    limit.Some? && 0.0 < limit.value && q < limit.value
  }

  predicate Above(q: real, limit: Option<real>) {
    limit.Some? && 0.0 < limit.value && limit.value < q
  }

  /** The quantity checks in source order: `lot` is floored to LOT_SIZE, `n` to both steps. */
  function LotReason(l: Limits<Option<real>>, tolerance: real, lot: real, n: real): Option<Reason> {
    if lot <= tolerance then Some(NonPositiveQuantity)
    else if Below(lot, l.minQuantity) then Some(BelowMinQuantity)
    else if Above(lot, l.maxQuantity) then Some(AboveMaxQuantity)
    else if Below(n, l.marketMin) then Some(BelowMarketMinQuantity)
    else if Above(n, l.marketMax) then Some(AboveMarketMaxQuantity)
    else if Misaligned(n, l.marketStep) then Some(MarketLotStepMismatch)
    else if n <= tolerance then Some(NonPositiveQuantity)
    else if Below(n, l.minQuantity) then Some(BelowMinQuantity)
    else if Above(n, l.maxQuantity) then Some(AboveMaxQuantity)
    else if Misaligned(n, l.step) then Some(LotStepMismatch)
    else None
  }

  function NotionalReason(l: Limits<Option<real>>, f: Flags, notional: real): Option<Reason> {
    if f.minNotionalApplies && (l.minNotional.None? || notional < l.minNotional.value)
      then Some(BelowMinNotional)
    else if f.notionalMinApplies && (l.notionalMin.None? || notional < l.notionalMin.value)
      then Some(BelowMarketNotional)
    else if f.notionalMaxApplies && (l.notionalMax.None? || Above(notional, l.notionalMax))
      then Some(AboveMarketNotional)
    else None
  }

  function Notional(quantity: real, price: real): real {
    quantity * price
  }

  /** All checks, once the limits themselves are well-formed. */
  function Quantise(l: Limits<Option<real>>, f: Flags, tolerance: real, q: real, reference: real): Verdict {
    var lot := FloorTo(q, l.step);
    var n := FloorTo(lot, l.marketStep);
    Decide(LotReason(l, tolerance, lot, n), NotionalReason(l, f, Notional(n, reference)), n)
  }

  function Decide(lotReason: Option<Reason>, notionalReason: Option<Reason>, n: real): Verdict {
    if lotReason.Some? then Rejected(lotReason.value)
    else if notionalReason.Some? then Rejected(notionalReason.value)
    else Accepted(n)
  }

  /** The checks on the rules themselves, before any quantity is rounded. */
  function RulesReason(r: SymbolRules, ref: Option<real>): Option<Reason> {
    var limits := EffectiveLimits(r);
    var l := ExactLimits(limits);
    if !r.active then Some(SymbolNotTradable)
    else if !r.marketOrderAllowed then Some(MarketOrdersNotAllowed)
    else if AnyMalformed(limits) then Some(InvalidExchangeRules)
    else if Inverted(l.minQuantity, l.maxQuantity) || Inverted(l.marketMin, l.marketMax)
      then Some(InvalidExchangeRules)
    else if RequiresAverage(r.flags) && ref.None? then Some(MarketNotionalReferenceUnverifiable)
    else if FloatFallbackBroken(r) then Some(InvalidExchangeRules)
    else if ref.None? || ref.value <= 0.0 then Some(InvalidExchangeRules)
    else None
  }

  /** `_normalize_exchange_quantity`. */
  function Normalize(rules: Option<SymbolRules>, requireRules: bool, tolerance: real,
                     q: real, reference: Option<Num>): Verdict
  {
    if q <= tolerance then Rejected(NonPositiveQuantity)
    else if rules.None? then
      if requireRules then Rejected(MissingExchangeRules) else Accepted(q)
    else
      var reason := RulesReason(rules.value, Exact(reference));
      if reason.Some? then Rejected(reason.value)
      else
        Quantise(LimitsOf(rules.value), rules.value.flags, tolerance, q, Exact(reference).value)
  }

  function LimitsOf(r: SymbolRules): Limits<Option<real>> {
    ExactLimits(EffectiveLimits(r))
  }

  // ------------------------------------------------- what an accepted value is

  predicate Positive(limit: Option<real>) {
    limit.Some? && 0.0 < limit.value
  }

  ghost predicate OnBothGrids(l: Limits<Option<real>>, x: real) {
    && (Positive(l.step) ==> OnGrid(x, l.step.value))
    && (Positive(l.marketStep) ==> OnGrid(x, l.marketStep.value))
  }

  ghost predicate NotionalOk(l: Limits<Option<real>>, f: Flags, notional: real) {
    && (f.minNotionalApplies ==> l.minNotional.Some? && l.minNotional.value <= notional)
    && (f.notionalMinApplies ==> l.notionalMin.Some? && l.notionalMin.value <= notional)
    && (f.notionalMaxApplies ==> l.notionalMax.Some? && !Above(notional, l.notionalMax))
  }

  ghost predicate WithinQuantities(l: Limits<Option<real>>, x: real) {
    && (Positive(l.minQuantity) ==> l.minQuantity.value <= x)
    && (Positive(l.maxQuantity) ==> x <= l.maxQuantity.value)
    && (Positive(l.marketMin) ==> l.marketMin.value <= x)
    && (Positive(l.marketMax) ==> x <= l.marketMax.value)
  }

  /** x itself satisfies every exchange filter: both grids, all quantity and notional bounds. */
  ghost predicate Executable(l: Limits<Option<real>>, f: Flags, tolerance: real, reference: real, x: real) {
    && tolerance < x
    && OnBothGrids(l, x)
    && WithinQuantities(l, x)
    && NotionalOk(l, f, Notional(x, reference))
  }

  /** x is the largest value not above q that lies on both grids. */
  ghost predicate GreatestOnBoth(l: Limits<Option<real>>, q: real, x: real) {
    && x <= q
    && OnBothGrids(l, x)
    && forall y :: OnBothGrids(l, y) && y <= q ==> y <= x
  }

  lemma LotReasonExactly(l: Limits<Option<real>>, tolerance: real, lot: real, n: real)
    requires n <= lot
    ensures LotReason(l, tolerance, lot, n) == None
       <==> && tolerance < n && OnBothGrids(l, n) && WithinQuantities(l, n)
            && !Above(lot, l.maxQuantity)
  {
    MisalignedIff(n, l.step);
    MisalignedIff(n, l.marketStep);
  }

  lemma NotionalReasonExactly(l: Limits<Option<real>>, f: Flags, notional: real)
    ensures NotionalReason(l, f, notional) == None <==> NotionalOk(l, f, notional)
  {
  }

  lemma FloorToBelow(q: real, step: Option<real>)
    ensures FloorTo(q, step) <= q
    ensures Positive(step) ==> OnGrid(FloorTo(q, step), step.value)
    ensures 0.0 <= q ==> 0.0 <= FloorTo(q, step)
  {
    if Positive(step) {
      FloorStepBounds(q, step.value);
      if 0.0 <= q {
        FloorStepNonneg(q, step.value);
      }
    }
  }

  lemma FloorToNonneg(q: real, step: Option<real>)
    requires 0.0 <= q
    ensures 0.0 <= FloorTo(q, step)
  {
    FloorToBelow(q, step);
  }

  lemma MisalignedIff(q: real, step: Option<real>)
    ensures Misaligned(q, step) <==> Positive(step) && !OnGrid(q, step.value)
  {
    if Positive(step) {
      AlignedIffOnGrid(q, step.value);
    }
  }

  /** Flooring to one grid and then the other bounds every point common to both. */
  lemma DoubleFloorDominates(l: Limits<Option<real>>, q: real, y: real)
    requires OnBothGrids(l, y) && y <= q
    ensures y <= FloorTo(FloorTo(q, l.step), l.marketStep)
  {
    if Positive(l.step) {
      FloorStepGreatest(q, l.step.value, y);
    }
    if Positive(l.marketStep) {
      FloorStepGreatest(FloorTo(q, l.step), l.marketStep.value, y);
    }
  }

  /**
   Exactly when a quantity is accepted, and as what: the double floor n, when n
   passes every filter and the lot floor alone is not already above the maximum.
   */
  lemma AcceptedExactly(l: Limits<Option<real>>, f: Flags, tolerance: real, q: real, reference: real, n: real)
    ensures Quantise(l, f, tolerance, q, reference) == Accepted(n)
       <==> && n == FloorTo(FloorTo(q, l.step), l.marketStep)
            && Executable(l, f, tolerance, reference, n)
            && !Above(FloorTo(q, l.step), l.maxQuantity)
  {
    var lot := FloorTo(q, l.step);
    var m := FloorTo(lot, l.marketStep);
    assert m <= lot by {
      FloorToBelow(lot, l.marketStep);
    }
    LotReasonExactly(l, tolerance, lot, m);
    NotionalReasonExactly(l, f, Notional(m, reference));
  }

  /** An accepted quantity is the greatest value on both grids not above the request. */
  lemma AcceptedIsGreatest(l: Limits<Option<real>>, f: Flags, tolerance: real, q: real, reference: real, n: real)
    requires Quantise(l, f, tolerance, q, reference) == Accepted(n)
    ensures GreatestOnBoth(l, q, n)
  {
    AcceptedExactly(l, f, tolerance, q, reference, n);
    FloorToBelow(q, l.step);
    FloorToBelow(FloorTo(q, l.step), l.marketStep);
    forall y | OnBothGrids(l, y) && y <= q
      ensures y <= n
    {
      DoubleFloorDominates(l, q, y);
    }
  }

  /** The MARKET_LOT_SIZE mismatch branch can never be taken. */
  lemma MarketMismatchUnreachable(l: Limits<Option<real>>, f: Flags, tolerance: real, q: real, reference: real)
    ensures Quantise(l, f, tolerance, q, reference) != Rejected(MarketLotStepMismatch)
  {
    var lot := FloorTo(q, l.step);
    FloorToBelow(lot, l.marketStep);
    MisalignedIff(FloorTo(lot, l.marketStep), l.marketStep);
  }

  ghost predicate Nested(l: Limits<Option<real>>) {
    Positive(l.step) && Positive(l.marketStep) ==>
      OnGrid(l.step.value, l.marketStep.value) || OnGrid(l.marketStep.value, l.step.value)
  }

  lemma NestedDoubleFloorOnBoth(l: Limits<Option<real>>, q: real)
    requires Nested(l)
    ensures OnBothGrids(l, FloorTo(FloorTo(q, l.step), l.marketStep))
  {
    var lot := FloorTo(q, l.step);
    FloorToBelow(q, l.step);
    FloorToBelow(lot, l.marketStep);
    if Positive(l.step) && Positive(l.marketStep) {
      if OnGrid(l.marketStep.value, l.step.value) {
        CoarseOnFine(FloorTo(lot, l.marketStep), l.marketStep.value, l.step.value);
      } else {
        CoarseOnFine(lot, l.step.value, l.marketStep.value);
        AlignedIffOnGrid(lot, l.marketStep.value);
      }
    }
  }

  /**
   When one step divides the other the lot mismatch branch is unreachable and
   acceptance is complete: the greatest value on both grids is accepted exactly
   when it passes the filters and the lot floor is not above the maximum.
   */
  lemma NestedStepsComplete(l: Limits<Option<real>>, f: Flags, tolerance: real, q: real, reference: real, n: real)
    requires Nested(l)
    ensures Quantise(l, f, tolerance, q, reference) != Rejected(LotStepMismatch)
    ensures Quantise(l, f, tolerance, q, reference) == Accepted(n)
       <==> && GreatestOnBoth(l, q, n)
            && Executable(l, f, tolerance, reference, n)
            && !Above(FloorTo(q, l.step), l.maxQuantity)
  {
    var m := FloorTo(FloorTo(q, l.step), l.marketStep);
    FloorToBelow(q, l.step);
    FloorToBelow(FloorTo(q, l.step), l.marketStep);
    NestedDoubleFloorOnBoth(l, q);
    MisalignedIff(m, l.step);
    AcceptedExactly(l, f, tolerance, q, reference, n);
    if Quantise(l, f, tolerance, q, reference) == Accepted(n) {
      AcceptedIsGreatest(l, f, tolerance, q, reference, n);
    }
    if GreatestOnBoth(l, q, n) {
      DoubleFloorDominates(l, q, n);
      assert OnBothGrids(l, m) && m <= q;
    }
  }

  const NoLimits: Limits<Option<real>> := Limits(None, None, None, None, None, None, None, None, None)
  const NoRaw: Limits<Option<Num>> := Limits(None, None, None, None, None, None, None, None, None)
  const NoFlags := Flags(false, 0, false, false, 0)
  const NoFallback := Fallback(None, None, None)

  /** The CCXT convenience limits of a market: minimum and maximum amount, minimum cost. */
  datatype Fallback = Fallback(amountMin: Option<Num>, amountMax: Option<Num>, costMin: Option<Num>)

  function OrZero(x: Option<Num>): Option<Num> {
    if x.Some? then x else Some(Fin(0.0))
  }

  function OrElse(raw: Option<Num>, other: Option<Num>): Option<Num> {
    if raw.Some? then raw else other
  }

  /**
   `parse_binance_spot_symbol_rules` from the raw filter values: convenience
   limits stand in for a missing minimum, maximum and minimum notional, never for
   a step or a MARKET limit.
   */
  function ParseRules(active: bool, marketOrderAllowed: bool, flags: Flags, raw: Limits<Option<Num>>, f: Fallback): SymbolRules {
    SymbolRules(active, marketOrderAllowed, flags, raw,
                raw.(minQuantity := OrElse(raw.minQuantity, OrZero(f.amountMin)),
                     maxQuantity := OrElse(raw.maxQuantity, f.amountMax),
                     step := OrZero(raw.step),
                     minNotional := OrElse(raw.minNotional, OrZero(f.costMin))))
  }

  /** Parsed rules with these raw minimum, maximum and steps. */
  function LotRules(min: real, max: Option<Num>, step: real, marketStep: real): SymbolRules {
    ParseRules(true, true, NoFlags,
               NoRaw.(minQuantity := Some(Fin(min)), maxQuantity := max, step := Some(Fin(step)), marketStep := Some(Fin(marketStep))),
               NoFallback)
  }

  /**
   Without nested steps the code can refuse a request although a smaller value
   is executable: steps 2 and 3, request 11, where 6 lies on both grids.
   */
  lemma LotMismatchReachable()
    ensures var r := LotRules(1.0, None, 2.0, 3.0);
            && Normalize(Some(r), true, 0.5, 11.0, Some(Fin(1.0))) == Rejected(LotStepMismatch)
            && Executable(LimitsOf(r), NoFlags, 0.5, 1.0, 6.0)
            && Normalize(Some(r), true, 0.5, 6.0, Some(Fin(1.0))) == Accepted(6.0)
  {
    hide LimitsOf, Quantise, RulesReason, Executable;
    LotRulesUsable(1.0, None, 2.0, 3.0);
    TwoAndThree(LimitsOf(LotRules(1.0, None, 2.0, 3.0)));
  }

  lemma TwoAndThree(l: Limits<Option<real>>)
    requires l == NoLimits.(minQuantity := Some(1.0), step := Some(2.0), marketStep := Some(3.0), minNotional := Some(0.0))
    ensures Quantise(l, NoFlags, 0.5, 11.0, 1.0) == Rejected(LotStepMismatch)
    ensures Quantise(l, NoFlags, 0.5, 6.0, 1.0) == Accepted(6.0) && Executable(l, NoFlags, 0.5, 1.0, 6.0)
  {
    hide FloorStep, OnGrid, Multiple;
    FloorIs(11.0, 2.0, 5);
    FloorIs(10.0, 3.0, 3);
    FloorIs(9.0, 2.0, 4);
    FloorIs(9.0, 3.0, 3);
    FloorIs(6.0, 2.0, 3);
    FloorIs(6.0, 3.0, 2);
  }

  lemma LotRulesUsable(min: real, max: Option<Num>, step: real, marketStep: real)
    requires 0.0 < min && 0.0 < step && 0.0 < marketStep
    requires max.Some? ==> max.value.Fin? && min <= max.value.v
    ensures var r := LotRules(min, max, step, marketStep);
            && RulesReason(r, Some(1.0)) == None
            && LimitsOf(r) == NoLimits.(minQuantity := Some(min), maxQuantity := Exact(max), step := Some(step),
                                        marketStep := Some(marketStep), minNotional := Some(0.0))
  {
  }

  lemma FloorBetween(quotient: real, step: real, n: int)
    requires 0.0 < step && n as real * step <= quotient * step < (n + 1) as real * step
    ensures quotient.Floor == n
  {
    if quotient < n as real {
      MulStrict(quotient, n as real, step);
    }
    if (n + 1) as real <= quotient {
      MulMono((n + 1) as real, quotient, step);
    }
  }

  lemma FloorIs(value: real, step: real, n: int)
    requires 0.0 < step && n as real * step <= value < (n + 1) as real * step
    ensures FloorStep(value, step) == n as real * step
    ensures n as real * step == value ==> OnGrid(value, step)
  {
    var quotient := value / step;
    DivCancel(value, step);
    FloorBetween(quotient, step, n);
    assert FloorStep(value, step) == Multiple(n, step);
  }

  /**
   The maximum is applied to the lot floor before the coarser market floor, so
   a request whose final quantity would fit is refused: steps 1 and 5, maximum 10, request 12.
   */
  lemma EarlyMaximumRefuses()
    ensures var r := LotRules(1.0, Some(Fin(10.0)), 1.0, 5.0);
            && Normalize(Some(r), true, 0.5, 12.0, Some(Fin(1.0))) == Rejected(AboveMaxQuantity)
            && GreatestOnBoth(LimitsOf(r), 12.0, 10.0) && Executable(LimitsOf(r), NoFlags, 0.5, 1.0, 10.0)
  {
    var l := LimitsOf(LotRules(1.0, Some(Fin(10.0)), 1.0, 5.0));
    assert FloorStep(12.0, 1.0) == 12.0 by {
      assert (12.0 / 1.0).Floor == 12;
    }
    assert FloorStep(12.0, 5.0) == 10.0 by {
      assert (12.0 / 5.0).Floor == 2;
    }
    assert 10.0 == Multiple(10, 1.0) == Multiple(2, 5.0);
    forall y | OnBothGrids(l, y) && y <= 12.0
      ensures y <= 10.0
    {
      DoubleFloorDominates(l, 12.0, y);
    }
  }

  // ------------------------------------- consequences for the whole normaliser

  /** With rules present, acceptance is acceptance by `Quantise` under usable rules. */
  lemma NormalizeWithRules(r: SymbolRules, requireRules: bool, tolerance: real, q: real, reference: Option<Num>,
                           n: real)
    requires Normalize(Some(r), requireRules, tolerance, q, reference) == Accepted(n)
    ensures tolerance < q && RulesReason(r, Exact(reference)) == None && Exact(reference).Some?
    ensures n == FloorTo(FloorTo(q, LimitsOf(r).step), LimitsOf(r).marketStep)
    ensures Executable(LimitsOf(r), r.flags, tolerance, Exact(reference).value, n)
    ensures !Above(FloorTo(q, LimitsOf(r).step), LimitsOf(r).maxQuantity)
  {
    AcceptedExactly(LimitsOf(r), r.flags, tolerance, q, Exact(reference).value, n);
  }

  /** Normalising never raises a quantity, and what it accepts exceeds the tolerance. */
  lemma NormalizeBounds(rules: Option<SymbolRules>, requireRules: bool, tolerance: real, q: real,
                        reference: Option<Num>, n: real)
    requires Normalize(rules, requireRules, tolerance, q, reference) == Accepted(n)
    ensures tolerance < n <= q
  {
    if rules.Some? {
      var l := LimitsOf(rules.value);
      NormalizeWithRules(rules.value, requireRules, tolerance, q, reference, n);
      FloorToBelow(q, l.step);
      FloorToBelow(FloorTo(q, l.step), l.marketStep);
    }
  }

  /** Normalising an accepted quantity again changes nothing. */
  lemma NormalizeIdempotent(rules: Option<SymbolRules>, requireRules: bool, tolerance: real, q: real,
                            reference: Option<Num>, n: real)
    requires Normalize(rules, requireRules, tolerance, q, reference) == Accepted(n)
    ensures Normalize(rules, requireRules, tolerance, n, reference) == Accepted(n)
  {
    NormalizeBounds(rules, requireRules, tolerance, q, reference, n);
    if rules.Some? {
      var l := LimitsOf(rules.value);
      NormalizeWithRules(rules.value, requireRules, tolerance, q, reference, n);
      assert FloorTo(n, l.step) == n by {
        MisalignedIff(n, l.step);
      }
      assert FloorTo(n, l.marketStep) == n by {
        MisalignedIff(n, l.marketStep);
      }
      AcceptedExactly(l, rules.value.flags, tolerance, n, Exact(reference).value, n);
    }
  }

  /** A larger accepted request never yields a smaller quantity. */
  lemma NormalizeMonotone(rules: Option<SymbolRules>, requireRules: bool, tolerance: real,
                          a: real, b: real, reference: Option<Num>, m: real, n: real)
    requires a <= b
    requires Normalize(rules, requireRules, tolerance, a, reference) == Accepted(m)
    requires Normalize(rules, requireRules, tolerance, b, reference) == Accepted(n)
    ensures m <= n
  {
    if rules.Some? {
      var l := LimitsOf(rules.value);
      NormalizeWithRules(rules.value, requireRules, tolerance, a, reference, m);
      NormalizeWithRules(rules.value, requireRules, tolerance, b, reference, n);
      NormalizeBounds(rules, requireRules, tolerance, a, reference, m);
      DoubleFloorDominates(l, b, m);
    }
  }

  // ------------------------------------------------- the evidence and its audit

  datatype ReferenceSource = ReferencePrice | OtherSource
  datatype RuleReference = RuleReference(price: Option<Num>, source: ReferenceSource)

  /** `_market_rule_reference_price`: Binance's price, nothing, or the last trade. */
  function RuleReferencePrice(reference: Option<RuleReference>, rules: Option<SymbolRules>, last: Num): Option<Num> {
    if reference.Some? && reference.value.source.ReferencePrice? then reference.value.price
    else if rules.Some? && RequiresAverage(rules.value.flags) then None
    else Some(last)
  }

  datatype EvidenceSource = FromReference | LastFallback | UnverifiableAverage

  /** One row of paper_market_rule_evidence: raw values only. */
  datatype Evidence = Evidence(price: Option<Num>, source: EvidenceSource, limits: Limits<Option<Num>>, flags: Flags)

  /** `_persist_market_rule_evidence` for one symbol. */
  function RecordEvidence(reference: Option<RuleReference>, rules: Option<SymbolRules>, last: Num): Evidence {
    var limits := if rules.Some? then rules.value.raw
                  else Limits(None, None, None, None, None, None, None, None, None);
    var flags := if rules.Some? then rules.value.flags else NoFlags;
    if reference.Some? && reference.value.source.ReferencePrice? then
      Evidence(reference.value.price, FromReference, limits, flags)
    else if RuleReferencePrice(reference, rules, last).None? then
      Evidence(None, UnverifiableAverage, limits, flags)
    else
      Evidence(Some(last), LastFallback, limits, flags)
  }

  /** The validity checks `reconcile` makes on an evidence row before using it. */
  predicate EvidenceValid(e: Evidence) {
    var l := ExactLimits(e.limits);
    && (!e.source.UnverifiableAverage? ==> PositiveFloat(e.price))
    && !AnyMalformed(e.limits)
    && e.flags.minNotionalAvgMins >= 0 && e.flags.notionalAvgMins >= 0
    && !Inverted(l.minQuantity, l.maxQuantity)
    && !Inverted(l.marketMin, l.marketMax)
    && !Inverted(l.notionalMin, l.notionalMax)
    && (e.flags.minNotionalApplies ==> l.minNotional.Some?)
    && (e.flags.notionalMinApplies ==> l.notionalMin.Some?)
    && (e.flags.notionalMaxApplies ==> l.notionalMax.Some?)
    && (e.source.LastFallback? ==> !RequiresAverage(e.flags))
    && (e.source.UnverifiableAverage? ==> e.price.None? && RequiresAverage(e.flags))
  }

  predicate FillQuantityOk(l: Limits<Option<real>>, q: real) {
    && !Below(q, l.minQuantity) && !Below(q, l.marketMin)
    && !Above(q, l.maxQuantity) && !Above(q, l.marketMax)
    && !Misaligned(q, l.step) && !Misaligned(q, l.marketStep)
  }

  /** The audit's checks on one filled quantity. */
  predicate FillPasses(e: Evidence, q: real) {
    && !e.source.UnverifiableAverage?
    && Exact(e.price).Some?
    && FillQuantityOk(ExactLimits(e.limits), q)
    && ExpectedNotionalReason(ExactLimits(e.limits), e.flags, Notional(q, Exact(e.price).value)) == None
  }

  /** The rejection reason the audit re-derives from the persisted quantity. */
  function ExpectedReason(e: Evidence, q: real): Option<Reason> {
    var l := ExactLimits(e.limits);
    if e.source.UnverifiableAverage? then
      if RequiresAverage(e.flags) then Some(MarketNotionalReferenceUnverifiable) else None
    else
      var lot := FloorTo(q, l.step);
      var n := FloorTo(lot, l.marketStep);
      ExpectedFrom(ExpectedLotReason(l, lot, n),
                   if Exact(e.price).Some? then ExpectedNotionalReason(l, e.flags, Notional(n, Exact(e.price).value)) else None)
  }

  function ExpectedLotReason(l: Limits<Option<real>>, lot: real, n: real): Option<Reason> {
    if Below(lot, l.minQuantity) then Some(BelowMinQuantity)
    else if Above(lot, l.maxQuantity) then Some(AboveMaxQuantity)
    else if Below(n, l.marketMin) then Some(BelowMarketMinQuantity)
    else if Above(n, l.marketMax) then Some(AboveMarketMaxQuantity)
    else if Misaligned(n, l.marketStep) then Some(MarketLotStepMismatch)
    else if Below(n, l.minQuantity) then Some(BelowMinQuantity)
    else if Above(n, l.maxQuantity) then Some(AboveMaxQuantity)
    else if Misaligned(n, l.step) then Some(LotStepMismatch)
    else None
  }

  function ExpectedNotionalReason(l: Limits<Option<real>>, f: Flags, notional: real): Option<Reason> {
    if f.minNotionalApplies && Below(notional, l.minNotional) then Some(BelowMinNotional)
    else if f.notionalMinApplies && Below(notional, l.notionalMin) then Some(BelowMarketNotional)
    else if f.notionalMaxApplies && Above(notional, l.notionalMax) then Some(AboveMarketNotional)
    else None
  }

  /** The reasons the audit re-derives; it skips every other rejection. */
  predicate RuleReason(r: Reason) {
    || r.BelowMinQuantity? || r.AboveMaxQuantity?
    || r.BelowMarketMinQuantity? || r.AboveMarketMaxQuantity?
    || r.LotStepMismatch? || r.MarketLotStepMismatch?
    || r.BelowMinNotional? || r.BelowMarketNotional? || r.AboveMarketNotional?
    || r.MarketNotionalReferenceUnverifiable?
  }

  /** The steps the broker floors to are those the audit sees; every parsed rule is like this. */
  predicate StepsAudited(r: SymbolRules) {
    && (r.raw.step.Some? || !PositiveFloat(r.float.step))
    && (r.raw.marketStep.Some? || !PositiveFloat(r.float.marketStep))
  }

  lemma ParsedStepsAudited(active: bool, allowed: bool, flags: Flags, raw: Limits<Option<Num>>, f: Fallback)
    ensures StepsAudited(ParseRules(active, allowed, flags, raw, f))
  {
  }

  /** The limit that a rejection reason names is one the audit can see. */
  predicate Visible(rules: Option<SymbolRules>, x: Reason) {
    rules.Some? ==>
      match x
      case BelowMinQuantity => rules.value.raw.minQuantity.Some?
      case AboveMaxQuantity => rules.value.raw.maxQuantity.Some?
      case BelowMarketMinQuantity => rules.value.raw.marketMin.Some?
      case AboveMarketMaxQuantity => rules.value.raw.marketMax.Some?
      case _ => true
  }

  function ExpectedFrom(lotReason: Option<Reason>, notionalReason: Option<Reason>): Option<Reason> {
    if lotReason.Some? then lotReason else notionalReason
  }

  /** Each quantity limit of `a` is that of `l` or absent, and an absent step does not bind in `l`. */
  predicate SeesPart(l: Limits<Option<real>>, a: Limits<Option<real>>) {
    && (a.minQuantity.None? || a.minQuantity == l.minQuantity) && (a.maxQuantity.None? || a.maxQuantity == l.maxQuantity)
    && (a.marketMin.None? || a.marketMin == l.marketMin) && (a.marketMax.None? || a.marketMax == l.marketMax)
    && (a.step == l.step || (a.step.None? && !Positive(l.step)))
    && (a.marketStep == l.marketStep || (a.marketStep.None? && !Positive(l.marketStep)))
  }

  predicate Names(l: Limits<Option<real>>, x: Reason) {
    match x
    case BelowMinQuantity => l.minQuantity.Some?
    case AboveMaxQuantity => l.maxQuantity.Some?
    case BelowMarketMinQuantity => l.marketMin.Some?
    case AboveMarketMaxQuantity => l.marketMax.Some?
    case _ => true
  }

  /** Whatever passes the broker's limits passes the part the audit sees; a reason agrees exactly when its limit is in that part. */
  lemma LotAgrees(l: Limits<Option<real>>, a: Limits<Option<real>>, tolerance: real, lot: real, n: real)
    requires SeesPart(l, a)
    ensures match LotReason(l, tolerance, lot, n)
            case None => ExpectedLotReason(a, lot, n) == None && FillQuantityOk(a, n)
            case Some(x) => RuleReason(x) ==> (ExpectedLotReason(a, lot, n) == Some(x) <==> Names(a, x))
  {
    hide Aligned;
  }

  lemma AuditSeesPart(r: SymbolRules)
    requires StepsAudited(r) && !AnyMalformed(EffectiveLimits(r))
    ensures SeesPart(LimitsOf(r), ExactLimits(r.raw))
    ensures forall x :: Names(ExactLimits(r.raw), x) <==> Visible(Some(r), x)
  {
  }

  /** A quantity reason names a positive limit. */
  lemma LotNames(l: Limits<Option<real>>, tolerance: real, lot: real, n: real)
    ensures match LotReason(l, tolerance, lot, n)
            case Some(BelowMinQuantity) => Positive(l.minQuantity)
            case Some(AboveMaxQuantity) => Positive(l.maxQuantity)
            case Some(BelowMarketMinQuantity) => Positive(l.marketMin)
            case Some(AboveMarketMaxQuantity) => Positive(l.marketMax)
            case _ => true
  {
    hide Aligned;
  }

  lemma RawLimitsVisible(r: SymbolRules, x: Reason)
    requires RawValued(r)
    requires x.BelowMinQuantity? ==> Positive(LimitsOf(r).minQuantity)
    requires x.AboveMaxQuantity? ==> Positive(LimitsOf(r).maxQuantity)
    requires x.BelowMarketMinQuantity? ==> Positive(LimitsOf(r).marketMin)
    requires x.AboveMarketMaxQuantity? ==> Positive(LimitsOf(r).marketMax)
    ensures Visible(Some(r), x)
  {
  }

  /** The notional checks agree where every applicable notional limit is raw, as the audit requires. */
  lemma NotionalAgrees(r: SymbolRules, notional: real)
    requires 0.0 <= notional
    requires r.flags.minNotionalApplies ==> Exact(r.raw.minNotional).Some?
    requires r.flags.notionalMinApplies ==> Exact(r.raw.notionalMin).Some?
    requires r.flags.notionalMaxApplies ==> Exact(r.raw.notionalMax).Some?
    ensures NotionalReason(LimitsOf(r), r.flags, notional) == ExpectedNotionalReason(ExactLimits(r.raw), r.flags, notional)
  {
  }

  lemma NotionalNames(l: Limits<Option<real>>, f: Flags, notional: real)
    ensures match ExpectedNotionalReason(l, f, notional)
            case None => true
            case Some(x) => x.BelowMinNotional? || x.BelowMarketNotional? || x.AboveMarketNotional?
  {
  }

  lemma SameFloors(r: SymbolRules, q: real)
    requires StepsAudited(r) && !AnyMalformed(EffectiveLimits(r))
    ensures FloorTo(q, LimitsOf(r).step) == FloorTo(q, ExactLimits(r.raw).step)
    ensures FloorTo(q, LimitsOf(r).marketStep) == FloorTo(q, ExactLimits(r.raw).marketStep)
  {
  }

  lemma QuantitiesAgree(r: SymbolRules, tolerance: real, q: real, ref: real, e: Evidence)
    requires StepsAudited(r) && !AnyMalformed(EffectiveLimits(r))
    requires EvidenceValid(e) && e.limits == r.raw && e.flags == r.flags
    requires Exact(e.price) == Some(ref) && !e.source.UnverifiableAverage? && 0.0 <= tolerance < q
    ensures match Quantise(LimitsOf(r), r.flags, tolerance, q, ref)
            case Accepted(n) => FillPasses(e, n) && ExpectedReason(e, q) == None
            case Rejected(x) => RuleReason(x) ==> (ExpectedReason(e, q) == Some(x) <==> Visible(Some(r), x))
  {
    var l, a := LimitsOf(r), ExactLimits(r.raw);
    var lot := FloorTo(q, l.step);
    var n := FloorTo(lot, l.marketStep);
    hide LotReason, ExpectedLotReason, FillQuantityOk, NotionalReason, ExpectedNotionalReason, FloorTo;
    SameFloors(r, q);
    SameFloors(r, lot);
    FloorToNonneg(q, l.step);
    FloorToNonneg(lot, l.marketStep);
    MulNonneg(n, ref);
    AuditSeesPart(r);
    LotAgrees(l, a, tolerance, lot, n);
    NotionalAgrees(r, Notional(n, ref));
    NotionalNames(a, r.flags, Notional(n, ref));
  }

  /**
   Writer against checker, one quantity at a time, for all rules whose steps the
   audit sees and all evidence it deems valid: whatever the broker accepts the
   audit neither rejects nor faults as a fill, and the audit re-derives the
   broker's rejection reason exactly when the limit it names is a raw value.
   */
  lemma AuditAgreesExactly(rules: Option<SymbolRules>, requireRules: bool, tolerance: real, q: real,
                           reference: Option<RuleReference>, last: Num)
    requires 0.0 <= tolerance
    requires rules.Some? ==> StepsAudited(rules.value)
    requires EvidenceValid(RecordEvidence(reference, rules, last))
    ensures var e := RecordEvidence(reference, rules, last);
            match Normalize(rules, requireRules, tolerance, q, RuleReferencePrice(reference, rules, last))
            case Accepted(n) => FillPasses(e, n) && ExpectedReason(e, q) == None
            case Rejected(x) => RuleReason(x) ==> (ExpectedReason(e, q) == Some(x) <==> Visible(rules, x))
  {
    var e := RecordEvidence(reference, rules, last);
    var ref := RuleReferencePrice(reference, rules, last);
    assert e.source.UnverifiableAverage? || e.price == ref;
    if rules.Some? && tolerance < q && RulesReason(rules.value, Exact(ref)) == None {
      QuantitiesAgree(rules.value, tolerance, q, Exact(ref).value, e);
    }
  }

  /** Every limit a quantity rejection can name is raw, or absent from the float values too. */
  predicate RawValued(r: SymbolRules) {
    && StepsAudited(r)
    && (r.raw.minQuantity.Some? || !PositiveFloat(r.float.minQuantity))
    && (r.raw.maxQuantity.Some? || !PositiveFloat(r.float.maxQuantity))
    && (r.raw.marketMin.Some? || !PositiveFloat(r.float.marketMin))
    && (r.raw.marketMax.Some? || !PositiveFloat(r.float.marketMax))
  }

  lemma RawRejectionVisible(rules: Option<SymbolRules>, requireRules: bool, tolerance: real, q: real, reference: Option<Num>)
    requires rules.Some? ==> RawValued(rules.value)
    ensures var v := Normalize(rules, requireRules, tolerance, q, reference);
            v.Rejected? ==> Visible(rules, v.reason)
  {
    hide FloorTo, LotReason, LimitsOf, RawValued, AnyMalformed, NotionalReason;
    var ref := Exact(reference);
    if rules.Some? && tolerance < q && RulesReason(rules.value, ref) == None {
      var l := LimitsOf(rules.value);
      var lot := FloorTo(q, l.step);
      var n := FloorTo(lot, l.marketStep);
      LotNames(l, tolerance, lot, n);
      NotionalReasonNames(l, rules.value.flags, Notional(n, ref.value));
      if LotReason(l, tolerance, lot, n).Some? {
        RawLimitsVisible(rules.value, LotReason(l, tolerance, lot, n).value);
      }
    }
  }

  lemma NotionalReasonNames(l: Limits<Option<real>>, f: Flags, notional: real)
    ensures match NotionalReason(l, f, notional)
            case None => true
            case Some(x) => x.BelowMinNotional? || x.BelowMarketNotional? || x.AboveMarketNotional?
  {
  }

  /** With such rules the audit re-derives every rule-based rejection reason of the broker. */
  lemma AuditAgrees(rules: Option<SymbolRules>, requireRules: bool, tolerance: real, q: real,
                    reference: Option<RuleReference>, last: Num)
    requires 0.0 <= tolerance
    requires rules.Some? ==> RawValued(rules.value)
    requires EvidenceValid(RecordEvidence(reference, rules, last))
    ensures var e := RecordEvidence(reference, rules, last);
            match Normalize(rules, requireRules, tolerance, q, RuleReferencePrice(reference, rules, last))
            case Accepted(n) => FillPasses(e, n) && ExpectedReason(e, q) == None
            case Rejected(x) => RuleReason(x) ==> ExpectedReason(e, q) == Some(x)
  {
    hide Normalize, FillPasses, ExpectedReason, EvidenceValid, RecordEvidence, Visible;
    AuditAgreesExactly(rules, requireRules, tolerance, q, reference, last);
    RawRejectionVisible(rules, requireRules, tolerance, q, RuleReferencePrice(reference, rules, last));
  }

  /**
   A parsed rule the audit cannot explain: LOT_SIZE gives a step but no minimum,
   the convenience minimum is 5, and a request for 3 is refused by a limit the
   audit does not see.
   */
  lemma FloatFallbackEscapesAudit()
    ensures var rules := Some(ParseRules(true, true, NoFlags, NoRaw.(step := Some(Fin(1.0))),
                                         NoFallback.(amountMin := Some(Fin(5.0)))));
            var e := RecordEvidence(None, rules, Fin(1.0));
            && EvidenceValid(e)
            && Normalize(rules, true, 0.5, 3.0, RuleReferencePrice(None, rules, Fin(1.0))) == Rejected(BelowMinQuantity)
            && ExpectedReason(e, 3.0) == None
  {
    assert FloorStep(3.0, 1.0) == 3.0 by {
      assert (3.0 / 1.0).Floor == 3;
    }
  }

  // -------------------------------------------------------------- PRICE_RANGE

  datatype Side = Buy | Sell
  datatype RangeStatus = RangePresent | RangeAbsent | RuleNotApplicable | TransportFailure | MalformedResponse
  datatype RangeEvidence = RangeEvidence(
    status: RangeStatus, present: Option<bool>,
    bidUp: Option<real>, bidDown: Option<real>, askUp: Option<real>, askDown: Option<real>)

  datatype RangeOutcome = RangeAccepted | RangeRejected | NotEnforced | EvidenceUnavailable
  datatype RangeReason = RuleAbsent | ReferenceUnavailable | Exceeded | Unavailable
  datatype RangeDecision = RangeDecision(outcome: RangeOutcome, reason: Option<RangeReason>,
                                         lower: Option<real>, upper: Option<real>)

  /** Positive, and for Decimals of bounded exponent; the exponent bound is not modelled. */
  predicate Bounded(x: Option<real>) {
    x.Some? ==> 0.0 < x.value
  }

  function Scaled(price: real, multiplier: Option<real>): Option<real> {
    if multiplier.Some? then Some(price * multiplier.value) else None
  }

  /** `evaluate_price_range_rule`; Err is the ValueError that aborts the execution. */
  function EvaluateRange(rule: RangeEvidence, reference: Option<RuleReference>, side: Side, execution: real)
    : Result<RangeDecision, ()>
  {
    if execution <= 0.0 then Err(())
    else if rule.status.TransportFailure? || rule.status.MalformedResponse? then
      Ok(RangeDecision(EvidenceUnavailable, Some(Unavailable), None, None))
    else if rule.status.RangeAbsent? || rule.status.RuleNotApplicable? then
      Ok(RangeDecision(NotEnforced, Some(RuleAbsent), None, None))
    else if rule.present != Some(true) then Err(())
    else if reference.None? || !reference.value.source.ReferencePrice? || reference.value.price.None? then
      Ok(RangeDecision(NotEnforced, Some(ReferenceUnavailable), None, None))
    else if !PositiveFloat(reference.value.price) then Err(())
    else
      var (down, up) := if side.Buy? then (rule.bidDown, rule.bidUp) else (rule.askDown, rule.askUp);
      if !Bounded(down) || !Bounded(up) then Err(())
      else
        var price := reference.value.price.value.v;
        var lower, upper := Scaled(price, down), Scaled(price, up);
        if lower.Some? && upper.Some? && upper.value < lower.value then Err(())
        else if (lower.Some? && execution < lower.value) || (upper.Some? && upper.value < execution) then
          Ok(RangeDecision(RangeRejected, Some(Exceeded), lower, upper))
        else Ok(RangeDecision(RangeAccepted, None, lower, upper))
  }

  /** The row `_record_price_range_decision` appends: the decision and a reference price. */
  datatype RangeRow = RangeRow(decision: RangeDecision, reference: Option<Num>)

  function RecordRange(decision: RangeDecision, reference: Option<RuleReference>): RangeRow {
    RangeRow(decision,
             if reference.Some? && reference.value.source.ReferencePrice? then reference.value.price else None)
  }

  /** What `reconcile` expects that row to be, from the two evidence rows; None is a failed audit. */
  function ExpectedRange(rule: RangeEvidence, e: Evidence, side: Side, execution: real): Option<RangeRow> {
    if execution <= 0.0 || !Bounded(rule.bidUp) || !Bounded(rule.bidDown) || !Bounded(rule.askUp) || !Bounded(rule.askDown)
      then None
    else match rule.status
      case TransportFailure => Some(RangeRow(RangeDecision(EvidenceUnavailable, Some(Unavailable), None, None), None))
      case MalformedResponse => Some(RangeRow(RangeDecision(EvidenceUnavailable, Some(Unavailable), None, None), None))
      case RangeAbsent => Some(RangeRow(RangeDecision(NotEnforced, Some(RuleAbsent), None, None), None))
      case RuleNotApplicable => Some(RangeRow(RangeDecision(NotEnforced, Some(RuleAbsent), None, None), None))
      case RangePresent =>
        var raw := if e.source.FromReference? then e.price else None;
        if rule.present != Some(true) then None
        else if raw.None? then
          Some(RangeRow(RangeDecision(NotEnforced, Some(ReferenceUnavailable), None, None), None))
        else if !PositiveFloat(raw) then None
        else
          var price := raw.value.v;
          var lower := Scaled(price, if side.Buy? then rule.bidDown else rule.askDown);
          var upper := Scaled(price, if side.Buy? then rule.bidUp else rule.askUp);
          if lower.Some? && upper.Some? && upper.value < lower.value then None
          else if (lower.Some? && execution < lower.value) || (upper.Some? && upper.value < execution) then
            Some(RangeRow(RangeDecision(RangeRejected, Some(Exceeded), lower, upper), raw))
          else Some(RangeRow(RangeDecision(RangeAccepted, None, lower, upper), raw))
  }

  predicate MultipliersBounded(rule: RangeEvidence) {
    Bounded(rule.bidUp) && Bounded(rule.bidDown) && Bounded(rule.askUp) && Bounded(rule.askDown)
  }

  predicate RuleEnforceable(rule: RangeEvidence) {
    rule.status.RangePresent?
  }

  predicate HasReferencePrice(reference: Option<RuleReference>) {
    reference.Some? && reference.value.source.ReferencePrice? && reference.value.price.Some?
  }

  /**
   The persisted PRICE_RANGE decision always has the outcome, reason and bounds
   the audit derives; the whole row matches exactly when it is not the case
   that a reference price was observed for a symbol without an enforceable rule.
   */
  lemma RangeAuditAgreesExactly(rule: RangeEvidence, reference: Option<RuleReference>, rules: Option<SymbolRules>,
                                last: Num, side: Side, execution: real)
    requires EvaluateRange(rule, reference, side, execution).Ok? && MultipliersBounded(rule)
    ensures var decision := EvaluateRange(rule, reference, side, execution).value;
            var expected := ExpectedRange(rule, RecordEvidence(reference, rules, last), side, execution);
            && expected.Some? && expected.value.decision == decision
            && (expected == Some(RecordRange(decision, reference))
                <==> RuleEnforceable(rule) || !HasReferencePrice(reference))
  {
  }

  /** The concrete row on which the two sides differ. */
  lemma AbsentRangeRowMismatch(rules: Option<SymbolRules>, last: Num)
    ensures var rule := RangeEvidence(RangeAbsent, Some(false), None, None, None, None);
            var reference := Some(RuleReference(Some(Fin(100.0)), ReferencePrice));
            var decision := EvaluateRange(rule, reference, Buy, 101.0);
            && decision.Ok?
            && ExpectedRange(rule, RecordEvidence(reference, rules, last), Buy, 101.0)
               != Some(RecordRange(decision.value, reference))
  {
  }
}
