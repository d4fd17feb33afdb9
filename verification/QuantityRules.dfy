/**
 The exchange-rule normaliser as a whole, from the rules' own fields: exactly
 which requests it accepts, and exactly which refusal each faulty rule set gets.
 */
module QuantityRules {
  import opened Common
  import opened Numbers
  import opened Grid
  import opened Quantities

  // -------------------------------------------------------- what rules must be

  /** The limit in force: the exact one where the exchange gave it, else a finite convenience value. */
  function InForce(raw: Option<Num>, float: Option<Num>): Option<Num> {
    match (raw, float)
    case (Some(_), _) => raw
    case (None, Some(Fin(v))) => Some(Fin(v))
    case _ => None
  }

  /** No limit, or a finite one that is not negative. */
  predicate Sane(x: Option<Num>) {
    match x
    case None => true
    case Some(NonFinite) => false
    case Some(Fin(v)) => 0.0 <= v
  }

  /** All nine limits in force are sane. */
  predicate LimitsSane(r: SymbolRules) {
    && Sane(InForce(r.raw.minQuantity, r.float.minQuantity)) && Sane(InForce(r.raw.maxQuantity, r.float.maxQuantity))
    && Sane(InForce(r.raw.step, r.float.step)) && Sane(InForce(r.raw.marketMin, r.float.marketMin))
    && Sane(InForce(r.raw.marketMax, r.float.marketMax)) && Sane(InForce(r.raw.marketStep, r.float.marketStep))
    && Sane(InForce(r.raw.minNotional, r.float.minNotional)) && Sane(InForce(r.raw.notionalMin, r.float.notionalMin))
    && Sane(InForce(r.raw.notionalMax, r.float.notionalMax))
  }

  function ValueOf(x: Option<Num>): Option<real> {
    match x
    case Some(Fin(v)) => Some(v)
    case _ => None
  }

  /** The finite limits in force. */
  function LimitsInForce(r: SymbolRules): Limits<Option<real>> {
    Limits(ValueOf(InForce(r.raw.minQuantity, r.float.minQuantity)), ValueOf(InForce(r.raw.maxQuantity, r.float.maxQuantity)),
           ValueOf(InForce(r.raw.step, r.float.step)), ValueOf(InForce(r.raw.marketMin, r.float.marketMin)),
           ValueOf(InForce(r.raw.marketMax, r.float.marketMax)), ValueOf(InForce(r.raw.marketStep, r.float.marketStep)),
           ValueOf(InForce(r.raw.minNotional, r.float.minNotional)), ValueOf(InForce(r.raw.notionalMin, r.float.notionalMin)),
           ValueOf(InForce(r.raw.notionalMax, r.float.notionalMax)))
  }

  /** Two bounds that both bind leave room between them; zero switches a bound off. */
  predicate LeavesRoom(low: Option<real>, high: Option<real>) {
    low.Some? && high.Some? && 0.0 < low.value && 0.0 < high.value ==> low.value <= high.value
  }

  predicate PositiveNumber(x: Option<Num>) {
    match x
    case Some(Fin(v)) => 0.0 < v
    case _ => false
  }

  /** Where the exchange gave no exact value, the convenience values must make sense. */
  predicate FallbackUsable(r: SymbolRules) {
    && (r.raw.minQuantity == None ==> PositiveNumber(r.float.minQuantity))
    && (r.raw.step == None ==> PositiveNumber(r.float.step))
    && (r.raw.minNotional == None && r.flags.minNotionalApplies ==> PositiveNumber(r.float.minNotional))
    && (r.raw.maxQuantity == None && r.float.maxQuantity != None ==>
          && PositiveNumber(r.float.maxQuantity)
          && (PositiveNumber(r.float.minQuantity) ==> r.float.minQuantity.value.v <= r.float.maxQuantity.value.v))
  }

  /** Some notional filter that binds MARKET orders is about an average price. */
  predicate AveragesPrice(f: Flags) {
    || (f.minNotionalApplies && 0 < f.minNotionalAvgMins)
    || ((f.notionalMinApplies || f.notionalMaxApplies) && 0 < f.notionalAvgMins)
  }

  /** The limits, taken together, could admit some quantity. */
  predicate BoundsLeaveRoom(r: SymbolRules) {
    var l := LimitsInForce(r);
    LeavesRoom(l.minQuantity, l.maxQuantity) && LeavesRoom(l.marketMin, l.marketMax)
  }

  // ------------------------------------------------------------ the theorems

  lemma RulesInForce(r: SymbolRules)
    ensures LimitsOf(r) == LimitsInForce(r)
    ensures AnyMalformed(EffectiveLimits(r)) <==> !LimitsSane(r)
    ensures FloatFallbackBroken(r) <==> !FallbackUsable(r)
    ensures RequiresAverage(r.flags) <==> AveragesPrice(r.flags)
  {
    InForceExactly(r.raw.minQuantity, r.float.minQuantity);
    InForceExactly(r.raw.maxQuantity, r.float.maxQuantity);
    InForceExactly(r.raw.step, r.float.step);
    InForceExactly(r.raw.marketMin, r.float.marketMin);
    InForceExactly(r.raw.marketMax, r.float.marketMax);
    InForceExactly(r.raw.marketStep, r.float.marketStep);
    InForceExactly(r.raw.minNotional, r.float.minNotional);
    InForceExactly(r.raw.notionalMin, r.float.notionalMin);
    InForceExactly(r.raw.notionalMax, r.float.notionalMax);
    hide InForce, Effective, Malformed, Sane, Exact, ValueOf;
  }

  lemma InForceExactly(raw: Option<Num>, float: Option<Num>)
    ensures Effective(raw, float) == InForce(raw, float)
    ensures Exact(InForce(raw, float)) == ValueOf(InForce(raw, float))
    ensures Malformed(InForce(raw, float)) <==> !Sane(InForce(raw, float))
  {
  }

  lemma RoomExactly(low: Option<real>, high: Option<real>)
    ensures Inverted(low, high) <==> !LeavesRoom(low, high)
  {
  }

  /**
   With rules, exactly: a request is accepted, and as n, if and only if it exceeds
   the tolerance, the symbol trades and takes MARKET orders, the rules are sound,
   the reference price is positive, n is the request floored to both steps, n
   passes every filter, and the lot floor is not above the maximum.
   */
  lemma NormalizeExactly(r: SymbolRules, requireRules: bool, tolerance: real, q: real, reference: Option<Num>, n: real)
    ensures Normalize(Some(r), requireRules, tolerance, q, reference) == Accepted(n)
       <==> && tolerance < q && r.active && r.marketOrderAllowed
            && LimitsSane(r) && BoundsLeaveRoom(r) && FallbackUsable(r) && PositiveNumber(reference)
            && var l := LimitsInForce(r);
               && n == FloorTo(FloorTo(q, l.step), l.marketStep)
               && Executable(l, r.flags, tolerance, reference.value.v, n)
               && !(l.maxQuantity.Some? && 0.0 < l.maxQuantity.value < FloorTo(q, l.step))
  {
    RulesInForce(r);
    var l := LimitsInForce(r);
    RoomExactly(l.minQuantity, l.maxQuantity);
    RoomExactly(l.marketMin, l.marketMax);
    hide ExactLimits, EffectiveLimits, AnyMalformed, FloatFallbackBroken, RequiresAverage, AveragesPrice, Inverted, LeavesRoom, LimitsInForce,
         LimitsSane, FallbackUsable, FloorTo, Executable, Quantise;
    if PositiveNumber(reference) {
      AcceptedExactly(l, r.flags, tolerance, q, reference.value.v, n);
    }
  }

  /** Without rules a request beyond the tolerance is taken as it is, or refused where rules are required. */
  lemma NormalizeWithoutRules(requireRules: bool, tolerance: real, q: real, reference: Option<Num>)
    ensures Normalize(None, requireRules, tolerance, q, reference)
         == if q <= tolerance then Rejected(NonPositiveQuantity)
            else if requireRules then Rejected(MissingExchangeRules)
            else Accepted(q)
  {
  }

  /** Exactly which faulty rule sets get which refusal, in the order the source looks. */
  lemma FaultyRulesExactly(r: SymbolRules, requireRules: bool, tolerance: real, q: real, reference: Option<Num>)
    requires tolerance < q
    ensures var v := Normalize(Some(r), requireRules, tolerance, q, reference);
            var sound := LimitsSane(r) && BoundsLeaveRoom(r);
            var missing := AveragesPrice(r.flags) && ValueOf(reference) == None;
            && v != Rejected(MissingExchangeRules)
            && (v == Rejected(SymbolNotTradable) <==> !r.active)
            && (v == Rejected(MarketOrdersNotAllowed) <==> r.active && !r.marketOrderAllowed)
            && (v == Rejected(MarketNotionalReferenceUnverifiable) <==> r.active && r.marketOrderAllowed && sound && missing)
            && (v == Rejected(InvalidExchangeRules) <==>
                  && r.active && r.marketOrderAllowed
                  && (!sound || (!missing && (!FallbackUsable(r) || !PositiveNumber(reference)))))
  {
    RulesInForce(r);
    var l := LimitsInForce(r);
    RoomExactly(l.minQuantity, l.maxQuantity);
    RoomExactly(l.marketMin, l.marketMax);
    hide ExactLimits, EffectiveLimits, AnyMalformed, FloatFallbackBroken, RequiresAverage, AveragesPrice, Inverted, LeavesRoom, LimitsInForce,
         LimitsSane, FallbackUsable, FloorTo, Quantise;
    if PositiveNumber(reference) {
      QuantiseReasons(l, r.flags, tolerance, q, reference.value.v);
    }
  }

  lemma QuantiseReasons(l: Limits<Option<real>>, f: Flags, tolerance: real, q: real, reference: real)
    ensures match Quantise(l, f, tolerance, q, reference)
            case Accepted(_) => true
            case Rejected(x) => (RuleReason(x) && !x.MarketNotionalReferenceUnverifiable?) || x.NonPositiveQuantity?
  {
    hide FloorTo, Misaligned, Below, Above, Notional;
  }

  /**
   Which quantity check refuses a request, exactly: the first to fail of size, the
   LOT_SIZE bounds on the lot floor, the MARKET_LOT_SIZE bounds on the double floor
   n, and then size, bounds and lot grid once more for n.
   */
  lemma QuantityRefusalsExactly(l: Limits<Option<real>>, f: Flags, tolerance: real, q: real, reference: real)
    ensures var lot := FloorTo(q, l.step);
            var n := FloorTo(lot, l.marketStep);
            var v := Quantise(l, f, tolerance, q, reference);
            var lotLow, lotHigh := Under(lot, l.minQuantity), Over(lot, l.maxQuantity);
            var marketOk := !Under(n, l.marketMin) && !Over(n, l.marketMax);
            var first := tolerance < lot && !lotLow && !lotHigh;
            var second := first && marketOk && tolerance < n;
            && (v == Rejected(NonPositiveQuantity) <==> lot <= tolerance || (first && marketOk && n <= tolerance))
            && (v == Rejected(BelowMinQuantity) <==> tolerance < lot && (lotLow || (second && Under(n, l.minQuantity))))
            && (v == Rejected(AboveMaxQuantity) <==>
                  tolerance < lot && !lotLow && (lotHigh || (second && !Under(n, l.minQuantity) && Over(n, l.maxQuantity))))
            && (v == Rejected(BelowMarketMinQuantity) <==> first && Under(n, l.marketMin))
            && (v == Rejected(AboveMarketMaxQuantity) <==> first && !Under(n, l.marketMin) && Over(n, l.marketMax))
            && v != Rejected(MarketLotStepMismatch)
            && (v == Rejected(LotStepMismatch) <==>
                  second && !Under(n, l.minQuantity) && !Over(n, l.maxQuantity) && Positive(l.step) && !OnGrid(n, l.step.value))
  {
    var lot := FloorTo(q, l.step);
    var n := FloorTo(lot, l.marketStep);
    MisalignedIff(n, l.step);
    MisalignedIff(n, l.marketStep);
    FloorToBelow(lot, l.marketStep);
    hide FloorTo, Misaligned, OnGrid, Notional;
    assert !Misaligned(n, l.marketStep);
  }

  /** A lower bound that binds and is not reached. */
  predicate Under(x: real, low: Option<real>) {
    low.Some? && 0.0 < low.value && x < low.value
  }

  /** An upper bound that binds and is exceeded. */
  predicate Over(x: real, high: Option<real>) {
    high.Some? && 0.0 < high.value && high.value < x
  }

  /** A request within the tolerance is nothing, whatever the rules. */
  lemma DustIsNothing(rules: Option<SymbolRules>, requireRules: bool, tolerance: real, q: real, reference: Option<Num>)
    requires q <= tolerance
    ensures Normalize(rules, requireRules, tolerance, q, reference) == Rejected(NonPositiveQuantity)
  {
  }

  /**
   Which price the notional filters are measured at: the exchange's reference
   price where it was fetched; else none if a filter is about an average; else the
   last trade.
   */
  lemma ReferenceExactly(reference: Option<RuleReference>, rules: Option<SymbolRules>, last: Num, x: Option<Num>)
    ensures RuleReferencePrice(reference, rules, last) == x
       <==> || (exists price :: reference == Some(RuleReference(price, ReferencePrice)) && x == price)
            || ((reference == None || reference.value.source == OtherSource)
                && x == if rules != None && AveragesPrice(rules.value.flags) then None else Some(last))
  {
    if reference.Some? && reference.value.source.ReferencePrice? {
      assert reference == Some(RuleReference(reference.value.price, ReferencePrice));
    }
  }

  // ------------------------------------------------------------- PRICE_RANGE

  /** The price is outside the band the multipliers span around the reference; a missing multiplier leaves that side open. */
  predicate OutsideBand(reference: real, down: Option<real>, up: Option<real>, execution: real) {
    (down.Some? && execution < reference * down.value) || (up.Some? && reference * up.value < execution)
  }

  predicate BandBroken(reference: real, down: Option<real>, up: Option<real>) {
    || (down.Some? && down.value <= 0.0) || (up.Some? && up.value <= 0.0)
    || (down.Some? && up.Some? && reference * up.value < reference * down.value)
  }

  /**
   The PRICE_RANGE decision from its inputs: which evidence raises, and when a
   price is accepted, refused, not judged, or lacks evidence.  Buys are held to
   the bid multipliers, sells to the ask multipliers.
   */
  lemma RangeDecidedExactly(rule: RangeEvidence, reference: Option<RuleReference>, side: Side, execution: real)
    ensures var d := EvaluateRange(rule, reference, side, execution);
            var unfetched := rule.status == TransportFailure || rule.status == MalformedResponse;
            var observed := reference != None && reference.value.source == ReferencePrice && reference.value.price != None;
            var judged := rule.status == RangePresent && rule.present == Some(true) && observed;
            var positive := observed && PositiveNumber(reference.value.price);
            var down := if side == Buy then rule.bidDown else rule.askDown;
            var up := if side == Buy then rule.bidUp else rule.askUp;
            && (d.Err? <==> || execution <= 0.0
                            || (rule.status == RangePresent && rule.present != Some(true))
                            || (judged && (!positive || BandBroken(reference.value.price.value.v, down, up))))
            && (d.Ok? ==>
                  && (d.value.outcome == EvidenceUnavailable <==> unfetched)
                  && (d.value.outcome == NotEnforced <==> !unfetched && !judged)
                  && (judged ==> positive && RangeJudged(d.value, reference.value.price.value.v, down, up, execution)))
  {
    hide BandBroken, OutsideBand, Scaled, Bounded;
    if reference != None && PositiveNumber(reference.value.price) {
      BandExactly(reference.value.price.value.v, if side == Buy then rule.bidDown else rule.askDown,
                  if side == Buy then rule.bidUp else rule.askUp, execution);
    }
  }

  /** What a judged price gets: the band that was applied, and a refusal exactly outside it. */
  predicate RangeJudged(d: RangeDecision, reference: real, down: Option<real>, up: Option<real>, execution: real) {
    && d.outcome == (if OutsideBand(reference, down, up, execution) then RangeRejected else RangeAccepted)
    && d.lower == Scaled(reference, down) && d.upper == Scaled(reference, up)
  }

  /** A bound is the reference price times its multiplier. */
  lemma ScaledExactly(reference: real, m: Option<real>)
    ensures Scaled(reference, m) == if m.None? then None else Some(reference * m.value)
  {
  }

  lemma BandExactly(reference: real, down: Option<real>, up: Option<real>, execution: real)
    ensures var lower, upper := Scaled(reference, down), Scaled(reference, up);
            && (BandBroken(reference, down, up) <==>
                  || !Bounded(down) || !Bounded(up) || (lower.Some? && upper.Some? && upper.value < lower.value))
            && (OutsideBand(reference, down, up, execution) <==>
                  (lower.Some? && execution < lower.value) || (upper.Some? && upper.value < execution))
  {
    ScaledExactly(reference, down);
    ScaledExactly(reference, up);
    hide Scaled;
  }
}
