/** What preparing an order gives, and when: the one fill that the instrument's rules, the quote and the cost estimate
    determine. */
module ExecutionLaws {
  import opened Common
  import opened Execution
  import opened Ledger
  import opened Rounding

  /** p is the least multiple of the unit that is not below x. */
  ghost predicate LeastAbove(p: real, x: real, unit: real)
  {
    Multiple(p, unit) && x <= p && forall k: int :: x <= Times(k, unit) ==> p <= Times(k, unit)
  }

  /** p is the greatest multiple of the unit that is not above x. */
  ghost predicate GreatestBelow(p: real, x: real, unit: real)
  {
    Multiple(p, unit) && p <= x && forall k: int :: Times(k, unit) <= x ==> Times(k, unit) <= p
  }

  lemma LeastIsUnique(p: real, p': real, x: real, unit: real)
    requires LeastAbove(p, x, unit) && LeastAbove(p', x, unit)
    ensures p == p'
  {
    var i: int :| Times(i, unit) == p;
    var j: int :| Times(j, unit) == p';
  }

  lemma GreatestIsUnique(p: real, p': real, x: real, unit: real)
    requires GreatestBelow(p, x, unit) && GreatestBelow(p', x, unit)
    ensures p == p'
  {
    var i: int :| Times(i, unit) == p;
    var j: int :| Times(j, unit) == p';
  }

  // ---------------------------------------------------------------------------------------
  // Size

  /** Rules and a quote under which an order can be prepared at all. */
  predicate Tradable(r: Rules, q: Quote)
  {
    && r.genuine && r.minQty > 0.0 && r.minNotional > 0.0 && (r.maxQty.Some? ==> r.minQty <= r.maxQty.value)
    && 0.0 < q.bid <= q.ask && (q.turnover.Some? ==> q.turnover.value > 0.0)
  }

  /** The largest whole number of lots within the request and the market maximum, which has to reach the minimum. A
      position from before the lot rules keeps its quantity, or is refused. */
  ghost predicate IsSize(r: Rules, requested: real, legacy: bool, x: real)
  {
    && r.minQty <= x <= requested && Within(r, x)
    && if legacy then x == requested
       else
         && r.qtyStep > 0.0 && Multiple(x, r.qtyStep)
         && forall k: int ::
              Times(k, r.qtyStep) <= requested && Within(r, Times(k, r.qtyStep)) ==> Times(k, r.qtyStep) <= x
  }

  lemma SizedGreatest(r: Rules, requested: real, k: int)
    requires r.minQty > 0.0 && (r.maxQty.Some? ==> r.minQty <= r.maxQty.value)
    requires Sized(r, requested, false).Ok?
    requires Times(k, r.qtyStep) <= requested && Within(r, Times(k, r.qtyStep))
    ensures Times(k, r.qtyStep) <= Sized(r, requested, false).value
  {
    SizedSound(r, requested);
    StepDownIsGreatest(requested, r.qtyStep);
    if r.maxQty.Some? { StepDownIsGreatest(r.maxQty.value, r.qtyStep); }
  }

  lemma SizedExactly(r: Rules, requested: real, legacy: bool, x: real)
    requires r.minQty > 0.0 && (r.maxQty.Some? ==> r.minQty <= r.maxQty.value)
    ensures Sized(r, requested, legacy) == Ok(x) <==> IsSize(r, requested, legacy, x)
  {
    if !legacy {
      if Sized(r, requested, false) == Ok(x) {
        SizedSound(r, requested);
        forall k: int | Times(k, r.qtyStep) <= requested && Within(r, Times(k, r.qtyStep))
          ensures Times(k, r.qtyStep) <= x
        {
          SizedGreatest(r, requested, k);
        }
      }
      if IsSize(r, requested, false, x) {
        SizedKeepsFloor(r, requested, x);
        SizedSound(r, requested);
        var k: int :| Times(k, r.qtyStep) == Sized(r, requested, false).value;
      }
    }
  }

  // ---------------------------------------------------------------------------------------
  // Price, costs and fee

  /** An estimate within its bounds that does not improve on the executable side of the quote. */
  predicate Trusted(e: Estimate, q: Quote, side: Side, maxParticipation: real)
  {
    && 0.0 <= e.feeRate <= 0.05 && 0.0 <= e.participation <= maxParticipation && 0.0 <= e.slippageBps <= 10000.0
    && e.price > 0.0 && (if side.Buy? then q.ask <= e.price else e.price <= q.bid)
  }

  /** The fill executes at the estimate's price, moved to the tick against the order, and pays its fee rate. */
  ghost predicate Pays(r: Rules, q: Quote, side: Side, f: Fill, e: Estimate)
  {
    && f.side == side && f.bbo == (if side.Buy? then q.ask else q.bid) && 2.0 * f.reference == q.bid + q.ask
    && r.tick > 0.0
    && (if side.Buy? then LeastAbove(f.price, e.price, r.tick) else GreatestBelow(f.price, e.price, r.tick))
    && (r.minPrice.Some? ==> r.minPrice.value <= f.price) && (r.maxPrice.Some? ==> f.price <= r.maxPrice.value)
    && r.minNotional <= f.notional && f.notional == f.price * f.quantity && f.fee == f.notional * e.feeRate
    && f.spreadCost == Abs(f.bbo - f.reference) * f.quantity && f.slippageCost == Abs(f.price - f.bbo) * f.quantity
  }

  lemma StepsExactly(side: Side, x: real, tick: real, p: real)
    requires x > 0.0 && tick > 0.0
    ensures p == (if side.Buy? then StepUp(x, tick) else StepDown(x, tick))
            <==> if side.Buy? then LeastAbove(p, x, tick) else GreatestBelow(p, x, tick)
  {
    if side.Buy? {
      StepUpIsLeast(x, tick);
      if LeastAbove(p, x, tick) { LeastIsUnique(p, StepUp(x, tick), x, tick); }
    } else {
      StepDownIsGreatest(x, tick);
      if GreatestBelow(p, x, tick) { GreatestIsUnique(p, StepDown(x, tick), x, tick); }
    }
  }

  lemma PricedParts(r: Rules, q: Quote, side: Side, quantity: real, e: Estimate, maxPart: real, f: Fill)
    returns (price: real)
    requires Priced(r, q, side, quantity, e, maxPart) == Ok(f)
    ensures Trusted(e, q, side, maxPart) && r.tick > 0.0
    ensures price == if side.Buy? then StepUp(e.price, r.tick) else StepDown(e.price, r.tick)
    ensures (r.minPrice.Some? ==> r.minPrice.value <= price) && (r.maxPrice.Some? ==> price <= r.maxPrice.value)
    ensures r.minNotional <= price * quantity
    ensures f == Filled(side, quantity, (q.bid + q.ask) / 2.0, if side.Buy? then q.ask else q.bid, price, e.feeRate)
  {
    price := if side.Buy? then StepUp(e.price, r.tick) else StepDown(e.price, r.tick);
  }

  lemma FilledPays(side: Side, quantity: real, mid: real, bbo: real, price: real, feeRate: real)
    ensures var f := Filled(side, quantity, mid, bbo, price, feeRate);
            && f.side == side && f.quantity == quantity && f.reference == mid && f.bbo == bbo && f.price == price
            && f.notional == price * quantity && f.fee == f.notional * feeRate
            && f.spreadCost == Abs(bbo - mid) * quantity && f.slippageCost == Abs(price - bbo) * quantity
  {
  }

  lemma PricedPays(r: Rules, q: Quote, side: Side, quantity: real, e: Estimate, maxPart: real, f: Fill)
    requires Priced(r, q, side, quantity, e, maxPart) == Ok(f)
    ensures f.quantity == quantity && Trusted(e, q, side, maxPart) && Pays(r, q, side, f, e)
  {
    var price := PricedParts(r, q, side, quantity, e, maxPart, f);
    FilledPays(side, quantity, (q.bid + q.ask) / 2.0, if side.Buy? then q.ask else q.bid, price, e.feeRate);
    StepsExactly(side, e.price, r.tick, price);
  }

  lemma PaysIsPriced(r: Rules, q: Quote, side: Side, e: Estimate, maxPart: real, f: Fill)
    requires Trusted(e, q, side, maxPart) && Pays(r, q, side, f, e)
    ensures Priced(r, q, side, f.quantity, e, maxPart) == Ok(f)
  {
    StepsExactly(side, e.price, r.tick, f.price);
    assert f == Filled(side, f.quantity, (q.bid + q.ask) / 2.0, f.bbo, f.price, e.feeRate);
  }

  lemma PricedExactly(r: Rules, q: Quote, side: Side, quantity: real, e: Estimate, maxPart: real, f: Fill)
    ensures Priced(r, q, side, quantity, e, maxPart) == Ok(f)
            <==> f.quantity == quantity && Trusted(e, q, side, maxPart) && Pays(r, q, side, f, e)
  {
    if Priced(r, q, side, quantity, e, maxPart) == Ok(f) { PricedPays(r, q, side, quantity, e, maxPart, f); }
    if f.quantity == quantity && Trusted(e, q, side, maxPart) && Pays(r, q, side, f, e) {
      PaysIsPriced(r, q, side, e, maxPart, f);
    }
  }

  /** The day's turnover in units of the base asset, at the midpoint. */
  function Volume(q: Quote): Option<real>
    requires q.bid + q.ask > 0.0
  {
    if q.turnover.None? then None else Some(2.0 * q.turnover.value / (q.bid + q.ask))
  }

  lemma VolumeAtMidpoint(q: Quote)
    requires 0.0 < q.bid <= q.ask && q.turnover.Some?
    ensures q.turnover.value / ((q.bid + q.ask) / 2.0) == Volume(q).value
  {
    var x, m := q.turnover.value / ((q.bid + q.ask) / 2.0), (q.bid + q.ask) / 2.0;
    assert x * m == q.turnover.value;
    assert x * (q.bid + q.ask) == 2.0 * q.turnover.value;
  }

  /** The fill that rules, quote and cost model determine for a request. */
  ghost predicate IsFill(r: Rules, q: Quote, side: Side, requested: real, legacy: bool, model: CostModel, maxPart: real,
                         f: Fill)
  {
    && Tradable(r, q) && IsSize(r, requested, legacy, f.quantity)
    && var e := model(side, f.quantity, Volume(q));
       e.Some? && Trusted(e.value, q, side, maxPart) && Pays(r, q, side, f, e.value)
  }

  /** Preparing a request gives a fill exactly when it is that fill: the largest whole number of lots within the
      request, at the least tick at or above the model's price for a BUY and the greatest at or below it for a SELL,
      the model's fee rate on the notional, best price and midpoint as quoted. */
  lemma PrepareIff(r: Rules, q: Quote, side: Side, requested: real, legacy: bool, model: CostModel, maxPart: real,
                   f: Fill)
    ensures Prepare(r, q, side, requested, legacy, model, maxPart) == Ok(f)
            <==> IsFill(r, q, side, requested, legacy, model, maxPart, f)
  {
    if Tradable(r, q) {
      SizedExactly(r, requested, legacy, f.quantity);
      if q.turnover.Some? { VolumeAtMidpoint(q); }
      if Sized(r, requested, legacy).Ok? {
        var x := Sized(r, requested, legacy).value;
        var e := model(side, x, Volume(q));
        if e.Some? { PricedExactly(r, q, side, x, e.value, maxPart, f); }
      }
    }
  }

  /** What each refusal says. */
  ghost predicate Refuses(why: Reject, r: Rules, q: Quote, side: Side, requested: real, legacy: bool, model: CostModel,
                          maxPart: real)
  {
    match why
    case BadRules =>
      !r.genuine || r.minQty <= 0.0 || r.minNotional <= 0.0 || (r.maxQty.Some? && r.maxQty.value <= 0.0)
    case MaxBelowMin =>
      r.genuine && r.minQty > 0.0 && r.minNotional > 0.0 && r.maxQty.Some? && 0.0 < r.maxQty.value < r.minQty
    case BadQuote =>
      RulesFine(r) && (q.bid <= 0.0 || q.ask < q.bid || (q.turnover.Some? && q.turnover.value <= 0.0))
    case BadStep => RulesFine(r) && 0.0 < q.bid <= q.ask && ((!legacy && r.qtyStep <= 0.0) || r.tick <= 0.0)
    case BelowMinQty =>
      && RulesFine(r) && 0.0 < q.bid <= q.ask
      && (if legacy then requested < r.minQty
          else
            forall k: int :: Times(k, r.qtyStep) <= requested && Within(r, Times(k, r.qtyStep)) ==>
              Times(k, r.qtyStep) < r.minQty)
    case LegacyAboveMax =>
      RulesFine(r) && 0.0 < q.bid <= q.ask && legacy && r.maxQty.Some? && r.maxQty.value < requested
    case _ =>
      && Tradable(r, q)
      && exists x :: IsSize(r, requested, legacy, x) && Unfit(why, r, q, side, x, model(side, x, Volume(q)), maxPart)
  }

  predicate RulesFine(r: Rules)
  {
    r.genuine && r.minQty > 0.0 && r.minNotional > 0.0 && (r.maxQty.Some? ==> r.minQty <= r.maxQty.value)
  }

  /** A size that the cost model, or the price it gives, does not allow. */
  ghost predicate Unfit(why: Reject, r: Rules, q: Quote, side: Side, x: real, e: Option<Estimate>, maxPart: real)
  {
    match why
    case NoEstimate => e.None?
    case BadEstimate =>
      && e.Some? && !(&& 0.0 <= e.value.feeRate <= 0.05 && 0.0 <= e.value.participation <= maxPart
                      && 0.0 <= e.value.slippageBps <= 10000.0 && e.value.price > 0.0)
    case Improves => e.Some? && if side.Buy? then e.value.price < q.ask else q.bid < e.value.price
    case PriceOutOfRange =>
      exists p :: AtTick(r, side, e, p)
                  && ((r.minPrice.Some? && p < r.minPrice.value) || (r.maxPrice.Some? && r.maxPrice.value < p))
    case BelowMinNotional => exists p :: AtTick(r, side, e, p) && p * x < r.minNotional
    case _ => false
  }

  /** The price at which the order would execute. */
  ghost predicate AtTick(r: Rules, side: Side, e: Option<Estimate>, p: real)
  {
    && e.Some? && r.tick > 0.0
    && if side.Buy? then LeastAbove(p, e.value.price, r.tick) else GreatestBelow(p, e.value.price, r.tick)
  }

  lemma PricedRefuses(r: Rules, q: Quote, side: Side, x: real, e: Estimate, maxPart: real)
    requires Priced(r, q, side, x, e, maxPart).Err?
    ensures var why := Priced(r, q, side, x, e, maxPart).why;
            (why == BadStep && r.tick <= 0.0) || Unfit(why, r, q, side, x, Some(e), maxPart)
  {
    if e.price > 0.0 && r.tick > 0.0 {
      var p := if side.Buy? then StepUp(e.price, r.tick) else StepDown(e.price, r.tick);
      StepsExactly(side, e.price, r.tick, p);
      assert AtTick(r, side, Some(e), p);
    }
  }

  /** What a refusal says after sizing. */
  lemma RefusedAfterSizing(r: Rules, q: Quote, side: Side, requested: real, legacy: bool, model: CostModel,
                           maxPart: real,
                           x: real)
    requires Tradable(r, q) && Sized(r, requested, legacy) == Ok(x)
    requires Prepare(r, q, side, requested, legacy, model, maxPart).Err?
    ensures var why := Prepare(r, q, side, requested, legacy, model, maxPart).why;
            (why == BadStep && r.tick <= 0.0) || Unfit(why, r, q, side, x, model(side, x, Volume(q)), maxPart)
  {
    if q.turnover.Some? { VolumeAtMidpoint(q); }
    var e := model(side, x, Volume(q));
    if e.Some? { PricedRefuses(r, q, side, x, e.value, maxPart); }
  }

  /** What a refusal says before an estimate is asked for. */
  lemma RefusedBefore(r: Rules, q: Quote, side: Side, requested: real, legacy: bool, model: CostModel, maxPart: real)
    requires Prepare(r, q, side, requested, legacy, model, maxPart).Err?
    requires !Tradable(r, q) || Sized(r, requested, legacy).Err?
    ensures Refuses(Prepare(r, q, side, requested, legacy, model, maxPart).why, r, q, side, requested, legacy, model,
                maxPart)
  {
    if !legacy && r.qtyStep > 0.0 && r.minQty > 0.0 && Sized(r, requested, false).Err? { NoSize(r, requested); }
  }

  /** The reason of a refusal is true. */
  lemma RefusalIsTrue(r: Rules, q: Quote, side: Side, requested: real, legacy: bool, model: CostModel, maxPart: real)
    requires Prepare(r, q, side, requested, legacy, model, maxPart).Err?
    ensures Refuses(Prepare(r, q, side, requested, legacy, model, maxPart).why, r, q, side, requested, legacy, model,
                maxPart)
  {
    if Tradable(r, q) && Sized(r, requested, legacy).Ok? {
      var x := Sized(r, requested, legacy).value;
      SizedExactly(r, requested, legacy, x);
      RefusedAfterSizing(r, q, side, requested, legacy, model, maxPart, x);
    } else {
      RefusedBefore(r, q, side, requested, legacy, model, maxPart);
    }
  }

  lemma NoSize(r: Rules, requested: real)
    requires r.qtyStep > 0.0 && r.minQty > 0.0 && Sized(r, requested, false).Err?
    ensures forall k: int :: Times(k, r.qtyStep) <= requested && Within(r, Times(k, r.qtyStep)) ==>
              Times(k, r.qtyStep) < r.minQty
  {
    SizedIff(r, requested);
  }

  // ---------------------------------------------------------------------------------------
  // The size of an entry

  /** What x costs at the ask is within the position's share of cash and within an equal share for every symbol. */
  predicate Affordable(x: real, ask: real, cash: real, percent: real, symbols: nat)
  {
    x * ask <= cash * percent / 100.0 && x * ask * (if symbols > 1 then symbols else 1) as real <= cash
  }

  lemma AffordableIff(x: real, ask: real, cash: real, percent: real, symbols: nat)
    requires ask > 0.0
    ensures x <= Budget(cash, percent, symbols) / ask <==> Affordable(x, ask, cash, percent, symbols)
  {
    var n := (if symbols > 1 then symbols else 1) as real;
    QuotientAtLeast(Budget(cash, percent, symbols), ask, x);
    QuotientAtLeast(cash, n, x * ask);
  }

  /** The least lots worth the minimum notional at the ask, or the minimum quantity if that is more. */
  ghost predicate IsFloor(r: Rules, ask: real, x: real)
  {
    exists y :: LotsWorth(r, ask, y) && x == Max(r.minQty, y)
  }

  ghost predicate LotsWorth(r: Rules, ask: real, y: real)
  {
    Multiple(y, r.qtyStep) && r.minNotional <= y * ask
    && forall k: int :: r.minNotional <= Times(k, r.qtyStep) * ask ==> y <= Times(k, r.qtyStep)
  }

  lemma FloorIs(r: Rules, ask: real)
    requires r.qtyStep > 0.0 && ask > 0.0 && Floors(r)
    ensures IsFloor(r, ask, FloorQty(r, ask))
  {
    var x := r.minNotional / ask;
    assert x * ask == r.minNotional;
    Product(x, ask);
    StepUpIsLeast(x, r.qtyStep);
    var y := StepUp(x, r.qtyStep);
    QuotientAtLeast(r.minNotional, ask, y);
    forall k: int | r.minNotional <= Times(k, r.qtyStep) * ask ensures y <= Times(k, r.qtyStep) {
      QuotientAtLeast(r.minNotional, ask, Times(k, r.qtyStep));
    }
    assert LotsWorth(r, ask, y);
  }

  lemma LotsWorthUnique(r: Rules, ask: real, y: real, y': real)
    requires LotsWorth(r, ask, y) && LotsWorth(r, ask, y')
    ensures y <= y'
  {
    var j: int :| Times(j, r.qtyStep) == y';
    assert r.minNotional <= Times(j, r.qtyStep) * ask;
  }

  lemma FloorIsUnique(r: Rules, ask: real, x: real, x': real)
    requires IsFloor(r, ask, x) && IsFloor(r, ask, x')
    ensures x == x'
  {
    var y :| LotsWorth(r, ask, y) && x == Max(r.minQty, y);
    var y' :| LotsWorth(r, ask, y') && x' == Max(r.minQty, y');
    LotsWorthUnique(r, ask, y, y');
    LotsWorthUnique(r, ask, y', y);
  }

  lemma RequestParts(r: Rules, q: Quote, cash: real, percent: real, symbols: nat, recovery: bool, x: real)
    returns (base: real, floor: real)
    requires r.qtyStep > 0.0 && q.ask > 0.0 && Floors(r)
    ensures base == Budget(cash, percent, symbols) / q.ask && floor == FloorQty(r, q.ask)
    ensures x <= RequestedOpen(r, q, cash, percent, symbols, recovery)
            <==> x <= base || (recovery && floor * q.ask <= cash && x <= floor)
  {
    base, floor := Budget(cash, percent, symbols) / q.ask, FloorQty(r, q.ask);
  }

  /** Half of the position size when the book is flat and has lost money. */
  function Share(b: Book, equity: real, initial: real, maxPercent: real): real
  {
    if InRecovery(b, equity, initial) then maxPercent / 2.0 else maxPercent
  }

  predicate InRecovery(b: Book, equity: real, initial: real) { b.positions == map[] && equity < initial }

  /** What an entry may ask for: what is affordable, and in recovery the floor as well if cash covers it. */
  predicate MayAsk(ask: real, floor: real, b: Book, equity: real, initial: real, maxPercent: real, symbols: nat,
                   x: real)
  {
    || Affordable(x, ask, b.cash, Share(b, equity, initial, maxPercent), symbols)
    || (InRecovery(b, equity, initial) && floor * ask <= b.cash && x <= floor)
  }

  /** The request of an entry is the bound of what it may ask for. */
  lemma RequestIs(r: Rules, q: Quote, floor: real, b: Book, equity: real, initial: real, maxPercent: real, symbols: nat,
                  x: real)
    requires r.qtyStep > 0.0 && q.ask > 0.0 && Floors(r) && floor == FloorQty(r, q.ask)
    ensures var (percent, recovery) := EntryPercent(b, equity, initial, maxPercent);
            x <= RequestedOpen(r, q, b.cash, percent, symbols, recovery)
            <==> MayAsk(q.ask, floor, b, equity, initial, maxPercent, symbols, x)
  {
    var (percent, recovery) := EntryPercent(b, equity, initial, maxPercent);
    ShareIs(b, equity, initial, maxPercent);
    var base, y := RequestParts(r, q, b.cash, percent, symbols, recovery, x);
    AffordableIff(x, q.ask, b.cash, percent, symbols);
  }

  lemma ShareIs(b: Book, equity: real, initial: real, maxPercent: real)
    ensures EntryPercent(b, equity, initial, maxPercent)
            == (Share(b, equity, initial, maxPercent), InRecovery(b, equity, initial))
  {
  }

  /** The entry is the largest whole number of lots that the account may ask for, within the market maximum. */
  lemma EntryIsLargest(r: Rules, q: Quote, floor: real, b: Book, equity: real, initial: real, maxPercent: real,
                       symbols: nat, model: CostModel, maxPart: real, f: Fill)
    requires PrepareEntry(r, q, b, equity, initial, maxPercent, symbols, model, maxPart) == Ok(f)
    requires IsFloor(r, q.ask, floor)
    ensures Tradable(r, q) && r.qtyStep > 0.0 && Multiple(f.quantity, r.qtyStep) && f.side == Buy
    ensures r.minQty <= f.quantity && Within(r, f.quantity)
    ensures MayAsk(q.ask, floor, b, equity, initial, maxPercent, symbols, f.quantity)
    ensures forall k: int ::
              (MayAsk(q.ask, floor, b, equity, initial, maxPercent, symbols, Times(k, r.qtyStep))
               && Within(r, Times(k, r.qtyStep))) ==> Times(k, r.qtyStep) <= f.quantity
  {
    var (percent, recovery) := EntryPercent(b, equity, initial, maxPercent);
    var requested := RequestedOpen(r, q, b.cash, percent, symbols, recovery);
    PrepareIff(r, q, Buy, requested, false, model, maxPart, f);
    FloorIs(r, q.ask);
    FloorIsUnique(r, q.ask, floor, FloorQty(r, q.ask));
    RequestIs(r, q, floor, b, equity, initial, maxPercent, symbols, f.quantity);
    forall k: int | MayAsk(q.ask, floor, b, equity, initial, maxPercent, symbols, Times(k, r.qtyStep))
                    && Within(r, Times(k, r.qtyStep))
      ensures Times(k, r.qtyStep) <= f.quantity
    {
      RequestIs(r, q, floor, b, equity, initial, maxPercent, symbols, Times(k, r.qtyStep));
    }
  }
}
