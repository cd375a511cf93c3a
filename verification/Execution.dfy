/** Preparing one PAPER execution: the exchange's lot, tick and notional filters, the executable side
    of the quote and the cost estimate. */
module Execution {
  import opened Common
  import opened Ledger
  import opened Rounding

  /** Verified instrument rules. `genuine` stands for the symbol, category, source and timestamp checks. */
  datatype Rules = Rules(genuine: bool, minQty: real, minNotional: real, qtyStep: real, tick: real,
                         maxQty: Option<real>, minPrice: Option<real>, maxPrice: Option<real>)

  datatype Quote = Quote(bid: real, ask: real, turnover: Option<real>)

  datatype Estimate = Estimate(feeRate: real, participation: real, slippageBps: real, price: real)

  /** The cost model: an estimate for a side, a quantity and a base volume, or a refusal. */
  type CostModel = (Side, real, Option<real>) -> Option<Estimate>

  datatype Reject =
    | BadRules | BadStep | BadQuote | MaxBelowMin | BelowMinQty | LegacyAboveMax | NoEstimate | BadEstimate
    | Improves | PriceOutOfRange | BelowMinNotional

  datatype Result<+T> = Ok(value: T) | Err(why: Reject)

  // ---------------------------------------------------------------------------------------
  // The preparation

  predicate Floors(r: Rules)
  {
    r.minQty > 0.0 && r.minNotional > 0.0
  }

  /** The quantity that is ordered: stepped down, then capped at the largest market order. */
  function Sized(r: Rules, requested: real, legacy: bool): Result<real>
  {
    if legacy then
      if requested < r.minQty then Err(BelowMinQty)
      else if r.maxQty.Some? && requested > r.maxQty.value then Err(LegacyAboveMax)
      else Ok(requested)
    else if r.qtyStep <= 0.0 then Err(BadStep)
    else
      var q := StepDown(requested, r.qtyStep);
      if q < r.minQty then Err(BelowMinQty)
      else if r.maxQty.Some? && q > r.maxQty.value then
        var capped := StepDown(r.maxQty.value, r.qtyStep);
        if capped < r.minQty then Err(BelowMinQty) else Ok(capped)
      else Ok(q)
  }

  function Priced(r: Rules, q: Quote, side: Side, quantity: real, e: Estimate, maxParticipation: real): Result<Fill>
  {
    var bbo := if side.Buy? then q.ask else q.bid;
    var mid := (q.bid + q.ask) / 2.0;
    if !(0.0 <= e.feeRate <= 0.05) || !(0.0 <= e.participation <= maxParticipation)
       || !(0.0 <= e.slippageBps <= 10000.0) || e.price <= 0.0 then Err(BadEstimate)
    else if (side.Buy? && e.price < bbo) || (side.Sell? && e.price > bbo) then Err(Improves)
    else if r.tick <= 0.0 then Err(BadStep)
    else
      var price := if side.Buy? then StepUp(e.price, r.tick) else StepDown(e.price, r.tick);
      if (r.minPrice.Some? && price < r.minPrice.value) || (r.maxPrice.Some? && price > r.maxPrice.value) then
        Err(PriceOutOfRange)
      else
        if price * quantity < r.minNotional then Err(BelowMinNotional)
        else Ok(Filled(side, quantity, mid, bbo, price, e.feeRate))
  }

  function Filled(side: Side, quantity: real, mid: real, bbo: real, price: real, feeRate: real): Fill
  {
    var notional := price * quantity;
    Fill(side, quantity, mid, bbo, price, notional, notional * feeRate, Abs(bbo - mid) * quantity,
        Abs(price - bbo) * quantity)
  }

  function Prepare(r: Rules, q: Quote, side: Side, requested: real, legacy: bool,
                   model: CostModel, maxParticipation: real): Result<Fill>
  {
    if !r.genuine || !Floors(r) then Err(BadRules)
    else if r.maxQty.Some? && r.maxQty.value <= 0.0 then Err(BadRules)
    else if r.maxQty.Some? && r.maxQty.value < r.minQty then Err(MaxBelowMin)
    else if q.bid <= 0.0 || q.ask <= 0.0 || q.ask < q.bid then Err(BadQuote)
    else
      match Sized(r, requested, legacy)
      case Err(why) => Err(why)
      case Ok(quantity) =>
        if q.turnover.Some? && q.turnover.value <= 0.0 then Err(BadQuote)
        else
          var volume := if q.turnover.None? then None else Some(q.turnover.value / ((q.bid + q.ask) / 2.0));
          match model(side, quantity, volume)
          case None => Err(NoEstimate)
          case Some(e) => Priced(r, q, side, quantity, e, maxParticipation)
  }

  ghost predicate LotFilters(r: Rules, f: Fill)
  {
    Multiple(f.quantity, r.qtyStep) && r.minQty <= f.quantity && Within(r, f.quantity)
  }

  /** Tick, price range and minimum notional, and the no-improvement rule. */
  ghost predicate PriceFilters(r: Rules, q: Quote, f: Fill)
  {
    && Multiple(f.price, r.tick)
    && (r.minPrice.Some? ==> r.minPrice.value <= f.price)
    && (r.maxPrice.Some? ==> f.price <= r.maxPrice.value)
    && (f.side.Buy? ==> f.price >= q.ask) && (f.side.Sell? ==> f.price <= q.bid)
    && r.minNotional <= f.notional
    && q.bid <= f.reference <= q.ask
  }

  lemma SizedSound(r: Rules, requested: real)
    requires r.minQty > 0.0 && Sized(r, requested, false).Ok?
    requires r.maxQty.Some? ==> r.maxQty.value >= 0.0
    ensures var x := Sized(r, requested, false).value;
            && Multiple(x, r.qtyStep) && r.minQty <= x <= requested
            && Within(r, x)
  {
    if requested < 0.0 {
      NegativeTruncates(requested, r.qtyStep);
    } else {
      StepDownIsGreatest(requested, r.qtyStep);
      if r.maxQty.Some? { StepDownIsGreatest(r.maxQty.value, r.qtyStep); }
    }
  }

  /** Sizing accepts a request exactly when some whole number of lots lies between the minimum and
      both the request and the market maximum. */
  lemma SizedIff(r: Rules, requested: real)
    requires r.qtyStep > 0.0 && r.minQty > 0.0
    ensures Sized(r, requested, false).Ok? <==>
            exists k: int :: r.minQty <= Times(k, r.qtyStep) <= requested && Within(r, Times(k, r.qtyStep))
  {
    if Sized(r, requested, false).Ok? {
      if r.maxQty.Some? && r.maxQty.value < 0.0 { NegativeTruncates(r.maxQty.value, r.qtyStep); }
      SizedSound(r, requested);
    }
    if k: int :| r.minQty <= Times(k, r.qtyStep) <= requested && Within(r, Times(k, r.qtyStep)) {
      assert Multiple(Times(k, r.qtyStep), r.qtyStep);
      SizedKeepsFloor(r, requested, Times(k, r.qtyStep));
    }
  }

  predicate Within(r: Rules, x: real) { r.maxQty.Some? ==> x <= r.maxQty.value }

  lemma FilledIsPrepared(side: Side, quantity: real, mid: real, bbo: real, price: real, feeRate: real)
    requires quantity > 0.0 && price > 0.0 && 0.0 <= feeRate <= 0.05
    requires if side.Buy? then mid <= bbo <= price else price <= bbo <= mid
    ensures Prepared(Filled(side, quantity, mid, bbo, price, feeRate))
  {
    var notional := price * quantity;
    Product(price, quantity);
    Product(notional, feeRate);
    Product(notional, 1.0 - feeRate);
  }

  lemma PricedSound(r: Rules, q: Quote, side: Side, quantity: real, e: Estimate, maxPart: real)
    requires r.minNotional > 0.0 && quantity > 0.0 && 0.0 < q.bid <= q.ask
    requires Priced(r, q, side, quantity, e, maxPart).Ok?
    ensures var f := Priced(r, q, side, quantity, e, maxPart).value;
            f.side == side && f.quantity == quantity && Prepared(f) && PriceFilters(r, q, f)
  {
    var bbo := if side.Buy? then q.ask else q.bid;
    var mid := (q.bid + q.ask) / 2.0;
    var price := if side.Buy? then StepUp(e.price, r.tick) else StepDown(e.price, r.tick);
    assert Multiple(price, r.tick) && (if side.Buy? then price >= bbo else price <= bbo) by {
      if side.Buy? { StepUpIsLeast(e.price, r.tick); } else { StepDownIsGreatest(e.price, r.tick); }
    }
    Product(price, quantity);
    FilledIsPrepared(side, quantity, mid, bbo, price, e.feeRate);
  }

  /** Every prepared execution satisfies the exchange's filters, is never better than the executable
      best price, and is a fill the book can post with exact cash-flow reconstruction. */
  lemma PreparedIsAdmissible(r: Rules, q: Quote, side: Side, requested: real, model: CostModel, maxPart: real)
    requires Prepare(r, q, side, requested, false, model, maxPart).Ok?
    ensures var f := Prepare(r, q, side, requested, false, model, maxPart).value;
            LotFilters(r, f) && PriceFilters(r, q, f) && Prepared(f) && f.side == side && f.quantity <= requested
  {
    var quantity, e := Parts(r, q, side, requested, false, model, maxPart);
    SizedSound(r, requested);
    PricedSound(r, q, side, quantity, e, maxPart);
  }

  /** The two stages a successful preparation went through. */
  lemma Parts(r: Rules, q: Quote, side: Side, requested: real, legacy: bool, model: CostModel, maxPart: real)
    returns (quantity: real, e: Estimate)
    requires Prepare(r, q, side, requested, legacy, model, maxPart).Ok?
    ensures Floors(r) && 0.0 < q.bid <= q.ask && (r.maxQty.Some? ==> r.maxQty.value > 0.0)
    ensures Sized(r, requested, legacy) == Ok(quantity)
    ensures Priced(r, q, side, quantity, e, maxPart) == Prepare(r, q, side, requested, legacy, model, maxPart)
  {
    quantity := Sized(r, requested, legacy).value;
    var volume := if q.turnover.None? then None else Some(q.turnover.value / ((q.bid + q.ask) / 2.0));
    e := model(side, quantity, volume).value;
  }

  // ---------------------------------------------------------------------------------------
  // Recovery sizing of an entry

  const RECOVERY_FACTOR: real := 0.5

  /** A flat book below its starting capital opens at half size. */
  function EntryPercent(b: Book, equity: real, initial: real, maxPercent: real): (real, bool)
  {
    if b.positions != map[] || equity >= initial then (maxPercent, false)
    else (maxPercent * RECOVERY_FACTOR, true)
  }

  function Budget(cash: real, percent: real, symbols: nat): real
  {
    Min(cash * percent / 100.0, cash / (if symbols > 1 then symbols else 1) as real)
  }

  /** The least quantity whose value at the ask reaches the minimum notional. */
  function FloorQty(r: Rules, ask: real): real
    requires r.qtyStep > 0.0 && ask > 0.0
  {
    Max(r.minQty, StepUp(r.minNotional / ask, r.qtyStep))
  }

  function RequestedOpen(r: Rules, q: Quote, cash: real, percent: real, symbols: nat, recovery: bool): real
    requires r.qtyStep > 0.0 && q.ask > 0.0
  {
    var base := Budget(cash, percent, symbols) / q.ask;
    var floor := FloorQty(r, q.ask);
    if recovery && floor * q.ask <= cash then Max(base, floor) else base
  }

  /** Entries ask for their budgeted quantity, raised to the instrument's minimum in recovery. */
  function PrepareOpen(r: Rules, q: Quote, cash: real, percent: real, symbols: nat, recovery: bool,
                       model: CostModel, maxPart: real): Result<Fill>
  {
    if !Floors(r) then Err(BadRules)
    else if r.qtyStep <= 0.0 then Err(BadStep)
    else if q.ask <= 0.0 then Err(BadQuote)
    else Prepare(r, q, Buy, RequestedOpen(r, q, cash, percent, symbols, recovery), false, model, maxPart)
  }

  /** The floor reaches both minima; only an unaligned minimum quantity leaves it off the lot grid. */
  lemma FloorReaches(r: Rules, ask: real)
    requires r.qtyStep > 0.0 && ask > 0.0 && Floors(r)
    ensures var x := FloorQty(r, ask); r.minQty <= x && r.minNotional <= ask * x
    ensures !Multiple(FloorQty(r, ask), r.qtyStep) ==> FloorQty(r, ask) == r.minQty
  {
    var y := r.minNotional / ask;
    assert y * ask == r.minNotional;
    Product(y, ask);
    StepUpIsLeast(y, r.qtyStep);
    var x := FloorQty(r, ask);
    Product(x - y, ask);
    assert (x - y) * ask == ask * x - r.minNotional;
  }

  /** The quantity that is sized from a request at or above a reachable step-aligned floor stays there. */
  lemma SizedKeepsFloor(r: Rules, requested: real, floor: real)
    requires r.qtyStep > 0.0 && r.minQty > 0.0 && Multiple(floor, r.qtyStep)
    requires r.minQty <= floor <= requested && Within(r, floor)
    ensures Sized(r, requested, false).Ok? && Sized(r, requested, false).value >= floor
  {
    var k: int :| Times(k, r.qtyStep) == floor;
    StepDownIsGreatest(requested, r.qtyStep);
    if r.maxQty.Some? { StepDownIsGreatest(r.maxQty.value, r.qtyStep); }
  }

  /** In recovery, when the raised floor is a whole number of lots, affordable and not above the market
      maximum, neither the quantity nor the notional filter can refuse the entry. */
  lemma RecoveryPassesFilters(r: Rules, q: Quote, cash: real, percent: real, symbols: nat, model: CostModel,
                              maxPart: real)
    requires r.qtyStep > 0.0 && q.ask > 0.0 && Floors(r) && Multiple(FloorQty(r, q.ask), r.qtyStep)
    requires FloorQty(r, q.ask) * q.ask <= cash
    requires Within(r, FloorQty(r, q.ask))
    ensures PrepareOpen(r, q, cash, percent, symbols, true, model, maxPart)
            !in {Err(BelowMinQty), Err(LegacyAboveMax), Err(BelowMinNotional), Err(MaxBelowMin)}
  {
    FloorReaches(r, q.ask);
    var floor := FloorQty(r, q.ask);
    var requested := RequestedOpen(r, q, cash, percent, symbols, true);
    SizedKeepsFloor(r, requested, floor);
    SizedReachesNotional(r, q, requested, floor, model, maxPart);
  }

  /** An order sized at or above a quantity that is worth the minimum at the ask is worth it at any price. */
  lemma SizedReachesNotional(r: Rules, q: Quote, requested: real, floor: real, model: CostModel, maxPart: real)
    requires q.ask > 0.0 && 0.0 < floor && r.minNotional <= q.ask * floor
    requires Sized(r, requested, false).Ok? && Sized(r, requested, false).value >= floor
    ensures Prepare(r, q, Buy, requested, false, model, maxPart)
            !in {Err(BelowMinQty), Err(LegacyAboveMax), Err(BelowMinNotional)}
  {
    var x := Sized(r, requested, false).value;
    forall e: Estimate ensures Priced(r, q, Buy, x, e, maxPart) != Err(BelowMinNotional) {
      NotionalReached(r, q, x, floor, e, maxPart);
    }
  }

  /** The budget buys a whole number of lots between the minimum quantity and the market maximum. */
  ghost predicate LotsInBudget(r: Rules, ask: real, budget: real)
    requires ask > 0.0
  {
    exists k: int :: r.minQty <= Times(k, r.qtyStep) <= budget / ask && Within(r, Times(k, r.qtyStep))
  }

  /** What instrument rules and a quote have to be for an order to be sized at all. */
  predicate Sizable(r: Rules, q: Quote)
  {
    && r.genuine && Floors(r) && r.qtyStep > 0.0 && (r.maxQty.Some? ==> r.maxQty.value >= r.minQty)
    && 0.0 < q.bid <= q.ask
  }

  /** Exactly when recovery can enter: with an affordable floor within the maximum, the quantity and notional
      filters let the entry through, whatever the cost model, if and only if the floor is a whole number of
      lots or the budget itself buys one. Otherwise the raised request is rounded down below the minimum. */
  lemma RecoveryIff(r: Rules, q: Quote, cash: real, percent: real, symbols: nat, model: CostModel, maxPart: real)
    requires Sizable(r, q) && FloorQty(r, q.ask) * q.ask <= cash && Within(r, FloorQty(r, q.ask))
    ensures PrepareOpen(r, q, cash, percent, symbols, true, model, maxPart)
            !in {Err(BelowMinQty), Err(BelowMinNotional)}
            <==> Multiple(FloorQty(r, q.ask), r.qtyStep) || LotsInBudget(r, q.ask, Budget(cash, percent, symbols))
  {
    FloorReaches(r, q.ask);
    var requested := RequestedOpen(r, q, cash, percent, symbols, true);
    if Multiple(FloorQty(r, q.ask), r.qtyStep) {
      RecoveryPassesFilters(r, q, cash, percent, symbols, model, maxPart);
    } else if LotsInBudget(r, q.ask, Budget(cash, percent, symbols)) {
      var k: int :| r.minQty <= Times(k, r.qtyStep) <= requested && Within(r, Times(k, r.qtyStep));
      SizedIff(r, requested);
      SizedSound(r, requested);
      SizedReachesNotional(r, q, requested, r.minQty, model, maxPart);
    } else {
      UnalignedMinimumIsRefused(r, q, cash, percent, symbols, model, maxPart);
    }
  }

  /** The refusing half: a floor off the lot grid and no lot in the budget refuse the entry under every cost
      model, although cash covers the floor. */
  lemma UnalignedMinimumIsRefused(r: Rules, q: Quote, cash: real, percent: real, symbols: nat, model: CostModel,
                                  maxPart: real)
    requires Sizable(r, q) && !Multiple(FloorQty(r, q.ask), r.qtyStep)
    requires !LotsInBudget(r, q.ask, Budget(cash, percent, symbols))
    ensures PrepareOpen(r, q, cash, percent, symbols, true, model, maxPart) == Err(BelowMinQty)
  {
    FloorReaches(r, q.ask);
    var requested := RequestedOpen(r, q, cash, percent, symbols, true);
    SizedIff(r, requested);
  }

  /** The entry as the loop prepares it from its account. */
  function PrepareEntry(r: Rules, q: Quote, b: Book, equity: real, initial: real, maxPercent: real, symbols: nat,
                        model: CostModel, maxPart: real): Result<Fill>
  {
    var (percent, recovery) := EntryPercent(b, equity, initial, maxPercent);
    PrepareOpen(r, q, b.cash, percent, symbols, recovery, model, maxPart)
  }

  /** A flat book that lost money can re-enter, as far as the filters are concerned, exactly under that
      condition at half its position size. */
  lemma FlatBookReenters(r: Rules, q: Quote, b: Book, equity: real, initial: real, maxPercent: real, symbols: nat,
                         model: CostModel, maxPart: real)
    requires b.positions == map[] && equity < initial
    requires Sizable(r, q) && FloorQty(r, q.ask) * q.ask <= b.cash && Within(r, FloorQty(r, q.ask))
    ensures PrepareEntry(r, q, b, equity, initial, maxPercent, symbols, model, maxPart)
            !in {Err(BelowMinQty), Err(BelowMinNotional)}
            <==> Multiple(FloorQty(r, q.ask), r.qtyStep)
                 || LotsInBudget(r, q.ask, Budget(b.cash, maxPercent * RECOVERY_FACTOR, symbols))
  {
    RecoveryIff(r, q, b.cash, maxPercent * RECOVERY_FACTOR, symbols, model, maxPart);
  }

  lemma NotionalReached(r: Rules, q: Quote, x: real, floor: real, e: Estimate, maxPart: real)
    requires q.ask > 0.0 && 0.0 < floor <= x && r.minNotional <= q.ask * floor
    ensures Priced(r, q, Buy, x, e, maxPart) != Err(BelowMinNotional)
  {
    if e.price >= q.ask && r.tick > 0.0 {
      StepUpIsLeast(e.price, r.tick);
      var price := StepUp(e.price, r.tick);
      Product(price - q.ask, x);
      Product(x - floor, q.ask);
      assert price * x == (price - q.ask) * x + (x - floor) * q.ask + q.ask * floor;
    }
  }

  // ---------------------------------------------------------------------------------------
  // Closing what was opened

  /** A close is prepared for the whole position and then refused by the book on any other quantity.
      The prepared quantity is the position's exactly when it is still a multiple of the lot step and
      within the market maximum. */
  lemma CloseMatchesPosition(r: Rules, q: Quote, p: Position, model: CostModel, maxPart: real)
    requires p.quantity > 0.0 && Prepare(r, q, Sell, p.quantity, false, model, maxPart).Ok?
    ensures Prepare(r, q, Sell, p.quantity, false, model, maxPart).value.quantity == p.quantity
            <==> Multiple(p.quantity, r.qtyStep) && Within(r, p.quantity)
  {
    PreparedIsAdmissible(r, q, Sell, p.quantity, model, maxPart);
    StepDownFixed(p.quantity, r.qtyStep);
  }

  /** Round trip: whatever is opened can be closed in full under the same lot step and maximum, so the
      book accepts any close that preparation lets through. */
  lemma OpenedCanBeClosed(r: Rules, r': Rules, q: Quote, q': Quote, requested: real, b: Book, s: Symbol, d: DecisionId,
                          model: CostModel, model': CostModel, maxPart: real)
    requires r'.qtyStep == r.qtyStep && r'.maxQty == r.maxQty
    requires Prepare(r, q, Buy, requested, false, model, maxPart).Ok?
    requires Open(b, s, d, Prepare(r, q, Buy, requested, false, model, maxPart).value).Some?
    ensures var f := Prepare(r, q, Buy, requested, false, model, maxPart).value;
            var b' := Open(b, s, d, f).value;
            var g := Prepare(r', q', Sell, f.quantity, false, model', maxPart);
            g.Ok? ==> Close(b', s, g.value).Some?
  {
    PreparedIsAdmissible(r, q, Buy, requested, model, maxPart);
    var f := Prepare(r, q, Buy, requested, false, model, maxPart).value;
    var b' := Open(b, s, d, f).value;
    if Prepare(r', q', Sell, f.quantity, false, model', maxPart).Ok? {
      CloseMatchesPosition(r', q', b'.positions[s], model', maxPart);
    }
  }
}
