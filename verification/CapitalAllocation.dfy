/** Leverage-free capital allocation: several exposure caps at once, with decimal rounding, and what
    they guarantee over an unbounded run of allocations and closes. */
module CapitalAllocation {
  import opened Common
  import opened Rounding

  type Symbol = string
  type Group = string

  /** All fields except `minimum` are percentages of equity. */
  datatype Policy = Policy(reserve: real, total: real, position: real, symbol: real, group: real,
                           risk: real, dailyLoss: real, minimum: real)

  /** An entry of the trade list; a missing notional is recomputed from quantity and price. An empty
      symbol or group means the field is absent. */
  datatype OpenTrade = OpenTrade(isOpen: bool, notional: Option<real>, quantity: real, price: real,
                                 symbol: Symbol, group: Group)

  datatype Request = Request(symbol: Symbol, group: Group, maxPositions: int, stop: real, feeRate: real,
                             risk: real, multiplier: real, dailyLoss: real, hardBlocks: seq<string>)

  datatype Reason =
    | Allocated | HardBlock | EquityUnavailable | DailyLossLimit | PositionLimit | TotalExposure
    | SymbolExposure | GroupExposure | RiskUnavailable | BelowMinimum

  datatype Plan = Plan(reason: Reason, notional: real)

  const FINE: real := 0.0001
  const CENT: real := 0.01
  const DUST: real := 0.00515

  const MAJORS: set<Symbol> :=
      {"BTCUSDT", "ETHUSDT", "SOLUSDT", "BNBUSDT", "XRPUSDT", "ADAUSDT", "DOGEUSDT", "AVAXUSDT", "LINKUSDT"}

  function Lower(s: string): string
  {
    seq(|s|, i requires 0 <= i < |s| => if 'A' <= s[i] <= 'Z' then ((s[i] as int) + 32) as char else s[i])
  }

  function DefaultGroup(s: Symbol): Group
  {
    if s in MAJORS then "crypto_beta" else "symbol:" + Lower(s)
  }

  function TradeNotional(t: OpenTrade): real
  {
    Max(0.0, if t.notional.Some? then t.notional.value else t.quantity * t.price)
  }

  function TradeGroup(t: OpenTrade): Group
  {
    if t.group != "" then t.group else if t.symbol != "" then DefaultGroup(t.symbol) else ""
  }

  // ---------------------------------------------------------------------------------------
  // Exposure

  /** What an exposure is summed over. */
  datatype Bucket = Everything | OfSymbol(symbol: Symbol) | OfGroup(group: Group)

  predicate Inside(t: OpenTrade, b: Bucket)
  {
    t.isOpen &&
    match b
    case Everything => true
    case OfSymbol(s) => s != "" && t.symbol == s
    case OfGroup(g) => g != "" && TradeGroup(t) == g
  }

  function Share(t: OpenTrade, b: Bucket): real { if Inside(t, b) then TradeNotional(t) else 0.0 }

  function Exposure(ts: seq<OpenTrade>, b: Bucket): real
  {
    if ts == [] then 0.0 else Exposure(ts[..|ts| - 1], b) + Share(ts[|ts| - 1], b)
  }

  function NumOpen(ts: seq<OpenTrade>): nat
  {
    if ts == [] then 0 else NumOpen(ts[..|ts| - 1]) + (if ts[|ts| - 1].isOpen then 1 else 0)
  }

  lemma ExposureAppend(ts: seq<OpenTrade>, t: OpenTrade, b: Bucket)
    ensures Exposure(ts + [t], b) == Exposure(ts, b) + Share(t, b)
    ensures NumOpen(ts + [t]) == NumOpen(ts) + (if t.isOpen then 1 else 0)
  {
  }

  lemma {:induction false} ExposureNonNegative(ts: seq<OpenTrade>, b: Bucket)
    ensures Exposure(ts, b) >= 0.0
  {
    if ts != [] { ExposureNonNegative(ts[..|ts| - 1], b); }
  }

  lemma {:induction false} ExposureClose(ts: seq<OpenTrade>, i: nat, b: Bucket)
    requires i < |ts|
    ensures Exposure(ts[i := ts[i].(isOpen := false)], b) == Exposure(ts, b) - Share(ts[i], b)
  {
    var us := ts[i := ts[i].(isOpen := false)];
    var n := |ts| - 1;
    if i == n {
      assert us[..n] == ts[..n];
    } else {
      assert us[..n] == ts[..n][i := ts[i].(isOpen := false)];
      ExposureClose(ts[..n], i, b);
    }
  }

  // ---------------------------------------------------------------------------------------
  // The allocation

  predicate ValidPolicy(p: Policy)
  {
    && p.reserve >= 0.0 && p.total >= 0.0 && p.position >= 0.0 && p.symbol >= 0.0 && p.group >= 0.0
    && p.risk >= 0.0 && p.dailyLoss >= 0.0 && p.minimum >= 0.0
    && p.reserve + p.total <= 100.000001 && p.position <= p.total && p.symbol <= p.total
  }

  predicate ValidRequest(equity: real, r: Request)
  {
    && equity >= 0.0 && 0.0 <= r.multiplier <= 1.0 && 0.0 <= r.dailyLoss <= 100.0
    && r.risk >= 0.0 && r.stop >= 0.0 && r.feeRate >= 0.0
  }

  function Percent(equity: real, percent: real): real { equity * percent / 100.0 }

  /** Loss per unit of notional when the stop is hit, round-trip fees included. */
  function LossDistance(r: Request): real { (Max(0.01, r.stop) + r.feeRate * 2.0 * 100.0) / 100.0 }

  function ExactRiskBudget(p: Policy, equity: real, r: Request): real
  {
    Percent(equity, Min(r.risk, p.risk)) * r.multiplier
  }

  function Deployable(p: Policy, equity: real): real
  {
    var reserve := Round(Percent(equity, p.reserve), FINE);
    Round(Min(Max(0.0, equity - reserve), Round(Percent(equity, p.total), FINE)), FINE)
  }

  function Available(p: Policy, equity: real, ts: seq<OpenTrade>): real
  {
    Round(Max(0.0, Deployable(p, equity) - Round(Exposure(ts, Everything), FINE)), FINE)
  }

  /** Room left under one cap. */
  function Room(equity: real, percent: real, ts: seq<OpenTrade>, b: Bucket): real
  {
    Max(0.0, Round(Percent(equity, percent), FINE) - Round(Exposure(ts, b), FINE))
  }

  function RiskCap(p: Policy, equity: real, r: Request): real
    requires LossDistance(r) > 0.0
  {
    Round(Round(ExactRiskBudget(p, equity, r), FINE) / LossDistance(r), FINE)
  }

  function RiskRoom(p: Policy, equity: real, r: Request): real
  {
    if LossDistance(r) > 0.0 then RiskCap(p, equity, r) else 0.0
  }

  /** The smallest of the five limits. */
  function Least(p: Policy, equity: real, ts: seq<OpenTrade>, r: Request): real
  {
    var available := Available(p, equity, ts);
    var position := Round(Percent(equity, p.position), FINE);
    var symbol := if r.symbol != "" then Room(equity, p.symbol, ts, OfSymbol(r.symbol)) else position;
    var group := if r.group != "" then Room(equity, p.group, ts, OfGroup(r.group)) else available;
    Min(available, Min(position, Min(symbol, Min(group, RiskRoom(p, equity, r)))))
  }

  function Sized(p: Policy, equity: real, ts: seq<OpenTrade>, r: Request): real
  {
    Round(Least(p, equity, ts, r), CENT)
  }

  function Verdict(p: Policy, equity: real, ts: seq<OpenTrade>, r: Request): Reason
  {
    if r.hardBlocks != [] then HardBlock
    else if equity <= 0.0 then EquityUnavailable
    else if r.dailyLoss >= p.dailyLoss then DailyLossLimit
    else if (if r.maxPositions > 1 then r.maxPositions else 1) <= NumOpen(ts) then PositionLimit
    else if Available(p, equity, ts) < p.minimum then TotalExposure
    else if r.symbol != "" && Room(equity, p.symbol, ts, OfSymbol(r.symbol)) < p.minimum then SymbolExposure
    else if r.group != "" && Room(equity, p.group, ts, OfGroup(r.group)) < p.minimum then GroupExposure
    else if Min(r.risk, p.risk) <= 0.0 || r.multiplier <= 0.0 then RiskUnavailable
    else if Sized(p, equity, ts, r) < p.minimum then BelowMinimum
    else Allocated
  }

  /** The plan, or None where the inputs are rejected. */
  function Allocate(p: Policy, equity: real, ts: seq<OpenTrade>, r: Request): Option<Plan>
  {
    if !ValidPolicy(p) || !ValidRequest(equity, r) then None
    else
      var v := Verdict(p, equity, ts, r);
      Some(Plan(v, if v.Allocated? then Sized(p, equity, ts, r) else 0.0))
  }

  // ---------------------------------------------------------------------------------------
  // One allocation

  /** The exact cap of a bucket: for the whole book both the exposure limit and the cash reserve. */
  function Cap(p: Policy, equity: real, b: Bucket): real
  {
    match b
    case Everything => Min(Percent(equity, p.total), equity - Percent(equity, p.reserve))
    case OfSymbol(_) => Percent(equity, p.symbol)
    case OfGroup(_) => Percent(equity, p.group)
  }

  lemma RoomBound(equity: real, percent: real, ts: seq<OpenTrade>, b: Bucket)
    ensures Room(equity, percent, ts, b) > 0.0 ==>
              Exposure(ts, b) + Room(equity, percent, ts, b) <= Percent(equity, percent) + FINE
  {
  }

  lemma DeployableBound(p: Policy, equity: real)
    requires Deployable(p, equity) > 0.0
    ensures Deployable(p, equity) <= Cap(p, equity, Everything) + FINE
  {
  }

  lemma AvailableBound(p: Policy, equity: real, ts: seq<OpenTrade>)
    ensures Available(p, equity, ts) > 0.0 ==>
              Exposure(ts, Everything) + Available(p, equity, ts) <= Cap(p, equity, Everything) + FINE + FINE / 2.0
    ensures Available(p, equity, ts) >= 0.0
  {
    var deployed := Round(Exposure(ts, Everything), FINE);
    var deployable := Deployable(p, equity);
    var room := Max(0.0, deployable - deployed);
    RoundNonNegative(room, FINE);
    RoundNear(Exposure(ts, Everything), FINE);
    if deployable > deployed {
      DeployableOnGrid(p, equity);
      MultipleSum(deployable, deployed, FINE);
      RoundFixes(room, FINE);
      ExposureNonNegative(ts, Everything);
      RoundNonNegative(Exposure(ts, Everything), FINE);
      DeployableBound(p, equity);
    } else {
      MultipleZero(FINE);
      RoundFixes(0.0, FINE);
    }
  }

  lemma DeployableOnGrid(p: Policy, equity: real)
    ensures Multiple(Deployable(p, equity), FINE)
  {
  }

  /** What one call adds to the list when it is allowed: a trade at the planned notional that carries
      the request's symbol and group. */
  function Opened(r: Request, notional: real, price: real): OpenTrade
  {
    OpenTrade(true, Some(notional), 0.0, price, r.symbol, r.group)
  }

  /** Does the caller name the group its trade will count towards? */
  predicate NamesGroup(r: Request) { r.group != "" || r.symbol == "" }

  lemma SizedWithin(p: Policy, equity: real, ts: seq<OpenTrade>, r: Request, b: Bucket)
    requires equity >= 0.0 && ValidPolicy(p)
    requires b.OfGroup? ==> NamesGroup(r)
    requires Inside(Opened(r, 0.0, 0.0), b)
    ensures var n := Sized(p, equity, ts, r);
            n <= 0.0 || Exposure(ts, b) + n <= Cap(p, equity, b) + DUST
  {
    var least := Least(p, equity, ts, r);
    RoundNear(least, CENT);
    if least <= 0.0 {
      NotPositive(least);
    } else {
      match b
      case Everything => AvailableBound(p, equity, ts);
      case OfSymbol(s) => RoomBound(equity, p.symbol, ts, b);
      case OfGroup(g) => RoomBound(equity, p.group, ts, b);
    }
  }

  lemma NotPositive(x: real)
    requires x <= 0.0
    ensures Round(x, CENT) <= 0.0
  {
  }

  /** The trade list after a request: the plan's trade is appended when it is allowed. */
  function AfterRequest(p: Policy, equity: real, ts: seq<OpenTrade>, r: Request, price: real): seq<OpenTrade>
  {
    var plan := Allocate(p, equity, ts, r);
    if plan.Some? && plan.value.reason.Allocated? then ts + [Opened(r, plan.value.notional, price)] else ts
  }

  lemma RequestKeepsCap(p: Policy, equity: real, ts: seq<OpenTrade>, r: Request, price: real, b: Bucket)
    requires b.OfGroup? ==> NamesGroup(r)
    ensures Exposure(AfterRequest(p, equity, ts, r, price), b) <= Max(Exposure(ts, b), Cap(p, equity, b) + DUST)
  {
    var plan := Allocate(p, equity, ts, r);
    if plan.Some? && plan.value.reason.Allocated? {
      var t := Opened(r, plan.value.notional, price);
      ExposureAppend(ts, t, b);
      if Inside(t, b) {
        SizedWithin(p, equity, ts, r, b);
      }
    }
  }

  /** Is the loss of a position of size n at distance d within the budget, up to rounding? */
  predicate WithinBudget(n: real, d: real, budget: real)
  {
    n * d <= budget + FINE / 2.0 + (CENT + FINE) / 2.0 * d
  }

  /** The loss at the stop plus round-trip fees stays within the risk budget, up to rounding. */
  lemma LossWithinBudget(p: Policy, equity: real, ts: seq<OpenTrade>, r: Request)
    requires Allocate(p, equity, ts, r).Some?
    ensures WithinBudget(Allocate(p, equity, ts, r).value.notional, LossDistance(r), ExactRiskBudget(p, equity, r))
  {
    BudgetNonNegative(p, equity, r);
    PlanBelowRisk(p, equity, ts, r);
    LossArithmetic(Allocate(p, equity, ts, r).value.notional, LossDistance(r), ExactRiskBudget(p, equity, r));
  }

  lemma LossArithmetic(n: real, d: real, exact: real)
    requires d > 0.0 && n <= Round(exact, FINE) / d + (CENT + FINE) / 2.0
    ensures WithinBudget(n, d, exact)
  {
    RoundNear(exact, FINE);
    DivisionBound(n, d, Round(exact, FINE), (CENT + FINE) / 2.0);
  }

  lemma DivisionBound(n: real, d: real, budget: real, e: real)
    requires d > 0.0 && n <= budget / d + e
    ensures n * d <= budget + e * d
  {
  }

  lemma PlanBelowRisk(p: Policy, equity: real, ts: seq<OpenTrade>, r: Request)
    requires Allocate(p, equity, ts, r).Some? && LossDistance(r) > 0.0
    ensures Allocate(p, equity, ts, r).value.notional
            <= Round(ExactRiskBudget(p, equity, r), FINE) / LossDistance(r) + (CENT + FINE) / 2.0
  {
    var x := Round(ExactRiskBudget(p, equity, r), FINE) / LossDistance(r);
    assert x >= 0.0 by {
      BudgetNonNegative(p, equity, r);
      DivMonotone(0.0, Round(ExactRiskBudget(p, equity, r), FINE), LossDistance(r));
    }
    assert RiskCap(p, equity, r) <= x + FINE / 2.0 by { RoundNear(x, FINE); }
    SizedBelowRisk(p, equity, ts, r);
  }

  lemma BudgetNonNegative(p: Policy, equity: real, r: Request)
    requires ValidPolicy(p) && ValidRequest(equity, r)
    ensures ExactRiskBudget(p, equity, r) >= 0.0 && Round(ExactRiskBudget(p, equity, r), FINE) >= 0.0
    ensures LossDistance(r) >= 0.0001
  {
  }

  lemma SizedBelowRisk(p: Policy, equity: real, ts: seq<OpenTrade>, r: Request)
    requires LossDistance(r) > 0.0
    ensures Sized(p, equity, ts, r) <= RiskCap(p, equity, r) + CENT / 2.0
  {
  }

  // ---------------------------------------------------------------------------------------
  // Unbounded runs

  datatype Event = Ask(request: Request, price: real) | CloseTrade(index: nat)

  function Step(p: Policy, equity: real, ts: seq<OpenTrade>, e: Event): seq<OpenTrade>
  {
    match e
    case Ask(r, price) => AfterRequest(p, equity, ts, r, price)
    case CloseTrade(i) => if i < |ts| then ts[i := ts[i].(isOpen := false)] else ts
  }

  function Run(p: Policy, equity: real, ts: seq<OpenTrade>, es: seq<Event>): seq<OpenTrade>
  {
    if es == [] then ts else Step(p, equity, Run(p, equity, ts, es[..|es| - 1]), es[|es| - 1])
  }

  predicate AllNameGroups(es: seq<Event>)
  {
    forall i :: 0 <= i < |es| && es[i].Ask? ==> NamesGroup(es[i].request)
  }

  /** Over any run of requests and closes, total, symbol and group exposure (and with the total the
      cash reserve) stay below their caps plus one fixed rounding error, however long the run. */
  lemma {:induction false} RunKeepsCaps(p: Policy, equity: real, ts: seq<OpenTrade>, es: seq<Event>, b: Bucket)
    requires Exposure(ts, b) <= Cap(p, equity, b) + DUST
    requires b.OfGroup? ==> AllNameGroups(es)
    ensures Exposure(Run(p, equity, ts, es), b) <= Cap(p, equity, b) + DUST
  {
    if es != [] {
      var before := es[..|es| - 1];
      RunKeepsCaps(p, equity, ts, before, b);
      var us := Run(p, equity, ts, before);
      match es[|es| - 1]
      case Ask(r, price) =>
        RequestKeepsCap(p, equity, us, r, price, b);
      case CloseTrade(i) =>
        if i < |us| { ExposureClose(us, i, b); }
    }
  }

  // ---------------------------------------------------------------------------------------
  // Requests that leave the group out

  /** Does every request of this shape, on every book and policy, keep every group under its cap? */
  ghost predicate KeepsGroupCap(symbol: Symbol, group: Group)
  {
    forall p: Policy, equity: real, ts: seq<OpenTrade>, r: Request, price: real, g: Group ::
      r.symbol == symbol && r.group == group && Exposure(ts, OfGroup(g)) <= Cap(p, equity, OfGroup(g)) + DUST ==>
        Exposure(AfterRequest(p, equity, ts, r, price), OfGroup(g)) <= Cap(p, equity, OfGroup(g)) + DUST
  }

  const DEFAULT_POLICY := Policy(20.0, 80.0, 20.0, 20.0, 35.0, 1.0, 2.0, 25.0)

  function Bare(symbol: Symbol): Request { Request(symbol, "", 5, 1.0, 0.0, 1.0, 1.0, 0.0, []) }

  function Full(g: Group): seq<OpenTrade> { [OpenTrade(true, Some(350.0), 0.0, 0.0, "", g)] }

  lemma RoundFine(k: int)
    ensures Round(k as real, FINE) == k as real
  {
    assert Times(k * 10000, FINE) == k as real;
    RoundFixes(k as real, FINE);
  }

  lemma RoundCent(k: int)
    ensures Round(k as real, CENT) == k as real
  {
    assert Times(k * 100, CENT) == k as real;
    RoundFixes(k as real, CENT);
  }

  lemma FullExposure(g: Group, b: Bucket)
    ensures Exposure(Full(g), b) == Share(Full(g)[0], b) && NumOpen(Full(g)) == 1
  {
  }

  /** With none of the refusals met, the sized notional is what is granted. */
  lemma Granted(p: Policy, equity: real, ts: seq<OpenTrade>, r: Request, n: real)
    requires ValidPolicy(p) && ValidRequest(equity, r) && r.hardBlocks == [] && equity > 0.0
             && r.dailyLoss < p.dailyLoss
    requires NumOpen(ts) < r.maxPositions && r.group == "" && Min(r.risk, p.risk) > 0.0 && r.multiplier > 0.0
    requires Available(p, equity, ts) >= p.minimum && Room(equity, p.symbol, ts, OfSymbol(r.symbol)) >= p.minimum
    requires Sized(p, equity, ts, r) == n >= p.minimum
    ensures Allocate(p, equity, ts, r) == Some(Plan(Allocated, n))
  {
  }

  /** A book at its group cap, and a group-less request on it that meets none of the refusals. */
  lemma Overshoot(symbol: Symbol, g: Group) returns (p: Policy, equity: real, ts: seq<OpenTrade>, r: Request)
    requires symbol != ""
    ensures g != "" ==> Exposure(ts, OfGroup(g)) == Cap(p, equity, OfGroup(g))
    ensures r.symbol == symbol && r.group == "" && r.hardBlocks == []
    ensures ValidPolicy(p) && ValidRequest(equity, r) && equity > 0.0 && r.dailyLoss < p.dailyLoss
    ensures NumOpen(ts) < r.maxPositions && Min(r.risk, p.risk) > 0.0 && r.multiplier > 0.0
    ensures Available(p, equity, ts) >= p.minimum && Room(equity, p.symbol, ts, OfSymbol(r.symbol)) >= p.minimum
    ensures Sized(p, equity, ts, r) == 200.0 >= p.minimum
  {
    p, equity, ts, r := DEFAULT_POLICY, 1000.0, Full(g), Bare(symbol);
    assert NumOpen(ts) < r.maxPositions && Available(p, equity, ts) >= p.minimum
           && Room(equity, p.symbol, ts, OfSymbol(r.symbol)) >= p.minimum by { BareLimits(symbol, g); }
    assert Sized(p, equity, ts, r) == 200.0 by { BareSized(symbol, g); }
    assert g != "" ==> Exposure(ts, OfGroup(g)) == 350.0 by { FullExposure(g, OfGroup(g)); }
    assert Percent(1000.0, 35.0) == 350.0;
  }

  lemma BareSized(symbol: Symbol, g: Group)
    requires symbol != ""
    ensures Sized(DEFAULT_POLICY, 1000.0, Full(g), Bare(symbol)) == 200.0
  {
    BareLimits(symbol, g);
    assert Round(Percent(1000.0, 20.0), FINE) == 200.0 by { RoundFine(200); }
    assert Min(450.0, Min(200.0, Min(200.0, Min(450.0, 1000.0)))) == 200.0;
    RoundCent(200);
  }

  lemma DefaultDeployable()
    ensures Deployable(DEFAULT_POLICY, 1000.0) == 800.0
  {
  }

  lemma BareLimits(symbol: Symbol, g: Group)
    requires symbol != ""
    ensures Available(DEFAULT_POLICY, 1000.0, Full(g)) == 450.0 && NumOpen(Full(g)) == 1
    ensures Room(1000.0, 20.0, Full(g), OfSymbol(symbol)) == 200.0
    ensures RiskRoom(DEFAULT_POLICY, 1000.0, Bare(symbol)) == 1000.0
  {
    FullExposure(g, Everything);
    FullExposure(g, OfSymbol(symbol));
    assert Available(DEFAULT_POLICY, 1000.0, Full(g)) == 450.0 by {
      DefaultDeployable();
      RoundFine(350);
      RoundFine(450);
    }
    assert Room(1000.0, 20.0, Full(g), OfSymbol(symbol)) == 200.0 by {
      RoundFine(0);
      RoundFine(200);
    }
    assert RiskRoom(DEFAULT_POLICY, 1000.0, Bare(symbol)) == 1000.0 by { BareRisk(symbol); }
  }

  lemma BareRisk(symbol: Symbol)
    ensures RiskRoom(DEFAULT_POLICY, 1000.0, Bare(symbol)) == 1000.0
  {
  }

  /** Naming the group is exactly what makes the correlation cap hold: a request that names a symbol
      but no group is sized without that cap, and its trade still counts towards a default group. */
  lemma GroupCapIffNamed(symbol: Symbol, group: Group)
    ensures KeepsGroupCap(symbol, group) <==> group != "" || symbol == ""
  {
    if group != "" || symbol == "" {
      forall p: Policy, equity: real, ts: seq<OpenTrade>, r: Request, price: real, g: Group
        | r.symbol == symbol && r.group == group && Exposure(ts, OfGroup(g)) <= Cap(p, equity, OfGroup(g)) + DUST
        ensures Exposure(AfterRequest(p, equity, ts, r, price), OfGroup(g)) <= Cap(p, equity, OfGroup(g)) + DUST
      {
        RequestKeepsCap(p, equity, ts, r, price, OfGroup(g));
      }
    } else {
      var g := DefaultGroup(symbol);
      var p, equity, ts, r := Overshoot(symbol, g);
      Granted(p, equity, ts, r, 200.0);
      var t := Opened(r, 200.0, 1.0);
      assert AfterRequest(p, equity, ts, r, 1.0) == ts + [t];
      ExposureAppend(ts, t, OfGroup(g));
      assert Share(t, OfGroup(g)) == 200.0;
    }
  }

  // ---------------------------------------------------------------------------------------
  // The per-symbol snapshot

  function NumInside(ts: seq<OpenTrade>, b: Bucket): nat
  {
    if ts == [] then 0 else NumInside(ts[..|ts| - 1], b) + (if Inside(ts[|ts| - 1], b) then 1 else 0)
  }

  ghost predicate AllFine(ts: seq<OpenTrade>)
  {
    forall i :: 0 <= i < |ts| ==> Multiple(TradeNotional(ts[i]), FINE)
  }

  /** A running total that is rounded after every addition. */
  function Accumulated(ts: seq<OpenTrade>, s: Symbol): real
  {
    if ts == [] then 0.0
    else
      var sum := Accumulated(ts[..|ts| - 1], s);
      if Inside(ts[|ts| - 1], OfSymbol(s)) then Round(sum + TradeNotional(ts[|ts| - 1]), FINE) else sum
  }

  /** The table has a rounded running total for exactly the symbols with an open trade. */
  ghost predicate Tabled(symbols: map<Symbol, real>, ts: seq<OpenTrade>)
  {
    forall s ::
      && (s in symbols <==> NumInside(ts, OfSymbol(s)) > 0)
      && (if s in symbols then symbols[s] else 0.0) == Accumulated(ts, s)
  }

  lemma TabledStep(symbols: map<Symbol, real>, ts: seq<OpenTrade>, t: OpenTrade)
    requires Tabled(symbols, ts)
    ensures var sum := if t.symbol in symbols then symbols[t.symbol] else 0.0;
            Tabled(if t.isOpen && t.symbol != "" then symbols[t.symbol := Round(sum + TradeNotional(t), FINE)]
                else symbols,
                   ts + [t])
  {
    assert (ts + [t])[..|ts|] == ts;
  }

  /** The snapshot's loop over the trade list. */
  method SymbolExposures(ts: seq<OpenTrade>) returns (symbols: map<Symbol, real>)
    ensures forall s :: s in symbols <==> NumInside(ts, OfSymbol(s)) > 0
    ensures forall s :: s in symbols ==> symbols[s] == Accumulated(ts, s)
  {
    symbols := map[];
    for i := 0 to |ts|
      invariant Tabled(symbols, ts[..i])
    {
      var t := ts[i];
      TabledStep(symbols, ts[..i], t);
      assert ts[..i] + [t] == ts[..i + 1];
      if t.isOpen && t.symbol != "" {
        var sum := if t.symbol in symbols then symbols[t.symbol] else 0.0;
        symbols := symbols[t.symbol := Round(sum + TradeNotional(t), FINE)];
      }
    }
    assert ts[..|ts|] == ts;
  }

  /** The snapshot's rounded running total drifts by at most half a unit for each trade counted. */
  lemma {:induction false} SnapshotDrift(ts: seq<OpenTrade>, s: Symbol)
    ensures var n := NumInside(ts, OfSymbol(s)) as real;
            -(n * FINE / 2.0) <= Accumulated(ts, s) - Exposure(ts, OfSymbol(s)) <= n * FINE / 2.0
  {
    if ts != [] {
      var us, t := ts[..|ts| - 1], ts[|ts| - 1];
      SnapshotDrift(us, s);
      if Inside(t, OfSymbol(s)) { RoundNear(Accumulated(us, s) + TradeNotional(t), FINE); }
    }
  }

  /** On notionals with four decimals, which every granted plan has, the snapshot and the figure the
      allocator itself checks against the symbol cap are the same. */
  lemma {:induction false} SnapshotAgrees(ts: seq<OpenTrade>, s: Symbol)
    requires AllFine(ts)
    ensures Accumulated(ts, s) == Exposure(ts, OfSymbol(s)) == Round(Exposure(ts, OfSymbol(s)), FINE)
  {
    if ts != [] {
      SnapshotAgrees(ts[..|ts| - 1], s);
    }
    FineExposure(ts, OfSymbol(s));
    RoundFixes(Exposure(ts, OfSymbol(s)), FINE);
  }

  lemma {:induction false} FineExposure(ts: seq<OpenTrade>, b: Bucket)
    requires AllFine(ts)
    ensures Multiple(Exposure(ts, b), FINE)
  {
    if ts == [] {
      MultipleZero(FINE);
    } else {
      var us, t := ts[..|ts| - 1], ts[|ts| - 1];
      FineExposure(us, b);
      if Inside(t, b) { MultipleSum(Exposure(us, b), TradeNotional(t), FINE); }
    }
  }

  /** Granted notionals are whole cents, so a run that starts on four decimals stays there. */
  lemma {:induction false} RunStaysFine(p: Policy, equity: real, ts: seq<OpenTrade>, es: seq<Event>)
    requires AllFine(ts)
    ensures AllFine(Run(p, equity, ts, es))
  {
    if es != [] {
      var before := es[..|es| - 1];
      RunStaysFine(p, equity, ts, before);
      var us := Run(p, equity, ts, before);
      match es[|es| - 1]
      case Ask(r, price) => RequestStaysFine(p, equity, us, r, price);
      case CloseTrade(i) =>
    }
  }

  lemma RequestStaysFine(p: Policy, equity: real, ts: seq<OpenTrade>, r: Request, price: real)
    requires AllFine(ts)
    ensures AllFine(AfterRequest(p, equity, ts, r, price))
  {
    var plan := Allocate(p, equity, ts, r);
    if plan.Some? && plan.value.reason.Allocated? {
      var t := Opened(r, plan.value.notional, price);
      SizedIsCents(p, equity, ts, r);
      MultipleRefine(plan.value.notional, FINE, CENT, 100);
      MultipleZero(FINE);
    }
  }

  lemma SizedIsCents(p: Policy, equity: real, ts: seq<OpenTrade>, r: Request)
    ensures Multiple(Sized(p, equity, ts, r), CENT)
  {
  }
}
