/** When the allocator grants, how much, and which refusal it gives otherwise. */
module AllocationLaws {
  import opened CapitalAllocation
  import opened Common
  import opened Rounding

  // ---------------------------------------------------------------------------------------
  // The exact limits

  /** What the exact cap of a bucket leaves. */
  function Left(p: Policy, equity: real, ts: seq<OpenTrade>, b: Bucket): real
  {
    Max(0.0, Cap(p, equity, b) - Exposure(ts, b))
  }

  /** This notional exceeds none of the five exact limits by more than rounding: what is left of the whole book, one
      position, what is left of the named symbol and of the named group, and the risk budget. */
  predicate WithinLimits(p: Policy, equity: real, ts: seq<OpenTrade>, r: Request, n: real)
  {
    && n <= Left(p, equity, ts, Everything) + 0.00515 && n <= Percent(equity, p.position) + 0.00515
    && (r.symbol != "" ==> n <= Left(p, equity, ts, OfSymbol(r.symbol)) + 0.00515)
    && (r.group != "" ==> n <= Left(p, equity, ts, OfGroup(r.group)) + 0.00515)
    && n * LossDistance(r) <= ExactRiskBudget(p, equity, r) + 0.00005 + 0.00505 * LossDistance(r)
  }

  /** One of the five limits is reached, up to rounding. */
  predicate Reaches(p: Policy, equity: real, ts: seq<OpenTrade>, r: Request, n: real)
  {
    || Left(p, equity, ts, Everything) <= n + 0.00515 || Percent(equity, p.position) <= n + 0.00515
    || (r.symbol != "" && Left(p, equity, ts, OfSymbol(r.symbol)) <= n + 0.00515)
    || (r.group != "" && Left(p, equity, ts, OfGroup(r.group)) <= n + 0.00515)
    || SpendsBudget(n, LossDistance(r), ExactRiskBudget(p, equity, r))
  }

  /** The loss of a position of size n at distance d reaches the budget, up to rounding. */
  predicate SpendsBudget(n: real, d: real, budget: real) { budget <= n * d + 0.00005 + 0.00505 * d }

  /** Two reals at most e apart. */
  predicate Near(x: real, y: real, e: real) { -e <= x - y <= e }

  lemma RoundIsNear(x: real, unit: real)
    requires unit > 0.0
    ensures Near(Round(x, unit), x, unit / 2.0)
  {
    RoundNear(x, unit);
  }

  lemma RoomReaches(equity: real, percent: real, ts: seq<OpenTrade>, b: Bucket)
    ensures Near(Room(equity, percent, ts, b), Max(0.0, Percent(equity, percent) - Exposure(ts, b)), FINE)
  {
    RoundIsNear(Percent(equity, percent), FINE);
    RoundIsNear(Exposure(ts, b), FINE);
  }

  lemma DeployableArithmetic(e: real, reserve: real, total: real, x: real, y: real, z: real, h: real)
    requires Near(x, reserve, h) && Near(y, total, h) && Near(z, Min(Max(0.0, e - x), y), h)
    ensures Min(total, e - reserve) - 2.0 * h <= z
  {
  }

  lemma DeployableReaches(p: Policy, equity: real)
    ensures Cap(p, equity, Everything) - FINE <= Deployable(p, equity)
  {
    var reserve, total := Percent(equity, p.reserve), Percent(equity, p.total);
    var x, y := Round(reserve, FINE), Round(total, FINE);
    RoundIsNear(reserve, FINE);
    RoundIsNear(total, FINE);
    RoundIsNear(Min(Max(0.0, equity - x), y), FINE);
    DeployableArithmetic(equity, reserve, total, x, y, Deployable(p, equity), FINE / 2.0);
  }

  /** Nothing is lost in the last rounding: both figures are on the grid. */
  lemma AvailableIs(p: Policy, equity: real, ts: seq<OpenTrade>)
    ensures Available(p, equity, ts) == Max(0.0, Deployable(p, equity) - Round(Exposure(ts, Everything), FINE))
  {
    DeployableOnGrid(p, equity);
    RoundNear(Exposure(ts, Everything), FINE);
    MultipleSum(Deployable(p, equity), Round(Exposure(ts, Everything), FINE), FINE);
    MultipleZero(FINE);
    RoundFixes(Max(0.0, Deployable(p, equity) - Round(Exposure(ts, Everything), FINE)), FINE);
  }

  lemma AvailableReaches(p: Policy, equity: real, ts: seq<OpenTrade>)
    ensures Near(Available(p, equity, ts), Left(p, equity, ts, Everything), FINE + FINE / 2.0)
  {
    AvailableIs(p, equity, ts);
    DeployableReaches(p, equity);
    RoundIsNear(Exposure(ts, Everything), FINE);
    AvailableBound(p, equity, ts);
  }

  // ---------------------------------------------------------------------------------------
  // How much

  /** The smallest limit is one of the five. */
  lemma LeastIsOne(p: Policy, equity: real, ts: seq<OpenTrade>, r: Request)
    ensures var l := Least(p, equity, ts, r);
            || l == Available(p, equity, ts) || l == Round(Percent(equity, p.position), FINE)
            || (r.symbol != "" && l == Room(equity, p.symbol, ts, OfSymbol(r.symbol)))
            || (r.group != "" && l == Room(equity, p.group, ts, OfGroup(r.group))) || l == RiskRoom(p, equity, r)
    ensures var l := Least(p, equity, ts, r);
            && l <= Available(p, equity, ts) && l <= Round(Percent(equity, p.position), FINE)
            && (r.symbol != "" ==> l <= Room(equity, p.symbol, ts, OfSymbol(r.symbol)))
            && (r.group != "" ==> l <= Room(equity, p.group, ts, OfGroup(r.group))) && l <= RiskRoom(p, equity, r)
  {
  }

  lemma SpendsArithmetic(n: real, d: real, exact: real, y: real, h: real, e: real)
    requires d > 0.0 && exact <= y + h && n >= y / d - e
    ensures exact <= n * d + h + e * d
  {
    var x := y / d;
    assert x * d == y;
    Product(n - x + e, d);
    assert (n - x + e) * d == n * d - x * d + e * d;
  }

  lemma RiskReaches(p: Policy, equity: real, r: Request, n: real)
    requires LossDistance(r) > 0.0 && n >= RiskCap(p, equity, r) - CENT / 2.0
    ensures SpendsBudget(n, LossDistance(r), ExactRiskBudget(p, equity, r))
  {
    var exact, d := ExactRiskBudget(p, equity, r), LossDistance(r);
    var y := Round(exact, FINE);
    RoundIsNear(exact, FINE);
    RoundIsNear(y / d, FINE);
    SpendsArithmetic(n, d, exact, y, FINE / 2.0, (CENT + FINE) / 2.0);
  }

  lemma SizedReaches(p: Policy, equity: real, ts: seq<OpenTrade>, r: Request)
    requires ValidPolicy(p) && ValidRequest(equity, r)
    ensures Reaches(p, equity, ts, r, Sized(p, equity, ts, r))
  {
    var l := Least(p, equity, ts, r);
    RoundIsNear(l, CENT);
    LeastIsOne(p, equity, ts, r);
    BudgetNonNegative(p, equity, r);
    if l == RiskRoom(p, equity, r) {
      RiskReaches(p, equity, r, Sized(p, equity, ts, r));
    } else {
      AvailableReaches(p, equity, ts);
      RoundIsNear(Percent(equity, p.position), FINE);
      RoomReaches(equity, p.symbol, ts, OfSymbol(r.symbol));
      RoomReaches(equity, p.group, ts, OfGroup(r.group));
    }
  }

  lemma SizedWithinLimits(p: Policy, equity: real, ts: seq<OpenTrade>, r: Request, n: real)
    requires n == Sized(p, equity, ts, r)
    requires WithinBudget(n, LossDistance(r), ExactRiskBudget(p, equity, r))
    ensures WithinLimits(p, equity, ts, r, n)
  {
    var l := Least(p, equity, ts, r);
    RoundIsNear(l, CENT);
    LeastIsOne(p, equity, ts, r);
    AvailableReaches(p, equity, ts);
    RoundIsNear(Percent(equity, p.position), FINE);
    RoomReaches(equity, p.symbol, ts, OfSymbol(r.symbol));
    RoomReaches(equity, p.group, ts, OfGroup(r.group));
  }

  // ---------------------------------------------------------------------------------------
  // When, and which refusal otherwise

  /** The inputs that are accepted at all. */
  predicate Accepted(p: Policy, equity: real, r: Request)
  {
    && p.reserve >= 0.0 && p.total >= 0.0 && p.position >= 0.0 && p.symbol >= 0.0 && p.group >= 0.0 && p.risk >= 0.0
    && p.dailyLoss >= 0.0 && p.minimum >= 0.0
    && p.reserve + p.total <= 100.000001 && p.position <= p.total && p.symbol <= p.total
    && equity >= 0.0 && 0.0 <= r.multiplier <= 1.0 && 0.0 <= r.dailyLoss <= 100.0
    && r.risk >= 0.0 && r.stop >= 0.0 && r.feeRate >= 0.0
  }

  /** Every room reaches the minimum, and so does the notional that comes out. */
  predicate Roomy(p: Policy, equity: real, ts: seq<OpenTrade>, r: Request)
  {
    && p.minimum <= Available(p, equity, ts)
    && (r.symbol != "" ==> p.minimum <= Room(equity, p.symbol, ts, OfSymbol(r.symbol)))
    && (r.group != "" ==> p.minimum <= Room(equity, p.group, ts, OfGroup(r.group)))
    && p.minimum <= Sized(p, equity, ts, r)
  }

  /** The allocator grants exactly an accepted request without hard block, on positive equity, below the daily loss
      limit, with a free position, room under every cap and some risk to take. What it grants is the smallest of the
      five exact limits up to rounding; what it refuses gets nothing. */
  lemma GrantsIff(p: Policy, equity: real, ts: seq<OpenTrade>, r: Request)
    ensures Allocate(p, equity, ts, r).Some? <==> Accepted(p, equity, r)
    ensures Allocate(p, equity, ts, r).Some? ==>
              var plan := Allocate(p, equity, ts, r).value;
              && (plan.reason == Allocated
                  <==> && r.hardBlocks == [] && equity > 0.0 && r.dailyLoss < p.dailyLoss
                       && (NumOpen(ts) == 0 || NumOpen(ts) < r.maxPositions) && Roomy(p, equity, ts, r)
                       && r.risk > 0.0 && p.risk > 0.0 && r.multiplier > 0.0)
              && (if plan.reason == Allocated then
                    && p.minimum <= plan.notional && Multiple(plan.notional, 0.01)
                    && WithinLimits(p, equity, ts, r, plan.notional) && Reaches(p, equity, ts, r, plan.notional)
                  else plan.notional == 0.0)
  {
    if Accepted(p, equity, r) {
      SizedReaches(p, equity, ts, r);
      SizedIsCents(p, equity, ts, r);
      if Allocate(p, equity, ts, r).value.reason.Allocated? {
        LossWithinBudget(p, equity, ts, r);
        SizedWithinLimits(p, equity, ts, r, Sized(p, equity, ts, r));
      }
    }
  }

  /** What each refusal says of the request. */
  predicate Holds(why: Reason, p: Policy, equity: real, ts: seq<OpenTrade>, r: Request)
  {
    match why
    case HardBlock => r.hardBlocks != []
    case EquityUnavailable => equity == 0.0
    case DailyLossLimit => p.dailyLoss <= r.dailyLoss
    case PositionLimit => NumOpen(ts) > 0 && r.maxPositions <= NumOpen(ts)
    case TotalExposure => Available(p, equity, ts) < p.minimum
    case SymbolExposure => r.symbol != "" && Room(equity, p.symbol, ts, OfSymbol(r.symbol)) < p.minimum
    case GroupExposure => r.group != "" && Room(equity, p.group, ts, OfGroup(r.group)) < p.minimum
    case RiskUnavailable => r.risk == 0.0 || p.risk == 0.0 || r.multiplier == 0.0
    case BelowMinimum => Sized(p, equity, ts, r) < p.minimum
    case Allocated => true
  }

  /** The order in which the refusals are looked for. */
  const CHECKS: seq<Reason> :=
    [HardBlock, EquityUnavailable, DailyLossLimit, PositionLimit, TotalExposure, SymbolExposure, GroupExposure,
     RiskUnavailable, BelowMinimum, Allocated]

  /** The reason given is the first in order that is true. */
  lemma FirstReason(p: Policy, equity: real, ts: seq<OpenTrade>, r: Request)
    requires Allocate(p, equity, ts, r).Some?
    ensures exists i :: 0 <= i < |CHECKS| && CHECKS[i] == Allocate(p, equity, ts, r).value.reason
              && Holds(CHECKS[i], p, equity, ts, r) && forall j :: 0 <= j < i ==> !Holds(CHECKS[j], p, equity, ts, r)
  {
    var why := Allocate(p, equity, ts, r).value.reason;
    var i := Rank(why);
    assert CHECKS[i] == why && Holds(why, p, equity, ts, r);
    forall j | 0 <= j < i ensures !Holds(CHECKS[j], p, equity, ts, r) { assert Rank(CHECKS[j]) == j; }
  }

  function Rank(why: Reason): nat
  {
    match why
    case HardBlock => 0
    case EquityUnavailable => 1
    case DailyLossLimit => 2
    case PositionLimit => 3
    case TotalExposure => 4
    case SymbolExposure => 5
    case GroupExposure => 6
    case RiskUnavailable => 7
    case BelowMinimum => 8
    case Allocated => 9
  }

  // ---------------------------------------------------------------------------------------
  // The figures

  /** Percentages are of equity, a unit of notional loses the stop distance and two fees, and the budget is the smaller
      risk, scaled down. */
  lemma FiguresAre(p: Policy, equity: real, r: Request, percent: real)
    ensures 100.0 * Percent(equity, percent) == equity * percent
    ensures 100.0 * LossDistance(r) == (if r.stop < 0.01 then 0.01 else r.stop) + 200.0 * r.feeRate
    ensures r.risk <= p.risk ==> 100.0 * ExactRiskBudget(p, equity, r) == equity * r.risk * r.multiplier
    ensures p.risk <= r.risk ==> 100.0 * ExactRiskBudget(p, equity, r) == equity * p.risk * r.multiplier
  {
  }

  predicate GroupIs(t: OpenTrade, g: Group)
  {
    t.group == g || (t.group == "" && t.symbol != "" && DefaultGroup(t.symbol) == g)
  }

  /** What an entry of the trade list counts: its recorded notional, or quantity times price without one, and nothing
      when it is closed or the figure is negative. */
  lemma ShareIs(t: OpenTrade, b: Bucket)
    ensures Share(t, b) >= 0.0 && (!t.isOpen ==> Share(t, b) == 0.0)
    ensures t.isOpen && t.notional.Some? && t.notional.value >= 0.0 ==> Share(t, Everything) == t.notional.value
    ensures t.isOpen && t.notional.None? && t.quantity * t.price >= 0.0 ==> Share(t, Everything) == t.quantity * t.price
    ensures Share(t, b) > 0.0 ==> Share(t, b) == Share(t, Everything)
    ensures Share(t, Everything) > 0.0 ==>
              && (forall s :: Share(t, OfSymbol(s)) > 0.0 <==> s != "" && t.symbol == s)
              && (forall g :: Share(t, OfGroup(g)) > 0.0 <==> g != "" && GroupIs(t, g))
  {
  }

  /** Two symbols share a default group exactly when both are major coins, or neither is and they are one up to case. */
  lemma DefaultGroupIff(s: Symbol, t: Symbol)
    ensures DefaultGroup(s) == DefaultGroup(t)
            <==> if s in MAJORS || t in MAJORS then s in MAJORS && t in MAJORS else SameButCase(s, t)
  {
    var head := "symbol:";
    assert (head + Lower(s))[0] == 's' && (head + Lower(t))[0] == 's' && "crypto_beta"[0] == 'c';
    LowerIff(s, t);
    if head + Lower(s) == head + Lower(t) {
      assert (head + Lower(s))[|head|..] == Lower(s) && (head + Lower(t))[|head|..] == Lower(t);
    }
  }

  lemma LowerIff(s: string, t: string)
    ensures Lower(s) == Lower(t) <==> SameButCase(s, t)
  {
    if Lower(s) == Lower(t) {
      assert |s| == |Lower(s)| == |t|;
      forall i | 0 <= i < |s| ensures Alike(s[i], t[i]) { assert Lower(s)[i] == Lower(t)[i]; }
    }
  }

  lemma DefaultGroupIs(s: Symbol)
    ensures if s in {"BTCUSDT", "ETHUSDT", "SOLUSDT", "BNBUSDT", "XRPUSDT", "ADAUSDT", "DOGEUSDT", "AVAXUSDT",
            "LINKUSDT"}
            then DefaultGroup(s) == "crypto_beta" else "symbol:" <= DefaultGroup(s)
  {
  }

  predicate SameButCase(s: string, t: string) { |s| == |t| && forall i :: 0 <= i < |s| ==> Alike(s[i], t[i]) }

  predicate Alike(c: char, d: char)
  {
    c == d || ('A' <= c <= 'Z' && d as int == c as int + 32) || ('A' <= d <= 'Z' && c as int == d as int + 32)
  }

  /** The default policy keeps a fifth of equity in reserve, and a fifth is the most for one position or symbol, 35
      hundredths for a group. */
  lemma DefaultLimits(equity: real, s: Symbol, g: Group)
    requires equity >= 0.0
    ensures ValidPolicy(DEFAULT_POLICY) && Cap(DEFAULT_POLICY, equity, Everything) == 0.8 * equity
    ensures Percent(equity, DEFAULT_POLICY.position) == 0.2 * equity == Cap(DEFAULT_POLICY, equity, OfSymbol(s))
    ensures Cap(DEFAULT_POLICY, equity, OfGroup(g)) == 0.35 * equity
    ensures DEFAULT_POLICY.reserve == 20.0 && DEFAULT_POLICY.total == 80.0 && DEFAULT_POLICY.risk == 1.0
    ensures DEFAULT_POLICY.dailyLoss == 2.0 && DEFAULT_POLICY.minimum == 25.0
  {
  }

  /** In a run every request is answered on the list as it is then, and closing a trade frees what it counted. */
  lemma RunMoves(p: Policy, equity: real, ts: seq<OpenTrade>, es: seq<Event>, e: Event, b: Bucket)
    ensures Run(p, equity, ts, []) == ts
    ensures var us, vs := Run(p, equity, ts, es), Run(p, equity, ts, es + [e]);
            && (e.Ask? ==> vs == us + if Granted(p, equity, us, e.request) then [Filled(p, equity, us, e)] else [])
            && (e.CloseTrade? && e.index < |us| ==>
                  |vs| == |us| && !vs[e.index].isOpen && Exposure(vs, b) == Exposure(us, b) - Share(us[e.index], b))
            && (e.CloseTrade? && e.index >= |us| ==> vs == us)
  {
    var us := Run(p, equity, ts, es);
    assert (es + [e])[..|es|] == es && us + [] == us;
    if e.CloseTrade? && e.index < |us| { ExposureClose(us, e.index, b); }
  }

  /** The trade that a granted request adds. */
  function Filled(p: Policy, equity: real, ts: seq<OpenTrade>, e: Event): OpenTrade
    requires e.Ask? && Granted(p, equity, ts, e.request)
  {
    OpenTrade(true, Some(Allocate(p, equity, ts, e.request).value.notional), 0.0, e.price, e.request.symbol,
              e.request.group)
  }

  predicate Granted(p: Policy, equity: real, ts: seq<OpenTrade>, r: Request)
  {
    Allocate(p, equity, ts, r).Some? && Allocate(p, equity, ts, r).value.reason == Allocated
  }

  /** A symbol is counted as often as the list has an open entry of it. */
  lemma CountedOnce(ts: seq<OpenTrade>, t: OpenTrade, b: Bucket)
    ensures NumInside(ts + [t], b) == NumInside(ts, b) + if Inside(t, b) then 1 else 0
    ensures NumInside([], b) == 0
  {
    assert (ts + [t])[..|ts|] == ts;
  }
}
