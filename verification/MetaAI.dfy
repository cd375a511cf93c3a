/** Agent reputation and the reputation-weighted consensus. */
module MetaAI {
  import opened Common
  import opened Rounding
  import opened Text

  type AgentId = string
  type Regime = string

  const REGIMES: set<Regime> := {"bull", "bear", "sideways", "high_volatility", "unknown"}

  function Clip(x: real): real { Max(0.0, Min(1.0, x)) }

  // ---------------------------------------------------------------------------------------
  // Reputation

  datatype Outcome = Outcome(agent: AgentId, predicted: string, realized: string, confidence: real, pnl: real,
                             drawdown: real, regime: Regime)

  /** The actions agree up to case. */
  predicate Correct(o: Outcome) { Upper(o.predicted) == Upper(o.realized) }

  datatype Reputation = Reputation(total: nat, correct: nat, errorSum: real, pnl: real, drawdown: real,
                                   regimeTotal: map<Regime, nat>, regimeCorrect: map<Regime, nat>)

  const FRESH := Reputation(0, 0, 0.0, 0.0, 0.0, map[], map[])

  function Get(m: map<Regime, nat>, r: Regime): nat { if r in m then m[r] else 0 }

  function One(b: bool): nat { if b then 1 else 0 }

  function Recorded(rep: Reputation, o: Outcome): Reputation
  {
    Reputation(rep.total + 1, rep.correct + One(Correct(o)),
               rep.errorSum + Abs(Clip(o.confidence) - (if Correct(o) then 1.0 else 0.0)),
               rep.pnl + o.pnl, rep.drawdown + Max(0.0, o.drawdown),
               rep.regimeTotal[o.regime := Get(rep.regimeTotal, o.regime) + 1],
               rep.regimeCorrect[o.regime := Get(rep.regimeCorrect, o.regime) + One(Correct(o))])
  }

  /** What every reputation built by recording satisfies. */
  predicate Sound(rep: Reputation)
  {
    && rep.correct <= rep.total && 0.0 <= rep.errorSum <= rep.total as real && rep.drawdown >= 0.0
    && (forall r :: r in rep.regimeCorrect ==> rep.regimeCorrect[r] <= Get(rep.regimeTotal, r))
    && rep.regimeTotal.Keys == rep.regimeCorrect.Keys <= REGIMES
  }

  lemma RecordedSound(rep: Reputation, o: Outcome)
    requires Sound(rep) && o.regime in REGIMES
    ensures Sound(Recorded(rep, o))
  {
  }

  // The published weight, from the figures it reads.

  function Ratio(part: nat, whole: nat): real
    requires whole > 0
  {
    part as real / whole as real
  }

  function Accuracy(rep: Reputation): real { if rep.total == 0 then 0.5 else Ratio(rep.correct, rep.total) }

  function Calibration(rep: Reputation): real { if rep.total == 0 then 0.5 else 1.0 - rep.errorSum / rep.total as real }

  function RegimeAccuracy(rep: Reputation, r: Regime): real
  {
    if Get(rep.regimeTotal, r) == 0 then Accuracy(rep) else Ratio(Get(rep.regimeCorrect, r), Get(rep.regimeTotal, r))
  }

  function PnlQuality(pnl: real): real { 0.5 + 0.5 * (pnl / (Abs(pnl) + 100.0)) }

  function DrawdownPenalty(d: real): real
    requires d >= 0.0
  {
    1.0 / (1.0 + d / 100.0)
  }

  function Raw(rep: Reputation, r: Regime): real
    requires rep.drawdown >= 0.0
  {
    var accuracy := 0.6 * Accuracy(rep) + 0.4 * RegimeAccuracy(rep, r);
    (0.55 * accuracy + 0.25 * Calibration(rep) + 0.20 * PnlQuality(rep.pnl)) * DrawdownPenalty(rep.drawdown)
  }

  function SampleFactor(rep: Reputation): real { Min(1.0, rep.total as real / 30.0) }

  /** Raw quality blended with the neutral 0.5 until thirty samples are in. */
  function Blend(rep: Reputation, r: Regime): real
    requires rep.drawdown >= 0.0
  {
    0.5 * (1.0 - SampleFactor(rep)) + Raw(rep, r) * SampleFactor(rep)
  }

  const MIN_WEIGHT: real := 0.15
  const MAX_WEIGHT: real := 1.5

  function Weight(rep: Reputation, r: Regime): real
    requires rep.drawdown >= 0.0
  {
    Max(MIN_WEIGHT, Min(MAX_WEIGHT, Blend(rep, r) * MAX_WEIGHT))
  }

  lemma PnlQualityRange(pnl: real)
    ensures 0.0 <= PnlQuality(pnl) <= 1.0
  {
  }

  lemma PenaltyRange(d: real)
    requires d >= 0.0
    ensures 0.0 <= DrawdownPenalty(d) <= 1.0
  {
  }

  lemma RatesRange(rep: Reputation, r: Regime)
    requires Sound(rep)
    ensures 0.0 <= Accuracy(rep) <= 1.0 && 0.0 <= Calibration(rep) <= 1.0 && 0.0 <= RegimeAccuracy(rep, r) <= 1.0
  {
    if rep.total > 0 {
      UnitQuotient(rep.correct as real, rep.total as real);
      UnitQuotient(rep.errorSum, rep.total as real);
    }
    if Get(rep.regimeTotal, r) > 0 {
      assert Get(rep.regimeCorrect, r) <= Get(rep.regimeTotal, r);
      UnitQuotient(Get(rep.regimeCorrect, r) as real, Get(rep.regimeTotal, r) as real);
    }
  }

  lemma Mixture(x: real, y: real, f: real)
    requires 0.0 <= x <= 1.0 && 0.0 <= y <= 1.0 && 0.0 <= f <= 1.0
    ensures 0.0 <= x * (1.0 - f) + y * f <= 1.0
  {
    Product(x, 1.0 - f);
    Product(y, f);
    Product(1.0 - x, 1.0 - f);
    Product(1.0 - y, f);
    assert 1.0 - (x * (1.0 - f) + y * f) == (1.0 - x) * (1.0 - f) + (1.0 - y) * f;
  }

  lemma RawRange(rep: Reputation, r: Regime)
    requires Sound(rep)
    ensures 0.0 <= Raw(rep, r) <= 1.0
  {
    RatesRange(rep, r);
    PnlQualityRange(rep.pnl);
    PenaltyRange(rep.drawdown);
    var accuracy := 0.6 * Accuracy(rep) + 0.4 * RegimeAccuracy(rep, r);
    UnitProduct(0.55 * accuracy + 0.25 * Calibration(rep) + 0.20 * PnlQuality(rep.pnl), DrawdownPenalty(rep.drawdown));
  }

  /** In every reputation that recording can build, the blend lies in 0..1, so the upper clamp of the
      weight never fires: the weight is the scaled blend or the floor. */
  lemma UpperClampNeverFires(rep: Reputation, r: Regime)
    requires Sound(rep)
    ensures 0.0 <= Blend(rep, r) <= 1.0
    ensures Weight(rep, r) == Max(MIN_WEIGHT, Blend(rep, r) * MAX_WEIGHT) <= MAX_WEIGHT
  {
    RawRange(rep, r);
    Mixture(0.5, Raw(rep, r), SampleFactor(rep));
  }

  /** All reputations by agent. */
  type Board = map<AgentId, Reputation>

  function Lookup(b: Board, a: AgentId): Reputation { if a in b then b[a] else FRESH }

  /** Asking for a reputation gives an agent that has none a fresh one. */
  function Seated(b: Board, agents: set<AgentId>): Board { map a | a in b.Keys + agents :: Lookup(b, a) }

  function RecordOne(b: Board, o: Outcome): Board { b[o.agent := Recorded(Lookup(b, o.agent), o)] }

  function RecordAll(b: Board, os: seq<Outcome>): Board
  {
    if os == [] then b else RecordOne(RecordAll(b, os[..|os| - 1]), os[|os| - 1])
  }

  predicate SoundBoard(b: Board) { forall a :: a in b ==> Sound(b[a]) }

  lemma {:induction false} RecordAllSound(b: Board, os: seq<Outcome>)
    requires SoundBoard(b) && forall i :: 0 <= i < |os| ==> os[i].regime in REGIMES
    ensures SoundBoard(RecordAll(b, os))
  {
    if os != [] {
      var us, o := os[..|os| - 1], os[|os| - 1];
      RecordAllSound(b, us);
      RecordedSound(Lookup(RecordAll(b, us), o.agent), o);
    }
  }
}
