/** What a reputation's weight makes of each figure, and what recording outcomes makes of the figures. */
module ReputationLaws {
  import opened Common
  import opened MetaAI
  import opened MetaReputation
  import opened Rounding
  import opened Sums
  import MetaPayload
  import Text

  // ---------------------------------------------------------------------------------------
  // The raw quality, figure by figure

  /** Drawdown divides: a hundred of it halves the raw quality. */
  lemma DrawdownDivides(rep: Reputation, r: Regime)
    requires rep.drawdown >= 0.0
    ensures (100.0 + rep.drawdown) * Raw(rep, r) == 100.0 * Raw(rep.(drawdown := 0.0), r)
  {
    PenaltyIs(rep.drawdown);
    var x := Raw(rep.(drawdown := 0.0), r);
    assert DrawdownPenalty(0.0) == 1.0;
    assert Raw(rep, r) == x * DrawdownPenalty(rep.drawdown);
    assert (100.0 + rep.drawdown) * (x * DrawdownPenalty(rep.drawdown))
        == x * ((100.0 + rep.drawdown) * DrawdownPenalty(rep.drawdown));
  }

  lemma PenaltyIs(d: real)
    requires d >= 0.0
    ensures (100.0 + d) * DrawdownPenalty(d) == 100.0
  {
    var x := 1.0 + d / 100.0;
    assert DrawdownPenalty(d) * x == 1.0;
    assert 100.0 + d == 100.0 * x;
  }

  /** The share of right answers counts 55 hundredths, 22 of them in the regime asked for once it was seen. */
  lemma OneMoreRight(rep: Reputation, r: Regime, s: Regime)
    requires rep.drawdown == 0.0 && rep.total > 0 && Get(rep.regimeTotal, r) > 0 && s != r
    ensures rep.total as real * (Raw(rep.(correct := rep.correct + 1), r) - Raw(rep, r)) == 0.33
    ensures var more := rep.(regimeCorrect := rep.regimeCorrect[r := Get(rep.regimeCorrect, r) + 1]);
            Get(rep.regimeTotal, r) as real * (Raw(more, r) - Raw(rep, r)) == 0.22
    ensures Get(rep.regimeTotal, s) == 0 ==>
              rep.total as real * (Raw(rep.(correct := rep.correct + 1), s) - Raw(rep, s)) == 0.55
  {
    OneMore(rep.correct, rep.total);
    OneMore(Get(rep.regimeCorrect, r), Get(rep.regimeTotal, r));
  }

  lemma OneMore(k: nat, n: nat)
    requires n > 0
    ensures n as real * (Ratio(k + 1, n) - Ratio(k, n)) == 1.0
  {
    assert Ratio(k + 1, n) * n as real == (k + 1) as real;
    assert Ratio(k, n) * n as real == k as real;
  }

  /** Calibration counts a quarter: the mean confidence error comes off it. */
  lemma ErrorCounts(rep: Reputation, r: Regime, x: real)
    requires rep.drawdown == 0.0 && rep.total > 0
    ensures rep.total as real * (Raw(rep, r) - Raw(rep.(errorSum := rep.errorSum + x), r)) == 0.25 * x
  {
    var n := rep.total as real;
    var a, b := rep.errorSum / n, (rep.errorSum + x) / n;
    assert a * n == rep.errorSum && b * n == rep.errorSum + x;
    assert DrawdownPenalty(0.0) == 1.0;
    assert Raw(rep, r) - Raw(rep.(errorSum := rep.errorSum + x), r) == 0.25 * (b - a);
    assert n * (0.25 * (b - a)) == 0.25 * (b * n - a * n);
  }

  /** Profit counts a fifth, from half of it at no profit towards all or none of it. */
  lemma ProfitCounts(rep: Reputation, r: Regime, x: real)
    requires rep.drawdown == 0.0
    ensures (Abs(x) + 100.0) * (Raw(rep.(pnl := x), r) - Raw(rep.(pnl := 0.0), r)) == 0.1 * x
  {
    var y := x / (Abs(x) + 100.0);
    assert y * (Abs(x) + 100.0) == x;
    assert DrawdownPenalty(0.0) == 1.0;
    assert Raw(rep.(pnl := x), r) - Raw(rep.(pnl := 0.0), r) == 0.1 * y;
  }

  /** Nothing known is one half; a perfect record without profit is nine tenths. */
  lemma RawAnchors(rep: Reputation, r: Regime)
    ensures Raw(FRESH, r) == 0.5
    ensures Faultless(rep, r) ==> Raw(rep, r) == 0.9
  {
    if rep.total > 0 { Whole(rep.total); }
    if Get(rep.regimeTotal, r) > 0 { Whole(Get(rep.regimeTotal, r)); }
    assert DrawdownPenalty(0.0) == 1.0;
  }

  /** Every answer right and certain, neither profit nor drawdown. */
  predicate Faultless(rep: Reputation, r: Regime)
  {
    && rep.total > 0 && rep.correct == rep.total && rep.errorSum == 0.0 && rep.pnl == 0.0 && rep.drawdown == 0.0
    && Get(rep.regimeCorrect, r) == Get(rep.regimeTotal, r)
  }

  lemma Whole(n: nat)
    requires n > 0
    ensures Ratio(n, n) == 1.0 && 0.0 / n as real == 0.0
  {
  }

  // ---------------------------------------------------------------------------------------
  // The weight

  /** Part f of the way from one half to x. */
  function Mix(x: real, f: real): real { 0.5 * (1.0 - f) + x * f }

  lemma BlendIs(rep: Reputation, r: Regime) returns (raw: real, f: real)
    requires Sound(rep)
    ensures raw == Raw(rep, r) && f == SampleFactor(rep) && Blend(rep, r) == Mix(raw, f) && 0.0 <= f <= 1.0
  {
    raw, f := Raw(rep, r), SampleFactor(rep);
  }

  lemma MixIs(x: real, f: real, n: nat)
    requires f == Min(1.0, n as real / 30.0)
    ensures n >= 30 ==> Mix(x, f) == x
    ensures n <= 30 ==> 30.0 * (Mix(x, f) - 0.5) == n as real * (x - 0.5)
  {
    assert Mix(x, f) - 0.5 == f * (x - 0.5);
    if n <= 30 { assert 30.0 * f == n as real; }
  }

  /** Each of the first thirty samples moves the weight a thirtieth of the way from 0.75 to one and a half times the
      raw quality; it is never less than 0.15. */
  lemma WeightIs(rep: Reputation, r: Regime)
    requires Sound(rep)
    ensures Weight(rep, r) == Max(0.15, 1.5 * Blend(rep, r))
    ensures rep.total >= 30 ==> Blend(rep, r) == Raw(rep, r)
    ensures rep.total <= 30 ==> 30.0 * (Blend(rep, r) - 0.5) == rep.total as real * (Raw(rep, r) - 0.5)
  {
    UpperClampNeverFires(rep, r);
    var raw, f := BlendIs(rep, r);
    MixIs(raw, f, rep.total);
  }

  /** The same number of answers, and no figure that is worse. */
  predicate NoWorse(x: Reputation, y: Reputation, r: Regime)
  {
    && x.total == y.total && Get(x.regimeTotal, r) == Get(y.regimeTotal, r)
    && x.correct >= y.correct && Get(x.regimeCorrect, r) >= Get(y.regimeCorrect, r)
    && x.errorSum <= y.errorSum && x.pnl >= y.pnl && x.drawdown <= y.drawdown
  }

  lemma RatioMonotone(k: nat, l: nat, n: nat)
    requires k <= l && n > 0
    ensures Ratio(k, n) <= Ratio(l, n)
  {
    DivMonotone(k as real, l as real, n as real);
  }

  lemma RatesMonotone(x: Reputation, y: Reputation, r: Regime)
    requires NoWorse(x, y, r)
    ensures Accuracy(x) >= Accuracy(y) && RegimeAccuracy(x, r) >= RegimeAccuracy(y, r)
            && Calibration(x) >= Calibration(y)
  {
    if x.total > 0 {
      RatioMonotone(y.correct, x.correct, x.total);
      DivMonotone(x.errorSum, y.errorSum, x.total as real);
    }
    if Get(x.regimeTotal, r) > 0 {
      RatioMonotone(Get(y.regimeCorrect, r), Get(x.regimeCorrect, r), Get(x.regimeTotal, r));
    }
  }

  lemma ProfitMonotone(p: real, q: real)
    requires q <= p
    ensures PnlQuality(q) <= PnlQuality(p)
  {
    var x, y := p / (Abs(p) + 100.0), q / (Abs(q) + 100.0);
    assert x * (Abs(p) + 100.0) == p && y * (Abs(q) + 100.0) == q;
    QuotientAtLeast(q, Abs(q) + 100.0, x);
  }

  lemma PenaltyMonotone(c: real, d: real)
    requires 0.0 <= c <= d
    ensures 0.0 < DrawdownPenalty(d) <= DrawdownPenalty(c)
  {
    PenaltyIs(c);
    PenaltyIs(d);
    var x, y := DrawdownPenalty(c), DrawdownPenalty(d);
    Product(x, d - c);
    QuotientAtLeast(100.0, 100.0 + d, x);
    assert (100.0 + d) * x == (100.0 + c) * x + (d - c) * x;
  }

  /** The part of the raw quality that drawdown then divides. */
  function Mixed(accuracy: real, regime: real, calibration: real, profit: real): real
  {
    0.55 * (0.6 * accuracy + 0.4 * regime) + 0.25 * calibration + 0.20 * profit
  }

  lemma RawIs(x: Reputation, r: Regime) returns (mixed: real, penalty: real)
    requires Sound(x)
    ensures mixed == Mixed(Accuracy(x), RegimeAccuracy(x, r), Calibration(x), PnlQuality(x.pnl)) >= 0.0
    ensures penalty == DrawdownPenalty(x.drawdown) && Raw(x, r) == mixed * penalty
  {
    mixed := Mixed(Accuracy(x), RegimeAccuracy(x, r), Calibration(x), PnlQuality(x.pnl));
    penalty := DrawdownPenalty(x.drawdown);
    RatesRange(x, r);
    PnlQualityRange(x.pnl);
  }

  lemma RawMonotone(x: Reputation, y: Reputation, r: Regime)
    requires Sound(x) && Sound(y) && NoWorse(x, y, r)
    ensures Raw(x, r) >= Raw(y, r)
  {
    var a, c := RawIs(x, r);
    var b, d := RawIs(y, r);
    RatesMonotone(x, y, r);
    ProfitMonotone(x.pnl, y.pnl);
    PenaltyMonotone(x.drawdown, y.drawdown);
    ProductMonotone(a, b, c, d);
  }

  lemma ProductMonotone(a: real, b: real, c: real, d: real)
    requires a >= b >= 0.0 && c >= d >= 0.0
    ensures a * c >= b * d
  {
    Product(a - b, c);
    Product(b, c - d);
    assert a * c - b * d == (a - b) * c + b * (c - d);
  }

  lemma BlendMonotone(x: Reputation, y: Reputation, r: Regime)
    requires Sound(x) && Sound(y) && x.total == y.total && Raw(x, r) >= Raw(y, r)
    ensures Blend(x, r) >= Blend(y, r)
  {
    var a, f := BlendIs(x, r);
    var b, g := BlendIs(y, r);
    MixMonotone(a, b, f);
  }

  lemma MixMonotone(a: real, b: real, f: real)
    requires a >= b && f >= 0.0
    ensures Mix(a, f) >= Mix(b, f)
  {
    Product(a - b, f);
    assert Mix(a, f) - Mix(b, f) == (a - b) * f;
  }

  /** A record of as many answers that is no worse in any figure never weighs less. */
  lemma BetterNeverWeighsLess(x: Reputation, y: Reputation, r: Regime)
    requires Sound(x) && Sound(y) && NoWorse(x, y, r)
    ensures Weight(x, r) >= Weight(y, r)
  {
    RawMonotone(x, y, r);
    BlendMonotone(x, y, r);
    UpperClampNeverFires(x, r);
    UpperClampNeverFires(y, r);
  }

  // ---------------------------------------------------------------------------------------
  // The figures that recording adds up

  function Answers(a: AgentId): Outcome -> real { (o: Outcome) => if o.agent == a then 1.0 else 0.0 }

  function RightAnswers(a: AgentId): Outcome -> real { (o: Outcome) => if o.agent == a && Agree(o) then 1.0 else 0.0 }

  /** The predicted and the realised action are the same letters, whatever their case. */
  predicate Agree(o: Outcome)
  {
    |o.predicted| == |o.realized| && forall i :: 0 <= i < |o.predicted| ==> SameLetter(o.predicted[i], o.realized[i])
  }

  predicate SameLetter(c: char, d: char)
  {
    c == d || ('a' <= c <= 'z' && c as int == d as int + 32) || ('a' <= d <= 'z' && d as int == c as int + 32)
  }

  /** How far the confidence, clipped to 0..1, is from the truth. */
  function Errors(a: AgentId): Outcome -> real
  {
    (o: Outcome) =>
      if o.agent != a then 0.0
      else
        var c := if o.confidence < 0.0 then 0.0 else if o.confidence > 1.0 then 1.0 else o.confidence;
        if Agree(o) then 1.0 - c else c
  }

  function Profits(a: AgentId): Outcome -> real { (o: Outcome) => if o.agent == a then o.pnl else 0.0 }

  function Drawdowns(a: AgentId): Outcome -> real
  {
    (o: Outcome) => if o.agent == a && o.drawdown > 0.0 then o.drawdown else 0.0
  }

  function AnswersIn(a: AgentId, g: Regime): Outcome -> real
  {
    (o: Outcome) => if o.agent == a && o.regime == g then 1.0 else 0.0
  }

  function RightIn(a: AgentId, g: Regime): Outcome -> real
  {
    (o: Outcome) => if o.agent == a && o.regime == g && Agree(o) then 1.0 else 0.0
  }

  lemma CorrectIff(o: Outcome)
    ensures Correct(o) <==> Agree(o)
  {
    var x, y := Text.Upper(o.predicted), Text.Upper(o.realized);
    if x == y {
      assert |o.predicted| == |x| == |y| == |o.realized|;
      forall i | 0 <= i < |o.predicted| ensures SameLetter(o.predicted[i], o.realized[i]) { assert x[i] == y[i]; }
    }
  }

  /** These figures are the sums of an agent's outcomes. */
  ghost predicate AddsUp(rep: Reputation, a: AgentId, os: seq<Outcome>)
  {
    && rep.total as real == Sum(Answers(a), os) && rep.correct as real == Sum(RightAnswers(a), os)
    && rep.errorSum == Sum(Errors(a), os) && rep.pnl == Sum(Profits(a), os) && rep.drawdown == Sum(Drawdowns(a), os)
    && forall g :: InRegime(rep, a, g, os)
  }

  ghost predicate InRegime(rep: Reputation, a: AgentId, g: Regime, os: seq<Outcome>)
  {
    && Get(rep.regimeTotal, g) as real == Sum(AnswersIn(a, g), os)
    && Get(rep.regimeCorrect, g) as real == Sum(RightIn(a, g), os)
  }

  /** What an agent has learned from a list of outcomes is how many were its own and right, in all and in each regime,
      how far its confidence was off, and its profit and drawdown in sum. */
  lemma {:induction false} LearnedAddsUp(os: seq<Outcome>, a: AgentId)
    ensures AddsUp(Learned(FRESH, os, a), a, os)
  {
    if os != [] {
      var us, o := os[..|os| - 1], os[|os| - 1];
      LearnedAddsUp(us, a);
      CorrectIff(o);
      forall g ensures InRegime(Learned(FRESH, os, a), a, g, os) { assert InRegime(Learned(FRESH, us, a), a, g, us); }
    }
  }

  /** The regimes that recording supports. */
  lemma RegimesAre(os: seq<Outcome>)
    ensures MetaPayload.KnownRegimes(os) <==>
            forall i :: 0 <= i < |os| ==> os[i].regime in {"bull", "bear", "sideways", "high_volatility", "unknown"}
  {
  }
}
