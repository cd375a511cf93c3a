/** What a single vote weighs, when synthesis finds which direction, and what raising a risk score can do. */
module ControllerLaws {
  import opened Common
  import opened Controller
  import opened Evaluation
  import opened Rounding
  import opened Sums

  // ---------------------------------------------------------------------------------------
  // The weight of a vote

  /** A vote weighs in proportion to its confidence, to its evidence and to the risk it leaves; the full vote
      weighs one. */
  lemma WeightIsProportional(r: Advice)
    ensures 100.0 * Weight(r) == r.confidence * Weight(r.(confidence := 100.0))
    ensures 100.0 * Weight(r) == r.evidence * Weight(r.(evidence := 100.0))
    ensures 100.0 * Weight(r) == (100.0 - r.risk) * Weight(r.(risk := 0.0))
    ensures Weight(r.(confidence := 100.0, evidence := 100.0, risk := 0.0)) == 1.0
  {
  }

  // ---------------------------------------------------------------------------------------
  // The direction

  /** The recommendations pass the thresholds on quality, agreement and number of specialists. */
  predicate Heard(p: Thresholds, q: Quality, t: Tally)
  {
    !q.blocked && p.quality <= q.score && p.agreement <= q.agreement && p.agents <= t.count && t.buy + t.sell > 0.0
  }

  /** This much for and against is strong enough on average, and leads by the margin. */
  predicate Leads(p: Thresholds, n: nat, pro: real, contra: real)
  {
    contra <= pro && p.score * n as real <= pro && p.margin * (pro + contra) <= pro - contra
  }

  lemma DecisiveIs(p: Thresholds, t: Tally)
    requires Total(t) > 0.0
    ensures Decisive(p, t) <==> t.count > 0 && Leads(p, t.count, Winner(t), Min(t.buy, t.sell))
  {
    if t.count > 0 { QuotientAtLeast(Winner(t), t.count as real, p.score); }
    QuotientAtLeast(Winner(t) - Min(t.buy, t.sell), Total(t), p.margin);
  }

  /** Synthesis finds BUY exactly when the recommendations are heard and BUY strictly leads, and SELL exactly when
      they are heard and SELL leads or ties; the confidence is then the winner's share in percent. */
  lemma DirectionIff(p: Thresholds, q: Quality, t: Tally)
    requires Admitted(p) && t.buy >= 0.0 && t.sell >= 0.0
    ensures Synthesis(p, q, t).vote == BUY
            <==> Heard(p, q, t) && t.buy > t.sell && Leads(p, t.count, t.buy, t.sell)
    ensures Synthesis(p, q, t).vote == SELL <==> Heard(p, q, t) && Leads(p, t.count, t.sell, t.buy)
    ensures Synthesis(p, q, t).vote != WAIT ==>
              Synthesis(p, q, t).confidence * (t.buy + t.sell) == 100.0 * Max(t.buy, t.sell)
  {
    if Heard(p, q, t) {
      DecisiveIs(p, t);
      ShareRange(t);
      ShareTimes(t);
    }
  }

  lemma ShareTimes(t: Tally)
    requires Total(t) > 0.0
    ensures Share(t) * Total(t) == 100.0 * Winner(t)
  {
  }

  // ---------------------------------------------------------------------------------------
  // A riskier opponent

  lemma RiskLowersWeight(r: Advice, x: real)
    requires r.risk <= x <= 100.0
    ensures 0.0 <= Weight(r.(risk := x)) <= Weight(r)
  {
    WeightRange(r.(risk := x));
    var full := r.confidence / 100.0 * (r.evidence / 100.0);
    UnitProduct(r.confidence / 100.0, r.evidence / 100.0);
    Product(full, x / 100.0 - r.risk / 100.0);
    assert Weight(r) - Weight(r.(risk := x)) == full * (x / 100.0 - r.risk / 100.0);
  }

  /** Less weight on the losing side leaves a decision for BUY as it is. */
  lemma WeakerOpponent(p: Thresholds, q: Quality, t: Tally, u: Tally)
    requires Admitted(p) && 0.0 <= u.sell <= t.sell && u.buy == t.buy && u.count == t.count
    requires Synthesis(p, q, t).vote == BUY
    ensures Synthesis(p, q, u).vote == BUY
  {
    DirectionIff(p, q, t);
    DirectionIff(p, q, u);
    MarginGrows(p.margin, t.buy, t.sell, u.sell);
  }

  lemma MarginGrows(m: real, pro: real, x: real, y: real)
    requires 0.0 <= m && y <= x && m * (pro + x) <= pro - x
    ensures m * (pro + y) <= pro - y
  {
    Product(m, x - y);
    assert m * (pro + x) == m * (pro + y) + m * (x - y);
  }

  /** Raising the risk of a counted vote that still counts takes from its own side and from nothing else. */
  lemma RiskierTally(rs: seq<Advice>, i: nat, x: real)
    requires i < |rs| && rs[i].vote == SELL && rs[i].risk <= x <= 100.0
    requires Counts(rs[i]) && Counts(rs[i].(risk := x))
    ensures var t, u := Tallied(rs), Tallied(rs[i := rs[i].(risk := x)]);
            u.buy == t.buy && u.count == t.count && u.sell == t.sell - Weight(rs[i]) + Weight(rs[i].(risk := x))
  {
    var us := rs[i := rs[i].(risk := x)];
    TalliedRemove(rs, i);
    TalliedRemove(us, i);
    assert us[..i] + us[i + 1..] == rs[..i] + rs[i + 1..];
  }

  /** Raising the risk of a SELL vote never takes a BUY away, let alone turns it into a SELL, with quality and gates
      as they were and the vote still counted. */
  lemma RiskierSellKeepsBuy(p: Thresholds, q: Quality, rs: seq<Advice>, i: nat, x: real, gs: seq<Gate>)
    requires Admitted(p) && i < |rs| && rs[i].vote == SELL && rs[i].risk <= x <= 100.0
    requires Counts(rs[i]) && Counts(rs[i].(risk := x))
    requires Decide(p, q, rs, gs).Some? && Decide(p, q, rs, gs).value.final == BUY
    ensures var us := rs[i := rs[i].(risk := x)];
            Decide(p, q, us, gs).Some? && Decide(p, q, us, gs).value.final == BUY
  {
    var us := rs[i := rs[i].(risk := x)];
    var m := GateMap(gs).value;
    RiskierTally(rs, i, x);
    RiskLowersWeight(rs[i], x);
    TallyRange(us);
    FinalIff(Synthesis(p, q, Tallied(rs)), m);
    WeakerOpponent(p, q, Tallied(rs), Tallied(us));
    FinalFollows(Synthesis(p, q, Tallied(rs)), Synthesis(p, q, Tallied(us)), m);
  }

  // ---------------------------------------------------------------------------------------
  // What is counted

  /** A vote is counted exactly when it is a verified BUY or SELL of an agent with a direction, with some confidence,
      some evidence and less than full risk. */
  lemma CountsIff(r: Advice)
    ensures Counts(r) <==>
            && r.agent !in {"decision_quality", "portfolio_engine", "risk_engine", "security_guard"}
            && r.vote != WAIT && r.verified && r.confidence > 0.0 && r.evidence > 0.0 && r.risk < 100.0
  {
    ThreeFactors(r.confidence / 100.0, r.evidence / 100.0, Max(1.0 - r.risk / 100.0, 0.0));
  }

  lemma ThreeFactors(x: real, y: real, z: real)
    requires x >= 0.0 && y >= 0.0 && z >= 0.0
    ensures x * y * z > 0.0 <==> x > 0.0 && y > 0.0 && z > 0.0
  {
    Product(x, y);
    Product(x * y, z);
    if x == 0.0 || y == 0.0 { assert x * y == 0.0; }
  }

  /** What is added up: the weights of the counted BUYs and SELLs, how many were counted, and by whom; the agents of
      all other recommendations are listed as ignored. */
  lemma {:induction false} TalliedIs(rs: seq<Advice>, a: string)
    ensures var t := Tallied(rs);
            && t.buy == Sum((r: Advice) => if Counts(r) && r.vote == BUY then Weight(r) else 0.0, rs)
            && t.sell == Sum((r: Advice) => if Counts(r) && r.vote == SELL then Weight(r) else 0.0, rs)
            && t.count as real == Sum((r: Advice) => if Counts(r) then 1.0 else 0.0, rs)
            && (a in t.contributing <==> exists i :: 0 <= i < |rs| && Counts(rs[i]) && rs[i].agent == a)
            && (a in t.ignored <==> exists i :: 0 <= i < |rs| && !Counts(rs[i]) && rs[i].agent == a)
  {
    if rs != [] {
      var us, r := rs[..|rs| - 1], rs[|rs| - 1];
      TalliedIs(us, a);
      assert us + [r] == rs;
      AgentsAppend(us, r, a);
    }
  }

  lemma AgentsAppend(us: seq<Advice>, r: Advice, a: string)
    ensures var rs := us + [r];
            && ((exists i :: 0 <= i < |rs| && Counts(rs[i]) && rs[i].agent == a)
                <==> (exists i :: 0 <= i < |us| && Counts(us[i]) && us[i].agent == a) || (Counts(r) && r.agent == a))
            && ((exists i :: 0 <= i < |rs| && !Counts(rs[i]) && rs[i].agent == a)
                <==> (exists i :: 0 <= i < |us| && !Counts(us[i]) && us[i].agent == a) || (!Counts(r) && r.agent == a))
  {
    var rs := us + [r];
    assert rs[|us|] == r && forall i :: 0 <= i < |us| ==> rs[i] == us[i];
  }

  // ---------------------------------------------------------------------------------------
  // The quality signal

  /** Confidence, evidence and residual risk count 45, 40 and 15 hundredths in the quality of a vote. */
  lemma QualityRowIs(r: Advice, x: real)
    requires IsPercent(x)
    ensures 100.0 * (QualityRow(r.(confidence := x)) - QualityRow(r)) == 0.45 * (x - r.confidence)
    ensures 100.0 * (QualityRow(r.(evidence := x)) - QualityRow(r)) == 0.40 * (x - r.evidence)
    ensures 100.0 * (QualityRow(r.(risk := x)) - QualityRow(r)) == 0.15 * (r.risk - x)
    ensures QualityRow(r.(confidence := 100.0, evidence := 100.0, risk := 0.0)) == 1.0
  {
  }

  lemma {:induction false} RowsRange(vs: seq<Advice>)
    ensures 0.0 <= Sum(QualityRow, vs) <= |vs| as real
  {
    if vs != [] { RowsRange(vs[..|vs| - 1]); }
  }

  lemma MeanIs(x: real, n: nat)
    requires n > 0 && 0.0 <= x <= n as real
    ensures Clamp(100.0 * x / n as real) * n as real == 100.0 * x
  {
    QuotientAtLeast(100.0 * x, n as real, 0.0);
    QuotientAtLeast(100.0 * x, n as real, 100.0);
  }

  /** The score is the mean of n figures in percent. */
  predicate MeanOf(score: real, total: real, n: nat) { score * n as real == 100.0 * total }

  /** The larger side's share in percent, zero when neither side has any weight. */
  predicate ShareOf(agreement: real, buy: real, sell: real)
  {
    agreement * (buy + sell) == 100.0 * Max(buy, sell) && (buy + sell == 0.0 ==> agreement == 0.0)
  }

  lemma AgreementIs(buy: real, sell: real)
    requires buy >= 0.0 && sell >= 0.0
    ensures ShareOf(Clamp(Agreement(buy, sell)), buy, sell)
  {
    if buy + sell > 0.0 {
      QuotientAtLeast(100.0 * Max(buy, sell), buy + sell, 0.0);
      QuotientAtLeast(100.0 * Max(buy, sell), buy + sell, 100.0);
    }
  }

  lemma MeasureIs(total: real, n: nat, buy: real, sell: real)
    requires n > 0 && 0.0 <= total <= n as real && buy >= 0.0 && sell >= 0.0
    ensures var q := Measure(total, n, buy, sell);
            !q.blocked && MeanOf(q.score, total, n) && ShareOf(q.agreement, buy, sell)
  {
    MeanIs(total, n);
    AgreementIs(buy, sell);
  }

  lemma {:induction false} StrengthsRange(vs: seq<Advice>)
    ensures Sum(BuyStrength, vs) >= 0.0 && Sum(SellStrength, vs) >= 0.0
  {
    if vs != [] {
      StrengthsRange(vs[..|vs| - 1]);
      WeightRange(vs[|vs| - 1]);
    }
  }

  /** The quality score is the mean of the voters' rows in percent, and agreement the larger side's share: clamping
      never changes either. Without a voter or without news both are zero, and stale evidence blocks. */
  lemma MeasuredIsMean(rs: seq<Advice>, q: Quality)
    requires q == QualityOf(rs, true)
    ensures QualityOf(rs, false).blocked && !q.blocked
    ensures if HasNews(Voters(rs)) then
              && MeanOf(q.score, Sum(QualityRow, Voters(rs)), |Voters(rs)|)
              && ShareOf(q.agreement, Tallied(rs).buy, Tallied(rs).sell)
            else q.score == q.agreement == 0.0
  {
    var vs := Voters(rs);
    if HasNews(vs) {
      RowsRange(vs);
      StrengthsRange(vs);
      StrengthsAreScores(rs);
      MeasureIs(Sum(QualityRow, vs), |vs|, Tallied(rs).buy, Tallied(rs).sell);
    }
  }

  // ---------------------------------------------------------------------------------------
  // Why there is no trade

  /** What synthesis says of the recommendations when it waits, in the order it looks. */
  predicate Waits(why: Why, p: Thresholds, q: Quality, t: Tally, confidence: real)
  {
    match why
    case QualityBlocked => q.blocked && confidence == 0.0
    case LowQuality => !q.blocked && q.score < p.quality && confidence == q.score
    case LowAgreement => !q.blocked && p.quality <= q.score && q.agreement < p.agreement && confidence == q.agreement
    case FewAgents =>
      && !q.blocked && p.quality <= q.score && p.agreement <= q.agreement && t.count < p.agents && confidence == 0.0
    case NoStrength =>
      && !q.blocked && p.quality <= q.score && p.agreement <= q.agreement && p.agents <= t.count
      && t.buy + t.sell == 0.0 && confidence == 0.0
    case WeakOrContradictory =>
      && Heard(p, q, t) && !Leads(p, t.count, Max(t.buy, t.sell), Min(t.buy, t.sell))
      && confidence * (t.buy + t.sell) == 100.0 * Max(t.buy, t.sell)
    case Directed => false
  }

  lemma WaitIs(p: Thresholds, q: Quality, t: Tally)
    requires Admitted(p) && t.buy >= 0.0 && t.sell >= 0.0
    ensures var x := Synthesis(p, q, t);
            if x.vote == WAIT then Waits(x.why, p, q, t, x.confidence) else x.why == Directed
  {
    if Heard(p, q, t) {
      DecisiveIs(p, t);
      ShareRange(t);
      ShareTimes(t);
    }
  }

  /** A required gate is missing or some gate blocks. */
  predicate Stopped(m: map<string, Gate>)
  {
    || "risk_engine" !in m || "portfolio_engine" !in m || "security_guard" !in m
    || exists n :: n in m && m[n].verdict.Block?
  }

  /** The decision is blocked exactly when a required gate is missing or a gate blocks. A trade is final exactly when
      synthesis found a direction, the three required gates are there, every gate passes and the portfolio allows some
      notional; the reason otherwise is the first of these that fails. */
  lemma FinishIs(pre: Preliminary, m: map<string, Gate>)
    ensures var d := Finish(pre, m);
            && d.preliminary == pre.vote && d.confidence == pre.confidence && d.tally == pre.tally
            && (d.blocked <==> Stopped(m)) && (d.final != WAIT ==> d.final == pre.vote)
            && (d.final != WAIT <==>
                  && pre.vote != WAIT && !Stopped(m) && (forall n :: n in m ==> m[n].verdict.Pass?)
                  && (m["portfolio_engine"].maxNotional.Some? ==> m["portfolio_engine"].maxNotional.value > 0.0))
            && (d.reason == Missing
                <==> "risk_engine" !in m || "portfolio_engine" !in m || "security_guard" !in m)
            && (d.reason == GateBlock <==> d.blocked && d.reason != Missing)
            && (d.reason == GateHold <==> !d.blocked && exists n :: n in m && !m[n].verdict.Pass?)
            && (d.reason.NoDirection? ==> d.reason.why == pre.why && pre.vote == WAIT)
            && (d.reason == Finalized <==> d.final != WAIT)
            && (d.reason == NoNotional ==> m["portfolio_engine"].maxNotional.Some?
                                           && m["portfolio_engine"].maxNotional.value <= 0.0)
  {
    assert REQUIRED <= m.Keys <==> "risk_engine" in m && "portfolio_engine" in m && "security_guard" in m;
  }

  /** The thresholds that the constructor admits, its defaults, and the agents whose vote is news. */
  lemma AsConfigured(p: Thresholds, agent: string)
    ensures Admitted(p) <==>
            && 0.0 <= p.quality <= 100.0 && 0.0 <= p.agreement <= 100.0 && 1 <= p.agents
            && 0.0 <= p.score <= 1.0 && 0.0 <= p.margin <= 1.0
    ensures DEFAULTS == Thresholds(55.0, 55.0, 2, 0.30, 0.12)
    ensures agent != "" ==>
              var r := Recommendation(agent, BUY, 0.0, 0.0, 0.0, true);
              HasNews([r])
              <==> agent in {"news_intelligence", "crypto_ai", "finance_ai", "economy_ai", "security_ai", "world_ai"}
  {
    if agent != "" {
      var r: Advice := Recommendation(agent, BUY, 0.0, 0.0, 0.0, true);
      assert [r][0] == r;
    }
  }
}
