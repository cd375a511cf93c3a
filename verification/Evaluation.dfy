/** End-to-end evaluation: the quality signal is measured on the same recommendations the controller
    then synthesises. */
module Evaluation {
  import opened Common
  import opened Rounding
  import opened Controller
  import opened Sums

  /** The verified directional recommendations, in order, whatever their weight. */
  function Voters(rs: seq<Advice>): seq<Advice>
  {
    if rs == [] then []
    else Voters(rs[..|rs| - 1]) + (if Voting(rs[|rs| - 1]) then [rs[|rs| - 1]] else [])
  }

  predicate HasNews(rs: seq<Advice>) { exists i :: 0 <= i < |rs| && rs[i].agent in NEWS }

  function QualityRow(r: Advice): real
  {
    0.45 * (r.confidence / 100.0) + 0.40 * (r.evidence / 100.0) + 0.15 * Max(0.0, 1.0 - r.risk / 100.0)
  }

  function BuyStrength(r: Advice): real { if r.vote.BUY? then Weight(r) else 0.0 }

  function SellStrength(r: Advice): real { if r.vote.SELL? then Weight(r) else 0.0 }

  function Clamp(x: real): real { Min(Max(x, 0.0), 100.0) }

  function Agreement(buy: real, sell: real): real
  {
    if buy + sell <= 0.0 then 0.0 else 100.0 * Max(buy, sell) / (buy + sell)
  }

  /** Quality of a non-empty list of voters that includes a news voice. */
  function Measured(vs: seq<Advice>): Quality
    requires vs != []
  {
    Measure(Sum(QualityRow, vs), |vs|, Sum(BuyStrength, vs), Sum(SellStrength, vs))
  }

  function Measure(quality: real, n: nat, buy: real, sell: real): Quality
    requires n > 0
  {
    Quality(false, Clamp(100.0 * quality / n as real), Clamp(Agreement(buy, sell)))
  }

  function QualityOf(rs: seq<Advice>, current: bool): Quality
  {
    if !current then Quality(true, 0.0, 0.0)
    else if Voters(rs) == [] || !HasNews(Voters(rs)) then Quality(false, 0.0, 0.0)
    else Measured(Voters(rs))
  }

  function Evaluate(p: Thresholds, rs: seq<Advice>, gs: seq<Gate>, current: bool): Option<Decision>
  {
    Decide(p, QualityOf(rs, current), rs, gs)
  }

  /** The measuring loops. */
  method MeasureQuality(rs: seq<Advice>, current: bool) returns (q: Quality)
    ensures q == QualityOf(rs, current)
  {
    if !current { return Quality(true, 0.0, 0.0); }
    var rows: seq<Advice> := [];
    for i := 0 to |rs|
      invariant rows == Voters(rs[..i])
    {
      assert rs[..i + 1][..i] == rs[..i];
      if Voting(rs[i]) { rows := rows + [rs[i]]; }
    }
    assert rs[..|rs|] == rs;
    if rows == [] { return Quality(false, 0.0, 0.0); }
    var news := false;
    for i := 0 to |rows|
      invariant news == exists j :: 0 <= j < i && rows[j].agent in NEWS
    {
      if rows[i].agent in NEWS { news := true; }
    }
    if !news { return Quality(false, 0.0, 0.0); }
    q := MeasureRows(rows);
  }

  method MeasureRows(rows: seq<Advice>) returns (q: Quality)
    requires rows != []
    ensures q == Measured(rows)
  {
    var buy, sell, quality := 0.0, 0.0, 0.0;
    for i := 0 to |rows|
      invariant buy == Sum(BuyStrength, rows[..i]) && sell == Sum(SellStrength, rows[..i])
      invariant quality == Sum(QualityRow, rows[..i])
    {
      assert rows[..i + 1][..i] == rows[..i];
      if rows[i].vote.BUY? { buy := buy + Weight(rows[i]); }
      if rows[i].vote.SELL? { sell := sell + Weight(rows[i]); }
      quality := quality + QualityRow(rows[i]);
    }
    assert rows[..|rows|] == rows;
    q := Measure(quality, |rows|, buy, sell);
  }

  // ---------------------------------------------------------------------------------------
  // Quality and controller see the same votes

  /** The strengths of the voters are exactly the controller's scores: votes of no weight add nothing. */
  lemma {:induction false} StrengthsAreScores(rs: seq<Advice>)
    ensures Sum(BuyStrength, Voters(rs)) == Tallied(rs).buy && Sum(SellStrength, Voters(rs)) == Tallied(rs).sell
  {
    if rs != [] {
      var us, r := rs[..|rs| - 1], rs[|rs| - 1];
      StrengthsAreScores(us);
      if Voting(r) {
        SumAppend(BuyStrength, Voters(us), r);
        SumAppend(SellStrength, Voters(us), r);
      } else {
        assert Voters(us) + [] == Voters(us);
      }
      SingleStrength(r);
    }
  }

  lemma SingleStrength(r: Advice)
    ensures Single(r).buy == (if Voting(r) then BuyStrength(r) else 0.0)
    ensures Single(r).sell == (if Voting(r) then SellStrength(r) else 0.0)
  {
    WeightRange(r);
  }

  lemma ShareRange(t: Tally)
    requires t.buy >= 0.0 && t.sell >= 0.0 && Total(t) > 0.0
    ensures 50.0 <= Share(t) <= 100.0
  {
    QuotientAtLeast(100.0 * Winner(t), Total(t), 100.0);
    QuotientAtLeast(100.0 * Winner(t), Total(t), 50.0);
  }

  lemma AgreementIsShare(rs: seq<Advice>)
    requires Total(Tallied(rs)) > 0.0 && Voters(rs) != []
    ensures Measured(Voters(rs)).agreement == Share(Tallied(rs))
    ensures 50.0 <= Share(Tallied(rs)) <= 100.0
  {
    var t := Tallied(rs);
    TallyRange(rs);
    ShareRange(t);
    assert Agreement(t.buy, t.sell) == Share(t);
    assert Measured(Voters(rs)).agreement == Clamp(Agreement(t.buy, t.sell)) by { StrengthsAreScores(rs); }
  }

  /** What holds whenever synthesis finds a direction. */
  predicate Backed(p: Thresholds, t: Tally, v: Vote)
  {
    && t.count >= p.agents && Total(t) > 0.0
    && v == (if t.buy > t.sell then BUY else SELL)
    && 2.0 * Winner(t) >= (1.0 + p.margin) * Total(t)
    && Winner(t) >= p.score * t.count as real
  }

  lemma DecisiveMeans(p: Thresholds, t: Tally)
    requires Total(t) > 0.0
    ensures Decisive(p, t) <==>
            t.count > 0 && Winner(t) >= p.score * t.count as real && 2.0 * Winner(t) >= (1.0 + p.margin) * Total(t)
  {
  }

  lemma SynthesisBacked(p: Thresholds, q: Quality, t: Tally)
    requires t.buy >= 0.0 && t.sell >= 0.0 && !Synthesis(p, q, t).vote.WAIT?
    ensures Backed(p, t, Synthesis(p, q, t).vote)
    ensures !q.blocked && q.score >= p.quality && q.agreement >= p.agreement
    ensures Synthesis(p, q, t).confidence == Share(t)
  {
    DecisiveMeans(p, t);
    ShareRange(t);
  }

  lemma {:induction false} VotersAreThere(rs: seq<Advice>, i: nat)
    requires i < |Voters(rs)|
    ensures Voters(rs)[i] in rs && Voting(Voters(rs)[i])
  {
    var us := rs[..|rs| - 1];
    if i < |Voters(us)| {
      VotersAreThere(us, i);
      assert Voters(rs)[i] == Voters(us)[i];
    }
  }

  /** A final BUY or SELL of an end-to-end evaluation implies fresh evidence, a verified directional
      news voice, enough counted specialists, all gates passing, a winning side with at least
      (1 + margin) / 2 of all weight; and quality agreement and controller confidence are the same
      number, that side's share in percent. */
  lemma TradeIsBacked(p: Thresholds, rs: seq<Advice>, gs: seq<Gate>, current: bool)
    requires Admitted(p) && (p.quality > 0.0 || p.agreement > 0.0)
    requires Evaluate(p, rs, gs, current).Some? && !Evaluate(p, rs, gs, current).value.final.WAIT?
    ensures var d := Evaluate(p, rs, gs, current).value;
            && current && Backed(p, Tallied(rs), d.final)
            && QualityOf(rs, current).agreement == d.confidence == Share(Tallied(rs))
    ensures exists r :: r in rs && Voting(r) && r.agent in NEWS
    ensures var m := GateMap(gs).value; REQUIRED <= m.Keys && AllPass(m)
  {
    var q, t := QualityOf(rs, current), Tallied(rs);
    TallyRange(rs);
    FinalIff(Synthesis(p, q, t), GateMap(gs).value);
    SynthesisBacked(p, q, t);
    AgreementIsShare(rs);
    var i :| 0 <= i < |Voters(rs)| && Voters(rs)[i].agent in NEWS;
    VotersAreThere(rs, i);
  }

  /** The agreement threshold adds nothing below 50 (1 + margin): dropping it changes no final intent. */
  lemma AgreementRedundant(p: Thresholds, rs: seq<Advice>, gs: seq<Gate>, current: bool)
    requires Admitted(p) && p.quality > 0.0 && p.agreement <= 50.0 * (1.0 + p.margin)
    requires Evaluate(p, rs, gs, current).Some?
    ensures var p' := p.(agreement := 0.0);
            Evaluate(p', rs, gs, current).Some?
                && Evaluate(p', rs, gs, current).value.final == Evaluate(p, rs, gs, current).value.final
  {
    var q, t, m := QualityOf(rs, current), Tallied(rs), GateMap(gs).value;
    TallyRange(rs);
    if q.score > 0.0 && Total(t) > 0.0 { AgreementIsShare(rs); }
    SameSynthesis(p, q, t);
    FinalFollows(Synthesis(p, q, t), Synthesis(p.(agreement := 0.0), q, t), m);
  }

  lemma FinalFollows(x: Preliminary, y: Preliminary, m: map<string, Gate>)
    requires x.vote == y.vote
    ensures Finish(x, m).final == Finish(y, m).final
  {
  }

  lemma SameSynthesis(p: Thresholds, q: Quality, t: Tally)
    requires t.buy >= 0.0 && t.sell >= 0.0 && p.quality > 0.0 && p.agreement <= 50.0 * (1.0 + p.margin)
    requires q.score > 0.0 && Total(t) > 0.0 ==> q.agreement == Share(t)
    ensures Synthesis(p.(agreement := 0.0), q, t).vote == Synthesis(p, q, t).vote
  {
    var p' := p.(agreement := 0.0);
    if !Synthesis(p', q, t).vote.WAIT? {
      SynthesisBacked(p', q, t);
      ShareAtLeast(p, t);
    }
  }

  lemma ShareAtLeast(p: Thresholds, t: Tally)
    requires Total(t) > 0.0 && 2.0 * Winner(t) >= (1.0 + p.margin) * Total(t)
    ensures Share(t) >= 50.0 * (1.0 + p.margin)
  {
    QuotientAtLeast(100.0 * Winner(t), Total(t), 50.0 * (1.0 + p.margin));
  }

  lemma DefaultAgreementRedundant(rs: seq<Advice>, gs: seq<Gate>, current: bool)
    requires Evaluate(DEFAULTS, rs, gs, current).Some?
    ensures Evaluate(DEFAULTS, rs, gs, current).value.final
            == Evaluate(DEFAULTS.(agreement := 0.0), rs, gs, current).value.final
  {
    AgreementRedundant(DEFAULTS, rs, gs, current);
  }

  // ---------------------------------------------------------------------------------------
  // When a news voice is required

  ghost predicate NeedsNews(p: Thresholds)
  {
    forall rs: seq<Advice>, gs: seq<Gate>, current: bool ::
      Evaluate(p, rs, gs, current).Some? && !Evaluate(p, rs, gs, current).value.final.WAIT? ==>
        exists r :: r in rs && Voting(r) && r.agent in NEWS
  }

  const CHART_BUY: Advice := Recommendation("technical_ai", BUY, 100.0, 100.0, 0.0, true)

  function Chorus(r: Advice, n: nat): seq<Advice> { if n == 0 then [] else Chorus(r, n - 1) + [r] }

  lemma {:induction false} ChorusTally(r: Advice, n: nat)
    requires Single(r).buy == 1.0 && Single(r).sell == 0.0 && Single(r).count == 1
    ensures var t := Tallied(Chorus(r, n)); t.buy == n as real && t.sell == 0.0 && t.count == n
  {
    if n > 0 {
      ChorusTally(r, n - 1);
      TalliedAppend(Chorus(r, n - 1), r);
    }
  }

  lemma {:induction false} ChorusMembers(r: Advice, n: nat)
    ensures forall x :: x in Chorus(r, n) ==> x == r
  {
    if n > 0 { ChorusMembers(r, n - 1); }
  }

  /** Without a verified news voice quality and agreement are zero. */
  lemma NoNewsQuality(rs: seq<Advice>)
    requires forall r :: r in rs ==> r.agent !in NEWS
    ensures QualityOf(rs, true) == Quality(false, 0.0, 0.0)
  {
    if Voters(rs) != [] && HasNews(Voters(rs)) {
      var i :| 0 <= i < |Voters(rs)| && Voters(rs)[i].agent in NEWS;
      VotersAreThere(rs, i);
      assert false;
    }
  }

  lemma NoNewsTrade(p: Thresholds, r: Advice)
    requires Admitted(p) && p.quality <= 0.0 && p.agreement <= 0.0
    requires Single(r).buy == 1.0 && Single(r).sell == 0.0 && Single(r).count == 1 && r.agent !in NEWS
    ensures Evaluate(p, Chorus(r, p.agents), ALL_PASS, true).Some?
    ensures Evaluate(p, Chorus(r, p.agents), ALL_PASS, true).value.final == BUY
    ensures forall x :: x in Chorus(r, p.agents) ==> x.agent !in NEWS
  {
    var rs := Chorus(r, p.agents);
    ChorusTally(r, p.agents);
    ChorusMembers(r, p.agents);
    NoNewsQuality(rs);
    var q := Quality(false, 0.0, 0.0);
    UnanimousBuys(p, q, Tallied(rs));
    AllPassFinishes(Synthesis(p, q, Tallied(rs)));
  }

  lemma UnanimousBuys(p: Thresholds, q: Quality, t: Tally)
    requires Admitted(p) && !q.blocked && q.score >= p.quality && q.agreement >= p.agreement
    requires t.count >= p.agents && t.buy == t.count as real && t.sell == 0.0
    ensures Synthesis(p, q, t).vote == BUY
  {
  }

  /** A trade requires a verified directional news voice exactly when the quality or the agreement
      threshold is positive: its absence only zeroes those two figures. */
  lemma NewsIff(p: Thresholds)
    requires Admitted(p)
    ensures NeedsNews(p) <==> p.quality > 0.0 || p.agreement > 0.0
  {
    if p.quality > 0.0 || p.agreement > 0.0 {
      forall rs: seq<Advice>, gs: seq<Gate>, current: bool
        | Evaluate(p, rs, gs, current).Some? && !Evaluate(p, rs, gs, current).value.final.WAIT?
        ensures exists r :: r in rs && Voting(r) && r.agent in NEWS
      {
        TradeIsBacked(p, rs, gs, current);
      }
    } else {
      assert Weight(CHART_BUY) == 1.0;
      NoNewsTrade(p, CHART_BUY);
    }
  }

  // ---------------------------------------------------------------------------------------
  // End-to-end, only voters matter, but a voter of no weight does

  lemma MeasuredPermutes(rs: seq<Advice>, us: seq<Advice>)
    requires multiset(rs) == multiset(us)
    ensures |rs| == |us| && HasNews(rs) == HasNews(us)
    ensures rs != [] ==> Measured(rs) == Measured(us)
  {
    assert |multiset(rs)| == |rs| && |multiset(us)| == |us|;
    SumPermutes(QualityRow, rs, us);
    SumPermutes(BuyStrength, rs, us);
    SumPermutes(SellStrength, rs, us);
    if HasNews(rs) { NewsPermutes(rs, us); }
    if HasNews(us) { NewsPermutes(us, rs); }
  }

  lemma NewsPermutes(rs: seq<Advice>, us: seq<Advice>)
    requires multiset(rs) == multiset(us) && HasNews(rs)
    ensures HasNews(us)
  {
    var i :| 0 <= i < |rs| && rs[i].agent in NEWS;
    assert rs[i] in multiset(us);
  }

  lemma {:induction false} VotersCarryTheTally(rs: seq<Advice>)
    ensures SameVotes(Tallied(rs), Tallied(Voters(rs)))
  {
    if rs != [] {
      var us, r := rs[..|rs| - 1], rs[|rs| - 1];
      VotersCarryTheTally(us);
      if Voting(r) { TalliedAppend(Voters(us), r); } else { assert Voters(us) + [] == Voters(us); }
    }
  }

  /** End to end, adding, removing, changing or reordering gate, adviser, WAIT and unverified
      recommendations, and reordering the others, changes neither scores nor intent. */
  lemma OnlyVotersMatter(p: Thresholds, rs: seq<Advice>, us: seq<Advice>, gs: seq<Gate>, current: bool)
    requires multiset(Voters(rs)) == multiset(Voters(us))
    requires Evaluate(p, rs, gs, current).Some?
    ensures Evaluate(p, us, gs, current).Some? && QualityOf(rs, current) == QualityOf(us, current)
    ensures SameOutcome(Evaluate(p, rs, gs, current).value, Evaluate(p, us, gs, current).value)
  {
    MeasuredPermutes(Voters(rs), Voters(us));
    VotersCarryTheTally(rs);
    VotersCarryTheTally(us);
    TalliedPermutes(Voters(rs), Voters(us));
    DecisionUsesVotes(p, QualityOf(rs, current), Tallied(rs), Tallied(us), GateMap(gs).value);
  }

  // Votes of no weight: ignored by the controller, yet they enter the quality measurement.

  /** A full vote for BUY. */
  predicate Full(r: Advice)
  {
    Counts(r) && r.vote.BUY? && Weight(r) == 1.0 && QualityRow(r) == 1.0
  }

  /** A vote of no weight that quality rates like this. */
  predicate Mute(m: Advice, row: real)
  {
    Voting(m) && !Counts(m) && Weight(m) == 0.0 && QualityRow(m) == row
  }

  /** A full chart vote, a full news vote, a news vote without confidence and a vote with nothing to say. */
  lemma Examples() returns (chart: Advice, news: Advice, mute: Advice, row: real, dull: Advice)
    ensures Full(chart) && chart.agent !in NEWS && Full(news) && news.agent in NEWS
    ensures Mute(mute, row) && mute.agent in NEWS && Mute(dull, 0.0)
  {
    chart, news := CHART_BUY, Recommendation("world_ai", BUY, 100.0, 100.0, 0.0, true);
    mute, row := Recommendation("world_ai", SELL, 0.0, 100.0, 0.0, true), 0.55;
    dull := Recommendation("technical_ai", SELL, 0.0, 0.0, 100.0, true);
  }

  /** n votes of one kind, then k of another. */
  function Mixed(r: Advice, n: nat, m: Advice, k: nat): seq<Advice>
  {
    if k == 0 then Chorus(r, n) else Mixed(r, n, m, k - 1) + [m]
  }

  lemma {:induction false} ChorusFacts(r: Advice, n: nat)
    requires Full(r)
    ensures var rs := Chorus(r, n);
            Voters(rs) == rs && Voices(rs) == rs && Sum(QualityRow, rs) == n as real
  {
    if n > 0 {
      var before := Chorus(r, n - 1);
      ChorusFacts(r, n - 1);
      AppendVoters(before, r);
      AppendVoices(before, r);
      SumAppend(QualityRow, before, r);
    }
  }

  /** What quality sums up over such a list. */
  function MixedTotal(n: nat, k: nat, row: real): real
  {
    if k == 0 then n as real else MixedTotal(n, k - 1, row) + row
  }

  lemma {:induction false} MixedTotalIs(n: nat, k: nat, row: real)
    ensures MixedTotal(n, k, row) == n as real + k as real * row
  {
    if k > 0 { MixedTotalIs(n, k - 1, row); }
  }

  /** The mute votes are among the voters but not among the voices, and this is what quality sums up. */
  predicate Mixture(rs: seq<Advice>, voices: seq<Advice>, total: real)
  {
    Voters(rs) == rs && Voices(rs) == voices && Sum(QualityRow, rs) == total
  }

  lemma OneMute(rs: seq<Advice>, voices: seq<Advice>, total: real, m: Advice, row: real)
    requires Mixture(rs, voices, total) && Mute(m, row)
    ensures Mixture(rs + [m], voices, total + row)
  {
    AppendVoters(rs, m);
    AppendVoices(rs, m);
    SumAppend(QualityRow, rs, m);
    assert Voices(rs) + [] == Voices(rs);
  }

  lemma {:induction false} MixedFacts(r: Advice, n: nat, m: Advice, k: nat, row: real)
    requires Full(r) && Mute(m, row)
    ensures Mixture(Mixed(r, n, m, k), Chorus(r, n), MixedTotal(n, k, row))
  {
    if k == 0 {
      ChorusFacts(r, n);
    } else {
      MixedFacts(r, n, m, k - 1, row);
      OneMute(Mixed(r, n, m, k - 1), Chorus(r, n), MixedTotal(n, k - 1, row), m, row);
    }
  }

  lemma {:induction false} MixedItems(r: Advice, n: nat, m: Advice, k: nat)
    ensures var rs := Mixed(r, n, m, k); |rs| == n + k && (n > 0 ==> r in rs) && (k > 0 ==> m in rs)
  {
    if k > 0 {
      MixedItems(r, n, m, k - 1);
    } else if n > 0 {
      MixedItems(r, n - 1, m, 0);
    }
  }

  lemma AppendVoices(rs: seq<Advice>, r: Advice)
    ensures Voices(rs + [r]) == Voices(rs) + (if Counts(r) then [r] else [])
  {
  }

  lemma MixedTally(r: Advice, n: nat, m: Advice, k: nat, row: real)
    requires Full(r) && Mute(m, row)
    ensures var t := Tallied(Mixed(r, n, m, k)); t.buy == n as real && t.sell == 0.0 && t.count == n
  {
    MixedFacts(r, n, m, k, row);
    ChorusFacts(r, n);
    ChorusTally(r, n);
    VoicesCarryTheTally(Mixed(r, n, m, k));
    VoicesCarryTheTally(Chorus(r, n));
  }

  /** Mean quality in percent. */
  function Mean(total: real, size: nat): real
    requires size > 0
  {
    Clamp(100.0 * total / size as real)
  }

  lemma OneSidedQuality(rs: seq<Advice>, total: real, n: nat)
    requires Voters(rs) == rs && rs != [] && (exists x :: x in rs && x.agent in NEWS) && n > 0
    requires Sum(QualityRow, rs) == total && Tallied(rs).buy == n as real && Tallied(rs).sell == 0.0
    ensures QualityOf(rs, true) == Quality(false, Mean(total, |rs|), 100.0)
  {
    var x :| x in rs && x.agent in NEWS;
    StrengthsAreScores(rs);
    AllAgree(n);
  }

  lemma AllAgree(n: nat)
    requires n > 0
    ensures Clamp(Agreement(n as real, 0.0)) == 100.0
  {
    QuotientAtLeast(100.0 * n as real, n as real, 100.0);
  }

  /** With all gates passing the evaluation ends like this. */
  predicate Ends(p: Thresholds, rs: seq<Advice>, v: Vote)
  {
    Evaluate(p, rs, ALL_PASS, true).Some? && Evaluate(p, rs, ALL_PASS, true).value.final == v
  }

  /** A unanimous list of full votes ends as its quality says. */
  lemma UnanimousEnds(p: Thresholds, rs: seq<Advice>, x: real, n: nat)
    requires Admitted(p) && n >= p.agents && QualityOf(rs, true) == Quality(false, x, 100.0)
    requires Tallied(rs).buy == n as real && Tallied(rs).sell == 0.0 && Tallied(rs).count == n
    ensures Ends(p, rs, if x >= p.quality then BUY else WAIT)
  {
    var q := Quality(false, x, 100.0);
    if x >= p.quality { UnanimousBuys(p, q, Tallied(rs)); }
    AllPassFinishes(Synthesis(p, q, Tallied(rs)));
  }

  function MixedMean(n: nat, k: nat, row: real): real
    requires n + k > 0
  {
    Mean(MixedTotal(n, k, row), n + k)
  }

  /** Everything about a mixture that its evaluation depends on. */
  lemma MixedSummary(r: Advice, n: nat, m: Advice, k: nat, row: real) returns (rs: seq<Advice>, total: real)
    requires Full(r) && Mute(m, row) && n > 0 && (r.agent in NEWS || (k > 0 && m.agent in NEWS))
    ensures rs == Mixed(r, n, m, k) && total == MixedTotal(n, k, row) && |rs| == n + k
    ensures Voters(rs) == rs && (exists x :: x in rs && x.agent in NEWS) && Sum(QualityRow, rs) == total
    ensures Tallied(rs).buy == n as real && Tallied(rs).sell == 0.0 && Tallied(rs).count == n
  {
    rs, total := Mixed(r, n, m, k), MixedTotal(n, k, row);
    MixedFacts(r, n, m, k, row);
    MixedTally(r, n, m, k, row);
    MixedItems(r, n, m, k);
    assert r in rs && (k > 0 ==> m in rs);
  }

  /** With a news voice on either side the mixture agrees fully, and ends as its mean quality says. */
  lemma MixedEnds(p: Thresholds, r: Advice, n: nat, m: Advice, k: nat, row: real)
    requires Admitted(p) && Full(r) && Mute(m, row) && n >= p.agents && (r.agent in NEWS || (k > 0 && m.agent in NEWS))
    ensures Ends(p, Mixed(r, n, m, k), if MixedMean(n, k, row) >= p.quality then BUY else WAIT)
  {
    var rs, total := MixedSummary(r, n, m, k, row);
    OneSidedQuality(rs, total, n);
    UnanimousEnds(p, rs, Mean(total, |rs|), n);
  }

  lemma MixedSameVoices(r: Advice, n: nat, m: Advice, k: nat, row: real)
    requires Full(r) && Mute(m, row)
    ensures Voices(Chorus(r, n)) == Voices(Mixed(r, n, m, k))
  {
    ChorusFacts(r, n);
    MixedFacts(r, n, m, k, row);
  }

  lemma WaitsWithoutNews(p: Thresholds, c: Advice, n: nat)
    requires (p.quality > 0.0 || p.agreement > 0.0) && c.agent !in NEWS
    ensures Ends(p, Chorus(c, n), WAIT)
  {
    ChorusMembers(c, n);
    NoNewsQuality(Chorus(c, n));
    AllPassFinishes(Synthesis(p, Quality(false, 0.0, 0.0), Tallied(Chorus(c, n))));
  }

  /** One mute vote of a news agent turns the WAIT of a long enough chorus without news into a BUY, under any
      thresholds that ask for news at all. */
  lemma MuteNewsUnlocksTrade(p: Thresholds, n: nat, c: Advice, m: Advice, row: real)
    requires Admitted(p) && (p.quality > 0.0 || p.agreement > 0.0) && n >= p.agents && MixedMean(n, 1, row) >= p.quality
    requires Full(c) && c.agent !in NEWS && Mute(m, row) && m.agent in NEWS
    ensures var rs, us := Chorus(c, n), Mixed(c, n, m, 1);
            Voices(rs) == Voices(us) && Ends(p, rs, WAIT) && Ends(p, us, BUY)
  {
    MixedSameVoices(c, n, m, 1, row);
    WaitsWithoutNews(p, c, n);
    MixedEnds(p, c, n, m, 1, row);
  }

  lemma FullMean(n: nat)
    requires n > 0
    ensures MixedMean(n, 0, 0.0) == 100.0
  {
    QuotientAtLeast(100.0 * n as real, n as real, 100.0);
  }

  /** Mute votes of no quality take a trade away: enough of them bring the mean below any positive threshold. */
  lemma DullVotesStopTrade(p: Thresholds, k: nat, c: Advice, m: Advice)
    requires Admitted(p) && MixedMean(p.agents, k, 0.0) < p.quality && Full(c) && c.agent in NEWS && Mute(m, 0.0)
    ensures var rs, us := Chorus(c, p.agents), Mixed(c, p.agents, m, k);
            Voices(rs) == Voices(us) && Ends(p, rs, BUY) && Ends(p, us, WAIT)
  {
    MixedSameVoices(c, p.agents, m, k, 0.0);
    MixedEnds(p, c, p.agents, m, 0, 0.0);
    MixedEnds(p, c, p.agents, m, k, 0.0);
    FullMean(p.agents);
  }

  /** Equal counted votes give the same outcome, and the same final intent, on this input. */
  ghost predicate SameEnd(p: Thresholds, rs: seq<Advice>, us: seq<Advice>, gs: seq<Gate>, current: bool)
  {
    multiset(Voices(rs)) == multiset(Voices(us)) && Evaluate(p, rs, gs, current).Some? ==>
      && Evaluate(p, us, gs, current).Some?
      && SameOutcome(Evaluate(p, rs, gs, current).value, Evaluate(p, us, gs, current).value)
  }

  ghost predicate SameIntent(p: Thresholds, rs: seq<Advice>, us: seq<Advice>, gs: seq<Gate>, current: bool)
  {
    && multiset(Voices(rs)) == multiset(Voices(us))
    && Evaluate(p, rs, gs, current).Some? && Evaluate(p, us, gs, current).Some? ==>
      Evaluate(p, rs, gs, current).value.final == Evaluate(p, us, gs, current).value.final
  }

  /** The whole outcome, and the final intent, of an evaluation follow from the counted votes alone. */
  ghost predicate VoicesDecide(p: Thresholds)
  {
    forall rs: seq<Advice>, us: seq<Advice>, gs: seq<Gate>, current: bool :: SameEnd(p, rs, us, gs, current)
  }

  ghost predicate VoicesDecideIntent(p: Thresholds)
  {
    forall rs: seq<Advice>, us: seq<Advice>, gs: seq<Gate>, current: bool :: SameIntent(p, rs, us, gs, current)
  }

  /** Without thresholds on quality and agreement the measurement cannot refuse. */
  lemma MeasurementIdle(p: Thresholds, q: Quality, z: Quality, t: Tally)
    requires p.quality == 0.0 && p.agreement == 0.0 && q.blocked == z.blocked
    requires q.score >= 0.0 && q.agreement >= 0.0 && z.score >= 0.0 && z.agreement >= 0.0
    ensures Synthesis(p, q, t) == Synthesis(p, z, t)
  {
  }

  lemma VoicesSuffice(p: Thresholds, rs: seq<Advice>, us: seq<Advice>, gs: seq<Gate>, current: bool)
    requires p.quality == 0.0 && p.agreement == 0.0
    requires multiset(Voices(rs)) == multiset(Voices(us)) && Evaluate(p, rs, gs, current).Some?
    ensures Evaluate(p, us, gs, current).Some?
    ensures SameOutcome(Evaluate(p, rs, gs, current).value, Evaluate(p, us, gs, current).value)
  {
    OnlyVoicesMatter(p, QualityOf(rs, current), rs, us, gs);
    MeasurementIdle(p, QualityOf(rs, current), QualityOf(us, current), Tallied(us));
  }

  lemma VoicesAgree(p: Thresholds, rs: seq<Advice>, us: seq<Advice>, gs: seq<Gate>, current: bool)
    requires p.quality == 0.0 && p.agreement == 0.0
    ensures SameEnd(p, rs, us, gs, current) && SameIntent(p, rs, us, gs, current)
  {
    if multiset(Voices(rs)) == multiset(Voices(us)) {
      if Evaluate(p, rs, gs, current).Some? { VoicesSuffice(p, rs, us, gs, current); }
    }
  }

  /** A finite number of dull votes, or of full ones, is enough. */
  lemma Enough(x: real, y: real) returns (k: nat)
    requires x > 0.0
    ensures x * k as real > y
  {
    k := if y >= 0.0 then (y / x).Floor + 1 else 0;
    QuotientAtLeast(y, x, k as real);
  }

  lemma EnoughDull(p: Thresholds) returns (k: nat)
    requires p.quality > 0.0 && p.agents > 0
    ensures MixedMean(p.agents, k, 0.0) < p.quality
  {
    var n := p.agents;
    k := Enough(p.quality, 100.0 * n as real);
    MixedTotalIs(n, k, 0.0);
    Product(p.quality, n as real);
    assert p.quality * (n + k) as real == p.quality * n as real + p.quality * k as real;
    QuotientAtLeast(100.0 * n as real, (n + k) as real, p.quality);
  }

  /** The same voices end in different intents. */
  lemma Apart(p: Thresholds, rs: seq<Advice>, us: seq<Advice>, v: Vote, w: Vote)
    requires Voices(rs) == Voices(us) && Ends(p, rs, v) && Ends(p, us, w) && v != w
    ensures !VoicesDecideIntent(p) && !VoicesDecide(p)
  {
    assert !SameIntent(p, rs, us, ALL_PASS, true) && !SameEnd(p, rs, us, ALL_PASS, true);
  }

  lemma SilentVotesInterfere(p: Thresholds, chart: Advice, news: Advice, mute: Advice, row: real, dull: Advice)
    requires Admitted(p) && (p.quality > 0.0 || p.agreement > 0.0)
    requires Full(chart) && chart.agent !in NEWS && Full(news) && news.agent in NEWS
    requires Mute(mute, row) && mute.agent in NEWS && Mute(dull, 0.0)
    ensures !VoicesDecideIntent(p) && !VoicesDecide(p)
  {
    if p.quality > 0.0 {
      var k := EnoughDull(p);
      DullVotesStopTrade(p, k, news, dull);
      Apart(p, Chorus(news, p.agents), Mixed(news, p.agents, dull, k), BUY, WAIT);
    } else {
      MuteNewsUnlocksTrade(p, p.agents, chart, mute, row);
      Apart(p, Chorus(chart, p.agents), Mixed(chart, p.agents, mute, 1), WAIT, BUY);
    }
  }

  /** End to end, equal counted votes give the same outcome on every input, and already the same final intent,
      if and only if neither quality nor agreement has a threshold. Otherwise votes of no weight decide. */
  lemma VoicesDecideIff(p: Thresholds)
    requires Admitted(p)
    ensures VoicesDecide(p) <==> p.quality == 0.0 && p.agreement == 0.0
    ensures VoicesDecideIntent(p) <==> p.quality == 0.0 && p.agreement == 0.0
  {
    if p.quality == 0.0 && p.agreement == 0.0 {
      forall rs: seq<Advice>, us: seq<Advice>, gs: seq<Gate>, current: bool
        ensures SameEnd(p, rs, us, gs, current) && SameIntent(p, rs, us, gs, current)
      {
        VoicesAgree(p, rs, us, gs, current);
      }
    } else {
      var chart, news, mute, row, dull := Examples();
      SilentVotesInterfere(p, chart, news, mute, row, dull);
    }
  }

  // ---------------------------------------------------------------------------------------
  // Symmetry end to end

  lemma {:induction false} MirrorVoters(rs: seq<Advice>)
    ensures Voters(Mirror(rs)) == Mirror(Voters(rs))
  {
    if rs != [] {
      var us, r := rs[..|rs| - 1], rs[|rs| - 1];
      MirrorVoters(us);
      assert Mirror(rs)[..|Mirror(rs)| - 1] == Mirror(us);
      if Voting(r) {
        assert (Voters(us) + [r])[..|Voters(us)|] == Voters(us);
      } else {
        assert Voters(us) + [] == Voters(us) && Voters(Mirror(us)) + [] == Voters(Mirror(us));
      }
    }
  }

  lemma {:induction false} MirrorSum(f: Advice -> real, g: Advice -> real, rs: seq<Advice>)
    requires forall r: Advice :: f(Mirrored(r)) == g(r)
    ensures Sum(f, Mirror(rs)) == Sum(g, rs)
  {
    if rs != [] {
      var us, r := rs[..|rs| - 1], rs[|rs| - 1];
      MirrorSum(f, g, us);
      SumAppend(f, Mirror(us), Mirrored(r));
    }
  }

  lemma {:induction false} MirrorItems(rs: seq<Advice>)
    ensures |Mirror(rs)| == |rs| && forall i :: 0 <= i < |rs| ==> Mirror(rs)[i] == Mirrored(rs[i])
  {
    if rs != [] { MirrorItems(rs[..|rs| - 1]); }
  }

  lemma MirrorStrength(r: Advice)
    ensures QualityRow(Mirrored(r)) == QualityRow(r)
    ensures BuyStrength(Mirrored(r)) == SellStrength(r) && SellStrength(Mirrored(r)) == BuyStrength(r)
  {
  }

  lemma MirrorMeasured(vs: seq<Advice>)
    requires vs != []
    ensures Mirror(vs) != [] && Measured(Mirror(vs)) == Measured(vs)
  {
    MirrorItems(vs);
    forall r: Advice { MirrorStrength(r); }
    MirrorSum(QualityRow, QualityRow, vs);
    MirrorSum(BuyStrength, SellStrength, vs);
    MirrorSum(SellStrength, BuyStrength, vs);
    MeasureSwaps(Sum(QualityRow, vs), |vs|, Sum(BuyStrength, vs), Sum(SellStrength, vs));
  }

  lemma MeasureSwaps(quality: real, n: nat, buy: real, sell: real)
    requires n > 0
    ensures Measure(quality, n, buy, sell) == Measure(quality, n, sell, buy)
  {
  }

  lemma MirrorNews(vs: seq<Advice>)
    ensures HasNews(Mirror(vs)) == HasNews(vs)
  {
    MirrorItems(vs);
    if HasNews(vs) {
      var i :| 0 <= i < |vs| && vs[i].agent in NEWS;
      assert Mirror(vs)[i].agent in NEWS;
    }
  }

  lemma MirrorQuality(rs: seq<Advice>, current: bool)
    ensures QualityOf(Mirror(rs), current) == QualityOf(rs, current)
  {
    MirrorVoters(rs);
    MirrorNews(Voters(rs));
    if Voters(rs) != [] { MirrorMeasured(Voters(rs)); }
  }

  ghost predicate SymmetricEndToEnd(p: Thresholds)
  {
    forall rs: seq<Advice>, gs: seq<Gate>, current: bool :: Evaluate(p, rs, gs, current).Some? ==>
      Evaluate(p, Mirror(rs), gs, current) == Some(MirrorDecision(Evaluate(p, rs, gs, current).value))
  }

  lemma TieAgreement(rs: seq<Advice>, current: bool)
    requires Tallied(rs).buy == Tallied(rs).sell
    ensures QualityOf(rs, current).agreement <= 50.0
  {
    StrengthsAreScores(rs);
    var b := Tallied(rs).buy;
    if b + b > 0.0 { QuotientAtLeast(100.0 * b, b + b, 50.0); }
  }

  /** Perfect quality from both voters, one of them a news agent. */
  predicate Perfect(b: Advice, s: Advice)
  {
    Voting(b) && Voting(s) && QualityRow(b) == 1.0 && QualityRow(s) == 1.0 && s.agent in NEWS
  }

  /** Voters only, n pairs of perfect quality. */
  predicate Pairs(rs: seq<Advice>, n: nat)
  {
    Voters(rs) == rs && |rs| == 2 * n && Sum(QualityRow, rs) == (2 * n) as real
  }

  lemma {:induction false} TieVoters(b: Advice, s: Advice, n: nat)
    requires Perfect(b, s)
    ensures Pairs(Tie(b, s, n), n) && (n > 0 ==> HasNews(Tie(b, s, n)))
  {
    if n > 0 {
      TieVoters(b, s, n - 1);
      TwoMore(Tie(b, s, n - 1), b, s, n - 1);
    }
  }

  lemma TwoMore(rs: seq<Advice>, b: Advice, s: Advice, n: nat)
    requires Pairs(rs, n) && Perfect(b, s)
    ensures Pairs(rs + [b] + [s], n + 1) && HasNews(rs + [b] + [s])
  {
    AppendVoters(rs, b);
    AppendVoters(rs + [b], s);
    SumAppend(QualityRow, rs, b);
    SumAppend(QualityRow, rs + [b], s);
    assert (rs + [b] + [s])[|rs| + 1] == s;
  }

  lemma AppendVoters(rs: seq<Advice>, r: Advice)
    requires Voting(r)
    ensures Voters(rs + [r]) == Voters(rs) + [r]
  {
  }

  lemma FullRows()
    ensures Perfect(FULL_BUY, FULL_SELL)
  {
  }

  lemma TieQuality(b: Advice, s: Advice, n: nat)
    requires n > 0 && Perfect(b, s) && Opposed(b, s)
    ensures QualityOf(Tie(b, s, n), true) == Quality(false, 100.0, 50.0)
  {
    TieVoters(b, s, n);
    TieTally(b, s, n);
    StrengthsAreScores(Tie(b, s, n));
    TieMeasure(2 * n, n as real);
  }

  lemma TieMeasure(n: nat, b: real)
    requires n > 0 && b > 0.0
    ensures Measure(n as real, n, b, b) == Quality(false, 100.0, 50.0)
  {
    var x := n as real;
    QuotientAtLeast(100.0 * x, x, 100.0);
    QuotientAtLeast(100.0 * b, b + b, 50.0);
  }

  /** End to end the measured agreement also guards against ties, so swapping BUY and SELL everywhere
      swaps the outcome for every input exactly when the margin is positive, or the score threshold
      exceeds one half, or the agreement threshold exceeds 50. */
  lemma EndToEndSymmetryIff(p: Thresholds)
    requires Admitted(p)
    ensures SymmetricEndToEnd(p) <==> NoTieWins(p) || p.agreement > 50.0
  {
    if NoTieWins(p) || p.agreement > 50.0 {
      forall rs: seq<Advice>, gs: seq<Gate>, current: bool | Evaluate(p, rs, gs, current).Some?
        ensures Evaluate(p, Mirror(rs), gs, current) == Some(MirrorDecision(Evaluate(p, rs, gs, current).value))
      {
        EvaluateMirrors(p, rs, gs, current);
      }
    } else {
      TieBreaksSymmetry(p);
    }
  }

  lemma EvaluateMirrors(p: Thresholds, rs: seq<Advice>, gs: seq<Gate>, current: bool)
    requires (NoTieWins(p) || p.agreement > 50.0) && Evaluate(p, rs, gs, current).Some?
    ensures Evaluate(p, Mirror(rs), gs, current) == Some(MirrorDecision(Evaluate(p, rs, gs, current).value))
  {
    var q := QualityOf(rs, current);
    MirrorQuality(rs, current);
    if Tallied(rs).buy == Tallied(rs).sell {
      if NoTieWins(p) { TieWaits(p, q, rs); } else { TieAgreement(rs, current); }
    }
    MirrorDecide(p, q, rs, gs);
  }

  lemma TieBreaksSymmetry(p: Thresholds)
    requires Admitted(p) && !NoTieWins(p) && p.agreement <= 50.0
    ensures !SymmetricEndToEnd(p)
  {
    var b, s := FULL_BUY, FULL_SELL;
    FullVotes();
    FullRows();
    TieQuality(b, s, p.agents);
    MirrorQuality(Tie(b, s, p.agents), true);
    TieSellsBothWays(p, Quality(false, 100.0, 50.0), b, s);
    assert Evaluate(p, Tie(b, s, p.agents), ALL_PASS, true).value.final == SELL;
  }
}
