/** The controller that owns the trading direction: weighted votes of verified specialists, quality
    thresholds and mandatory gates. */
module Controller {
  import opened Common
  import opened Rounding
  import opened Sums

  datatype Vote = BUY | SELL | WAIT

  datatype Recommendation = Recommendation(agent: string, vote: Vote, confidence: real, evidence: real, risk: real,
                                           verified: bool)

  predicate IsPercent(x: real) { 0.0 <= x <= 100.0 }

  /** What constructing a recommendation checks. */
  predicate Checked(r: Recommendation)
  {
    r.agent != "" && IsPercent(r.confidence) && IsPercent(r.evidence) && IsPercent(r.risk)
  }

  type Advice = r: Recommendation | Checked(r) witness Recommendation("a", WAIT, 0.0, 0.0, 0.0, false)

  datatype Quality = Quality(blocked: bool, score: real, agreement: real)

  datatype Verdict = Pass | Hold | Block

  datatype Gate = Gate(name: string, verdict: Verdict, maxNotional: Option<real>)

  /** The controller's thresholds, as its constructor admits them. */
  datatype Thresholds = Thresholds(quality: real, agreement: real, agents: nat, score: real, margin: real)

  predicate Admitted(p: Thresholds)
  {
    IsPercent(p.quality) && IsPercent(p.agreement) && p.agents >= 1 && 0.0 <= p.score <= 1.0 && 0.0 <= p.margin <= 1.0
  }

  const DEFAULTS := Thresholds(55.0, 55.0, 2, 0.30, 0.12)

  const NON_DIRECTIONAL: set<string> := {"decision_quality", "portfolio_engine", "risk_engine", "security_guard"}

  const REQUIRED: set<string> := {"risk_engine", "portfolio_engine", "security_guard"}

  const NEWS: set<string> := {"news_intelligence", "crypto_ai", "finance_ai", "economy_ai", "security_ai", "world_ai"}

  // ---------------------------------------------------------------------------------------
  // Votes

  function Weight(r: Recommendation): real
  {
    r.confidence / 100.0 * (r.evidence / 100.0) * Max(1.0 - r.risk / 100.0, 0.0)
  }

  /** A verified BUY or SELL of an agent that is not a gate or an adviser. */
  predicate Voting(r: Recommendation)
  {
    r.agent !in NON_DIRECTIONAL && r.vote != WAIT && r.verified
  }

  /** A vote that the controller counts. */
  predicate Counts(r: Recommendation) { Voting(r) && Weight(r) > 0.0 }

  /** Everything the controller learns from a list of recommendations. */
  datatype Tally = Tally(buy: real, sell: real, count: nat, contributing: set<string>, ignored: set<string>)

  const NOTHING := Tally(0.0, 0.0, 0, {}, {})

  function Add(x: Tally, y: Tally): Tally
  {
    Tally(x.buy + y.buy, x.sell + y.sell, x.count + y.count, x.contributing + y.contributing, x.ignored + y.ignored)
  }

  function Single(r: Recommendation): Tally
  {
    if !Counts(r) then Tally(0.0, 0.0, 0, {}, {r.agent})
    else if r.vote.BUY? then Tally(Weight(r), 0.0, 1, {r.agent}, {})
    else Tally(0.0, Weight(r), 1, {r.agent}, {})
  }

  function Tallied(rs: seq<Advice>): Tally
  {
    if rs == [] then NOTHING else Add(Tallied(rs[..|rs| - 1]), Single(rs[|rs| - 1]))
  }

  /** The synthesis loop: split the recommendations, then sum each side. */
  method Synthesize(rs: seq<Advice>) returns (t: Tally)
    ensures t == Tallied(rs)
  {
    var ignored: set<string>, contributing: set<string> := {}, {};
    var directional: seq<Advice> := [];
    for i := 0 to |rs|
      invariant Tallied(rs[..i]).ignored == ignored && Tallied(rs[..i]).contributing == contributing
      invariant Tallied(rs[..i]).count == |directional|
      invariant Tallied(directional).buy == Tallied(rs[..i]).buy && Tallied(directional).sell == Tallied(rs[..i]).sell
      invariant forall k :: 0 <= k < |directional| ==> Counts(directional[k])
    {
      assert rs[..i + 1][..i] == rs[..i];
      if !Counts(rs[i]) {
        ignored := ignored + {rs[i].agent};
      } else {
        assert (directional + [rs[i]])[..|directional|] == directional;
        directional := directional + [rs[i]];
        contributing := contributing + {rs[i].agent};
      }
    }
    assert rs[..|rs|] == rs;
    var buy, sell := SumSides(directional);
    t := Tally(buy, sell, |directional|, contributing, ignored);
  }

  method SumSides(ds: seq<Advice>) returns (buy: real, sell: real)
    requires forall k :: 0 <= k < |ds| ==> Counts(ds[k])
    ensures buy == Tallied(ds).buy && sell == Tallied(ds).sell
  {
    buy, sell := 0.0, 0.0;
    for i := 0 to |ds|
      invariant buy == Tallied(ds[..i]).buy && sell == Tallied(ds[..i]).sell
    {
      assert ds[..i + 1][..i] == ds[..i];
      if ds[i].vote.BUY? { buy := buy + Weight(ds[i]); } else { sell := sell + Weight(ds[i]); }
    }
    assert ds[..|ds|] == ds;
  }

  // ---------------------------------------------------------------------------------------
  // The preliminary intent

  datatype Why = QualityBlocked | LowQuality | LowAgreement | FewAgents | NoStrength | WeakOrContradictory | Directed

  datatype Preliminary = Preliminary(vote: Vote, confidence: real, why: Why, tally: Tally)

  function Synthesis(p: Thresholds, q: Quality, t: Tally): Preliminary
  {
    if q.blocked then Preliminary(WAIT, 0.0, QualityBlocked, t)
    else if q.score < p.quality then Preliminary(WAIT, q.score, LowQuality, t)
    else if q.agreement < p.agreement then Preliminary(WAIT, q.agreement, LowAgreement, t)
    else if t.count < p.agents then Preliminary(WAIT, 0.0, FewAgents, t)
    else if t.buy + t.sell <= 0.0 then Preliminary(WAIT, 0.0, NoStrength, t)
    else Directional(p, t)
  }

  function Winner(t: Tally): real { Max(t.buy, t.sell) }

  function Total(t: Tally): real { t.buy + t.sell }

  function Share(t: Tally): real
    requires Total(t) > 0.0
  {
    100.0 * Winner(t) / Total(t)
  }

  predicate Decisive(p: Thresholds, t: Tally)
    requires Total(t) > 0.0
  {
    !(t.count == 0 || Winner(t) / t.count as real < p.score
      || (Winner(t) - Min(t.buy, t.sell)) / Total(t) < p.margin)
  }

  function Directional(p: Thresholds, t: Tally): Preliminary
    requires Total(t) > 0.0
  {
    var confidence := Min(100.0, Max(0.0, Share(t)));
    if !Decisive(p, t) then Preliminary(WAIT, confidence, WeakOrContradictory, t)
    else Preliminary(if t.buy > t.sell then BUY else SELL, confidence, Directed, t)
  }

  // ---------------------------------------------------------------------------------------
  // Gates

  datatype Reason = Missing | GateBlock | GateHold | NoNotional | NoDirection(why: Why) | Finalized

  datatype Decision = Decision(preliminary: Vote, final: Vote, confidence: real, blocked: bool, reason: Reason,
                               tally: Tally)

  /** The gates by name, or None when a name repeats. */
  function GateMap(gs: seq<Gate>): Option<map<string, Gate>>
  {
    if gs == [] then Some(map[])
    else
      var m := GateMap(gs[..|gs| - 1]);
      var g := gs[|gs| - 1];
      if m.None? || g.name in m.value then None else Some(m.value[g.name := g])
  }

  method CollectGates(gs: seq<Gate>) returns (m: Option<map<string, Gate>>)
    ensures m == GateMap(gs)
  {
    var result: map<string, Gate> := map[];
    for i := 0 to |gs|
      invariant GateMap(gs[..i]) == Some(result)
    {
      assert gs[..i + 1][..i] == gs[..i];
      if gs[i].name in result {
        GateMapPrefix(gs, i + 1);
        return None;
      }
      result := result[gs[i].name := gs[i]];
    }
    assert gs[..|gs|] == gs;
    m := Some(result);
  }

  predicate Distinct(gs: seq<Gate>) { forall i, j :: 0 <= i < j < |gs| ==> gs[i].name != gs[j].name }

  /** Collecting succeeds exactly on distinct names, and then maps each name to its own gate. */
  lemma {:induction false} GateMapMeaning(gs: seq<Gate>)
    ensures GateMap(gs).Some? <==> Distinct(gs)
    ensures GateMap(gs).Some? ==>
              forall i :: 0 <= i < |gs| ==> gs[i].name in GateMap(gs).value && GateMap(gs).value[gs[i].name] == gs[i]
    ensures GateMap(gs).Some? ==> forall n :: n in GateMap(gs).value ==> exists i :: 0 <= i < |gs| && gs[i].name == n
  {
    if gs != [] {
      var hs, g := gs[..|gs| - 1], gs[|gs| - 1];
      GateMapMeaning(hs);
      assert forall i :: 0 <= i < |hs| ==> hs[i] == gs[i];
      if GateMap(hs).Some? {
        if g.name in GateMap(hs).value {
          var i :| 0 <= i < |hs| && hs[i].name == g.name;
          assert gs[i].name == gs[|gs| - 1].name;
        }
      } else {
        var i, j :| 0 <= i < j < |hs| && hs[i].name == hs[j].name;
        assert gs[i].name == gs[j].name;
      }
    }
  }

  lemma {:induction false} GateMapPrefix(gs: seq<Gate>, n: nat)
    requires n <= |gs| && GateMap(gs[..n]).None?
    ensures GateMap(gs).None?
    decreases |gs| - n
  {
    if n < |gs| {
      assert gs[..n + 1][..n] == gs[..n];
      GateMapPrefix(gs, n + 1);
    } else {
      assert gs[..n] == gs;
    }
  }

  predicate AllPass(m: map<string, Gate>)
  {
    forall n :: n in m ==> m[n].verdict.Pass?
  }

  predicate HasBlock(m: map<string, Gate>) { exists n :: n in m && m[n].verdict.Block? }

  function Finish(pre: Preliminary, m: map<string, Gate>): Decision
  {
    var t := pre.tally;
    if !(REQUIRED <= m.Keys) then Decision(pre.vote, WAIT, pre.confidence, true, Missing, t)
    else if HasBlock(m) then Decision(pre.vote, WAIT, pre.confidence, true, GateBlock, t)
    else if !AllPass(m) then Decision(pre.vote, WAIT, pre.confidence, false, GateHold, t)
    else
      assert "portfolio_engine" in m;
      var cap := m["portfolio_engine"].maxNotional;
      if cap.Some? && cap.value <= 0.0 then Decision(pre.vote, WAIT, pre.confidence, false, NoNotional, t)
      else if pre.vote.WAIT? then Decision(WAIT, WAIT, pre.confidence, false, NoDirection(pre.why), t)
      else Decision(pre.vote, pre.vote, pre.confidence, false, Finalized, t)
  }

  function Decide(p: Thresholds, q: Quality, rs: seq<Advice>, gs: seq<Gate>): Option<Decision>
  {
    var m := GateMap(gs);
    if m.None? then None else Some(Finish(Synthesis(p, q, Tallied(rs)), m.value))
  }

  // ---------------------------------------------------------------------------------------
  // Order and silent voices do not matter

  /** The recommendations the controller counts, in order. */
  function Voices(rs: seq<Advice>): seq<Advice>
  {
    if rs == [] then []
    else Voices(rs[..|rs| - 1]) + (if Counts(rs[|rs| - 1]) then [rs[|rs| - 1]] else [])
  }

  lemma TalliedAppend(rs: seq<Advice>, r: Advice)
    ensures Tallied(rs + [r]) == Add(Tallied(rs), Single(r))
  {
  }

  lemma {:induction false} TalliedRemove(rs: seq<Advice>, i: nat)
    requires i < |rs|
    ensures Tallied(rs) == Add(Tallied(rs[..i] + rs[i + 1..]), Single(rs[i]))
  {
    var n := |rs| - 1;
    if i == n {
      assert rs[..i] + rs[i + 1..] == rs[..n];
    } else {
      var us := rs[..n];
      TalliedRemove(us, i);
      RemoveEarly(rs, i);
      TalliedAppend(us[..i] + us[i + 1..], rs[n]);
      AddSwap(Tallied(us[..i] + us[i + 1..]), Single(rs[i]), Single(rs[n]));
    }
  }

  lemma AddSwap(x: Tally, y: Tally, z: Tally)
    ensures Add(Add(x, y), z) == Add(Add(x, z), y)
  {
  }

  lemma {:induction false} TalliedPermutes(rs: seq<Advice>, us: seq<Advice>)
    requires multiset(rs) == multiset(us)
    ensures Tallied(rs) == Tallied(us)
  {
    if rs == [] {
      assert |multiset(us)| == 0;
    } else {
      var i := PermutationStep(rs, us);
      TalliedPermutes(rs[..|rs| - 1], us[..i] + us[i + 1..]);
      TalliedRemove(us, i);
    }
  }

  /** Everything but the trace of ignored agents. */
  predicate SameVotes(x: Tally, y: Tally)
  {
    x.buy == y.buy && x.sell == y.sell && x.count == y.count && x.contributing == y.contributing
  }

  lemma {:induction false} VoicesCarryTheTally(rs: seq<Advice>)
    ensures SameVotes(Tallied(rs), Tallied(Voices(rs)))
  {
    if rs != [] {
      var us, r := rs[..|rs| - 1], rs[|rs| - 1];
      VoicesCarryTheTally(us);
      if Counts(r) { TalliedAppend(Voices(us), r); } else { assert Voices(us) + [] == Voices(us); }
    }
  }

  predicate SameOutcome(x: Decision, y: Decision)
  {
    && x.preliminary == y.preliminary && x.final == y.final && x.confidence == y.confidence
    && x.blocked == y.blocked && x.reason == y.reason && SameVotes(x.tally, y.tally)
  }

  /** The decision is a function of the multiset of counted votes: reordering, and adding, removing or
      changing any recommendation of a gate or adviser, any WAIT, any unverified one and any of no
      weight, changes neither scores nor intent. */
  lemma OnlyVoicesMatter(p: Thresholds, q: Quality, rs: seq<Advice>, us: seq<Advice>, gs: seq<Gate>)
    requires multiset(Voices(rs)) == multiset(Voices(us))
    requires Decide(p, q, rs, gs).Some?
    ensures Decide(p, q, us, gs).Some?
    ensures SameOutcome(Decide(p, q, rs, gs).value, Decide(p, q, us, gs).value)
  {
    VoicesCarryTheTally(rs);
    VoicesCarryTheTally(us);
    TalliedPermutes(Voices(rs), Voices(us));
    DecisionUsesVotes(p, q, Tallied(rs), Tallied(us), GateMap(gs).value);
  }

  lemma DecisionUsesVotes(p: Thresholds, q: Quality, x: Tally, y: Tally, m: map<string, Gate>)
    requires SameVotes(x, y)
    ensures SameOutcome(Finish(Synthesis(p, q, x), m), Finish(Synthesis(p, q, y), m))
  {
    SynthesisUsesVotes(p, q, x, y);
  }

  lemma SynthesisUsesVotes(p: Thresholds, q: Quality, x: Tally, y: Tally)
    requires SameVotes(x, y)
    ensures Synthesis(p, q, y) == Synthesis(p, q, x).(tally := y)
  {
  }

  /** Permuting the whole list changes nothing at all, the ignored trace included. */
  lemma OrderIsIrrelevant(p: Thresholds, q: Quality, rs: seq<Advice>, us: seq<Advice>, gs: seq<Gate>)
    requires multiset(rs) == multiset(us)
    ensures Decide(p, q, rs, gs) == Decide(p, q, us, gs)
  {
    TalliedPermutes(rs, us);
  }

  // ---------------------------------------------------------------------------------------
  // BUY and SELL are interchangeable

  function Opposite(v: Vote): Vote { match v case BUY => SELL case SELL => BUY case WAIT => WAIT }

  function Mirrored(r: Advice): Advice { r.(vote := Opposite(r.vote)) }

  function Mirror(rs: seq<Advice>): seq<Advice>
  {
    if rs == [] then [] else Mirror(rs[..|rs| - 1]) + [Mirrored(rs[|rs| - 1])]
  }

  function MirrorTally(t: Tally): Tally { t.(buy := t.sell, sell := t.buy) }

  function MirrorPreliminary(x: Preliminary): Preliminary
  {
    x.(vote := Opposite(x.vote), tally := MirrorTally(x.tally))
  }

  function MirrorDecision(d: Decision): Decision
  {
    d.(preliminary := Opposite(d.preliminary), final := Opposite(d.final), tally := MirrorTally(d.tally))
  }

  lemma {:induction false} MirrorTallied(rs: seq<Advice>)
    ensures Tallied(Mirror(rs)) == MirrorTally(Tallied(rs))
  {
    if rs != [] {
      var us, r := rs[..|rs| - 1], rs[|rs| - 1];
      MirrorTallied(us);
      TalliedAppend(Mirror(us), Mirrored(r));
      MirrorSingle(r);
    }
  }

  lemma MirrorSingle(r: Advice)
    ensures Single(Mirrored(r)) == MirrorTally(Single(r))
  {
  }

  lemma WeightRange(r: Advice)
    ensures 0.0 <= Weight(r) <= 1.0
  {
    var c, e, k := r.confidence / 100.0, r.evidence / 100.0, Max(1.0 - r.risk / 100.0, 0.0);
    UnitProduct(c, e);
    UnitProduct(c * e, k);
  }

  lemma {:induction false} TallyRange(rs: seq<Advice>)
    ensures var t := Tallied(rs); t.buy >= 0.0 && t.sell >= 0.0 && t.buy + t.sell <= t.count as real
    ensures var t := Tallied(rs); t.count > 0 ==> t.buy + t.sell > 0.0
  {
    if rs != [] {
      TallyRange(rs[..|rs| - 1]);
      WeightRange(rs[|rs| - 1]);
    }
  }

  /** A tie cannot be decisive under these thresholds. */
  predicate NoTieWins(p: Thresholds) { p.margin > 0.0 || p.score > 0.5 }

  lemma TieIsNotDecisive(p: Thresholds, t: Tally)
    requires NoTieWins(p) && t.buy == t.sell && Total(t) > 0.0 && Total(t) <= t.count as real
    ensures !Decisive(p, t)
  {
  }

  lemma MirrorSynthesis(p: Thresholds, q: Quality, t: Tally)
    requires t.buy == t.sell ==> Synthesis(p, q, t).vote == WAIT
    ensures Synthesis(p, q, MirrorTally(t)) == MirrorPreliminary(Synthesis(p, q, t))
  {
  }

  ghost predicate Symmetric(p: Thresholds)
  {
    forall q: Quality, rs: seq<Advice>, gs: seq<Gate> :: Decide(p, q, rs, gs).Some? ==>
      Decide(p, q, Mirror(rs), gs) == Some(MirrorDecision(Decide(p, q, rs, gs).value))
  }

  lemma MirrorDecide(p: Thresholds, q: Quality, rs: seq<Advice>, gs: seq<Gate>)
    requires Tallied(rs).buy == Tallied(rs).sell ==> Synthesis(p, q, Tallied(rs)).vote == WAIT
    requires Decide(p, q, rs, gs).Some?
    ensures Decide(p, q, Mirror(rs), gs) == Some(MirrorDecision(Decide(p, q, rs, gs).value))
  {
    var t := Tallied(rs);
    MirrorTallied(rs);
    MirrorSynthesis(p, q, t);
    MirrorFinish(Synthesis(p, q, t), GateMap(gs).value);
  }

  lemma TieWaits(p: Thresholds, q: Quality, rs: seq<Advice>)
    requires NoTieWins(p) && Tallied(rs).buy == Tallied(rs).sell
    ensures Synthesis(p, q, Tallied(rs)).vote == WAIT
  {
    TallyRange(rs);
    if Total(Tallied(rs)) > 0.0 { TieIsNotDecisive(p, Tallied(rs)); }
  }

  lemma MirrorFinish(x: Preliminary, m: map<string, Gate>)
    ensures Finish(MirrorPreliminary(x), m) == MirrorDecision(Finish(x, m))
  {
  }

  // A tie of n full-strength votes on each side.

  const FULL_BUY: Advice := Recommendation("news_intelligence", BUY, 100.0, 100.0, 0.0, true)
  const FULL_SELL: Advice := Recommendation("crypto_ai", SELL, 100.0, 100.0, 0.0, true)

  function Tie(b: Advice, s: Advice, n: nat): seq<Advice>
  {
    if n == 0 then [] else Tie(b, s, n - 1) + [b] + [s]
  }

  /** Unit votes on opposite sides. */
  predicate Opposed(b: Advice, s: Advice)
  {
    && Single(b).buy == 1.0 && Single(b).sell == 0.0 && Single(b).count == 1
    && Single(s).buy == 0.0 && Single(s).sell == 1.0 && Single(s).count == 1
  }

  lemma FullVotes()
    ensures Opposed(FULL_BUY, FULL_SELL)
  {
  }

  lemma {:induction false} TieTally(b: Advice, s: Advice, n: nat)
    requires Opposed(b, s)
    ensures Level(Tallied(Tie(b, s, n)), n)
  {
    if n > 0 {
      TieTally(b, s, n - 1);
      TieMore(Tie(b, s, n - 1), b, s, n - 1);
    }
  }

  predicate Level(t: Tally, n: nat) { t.buy == n as real && t.sell == n as real && t.count == 2 * n }

  lemma TieMore(rs: seq<Advice>, b: Advice, s: Advice, n: nat)
    requires Opposed(b, s) && Level(Tallied(rs), n)
    ensures Level(Tallied(rs + [b] + [s]), n + 1)
  {
    AppendTwo(rs, b, s);
  }

  lemma AppendTwo(rs: seq<Advice>, x: Advice, y: Advice)
    ensures Tallied(rs + [x] + [y]) == Add(Add(Tallied(rs), Single(x)), Single(y))
  {
  }

  const ALL_PASS: seq<Gate> :=
    [Gate("risk_engine", Pass, None), Gate("portfolio_engine", Pass, None), Gate("security_guard", Pass, None)]

  lemma AllPassFinishes(pre: Preliminary)
    ensures GateMap(ALL_PASS).Some? && Finish(pre, GateMap(ALL_PASS).value).final == pre.vote
  {
    GateMapMeaning(ALL_PASS);
    var m := GateMap(ALL_PASS).value;
    assert ALL_PASS[0].name in m && ALL_PASS[1].name in m && ALL_PASS[2].name in m;
    forall n | n in m ensures m[n].verdict.Pass? {
      var i :| 0 <= i < |ALL_PASS| && ALL_PASS[i].name == n;
      assert m[ALL_PASS[i].name] == ALL_PASS[i];
    }
    assert REQUIRED <= m.Keys;
    assert m["portfolio_engine"] == ALL_PASS[1];
  }

  lemma TieSells(p: Thresholds, q: Quality, t: Tally)
    requires !q.blocked && q.score >= p.quality && q.agreement >= p.agreement
    requires Admitted(p) && p.margin == 0.0 && p.score <= 0.5
    requires t.count == 2 * p.agents && t.buy == p.agents as real && t.sell == p.agents as real
    ensures Synthesis(p, q, t).vote == SELL
  {
    var n := t.count as real;
    QuotientAtLeast(Winner(t), n, p.score);
    HalfOf(p.score, n);
    assert (Winner(t) - Min(t.buy, t.sell)) / Total(t) == 0.0;
  }

  lemma HalfOf(x: real, n: real)
    requires x <= 0.5 && n >= 0.0
    ensures x * n <= n / 2.0
  {
  }

  /** Swapping BUY and SELL in every recommendation swaps the decision, for every input, exactly when
      the margin threshold is positive or the score threshold exceeds one half: otherwise an exact tie
      of full-strength votes is resolved to SELL either way round. */
  lemma SymmetryIff(p: Thresholds)
    requires Admitted(p)
    ensures Symmetric(p) <==> NoTieWins(p)
  {
    if NoTieWins(p) {
      forall q: Quality, rs: seq<Advice>, gs: seq<Gate> | Decide(p, q, rs, gs).Some?
        ensures Decide(p, q, Mirror(rs), gs) == Some(MirrorDecision(Decide(p, q, rs, gs).value))
      {
        if Tallied(rs).buy == Tallied(rs).sell { TieWaits(p, q, rs); }
        MirrorDecide(p, q, rs, gs);
      }
    } else {
      FullVotes();
      TieSellsBothWays(p, Quality(false, 100.0, 100.0), FULL_BUY, FULL_SELL);
    }
  }

  /** A tie is resolved to SELL, and so is its mirror image. */
  lemma TieSellsBothWays(p: Thresholds, q: Quality, b: Advice, s: Advice)
    requires Admitted(p) && !NoTieWins(p) && Opposed(b, s)
    requires !q.blocked && q.score >= p.quality && q.agreement >= p.agreement
    ensures var rs := Tie(b, s, p.agents);
            && Decide(p, q, rs, ALL_PASS).Some? && Decide(p, q, rs, ALL_PASS).value.final == SELL
            && Decide(p, q, Mirror(rs), ALL_PASS).Some? && Decide(p, q, Mirror(rs), ALL_PASS).value.final == SELL
  {
    var rs := Tie(b, s, p.agents);
    var t := Tallied(rs);
    TieTally(b, s, p.agents);
    MirrorTallied(rs);
    TieSells(p, q, t);
    TieSells(p, q, MirrorTally(t));
    AllPassFinishes(Synthesis(p, q, t));
    AllPassFinishes(Synthesis(p, q, MirrorTally(t)));
  }

  // ---------------------------------------------------------------------------------------
  // Gates only ever take a trade away

  predicate NoBetter(g: Gate, h: Gate)
  {
    && (g.verdict.Pass? ==> h.verdict.Pass?)
    && (h.maxNotional.Some? && h.maxNotional.value <= 0.0 ==> g.maxNotional.Some? && g.maxNotional.value <= 0.0)
  }

  /** `worse` may lose required gates, gain others, and tighten any of them. */
  predicate Worse(worse: map<string, Gate>, m: map<string, Gate>)
  {
    && (forall n :: n in worse && n in REQUIRED ==> n in m && NoBetter(worse[n], m[n]))
    && (forall n :: n in m && n !in REQUIRED ==> n in worse && NoBetter(worse[n], m[n]))
  }

  /** Worsening gates never creates a trade, and never turns one around. */
  lemma WorseGatesNeverTrade(pre: Preliminary, worse: map<string, Gate>, m: map<string, Gate>)
    requires Worse(worse, m) && !Finish(pre, worse).final.WAIT?
    ensures Finish(pre, m) == Finish(pre, worse)
  {
    assert REQUIRED <= m.Keys;
    assert AllPass(m) by {
      forall n | n in m ensures m[n].verdict.Pass? {
        assert n in worse && worse[n].verdict.Pass?;
      }
    }
    assert "portfolio_engine" in REQUIRED;
  }

  /** A trade is final exactly when synthesis found a direction, every required gate is present, every
      gate passes and the portfolio allows some notional; the direction is the synthesised one. */
  lemma FinalIff(pre: Preliminary, m: map<string, Gate>)
    ensures !Finish(pre, m).final.WAIT? <==>
            && !pre.vote.WAIT? && REQUIRED <= m.Keys && AllPass(m)
            && (m["portfolio_engine"].maxNotional.Some? ==> m["portfolio_engine"].maxNotional.value > 0.0)
    ensures Finish(pre, m).final in {WAIT, pre.vote} && Finish(pre, m).confidence == pre.confidence
  {
  }
}
