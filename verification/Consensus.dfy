/** Reputation-weighted consensus of agent opinions, with an unconditional veto of risk and security. */
module Consensus {
  import opened Common
  import opened Rounding
  import opened Sums
  import opened MetaAI
  import opened Text

  datatype Action = BUY | SELL | HOLD | WAIT | BLOCK

  datatype RawOpinion = RawOpinion(agent: AgentId, action: Action, confidence: real, evidence: real, risk: real)

  /** The three figures are clipped to 0..1 when an opinion is built. */
  type Opinion = o: RawOpinion | 0.0 <= o.confidence <= 1.0 && 0.0 <= o.evidence <= 1.0 && 0.0 <= o.risk <= 1.0
    witness RawOpinion("", WAIT, 0.0, 0.0, 0.0)

  datatype Limits = Limits(minEvidence: real, maxRisk: real, minAgreement: real)

  /** The weight each agent's reputation gives it; see `BoardWeights`. */
  type Weights = AgentId -> real

  const VETO: set<AgentId> :=
    {"risk", "risk_engine", "security", "security_guard", "policy_guard", "security_cyber", "security_cyber_ai"}

  /** Names are compared without blank ends, in lower case, and with underscores for blanks and hyphens. */
  function Key(a: AgentId): string { Replaced(Replaced(Lower(Strip(a)), ' '), '-') }

  function Replaced(s: string, c: char): string
  {
    seq(|s|, i requires 0 <= i < |s| => if s[i] == c then '_' else s[i])
  }

  predicate HasVeto(a: AgentId)
  {
    var k := Key(a);
    k in VETO || "risk_engine_" <= k || "security_guard_" <= k
  }

  predicate Unsafe(l: Limits, o: Opinion) { o.action.BLOCK? || o.evidence < l.minEvidence || o.risk > l.maxRisk }

  predicate Blocker(l: Limits, o: Opinion) { HasVeto(o.agent) && Unsafe(l, o) }

  function VoteWeight(w: Weights, o: Opinion): real
  {
    w(o.agent) * (o.confidence * o.evidence * (1.0 - o.risk * 0.5))
  }

  /** What an opinion adds to the score of action a. */
  function Part(l: Limits, w: Weights, a: Action): Opinion -> real
  {
    (o: Opinion) => if !Unsafe(l, o) && o.action == a then VoteWeight(w, o) else 0.0
  }

  function Score(l: Limits, w: Weights, os: seq<Opinion>, a: Action): real { Sum(Part(l, w, a), os) }

  datatype Scores = Scores(buy: real, sell: real, hold: real, wait: real, block: real)

  function At(s: Scores, a: Action): real
  {
    match a case BUY => s.buy case SELL => s.sell case HOLD => s.hold case WAIT => s.wait case BLOCK => s.block
  }

  function AllScores(l: Limits, w: Weights, os: seq<Opinion>): Scores
  {
    Scores(Score(l, w, os, BUY), Score(l, w, os, SELL), Score(l, w, os, HOLD), Score(l, w, os, WAIT),
        Score(l, w, os, BLOCK))
  }

  function Total(s: Scores): real { s.buy + s.sell + s.hold + s.wait + s.block }

  predicate HasBlocker(l: Limits, os: seq<Opinion>) { exists i :: 0 <= i < |os| && Blocker(l, os[i]) }

  /** An enumeration of the action set; the program's set has no fixed order. */
  predicate Enumeration(order: seq<Action>)
  {
    |order| == 5 && (forall a: Action :: a in order) && forall i, j :: 0 <= i < j < 5 ==> order[i] != order[j]
  }

  /** The first action with the greatest score: what a stable descending sort puts first. */
  function Top(order: seq<Action>, s: Scores): Action
    requires order != []
  {
    var n := |order| - 1;
    if n == 0 then order[0]
    else
      var t := Top(order[..n], s);
      if At(s, order[n]) > At(s, t) then order[n] else t
  }

  /** The greatest score among the other actions: what the sort puts second. */
  function Second(order: seq<Action>, s: Scores, t: Action): real
  {
    if order == [] then 0.0
    else
      var rest := Second(order[..|order| - 1], s, t);
      var a := order[|order| - 1];
      if a != t then Max(rest, At(s, a)) else rest
  }

  datatype Why = NoOpinions | Vetoed | NoneEligible | Disagreement | Agreed

  datatype Result = Result(action: Action, confidence: real, agreement: real, blocked: bool, why: Why)

  function Settle(l: Limits, order: seq<Action>, s: Scores, total: real): Result
    requires order != [] && total > 0.0
  {
    var t := Top(order, s);
    var agreement := At(s, t) / total;
    var confidence := Clip(0.7 * agreement + 0.3 * (At(s, t) - Second(order, s, t)) / Max(total, 0.000000001));
    if agreement < l.minAgreement then Result(WAIT, confidence, agreement, true, Disagreement)
    else Result(t, confidence, agreement, false, Agreed)
  }

  function Consensus(l: Limits, w: Weights, order: seq<Action>, os: seq<Opinion>): Result
    requires Enumeration(order)
  {
    var s := AllScores(l, w, os);
    if os == [] then Result(WAIT, 0.0, 0.0, true, NoOpinions)
    else if HasBlocker(l, os) then Result(BLOCK, 1.0, 0.0, true, Vetoed)
    else if Total(s) <= 0.0 then Result(WAIT, 0.0, 0.0, true, NoneEligible)
    else Settle(l, order, s, Total(s))
  }

  function Bump(s: Scores, a: Action, x: real): Scores
  {
    match a
    case BUY => s.(buy := s.buy + x)
    case SELL => s.(sell := s.sell + x)
    case HOLD => s.(hold := s.hold + x)
    case WAIT => s.(wait := s.wait + x)
    case BLOCK => s.(block := s.block + x)
  }

  lemma ScoresAppend(l: Limits, w: Weights, os: seq<Opinion>, o: Opinion)
    ensures AllScores(l, w, os + [o]) ==
            if Unsafe(l, o) then AllScores(l, w, os) else Bump(AllScores(l, w, os), o.action, VoteWeight(w, o))
  {
    SumAppend(Part(l, w, BUY), os, o);
    SumAppend(Part(l, w, SELL), os, o);
    SumAppend(Part(l, w, HOLD), os, o);
    SumAppend(Part(l, w, WAIT), os, o);
    SumAppend(Part(l, w, BLOCK), os, o);
  }

  lemma BumpTotal(s: Scores, a: Action, x: real)
    ensures Total(Bump(s, a, x)) == Total(s) + x
    ensures forall b: Action :: At(Bump(s, a, x), b) == At(s, b) + (if a == b then x else 0.0)
  {
  }

  lemma BlockerAppend(l: Limits, os: seq<Opinion>, o: Opinion)
    ensures HasBlocker(l, os + [o]) <==> HasBlocker(l, os) || Blocker(l, o)
  {
    var us := os + [o];
    assert us[|os|] == o;
    if HasBlocker(l, os) {
      var i :| 0 <= i < |os| && Blocker(l, os[i]);
      assert us[i] == os[i];
    }
  }

  // ---------------------------------------------------------------------------------------
  // The loop over the opinions

  function BoardWeights(b: Board, r: Regime): Weights
    requires SoundBoard(b)
  {
    (a: AgentId) => Weight(Lookup(b, a), r)
  }

  /** Reputation weights are positive, so everything said of positive weights holds of them. */
  lemma BoardWeightsPositive(b: Board, r: Regime)
    requires SoundBoard(b)
    ensures forall a :: MIN_WEIGHT <= BoardWeights(b, r)(a) <= MAX_WEIGHT
  {
    forall a: AgentId ensures MIN_WEIGHT <= BoardWeights(b, r)(a) <= MAX_WEIGHT {
      UpperClampNeverFires(Lookup(b, a), r);
    }
  }

  /** The agents whose reputations are asked for: those with an eligible opinion, veto or not. */
  function Weighed(l: Limits, os: seq<Opinion>): set<AgentId> { set o | o in os && !Unsafe(l, o) :: o.agent }

  lemma WeighedAppend(l: Limits, os: seq<Opinion>, o: Opinion)
    ensures Weighed(l, os + [o]) == Weighed(l, os) + if Unsafe(l, o) then {} else {o.agent}
  {
    var all := os + [o];
    assert forall x :: x in all <==> x in os || x == o;
    if !Unsafe(l, o) { assert o in all; }
  }

  lemma SeatedOneMore(b: Board, agents: set<AgentId>, a: AgentId)
    ensures var s := Seated(b, agents); Seated(b, agents + {a}) == s[a := Lookup(s, a)] && Lookup(s, a) == Lookup(b, a)
  {
  }

  /** What the loop holds after some opinions. */
  ghost predicate Scanned(l: Limits, b: Board, r: Regime, os: seq<Opinion>, scores: Scores, total: real, blocked: bool,
                          seated: Board)
    requires SoundBoard(b)
  {
    && scores == AllScores(l, BoardWeights(b, r), os) && total == Total(scores) && blocked == HasBlocker(l, os)
    && seated == Seated(b, Weighed(l, os))
  }

  lemma ScanSkips(l: Limits, b: Board, r: Regime, os: seq<Opinion>, o: Opinion, scores: Scores, total: real,
                  blocked: bool, seated: Board)
    requires SoundBoard(b) && Scanned(l, b, r, os, scores, total, blocked, seated) && Unsafe(l, o)
    ensures Scanned(l, b, r, os + [o], scores, total, blocked || Blocker(l, o), seated)
  {
    ScoresAppend(l, BoardWeights(b, r), os, o);
    BlockerAppend(l, os, o);
    WeighedAppend(l, os, o);
  }

  lemma ScanWeighs(l: Limits, b: Board, r: Regime, os: seq<Opinion>, o: Opinion, scores: Scores, total: real,
                   blocked: bool, seated: Board, x: real)
    requires SoundBoard(b) && Scanned(l, b, r, os, scores, total, blocked, seated) && !Unsafe(l, o)
    requires x == VoteWeight(BoardWeights(b, r), o)
    ensures Scanned(l, b, r, os + [o], Bump(scores, o.action, x), total + x, blocked,
                seated[o.agent := Lookup(b, o.agent)])
  {
    ScoresAppend(l, BoardWeights(b, r), os, o);
    BumpTotal(scores, o.action, x);
    BlockerAppend(l, os, o);
    WeighedAppend(l, os, o);
    SeatedOneMore(b, Weighed(l, os), o.agent);
  }

  const ZERO := Scores(0.0, 0.0, 0.0, 0.0, 0.0)

  lemma ScanStarts(l: Limits, b: Board, r: Regime)
    requires SoundBoard(b)
    ensures Scanned(l, b, r, [], ZERO, 0.0, false, b)
  {
    assert Seated(b, Weighed(l, [])) == b;
  }

  lemma ScanNext(l: Limits, b: Board, r: Regime, os: seq<Opinion>, i: nat, scores: Scores, total: real, blocked: bool,
                 seated: Board)
    requires SoundBoard(b) && i < |os| && Scanned(l, b, r, os[..i] + [os[i]], scores, total, blocked, seated)
    ensures Scanned(l, b, r, os[..i + 1], scores, total, blocked, seated)
  {
    assert os[..i + 1] == os[..i] + [os[i]];
  }

  /** One eligible opinion: its agent's reputation, a fresh one if it has none, gives it its weight. */
  method Weigh(seated: Board, r: Regime, o: Opinion, ghost b: Board, ghost agents: set<AgentId>)
    returns (weight: real, rep: Reputation)
    requires SoundBoard(b) && seated == Seated(b, agents)
    ensures rep == Lookup(b, o.agent) && weight == VoteWeight(BoardWeights(b, r), o)
  {
    SeatedOneMore(b, agents, o.agent);
    rep := Lookup(seated, o.agent);
    weight := Weight(rep, r) * (o.confidence * o.evidence * (1.0 - o.risk * 0.5));
  }

  /** One opinion: a veto, no part in the decision, or a weighted vote. */
  method Count(l: Limits, r: Regime, o: Opinion, scores: Scores, total: real, blocked: bool, seated: Board,
               ghost b: Board,
               ghost os: seq<Opinion>)
    returns (scores': Scores, total': real, blocked': bool, seated': Board)
    requires SoundBoard(b) && Scanned(l, b, r, os, scores, total, blocked, seated)
    ensures Scanned(l, b, r, os + [o], scores', total', blocked', seated')
  {
    scores', total', blocked', seated' := scores, total, blocked, seated;
    if Unsafe(l, o) {
      ScanSkips(l, b, r, os, o, scores, total, blocked, seated);
      blocked' := blocked || HasVeto(o.agent);
    } else {
      var weight, rep := Weigh(seated, r, o, b, Weighed(l, os));
      ScanWeighs(l, b, r, os, o, scores, total, blocked, seated, weight);
      seated', scores', total' := seated[o.agent := rep], Bump(scores, o.action, weight), total + weight;
    }
  }

  /** The accumulating loop over the opinions. Asking for a reputation that is not there gives the agent a fresh
      one; the weights are those of before. */
  method Accumulate(l: Limits, b: Board, r: Regime, os: seq<Opinion>)
    returns (scores: Scores, total: real, blocked: bool, seated: Board)
    requires SoundBoard(b)
    ensures scores == AllScores(l, BoardWeights(b, r), os) && total == Total(scores) && blocked == HasBlocker(l, os)
    ensures seated == Seated(b, Weighed(l, os))
  {
    scores, total, blocked, seated := ZERO, 0.0, false, b;
    ScanStarts(l, b, r);
    for i := 0 to |os|
      invariant Scanned(l, b, r, os[..i], scores, total, blocked, seated)
    {
      scores, total, blocked, seated := Count(l, r, os[i], scores, total, blocked, seated, b, os[..i]);
      ScanNext(l, b, r, os, i, scores, total, blocked, seated);
    }
    assert os[..|os|] == os;
  }

  /** The decision, and the reputations with those that were asked for. */
  method DynamicConsensus(l: Limits, b: Board, regime: Regime, order: seq<Action>, os: seq<Opinion>)
    returns (r: Result, seated: Board)
    requires Enumeration(order) && SoundBoard(b)
    ensures r == Consensus(l, BoardWeights(b, regime), order, os)
    ensures seated == Seated(b, Weighed(l, os))
  {
    if os == [] {
      assert Seated(b, Weighed(l, [])) == b;
      return Result(WAIT, 0.0, 0.0, true, NoOpinions), b;
    }
    var scores, total, blocked;
    scores, total, blocked, seated := Accumulate(l, b, regime, os);
    if blocked { return Result(BLOCK, 1.0, 0.0, true, Vetoed), seated; }
    if total <= 0.0 { return Result(WAIT, 0.0, 0.0, true, NoneEligible), seated; }
    r := Settle(l, order, scores, total);
  }

  // ---------------------------------------------------------------------------------------
  // Scores

  predicate NonNegative(s: Scores) { s.buy >= 0.0 && s.sell >= 0.0 && s.hold >= 0.0 && s.wait >= 0.0 && s.block >= 0.0 }

  lemma VoteWeightNonNegative(w: Weights, o: Opinion)
    requires w(o.agent) >= 0.0
    ensures VoteWeight(w, o) >= 0.0
  {
    Product(o.confidence, o.evidence);
    Product(o.confidence * o.evidence, 1.0 - o.risk * 0.5);
    Product(w(o.agent), o.confidence * o.evidence * (1.0 - o.risk * 0.5));
  }

  /** Scores are never negative, and nothing ever votes BLOCK with weight. */
  lemma {:induction false} ScoresRange(l: Limits, w: Weights, os: seq<Opinion>)
    requires forall a :: w(a) >= 0.0
    ensures NonNegative(AllScores(l, w, os)) && AllScores(l, w, os).block == 0.0
  {
    if os != [] {
      var us, o := os[..|os| - 1], os[|os| - 1];
      ScoresRange(l, w, us);
      assert os == us + [o];
      ScoresAppend(l, w, us, o);
      VoteWeightNonNegative(w, o);
    }
  }

  lemma ScoresPermute(l: Limits, w: Weights, os: seq<Opinion>, us: seq<Opinion>)
    requires multiset(os) == multiset(us)
    ensures AllScores(l, w, os) == AllScores(l, w, us)
  {
    SumPermutes(Part(l, w, BUY), os, us);
    SumPermutes(Part(l, w, SELL), os, us);
    SumPermutes(Part(l, w, HOLD), os, us);
    SumPermutes(Part(l, w, WAIT), os, us);
    SumPermutes(Part(l, w, BLOCK), os, us);
  }

  lemma BlockersPermute(l: Limits, os: seq<Opinion>, us: seq<Opinion>)
    requires multiset(os) == multiset(us) && HasBlocker(l, os)
    ensures HasBlocker(l, us)
  {
    var i :| 0 <= i < |os| && Blocker(l, os[i]);
    assert os[i] in multiset(us);
  }

  // ---------------------------------------------------------------------------------------
  // Ranking

  lemma {:induction false} TopIsGreatest(order: seq<Action>, s: Scores)
    requires order != []
    ensures Top(order, s) in order && forall a :: a in order ==> At(s, a) <= At(s, Top(order, s))
  {
    var n := |order| - 1;
    if n > 0 {
      TopIsGreatest(order[..n], s);
      assert forall a :: a in order ==> a in order[..n] || a == order[n];
    }
  }

  lemma {:induction false} SecondIsGreatest(order: seq<Action>, s: Scores, t: Action)
    requires NonNegative(s)
    ensures Second(order, s, t) >= 0.0
    ensures forall a :: a in order && a != t ==> At(s, a) <= Second(order, s, t)
    ensures Second(order, s, t) == 0.0 || exists a :: a in order && a != t && Second(order, s, t) == At(s, a)
  {
    if order != [] {
      var rest, x := order[..|order| - 1], order[|order| - 1];
      SecondIsGreatest(rest, s, t);
      assert forall a :: a in order <==> a in rest || a == x;
    }
  }

  lemma SecondAgrees(o: seq<Action>, o': seq<Action>, s: Scores, t: Action)
    requires NonNegative(s) && Enumeration(o) && Enumeration(o')
    ensures Second(o, s, t) <= Second(o', s, t)
  {
    SecondIsGreatest(o, s, t);
    SecondIsGreatest(o', s, t);
  }

  /** Two tops have the same score, and the same runner-up score. */
  lemma RankingAgrees(o: seq<Action>, o': seq<Action>, s: Scores)
    requires NonNegative(s) && Enumeration(o) && Enumeration(o')
    ensures At(s, Top(o, s)) == At(s, Top(o', s))
    ensures Second(o, s, Top(o, s)) == Second(o', s, Top(o', s))
  {
    var t, t' := Top(o, s), Top(o', s);
    TopIsGreatest(o, s);
    TopIsGreatest(o', s);
    if t == t' {
      SecondAgrees(o, o', s, t);
      SecondAgrees(o', o, s, t);
    } else {
      RunnerUpTies(o, s, t, t');
      RunnerUpTies(o', s, t', t);
    }
  }

  lemma RunnerUpTies(o: seq<Action>, s: Scores, t: Action, u: Action)
    requires NonNegative(s) && Enumeration(o) && t != u && At(s, t) == At(s, u)
    requires forall a: Action :: At(s, a) <= At(s, t)
    ensures Second(o, s, t) == At(s, t)
  {
    SecondIsGreatest(o, s, t);
    assert At(s, u) <= Second(o, s, t);
  }

  lemma MajorityIsUnique(s: Scores, t: Action, u: Action)
    requires NonNegative(s) && 2.0 * At(s, t) > Total(s) && At(s, u) >= At(s, t)
    ensures t == u
  {
  }

  /** An agreement at or above a threshold over one half is a strict majority. */
  lemma AgreementIsMajority(l: Limits, s: Scores, t: Action)
    requires l.minAgreement > 0.5 && Total(s) > 0.0 && At(s, t) / Total(s) >= l.minAgreement
    ensures 2.0 * At(s, t) > Total(s)
  {
  }

  lemma SettleAgrees(l: Limits, o: seq<Action>, o': seq<Action>, s: Scores)
    requires NonNegative(s) && Total(s) > 0.0 && l.minAgreement > 0.5 && Enumeration(o) && Enumeration(o')
    ensures Settle(l, o, s, Total(s)) == Settle(l, o', s, Total(s))
  {
    RankingAgrees(o, o', s);
    var t, t' := Top(o, s), Top(o', s);
    if At(s, t) / Total(s) >= l.minAgreement {
      AgreementIsMajority(l, s, t);
      MajorityIsUnique(s, t, t');
    }
  }

  // ---------------------------------------------------------------------------------------
  // Main results

  /** Neither the order of the opinions nor the enumeration order of the action set matters. */
  lemma OrderIndependent(l: Limits, w: Weights, o: seq<Action>, o': seq<Action>, os: seq<Opinion>, us: seq<Opinion>)
    requires l.minAgreement > 0.5 && (forall a :: w(a) >= 0.0)
    requires Enumeration(o) && Enumeration(o') && multiset(os) == multiset(us)
    ensures Consensus(l, w, o, os) == Consensus(l, w, o', us)
  {
    assert |multiset(os)| == |os| && |multiset(us)| == |us|;
    ScoresPermute(l, w, os, us);
    ScoresRange(l, w, os);
    if HasBlocker(l, os) { BlockersPermute(l, os, us); }
    if HasBlocker(l, us) { BlockersPermute(l, us, os); }
    var s := AllScores(l, w, os);
    if Total(s) > 0.0 { SettleAgrees(l, o, o', s); }
  }

  ghost predicate OrderFree(l: Limits, w: Weights)
  {
    forall o: seq<Action>, o': seq<Action>, os: seq<Opinion>, us: seq<Opinion> ::
      Enumeration(o) && Enumeration(o') && multiset(os) == multiset(us) ==>
        Consensus(l, w, o, os) == Consensus(l, w, o', us)
  }

  /** Can any opinion be eligible at all? */
  predicate SomeEligible(l: Limits) { l.minEvidence <= 1.0 && l.maxRisk >= 0.0 }

  const SPLIT: seq<Opinion> := [RawOpinion("a", BUY, 1.0, 1.0, 0.0), RawOpinion("a", SELL, 1.0, 1.0, 0.0)]

  const BUY_FIRST: seq<Action> := [BUY, SELL, HOLD, WAIT, BLOCK]
  const SELL_FIRST: seq<Action> := [SELL, BUY, HOLD, WAIT, BLOCK]

  lemma Enumerations()
    ensures Enumeration(BUY_FIRST) && Enumeration(SELL_FIRST)
  {
    forall a: Action ensures a in BUY_FIRST && a in SELL_FIRST {
      match a
      case BUY => assert BUY_FIRST[0] == a && SELL_FIRST[1] == a;
      case SELL => assert BUY_FIRST[1] == a && SELL_FIRST[0] == a;
      case HOLD => assert BUY_FIRST[2] == a && SELL_FIRST[2] == a;
      case WAIT => assert BUY_FIRST[3] == a && SELL_FIRST[3] == a;
      case BLOCK => assert BUY_FIRST[4] == a && SELL_FIRST[4] == a;
    }
  }

  lemma TopOfTie(first: Action, other: Action, order: seq<Action>, s: Scores)
    requires order == [first, other, HOLD, WAIT, BLOCK] && At(s, first) == At(s, other) > 0.0
    requires s.hold == 0.0 && s.wait == 0.0 && s.block == 0.0
    ensures Top(order, s) == first
  {
    var o4, o3, o2, o1 := [first, other, HOLD, WAIT], [first, other, HOLD], [first, other], [first];
    assert order[..4] == o4 && o4[..3] == o3 && o3[..2] == o2 && o2[..1] == o1;
    assert Top(o1, s) == first;
    assert Top(o2, s) == first;
    assert Top(o3, s) == first;
    assert Top(o4, s) == first;
  }

  lemma SplitScores(l: Limits, w: Weights)
    requires SomeEligible(l)
    ensures AllScores(l, w, SPLIT) == Scores(w("a"), w("a"), 0.0, 0.0, 0.0) && !HasBlocker(l, SPLIT)
  {
    var b: Opinion, s: Opinion := SPLIT[0], SPLIT[1];
    assert SPLIT == [] + [b] + [s];
    ScoresAppend(l, w, [], b);
    ScoresAppend(l, w, [] + [b], s);
    assert !Unsafe(l, b) && !Unsafe(l, s);
    assert VoteWeight(w, b) == w("a") && VoteWeight(w, s) == w("a");
  }

  lemma SplitDepends(l: Limits, w: Weights, order: seq<Action>, first: Action, other: Action)
    requires SomeEligible(l) && l.minAgreement <= 0.5 && w("a") > 0.0
    requires order == [first, other, HOLD, WAIT, BLOCK] && Enumeration(order) && first in {BUY, SELL}
             && other in {BUY, SELL}
    ensures Consensus(l, w, order, SPLIT).action == first
  {
    SplitScores(l, w);
    var s := Scores(w("a"), w("a"), 0.0, 0.0, 0.0);
    TopOfTie(first, other, order, s);
    QuotientAtLeast(w("a"), Total(s), 0.5);
  }

  /** Consensus is independent of both orders exactly when the agreement threshold exceeds one half,
      or no opinion can be eligible: otherwise an even split is decided by the order of a set. */
  lemma OrderFreeIff(l: Limits, w: Weights)
    requires forall a :: w(a) > 0.0
    ensures OrderFree(l, w) <==> l.minAgreement > 0.5 || !SomeEligible(l)
  {
    if l.minAgreement > 0.5 {
      forall o: seq<Action>, o': seq<Action>, os: seq<Opinion>, us: seq<Opinion>
        | Enumeration(o) && Enumeration(o') && multiset(os) == multiset(us)
        ensures Consensus(l, w, o, os) == Consensus(l, w, o', us)
      {
        OrderIndependent(l, w, o, o', os, us);
      }
    } else if !SomeEligible(l) {
      forall o: seq<Action>, o': seq<Action>, os: seq<Opinion>, us: seq<Opinion>
        | Enumeration(o) && Enumeration(o') && multiset(os) == multiset(us)
        ensures Consensus(l, w, o, os) == Consensus(l, w, o', us)
      {
        NobodyEligible(l, w, o, o', os, us);
      }
    } else {
      Enumerations();
      SplitDepends(l, w, BUY_FIRST, BUY, SELL);
      SplitDepends(l, w, SELL_FIRST, SELL, BUY);
      assert multiset(SPLIT) == multiset(SPLIT);
      assert Consensus(l, w, BUY_FIRST, SPLIT) != Consensus(l, w, SELL_FIRST, SPLIT);
    }
  }

  lemma NobodyEligible(l: Limits, w: Weights, o: seq<Action>, o': seq<Action>, os: seq<Opinion>, us: seq<Opinion>)
    requires !SomeEligible(l) && Enumeration(o) && Enumeration(o') && multiset(os) == multiset(us)
    ensures Consensus(l, w, o, os) == Consensus(l, w, o', us)
  {
    assert |multiset(os)| == |os| && |multiset(us)| == |us|;
    ScoresPermute(l, w, os, us);
    NoScores(l, w, os);
    if HasBlocker(l, os) { BlockersPermute(l, os, us); }
    if HasBlocker(l, us) { BlockersPermute(l, us, os); }
  }

  lemma {:induction false} NoScores(l: Limits, w: Weights, os: seq<Opinion>)
    requires !SomeEligible(l)
    ensures AllScores(l, w, os) == Scores(0.0, 0.0, 0.0, 0.0, 0.0)
  {
    if os != [] {
      var us, o := os[..|os| - 1], os[|os| - 1];
      NoScores(l, w, us);
      assert os == us + [o];
      ScoresAppend(l, w, us, o);
    }
  }

  /** Blank ends, case, and blanks or hyphens for underscores make no difference to a veto. */
  lemma VetoByKey(a: AgentId)
    ensures Key(Key(a)) == Key(a) && (HasVeto(Key(a)) <==> HasVeto(a))
  {
    var k := Key(a);
    StripFacts(a);
    assert Stripped(k);
    StripFacts(k);
    assert forall i :: 0 <= i < |k| ==> k[i] != ' ' && k[i] != '-' && LowerChar(k[i]) == k[i];
  }

  /** An unblocked action holds a strict majority of the eligible weight. */
  lemma UnblockedIsMajority(l: Limits, w: Weights, order: seq<Action>, os: seq<Opinion>)
    requires l.minAgreement > 0.5 && (forall a :: w(a) >= 0.0) && Enumeration(order)
    requires !Consensus(l, w, order, os).blocked
    ensures var s, a := AllScores(l, w, os), Consensus(l, w, order, os).action;
            2.0 * At(s, a) > Total(s) && Consensus(l, w, order, os).agreement == At(s, a) / Total(s)
  {
    var s := AllScores(l, w, os);
    AgreementIsMajority(l, s, Top(order, s));
  }

  /** BLOCK is the answer exactly when some veto owner asks for it or is unsafe itself. */
  lemma BlockIffVeto(l: Limits, w: Weights, order: seq<Action>, os: seq<Opinion>)
    requires Enumeration(order) && (forall a :: w(a) >= 0.0)
    ensures Consensus(l, w, order, os).action == BLOCK <==> exists o :: o in os && Blocker(l, o)
    ensures Consensus(l, w, order, os).action == BLOCK ==> Consensus(l, w, order, os).blocked
  {
    if o: Opinion :| o in os && Blocker(l, o) {
      var i :| 0 <= i < |os| && os[i] == o;
      assert HasBlocker(l, os);
    }
    var s := AllScores(l, w, os);
    ScoresRange(l, w, os);
    if os != [] && !HasBlocker(l, os) && Total(s) > 0.0 {
      TopIsGreatest(order, s);
      assert At(s, BUY) <= At(s, Top(order, s)) && At(s, SELL) <= At(s, Top(order, s));
      assert At(s, HOLD) <= At(s, Top(order, s)) && At(s, WAIT) <= At(s, Top(order, s));
    }
  }
}
