/** What an opinion weighs, when consensus agrees on an action and how surely, and who can veto. */
module ConsensusLaws {
  import opened Common
  import opened C = Consensus
  import opened MetaAI
  import opened Rounding
  import opened Sums
  import opened Text

  // ---------------------------------------------------------------------------------------
  // The weight of an opinion

  /** An opinion weighs in proportion to its confidence and its evidence, full risk halves it, and without either
      reserve it weighs what its agent's reputation does. */
  lemma OpinionIsProportional(w: Weights, o: Opinion)
    ensures VoteWeight(w, o) == o.confidence * VoteWeight(w, o.(confidence := 1.0))
    ensures VoteWeight(w, o) == o.evidence * VoteWeight(w, o.(evidence := 1.0))
    ensures 2.0 * VoteWeight(w, o) == (2.0 - o.risk) * VoteWeight(w, o.(risk := 0.0))
    ensures VoteWeight(w, o.(confidence := 1.0, evidence := 1.0, risk := 0.0)) == w(o.agent)
  {
    var c, e, k, x := o.confidence, o.evidence, 1.0 - o.risk * 0.5, w(o.agent);
    assert x * (c * e * k) == c * (x * (1.0 * e * k));
    assert x * (c * e * k) == e * (x * (c * 1.0 * k));
    assert x * (c * e * k) == k * (x * (c * e * 1.0));
    assert 2.0 * k == 2.0 - o.risk;
  }

  /** The opinions that count are those that neither block nor lack evidence nor carry too much risk. */
  lemma ScoreIsSumOfEligible(l: Limits, w: Weights, o: Opinion, a: Action)
    ensures Part(l, w, a)(o)
            == if o.action != BLOCK && l.minEvidence <= o.evidence && o.risk <= l.maxRisk && o.action == a
               then VoteWeight(w, o) else 0.0
  {
  }

  // ---------------------------------------------------------------------------------------
  // Agreement

  /** The greatest score among the other actions, or zero. */
  ghost predicate RunnerUp(s: Scores, a: Action, x: real)
  {
    && x >= 0.0 && (forall b: Action :: b != a ==> At(s, b) <= x)
    && (x == 0.0 || exists b: Action :: b != a && At(s, b) == x)
  }

  lemma SecondIsRunnerUp(order: seq<Action>, s: Scores, a: Action)
    requires NonNegative(s) && Enumeration(order)
    ensures RunnerUp(s, a, Second(order, s, a))
  {
    SecondIsGreatest(order, s, a);
  }

  lemma ClipIsIdle(t: real, x: real, total: real)
    requires 0.0 <= x <= t <= total && total >= 0.000000001
    ensures Clip(0.7 * (t / total) + 0.3 * (t - x) / Max(total, 0.000000001)) * total == 0.7 * t + 0.3 * (t - x)
  {
    var y, z := t / total, 0.3 * (t - x) / total;
    assert y * total == t && z * total == 0.3 * (t - x);
    UnitQuotient(t, total);
    UnitQuotient(t - x, total);
    assert (0.7 * y + z) * total == 0.7 * t + 0.3 * (t - x);
    assert z == 0.3 * ((t - x) / total);
  }

  /** Agreement is the top score's share of all, confidence seven tenths of it and three tenths of the lead's. */
  predicate Figures(r: Result, t: real, x: real, total: real)
  {
    r.agreement * total == t && r.confidence * total == 0.7 * t + 0.3 * (t - x)
  }

  function Sureness(t: real, x: real, total: real): real
    requires total > 0.0
  {
    Clip(0.7 * (t / total) + 0.3 * (t - x) / Max(total, 0.000000001))
  }

  lemma SettleParts(l: Limits, order: seq<Action>, s: Scores, top: Action, x: real)
    requires order != [] && Total(s) > 0.0 && top == Top(order, s) && x == Second(order, s, top)
    ensures var r := Settle(l, order, s, Total(s));
            r.agreement == At(s, top) / Total(s) && r.confidence == Sureness(At(s, top), x, Total(s))
  {
  }

  lemma FiguresAre(r: Result, t: real, x: real, total: real)
    requires 0.0 <= x <= t <= total && total >= 0.000000001
    requires r.agreement == t / total && r.confidence == Sureness(t, x, total)
    ensures Figures(r, t, x, total)
  {
    ClipIsIdle(t, x, total);
  }

  lemma SettleAction(l: Limits, order: seq<Action>, s: Scores, top: Action)
    requires order != [] && Total(s) > 0.0 && top == Top(order, s)
    ensures var r := Settle(l, order, s, Total(s));
            if l.minAgreement * Total(s) <= At(s, top) then r.action == top && !r.blocked
            else r.action == WAIT && r.blocked
  {
    QuotientAtLeast(At(s, top), Total(s), l.minAgreement);
  }

  lemma RunnerUpBelow(s: Scores, top: Action, x: real)
    requires NonNegative(s) && (forall b: Action :: At(s, b) <= At(s, top)) && RunnerUp(s, top, x)
    ensures 0.0 <= x <= At(s, top) <= Total(s)
  {
  }

  /** With an eligible opinion and no veto: the action of the greatest score is the answer exactly when its share
      reaches the asked agreement, and WAIT otherwise. */
  lemma ConsensusIs(l: Limits, w: Weights, order: seq<Action>, os: seq<Opinion>, s: Scores)
    returns (r: Result, top: Action, x: real)
    requires Enumeration(order) && (forall a :: w(a) >= 0.0)
    requires s == AllScores(l, w, os) && !HasBlocker(l, os) && Total(s) >= 0.000000001
    ensures r == Consensus(l, w, order, os)
    ensures (forall b: Action :: At(s, b) <= At(s, top)) && RunnerUp(s, top, x)
    ensures Figures(r, At(s, top), x, Total(s))
    ensures if l.minAgreement * Total(s) <= At(s, top) then r.action == top && !r.blocked
            else r.action == WAIT && r.blocked
  {
    r, top := Consensus(l, w, order, os), Top(order, s);
    x := Second(order, s, top);
    ScoresRange(l, w, os);
    TopIsGreatest(order, s);
    SecondIsRunnerUp(order, s, top);
    RunnerUpBelow(s, top, x);
    assert r == Settle(l, order, s, Total(s)) by { NotEmpty(l, w, os); }
    SettleParts(l, order, s, top, x);
    FiguresAre(r, At(s, top), x, Total(s));
    SettleAction(l, order, s, top);
  }

  lemma NotEmpty(l: Limits, w: Weights, os: seq<Opinion>)
    requires Total(AllScores(l, w, os)) > 0.0
    ensures os != []
  {
  }

  /** The answers without a vote: a veto blocks with certainty; without opinions, or without an eligible one that
      weighs anything, the answer is to wait. */
  lemma NoVoteIs(l: Limits, w: Weights, order: seq<Action>, os: seq<Opinion>)
    requires Enumeration(order) && (forall a :: w(a) >= 0.0)
    ensures var r := Consensus(l, w, order, os);
            && (HasBlocker(l, os) ==> r.action == BLOCK && r.blocked && r.confidence == 1.0 && r.agreement == 0.0)
            && (!HasBlocker(l, os) && Total(AllScores(l, w, os)) == 0.0 ==>
                  r.action == WAIT && r.blocked && r.confidence == 0.0 && r.agreement == 0.0)
  {
    ScoresRange(l, w, os);
  }

  // ---------------------------------------------------------------------------------------
  // Who can veto

  /** Letters of one kind: the same up to case, or a blank, a hyphen and an underscore. */
  predicate Kindred(c: char, d: char)
  {
    || c == d || (c in {' ', '-', '_'} && d in {' ', '-', '_'})
    || ('A' <= c <= 'Z' && d as int == c as int + 32) || ('A' <= d <= 'Z' && c as int == d as int + 32)
  }

  lemma KeyAt(a: AgentId, i: nat)
    requires i < |Strip(a)|
    ensures |Key(a)| == |Strip(a)|
    ensures Key(a)[i] == if Strip(a)[i] in {' ', '-'} then '_' else LowerChar(Strip(a)[i])
  {
  }

  /** Two names have one key exactly when, without blank ends, they are as long and of one kind letter by letter. */
  lemma KeysAgreeIff(a: AgentId, b: AgentId)
    ensures Key(a) == Key(b)
            <==> |Strip(a)| == |Strip(b)| && forall i :: 0 <= i < |Strip(a)| ==> Kindred(Strip(a)[i], Strip(b)[i])
  {
    assert |Key(a)| == |Strip(a)| && |Key(b)| == |Strip(b)|;
    if |Strip(a)| == |Strip(b)| {
      forall i | 0 <= i < |Strip(a)| ensures Key(a)[i] == Key(b)[i] <==> Kindred(Strip(a)[i], Strip(b)[i]) {
        KeyAt(a, i);
        KeyAt(b, i);
      }
      if forall i :: 0 <= i < |Strip(a)| ==> Kindred(Strip(a)[i], Strip(b)[i]) {
        assert forall i :: 0 <= i < |Key(a)| ==> Key(a)[i] == Key(b)[i];
      }
      if Key(a) == Key(b) { assert forall i :: 0 <= i < |Strip(a)| ==> Key(a)[i] == Key(b)[i]; }
    }
  }

  /** The names with a veto, and a veto is heard when its owner blocks, lacks evidence or carries too much risk. */
  lemma VetoIff(l: Limits, o: Opinion)
    ensures Blocker(l, o)
            <==> (Key(o.agent) in {"risk", "risk_engine", "security", "security_guard", "policy_guard",
                "security_cyber",
                                   "security_cyber_ai"}
                  || "risk_engine_" <= Key(o.agent) || "security_guard_" <= Key(o.agent))
                 && (o.action == BLOCK || o.evidence < l.minEvidence || l.maxRisk < o.risk)
  {
  }
}
