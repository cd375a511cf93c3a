/** Bounded, immutable learning reputation: updates, rollbacks and what any run of them keeps. */
module LearningReputation {
  import opened Common
  import opened Rounding

  type Role = string
  type EvidenceId = string

  /** Scores carry twelve decimals. */
  const UNIT: real := 0.000000000001

  datatype Policy = Policy(maxScore: real, maxUpdate: real, minSamples: int)

  predicate Admitted(p: Policy) { 0.0 < p.maxUpdate <= p.maxScore && p.minSamples > 0 }

  datatype RoleState = RoleState(score: real, updates: nat)

  datatype Evidence = Evidence(id: EvidenceId, role: Role, delta: real, samples: int, accepted: bool)

  /** The role-sorted tuple with unique roles is a map from roles. */
  datatype Snapshot = Snapshot(id: string, states: map<Role, RoleState>, processed: seq<EvidenceId>)

  datatype Result = Ok(snapshot: Snapshot) | Refused

  /** First occurrences, in order. */
  function Dedup(ids: seq<EvidenceId>): seq<EvidenceId>
  {
    if ids == [] then []
    else
      var d, x := Dedup(ids[..|ids| - 1]), ids[|ids| - 1];
      if x in d then d else d + [x]
  }

  function Bounded(p: Policy, score: real): real { Max(-p.maxScore, Min(p.maxScore, score)) }

  function StateOf(s: Snapshot, r: Role): RoleState { if r in s.states then s.states[r] else RoleState(0.0, 0) }

  function Updated(p: Policy, s: Snapshot, e: Evidence): RoleState
  {
    RoleState(Round(Bounded(p, StateOf(s, e.role).score + e.delta), UNIT), StateOf(s, e.role).updates + 1)
  }

  function Apply(p: Policy, s: Snapshot, next: string, e: Evidence): Result
  {
    if e.id in s.processed then Ok(s)
    else if !e.accepted || e.samples < p.minSamples || Abs(e.delta) > p.maxUpdate then Refused
    else Ok(Snapshot(next, s.states[e.role := Updated(p, s, e)], s.processed + [e.id]))
  }

  function Rollback(current: Snapshot, target: Snapshot, next: string): Result
  {
    if current.id == target.id then Refused
    else Ok(Snapshot(next, target.states, Dedup(current.processed + target.processed)))
  }

  // ---------------------------------------------------------------------------------------
  // Runs

  datatype Op = Update(evidence: Evidence, next: string) | RollbackTo(target: nat, next: string)

  function Current(hs: seq<Snapshot>): Snapshot
    requires hs != []
  {
    hs[|hs| - 1]
  }

  /** An operation that is refused, or finds its evidence processed, leaves the history alone. */
  function Step(p: Policy, hs: seq<Snapshot>, op: Op): (r: seq<Snapshot>)
    requires hs != []
    ensures hs <= r
  {
    match op
    case Update(e, next) =>
      var x := Apply(p, Current(hs), next, e);
      if x.Refused? || e.id in Current(hs).processed then hs else hs + [x.snapshot]
    case RollbackTo(k, next) =>
      if k >= |hs| then hs
      else
        var x := Rollback(Current(hs), hs[k], next);
        if x.Refused? then hs else hs + [x.snapshot]
  }

  function Empty(id: string): Snapshot { Snapshot(id, map[], []) }

  function Run(p: Policy, id: string, ops: seq<Op>): (r: seq<Snapshot>)
    ensures r != []
  {
    if ops == [] then [Empty(id)] else Step(p, Run(p, id, ops[..|ops| - 1]), ops[|ops| - 1])
  }

  predicate TakesEffect(p: Policy, hs: seq<Snapshot>, op: Op)
    requires hs != []
  {
    op.Update? && Apply(p, Current(hs), op.next, op.evidence).Ok? && op.evidence.id !in Current(hs).processed
  }

  /** The evidence that changed a score, in the order it did. */
  function Effects(p: Policy, id: string, ops: seq<Op>): seq<EvidenceId>
  {
    if ops == [] then []
    else
      var before, op := ops[..|ops| - 1], ops[|ops| - 1];
      Effects(p, id, before) + (if TakesEffect(p, Run(p, id, before), op) then [op.evidence.id] else [])
  }

  lemma {:induction false} DedupFixes(ids: seq<EvidenceId>)
    requires Unique(ids)
    ensures Dedup(ids) == ids
  {
    if ids != [] {
      var before, x := ids[..|ids| - 1], ids[|ids| - 1];
      DedupFixes(before);
      assert forall i :: 0 <= i < |before| ==> before[i] == ids[i];
    }
  }

  /** Appending ids that are already there does not change the deduplicated list. */
  lemma {:induction false} DedupAbsorbs(ids: seq<EvidenceId>, more: seq<EvidenceId>)
    requires Unique(ids) && forall i :: 0 <= i < |more| ==> more[i] in ids
    ensures Dedup(ids + more) == ids
  {
    if more == [] {
      assert ids + more == ids;
      DedupFixes(ids);
    } else {
      var n := |more| - 1;
      DedupAbsorbs(ids, more[..n]);
      assert (ids + more)[..|ids + more| - 1] == ids + more[..n];
    }
  }

  predicate Sublist(a: seq<EvidenceId>, b: seq<EvidenceId>) { forall i :: 0 <= i < |a| ==> a[i] in b }

  /** Every earlier snapshot's processed list is contained in the current one. */
  predicate Nested(hs: seq<Snapshot>)
  {
    && hs != [] && Unique(Current(hs).processed)
    && forall k :: 0 <= k < |hs| ==> Sublist(hs[k].processed, Current(hs).processed)
  }

  lemma RollbackKeepsProcessed(hs: seq<Snapshot>, k: nat, next: string)
    requires Nested(hs) && k < |hs| && Rollback(Current(hs), hs[k], next).Ok?
    ensures Rollback(Current(hs), hs[k], next).snapshot == Snapshot(next, hs[k].states, Current(hs).processed)
  {
    assert Sublist(hs[k].processed, Current(hs).processed);
    DedupAbsorbs(Current(hs).processed, hs[k].processed);
  }

  lemma StepNested(p: Policy, hs: seq<Snapshot>, op: Op)
    requires Nested(hs)
    ensures Nested(Step(p, hs, op))
    ensures Current(Step(p, hs, op)).processed ==
            Current(hs).processed + (if TakesEffect(p, hs, op) then [op.evidence.id] else [])
  {
    var c, t := Current(hs), Step(p, hs, op);
    match op
    case Update(e, next) =>
      if TakesEffect(p, hs, op) {
        assert Current(t).processed == c.processed + [e.id];
        forall k | 0 <= k < |t| ensures Sublist(t[k].processed, Current(t).processed) {
          if k < |hs| { assert Sublist(hs[k].processed, c.processed); }
        }
      } else {
        assert c.processed + [] == c.processed;
      }
    case RollbackTo(k, next) =>
      assert c.processed + [] == c.processed;
      if k < |hs| && Rollback(c, hs[k], next).Ok? { RollbackKeepsProcessed(hs, k, next); }
  }

  /** In every run of updates and rollbacks the processed list is exactly the list of evidence that
      took effect, once each, in order: rolling back removes the effect but never makes its evidence
      effective again, and the processed set never shrinks. */
  lemma {:induction false} ProcessedIsEffects(p: Policy, id: string, ops: seq<Op>)
    ensures Nested(Run(p, id, ops))
    ensures Current(Run(p, id, ops)).processed == Effects(p, id, ops) && Unique(Effects(p, id, ops))
  {
    if ops != [] {
      ProcessedIsEffects(p, id, ops[..|ops| - 1]);
      StepNested(p, Run(p, id, ops[..|ops| - 1]), ops[|ops| - 1]);
    }
  }

  /** Rolling back restores every role exactly as it was in the target. */
  lemma RollbackRestores(p: Policy, id: string, ops: seq<Op>, k: nat, next: string)
    requires var hs := Run(p, id, ops); k < |hs| && hs[k].id != Current(hs).id
    ensures var hs := Run(p, id, ops);
            Step(p, hs, RollbackTo(k, next)) == hs + [Snapshot(next, hs[k].states, Effects(p, id, ops))]
  {
    ProcessedIsEffects(p, id, ops);
    RollbackKeepsProcessed(Run(p, id, ops), k, next);
  }

  // ---------------------------------------------------------------------------------------
  // The score bound

  predicate WithinScore(s: Snapshot, m: real) { forall r :: r in s.states ==> -m <= s.states[r].score <= m }

  lemma HalfEvenNegates(y: real)
    ensures HalfEven(-y) == -HalfEven(y)
  {
  }

  lemma RoundNegates(x: real, unit: real)
    requires unit > 0.0
    ensures Round(-x, unit) == -Round(x, unit)
  {
    assert (-x) / unit == -(x / unit);
    HalfEvenNegates(x / unit);
  }

  lemma RoundedBound(p: Policy, score: real)
    requires p.maxScore > 0.0 && Round(p.maxScore, UNIT) <= p.maxScore
    ensures -p.maxScore <= Round(Bounded(p, score), UNIT) <= p.maxScore
  {
    var m := p.maxScore;
    RoundMonotone(Bounded(p, score), m, UNIT);
    RoundMonotone(-m, Bounded(p, score), UNIT);
    RoundNegates(m, UNIT);
  }

  lemma StepWithin(p: Policy, hs: seq<Snapshot>, op: Op)
    requires hs != [] && p.maxScore > 0.0 && Round(p.maxScore, UNIT) <= p.maxScore
    requires forall k :: 0 <= k < |hs| ==> WithinScore(hs[k], p.maxScore)
    ensures forall k :: 0 <= k < |Step(p, hs, op)| ==> WithinScore(Step(p, hs, op)[k], p.maxScore)
  {
    if op.Update? {
      RoundedBound(p, StateOf(Current(hs), op.evidence.role).score + op.evidence.delta);
    }
  }

  lemma {:induction false} RunWithin(p: Policy, id: string, ops: seq<Op>)
    requires Admitted(p) && Round(p.maxScore, UNIT) <= p.maxScore
    ensures forall k :: 0 <= k < |Run(p, id, ops)| ==> WithinScore(Run(p, id, ops)[k], p.maxScore)
  {
    if ops != [] {
      RunWithin(p, id, ops[..|ops| - 1]);
      StepWithin(p, Run(p, id, ops[..|ops| - 1]), ops[|ops| - 1]);
    }
  }

  /** Do all runs under all policies with this score bound stay within it? */
  ghost predicate BoundHolds(m: real)
  {
    forall p: Policy, id: string, ops: seq<Op> :: Admitted(p) && p.maxScore == m ==>
        WithinScore(Current(Run(p, id, ops)), m)
  }

  /** Scores stay within the bound in every run exactly when rounding the bound itself to twelve
      decimals does not raise it; a bound exact at twelve decimals is one such. */
  lemma ScoreBoundIff(m: real)
    requires m > 0.0
    ensures BoundHolds(m) <==> Round(m, UNIT) <= m
    ensures Multiple(m, UNIT) ==> BoundHolds(m)
  {
    if Multiple(m, UNIT) { RoundFixes(m, UNIT); }
    if Round(m, UNIT) <= m {
      forall p: Policy, id: string, ops: seq<Op> | Admitted(p) && p.maxScore == m
        ensures WithinScore(Current(Run(p, id, ops)), m)
      {
        RunWithin(p, id, ops);
      }
    } else {
      Overshoots(m);
    }
  }

  lemma Overshoots(m: real)
    requires m > 0.0 && Round(m, UNIT) > m
    ensures !BoundHolds(m)
  {
    var p, e := Policy(m, m, 1), Evidence("e", "r", m, 1, true);
    var ops := [Update(e, "n")];
    assert ops[..0] == [];
    assert Run(p, "i", []) == [Empty("i")];
    var t := Current(Run(p, "i", ops));
    assert t.states["r"] == Updated(p, Empty("i"), e);
    assert t.states["r"].score == Round(m, UNIT);
    assert !WithinScore(t, m);
  }

  // ---------------------------------------------------------------------------------------
  // What an update does

  /** Evidence is taken exactly when it was taken before, or is accepted, has enough samples and is not oversized. */
  lemma AppliesIff(p: Policy, s: Snapshot, next: string, e: Evidence)
    ensures Apply(p, s, next, e).Ok?
            <==> e.id in s.processed
                 || (e.accepted && p.minSamples <= e.samples && -p.maxUpdate <= e.delta <= p.maxUpdate)
    ensures e.id in s.processed ==> Apply(p, s, next, e) == Ok(s)
  {
  }

  /** The score moves by the delta, up to the bound and to the twelfth decimal; the role counts one update more and
      every other role stays as it was. */
  lemma UpdateMoves(p: Policy, s: Snapshot, next: string, e: Evidence)
    requires Apply(p, s, next, e).Ok? && e.id !in s.processed && p.maxScore > 0.0
    ensures var t, x := Apply(p, s, next, e).snapshot, StateOf(s, e.role).score + e.delta;
            var y := StateOf(t, e.role).score;
            && Multiple(y, 0.000000000001)
            && y <= 0.0000000000005
                + (if x > p.maxScore then p.maxScore else if x < -p.maxScore then -p.maxScore else x)
            && y >= -0.0000000000005
                + (if x > p.maxScore then p.maxScore else if x < -p.maxScore then -p.maxScore else x)
            && StateOf(t, e.role).updates == StateOf(s, e.role).updates + 1
            && (forall r :: r != e.role ==> StateOf(t, r) == StateOf(s, r) && (r in t.states <==> r in s.states))
            && t.id == next && t.processed == s.processed + [e.id]
  {
    RoundNear(Bounded(p, StateOf(s, e.role).score + e.delta), UNIT);
  }

  /** The deltas of a role that took effect, in sum. */
  function Moved(p: Policy, id: string, ops: seq<Op>, r: Role): real
  {
    if ops == [] then 0.0
    else
      var before, op := ops[..|ops| - 1], ops[|ops| - 1];
      Moved(p, id, before, r)
      + (if TakesEffect(p, Run(p, id, before), op) && op.evidence.role == r then op.evidence.delta else 0.0)
  }

  /** Updates with deltas of twelve decimals, whose sum for the role never leaves the bound. */
  ghost predicate Unclipped(p: Policy, id: string, ops: seq<Op>, r: Role)
  {
    && (forall i :: 0 <= i < |ops| ==> ops[i].Update? && Multiple(ops[i].evidence.delta, UNIT))
    && forall n :: 0 <= n <= |ops| ==> -p.maxScore <= Moved(p, id, ops[..n], r) <= p.maxScore
  }

  lemma {:induction false} MovedIsFine(p: Policy, id: string, ops: seq<Op>, r: Role)
    requires Unclipped(p, id, ops, r)
    ensures Multiple(Moved(p, id, ops, r), UNIT)
  {
    if ops == [] {
      MultipleZero(UNIT);
    } else {
      var n := |ops| - 1;
      UnclippedPrefix(p, id, ops, r);
      MovedIsFine(p, id, ops[..n], r);
      MultipleSum(Moved(p, id, ops[..n], r), ops[n].evidence.delta, UNIT);
    }
  }

  lemma UnclippedPrefix(p: Policy, id: string, ops: seq<Op>, r: Role)
    requires Unclipped(p, id, ops, r) && ops != []
    ensures Unclipped(p, id, ops[..|ops| - 1], r)
    ensures -p.maxScore <= Moved(p, id, ops, r) <= p.maxScore
  {
    var us := ops[..|ops| - 1];
    assert ops[..|ops|] == ops;
    forall n | 0 <= n <= |us| ensures -p.maxScore <= Moved(p, id, us[..n], r) <= p.maxScore {
      assert us[..n] == ops[..n];
    }
  }

  /** While nothing is clipped, a score is the sum of the deltas that took effect, each once, and nothing is lost in
      rounding. */
  lemma {:induction false} ScoreIsSum(p: Policy, id: string, ops: seq<Op>, r: Role)
    requires Unclipped(p, id, ops, r)
    ensures StateOf(Current(Run(p, id, ops)), r).score == Moved(p, id, ops, r)
  {
    if ops != [] {
      var n := |ops| - 1;
      UnclippedPrefix(p, id, ops, r);
      ScoreIsSum(p, id, ops[..n], r);
      MovedIsFine(p, id, ops, r);
      RoundFixes(Moved(p, id, ops, r), UNIT);
    }
  }

  /** Rolling back is refused exactly for the snapshot that is current already. */
  lemma RollbackIff(current: Snapshot, target: Snapshot, next: string)
    ensures Rollback(current, target, next).Ok? <==> current.id != target.id
  {
  }

  function Count(p: Policy, id: string, ops: seq<Op>, r: Role): nat
  {
    if ops == [] then 0
    else
      var before, op := ops[..|ops| - 1], ops[|ops| - 1];
      Count(p, id, before, r) + (if TakesEffect(p, Run(p, id, before), op) && op.evidence.role == r then 1 else 0)
  }

  /** Without rollbacks a role's update count is the number of its evidence that took effect. */
  lemma {:induction false} UpdatesAreCounted(p: Policy, id: string, ops: seq<Op>, r: Role)
    requires forall i :: 0 <= i < |ops| ==> ops[i].Update?
    ensures StateOf(Current(Run(p, id, ops)), r).updates == Count(p, id, ops, r)
  {
    if ops != [] { UpdatesAreCounted(p, id, ops[..|ops| - 1], r); }
  }
}
