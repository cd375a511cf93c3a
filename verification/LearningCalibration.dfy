/** Calibration accumulators per role, fed idempotently by evidence id. */
module LearningCalibration {
  import opened Common
  import opened Sums

  type Role = string
  type EvidenceId = string

  /** `outcome` is None for an abstention. */
  datatype RawObservation = RawObservation(id: EvidenceId, role: Role, confidence: real, outcome: Option<bool>,
                                           samples: int, accepted: bool)

  type Observation = o: RawObservation | 0.0 <= o.confidence <= 1.0 witness RawObservation("", "", 0.0, None, 0, false)

  datatype RoleCalibration = RoleCalibration(count: nat, abstentions: nat, confidence: real, outcome: real, error: real)

  /** The role-sorted tuple with unique roles is a map from roles. */
  datatype Snapshot = Snapshot(states: map<Role, RoleCalibration>, processed: seq<EvidenceId>)

  const FRESH := RoleCalibration(0, 0, 0.0, 0.0, 0.0)
  const EMPTY := Snapshot(map[], [])

  function Truth(b: bool): real { if b then 1.0 else 0.0 }

  function StateOf(s: Snapshot, r: Role): RoleCalibration { if r in s.states then s.states[r] else FRESH }

  function Added(c: RoleCalibration, o: Observation): RoleCalibration
  {
    match o.outcome
    case None => c.(abstentions := c.abstentions + 1)
    case Some(b) =>
      RoleCalibration(c.count + 1, c.abstentions, c.confidence + o.confidence, c.outcome + Truth(b),
                      c.error + Abs(o.confidence - Truth(b)))
  }

  predicate Admissible(min: int, o: Observation) { o.accepted && o.samples >= min }

  /** None where the observation is refused. */
  function Apply(min: int, s: Snapshot, o: Observation): Option<Snapshot>
  {
    if o.id in s.processed then Some(s)
    else if !Admissible(min, o) then None
    else Some(Snapshot(s.states[o.role := Added(StateOf(s, o.role), o)], s.processed + [o.id]))
  }

  /** A run; a refused observation leaves the snapshot alone. */
  function Run(min: int, os: seq<Observation>): Snapshot
  {
    if os == [] then EMPTY
    else
      var s := Run(min, os[..|os| - 1]);
      var t := Apply(min, s, os[|os| - 1]);
      if t.Some? then t.value else s
  }

  // ---------------------------------------------------------------------------------------
  // Bounds

  predicate Sound(c: RoleCalibration) { Abs(c.confidence - c.outcome) <= c.error <= c.count as real }

  lemma AddedSound(c: RoleCalibration, o: Observation)
    requires Sound(c)
    ensures Sound(Added(c, o))
    ensures o.outcome.None? ==> Added(c, o) == c.(abstentions := c.abstentions + 1)
  {
  }

  /** In every reachable snapshot and role, |sum of confidence - sum of outcomes| is at most the summed
      absolute error, which is at most the number of observations. */
  lemma {:induction false} RunSound(min: int, os: seq<Observation>, r: Role)
    ensures Sound(StateOf(Run(min, os), r))
  {
    if os != [] {
      var us, o := os[..|os| - 1], os[|os| - 1];
      RunSound(min, us, r);
      AddedSound(StateOf(Run(min, us), r), o);
    }
  }

  // ---------------------------------------------------------------------------------------
  // Order and repetition

  /** The observations that took effect, in order. */
  function Effective(min: int, os: seq<Observation>): seq<Observation>
  {
    if os == [] then []
    else
      var us, o := os[..|os| - 1], os[|os| - 1];
      Effective(min, us) + (if Admissible(min, o) && o.id !in Run(min, us).processed then [o] else [])
  }

  function Ids(os: seq<Observation>): seq<EvidenceId> { seq(|os|, i requires 0 <= i < |os| => os[i].id) }

  lemma {:induction false} ProcessedIsEffective(min: int, os: seq<Observation>)
    ensures Run(min, os).processed == Ids(Effective(min, os))
  {
    if os != [] {
      var us, o := os[..|os| - 1], os[|os| - 1];
      ProcessedIsEffective(min, us);
      assert Ids(Effective(min, us) + [o]) == Ids(Effective(min, us)) + [o.id];
      assert Effective(min, us) + [] == Effective(min, us);
    }
  }

  // The accumulators of a role as sums over the effective observations.

  function Scored(r: Role): Observation -> real
  {
    (o: Observation) => if o.role == r && o.outcome.Some? then 1.0 else 0.0
  }

  function Abstained(r: Role): Observation -> real
  {
    (o: Observation) => if o.role == r && o.outcome.None? then 1.0 else 0.0
  }

  function Confidence(r: Role): Observation -> real
  {
    (o: Observation) => if o.role == r && o.outcome.Some? then o.confidence else 0.0
  }

  function Outcome(r: Role): Observation -> real
  {
    (o: Observation) => if o.role == r && o.outcome == Some(true) then 1.0 else 0.0
  }

  function Error(r: Role): Observation -> real
  {
    (o: Observation) =>
      if o.role != r || o.outcome.None? then 0.0
      else if o.outcome.value then 1.0 - o.confidence else o.confidence
  }

  ghost predicate Accumulates(c: RoleCalibration, r: Role, es: seq<Observation>)
  {
    && c.count as real == Sum(Scored(r), es) && c.abstentions as real == Sum(Abstained(r), es)
    && c.confidence == Sum(Confidence(r), es) && c.outcome == Sum(Outcome(r), es) && c.error == Sum(Error(r), es)
  }

  lemma AccumulatesAppend(c: RoleCalibration, r: Role, es: seq<Observation>, o: Observation)
    requires Accumulates(c, r, es)
    ensures Accumulates(if o.role == r then Added(c, o) else c, r, es + [o])
  {
  }

  lemma {:induction false} RunAccumulates(min: int, os: seq<Observation>, r: Role)
    ensures Accumulates(StateOf(Run(min, os), r), r, Effective(min, os))
    ensures r in Run(min, os).states <==> exists o :: o in Effective(min, os) && o.role == r
  {
    if os != [] {
      var us, o := os[..|os| - 1], os[|os| - 1];
      RunAccumulates(min, us, r);
      var es := Effective(min, us);
      if Admissible(min, o) && o.id !in Run(min, us).processed {
        AccumulatesAppend(StateOf(Run(min, us), r), r, es, o);
        assert forall x :: x in es + [o] <==> x in es || x == o;
      } else {
        assert es + [] == es;
      }
    }
  }

  /** An evidence id names one observation. */
  predicate Consistent(os: seq<Observation>)
  {
    forall i, j :: 0 <= i < |os| && 0 <= j < |os| && os[i].id == os[j].id ==> os[i] == os[j]
  }

  lemma {:induction false} EffectiveIsDistinct(min: int, os: seq<Observation>)
    ensures Unique(Effective(min, os))
  {
    if os != [] {
      var us, o := os[..|os| - 1], os[|os| - 1];
      EffectiveIsDistinct(min, us);
      ProcessedIsEffective(min, us);
      var es := Effective(min, us);
      if Admissible(min, o) && o.id !in Ids(es) {
        forall i, j | 0 <= i < j < |es + [o]| ensures (es + [o])[i] != (es + [o])[j] {
          if j == |es| { assert Ids(es)[i] == es[i].id; }
        }
      } else {
        assert es + [] == es;
      }
    }
  }

  /** With consistent ids, the effective observations are the admissible ones, whatever the order. */
  lemma {:induction false} EffectiveMembers(min: int, os: seq<Observation>)
    requires Consistent(os)
    ensures forall o :: o in Effective(min, os) <==> o in os && Admissible(min, o)
  {
    if os != [] {
      var us, o := os[..|os| - 1], os[|os| - 1];
      EffectiveMembers(min, us);
      ProcessedIsEffective(min, us);
      var es := Effective(min, us);
      assert forall x :: x in os <==> x in us || x == o;
      if o.id in Ids(es) {
        var i :| 0 <= i < |es| && Ids(es)[i] == o.id;
        assert es[i] in us;
        var j :| 0 <= j < |us| && us[j] == es[i];
        assert os[j].id == os[|os| - 1].id;
        assert es[i] == o;
      } else if Admissible(min, o) {
        assert forall x :: x in es + [o] <==> x in es || x == o;
      }
    }
  }

  /** Two lists without repetition and with the same members are permutations of each other. */
  lemma {:induction false} SameMembersPermute(a: seq<Observation>, b: seq<Observation>)
    requires Unique(a) && Unique(b) && forall o :: o in a <==> o in b
    ensures multiset(a) == multiset(b)
  {
    DistinctCounts(a);
    DistinctCounts(b);
  }

  lemma {:induction false} DistinctCounts(a: seq<Observation>)
    requires Unique(a)
    ensures forall o :: multiset(a)[o] == (if o in a then 1 else 0)
  {
    if a != [] {
      var b, x := a[..|a| - 1], a[|a| - 1];
      DistinctCounts(b);
      assert a == b + [x];
      assert forall i :: 0 <= i < |b| ==> b[i] == a[i];
    }
  }

  lemma RoleAgrees(min: int, os: seq<Observation>, us: seq<Observation>, r: Role)
    requires multiset(Effective(min, os)) == multiset(Effective(min, us))
    ensures StateOf(Run(min, os), r) == StateOf(Run(min, us), r)
  {
    var a, b := Effective(min, os), Effective(min, us);
    RunAccumulates(min, os, r);
    RunAccumulates(min, us, r);
    SumPermutes(Scored(r), a, b);
    SumPermutes(Abstained(r), a, b);
    SumPermutes(Confidence(r), a, b);
    SumPermutes(Outcome(r), a, b);
    SumPermutes(Error(r), a, b);
  }

  lemma RolePresent(min: int, os: seq<Observation>, us: seq<Observation>, r: Role)
    requires r in Run(min, os).states && forall o :: o in Effective(min, os) <==> o in Effective(min, us)
    ensures r in Run(min, us).states
  {
    RunAccumulates(min, os, r);
    RunAccumulates(min, us, r);
  }

  lemma ConsistentCarries(os: seq<Observation>, us: seq<Observation>)
    requires Consistent(os) && forall o :: o in us ==> o in os
    ensures Consistent(us)
  {
    forall i, j | 0 <= i < |us| && 0 <= j < |us| && us[i].id == us[j].id ensures us[i] == us[j] {
      assert us[i] in os && us[j] in os;
    }
  }

  /** Any order of the same observations, with any repetitions, gives the same role states. */
  lemma OrderAndRepetitionIrrelevant(min: int, os: seq<Observation>, us: seq<Observation>)
    requires Consistent(os) && forall o :: o in os <==> o in us
    ensures Run(min, os).states == Run(min, us).states
  {
    var a, b := Effective(min, os), Effective(min, us);
    ConsistentCarries(os, us);
    EffectiveMembers(min, os);
    EffectiveMembers(min, us);
    assert forall o :: o in a <==> o in b;
    assert multiset(a) == multiset(b) by {
      EffectiveIsDistinct(min, os);
      EffectiveIsDistinct(min, us);
      SameMembersPermute(a, b);
    }
    StatesAgree(min, os, us);
  }

  lemma StatesAgree(min: int, os: seq<Observation>, us: seq<Observation>)
    requires multiset(Effective(min, os)) == multiset(Effective(min, us))
    requires forall o :: o in Effective(min, os) <==> o in Effective(min, us)
    ensures Run(min, os).states == Run(min, us).states
  {
    var s, t := Run(min, os), Run(min, us);
    forall r | r in s.states ensures r in t.states { RolePresent(min, os, us, r); }
    forall r | r in t.states ensures r in s.states { RolePresent(min, us, os, r); }
    forall r | r in s.states ensures s.states[r] == t.states[r] { RoleAgrees(min, os, us, r); }
  }

  /** An admissible observation with this id comes before. */
  predicate Earlier(min: int, os: seq<Observation>, id: EvidenceId)
  {
    exists i :: 0 <= i < |os| && os[i].id == id && Admissible(min, os[i])
  }

  /** For each evidence id its first admissible observation, in order. */
  function Firsts(min: int, os: seq<Observation>): seq<Observation>
  {
    if os == [] then []
    else
      var us, o := os[..|os| - 1], os[|os| - 1];
      Firsts(min, us) + (if Admissible(min, o) && !Earlier(min, us, o.id) then [o] else [])
  }

  lemma {:induction false} ProcessedIff(min: int, os: seq<Observation>, id: EvidenceId)
    ensures id in Run(min, os).processed <==> Earlier(min, os, id)
  {
    if os != [] {
      var us, o := os[..|os| - 1], os[|os| - 1];
      ProcessedIff(min, us, id);
      ProcessedIff(min, us, o.id);
      EarlierAppend(min, us, o, id);
      assert us + [o] == os;
    }
  }

  lemma EarlierAppend(min: int, us: seq<Observation>, o: Observation, id: EvidenceId)
    ensures Earlier(min, us + [o], id) <==> Earlier(min, us, id) || (o.id == id && Admissible(min, o))
  {
    var all := us + [o];
    assert all[|us|] == o && forall i :: 0 <= i < |us| ==> all[i] == us[i];
  }

  /** Every list, consistent or not, runs like the list of the first admissible observation of each id: of
      conflicting observations only the first counts, and what was refused before it does not matter. */
  lemma {:induction false} ConflictingIdsKeepTheFirst(min: int, os: seq<Observation>)
    ensures Run(min, os) == Run(min, Firsts(min, os)) && Effective(min, os) == Firsts(min, os)
  {
    if os != [] {
      var us, o := os[..|os| - 1], os[|os| - 1];
      ConflictingIdsKeepTheFirst(min, us);
      ProcessedIff(min, us, o.id);
      var fs := Firsts(min, us);
      if Admissible(min, o) && !Earlier(min, us, o.id) {
        assert (fs + [o])[..|fs|] == fs;
      } else {
        assert fs + [] == fs;
      }
    }
  }

  /** Two observations of one role under one id: their order matters exactly when they add different figures. */
  lemma ConflictsDependOnOrder(min: int, x: Observation, y: Observation)
    requires x.id == y.id && x.role == y.role && Admissible(min, x) && Admissible(min, y)
    ensures Run(min, [x, y]).states == Run(min, [y, x]).states <==> Added(FRESH, x) == Added(FRESH, y)
  {
    FirstCounts(min, x, y);
    FirstCounts(min, y, x);
    assert Run(min, [x, y]).states[x.role] == Added(FRESH, x);
    assert Run(min, [y, x]).states[x.role] == Added(FRESH, y);
  }

  lemma FirstCounts(min: int, x: Observation, y: Observation)
    requires x.id == y.id && Admissible(min, x)
    ensures Run(min, [x, y]).states == map[x.role := Added(FRESH, x)]
  {
    assert [x, y][..1] == [x] && [x][..0] == [];
    assert Run(min, []) == EMPTY;
    assert Run(min, [x]) == Snapshot(map[x.role := Added(FRESH, x)], [x.id]);
  }

  /** An observation takes effect exactly when it is accepted, has enough samples, and its evidence was not taken. */
  lemma AppliesIff(min: int, s: Snapshot, o: Observation)
    ensures Apply(min, s, o).Some? <==> o.id in s.processed || (o.accepted && min <= o.samples)
    ensures o.id in s.processed ==> Apply(min, s, o) == Some(s)
    ensures Apply(min, s, o).Some? && o.id !in s.processed ==>
              var t := Apply(min, s, o).value;
              && t.processed == s.processed + [o.id]
              && forall r :: r != o.role ==> StateOf(t, r) == StateOf(s, r) && (r in t.states <==> r in s.states)
  {
  }
}
