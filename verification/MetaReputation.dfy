/** The reputation of one agent over whole runs: it is what its own outcomes make of it, as long as no other name
    comes down to the agent's when reading strips it. */
module MetaReputation {
  import opened Common
  import opened MetaAI
  import opened MetaPayload
  import opened MetaPersistence
  import opened Text

  /** A reputation of a after recording these outcomes: only its own count. */
  function Learned(rep: Reputation, os: seq<Outcome>, a: AgentId): Reputation
  {
    if os == [] then rep
    else
      var before, o := Learned(rep, os[..|os| - 1], a), os[|os| - 1];
      if o.agent == a then Recorded(before, o) else before
  }

  /** What the entries make of the reputation of a. */
  function Folded(es: seq<Entry>, a: AgentId): Reputation { Learned(FRESH, Outcomes(es), a) }

  /** These reputations hold for a what the entries make of it, and hold it exactly when an entry names it. */
  predicate Tracks(b: Board, es: seq<Entry>, a: AgentId)
  {
    Lookup(b, a) == Folded(es, a) && (a in b <==> a in Names(es)) && Unaliased(b.Keys, a)
  }

  /** The step names no other agent that comes down to a. */
  predicate Spares(st: Step, a: AgentId) { Unaliased(Mentioned(st), a) }

  predicate SparesAll(run: seq<Step>, a: AgentId) { forall i :: 0 <= i < |run| ==> Spares(run[i], a) }

  // ---------------------------------------------------------------------------------------
  // Recording, asking and reading keep the agreement

  lemma {:induction false} LookupLearned(b: Board, os: seq<Outcome>, a: AgentId)
    ensures Lookup(RecordAll(b, os), a) == Learned(Lookup(b, a), os, a)
  {
    if os != [] { LookupLearned(b, os[..|os| - 1], a); }
  }

  lemma {:induction false} LearnedConcat(rep: Reputation, os: seq<Outcome>, us: seq<Outcome>, a: AgentId)
    ensures Learned(rep, os + us, a) == Learned(Learned(rep, os, a), us, a)
  {
    if us == [] {
      assert os + us == os;
    } else {
      var n := |us| - 1;
      LearnedConcat(rep, os, us[..n], a);
      assert (os + us)[..|os + us| - 1] == os + us[..n];
    }
  }

  lemma {:induction false} FewerAgents(os: seq<Outcome>, k: nat)
    requires k <= |os|
    ensures Agents(os[..k]) <= Agents(os)
  {
    if k < |os| {
      FewerAgents(os[..|os| - 1], k);
      assert os[..|os| - 1][..k] == os[..k];
    } else {
      assert os[..k] == os;
    }
  }

  lemma TracksGrown(b: Board, es: seq<Entry>, e: Entry, a: AgentId)
    requires Tracks(b, es, a) && Unaliased(Agents(e.outcomes), a) && e.asked == {}
    ensures Tracks(RecordAll(b, e.outcomes), es + [e], a)
  {
    EntryAppend(es, e);
    LookupLearned(b, e.outcomes, a);
    LearnedConcat(FRESH, Outcomes(es), e.outcomes, a);
    RecordAllKeys(b, e.outcomes);
  }

  lemma TracksAsked(b: Board, es: seq<Entry>, agents: set<AgentId>, a: AgentId)
    requires Tracks(b, es, a) && Unaliased(agents, a)
    ensures Tracks(Seated(b, agents), es + [Question(agents)], a)
  {
    QuestionAppend(es, agents);
    assert Seated(b, agents).Keys == b.Keys + agents;
  }

  lemma TracksRead(b: Board, es: seq<Entry>, a: AgentId)
    requires SoundBoard(b) && Proper(a) && Tracks(b, es, a) && ReadBoard(StoreBoard(b)).Some?
    ensures Tracks(ReadBoard(StoreBoard(b)).value, es, a)
  {
    ReadKeeps(b, a);
  }

  // ---------------------------------------------------------------------------------------
  // Every step keeps the agreement

  ghost predicate ProcTracks(s: Sys, q: Proc, a: AgentId)
  {
    q.Up? ==> q.version <= |s.log| && Tracks(q.mem.board, Timeline(s, q), a)
  }

  /** The stored reputations are these. */
  ghost predicate Stores(s: Sys, b: Board) { SoundBoard(b) && s.payload.reputations == StoreBoard(b) }

  ghost predicate StoreTracks(s: Sys, a: AgentId) { exists b :: Stores(s, b) && Tracks(b, Flat(s.log), a) }

  ghost predicate AgentInv(s: Sys, a: AgentId)
  {
    StoreTracks(s, a) && forall p :: 0 <= p < |s.procs| ==> ProcTracks(s, s.procs[p], a)
  }

  lemma WithTracks(s: Sys, p: nat, q: Proc, a: AgentId)
    requires AgentInv(s, a) && p < |s.procs| && ProcTracks(s, q, a)
    ensures AgentInv(With(s, p, q), a)
  {
    var t := With(s, p, q);
    var b :| Stores(s, b) && Tracks(b, Flat(s.log), a);
    assert Stores(t, b);
    forall i | 0 <= i < |t.procs| ensures ProcTracks(t, t.procs[i], a) {
      if i == p { assert ProcTracks(s, q, a); } else { assert ProcTracks(s, s.procs[i], a); }
    }
  }

  lemma LongerTracks(s: Sys, t: Sys, a: AgentId)
    requires AgentInv(s, a) && s.log <= t.log && t.procs == s.procs && StoreTracks(t, a)
    ensures AgentInv(t, a)
  {
    forall i | 0 <= i < |t.procs| ensures ProcTracks(t, t.procs[i], a) {
      var q := s.procs[i];
      assert ProcTracks(s, q, a);
      if q.Up? { assert t.log[..q.version] == s.log[..q.version]; }
    }
  }

  /** A process that recorded or asked one thing more. */
  lemma EntryTracks(s: Sys, q: Proc, mem: State, e: Entry, a: AgentId)
    requires q.Up? && q.version <= |s.log| && Tracks(mem.board, Timeline(s, q) + [e], a)
    ensures ProcTracks(s, Up(mem, q.version, q.extra + [e]), a)
  {
    assert Flat(s.log[..q.version]) + (q.extra + [e]) == Timeline(s, q) + [e];
  }

  lemma RecordedTracks(s: Sys, q: Proc, mem: State, e: Entry, a: AgentId)
    requires q.Up? && ProcTracks(s, q, a) && mem.board == RecordAll(q.mem.board, e.outcomes)
    requires Unaliased(Agents(e.outcomes), a) && e.asked == {}
    ensures ProcTracks(s, Up(mem, q.version, q.extra + [e]), a)
  {
    TracksGrown(q.mem.board, Timeline(s, q), e, a);
    EntryTracks(s, q, mem, e, a);
  }

  lemma AskedTracks(s: Sys, p: nat, agents: set<AgentId>, a: AgentId)
    requires AgentInv(s, a) && p < |s.procs| && s.procs[p].Up? && Unaliased(agents, a)
    ensures AgentInv(Consulted(s, p, agents), a)
  {
    var q := s.procs[p];
    assert ProcTracks(s, q, a);
    TracksAsked(q.mem.board, Timeline(s, q), agents, a);
    EntryTracks(s, q, Asked(q.mem, agents), Question(agents), a);
    WithTracks(s, p, AskedProc(q, agents), a);
  }

  lemma LeakedTracks(s: Sys, p: nat, os: seq<Outcome>, a: AgentId)
    requires AgentInv(s, a) && p < |s.procs| && s.procs[p].Up? && Unaliased(Agents(os), a)
    ensures AgentInv(Leaked(s, p, os), a)
  {
    var q := s.procs[p];
    assert ProcTracks(s, q, a);
    RecordedTracks(s, q, Remember(q.mem, os), Part(os), a);
    WithTracks(s, p, Up(Remember(q.mem, os), q.version, q.extra + [Part(os)]), a);
  }

  lemma RolledBackTracks(s: Sys, q: Proc, id: Id, os: seq<Outcome>, limit: Limit, a: AgentId)
    requires q.Up? && ProcInv(s, q, limit) && ProcTracks(s, q, a) && Proper(a) && Unaliased(Agents(os), a)
    ensures ProcTracks(s, RolledBack(q, id, os, limit), a)
  {
    Restored(q.mem, Timeline(s, q), limit);
    var r := Restore(Serialize(q.mem, limit), limit);
    if r.Some? {
      TracksRead(q.mem.board, Timeline(s, q), a);
      assert Timeline(s, q.(mem := r.value)) == Timeline(s, q);
    } else {
      RecordedTracks(s, q, Grown(q.mem, id, os, limit), Batch(id, os), a);
    }
  }

  lemma RefusedTracks(s: Sys, p: nat, id: Id, os: seq<Outcome>, limit: Limit, a: AgentId)
    requires AgentInv(s, a) && p < |s.procs| && s.procs[p].Up? && ProcInv(s, s.procs[p], limit)
    requires Proper(a) && Unaliased(Agents(os), a)
    ensures AgentInv(Refused(s, p, id, os, limit), a)
  {
    assert ProcTracks(s, s.procs[p], a);
    RolledBackTracks(s, s.procs[p], id, os, limit, a);
    WithTracks(s, p, RolledBack(s.procs[p], id, os, limit), a);
  }

  /** A write that takes effect stores what its process holds. */
  lemma LandedTracks(s: Sys, p: nat, id: Id, os: seq<Outcome>, limit: Limit, a: AgentId)
    requires AgentInv(s, a) && p < |s.procs| && s.procs[p].Up? && ProcInv(s, s.procs[p], limit)
    requires s.procs[p].version == s.version == |s.log| && KnownRegimes(os) && Unaliased(Agents(os), a)
    ensures var t := Landed(s, s.procs[p], id, os, limit);
            && AgentInv(t, a) && Tracks(Grown(s.procs[p].mem, id, os, limit).board, Flat(t.log), a)
            && Flat(t.log) == Timeline(s, s.procs[p]) + [Batch(id, os)]
  {
    var q := s.procs[p];
    var t, b := Landed(s, q, id, os, limit), RecordAll(q.mem.board, os);
    assert ProcTracks(s, q, a);
    FlatLanded(s, q, id, os);
    TracksGrown(q.mem.board, Timeline(s, q), Batch(id, os), a);
    RecordAllSound(q.mem.board, os);
    assert Stores(t, b);
    LongerTracks(s, t, a);
  }

  /** A process that holds exactly what is durable. */
  lemma CurrentTracks(s: Sys, p: nat, mem: State, a: AgentId)
    requires AgentInv(s, a) && p < |s.procs| && s.version == |s.log| && Tracks(mem.board, Flat(s.log), a)
    ensures AgentInv(With(s, p, Up(mem, s.version, [])), a)
  {
    assert s.log[..|s.log|] == s.log && Flat(s.log) + [] == Flat(s.log);
    WithTracks(s, p, Up(mem, s.version, []), a);
  }

  lemma AckedTracks(s: Sys, p: nat, id: Id, os: seq<Outcome>, limit: Limit, appended: bool, a: AgentId)
    requires AgentInv(s, a) && p < |s.procs| && s.procs[p].Up? && ProcInv(s, s.procs[p], limit)
    requires s.procs[p].version == s.version == |s.log| && KnownRegimes(os) && Unaliased(Agents(os), a)
    ensures AgentInv(Acked(s, p, id, os, limit, appended), a)
  {
    var t := Landed(s, s.procs[p], id, os, limit);
    LandedTracks(s, p, id, os, limit, a);
    var u := t.(events := if appended then t.events + {id} else t.events);
    var b :| Stores(t, b) && Tracks(b, Flat(t.log), a);
    assert Stores(u, b);
    LongerTracks(t, u, a);
    CurrentTracks(u, p, Grown(s.procs[p].mem, id, os, limit), a);
  }

  lemma LoadedTracks(s: Sys, p: nat, limit: Limit, a: AgentId)
    requires AgentInv(s, a) && p < |s.procs| && s.version == |s.log| && Proper(a)
    ensures AgentInv(Loaded(s, p, limit), a)
  {
    var r := Restore(s.payload, limit);
    if r.Some? {
      var b :| Stores(s, b) && Tracks(b, Flat(s.log), a);
      TracksRead(b, Flat(s.log), a);
      CurrentTracks(s, p, r.value, a);
    }
  }

  lemma RecordTracks(s: Sys, st: Step, limit: Limit, a: AgentId)
    requires Enabled(s, st) && st.Record? && Spares(st, a) && Proper(a)
    requires Inv(s, limit) && AgentInv(s, a)
    ensures AgentInv(BatchRecorded(s, st, limit), a)
  {
    var q, d, os := s.procs[st.p], Strip(st.id), st.outcomes;
    if !Ignored(s, st) {
      assert ProcInv(s, q, limit);
      if !KnownRegimes(os) {
        FewerAgents(os, Accepted(os));
        LeakedTracks(s, st.p, os[..Accepted(os)], a);
      } else if q.version != s.version || st.write.Lost? {
        RefusedTracks(s, st.p, d, os, limit, a);
      } else if st.write.Unsure? {
        UnsureTracks(s, st.p, d, os, limit, a);
      } else {
        AckedTracks(s, st.p, d, os, limit, st.appended, a);
      }
    }
  }

  lemma UnsureTracks(s: Sys, p: nat, id: Id, os: seq<Outcome>, limit: Limit, a: AgentId)
    requires Inv(s, limit) && p < |s.procs| && s.procs[p].Up? && s.procs[p].version == s.version && AgentInv(s, a)
    requires KnownRegimes(os) && Unaliased(Agents(os), a) && Proper(a)
    ensures AgentInv(Refused(Landed(s, s.procs[p], id, os, limit), p, id, os, limit), a)
  {
    var t := Landed(s, s.procs[p], id, os, limit);
    assert ProcInv(s, s.procs[p], limit);
    LandedTracks(s, p, id, os, limit, a);
    ProcElsewhere(s, t, s.procs[p], limit);
    RefusedTracks(t, p, id, os, limit, a);
  }

  /** Every step that names no other agent coming down to a keeps a's reputation its own, in store and memories. */
  lemma StepTracks(s: Sys, st: Step, limit: Limit, a: AgentId)
    requires Enabled(s, st) && Spares(st, a) && Proper(a)
    requires Inv(s, limit) && AgentInv(s, a)
    ensures AgentInv(Next(s, st, limit), a)
  {
    match st
    case Crash(p) => WithTracks(s, p, Down, a);
    case Boot(p) => LoadedTracks(s, p, limit, a);
    case Reload(p) => LoadedTracks(s, p, limit, a);
    case Consult(p, agents) => AskedTracks(s, p, agents, a);
    case Record(_, _, _, _, _, _) => RecordTracks(s, st, limit, a);
  }

  lemma {:induction false} RunTracks(s: Sys, run: seq<Step>, limit: Limit, a: AgentId)
    requires Valid(s, run, limit) && SparesAll(run, a) && Proper(a)
    requires Inv(s, limit) && AgentInv(s, a)
    ensures AgentInv(After(s, run, limit), a)
    decreases |run|
  {
    if run != [] {
      StepTracks(s, run[0], limit, a);
      NextInv(s, run[0], limit);
      RunTracks(Next(s, run[0], limit), run[1..], limit, a);
    }
  }

  lemma InitTracks(n: nat, limit: Limit, a: AgentId)
    ensures AgentInv(Init(n), a)
  {
    assert StoreBoard(map[]) == [];
    assert Stores(Init(n), map[]) && Tracks(map[], Flat([]), a);
  }

  // ---------------------------------------------------------------------------------------
  // Over whole runs

  /** The stored rows of a. */
  function RowsOf(rs: seq<StoredReputation>, a: AgentId): set<StoredReputation> { set r | r in rs && r.agent == a }

  lemma RowOfBoard(b: Board, a: AgentId)
    ensures RowsOf(StoreBoard(b), a) == if a in b then {StoreReputation(a, b[a])} else {}
  {
    var keys, rs := SortedKeys(b.Keys), StoreBoard(b);
    forall r | r in rs && r.agent == a ensures a in b && r == StoreReputation(a, b[a]) {
      var i :| 0 <= i < |rs| && rs[i] == r;
      assert keys[i] in b.Keys;
    }
    if a in b {
      var i :| 0 <= i < |keys| && keys[i] == a;
      assert rs[i] == StoreReputation(a, b[a]);
    }
  }

  /** The store holds for a what the durable entries make of it, and one row of it exactly when they name it. */
  ghost predicate StoredFor(s: Sys, a: AgentId)
  {
    var es := Flat(s.log);
    RowsOf(s.payload.reputations, a) == if a in Names(es) then {StoreReputation(a, Folded(es, a))} else {}
  }

  /** After any run, whoever is consulted or recorded, the stored reputation of an agent is what its own durable
      outcomes make of it, each once and in order, and every live process holds what they and its own entries since
      make of it, as long as nobody else's name comes down to the agent's. */
  lemma AgentFolds(n: nat, run: seq<Step>, limit: Limit, a: AgentId)
    requires Valid(Init(n), run, limit) && SparesAll(run, a) && Proper(a)
    ensures var t := After(Init(n), run, limit);
            && StoredFor(t, a)
            && forall p :: 0 <= p < |t.procs| && t.procs[p].Up? ==>
                 t.procs[p].version <= |t.log| && Lookup(t.procs[p].mem.board, a) == Folded(Timeline(t, t.procs[p]), a)
  {
    InitInv(n, limit);
    InitTracks(n, limit, a);
    RunTracks(Init(n), run, limit, a);
    var t := After(Init(n), run, limit);
    StoreIsFold(t, a);
    forall p | 0 <= p < |t.procs| && t.procs[p].Up? ensures ProcTracks(t, t.procs[p], a) {}
  }

  lemma StoreIsFold(s: Sys, a: AgentId)
    requires StoreTracks(s, a)
    ensures StoredFor(s, a)
  {
    var b :| Stores(s, b) && Tracks(b, Flat(s.log), a);
    RowOfBoard(b, a);
  }

  // ---------------------------------------------------------------------------------------
  // Other names

  /** Whoever has blank ends is forgotten by every restart and reload, however much it had learned. */
  lemma UncleanForgets(s: Sys, p: nat, limit: Limit, n: AgentId)
    requires p < |s.procs| && !Proper(n) && Restore(s.payload, limit).Some?
    ensures var q := Loaded(s, p, limit).procs[p]; q.Up? && Lookup(q.mem.board, n) == FRESH
  {
    if n in Restore(s.payload, limit).value.board { ReadNamesStripped(s.payload.reputations, n); }
  }

}
