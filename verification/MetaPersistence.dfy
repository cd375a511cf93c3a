/** Persistent reputations: a versioned state write followed by an event append, with idempotence by
    decision id. Any number of processes over one database, each with memory that a crash erases. */
module MetaPersistence {
  import opened Common
  import opened MetaAI
  import opened MetaPayload
  import opened Text

  /** What one call put into memory: outcomes, with the id of a whole batch, and agents it only asked about. */
  datatype Entry = Entry(id: Option<Id>, outcomes: seq<Outcome>, asked: set<AgentId>)

  function Batch(id: Id, os: seq<Outcome>): Entry { Entry(Some(id), os, {}) }

  /** The part of a refused batch before the outcome that was refused. */
  function Part(os: seq<Outcome>): Entry { Entry(None, os, {}) }

  /** A consensus asks for the reputations of these agents. */
  function Question(agents: set<AgentId>): Entry { Entry(None, [], agents) }

  /** `extra` is what memory holds beyond the state version it was loaded from or last wrote. */
  datatype Proc = Down | Up(mem: State, version: nat, extra: seq<Entry>)

  /** A state write returns, raises without effect, or takes effect and raises all the same. */
  datatype Write = Done | Lost | Unsure

  /** `log` holds, for every state write that took effect, the entries that it made durable. */
  datatype Sys = Sys(version: nat, payload: Payload, events: set<Id>, procs: seq<Proc>, log: seq<seq<Entry>>)

  datatype Step =
    | Boot(p: nat)
    | Crash(p: nat)
    | Reload(p: nat)
    | Consult(p: nat, agents: set<AgentId>)
    | Record(p: nat, id: string, verified: bool, outcomes: seq<Outcome>, write: Write, appended: bool)

  predicate Enabled(s: Sys, st: Step) { st.p < |s.procs| && (st.Boot? <==> s.procs[st.p].Down?) }

  function With(s: Sys, p: nat, q: Proc): Sys
    requires p < |s.procs|
  {
    s.(procs := s.procs[p := q])
  }

  /** How many leading outcomes are recorded before an unsupported regime raises. */
  function Accepted(os: seq<Outcome>): nat
    ensures Accepted(os) <= |os| && KnownRegimes(os[..Accepted(os)])
    ensures Accepted(os) < |os| ==> os[Accepted(os)].regime !in REGIMES
  {
    if os == [] then 0
    else
      var n := |os| - 1;
      var k := Accepted(os[..n]);
      assert os[..n][..k] == os[..k];
      if k < n then k else if os[n].regime in REGIMES then assert os[..|os|] == os; |os| else n
  }

  function Remember(mem: State, os: seq<Outcome>): State
  {
    mem.(board := RecordAll(mem.board, os), history := mem.history + os)
  }

  function Grown(mem: State, id: Id, os: seq<Outcome>, limit: Limit): State
  {
    Remember(mem, os).(ids := Last(mem.ids + [id], limit))
  }

  predicate Processed(s: Sys, q: Proc, id: Id)
    requires q.Up?
  {
    id in q.mem.ids || id in s.events
  }

  /** After a failed write memory is restored from the payload taken before, if that can be read; otherwise the
      batch stays in memory. */
  function RolledBack(q: Proc, id: Id, os: seq<Outcome>, limit: Limit): Proc
    requires q.Up?
  {
    var r := Restore(Serialize(q.mem, limit), limit);
    if r.Some? then q.(mem := r.value)
    else q.(mem := Grown(q.mem, id, os, limit), extra := q.extra + [Batch(id, os)])
  }

  /** What a write by this process makes durable. */
  function Commit(q: Proc, id: Id, os: seq<Outcome>): seq<Entry>
    requires q.Up?
  {
    q.extra + [Batch(id, os)]
  }

  /** The durable side after a write that took effect. */
  function Landed(s: Sys, q: Proc, id: Id, os: seq<Outcome>, limit: Limit): Sys
    requires q.Up?
  {
    s.(version := s.version + 1, payload := Serialize(Grown(q.mem, id, os, limit), limit),
        log := s.log + [Commit(q, id, os)])
  }

  /** The write returned: memory moves on, then the event append may still fail. */
  function Acked(s: Sys, p: nat, id: Id, os: seq<Outcome>, limit: Limit, appended: bool): Sys
    requires p < |s.procs| && s.procs[p].Up?
  {
    var t := Landed(s, s.procs[p], id, os, limit);
    With(t.(events := if appended then t.events + {id} else t.events), p,
         Up(Grown(s.procs[p].mem, id, os, limit), s.version + 1, []))
  }

  function Refused(s: Sys, p: nat, id: Id, os: seq<Outcome>, limit: Limit): Sys
    requires p < |s.procs| && s.procs[p].Up?
  {
    With(s, p, RolledBack(s.procs[p], id, os, limit))
  }

  /** The batch is not even started: bad id or evidence, already processed, or empty. */
  predicate Ignored(s: Sys, st: Step)
    requires Enabled(s, st) && st.Record?
  {
    Strip(st.id) == "" || !st.verified || Processed(s, s.procs[st.p], Strip(st.id)) || st.outcomes == []
  }

  /** Outcomes are recorded up to an unsupported regime, and what was recorded before it stays. */
  function Leaked(s: Sys, p: nat, os: seq<Outcome>): Sys
    requires p < |s.procs| && s.procs[p].Up?
  {
    With(s, p, s.procs[p].(mem := Remember(s.procs[p].mem, os), extra := s.procs[p].extra + [Part(os)]))
  }

  /** Agents that had no reputation get a fresh one, in memory only. */
  function Consulted(s: Sys, p: nat, agents: set<AgentId>): Sys
    requires p < |s.procs| && s.procs[p].Up?
  {
    With(s, p, AskedProc(s.procs[p], agents))
  }

  function Asked(mem: State, agents: set<AgentId>): State { mem.(board := Seated(mem.board, agents)) }

  function AskedProc(q: Proc, agents: set<AgentId>): Proc
    requires q.Up?
  {
    q.(mem := Asked(q.mem, agents), extra := q.extra + [Question(agents)])
  }

  function BatchRecorded(s: Sys, st: Step, limit: Limit): Sys
    requires Enabled(s, st) && st.Record?
  {
    var q, d := s.procs[st.p], Strip(st.id);
    if Ignored(s, st) then s
    else if !KnownRegimes(st.outcomes) then Leaked(s, st.p, st.outcomes[..Accepted(st.outcomes)])
    else if q.version != s.version || st.write.Lost? then Refused(s, st.p, d, st.outcomes, limit)
    else if st.write.Unsure? then Refused(Landed(s, q, d, st.outcomes, limit), st.p, d, st.outcomes, limit)
    else Acked(s, st.p, d, st.outcomes, limit, st.appended)
  }

  /** Loading the durable state; it raises and changes nothing when the payload cannot be read. */
  function Loaded(s: Sys, p: nat, limit: Limit): Sys
    requires p < |s.procs|
  {
    var r := Restore(s.payload, limit);
    if r.Some? then With(s, p, Up(r.value, s.version, [])) else s
  }

  function Next(s: Sys, st: Step, limit: Limit): Sys
    requires Enabled(s, st)
  {
    match st
    case Crash(p) => With(s, p, Down)
    case Boot(p) => Loaded(s, p, limit)
    case Reload(p) => Loaded(s, p, limit)
    case Consult(p, agents) => Consulted(s, p, agents)
    case Record(_, _, _, _, _, _) => BatchRecorded(s, st, limit)
  }

  /** A store without a state reads like an empty one. */
  function Init(n: nat): Sys { Sys(0, Payload(SCHEMA, [], [], []), {}, seq(n, _ => Down), []) }

  predicate Valid(s: Sys, run: seq<Step>, limit: Limit)
    decreases |run|
  {
    run == [] || (Enabled(s, run[0]) && Valid(Next(s, run[0], limit), run[1..], limit))
  }

  function After(s: Sys, run: seq<Step>, limit: Limit): Sys
    requires Valid(s, run, limit)
    decreases |run|
  {
    if run == [] then s else After(Next(s, run[0], limit), run[1..], limit)
  }

  // ---------------------------------------------------------------------------------------
  // Every memory holds a prefix of the log and its own entries beyond it

  function Flat(log: seq<seq<Entry>>): seq<Entry>
  {
    if log == [] then [] else Flat(log[..|log| - 1]) + log[|log| - 1]
  }

  function Outcomes(es: seq<Entry>): seq<Outcome>
  {
    if es == [] then [] else Outcomes(es[..|es| - 1]) + es[|es| - 1].outcomes
  }

  function Named(e: Entry): seq<Id> { if e.id.Some? then [e.id.value] else [] }

  function Ids(es: seq<Entry>): seq<Id>
  {
    if es == [] then [] else Ids(es[..|es| - 1]) + Named(es[|es| - 1])
  }

  function Agents(os: seq<Outcome>): set<AgentId>
  {
    if os == [] then {} else Agents(os[..|os| - 1]) + {os[|os| - 1].agent}
  }

  /** Every agent that was recorded or asked about. */
  function Names(es: seq<Entry>): set<AgentId>
  {
    if es == [] then {} else Names(es[..|es| - 1]) + Agents(es[|es| - 1].outcomes) + es[|es| - 1].asked
  }

  /** The agents that a step names. */
  function Mentioned(st: Step): set<AgentId>
  {
    match st
    case Record(_, _, _, os, _, _) => Agents(os)
    case Consult(_, agents) => agents
    case Crash(_) => {}
    case Boot(_) => {}
    case Reload(_) => {}
  }

  predicate EntryOk(e: Entry) { KnownRegimes(e.outcomes) && (e.id.Some? ==> Proper(e.id.value)) }

  predicate EntriesOk(es: seq<Entry>) { forall i :: 0 <= i < |es| ==> EntryOk(es[i]) }

  /** Memory agrees with these entries, each once and in order: up to the limit in the ids and, but for blank ends
      of strings, in the history, and in whether some agent is blank. The reputations are in `Tracks`. */
  ghost predicate Mirrors(mem: State, es: seq<Entry>, limit: Limit)
  {
    && SoundBoard(mem.board) && (AnyBlank(mem.board.Keys) <==> AnyBlank(Names(es)))
    && Last(mem.ids, limit) == Last(Ids(es), limit)
    && CleanedAll(Last(mem.history, limit)) == CleanedAll(Last(Outcomes(es), limit))
  }

  /** Everything that went into the memory of this process. */
  function Timeline(s: Sys, q: Proc): seq<Entry>
    requires q.Up? && q.version <= |s.log|
  {
    Flat(s.log[..q.version]) + q.extra
  }

  ghost predicate ProcInv(s: Sys, q: Proc, limit: Limit)
  {
    q.Up? ==>
      && q.version <= |s.log| && EntriesOk(Timeline(s, q))
      && Mirrors(q.mem, Timeline(s, q), limit) && |q.mem.ids| <= limit
  }

  /** The payload was written from a memory that agrees with the entries. */
  ghost predicate WrittenFrom(payload: Payload, mem: State, es: seq<Entry>, limit: Limit)
  {
    payload == Serialize(mem, limit) && Mirrors(mem, es, limit)
  }

  ghost predicate DurableInv(s: Sys, limit: Limit)
  {
    s.version == |s.log| && EntriesOk(Flat(s.log)) && exists mem :: WrittenFrom(s.payload, mem, Flat(s.log), limit)
  }

  ghost predicate ProcsInv(s: Sys, limit: Limit) { forall p :: 0 <= p < |s.procs| ==> ProcInv(s, s.procs[p], limit) }

  ghost predicate Inv(s: Sys, limit: Limit) { DurableInv(s, limit) && ProcsInv(s, limit) }

  lemma {:induction false} RecordAllKeys(b: Board, os: seq<Outcome>)
    ensures RecordAll(b, os).Keys == b.Keys + Agents(os)
  {
    if os != [] { RecordAllKeys(b, os[..|os| - 1]); }
  }

  lemma BlankUnion(xs: set<AgentId>, ys: set<AgentId>)
    ensures AnyBlank(xs + ys) <==> AnyBlank(xs) || AnyBlank(ys)
  {
    if AnyBlank(xs) { assert exists n :: n in xs && n in xs + ys && Strip(n) == ""; }
    if AnyBlank(ys) { assert exists n :: n in ys && n in xs + ys && Strip(n) == ""; }
  }

  lemma LastConcat<T>(s: seq<T>, t: seq<T>, limit: Limit)
    ensures Last(Last(s, limit) + t, limit) == Last(s + t, limit)
  {
  }

  lemma CleanedLast(h: seq<Outcome>, limit: Limit)
    ensures CleanedAll(Last(h, limit)) == Last(CleanedAll(h), limit)
  {
  }

  lemma CleanedConcat(h: seq<Outcome>, os: seq<Outcome>)
    ensures CleanedAll(h + os) == CleanedAll(h) + CleanedAll(os)
  {
  }

  lemma HistoryAppend(h: seq<Outcome>, g: seq<Outcome>, os: seq<Outcome>, limit: Limit)
    requires CleanedAll(Last(h, limit)) == CleanedAll(Last(g, limit))
    ensures CleanedAll(Last(h + os, limit)) == CleanedAll(Last(g + os, limit))
  {
    CleanedLast(h, limit);
    CleanedLast(g, limit);
    CleanedLast(h + os, limit);
    CleanedLast(g + os, limit);
    CleanedConcat(h, os);
    CleanedConcat(g, os);
    LastConcat(CleanedAll(h), CleanedAll(os), limit);
    LastConcat(CleanedAll(g), CleanedAll(os), limit);
  }

  lemma IdsAppend(ids: seq<Id>, all: seq<Id>, more: seq<Id>, limit: Limit)
    requires Last(ids, limit) == Last(all, limit)
    ensures Last(Last(ids + more, limit), limit) == Last(ids + more, limit) == Last(all + more, limit)
  {
    LastConcat(ids, more, limit);
    LastConcat(all, more, limit);
  }

  lemma EntryAppend(es: seq<Entry>, e: Entry)
    ensures Outcomes(es + [e]) == Outcomes(es) + e.outcomes && Ids(es + [e]) == Ids(es) + Named(e)
    ensures Names(es + [e]) == Names(es) + Agents(e.outcomes) + e.asked
  {
    assert (es + [e])[..|es|] == es;
  }

  lemma GrownBoard(b: Board, es: seq<Entry>, e: Entry)
    requires SoundBoard(b) && (AnyBlank(b.Keys) <==> AnyBlank(Names(es))) && KnownRegimes(e.outcomes) && e.asked == {}
    ensures SoundBoard(RecordAll(b, e.outcomes))
    ensures AnyBlank(RecordAll(b, e.outcomes).Keys) <==> AnyBlank(Names(es + [e]))
  {
    EntryAppend(es, e);
    RecordAllSound(b, e.outcomes);
    RecordAllKeys(b, e.outcomes);
    BlankUnion(b.Keys, Agents(e.outcomes));
    BlankUnion(Names(es), Agents(e.outcomes));
    assert Names(es) + Agents(e.outcomes) + {} == Names(es) + Agents(e.outcomes);
  }

  lemma QuestionAppend(es: seq<Entry>, agents: set<AgentId>)
    ensures Outcomes(es + [Question(agents)]) == Outcomes(es) && Ids(es + [Question(agents)]) == Ids(es)
    ensures Names(es + [Question(agents)]) == Names(es) + agents
  {
    EntryAppend(es, Question(agents));
    assert Outcomes(es) + [] == Outcomes(es) && Ids(es) + [] == Ids(es);
    assert Names(es) + Agents([]) + agents == Names(es) + agents;
  }

  /** Recording one more entry keeps memory and entries in agreement. */
  lemma MirrorsGrown(mem: State, es: seq<Entry>, id: Id, os: seq<Outcome>, limit: Limit)
    requires Mirrors(mem, es, limit) && KnownRegimes(os)
    ensures Mirrors(Grown(mem, id, os, limit), es + [Batch(id, os)], limit)
            && |Grown(mem, id, os, limit).ids| <= limit
  {
    EntryAppend(es, Batch(id, os));
    GrownBoard(mem.board, es, Batch(id, os));
    HistoryAppend(mem.history, Outcomes(es), os, limit);
    IdsAppend(mem.ids, Ids(es), [id], limit);
  }

  lemma MirrorsLeaked(mem: State, es: seq<Entry>, os: seq<Outcome>, limit: Limit)
    requires Mirrors(mem, es, limit) && KnownRegimes(os)
    ensures Mirrors(Remember(mem, os), es + [Part(os)], limit)
  {
    EntryAppend(es, Part(os));
    GrownBoard(mem.board, es, Part(os));
    assert Ids(es) + [] == Ids(es);
    HistoryAppend(mem.history, Outcomes(es), os, limit);
  }

  lemma MirrorsAsked(mem: State, es: seq<Entry>, agents: set<AgentId>, limit: Limit)
    requires Mirrors(mem, es, limit)
    ensures Mirrors(Asked(mem, agents), es + [Question(agents)], limit)
  {
    QuestionAppend(es, agents);
    BlankUnion(mem.board.Keys, agents);
    BlankUnion(Names(es), agents);
    assert Seated(mem.board, agents).Keys == mem.board.Keys + agents;
  }

  // What a memory in agreement can be restored to.

  lemma {:induction false} EntriesFacts(es: seq<Entry>)
    requires EntriesOk(es)
    ensures KnownRegimes(Outcomes(es)) && forall d :: d in Ids(es) ==> Proper(d)
  {
    if es != [] { EntriesFacts(es[..|es| - 1]); }
  }

  lemma CleanedKeeps(h: seq<Outcome>, g: seq<Outcome>)
    requires CleanedAll(h) == CleanedAll(g)
    ensures AllReadable(h) == AllReadable(g) && KnownRegimes(h) == KnownRegimes(g)
  {
    assert |h| == |CleanedAll(h)| == |g|;
    forall i | 0 <= i < |h| ensures Readable(h[i]) == Readable(g[i]) && h[i].regime == g[i].regime {
      assert CleanedAll(h)[i] == Cleaned(h[i]) && CleanedAll(g)[i] == Cleaned(g[i]);
    }
  }

  lemma CleanedTwice(h: seq<Outcome>)
    ensures CleanedAll(CleanedAll(h)) == CleanedAll(h)
  {
    forall i | 0 <= i < |h| ensures Cleaned(Cleaned(h[i])) == Cleaned(h[i]) {
      StripFacts(h[i].agent);
      StripFacts(h[i].predicted);
      StripFacts(h[i].realized);
    }
  }

  /** What these entries leave can be read back: no agent is blank and the last outcomes are in range. */
  predicate CanRead(es: seq<Entry>, limit: Limit)
  {
    !AnyBlank(Names(es)) && AllReadable(Last(Outcomes(es), limit))
  }

  /** Memory in agreement can be written and read back, and stays in agreement, exactly when no agent is blank and
      the last outcomes are in range. */
  lemma Restored(mem: State, es: seq<Entry>, limit: Limit)
    requires EntriesOk(es) && Mirrors(mem, es, limit)
    ensures var r := Restore(Serialize(mem, limit), limit);
            && (r.Some? <==> CanRead(es, limit))
            && (r.Some? ==> Mirrors(r.value, es, limit) && |r.value.ids| <= limit
                            && Some(r.value.board) == ReadBoard(StoreBoard(mem.board)))
  {
    var h, ids := Last(mem.history, limit), Last(mem.ids, limit);
    EntriesFacts(es);
    CleanedKeeps(h, Last(Outcomes(es), limit));
    assert forall i :: 0 <= i < |ids| ==> ids[i] in Ids(es);
    StripAllIsSame(ids);
    RestoreSerialized(mem, limit);
    BoardIsRead(mem.board);
    CleanedTwice(h);
    LastTwice(mem.ids, limit);
  }

  // ---------------------------------------------------------------------------------------
  // Every step keeps the agreement

  lemma ProcElsewhere(s: Sys, t: Sys, q: Proc, limit: Limit)
    requires ProcInv(s, q, limit) && s.log <= t.log
    ensures ProcInv(t, q, limit)
  {
    if q.Up? { assert t.log[..q.version] == s.log[..q.version]; }
  }

  /** Replacing one process by one in agreement. */
  lemma WithInv(s: Sys, p: nat, q: Proc, limit: Limit)
    requires Inv(s, limit) && p < |s.procs| && ProcInv(s, q, limit)
    ensures Inv(With(s, p, q), limit)
  {
    var t := With(s, p, q);
    forall i | 0 <= i < |t.procs| ensures ProcInv(t, t.procs[i], limit) {
      if i != p { assert ProcInv(s, s.procs[i], limit); }
    }
  }

  /** A process that has just loaded or written the durable state. */
  lemma CurrentProc(s: Sys, mem: State, limit: Limit)
    requires s.version == |s.log| && EntriesOk(Flat(s.log)) && Mirrors(mem, Flat(s.log), limit) && |mem.ids| <= limit
    ensures ProcInv(s, Up(mem, s.version, []), limit)
  {
    assert s.log[..|s.log|] == s.log && Flat(s.log) + [] == Flat(s.log);
  }

  lemma LoadedMem(s: Sys, limit: Limit)
    requires DurableInv(s, limit) && Restore(s.payload, limit).Some?
    ensures ProcInv(s, Up(Restore(s.payload, limit).value, s.version, []), limit)
  {
    var mem :| WrittenFrom(s.payload, mem, Flat(s.log), limit);
    Restored(mem, Flat(s.log), limit);
    CurrentProc(s, Restore(s.payload, limit).value, limit);
  }

  lemma LoadedInv(s: Sys, p: nat, limit: Limit)
    requires Inv(s, limit) && p < |s.procs|
    ensures Inv(Loaded(s, p, limit), limit)
  {
    var r := Restore(s.payload, limit);
    if r.Some? {
      LoadedMem(s, limit);
      WithInv(s, p, Up(r.value, s.version, []), limit);
    }
  }

  /** A process that recorded one more entry. */
  lemma OneMoreEntry(s: Sys, q: Proc, mem: State, e: Entry, limit: Limit)
    requires q.Up? && ProcInv(s, q, limit) && EntryOk(e) && Mirrors(mem, Timeline(s, q) + [e], limit)
             && |mem.ids| <= limit
    ensures ProcInv(s, Up(mem, q.version, q.extra + [e]), limit)
  {
    assert Flat(s.log[..q.version]) + (q.extra + [e]) == Timeline(s, q) + [e];
  }

  lemma LeakedProc(s: Sys, q: Proc, os: seq<Outcome>, limit: Limit)
    requires q.Up? && ProcInv(s, q, limit) && KnownRegimes(os)
    ensures ProcInv(s, Up(Remember(q.mem, os), q.version, q.extra + [Part(os)]), limit)
  {
    MirrorsLeaked(q.mem, Timeline(s, q), os, limit);
    OneMoreEntry(s, q, Remember(q.mem, os), Part(os), limit);
  }

  lemma LeakedInv(s: Sys, p: nat, os: seq<Outcome>, limit: Limit)
    requires Inv(s, limit) && p < |s.procs| && s.procs[p].Up? && KnownRegimes(os)
    ensures Inv(Leaked(s, p, os), limit)
  {
    var q := s.procs[p];
    LeakedProc(s, q, os, limit);
    WithInv(s, p, Up(Remember(q.mem, os), q.version, q.extra + [Part(os)]), limit);
  }

  lemma AskedInv(s: Sys, p: nat, agents: set<AgentId>, limit: Limit)
    requires Inv(s, limit) && p < |s.procs| && s.procs[p].Up?
    ensures Inv(Consulted(s, p, agents), limit)
  {
    var q := s.procs[p];
    assert ProcInv(s, q, limit);
    MirrorsAsked(q.mem, Timeline(s, q), agents, limit);
    OneMoreEntry(s, q, Asked(q.mem, agents), Question(agents), limit);
    WithInv(s, p, AskedProc(q, agents), limit);
  }

  lemma GrownProc(s: Sys, q: Proc, id: Id, os: seq<Outcome>, limit: Limit)
    requires q.Up? && ProcInv(s, q, limit) && Proper(id) && KnownRegimes(os)
    ensures ProcInv(s, Up(Grown(q.mem, id, os, limit), q.version, Commit(q, id, os)), limit)
  {
    MirrorsGrown(q.mem, Timeline(s, q), id, os, limit);
    OneMoreEntry(s, q, Grown(q.mem, id, os, limit), Batch(id, os), limit);
  }

  lemma RestoredProc(s: Sys, q: Proc, limit: Limit)
    requires q.Up? && ProcInv(s, q, limit)
    ensures var r := Restore(Serialize(q.mem, limit), limit); r.Some? ==> ProcInv(s, q.(mem := r.value), limit)
  {
    Restored(q.mem, Timeline(s, q), limit);
  }

  lemma RolledBackInv(s: Sys, q: Proc, id: Id, os: seq<Outcome>, limit: Limit)
    requires q.Up? && ProcInv(s, q, limit) && Proper(id) && KnownRegimes(os)
    ensures ProcInv(s, RolledBack(q, id, os, limit), limit)
  {
    if Restore(Serialize(q.mem, limit), limit).Some? {
      RestoredProc(s, q, limit);
    } else {
      GrownProc(s, q, id, os, limit);
    }
  }

  lemma RefusedInv(s: Sys, p: nat, id: Id, os: seq<Outcome>, limit: Limit)
    requires Inv(s, limit) && p < |s.procs| && s.procs[p].Up?
    requires Proper(id) && KnownRegimes(os)
    ensures Inv(Refused(s, p, id, os, limit), limit)
  {
    var q := s.procs[p];
    RolledBackInv(s, q, id, os, limit);
    WithInv(s, p, RolledBack(q, id, os, limit), limit);
  }

  /** A process at the current version: its entries are the whole log and its own. */
  lemma FlatLanded(s: Sys, q: Proc, id: Id, os: seq<Outcome>)
    requires q.Up? && q.version == s.version == |s.log|
    ensures Flat(s.log + [Commit(q, id, os)]) == Timeline(s, q) + [Batch(id, os)]
  {
    assert s.log[..|s.log|] == s.log;
    assert (s.log + [Commit(q, id, os)])[..|s.log|] == s.log;
    assert Flat(s.log) + (q.extra + [Batch(id, os)]) == Flat(s.log) + q.extra + [Batch(id, os)];
  }

  lemma LandedDurable(s: Sys, q: Proc, id: Id, os: seq<Outcome>, limit: Limit)
    requires s.version == |s.log| && q.Up? && q.version == s.version && ProcInv(s, q, limit)
    requires Proper(id) && KnownRegimes(os)
    ensures var t := Landed(s, q, id, os, limit);
            DurableInv(t, limit) && Mirrors(Grown(q.mem, id, os, limit), Flat(t.log), limit)
    ensures |Grown(q.mem, id, os, limit).ids| <= limit
  {
    var t, grown := Landed(s, q, id, os, limit), Grown(q.mem, id, os, limit);
    FlatLanded(s, q, id, os);
    MirrorsGrown(q.mem, Timeline(s, q), id, os, limit);
    assert WrittenFrom(t.payload, grown, Flat(t.log), limit);
  }

  lemma LandedInv(s: Sys, p: nat, id: Id, os: seq<Outcome>, limit: Limit)
    requires Inv(s, limit) && p < |s.procs| && s.procs[p].Up? && s.procs[p].version == s.version
    requires Proper(id) && KnownRegimes(os)
    ensures var t := Landed(s, s.procs[p], id, os, limit);
            && Inv(t, limit) && Mirrors(Grown(s.procs[p].mem, id, os, limit), Flat(t.log), limit)
            && |Grown(s.procs[p].mem, id, os, limit).ids| <= limit
  {
    var q := s.procs[p];
    assert ProcInv(s, q, limit);
    LandedDurable(s, q, id, os, limit);
    LongerLog(s, Landed(s, q, id, os, limit), limit);
  }

  lemma LongerLog(s: Sys, t: Sys, limit: Limit)
    requires s.log <= t.log && t.procs == s.procs && ProcsInv(s, limit)
    ensures ProcsInv(t, limit)
  {
    forall i | 0 <= i < |t.procs| ensures ProcInv(t, t.procs[i], limit) {
      assert ProcInv(s, s.procs[i], limit);
      ProcElsewhere(s, t, s.procs[i], limit);
    }
  }

  lemma EventsInv(t: Sys, u: Sys, limit: Limit)
    requires Inv(t, limit) && u == t.(events := u.events)
    ensures Inv(u, limit)
  {
    LongerLog(t, u, limit);
  }

  lemma CurrentInv(s: Sys, p: nat, mem: State, limit: Limit)
    requires Inv(s, limit) && p < |s.procs| && Mirrors(mem, Flat(s.log), limit) && |mem.ids| <= limit
    ensures Inv(With(s, p, Up(mem, s.version, [])), limit)
  {
    CurrentProc(s, mem, limit);
    WithInv(s, p, Up(mem, s.version, []), limit);
  }

  lemma AckedInv(s: Sys, p: nat, id: Id, os: seq<Outcome>, limit: Limit, appended: bool)
    requires Inv(s, limit) && p < |s.procs| && s.procs[p].Up? && s.procs[p].version == s.version
    requires Proper(id) && KnownRegimes(os)
    ensures Inv(Acked(s, p, id, os, limit, appended), limit)
  {
    var t := Landed(s, s.procs[p], id, os, limit);
    LandedInv(s, p, id, os, limit);
    var u := t.(events := if appended then t.events + {id} else t.events);
    EventsInv(t, u, limit);
    CurrentInv(u, p, Grown(s.procs[p].mem, id, os, limit), limit);
  }

  lemma RecordInv(s: Sys, st: Step, limit: Limit)
    requires Enabled(s, st) && st.Record?
    requires Inv(s, limit)
    ensures Inv(BatchRecorded(s, st, limit), limit)
  {
    var q, d, os := s.procs[st.p], Strip(st.id), st.outcomes;
    if !Ignored(s, st) {
      StripFacts(st.id);
      if !KnownRegimes(os) {
        LeakedInv(s, st.p, os[..Accepted(os)], limit);
      } else if q.version != s.version || st.write.Lost? {
        RefusedInv(s, st.p, d, os, limit);
      } else if st.write.Unsure? {
        LandedInv(s, st.p, d, os, limit);
        RefusedInv(Landed(s, q, d, os, limit), st.p, d, os, limit);
      } else {
        AckedInv(s, st.p, d, os, limit, st.appended);
      }
    }
  }

  lemma NextInv(s: Sys, st: Step, limit: Limit)
    requires Enabled(s, st)
    requires Inv(s, limit)
    ensures Inv(Next(s, st, limit), limit)
  {
    match st
    case Crash(p) => WithInv(s, p, Down, limit);
    case Boot(p) => LoadedInv(s, p, limit);
    case Reload(p) => LoadedInv(s, p, limit);
    case Consult(p, agents) => AskedInv(s, p, agents, limit);
    case Record(_, _, _, _, _, _) => RecordInv(s, st, limit);
  }

  lemma {:induction false} RunInv(s: Sys, run: seq<Step>, limit: Limit)
    requires Valid(s, run, limit)
    requires Inv(s, limit)
    ensures Inv(After(s, run, limit), limit)
    decreases |run|
  {
    if run != [] {
      NextInv(s, run[0], limit);
      RunInv(Next(s, run[0], limit), run[1..], limit);
    }
  }

  lemma InitInv(n: nat, limit: Limit)
    ensures Inv(Init(n), limit)
  {
    assert StoreBoard(EMPTY.board) == [] && StoreHistory(EMPTY.history) == [];
    assert WrittenFrom(Init(n).payload, EMPTY, Flat([]), limit);
  }

  /** The store can be read exactly when no agent is blank and the newest outcomes are in range. */
  lemma DurableReadable(s: Sys, limit: Limit)
    requires DurableInv(s, limit)
    ensures Restore(s.payload, limit).Some? <==> CanRead(Flat(s.log), limit)
    ensures Restore(s.payload, limit).Some? ==> Mirrors(Restore(s.payload, limit).value, Flat(s.log), limit)
  {
    var mem :| WrittenFrom(s.payload, mem, Flat(s.log), limit);
    Restored(mem, Flat(s.log), limit);
  }

  /** After any run of consultations, retries, refused batches, failed version checks, ambiguous writes, crashes and
      restarts by any number of processes, history and ids of every live process are those of a prefix of what the
      state writes made durable and of its own entries since, each entry once and in order. A restart can read the
      store exactly when nobody durable is blank and the newest outcomes are in range. */
  lemma RunFolds(n: nat, run: seq<Step>, limit: Limit)
    requires Valid(Init(n), run, limit)
    ensures var t := After(Init(n), run, limit);
            && (Restore(t.payload, limit).Some? <==> CanRead(Flat(t.log), limit))
            && (Restore(t.payload, limit).Some? ==> Mirrors(Restore(t.payload, limit).value, Flat(t.log), limit))
            && forall p :: 0 <= p < |t.procs| && t.procs[p].Up? ==>
                 t.procs[p].version <= |t.log| && Mirrors(t.procs[p].mem, Timeline(t, t.procs[p]), limit)
  {
    InitInv(n, limit);
    RunInv(Init(n), run, limit);
    var t := After(Init(n), run, limit);
    DurableReadable(t, limit);
    forall p | 0 <= p < |t.procs| && t.procs[p].Up?
      ensures t.procs[p].version <= |t.log| && Mirrors(t.procs[p].mem, Timeline(t, t.procs[p]), limit)
    {
      assert ProcInv(t, t.procs[p], limit);
    }
  }
}
