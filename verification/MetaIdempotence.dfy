/** Idempotence by decision id: when a decision can be recorded twice, and what refused and failed batches leave. */
module MetaIdempotence {
  import opened Common
  import opened MetaAI
  import opened MetaPayload
  import opened MetaPersistence
  import opened MetaReputation
  import opened Text

  /** No decision was made durable twice, and none is twice in a memory. */
  ghost predicate OnceEach(s: Sys)
  {
    && Unique(Ids(Flat(s.log)))
    && forall p :: 0 <= p < |s.procs| && s.procs[p].Up? && s.procs[p].version <= |s.log| ==>
         Unique(Ids(Timeline(s, s.procs[p])))
  }

  /** Recorded by this process or before it loaded, but neither the decision's event nor its place in the bounded
      id list is left. */
  predicate Forgotten(s: Sys, q: Proc, d: Id, limit: Limit)
    requires q.Up? && q.version <= |s.log|
  {
    d in Ids(Timeline(s, q)) && d !in s.events && d !in Last(Ids(Timeline(s, q)), limit)
  }

  /** A well-formed batch, from a process at the current version, whose write takes effect. */
  predicate Lands(s: Sys, st: Step)
    requires Enabled(s, st)
  {
    && st.Record? && Strip(st.id) != "" && st.verified && st.outcomes != [] && KnownRegimes(st.outcomes)
    && !st.write.Lost? && s.procs[st.p].version == s.version
  }

  lemma ProcessedExactly(s: Sys, q: Proc, d: Id, limit: Limit)
    requires q.Up? && ProcInv(s, q, limit)
    ensures Processed(s, q, d) <==> d in s.events || d in Last(Ids(Timeline(s, q)), limit)
  {
  }

  /** The part of a step that concerns ids: what lands, and what a process holds afterwards. */
  lemma RecordedLog(s: Sys, st: Step, limit: Limit)
    requires Enabled(s, st) && st.Record?
    ensures BatchRecorded(s, st, limit).log
            == if Lands(s, st) && !Ignored(s, st) then s.log + [Commit(s.procs[st.p], Strip(st.id), st.outcomes)]
                else s.log
  {
  }

  /** A step records a decision a second time exactly when its write takes effect and its process has
      forgotten the decision. */
  lemma DuplicateIffForgotten(s: Sys, st: Step, limit: Limit)
    requires Enabled(s, st) && OnceEach(s) && Inv(s, limit)
    ensures !Unique(Ids(Flat(Next(s, st, limit).log)))
            <==> Lands(s, st) && Forgotten(s, s.procs[st.p], Strip(st.id), limit)
  {
    if st.Record? {
      var q, d := s.procs[st.p], Strip(st.id);
      assert ProcInv(s, q, limit);
      RecordedLog(s, st, limit);
      if Lands(s, st) {
        ProcessedExactly(s, q, d, limit);
        FlatLanded(s, q, d, st.outcomes);
        EntryAppend(Timeline(s, q), Batch(d, st.outcomes));
        UniqueAppend(Ids(Timeline(s, q)), d);
      }
    }
  }

  ghost predicate UniqueProc(s: Sys, q: Proc) { q.Up? && q.version <= |s.log| ==> Unique(Ids(Timeline(s, q))) }

  lemma UniqueElsewhere(s: Sys, t: Sys, q: Proc)
    requires UniqueProc(s, q) && s.log <= t.log && (q.Up? ==> q.version <= |s.log|)
    ensures UniqueProc(t, q)
  {
    if q.Up? { assert t.log[..q.version] == s.log[..q.version]; }
  }

  /** The memory that a recording leaves names each decision once, unless it had forgotten this one. */
  lemma RecordedProcUnique(s: Sys, st: Step, limit: Limit)
    requires Enabled(s, st) && st.Record? && ProcInv(s, s.procs[st.p], limit)
    requires UniqueProc(s, s.procs[st.p]) && !Forgotten(s, s.procs[st.p], Strip(st.id), limit)
    requires !Ignored(s, st)
    ensures var q, d, os := s.procs[st.p], Strip(st.id), st.outcomes;
            && Unique(Ids(Timeline(s, q) + [Batch(d, os)]))
            && Unique(Ids(Timeline(s, q) + [Part(os[..Accepted(os)])]))
  {
    var q, d, os := s.procs[st.p], Strip(st.id), st.outcomes;
    ProcessedExactly(s, q, d, limit);
    EntryAppend(Timeline(s, q), Batch(d, os));
    EntryAppend(Timeline(s, q), Part(os[..Accepted(os)]));
    UniqueAppend(Ids(Timeline(s, q)), d);
    assert Ids(Timeline(s, q)) + [] == Ids(Timeline(s, q));
  }

  /** Replacing one process, over the same log. */
  lemma WithOnce(s: Sys, p: nat, q: Proc)
    requires OnceEach(s) && p < |s.procs| && UniqueProc(s, q)
    ensures OnceEach(With(s, p, q))
  {
    var t := With(s, p, q);
    forall i | 0 <= i < |t.procs| && t.procs[i].Up? && t.procs[i].version <= |t.log|
      ensures Unique(Ids(Timeline(t, t.procs[i])))
    {
      if i == p { assert UniqueProc(s, q); } else { assert Timeline(t, t.procs[i]) == Timeline(s, s.procs[i]); }
    }
  }

  /** A write that takes effect, over the processes as they were. */
  lemma LandedOnce(s: Sys, t: Sys)
    requires OnceEach(s) && t.procs == s.procs && s.log <= t.log && Unique(Ids(Flat(t.log)))
    requires forall p :: 0 <= p < |s.procs| && s.procs[p].Up? ==> s.procs[p].version <= |s.log|
    ensures OnceEach(t)
  {
    forall p | 0 <= p < |t.procs| && t.procs[p].Up? && t.procs[p].version <= |t.log|
      ensures Unique(Ids(Timeline(t, t.procs[p])))
    {
      UniqueElsewhere(s, t, s.procs[p]);
    }
  }

  lemma RefusedOnce(s: Sys, p: nat, id: Id, os: seq<Outcome>, limit: Limit)
    requires OnceEach(s) && p < |s.procs| && s.procs[p].Up? && s.procs[p].version <= |s.log|
    requires Unique(Ids(Timeline(s, s.procs[p]) + [Batch(id, os)]))
    ensures OnceEach(Refused(s, p, id, os, limit))
  {
    var q := s.procs[p];
    assert UniqueProc(s, q);
    assert Flat(s.log[..q.version]) + (q.extra + [Batch(id, os)]) == Timeline(s, q) + [Batch(id, os)];
    WithOnce(s, p, RolledBack(q, id, os, limit));
  }

  lemma LeakedOnce(s: Sys, p: nat, os: seq<Outcome>)
    requires OnceEach(s) && p < |s.procs| && s.procs[p].Up? && s.procs[p].version <= |s.log|
    requires Unique(Ids(Timeline(s, s.procs[p]) + [Part(os)]))
    ensures OnceEach(Leaked(s, p, os))
  {
    var q := s.procs[p];
    assert Flat(s.log[..q.version]) + (q.extra + [Part(os)]) == Timeline(s, q) + [Part(os)];
    WithOnce(s, p, q.(mem := Remember(q.mem, os), extra := q.extra + [Part(os)]));
  }

  lemma AskedOnce(s: Sys, p: nat, agents: set<AgentId>)
    requires OnceEach(s) && p < |s.procs| && s.procs[p].Up?
    ensures OnceEach(Consulted(s, p, agents))
  {
    var q := s.procs[p];
    if q.version <= |s.log| {
      QuestionAppend(Timeline(s, q), agents);
      assert Flat(s.log[..q.version]) + (q.extra + [Question(agents)]) == Timeline(s, q) + [Question(agents)];
    }
    WithOnce(s, p, AskedProc(q, agents));
  }

  /** A process that holds exactly the durable entries. */
  lemma CurrentOnce(s: Sys, p: nat, mem: State)
    requires OnceEach(s) && p < |s.procs| && s.version == |s.log|
    ensures OnceEach(With(s, p, Up(mem, s.version, [])))
  {
    assert s.log[..|s.log|] == s.log && Flat(s.log) + [] == Flat(s.log);
    WithOnce(s, p, Up(mem, s.version, []));
  }

  lemma LandsOnce(s: Sys, st: Step, limit: Limit)
    requires Enabled(s, st) && OnceEach(s) && Inv(s, limit) && Lands(s, st) && !Ignored(s, st)
    requires Unique(Ids(Timeline(s, s.procs[st.p]) + [Batch(Strip(st.id), st.outcomes)]))
    ensures OnceEach(BatchRecorded(s, st, limit))
  {
    var q, d, os := s.procs[st.p], Strip(st.id), st.outcomes;
    var t := Landed(s, q, d, os, limit);
    FlatLanded(s, q, d, os);
    assert forall p :: 0 <= p < |s.procs| && s.procs[p].Up? ==> ProcInv(s, s.procs[p], limit);
    LandedOnce(s, t);
    if st.write.Unsure? {
      assert Timeline(t, q) == Timeline(s, q) by { assert t.log[..q.version] == s.log[..q.version]; }
      RefusedOnce(t, st.p, d, os, limit);
    } else {
      var u := t.(events := if st.appended then t.events + {d} else t.events);
      LandedOnce(t, u);
      CurrentOnce(u, st.p, Grown(q.mem, d, os, limit));
    }
  }

  /** Every step keeps decisions single unless its process has forgotten the one it records. */
  lemma StepOnce(s: Sys, st: Step, limit: Limit)
    requires Enabled(s, st) && OnceEach(s) && Inv(s, limit)
    requires st.Record? ==> ProcInv(s, s.procs[st.p], limit) && !Forgotten(s, s.procs[st.p], Strip(st.id), limit)
    ensures OnceEach(Next(s, st, limit))
  {
    match st
    case Crash(p) => WithOnce(s, p, Down);
    case Boot(p) => LoadedOnce(s, p, limit);
    case Reload(p) => LoadedOnce(s, p, limit);
    case Consult(p, agents) => AskedOnce(s, p, agents);
    case Record(p, _, _, os, _, _) =>
      if !Ignored(s, st) {
        assert UniqueProc(s, s.procs[p]);
        RecordedProcUnique(s, st, limit);
        if !KnownRegimes(os) {
          LeakedOnce(s, p, os[..Accepted(os)]);
        } else if Lands(s, st) {
          LandsOnce(s, st, limit);
        } else {
          RefusedOnce(s, p, Strip(st.id), os, limit);
        }
      }
  }

  lemma LoadedOnce(s: Sys, p: nat, limit: Limit)
    requires OnceEach(s) && p < |s.procs| && Inv(s, limit)
    ensures OnceEach(Loaded(s, p, limit))
  {
    if Restore(s.payload, limit).Some? { CurrentOnce(s, p, Restore(s.payload, limit).value); }
  }

  /** No live process has forgotten a decision. */
  ghost predicate Remembers(s: Sys, limit: Limit)
  {
    forall p :: 0 <= p < |s.procs| ==> RemembersAll(s, s.procs[p], limit)
  }

  predicate RemembersAll(s: Sys, q: Proc, limit: Limit)
  {
    q.Up? && q.version <= |s.log| ==>
      forall d :: d in Ids(Timeline(s, q)) ==> d in s.events || d in Last(Ids(Timeline(s, q)), limit)
  }

  /** No state of the run has forgotten a decision. */
  ghost predicate NeverForgets(s: Sys, run: seq<Step>, limit: Limit)
    requires Valid(s, run, limit)
    decreases |run|
  {
    Remembers(s, limit) && (run == [] || NeverForgets(Next(s, run[0], limit), run[1..], limit))
  }

  lemma {:induction false} RememberedRunIsOnce(s: Sys, run: seq<Step>, limit: Limit)
    requires Valid(s, run, limit) && NeverForgets(s, run, limit)
    requires OnceEach(s) && Inv(s, limit)
    ensures OnceEach(After(s, run, limit))
    decreases |run|
  {
    if run != [] {
      var st := run[0];
      if st.Record? {
        assert ProcInv(s, s.procs[st.p], limit);
        assert RemembersAll(s, s.procs[st.p], limit);
      }
      StepOnce(s, st, limit);
      NextInv(s, st, limit);
      RememberedRunIsOnce(Next(s, st, limit), run[1..], limit);
    }
  }

  /** Each decision took effect at most once, and the stored reputation of every agent to whose name nobody else's
      comes down is what its own outcomes in entries with distinct decisions make of it. */
  ghost predicate Single(s: Sys, run: seq<Step>)
  {
    && Unique(Ids(Flat(s.log)))
    && forall a :: Proper(a) && SparesAll(run, a) ==> StoredFor(s, a)
  }

  /** While every decision's event exists or its id is within the history limit, each decision takes effect once. */
  lemma EachDecisionOnce(n: nat, run: seq<Step>, limit: Limit)
    requires Valid(Init(n), run, limit) && NeverForgets(Init(n), run, limit)
    ensures Single(After(Init(n), run, limit), run)
  {
    InitInv(n, limit);
    RememberedRunIsOnce(Init(n), run, limit);
    forall a | Proper(a) && SparesAll(run, a) ensures StoredFor(After(Init(n), run, limit), a) {
      AgentFolds(n, run, limit, a);
    }
  }

  // ---------------------------------------------------------------------------------------
  // With outcomes in range and nobody blank, an event or a short history is enough

  predicate ReadableStep(st: Step) { !AnyBlank(Mentioned(st)) && (st.Record? ==> AllReadable(st.outcomes)) }

  predicate ReadableRun(run: seq<Step>) { forall i :: 0 <= i < |run| ==> ReadableStep(run[i]) }

  /** What these entries leave can be read back, however long the history limit is. */
  predicate Sane(es: seq<Entry>) { AllReadable(Outcomes(es)) && !AnyBlank(Names(es)) }

  /** Everything this process holds can be read back, and no decision is in its memory alone. */
  ghost predicate ReadableProc(s: Sys, q: Proc)
  {
    q.Up? ==> q.version <= |s.log| && Sane(Timeline(s, q)) && Ids(q.extra) == []
  }

  ghost predicate ReadableInv(s: Sys)
  {
    Sane(Flat(s.log)) && forall p :: 0 <= p < |s.procs| ==> ReadableProc(s, s.procs[p])
  }

  lemma ReadableConcat(h: seq<Outcome>, os: seq<Outcome>)
    ensures AllReadable(h + os) <==> AllReadable(h) && AllReadable(os)
  {
    assert forall i :: 0 <= i < |os| ==> (h + os)[|h| + i] == os[i];
    assert forall i :: 0 <= i < |h| ==> (h + os)[i] == h[i];
  }

  lemma ReadableEntry(es: seq<Entry>, e: Entry)
    ensures Sane(es + [e])
            <==> Sane(es) && AllReadable(e.outcomes) && !AnyBlank(Agents(e.outcomes)) && !AnyBlank(e.asked)
  {
    EntryAppend(es, e);
    ReadableConcat(Outcomes(es), e.outcomes);
    BlankUnion(Names(es) + Agents(e.outcomes), e.asked);
    BlankUnion(Names(es), Agents(e.outcomes));
  }

  lemma WithReadable(s: Sys, p: nat, q: Proc)
    requires ReadableInv(s) && p < |s.procs| && ReadableProc(s, q)
    ensures ReadableInv(With(s, p, q))
  {
    var t := With(s, p, q);
    forall i | 0 <= i < |t.procs| ensures ReadableProc(t, t.procs[i]) {
      if i != p { assert ReadableProc(s, s.procs[i]); }
    }
  }

  lemma LandedReadable(s: Sys, t: Sys)
    requires ReadableInv(s) && t.procs == s.procs && s.log <= t.log && Sane(Flat(t.log))
    ensures ReadableInv(t)
  {
    forall i | 0 <= i < |t.procs| ensures ReadableProc(t, t.procs[i]) {
      var q := s.procs[i];
      assert ReadableProc(s, q);
      if q.Up? { assert t.log[..q.version] == s.log[..q.version]; }
    }
  }

  /** A failed write leaves no trace of its batch. */
  lemma RolledBackReadable(s: Sys, q: Proc, id: Id, os: seq<Outcome>, limit: Limit)
    requires q.Up? && ReadableProc(s, q) && ProcInv(s, q, limit)
    ensures RolledBack(q, id, os, limit) == q.(mem := RolledBack(q, id, os, limit).mem)
  {
    Restored(q.mem, Timeline(s, q), limit);
  }

  lemma RefusedReadable(s: Sys, p: nat, id: Id, os: seq<Outcome>, limit: Limit)
    requires ReadableInv(s) && p < |s.procs| && s.procs[p].Up? && ProcInv(s, s.procs[p], limit)
    ensures ReadableInv(Refused(s, p, id, os, limit))
  {
    var q := s.procs[p];
    assert ReadableProc(s, q);
    RolledBackReadable(s, q, id, os, limit);
    var r := RolledBack(q, id, os, limit);
    assert Timeline(s, r) == Timeline(s, q);
    WithReadable(s, p, r);
  }

  /** One entry more, that is no decision. */
  lemma EntryReadable(s: Sys, p: nat, mem: State, e: Entry)
    requires ReadableInv(s) && p < |s.procs| && s.procs[p].Up? && e.id.None?
    requires AllReadable(e.outcomes) && !AnyBlank(Agents(e.outcomes)) && !AnyBlank(e.asked)
    ensures ReadableInv(With(s, p, s.procs[p].(mem := mem, extra := s.procs[p].extra + [e])))
  {
    var q := s.procs[p];
    assert ReadableProc(s, q);
    assert Flat(s.log[..q.version]) + (q.extra + [e]) == Timeline(s, q) + [e];
    ReadableEntry(Timeline(s, q), e);
    EntryAppend(q.extra, e);
    WithReadable(s, p, q.(mem := mem, extra := q.extra + [e]));
  }

  lemma LeakedReadable(s: Sys, p: nat, os: seq<Outcome>, k: nat)
    requires ReadableInv(s) && p < |s.procs| && s.procs[p].Up?
    requires AllReadable(os) && !AnyBlank(Agents(os)) && k <= |os|
    ensures ReadableInv(Leaked(s, p, os[..k]))
  {
    FewerAgents(os, k);
    EntryReadable(s, p, Remember(s.procs[p].mem, os[..k]), Part(os[..k]));
  }

  lemma CurrentReadable(s: Sys, p: nat, mem: State)
    requires ReadableInv(s) && p < |s.procs| && s.version == |s.log|
    ensures ReadableInv(With(s, p, Up(mem, s.version, [])))
  {
    assert s.log[..|s.log|] == s.log && Flat(s.log) + [] == Flat(s.log);
    WithReadable(s, p, Up(mem, s.version, []));
  }

  lemma LandsReadable(s: Sys, st: Step, limit: Limit)
    requires Enabled(s, st) && Inv(s, limit) && ReadableInv(s) && Lands(s, st) && !Ignored(s, st) && ReadableStep(st)
    ensures ReadableInv(BatchRecorded(s, st, limit))
  {
    var p, q, d, os := st.p, s.procs[st.p], Strip(st.id), st.outcomes;
    var t := Landed(s, q, d, os, limit);
    StripFacts(st.id);
    assert ReadableProc(s, q);
    FlatLanded(s, q, d, os);
    ReadableEntry(Timeline(s, q), Batch(d, os));
    LandedReadable(s, t);
    if st.write.Unsure? {
      LandedInv(s, p, d, os, limit);
      assert ProcInv(t, t.procs[p], limit);
      RefusedReadable(t, p, d, os, limit);
    } else {
      var u := t.(events := if st.appended then t.events + {d} else t.events);
      LandedReadable(t, u);
      CurrentReadable(u, p, Grown(q.mem, d, os, limit));
    }
  }

  lemma LoadedReadable(s: Sys, p: nat, limit: Limit)
    requires ReadableInv(s) && p < |s.procs| && s.version == |s.log|
    ensures ReadableInv(Loaded(s, p, limit))
  {
    if Restore(s.payload, limit).Some? { CurrentReadable(s, p, Restore(s.payload, limit).value); }
  }

  lemma RecordedReadable(s: Sys, st: Step, limit: Limit)
    requires Enabled(s, st) && st.Record? && ReadableStep(st) && !Ignored(s, st)
    requires Inv(s, limit) && ReadableInv(s)
    ensures ReadableInv(BatchRecorded(s, st, limit))
  {
    var p, os := st.p, st.outcomes;
    assert ProcInv(s, s.procs[p], limit);
    if !KnownRegimes(os) {
      LeakedReadable(s, p, os, Accepted(os));
    } else if Lands(s, st) {
      LandsReadable(s, st, limit);
    } else {
      RefusedReadable(s, p, Strip(st.id), os, limit);
    }
  }

  lemma StepReadable(s: Sys, st: Step, limit: Limit)
    requires Enabled(s, st) && ReadableStep(st)
    requires Inv(s, limit) && ReadableInv(s)
    ensures ReadableInv(Next(s, st, limit))
  {
    match st
    case Crash(p) => WithReadable(s, p, Down);
    case Boot(p) => LoadedReadable(s, p, limit);
    case Reload(p) => LoadedReadable(s, p, limit);
    case Consult(p, agents) => EntryReadable(s, p, Asked(s.procs[p].mem, agents), Question(agents));
    case Record(_, _, _, _, _, _) => if !Ignored(s, st) { RecordedReadable(s, st, limit); }
  }

  /** With no decision in memory alone, a process knows durable decisions only. */
  lemma KnowsDurable(s: Sys, q: Proc)
    requires q.Up? && ReadableProc(s, q)
    ensures Ids(Timeline(s, q)) == Ids(Flat(s.log[..q.version]))
    ensures |Ids(Timeline(s, q))| <= |Ids(Flat(s.log))|
    ensures forall d :: d in Ids(Timeline(s, q)) ==> d in Ids(Flat(s.log))
  {
    IdsConcat(Flat(s.log[..q.version]), q.extra);
    assert Ids(Flat(s.log[..q.version])) + [] == Ids(Flat(s.log[..q.version]));
    FlatIds(s.log, q.version);
  }

  lemma {:induction false} IdsConcat(es: seq<Entry>, fs: seq<Entry>)
    ensures Ids(es + fs) == Ids(es) + Ids(fs)
  {
    if fs == [] {
      assert es + fs == es;
    } else {
      var n := |fs| - 1;
      IdsConcat(es, fs[..n]);
      assert es + fs == (es + fs[..n]) + [fs[n]] && fs == fs[..n] + [fs[n]];
      EntryAppend(es + fs[..n], fs[n]);
      EntryAppend(fs[..n], fs[n]);
      Associative(Ids(es), Ids(fs[..n]), Named(fs[n]));
    }
  }

  lemma Associative<T>(a: seq<T>, b: seq<T>, c: seq<T>)
    ensures (a + b) + c == a + (b + c)
  {
  }

  lemma {:induction false} FlatIds(log: seq<seq<Entry>>, n: nat)
    requires n <= |log|
    ensures Ids(Flat(log[..n])) <= Ids(Flat(log))
    decreases |log|
  {
    if n == |log| {
      assert log[..n] == log;
    } else {
      var m := |log| - 1;
      FlatIds(log[..m], n);
      assert log[..m][..n] == log[..n];
      IdsConcat(Flat(log[..m]), log[m]);
    }
  }

  /** Every write that takes effect is followed by its event. */
  predicate EventKept(st: Step) { st.Record? ==> st.write.Lost? || (st.write.Done? && st.appended) }

  predicate NoLostEvents(run: seq<Step>) { forall i :: 0 <= i < |run| ==> EventKept(run[i]) }

  ghost predicate Published(s: Sys) { forall d :: d in Ids(Flat(s.log)) ==> d in s.events }

  lemma LandsPublished(s: Sys, q: Proc, id: Id, os: seq<Outcome>)
    requires q.Up? && q.version == s.version == |s.log| && ReadableProc(s, q) && Published(s)
    ensures forall d :: d in Ids(Flat(s.log + [Commit(q, id, os)])) ==> d in s.events || d == id
  {
    KnowsDurable(s, q);
    FlatLanded(s, q, id, os);
    EntryAppend(Timeline(s, q), Batch(id, os));
  }

  lemma RecordedEvents(s: Sys, st: Step, limit: Limit)
    requires Enabled(s, st) && st.Record? && EventKept(st)
    ensures s.events <= BatchRecorded(s, st, limit).events
    ensures Lands(s, st) && !Ignored(s, st) ==> Strip(st.id) in BatchRecorded(s, st, limit).events
  {
  }

  lemma StepPublished(s: Sys, st: Step, limit: Limit)
    requires Enabled(s, st) && st.Record? && EventKept(st) && s.version == |s.log|
    requires ReadableProc(s, s.procs[st.p]) && Published(s)
    ensures Published(BatchRecorded(s, st, limit))
  {
    RecordedLog(s, st, limit);
    RecordedEvents(s, st, limit);
    if Lands(s, st) && !Ignored(s, st) { LandsPublished(s, s.procs[st.p], Strip(st.id), st.outcomes); }
  }

  lemma PublishedRemembers(s: Sys, limit: Limit)
    requires ReadableInv(s) && Published(s)
    ensures Remembers(s, limit)
  {
    forall p | 0 <= p < |s.procs| ensures RemembersAll(s, s.procs[p], limit) {
      assert ReadableProc(s, s.procs[p]);
      if s.procs[p].Up? { KnowsDurable(s, s.procs[p]); }
    }
  }

  lemma ShortRemembers(s: Sys, limit: Limit)
    requires ReadableInv(s) && |Ids(Flat(s.log))| <= limit
    ensures Remembers(s, limit)
  {
    forall p | 0 <= p < |s.procs| ensures RemembersAll(s, s.procs[p], limit) {
      assert ReadableProc(s, s.procs[p]);
      if s.procs[p].Up? { KnowsDurable(s, s.procs[p]); }
    }
  }

  /** When no event is lost nothing is forgotten. */
  lemma {:induction false} EventsSuffice(s: Sys, run: seq<Step>, limit: Limit)
    requires Valid(s, run, limit) && ReadableRun(run) && NoLostEvents(run)
    requires Inv(s, limit) && ReadableInv(s) && Published(s)
    ensures NeverForgets(s, run, limit)
    decreases |run|
  {
    PublishedRemembers(s, limit);
    if run != [] {
      var t := Next(s, run[0], limit);
      StepKeepsEvents(s, run[0], t, limit);
      EventsSuffice(t, run[1..], limit);
    }
  }

  lemma StepKeepsEvents(s: Sys, st: Step, t: Sys, limit: Limit)
    requires Enabled(s, st) && ReadableStep(st) && EventKept(st) && t == Next(s, st, limit)
    requires Inv(s, limit) && ReadableInv(s) && Published(s)
    ensures Inv(t, limit) && ReadableInv(t) && Published(t)
  {
    if st.Record? {
      assert ReadableProc(s, s.procs[st.p]);
      StepPublished(s, st, limit);
    }
    StepReadable(s, st, limit);
    NextInv(s, st, limit);
  }

  lemma LogGrows(s: Sys, st: Step, limit: Limit)
    requires Enabled(s, st)
    ensures s.log <= Next(s, st, limit).log
  {
    if st.Record? { RecordedLog(s, st, limit); }
  }

  lemma {:induction false} IdsGrow(s: Sys, run: seq<Step>, limit: Limit)
    requires Valid(s, run, limit)
    ensures |Ids(Flat(s.log))| <= |Ids(Flat(After(s, run, limit).log))|
    decreases |run|
  {
    if run != [] {
      var t := Next(s, run[0], limit);
      LogGrows(s, run[0], limit);
      assert t.log[..|s.log|] == s.log;
      FlatIds(t.log, |s.log|);
      IdsGrow(t, run[1..], limit);
    }
  }

  /** However many events are lost, nothing is forgotten before more decisions than the limit. */
  lemma {:induction false} ShortHistorySuffices(s: Sys, run: seq<Step>, limit: Limit)
    requires Valid(s, run, limit) && ReadableRun(run)
    requires Inv(s, limit) && ReadableInv(s) && |Ids(Flat(After(s, run, limit).log))| <= limit
    ensures NeverForgets(s, run, limit)
    decreases |run|
  {
    IdsGrow(s, run, limit);
    ShortRemembers(s, limit);
    if run != [] {
      StepReadable(s, run[0], limit);
      NextInv(s, run[0], limit);
      ShortHistorySuffices(Next(s, run[0], limit), run[1..], limit);
    }
  }

  lemma InitReadable(n: nat, limit: Limit)
    ensures ReadableInv(Init(n)) && Published(Init(n))
  {
  }

  /** From the empty store, with outcomes in range and nobody blank: when no event is lost each decision takes
      effect once, whatever else happens to writes and processes. */
  lemma KeptEventsOnce(n: nat, run: seq<Step>, limit: Limit)
    requires Valid(Init(n), run, limit) && ReadableRun(run) && NoLostEvents(run)
    ensures Single(After(Init(n), run, limit), run)
  {
    InitInv(n, limit);
    InitReadable(n, limit);
    EventsSuffice(Init(n), run, limit);
    EachDecisionOnce(n, run, limit);
  }

  /** ... and so it does, however many events are lost, in runs of no more decisions than the history limit. */
  lemma FewDecisionsOnce(n: nat, run: seq<Step>, limit: Limit)
    requires Valid(Init(n), run, limit) && ReadableRun(run)
    requires |Ids(Flat(After(Init(n), run, limit).log))| <= limit
    ensures Single(After(Init(n), run, limit), run)
  {
    InitInv(n, limit);
    InitReadable(n, limit);
    ShortHistorySuffices(Init(n), run, limit);
    EachDecisionOnce(n, run, limit);
  }
}
