/** What goes wrong, exactly when: a lost event beyond the history limit, a batch refused half way, an outcome that
    recording accepts and reading refuses. */
module MetaFailures {
  import opened Common
  import opened MetaAI
  import opened MetaIdempotence
  import opened MetaPayload
  import opened MetaPersistence
  import opened MetaReputation
  import opened Text

  // ---------------------------------------------------------------------------------------
  // Beyond the limit a lost event is a lost decision

  function Numbered(k: nat): Id { seq(k + 1, _ => 'd') }

  lemma NumberedProper(k: nat)
    ensures Proper(Numbered(k)) && Strip(Numbered(k)) == Numbered(k)
  {
    StripFacts(Numbered(k));
  }

  function Post(d: Id, os: seq<Outcome>, appended: bool): Step { Record(0, d, true, os, Done, appended) }

  /** The only process holds exactly the durable state. */
  predicate Alone(s: Sys)
  {
    |s.procs| == 1 && s.procs[0].Up? && s.procs[0].version == s.version && s.procs[0].extra == []
  }

  /** Outcomes that nothing is wrong with. */
  predicate Clean(os: seq<Outcome>)
  {
    os != [] && KnownRegimes(os) && AllReadable(os) && forall i :: 0 <= i < |os| ==> Proper(os[i].agent)
  }

  predicate CleanStep(st: Step) { st.Record? ==> Clean(st.outcomes) }

  predicate CleanRun(run: seq<Step>) { forall i :: 0 <= i < |run| ==> CleanStep(run[i]) }

  ghost predicate Leads(s: Sys, run: seq<Step>, t: Sys, limit: Limit)
  {
    Valid(s, run, limit) && CleanRun(run) && After(s, run, limit) == t
  }

  lemma OneStep(s: Sys, st: Step, t: Sys, limit: Limit)
    requires Enabled(s, st) && CleanStep(st) && t == Next(s, st, limit)
    ensures Leads(s, [st], t, limit)
  {
  }

  lemma FirstStep(s: Sys, run: seq<Step>, t: Sys, limit: Limit) returns (r: Sys)
    requires Leads(s, run, t, limit) && run != []
    ensures Enabled(s, run[0]) && CleanStep(run[0]) && r == Next(s, run[0], limit) && Leads(r, run[1..], t, limit)
  {
    r := Next(s, run[0], limit);
  }

  lemma {:induction false} LeadsOn(s: Sys, a: seq<Step>, t: Sys, b: seq<Step>, u: Sys, limit: Limit)
    requires Leads(s, a, t, limit) && Leads(t, b, u, limit)
    ensures Leads(s, a + b, u, limit)
    decreases |a|
  {
    if a == [] {
      assert a + b == b;
    } else {
      var r := FirstStep(s, a, t, limit);
      LeadsOn(r, a[1..], t, b, u, limit);
      StepFirst(s, a, b, r, u, limit);
    }
  }

  lemma StepFirst(s: Sys, a: seq<Step>, b: seq<Step>, r: Sys, u: Sys, limit: Limit)
    requires a != [] && Enabled(s, a[0]) && CleanStep(a[0]) && r == Next(s, a[0], limit)
    requires Leads(r, a[1..] + b, u, limit)
    ensures Leads(s, a + b, u, limit)
  {
    assert (a + b)[0] == a[0] && (a + b)[1..] == a[1..] + b;
  }

  lemma NextIsAcked(s: Sys, d: Id, os: seq<Outcome>, appended: bool, limit: Limit)
    requires Alone(s) && d != "" && Strip(d) == d && os != [] && KnownRegimes(os) && !Processed(s, s.procs[0], d)
    ensures Enabled(s, Post(d, os, appended))
    ensures Next(s, Post(d, os, appended), limit) == Acked(s, 0, d, os, limit, appended)
  {
  }

  /** What the only process knows is what is durable. */
  lemma AloneKnows(s: Sys, limit: Limit)
    requires Alone(s) && Inv(s, limit)
    ensures ProcInv(s, s.procs[0], limit) && Timeline(s, s.procs[0]) == Flat(s.log)
  {
    assert s.log[..|s.log|] == s.log;
    assert Flat(s.log) + [] == Flat(s.log);
  }

  lemma PostNext(s: Sys, d: Id, os: seq<Outcome>, appended: bool, limit: Limit) returns (t: Sys)
    requires Alone(s) && Proper(d) && Strip(d) == d && Clean(os) && d !in s.events
             && d !in Last(Ids(Flat(s.log)), limit)
    requires Inv(s, limit)
    ensures Enabled(s, Post(d, os, appended)) && t == Next(s, Post(d, os, appended), limit)
    ensures t == Acked(s, 0, d, os, limit, appended)
  {
    AloneKnows(s, limit);
    ProcessedExactly(s, s.procs[0], d, limit);
    NextIsAcked(s, d, os, appended, limit);
    t := Acked(s, 0, d, os, limit, appended);
  }

  lemma PostedState(s: Sys, d: Id, os: seq<Outcome>, appended: bool, limit: Limit, t: Sys)
    requires Alone(s) && Proper(d) && Clean(os) && t == Acked(s, 0, d, os, limit, appended)
    requires Inv(s, limit)
    ensures Alone(t) && Inv(t, limit) && t.events == if appended then s.events + {d} else s.events
    ensures Flat(t.log) == Flat(s.log) + [Batch(d, os)] && Ids(Flat(t.log)) == Ids(Flat(s.log)) + [d]
  {
    AloneKnows(s, limit);
    AckedInv(s, 0, d, os, limit, appended);
    FlatLanded(s, s.procs[0], d, os);
    EntryAppend(Timeline(s, s.procs[0]), Batch(d, os));
  }

  /** A decision that nothing remembers is recorded, with or without its event. */
  lemma PostLands(s: Sys, d: Id, os: seq<Outcome>, appended: bool, limit: Limit) returns (run: seq<Step>, t: Sys)
    requires Alone(s) && Proper(d) && Strip(d) == d && Clean(os) && d !in s.events
             && d !in Last(Ids(Flat(s.log)), limit)
    requires Inv(s, limit)
    ensures Leads(s, run, t, limit) && SparesBut(run, Agents(os)) && Alone(t) && Inv(t, limit)
    ensures Flat(t.log) == Flat(s.log) + [Batch(d, os)] && Ids(Flat(t.log)) == Ids(Flat(s.log)) + [d]
    ensures t.events == if appended then s.events + {d} else s.events
  {
    t := PostNext(s, d, os, appended, limit);
    PostedState(s, d, os, appended, limit, t);
    run := OneClean(s, Post(d, os, appended), t, limit);
  }

  lemma OneClean(s: Sys, st: Step, t: Sys, limit: Limit) returns (run: seq<Step>)
    requires Enabled(s, st) && CleanStep(st) && t == Next(s, st, limit)
    ensures Leads(s, run, t, limit) && SparesBut(run, Mentioned(st))
  {
    OneStep(s, st, t, limit);
    SparesOne(st);
    run := [st];
  }

  /** The run spares every agent to whose name none of these comes down. */
  ghost predicate SparesBut(run: seq<Step>, names: set<AgentId>)
  {
    forall a :: Unaliased(names, a) ==> SparesAll(run, a)
  }

  lemma SparesOne(st: Step)
    ensures SparesBut([st], Mentioned(st))
  {
  }

  lemma SparesBoth(run: seq<Step>, more: seq<Step>, names: set<AgentId>)
    requires SparesBut(run, {}) && SparesBut(more, names)
    ensures SparesBut(run + more, names)
  {
    forall a | Unaliased(names, a) ensures SparesAll(run + more, a) { assert Unaliased({}, a); }
  }

  /** Every durable or published id is one of the first k numbers. */
  predicate Below(ids: seq<Id>, events: set<Id>, k: nat)
  {
    (forall i :: 0 <= i < |ids| ==> |ids[i]| <= k) && (forall d :: d in events ==> |d| <= k)
  }

  lemma FreshNumber(ids: seq<Id>, events: set<Id>, k: nat, limit: Limit)
    requires Below(ids, events, k)
    ensures Numbered(k) !in events && Numbered(k) !in Last(ids, limit)
    ensures Below(ids + [Numbered(k)], events + {Numbered(k)}, k + 1)
  {
  }

  /** What n further decisions with their events leave of the ids and the events. */
  predicate Extends(ids: seq<Id>, events: set<Id>, ids': seq<Id>, events': set<Id>, k: nat, n: nat)
  {
    && |ids'| == |ids| + n && ids <= ids'
    && (forall i :: |ids| <= i < |ids'| ==> |ids'[i]| > k)
    && (forall d :: d in events' && |d| <= k ==> d in events)
  }

  lemma ExtendsStep(ids: seq<Id>, events: set<Id>, ids': seq<Id>, events': set<Id>, k: nat, n: nat)
    requires n > 0 && Extends(ids + [Numbered(k)], events + {Numbered(k)}, ids', events', k + 1, n - 1)
    ensures Extends(ids, events, ids', events', k, n)
  {
  }

  lemma {:induction false} Fill(s: Sys, os: seq<Outcome>, k: nat, n: nat, limit: Limit) returns (run: seq<Step>, t: Sys)
    requires Alone(s) && Below(Ids(Flat(s.log)), s.events, k) && k >= 1 && Clean(os)
    requires Inv(s, limit)
    ensures Leads(s, run, t, limit) && Alone(t) && Inv(t, limit)
    ensures Extends(Ids(Flat(s.log)), s.events, Ids(Flat(t.log)), t.events, k, n)
    decreases n
  {
    if n == 0 {
      run, t := [], s;
    } else {
      var d := Numbered(k);
      NumberedProper(k);
      FreshNumber(Ids(Flat(s.log)), s.events, k, limit);
      var first, u := PostLands(s, d, os, true, limit);
      var rest: seq<Step>;
      rest, t := Fill(u, os, k + 1, n - 1, limit);
      run := first + rest;
      LeadsOn(s, first, u, rest, t, limit);
      ExtendsStep(Ids(Flat(s.log)), s.events, Ids(Flat(t.log)), t.events, k, n);
    }
  }

  lemma BootOne(limit: Limit) returns (run: seq<Step>, t: Sys)
    ensures Leads(Init(1), run, t, limit) && Alone(t) && Inv(t, limit) && Blank(t)
    ensures SparesBut(run, {})
  {
    InitInv(1, limit);
    RunFolds(1, [], limit);
    LoadedInv(Init(1), 0, limit);
    t := Next(Init(1), Boot(0), limit);
    run := [Boot(0)];
    OneStep(Init(1), Boot(0), t, limit);
  }

  /** A decision without its event, and as many others as the limit. */
  lemma FirstForgotten(os: seq<Outcome>, limit: Limit) returns (run: seq<Step>, t: Sys)
    requires Clean(os)
    ensures Leads(Init(1), run, t, limit) && Alone(t) && Inv(t, limit)
    ensures var d, ids := Numbered(0), Ids(Flat(t.log));
            ids != [] && ids[0] == d && d !in t.events && d !in Last(ids, limit)
  {
    NumberedProper(0);
    var start, s := FirstRecorded(Numbered(0), os, false, limit);
    var rest;
    rest, t := Fill(s, os, 1, limit, limit);
    FirstIsForgotten(Ids(Flat(s.log)), Ids(Flat(t.log)), t.events, limit);
    LeadsOn(Init(1), start, s, rest, t, limit);
    run := start + rest;
  }

  lemma FirstRecorded(d: Id, os: seq<Outcome>, appended: bool, limit: Limit) returns (run: seq<Step>, s: Sys)
    requires Clean(os) && Proper(d) && Strip(d) == d
    ensures Leads(Init(1), run, s, limit) && Alone(s) && Inv(s, limit) && SparesBut(run, Agents(os))
    ensures Flat(s.log) == [Batch(d, os)] && Ids(Flat(s.log)) == [d] && s.events == if appended then {d} else {}
  {
    var start, before := BootOne(limit);
    NothingKnown(before, d, limit);
    run, s := RecordedAfter(Init(1), start, before, d, os, appended, limit);
    OnlyOne(before, s, d, os, appended);
  }

  /** Nothing is durable. */
  predicate Blank(s: Sys) { |Flat(s.log)| == |Ids(Flat(s.log))| == 0 && s.events == {} }

  lemma NothingKnown(s: Sys, d: Id, limit: Limit)
    requires Blank(s)
    ensures d !in s.events && d !in Last(Ids(Flat(s.log)), limit)
  {
  }

  lemma OnlyOne(before: Sys, s: Sys, d: Id, os: seq<Outcome>, appended: bool)
    requires Blank(before) && s.events == if appended then before.events + {d} else before.events
    requires Flat(s.log) == Flat(before.log) + [Batch(d, os)] && Ids(Flat(s.log)) == Ids(Flat(before.log)) + [d]
    ensures Flat(s.log) == [Batch(d, os)] && Ids(Flat(s.log)) == [d] && s.events == if appended then {d} else {}
  {
  }

  lemma RecordedAfter(s0: Sys, start: seq<Step>, before: Sys, d: Id, os: seq<Outcome>, appended: bool, limit: Limit)
    returns (run: seq<Step>, s: Sys)
    requires Leads(s0, start, before, limit) && SparesBut(start, {}) && Alone(before) && Inv(before, limit)
    requires Proper(d) && Strip(d) == d && Clean(os) && d !in before.events && d !in Last(Ids(Flat(before.log)), limit)
    ensures Leads(s0, run, s, limit) && Alone(s) && Inv(s, limit) && SparesBut(run, Agents(os))
    ensures Flat(s.log) == Flat(before.log) + [Batch(d, os)] && Ids(Flat(s.log)) == Ids(Flat(before.log)) + [d]
    ensures s.events == if appended then before.events + {d} else before.events
  {
    var posts;
    posts, s := PostLands(before, d, os, appended, limit);
    run := LeadsBoth(s0, start, before, posts, s, limit, Agents(os));
  }

  lemma LeadsBoth(s: Sys, a: seq<Step>, t: Sys, b: seq<Step>, u: Sys, limit: Limit, names: set<AgentId>)
    returns (run: seq<Step>)
    requires Leads(s, a, t, limit) && Leads(t, b, u, limit)
    ensures Leads(s, run, u, limit) && (SparesBut(a, {}) && SparesBut(b, names) ==> SparesBut(run, names))
  {
    LeadsOn(s, a, t, b, u, limit);
    run := a + b;
    if SparesBut(a, {}) && SparesBut(b, names) { SparesBoth(a, b, names); }
  }

  /** ... and then the first one again. */
  lemma OnceAndAgain(os: seq<Outcome>, limit: Limit) returns (run: seq<Step>, t: Sys)
    requires Clean(os)
    ensures Leads(Init(1), run, t, limit) && !Unique(Ids(Flat(t.log)))
  {
    var d := Numbered(0);
    NumberedProper(0);
    var before, s := FirstForgotten(os, limit);
    var again;
    again, t := PostLands(s, d, os, true, limit);
    FirstAgain(Ids(Flat(s.log)), Ids(Flat(t.log)), d);
    LeadsOn(Init(1), before, s, again, t, limit);
    run := before + again;
  }

  lemma FirstAgain(ids: seq<Id>, ids': seq<Id>, d: Id)
    requires ids != [] && ids[0] == d && ids' == ids + [d]
    ensures !Unique(ids')
  {
    assert ids'[0] == ids'[|ids|];
  }

  /** For every history limit there is a run with a single lost event append, one process and clean batches only,
      after which a retried decision has taken effect twice. */
  lemma LimitPlusOneForgets(os: seq<Outcome>, limit: Limit) returns (run: seq<Step>)
    requires Clean(os)
    ensures Valid(Init(1), run, limit) && CleanRun(run)
    ensures !Unique(Ids(Flat(After(Init(1), run, limit).log)))
  {
    var t: Sys;
    run, t := OnceAndAgain(os, limit);
  }

  lemma FirstIsForgotten(ids: seq<Id>, ids': seq<Id>, events: set<Id>, limit: Limit)
    requires ids == [Numbered(0)] && Extends(ids, {}, ids', events, 1, limit)
    ensures ids' != [] && ids'[0] == Numbered(0) && Numbered(0) !in events && Numbered(0) !in Last(ids', limit)
  {
  }

  // ---------------------------------------------------------------------------------------
  // Batches that are refused half way

  /** A batch refused for an unsupported regime leaves memory as it was exactly when its first outcome is the
      unsupported one: the outcomes before the offender stay recorded. */
  lemma RefusedBatchLeaksIff(s: Sys, st: Step, limit: Limit)
    requires Enabled(s, st) && st.Record? && !Ignored(s, st) && !KnownRegimes(st.outcomes)
    ensures var t := Next(s, st, limit);
            && (t.procs[st.p].mem == s.procs[st.p].mem <==> st.outcomes[0].regime !in REGIMES)
            && t.payload == s.payload && t.log == s.log && t.events == s.events
  {
    var k := Accepted(st.outcomes);
    var mem := s.procs[st.p].mem;
    var os := st.outcomes[..k];
    if k == 0 {
      assert mem.history + os == mem.history;
    } else {
      assert os[0] == st.outcomes[0] && os[0].regime in REGIMES;
      assert |Remember(mem, os).history| > |mem.history|;
    }
  }

  lemma LandsLog(s: Sys, st: Step, u: Sys, limit: Limit)
    requires Enabled(s, st) && Lands(s, st) && !Ignored(s, st) && u == Next(s, st, limit)
    ensures u.log == s.log + [Commit(s.procs[st.p], Strip(st.id), st.outcomes)]
  {
    RecordedLog(s, st, limit);
  }

  /** What a write that takes effect makes durable. */
  lemma LandsCommits(s: Sys, st: Step, u: Sys, limit: Limit)
    requires Enabled(s, st) && Lands(s, st) && !Ignored(s, st) && s.version == |s.log| && u == Next(s, st, limit)
    ensures Flat(u.log) == Timeline(s, s.procs[st.p]) + [Batch(Strip(st.id), st.outcomes)]
  {
    LandsLog(s, st, u, limit);
    FlatLanded(s, s.procs[st.p], Strip(st.id), st.outcomes);
  }

  /** What a batch refused half way left is made durable by the next write of its process that takes effect, under
      the other decision's id: the stored reputations then count the accepted part of the refused batch as well,
      and once more if the batch is corrected and retried. */
  lemma LeakBecomesDurable(s: Sys, t: Sys, u: Sys, bad: Step, good: Step, limit: Limit)
    requires Enabled(s, bad) && bad.Record? && !Ignored(s, bad) && !KnownRegimes(bad.outcomes)
    requires s.procs[bad.p].version == s.version && s.procs[bad.p].extra == [] && t == Next(s, bad, limit)
    requires good.p == bad.p && Enabled(t, good) && Lands(t, good) && !Ignored(t, good) && u == Next(t, good, limit)
    requires Inv(s, limit)
    ensures Outcomes(Flat(u.log)) == Outcomes(Flat(s.log)) + bad.outcomes[..Accepted(bad.outcomes)] + good.outcomes
    ensures Ids(Flat(u.log)) == Ids(Flat(s.log)) + [Strip(good.id)]
    ensures forall a :: Proper(a) && AgentInv(s, a) && Spares(bad, a) && Spares(good, a) ==> StoredFor(u, a)
  {
    var os := bad.outcomes[..Accepted(bad.outcomes)];
    LeakedTimeline(s, bad.p, os);
    LeaksNext(s, bad, t, limit);
    LandsCommits(t, good, u, limit);
    TwoEntries(Flat(s.log), Part(os), Batch(Strip(good.id), good.outcomes));
    forall a | Proper(a) && AgentInv(s, a) && Spares(bad, a) && Spares(good, a) ensures StoredFor(u, a) {
      StoredAfterTwo(s, bad, t, good, u, limit, a);
    }
  }

  lemma LeaksNext(s: Sys, bad: Step, t: Sys, limit: Limit)
    requires Enabled(s, bad) && bad.Record? && !Ignored(s, bad) && !KnownRegimes(bad.outcomes)
    requires t == Next(s, bad, limit)
    ensures t == Leaked(s, bad.p, bad.outcomes[..Accepted(bad.outcomes)])
  {
  }

  lemma StoredAfterTwo(s: Sys, st: Step, t: Sys, after: Step, u: Sys, limit: Limit, a: AgentId)
    requires Enabled(s, st) && t == Next(s, st, limit) && Enabled(t, after) && u == Next(t, after, limit)
    requires Proper(a) && Spares(st, a) && Spares(after, a)
    requires Inv(s, limit) && AgentInv(s, a)
    ensures StoredFor(u, a)
  {
    NextInv(s, st, limit);
    StepTracks(s, st, limit, a);
    StepTracks(t, after, limit, a);
    StoreIsFold(u, a);
  }

  lemma LeakedTimeline(s: Sys, p: nat, os: seq<Outcome>)
    requires p < |s.procs| && s.procs[p].Up? && s.procs[p].version == |s.log| && s.procs[p].extra == []
    ensures Timeline(Leaked(s, p, os), Leaked(s, p, os).procs[p]) == Flat(s.log) + [Part(os)]
  {
    assert s.log[..|s.log|] == s.log && [] + [Part(os)] == [Part(os)];
  }

  lemma TwoEntries(es: seq<Entry>, e: Entry, f: Entry)
    requires e.id.None? && f.id.Some?
    ensures Outcomes(es + [e] + [f]) == Outcomes(es) + e.outcomes + f.outcomes
    ensures Ids(es + [e] + [f]) == Ids(es) + [f.id.value]
  {
    EntryAppend(es, e);
    EntryAppend(es + [e], f);
    assert Ids(es) + [] == Ids(es);
  }

  // ---------------------------------------------------------------------------------------
  // Outcomes that cannot be read back

  lemma RolledBackProcessed(s: Sys, q: Proc, d: Id, os: seq<Outcome>, limit: Limit)
    requires q.Up? && ProcInv(s, q, limit) && d !in q.mem.ids
    ensures d !in RolledBack(q, d, os, limit).mem.ids <==> Restore(Serialize(q.mem, limit), limit).Some?
  {
    var r := Restore(Serialize(q.mem, limit), limit);
    Restored(q.mem, Timeline(s, q), limit);
    if r.Some? {
      assert Last(r.value.ids, limit) == Last(q.mem.ids, limit);
    } else {
      NewestId(q.mem.ids, d, limit);
    }
  }

  lemma NewestId(ids: seq<Id>, d: Id, limit: Limit)
    ensures d in Last(ids + [d], limit)
  {
    var all := Last(ids + [d], limit);
    assert all[|all| - 1] == d;
  }

  /** A failed write leaves its decision open to a retry exactly when the memory before it could be read back;
      otherwise the process takes the decision for recorded although no write took effect. */
  lemma FailedWriteRetriableIff(s: Sys, st: Step, t: Sys, limit: Limit)
    requires Enabled(s, st) && st.Record? && !Ignored(s, st) && KnownRegimes(st.outcomes)
    requires s.procs[st.p].version != s.version || st.write.Lost?
    requires t == Next(s, st, limit)
    requires Inv(s, limit)
    ensures t == s.(procs := t.procs) && |t.procs| == |s.procs| && t.procs[st.p].Up?
    ensures !Processed(t, t.procs[st.p], Strip(st.id))
            <==> Restore(Serialize(s.procs[st.p].mem, limit), limit).Some?
  {
    assert ProcInv(s, s.procs[st.p], limit);
    RefusedNext(s, st, t, limit);
    RolledBackProcessed(s, s.procs[st.p], Strip(st.id), st.outcomes, limit);
  }

  lemma RefusedNext(s: Sys, st: Step, t: Sys, limit: Limit)
    requires Enabled(s, st) && st.Record? && !Ignored(s, st) && KnownRegimes(st.outcomes)
    requires s.procs[st.p].version != s.version || st.write.Lost?
    requires t == Next(s, st, limit)
    ensures t == s.(procs := t.procs) && |t.procs| == |s.procs|
    ensures t.procs[st.p] == RolledBack(s.procs[st.p], Strip(st.id), st.outcomes, limit)
  {
  }

  /** Nothing can be loaded from a store whose newest outcome is out of range. */
  lemma UnreadableStore(t: Sys, before: seq<Entry>, e: Entry, limit: Limit)
    requires DurableInv(t, limit) && Flat(t.log) == before + [e] && |e.outcomes| == 1 && !Readable(e.outcomes[0])
    ensures Restore(t.payload, limit).None?
  {
    DurableReadable(t, limit);
    EntryAppend(before, e);
    NewestUnreadable(Outcomes(before), e.outcomes, limit);
  }

  lemma NewestUnreadable(h: seq<Outcome>, os: seq<Outcome>, limit: Limit)
    requires |os| == 1 && !Readable(os[0])
    ensures !AllReadable(Last(h + os, limit))
  {
    var all := Last(h + os, limit);
    assert all[|all| - 1] == os[0];
  }

  lemma Stuck(t: Sys, limit: Limit)
    requires |t.procs| == 1 && t.procs[0].Up? && Restore(t.payload, limit).None?
    ensures Next(t, Reload(0), limit) == t
    ensures Next(Next(t, Crash(0), limit), Boot(0), limit) == Next(t, Crash(0), limit)
  {
  }

  /** Recording accepts an outcome that cannot be read back, a negative drawdown contribution for instance, and
      makes it durable; from then on no process can start or reload until newer outcomes push it out. */
  lemma AcceptedButUnreadable(s: Sys, t: Sys, d: Id, o: Outcome, limit: Limit)
    requires Alone(s) && Inv(s, limit) && Proper(d) && Strip(d) == d && !Processed(s, s.procs[0], d)
    requires o.regime in REGIMES && !Readable(o)
    requires Enabled(s, Post(d, [o], true)) && t == Next(s, Post(d, [o], true), limit)
    ensures |t.procs| == 1 && t.procs[0].Up? && t.log == s.log + [[Batch(d, [o])]]
    ensures Next(t, Reload(0), limit) == t
    ensures Next(Next(t, Crash(0), limit), Boot(0), limit) == Next(t, Crash(0), limit)
  {
    NextIsAcked(s, d, [o], true, limit);
    AckedInv(s, 0, d, [o], limit, true);
    AloneKnows(s, limit);
    FlatLanded(s, s.procs[0], d, [o]);
    assert [] + [Batch(d, [o])] == [Batch(d, [o])];
    UnreadableStore(t, Timeline(s, s.procs[0]), Batch(d, [o]), limit);
    Stuck(t, limit);
  }
}
