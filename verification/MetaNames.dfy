/** Asking about a name that comes down to another agent's when reading strips it. */
module MetaNames {
  import opened Common
  import opened MetaAI
  import opened MetaFailures
  import opened MetaIdempotence
  import opened MetaPayload
  import opened MetaPersistence
  import opened MetaReputation
  import opened Text

  lemma {:induction false} LearnsNothing(rep: Reputation, os: seq<Outcome>, a: AgentId)
    requires a !in Agents(os)
    ensures Learned(rep, os, a) == rep
  {
    if os != [] { LearnsNothing(rep, os[..|os| - 1], a); }
  }

  /** None of these names comes down to a. */
  predicate Elsewhere(names: set<AgentId>, a: AgentId) { forall x :: x in names ==> Strip(x) != a }

  function AskedAndRecorded(b: Board, n: AgentId, os: seq<Outcome>): Board { RecordAll(Seated(b, {n}), os) }

  lemma OthersRecorded(b: Board, os: seq<Outcome>, x: AgentId)
    requires x in b && x !in Agents(os)
    ensures x in RecordAll(b, os) && RecordAll(b, os)[x] == b[x]
  {
    LookupLearned(b, os, x);
    LearnsNothing(Lookup(b, x), os, x);
    RecordAllKeys(b, os);
  }

  /** Reputations before and after: those of a and n as they were, and nobody else coming down to a. */
  lemma AskedBoard(b: Board, n: AgentId, os: seq<Outcome>, a: AgentId) returns (c: Board)
    requires SoundBoard(b) && Proper(a) && a in b && Unaliased(b.Keys, a) && n != a && Strip(n) == a
    requires KnownRegimes(os) && Elsewhere(Agents(os), a)
    ensures c == AskedAndRecorded(b, n, os) && SoundBoard(c)
    ensures a in c && n in c && c[a] == b[a] && c[n] == FRESH
    ensures forall x :: x in c && Strip(x) == a ==> x in {a, n}
  {
    var asked := Seated(b, {n});
    c := AskedAndRecorded(b, n, os);
    StripFacts(a);
    RecordAllSound(asked, os);
    RecordAllKeys(asked, os);
    OthersRecorded(asked, os, a);
    OthersRecorded(asked, os, n);
  }

  /** What reading back makes of a after n, which comes down to a, was asked about: a fresh reputation when n is the
      later name in order. */
  lemma ConsultedBoard(b: Board, n: AgentId, os: seq<Outcome>, a: AgentId, m: Board)
    requires SoundBoard(b) && Proper(a) && a in b && Unaliased(b.Keys, a) && n != a && Strip(n) == a
    requires KnownRegimes(os) && Elsewhere(Agents(os), a)
    requires ReadBoard(StoreBoard(AskedAndRecorded(b, n, os))) == Some(m)
    ensures Lookup(m, a) == if Leq(a, n) then FRESH else b[a]
  {
    var c := AskedBoard(b, n, os, a);
    BoardIsRead(c);
    LaterNameTakes(c, a, n);
  }

  lemma LandsPayload(s: Sys, st: Step, u: Sys, limit: Limit)
    requires Enabled(s, st) && Lands(s, st) && !Ignored(s, st) && u == Next(s, st, limit)
    ensures u.payload == Serialize(Grown(s.procs[st.p].mem, Strip(st.id), st.outcomes, limit), limit)
    ensures |u.procs| == |s.procs|
  {
  }

  lemma RestoredBoard(p: Payload, limit: Limit)
    requires Restore(p, limit).Some?
    ensures ReadBoard(p.reputations) == Some(Restore(p, limit).value.board)
  {
  }

  /** What is stored, and can be read, after asking about n and recording. */
  lemma StoredAfterAsking(s: Sys, t: Sys, n: AgentId, post: Step, u: Sys, limit: Limit)
    requires Enabled(s, Consult(post.p, {n})) && t == Consulted(s, post.p, {n})
    requires Enabled(t, post) && Lands(t, post) && !Ignored(t, post) && u == Next(t, post, limit)
    requires CanRead(Flat(u.log), limit)
    requires Inv(s, limit)
    ensures Inv(u, limit) && |u.procs| == |s.procs| && Restore(u.payload, limit).Some?
    ensures ReadBoard(StoreBoard(AskedAndRecorded(s.procs[post.p].mem.board, n, post.outcomes)))
            == Some(Restore(u.payload, limit).value.board)
  {
    AskedInv(s, post.p, {n}, limit);
    NextInv(t, post, limit);
    DurableReadable(u, limit);
    LandsPayload(t, post, u, limit);
    RestoredBoard(u.payload, limit);
  }

  /** When a name that comes down to a is asked about and its process then records anything of others, whoever starts
      or reloads has lost a's reputation exactly when the name comes later in order. */
  lemma ConsultationWipesIff(s: Sys, t: Sys, n: AgentId, post: Step, u: Sys, limit: Limit, a: AgentId)
    requires Enabled(s, Consult(post.p, {n})) && t == Consulted(s, post.p, {n})
    requires Enabled(t, post) && Lands(t, post) && !Ignored(t, post) && u == Next(t, post, limit)
    requires CanRead(Flat(u.log), limit)
    requires Proper(a) && n != a && Strip(n) == a && Elsewhere(Agents(post.outcomes), a)
    requires a in s.procs[post.p].mem.board && Unaliased(s.procs[post.p].mem.board.Keys, a)
    requires Inv(s, limit)
    ensures |u.procs| == |s.procs| && Restore(u.payload, limit).Some?
    ensures Lookup(Restore(u.payload, limit).value.board, a)
            == if Leq(a, n) then FRESH else s.procs[post.p].mem.board[a]
  {
    assert ProcInv(s, s.procs[post.p], limit);
    StoredAfterAsking(s, t, n, post, u, limit);
    ConsultedBoard(s.procs[post.p].mem.board, n, post.outcomes, a, Restore(u.payload, limit).value.board);
  }

  // ---------------------------------------------------------------------------------------
  // A run in which it happens

  lemma RunTracksAlone(run: seq<Step>, s: Sys, limit: Limit, a: AgentId)
    requires Leads(Init(1), run, s, limit) && SparesAll(run, a) && Proper(a) && Alone(s) && Inv(s, limit)
    ensures Tracks(s.procs[0].mem.board, Flat(s.log), a)
  {
    InitTracks(1, limit, a);
    InitInv(1, limit);
    RunTracks(Init(1), run, limit, a);
    AloneKnows(s, limit);
    assert ProcTracks(s, s.procs[0], a);
  }

  lemma OnlyAgent(o: Outcome)
    ensures Agents([o]) == {o.agent}
  {
    assert [o][..0] == [];
  }

  /** A process that has recorded one outcome of a. */
  lemma OneLearned(d: Id, a: AgentId, o: Outcome, limit: Limit) returns (run: seq<Step>, s: Sys)
    requires Proper(a) && o.agent == a && Clean([o]) && Proper(d) && Strip(d) == d
    ensures Leads(Init(1), run, s, limit) && Alone(s) && Inv(s, limit)
    ensures Flat(s.log) == [Batch(d, [o])] && s.events == {d}
    ensures Tracks(s.procs[0].mem.board, Flat(s.log), a)
  {
    run, s := FirstRecorded(d, [o], true, limit);
    OnlyAgent(o);
    RunTracksAlone(run, s, limit, a);
  }

  /** Asking leaves a decision that nothing remembers open to be recorded. */
  lemma StillLands(s: Sys, n: AgentId, d: Id, os: seq<Outcome>, limit: Limit)
    requires Alone(s) && Inv(s, limit) && Proper(d) && Strip(d) == d && Clean(os)
    requires d !in s.events && d !in Last(Ids(Flat(s.log)), limit)
    ensures var t, st := Consulted(s, 0, {n}), Post(d, os, true); Enabled(t, st) && Lands(t, st) && !Ignored(t, st)
  {
    AloneKnows(s, limit);
    ProcessedExactly(s, s.procs[0], d, limit);
  }

  lemma AsksNext(s: Sys, n: AgentId, limit: Limit) returns (t: Sys)
    requires Alone(s) && Inv(s, limit)
    ensures t == Consulted(s, 0, {n}) && Leads(s, [Consult(0, {n})], t, limit) && Enabled(s, Consult(0, {n}))
    ensures Timeline(t, t.procs[0]) == Flat(s.log) + [Question({n})] && t.version == |t.log| && Inv(t, limit)
  {
    t := Consulted(s, 0, {n});
    AloneKnows(s, limit);
    AskedInv(s, 0, {n}, limit);
    OneStep(s, Consult(0, {n}), t, limit);
    assert s.log[..|s.log|] == s.log && [] + [Question({n})] == [Question({n})];
  }

  lemma StillSane(es: seq<Entry>, n: AgentId, d: Id, other: Outcome, limit: Limit)
    requires Sane(es) && Strip(n) != "" && Clean([other])
    ensures CanRead(es + [Question({n})] + [Batch(d, [other])], limit)
  {
    OnlyAgent(other);
    StripFacts(other.agent);
    ReadableEntry(es, Question({n}));
    ReadableEntry(es + [Question({n})], Batch(d, [other]));
  }

  lemma PostsNext(t: Sys, post: Step, limit: Limit) returns (u: Sys)
    requires Enabled(t, post) && Lands(t, post) && !Ignored(t, post) && t.version == |t.log| && Clean(post.outcomes)
    ensures u == Next(t, post, limit) && Leads(t, [post], u, limit)
    ensures Flat(u.log) == Timeline(t, t.procs[post.p]) + [Batch(Strip(post.id), post.outcomes)]
  {
    u := Next(t, post, limit);
    OneStep(t, post, u, limit);
    LandsCommits(t, post, u, limit);
  }

  lemma ReloadsNext(u: Sys, limit: Limit) returns (v: Sys)
    requires |u.procs| == 1 && u.procs[0].Up? && Restore(u.payload, limit).Some?
    ensures Leads(u, [Reload(0)], v, limit) && v.log == u.log && |v.procs| == 1 && v.procs[0].Up?
    ensures v.procs[0].mem == Restore(u.payload, limit).value
  {
    v := Loaded(u, 0, limit);
    OneStep(u, Reload(0), v, limit);
  }

  lemma StaysUp(t: Sys, post: Step, u: Sys, limit: Limit)
    requires |t.procs| == 1 && Enabled(t, post) && post.Record? && u == Next(t, post, limit)
    ensures |u.procs| == 1 && u.procs[0].Up?
  {
  }

  /** Asking and recording, from a state that remembers nothing of the new decision. */
  lemma AskRecord(s: Sys, n: AgentId, d: Id, other: Outcome, limit: Limit, a: AgentId)
    returns (run: seq<Step>, u: Sys)
    requires Alone(s) && Inv(s, limit) && Proper(d) && Strip(d) == d && Clean([other])
    requires d !in s.events && d !in Last(Ids(Flat(s.log)), limit) && Sane(Flat(s.log))
    requires Proper(a) && n != a && Strip(n) == a && Leq(a, n) && Strip(other.agent) != a
    requires a in s.procs[0].mem.board && Unaliased(s.procs[0].mem.board.Keys, a)
    ensures Leads(s, run, u, limit) && Flat(u.log) == Flat(s.log) + [Question({n})] + [Batch(d, [other])]
    ensures |u.procs| == 1 && u.procs[0].Up? && Restore(u.payload, limit).Some?
    ensures Lookup(Restore(u.payload, limit).value.board, a) == FRESH
  {
    var post := Post(d, [other], true);
    var t := AsksNext(s, n, limit);
    StillLands(s, n, d, [other], limit);
    u := PostsNext(t, post, limit);
    StaysUp(t, post, u, limit);
    StillSane(Flat(s.log), n, d, other, limit);
    OnlyAgent(other);
    ConsultationWipesIff(s, t, n, post, u, limit, a);
    run := LeadsBoth(s, [Consult(0, {n})], t, [post], u, limit, {});
  }

  /** There is a run of clean batches in which asking about a name wipes what an agent had learned:
      its durable outcomes make a reputation of it that nobody holds. */
  lemma ConsultationWipes(a: AgentId, n: AgentId, o: Outcome, other: Outcome, limit: Limit)
    returns (run: seq<Step>, v: Sys)
    requires Proper(a) && n != a && Strip(n) == a && Leq(a, n)
    requires Clean([o]) && o.agent == a && Clean([other]) && Strip(other.agent) != a
    ensures Leads(Init(1), run, v, limit)
    ensures Folded(Flat(v.log), a) == Recorded(FRESH, o)
    ensures |v.procs| == 1 && v.procs[0].Up? && Lookup(v.procs[0].mem.board, a) == FRESH
  {
    NumberedProper(0);
    NumberedProper(1);
    assert Numbered(1) != Numbered(0) by { assert |Numbered(1)| == 2; }
    run, v := WipedAfter(Numbered(0), Numbered(1), a, n, o, other, limit);
  }

  lemma WipedAfter(d: Id, d': Id, a: AgentId, n: AgentId, o: Outcome, other: Outcome, limit: Limit)
    returns (run: seq<Step>, v: Sys)
    requires Proper(a) && n != a && Strip(n) == a && Leq(a, n)
    requires Clean([o]) && o.agent == a && Clean([other]) && Strip(other.agent) != a
    requires Proper(d) && Strip(d) == d && Proper(d') && Strip(d') == d' && d != d'
    ensures Leads(Init(1), run, v, limit)
    ensures Folded(Flat(v.log), a) == Recorded(FRESH, o)
    ensures |v.procs| == 1 && v.procs[0].Up? && Lookup(v.procs[0].mem.board, a) == FRESH
  {
    var start, s := OneLearned(d, a, o, limit);
    OneEntry(d, o);
    StripFacts(a);
    LearnedOnce([Batch(d, [o])], d', a, n, o, other);
    var rest, u := AskRecord(s, n, d', other, limit, a);
    v := ReloadsNext(u, limit);
    rest := LeadsBoth(s, rest, u, [Reload(0)], v, limit, {});
    run := LeadsBoth(Init(1), start, s, rest, v, limit, {});
  }

  lemma OneEntry(d: Id, o: Outcome)
    requires Clean([o])
    ensures var es := [Batch(d, [o])]; Outcomes(es) == [o] && Ids(es) == [d] && Names(es) == {o.agent} && Sane(es)
  {
    var e := Batch(d, [o]);
    assert [] + [e] == [e] && [] + [o] == [o];
    EntryAppend([], e);
    OnlyAgent(o);
    StripFacts(o.agent);
    ReadableEntry([], e);
  }

  lemma LearnedOnce(es: seq<Entry>, d: Id, a: AgentId, n: AgentId, o: Outcome, other: Outcome)
    requires Outcomes(es) == [o] && o.agent == a && other.agent != a
    ensures Folded(es + [Question({n})] + [Batch(d, [other])], a) == Recorded(FRESH, o)
  {
    QuestionAppend(es, {n});
    EntryAppend(es + [Question({n})], Batch(d, [other]));
    LearnedConcat(FRESH, [o], [other], a);
    OnlyAgent(other);
    LearnsNothing(Learned(FRESH, [o], a), [other], a);
    assert [o][..0] == [];
  }
}
