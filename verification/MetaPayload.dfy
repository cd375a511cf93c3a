/** How reputations, history and processed ids are written to the store and read back, item by item. */
module MetaPayload {
  import opened Common
  import opened MetaAI
  import opened Text

  type Id = string

  /** What the process holds in memory. */
  datatype State = State(board: Board, history: seq<Outcome>, ids: seq<Id>)

  datatype StoredReputation =
    StoredReputation(agent: string, total: int, correct: int, errorSum: real, pnl: real, drawdown: real,
                     regimeTotal: map<string, int>, regimeCorrect: map<string, int>)

  datatype StoredOutcome =
    StoredOutcome(agent: string, predicted: string, realized: string, confidence: real, pnl: real, drawdown: real,
                  regime: string)

  datatype Payload =
    Payload(schema: int, reputations: seq<StoredReputation>, history: seq<StoredOutcome>, ids: seq<string>)

  /** The history limit is clamped to at least one. */
  type Limit = n: int | n >= 1 witness 1

  const EMPTY := State(map[], [], [])

  const SCHEMA: int := 1

  // ---------------------------------------------------------------------------------------
  // Writing

  function StoreReputation(a: AgentId, rep: Reputation): StoredReputation
  {
    StoredReputation(a, rep.total, rep.correct, rep.errorSum, rep.pnl, rep.drawdown, rep.regimeTotal, rep.regimeCorrect)
  }

  function Store(o: Outcome): StoredOutcome
  {
    StoredOutcome(o.agent, o.predicted, o.realized, o.confidence, o.pnl, o.drawdown, o.regime)
  }

  /** The reputations in the order of their agents. */
  function StoreBoard(b: Board): seq<StoredReputation>
  {
    var keys := SortedKeys(b.Keys);
    seq(|keys|, i requires 0 <= i < |keys| => assert keys[i] in keys; StoreReputation(keys[i], b[keys[i]]))
  }

  function StoreHistory(h: seq<Outcome>): seq<StoredOutcome> { seq(|h|, i requires 0 <= i < |h| => Store(h[i])) }

  function Serialize(s: State, limit: Limit): Payload
  {
    Payload(SCHEMA, StoreBoard(s.board), StoreHistory(Last(s.history, limit)), Last(s.ids, limit))
  }

  // ---------------------------------------------------------------------------------------
  // Reading

  /** Counts of known regimes. */
  predicate Counts(m: map<string, int>) { forall r :: r in m ==> r in REGIMES && m[r] >= 0 }

  predicate Bounded(part: map<string, int>, whole: map<string, int>)
  {
    forall r :: r in part ==> part[r] <= if r in whole then whole[r] else 0
  }

  function ReadReputation(r: StoredReputation): Option<Reputation>
  {
    if Strip(r.agent) == "" || r.total < 0 || r.correct < 0 || r.correct > r.total then None
    else if !Counts(r.regimeTotal) || !Counts(r.regimeCorrect) || !Bounded(r.regimeCorrect, r.regimeTotal) then None
    else if r.errorSum < 0.0 || r.drawdown < 0.0 then None
    else
      var regimeTotal: map<Regime, nat> := map k | k in r.regimeTotal :: r.regimeTotal[k];
      var regimeCorrect: map<Regime, nat> := map k | k in r.regimeCorrect :: r.regimeCorrect[k];
      Some(Reputation(r.total, r.correct, r.errorSum, r.pnl, r.drawdown, regimeTotal, regimeCorrect))
  }

  /** A later entry of the same agent replaces an earlier one. */
  function ReadBoard(rs: seq<StoredReputation>): Option<Board>
  {
    if rs == [] then Some(map[])
    else
      var b, r := ReadBoard(rs[..|rs| - 1]), rs[|rs| - 1];
      if b.None? || ReadReputation(r).None? then None else Some(b.value[Strip(r.agent) := ReadReputation(r).value])
  }

  /** Confidence and drawdown as reading demands them. Recording does not. */
  predicate InRange(confidence: real, drawdown: real) { 0.0 <= confidence <= 1.0 && drawdown >= 0.0 }

  predicate Readable(o: Outcome) { InRange(o.confidence, o.drawdown) }

  function ReadOutcome(o: StoredOutcome): Option<Outcome>
  {
    if o.regime !in REGIMES || !InRange(o.confidence, o.drawdown) then None
    else Some(Outcome(Strip(o.agent), Strip(o.predicted), Strip(o.realized), o.confidence, o.pnl, o.drawdown, o.regime))
  }

  function ReadHistory(h: seq<StoredOutcome>): Option<seq<Outcome>>
  {
    if h == [] then Some([])
    else
      var before, o := ReadHistory(h[..|h| - 1]), ReadOutcome(h[|h| - 1]);
      if before.None? || o.None? then None else Some(before.value + [o.value])
  }

  function ReadIds(ids: seq<string>): Option<seq<Id>>
  {
    if ids == [] then Some([])
    else
      var before, d := ReadIds(ids[..|ids| - 1]), Strip(ids[|ids| - 1]);
      if before.None? || d == "" then None else Some(before.value + [d])
  }

  function Restore(p: Payload, limit: Limit): Option<State>
  {
    var b, h, ids := ReadBoard(p.reputations), ReadHistory(Last(p.history, limit)), ReadIds(Last(p.ids, limit));
    if p.schema != SCHEMA || b.None? || h.None? || ids.None? then None else Some(State(b.value, h.value, ids.value))
  }

  // ---------------------------------------------------------------------------------------
  // Reputations come back

  predicate Proper(name: string) { name != "" && Stripped(name) }

  /** A reputation that recording can build is read back as it was, under any name that is not blank. */
  lemma ReputationComesBack(a: AgentId, rep: Reputation)
    requires Sound(rep)
    ensures ReadReputation(StoreReputation(a, rep)) == if Strip(a) == "" then None else Some(rep)
  {
    var r := StoreReputation(a, rep);
    assert (map k | k in r.regimeTotal :: r.regimeTotal[k]) == rep.regimeTotal;
    assert (map k | k in r.regimeCorrect :: r.regimeCorrect[k]) == rep.regimeCorrect;
  }

  /** These entries are the reputations of these agents. */
  ghost predicate Lists(rs: seq<StoredReputation>, keys: seq<AgentId>, b: Board)
  {
    |rs| == |keys| && forall i :: 0 <= i < |keys| ==> keys[i] in b && rs[i] == StoreReputation(keys[i], b[keys[i]])
  }

  function Only(b: Board, keys: seq<AgentId>): Board { map a | a in b && a in keys :: b[a] }

  lemma {:induction false} ListComesBack(rs: seq<StoredReputation>, keys: seq<AgentId>, b: Board)
    requires SoundBoard(b) && Lists(rs, keys, b) && forall i :: 0 <= i < |keys| ==> Proper(keys[i])
    ensures ReadBoard(rs) == Some(Only(b, keys))
  {
    if rs != [] {
      var n := |rs| - 1;
      ListComesBack(rs[..n], keys[..n], b);
      StripFacts(keys[n]);
      ReputationComesBack(keys[n], b[keys[n]]);
      assert Only(b, keys) == Only(b, keys[..n])[keys[n] := b[keys[n]]];
    } else {
      assert Only(b, keys) == map[];
    }
  }

  predicate AnyBlank(names: set<string>) { exists n :: n in names && Strip(n) == "" }

  /** This reputation is the one of the last name that comes down to x. */
  predicate LastOf(keys: seq<AgentId>, i: nat, x: AgentId)
  {
    i < |keys| && Strip(keys[i]) == x && forall j :: i < j < |keys| ==> Strip(keys[j]) != x
  }

  /** What a list is read as: every entry under its stripped name, the last one of equal names. */
  ghost predicate LastWins(m: Board, keys: seq<AgentId>, b: Board)
  {
    && (forall x :: x in m ==> exists i: nat :: LastOf(keys, i, x))
    && forall i: nat, x :: LastOf(keys, i, x) ==> x in m && keys[i] in b && m[x] == b[keys[i]]
  }

  lemma LastWinsAppend(m: Board, keys: seq<AgentId>, k: AgentId, b: Board)
    requires LastWins(m, keys, b) && k in b
    ensures LastWins(m[Strip(k) := b[k]], keys + [k], b)
  {
    var all, m', n := keys + [k], m[Strip(k) := b[k]], |keys|;
    assert LastOf(all, n, Strip(k));
    forall i: nat, x | LastOf(all, i, x) ensures x in m' && all[i] in b && m'[x] == b[all[i]] {
      if i < n {
        assert all[n] == k;
        assert LastOf(keys, i, x) by { assert forall j :: i < j < n ==> all[j] == keys[j]; }
      }
    }
    forall x | x in m' ensures exists i: nat :: LastOf(all, i, x) {
      if x != Strip(k) {
        var i: nat :| LastOf(keys, i, x);
        assert LastOf(all, i, x);
      }
    }
  }

  lemma {:induction false} ListIsRead(rs: seq<StoredReputation>, keys: seq<AgentId>, b: Board)
    requires SoundBoard(b) && Lists(rs, keys, b)
    ensures ReadBoard(rs).Some? <==> forall i :: 0 <= i < |keys| ==> Strip(keys[i]) != ""
    ensures ReadBoard(rs).Some? ==> LastWins(ReadBoard(rs).value, keys, b)
  {
    if rs != [] {
      var n := |rs| - 1;
      ListIsRead(rs[..n], keys[..n], b);
      ReputationComesBack(keys[n], b[keys[n]]);
      assert keys == keys[..n] + [keys[n]];
      if ReadBoard(rs).Some? { LastWinsAppend(ReadBoard(rs[..n]).value, keys[..n], keys[n], b); }
    }
  }

  /** Reading back reputations: nothing when an agent's name is blank, otherwise reputations that are as sound,
      under stripped names, each from the last agent in order that comes down to the name. */
  lemma BoardIsRead(b: Board)
    requires SoundBoard(b)
    ensures ReadBoard(StoreBoard(b)).Some? <==> !AnyBlank(b.Keys)
    ensures ReadBoard(StoreBoard(b)).Some? ==> LastWins(ReadBoard(StoreBoard(b)).value, SortedKeys(b.Keys), b)
    ensures ReadBoard(StoreBoard(b)).Some? ==>
              SoundBoard(ReadBoard(StoreBoard(b)).value) && !AnyBlank(ReadBoard(StoreBoard(b)).value.Keys)
  {
    var keys := SortedKeys(b.Keys);
    ListIsRead(StoreBoard(b), keys, b);
    assert forall i :: 0 <= i < |keys| ==> keys[i] in b.Keys;
    if ReadBoard(StoreBoard(b)).Some? {
      var m := ReadBoard(StoreBoard(b)).value;
      forall x | x in m ensures Sound(m[x]) && Strip(x) != "" {
        var i: nat :| LastOf(keys, i, x);
        StripFacts(keys[i]);
      }
    }
  }

  /** No other name comes down to a. */
  predicate Unaliased(names: set<AgentId>, a: AgentId) { forall n :: n in names && Strip(n) == a ==> n == a }

  /** An agent to whose name no other comes down keeps its reputation. */
  lemma ReadKeeps(b: Board, a: AgentId)
    requires SoundBoard(b) && Proper(a) && Unaliased(b.Keys, a) && ReadBoard(StoreBoard(b)).Some?
    ensures var m := ReadBoard(StoreBoard(b)).value;
            Lookup(m, a) == Lookup(b, a) && (a in m <==> a in b) && Unaliased(m.Keys, a)
  {
    BoardIsRead(b);
    KeptByRead(SortedKeys(b.Keys), ReadBoard(StoreBoard(b)).value, b, a);
  }

  lemma KeptByRead(keys: seq<AgentId>, m: Board, b: Board, a: AgentId)
    requires LastWins(m, keys, b) && Proper(a) && Unaliased(b.Keys, a)
    requires (forall x :: x in keys <==> x in b.Keys) && Unique(keys)
    ensures Lookup(m, a) == Lookup(b, a) && (a in m <==> a in b) && Unaliased(m.Keys, a)
  {
    StripFacts(a);
    if a in b {
      var i :| 0 <= i < |keys| && keys[i] == a;
      assert forall j :: i < j < |keys| ==> keys[j] != a && keys[j] in b.Keys;
      assert LastOf(keys, i, a);
    }
    forall x | x in m ensures x in m.Keys && Strip(x) == x && (x == a ==> a in b) {
      var i: nat :| LastOf(keys, i, x);
      assert keys[i] in b.Keys;
      StripFacts(keys[i]);
    }
  }

  /** Of two names that come down to a, the later one in order takes the reputation. */
  lemma LaterNameTakes(b: Board, a: AgentId, n: AgentId)
    requires SoundBoard(b) && Proper(a) && a in b && n in b && n != a && Strip(n) == a && !AnyBlank(b.Keys)
    requires forall x :: x in b && Strip(x) == a ==> x in {a, n}
    ensures ReadBoard(StoreBoard(b)).Some?
    ensures Lookup(ReadBoard(StoreBoard(b)).value, a) == if Leq(a, n) then b[n] else b[a]
  {
    var keys := SortedKeys(b.Keys);
    BoardIsRead(b);
    var i := LaterIsLast(b.Keys, a, n);
    assert LastOf(keys, i, a);
  }

  lemma LaterIsLast(names: set<AgentId>, a: AgentId, n: AgentId) returns (i: nat)
    requires Proper(a) && a in names && n in names && n != a && Strip(n) == a
    requires forall x :: x in names && Strip(x) == a ==> x in {a, n}
    ensures LastOf(SortedKeys(names), i, a) && SortedKeys(names)[i] == if Leq(a, n) then n else a
  {
    var keys, later := SortedKeys(names), if Leq(a, n) then n else a;
    StripFacts(a);
    LeqTotal(a, n);
    i :| 0 <= i < |keys| && keys[i] == later;
    forall j | i < j < |keys| ensures Strip(keys[j]) != a {
      assert keys[j] != keys[i] && Leq(keys[i], keys[j]);
      assert keys[j] in names;
    }
  }

  /** Whatever is read is filed under a stripped name. */
  lemma {:induction false} ReadNamesStripped(rs: seq<StoredReputation>, a: AgentId)
    requires ReadBoard(rs).Some? && a in ReadBoard(rs).value
    ensures Proper(a)
  {
    var n := |rs| - 1;
    StripFacts(rs[n].agent);
    if a != Strip(rs[n].agent) { ReadNamesStripped(rs[..n], a); }
  }

  /** The reputations come back exactly when every agent's name is stripped and not blank. */
  lemma BoardComesBack(b: Board)
    requires SoundBoard(b)
    ensures ReadBoard(StoreBoard(b)) == Some(b) <==> forall a :: a in b ==> Proper(a)
  {
    var keys := SortedKeys(b.Keys);
    if forall a :: a in b ==> Proper(a) {
      ListComesBack(StoreBoard(b), keys, b);
      assert Only(b, keys) == b;
    } else if ReadBoard(StoreBoard(b)) == Some(b) {
      var a :| a in b && !Proper(a);
      ReadNamesStripped(StoreBoard(b), a);
    }
  }

  // ---------------------------------------------------------------------------------------
  // History and ids come back stripped

  /** The outcome as it comes back. */
  function Cleaned(o: Outcome): Outcome
  {
    o.(agent := Strip(o.agent), predicted := Strip(o.predicted), realized := Strip(o.realized))
  }

  function CleanedAll(h: seq<Outcome>): seq<Outcome> { seq(|h|, i requires 0 <= i < |h| => Cleaned(h[i])) }

  predicate KnownRegimes(h: seq<Outcome>) { forall i :: 0 <= i < |h| ==> h[i].regime in REGIMES }

  predicate AllReadable(h: seq<Outcome>) { forall i :: 0 <= i < |h| ==> Readable(h[i]) }

  lemma OneMore(h: seq<Outcome>, o: Outcome)
    ensures StoreHistory(h + [o]) == StoreHistory(h) + [Store(o)] && CleanedAll(h + [o]) == CleanedAll(h) + [Cleaned(o)]
    ensures AllReadable(h + [o]) <==> AllReadable(h) && Readable(o)
  {
    var all := h + [o];
    assert all[|h|] == o && forall i :: 0 <= i < |h| ==> all[i] == h[i];
  }

  lemma ReadOneMore(stored: seq<StoredOutcome>, o: StoredOutcome)
    ensures var before, r := ReadHistory(stored), ReadOutcome(o);
            ReadHistory(stored + [o]) == if before.None? || r.None? then None else Some(before.value + [r.value])
  {
  }

  lemma {:induction false} HistoryComesBack(h: seq<Outcome>)
    requires KnownRegimes(h)
    ensures ReadHistory(StoreHistory(h)) == if AllReadable(h) then Some(CleanedAll(h)) else None
  {
    if h == [] {
      assert CleanedAll(h) == [];
    } else {
      var us, o := h[..|h| - 1], h[|h| - 1];
      HistoryComesBack(us);
      assert us + [o] == h;
      OneMore(us, o);
      ReadOneMore(StoreHistory(us), Store(o));
    }
  }

  predicate NoneBlank(ids: seq<string>) { forall i :: 0 <= i < |ids| ==> Strip(ids[i]) != "" }

  function StripAll(ids: seq<string>): seq<string> { seq(|ids|, i requires 0 <= i < |ids| => Strip(ids[i])) }

  lemma {:induction false} IdsComeBack(ids: seq<string>)
    ensures ReadIds(ids) == if NoneBlank(ids) then Some(StripAll(ids)) else None
  {
    if ids != [] {
      var n := |ids| - 1;
      IdsComeBack(ids[..n]);
      assert NoneBlank(ids) <==> NoneBlank(ids[..n]) && Strip(ids[n]) != "";
      assert StripAll(ids) == StripAll(ids[..n]) + [Strip(ids[n])];
    } else {
      assert StripAll(ids) == [];
    }
  }

  /** The actions and the agent of an outcome have no blank ends. */
  predicate Tidy(o: Outcome) { Stripped(o.agent) && Stripped(o.predicted) && Stripped(o.realized) }

  lemma CleanedIsSame(h: seq<Outcome>)
    ensures CleanedAll(h) == h <==> forall i :: 0 <= i < |h| ==> Tidy(h[i])
  {
    forall i | 0 <= i < |h| ensures Cleaned(h[i]) == h[i] <==> Tidy(h[i]) {
      StripFacts(h[i].agent);
      StripFacts(h[i].predicted);
      StripFacts(h[i].realized);
    }
    assert CleanedAll(h) == h <==> forall i :: 0 <= i < |h| ==> CleanedAll(h)[i] == h[i];
  }

  lemma StripAllIsSame(ids: seq<string>)
    ensures NoneBlank(ids) && StripAll(ids) == ids <==> forall i :: 0 <= i < |ids| ==> Proper(ids[i])
  {
    forall i | 0 <= i < |ids| ensures Strip(ids[i]) == ids[i] <==> Stripped(ids[i]) { StripFacts(ids[i]); }
    assert StripAll(ids) == ids <==> forall i :: 0 <= i < |ids| ==> StripAll(ids)[i] == ids[i];
  }

  // ---------------------------------------------------------------------------------------
  // The round trip

  function Trim(s: State, limit: Limit): State { State(s.board, Last(s.history, limit), Last(s.ids, limit)) }

  lemma LastTwice<T>(s: seq<T>, limit: Limit)
    ensures Last(Last(s, limit), limit) == Last(s, limit)
  {
  }

  /** What reading back what was written gives: the reputations as they are read, and history and ids up to the
      limit with their strings stripped; nothing when an agent or a retained id is blank or a retained outcome is
      out of range. */
  lemma RestoreSerialized(s: State, limit: Limit)
    requires SoundBoard(s.board) && KnownRegimes(Last(s.history, limit))
    ensures var t, b := Trim(s, limit), ReadBoard(StoreBoard(s.board));
            && (b.None? <==> AnyBlank(s.board.Keys))
            && Restore(Serialize(s, limit), limit)
               == if b.None? || !AllReadable(t.history) || !NoneBlank(t.ids) then None
                  else Some(State(b.value, CleanedAll(t.history), StripAll(t.ids)))
  {
    var t, p := Trim(s, limit), Serialize(s, limit);
    BoardIsRead(s.board);
    StoredHistoryComesBack(s.history, limit);
    assert ReadIds(Last(p.ids, limit)) == if NoneBlank(t.ids) then Some(StripAll(t.ids)) else None by {
      LastTwice(s.ids, limit);
      IdsComeBack(t.ids);
    }
    RestoreParts(p, limit);
  }

  lemma StoredHistoryComesBack(h: seq<Outcome>, limit: Limit)
    requires KnownRegimes(Last(h, limit))
    ensures var t := Last(h, limit);
            ReadHistory(Last(StoreHistory(t), limit)) == if AllReadable(t) then Some(CleanedAll(t)) else None
  {
    LastTwice(h, limit);
    HistoryComesBack(Last(h, limit));
  }

  lemma RestoreParts(p: Payload, limit: Limit)
    requires p.schema == SCHEMA
    ensures var b, h, ids := ReadBoard(p.reputations), ReadHistory(Last(p.history, limit)), ReadIds(Last(p.ids, limit));
            Restore(p, limit)
            == if b.Some? && h.Some? && ids.Some? then Some(State(b.value, h.value, ids.value)) else None
  {
  }

  predicate RoundTrips(s: State, limit: Limit)
  {
    var t := Trim(s, limit);
    && (forall a :: a in t.board ==> Proper(a))
    && (forall i :: 0 <= i < |t.history| ==> Readable(t.history[i]) && Tidy(t.history[i]))
    && (forall i :: 0 <= i < |t.ids| ==> Proper(t.ids[i]))
  }

  /** Reading back what was written gives the state, up to the history limit, exactly when every agent and every
      retained id is stripped and not blank and every retained outcome is in range with stripped strings. */
  lemma RoundTripIff(s: State, limit: Limit)
    requires SoundBoard(s.board) && KnownRegimes(Last(s.history, limit))
    ensures Restore(Serialize(s, limit), limit) == Some(Trim(s, limit)) <==> RoundTrips(s, limit)
  {
    var t := Trim(s, limit);
    BoardComesBack(s.board);
    RestoreSerialized(s, limit);
    CleanedIsSame(t.history);
    StripAllIsSame(t.ids);
  }

  // ---------------------------------------------------------------------------------------
  // What reading accepts

  /** Counts of the five regimes. */
  predicate Tallies(m: map<string, int>)
  {
    forall g :: g in m ==> g in {"bull", "bear", "sideways", "high_volatility", "unknown"} && m[g] >= 0
  }

  /** A stored reputation is read exactly when its agent is not blank, nothing is negative, no more answers are right
      than given, in all and in each regime, and every regime is known; and then as it stands. */
  lemma ReadsReputationIff(r: StoredReputation)
    ensures ReadReputation(r).Some?
            <==> Strip(r.agent) != "" && 0 <= r.correct <= r.total && r.errorSum >= 0.0 && r.drawdown >= 0.0
                 && Tallies(r.regimeTotal) && Tallies(r.regimeCorrect)
                 && forall g :: g in r.regimeCorrect ==>
                      r.regimeCorrect[g] <= if g in r.regimeTotal then r.regimeTotal[g] else 0
    ensures ReadReputation(r).Some? ==>
              var x := ReadReputation(r).value;
              && x.total == r.total && x.correct == r.correct && x.errorSum == r.errorSum && x.pnl == r.pnl
              && x.drawdown == r.drawdown && x.regimeTotal == r.regimeTotal && x.regimeCorrect == r.regimeCorrect
  {
  }

  /** A stored outcome is read exactly when its regime is known, its confidence lies in 0..1 and its drawdown is not
      negative; and then with the blank ends of its strings cut off. */
  lemma ReadsOutcomeIff(o: StoredOutcome)
    ensures ReadOutcome(o).Some?
            <==> o.regime in {"bull", "bear", "sideways", "high_volatility", "unknown"}
                 && 0.0 <= o.confidence <= 1.0 && 0.0 <= o.drawdown
    ensures ReadOutcome(o).Some? ==>
              ReadOutcome(o).value
                  == Outcome(Strip(o.agent), Strip(o.predicted), Strip(o.realized), o.confidence, o.pnl,
                                              o.drawdown, o.regime)
  {
  }

  /** A payload of another schema is not read. */
  lemma OtherSchemaIsRefused(p: Payload, limit: Limit)
    ensures p.schema != 1 ==> Restore(p, limit).None?
  {
  }
}
