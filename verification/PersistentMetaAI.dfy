/** The persistent reputation object: fields changed in place around one versioned write and rolled
    back when it fails. Each call is a step of the machine in `MetaPersistence`. */
module PersistentMetaAI {
  import opened Common
  import Consensus
  import opened MetaAI
  import opened MetaPayload
  import opened MetaPersistence
  import opened Text

  class MetaDatabase {
    var version: nat
    var payload: Payload
    var events: set<Id>

    /** Compare-and-set of the stored state. */
    method SetState(value: Payload, expected: nat, w: Write) returns (raised: bool)
      modifies this`version, this`payload
      ensures raised == !(expected == old(version) && w.Done?)
      ensures if expected == old(version) && !w.Lost? then version == old(version) + 1 && payload == value
              else version == old(version) && payload == old(payload)
    {
      if expected != version || w.Lost? { return true; }
      version, payload := version + 1, value;
      raised := w.Unsure?;
    }

    method AppendEvent(d: Id, effective: bool)
      modifies this`events
      ensures events == if effective then old(events) + {d} else old(events)
    {
      if effective { events := events + {d}; }
    }
  }

  class Recorder {
    const limit: Limit
    const db: MetaDatabase
    var board: Board
    var history: seq<Outcome>
    var ids: seq<Id>
    var version: nat
    ghost var extra: seq<Entry>
    ghost var log: seq<seq<Entry>>

    ghost function Memory(): State reads this { State(board, history, ids) }

    /** The machine state in which this object is the only process. */
    ghost function View(): Sys
      reads this, db
    {
      Sys(db.version, db.payload, db.events, [Up(Memory(), version, extra)], log)
    }

    constructor (n: Limit, d: MetaDatabase)
      ensures limit == n && db == d && Memory() == EMPTY && version == 0 && log == [] && extra == []
    {
      limit, db, board, history, ids, version, log, extra := n, d, map[], [], [], 0, [], [];
    }

    /** Replaces memory by the stored state; raises and changes nothing when it cannot be read. */
    method Reload() returns (raised: bool)
      modifies this`board, this`history, this`ids, this`version, this`extra
      ensures View() == Next(old(View()), MetaPersistence.Reload(0), limit)
      ensures raised == Restore(old(db.payload), limit).None?
    {
      raised := RestoreFrom(db.payload);
      if !raised { version, extra := db.version, []; }
      assert View().procs == Next(old(View()), MetaPersistence.Reload(0), limit).procs;
    }

    /** Reads a payload item by item; nothing changes unless every item can be read. */
    method RestoreFrom(p: Payload) returns (raised: bool)
      modifies this`board, this`history, this`ids
      ensures raised == Restore(p, limit).None?
      ensures Memory() == if raised then old(Memory()) else Restore(p, limit).value
    {
      if p.schema != SCHEMA { return true; }
      var b := LoadBoard(p.reputations);
      if b.None? { return true; }
      var h := LoadHistory(Last(p.history, limit));
      if h.None? { return true; }
      var processed := LoadIds(Last(p.ids, limit));
      if processed.None? { return true; }
      board, history, ids := b.value, h.value, processed.value;
      raised := false;
    }

    /** The recording loop: one outcome after another until an unsupported regime raises. */
    method RecordEach(os: seq<Outcome>) returns (raised: bool)
      modifies this`board, this`history
      ensures raised == !KnownRegimes(os)
      ensures Memory() == Remember(old(Memory()), os[..Accepted(os)])
      ensures !raised ==> Accepted(os) == |os|
    {
      assert history + os[..0] == history;
      for i := 0 to |os|
        invariant KnownRegimes(os[..i])
        invariant Memory() == Remember(old(Memory()), os[..i])
      {
        if os[i].regime !in REGIMES {
          AcceptedIs(os, i);
          assert !KnownRegimes(os);
          return true;
        }
        assert os[..i + 1][..i] == os[..i];
        assert old(history) + os[..i + 1] == (old(history) + os[..i]) + [os[i]];
        board := RecordOne(board, os[i]);
        history := history + [os[i]];
      }
      assert os[..|os|] == os;
      AcceptedAll(os);
      raised := false;
    }

    /** A consensus by the reputations in memory: it gives those that it asks for and cannot find a fresh one. */
    method DynamicConsensus(l: Consensus.Limits, regime: Regime, order: seq<Consensus.Action>,
                            os: seq<Consensus.Opinion>)
      returns (r: Consensus.Result)
      requires Consensus.Enumeration(order) && SoundBoard(board)
      modifies this`board, this`extra
      ensures View() == Next(old(View()), Consult(0, Consensus.Weighed(l, os)), limit)
      ensures r == Consensus.Consensus(l, Consensus.BoardWeights(old(board), regime), order, os)
      ensures SoundBoard(board)
    {
      r, board := Consensus.DynamicConsensus(l, board, regime, order, os);
      extra := extra + [Question(Consensus.Weighed(l, os))];
      assert View().procs[0] == AskedProc(old(View()).procs[0], Consensus.Weighed(l, os));
    }

    /** One idempotent batch: `write` and `appended` say how the two store calls go. */
    method RecordOutcomes(id: string, verified: bool, os: seq<Outcome>, write: Write, appended: bool)
      returns (recorded: bool, raised: bool)
      modifies this`board, this`history, this`ids, this`version, this`extra, this`log, db
      ensures View() == Next(old(View()), Record(0, id, verified, os, write, appended), limit)
      ensures recorded ==>
                && db.version == old(db.version) + 1 && Strip(id) in db.events
                && log == old(log) + [old(extra) + [Batch(Strip(id), os)]]
    {
      ghost var s := View();
      var d := Strip(id);
      recorded, raised := false, true;
      if d == "" || !verified { return; }
      if d in ids || d in db.events { return false, false; }
      if os == [] { return; }
      var before := Serialize(State(board, history, ids), limit);
      var refused := RecordEach(os);
      if refused {
        extra := extra + [Part(os[..Accepted(os)])];
        assert View().procs == Next(s, Record(0, id, verified, os, write, appended), limit).procs;
        return;
      }
      assert os[..Accepted(os)] == os;
      ids := Last(ids + [d], limit);
      recorded, raised := Commit(d, os, before, write, appended, s);
    }

    /** What the versioned write of a batch leaves of the store. */
    static ghost function Written(s: Sys, d: Id, os: seq<Outcome>, write: Write, n: Limit): Sys
      requires |s.procs| == 1 && s.procs[0].Up?
    {
      if s.procs[0].version != s.version || write.Lost? then s else Landed(s, s.procs[0], d, os, n)
    }

    /** This object is the only process of the state, but for the batch that its memory has grown by. */
    ghost predicate Ahead(s: Sys, d: Id, os: seq<Outcome>)
      reads this, db
    {
      && |s.procs| == 1 && s.procs[0].Up?
      && View() == With(s, 0, s.procs[0].(mem := Grown(s.procs[0].mem, d, os, limit)))
    }

    /** The versioned write of the memory that has grown by one batch. */
    method WriteState(write: Write, ghost d: Id, ghost os: seq<Outcome>, ghost s: Sys) returns (raised: bool)
      requires Ahead(s, d, os)
      modifies this`log, db`version, db`payload
      ensures raised == !(s.procs[0].version == s.version && write.Done?)
      ensures Ahead(Written(s, d, os, write, limit), d, os)
    {
      ghost var q := s.procs[0];
      assert View().procs[0] == q.(mem := Grown(q.mem, d, os, limit));
      if version == db.version && !write.Lost? { log := log + [MetaPersistence.Commit(q, d, os)]; }
      raised := db.SetState(Serialize(State(board, history, ids), limit), version, write);
    }

    /** Memory as it was before the batch, unless that cannot be read back. */
    method RollBack(before: Payload, ghost d: Id, ghost os: seq<Outcome>, ghost s: Sys)
      requires Ahead(s, d, os) && before == Serialize(s.procs[0].mem, limit)
      modifies this`board, this`history, this`ids, this`extra
      ensures View() == Refused(s, 0, d, os, limit)
    {
      ghost var q := s.procs[0];
      assert View().procs[0] == q.(mem := Grown(q.mem, d, os, limit));
      var unreadable := RestoreFrom(before);
      if unreadable { extra := MetaPersistence.Commit(q, d, os); }
      assert Up(Memory(), version, extra) == RolledBack(q, d, os, limit);
    }

    /** The write returned: the new version in memory, and the event. */
    method Acknowledge(d: Id, appended: bool, ghost os: seq<Outcome>, ghost s: Sys)
      requires |s.procs| == 1 && s.procs[0].Up? && Ahead(Landed(s, s.procs[0], d, os, limit), d, os)
      modifies this`version, this`extra, db`events
      ensures View() == Acked(s, 0, d, os, limit, appended)
    {
      assert View().procs[0].mem == Grown(s.procs[0].mem, d, os, limit);
      version, extra := db.version, [];
      db.AppendEvent(d, appended);
    }

    /** The write, its rollback when it raises, and the event after it. */
    method Commit(d: Id, os: seq<Outcome>, before: Payload, write: Write, appended: bool, ghost s: Sys)
      returns (recorded: bool, raised: bool)
      requires Ahead(s, d, os) && before == Serialize(s.procs[0].mem, limit)
      modifies this`board, this`history, this`ids, this`version, this`extra, this`log, db
      ensures View() == if s.procs[0].version != s.version || write.Lost? then Refused(s, 0, d, os, limit)
                        else if write.Unsure? then Refused(Landed(s, s.procs[0], d, os, limit), 0, d, os, limit)
                        else Acked(s, 0, d, os, limit, appended)
      ensures recorded ==>
                && db.version == s.version + 1 && log == s.log + [MetaPersistence.Commit(s.procs[0], d, os)]
                    && d in db.events
    {
      raised := WriteState(write, d, os, s);
      if raised {
        RollBack(before, d, os, Written(s, d, os, write, limit));
        return false, true;
      }
      Acknowledge(d, appended, os, s);
      recorded, raised := appended, !appended;
      assert View().events == if appended then s.events + {d} else s.events;
    }
  }

  // The reading loops.

  method LoadBoard(rs: seq<StoredReputation>) returns (b: Option<Board>)
    ensures b == ReadBoard(rs)
  {
    var result: Board := map[];
    for i := 0 to |rs|
      invariant ReadBoard(rs[..i]) == Some(result)
    {
      assert rs[..i + 1][..i] == rs[..i];
      var r := ReadReputation(rs[i]);
      if r.None? {
        UnreadBoard(rs, i + 1);
        return None;
      }
      result := result[Strip(rs[i].agent) := r.value];
    }
    assert rs[..|rs|] == rs;
    b := Some(result);
  }

  method LoadHistory(stored: seq<StoredOutcome>) returns (h: Option<seq<Outcome>>)
    ensures h == ReadHistory(stored)
  {
    var result: seq<Outcome> := [];
    for i := 0 to |stored|
      invariant ReadHistory(stored[..i]) == Some(result)
    {
      assert stored[..i + 1][..i] == stored[..i];
      var o := ReadOutcome(stored[i]);
      if o.None? {
        UnreadHistory(stored, i + 1);
        return None;
      }
      result := result + [o.value];
    }
    assert stored[..|stored|] == stored;
    h := Some(result);
  }

  method LoadIds(stored: seq<string>) returns (ids: Option<seq<Id>>)
    ensures ids == ReadIds(stored)
  {
    var result: seq<Id> := [];
    for i := 0 to |stored|
      invariant ReadIds(stored[..i]) == Some(result)
    {
      assert stored[..i + 1][..i] == stored[..i];
      if Strip(stored[i]) == "" {
        UnreadIds(stored, i + 1);
        return None;
      }
      result := result + [Strip(stored[i])];
    }
    assert stored[..|stored|] == stored;
    ids := Some(result);
  }

  lemma {:induction false} UnreadBoard(rs: seq<StoredReputation>, n: nat)
    requires n <= |rs| && ReadBoard(rs[..n]).None?
    ensures ReadBoard(rs).None?
    decreases |rs| - n
  {
    if n < |rs| {
      assert rs[..n + 1][..n] == rs[..n];
      UnreadBoard(rs, n + 1);
    } else {
      assert rs[..n] == rs;
    }
  }

  lemma {:induction false} UnreadHistory(stored: seq<StoredOutcome>, n: nat)
    requires n <= |stored| && ReadHistory(stored[..n]).None?
    ensures ReadHistory(stored).None?
    decreases |stored| - n
  {
    if n < |stored| {
      assert stored[..n + 1][..n] == stored[..n];
      UnreadHistory(stored, n + 1);
    } else {
      assert stored[..n] == stored;
    }
  }

  lemma {:induction false} UnreadIds(stored: seq<string>, n: nat)
    requires n <= |stored| && ReadIds(stored[..n]).None?
    ensures ReadIds(stored).None?
    decreases |stored| - n
  {
    if n < |stored| {
      assert stored[..n + 1][..n] == stored[..n];
      UnreadIds(stored, n + 1);
    } else {
      assert stored[..n] == stored;
    }
  }

  lemma {:induction false} AcceptedIs(os: seq<Outcome>, i: nat)
    requires i < |os| && KnownRegimes(os[..i]) && os[i].regime !in REGIMES
    ensures Accepted(os) == i
  {
  }

  lemma AcceptedAll(os: seq<Outcome>)
    requires KnownRegimes(os)
    ensures Accepted(os) == |os|
  {
  }
}
