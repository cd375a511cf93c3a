/** What every step of the execution protocol keeps, whatever the interleaving and whatever writes
    fail, and what therefore holds over every run. */
module ProtocolSafety {
  import opened Common
  import opened Ledger
  import opened Protocol

  ghost predicate Traded(h: seq<Trade>, k: Key) { exists i :: 0 <= i < |h| && h[i].key == k }

  /** The trade at `i` is the BUY that opened a position of `sym` under decision `d`. */
  predicate Opening(h: seq<Trade>, i: int, d: DecisionId, sym: Symbol)
  {
    0 <= i < |h| && h[i].key == Auth(d) && h[i].symbol == sym && h[i].fill.side.Buy?
  }

  ghost predicate OpenedBefore(h: seq<Trade>, n: nat, d: DecisionId, sym: Symbol)
  {
    exists i :: i < n && Opening(h, i, d, sym)
  }

  predicate Authorizes(store: Store, d: DecisionId, side: Side)
  {
    d in store.records && store.records[d].authorized && store.records[d].intent == Some(side)
  }

  ghost predicate TradeOk(store: Store, h: seq<Trade>, i: nat)
    requires i < |h|
  {
    match h[i].key
    case Auth(d) => d in store.consumed && Authorizes(store, d, h[i].fill.side)
    case Prot(sym, e, _) => h[i].fill.side.Sell? && h[i].symbol == sym && OpenedBefore(h, i, e, sym)
  }

  ghost predicate IntentOk(c: Config, s: Sys, k: Key, i: Intent)
  {
    && i.symbol in c.symbols
    && match k
       case Auth(d) => Authorizes(s.store, d, i.fill.side)
       case Prot(sym, e, _) => i.symbol == sym && i.fill.side.Sell? && OpenedBefore(s.history, |s.history|, e, sym)
  }

  /** At most one authorized intent per symbol, and at most one protective intent. */
  predicate OnePer(m: map<Key, Intent>)
  {
    && (forall k, l :: k in m && l in m && k.Auth? && l.Auth? && m[k].symbol == m[l].symbol ==> k == l)
    && (forall k, l :: k in m && l in m && k.Prot? && l.Prot? ==> k == l)
  }

  ghost predicate PendingOk(c: Config, s: Sys, m: map<Key, Intent>)
  {
    OnePer(m) && forall k :: k in m ==> IntentOk(c, s, k, m[k])
  }

  ghost predicate TicketOk(s: Sys, t: Ticket)
  {
    t.Cleared? ==> Authorizes(s.store, t.decision, t.side)
  }

  /** The proposal that a process is working on. */
  function TicketOf(q: Proc): Ticket { if q.Up? && q.phase.Entry? then q.phase.ticket else NoTicket }

  /** Memory at the durable version differs from the store only in its pending map: it may hold
      staged intents that are not durable yet, and it lacks only intents whose trade is committed. */
  ghost predicate Mirrors(s: Sys, doc: Doc, t: Ticket)
  {
    && doc.book == s.store.doc.book && doc.trades == s.store.doc.trades
    && (forall k :: k in s.store.doc.pending && k !in doc.pending ==> Traded(s.history, k))
    && (forall k :: k in doc.pending && Traded(s.history, k) ==> k in s.store.doc.pending)
    && (!t.NoTicket? ==> !Traded(s.history, Auth(t.decision)))
  }

  /** Memory, however old, shows only committed trades, and none of the decision being assessed. */
  ghost predicate Committed(h: seq<Trade>, doc: Doc, t: Ticket)
  {
    forall i :: 0 <= i < |doc.trades| ==>
      && Traded(h, doc.trades[i].key)
      && (!t.NoTicket? ==> doc.trades[i].key != Auth(t.decision))
  }

  ghost predicate MemoryOk(c: Config, s: Sys, doc: Doc, version: nat, t: Ticket)
  {
    && Committed(s.history, doc, t)
    && version <= s.store.version
    && TicketOk(s, t)
    && PendingOk(c, s, doc.pending)
    && (version == s.store.version ==> Mirrors(s, doc, t))
  }

  /** An exit in progress also keeps the memory it would fall back to. */
  predicate KeepsCopy(q: Proc) { q.Up? && (q.phase.Apply? || q.phase.Settle?) && q.phase.context.InExit? }

  ghost predicate ProcOk(c: Config, s: Sys, q: Proc)
  {
    && (q.Up? ==> MemoryOk(c, s, q.doc, q.version, TicketOf(q)))
    && (KeepsCopy(q) ==> MemoryOk(c, s, q.phase.context.before, q.phase.context.at, NoTicket))
  }

  ghost predicate LedgerOk(c: Config, s: Sys)
  {
    && Replay(c.capital, s.history) == Some(s.store.doc.book)
    && s.store.doc.trades == Last(s.history, c.window)
  }

  ghost predicate AuditOk(s: Sys)
  {
    && (forall i :: 0 <= i < |s.history| ==> TradeOk(s.store, s.history, i))
    && (forall d :: d in s.store.consumed ==> d in s.store.records && s.store.records[d].authorized)
  }

  ghost predicate Inv(c: Config, s: Sys)
  {
    && LedgerOk(c, s)
    && AuditOk(s)
    && PendingOk(c, s, s.store.doc.pending)
    && forall p :: 0 <= p < |s.procs| ==> ProcOk(c, s, s.procs[p])
  }

  lemma InitInv(c: Config, k: nat)
    ensures Inv(c, Init(c, k))
  {
  }

  // ---------------------------------------------------------------------------------------
  // Facts that only grow

  /** The later state has a longer history and more consumptions and records. */
  ghost predicate Grows(s: Sys, t: Sys)
  {
    && |s.history| <= |t.history| && s.history == t.history[..|s.history|]
    && s.store.consumed <= t.store.consumed
    && (forall d :: d in s.store.records ==> d in t.store.records && t.store.records[d] == s.store.records[d])
  }

  lemma IntentGrows(c: Config, s: Sys, t: Sys, k: Key, i: Intent)
    requires Grows(s, t) && IntentOk(c, s, k, i)
    ensures IntentOk(c, t, k, i)
  {
    if k.Prot? {
      var j :| j < |s.history| && Opening(s.history, j, k.entry, k.symbol);
      assert t.history[j] == s.history[j];
      assert Opening(t.history, j, k.entry, k.symbol);
    }
  }

  lemma PendingGrows(c: Config, s: Sys, t: Sys, m: map<Key, Intent>)
    requires Grows(s, t) && PendingOk(c, s, m)
    ensures PendingOk(c, t, m)
  {
    forall k | k in m ensures IntentOk(c, t, k, m[k]) { IntentGrows(c, s, t, k, m[k]); }
  }

  lemma AuditGrows(s: Sys, t: Sys)
    requires AuditOk(s) && Grows(s, t) && s.history == t.history
    requires forall d :: d in t.store.consumed ==> d in t.store.records && t.store.records[d].authorized
    ensures AuditOk(t)
  {
    forall i | 0 <= i < |t.history| ensures TradeOk(t.store, t.history, i) {
      assert TradeOk(s.store, s.history, i);
    }
  }

  lemma CommittedGrows(h: seq<Trade>, g: seq<Trade>, doc: Doc, t: Ticket)
    requires |h| <= |g| && h == g[..|h|] && Committed(h, doc, t)
    ensures Committed(g, doc, t)
  {
    forall i | 0 <= i < |doc.trades| ensures Traded(g, doc.trades[i].key) {
      var j :| 0 <= j < |h| && h[j].key == doc.trades[i].key;
      assert g[j] == h[j];
    }
  }

  /** Memory stays well-formed when the document did not change, or when it is behind. */
  lemma MemoryGrows(c: Config, s: Sys, t: Sys, doc: Doc, version: nat, k: Ticket)
    requires Grows(s, t) && MemoryOk(c, s, doc, version, k)
    requires version < t.store.version
             || (t.store.doc == s.store.doc && t.store.version == s.store.version && t.history == s.history)
    ensures MemoryOk(c, t, doc, version, k)
  {
    CommittedGrows(s.history, t.history, doc, k);
    PendingGrows(c, s, t, doc.pending);
  }

  lemma ProcGrows(c: Config, s: Sys, t: Sys, q: Proc)
    requires Grows(s, t) && ProcOk(c, s, q)
    requires s.store.version < t.store.version
             || (t.store.doc == s.store.doc && t.store.version == s.store.version && t.history == s.history)
    ensures ProcOk(c, t, q)
  {
    if q.Up? { MemoryGrows(c, s, t, q.doc, q.version, TicketOf(q)); }
    if KeepsCopy(q) { MemoryGrows(c, s, t, q.phase.context.before, q.phase.context.at, NoTicket); }
  }

  // ---------------------------------------------------------------------------------------
  // Steps that leave the document alone

  ghost predicate SameElsewhere(s: Sys, t: Sys, p: nat)
  {
    && p < |s.procs| == |t.procs|
    && (forall i :: 0 <= i < |s.procs| && i != p ==> t.procs[i] == s.procs[i])
  }

  lemma LocalStep(c: Config, s: Sys, t: Sys, p: nat)
    requires Inv(c, s) && Grows(s, t) && s.history == t.history && SameElsewhere(s, t, p)
    requires t.store.doc == s.store.doc && t.store.version == s.store.version
    requires forall d :: d in t.store.consumed ==> d in t.store.records && t.store.records[d].authorized
    requires ProcOk(c, t, t.procs[p])
    ensures Inv(c, t)
  {
    AuditGrows(s, t);
    PendingGrows(c, s, t, s.store.doc.pending);
    forall i | 0 <= i < |t.procs| ensures ProcOk(c, t, t.procs[i]) {
      if i != p { ProcGrows(c, s, t, s.procs[i]); }
    }
  }

  /** Memory loaded from the store mirrors it. */
  lemma LoadedOk(c: Config, s: Sys)
    requires Inv(c, s)
    ensures MemoryOk(c, s, s.store.doc, s.store.version, NoTicket)
  {
    forall i | 0 <= i < |s.store.doc.trades| ensures Traded(s.history, s.store.doc.trades[i].key) {
      LastTraded(s.history, c.window, i);
    }
  }

  /** Dropping the proposal keeps memory well-formed. */
  lemma TicketDropped(c: Config, s: Sys, doc: Doc, version: nat, k: Ticket)
    requires MemoryOk(c, s, doc, version, k)
    ensures MemoryOk(c, s, doc, version, NoTicket)
  {
  }

  // ---------------------------------------------------------------------------------------
  // Steps that write the document

  /** A landed write of `doc` by process `p`: everybody else is now behind. */
  lemma LandedStep(c: Config, s: Sys, t: Sys, p: nat, doc: Doc)
    requires Inv(c, s) && SameElsewhere(s, t, p) && Grows(s, t)
    requires t.store == s.store.(version := s.store.version + 1, doc := doc)
    requires LedgerOk(c, t) && AuditOk(t) && PendingOk(c, t, doc.pending)
    requires ProcOk(c, t, t.procs[p])
    ensures Inv(c, t)
  {
    forall i | 0 <= i < |t.procs| ensures ProcOk(c, t, t.procs[i]) {
      if i != p { ProcGrows(c, s, t, s.procs[i]); }
    }
  }

  /** The writer's memory after its write was acknowledged. */
  lemma WrittenOk(c: Config, t: Sys, doc: Doc, k: Ticket)
    requires LedgerOk(c, t) && t.store.doc == doc && PendingOk(c, t, doc.pending) && TicketOk(t, k)
    requires !k.NoTicket? ==> !Traded(t.history, Auth(k.decision))
    ensures MemoryOk(c, t, doc, t.store.version, k)
  {
    forall i | 0 <= i < |doc.trades| ensures Traded(t.history, doc.trades[i].key) {
      LastTraded(t.history, c.window, i);
    }
  }

  lemma SaveInv(c: Config, s: Sys, p: nat, o: Outcome)
    requires Inv(c, s) && Enabled(c, s, Save(p, o))
    ensures Inv(c, Saved(c, s, p, o))
  {
    var q, t := s.procs[p], Saved(c, s, p, o);
    assert ProcOk(c, s, q);
    TicketDropped(c, s, q.doc, q.version, TicketOf(q));
    MemoryGrows(c, s, t, q.doc, q.version, NoTicket);
    if Lands(s, p, o) {
      PendingGrows(c, s, t, q.doc.pending);
      AuditGrows(s, t);
      if Acked(s, p, o) { WrittenOk(c, t, q.doc, TicketOf(t.procs[p])); }
      LandedStep(c, s, t, p, q.doc);
    } else {
      LocalStep(c, s, t, p);
    }
  }

  /** Memory with one more authorized intent, as staging leaves it. */
  lemma StagedMemory(c: Config, s: Sys, q: Proc, sym: Symbol, fill: Ready)
    requires q.Up? && q.phase.Entry? && q.phase.ticket.Cleared? && ProcOk(c, s, q) && sym in c.symbols
    requires fill.side == q.phase.ticket.side && !Blocks(q.doc, q.phase.ticket.decision, sym)
    ensures var doc := q.doc.(pending := q.doc.pending[Auth(q.phase.ticket.decision) := Intent(sym, fill)]);
            MemoryOk(c, s, doc, q.version, NoTicket)
  {
    var d := q.phase.ticket.decision;
    var m := q.doc.pending[Auth(d) := Intent(sym, fill)];
    assert OnePer(m);
    forall k | k in m ensures IntentOk(c, s, k, m[k]) {
      if k != Auth(d) { assert IntentOk(c, s, k, q.doc.pending[k]); }
    }
  }

  /** Memory with the new intent, in the state that the staging write leaves. */
  lemma StageAuthProc(c: Config, s: Sys, t: Sys, p: nat, fill: Ready, o: Outcome, doc: Doc)
    requires Inv(c, s) && Enabled(c, s, StageAuth(p, fill, o)) && t == StagedAuth(c, s, p, fill, o)
    requires var q := s.procs[p];
             && !Blocks(q.doc, q.phase.ticket.decision, c.symbols[q.phase.i])
             && doc == q.doc.(pending :=
                 q.doc.pending[Auth(q.phase.ticket.decision) := Intent(c.symbols[q.phase.i], fill)])
    ensures PendingOk(c, t, doc.pending) && ProcOk(c, t, t.procs[p]) && (Lands(s, p, o) ==> LedgerOk(c, t))
  {
    var q := s.procs[p];
    assert ProcOk(c, s, q);
    StagedMemory(c, s, q, c.symbols[q.phase.i], fill);
    PendingGrows(c, s, t, doc.pending);
    if Acked(s, p, o) { WrittenOk(c, t, doc, NoTicket); } else { MemoryGrows(c, s, t, doc, q.version, NoTicket); }
  }

  lemma StageAuthInv(c: Config, s: Sys, p: nat, fill: Ready, o: Outcome)
    requires Inv(c, s) && Enabled(c, s, StageAuth(p, fill, o))
    ensures Inv(c, StagedAuth(c, s, p, fill, o))
  {
    var q, t := s.procs[p], StagedAuth(c, s, p, fill, o);
    var sym := c.symbols[q.phase.i];
    if Blocks(q.doc, q.phase.ticket.decision, sym) {
      assert ProcOk(c, s, q);
      LocalStep(c, s, t, p);
    } else {
      var doc := q.doc.(pending := q.doc.pending[Auth(q.phase.ticket.decision) := Intent(sym, fill)]);
      StageAuthProc(c, s, t, p, fill, o, doc);
      if Lands(s, p, o) {
        AuditGrows(s, t);
        LandedStep(c, s, t, p, doc);
      } else {
        LocalStep(c, s, t, p);
      }
    }
  }

  /** The key of a protective intent names a position that a committed BUY opened. */
  lemma PositionOpened(c: Config, s: Sys, sym: Symbol)
    requires LedgerOk(c, s) && sym in s.store.doc.book.positions
    ensures OpenedBefore(s.history, |s.history|, s.store.doc.book.positions[sym].decision, sym)
  {
    var i := OpenPositionIsNewest(c.capital, s.history, sym);
    assert Opening(s.history, i, s.store.doc.book.positions[sym].decision, sym);
  }

  lemma ExitPending(c: Config, s: Sys, p: nat, reason: string, fill: Ready)
    requires Inv(c, s) && Synced(s, p) && s.procs[p].phase.Trading? && fill.side.Sell?
    requires Held(c, s.procs[p].phase.i, s.procs[p].doc)
    requires !OtherExit(s.procs[p].doc, ExitKey(c, s.procs[p].phase.i, s.procs[p].doc, reason))
    ensures var q := s.procs[p];
            PendingOk(c, s, q.doc.pending[ExitKey(c, q.phase.i, q.doc, reason) := Intent(c.symbols[q.phase.i], fill)])
  {
    var q := s.procs[p];
    var key, sym := ExitKey(c, q.phase.i, q.doc, reason), c.symbols[q.phase.i];
    var m := q.doc.pending[key := Intent(sym, fill)];
    assert ProcOk(c, s, q);
    PositionOpened(c, s, sym);
    assert OnePer(m);
    forall k | k in m ensures IntentOk(c, s, k, m[k]) {
      if k != key { assert IntentOk(c, s, k, q.doc.pending[k]); }
    }
  }

  lemma StageExitInv(c: Config, s: Sys, p: nat, reason: string, fill: Ready, o: Outcome)
    requires Inv(c, s) && Enabled(c, s, StageExit(p, reason, fill, o))
    ensures Inv(c, StagedExit(c, s, p, reason, fill, o))
  {
    var q, t := s.procs[p], StagedExit(c, s, p, reason, fill, o);
    assert ProcOk(c, s, q);
    MemoryGrows(c, s, t, q.doc, q.version, NoTicket);
    var key := ExitKey(c, q.phase.i, q.doc, reason);
    if !OtherExit(q.doc, key) && Lands(s, p, o) {
      var doc := q.doc.(pending := q.doc.pending[key := Intent(c.symbols[q.phase.i], fill)]);
      ExitPending(c, s, p, reason, fill);
      PendingGrows(c, s, t, doc.pending);
      AuditGrows(s, t);
      if Acked(s, p, o) { WrittenOk(c, t, doc, NoTicket); }
      LandedStep(c, s, t, p, doc);
    } else {
      LocalStep(c, s, t, p);
    }
  }

  lemma LastAppend(h: seq<Trade>, t: Trade, n: nat)
    ensures Last(Last(h, n) + [t], n) == Last(h + [t], n)
  {
  }

  lemma LastTraded(h: seq<Trade>, n: nat, i: nat)
    requires i < |Last(h, n)|
    ensures Traded(h, Last(h, n)[i].key)
  {
  }

  /** The document after a landed execution is the replay of the longer history. */
  lemma ExecuteLedger(c: Config, s: Sys, p: nat, o: Outcome)
    requires Inv(c, s) && Enabled(c, s, Execute(p, o)) && Lands(s, p, o)
    ensures LedgerOk(c, Executed(c, s, p, o))
  {
    var q, t := s.procs[p], Executed(c, s, p, o);
    assert ProcOk(c, s, q);
    assert t.history[..|t.history| - 1] == s.history;
    LastAppend(s.history, TradeOf(q.doc, q.phase.key), c.window);
  }

  lemma ExecuteAudit(c: Config, s: Sys, p: nat, o: Outcome)
    requires Inv(c, s) && Enabled(c, s, Execute(p, o)) && Lands(s, p, o)
    ensures AuditOk(Executed(c, s, p, o))
  {
    var q, t := s.procs[p], Executed(c, s, p, o);
    var n, k := |s.history|, q.phase.key;
    assert ProcOk(c, s, q);
    assert IntentOk(c, s, k, q.doc.pending[k]);
    forall i | 0 <= i < |t.history| ensures TradeOk(t.store, t.history, i) {
      if i < n {
        assert TradeOk(s.store, s.history, i) && t.history[i] == s.history[i];
        if t.history[i].key.Prot? {
          var e, sym := t.history[i].key.entry, t.history[i].key.symbol;
          var j :| j < i && Opening(s.history, j, e, sym);
          assert Opening(t.history, j, e, sym);
        }
      } else if k.Prot? {
        var j :| j < n && Opening(s.history, j, k.entry, k.symbol);
        assert Opening(t.history, j, k.entry, k.symbol);
      }
    }
  }

  /** The memory that a raise leaves is well-formed when both memories of the process were. */
  lemma FallenOk(c: Config, s: Sys, t: Sys, q: Proc, doc: Doc, version: nat)
    requires Grows(s, t) && q.Up? && (q.phase.Apply? || q.phase.Settle?) && ProcOk(c, s, q)
             && MemoryOk(c, s, doc, version, NoTicket)
    requires s.store.version < t.store.version
             || (t.store.doc == s.store.doc && t.store.version == s.store.version && t.history == s.history)
    ensures ProcOk(c, t, Fallen(doc, version, q.phase.context)) && ProcOk(c, t, Raised(doc, version, q.phase.context))
  {
    MemoryGrows(c, s, t, doc, version, NoTicket);
    if q.phase.context.InExit? { MemoryGrows(c, s, t, q.phase.context.before, q.phase.context.at, NoTicket); }
  }

  lemma ExecuteProc(c: Config, s: Sys, t: Sys, p: nat, o: Outcome)
    requires Inv(c, s) && Enabled(c, s, Execute(p, o)) && t == Executed(c, s, p, o)
    requires Lands(s, p, o) ==> LedgerOk(c, t) && PendingOk(c, t, s.procs[p].doc.pending)
    ensures ProcOk(c, t, t.procs[p])
  {
    var q := s.procs[p];
    assert ProcOk(c, s, q);
    if Acked(s, p, o) {
      WrittenOk(c, t, Applied(c, q.doc, q.phase.key), NoTicket);
      if KeepsCopy(q) { MemoryGrows(c, s, t, q.phase.context.before, q.phase.context.at, NoTicket); }
    } else {
      FallenOk(c, s, t, q, q.doc, q.version);
    }
  }

  lemma ExecuteInv(c: Config, s: Sys, p: nat, o: Outcome)
    requires Inv(c, s) && Enabled(c, s, Execute(p, o))
    ensures Inv(c, Executed(c, s, p, o))
  {
    var q, t := s.procs[p], Executed(c, s, p, o);
    assert ProcOk(c, s, q);
    if Lands(s, p, o) {
      ExecuteLedger(c, s, p, o);
      ExecuteAudit(c, s, p, o);
      PendingGrows(c, s, t, q.doc.pending);
      ExecuteProc(c, s, t, p, o);
      LandedStep(c, s, t, p, Applied(c, q.doc, q.phase.key));
    } else {
      ExecuteProc(c, s, t, p, o);
      LocalStep(c, s, t, p);
    }
  }

  /** What the bounded trade list shows is committed. */
  lemma SeenIsTraded(c: Config, s: Sys, p: nat, k: Key)
    requires Inv(c, s) && Synced(s, p) && k in s.procs[p].doc.pending && Seen(s.procs[p].doc, k)
    ensures Traded(s.history, k)
  {
    assert ProcOk(c, s, s.procs[p]);
    var doc := s.procs[p].doc;
    var i :| 0 <= i < |doc.trades| && SameIntent(doc.trades[i], k, doc.pending[k]);
    LastTraded(s.history, c.window, i);
  }

  /** Memory without an intent that it has seen executed. */
  lemma DroppedMemory(c: Config, s: Sys, p: nat, k: Key)
    requires Inv(c, s) && IsUp(s, p) && TicketOf(s.procs[p]).NoTicket?
    requires k in s.procs[p].doc.pending && Seen(s.procs[p].doc, k)
    ensures var q := s.procs[p]; MemoryOk(c, s, q.doc.(pending := q.doc.pending - {k}), q.version, NoTicket)
  {
    var q := s.procs[p];
    assert ProcOk(c, s, q);
    if Synced(s, p) { SeenIsTraded(c, s, p, k); }
    forall l | l in q.doc.pending - {k} ensures IntentOk(c, s, l, (q.doc.pending - {k})[l]) {
      assert IntentOk(c, s, l, q.doc.pending[l]);
    }
  }

  lemma CompletePending(c: Config, s: Sys, t: Sys, p: nat, o: Outcome)
    requires Inv(c, s) && Enabled(c, s, Complete(p, o)) && t == Completed(c, s, p, o)
    ensures ProcOk(c, s, s.procs[p])
    ensures PendingOk(c, t, s.procs[p].doc.pending - {s.procs[p].phase.key}) && (Lands(s, p, o) ==> LedgerOk(c, t))
  {
    var q := s.procs[p];
    assert ProcOk(c, s, q);
    DroppedMemory(c, s, p, q.phase.key);
    PendingGrows(c, s, t, q.doc.pending - {q.phase.key});
  }

  lemma CompleteProc(c: Config, s: Sys, t: Sys, p: nat, o: Outcome)
    requires Inv(c, s) && Enabled(c, s, Complete(p, o)) && t == Completed(c, s, p, o)
    ensures PendingOk(c, t, s.procs[p].doc.pending - {s.procs[p].phase.key}) && (Lands(s, p, o) ==> LedgerOk(c, t))
    ensures ProcOk(c, t, t.procs[p])
  {
    var q := s.procs[p];
    var doc := q.doc.(pending := q.doc.pending - {q.phase.key});
    CompletePending(c, s, t, p, o);
    if Acked(s, p, o) {
      WrittenOk(c, t, doc, NoTicket);
    } else {
      DroppedMemory(c, s, p, q.phase.key);
      FallenOk(c, s, t, q, doc, q.version);
    }
  }

  lemma CompleteInv(c: Config, s: Sys, p: nat, o: Outcome)
    requires Inv(c, s) && Enabled(c, s, Complete(p, o))
    ensures Inv(c, Completed(c, s, p, o))
  {
    var q, t := s.procs[p], Completed(c, s, p, o);
    CompleteProc(c, s, t, p, o);
    if Lands(s, p, o) {
      AuditGrows(s, t);
      LandedStep(c, s, t, p, q.doc.(pending := q.doc.pending - {q.phase.key}));
    } else {
      LocalStep(c, s, t, p);
    }
  }

  lemma RuleInv(c: Config, s: Sys, p: nat, rec: Record, o: Outcome)
    requires Inv(c, s) && Enabled(c, s, Rule(p, rec, o))
    ensures Inv(c, Ruled(s, p, rec, o))
  {
    var q, t := s.procs[p], Ruled(s, p, rec, o);
    assert ProcOk(c, s, q);
    ProcGrows(c, s, t, q);
    LocalStep(c, s, t, p);
  }

  lemma ConsumeInv(c: Config, s: Sys, p: nat, o: Outcome)
    requires Inv(c, s) && Enabled(c, s, Consume(p, o))
    ensures Inv(c, Consumed(s, p, o))
  {
    var q, t := s.procs[p], Consumed(s, p, o);
    assert ProcOk(c, s, q);
    ProcGrows(c, s, t, q);
    LocalStep(c, s, t, p);
  }

  lemma TradedIsConsumed(s: Sys, d: DecisionId)
    requires AuditOk(s) && Traded(s.history, Auth(d))
    ensures d in s.store.consumed
  {
    var i :| 0 <= i < |s.history| && s.history[i].key == Auth(d);
    assert TradeOk(s.store, s.history, i);
  }

  lemma CheckInv(c: Config, s: Sys, p: nat, d: DecisionId)
    requires Inv(c, s) && Enabled(c, s, Check(p, d))
    ensures Inv(c, Next(c, s, Check(p, d)))
  {
    var q := s.procs[p];
    assert ProcOk(c, s, q);
    if Traded(s.history, Auth(d)) { TradedIsConsumed(s, d); }
    forall i | 0 <= i < |q.doc.trades| ensures q.doc.trades[i].key != Auth(d) {
      assert Traded(s.history, q.doc.trades[i].key);
    }
    LocalStep(c, s, Next(c, s, Check(p, d)), p);
  }

  /** Every step of every process keeps the invariant. */
  lemma StepInv(c: Config, s: Sys, st: Step)
    requires Inv(c, s) && Enabled(c, s, st)
    ensures Inv(c, Next(c, s, st))
  {
    match st
    case Rule(p, rec, o) => RuleInv(c, s, p, rec, o);
    case StageAuth(p, fill, o) => StageAuthInv(c, s, p, fill, o);
    case StageExit(p, reason, fill, o) => StageExitInv(c, s, p, reason, fill, o);
    case Consume(p, o) => ConsumeInv(c, s, p, o);
    case Execute(p, o) => ExecuteInv(c, s, p, o);
    case Complete(p, o) => CompleteInv(c, s, p, o);
    case Save(p, o) => SaveInv(c, s, p, o);
    case Check(p, d) => CheckInv(c, s, p, d);
    case _ => PhaseInv(c, s, st);
  }

  /** Steps that touch neither the store nor, except by loading it, the memory. */
  predicate Quiet(st: Step)
  {
    || st.Boot? || st.Crash? || st.BeginTick? || st.Pick? || st.Advance? || st.EndTick? || st.Pass? || st.ExitFails?
    || st.Refuse? || st.Abandon? || st.Reload? || st.Keep?
  }

  /** The memory after a quiet step: loaded, kept, or what a raise falls back to. */
  lemma QuietMemory(c: Config, s: Sys, t: Sys, st: Step)
    requires Enabled(c, s, st) && Quiet(st) && t == Next(c, s, st) && t.procs[st.p].Up?
    ensures var q, r := s.procs[st.p], t.procs[st.p];
            && TicketOf(r).NoTicket? && (KeepsCopy(r) ==> KeepsCopy(q) && r.phase.context == q.phase.context)
            && (|| (r.doc == s.store.doc && r.version == s.store.version)
                || (q.Up? && r.doc == q.doc && r.version == q.version)
                || (KeepsCopy(q) && r.doc == q.phase.context.before && r.version == q.phase.context.at))
  {
  }

  lemma QuietProc(c: Config, s: Sys, t: Sys, st: Step)
    requires Enabled(c, s, st) && Quiet(st) && t == Next(c, s, st)
    requires Inv(c, s)
    ensures ProcOk(c, s, t.procs[st.p])
  {
    var q, r := s.procs[st.p], t.procs[st.p];
    assert ProcOk(c, s, q);
    if r.Up? {
      QuietMemory(c, s, t, st);
      LoadedOk(c, s);
      if q.Up? { TicketDropped(c, s, q.doc, q.version, TicketOf(q)); }
    }
  }

  lemma PhaseInv(c: Config, s: Sys, st: Step)
    requires Inv(c, s) && Enabled(c, s, st) && Quiet(st)
    ensures Inv(c, Next(c, s, st))
  {
    var t := Next(c, s, st);
    QuietProc(c, s, t, st);
    ProcGrows(c, s, t, t.procs[st.p]);
    LocalStep(c, s, t, st.p);
  }

  // ---------------------------------------------------------------------------------------
  // Whole runs

  lemma {:induction false} RunInv(c: Config, s: Sys, run: seq<Step>)
    requires Inv(c, s) && Valid(c, s, run)
    ensures Inv(c, After(c, s, run))
    decreases |run|
  {
    if run != [] {
      StepInv(c, s, run[0]);
      RunInv(c, Next(c, s, run[0]), run[1..]);
    }
  }

  lemma WriteGrows(c: Config, s: Sys, st: Step)
    requires Enabled(c, s, st) && !Quiet(st)
    ensures Grows(s, Next(c, s, st))
  {
    match st
    case Rule(p, rec, o) => assert Grows(s, Ruled(s, p, rec, o));
    case StageAuth(p, fill, o) => assert Grows(s, StagedAuth(c, s, p, fill, o));
    case StageExit(p, reason, fill, o) => assert Grows(s, StagedExit(c, s, p, reason, fill, o));
    case Consume(p, o) => assert Grows(s, Consumed(s, p, o));
    case Execute(p, o) => assert Grows(s, Executed(c, s, p, o));
    case Complete(p, o) => assert Grows(s, Completed(c, s, p, o));
    case Save(p, o) => assert Grows(s, Saved(c, s, p, o));
    case Check(p, d) =>
  }

  lemma StepGrows(c: Config, s: Sys, st: Step)
    requires Enabled(c, s, st)
    ensures Grows(s, Next(c, s, st))
  {
    if !Quiet(st) { WriteGrows(c, s, st); }
  }

  /** Committed trades, consumptions and decision records are never altered by any later step. */
  lemma {:induction false} RunGrows(c: Config, s: Sys, run: seq<Step>)
    requires Valid(c, s, run)
    ensures Grows(s, After(c, s, run))
    decreases |run|
  {
    if run != [] {
      StepGrows(c, s, run[0]);
      RunGrows(c, Next(c, s, run[0]), run[1..]);
      GrowsTransitive(s, Next(c, s, run[0]), After(c, s, run));
    }
  }

  lemma GrowsTransitive(s: Sys, t: Sys, u: Sys)
    requires Grows(s, t) && Grows(t, u)
    ensures Grows(s, u)
  {
  }

  /** A durable intent disappears from the pending map only once its trade is committed. */
  lemma DropsOnlyTraded(c: Config, s: Sys, t: Sys, st: Step, k: Key)
    requires Enabled(c, s, st) && t == Next(c, s, st)
    requires k in s.store.doc.pending && k !in t.store.doc.pending
    requires Inv(c, s)
    ensures Traded(s.history, k)
  {
    DropIsWrite(c, s, t, st, k);
    if k in s.procs[st.p].doc.pending {
      SeenIsTraded(c, s, st.p, k);
    } else {
      assert ProcOk(c, s, s.procs[st.p]);
    }
  }

  /** Only a write from the current version drops an intent: one the writer had forgotten, or completes. */
  lemma DropIsWrite(c: Config, s: Sys, t: Sys, st: Step, k: Key)
    requires Enabled(c, s, st) && t == Next(c, s, st)
    requires k in s.store.doc.pending && k !in t.store.doc.pending
    ensures Synced(s, st.p) && (k in s.procs[st.p].doc.pending ==> Seen(s.procs[st.p].doc, k))
  {
  }

  /** ... and so over every run, with crashes, lost writes and unacknowledged writes anywhere. */
  lemma {:induction false} PendingUntilTraded(c: Config, s: Sys, run: seq<Step>, k: Key)
    requires Inv(c, s) && Valid(c, s, run)
    requires k in s.store.doc.pending && k !in After(c, s, run).store.doc.pending
    ensures Traded(After(c, s, run).history, k)
    decreases |run|
  {
    var t := Next(c, s, run[0]);
    StepInv(c, s, run[0]);
    if k in t.store.doc.pending {
      PendingUntilTraded(c, t, run[1..], k);
    } else {
      DropsOnlyTraded(c, s, t, run[0], k);
      RunGrows(c, s, run);
      var i :| 0 <= i < |s.history| && s.history[i].key == k;
      assert After(c, s, run).history[i] == s.history[i];
    }
  }

  /** Conservation over every run from a fresh book: cash is never negative, cash plus the cost of
      open positions is capital plus realised profit, and the fee counter is the fees of the history. */
  lemma RunConserves(c: Config, n: nat, run: seq<Step>)
    requires c.capital >= 0.0 && Valid(c, Init(c, n), run)
    ensures var t := After(c, Init(c, n), run);
            && Sound(c.capital, t.store.doc.book)
            && t.store.doc.book.fees == FeesPaid(t.history)
  {
    InitInv(c, n);
    RunInv(c, Init(c, n), run);
    var t := After(c, Init(c, n), run);
    ReplayConserves(c.capital, t.history);
    ReplayFees(c.capital, t.history);
  }

  /** Over every run each symbol's committed trades alternate BUY and SELL with equal quantities, and
      the durable book holds a position exactly when the newest of them is a BUY. */
  lemma RunAlternates(c: Config, n: nat, run: seq<Step>, sym: Symbol)
    requires Valid(c, Init(c, n), run)
    ensures var t := After(c, Init(c, n), run);
            && Alternates(Of(t.history, sym))
            && Holds(t.store.doc.book, sym, Of(t.history, sym))
  {
    InitInv(c, n);
    RunInv(c, Init(c, n), run);
    ReplayAlternates(c.capital, After(c, Init(c, n), run).history, sym);
  }

  /** Every committed authorized trade has a durable consumption and a decision record that authorizes
      exactly its side; every protective trade sells a symbol that a committed BUY opened before it. */
  lemma RunAudited(c: Config, n: nat, run: seq<Step>, i: nat)
    requires Valid(c, Init(c, n), run) && i < |After(c, Init(c, n), run).history|
    ensures var t := After(c, Init(c, n), run);
            TradeOk(t.store, t.history, i)
  {
    InitInv(c, n);
    RunInv(c, Init(c, n), run);
  }

  predicate Holding(s: Sys, p: nat, d: DecisionId)
  {
    p < |s.procs| && !TicketOf(s.procs[p]).NoTicket? && TicketOf(s.procs[p]).decision == d
  }

  /** Once consumed, a decision can never be authorized again: along any run no process obtains a
      ticket for it that it did not already hold. */
  lemma {:induction false} ConsumedNeverReauthorized(c: Config, s: Sys, run: seq<Step>, d: DecisionId, p: nat)
    requires Valid(c, s, run) && d in s.store.consumed && !Holding(s, p, d)
    ensures !Holding(After(c, s, run), p, d)
    decreases |run|
  {
    if run != [] {
      StepGrows(c, s, run[0]);
      ConsumedNeverReauthorized(c, Next(c, s, run[0]), run[1..], d, p);
    }
  }
}
