/** The loop object itself: account fields, trade list and pending map updated in place around one
    compare-and-set write. Every method appends to a trail of protocol steps that leads from a safe state to
    the object's own state, so what holds over every run holds after every call, up to a whole tick. */
module CouncilLoop {
  import opened Common
  import opened Ledger
  import opened Protocol
  import opened ProtocolSafety
  import opened ProtocolWindow
  import opened TickSpec

  /** The versioned document store with its write-once records. */
  class Database {
    var version: nat
    var doc: Doc
    var consumed: set<DecisionId>
    var records: map<DecisionId, Record>

    ghost function Durable(): Store
      reads this
    {
      Store(version, doc, consumed, records)
    }

    /** Compare-and-set of the account document. Raising leaves the caller without a new version. */
    method PutDocument(value: Doc, expected: nat, o: Outcome) returns (raised: bool)
      modifies this`version, this`doc
      ensures raised == !(expected == old(version) && o.Done?)
      ensures if expected == old(version) && !o.Lost? then version == old(version) + 1 && doc == value
              else version == old(version) && doc == old(doc)
    {
      if expected != version || o.Lost? {
        return true;
      }
      version, doc := version + 1, value;
      raised := o.Unsure?;
    }

    /** Write-once decision record; an identical replay passes, a different one is refused. */
    method PutDecision(d: DecisionId, rec: Record, o: Outcome) returns (raised: bool)
      modifies this`records
      ensures raised == if d in old(records) then old(records)[d] != rec else !o.Done?
      ensures records == if d in old(records) || o.Lost? then old(records) else old(records)[d := rec]
    {
      if d in records {
        return records[d] != rec;
      }
      if o.Lost? {
        return true;
      }
      records := records[d := rec];
      raised := o.Unsure?;
    }

    /** Write-once consumption record of a decision. */
    method PutConsumption(d: DecisionId, o: Outcome) returns (raised: bool)
      modifies this`consumed
      ensures raised == (d in old(consumed) || !o.Done?)
      ensures consumed == if o.Lost? then old(consumed) else old(consumed) + {d}
    {
      if d in consumed || o.Lost? {
        return true;
      }
      consumed := consumed + {d};
      raised := o.Unsure?;
    }
  }

  class PaperLoop {
    const config: Config
    const db: Database
    var cash: real
    var realized: real
    var fees: real
    var positions: map<Symbol, Position>
    var trades: seq<Trade>
    var pending: map<Key, Intent>
    var dbVersion: nat
    ghost var history: seq<Trade>
    ghost var faults: multiset<Key>
    ghost var phase: Phase
    ghost const origin: Sys
    ghost var trail: seq<Step>

    ghost function Account(): Book
      reads this
    {
      Book(cash, realized, fees, positions)
    }

    ghost function Memory(): Doc
      reads this
    {
      Doc(Account(), trades, pending)
    }

    /** The protocol state in which this loop is the only process. */
    ghost function View(): Sys
      reads this, db
    {
      Sys(db.Durable(), [Up(Memory(), dbVersion, phase)], history, faults)
    }

    /** Memory is the durable document. */
    ghost predicate Fair()
      reads this, db
    {
      Memory() == db.doc && dbVersion == db.version
    }

    /** The durable account with its records, and everything committed. */
    ghost function Durably(): World
      reads this, db
    {
      World(db.doc, db.version, db.consumed, db.records, history)
    }

    /** The trail is a run of the protocol from the origin to the present state. */
    ghost predicate Traced()
      reads this, db
    {
      Leads(View())
    }

    /** The trail leads to this state, which the object has or is about to reach. */
    ghost predicate Leads(s: Sys)
      reads this
    {
      Valid(config, origin, trail) && After(config, origin, trail) == s
    }

    /** What holds over every run holds of the object. */
    lemma Safe()
      requires Traced() && Inv(config, origin)
      ensures Inv(config, View())
    {
      RunInv(config, origin, trail);
    }

    /** Loads the durable document of a safe store; recovery is still to come. */
    constructor (c: Config, d: Database, ghost h: seq<Trade>)
      requires Inv(c, Sys(d.Durable(), [Down], h, multiset{}))
      ensures config == c && db == d && fresh(this) && Traced() && Inv(config, origin)
      ensures origin == Sys(d.Durable(), [Down], h, multiset{}) && trail == [Boot(0)]
      ensures Memory() == d.doc && dbVersion == d.version && phase == Recover(AuthKeys(d.doc), false)
    {
      config, db := c, d;
      cash, realized, fees, positions := d.doc.book.cash, d.doc.book.realized, d.doc.book.fees, d.doc.book.positions;
      trades, pending, dbVersion := d.doc.trades, d.doc.pending, d.version;
      history, faults, phase := h, multiset{}, Recover(AuthKeys(d.doc), false);
      origin, trail := Sys(d.Durable(), [Down], h, multiset{}), [Boot(0)];
      new;
      Single(c, origin, Boot(0));
    }

    /** One more step on the trail. */
    ghost method Trace(s: Sys, st: Step, t: Sys)
      requires Leads(s) && Enabled(config, s, st) && t == Next(config, s, st)
      modifies this`trail
      ensures Leads(t) && trail == old(trail) + [st]
    {
      Extend(config, origin, trail, st);
      trail := trail + [st];
    }

    /** The object has just made this step. */
    ghost method Log(s: Sys, st: Step)
      requires Leads(s) && Enabled(config, s, st) && View() == Next(config, s, st)
      modifies this`trail
      ensures Traced() && trail == old(trail) + [st]
    {
      Trace(s, st, View());
    }

    // -------------------------------------------------------------------------------------
    // The account in memory

    /** Replaces memory by the durable document. */
    method ReloadCanonicalState()
      modifies this`cash, this`realized, this`fees, this`positions, this`trades, this`pending, this`dbVersion
      ensures Memory() == db.doc && dbVersion == db.version
    {
      var current := db.doc;
      dbVersion := db.version;
      cash, realized := current.book.cash, current.book.realized;
      fees, positions := current.book.fees, current.book.positions;
      trades, pending := current.trades, current.pending;
    }

    /** Opens a position in memory, or refuses when cash does not cover notional and fee. */
    method OpenPosition(s: Symbol, d: DecisionId, f: Fill) returns (refused: bool)
      modifies this`cash, this`fees, this`positions
      ensures refused == Open(old(Account()), s, d, f).None?
      ensures Account() == if refused then old(Account()) else Open(old(Account()), s, d, f).value
    {
      var required := f.notional + f.fee;
      if required > cash {
        return true;
      }
      cash := cash - required;
      positions := positions[s := Position(f.quantity, f.price, f.reference, f.fee, f.spreadCost, f.slippageCost, d)];
      fees := fees + f.fee;
      refused := false;
    }

    /** Closes the whole position in memory, or refuses on a missing position or another quantity. */
    method ClosePosition(s: Symbol, f: Fill) returns (refused: bool)
      modifies this`cash, this`realized, this`fees, this`positions
      ensures refused == Close(old(Account()), s, f).None?
      ensures Account() == if refused then old(Account()) else Close(old(Account()), s, f).value
    {
      if s !in positions || f.quantity != positions[s].quantity {
        return true;
      }
      var p := positions[s];
      var proceeds := f.price * f.quantity;
      var gross := (f.reference - p.entryReference) * f.quantity;
      var net := gross - (p.entrySpread + f.spreadCost) - (p.entrySlippage + f.slippageCost) - (p.entryFee + f.fee);
      positions := positions - {s};
      cash := cash + (proceeds - f.fee);
      realized := realized + net;
      fees := fees + f.fee;
      refused := false;
    }

    /** The duplicate check over the bounded trade list. */
    method FindExecuted(k: Key) returns (found: bool)
      requires k in pending
      ensures found == Seen(Memory(), k)
    {
      found := false;
      for i := 0 to |trades|
        invariant found == exists j :: 0 <= j < i && SameIntent(trades[j], k, pending[k])
      {
        if SameIntent(trades[i], k, pending[k]) {
          found := true;
        }
      }
    }

    /** Is another decision already staged for the symbol? */
    method HasOther(d: DecisionId, sym: Symbol) returns (other: bool)
      ensures other == Blocks(Memory(), d, sym)
    {
      other := false;
      var rest := pending.Keys;
      while rest != {}
        invariant rest <= pending.Keys
        invariant other == exists k ::
                    k in pending && k !in rest && k.Auth? && k.decision != d && pending[k].symbol == sym
      {
        var k :| k in rest;
        rest := rest - {k};
        if k.Auth? && k.decision != d && pending[k].symbol == sym {
          other := true;
        }
      }
    }

    /** Is another protective intent pending? */
    method HasOtherExit(key: Key) returns (other: bool)
      ensures other == OtherExit(Memory(), key)
    {
      other := false;
      var rest := pending.Keys;
      while rest != {}
        invariant rest <= pending.Keys
        invariant other == exists k :: k in pending && k !in rest && k.Prot? && k != key
      {
        var k :| k in rest;
        rest := rest - {k};
        if k.Prot? && k != key {
          other := true;
        }
      }
    }

    /** Applies the staged fill to the account in memory and appends its trade to the bounded list. */
    method PostInMemory(k: Key) returns (refused: bool)
      requires k in pending
      modifies this`cash, this`realized, this`fees, this`positions, this`trades
      ensures refused == Post(old(Account()), TradeOf(old(Memory()), k)).None?
      ensures !refused ==> Memory() == Applied(config, old(Memory()), k)
    {
      var i := pending[k];
      var t := Trade(i.symbol, k, i.fill);
      if i.fill.side.Buy? {
        if k.Prot? || i.symbol in positions {
          return true;
        }
        refused := OpenPosition(i.symbol, k.decision, i.fill);
      } else {
        refused := ClosePosition(i.symbol, i.fill);
      }
      if !refused {
        trades := Last(trades + [t], config.window);
      }
    }

    method SaveDocument(o: Outcome) returns (raised: bool)
      modifies this`dbVersion, db`version, db`doc
      ensures raised == !(old(dbVersion) == old(db.version) && o.Done?)
      ensures dbVersion == if raised then old(dbVersion) else old(dbVersion) + 1
      ensures db.Durable() == Written(old(View()), 0, Memory(), o)
    {
      raised := db.PutDocument(Doc(Book(cash, realized, fees, positions), trades, pending), dbVersion, o);
      if !raised {
        dbVersion := dbVersion + 1;
      }
    }

    // -------------------------------------------------------------------------------------
    // Single steps

    /** Events and marks save the whole document; a raise ends the tick. */
    method Persist(o: Outcome) returns (raised: bool)
      requires Traced() && (phase.Idle? || phase.Trading? || phase.Entry? || phase.Blocked?)
      modifies this`dbVersion, this`phase, this`trail, db`version, db`doc
      ensures Traced() && View() == Saved(config, old(View()), 0, o) && trail == old(trail) + [Save(0, o)]
      ensures phase == if raised then Idle
                       else if !old(phase).Blocked? then old(phase)
                       else if Held(config, old(phase).i, Memory()) then Entry(old(phase).i, NoTicket)
                       else Trading(old(phase).i + 1)
      ensures old(Fair()) && o.Done? ==> !raised && Fair() && Durably() == Rewritten(old(Durably()))
    {
      ghost var s := View();
      raised := SaveDocument(o);
      phase := Saved(config, s, 0, o).procs[0].phase;
      assert View().procs == Saved(config, s, 0, o).procs;
      Log(s, Save(0, o));
    }

    /** Some events are suppressed and write nothing. */
    method Event(o: Option<Outcome>) returns (raised: bool)
      requires Traced() && (phase.Trading? || phase.Entry?)
      modifies this`dbVersion, this`phase, this`trail, db`version, db`doc
      ensures Traced() && phase == if raised then Idle else old(phase)
      ensures trail == old(trail) + if o.Some? then [Save(0, o.value)] else []
      ensures old(Fair()) && CalmEvent(o) ==> !raised && Fair() && Durably() == WithEvent(old(Durably()), o)
    {
      raised := false;
      if o.Some? { raised := Persist(o.value); }
    }

    /** A local step: nothing but the phase moves. */
    ghost method Move(st: Step, next: Phase)
      requires Traced() && Enabled(config, View(), st)
      requires Next(config, View(), st) == View().(procs := [Up(Memory(), dbVersion, next)])
      modifies this`phase, this`trail
      ensures Traced() && trail == old(trail) + [st] && phase == next
    {
      ghost var s := View();
      phase := next;
      Log(s, st);
    }

    ghost method Begin()
      requires Traced() && phase.Idle?
      modifies this`phase, this`trail
      ensures Traced() && trail == old(trail) + [BeginTick(0)] && phase == Recover(AuthKeys(Memory()), false)
    {
      Move(BeginTick(0), Recover(AuthKeys(Memory()), false));
    }

    ghost method Take(k: Key)
      requires Traced() && phase.Recover? && k in phase.todo
      modifies this`phase, this`trail
      ensures Traced() && trail == old(trail) + [Pick(0, k)]
      ensures phase == Apply(k, InRecovery(old(phase).todo - {k}, old(phase).protective))
    {
      Move(Pick(0, k), Apply(k, InRecovery(phase.todo - {k}, phase.protective)));
    }

    ghost method Proceed()
      requires Traced() && phase.Recover? && phase.todo == {}
      modifies this`phase, this`trail
      ensures Traced() && trail == old(trail) + [Advance(0)]
      ensures phase == if old(phase).protective then Trading(0) else Recover(ProtKeys(Memory()), true)
    {
      Move(Advance(0), if phase.protective then Trading(0) else Recover(ProtKeys(Memory()), true));
    }

    ghost method Skip()
      requires Traced() && ((phase.Trading? && phase.i < |config.symbols|) || phase.Entry?)
      modifies this`phase, this`trail
      ensures Traced() && trail == old(trail) + [Pass(0)]
      ensures phase == if old(phase).Trading? then Entry(old(phase).i, NoTicket) else Trading(old(phase).i + 1)
    {
      Move(Pass(0), if phase.Trading? then Entry(phase.i, NoTicket) else Trading(phase.i + 1));
    }

    ghost method Finish()
      requires Traced() && phase.Trading?
      modifies this`phase, this`trail
      ensures Traced() && trail == old(trail) + [EndTick(0)] && phase.Idle?
    {
      Move(EndTick(0), Idle);
    }

    ghost method StartRuling(d: DecisionId)
      requires Traced() && phase.Entry? && d !in db.consumed
      modifies this`phase, this`trail
      ensures Traced() && trail == old(trail) + [Check(0, d)] && phase == Entry(old(phase).i, Checked(d))
    {
      Move(Check(0, d), Entry(phase.i, Checked(d)));
    }

    /** Rules on a decision that was not consumed yet; only an authorizing ruling that was recorded counts. */
    method AssessEntry(i: nat, d: DecisionId, rec: Record, o: Outcome) returns (granted: bool)
      requires Traced() && phase == Entry(i, NoTicket) && (rec.authorized ==> rec.intent.Some?)
      modifies this`phase, this`trail, db`records
      ensures Traced() && old(trail) <= trail
      ensures granted ==> rec.authorized && d !in db.consumed && d in db.records && db.records[d] == rec
      ensures phase == Entry(i, if granted then Cleared(d, rec.intent.value) else NoTicket)
      ensures o.Done? ==> granted == Grants(old(Durably()), d, rec) && Durably() == WithRuling(old(Durably()), d, rec)
    {
      if d in db.consumed {
        return false;
      }
      StartRuling(d);
      ghost var s := View();
      granted := WriteRuling(i, d, rec, o);
      Log(s, Rule(0, rec, o));
    }

    method WriteRuling(i: nat, d: DecisionId, rec: Record, o: Outcome) returns (granted: bool)
      requires phase == Entry(i, Checked(d)) && (rec.authorized ==> rec.intent.Some?)
      modifies this`phase, db`records
      ensures View() == Ruled(old(View()), 0, rec, o)
      ensures granted ==> rec.authorized && d in db.records && db.records[d] == rec
      ensures phase == Entry(i, if granted then Cleared(d, rec.intent.value) else NoTicket)
      ensures o.Done? && d !in db.consumed ==>
                granted == Grants(old(Durably()), d, rec) && Durably() == WithRuling(old(Durably()), d, rec)
    {
      ghost var s := View();
      var raised := db.PutDecision(d, rec, o);
      granted := !raised && rec.authorized;
      phase := Entry(i, if granted then Cleared(d, rec.intent.value) else NoTicket);
      assert View().procs == Ruled(s, 0, rec, o).procs;
    }

    /** The staging write: the intent stays in memory even when it raised. */
    method WriteStage(i: nat, d: DecisionId, f: Ready, o: Outcome) returns (raised: bool)
      requires i < |config.symbols| && phase == Entry(i, Cleared(d, f.side))
      modifies this`pending, this`dbVersion, this`phase, db`version, db`doc
      ensures View() == StagedAuth(config, old(View()), 0, f, o)
      ensures phase == if raised then Idle else Apply(Auth(d), InEntry(i, false))
    {
      var other := HasOther(d, config.symbols[i]);
      if other {
        raised := true;
      } else {
        pending := pending[Auth(d) := Intent(config.symbols[i], f)];
        raised := SaveDocument(o);
      }
      phase := if raised then Idle else Apply(Auth(d), InEntry(i, false));
      assert View().procs == StagedAuth(config, old(View()), 0, f, o).procs;
    }

    /** Stages an authorized execution; a raise ends the tick. */
    method StageAuthorized(i: nat, d: DecisionId, f: Ready, o: Outcome) returns (raised: bool)
      requires Traced() && i < |config.symbols| && phase == Entry(i, Cleared(d, f.side))
      requires f.side.Sell? <==> config.symbols[i] in positions
      modifies this`pending, this`dbVersion, this`phase, this`trail, db`version, db`doc
      ensures Traced() && View() == StagedAuth(config, old(View()), 0, f, o)
              && trail == old(trail) + [StageAuth(0, f, o)]
      ensures phase == if raised then Idle else Apply(Auth(d), InEntry(i, false))
      ensures old(Fair()) && o.Done? ==>
                && Fair() && raised == Blocks(old(Memory()), d, config.symbols[i])
                && Durably() == if raised then old(Durably())
                                else Staged(old(Durably()), Auth(d), Intent(config.symbols[i], f))
    {
      ghost var s := View();
      raised := WriteStage(i, d, f, o);
      StagedAs(config, s, f, o);
      Log(s, StageAuth(0, f, o));
    }

    /** Consumes the authorization of the intent about to be applied; a raise leaves it to recovery. */
    method ConsumeAuthorization(d: DecisionId, o: Outcome) returns (raised: bool)
      requires Traced() && phase.Apply? && phase.key == Auth(d) && !phase.context.InExit?
      requires phase.context.InEntry? ==> !phase.context.consumed
      requires phase.context.InRecovery? ==> d !in db.consumed
      requires d in db.records && db.records[d].authorized
      modifies this`phase, this`trail, db`consumed
      ensures Traced() && View() == Consumed(old(View()), 0, o) && trail == old(trail) + [Consume(0, o)]
      ensures raised ==> phase == Returned(old(phase).context)
      ensures !raised ==> d in db.consumed && phase.Apply? && phase.key == Auth(d)
      ensures !raised ==> phase.context == if old(phase).context.InEntry? then InEntry(old(phase).context.i, true)
              else old(phase).context
      ensures o.Done? ==> raised == (d in old(db.consumed)) && db.consumed == old(db.consumed) + {d}
    {
      ghost var s := View();
      raised := db.PutConsumption(d, o);
      phase := Consumed(s, 0, o).procs[0].phase;
      assert View().procs == Consumed(s, 0, o).procs;
      Log(s, Consume(0, o));
    }

    /** Stages a protective exit. Memory is restored when its write raised or another exit is pending. */
    method WriteExit(i: nat, reason: string, f: Ready, o: Outcome) returns (raised: bool)
      requires phase == Trading(i) && Held(config, i, Memory())
      modifies this`pending, this`dbVersion, this`phase, db`version, db`doc
      ensures View() == StagedExit(config, old(View()), 0, reason, f, o)
      ensures phase == if raised then Failed(InExit(i, old(Memory()), old(dbVersion)))
                       else Apply(ExitKey(config, i, old(Memory()), reason), InExit(i, old(Memory()), old(dbVersion)))
      ensures old(Fair()) && o.Done? ==>
                var k := ExitKey(config, i, old(Memory()), reason);
                && Fair() && raised == OtherExit(old(Memory()), k)
                && Durably() == if raised then old(Durably())
                    else Staged(old(Durably()), k, Intent(config.symbols[i], f))
    {
      ghost var memory, version := Memory(), dbVersion;
      var sym := config.symbols[i];
      var key := Prot(sym, positions[sym].decision, reason);
      var other := HasOtherExit(key);
      var before := pending;
      if other {
        raised := true;
      } else {
        pending := pending[key := Intent(sym, f)];
        raised := SaveDocument(o);
        if raised { pending := before; }
      }
      assert raised ==> Memory() == memory && dbVersion == version;
      phase := if raised then Failed(InExit(i, memory, version)) else Apply(key, InExit(i, memory, version));
      assert View().procs == StagedExit(config, old(View()), 0, reason, f, o).procs;
    }

    // -------------------------------------------------------------------------------------
    // Applying an intent

    /** After a raise inside an exit, or one that the execution path answers so, memory is loaded. */
    method LoadAfter(ghost t: Sys, ghost y: Context)
      requires Leads(t) && |t.procs| == 1 && t.procs[0].Up? && t.procs[0].phase == Failed(y)
      requires t.store == db.Durable() && t.history == history && t.faults == faults
      modifies this`cash, this`realized, this`fees, this`positions, this`trades, this`pending, this`dbVersion,
          this`phase, this`trail
      ensures Traced() && old(trail) <= trail && phase == Recovered(y)
      ensures Memory() == db.doc && dbVersion == db.version
    {
      ReloadCanonicalState();
      phase := Recovered(y);
      ReloadAs(config, t, y);
      Log(t, Reload(0));
    }

    /** The object has reached this state, its phase and fault count apart. */
    ghost method Arrive(t: Sys, next: Phase)
      requires Leads(t) && t.store == db.Durable() && t.history == history && t.procs == [Up(Memory(), dbVersion, next)]
      modifies this`phase, this`faults
      ensures Traced() && phase == next
    {
      phase, faults := next, t.faults;
      assert View() == t;
    }

    ghost method TraceCompletion(s: Sys, k: Key, y: Context, o: Outcome) returns (t: Sys)
      requires Leads(s) && |s.procs| == 1 && s.procs[0].Up?
               && (s.procs[0].phase == Apply(k, y) || s.procs[0].phase == Settle(k, y))
      requires k in s.procs[0].doc.pending && Seen(s.procs[0].doc, k)
      modifies this`trail
      ensures Leads(t) && trail == old(trail) + [Complete(0, o)]
      ensures var q := s.procs[0]; var doc := q.doc.(pending := q.doc.pending - {k});
              && t.store == Written(s, 0, doc, o) && t.history == s.history
              && t.procs == [if Acked(s, 0, o) then Up(doc, q.version + 1, Resumed(config, doc, y))
                             else if y.InExit? then Up(y.before, y.at, Failed(y))
                             else Up(doc, q.version, Recovered(y))]
    {
      t := Completed(config, s, 0, o);
      Trace(s, Complete(0, o), t);
      CompletedAs(config, s, k, y, o);
    }

    ghost method TraceExecution(s: Sys, k: Key, y: Context, o: Outcome) returns (t: Sys)
      requires Leads(s) && |s.procs| == 1 && s.procs[0].Up? && s.procs[0].phase == Apply(k, y)
      requires Applicable(s, s.procs[0]) && !Seen(s.procs[0].doc, k)
      modifies this`trail
      ensures Leads(t) && old(trail) <= trail
      ensures t == if Posts(s.procs[0].doc, k) then Executed(config, s, 0, o)
              else s.(procs := [Fallen(s.procs[0].doc, s.procs[0].version, y)])
    {
      if Posts(s.procs[0].doc, k) {
        t := Executed(config, s, 0, o);
        Trace(s, Execute(0, o), t);
      } else {
        t := s.(procs := [Fallen(s.procs[0].doc, s.procs[0].version, y)]);
        Trace(s, Refuse(0), t);
      }
    }

    ghost method TraceAbandon(s: Sys, k: Key, y: Context) returns (t: Sys)
      requires Leads(s) && |s.procs| == 1 && s.procs[0].Up? && s.procs[0].phase == Apply(k, y)
      requires k !in s.procs[0].doc.pending || (k.Auth? && k.decision !in s.store.consumed)
      modifies this`trail
      ensures Leads(t) && t == s.(procs := [Raised(s.procs[0].doc, s.procs[0].version, y)]) && old(trail) <= trail
    {
      t := s.(procs := [Raised(s.procs[0].doc, s.procs[0].version, y)]);
      Trace(s, Abandon(0), t);
    }

    /** Drops an executed intent; memory forgets it whether or not the write takes effect. */
    method WriteCompletion(k: Key, o: Outcome) returns (raised: bool)
      modifies this`pending, this`dbVersion, db`version, db`doc
      ensures Memory() == old(Memory()).(pending := old(pending) - {k})
      ensures raised == !Acked(old(View()), 0, o) && db.Durable() == Written(old(View()), 0, Memory(), o)
      ensures dbVersion == if raised then old(dbVersion) else old(dbVersion) + 1
      ensures old(Fair()) && o.Done? ==> !raised && Fair() && Durably() == Dropped(old(Durably()), k)
    {
      pending := pending - {k};
      raised := SaveDocument(o);
    }

    /** The completion and the state it leads to. */
    method TryCompletion(k: Key, ghost y: Context, o: Outcome) returns (raised: bool, ghost t: Sys)
      requires Traced() && (phase == Apply(k, y) || phase == Settle(k, y)) && k in pending && Seen(Memory(), k)
      modifies this`pending, this`dbVersion, this`trail, db`version, db`doc
      ensures Leads(t) && old(trail) <= trail && t.store == db.Durable() && t.history == history
      ensures !raised ==> t.procs == [Up(Memory(), dbVersion, Resumed(config, Memory(), y))]
      ensures raised ==> t.procs == [if y.InExit? then Up(y.before, y.at, Failed(y))
                                     else Up(Memory(), dbVersion, Recovered(y))]
      ensures old(Fair()) && o.Done? ==> !raised && Fair() && Durably() == Dropped(old(Durably()), k)
    {
      ghost var s := View();
      raised := WriteCompletion(k, o);
      t := TraceCompletion(s, k, y, o);
    }

    method CompleteExecution(k: Key, exit: bool, ghost y: Context, o: Outcome) returns (raised: bool)
      requires Traced() && (phase == Apply(k, y) || phase == Settle(k, y)) && exit == y.InExit?
      requires k in pending && Seen(Memory(), k)
      modifies this, db`version, db`doc
      ensures Traced() && old(trail) <= trail && phase == if raised then Recovered(y) else Resumed(config, Memory(), y)
      ensures raised && exit ==> Memory() == db.doc && dbVersion == db.version
      ensures old(Fair()) && o.Done? ==> !raised && Fair() && Durably() == Dropped(old(Durably()), k)
    {
      ghost var t;
      raised, t := TryCompletion(k, y, o);
      if raised && exit {
        faults := t.faults;
        LoadAfter(t, y);
      } else {
        Arrive(t, if raised then Recovered(y) else Resumed(config, Memory(), y));
      }
    }

    /** Book, position and trade in one write. */
    method WriteExecution(k: Key, o: Outcome) returns (refused: bool, raised: bool)
      requires phase.Apply? && phase.key == k && k in pending
      modifies this`cash, this`realized, this`fees, this`positions, this`trades, this`dbVersion, this`history,
          this`faults, db`version, db`doc
      ensures refused == !Posts(old(Memory()), k)
      ensures refused ==> raised && db.Durable() == old(db.Durable())
      ensures refused ==> history == old(history) && faults == old(faults)
      ensures !refused ==>
                var t := Executed(config, old(View()), 0, o);
                && raised == !Acked(old(View()), 0, o)
                && db.Durable() == t.store && history == t.history && faults == t.faults
                && (!raised ==> Memory() == Applied(config, old(Memory()), k) && dbVersion == old(dbVersion) + 1)
      ensures old(Fair()) && o.Done? && !refused ==>
                !raised && Fair() && history == old(history) + [TradeOf(old(Memory()), k)]
    {
      ghost var s := View();
      refused := PostInMemory(k);
      if refused { return true, true; }
      raised := SaveDocument(o);
      history, faults := Executed(config, s, 0, o).history, Executed(config, s, 0, o).faults;
    }

    /** The execution and the state it leads to. */
    method TryExecution(k: Key, ghost y: Context, o: Outcome) returns (raised: bool, ghost t: Sys)
      requires Traced() && phase == Apply(k, y) && Applicable(View(), View().procs[0]) && !Seen(Memory(), k)
      modifies this`cash, this`realized, this`fees, this`positions, this`trades, this`dbVersion, this`history,
          this`faults, this`trail, db`version, db`doc
      ensures Leads(t) && old(trail) <= trail && t.store == db.Durable() && t.history == history && t.faults == faults
      ensures |t.procs| == 1 && t.procs[0].Up? && (raised ==> t.procs[0].phase == Failed(y))
      ensures !raised ==> t.procs == [Up(Memory(), dbVersion, Settle(k, y))]
      ensures !raised ==> Posts(old(Memory()), k) && Memory() == Applied(config, old(Memory()), k)
      ensures old(Fair()) && o.Done? ==>
                && raised == !Posts(old(Memory()), k) && db.doc == (if raised then old(db.doc) else Memory())
                && db.version == old(db.version) + (if raised then 0 else 1)
                && history == (if raised then old(history) else old(history) + [TradeOf(old(Memory()), k)])
                && (!raised ==> dbVersion == db.version)
    {
      ghost var s := View();
      var refused;
      refused, raised := WriteExecution(k, o);
      t := TraceExecution(s, k, y, o);
      if !refused { ExecutedAs(config, s, k, y, o); }
    }

    /** Commits one intent; a refusal or a raise loads the durable document. */
    method CommitExecution(k: Key, ghost y: Context, o: Outcome) returns (raised: bool)
      requires Traced() && phase == Apply(k, y) && Applicable(View(), View().procs[0]) && !Seen(Memory(), k)
      modifies this, db`version, db`doc
      ensures Traced() && old(trail) <= trail && phase == if raised then Recovered(y) else Settle(k, y)
      ensures raised ==> Memory() == db.doc && dbVersion == db.version
      ensures !raised ==> Posts(old(Memory()), k) && Memory() == Applied(config, old(Memory()), k)
      ensures old(Fair()) && o.Done? ==>
                && Fair() && raised == !Posts(old(Memory()), k)
                && history == (if raised then old(history) else old(history) + [TradeOf(old(Memory()), k)])
                && (raised ==> db.doc == old(db.doc)) && db.version == old(db.version) + (if raised then 0 else 1)
    {
      ghost var t;
      raised, t := TryExecution(k, y, o);
      if raised {
        LoadAfter(t, y);
      } else {
        Arrive(t, Settle(k, y));
      }
    }

    /** An intent that is gone, or whose consumption is not durable, is not applied. */
    method Abandoned(k: Key, exit: bool, ghost y: Context)
      requires Traced() && phase == Apply(k, y) && exit == y.InExit?
      requires k !in pending || (k.Auth? && k.decision !in db.consumed)
      modifies this
      ensures Traced() && old(trail) <= trail && phase == Recovered(y) && history == old(history)
      ensures exit ==> Memory() == db.doc && dbVersion == db.version
      ensures old(Fair()) ==> Fair()
    {
      ghost var t := TraceAbandon(View(), k, y);
      if exit {
        LoadAfter(t, y);
      } else {
        Arrive(t, Recovered(y));
      }
    }

    /** An intent that the list does not show is committed and then completed. */
    method CommitAndComplete(k: Key, exit: bool, ghost y: Context, o: Outcome, oc: Outcome) returns (raised: bool)
      requires Traced() && phase == Apply(k, y) && exit == y.InExit? && config.window > 0
      requires Applicable(View(), View().procs[0]) && !Seen(Memory(), k)
      modifies this, db`version, db`doc
      ensures Traced() && old(trail) <= trail
      ensures phase == if raised then Recovered(y) else Resumed(config, Memory(), y)
      ensures raised && exit ==> Memory() == db.doc && dbVersion == db.version
      ensures old(Fair()) && o.Done? && oc.Done? ==>
                && Fair() && raised == !Posts(old(Memory()), k)
                && Durably() == if raised then old(Durably()) else Concluded(config, old(Durably()), k)
    {
      ghost var doc := Memory();
      raised := CommitExecution(k, y, o);
      if raised { return; }
      AppliedSeen(config, doc, k);
      raised := CompleteExecution(k, exit, y, oc);
    }

    /** Applies the intent exactly once: not before its consumption is durable, and only completing it when
        the list shows it executed. */
    method ApplyExecution(k: Key, exit: bool, ghost y: Context, o: Outcome, oc: Outcome) returns (raised: bool)
      requires Traced() && phase == Apply(k, y) && exit == y.InExit? && config.window > 0
      requires y.InEntry? ==> y.consumed
      modifies this, db`version, db`doc
      ensures Traced() && old(trail) <= trail
      ensures phase == if raised then Recovered(y) else Resumed(config, Memory(), y)
      ensures raised && exit ==> Memory() == db.doc && dbVersion == db.version
      ensures old(Fair()) && o.Done? && oc.Done? ==> Fair() && (Durably(), raised) == Settled(config, old(Durably()), k)
    {
      if k !in pending || (k.Auth? && k.decision !in db.consumed) {
        Abandoned(k, exit, y);
        return true;
      }
      var found := FindExecuted(k);
      if found {
        raised := CompleteExecution(k, exit, y, oc);
      } else {
        raised := CommitAndComplete(k, exit, y, o, oc);
      }
    }

    // -------------------------------------------------------------------------------------
    // Visits and recovery

    /** An authorized execution: durable intent, single-use consumption, then the trade. A raise while
        staging or applying ends the tick; a consumption that raised is left to recovery. */
    method ExecuteAuthorized(i: nat, d: DecisionId, f: Ready, stage: Outcome, w: Writes)
      returns (raised: bool)
      requires Traced() && config.window > 0 && i < |config.symbols| && phase == Entry(i, Cleared(d, f.side))
      requires (f.side.Sell? <==> config.symbols[i] in positions) && d in db.records && db.records[d].authorized
      modifies this, db
      ensures Traced() && old(trail) <= trail && phase == if raised then Idle else Trading(i + 1)
      ensures old(Fair()) && stage.Done? && Calm(w) && d !in old(db.consumed) ==>
                Fair() && (Durably(), raised) == Authorized(config, old(Durably()), config.symbols[i], d, f)
    {
      raised := StageAuthorized(i, d, f, stage);
      if raised { return; }
      raised := ConsumeAndApply(i, d, w);
    }

    method ConsumeAndApply(i: nat, d: DecisionId, w: Writes) returns (raised: bool)
      requires Traced() && config.window > 0 && phase == Apply(Auth(d), InEntry(i, false))
      requires d in db.records && db.records[d].authorized
      modifies this, db
      ensures Traced() && old(trail) <= trail && phase == if raised then Idle else Trading(i + 1)
      ensures old(Fair()) && Calm(w) && d !in old(db.consumed) ==>
                && Fair()
                && (Durably(), raised)
                   == Settled(config, old(Durably()).(consumed := old(db.consumed) + {d}), Auth(d))
    {
      var left := ConsumeAuthorization(d, w.consume);
      if left { return false; }
      raised := ApplyExecution(Auth(d), false, InEntry(i, true), w.apply, w.complete);
    }

    /** Stages a protective exit; a refusal or a raise loads the durable document. */
    method StageProtective(i: nat, reason: string, f: Ready, o: Outcome) returns (raised: bool)
      requires Traced() && phase == Trading(i) && Held(config, i, Memory()) && f.side.Sell?
      modifies this, db
      ensures Traced() && old(trail) <= trail
      ensures phase == if raised then Blocked(i)
                       else Apply(ExitKey(config, i, old(Memory()), reason), InExit(i, old(Memory()), old(dbVersion)))
      ensures raised ==> Memory() == db.doc && dbVersion == db.version
      ensures old(Fair()) && o.Done? ==>
                var k := ExitKey(config, i, old(Memory()), reason);
                && Fair() && raised == OtherExit(old(Memory()), k)
                && Durably() == if raised then old(Durably())
                    else Staged(old(Durably()), k, Intent(config.symbols[i], f))
    {
      ghost var y := InExit(i, Memory(), dbVersion);
      raised := TryStage(i, reason, f, o);
      if raised { LoadAfter(View(), y); }
    }

    method TryStage(i: nat, reason: string, f: Ready, o: Outcome) returns (raised: bool)
      requires Traced() && phase == Trading(i) && Held(config, i, Memory()) && f.side.Sell?
      modifies this`pending, this`dbVersion, this`phase, this`trail, db`version, db`doc
      ensures Traced() && old(trail) <= trail
      ensures phase == if raised then Failed(InExit(i, old(Memory()), old(dbVersion)))
                       else Apply(ExitKey(config, i, old(Memory()), reason), InExit(i, old(Memory()), old(dbVersion)))
      ensures old(Fair()) && o.Done? ==>
                var k := ExitKey(config, i, old(Memory()), reason);
                && Fair() && raised == OtherExit(old(Memory()), k)
                && Durably() == if raised then old(Durably())
                    else Staged(old(Durably()), k, Intent(config.symbols[i], f))
    {
      ghost var s := View();
      raised := WriteExit(i, reason, f, o);
      Log(s, StageExit(0, reason, f, o));
    }

    /** A protective exit: durable intent, then the close; any raise loads the durable document. */
    method ExecuteProtective(i: nat, reason: string, f: Ready, stage: Outcome, apply: Outcome, complete: Outcome)
      returns (raised: bool)
      requires Traced() && config.window > 0 && phase == Trading(i) && Held(config, i, Memory()) && f.side.Sell?
      modifies this, db
      ensures Traced() && old(trail) <= trail
      ensures phase == if raised then Blocked(i)
                       else if Held(config, i, Memory()) then Entry(i, NoTicket) else Trading(i + 1)
      ensures raised ==> Memory() == db.doc && dbVersion == db.version
      ensures old(Fair()) && stage.Done? && apply.Done? && complete.Done? ==>
                var k := ExitKey(config, i, old(Memory()), reason);
                Fair() && (Durably(), raised) == Protected(config, old(Durably()), config.symbols[i], k, f)
    {
      ghost var y := InExit(i, Memory(), dbVersion);
      var key := Prot(config.symbols[i], positions[config.symbols[i]].decision, reason);
      raised := StageProtective(i, reason, f, stage);
      if raised { return; }
      raised := ApplyExecution(key, true, y, apply, complete);
    }

    /** The exit that a position's move makes due comes first. The visit goes on to the proposal if the position
        is still there after it, as after a refusal, and ends otherwise. */
    method VisitExit(i: nat, plan: ExitPlan) returns (raised: bool, done: bool)
      requires Traced() && config.window > 0 && phase == Trading(i) && i < |config.symbols|
      requires plan.ExitWith? ==> plan.fill.side.Sell?
      modifies this, db
      ensures Traced() && old(trail) <= trail
      ensures phase == if raised then Idle else if done then Trading(i + 1) else Entry(i, NoTicket)
      ensures old(Fair()) && CalmExit(plan) ==>
                !raised && Fair() && (Durably(), done) == Exited(config, old(Durably()), i, plan)
    {
      if config.symbols[i] !in positions || plan.NoExit? {
        Skip();
        return false, false;
      }
      if plan.Preflight? {
        FailExit(i);
      } else {
        var w := plan.writes;
        var blocked := ExecuteProtective(i, plan.reason, plan.fill, plan.stage, w.apply, w.complete);
        if !blocked { return false, config.symbols[i] !in positions; }
      }
      raised, done := LeaveExit(i, plan.event);
    }

    /** An exit that failed saves its event. */
    method LeaveExit(i: nat, event: Outcome) returns (raised: bool, done: bool)
      requires Traced() && phase == Blocked(i) && i < |config.symbols|
      modifies this`dbVersion, this`phase, this`trail, db`version, db`doc
      ensures Traced() && trail == old(trail) + [Save(0, event)] && done == !Held(config, i, Memory())
      ensures phase == if raised then Idle else if done then Trading(i + 1) else Entry(i, NoTicket)
      ensures old(Fair()) && event.Done? ==> !raised && Fair() && Durably() == Rewritten(old(Durably()))
    {
      raised := Persist(event);
      done := config.symbols[i] !in positions;
    }

    /** A refused preflight of an exit loads the durable document like any other raise there. */
    method FailExit(i: nat)
      requires Traced() && phase == Trading(i) && Held(config, i, Memory())
      modifies this, db
      ensures Traced() && old(trail) <= trail && phase == Blocked(i) && Memory() == db.doc && dbVersion == db.version
      ensures Durably() == old(Durably())
    {
      ghost var y := InExit(i, Memory(), dbVersion);
      Move(ExitFails(0), Failed(y));
      LoadAfter(View(), y);
    }

    /** A proposal: assessed, and executed when the ruling authorizes it and position and fill allow. */
    method VisitEntry(i: nat, plan: EntryPlan) returns (raised: bool)
      requires Traced() && config.window > 0 && phase == Entry(i, NoTicket) && i < |config.symbols|
      requires Coherent(Plan(NoExit, plan))
      modifies this, db
      ensures Traced() && old(trail) <= trail && phase == if raised then Idle else Trading(i + 1)
      ensures old(Fair()) && CalmEntry(plan) ==>
                Fair() && (Durably(), raised) == Entered(config, old(Durably()), i, plan)
    {
      if plan.EntryWith? {
        var granted := AssessEntry(i, plan.decision, plan.ruling, plan.rule);
        if granted && plan.fill.Some? && (plan.fill.value.side.Sell? <==> config.symbols[i] in positions) {
          raised := ExecuteAuthorized(i, plan.decision, plan.fill.value, plan.stage, plan.writes);
          return;
        }
      }
      raised := LeaveVisit(i, plan.event);
    }

    /** The visit ends with its event. */
    method LeaveVisit(i: nat, event: Option<Outcome>) returns (raised: bool)
      requires Traced() && phase.Entry? && phase.i == i
      modifies this`dbVersion, this`phase, this`trail, db`version, db`doc
      ensures Traced() && phase == if raised then Idle else Trading(i + 1)
      ensures trail == old(trail) + (if event.Some? then [Save(0, event.value)] else []) + if raised then []
              else [Pass(0)]
      ensures old(Fair()) && CalmEvent(event) ==> !raised && Fair() && Durably() == WithEvent(old(Durably()), event)
    {
      raised := Event(event);
      if !raised { Skip(); }
    }

    // -------------------------------------------------------------------------------------
    // Recovery

    /** One intent of recovery: consumed when it still can be, then applied; a raise leaves it pending. */
    method RecoverOne(k: Key, ghost todo: set<Key>, ghost protective: bool, w: Writes)
      requires Traced() && config.window > 0 && phase == Recover(todo, protective) && k in todo
      modifies this, db
      ensures Traced() && old(trail) <= trail && phase == Recover(todo - {k}, protective)
      ensures old(Fair()) && Calm(w) ==> Fair() && Durably() == Retried(config, old(Durably()), k)
    {
      ghost var y := InRecovery(todo - {k}, protective);
      Take(k);
      if k.Auth? && k.decision !in db.consumed && k.decision in db.records && db.records[k.decision].authorized {
        var left := ConsumeAuthorization(k.decision, w.consume);
        if left { return; }
      }
      var left := ApplyExecution(k, false, y, w.apply, w.complete);
    }

    /** Every intent of the list is visited once, in some order, whatever happens to the others. */
    method RecoverAll(keys: set<Key>, ghost protective: bool, weather: Key -> Writes) returns (ghost order: seq<Key>)
      requires Traced() && config.window > 0 && phase == Recover(keys, protective)
      modifies this, db
      ensures Traced() && old(trail) <= trail && phase == Recover({}, protective) && Orders(order, keys)
      ensures old(Fair()) && CalmWeather(weather) ==>
                Fair() && Durably() == RetriedAll(config, old(Durably()), order)
    {
      var rest := keys;
      order := [];
      while rest != {}
        invariant Traced() && old(trail) <= trail && phase == Recover(rest, protective)
        invariant rest <= keys && Orders(order, keys - rest)
        invariant old(Fair()) && CalmWeather(weather) ==>
                    Fair() && Durably() == RetriedAll(config, old(Durably()), order)
      {
        var k :| k in rest;
        RecoverOne(k, rest, protective, weather(k));
        RetriedMore(config, old(Durably()), order, keys, rest, k);
        rest, order := rest - {k}, order + [k];
      }
      assert keys - rest == keys;
    }

    /** The authorized intents of this memory first, then the protective ones of the memory that leaves. */
    method RecoverPending(weather: Key -> Writes) returns (ghost auths: seq<Key>, ghost prots: seq<Key>)
      requires Traced() && config.window > 0 && phase == Recover(AuthKeys(Memory()), false)
      modifies this, db
      ensures Traced() && old(trail) <= trail && phase == Trading(0)
      ensures old(Fair()) && CalmWeather(weather) ==>
                && Fair() && Recovers(config, old(Durably()), auths, prots)
                && Durably() == RetriedAll(config, RetriedAll(config, old(Durably()), auths), prots)
    {
      auths := RecoverAll(set k | k in pending && k.Auth?, false, weather);
      Proceed();
      prots := RecoverAll(set k | k in pending && k.Prot?, true, weather);
      Proceed();
    }

    /** The recovery that follows loading at the start of a process. */
    method RecoverAtStart(weather: Key -> Writes) returns (ghost auths: seq<Key>, ghost prots: seq<Key>)
      requires Traced() && config.window > 0 && phase == Recover(AuthKeys(Memory()), false)
      modifies this, db
      ensures Traced() && old(trail) <= trail && phase == Idle
      ensures old(Fair()) && CalmWeather(weather) ==>
                && Fair() && Recovers(config, old(Durably()), auths, prots)
                && Durably() == RetriedAll(config, RetriedAll(config, old(Durably()), auths), prots)
    {
      auths, prots := RecoverPending(weather);
      Finish();
    }

    /** The symbols in order, up to the first raise. */
    method VisitAll(plans: seq<Plan>) returns (raised: bool)
      requires Traced() && config.window > 0 && phase == Trading(0)
      requires |plans| == |config.symbols| && forall i :: 0 <= i < |plans| ==> Coherent(plans[i])
      modifies this, db
      ensures Traced() && old(trail) <= trail && phase == if raised then Idle else Trading(|plans|)
      ensures old(Fair()) && CalmPlans(plans) ==>
                Fair() && (Durably(), raised) == VisitedTo(config, old(Durably()), plans, |plans|)
    {
      for i := 0 to |plans|
        invariant Traced() && old(trail) <= trail && phase == Trading(i)
        invariant old(Fair()) && CalmPlans(plans) ==>
                    Fair() && (Durably(), false) == VisitedTo(config, old(Durably()), plans, i)
      {
        raised := Visit(i, plans[i]);
        if raised {
          VisitedStays(config, old(Durably()), plans, i + 1, |plans|);
          return;
        }
      }
      raised := false;
    }

    /** One symbol: the exit, and the proposal unless the exit ended the visit. */
    method Visit(i: nat, plan: Plan) returns (raised: bool)
      requires Traced() && config.window > 0 && phase == Trading(i) && i < |config.symbols| && Coherent(plan)
      modifies this, db
      ensures Traced() && old(trail) <= trail && phase == if raised then Idle else Trading(i + 1)
      ensures old(Fair()) && CalmPlan(plan) ==>
                Fair() && (Durably(), raised) == Visited(config, old(Durably()), i, plan)
    {
      var done;
      raised, done := VisitExit(i, plan.exit);
      if raised || done { return; }
      raised := VisitEntry(i, plan.entry);
    }

    /** One tick: recovery, then every symbol in order unless the market is not verified or a raise leaves
        the tick, then the closing save. However it goes, the tick is a run of the protocol; when nothing
        raised, the run took recovery and every symbol before that save. When every write returns, it does exactly what
        `TickSpec` says. */
    method Tick(weather: Key -> Writes, verified: bool, plans: seq<Plan>, last: Outcome)
      returns (raised: bool, ghost work: seq<Step>, ghost auths: seq<Key>, ghost prots: seq<Key>)
      requires Traced() && config.window > 0 && phase == Idle
      requires |plans| == |config.symbols| && forall i :: 0 <= i < |plans| ==> Coherent(plans[i])
      modifies this, db
      ensures Traced() && old(trail) <= trail && phase == Idle
      ensures !raised ==>
                && old(trail) <= work && trail == work + [Save(0, last), EndTick(0)]
                && At(config, origin, work, Trading(if verified then |plans| else 0))
      ensures old(Fair()) && CalmWeather(weather) && CalmPlans(plans) && last.Done? ==>
                Fair() && IsTick(config, old(Durably()), auths, prots, verified, plans, Durably(), raised)
    {
      raised, auths, prots := Sweep(weather, verified, plans);
      work := trail;
      if raised { return; }
      Here();
      raised := SaveLast(last);
    }

    /** Recovery, and then every symbol if the market is verified. */
    method Sweep(weather: Key -> Writes, verified: bool, plans: seq<Plan>)
      returns (raised: bool, ghost auths: seq<Key>, ghost prots: seq<Key>)
      requires Traced() && config.window > 0 && phase == Idle
      requires |plans| == |config.symbols| && forall i :: 0 <= i < |plans| ==> Coherent(plans[i])
      modifies this, db
      ensures Traced() && old(trail) <= trail
      ensures phase == if raised then Idle else Trading(if verified then |plans| else 0)
      ensures old(Fair()) && CalmWeather(weather) && CalmPlans(plans) ==>
                && Fair() && Recovers(config, old(Durably()), auths, prots)
                && (Durably(), raised) == Swept(config, old(Durably()), auths, prots, verified, plans)
    {
      Begin();
      auths, prots := RecoverPending(weather);
      raised := false;
      if verified { raised := VisitAll(plans); }
    }

    /** The closing save. */
    method SaveLast(last: Outcome) returns (raised: bool)
      requires Traced() && phase.Trading?
      modifies this`dbVersion, this`phase, this`trail, db`version, db`doc
      ensures Traced() && old(trail) <= trail && phase == Idle
      ensures !raised ==> trail == old(trail) + [Save(0, last), EndTick(0)]
      ensures old(Fair()) && last.Done? ==> !raised && Fair() && Durably() == Rewritten(old(Durably()))
    {
      raised := Persist(last);
      if !raised { Finish(); }
    }

    lemma Here()
      requires Traced()
      ensures At(config, origin, trail, phase)
    {
    }

    /** From the fresh store, nothing is committed twice while no intent meets more faults than the list can take. */
    lemma CommitsOnce(f: nat)
      requires Traced() && origin == Init(config, 1) && Bound(config, 1, f) < config.window
      requires forall x :: faults[x] <= f
      ensures NoDuplicates(history)
    {
      SingleExecution(config, 1, trail, f);
    }

    /** The account is sound whatever the calls met: after any number of ticks, raises and reloads the durable
        book conserves, and its trades alternate in each symbol. */
    lemma Accounts(sym: Symbol)
      requires Traced() && Inv(config, origin) && config.capital >= 0.0
      ensures Sound(config.capital, db.doc.book) && db.doc.book.fees == FeesPaid(history)
      ensures Alternates(Of(history, sym)) && Holds(db.doc.book, sym, Of(history, sym))
    {
      Safe();
      ReplayConserves(config.capital, history);
      ReplayFees(config.capital, history);
      ReplayAlternates(config.capital, history, sym);
    }
  }

  /** A whole life of the process: loading, recovery at the start, and one tick after another, whatever they meet.
      It is a run of the protocol from the store as it was, and the account it leaves is sound. */
  method Live(c: Config, d: Database, ghost h: seq<Trade>, start: Key -> Writes, days: seq<Day>)
    returns (loop: PaperLoop)
    requires Inv(c, Sys(d.Durable(), [Down], h, multiset{})) && c.window > 0 && c.capital >= 0.0
    requires forall i :: 0 <= i < |days| ==> Fits(c, days[i])
    modifies d
    ensures fresh(loop) && loop.config == c && loop.db == d && loop.Traced() && loop.phase == Idle
    ensures loop.origin == Sys(old(d.Durable()), [Down], h, multiset{}) && [Boot(0)] <= loop.trail
    ensures Sound(c.capital, d.doc.book) && d.doc.book.fees == FeesPaid(loop.history)
    ensures forall sym :: Alternates(Of(loop.history, sym)) && Holds(d.doc.book, sym, Of(loop.history, sym))
  {
    loop := new PaperLoop(c, d, h);
    var auths, prots := loop.RecoverAtStart(start);
    for i := 0 to |days|
      invariant loop.Traced() && [Boot(0)] <= loop.trail && loop.phase == Idle && fresh(loop)
    {
      var raised, work, keys, others := loop.Tick(days[i].weather, days[i].verified, days[i].plans, days[i].last);
    }
    forall sym ensures Sound(c.capital, d.doc.book) && d.doc.book.fees == FeesPaid(loop.history)
                       && Alternates(Of(loop.history, sym)) && Holds(d.doc.book, sym, Of(loop.history, sym))
    {
      loop.Accounts(sym);
    }
    loop.Accounts("");
  }

  /** This run brings a lone process to the phase. */
  ghost predicate At(c: Config, s: Sys, run: seq<Step>, phase: Phase)
  {
    Valid(c, s, run) && var t := After(c, s, run); |t.procs| == 1 && t.procs[0].Up? && t.procs[0].phase == phase
  }

  /** Loading, for a lone process. */
  lemma ReloadAs(c: Config, t: Sys, y: Context)
    requires |t.procs| == 1 && t.procs[0].Up? && t.procs[0].phase == Failed(y)
    ensures Enabled(c, t, Reload(0))
            && Next(c, t, Reload(0)) == t.(procs := [Up(t.store.doc, t.store.version, Recovered(y))])
  {
  }

  /** Staging by a lone process that holds the durable document. */
  lemma StagedAs(c: Config, s: Sys, f: Ready, o: Outcome)
    requires |s.procs| == 1 && s.procs[0].Up? && s.procs[0].phase.Entry? && s.procs[0].phase.ticket.Cleared?
             && s.procs[0].phase.i < |c.symbols|
    ensures var q, t := s.procs[0], StagedAuth(c, s, 0, f, o);
            var d, sym := q.phase.ticket.decision, c.symbols[q.phase.i];
            q.doc == s.store.doc && q.version == s.store.version && o.Done? ==>
              && t.store.consumed == s.store.consumed && t.store.records == s.store.records && t.history == s.history
              && t.procs[0].Up? && t.procs[0].doc == t.store.doc && t.procs[0].version == t.store.version
              && (if Blocks(q.doc, d, sym) then t.store == s.store && t.procs[0].phase == Idle
                  else t.store.version == s.store.version + 1 && t.procs[0].phase.Apply?
                       && t.store.doc == q.doc.(pending := q.doc.pending[Auth(d) := Intent(sym, f)]))
  {
  }

  /** The state of a lone process after an execution. */
  lemma ExecutedAs(c: Config, s: Sys, k: Key, y: Context, o: Outcome)
    requires |s.procs| == 1 && s.procs[0].Up? && s.procs[0].phase == Apply(k, y) && Posts(s.procs[0].doc, k)
    ensures var q, t := s.procs[0], Executed(c, s, 0, o);
            && |t.procs| == 1 && t.procs[0].Up?
            && (Acked(s, 0, o) ==> t.procs == [Up(Applied(c, q.doc, k), q.version + 1, Settle(k, y))])
            && (!Acked(s, 0, o) ==> t.procs[0].phase == Failed(y))
  {
  }

  /** The state of a lone process after a completion. */
  lemma CompletedAs(c: Config, s: Sys, k: Key, y: Context, o: Outcome)
    requires |s.procs| == 1 && s.procs[0].Up? && (s.procs[0].phase == Apply(k, y) || s.procs[0].phase == Settle(k, y))
    ensures var q, t := s.procs[0], Completed(c, s, 0, o);
            var doc := q.doc.(pending := q.doc.pending - {k});
            && t.store == Written(s, 0, doc, o) && t.history == s.history
            && t.procs == [if Acked(s, 0, o) then Up(doc, q.version + 1, Resumed(c, doc, y))
                           else if y.InExit? then Up(y.before, y.at, Failed(y)) else Up(doc, q.version, Recovered(y))]
  {
  }

  /** One more step at the end of a run. */
  lemma Extend(c: Config, s: Sys, run: seq<Step>, st: Step)
    requires Valid(c, s, run) && Enabled(c, After(c, s, run), st)
    ensures Valid(c, s, run + [st]) && After(c, s, run + [st]) == Next(c, After(c, s, run), st)
  {
    Single(c, After(c, s, run), st);
    Concat(c, s, run, [st]);
  }

  lemma AppliedSeen(c: Config, doc: Doc, k: Key)
    requires c.window > 0 && Posts(doc, k)
    ensures Seen(Applied(c, doc, k), k)
  {
    var ts := Applied(c, doc, k).trades;
    assert ts[|ts| - 1] == TradeOf(doc, k);
    assert SameIntent(ts[|ts| - 1], k, doc.pending[k]);
  }
}
