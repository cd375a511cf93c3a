/** The crash-recoverable, single-use PAPER execution protocol as a state machine: any number of
    loop processes over one versioned store, each with volatile memory that a crash erases. One step
    is the local work up to and including one store operation. */
module Protocol {
  import opened Common
  import opened Ledger

  /** A staged execution: the exact fill that a later step applies. */
  datatype Intent = Intent(symbol: Symbol, fill: Ready)

  /** The account document. `trades` is bounded; `pending` joins the two pending maps of the program. */
  datatype Doc = Doc(book: Book, trades: seq<Trade>, pending: map<Key, Intent>)

  /** The immutable record of one controller decision. */
  datatype Record = Record(authorized: bool, intent: Option<Side>, decidedAt: int)

  /** The durable side: the versioned document, the single-use consumptions and the decision records. */
  datatype Store = Store(version: nat, doc: Doc, consumed: set<DecisionId>, records: map<DecisionId, Record>)

  /** How far a visit has come with its proposal: not consumed when checked, then authorized. */
  datatype Ticket = NoTicket | Checked(decision: DecisionId) | Cleared(decision: DecisionId, side: Side)

  /** Where an intent is being applied, and so where a return or a raise leads. An exit keeps the memory
      it started from; an entry notes whether its own consumption succeeded. */
  datatype Context =
    | InRecovery(todo: set<Key>, protective: bool)
    | InExit(i: nat, before: Doc, at: nat)
    | InEntry(i: nat, consumed: bool)

  /** Where a process is in its cycle. Recovery takes the authorized intents and then the protective ones;
      trading visits the symbols in order, a protective exit first and then the entry or authorized exit. */
  datatype Phase =
    | Idle
    | Recover(todo: set<Key>, protective: bool)
    | Trading(i: nat)
    | Entry(i: nat, ticket: Ticket)
    | Apply(key: Key, context: Context)
    | Settle(key: Key, context: Context)
    | Failed(context: Context)
    | Blocked(i: nat)

  datatype Proc = Down | Up(doc: Doc, version: nat, phase: Phase)

  /** A store write returns, raises without effect, or takes effect and raises all the same. */
  datatype Outcome = Done | Lost | Unsure

  /** `history` is every trade any durable document write ever appended; `faults` counts for each intent
      the execution writes that took effect and raised and the completion writes that had no effect. */
  datatype Sys = Sys(store: Store, procs: seq<Proc>, history: seq<Trade>, faults: multiset<Key>)

  datatype Config = Config(symbols: seq<Symbol>, window: nat, capital: real)

  /** The document keeps the newest 500 trades. */
  const TRADE_WINDOW: nat := 500

  datatype Step =
    | Boot(p: nat)
    | Crash(p: nat)
    | BeginTick(p: nat)
    | Pick(p: nat, key: Key)
    | Advance(p: nat)
    | EndTick(p: nat)
    | Pass(p: nat)
    | Check(p: nat, decision: DecisionId)
    | Rule(p: nat, rec: Record, o: Outcome)
    | StageAuth(p: nat, fill: Ready, o: Outcome)
    | ExitFails(p: nat)
    | StageExit(p: nat, reason: string, fill: Ready, o: Outcome)
    | Consume(p: nat, o: Outcome)
    | Execute(p: nat, o: Outcome)
    | Complete(p: nat, o: Outcome)
    | Refuse(p: nat)
    | Abandon(p: nat)
    | Reload(p: nat)
    | Keep(p: nat)
    | Save(p: nat, o: Outcome)

  /** Does this trade carry the execution intent id of the staged intent? */
  predicate SameIntent(t: Trade, k: Key, i: Intent)
  {
    t.key == k && (k.Auth? ==> t.fill.side == i.fill.side)
  }

  /** The duplicate check: it looks at the bounded trade list only. */
  predicate Seen(doc: Doc, k: Key)
    requires k in doc.pending
  {
    exists i :: 0 <= i < |doc.trades| && SameIntent(doc.trades[i], k, doc.pending[k])
  }

  function TradeOf(doc: Doc, k: Key): Trade
    requires k in doc.pending
  {
    Trade(doc.pending[k].symbol, k, doc.pending[k].fill)
  }

  /** The document with the intent's trade applied and the bounded list cut again. */
  function Applied(c: Config, doc: Doc, k: Key): Doc
    requires k in doc.pending && Post(doc.book, TradeOf(doc, k)).Some?
  {
    doc.(book := Post(doc.book, TradeOf(doc, k)).value, trades := Last(doc.trades + [TradeOf(doc, k)], c.window))
  }

  predicate IsUp(s: Sys, p: nat) { p < |s.procs| && s.procs[p].Up? }

  /** The process works on the document version that is durable. */
  predicate Synced(s: Sys, p: nat) { IsUp(s, p) && s.procs[p].version == s.store.version }

  /** A compare-and-set write takes effect only from the current version. */
  predicate Lands(s: Sys, p: nat, o: Outcome) { Synced(s, p) && !o.Lost? }

  predicate Acked(s: Sys, p: nat, o: Outcome) { Synced(s, p) && o.Done? }

  function Written(s: Sys, p: nat, doc: Doc, o: Outcome): Store
  {
    if Lands(s, p, o) then s.store.(version := s.store.version + 1, doc := doc) else s.store
  }

  function With(s: Sys, p: nat, q: Proc): seq<Proc>
    requires p < |s.procs|
  {
    s.procs[p := q]
  }

  /** Another decision is already staged for the symbol. */
  predicate Blocks(doc: Doc, d: DecisionId, sym: Symbol)
  {
    exists k :: k in doc.pending && k.Auth? && k.decision != d && doc.pending[k].symbol == sym
  }

  predicate OtherExit(doc: Doc, key: Key)
  {
    exists k :: k in doc.pending && k.Prot? && k != key
  }

  function AuthKeys(doc: Doc): set<Key> { set k | k in doc.pending && k.Auth? }

  function ProtKeys(doc: Doc): set<Key> { set k | k in doc.pending && k.Prot? }

  /** The symbol under visit has a position in this memory. */
  predicate Held(c: Config, i: nat, doc: Doc) { i < |c.symbols| && c.symbols[i] in doc.book.positions }

  function ExitKey(c: Config, i: nat, doc: Doc, reason: string): Key
    requires Held(c, i, doc)
  {
    Prot(c.symbols[i], doc.book.positions[c.symbols[i]].decision, reason)
  }

  // Where a process goes on

  /** After a consumption that leaves the intent to recovery, or an intent applied and completed. */
  function Returned(x: Context): Phase
  {
    match x
    case InRecovery(todo, b) => Recover(todo, b)
    case InExit(i, _, _) => Trading(i + 1)
    case InEntry(i, _) => Trading(i + 1)
  }

  /** After a completion. An exit that found its intent executed before still has the position, and the visit
      goes on to the proposal. */
  function Resumed(c: Config, doc: Doc, x: Context): Phase
  {
    if x.InExit? && Held(c, x.i, doc) then Entry(x.i, NoTicket) else Returned(x)
  }

  /** After a raise with this memory: recovery goes on, an entry ends the tick, an exit still has to load. */
  function Raised(doc: Doc, version: nat, x: Context): Proc
  {
    match x
    case InRecovery(todo, b) => Up(doc, version, Recover(todo, b))
    case InExit(_, before, at) => Up(before, at, Failed(x))
    case InEntry(_, _) => Up(doc, version, Idle)
  }

  /** After a raise that the execution path answers by loading the durable document. The memory is what
      remains when that load fails. */
  function Fallen(doc: Doc, version: nat, x: Context): Proc
  {
    match x
    case InExit(_, before, at) => Up(before, at, Failed(x))
    case _ => Up(doc, version, Failed(x))
  }

  /** After that load. */
  function Recovered(x: Context): Phase
  {
    match x
    case InRecovery(todo, b) => Recover(todo, b)
    case InExit(i, _, _) => Blocked(i)
    case InEntry(_, _) => Idle
  }

  /** The intent is there and its authorization is durable; an entry applies only what it consumed itself. */
  predicate Applicable(s: Sys, q: Proc)
    requires q.Up? && q.phase.Apply?
  {
    && q.phase.key in q.doc.pending
    && (q.phase.key.Auth? ==> q.phase.key.decision in s.store.consumed)
    && (q.phase.context.InEntry? ==> q.phase.context.consumed)
  }

  predicate Posts(doc: Doc, k: Key) { k in doc.pending && Post(doc.book, TradeOf(doc, k)).Some? }

  predicate Enabled(c: Config, s: Sys, st: Step)
  {
    && st.p < |s.procs|
    && (st.Boot? <==> s.procs[st.p].Down?)
    && (s.procs[st.p].Up? ==> CanMove(c, s, s.procs[st.p], st))
  }

  predicate CanMove(c: Config, s: Sys, q: Proc, st: Step)
    requires q.Up?
  {
    match st
    case Boot(_) => false
    case Crash(_) => true
    case BeginTick(_) => q.phase.Idle?
    case Pick(_, k) => q.phase.Recover? && k in q.phase.todo
    case Advance(_) => q.phase.Recover? && q.phase.todo == {}
    case EndTick(_) => q.phase.Recover? || q.phase.Trading? || q.phase.Entry? || q.phase.Blocked?
    case Pass(_) => (q.phase.Trading? && q.phase.i < |c.symbols|) || q.phase.Entry?
    case Check(_, d) => q.phase.Entry? && d !in s.store.consumed
    case Rule(_, rec, _) => q.phase.Entry? && q.phase.ticket.Checked? && (rec.authorized ==> rec.intent.Some?)
    case StageAuth(_, fill, _) =>
      && q.phase.Entry? && q.phase.ticket.Cleared? && q.phase.i < |c.symbols|
      && fill.side == q.phase.ticket.side
      && (fill.side.Sell? <==> Held(c, q.phase.i, q.doc))
    case ExitFails(_) => q.phase.Trading? && Held(c, q.phase.i, q.doc)
    case StageExit(_, _, fill, _) => q.phase.Trading? && Held(c, q.phase.i, q.doc) && fill.side.Sell?
    case Consume(_, _) =>
      && q.phase.Apply? && q.phase.key.Auth?
      && q.phase.key.decision in s.store.records && s.store.records[q.phase.key.decision].authorized
      && (q.phase.context.InRecovery? ==> q.phase.key.decision !in s.store.consumed)
      && (q.phase.context.InEntry? ==> !q.phase.context.consumed) && !q.phase.context.InExit?
    case Execute(_, _) =>
      q.phase.Apply? && Applicable(s, q) && !Seen(q.doc, q.phase.key) && Posts(q.doc, q.phase.key)
    case Complete(_, _) =>
      (q.phase.Apply? || q.phase.Settle?) && q.phase.key in q.doc.pending && Seen(q.doc, q.phase.key)
    case Refuse(_) =>
      q.phase.Apply? && Applicable(s, q) && !Seen(q.doc, q.phase.key) && !Posts(q.doc, q.phase.key)
    case Abandon(_) =>
      && q.phase.Apply?
      && (q.phase.key !in q.doc.pending || (q.phase.key.Auth? && q.phase.key.decision !in s.store.consumed))
    case Reload(_) => q.phase.Failed?
    case Keep(_) => q.phase.Failed?
    case Save(_, _) => q.phase.Idle? || q.phase.Trading? || q.phase.Entry? || q.phase.Blocked?
  }

  /** A ruling is recorded once; an identical replay passes and a different one is refused. */
  function Ruled(s: Sys, p: nat, rec: Record, o: Outcome): Sys
    requires IsUp(s, p) && s.procs[p].phase.Entry? && s.procs[p].phase.ticket.Checked?
  {
    var q := s.procs[p];
    var d := q.phase.ticket.decision;
    var refused := q.(phase := Entry(q.phase.i, NoTicket));
    var granted :=
      if rec.authorized && rec.intent.Some? then q.(phase := Entry(q.phase.i, Cleared(d, rec.intent.value)))
          else refused;
    if d in s.store.records then
      s.(procs := With(s, p, if s.store.records[d] == rec then granted else refused))
    else if o.Lost? then s.(procs := With(s, p, refused))
    else
      s.(store := s.store.(records := s.store.records[d := rec]),
          procs := With(s, p, if o.Done? then granted else refused))
  }

  /** Staging keeps the new intent in memory even when its write raised; the raise ends the tick. */
  function StagedAuth(c: Config, s: Sys, p: nat, fill: Ready, o: Outcome): Sys
    requires IsUp(s, p) && s.procs[p].phase.Entry? && s.procs[p].phase.ticket.Cleared?
             && s.procs[p].phase.i < |c.symbols|
  {
    var q := s.procs[p];
    var d, sym := q.phase.ticket.decision, c.symbols[q.phase.i];
    if Blocks(q.doc, d, sym) then s.(procs := With(s, p, q.(phase := Idle)))
    else
      var doc := q.doc.(pending := q.doc.pending[Auth(d) := Intent(sym, fill)]);
      s.(store := Written(s, p, doc, o),
         procs := With(s, p, if Acked(s, p, o) then Up(doc, q.version + 1, Apply(Auth(d), InEntry(q.phase.i, false)))
                             else Up(doc, q.version, Idle)))
  }

  /** One exit may be pending at a time; a refusal or a raise loads the durable document. */
  function StagedExit(c: Config, s: Sys, p: nat, reason: string, fill: Ready, o: Outcome): Sys
    requires IsUp(s, p) && s.procs[p].phase.Trading? && Held(c, s.procs[p].phase.i, s.procs[p].doc)
  {
    var q := s.procs[p];
    var k, x := ExitKey(c, q.phase.i, q.doc, reason), InExit(q.phase.i, q.doc, q.version);
    if OtherExit(q.doc, k) then s.(procs := With(s, p, Fallen(q.doc, q.version, x)))
    else
      var doc := q.doc.(pending := q.doc.pending[k := Intent(c.symbols[q.phase.i], fill)]);
      s.(store := Written(s, p, doc, o),
         procs := With(s, p, if Acked(s, p, o) then Up(doc, q.version + 1, Apply(k, x))
             else Fallen(q.doc, q.version, x)))
  }

  /** A consumption that raised, or was there already, leaves the intent to recovery. */
  function Consumed(s: Sys, p: nat, o: Outcome): Sys
    requires IsUp(s, p) && s.procs[p].phase.Apply? && s.procs[p].phase.key.Auth?
  {
    var q := s.procs[p];
    var d, x := q.phase.key.decision, q.phase.context;
    var granted := if x.InEntry? then q.(phase := Apply(q.phase.key, InEntry(x.i, true))) else q;
    s.(store := if o.Lost? then s.store else s.store.(consumed := s.store.consumed + {d}),
       procs := With(s, p, if d !in s.store.consumed && o.Done? then granted else q.(phase := Returned(x))))
  }

  /** Applying an intent writes book, position and trade in one document. */
  function Executed(c: Config, s: Sys, p: nat, o: Outcome): Sys
    requires IsUp(s, p) && s.procs[p].phase.Apply? && Posts(s.procs[p].doc, s.procs[p].phase.key)
  {
    var q := s.procs[p];
    var k, x := q.phase.key, q.phase.context;
    var doc := Applied(c, q.doc, k);
    s.(store := Written(s, p, doc, o),
       history := if Lands(s, p, o) then s.history + [TradeOf(q.doc, k)] else s.history,
       faults := if Lands(s, p, o) && !Acked(s, p, o) then s.faults + multiset{k} else s.faults,
       procs := With(s, p, if Acked(s, p, o) then Up(doc, q.version + 1, Settle(k, x))
           else Fallen(q.doc, q.version, x)))
  }

  /** Completion drops the intent from memory before its write; a raise does not bring it back. */
  function Completed(c: Config, s: Sys, p: nat, o: Outcome): Sys
    requires IsUp(s, p) && (s.procs[p].phase.Apply? || s.procs[p].phase.Settle?)
  {
    var q := s.procs[p];
    var k, x := q.phase.key, q.phase.context;
    var doc := q.doc.(pending := q.doc.pending - {k});
    s.(store := Written(s, p, doc, o),
       faults := if !Lands(s, p, o) && k in s.store.doc.pending then s.faults + multiset{k} else s.faults,
       procs := With(s, p, if Acked(s, p, o) then Up(doc, q.version + 1, Resumed(c, doc, x))
           else Raised(doc, q.version, x)))
  }

  /** Events and marks save the whole document; a raise ends the tick. */
  function Saved(c: Config, s: Sys, p: nat, o: Outcome): Sys
    requires IsUp(s, p)
  {
    var q := s.procs[p];
    var after :=
      if !q.phase.Blocked? then q.phase
      else if Held(c, q.phase.i, q.doc) then Entry(q.phase.i, NoTicket) else Trading(q.phase.i + 1);
    s.(store := Written(s, p, q.doc, o),
       procs := With(s, p, if Acked(s, p, o) then Up(q.doc, q.version + 1, after) else q.(phase := Idle)))
  }

  function Next(c: Config, s: Sys, st: Step): Sys
    requires Enabled(c, s, st)
  {
    var q := s.procs[st.p];
    match st
    case Boot(p) => s.(procs := With(s, p, Up(s.store.doc, s.store.version, Recover(AuthKeys(s.store.doc), false))))
    case Crash(p) => s.(procs := With(s, p, Down))
    case BeginTick(p) => s.(procs := With(s, p, q.(phase := Recover(AuthKeys(q.doc), false))))
    case Pick(p, k) =>
      s.(procs := With(s, p, q.(phase := Apply(k, InRecovery(q.phase.todo - {k}, q.phase.protective)))))
    case Advance(p) =>
      s.(procs := With(s, p, q.(phase := if q.phase.protective then Trading(0) else Recover(ProtKeys(q.doc), true))))
    case EndTick(p) => s.(procs := With(s, p, q.(phase := Idle)))
    case Pass(p) =>
      var next := if q.phase.Trading? then Entry(q.phase.i, NoTicket) else Trading(q.phase.i + 1);
      s.(procs := With(s, p, q.(phase := next)))
    case Check(p, d) => s.(procs := With(s, p, q.(phase := Entry(q.phase.i, Checked(d)))))
    case Rule(p, rec, o) => Ruled(s, p, rec, o)
    case StageAuth(p, fill, o) => StagedAuth(c, s, p, fill, o)
    case ExitFails(p) => s.(procs := With(s, p, Fallen(q.doc, q.version, InExit(q.phase.i, q.doc, q.version))))
    case StageExit(p, reason, fill, o) => StagedExit(c, s, p, reason, fill, o)
    case Consume(p, o) => Consumed(s, p, o)
    case Execute(p, o) => Executed(c, s, p, o)
    case Complete(p, o) => Completed(c, s, p, o)
    case Refuse(p) => s.(procs := With(s, p, Fallen(q.doc, q.version, q.phase.context)))
    case Abandon(p) => s.(procs := With(s, p, Raised(q.doc, q.version, q.phase.context)))
    case Reload(p) => s.(procs := With(s, p, Up(s.store.doc, s.store.version, Recovered(q.phase.context))))
    case Keep(p) => s.(procs := With(s, p, q.(phase := Recovered(q.phase.context))))
    case Save(p, o) => Saved(c, s, p, o)
  }

  /** A fresh book, durable at version 1, with every process down. */
  function Init(c: Config, k: nat): Sys
  {
    Sys(Store(1, Doc(FreshBook(c.capital), [], map[]), {}, map[]), seq(k, _ => Down), [], multiset{})
  }

  predicate Valid(c: Config, s: Sys, run: seq<Step>)
    decreases |run|
  {
    run == [] || (Enabled(c, s, run[0]) && Valid(c, Next(c, s, run[0]), run[1..]))
  }

  function After(c: Config, s: Sys, run: seq<Step>): Sys
    requires Valid(c, s, run)
    decreases |run|
  {
    if run == [] then s else After(c, Next(c, s, run[0]), run[1..])
  }

  lemma ConsRun(c: Config, s: Sys, t: Sys, st: Step, run: seq<Step>)
    requires Enabled(c, s, st) && t == Next(c, s, st) && Valid(c, t, run)
    ensures Valid(c, s, [st] + run) && After(c, s, [st] + run) == After(c, t, run)
  {
  }

  lemma {:induction false} Concat(c: Config, s: Sys, a: seq<Step>, b: seq<Step>)
    requires Valid(c, s, a) && Valid(c, After(c, s, a), b)
    ensures Valid(c, s, a + b) && After(c, s, a + b) == After(c, After(c, s, a), b)
    decreases |a|
  {
    if a == [] {
      assert a + b == b;
    } else {
      var t := Next(c, s, a[0]);
      assert [a[0]] + (a[1..] + b) == a + b;
      assert Valid(c, s, a + b) && After(c, s, a + b) == After(c, t, a[1..] + b) by {
        Concat(c, t, a[1..], b);
        ConsRun(c, s, t, a[0], a[1..] + b);
      }
      Concat(c, t, a[1..], b);
    }
  }

  lemma Single(c: Config, s: Sys, st: Step)
    requires Enabled(c, s, st)
    ensures Valid(c, s, [st]) && After(c, s, [st]) == Next(c, s, st)
  {
  }
}
