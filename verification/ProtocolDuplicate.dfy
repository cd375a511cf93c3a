/** The bound on faults is not an artefact of the proof: when the completion of one intent is lost tick
    after tick, one process forgets that it executed the intent and executes it again, on the program's own
    list of 500 trades. What keeps the intent alive is a protective exit of the other open position that
    fails in its preflight: its answer is to load the durable document, which brings the intent back. */
module ProtocolDuplicate {
  import opened Common
  import opened Ledger
  import opened Protocol
  import opened ProtocolSafety
  import opened ProtocolWindow

  ghost predicate Reaches(c: Config, s: Sys, t: Sys)
  {
    exists run :: Valid(c, s, run) && After(c, s, run) == t
  }

  lemma Then(c: Config, s: Sys, t: Sys, u: Sys)
    requires Reaches(c, s, t) && Reaches(c, t, u)
    ensures Reaches(c, s, u)
  {
    var a :| Valid(c, s, a) && After(c, s, a) == t;
    var b :| Valid(c, t, b) && After(c, t, b) == u;
    Concat(c, s, a, b);
  }

  lemma StepTo(c: Config, s: Sys, st: Step, t: Sys)
    requires Enabled(c, s, st) && Next(c, s, st) == t
    ensures Reaches(c, s, t)
  {
    Single(c, s, st);
  }

  lemma ThenStep(c: Config, s: Sys, t: Sys, st: Step, u: Sys)
    requires Reaches(c, s, t) && Enabled(c, t, st) && Next(c, t, st) == u
    ensures Reaches(c, s, u)
  {
    StepTo(c, t, st, u);
    Then(c, s, t, u);
  }

  // ---------------------------------------------------------------------------------------
  // The moves of a single process at the durable version

  /** The single process at the durable version with this memory. */
  function With1(store: Store, doc: Doc, ph: Phase, h: seq<Trade>, fs: multiset<Key>): Sys
  {
    Sys(store, [Up(doc, store.version, ph)], h, fs)
  }

  /** ... and holding the durable document. */
  function At(store: Store, ph: Phase, h: seq<Trade>, fs: multiset<Key>): Sys { With1(store, store.doc, ph, h, fs) }

  function Put(store: Store, doc: Doc): Store { store.(version := store.version + 1, doc := doc) }

  function Order(side: Side): Record { Record(true, Some(side), 1) }

  predicate NotIn(doc: Doc, k: Key)
  {
    k !in doc.pending && forall i :: 0 <= i < |doc.trades| ==> doc.trades[i].key != k
  }

  /** The store once decision d is ruled, staged and consumed. */
  function Staged(store: Store, d: DecisionId, i: Intent): Store
  {
    Store(store.version + 1, store.doc.(pending := store.doc.pending[Auth(d) := i]), store.consumed + {d},
          store.records[d := Order(i.fill.side)])
  }

  predicate MayTrade(c: Config, store: Store, i: nat, d: DecisionId, fill: Ready)
  {
    && i < |c.symbols| && d !in store.consumed && d !in store.records && NotIn(store.doc, Auth(d))
    && !Blocks(store.doc, d, c.symbols[i]) && (fill.side.Sell? <==> c.symbols[i] in store.doc.book.positions)
  }

  /** A decision is checked and ruled. */
  lemma RuleRun(c: Config, store: Store, i: nat, d: DecisionId, side: Side, h: seq<Trade>, fs: multiset<Key>)
    requires d !in store.consumed && d !in store.records
    ensures Reaches(c, At(store, Entry(i, NoTicket), h, fs),
                    At(store.(records := store.records[d := Order(side)]), Entry(i, Cleared(d, side)), h, fs))
  {
    var s0, s1 := At(store, Entry(i, NoTicket), h, fs), At(store, Entry(i, Checked(d)), h, fs);
    StepTo(c, s0, Check(0, d), s1);
    ThenStep(c, s0, s1, Rule(0, Order(side), Done),
        At(store.(records := store.records[d := Order(side)]), Entry(i, Cleared(d, side)), h, fs));
  }

  /** ... staged ... */
  lemma OrderRun(c: Config, store: Store, i: nat, d: DecisionId, fill: Ready, h: seq<Trade>, fs: multiset<Key>)
    requires i < |c.symbols| && !Blocks(store.doc, d, c.symbols[i])
             && (fill.side.Sell? <==> c.symbols[i] in store.doc.book.positions)
    ensures var doc := store.doc.(pending := store.doc.pending[Auth(d) := Intent(c.symbols[i], fill)]);
            Reaches(c, At(store, Entry(i, Cleared(d, fill.side)), h, fs),
                At(Put(store, doc), Apply(Auth(d), InEntry(i, false)), h, fs))
  {
    var doc := store.doc.(pending := store.doc.pending[Auth(d) := Intent(c.symbols[i], fill)]);
    StepTo(c, At(store, Entry(i, Cleared(d, fill.side)), h, fs), StageAuth(0, fill, Done),
           At(Put(store, doc), Apply(Auth(d), InEntry(i, false)), h, fs));
  }

  /** ... and consumed. */
  lemma ConsumeRun(c: Config, store: Store, i: nat, d: DecisionId, h: seq<Trade>, fs: multiset<Key>)
    requires d in store.records && store.records[d].authorized && d !in store.consumed
    ensures Reaches(c, At(store, Apply(Auth(d), InEntry(i, false)), h, fs),
                    At(store.(consumed := store.consumed + {d}), Apply(Auth(d), InEntry(i, true)), h, fs))
  {
    StepTo(c, At(store, Apply(Auth(d), InEntry(i, false)), h, fs), Consume(0, Done),
           At(store.(consumed := store.consumed + {d}), Apply(Auth(d), InEntry(i, true)), h, fs));
  }

  /** An authorized decision is checked, ruled, staged and consumed in the visit of symbol i. */
  lemma StageRun(c: Config, store: Store, i: nat, d: DecisionId, fill: Ready, h: seq<Trade>, fs: multiset<Key>)
    requires MayTrade(c, store, i, d, fill)
    ensures Reaches(c, At(store, Entry(i, NoTicket), h, fs),
                    At(Staged(store, d, Intent(c.symbols[i], fill)), Apply(Auth(d), InEntry(i, true)), h, fs))
  {
    var ruled := store.(records := store.records[d := Order(fill.side)]);
    var staged := Put(ruled, store.doc.(pending := store.doc.pending[Auth(d) := Intent(c.symbols[i], fill)]));
    var s0, s2, s3 := At(store, Entry(i, NoTicket), h, fs), At(ruled, Entry(i, Cleared(d, fill.side)), h, fs),
        At(staged, Apply(Auth(d), InEntry(i, false)), h, fs);
    RuleRun(c, store, i, d, fill.side, h, fs);
    OrderRun(c, ruled, i, d, fill, h, fs);
    Then(c, s0, s2, s3);
    ConsumeRun(c, staged, i, d, h, fs);
    Then(c, s0, s3, At(Staged(store, d, Intent(c.symbols[i], fill)), Apply(Auth(d), InEntry(i, true)), h, fs));
  }

  function Push(c: Config, ts: seq<Trade>, t: Trade): seq<Trade> { Last(ts + [t], c.window) }

  /** The store once the intent of key k is executed, giving this book. */
  function Struck(c: Config, store: Store, k: Key, book: Book): Store
    requires k in store.doc.pending
  {
    Put(store, Doc(book, Push(c, store.doc.trades, TradeOf(store.doc, k)), store.doc.pending))
  }

  /** An applicable intent is executed. */
  lemma StrikeRun(c: Config, store: Store, k: Key, y: Context, book: Book, h: seq<Trade>, fs: multiset<Key>)
    requires k in store.doc.pending && !Seen(store.doc, k) && (k.Auth? ==> k.decision in store.consumed)
             && (y.InEntry? ==> y.consumed)
    requires Post(store.doc.book, TradeOf(store.doc, k)) == Some(book)
    ensures Reaches(c, At(store, Apply(k, y), h, fs),
            At(Struck(c, store, k, book), Settle(k, y), h + [TradeOf(store.doc, k)], fs))
  {
    StepTo(c, At(store, Apply(k, y), h, fs), Execute(0, Done),
        At(Struck(c, store, k, book), Settle(k, y), h + [TradeOf(store.doc, k)], fs));
  }

  lemma StruckSeen(c: Config, store: Store, k: Key, book: Book)
    requires c.window > 0 && k in store.doc.pending
    ensures Seen(Struck(c, store, k, book).doc, k)
  {
    var doc := Struck(c, store, k, book).doc;
    var n := |doc.trades| - 1;
    assert doc.trades[n] == TradeOf(store.doc, k);
    assert SameIntent(doc.trades[n], k, doc.pending[k]);
  }

  function Dropped(store: Store, k: Key): Store { Put(store, store.doc.(pending := store.doc.pending - {k})) }

  /** A completion that works, in an entry or an exit that closed its position. */
  lemma SettleRun(c: Config, store: Store, k: Key, y: Context, h: seq<Trade>, fs: multiset<Key>)
    requires k in store.doc.pending && Seen(store.doc, k) && (y.InExit? ==> !Held(c, y.i, store.doc))
    ensures Reaches(c, At(store, Settle(k, y), h, fs), At(Dropped(store, k), Returned(y), h, fs))
  {
    StepTo(c, At(store, Settle(k, y), h, fs), Complete(0, Done), At(Dropped(store, k), Returned(y), h, fs));
  }

  /** The store after decision d was traded with this fill: ruled, staged, consumed, executed, completed. */
  function Bought(c: Config, store: Store, sym: Symbol, d: DecisionId, fill: Ready, book: Book): Store
  {
    Store(store.version + 3, Doc(book, Push(c, store.doc.trades, Trade(sym, Auth(d), fill)), store.doc.pending),
          store.consumed + {d}, store.records[d := Order(fill.side)])
  }

  /** An authorized decision is traded, up to its completion. */
  lemma StrikeEntry(c: Config, store: Store, i: nat, d: DecisionId, fill: Ready, book: Book, h: seq<Trade>,
                    fs: multiset<Key>)
    requires MayTrade(c, store, i, d, fill)
    requires Post(store.doc.book, Trade(c.symbols[i], Auth(d), fill)) == Some(book)
    ensures var staged := Staged(store, d, Intent(c.symbols[i], fill));
            Reaches(c, At(store, Entry(i, NoTicket), h, fs),
                    At(Struck(c, staged, Auth(d), book), Settle(Auth(d), InEntry(i, true)),
                        h + [Trade(c.symbols[i], Auth(d), fill)], fs))
  {
    var k, y, t := Auth(d), InEntry(i, true), Trade(c.symbols[i], Auth(d), fill);
    var staged := Staged(store, d, Intent(c.symbols[i], fill));
    StageRun(c, store, i, d, fill, h, fs);
    assert !Seen(staged.doc, k);
    StrikeRun(c, staged, k, y, book, h, fs);
    Then(c, At(store, Entry(i, NoTicket), h, fs), At(staged, Apply(k, y), h, fs),
        At(Struck(c, staged, k, book), Settle(k, y), h + [t], fs));
  }

  lemma SettleTrade(c: Config, store: Store, i: nat, d: DecisionId, fill: Ready, book: Book, h: seq<Trade>,
                    fs: multiset<Key>)
    requires MayTrade(c, store, i, d, fill) && c.window > 0
    requires Post(store.doc.book, Trade(c.symbols[i], Auth(d), fill)) == Some(book)
    ensures var struck := Struck(c, Staged(store, d, Intent(c.symbols[i], fill)), Auth(d), book);
            Reaches(c, At(struck, Settle(Auth(d), InEntry(i, true)), h, fs),
                    At(Bought(c, store, c.symbols[i], d, fill, book), Trading(i + 1), h, fs))
  {
    var staged := Staged(store, d, Intent(c.symbols[i], fill));
    StruckSeen(c, staged, Auth(d), book);
    SettleRun(c, Struck(c, staged, Auth(d), book), Auth(d), InEntry(i, true), h, fs);
    DroppedIs(c, store, c.symbols[i], d, fill, book);
  }

  /** A whole authorized trade in the visit of symbol i, with every write acknowledged. */
  lemma TradeRun(c: Config, store: Store, i: nat, d: DecisionId, fill: Ready, book: Book, h: seq<Trade>,
                 fs: multiset<Key>)
    requires MayTrade(c, store, i, d, fill) && c.window > 0
    requires Post(store.doc.book, Trade(c.symbols[i], Auth(d), fill)) == Some(book)
    ensures Reaches(c, At(store, Entry(i, NoTicket), h, fs),
                    At(Bought(c, store, c.symbols[i], d, fill, book), Trading(i + 1),
                        h + [Trade(c.symbols[i], Auth(d), fill)], fs))
  {
    var k, y, t := Auth(d), InEntry(i, true), Trade(c.symbols[i], Auth(d), fill);
    var struck := Struck(c, Staged(store, d, Intent(c.symbols[i], fill)), k, book);
    StrikeEntry(c, store, i, d, fill, book, h, fs);
    SettleTrade(c, store, i, d, fill, book, h + [t], fs);
    Then(c, At(store, Entry(i, NoTicket), h, fs), At(struck, Settle(k, y), h + [t], fs),
         At(Bought(c, store, c.symbols[i], d, fill, book), Trading(i + 1), h + [t], fs));
  }

  lemma DroppedIs(c: Config, store: Store, sym: Symbol, d: DecisionId, fill: Ready, book: Book)
    requires Auth(d) !in store.doc.pending
    ensures Dropped(Struck(c, Staged(store, d, Intent(sym, fill)), Auth(d), book), Auth(d))
            == Bought(c, store, sym, d, fill, book)
  {
    assert Staged(store, d, Intent(sym, fill)).doc.pending - {Auth(d)} == store.doc.pending;
  }

  // ---------------------------------------------------------------------------------------
  // The scene: x holds symbol 0, symbol 1 is bought and sold

  /** Decision x buys symbol 0; fills whose round trips leave the book as it was; the exit of symbol 0. */
  datatype Scene = Scene(x: DecisionId, why: string, flat: Book, held: Book, buy: Ready, sell: Ready)

  function First(c: Config, sc: Scene): Trade
    requires |c.symbols| == 2
  {
    Trade(c.symbols[0], Auth(sc.x), sc.buy)
  }

  function Exit(c: Config, sc: Scene): Trade
    requires |c.symbols| == 2
  {
    Trade(c.symbols[0], Prot(c.symbols[0], sc.x, sc.why), sc.sell)
  }

  function Long(c: Config, sc: Scene, d: DecisionId): Option<Book>
    requires |c.symbols| == 2
  {
    Post(sc.held, Trade(c.symbols[1], Auth(d), sc.buy))
  }

  ghost predicate RoundTrip(c: Config, sc: Scene, d: DecisionId)
    requires |c.symbols| == 2
  {
    var a, b := c.symbols[0], c.symbols[1];
    && Long(c, sc, d).Some? && a in Long(c, sc, d).value.positions && b in Long(c, sc, d).value.positions
    && forall e :: Post(Long(c, sc, d).value, Trade(b, Auth(e), sc.sell)) == Some(sc.held)
  }

  ghost predicate Staging(c: Config, sc: Scene)
  {
    && |c.symbols| == 2 && c.symbols[0] != c.symbols[1] && c.window > 0 && sc.flat == FreshBook(c.capital)
    && sc.buy.side == Buy && sc.sell.side == Sell
    && Post(sc.flat, First(c, sc)) == Some(sc.held)
    && sc.held.positions.Keys == {c.symbols[0]} && sc.held.positions[c.symbols[0]].decision == sc.x
    && Post(sc.held, Exit(c, sc)) == Some(sc.flat)
    && forall d :: RoundTrip(c, sc, d)
  }

  /** Decisions are named by length, so a longer name is always new. */
  function Name(n: nat): DecisionId { seq(n, _ => 'd') }

  predicate Young(store: Store, h: seq<Trade>, n: nat)
  {
    && (forall d :: d in store.consumed ==> |d| < n)
    && (forall d :: d in store.records ==> |d| < n)
    && (forall i :: 0 <= i < |h| ==> h[i].key.Auth? && |h[i].key.decision| < n)
  }

  /** Between two ticks: x is executed and still pending, and its trade is the first of the history. */
  ghost predicate Stuck(c: Config, store: Store, h: seq<Trade>, sc: Scene, n: nat, book: Book)
    requires |c.symbols| == 2
  {
    && store.doc == Doc(book, Last(h, c.window), map[Auth(sc.x) := Intent(c.symbols[0], sc.buy)])
    && |sc.x| < n && sc.x in store.consumed && Young(store, h, n)
    && |h| > 0 && h[0] == First(c, sc) && (forall i :: 0 < i < |h| ==> h[i].key != Auth(sc.x))
    && c.symbols[0] in book.positions
  }

  /** Recovery begins and takes up the one pending intent. */
  lemma ApplyRun(c: Config, store: Store, h: seq<Trade>, fs: multiset<Key>, x: Key)
    requires store.doc.pending.Keys == {x} && x.Auth?
    ensures Reaches(c, At(store, Idle, h, fs), At(store, Apply(x, InRecovery({}, false)), h, fs))
  {
    var s0, s1 := At(store, Idle, h, fs), At(store, Recover({x}, false), h, fs);
    assert AuthKeys(store.doc) == {x} && {x} - {x} == {};
    StepTo(c, s0, BeginTick(0), s1);
    ThenStep(c, s0, s1, Pick(0, x), At(store, Apply(x, InRecovery({}, false)), h, fs));
  }

  /** A completion in recovery that is lost: memory drops the intent, the store keeps it. */
  lemma LoseRun(c: Config, store: Store, h: seq<Trade>, fs: multiset<Key>, x: Key)
    requires store.doc.pending.Keys == {x} && Seen(store.doc, x)
    ensures Reaches(c, At(store, Apply(x, InRecovery({}, false)), h, fs),
                    With1(store, store.doc.(pending := store.doc.pending - {x}), Recover({}, false), h,
                        fs + multiset{x}))
  {
    StepTo(c, At(store, Apply(x, InRecovery({}, false)), h, fs), Complete(0, Lost),
           With1(store, store.doc.(pending := store.doc.pending - {x}), Recover({}, false), h, fs + multiset{x}));
  }

  /** An execution in recovery that the book refuses: the durable document is loaded. */
  lemma RefuseBack(c: Config, store: Store, h: seq<Trade>, fs: multiset<Key>, x: Key)
    requires x in store.doc.pending && !Seen(store.doc, x) && (x.Auth? ==> x.decision in store.consumed)
             && !Posts(store.doc, x)
    ensures Reaches(c, At(store, Apply(x, InRecovery({}, false)), h, fs), At(store, Recover({}, false), h, fs))
  {
    var s0, s1 := At(store, Apply(x, InRecovery({}, false)), h, fs), At(store, Failed(InRecovery({}, false)), h, fs);
    StepTo(c, s0, Refuse(0), s1);
    ThenStep(c, s0, s1, Reload(0), At(store, Recover({}, false), h, fs));
  }

  /** Recovery meets x: while it is seen its completion is lost, and afterwards its execution is refused
      because the position is there. Either way the tick goes on with the store as it was. */
  lemma MeetRun(c: Config, store: Store, h: seq<Trade>, fs: multiset<Key>, sc: Scene, n: nat, book: Book)
    returns (doc: Doc, gs: multiset<Key>)
    requires Staging(c, sc) && Stuck(c, store, h, sc, n, book)
    ensures Reaches(c, At(store, Idle, h, fs), With1(store, doc, Recover({}, false), h, gs))
    ensures doc.book == book && ProtKeys(doc) == {} && (!Seen(store.doc, Auth(sc.x)) ==> doc == store.doc && gs == fs)
    ensures gs == fs || (Seen(store.doc, Auth(sc.x)) && gs == fs + multiset{Auth(sc.x)})
  {
    var x := Auth(sc.x);
    ApplyRun(c, store, h, fs, x);
    if Seen(store.doc, x) {
      doc, gs := store.doc.(pending := store.doc.pending - {x}), fs + multiset{x};
      LoseRun(c, store, h, fs, x);
    } else {
      doc, gs := store.doc, fs;
      RefuseBack(c, store, h, fs, x);
    }
    Then(c, At(store, Idle, h, fs), At(store, Apply(x, InRecovery({}, false)), h, fs),
        With1(store, doc, Recover({}, false), h, gs));
  }

  /** Recovery ends and trading begins. */
  lemma EnterRun(c: Config, store: Store, doc: Doc, h: seq<Trade>, fs: multiset<Key>)
    requires ProtKeys(doc) == {}
    ensures Reaches(c, With1(store, doc, Recover({}, false), h, fs), With1(store, doc, Trading(0), h, fs))
  {
    var s0, s1 := With1(store, doc, Recover({}, false), h, fs), With1(store, doc, Recover({}, true), h, fs);
    StepTo(c, s0, Advance(0), s1);
    ThenStep(c, s0, s1, Advance(0), With1(store, doc, Trading(0), h, fs));
  }

  /** An exit that fails in its preflight: the durable document is loaded. */
  lemma FailRun(c: Config, store: Store, doc: Doc, h: seq<Trade>, fs: multiset<Key>)
    requires Held(c, 0, doc)
    ensures Reaches(c, With1(store, doc, Trading(0), h, fs), At(store, Blocked(0), h, fs))
  {
    var s0, s1 := With1(store, doc, Trading(0), h, fs), With1(store, doc, Failed(InExit(0, doc, store.version)), h, fs);
    StepTo(c, s0, ExitFails(0), s1);
    ThenStep(c, s0, s1, Reload(0), At(store, Blocked(0), h, fs));
  }

  /** Its event is saved, and no authorized exit follows. */
  lemma UnblockRun(c: Config, store: Store, h: seq<Trade>, fs: multiset<Key>)
    requires Held(c, 0, store.doc)
    ensures Reaches(c, At(store, Blocked(0), h, fs), At(Put(store, store.doc), Trading(1), h, fs))
  {
    var s0, s1 := At(store, Blocked(0), h, fs), At(Put(store, store.doc), Entry(0, NoTicket), h, fs);
    StepTo(c, s0, Save(0, Done), s1);
    ThenStep(c, s0, s1, Pass(0), At(Put(store, store.doc), Trading(1), h, fs));
  }

  /** The visit of symbol 0 after recovery: its exit fails and x is loaded back into memory. */
  lemma BlockRun(c: Config, store: Store, doc: Doc, h: seq<Trade>, fs: multiset<Key>)
    requires Held(c, 0, doc) && doc.book == store.doc.book && ProtKeys(doc) == {}
    ensures Reaches(c, With1(store, doc, Recover({}, false), h, fs), At(Put(store, store.doc), Trading(1), h, fs))
  {
    var s0 := With1(store, doc, Recover({}, false), h, fs);
    EnterRun(c, store, doc, h, fs);
    FailRun(c, store, doc, h, fs);
    Then(c, s0, With1(store, doc, Trading(0), h, fs), At(store, Blocked(0), h, fs));
    UnblockRun(c, store, h, fs);
    Then(c, s0, At(store, Blocked(0), h, fs), At(Put(store, store.doc), Trading(1), h, fs));
  }

  /** The marks are saved and the tick ends. */
  lemma MarkRun(c: Config, store: Store, h: seq<Trade>, fs: multiset<Key>)
    ensures Reaches(c, At(store, Trading(2), h, fs), At(Put(store, store.doc), Idle, h, fs))
  {
    var s0, s1 := At(store, Trading(2), h, fs), At(Put(store, store.doc), Trading(2), h, fs);
    StepTo(c, s0, Save(0, Done), s1);
    ThenStep(c, s0, s1, EndTick(0), At(Put(store, store.doc), Idle, h, fs));
  }

  lemma PassRun(c: Config, store: Store, h: seq<Trade>, fs: multiset<Key>)
    requires |c.symbols| == 2
    ensures Reaches(c, At(store, Trading(1), h, fs), At(store, Entry(1, NoTicket), h, fs))
  {
    StepTo(c, At(store, Trading(1), h, fs), Pass(0), At(store, Entry(1, NoTicket), h, fs));
  }

  /** The visit of symbol 1 trades; then the marks are saved and the tick ends. */
  lemma VisitRun(c: Config, store: Store, d: DecisionId, fill: Ready, book: Book, h: seq<Trade>, fs: multiset<Key>)
    returns (last: Store)
    requires |c.symbols| == 2 && MayTrade(c, store, 1, d, fill) && c.window > 0
    requires Post(store.doc.book, Trade(c.symbols[1], Auth(d), fill)) == Some(book)
    ensures last == Put(Bought(c, store, c.symbols[1], d, fill, book),
            Bought(c, store, c.symbols[1], d, fill, book).doc)
    ensures Reaches(c, At(store, Trading(1), h, fs), At(last, Idle, h + [Trade(c.symbols[1], Auth(d), fill)], fs))
  {
    var s0, g := At(store, Trading(1), h, fs), h + [Trade(c.symbols[1], Auth(d), fill)];
    PassRun(c, store, h, fs);
    TradeRun(c, store, 1, d, fill, book, h, fs);
    var done := Bought(c, store, c.symbols[1], d, fill, book);
    Then(c, s0, At(store, Entry(1, NoTicket), h, fs), At(done, Trading(2), g, fs));
    last := Put(done, done.doc);
    MarkRun(c, done, g, fs);
    Then(c, s0, At(done, Trading(2), g, fs), At(last, Idle, g, fs));
  }

  lemma StuckMayTrade(c: Config, store: Store, h: seq<Trade>, sc: Scene, n: nat, book: Book, fill: Ready)
    requires Staging(c, sc) && Stuck(c, store, h, sc, n, book) && (fill.side.Sell? <==> c.symbols[1] in book.positions)
    ensures MayTrade(c, Put(store, store.doc), 1, Name(n), fill)
  {
    var doc := store.doc;
    forall i | 0 <= i < |doc.trades| ensures doc.trades[i].key != Auth(Name(n)) {
      assert doc.trades[i] == h[i + |h| - |doc.trades|];
    }
  }

  lemma StuckNext(c: Config, store: Store, h: seq<Trade>, sc: Scene, n: nat, book: Book, fill: Ready, book': Book,
                  last: Store)
    requires Staging(c, sc) && Stuck(c, store, h, sc, n, book) && c.symbols[0] in book'.positions
    requires var b := Bought(c, Put(store, store.doc), c.symbols[1], Name(n), fill, book'); last == Put(b, b.doc)
    ensures Stuck(c, last, h + [Trade(c.symbols[1], Auth(Name(n)), fill)], sc, n + 1, book')
  {
    LastAppend(h, Trade(c.symbols[1], Auth(Name(n)), fill), c.window);
  }

  /** After recovery: the exit of symbol 0 fails, and symbol 1 is traded. */
  lemma RestOfTick(c: Config, store: Store, doc: Doc, h: seq<Trade>, fs: multiset<Key>, sc: Scene, n: nat, book: Book,
                   fill: Ready, book': Book)
    returns (last: Store)
    requires Staging(c, sc) && Stuck(c, store, h, sc, n, book) && c.symbols[0] in book'.positions
    requires doc.book == book && ProtKeys(doc) == {} && (fill.side.Sell? <==> c.symbols[1] in book.positions)
    requires Post(book, Trade(c.symbols[1], Auth(Name(n)), fill)) == Some(book')
    ensures var g := h + [Trade(c.symbols[1], Auth(Name(n)), fill)];
            && Stuck(c, last, g, sc, n + 1, book')
            && Reaches(c, With1(store, doc, Recover({}, false), h, fs), At(last, Idle, g, fs))
  {
    var mid := Put(store, store.doc);
    BlockRun(c, store, doc, h, fs);
    StuckMayTrade(c, store, h, sc, n, book, fill);
    last := VisitRun(c, mid, Name(n), fill, book', h, fs);
    StuckNext(c, store, h, sc, n, book, fill, book', last);
    Then(c, With1(store, doc, Recover({}, false), h, fs), At(mid, Trading(1), h, fs),
         At(last, Idle, h + [Trade(c.symbols[1], Auth(Name(n)), fill)], fs));
  }

  /** The faults are x's alone: less than one for each trade, and none once its trade has left the bounded list. */
  ghost predicate Few(c: Config, fs: multiset<Key>, h: seq<Trade>, x: Key)
  {
    fs[x] <= (if |h| <= c.window then |h| - 1 else c.window) && forall y :: y != x ==> fs[y] == 0
  }

  lemma StillFew(c: Config, store: Store, h: seq<Trade>, fs: multiset<Key>, sc: Scene, n: nat, book: Book,
                 gs: multiset<Key>, t: Trade)
    requires Staging(c, sc) && Stuck(c, store, h, sc, n, book) && Few(c, fs, h, Auth(sc.x))
    requires gs == fs || (Seen(store.doc, Auth(sc.x)) && gs == fs + multiset{Auth(sc.x)})
    ensures Few(c, gs, h + [t], Auth(sc.x))
  {
    if |h| > c.window { Forgets(c, h, store.doc, Auth(sc.x)); }
  }

  /** A tick that loses x's completion, fails the exit of symbol 0 and trades symbol 1. */
  lemma TickRun(c: Config, store: Store, h: seq<Trade>, fs: multiset<Key>, sc: Scene, n: nat, book: Book, fill: Ready,
                book': Book)
    returns (last: Store, gs: multiset<Key>)
    requires Staging(c, sc) && Stuck(c, store, h, sc, n, book) && c.symbols[0] in book'.positions
    requires fill.side.Sell? <==> c.symbols[1] in book.positions
    requires Few(c, fs, h, Auth(sc.x))
    requires Post(book, Trade(c.symbols[1], Auth(Name(n)), fill)) == Some(book')
    ensures var g := h + [Trade(c.symbols[1], Auth(Name(n)), fill)];
            Stuck(c, last, g, sc, n + 1, book') && Reaches(c, At(store, Idle, h, fs), At(last, Idle, g, gs))
    ensures Few(c, gs, h + [Trade(c.symbols[1], Auth(Name(n)), fill)], Auth(sc.x))
  {
    var doc: Doc;
    doc, gs := MeetRun(c, store, h, fs, sc, n, book);
    StillFew(c, store, h, fs, sc, n, book, gs, Trade(c.symbols[1], Auth(Name(n)), fill));
    last := RestOfTick(c, store, doc, h, gs, sc, n, book, fill, book');
    Then(c, At(store, Idle, h, fs), With1(store, doc, Recover({}, false), h, gs),
         At(last, Idle, h + [Trade(c.symbols[1], Auth(Name(n)), fill)], gs));
  }

  /** The round trip of symbol 1 as two admissible trades. */
  lemma TripBooks(c: Config, sc: Scene, d: DecisionId, e: DecisionId) returns (long: Book)
    requires Staging(c, sc)
    ensures Post(sc.held, Trade(c.symbols[1], Auth(d), sc.buy)) == Some(long)
    ensures Post(long, Trade(c.symbols[1], Auth(e), sc.sell)) == Some(sc.held)
    ensures c.symbols[0] in long.positions && c.symbols[1] in long.positions
    ensures c.symbols[0] in sc.held.positions && c.symbols[1] !in sc.held.positions
  {
    assert RoundTrip(c, sc, d);
    long := Long(c, sc, d).value;
  }

  /** A BUY and a SELL of symbol 1 in two ticks. */
  lemma PairRun(c: Config, store: Store, h: seq<Trade>, fs: multiset<Key>, sc: Scene, n: nat)
    returns (last: Store, g: seq<Trade>, gs: multiset<Key>)
    requires Staging(c, sc) && Stuck(c, store, h, sc, n, sc.held) && Few(c, fs, h, Auth(sc.x))
    ensures Stuck(c, last, g, sc, n + 2, sc.held) && |g| == |h| + 2
    ensures Reaches(c, At(store, Idle, h, fs), At(last, Idle, g, gs)) && Few(c, gs, g, Auth(sc.x))
  {
    var long := TripBooks(c, sc, Name(n), Name(n + 1));
    var mid, ms := TickRun(c, store, h, fs, sc, n, sc.held, sc.buy, long);
    last, g, gs := SellTick(c, mid, h + [Trade(c.symbols[1], Auth(Name(n)), sc.buy)], ms, sc, n + 1, long);
    Then(c, At(store, Idle, h, fs), At(mid, Idle, h + [Trade(c.symbols[1], Auth(Name(n)), sc.buy)], ms),
        At(last, Idle, g, gs));
  }

  lemma SellTick(c: Config, store: Store, h: seq<Trade>, fs: multiset<Key>, sc: Scene, n: nat, long: Book)
    returns (last: Store, g: seq<Trade>, gs: multiset<Key>)
    requires Staging(c, sc) && Few(c, fs, h, Auth(sc.x)) && Stuck(c, store, h, sc, n, long)
             && c.symbols[1] in long.positions
    requires Post(long, Trade(c.symbols[1], Auth(Name(n)), sc.sell)) == Some(sc.held)
    ensures Stuck(c, last, g, sc, n + 1, sc.held) && |g| == |h| + 1
    ensures Reaches(c, At(store, Idle, h, fs), At(last, Idle, g, gs)) && Few(c, gs, g, Auth(sc.x))
  {
    last, gs := TickRun(c, store, h, fs, sc, n, long, sc.sell, sc.held);
    g := h + [Trade(c.symbols[1], Auth(Name(n)), sc.sell)];
  }

  /** As many ticks as wanted, and x is still pending and executed. */
  lemma {:induction false} LoopRun(c: Config, store: Store, h: seq<Trade>, fs: multiset<Key>, sc: Scene, n: nat)
    returns (last: Store, g: seq<Trade>, gs: multiset<Key>, m: nat)
    requires Staging(c, sc) && Stuck(c, store, h, sc, n, sc.held) && Few(c, fs, h, Auth(sc.x))
    ensures Stuck(c, last, g, sc, m, sc.held) && |g| > c.window
    ensures Reaches(c, At(store, Idle, h, fs), At(last, Idle, g, gs)) && Few(c, gs, g, Auth(sc.x))
    decreases c.window + 1 - |h|
  {
    if |h| > c.window {
      last, g, gs, m := store, h, fs, n;
      assert Valid(c, At(store, Idle, h, fs), []) && After(c, At(store, Idle, h, fs), []) == At(store, Idle, h, fs);
    } else {
      var p, k, ps := PairRun(c, store, h, fs, sc, n);
      last, g, gs, m := LoopRun(c, p, k, ps, sc, n + 2);
      Then(c, At(store, Idle, h, fs), At(p, Idle, k, ps), At(last, Idle, g, gs));
    }
  }

  // ---------------------------------------------------------------------------------------
  // Opening: x is executed and its completion is lost

  /** The process starts on the fresh store and comes to the visit of symbol 0. */
  lemma StartRun(c: Config)
    requires |c.symbols| == 2
    ensures Reaches(c, Init(c, 1), At(Init(c, 1).store, Entry(0, NoTicket), [], multiset{}))
  {
    var store, s0 := Init(c, 1).store, Init(c, 1);
    var s1, s2 := At(store, Recover({}, false), [], multiset{}), At(store, Idle, [], multiset{});
    assert s0.procs == [Down] && AuthKeys(store.doc) == {};
    StepTo(c, s0, Boot(0), s1);
    ThenStep(c, s0, s1, EndTick(0), s2);
    FirstTick(c, store);
    Then(c, s0, s2, At(store, Entry(0, NoTicket), [], multiset{}));
  }

  lemma FirstTick(c: Config, store: Store)
    requires |c.symbols| == 2 && store.doc.pending == map[]
    ensures Reaches(c, At(store, Idle, [], multiset{}), At(store, Entry(0, NoTicket), [], multiset{}))
  {
    var s0, s1, s2 := At(store, Idle, [], multiset{}), At(store, Recover({}, false), [], multiset{}),
        At(store, Trading(0), [], multiset{});
    assert AuthKeys(store.doc) == {} && ProtKeys(store.doc) == {};
    StepTo(c, s0, BeginTick(0), s1);
    EnterRun(c, store, store.doc, [], multiset{});
    Then(c, s0, s1, s2);
    ThenStep(c, s0, s2, Pass(0), At(store, Entry(0, NoTicket), [], multiset{}));
  }

  /** The store once x is executed. */
  function Opened(c: Config, sc: Scene): Store
    requires |c.symbols| == 2
  {
    Store(3, Doc(sc.held, Last([First(c, sc)], c.window), map[Auth(sc.x) := Intent(c.symbols[0], sc.buy)]), {sc.x},
          map[sc.x := Order(Buy)])
  }

  lemma OpenedStuck(c: Config, sc: Scene)
    requires Staging(c, sc)
    ensures Stuck(c, Opened(c, sc), [First(c, sc)], sc, |sc.x| + 1, sc.held) && Seen(Opened(c, sc).doc, Auth(sc.x))
  {
    var doc := Opened(c, sc).doc;
    assert doc.trades[0] == First(c, sc);
    assert SameIntent(doc.trades[0], Auth(sc.x), doc.pending[Auth(sc.x)]);
  }

  /** x is executed, its completion is lost, and so is the error event: the memory has dropped x. */
  lemma OpenRun(c: Config, sc: Scene)
    requires Staging(c, sc)
    ensures var store := Opened(c, sc);
            Reaches(c, Init(c, 1),
                With1(store, store.doc.(pending := map[]), Idle, [First(c, sc)], multiset{Auth(sc.x)}))
  {
    var start, store, x, t := Init(c, 1).store, Opened(c, sc), Auth(sc.x), First(c, sc);
    var s1 := At(store, Settle(x, InEntry(0, true)), [t], multiset{});
    StartRun(c);
    StrikeFirst(c, sc);
    Then(c, Init(c, 1), At(start, Entry(0, NoTicket), [], multiset{}), s1);
    OpenedStuck(c, sc);
    LostRun(c, store, x, t);
    Then(c, Init(c, 1), s1, With1(store, store.doc.(pending := map[]), Idle, [t], multiset{x}));
  }

  lemma StrikeFirst(c: Config, sc: Scene)
    requires Staging(c, sc)
    ensures Reaches(c, At(Init(c, 1).store, Entry(0, NoTicket), [], multiset{}),
                    At(Opened(c, sc), Settle(Auth(sc.x), InEntry(0, true)), [First(c, sc)], multiset{}))
  {
    StrikeEntry(c, Init(c, 1).store, 0, sc.x, sc.buy, sc.held, [], multiset{});
    assert [] + [First(c, sc)] == [First(c, sc)];
    OpenedIs(c, sc);
  }

  lemma OpenedIs(c: Config, sc: Scene)
    requires Staging(c, sc)
    ensures Struck(c, Staged(Init(c, 1).store, sc.x, Intent(c.symbols[0], sc.buy)), Auth(sc.x), sc.held)
            == Opened(c, sc)
  {
  }

  lemma LostRun(c: Config, store: Store, x: Key, t: Trade)
    requires store.doc.pending.Keys == {x} && Seen(store.doc, x)
    ensures Reaches(c, At(store, Settle(x, InEntry(0, true)), [t], multiset{}),
                    With1(store, store.doc.(pending := map[]), Idle, [t], multiset{x}))
  {
    var t0, t1 := At(store, Settle(x, InEntry(0, true)), [t], multiset{}),
        With1(store, store.doc.(pending := map[]), Idle, [t], multiset{x});
    assert store.doc.pending - {x} == map[];
    StepTo(c, t0, Complete(0, Lost), t1);
    ThenStep(c, t0, t1, Save(0, Lost), t1);
  }

  /** The next tick finds nothing to recover, loads x back when the exit fails, and buys symbol 1; the one
      after it sells it. */
  lemma SettledRun(c: Config, sc: Scene) returns (last: Store, g: seq<Trade>, gs: multiset<Key>)
    requires Staging(c, sc)
    ensures Few(c, gs, g, Auth(sc.x))
    ensures Stuck(c, last, g, sc, |sc.x| + 3, sc.held) && Reaches(c, Init(c, 1), At(last, Idle, g, gs))
  {
    var n := |sc.x| + 1;
    var long := TripBooks(c, sc, Name(n), Name(n + 1));
    var mid, k := SecondTick(c, sc, n, long);
    last, g, gs := SellTick(c, mid, k, multiset{Auth(sc.x)}, sc, n + 1, long);
    Then(c, Init(c, 1), At(mid, Idle, k, multiset{Auth(sc.x)}), At(last, Idle, g, gs));
  }

  lemma SecondTick(c: Config, sc: Scene, n: nat, long: Book) returns (mid: Store, k: seq<Trade>)
    requires Staging(c, sc) && n == |sc.x| + 1
    requires Post(sc.held, Trade(c.symbols[1], Auth(Name(n)), sc.buy)) == Some(long)
    requires c.symbols[0] in long.positions && c.symbols[1] !in sc.held.positions
    ensures Stuck(c, mid, k, sc, n + 1, long) && Few(c, multiset{Auth(sc.x)}, k, Auth(sc.x))
    ensures Reaches(c, Init(c, 1), At(mid, Idle, k, multiset{Auth(sc.x)}))
  {
    var store, h, fs := Opened(c, sc), [First(c, sc)], multiset{Auth(sc.x)};
    var doc := store.doc.(pending := map[]);
    OpenRun(c, sc);
    OpenedStuck(c, sc);
    assert AuthKeys(doc) == {} && ProtKeys(doc) == {};
    ThenStep(c, Init(c, 1), With1(store, doc, Idle, h, fs), BeginTick(0), With1(store, doc, Recover({}, false), h, fs));
    mid := RestOfTick(c, store, doc, h, fs, sc, n, sc.held, sc.buy, long);
    k := h + [Trade(c.symbols[1], Auth(Name(n)), sc.buy)];
    Then(c, Init(c, 1), With1(store, doc, Recover({}, false), h, fs), At(mid, Idle, k, fs));
  }

  // ---------------------------------------------------------------------------------------
  // Ending: symbol 0 is closed and x is executed again

  /** x's trade has left the bounded list, and stays out of it. */
  lemma Forgets(c: Config, h: seq<Trade>, doc: Doc, x: Key)
    requires doc.trades == Last(h, c.window) && |h| > c.window && (forall i :: 0 < i < |h| ==> h[i].key != x)
             && x in doc.pending
    ensures !Seen(doc, x)
  {
    forall i | 0 <= i < |doc.trades| ensures doc.trades[i].key != x {
      assert doc.trades[i] == h[i + |h| - |doc.trades|];
    }
  }

  /** The store after the protective exit of symbol 0. */
  function Closed(c: Config, store: Store, sc: Scene, h: seq<Trade>): Store
    requires |c.symbols| == 2
  {
    store.(version := store.version + 3, doc := Doc(sc.flat, Last(h + [Exit(c, sc)], c.window), store.doc.pending))
  }

  lemma StuckNotIn(c: Config, store: Store, h: seq<Trade>, sc: Scene, n: nat)
    requires Staging(c, sc) && Stuck(c, store, h, sc, n, sc.held)
    ensures NotIn(store.doc, Exit(c, sc).key)
  {
    var ts := store.doc.trades;
    forall i | 0 <= i < |ts| ensures ts[i].key.Auth? { assert ts[i] == h[i + |h| - |ts|]; }
  }

  /** The store with the protective exit of symbol 0 staged. */
  function ExitStaged(c: Config, store: Store, sc: Scene): Store
    requires |c.symbols| == 2
  {
    Put(store, store.doc.(pending := store.doc.pending[Exit(c, sc).key := Intent(c.symbols[0], sc.sell)]))
  }

  lemma StageExitRun(c: Config, store: Store, h: seq<Trade>, fs: multiset<Key>, sc: Scene, n: nat)
    requires Staging(c, sc) && Stuck(c, store, h, sc, n, sc.held)
    ensures Reaches(c, At(store, Trading(0), h, fs),
                    At(ExitStaged(c, store, sc), Apply(Exit(c, sc).key, InExit(0, store.doc, store.version)), h, fs))
  {
    assert !OtherExit(store.doc, Exit(c, sc).key);
    StepTo(c, At(store, Trading(0), h, fs), StageExit(0, sc.why, sc.sell, Done),
           At(ExitStaged(c, store, sc), Apply(Exit(c, sc).key, InExit(0, store.doc, store.version)), h, fs));
  }

  lemma ClosedIs(c: Config, store: Store, h: seq<Trade>, sc: Scene, n: nat)
    requires Staging(c, sc) && Stuck(c, store, h, sc, n, sc.held)
    ensures var k := Exit(c, sc).key;
            Dropped(Struck(c, ExitStaged(c, store, sc), k, sc.flat), k) == Closed(c, store, sc, h)
  {
    LastAppend(h, Exit(c, sc), c.window);
    assert ExitStaged(c, store, sc).doc.pending - {Exit(c, sc).key} == store.doc.pending;
  }

  /** In the visit of symbol 0 the protective exit succeeds this time. */
  lemma CloseRun(c: Config, store: Store, h: seq<Trade>, fs: multiset<Key>, sc: Scene, n: nat)
    requires Staging(c, sc) && Stuck(c, store, h, sc, n, sc.held)
    ensures Reaches(c, At(store, Trading(0), h, fs), At(Closed(c, store, sc, h), Trading(1), h + [Exit(c, sc)], fs))
  {
    var k, y, g := Exit(c, sc).key, InExit(0, store.doc, store.version), h + [Exit(c, sc)];
    var staged := ExitStaged(c, store, sc);
    var struck := Struck(c, staged, k, sc.flat);
    var s0 := At(store, Trading(0), h, fs);
    StageExitRun(c, store, h, fs, sc, n);
    StuckNotIn(c, store, h, sc, n);
    assert !Seen(staged.doc, k);
    StrikeRun(c, staged, k, y, sc.flat, h, fs);
    Then(c, s0, At(staged, Apply(k, y), h, fs), At(struck, Settle(k, y), g, fs));
    StruckSeen(c, staged, k, sc.flat);
    SettleRun(c, struck, k, y, g, fs);
    ClosedIs(c, store, h, sc, n);
    Then(c, s0, At(struck, Settle(k, y), g, fs), At(Closed(c, store, sc, h), Trading(1), g, fs));
  }

  /** Recovery refuses x because the position is there, and trading begins. */
  lemma RefuseRun(c: Config, store: Store, h: seq<Trade>, fs: multiset<Key>, sc: Scene, n: nat)
    requires Staging(c, sc) && Stuck(c, store, h, sc, n, sc.held) && |h| > c.window
    ensures Reaches(c, At(store, Idle, h, fs), At(store, Trading(0), h, fs))
  {
    Forgets(c, h, store.doc, Auth(sc.x));
    var doc, gs := MeetRun(c, store, h, fs, sc, n, sc.held);
    EnterRun(c, store, store.doc, h, fs);
    Then(c, At(store, Idle, h, fs), At(store, Recover({}, false), h, fs), At(store, Trading(0), h, fs));
  }

  /** From the stuck situation with x forgotten: the position is closed, and the next recovery executes x. */
  lemma AgainRun(c: Config, store: Store, h: seq<Trade>, fs: multiset<Key>, sc: Scene, n: nat) returns (t: Sys)
    requires Staging(c, sc) && Stuck(c, store, h, sc, n, sc.held) && |h| > c.window
    ensures Reaches(c, At(store, Idle, h, fs), t) && |t.history| > |h| > 0 && t.history[0] == h[0] && t.faults == fs
    ensures t.history[|t.history| - 1] == First(c, sc)
  {
    var closed, g := Closed(c, store, sc, h), h + [Exit(c, sc)];
    CloseTick(c, store, h, fs, sc, n);
    Forgets(c, g, closed.doc, Auth(sc.x));
    t := RepeatRun(c, closed, g, fs, sc);
    Then(c, At(store, Idle, h, fs), At(closed, Idle, g, fs), t);
  }

  /** The tick in which symbol 0 is closed. */
  lemma CloseTick(c: Config, store: Store, h: seq<Trade>, fs: multiset<Key>, sc: Scene, n: nat)
    requires Staging(c, sc) && Stuck(c, store, h, sc, n, sc.held) && |h| > c.window
    ensures Reaches(c, At(store, Idle, h, fs), At(Closed(c, store, sc, h), Idle, h + [Exit(c, sc)], fs))
  {
    var closed, g, s0 := Closed(c, store, sc, h), h + [Exit(c, sc)], At(store, Idle, h, fs);
    RefuseRun(c, store, h, fs, sc, n);
    CloseRun(c, store, h, fs, sc, n);
    Then(c, s0, At(store, Trading(0), h, fs), At(closed, Trading(1), g, fs));
    EndRun(c, closed, g, fs);
    Then(c, s0, At(closed, Trading(1), g, fs), At(closed, Idle, g, fs));
  }

  /** On a flat book recovery executes x, which nothing in the list shows. */
  lemma RepeatRun(c: Config, store: Store, h: seq<Trade>, fs: multiset<Key>, sc: Scene) returns (t: Sys)
    requires Staging(c, sc) && store.doc.book == sc.flat && sc.x in store.consumed
    requires store.doc.pending == map[Auth(sc.x) := Intent(c.symbols[0], sc.buy)] && !Seen(store.doc, Auth(sc.x))
    ensures Reaches(c, At(store, Idle, h, fs), t) && t.history == h + [First(c, sc)] && t.faults == fs
  {
    var x, y := Auth(sc.x), InRecovery({}, false);
    ApplyRun(c, store, h, fs, x);
    StrikeRun(c, store, x, y, sc.held, h, fs);
    t := At(Struck(c, store, x, sc.held), Settle(x, y), h + [First(c, sc)], fs);
    Then(c, At(store, Idle, h, fs), At(store, Apply(x, y), h, fs), t);
  }

  lemma EndRun(c: Config, store: Store, h: seq<Trade>, fs: multiset<Key>)
    ensures Reaches(c, At(store, Trading(1), h, fs), At(store, Idle, h, fs))
  {
    StepTo(c, At(store, Trading(1), h, fs), EndTick(0), At(store, Idle, h, fs));
  }

  // ---------------------------------------------------------------------------------------
  // The run

  /** A run of one process from the fresh store that commits one intent twice: that intent meets at most as many
      faults as the list has trades, and no other intent meets any. */
  lemma DuplicateRun(c: Config, sc: Scene) returns (run: seq<Step>)
    requires Staging(c, sc)
    ensures Valid(c, Init(c, 1), run) && !NoDuplicates(After(c, Init(c, 1), run).history)
    ensures OneUnlucky(After(c, Init(c, 1), run).faults, Auth(sc.x), c.window)
  {
    var store, h, fs := SettledRun(c, sc);
    var last, g, gs, m := LoopRun(c, store, h, fs, sc, |sc.x| + 3);
    var t := AgainRun(c, last, g, gs, sc, m);
    Then(c, Init(c, 1), At(store, Idle, h, fs), At(last, Idle, g, gs));
    Then(c, Init(c, 1), At(last, Idle, g, gs), t);
    run :| Valid(c, Init(c, 1), run) && After(c, Init(c, 1), run) == t;
    assert t.history[0].key == t.history[|t.history| - 1].key;
  }

  /** Only this intent meets faults, and at most so many. */
  ghost predicate OneUnlucky(fs: multiset<Key>, x: Key, most: nat)
  {
    fs[x] <= most && forall y :: y != x ==> fs[y] == 0
  }

  predicate Costless(f: Fill)
  {
    && f.quantity == f.price == f.reference == f.bbo == f.notional == 1.0
    && f.fee == f.spreadCost == f.slippageCost == 0.0
  }

  /** Buying with one fill and selling with the other brings a book that can pay for it back. */
  predicate Turns(b: Fill, e: Fill, book: Book, sym: Symbol, d: DecisionId)
  {
    var o := Open(book, sym, d, b);
    && o.Some? && o.value.positions.Keys == book.positions.Keys + {sym} && o.value.positions[sym].decision == d
    && o.value.cash >= book.cash - 1.0 && Close(o.value, sym, e) == Some(book)
  }

  ghost predicate Pair(b: Fill, e: Fill)
  {
    && b.side == Buy && e.side == Sell
    && forall book: Book, sym: Symbol, d: DecisionId :: sym !in book.positions && book.cash >= 1.0 ==>
        Turns(b, e, book, sym, d)
  }

  lemma CostlessPair(b: Fill, e: Fill)
    requires Costless(b) && Costless(e) && b.side == Buy && e.side == Sell
    ensures Pair(b, e)
  {
    forall book: Book, sym, d | sym !in book.positions && book.cash >= 1.0 ensures Turns(b, e, book, sym, d) {
      var o := Open(book, sym, d, b).value;
      assert o.positions - {sym} == book.positions;
      assert NetPnl(o.positions[sym], e) == 0.0;
    }
  }

  lemma CostlessPrepared(f: Fill)
    requires Costless(f)
    ensures Prepared(f)
  {
  }

  lemma MakeCostless(side: Side) returns (f: Fill)
    ensures f.side == side && Costless(f)
  {
    f := Fill(side, 1.0, 1.0, 1.0, 1.0, 1.0, 0.0, 0.0, 0.0);
  }

  lemma SomePair() returns (b: Fill, e: Fill)
    ensures Prepared(b) && Prepared(e) && Pair(b, e)
  {
    b := MakeCostless(Buy);
    e := MakeCostless(Sell);
    CostlessPrepared(b);
    CostlessPrepared(e);
    CostlessPair(b, e);
  }

  lemma PairStaging(c: Config, x: DecisionId, buy: Ready, sell: Ready) returns (sc: Scene)
    requires |c.symbols| == 2 && c.symbols[0] != c.symbols[1] && c.window > 0 && c.capital == 2.0 && Pair(buy, sell)
    ensures Staging(c, sc) && sc.x == x
  {
    var a, b, flat := c.symbols[0], c.symbols[1], FreshBook(c.capital);
    assert Turns(buy, sell, flat, a, x);
    var held := Open(flat, a, x, buy).value;
    sc := Scene(x, "protective_stop_loss", flat, held, buy, sell);
    forall d ensures RoundTrip(c, sc, d) { assert Turns(buy, sell, held, b, d); }
  }

  /** With the program's list of 500 trades, one process and any two symbols, the committed history can hold
      the same execution intent twice: single execution needs its bound on the faults of an intent. */
  lemma FiveHundredIsNotAlwaysEnough(a: Symbol, b: Symbol) returns (c: Config, run: seq<Step>)
    requires a != b
    ensures c == Config([a, b], 500, 2.0)
    ensures Valid(c, Init(c, 1), run) && !NoDuplicates(After(c, Init(c, 1), run).history)
    ensures OneUnlucky(After(c, Init(c, 1), run).faults, Auth("x"), 500)
  {
    c := Config([a, b], TRADE_WINDOW, 2.0);
    var buy, sell := SomePair();
    var sc := PairStaging(c, "x", buy, sell);
    run := DuplicateRun(c, sc);
  }
}
