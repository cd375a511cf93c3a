/** What a tick trades, and when, if every write returns. */
module TickLaws {
  import opened Common
  import opened Ledger
  import opened Protocol
  import opened TickSpec

  /** No trade of the bounded list carries the execution intent. */
  predicate Unseen(w: World, k: Key, f: Fill)
  {
    forall i :: 0 <= i < |w.doc.trades| ==>
      !(w.doc.trades[i].key == k && (k.Auth? ==> w.doc.trades[i].fill.side == f.side))
  }

  /** One trade more: committed and in the book and the list, its intent gone and every other one as it was. */
  predicate Trades(c: Config, w: World, t: Trade, v: World)
  {
    && Post(w.doc.book, t).Some? && v.doc.book == Post(w.doc.book, t).value
    && v.history == w.history + [t] && v.doc.trades == Last(w.doc.trades + [t], c.window)
    && v.doc.pending == w.doc.pending - {t.key}
  }

  // ---------------------------------------------------------------------------------------
  // Applying

  /** A staged intent is committed exactly when it is authorized and consumed, the list does not show it, and the book
      accepts it. */
  lemma SettledTrades(c: Config, w: World, k: Key, v: World)
    requires k in w.doc.pending && v == Settled(c, w, k).0
    ensures var t := Trade(w.doc.pending[k].symbol, k, w.doc.pending[k].fill);
            && v.history in {w.history, w.history + [t]} && v.consumed == w.consumed && v.records == w.records
            && (v.history != w.history <==>
                  (k.Auth? ==> k.decision in w.consumed) && Unseen(w, k, t.fill) && Post(w.doc.book, t).Some?)
            && (v.history != w.history ==> Trades(c, w, t, v))
            && (v.history == w.history ==> v.doc.book == w.doc.book && v.doc.trades == w.doc.trades)
  {
    var t := Trade(w.doc.pending[k].symbol, k, w.doc.pending[k].fill);
    assert |w.history + [t]| != |w.history|;
    assert Seen(w.doc, k) <==> !Unseen(w, k, t.fill) by {
      if Seen(w.doc, k) {
        var i :| 0 <= i < |w.doc.trades| && SameIntent(w.doc.trades[i], k, w.doc.pending[k]);
      }
      if !Unseen(w, k, t.fill) {
        var i :| 0 <= i < |w.doc.trades| && w.doc.trades[i].key == k
                 && (k.Auth? ==> w.doc.trades[i].fill.side == t.fill.side);
        assert SameIntent(w.doc.trades[i], k, w.doc.pending[k]);
      }
    }
  }

  // ---------------------------------------------------------------------------------------
  // A proposal

  /** Nothing stands in the way of this proposal: a fresh decision, authorized now and never otherwise, a fill for the
      position as it is, nothing else staged for the symbol, no trade of the intent, and a book that accepts it. */
  predicate Clear(c: Config, w: World, i: nat, plan: EntryPlan)
    requires i < |c.symbols|
  {
    && plan.EntryWith? && plan.fill.Some? && plan.ruling.authorized
    && var d, f, sym := plan.decision, plan.fill.value, c.symbols[i];
       && d !in w.consumed && (d in w.records ==> w.records[d] == plan.ruling)
       && (f.side.Sell? <==> sym in w.doc.book.positions)
       && (forall k :: k in w.doc.pending && k.Auth? && k.decision != d ==> w.doc.pending[k].symbol != sym)
       && Unseen(w, Auth(d), f) && Post(w.doc.book, Trade(sym, Auth(d), f)).Some?
  }

  /** A visit trades its proposal exactly when nothing stands in the way: then the decision is ruled on, consumed and
      traded, nothing of it is pending, and the tick goes on. Nothing else is ever traded for it. */
  lemma EntryTradesIff(c: Config, w: World, i: nat, plan: EntryPlan, v: World, raised: bool)
    requires i < |c.symbols| && (v, raised) == Entered(c, w, i, plan)
    ensures v.history != w.history <==> Clear(c, w, i, plan)
    ensures Clear(c, w, i, plan) ==>
              && !raised && Trades(c, w, Trade(c.symbols[i], Auth(plan.decision), plan.fill.value), v)
              && v.consumed == w.consumed + {plan.decision} && v.records == w.records[plan.decision := plan.ruling]
    ensures !Clear(c, w, i, plan) ==> v.doc.book == w.doc.book && v.doc.trades == w.doc.trades
    ensures plan.NoEntry? ==> v == WithEvent(w, plan.event) && !raised
  {
    if plan.EntryWith? && plan.fill.Some? && Grants(w, plan.decision, plan.ruling)
       && (plan.fill.value.side.Sell? <==> Held(c, i, w.doc)) && !Blocks(w.doc, plan.decision, c.symbols[i]) {
      var d := plan.decision;
      var k := Auth(d);
      var s := Staged(WithRuling(w, d, plan.ruling), k, Intent(c.symbols[i], plan.fill.value)).(
        consumed := w.consumed + {d});
      SettledTrades(c, s, k, v);
      assert s.doc.pending - {k} == w.doc.pending - {k};
    }
  }

  // ---------------------------------------------------------------------------------------
  // A due exit

  /** A due exit that nothing stands in the way of. */
  predicate DueExit(c: Config, w: World, i: nat, plan: ExitPlan)
    requires i < |c.symbols|
  {
    && plan.ExitWith? && plan.fill.side.Sell? && c.symbols[i] in w.doc.book.positions
    && var p := w.doc.book.positions[c.symbols[i]];
       var k := Prot(c.symbols[i], p.decision, plan.reason);
       && (forall x :: x in w.doc.pending && x.Prot? ==> x == k)
       && Unseen(w, k, plan.fill) && plan.fill.quantity == p.quantity
  }

  /** A visit closes its position exactly when the exit is due and nothing stands in its way, and then ends. */
  lemma ExitTradesIff(c: Config, w: World, i: nat, plan: ExitPlan, v: World, done: bool)
    requires i < |c.symbols| && (v, done) == Exited(c, w, i, plan) && (plan.ExitWith? ==> plan.fill.side.Sell?)
    ensures v.history != w.history <==> DueExit(c, w, i, plan)
    ensures DueExit(c, w, i, plan) ==>
              var k := Prot(c.symbols[i], w.doc.book.positions[c.symbols[i]].decision, plan.reason);
              done && Trades(c, w, Trade(c.symbols[i], k, plan.fill), v) && c.symbols[i] !in v.doc.book.positions
    ensures !DueExit(c, w, i, plan) ==> !done && v.doc.book == w.doc.book && v.doc.trades == w.doc.trades
    ensures v.consumed == w.consumed && v.records == w.records
  {
    if Held(c, i, w.doc) && plan.ExitWith? && !OtherExit(w.doc, ExitKey(c, i, w.doc, plan.reason)) {
      var k := ExitKey(c, i, w.doc, plan.reason);
      var s := Staged(w, k, Intent(c.symbols[i], plan.fill));
      SettledTrades(c, s, k, Settled(c, s, k).0);
      assert s.doc.pending - {k} == w.doc.pending - {k};
    }
  }

  // ---------------------------------------------------------------------------------------
  // Recovery

  /** Recovery trades a staged intent exactly when it is consumed or can be, the list does not show it, and the book
      accepts it; a staged, authorized and unconsumed one is consumed and committed. */
  lemma RecoveryTradesIff(c: Config, w: World, k: Key, v: World)
    requires k in w.doc.pending && v == Retried(c, w, k)
    ensures var t := Trade(w.doc.pending[k].symbol, k, w.doc.pending[k].fill);
            && (v.history != w.history <==>
                  && (k.Auth? ==> k.decision in w.consumed
                                  || (k.decision in w.records && w.records[k.decision].authorized))
                  && Unseen(w, k, t.fill) && Post(w.doc.book, t).Some?)
            && (v.history != w.history ==> Trades(c, w, t, v) && (k.Auth? ==> k.decision in v.consumed))
            && (v.history == w.history ==> v.doc.book == w.doc.book && v.doc.trades == w.doc.trades)
            && v.records == w.records
  {
    var u := if Consumable(w, k) then w.(consumed := w.consumed + {k.decision}) else w;
    SettledTrades(c, u, k, v);
  }

  // ---------------------------------------------------------------------------------------
  // The whole tick

  /** Nothing is due or proposed for this symbol; its event may be saved. */
  predicate Quiet(plan: Plan) { plan.exit.NoExit? && plan.entry.NoEntry? }

  /** The same but for saves of the document as it was. */
  predicate SameAccount(w: World, v: World) { v == w.(version := v.version) }

  predicate SameEnd(u: (World, bool), v: (World, bool)) { SameAccount(u.0, v.0) && u.1 == v.1 }

  lemma QuietNext(c: Config, u: (World, bool), v: (World, bool), i: nat, plan: Plan)
    requires i < |c.symbols| && Quiet(plan) && SameEnd(u, v)
    ensures SameEnd(u, VisitNext(c, v, i, plan))
  {
  }

  lemma VisitedNext(c: Config, w: World, plans: seq<Plan>, n: nat)
    requires n < |plans| == |c.symbols|
    ensures VisitedTo(c, w, plans, n + 1) == VisitNext(c, VisitedTo(c, w, plans, n), n, plans[n])
  {
  }

  lemma {:induction false} QuietVisits(c: Config, w: World, plans: seq<Plan>, m: nat, n: nat, u: (World, bool))
    requires m <= n <= |plans| == |c.symbols| && forall j :: m <= j < n ==> Quiet(plans[j])
    requires u == VisitedTo(c, w, plans, m)
    ensures SameEnd(u, VisitedTo(c, w, plans, n))
  {
    if m < n {
      QuietVisits(c, w, plans, m, n - 1, u);
      VisitedNext(c, w, plans, n - 1);
      QuietNext(c, u, VisitedTo(c, w, plans, n - 1), n - 1, plans[n - 1]);
    }
  }

  /** With nothing to do elsewhere the visits come to the one of symbol i. */
  lemma QuietButOne(c: Config, w: World, plans: seq<Plan>, i: nat) returns (u: World)
    requires i < |plans| == |c.symbols| && forall j :: 0 <= j < |plans| && j != i ==> Quiet(plans[j])
    ensures SameAccount(w, u) && SameEnd(Visited(c, u, i, plans[i]), VisitedTo(c, w, plans, |plans|))
  {
    QuietVisits(c, w, plans, 0, i, (w, false));
    u := VisitedTo(c, w, plans, i).0;
    VisitedNext(c, w, plans, i);
    QuietVisits(c, w, plans, i + 1, |plans|, VisitedTo(c, w, plans, i + 1));
  }

  lemma NoneOrdered(ks: seq<Key>, keys: set<Key>)
    requires Orders(ks, keys) && keys == {}
    ensures ks == []
  {
    FirstOrdered(ks, keys);
  }

  lemma FirstOrdered(ks: seq<Key>, keys: set<Key>)
    requires Orders(ks, keys)
    ensures ks != [] ==> ks[0] in keys
  {
    if ks != [] { assert ks[0] in ks; }
  }

  lemma OneOrdered(ks: seq<Key>, keys: set<Key>, k: Key)
    requires Orders(ks, keys) && keys == {k}
    ensures ks == [k]
  {
    assert k in ks;
    assert forall i :: 0 <= i < |ks| ==> ks[i] in keys;
    NotTwice(ks, k);
  }

  lemma NotTwice(ks: seq<Key>, k: Key)
    requires forall i :: 0 <= i < |ks| ==> ks[i] == k
    ensures |ks| > 1 ==> !Unique(ks)
  {
    if |ks| > 1 { assert ks[0] == ks[1]; }
  }

  /** A tick with nothing pending is its visits, and a save. */
  lemma NothingPending(c: Config, w: World, auths: seq<Key>, prots: seq<Key>, verified: bool, plans: seq<Plan>,
                       v: World,
                       raised: bool)
    requires |plans| == |c.symbols| && w.doc.pending == map[]
    requires IsTick(c, w, auths, prots, verified, plans, v, raised)
    ensures var x := if verified then VisitedTo(c, w, plans, |plans|) else (w, false);
            raised == x.1 && v == if x.1 then x.0 else Rewritten(x.0)
  {
    NoneOrdered(auths, AuthKeys(w.doc));
    NoneOrdered(prots, ProtKeys(w.doc));
  }

  /** A tick on a verified market, with nothing pending and nothing due elsewhere, trades the one proposal that nothing
      stands in the way of, consumes its decision and leaves nothing pending. */
  lemma TickTradesEntry(c: Config, w: World, auths: seq<Key>, prots: seq<Key>, plans: seq<Plan>, i: nat, v: World,
                        raised: bool)
    requires i < |plans| == |c.symbols| && w.doc.pending == map[]
    requires IsTick(c, w, auths, prots, true, plans, v, raised)
    requires plans[i].exit.NoExit? && Clear(c, w, i, plans[i].entry)
    requires forall j :: 0 <= j < |plans| && j != i ==> Quiet(plans[j])
    ensures var plan := plans[i].entry;
            && !raised && Trades(c, w, Trade(c.symbols[i], Auth(plan.decision), plan.fill.value), v)
            && plan.decision in v.consumed && v.doc.pending == map[]
  {
    NothingPending(c, w, auths, prots, true, plans, v, raised);
    var u := QuietButOne(c, w, plans, i);
    var (x, ended) := Entered(c, u, i, plans[i].entry);
    EntryTradesIff(c, u, i, plans[i].entry, x, ended);
  }

  /** ... and closes the one position whose exit is due. */
  lemma TickTradesExit(c: Config, w: World, auths: seq<Key>, prots: seq<Key>, plans: seq<Plan>, i: nat, v: World,
                       raised: bool)
    requires i < |plans| == |c.symbols| && w.doc.pending == map[]
    requires IsTick(c, w, auths, prots, true, plans, v, raised)
    requires DueExit(c, w, i, plans[i].exit)
    requires forall j :: 0 <= j < |plans| && j != i ==> Quiet(plans[j])
    ensures var k := Prot(c.symbols[i], w.doc.book.positions[c.symbols[i]].decision, plans[i].exit.reason);
            && !raised && Trades(c, w, Trade(c.symbols[i], k, plans[i].exit.fill), v)
            && c.symbols[i] !in v.doc.book.positions && v.doc.pending == map[]
  {
    NothingPending(c, w, auths, prots, true, plans, v, raised);
    var u := QuietButOne(c, w, plans, i);
    var (x, done) := Exited(c, u, i, plans[i].exit);
    ExitTradesIff(c, u, i, plans[i].exit, x, done);
  }

  /** A tick trades the one staged, authorized intent before anything else, whether or not the market is verified. */
  lemma TickTradesStaged(c: Config, w: World, auths: seq<Key>, prots: seq<Key>, plans: seq<Plan>, d: DecisionId,
                         v: World,
                         raised: bool)
    requires |plans| == |c.symbols| && w.doc.pending.Keys == {Auth(d)}
    requires IsTick(c, w, auths, prots, false, plans, v, raised)
    requires d in w.consumed || (d in w.records && w.records[d].authorized)
    requires var i := w.doc.pending[Auth(d)];
             Unseen(w, Auth(d), i.fill) && Post(w.doc.book, Trade(i.symbol, Auth(d), i.fill)).Some?
    ensures var i := w.doc.pending[Auth(d)];
            && !raised && Trades(c, w, Trade(i.symbol, Auth(d), i.fill), v)
            && d in v.consumed && v.doc.pending == map[]
  {
    var k := Auth(d);
    OneOrdered(auths, AuthKeys(w.doc), k);
    assert [k][..0] == [] && RetriedAll(c, w, [k]) == Retried(c, w, k);
    RecoveryTradesIff(c, w, k, Retried(c, w, k));
    assert Retried(c, w, k).doc.pending == map[];
    NoneOrdered(prots, ProtKeys(Retried(c, w, k).doc));
  }
}
