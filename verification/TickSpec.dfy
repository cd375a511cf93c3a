/** What a tick meets, and what it does to the account when every write returns: the loop object is proved to do
    exactly this whenever it starts from memory as it is stored and no write raises. */
module TickSpec {
  import opened Common
  import opened Ledger
  import opened Protocol

  /** The outcomes of the writes that apply an intent. */
  datatype Writes = Writes(consume: Outcome, apply: Outcome, complete: Outcome)

  /** What one visit does about an exit: none due, refused in the preflight, or staged and applied. */
  datatype ExitPlan =
    | NoExit
    | Preflight(event: Outcome)
    | ExitWith(reason: string, fill: Ready, stage: Outcome, writes: Writes, event: Outcome)

  /** ... and about an entry: no proposal, or a decision with its ruling. A fill is prepared for the side that
      the ruling authorizes, or the preflight refuses. */
  datatype EntryPlan =
    | NoEntry(event: Option<Outcome>)
    | EntryWith(decision: DecisionId, ruling: Record, rule: Outcome, fill: Option<Ready>, stage: Outcome,
                writes: Writes, event: Option<Outcome>)

  datatype Plan = Plan(exit: ExitPlan, entry: EntryPlan)

  predicate Coherent(plan: Plan)
  {
    && (plan.exit.ExitWith? ==> plan.exit.fill.side.Sell?)
    && (plan.entry.EntryWith? && plan.entry.ruling.authorized ==>
          && plan.entry.ruling.intent.Some?
          && (plan.entry.fill.Some? ==> plan.entry.fill.value.side == plan.entry.ruling.intent.value))
  }

  /** What one tick meets: how the writes of recovery go, whether the market is verified, what happens in each
      visit, and how the closing save goes. */
  datatype Day = Day(weather: Key -> Writes, verified: bool, plans: seq<Plan>, last: Outcome)

  predicate Fits(c: Config, day: Day)
  {
    |day.plans| == |c.symbols| && forall i :: 0 <= i < |day.plans| ==> Coherent(day.plans[i])
  }

  // Every write returns.

  predicate Calm(w: Writes) { w.consume.Done? && w.apply.Done? && w.complete.Done? }

  predicate CalmExit(plan: ExitPlan)
  {
    match plan
    case NoExit => true
    case Preflight(event) => event.Done?
    case ExitWith(_, _, stage, writes, event) => stage.Done? && Calm(writes) && event.Done?
  }

  predicate CalmEvent(o: Option<Outcome>) { o.Some? ==> o.value.Done? }

  predicate CalmEntry(plan: EntryPlan)
  {
    match plan
    case NoEntry(event) => CalmEvent(event)
    case EntryWith(_, _, rule, _, stage, writes, event) => rule.Done? && stage.Done? && Calm(writes) && CalmEvent(event)
  }

  predicate CalmPlan(plan: Plan) { CalmExit(plan.exit) && CalmEntry(plan.entry) }

  predicate CalmPlans(plans: seq<Plan>) { forall i :: 0 <= i < |plans| ==> CalmPlan(plans[i]) }

  ghost predicate CalmWeather(weather: Key -> Writes) { forall k :: Calm(weather(k)) }

  // ---------------------------------------------------------------------------------------
  // The account, its records and everything committed

  /** `version` counts the writes of the document. */
  datatype World =
    World(doc: Doc, version: nat, consumed: set<DecisionId>, records: map<DecisionId, Record>, history: seq<Trade>)

  function Wrote(w: World, doc: Doc): World { w.(doc := doc, version := w.version + 1) }

  /** Events and marks write the document as it is. */
  function Rewritten(w: World): World { Wrote(w, w.doc) }

  function WithEvent(w: World, event: Option<Outcome>): World { if event.Some? then Rewritten(w) else w }

  function Dropped(w: World, k: Key): World { Wrote(w, w.doc.(pending := w.doc.pending - {k})) }

  function Staged(w: World, k: Key, i: Intent): World { Wrote(w, w.doc.(pending := w.doc.pending[k := i])) }

  /** The intent's trade is committed and the intent dropped. */
  function Concluded(c: Config, w: World, k: Key): World
    requires Posts(w.doc, k)
  {
    Dropped(Wrote(w, Applied(c, w.doc, k)).(history := w.history + [TradeOf(w.doc, k)]), k)
  }

  /** Applying an intent: refused without its authorization, only dropped when the list shows it executed, committed
      when the book accepts it. */
  function Settled(c: Config, w: World, k: Key): (r: (World, bool))
  {
    if k !in w.doc.pending || (k.Auth? && k.decision !in w.consumed) then (w, true)
    else if Seen(w.doc, k) then (Dropped(w, k), false)
    else if Posts(w.doc, k) then (Concluded(c, w, k), false)
    else (w, true)
  }

  /** An authorization of a pending intent that can still be consumed. */
  predicate Consumable(w: World, k: Key)
  {
    k.Auth? && k.decision !in w.consumed && k.decision in w.records && w.records[k.decision].authorized
  }

  /** One intent of recovery. */
  function Retried(c: Config, w: World, k: Key): World
  {
    Settled(c, if Consumable(w, k) then w.(consumed := w.consumed + {k.decision}) else w, k).0
  }

  function RetriedAll(c: Config, w: World, ks: seq<Key>): World
  {
    if ks == [] then w else Retried(c, RetriedAll(c, w, ks[..|ks| - 1]), ks[|ks| - 1])
  }

  /** This ruling authorizes: the decision is not consumed, and no other ruling was recorded for it. */
  predicate Grants(w: World, d: DecisionId, rec: Record)
  {
    d !in w.consumed && rec.authorized && (d in w.records ==> w.records[d] == rec)
  }

  /** A decision that is not consumed is ruled on once. */
  function WithRuling(w: World, d: DecisionId, rec: Record): World
  {
    if d in w.consumed || d in w.records then w else w.(records := w.records[d := rec])
  }

  /** An authorized execution: staged unless another decision is, consumed, applied. */
  function Authorized(c: Config, w: World, sym: Symbol, d: DecisionId, f: Ready): (World, bool)
  {
    if Blocks(w.doc, d, sym) then (w, true)
    else Settled(c, Staged(w, Auth(d), Intent(sym, f)).(consumed := w.consumed + {d}), Auth(d))
  }

  /** The proposal of a visit, and whether it ended the tick. */
  function Entered(c: Config, w: World, i: nat, plan: EntryPlan): (World, bool)
    requires i < |c.symbols|
  {
    if plan.NoEntry? then (WithEvent(w, plan.event), false)
    else
      var d, v := plan.decision, WithRuling(w, plan.decision, plan.ruling);
      if Grants(w, d, plan.ruling) && plan.fill.Some? && (plan.fill.value.side.Sell? <==> Held(c, i, w.doc)) then
        Authorized(c, v, c.symbols[i], d, plan.fill.value)
      else (WithEvent(v, plan.event), false)
  }

  /** The exit of a visit, and whether it ended the visit. */
  function Exited(c: Config, w: World, i: nat, plan: ExitPlan): (World, bool)
    requires i < |c.symbols|
  {
    if !Held(c, i, w.doc) || plan.NoExit? then (w, false)
    else if plan.Preflight? then (Rewritten(w), false)
    else
      var k := ExitKey(c, i, w.doc, plan.reason);
      var (v, raised) := Protected(c, w, c.symbols[i], k, plan.fill);
      if raised then (Rewritten(v), false) else (v, !Held(c, i, v.doc))
  }

  /** A protective exit: staged unless another one is, and applied. */
  function Protected(c: Config, w: World, sym: Symbol, k: Key, f: Ready): (World, bool)
  {
    if OtherExit(w.doc, k) then (w, true) else Settled(c, Staged(w, k, Intent(sym, f)), k)
  }

  function Visited(c: Config, w: World, i: nat, plan: Plan): (World, bool)
    requires i < |c.symbols|
  {
    var (v, done) := Exited(c, w, i, plan.exit);
    if done then (v, false) else Entered(c, v, i, plan.entry)
  }

  /** The first n visits; none follows one that ended the tick. */
  function VisitedTo(c: Config, w: World, plans: seq<Plan>, n: nat): (World, bool)
    requires n <= |plans| == |c.symbols|
  {
    if n == 0 then (w, false) else VisitNext(c, VisitedTo(c, w, plans, n - 1), n - 1, plans[n - 1])
  }

  function VisitNext(c: Config, r: (World, bool), i: nat, plan: Plan): (World, bool)
    requires i < |c.symbols|
  {
    if r.1 then r else Visited(c, r.0, i, plan)
  }

  /** These keys, each once, in some order. */
  ghost predicate Orders(ks: seq<Key>, keys: set<Key>) { Unique(ks) && forall k :: k in ks <==> k in keys }

  /** The authorized intents, the protective ones that are then pending, and every symbol in order. */
  function Swept(c: Config, w: World, auths: seq<Key>, prots: seq<Key>, verified: bool, plans: seq<Plan>): (World, bool)
    requires |plans| == |c.symbols|
  {
    var v := RetriedAll(c, RetriedAll(c, w, auths), prots);
    if verified then VisitedTo(c, v, plans, |plans|) else (v, false)
  }

  /** A tick ends with a save unless a visit ended it. */
  function Ticked(c: Config, w: World, auths: seq<Key>, prots: seq<Key>, verified: bool, plans: seq<Plan>): (World,
                  bool)
    requires |plans| == |c.symbols|
  {
    var (v, raised) := Swept(c, w, auths, prots, verified, plans);
    (if raised then v else Rewritten(v), raised)
  }

  /** Recovery takes each intent once, in some order. */
  ghost predicate Recovers(c: Config, w: World, auths: seq<Key>, prots: seq<Key>)
  {
    Orders(auths, AuthKeys(w.doc)) && Orders(prots, ProtKeys(RetriedAll(c, w, auths).doc))
  }

  ghost predicate IsTick(c: Config, w: World, auths: seq<Key>, prots: seq<Key>, verified: bool, plans: seq<Plan>,
                         v: World, raised: bool)
    requires |plans| == |c.symbols|
  {
    Recovers(c, w, auths, prots) && (v, raised) == Ticked(c, w, auths, prots, verified, plans)
  }

  lemma OrderMore(ks: seq<Key>, keys: set<Key>, k: Key)
    requires Orders(ks, keys) && k !in keys
    ensures Orders(ks + [k], keys + {k})
  {
    UniqueAppend(ks, k);
  }

  /** One intent more has been visited. */
  lemma RetriedMore(c: Config, w: World, ks: seq<Key>, keys: set<Key>, rest: set<Key>, k: Key)
    requires rest <= keys && k in rest && Orders(ks, keys - rest)
    ensures Orders(ks + [k], keys - (rest - {k}))
    ensures RetriedAll(c, w, ks + [k]) == Retried(c, RetriedAll(c, w, ks), k)
  {
    OrderMore(ks, keys - rest, k);
    assert keys - rest + {k} == keys - (rest - {k});
    assert (ks + [k])[..|ks|] == ks;
  }

  lemma {:induction false} VisitedStays(c: Config, w: World, plans: seq<Plan>, m: nat, n: nat)
    requires m <= n <= |plans| == |c.symbols|
    ensures VisitedTo(c, w, plans, m).1 ==> VisitedTo(c, w, plans, n) == VisitedTo(c, w, plans, m)
  {
    if m < n { VisitedStays(c, w, plans, m, n - 1); }
  }
}
