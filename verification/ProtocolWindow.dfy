/** The duplicate check reads a bounded trade list. This module bounds how many trades can be
    committed while an already executed intent is still pending, and so shows when the bounded list
    answers exactly as the whole history would. */
module ProtocolWindow {
  import opened Common
  import opened Ledger
  import opened Protocol
  import opened ProtocolSafety

  /** No two committed trades carry the same execution intent. */
  predicate NoDuplicates(h: seq<Trade>)
  {
    forall i, j :: 0 <= i < j < |h| ==> h[i].key != h[j].key
  }

  /** How many of the first `n` trades were committed after the newest one of this intent among them. */
  function LagAt(h: seq<Trade>, n: nat, k: Key): nat
    requires n <= |h|
  {
    if n == 0 || h[n - 1].key == k then 0 else 1 + LagAt(h, n - 1, k)
  }

  function Lag(h: seq<Trade>, k: Key): nat { LagAt(h, |h|, k) }

  lemma {:induction false} LagLocates(h: seq<Trade>, n: nat, k: Key) returns (i: nat)
    requires n <= |h| && exists j :: 0 <= j < n && h[j].key == k
    ensures i < n && h[i].key == k && i + LagAt(h, n, k) == n - 1
  {
    if h[n - 1].key == k {
      i := n - 1;
    } else {
      i := LagLocates(h, n - 1, k);
    }
  }

  lemma {:induction false} LagPrefix(h: seq<Trade>, t: Trade, n: nat, k: Key)
    requires n <= |h|
    ensures LagAt(h + [t], n, k) == LagAt(h, n, k)
  {
    if n > 0 { LagPrefix(h, t, n - 1, k); }
  }

  lemma LagAppend(h: seq<Trade>, t: Trade, k: Key)
    ensures Lag(h + [t], k) == if t.key == k then 0 else Lag(h, k) + 1
  {
    LagPrefix(h, t, |h|, k);
  }

  // ---------------------------------------------------------------------------------------
  // How many trades a process can still add before it completes the intent

  /** This memory recognises the intent as executed when recovery reaches it. */
  predicate Knows(doc: Doc, x: Key) { x in doc.pending && Seen(doc, x) }

  /** Trades that one visit of a symbol can lead to. A lone process that closed a position in its visit
      finds none to sell afterwards; with others, one may have been opened in between. */
  function Rate(s: Sys): nat { if |s.procs| == 1 then 1 else 2 }

  /** The visits from symbol i on. */
  function Visits(c: Config, r: nat, i: nat): nat
  {
    if i >= |c.symbols| then 0 else if r == 1 then |c.symbols| - i else 2 * (|c.symbols| - i)
  }

  /** One whole round: at most one leftover exit in recovery, then every symbol. */
  function FullRound(c: Config, r: nat): nat { Visits(c, r, 0) + 1 }

  /** After an exit was tried and failed: the visit goes on if the durable book still has the position. */
  function AfterExit(c: Config, r: nat, b: Book, i: nat): nat
  {
    Visits(c, r, i + 1) + (if r == 1 && !(i < |c.symbols| && c.symbols[i] in b.positions) then 0 else 1)
  }

  /** Recovery is still going to reach the intent. */
  predicate Meets(todo: set<Key>, protective: bool, x: Key) { x in todo || (x.Prot? && !protective) }

  function InRound(c: Config, r: nat, todo: set<Key>, protective: bool, busy: bool, x: Key): nat
  {
    if Meets(todo, protective, x) then 0 else Visits(c, r, 0) + (if !protective || busy then 1 else 0)
  }

  /** What a process that knows the intent may add from this point on. */
  function Owed(c: Config, r: nat, b: Book, ph: Phase, x: Key): nat
  {
    match ph
    case Idle => 0
    case Recover(todo, pr) => InRound(c, r, todo, pr, todo != {}, x)
    case Trading(i) => Visits(c, r, i)
    case Entry(i, _) => 1 + Visits(c, r, i + 1)
    case Blocked(i) => AfterExit(c, r, b, i)
    case Apply(k, y) =>
      if k == x then 0
      else (match y
            case InRecovery(todo, pr) => InRound(c, r, todo, pr, true, x)
            case InExit(i, _, _) => Visits(c, r, i)
            case InEntry(i, _) => Visits(c, r, i + 1))
    case Settle(k, y) =>
      if k == x then 0
      else (match y
            case InRecovery(todo, pr) => InRound(c, r, todo, pr, todo != {}, x)
            case InExit(i, _, _) => if i < |c.symbols| then Visits(c, r, i) - 1 else 0
            case InEntry(i, _) => Visits(c, r, i + 1))
    case Failed(y) =>
      match y
      case InRecovery(todo, pr) => InRound(c, r, todo, pr, todo != {}, x)
      case InExit(i, _, _) => AfterExit(c, r, b, i)
      case InEntry(_, _) => 0
  }

  function Credit(c: Config, r: nat, b: Book, q: Proc, x: Key): nat
  {
    if q.Down? then 0 else if !Knows(q.doc, x) then FullRound(c, r) else Owed(c, r, b, q.phase, x)
  }

  /** Authorized intents that are staged and not executed. Protective ones are paid by the visit that
      stages them, or by the recovery that finds them. */
  ghost function Unexecuted(h: seq<Trade>, m: map<Key, Intent>): set<Key>
  {
    set k | k in m && k.Auth? && !Traded(h, k)
  }

  /** Staged intents that exist only in the memory of a process that could still write them. */
  ghost function Extra(s: Sys, q: Proc, x: Key): set<Key>
  {
    if q.Up? && q.version == s.store.version && Knows(q.doc, x)
    then Unexecuted(s.history, q.doc.pending) - s.store.doc.pending.Keys else {}
  }

  ghost function Debt(c: Config, s: Sys, q: Proc, x: Key): nat
  {
    Credit(c, Rate(s), s.store.doc.book, q, x) + |Extra(s, q, x)|
  }

  function Pool(a: seq<nat>): nat { if a == [] then 0 else Pool(a[..|a| - 1]) + a[|a| - 1] }

  function Repeated(k: nat, u: nat): nat { if k == 0 then 0 else Repeated(k - 1, u) + u }

  /** Every process stays within its allowance. */
  ghost predicate Covers(c: Config, s: Sys, x: Key, a: seq<nat>)
  {
    |a| == |s.procs| && forall i :: 0 <= i < |a| ==> Debt(c, s, s.procs[i], x) <= a[i]
  }

  /** The allowances cover what each process may still add, and together with the trades since the
      intent's own and the intents still to be executed they stay within `cap`. */
  ghost predicate Affords(c: Config, s: Sys, x: Key, a: seq<nat>, funds: nat, cap: nat)
  {
    && Covers(c, s, x, a)
    && Lag(s.history, x) + |Unexecuted(s.history, s.store.doc.pending)| + Pool(a) + funds <= cap
  }

  ghost predicate Bounded(c: Config, s: Sys, x: Key, funds: nat, cap: nat)
  {
    exists a :: Affords(c, s, x, a, funds, cap)
  }

  /** What an intent can meet when it has just been executed: the others staged, and a round of every
      other process. */
  function Base(c: Config, n: nat): nat
  {
    |c.symbols| + (if n <= 1 then 0 else Repeated(n - 1, FullRound(c, 2)))
  }

  /** What is left to pay for the faults that the intent may still meet. */
  ghost function Funds(c: Config, s: Sys, f: nat, x: Key): nat
  {
    if s.faults[x] <= f then Repeated(f - s.faults[x], FullRound(c, Rate(s))) else 0
  }

  // Shapes of phases

  predicate OnlyAuth(ks: set<Key>) { forall k :: k in ks ==> k.Auth? }

  predicate ContextOk(c: Config, y: Context)
  {
    match y
    case InRecovery(todo, pr) => if pr then todo == {} else OnlyAuth(todo)
    case InExit(i, _, _) => i < |c.symbols|
    case InEntry(i, _) => i < |c.symbols|
  }

  predicate KeyFits(c: Config, k: Key, y: Context)
  {
    match y
    case InRecovery(_, pr) => k.Prot? <==> pr
    case InExit(i, _, _) => k.Prot? && i < |c.symbols| && k.symbol == c.symbols[i]
    case InEntry(_, _) => k.Auth?
  }

  predicate PhaseOk(c: Config, ph: Phase)
  {
    match ph
    case Idle => true
    case Recover(todo, pr) => if pr then |todo| <= 1 && (forall k :: k in todo ==> k.Prot?) else OnlyAuth(todo)
    case Trading(_) => true
    case Entry(i, _) => i < |c.symbols|
    case Blocked(i) => i < |c.symbols|
    case Apply(k, y) => ContextOk(c, y) && KeyFits(c, k, y)
    case Settle(k, y) => ContextOk(c, y) && KeyFits(c, k, y)
    case Failed(y) => ContextOk(c, y)
  }

  /** An exit in progress started from an older memory that knew the same intents, its own apart. */
  ghost predicate CopyOk(q: Proc)
  {
    KeepsCopy(q) ==>
      && q.phase.context.at < q.version
      && forall x :: x != q.phase.key && Knows(q.doc, x) ==> Knows(q.phase.context.before, x)
  }

  /** An entry applies an intent that its memory has not seen executed. */
  predicate EntryOk(q: Proc)
  {
    q.Up? && q.phase.Apply? && q.phase.context.InEntry? && q.phase.key in q.doc.pending ==> !Seen(q.doc, q.phase.key)
  }

  /** A lone process that has executed an exit is current and has no such position. */
  predicate LoneOk(c: Config, s: Sys, q: Proc)
  {
    |s.procs| == 1 && q.Up? && q.phase.Settle? && q.phase.context.InExit? ==>
      q.version == s.store.version && !Held(c, q.phase.context.i, s.store.doc)
  }

  ghost predicate ShapeOk(c: Config, s: Sys, q: Proc)
  {
    q.Up? ==> PhaseOk(c, q.phase) && CopyOk(q) && EntryOk(q) && LoneOk(c, s, q)
  }

  /** No intent has met more than `f` faults, and `cap` bounds the lag of every executed one. */
  ghost predicate WindowInv(c: Config, s: Sys, f: nat, cap: nat)
  {
    && Base(c, |s.procs|) + Repeated(f, FullRound(c, Rate(s))) <= cap
    && NoDuplicates(s.history)
    && (forall x :: x in s.faults ==> Traded(s.history, x) && s.faults[x] <= f)
    && (forall p :: 0 <= p < |s.procs| ==> ShapeOk(c, s, s.procs[p]))
    && AllBounded(c, s, f, cap)
  }

  ghost predicate AllBounded(c: Config, s: Sys, f: nat, cap: nat)
  {
    forall x :: x in s.store.doc.pending && Traded(s.history, x) ==> Bounded(c, s, x, Funds(c, s, f, x), cap)
  }

  // ---------------------------------------------------------------------------------------
  // Sums and sizes

  lemma {:induction false} SumUpdate(a: seq<nat>, p: nat, v: nat)
    requires p < |a|
    ensures Pool(a[p := v]) == Pool(a) - a[p] + v
  {
    var n := |a| - 1;
    if p == n {
      assert a[p := v][..n] == a[..n];
    } else {
      assert a[p := v][..n] == a[..n][p := v];
      SumUpdate(a[..n], p, v);
    }
  }

  lemma {:induction false} SumConstant(n: nat, u: nat)
    ensures Pool(seq(n, _ => u)) == Repeated(n, u)
  {
    if n > 0 {
      assert seq(n, _ => u)[..n - 1] == seq(n - 1, _ => u);
      SumConstant(n - 1, u);
    }
  }

  lemma {:induction false} SumAtLeast(a: seq<nat>, p: nat)
    requires p < |a|
    ensures a[p] <= Pool(a)
  {
    if p < |a| - 1 { SumAtLeast(a[..|a| - 1], p); }
  }

  lemma SubsetSize<T>(a: set<T>, b: set<T>)
    requires a <= b
    ensures |a| <= |b|
  {
    assert b == a + (b - a);
  }

  lemma AddOne<T>(a: set<T>, b: set<T>, k: T)
    requires a <= b + {k}
    ensures |a| <= |b| + 1
  {
    SubsetSize(a, b + {k});
  }

  /** Keys that map to distinct symbols are no more than the symbols. */
  lemma {:induction false} KeysFit(ks: set<Key>, m: map<Key, Intent>, syms: seq<Symbol>)
    requires forall k :: k in ks ==> k in m && m[k].symbol in syms
    requires forall k, l :: k in ks && l in ks && m[k].symbol == m[l].symbol ==> k == l
    ensures |ks| <= |syms|
    decreases |syms|
  {
    if syms == [] {
      assert ks == {};
    } else {
      var n := |syms| - 1;
      var rest := set k | k in ks && m[k].symbol != syms[n];
      KeysFit(rest, m, syms[..n]);
      if rest != ks {
        var k :| k in ks && k !in rest;
        AddOne(ks, rest, k);
      }
    }
  }

  lemma UnexecutedFits(c: Config, s: Sys, h: seq<Trade>, m: map<Key, Intent>)
    requires PendingOk(c, s, m)
    ensures |Unexecuted(h, m)| <= |c.symbols|
  {
    forall k | k in m ensures m[k].symbol in c.symbols { assert IntentOk(c, s, k, m[k]); }
    KeysFit(Unexecuted(h, m), m, c.symbols);
  }

  lemma OwedFits(c: Config, r: nat, b: Book, ph: Phase, x: Key)
    requires PhaseOk(c, ph)
    ensures Owed(c, r, b, ph, x) <= FullRound(c, r)
  {
  }

  lemma CreditFits(c: Config, r: nat, b: Book, q: Proc, x: Key)
    requires q.Up? ==> PhaseOk(c, q.phase)
    ensures Credit(c, r, b, q, x) <= FullRound(c, r)
  {
    if q.Up? { OwedFits(c, r, b, q.phase, x); }
  }

  // ---------------------------------------------------------------------------------------
  // The bounded list answers as the history does

  /** An executed pending intent of a mirroring document is seen as long as its lag is in the window. */
  lemma SeenWhenRecent(c: Config, s: Sys, doc: Doc, x: Key)
    requires Inv(c, s) && doc.trades == s.store.doc.trades && PendingOk(c, s, doc.pending)
    requires x in doc.pending && Traded(s.history, x) && Lag(s.history, x) < c.window
    ensures Seen(doc, x)
  {
    var i := LagLocates(s.history, |s.history|, x);
    var j := if |s.history| <= c.window then i else i - (|s.history| - c.window);
    assert doc.trades[j] == s.history[i];
    assert TradeOk(s.store, s.history, i);
    assert IntentOk(c, s, x, doc.pending[x]);
    assert SameIntent(doc.trades[j], x, doc.pending[x]);
  }

  lemma LagUnderBound(c: Config, s: Sys, f: nat, cap: nat, x: Key)
    requires WindowInv(c, s, f, cap) && x in s.store.doc.pending && Traded(s.history, x)
    ensures Lag(s.history, x) + |Unexecuted(s.history, s.store.doc.pending)| <= cap
  {
    assert Bounded(c, s, x, Funds(c, s, f, x), cap);
    var a :| Affords(c, s, x, a, Funds(c, s, f, x), cap);
  }

  /** While the bound is below the window, the bounded check and the whole history agree on every
      durable pending intent. */
  lemma WindowIsExact(c: Config, s: Sys, f: nat, cap: nat, x: Key)
    requires Inv(c, s) && WindowInv(c, s, f, cap) && cap < c.window
    requires x in s.store.doc.pending
    ensures Seen(s.store.doc, x) <==> Traded(s.history, x)
  {
    if Traded(s.history, x) {
      LagUnderBound(c, s, f, cap, x);
      SeenWhenRecent(c, s, s.store.doc, x);
    } else if Seen(s.store.doc, x) {
      var i :| 0 <= i < |s.store.doc.trades| && SameIntent(s.store.doc.trades[i], x, s.store.doc.pending[x]);
      LastTraded(s.history, c.window, i);
    }
  }

  /** A process at the durable version knows every executed intent that it still holds. */
  lemma MirrorKnows(c: Config, s: Sys, f: nat, cap: nat, p: nat, x: Key)
    requires Inv(c, s) && WindowInv(c, s, f, cap) && cap < c.window
    requires Synced(s, p) && x in s.procs[p].doc.pending && Traded(s.history, x)
    ensures x in s.store.doc.pending && Knows(s.procs[p].doc, x)
  {
    assert ProcOk(c, s, s.procs[p]);
    LagUnderBound(c, s, f, cap, x);
    SeenWhenRecent(c, s, s.procs[p].doc, x);
  }

  // ---------------------------------------------------------------------------------------
  // Shapes are kept

  /** At most one protective intent, so one recovery pass has at most one to apply. */
  lemma ProtAtMostOne(c: Config, s: Sys, doc: Doc)
    requires PendingOk(c, s, doc.pending)
    ensures |ProtKeys(doc)| <= 1
  {
    var ks := ProtKeys(doc);
    if ks != {} {
      var k :| k in ks;
      assert ks == {k};
    }
  }

  lemma TakeLast(todo: set<Key>, k: Key)
    requires |todo| <= 1 && k in todo
    ensures todo - {k} == {}
  {
    assert |todo - {k}| == |todo| - 1;
  }

  predicate Moves(st: Step)
  {
    st.Crash? || st.BeginTick? || st.Pick? || st.Advance? || st.EndTick? || st.Pass? || st.Check? || st.Keep?
  }

  lemma MoveShape(c: Config, s: Sys, t: Sys, st: Step)
    requires st.p < |s.procs| == |t.procs| && Enabled(c, s, st) && t == Next(c, s, st) && Moves(st)
    requires Inv(c, s) && ShapeOk(c, s, s.procs[st.p])
    ensures ShapeOk(c, t, t.procs[st.p])
  {
    var q := s.procs[st.p];
    if st.Advance? {
      assert ProcOk(c, s, q);
      ProtAtMostOne(c, s, q.doc);
    }
    if st.Pick? && q.phase.protective { TakeLast(q.phase.todo, st.key); }
  }

  lemma FallShape(c: Config, s: Sys, t: Sys, st: Step)
    requires st.p < |s.procs| == |t.procs| && Enabled(c, s, st) && t == Next(c, s, st)
    requires st.Boot? || st.ExitFails? || st.Refuse? || st.Abandon? || st.Reload?
    requires ShapeOk(c, s, s.procs[st.p])
    ensures ShapeOk(c, t, t.procs[st.p])
  {
  }

  lemma QuietShape(c: Config, s: Sys, t: Sys, st: Step)
    requires st.p < |s.procs| == |t.procs| && Enabled(c, s, st) && t == Next(c, s, st) && Quiet(st)
    requires Inv(c, s) && ShapeOk(c, s, s.procs[st.p])
    ensures ShapeOk(c, t, t.procs[st.p])
  {
    if Moves(st) { MoveShape(c, s, t, st); } else { FallShape(c, s, t, st); }
  }

  predicate Writes(st: Step) { st.Save? || st.StageAuth? || st.StageExit? || st.Execute? || st.Complete? }

  lemma TalkShape(c: Config, s: Sys, t: Sys, st: Step)
    requires Enabled(c, s, st) && t == Next(c, s, st) && (st.Check? || st.Rule? || st.Consume?)
    requires ShapeOk(c, s, s.procs[st.p])
    ensures ShapeOk(c, t, t.procs[st.p])
  {
  }

  lemma StageAuthShape(c: Config, s: Sys, t: Sys, p: nat, fill: Ready, o: Outcome)
    requires Enabled(c, s, StageAuth(p, fill, o)) && t == StagedAuth(c, s, p, fill, o)
    requires Inv(c, s) && ShapeOk(c, s, s.procs[p])
    ensures ShapeOk(c, t, t.procs[p])
  {
    assert ProcOk(c, s, s.procs[p]);
  }

  lemma StageExitShape(c: Config, s: Sys, t: Sys, p: nat, reason: string, fill: Ready, o: Outcome)
    requires Enabled(c, s, StageExit(p, reason, fill, o)) && t == StagedExit(c, s, p, reason, fill, o)
    requires ShapeOk(c, s, s.procs[p])
    ensures ShapeOk(c, t, t.procs[p])
  {
    var q, r := s.procs[p], t.procs[p];
    if KeepsCopy(r) {
      forall x | x != r.phase.key && Knows(r.doc, x) ensures Knows(q.doc, x) {
        var i :| 0 <= i < |r.doc.trades| && SameIntent(r.doc.trades[i], x, r.doc.pending[x]);
        assert SameIntent(q.doc.trades[i], x, q.doc.pending[x]);
      }
    }
  }

  /** Applying another intent reveals nothing about one that was not seen before. */
  lemma AppliedKnows(c: Config, doc: Doc, k: Key, x: Key)
    requires Posts(doc, k) && x != k && Knows(Applied(c, doc, k), x)
    ensures Knows(doc, x)
  {
    var ts := Applied(c, doc, k).trades;
    var i :| 0 <= i < |ts| && SameIntent(ts[i], x, doc.pending[x]);
    var all := doc.trades + [TradeOf(doc, k)];
    var j := i + |all| - |ts|;
    assert ts[i] == all[j] && all[j].key == x;
    assert SameIntent(doc.trades[j], x, doc.pending[x]);
  }

  lemma ExecuteShape(c: Config, s: Sys, t: Sys, p: nat, o: Outcome)
    requires Enabled(c, s, Execute(p, o)) && t == Executed(c, s, p, o)
    requires Inv(c, s) && ShapeOk(c, s, s.procs[p])
    ensures ShapeOk(c, t, t.procs[p])
  {
    var q, r := s.procs[p], t.procs[p];
    assert ProcOk(c, s, q);
    assert IntentOk(c, s, q.phase.key, q.doc.pending[q.phase.key]);
    if KeepsCopy(r) {
      forall x | x != r.phase.key && Knows(r.doc, x) ensures Knows(q.phase.context.before, x) {
        AppliedKnows(c, q.doc, q.phase.key, x);
      }
    }
  }

  lemma CompleteShape(c: Config, s: Sys, t: Sys, p: nat, o: Outcome)
    requires Enabled(c, s, Complete(p, o)) && t == Completed(c, s, p, o)
    requires ShapeOk(c, s, s.procs[p])
    ensures ShapeOk(c, t, t.procs[p])
  {
  }

  lemma SaveShape(c: Config, s: Sys, t: Sys, p: nat, o: Outcome)
    requires Enabled(c, s, Save(p, o)) && t == Saved(c, s, p, o)
    requires ShapeOk(c, s, s.procs[p])
    ensures ShapeOk(c, t, t.procs[p])
  {
  }

  lemma WriteShape(c: Config, s: Sys, t: Sys, st: Step)
    requires st.p < |s.procs| == |t.procs| && Enabled(c, s, st) && t == Next(c, s, st) && Writes(st)
    requires Inv(c, s) && ShapeOk(c, s, s.procs[st.p])
    ensures ShapeOk(c, t, t.procs[st.p])
  {
    match st
    case StageAuth(p, fill, o) => StageAuthShape(c, s, t, p, fill, o);
    case StageExit(p, reason, fill, o) => StageExitShape(c, s, t, p, reason, fill, o);
    case Execute(p, o) => ExecuteShape(c, s, t, p, o);
    case Complete(p, o) => CompleteShape(c, s, t, p, o);
    case Save(p, o) => SaveShape(c, s, t, p, o);
  }

  lemma StepShape(c: Config, s: Sys, t: Sys, st: Step)
    requires st.p < |s.procs| == |t.procs| && Enabled(c, s, st) && t == Next(c, s, st)
    requires Inv(c, s) && ShapeOk(c, s, s.procs[st.p])
    ensures ShapeOk(c, t, t.procs[st.p])
  {
    if Writes(st) {
      WriteShape(c, s, t, st);
    } else if Quiet(st) {
      QuietShape(c, s, t, st);
    } else {
      TalkShape(c, s, t, st);
    }
  }

  lemma ShapesKept(c: Config, s: Sys, t: Sys, st: Step)
    requires Enabled(c, s, st) && t == Next(c, s, st) && SameElsewhere(s, t, st.p)
    requires Inv(c, s) && forall p :: 0 <= p < |s.procs| ==> ShapeOk(c, s, s.procs[p])
    ensures forall p :: 0 <= p < |t.procs| ==> ShapeOk(c, t, t.procs[p])
  {
    StepShape(c, s, t, st);
  }

  // ---------------------------------------------------------------------------------------
  // Steps that do not change the document

  ghost predicate Local(s: Sys, t: Sys, p: nat)
  {
    && SameElsewhere(s, t, p) && t.history == s.history
    && t.store.doc == s.store.doc && t.store.version == s.store.version
  }

  /** What the step's fault costs this intent. */
  ghost function Fee(c: Config, s: Sys, t: Sys, x: Key): nat
  {
    if t.faults[x] == s.faults[x] then 0 else FullRound(c, Rate(s))
  }

  /** The debt of one process may grow only by a fault of the intent. */
  ghost predicate Paid(c: Config, s: Sys, t: Sys, p: nat, x: Key)
    requires p < |s.procs| && p < |t.procs|
  {
    Debt(c, t, t.procs[p], x) <= Debt(c, s, s.procs[p], x) + Fee(c, s, t, x)
  }

  /** Enough to be paid: the credit does, and there is nothing more that only memory holds. */
  lemma PaidByCredit(c: Config, s: Sys, t: Sys, p: nat, x: Key)
    requires Local(s, t, p)
    requires var b, r := s.store.doc.book, Rate(s);
             Credit(c, r, b, t.procs[p], x) <= Credit(c, r, b, s.procs[p], x) + Fee(c, s, t, x)
    requires Extra(t, t.procs[p], x) <= Extra(s, s.procs[p], x)
    ensures Paid(c, s, t, p, x)
  {
    SubsetSize(Extra(t, t.procs[p], x), Extra(s, s.procs[p], x));
  }

  /** Moving on with the same memory adds nothing for an intent that it knows. */
  lemma MoveOwed(c: Config, s: Sys, t: Sys, st: Step, r: nat, b: Book, x: Key)
    requires st.p < |s.procs| == |t.procs| && Enabled(c, s, st) && t == Next(c, s, st)
    requires Moves(st) && !st.Crash?
    requires var q := s.procs[st.p]; PhaseOk(c, q.phase) && Knows(q.doc, x)
    ensures Owed(c, r, b, t.procs[st.p].phase, x) <= Owed(c, r, b, s.procs[st.p].phase, x)
  {
  }

  /** A step that keeps the process's memory and does not owe more is paid. */
  lemma KeptPaid(c: Config, s: Sys, t: Sys, p: nat, x: Key)
    requires Local(s, t, p)
    requires var q, r := s.procs[p], t.procs[p];
             && q.Up? && r.Up? && r.doc == q.doc && r.version == q.version && PhaseOk(c, r.phase)
             && (Knows(q.doc, x) ==>
                   Owed(c, Rate(s), s.store.doc.book, r.phase, x) <= Owed(c, Rate(s), s.store.doc.book, q.phase, x))
    ensures Paid(c, s, t, p, x)
  {
    PaidByCredit(c, s, t, p, x);
  }

  /** A step that falls back to an older memory has nothing left to write. */
  lemma FellPaid(c: Config, s: Sys, t: Sys, p: nat, x: Key)
    requires Local(s, t, p)
    requires var q, r := s.procs[p], t.procs[p];
             && q.Up? && r.Up? && r.version < s.store.version && PhaseOk(c, r.phase)
             && (Knows(q.doc, x) ==>
                   && Knows(r.doc, x)
                   && Owed(c, Rate(s), s.store.doc.book, r.phase, x) <= Owed(c, Rate(s), s.store.doc.book, q.phase, x))
    ensures Paid(c, s, t, p, x)
  {
    CreditFits(c, Rate(s), s.store.doc.book, t.procs[p], x);
    PaidByCredit(c, s, t, p, x);
  }

  lemma BootPaid(c: Config, s: Sys, t: Sys, p: nat, x: Key)
    requires Enabled(c, s, Boot(p)) && t == Next(c, s, Boot(p)) && Knows(s.store.doc, x)
    ensures Paid(c, s, t, p, x)
  {
    var r := t.procs[p];
    assert Owed(c, Rate(s), s.store.doc.book, r.phase, x) == 0;
    assert Extra(t, r, x) == {};
  }

  lemma ReloadPaid(c: Config, s: Sys, t: Sys, p: nat, x: Key)
    requires Enabled(c, s, Reload(p)) && t == Next(c, s, Reload(p)) && Knows(s.store.doc, x)
             && ShapeOk(c, t, t.procs[p])
    ensures Paid(c, s, t, p, x)
  {
    var q, r := s.procs[p], t.procs[p];
    ReloadCredit(c, Rate(s), s.store.doc.book, q, r, x);
    assert Extra(t, r, x) == {};
    PaidByCredit(c, s, t, p, x);
  }

  lemma ReloadCredit(c: Config, k: nat, b: Book, q: Proc, r: Proc, x: Key)
    requires q.Up? && q.phase.Failed? && r.Up? && r.phase == Recovered(q.phase.context) && PhaseOk(c, r.phase)
             && Knows(r.doc, x)
    ensures Credit(c, k, b, r, x) <= Credit(c, k, b, q, x)
  {
    ReloadOwed(c, k, b, q.phase.context, x);
    OwedFits(c, k, b, r.phase, x);
  }

  lemma ReloadOwed(c: Config, r: nat, b: Book, y: Context, x: Key)
    ensures Owed(c, r, b, Recovered(y), x) == Owed(c, r, b, Failed(y), x)
  {
  }

  lemma MovePaid(c: Config, s: Sys, t: Sys, st: Step, x: Key)
    requires st.p < |s.procs| == |t.procs| && Enabled(c, s, st) && t == Next(c, s, st)
    requires Moves(st)
    requires ShapeOk(c, s, s.procs[st.p]) && ShapeOk(c, t, t.procs[st.p])
    ensures Paid(c, s, t, st.p, x)
  {
    if st.Crash? {
      PaidByCredit(c, s, t, st.p, x);
    } else {
      if Knows(s.procs[st.p].doc, x) { MoveOwed(c, s, t, st, Rate(s), s.store.doc.book, x); }
      KeptPaid(c, s, t, st.p, x);
    }
  }

  lemma RulePaid(c: Config, s: Sys, t: Sys, p: nat, rec: Record, o: Outcome, x: Key)
    requires Enabled(c, s, Rule(p, rec, o)) && t == Ruled(s, p, rec, o)
    requires ShapeOk(c, s, s.procs[p])
    ensures Paid(c, s, t, p, x)
  {
    KeptPaid(c, s, t, p, x);
  }

  /** An executed intent is not consumed again: its own consumption is there. */
  lemma ConsumePaid(c: Config, s: Sys, t: Sys, p: nat, o: Outcome, x: Key)
    requires Enabled(c, s, Consume(p, o)) && t == Consumed(s, p, o)
    requires Inv(c, s) && ShapeOk(c, s, s.procs[p]) && Traded(s.history, x)
    ensures Paid(c, s, t, p, x)
  {
    var q := s.procs[p];
    if q.phase.key == x { TradedIsConsumed(s, q.phase.key.decision); }
    KeptPaid(c, s, t, p, x);
  }

  /** What a raise in the middle of applying an intent owes: less than the attempt did. */
  lemma RaiseOwed(c: Config, r: nat, b: Book, q: Proc, x: Key)
    requires 1 <= r <= 2 && q.Up? && q.phase.Apply? && PhaseOk(c, q.phase) && q.phase.key != x
    ensures var y := q.phase.context;
            && Owed(c, r, b, Failed(y), x) <= Owed(c, r, b, q.phase, x)
            && Owed(c, r, b, Raised(q.doc, q.version, y).phase, x) <= Owed(c, r, b, q.phase, x)
  {
  }

  /** An executed intent that a process knows is not the one it fails to apply. */
  lemma RaisedOther(c: Config, s: Sys, st: Step, x: Key)
    requires Enabled(c, s, st) && (st.Refuse? || st.Abandon? || (st.Execute? && !Lands(s, st.p, st.o)))
    requires Inv(c, s) && Traded(s.history, x) && Knows(s.procs[st.p].doc, x)
    ensures s.procs[st.p].phase.key != x
  {
    if s.procs[st.p].phase.key == x && x.Auth? { TradedIsConsumed(s, x.decision); }
  }

  /** Where a raise leads: an exit's memory is the copy from before it, any other memory stays. */
  lemma RaiseLeads(c: Config, s: Sys, t: Sys, st: Step)
    requires st.p < |s.procs| == |t.procs| && Enabled(c, s, st) && t == Next(c, s, st)
    requires st.Refuse? || st.Abandon? || (st.Execute? && !Lands(s, st.p, st.o))
    ensures Local(s, t, st.p) && t.faults == s.faults
    ensures var q, y := s.procs[st.p], s.procs[st.p].phase.context;
            && (y.InExit? ==> t.procs[st.p] == Up(y.before, y.at, Failed(y)))
            && (!y.InExit? ==>
                  t.procs[st.p] in {Up(q.doc, q.version, Failed(y)),
                      Up(q.doc, q.version, Raised(q.doc, q.version, y).phase)})
  {
  }

  /** Refusing, abandoning, or an execution write without effect. */
  lemma RaisePaid(c: Config, s: Sys, t: Sys, st: Step, x: Key)
    requires st.p < |s.procs| == |t.procs| && Enabled(c, s, st) && t == Next(c, s, st)
    requires st.Refuse? || st.Abandon? || (st.Execute? && !Lands(s, st.p, st.o))
    requires Inv(c, s) && ShapeOk(c, s, s.procs[st.p]) && ShapeOk(c, t, t.procs[st.p]) && Traded(s.history, x)
    ensures Paid(c, s, t, st.p, x)
  {
    var q := s.procs[st.p];
    assert ProcOk(c, s, q);
    if Knows(q.doc, x) { RaisedOther(c, s, st, x); }
    RaiseLeads(c, s, t, st);
    RaisedPaid(c, s, t, st.p, x);
  }

  lemma RaisedPaid(c: Config, s: Sys, t: Sys, p: nat, x: Key)
    requires Local(s, t, p) && s.procs[p].Up? && s.procs[p].phase.Apply? && s.procs[p].version <= s.store.version
    requires ShapeOk(c, s, s.procs[p]) && ShapeOk(c, t, t.procs[p])
             && (Knows(s.procs[p].doc, x) ==> s.procs[p].phase.key != x)
    requires var q, y := s.procs[p], s.procs[p].phase.context;
             && (y.InExit? ==> t.procs[p] == Up(y.before, y.at, Failed(y)))
             && (!y.InExit? ==>
                   t.procs[p] in {Up(q.doc, q.version, Failed(y)),
                       Up(q.doc, q.version, Raised(q.doc, q.version, y).phase)})
    ensures Paid(c, s, t, p, x)
  {
    var q := s.procs[p];
    if Knows(q.doc, x) { RaiseOwed(c, Rate(s), s.store.doc.book, q, x); }
    if q.phase.context.InExit? { FellPaid(c, s, t, p, x); } else { KeptPaid(c, s, t, p, x); }
  }

  lemma ExitFailsPaid(c: Config, s: Sys, t: Sys, st: Step, x: Key)
    requires st.p < |s.procs| == |t.procs| && Enabled(c, s, st) && t == Next(c, s, st)
    requires (st.ExitFails? || st.StageExit?) && t.store.version == s.store.version
    requires ShapeOk(c, t, t.procs[st.p])
    ensures Paid(c, s, t, st.p, x)
  {
    KeptPaid(c, s, t, st.p, x);
  }

  lemma SavePaid(c: Config, s: Sys, t: Sys, p: nat, o: Outcome, x: Key)
    requires Enabled(c, s, Save(p, o)) && t == Saved(c, s, p, o) && !Lands(s, p, o)
    ensures Paid(c, s, t, p, x)
  {
    KeptPaid(c, s, t, p, x);
  }

  // Non-effective completion and staging

  /** A completion of the intent that had no effect is a fault, and the fault pays for the round it costs. */
  lemma LostPaid(c: Config, s: Sys, t: Sys, p: nat, o: Outcome, x: Key)
    requires Enabled(c, s, Complete(p, o)) && t == Completed(c, s, p, o) && !Lands(s, p, o)
    requires s.procs[p].phase.key == x && x in s.store.doc.pending
    requires ShapeOk(c, s, s.procs[p]) && ShapeOk(c, t, t.procs[p]) && s.procs[p].version <= s.store.version
    ensures Paid(c, s, t, p, x)
  {
    CreditFits(c, Rate(s), s.store.doc.book, t.procs[p], x);
    assert Extra(t, t.procs[p], x) == {};
  }

  lemma CompleteOwed(c: Config, r: nat, b: Book, q: Proc, x: Key)
    requires 1 <= r <= 2 && q.Up? && (q.phase.Apply? || q.phase.Settle?) && PhaseOk(c, q.phase) && q.phase.key != x
    requires r == 1 && q.phase.Settle? && q.phase.context.InExit? ==> c.symbols[q.phase.context.i] !in b.positions
    ensures Owed(c, r, b, Raised(q.doc, q.version, q.phase.context).phase, x) <= Owed(c, r, b, q.phase, x)
  {
  }

  /** After a completion the visit may still have its entry only where an exit found itself executed before. */
  lemma ResumeOwed(c: Config, r: nat, b: Book, q: Proc, doc: Doc, x: Key)
    requires 1 <= r <= 2 && q.Up? && (q.phase.Apply? || q.phase.Settle?) && PhaseOk(c, q.phase) && q.phase.key != x
    requires r == 1 && q.phase.Settle? && q.phase.context.InExit? ==> !Held(c, q.phase.context.i, doc)
    ensures Owed(c, r, b, Resumed(c, doc, q.phase.context), x) <= Owed(c, r, b, q.phase, x)
  {
  }

  /** Dropping one intent from memory hides no other. */
  lemma DropKnows(doc: Doc, k: Key, x: Key)
    requires x != k
    ensures Knows(doc.(pending := doc.pending - {k}), x) == Knows(doc, x)
  {
    var d := doc.(pending := doc.pending - {k});
    if Knows(doc, x) {
      var i :| 0 <= i < |doc.trades| && SameIntent(doc.trades[i], x, doc.pending[x]);
      assert SameIntent(d.trades[i], x, d.pending[x]);
    }
  }

  lemma CompletePaid(c: Config, s: Sys, t: Sys, p: nat, o: Outcome, x: Key)
    requires Enabled(c, s, Complete(p, o)) && t == Completed(c, s, p, o) && !Lands(s, p, o)
    requires s.procs[p].phase.key != x && s.procs[p].version <= s.store.version
    requires ShapeOk(c, s, s.procs[p]) && ShapeOk(c, t, t.procs[p])
    ensures Paid(c, s, t, p, x)
  {
    var q := s.procs[p];
    CompleteOwed(c, Rate(s), s.store.doc.book, q, x);
    DropKnows(q.doc, q.phase.key, x);
    if q.phase.context.InExit? { FellPaid(c, s, t, p, x); } else { PaidByCredit(c, s, t, p, x); }
  }

  /** Staging another decision neither hides nor reveals an executed intent. */
  lemma StageKnows(c: Config, s: Sys, q: Proc, i: Intent, x: Key)
    requires q.Up? && q.phase.Entry? && q.phase.ticket.Cleared? && ProcOk(c, s, q)
    ensures var d := Auth(q.phase.ticket.decision);
            && Knows(q.doc.(pending := q.doc.pending[d := i]), x) == Knows(q.doc, x)
            && (Knows(q.doc, x) ==> x != d)
  {
    var d := Auth(q.phase.ticket.decision);
    var doc := q.doc.(pending := q.doc.pending[d := i]);
    if Knows(q.doc, x) {
      var j :| 0 <= j < |q.doc.trades| && SameIntent(q.doc.trades[j], x, q.doc.pending[x]);
      assert SameIntent(doc.trades[j], x, doc.pending[x]);
    }
    if Knows(doc, x) {
      var j :| 0 <= j < |doc.trades| && SameIntent(doc.trades[j], x, doc.pending[x]);
      assert SameIntent(q.doc.trades[j], x, q.doc.pending[x]);
    }
  }

  /** Staging in memory only: the extra intent is paid by the symbol that was visited. */
  lemma StageAuthPaid(c: Config, s: Sys, t: Sys, p: nat, fill: Ready, o: Outcome, x: Key)
    requires Enabled(c, s, StageAuth(p, fill, o)) && t == StagedAuth(c, s, p, fill, o)
    requires t.store.version == s.store.version && Inv(c, s)
    ensures Paid(c, s, t, p, x)
  {
    var q, r := s.procs[p], t.procs[p];
    var d, sym := q.phase.ticket.decision, c.symbols[q.phase.i];
    assert ProcOk(c, s, q);
    if Blocks(q.doc, d, sym) {
      KeptPaid(c, s, t, p, x);
    } else {
      StageKnows(c, s, q, Intent(sym, fill), x);
      StagedDebt(c, s, t, q, r, Auth(d), x);
    }
  }

  lemma StagedCredit(c: Config, k: nat, b: Book, q: Proc, r: Proc, x: Key)
    requires q.Up? && r.Up? && q.phase.Entry? && r.phase.Idle? && Knows(r.doc, x) == Knows(q.doc, x)
    ensures Credit(c, k, b, r, x) + (if Knows(q.doc, x) then 1 else 0) <= Credit(c, k, b, q, x)
  {
  }

  lemma StagedDebt(c: Config, s: Sys, t: Sys, q: Proc, r: Proc, k: Key, x: Key)
    requires t.history == s.history && t.store.doc == s.store.doc && t.store.version == s.store.version
             && |t.procs| == |s.procs|
    requires q.Up? && r.Up? && q.phase.Entry? && r.phase.Idle? && r.version == q.version
    requires Knows(r.doc, x) == Knows(q.doc, x) && r.doc.pending.Keys == q.doc.pending.Keys + {k}
    ensures Debt(c, t, r, x) <= Debt(c, s, q, x)
  {
    StagedCredit(c, Rate(s), s.store.doc.book, q, r, x);
    StagedExtra(s, t, q, r, k, x);
  }

  lemma StagedExtra(s: Sys, t: Sys, q: Proc, r: Proc, k: Key, x: Key)
    requires t.history == s.history && t.store.doc == s.store.doc && t.store.version == s.store.version
    requires q.Up? && r.Up? && r.version == q.version
    requires Knows(r.doc, x) == Knows(q.doc, x) && r.doc.pending.Keys == q.doc.pending.Keys + {k}
    ensures |Extra(t, r, x)| <= |Extra(s, q, x)| + (if Knows(q.doc, x) then 1 else 0)
  {
    if Knows(q.doc, x) { AddOne(Extra(t, r, x), Extra(s, q, x), k); }
  }

  /** A step without a landed write is paid for every executed intent that is pending. */
  lemma LocalPaid(c: Config, s: Sys, t: Sys, st: Step, x: Key)
    requires st.p < |s.procs| == |t.procs| && Enabled(c, s, st) && t == Next(c, s, st)
    requires t.store.version == s.store.version && Knows(s.store.doc, x)
    requires ShapeOk(c, s, s.procs[st.p]) && ShapeOk(c, t, t.procs[st.p])
    requires Inv(c, s) && Traded(s.history, x)
    ensures Paid(c, s, t, st.p, x)
  {
    if Writes(st) {
      UnlandedPaid(c, s, t, st, x);
    } else if Moves(st) {
      MovePaid(c, s, t, st, x);
    } else {
      RestPaid(c, s, t, st, x);
    }
  }

  lemma RestPaid(c: Config, s: Sys, t: Sys, st: Step, x: Key)
    requires st.p < |s.procs| == |t.procs| && Enabled(c, s, st) && t == Next(c, s, st)
    requires t.store.version == s.store.version && Knows(s.store.doc, x) && !Writes(st) && !Moves(st)
    requires ShapeOk(c, s, s.procs[st.p]) && ShapeOk(c, t, t.procs[st.p])
    requires Inv(c, s) && Traded(s.history, x)
    ensures Paid(c, s, t, st.p, x)
  {
    match st
    case Boot(p) => BootPaid(c, s, t, p, x);
    case Reload(p) => ReloadPaid(c, s, t, p, x);
    case Rule(p, rec, o) => RulePaid(c, s, t, p, rec, o, x);
    case Consume(p, o) => ConsumePaid(c, s, t, p, o, x);
    case ExitFails(p) => ExitFailsPaid(c, s, t, st, x);
    case Refuse(p) => RaisePaid(c, s, t, st, x);
    case Abandon(p) => RaisePaid(c, s, t, st, x);
  }

  lemma UncompletedPaid(c: Config, s: Sys, t: Sys, p: nat, o: Outcome, x: Key)
    requires Enabled(c, s, Complete(p, o)) && t == Completed(c, s, p, o) && !Lands(s, p, o) && x in s.store.doc.pending
    requires ShapeOk(c, s, s.procs[p]) && ShapeOk(c, t, t.procs[p]) && Inv(c, s)
    ensures Paid(c, s, t, p, x)
  {
    assert ProcOk(c, s, s.procs[p]);
    if s.procs[p].phase.key == x { LostPaid(c, s, t, p, o, x); } else { CompletePaid(c, s, t, p, o, x); }
  }

  lemma UnstagedPaid(c: Config, s: Sys, t: Sys, st: Step, x: Key)
    requires st.p < |s.procs| == |t.procs| && Enabled(c, s, st) && t == Next(c, s, st)
    requires (st.StageAuth? || st.StageExit?) && t.store.version == s.store.version
    requires ShapeOk(c, s, s.procs[st.p]) && ShapeOk(c, t, t.procs[st.p]) && Inv(c, s)
    ensures Paid(c, s, t, st.p, x)
  {
    if st.StageAuth? { StageAuthPaid(c, s, t, st.p, st.fill, st.o, x); } else { ExitFailsPaid(c, s, t, st, x); }
  }

  lemma UnlandedPaid(c: Config, s: Sys, t: Sys, st: Step, x: Key)
    requires st.p < |s.procs| == |t.procs| && Enabled(c, s, st) && t == Next(c, s, st)
    requires Writes(st) && t.store.version == s.store.version && x in s.store.doc.pending
    requires ShapeOk(c, s, s.procs[st.p]) && ShapeOk(c, t, t.procs[st.p])
    requires Inv(c, s) && Traded(s.history, x)
    ensures Paid(c, s, t, st.p, x)
  {
    if st.StageAuth? || st.StageExit? {
      UnstagedPaid(c, s, t, st, x);
    } else if st.Execute? {
      RaisePaid(c, s, t, st, x);
    } else if st.Complete? {
      UncompletedPaid(c, s, t, st.p, st.o, x);
    } else {
      SavePaid(c, s, t, st.p, st.o, x);
    }
  }

  lemma LocalCovers(c: Config, s: Sys, t: Sys, p: nat, x: Key, a: seq<nat>, v: nat)
    requires Local(s, t, p) && Covers(c, s, x, a) && Debt(c, t, t.procs[p], x) <= v
    ensures Covers(c, t, x, a[p := v])
  {
  }

  lemma LocalBounded(c: Config, s: Sys, t: Sys, p: nat, funds: nat, cap: nat, x: Key)
    requires Local(s, t, p) && Paid(c, s, t, p, x) && Fee(c, s, t, x) <= funds && Bounded(c, s, x, funds, cap)
    ensures Bounded(c, t, x, funds - Fee(c, s, t, x), cap)
  {
    var a :| Affords(c, s, x, a, funds, cap);
    var v := a[p] + Fee(c, s, t, x);
    LocalCovers(c, s, t, p, x, a, v);
    SumUpdate(a, p, v);
    assert Affords(c, t, x, a[p := v], funds - Fee(c, s, t, x), cap);
  }

  /** At most one fault of one intent in a step, and it is paid from that intent's funds. */
  lemma FundsPay(c: Config, s: Sys, t: Sys, f: nat, x: Key)
    requires |t.procs| == |s.procs| && s.faults[x] <= t.faults[x] <= s.faults[x] + 1 && t.faults[x] <= f
    ensures Fee(c, s, t, x) <= Funds(c, s, f, x) && Funds(c, t, f, x) == Funds(c, s, f, x) - Fee(c, s, t, x)
  {
    if t.faults[x] > s.faults[x] {
      assert f - s.faults[x] - 1 == f - t.faults[x];
    }
  }

  // ---------------------------------------------------------------------------------------
  // Steps that write the document

  ghost predicate Landed(s: Sys, t: Sys, p: nat)
  {
    SameElsewhere(s, t, p) && t.store.version == s.store.version + 1
  }

  /** The writer's pending intents are the durable ones plus the ones only it held. */
  lemma WriterSplit(c: Config, s: Sys, p: nat, x: Key)
    requires Inv(c, s) && Synced(s, p) && Knows(s.procs[p].doc, x)
    ensures |Unexecuted(s.history, s.procs[p].doc.pending)|
            == |Unexecuted(s.history, s.store.doc.pending)| + |Extra(s, s.procs[p], x)|
  {
    var q := s.procs[p];
    assert ProcOk(c, s, q);
    var all, durable := Unexecuted(s.history, q.doc.pending), Unexecuted(s.history, s.store.doc.pending);
    assert all == durable + Extra(s, q, x);
    assert durable !! Extra(s, q, x);
  }

  /** A landed write that does not make an executed intent more expensive. */
  ghost predicate Cheap(c: Config, s: Sys, t: Sys, p: nat, x: Key)
    requires p < |s.procs| && p < |t.procs|
  {
    && x in s.store.doc.pending && Traded(s.history, x) && t.faults[x] == s.faults[x]
    && Lag(t.history, x) + |Unexecuted(t.history, t.store.doc.pending)| + Debt(c, t, t.procs[p], x)
       <= Lag(s.history, x) + |Unexecuted(s.history, s.store.doc.pending)| + Debt(c, s, s.procs[p], x)
  }

  /** Enough for a landed write to be cheap, said about the writer's own pending intents: `used` trades
      or newly staged intents are paid by what the writer owed. */
  lemma CheapWrite(c: Config, s: Sys, t: Sys, p: nat, used: nat, x: Key)
    requires Inv(c, s) && Synced(s, p) && |t.procs| == |s.procs| && Knows(s.procs[p].doc, x)
    requires x in s.store.doc.pending && Traded(s.history, x) && t.faults[x] == s.faults[x]
    requires var r := t.procs[p];
             r.Up? && Knows(r.doc, x) && (r.version != t.store.version || r.doc.pending == t.store.doc.pending)
    requires Lag(t.history, x) + |Unexecuted(t.history, t.store.doc.pending)|
             <= Lag(s.history, x) + |Unexecuted(s.history, s.procs[p].doc.pending)| + used
    requires Owed(c, Rate(s), t.store.doc.book, t.procs[p].phase, x) + used
             <= Owed(c, Rate(s), s.store.doc.book, s.procs[p].phase, x)
    ensures Cheap(c, s, t, p, x)
  {
    WriterSplit(c, s, p, x);
    KnownDebt(c, s, s.procs[p], x);
    KnownDebt(c, t, t.procs[p], x);
    assert |Extra(t, t.procs[p], x)| == 0 by { NoExtra(t, t.procs[p], x); }
  }

  lemma KnownDebt(c: Config, s: Sys, q: Proc, x: Key)
    requires q.Up? && Knows(q.doc, x)
    ensures Debt(c, s, q, x) == Owed(c, Rate(s), s.store.doc.book, q.phase, x) + |Extra(s, q, x)|
  {
  }

  /** Nothing is left unwritten by a process that is behind or whose intents are the durable ones. */
  lemma NoExtra(t: Sys, r: Proc, x: Key)
    requires r.Up? && (r.version != t.store.version || r.doc.pending == t.store.doc.pending)
    ensures Extra(t, r, x) == {}
  {
  }

  /** Beside other processes, what is owed does not depend on the book. */
  lemma BookFree(c: Config, r: nat, b: Book, b': Book, q: Proc, x: Key)
    requires r != 1
    ensures Credit(c, r, b, q, x) == Credit(c, r, b', q, x)
  {
  }

  /** Everybody else is behind after a landed write, and owes what it owed. */
  lemma OtherDebt(c: Config, s: Sys, t: Sys, q: Proc, x: Key)
    requires |s.procs| == |t.procs| != 1 && ProcOk(c, s, q) && t.store.version == s.store.version + 1
    ensures Debt(c, t, q, x) <= Debt(c, s, q, x)
  {
    BookFree(c, Rate(s), s.store.doc.book, t.store.doc.book, q, x);
    assert |Extra(t, q, x)| == 0;
  }

  lemma LandedCovers(c: Config, s: Sys, t: Sys, p: nat, x: Key, a: seq<nat>, v: nat)
    requires Inv(c, s) && Landed(s, t, p) && Covers(c, s, x, a) && Debt(c, t, t.procs[p], x) <= v
    ensures Covers(c, t, x, a[p := v])
  {
    forall i | 0 <= i < |a| && i != p ensures Debt(c, t, t.procs[i], x) <= a[i] { OtherDebt(c, s, t, s.procs[i], x); }
  }

  lemma LandedBounded(c: Config, s: Sys, t: Sys, p: nat, funds: nat, cap: nat, x: Key)
    requires Inv(c, s) && Landed(s, t, p)
    requires Cheap(c, s, t, p, x) && Bounded(c, s, x, funds, cap)
    ensures Bounded(c, t, x, funds, cap)
  {
    var a :| Affords(c, s, x, a, funds, cap);
    var v := a[p] + Debt(c, t, t.procs[p], x) - Debt(c, s, s.procs[p], x);
    LandedCovers(c, s, t, p, x, a, v);
    SumUpdate(a, p, v);
    assert Affords(c, t, x, a[p := v], funds, cap);
  }

  /** A just executed intent starts under the bound: its process is about to complete it, or has met its
      first fault, and every other process may be anywhere in its round. */
  lemma FreshBounded(c: Config, t: Sys, p: nat, v: nat, funds: nat, cap: nat, x: Key)
    requires Inv(c, t) && Lag(t.history, x) == 0 && p < |t.procs| && Debt(c, t, t.procs[p], x) <= v
    requires Base(c, |t.procs|) + v + funds <= cap
    requires forall i :: 0 <= i < |t.procs| && i != p ==>
               ShapeOk(c, t, t.procs[i]) && (t.procs[i].Up? ==> t.procs[i].version < t.store.version)
    ensures Bounded(c, t, x, funds, cap)
  {
    var n, u := |t.procs|, FullRound(c, Rate(t));
    var all: seq<nat> := seq(n, _ => u);
    var a := all[p := v];
    SumConstant(n, u);
    SumUpdate(all, p, v);
    UnexecutedFits(c, t, t.history, t.store.doc.pending);
    forall i | 0 <= i < |a| ensures Debt(c, t, t.procs[i], x) <= a[i] {
      if i != p {
        CreditFits(c, Rate(t), t.store.doc.book, t.procs[i], x);
        assert Extra(t, t.procs[i], x) == {};
      }
    }
    assert Affords(c, t, x, a, funds, cap);
  }

  /** The writer is current and knows this durable executed intent. */
  ghost predicate Known(s: Sys, p: nat, x: Key)
  {
    Synced(s, p) && Knows(s.procs[p].doc, x) && x in s.store.doc.pending && Traded(s.history, x)
  }

  // Each landed write

  lemma SaveOwed(c: Config, s: Sys, t: Sys, p: nat, o: Outcome, r: nat, x: Key)
    requires Enabled(c, s, Save(p, o)) && t == Saved(c, s, p, o) && s.procs[p].doc.book == s.store.doc.book
    ensures Owed(c, r, t.store.doc.book, t.procs[p].phase, x) <= Owed(c, r, s.store.doc.book, s.procs[p].phase, x)
  {
  }

  lemma SaveCheap(c: Config, s: Sys, t: Sys, p: nat, o: Outcome, x: Key)
    requires Enabled(c, s, Save(p, o)) && Lands(s, p, o) && t == Saved(c, s, p, o)
    requires Inv(c, s) && Known(s, p, x) && x in t.store.doc.pending
    ensures Cheap(c, s, t, p, x)
  {
    var q := s.procs[p];
    assert ProcOk(c, s, q);
    SaveOwed(c, s, t, p, o, Rate(s), x);
    CheapWrite(c, s, t, p, 0, x);
  }

  /** The writer after a landed completion of another intent. */
  lemma CompleteWriter(c: Config, s: Sys, t: Sys, p: nat, o: Outcome, x: Key)
    requires Enabled(c, s, Complete(p, o)) && Lands(s, p, o) && t == Completed(c, s, p, o)
    requires s.procs[p].phase.key != x && Knows(s.procs[p].doc, x) && ShapeOk(c, s, s.procs[p])
    ensures var q, r := s.procs[p], t.procs[p];
            && r.Up? && Knows(r.doc, x) && (r.version != t.store.version || r.doc.pending == t.store.doc.pending)
            && (r.phase == Resumed(c, t.store.doc, q.phase.context)
                || r.phase == Raised(q.doc, q.version, q.phase.context).phase)
            && t.store.doc.pending == q.doc.pending - {q.phase.key} && t.store.doc.book == q.doc.book
            && t.history == s.history && t.faults == s.faults
  {
    DropKnows(s.procs[p].doc, s.procs[p].phase.key, x);
  }

  lemma CompleteCheap(c: Config, s: Sys, t: Sys, p: nat, o: Outcome, x: Key)
    requires Enabled(c, s, Complete(p, o)) && Lands(s, p, o) && t == Completed(c, s, p, o)
    requires Inv(c, s) && Known(s, p, x) && x in t.store.doc.pending && ShapeOk(c, s, s.procs[p])
    ensures Cheap(c, s, t, p, x)
  {
    var q := s.procs[p];
    CompleteWriter(c, s, t, p, o, x);
    CompletePays(c, s, t, p, x);
  }

  lemma CompletePays(c: Config, s: Sys, t: Sys, p: nat, x: Key)
    requires Inv(c, s) && Known(s, p, x) && ShapeOk(c, s, s.procs[p]) && |t.procs| == |s.procs|
    requires var q, r := s.procs[p], t.procs[p];
             && (q.phase.Apply? || q.phase.Settle?) && q.phase.key != x
             && r.Up? && Knows(r.doc, x) && (r.version != t.store.version || r.doc.pending == t.store.doc.pending)
             && (r.phase == Resumed(c, t.store.doc, q.phase.context)
                 || r.phase == Raised(q.doc, q.version, q.phase.context).phase)
             && t.store.doc.pending == q.doc.pending - {q.phase.key} && t.store.doc.book == q.doc.book
             && t.history == s.history && t.faults == s.faults
    ensures Cheap(c, s, t, p, x)
  {
    var q := s.procs[p];
    assert ProcOk(c, s, q);
    CompleteOwed(c, Rate(s), s.store.doc.book, q, x);
    ResumeOwed(c, Rate(s), s.store.doc.book, q, t.store.doc, x);
    SubsetSize(Unexecuted(t.history, t.store.doc.pending), Unexecuted(s.history, q.doc.pending));
    CheapWrite(c, s, t, p, 0, x);
  }

  lemma StageAuthCheap(c: Config, s: Sys, t: Sys, p: nat, fill: Ready, o: Outcome, x: Key)
    requires Enabled(c, s, StageAuth(p, fill, o)) && Lands(s, p, o) && t == StagedAuth(c, s, p, fill, o)
    requires !Blocks(s.procs[p].doc, s.procs[p].phase.ticket.decision, c.symbols[s.procs[p].phase.i])
    requires Inv(c, s) && Known(s, p, x) && x in t.store.doc.pending
    ensures Cheap(c, s, t, p, x)
  {
    var q := s.procs[p];
    var d := Auth(q.phase.ticket.decision);
    assert ProcOk(c, s, q);
    assert x != d;
    StageKnows(c, s, q, Intent(c.symbols[q.phase.i], fill), x);
    AddOne(Unexecuted(t.history, t.store.doc.pending), Unexecuted(s.history, q.doc.pending), d);
    StageAuthOwed(c, s, t, p, fill, o, Rate(s), x);
    CheapWrite(c, s, t, p, 1, x);
  }

  lemma StageAuthOwed(c: Config, s: Sys, t: Sys, p: nat, fill: Ready, o: Outcome, r: nat, x: Key)
    requires Enabled(c, s, StageAuth(p, fill, o)) && t == StagedAuth(c, s, p, fill, o)
             && x != Auth(s.procs[p].phase.ticket.decision)
    ensures Owed(c, r, t.store.doc.book, t.procs[p].phase, x) + 1 <= Owed(c, r, s.store.doc.book, s.procs[p].phase, x)
  {
  }

  /** A protective intent names a position that is open now, so it has not been executed yet. */
  lemma ExitKeyFresh(c: Config, s: Sys, sym: Symbol, reason: string)
    requires LedgerOk(c, s) && AuditOk(s) && NoDuplicates(s.history) && sym in s.store.doc.book.positions
    ensures !Traded(s.history, Prot(sym, s.store.doc.book.positions[sym].decision, reason))
  {
    var h, d := s.history, s.store.doc.book.positions[sym].decision;
    var n := OpenPositionIsNewest(c.capital, h, sym);
    forall j | 0 <= j < |h| ensures h[j].key != Prot(sym, d, reason) {
      assert TradeOk(s.store, h, j);
    }
  }

  lemma StageExitCheap(c: Config, s: Sys, t: Sys, p: nat, reason: string, fill: Ready, o: Outcome, x: Key)
    requires Enabled(c, s, StageExit(p, reason, fill, o)) && Lands(s, p, o) && t == StagedExit(c, s, p, reason, fill, o)
    requires !OtherExit(s.procs[p].doc, ExitKey(c, s.procs[p].phase.i, s.procs[p].doc, reason))
    requires Inv(c, s) && Known(s, p, x) && x in t.store.doc.pending && NoDuplicates(s.history)
    ensures Cheap(c, s, t, p, x)
  {
    var q := s.procs[p];
    var k := ExitKey(c, q.phase.i, q.doc, reason);
    assert ProcOk(c, s, q);
    ExitKeyFresh(c, s, c.symbols[q.phase.i], reason);
    assert x != k;
    AddKnows(q.doc, k, Intent(c.symbols[q.phase.i], fill), x);
    assert Unexecuted(t.history, t.store.doc.pending) == Unexecuted(s.history, q.doc.pending);
    StageExitOwed(c, s, t, p, reason, fill, o, Rate(s), x);
    CheapWrite(c, s, t, p, 0, x);
  }

  lemma StageExitOwed(c: Config, s: Sys, t: Sys, p: nat, reason: string, fill: Ready, o: Outcome, r: nat, x: Key)
    requires Enabled(c, s, StageExit(p, reason, fill, o)) && t == StagedExit(c, s, p, reason, fill, o)
    requires x != ExitKey(c, s.procs[p].phase.i, s.procs[p].doc, reason)
    ensures Owed(c, r, t.store.doc.book, t.procs[p].phase, x) <= Owed(c, r, s.store.doc.book, s.procs[p].phase, x)
  {
  }

  lemma AddKnows(doc: Doc, k: Key, i: Intent, x: Key)
    requires x != k && Knows(doc, x)
    ensures Knows(doc.(pending := doc.pending[k := i]), x)
  {
    var d := doc.(pending := doc.pending[k := i]);
    var j :| 0 <= j < |doc.trades| && SameIntent(doc.trades[j], x, doc.pending[x]);
    assert SameIntent(d.trades[j], x, d.pending[x]);
  }

  /** What passes the bounded duplicate check has not been committed before. */
  lemma ExecuteIsFresh(c: Config, s: Sys, p: nat, o: Outcome, f: nat, cap: nat)
    requires Enabled(c, s, Execute(p, o)) && Lands(s, p, o)
    requires Inv(c, s) && WindowInv(c, s, f, cap) && cap < c.window
    ensures !Traded(s.history, s.procs[p].phase.key)
  {
    if Traded(s.history, s.procs[p].phase.key) { MirrorKnows(c, s, f, cap, p, s.procs[p].phase.key); }
  }

  lemma TradedAppend(h: seq<Trade>, t: Trade, l: Key)
    ensures Traded(h + [t], l) <==> Traded(h, l) || l == t.key
  {
    if Traded(h, l) {
      var i :| 0 <= i < |h| && h[i].key == l;
      assert (h + [t])[i].key == l;
    }
    assert (h + [t])[|h|] == t;
  }

  lemma NoDuplicatesAppend(h: seq<Trade>, t: Trade)
    requires NoDuplicates(h) && !Traded(h, t.key)
    ensures NoDuplicates(h + [t])
  {
  }

  /** An executed authorized intent is one fewer to execute; a protective one was never counted. */
  lemma ExecuteUses(h: seq<Trade>, doc: Doc, k: Key)
    requires k in doc.pending && !Traded(h, k)
    ensures |Unexecuted(h + [TradeOf(doc, k)], doc.pending)|
            == |Unexecuted(h, doc.pending)| - (if k.Auth? then 1 else 0)
    ensures k.Auth? ==> |Unexecuted(h, doc.pending)| >= 1
  {
    var t := TradeOf(doc, k);
    forall l ensures Traded(h + [t], l) <==> Traded(h, l) || l == k { TradedAppend(h, t, l); }
    assert Unexecuted(h + [t], doc.pending) == Unexecuted(h, doc.pending) - {k};
    if k.Auth? { assert k in Unexecuted(h, doc.pending); }
  }

  /** What executing another intent leaves owed: a protective execution uses up a trade of the visit, or
      the leftover of the recovery. */
  lemma ExecuteOwed(c: Config, r: nat, b: Book, b': Book, q: Proc, x: Key)
    requires 1 <= r <= 2 && q.Up? && q.phase.Apply? && PhaseOk(c, q.phase) && q.phase.key != x
    requires q.phase.key.Prot? ==> x.Auth? || q.phase.context.InExit?
    requires r == 1 && q.phase.context.InExit? ==> c.symbols[q.phase.context.i] !in b'.positions
    ensures var used := if q.phase.key.Prot? then 1 else 0;
            && Owed(c, r, b', Settle(q.phase.key, q.phase.context), x) + used <= Owed(c, r, b, q.phase, x)
            && Owed(c, r, b', Failed(q.phase.context), x) + used <= Owed(c, r, b, q.phase, x)
  {
  }

  /** The trade about to be added is part of the room the older one still has. */
  lemma ExecuteRoom(c: Config, s: Sys, p: nat, funds: nat, cap: nat, x: Key)
    requires Inv(c, s) && Known(s, p, x) && Bounded(c, s, x, funds, cap)
    requires |Unexecuted(s.history, s.procs[p].doc.pending)|
             + Owed(c, Rate(s), s.store.doc.book, s.procs[p].phase, x) >= 1
    ensures Lag(s.history, x) + 1 <= cap
  {
    var a :| Affords(c, s, x, a, funds, cap);
    SumAtLeast(a, p);
    WriterSplit(c, s, p, x);
  }

  /** The pushed-back trade is still inside the window, so the writer still recognises it. */
  lemma ExecuteStillSeen(c: Config, s: Sys, t: Sys, p: nat, o: Outcome, x: Key)
    requires Enabled(c, s, Execute(p, o)) && t == Executed(c, s, p, o) && Acked(s, p, o)
    requires Inv(c, s) && x in s.procs[p].doc.pending && Traded(s.history, x) && x != s.procs[p].phase.key
    requires Lag(s.history, x) + 1 < c.window
    ensures Knows(t.procs[p].doc, x)
  {
    var trade := TradeOf(s.procs[p].doc, s.procs[p].phase.key);
    ExecuteInv(c, s, p, o);
    assert ProcOk(c, t, t.procs[p]);
    LagAppend(s.history, trade, x);
    TradedAppend(s.history, trade, x);
    SeenWhenRecent(c, t, t.procs[p].doc, x);
  }

  /** Two protective intents in one memory are one. */
  lemma OneProtective(c: Config, s: Sys, doc: Doc, k: Key, x: Key)
    requires PendingOk(c, s, doc.pending) && k in doc.pending && x in doc.pending && k.Prot? && x != k
    ensures x.Auth?
  {
  }

  /** Closing removes the position of the visited symbol. */
  lemma ExitCloses(c: Config, s: Sys, p: nat, o: Outcome)
    requires Enabled(c, s, Execute(p, o)) && Lands(s, p, o) && s.procs[p].phase.context.InExit?
    requires ProcOk(c, s, s.procs[p]) && PhaseOk(c, s.procs[p].phase)
    ensures c.symbols[s.procs[p].phase.context.i] !in Executed(c, s, p, o).store.doc.book.positions
  {
    var q := s.procs[p];
    assert IntentOk(c, s, q.phase.key, q.doc.pending[q.phase.key]);
  }

  /** The writer knows the other intent after its execution too. */
  lemma ExecuteKnows(c: Config, s: Sys, t: Sys, p: nat, o: Outcome, f: nat, cap: nat, x: Key)
    requires Enabled(c, s, Execute(p, o)) && t == Executed(c, s, p, o) && Lands(s, p, o)
    requires Inv(c, s) && WindowInv(c, s, f, cap) && cap < c.window
    requires x in s.store.doc.pending && Traded(s.history, x) && x != s.procs[p].phase.key && Knows(s.procs[p].doc, x)
    requires Lag(s.history, x) + 1 <= cap
    ensures Knows(t.procs[p].doc, x)
  {
    if Acked(s, p, o) { ExecuteStillSeen(c, s, t, p, o, x); } else { assert ShapeOk(c, s, s.procs[p]); }
  }

  /** What an execution beside x can be: a protective one leaves x authorized, and an exit closes its symbol. */
  lemma ExecuteKinds(c: Config, s: Sys, p: nat, o: Outcome, x: Key)
    requires Enabled(c, s, Execute(p, o)) && Lands(s, p, o) && x != s.procs[p].phase.key
    requires Inv(c, s) && ShapeOk(c, s, s.procs[p]) && Known(s, p, x)
    ensures s.procs[p].phase.key.Prot? ==> x.Auth?
    ensures s.procs[p].phase.context.InExit? ==>
              c.symbols[s.procs[p].phase.context.i] !in Executed(c, s, p, o).store.doc.book.positions
  {
    var q := s.procs[p];
    assert ProcOk(c, s, q);
    if q.phase.key.Prot? { OneProtective(c, s, q.doc, q.phase.key, x); }
    if q.phase.context.InExit? { ExitCloses(c, s, p, o); }
  }

  /** What the step leaves owed. */
  lemma ExecuteOwes(c: Config, s: Sys, t: Sys, p: nat, o: Outcome, x: Key)
    requires Enabled(c, s, Execute(p, o)) && t == Executed(c, s, p, o) && Lands(s, p, o) && x != s.procs[p].phase.key
    requires PhaseOk(c, s.procs[p].phase) && (s.procs[p].phase.key.Prot? ==> x.Auth?)
    requires s.procs[p].phase.context.InExit? ==> c.symbols[s.procs[p].phase.context.i] !in t.store.doc.book.positions
    ensures var q, used := s.procs[p], if s.procs[p].phase.key.Prot? then 1 else 0;
            Owed(c, Rate(s), t.store.doc.book, t.procs[p].phase, x) + used
              <= Owed(c, Rate(s), s.store.doc.book, q.phase, x)
  {
    ExecutePhase(c, s, t, p, o);
    ExecuteOwed(c, Rate(s), s.store.doc.book, t.store.doc.book, s.procs[p], x);
  }

  /** Something is owed, or still to be executed, for the trade that is about to be added. */
  lemma ExecuteOwing(c: Config, s: Sys, t: Sys, p: nat, o: Outcome, x: Key)
    requires Enabled(c, s, Execute(p, o)) && t == Executed(c, s, p, o) && Lands(s, p, o) && x != s.procs[p].phase.key
    requires PhaseOk(c, s.procs[p].phase) && (s.procs[p].phase.key.Prot? ==> x.Auth?)
    requires s.procs[p].phase.context.InExit? ==> c.symbols[s.procs[p].phase.context.i] !in t.store.doc.book.positions
    requires !Traded(s.history, s.procs[p].phase.key)
    ensures |Unexecuted(s.history, s.procs[p].doc.pending)|
            + Owed(c, Rate(s), s.store.doc.book, s.procs[p].phase, x) >= 1
  {
    if s.procs[p].phase.key.Prot? {
      ExecuteOwes(c, s, t, p, o, x);
    } else {
      ExecuteUses(s.history, s.procs[p].doc, s.procs[p].phase.key);
    }
  }

  /** The trade and the intents still to be executed, from the writer's side. */
  lemma ExecuteMoves(c: Config, s: Sys, t: Sys, p: nat, o: Outcome, x: Key)
    requires Enabled(c, s, Execute(p, o)) && t == Executed(c, s, p, o) && Lands(s, p, o) && x != s.procs[p].phase.key
    requires !Traded(s.history, s.procs[p].phase.key)
    ensures Lag(t.history, x) + |Unexecuted(t.history, t.store.doc.pending)|
            <= Lag(s.history, x) + |Unexecuted(s.history, s.procs[p].doc.pending)|
               + (if s.procs[p].phase.key.Prot? then 1 else 0)
  {
    var q := s.procs[p];
    ExecutePhase(c, s, t, p, o);
    ExecuteUses(s.history, q.doc, q.phase.key);
    LagAppend(s.history, TradeOf(q.doc, q.phase.key), x);
  }

  /** Executing one intent moves another executed one a trade further back, and uses up the room it had. */
  lemma ExecuteCheap(c: Config, s: Sys, t: Sys, p: nat, o: Outcome, f: nat, cap: nat, x: Key)
    requires Enabled(c, s, Execute(p, o)) && t == Executed(c, s, p, o) && Lands(s, p, o)
    requires Inv(c, s) && WindowInv(c, s, f, cap) && cap < c.window
    requires Known(s, p, x) && x != s.procs[p].phase.key
    ensures Cheap(c, s, t, p, x)
  {
    ExecuteIsFresh(c, s, p, o, f, cap);
    BoundedNow(c, s, f, cap, x);
    assert ShapeOk(c, s, s.procs[p]);
    ExecuteKinds(c, s, p, o, x);
    ExecuteOwing(c, s, t, p, o, x);
    ExecuteRoom(c, s, p, Funds(c, s, f, x), cap, x);
    ExecuteKnows(c, s, t, p, o, f, cap, x);
    ExecuteCheaper(c, s, t, p, o, x);
  }

  lemma ExecuteCheaper(c: Config, s: Sys, t: Sys, p: nat, o: Outcome, x: Key)
    requires Enabled(c, s, Execute(p, o)) && t == Executed(c, s, p, o) && Lands(s, p, o)
    requires Inv(c, s) && CopyOk(s.procs[p]) && PhaseOk(c, s.procs[p].phase) && Known(s, p, x)
    requires x != s.procs[p].phase.key && !Traded(s.history, s.procs[p].phase.key) && Knows(t.procs[p].doc, x)
    requires s.procs[p].phase.key.Prot? ==> x.Auth?
    requires s.procs[p].phase.context.InExit? ==> c.symbols[s.procs[p].phase.context.i] !in t.store.doc.book.positions
    ensures Cheap(c, s, t, p, x)
  {
    ExecuteOwes(c, s, t, p, o, x);
    ExecuteMoves(c, s, t, p, o, x);
    ExecuteWriter(c, s, t, p, o, x);
    CheapWrite(c, s, t, p, if s.procs[p].phase.key.Prot? then 1 else 0, x);
  }

  lemma ExecuteWriter(c: Config, s: Sys, t: Sys, p: nat, o: Outcome, x: Key)
    requires Enabled(c, s, Execute(p, o)) && t == Executed(c, s, p, o) && Lands(s, p, o)
    requires CopyOk(s.procs[p]) && x != s.procs[p].phase.key
    ensures t.faults[x] == s.faults[x]
    ensures |t.procs| == |s.procs| && t.procs[p].Up?
    ensures t.procs[p].version != t.store.version || t.procs[p].doc.pending == t.store.doc.pending
  {
  }

  lemma ExecutePhase(c: Config, s: Sys, t: Sys, p: nat, o: Outcome)
    requires Enabled(c, s, Execute(p, o)) && t == Executed(c, s, p, o) && Lands(s, p, o)
    ensures var q, r := s.procs[p], t.procs[p];
            && r.Up? && t.store.doc.pending == q.doc.pending && t.history == s.history + [TradeOf(q.doc, q.phase.key)]
            && r.phase == (if Acked(s, p, o) then Settle(q.phase.key, q.phase.context) else Failed(q.phase.context))
            && (Acked(s, p, o) ==> r.doc == t.store.doc && r.version == t.store.version)
            && (forall x :: x != q.phase.key ==> t.faults[x] == s.faults[x])
            && t.faults[q.phase.key] == s.faults[q.phase.key] + (if Acked(s, p, o) then 0 else 1)
  {
  }

  /** The intent that was just executed starts with all its funds, less the fault of an ambiguous write. */
  lemma ExecuteFresh(c: Config, s: Sys, t: Sys, p: nat, o: Outcome, f: nat, cap: nat)
    requires Enabled(c, s, Execute(p, o)) && t == Executed(c, s, p, o) && Lands(s, p, o)
    requires Inv(c, s) && WindowInv(c, s, f, cap) && cap < c.window && t.faults[s.procs[p].phase.key] <= f
    requires SameElsewhere(s, t, p) && forall i :: 0 <= i < |t.procs| ==> ShapeOk(c, t, t.procs[i])
    ensures Bounded(c, t, s.procs[p].phase.key, Funds(c, t, f, s.procs[p].phase.key), cap)
  {
    var q, k := s.procs[p], s.procs[p].phase.key;
    assert s.faults[k] == 0 by { ExecuteIsFresh(c, s, p, o, f, cap); }
    var v := ExecutorDebt(c, s, t, p, o, f);
    OthersBehind(c, s, t, p);
    LagAppend(s.history, TradeOf(q.doc, k), k);
    ExecuteInv(c, s, p, o);
    FreshBounded(c, t, p, v, Funds(c, t, f, k), cap, k);
  }

  lemma OthersBehind(c: Config, s: Sys, t: Sys, p: nat)
    requires Inv(c, s) && SameElsewhere(s, t, p) && t.store.version > s.store.version
    ensures forall i :: 0 <= i < |t.procs| && i != p && t.procs[i].Up? ==> t.procs[i].version < t.store.version
  {
    forall i | 0 <= i < |t.procs| && i != p && t.procs[i].Up? ensures t.procs[i].version < t.store.version {
      assert ProcOk(c, s, s.procs[i]);
    }
  }

  /** What the executing process owes and what is left of the funds are the full funds together. */
  lemma ExecutorDebt(c: Config, s: Sys, t: Sys, p: nat, o: Outcome, f: nat) returns (v: nat)
    requires Enabled(c, s, Execute(p, o)) && t == Executed(c, s, p, o) && Lands(s, p, o) && c.window > 0
    requires s.faults[s.procs[p].phase.key] == 0 && t.faults[s.procs[p].phase.key] <= f
    requires ShapeOk(c, s, s.procs[p]) && ShapeOk(c, t, t.procs[p])
    ensures Debt(c, t, t.procs[p], s.procs[p].phase.key) <= v
    ensures v + Funds(c, t, f, s.procs[p].phase.key) <= Repeated(f, FullRound(c, Rate(t)))
  {
    var k, u := s.procs[p].phase.key, FullRound(c, Rate(t));
    ExecutePhase(c, s, t, p, o);
    if Acked(s, p, o) {
      SettledDebt(c, s, t, p, o);
      v := 0;
    } else {
      CreditFits(c, Rate(t), t.store.doc.book, t.procs[p], k);
      assert Extra(t, t.procs[p], k) == {};
      assert Repeated(f, u) == Repeated(f - 1, u) + u;
      v := u;
    }
  }

  /** A process that has just executed an intent owes nothing for it: it completes it next. */
  lemma SettledDebt(c: Config, s: Sys, t: Sys, p: nat, o: Outcome)
    requires Enabled(c, s, Execute(p, o)) && t == Executed(c, s, p, o) && Acked(s, p, o) && c.window > 0
    ensures Debt(c, t, t.procs[p], s.procs[p].phase.key) == 0
  {
    var k, doc := s.procs[p].phase.key, t.procs[p].doc;
    var n := |doc.trades| - 1;
    assert doc.trades[n] == TradeOf(s.procs[p].doc, k);
    assert SameIntent(doc.trades[n], k, doc.pending[k]);
    assert Extra(t, t.procs[p], k) == {};
  }

  // ---------------------------------------------------------------------------------------
  // Every step

  /** What a landed write keeps pending, its writer held and knew. */
  lemma WriterKnew(c: Config, s: Sys, t: Sys, st: Step, f: nat, cap: nat, x: Key)
    requires st.p < |s.procs| == |t.procs| && Enabled(c, s, st) && t == Next(c, s, st) && Writes(st)
             && Lands(s, st.p, st.o)
    requires t.store.version == s.store.version + 1
    requires Inv(c, s) && WindowInv(c, s, f, cap) && cap < c.window
    requires x in t.store.doc.pending && Traded(t.history, x) && !(st.Execute? && x == s.procs[st.p].phase.key)
    ensures Known(s, st.p, x)
  {
    var q := s.procs[st.p];
    assert ProcOk(c, s, q);
    if st.Execute? {
      TradedAppend(s.history, TradeOf(q.doc, q.phase.key), x);
    } else if st.StageExit? {
      ExitKeyFresh(c, s, c.symbols[q.phase.i], st.reason);
    }
    MirrorKnows(c, s, f, cap, st.p, x);
  }

  lemma StagedCheap(c: Config, s: Sys, t: Sys, st: Step, x: Key)
    requires st.p < |s.procs| == |t.procs| && Enabled(c, s, st) && t == Next(c, s, st)
    requires (st.StageAuth? || st.StageExit?) && Lands(s, st.p, st.o)
    requires t.store.version == s.store.version + 1 && ShapeOk(c, s, s.procs[st.p])
    requires Inv(c, s) && NoDuplicates(s.history) && Known(s, st.p, x) && x in t.store.doc.pending
    ensures Cheap(c, s, t, st.p, x)
  {
    if st.StageAuth? {
      StageAuthCheap(c, s, t, st.p, st.fill, st.o, x);
    } else {
      StageExitCheap(c, s, t, st.p, st.reason, st.fill, st.o, x);
    }
  }

  lemma LandedCheap(c: Config, s: Sys, t: Sys, st: Step, x: Key)
    requires st.p < |s.procs| == |t.procs| && Enabled(c, s, st) && t == Next(c, s, st) && Writes(st)
             && Lands(s, st.p, st.o)
    requires t.store.version == s.store.version + 1 && !st.Execute? && ShapeOk(c, s, s.procs[st.p])
    requires Inv(c, s) && NoDuplicates(s.history) && Known(s, st.p, x) && x in t.store.doc.pending
    ensures Cheap(c, s, t, st.p, x)
  {
    if st.Save? {
      SaveCheap(c, s, t, st.p, st.o, x);
    } else if st.Complete? {
      CompleteCheap(c, s, t, st.p, st.o, x);
    } else {
      StagedCheap(c, s, t, st, x);
    }
  }

  /** Shape of a step: who moves, what may change. */
  lemma StepFrame(c: Config, s: Sys, t: Sys, st: Step)
    requires Enabled(c, s, st) && t == Next(c, s, st)
    ensures st.p < |s.procs| == |t.procs| && SameElsewhere(s, t, st.p)
    ensures Local(s, t, st.p) || (Landed(s, t, st.p) && Writes(st) && Lands(s, st.p, st.o))
  {
  }

  /** A step adds at most one fault, of one intent. */
  lemma StepFaults(c: Config, s: Sys, t: Sys, st: Step)
    requires Enabled(c, s, st) && t == Next(c, s, st)
    ensures forall x :: s.faults[x] <= t.faults[x] <= s.faults[x] + 1
  {
  }

  lemma LandedOne(c: Config, s: Sys, t: Sys, st: Step, f: nat, cap: nat, x: Key)
    requires st.p < |s.procs| == |t.procs| && Enabled(c, s, st) && t == Next(c, s, st) && Writes(st)
             && Lands(s, st.p, st.o)
    requires t.store.version == s.store.version + 1 && !(st.Execute? && x == s.procs[st.p].phase.key)
    requires x in t.store.doc.pending && Traded(t.history, x)
    requires Inv(c, s) && WindowInv(c, s, f, cap) && cap < c.window
    ensures Cheap(c, s, t, st.p, x)
  {
    WriterKnew(c, s, t, st, f, cap, x);
    assert ShapeOk(c, s, s.procs[st.p]);
    if st.Execute? { ExecuteCheap(c, s, t, st.p, st.o, f, cap, x); } else { LandedCheap(c, s, t, st, x); }
  }

  lemma FundsKept(c: Config, s: Sys, t: Sys, f: nat, x: Key)
    requires |t.procs| == |s.procs| && t.faults[x] == s.faults[x]
    ensures Funds(c, t, f, x) == Funds(c, s, f, x)
  {
  }

  /** The bound of an intent carries over a landed write that is cheap for it. */
  lemma LandedCarry(c: Config, s: Sys, t: Sys, p: nat, f: nat, cap: nat, x: Key)
    requires Landed(s, t, p) && Cheap(c, s, t, p, x)
    requires Inv(c, s) && Bounded(c, s, x, Funds(c, s, f, x), cap)
    ensures Bounded(c, t, x, Funds(c, t, f, x), cap)
  {
    FundsKept(c, s, t, f, x);
    LandedBounded(c, s, t, p, Funds(c, s, f, x), cap, x);
  }

  lemma LocalOne(c: Config, s: Sys, t: Sys, st: Step, f: nat, cap: nat, x: Key)
    requires st.p < |s.procs| == |t.procs| && Enabled(c, s, st) && t == Next(c, s, st)
             && t.store.version == s.store.version
    requires x in s.store.doc.pending && Traded(s.history, x) && ShapeOk(c, t, t.procs[st.p])
    requires Inv(c, s) && WindowInv(c, s, f, cap) && cap < c.window
    ensures Paid(c, s, t, st.p, x)
  {
    WindowIsExact(c, s, f, cap, x);
    assert ShapeOk(c, s, s.procs[st.p]);
    LocalPaid(c, s, t, st, x);
  }

  /** The bound of an intent carries over a step without a landed write that is paid for. */
  lemma LocalCarry(c: Config, s: Sys, t: Sys, p: nat, f: nat, cap: nat, x: Key)
    requires Local(s, t, p) && Paid(c, s, t, p, x) && s.faults[x] <= t.faults[x] <= s.faults[x] + 1 && t.faults[x] <= f
    requires Bounded(c, s, x, Funds(c, s, f, x), cap)
    ensures Bounded(c, t, x, Funds(c, t, f, x), cap)
  {
    FundsPay(c, s, t, f, x);
    LocalBounded(c, s, t, p, Funds(c, s, f, x), cap, x);
  }

  lemma TradedStays(s: Sys, t: Sys, x: Key)
    requires Grows(s, t) && Traded(s.history, x)
    ensures Traded(t.history, x)
  {
    var i :| 0 <= i < |s.history| && s.history[i].key == x;
    assert t.history[i].key == x;
  }

  /** Faults are only ever counted for executed intents. */
  lemma FaultsTraded(c: Config, s: Sys, t: Sys, st: Step, x: Key)
    requires Enabled(c, s, st) && t == Next(c, s, st) && x in t.faults && x !in s.faults
    requires Inv(c, s)
    ensures Traded(t.history, x)
  {
    FaultOf(c, s, t, st, x);
    if st.Complete? { SeenCommitted(c, s, s.procs[st.p], x); }
  }

  /** A fault is an execution that took effect, or the completion of an intent that memory saw executed. */
  lemma FaultOf(c: Config, s: Sys, t: Sys, st: Step, x: Key)
    requires Enabled(c, s, st) && t == Next(c, s, st) && x in t.faults && x !in s.faults
    ensures (st.Execute? && |t.history| > 0 && t.history[|t.history| - 1].key == x)
            || (st.Complete? && t.history == s.history && Knows(s.procs[st.p].doc, x))
  {
  }

  lemma SeenCommitted(c: Config, s: Sys, q: Proc, x: Key)
    requires q.Up? && ProcOk(c, s, q) && Knows(q.doc, x)
    ensures Traded(s.history, x)
  {
    var i :| 0 <= i < |q.doc.trades| && SameIntent(q.doc.trades[i], x, q.doc.pending[x]);
    assert Traded(s.history, q.doc.trades[i].key);
  }

  /** Only an execution that lands adds to the history. */
  lemma HistoryIs(c: Config, s: Sys, t: Sys, st: Step)
    requires Enabled(c, s, st) && t == Next(c, s, st)
    ensures st.Execute? && Lands(s, st.p, st.o) ==>
              var q := s.procs[st.p];
              q.Up? && q.phase.Apply? && q.phase.key in q.doc.pending
                  && t.history == s.history + [TradeOf(q.doc, q.phase.key)]
    ensures !(st.Execute? && Lands(s, st.p, st.o)) ==> t.history == s.history
  {
  }

  lemma HistoryDistinct(c: Config, s: Sys, t: Sys, st: Step, f: nat, cap: nat)
    requires Enabled(c, s, st) && t == Next(c, s, st)
    requires Inv(c, s) && WindowInv(c, s, f, cap) && cap < c.window
    ensures NoDuplicates(t.history)
  {
    HistoryIs(c, s, t, st);
    if st.Execute? && Lands(s, st.p, st.o) {
      ExecuteIsFresh(c, s, st.p, st.o, f, cap);
      NoDuplicatesAppend(s.history, TradeOf(s.procs[st.p].doc, s.procs[st.p].phase.key));
    }
  }

  /** The bound of every executed pending intent after a step without a landed write ... */
  lemma LocalStepBounded(c: Config, s: Sys, t: Sys, st: Step, f: nat, cap: nat, x: Key)
    requires st.p < |s.procs| == |t.procs| && Enabled(c, s, st) && t == Next(c, s, st) && Local(s, t, st.p)
    requires s.faults[x] <= t.faults[x] <= s.faults[x] + 1 && t.faults[x] <= f && ShapeOk(c, t, t.procs[st.p])
    requires x in t.store.doc.pending && Traded(t.history, x)
    requires Inv(c, s) && WindowInv(c, s, f, cap) && cap < c.window
    ensures Bounded(c, t, x, Funds(c, t, f, x), cap)
  {
    LocalOne(c, s, t, st, f, cap, x);
    BoundedNow(c, s, f, cap, x);
    LocalCarry(c, s, t, st.p, f, cap, x);
  }

  /** ... and after one with. */
  lemma LandedStepBounded(c: Config, s: Sys, t: Sys, st: Step, f: nat, cap: nat, x: Key)
    requires st.p < |s.procs| == |t.procs| && Enabled(c, s, st) && t == Next(c, s, st)
    requires Landed(s, t, st.p) && Writes(st) && Lands(s, st.p, st.o) && !(st.Execute? && x == s.procs[st.p].phase.key)
    requires x in t.store.doc.pending && Traded(t.history, x)
    requires Inv(c, s) && WindowInv(c, s, f, cap) && cap < c.window
    ensures Bounded(c, t, x, Funds(c, t, f, x), cap)
  {
    LandedOne(c, s, t, st, f, cap, x);
    BoundedNow(c, s, f, cap, x);
    LandedCarry(c, s, t, st.p, f, cap, x);
  }

  lemma BoundedNow(c: Config, s: Sys, f: nat, cap: nat, x: Key)
    requires WindowInv(c, s, f, cap) && x in s.store.doc.pending && Traded(s.history, x)
    ensures Bounded(c, s, x, Funds(c, s, f, x), cap)
  {
  }

  lemma StepAllBounded(c: Config, s: Sys, t: Sys, st: Step, f: nat, cap: nat)
    requires Enabled(c, s, st) && t == Next(c, s, st) && forall x :: t.faults[x] <= f
    requires Inv(c, s) && WindowInv(c, s, f, cap) && cap < c.window
    requires forall i :: 0 <= i < |t.procs| ==> ShapeOk(c, t, t.procs[i])
    ensures AllBounded(c, t, f, cap)
  {
    StepFrame(c, s, t, st);
    StepFaults(c, s, t, st);
    forall x | x in t.store.doc.pending && Traded(t.history, x) ensures Bounded(c, t, x, Funds(c, t, f, x), cap) {
      if Local(s, t, st.p) {
        LocalStepBounded(c, s, t, st, f, cap, x);
      } else if st.Execute? && x == s.procs[st.p].phase.key {
        ExecuteFresh(c, s, t, st.p, st.o, f, cap);
      } else {
        LandedStepBounded(c, s, t, st, f, cap, x);
      }
    }
  }

  /** Every step of every process keeps the window invariant, a fault being paid from the funds of its own
      intent. */
  lemma StepWindow(c: Config, s: Sys, t: Sys, st: Step, f: nat, cap: nat)
    requires Enabled(c, s, st) && t == Next(c, s, st) && forall x :: t.faults[x] <= f
    requires Inv(c, s) && WindowInv(c, s, f, cap) && cap < c.window
    ensures WindowInv(c, t, f, cap)
  {
    StepFrame(c, s, t, st);
    StepFaults(c, s, t, st);
    ShapesKept(c, s, t, st);
    HistoryDistinct(c, s, t, st, f, cap);
    StepGrows(c, s, st);
    forall x | x in t.faults ensures Traded(t.history, x) {
      if x in s.faults { TradedStays(s, t, x); } else { FaultsTraded(c, s, t, st, x); }
    }
    StepAllBounded(c, s, t, st, f, cap);
  }

  // ---------------------------------------------------------------------------------------
  // Whole runs

  lemma InitWindow(c: Config, n: nat, f: nat)
    ensures WindowInv(c, Init(c, n), f, Bound(c, n, f))
  {
  }

  lemma {:induction false} RunFaults(c: Config, s: Sys, run: seq<Step>)
    requires Valid(c, s, run)
    ensures forall x :: s.faults[x] <= After(c, s, run).faults[x]
    decreases |run|
  {
    if run != [] {
      StepFaults(c, s, Next(c, s, run[0]), run[0]);
      RunFaults(c, Next(c, s, run[0]), run[1..]);
    }
  }

  lemma {:induction false} RunWindow(c: Config, s: Sys, run: seq<Step>, f: nat, cap: nat)
    requires Valid(c, s, run) && forall x :: After(c, s, run).faults[x] <= f
    requires Inv(c, s) && WindowInv(c, s, f, cap) && cap < c.window
    ensures Inv(c, After(c, s, run)) && WindowInv(c, After(c, s, run), f, cap)
    decreases |run|
  {
    if run != [] {
      var t := Next(c, s, run[0]);
      RunFaults(c, t, run[1..]);
      StepInv(c, s, run[0]);
      StepWindow(c, s, t, run[0], f, cap);
      RunWindow(c, t, run[1..], f, cap);
    }
  }

  /** The lag bound of an intent: for `n` processes, when it meets at most `f` faults. */
  function Bound(c: Config, n: nat, f: nat): nat
  {
    Base(c, n) + Repeated(f, FullRound(c, if n == 1 then 1 else 2))
  }

  /** Single execution over every run, whatever crashes, fails or is ambiguous: as long as no single intent
      meets more than `f` faults and the bound stays below the window, no two committed trades carry the
      same intent, and for every durable pending intent the bounded duplicate check answers exactly as the
      whole history would. The faults of the run as a whole are not limited. */
  lemma SingleExecution(c: Config, n: nat, run: seq<Step>, f: nat)
    requires Valid(c, Init(c, n), run) && (forall x :: After(c, Init(c, n), run).faults[x] <= f)
    requires Bound(c, n, f) < c.window
    ensures var t := After(c, Init(c, n), run);
            && NoDuplicates(t.history)
            && forall x :: x in t.store.doc.pending ==> (Seen(t.store.doc, x) <==> Traded(t.history, x))
  {
    var t, cap := After(c, Init(c, n), run), Bound(c, n, f);
    InitInv(c, n);
    InitWindow(c, n, f);
    RunWindow(c, Init(c, n), run, f, cap);
    forall x | x in t.store.doc.pending ensures Seen(t.store.doc, x) <==> Traded(t.history, x) {
      WindowIsExact(c, t, f, cap, x);
    }
  }

  lemma {:induction false} TimesIs(k: nat, u: nat)
    ensures Repeated(k, u) == k * u
  {
    if k > 0 {
      TimesIs(k - 1, u);
      assert k * u == (k - 1) * u + u;
    }
  }

  /** The bound in closed form: one process on m symbols needs m + f (m + 1), two need 3 m + 1 + f (2 m + 1). */
  lemma BoundIs(c: Config, f: nat)
    ensures var m := |c.symbols|;
            Bound(c, 1, f) == m + f * (m + 1) && Bound(c, 2, f) == 3 * m + 1 + f * (2 * m + 1)
  {
    TimesIs(f, FullRound(c, 1));
    TimesIs(f, FullRound(c, 2));
    assert Repeated(1, FullRound(c, 2)) == Repeated(0, FullRound(c, 2)) + FullRound(c, 2);
  }

  /** The program's own list: one process with fewer symbols than the list has trades never executes an
      intent twice while no intent's completion is lost and no execution write is ambiguous, whatever else
      fails; and smaller accounts survive that many faults of every intent. */
  lemma WindowSuffices(c: Config, n: nat, run: seq<Step>, f: nat)
    requires c.window == TRADE_WINDOW && Valid(c, Init(c, n), run)
    requires forall x :: After(c, Init(c, n), run).faults[x] <= f
    requires var m := |c.symbols|;
             || (n == 1 && m + f * (m + 1) < 500)
             || (n == 2 && 3 * m + 1 + f * (2 * m + 1) < 500)
    ensures NoDuplicates(After(c, Init(c, n), run).history)
  {
    BoundIs(c, f);
    SingleExecution(c, n, run, f);
  }

  // ---------------------------------------------------------------------------------------
  // One execution

  /** The trades that the bounded list no longer shows. */
  function Forgotten(c: Config, h: seq<Trade>): seq<Trade> { h[..|h| - |Last(h, c.window)|] }

  /** Exactly when one execution duplicates: the check has just looked at the window and found nothing,
      so the history stays duplicate-free if and only if no trade before the window carries the intent. */
  lemma DuplicateIffForgotten(c: Config, s: Sys, p: nat, o: Outcome)
    requires Enabled(c, s, Execute(p, o)) && Lands(s, p, o)
    requires Inv(c, s) && NoDuplicates(s.history)
    ensures NoDuplicates(Next(c, s, Execute(p, o)).history) <==> !Traded(Forgotten(c, s.history), s.procs[p].phase.key)
  {
    var h, k := s.history, s.procs[p].phase.key;
    var t, past := TradeOf(s.procs[p].doc, k), Forgotten(c, h);
    if Traded(past, k) {
      var i :| 0 <= i < |past| && past[i].key == k;
      assert (h + [t])[i].key == (h + [t])[|h|].key;
    } else {
      forall i | 0 <= i < |h| ensures h[i].key != k {
        if |past| <= i { WindowLacks(c, s, p, k, i); } else { assert past[i] == h[i]; }
      }
      NoDuplicatesAppend(h, t);
    }
  }

  lemma WindowLacks(c: Config, s: Sys, p: nat, k: Key, i: nat)
    requires Inv(c, s) && Synced(s, p) && k in s.procs[p].doc.pending && !Seen(s.procs[p].doc, k)
    requires |s.history| - |Last(s.history, c.window)| <= i < |s.history|
    ensures s.history[i].key != k
  {
    var doc := s.procs[p].doc;
    assert ProcOk(c, s, s.procs[p]);
    var j := i - (|s.history| - |Last(s.history, c.window)|);
    assert doc.trades[j] == s.history[i];
    assert TradeOk(s.store, s.history, i);
    assert IntentOk(c, s, k, doc.pending[k]);
    assert !SameIntent(doc.trades[j], k, doc.pending[k]);
  }
}
