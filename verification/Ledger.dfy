/** The virtual account book: what one fill does to cash, positions and realised profit,
    and what replaying a whole trade history from fresh capital gives. */
module Ledger {
  import opened Common

  type Symbol = string
  type DecisionId = string

  datatype Side = Buy | Sell

  /** The identity of an execution intent. The hexadecimal digests of the program are injective
      here, so an intent is named by the parts that are hashed. */
  datatype Key =
    | Auth(decision: DecisionId)
    | Prot(symbol: Symbol, entry: DecisionId, reason: string)

  /** One prepared execution. `reference` is the quote midpoint, `bbo` the best executable price. */
  datatype Fill = Fill(side: Side, quantity: real, reference: real, bbo: real, price: real,
                       notional: real, fee: real, spreadCost: real, slippageCost: real)

  datatype Position = Position(quantity: real, entryPrice: real, entryReference: real, entryFee: real,
                               entrySpread: real, entrySlippage: real, decision: DecisionId)

  datatype Book = Book(cash: real, realized: real, fees: real, positions: map<Symbol, Position>)

  datatype Trade = Trade(symbol: Symbol, key: Key, fill: Ready)

  /** What preparing an execution guarantees about a fill, whatever the market was. */
  predicate Prepared(f: Fill)
  {
    && f.quantity > 0.0 && f.price > 0.0
    && f.notional == f.price * f.quantity
    && 0.0 <= f.fee <= f.notional
    && (f.side.Buy? ==> f.reference <= f.bbo <= f.price)
    && (f.side.Sell? ==> f.price <= f.bbo <= f.reference)
    && f.spreadCost == Abs(f.bbo - f.reference) * f.quantity
    && f.slippageCost == Abs(f.price - f.bbo) * f.quantity
  }

  /** The fills that staging and the trade list can hold. */
  type Ready = f: Fill | Prepared(f) witness Fill(Buy, 1.0, 1.0, 1.0, 1.0, 1.0, 0.0, 0.0, 0.0)

  function FreshBook(capital: real): Book { Book(capital, 0.0, 0.0, map[]) }

  /** Opening a position pays notional and fee out of cash; refused when cash does not cover both. */
  function Open(b: Book, s: Symbol, d: DecisionId, f: Fill): Option<Book>
  {
    var required := f.notional + f.fee;
    if required > b.cash then None
    else Some(Book(b.cash - required, b.realized, b.fees + f.fee,
                   b.positions[s := Position(f.quantity, f.price, f.reference, f.fee,
                                             f.spreadCost, f.slippageCost, d)]))
  }

  /** Net profit of a close: midpoint move minus both legs' spread, slippage and fees. */
  function NetPnl(p: Position, f: Fill): real
  {
    (f.reference - p.entryReference) * f.quantity
    - (p.entrySpread + f.spreadCost) - (p.entrySlippage + f.slippageCost) - (p.entryFee + f.fee)
  }

  /** Closing sells the whole position; refused without a position or on a quantity mismatch. */
  function Close(b: Book, s: Symbol, f: Fill): Option<Book>
  {
    if s !in b.positions || f.quantity != b.positions[s].quantity then None
    else Some(Book(b.cash + (f.price * f.quantity - f.fee), b.realized + NetPnl(b.positions[s], f),
                   b.fees + f.fee, b.positions - {s}))
  }

  /** The book after one trade, or None when the guards of the execution path refuse it. */
  function Post(b: Book, t: Trade): Option<Book>
  {
    match t.fill.side
    case Buy => if t.key.Prot? || t.symbol in b.positions then None else Open(b, t.symbol, t.key.decision, t.fill)
    case Sell => Close(b, t.symbol, t.fill)
  }

  /** Replays a history from fresh capital; None as soon as one trade is not admissible. */
  function Replay(capital: real, h: seq<Trade>): Option<Book>
  {
    if h == [] then Some(FreshBook(capital))
    else
      var b := Replay(capital, h[..|h| - 1]);
      if b.None? then None else Post(b.value, h[|h| - 1])
  }

  /** A BUY is taken exactly when it is authorized, the symbol has no position and cash covers notional and fee; a SELL
      exactly when it sells the whole position of its symbol. */
  lemma PostIff(b: Book, t: Trade)
    ensures Post(b, t).Some?
            <==> if t.fill.side.Buy? then t.key.Auth? && t.symbol !in b.positions
                && t.fill.notional + t.fill.fee <= b.cash
                 else t.symbol in b.positions && t.fill.quantity == b.positions[t.symbol].quantity
  {
  }

  /** What a trade moves: cash and fees, realised profit when it sells, and the position of its own symbol alone, which
      records every figure of the fill. */
  lemma PostMoves(b: Book, t: Trade, c: Book)
    requires Post(b, t) == Some(c)
    ensures c.fees == b.fees + t.fill.fee && c.positions - {t.symbol} == b.positions - {t.symbol}
    ensures t.fill.side.Buy? ==>
              && c.cash == b.cash - t.fill.notional - t.fill.fee && c.realized == b.realized
              && t.symbol in c.positions
              && var p := c.positions[t.symbol];
                 && p.quantity == t.fill.quantity && p.entryPrice == t.fill.price
                     && p.entryReference == t.fill.reference
                 && p.entryFee == t.fill.fee && p.entrySpread == t.fill.spreadCost
                 && p.entrySlippage == t.fill.slippageCost && Auth(p.decision) == t.key
    ensures t.fill.side.Sell? ==>
              && c.cash == b.cash + t.fill.notional - t.fill.fee && t.symbol !in c.positions
              && (Reconstructs(b.positions[t.symbol]) ==>
                    c.realized - b.realized == (c.cash - b.cash) - Cost(b.positions[t.symbol]))
  {
    if t.fill.side.Sell? && Reconstructs(b.positions[t.symbol]) { NetIsCashDifference(b.positions[t.symbol], t.fill); }
  }

  // ---------------------------------------------------------------------------------------
  // Money tied up in open positions

  function Cost(p: Position): real { p.entryPrice * p.quantity + p.entryFee }

  ghost function Total(m: map<Symbol, real>): real
  {
    if m == map[] then 0.0 else var s :| s in m; m[s] + Total(m - {s})
  }

  lemma {:induction false} TotalRemove(m: map<Symbol, real>, s: Symbol)
    requires s in m
    ensures Total(m) == m[s] + Total(m - {s})
    decreases |m|
  {
    var t :| t in m && Total(m) == m[t] + Total(m - {t});
    if t != s {
      TotalRemove(m - {t}, s);
      TotalRemove(m - {s}, t);
      assert m - {t} - {s} == m - {s} - {t};
    }
  }

  lemma TotalAdd(m: map<Symbol, real>, s: Symbol, x: real)
    requires s !in m
    ensures Total(m[s := x]) == Total(m) + x
  {
    TotalRemove(m[s := x], s);
    assert m[s := x] - {s} == m;
  }

  function Costs(ps: map<Symbol, Position>): map<Symbol, real> { map s | s in ps :: Cost(ps[s]) }

  ghost function TiedUp(b: Book): real { Total(Costs(b.positions)) }

  /** A position whose recorded costs reconstruct what was paid for it. */
  predicate Reconstructs(p: Position)
  {
    && p.quantity > 0.0 && p.entryPrice > 0.0 && p.entryFee >= 0.0
    && p.entryReference * p.quantity + p.entrySpread + p.entrySlippage == p.entryPrice * p.quantity
  }

  /** Midpoint plus or minus spread and slippage is exactly the executed cash flow. */
  lemma CashFlow(f: Fill)
    requires Prepared(f)
    ensures f.side.Buy? ==> f.reference * f.quantity + f.spreadCost + f.slippageCost == f.price * f.quantity
    ensures f.side.Sell? ==> f.reference * f.quantity - f.spreadCost - f.slippageCost == f.price * f.quantity
  {
    var q := f.quantity;
    if f.side.Buy? {
      assert f.spreadCost == (f.bbo - f.reference) * q;
      assert f.slippageCost == (f.price - f.bbo) * q;
    } else {
      assert f.spreadCost == (f.reference - f.bbo) * q;
      assert f.slippageCost == (f.bbo - f.price) * q;
    }
  }

  ghost predicate Sound(capital: real, b: Book)
  {
    && b.cash >= 0.0
    && (forall s :: s in b.positions ==> Reconstructs(b.positions[s]))
    && b.cash + TiedUp(b) == capital + b.realized
  }

  lemma OpenSound(capital: real, b: Book, s: Symbol, d: DecisionId, f: Fill)
    requires Sound(capital, b) && Prepared(f) && f.side.Buy? && s !in b.positions
    requires Open(b, s, d, f).Some?
    ensures Sound(capital, Open(b, s, d, f).value)
  {
    var b' := Open(b, s, d, f).value;
    var p := b'.positions[s];
    assert Reconstructs(p) by { CashFlow(f); }
    assert TiedUp(b') == TiedUp(b) + Cost(p) by {
      TotalAdd(Costs(b.positions), s, Cost(p));
      assert Costs(b'.positions) == Costs(b.positions)[s := Cost(p)];
    }
    assert Cost(p) == f.notional + f.fee;
  }

  lemma NetIsCashDifference(p: Position, f: Fill)
    requires Reconstructs(p) && Prepared(f) && f.side.Sell? && f.quantity == p.quantity
    ensures NetPnl(p, f) == (f.price * f.quantity - f.fee) - Cost(p)
  {
    CashFlow(f);
    assert (f.reference - p.entryReference) * f.quantity == f.reference * f.quantity - p.entryReference * p.quantity;
  }

  lemma CloseSound(capital: real, b: Book, s: Symbol, f: Fill)
    requires Sound(capital, b) && Prepared(f) && f.side.Sell?
    requires Close(b, s, f).Some?
    ensures Sound(capital, Close(b, s, f).value)
  {
    var b' := Close(b, s, f).value;
    NetIsCashDifference(b.positions[s], f);
    TotalRemove(Costs(b.positions), s);
    assert Costs(b'.positions) == Costs(b.positions) - {s};
  }

  /** Conservation over a whole history: cash plus the cost of what is open equals the starting
      capital plus realised profit; cash is never negative. */
  lemma {:induction false} ReplayConserves(capital: real, h: seq<Trade>)
    requires capital >= 0.0 && Replay(capital, h).Some?
    ensures Sound(capital, Replay(capital, h).value)
  {
    if h == [] {
      assert Costs(map[]) == map[];
    } else {
      var g, t := h[..|h| - 1], h[|h| - 1];
      ReplayConserves(capital, g);
      var b := Replay(capital, g).value;
      if t.fill.side.Buy? {
        OpenSound(capital, b, t.symbol, t.key.decision, t.fill);
      } else {
        CloseSound(capital, b, t.symbol, t.fill);
      }
    }
  }

  function FeesPaid(h: seq<Trade>): real
  {
    if h == [] then 0.0 else FeesPaid(h[..|h| - 1]) + h[|h| - 1].fill.fee
  }

  lemma {:induction false} ReplayFees(capital: real, h: seq<Trade>)
    requires Replay(capital, h).Some?
    ensures Replay(capital, h).value.fees == FeesPaid(h)
  {
    if h != [] { ReplayFees(capital, h[..|h| - 1]); }
  }

  // ---------------------------------------------------------------------------------------
  // The shape of one symbol's history

  function Of(h: seq<Trade>, s: Symbol): seq<Trade>
  {
    if h == [] then []
    else Of(h[..|h| - 1], s) + (if h[|h| - 1].symbol == s then [h[|h| - 1]] else [])
  }

  /** BUY, SELL, BUY, ... with each SELL returning the quantity of the BUY before it. */
  predicate Alternates(ts: seq<Trade>)
  {
    && (forall i :: 0 <= i < |ts| ==> (ts[i].fill.side.Buy? <==> i % 2 == 0))
    && (forall i :: 0 <= i < |ts| && i % 2 == 1 ==> ts[i].fill.quantity == ts[i - 1].fill.quantity)
  }

  predicate Holds(b: Book, s: Symbol, ts: seq<Trade>)
  {
    && (s in b.positions <==> |ts| % 2 == 1)
    && (s in b.positions ==>
          && b.positions[s].quantity == ts[|ts| - 1].fill.quantity
          && ts[|ts| - 1].key == Auth(b.positions[s].decision))
  }

  lemma AlternatesAppend(b: Book, t: Trade, ts: seq<Trade>)
    requires Alternates(ts) && Holds(b, t.symbol, ts) && Post(b, t).Some?
    ensures Alternates(ts + [t]) && Holds(Post(b, t).value, t.symbol, ts + [t])
  {
  }

  /** Each symbol's trades strictly alternate, and a position exists exactly when the last one is
      a BUY: the book is never short and never doubled. */
  lemma {:induction false} ReplayAlternates(capital: real, h: seq<Trade>, s: Symbol)
    requires Replay(capital, h).Some?
    ensures Alternates(Of(h, s)) && Holds(Replay(capital, h).value, s, Of(h, s))
  {
    if h != [] {
      var g, t := h[..|h| - 1], h[|h| - 1];
      ReplayAlternates(capital, g, s);
      if t.symbol == s {
        AlternatesAppend(Replay(capital, g).value, t, Of(g, s));
      } else {
        assert Of(h, s) == Of(g, s);
      }
    }
  }

  /** An open position is the newest trade of its symbol: nothing on that symbol follows its BUY. */
  lemma {:induction false} OpenPositionIsNewest(capital: real, h: seq<Trade>, s: Symbol) returns (i: nat)
    requires Replay(capital, h).Some? && s in Replay(capital, h).value.positions
    ensures i < |h| && h[i].symbol == s && h[i].fill.side.Buy?
    ensures h[i].key == Auth(Replay(capital, h).value.positions[s].decision)
    ensures forall j :: i < j < |h| ==> h[j].symbol != s
  {
    var g, t := h[..|h| - 1], h[|h| - 1];
    if t.symbol == s {
      i := |h| - 1;
    } else {
      i := OpenPositionIsNewest(capital, g, s);
    }
  }
}
