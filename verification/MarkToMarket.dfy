/** Marking the account to market: equity and unrealised profit at the current quotes. */
module MarkToMarket {
  import opened Common
  import opened Ledger
  import opened Rounding

  const UNIT: real := 0.00000001

  /** The price a position is valued at: its quote, or its entry price without a positive quote. */
  function Current(p: Position, quotes: map<Symbol, real>, s: Symbol): real
  {
    if s in quotes && quotes[s] > 0.0 then quotes[s] else p.entryPrice
  }

  function ValueAt(p: Position, price: real): real { price * p.quantity }

  function GainAt(p: Position, price: real): real { (price - p.entryPrice) * p.quantity }

  function Values(ps: map<Symbol, Position>, quotes: map<Symbol, real>): map<Symbol, real>
  {
    map s | s in ps :: ValueAt(ps[s], Current(ps[s], quotes, s))
  }

  function Gains(ps: map<Symbol, Position>, quotes: map<Symbol, real>): map<Symbol, real>
  {
    map s | s in ps :: GainAt(ps[s], Current(ps[s], quotes, s))
  }

  function EntryFees(ps: map<Symbol, Position>): map<Symbol, real> { map s | s in ps :: ps[s].entryFee }

  ghost function Equity(b: Book, quotes: map<Symbol, real>): real { b.cash + Total(Values(b.positions, quotes)) }

  ghost function Unrealized(b: Book, quotes: map<Symbol, real>): real { Total(Gains(b.positions, quotes)) }

  ghost function OpenFees(b: Book): real { Total(EntryFees(b.positions)) }

  lemma Empty(quotes: map<Symbol, real>)
    ensures Total(Values(map[], quotes)) == 0.0 && Total(Gains(map[], quotes)) == 0.0
    ensures Total(Costs(map[])) == 0.0 && Total(EntryFees(map[])) == 0.0
  {
  }

  lemma RemoveValue(ps: map<Symbol, Position>, quotes: map<Symbol, real>, s: Symbol)
    requires s in ps
    ensures Total(Values(ps, quotes)) == ValueAt(ps[s], Current(ps[s], quotes, s)) + Total(Values(ps - {s}, quotes))
  {
    TotalRemove(Values(ps, quotes), s);
    assert Values(ps - {s}, quotes) == Values(ps, quotes) - {s};
  }

  lemma RemoveGain(ps: map<Symbol, Position>, quotes: map<Symbol, real>, s: Symbol)
    requires s in ps
    ensures Total(Gains(ps, quotes)) == GainAt(ps[s], Current(ps[s], quotes, s)) + Total(Gains(ps - {s}, quotes))
  {
    TotalRemove(Gains(ps, quotes), s);
    assert Gains(ps - {s}, quotes) == Gains(ps, quotes) - {s};
  }

  lemma RemoveCost(ps: map<Symbol, Position>, s: Symbol)
    requires s in ps
    ensures Total(Costs(ps)) == Cost(ps[s]) + Total(Costs(ps - {s}))
  {
    TotalRemove(Costs(ps), s);
    assert Costs(ps - {s}) == Costs(ps) - {s};
  }

  lemma RemoveFee(ps: map<Symbol, Position>, s: Symbol)
    requires s in ps
    ensures Total(EntryFees(ps)) == ps[s].entryFee + Total(EntryFees(ps - {s}))
  {
    TotalRemove(EntryFees(ps), s);
    assert EntryFees(ps - {s}) == EntryFees(ps) - {s};
  }

  /** One pass over the open positions, in any order. */
  method Sums(ps: map<Symbol, Position>, quotes: map<Symbol, real>) returns (value: real, gain: real)
    ensures value == Total(Values(ps, quotes))
    ensures gain == Total(Gains(ps, quotes))
  {
    value, gain := 0.0, 0.0;
    var rest := ps;
    while rest != map[]
      invariant value + Total(Values(rest, quotes)) == Total(Values(ps, quotes))
      invariant gain + Total(Gains(rest, quotes)) == Total(Gains(ps, quotes))
      decreases |rest|
    {
      var s :| s in rest;
      var p := rest[s];
      var price := Current(p, quotes, s);
      RemoveValue(rest, quotes, s);
      RemoveGain(rest, quotes, s);
      value := value + ValueAt(p, price);
      gain := gain + GainAt(p, price);
      rest := rest - {s};
    }
    Empty(quotes);
  }

  /** Market value is cost plus gain less the entry fee, position by position and in total. */
  lemma {:induction false} ValueSplits(ps: map<Symbol, Position>, quotes: map<Symbol, real>)
    ensures Total(Values(ps, quotes)) == Total(Costs(ps)) + Total(Gains(ps, quotes)) - Total(EntryFees(ps))
    decreases |ps|
  {
    if ps == map[] {
      Empty(quotes);
    } else {
      var s :| s in ps;
      ValueSplits(ps - {s}, quotes);
      RemoveValue(ps, quotes, s);
      RemoveGain(ps, quotes, s);
      RemoveCost(ps, s);
      RemoveFee(ps, s);
      OneSplits(ps[s], Current(ps[s], quotes, s));
    }
  }

  lemma OneSplits(p: Position, price: real)
    ensures ValueAt(p, price) == Cost(p) + GainAt(p, price) - p.entryFee
  {
  }

  /** After any replayable history and at any quotes, equity is starting capital plus realised and
      unrealised profit less the entry fees of open positions, and the two stored, rounded figures
      agree with that to within one unit of their eighth decimal. */
  lemma EquityIdentity(capital: real, h: seq<Trade>, quotes: map<Symbol, real>)
    requires capital >= 0.0 && Replay(capital, h).Some?
    ensures var b := Replay(capital, h).value;
            && Equity(b, quotes) == capital + b.realized + Unrealized(b, quotes) - OpenFees(b)
            && -UNIT <= Round(Equity(b, quotes), UNIT)
                        - (capital + b.realized + Round(Unrealized(b, quotes), UNIT) - OpenFees(b)) <= UNIT
  {
    var b := Replay(capital, h).value;
    ReplayConserves(capital, h);
    ValueSplits(b.positions, quotes);
    RoundNear(Equity(b, quotes), UNIT);
    RoundNear(Unrealized(b, quotes), UNIT);
  }

  // ---------------------------------------------------------------------------------------
  // What the quotes do

  predicate Quoted(quotes: map<Symbol, real>, s: Symbol) { s in quotes && quotes[s] > 0.0 }

  /** The gains of the positions that have a positive quote. */
  function QuotedGains(ps: map<Symbol, Position>, quotes: map<Symbol, real>): map<Symbol, real>
  {
    map s | s in ps && Quoted(quotes, s) :: GainAt(ps[s], quotes[s])
  }

  /** Changing one summand changes the total by as much. */
  lemma TotalChange(m: map<Symbol, real>, s: Symbol, x: real)
    requires s in m
    ensures Total(m[s := x]) == Total(m) + (x - m[s])
  {
    TotalRemove(m, s);
    TotalRemove(m[s := x], s);
    assert m[s := x] - {s} == m - {s};
  }

  /** Summands that are zero can be left out. */
  lemma {:induction false} TotalWithoutZeros(m: map<Symbol, real>, n: map<Symbol, real>)
    requires n.Keys <= m.Keys && forall s :: s in m ==> m[s] == if s in n then n[s] else 0.0
    ensures Total(m) == Total(n)
    decreases |m|
  {
    if m != map[] {
      var s :| s in m;
      TotalRemove(m, s);
      if s in n { TotalRemove(n, s); } else { assert n - {s} == n; }
      TotalWithoutZeros(m - {s}, n - {s});
    } else {
      assert n == map[];
    }
  }

  lemma UnquotedGain(p: Position)
    ensures GainAt(p, p.entryPrice) == 0.0
  {
  }

  /** Unrealised profit comes from the quoted positions alone. */
  lemma OnlyQuotedGain(ps: map<Symbol, Position>, quotes: map<Symbol, real>)
    ensures Total(Gains(ps, quotes)) == Total(QuotedGains(ps, quotes))
  {
    var all, some := Gains(ps, quotes), QuotedGains(ps, quotes);
    forall s | s in all ensures all[s] == if s in some then some[s] else 0.0 { UnquotedGain(ps[s]); }
    TotalWithoutZeros(all, some);
  }

  /** What a position gains between two prices. */
  function Move(p: Position, x: real, y: real): real { (y - x) * p.quantity }

  /** Moving one quote moves equity and unrealised profit by the move times the quantity held. */
  lemma QuoteMoves(b: Book, quotes: map<Symbol, real>, s: Symbol, x: real)
    requires s in b.positions && Quoted(quotes, s) && x > 0.0
    ensures Equity(b, quotes[s := x]) == Equity(b, quotes) + Move(b.positions[s], quotes[s], x)
    ensures Unrealized(b, quotes[s := x]) == Unrealized(b, quotes) + Move(b.positions[s], quotes[s], x)
  {
    var ps, p, moved := b.positions, b.positions[s], quotes[s := x];
    assert Values(ps, moved) == Values(ps, quotes)[s := ValueAt(p, x)];
    assert Gains(ps, moved) == Gains(ps, quotes)[s := GainAt(p, x)];
    TotalChange(Values(ps, quotes), s, ValueAt(p, x));
    TotalChange(Gains(ps, quotes), s, GainAt(p, x));
    MoveSplits(p, quotes[s], x);
  }

  lemma MoveSplits(p: Position, x: real, y: real)
    ensures ValueAt(p, y) - ValueAt(p, x) == GainAt(p, y) - GainAt(p, x) == Move(p, x, y)
  {
  }

  lemma OneQuote(ps: map<Symbol, Position>, quotes: map<Symbol, real>, s: Symbol)
    requires ps.Keys == {s} && Quoted(quotes, s)
    ensures Total(Values(ps, quotes)) == Move(ps[s], 0.0, quotes[s])
    ensures Total(Gains(ps, quotes)) == Move(ps[s], ps[s].entryPrice, quotes[s])
  {
    RemoveValue(ps, quotes, s);
    RemoveGain(ps, quotes, s);
    assert ps - {s} == map[];
    Empty(quotes);
  }

  lemma Unquoted(ps: map<Symbol, Position>, quotes: map<Symbol, real>)
    requires forall s :: s in ps ==> !Quoted(quotes, s)
    ensures Total(QuotedGains(ps, quotes)) == 0.0
  {
    assert QuotedGains(ps, quotes) == map[];
  }

  lemma RoundZero(unit: real)
    requires unit > 0.0
    ensures Round(0.0, unit) == 0.0
  {
    MultipleZero(unit);
    RoundFixes(0.0, unit);
  }

  /** A quote that moves moves both figures by the move times the quantity held. */
  ghost predicate FollowsQuote(b: Book, quotes: map<Symbol, real>, s: Symbol, x: real, unrealized: real, equity: real)
  {
    s in b.positions && Quoted(quotes, s) && x > 0.0 ==>
      && Unrealized(b, quotes[s := x]) == unrealized + Move(b.positions[s], quotes[s], x)
      && Equity(b, quotes[s := x]) == equity + Move(b.positions[s], quotes[s], x)
  }

  /** The only position is worth its quote. */
  ghost predicate WorthItsQuote(b: Book, quotes: map<Symbol, real>, s: Symbol, unrealized: real, equity: real)
  {
    b.positions.Keys == {s} && Quoted(quotes, s) ==>
      && unrealized == Move(b.positions[s], b.positions[s].entryPrice, quotes[s])
      && equity == b.cash + Move(b.positions[s], 0.0, quotes[s])
  }

  predicate NoneQuoted(ps: map<Symbol, Position>, quotes: map<Symbol, real>)
  {
    forall s :: s in ps ==> !Quoted(quotes, s)
  }

  /** What the quotes do to the two figures. Unrealised profit is the gain of the quoted positions, none without a
      positive quote; equity is cash, what the positions cost without their fees, and that gain. */
  ghost predicate Marked(b: Book, quotes: map<Symbol, real>, unrealized: real, equity: real)
  {
    && unrealized == Total(QuotedGains(b.positions, quotes))
    && equity == b.cash + TiedUp(b) - OpenFees(b) + unrealized
    && (NoneQuoted(b.positions, quotes) ==> unrealized == 0.0)
    && (forall s :: WorthItsQuote(b, quotes, s, unrealized, equity))
    && (forall s, x :: FollowsQuote(b, quotes, s, x, unrealized, equity))
  }

  lemma FiguresAreMarked(b: Book, quotes: map<Symbol, real>, unrealized: real, equity: real)
    requires unrealized == Unrealized(b, quotes) && equity == Equity(b, quotes)
    ensures Marked(b, quotes, unrealized, equity)
  {
    OnlyQuotedGain(b.positions, quotes);
    ValueSplits(b.positions, quotes);
    if NoneQuoted(b.positions, quotes) { Unquoted(b.positions, quotes); }
    forall s ensures WorthItsQuote(b, quotes, s, unrealized, equity) {
      if b.positions.Keys == {s} && Quoted(quotes, s) { OneQuote(b.positions, quotes, s); }
    }
    forall s, x ensures FollowsQuote(b, quotes, s, x, unrealized, equity) {
      if s in b.positions && Quoted(quotes, s) && x > 0.0 { QuoteMoves(b, quotes, s, x); }
    }
  }

  /** The two figures, rounded to a unit. */
  ghost predicate Stored(b: Book, quotes: map<Symbol, real>, unrealized: real, equity: real, unit: real)
    requires unit > 0.0
  {
    && unrealized == Round(Unrealized(b, quotes), unit) && equity == Round(Equity(b, quotes), unit)
    && Marked(b, quotes, Unrealized(b, quotes), Equity(b, quotes))
    && (NoneQuoted(b.positions, quotes) ==> unrealized == 0.0)
  }

  lemma FiguresAreStored(b: Book, quotes: map<Symbol, real>, value: real, gain: real, unit: real)
    requires unit > 0.0 && b.cash + value == Equity(b, quotes) && gain == Unrealized(b, quotes)
    ensures Stored(b, quotes, Round(gain, unit), Round(b.cash + value, unit), unit)
  {
    FiguresAreMarked(b, quotes, gain, b.cash + value);
    RoundZero(unit);
  }

  /** A multiple of the unit, at most half a unit away. */
  ghost predicate Near(x: real, y: real, unit: real) { Multiple(x, unit) && -(unit / 2.0) <= x - y <= unit / 2.0 }

  /** The stored figures carry eight decimals. */
  method Mark(b: Book, quotes: map<Symbol, real>) returns (unrealized: real, equity: real)
    ensures Stored(b, quotes, unrealized, equity, UNIT)
    ensures Near(unrealized, Unrealized(b, quotes), 0.00000001) && Near(equity, Equity(b, quotes), 0.00000001)
  {
    var value, gain := Sums(b.positions, quotes);
    unrealized, equity := Rounded(b, quotes, b.cash, value, gain, UNIT);
  }

  method Rounded(ghost b: Book, ghost quotes: map<Symbol, real>, cash: real, value: real, gain: real, unit: real)
    returns (unrealized: real, equity: real)
    requires unit > 0.0 && cash == b.cash && cash + value == Equity(b, quotes) && gain == Unrealized(b, quotes)
    ensures Stored(b, quotes, unrealized, equity, unit)
    ensures Near(unrealized, Unrealized(b, quotes), unit) && Near(equity, Equity(b, quotes), unit)
  {
    unrealized, equity := Round(gain, unit), Round(cash + value, unit);
    FiguresAreStored(b, quotes, value, gain, unit);
    RoundNear(gain, unit);
    RoundNear(cash + value, unit);
  }
}
