/** Single-pass drawdown of replayed trades and of stage evidence, against the maximum over all pairs. */
module Drawdown {
  import opened Common
  import opened Rounding
  import opened Sums

  datatype ReplayTrade = ReplayTrade(gross: real, fees: real, slippage: real, turnover: real)

  datatype Metrics = Metrics(samples: nat, gross: real, fees: real, slippage: real, net: real, turnover: real,
                             wins: nat, losses: nat, maxDrawdown: real)

  function Net(t: ReplayTrade): real { t.gross - t.fees - t.slippage }

  function Nets(ts: seq<ReplayTrade>): seq<real> { seq(|ts|, i requires 0 <= i < |ts| => Net(ts[i])) }

  /** The equity path: the start and then the value after each result. */
  function Path(start: real, ps: seq<real>): (r: seq<real>)
    ensures |r| == |ps| + 1 && r[0] == start
  {
    if ps == [] then [start]
    else
      var before := Path(start, ps[..|ps| - 1]);
      before + [before[|ps| - 1] + ps[|ps| - 1]]
  }

  /** m is the largest fall from any earlier point to any later one. */
  ghost predicate LargestFall(path: seq<real>, m: real)
  {
    && (forall i, j :: 0 <= i <= j < |path| ==> path[i] - path[j] <= m)
    && (exists i, j :: 0 <= i <= j < |path| && path[i] - path[j] == m)
  }

  ghost predicate Peak(path: seq<real>, p: real)
  {
    (forall i :: 0 <= i < |path| ==> path[i] <= p) && (exists i :: 0 <= i < |path| && path[i] == p)
  }

  lemma PeakStep(path: seq<real>, x: real, p: real)
    requires Peak(path, p)
    ensures Peak(path + [x], Max(p, x))
  {
    var all := path + [x];
    var i :| 0 <= i < |path| && path[i] == p;
    assert all[i] == p && all[|path|] == x;
  }

  /** Comparing the new point with the running peak is enough to keep the maximum over all pairs. */
  lemma FallStep(path: seq<real>, x: real, p: real, m: real)
    requires LargestFall(path, m) && Peak(path, p)
    ensures LargestFall(path + [x], Max(m, Max(p, x) - x))
  {
    var all := path + [x];
    var n := |path|;
    var m' := Max(m, Max(p, x) - x);
    forall i, j | 0 <= i <= j < |all| ensures all[i] - all[j] <= m' {
      if j < n { assert path[i] - path[j] <= m; } else if i < n { assert path[i] <= p; }
    }
    var a, b :| 0 <= a <= b < n && path[a] - path[b] == m;
    assert all[a] - all[b] == m;
    var k :| 0 <= k < n && path[k] == p;
    assert all[k] - all[n] == p - x && all[n] - all[n] == 0.0;
    assert all[0] - all[0] == 0.0;
  }

  function Gross(t: ReplayTrade): real { t.gross }
  function Fees(t: ReplayTrade): real { t.fees }
  function Slippage(t: ReplayTrade): real { t.slippage }
  function Turnover(t: ReplayTrade): real { t.turnover }

  function Wins(ts: seq<ReplayTrade>): nat
  {
    if ts == [] then 0 else Wins(ts[..|ts| - 1]) + (if Net(ts[|ts| - 1]) > 0.0 then 1 else 0)
  }

  function Losses(ts: seq<ReplayTrade>): nat
  {
    if ts == [] then 0 else Losses(ts[..|ts| - 1]) + (if Net(ts[|ts| - 1]) < 0.0 then 1 else 0)
  }

  lemma PathAppend(start: real, ps: seq<real>, i: nat)
    requires i < |ps|
    ensures Path(start, ps[..i + 1]) == Path(start, ps[..i]) + [Path(start, ps[..i])[i] + ps[i]]
  {
    assert ps[..i + 1][..i] == ps[..i];
  }

  /** Each point of the path is the one before plus that result. */
  lemma {:induction false} PathMeaning(start: real, ps: seq<real>, i: nat)
    requires i < |ps|
    ensures Path(start, ps)[i + 1] == Path(start, ps)[i] + ps[i]
  {
    if i < |ps| - 1 { PathMeaning(start, ps[..|ps| - 1], i); }
  }

  lemma {:induction false} PathEnd(ts: seq<ReplayTrade>)
    ensures Path(0.0, Nets(ts))[|ts|] == Sum(Net, ts)
  {
    if ts != [] {
      var n := |ts| - 1;
      PathEnd(ts[..n]);
      assert Nets(ts)[..n] == Nets(ts[..n]);
      PathAppend(0.0, Nets(ts), n);
      assert Nets(ts)[..n + 1] == Nets(ts);
    }
  }

  /** The three loop variables describe the path so far. */
  ghost predicate Tracks(path: seq<real>, equity: real, peak: real, m: real)
  {
    path != [] && equity == path[|path| - 1] && Peak(path, peak) && LargestFall(path, m)
  }

  lemma TrackStart(start: real)
    ensures Tracks([start], start, start, 0.0)
  {
  }

  lemma TrackStep(path: seq<real>, equity: real, peak: real, m: real, x: real)
    requires Tracks(path, equity, peak, m)
    ensures Tracks(path + [equity + x], equity + x, Max(peak, equity + x), Max(m, Max(peak, equity + x) - (equity + x)))
  {
    PeakStep(path, equity + x, peak);
    FallStep(path, equity + x, peak, m);
  }

  /** The running-peak loop over the results, one pass. */
  method PassOver(ps: seq<real>) returns (equity: real, maxDrawdown: real)
    ensures equity == Path(0.0, ps)[|ps|]
    ensures LargestFall(Path(0.0, ps), maxDrawdown)
  {
    var peak := 0.0;
    equity, maxDrawdown := 0.0, 0.0;
    TrackStart(0.0);
    for i := 0 to |ps|
      invariant Tracks(Path(0.0, ps[..i]), equity, peak, maxDrawdown)
    {
      PathAppend(0.0, ps, i);
      TrackStep(Path(0.0, ps[..i]), equity, peak, maxDrawdown, ps[i]);
      equity := equity + ps[i];
      peak := Max(peak, equity);
      maxDrawdown := Max(maxDrawdown, peak - equity);
    }
    assert ps[..|ps|] == ps;
  }

  /** Its drawdown is the maximum over all pairs of points of the equity path, and its equity is the
      sum of the per-trade nets. */
  method RunningDrawdown(ts: seq<ReplayTrade>) returns (equity: real, maxDrawdown: real)
    ensures equity == Sum(Net, ts)
    ensures LargestFall(Path(0.0, Nets(ts)), maxDrawdown)
  {
    equity, maxDrawdown := PassOver(Nets(ts));
    PathEnd(ts);
  }

  /** The totals loop. */
  method Totals(ts: seq<ReplayTrade>)
    returns (gross: real, fees: real, slippage: real, turnover: real, wins: nat, losses: nat)
    ensures gross == Sum(Gross, ts) && fees == Sum(Fees, ts) && slippage == Sum(Slippage, ts)
            && turnover == Sum(Turnover, ts)
    ensures wins == Wins(ts) && losses == Losses(ts)
  {
    gross, fees, slippage, turnover, wins, losses := 0.0, 0.0, 0.0, 0.0, 0, 0;
    for i := 0 to |ts|
      invariant gross == Sum(Gross, ts[..i]) && fees == Sum(Fees, ts[..i])
      invariant slippage == Sum(Slippage, ts[..i]) && turnover == Sum(Turnover, ts[..i])
      invariant wins == Wins(ts[..i]) && losses == Losses(ts[..i])
    {
      var t := ts[i];
      assert ts[..i + 1][..i] == ts[..i];
      gross, fees, slippage, turnover := gross + t.gross, fees + t.fees, slippage + t.slippage, turnover + t.turnover;
      if Net(t) > 0.0 { wins := wins + 1; } else if Net(t) < 0.0 { losses := losses + 1; }
    }
    assert ts[..|ts|] == ts;
  }

  /** Net is derived from the three totals; it is the sum of per-trade nets all the same. */
  method ReplayMetrics(ts: seq<ReplayTrade>) returns (m: Metrics)
    ensures m.samples == |ts| && m.net == Sum(Net, ts) == m.gross - m.fees - m.slippage
    ensures m.gross == Sum(Gross, ts) && m.fees == Sum(Fees, ts) && m.slippage == Sum(Slippage, ts)
    ensures m.turnover == Sum(Turnover, ts) && m.wins == Wins(ts) && m.losses == Losses(ts)
    ensures LargestFall(Path(0.0, Nets(ts)), m.maxDrawdown)
  {
    var gross, fees, slippage, turnover, wins, losses := Totals(ts);
    var equity, maxDrawdown := RunningDrawdown(ts);
    NetSplits(ts);
    m := Metrics(|ts|, gross, fees, slippage, gross - fees - slippage, turnover, wins, losses, maxDrawdown);
  }

  lemma {:induction false} NetSplits(ts: seq<ReplayTrade>)
    ensures Sum(Net, ts) == Sum(Gross, ts) - Sum(Fees, ts) - Sum(Slippage, ts)
  {
    if ts != [] { NetSplits(ts[..|ts| - 1]); }
  }

  // ---------------------------------------------------------------------------------------
  // The percentage version

  function Decline(from: real, to: real): real
    requires from > 0.0
  {
    (from - to) / from * 100.0
  }

  /** m is the largest relative decline over all pairs that start above zero, or zero. */
  ghost predicate LargestDecline(path: seq<real>, m: real)
  {
    && m >= 0.0
    && (forall i, j :: 0 <= i <= j < |path| && path[i] > 0.0 ==> Decline(path[i], path[j]) <= m)
    && (m == 0.0 || exists i, j :: 0 <= i <= j < |path| && path[i] > 0.0 && Decline(path[i], path[j]) == m)
  }

  /** m is the largest decline from a running peak: what the loop computes. */
  function PeakDecline(path: seq<real>, n: nat): (real, real)
    requires 0 < n <= |path|
  {
    if n == 1 then (path[0], 0.0)
    else
      var (p, m) := PeakDecline(path, n - 1);
      var x := path[n - 1];
      var p' := Max(p, x);
      (p', if p' > 0.0 then Max(m, Decline(p', x)) else m)
  }

  lemma {:induction false} PeakDeclinePrefix(path: seq<real>, more: seq<real>, n: nat)
    requires 0 < n <= |path|
    ensures PeakDecline(path + more, n) == PeakDecline(path, n)
    decreases n
  {
    assert (path + more)[n - 1] == path[n - 1];
    if n > 1 { PeakDeclinePrefix(path, more, n - 1); }
  }

  method EvidenceDrawdown(initial: real, pnls: seq<real>) returns (equity: real, maximum: real)
    ensures equity == Path(initial, pnls)[|pnls|]
    ensures maximum == PeakDecline(Path(initial, pnls), |pnls| + 1).1
  {
    equity, maximum := initial, 0.0;
    var peak := initial;
    ghost var path := Path(initial, pnls[..0]);
    for i := 0 to |pnls|
      invariant path == Path(initial, pnls[..i]) && equity == path[i]
      invariant PeakDecline(path, i + 1) == (peak, maximum)
    {
      PathAppend(initial, pnls, i);
      equity := equity + pnls[i];
      PeakDeclinePrefix(path, [equity], i + 1);
      path := path + [equity];
      peak := Max(peak, equity);
      if peak > 0.0 { maximum := Max(maximum, (peak - equity) / peak * 100.0); }
    }
    assert pnls[..|pnls|] == pnls;
  }

  lemma DeclineIs(a: real, x: real)
    requires a > 0.0
    ensures Decline(a, x) == (1.0 - x / a) * 100.0
  {
    var d, r := (a - x) / a, x / a;
    assert d * a == a - x && r * a == x;
    assert (d - (1.0 - r)) * a == 0.0;
    Product(d - (1.0 - r), a);
    Product((1.0 - r) - d, a);
    assert ((1.0 - r) - d) * a == 0.0;
  }

  /** From a higher start the decline to a non-negative value is at least as large. */
  lemma DeclineMonotone(a: real, b: real, x: real)
    requires 0.0 < a <= b && x >= 0.0
    ensures Decline(a, x) <= Decline(b, x)
  {
  }

  lemma QuotientSign(x: real, a: real)
    requires a > 0.0
    ensures x >= 0.0 ==> x / a >= 0.0
    ensures x < 0.0 ==> x / a < 0.0
  {
  }

  /** Below zero the lower start declines more. */
  lemma SteeperFromBelow(a: real, b: real, x: real)
    requires 0.0 < a < b && x < 0.0
    ensures Decline(a, x) > Decline(b, x) > 0.0
  {
    var r, s := x / a, x / b;
    assert r * a == x && s * b == x;
    DeclineIs(a, x);
    DeclineIs(b, x);
    QuotientSign(x, a);
    QuotientSign(x, b);
    assert (s - r) * b == (-r) * (b - a);
    Product(-r, b - a);
    Product(s - r, b);
  }

  /** The lowest positive point, or zero when there is none. */
  predicate Lowest(path: seq<real>, low: real)
  {
    && low >= 0.0 && (low > 0.0 ==> low in path)
    && forall i :: 0 <= i < |path| && path[i] > 0.0 ==> 0.0 < low <= path[i]
  }

  /** The largest decline to a point below zero from the lowest positive point before it: what the loop leaves out. */
  function LowDecline(path: seq<real>, n: nat): (real, real)
    requires n <= |path|
  {
    if n == 0 then (0.0, 0.0)
    else
      var (low, m) := LowDecline(path, n - 1);
      var x := path[n - 1];
      (if x > 0.0 && (low == 0.0 || x < low) then x else low,
      if x < 0.0 && low > 0.0 then Max(m, Decline(low, x)) else m)
  }

  /** The decline from start p to x, none when p is not positive. */
  function Fall(p: real, x: real): real { if p > 0.0 then Decline(p, x) else 0.0 }

  /** No positive point declines to x by more than the peak or, below zero, the lowest point does. */
  lemma WorstFall(path: seq<real>, x: real, p: real, low: real, i: nat)
    requires Peak(path, p) && Lowest(path, low) && i < |path| && path[i] > 0.0
    ensures Decline(path[i], x) <= if x < 0.0 then Fall(low, x) else Fall(Max(p, x), x)
  {
    if x < 0.0 {
      if low < path[i] { SteeperFromBelow(low, path[i], x); }
    } else {
      DeclineMonotone(path[i], Max(p, x), x);
    }
  }

  /** One point more: the falls from the peak and from the lowest point are all that can be worse. */
  lemma DeclineStep(path: seq<real>, x: real, p: real, low: real, m: real, m': real)
    requires LargestDecline(path, m) && Peak(path, p) && Lowest(path, low)
    requires m' == Max(Max(m, Fall(Max(p, x), x)), if x < 0.0 then Fall(low, x) else 0.0)
    ensures LargestDecline(path + [x], m')
  {
    var all, n := path + [x], |path|;
    assert forall i :: 0 <= i < n ==> all[i] == path[i];
    forall i, j | 0 <= i <= j < |all| && all[i] > 0.0 ensures Decline(all[i], all[j]) <= m' {
      if j < n {
        assert Decline(path[i], path[j]) <= m;
      } else if i < n {
        WorstFall(path, x, p, low, i);
      } else {
        assert Decline(x, x) == 0.0;
      }
    }
    if m' != 0.0 {
      if m' == m {
        var i, j :| 0 <= i <= j < n && path[i] > 0.0 && Decline(path[i], path[j]) == m;
        assert Decline(all[i], all[j]) == m;
      } else {
        var start := if m' == Fall(Max(p, x), x) then Max(p, x) else low;
        assert start in all;
        var k :| 0 <= k < |all| && all[k] == start;
        assert Decline(all[k], all[n]) == m';
      }
    }
  }

  lemma LowestStep(path: seq<real>, x: real, low: real)
    requires Lowest(path, low)
    ensures Lowest(path + [x], if x > 0.0 && (low == 0.0 || x < low) then x else low)
  {
    var all := path + [x];
    assert all[|path|] == x;
    if low > 0.0 {
      var k :| 0 <= k < |path| && path[k] == low;
      assert all[k] == low;
    }
  }

  /** Peak and lowest point of the path, and its largest decline in two parts. */
  ghost predicate Known(path: seq<real>, peak: (real, real), low: (real, real))
  {
    && Peak(path, peak.0) && Lowest(path, low.0) && peak.1 >= 0.0 && low.1 >= 0.0
    && LargestDecline(path, Max(peak.1, low.1))
  }

  lemma KnownStep(before: seq<real>, x: real, peak: (real, real), low: (real, real))
    requires Known(before, peak, low)
    ensures Known(before + [x], (Max(peak.0, x), Max(peak.1, Fall(Max(peak.0, x), x))),
                (if x > 0.0 && (low.0 == 0.0 || x < low.0) then x else low.0,
                if x < 0.0 && low.0 > 0.0 then Max(low.1, Decline(low.0, x)) else low.1))
  {
    PeakStep(before, x, peak.0);
    LowestStep(before, x, low.0);
    DeclineStep(before, x, peak.0, low.0, Max(peak.1, low.1),
        Max(Max(Max(peak.1, low.1), Fall(Max(peak.0, x), x)), if x < 0.0 then Fall(low.0, x) else 0.0));
  }

  lemma DeclinesNext(path: seq<real>, n: nat, peak: (real, real), low: (real, real))
    requires 1 < n <= |path| && peak == PeakDecline(path, n - 1) && low == LowDecline(path, n - 1) && peak.1 >= 0.0
    ensures var x := path[n - 1];
            && PeakDecline(path, n) == (Max(peak.0, x), Max(peak.1, Fall(Max(peak.0, x), x)))
            && LowDecline(path, n) == (if x > 0.0 && (low.0 == 0.0 || x < low.0) then x else low.0,
                                      if x < 0.0 && low.0 > 0.0 then Max(low.1, Decline(low.0, x)) else low.1)
  {
  }

  /** For every path the largest relative decline over all pairs is the larger of the loop's figure and the largest
      decline below zero from the lowest positive point. */
  lemma {:induction false} LargestOfBoth(path: seq<real>, n: nat)
    requires 0 < n <= |path|
    ensures Known(path[..n], PeakDecline(path, n), LowDecline(path, n))
    decreases n
  {
    if n == 1 {
      assert path[..1] == [path[0]];
      SinglePoint(path[0]);
    } else {
      LargestOfBoth(path, n - 1);
      assert path[..n] == path[..n - 1] + [path[n - 1]];
      KnownStep(path[..n - 1], path[n - 1], PeakDecline(path, n - 1), LowDecline(path, n - 1));
      DeclinesNext(path, n, PeakDecline(path, n - 1), LowDecline(path, n - 1));
    }
  }

  lemma SinglePoint(x: real)
    ensures Peak([x], x) && Lowest([x], if x > 0.0 then x else 0.0) && LargestDecline([x], 0.0)
  {
    var path := [x];
    assert path[0] == x;
    if x > 0.0 { assert Decline(x, x) == 0.0; }
  }

  /** Two figures cannot both be the largest. */
  lemma LargestIsUnique(path: seq<real>, m: real, m': real)
    requires LargestDecline(path, m) && LargestDecline(path, m')
    ensures m == m'
  {
  }

  /** For every path the loop's figure is the largest relative decline over all pairs exactly when no fall below zero
      from the lowest positive point before it exceeds the figure. */
  lemma FigureIsLargestIff(path: seq<real>)
    requires path != []
    ensures var peak, low := PeakDecline(path, |path|).1, LowDecline(path, |path|).1;
            && LargestDecline(path, Max(peak, low))
            && (LargestDecline(path, peak) <==> low <= peak)
  {
    var n := |path|;
    assert path[..n] == path;
    LargestOfBoth(path, n);
    var peak, low := PeakDecline(path, n).1, LowDecline(path, n).1;
    if LargestDecline(path, peak) { LargestIsUnique(path, peak, Max(peak, low)); }
  }

  predicate NonNegative(path: seq<real>) { forall i :: 0 <= i < |path| ==> path[i] >= 0.0 }

  lemma {:induction false} NothingBelowZero(path: seq<real>, n: nat)
    requires n <= |path| && NonNegative(path)
    ensures LowDecline(path, n).1 == 0.0
  {
    if n > 0 { NothingBelowZero(path, n - 1); }
  }

  /** While equity stays non-negative the running-peak figure is the largest relative decline over all
      pairs. */
  lemma PeakDeclineIsLargest(path: seq<real>, n: nat)
    requires 0 < n <= |path| && NonNegative(path)
    ensures Peak(path[..n], PeakDecline(path, n).0) && LargestDecline(path[..n], PeakDecline(path, n).1)
  {
    LargestOfBoth(path, n);
    NothingBelowZero(path, n);
  }

  /** Every positive point of the path has this one value. */
  predicate OneHeight(path: seq<real>, p: real) { forall i :: 0 <= i < |path| && path[i] > 0.0 ==> path[i] == p }

  /** Between non-negative points no decline exceeds the whole. */
  lemma DeclineAtMostAll(path: seq<real>, m: real)
    requires NonNegative(path) && LargestDecline(path, m)
    ensures m <= 100.0
  {
    if m != 0.0 {
      var i, j :| 0 <= i <= j < |path| && path[i] > 0.0 && Decline(path[i], path[j]) == m;
      DeclineIs(path[i], path[j]);
      QuotientSign(path[j], path[i]);
    }
  }

  /** A value below zero is a decline of more than the whole, and the more so from a lower start. */
  lemma DeclineBelowZero(a: real, p: real, x: real)
    requires 0.0 < a <= p && x < 0.0
    ensures Decline(p, x) > 100.0 && (a < p ==> Decline(a, x) > Decline(p, x))
  {
    DeclineIs(p, x);
    QuotientSign(x, p);
    if a < p { SteeperFromBelow(a, p, x); }
  }

  /** The peak's own decline covers every pair that ends in x exactly when no lower start was positive. */
  lemma FirstNegativePoint(path: seq<real>, x: real, p: real, m: real)
    requires NonNegative(path) && Peak(path, p) && LargestDecline(path, m) && p > 0.0 && x < 0.0
    ensures LargestDecline(path + [x], Max(m, Decline(p, x))) <==> OneHeight(path, p)
  {
    var all, n, m' := path + [x], |path|, Decline(p, x);
    DeclineAtMostAll(path, m);
    DeclineBelowZero(p, p, x);
    assert all[n] == x;
    if OneHeight(path, p) {
      forall i, j | 0 <= i <= j < |all| && all[i] > 0.0 ensures Decline(all[i], all[j]) <= m' {
        if j < n { assert Decline(path[i], path[j]) <= m; } else { assert all[i] == path[i]; }
      }
      var k :| 0 <= k < n && path[k] == p;
      assert Decline(all[k], all[n]) == m';
    } else {
      var i :| 0 <= i < n && path[i] > 0.0 && path[i] != p;
      DeclineBelowZero(path[i], p, x);
      assert Decline(all[i], all[n]) > m';
    }
  }

  /** What happens when equity first goes below zero, for every path up to there: the loop's figure is still
      the largest relative decline if and only if equity never had two different positive values. */
  lemma NegativeEquityIff(path: seq<real>, x: real)
    requires path != [] && NonNegative(path) && x < 0.0
    ensures LargestDecline(path + [x], PeakDecline(path + [x], |path| + 1).1)
            <==> OneHeight(path, PeakDecline(path, |path|).0)
  {
    var n := |path|;
    var p, m := PeakDecline(path, n).0, PeakDecline(path, n).1;
    assert path[..n] == path;
    PeakDeclineIsLargest(path, n);
    PeakDeclinePrefix(path, [x], n);
    if p > 0.0 {
      FirstNegativePoint(path, x, p, m);
    } else {
      assert forall i :: 0 <= i < n ==> path[i] <= p;
      assert m == 0.0;
    }
  }
}
