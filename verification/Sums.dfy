/** Finite sums of a figure over a list, and their independence of order. */
module Sums {

  function Sum<T>(f: T -> real, s: seq<T>): real
  {
    if s == [] then 0.0 else Sum(f, s[..|s| - 1]) + f(s[|s| - 1])
  }

  lemma SumAppend<T>(f: T -> real, s: seq<T>, x: T)
    ensures Sum(f, s + [x]) == Sum(f, s) + f(x)
  {
  }

  lemma RemoveEarly<T>(s: seq<T>, i: nat)
    requires i < |s| - 1
    ensures var u := s[..|s| - 1]; s[..i] + s[i + 1..] == (u[..i] + u[i + 1..]) + [s[|s| - 1]]
  {
  }

  lemma {:induction false} SumRemove<T>(f: T -> real, s: seq<T>, i: nat)
    requires i < |s|
    ensures Sum(f, s) == Sum(f, s[..i] + s[i + 1..]) + f(s[i])
  {
    var n := |s| - 1;
    if i == n {
      assert s[..i] + s[i + 1..] == s[..n];
    } else {
      var u := s[..n];
      SumRemove(f, u, i);
      RemoveEarly(s, i);
      SumAppend(f, u[..i] + u[i + 1..], s[n]);
    }
  }

  /** One element taken out of both sides of a permutation leaves a permutation. */
  lemma PermutationStep<T>(s: seq<T>, t: seq<T>) returns (i: nat)
    requires multiset(s) == multiset(t) && s != []
    ensures i < |t| && t[i] == s[|s| - 1]
    ensures multiset(s[..|s| - 1]) == multiset(t[..i] + t[i + 1..])
  {
    var n := |s| - 1;
    assert s[n] in multiset(t);
    i :| i < |t| && t[i] == s[n];
    assert s == s[..n] + [s[n]];
    assert t == t[..i] + [t[i]] + t[i + 1..];
    assert multiset(t[..i] + t[i + 1..]) == multiset(t) - multiset{s[n]};
    assert multiset(s[..n]) == multiset(s) - multiset{s[n]};
  }

  /** A sum does not depend on the order of the list. */
  lemma {:induction false} SumPermutes<T>(f: T -> real, s: seq<T>, t: seq<T>)
    requires multiset(s) == multiset(t)
    ensures Sum(f, s) == Sum(f, t)
  {
    if s == [] {
      assert |multiset(t)| == 0;
    } else {
      var i := PermutationStep(s, t);
      SumPermutes(f, s[..|s| - 1], t[..i] + t[i + 1..]);
      SumRemove(f, t, i);
    }
  }
}
