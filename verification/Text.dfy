/** Stripping, case and order of strings, for the ASCII characters. */
module Text {

  predicate Space(c: char) { c == ' ' || 9 <= c as int <= 13 || 28 <= c as int <= 31 }

  function StripLeft(s: string): string { if s != "" && Space(s[0]) then StripLeft(s[1..]) else s }

  function StripRight(s: string): string { if s != "" && Space(s[|s| - 1]) then StripRight(s[..|s| - 1]) else s }

  function Strip(s: string): string { StripRight(StripLeft(s)) }

  /** Neither end is blank. */
  predicate Stripped(s: string) { s != "" ==> !Space(s[0]) && !Space(s[|s| - 1]) }

  lemma {:induction false} StripLeftFacts(s: string)
    ensures StripLeft(s) != "" ==> !Space(StripLeft(s)[0])
    ensures StripLeft(s) == s <==> s == "" || !Space(s[0])
    ensures |StripLeft(s)| <= |s|
  {
    if s != "" && Space(s[0]) { StripLeftFacts(s[1..]); }
  }

  lemma {:induction false} StripRightFacts(s: string)
    ensures StripRight(s) != "" ==> !Space(StripRight(s)[|StripRight(s)| - 1]) && StripRight(s)[0] == s[0]
    ensures StripRight(s) == s <==> s == "" || !Space(s[|s| - 1])
    ensures |StripRight(s)| <= |s|
  {
    if s != "" && Space(s[|s| - 1]) { StripRightFacts(s[..|s| - 1]); }
  }

  /** Stripping gives a stripped string, and changes exactly the others. */
  lemma StripFacts(s: string)
    ensures Stripped(Strip(s)) && Strip(Strip(s)) == Strip(s)
    ensures Strip(s) == s <==> Stripped(s)
  {
    StripLeftFacts(s);
    StripRightFacts(StripLeft(s));
    StripLeftFacts(Strip(s));
    StripRightFacts(Strip(s));
  }

  function UpperChar(c: char): char { if 'a' <= c <= 'z' then (c as int - 32) as char else c }

  function Upper(s: string): string { seq(|s|, i requires 0 <= i < |s| => UpperChar(s[i])) }

  function LowerChar(c: char): char { if 'A' <= c <= 'Z' then (c as int + 32) as char else c }

  function Lower(s: string): string { seq(|s|, i requires 0 <= i < |s| => LowerChar(s[i])) }

  /** Lexicographic order. */
  predicate Leq(a: string, b: string)
  {
    a == "" || (b != "" && (a[0] < b[0] || (a[0] == b[0] && Leq(a[1..], b[1..]))))
  }

  lemma {:induction false} LeqTotal(a: string, b: string)
    ensures Leq(a, b) || Leq(b, a)
    ensures Leq(a, b) && Leq(b, a) ==> a == b
  {
    if a != "" && b != "" && a[0] == b[0] {
      LeqTotal(a[1..], b[1..]);
      assert a == [a[0]] + a[1..] && b == [b[0]] + b[1..];
    }
  }

  lemma {:induction false} LeqTransitive(a: string, b: string, c: string)
    requires Leq(a, b) && Leq(b, c)
    ensures Leq(a, c)
  {
    if a != "" && a[0] == b[0] == c[0] { LeqTransitive(a[1..], b[1..], c[1..]); }
  }

  predicate IsLeast(k: string, keys: set<string>) { k in keys && forall x :: x in keys ==> Leq(k, x) }

  lemma {:induction false} LeastExists(keys: set<string>) returns (k: string)
    requires keys != {}
    ensures IsLeast(k, keys)
  {
    var x :| x in keys;
    var rest := keys - {x};
    LeqTotal(x, x);
    k := x;
    if rest != {} {
      var m := LeastExists(rest);
      LeqTotal(x, m);
      if Leq(m, x) {
        k := m;
      } else {
        forall y | y in rest ensures Leq(x, y) { LeqTransitive(x, m, y); }
      }
    }
    assert forall y :: y in keys ==> y == x || y in rest;
  }

  function Least(keys: set<string>): string
    requires keys != {}
    ensures IsLeast(Least(keys), keys)
  {
    assert exists k :: IsLeast(k, keys) by { var k := LeastExists(keys); }
    assert forall j, k :: IsLeast(j, keys) && IsLeast(k, keys) ==> j == k by {
      forall j, k | IsLeast(j, keys) && IsLeast(k, keys) ensures j == k { LeqTotal(j, k); }
    }
    var k :| k in keys && IsLeast(k, keys);
    k
  }

  /** The keys in order. */
  function SortedKeys(keys: set<string>): (r: seq<string>)
    ensures forall k :: k in r <==> k in keys
    ensures forall i, j :: 0 <= i < j < |r| ==> r[i] != r[j] && Leq(r[i], r[j])
  {
    if keys == {} then []
    else
      var k := Least(keys);
      [k] + SortedKeys(keys - {k})
  }

  /** The characters that stripping takes off: tab to carriage return, the four separators and the blank. */
  lemma SpaceIs(c: char)
    ensures Space(c) <==> c as int in {9, 10, 11, 12, 13, 28, 29, 30, 31, 32}
  {
  }

  predicate Blank(s: string) { forall i :: 0 <= i < |s| ==> Space(s[i]) }

  lemma {:induction false} StripLeftIs(s: string) returns (x: string)
    ensures s == x + StripLeft(s) && Blank(x)
  {
    if s != "" && Space(s[0]) {
      x := StripLeftIs(s[1..]);
      x := [s[0]] + x;
      assert s == [s[0]] + s[1..];
    } else {
      x := "";
    }
  }

  lemma {:induction false} StripRightIs(s: string) returns (y: string)
    ensures s == StripRight(s) + y && Blank(y)
  {
    if s != "" && Space(s[|s| - 1]) {
      y := StripRightIs(s[..|s| - 1]);
      y := y + [s[|s| - 1]];
      assert s == s[..|s| - 1] + [s[|s| - 1]];
    } else {
      y := "";
    }
  }

  /** Stripping takes off blank ends and nothing else. */
  lemma StripIs(s: string) returns (x: string, y: string)
    ensures s == x + Strip(s) + y && Blank(x) && Blank(y) && Stripped(Strip(s))
  {
    x := StripLeftIs(s);
    y := StripRightIs(StripLeft(s));
    StripFacts(s);
  }

  /** At position i the strings differ for the first time, and a has the smaller character. */
  predicate SmallerAt(a: string, b: string, i: nat) { i < |a| && i < |b| && a[..i] == b[..i] && a[i] < b[i] }

  /** A string comes no later than another when it is a prefix of it or the first difference says so. */
  lemma {:induction false} LeqIff(a: string, b: string)
    ensures Leq(a, b) <==> a <= b || exists i: nat :: SmallerAt(a, b, i)
  {
    if a != "" && b != "" {
      var c, d := a[1..], b[1..];
      LeqIff(c, d);
      assert a == [a[0]] + c && b == [b[0]] + d;
      if a[0] < b[0] { assert SmallerAt(a, b, 0); }
      if a[0] == b[0] && exists i: nat :: SmallerAt(c, d, i) {
        var i: nat :| SmallerAt(c, d, i);
        assert a[..i + 1] == [a[0]] + c[..i] && b[..i + 1] == [b[0]] + d[..i];
        assert SmallerAt(a, b, i + 1);
      }
      if exists i: nat :: SmallerAt(a, b, i) {
        var i: nat :| SmallerAt(a, b, i);
        if i > 0 {
          assert a[..i][0] == b[..i][0];
          assert c[..i - 1] == a[..i][1..] && d[..i - 1] == b[..i][1..];
          assert SmallerAt(c, d, i - 1);
        }
      }
    }
  }
}
