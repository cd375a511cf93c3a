/** Small things every module shares. */
module Common {

  datatype Option<+T> = None | Some(value: T)

  function Max(x: real, y: real): real { if x >= y then x else y }

  function Min(x: real, y: real): real { if x <= y then x else y }

  /** At most the last n elements. */
  function Last<T>(s: seq<T>, n: nat): seq<T> { if |s| <= n then s else s[|s| - n..] }

  predicate Unique<T(==)>(s: seq<T>) { forall i, j :: 0 <= i < j < |s| ==> s[i] != s[j] }

  lemma UniqueAppend<T>(s: seq<T>, x: T)
    requires Unique(s)
    ensures Unique(s + [x]) <==> x !in s
  {
    var all := s + [x];
    if x in s {
      var i :| 0 <= i < |s| && s[i] == x;
      assert all[i] == all[|s|];
    }
  }

  function Abs(x: real): real { if x < 0.0 then -x else x }
}
