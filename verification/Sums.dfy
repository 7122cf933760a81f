/** Adding up a weight over a sequence. */
module Sums {
  function Sum<T>(s: seq<T>, weight: T -> nat): nat {
    if s == [] then 0 else Sum(s[..|s| - 1], weight) + weight(s[|s| - 1])
  }

  lemma {:induction false} SumUpdate<T>(s: seq<T>, i: nat, v: T, weight: T -> nat)
    requires i < |s|
    ensures Sum(s[i := v], weight) == Sum(s, weight) - weight(s[i]) + weight(v)
    ensures weight(s[i]) <= Sum(s, weight)
  {
    var n := |s| - 1;
    if i < n {
      SumUpdate(s[..n], i, v, weight);
      assert s[i := v][..n] == s[..n][i := v];
    } else {
      assert s[i := v][..n] == s[..n];
    }
  }

  lemma SumAppend<T>(s: seq<T>, v: T, weight: T -> nat)
    ensures Sum(s + [v], weight) == Sum(s, weight) + weight(v)
  {
    assert (s + [v])[..|s|] == s;
  }

  lemma {:induction false} SumPointwise<T>(s: seq<T>, r: seq<T>, weight: T -> nat)
    requires |s| == |r| && forall i :: 0 <= i < |s| ==> weight(r[i]) <= weight(s[i])
    ensures Sum(r, weight) <= Sum(s, weight)
    ensures (forall i :: 0 <= i < |s| ==> weight(r[i]) == weight(s[i])) ==> Sum(r, weight) == Sum(s, weight)
  {
    if s != [] {
      SumPointwise(s[..|s| - 1], r[..|s| - 1], weight);
    }
  }

  lemma {:induction false} SumPositive<T>(s: seq<T>, weight: T -> nat) returns (i: nat)
    requires Sum(s, weight) > 0
    ensures i < |s| && weight(s[i]) > 0
  {
    var n := |s| - 1;
    if weight(s[n]) > 0 {
      i := n;
    } else {
      i := SumPositive(s[..n], weight);
    }
  }
}
