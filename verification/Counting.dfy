/** Sums of weights over a sequence of threads. */
module Counting {

  function Total<A>(weight: A -> nat, s: seq<A>): nat {
    if s == [] then 0 else Total(weight, s[..|s| - 1]) + weight(s[|s| - 1])
  }

  lemma {:induction false} TotalUpdate<A>(weight: A -> nat, s: seq<A>, i: nat, v: A)
    requires i < |s|
    ensures weight(s[i]) <= Total(weight, s)
    ensures Total(weight, s[i := v]) == Total(weight, s) - weight(s[i]) + weight(v)
  {
    var n := |s| - 1;
    var s' := s[i := v];
    if i == n {
      assert s'[..n] == s[..n];
    } else {
      TotalUpdate(weight, s[..n], i, v);
      assert s'[..n] == s[..n][i := v];
    }
  }

  lemma {:induction false} TotalAppend<A>(weight: A -> nat, s: seq<A>, v: A)
    ensures Total(weight, s + [v]) == Total(weight, s) + weight(v)
  {
    assert (s + [v])[..|s|] == s;
  }

  lemma {:induction false} TotalZero<A>(weight: A -> nat, s: seq<A>)
    ensures Total(weight, s) == 0 <==> forall i :: 0 <= i < |s| ==> weight(s[i]) == 0
  {
    if s != [] {
      TotalZero(weight, s[..|s| - 1]);
      assert forall i :: 0 <= i < |s| - 1 ==> s[..|s| - 1][i] == s[i];
    }
  }

  /** Two members with weight make the total at least their sum. */
  lemma {:induction false} TotalOfTwo<A>(weight: A -> nat, s: seq<A>, i: nat, j: nat)
    requires i < j < |s|
    ensures weight(s[i]) + weight(s[j]) <= Total(weight, s)
  {
    var n := |s| - 1;
    if j < n {
      TotalOfTwo(weight, s[..n], i, j);
    } else {
      TotalUpdate(weight, s[..n], i, s[i]);
    }
  }
}
