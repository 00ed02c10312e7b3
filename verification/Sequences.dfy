/** Sequences of optional values, and regrouping of sequences. */
module Sequences {
  import opened Options

  /** The values among optional ones, in order. */
  function Present<T>(cs: seq<Option<T>>): seq<T> {
    if cs == [] then []
    else
      var n := |cs| - 1;
      Present(cs[..n]) + if cs[n].Some? then [cs[n].value] else []
  }

  lemma Regrouped<T>(a: seq<T>, b: seq<T>, c: seq<T>)
    ensures (a + b) + c == a + (b + c)
  {
  }

  /** What was taken and what is left make up what there was; so they do after one more exchange. */
  lemma Rearrange<T>(taken: seq<T>, b: seq<T>, q: seq<T>, accepted: seq<T>,
                     more: seq<T>, popped: seq<T>, rest: seq<T>)
    requires taken + b == q + accepted
    requires b + more == popped + rest
    ensures (taken + popped) + rest == q + (accepted + more)
  {
    assert (taken + popped) + rest == taken + (b + more) == (taken + b) + more;
    assert (q + accepted) + more == q + (accepted + more);
  }

  /** Sequences that begin empty and grow by one optional value at a time end with the values present. */
  lemma {:induction false} PresentAccumulates<T>(cs: seq<Option<T>>, grown: seq<seq<T>>)
    requires |grown| == |cs| + 1 && grown[0] == []
    requires forall k :: 0 <= k < |cs| ==> grown[k + 1] == grown[k] + if cs[k].Some? then [cs[k].value] else []
    ensures grown[|cs|] == Present(cs)
    decreases |cs|
  {
    if cs != [] {
      var n := |cs| - 1;
      PresentAccumulates(cs[..n], grown[..n + 1]);
    }
  }
}
