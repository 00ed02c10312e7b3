/** The blocking queues as objects. While a caller sleeps on the condition variable the mutex is
    free, so other threads run their own critical sections; a `Wake` lists those of one sleep.
    `Monitor` treats the same protocol with all threads explicit. */
module Messaging {
  import opened Options

  /** A critical section of another thread. */
  datatype Section<M> = Put(m: M) | Take | Discard

  /** One sleep: what others did meanwhile, and whether the caller may give up at the check that
      follows (the timeout has passed, or the stop predicate holds). */
  datatype Wake<M> = Wake(sections: seq<Section<M>>, giveUp: bool)

  /** `Blocked`: the schedule ended with the caller still asleep. */
  datatype Outcome<M> = Got(m: M) | Nothing | Blocked

  function After<M>(q: seq<M>, sections: seq<Section<M>>): seq<M>
    decreases |sections|
  {
    if sections == [] then q
    else
      var q' := match sections[0]
        case Put(m) => q + [m]
        case Take => if q == [] then [] else q[1..]
        case Discard => [];
      After(q', sections[1..])
  }

  /** What these critical sections add, and what they take out or discard, in order. */
  function PutsOf<M>(sections: seq<Section<M>>): seq<M> {
    if sections == [] then []
    else (if sections[0].Put? then [sections[0].m] else []) + PutsOf(sections[1..])
  }

  function TakenOf<M>(q: seq<M>, sections: seq<Section<M>>): seq<M>
    decreases |sections|
  {
    if sections == [] then []
    else match sections[0]
      case Put(m) => TakenOf(q + [m], sections[1..])
      case Take => if q == [] then TakenOf([], sections[1..]) else [q[0]] + TakenOf(q[1..], sections[1..])
      case Discard => q + TakenOf([], sections[1..])
  }

  /** Whatever others do, what was there and what they add is taken out or left, in order. */
  lemma {:induction false} SectionsConserve<M>(q: seq<M>, sections: seq<Section<M>>)
    ensures q + PutsOf(sections) == TakenOf(q, sections) + After(q, sections)
    decreases |sections|
  {
    if sections != [] {
      var rest := sections[1..];
      match sections[0]
      case Put(m) =>
        SectionsConserve(q + [m], rest);
        assert q + ([m] + PutsOf(rest)) == (q + [m]) + PutsOf(rest);
      case Take =>
        if q == [] {
          SectionsConserve([], rest);
          assert q + ([] + PutsOf(rest)) == [] + PutsOf(rest);
        } else {
          SectionsConserve(q[1..], rest);
          assert q + ([] + PutsOf(rest)) == [q[0]] + (q[1..] + PutsOf(rest));
        }
      case Discard =>
        SectionsConserve([], rest);
        assert q + ([] + PutsOf(rest)) == q + ([] + PutsOf(rest));
    }
  }

  /** Others only add. */
  lemma {:induction false} PutsTakeNothing<M>(q: seq<M>, sections: seq<Section<M>>)
    requires forall i :: 0 <= i < |sections| ==> sections[i].Put?
    ensures TakenOf(q, sections) == []
    decreases |sections|
  {
    if sections != [] {
      PutsTakeNothing(q + [sections[0].m], sections[1..]);
    }
  }

  /** The outcome of a predicate wait and the queue it leaves. */
  function Await<M>(q: seq<M>, giveUp: bool, wakes: seq<Wake<M>>): (Outcome<M>, seq<M>)
    decreases |wakes|
  {
    if q != [] then (Got(q[0]), q[1..])
    else if giveUp then (Nothing, [])
    else if wakes == [] then (Blocked, [])
    else Await(After([], wakes[0].sections), wakes[0].giveUp, wakes[1..])
  }

  /** A wait whose schedule, when it runs out, ends in the timeout. */
  function TimedAwait<M>(q: seq<M>, wakes: seq<Wake<M>>): (Option<M>, seq<M>) {
    var (o, rest) := Await(q, false, wakes + [Wake([], true)]);
    (if o.Got? then Some(o.m) else None, rest)
  }

  /** The queue and the permission to give up as found by check `k`. */
  function QueueAt<M>(q: seq<M>, wakes: seq<Wake<M>>, k: nat): seq<M>
    requires k <= |wakes|
  {
    if k == 0 then q else After([], wakes[k - 1].sections)
  }

  function GiveUpAt<M>(giveUp: bool, wakes: seq<Wake<M>>, k: nat): bool
    requires k <= |wakes|
  {
    if k == 0 then giveUp else wakes[k - 1].giveUp
  }

  ghost predicate KeepsWaiting<M>(q: seq<M>, giveUp: bool, wakes: seq<Wake<M>>, k: nat)
    requires k <= |wakes|
  {
    QueueAt(q, wakes, k) == [] && !GiveUpAt(giveUp, wakes, k)
  }

  /** The first check that does not go back to sleep decides: an item there is returned even if the
      caller may give up, and nothing is returned only when that check finds the queue empty. */
  lemma {:induction false} FirstSuccessfulCheckDecides<M>(q: seq<M>, giveUp: bool, wakes: seq<Wake<M>>, k: nat)
    requires k <= |wakes|
    requires forall j: nat :: j < k ==> KeepsWaiting(q, giveUp, wakes, j)
    ensures var s := QueueAt(q, wakes, k);
            && (s != [] ==> Await(q, giveUp, wakes) == (Got(s[0]), s[1..]))
            && (s == [] && GiveUpAt(giveUp, wakes, k) ==> Await(q, giveUp, wakes) == (Nothing, []))
            && (KeepsWaiting(q, giveUp, wakes, k) && k == |wakes| ==> Await(q, giveUp, wakes) == (Blocked, []))
    decreases k
  {
    if k > 0 {
      assert KeepsWaiting(q, giveUp, wakes, 0);
      var q', g', w' := After([], wakes[0].sections), wakes[0].giveUp, wakes[1..];
      forall j: nat | j < k - 1
        ensures KeepsWaiting(q', g', w', j)
      {
        assert KeepsWaiting(q, giveUp, wakes, j + 1);
      }
      FirstSuccessfulCheckDecides(q', g', w', k - 1);
    }
  }

  class MessageQueue<M> {
    var queue: seq<M>

    constructor ()
      ensures queue == []
    {
      queue := [];
    }

    method Push(m: M)
      modifies this
      ensures queue == old(queue) + [m]
    {
      queue := queue + [m];
    }

    method Pop() returns (r: Option<M>)
      modifies this
      ensures old(queue) == [] ==> r == None && queue == []
      ensures old(queue) != [] ==> r.Some? && [r.value] + queue == old(queue)
    {
      if queue == [] {
        return None;
      }
      r := Some(queue[0]);
      queue := queue[1..];
    }

    method TryPop() returns (r: Option<M>)
      modifies this
      ensures old(queue) == [] ==> r == None && queue == []
      ensures old(queue) != [] ==> r.Some? && [r.value] + queue == old(queue)
    {
      r := Pop();
    }

    /** Other threads' critical sections, one after another. */
    method Interfere(sections: seq<Section<M>>)
      modifies this
      ensures queue == After(old(queue), sections)
    {
      for i := 0 to |sections|
        invariant After(old(queue), sections) == After(queue, sections[i..])
      {
        match sections[i]
        case Put(m) => Push(m);
        case Take => var _ := TryPop();
        case Discard => Clear();
      }
    }

    /** `wait()`: no way out but an item. */
    method Wait(wakes: seq<Wake<M>>) returns (r: Outcome<M>)
      requires forall i :: 0 <= i < |wakes| ==> !wakes[i].giveUp
      modifies this
      ensures (r, queue) == Await(old(queue), false, wakes)
      ensures !r.Nothing?
    {
      r := Sleep(false, wakes);
      AwaitNothingNeedsPermission(old(queue), false, wakes);
    }

    /** `wait_for(duration)`: a schedule that runs out ends in the timeout. */
    method WaitFor(wakes: seq<Wake<M>>) returns (r: Option<M>)
      modifies this
      ensures (r, queue) == TimedAwait(old(queue), wakes)
      ensures r.None? ==> queue == []
    {
      var o := Sleep(false, wakes + [Wake([], true)]);
      AwaitEndsAtPermission(old(queue), false, wakes + [Wake([], true)]);
      return if o.Got? then Some(o.m) else None;
    }

    /** The condition-variable loop around the predicate. */
    method Sleep(mayGiveUp: bool, wakes: seq<Wake<M>>) returns (r: Outcome<M>)
      modifies this
      ensures (r, queue) == Await(old(queue), mayGiveUp, wakes)
    {
      var i := 0;
      var giveUp := mayGiveUp;
      while queue == [] && !giveUp && i < |wakes|
        invariant i <= |wakes|
        invariant Await(old(queue), mayGiveUp, wakes) == Await(queue, giveUp, wakes[i..])
      {
        Interfere(wakes[i].sections);
        giveUp := wakes[i].giveUp;
        i := i + 1;
      }
      if queue == [] {
        return if giveUp then Nothing else Blocked;
      }
      var item := Pop();
      return Got(item.value);
    }

    method Clear()
      modifies this
      ensures queue == []
    {
      queue := [];
    }

    method Empty() returns (r: bool)
      ensures r <==> queue == []
    {
      return queue == [];
    }
  }

  lemma {:induction false} AwaitNothingNeedsPermission<M>(q: seq<M>, giveUp: bool, wakes: seq<Wake<M>>)
    ensures Await(q, giveUp, wakes).0.Nothing? ==>
              Await(q, giveUp, wakes).1 == [] && (giveUp || exists i :: 0 <= i < |wakes| && wakes[i].giveUp)
    decreases |wakes|
  {
    if q == [] && !giveUp && wakes != [] {
      AwaitNothingNeedsPermission(After([], wakes[0].sections), wakes[0].giveUp, wakes[1..]);
    }
  }

  /** A caller that may give up at the last check is never left asleep. */
  lemma {:induction false} AwaitEndsAtPermission<M>(q: seq<M>, giveUp: bool, wakes: seq<Wake<M>>)
    requires if wakes == [] then giveUp else wakes[|wakes| - 1].giveUp
    ensures !Await(q, giveUp, wakes).0.Blocked?
    ensures Await(q, giveUp, wakes).0.Nothing? ==> Await(q, giveUp, wakes).1 == []
    decreases |wakes|
  {
    if q == [] && !giveUp && wakes != [] {
      AwaitEndsAtPermission(After([], wakes[0].sections), wakes[0].giveUp, wakes[1..]);
    }
  }

  /** A handle on a queue it does not own; without one, messages are dropped. */
  class Sender<M> {
    const target: MessageQueue?<M>

    constructor (target: MessageQueue?<M>)
      ensures this.target == target
    {
      this.target := target;
    }

    method EnsureQueueAvailable() returns (r: bool)
      ensures r <==> target != null
    {
      return target != null;
    }

    method Send(m: M)
      modifies target
      ensures target != null ==> target.queue == old(target.queue) + [m]
    {
      var available := EnsureQueueAvailable();
      if !available {
        return;
      }
      target.Push(m);
    }
  }

  class ThreadSafeQueue<T> {
    var queue: seq<T>

    constructor ()
      ensures queue == []
    {
      queue := [];
    }

    method Push(value: T)
      modifies this
      ensures queue == old(queue) + [value]
    {
      queue := queue + [value];
    }

    method TryPop() returns (r: Option<T>)
      modifies this
      ensures old(queue) == [] ==> r == None && queue == []
      ensures old(queue) != [] ==> r.Some? && [r.value] + queue == old(queue)
    {
      if queue == [] {
        return None;
      }
      r := Some(queue[0]);
      queue := queue[1..];
    }

    method Interfere(sections: seq<Section<T>>)
      requires Discard !in sections          // this queue has no clear
      modifies this
      ensures queue == After(old(queue), sections)
    {
      for i := 0 to |sections|
        invariant After(old(queue), sections) == After(queue, sections[i..])
      {
        match sections[i]
        case Put(m) => Push(m);
        case Take => var _ := TryPop();
      }
    }

    /** `stop` and the `giveUp` of each wake are the readings of the stop predicate. */
    method WaitPop(stop: bool, wakes: seq<Wake<T>>) returns (r: Outcome<T>)
      requires forall i :: 0 <= i < |wakes| ==> Discard !in wakes[i].sections
      modifies this
      ensures (r, queue) == Await(old(queue), stop, wakes)
    {
      var i := 0;
      var stopped := stop;
      while queue == [] && !stopped && i < |wakes|
        invariant i <= |wakes|
        invariant Await(old(queue), stop, wakes) == Await(queue, stopped, wakes[i..])
      {
        Interfere(wakes[i].sections);
        stopped := wakes[i].giveUp;
        i := i + 1;
      }
      if queue == [] {
        return if stopped then Nothing else Blocked;
      }
      r := Got(queue[0]);
      queue := queue[1..];
    }
  }

  /** The results of repeated `waitPop` calls with the stop predicate permanently true, where
      `gaps[i]` is what producers add just before call `i`. */
  function StoppedCalls<T>(q: seq<T>, gaps: seq<seq<T>>): (calls: seq<Outcome<T>>)
    ensures |calls| == |gaps|
    decreases |gaps|
  {
    if gaps == [] then []
    else
      var (r, q') := Await(q + gaps[0], true, []);
      [r] + StoppedCalls(q', gaps[1..])
  }

  function Concat<T>(parts: seq<seq<T>>): seq<T> {
    if parts == [] then [] else parts[0] + Concat(parts[1..])
  }

  /** Stopping drains: as long as call after call returns an item these are the queued items in
      order, and the first empty result comes only when everything added so far has been returned. */
  lemma {:induction false} StoppedQueueDrainsInOrder<T>(q: seq<T>, gaps: seq<seq<T>>, n: nat)
    requires n < |gaps|
    requires forall i :: 0 <= i < n ==> StoppedCalls(q, gaps)[i].Got?
    ensures var added := q + Concat(gaps[..n + 1]);
            && n <= |added|
            && (forall i :: 0 <= i < n ==> StoppedCalls(q, gaps)[i] == Got(added[i]))
            && StoppedCalls(q, gaps)[n] == if n < |added| then Got(added[n]) else Nothing
    decreases |gaps|
  {
    var q0 := q + gaps[0];
    var (r, q') := Await(q0, true, []);
    if n == 0 {
      assert gaps[..1] == [gaps[0]] && Concat(gaps[..1]) == gaps[0] + Concat([]);
      assert q + Concat(gaps[..1]) == q0;
    } else {
      assert StoppedCalls(q, gaps)[0] == r;
      forall i | 0 <= i < n - 1
        ensures StoppedCalls(q', gaps[1..])[i].Got?
      {
        assert StoppedCalls(q, gaps)[i + 1].Got?;
      }
      StoppedQueueDrainsInOrder(q', gaps[1..], n - 1);
      assert gaps[..n + 1][0] == gaps[0] && gaps[..n + 1][1..] == gaps[1..][..n];
      var rest := q' + Concat(gaps[1..][..n]);
      assert q + Concat(gaps[..n + 1]) == q0 + Concat(gaps[1..][..n]) == [q0[0]] + rest;
    }
  }
}
