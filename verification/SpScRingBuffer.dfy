/** The single-producer single-consumer ring buffer as one object: the slots are an
    array written in place, and the bounded queue it stands for is `Contents()`.
    The interleaved, weakly ordered execution of `push` and `pop` is in `SpScAtomic`. */
module SpScRing {
  import opened Options
  import opened IndexMask

  /** What happens during one sleep of `wait_pop_for`: the values the producer offers
      meanwhile, and whether the sleep ends because the timeout has passed. A sleep that
      does not time out ends by a notification or spuriously; the consumer cannot tell. */
  datatype Sleep<T> = Sleep(offered: seq<T>, timedOut: bool)

  /** Bounded append: the values of `offered` that find room are taken in order. */
  function Offer<T>(q: seq<T>, limit: nat, offered: seq<T>): seq<T> {
    if |q| >= limit then q else q + offered[..Min(limit - |q|, |offered|)]
  }

  function Min(a: nat, b: nat): nat {
    if a <= b then a else b
  }

  /** The outcome of `wait_pop_for` on queue `q`: the value popped, if any, and the queue left.
      A schedule that runs out ends in the timeout. */
  function WaitPop<T>(q: seq<T>, limit: nat, sleeps: seq<Sleep<T>>): (r: (Option<T>, seq<T>))
    decreases |sleeps|
  {
    if q != [] then (Some(q[0]), q[1..])
    else if sleeps == [] then (None, [])
    else if sleeps[0].timedOut then WaitPop(Offer(q, limit, sleeps[0].offered), limit, [])
    else WaitPop(Offer(q, limit, sleeps[0].offered), limit, sleeps[1..])
  }

  /** How many sleeps can matter: everything up to and including the first timeout. */
  function Horizon<T>(sleeps: seq<Sleep<T>>): (n: nat)
    ensures n <= |sleeps|
  {
    if sleeps == [] then 0
    else if sleeps[0].timedOut then 1
    else 1 + Horizon(sleeps[1..])
  }

  /** A timed wait comes back empty-handed exactly when nothing was there at the start and
      nothing could be stored in any sleep up to the timeout, so a value published without
      a notification (the producer notifies outside the mutex) is still picked up. */
  lemma {:induction false} WaitPopFailsOnlyOnSilence<T>(q: seq<T>, limit: nat, sleeps: seq<Sleep<T>>)
    ensures WaitPop(q, limit, sleeps).0.None? <==>
            q == [] && forall i :: 0 <= i < Horizon(sleeps) ==> limit == 0 || sleeps[i].offered == []
    decreases |sleeps|
  {
    if q == [] && sleeps != [] {
      var q' := Offer(q, limit, sleeps[0].offered);
      assert q' == [] <==> limit == 0 || sleeps[0].offered == [];
      var rest := if sleeps[0].timedOut then [] else sleeps[1..];
      WaitPopFailsOnlyOnSilence(q', limit, rest);
      assert forall i :: 0 < i < Horizon(sleeps) ==> sleeps[i] == rest[i - 1];
      assert forall i :: 0 <= i < Horizon(rest) ==> rest[i] == sleeps[i + 1];
    }
  }

  class SpScRingBuffer<T(0)> {
    var buffer: array<T>
    var capacity: nat
    var mask: nat
    var head: nat
    var tail: nat
    var initialized: bool

    ghost predicate Valid()
      reads this
    {
      && (!initialized ==> capacity == 0 && head == 0 && tail == 0)
      && (initialized ==>
            && IsPow2(capacity) && mask == capacity - 1
            && buffer.Length == capacity
            && head < capacity && tail < capacity)
    }

    /** The values from tail to head, oldest first. */
    ghost function Contents(): (s: seq<T>)
      reads this, buffer
      requires Valid()
      ensures initialized ==> |s| < capacity
    {
      if !initialized then []
      else if tail <= head then buffer[tail..head]
      else buffer[tail..] + buffer[..head]
    }

    /** How many values fit: one slot always stays free. */
    ghost function Limit(): nat
      reads this
    {
      if initialized && capacity > 0 then capacity - 1 else 0
    }

    constructor ()
      ensures Valid() && !initialized && Contents() == [] && fresh(buffer)
    {
      buffer := new T[0];
      capacity, mask, head, tail, initialized := 0, 0, 0, 0, false;
    }

    /** The vector's `resize`: the elements there are room for are kept. */
    method Resize(n: nat)
      modifies this`buffer
      ensures buffer.Length == n && fresh(buffer)
      ensures forall k :: 0 <= k < n && k < old(buffer.Length) ==> buffer[k] == old(buffer[k])
    {
      var previous := buffer;
      buffer := new T[n];
      for i := 0 to Min(previous.Length, n)
        invariant fresh(buffer) && buffer.Length == n && previous == old(buffer)
        invariant forall k :: 0 <= k < i ==> buffer[k] == old(previous[k])
      {
        buffer[i] := previous[i];
      }
    }

    method Init(capacityPowerOfTwo: nat) returns (ok: bool)
      requires Valid()
      modifies this
      ensures Valid()
      ensures ok <==> IsPow2(capacityPowerOfTwo)
      ensures ok ==> initialized && capacity == capacityPowerOfTwo && Contents() == [] && fresh(buffer)
      ensures !ok ==> unchanged(this)
    {
      TestAcceptsExactlyPowersOfTwo(capacityPowerOfTwo);
      if capacityPowerOfTwo == 0 {
        return false;
      }
      if And(capacityPowerOfTwo, capacityPowerOfTwo - 1) != 0 {
        return false;
      }
      Resize(capacityPowerOfTwo);
      capacity := capacityPowerOfTwo;
      mask := capacityPowerOfTwo - 1;
      head := 0;
      tail := 0;
      initialized := true;
      return true;
    }

    /** The masked increment. */
    method Next(i: nat) returns (next: nat)
      requires Valid() && initialized && i < capacity
      ensures next == if i + 1 == capacity then 0 else i + 1
    {
      NextIndex(capacity, i);
      next := And(i + 1, mask);
    }

    method Push(value: T) returns (ok: bool)
      requires Valid()
      modifies this`head, buffer
      ensures Valid()
      ensures ok <==> old(|Contents()|) < Limit()
      ensures Contents() == if ok then old(Contents()) + [value] else old(Contents())
    {
      if !initialized {
        return false;
      }
      var next := Next(head);
      if next == tail {
        return false;
      }
      buffer[head] := value;
      head := next;
      return true;
    }

    method Pop() returns (out: Option<T>)
      requires Valid()
      modifies this`tail
      ensures Valid()
      ensures out == if old(Contents()) == [] then None else Some(old(Contents())[0])
      ensures Contents() == if old(Contents()) == [] then [] else old(Contents())[1..]
    {
      if !initialized {
        return None;
      }
      if tail == head {
        return None;
      }
      out := Some(buffer[tail]);
      var next := Next(tail);
      tail := next;
    }

    /** `empty()` holds of an uninitialized buffer too. */
    method Empty() returns (r: bool)
      requires Valid()
      ensures r <==> Contents() == []
    {
      if !initialized {
        return true;
      }
      return tail == head;
    }

    /** `full()` is false of an uninitialized buffer; with capacity 1 it is true of the empty one. */
    method Full() returns (r: bool)
      requires Valid()
      ensures r <==> initialized && |Contents()| == Limit()
    {
      if !initialized {
        return false;
      }
      var next := Next(head);
      return next == tail;
    }

    /** The producer's pushes during one sleep; it learns nothing here from a rejected one. */
    method OfferAll(values: seq<T>)
      requires Valid()
      modifies this`head, buffer
      ensures Valid()
      ensures Contents() == Offer(old(Contents()), Limit(), values)
    {
      for i := 0 to |values|
        invariant Valid() && buffer == old(buffer)
        invariant Limit() == old(Limit())
        invariant Contents() == Offer(old(Contents()), Limit(), values[..i])
      {
        ghost var before := Contents();
        var ok := Push(values[i]);
        OfferOneMore(old(Contents()), Limit(), values, i);
      }
      assert values[..|values|] == values;
    }

    /** Sleeps until the buffer is non-empty or the timeout has passed, then pops. */
    method WaitPopFor(sleeps: seq<Sleep<T>>) returns (out: Option<T>)
      requires Valid()
      modifies this`head, this`tail, buffer
      ensures Valid()
      ensures !initialized ==> out == None && Contents() == []
      ensures initialized ==> (out, Contents()) == WaitPop(old(Contents()), Limit(), sleeps)
    {
      if !initialized {
        return None;
      }
      var i := 0;
      var timeout := false;
      var isEmpty := Empty();
      while isEmpty && !timeout && i < |sleeps|
        invariant Valid() && buffer == old(buffer) && initialized && capacity == old(capacity)
        invariant i <= |sleeps|
        invariant isEmpty <==> Contents() == []
        invariant WaitPop(old(Contents()), Limit(), sleeps)
               == WaitPop(Contents(), Limit(), if timeout then [] else sleeps[i..])
      {
        OfferAll(sleeps[i].offered);
        timeout := sleeps[i].timedOut;
        i := i + 1;
        isEmpty := Empty();
      }
      if isEmpty {
        return None;
      }
      out := Pop();
    }
  }

  lemma OfferOneMore<T>(q: seq<T>, limit: nat, values: seq<T>, i: nat)
    requires i < |values|
    ensures var b := Offer(q, limit, values[..i]);
            Offer(q, limit, values[..i + 1]) == if |b| < limit then b + [values[i]] else b
  {
    if |q| < limit {
      var room := limit - |q|;
      assert values[..i][..Min(room, i)] == values[..Min(room, i)];
      assert values[..i + 1][..Min(room, i + 1)] == values[..Min(room, i + 1)];
      if i < room {
        assert values[..i + 1] == values[..i] + [values[i]];
      }
    }
  }
}
