/** `push`, `pop` and `wait_pop_for` split into their atomic loads, slot accesses and
    stores, run by one producer and one consumer in any interleaving.

    Memory is not assumed fresh. Each index keeps its whole modification order, and each
    store in it carries a release view: how many slot accesses its thread had made. An
    acquire load may return any entry not older than one the loading thread has already
    seen, and brings that entry's view along (section 31.4 [atomics.order] of
    ISO/IEC 14882:2020). A slot read may return any write to the slot that is not known to
    be overwritten. Two accesses to a slot race when the earlier one is not in the view of
    the thread that makes the later one. */
module SpScAtomic {
  import opened Options
  import opened Sequences
  import opened IndexMask

  /** A store to an index: the value stored and the number of slot accesses it releases. */
  datatype Published = Published(value: nat, view: nat)

  datatype Write<V> = Write(slot: nat, value: V)

  datatype Producer<V> =
    | PushIdle
    | PushLoading(head: nat, next: nat, value: V)
    | PushWriting(head: nat, next: nat, value: V)
    | PushStoring(next: nat, value: V)
    | PushNotifying

  datatype Consumer<V> =
    | PopIdle
    | Checking(timedOut: bool)            // evaluating the predicate of the timed wait
    | Asleep
    | Rechecking                          // the second emptiness test of wait_pop_for
    | PopLoading(tail: nat, waited: bool)
    | PopReading(tail: nat)
    | PopStoring(next: nat, got: V)

  datatype Ring<V> = Ring(
    cap: nat,
    blank: V,                             // what an unwritten slot holds
    slotWrites: seq<Write<V>>,            // every slot write, in the producer's program order
    slotReads: seq<nat>,                  // every slot read, in the consumer's program order
    heads: seq<Published>,                // modification order of m_head
    tails: seq<Published>,                // modification order of m_tail
    producer: Producer<V>,
    seenTail: nat,                        // newest entry of tails the producer has loaded
    freed: nat,                           // slot reads that happen before the producer's next step
    consumer: Consumer<V>,
    seenHead: nat,                        // newest entry of heads the consumer has loaded
    written: nat,                         // slot writes that happen before the consumer's next step
    accepted: seq<V>,                     // values whose push stored the head
    delivered: seq<V>)                    // values whose pop stored the tail
  {
    /** Stores to m_head and to m_tail so far: the indices without wrapping. */
    function H(): int { |heads| - 1 }
    function T(): int { |tails| - 1 }
  }

  datatype Step<V> =
    | PushBegin(value: V)
    | PushLoadTail(entry: nat)
    | PushWrite
    | PushStoreHead
    | PushNotify
    | PopBegin
    | WaitBegin
    | WaitCheck(entry: nat)
    | WaitWake
    | WaitTimeout
    | WaitRecheck(entry: nat)
    | PopLoadHead(entry: nat)
    | PopRead(write: Option<nat>)
    | PopStoreTail

  function Start<V>(cap: nat, blank: V): Ring<V> {
    Ring(cap, blank, [], [], [Published(0, 0)], [Published(0, 0)],
         PushIdle, 0, 0, PopIdle, 0, 0, [], [])
  }

  function Max(a: nat, b: nat): nat {
    if a >= b then a else b
  }

  ghost predicate Wrote<V>(s: Ring<V>, k: int, slot: nat) {
    0 <= k < |s.slotWrites| && s.slotWrites[k].slot == slot
  }

  /** The writes a read of `slot` by the consumer may return. */
  ghost predicate Visible<V>(s: Ring<V>, slot: nat, w: Option<nat>) {
    match w
    case None => forall k :: 0 <= k < s.written ==> !Wrote(s, k, slot)
    case Some(i) => Wrote(s, i, slot) && forall k :: i < k < s.written ==> !Wrote(s, k, slot)
  }

  ghost predicate Enabled<V>(s: Ring<V>, step: Step<V>) {
    match step
    case PushBegin(_) => s.producer.PushIdle? && |s.heads| > 0
    case PushLoadTail(j) => s.producer.PushLoading? && s.seenTail <= j < |s.tails|
    case PushWrite => s.producer.PushWriting?
    case PushStoreHead => s.producer.PushStoring?
    case PushNotify => s.producer.PushNotifying?
    case PopBegin => s.consumer.PopIdle? && |s.tails| > 0
    case WaitBegin => s.consumer.PopIdle?
    case WaitCheck(j) => s.consumer.Checking? && |s.tails| > 0 && s.seenHead <= j < |s.heads|
    case WaitWake => s.consumer.Asleep?
    case WaitTimeout => s.consumer.Asleep?
    case WaitRecheck(j) => s.consumer.Rechecking? && |s.tails| > 0 && s.seenHead <= j < |s.heads|
    case PopLoadHead(j) => s.consumer.PopLoading? && s.seenHead <= j < |s.heads|
    case PopRead(w) => s.consumer.PopReading? && Visible(s, s.consumer.tail, w)
    case PopStoreTail => s.consumer.PopStoring?
  }

  /** Acquire loads of entry `j`. */
  function SawTail<V>(s: Ring<V>, j: nat): Ring<V>
    requires j < |s.tails|
  {
    s.(seenTail := j, freed := Max(s.freed, s.tails[j].view))
  }

  function SawHead<V>(s: Ring<V>, j: nat): Ring<V>
    requires j < |s.heads|
  {
    s.(seenHead := j, written := Max(s.written, s.heads[j].view))
  }

  ghost function Apply<V>(s: Ring<V>, step: Step<V>): Ring<V>
    requires s.cap > 0 && Enabled(s, step)
  {
    match step
    case PushBegin(v) =>
      var head := s.heads[s.H()].value;
      s.(producer := PushLoading(head, And(head + 1, s.cap - 1), v))
    case PushLoadTail(j) =>
      var p := s.producer;
      if p.next == s.tails[j].value then SawTail(s, j).(producer := PushIdle)
      else SawTail(s, j).(producer := PushWriting(p.head, p.next, p.value))
    case PushWrite =>
      var p := s.producer;
      s.(slotWrites := s.slotWrites + [Write(p.head, p.value)], producer := PushStoring(p.next, p.value))
    case PushStoreHead =>
      s.(heads := s.heads + [Published(s.producer.next, |s.slotWrites|)],
         accepted := s.accepted + [s.producer.value],
         producer := PushNotifying)
    case PushNotify =>
      s.(producer := PushIdle, consumer := if s.consumer.Asleep? then Checking(false) else s.consumer)
    case PopBegin => s.(consumer := PopLoading(s.tails[s.T()].value, false))
    case WaitBegin => s.(consumer := Checking(false))
    case WaitCheck(j) =>
      SawHead(s, j).(consumer :=
        if s.tails[s.T()].value != s.heads[j].value then Rechecking
        else if s.consumer.timedOut then PopIdle else Asleep)
    case WaitWake => s.(consumer := Checking(false))
    case WaitTimeout => s.(consumer := Checking(true))
    case WaitRecheck(j) =>
      SawHead(s, j).(consumer :=
        if s.tails[s.T()].value == s.heads[j].value then PopIdle
        else PopLoading(s.tails[s.T()].value, true))
    case PopLoadHead(j) =>
      SawHead(s, j).(consumer :=
        if s.consumer.tail == s.heads[j].value then PopIdle else PopReading(s.consumer.tail))
    case PopRead(w) =>
      var got := if w.None? then s.blank else s.slotWrites[w.value].value;
      s.(slotReads := s.slotReads + [s.consumer.tail],
         consumer := PopStoring(And(s.consumer.tail + 1, s.cap - 1), got))
    case PopStoreTail =>
      s.(tails := s.tails + [Published(s.consumer.next, |s.slotReads|)],
         delivered := s.delivered + [s.consumer.got],
         consumer := PopIdle)
  }

  /** A step of the consumer. */
  predicate OfConsumer<V>(step: Step<V>) {
    !step.PushBegin? && !step.PushLoadTail? && !step.PushWrite? && !step.PushStoreHead? && !step.PushNotify?
  }

  ghost predicate StepAt<V>(states: seq<Ring<V>>, steps: seq<Step<V>>, i: nat)
    requires i < |steps| && |states| == |steps| + 1
  {
    && states[i].cap > 0 && Enabled(states[i], steps[i])
    && states[i + 1] == Apply(states[i], steps[i])
  }

  /** A run: the states it passes through and the step taken in each. */
  ghost predicate IsRun<V>(states: seq<Ring<V>>, steps: seq<Step<V>>) {
    && |states| == |steps| + 1
    && IsPow2(states[0].cap)
    && states[0] == Start(states[0].cap, states[0].blank)
    && forall i: nat :: i < |steps| ==> StepAt(states, steps, i)
  }

  // ---- The inductive invariant -------------------------------------------------------

  ghost predicate Orders<V>(s: Ring<V>) {
    && IsPow2(s.cap) && s.cap > 0
    && |s.heads| > 0 && |s.tails| > 0
    && (forall i :: 0 <= i < |s.heads| ==> s.heads[i] == Published(i % s.cap, i))
    && (forall i :: 0 <= i < |s.tails| ==> s.tails[i] == Published(i % s.cap, i))
    && (forall i :: 0 <= i < |s.slotWrites| ==> s.slotWrites[i].slot == i % s.cap)
    && (forall i :: 0 <= i < |s.slotReads| ==> s.slotReads[i] == i % s.cap)
    && |s.slotWrites| == s.H() + (if s.producer.PushStoring? then 1 else 0)
    && |s.slotReads| == s.T() + (if s.consumer.PopStoring? then 1 else 0)
  }

  /** The consumer has seen a value it has not taken yet. */
  ghost predicate Committed<V>(s: Ring<V>) {
    || s.consumer.Rechecking?
    || s.consumer.PopReading?
    || s.consumer.PopStoring?
    || (s.consumer.PopLoading? && s.consumer.waited)
  }

  ghost predicate Bounds<V>(s: Ring<V>) {
    && s.freed == s.seenTail <= s.T() <= s.seenHead == s.written <= s.H()
    && s.H() - s.seenTail < s.cap
    && (s.producer.PushWriting? || s.producer.PushStoring? ==> s.H() + 1 - s.seenTail < s.cap)
    && (Committed(s) ==> s.T() < s.seenHead)
  }

  ghost predicate Locals<V>(s: Ring<V>)
    requires s.cap > 0 && s.H() >= 0 && s.T() >= 0
  {
    && (s.producer.PushLoading? || s.producer.PushWriting? ==>
          s.producer.head == s.H() % s.cap && s.producer.next == (s.H() + 1) % s.cap)
    && (s.producer.PushStoring? ==> s.producer.next == (s.H() + 1) % s.cap)
    && (s.consumer.PopLoading? || s.consumer.PopReading? ==> s.consumer.tail == s.T() % s.cap)
    && (s.consumer.PopStoring? ==> s.consumer.next == (s.T() + 1) % s.cap)
  }

  ghost predicate Values<V>(s: Ring<V>) {
    && |s.accepted| == s.H() <= |s.slotWrites|
    && (forall i :: 0 <= i < s.H() ==> s.accepted[i] == s.slotWrites[i].value)
    && (s.producer.PushStoring? ==>
          |s.slotWrites| > s.H() && s.producer.value == s.slotWrites[s.H()].value)
    && |s.delivered| == s.T() <= |s.accepted|
    && s.delivered == s.accepted[..s.T()]
    && (s.consumer.PopStoring? ==> s.T() < |s.accepted| && s.consumer.got == s.accepted[s.T()])
  }

  ghost predicate Inv<V>(s: Ring<V>) {
    Orders(s) && Bounds(s) && Locals(s) && Values(s)
  }

  // ---- What one step does, given the invariant ---------------------------------------

  /** `push` sees a full ring exactly when the tail entry it loaded is a whole lap behind. */
  lemma PushRejectsExactlyWhenViewIsFull<V>(s: Ring<V>, j: nat)
    requires Inv(s) && Enabled(s, PushLoadTail(j))
    ensures s.producer.next == s.tails[j].value <==> s.H() - j == s.cap - 1
  {
    WholeLap(s.cap, j, s.H());
  }

  /** `pop` and the emptiness tests see an empty ring exactly when the head entry they loaded is
      the consumer's own position. */
  lemma EmptyExactlyWhenViewIsEmpty<V>(s: Ring<V>, j: nat)
    requires Inv(s) && s.seenHead <= j < |s.heads|
    ensures s.T() % s.cap == s.heads[j].value <==> j == s.T()
  {
    SameSlot(s.cap, s.T(), j);
  }

  /** The slot the producer is about to write: every read of it happens before the write. */
  ghost predicate WriteRaces<V>(s: Ring<V>, r: int)
    requires s.producer.PushWriting?
  {
    s.freed <= r < |s.slotReads| && s.slotReads[r] == s.producer.head
  }

  /** The slot the consumer is about to read: a write of it that does not happen before the read. */
  ghost predicate ReadRaces<V>(s: Ring<V>, w: int)
    requires s.consumer.PopReading?
  {
    s.written <= w && Wrote(s, w, s.consumer.tail)
  }

  lemma NoWriteRace<V>(s: Ring<V>, r: nat)
    requires Inv(s) && s.producer.PushWriting?
    ensures !WriteRaces(s, r)
  {
    if s.freed <= r < |s.slotReads| {
      SameSlot(s.cap, r, s.H());
    }
  }

  lemma NoReadRace<V>(s: Ring<V>, w: nat)
    requires Inv(s) && s.consumer.PopReading?
    ensures !ReadRaces(s, w)
  {
    if s.written <= w < |s.slotWrites| {
      SameSlot(s.cap, s.T(), w);
    }
  }

  /** Although any write not known to be overwritten could be returned, only one can: the write
      of the value that is next in order. */
  lemma ReadIsDetermined<V>(s: Ring<V>, w: Option<nat>)
    requires Inv(s) && Enabled(s, PopRead(w))
    ensures w == Some(s.T())
  {
    var t := s.T();
    assert Wrote(s, t, s.consumer.tail);
    if w.Some? && w.value > t {
      SameSlot(s.cap, t, w.value);
    }
  }

  lemma StartInv<V>(cap: nat, blank: V)
    requires IsPow2(cap)
    ensures Inv(Start(cap, blank))
  {
    MaskIsRemainder(cap, 0);
    ModUnique(0, cap, 0, 0);
  }

  lemma PushLoadInv<V>(s: Ring<V>, step: Step<V>)
    requires Inv(s) && Enabled(s, step) && (step.PushBegin? || step.PushLoadTail?)
    ensures Inv(Apply(s, step))
  {
    if step.PushBegin? {
      NextWrapped(s.cap, s.H());
    } else {
      PushRejectsExactlyWhenViewIsFull(s, step.entry);
      var s' := Apply(s, step);
      assert s'.seenTail == step.entry && s'.freed == step.entry;
      assert Orders(s') && Values(s');
    }
  }

  lemma PushWriteInv<V>(s: Ring<V>)
    requires Inv(s) && Enabled(s, PushWrite)
    ensures Inv(Apply(s, PushWrite))
  {
    var s' := Apply(s, PushWrite);
    assert s'.slotWrites[s.H()] == Write(s.producer.head, s.producer.value);
    assert Orders(s');
  }

  lemma PushStoreInv<V>(s: Ring<V>)
    requires Inv(s) && Enabled(s, PushStoreHead)
    ensures Inv(Apply(s, PushStoreHead))
  {
    var s' := Apply(s, PushStoreHead);
    assert s'.heads[|s.heads|] == Published(s.producer.next, |s.slotWrites|);
    assert Orders(s');
    assert forall i :: 0 <= i < s.H() ==> s'.accepted[i] == s.accepted[i];
  }

  lemma PushNotifyInv<V>(s: Ring<V>)
    requires Inv(s) && Enabled(s, PushNotify)
    ensures Inv(Apply(s, PushNotify))
  {
  }

  lemma CheckStepInv<V>(s: Ring<V>, step: Step<V>)
    requires Inv(s) && Enabled(s, step)
    requires step.WaitCheck? || step.WaitRecheck? || step.PopLoadHead?
    ensures Inv(Apply(s, step))
  {
    EmptyExactlyWhenViewIsEmpty(s, step.entry);
    var s' := Apply(s, step);
    assert s'.seenHead == step.entry && s'.written == step.entry;
    assert Orders(s') && Values(s');
  }

  lemma PopReadInv<V>(s: Ring<V>, w: Option<nat>)
    requires Inv(s) && Enabled(s, PopRead(w))
    ensures Inv(Apply(s, PopRead(w)))
  {
    ReadIsDetermined(s, w);
    NextWrapped(s.cap, s.T());
    var s' := Apply(s, PopRead(w));
    assert s'.slotReads[|s.slotReads|] == s.T() % s.cap;
    assert Orders(s');
  }

  lemma PopStoreInv<V>(s: Ring<V>)
    requires Inv(s) && Enabled(s, PopStoreTail)
    ensures Inv(Apply(s, PopStoreTail))
  {
    var s' := Apply(s, PopStoreTail);
    assert s'.tails[|s.tails|] == Published(s.consumer.next, |s.slotReads|);
    assert Orders(s');
    assert s'.delivered == s.accepted[..s'.T()];
  }

  lemma CapStays<V>(s: Ring<V>, step: Step<V>)
    requires s.cap > 0 && Enabled(s, step)
    ensures Apply(s, step).cap == s.cap
  {
  }

  lemma PushStepInv<V>(s: Ring<V>, step: Step<V>)
    requires Inv(s) && Enabled(s, step) && !OfConsumer(step)
    ensures Inv(Apply(s, step))
  {
    match step
    case PushWrite => PushWriteInv(s);
    case PushStoreHead => PushStoreInv(s);
    case PushNotify => PushNotifyInv(s);
    case _ => PushLoadInv(s, step);
  }

  lemma ConsumerStepInv<V>(s: Ring<V>, step: Step<V>)
    requires Inv(s) && Enabled(s, step) && OfConsumer(step)
    ensures Inv(Apply(s, step))
  {
    if step.WaitCheck? || step.WaitRecheck? || step.PopLoadHead? {
      CheckStepInv(s, step);
    } else if step.PopRead? {
      PopReadInv(s, step.write);
    } else if step.PopStoreTail? {
      PopStoreInv(s);
    }
  }

  lemma StepInv<V>(s: Ring<V>, step: Step<V>)
    requires Inv(s) && Enabled(s, step)
    ensures Inv(Apply(s, step)) && Apply(s, step).cap == s.cap
  {
    CapStays(s, step);
    if OfConsumer(step) {
      ConsumerStepInv(s, step);
    } else {
      PushStepInv(s, step);
    }
  }

  lemma {:induction false} RunInv<V>(states: seq<Ring<V>>, steps: seq<Step<V>>, i: nat)
    requires IsRun(states, steps) && i < |states|
    ensures Inv(states[i]) && states[i].cap == states[0].cap
  {
    if i == 0 {
      StartInv(states[0].cap, states[0].blank);
    } else {
      RunInv(states, steps, i - 1);
      assert StepAt(states, steps, i - 1);
      StepInv(states[i - 1], steps[i - 1]);
    }
  }

  // ---- Every run refines a bounded queue ---------------------------------------------

  /** The queue a state stands for: accepted and not yet delivered. */
  ghost function Queue<V>(s: Ring<V>): seq<V>
    requires 0 <= s.T() <= |s.accepted|
  {
    s.accepted[s.T()..]
  }

  /** A move of a FIFO of capacity `limit`, or a step that leaves it alone. */
  ghost predicate QueueMove<V>(q: seq<V>, q': seq<V>, limit: int, step: Step<V>, producer: Producer<V>, delivered: seq<V>, delivered': seq<V>) {
    match step
    case PushStoreHead =>
      producer.PushStoring? && |q| < limit && q' == q + [producer.value] && delivered' == delivered
    case PopStoreTail => q != [] && q' == q[1..] && delivered' == delivered + [q[0]]
    case _ => q' == q && delivered' == delivered
  }

  /** Each interleaved step is an enqueue below capacity, a dequeue of the oldest value, or nothing. */
  lemma RunRefinesBoundedFifo<V>(states: seq<Ring<V>>, steps: seq<Step<V>>, i: nat)
    requires IsRun(states, steps) && i < |steps|
    ensures 0 <= states[i].T() <= |states[i].accepted| && 0 <= states[i + 1].T() <= |states[i + 1].accepted|
    ensures QueueMove(Queue(states[i]), Queue(states[i + 1]), states[0].cap - 1, steps[i],
                      states[i].producer, states[i].delivered, states[i + 1].delivered)
  {
    RunInv(states, steps, i);
    RunInv(states, steps, i + 1);
    assert StepAt(states, steps, i);
  }

  /** The last write to a slot so far. */
  ghost predicate Holds<V>(s: Ring<V>, slot: nat, value: V) {
    exists w: nat :: Wrote(s, w, slot) && s.slotWrites[w].value == value
                  && forall k :: w < k < |s.slotWrites| ==> !Wrote(s, k, slot)
  }

  /** In every state of every run: what was popped is a prefix of what was accepted, the rest is at
      most `cap - 1` values, and they are exactly what the slots from tail to head hold. */
  lemma PoppedThenStoredIsAccepted<V>(states: seq<Ring<V>>, steps: seq<Step<V>>, i: nat)
    requires IsRun(states, steps) && i < |states|
    ensures var s := states[i];
            && 0 <= s.T() <= s.H() == |s.accepted| && s.H() - s.T() <= s.cap - 1
            && s.delivered + Queue(s) == s.accepted
            && s.heads[s.H()].value == s.H() % s.cap && s.tails[s.T()].value == s.T() % s.cap
            && forall k :: 0 <= k < |Queue(s)| ==> Holds(s, (s.T() + k) % s.cap, Queue(s)[k])
  {
    RunInv(states, steps, i);
    var s := states[i];
    forall k | 0 <= k < |Queue(s)|
      ensures Holds(s, (s.T() + k) % s.cap, Queue(s)[k])
    {
      SlotHoldsItem(s, s.T() + k);
    }
  }

  lemma SlotHoldsItem<V>(s: Ring<V>, w: nat)
    requires Inv(s) && s.T() <= w < s.H()
    ensures Holds(s, w % s.cap, s.accepted[w])
  {
    assert Wrote(s, w, w % s.cap);
    forall k | w < k < |s.slotWrites|
      ensures !Wrote(s, k, w % s.cap)
    {
      SameSlot(s.cap, w, k);
    }
  }

  /** In every state of every run, the slot about to be written has no read outside the producer's
      view, the slot about to be read no write outside the consumer's, and whatever write the read
      is allowed to return, it is the one that published the oldest queued value. */
  lemma SlotAccessesNeverRace<V>(states: seq<Ring<V>>, steps: seq<Step<V>>, i: nat)
    requires IsRun(states, steps) && i < |states|
    ensures states[i].producer.PushWriting? ==> forall r: nat :: !WriteRaces(states[i], r)
    ensures states[i].consumer.PopReading? ==> forall w: nat :: !ReadRaces(states[i], w)
    ensures states[i].consumer.PopReading? ==>
              forall w: Option<nat> :: Visible(states[i], states[i].consumer.tail, w) ==>
                w.Some? && w.value < |states[i].slotWrites| && 0 <= states[i].T() < |states[i].accepted|
                && states[i].slotWrites[w.value].value == states[i].accepted[states[i].T()]
  {
    RunInv(states, steps, i);
    var s := states[i];
    if s.producer.PushWriting? {
      forall r: nat ensures !WriteRaces(s, r) { NoWriteRace(s, r); }
    }
    if s.consumer.PopReading? {
      forall w: nat ensures !ReadRaces(s, w) { NoReadRace(s, w); }
      forall w: Option<nat> | Visible(s, s.consumer.tail, w)
        ensures w == Some(s.T())
      {
        ReadIsDetermined(s, w);
      }
    }
  }

  /** `push` returns false in this step. */
  ghost predicate Rejects<V>(s: Ring<V>, step: Step<V>) {
    s.cap > 0 && step.PushLoadTail? && Enabled(s, step) && Apply(s, step).producer.PushIdle?
  }

  /** A push is rejected exactly when it saw the tail a whole lap behind, and otherwise goes on to write;
      with a fresh view the queue is really full, and with capacity 1 every push is rejected. */
  lemma RejectionMeansFullAsSeen<V>(states: seq<Ring<V>>, steps: seq<Step<V>>, i: nat)
    requires IsRun(states, steps) && i < |steps| && steps[i].PushLoadTail?
    ensures 0 <= states[i].T() <= |states[i].accepted|
    ensures Rejects(states[i], steps[i]) <==> states[i + 1].producer.PushIdle?
    ensures states[i + 1].producer.PushIdle? <==> states[i].H() - steps[i].entry == states[i].cap - 1
    ensures !states[i + 1].producer.PushIdle? ==> states[i + 1].producer.PushWriting?
    ensures steps[i].entry == states[i].T() ==>
              (Rejects(states[i], steps[i]) <==> |Queue(states[i])| == states[i].cap - 1)
    ensures states[i].cap == 1 ==> Rejects(states[i], steps[i])
  {
    RunInv(states, steps, i);
    assert StepAt(states, steps, i);
    PushRejectsExactlyWhenViewIsFull(states[i], steps[i].entry);
  }

  function ConsumerSteps<V>(steps: seq<Step<V>>, i: nat, j: nat): nat
    requires i <= j <= |steps|
    decreases j
  {
    if i == j then 0 else ConsumerSteps(steps, i, j - 1) + if OfConsumer(steps[j - 1]) then 1 else 0
  }

  /** Steps of its own until the call delivers, provided its next check sees a value. */
  function Togo<V>(c: Consumer<V>): nat {
    match c
    case PopIdle => 0
    case Asleep => 6
    case Checking(_) => 5
    case Rechecking => 4
    case PopLoading(_, _) => 3
    case PopReading(_) => 2
    case PopStoring(_, _) => 1
  }

  // ---- A whole push ------------------------------------------------------------------

  /** Steps of its own until a push is over. */
  function PushTogo<V>(p: Producer<V>): nat {
    match p
    case PushIdle => 0
    case PushLoading(_, _, _) => 4
    case PushWriting(_, _, _) => 3
    case PushStoring(_, _) => 2
    case PushNotifying => 1
  }

  function ProducerSteps<V>(steps: seq<Step<V>>, i: nat, j: nat): nat
    requires i <= j <= |steps|
    decreases j
  {
    if i == j then 0 else ProducerSteps(steps, i, j - 1) + if OfConsumer(steps[j - 1]) then 0 else 1
  }

  /** The push of `v` that begins at step `i` is still under way in the states up to `j`. */
  ghost predicate Pushing<V>(states: seq<Ring<V>>, steps: seq<Step<V>>, i: nat, j: nat, v: V) {
    && IsRun(states, steps) && i < j < |states| && steps[i] == PushBegin(v)
    && forall k :: i < k <= j ==> !states[k].producer.PushIdle?
  }

  /** The producer works on `v`, and has stored it exactly when it is about to notify. */
  ghost predicate WorksOn<V>(s: Ring<V>, v: V, before: seq<V>) {
    match s.producer
    case PushIdle => false
    case PushLoading(_, _, w) => w == v && s.accepted == before
    case PushWriting(_, _, w) => w == v && s.accepted == before
    case PushStoring(_, w) => w == v && s.accepted == before
    case PushNotifying => s.accepted == before + [v]
  }

  lemma WorksOnStep<V>(s: Ring<V>, step: Step<V>, v: V, before: seq<V>)
    requires s.cap > 0 && Enabled(s, step) && WorksOn(s, v, before)
    ensures var s' := Apply(s, step);
            && (OfConsumer(step) ==> s'.producer == s.producer && s'.accepted == s.accepted)
            && (!OfConsumer(step) && !Rejects(s, step) ==> PushTogo(s'.producer) == PushTogo(s.producer) - 1)
            && (s'.producer.PushIdle? ==> Rejects(s, step) || step.PushNotify?)
            && (s'.producer.PushIdle? ==> s'.accepted == s.accepted)
            && (!s'.producer.PushIdle? ==> WorksOn(s', v, before))
  {
  }

  lemma {:induction false} PushProgress<V>(states: seq<Ring<V>>, steps: seq<Step<V>>, i: nat, j: nat, v: V)
    requires Pushing(states, steps, i, j, v)
    ensures WorksOn(states[j], v, states[i].accepted)
    ensures PushTogo(states[j].producer) + ProducerSteps(steps, i, j) == 5
    decreases j
  {
    RunInv(states, steps, j - 1);
    assert StepAt(states, steps, j - 1);
    if j > i + 1 {
      PushProgress(states, steps, i, j - 1, v);
      WorksOnStep(states[j - 1], steps[j - 1], v, states[i].accepted);
    }
  }

  /** While a push is under way it can always take a step of its own; it takes at most five. */
  lemma PushNeverBlocks<V>(states: seq<Ring<V>>, steps: seq<Step<V>>, i: nat, j: nat, v: V)
    requires Pushing(states, steps, i, j, v)
    ensures ProducerSteps(steps, i, j) < 5
    ensures exists step: Step<V> :: !OfConsumer(step) && Enabled(states[j], step)
  {
    PushProgress(states, steps, i, j, v);
    RunInv(states, steps, j);
    var s := states[j];
    var own: Step<V> := match s.producer
      case PushLoading(_, _, _) => PushLoadTail(s.T())
      case PushWriting(_, _, _) => PushWrite
      case PushStoring(_, _) => PushStoreHead
      case _ => PushNotify;
    assert !OfConsumer(own) && Enabled(s, own);
  }

  /** A whole push of `v`, in any run: if it comes back by a rejection, the tail it loaded was a lap behind
      and nothing was accepted; otherwise exactly `v` was, and the last step is the notification. */
  lemma PushAcceptsExactlyItsValue<V>(states: seq<Ring<V>>, steps: seq<Step<V>>, i: nat, j: nat, v: V)
    requires Pushing(states, steps, i, j, v) && j < |steps| && states[j + 1].producer.PushIdle?
    ensures if steps[j].PushLoadTail?
            then && states[j].H() - steps[j].entry == states[j].cap - 1
                 && states[j + 1].accepted == states[i].accepted
                 && ProducerSteps(steps, i, j + 1) == 2
            else && steps[j].PushNotify? && states[j + 1].accepted == states[i].accepted + [v]
                 && ProducerSteps(steps, i, j + 1) == 5
  {
    PushProgress(states, steps, i, j, v);
    RunInv(states, steps, j);
    assert StepAt(states, steps, j);
    WorksOnStep(states[j], steps[j], v, states[i].accepted);
    if steps[j].PushLoadTail? {
      RejectionMeansFullAsSeen(states, steps, j);
    }
  }

  // ---- A whole pop -------------------------------------------------------------------

  /** The plain `pop` that begins at step `i` is still under way in the states up to `j`. */
  ghost predicate Popping<V>(states: seq<Ring<V>>, steps: seq<Step<V>>, i: nat, j: nat) {
    && IsRun(states, steps) && i < j < |states| && steps[i].PopBegin?
    && forall k :: i < k <= j ==> !states[k].consumer.PopIdle?
  }

  ghost predicate InPop<V>(s: Ring<V>) {
    (s.consumer.PopLoading? && !s.consumer.waited) || s.consumer.PopReading? || s.consumer.PopStoring?
  }

  lemma InPopStep<V>(s: Ring<V>, step: Step<V>)
    requires Inv(s) && Enabled(s, step) && InPop(s)
    ensures var s' := Apply(s, step);
            && (InPop(s') ==> s'.delivered == s.delivered && s'.T() == s.T())
            && (InPop(s') ==> Togo(s'.consumer) == Togo(s.consumer) - if OfConsumer(step) then 1 else 0)
            && (!InPop(s') ==> s'.consumer.PopIdle? && (step.PopLoadHead? || step.PopStoreTail?))
  {
  }

  lemma {:induction false} PopProgress<V>(states: seq<Ring<V>>, steps: seq<Step<V>>, i: nat, j: nat)
    requires Popping(states, steps, i, j)
    ensures InPop(states[j]) && states[j].delivered == states[i].delivered && states[j].T() == states[i].T()
    ensures Togo(states[j].consumer) + ConsumerSteps(steps, i, j) == 4
    decreases j
  {
    RunInv(states, steps, j - 1);
    assert StepAt(states, steps, j - 1);
    if j > i + 1 {
      PopProgress(states, steps, i, j - 1);
      InPopStep(states[j - 1], steps[j - 1]);
    }
  }

  /** A whole `pop`, in any run: it comes back empty-handed exactly when the head it loads is its own
      position, and otherwise takes the oldest queued value, four steps of its own in all. */
  lemma PopTakesExactlyWhatItSaw<V>(states: seq<Ring<V>>, steps: seq<Step<V>>, i: nat, j: nat)
    requires Popping(states, steps, i, j) && j < |steps|
    ensures 0 <= states[i].T()
    ensures steps[j].PopLoadHead? ==> (states[j + 1].consumer.PopIdle? <==> steps[j].entry == states[i].T())
    ensures states[j + 1].consumer.PopIdle? ==>
              if steps[j].PopLoadHead? then states[j + 1].delivered == states[i].delivered && ConsumerSteps(steps, i, j + 1) == 2
              else && ConsumerSteps(steps, i, j + 1) == 4 && states[i].T() < |states[j + 1].accepted|
                   && states[j + 1].delivered == states[i].delivered + [states[j + 1].accepted[states[i].T()]]
  {
    PopProgress(states, steps, i, j);
    RunInv(states, steps, i);
    RunInv(states, steps, j);
    assert StepAt(states, steps, j);
    InPopStep(states[j], steps[j]);
    if steps[j].PopLoadHead? {
      EmptyExactlyWhenViewIsEmpty(states[j], steps[j].entry);
    }
  }

  /** A notification, a spurious wake-up and the timeout each end a sleep: none is among the steps a
      consumer sleeps through. */
  lemma NotifyEndsSleep<V>(states: seq<Ring<V>>, steps: seq<Step<V>>, i: nat)
    requires IsRun(states, steps) && i < |steps|
    requires states[i].consumer.Asleep? && states[i + 1].consumer.Asleep?
    ensures steps[i] != PushNotify && steps[i] != WaitWake && steps[i] != WaitTimeout
  {
    assert StepAt(states, steps, i);
  }

  // ---- The timed wait ----------------------------------------------------------------

  /** `wait_pop_for` returns false in this step. */
  ghost predicate GivesUp<V>(s: Ring<V>, step: Step<V>) {
    && s.cap > 0 && Enabled(s, step)
    && (step.WaitCheck? || step.WaitRecheck? || (step.PopLoadHead? && s.consumer.waited))
    && Apply(s, step).consumer.PopIdle?
  }

  /** The wait gives up only at a predicate check after the timeout, and there exactly when the
      head entry it loaded is its own position: the second emptiness test and the final `pop`
      never fail, since only this consumer can make the ring empty. */
  lemma GivesUpExactlyOnEmptyView<V>(states: seq<Ring<V>>, steps: seq<Step<V>>, i: nat)
    requires IsRun(states, steps) && i < |steps|
    ensures GivesUp(states[i], steps[i]) <==>
            steps[i].WaitCheck? && states[i].consumer == Checking(true) && steps[i].entry == states[i].T()
  {
    RunInv(states, steps, i);
    assert StepAt(states, steps, i);
    var s, step := states[i], steps[i];
    match step
    case WaitCheck(j) => EmptyExactlyWhenViewIsEmpty(s, j);
    case WaitRecheck(j) => EmptyExactlyWhenViewIsEmpty(s, j);
    case PopLoadHead(j) => EmptyExactlyWhenViewIsEmpty(s, j);
    case _ =>
  }

  // ---- A whole call of the timed wait ------------------------------------------------

  /** Inside `wait_pop_for`. */
  ghost predicate Waiting<V>(s: Ring<V>) {
    s.consumer.Asleep? || s.consumer.Checking? || Committed(s)
  }

  /** A check that loads an entry beyond the consumer's own position. */
  predicate Sees<V>(s: Ring<V>, step: Step<V>) {
    step.WaitCheck? && step.entry > s.T()
  }

  /** One step of a waiting call: it comes closer to delivering, or delivers, or is a check that saw
      nothing. */
  lemma WaitingStep<V>(s: Ring<V>, step: Step<V>)
    requires Inv(s) && Enabled(s, step) && Waiting(s)
    requires step.WaitCheck? ==> Sees(s, step)
    ensures 0 <= s.T() && !GivesUp(s, step)
    ensures var s' := Apply(s, step);
            if step.PopStoreTail?
            then s.T() < |s.accepted| && s'.T() == s.T() + 1 && s'.delivered == s.delivered + [s.accepted[s.T()]]
            else && s'.T() == s.T() && s'.delivered == s.delivered && Waiting(s')
                 && Togo(s'.consumer) <= Togo(s.consumer) - (if OfConsumer(step) then 1 else 0)
                 && (Committed(s) ==> Committed(s'))
                 && (step.WaitCheck? ==> Committed(s') && Togo(s'.consumer) == 4)
  {
    match step
    case WaitCheck(j) => EmptyExactlyWhenViewIsEmpty(s, j);
    case WaitRecheck(j) => EmptyExactlyWhenViewIsEmpty(s, j);
    case PopLoadHead(j) => EmptyExactlyWhenViewIsEmpty(s, j);
    case _ =>
  }

  /** What a step adds to: values once accepted or delivered stay so. */
  lemma OnlyGrows<V>(s: Ring<V>, step: Step<V>)
    requires s.cap > 0 && Enabled(s, step)
    ensures s.accepted <= Apply(s, step).accepted && s.delivered <= Apply(s, step).delivered
    ensures s.T() <= Apply(s, step).T() && s.H() <= Apply(s, step).H() && s.seenHead <= Apply(s, step).seenHead
  {
  }

  lemma {:induction false} RunGrows<V>(states: seq<Ring<V>>, steps: seq<Step<V>>, i: nat, j: nat)
    requires IsRun(states, steps) && i <= j < |states|
    ensures states[i].accepted <= states[j].accepted && states[i].delivered <= states[j].delivered
    ensures states[i].T() <= states[j].T() && states[i].H() <= states[j].H() && states[i].seenHead <= states[j].seenHead
  {
    if i < j {
      RunGrows(states, steps, i, j - 1);
      assert StepAt(states, steps, j - 1);
      OnlyGrows(states[j - 1], steps[j - 1]);
    }
  }

  /** From `i` to `j` every check of the call that has not delivered yet sees a value. */
  ghost predicate ChecksSee<V>(states: seq<Ring<V>>, steps: seq<Step<V>>, i: nat, j: nat)
    requires j <= |steps| < |states|
  {
    forall k :: i <= k < j && steps[k].WaitCheck? && states[k].T() == states[i].T() ==> Sees(states[k], steps[k])
  }

  lemma {:induction false} WaitingProgress<V>(states: seq<Ring<V>>, steps: seq<Step<V>>, i: nat, j: nat)
    requires IsRun(states, steps) && i <= j < |states| && Waiting(states[i])
    requires Committed(states[i]) || ChecksSee(states, steps, i, j)
    ensures states[j].T() == states[i].T() ==>
              && Waiting(states[j]) && states[j].delivered == states[i].delivered
              && (Committed(states[i]) ==> Committed(states[j]))
              && Togo(states[j].consumer) + ConsumerSteps(steps, i, j) <= Togo(states[i].consumer)
    decreases j - i
  {
    if i < j {
      WaitingProgress(states, steps, i, j - 1);
      RunGrows(states, steps, i, j - 1);
      var s, step := states[j - 1], steps[j - 1];
      RunInv(states, steps, j - 1);
      assert StepAt(states, steps, j - 1);
      OnlyGrows(s, step);
      if s.T() == states[i].T() {
        assert step.WaitCheck? ==> !Committed(s) && Sees(s, step);
        WaitingStep(s, step);
      }
    }
  }

  lemma TakenIsAccepted<V>(states: seq<Ring<V>>, steps: seq<Step<V>>, i: nat, j: nat)
    requires IsRun(states, steps) && i <= j < |states|
    ensures 0 <= states[i].T() <= states[j].T()
    ensures states[j].T() > states[i].T() ==>
              states[i].T() < |states[j].delivered| && states[i].T() < |states[j].accepted|
              && states[j].delivered[states[i].T()] == states[j].accepted[states[i].T()]
  {
    RunInv(states, steps, i);
    RunInv(states, steps, j);
    RunGrows(states, steps, i, j);
  }

  /** A waiting consumer can always take a step of its own, and is not kept from it by the producer. */
  lemma WaitingCanStep<V>(states: seq<Ring<V>>, steps: seq<Step<V>>, i: nat)
    requires IsRun(states, steps) && i < |states| && Waiting(states[i])
    ensures exists step: Step<V> :: OfConsumer(step) && Enabled(states[i], step)
  {
    RunInv(states, steps, i);
    var s := states[i];
    var own: Step<V> := match s.consumer
      case Asleep => WaitTimeout
      case Checking(_) => WaitCheck(s.H())
      case Rechecking => WaitRecheck(s.H())
      case PopLoading(_, _) => PopLoadHead(s.H())
      case PopReading(_) => PopRead(Some(s.T()))
      case _ => PopStoreTail;
    if s.consumer.PopReading? {
      forall k | s.T() < k < s.written
        ensures !Wrote(s, k, s.consumer.tail)
      {
        SameSlot(s.cap, s.T(), k);
      }
      assert Wrote(s, s.T(), s.consumer.tail);
    }
    assert OfConsumer(own) && Enabled(s, own);
  }

  /** Once a check has loaded an entry beyond the consumer's position, every continuation, whatever the
      producer does and whatever the later loads return, delivers the oldest queued value within four
      more steps of the consumer, and does not give up before. */
  lemma SeenValueIsDelivered<V>(states: seq<Ring<V>>, steps: seq<Step<V>>, i: nat, j: nat)
    requires IsRun(states, steps) && i < j < |states| && Sees(states[i], steps[i])
    ensures ConsumerSteps(steps, i + 1, j) >= 4 ==> states[j].T() > states[i].T()
    ensures states[j].T() > states[i].T() ==>
              0 <= states[i].T() < |states[j].delivered| && states[i].T() < |states[j].accepted|
              && states[j].delivered[states[i].T()] == states[j].accepted[states[i].T()]
    ensures states[j].T() == states[i].T() ==>
              Committed(states[j]) && (j < |steps| ==> !GivesUp(states[j], steps[j]))
    decreases j
  {
    RunInv(states, steps, i);
    assert StepAt(states, steps, i);
    WaitingStep(states[i], steps[i]);
    assert Committed(states[i + 1]) && states[i + 1].T() == states[i].T();
    WaitingProgress(states, steps, i + 1, j);
    TakenIsAccepted(states, steps, i, j);
    if j < |steps| {
      GivesUpExactlyOnEmptyView(states, steps, j);
    }
  }

  /** A call that sleeps beside a queued value: its notification may have been sent before it slept. If
      its checks load the newest head, then under every schedule it delivers that value within six steps
      of its own, timeout included, and it can always take one. */
  lemma MissedNotifyOnlyDelays<V>(states: seq<Ring<V>>, steps: seq<Step<V>>, i: nat, j: nat)
    requires IsRun(states, steps) && i <= j < |states| && states[i].consumer.Asleep?
    requires states[i].T() < states[i].H()
    requires forall k :: i <= k < j && steps[k].WaitCheck? ==> steps[k].entry == states[k].H()
    ensures ConsumerSteps(steps, i, j) >= 6 ==> states[j].T() > states[i].T()
    ensures states[j].T() > states[i].T() ==>
              0 <= states[i].T() < |states[j].delivered| && states[i].T() < |states[j].accepted|
              && states[j].delivered[states[i].T()] == states[j].accepted[states[i].T()]
    ensures states[j].T() == states[i].T() ==>
              Waiting(states[j]) && exists step: Step<V> :: OfConsumer(step) && Enabled(states[j], step)
  {
    forall k | i <= k < j && steps[k].WaitCheck? && states[k].T() == states[i].T()
      ensures Sees(states[k], steps[k])
    {
      RunGrows(states, steps, i, k);
    }
    WaitingProgress(states, steps, i, j);
    TakenIsAccepted(states, steps, i, j);
    if states[j].T() == states[i].T() {
      WaitingCanStep(states, steps, j);
    }
  }

  /** The call that begins at step `i` is back at state `j`, not before. */
  ghost predicate IsWaitCall<V>(states: seq<Ring<V>>, steps: seq<Step<V>>, i: nat, j: nat) {
    && IsRun(states, steps) && i < j < |states| && steps[i].WaitBegin?
    && (forall k :: i < k < j ==> !states[k].consumer.PopIdle?) && states[j].consumer.PopIdle?
  }

  /** Nothing seen so far in the call: it has not gone beyond its predicate. */
  lemma {:induction false} NothingSeenYet<V>(states: seq<Ring<V>>, steps: seq<Step<V>>, i: nat, j: nat, k: nat)
    requires IsWaitCall(states, steps, i, j) && i < k < j
    requires forall m :: i < m < k ==> !Sees(states[m], steps[m])
    ensures states[k].consumer.Checking? || states[k].consumer.Asleep?
    ensures states[k].T() == states[i].T() && states[k].delivered == states[i].delivered
    ensures states[k].consumer == Checking(true) ==> exists m :: i < m < k && steps[m] == WaitTimeout
  {
    assert StepAt(states, steps, k - 1);
    if k > i + 1 {
      NothingSeenYet(states, steps, i, j, k - 1);
      RunInv(states, steps, k - 1);
      var s, step := states[k - 1], steps[k - 1];
      if step.WaitCheck? {
        EmptyExactlyWhenViewIsEmpty(s, step.entry);
      }
    }
  }

  /** A whole call of `wait_pop_for`, in any run: it returns a value, the oldest queued one, exactly when
      one of its predicate checks loads a head beyond its own position; otherwise it returns false, having
      taken nothing, at a check after the timeout. */
  lemma WaitReturnsExactlyWhatItSaw<V>(states: seq<Ring<V>>, steps: seq<Step<V>>, i: nat, j: nat)
    requires IsWaitCall(states, steps, i, j)
    ensures 0 <= states[i].T()
    ensures (exists k :: i < k < j && Sees(states[k], steps[k])) ==>
              && states[j].T() == states[i].T() + 1 && states[i].T() < |states[j].accepted|
              && states[j].delivered == states[i].delivered + [states[j].accepted[states[i].T()]]
    ensures (forall k :: i < k < j ==> !Sees(states[k], steps[k])) ==>
              && states[j].T() == states[i].T() && states[j].delivered == states[i].delivered
              && GivesUp(states[j - 1], steps[j - 1]) && exists m :: i < m < j && steps[m] == WaitTimeout
  {
    if k :| i < k < j && Sees(states[k], steps[k]) && forall m :: i < m < k ==> !Sees(states[m], steps[m]) {
      SeeingCallDelivers(states, steps, i, j, k);
    } else {
      NoFirstSight(states, steps, i, j, j - 1);
      BlindCallGivesUp(states, steps, i, j);
    }
  }

  lemma BlindCallGivesUp<V>(states: seq<Ring<V>>, steps: seq<Step<V>>, i: nat, j: nat)
    requires IsWaitCall(states, steps, i, j)
    requires forall k :: i < k < j ==> !Sees(states[k], steps[k])
    ensures 0 <= states[i].T() == states[j].T() && states[j].delivered == states[i].delivered
    ensures GivesUp(states[j - 1], steps[j - 1]) && exists m :: i < m < j && steps[m] == WaitTimeout
  {
    assert StepAt(states, steps, i);
    assert StepAt(states, steps, j - 1);
    RunInv(states, steps, j - 1);
    NothingSeenYet(states, steps, i, j, j - 1);
    var s, step := states[j - 1], steps[j - 1];
    if step.WaitCheck? {
      EmptyExactlyWhenViewIsEmpty(s, step.entry);
    }
  }

  /** The run goes on with a call of the timed wait, and ends where the call is back. */
  ghost predicate CallAfter<V>(states: seq<Ring<V>>, steps: seq<Step<V>>, more: seq<Ring<V>>, labels: seq<Step<V>>) {
    states <= more && steps <= labels && IsWaitCall(more, labels, |steps|, |labels|)
  }

  /** Before the call: it delivers whatever happens exactly when the consumer has already seen a head
      beyond its own position. Otherwise the memory may go on showing it that head. */
  lemma CallSurelyDeliversExactlyWhenSeen<V>(states: seq<Ring<V>>, steps: seq<Step<V>>)
    requires IsRun(states, steps) && states[|steps|].consumer.PopIdle?
    ensures states[|steps|].seenHead > states[|steps|].T() <==>
            forall more: seq<Ring<V>>, labels: seq<Step<V>> :: CallAfter(states, steps, more, labels) ==>
              more[|labels|].T() == states[|steps|].T() + 1
  {
    var s := states[|steps|];
    if s.seenHead > s.T() {
      forall more: seq<Ring<V>>, labels: seq<Step<V>> | CallAfter(states, steps, more, labels)
        ensures more[|labels|].T() == s.T() + 1
      {
        assert more[|steps|] == s;
        SeenBeforeCallDelivers(more, labels, |steps|, |labels|);
      }
    } else {
      var more, labels := CallOnOldHead(states, steps);
      assert more[|labels|].T() != s.T() + 1;
    }
  }

  lemma SeenBeforeCallDelivers<V>(states: seq<Ring<V>>, steps: seq<Step<V>>, i: nat, j: nat)
    requires IsWaitCall(states, steps, i, j) && states[i].seenHead > states[i].T()
    ensures states[j].T() == states[i].T() + 1
  {
    WaitReturnsExactlyWhatItSaw(states, steps, i, j);
    if forall k :: i < k < j ==> !Sees(states[k], steps[k]) {
      GivesUpExactlyOnEmptyView(states, steps, j - 1);
      NothingSeenYet(states, steps, i, j, j - 1);
      RunGrows(states, steps, i, j - 1);
      assert false;
    }
  }

  /** The states of a call that loads the head last seen, which is its own position, twice. */
  ghost function OldHeadState<V>(s: Ring<V>, k: nat): Ring<V> {
    if k == 0 then s
    else if k == 1 then s.(consumer := Checking(false))
    else if k == 2 then s.(consumer := Asleep)
    else if k == 3 then s.(consumer := Checking(true))
    else s
  }

  function OldHeadStep<V>(s: Ring<V>, k: nat): Step<V> {
    if k == 0 then WaitBegin else if k == 2 then WaitTimeout else WaitCheck(s.seenHead)
  }

  lemma OldHeadCallStep<V>(s: Ring<V>, k: nat)
    requires Inv(s) && s.consumer.PopIdle? && s.seenHead == s.T() && k < 4
    ensures Enabled(OldHeadState(s, k), OldHeadStep(s, k))
    ensures Apply(OldHeadState(s, k), OldHeadStep(s, k)) == OldHeadState(s, k + 1)
  {
    assert s.heads[s.seenHead].view == s.seenHead == s.written;
  }

  lemma CallOnOldHead<V>(states: seq<Ring<V>>, steps: seq<Step<V>>) returns (more: seq<Ring<V>>, labels: seq<Step<V>>)
    requires IsRun(states, steps) && states[|steps|].consumer.PopIdle?
    requires states[|steps|].seenHead <= states[|steps|].T()
    ensures CallAfter(states, steps, more, labels) && more[|labels|].T() == states[|steps|].T()
  {
    var n := |steps|;
    var s := states[n];
    RunInv(states, steps, n);
    more := states + seq(4, k requires 0 <= k < 4 => OldHeadState(s, k + 1));
    labels := steps + seq(4, k requires 0 <= k < 4 => OldHeadStep(s, k));
    forall i: nat | i < |labels|
      ensures StepAt(more, labels, i)
    {
      if i < n {
        assert StepAt(states, steps, i);
      } else {
        OldHeadCallStep(s, i - n);
        assert more[i] == OldHeadState(s, i - n);
      }
    }
    assert IsRun(more, labels);
    assert IsWaitCall(more, labels, n, n + 4);
  }

  /** If no step of the call is the first to see a value, none sees one. */
  lemma {:induction false} NoFirstSight<V>(states: seq<Ring<V>>, steps: seq<Step<V>>, i: nat, j: nat, n: nat)
    requires i <= n < j < |states| == |steps| + 1
    requires forall k :: i < k < j && Sees(states[k], steps[k]) ==> exists m :: i < m < k && Sees(states[m], steps[m])
    ensures forall k :: i < k <= n ==> !Sees(states[k], steps[k])
    decreases n
  {
    if n > i {
      NoFirstSight(states, steps, i, j, n - 1);
    }
  }

  /** From the first check that sees a value the call goes through to its end by delivering it. */
  lemma SeeingCallDelivers<V>(states: seq<Ring<V>>, steps: seq<Step<V>>, i: nat, j: nat, k: nat)
    requires IsWaitCall(states, steps, i, j) && i < k < j && Sees(states[k], steps[k])
    requires forall m :: i < m < k ==> !Sees(states[m], steps[m])
    ensures 0 <= states[i].T() && states[j].T() == states[i].T() + 1 && states[i].T() < |states[j].accepted|
    ensures states[j].delivered == states[i].delivered + [states[j].accepted[states[i].T()]]
  {
    NothingSeenYet(states, steps, i, j, k);
    DeliversAtReturn(states, steps, i, j, k, j - 1);
    RunInv(states, steps, j - 1);
    assert StepAt(states, steps, j - 1);
    WaitingStep(states[j - 1], steps[j - 1]);
    RunGrows(states, steps, j - 1, j);
  }

  lemma {:induction false} DeliversAtReturn<V>(states: seq<Ring<V>>, steps: seq<Step<V>>, i: nat, j: nat, k: nat, n: nat)
    requires IsWaitCall(states, steps, i, j) && i < k < j && k <= n < j && Sees(states[k], steps[k])
    requires Waiting(states[k]) && states[k].T() == states[i].T()
    ensures states[n].T() == states[i].T() && states[n].delivered == states[k].delivered
    ensures Waiting(states[n]) && (n > k ==> Committed(states[n]))
  {
    if n > k {
      DeliversAtReturn(states, steps, i, j, k, n - 1);
      RunInv(states, steps, n - 1);
      assert StepAt(states, steps, n - 1);
      WaitingStep(states[n - 1], steps[n - 1]);
      assert !states[n].consumer.PopIdle?;
    }
  }

  // ---- A consumer that only makes timed waits ----------------------------------------

  /** The calls a run is made of: call `k` begins at step `begins[k]` and is back at `ends[k]`; in between
      calls the consumer is idle. */
  ghost predicate AreCalls<V>(states: seq<Ring<V>>, steps: seq<Step<V>>, begins: seq<nat>, ends: seq<nat>) {
    && IsRun(states, steps) && |begins| == |ends|
    && (forall k :: 0 <= k < |begins| ==> IsWaitCall(states, steps, begins[k], ends[k]))
    && (forall k :: 0 <= k < |begins| ==> IdleFrom(states, EndBefore(ends, k), begins[k]))
  }

  function EndBefore(ends: seq<nat>, k: nat): nat
    requires k <= |ends|
  {
    if k == 0 then 0 else ends[k - 1]
  }

  ghost predicate IdleFrom<V>(states: seq<Ring<V>>, i: nat, j: nat) {
    i <= j < |states| && forall m :: i <= m <= j ==> states[m].consumer.PopIdle?
  }

  lemma {:induction false} IdleTakesNothing<V>(states: seq<Ring<V>>, steps: seq<Step<V>>, i: nat, j: nat)
    requires IsRun(states, steps) && IdleFrom(states, i, j)
    ensures states[j].delivered == states[i].delivered && states[j].T() == states[i].T()
    decreases j - i
  {
    if i < j {
      IdleTakesNothing(states, steps, i, j - 1);
      assert StepAt(states, steps, j - 1);
    }
  }

  /** What a call returns: the value it has added to those delivered, if any. */
  ghost function Outcome<V>(states: seq<Ring<V>>, i: nat, j: nat): Option<V>
    requires i < |states| && j < |states|
  {
    var n := |states[j].delivered|;
    if n > |states[i].delivered| then Some(states[j].delivered[n - 1]) else None
  }

  lemma OutcomeOfCall<V>(states: seq<Ring<V>>, steps: seq<Step<V>>, i: nat, j: nat)
    requires IsWaitCall(states, steps, i, j)
    ensures var r := Outcome(states, i, j);
            && (r.Some? <==> exists k :: i < k < j && Sees(states[k], steps[k]))
            && states[j].delivered == states[i].delivered + if r.Some? then [r.value] else []
  {
    WaitReturnsExactlyWhatItSaw(states, steps, i, j);
  }

  ghost function Outcomes<V>(states: seq<Ring<V>>, begins: seq<nat>, ends: seq<nat>): seq<Option<V>>
    requires |begins| == |ends| && forall k :: 0 <= k < |begins| ==> begins[k] < |states| && ends[k] < |states|
  {
    seq(|begins|, k requires 0 <= k < |begins| => Outcome(states, begins[k], ends[k]))
  }

  /** From the end of one call to the end of the next the values delivered grow by what the call returns. */
  ghost predicate CallGrows<V>(states: seq<Ring<V>>, begins: seq<nat>, ends: seq<nat>, k: nat)
    requires k < |begins| == |ends|
  {
    && EndBefore(ends, k) < |states| && begins[k] < |states| && ends[k] < |states|
    && var r := Outcome(states, begins[k], ends[k]);
       states[ends[k]].delivered == states[EndBefore(ends, k)].delivered + if r.Some? then [r.value] else []
  }

  lemma NextCallTakes<V>(states: seq<Ring<V>>, steps: seq<Step<V>>, begins: seq<nat>, ends: seq<nat>, k: nat)
    requires AreCalls(states, steps, begins, ends) && k < |begins|
    ensures CallGrows(states, begins, ends, k)
  {
    assert IdleFrom(states, EndBefore(ends, k), begins[k]);
    OutcomeOfCall(states, steps, begins[k], ends[k]);
    IdleTakesNothing(states, steps, EndBefore(ends, k), begins[k]);
  }

  lemma NothingTakenAtStart<V>(states: seq<Ring<V>>, steps: seq<Step<V>>)
    requires IsRun(states, steps)
    ensures states[0].delivered == []
  {
  }

  lemma GrowthAddsUp<V>(states: seq<Ring<V>>, begins: seq<nat>, ends: seq<nat>)
    requires |begins| == |ends| && states != [] && states[0].delivered == []
    requires forall k: nat :: k < |begins| ==> CallGrows(states, begins, ends, k)
    ensures forall k :: 0 <= k < |begins| ==> begins[k] < |states| && ends[k] < |states|
    ensures EndBefore(ends, |ends|) < |states|
    ensures Present(Outcomes(states, begins, ends)) == states[EndBefore(ends, |ends|)].delivered
  {
    forall k: nat | k < |begins|
      ensures begins[k] < |states| && ends[k] < |states|
    {
      assert CallGrows(states, begins, ends, k);
    }
    var rs := Outcomes(states, begins, ends);
    var grown := seq(|rs| + 1, k requires 0 <= k <= |rs| => states[EndBefore(ends, k)].delivered);
    forall k | 0 <= k < |rs|
      ensures grown[k + 1] == grown[k] + if rs[k].Some? then [rs[k].value] else []
    {
      assert CallGrows(states, begins, ends, k);
    }
    PresentAccumulates(rs, grown);
  }

  /** However old the views of the head its checks load, a consumer's successive calls return, in order, a
      prefix of the values accepted: none is skipped, repeated or overtaken. */
  lemma CallsTakeAcceptedInOrder<V>(states: seq<Ring<V>>, steps: seq<Step<V>>, begins: seq<nat>, ends: seq<nat>)
    requires AreCalls(states, steps, begins, ends)
    ensures var end := EndBefore(ends, |ends|);
            && end < |states|
            && Present(Outcomes(states, begins, ends)) == states[end].delivered
            && states[end].delivered <= states[end].accepted
  {
    forall k: nat | k < |begins|
      ensures CallGrows(states, begins, ends, k)
    {
      NextCallTakes(states, steps, begins, ends, k);
    }
    NothingTakenAtStart(states, steps);
    GrowthAddsUp(states, begins, ends);
    RunInv(states, steps, EndBefore(ends, |ends|));
  }

  /** The states of a run that publishes one value and waits with an old view of the head. */
  ghost function StaleState<V>(k: nat, v: V, blank: V): Ring<V> {
    var s := Start(2, blank);
    var stored := s.(slotWrites := [Write(0, v)], producer := PushStoring(1, v));
    var published := stored.(heads := [Published(0, 0), Published(1, 1)], accepted := [v], producer := PushNotifying);
    if k == 0 then s
    else if k == 1 then s.(producer := PushLoading(0, 1, v))
    else if k == 2 then s.(producer := PushWriting(0, 1, v))
    else if k == 3 then stored
    else if k == 4 then published
    else if k == 5 then published.(consumer := Checking(false))
    else if k == 6 then published.(consumer := Asleep)
    else if k == 7 then published.(consumer := Checking(true))
    else published
  }

  function StaleStep<V>(k: nat, v: V): Step<V> {
    if k == 0 then PushBegin(v)
    else if k == 1 then PushLoadTail(0)
    else if k == 2 then PushWrite
    else if k == 3 then PushStoreHead
    else if k == 4 then WaitBegin
    else if k == 5 then WaitCheck(0)
    else if k == 6 then WaitTimeout
    else WaitCheck(0)
  }

  lemma StaleRunStep<V>(k: nat, v: V, blank: V)
    requires k < 8
    ensures Enabled(StaleState(k, v, blank), StaleStep(k, v))
    ensures Apply(StaleState(k, v, blank), StaleStep(k, v)) == StaleState(k + 1, v, blank)
  {
    if k == 0 {
      assert And(1, 1) == 1;
    }
  }

  /** Acquire loads alone allow the wait to give up although a value was published before its last check:
      the check may load an older head. */
  lemma StaleViewCanMissAValue<V>(v: V, blank: V)
    ensures exists states: seq<Ring<V>>, steps: seq<Step<V>> :: IsRun(states, steps) && |steps| > 0
              && GivesUp(states[|steps| - 1], steps[|steps| - 1])
              && states[|steps| - 1].H() > states[|steps| - 1].T()
  {
    assert Pow2(1) == 2 && IsPow2(2);
    var states := seq(9, k requires 0 <= k < 9 => StaleState(k, v, blank));
    var steps := seq(8, k requires 0 <= k < 8 => StaleStep(k, v));
    forall k: nat | k < 8
      ensures StepAt(states, steps, k)
    {
      StaleRunStep(k, v, blank);
    }
    assert IsRun(states, steps);
    assert GivesUp(states[7], steps[7]) && states[7].H() > states[7].T();
  }
}
