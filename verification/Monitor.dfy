/** The mutex-and-condition-variable protocol of `MessageQueue` and `ThreadSafeQueue`, with any
    number of threads and every interleaving. `notify_one` runs after the mutex is released;
    sleepers may also wake spuriously or by timeout, and any thread may barge in between. */
module Monitor {
  import opened Options
  import opened Counting

  /** `wait()`, `wait_for(duration)` and `waitPop(stopPredicate)`. */
  datatype Kind = Forever | Timed | UntilStop

  datatype Op<V> =
    | Push(v: V)
    | TryPop
    | Clear
    | Wait(kind: Kind, woken: bool, timedOut: bool)

  datatype Thread<V> =
    | Idle
    | Wants(op: Op<V>)     // blocked on the mutex
    | Holds(op: Op<V>)     // inside the critical section
    | ToNotify             // pushed and unlocked, notify_one still to come
    | Sleeping(kind: Kind) // in the condition variable, not notified

  datatype State<V> = State(
    queue: seq<V>,
    threads: seq<Thread<V>>,
    lock: Option<nat>,
    stop: bool,            // what the stop predicate answers
    pushed: seq<V>,        // everything ever pushed
    removed: seq<V>)       // everything ever popped or cleared, in order

  datatype Step<V> =
    | Call(t: nat, op: Op<V>)
    | Acquire(t: nat)
    | Act(t: nat)                        // the critical section, up to and including the unlock
    | Notify(t: nat, wakes: Option<nat>)
    | Spurious(t: nat)
    | Timeout(t: nat)
    | SetStop(value: bool)

  function Start<V>(n: nat): State<V> {
    State([], seq(n, _ => Idle), None, false, [], [])
  }

  ghost predicate IsSleeping<V>(s: State<V>, t: nat) {
    t < |s.threads| && s.threads[t].Sleeping?
  }

  ghost predicate Enabled<V>(s: State<V>, step: Step<V>) {
    match step
    case Call(t, op) => t < |s.threads| && s.threads[t].Idle? && (op.Wait? ==> !op.woken && !op.timedOut)
    case Acquire(t) => t < |s.threads| && s.threads[t].Wants? && s.lock.None?
    case Act(t) => t < |s.threads| && s.threads[t].Holds?
    case Notify(t, w) =>
      && t < |s.threads| && s.threads[t].ToNotify?
      && (if w.Some? then IsSleeping(s, w.value) else forall c :: !IsSleeping(s, c))
    case Spurious(t) => IsSleeping(s, t)
    case Timeout(t) => IsSleeping(s, t) && s.threads[t].kind == Timed
    case SetStop(_) => true
  }

  /** What a thread becomes when it is taken out of the condition variable. */
  function Awakened<V>(kind: Kind, timedOut: bool): Thread<V> {
    Wants(Wait(kind, true, timedOut))
  }

  function Apply<V>(s: State<V>, step: Step<V>): State<V>
    requires Enabled(s, step)
  {
    match step
    case Call(t, op) => s.(threads := s.threads[t := Wants(op)])
    case Acquire(t) => s.(lock := Some(t), threads := s.threads[t := Holds(s.threads[t].op)])
    case Act(t) => Critical(s, t, s.threads[t].op).(lock := None)
    case Notify(t, w) =>
      var ts := s.threads[t := Idle];
      s.(threads := if w.Some? then ts[w.value := Awakened(s.threads[w.value].kind, false)] else ts)
    case Spurious(t) => s.(threads := s.threads[t := Awakened(s.threads[t].kind, false)])
    case Timeout(t) => s.(threads := s.threads[t := Awakened(Timed, true)])
    case SetStop(b) => s.(stop := b)
  }

  function Critical<V>(s: State<V>, t: nat, op: Op<V>): State<V>
    requires t < |s.threads|
  {
    match op
    case Push(v) => s.(queue := s.queue + [v], pushed := s.pushed + [v], threads := s.threads[t := ToNotify])
    case TryPop => Removed(s, if s.queue == [] then 0 else 1).(threads := s.threads[t := Idle])
    case Clear => Removed(s, |s.queue|).(threads := s.threads[t := Idle])
    case Wait(kind, _, timedOut) =>
      if s.queue != [] then Removed(s, 1).(threads := s.threads[t := Idle])
      else if (kind.UntilStop? && s.stop) || (kind.Timed? && timedOut) then s.(threads := s.threads[t := Idle])
      else s.(threads := s.threads[t := Sleeping(kind)])
  }

  function Removed<V>(s: State<V>, n: nat): State<V>
    requires n <= |s.queue|
  {
    s.(queue := s.queue[n..], removed := s.removed + s.queue[..n])
  }

  ghost predicate StepAt<V>(states: seq<State<V>>, steps: seq<Step<V>>, i: nat)
    requires i < |steps| && |states| == |steps| + 1
  {
    Enabled(states[i], steps[i]) && states[i + 1] == Apply(states[i], steps[i])
  }

  ghost predicate IsPath<V>(states: seq<State<V>>, steps: seq<Step<V>>) {
    && |states| == |steps| + 1
    && forall i: nat :: i < |steps| ==> StepAt(states, steps, i)
  }

  ghost predicate IsRun<V>(states: seq<State<V>>, steps: seq<Step<V>>) {
    IsPath(states, steps) && states[0] == Start(|states[0].threads|)
  }

  lemma PathPrepend<V>(s: State<V>, step: Step<V>, states: seq<State<V>>, steps: seq<Step<V>>)
    requires Enabled(s, step) && IsPath(states, steps) && states[0] == Apply(s, step)
    ensures IsPath([s] + states, [step] + steps)
  {
    forall i: nat | i < |steps| + 1
      ensures StepAt([s] + states, [step] + steps, i)
    {
      if i > 0 {
        assert StepAt(states, steps, i - 1);
      }
    }
  }

  // ---- No lost wake-up ---------------------------------------------------------------

  /** A thread that is bound to look at the queue, or to wake one that will: a waiter taken out of
      the condition variable that has not rechecked yet, or a producer before its notify_one. */
  function Server<V>(th: Thread<V>): nat {
    match th
    case ToNotify => 1
    case Wants(op) => if op.Wait? && op.woken then 1 else 0
    case Holds(op) => if op.Wait? && op.woken then 1 else 0
    case _ => 0
  }

  ghost predicate Inv<V>(s: State<V>) {
    && (forall t :: 0 <= t < |s.threads| ==> (s.threads[t].Holds? <==> s.lock == Some(t)))
    && (s.lock.Some? ==> s.lock.value < |s.threads|)
    && s.removed + s.queue == s.pushed
    && ((exists c :: IsSleeping(s, c)) ==> |s.queue| <= Total(Server, s.threads))
  }

  lemma StartInv<V>(n: nat)
    ensures Inv(Start<V>(n))
  {
  }

  lemma RemovedFrom<V>(s: State<V>, n: nat)
    requires n <= |s.queue| && s.removed + s.queue == s.pushed
    ensures Removed(s, n).removed + Removed(s, n).queue == s.pushed
  {
    assert s.queue[..n] + s.queue[n..] == s.queue;
  }

  lemma ActFifo<V>(s: State<V>, t: nat)
    requires Enabled(s, Act(t)) && s.removed + s.queue == s.pushed
    ensures var s' := Apply(s, Act(t)); s'.removed + s'.queue == s'.pushed
  {
    match s.threads[t].op
    case Push(v) => assert s.removed + (s.queue + [v]) == s.pushed + [v];
    case TryPop => RemovedFrom(s, if s.queue == [] then 0 else 1);
    case Clear => RemovedFrom(s, |s.queue|);
    case Wait(_, _, _) => RemovedFrom(s, if s.queue == [] then 0 else 1);
  }

  lemma ActServers<V>(s: State<V>, t: nat)
    requires Inv(s) && Enabled(s, Act(t))
    ensures var s' := Apply(s, Act(t));
            (exists c :: IsSleeping(s', c)) ==> |s'.queue| <= Total(Server, s'.threads)
  {
    var s' := Apply(s, Act(t));
    assert s'.threads == s.threads[t := s'.threads[t]];
    TotalUpdate(Server, s.threads, t, s'.threads[t]);
    forall c | IsSleeping(s', c) && c != t
      ensures IsSleeping(s, c)
    {
    }
  }

  lemma ActInv<V>(s: State<V>, t: nat)
    requires Inv(s) && Enabled(s, Act(t))
    ensures Inv(Apply(s, Act(t)))
  {
    var s' := Apply(s, Act(t));
    ActFifo(s, t);
    ActServers(s, t);
    assert s'.lock.None? && |s'.threads| == |s.threads| && !s'.threads[t].Holds?;
  }

  lemma NotifyInv<V>(s: State<V>, t: nat, w: Option<nat>)
    requires Inv(s) && Enabled(s, Notify(t, w))
    ensures Inv(Apply(s, Notify(t, w)))
  {
    var s' := Apply(s, Notify(t, w));
    TotalUpdate(Server, s.threads, t, Idle);
    if w.Some? {
      TotalUpdate(Server, s.threads[t := Idle], w.value, s'.threads[w.value]);
    }
    forall c | IsSleeping(s', c)
      ensures IsSleeping(s, c)
    {
    }
  }

  lemma OtherStepInv<V>(s: State<V>, step: Step<V>)
    requires Inv(s) && Enabled(s, step) && !step.Act? && !step.Notify?
    ensures Inv(Apply(s, step))
  {
    var s' := Apply(s, step);
    if !step.SetStop? {
      TotalUpdate(Server, s.threads, step.t, s'.threads[step.t]);
    }
    forall c | IsSleeping(s', c)
      ensures IsSleeping(s, c)
    {
    }
  }

  lemma StepInv<V>(s: State<V>, step: Step<V>)
    requires Inv(s) && Enabled(s, step)
    ensures Inv(Apply(s, step)) && |Apply(s, step).threads| == |s.threads|
  {
    match step
    case Act(t) => ActInv(s, t);
    case Notify(t, w) => NotifyInv(s, t, w);
    case _ => OtherStepInv(s, step);
  }

  lemma {:induction false} RunInv<V>(states: seq<State<V>>, steps: seq<Step<V>>, i: nat)
    requires IsRun(states, steps) && i < |states|
    ensures Inv(states[i])
  {
    if i == 0 {
      StartInv<V>(|states[0].threads|);
    } else {
      RunInv(states, steps, i - 1);
      assert StepAt(states, steps, i - 1);
      StepInv(states[i - 1], steps[i - 1]);
    }
  }

  /** In every reachable state in which somebody sleeps un-notified, each queued item has its own
      thread on the way: a woken waiter or a producer about to notify. */
  lemma NoLostWakeUp<V>(states: seq<State<V>>, steps: seq<Step<V>>, i: nat, c: nat)
    requires IsRun(states, steps) && i < |states| && IsSleeping(states[i], c)
    ensures |states[i].queue| <= Total(Server, states[i].threads)
  {
    RunInv(states, steps, i);
  }

  /** What the critical section taken in this step was called to push. */
  function PushedBy<V>(s: State<V>, step: Step<V>): seq<V> {
    match step
    case Act(t) =>
      if t < |s.threads| && s.threads[t].Holds? && s.threads[t].op.Push? then [s.threads[t].op.v] else []
    case _ => []
  }

  /** Everything pushed in the first `n` steps of a run, read off its steps. */
  function PushedIn<V>(states: seq<State<V>>, steps: seq<Step<V>>, n: nat): seq<V>
    requires n <= |steps| < |states|
  {
    if n == 0 then [] else PushedIn(states, steps, n - 1) + PushedBy(states[n - 1], steps[n - 1])
  }

  lemma LogStep<V>(s: State<V>, step: Step<V>)
    requires Enabled(s, step)
    ensures Apply(s, step).pushed == s.pushed + PushedBy(s, step)
  {
  }

  lemma {:induction false} LogIsWhatWasPushed<V>(states: seq<State<V>>, steps: seq<Step<V>>, i: nat)
    requires IsRun(states, steps) && i < |states|
    ensures states[i].pushed == PushedIn(states, steps, i)
  {
    if i > 0 {
      LogIsWhatWasPushed(states, steps, i - 1);
      assert StepAt(states, steps, i - 1);
      LogStep(states[i - 1], steps[i - 1]);
    }
  }

  /** First in, first out, nothing lost or duplicated: what was removed and then what is queued is the
      values of the push critical sections, in order; at most one thread in the critical section. */
  lemma FifoUnderMutualExclusion<V>(states: seq<State<V>>, steps: seq<Step<V>>, i: nat, t: nat, u: nat)
    requires IsRun(states, steps) && i < |states|
    requires t < |states[i].threads| && u < |states[i].threads|
    ensures states[i].removed + states[i].queue == PushedIn(states, steps, i)
    ensures states[i].threads[t].Holds? && states[i].threads[u].Holds? ==> t == u
  {
    RunInv(states, steps, i);
    LogIsWhatWasPushed(states, steps, i);
  }

  // ---- Calls that do not wait --------------------------------------------------------

  /** The call of `op` that thread `t` makes at step `i` has not had its critical section by state `j`. */
  ghost predicate Entering<V>(states: seq<State<V>>, steps: seq<Step<V>>, i: nat, j: nat, t: nat, op: Op<V>) {
    && IsRun(states, steps) && i < j < |states| && steps[i] == Call(t, op) && !op.Wait?
    && forall k :: i < k < j ==> steps[k] != Act(t)
  }

  /** Until then the thread is on its way with the operation it was called with. */
  lemma {:induction false} OnItsWay<V>(states: seq<State<V>>, steps: seq<Step<V>>, i: nat, j: nat, t: nat, op: Op<V>)
    requires Entering(states, steps, i, j, t, op)
    ensures t < |states[j].threads| && (states[j].threads[t] == Wants(op) || states[j].threads[t] == Holds(op))
    decreases j
  {
    assert StepAt(states, steps, j - 1);
    if j > i + 1 {
      OnItsWay(states, steps, i, j - 1, t, op);
      assert steps[j - 1] != Act(t);
    }
  }

  /** The critical section of a `push`, `try_pop` or `clear` call, in any run: the pushed value is the one
      of the call and goes to the back, and the notification follows; `try_pop` takes the front item if
      there is one; `clear` takes everything. */
  lemma CallHasItsEffect<V>(states: seq<State<V>>, steps: seq<Step<V>>, i: nat, j: nat, t: nat, op: Op<V>)
    requires Entering(states, steps, i, j, t, op) && j < |steps| && steps[j] == Act(t)
    ensures t < |states[j + 1].threads| && states[j + 1].lock == None
    ensures var s, s' := states[j], states[j + 1];
            match op
            case Push(v) => s'.queue == s.queue + [v] && s'.removed == s.removed && s'.threads[t].ToNotify?
            case TryPop =>
              && s'.threads[t].Idle?
              && (s.queue == [] ==> s'.queue == [] && s'.removed == s.removed)
              && (s.queue != [] ==> [s.queue[0]] + s'.queue == s.queue && s'.removed == s.removed + [s.queue[0]])
            case Clear => s'.threads[t].Idle? && s'.queue == [] && s'.removed == s.removed + s.queue
            case Wait(_, _, _) => false
  {
    OnItsWay(states, steps, i, j, t, op);
    assert StepAt(states, steps, j);
  }

  // ---- A whole call ------------------------------------------------------------------

  /** Thread `t` is inside a blocking pop of this kind. */
  predicate InWait<V>(th: Thread<V>, kind: Kind) {
    match th
    case Wants(op) => op.Wait? && op.kind == kind
    case Holds(op) => op.Wait? && op.kind == kind
    case Sleeping(k) => k == kind
    case _ => false
  }

  predicate TimedOut<V>(th: Thread<V>) {
    (th.Wants? || th.Holds?) && th.op.Wait? && th.op.timedOut
  }

  /** Thread `t` calls a blocking pop at step `i` and is back at state `j`, not before. */
  ghost predicate IsCall<V>(states: seq<State<V>>, steps: seq<Step<V>>, i: nat, j: nat, t: nat, kind: Kind) {
    && IsRun(states, steps) && i < j < |states|
    && steps[i] == Call(t, Wait(kind, false, false))
    && (forall k :: i < k < j ==> t < |states[k].threads| && !states[k].threads[t].Idle?)
    && t < |states[j].threads| && states[j].threads[t].Idle?
  }

  lemma CallStep<V>(s: State<V>, step: Step<V>, t: nat, kind: Kind)
    requires Enabled(s, step) && t < |s.threads| && InWait(s.threads[t], kind)
    ensures t < |Apply(s, step).threads|
    ensures var th := Apply(s, step).threads[t];
            && (th.Idle? ==> step == Act(t))
            && (th.Idle? || InWait(th, kind))
            && (TimedOut(th) ==> TimedOut(s.threads[t]) || step == Timeout(t))
            && (step == Timeout(t) ==> kind == Timed)
  {
  }

  lemma {:induction false} InsideCall<V>(states: seq<State<V>>, steps: seq<Step<V>>, i: nat, j: nat, t: nat, kind: Kind, k: nat)
    requires IsCall(states, steps, i, j, t, kind) && i < k < j
    ensures InWait(states[k].threads[t], kind)
    ensures TimedOut(states[k].threads[t]) ==> exists m :: i < m < k && steps[m] == Timeout(t)
  {
    assert StepAt(states, steps, k - 1);
    if k > i + 1 {
      InsideCall(states, steps, i, j, t, kind, k - 1);
      CallStep(states[k - 1], steps[k - 1], t, kind);
    }
  }

  /** A call of `wait`, `wait_for` or `waitPop` in any run. Each of its checks but the last finds the
      queue empty and takes nothing; the last one either takes the front item or finds the queue empty,
      and then the call was `waitPop` reading its predicate true or `wait_for` after a timeout of its
      own. `wait` has no such end. */
  lemma CallReturnsItemOrGivesUp<V>(states: seq<State<V>>, steps: seq<Step<V>>, i: nat, j: nat, t: nat, kind: Kind)
    requires IsCall(states, steps, i, j, t, kind)
    ensures j > i + 1 && steps[j - 1] == Act(t)
    ensures var s, s' := states[j - 1], states[j];
            if s.queue != [] then s'.removed == s.removed + [s.queue[0]] && s'.queue == s.queue[1..]
            else && s'.removed == s.removed && s'.queue == []
                 && ((kind == UntilStop && s.stop) || (kind == Timed && exists m :: i < m < j && steps[m] == Timeout(t)))
    ensures forall k :: i < k < j - 1 && steps[k] == Act(t) ==>
              && states[k].queue == [] && states[k + 1].removed == states[k].removed
              && t < |states[k + 1].threads| && states[k + 1].threads[t] == Sleeping(kind) && !(kind == UntilStop && states[k].stop)
  {
    assert StepAt(states, steps, i);
    assert StepAt(states, steps, j - 1);
    InsideCall(states, steps, i, j, t, kind, j - 1);
    CallStep(states[j - 1], steps[j - 1], t, kind);
    forall k | i < k < j - 1 && steps[k] == Act(t)
      ensures && states[k].queue == [] && states[k + 1].removed == states[k].removed
              && states[k + 1].threads[t] == Sleeping(kind) && !(kind == UntilStop && states[k].stop)
    {
      assert StepAt(states, steps, k);
      InsideCall(states, steps, i, j, t, kind, k);
      assert !states[k + 1].threads[t].Idle?;
    }
  }

  /** A call that comes back with nothing does so when everything ever pushed has been taken, whoever
      took it; one that comes back with an item takes the next in the order of the pushes. So with the
      stop predicate true for good, any number of callers drain the queue before the first of them comes
      back with nothing. */
  lemma EmptyReturnMeansAllTaken<V>(states: seq<State<V>>, steps: seq<Step<V>>, i: nat, j: nat, t: nat, kind: Kind)
    requires IsCall(states, steps, i, j, t, kind)
    ensures |states[j - 1].removed| <= |states[j].removed|
    ensures var pushed := PushedIn(states, steps, j);
            if states[j].removed == states[j - 1].removed
            then states[j].removed == pushed
            else && |states[j - 1].removed| < |pushed|
                 && states[j].removed == states[j - 1].removed + [pushed[|states[j - 1].removed|]]
  {
    CallReturnsItemOrGivesUp(states, steps, i, j, t, kind);
    LogIsWhatWasPushed(states, steps, j);
    RunInv(states, steps, j - 1);
    RunInv(states, steps, j);
    var s, s' := states[j - 1], states[j];
    if s.queue != [] {
      assert s'.removed == s.removed + [s.queue[0]];
      assert s'.pushed[|s.removed|] == s'.removed[|s.removed|];
    }
  }

  /** A caller taken out of the condition variable at step `i`, by a notification, spuriously or by its
      timeout, has not checked again by state `j`. */
  ghost predicate Rechecks<V>(states: seq<State<V>>, steps: seq<Step<V>>, i: nat, j: nat, t: nat) {
    && IsRun(states, steps) && i < j < |states| && IsSleeping(states[i], t)
    && (steps[i] == Spurious(t) || steps[i] == Timeout(t) || (steps[i].Notify? && steps[i].wakes == Some(t)))
    && forall k :: i < k < j ==> steps[k] != Act(t)
  }

  /** It is out of it until it has checked; and a check after its timeout ends the call. */
  lemma {:induction false} WokenRechecks<V>(states: seq<State<V>>, steps: seq<Step<V>>, i: nat, j: nat, t: nat)
    requires Rechecks(states, steps, i, j, t)
    ensures t < |states[j].threads| && InWait(states[j].threads[t], states[i].threads[t].kind)
    ensures !states[j].threads[t].Sleeping? && (TimedOut(states[j].threads[t]) <==> steps[i] == Timeout(t))
    ensures j < |steps| && steps[j] == Act(t) && steps[i] == Timeout(t) ==>
              t < |states[j + 1].threads| && states[j + 1].threads[t].Idle?
    decreases j
  {
    assert StepAt(states, steps, i);
    assert StepAt(states, steps, j - 1);
    if j > i + 1 {
      WokenRechecks(states, steps, i, j - 1, t);
      assert steps[j - 1] != Act(t);
    }
    if j < |steps| {
      assert StepAt(states, steps, j);
    }
  }

  // ---- Progress ----------------------------------------------------------------------

  /** Steps the program itself owes, as opposed to new calls, clocks and the environment. */
  predicate Internal<V>(step: Step<V>) {
    step.Acquire? || step.Act? || step.Notify?
  }

  /** An upper bound on the internal steps a thread can still cause. */
  function Work<V>(th: Thread<V>): nat {
    match th
    case Idle => 0
    case Sleeping(_) => 0
    case ToNotify => 3
    case Holds(op) => if op.Push? then 4 else 1
    case Wants(op) => if op.Push? then 5 else 2
  }

  lemma InternalStepSpendsWork<V>(s: State<V>, step: Step<V>)
    requires Enabled(s, step) && Internal(step)
    ensures Total(Work, Apply(s, step).threads) < Total(Work, s.threads)
  {
    var s' := Apply(s, step);
    match step
    case Acquire(t) => TotalUpdate(Work, s.threads, t, s'.threads[t]);
    case Act(t) => TotalUpdate(Work, s.threads, t, s'.threads[t]);
    case Notify(t, w) =>
      TotalUpdate(Work, s.threads, t, Idle);
      if w.Some? {
        TotalUpdate(Work, s.threads[t := Idle], w.value, s'.threads[w.value]);
      }
  }

  ghost predicate Quiescent<V(!new)>(s: State<V>) {
    forall step: Step<V> :: Internal(step) ==> !Enabled(s, step)
  }

  /** With no internal step left, no thread is in between: all are idle or asleep. */
  lemma QuiescentThreadsRest<V(!new)>(s: State<V>, t: nat)
    requires Inv(s) && Quiescent(s) && t < |s.threads|
    ensures s.lock.None? && (s.threads[t].Idle? || s.threads[t].Sleeping?)
  {
    if s.lock.Some? {
      assert Internal<V>(Act(s.lock.value)) && Enabled(s, Act(s.lock.value));
    }
    assert Internal<V>(Acquire(t)) && Internal<V>(Act(t));
    assert !Enabled(s, Acquire(t)) && !Enabled(s, Act(t));
    if s.threads[t].ToNotify? {
      if c :| IsSleeping(s, c) {
        assert Internal<V>(Notify(t, Some(c))) && Enabled(s, Notify(t, Some(c)));
      } else {
        assert Internal<V>(Notify(t, None)) && Enabled(s, Notify(t, None));
      }
    }
  }

  /** From any reachable state, a stretch of internal steps is bounded, and where it cannot go on an
      item and a sleeper never remain together: no schedule wedges a consumer beside a message. */
  lemma {:induction false} InternalStepsServeEverySleeper<V(!new)>(states: seq<State<V>>, steps: seq<Step<V>>, i: nat, j: nat)
    requires IsRun(states, steps) && i <= j < |states|
    requires forall k :: i <= k < j ==> Internal(steps[k])
    ensures j - i + Total(Work, states[j].threads) <= Total(Work, states[i].threads)
    ensures Quiescent(states[j]) ==> states[j].queue == [] || forall c :: !IsSleeping(states[j], c)
    decreases j - i
  {
    if i < j {
      assert StepAt(states, steps, j - 1);
      InternalStepsServeEverySleeper(states, steps, i, j - 1);
      InternalStepSpendsWork(states[j - 1], steps[j - 1]);
    }
    RunInv(states, steps, j);
    var s := states[j];
    if Quiescent(s) && (exists c :: IsSleeping(s, c)) {
      forall t | 0 <= t < |s.threads|
        ensures Server(s.threads[t]) == 0
      {
        QuiescentThreadsRest(s, t);
      }
      TotalZero(Server, s.threads);
    }
  }

  /** A push on its way: not yet through its critical section, or not yet at its notify_one. */
  predicate PushInFlight<V>(th: Thread<V>) {
    th.ToNotify? || ((th.Wants? || th.Holds?) && th.op.Push?)
  }

  /** A continuation by steps the program owes that brings thread `c` back from its call. */
  ghost predicate Returns<V>(s: State<V>, c: nat, states: seq<State<V>>, steps: seq<Step<V>>) {
    && IsPath(states, steps) && states[0] == s
    && (forall k :: 0 <= k < |steps| ==> Internal(steps[k]))
    && c < |states[|steps|].threads| && states[|steps|].threads[c].Idle?
  }

  lemma ReturnsPrepend<V>(s: State<V>, step: Step<V>, c: nat, states: seq<State<V>>, steps: seq<Step<V>>)
    requires Enabled(s, step) && Internal(step) && Returns(Apply(s, step), c, states, steps)
    ensures Returns(s, c, [s] + states, [step] + steps)
  {
    PathPrepend(s, step, states, steps);
  }

  /** Nobody is going to notify, and the caller sleeps. */
  ghost predicate LeftAsleep<V>(s: State<V>, c: nat) {
    IsSleeping(s, c) && forall t :: 0 <= t < |s.threads| ==> !PushInFlight(s.threads[t])
  }

  lemma LeftAsleepStep<V>(s: State<V>, step: Step<V>, c: nat)
    requires LeftAsleep(s, c) && Enabled(s, step) && Internal(step)
    ensures LeftAsleep(Apply(s, step), c)
  {
  }

  lemma {:induction false} LeftAsleepForGood<V>(states: seq<State<V>>, steps: seq<Step<V>>, c: nat, k: nat)
    requires IsPath(states, steps) && LeftAsleep(states[0], c) && k < |states|
    requires forall m :: 0 <= m < |steps| ==> Internal(steps[m])
    ensures LeftAsleep(states[k], c)
  {
    if k > 0 {
      LeftAsleepForGood(states, steps, c, k - 1);
      assert StepAt(states, steps, k - 1);
      LeftAsleepStep(states[k - 1], steps[k - 1], c);
    }
  }

  /** A woken caller that finds the mutex free comes back. */
  lemma WokenReturns<V>(s: State<V>, c: nat) returns (states: seq<State<V>>, steps: seq<Step<V>>)
    requires s.stop && s.lock.None? && c < |s.threads| && s.threads[c] == Awakened(UntilStop, false)
    ensures Returns(s, c, states, steps)
  {
    var s1 := Apply(s, Acquire(c));
    var s2 := Apply(s1, Act(c));
    states, steps := [s2], [];
    ReturnsPrepend(s1, Act(c), c, states, steps);
    ReturnsPrepend(s, Acquire(c), c, [s1] + states, [Act(c)] + steps);
    states, steps := [s] + ([s1] + states), [Acquire(c)] + ([Act(c)] + steps);
  }

  /** With the mutex free, a push on its way can go on until its notify_one picks this caller. */
  lemma {:induction false} PusherReturns<V>(s: State<V>, c: nat, t: nat) returns (states: seq<State<V>>, steps: seq<Step<V>>)
    requires Inv(s) && s.stop && s.lock.None? && IsSleeping(s, c) && s.threads[c].kind == UntilStop
    requires t < |s.threads| && PushInFlight(s.threads[t])
    ensures Returns(s, c, states, steps)
  {
    if s.threads[t].ToNotify? {
      var step := Notify(t, Some(c));
      states, steps := WokenReturns(Apply(s, step), c);
      ReturnsPrepend(s, step, c, states, steps);
      states, steps := [s] + states, [step] + steps;
    } else {
      var s1 := Apply(s, Acquire(t));
      var s2 := Apply(s1, Act(t));
      var s3 := Apply(s2, Notify(t, Some(c)));
      states, steps := WokenReturns(s3, c);
      ReturnsPrepend(s2, Notify(t, Some(c)), c, states, steps);
      ReturnsPrepend(s1, Act(t), c, [s2] + states, [Notify(t, Some(c))] + steps);
      ReturnsPrepend(s, Acquire(t), c, [s1] + ([s2] + states), [Act(t)] + ([Notify(t, Some(c))] + steps));
      states := [s] + ([s1] + ([s2] + states));
      steps := [Acquire(t)] + ([Act(t)] + ([Notify(t, Some(c))] + steps));
    }
  }

  lemma InFlightReturns<V>(s: State<V>, c: nat, t: nat) returns (states: seq<State<V>>, steps: seq<Step<V>>)
    requires Inv(s) && s.stop && IsSleeping(s, c) && s.threads[c].kind == UntilStop
    requires t < |s.threads| && PushInFlight(s.threads[t])
    ensures Returns(s, c, states, steps)
  {
    if s.lock.None? {
      states, steps := PusherReturns(s, c, t);
    } else {
      var step := Act(s.lock.value);
      StepInv(s, step);
      states, steps := PusherReturns(Apply(s, step), c, t);
      ReturnsPrepend(s, step, c, states, steps);
      states, steps := [s] + states, [step] + steps;
    }
  }

  /** Exactly when the program itself can still bring a sleeping `waitPop` caller back after its stop
      predicate has turned true: when some push has yet to reach its notify_one. A push whose item was
      taken by somebody else will do. */
  lemma StoppedCallerReturnsExactlyWithPushInFlight<V(!new)>(states: seq<State<V>>, steps: seq<Step<V>>, i: nat, c: nat)
    requires IsRun(states, steps) && i < |states| && states[i].stop
    requires IsSleeping(states[i], c) && states[i].threads[c].kind == UntilStop
    ensures (exists more, labels :: Returns(states[i], c, more, labels)) <==>
            exists t :: 0 <= t < |states[i].threads| && PushInFlight(states[i].threads[t])
  {
    var s := states[i];
    RunInv(states, steps, i);
    if t :| 0 <= t < |s.threads| && PushInFlight(s.threads[t]) {
      var more, labels := InFlightReturns(s, c, t);
    } else {
      forall more, labels
        ensures !Returns(s, c, more, labels)
      {
        if Returns(s, c, more, labels) {
          LeftAsleepForGood(more, labels, c, |labels|);
        }
      }
    }
  }

  // ---- How many stay asleep, under every schedule ------------------------------------

  function InFlight<V>(th: Thread<V>): nat {
    if PushInFlight(th) then 1 else 0
  }

  function Asleep<V>(th: Thread<V>): nat {
    if th.Sleeping? then 1 else 0
  }

  /** Sleepers that no push on its way is going to wake. */
  function LeftOver<V>(s: State<V>): nat {
    var sleepers, pushes := Total(Asleep, s.threads), Total(InFlight, s.threads);
    if sleepers > pushes then sleepers - pushes else 0
  }

  /** As in `ThreadSafeQueue`, whose only wait is `waitPop`. */
  predicate OnlyUntilStop<V>(th: Thread<V>) {
    match th
    case Wants(op) => op.Wait? ==> op.kind == UntilStop
    case Holds(op) => op.Wait? ==> op.kind == UntilStop
    case Sleeping(kind) => kind == UntilStop
    case _ => true
  }

  ghost predicate StoppedQueue<V>(s: State<V>) {
    s.stop && forall t :: 0 <= t < |s.threads| ==> OnlyUntilStop(s.threads[t])
  }

  lemma NobodyAsleep<V>(s: State<V>)
    requires forall c :: !IsSleeping(s, c)
    ensures Total(Asleep, s.threads) == 0
  {
    forall t | 0 <= t < |s.threads|
      ensures Asleep(s.threads[t]) == 0
    {
      assert !IsSleeping(s, t);
    }
    TotalZero(Asleep, s.threads);
  }

  lemma LeftOverNotify<V>(s: State<V>, t: nat, w: Option<nat>)
    requires Enabled(s, Notify(t, w))
    ensures LeftOver(Apply(s, Notify(t, w))) == LeftOver(s)
  {
    var ts := s.threads[t := Idle];
    TotalUpdate(InFlight, s.threads, t, Idle);
    TotalUpdate(Asleep, s.threads, t, Idle);
    if w.Some? {
      var th := Awakened<V>(s.threads[w.value].kind, false);
      TotalUpdate(InFlight, ts, w.value, th);
      TotalUpdate(Asleep, ts, w.value, th);
    } else {
      NobodyAsleep(s);
    }
  }

  lemma LeftOverStep<V>(s: State<V>, step: Step<V>)
    requires StoppedQueue(s) && Enabled(s, step) && Internal(step)
    ensures LeftOver(Apply(s, step)) == LeftOver(s) && StoppedQueue(Apply(s, step))
  {
    if step.Notify? {
      LeftOverNotify(s, step.t, step.wakes);
    } else {
      var th := Apply(s, step).threads[step.t];
      assert Apply(s, step).threads == s.threads[step.t := th];
      TotalUpdate(InFlight, s.threads, step.t, th);
      TotalUpdate(Asleep, s.threads, step.t, th);
    }
  }

  /** Once the stop predicate holds, under every schedule of the steps the program owes: each push on its
      way wakes one sleeper, the schedule is bounded, and where it ends the sleepers left are exactly
      those in excess of the pushes there were on their way. */
  lemma {:induction false} StopLeavesExcessSleepers<V(!new)>(states: seq<State<V>>, steps: seq<Step<V>>, i: nat, j: nat)
    requires IsRun(states, steps) && i <= j < |states| && StoppedQueue(states[i])
    requires forall k :: i <= k < j ==> Internal(steps[k])
    ensures StoppedQueue(states[j]) && LeftOver(states[j]) == LeftOver(states[i])
    ensures j - i + Total(Work, states[j].threads) <= Total(Work, states[i].threads)
    ensures Quiescent(states[j]) ==> Total(Asleep, states[j].threads) == LeftOver(states[i])
    decreases j - i
  {
    InternalStepsServeEverySleeper(states, steps, i, j);
    if i < j {
      StopLeavesExcessSleepers(states, steps, i, j - 1);
      assert StepAt(states, steps, j - 1);
      LeftOverStep(states[j - 1], steps[j - 1]);
    }
    if Quiescent(states[j]) {
      NoPushAtRest(states, steps, j);
    }
  }

  lemma NoPushAtRest<V(!new)>(states: seq<State<V>>, steps: seq<Step<V>>, j: nat)
    requires IsRun(states, steps) && j < |states| && Quiescent(states[j])
    ensures Total(InFlight, states[j].threads) == 0
  {
    var s := states[j];
    RunInv(states, steps, j);
    forall t | 0 <= t < |s.threads|
      ensures InFlight(s.threads[t]) == 0
    {
      QuiescentThreadsRest(s, t);
    }
    TotalZero(InFlight, s.threads);
  }

  /** So a `waitPop` caller can sleep on, with the predicate true and nothing left that the program
      owes it. */
  lemma StoppedCallerCanSleepOn<V(!new)>()
    ensures exists states: seq<State<V>>, steps: seq<Step<V>> ::
              && IsRun(states, steps)
              && states[|steps|].stop && Quiescent(states[|steps|])
              && IsSleeping(states[|steps|], 0) && states[|steps|].threads[0].kind == UntilStop
  {
    var op: Op<V> := Wait(UntilStop, false, false);
    var s0 := Start<V>(1);
    var s1 := s0.(threads := [Wants(op)]);
    var s2 := s0.(threads := [Holds(op)], lock := Some(0));
    var s3 := s0.(threads := [Sleeping(UntilStop)]);
    var s4 := s3.(stop := true);
    var states := [s0, s1, s2, s3, s4];
    var steps := [Call(0, op), Acquire(0), Act(0), SetStop(true)];
    assert s0.threads == [Idle];
    assert Apply(s0, steps[0]) == s1;
    assert Apply(s1, steps[1]) == s2;
    assert Apply(s2, steps[2]) == s3;
    assert IsRun(states, steps);
    assert Quiescent(s4) && IsSleeping(s4, 0);
  }
}
