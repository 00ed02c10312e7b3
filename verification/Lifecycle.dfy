/** The manager's control thread and the threads of its tasks, step by step: the loops over the task
    list, the stop source that `restartAllThreads` replaces, joins that block, and which task objects
    are still owned by somebody. */
module Lifecycle {
  import opened Options
  import opened Counting

  /** A task object. Its run body makes `left` more steps before it looks at its token again. */
  datatype Task = Task(
    active: bool,            // a run body is in progress
    source: nat,             // the manager's stop source whose token the body was given
    internalStop: bool,      // stop requested on the jthread itself
    left: nat,
    receivers: set<nat>)     // the tasks whose queues its senders point to

  datatype Control =
    | Ready
    | Adding(pending: seq<nat>)          // initTestChain: created and linked, still to be started
    | Restarting(next: nat)
    | Stopping(next: nat, clear: bool)   // stopAllThreads; with clear, terminateAllThreads
    | StoppingLast

  datatype State = State(
    sources: seq<bool>,      // every stop source ever made, and whether it was stopped
    current: nat,            // m_stopSource
    objects: seq<Task>,      // every task ever created
    tasks: seq<nat>,         // m_tasks
    observer: Option<nat>,   // m_observerIncoming
    held: set<nat>,          // tasks the caller of addTask kept a pointer to
    control: Control)

  /** `AddTask` is a new task whose start succeeds; it can send to listed tasks and to itself. */
  datatype Step =
    | InitChain
    | StartNext(left: nat)
    | AddTask(receivers: set<nat>, left: nat, keep: bool)
    | Release(t: nat)
    | RestartBegin
    | RestartNext(left: nat)
    | StopBegin(clear: bool)
    | JoinNext
    | StopLastBegin
    | StopLastEnd
    | RequestStop
    | Work(t: nat)
    | Check(t: nat, left: nat)

  function Init(): State {
    State([false], 0, [], [], None, {}, Ready)
  }

  /** The combined token of a run body. */
  predicate Stopped(s: State, t: nat)
    requires t < |s.objects|
  {
    s.objects[t].internalStop
    || (s.objects[t].source < |s.sources| && s.sources[s.objects[t].source])
  }

  predicate Active(s: State, t: nat) {
    t < |s.objects| && s.objects[t].active
  }

  /** Observer, application observer, processing, transformation, result, with their senders. */
  function ChainTasks(n: nat): seq<Task> {
    [Task(false, 0, false, 0, {n + 1, n + 2}),
     Task(false, 0, false, 0, {n + 2, n}),
     Task(false, 0, false, 0, {n + 3}),
     Task(false, 0, false, 0, {n + 4}),
     Task(false, 0, false, 0, {})]
  }

  predicate WellFormed(s: State) {
    && s.current < |s.sources|
    && (forall k :: 0 <= k < |s.tasks| ==> s.tasks[k] < |s.objects|)
    && (s.control.Adding? ==> forall k :: 0 <= k < |s.control.pending| ==> s.control.pending[k] < |s.objects|)
    && (s.control.Restarting? || s.control.Stopping? ==> s.control.next <= |s.tasks|)
  }

  predicate Enabled(s: State, step: Step)
    requires WellFormed(s)
  {
    match step
    case InitChain => s.control.Ready?
    case StartNext(_) => s.control.Adding?
    case AddTask(receivers, _, _) => s.control.Ready? && forall r :: r in receivers ==> r in s.tasks || r == |s.objects|
    case Release(t) => s.control.Ready? && t in s.held
    case RestartBegin => s.control.Ready?
    case RestartNext(_) => s.control.Restarting?
    case StopBegin(_) => s.control.Ready?
    case JoinNext => s.control.Stopping? && (s.control.next < |s.tasks| ==> !Active(s, s.tasks[s.control.next]))
    case StopLastBegin => s.control.Ready? && s.tasks != []
    case StopLastEnd => s.control.StoppingLast? && s.tasks != [] && !Active(s, s.tasks[|s.tasks| - 1])
    case RequestStop => s.control.Ready?
    case Work(t) => Active(s, t) && s.objects[t].left > 0
    case Check(t, _) => Active(s, t) && s.objects[t].left == 0
  }

  function Started(s: State, t: nat, left: nat): seq<Task>
    requires t < |s.objects|
  {
    s.objects[t := s.objects[t].(active := true, source := s.current, internalStop := false, left := left)]
  }

  function Apply(s: State, step: Step): State
    requires WellFormed(s) && Enabled(s, step)
  {
    match step
    case InitChain =>
      var n := |s.objects|;
      s.(objects := s.objects + ChainTasks(n), observer := Some(n),
         control := Adding([n, n + 1, n + 2, n + 3, n + 4]))
    case StartNext(left) =>
      if s.control.pending == [] then s.(control := Ready)
      else
        var t := s.control.pending[0];
        s.(objects := Started(s, t, left), tasks := s.tasks + [t], control := Adding(s.control.pending[1..]))
    case AddTask(receivers, left, keep) =>
      var n := |s.objects|;
      s.(objects := s.objects + [Task(true, s.current, false, left, receivers)], tasks := s.tasks + [n],
         held := if keep then s.held + {n} else s.held)
    case Release(t) => s.(held := s.held - {t})
    case RestartBegin =>
      s.(sources := s.sources + [false], current := |s.sources|, control := Restarting(0))
    case RestartNext(left) =>
      var i := s.control.next;
      if i == |s.tasks| then s.(control := Ready)
      else if Active(s, s.tasks[i]) then s.(control := Restarting(i + 1))
      else s.(objects := Started(s, s.tasks[i], left), control := Restarting(i + 1))
    case StopBegin(clear) => s.(sources := s.sources[s.current := true], control := Stopping(0, clear))
    case JoinNext =>
      var i := s.control.next;
      if i < |s.tasks| then s.(control := Stopping(i + 1, s.control.clear))
      else s.(control := Ready, tasks := if s.control.clear then [] else s.tasks)
    case StopLastBegin =>
      var t := s.tasks[|s.tasks| - 1];
      s.(objects := s.objects[t := s.objects[t].(internalStop := true)], control := StoppingLast)
    case StopLastEnd => s.(tasks := s.tasks[..|s.tasks| - 1], control := Ready)
    case RequestStop => s.(sources := s.sources[s.current := true])
    case Work(t) => s.(objects := s.objects[t := s.objects[t].(left := s.objects[t].left - 1)])
    case Check(t, left) =>
      s.(objects := s.objects[t := if Stopped(s, t) then s.objects[t].(active := false)
                                   else s.objects[t].(left := left)])
  }

  ghost predicate StepAt(states: seq<State>, steps: seq<Step>, i: nat)
    requires i < |steps| && |states| == |steps| + 1
  {
    WellFormed(states[i]) && Enabled(states[i], steps[i]) && states[i + 1] == Apply(states[i], steps[i])
  }

  ghost predicate IsPath(states: seq<State>, steps: seq<Step>) {
    && |states| == |steps| + 1
    && forall i: nat :: i < |steps| ==> StepAt(states, steps, i)
  }

  lemma PathPrepend(s: State, step: Step, states: seq<State>, steps: seq<Step>)
    requires WellFormed(s) && Enabled(s, step) && IsPath(states, steps) && states[0] == Apply(s, step)
    ensures IsPath([s] + states, [step] + steps)
  {
    forall i: nat | i < |steps| + 1
      ensures StepAt([s] + states, [step] + steps, i)
    {
      if i > 0 {
        assert StepAt(states, steps, i - 1);
      }
    }
  }

  lemma PathConcat(a: seq<State>, la: seq<Step>, b: seq<State>, lb: seq<Step>)
    requires IsPath(a, la) && IsPath(b, lb) && a[|la|] == b[0]
    ensures IsPath(a + b[1..], la + lb)
    ensures forall j :: 0 <= j <= |lb| ==> (a + b[1..])[|la| + j] == b[j]
  {
    forall i: nat | i < |la + lb|
      ensures StepAt(a + b[1..], la + lb, i)
    {
      if i < |la| {
        assert StepAt(a, la, i);
      } else {
        assert StepAt(b, lb, i - |la|);
      }
    }
  }

  ghost predicate IsRun(states: seq<State>, steps: seq<Step>) {
    IsPath(states, steps) && states[0] == Init()
  }

  // ---- Invariants of every run -------------------------------------------------------

  /** Active tasks are listed; before a join index nothing is active. */
  ghost predicate Inv(s: State) {
    && WellFormed(s)
    && (forall t: nat :: Active(s, t) ==> t in s.tasks && s.objects[t].source <= s.current)
    && (s.control.Stopping? ==> forall k :: 0 <= k < s.control.next ==> !Active(s, s.tasks[k]))
    && (s.control.Stopping? ==> s.sources[s.current])
    && (s.control.StoppingLast? ==> s.tasks != [])
    && (s.control.Adding? ==>
          && (forall k :: 0 <= k < |s.control.pending| ==> !Active(s, s.control.pending[k]))
          && (forall k, l :: 0 <= k < l < |s.control.pending| ==> s.control.pending[k] != s.control.pending[l]))
  }

  lemma JoinedMeansNoneActive(s: State)
    requires Inv(s) && s.control.Stopping? && s.control.next == |s.tasks|
    ensures forall t: nat :: !Active(s, t)
  {
    forall t: nat
      ensures !Active(s, t)
    {
      if t in s.tasks {
        var k :| 0 <= k < |s.tasks| && s.tasks[k] == t;
      }
    }
  }

  lemma StopStepInv(s: State, step: Step)
    requires Inv(s) && Enabled(s, step)
    requires step.JoinNext? || step.StopLastEnd? || step.StopBegin? || step.StopLastBegin? || step.RequestStop? || step.Release?
    ensures Inv(Apply(s, step))
  {
    var s' := Apply(s, step);
    if step.JoinNext? && s.control.next == |s.tasks| {
      JoinedMeansNoneActive(s);
    } else if step.StopLastEnd? {
      forall t: nat | Active(s', t)
        ensures t in s'.tasks
      {
        var k :| 0 <= k < |s.tasks| && s.tasks[k] == t;
        assert k < |s.tasks| - 1 && s'.tasks[k] == t;
      }
    }
  }

  lemma StartStepInv(s: State, step: Step)
    requires Inv(s) && Enabled(s, step)
    requires step.StartNext? || step.RestartBegin? || step.RestartNext?
    ensures Inv(Apply(s, step))
  {
    var s' := Apply(s, step);
    forall t: nat | Active(s', t)
      ensures t in s'.tasks && s'.objects[t].source <= s'.current
    {
    }
  }

  lemma NewTaskInv(s: State, step: Step)
    requires Inv(s) && Enabled(s, step) && (step.InitChain? || step.AddTask?)
    ensures Inv(Apply(s, step))
  {
    var s' := Apply(s, step);
    forall t: nat | Active(s', t)
      ensures t in s'.tasks && s'.objects[t].source <= s'.current
    {
      if t < |s.objects| {
        assert Active(s, t);
      }
    }
  }

  lemma TaskStepInv(s: State, step: Step)
    requires Inv(s) && Enabled(s, step) && (step.Work? || step.Check?)
    ensures Inv(Apply(s, step))
  {
    var s' := Apply(s, step);
    forall t: nat | Active(s', t)
      ensures Active(s, t) && s'.objects[t].source == s.objects[t].source
    {
    }
  }

  lemma StepInv(s: State, step: Step)
    requires Inv(s) && Enabled(s, step)
    ensures Inv(Apply(s, step))
  {
    if step.Work? || step.Check? {
      TaskStepInv(s, step);
    } else if step.InitChain? || step.AddTask? {
      NewTaskInv(s, step);
    } else if step.StartNext? || step.RestartBegin? || step.RestartNext? {
      StartStepInv(s, step);
    } else {
      StopStepInv(s, step);
    }
  }

  lemma {:induction false} PathInv(states: seq<State>, steps: seq<Step>, i: nat, j: nat)
    requires IsPath(states, steps) && i <= j < |states| && Inv(states[i])
    ensures Inv(states[j])
  {
    if i < j {
      PathInv(states, steps, i, j - 1);
      assert StepAt(states, steps, j - 1);
      StepInv(states[j - 1], steps[j - 1]);
    }
  }

  lemma RunInv(states: seq<State>, steps: seq<Step>, i: nat)
    requires IsRun(states, steps) && i < |states|
    ensures Inv(states[i])
  {
    PathInv(states, steps, 0, i);
  }

  // ---- When stopAllThreads returns ---------------------------------------------------

  /** The test a caller can make before stopping: every active body's token is already stopped, or
      is one of the source about to be stopped. */
  predicate CanStop(s: State) {
    forall t :: 0 <= t < |s.objects| && s.objects[t].active ==> Stopped(s, t) || s.objects[t].source == s.current
  }

  predicate AllStopped(s: State) {
    forall t :: 0 <= t < |s.objects| && s.objects[t].active ==> Stopped(s, t)
  }

  function Remaining(t: Task): nat {
    if t.active then t.left + 1 else 0
  }

  /** Loop steps left in all bodies, and joins left in the control thread. */
  function Ranking(s: State): nat
    requires s.control.Stopping? && s.control.next <= |s.tasks|
  {
    Total(Remaining, s.objects) + |s.tasks| - s.control.next
  }

  /** While stopping with all tokens stopped, every step of any thread lowers the ranking or ends the
      call with no task running, and some step is always possible. */
  lemma StoppingStep(s: State, step: Step)
    requires Inv(s) && s.control.Stopping? && AllStopped(s) && Enabled(s, step)
    ensures var s' := Apply(s, step);
            && AllStopped(s')
            && (s'.control.Stopping? ==> Ranking(s') < Ranking(s))
            && (!s'.control.Stopping? ==> s'.control.Ready? && forall t: nat :: !Active(s', t))
  {
    StepInv(s, step);
    var s' := Apply(s, step);
    if step.Work? || step.Check? {
      TotalUpdate(Remaining, s.objects, step.t, s'.objects[step.t]);
    } else if !s'.control.Stopping? {
      JoinedMeansNoneActive(s);
      assert forall t: nat :: Active(s', t) ==> Active(s, t);
    }
  }

  lemma StoppingNeverStuck(s: State)
    requires Inv(s) && s.control.Stopping?
    ensures exists step :: Enabled(s, step)
  {
    if Enabled(s, JoinNext) {
    } else {
      var t := s.tasks[s.control.next];
      assert if s.objects[t].left > 0 then Enabled(s, Work(t)) else Enabled(s, Check(t, 0));
    }
  }

  /** Every schedule after such a call: the bound on its length, and what holds when it ends. */
  lemma {:induction false} StopTerminates(states: seq<State>, steps: seq<Step>, i: nat, j: nat)
    requires IsPath(states, steps) && i < j < |states| && Inv(states[i])
    requires steps[i].StopBegin? && CanStop(states[i])
    requires forall k :: i < k < j ==> states[k].control.Stopping?
    ensures states[i + 1].control.Stopping? && Inv(states[i + 1])
    ensures j - i <= Ranking(states[i + 1]) + 2
    ensures if states[j].control.Stopping?
            then (exists step :: Inv(states[j]) && Enabled(states[j], step))
            else states[j].control.Ready? && forall t: nat :: !Active(states[j], t)
    decreases j
  {
    assert StepAt(states, steps, i);
    PathInv(states, steps, i, i + 1);
    StopRanking(states, steps, i, j);
    if states[j].control.Stopping? {
      StoppingNeverStuck(states[j]);
    }
  }

  lemma {:induction false} StopRanking(states: seq<State>, steps: seq<Step>, i: nat, j: nat)
    requires IsPath(states, steps) && i < j < |states| && Inv(states[i])
    requires steps[i].StopBegin? && CanStop(states[i])
    requires forall k :: i < k < j ==> states[k].control.Stopping?
    ensures states[i + 1].control.Stopping? && Inv(states[i + 1]) && Inv(states[j]) && AllStopped(states[j])
    ensures states[j].control.Stopping? ==> Ranking(states[j]) + (j - i - 1) <= Ranking(states[i + 1])
    ensures j - i <= Ranking(states[i + 1]) + 2
    ensures !states[j].control.Stopping? ==> states[j].control.Ready? && forall t: nat :: !Active(states[j], t)
    decreases j
  {
    PathInv(states, steps, i, i + 1);
    PathInv(states, steps, i, j);
    assert StepAt(states, steps, i);
    if j > i + 1 {
      StopRanking(states, steps, i, j - 1);
      assert StepAt(states, steps, j - 1);
      StoppingStep(states[j - 1], steps[j - 1]);
    }
  }

  /** An active body whose token is not stopped, of a source that is no longer the manager's. */
  predicate Orphaned(s: State, t: nat) {
    && WellFormed(s) && Active(s, t) && !Stopped(s, t)
    && s.objects[t].source < s.current
  }

  /** Nothing but stopping that task itself ever changes this. */
  lemma OrphanStep(s: State, step: Step, t: nat)
    requires Inv(s) && Enabled(s, step) && Orphaned(s, t)
    requires !step.StopLastBegin?
    ensures Orphaned(Apply(s, step), t)
  {
    StepInv(s, step);
  }

  /** And it keeps the join loop from getting past that task. */
  lemma OrphanHoldsUpJoin(s: State, step: Step, t: nat)
    requires Inv(s) && Enabled(s, step) && Orphaned(s, t) && s.control.Stopping?
    ensures Apply(s, step).control.Stopping? && Orphaned(Apply(s, step), t)
  {
    OrphanStep(s, step, t);
    var k :| 0 <= k < |s.tasks| && s.tasks[k] == t;
    assert k >= s.control.next;
  }

  /** Once a body is orphaned, the next stopAllThreads never returns. */
  lemma {:induction false} OrphanBlocksStop(states: seq<State>, steps: seq<Step>, i: nat, j: nat, t: nat)
    requires IsPath(states, steps) && i < j < |states| && Inv(states[i])
    requires steps[i].StopBegin? && Orphaned(states[i], t)
    ensures states[j].control.Stopping? && Orphaned(states[j], t)
    decreases j
  {
    PathInv(states, steps, i, j - 1);
    assert StepAt(states, steps, j - 1);
    if j == i + 1 {
      OrphanStep(states[i], steps[i], t);
    } else {
      OrphanBlocksStop(states, steps, i, j - 1, t);
      OrphanHoldsUpJoin(states[j - 1], steps[j - 1], t);
    }
  }

  /** Where the test fails, a body is orphaned. */
  lemma CannotStopMeansOrphan(s: State) returns (t: nat)
    requires Inv(s) && !CanStop(s)
    ensures Orphaned(s, t)
  {
    t :| t < |s.objects| && s.objects[t].active && !Stopped(s, t) && s.objects[t].source != s.current;
    assert Active(s, t);
  }

  /** A continuation of `s` in which the control thread comes back with nothing running. */
  ghost predicate Finishes(s: State, states: seq<State>, steps: seq<Step>) {
    && IsPath(states, steps) && states[0] == s
    && states[|steps|].control.Ready? && (forall t: nat :: !Active(states[|steps|], t))
  }

  /** The task list, the observer handle and every task's senders are as before. */
  ghost predicate SameWiring(s: State, s': State) {
    && s'.tasks == s.tasks && s'.observer == s.observer && s'.held == s.held && |s'.objects| == |s.objects|
    && forall t :: 0 <= t < |s.objects| ==> s'.objects[t].receivers == s.objects[t].receivers
  }

  lemma {:induction false} SomeScheduleFinishes(s: State) returns (states: seq<State>, steps: seq<Step>)
    requires Inv(s) && s.control.Stopping? && AllStopped(s)
    ensures Finishes(s, states, steps)
    ensures !s.control.clear ==> SameWiring(s, states[|steps|])
    decreases Ranking(s)
  {
    StoppingNeverStuck(s);
    var step :| Enabled(s, step);
    var s' := Apply(s, step);
    StepInv(s, step);
    StoppingStep(s, step);
    assert !s.control.clear ==> SameWiring(s, s') && (s'.control.Stopping? ==> !s'.control.clear);
    if s'.control.Stopping? {
      var states', steps' := SomeScheduleFinishes(s');
      states, steps := [s] + states', [step] + steps';
      PathPrepend(s, step, states', steps');
    } else {
      states, steps := [s, s'], [step];
    }
  }

  /** stopAllThreads (and terminateAllThreads) can return exactly when the test holds; and by
      `StopTerminates` it then returns under every schedule. */
  lemma StopReturnsExactlyWhenTokensMatch(s: State, clear: bool)
    requires Inv(s) && s.control.Ready?
    ensures CanStop(s) <==>
            exists states, steps :: Finishes(Apply(s, StopBegin(clear)), states, steps)
  {
    var s' := Apply(s, StopBegin(clear));
    StepInv(s, StopBegin(clear));
    if CanStop(s) {
      var states, steps := SomeScheduleFinishes(s');
    } else {
      var t := CannotStopMeansOrphan(s);
      forall states, steps
        ensures !Finishes(s', states, steps)
      {
        if Finishes(s', states, steps) {
          StoppedOrphanNeverFinishes(s, clear, t, states, steps);
        }
      }
    }
  }

  lemma StoppedOrphanNeverFinishes(s: State, clear: bool, t: nat, states: seq<State>, steps: seq<Step>)
    requires Inv(s) && s.control.Ready? && Orphaned(s, t)
    requires IsPath(states, steps) && states[0] == Apply(s, StopBegin(clear))
    ensures states[|steps|].control.Stopping?
  {
    var all, labels := [s] + states, [StopBegin(clear)] + steps;
    PathPrepend(s, StopBegin(clear), states, steps);
    assert all[|labels|] == states[|steps|];
    OrphanBlocksStop(all, labels, 0, |labels|, t);
  }

  // ---- What a stopped body still does ------------------------------------------------

  /** A step of the body of task `t`. */
  predicate OwnStep(step: Step, t: nat) {
    (step.Work? || step.Check?) && step.t == t
  }

  function OwnSteps(steps: seq<Step>, t: nat, i: nat, j: nat): nat
    requires i <= j <= |steps|
    decreases j
  {
    if i == j then 0 else OwnSteps(steps, t, i, j - 1) + if OwnStep(steps[j - 1], t) then 1 else 0
  }

  lemma StoppedBodyStep(s: State, step: Step, t: nat)
    requires Inv(s) && Enabled(s, step) && Active(s, t) && Stopped(s, t)
    ensures var s' := Apply(s, step);
            && t < |s'.objects|
            && Remaining(s'.objects[t]) == Remaining(s.objects[t]) - (if OwnStep(step, t) then 1 else 0)
            && (Active(s', t) ==> Stopped(s', t))
  {
  }

  /** A body whose token is stopped completes the iteration it is in and ends at its next check of the
      token: as long as it is active each of its steps uses up what was left, and the token stays
      stopped whatever the manager does meanwhile. */
  lemma {:induction false} StoppedBodyEndsWithItsIteration(states: seq<State>, steps: seq<Step>, i: nat, j: nat, t: nat)
    requires IsRun(states, steps) && i <= j < |states|
    requires t < |states[i].objects| && Stopped(states[i], t)
    requires forall k :: i <= k < j ==> Active(states[k], t)
    requires Active(states[i], t)
    ensures t < |states[j].objects|
    ensures OwnSteps(steps, t, i, j) + Remaining(states[j].objects[t]) == Remaining(states[i].objects[t])
    ensures Active(states[j], t) <==> OwnSteps(steps, t, i, j) <= states[i].objects[t].left
    ensures Active(states[j], t) ==> Stopped(states[j], t)
    decreases j
  {
    if i < j {
      StoppedBodyEndsWithItsIteration(states, steps, i, j - 1, t);
      RunInv(states, steps, j - 1);
      assert StepAt(states, steps, j - 1);
      StoppedBodyStep(states[j - 1], steps[j - 1], t);
    }
  }

  /** The last task asked to stop, with this much left to do. */
  ghost predicate StoppingTask(s: State, tasks: seq<nat>, remaining: nat, done: nat) {
    && s.control.StoppingLast? && s.tasks == tasks && tasks != []
    && var last := tasks[|tasks| - 1];
       last < |s.objects| && s.objects[last].internalStop && done + Remaining(s.objects[last]) == remaining
  }

  lemma StoppingTaskStep(s: State, step: Step, tasks: seq<nat>, remaining: nat, done: nat)
    requires Inv(s) && StoppingTask(s, tasks, remaining, done) && Enabled(s, step) && !step.StopLastEnd?
    ensures StoppingTask(Apply(s, step), tasks, remaining, done + if OwnStep(step, tasks[|tasks| - 1]) then 1 else 0)
  {
  }

  lemma StopLastStarts(s: State)
    requires Inv(s) && Enabled(s, StopLastBegin)
    ensures var last := s.tasks[|s.tasks| - 1];
            last < |s.objects| && StoppingTask(Apply(s, StopLastBegin), s.tasks, Remaining(s.objects[last]), 0)
  {
  }

  lemma {:induction false} StopLastProgress(states: seq<State>, steps: seq<Step>, i: nat, j: nat, last: nat, remaining: nat)
    requires IsRun(states, steps) && i < j < |states|
    requires StoppingTask(states[i + 1], states[i].tasks, remaining, 0) && last == states[i].tasks[|states[i].tasks| - 1]
    requires forall k :: i < k <= j ==> states[k].control.StoppingLast?
    ensures StoppingTask(states[j], states[i].tasks, remaining, OwnSteps(steps, last, i + 1, j))
    decreases j
  {
    if j > i + 1 {
      var k := j - 1;
      StopLastProgress(states, steps, i, k, last, remaining);
      RunInv(states, steps, k);
      assert StepAt(states, steps, k);
      StoppingTaskStep(states[k], steps[k], states[i].tasks, remaining, OwnSteps(steps, last, i + 1, k));
    }
  }

  /** stopLastThread always returns: the task it waits for has been asked to stop, each step of its body
      uses up what was left, nothing any other thread does adds to that, and at every moment either its
      body can go on or the join returns. */
  lemma StopLastAlwaysReturns(states: seq<State>, steps: seq<Step>, i: nat, j: nat)
    requires IsRun(states, steps) && i < j < |states| && steps[i].StopLastBegin?
    requires forall k :: i < k <= j ==> states[k].control.StoppingLast?
    ensures Inv(states[i]) && states[i].tasks != [] && states[i].tasks[|states[i].tasks| - 1] < |states[i].objects|
    ensures var last := states[i].tasks[|states[i].tasks| - 1];
            && StoppingTask(states[j], states[i].tasks, Remaining(states[i].objects[last]), OwnSteps(steps, last, i + 1, j))
            && Inv(states[j])
            && (Enabled(states[j], StopLastEnd)
                || exists step :: OwnStep(step, last) && Enabled(states[j], step))
  {
    RunInv(states, steps, i);
    RunInv(states, steps, j);
    assert StepAt(states, steps, i);
    StopLastStarts(states[i]);
    var last := states[i].tasks[|states[i].tasks| - 1];
    StopLastProgress(states, steps, i, j, last, Remaining(states[i].objects[last]));
    LastCanGoOn(states[j], last);
  }

  lemma LastCanGoOn(s: State, last: nat)
    requires Inv(s) && s.control.StoppingLast? && last == s.tasks[|s.tasks| - 1]
    ensures Enabled(s, StopLastEnd) || exists step :: OwnStep(step, last) && Enabled(s, step)
  {
    if Active(s, last) {
      var step := if s.objects[last].left > 0 then Work(last) else Check(last, 0);
      assert OwnStep(step, last) && Enabled(s, step);
    }
  }

  // ---- What stopping, checking and terminating do ------------------------------------

  /** A body leaves its loop only at a check of its own that finds its token stopped. */
  lemma BodyLeavesOnlyWhenStopped(states: seq<State>, steps: seq<Step>, i: nat, t: nat)
    requires IsRun(states, steps) && i < |steps| && Active(states[i], t)
    ensures !Active(states[i + 1], t) <==> steps[i].Check? && steps[i].t == t && Stopped(states[i], t)
  {
    assert StepAt(states, steps, i);
  }

  /** A request of the manager reaches every active body that holds a token of the present source. */
  lemma RequestReachesCurrent(states: seq<State>, steps: seq<Step>, i: nat, t: nat)
    requires IsRun(states, steps) && i < |steps| && (steps[i].RequestStop? || steps[i].StopBegin?)
    requires Active(states[i], t) && states[i].objects[t].source == states[i].current
    ensures Active(states[i + 1], t) && Stopped(states[i + 1], t)
  {
    assert StepAt(states, steps, i);
  }

  /** stopAllThreads that comes back leaves the task list as it was, terminateAllThreads empties it. */
  lemma {:induction false} StopKeepsOrClears(states: seq<State>, steps: seq<Step>, i: nat, j: nat)
    requires IsPath(states, steps) && i < j < |states| && steps[i].StopBegin?
    requires forall k :: i < k < j ==> states[k].control.Stopping?
    ensures states[j].control.Stopping? ==>
              states[j].tasks == states[i].tasks && states[j].control.clear == steps[i].clear
    ensures states[j].control.Ready? ==> states[j].tasks == if steps[i].clear then [] else states[i].tasks
    decreases j
  {
    assert StepAt(states, steps, j - 1);
    if j > i + 1 {
      StopKeepsOrClears(states, steps, i, j - 1);
    }
  }

  // ---- What restartAllThreads achieves -----------------------------------------------

  /** Running with a token of the present source that nobody has stopped. */
  predicate Fresh(s: State, t: nat) {
    && Active(s, t) && !Stopped(s, t) && s.objects[t].source == s.current
  }

  /** The restart that begins at step `i` is under way up to state `j`, or has just come back there. */
  ghost predicate Restart(states: seq<State>, steps: seq<Step>, i: nat, j: nat) {
    && IsRun(states, steps) && i < j < |states| && steps[i].RestartBegin?
    && (forall k :: i < k < j ==> states[k].control.Restarting?)
    && (states[j].control.Restarting? || states[j].control.Ready?)
  }

  /** How far the restart of `s0` has come in `s`: it has made one new source, not stopped; the tasks that
      were not running are started up to the loop index and untouched beyond it. */
  ghost predicate RestartedUpTo(s0: State, s: State) {
    && s.tasks == s0.tasks && |s.objects| == |s0.objects|
    && |s.sources| == |s0.sources| + 1 && s.current == |s0.sources| && !s.sources[s.current]
    && (s.control.Restarting? ==> s.control.next <= |s.tasks|)
    && forall k :: 0 <= k < |s.tasks| && !Active(s0, s.tasks[k]) ==>
         if s.control.Restarting? && k >= s.control.next then !Active(s, s.tasks[k]) else Fresh(s, s.tasks[k])
  }

  lemma RestartedBegin(s: State)
    requires Inv(s) && Enabled(s, RestartBegin)
    ensures RestartedUpTo(s, Apply(s, RestartBegin))
  {
  }

  lemma RestartedStep(s0: State, s: State, step: Step)
    requires Inv(s) && Wired(s) && RestartedUpTo(s0, s) && s.control.Restarting? && Enabled(s, step)
    ensures RestartedUpTo(s0, Apply(s, step))
  {
    var s' := Apply(s, step);
    forall k | 0 <= k < |s'.tasks| && !Active(s0, s'.tasks[k])
      ensures if s'.control.Restarting? && k >= s'.control.next then !Active(s', s'.tasks[k]) else Fresh(s', s'.tasks[k])
    {
    }
  }

  lemma {:induction false} RestartProgress(states: seq<State>, steps: seq<Step>, i: nat, j: nat)
    requires Restart(states, steps, i, j)
    ensures RestartedUpTo(states[i], states[j])
    decreases j
  {
    RunInv(states, steps, j - 1);
    assert StepAt(states, steps, j - 1);
    if j == i + 1 {
      RestartedBegin(states[i]);
    } else {
      RestartProgress(states, steps, i, j - 1);
      RunWired(states, steps, j - 1);
      RestartedStep(states[i], states[j - 1], steps[j - 1]);
    }
  }

  /** restartAllThreads, in any run: when it comes back the manager has a source it never had before and
      that nobody has stopped, and every listed task that was not running when it began is running with
      an unstopped token of that source. */
  lemma RestartStartsEveryIdleTask(states: seq<State>, steps: seq<Step>, i: nat, j: nat)
    requires Restart(states, steps, i, j) && states[j].control.Ready?
    ensures states[j].tasks == states[i].tasks
    ensures |states[i].sources| == states[j].current < |states[j].sources| && !states[j].sources[states[j].current]
    ensures forall k :: 0 <= k < |states[i].tasks| && !Active(states[i], states[i].tasks[k]) ==>
              Fresh(states[j], states[i].tasks[k])
  {
    RestartProgress(states, steps, i, j);
  }

  /** A task started outside a restart, by `addTask` or for `initTestChain`, gets a token of the present
      source as it is: it is stopped from the start exactly if that source is. */
  lemma StartedStoppedExactlyWithSource(states: seq<State>, steps: seq<Step>, i: nat, t: nat)
    requires IsRun(states, steps) && i < |steps| && WellFormed(states[i])
    requires (steps[i].AddTask? && t == |states[i].objects|)
             || (steps[i].StartNext? && states[i].control.Adding? && states[i].control.pending != []
                 && t == states[i].control.pending[0])
    ensures Active(states[i + 1], t) && t in states[i + 1].tasks
    ensures states[i + 1].objects[t].source == states[i + 1].current == states[i].current
    ensures Stopped(states[i + 1], t) <==> states[i].sources[states[i].current]
  {
    assert StepAt(states, steps, i);
    var last := |states[i + 1].tasks| - 1;
    assert states[i + 1].tasks[last] == t;
  }

  /** And after a stop the present source stays stopped until the next restart: a task added before that
      ends at its first check. */
  lemma {:induction false} StopLeavesSourceStopped(states: seq<State>, steps: seq<Step>, i: nat, j: nat)
    requires IsRun(states, steps) && i < j < |states| && (steps[i].StopBegin? || steps[i].RequestStop?)
    requires forall k :: i < k < j ==> !steps[k].RestartBegin?
    ensures states[j].current < |states[j].sources| && states[j].sources[states[j].current]
    decreases j
  {
    assert StepAt(states, steps, j - 1);
    if j > i + 1 {
      StopLeavesSourceStopped(states, steps, i, j - 1);
    }
  }

  /** A request that can stop task `t`. */
  predicate StopsTask(s: State, step: Step, t: nat) {
    step.StopBegin? || step.RequestStop? || (step.StopLastBegin? && s.tasks != [] && s.tasks[|s.tasks| - 1] == t)
  }

  /** A task running with an unstopped token goes on so until a stop is requested, of all or of itself. */
  lemma {:induction false} RunsUntilStopped(states: seq<State>, steps: seq<Step>, i: nat, j: nat, t: nat)
    requires IsRun(states, steps) && i <= j < |states| && Active(states[i], t) && !Stopped(states[i], t)
    requires forall k :: i <= k < j ==> !StopsTask(states[k], steps[k], t)
    ensures Active(states[j], t) && !Stopped(states[j], t)
  {
    if i < j {
      RunsUntilStopped(states, steps, i, j - 1, t);
      RunInv(states, steps, j - 1);
      assert StepAt(states, steps, j - 1);
    }
  }

  // ---- How restartAllThreads has to be used ------------------------------------------

  /** Restarts happen only while no task is running. */
  ghost predicate Disciplined(states: seq<State>, steps: seq<Step>) {
    && IsRun(states, steps)
    && forall i :: 0 <= i < |steps| && steps[i].RestartBegin? ==> forall t: nat :: !Active(states[i], t)
  }

  predicate TokensCurrent(s: State) {
    forall t :: 0 <= t < |s.objects| && s.objects[t].active ==> s.objects[t].source == s.current
  }

  lemma TokensCurrentStep(s: State, step: Step)
    requires Inv(s) && TokensCurrent(s) && Enabled(s, step)
    requires step.RestartBegin? ==> forall t: nat :: !Active(s, t)
    ensures TokensCurrent(Apply(s, step))
  {
    var s' := Apply(s, step);
    forall t | 0 <= t < |s'.objects| && s'.objects[t].active
      ensures s'.objects[t].source == s'.current
    {
      if Active(s, t) {
        assert s.objects[t].source == s.current;
      }
    }
  }

  /** Then every active body holds a token of the manager's present source, so the test holds. */
  lemma {:induction false} DisciplineKeepsTokensCurrent(states: seq<State>, steps: seq<Step>, i: nat)
    requires Disciplined(states, steps) && i < |states|
    ensures TokensCurrent(states[i]) && Inv(states[i]) && CanStop(states[i])
  {
    RunInv(states, steps, i);
    if i > 0 {
      DisciplineKeepsTokensCurrent(states, steps, i - 1);
      RunInv(states, steps, i - 1);
      assert StepAt(states, steps, i - 1);
      TokensCurrentStep(states[i - 1], steps[i - 1]);
    }
  }

  /** The exact form: every restart from `i` on finds all active bodies' tokens stopped. */
  ghost predicate RestartsFindStopped(states: seq<State>, steps: seq<Step>, i: nat)
    requires |steps| < |states|
  {
    forall k :: i <= k < |steps| && steps[k].RestartBegin? ==> AllStopped(states[k])
  }

  lemma CanStopStep(s: State, step: Step)
    requires Inv(s) && CanStop(s) && Enabled(s, step)
    requires step.RestartBegin? ==> AllStopped(s)
    ensures CanStop(Apply(s, step))
  {
    var s' := Apply(s, step);
    forall t | 0 <= t < |s'.objects| && s'.objects[t].active
      ensures Stopped(s', t) || s'.objects[t].source == s'.current
    {
      if Active(s, t) {
        assert Stopped(s, t) || s.objects[t].source == s.current;
      }
    }
  }

  lemma {:induction false} PathCanStop(states: seq<State>, steps: seq<Step>, i: nat, j: nat)
    requires IsPath(states, steps) && i <= j < |states| && Inv(states[i]) && CanStop(states[i])
    requires RestartsFindStopped(states, steps, i)
    ensures CanStop(states[j])
  {
    if i < j {
      PathCanStop(states, steps, i, j - 1);
      PathInv(states, steps, i, j - 1);
      assert StepAt(states, steps, j - 1);
      CanStopStep(states[j - 1], steps[j - 1]);
    }
  }

  /** A continuation of `s` that begins with a restart and whose later restarts find all tokens stopped. */
  ghost predicate RestartsFirst(s: State, states: seq<State>, steps: seq<Step>) {
    && IsPath(states, steps) && states[0] == s
    && steps != [] && steps[0].RestartBegin? && RestartsFindStopped(states, steps, 1)
  }

  /** When restartAllThreads may be called: from a state that can be stopped, all that can follow can be
      stopped exactly if every active body's token is stopped already. */
  lemma RestartSafeExactlyWhenAllStopped(states: seq<State>, steps: seq<Step>, i: nat)
    requires IsRun(states, steps) && i < |states| && states[i].control.Ready? && CanStop(states[i])
    ensures AllStopped(states[i]) <==>
            forall more, labels :: RestartsFirst(states[i], more, labels) ==> CanStop(more[|labels|])
  {
    var s := states[i];
    RunInv(states, steps, i);
    if AllStopped(s) {
      forall more, labels | RestartsFirst(s, more, labels)
        ensures CanStop(more[|labels|])
      {
        PathCanStop(more, labels, 0, |labels|);
      }
    } else {
      var s' := Apply(s, RestartBegin);
      var t :| 0 <= t < |s.objects| && s.objects[t].active && !Stopped(s, t);
      assert s'.objects[t].active && !Stopped(s', t) && s'.objects[t].source != s'.current;
      var more, labels := [s, s'], [RestartBegin];
      assert StepAt(more, labels, 0);
      assert RestartsFirst(s, more, labels) && !CanStop(more[|labels|]);
    }
  }

  /** The whole of it: in a run whose restarts all find the tokens stopped, a stop that has begun is over
      within the steps its bodies and joins still had, whatever the schedule, and leaves nothing running. */
  lemma StopTerminatesAfterSafeRestarts(states: seq<State>, steps: seq<Step>, i: nat, j: nat)
    requires IsRun(states, steps) && RestartsFindStopped(states, steps, 0)
    requires i < j < |states| && steps[i].StopBegin?
    requires forall k :: i < k < j ==> states[k].control.Stopping?
    ensures states[i + 1].control.Stopping? && Inv(states[i + 1]) && j - i <= Ranking(states[i + 1]) + 2
    ensures if states[j].control.Stopping?
            then (exists step :: Inv(states[j]) && Enabled(states[j], step))
            else states[j].control.Ready? && forall t: nat :: !Active(states[j], t)
  {
    RunInv(states, steps, i);
    PathCanStop(states, steps, 0, i);
    StopTerminates(states, steps, i, j);
  }

  /** The discipline is needed: a restart while some body runs unstopped orphans it, and from then on
      any stopAllThreads blocks for ever, unless `stopLastThread` was used in between. */
  lemma {:induction false} RestartWhileRunningBlocksLaterStop(
      states: seq<State>, steps: seq<Step>, r: nat, i: nat, j: nat, t: nat)
    requires IsRun(states, steps) && r < i < j < |states|
    requires steps[r].RestartBegin? && Active(states[r], t) && !Stopped(states[r], t)
    requires forall k :: r <= k < i ==> !steps[k].StopLastBegin?
    requires steps[i].StopBegin?
    ensures states[j].control.Stopping? && Active(states[j], t)
  {
    RunInv(states, steps, i);
    OrphanPersists(states, steps, r, i, t);
    OrphanBlocksStop(states, steps, i, j, t);
  }

  lemma {:induction false} OrphanPersists(states: seq<State>, steps: seq<Step>, r: nat, i: nat, t: nat)
    requires IsRun(states, steps) && r < i < |states|
    requires steps[r].RestartBegin? && Active(states[r], t) && !Stopped(states[r], t)
    requires forall k :: r <= k < i ==> !steps[k].StopLastBegin?
    ensures Orphaned(states[i], t)
    decreases i
  {
    RunInv(states, steps, i);
    RunInv(states, steps, i - 1);
    if i == r + 1 {
      assert StepAt(states, steps, r);
    } else {
      OrphanPersists(states, steps, r, i - 1, t);
      assert StepAt(states, steps, i - 1);
      OrphanStep(states[i - 1], steps[i - 1], t);
    }
  }

  /** Start-up: the chain is created and `n` of its tasks are started. */
  function Booting(n: nat): State
    requires n <= 5
  {
    State([false], 0,
          seq(5, i requires 0 <= i < 5 => ChainTasks(0)[i].(active := i < n)),
          seq(n, i requires 0 <= i < n => i), Some(0), {},
          Adding(seq(5 - n, i requires 0 <= i < 5 - n => n + i)))
  }

  lemma BootNext(n: nat)
    requires n < 5
    ensures WellFormed(Booting(n)) && Enabled(Booting(n), StartNext(0))
    ensures Apply(Booting(n), StartNext(0)) == Booting(n + 1)
  {
    var s, s' := Booting(n), Booting(n + 1);
    assert s.control.pending[0] == n;
    assert s.control.pending[1..] == s'.control.pending;
    assert s.tasks + [n] == s'.tasks;
    assert Started(s, n, 0) == s'.objects;
  }

  /** And the call returns. */
  function LiveChain(): State {
    State([false], 0,
          [Task(true, 0, false, 0, {1, 2}), Task(true, 0, false, 0, {2, 0}), Task(true, 0, false, 0, {3}),
           Task(true, 0, false, 0, {4}), Task(true, 0, false, 0, {})],
          [0, 1, 2, 3, 4], Some(0), {}, Ready)
  }

  lemma BootEnds()
    ensures Apply(Init(), InitChain) == Booting(0)
    ensures WellFormed(Booting(5)) && Enabled(Booting(5), StartNext(0)) && Apply(Booting(5), StartNext(0)) == LiveChain()
  {
    assert Apply(Init(), InitChain).objects == Booting(0).objects;
    assert Apply(Init(), InitChain).control.pending == Booting(0).control.pending;
    assert Booting(5).objects == LiveChain().objects && Booting(5).tasks == LiveChain().tasks;
  }

  lemma StartUpRun() returns (states: seq<State>, steps: seq<Step>)
    ensures IsRun(states, steps) && states[|steps|] == LiveChain()
    ensures forall k :: 0 <= k < |steps| ==> !steps[k].StopLastBegin?
  {
    BootEnds();
    states := [Init()] + seq(6, n requires 0 <= n < 6 => Booting(n)) + [LiveChain()];
    steps := [InitChain] + seq(6, n requires 0 <= n < 6 => StartNext(0));
    forall k: nat | k < |steps|
      ensures StepAt(states, steps, k)
    {
      if 0 < k < 6 {
        BootNext(k - 1);
      }
    }
  }

  /** The console's `r` right after start-up is such a restart. */
  lemma RestartAfterStartUpOrphans()
    ensures exists states, steps :: IsRun(states, steps) && Orphaned(states[|steps|], 0)
  {
    var s := LiveChain();
    var a, la := StartUpRun();
    var b, lb := [s, Apply(s, RestartBegin)], [RestartBegin];
    assert StepAt(b, lb, 0);
    PathConcat(a, la, b, lb);
    var states, steps := a + b[1..], la + lb;
    assert states[|la| + 1] == b[1] && IsRun(states, steps);
    assert Orphaned(states[|steps|], 0);
  }

  // ---- Receivers outlive the senders that point to them ------------------------------

  /** Somebody still owns the task object: the task list, the observer handle, a caller of addTask, or
      the pointers local to initTestChain. */
  predicate Alive(s: State, id: nat) {
    || id in s.tasks
    || s.observer == Some(id)
    || id in s.held
    || (s.control.Adding? && id in s.control.pending)
  }

  /** No active body holds a sender to the queue of a destroyed task. */
  predicate SendersSafe(s: State) {
    forall t, r :: 0 <= t < |s.objects| && s.objects[t].active && r in s.objects[t].receivers ==> Alive(s, r)
  }

  /** A task whose pointer the caller of addTask kept is there until the caller lets go of it, dropped
      from the list or not. */
  lemma {:induction false} KeptTaskStaysAlive(states: seq<State>, steps: seq<Step>, i: nat, j: nat)
    requires IsRun(states, steps) && i < j < |states| && steps[i].AddTask? && steps[i].keep
    requires forall k :: i < k < j ==> steps[k] != Release(|states[i].objects|)
    ensures |states[i].objects| in states[j].held && Alive(states[j], |states[i].objects|)
    decreases j
  {
    assert StepAt(states, steps, j - 1);
    if j > i + 1 {
      KeptTaskStaysAlive(states, steps, i, j - 1);
    }
  }

  predicate Listed(s: State, t: nat) {
    t in s.tasks || (s.control.Adding? && t in s.control.pending)
  }

  /** The test a caller can make before stopLastThread: no other listed task, running or not, has a
      sender to the last one. */
  predicate LastUnused(s: State) {
    && WellFormed(s) && s.tasks != []
    && forall k :: 0 <= k < |s.tasks| - 1 ==> s.tasks[|s.tasks| - 1] !in s.objects[s.tasks[k]].receivers
  }

  /** The receivers of every listed task are listed, not only those of active ones: a restart may
      make it active again. The task being dropped is nobody's receiver. */
  ghost predicate Linked(s: State) {
    && (forall t: nat, r: nat :: Listed(s, t) && t < |s.objects| && r in s.objects[t].receivers ==> Listed(s, r))
    && (s.control.StoppingLast? ==> LastUnused(s))
  }

  /** Every stopLastThread among the steps from `i` to `j` passes the test. */
  ghost predicate Careful(states: seq<State>, steps: seq<Step>, i: nat, j: nat)
    requires j <= |steps| < |states|
  {
    forall k :: i <= k < j && steps[k].StopLastBegin? ==> LastUnused(states[k])
  }

  lemma LinkedStep(s: State, step: Step)
    requires Inv(s) && Linked(s) && Enabled(s, step)
    requires step.StopLastBegin? ==> LastUnused(s)
    ensures Linked(Apply(s, step))
  {
    var s' := Apply(s, step);
    if step.StopLastEnd? {
      LinkedAfterDrop(s);
    } else if step.InitChain? {
      LinkedInit(s);
    } else if step.AddTask? {
      LinkedAdd(s, step);
    } else if !step.StopLastBegin? {
      LinkedOtherStep(s, step);
    } else {
      assert SameWiring(s, s');
      assert forall t: nat :: Listed(s', t) <==> Listed(s, t);
    }
  }

  lemma LinkedAfterDrop(s: State)
    requires Inv(s) && Linked(s) && Enabled(s, StopLastEnd)
    ensures Linked(Apply(s, StopLastEnd))
  {
    var s' := Apply(s, StopLastEnd);
    var last := s.tasks[|s.tasks| - 1];
    assert s.tasks == s'.tasks + [last];
    forall t: nat, r: nat | Listed(s', t) && t < |s'.objects| && r in s'.objects[t].receivers
      ensures Listed(s', r)
    {
      var k :| 0 <= k < |s'.tasks| && s'.tasks[k] == t;
      assert s.tasks[k] == t && Listed(s, t) && Listed(s, r);
    }
  }

  lemma LinkedInit(s: State)
    requires Inv(s) && Linked(s) && Enabled(s, InitChain)
    ensures Linked(Apply(s, InitChain))
  {
    var s' := Apply(s, InitChain);
    var n := |s.objects|;
    forall t: nat, r: nat | Listed(s', t) && t < |s'.objects| && r in s'.objects[t].receivers
      ensures Listed(s', r)
    {
      if t >= n {
        assert s'.objects[t] == ChainTasks(n)[t - n];
        assert r in [n, n + 1, n + 2, n + 3, n + 4];
      } else {
        assert Listed(s, t) && Listed(s, r);
      }
    }
  }

  lemma LinkedAdd(s: State, step: Step)
    requires Inv(s) && Linked(s) && Enabled(s, step) && step.AddTask?
    ensures Linked(Apply(s, step))
  {
    var s' := Apply(s, step);
    forall t: nat, r: nat | Listed(s', t) && t < |s'.objects| && r in s'.objects[t].receivers
      ensures Listed(s', r)
    {
      if t < |s.objects| {
        assert Listed(s, t) && Listed(s, r);
      }
    }
  }

  lemma LinkedOtherStep(s: State, step: Step)
    requires Inv(s) && Linked(s) && Enabled(s, step)
    requires !step.StopLastBegin? && !step.StopLastEnd? && !step.InitChain? && !step.AddTask?
    ensures Linked(Apply(s, step))
  {
    var s' := Apply(s, step);
    SendersStay(s, step);
    forall t: nat, r: nat | Listed(s', t) && t < |s'.objects| && r in s'.objects[t].receivers
      ensures Listed(s', r)
    {
      if step.StartNext? && s.control.pending != [] {
        assert s.control.pending == [s.control.pending[0]] + s.control.pending[1..];
      }
      assert Listed(s, t) && Listed(s, r);
    }
  }

  lemma {:induction false} PathLinked(states: seq<State>, steps: seq<Step>, i: nat, j: nat)
    requires IsPath(states, steps) && i <= j < |states| && Inv(states[i]) && Linked(states[i])
    requires Careful(states, steps, i, j)
    ensures Linked(states[j])
  {
    if i < j {
      PathLinked(states, steps, i, j - 1);
      PathInv(states, steps, i, j - 1);
      assert StepAt(states, steps, j - 1);
      LinkedStep(states[j - 1], steps[j - 1]);
    }
  }

  lemma LinkedMeansSafe(s: State)
    requires Inv(s) && Linked(s)
    ensures SendersSafe(s)
  {
    forall t, r | 0 <= t < |s.objects| && s.objects[t].active && r in s.objects[t].receivers
      ensures Alive(s, r)
    {
      assert Active(s, t) && Listed(s, t);
      assert Listed(s, r);
    }
  }

  /** In every run, whatever mixture of initialisation, added tasks, stops, restarts, terminations and
      drops that pass the test, no active body holds a sender to a destroyed task. */
  lemma ReceiversOutliveSenders(states: seq<State>, steps: seq<Step>, i: nat)
    requires IsRun(states, steps) && i < |states| && Careful(states, steps, 0, i)
    ensures SendersSafe(states[i])
  {
    RunInv(states, steps, i);
    PathLinked(states, steps, 0, i);
    LinkedMeansSafe(states[i]);
  }

  /** Start-up, then a task that sends only to itself, as one made from a function does, is added and
      dropped again. */
  function AddAndDrop(k: nat): State
    requires k <= 4
  {
    var s := LiveChain();
    if k == 0 then s
    else if k == 4 then s.(objects := s.objects + [Task(false, 0, true, 0, {5})])
    else s.(objects := s.objects + [Task(k < 3, 0, k > 1, 0, {5})], tasks := [0, 1, 2, 3, 4, 5],
            control := if k == 1 then Ready else StoppingLast)
  }

  function AddAndDropLabel(k: nat): Step {
    if k == 0 then AddTask({5}, 0, false) else if k == 1 then StopLastBegin else if k == 2 then Check(5, 0) else StopLastEnd
  }

  lemma AddAndDropStep(k: nat)
    requires k < 4
    ensures WellFormed(AddAndDrop(k)) && Enabled(AddAndDrop(k), AddAndDropLabel(k))
    ensures Apply(AddAndDrop(k), AddAndDropLabel(k)) == AddAndDrop(k + 1)
    ensures k == 1 ==> LastUnused(AddAndDrop(k))
  {
    if k == 0 {
      assert [0, 1, 2, 3, 4] + [5] == [0, 1, 2, 3, 4, 5];
    } else if k == 3 {
      assert [0, 1, 2, 3, 4, 5][..5] == [0, 1, 2, 3, 4];
    }
  }

  /** The test can be passed: a run with a drop that keeps the guarantee. */
  lemma UnusedTaskCanBeDropped()
    ensures exists states: seq<State>, steps: seq<Step> ::
              && IsRun(states, steps) && Careful(states, steps, 0, |steps|)
              && steps != [] && steps[|steps| - 1] == StopLastEnd && states[|steps|].tasks == [0, 1, 2, 3, 4]
  {
    var a, la := StartUpRun();
    var b := seq(5, k requires 0 <= k < 5 => AddAndDrop(k));
    var lb := seq(4, k requires 0 <= k < 4 => AddAndDropLabel(k));
    forall k: nat | k < |lb|
      ensures StepAt(b, lb, k)
    {
      AddAndDropStep(k);
    }
    PathConcat(a, la, b, lb);
    var states, steps := a + b[1..], la + lb;
    forall k | 0 <= k < |steps| && steps[k].StopLastBegin?
      ensures LastUnused(states[k])
    {
      if k >= |la| {
        assert steps[k] == lb[k - |la|] && states[|la| + (k - |la|)] == b[k - |la|];
        AddAndDropStep(k - |la|);
      }
    }
    assert states[|la| + 4] == b[4] && IsRun(states, steps);
  }

  // ---- What a drop that fails the test leads to --------------------------------------

  /** Tasks are listed in the order of their creation, so what the observer handle keeps alive is never
      the receiver of a task listed before it. */
  ghost predicate Wired(s: State) {
    && (forall k, l :: 0 <= k < l < |s.tasks| ==> s.tasks[k] < s.tasks[l])
    && (forall t: nat, r: nat :: t < |s.objects| && r in s.objects[t].receivers ==> r < |s.objects|)
    && (s.observer.Some? ==> s.observer.value < |s.objects|)
    && (s.observer.Some? ==>
          forall t: nat :: t < |s.objects| && s.observer.value in s.objects[t].receivers ==> s.observer.value < t)
    && (s.control.Adding? ==>
          && (forall k, l :: 0 <= k < l < |s.control.pending| ==> s.control.pending[k] < s.control.pending[l])
          && (forall k, l :: 0 <= k < |s.tasks| && 0 <= l < |s.control.pending| ==> s.tasks[k] < s.control.pending[l]))
  }

  lemma WiredStep(s: State, step: Step)
    requires Inv(s) && Wired(s) && Enabled(s, step)
    ensures Wired(Apply(s, step))
  {
    if step.InitChain? {
      WiredInit(s);
    } else if step.AddTask? {
      WiredAdd(s, step);
    } else {
      SendersStay(s, step);
    }
  }

  lemma WiredInit(s: State)
    requires Inv(s) && Wired(s) && Enabled(s, InitChain)
    ensures Wired(Apply(s, InitChain))
  {
    var s' := Apply(s, InitChain);
    var n := |s.objects|;
    forall t: nat, r: nat | t < |s'.objects| && r in s'.objects[t].receivers
      ensures r < |s'.objects| && (r == n ==> r < t)
    {
      if t >= n {
        assert s'.objects[t] == ChainTasks(n)[t - n];
      } else {
        assert s'.objects[t] == s.objects[t];
      }
    }
  }

  lemma WiredAdd(s: State, step: Step)
    requires Inv(s) && Wired(s) && Enabled(s, step) && step.AddTask?
    ensures Wired(Apply(s, step))
  {
    var s' := Apply(s, step);
    forall t: nat, r: nat | t < |s'.objects| && r in s'.objects[t].receivers
      ensures r < |s'.objects| && (s'.observer == Some(r) ==> r < t)
    {
      if t < |s.objects| {
        assert s'.objects[t] == s.objects[t];
      }
    }
  }

  lemma SendersStay(s: State, step: Step)
    requires WellFormed(s) && Enabled(s, step) && !step.InitChain? && !step.AddTask?
    ensures |Apply(s, step).objects| == |s.objects| && Apply(s, step).observer == s.observer
    ensures forall t: nat :: t < |s.objects| ==> Apply(s, step).objects[t].receivers == s.objects[t].receivers
  {
  }

  lemma {:induction false} RunWired(states: seq<State>, steps: seq<Step>, i: nat)
    requires IsRun(states, steps) && i < |states|
    ensures Wired(states[i])
  {
    if i > 0 {
      RunWired(states, steps, i - 1);
      RunInv(states, steps, i - 1);
      assert StepAt(states, steps, i - 1);
      WiredStep(states[i - 1], steps[i - 1]);
    }
  }

  predicate IsRestart(step: Step) {
    step.RestartBegin? || step.RestartNext?
  }

  /** A path from `s` by steps of restartAllThreads only that ends with a dangling sender. */
  ghost predicate RestartDangles(s: State, states: seq<State>, steps: seq<Step>) {
    && IsPath(states, steps) && states[0] == s && !SendersSafe(states[|steps|])
    && forall k :: 0 <= k < |steps| ==> IsRestart(steps[k])
  }

  lemma {:induction false} RestartReaches(s: State, k: nat, r: nat) returns (states: seq<State>, steps: seq<Step>)
    requires WellFormed(s) && s.control.Restarting? && s.control.next <= k < |s.tasks|
    requires r in s.objects[s.tasks[k]].receivers && !Alive(s, r)
    ensures RestartDangles(s, states, steps)
    decreases k - s.control.next
  {
    var step := RestartNext(0);
    var s' := Apply(s, step);
    if Active(s, s.tasks[k]) {
      states, steps := [s], [];
    } else if s.control.next == k {
      states, steps := [s, s'], [step];
      assert s'.objects[s.tasks[k]].active && r in s'.objects[s.tasks[k]].receivers && !Alive(s', r);
    } else {
      var states', steps' := RestartReaches(s', k, r);
      states, steps := [s] + states', [step] + steps';
      PathPrepend(s, step, states', steps');
    }
  }

  lemma RestartFromReady(s: State, k: nat, r: nat) returns (states: seq<State>, steps: seq<Step>)
    requires WellFormed(s) && s.control.Ready? && k < |s.tasks|
    requires r in s.objects[s.tasks[k]].receivers && !Alive(s, r)
    ensures RestartDangles(s, states, steps)
  {
    if Active(s, s.tasks[k]) {
      states, steps := [s], [];
    } else {
      var s' := Apply(s, RestartBegin);
      var states', steps' := RestartReaches(s', k, r);
      states, steps := [s] + states', [RestartBegin] + steps';
      PathPrepend(s, RestartBegin, states', steps');
    }
  }

  /** A drop that fails the test destroys a task that another listed one still has a sender to. */
  lemma DroppedReceiver(s: State) returns (k: nat)
    requires Inv(s) && Wired(s) && Enabled(s, StopLastEnd) && !LastUnused(s)
    ensures var s' := Apply(s, StopLastEnd);
            var last := s.tasks[|s.tasks| - 1];
            && Inv(s') && s'.held == s.held && s'.control.Ready? && k < |s'.tasks|
            && last in s'.objects[s'.tasks[k]].receivers && last !in s'.tasks && s'.observer != Some(last)
  {
    var s' := Apply(s, StopLastEnd);
    StepInv(s, StopLastEnd);
    var last := s.tasks[|s.tasks| - 1];
    k :| 0 <= k < |s.tasks| - 1 && last in s.objects[s.tasks[k]].receivers;
    assert s'.tasks[k] == s.tasks[k] < last;
    assert forall l :: 0 <= l < |s'.tasks| ==> s'.tasks[l] == s.tasks[l] < last;
  }

  /** A caller that still holds the task lets go of it. */
  lemma ReleasedThenDangles(s: State, k: nat, r: nat) returns (states: seq<State>, steps: seq<Step>)
    requires WellFormed(s) && s.control.Ready? && k < |s.tasks|
    requires r in s.objects[s.tasks[k]].receivers && (r !in s.tasks && s.observer != Some(r))
    ensures IsPath(states, steps) && states[0] == s && !SendersSafe(states[|steps|])
    ensures forall k :: 0 <= k < |steps| ==> !steps[k].StopLastBegin?
  {
    if r in s.held {
      states, steps := RestartFromReady(Apply(s, Release(r)), k, r);
      PathPrepend(s, Release(r), states, steps);
      states, steps := [s] + states, [Release(r)] + steps;
    } else {
      states, steps := RestartFromReady(s, k, r);
    }
  }

  /** The drop under way comes to its end, and a restart does the rest. */
  lemma {:induction false} DropEndsDangling(s: State) returns (states: seq<State>, steps: seq<Step>)
    requires Inv(s) && Wired(s) && s.control.StoppingLast? && !LastUnused(s)
    requires s.objects[s.tasks[|s.tasks| - 1]].internalStop
    ensures IsPath(states, steps) && states[0] == s && !SendersSafe(states[|steps|])
    ensures forall k :: 0 <= k < |steps| ==> !steps[k].StopLastBegin?
    decreases Remaining(s.objects[s.tasks[|s.tasks| - 1]])
  {
    var last := s.tasks[|s.tasks| - 1];
    var step := if !Active(s, last) then StopLastEnd
                else if s.objects[last].left > 0 then Work(last) else Check(last, 0);
    var s' := Apply(s, step);
    StepInv(s, step);
    WiredStep(s, step);
    var states', steps';
    if step.StopLastEnd? {
      var k := DroppedReceiver(s);
      states', steps' := ReleasedThenDangles(s', k, last);
    } else {
      BodyStepKeepsWiring(s, step);
      states', steps' := DropEndsDangling(s');
    }
    states, steps := [s] + states', [step] + steps';
    PathPrepend(s, step, states', steps');
  }

  lemma BodyStepKeepsWiring(s: State, step: Step)
    requires Inv(s) && Enabled(s, step) && (step.Work? || step.Check?)
    ensures SameWiring(s, Apply(s, step)) && LastUnused(Apply(s, step)) == LastUnused(s)
  {
  }

  /** A continuation of `s` that drops the last task and in which every further drop passes the test. */
  ghost predicate DropsLast(s: State, states: seq<State>, steps: seq<Step>) {
    && IsPath(states, steps) && states[0] == s
    && steps != [] && steps[0].StopLastBegin? && Careful(states, steps, 1, |steps|)
  }

  /** stopLastThread keeps the guarantee, in every state that can follow, exactly when no other listed
      task has a sender to the one it drops. */
  lemma StopLastSafeExactlyWhenUnused(states: seq<State>, steps: seq<Step>, i: nat)
    requires IsRun(states, steps) && i < |states| && Careful(states, steps, 0, i)
    requires states[i].control.Ready? && states[i].tasks != []
    ensures LastUnused(states[i]) <==>
            forall more, labels :: DropsLast(states[i], more, labels) ==> SendersSafe(more[|labels|])
  {
    var s := states[i];
    RunInv(states, steps, i);
    PathLinked(states, steps, 0, i);
    if LastUnused(s) {
      forall more, labels | DropsLast(s, more, labels)
        ensures SendersSafe(more[|labels|])
      {
        PathInv(more, labels, 0, |labels|);
        PathLinked(more, labels, 0, |labels|);
        LinkedMeansSafe(more[|labels|]);
      }
    } else {
      RunWired(states, steps, i);
      var more, labels := BadDropDangles(s);
    }
  }

  lemma BadDropDangles(s: State) returns (states: seq<State>, steps: seq<Step>)
    requires Inv(s) && Wired(s) && s.control.Ready? && s.tasks != [] && !LastUnused(s)
    ensures DropsLast(s, states, steps) && !SendersSafe(states[|steps|])
  {
    var s' := Apply(s, StopLastBegin);
    StepInv(s, StopLastBegin);
    WiredStep(s, StopLastBegin);
    assert !LastUnused(s');
    var states', steps' := DropEndsDangling(s');
    states, steps := [s] + states', [StopLastBegin] + steps';
    PathPrepend(s, StopLastBegin, states', steps');
  }

  /** On the live chain it does not: the transformation thread goes on sending to the result thread. */
  lemma StopLastOnLiveChainDangles(s: State, n: nat)
    requires Inv(s) && Enabled(s, StopLastEnd)
    requires s.tasks == [n, n + 1, n + 2, n + 3, n + 4] && s.observer == Some(n) && n + 4 !in s.held
    requires n + 3 < |s.objects| && s.objects[n + 3].active && s.objects[n + 3].receivers == ChainTasks(n)[3].receivers
    ensures !SendersSafe(Apply(s, StopLastEnd))
  {
    var s' := Apply(s, StopLastEnd);
    assert s'.tasks == [n, n + 1, n + 2, n + 3];
    assert s'.objects[n + 3].active && n + 4 in s'.objects[n + 3].receivers && !Alive(s', n + 4);
  }

  /** On the live chain the result thread is asked to stop, ends, and is dropped. */
  function DropResult(k: nat): State
    requires k <= 3
  {
    var s := LiveChain();
    if k == 0 then s
    else
      s.(objects := s.objects[4 := Task(k == 1, 0, true, 0, {})],
         tasks := if k < 3 then s.tasks else [0, 1, 2, 3], control := if k < 3 then StoppingLast else Ready)
  }

  function DropResultLabel(k: nat): Step {
    if k == 0 then StopLastBegin else if k == 1 then Check(4, 0) else StopLastEnd
  }

  lemma DropResultStep(k: nat)
    requires k < 3
    ensures WellFormed(DropResult(k)) && Enabled(DropResult(k), DropResultLabel(k))
    ensures Apply(DropResult(k), DropResultLabel(k)) == DropResult(k + 1)
  {
    if k == 1 {
      assert Stopped(DropResult(1), 4);
    } else if k == 2 {
      assert [0, 1, 2, 3, 4][..4] == [0, 1, 2, 3];
    }
  }

  lemma DropResultRun() returns (states: seq<State>, steps: seq<Step>)
    ensures IsRun(states, steps) && |steps| > 0
    ensures states[|steps| - 1] == DropResult(2) && states[|steps|] == DropResult(3)
  {
    var a, la := StartUpRun();
    var b := seq(4, k requires 0 <= k < 4 => DropResult(k));
    var lb := seq(3, k requires 0 <= k < 3 => DropResultLabel(k));
    forall k: nat | k < |lb|
      ensures StepAt(b, lb, k)
    {
      DropResultStep(k);
    }
    PathConcat(a, la, b, lb);
    states, steps := a + b[1..], la + lb;
    assert states[|la| + 2] == b[2] && states[|la| + 3] == b[3];
  }

  /** Start-up followed by stopLastThread is such a run. */
  lemma StopLastAfterStartUpDangles()
    ensures exists states, steps :: IsRun(states, steps) && !SendersSafe(states[|steps|])
  {
    var states, steps := DropResultRun();
    RunInv(states, steps, |steps| - 1);
    DropResultStep(2);
    StopLastOnLiveChainDangles(DropResult(2), 0);
  }

  lemma SafeAtRest(s: State)
    requires forall t: nat :: !Active(s, t)
    ensures SendersSafe(s)
  {
    forall t | 0 <= t < |s.objects|
      ensures !s.objects[t].active
    {
      assert !Active(s, t);
    }
  }

  /** With everything stopped, dropping a task that fails the test and that no caller holds does no harm
      at once: the harm is done by the restart that follows. */
  lemma StoppedDropDanglesOnRestart(s: State) returns (states: seq<State>, steps: seq<Step>)
    requires Inv(s) && Wired(s) && s.control.Ready? && s.tasks != [] && !LastUnused(s)
    requires s.tasks[|s.tasks| - 1] !in s.held && forall t: nat :: !Active(s, t)
    ensures IsPath(states, steps) && states[0] == s && |steps| > 2
    ensures steps[0] == StopLastBegin && steps[1] == StopLastEnd
    ensures SendersSafe(states[2]) && forall t: nat :: !Active(states[2], t)
    ensures forall k :: 2 <= k < |steps| ==> IsRestart(steps[k])
    ensures !SendersSafe(states[|steps|])
  {
    var s1 := Apply(s, StopLastBegin);
    StepInv(s, StopLastBegin);
    WiredStep(s, StopLastBegin);
    assert !LastUnused(s1);
    assert forall t: nat :: Active(s1, t) ==> Active(s, t);
    var k := DroppedReceiver(s1);
    var s2 := Apply(s1, StopLastEnd);
    assert forall t: nat :: Active(s2, t) ==> Active(s1, t);
    SafeAtRest(s2);
    var states', steps' := RestartFromReady(s2, k, s1.tasks[|s1.tasks| - 1]);
    PathPrepend(s1, StopLastEnd, states', steps');
    PathPrepend(s, StopLastBegin, [s1] + states', [StopLastEnd] + steps');
    states, steps := [s] + ([s1] + states'), [StopLastBegin] + ([StopLastEnd] + steps');
    assert states[2] == s2;
  }

  /** The live chain stopped: a continuation of start-up that ends with nothing running. */
  lemma StartUpThenStop() returns (states: seq<State>, steps: seq<Step>)
    ensures IsRun(states, steps) && states[|steps|].control.Ready?
    ensures forall t: nat :: !Active(states[|steps|], t)
    ensures SameWiring(LiveChain(), states[|steps|])
  {
    var s := LiveChain();
    var a, la := StartUpRun();
    RunInv(a, la, |la|);
    var s' := Apply(s, StopBegin(false));
    StepInv(s, StopBegin(false));
    var b, lb := SomeScheduleFinishes(s');
    PathPrepend(s, StopBegin(false), b, lb);
    PathConcat(a, la, [s] + b, [StopBegin(false)] + lb);
    states, steps := a + ([s] + b)[1..], la + ([StopBegin(false)] + lb);
    assert states[|la| + (1 + |lb|)] == ([s] + b)[1 + |lb|] == b[|lb|];
  }

  /** Step `i - 1` drops a task with nothing running; only restartAllThreads follows, and it leaves a
      dangling sender. */
  ghost predicate DropHarmsOnRestart(states: seq<State>, steps: seq<Step>, i: nat) {
    && IsRun(states, steps) && 0 < i < |steps| && steps[i - 1] == StopLastEnd
    && SendersSafe(states[i]) && (forall t: nat :: !Active(states[i], t))
    && (forall k :: i <= k < |steps| ==> IsRestart(steps[k]))
    && !SendersSafe(states[|steps|])
  }

  /** stopAllThreads, stopLastThread, restartAllThreads on the chain: nothing ran when the result task
      was dropped, and the restarted transformation task sends to it. */
  lemma StopDropRestartDangles()
    ensures exists states, steps, i :: DropHarmsOnRestart(states, steps, i)
  {
    var a, la := StartUpThenStop();
    var s := a[|la|];
    RunInv(a, la, |la|);
    RunWired(a, la, |la|);
    assert s.tasks == [0, 1, 2, 3, 4] && 4 in s.objects[s.tasks[3]].receivers;
    var b, lb := StoppedDropDanglesOnRestart(s);
    PathConcat(a, la, b, lb);
    var states, steps, i := a + b[1..], la + lb, |la| + 2;
    assert states[i] == b[2] && states[|steps|] == b[|lb|] && steps[i - 1] == lb[1];
    forall k | i <= k < |steps|
      ensures IsRestart(steps[k])
    {
      assert steps[k] == lb[k - |la|];
    }
    assert DropHarmsOnRestart(states, steps, i);
  }
}
