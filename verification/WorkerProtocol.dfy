/** `workerBase` split into its atomic steps: the compare-and-swap of `start`, creation of the
    thread, move assignment to the `jthread` member, the thread body with its final store to the
    running flag, and `join`. Any number of threads may call; bodies may also return by themselves. */
module WorkerProtocol {
  import opened Options
  import opened Counting

  datatype Caller =
    | Free
    | PastCas                  // won the compare-and-swap, no thread created yet
    | Assigning(thread: nat)   // created a thread, still inside the move assignment

  datatype Phase = Fresh | Running | Returned | Marked   // Marked: past markStopped()

  datatype State = State(
    running: bool,
    callers: seq<Caller>,
    threads: seq<Phase>,       // every thread ever created
    member: Option<nat>)       // the thread m_thread owns, if joinable

  datatype Step =
    | StartRefused(c: nat)     // not ready, or the flag was already set
    | Cas(c: nat)
    | Create(c: nat)
    | CreateThrows(c: nat)
    | Assign(c: nat)
    | Enter(t: nat)
    | Leave(t: nat)
    | Mark(t: nat)
    | Join(c: nat)

  function Init(n: nat): State {
    State(false, seq(n, _ => Free), [], None)
  }

  /** The thread in the member, if any, has ended: its join does not block. */
  predicate Joined(s: State) {
    s.member.Some? ==> s.member.value < |s.threads| && s.threads[s.member.value].Marked?
  }

  predicate Enabled(s: State, step: Step) {
    match step
    case StartRefused(c) => c < |s.callers| && s.callers[c].Free?
    case Cas(c) => c < |s.callers| && s.callers[c].Free? && !s.running
    case Create(c) => c < |s.callers| && s.callers[c].PastCas?
    case CreateThrows(c) => c < |s.callers| && s.callers[c].PastCas?
    case Assign(c) => c < |s.callers| && s.callers[c].Assigning? && Joined(s)
    case Enter(t) => t < |s.threads| && s.threads[t].Fresh?
    case Leave(t) => t < |s.threads| && s.threads[t].Running?
    case Mark(t) => t < |s.threads| && s.threads[t].Returned?
    case Join(c) => c < |s.callers| && s.callers[c].Free? && Joined(s)
  }

  function Apply(s: State, step: Step): State
    requires Enabled(s, step)
  {
    match step
    case StartRefused(c) => s
    case Cas(c) => s.(running := true, callers := s.callers[c := PastCas])
    case Create(c) => s.(threads := s.threads + [Fresh], callers := s.callers[c := Assigning(|s.threads|)])
    case CreateThrows(c) => s.(running := false, callers := s.callers[c := Free])
    case Assign(c) => s.(member := Some(s.callers[c].thread), callers := s.callers[c := Free])
    case Enter(t) => s.(threads := s.threads[t := Running])
    case Leave(t) => s.(threads := s.threads[t := Returned])
    case Mark(t) => s.(threads := s.threads[t := Marked], running := false)
    case Join(c) => s.(member := None)
  }

  ghost predicate StepAt(states: seq<State>, steps: seq<Step>, i: nat)
    requires i < |steps| && |states| == |steps| + 1
  {
    Enabled(states[i], steps[i]) && states[i + 1] == Apply(states[i], steps[i])
  }

  ghost predicate IsRun(states: seq<State>, steps: seq<Step>) {
    && |states| == |steps| + 1
    && states[0] == Init(|states[0].callers|)
    && forall i: nat :: i < |steps| ==> StepAt(states, steps, i)
  }

  function Claim(c: Caller): nat {
    if c.PastCas? then 1 else 0
  }

  function Live(p: Phase): nat {
    if p.Marked? then 0 else 1
  }

  /** The flag counts the starters past the compare-and-swap and the threads before their final
      store: together one if it is set, none if it is clear. */
  ghost predicate FlagCounts(s: State) {
    Total(Claim, s.callers) + Total(Live, s.threads) == if s.running then 1 else 0
  }

  /** With a single caller, only the member thread and the one being assigned can be alive. */
  ghost predicate OnlyOwnedLive(s: State) {
    |s.callers| == 1 ==>
      forall t :: 0 <= t < |s.threads| && !s.threads[t].Marked? ==>
        s.callers[0] == Assigning(t) || s.member == Some(t)
  }

  /** Threads named by a caller or the member exist. */
  ghost predicate InRange(s: State) {
    && (forall c :: 0 <= c < |s.callers| && s.callers[c].Assigning? ==> s.callers[c].thread < |s.threads|)
    && (s.member.Some? ==> s.member.value < |s.threads|)
  }

  ghost predicate Inv(s: State) {
    FlagCounts(s) && OnlyOwnedLive(s) && InRange(s)
  }

  lemma {:induction false} NoClaims(n: nat)
    ensures Total(Claim, seq(n, _ => Free)) == 0
  {
    TotalZero(Claim, seq(n, _ => Free));
  }

  lemma CallerStep(s: State, c: nat, v: Caller)
    requires c < |s.callers|
    ensures Total(Claim, s.callers[c := v]) == Total(Claim, s.callers) - Claim(s.callers[c]) + Claim(v)
  {
    TotalUpdate(Claim, s.callers, c, v);
  }

  lemma FlagStep(s: State, step: Step)
    requires Inv(s) && Enabled(s, step)
    ensures FlagCounts(Apply(s, step))
  {
    match step
    case StartRefused(c) =>
    case Cas(c) => CallerStep(s, c, PastCas);
    case Create(c) =>
      CallerStep(s, c, Assigning(|s.threads|));
      TotalAppend(Live, s.threads, Fresh);
    case CreateThrows(c) =>
      CallerStep(s, c, Free);
      TotalUpdate(Claim, s.callers, c, Free);
    case Assign(c) => CallerStep(s, c, Free);
    case Enter(t) => TotalUpdate(Live, s.threads, t, Running);
    case Leave(t) => TotalUpdate(Live, s.threads, t, Returned);
    case Mark(t) => TotalUpdate(Live, s.threads, t, Marked);
    case Join(c) =>
  }

  lemma InRangeStep(s: State, step: Step)
    requires InRange(s) && Enabled(s, step)
    ensures InRange(Apply(s, step)) && |Apply(s, step).callers| == |s.callers|
  {
  }

  /** The caller that creates a thread holds the flag, so every earlier thread is past its final store. */
  lemma OwnedCreate(s: State, c: nat)
    requires FlagCounts(s) && Enabled(s, Create(c))
    ensures OnlyOwnedLive(Apply(s, Create(c)))
  {
    TotalUpdate(Claim, s.callers, c, PastCas);
    TotalZero(Live, s.threads);
  }

  lemma OwnedOther(s: State, step: Step)
    requires OnlyOwnedLive(s) && Enabled(s, step) && !step.Create?
    ensures OnlyOwnedLive(Apply(s, step))
  {
  }

  lemma StepInv(s: State, step: Step)
    requires Inv(s) && Enabled(s, step)
    ensures Inv(Apply(s, step)) && |Apply(s, step).callers| == |s.callers|
  {
    FlagStep(s, step);
    InRangeStep(s, step);
    if step.Create? {
      OwnedCreate(s, step.c);
    } else {
      OwnedOther(s, step);
    }
  }

  lemma {:induction false} RunInv(states: seq<State>, steps: seq<Step>, i: nat)
    requires IsRun(states, steps) && i < |states|
    ensures Inv(states[i]) && |states[i].callers| == |states[0].callers|
  {
    if i == 0 {
      NoClaims(|states[0].callers|);
    } else {
      RunInv(states, steps, i - 1);
      assert StepAt(states, steps, i - 1);
      StepInv(states[i - 1], steps[i - 1]);
    }
  }

  /** At most one `run()` body is active, whatever starts, natural returns, joins and re-starts came
      before, from however many threads; and none is while the flag reads false. */
  lemma AtMostOneRunBody(states: seq<State>, steps: seq<Step>, i: nat, t: nat, u: nat)
    requires IsRun(states, steps) && i < |states|
    requires t < |states[i].threads| && u < |states[i].threads|
    requires states[i].threads[t].Running? && states[i].threads[u].Running?
    ensures t == u && states[i].running
  {
    RunInv(states, steps, i);
    TotalUpdate(Live, states[i].threads, t, states[i].threads[t]);
    if t < u {
      TotalOfTwo(Live, states[i].threads, t, u);
    } else if u < t {
      TotalOfTwo(Live, states[i].threads, u, t);
    }
  }

  /** The caller whose compare-and-swap succeeds goes on to create a thread, and from then on every other
      start is refused, by whomever, until that thread clears the flag or could not be made. */
  lemma {:induction false} StartExcludesOthers(states: seq<State>, steps: seq<Step>, i: nat, j: nat, c: nat)
    requires IsRun(states, steps) && i < j < |states| && steps[i].Cas?
    requires forall k :: i < k < j ==> !steps[k].Mark? && !steps[k].CreateThrows?
    ensures steps[i].c < |states[i + 1].callers| && states[i + 1].callers[steps[i].c].PastCas?
    ensures states[j].running && !Enabled(states[j], Cas(c))
    decreases j
  {
    assert StepAt(states, steps, i);
    assert StepAt(states, steps, j - 1);
    if j > i + 1 {
      StartExcludesOthers(states, steps, i, j - 1, c);
    }
  }

  /** One control thread: when `join` returns the flag is clear and every thread has ended, so a
      following `start` is not refused. */
  lemma NotRunningAfterJoin(states: seq<State>, steps: seq<Step>, i: nat)
    requires IsRun(states, steps) && i < |steps| && steps[i] == Join(0) && |states[0].callers| == 1
    ensures !states[i + 1].running && Enabled(states[i + 1], Cas(0)) && states[i + 1].member.None?
    ensures states[i + 1].threads == states[i].threads
    ensures forall phase :: phase in states[i + 1].threads ==> phase.Marked?
  {
    RunInv(states, steps, i);
    assert StepAt(states, steps, i);
    var s := states[i];
    TotalZero(Live, s.threads);
    TotalZero(Claim, s.callers);
  }

  /** The move assignment joins the previous thread; it never waits for a body still to come, because
      the compare-and-swap succeeded only after every earlier thread had cleared the flag. */
  lemma AssignNeverBlocks(states: seq<State>, steps: seq<Step>, i: nat)
    requires IsRun(states, steps) && i < |states| && |states[0].callers| == 1
    requires states[i].callers != [] && states[i].callers[0].Assigning?
    ensures Joined(states[i]) && Enabled(states[i], Assign(0))
  {
    AssigningJoined(states, steps, i);
  }

  /** A lone caller past the compare-and-swap finds the old thread ended. */
  ghost predicate StartingJoined(s: State) {
    |s.callers| == 1 && (s.callers[0].Assigning? || s.callers[0].PastCas? ==> Joined(s))
  }

  lemma StartingJoinedStep(s: State, step: Step)
    requires Inv(s) && StartingJoined(s) && Enabled(s, step)
    ensures StartingJoined(Apply(s, step))
  {
    if step.Cas? {
      TotalZero(Live, s.threads);
    }
  }

  lemma {:induction false} AssigningJoined(states: seq<State>, steps: seq<Step>, i: nat)
    requires IsRun(states, steps) && i < |states| && |states[0].callers| == 1
    ensures StartingJoined(states[i])
  {
    if i > 0 {
      AssigningJoined(states, steps, i - 1);
      RunInv(states, steps, i - 1);
      assert StepAt(states, steps, i - 1);
      StartingJoinedStep(states[i - 1], steps[i - 1]);
    }
  }

  // ---- Progress ----------------------------------------------------------------------

  /** Steps a thread has still to make. */
  function PhaseWork(p: Phase): nat {
    match p
    case Fresh => 3
    case Running => 2
    case Returned => 1
    case Marked => 0
  }

  predicate OfThread(step: Step) {
    step.Enter? || step.Leave? || step.Mark?
  }

  /** A thread step brings its thread one phase on and leaves the others; no other step touches a thread,
      but for `Create`, which adds one. */
  lemma ThreadStepSpends(s: State, step: Step)
    requires Enabled(s, step)
    ensures var s' := Apply(s, step);
            if OfThread(step)
            then && |s'.threads| == |s.threads| && PhaseWork(s'.threads[step.t]) == PhaseWork(s.threads[step.t]) - 1
                 && s'.threads == s.threads[step.t := s'.threads[step.t]]
                 && s'.callers == s.callers && s'.member == s.member
                 && Total(PhaseWork, s'.threads) == Total(PhaseWork, s.threads) - 1
            else s'.threads == if step.Create? then s.threads + [Fresh] else s.threads
  {
    if OfThread(step) {
      TotalUpdate(PhaseWork, s.threads, step.t, Apply(s, step).threads[step.t]);
    }
  }

  /** A thread that has not ended can go on. */
  lemma ThreadCanGoOn(s: State, t: nat)
    requires t < |s.threads| && !s.threads[t].Marked?
    ensures exists step :: OfThread(step) && step.t == t && Enabled(s, step)
  {
    var step := match s.threads[t] case Fresh => Enter(t) case Running => Leave(t) case _ => Mark(t);
    assert OfThread(step) && Enabled(s, step);
  }

  /** With a free lone caller only the thread of the member can have anything left to do. */
  lemma OnlyMemberWorks(s: State)
    requires Inv(s) && |s.callers| == 1 && s.callers[0].Free?
    ensures Total(PhaseWork, s.threads) == 0 <==> Joined(s)
    ensures Joined(s) ==> !s.running && Enabled(s, Join(0))
  {
    TotalZero(PhaseWork, s.threads);
    if Joined(s) {
      assert forall t :: 0 <= t < |s.threads| ==> s.threads[t].Marked?;
      TotalZero(Live, s.threads);
      TotalZero(Claim, s.callers);
    }
  }

  /** `join` completes: while the lone caller waits in it, each step of a thread uses up what was left,
      and at every moment either such a step of the member's thread is possible, or the join returns; then
      the flag is clear and a new start can begin. */
  lemma {:induction false} JoinCompletes(states: seq<State>, steps: seq<Step>, i: nat, j: nat)
    requires IsRun(states, steps) && i <= j < |states| && |states[0].callers| == 1
    requires states[i].callers == [Free] && forall k :: i <= k < j ==> OfThread(steps[k])
    ensures j - i + Total(PhaseWork, states[j].threads) == Total(PhaseWork, states[i].threads)
    ensures states[j].callers == [Free] && states[j].member == states[i].member
    ensures if Joined(states[j])
            then && Enabled(states[j], Join(0)) && !states[j].running && Total(PhaseWork, states[j].threads) == 0
                 && Enabled(Apply(states[j], Join(0)), Cas(0))
            else && states[j].member.Some?
                 && exists step :: OfThread(step) && step.t == states[j].member.value && Enabled(states[j], step)
    decreases j
  {
    if i < j {
      JoinCompletes(states, steps, i, j - 1);
      assert StepAt(states, steps, j - 1);
      ThreadStepSpends(states[j - 1], steps[j - 1]);
    }
    RunInv(states, steps, j);
    OnlyMemberWorks(states[j]);
    if !Joined(states[j]) {
      ThreadCanGoOn(states[j], states[j].member.value);
    }
  }

  /** Steps a call of `start` has still to make after its compare-and-swap. */
  function StartTogo(c: Caller): nat {
    match c
    case Free => 0
    case PastCas => 2
    case Assigning(_) => 1
  }

  function CallerSteps(steps: seq<Step>, i: nat, j: nat): nat
    requires i <= j <= |steps|
    decreases j
  {
    if i == j then 0 else CallerSteps(steps, i, j - 1) + if OfThread(steps[j - 1]) then 0 else 1
  }

  /** The lone caller's start that wins the compare-and-swap at step `i` is under way up to state `j`. */
  ghost predicate Starting(states: seq<State>, steps: seq<Step>, i: nat, j: nat) {
    && IsRun(states, steps) && |states[0].callers| == 1 && i < j < |states| && steps[i] == Cas(0)
    && forall k :: i < k <= j ==> states[k].callers != [] && !states[k].callers[0].Free?
  }

  /** A lone caller inside a start that found `n` threads and this member. */
  ghost predicate InsideStart(s: State, member: Option<nat>, n: nat) {
    && |s.callers| == 1 && s.member == member
    && ((s.callers[0].PastCas? && |s.threads| == n) || (s.callers[0] == Assigning(n) && |s.threads| == n + 1))
  }

  lemma InsideStartStep(s: State, step: Step, member: Option<nat>, n: nat)
    requires InsideStart(s, member, n) && Enabled(s, step)
    ensures var s' := Apply(s, step);
            && |s'.callers| == 1
            && (!s'.callers[0].Free? ==> InsideStart(s', member, n))
            && (!s'.callers[0].Free? ==>
                  StartTogo(s'.callers[0]) == StartTogo(s.callers[0]) - if OfThread(step) then 0 else 1)
  {
  }

  /** It can always take its next step and has at most two to go. */
  lemma {:induction false} StartGoesOn(states: seq<State>, steps: seq<Step>, i: nat, j: nat)
    requires Starting(states, steps, i, j)
    ensures InsideStart(states[j], states[i].member, |states[i].threads|)
    ensures StartTogo(states[j].callers[0]) + CallerSteps(steps, i + 1, j) == 2
    ensures Enabled(states[j], if states[j].callers[0].PastCas? then Create(0) else Assign(0))
    decreases j
  {
    AssigningJoined(states, steps, j);
    assert StepAt(states, steps, j - 1);
    if j > i + 1 {
      StartGoesOn(states, steps, i, j - 1);
      InsideStartStep(states[j - 1], steps[j - 1], states[i].member, |states[i].threads|);
    } else {
      RunInv(states, steps, i);
    }
  }

  /** And it comes back with one new thread, owned by the member, or, if the system refused to make one,
      with the flag clear again and everything else as it was. */
  lemma StartReturns(states: seq<State>, steps: seq<Step>, i: nat, j: nat)
    requires Starting(states, steps, i, j) && j < |steps|
    requires states[j + 1].callers != [] && states[j + 1].callers[0].Free?
    ensures if steps[j] == CreateThrows(0)
            then !states[j + 1].running && states[j + 1].member == states[i].member
              && |states[j + 1].threads| == |states[i].threads|
            else && steps[j] == Assign(0) && states[j + 1].member == Some(|states[i].threads|)
                 && |states[j + 1].threads| == |states[i].threads| + 1
  {
    StartGoesOn(states, steps, i, j);
    assert StepAt(states, steps, j);
    ThreadStepSpends(states[j], steps[j]);
  }
}

/** The stop token handed to `run`: a combined source fed by a callback on the thread's own token
    and one on the manager's token. `request_stop` first sets its bit, later takes up the callback;
    registering on a source already stopped runs the callback inside the constructor. */
module StopTokens {

  datatype Callback = Unregistered | Armed | FiringInConstructor | FiringInRequest | Fired

  datatype Side = Side(requested: bool, requesting: bool, cb: Callback)

  datatype Token = Token(internal: Side, external: Side, combined: bool)

  datatype Which = Internal | External

  datatype Step = Request(w: Which) | Deliver(w: Which) | Register(w: Which) | Fire(w: Which)

  function Get(s: Token, w: Which): Side {
    if w.Internal? then s.internal else s.external
  }

  function Put(s: Token, w: Which, side: Side): Token {
    if w.Internal? then s.(internal := side) else s.(external := side)
  }

  /** Either source may have been asked to stop before the thread body begins. */
  predicate Init(s: Token) {
    && !s.combined
    && s.internal.cb == Unregistered && s.external.cb == Unregistered
    && (s.internal.requesting ==> s.internal.requested)
    && (s.external.requesting ==> s.external.requested)
  }

  predicate Constructed(cb: Callback) {
    cb != Unregistered && cb != FiringInConstructor
  }

  predicate Enabled(s: Token, step: Step) {
    var side := Get(s, step.w);
    match step
    case Request(_) => !side.requested
    case Deliver(_) => side.requesting
    case Register(w) => side.cb == Unregistered && (w.External? ==> Constructed(s.internal.cb))
    case Fire(_) => side.cb == FiringInConstructor || side.cb == FiringInRequest
  }

  function Apply(s: Token, step: Step): Token
    requires Enabled(s, step)
  {
    var side := Get(s, step.w);
    match step
    case Request(w) => Put(s, w, side.(requested := true, requesting := true))
    case Deliver(w) =>
      Put(s, w, side.(requesting := false, cb := if side.cb == Armed then FiringInRequest else side.cb))
    case Register(w) => Put(s, w, side.(cb := if side.requested then FiringInConstructor else Armed))
    case Fire(w) => Put(s, w, side.(cb := Fired)).(combined := true)
  }

  ghost predicate StepAt(states: seq<Token>, steps: seq<Step>, i: nat)
    requires i < |steps| && |states| == |steps| + 1
  {
    Enabled(states[i], steps[i]) && states[i + 1] == Apply(states[i], steps[i])
  }

  ghost predicate IsRun(states: seq<Token>, steps: seq<Step>) {
    && |states| == |steps| + 1
    && Init(states[0])
    && forall i: nat :: i < |steps| ==> StepAt(states, steps, i)
  }

  ghost predicate SideInv(side: Side) {
    && (side.requesting ==> side.requested)
    && (side.cb == Armed && side.requested ==> side.requesting)
    && (side.cb == Fired || side.cb == FiringInRequest || side.cb == FiringInConstructor ==> side.requested)
  }

  ghost predicate Inv(s: Token) {
    && SideInv(s.internal) && SideInv(s.external)
    && (s.combined <==> s.internal.cb == Fired || s.external.cb == Fired)
  }

  lemma {:induction false} RunInv(states: seq<Token>, steps: seq<Step>, i: nat)
    requires IsRun(states, steps) && i < |states|
    ensures Inv(states[i])
  {
    if i > 0 {
      RunInv(states, steps, i - 1);
      assert StepAt(states, steps, i - 1);
    }
  }

  /** Both callbacks constructed, no request still on its way, no callback still running. */
  predicate Settled(s: Token) {
    && Constructed(s.internal.cb) && Constructed(s.external.cb)
    && s.internal.cb != FiringInRequest && s.external.cb != FiringInRequest
    && !s.internal.requesting && !s.external.requesting
  }

  /** The token given to `run` is stopped only if one of the sources is, and once things have settled
      exactly then. */
  lemma CombinedIsEither(states: seq<Token>, steps: seq<Step>, i: nat)
    requires IsRun(states, steps) && i < |states|
    ensures states[i].combined ==> states[i].internal.requested || states[i].external.requested
    ensures Settled(states[i]) ==>
              (states[i].combined <==> states[i].internal.requested || states[i].external.requested)
  {
    RunInv(states, steps, i);
  }

  /** `request_stop` on this source has been made and has returned, and the callback is constructed. */
  predicate Returned(s: Token, w: Which) {
    var side := Get(s, w);
    side.requested && !side.requesting && side.cb != FiringInRequest && Constructed(side.cb)
  }

  /** Once `request_stop` on a source has returned, having run the callback it found, the token of every
      body whose callback on that source is constructed is stopped for good: its next check sees it. A
      body constructs both callbacks before it begins. */
  lemma ReturnedRequestIsSeen(states: seq<Token>, steps: seq<Step>, i: nat, w: Which)
    requires IsRun(states, steps) && i < |states|
    requires Returned(states[i], w)
    ensures forall j :: i <= j < |states| ==> states[j].combined
  {
    RunInv(states, steps, i);
    forall j | i <= j < |states|
      ensures states[j].combined
    {
      CombinedNeverReverts(states, steps, i, j);
    }
  }

  /** It never reverts. */
  lemma {:induction false} CombinedNeverReverts(states: seq<Token>, steps: seq<Step>, i: nat, j: nat)
    requires IsRun(states, steps) && i <= j < |states| && states[i].combined
    ensures states[j].combined
  {
    if i < j {
      CombinedNeverReverts(states, steps, i, j - 1);
      assert StepAt(states, steps, j - 1);
    }
  }

  function Owed(side: Side): nat {
    (if side.requesting then 2 else 0)
    + (match side.cb
       case Unregistered => 2
       case FiringInConstructor => 1
       case FiringInRequest => 1
       case _ => 0)
  }

  /** Settling takes at most eight steps that are not new requests, and is never held up. */
  lemma SettlingIsBounded(states: seq<Token>, steps: seq<Step>, i: nat)
    requires IsRun(states, steps) && i < |states|
    ensures Owed(states[i].internal) + Owed(states[i].external) <= 8
    ensures i < |steps| && !steps[i].Request? ==>
              Owed(states[i + 1].internal) + Owed(states[i + 1].external)
              < Owed(states[i].internal) + Owed(states[i].external)
    ensures !Settled(states[i]) ==> exists step: Step :: !step.Request? && Enabled(states[i], step)
  {
    RunInv(states, steps, i);
    var s := states[i];
    if i < |steps| {
      assert StepAt(states, steps, i);
    }
    if !Settled(s) {
      if s.internal.requesting {
        assert Enabled(s, Deliver(Internal));
      } else if s.external.requesting {
        assert Enabled(s, Deliver(External));
      } else if s.internal.cb == Unregistered {
        assert Enabled(s, Register(Internal));
      } else if s.internal.cb == FiringInConstructor || s.internal.cb == FiringInRequest {
        assert Enabled(s, Fire(Internal));
      } else if s.external.cb == Unregistered {
        assert Enabled(s, Register(External));
      } else {
        assert Enabled(s, Fire(External));
      }
    }
  }

  // ---- The body that looks at the token ----------------------------------------------

  /** A run body: how many iterations it has begun, and whether it has left its loop. */
  datatype Body = Body(token: Token, begun: nat, left: bool)

  datatype BodyStep = Of(step: Step) | Check

  /** A body is entered with both callbacks constructed. */
  predicate BodyEnabled(s: Body, step: BodyStep) {
    match step
    case Of(st) => Enabled(s.token, st)
    case Check => !s.left && Constructed(s.token.internal.cb) && Constructed(s.token.external.cb)
  }

  function BodyApply(s: Body, step: BodyStep): Body
    requires BodyEnabled(s, step)
  {
    match step
    case Of(st) => s.(token := Apply(s.token, st))
    case Check => if s.token.combined then s.(left := true) else s.(begun := s.begun + 1)
  }

  ghost predicate BodyStepAt(states: seq<Body>, steps: seq<BodyStep>, i: nat)
    requires i < |steps| && |states| == |steps| + 1
  {
    BodyEnabled(states[i], steps[i]) && states[i + 1] == BodyApply(states[i], steps[i])
  }

  ghost predicate IsBodyRun(states: seq<Body>, steps: seq<BodyStep>) {
    && |states| == |steps| + 1
    && Init(states[0].token) && states[0].begun == 0 && !states[0].left
    && forall i: nat :: i < |steps| ==> BodyStepAt(states, steps, i)
  }

  lemma {:induction false} BodyRunInv(states: seq<Body>, steps: seq<BodyStep>, i: nat)
    requires IsBodyRun(states, steps) && i < |states|
    ensures Inv(states[i].token)
  {
    if i > 0 {
      BodyRunInv(states, steps, i - 1);
      assert BodyStepAt(states, steps, i - 1);
    }
  }

  /** From the return of `request_stop` on no iteration begins: the body's next check ends its loop. */
  lemma {:induction false} NoIterationAfterReturn(states: seq<Body>, steps: seq<BodyStep>, i: nat, j: nat, w: Which)
    requires IsBodyRun(states, steps) && i <= j < |states| && Returned(states[i].token, w)
    ensures states[j].token.combined && states[j].begun == states[i].begun
    ensures j < |steps| && steps[j] == Check ==> states[j + 1].left
  {
    BodyRunInv(states, steps, i);
    if i < j {
      NoIterationAfterReturn(states, steps, i, j - 1, w);
      assert BodyStepAt(states, steps, j - 1);
    }
    if j < |steps| {
      assert BodyStepAt(states, steps, j);
    }
  }

  /** A stop requested, its callback not run yet, and `n` iterations begun since. */
  function Overtaken(n: nat): Body {
    Body(Token(Side(false, false, Armed), Side(true, true, Armed), false), n, false)
  }

  function OvertakenRun(k: nat): Body {
    var idle := Side(false, false, Unregistered);
    var armed := Side(false, false, Armed);
    if k == 0 then Body(Token(idle, idle, false), 0, false)
    else if k == 1 then Body(Token(armed, idle, false), 0, false)
    else if k == 2 then Body(Token(armed, armed, false), 0, false)
    else Overtaken(k - 3)
  }

  function OvertakenStep(k: nat): BodyStep {
    if k == 0 then Of(Register(Internal))
    else if k == 1 then Of(Register(External))
    else if k == 2 then Of(Request(External))
    else Check
  }

  /** Before it returns there is no bound: for every `n` a run in which the body begins `n` iterations
      between the request's first effect and the callback that request owes it. */
  lemma WindowHasNoBound(n: nat) returns (states: seq<Body>, steps: seq<BodyStep>)
    ensures IsBodyRun(states, steps) && |steps| == n + 3
    ensures steps[2] == Of(Request(External)) && states[3].begun == 0
    ensures states[n + 3].begun == n && Get(states[n + 3].token, External).requesting
  {
    states := seq(n + 4, k requires 0 <= k < n + 4 => OvertakenRun(k));
    steps := seq(n + 3, k requires 0 <= k < n + 3 => OvertakenStep(k));
    forall k: nat | k < |steps|
      ensures BodyStepAt(states, steps, k)
    {
      assert states[k] == OvertakenRun(k) && states[k + 1] == OvertakenRun(k + 1);
    }
  }
}
