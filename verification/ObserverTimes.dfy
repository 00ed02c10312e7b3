/** What the observer's run amounts to, whatever commands come and whenever: closed forms of its mode,
    interval and pause deadline, and bounds on how many events it can emit. */
module ObserverTimes {
  import opened Options
  import opened DataTypes
  import opened Sequences
  import opened SpScRing
  import opened Observer
  import SpScAtomic

  // ---- The commands popped -----------------------------------------------------------

  /** What the buffer accepts during the sleeps of one wait. */
  function AcceptedInWait(q: seq<Command>, limit: nat, sleeps: seq<Sleep<Command>>): seq<Command>
    decreases |sleeps|
  {
    if q != [] || sleeps == [] then []
    else
      var q' := Offer(q, limit, sleeps[0].offered);
      q' + AcceptedInWait(q', limit, if sleeps[0].timedOut then [] else sleeps[1..])
  }

  function AcceptedBetween(q: seq<Command>, limit: nat, offered: seq<Command>): seq<Command> {
    Offer(q, limit, offered)[|q|..]
  }

  /** What a round lets into the buffer, before its wait and during it. */
  function AcceptedInRound(b: seq<Command>, limit: nat, r: Round): seq<Command> {
    AcceptedBetween(b, limit, r.arrivals) + AcceptedInWait(Offer(b, limit, r.arrivals), limit, r.sleeps)
  }

  function Accepted(q: seq<Command>, limit: nat, rounds: seq<Round>): seq<Command> {
    if rounds == [] then []
    else
      var n := |rounds| - 1;
      Accepted(q, limit, rounds[..n]) + AcceptedInRound(BufferAfter(q, limit, rounds[..n]), limit, rounds[n])
  }

  lemma {:induction false} WaitPopConserves(q: seq<Command>, limit: nat, sleeps: seq<Sleep<Command>>)
    ensures var (c, rest) := WaitPop(q, limit, sleeps);
            q + AcceptedInWait(q, limit, sleeps) == (if c.Some? then [c.value] else []) + rest
    decreases |sleeps|
  {
    if q == [] && sleeps != [] {
      var q' := Offer(q, limit, sleeps[0].offered);
      var w' := if sleeps[0].timedOut then [] else sleeps[1..];
      WaitPopConserves(q', limit, w');
      assert q + (q' + AcceptedInWait(q', limit, w')) == q' + AcceptedInWait(q', limit, w');
    }
  }

  lemma RoundConserves(b: seq<Command>, limit: nat, r: Round)
    ensures var (c, rest) := WaitPop(Offer(b, limit, r.arrivals), limit, r.sleeps);
            b + AcceptedInRound(b, limit, r) == (if c.Some? then [c.value] else []) + rest
  {
    var b' := Offer(b, limit, r.arrivals);
    WaitPopConserves(b', limit, r.sleeps);
    assert b' == b + AcceptedBetween(b, limit, r.arrivals);
    assert b + AcceptedInRound(b, limit, r) == b' + AcceptedInWait(b', limit, r.sleeps);
  }

  /** The commands a run applies are, in order, a prefix of those the buffer accepted, and the rest of
      these are still in the buffer: none is skipped, repeated or overtaken. */
  lemma {:induction false} AppliedCommandsArePrefixOfAccepted(q: seq<Command>, limit: nat, rounds: seq<Round>)
    ensures Present(Commands(q, limit, rounds)) + BufferAfter(q, limit, rounds) == q + Accepted(q, limit, rounds)
  {
    if rounds != [] {
      var n := |rounds| - 1;
      var b := BufferAfter(q, limit, rounds[..n]);
      AppliedCommandsArePrefixOfAccepted(q, limit, rounds[..n]);
      RoundConserves(b, limit, rounds[n]);
      var cs := Commands(q, limit, rounds);
      assert cs[..n] == Commands(q, limit, rounds[..n]);
      Rearrange(Present(cs[..n]), b, q, Accepted(q, limit, rounds[..n]), AcceptedInRound(b, limit, rounds[n]),
                if cs[n].Some? then [cs[n].value] else [], BufferAfter(q, limit, rounds));
    }
  }

  lemma {:induction false} PresentAt(cs: seq<Option<Command>>, k: nat)
    requires k < |cs| && cs[k].Some?
    ensures |Present(cs[..k])| < |Present(cs)| && Present(cs)[|Present(cs[..k])|] == cs[k].value
    decreases |cs|
  {
    var n := |cs| - 1;
    if k < n {
      PresentAt(cs[..n], k);
      assert cs[..n][..k] == cs[..k];
    }
  }

  /** The same of an observer whose waits are the interleaved calls of `SpScAtomic`, each check loading a
      head possibly older than the newest: what round `k` applies, which the theorems below take as
      given, is the next accepted command if one of its checks saw a value, and nothing otherwise. */
  lemma AppliedUnderOldViews(states: seq<SpScAtomic.Ring<Command>>, steps: seq<SpScAtomic.Step<Command>>,
                             begins: seq<nat>, ends: seq<nat>, k: nat)
    requires SpScAtomic.AreCalls(states, steps, begins, ends) && k < |begins|
    ensures var cs := SpScAtomic.Outcomes(states, begins, ends);
            var accepted := states[SpScAtomic.EndBefore(ends, |ends|)].accepted;
            if exists m :: begins[k] < m < ends[k] && SpScAtomic.Sees(states[m], steps[m])
            then |Present(cs[..k])| < |accepted| && cs[k] == Some(accepted[|Present(cs[..k])|])
            else cs[k] == None
  {
    SpScAtomic.CallsTakeAcceptedInOrder(states, steps, begins, ends);
    var cs := SpScAtomic.Outcomes(states, begins, ends);
    SpScAtomic.OutcomeOfCall(states, steps, begins[k], ends[k]);
    assert cs[k] == SpScAtomic.Outcome(states, begins[k], ends[k]);
    if cs[k].Some? {
      PresentAt(cs, k);
    }
  }

  // ---- Closed forms of the settings --------------------------------------------------

  predicate IsPause(c: Option<Command>) {
    c.Some? && (c.value.kind.StopObserving? || c.value.kind.StartObserving?)
  }

  predicate IsMode(c: Option<Command>) {
    c.Some? && (c.value.kind.StressMode? || c.value.kind.SetNormalMode?)
  }

  /** Round `j` popped the last pause command of the run. */
  predicate LastPause(cs: seq<Option<Command>>, j: nat) {
    j < |cs| && IsPause(cs[j]) && forall k :: j < k < |cs| ==> !IsPause(cs[k])
  }

  predicate LastMode(cs: seq<Option<Command>>, j: nat) {
    j < |cs| && IsMode(cs[j]) && forall k :: j < k < |cs| ==> !IsMode(cs[k])
  }

  /** The pause deadline is the one set by the most recent stop or start command; the two commands do
      the same thing. */
  lemma {:induction false} DeadlineOfLastPause(o: Settings, cs: seq<Option<Command>>, rounds: seq<Round>, j: nat)
    requires |cs| == |rounds|
    ensures LastPause(cs, j) ==>
              SettingsAfter(o, cs, rounds).pauseUntil == rounds[j].applied + cs[j].value.durationSec * SECOND
    ensures (forall k :: 0 <= k < |cs| ==> !IsPause(cs[k])) ==>
              SettingsAfter(o, cs, rounds).pauseUntil == o.pauseUntil
  {
    if rounds != [] {
      var n := |rounds| - 1;
      DeadlineOfLastPause(o, cs[..n], rounds[..n], j);
      if LastPause(cs, j) && j < n {
        assert LastPause(cs[..n], j);
        assert !IsPause(cs[n]);
      }
    }
  }

  /** Round `i` emits exactly when its clock has reached the deadline of the most recent pause command
      popped up to and including this round. */
  lemma EmitsExactlyOutsidePause(o: Settings, cs: seq<Option<Command>>, rounds: seq<Round>, i: nat, j: nat)
    requires |cs| == |rounds| && i < |rounds|
    ensures LastPause(cs[..i + 1], j) ==>
              (Emits(o, cs, rounds, i) <==> rounds[i].pause >= rounds[j].applied + cs[j].value.durationSec * SECOND)
    ensures (forall k :: 0 <= k <= i ==> !IsPause(cs[k])) ==>
              (Emits(o, cs, rounds, i) <==> rounds[i].pause >= o.pauseUntil)
  {
    DeadlineOfLastPause(o, cs[..i + 1], rounds[..i + 1], j);
  }

  /** No check from round `j` on has reached `deadline`. */
  predicate Unexpired(rounds: seq<Round>, j: nat, deadline: int) {
    forall k :: j <= k < |rounds| ==> rounds[k].check < deadline
  }

  /** Mode and interval in closed form. After a stress command: stress at 10 ms until some check reads
      30 s or more past it, from then on normal at 2000 ms. */
  lemma {:induction false} ModeAfterStressCommand(o: Settings, cs: seq<Option<Command>>, rounds: seq<Round>, j: nat)
    requires |cs| == |rounds| && LastMode(cs, j) && cs[j].value.kind.StressMode?
    ensures var s := SettingsAfter(o, cs, rounds);
            var until := rounds[j].applied + 30 * SECOND;
            && (s.mode == Stress <==> Unexpired(rounds, j, until))
            && s.interval == (if s.mode == Stress then 10 else 2000)
            && s.stressUntil == until
    decreases |rounds|
  {
    var n := |rounds| - 1;
    var until := rounds[j].applied + 30 * SECOND;
    if j < n {
      ModeAfterStressCommand(o, cs[..n], rounds[..n], j);
      assert !IsMode(cs[n]);
      OneMoreCheck(rounds, j, until);
    }
  }

  lemma OneMoreCheck(rounds: seq<Round>, j: nat, deadline: int)
    requires j < |rounds|
    ensures var n := |rounds| - 1;
            Unexpired(rounds, j, deadline) <==> Unexpired(rounds[..n], j, deadline) && rounds[n].check < deadline
  {
  }

  /** After a set-normal command: normal at 500 ms. */
  lemma {:induction false} ModeAfterNormalCommand(o: Settings, cs: seq<Option<Command>>, rounds: seq<Round>, j: nat)
    requires |cs| == |rounds| && LastMode(cs, j) && cs[j].value.kind.SetNormalMode?
    ensures SettingsAfter(o, cs, rounds).mode == Normal && SettingsAfter(o, cs, rounds).interval == 500
    decreases |rounds|
  {
    var n := |rounds| - 1;
    if j < n {
      ModeAfterNormalCommand(o, cs[..n], rounds[..n], j);
      assert !IsMode(cs[n]);
    }
  }

  /** Before any: as at the start, apart from an inherited stress mode that has expired. */
  lemma {:induction false} ModeBeforeAnyCommand(o: Settings, cs: seq<Option<Command>>, rounds: seq<Round>)
    requires |cs| == |rounds| && forall k :: 0 <= k < |cs| ==> !IsMode(cs[k])
    ensures var s := SettingsAfter(o, cs, rounds);
            && (s.mode == Stress <==> o.mode == Stress && Unexpired(rounds, 0, o.stressUntil))
            && s.interval == (if s.mode == o.mode then o.interval else 2000)
            && s.stressUntil == o.stressUntil
  {
    if rounds != [] {
      var n := |rounds| - 1;
      ModeBeforeAnyCommand(o, cs[..n], rounds[..n]);
      assert !IsMode(cs[n]);
      OneMoreCheck(rounds, 0, o.stressUntil);
    }
  }

  /** Stress goes with 10 ms, normal with 500 or 2000 ms. */
  predicate Consistent(o: Settings) {
    if o.mode == Stress then o.interval == 10 else o.interval == 500 || o.interval == 2000
  }

  lemma {:induction false} IntervalFollowsMode(o: Settings, cs: seq<Option<Command>>, rounds: seq<Round>)
    requires |cs| == |rounds| && Consistent(o)
    ensures Consistent(SettingsAfter(o, cs, rounds))
    ensures o.mode == Normal && (forall k :: 0 <= k < |cs| && cs[k].Some? ==> !cs[k].value.kind.StressMode?) ==>
              SettingsAfter(o, cs, rounds).mode == Normal
  {
    if rounds != [] {
      var n := |rounds| - 1;
      IntervalFollowsMode(o, cs[..n], rounds[..n]);
    }
  }

  // ---- Rates -------------------------------------------------------------------------

  /** The clock is monotone, and a wait that pops no command lasts at least the interval in force. */
  predicate Timed(o: Settings, cs: seq<Option<Command>>, rounds: seq<Round>)
    requires |cs| == |rounds|
  {
    if rounds == [] then true
    else
      var n := |rounds| - 1;
      var r := rounds[n];
      && Timed(o, cs[..n], rounds[..n])
      && (n > 0 ==> rounds[n - 1].send <= r.begin)
      && r.begin <= r.applied <= r.check <= r.pause <= r.send
      && (cs[n].None? ==> r.applied >= r.begin + SettingsAfter(o, cs[..n], rounds[..n]).interval * MS)
  }

  function Popped(cs: seq<Option<Command>>): nat {
    |Present(cs)|
  }

  /** From the start of the first wait to the end of the last round. */
  function Elapsed(rounds: seq<Round>): int {
    if rounds == [] then 0 else rounds[|rounds| - 1].send - rounds[0].begin
  }

  lemma OneMoreUnit(unit: nat, t: int, elapsed: int, elapsed': int)
    requires t * unit <= elapsed && elapsed + unit <= elapsed'
    ensures (t + 1) * unit <= elapsed'
  {
  }

  lemma FewerUnits(unit: nat, a: int, b: int)
    requires a <= b
    ensures a * unit <= b * unit
  {
  }

  lemma {:induction false} AtMostOneEventPerRound(o: Settings, cs: seq<Option<Command>>, rounds: seq<Round>)
    requires |cs| == |rounds|
    ensures |Events(o, cs, rounds)| <= |rounds|
  {
    if rounds != [] {
      AtMostOneEventPerRound(o, cs[..|rounds| - 1], rounds[..|rounds| - 1]);
    }
  }

  /** Rounds without a command each take at least `unit`. */
  lemma {:induction false} TimeoutsTakeTime(o: Settings, cs: seq<Option<Command>>, rounds: seq<Round>, unit: nat)
    requires |cs| == |rounds| && Timed(o, cs, rounds)
    requires forall k :: 0 <= k < |rounds| ==> SettingsAfter(o, cs[..k], rounds[..k]).interval * MS >= unit
    ensures (|rounds| - Popped(cs)) * unit <= Elapsed(rounds)
  {
    if rounds != [] {
      var n := |rounds| - 1;
      forall k | 0 <= k < n
        ensures SettingsAfter(o, cs[..n][..k], rounds[..n][..k]).interval * MS >= unit
      {
        assert cs[..n][..k] == cs[..k] && rounds[..n][..k] == rounds[..k];
      }
      TimeoutsTakeTime(o, cs[..n], rounds[..n], unit);
      assert SettingsAfter(o, cs[..n], rounds[..n]).interval * MS >= unit;
      assert n > 0 ==> rounds[..n][n - 1] == rounds[n - 1] && rounds[..n][0] == rounds[0];
      if cs[n].None? {
        assert n + 1 - Popped(cs) == n - Popped(cs[..n]) + 1;
        OneMoreUnit(unit, n - Popped(cs[..n]), Elapsed(rounds[..n]), Elapsed(rounds));
      } else {
        assert n + 1 - Popped(cs) == n - Popped(cs[..n]);
      }
    }
  }

  lemma RateAtLeast(o: Settings, cs: seq<Option<Command>>, rounds: seq<Round>, unit: nat)
    requires |cs| == |rounds| && Timed(o, cs, rounds)
    requires forall k :: 0 <= k < |rounds| ==> SettingsAfter(o, cs[..k], rounds[..k]).interval * MS >= unit
    ensures (|Events(o, cs, rounds)| - Popped(cs)) * unit <= Elapsed(rounds)
  {
    TimeoutsTakeTime(o, cs, rounds, unit);
    AtMostOneEventPerRound(o, cs, rounds);
    FewerUnits(unit, |Events(o, cs, rounds)| - Popped(cs), |rounds| - Popped(cs));
  }

  /** In any run, events are at most the commands popped plus one per 10 ms elapsed. */
  lemma AtMostOneEventPerTenMs(o: Settings, cs: seq<Option<Command>>, rounds: seq<Round>)
    requires |cs| == |rounds| && Consistent(o) && Timed(o, cs, rounds)
    ensures (|Events(o, cs, rounds)| - Popped(cs)) * (10 * MS) <= Elapsed(rounds)
  {
    forall k | 0 <= k < |rounds|
      ensures SettingsAfter(o, cs[..k], rounds[..k]).interval * MS >= 10 * MS
    {
      IntervalFollowsMode(o, cs[..k], rounds[..k]);
    }
    RateAtLeast(o, cs, rounds, 10 * MS);
  }

  predicate NoStress(cs: seq<Option<Command>>) {
    forall k :: 0 <= k < |cs| && cs[k].Some? ==> !cs[k].value.kind.StressMode?
  }

  ghost predicate HalfSecondRate(o: Settings) {
    forall cs, rounds :: |cs| == |rounds| && NoStress(cs) && Timed(o, cs, rounds) ==>
      (|Events(o, cs, rounds)| - Popped(cs)) * (500 * MS) <= Elapsed(rounds)
  }

  /** A run of one round begun in stress mode that emits after 10 ms. */
  lemma FasterUnderInheritedStress(o: Settings) returns (cs: seq<Option<Command>>, rounds: seq<Round>)
    requires Consistent(o) && o.mode == Stress
    ensures |cs| == |rounds| && NoStress(cs) && Timed(o, cs, rounds)
    ensures (|Events(o, cs, rounds)| - Popped(cs)) * (500 * MS) > Elapsed(rounds)
  {
    var t := if o.pauseUntil > 0 then o.pauseUntil else 0;
    var r := Round([], [], t, t + 10 * MS, t + 10 * MS, t + 10 * MS, t + 10 * MS);
    cs, rounds := [None], [r];
    assert cs[..0] == [] && rounds[..0] == [] && cs[..1] == cs && rounds[..1] == rounds;
    assert Timed(o, cs, rounds) by {
      assert Timed(o, cs[..0], rounds[..0]);
    }
    assert SettingsAt(o, cs, rounds, 0).pauseUntil == o.pauseUntil;
    assert Emits(o, cs, rounds, 0) && |Events(o, cs, rounds)| == 1;
    assert Present(cs) == [] && Popped(cs) == 0 && Elapsed(rounds) == 10 * MS;
  }

  /** Without stress commands the bound is one event per 500 ms exactly for runs that begin in normal
      mode: the settings outlive a stop, and a run begun under an inherited stress mode is faster. */
  lemma HalfSecondRateExactlyFromNormal(o: Settings)
    requires Consistent(o)
    ensures HalfSecondRate(o) <==> o.mode == Normal
  {
    if o.mode == Normal {
      forall cs, rounds | |cs| == |rounds| && NoStress(cs) && Timed(o, cs, rounds)
        ensures (|Events(o, cs, rounds)| - Popped(cs)) * (500 * MS) <= Elapsed(rounds)
      {
        forall k | 0 <= k < |rounds|
          ensures SettingsAfter(o, cs[..k], rounds[..k]).interval * MS >= 500 * MS
        {
          IntervalFollowsMode(o, cs[..k], rounds[..k]);
        }
        RateAtLeast(o, cs, rounds, 500 * MS);
      }
    } else {
      var cs, rounds := FasterUnderInheritedStress(o);
    }
  }

  // ---- One burst of stress -----------------------------------------------------------

  /** Events emitted in stress mode by the rounds from `j` on. */
  function StressEvents(o: Settings, cs: seq<Option<Command>>, rounds: seq<Round>, j: nat): nat
    requires |cs| == |rounds|
  {
    if |rounds| <= j then 0
    else
      var n := |rounds| - 1;
      StressEvents(o, cs[..n], rounds[..n], j)
      + if Emits(o, cs, rounds, n) && SettingsAfter(o, cs, rounds).mode == Stress then 1 else 0
  }

  /** Rounds after `j` that timed out, and rounds after `j` woken by a command. */
  function TimedOutAfter(cs: seq<Option<Command>>, j: nat): nat {
    if |cs| <= j + 1 then 0
    else TimedOutAfter(cs[..|cs| - 1], j) + if cs[|cs| - 1].None? then 1 else 0
  }

  function PoppedAfter(cs: seq<Option<Command>>, j: nat): nat {
    if |cs| <= j + 1 then 0
    else PoppedAfter(cs[..|cs| - 1], j) + if cs[|cs| - 1].Some? then 1 else 0
  }

  lemma {:induction false} StressBurst(o: Settings, cs: seq<Option<Command>>, rounds: seq<Round>, j: nat)
    requires |cs| == |rounds| && Timed(o, cs, rounds) && j < |rounds|
    requires cs[j].Some? && cs[j].value.kind.StressMode?
    requires forall k :: j < k < |cs| && cs[k].Some? ==> !cs[k].value.kind.StressMode?
    ensures StressEvents(o, cs, rounds, j) <= 3000 + PoppedAfter(cs, j)
    ensures var s := SettingsAfter(o, cs, rounds);
            var r := rounds[|rounds| - 1];
            s.mode == Stress ==>
              && s.interval == 10 && s.stressUntil == rounds[j].applied + 30 * SECOND && r.check < s.stressUntil
              && rounds[j].applied + TimedOutAfter(cs, j) * 10 * MS <= r.check
              && StressEvents(o, cs, rounds, j) <= 1 + TimedOutAfter(cs, j) + PoppedAfter(cs, j)
    decreases |rounds|
  {
    var n := |rounds| - 1;
    assert cs[..n + 1] == cs && rounds[..n + 1] == rounds;
    if j == n {
      assert StressEvents(o, cs[..n], rounds[..n], j) == 0;
    } else {
      StressBurst(o, cs[..n], rounds[..n], j);
      assert rounds[..n][|rounds[..n]| - 1] == rounds[n - 1];
      assert rounds[n - 1].check <= rounds[n - 1].send by {
        assert Timed(o, cs[..n], rounds[..n]);
      }
    }
  }

  /** One stress command, no other after it: at most 3000 events in stress mode; every other command
      popped meanwhile can add one, because it ends a wait early. */
  lemma OneStressCommandGivesAtMost3000Events(o: Settings, cs: seq<Option<Command>>, rounds: seq<Round>, j: nat)
    requires |cs| == |rounds| && Timed(o, cs, rounds) && j < |rounds|
    requires cs[j].Some? && cs[j].value.kind.StressMode?
    requires forall k :: j < k < |cs| && cs[k].Some? ==> !cs[k].value.kind.StressMode?
    ensures StressEvents(o, cs, rounds, j) <= 3000 + PoppedAfter(cs, j)
    ensures (forall k :: j < k < |cs| ==> cs[k].None?) ==> StressEvents(o, cs, rounds, j) <= 3000
  {
    StressBurst(o, cs, rounds, j);
    NonePopped(cs, j);
  }

  lemma {:induction false} NonePopped(cs: seq<Option<Command>>, j: nat)
    ensures (forall k :: j < k < |cs| ==> cs[k].None?) ==> PoppedAfter(cs, j) == 0
    decreases |cs|
  {
    if |cs| > j + 1 {
      NonePopped(cs[..|cs| - 1], j);
    }
  }

  /** The bounds are attained: a stress command as soon as the pause is over, and then rounds that each
      time out after exactly 10 ms. */
  function BurstCommands(n: nat): seq<Option<Command>> {
    seq(n + 1, k requires 0 <= k <= n => if k == 0 then Some(Command(StressMode, 0)) else None)
  }

  function BurstRounds(t: int, n: nat): seq<Round> {
    seq(n + 1, k requires 0 <= k <= n => BurstRound(t, k))
  }

  function BurstRound(t: int, k: nat): Round {
    var now := t + k * (10 * MS);
    Round([], [], if k == 0 then t else now - 10 * MS, now, now, now, now)
  }

  lemma BurstPrefix(t: int, n: nat)
    requires n > 0
    ensures BurstCommands(n)[..n] == BurstCommands(n - 1) && BurstRounds(t, n)[..n] == BurstRounds(t, n - 1)
  {
  }

  lemma {:induction false} BurstSettings(o: Settings, n: nat)
    requires n < 3000
    ensures SettingsAfter(o, BurstCommands(n), BurstRounds(o.pauseUntil, n))
         == Settings(Stress, 10, o.pauseUntil, o.pauseUntil + 30 * SECOND)
  {
    if n > 0 {
      BurstSettings(o, n - 1);
      BurstPrefix(o.pauseUntil, n);
    }
  }

  lemma BurstEmits(o: Settings, n: nat)
    requires n < 3000
    ensures Emits(o, BurstCommands(n), BurstRounds(o.pauseUntil, n), n)
  {
    BurstSettings(o, n);
    var cs, rounds := BurstCommands(n), BurstRounds(o.pauseUntil, n);
    assert cs[..n + 1] == cs && rounds[..n + 1] == rounds;
  }

  lemma {:induction false} BurstTimed(o: Settings, n: nat)
    requires n < 3000
    ensures Timed(o, BurstCommands(n), BurstRounds(o.pauseUntil, n))
  {
    if n > 0 {
      BurstTimed(o, n - 1);
      BurstSettings(o, n - 1);
      BurstPrefix(o.pauseUntil, n);
    }
  }

  lemma {:induction false} BurstCounts(o: Settings, n: nat)
    requires n < 3000
    ensures var cs, rounds := BurstCommands(n), BurstRounds(o.pauseUntil, n);
            && StressEvents(o, cs, rounds, 0) == n + 1 && |Events(o, cs, rounds)| == n + 1
            && Popped(cs) == 1 && PoppedAfter(cs, 0) == 0
  {
    BurstSettings(o, n);
    BurstEmits(o, n);
    if n > 0 {
      BurstCounts(o, n - 1);
      BurstPrefix(o.pauseUntil, n);
    } else {
      assert BurstCommands(0)[..0] == [] && BurstRounds(o.pauseUntil, 0)[..0] == [];
    }
  }

  /** From any settings there is a run of 3000 rounds with one stress command, no other, that emits 3000
      events in stress mode; it also meets the bound of one event per 10 ms with equality. */
  lemma StressBoundsAreAttained(o: Settings) returns (cs: seq<Option<Command>>, rounds: seq<Round>)
    ensures |cs| == |rounds| == 3000 && Timed(o, cs, rounds)
    ensures cs[0].Some? && cs[0].value.kind.StressMode? && forall k :: 0 < k < |cs| ==> cs[k].None?
    ensures StressEvents(o, cs, rounds, 0) == 3000
    ensures (|Events(o, cs, rounds)| - Popped(cs)) * (10 * MS) == Elapsed(rounds)
  {
    cs, rounds := BurstCommands(2999), BurstRounds(o.pauseUntil, 2999);
    BurstTimed(o, 2999);
    BurstCounts(o, 2999);
  }

  // ---- The events themselves ---------------------------------------------------------

  /** Event number `k` is named and sized by `k`, none is stamped earlier than the one before it, and
      none later than `last`. */
  predicate NumberedUpTo(es: seq<FileEvent>, last: int) {
    && (forall k :: 0 <= k < |es| ==> es[k] == NthFile(k + 1, es[k].sendTime))
    && (forall k :: 0 <= k < |es| ==> es[k].sendTime <= last)
    && (forall k, l :: 0 <= k < l < |es| ==> es[k].sendTime <= es[l].sendTime)
  }

  lemma NumberedAppend(es: seq<FileEvent>, last: int, now: int)
    requires NumberedUpTo(es, last) && last <= now
    ensures NumberedUpTo(es, now) && NumberedUpTo(es + [NthFile(|es| + 1, now)], now)
  {
  }

  lemma TimedLastRound(o: Settings, cs: seq<Option<Command>>, rounds: seq<Round>)
    requires |cs| == |rounds| && rounds != [] && Timed(o, cs, rounds)
    ensures var n := |rounds| - 1;
            Timed(o, cs[..n], rounds[..n]) && (n > 0 ==> rounds[n - 1].send <= rounds[n].send)
  {
  }

  lemma OneRoundOfEvents(o: Settings, cs: seq<Option<Command>>, rounds: seq<Round>)
    requires |cs| == |rounds| && rounds != []
    ensures var n := |rounds| - 1;
            var before := Events(o, cs[..n], rounds[..n]);
            Events(o, cs, rounds) == before || Events(o, cs, rounds) == before + [NthFile(|before| + 1, rounds[n].send)]
  {
  }

  lemma NumberedOneRound(before: seq<FileEvent>, es: seq<FileEvent>, last: int, now: int)
    requires NumberedUpTo(before, last) && last <= now
    requires es == before || es == before + [NthFile(|before| + 1, now)]
    ensures NumberedUpTo(es, now)
  {
    NumberedAppend(before, last, now);
  }

  lemma NumberedNextRound(o: Settings, cs: seq<Option<Command>>, rounds: seq<Round>, last: int)
    requires |cs| == |rounds| && rounds != [] && last <= rounds[|rounds| - 1].send
    requires var n := |rounds| - 1; NumberedUpTo(Events(o, cs[..n], rounds[..n]), last)
    ensures NumberedUpTo(Events(o, cs, rounds), rounds[|rounds| - 1].send)
  {
    var n := |rounds| - 1;
    OneRoundOfEvents(o, cs, rounds);
    NumberedOneRound(Events(o, cs[..n], rounds[..n]), Events(o, cs, rounds), last, rounds[n].send);
  }

  lemma {:induction false} EventsAreNumberedAndOrdered(o: Settings, cs: seq<Option<Command>>, rounds: seq<Round>)
    requires |cs| == |rounds| && rounds != [] && Timed(o, cs, rounds)
    ensures NumberedUpTo(Events(o, cs, rounds), rounds[|rounds| - 1].send)
    decreases |rounds|
  {
    var n := |rounds| - 1;
    TimedLastRound(o, cs, rounds);
    if n > 0 {
      EventsAreNumberedAndOrdered(o, cs[..n], rounds[..n]);
      assert rounds[..n][n - 1] == rounds[n - 1];
      NumberedNextRound(o, cs, rounds, rounds[n - 1].send);
    } else {
      NumberedNextRound(o, cs, rounds, rounds[n].send);
    }
  }

  /** Two events of one run never share a name. */
  lemma EventNamesAreDistinct(o: Settings, cs: seq<Option<Command>>, rounds: seq<Round>, k: nat, l: nat)
    requires |cs| == |rounds| && rounds != [] && Timed(o, cs, rounds)
    requires k < l < |Events(o, cs, rounds)|
    ensures Events(o, cs, rounds)[k].fileName != Events(o, cs, rounds)[l].fileName
  {
    EventsAreNumberedAndOrdered(o, cs, rounds);
    var es := Events(o, cs, rounds);
    NamesTellFilesApart(k + 1, l + 1, es[k].sendTime, es[l].sendTime);
  }
}
