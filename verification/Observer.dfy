/** The observer thread: its timed mode machine, its command buffer and its run loop.
    Times are nanoseconds of the steady clock, intervals milliseconds as in the source. */
module Observer {
  import opened Options
  import opened DataTypes
  import opened Sequences
  import opened SpScRing
  import opened Messaging

  const MS := 1_000_000
  const SECOND := 1_000_000_000

  datatype Mode = Normal | Stress

  /** The fields of the observer that commands and the clock change. */
  datatype Settings = Settings(mode: Mode, interval: int, pauseUntil: int, stressUntil: int)

  /** One iteration of the run loop: commands offered since the last wait, the sleeps of the wait,
      and the clock at the start of the wait, in applyCommand, at the stress check, at the pause
      check and when the event is stamped. */
  datatype Round = Round(
    arrivals: seq<Command>, sleeps: seq<Sleep<Command>>,
    begin: int, applied: int, check: int, pause: int, send: int)

  // ---- One iteration as a function ---------------------------------------------------

  function Applied(o: Settings, c: Command, now: int): Settings {
    match c.kind
    case StopObserving => o.(pauseUntil := now + c.durationSec * SECOND)
    case StartObserving => o.(pauseUntil := now + c.durationSec * SECOND)
    case StressMode => o.(mode := Stress, interval := 10, stressUntil := now + 30 * SECOND)
    case SetNormalMode => o.(mode := Normal, interval := 500)
  }

  function Reverted(o: Settings, now: int): Settings {
    if o.mode == Stress && now >= o.stressUntil then o.(mode := Normal, interval := 2000) else o
  }

  function Iterated(o: Settings, c: Option<Command>, r: Round): Settings {
    Reverted(if c.Some? then Applied(o, c.value, r.applied) else o, r.check)
  }

  // ---- A whole run as functions of its rounds ----------------------------------------

  /** The command buffer after the rounds, and the command, if any, each round popped. */
  function BufferAfter(q: seq<Command>, limit: nat, rounds: seq<Round>): seq<Command> {
    if rounds == [] then q
    else
      var n := |rounds| - 1;
      WaitPop(Offer(BufferAfter(q, limit, rounds[..n]), limit, rounds[n].arrivals), limit, rounds[n].sleeps).1
  }

  function Commands(q: seq<Command>, limit: nat, rounds: seq<Round>): (cs: seq<Option<Command>>)
    ensures |cs| == |rounds|
  {
    if rounds == [] then []
    else
      var n := |rounds| - 1;
      Commands(q, limit, rounds[..n])
      + [WaitPop(Offer(BufferAfter(q, limit, rounds[..n]), limit, rounds[n].arrivals), limit, rounds[n].sleeps).0]
  }

  function SettingsAfter(o: Settings, cs: seq<Option<Command>>, rounds: seq<Round>): Settings
    requires |cs| == |rounds|
  {
    if rounds == [] then o
    else
      var n := |rounds| - 1;
      Iterated(SettingsAfter(o, cs[..n], rounds[..n]), cs[n], rounds[n])
  }

  /** The settings when round `i` decides whether to emit. */
  function SettingsAt(o: Settings, cs: seq<Option<Command>>, rounds: seq<Round>, i: nat): Settings
    requires |cs| == |rounds| && i < |rounds|
  {
    SettingsAfter(o, cs[..i + 1], rounds[..i + 1])
  }

  predicate Emits(o: Settings, cs: seq<Option<Command>>, rounds: seq<Round>, i: nat)
    requires |cs| == |rounds| && i < |rounds|
  {
    rounds[i].pause >= SettingsAt(o, cs, rounds, i).pauseUntil
  }

  function Events(o: Settings, cs: seq<Option<Command>>, rounds: seq<Round>): seq<FileEvent>
    requires |cs| == |rounds|
  {
    if rounds == [] then []
    else
      var n := |rounds| - 1;
      var before := Events(o, cs[..n], rounds[..n]);
      if Emits(o, cs, rounds, n) then before + [NthFile(|before| + 1, rounds[n].send)] else before
  }

  function FileMessages(events: seq<FileEvent>): seq<Message> {
    seq(|events|, i requires 0 <= i < |events| => File(events[i]))
  }

  function DirectMessages(n: nat): seq<Message> {
    seq(n, i requires 0 <= i < n => Direct(i + 1))
  }

  /** What a run has made of the settings and the buffer, and the events it has emitted. */
  datatype Progress = Progress(settings: Settings, buffer: seq<Command>, events: seq<FileEvent>)

  function Advance(p: Progress, limit: nat, r: Round): Progress {
    var (c, rest) := WaitPop(Offer(p.buffer, limit, r.arrivals), limit, r.sleeps);
    var settings := Iterated(p.settings, c, r);
    Progress(settings, rest,
      if r.pause >= settings.pauseUntil then p.events + [NthFile(|p.events| + 1, r.send)] else p.events)
  }

  function Simulate(o: Settings, q: seq<Command>, limit: nat, rounds: seq<Round>): Progress {
    if rounds == [] then Progress(o, q, [])
    else Advance(Simulate(o, q, limit, rounds[..|rounds| - 1]), limit, rounds[|rounds| - 1])
  }

  /** What an iteration has added. */
  function NewEvents(p: Progress, p': Progress): seq<FileEvent> {
    if |p.events| < |p'.events| then p'.events[|p.events|..] else []
  }

  function NewDirects(p: Progress, p': Progress): seq<Message> {
    if |p.events| < |p'.events| then [Direct(|p'.events|)] else []
  }

  /** The queue behind a sender, if there is one, has grown by these messages. */
  twostate predicate Sent(sender: Sender?<Message>, ms: seq<Message>)
    reads if sender != null && sender.target != null then {sender.target} else {}
  {
    sender != null && sender.target != null ==> sender.target.queue == old(sender.target.queue) + ms
  }

  // ---- The observer as an object -----------------------------------------------------

  class ObserverIncomingThread {
    var mode: Mode
    var interval: int
    var pauseUntil: int
    var stressUntil: int
    const commands: SpScRingBuffer<Command>
    const next: Sender?<Message>
    const directToProcessing: Sender?<Message>

    ghost predicate Valid()
      reads this, commands
    {
      commands.Valid() && commands.initialized && commands.capacity == 8
    }

    ghost function Current(): Settings
      reads this
    {
      Settings(mode, interval, pauseUntil, stressUntil)
    }

    ghost function Targets(): set<object>
      reads this
    {
      (if next != null && next.target != null then {next.target} else {})
      + (if directToProcessing != null && directToProcessing.target != null then {directToProcessing.target} else {})
    }

    /** The senders are set once, before the thread starts. */
    constructor (next: Sender?<Message>, directToProcessing: Sender?<Message>)
      ensures Valid() && commands.Contents() == [] && fresh(commands) && fresh(commands.buffer)
      ensures Current() == Settings(Normal, 2000, 0, 0)
      ensures this.next == next && this.directToProcessing == directToProcessing
    {
      commands := new SpScRingBuffer();
      mode, interval, pauseUntil, stressUntil := Normal, 2000, 0, 0;
      this.next, this.directToProcessing := next, directToProcessing;
      new;
      assert IndexMask.Pow2(3) == 8 && IndexMask.IsPow2(8);
      var ok := commands.Init(8);
    }

    /** Producer side: false exactly when seven commands are waiting. */
    method SendCommand(cmd: Command) returns (ok: bool)
      requires Valid()
      modifies commands, commands.buffer
      ensures Valid() && commands.buffer == old(commands.buffer)
      ensures ok <==> |old(commands.Contents())| < 7
      ensures commands.Contents() == old(commands.Contents()) + if ok then [cmd] else []
    {
      ok := commands.Push(cmd);
    }

    method ApplyCommand(cmd: Command, now: int)
      modifies this
      ensures Current() == Applied(old(Current()), cmd, now)
    {
      match cmd.kind {
        case StopObserving => pauseUntil := now + cmd.durationSec * SECOND;
        case StartObserving => pauseUntil := now + cmd.durationSec * SECOND;
        case StressMode =>
          mode := Stress;
          interval := 10;
          stressUntil := now + 30 * SECOND;
        case SetNormalMode =>
          mode := Normal;
          interval := 500;
      }
    }

    /** The two senders do not share a queue. */
    ghost predicate Separate()
      reads this
    {
      next != null && directToProcessing != null ==> next.target != directToProcessing.target || next.target == null
    }

    /** The wait at the top of the loop; offers made since the last one come first. */
    method TakeCommand(r: Round) returns (cmd: Option<Command>)
      requires Valid()
      modifies commands, commands.buffer
      ensures Valid() && commands.buffer == old(commands.buffer)
      ensures (cmd, commands.Contents()) == WaitPop(Offer(old(commands.Contents()), 7, r.arrivals), 7, r.sleeps)
    {
      commands.OfferAll(r.arrivals);
      cmd := commands.WaitPopFor(r.sleeps);
    }

    /** The command, if one came, and the automatic end of stress mode. */
    method Settle(cmd: Option<Command>, r: Round)
      modifies this
      ensures Current() == Iterated(old(Current()), cmd, r)
    {
      if cmd.Some? {
        ApplyCommand(cmd.value, r.applied);
      }
      if mode == Stress && r.check >= stressUntil {
        mode := Normal;
        interval := 2000;
      }
    }

    method Emit(count: nat, send: int)
      requires Separate()
      modifies Targets()
      ensures Sent(next, [File(NthFile(count, send))]) && Sent(directToProcessing, [Direct(count)])
    {
      if next != null {
        next.Send(File(NthFile(count, send)));
      }
      if directToProcessing != null {
        directToProcessing.Send(Direct(count));
      }
    }

    /** One pass through the loop body; `count` is the loop's event counter. */
    method Iterate(r: Round, count: nat, ghost p: Progress) returns (count': nat)
      requires Valid() && Separate()
      requires commands as object !in Targets() && commands.buffer as object !in Targets()
      requires Current() == p.settings && commands.Contents() == p.buffer && count == |p.events|
      modifies this, commands, commands.buffer, Targets()
      ensures Valid() && commands.buffer == old(commands.buffer)
      ensures var p' := Advance(p, 7, r);
              && Current() == p'.settings && commands.Contents() == p'.buffer && count' == |p'.events|
              && Sent(next, FileMessages(NewEvents(p, p'))) && Sent(directToProcessing, NewDirects(p, p'))
    {
      AdvanceEffect(p, 7, r);
      var cmd := TakeCommand(r);
      Settle(cmd, r);
      if r.pause < pauseUntil {
        return count;
      }
      count' := count + 1;
      Emit(count', r.send);
    }

    /** The state after the first `i` rounds of a run that started from these settings, this buffer and
        these queues. */
    ghost predicate Follows(o: Settings, q: seq<Command>, files: seq<Message>, directs: seq<Message>,
                            rounds: seq<Round>, i: nat, count: nat)
      reads this, commands, commands.buffer, Targets()
    {
      && Valid() && i <= |rounds|
      && var p := Simulate(o, q, 7, rounds[..i]);
      && Current() == p.settings && commands.Contents() == p.buffer && count == |p.events|
      && (next != null && next.target != null ==> next.target.queue == files + FileMessages(p.events))
      && (directToProcessing != null && directToProcessing.target != null ==>
            directToProcessing.target.queue == directs + DirectMessages(count))
    }

    method Step(ghost o: Settings, ghost q: seq<Command>, ghost files: seq<Message>, ghost directs: seq<Message>,
                rounds: seq<Round>, i: nat, count: nat) returns (count': nat)
      requires Separate() && i < |rounds| && Follows(o, q, files, directs, rounds, i, count)
      requires commands as object !in Targets() && commands.buffer as object !in Targets()
      modifies this, commands, commands.buffer, Targets()
      ensures commands.buffer == old(commands.buffer)
      ensures Follows(o, q, files, directs, rounds, i + 1, count')
    {
      ghost var p := Simulate(o, q, 7, rounds[..i]);
      SimulateOneMore(o, q, 7, rounds, i);
      AdvanceMessages(p, 7, rounds[i]);
      count' := Iterate(rounds[i], count, p);
      ghost var p' := Advance(p, 7, rounds[i]);
      Regrouped(files, FileMessages(p.events), FileMessages(NewEvents(p, p')));
      Regrouped(directs, DirectMessages(count), NewDirects(p, p'));
    }

    /** Runs until the stop check that follows the last round. */
    method Run(rounds: seq<Round>)
      requires Valid() && Separate()
      requires commands as object !in Targets() && commands.buffer as object !in Targets()
      modifies this, commands, commands.buffer, Targets()
      ensures Valid()
      ensures var p := Simulate(old(Current()), old(commands.Contents()), 7, rounds);
              && Current() == p.settings && commands.Contents() == p.buffer
              && Sent(next, FileMessages(p.events)) && Sent(directToProcessing, DirectMessages(|p.events|))
    {
      var count := 0;
      ghost var o, q := Current(), commands.Contents();
      ghost var files := if next != null && next.target != null then next.target.queue else [];
      ghost var directs := if directToProcessing != null && directToProcessing.target != null
                           then directToProcessing.target.queue else [];
      for i := 0 to |rounds|
        invariant commands.buffer == old(commands.buffer)
        invariant Follows(o, q, files, directs, rounds, i, count)
      {
        count := Step(o, q, files, directs, rounds, i, count);
      }
      assert rounds[..|rounds|] == rounds;
    }
  }

  /** What an iteration sends, by whether it emits. */
  lemma AdvanceEffect(p: Progress, limit: nat, r: Round)
    ensures var p' := Advance(p, limit, r);
            var n := |p.events| + 1;
            if r.pause >= p'.settings.pauseUntil
            then |p'.events| == n && FileMessages(NewEvents(p, p')) == [File(NthFile(n, r.send))] && NewDirects(p, p') == [Direct(n)]
            else |p'.events| == |p.events| && FileMessages(NewEvents(p, p')) == [] && NewDirects(p, p') == []
  {
    var p' := Advance(p, limit, r);
    assert NewEvents(p, p') == if r.pause >= p'.settings.pauseUntil then [NthFile(|p.events| + 1, r.send)] else [];
  }

  lemma SimulateOneMore(o: Settings, q: seq<Command>, limit: nat, rounds: seq<Round>, i: nat)
    requires i < |rounds|
    ensures Simulate(o, q, limit, rounds[..i + 1]) == Advance(Simulate(o, q, limit, rounds[..i]), limit, rounds[i])
  {
    assert rounds[..i + 1][..i] == rounds[..i];
  }

  lemma FileMessagesAppend(events: seq<FileEvent>, more: seq<FileEvent>)
    ensures FileMessages(events + more) == FileMessages(events) + FileMessages(more)
  {
  }

  lemma AdvanceMessages(p: Progress, limit: nat, r: Round)
    ensures var p' := Advance(p, limit, r);
            && FileMessages(p'.events) == FileMessages(p.events) + FileMessages(NewEvents(p, p'))
            && DirectMessages(|p'.events|) == DirectMessages(|p.events|) + NewDirects(p, p')
  {
    var p' := Advance(p, limit, r);
    assert p'.events == p.events + NewEvents(p, p');
    FileMessagesAppend(p.events, NewEvents(p, p'));
  }

  /** The run as the loop computes it is the fold over the commands it pops. */
  lemma {:induction false} SimulationIsFold(o: Settings, q: seq<Command>, limit: nat, rounds: seq<Round>)
    ensures var cs := Commands(q, limit, rounds);
            Simulate(o, q, limit, rounds)
            == Progress(SettingsAfter(o, cs, rounds), BufferAfter(q, limit, rounds), Events(o, cs, rounds))
  {
    if rounds != [] {
      var n := |rounds| - 1;
      var cs := Commands(q, limit, rounds);
      SimulationIsFold(o, q, limit, rounds[..n]);
      assert cs[..n] == Commands(q, limit, rounds[..n]);
      assert cs[..n + 1] == cs && rounds[..n + 1] == rounds;
    }
  }
}
