/** The run loops of the four consuming threads as methods over their queues. While a thread waits,
    other threads may append to its inbox; what it does itself between two waits is the body of its
    loop. `Chain` interleaves the same bodies send by send. */
module ChainThreads {
  import opened Options
  import opened DataTypes
  import opened Sequences
  import opened Messaging
  import Chain
  import Observer
  import ObserverTimes

  /** One iteration: what arrived since the last wait, and the sleeps of the wait. */
  datatype Round = Round(arrivals: seq<Message>, wakes: seq<Wake<Message>>, now: int)

  function Puts(ms: seq<Message>): seq<Section<Message>> {
    if ms == [] then [] else [Put(ms[0])] + Puts(ms[1..])
  }

  lemma AfterOnePut(q: seq<Message>, m: Message, rest: seq<Section<Message>>)
    ensures After(q, [Put(m)] + rest) == After(q + [m], rest)
  {
    assert ([Put(m)] + rest)[1..] == rest;
  }

  lemma {:induction false} AfterPuts(q: seq<Message>, ms: seq<Message>)
    ensures After(q, Puts(ms)) == q + ms
    decreases |ms|
  {
    if ms == [] {
      assert q + ms == q;
    } else {
      AfterOnePut(q, ms[0], Puts(ms[1..]));
      AfterPuts(q + [ms[0]], ms[1..]);
      assert q + ms == (q + [ms[0]]) + ms[1..];
    }
  }

  /** The inbox after the rounds, and the messages popped in them. */
  function Left(q: seq<Message>, rounds: seq<Round>): seq<Message> {
    if rounds == [] then q
    else
      var n := |rounds| - 1;
      TimedAwait(Left(q, rounds[..n]) + rounds[n].arrivals, rounds[n].wakes).1
  }

  /** What round `i` popped, if its wait did not time out. */
  function PoppedIn(q: seq<Message>, rounds: seq<Round>, i: nat): Option<Message>
    requires i < |rounds|
  {
    TimedAwait(Left(q, rounds[..i]) + rounds[i].arrivals, rounds[i].wakes).0
  }

  // ---- What each loop body makes of a popped message ---------------------------------

  /** The mirror of a popped file event, after `sent` mirrors, and what is forwarded for it. */
  function MirrorOf(m: Option<Message>, sent: nat): seq<Message> {
    if m.Some? && m.value.File? then [Mirror(sent + 1, m.value.file.fileName)] else []
  }

  function ForwardOf(m: Option<Message>): seq<Message> {
    if m.Some? then AppResponse(m.value) else []
  }

  function Mirrors(q: seq<Message>, rounds: seq<Round>): seq<Message> {
    if rounds == [] then []
    else
      var n := |rounds| - 1;
      var before := Mirrors(q, rounds[..n]);
      before + MirrorOf(PoppedIn(q, rounds, n), |before|)
  }

  function Forwarded(respond: Message -> seq<Message>, q: seq<Message>, rounds: seq<Round>): seq<Message> {
    if rounds == [] then []
    else
      var n := |rounds| - 1;
      var m := PoppedIn(q, rounds, n);
      Forwarded(respond, q, rounds[..n]) + if m.Some? then respond(m.value) else []
  }

  function AppResponse(m: Message): seq<Message> {
    if m.File? then [App(AppOf(m.file))] else []
  }

  function ProcessingResponse(m: Message): seq<Message> {
    if m.App? then [Processed(ProcessedOf(m.app))] else []
  }

  function TransformationResponse(m: Message): seq<Message> {
    if m.Processed? then [Transformed(TransformedOf(m.processed))] else []
  }

  function Reports(q: seq<Message>, rounds: seq<Round>): seq<Chain.Report> {
    if rounds == [] then []
    else
      var n := |rounds| - 1;
      var m := PoppedIn(q, rounds, n);
      Reports(q, rounds[..n])
      + if m.Some? && m.value.Transformed? then [Chain.Report(m.value.transformed, rounds[n].now)] else []
  }

  ghost function Target(sender: Sender?<Message>): set<MessageQueue<Message>> {
    if sender != null && sender.target != null then {sender.target} else {}
  }

  /** The wait at the top of every loop. */
  method Receive(inbox: MessageQueue<Message>, r: Round) returns (m: Option<Message>)
    modifies inbox
    ensures (m, inbox.queue) == TimedAwait(old(inbox.queue) + r.arrivals, r.wakes)
  {
    inbox.Interfere(Puts(r.arrivals));
    AfterPuts(old(inbox.queue), r.arrivals);
    m := inbox.WaitFor(r.wakes);
  }

  method SendTo(sender: Sender?<Message>, m: Message)
    modifies Target(sender)
    ensures Observer.Sent(sender, [m])
  {
    if sender != null {
      sender.Send(m);
    }
  }

  // ---- The threads -------------------------------------------------------------------

  class ApplicationObserverThread {
    const inbox: MessageQueue<Message>
    const next: Sender?<Message>
    const mirror: Sender?<Message>

    constructor (next: Sender?<Message>, mirror: Sender?<Message>)
      ensures this.next == next && this.mirror == mirror && inbox.queue == [] && fresh(inbox)
    {
      this.next, this.mirror := next, mirror;
      inbox := new MessageQueue();
    }

    ghost predicate Separate() {
      inbox !in Target(next) && inbox !in Target(mirror) && Target(next) !! Target(mirror)
    }

    /** The body of the loop: mirrors first, then forwards. */
    method Handle(msg: Option<Message>, mirrorCounter: nat) returns (counter: nat)
      requires Separate()
      modifies Target(next), Target(mirror)
      ensures counter == (if mirror != null then mirrorCounter + |MirrorOf(msg, mirrorCounter)| else mirrorCounter)
      ensures mirror != null ==> Observer.Sent(mirror, MirrorOf(msg, mirrorCounter))
      ensures Observer.Sent(next, ForwardOf(msg))
    {
      counter := mirrorCounter;
      if msg.Some? && msg.value.File? {
        if mirror != null {
          counter := counter + 1;
          mirror.Send(Mirror(counter, msg.value.file.fileName));
        }
        SendTo(next, App(AppOf(msg.value.file)));
      }
    }

    /** The queues after the first `i` rounds of a run that found them as given. */
    ghost predicate Follows(q: seq<Message>, mirrors: seq<Message>, apps: seq<Message>,
                            rounds: seq<Round>, i: nat, mirrorCounter: nat)
      reads inbox, Target(next), Target(mirror)
    {
      && i <= |rounds| && inbox.queue == Left(q, rounds[..i])
      && (mirror != null ==> mirrorCounter == |Mirrors(q, rounds[..i])|)
      && (mirror != null && mirror.target != null ==> mirror.target.queue == mirrors + Mirrors(q, rounds[..i]))
      && (next != null && next.target != null ==> next.target.queue == apps + Forwarded(AppResponse, q, rounds[..i]))
    }

    method Step(ghost q: seq<Message>, ghost mirrors: seq<Message>, ghost apps: seq<Message>,
                rounds: seq<Round>, i: nat, mirrorCounter: nat) returns (counter: nat)
      requires Separate() && i < |rounds| && Follows(q, mirrors, apps, rounds, i, mirrorCounter)
      modifies inbox, Target(next), Target(mirror)
      ensures Follows(q, mirrors, apps, rounds, i + 1, counter)
    {
      ghost var sent, apps' := Mirrors(q, rounds[..i]), Forwarded(AppResponse, q, rounds[..i]);
      OneMoreRound(q, rounds, i);
      var msg := Receive(inbox, rounds[i]);
      assert mirror != null && mirror.target != null ==> mirror.target.queue == mirrors + sent;
      assert next != null && next.target != null ==> next.target.queue == apps + apps';
      counter := Handle(msg, mirrorCounter);
      Regrouped(mirrors, sent, MirrorOf(msg, |sent|));
      Regrouped(apps, apps', ForwardOf(msg));
    }

    /** Mirrors and forwards every file event popped; other messages are dropped. */
    method Run(rounds: seq<Round>)
      requires Separate()
      modifies inbox, Target(next), Target(mirror)
      ensures inbox.queue == Left(old(inbox.queue), rounds)
      ensures Observer.Sent(mirror, Mirrors(old(inbox.queue), rounds))
      ensures Observer.Sent(next, Forwarded(AppResponse, old(inbox.queue), rounds))
    {
      var mirrorCounter := 0;
      ghost var q := inbox.queue;
      ghost var mirrors := if mirror != null && mirror.target != null then mirror.target.queue else [];
      ghost var apps := if next != null && next.target != null then next.target.queue else [];
      for i := 0 to |rounds|
        invariant Follows(q, mirrors, apps, rounds, i, mirrorCounter)
      {
        mirrorCounter := Step(q, mirrors, apps, rounds, i, mirrorCounter);
      }
      assert rounds[..|rounds|] == rounds;
    }
  }

  /** The application observer's run functions on one round more. */
  lemma OneMoreRound(q: seq<Message>, rounds: seq<Round>, i: nat)
    requires i < |rounds|
    ensures var (m, rest) := TimedAwait(Left(q, rounds[..i]) + rounds[i].arrivals, rounds[i].wakes);
            var mirrors := Mirrors(q, rounds[..i]);
            && Left(q, rounds[..i + 1]) == rest
            && Mirrors(q, rounds[..i + 1]) == mirrors + MirrorOf(m, |mirrors|)
            && Forwarded(AppResponse, q, rounds[..i + 1]) == Forwarded(AppResponse, q, rounds[..i]) + ForwardOf(m)
  {
    assert rounds[..i + 1][..i] == rounds[..i];
  }

  class ProcessingThread {
    const inbox: MessageQueue<Message>
    const next: Sender?<Message>

    constructor (next: Sender?<Message>)
      ensures this.next == next && inbox.queue == [] && fresh(inbox)
    {
      this.next := next;
      inbox := new MessageQueue();
    }

    /** Direct events are consumed without output. */
    method Run(rounds: seq<Round>)
      requires inbox !in Target(next)
      modifies inbox, Target(next)
      ensures inbox.queue == Left(old(inbox.queue), rounds)
      ensures Observer.Sent(next, Forwarded(ProcessingResponse, old(inbox.queue), rounds))
    {
      ghost var q := inbox.queue;
      for i := 0 to |rounds|
        invariant inbox.queue == Left(q, rounds[..i])
        invariant Observer.Sent(next, Forwarded(ProcessingResponse, q, rounds[..i]))
      {
        assert rounds[..i + 1][..i] == rounds[..i];
        var msg := Receive(inbox, rounds[i]);
        if msg.Some? && msg.value.App? {
          SendTo(next, Processed(ProcessedOf(msg.value.app)));
        }
      }
      assert rounds[..|rounds|] == rounds;
    }
  }

  class TransformationThread {
    const inbox: MessageQueue<Message>
    const next: Sender?<Message>

    constructor (next: Sender?<Message>)
      ensures this.next == next && inbox.queue == [] && fresh(inbox)
    {
      this.next := next;
      inbox := new MessageQueue();
    }

    method Run(rounds: seq<Round>)
      requires inbox !in Target(next)
      modifies inbox, Target(next)
      ensures inbox.queue == Left(old(inbox.queue), rounds)
      ensures Observer.Sent(next, Forwarded(TransformationResponse, old(inbox.queue), rounds))
    {
      ghost var q := inbox.queue;
      for i := 0 to |rounds|
        invariant inbox.queue == Left(q, rounds[..i])
        invariant Observer.Sent(next, Forwarded(TransformationResponse, q, rounds[..i]))
      {
        assert rounds[..i + 1][..i] == rounds[..i];
        var msg := Receive(inbox, rounds[i]);
        if msg.Some? && msg.value.Processed? {
          SendTo(next, Transformed(TransformedOf(msg.value.processed)));
        }
      }
      assert rounds[..|rounds|] == rounds;
    }
  }

  class ResultThread {
    const inbox: MessageQueue<Message>

    constructor ()
      ensures inbox.queue == [] && fresh(inbox)
    {
      inbox := new MessageQueue();
    }

    /** `printed` is what the loop prints, with the clock at each reception. */
    method Run(rounds: seq<Round>) returns (printed: seq<Chain.Report>)
      modifies inbox
      ensures inbox.queue == Left(old(inbox.queue), rounds)
      ensures printed == Reports(old(inbox.queue), rounds)
    {
      printed := [];
      ghost var q := inbox.queue;
      for i := 0 to |rounds|
        invariant inbox.queue == Left(q, rounds[..i])
        invariant printed == Reports(q, rounds[..i])
      {
        assert rounds[..i + 1][..i] == rounds[..i];
        var msg := Receive(inbox, rounds[i]);
        if msg.Some? && msg.value.Transformed? {
          printed := printed + [Chain.Report(msg.value.transformed, rounds[i].now)];
        }
      }
      assert rounds[..|rounds|] == rounds;
    }
  }

  // ---- What a whole run keeps --------------------------------------------------------

  /** The messages put into the inbox during the sleeps of a wait, and those others take out of it. */
  function ArrivedInWait(q: seq<Message>, giveUp: bool, wakes: seq<Wake<Message>>): seq<Message>
    decreases |wakes|
  {
    if q != [] || giveUp || wakes == [] then []
    else PutsOf(wakes[0].sections) + ArrivedInWait(After([], wakes[0].sections), wakes[0].giveUp, wakes[1..])
  }

  function TakenInWait(q: seq<Message>, giveUp: bool, wakes: seq<Wake<Message>>): seq<Message>
    decreases |wakes|
  {
    if q != [] || giveUp || wakes == [] then []
    else TakenOf([], wakes[0].sections) + TakenInWait(After([], wakes[0].sections), wakes[0].giveUp, wakes[1..])
  }

  lemma {:induction false} AwaitConserves(q: seq<Message>, giveUp: bool, wakes: seq<Wake<Message>>)
    ensures var (o, rest) := Await(q, giveUp, wakes);
            q + ArrivedInWait(q, giveUp, wakes)
            == TakenInWait(q, giveUp, wakes) + ((if o.Got? then [o.m] else []) + rest)
    decreases |wakes|
  {
    if q == [] && !giveUp && wakes != [] {
      var sections, g', w' := wakes[0].sections, wakes[0].giveUp, wakes[1..];
      var q' := After([], sections);
      AwaitConserves(q', g', w');
      SectionsConserve([], sections);
      assert [] + PutsOf(sections) == PutsOf(sections);
      Regrouped(TakenOf([], sections), q', ArrivedInWait(q', g', w'));
      var (o, rest) := Await(q', g', w');
      Regrouped(TakenOf([], sections), TakenInWait(q', g', w'), (if o.Got? then [o.m] else []) + rest);
    }
  }

  function Popped(q: seq<Message>, rounds: seq<Round>): seq<Message> {
    if rounds == [] then []
    else
      var n := |rounds| - 1;
      var m := PoppedIn(q, rounds, n);
      Popped(q, rounds[..n]) + if m.Some? then [m.value] else []
  }

  /** The messages put into the inbox in a round, before its wait and during it, and those others take. */
  function ArrivedInRound(b: seq<Message>, r: Round): seq<Message> {
    r.arrivals + ArrivedInWait(b + r.arrivals, false, r.wakes + [Wake([], true)])
  }

  function TakenInRound(b: seq<Message>, r: Round): seq<Message> {
    TakenInWait(b + r.arrivals, false, r.wakes + [Wake([], true)])
  }

  function Arrived(q: seq<Message>, rounds: seq<Round>): seq<Message> {
    if rounds == [] then []
    else
      var n := |rounds| - 1;
      Arrived(q, rounds[..n]) + ArrivedInRound(Left(q, rounds[..n]), rounds[n])
  }

  /** Everything that has left the inbox, popped by the thread or taken by others. */
  function Gone(q: seq<Message>, rounds: seq<Round>): seq<Message> {
    if rounds == [] then []
    else
      var n := |rounds| - 1;
      var m := PoppedIn(q, rounds, n);
      Gone(q, rounds[..n]) + (TakenInRound(Left(q, rounds[..n]), rounds[n]) + if m.Some? then [m.value] else [])
  }

  lemma RoundConserves(b: seq<Message>, r: Round)
    ensures var (m, rest) := TimedAwait(b + r.arrivals, r.wakes);
            b + ArrivedInRound(b, r) == (TakenInRound(b, r) + if m.Some? then [m.value] else []) + rest
  {
    var wakes := r.wakes + [Wake([], true)];
    AwaitConserves(b + r.arrivals, false, wakes);
    Regrouped(b, r.arrivals, ArrivedInWait(b + r.arrivals, false, wakes));
    var (m, rest) := TimedAwait(b + r.arrivals, r.wakes);
    Regrouped(TakenInRound(b, r), if m.Some? then [m.value] else [], rest);
  }

  /** Every message that was in the inbox or was put into it is popped, taken by somebody else, or still
      there, in order. */
  lemma {:induction false} GoneThenLeftIsArrived(q: seq<Message>, rounds: seq<Round>)
    ensures Gone(q, rounds) + Left(q, rounds) == q + Arrived(q, rounds)
  {
    if rounds != [] {
      var n := |rounds| - 1;
      var b := Left(q, rounds[..n]);
      var m := PoppedIn(q, rounds, n);
      GoneThenLeftIsArrived(q, rounds[..n]);
      RoundConserves(b, rounds[n]);
      Rearrange(Gone(q, rounds[..n]), b, q, Arrived(q, rounds[..n]), ArrivedInRound(b, rounds[n]),
                              TakenInRound(b, rounds[n]) + (if m.Some? then [m.value] else []), Left(q, rounds));
    }
  }

  /** Other threads only put messages into this inbox: the thread is its one consumer. */
  predicate SoleConsumer(r: Round) {
    forall i, j :: 0 <= i < |r.wakes| && 0 <= j < |r.wakes[i].sections| ==> r.wakes[i].sections[j].Put?
  }

  predicate SoleConsumerRun(rounds: seq<Round>) {
    forall i :: 0 <= i < |rounds| ==> SoleConsumer(rounds[i])
  }

  lemma {:induction false} NothingTakenInWait(q: seq<Message>, giveUp: bool, wakes: seq<Wake<Message>>)
    requires forall i, j :: 0 <= i < |wakes| && 0 <= j < |wakes[i].sections| ==> wakes[i].sections[j].Put?
    ensures TakenInWait(q, giveUp, wakes) == []
    decreases |wakes|
  {
    if q == [] && !giveUp && wakes != [] {
      PutsTakeNothing([], wakes[0].sections);
      NothingTakenInWait(After([], wakes[0].sections), wakes[0].giveUp, wakes[1..]);
    }
  }

  lemma SoleConsumerConserves(b: seq<Message>, r: Round)
    requires SoleConsumer(r)
    ensures TakenInRound(b, r) == []
    ensures var (m, rest) := TimedAwait(b + r.arrivals, r.wakes);
            b + ArrivedInRound(b, r) == (if m.Some? then [m.value] else []) + rest
  {
    NothingTakenInWait(b + r.arrivals, false, r.wakes + [Wake([], true)]);
    RoundConserves(b, r);
  }

  lemma NothingTakenInRound(q: seq<Message>, rounds: seq<Round>)
    requires rounds != [] && SoleConsumer(rounds[|rounds| - 1])
    ensures var n := |rounds| - 1;
            Gone(q, rounds[..n]) == Popped(q, rounds[..n]) ==> Gone(q, rounds) == Popped(q, rounds)
  {
    var n := |rounds| - 1;
    SoleConsumerConserves(Left(q, rounds[..n]), rounds[n]);
    var m := PoppedIn(q, rounds, n);
    assert [] + (if m.Some? then [m.value] else []) == if m.Some? then [m.value] else [];
  }

  lemma {:induction false} SoleConsumerPopsAll(q: seq<Message>, rounds: seq<Round>)
    requires SoleConsumerRun(rounds)
    ensures Gone(q, rounds) == Popped(q, rounds)
  {
    if rounds != [] {
      SoleConsumerPopsAll(q, rounds[..|rounds| - 1]);
      NothingTakenInRound(q, rounds);
    }
  }

  /** With one consumer, as each inbox of the chain has: every message that was in the inbox or was put
      into it is popped by the thread or still there, in order. */
  lemma PoppedThenLeftIsArrived(q: seq<Message>, rounds: seq<Round>)
    requires SoleConsumerRun(rounds)
    ensures Popped(q, rounds) + Left(q, rounds) == q + Arrived(q, rounds)
  {
    GoneThenLeftIsArrived(q, rounds);
    SoleConsumerPopsAll(q, rounds);
  }

  lemma {:induction false} ForwardedFiles(respond: Message -> seq<Message>, q: seq<Message>, rounds: seq<Round>)
    requires forall m :: m in Popped(q, rounds) ==> Chain.Files(respond(m)) == Chain.FileIn(m)
    ensures Chain.Files(Forwarded(respond, q, rounds)) == Chain.Files(Popped(q, rounds))
  {
    if rounds != [] {
      var n := |rounds| - 1;
      var m := PoppedIn(q, rounds, n);
      var before, popped := Forwarded(respond, q, rounds[..n]), Popped(q, rounds[..n]);
      ForwardedFiles(respond, q, rounds[..n]);
      if m.Some? {
        assert m.value in Popped(q, rounds);
        Chain.FilesConcat(before, respond(m.value));
        Chain.FilesAppend(popped, m.value);
      } else {
        assert Forwarded(respond, q, rounds) == before && Popped(q, rounds) == popped;
      }
    }
  }

  /** A thread whose response to each message it pops carries that message's file, if any, passes on
      the files of everything it popped, in order; with what is left they are all that ever arrived. */
  lemma StagePassesFilesOn(respond: Message -> seq<Message>, q: seq<Message>, rounds: seq<Round>)
    requires SoleConsumerRun(rounds)
    requires forall m :: m in Popped(q, rounds) ==> Chain.Files(respond(m)) == Chain.FileIn(m)
    ensures Chain.Files(Forwarded(respond, q, rounds)) + Chain.Files(Left(q, rounds))
         == Chain.Files(q + Arrived(q, rounds))
  {
    ForwardedFiles(respond, q, rounds);
    PoppedThenLeftIsArrived(q, rounds);
    Chain.FilesConcat(Popped(q, rounds), Left(q, rounds));
  }

  // ---- A consuming thread's whole run as steps of the chain --------------------------

  /** What happens to one thread of the chain: its own steps, and messages put into its inbox. */
  datatype Event = Own(step: Chain.Step) | Arrival(m: Message)

  function Deliver(s: Chain.State, who: Chain.Who, ms: seq<Message>): Chain.State {
    match who
    case OI => s.(oiBox := s.oiBox + ms)
    case AO => s.(aoBox := s.aoBox + ms)
    case PT => s.(ptBox := s.ptBox + ms, ptLog := s.ptLog + ms)
    case TT => s.(ttBox := s.ttBox + ms)
    case RT => s.(rtBox := s.rtBox + ms)
  }

  ghost predicate EventAt(who: Chain.Who, states: seq<Chain.State>, events: seq<Event>, i: nat)
    requires i < |events| && |states| == |events| + 1
  {
    match events[i]
    case Own(step) =>
      Chain.Owns(who, step) && Chain.Enabled(states[i], step) && states[i + 1] == Chain.Apply(states[i], step)
    case Arrival(m) => states[i + 1] == Deliver(states[i], who, [m])
  }

  /** Every own step is enabled in the chain where it is taken. */
  ghost predicate IsPath(who: Chain.Who, states: seq<Chain.State>, events: seq<Event>) {
    && |states| == |events| + 1
    && forall i: nat :: i < |events| ==> EventAt(who, states, events, i)
  }

  /** The messages that arrive on the way. */
  function Arrivals(events: seq<Event>): seq<Message> {
    if events == [] then []
    else
      var n := |events| - 1;
      Arrivals(events[..n]) + if events[n].Arrival? then [events[n].m] else []
  }

  lemma {:induction false} ArrivalsConcat(a: seq<Event>, b: seq<Event>)
    ensures Arrivals(a + b) == Arrivals(a) + Arrivals(b)
    decreases |b|
  {
    if b == [] {
      assert a + b == a;
    } else {
      var n := |b| - 1;
      ArrivalsConcat(a, b[..n]);
      assert (a + b)[..|a| + n] == a + b[..n];
    }
  }

  /** A path of the thread from `s` to `s'` on which the messages `ms` arrive. */
  ghost predicate Leads(who: Chain.Who, s: Chain.State, s': Chain.State, ms: seq<Message>,
                        states: seq<Chain.State>, events: seq<Event>) {
    IsPath(who, states, events) && states[0] == s && states[|events|] == s' && Arrivals(events) == ms
  }

  lemma LeadsOn(who: Chain.Who, s: Chain.State, s1: Chain.State, s2: Chain.State, ms: seq<Message>, ms': seq<Message>,
                a: seq<Chain.State>, ea: seq<Event>, b: seq<Chain.State>, eb: seq<Event>)
    requires Leads(who, s, s1, ms, a, ea) && Leads(who, s1, s2, ms', b, eb)
    ensures Leads(who, s, s2, ms + ms', a + b[1..], ea + eb)
  {
    var states, events := a + b[1..], ea + eb;
    forall i: nat | i < |events|
      ensures EventAt(who, states, events, i)
    {
      if i < |ea| {
        assert EventAt(who, a, ea, i);
      } else {
        assert EventAt(who, b, eb, i - |ea|);
      }
    }
    ArrivalsConcat(ea, eb);
  }

  /** One own step. */
  lemma OwnStepLeads(who: Chain.Who, s: Chain.State, step: Chain.Step)
    requires Chain.Owns(who, step) && Chain.Enabled(s, step)
    ensures Leads(who, s, Chain.Apply(s, step), [], [s, Chain.Apply(s, step)], [Own(step)])
  {
    var states, events := [s, Chain.Apply(s, step)], [Own(step)];
    assert EventAt(who, states, events, 0);
    assert events[..0] == [];
  }

  lemma {:induction false} ArrivalsLead(who: Chain.Who, s: Chain.State, ms: seq<Message>)
    returns (states: seq<Chain.State>, events: seq<Event>)
    ensures Leads(who, s, Deliver(s, who, ms), ms, states, events)
  {
    if ms == [] {
      states, events := [s], [];
      assert Deliver(s, who, ms) == s;
    } else {
      var n := |ms| - 1;
      var m := ms[n];
      var s1 := Deliver(s, who, ms[..n]);
      var s2 := Deliver(s1, who, [m]);
      states, events := ArrivalsLead(who, s, ms[..n]);
      assert EventAt(who, [s1, s2], [Arrival(m)], 0);
      assert [Arrival(m)][..0] == [];
      LeadsOn(who, s, s1, s2, ms[..n], [m], states, events, [s1, s2], [Arrival(m)]);
      states, events := states + [s1, s2][1..], events + [Arrival(m)];
      DeliverConcat(s, who, ms[..n], [m]);
      assert ms[..n] + [m] == ms;
    }
  }

  lemma DeliverConcat(s: Chain.State, who: Chain.Who, a: seq<Message>, b: seq<Message>)
    ensures Deliver(Deliver(s, who, a), who, b) == Deliver(s, who, a + b)
  {
    var box := match who case OI => s.oiBox case AO => s.aoBox case PT => s.ptBox case TT => s.ttBox case RT => s.rtBox;
    Regrouped(box, a, b);
    Regrouped(s.ptLog, a, b);
  }

  /** An own step after a path. */
  lemma ThenStep(who: Chain.Who, s: Chain.State, s1: Chain.State, ms: seq<Message>, step: Chain.Step,
                 states: seq<Chain.State>, events: seq<Event>)
    returns (states': seq<Chain.State>, events': seq<Event>)
    requires Leads(who, s, s1, ms, states, events) && Chain.Owns(who, step) && Chain.Enabled(s1, step)
    ensures Leads(who, s, Chain.Apply(s1, step), ms, states', events')
  {
    OwnStepLeads(who, s1, step);
    LeadsOn(who, s, s1, Chain.Apply(s1, step), ms, [], states, events, [s1, Chain.Apply(s1, step)], [Own(step)]);
    states', events' := states + [s1, Chain.Apply(s1, step)][1..], events + [Own(step)];
    assert ms + [] == ms;
  }

  /** The chain after a run of the application observer alone. */
  function AppObserverRan(s: Chain.State, rounds: seq<Round>): Chain.State {
    s.(aoBox := Left(s.aoBox, rounds),
       ao := Chain.AoTop(|Mirrors(s.aoBox, rounds)|),
       oiBox := s.oiBox + Mirrors(s.aoBox, rounds),
       ptBox := s.ptBox + Forwarded(AppResponse, s.aoBox, rounds),
       ptLog := s.ptLog + Forwarded(AppResponse, s.aoBox, rounds))
  }

  /** One iteration of the application observer: arrivals, and then nothing if the wait timed out, the
      pop alone if the message is dropped, or the pop and both sends. */
  function AppObserverIterated(s: Chain.State, r: Round): Chain.State
    requires s.ao.AoTop?
  {
    var (m, rest) := TimedAwait(s.aoBox + r.arrivals, r.wakes);
    if m.Some? && m.value.File? then
      s.(aoBox := rest, ao := Chain.AoTop(s.ao.mirrors + 1),
         oiBox := s.oiBox + [Mirror(s.ao.mirrors + 1, m.value.file.fileName)],
         ptBox := s.ptBox + AppResponse(m.value), ptLog := s.ptLog + AppResponse(m.value))
    else s.(aoBox := rest)
  }

  lemma AppObserverRound(s: Chain.State, r: Round) returns (states: seq<Chain.State>, events: seq<Event>)
    requires s.ao.AoTop? && SoleConsumer(r)
    ensures Leads(Chain.AO, s, AppObserverIterated(s, r), ArrivedInRound(s.aoBox, r), states, events)
  {
    var ms := ArrivedInRound(s.aoBox, r);
    var (m, rest) := TimedAwait(s.aoBox + r.arrivals, r.wakes);
    SoleConsumerConserves(s.aoBox, r);
    var s1 := Deliver(s, Chain.AO, ms);
    states, events := ArrivalsLead(Chain.AO, s, ms);
    if m.Some? {
      var s2 := Chain.Apply(s1, Chain.AoPop);
      assert s1.aoBox[0] == m.value && s2.aoBox == rest;
      states, events := ThenStep(Chain.AO, s, s1, ms, Chain.AoPop, states, events);
      if m.value.File? {
        var s3 := Chain.Apply(s2, Chain.AoSendMirror);
        states, events := ThenStep(Chain.AO, s, s2, ms, Chain.AoSendMirror, states, events);
        states, events := ThenStep(Chain.AO, s, s3, ms, Chain.AoSendApp, states, events);
      }
    } else {
      assert s1.aoBox == rest;
    }
  }

  lemma AppObserverFields(s: Chain.State, s1: Chain.State, r: Round, mirrors: seq<Message>, apps: seq<Message>)
    requires s1 == s.(aoBox := s1.aoBox, ao := Chain.AoTop(|mirrors|), oiBox := s.oiBox + mirrors,
                      ptBox := s.ptBox + apps, ptLog := s.ptLog + apps)
    ensures var (m, rest) := TimedAwait(s1.aoBox + r.arrivals, r.wakes);
            var mirrors' := mirrors + if m.Some? && m.value.File? then [Mirror(|mirrors| + 1, m.value.file.fileName)] else [];
            var apps' := apps + if m.Some? then AppResponse(m.value) else [];
            AppObserverIterated(s1, r)
            == s.(aoBox := rest, ao := Chain.AoTop(|mirrors'|), oiBox := s.oiBox + mirrors',
                  ptBox := s.ptBox + apps', ptLog := s.ptLog + apps')
  {
    var (m, rest) := TimedAwait(s1.aoBox + r.arrivals, r.wakes);
    if m.Some? && m.value.File? {
      Regrouped(s.oiBox, mirrors, [Mirror(|mirrors| + 1, m.value.file.fileName)]);
      Regrouped(s.ptBox, apps, AppResponse(m.value));
      Regrouped(s.ptLog, apps, AppResponse(m.value));
    } else {
      assert mirrors + [] == mirrors && apps + [] == apps;
    }
  }

  lemma AppObserverOneMore(s: Chain.State, rounds: seq<Round>)
    requires rounds != []
    ensures var n := |rounds| - 1;
            AppObserverRan(s, rounds) == AppObserverIterated(AppObserverRan(s, rounds[..n]), rounds[n])
  {
    var n := |rounds| - 1;
    OneMoreRound(s.aoBox, rounds, n);
    assert rounds[..n + 1] == rounds;
    AppObserverFields(s, AppObserverRan(s, rounds[..n]), rounds[n],
                      Mirrors(s.aoBox, rounds[..n]), Forwarded(AppResponse, s.aoBox, rounds[..n]));
  }

  /** A whole run of the application observer, over any rounds, is a path of enabled steps of the chain:
      what arrives on it is what was put into the inbox, and it ends with the inbox, the mirrors and the
      forwarded events of `Run`. */
  lemma {:induction false} AppObserverRunInChain(s: Chain.State, rounds: seq<Round>)
    returns (states: seq<Chain.State>, events: seq<Event>)
    requires s.ao == Chain.AoTop(0) && SoleConsumerRun(rounds)
    ensures Leads(Chain.AO, s, AppObserverRan(s, rounds), Arrived(s.aoBox, rounds), states, events)
  {
    if rounds == [] {
      states, events := [s], [];
      assert AppObserverRan(s, rounds) == s;
    } else {
      var n := |rounds| - 1;
      var s1 := AppObserverRan(s, rounds[..n]);
      var a, ea := AppObserverRunInChain(s, rounds[..n]);
      var b, eb := AppObserverRound(s1, rounds[n]);
      AppObserverOneMore(s, rounds);
      LeadsOn(Chain.AO, s, s1, AppObserverRan(s, rounds), Arrived(s.aoBox, rounds[..n]),
              ArrivedInRound(s1.aoBox, rounds[n]), a, ea, b, eb);
      states, events := a + b[1..], ea + eb;
    }
  }

  /** The same for the processing thread. What arrives is logged as pushed. */
  function ProcessingRan(s: Chain.State, rounds: seq<Round>): Chain.State {
    s.(ptBox := Left(s.ptBox, rounds),
       ptLog := s.ptLog + Arrived(s.ptBox, rounds),
       ttBox := s.ttBox + Forwarded(ProcessingResponse, s.ptBox, rounds))
  }

  lemma ProcessingRound(s: Chain.State, r: Round) returns (states: seq<Chain.State>, events: seq<Event>)
    requires s.pt.PtTop? && SoleConsumer(r)
    ensures var (m, rest) := TimedAwait(s.ptBox + r.arrivals, r.wakes);
            var ms := ArrivedInRound(s.ptBox, r);
            Leads(Chain.PT, s, s.(ptBox := rest, ptLog := s.ptLog + ms,
                                  ttBox := s.ttBox + if m.Some? then ProcessingResponse(m.value) else []),
                  ms, states, events)
  {
    var ms := ArrivedInRound(s.ptBox, r);
    var (m, rest) := TimedAwait(s.ptBox + r.arrivals, r.wakes);
    SoleConsumerConserves(s.ptBox, r);
    var s1 := Deliver(s, Chain.PT, ms);
    states, events := ArrivalsLead(Chain.PT, s, ms);
    if m.Some? {
      var s2 := Chain.Apply(s1, Chain.PtPop);
      assert s1.ptBox[0] == m.value && s2.ptBox == rest;
      states, events := ThenStep(Chain.PT, s, s1, ms, Chain.PtPop, states, events);
      if m.value.App? {
        states, events := ThenStep(Chain.PT, s, s2, ms, Chain.PtSendProcessed, states, events);
      }
    } else {
      assert s1.ptBox == rest;
    }
  }

  lemma {:induction false} ProcessingRunInChain(s: Chain.State, rounds: seq<Round>)
    returns (states: seq<Chain.State>, events: seq<Event>)
    requires s.pt.PtTop? && SoleConsumerRun(rounds)
    ensures Leads(Chain.PT, s, ProcessingRan(s, rounds), Arrived(s.ptBox, rounds), states, events)
  {
    if rounds == [] {
      states, events := [s], [];
      assert ProcessingRan(s, rounds) == s;
    } else {
      var n := |rounds| - 1;
      var s1 := ProcessingRan(s, rounds[..n]);
      var m := PoppedIn(s.ptBox, rounds, n);
      var ms := ArrivedInRound(s1.ptBox, rounds[n]);
      var a, ea := ProcessingRunInChain(s, rounds[..n]);
      var b, eb := ProcessingRound(s1, rounds[n]);
      Regrouped(s.ttBox, Forwarded(ProcessingResponse, s.ptBox, rounds[..n]),
                      if m.Some? then ProcessingResponse(m.value) else []);
      Regrouped(s.ptLog, Arrived(s.ptBox, rounds[..n]), ms);
      LeadsOn(Chain.PT, s, s1, ProcessingRan(s, rounds), Arrived(s.ptBox, rounds[..n]), ms, a, ea, b, eb);
      states, events := a + b[1..], ea + eb;
    }
  }

  /** And for the transformation thread. */
  function TransformationRan(s: Chain.State, rounds: seq<Round>): Chain.State {
    s.(ttBox := Left(s.ttBox, rounds),
       rtBox := s.rtBox + Forwarded(TransformationResponse, s.ttBox, rounds))
  }

  lemma TransformationRound(s: Chain.State, r: Round) returns (states: seq<Chain.State>, events: seq<Event>)
    requires s.tt.TtTop? && SoleConsumer(r)
    ensures var (m, rest) := TimedAwait(s.ttBox + r.arrivals, r.wakes);
            Leads(Chain.TT, s, s.(ttBox := rest,
                                  rtBox := s.rtBox + if m.Some? then TransformationResponse(m.value) else []),
                  ArrivedInRound(s.ttBox, r), states, events)
  {
    var ms := ArrivedInRound(s.ttBox, r);
    var (m, rest) := TimedAwait(s.ttBox + r.arrivals, r.wakes);
    SoleConsumerConserves(s.ttBox, r);
    var s1 := Deliver(s, Chain.TT, ms);
    states, events := ArrivalsLead(Chain.TT, s, ms);
    if m.Some? {
      var s2 := Chain.Apply(s1, Chain.TtPop);
      assert s1.ttBox[0] == m.value && s2.ttBox == rest;
      states, events := ThenStep(Chain.TT, s, s1, ms, Chain.TtPop, states, events);
      if m.value.Processed? {
        states, events := ThenStep(Chain.TT, s, s2, ms, Chain.TtSendTransformed, states, events);
      }
    } else {
      assert s1.ttBox == rest;
    }
  }

  lemma {:induction false} TransformationRunInChain(s: Chain.State, rounds: seq<Round>)
    returns (states: seq<Chain.State>, events: seq<Event>)
    requires s.tt.TtTop? && SoleConsumerRun(rounds)
    ensures Leads(Chain.TT, s, TransformationRan(s, rounds), Arrived(s.ttBox, rounds), states, events)
  {
    if rounds == [] {
      states, events := [s], [];
      assert TransformationRan(s, rounds) == s;
    } else {
      var n := |rounds| - 1;
      var s1 := TransformationRan(s, rounds[..n]);
      var m := PoppedIn(s.ttBox, rounds, n);
      var a, ea := TransformationRunInChain(s, rounds[..n]);
      var b, eb := TransformationRound(s1, rounds[n]);
      Regrouped(s.rtBox, Forwarded(TransformationResponse, s.ttBox, rounds[..n]),
                      if m.Some? then TransformationResponse(m.value) else []);
      LeadsOn(Chain.TT, s, s1, TransformationRan(s, rounds), Arrived(s.ttBox, rounds[..n]),
              ArrivedInRound(s1.ttBox, rounds[n]), a, ea, b, eb);
      states, events := a + b[1..], ea + eb;
    }
  }

  /** And for the result thread, whose clock readings never go back. */
  function ResultClock(clock: int, q: seq<Message>, rounds: seq<Round>): int {
    if rounds == [] then clock
    else
      var n := |rounds| - 1;
      var m := PoppedIn(q, rounds, n);
      if m.Some? && m.value.Transformed? then rounds[n].now else ResultClock(clock, q, rounds[..n])
  }

  predicate Clocked(clock: int, rounds: seq<Round>) {
    && (forall k :: 0 <= k < |rounds| ==> clock <= rounds[k].now)
    && (forall k, l :: 0 <= k < l < |rounds| ==> rounds[k].now <= rounds[l].now)
  }

  lemma {:induction false} ResultClockBefore(clock: int, q: seq<Message>, rounds: seq<Round>, t: int)
    requires clock <= t && forall k :: 0 <= k < |rounds| ==> rounds[k].now <= t
    ensures ResultClock(clock, q, rounds) <= t
  {
    if rounds != [] {
      ResultClockBefore(clock, q, rounds[..|rounds| - 1], t);
    }
  }

  function ResultRan(s: Chain.State, rounds: seq<Round>): Chain.State {
    s.(rtBox := Left(s.rtBox, rounds),
       clock := ResultClock(s.clock, s.rtBox, rounds),
       reports := s.reports + Reports(s.rtBox, rounds))
  }

  lemma ResultRound(s: Chain.State, r: Round) returns (states: seq<Chain.State>, events: seq<Event>)
    requires s.rt.RtTop? && SoleConsumer(r) && s.clock <= r.now
    ensures var (m, rest) := TimedAwait(s.rtBox + r.arrivals, r.wakes);
            var shown := m.Some? && m.value.Transformed?;
            Leads(Chain.RT, s, s.(rtBox := rest, clock := if shown then r.now else s.clock,
                                  reports := s.reports + if shown then [Chain.Report(m.value.transformed, r.now)] else []),
                  ArrivedInRound(s.rtBox, r), states, events)
  {
    var ms := ArrivedInRound(s.rtBox, r);
    var (m, rest) := TimedAwait(s.rtBox + r.arrivals, r.wakes);
    SoleConsumerConserves(s.rtBox, r);
    var s1 := Deliver(s, Chain.RT, ms);
    states, events := ArrivalsLead(Chain.RT, s, ms);
    if m.Some? {
      var s2 := Chain.Apply(s1, Chain.RtPop);
      assert s1.rtBox[0] == m.value && s2.rtBox == rest;
      states, events := ThenStep(Chain.RT, s, s1, ms, Chain.RtPop, states, events);
      if m.value.Transformed? {
        states, events := ThenStep(Chain.RT, s, s2, ms, Chain.RtReport(r.now), states, events);
      }
    } else {
      assert s1.rtBox == rest;
    }
  }

  lemma {:induction false} ResultRunInChain(s: Chain.State, rounds: seq<Round>)
    returns (states: seq<Chain.State>, events: seq<Event>)
    requires s.rt.RtTop? && Clocked(s.clock, rounds)
    requires SoleConsumerRun(rounds)
    ensures Leads(Chain.RT, s, ResultRan(s, rounds), Arrived(s.rtBox, rounds), states, events)
  {
    if rounds == [] {
      states, events := [s], [];
      assert ResultRan(s, rounds) == s;
    } else {
      var n := |rounds| - 1;
      var s1 := ResultRan(s, rounds[..n]);
      var m := PoppedIn(s.rtBox, rounds, n);
      var a, ea := ResultRunInChain(s, rounds[..n]);
      ResultClockBefore(s.clock, s.rtBox, rounds[..n], rounds[n].now);
      var b, eb := ResultRound(s1, rounds[n]);
      Regrouped(s.reports, Reports(s.rtBox, rounds[..n]),
                      if m.Some? && m.value.Transformed? then [Chain.Report(m.value.transformed, rounds[n].now)] else []);
      LeadsOn(Chain.RT, s, s1, ResultRan(s, rounds), Arrived(s.rtBox, rounds[..n]),
              ArrivedInRound(s1.rtBox, rounds[n]), a, ea, b, eb);
      states, events := a + b[1..], ea + eb;
    }
  }

  // ---- The observer's whole run as steps of the chain --------------------------------

  /** The chain after the observer alone has sent the first `n` events of a run. */
  function Fed(s: Chain.State, es: seq<FileEvent>, n: nat): Chain.State
    requires n <= |es|
  {
    s.(oi := Chain.OiTop(n),
       aoBox := s.aoBox + Observer.FileMessages(es[..n]),
       ptBox := s.ptBox + Observer.DirectMessages(n),
       ptLog := s.ptLog + Observer.DirectMessages(n),
       sent := s.sent + es[..n],
       clock := if n == 0 then s.clock else es[n - 1].sendTime)
  }

  /** One event: its stamp, the file and the direct event. */
  lemma FeedOneMore(s: Chain.State, es: seq<FileEvent>, n: nat, last: int)
    returns (states: seq<Chain.State>, events: seq<Event>)
    requires n < |es| && ObserverTimes.NumberedUpTo(es, last) && es[0].sendTime >= s.clock
    ensures Leads(Chain.OI, Fed(s, es, n), Fed(s, es, n + 1), [], states, events)
  {
    var s0 := Fed(s, es, n);
    var s1 := Chain.Apply(s0, Chain.OiStamp(es[n].sendTime));
    var s2 := Chain.Apply(s1, Chain.OiSendFile);
    states, events := [s0], [];
    states, events := ThenStep(Chain.OI, s0, s0, [], Chain.OiStamp(es[n].sendTime), states, events);
    states, events := ThenStep(Chain.OI, s0, s1, [], Chain.OiSendFile, states, events);
    states, events := ThenStep(Chain.OI, s0, s2, [], Chain.OiSendDirect, states, events);
    FedNext(s, es, n);
  }

  lemma FedNext(s: Chain.State, es: seq<FileEvent>, n: nat)
    requires n < |es| && es[n] == NthFile(n + 1, es[n].sendTime)
    requires Chain.Enabled(Fed(s, es, n), Chain.OiStamp(es[n].sendTime))
    ensures var s1 := Chain.Apply(Fed(s, es, n), Chain.OiStamp(es[n].sendTime));
            Chain.Apply(Chain.Apply(s1, Chain.OiSendFile), Chain.OiSendDirect) == Fed(s, es, n + 1)
  {
    assert es[..n + 1] == es[..n] + [es[n]];
    Observer.FileMessagesAppend(es[..n], [es[n]]);
    assert Observer.FileMessages([es[n]]) == [File(es[n])];
    assert Observer.DirectMessages(n + 1) == Observer.DirectMessages(n) + [Direct(n + 1)];
    Regrouped(s.aoBox, Observer.FileMessages(es[..n]), [File(es[n])]);
    Regrouped(s.ptBox, Observer.DirectMessages(n), [Direct(n + 1)]);
    Regrouped(s.ptLog, Observer.DirectMessages(n), [Direct(n + 1)]);
    Regrouped(s.sent, es[..n], [es[n]]);
  }

  lemma {:induction false} FeedUpTo(s: Chain.State, es: seq<FileEvent>, n: nat, last: int)
    returns (states: seq<Chain.State>, events: seq<Event>)
    requires s.oi == Chain.OiTop(0) && n <= |es| && ObserverTimes.NumberedUpTo(es, last)
    requires es != [] ==> es[0].sendTime >= s.clock
    ensures Leads(Chain.OI, s, Fed(s, es, n), [], states, events)
  {
    if n == 0 {
      states, events := [s], [];
      assert Fed(s, es, 0) == s;
    } else {
      var a, ea := FeedUpTo(s, es, n - 1, last);
      var b, eb := FeedOneMore(s, es, n - 1, last);
      LeadsOn(Chain.OI, s, Fed(s, es, n - 1), Fed(s, es, n), [], [], a, ea, b, eb);
      states, events := a + b[1..], ea + eb;
    }
  }

  /** A whole run of the observer, whatever commands come and whenever, is a path of enabled steps of the
      chain, ending with the two inboxes grown by exactly what `Run` sends. Its own inbox, which it never
      looks at, plays no part. */
  lemma ObserverRunInChain(s: Chain.State, o: Observer.Settings, cs: seq<Option<Command>>, rounds: seq<Observer.Round>)
    returns (states: seq<Chain.State>, events: seq<Event>)
    requires s.oi == Chain.OiTop(0)
    requires |cs| == |rounds| && ObserverTimes.Timed(o, cs, rounds)
    requires forall k :: 0 <= k < |rounds| ==> rounds[k].send >= s.clock
    ensures var es := Observer.Events(o, cs, rounds);
            var s' := s.(oi := Chain.OiTop(|es|),
                         aoBox := s.aoBox + Observer.FileMessages(es), sent := s.sent + es,
                         ptBox := s.ptBox + Observer.DirectMessages(|es|), ptLog := s.ptLog + Observer.DirectMessages(|es|),
                         clock := if es == [] then s.clock else es[|es| - 1].sendTime);
            Leads(Chain.OI, s, s', [], states, events)
  {
    var es := Observer.Events(o, cs, rounds);
    assert es[..|es|] == es;
    if rounds == [] {
      states, events := FeedUpTo(s, es, 0, s.clock);
    } else {
      ObserverTimes.EventsAreNumberedAndOrdered(o, cs, rounds);
      StampsFrom(o, cs, rounds, s.clock);
      states, events := FeedUpTo(s, es, |es|, rounds[|rounds| - 1].send);
    }
  }

  lemma {:induction false} StampsFrom(o: Observer.Settings, cs: seq<Option<Command>>, rounds: seq<Observer.Round>, t: int)
    requires |cs| == |rounds| && forall k :: 0 <= k < |rounds| ==> rounds[k].send >= t
    ensures forall k :: 0 <= k < |Observer.Events(o, cs, rounds)| ==> Observer.Events(o, cs, rounds)[k].sendTime >= t
  {
    if rounds != [] {
      StampsFrom(o, cs[..|rounds| - 1], rounds[..|rounds| - 1], t);
    }
  }
}
