/** The five threads of the message chain, run in any interleaving, with any number of stops and
    restarts. A thread stops only where its loop tests the token; its inbox survives, its local
    counters start again. Every `Send` is a step of its own. */
module Chain {
  import opened DataTypes
  import opened Sequences

  datatype ObserverPc = OiStopped | OiTop(count: nat) | OiFile(count: nat, stamp: int) | OiDirect(count: nat)
  datatype AppObserverPc = AoStopped | AoTop(mirrors: nat) | AoMirror(mirrors: nat, file: FileEvent) | AoApp(mirrors: nat, file: FileEvent)
  datatype ProcessingPc = PtStopped | PtTop | PtSend(app: AppEvent)
  datatype TransformationPc = TtStopped | TtTop | TtSend(processed: ProcessedData)
  datatype ResultPc = RtStopped | RtTop | RtPrint(transformed: TransformedData)

  /** What the result thread prints: the data and the clock when it was received. */
  datatype Report = Report(data: TransformedData, received: int)

  datatype State = State(
    oi: ObserverPc, ao: AppObserverPc, pt: ProcessingPc, tt: TransformationPc, rt: ResultPc,
    oiBox: seq<Message>, aoBox: seq<Message>, ptBox: seq<Message>, ttBox: seq<Message>, rtBox: seq<Message>,
    clock: int,
    sent: seq<FileEvent>,      // every file event the observer ever sent
    ptLog: seq<Message>,       // every message ever pushed into the processing inbox
    reports: seq<Report>)      // everything the result thread printed

  datatype Who = OI | AO | PT | TT | RT

  datatype Step =
    | Start(who: Who)
    | Exit(who: Who)
    | OiStamp(now: int)
    | OiSendFile
    | OiSendDirect
    | AoPop | AoSendMirror | AoSendApp
    | PtPop | PtSendProcessed
    | TtPop | TtSendTransformed
    | RtPop | RtReport(now: int)

  function Init(): State {
    State(OiStopped, AoStopped, PtStopped, TtStopped, RtStopped, [], [], [], [], [], 0, [], [], [])
  }

  predicate Enabled(s: State, step: Step) {
    match step
    case Start(OI) => s.oi.OiStopped?
    case Start(AO) => s.ao.AoStopped?
    case Start(PT) => s.pt.PtStopped?
    case Start(TT) => s.tt.TtStopped?
    case Start(RT) => s.rt.RtStopped?
    case Exit(OI) => s.oi.OiTop?
    case Exit(AO) => s.ao.AoTop?
    case Exit(PT) => s.pt.PtTop?
    case Exit(TT) => s.tt.TtTop?
    case Exit(RT) => s.rt.RtTop?
    case OiStamp(now) => s.oi.OiTop? && now >= s.clock
    case OiSendFile => s.oi.OiFile?
    case OiSendDirect => s.oi.OiDirect?
    case AoPop => s.ao.AoTop? && s.aoBox != []
    case AoSendMirror => s.ao.AoMirror?
    case AoSendApp => s.ao.AoApp?
    case PtPop => s.pt.PtTop? && s.ptBox != []
    case PtSendProcessed => s.pt.PtSend?
    case TtPop => s.tt.TtTop? && s.ttBox != []
    case TtSendTransformed => s.tt.TtSend?
    case RtPop => s.rt.RtTop? && s.rtBox != []
    case RtReport(now) => s.rt.RtPrint? && now >= s.clock
  }

  predicate IsLifecycle(step: Step) { step.Start? || step.Exit? }
  predicate IsOi(step: Step) { step.OiStamp? || step.OiSendFile? || step.OiSendDirect? }
  predicate IsAo(step: Step) { step.AoPop? || step.AoSendMirror? || step.AoSendApp? }
  predicate IsPt(step: Step) { step.PtPop? || step.PtSendProcessed? }
  predicate IsTt(step: Step) { step.TtPop? || step.TtSendTransformed? }
  predicate IsRt(step: Step) { step.RtPop? || step.RtReport? }

  function Apply(s: State, step: Step): State
    requires Enabled(s, step)
  {
    if IsLifecycle(step) then ApplyLifecycle(s, step)
    else if IsOi(step) then ApplyOi(s, step)
    else if IsAo(step) then ApplyAo(s, step)
    else if IsPt(step) then ApplyPt(s, step)
    else if IsTt(step) then ApplyTt(s, step)
    else ApplyRt(s, step)
  }

  function ApplyLifecycle(s: State, step: Step): State
    requires IsLifecycle(step) && Enabled(s, step)
  {
    match step
    case Start(OI) => s.(oi := OiTop(0))
    case Start(AO) => s.(ao := AoTop(0))
    case Start(PT) => s.(pt := PtTop)
    case Start(TT) => s.(tt := TtTop)
    case Start(RT) => s.(rt := RtTop)
    case Exit(OI) => s.(oi := OiStopped)
    case Exit(AO) => s.(ao := AoStopped)
    case Exit(PT) => s.(pt := PtStopped)
    case Exit(TT) => s.(tt := TtStopped)
    case Exit(RT) => s.(rt := RtStopped)
  }

  function ApplyOi(s: State, step: Step): State
    requires IsOi(step) && Enabled(s, step)
  {
    match step
    case OiStamp(now) => s.(oi := OiFile(s.oi.count + 1, now), clock := now)
    case OiSendFile =>
      var event := NthFile(s.oi.count, s.oi.stamp);
      s.(oi := OiDirect(s.oi.count), aoBox := s.aoBox + [File(event)], sent := s.sent + [event])
    case OiSendDirect =>
      var m := Direct(s.oi.count);
      s.(oi := OiTop(s.oi.count), ptBox := s.ptBox + [m], ptLog := s.ptLog + [m])
  }

  /** Here and below, a message of a type the loop does not look for is dropped. */
  function ApplyAo(s: State, step: Step): State
    requires IsAo(step) && Enabled(s, step)
  {
    match step
    case AoPop =>
      s.(aoBox := s.aoBox[1..],
         ao := if s.aoBox[0].File? then AoMirror(s.ao.mirrors, s.aoBox[0].file) else s.ao)
    case AoSendMirror =>
      var n := s.ao.mirrors + 1;
      s.(oiBox := s.oiBox + [Mirror(n, s.ao.file.fileName)], ao := AoApp(n, s.ao.file))
    case AoSendApp =>
      var m := App(AppOf(s.ao.file));
      s.(ptBox := s.ptBox + [m], ptLog := s.ptLog + [m], ao := AoTop(s.ao.mirrors))
  }

  function ApplyPt(s: State, step: Step): State
    requires IsPt(step) && Enabled(s, step)
  {
    match step
    case PtPop => s.(ptBox := s.ptBox[1..], pt := if s.ptBox[0].App? then PtSend(s.ptBox[0].app) else s.pt)
    case PtSendProcessed => s.(ttBox := s.ttBox + [Processed(ProcessedOf(s.pt.app))], pt := PtTop)
  }

  function ApplyTt(s: State, step: Step): State
    requires IsTt(step) && Enabled(s, step)
  {
    match step
    case TtPop => s.(ttBox := s.ttBox[1..], tt := if s.ttBox[0].Processed? then TtSend(s.ttBox[0].processed) else s.tt)
    case TtSendTransformed => s.(rtBox := s.rtBox + [Transformed(TransformedOf(s.tt.processed))], tt := TtTop)
  }

  function ApplyRt(s: State, step: Step): State
    requires IsRt(step) && Enabled(s, step)
  {
    match step
    case RtPop => s.(rtBox := s.rtBox[1..], rt := if s.rtBox[0].Transformed? then RtPrint(s.rtBox[0].transformed) else s.rt)
    case RtReport(now) => s.(reports := s.reports + [Report(s.rt.transformed, now)], rt := RtTop, clock := now)
  }

  ghost predicate StepAt(states: seq<State>, steps: seq<Step>, i: nat)
    requires i < |steps| && |states| == |steps| + 1
  {
    Enabled(states[i], steps[i]) && states[i + 1] == Apply(states[i], steps[i])
  }

  ghost predicate IsRun(states: seq<State>, steps: seq<Step>) {
    && |states| == |steps| + 1
    && states[0] == Init()
    && forall i: nat :: i < |steps| ==> StepAt(states, steps, i)
  }

  // ---- Starting and stopping ---------------------------------------------------------

  predicate Running(s: State, who: Who) {
    match who
    case OI => !s.oi.OiStopped?
    case AO => !s.ao.AoStopped?
    case PT => !s.pt.PtStopped?
    case TT => !s.tt.TtStopped?
    case RT => !s.rt.RtStopped?
  }

  predicate Owns(who: Who, step: Step) {
    match who
    case OI => IsOi(step)
    case AO => IsAo(step)
    case PT => IsPt(step)
    case TT => IsTt(step)
    case RT => IsRt(step)
  }

  /** The last start or exit of this thread among the first `n` steps is a start. */
  predicate LastStarted(steps: seq<Step>, n: nat, who: Who)
    requires n <= |steps|
  {
    n > 0 && (steps[n - 1] == Start(who) || (steps[n - 1] != Exit(who) && LastStarted(steps, n - 1, who)))
  }

  lemma RunningStep(s: State, step: Step, who: Who)
    requires Enabled(s, step)
    ensures Running(Apply(s, step), who) <==> step == Start(who) || (step != Exit(who) && Running(s, who))
    ensures Owns(who, step) ==> Running(s, who)
  {
  }

  /** In any run a thread is running exactly from its start to its exit, only then takes steps of its own,
      and can be started again whenever it is not. */
  lemma {:induction false} RunsFromStartToExit(states: seq<State>, steps: seq<Step>, i: nat, who: Who)
    requires IsRun(states, steps) && i < |states|
    ensures Running(states[i], who) <==> LastStarted(steps, i, who)
    ensures i < |steps| && Owns(who, steps[i]) ==> LastStarted(steps, i, who)
    ensures Enabled(states[i], Start(who)) <==> !LastStarted(steps, i, who)
  {
    if i > 0 {
      RunsFromStartToExit(states, steps, i - 1, who);
      assert StepAt(states, steps, i - 1);
      RunningStep(states[i - 1], steps[i - 1], who);
    }
    if i < |steps| {
      assert StepAt(states, steps, i);
      RunningStep(states[i], steps[i], who);
    }
  }

  // ---- What each queue and each hand can hold ----------------------------------------

  function FileOfProcessed(p: ProcessedData): FileEvent { p.originalAppEvent.originalFile }
  function FileOfTransformed(t: TransformedData): FileEvent { FileOfProcessed(t.originalData) }

  predicate GenuineApp(a: AppEvent) { a == AppOf(a.originalFile) }
  predicate GenuineProcessed(p: ProcessedData) { p == ProcessedOf(AppOf(FileOfProcessed(p))) }
  predicate GenuineTransformed(t: TransformedData) { t == TransformedOf(ProcessedOf(AppOf(FileOfTransformed(t)))) }

  /** Each inbox holds only what its senders send, and every payload is computed from its file. */
  ghost predicate Typed(s: State) {
    && (forall m :: m in s.aoBox ==> m.File?)
    && (forall m :: m in s.ptBox ==> m.Direct? || (m.App? && GenuineApp(m.app)))
    && (forall m :: m in s.ttBox ==> m.Processed? && GenuineProcessed(m.processed))
    && (forall m :: m in s.rtBox ==> m.Transformed? && GenuineTransformed(m.transformed))
    && (s.pt.PtSend? ==> GenuineApp(s.pt.app))
    && (s.tt.TtSend? ==> GenuineProcessed(s.tt.processed))
    && (s.rt.RtPrint? ==> GenuineTransformed(s.rt.transformed))
    && (forall r :: r in s.reports ==> GenuineTransformed(r.data))
  }

  lemma TypedOiAo(s: State, step: Step)
    requires Typed(s) && Enabled(s, step) && (IsOi(step) || IsAo(step))
    ensures Typed(Apply(s, step))
  {
    var s' := if IsOi(step) then ApplyOi(s, step) else ApplyAo(s, step);
    assert s'.ttBox == s.ttBox && s'.rtBox == s.rtBox && s'.reports == s.reports;
    assert s'.pt == s.pt && s'.tt == s.tt && s'.rt == s.rt;
  }

  lemma TypedPt(s: State, step: Step)
    requires Typed(s) && Enabled(s, step) && IsPt(step)
    ensures Typed(Apply(s, step))
  {
    var s' := ApplyPt(s, step);
    assert step.PtPop? ==> s.ptBox[0] in s.ptBox;
    assert s'.aoBox == s.aoBox && s'.rtBox == s.rtBox && s'.reports == s.reports;
  }

  lemma TypedTt(s: State, step: Step)
    requires Typed(s) && Enabled(s, step) && IsTt(step)
    ensures Typed(Apply(s, step))
  {
    var s' := ApplyTt(s, step);
    assert step.TtPop? ==> s.ttBox[0] in s.ttBox;
    assert s'.aoBox == s.aoBox && s'.ptBox == s.ptBox && s'.reports == s.reports;
  }

  lemma TypedRt(s: State, step: Step)
    requires Typed(s) && Enabled(s, step) && IsRt(step)
    ensures Typed(Apply(s, step))
  {
    var s' := ApplyRt(s, step);
    assert step.RtPop? ==> s.rtBox[0] in s.rtBox;
    assert s'.aoBox == s.aoBox && s'.ptBox == s.ptBox && s'.ttBox == s.ttBox;
  }

  lemma TypedStep(s: State, step: Step)
    requires Typed(s) && Enabled(s, step)
    ensures Typed(Apply(s, step))
  {
    if IsOi(step) || IsAo(step) {
      TypedOiAo(s, step);
    } else if IsPt(step) {
      TypedPt(s, step);
    } else if IsTt(step) {
      TypedTt(s, step);
    } else if IsRt(step) {
      TypedRt(s, step);
    }
  }

  // ---- Conservation ------------------------------------------------------------------

  function FileIn(m: Message): seq<FileEvent> {
    match m
    case File(f) => [f]
    case App(a) => [a.originalFile]
    case Processed(p) => [FileOfProcessed(p)]
    case Transformed(t) => [FileOfTransformed(t)]
    case _ => []
  }

  /** The file events behind the messages of a queue, in order. */
  function Files(ms: seq<Message>): seq<FileEvent> {
    FilesUpTo(ms, |ms|)
  }

  function FilesUpTo(ms: seq<Message>, n: nat): seq<FileEvent>
    requires n <= |ms|
  {
    if n == 0 then [] else FilesUpTo(ms, n - 1) + FileIn(ms[n - 1])
  }

  lemma {:induction false} FilesOfFront(a: seq<Message>, b: seq<Message>, n: nat)
    requires n <= |a|
    ensures FilesUpTo(a + b, n) == FilesUpTo(a, n)
  {
    if n > 0 {
      FilesOfFront(a, b, n - 1);
    }
  }

  lemma BackStep(a: seq<Message>, b: seq<Message>, n: nat, front: seq<FileEvent>)
    requires 0 < n <= |b| && FilesUpTo(a + b, |a| + n - 1) == front + FilesUpTo(b, n - 1)
    ensures FilesUpTo(a + b, |a| + n) == front + FilesUpTo(b, n)
  {
    assert (a + b)[|a| + n - 1] == b[n - 1];
    Regrouped(front, FilesUpTo(b, n - 1), FileIn(b[n - 1]));
  }

  lemma {:induction false} FilesOfBack(a: seq<Message>, b: seq<Message>, n: nat)
    requires n <= |b|
    ensures FilesUpTo(a + b, |a| + n) == Files(a) + FilesUpTo(b, n)
  {
    if n == 0 {
      FilesOfFront(a, b, |a|);
    } else {
      FilesOfBack(a, b, n - 1);
      BackStep(a, b, n, Files(a));
    }
  }

  lemma FilesConcat(a: seq<Message>, b: seq<Message>)
    ensures Files(a + b) == Files(a) + Files(b)
  {
    FilesOfBack(a, b, |b|);
  }

  lemma FilesOfOne(m: Message)
    ensures Files([m]) == FileIn(m)
  {
    assert FilesUpTo([m], 1) == FilesUpTo([m], 0) + FileIn([m][0]);
  }

  lemma FilesAppend(ms: seq<Message>, m: Message)
    ensures Files(ms + [m]) == Files(ms) + FileIn(m)
  {
    FilesConcat(ms, [m]);
    FilesOfOne(m);
  }

  lemma FilesPop(ms: seq<Message>)
    requires ms != []
    ensures Files(ms) == FileIn(ms[0]) + Files(ms[1..])
  {
    assert ms == [ms[0]] + ms[1..];
    FilesConcat([ms[0]], ms[1..]);
    FilesOfOne(ms[0]);
  }

  function FilesReported(rs: seq<Report>): (fs: seq<FileEvent>)
    ensures |fs| == |rs|
    ensures forall k :: 0 <= k < |rs| ==> fs[k] == FileOfTransformed(rs[k].data)
  {
    if rs == [] then [] else FilesReported(rs[..|rs| - 1]) + [FileOfTransformed(rs[|rs| - 1].data)]
  }

  function HandRt(s: State): seq<FileEvent> { if s.rt.RtPrint? then [FileOfTransformed(s.rt.transformed)] else [] }
  function HandTt(s: State): seq<FileEvent> { if s.tt.TtSend? then [FileOfProcessed(s.tt.processed)] else [] }
  function HandPt(s: State): seq<FileEvent> { if s.pt.PtSend? then [s.pt.app.originalFile] else [] }
  function HandAo(s: State): seq<FileEvent> { if s.ao.AoMirror? || s.ao.AoApp? then [s.ao.file] else [] }

  /** The path from the result thread back to the observer, queue by queue. */
  function AtResult(s: State): seq<FileEvent> { FilesReported(s.reports) + HandRt(s) + Files(s.rtBox) }
  function AtTransformation(s: State): seq<FileEvent> { HandTt(s) + Files(s.ttBox) }
  function AtProcessing(s: State): seq<FileEvent> { HandPt(s) + Files(s.ptBox) }
  function AtAppObserver(s: State): seq<FileEvent> { HandAo(s) + Files(s.aoBox) }

  function Path(s: State): seq<FileEvent> {
    AtResult(s) + AtTransformation(s) + AtProcessing(s) + AtAppObserver(s)
  }

  /** Nothing new is sent, and only two neighbouring parts of the path change, together unchanged. */
  ghost predicate PathKept(s: State, s': State) {
    && s'.sent == s.sent
    && (|| (AtResult(s') == AtResult(s) && AtTransformation(s') == AtTransformation(s)
            && AtProcessing(s') + AtAppObserver(s') == AtProcessing(s) + AtAppObserver(s))
        || (AtResult(s') == AtResult(s) && AtAppObserver(s') == AtAppObserver(s)
            && AtTransformation(s') + AtProcessing(s') == AtTransformation(s) + AtProcessing(s))
        || (AtProcessing(s') == AtProcessing(s) && AtAppObserver(s') == AtAppObserver(s)
            && AtResult(s') + AtTransformation(s') == AtResult(s) + AtTransformation(s)))
  }

  /** An item leaves a hand and joins the end of the next queue on its way. */
  lemma MoveOn(h: seq<FileEvent>, box: seq<FileEvent>, x: FileEvent, rest: seq<FileEvent>)
    ensures (h + (box + [x])) + ([] + rest) == (h + box) + ([x] + rest)
  {
  }

  lemma JoinLast(front: seq<FileEvent>, h: seq<FileEvent>, box: seq<FileEvent>, x: FileEvent)
    ensures front + (h + (box + [x])) == (front + (h + box)) + [x]
  {
  }

  lemma PathOiStamp(s: State, now: int)
    requires Enabled(s, OiStamp(now))
    ensures PathKept(s, ApplyOi(s, OiStamp(now)))
  {
    var s' := ApplyOi(s, OiStamp(now));
    assert AtResult(s') == AtResult(s) && AtTransformation(s') == AtTransformation(s);
    assert AtProcessing(s') == AtProcessing(s) && AtAppObserver(s') == AtAppObserver(s);
  }

  lemma PathOiSendFile(s: State)
    requires Enabled(s, OiSendFile) && Path(s) == s.sent
    ensures var s' := ApplyOi(s, OiSendFile); Path(s') == s'.sent
  {
    var event := NthFile(s.oi.count, s.oi.stamp);
    FilesAppend(s.aoBox, File(event));
    JoinLast(AtResult(s) + AtTransformation(s) + AtProcessing(s), HandAo(s), Files(s.aoBox), event);
  }

  lemma PathOiSendDirect(s: State)
    requires Enabled(s, OiSendDirect)
    ensures PathKept(s, ApplyOi(s, OiSendDirect))
  {
    FilesAppend(s.ptBox, Direct(s.oi.count));
  }

  lemma PathAoPop(s: State)
    requires Enabled(s, AoPop) && Typed(s)
    ensures PathKept(s, ApplyAo(s, AoPop))
  {
    FilesPop(s.aoBox);
    assert s.aoBox[0] in s.aoBox;
    assert AtAppObserver(ApplyAo(s, AoPop)) == AtAppObserver(s);
  }

  lemma PathAoSendMirror(s: State)
    requires Enabled(s, AoSendMirror)
    ensures PathKept(s, ApplyAo(s, AoSendMirror))
  {
  }

  lemma PathAoSendApp(s: State)
    requires Enabled(s, AoSendApp)
    ensures PathKept(s, ApplyAo(s, AoSendApp))
  {
    FilesAppend(s.ptBox, App(AppOf(s.ao.file)));
    MoveOn(HandPt(s), Files(s.ptBox), s.ao.file, Files(s.aoBox));
  }

  lemma PathPtPop(s: State)
    requires Enabled(s, PtPop) && Typed(s)
    ensures PathKept(s, ApplyPt(s, PtPop))
  {
    FilesPop(s.ptBox);
    assert s.ptBox[0] in s.ptBox;
    assert AtProcessing(ApplyPt(s, PtPop)) == AtProcessing(s);
  }

  lemma PathPtSend(s: State)
    requires Enabled(s, PtSendProcessed)
    ensures PathKept(s, ApplyPt(s, PtSendProcessed))
  {
    var f := s.pt.app.originalFile;
    FilesAppend(s.ttBox, Processed(ProcessedOf(s.pt.app)));
    MoveOn(HandTt(s), Files(s.ttBox), f, Files(s.ptBox));
  }

  lemma PathTtPop(s: State)
    requires Enabled(s, TtPop) && Typed(s)
    ensures PathKept(s, ApplyTt(s, TtPop))
  {
    FilesPop(s.ttBox);
    assert s.ttBox[0] in s.ttBox;
    assert AtTransformation(ApplyTt(s, TtPop)) == AtTransformation(s);
  }

  lemma PathTtSend(s: State)
    requires Enabled(s, TtSendTransformed)
    ensures PathKept(s, ApplyTt(s, TtSendTransformed))
  {
    var f := FileOfProcessed(s.tt.processed);
    FilesAppend(s.rtBox, Transformed(TransformedOf(s.tt.processed)));
    MoveOn(FilesReported(s.reports) + HandRt(s), Files(s.rtBox), f, Files(s.ttBox));
  }

  lemma TakeUp(a: seq<FileEvent>, x: seq<FileEvent>, rest: seq<FileEvent>)
    ensures (a + []) + (x + rest) == (a + x) + rest
  {
  }

  lemma PathRtPop(s: State)
    requires Enabled(s, RtPop) && Typed(s)
    ensures PathKept(s, ApplyRt(s, RtPop))
  {
    var s' := ApplyRt(s, RtPop);
    FilesPop(s.rtBox);
    assert s.rtBox[0] in s.rtBox;
    assert HandRt(s) == [] && HandRt(s') == FileIn(s.rtBox[0]) && s'.reports == s.reports;
    TakeUp(FilesReported(s.reports), FileIn(s.rtBox[0]), Files(s.rtBox[1..]));
    assert AtResult(s') == AtResult(s);
  }

  lemma PathRtReport(s: State, now: int)
    requires Enabled(s, RtReport(now))
    ensures PathKept(s, ApplyRt(s, RtReport(now)))
  {
    var s' := ApplyRt(s, RtReport(now));
    assert s'.reports[..|s.reports|] == s.reports;
    assert FilesReported(s'.reports) == FilesReported(s.reports) + HandRt(s);
    assert AtResult(s') == AtResult(s);
  }

  lemma PathLifecycle(s: State, step: Step)
    requires Enabled(s, step) && IsLifecycle(step)
    ensures PathKept(s, ApplyLifecycle(s, step))
  {
    var s' := ApplyLifecycle(s, step);
    assert s'.reports == s.reports && s'.sent == s.sent;
    assert s'.aoBox == s.aoBox && s'.ptBox == s.ptBox && s'.ttBox == s.ttBox && s'.rtBox == s.rtBox;
    assert HandRt(s') == HandRt(s) && HandTt(s') == HandTt(s) && HandPt(s') == HandPt(s) && HandAo(s') == HandAo(s);
  }

  lemma KeptMeansSame(s: State, s': State)
    requires PathKept(s, s')
    ensures Path(s') == Path(s) && s'.sent == s.sent
  {
    Regroup(AtResult(s), AtTransformation(s), AtProcessing(s), AtAppObserver(s),
            AtResult(s'), AtTransformation(s'), AtProcessing(s'), AtAppObserver(s'));
  }

  lemma Regroup(a: seq<FileEvent>, b: seq<FileEvent>, c: seq<FileEvent>, d: seq<FileEvent>,
                a': seq<FileEvent>, b': seq<FileEvent>, c': seq<FileEvent>, d': seq<FileEvent>)
    requires || (a' + b' == a + b && c' == c && d' == d)
             || (a' == a && b' + c' == b + c && d' == d)
             || (a' == a && b' == b && c' + d' == c + d)
    ensures a' + b' + c' + d' == a + b + c + d
  {
    assert a' + b' + c' + d' == a' + (b' + c') + d' == (a' + b') + (c' + d');
    assert a + b + c + d == a + (b + c) + d == (a + b) + (c + d);
  }

  lemma PathStep(s: State, step: Step)
    requires Typed(s) && Enabled(s, step) && Path(s) == s.sent
    ensures Path(Apply(s, step)) == Apply(s, step).sent
  {
    if step.OiSendFile? {
      PathOiSendFile(s);
    } else {
      match step {
        case OiStamp(now) => PathOiStamp(s, now);
        case OiSendDirect => PathOiSendDirect(s);
        case AoPop => PathAoPop(s);
        case AoSendMirror => PathAoSendMirror(s);
        case AoSendApp => PathAoSendApp(s);
        case PtPop => PathPtPop(s);
        case PtSendProcessed => PathPtSend(s);
        case TtPop => PathTtPop(s);
        case TtSendTransformed => PathTtSend(s);
        case RtPop => PathRtPop(s);
        case RtReport(now) => PathRtReport(s, now);
        case _ => PathLifecycle(s, step);
      }
      KeptMeansSame(s, Apply(s, step));
    }
  }

  /** The path holds what was sent, and each payload on it is genuine. */
  ghost predicate Conserved(s: State) {
    Typed(s) && Path(s) == s.sent
  }

  lemma ConservedStep(s: State, step: Step, s': State)
    requires Conserved(s) && Enabled(s, step) && s' == Apply(s, step)
    ensures Conserved(s')
  {
    TypedStep(s, step);
    PathStep(s, step);
  }

  lemma StartConserved(states: seq<State>, steps: seq<Step>)
    requires IsRun(states, steps)
    ensures Conserved(states[0])
  {
    assert states[0] == Init();
  }

  lemma ConservedAt(states: seq<State>, steps: seq<Step>, k: nat)
    requires k < |steps| && |states| == |steps| + 1 && StepAt(states, steps, k) && Conserved(states[k])
    ensures Conserved(states[k + 1])
  {
    ConservedStep(states[k], steps[k], states[k + 1]);
  }

  lemma {:induction false} RunConserved(states: seq<State>, steps: seq<Step>, i: nat)
    requires IsRun(states, steps) && i < |states|
    ensures Conserved(states[i])
  {
    if i == 0 {
      StartConserved(states, steps);
    } else {
      var k := i - 1;
      RunConserved(states, steps, k);
      assert StepAt(states, steps, k);
      ConservedAt(states, steps, k);
      assert states[k + 1] == states[i];
    }
  }

  /** Across any schedule, stops and restarts included, the files reported, in hands and in queues,
      read from the result thread back, are exactly the files sent, in the order they were sent. */
  lemma NothingLostDuplicatedOrReordered(states: seq<State>, steps: seq<Step>, i: nat)
    requires IsRun(states, steps) && i < |states|
    ensures Path(states[i]) == states[i].sent
  {
    RunConserved(states, steps, i);
  }

  // ---- Provenance --------------------------------------------------------------------

  /** Which event of its observer run a file event was. */
  function Number(f: FileEvent): nat { f.fileSize / 1024 }

  /** File `k` is the first of an observer run or the one after file `k - 1`, stamped before `clock`. */
  predicate SourcedAt(sent: seq<FileEvent>, clock: int, k: nat)
    requires k < |sent|
  {
    var f := sent[k];
    && Number(f) >= 1 && f == NthFile(Number(f), f.sendTime) && f.sendTime <= clock
    && (Number(f) == 1 || (k > 0 && Number(f) == Number(sent[k - 1]) + 1))
  }

  /** Files are numbered from 1 in each run of the observer and stamped in order, up to the present. */
  ghost predicate Sourced(s: State) {
    && (forall k: nat :: k < |s.sent| ==> SourcedAt(s.sent, s.clock, k))
    && (forall k, l :: 0 <= k < l < |s.sent| ==> s.sent[k].sendTime <= s.sent[l].sendTime)
    && ((s.oi.OiTop? && s.oi.count > 0) || s.oi.OiDirect? ==>
          s.oi.count > 0 && s.sent != [] && Number(s.sent[|s.sent| - 1]) == s.oi.count)
    && (s.oi.OiFile? ==>
          && s.oi.stamp <= s.clock && (forall k :: 0 <= k < |s.sent| ==> s.sent[k].sendTime <= s.oi.stamp)
          && (s.oi.count == 1 || (s.oi.count > 1 && s.sent != [] && Number(s.sent[|s.sent| - 1]) == s.oi.count - 1)))
  }

  lemma SourcedStamp(s: State, now: int)
    requires Sourced(s) && Enabled(s, OiStamp(now))
    ensures Sourced(ApplyOi(s, OiStamp(now)))
  {
    var s' := ApplyOi(s, OiStamp(now));
    forall k: nat | k < |s'.sent|
      ensures SourcedAt(s'.sent, s'.clock, k) && s'.sent[k].sendTime <= now
    {
      assert SourcedAt(s.sent, s.clock, k);
    }
  }

  lemma SourcedSend(s: State)
    requires Sourced(s) && Enabled(s, OiSendFile)
    ensures Sourced(ApplyOi(s, OiSendFile))
  {
    var s' := ApplyOi(s, OiSendFile);
    forall k: nat | k < |s'.sent|
      ensures SourcedAt(s'.sent, s'.clock, k) && s'.sent[k].sendTime <= s.oi.stamp
    {
      if k < |s.sent| {
        assert SourcedAt(s.sent, s.clock, k);
      }
    }
  }

  /** What every other step leaves of the observer's counter and stamp. */
  ghost predicate ObserverKept(s: State, s': State) {
    && s'.sent == s.sent && s'.clock >= s.clock
    && (s'.oi.OiTop? && s'.oi.count > 0 ==> (s.oi.OiTop? || s.oi.OiDirect?) && s.oi.count == s'.oi.count)
    && (s'.oi.OiDirect? || s'.oi.OiFile? ==> s.oi == s'.oi)
  }

  lemma SourcedFrame(s: State, step: Step)
    requires Enabled(s, step) && !step.OiStamp? && !step.OiSendFile?
    ensures ObserverKept(s, Apply(s, step))
  {
  }

  lemma SourcedKept(s: State, s': State)
    requires Sourced(s) && ObserverKept(s, s')
    ensures Sourced(s')
  {
    forall k: nat | k < |s'.sent|
      ensures SourcedAt(s'.sent, s'.clock, k)
    {
      assert SourcedAt(s.sent, s.clock, k);
    }
  }

  lemma SourcedStep(s: State, step: Step)
    requires Sourced(s) && Enabled(s, step)
    ensures Sourced(Apply(s, step))
  {
    if step.OiStamp? {
      SourcedStamp(s, step.now);
    } else if step.OiSendFile? {
      SourcedSend(s);
    } else {
      SourcedFrame(s, step);
      SourcedKept(s, Apply(s, step));
    }
  }

  lemma {:induction false} RunSourced(states: seq<State>, steps: seq<Step>, i: nat)
    requires IsRun(states, steps) && i < |states|
    ensures Sourced(states[i])
  {
    if i > 0 {
      RunSourced(states, steps, i - 1);
      assert StepAt(states, steps, i - 1);
      SourcedStep(states[i - 1], steps[i - 1]);
    }
  }

  /** A report was received after the file it goes back to was stamped. */
  ghost predicate ReceivedLater(s: State) {
    forall k :: 0 <= k < |s.reports| ==>
      FileOfTransformed(s.reports[k].data).sendTime <= s.reports[k].received
  }

  /** The hand of the result thread is on the path of files sent, so already stamped. */
  lemma HandWasSent(s: State)
    requires Path(s) == s.sent && s.rt.RtPrint?
    ensures |s.reports| < |s.sent| && s.sent[|s.reports|] == FileOfTransformed(s.rt.transformed)
  {
    assert Path(s)[|s.reports|] == FileOfTransformed(s.rt.transformed);
  }

  lemma ReceivedLaterStep(s: State, now: int)
    requires Path(s) == s.sent && Sourced(s) && ReceivedLater(s) && Enabled(s, RtReport(now))
    ensures ReceivedLater(ApplyRt(s, RtReport(now)))
  {
    HandWasSent(s);
    assert SourcedAt(s.sent, s.clock, |s.reports|);
  }

  lemma {:induction false} RunReceivedLater(states: seq<State>, steps: seq<Step>, i: nat)
    requires IsRun(states, steps) && i < |states|
    ensures ReceivedLater(states[i])
  {
    if i > 0 {
      RunReceivedLater(states, steps, i - 1);
      var s, step := states[i - 1], steps[i - 1];
      assert StepAt(states, steps, i - 1);
      if step.RtReport? {
        NothingLostDuplicatedOrReordered(states, steps, i - 1);
        RunSourced(states, steps, i - 1);
        ReceivedLaterStep(s, step.now);
      } else {
        ReportsFrame(s, step);
      }
    }
  }

  lemma ReportsFrame(s: State, step: Step)
    requires Enabled(s, step) && !step.RtReport?
    ensures Apply(s, step).reports == s.reports
  {
  }

  /** The `k`-th report is the `k`-th file sent, carried through every stage: the values of the source,
      the file's own name and size, and a chain duration that is not negative. */
  lemma ReportsAreTheFilesInOrder(states: seq<State>, steps: seq<Step>, i: nat, k: nat)
    requires IsRun(states, steps) && i < |states| && k < |states[i].reports|
    ensures k < |states[i].sent|
    ensures var r := states[i].reports[k];
            var f := states[i].sent[k];
            && r.data.value == 63.0 && r.data.transformationType == "MathTransform"
            && r.data.originalData.processingResult == 42
            && r.data.originalData.dataId == "DATA-" + Decimal(f.fileSize)
            && r.data.originalData.originalAppEvent == AppEvent("App1", f.fileName, f)
            && Number(f) >= 1 && f.fileSize == 1024 * Number(f) && f.fileName == "file_" + Decimal(Number(f)) + ".txt"
            && r.received - f.sendTime >= 0
            && (k > 0 ==> states[i].sent[k - 1].sendTime <= f.sendTime)
  {
    RunConserved(states, steps, i);
    RunSourced(states, steps, i);
    RunReceivedLater(states, steps, i);
    var s := states[i];
    assert FilesReported(s.reports)[k] == Path(s)[k];
    assert SourcedAt(s.sent, s.clock, k);
    assert s.reports[k] in s.reports;
    GenuineContents(s.reports[k].data);
  }

  lemma GenuineContents(t: TransformedData)
    requires GenuineTransformed(t)
    ensures var f := FileOfTransformed(t);
            && t.value == 63.0 && t.transformationType == "MathTransform"
            && t.originalData.processingResult == 42
            && t.originalData.dataId == "DATA-" + Decimal(f.fileSize)
            && t.originalData.originalAppEvent == AppEvent("App1", f.fileName, f)
  {
  }

  // ---- The side paths ----------------------------------------------------------------

  function Directs(ms: seq<Message>): nat {
    if ms == [] then 0 else Directs(ms[..|ms| - 1]) + if ms[|ms| - 1].Direct? then 1 else 0
  }

  function Apps(ms: seq<Message>): nat {
    if ms == [] then 0 else Apps(ms[..|ms| - 1]) + if ms[|ms| - 1].App? then 1 else 0
  }

  /** Files, direct events, mirrors and application events, counted by what was pushed. */
  ghost predicate Counted(s: State) {
    && |s.sent| == Directs(s.ptLog) + (if s.oi.OiDirect? then 1 else 0)
    && |s.oiBox| == Apps(s.ptLog) + (if s.ao.AoApp? then 1 else 0)
    && |s.sent| == |s.oiBox| + |s.aoBox| + (if s.ao.AoMirror? then 1 else 0)
    && (forall k :: 0 <= k < |s.aoBox| ==>
          s.aoBox[k] == File(s.sent[|s.sent| - |s.aoBox| + k]))
    && (s.ao.AoMirror? ==> s.ao.file == s.sent[|s.oiBox|])
    && (forall k :: 0 <= k < |s.oiBox| ==> s.oiBox[k].Mirror? && s.oiBox[k].text == s.sent[k].fileName)
    && (forall k :: 0 <= k <= |s.ptLog| ==> Apps(s.ptLog[..k]) <= Directs(s.ptLog[..k]) + 1)
  }

  lemma LogPrefixes(log: seq<Message>, m: Message)
    requires forall k :: 0 <= k <= |log| ==> Apps(log[..k]) <= Directs(log[..k]) + 1
    requires Apps(log + [m]) <= Directs(log + [m]) + 1
    ensures forall k :: 0 <= k <= |log + [m]| ==> Apps((log + [m])[..k]) <= Directs((log + [m])[..k]) + 1
  {
    var log' := log + [m];
    forall k | 0 <= k <= |log'|
      ensures Apps(log'[..k]) <= Directs(log'[..k]) + 1
    {
      if k <= |log| {
        assert log'[..k] == log[..k];
      } else {
        assert log'[..k] == log';
      }
    }
  }

  lemma CountedOiSendDirect(s: State)
    requires Counted(s) && Enabled(s, OiSendDirect)
    ensures Counted(ApplyOi(s, OiSendDirect))
  {
    var s' := ApplyOi(s, OiSendDirect);
    assert s'.ptLog[..|s.ptLog|] == s.ptLog && s.ptLog[..|s.ptLog|] == s.ptLog;
    LogPrefixes(s.ptLog, Direct(s.oi.count));
  }

  lemma CountedAoSendApp(s: State)
    requires Counted(s) && Enabled(s, AoSendApp)
    ensures Counted(ApplyAo(s, AoSendApp))
  {
    var s' := ApplyAo(s, AoSendApp);
    assert s'.ptLog[..|s.ptLog|] == s.ptLog && s.ptLog[..|s.ptLog|] == s.ptLog;
    LogPrefixes(s.ptLog, App(AppOf(s.ao.file)));
  }

  lemma CountedOiSendFile(s: State)
    requires Counted(s) && Enabled(s, OiSendFile)
    ensures Counted(ApplyOi(s, OiSendFile))
  {
  }

  lemma CountedAo(s: State, step: Step)
    requires Counted(s) && Enabled(s, step) && (step.AoPop? || step.AoSendMirror?)
    ensures Counted(ApplyAo(s, step))
  {
    if step.AoPop? {
      assert s.aoBox[0] == File(s.sent[|s.sent| - |s.aoBox|]);
    }
  }

  lemma CountedFrame(s: State, step: Step)
    requires Enabled(s, step) && !step.OiSendFile? && !step.OiSendDirect? && !IsAo(step)
    ensures var s' := Apply(s, step);
            && s'.sent == s.sent && s'.ptLog == s.ptLog && s'.oiBox == s.oiBox && s'.aoBox == s.aoBox
            && (s'.oi.OiDirect? <==> s.oi.OiDirect?)
            && (s'.ao.AoMirror? || s'.ao.AoApp? || s.ao.AoMirror? || s.ao.AoApp? ==> s'.ao == s.ao)
  {
  }

  lemma CountedStep(s: State, step: Step)
    requires Counted(s) && Enabled(s, step)
    ensures Counted(Apply(s, step))
  {
    if step.OiSendDirect? {
      CountedOiSendDirect(s);
    } else if step.AoSendApp? {
      CountedAoSendApp(s);
    } else if step.OiSendFile? {
      CountedOiSendFile(s);
    } else if IsAo(step) {
      CountedAo(s, step);
    } else {
      CountedFrame(s, step);
    }
  }

  lemma {:induction false} RunCounted(states: seq<State>, steps: seq<Step>, i: nat)
    requires IsRun(states, steps) && i < |states|
    ensures Counted(states[i])
  {
    if i > 0 {
      RunCounted(states, steps, i - 1);
      assert StepAt(states, steps, i - 1);
      CountedStep(states[i - 1], steps[i - 1]);
    }
  }

  /** With f, d, m, a the files, direct events, mirrors and application events pushed so far:
      d <= f <= d + 1, a <= m <= a + 1 and m <= f, so every prefix of what was pushed into the
      processing inbox has at most one more application event than direct events; and the observer's
      own inbox, which its loop never pops, is exactly the mirrors, in file order. */
  lemma CrossPathCounts(states: seq<State>, steps: seq<Step>, i: nat, k: nat)
    requires IsRun(states, steps) && i < |states| && k <= |states[i].ptLog|
    ensures var s := states[i];
            && Directs(s.ptLog) <= |s.sent| <= Directs(s.ptLog) + 1
            && Apps(s.ptLog) <= |s.oiBox| <= Apps(s.ptLog) + 1
            && |s.oiBox| <= |s.sent|
            && Apps(s.ptLog[..k]) <= Directs(s.ptLog[..k]) + 1
            && forall j :: 0 <= j < |s.oiBox| ==> s.oiBox[j].Mirror? && s.oiBox[j].text == s.sent[j].fileName
  {
    RunCounted(states, steps, i);
  }

  /** The numbers the direct events of a log carry. */
  function DirectNumbers(ms: seq<Message>): (ns: seq<nat>)
    ensures |ns| == Directs(ms)
  {
    if ms == [] then []
    else
      var m := ms[|ms| - 1];
      DirectNumbers(ms[..|ms| - 1]) + if m.Direct? then [m.counter] else []
  }

  ghost predicate DirectsNumbered(s: State) {
    Directs(s.ptLog) <= |s.sent|
    && forall k :: 0 <= k < Directs(s.ptLog) ==> DirectNumbers(s.ptLog)[k] == Number(s.sent[k])
  }

  lemma DirectsNumberedStep(s: State, step: Step)
    requires DirectsNumbered(s) && Sourced(s) && Counted(s) && Enabled(s, step)
    ensures DirectsNumbered(Apply(s, step))
  {
    if step.OiSendDirect? || step.AoSendApp? {
      DirectsNumberedPush(s, step);
    } else {
      LogFrame(s, step);
    }
  }

  lemma DirectsNumberedPush(s: State, step: Step)
    requires DirectsNumbered(s) && Sourced(s) && Counted(s) && Enabled(s, step)
    requires step.OiSendDirect? || step.AoSendApp?
    ensures DirectsNumbered(Apply(s, step))
  {
    assert Apply(s, step).ptLog[..|s.ptLog|] == s.ptLog;
  }

  lemma LogFrame(s: State, step: Step)
    requires Enabled(s, step) && !step.OiSendDirect? && !step.AoSendApp?
    ensures var s' := Apply(s, step); s'.ptLog == s.ptLog && s.sent <= s'.sent
  {
  }

  /** How many mirrors the current run of the application observer has sent. */
  function MirrorsSent(ao: AppObserverPc): nat {
    if ao.AoStopped? then 0 else ao.mirrors
  }

  /** Entry `k` of the observer's inbox is the first mirror of a run or the one after entry `k - 1`. */
  predicate MirrorCounts(box: seq<Message>, k: nat)
    requires k < |box|
  {
    && box[k].Mirror?
    && (box[k].mirrorCounter == 1
        || (k > 0 && box[k - 1].Mirror? && box[k].mirrorCounter == box[k - 1].mirrorCounter + 1))
  }

  ghost predicate MirrorsNumbered(s: State) {
    && (forall k: nat :: k < |s.oiBox| ==> MirrorCounts(s.oiBox, k))
    && (MirrorsSent(s.ao) > 0 ==>
          && s.oiBox != [] && s.oiBox[|s.oiBox| - 1].Mirror?
          && s.oiBox[|s.oiBox| - 1].mirrorCounter == MirrorsSent(s.ao))
  }

  lemma MirrorsNumberedStep(s: State, step: Step)
    requires MirrorsNumbered(s) && Enabled(s, step)
    ensures MirrorsNumbered(Apply(s, step))
  {
    var s' := Apply(s, step);
    if step.AoSendMirror? {
      forall k: nat | k < |s'.oiBox|
        ensures MirrorCounts(s'.oiBox, k)
      {
        if k < |s.oiBox| {
          assert MirrorCounts(s.oiBox, k);
        }
      }
    } else {
      assert s'.oiBox == s.oiBox;
    }
  }

  lemma {:induction false} RunNumbered(states: seq<State>, steps: seq<Step>, i: nat)
    requires IsRun(states, steps) && i < |states|
    ensures DirectsNumbered(states[i]) && MirrorsNumbered(states[i])
  {
    if i > 0 {
      RunNumbered(states, steps, i - 1);
      RunSourced(states, steps, i - 1);
      RunCounted(states, steps, i - 1);
      assert StepAt(states, steps, i - 1);
      DirectsNumberedStep(states[i - 1], steps[i - 1]);
      MirrorsNumberedStep(states[i - 1], steps[i - 1]);
    }
  }

  /** The side messages carry the numbers they should, across stops and restarts: direct event `k`
      the number of file `k` in its observer run; mirrors count from 1 in each run of the
      application observer. */
  lemma SideMessagesAreNumbered(states: seq<State>, steps: seq<Step>, i: nat, k: nat)
    requires IsRun(states, steps) && i < |states|
    ensures var s := states[i];
            k < Directs(s.ptLog) ==> k < |s.sent| && DirectNumbers(s.ptLog)[k] == Number(s.sent[k])
    ensures k < |states[i].oiBox| ==> MirrorCounts(states[i].oiBox, k)
  {
    RunNumbered(states, steps, i);
  }

  // ---- Draining ----------------------------------------------------------------------

  /** How many dequeues a message still costs, its own included. */
  function Weight(m: Message): nat {
    match m
    case File(_) => 4
    case App(_) => 3
    case Processed(_) => 2
    case Transformed(_) => 1
    case Direct(_) => 1
    case Mirror(_, _) => 0
  }

  function BoxWeight(ms: seq<Message>): nat {
    if ms == [] then 0 else BoxWeight(ms[..|ms| - 1]) + Weight(ms[|ms| - 1])
  }

  lemma {:induction false} BoxPop(ms: seq<Message>)
    requires ms != []
    ensures BoxWeight(ms) == Weight(ms[0]) + BoxWeight(ms[1..])
  {
    var n := |ms| - 1;
    if n == 0 {
      assert ms[..0] == [] && ms[1..] == [];
    } else {
      BoxPop(ms[..n]);
      assert ms[1..][..n - 1] == ms[..n][1..];
    }
  }

  lemma BoxAppend(ms: seq<Message>, m: Message)
    ensures BoxWeight(ms + [m]) == BoxWeight(ms) + Weight(m)
  {
    assert (ms + [m])[..|ms|] == ms;
  }

  /** Messages in the inboxes of the four consuming threads; what is in a hand counts as what will be
      sent on. */
  function Load(s: State): nat {
    BoxWeight(s.aoBox) + BoxWeight(s.ptBox) + BoxWeight(s.ttBox) + BoxWeight(s.rtBox)
    + (if s.ao.AoMirror? || s.ao.AoApp? then 3 else 0)
    + (if s.pt.PtSend? then 2 else 0)
    + (if s.tt.TtSend? then 1 else 0)
  }

  predicate IsPop(step: Step) {
    step.AoPop? || step.PtPop? || step.TtPop? || step.RtPop?
  }

  /** A step of the four consuming threads. */
  predicate Consuming(step: Step) {
    IsPop(step) || step.AoSendMirror? || step.AoSendApp? || step.PtSendProcessed? || step.TtSendTransformed? || step.RtReport?
  }

  /** Sends and prints still owed for what is in hand. */
  function Owed(s: State): nat {
    (if s.ao.AoMirror? then 2 else if s.ao.AoApp? then 1 else 0)
    + (if s.pt.PtSend? then 1 else 0) + (if s.tt.TtSend? then 1 else 0) + (if s.rt.RtPrint? then 1 else 0)
  }

  lemma LoadAo(s: State, step: Step)
    requires Typed(s) && Enabled(s, step) && IsAo(step)
    ensures Load(ApplyAo(s, step)) == Load(s) - (if IsPop(step) then 1 else 0)
  {
    if step.AoPop? {
      BoxPop(s.aoBox);
      assert s.aoBox[0] in s.aoBox;
    } else if step.AoSendApp? {
      BoxAppend(s.ptBox, App(AppOf(s.ao.file)));
    }
  }

  lemma LoadPt(s: State, step: Step)
    requires Typed(s) && Enabled(s, step) && IsPt(step)
    ensures Load(ApplyPt(s, step)) == Load(s) - (if IsPop(step) then 1 else 0)
  {
    if step.PtPop? {
      BoxPop(s.ptBox);
      assert s.ptBox[0] in s.ptBox;
    } else {
      BoxAppend(s.ttBox, Processed(ProcessedOf(s.pt.app)));
    }
  }

  lemma LoadTt(s: State, step: Step)
    requires Typed(s) && Enabled(s, step) && IsTt(step)
    ensures Load(ApplyTt(s, step)) == Load(s) - (if IsPop(step) then 1 else 0)
  {
    if step.TtPop? {
      BoxPop(s.ttBox);
      assert s.ttBox[0] in s.ttBox;
    } else {
      BoxAppend(s.rtBox, Transformed(TransformedOf(s.tt.processed)));
    }
  }

  lemma LoadRt(s: State, step: Step)
    requires Typed(s) && Enabled(s, step) && IsRt(step)
    ensures Load(ApplyRt(s, step)) == Load(s) - (if IsPop(step) then 1 else 0)
  {
    if step.RtPop? {
      BoxPop(s.rtBox);
      assert s.rtBox[0] in s.rtBox;
    }
  }

  lemma ConsumingFrame(s: State, step: Step)
    requires Enabled(s, step) && Consuming(step)
    ensures var s' := Apply(s, step);
            && s'.sent == s.sent && s'.oi == s.oi
            && (ConsumersRunning(s) ==> ConsumersRunning(s'))
            && Owed(s') <= Owed(s) + (if IsPop(step) then 2 else -1)
  {
  }

  /** A dequeue lowers the load by exactly one, everything else a consuming thread does leaves it. */
  lemma LoadStep(s: State, step: Step)
    requires Typed(s) && Enabled(s, step) && Consuming(step)
    ensures Load(Apply(s, step)) == Load(s) - (if IsPop(step) then 1 else 0)
  {
    if IsAo(step) {
      LoadAo(s, step);
    } else if IsPt(step) {
      LoadPt(s, step);
    } else if IsTt(step) {
      LoadTt(s, step);
    } else {
      LoadRt(s, step);
    }
  }

  function Pops(steps: seq<Step>): nat {
    if steps == [] then 0 else Pops(steps[..|steps| - 1]) + if IsPop(steps[|steps| - 1]) then 1 else 0
  }

  lemma DirectsAppend(log: seq<Message>, m: Message)
    ensures Directs(log + [m]) == Directs(log) + if m.Direct? then 1 else 0
  {
    assert (log + [m])[..|log|] == log;
  }

  lemma SuppliedStep(s: State, step: Step)
    requires Enabled(s, step) && IsOi(step)
    ensures var s' := Apply(s, step);
            Load(s') == Load(s) + 4 * (|s'.sent| - |s.sent|) + Directs(s'.ptLog) - Directs(s.ptLog)
  {
    if step.OiSendFile? {
      BoxAppend(s.aoBox, File(NthFile(s.oi.count, s.oi.stamp)));
    } else if step.OiSendDirect? {
      BoxAppend(s.ptBox, Direct(s.oi.count));
      DirectsAppend(s.ptLog, Direct(s.oi.count));
    }
  }

  lemma AccountFrame(s: State, step: Step)
    requires Enabled(s, step) && !IsOi(step)
    ensures Apply(s, step).sent == s.sent && Directs(Apply(s, step).ptLog) == Directs(s.ptLog)
    ensures IsLifecycle(step) ==> Load(Apply(s, step)) == Load(s)
    ensures Consuming(step) || IsLifecycle(step)
  {
    if step.AoSendApp? {
      DirectsAppend(s.ptLog, App(AppOf(s.ao.file)));
    }
  }

  lemma AccountStep(s: State, step: Step)
    requires Typed(s) && Enabled(s, step)
    ensures var s' := Apply(s, step);
            (if IsPop(step) then 1 else 0) + Load(s') - Load(s)
            == 4 * (|s'.sent| - |s.sent|) + Directs(s'.ptLog) - Directs(s.ptLog)
  {
    if IsOi(step) {
      SuppliedStep(s, step);
    } else {
      AccountFrame(s, step);
      if Consuming(step) {
        LoadStep(s, step);
      }
    }
  }

  lemma StartAccounted(states: seq<State>, steps: seq<Step>)
    requires IsRun(states, steps)
    ensures Pops(steps[..0]) + Load(states[0]) == 4 * |states[0].sent| + Directs(states[0].ptLog)
  {
  }

  lemma PopsNext(steps: seq<Step>, k: nat)
    requires k < |steps|
    ensures Pops(steps[..k + 1]) == Pops(steps[..k]) + if IsPop(steps[k]) then 1 else 0
  {
    assert steps[..k + 1][..k] == steps[..k];
  }

  lemma AccountAt(states: seq<State>, steps: seq<Step>, k: nat)
    requires k < |steps| && |states| == |steps| + 1 && StepAt(states, steps, k) && Conserved(states[k])
    ensures var s, s' := states[k], states[k + 1];
            Pops(steps[..k + 1]) - Pops(steps[..k]) + Load(s') - Load(s)
            == 4 * (|s'.sent| - |s.sent|) + Directs(s'.ptLog) - Directs(s.ptLog)
  {
    PopsNext(steps, k);
    AccountStep(states[k], steps[k]);
  }

  /** In every state of every run, with the observer active, stops and restarts included: the dequeues
      made and those still to come are four for each file sent and one for each direct event. */
  lemma {:induction false} LoadIsAccounted(states: seq<State>, steps: seq<Step>, i: nat)
    requires IsRun(states, steps) && i < |states|
    ensures Pops(steps[..i]) + Load(states[i]) == 4 * |states[i].sent| + Directs(states[i].ptLog)
  {
    if i == 0 {
      StartAccounted(states, steps);
    } else {
      var k := i - 1;
      LoadIsAccounted(states, steps, k);
      RunConserved(states, steps, k);
      assert StepAt(states, steps, k);
      AccountAt(states, steps, k);
      assert states[k + 1] == states[i];
    }
  }

  predicate ConsumersRunning(s: State) {
    !s.ao.AoStopped? && !s.pt.PtStopped? && !s.tt.TtStopped? && !s.rt.RtStopped?
  }

  /** Everything sent has been reported and the four inboxes are empty. */
  predicate Drained(s: State) {
    s.aoBox == [] && s.ptBox == [] && s.ttBox == [] && s.rtBox == [] && FilesReported(s.reports) == s.sent
  }

  ghost predicate Stuck(s: State) {
    forall step :: Consuming(step) ==> !Enabled(s, step)
  }

  lemma StuckMeansAtRest(s: State)
    requires ConsumersRunning(s) && Stuck(s)
    ensures s.ao.AoTop? && s.pt.PtTop? && s.tt.TtTop? && s.rt.RtTop?
    ensures s.aoBox == [] && s.ptBox == [] && s.ttBox == [] && s.rtBox == []
  {
    assert !Enabled(s, AoPop) && !Enabled(s, AoSendMirror) && !Enabled(s, AoSendApp);
    assert !Enabled(s, PtPop) && !Enabled(s, PtSendProcessed);
    assert !Enabled(s, TtPop) && !Enabled(s, TtSendTransformed);
    assert !Enabled(s, RtPop) && !Enabled(s, RtReport(s.clock));
  }

  lemma StuckMeansDrained(s: State)
    requires Path(s) == s.sent && ConsumersRunning(s) && Stuck(s)
    ensures Drained(s) && Load(s) == 0
  {
    StuckMeansAtRest(s);
    assert AtTransformation(s) == [] && AtProcessing(s) == [] && AtAppObserver(s) == [];
    assert AtResult(s) == FilesReported(s.reports);
  }

  lemma PopsOneMore(steps: seq<Step>, i: nat, j: nat)
    requires i < j <= |steps|
    ensures Pops(steps[i..j]) == Pops(steps[i..j - 1]) + if IsPop(steps[j - 1]) then 1 else 0
  {
    assert steps[i..j][..j - 1 - i] == steps[i..j - 1];
  }

  lemma DrainStep(states: seq<State>, steps: seq<Step>, k: nat)
    requires IsRun(states, steps) && k < |steps| && ConsumersRunning(states[k]) && Consuming(steps[k])
    ensures Load(states[k + 1]) == Load(states[k]) - (if IsPop(steps[k]) then 1 else 0)
    ensures Owed(states[k + 1]) <= Owed(states[k]) + (if IsPop(steps[k]) then 2 else -1)
    ensures ConsumersRunning(states[k + 1]) && states[k + 1].sent == states[k].sent
  {
    RunConserved(states, steps, k);
    assert StepAt(states, steps, k);
    LoadStep(states[k], steps[k]);
    ConsumingFrame(states[k], steps[k]);
  }

  lemma {:induction false} DrainProgress(states: seq<State>, steps: seq<Step>, i: nat, j: nat)
    requires IsRun(states, steps) && i <= j < |states| && ConsumersRunning(states[i])
    requires forall k :: i <= k < j ==> Consuming(steps[k])
    ensures Pops(steps[i..j]) == Load(states[i]) - Load(states[j])
    ensures j - i + 4 * Load(states[j]) + Owed(states[j]) <= 4 * Load(states[i]) + Owed(states[i])
    ensures ConsumersRunning(states[j]) && states[j].sent == states[i].sent
    decreases j - i
  {
    if i < j {
      DrainProgress(states, steps, i, j - 1);
      DrainStep(states, steps, j - 1);
      PopsOneMore(steps, i, j);
    }
  }

  /** With the observer out of the picture and the other four running, under every schedule: the number
      of dequeues is the fall of the load, the whole stretch is bounded, and where it can go no further
      the chain has made exactly as many dequeues as the load it began with and everything sent has
      been reported. */
  lemma DrainsUnderEverySchedule(states: seq<State>, steps: seq<Step>, i: nat, j: nat)
    requires IsRun(states, steps) && i <= j < |states| && ConsumersRunning(states[i])
    requires forall k :: i <= k < j ==> Consuming(steps[k])
    ensures Pops(steps[i..j]) == Load(states[i]) - Load(states[j])
    ensures j - i + 4 * Load(states[j]) + Owed(states[j]) <= 4 * Load(states[i]) + Owed(states[i])
    ensures Stuck(states[j]) ==>
              Drained(states[j]) && states[j].sent == states[i].sent && Pops(steps[i..j]) == Load(states[i])
  {
    DrainProgress(states, steps, i, j);
    if Stuck(states[j]) {
      NothingLostDuplicatedOrReordered(states, steps, j);
      StuckMeansDrained(states[j]);
    }
  }
}
