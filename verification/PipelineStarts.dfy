/**
 Which pipelines start: a STREAMON succeeds exactly when the streams are prepared, no capture stream
 is wedged, the gadget has buffers or is granted some, and no ioctl on the way fails. And why the
 number it grants matters: the second STREAMON sets `buffers_count` to three whatever the first one was
 granted.
*/
module PipelineStarts {
  import opened Common
  import opened V4l2
  import opened Streams
  import opened Pumps
  import opened PumpOwnership
  import opened PumpRuns
  import opened PumpAborts
  import opened PumpHazards
  import opened Nodes
  import opened Polls
  import opened Pipelines
  import opened PipelineProofs

  // ---------- which starts succeed ----------

  /** A node starts exactly when each of its streams would. */
  lemma NodeStartsExactly(n: Node)
    requires NodeOk(n)
    ensures NodeStart(n).1 == 0 <==>
      (n.output.Some? ==> CanStart(n.output.value)) && (n.input.Some? ==> CanStart(n.input.value))
  {
    hide StreamOk, Start, Stop, CanStart;
    if n.output.Some? {
      StartsExactly(n.output.value);
    }
    if n.input.Some? {
      StartsExactly(n.input.value);
    }
  }

  /** Every stream but the gadget's would start. */
  ghost predicate FiveCanStart(p: Pipe)
    requires Shape(p)
  {
    && CanStart(p.cam.output.value)
    && CanStart(p.isp.output.value) && CanStart(p.isp.input.value)
    && CanStart(p.enc.output.value) && CanStart(p.enc.input.value)
  }

  /**
   pipelineStart succeeds exactly when all six streams are prepared, none is wedged, and none of the
   ioctls that their starts issue fails.
  */
  lemma StartsWhenAllCan(p: Pipe)
    requires Shape(p) && PipeFits(p)
    ensures PipelineStart(p).1 == 0 <==> FiveCanStart(p) && CanStart(p.uvc.input.value)
  {
    hide PipeFits, NodeOk, NodeStart, CanStart, RegisteredAll, StartCalls, Install;
    NodesAreOk(p);
    NodeStartsExactly(p.cam);
    NodeStartsExactly(p.isp);
    NodeStartsExactly(p.enc);
    NodeStartsExactly(p.uvc);
  }

  /** How many buffers the gadget's driver grants when uvcPrepare asks it; the format is set before. */
  function GadgetGrant(s: Stream): nat {
    Granted(Elapse(s.drv), UVC_OPTS.count)
  }

  /**
   An idle stream that imports DMABUFs obtains buffers exactly when its driver grants at least one and
   none of the ioctls fails: one for the format, one for the request and one query for each buffer.
  */
  lemma ImportsWhenGranted(s: Stream, more: nat)
    requires StreamOk(s) && s.state == Idle
    ensures var (t, r) := Prepare(s, UVC_OPTS);
      && (GadgetGrant(s) > 0 && Works(s.drv.tape, GadgetGrant(s) + 2 + more) <==> r == 0 && Works(t.drv.tape, more))
      && (r == 0 ==> t.state == Prepared && t.buffers.Some? && |t.buffers.value| == t.count == GadgetGrant(s))
  {
    hide Elapse, DriverOk, Works, BuffersOk, QueryAll, Granted;
    var granted := GadgetGrant(s);
    WorksNext(s.drv, granted + 1 + more);
    if Errno(s.drv) == 0 {
      FormatKeeps(s, true);
      var s1 := SetFormat(s, true).0.(memory := DmabufImport, count := UVC_OPTS.count);
      WorksNext(s1.drv, granted + more);
      var e := Reqbufs(s1.drv, s1.count).0;
      if Errno(s1.drv) == 0 && granted > 0 {
        ImportsAll(s1.(drv := e, count := granted), [], more);
      }
    }
  }

  /** Every buffer is queried, and importing needs no more. */
  lemma {:induction false} ImportsAll(s: Stream, done: seq<Buffer>, more: nat)
    requires |done| <= s.count && s.memory == DmabufImport
    ensures var (t, r) := QueryAll(s, done);
      && (Works(s.drv.tape, s.count - |done| + more) <==> r == 0 && Works(t.drv.tape, more))
      && (r == 0 ==> t == s.(drv := t.drv, buffers := t.buffers) && t.buffers.Some? && |t.buffers.value| == s.count)
    decreases s.count - |done|
  {
    hide Elapse, Works;
    if |done| < s.count {
      var blank := FreshBuffer(s, |done|);
      var (e, err, b) := QueryBuf(s.drv, s.mplane, blank.buffer);
      WorksNext(s.drv, s.count - |done| - 1 + more);
      if err == 0 {
        ImportsAll(s.(drv := e), done + [blank.(buffer := b)], more);
      }
    }
  }

  /**
   The gadget's stream starts after uvcPrepare: it was prepared before, and STREAMON, which comes after
   the ioctl for the format, does not fail; or it obtains buffers now and then starts.
  */
  ghost predicate GadgetStarts(s: Stream) {
    match s.state
    case Prepared => Works(Elapse(s.drv).tape, 1)
    case Idle => GadgetGrant(s) > 0 && Works(s.drv.tape, GadgetGrant(s) + 3)
    case Streaming => false
  }

  /**
   What a STREAMON needs, exactly: five streams that are prepared, not wedged and meet no failing ioctl,
   and a gadget stream that starts after being prepared.
  */
  lemma StreamOnExactly(p: Pipe)
    requires PipeOk(p)
    ensures StreamOnEvent(p).1 == 0 <==> FiveCanStart(p) && GadgetStarts(p.uvc.input.value)
  {
    hide PipeOk, PipeFits, CanStart, PipelineStart, StreamOk, GadgetStarts, Prepare, Wedged;
    PipeShape(p);
    GadgetIsOk(p);
    GadgetReady(p.uvc.input.value);
    PreparedParts(p);
    StartsWhenAllCan(PreparedPipe(p));
  }

  lemma PreparedParts(p: Pipe)
    requires PipeOk(p)
    ensures var q := PreparedPipe(p);
      PipeOk(q) && PipeFits(q) && q == p.(uvc := q.uvc) && q.uvc.input.value == Prepare(p.uvc.input.value, UVC_OPTS).0
  {
    hide PipeFits, StreamOk, Prepare, StreamOnEvent, PipelineStart, PumpFits;
    PreparedOk(p);
  }

  lemma GadgetIsOk(p: Pipe)
    requires PipeOk(p)
    ensures StreamOk(p.uvc.input.value) && !p.uvc.input.value.capture
  {
    hide PumpFits, StreamOk;
  }

  lemma GadgetReady(s: Stream)
    requires StreamOk(s) && !s.capture
    ensures CanStart(Prepare(s, UVC_OPTS).0) <==> GadgetStarts(s)
  {
    hide StreamOk, Prepare, Elapse, Granted, Works;
    PrepareKeeps(s, UVC_OPTS);
    if s.state == Idle {
      ImportsWhenGranted(s, 1);
    }
    if s.state == Prepared {
      PreparedTape(s);
    }
  }

  /** Preparing a prepared stream issues the ioctl for the format and no other. */
  lemma PreparedTape(s: Stream)
    requires StreamOk(s) && s.state == Prepared
    ensures Prepare(s, UVC_OPTS).0.drv == Elapse(s.drv)
  {
    hide DriverOk, BuffersOk, Elapse;
  }

  // ---------- STREAMON, STREAMOFF, STREAMON ----------

  /** Preparing a prepared stream for import only overwrites its count. */
  lemma CountOverwritten(s: Stream)
    requires StreamOk(s) && s.state == Prepared && NothingFails(s.drv.tape)
    ensures var t := Prepare(s, UVC_OPTS).0;
      t.state == Prepared && t.count == UVC_OPTS.count && t.buffers == s.buffers
  {
    hide StreamOk, NothingFails, Elapse, Prepare;
    ElapseTape(s.drv);
    PrepareAgain(s, UVC_OPTS);
    PrepareKeeps(s, UVC_OPTS);
  }

  /** A stream between two STREAMONs: only its driver and its state have changed. */
  lemma StoppedAgain(s: Stream)
    requires StreamOk(s) && s.state == Streaming && NothingFails(s.drv.tape)
    ensures var t := Stop(s).0;
      t.state == Prepared && Held(t.drv) == [] && t.buffers == s.buffers && t.count == s.count && CanStart(t)
  {
    hide StreamOk, NothingFails, Elapse, Stop, Held, CanStart;
    ElapseTape(s.drv);
    StopKeeps(s);
    SwitchTapes(s);
    EmptyCanStart(Stop(s).0);
  }

  lemma EmptyCanStart(s: Stream)
    requires s.state == Prepared && Held(s.drv) == [] && NothingFails(s.drv.tape)
    ensures CanStart(s)
  {
    hide StreamOk, NothingFails, Held, Works;
    AlwaysWorks(s.drv.tape, StartIoctls(s));
  }

  /** No ioctl of these streams ever fails. */
  ghost predicate NodeWorks(n: Node) {
    && (n.output.Some? ==> NothingFails(n.output.value.drv.tape))
    && (n.input.Some? ==> NothingFails(n.input.value.drv.tape))
  }

  ghost predicate PipeWorks(p: Pipe) {
    NodeWorks(p.cam) && NodeWorks(p.isp) && NodeWorks(p.enc) && NodeWorks(p.uvc)
  }

  lemma NodeTapes(n: Node)
    requires NodeWorks(n)
    ensures NodeWorks(NodeStart(n).0) && NodeWorks(NodeStop(n).0)
  {
    hide Start, Stop, NothingFails;
    if n.output.Some? {
      SwitchTapes(n.output.value);
      SwitchTapes(Start(n.output.value).0);
    }
    if n.input.Some? {
      SwitchTapes(n.input.value);
    }
  }

  lemma SwitchTapes(s: Stream)
    requires NothingFails(s.drv.tape)
    ensures NothingFails(Start(s).0.drv.tape) && NothingFails(Stop(s).0.drv.tape)
  {
    hide Start, Stop, NothingFails;
    StartTape(s);
    StopTape(s);
    LaterKeeps(Start(s).0.drv.tape, s.drv.tape);
    LaterKeeps(Stop(s).0.drv.tape, s.drv.tape);
  }

  lemma PreparedWorks(p: Pipe)
    requires Shape(p) && PipeWorks(p)
    ensures PipeWorks(PreparedPipe(p))
  {
    hide Prepare, StreamOnEvent, PipelineStart, NothingFails;
    PrepareTape(p.uvc.input.value, UVC_OPTS);
    LaterKeeps(Prepare(p.uvc.input.value, UVC_OPTS).0.drv.tape, p.uvc.input.value.drv.tape);
  }

  /** A start that succeeds: its third pump is fresh, and the gadget's stream differs in driver and state only. */
  lemma FreshlyStarted(p: Pipe)
    requires PipeOk(p) && PipelineStart(p).1 == 0
    ensures var q := PipelineStart(p).0;
      && PipeOk(q) && AllStreaming(q)
      && q.encToUvc == Install(q.enc.output.value, q.uvc.input.value) && Pumpable(q.enc.output.value, q.uvc.input.value)
      && SameStream(p.uvc.input, q.uvc.input)
  {
    hide PipeFits, PairFits, PumpFits, StartNodes, Install, StartCalls, RegisteredAll, StartedOutput, StartedInput;
    StartFits(p);
    StartNodesKeeps(p);
    StartNodesSame(p);
    var q := StartNodes(p).0;
    PairsOf(q);
    PumpableWhenStarted(q.enc.output.value, q.uvc.input.value);
  }

  lemma PumpableWhenStarted(src: Stream, dst: Stream)
    requires PairFits(src, dst) && StartedOutput(src) && StartedInput(dst)
    ensures Pumpable(src, dst)
  {
    hide StreamOk, Create;
    DmabufPump(src, dst);
  }

  lemma StartWorks(p: Pipe)
    requires Shape(p) && PipeWorks(p)
    ensures PipeWorks(PipelineStart(p).0)
  {
    hide NodeWorks, NodeStart, RegisteredAll, StartCalls, Install;
    NodeTapes(p.cam);
    NodeTapes(p.isp);
    NodeTapes(p.enc);
    NodeTapes(p.uvc);
  }

  lemma StopWorks(p: Pipe)
    requires Shape(p) && PipeWorks(p)
    ensures PipeWorks(PipelineStop(p))
  {
    hide NodeWorks, NodeStop, RegisteredAll, StopCalls;
    NodeTapes(p.cam);
    NodeTapes(p.isp);
    NodeTapes(p.enc);
    NodeTapes(p.uvc);
  }

  /** A running pipeline that is stopped, with nothing failing, can be started again. */
  lemma CanStartAgain(p: Pipe)
    requires PipeOk(p) && AllStreaming(p) && PipeWorks(p)
    ensures var q := PipelineStop(p);
      && PipeOk(q) && NoPumps(q) && PipeWorks(q) && FiveCanStart(q)
      && q.uvc.input.value.state == Prepared && q.uvc.input.value.buffers == p.uvc.input.value.buffers
  {
    hide PumpFits, StreamOk, NothingFails, Stop, CanStart, RegisteredAll, StopCalls;
    StopFits(p);
    StopWorks(p);
    StoppedAgain(p.cam.output.value);
    StoppedAgain(p.isp.output.value);
    StoppedAgain(p.isp.input.value);
    StoppedAgain(p.enc.output.value);
    StoppedAgain(p.enc.input.value);
    StoppedAgain(p.uvc.input.value);
  }

  /** The first STREAMON, on a gadget that has no buffers yet: it obtains what its driver grants. */
  lemma FirstStreamOn(p: Pipe)
    requires PipeOk(p) && PipeWorks(p) && FiveCanStart(p) && p.uvc.input.value.state == Idle
    requires GadgetGrant(p.uvc.input.value) > 0
    ensures var q := StreamOnEvent(p).0;
      && PipeOk(q) && AllStreaming(q) && PipeWorks(q)
      && q.uvc.input.value.buffers.Some? && |q.uvc.input.value.buffers.value| == GadgetGrant(p.uvc.input.value)
  {
    hide PipeFits, PumpFits, PipelineStart, StreamOk, NothingFails, GadgetGrant, Prepare, FiveCanStart, StreamOnEvent,
      AllStreaming,
      Works;
    var s := p.uvc.input.value;
    AlwaysWorks(s.drv.tape, GadgetGrant(s) + 3);
    StreamOnExactly(p);
    PreparedParts(p);
    PreparedWorks(p);
    GadgetIsOk(p);
    ImportsWhenGranted(s, 1);
    FreshlyStarted(PreparedPipe(p));
    StartWorks(PreparedPipe(p));
  }

  /** Another one: the count is three, whatever there is. */
  lemma NextStreamOn(p: Pipe)
    requires PipeOk(p) && PipeWorks(p) && FiveCanStart(p) && p.uvc.input.value.state == Prepared
    ensures var q := StreamOnEvent(p).0;
      && PipeOk(q)
      && q.encToUvc == Install(q.enc.output.value, q.uvc.input.value) && Pumpable(q.enc.output.value, q.uvc.input.value)
      && q.uvc.input.value.count == UVC_OPTS.count && q.uvc.input.value.buffers == p.uvc.input.value.buffers
      && PipeWorks(q)
  {
    hide PipeFits, PumpFits, PipelineStart, StreamOk, NothingFails, Elapse, Prepare, FiveCanStart, StreamOnEvent,
      AllStreaming,
      Pumpable, Install, Works;
    ElapseTape(p.uvc.input.value.drv);
    LaterKeeps(Elapse(p.uvc.input.value.drv).tape, p.uvc.input.value.drv.tape);
    AlwaysWorks(Elapse(p.uvc.input.value.drv).tape, 1);
    StreamOnExactly(p);
    PreparedParts(p);
    GadgetIsOk(p);
    CountOverwritten(p.uvc.input.value);
    PreparedWorks(p);
    StartWorks(PreparedPipe(p));
    FreshlyStarted(PreparedPipe(p));
  }

  /**
   How the main loop comes to leave an array although no ioctl ever fails: the host switches streaming
   on, off and on again. The gadget's driver may grant fewer buffers than the three requested; after the
   second STREAMON there is a fresh pump to the gadget for three buffers all the same.
  */
  lemma OnOffOn(p: Pipe)
    requires PipeOk(p) && PipeWorks(p) && FiveCanStart(p) && p.uvc.input.value.state == Idle
    requires GadgetGrant(p.uvc.input.value) > 0
    ensures var (q, ok) := TakeAll(p, [HostOn, HostOff, HostOn]);
      && ok && PipeOk(q) && PipeWorks(q)
      && var (src, dst) := (q.enc.output.value, q.uvc.input.value);
         && Pumpable(src, dst) && q.encToUvc == Install(src, dst)
         && dst.count == 3 && |dst.buffers.value| == GadgetGrant(p.uvc.input.value)
         && (CountCovered(dst) <==> GadgetGrant(p.uvc.input.value) >= 3)
  {
    hide PipeOk, PipeWorks, FiveCanStart, StreamOnEvent, PipelineStop, GadgetGrant, StreamOk, NoPumps, AllStreaming,
      Install, Create;
    PipeShape(p);
    FirstStreamOn(p);
    var q1 := StreamOnEvent(p).0;
    PipeShape(q1);
    CanStartAgain(q1);
    var q2 := PipelineStop(q1);
    PipeShape(q2);
    NextStreamOn(q2);
    ThreeSteps(p);
  }

  /**
   And what becomes of that pump when fewer than three buffers were granted: after any run it
   has forwarded no more frames than that, and the call that would forward one more aborts.
  */
  lemma OnOffOnAborts(p: Pipe, moves: seq<Move>)
    requires PipeOk(p) && PipeWorks(p) && FiveCanStart(p) && p.uvc.input.value.state == Idle
    requires 0 < GadgetGrant(p.uvc.input.value) < 3
    ensures var (q, granted) := (TakeAll(p, [HostOn, HostOff, HostOn]).0, GadgetGrant(p.uvc.input.value));
      var (src, dst) := (q.enc.output.value, q.uvc.input.value);
      && Create(src, dst).Some?
      && var (y, o) := After(src, dst, moves);
         o == Code(0) ==>
           && |y.hist.forwarded| <= granted
           && (|y.hist.forwarded| == granted && WantsToForward(y) ==> PumpCall(y).1 == Abort)
  {
    hide PipeOk, PipeWorks, FiveCanStart, TakeAll, GadgetGrant, Started, Create, Install, After, PumpCall,
      WantsToForward, PlanesFit,
      TooLong;
    PipeShape(p);
    OnOffOn(p);
    var q := TakeAll(p, [HostOn, HostOff, HostOn]).0;
    var src, dst := q.enc.output.value, q.uvc.input.value;
    if After(src, dst, moves).1 == Code(0) {
      AbortsExactly(src, dst, moves);
    }
  }

  lemma ThreeSteps(p: Pipe)
    requires Shape(p)
    ensures TakeAll(p, [HostOn, HostOff, HostOn]) == (StreamOnEvent(PipelineStop(StreamOnEvent(p).0)).0, true)
  {
    hide StreamOnEvent, PipelineStop;
    var p1, rest := StreamOnEvent(p).0, [HostOff, HostOn];
    assert [HostOn, HostOff, HostOn][1..] == rest && rest[1..] == [HostOn];
    assert TakeAll(p1, rest) == TakeAll(PipelineStop(p1), [HostOn]);
  }

  // ---------- which pipelines can abort ----------

  /** What a move of the pump to the gadget is to the pipeline. */
  function StepOf(m: Move): Step {
    match m
    case CallPump => MainLoop(Due(false, false, true))
    case SourceDone(f) => Completion(EncOut, f)
    case DestDone(f) => Completion(UvcIn, f)
  }

  function StepsOf(moves: seq<Move>): (steps: seq<Step>)
    ensures |steps| == |moves|
  {
    seq(|moves|, i requires 0 <= i < |moves| => StepOf(moves[i]))
  }

  ghost function ToGadget(p: Pipe): Sys
    requires Shape(p) && p.encToUvc.Some?
  {
    Sys(p.enc.output.value, p.uvc.input.value, p.encToUvc.value.pump, p.encToUvc.value.hist)
  }

  lemma StepSimulates(p: Pipe, m: Move)
    requires Shape(p) && p.encToUvc.Some?
    ensures var (q, ok) := Take(p, StepOf(m));
      q.encToUvc.Some? && ToGadget(q) == Moved(ToGadget(p), m).0 && (ok <==> Moved(ToGadget(p), m).1 != Abort)
  {
    hide PumpCall, Complete;
  }

  lemma {:induction false} MovesSimulate(p: Pipe, moves: seq<Move>)
    requires Shape(p) && p.encToUvc.Some?
    ensures TakeAll(p, StepsOf(moves)).1 <==> Run(ToGadget(p), moves).1 != Abort
    decreases |moves|
  {
    hide Take, Moved, ToGadget, StepOf;
    if moves != [] {
      assert StepsOf(moves)[1..] == StepsOf(moves[1..]);
      StepSimulates(p, moves[0]);
      if Take(p, StepOf(moves[0])).1 {
        MovesSimulate(Take(p, StepOf(moves[0])).0, moves[1..]);
      }
    }
  }

  lemma {:induction false} TakeAllParts(p: Pipe, first: seq<Step>, second: seq<Step>)
    requires Shape(p) && TakeAll(p, first).1
    ensures TakeAll(p, first + second) == TakeAll(TakeAll(p, first).0, second)
    decreases |first|
  {
    hide Take;
    if first == [] {
      assert first + second == second;
    } else {
      assert (first + second)[1..] == first[1..] + second;
      TakeAllParts(Take(p, first[0]).0, first[1..], second);
    }
  }

  /**
   With fewer than three buffers granted, there are steps after STREAMON, STREAMOFF, STREAMON that
   abort the program.
  */
  lemma OnOffOnCanAbort(p: Pipe)
    requires PipeOk(p) && PipeWorks(p) && FiveCanStart(p) && p.uvc.input.value.state == Idle
    requires 0 < GadgetGrant(p.uvc.input.value) < 3
    ensures exists steps :: !TakeAll(p, [HostOn, HostOff, HostOn] + steps).1
  {
    hide PipeOk, FiveCanStart, TakeAll, GadgetGrant, Started, Create, After, NothingFails;
    PipeShape(p);
    OnOffOn(p);
    var q := TakeAll(p, [HostOn, HostOff, HostOn]).0;
    var src, dst := q.enc.output.value, q.uvc.input.value;
    PlanesOfPair(src, dst);
    MemoriesFit(q);
    DmabufAbortsExactly(src, dst);
    var moves :| After(src, dst, moves).1 == Abort;
    InstalledFresh(q, moves);
    MovesSimulate(q, moves);
    TakeAllParts(p, [HostOn, HostOff, HostOn], StepsOf(moves));
  }

  lemma InstalledFresh(q: Pipe, moves: seq<Move>)
    requires Shape(q) && q.encToUvc == Install(q.enc.output.value, q.uvc.input.value)
    requires Create(q.enc.output.value, q.uvc.input.value).Some?
    ensures q.encToUvc.Some? && Run(ToGadget(q), moves) == After(q.enc.output.value, q.uvc.input.value, moves)
  {
    hide Create, Run;
  }

  lemma MemoriesFit(q: Pipe)
    requires PipeOk(q) && q.enc.output.value.buffers.Some? && q.uvc.input.value.buffers.Some?
    ensures q.enc.output.value.memory == DmabufExport && q.uvc.input.value.memory == DmabufImport
  {
    hide PumpFits, StreamOk;
  }

  /** Once the gadget's stream has left IDLE it never returns there, and until a STREAMON nothing happens to it. */
  lemma GadgetSteps(p: Pipe, step: Step)
    requires PipeOk(p) && Take(p, step).1
    ensures var (s, t) := (p.uvc.input.value, Take(p, step).0.uvc.input.value);
      && (s.state != Idle ==> t.state != Idle)
      && (s.state == Idle && step != HostOn ==> t == s)
      && (s.state == Idle && step == HostOn && Prepare(s, UVC_OPTS).1 == 0 ==> t.state != Idle)
  {
    hide PumpRound, StartNodes, NodeStart, NodeStop, Start, Stop, Prepare, RegisteredAll, StartCalls, StopCalls,
      Install, PumpFits,
      StreamOk, Completed, PipelineStart;
    GadgetIsOk(p);
    var s := p.uvc.input.value;
    match step
    case HostOn =>
      PrepareKeeps(s, UVC_OPTS);
      PreparedParts(p);
      GadgetAfterStart(PreparedPipe(p));
    case HostOff => GadgetAfterStop(p);
    case MainLoop(due) => GadgetAfterRound(p, due);
    case Completion(at, f) => GadgetAfterCompletion(p, at, f);
  }

  lemma GadgetAfterStart(p: Pipe)
    requires PipeOk(p)
    ensures PipelineStart(p).0.uvc.input.value.state == Idle <==> p.uvc.input.value.state == Idle
  {
    hide StartCalls, RegisteredAll, Install, Start, StreamOk, PumpFits;
    GadgetIsOk(p);
    StartKeeps(p.uvc.input.value);
  }

  lemma GadgetAfterStop(p: Pipe)
    requires PipeOk(p)
    ensures var (s, t) := (p.uvc.input.value, PipelineStop(p).uvc.input.value);
      (s.state != Idle ==> t.state != Idle) && (s.state == Idle ==> t == s)
  {
    hide StopCalls, RegisteredAll, StreamOk, PumpFits;
    GadgetIsOk(p);
    StopKeeps(p.uvc.input.value);
  }

  lemma GadgetAfterRound(p: Pipe, due: Due)
    requires PipeOk(p) && PumpRound(p, due).1
    ensures var (s, t) := (p.uvc.input.value, PumpRound(p, due).0.uvc.input.value);
      (s.state != Idle ==> t.state != Idle) && (s.state == Idle ==> t == s)
  {
    hide PumpCall, PipeFits, PumpFits, PumpRound;
    RoundFits(p, due);
    if !NoPumps(p) {
      StreamingWithPumps(p);
      StreamingWithPumps(PumpRound(p, due).0);
    }
  }

  lemma GadgetAfterCompletion(p: Pipe, at: Where, f: Fill)
    requires PipeOk(p)
    ensures var (s, t) := (p.uvc.input.value, Completed(p, at, f).uvc.input.value);
      (s.state != Idle ==> t.state != Idle) && (s.state == Idle ==> t == s)
  {
    hide PipeFits, PumpFits, StreamOk, Complete;
    GadgetIsOk(p);
    FinishedFits(p.uvc.input.value, f);
  }

  /** A driver that grants the gadget three buffers is not asked again: nothing ever aborts. */
  lemma {:induction false} GrantIsEnough(p: Pipe, steps: seq<Step>, s: Stream)
    requires PipeOk(p) && PipeSafe(p) && (p.uvc.input.value.state != Idle || p.uvc.input.value == s)
    requires StreamOk(s) && s.state == Idle && Prepare(s, UVC_OPTS).1 == 0 && GadgetGrant(s) >= 3
    ensures Shape(p) && TakeAll(p, steps).1
    decreases |steps|
  {
    hide PipeOk, PipeSafe, Take, Prepare, GadgetGrant, StreamOk, RoundTrips;
    PipeShape(p);
    GadgetIsOk(p);
    PrepareKeeps(p.uvc.input.value, UVC_OPTS);
    ImportsWhenGranted(s, 0);
    if steps != [] {
      TakeFits(p, steps[0]);
      SafeTake(p, steps[0]);
      GadgetSteps(p, steps[0]);
      GrantIsEnough(Take(p, steps[0]).0, steps[1..], s);
    }
  }

  /**
   Which pipelines can abort, exactly. Of a freshly opened pipeline, whose planes suit, whose other pairs
   have the buffers they claim, and whose drivers fail nothing, some run of host events, completions and
   rounds of the main loop aborts if and only if the gadget's driver grants fewer than three buffers.
  */
  lemma PipelineAbortsExactly(p: Pipe)
    requires PipeOk(p) && PipeSafe(p) && PipeWorks(p) && FiveCanStart(p) && p.uvc.input.value.state == Idle
    requires GadgetGrant(p.uvc.input.value) > 0
    ensures (exists steps :: !TakeAll(p, steps).1) <==> GadgetGrant(p.uvc.input.value) < 3
  {
    hide PipeOk, PipeSafe, FiveCanStart, TakeAll, GadgetGrant, NothingFails, StreamOk, Works, Prepare;
    PipeShape(p);
    var s := p.uvc.input.value;
    if GadgetGrant(s) < 3 {
      OnOffOnCanAbort(p);
    } else {
      GadgetIsOk(p);
      AlwaysWorks(s.drv.tape, GadgetGrant(s) + 2);
      WorksNone(Prepare(s, UVC_OPTS).0.drv.tape);
      ImportsWhenGranted(s, 0);
      forall steps
        ensures TakeAll(p, steps).1
      {
        GrantIsEnough(p, steps, s);
      }
    }
  }
}
