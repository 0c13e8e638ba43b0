/**
 The life of the pipeline: whatever the host switches on and off, however starts and stops fail
 part-way, whatever the drivers grant, and with any frames in flight, a pump only ever exists while
 all six streams are streaming, and the state of every pump is one that a run from a fresh start of
 its two streams reaches. The main loop aborts exactly when one of them does.
*/
module PipelineProofs {
  import opened Common
  import opened V4l2
  import opened Streams
  import opened Pumps
  import opened PumpRuns
  import opened PumpAborts
  import opened Nodes
  import opened Polls
  import opened Pipelines

  // ---------- the invariant of the pipeline ----------

  /** The memory types that the nodes are opened with. */
  predicate MemoryFits(s: Stream) {
    s.buffers.Some? ==> s.memory == if s.capture then DmabufExport else DmabufImport
  }

  /** A consistent source and destination of one pump, streaming or not. */
  ghost predicate PairFits(src: Stream, dst: Stream) {
    && StreamOk(src) && src.capture && CountExact(src) && MemoryFits(src)
    && StreamOk(dst) && !dst.capture && MemoryFits(dst)
  }

  /** A pump, if it exists, has got here by some number of calls from a fresh start of its two streams. */
  ghost predicate PumpFits(src: Stream, dst: Stream, i: Option<Installed>) {
    i.Some? ==> Reached(Sys(src, dst, i.value.pump, i.value.hist))
  }

  predicate AllStreaming(p: Pipe)
    requires Shape(p)
  {
    && p.cam.output.value.state == Streaming
    && p.isp.input.value.state == Streaming && p.isp.output.value.state == Streaming
    && p.enc.input.value.state == Streaming && p.enc.output.value.state == Streaming
    && p.uvc.input.value.state == Streaming
  }

  predicate NoPumps(p: Pipe) {
    p.camToIsp.None? && p.ispToEnc.None? && p.encToUvc.None?
  }

  ghost predicate PipeFits(p: Pipe)
    requires Shape(p)
  {
    && PairFits(p.cam.output.value, p.isp.input.value)
    && PairFits(p.isp.output.value, p.enc.input.value)
    && PairFits(p.enc.output.value, p.uvc.input.value)
  }

  ghost predicate PipeOk(p: Pipe) {
    && Shape(p) && PipeFits(p)
    && (NoPumps(p) || AllStreaming(p))
    && PumpFits(p.cam.output.value, p.isp.input.value, p.camToIsp)
    && PumpFits(p.isp.output.value, p.enc.input.value, p.ispToEnc)
    && PumpFits(p.enc.output.value, p.uvc.input.value, p.encToUvc)
  }

  /**
   The streams as they are opened: preparing an idle stream for the role it plays, if that succeeds,
   makes it fit for its pair, whatever number of buffers the driver granted.
  */
  lemma OpenedFits(src: Stream, dst: Stream, srcOpts: PrepareOpts, dstOpts: PrepareOpts)
    requires StreamOk(src) && src.capture && srcOpts.memory == DmabufExport && Prepare(src, srcOpts).1 == 0
    requires StreamOk(dst) && !dst.capture && dstOpts.memory == DmabufImport && Prepare(dst, dstOpts).1 == 0
    ensures PairFits(Prepare(src, srcOpts).0, Prepare(dst, dstOpts).0) && CountCovered(Prepare(dst, dstOpts).0)
  {
    hide StreamOk, Prepare;
    PrepareKeeps(src, srcOpts);
    PrepareKeeps(dst, dstOpts);
  }

  // ---------- starting ----------

  /** Starting or stopping a node changes nothing that a pair depends on, apart from consistency itself. */
  lemma PairStays(src: Stream, dst: Stream, src': Stream, dst': Stream)
    requires PairFits(src, dst) && StreamOk(src') && StreamOk(dst')
    requires src' == src.(drv := src'.drv, state := src'.state)
    requires dst' == dst.(drv := dst'.drv, state := dst'.state)
    ensures PairFits(src', dst')
  {
    hide StreamOk;
  }

  lemma NodesAreOk(p: Pipe)
    requires Shape(p) && PipeFits(p)
    ensures NodeOk(p.cam) && NodeOk(p.isp) && NodeOk(p.enc) && NodeOk(p.uvc)
  {
    hide StreamOk;
  }

  lemma PipeStays(p: Pipe, q: Pipe)
    requires Shape(p) && Shape(q) && PipeFits(p)
    requires NodeOk(q.cam) && NodeOk(q.isp) && NodeOk(q.enc) && NodeOk(q.uvc)
    requires SameNode(p.cam, q.cam) && SameNode(p.isp, q.isp) && SameNode(p.enc, q.enc) && SameNode(p.uvc, q.uvc)
    ensures PipeFits(q)
  {
    hide PairFits, StreamOk;
    NodeStreams(q);
    PairStays(p.cam.output.value, p.isp.input.value, q.cam.output.value, q.isp.input.value);
    PairStays(p.isp.output.value, p.enc.input.value, q.isp.output.value, q.enc.input.value);
    PairStays(p.enc.output.value, p.uvc.input.value, q.enc.output.value, q.uvc.input.value);
  }

  lemma NodeStreams(q: Pipe)
    requires Shape(q) && NodeOk(q.cam) && NodeOk(q.isp) && NodeOk(q.enc) && NodeOk(q.uvc)
    ensures StreamOk(q.cam.output.value) && StreamOk(q.isp.input.value) && StreamOk(q.isp.output.value)
    ensures StreamOk(q.enc.input.value) && StreamOk(q.enc.output.value) && StreamOk(q.uvc.input.value)
  {}

  lemma SameNodeRefl(n: Node)
    ensures SameNode(n, n)
  {}

  /** All four nodes are tried in order. When all start, each pair of streams is as freshly started. */
  lemma StartNodesKeeps(p: Pipe)
    requires Shape(p) && PipeFits(p)
    ensures var (q, code) := StartNodes(p);
      && PipeFits(q)
      && q == p.(cam := q.cam, isp := q.isp, enc := q.enc, uvc := q.uvc)
      && (p.uvc.input.value.state == Streaming ==> code != 0 && q == p)
      && (code == 0 ==>
            && StartedOutput(q.cam.output.value) && StartedInput(q.isp.input.value)
            && StartedOutput(q.isp.output.value) && StartedInput(q.enc.input.value)
            && StartedOutput(q.enc.output.value) && StartedInput(q.uvc.input.value))
  {
    hide PipeFits, NodeOk, SameNode, StartedOutput, StartedInput, NodeStart;
    NodesAreOk(p);
    SameNodeRefl(p.cam);
    SameNodeRefl(p.isp);
    SameNodeRefl(p.enc);
    NodeStartKeeps(p.uvc);
    NodeStartKeeps(p.enc);
    NodeStartKeeps(p.isp);
    NodeStartKeeps(p.cam);
    PipeStays(p, StartNodes(p).0);
    if p.uvc.input.value.state == Streaming {
      UvcStreaming(p);
    }
  }

  lemma StartNodesSame(p: Pipe)
    requires Shape(p) && PipeFits(p)
    ensures var q := StartNodes(p).0;
      SameNode(p.cam, q.cam) && SameNode(p.isp, q.isp) && SameNode(p.enc, q.enc) && SameNode(p.uvc, q.uvc)
  {
    hide PipeFits, NodeOk, SameNode, NodeStart;
    NodesAreOk(p);
    SameNodeRefl(p.cam);
    SameNodeRefl(p.isp);
    SameNodeRefl(p.enc);
    NodeStartKeeps(p.uvc);
    NodeStartKeeps(p.enc);
    NodeStartKeeps(p.isp);
    NodeStartKeeps(p.cam);
  }

  /** A gadget that is already streaming refuses to start and is not touched. */
  lemma UvcStreaming(p: Pipe)
    requires Shape(p) && p.uvc.input.value.state == Streaming
    ensures NodeStart(p.uvc) == (p.uvc, -EBUSY)
  {}

  lemma InstallFits(src: Stream, dst: Stream)
    requires PairFits(src, dst) && StartedOutput(src) && StartedInput(dst)
    ensures Install(src, dst).Some? && PumpFits(src, dst, Install(src, dst))
  {
    hide StreamOk, Create, Reached;
    DmabufPump(src, dst);
    ReachedFirst(src, dst);
  }

  /**
   A start, from any state: when it succeeds there are three fresh pumps on freshly started streams,
   whatever was in flight before; when it fails neither the pumps nor the registrations are
   touched; and while any pump exists it fails and changes nothing at all.
  */
  lemma StartFits(p: Pipe)
    requires PipeOk(p)
    ensures var (q, code) := PipelineStart(p);
      && PipeOk(q) && q.fds == p.fds
      && (code == 0 ==> NoPumps(p) && AllStreaming(q) && q.camToIsp.Some? && q.ispToEnc.Some? && q.encToUvc.Some?
                        && q.watched == RegisteredAll(p.watched, StartCalls(p.fds)))
      && (code != 0 ==> q == p.(cam := q.cam, isp := q.isp, enc := q.enc, uvc := q.uvc))
      && (!NoPumps(p) ==> code != 0 && q == p)
  {
    hide PipeFits, PairFits, PumpFits, StartNodes, Install, StartCalls, RegisteredAll, StartedOutput, StartedInput;
    StartNodesKeeps(p);
    var (q, code) := StartNodes(p);
    if code == 0 {
      NoPumpWhileStarting(p);
      PairsOf(q);
      InstallFits(q.cam.output.value, q.isp.input.value);
      InstallFits(q.isp.output.value, q.enc.input.value);
      InstallFits(q.enc.output.value, q.uvc.input.value);
      StartedStreams(q);
      FitsIgnoresPumps(q, PipelineStart(p).0);
    } else if NoPumps(p) {
      NoPumpFits(q);
    }
  }

  lemma NoPumpWhileStarting(p: Pipe)
    requires PipeOk(p) && StartNodes(p).1 == 0
    ensures NoPumps(p)
  {
    hide PipeFits, PumpFits, StartNodes;
    if !NoPumps(p) {
      StartNodesKeeps(p);
    }
  }

  lemma PairsOf(p: Pipe)
    requires Shape(p) && PipeFits(p)
    ensures PairFits(p.cam.output.value, p.isp.input.value)
    ensures PairFits(p.isp.output.value, p.enc.input.value)
    ensures PairFits(p.enc.output.value, p.uvc.input.value)
  {}

  lemma StartedStreams(q: Pipe)
    requires Shape(q)
    requires StartedOutput(q.cam.output.value) && StartedInput(q.isp.input.value)
    requires StartedOutput(q.isp.output.value) && StartedInput(q.enc.input.value)
    requires StartedOutput(q.enc.output.value) && StartedInput(q.uvc.input.value)
    ensures AllStreaming(q)
  {}

  lemma FitsIgnoresPumps(p: Pipe, q: Pipe)
    requires Shape(p) && Shape(q) && PipeFits(p)
    requires p.cam == q.cam && p.isp == q.isp && p.enc == q.enc && p.uvc == q.uvc
    ensures PipeFits(q)
  {}

  lemma NoPumpFits(p: Pipe)
    requires Shape(p) && NoPumps(p)
    ensures PumpFits(p.cam.output.value, p.isp.input.value, p.camToIsp)
    ensures PumpFits(p.isp.output.value, p.enc.input.value, p.ispToEnc)
    ensures PumpFits(p.enc.output.value, p.uvc.input.value, p.encToUvc)
  {}

  // ---------- stopping ----------

  /**
   A stop, from any full or partial start: no pump is left, nothing but the gadget is watched, and
   no stream is left streaming unless one of its STREAMOFFs failed.
  */
  lemma StopFits(p: Pipe)
    requires PipeOk(p)
    ensures var q := PipelineStop(p);
      && PipeOk(q) && NoPumps(q)
      && q.watched == RegisteredAll(p.watched, StopCalls(p.fds))
      && (NodeStop(p.cam).1 == 0 && NodeStop(p.isp).1 == 0 && NodeStop(p.enc).1 == 0 && NodeStop(p.uvc).1 == 0 ==>
            && q.cam.output.value.state != Streaming
            && q.isp.input.value.state != Streaming && q.isp.output.value.state != Streaming
            && q.enc.input.value.state != Streaming && q.enc.output.value.state != Streaming
            && q.uvc.input.value.state != Streaming)
  {
    hide PipeFits, NodeOk, SameNode, PumpFits, StopCalls, RegisteredAll, NodeStop;
    NodesAreOk(p);
    NodeStopKeeps(p.uvc);
    NodeStopKeeps(p.enc);
    NodeStopKeeps(p.isp);
    NodeStopKeeps(p.cam);
    var q := PipelineStop(p);
    PipeStays(p, q);
    NoPumpFits(q);
  }

  // ---------- the gadget is prepared at every STREAMON ----------

  /**
   Preparing the gadget's stream keeps it consistent, whatever the driver grants; while it streams,
   nothing happens.
  */
  lemma PrepareUvc(s: Stream)
    requires StreamOk(s) && !s.capture && MemoryFits(s)
    ensures var t := Prepare(s, UVC_OPTS).0;
      && StreamOk(t) && !t.capture && t.mplane == s.mplane && MemoryFits(t)
      && (s.state == Streaming ==> t == s)
  {
    hide StreamOk, QueryAll;
    PrepareKeeps(s, UVC_OPTS);
    FormatSame(s, UVC_OPTS.format);
    StateAndBuffers(s);
    StateAndBuffers(Prepare(s, UVC_OPTS).0);
  }

  lemma FormatSame(s: Stream, wanted: bool)
    ensures var t := SetFormat(s, wanted).0; t == s.(drv := t.drv, numPlanes := t.numPlanes)
  {}

  lemma StateAndBuffers(s: Stream)
    requires StreamOk(s)
    ensures s.buffers.Some? <==> s.state != Idle
  {}

  /** The pipeline between uvcPrepare and pipelineStart. */
  function PreparedPipe(p: Pipe): (q: Pipe)
    requires Shape(p)
    ensures Shape(q) && StreamOnEvent(p) == PipelineStart(q)
  {
    p.(uvc := p.uvc.(input := Some(Prepare(p.uvc.input.value, UVC_OPTS).0)))
  }

  lemma StreamingWithPumps(p: Pipe)
    requires PipeOk(p) && !NoPumps(p)
    ensures p.uvc.input.value.state == Streaming
  {
    hide PipeFits, PumpFits;
  }

  lemma PreparedOk(p: Pipe)
    requires PipeOk(p)
    ensures PipeOk(PreparedPipe(p)) && (!NoPumps(p) ==> PreparedPipe(p) == p)
  {
    hide StreamOk, Prepare, PipelineStart, Reached, StreamOnEvent;
    PrepareUvc(p.uvc.input.value);
    if !NoPumps(p) {
      StreamingWithPumps(p);
    }
  }

  lemma StreamOnFits(p: Pipe)
    requires PipeOk(p)
    ensures PipeOk(StreamOnEvent(p).0)
    ensures !NoPumps(p) ==> StreamOnEvent(p) == (p, StreamOnEvent(p).1) && StreamOnEvent(p).1 != 0
  {
    hide PipeOk, PipelineStart, StreamOnEvent, NoPumps;
    PipeShape(p);
    PreparedOk(p);
    StartFits(PreparedPipe(p));
  }

  // ---------- the main loop ----------

  /** One pump call keeps its own pair and pump in order; the other streams are not part of it. */
  lemma PumpedFits(src: Stream, dst: Stream, i: Option<Installed>, due: bool)
    requires PairFits(src, dst) && PumpFits(src, dst, i)
    ensures var (s, d, j, ok) := Pumped(src, dst, i, due);
      && PairFits(s, d) && (ok ==> PumpFits(s, d, j)) && j.Some? == i.Some?
      && SameExtent(src, s) && SameExtent(dst, d)
  {
    hide StreamOk, PumpCall, Inv, Reached;
    if i.Some? && due {
      var y := Sys(src, dst, i.value.pump, i.value.hist);
      ReachedInv(y);
      PumpCallInv(y, false);
      CallParts(y);
      StreamsReady(PumpCall(y).0);
      if PumpCall(y).1 != Abort {
        ReachedMove(y, CallPump);
      }
    }
  }

  /** What a round of pump calls may change. */
  ghost predicate RoundKeeps(p: Pipe, q: Pipe) {
    && q == p.(cam := q.cam, isp := q.isp, enc := q.enc, uvc := q.uvc,
               camToIsp := q.camToIsp, ispToEnc := q.ispToEnc, encToUvc := q.encToUvc)
    && (NoPumps(p) <==> NoPumps(q)) && (NoPumps(p) ==> q == p)
  }

  lemma NothingPumped(src: Stream, dst: Stream, due: bool)
    ensures Pumped(src, dst, None, due) == (src, dst, None, true)
  {}

  lemma RoundCamFits(p: Pipe, due: bool)
    requires PipeOk(p)
    ensures var (q, ok) := RoundCam(p, due);
      (ok ==> PipeOk(q)) && RoundKeeps(p, q) && (NoPumps(p) ==> ok)
  {
    hide PairFits, PumpFits, Pumped;
    PumpedFits(p.cam.output.value, p.isp.input.value, p.camToIsp, due);
    NothingPumped(p.cam.output.value, p.isp.input.value, due);
  }

  lemma RoundIspFits(p: Pipe, due: bool)
    requires PipeOk(p)
    ensures var (q, ok) := RoundIsp(p, due);
      (ok ==> PipeOk(q)) && RoundKeeps(p, q) && (NoPumps(p) ==> ok)
  {
    hide PairFits, PumpFits, Pumped;
    PumpedFits(p.isp.output.value, p.enc.input.value, p.ispToEnc, due);
    NothingPumped(p.isp.output.value, p.enc.input.value, due);
  }

  lemma RoundEncFits(p: Pipe, due: bool)
    requires PipeOk(p)
    ensures var (q, ok) := RoundEnc(p, due);
      (ok ==> PipeOk(q)) && RoundKeeps(p, q) && (NoPumps(p) ==> ok)
  {
    hide PairFits, PumpFits, Pumped;
    PumpedFits(p.enc.output.value, p.uvc.input.value, p.encToUvc, due);
    NothingPumped(p.enc.output.value, p.uvc.input.value, due);
  }

  /** A round of the main loop keeps all three pumps in order: each call only touches its own two streams. */
  lemma RoundFits(p: Pipe, due: Due)
    requires PipeOk(p)
    ensures var (q, ok) := PumpRound(p, due);
      (ok ==> PipeOk(q)) && RoundKeeps(p, q) && (NoPumps(p) ==> ok)
  {
    hide PipeOk, RoundCam, RoundIsp, RoundEnc;
    PipeShape(p);
    RoundCamFits(p, due.camToIsp);
    var p1 := RoundCam(p, due.camToIsp).0;
    if RoundCam(p, due.camToIsp).1 {
      RoundIspFits(p1, due.ispToEnc);
      var p2 := RoundIsp(p1, due.ispToEnc).0;
      if RoundIsp(p1, due.ispToEnc).1 {
        RoundEncFits(p2, due.encToUvc);
      }
    }
  }

  // ---------- completions ----------

  lemma FinishedFits(s: Stream, f: Fill)
    requires StreamOk(s)
    ensures StreamOk(Finished(s, f)) && Finished(s, f) == s.(drv := Finished(s, f).drv)
    ensures Finished(s, f).drv.tape == s.drv.tape
    ensures s.state != Streaming ==> Finished(s, f) == s
  {
    hide Complete, DriverOk, BuffersOk;
    CompleteKeeps(s.drv, f);
    IdleStays(s.drv, f);
  }

  lemma IdleStays(d: Driver, f: Fill)
    ensures !d.streaming ==> Complete(d, f) == d
  {}

  /** A completion on either side keeps the pair and its pump in order. */
  lemma CompletionFits(src: Stream, dst: Stream, i: Option<Installed>, f: Fill)
    requires PairFits(src, dst) && PumpFits(src, dst, i)
    ensures PairFits(Finished(src, f), dst) && PumpFits(Finished(src, f), dst, i)
    ensures PairFits(src, Finished(dst, f)) && PumpFits(src, Finished(dst, f), i)
  {
    hide StreamOk, Complete, Reached;
    FinishedFits(src, f);
    FinishedFits(dst, f);
    if i.Some? {
      var y := Sys(src, dst, i.value.pump, i.value.hist);
      ReachedMove(y, SourceDone(f));
      ReachedMove(y, DestDone(f));
    }
  }

  lemma CompletedFits(p: Pipe, at: Where, f: Fill)
    requires PipeOk(p)
    ensures PipeOk(Completed(p, at, f)) && (NoPumps(p) <==> NoPumps(Completed(p, at, f)))
    ensures Completed(p, at, f).watched == p.watched && Completed(p, at, f).fds == p.fds
  {
    hide PairFits, PumpFits, Complete;
    CompletionFits(p.cam.output.value, p.isp.input.value, p.camToIsp, f);
    CompletionFits(p.isp.output.value, p.enc.input.value, p.ispToEnc, f);
    CompletionFits(p.enc.output.value, p.uvc.input.value, p.encToUvc, f);
  }

  // ---------- when the main loop aborts ----------

  /**
   A pump whose next call aborts: it has a frame to forward, and either the pass function rejects the
   number of planes, or `buffers_count` of the destination exceeds its buffers and as many frames as
   there are buffers have been forwarded.
  */
  ghost predicate Trips(src: Stream, dst: Stream, i: Option<Installed>) {
    i.Some? && var y := Sys(src, dst, i.value.pump, i.value.hist);
    && WantsToForward(y) && dst.count > 0
    && (!(dst.mplane || PlanesCount(src) == 1)
        || (dst.buffers.Some? && |dst.buffers.value| < dst.count && |i.value.hist.forwarded| == |dst.buffers.value|))
  }

  lemma PumpedAborts(src: Stream, dst: Stream, i: Option<Installed>, due: bool)
    requires PairFits(src, dst) && PumpFits(src, dst, i)
    ensures !Pumped(src, dst, i, due).3 <==> due && Trips(src, dst, i)
  {
    hide StreamOk, PumpCall, Reached, WantsToForward;
    if i.Some? && due {
      var y := Sys(src, dst, i.value.pump, i.value.hist);
      ReachedInv(y);
      StreamsReady(y);
      ReachedAborts(y);
    }
  }

  /** What a round asks of the three pumps; each of them is asked in the state before the round. */
  ghost predicate RoundTrips(p: Pipe, due: Due)
    requires Shape(p)
  {
    || (due.camToIsp && Trips(p.cam.output.value, p.isp.input.value, p.camToIsp))
    || (due.ispToEnc && Trips(p.isp.output.value, p.enc.input.value, p.ispToEnc))
    || (due.encToUvc && Trips(p.enc.output.value, p.uvc.input.value, p.encToUvc))
  }

  /**
   Exactly when a round aborts: when one of the pumps that are due trips. The pumps do not influence
   one another within a round, although neighbours share a node.
  */
  lemma RoundAbortsExactly(p: Pipe, due: Due)
    requires PipeOk(p)
    ensures !PumpRound(p, due).1 <==> RoundTrips(p, due)
  {
    hide PairFits, PumpFits, Pumped, Trips;
    PumpedAborts(p.cam.output.value, p.isp.input.value, p.camToIsp, due.camToIsp);
    PumpedAborts(p.isp.output.value, p.enc.input.value, p.ispToEnc, due.ispToEnc);
    PumpedAborts(p.enc.output.value, p.uvc.input.value, p.encToUvc, due.encToUvc);
    if RoundCam(p, due.camToIsp).1 {
      var p1 := RoundCam(p, due.camToIsp).0;
      assert RoundIsp(p1, due.ispToEnc).1 == Pumped(p.isp.output.value, p.enc.input.value, p.ispToEnc, due.ispToEnc).3;
      if RoundIsp(p1, due.ispToEnc).1 {
        var p2 := RoundIsp(p1, due.ispToEnc).0;
        assert RoundEnc(p2, due.encToUvc).1 == Pumped(p.enc.output.value, p.uvc.input.value, p.encToUvc,
          due.encToUvc).3;
      }
    }
  }

  // ---------- whole runs ----------

  lemma TakeFits(p: Pipe, step: Step)
    requires PipeOk(p)
    ensures Take(p, step).1 ==> PipeOk(Take(p, step).0)
    ensures !Take(p, step).1 <==> step.MainLoop? && RoundTrips(p, step.due)
  {
    hide PipeOk, PipelineStop, PumpRound, StreamOnEvent, Completed, RoundTrips;
    PipeShape(p);
    match step
    case HostOn => StreamOnFits(p);
    case HostOff => StopFits(p);
    case MainLoop(due) => RoundFits(p, due); RoundAbortsExactly(p, due);
    case Completion(at, f) => CompletedFits(p, at, f);
  }

  /** Step k is reached, and it is a round that finds a pump that trips. */
  ghost predicate TripsAt(p: Pipe, steps: seq<Step>, k: nat)
    requires Shape(p) && k < |steps|
  {
    TakeAll(p, steps[..k]).1 && steps[k].MainLoop? && RoundTrips(TakeAll(p, steps[..k]).0, steps[k].due)
  }

  lemma TripsLater(p: Pipe, steps: seq<Step>, k: nat)
    requires Shape(p) && steps != [] && Take(p, steps[0]).1 && k < |steps| - 1
    ensures TripsAt(p, steps, k + 1) <==> TripsAt(Take(p, steps[0]).0, steps[1..], k)
  {
    hide Take, RoundTrips;
    assert steps[..k + 1][1..] == steps[1..][..k];
  }

  /**
   The whole life: over any list of STREAMONs, STREAMOFFs, completions and rounds of the main loop, with starts
   and stops failing anywhere and whatever the drivers grant, a pump only exists while all six streams
   are streaming, and every pump that exists is in a state that a run from a fresh start reaches. The
   program aborts if and only if one of the rounds finds a pump that trips.
  */
  lemma {:induction false} PipelineLives(p: Pipe, steps: seq<Step>)
    requires PipeOk(p)
    ensures Shape(p) && (TakeAll(p, steps).1 ==> PipeOk(TakeAll(p, steps).0))
    ensures !TakeAll(p, steps).1 <==> exists k :: 0 <= k < |steps| && TripsAt(p, steps, k)
    decreases |steps|
  {
    hide PipeOk, Take, RoundTrips, TripsAt;
    PipeShape(p);
    if steps != [] {
      TakeFits(p, steps[0]);
      FirstTrips(p, steps);
      if Take(p, steps[0]).1 {
        var p1, rest := Take(p, steps[0]).0, steps[1..];
        PipelineLives(p1, rest);
        forall k | 0 <= k < |rest|
          ensures TripsAt(p, steps, k + 1) <==> TripsAt(p1, rest, k)
        {
          TripsLater(p, steps, k);
        }
        if k :| 0 <= k < |steps| && TripsAt(p, steps, k) {
          assert TripsAt(p1, rest, k - 1);
        }
        if k :| 0 <= k < |rest| && TripsAt(p1, rest, k) {
          assert TripsAt(p, steps, k + 1);
        }
      }
    }
  }

  lemma FirstTrips(p: Pipe, steps: seq<Step>)
    requires Shape(p) && steps != []
    ensures TripsAt(p, steps, 0) <==> steps[0].MainLoop? && RoundTrips(p, steps[0].due)
  {
    hide RoundTrips;
    assert steps[..0] == [];
  }

  // ---------- when it never aborts ----------

  /** The pass function accepts the planes, and `buffers_count` does not exceed the destination's buffers. */
  ghost predicate PairSafe(src: Stream, dst: Stream) {
    CountCovered(dst) && (dst.mplane || PlanesCount(src) == 1)
  }

  ghost predicate PipeSafe(p: Pipe)
    requires Shape(p)
  {
    && PairSafe(p.cam.output.value, p.isp.input.value)
    && PairSafe(p.isp.output.value, p.enc.input.value)
    && PairSafe(p.enc.output.value, p.uvc.input.value)
    && (p.uvc.input.value.buffers.Some? ==> UVC_OPTS.count <= |p.uvc.input.value.buffers.value|)
  }

  /** If this preparation obtains buffers, it obtains at least as many as it asks for. */
  ghost predicate GrantsEnough(s: Stream) {
    var (t, code) := Prepare(s, UVC_OPTS);
    code == 0 && t.buffers.Some? ==> UVC_OPTS.count <= |t.buffers.value|
  }

  /** Whenever a STREAMON obtains buffers for the gadget in this run, it obtains enough. */
  ghost predicate GrantsEnoughAll(p: Pipe, steps: seq<Step>)
    requires Shape(p)
    decreases |steps|
  {
    steps != [] ==>
      && (steps[0] == HostOn ==> GrantsEnough(p.uvc.input.value))
      && GrantsEnoughAll(Take(p, steps[0]).0, steps[1..])
  }

  lemma SafeRound(p: Pipe, due: Due)
    requires PipeOk(p) && PipeSafe(p)
    ensures PumpRound(p, due).1 && PipeSafe(PumpRound(p, due).0)
  {
    hide PairFits, PumpFits, WantsToForward, Pumped;
    RoundAbortsExactly(p, due);
    PumpedFits(p.cam.output.value, p.isp.input.value, p.camToIsp, due.camToIsp);
    PumpedFits(p.isp.output.value, p.enc.input.value, p.ispToEnc, due.ispToEnc);
    PumpedFits(p.enc.output.value, p.uvc.input.value, p.encToUvc, due.encToUvc);
  }

  lemma SafePrepare(s: Stream)
    requires StreamOk(s) && !s.capture && MemoryFits(s) && CountCovered(s) && GrantsEnough(s)
    requires s.buffers.Some? ==> UVC_OPTS.count <= |s.buffers.value|
    ensures var t := Prepare(s, UVC_OPTS).0;
      CountCovered(t) && t.mplane == s.mplane && (t.buffers.Some? ==> UVC_OPTS.count <= |t.buffers.value|)
  {
    hide StreamOk, QueryAll;
    PrepareKeeps(s, UVC_OPTS);
    FormatSame(s, UVC_OPTS.format);
    StateAndBuffers(s);
    StateAndBuffers(Prepare(s, UVC_OPTS).0);
  }

  /** Starting and stopping nodes changes nothing that safety depends on. */
  lemma SafeStays(p: Pipe, q: Pipe)
    requires Shape(p) && Shape(q) && PipeSafe(p)
    requires SameNode(p.cam, q.cam) && SameNode(p.isp, q.isp) && SameNode(p.enc, q.enc) && SameNode(p.uvc, q.uvc)
    ensures PipeSafe(q)
  {}

  lemma SafeTake(p: Pipe, step: Step)
    requires PipeOk(p) && PipeSafe(p) && (step == HostOn ==> GrantsEnough(p.uvc.input.value))
    ensures Take(p, step).1 && PipeSafe(Take(p, step).0)
  {
    hide PumpFits, StreamOk, PumpRound, StartNodes, NodeStop, Prepare, GrantsEnough, Install, RegisteredAll, StartCalls,
      StopCalls,
      SameNode, NodeOk, PairSafe, Completed;
    match step
    case HostOn =>
      PreparedOk(p);
      var q := PreparedPipe(p);
      SafePrepared(p);
      StartNodesSame(q);
      SafeStays(q, StartNodes(q).0);
      SafeStays(q, PipelineStart(q).0);
    case HostOff =>
      NodesAreOk(p);
      NodeStopKeeps(p.uvc);
      NodeStopKeeps(p.enc);
      NodeStopKeeps(p.isp);
      NodeStopKeeps(p.cam);
      SafeStays(p, PipelineStop(p));
    case MainLoop(due) => SafeRound(p, due);
    case Completion(at, f) => SafeCompleted(p, at, f);
  }

  lemma SafeCompleted(p: Pipe, at: Where, f: Fill)
    requires Shape(p) && PipeSafe(p)
    ensures PipeSafe(Completed(p, at, f))
  {
    hide Complete;
  }

  lemma SafePrepared(p: Pipe)
    requires PipeOk(p) && PipeSafe(p) && GrantsEnough(p.uvc.input.value)
    ensures PipeSafe(PreparedPipe(p))
  {
    hide StreamOk, Prepare, GrantsEnough, PumpFits, StreamOnEvent, PipelineStart;
    SafePrepare(p.uvc.input.value);
  }

  /**
   The program never aborts, over any steps, if the planes suit the pairs and every STREAMON that
   obtains buffers for the gadget obtains the three that it asks for.
  */
  lemma {:induction false} PipelineNeverAborts(p: Pipe, steps: seq<Step>)
    requires PipeOk(p) && PipeSafe(p) && GrantsEnoughAll(p, steps)
    ensures TakeAll(p, steps).1
    decreases |steps|
  {
    hide PipeOk, PipeSafe, Take, GrantsEnough;
    PipeShape(p);
    if steps != [] {
      TakeFits(p, steps[0]);
      SafeTake(p, steps[0]);
      PipelineNeverAborts(Take(p, steps[0]).0, steps[1..]);
    }
  }

  lemma PipeShape(p: Pipe)
    requires PipeOk(p)
    ensures Shape(p)
  {}

  /** A pipeline whose streams are prepared and that has no pump yet. */
  lemma OpenedOk(p: Pipe, q: Pipe)
    requires Shape(p) && PipeFits(p) && NoPumps(q)
    requires q.cam == p.cam && q.isp == p.isp && q.enc == p.enc && q.uvc == p.uvc
    ensures PipeOk(q)
  {
    hide PairFits;
  }

  // ---------- what is watched ----------

  predicate DistinctFds(f: Fds) {
    && f.cam != f.ispIn && f.cam != f.ispOut && f.cam != f.enc && f.cam != f.uvc
    && f.ispIn != f.ispOut && f.ispIn != f.enc && f.ispIn != f.uvc
    && f.ispOut != f.enc && f.ispOut != f.uvc && f.enc != f.uvc
  }

  /** What pipelineCreate registers. */
  function OnlyUvc(f: Fds): map<int, Watch> {
    map[f.uvc := Watch(EPOLLET | EPOLLPRI, UVC_EVENTS_BIT)]
  }

  function FullWatch(f: Fds): map<int, Watch> {
    map[f.cam := Watch(EPOLLET | EPOLLIN | EPOLLOUT, CAM_TO_ISP_BIT),
        f.ispIn := Watch(EPOLLET | EPOLLIN | EPOLLOUT, CAM_TO_ISP_BIT),
        f.ispOut := Watch(EPOLLET | EPOLLIN | EPOLLOUT, ISP_TO_ENC_BIT),
        f.enc := Watch(EPOLLET | EPOLLIN | EPOLLOUT, ISP_TO_ENC_BIT | ENC_TO_UVC_BIT),
        f.uvc := Watch(EPOLLET | EPOLLIN | EPOLLOUT | EPOLLPRI, ENC_TO_UVC_BIT | UVC_EVENTS_BIT)]
  }

  /** Exactly the right descriptors are watched for exactly the right bits. */
  predicate WatchesRight(p: Pipe) {
    p.watched == if NoPumps(p) then OnlyUvc(p.fds) else FullWatch(p.fds)
  }

  /** What the flags of the calls ask of epoll. */
  lemma AskedEvents()
    ensures Mask(POLLIN_FD_READ | POLLIN_FD_WRITE) == EPOLLET | EPOLLIN | EPOLLOUT
    ensures Mask(POLLIN_FD_EXCEPT | POLLIN_FD_WRITE | POLLIN_FD_READ) == EPOLLET | EPOLLIN | EPOLLOUT | EPOLLPRI
    ensures Mask(POLLIN_FD_EXCEPT) == EPOLLET | EPOLLPRI
    ensures POLLIN_FD_READ | POLLIN_FD_WRITE != 0 && POLLIN_FD_EXCEPT | POLLIN_FD_WRITE | POLLIN_FD_READ != 0
  {}

  lemma FirstWatch(f: Fds)
    ensures Registered(map[], f.uvc, UVC_WATCH) == OnlyUvc(f)
  {
    hide Mask;
    AskedEvents();
  }

  lemma FiveCalls(m: map<int, Watch>, a: Call, b: Call, c: Call, d: Call, e: Call)
    ensures RegisteredAll(m, [a, b, c, d, e])
      == Registered(Registered(Registered(Registered(Registered(m, a.fd, a.watch), b.fd, b.watch), c.fd, c.watch),
                               d.fd, d.watch), e.fd, e.watch)
  {
    hide Registered;
    var m1 := Registered(m, a.fd, a.watch);
    var m2 := Registered(m1, b.fd, b.watch);
    var m3 := Registered(m2, c.fd, c.watch);
    OneCall(m, a, [b, c, d, e]);
    OneCall(m1, b, [c, d, e]);
    OneCall(m2, c, [d, e]);
    OneCall(m3, d, [e]);
    OneCall(Registered(m3, d.fd, d.watch), e, []);
  }

  lemma OneCall(m: map<int, Watch>, c: Call, rest: seq<Call>)
    ensures RegisteredAll(m, [c] + rest) == RegisteredAll(Registered(m, c.fd, c.watch), rest)
  {
    hide Registered;
    assert ([c] + rest)[1..] == rest;
  }

  lemma StartWatches(m: map<int, Watch>, f: Fds)
    requires DistinctFds(f) && m == OnlyUvc(f)
    ensures RegisteredAll(m, StartCalls(f)) == FullWatch(f)
  {
    hide Mask;
    var c := StartCalls(f);
    AskedEvents();
    FiveCalls(m, c[0], c[1], c[2], c[3], c[4]);
  }

  lemma StopWatches(m: map<int, Watch>, f: Fds)
    requires DistinctFds(f) && (m == OnlyUvc(f) || m == FullWatch(f))
    ensures RegisteredAll(m, StopCalls(f)) == OnlyUvc(f)
  {
    hide Mask;
    AskedEvents();
    var c := StopCalls(f);
    FiveCalls(m, c[0], c[1], c[2], c[3], c[4]);
  }

  lemma TakeWatches(p: Pipe, step: Step)
    requires PipeOk(p) && DistinctFds(p.fds) && WatchesRight(p)
    ensures WatchesRight(Take(p, step).0) && Take(p, step).0.fds == p.fds
  {
    hide PipeFits, PumpFits, AllStreaming, PipelineStart, PumpRound, Prepare, StartCalls, StopCalls, RegisteredAll,
      OnlyUvc, FullWatch, DistinctFds, NodeStop, Completed;
    match step
    case HostOn =>
      PreparedOk(p);
      StartFits(PreparedPipe(p));
      if NoPumps(p) {
        StartWatches(p.watched, p.fds);
      }
    case HostOff =>
      StopFits(p);
      StopWatches(p.watched, p.fds);
    case MainLoop(due) => RoundFits(p, due);
    case Completion(at, f) => CompletedFits(p, at, f);
  }

  /**
   Pumps are never leaked, and no registration is: at any time the five descriptors are watched, for
   their pumps' bits, exactly while the pumps exist; otherwise only the gadget's events are.
  */
  lemma {:induction false} WatchesFollowPumps(p: Pipe, steps: seq<Step>)
    requires PipeOk(p) && DistinctFds(p.fds) && WatchesRight(p)
    ensures Shape(p) && WatchesRight(TakeAll(p, steps).0)
    decreases |steps|
  {
    hide PipeOk, Take, WatchesRight, DistinctFds, RoundTrips;
    PipeShape(p);
    if steps != [] {
      TakeFits(p, steps[0]);
      TakeWatches(p, steps[0]);
      if Take(p, steps[0]).1 {
        WatchesFollowPumps(Take(p, steps[0]).0, steps[1..]);
      }
    }
  }

  // ---------- who is woken up ----------

  predicate ReportedOn(ready: seq<Ready>, a: int, b: int) {
    exists r :: r in ready && Tells(r.revents) && (r.fd == a || r.fd == b)
  }

  /** A descriptor is registered for a bit of the mask exactly when it is a or b. */
  ghost predicate BitOf(m: map<int, Watch>, mask: bv32, a: int, b: int) {
    forall fd :: fd in m ==> (Test(m[fd].bits, mask) <==> fd == a || fd == b)
  }

  lemma WokenBy(m: map<int, Watch>, ready: seq<Ready>, mask: bv32, a: int, b: int)
    requires BitOf(m, mask, a, b) && forall r :: r in ready ==> r.fd in m
    ensures Test(Gathered(m, ready, 0), mask) <==> ReportedOn(ready, a, b)
  {
    hide Tells, Gathered, Test;
    GatheredExactly(m, ready, 0, mask);
    NoBits(mask);
    forall r | r in ready
      ensures Reports(m, r, mask) <==> Tells(r.revents) && (r.fd == a || r.fd == b)
    {}
  }

  lemma NoBits(mask: bv32)
    ensures !Test(0, mask)
  {}

  /**
   While the pumps exist, a poll wakes each pump exactly when one of the two descriptors at its ends
   has reported something, and the gadget's events are looked at exactly when the gadget has.
  */
  lemma PumpsWakeUp(f: Fds, ready: seq<Ready>)
    requires DistinctFds(f) && forall r :: r in ready ==> r.fd in FullWatch(f)
    ensures var bits := Gathered(FullWatch(f), ready, 0);
      && (bits & 1 != 0 <==> ReportedOn(ready, f.cam, f.ispIn))
      && (bits & 2 != 0 <==> ReportedOn(ready, f.ispOut, f.enc))
      && (bits & 4 != 0 <==> ReportedOn(ready, f.enc, f.uvc))
      && (bits & 8 != 0 <==> ReportedOn(ready, f.uvc, f.uvc))
  {
    hide Gathered, Mask, ReportedOn;
    var m := FullWatch(f);
    WokenBy(m, ready, CAM_TO_ISP_BIT, f.cam, f.ispIn);
    WokenBy(m, ready, ISP_TO_ENC_BIT, f.ispOut, f.enc);
    WokenBy(m, ready, ENC_TO_UVC_BIT, f.enc, f.uvc);
    WokenBy(m, ready, UVC_EVENTS_BIT, f.uvc, f.uvc);
  }

  // ---------- a capture stream that is wedged ----------

  ghost predicate SomeWedged(p: Pipe)
    requires Shape(p)
  {
    Wedged(p.cam.output.value) || Wedged(p.isp.output.value) || Wedged(p.enc.output.value)
  }

  lemma NodeWedged(n: Node)
    requires n.output.Some? && Wedged(n.output.value)
    ensures NodeStart(n).1 != 0 && Wedged(NodeStart(n).0.output.value) && Wedged(NodeStop(n).0.output.value)
  {
    hide Wedged, Start, Stop;
    WedgedStays(n.output.value, OpStart);
    WedgedStays(n.output.value, OpStop);
  }

  lemma TakeWedged(p: Pipe, step: Step)
    requires PipeOk(p) && SomeWedged(p)
    ensures Take(p, step).1 && SomeWedged(Take(p, step).0) && NoPumps(Take(p, step).0)
  {
    hide PipeFits, PumpFits, Wedged, NodeStart, NodeStop, Prepare, PumpRound, Completed;
    WedgedHasNoPumps(p);
    if Wedged(p.cam.output.value) {
      NodeWedged(p.cam);
    }
    if Wedged(p.isp.output.value) {
      NodeWedged(p.isp);
    }
    if Wedged(p.enc.output.value) {
      NodeWedged(p.enc);
    }
    if step.MainLoop? {
      RoundFits(p, step.due);
    }
    if step.Completion? {
      CompletedWedged(p, step.at, step.fill);
      CompletedFits(p, step.at, step.fill);
    }
  }

  /** A wedged stream does not stream, so nothing completes there. */
  lemma CompletedWedged(p: Pipe, at: Where, f: Fill)
    requires PipeOk(p) && SomeWedged(p)
    ensures SomeWedged(Completed(p, at, f))
  {
    hide PipeFits, PumpFits, StreamOk, Complete;
    if Wedged(p.cam.output.value) {
      FinishedFits(p.cam.output.value, f);
    }
    if Wedged(p.isp.output.value) {
      FinishedFits(p.isp.output.value, f);
    }
    if Wedged(p.enc.output.value) {
      FinishedFits(p.enc.output.value, f);
    }
  }

  lemma WedgedHasNoPumps(p: Pipe)
    requires PipeOk(p) && SomeWedged(p)
    ensures NoPumps(p)
  {
    hide PipeFits, PumpFits, StreamOk;
  }

  /**
   A start that fails half-way can be fatal: once a capture stream is wedged, no list of STREAMONs
   and STREAMOFFs ever brings a pump up again.
  */
  lemma {:induction false} WedgedPipelineStaysDown(p: Pipe, steps: seq<Step>)
    requires PipeOk(p) && SomeWedged(p)
    ensures TakeAll(p, steps).1 && NoPumps(TakeAll(p, steps).0) && SomeWedged(TakeAll(p, steps).0)
    decreases |steps|
  {
    hide PipeOk, Take, SomeWedged, RoundTrips;
    if steps == [] {
      WedgedHasNoPumps(p);
    } else {
      PipeShape(p);
      TakeFits(p, steps[0]);
      TakeWedged(p, steps[0]);
      WedgedPipelineStaysDown(Take(p, steps[0]).0, steps[1..]);
    }
  }
}
