/**
 When a pump aborts, exactly. Of all the ASSERTs and array accesses of a call only two can go wrong,
 both in step 3: the pass function rejects the number of planes (or, when it copies, the length), or
 `buffers_count` says that the destination has more buffers than it has, and the ring has come to an
 index beyond them.
*/
module PumpAborts {
  import opened Common
  import opened V4l2
  import opened Streams
  import opened Rings
  import opened Pumps
  import opened PumpOwnership
  import opened PumpFrames
  import opened PumpMemory
  import opened PumpFifo
  import opened PumpRuns

  /** A pump that cannot abort: it has nothing to do, or its planes suit and its indices are those of buffers. */
  predicate Harmless(y: Sys) {
    || y.pump.acquired == []
    || (PassSafe(y.pump.kind, y.pump.planes) && y.dst.buffers.Some? && |y.pump.acquired| <= |y.dst.buffers.value|)
  }

  /** A pair whose pump cannot abort; PumpHazards.dfy shows that on any other pair it can. */
  ghost predicate SafePair(src: Stream, dst: Stream) {
    && Pumpable(src, dst)
    && (dst.count == 0
        || (CountCovered(dst) && PassSafe(Create(src, dst).value.kind, Create(src, dst).value.planes)))
  }

  lemma SafeStep(y: Sys)
    requires Inv(y, false) && Harmless(y)
    ensures Forward(y).1.Code?
  {
    hide StreamOk, Frames, MemoryOk, InRotation, Forward, FullRing, Matched, Accounted;
    ForwardAborts(y);
    if y.pump.acquired != [] {
      SafeForward(y);
    }
  }

  lemma SafeCall(y: Sys)
    requires Inv(y, false) && Harmless(y)
    ensures PumpCall(y).1.Code?
  {
    hide Inv, DrainDst, DrainSrc, Forward;
    DrainDstInv(y, false);
    DrainDstParts(y);
    var y1 := DrainDst(y).0;
    DrainSrcInv(y1, false);
    DrainSrcParts(y1);
    SafeStep(DrainSrc(y1).0);
  }

  lemma SafeMove(y: Sys, m: Move)
    requires Inv(y, false) && Harmless(y)
    ensures Moved(y, m).1 != Abort && Harmless(Moved(y, m).0)
  {
    hide Inv, PumpCall, Complete;
    SafeCall(y);
    CallParts(y);
  }

  lemma {:induction false} SafeRun(y: Sys, moves: seq<Move>)
    requires Inv(y, false) && Harmless(y)
    ensures Run(y, moves).1 == Code(0)
    decreases |moves|
  {
    hide Inv, Moved, Harmless;
    if moves != [] {
      SafeMove(y, moves[0]);
      MovedInv(y, moves[0], false);
      SafeRun(Moved(y, moves[0]).0, moves[1..]);
    }
  }

  /**
   The ASSERTs of the pump never fire and no array is left, in any run from a fresh pump, whatever the
   drivers do, if the pass function accepts the planes and `buffers_count` does not exceed the
   destination's buffers, or is zero.
  */
  lemma NeverAborts(src: Stream, dst: Stream, moves: seq<Move>)
    requires SafePair(src, dst)
    ensures After(src, dst, moves).1 == Code(0)
  {
    hide Inv, Run, DriverOk, BuffersOk;
    CreatedInv(src, dst, false);
    SafeRun(Sys(src, dst, Create(src, dst).value, NO_HISTORY), moves);
  }

  // ---------- and otherwise ----------

  /** The call gets as far as step 3 and has a frame to forward there. */
  ghost predicate WantsToForward(y: Sys) {
    var (y1, o1) := DrainDst(y);
    o1 == Code(0) && var (y2, o2) := DrainSrc(y1); o2 == Code(0) && y2.pump.next >= 0
  }

  /** The pump has forwarded as many frames as the destination has buffers, and `buffers_count` says there are more. */
  ghost predicate Overrun(y: Sys) {
    y.dst.buffers.Some? && |y.dst.buffers.value| < |y.pump.acquired| && |y.hist.forwarded| == |y.dst.buffers.value|
  }

  /** The pass that copies would copy a frame that is longer than the destination buffer next in turn. */
  ghost predicate TooLong(y: Sys) {
    && y.pump.kind == MmapMPToMmapSP
    && RingOk(y.pump.available) && y.pump.available.size > 0
    && var h := Contents(y.pump.available)[0];
       && IsBuffer(y.src, y.pump.next) && IsBuffer(y.dst, h) && |y.src.buffers.value[y.pump.next].buffer.planes| > 0
       && y.src.buffers.value[y.pump.next].buffer.planes[0].bytesused > y.dst.buffers.value[h].buffer.length
  }

  /** As long as nothing aborts, the pump has not been beyond the destination's buffers. */
  ghost predicate Within(y: Sys) {
    && y.dst.buffers.Some?
    && (|y.dst.buffers.value| < |y.pump.acquired| ==> |y.hist.forwarded| <= |y.dst.buffers.value|)
    && (!PlanesFit(y.pump.kind, y.pump.planes) ==> y.hist.forwarded == [])
  }

  lemma StepAborts(y: Sys)
    requires Inv(y, false) && Within(y)
    ensures Forward(y).1 == Abort <==>
      HasWork(y) && (!PlanesFit(y.pump.kind, y.pump.planes) || Overrun(y) || TooLong(y))
    ensures Forward(y).1 != Abort ==> Within(Forward(y).0)
  {
    hide StreamOk, Frames, MemoryOk, Contents, Forward, InFlight, Pass, Matched, Accounted, InTurn;
    ForwardAborts(y);
    OwnForward(y);
    ForwardParts(y);
    FramesForward(y);
    if HasWork(y) {
      HeadOk(y);
      var h := Contents(y.pump.available)[0];
      assert h == InTurn(|y.hist.used| + 0, |y.pump.acquired|);
      if h < |y.dst.buffers.value| {
        ShapeOf(y.src, y.pump.next);
        ShapeOf(y.dst, h);
        PassExactly(y.pump.kind, y.src.buffers.value[y.pump.next], y.dst.buffers.value[h], y.pump.planes);
      }
    }
  }

  lemma ShapeOf(s: Stream, i: int)
    requires Running(s) && IsBuffer(s, i)
    ensures var b := s.buffers.value[i]; |b.buffer.planes| == |b.dmabufFd| == |b.mapped| == VIDEO_MAX_PLANES
  {}

  lemma CallAborts(y: Sys)
    requires Inv(y, false) && Within(y)
    ensures PumpCall(y).1 == Abort <==>
      && WantsToForward(y) && |y.pump.acquired| > 0
      && (!PlanesFit(y.pump.kind, y.pump.planes) || Overrun(y) || TooLong(DrainSrc(DrainDst(y).0).0))
    ensures PumpCall(y).1 != Abort ==> Within(PumpCall(y).0)
  {
    hide Inv, DrainDst, DrainSrc, Forward, PlanesFit, TooLong;
    DrainDstInv(y, false);
    DrainDstParts(y);
    DrainDstForwardsNothing(y);
    var y1 := DrainDst(y).0;
    DrainSrcInv(y1, false);
    DrainSrcParts(y1);
    DrainSrcForwardsNothing(y1);
    var y2 := DrainSrc(y1).0;
    if DrainDst(y).1 == Code(0) && DrainSrc(y1).1 == Code(0) {
      StepAborts(y2);
    }
  }

  lemma MovedWithin(y: Sys, m: Move)
    requires Inv(y, false) && Within(y) && Moved(y, m).1 != Abort
    ensures Within(Moved(y, m).0)
  {
    hide Inv, PumpCall, Complete;
    CallAborts(y);
  }

  lemma {:induction false} RunWithin(y: Sys, moves: seq<Move>)
    requires Inv(y, false) && Within(y) && Run(y, moves).1 == Code(0)
    ensures Within(Run(y, moves).0)
    decreases |moves|
  {
    hide Inv, Moved, Within;
    if moves != [] {
      MovedWithin(y, moves[0]);
      MovedInv(y, moves[0], false);
      RunWithin(Moved(y, moves[0]).0, moves[1..]);
    }
  }

  /**
   Exactly when a pump aborts, on any pair on which it can be created and after any run: at
   the first call that has a frame to forward, if the pass function does not accept the planes; at the
   first one after as many frames have been forwarded as the destination has buffers, if
   `buffers_count` exceeds those; at a frame too long to copy, for a pump that copies; and in no other
   call. It never forwards more frames than that.
  */
  lemma AbortsExactly(src: Stream, dst: Stream, moves: seq<Move>)
    requires Pumpable(src, dst) && After(src, dst, moves).1 == Code(0)
    ensures var (p, y, size) := (Create(src, dst).value, After(src, dst, moves).0, |dst.buffers.value|);
      && (PumpCall(y).1 == Abort <==>
            && WantsToForward(y) && dst.count > 0
            && (!PlanesFit(p.kind, p.planes) || (size < dst.count && |y.hist.forwarded| == size)
                || TooLong(DrainSrc(DrainDst(y).0).0)))
      && (size < dst.count ==> |y.hist.forwarded| <= size)
      && (!PlanesFit(p.kind, p.planes) ==> y.hist.forwarded == [])
  {
    hide Inv, Run, StreamOk, PumpCall, WantsToForward, PlanesFit, TooLong;
    CreatedInv(src, dst, false);
    var y := Sys(src, dst, Create(src, dst).value, NO_HISTORY);
    RunWithin(y, moves);
    RunParts(y, moves);
    AfterInv(src, dst, moves, false);
    CallAborts(After(src, dst, moves).0);
  }

  /** The same about any state of a DMABUF pump, wherever its run began. */
  lemma ReachedAborts(y: Sys)
    requires Reached(y) && y.src.memory == DmabufExport && y.dst.memory == DmabufImport
    ensures |y.pump.acquired| == y.dst.count && y.dst.buffers.Some?
    ensures PumpCall(y).1 == Abort <==>
      WantsToForward(y) && y.dst.count > 0 && (!(y.dst.mplane || PlanesCount(y.src) == 1) || Overrun(y))
  {
    hide Started, StreamOk, PumpCall, WantsToForward, Inv, After, Create;
    var src, dst, moves :| Pumpable(src, dst) && After(src, dst, moves) == (y, Code(0));
    AfterParts(src, dst, moves);
    DmabufPump(src, dst);
    LoopsKeepKind(y);
    PlanesOfPair(src, dst);
    AbortsExactly(src, dst, moves);
  }

  lemma LoopsKeepKind(y: Sys)
    ensures DrainSrc(DrainDst(y).0).0.pump.kind == y.pump.kind
  {
    hide DrainDst, DrainSrc;
    DrainDstParts(y);
    DrainSrcParts(DrainDst(y).0);
  }

  lemma PlanesOfPair(src: Stream, dst: Stream)
    requires Started(src, dst)
    ensures 1 <= src.numPlanes < VIDEO_MAX_PLANES && src.buffers.Some? && dst.buffers.Some?
  {}
}
