/**
 A pump that can abort will, if the hardware wants it to. On every pair that is not safe, and whatever
 is on the tapes as long as nothing fails, there is a run that aborts: let what is left on the tapes
 happen, then let every destination buffer complete, let a frame arrive, and call; each round of this
 either aborts or forwards one frame more, and the pump cannot forward more than the destination's array
 holds.
*/
module PumpHazards {
  import opened Common
  import opened V4l2
  import opened Streams
  import opened Rings
  import opened Pumps
  import opened PumpOwnership
  import opened PumpFrames
  import opened PumpMemory
  import opened PumpFifo
  import opened PumpRuns
  import opened PumpWakeups
  import opened PumpAborts

  ghost predicate CanAbort(y: Sys) {
    exists moves :: Run(y, moves).1 == Abort
  }

  lemma AbortNow(y: Sys, m: Move)
    requires Moved(y, m).1 == Abort
    ensures CanAbort(y)
  {
    hide Moved;
    assert Run(y, [m]).1 == Abort;
  }

  lemma AbortLater(y: Sys, m: Move)
    requires Moved(y, m).1 != Abort && CanAbort(Moved(y, m).0)
    ensures CanAbort(y)
  {
    hide Moved;
    var moves :| Run(Moved(y, m).0, moves).1 == Abort;
    assert ([m] + moves)[1..] == moves;
    assert Run(y, [m] + moves).1 == Abort;
  }

  // ---------- what is left on the tapes ----------

  lemma {:induction false} DrainDstTakes(y: Sys)
    requires y.dst.buffers.Some? && y.dst.drv.tape != []
    ensures |DrainDst(y).0.dst.drv.tape| < |y.dst.drv.tape|
    decreases |Held(y.dst.drv)|
  {
    hide Pull, PushIndex;
    var (dst, got) := Pull(y.dst);
    if got.Some? {
      var (y1, o) := TakeBack(y, dst, got.value);
      if o == Code(0) {
        DrainDstTapes(y1);
      }
    }
  }

  // ---------- a pump that can abort ----------

  /**
   A pump that is not harmless, on streams whose drivers fail nothing and have failed nothing, in a
   state that it reaches without having aborted.
  */
  ghost predicate Hazard(y: Sys) {
    && Inv(y, false) && Within(y) && !Harmless(y) && y.pump.kind != MmapMPToMmapSP
    && y.hist.lost == [] && NothingFails(y.src.drv.tape) && NothingFails(y.dst.drv.tape)
  }

  /** A call in which nothing fails: both loops run out, and nothing is lost. */
  lemma LoopsRunOut(y: Sys)
    requires Inv(y, false) && y.hist.lost == [] && NothingFails(y.src.drv.tape) && NothingFails(y.dst.drv.tape)
    ensures var (y1, o1) := DrainDst(y);
      && o1 == Code(0) && y1.dst.drv.done == [] && y1.hist.lost == [] && Inv(y1, false)
      && NothingFails(y1.src.drv.tape) && NothingFails(y1.dst.drv.tape)
      && |y1.src.drv.tape| <= |y.src.drv.tape| && |y1.dst.drv.tape| <= |y.dst.drv.tape|
      && (y.dst.drv.tape != [] ==> |y1.dst.drv.tape| < |y.dst.drv.tape|)
      && var (y2, o2) := DrainSrc(y1);
         && o2 == Code(0) && y2.src.drv.done == [] && y2.hist.lost == [] && Inv(y2, false) && y2.dst == y1.dst
         && NothingFails(y2.src.drv.tape)
         && |y2.src.drv.tape| <= |y1.src.drv.tape|
         && (y1.src.drv.tape != [] ==> |y2.src.drv.tape| < |y1.src.drv.tape|)
  {
    hide Inv, DrainDst, DrainSrc, NothingFails, StepOneWorks, StepTwoWorks;
    NothingFailsWorks(y);
    DrainDstExhausts(y);
    DrainDstInv(y, false);
    DrainDstLoses(y);
    DrainDstTapes(y);
    StreamsReady(y);
    if y.dst.drv.tape != [] {
      DrainDstTakes(y);
    }
    var y1 := DrainDst(y).0;
    LaterKeeps(y1.src.drv.tape, y.src.drv.tape);
    LaterKeeps(y1.dst.drv.tape, y.dst.drv.tape);
    DrainSrcExhausts(y1);
    DrainSrcInv(y1, false);
    DrainSrcLoses(y1);
    DrainSrcTapes(y1);
    StreamsReady(y1);
    LaterKeeps(DrainSrc(y1).0.src.drv.tape, y1.src.drv.tape);
  }

  /** A call that does not abort leaves a hazard, and it takes ticks from the tapes that have any. */
  lemma HazardCall(y: Sys)
    requires Hazard(y) && PumpCall(y).1 != Abort
    ensures Hazard(PumpCall(y).0)
    ensures |PumpCall(y).0.hist.forwarded| >= |y.hist.forwarded|
    ensures y.src.drv.tape != [] || y.dst.drv.tape != [] ==>
      |PumpCall(y).0.src.drv.tape| + |PumpCall(y).0.dst.drv.tape| < |y.src.drv.tape| + |y.dst.drv.tape|
  {
    hide Inv, DrainDst, DrainSrc, Forward, NothingFails, Within;
    LoopsRunOut(y);
    CallAborts(y);
    PumpCallInv(y, false);
    CallParts(y);
    DrainDstForwardsNothing(y);
    DrainSrcForwardsNothing(DrainDst(y).0);
    var y2 := DrainSrc(DrainDst(y).0).0;
    ForwardParts(y2);
    ForwardTapes(y2);
    ForwardMore(y2);
    LaterKeeps(Forward(y2).0.dst.drv.tape, y2.dst.drv.tape);
  }

  lemma ForwardMore(y: Sys)
    ensures |Forward(y).0.hist.forwarded| >= |y.hist.forwarded| && Forward(y).0.hist.lost == y.hist.lost
  {
    hide PushIndex, Pass;
  }

  // ---------- one round, once the tapes are empty ----------

  lemma {:induction false} DrainDstLeavesQueued(y: Sys)
    requires y.dst.drv.tape == []
    ensures DrainDst(y).0.dst.drv.queued == y.dst.drv.queued && DrainDst(y).0.dst.drv.tape == []
    decreases |Held(y.dst.drv)|
  {
    hide PushIndex;
    var (dst, got) := Pull(y.dst);
    if got.Some? {
      var (y1, o) := TakeBack(y, dst, got.value);
      if o == Code(0) {
        DrainDstLeavesQueued(y1);
      }
    }
  }

  lemma {:induction false} DrainDstLeavesFrames(y: Sys)
    requires y.src.drv.tape == []
    ensures DrainDst(y).0.src.drv.tape == [] && |DrainDst(y).0.src.drv.done| == |y.src.drv.done|
    decreases |Held(y.dst.drv)|
  {
    hide Pull, Qbuf;
    var (dst, got) := Pull(y.dst);
    if got.Some? {
      var (y1, o) := TakeBack(y, dst, got.value);
      if o == Code(0) {
        DrainDstLeavesFrames(y1);
      }
    }
  }

  lemma {:induction false} PendingRemains(y: Sys)
    requires y.pump.next >= 0
    ensures DrainSrc(y).0.pump.next >= 0
    decreases |y.src.drv.tape|, |y.src.drv.done|
  {
    hide Pull, PushIndex;
    var (src, got) := Pull(y.src);
    if got.Some? {
      var (y1, o) := Replace(y, src, got.value);
      if o == Code(0) {
        PendingRemains(y1);
      }
    }
  }

  lemma PullWithoutTape(s: Stream)
    requires s.buffers.Some? && s.drv.tape == []
    ensures Pull(s).1.Some? <==> s.drv.done != []
    ensures Pull(s).1.None? ==> Pull(s).0 == s
  {}

  /** A frame is pending after step 2 if one was pending before or has been captured. */
  lemma FrameArrives(y: Sys)
    requires Inv(y, false) && y.src.drv.tape == [] && StepTwoWorks(y)
    ensures y.pump.next >= 0 || y.src.drv.done != [] ==> DrainSrc(y).0.pump.next >= 0
    ensures y.pump.next < 0 && y.src.drv.done == [] ==> DrainSrc(y) == (y, Code(0))
  {
    hide Inv, Pull, PushIndex;
    StreamsReady(y);
    PullWithoutTape(y.src);
    if y.pump.next >= 0 {
      PendingRemains(y);
    } else if y.src.drv.done != [] {
      PendingRemains(Replace(y, Pull(y.src).0, Pull(y.src).1.value).0);
    }
  }

  lemma NothingInFlight(d: Driver)
    requires d.done == [] && d.queued == []
    ensures InFlight(d) == [] && multiset(InFlight(d)) == multiset{}
  {
    assert Held(d) == [];
  }

  /** Step 3 with no destination buffer in flight and no failure: it aborts or forwards. */
  lemma ForwardsWhenFree(y: Sys)
    requires Inv(y, false) && HasWork(y) && y.dst.drv.tape == [] && y.dst.drv.done == [] && y.dst.drv.queued == []
    ensures Forward(y).1 == Abort || |Forward(y).0.hist.forwarded| == |y.hist.forwarded| + 1
  {
    hide StreamOk, MemoryOk, InRotation, Frames, Forward, InFlight, Contents, Matched, Accounted;
    NothingInFlight(y.dst.drv);
    OwnForward(y);
    FramesForward(y);
    if Forward(y).1 != Abort {
      HeadOk(y);
      assert |Forward(y).0.hist.used| == |y.hist.used| + 1;
    }
  }

  /** With empty tapes and nothing queued at the destination, a call with a frame at hand aborts or forwards it. */
  lemma CallWithFrame(y: Sys)
    requires Hazard(y) && y.src.drv.tape == [] && y.dst.drv.tape == [] && y.dst.drv.queued == []
    requires y.pump.next >= 0 || y.src.drv.done != []
    ensures PumpCall(y).1 == Abort || |PumpCall(y).0.hist.forwarded| == |y.hist.forwarded| + 1
  {
    hide Inv, DrainDst, DrainSrc, Forward, NothingFails, Within, StepTwoWorks, PassSafe;
    LoopsRunOut(y);
    NothingFailsWorks(y);
    DrainDstLeavesQueued(y);
    DrainDstLeavesFrames(y);
    DrainDstForwardsNothing(y);
    DrainDstParts(y);
    var y1 := DrainDst(y).0;
    DrainSrcForwardsNothing(y1);
    DrainSrcParts(y1);
    FrameArrives(y1);
    ForwardsWhenFree(DrainSrc(y1).0);
  }

  /** Without one, it takes everything back from the destination and does nothing else. */
  lemma CallWithoutFrame(y: Sys)
    requires Hazard(y) && y.src.drv.tape == [] && y.dst.drv.tape == [] && y.dst.drv.queued == []
    requires y.pump.next < 0 && y.src.drv.done == []
    ensures var (z, o) := PumpCall(y);
      o == Code(0) && z.dst.drv.queued == [] && z.dst.drv.done == [] && z.hist.forwarded == y.hist.forwarded
  {
    hide Inv, DrainDst, DrainSrc, NothingFails, Within, StepTwoWorks, PassSafe;
    LoopsRunOut(y);
    NothingFailsWorks(y);
    DrainDstLeavesQueued(y);
    DrainDstLeavesFrames(y);
    DrainDstForwardsNothing(y);
    DrainDstParts(y);
    FrameArrives(DrainDst(y).0);
  }

  /** When the destination has nothing and nothing is pending or lost, the source has all its buffers. */
  lemma SourceHasBuffers(y: Sys)
    requires Inv(y, false) && y.hist.lost == [] && y.pump.next < 0
    requires y.dst.drv.done == [] && y.dst.drv.queued == [] && y.src.drv.done == []
    ensures y.src.drv.queued != [] && y.src.drv.streaming
  {
    hide Frames, MemoryOk, InRotation, FullRing, Matched, Accounted, DriverOk;
    CountsAddUp(y);
    NothingInFlight(y.dst.drv);
    assert |InFlight(y.src.drv)| == |Held(y.src.drv)|;
  }

  lemma OldestCompletes(d: Driver)
    requires d.streaming && d.queued != []
    ensures var e := Complete(d, Fill(0, 0, []));
      |e.queued| == |d.queued| - 1 && |e.done| == |d.done| + 1 && e.tape == d.tape
  {}

  lemma HazardCompletion(y: Sys, m: Move)
    requires Hazard(y) && !m.CallPump?
    ensures Hazard(Moved(y, m).0) && Moved(y, m).1 == Code(0)
  {
    hide Inv, Complete, NothingFails, PassSafe, PlanesFit;
    MovedInv(y, m, false);
  }

  lemma DestStreams(y: Sys)
    requires Inv(y, false)
    ensures y.dst.drv.streaming
  {
    hide Frames, MemoryOk, InRotation, FullRing, Matched, Accounted, DriverOk;
  }

  /** How many frames the pump may still forward. */
  function Left(y: Sys): nat {
    if y.dst.buffers.Some? && |y.hist.forwarded| <= |y.dst.buffers.value|
      then |y.dst.buffers.value| - |y.hist.forwarded| else 0
  }

  function Ticks(y: Sys): nat {
    |y.src.drv.tape| + |y.dst.drv.tape|
  }

  const OLDEST := Fill(0, 0, [])

  /** What the hardware does next to make the pump abort. */
  function NextMove(y: Sys): Move {
    if Ticks(y) > 0 then CallPump
    else if y.dst.drv.queued != [] then DestDone(OLDEST)
    else if y.pump.next >= 0 || y.src.drv.done != [] || y.dst.drv.done != [] then CallPump
    else SourceDone(OLDEST)
  }

  /** z is closer to the end than y. */
  predicate Nearer(z: Sys, y: Sys) {
    || Left(z) < Left(y)
    || (Left(z) == Left(y)
        && (|| Ticks(z) < Ticks(y)
            || (Ticks(z) == Ticks(y)
                && (|| |z.dst.drv.queued| < |y.dst.drv.queued|
                    || (|z.dst.drv.queued| == |y.dst.drv.queued|
                        && (|| |z.dst.drv.done| < |y.dst.drv.done|
                            || (|z.dst.drv.done| == |y.dst.drv.done| && |z.src.drv.queued| < |y.src.drv.queued|)))))))
  }

  lemma CallNearer(y: Sys)
    requires Hazard(y) && NextMove(y) == CallPump && PumpCall(y).1 != Abort
    ensures Hazard(PumpCall(y).0) && Nearer(PumpCall(y).0, y)
  {
    hide Inv, PumpCall, NothingFails, PlanesFit;
    HazardCall(y);
    CallParts(y);
    if Ticks(y) == 0 {
      if y.pump.next >= 0 || y.src.drv.done != [] {
        CallWithFrame(y);
      } else {
        CallWithoutFrame(y);
      }
      TapesShrink(y);
    }
  }

  lemma TapesShrink(y: Sys)
    requires Hazard(y)
    ensures Ticks(PumpCall(y).0) <= Ticks(y)
  {
    hide Inv, DrainDst, DrainSrc, Forward, NothingFails, Within, Harmless;
    LoopsRunOut(y);
    var y2 := DrainSrc(DrainDst(y).0).0;
    ForwardParts(y2);
    ForwardTapes(y2);
  }

  lemma MoveNearer(y: Sys)
    requires Hazard(y) && Moved(y, NextMove(y)).1 != Abort
    ensures Hazard(Moved(y, NextMove(y)).0) && Nearer(Moved(y, NextMove(y)).0, y)
  {
    hide Hazard, Complete, PumpCall;
    match NextMove(y)
    case CallPump => CallNearer(y);
    case DestDone(f) =>
      HazardInv(y);
      DestStreams(y);
      OldestCompletes(y.dst.drv);
      HazardCompletion(y, DestDone(OLDEST));
    case SourceDone(f) =>
      HazardInv(y);
      SourceHasBuffers(y);
      OldestCompletes(y.src.drv);
      HazardCompletion(y, SourceDone(OLDEST));
  }

  lemma HazardInv(y: Sys)
    requires Hazard(y)
    ensures Inv(y, false) && y.hist.lost == []
  {}

  /** A hazard aborts in some run. */
  lemma {:induction false} HazardAborts(y: Sys)
    requires Hazard(y)
    ensures CanAbort(y)
    decreases Left(y), Ticks(y), |y.dst.drv.queued|, |y.dst.drv.done|, |y.src.drv.queued|
  {
    hide Hazard, CanAbort, NextMove, Moved, Left, Ticks;
    var m := NextMove(y);
    if Moved(y, m).1 == Abort {
      AbortNow(y, m);
    } else {
      MoveNearer(y);
      HazardAborts(Moved(y, m).0);
      AbortLater(y, m);
    }
  }

  lemma FreshHazard(src: Stream, dst: Stream)
    requires Pumpable(src, dst) && !SafePair(src, dst) && Create(src, dst).value.kind != MmapMPToMmapSP
    requires NothingFails(src.drv.tape) && NothingFails(dst.drv.tape)
    ensures Hazard(Sys(src, dst, Create(src, dst).value, NO_HISTORY))
  {
    hide Inv, DriverOk, BuffersOk, NothingFails, PassSafe, FindPass;
    CreatedInv(src, dst, false);
  }

  /**
   Which pumps can abort, exactly: for every pair on which a pump that does not copy can be created and
   whose drivers fail nothing, some run aborts if and only if the pair is not safe, that is, if
   `buffers_count` of the destination is not zero and either exceeds its buffers or comes with planes
   that the pass function rejects.
  */
  lemma AbortsUnlessSafe(src: Stream, dst: Stream)
    requires Pumpable(src, dst) && Create(src, dst).value.kind != MmapMPToMmapSP
    requires NothingFails(src.drv.tape) && NothingFails(dst.drv.tape)
    ensures (exists moves :: After(src, dst, moves).1 == Abort) <==> !SafePair(src, dst)
  {
    hide Started, Run, Create, NothingFails, SafePair, Hazard;
    if SafePair(src, dst) {
      forall moves
        ensures After(src, dst, moves).1 != Abort
      {
        NeverAborts(src, dst, moves);
      }
    } else {
      FreshHazard(src, dst);
      var y := Sys(src, dst, Create(src, dst).value, NO_HISTORY);
      HazardAborts(y);
      var moves :| Run(y, moves).1 == Abort;
      assert After(src, dst, moves).1 == Abort;
    }
  }

  /** The same in terms of the two streams, for passing DMABUFs. */
  lemma DmabufAbortsExactly(src: Stream, dst: Stream)
    requires Pumpable(src, dst) && src.memory == DmabufExport && dst.memory == DmabufImport && dst.buffers.Some?
    requires NothingFails(src.drv.tape) && NothingFails(dst.drv.tape)
    ensures (exists moves :: After(src, dst, moves).1 == Abort) <==>
      dst.count > 0 && (dst.count > |dst.buffers.value| || !(dst.mplane || PlanesCount(src) == 1))
  {
    hide Started, After, Create, NothingFails;
    DmabufPump(src, dst);
    PlanesOfPair(src, dst);
    AbortsUnlessSafe(src, dst);
  }
}
