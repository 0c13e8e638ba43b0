/**
 What the return value of a call says, and why edge-triggered polling is enough: a call drains both
 of its streams, and when it leaves a frame behind, the completion that it waits for is still to come.
*/
module PumpWakeups {
  import opened Common
  import opened V4l2
  import opened Streams
  import opened Rings
  import opened Pumps
  import opened PumpOwnership
  import opened PumpFrames
  import opened PumpMemory
  import opened PumpFifo
  import opened PumpRuns

  // ---------- what the return value says ----------

  /**
   After a step 3 that returned 0 no frame is pending (unless there is no destination buffer at all).
   When it fails it leaves the pump as it was. It fails, with no ioctl failing on its own, exactly
   when a frame waits and the head of the ring is with the destination.
  */
  lemma ForwardResult(y: Sys)
    requires Inv(y, false) && |y.pump.acquired| > 0 && Forward(y).1 != Abort
    ensures Contents(y.pump.available) != []
    ensures var (y1, o) := Forward(y);
      && (o == Code(0) <==> y1.pump.next == -1)
      && (o != Code(0) ==> y1.pump == y.pump && y1.hist == y.hist && y.pump.next >= 0)
      && (Errno(y.dst.drv) == 0 ==>
            (o != Code(0) <==> y.pump.next >= 0 && Contents(y.pump.available)[0] in multiset(InFlight(y.dst.drv))))
      && (o != Code(0) ==> multiset(InFlight(y1.dst.drv)) == multiset(InFlight(y.dst.drv)))
  {
    hide StreamOk, Frames, MemoryOk, Forward, Contents, InFlight, Matched, Accounted, PushIndex, Described, Turn;
    OwnForward(y);
    if HasWork(y) {
      ForwardValue(y);
      var h := Contents(y.pump.available)[0];
      PushMoves(Described(y, h), h);
    }
  }

  lemma ZeroLeavesNothingPending(y: Sys)
    requires Inv(y, false) && |y.pump.acquired| > 0 && PumpCall(y).1 == Code(0)
    ensures PumpCall(y).0.pump.next == -1
  {
    hide Inv, DrainDst, DrainSrc, Forward;
    DrainDstInv(y, false);
    DrainSrcInv(DrainDst(y).0, false);
    DrainDstParts(y);
    DrainSrcParts(DrainDst(y).0);
    ForwardResult(DrainSrc(DrainDst(y).0).0);
  }

  /** A loop that ends with an error has lost a buffer; one that does not has lost none. */
  lemma {:induction false} DrainDstLoses(y: Sys)
    requires Inv(y, false)
    ensures |DrainDst(y).0.hist.lost| == |y.hist.lost| + (if DrainDst(y).1 == Code(0) then 0 else 1)
    decreases |Held(y.dst.drv)|
  {
    hide Inv, TakeBack, Pull;
    if Pull(y.dst).1.Some? {
      TakeBackInv(y, false);
      var (y1, o) := TakeBack(y, Pull(y.dst).0, Pull(y.dst).1.value);
      if o == Code(0) {
        DrainDstLoses(y1);
      }
    }
  }

  lemma {:induction false} DrainSrcLoses(y: Sys)
    requires Inv(y, false)
    ensures |DrainSrc(y).0.hist.lost| == |y.hist.lost| + (if DrainSrc(y).1 == Code(0) then 0 else 1)
    decreases |y.src.drv.tape|, |y.src.drv.done|
  {
    hide Inv, Replace, Pull;
    if Pull(y.src).1.Some? {
      ReplaceInv(y, false);
      var (y1, o) := Replace(y, Pull(y.src).0, Pull(y.src).1.value);
      if o == Code(0) {
        DrainSrcLoses(y1);
      }
    }
  }

  /** No source buffer was lost in this call, and the driver did not fail the QBUF of step 3 of its own accord. */
  ghost predicate CleanCall(y: Sys) {
    && |PumpCall(y).0.hist.lost| == |y.hist.lost|
    && Errno(DrainDst(y).0.dst.drv) == 0
  }

  /** A call that lost nothing got as far as step 3. */
  lemma CleanCallForwards(y: Sys)
    requires Inv(y, false) && CleanCall(y)
    ensures DrainDst(y).1 == Code(0) && DrainSrc(DrainDst(y).0).1 == Code(0)
    ensures PumpCall(y) == Forward(DrainSrc(DrainDst(y).0).0)
    ensures DrainSrc(DrainDst(y).0).0.dst == DrainDst(y).0.dst
    ensures Inv(DrainSrc(DrainDst(y).0).0, false)
    ensures |DrainSrc(DrainDst(y).0).0.pump.acquired| == |y.pump.acquired|
  {
    hide Inv, DrainDst, DrainSrc, Forward;
    DrainDstLoses(y);
    DrainDstInv(y, false);
    DrainSrcLoses(DrainDst(y).0);
    DrainSrcInv(DrainDst(y).0, false);
    DrainDstParts(y);
    DrainSrcParts(DrainDst(y).0);
  }

  /**
   The return value of a call, in any order of completion: as long as no source buffer is lost and the
   QBUF of step 3 is not refused by a failure, the call returns nonzero exactly when it leaves a frame
   pending. Then the one destination buffer that the pump will try next is with the destination driver,
   and unless it has completed already, it is queued.
  */
  lemma NonzeroMeansHeadBusy(y: Sys)
    requires Inv(y, false) && |y.pump.acquired| > 0 && PumpCall(y).1 != Abort && CleanCall(y)
    ensures var (y1, o) := PumpCall(y);
      && RingOk(y1.pump.available) && Contents(y1.pump.available) != []
      && (o != Code(0) <==> y1.pump.next >= 0)
      && (o != Code(0) ==>
            && Contents(y1.pump.available)[0] in InFlight(y1.dst.drv)
            && (y1.dst.drv.done == [] ==>
                  exists b :: b in y1.dst.drv.queued && b.index == Contents(y1.pump.available)[0]))
  {
    hide Own, Frames, MemoryOk, Contents, DrainDst, DrainSrc, Forward, InFlight, Turn;
    CleanCallForwards(y);
    var y2 := DrainSrc(DrainDst(y).0).0;
    ForwardResult(y2);
    ForwardInv(y2, false);
    ForwardParts(y2);
    var y1 := PumpCall(y).0;
    RingOfSize(y1);
    if PumpCall(y).1 != Code(0) {
      var h := Contents(y1.pump.available)[0];
      assert h in multiset(InFlight(y1.dst.drv));
      QueuedOrDone(y1.dst.drv, h);
    }
  }

  lemma RingOfSize(y: Sys)
    requires FullRing(y.pump.available, |y.pump.acquired|) && |y.pump.acquired| > 0
    ensures Contents(y.pump.available) != []
  {}

  lemma QueuedOrDone(d: Driver, h: int)
    requires h in InFlight(d)
    ensures (exists b :: b in d.queued && b.index == h) || (exists b :: b in d.done && b.index == h)
  {
    var i :| 0 <= i < |InFlight(d)| && InFlight(d)[i] == h;
    if i < |d.done| {
      assert d.done[i] in d.done;
    } else {
      assert d.queued[i - |d.done|] in d.queued;
    }
  }

  /** In order, every destination buffer is then with the destination driver. */
  lemma NonzeroMeansAllBusy(y: Sys)
    requires Inv(y, true) && |y.pump.acquired| > 0 && PumpCall(y).1 != Abort && CleanCall(y)
    ensures PumpCall(y).1 != Code(0) ==> |InFlight(PumpCall(y).0.dst.drv)| == |y.pump.acquired|
  {
    hide Own, Frames, MemoryOk, Contents, PumpCall, InFlight, InRotation, Ordered;
    InvWeakens(y);
    NonzeroMeansHeadBusy(y);
    PumpCallInv(y, true);
    CallParts(y);
    HeadBusyMeansAllBusy(PumpCall(y).0);
  }

  lemma InvWeakens(y: Sys)
    requires Inv(y, true)
    ensures Inv(y, false)
  {}

  // ---------- no wake-up is lost ----------

  /** No ioctl of step 1 fails: none of its DQBUFs and none of the QBUFs that return source buffers. */
  predicate StepOneWorks(y: Sys)
    decreases |Held(y.dst.drv)|
  {
    var (dst, got) := Pull(y.dst);
    if got.None? then Errno(y.dst.drv) == 0 else
      var (y1, o) := TakeBack(y, dst, got.value);
      o == Code(0) && StepOneWorks(y1)
  }

  /** No ioctl of step 2 fails. */
  predicate StepTwoWorks(y: Sys)
    decreases |y.src.drv.tape|, |y.src.drv.done|
  {
    var (src, got) := Pull(y.src);
    if got.None? then Errno(y.src.drv) == 0 else
      var (y1, o) := Replace(y, src, got.value);
      o == Code(0) && StepTwoWorks(y1)
  }

  predicate LoopsWork(y: Sys) {
    StepOneWorks(y) && StepTwoWorks(DrainDst(y).0)
  }

  /** Step 1 ends only when the destination has nothing left to give back. */
  lemma {:induction false} DrainDstExhausts(y: Sys)
    requires Inv(y, false) && StepOneWorks(y)
    ensures DrainDst(y).1 == Code(0) && DrainDst(y).0.dst.drv.done == []
    decreases |Held(y.dst.drv)|
  {
    hide Inv, Pull, TakeBack;
    if Pull(y.dst).1.None? {
      IdleDst(y, false);
    } else {
      TakeBackInv(y, false);
      DrainDstExhausts(TakeBack(y, Pull(y.dst).0, Pull(y.dst).1.value).0);
    }
  }

  /** Step 2 ends only when the source has no frame left to deliver. */
  lemma {:induction false} DrainSrcExhausts(y: Sys)
    requires Inv(y, false) && StepTwoWorks(y)
    ensures DrainSrc(y).1 == Code(0) && DrainSrc(y).0.src.drv.done == []
    decreases |y.src.drv.tape|, |y.src.drv.done|
  {
    hide Inv, Pull, Replace;
    if Pull(y.src).1.None? {
      IdleSrc(y, false);
    } else {
      ReplaceInv(y, false);
      DrainSrcExhausts(Replace(y, Pull(y.src).0, Pull(y.src).1.value).0);
    }
  }

  lemma StreamTapes(s: Stream, i: int)
    ensures Later(Pull(s).0.drv.tape, s.drv.tape)
    ensures IsBuffer(s, i) ==> Later(PushIndex(s, i).0.drv.tape, s.drv.tape)
  {
    hide Elapse;
    ElapseTape(s.drv);
  }

  lemma {:induction false} DrainDstTapes(y: Sys)
    ensures var z := DrainDst(y).0;
      Later(z.src.drv.tape, y.src.drv.tape) && Later(z.dst.drv.tape, y.dst.drv.tape)
    decreases |Held(y.dst.drv)|
  {
    hide Pull, PushIndex;
    StreamTapes(y.dst, 0);
    var (dst, got) := Pull(y.dst);
    if got.Some? {
      var (y1, o) := TakeBack(y, dst, got.value);
      StreamTapes(y.src, if got.value < |y.pump.acquired| then y.pump.acquired[got.value] else 0);
      if o == Code(0) {
        DrainDstTapes(y1);
        LaterTransitive(DrainDst(y1).0.src.drv.tape, y1.src.drv.tape, y.src.drv.tape);
        LaterTransitive(DrainDst(y1).0.dst.drv.tape, y1.dst.drv.tape, y.dst.drv.tape);
      }
    }
  }

  /** No buffer completes between now and the next ioctl. */
  predicate QuietNow(d: Driver) {
    d.tape == [] || d.tape[0].fills == []
  }

  /** Every completed buffer was numbered after the driver was in state d: it is not one that d could have reported. */
  ghost predicate AllNew(d: Driver, e: Driver) {
    d.sequence <= e.sequence && forall b :: b in e.done ==> d.sequence <= b.sequence < e.sequence
  }

  lemma NewAfterProgress(d: Driver, e: Driver)
    requires DriverOk(e) && Progress(d, e) && d.done == []
    ensures AllNew(d, e)
  {
    hide InFlight, Held, Backed;
    forall b | b in e.done
      ensures d.sequence <= b.sequence
    {
      var i :| 0 <= i < |e.done| && e.done[i] == b;
    }
  }

  /** Step 3 completes nothing itself; what completes at its QBUF is new. */
  lemma ForwardDone(y: Sys)
    requires Own(y) && y.dst.drv.done == []
    ensures Forward(y).0.src == y.src
    ensures AllNew(y.dst.drv, Forward(y).0.dst.drv)
    ensures QuietNow(y.dst.drv) ==> Forward(y).0.dst.drv.done == []
  {
    hide StreamOk, Elapse, Pass, RingPop, RingPeek, InFlight, Matched, Accounted, FullRing, Progress, AllNew, DriverOk;
    OwnsDrivers(y);
    ElapseKeeps(y.dst.drv);
    NewAfterProgress(y.dst.drv, Elapse(y.dst.drv));
    QuietElapses(y.dst.drv);
    SameIsNew(y.dst.drv);
    NewAfterQueue(y.dst.drv, Elapse(y.dst.drv));
  }

  lemma SameIsNew(d: Driver)
    requires d.done == []
    ensures AllNew(d, d)
  {}

  lemma NewAfterQueue(d: Driver, e: Driver)
    requires AllNew(d, e)
    ensures forall q :: AllNew(d, e.(queued := q))
  {}

  lemma QuietElapses(d: Driver)
    ensures QuietNow(d) ==> Elapse(d).done == d.done
  {}

  /**
   What edge-triggered polling needs. When no ioctl of its two loops fails, both of them run until
   their stream is drained; step 3 may fail. What the destination has completed when the call returns,
   whatever it returns, it has completed after the last DQBUF, so that it is reported anew; and it has
   completed nothing unless that happens just before the QBUF of step 3.
  */
  lemma NoWakeupIsLost(y: Sys)
    requires Inv(y, false) && LoopsWork(y)
    ensures PumpCall(y).0.src.drv.done == []
    ensures var (d, e) := (DrainDst(y).0.dst.drv, PumpCall(y).0.dst.drv);
      && d.done == [] && AllNew(d, e)
      && (QuietNow(d) ==> e.done == [])
  {
    hide Own, Frames, MemoryOk, InRotation, DrainDst, DrainSrc, Forward, StepOneWorks, StepTwoWorks, AllNew, QuietNow;
    DrainDstExhausts(y);
    DrainDstInv(y, false);
    var y1 := DrainDst(y).0;
    DrainSrcExhausts(y1);
    DrainSrcInv(y1, false);
    ForwardDone(DrainSrc(y1).0);
  }

  /**
   Both together: a call that leaves a frame pending, without losing a buffer, has drained both streams,
   and the destination buffer that the frame needs is still queued, or it has completed after the last
   DQBUF and is reported anew.
  */
  lemma PendingWakesAgain(y: Sys)
    requires Inv(y, false) && |y.pump.acquired| > 0 && PumpCall(y).1 != Abort && CleanCall(y)
    requires LoopsWork(y) && PumpCall(y).1 != Code(0)
    ensures var (d, y1) := (DrainDst(y).0.dst.drv, PumpCall(y).0);
      && y1.src.drv.done == [] && d.done == []
      && RingOk(y1.pump.available) && Contents(y1.pump.available) != []
      && (var h := Contents(y1.pump.available)[0];
          && (QuietNow(d) ==> y1.dst.drv.done == [])
          && ((exists b :: b in y1.dst.drv.queued && b.index == h)
              || (exists b :: b in y1.dst.drv.done && b.index == h && d.sequence <= b.sequence)))
  {
    hide Inv, PumpCall, DrainDst, Contents, LoopsWork, CleanCall;
    NonzeroMeansHeadBusy(y);
    NoWakeupIsLost(y);
    QueuedOrDone(PumpCall(y).0.dst.drv, Contents(PumpCall(y).0.pump.available)[0]);
  }

  /** The loops work in particular when the drivers fail nothing. */
  lemma NothingFailsWorks(y: Sys)
    requires Inv(y, false) && NothingFails(y.src.drv.tape) && NothingFails(y.dst.drv.tape)
    ensures LoopsWork(y)
  {
    hide Inv, DrainDst, StepOneWorks, StepTwoWorks, NothingFails;
    NothingFailsStepOne(y);
    DrainDstInv(y, false);
    DrainDstTapes(y);
    LaterKeeps(DrainDst(y).0.src.drv.tape, y.src.drv.tape);
    NothingFailsStepTwo(DrainDst(y).0);
  }

  lemma {:induction false} NothingFailsStepOne(y: Sys)
    requires Inv(y, false) && NothingFails(y.src.drv.tape) && NothingFails(y.dst.drv.tape)
    ensures StepOneWorks(y)
    decreases |Held(y.dst.drv)|
  {
    hide Inv, Pull, PushIndex, NothingFails, Elapse;
    StreamTapes(y.dst, 0);
    ElapseTape(y.dst.drv);
    ElapseTape(y.src.drv);
    if Pull(y.dst).1.Some? {
      var i := Pull(y.dst).1.value;
      TakeBackInv(y, false);
      StreamTapes(y.src, if i < |y.pump.acquired| then y.pump.acquired[i] else 0);
      var y1 := TakeBack(y, Pull(y.dst).0, i).0;
      LaterKeeps(y1.src.drv.tape, y.src.drv.tape);
      LaterKeeps(y1.dst.drv.tape, y.dst.drv.tape);
      NothingFailsStepOne(y1);
    }
  }

  lemma {:induction false} NothingFailsStepTwo(y: Sys)
    requires Inv(y, false) && NothingFails(y.src.drv.tape)
    ensures StepTwoWorks(y)
    decreases |y.src.drv.tape|, |y.src.drv.done|
  {
    hide Inv, Pull, PushIndex, NothingFails, Elapse;
    StreamTapes(y.src, 0);
    ElapseTape(y.src.drv);
    if Pull(y.src).1.Some? {
      var src := Pull(y.src).0;
      ReplaceInv(y, false);
      StreamTapes(src, y.pump.next);
      LaterKeeps(src.drv.tape, y.src.drv.tape);
      ElapseTape(src.drv);
      var y1 := Replace(y, src, Pull(y.src).1.value).0;
      LaterKeeps(y1.src.drv.tape, src.drv.tape);
      NothingFailsStepTwo(y1);
    }
  }

  // ---------- what a call takes from the tapes ----------

  lemma {:induction false} DrainSrcTapes(y: Sys)
    ensures Later(DrainSrc(y).0.src.drv.tape, y.src.drv.tape)
    ensures y.src.buffers.Some? && y.src.drv.tape != [] ==> |DrainSrc(y).0.src.drv.tape| < |y.src.drv.tape|
    decreases |y.src.drv.tape|, |y.src.drv.done|
  {
    hide Pull, PushIndex;
    StreamTapes(y.src, 0);
    var (src, got) := Pull(y.src);
    if got.Some? {
      var (y1, o) := Replace(y, src, got.value);
      StreamTapes(src, y.pump.next);
      LaterTransitive(y1.src.drv.tape, src.drv.tape, y.src.drv.tape);
      if o == Code(0) {
        DrainSrcTapes(y1);
        LaterTransitive(DrainSrc(y1).0.src.drv.tape, y1.src.drv.tape, y.src.drv.tape);
      }
    }
  }

  lemma ForwardTapes(y: Sys)
    ensures Later(Forward(y).0.dst.drv.tape, y.dst.drv.tape)
  {
    hide Elapse, Pass, RingPop, RingPeek, InFlight;
    ElapseTape(y.dst.drv);
  }

  lemma CallTapes(y: Sys)
    requires NothingFails(y.src.drv.tape) && NothingFails(y.dst.drv.tape)
    ensures NothingFails(PumpCall(y).0.src.drv.tape) && NothingFails(PumpCall(y).0.dst.drv.tape)
  {
    hide DrainDst, DrainSrc, Forward, NothingFails, Later, SameExtent;
    DrainDstTapes(y);
    var y1 := DrainDst(y).0;
    LaterKeeps(y1.src.drv.tape, y.src.drv.tape);
    LaterKeeps(y1.dst.drv.tape, y.dst.drv.tape);
    DrainSrcTapes(y1);
    DrainSrcParts(y1);
    var y2 := DrainSrc(y1).0;
    LaterKeeps(y2.src.drv.tape, y1.src.drv.tape);
    ForwardTapes(y2);
    ForwardParts(y2);
    LaterKeeps(Forward(y2).0.dst.drv.tape, y2.dst.drv.tape);
  }

  // ---------- over whole runs ----------

  /** A frame is pending only while the destination has the very buffer that it needs (or there is none at all). */
  ghost predicate HeadBusy(y: Sys) {
    y.pump.next >= 0 && y.pump.acquired != [] ==>
      && RingOk(y.pump.available) && Contents(y.pump.available) != []
      && Contents(y.pump.available)[0] in InFlight(y.dst.drv)
  }

  lemma MovedHeadBusy(y: Sys, m: Move)
    requires Inv(y, false) && HeadBusy(y) && Moved(y, m).1 != Abort && (m.CallPump? ==> CleanCall(y))
    ensures HeadBusy(Moved(y, m).0)
  {
    hide Inv, PumpCall, Complete, Contents, InFlight, CleanCall;
    match m
    case CallPump =>
      CallParts(y);
      if y.pump.acquired != [] {
        NonzeroMeansHeadBusy(y);
      }
    case SourceDone(f) =>
    case DestDone(f) =>
      CompleteIndices(y.dst.drv, f);
      SameMembers(InFlight(Complete(y.dst.drv, f)), InFlight(y.dst.drv));
      if y.pump.next >= 0 && y.pump.acquired != [] {
        var h := Contents(y.pump.available)[0];
        assert h in InFlight(y.dst.drv);
        assert h in InFlight(Complete(y.dst.drv, f));
        assert Moved(y, m).0.pump == y.pump;
        assert Moved(y, m).0.dst.drv == Complete(y.dst.drv, f);
      }
  }

  lemma SameMembers(a: seq<int>, b: seq<int>)
    requires multiset(a) == multiset(b)
    ensures forall x :: x in b ==> x in a
  {
    forall x | x in b
      ensures x in a
    {
      assert x in multiset(b);
      assert x in multiset(a);
    }
  }

  /** Every call in this run is a clean one. */
  ghost predicate CallsClean(y: Sys, moves: seq<Move>)
    decreases |moves|
  {
    moves != [] ==>
      && (moves[0].CallPump? ==> CleanCall(y))
      && (Moved(y, moves[0]).1 != Abort ==> CallsClean(Moved(y, moves[0]).0, moves[1..]))
  }

  lemma {:induction false} RunHeadBusy(y: Sys, moves: seq<Move>)
    requires Inv(y, false) && HeadBusy(y) && CallsClean(y, moves) && Run(y, moves).1 == Code(0)
    ensures HeadBusy(Run(y, moves).0)
    decreases |moves|
  {
    hide Inv, Moved, HeadBusy, CleanCall;
    if moves != [] {
      MovedHeadBusy(y, moves[0]);
      MovedInv(y, moves[0], false);
      RunHeadBusy(Moved(y, moves[0]).0, moves[1..]);
    }
  }

  /**
   No run stalls: between any two moves, as long as the calls have lost no source buffer and no QBUF of
   step 3 has failed, a frame is pending only while the destination buffer that is next in turn is with
   the destination driver. In any order of completion.
  */
  lemma PendingMeansHeadBusy(src: Stream, dst: Stream, moves: seq<Move>)
    requires Pumpable(src, dst) && After(src, dst, moves).1 == Code(0)
    requires CallsClean(Sys(src, dst, Create(src, dst).value, NO_HISTORY), moves)
    ensures var y := After(src, dst, moves).0;
      y.pump.next >= 0 && dst.count > 0 ==>
        && RingOk(y.pump.available) && Contents(y.pump.available) != []
        && Contents(y.pump.available)[0] in InFlight(y.dst.drv)
  {
    hide Inv, Started, Run, Contents, InFlight, CallsClean;
    CreatedInv(src, dst, false);
    RunHeadBusy(Sys(src, dst, Create(src, dst).value, NO_HISTORY), moves);
    AfterParts(src, dst, moves);
  }

  lemma NothingFailsClean(y: Sys)
    requires Inv(y, false) && NothingFails(y.src.drv.tape) && NothingFails(y.dst.drv.tape)
    ensures CleanCall(y)
  {
    hide Inv, DrainDst, DrainSrc, Forward, NothingFails, StepOneWorks, StepTwoWorks, Later;
    NothingFailsWorks(y);
    DrainDstExhausts(y);
    DrainDstInv(y, false);
    DrainDstLoses(y);
    DrainDstTapes(y);
    var y1 := DrainDst(y).0;
    LaterKeeps(y1.dst.drv.tape, y.dst.drv.tape);
    ElapseTape(y1.dst.drv);
    DrainSrcExhausts(y1);
    DrainSrcLoses(y1);
    ForwardLoses(DrainSrc(y1).0);
  }

  lemma ForwardLoses(y: Sys)
    ensures Forward(y).0.hist.lost == y.hist.lost
  {
    hide PushIndex, Pass;
  }

  /** All calls are clean in particular when the drivers fail nothing. */
  lemma {:induction false} CleanWhenNothingFails(y: Sys, moves: seq<Move>)
    requires Inv(y, false) && NothingFails(y.src.drv.tape) && NothingFails(y.dst.drv.tape)
    ensures CallsClean(y, moves)
    decreases |moves|
  {
    hide Inv, PumpCall, Complete, CleanCall, NothingFails;
    if moves != [] {
      if moves[0].CallPump? {
        NothingFailsClean(y);
        CallTapes(y);
      }
      MovedInv(y, moves[0], false);
      CleanWhenNothingFails(Moved(y, moves[0]).0, moves[1..]);
    }
  }
}
