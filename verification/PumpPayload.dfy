/**
 What the destination is told about a frame is what the source said of it: every buffer queued at the
 destination carries, plane by plane, the descriptor of the source buffer recorded for it and the length and
 payload with which the source's driver handed that buffer out, over every run.
*/
module PumpPayload {
  import opened Common
  import opened V4l2
  import opened Streams
  import opened StreamLaws
  import opened Rings
  import opened Pumps
  import opened PumpOwnership
  import opened PumpFrames
  import opened PumpMemory
  import opened PumpFifo
  import opened PumpRuns

  // ---------- what is said about a frame ----------

  /** Length and payload of the first n planes of b are those of source buffer s. */
  predicate Describes(kind: PassKind, n: nat, s: V4l2Buffer, b: V4l2Buffer) {
    forall p :: 0 <= p < n && p < |b.planes| && p < |s.planes| ==>
      && PlaneOf(DestIsMplane(kind), b, p).length == PlaneOf(SourceIsMplane(kind), s, p).length
      && PlaneOf(DestIsMplane(kind), b, p).bytesused == PlaneOf(SourceIsMplane(kind), s, p).bytesused
  }

  /** The application's copy of a buffer is what the driver handed out, in every plane that the driver filled in. */
  predicate CopyOf(mplane: bool, copy: V4l2Buffer, out: V4l2Buffer) {
    && copy.index == out.index && copy.sequence == out.sequence && |copy.planes| == |out.planes|
    && forall p :: 0 <= p < |copy.planes| && p < |out.planes| && (mplane ==> p < out.length) ==>
         PlaneOf(mplane, copy, p) == PlaneOf(mplane, out, p)
  }

  /** One of the buffers that were handed out is source buffer i as the application knows it. */
  ghost predicate Arrived(src: Stream, i: int, out: seq<V4l2Buffer>) {
    IsBuffer(src, i) && exists j :: 0 <= j < |out| && CopyOf(src.mplane, src.buffers.value[i].buffer, out[j])
  }

  /** The pending buffer and the attached ones are as the source handed them out. */
  ghost predicate AllArrived(y: Sys, out: seq<V4l2Buffer>) {
    && (y.pump.next >= 0 ==> Arrived(y.src, y.pump.next, out))
    && forall i :: 0 <= i < |y.pump.acquired| && y.pump.acquired[i] >= 0 ==> Arrived(y.src, y.pump.acquired[i], out)
  }

  ghost predicate Told(y: Sys, b: V4l2Buffer) {
    && b.index < |y.pump.acquired| && IsBuffer(y.src, y.pump.acquired[b.index])
    && (y.pump.kind != MmapMPToMmapSP ==>
          Describes(y.pump.kind, y.pump.planes, y.src.buffers.value[y.pump.acquired[b.index]].buffer, b))
  }

  /** Every buffer that is queued at the destination describes the source buffer that is recorded for it. */
  ghost predicate AllTold(y: Sys) {
    forall b :: b in y.dst.drv.queued ==> Told(y, b)
  }

  ghost predicate Carried(y: Sys, out: seq<V4l2Buffer>) {
    AllArrived(y, out) && AllTold(y)
  }

  // ---------- completions take buffers out of the queue and touch no other ----------

  lemma {:induction false} CompleteAllQueued(d: Driver, fills: seq<Fill>)
    ensures forall b :: b in CompleteAll(d, fills).queued ==> b in d.queued
    decreases |fills|
  {
    if fills != [] {
      CompleteAllQueued(Complete(d, fills[0]), fills[1..]);
    }
  }

  lemma ElapseQueued(d: Driver)
    ensures forall b :: b in Elapse(d).queued ==> b in d.queued
  {
    if d.tape != [] {
      CompleteAllQueued(d.(tape := d.tape[1..]), d.tape[0].fills);
    }
  }

  lemma QueuedIsHeld(d: Driver, b: V4l2Buffer)
    requires b in d.queued
    ensures b in Held(d)
  {}

  // ---------- one step ----------

  lemma ArrivedMore(src: Stream, i: int, out: seq<V4l2Buffer>, more: seq<V4l2Buffer>)
    requires Arrived(src, i, out)
    ensures Arrived(src, i, out + more)
  {
    hide CopyOf;
    var j :| 0 <= j < |out| && CopyOf(src.mplane, src.buffers.value[i].buffer, out[j]);
    assert (out + more)[j] == out[j];
  }

  /** The copies do not change with the driver. */
  lemma ArrivedStays(src: Stream, t: Stream, i: int, out: seq<V4l2Buffer>)
    requires Arrived(src, i, out) && IsBuffer(t, i) && t.mplane == src.mplane
    requires t.buffers.value[i].buffer == src.buffers.value[i].buffer
    ensures Arrived(t, i, out)
  {
    hide CopyOf;
  }

  lemma CarriedTakeBack(y: Sys, out: seq<V4l2Buffer>)
    requires Own(y) && Carried(y, out) && Pull(y.dst).1.Some?
    ensures Carried(TakeBack(y, Pull(y.dst).0, Pull(y.dst).1.value).0, out)
  {
    hide StreamOk, InFlight, FullRing, Accounted, Elapse, Describes, Qbuf, Arrived, Dqbuf, Pull;
    PulledIsAttached(y);
    PullMoves(y.dst);
    TakeBackQueue(y);
    var (dst, i) := (Pull(y.dst).0, Pull(y.dst).1.value);
    var y1 := TakeBack(y, dst, i).0;
    SameCopies(y, y1, out);
    forall b | b in y1.dst.drv.queued
      ensures Told(y1, b)
    {
      assert Told(y, b);
      QueuedIsHeld(dst.drv, b);
      HeldIndex(dst.drv, b);
      assert multiset(InFlight(y.dst.drv))[i] == multiset(InFlight(dst.drv))[i] + 1 <= 1;
      assert b.index != i;
    }
  }

  lemma TakeBackQueue(y: Sys)
    ensures forall b :: b in Pull(y.dst).0.drv.queued ==> b in y.dst.drv.queued
  {
    hide Elapse;
    ElapseQueued(y.dst.drv);
  }

  /** Fewer buffers are attached, and the source's copies are the same. */
  lemma SameCopies(y: Sys, z: Sys, out: seq<V4l2Buffer>)
    requires AllArrived(y, out) && z.src.buffers == y.src.buffers && z.src.mplane == y.src.mplane
    requires z.pump.next == y.pump.next && |z.pump.acquired| == |y.pump.acquired|
    requires forall i :: 0 <= i < |y.pump.acquired| ==> z.pump.acquired[i] in {y.pump.acquired[i], -1}
    ensures AllArrived(z, out)
  {}

  /** The buffer that the source hands out is neither pending nor attached. */
  lemma NewBufferIsNew(y: Sys, x: int)
    requires Own(y) && Pull(y.src).1.Some? && x >= 0
    requires x == y.pump.next || x in y.pump.acquired
    ensures x != Pull(y.src).1.value && IsBuffer(y.src, x)
  {
    hide StreamOk, InFlight, FullRing, Matched, Pull;
    PullMoves(y.src);
    AccountedOnce(multiset(InFlight(y.src.drv)), y.pump.acquired, y.pump.next, y.hist.lost, |y.src.buffers.value|);
    if x in y.pump.acquired {
      var i :| 0 <= i < |y.pump.acquired| && y.pump.acquired[i] == x;
      AttachedHas(y.pump.acquired, i);
    } else {
      assert x in Pending(y.pump.next);
    }
    assert Pull(y.src).1.value in multiset(InFlight(y.src.drv));
    assert multiset(InFlight(y.src.drv))[x] + Attached(y.pump.acquired)[x] + Pending(y.pump.next)[x]
        + multiset(y.hist.lost)[x] <= 1;
  }

  /** The copies that the pump still needs are what they were, and the new one is what was handed out. */
  lemma ArrivalCopies(y: Sys, out: seq<V4l2Buffer>)
    requires Own(y) && AllArrived(y, out) && Pull(y.src).1.Some?
    ensures Dqbuf(y.src.drv).1.Some?
    ensures var (src, i, more) := (Pull(y.src).0, Pull(y.src).1.value, out + [Dqbuf(y.src.drv).1.value]);
      && src.buffers.Some? && src.mplane == y.src.mplane && Arrived(src, i, more)
      && forall x :: x >= 0 && (x == y.pump.next || x in y.pump.acquired) ==>
           && IsBuffer(y.src, x) && IsBuffer(src, x) && src.buffers.value[x] == y.src.buffers.value[x]
           && Arrived(src, x, more)
  {
    hide StreamOk, Pull, Dqbuf, InFlight, FullRing, Matched, Accounted, Own, CopyOf;
    OwnRuns(y);
    PullArrives(y.src);
    var (src, i, b) := (Pull(y.src).0, Pull(y.src).1.value, Dqbuf(y.src.drv).1.value);
    var more := out + [b];
    CopiedOut(y.src);
    assert more[|out|] == b;
    forall x | x >= 0 && (x == y.pump.next || x in y.pump.acquired)
      ensures IsBuffer(y.src, x) && IsBuffer(src, x) && src.buffers.value[x] == y.src.buffers.value[x]
      ensures Arrived(src, x, more)
    {
      NewBufferIsNew(y, x);
      ArrivedMore(y.src, x, out, [b]);
      ArrivedStays(y.src, src, x, more);
    }
  }

  lemma OwnRuns(y: Sys)
    requires Own(y)
    ensures Running(y.src) && Running(y.dst)
  {}

  lemma CopiedOut(s: Stream)
    requires StreamOk(s) && Pull(s).1.Some?
    ensures Dqbuf(s.drv).1.Some? && IsBuffer(Pull(s).0, Pull(s).1.value)
    ensures CopyOf(s.mplane, Pull(s).0.buffers.value[Pull(s).1.value].buffer, Dqbuf(s.drv).1.value)
  {
    hide StreamOk, Pull, Dqbuf;
    PullArrives(s);
  }

  lemma CarriedReplace(y: Sys, out: seq<V4l2Buffer>)
    requires Own(y) && Carried(y, out) && Pull(y.src).1.Some?
    ensures Dqbuf(y.src.drv).1.Some?
    ensures Carried(Replace(y, Pull(y.src).0, Pull(y.src).1.value).0, out + [Dqbuf(y.src.drv).1.value])
  {
    hide Own, StreamOk, Pull, Dqbuf, Arrived, Describes, Qbuf, AllArrived;
    ArrivalCopies(y, out);
    OwnReplace(y);
    var (src, i, more) := (Pull(y.src).0, Pull(y.src).1.value, out + [Dqbuf(y.src.drv).1.value]);
    var y1 := Replace(y, src, i).0;
    KeptCopies(y, src, i, y1, more);
    forall b | b in y1.dst.drv.queued
      ensures Told(y1, b)
    {
      assert Told(y, b);
      assert y.pump.acquired[b.index] in y.pump.acquired;
    }
  }

  lemma KeptCopies(y: Sys, src: Stream, i: nat, z: Sys, out: seq<V4l2Buffer>)
    requires z.src.buffers == src.buffers && z.src.mplane == src.mplane && z.pump.acquired == y.pump.acquired
    requires z.pump.next == y.pump.next || z.pump.next == i
    requires Arrived(src, i, out)
    requires forall x :: x >= 0 && (x == y.pump.next || x in y.pump.acquired) ==> Arrived(src, x, out)
    ensures AllArrived(z, out)
  {
    hide CopyOf;
    if z.pump.next >= 0 {
      ArrivedStays(src, z.src, z.pump.next, out);
    }
    forall k | 0 <= k < |z.pump.acquired| && z.pump.acquired[k] >= 0
      ensures Arrived(z.src, z.pump.acquired[k], out)
    {
      assert z.pump.acquired[k] in y.pump.acquired;
      ArrivedStays(src, z.src, z.pump.acquired[k], out);
    }
  }

  /** What a pass function says about length and payload, whatever kind it is, unless it copies. */
  lemma PassDescribes(kind: PassKind, src: Buffer, dst: Buffer, n: nat)
    requires Pass(kind, src, dst, n).Some? && kind != MmapMPToMmapSP
    ensures Describes(kind, n, src.buffer, Pass(kind, src, dst, n).value.buffer)
  {}

  lemma PushQueue(s: Stream, i: int)
    requires IsBuffer(s, i)
    ensures forall b :: b in PushIndex(s, i).0.drv.queued ==>
      b in s.drv.queued || (PushIndex(s, i).1 == 0 && b == s.buffers.value[i].buffer)
  {
    hide Elapse, InFlight;
    ElapseQueued(s.drv);
  }

  lemma CarriedForward(y: Sys, out: seq<V4l2Buffer>)
    requires Own(y) && Carried(y, out)
    ensures Carried(Forward(y).0, out)
  {
    hide StreamOk, InFlight, Accounted, Matched, Forward, Contents, Pass, PushIndex, Describes, Arrived, RingPop;
    OwnForward(y);
    if HasWork(y) && !WouldAbort(y) {
      ForwardValue(y);
      var h := Contents(y.pump.available)[0];
      var described := Described(y, h);
      PushMoves(described, h);
      PlanesOf(described, h);
      PushQueue(described, h);
      HeadDescribes(y, h);
      var y1 := Forward(y).0;
      forall b | b in y1.dst.drv.queued
        ensures Told(y1, b)
      {
        if b in y.dst.drv.queued {
          assert Told(y, b);
        } else {
          assert b == described.buffers.value[h].buffer;
          assert y1.src == y.src && y1.pump.acquired[b.index] == y.pump.next;
        }
      }
    }
  }

  /** The head of the ring describes the pending frame when it is queued. */
  lemma HeadDescribes(y: Sys, h: int)
    requires IsBuffer(y.dst, h) && IsBuffer(y.src, y.pump.next)
    requires Pass(y.pump.kind, y.src.buffers.value[y.pump.next], y.dst.buffers.value[h], y.pump.planes).Some?
    ensures y.pump.kind != MmapMPToMmapSP ==>
      Describes(y.pump.kind, y.pump.planes, y.src.buffers.value[y.pump.next].buffer,
                Described(y, h).buffers.value[h].buffer)
  {
    hide Pass, Describes;
    if y.pump.kind != MmapMPToMmapSP {
      PassDescribes(y.pump.kind, y.src.buffers.value[y.pump.next], y.dst.buffers.value[h], y.pump.planes);
    }
  }

  lemma CarriedDrivers(y: Sys, src: Driver, dst: Driver, out: seq<V4l2Buffer>)
    requires Carried(y, out) && forall b :: b in dst.queued ==> b in y.dst.drv.queued
    ensures Carried(y.(src := y.src.(drv := src), dst := y.dst.(drv := dst)), out)
  {
    hide Describes, CopyOf;
    var z := y.(src := y.src.(drv := src), dst := y.dst.(drv := dst));
    forall b | b in z.dst.drv.queued
      ensures Told(z, b)
    {
      assert Told(y, b);
    }
  }

  // ---------- whole runs ----------

  /** What the source hands out in step 2. */
  function OutOfDrain(y: Sys): seq<V4l2Buffer>
    decreases |y.src.drv.tape|, |y.src.drv.done|
  {
    var (src, got) := Pull(y.src);
    if got.None? || Dqbuf(y.src.drv).1.None? then [] else
      var (y1, o) := Replace(y, src, got.value);
      [Dqbuf(y.src.drv).1.value] + if o == Code(0) then OutOfDrain(y1) else []
  }

  /** And in a call. */
  function OutOfCall(y: Sys): seq<V4l2Buffer> {
    var (y1, o) := DrainDst(y);
    if o == Code(0) then OutOfDrain(y1) else []
  }

  /** And in a run: every buffer that the source's driver has handed out, as it handed it out. */
  function HandedOut(y: Sys, moves: seq<Move>): seq<V4l2Buffer>
    decreases |moves|
  {
    if moves == [] then [] else
      (if moves[0].CallPump? then OutOfCall(y) else [])
      + var (y1, o) := Moved(y, moves[0]); if o == Abort then [] else HandedOut(y1, moves[1..])
  }

  lemma {:induction false} CarriedDrainDst(y: Sys, out: seq<V4l2Buffer>)
    requires Inv(y, false) && Carried(y, out)
    ensures Carried(DrainDst(y).0, out)
    decreases |Held(y.dst.drv)|
  {
    hide Own, Frames, MemoryOk, InRotation, Carried, Pull, TakeBack;
    if Pull(y.dst).1.None? {
      CarriedIdleDst(y, out);
    } else {
      TakeBackInv(y, false);
      CarriedTakeBack(y, out);
      var (y1, o) := TakeBack(y, Pull(y.dst).0, Pull(y.dst).1.value);
      if o == Code(0) {
        CarriedDrainDst(y1, out);
      }
    }
  }

  lemma CarriedIdleDst(y: Sys, out: seq<V4l2Buffer>)
    requires Inv(y, false) && Carried(y, out) && Pull(y.dst).1.None?
    ensures Carried(y.(dst := Pull(y.dst).0), out)
  {
    hide Own, Frames, MemoryOk, InRotation, Carried, Pull;
    PullsNothing(y.dst);
    TakeBackQueue(y);
    CarriedDrivers(y, y.src.drv, Pull(y.dst).0.drv, out);
  }

  lemma CarriedIdleSrc(y: Sys, out: seq<V4l2Buffer>)
    requires Carried(y, out) && Pull(y.src).1.None?
    ensures Carried(y.(src := Pull(y.src).0), out)
  {
    hide Carried, Pull;
    PullsNothing(y.src);
    CarriedDrivers(y, Pull(y.src).0.drv, y.dst.drv, out);
  }

  lemma {:induction false} CarriedDrainSrc(y: Sys, out: seq<V4l2Buffer>)
    requires Inv(y, false) && Carried(y, out)
    ensures Carried(DrainSrc(y).0, out + OutOfDrain(y))
    decreases |y.src.drv.tape|, |y.src.drv.done|
  {
    hide Own, Frames, MemoryOk, InRotation, Carried, Pull, Replace, Dqbuf;
    if Pull(y.src).1.None? {
      CarriedIdleSrc(y, out);
      assert out + OutOfDrain(y) == out;
    } else {
      ReplaceInv(y, false);
      CarriedReplace(y, out);
      var (y1, o) := Replace(y, Pull(y.src).0, Pull(y.src).1.value);
      var b := Dqbuf(y.src.drv).1.value;
      if o == Code(0) {
        CarriedDrainSrc(y1, out + [b]);
        assert (out + [b]) + OutOfDrain(y1) == out + ([b] + OutOfDrain(y1));
      } else {
        assert [b] + [] == [b];
      }
    }
  }

  lemma CarriedCall(y: Sys, out: seq<V4l2Buffer>)
    requires Inv(y, false) && Carried(y, out)
    ensures Carried(PumpCall(y).0, out + OutOfCall(y))
  {
    hide Frames, MemoryOk, InRotation, Carried, DrainDst, DrainSrc, Forward, Own, OutOfDrain;
    CarriedDrainDst(y, out);
    DrainDstInv(y, false);
    var (y1, o1) := DrainDst(y);
    assert out + [] == out;
    if o1 == Code(0) {
      CarriedDrainSrc(y1, out);
      DrainSrcInv(y1, false);
      var (y2, o2) := DrainSrc(y1);
      if o2 == Code(0) {
        CarriedForward(y2, out + OutOfDrain(y1));
      }
    }
  }

  lemma CarriedMove(y: Sys, m: Move, out: seq<V4l2Buffer>)
    requires Inv(y, false) && Carried(y, out)
    ensures Carried(Moved(y, m).0, out + if m.CallPump? then OutOfCall(y) else [])
  {
    hide Inv, Carried, PumpCall, OutOfCall, Complete;
    assert out + [] == out;
    match m
    case CallPump => CarriedCall(y, out);
    case SourceDone(f) => CarriedDrivers(y, Complete(y.src.drv, f), y.dst.drv, out);
    case DestDone(f) =>
      CompleteQueued(y.dst.drv, f);
      CarriedDrivers(y, y.src.drv, Complete(y.dst.drv, f), out);
  }

  lemma CompleteQueued(d: Driver, f: Fill)
    ensures forall b :: b in Complete(d, f).queued ==> b in d.queued
  {}

  lemma {:induction false} CarriedRun(y: Sys, moves: seq<Move>, out: seq<V4l2Buffer>)
    requires Inv(y, false) && Carried(y, out)
    ensures Carried(Run(y, moves).0, out + HandedOut(y, moves))
    decreases |moves|
  {
    hide Inv, Carried, Moved, OutOfCall;
    if moves == [] {
      assert out + HandedOut(y, moves) == out;
    } else {
      var more := if moves[0].CallPump? then OutOfCall(y) else [];
      CarriedMove(y, moves[0], out);
      MovedInv(y, moves[0], false);
      var (y1, o) := Moved(y, moves[0]);
      if o == Abort {
        assert more + [] == more;
      } else {
        CarriedRun(y1, moves[1..], out + more);
        assert (out + more) + HandedOut(y1, moves[1..]) == out + (more + HandedOut(y1, moves[1..]));
      }
    }
  }

  /**
   Frames keep their payload. Whatever buffer is queued at the destination, after any run of a pump that
   does not copy, the source's driver has handed out one whose number is that of the frame recorded for it,
   and for every plane that the driver filled in, the destination is told its length and its payload.
  */
  lemma FramesKeepTheirPayload(src: Stream, dst: Stream, moves: seq<Move>, b: V4l2Buffer)
    requires Pumpable(src, dst) && b in After(src, dst, moves).0.dst.drv.queued
    ensures var y := After(src, dst, moves).0;
      var out := HandedOut(Sys(src, dst, Create(src, dst).value, NO_HISTORY), moves);
      && b.index < |y.pump.acquired| && IsBuffer(y.src, y.pump.acquired[b.index])
      && exists j :: 0 <= j < |out|
           && out[j].index == y.pump.acquired[b.index] && out[j].sequence == FrameIn(y.src, y.pump.acquired[b.index])
           && (y.pump.kind != MmapMPToMmapSP ==> Carries(y.pump.kind, y.pump.planes, out[j], b))
  {
    hide Own, Frames, MemoryOk, InRotation, Run, Create, HandedOut, Describes, CopyOf, Carries, StreamOk;
    CreatedInv(src, dst, false);
    var y0 := Sys(src, dst, Create(src, dst).value, NO_HISTORY);
    CarriedFirst(src, dst);
    CarriedRun(y0, moves, []);
    var y, out := After(src, dst, moves).0, HandedOut(y0, moves);
    assert [] + out == out;
    assert Told(y, b);
    AfterInv(src, dst, moves, false);
    var s := y.pump.acquired[b.index];
    OwnRuns(y);
    assert Arrived(y.src, s, out);
    var j :| 0 <= j < |out| && CopyOf(y.src.mplane, y.src.buffers.value[s].buffer, out[j]);
    CopyIndex(y, s, out[j]);
    if y.pump.kind != MmapMPToMmapSP {
      AfterKind(src, dst, moves);
      DescribesCopy(y.pump.kind, y.pump.planes, y.src.buffers.value[s].buffer, out[j], b);
    }
  }

  lemma CarriedFirst(src: Stream, dst: Stream)
    requires Pumpable(src, dst)
    ensures Carried(Sys(src, dst, Create(src, dst).value, NO_HISTORY), [])
  {
    hide StreamOk, FindPass;
  }

  lemma CopyIndex(y: Sys, s: int, handed: V4l2Buffer)
    requires Running(y.src) && IsBuffer(y.src, s) && CopyOf(y.src.mplane, y.src.buffers.value[s].buffer, handed)
    ensures handed.index == s && handed.sequence == FrameIn(y.src, s)
    ensures |y.src.buffers.value[s].buffer.planes| == |handed.planes|
  {
    hide DriverOk;
  }

  /** The kind of a pump goes with its source. */
  lemma AfterKind(src: Stream, dst: Stream, moves: seq<Move>)
    requires Create(src, dst).Some?
    ensures var y := After(src, dst, moves).0; SourceIsMplane(y.pump.kind) == y.src.mplane
  {
    hide Run, FindPass;
    AfterParts(src, dst, moves);
    TableRows(src, dst);
  }

  /** The destination's b tells what the source said when it handed out the buffer, in all planes that it filled in. */
  predicate Carries(kind: PassKind, n: nat, handed: V4l2Buffer, b: V4l2Buffer) {
    forall p :: 0 <= p < n && p < |b.planes| && p < |handed.planes| && (SourceIsMplane(kind) ==> p < handed.length) ==>
      && PlaneOf(DestIsMplane(kind), b, p).length == PlaneOf(SourceIsMplane(kind), handed, p).length
      && PlaneOf(DestIsMplane(kind), b, p).bytesused == PlaneOf(SourceIsMplane(kind), handed, p).bytesused
  }

  lemma DescribesCopy(kind: PassKind, n: nat, copy: V4l2Buffer, handed: V4l2Buffer, b: V4l2Buffer)
    requires CopyOf(SourceIsMplane(kind), copy, handed) && Describes(kind, n, copy, b)
    requires |copy.planes| == |handed.planes|
    ensures Carries(kind, n, handed, b)
  {}
}
