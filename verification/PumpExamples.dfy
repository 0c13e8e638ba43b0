/**
 Two runs of a created pump, call by call, from freshly started streams. In one the destination
 completes its buffers out of order, and a call fails although a destination buffer is free. In the
 other `buffers_count` exceeds the destination's buffers, and the second frame leaves the array.
*/
module PumpExamples {
  import opened Common
  import opened V4l2
  import opened Streams
  import opened Rings
  import opened Pumps
  import opened PumpOwnership
  import opened PumpFrames
  import opened PumpMemory
  import opened PumpFifo
  import opened PumpRuns
  import opened PumpAborts

  const NOTHING := Tick(0, 0, 0, [])

  /** The queued buffer at position k completes. */
  function Done(k: nat): Tick {
    Tick(0, 0, 0, [Fill(k, 0, [])])
  }

  // ---------- one ioctl ----------

  /** A streaming stream with these buffers queued, nothing completed, and this tape. */
  ghost predicate At(s: Stream, queued: seq<int>, tape: seq<Tick>) {
    Running(s) && s.drv.done == [] && Indices(s.drv.queued) == queued && s.drv.tape == tape
  }

  /** At the next ioctl nothing fails and nothing completes. */
  predicate Quiet(tape: seq<Tick>) {
    tape == [] || tape[0] == NOTHING
  }

  function Rest(tape: seq<Tick>): seq<Tick> {
    if tape == [] then [] else tape[1..]
  }

  function Without(s: seq<int>, k: nat): seq<int>
    requires k < |s|
  {
    s[..k] + s[k + 1..]
  }

  lemma AtInFlight(s: Stream, queued: seq<int>, tape: seq<Tick>)
    requires At(s, queued, tape)
    ensures InFlight(s.drv) == queued
  {
    assert Held(s.drv) == s.drv.queued;
  }

  lemma QuietElapse(d: Driver)
    requires Quiet(d.tape)
    ensures Elapse(d) == d.(tape := Rest(d.tape)) && Errno(d) == 0
  {}

  lemma DoneElapse(d: Driver, k: nat)
    requires d.streaming && d.done == [] && k < |d.queued| && d.tape != [] && d.tape[0] == Done(k)
    ensures Errno(d) == 0
    ensures var e := Elapse(d);
      && e.tape == d.tape[1..] && |e.done| == 1 && e.done[0].index == d.queued[k].index
      && e.queued == d.queued[..k] + d.queued[k + 1..]
  {
    var d1 := d.(tape := d.tape[1..]);
    var fills := d.tape[0].fills;
    assert fills[1..] == [];
    assert CompleteAll(d1, fills) == CompleteAll(Complete(d1, fills[0]), []);
  }

  lemma PullQuiet(s: Stream, queued: seq<int>, tape: seq<Tick>)
    requires At(s, queued, tape) && Quiet(tape)
    ensures Pull(s).1.None? && At(Pull(s).0, queued, Rest(tape))
  {
    hide StreamOk, Elapse;
    PullMoves(s);
    QuietElapse(s.drv);
  }

  lemma PullDone(s: Stream, queued: seq<int>, tape: seq<Tick>, k: nat)
    requires At(s, queued, tape) && k < |queued| && tape != [] && tape[0] == Done(k)
    ensures Pull(s).1.Some? && Pull(s).1.value == queued[k] && At(Pull(s).0, Without(queued, k), tape[1..])
  {
    hide DriverOk, BuffersOk, Elapse;
    PullMoves(s);
    DoneElapse(s.drv, k);
    var t := Pull(s).0;
    assert t.drv.done == [];
    assert Indices(t.drv.queued) == Without(queued, k);
  }

  lemma QbufQuiet(d: Driver, queued: seq<int>, b: V4l2Buffer)
    requires d.done == [] && Indices(d.queued) == queued && Quiet(d.tape) && b.index < d.count
    ensures var (e, code) := Qbuf(d, b);
      && e.done == [] && e.tape == Rest(d.tape)
      && (b.index !in queued ==> code == 0 && Indices(e.queued) == queued + [b.index])
      && (b.index in queued ==> code == EINVAL && Indices(e.queued) == queued)
  {
    hide Elapse;
    QuietElapse(d);
    var e := Elapse(d);
    assert Held(e) == d.queued;
    assert InFlight(e) == queued;
    assert Indices(e.queued + [b]) == queued + [b.index];
  }

  /** QBUF at a quiet moment: accepted if the buffer is not queued, refused with EINVAL if it is. */
  lemma PushQuiet(s: Stream, queued: seq<int>, tape: seq<Tick>, i: nat)
    requires At(s, queued, tape) && Quiet(tape) && IsBuffer(s, i)
    ensures var (t, code) := PushIndex(s, i);
      && (i !in queued ==> code == 0 && At(t, queued + [i], Rest(tape)))
      && (i in queued ==> code == EINVAL && At(t, queued, Rest(tape)))
  {
    hide DriverOk, Qbuf, Indices, InFlight;
    PushMoves(s, i);
    QbufQuiet(s.drv, queued, s.buffers.value[i].buffer);
  }

  // ---------- one step ----------

  lemma DestinationIdle(y: Sys, queued: seq<int>, tape: seq<Tick>)
    requires At(y.dst, queued, tape) && Quiet(tape)
    ensures var (y1, o) := DrainDst(y);
      o == Code(0) && y1 == y.(dst := y1.dst) && At(y1.dst, queued, Rest(tape))
  {
    hide At, Pull;
    PullQuiet(y.dst, queued, tape);
  }

  /** A new frame, and then no more. */
  lemma SourceDelivers(y: Sys, queued: seq<int>, tape: seq<Tick>)
    requires At(y.src, queued, tape) && queued != [] && y.pump.next == -1
    requires tape != [] && tape[0] == Done(0) && Quiet(tape[1..])
    ensures var (y2, o) := DrainSrc(y);
      && o == Code(0) && y2.dst == y.dst && y2.pump == y.pump.(next := queued[0])
      && y2.hist.used == y.hist.used && y2.hist.reclaimed == y.hist.reclaimed
      && At(y2.src, queued[1..], Rest(tape[1..]))
  {
    hide At, Pull;
    PullDone(y.src, queued, tape, 0);
    assert Without(queued, 0) == queued[1..];
    var src := Pull(y.src).0;
    PullQuiet(src, queued[1..], tape[1..]);
    var y1 := Replace(y, src, queued[0]).0;
    assert y1.src == src && y1.pump == y.pump.(next := queued[0]);
    assert DrainSrc(y1) == (y1.(src := Pull(src).0), Code(0));
  }

  lemma HeadInTurn(y: Sys)
    requires Inv(y, false) && |y.pump.acquired| > 0
    ensures Contents(y.pump.available) != []
    ensures Contents(y.pump.available)[0] == InTurn(|y.hist.used|, |y.pump.acquired|)
  {
    hide Own, Frames, MemoryOk, InTurn, Contents;
    assert Contents(y.pump.available)[0] == InTurn(|y.hist.used| + 0, |y.pump.acquired|);
  }

  /** Step 3 at a quiet moment: it depends only on whether the next index in turn is queued. */
  lemma StepThree(y: Sys, queued: seq<int>, tape: seq<Tick>)
    requires Inv(y, false) && HasWork(y) && PassSafe(y.pump.kind, y.pump.planes)
    requires At(y.dst, queued, tape) && Quiet(tape) && InTurn(|y.hist.used|, |y.pump.acquired|) < |y.dst.buffers.value|
    ensures var h := InTurn(|y.hist.used|, |y.pump.acquired|);
      && (h !in queued ==>
            && Forward(y).1 == Code(0) && At(Forward(y).0.dst, queued + [h], Rest(tape)) && Forward(y).0.src == y.src
            && Forward(y).0.pump.next == -1 && Forward(y).0.pump.acquired == y.pump.acquired[h := y.pump.next]
            && Forward(y).0.hist.used == y.hist.used + [h])
      && (h in queued ==>
            && Forward(y).1 == Code(EINVAL) && At(Forward(y).0.dst, queued, Rest(tape)) && Forward(y).0.src == y.src
            && Forward(y).0.pump == y.pump && Forward(y).0.hist == y.hist)
  {
    hide StreamOk, Frames, MemoryOk, Contents, Forward, PushIndex, Pass, Described, Accounted, Matched, InTurn,
      InFlight, InRotation, Indices;
    HeadInTurn(y);
    var h := InTurn(|y.hist.used|, |y.pump.acquired|);
    HeadOk(y);
    DescribedRuns(y, h);
    ForwardValue(y);
    var d := Described(y, h);
    assert At(d, queued, tape);
    PushQuiet(d, queued, tape, h);
  }

  // ---------- one call ----------

  /**
   What the examples keep in view between two calls: the buffers queued on either side, the tapes, the
   recorded source buffers and how many destination indices have been used.
  */
  ghost predicate View(y: Sys, srcQueued: seq<int>, srcTape: seq<Tick>, dstQueued: seq<int>, dstTape: seq<Tick>,
                       acquired: seq<int>, used: nat) {
    && Inv(y, false) && PassSafe(y.pump.kind, y.pump.planes)
    && At(y.src, srcQueued, srcTape) && At(y.dst, dstQueued, dstTape)
    && y.pump.next == -1 && y.pump.acquired == acquired && |y.hist.used| == used
  }

  /** One frame arrives and goes to the next destination buffer in turn, which is free. */
  lemma OneFrame(y: Sys, sq: seq<int>, st: seq<Tick>, dq: seq<int>, dt: seq<Tick>, acquired: seq<int>, used: nat,
    h: nat)
    requires View(y, sq, st, dq, dt, acquired, used)
    requires sq != [] && st != [] && st[0] == Done(0) && Quiet(st[1..]) && Quiet(dt) && Quiet(Rest(dt))
    requires |acquired| > 0 && h == InTurn(used, |acquired|) && h < |y.dst.buffers.value| && h !in dq && sq[0] >= 0
    ensures var (z, o) := PumpCall(y);
      o == Code(0) && View(z, sq[1..], Rest(st[1..]), dq + [h], Rest(Rest(dt)), acquired[h := sq[0]], used + 1)
  {
    hide Inv, At, DrainDst, DrainSrc, Forward, InTurn, Quiet, Rest, PassSafe;
    DestinationIdle(y, dq, dt);
    DrainDstInv(y, false);
    var y1 := DrainDst(y).0;
    SourceDelivers(y1, sq, st);
    DrainSrcInv(y1, false);
    var y2 := DrainSrc(y1).0;
    DrainDstParts(y);
    StepThree(y2, dq, Rest(dt));
    ForwardInv(y2, false);
    ForwardParts(y2);
  }

  // ---------- the streams of the examples ----------

  function Planes(): (p: seq<Plane>)
    ensures |p| == VIDEO_MAX_PLANES
  {
    seq(VIDEO_MAX_PLANES, _ => NO_PLANE)
  }

  function Slot(index: nat): Buffer {
    Buffer(V4l2Buffer(index, 0, 0, 0, 0, Planes()), seq(VIDEO_MAX_PLANES, _ => 0), seq(VIDEO_MAX_PLANES, _ => 0))
  }

  /** A camera with three buffers, all of them with the driver. */
  function Source(tape: seq<Tick>): Stream {
    Stream(true, false, 1, Streaming, DmabufExport, 3, Some([Slot(0), Slot(1), Slot(2)]),
           Driver(3, true, [Slot(0).buffer, Slot(1).buffer, Slot(2).buffer], [], 0, tape))
  }

  /** An output stream with the first n of two buffers, none of them with the driver. */
  function Dest(n: nat, count: nat, tape: seq<Tick>): Stream
    requires n <= 2
  {
    Stream(false, false, 1, Streaming, DmabufImport, count, Some([Slot(0), Slot(1)][..n]),
      Driver(n, true, [], [], 0, tape))
  }

  lemma SourceDriver(tape: seq<Tick>)
    ensures DriverOk(Source(tape).drv) && InFlight(Source(tape).drv) == [0, 1, 2]
  {
    hide InFlight, Sequences, NoDuplicates, Planes;
    var d := Source(tape).drv;
    assert Held(d) == d.queued;
    ThreeIndices(d);
    DistinctHasNoDuplicates([0, 1, 2]);
  }

  lemma ThreeIndices(d: Driver)
    requires Held(d) == [Slot(0).buffer, Slot(1).buffer, Slot(2).buffer]
    ensures InFlight(d) == [0, 1, 2]
  {}

  lemma SourceStarted(tape: seq<Tick>)
    ensures At(Source(tape), [0, 1, 2], tape) && multiset(InFlight(Source(tape).drv)) == multiset(Iota(3))
  {
    hide DriverOk, InFlight;
    SourceDriver(tape);
    assert Indices(Source(tape).drv.queued) == [0, 1, 2];
    assert Iota(3) == [0, 1, 2];
  }

  lemma DestStarted(n: nat, count: nat, tape: seq<Tick>)
    requires 0 < n <= 2
    ensures At(Dest(n, count, tape), [], tape) && Held(Dest(n, count, tape).drv) == []
  {
    NothingHeld(Dest(n, count, tape).drv);
    assert Indices(Dest(n, count, tape).drv.queued) == [];
  }

  lemma Fresh(src: Stream, dst: Stream, srcTape: seq<Tick>, dstTape: seq<Tick>, n: nat, count: nat)
    requires 0 < n <= 2 && src == Source(srcTape) && dst == Dest(n, count, dstTape)
    ensures Pumpable(src, dst)
    ensures IsDmabuf(Create(src, dst).value.kind)
      && PassSafe(Create(src, dst).value.kind, Create(src, dst).value.planes)
    ensures View(After(src, dst, Calls(0)).0, [0, 1, 2], srcTape, [], dstTape, seq(count, _ => -1), 0)
  {
    hide At, Inv, StreamOk, InFlight, Pass;
    SourceStarted(srcTape);
    DestStarted(n, count, dstTape);
    AtRuns(src, [0, 1, 2], srcTape);
    AtRuns(dst, [], dstTape);
    PassSafeExactly(src, dst, Slot(0), Slot(0));
    AfterInv(src, dst, Calls(0), false);
  }

  lemma AtRuns(s: Stream, queued: seq<int>, tape: seq<Tick>)
    requires At(s, queued, tape)
    ensures Running(s)
  {}

  // ---------- out of order ----------

  /** Frames arrive in calls 1, 2 and 3; in call 3 one more ioctl of the source comes first. */
  const FRAMES: seq<Tick> := [Done(0), NOTHING, Done(0), NOTHING, NOTHING, Done(0)]

  /** In call 3 the younger of the two destination buffers completes. */
  const YOUNGER: seq<Tick> := [NOTHING, NOTHING, NOTHING, NOTHING, Done(1)]

  /** The younger destination buffer comes back and its source buffer is returned. */
  lemma YoungerReturns(y: Sys)
    requires View(y, [2], [NOTHING, Done(0)], [0, 1], [Done(1)], [0, 1], 2) && |y.src.buffers.value| == 3
    ensures var (y1, o) := DrainDst(y);
      && o == Code(0) && y1.pump == y.pump.(acquired := [0, -1])
      && y1.hist.used == y.hist.used && y1.hist.reclaimed == y.hist.reclaimed + [1]
      && At(y1.src, [2, 1], [Done(0)]) && At(y1.dst, [0], [])
  {
    hide At, Inv, Pull, PushIndex, PassSafe;
    PullDone(y.dst, [0, 1], [Done(1)], 1);
    assert Without([0, 1], 1) == [0] && [Done(1)][1..] == [] && Rest([NOTHING, Done(0)]) == [Done(0)];
    var dst := Pull(y.dst).0;
    AtRuns(y.src, [2], [NOTHING, Done(0)]);
    PushQuiet(y.src, [2], [NOTHING, Done(0)], 1);
    assert [2] + [1] == [2, 1];
    assert [0, 1][1 := -1] == [0, -1];
    var y1 := TakeBack(y, dst, 1).0;
    assert TakeBack(y, dst, 1).1 == Code(0);
    PullQuiet(y1.dst, [0], []);
    assert DrainDst(y1) == (y1.(dst := Pull(y1.dst).0), Code(0));
  }

  lemma ThirdCall(y: Sys)
    requires View(y, [2], [NOTHING, Done(0)], [0, 1], [Done(1)], [0, 1], 2)
    requires |y.src.buffers.value| == 3 && |y.dst.buffers.value| == 2
    ensures var (z, o) := PumpCall(y);
      && o == Code(EINVAL) && z.pump.next == 2 && z.pump.acquired == [0, -1] && At(z.dst, [0], [])
      && z.hist.used == y.hist.used && z.hist.reclaimed == y.hist.reclaimed + [1]
  {
    hide At, Inv, DrainDst, DrainSrc, Forward, PassSafe;
    YoungerReturns(y);
    DrainDstInv(y, false);
    DrainDstParts(y);
    var y1 := DrainDst(y).0;
    SourceDelivers(y1, [2, 1], [Done(0)]);
    DrainSrcInv(y1, false);
    var y2 := DrainSrc(y1).0;
    assert InTurn(2, 2) == 0;
    StepThree(y2, [0], []);
  }

  /** The first two calls. */
  lemma TwoFrames(src: Stream, dst: Stream)
    requires src == Source(FRAMES) && dst == Dest(2, 2, YOUNGER)
    ensures SafePair(src, dst)
    ensures After(src, dst, Calls(2)).1 == Code(0)
    ensures View(After(src, dst, Calls(2)).0, [2], [NOTHING, Done(0)], [0, 1], [Done(1)], [0, 1], 2)
  {
    hide View, PumpCall, Run, Create, Started;
    Fresh(src, dst, FRAMES, YOUNGER, 2, 2);
    var y0 := After(src, dst, Calls(0)).0;
    NextCall(src, dst, 0);
    NextCall(src, dst, 1);
    AfterParts(src, dst, Calls(0));
    AfterParts(src, dst, Calls(1));
    assert seq(2, _ => -1) == [-1, -1];
    OneFrame(y0, [0, 1, 2], FRAMES, [], YOUNGER, [-1, -1], 0, 0);
    var y1 := PumpCall(y0).0;
    var frames, younger := [Done(0), NOTHING, NOTHING, Done(0)], [NOTHING, NOTHING, Done(1)];
    assert Rest(FRAMES[1..]) == frames && Rest(Rest(YOUNGER)) == younger;
    assert [0, 1, 2][1..] == [1, 2] && [] + [0] == [0] && [-1, -1][0 := 0] == [0, -1];
    OneFrame(y1, [1, 2], frames, [0], younger, [0, -1], 1, 1);
    assert Rest(frames[1..]) == [NOTHING, Done(0)] && Rest(Rest(younger)) == [Done(1)];
    assert [1, 2][1..] == [2] && [0] + [1] == [0, 1] && [0, -1][1 := 1] == [0, 1];
  }

  lemma NextCall(src: Stream, dst: Stream, n: nat)
    requires Create(src, dst).Some?
    ensures After(src, dst, Calls(0)).1 == Code(0)
    ensures After(src, dst, Calls(n)).1 == Code(0) ==>
      var (z, o) := PumpCall(After(src, dst, Calls(n)).0);
      After(src, dst, Calls(n + 1)) == (z, if o == Abort then Abort else Code(0))
  {
    hide PumpCall, Create;
    var y := Sys(src, dst, Create(src, dst).value, NO_HISTORY);
    assert Calls(n + 1) == Calls(n) + [CallPump];
    if Run(y, Calls(n)).1 == Code(0) {
      RunSnoc(y, Calls(n), CallPump);
    }
  }

  /**
   A run from a fresh start, with no failing ioctl, in which the destination completes out of order:
   two frames are forwarded, then the younger of the two destination buffers comes back. The third
   call tries the older one, which is still in flight, and fails with EINVAL although the other one is
   free and a frame is pending.
  */
  lemma OutOfOrderStalls()
    ensures var (src, dst) := (Source(FRAMES), Dest(2, 2, YOUNGER));
      && SafePair(src, dst) && NothingFails(src.drv.tape) && NothingFails(dst.drv.tape)
      && After(src, dst, Calls(2)).1 == Code(0)
      && PumpCall(After(src, dst, Calls(2)).0).1 == Code(EINVAL)
      && After(src, dst, Calls(3)) == (PumpCall(After(src, dst, Calls(2)).0).0, Code(0))
      && var y := After(src, dst, Calls(3)).0;
         y.pump.next == 2 && InFlight(y.dst.drv) == [0] && y.pump.acquired == [0, -1]
         && !(y.hist.reclaimed <= y.hist.used) && !Fifo(y)
  {
    hide View, PumpCall, Run, Create, Started, Fifo, InFlight, At, FindPass;
    var src, dst := Source(FRAMES), Dest(2, 2, YOUNGER);
    TwoFrames(src, dst);
    AfterParts(src, dst, Calls(2));
    NextCall(src, dst, 2);
    ThirdCall(After(src, dst, Calls(2)).0);
    AtInFlight(After(src, dst, Calls(3)).0.dst, [0], []);
    NothingReturned(After(src, dst, Calls(2)).0);
    NotInOrder(src, dst);
  }

  lemma NothingReturned(y: Sys)
    requires View(y, [2], [NOTHING, Done(0)], [0, 1], [Done(1)], [0, 1], 2)
    ensures y.hist.reclaimed == [] && |y.hist.used| == 2
  {
    hide Own, Frames, MemoryOk, InRotation, PassSafe, At, InFlight;
    BusyIs(y);
    AtInFlight(y.dst, [0, 1], [Done(1)]);
  }

  /** The first index that came back is not the first one used. */
  lemma NotInOrder(src: Stream, dst: Stream)
    requires Pumpable(src, dst) && dst.count == 2
    requires After(src, dst, Calls(3)).0.hist.reclaimed == [1] && |After(src, dst, Calls(3)).0.hist.used| == 2
    ensures var y := After(src, dst, Calls(3)).0; !(y.hist.reclaimed <= y.hist.used) && !Fifo(y)
  {
    hide Own, Frames, MemoryOk, Create, Started, After, InFlight, Contents, InRotation;
    RingIsFifoExactly(src, dst, Calls(3));
    AfterInv(src, dst, Calls(3), false);
    var y := After(src, dst, Calls(3)).0;
    FifoExactly(y);
    assert y.hist.used[0] == 0 % 2;
    var reclaimed: seq<int> := [1];
    assert reclaimed[0] != y.hist.used[0];
  }

  // ---------- beyond the destination's buffers ----------

  const TWO_FRAMES: seq<Tick> := [Done(0), NOTHING, Done(0)]

  lemma FirstFrame(src: Stream, dst: Stream)
    requires src == Source(TWO_FRAMES) && dst == Dest(1, 3, [])
    ensures Pumpable(src, dst) && IsDmabuf(Create(src, dst).value.kind)
    ensures After(src, dst, Calls(1)).1 == Code(0)
    ensures View(After(src, dst, Calls(1)).0, [1, 2], [Done(0)], [0], [], [0, -1, -1], 1)
  {
    hide View, PumpCall, Run, Create, Started;
    Fresh(src, dst, TWO_FRAMES, [], 1, 3);
    NextCall(src, dst, 0);
    AfterParts(src, dst, Calls(0));
    assert seq(3, _ => -1) == [-1, -1, -1] && [-1, -1, -1][0 := 0] == [0, -1, -1];
    assert Rest(TWO_FRAMES[1..]) == [Done(0)] && [0, 1, 2][1..] == [1, 2] && [] + [0] == [0];
    OneFrame(After(src, dst, Calls(0)).0, [0, 1, 2], TWO_FRAMES, [], [], [-1, -1, -1], 0, 0);
  }

  /** A second frame arrives, and the destination has given nothing back. */
  lemma SecondFrameComes(y: Sys)
    requires View(y, [1, 2], [Done(0)], [0], [], [0, -1, -1], 1)
    ensures WantsToForward(y) && |y.hist.forwarded| == 1
  {
    hide At, Own, Frames, MemoryOk, DrainDst, DrainSrc, PassSafe, FullRing, Turn;
    DestinationIdle(y, [0], []);
    SourceDelivers(DrainDst(y).0, [1, 2], [Done(0)]);
  }

  /**
   A run from a fresh start, with no failing ioctl, that leaves the destination's array. The destination
   was granted one buffer and `buffers_count` says three, as a second prepare leaves it; the first frame
   is forwarded, and the call that has a second one aborts.
  */
  lemma SecondFrameAborts()
    ensures var (src, dst) := (Source(TWO_FRAMES), Dest(1, 3, []));
      && Pumpable(src, dst) && !CountCovered(dst) && NothingFails(src.drv.tape) && NothingFails(dst.drv.tape)
      && After(src, dst, Calls(1)).1 == Code(0) && |After(src, dst, Calls(1)).0.hist.forwarded| == 1
      && After(src, dst, Calls(2)).1 == Abort
  {
    hide View, PumpCall, Run, Create, Started, WantsToForward;
    var src, dst := Source(TWO_FRAMES), Dest(1, 3, []);
    FirstFrame(src, dst);
    SecondFrameComes(After(src, dst, Calls(1)).0);
    AbortsExactly(src, dst, Calls(1));
    NextCall(src, dst, 1);
  }
}
