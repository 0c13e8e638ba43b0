/**
 The pump over whole runs: what holds after any number of calls of pumpPump and any completions
 between them, from its creation on a freshly started pair of streams, for every tape of failures
 and of completions within a call.
*/
module PumpRuns {
  import opened Common
  import opened V4l2
  import opened Streams
  import opened Rings
  import opened Pumps
  import opened PumpOwnership
  import opened PumpFrames
  import opened PumpMemory
  import opened PumpFifo

  /** Everything the pump maintains; the last part is only promised when the destination completes in order. */
  ghost predicate Inv(y: Sys, inOrder: bool) {
    && Own(y) && Frames(y) && MemoryOk(y) && InRotation(y)
    && (inOrder ==> Ordered(y) && InOrder(y.dst.drv.tape))
  }

  // ---------- the first state ----------

  /** The two streams as a successful start of both nodes leaves them. */
  ghost predicate Started(src: Stream, dst: Stream) {
    && Running(src) && multiset(InFlight(src.drv)) == multiset(Iota(|src.buffers.value|))
    && Running(dst) && Held(dst.drv) == []
  }

  lemma CreatedRing(n: nat)
    ensures var q := Ring(Iota(n), n, 0); FullRing(q, n) && Contents(q) == Iota(n)
  {
    var q := Ring(Iota(n), n, 0);
    assert forall k :: 0 <= k < n ==> Contents(q)[k] == q.slots[Wrap(0 + k, n)];
    assert Contents(q) == Iota(n);
  }

  lemma CreatedOwn(src: Stream, dst: Stream)
    requires Started(src, dst) && Create(src, dst).Some?
    ensures Own(Sys(src, dst, Create(src, dst).value, NO_HISTORY))
  {
    hide StreamOk, Contents, FullRing, FindPass;
    CreatedRing(dst.count);
    AttachedNone(dst.count);
    assert InFlight(dst.drv) == [];
    var inSource := multiset(InFlight(src.drv));
    assert inSource + multiset{} + multiset{} + multiset([]) == inSource;
  }

  /**
   A pump created on a freshly started pair satisfies the invariant, whatever the hardware did since
   the start, however many buffers each side has, and whatever `buffers_count` says of them.
  */
  lemma CreatedInv(src: Stream, dst: Stream, inOrder: bool)
    requires Started(src, dst) && Create(src, dst).Some?
    requires inOrder ==> InOrder(dst.drv.tape)
    ensures Inv(Sys(src, dst, Create(src, dst).value, NO_HISTORY), inOrder)
  {
    hide StreamOk, Contents, Own, FindPass, FullRing, InTurn;
    CreatedOwn(src, dst);
    CreatedRing(dst.count);
    var none: seq<int> := [];
    assert InFlight(dst.drv) == none && none == none + none;
    assert multiset(none) == multiset(none) + multiset(none);
  }

  /** A pump for passing DMABUFs is always created. */
  lemma DmabufPump(src: Stream, dst: Stream)
    requires src.memory == DmabufExport && dst.memory == DmabufImport
    ensures Create(src, dst).Some?
    ensures var p := Create(src, dst).value;
      && IsDmabuf(p.kind) && SourceIsMplane(p.kind) == src.mplane && DestIsMplane(p.kind) == dst.mplane
      && p.planes == PlanesCount(src)
  {
    var i := if src.mplane then (if dst.mplane then 0 else 2) else (if dst.mplane then 3 else 1);
    assert EntryFits(PASS_TABLE[i], src, dst);
    assert FindPass(src, dst, 0) == Some(PASS_TABLE[i].kind) by {
      assert FindPass(src, dst, i) == Some(PASS_TABLE[i].kind);
      assert i < 3 || FindPass(src, dst, 2) == FindPass(src, dst, 3);
      assert i < 2 || FindPass(src, dst, 1) == FindPass(src, dst, 2);
      assert i < 1 || FindPass(src, dst, 0) == FindPass(src, dst, 1);
    }
  }

  /**
   Which pumps can meet the ASSERT of their pass function: `getPassFunc` compares the source's plane
   count with itself, so a multi-planar source with several planes is accepted for a single-planar
   destination. A DMABUF pass gets through for any two buffers if the destination is multi-planar too
   or there is one plane, and otherwise for none.
  */
  lemma PassSafeExactly(src: Stream, dst: Stream, from: Buffer, to: Buffer)
    requires 1 <= src.numPlanes < VIDEO_MAX_PLANES
    requires src.memory == DmabufExport && dst.memory == DmabufImport
    requires |from.buffer.planes| == |from.dmabufFd| == |from.mapped| == |to.buffer.planes| == VIDEO_MAX_PLANES
    ensures Create(src, dst).Some?
    ensures var p := Create(src, dst).value;
      && (PassSafe(p.kind, p.planes) <==> dst.mplane || PlanesCount(src) == 1)
      && (Pass(p.kind, from, to, p.planes).Some? <==> dst.mplane || PlanesCount(src) == 1)
  {
    hide Pass, Create;
    DmabufPump(src, dst);
    var p := Create(src, dst).value;
    PassExactly(p.kind, from, to, p.planes);
  }

  // ---------- one step ----------

  lemma TakeBackInv(y: Sys, inOrder: bool)
    requires Inv(y, inOrder) && Pull(y.dst).1.Some?
    ensures var (y1, o) := TakeBack(y, Pull(y.dst).0, Pull(y.dst).1.value);
      && Inv(y1, inOrder) && o == Code(Errno(y.src.drv))
      && |y1.hist.lost| == |y.hist.lost| + (if o == Code(0) then 0 else 1)
  {
    hide Own, Frames, MemoryOk, InRotation, Ordered, TakeBack, Pull;
    OwnTakeBack(y);
    FramesTakeBack(y);
    MemoryTakeBack(y);
    RotationTakeBack(y);
    if inOrder {
      OrderedTakeBack(y);
    }
  }

  lemma ReplaceInv(y: Sys, inOrder: bool)
    requires Inv(y, inOrder) && Pull(y.src).1.Some?
    ensures var (y1, o) := Replace(y, Pull(y.src).0, Pull(y.src).1.value);
      && Inv(y1, inOrder) && o.Code? && y1.dst == y.dst
      && o.code == (if y.pump.next < 0 then 0 else Errno(Pull(y.src).0.drv))
      && |y1.hist.lost| == |y.hist.lost| + (if o.code == 0 then 0 else 1)
  {
    hide Own, Frames, MemoryOk, FullRing, Turn, Contents, Replace, Pull, InFlight;
    OwnReplace(y);
    FramesReplace(y);
    MemoryReplace(y);
    ReplaceForwardsNothing(y, Pull(y.src).0, Pull(y.src).1.value);
  }

  lemma ReplaceForwardsNothing(y: Sys, src: Stream, i: nat)
    ensures Replace(y, src, i).0.hist.forwarded == y.hist.forwarded
  {
    hide PushIndex;
  }

  lemma ForwardInv(y: Sys, inOrder: bool)
    requires Inv(y, inOrder)
    ensures Inv(Forward(y).0, inOrder)
  {
    hide Own, Frames, MemoryOk, InRotation, Ordered, Forward;
    OwnForward(y);
    FramesForward(y);
    MemoryForward(y);
    RotationForward(y);
    if inOrder {
      OrderedForward(y);
    }
  }

  /** The destination's hardware has gone on, and nothing else has changed. */
  lemma DestAdvances(y: Sys, e: Driver, inOrder: bool)
    requires Inv(y, inOrder) && DriverOk(e) && Progress(y.dst.drv, e)
    requires inOrder ==> InFlight(e) == InFlight(y.dst.drv) && InOrder(e.tape)
    ensures Inv(y.(dst := y.dst.(drv := e)), inOrder)
  {
    hide DriverOk, InFlight, Contents, FullRing, Matched, Accounted, PointsAt, BuffersOk, Turn, Held;
    var y1 := y.(dst := y.dst.(drv := e));
    MemoryAfter(y, e);
    SettledRuns(y.dst, e);
    forall b | b in Held(e)
      ensures HeldPointsAt(y1, b)
    {
      assert HeldPointsAt(y, b);
    }
  }

  lemma SettledRuns(s: Stream, e: Driver)
    requires Running(s) && DriverOk(e) && e.count == s.drv.count && e.streaming == s.drv.streaming
    ensures Running(s.(drv := e))
  {
    hide DriverOk, BuffersOk;
  }

  /** The source's hardware has gone on, and nothing else has changed. */
  lemma SourceAdvances(y: Sys, e: Driver, inOrder: bool)
    requires Inv(y, inOrder) && DriverOk(e) && Progress(y.src.drv, e)
    ensures Inv(y.(src := y.src.(drv := e)), inOrder)
  {
    hide DriverOk, InFlight, Contents, FullRing, Matched, PointsAt, BuffersOk, OlderThanSource, Turn, Held, Backed;
    SettledRuns(y.src, e);
    OlderAfterProgress(y.hist.dequeued, y.src.drv, e);
    forall b | b in Held(y.dst.drv)
      ensures HeldPointsAt(y.(src := y.src.(drv := e)), b)
    {
      assert HeldPointsAt(y, b);
    }
  }

  lemma OwnsDrivers(y: Sys)
    requires Own(y)
    ensures DriverOk(y.src.drv) && DriverOk(y.dst.drv)
  {}

  /** A destination with nothing to give back. */
  lemma IdleDst(y: Sys, inOrder: bool)
    requires Inv(y, inOrder) && Pull(y.dst).1.None?
    ensures var y1 := y.(dst := Pull(y.dst).0);
      && Inv(y1, inOrder)
      && (Errno(y.dst.drv) == 0 ==> y1.dst.drv.done == [])
  {
    hide DriverOk, InFlight, Elapse, Dqbuf, Frames, MemoryOk, InRotation, Progress, Accounted, Matched, FullRing,
      BuffersOk;
    OwnsDrivers(y);
    PullKeeps(y.dst);
    DqbufKeeps(y.dst.drv);
    ElapseKeeps(y.dst.drv);
    DestAdvances(y, Elapse(y.dst.drv), inOrder);
  }

  /** A source with no new frame. */
  lemma IdleSrc(y: Sys, inOrder: bool)
    requires Inv(y, inOrder) && Pull(y.src).1.None?
    ensures var y1 := y.(src := Pull(y.src).0);
      && Inv(y1, inOrder)
      && (Errno(y.src.drv) == 0 ==> y1.src.drv.done == [])
  {
    hide DriverOk, InFlight, Elapse, Dqbuf, Frames, MemoryOk, InRotation, Progress, Accounted, Matched, FullRing,
      BuffersOk;
    OwnsDrivers(y);
    PullKeeps(y.src);
    DqbufKeeps(y.src.drv);
    ElapseKeeps(y.src.drv);
    SourceAdvances(y, Elapse(y.src.drv), inOrder);
  }

  // ---------- what the code of one call may rely on ----------

  lemma StreamsReady(y: Sys)
    requires Inv(y, false)
    ensures StreamOk(y.src) && StreamOk(y.dst) && y.src.buffers.Some? && y.dst.buffers.Some?
  {}

  /** A buffer that the destination gives back has a recorded source buffer. */
  lemma DestinationReady(y: Sys)
    requires Inv(y, false) && Pull(y.dst).1.Some?
    ensures Pull(y.dst).1.value < |y.pump.acquired|
    ensures IsBuffer(y.src, y.pump.acquired[Pull(y.dst).1.value])
  {
    hide Own, Frames, MemoryOk;
    PulledIsAttached(y);
  }

  lemma PendingReady(y: Sys)
    requires Inv(y, false) && Pull(y.src).1.Some? && y.pump.next >= 0
    ensures IsBuffer(Pull(y.src).0, y.pump.next)
  {
    hide Own, Frames, MemoryOk;
    PendingStays(y);
  }

  /** The head of the ring and the pending frame are buffers, and a QBUF that succeeds had nothing recorded. */
  lemma ForwardReady(y: Sys)
    requires Inv(y, false) && y.pump.next >= 0 && y.pump.available.size > 0 && Forward(y).1 != Abort
    ensures IsBuffer(y.src, y.pump.next) && RingPeek(y.pump.available).Some?
    ensures var h := RingPeek(y.pump.available).value;
      && 0 <= h < |y.pump.acquired| && IsBuffer(y.dst, h)
      && Pass(y.pump.kind, y.src.buffers.value[y.pump.next], y.dst.buffers.value[h], y.pump.planes).Some?
      && (PushIndex(Described(y, h), h).1 == 0 ==> y.pump.acquired[h] == -1)
  {
    hide StreamOk, Frames, MemoryOk, Contents, PushIndex, Forward, Pass, Turn, Counted;
    HeadOk(y);
    ForwardAborts(y);
    ForwardValue(y);
  }

  // ---------- one call ----------

  lemma {:induction false} DrainDstInv(y: Sys, inOrder: bool)
    requires Inv(y, inOrder)
    ensures Inv(DrainDst(y).0, inOrder) && DrainDst(y).1.Code?
    decreases |Held(y.dst.drv)|
  {
    hide Inv, TakeBack, Pull;
    if Pull(y.dst).1.None? {
      IdleDst(y, inOrder);
    } else {
      TakeBackInv(y, inOrder);
      var (y1, o) := TakeBack(y, Pull(y.dst).0, Pull(y.dst).1.value);
      if o == Code(0) {
        DrainDstInv(y1, inOrder);
      }
    }
  }

  lemma {:induction false} DrainSrcInv(y: Sys, inOrder: bool)
    requires Inv(y, inOrder)
    ensures Inv(DrainSrc(y).0, inOrder) && DrainSrc(y).1.Code? && DrainSrc(y).0.dst == y.dst
    decreases |y.src.drv.tape|, |y.src.drv.done|
  {
    hide Inv, Replace, Pull;
    if Pull(y.src).1.None? {
      IdleSrc(y, inOrder);
    } else {
      ReplaceInv(y, inOrder);
      var (y1, o) := Replace(y, Pull(y.src).0, Pull(y.src).1.value);
      if o == Code(0) {
        DrainSrcInv(y1, inOrder);
      }
    }
  }

  /** What a call keeps, also one that aborts. */
  lemma PumpCallInv(y: Sys, inOrder: bool)
    requires Inv(y, inOrder)
    ensures Inv(PumpCall(y).0, inOrder)
  {
    hide Inv, DrainDst, DrainSrc, Forward;
    DrainDstInv(y, inOrder);
    var (y1, o1) := DrainDst(y);
    if o1 == Code(0) {
      DrainSrcInv(y1, inOrder);
      var (y2, o2) := DrainSrc(y1);
      if o2 == Code(0) {
        ForwardInv(y2, inOrder);
      }
    }
  }

  // ---------- whole runs ----------

  /** Every completion among these moves is of the destination's oldest queued buffer. */
  ghost predicate InOrderMoves(moves: seq<Move>) {
    forall i :: 0 <= i < |moves| && moves[i].DestDone? ==> moves[i].fill.pick == 0
  }

  lemma MovedInv(y: Sys, m: Move, inOrder: bool)
    requires Inv(y, inOrder) && (inOrder && m.DestDone? ==> m.fill.pick == 0)
    ensures Inv(Moved(y, m).0, inOrder)
  {
    hide Own, Frames, MemoryOk, InRotation, PumpCall, Complete, Progress, InFlight;
    OwnsDrivers(y);
    match m
    case CallPump => PumpCallInv(y, inOrder);
    case SourceDone(f) =>
      CompleteKeeps(y.src.drv, f);
      SourceAdvances(y, Complete(y.src.drv, f), inOrder);
    case DestDone(f) =>
      CompleteKeeps(y.dst.drv, f);
      DestAdvances(y, Complete(y.dst.drv, f), inOrder);
  }

  lemma {:induction false} RunInv(y: Sys, moves: seq<Move>, inOrder: bool)
    requires Inv(y, inOrder) && (inOrder ==> InOrderMoves(moves))
    ensures Inv(Run(y, moves).0, inOrder)
    decreases |moves|
  {
    hide Inv, Moved;
    if moves != [] {
      MovedInv(y, moves[0], inOrder);
      RunInv(Moved(y, moves[0]).0, moves[1..], inOrder);
    }
  }

  /** One move more, at the end of a run. */
  lemma {:induction false} RunSnoc(y: Sys, moves: seq<Move>, m: Move)
    requires Run(y, moves).1 == Code(0)
    ensures var (z, o) := Moved(Run(y, moves).0, m);
      Run(y, moves + [m]) == (z, if o == Abort then Abort else Code(0))
    decreases |moves|
  {
    hide Moved;
    if moves != [] {
      assert (moves + [m])[1..] == moves[1..] + [m];
      RunSnoc(Moved(y, moves[0]).0, moves[1..], m);
    } else {
      assert (moves + [m])[1..] == [];
      var (z, o) := Moved(y, m);
      assert o != Abort ==> Run(z, []) == (z, Code(0));
    }
  }

  /** The state after these moves of a pump created on src and dst, or at the call that aborts. */
  function After(src: Stream, dst: Stream, moves: seq<Move>): (Sys, Outcome)
    requires Create(src, dst).Some?
  {
    Run(Sys(src, dst, Create(src, dst).value, NO_HISTORY), moves)
  }

  function Calls(n: nat): (moves: seq<Move>)
    ensures |moves| == n
  {
    seq(n, _ => CallPump)
  }

  /** A pair of streams on which a pump can be created. */
  ghost predicate Pumpable(src: Stream, dst: Stream) {
    Started(src, dst) && Create(src, dst).Some?
  }

  lemma AfterInv(src: Stream, dst: Stream, moves: seq<Move>, inOrder: bool)
    requires Pumpable(src, dst) && (inOrder ==> InOrder(dst.drv.tape) && InOrderMoves(moves))
    ensures Inv(After(src, dst, moves).0, inOrder)
  {
    hide Inv, Run, Create, InOrderMoves;
    CreatedInv(src, dst, inOrder);
    RunInv(Sys(src, dst, Create(src, dst).value, NO_HISTORY), moves, inOrder);
  }

  /** A state that some run of a freshly created pump reaches: every theorem about `After` holds in it. */
  ghost predicate Reached(y: Sys) {
    exists src, dst, moves :: Pumpable(src, dst) && After(src, dst, moves) == (y, Code(0))
  }

  lemma ReachedFirst(src: Stream, dst: Stream)
    requires Pumpable(src, dst)
    ensures Reached(Sys(src, dst, Create(src, dst).value, NO_HISTORY))
  {
    hide Started, Create;
    assert After(src, dst, []) == (Sys(src, dst, Create(src, dst).value, NO_HISTORY), Code(0));
  }

  lemma ReachedMove(y: Sys, m: Move)
    requires Reached(y) && Moved(y, m).1 != Abort
    ensures Reached(Moved(y, m).0)
  {
    hide Started, Create, Moved, Run;
    var src, dst, moves :| Pumpable(src, dst) && After(src, dst, moves) == (y, Code(0));
    RunSnoc(Sys(src, dst, Create(src, dst).value, NO_HISTORY), moves, m);
    assert After(src, dst, moves + [m]) == (Moved(y, m).0, Code(0));
  }

  lemma ReachedInv(y: Sys)
    requires Reached(y)
    ensures Inv(y, false)
  {
    hide Started, Create, Inv, After;
    var src, dst, moves :| Pumpable(src, dst) && After(src, dst, moves) == (y, Code(0));
    AfterInv(src, dst, moves, false);
  }

  // ---------- conservation ----------

  /** The destination indices that have a recorded source buffer. */
  function Occupied(acquired: seq<int>): multiset<int> {
    if acquired == [] then multiset{} else
      var k := |acquired| - 1;
      Occupied(acquired[..k]) + if acquired[k] >= 0 then multiset{k} else multiset{}
  }

  lemma {:induction false} OccupiedIs(acquired: seq<int>)
    ensures |Occupied(acquired)| == |Attached(acquired)|
    ensures NoDuplicates(Occupied(acquired))
    ensures forall x :: x in Occupied(acquired) <==> 0 <= x < |acquired| && acquired[x] >= 0
  {
    if acquired != [] {
      OccupiedIs(acquired[..|acquired| - 1]);
    }
  }

  lemma SameMultiset(a: multiset<int>, b: multiset<int>)
    requires NoDuplicates(a) && NoDuplicates(b) && forall x :: x in a <==> x in b
    ensures a == b
  {
    forall x
      ensures a[x] == b[x]
    {
      assert a[x] <= 1 && b[x] <= 1 && (x in a <==> x in b);
    }
  }

  lemma AsManyAttachedAsHeld(y: Sys)
    requires Own(y)
    ensures |Attached(y.pump.acquired)| == |InFlight(y.dst.drv)|
  {
    hide StreamOk, FullRing, Accounted, InFlight;
    OccupiedIs(y.pump.acquired);
    SameMultiset(Occupied(y.pump.acquired), multiset(InFlight(y.dst.drv)));
    assert |multiset(InFlight(y.dst.drv))| == |InFlight(y.dst.drv)|;
  }

  lemma CountsAddUp(y: Sys)
    requires Inv(y, false)
    ensures y.src.buffers.Some? &&
      |InFlight(y.src.drv)| + |InFlight(y.dst.drv)| + (if y.pump.next >= 0 then 1 else 0) + |y.hist.lost|
        == |y.src.buffers.value|
  {
    hide StreamOk, FullRing, Matched, InFlight, Frames, MemoryOk, InRotation;
    AsManyAttachedAsHeld(y);
    var total := multiset(InFlight(y.src.drv)) + Attached(y.pump.acquired) + Pending(y.pump.next)
              + multiset(y.hist.lost);
    assert total == multiset(Iota(|y.src.buffers.value|));
    assert |multiset(Iota(|y.src.buffers.value|))| == |y.src.buffers.value|;
  }

  /**
   Conservation with exact accounting: source buffers with the source driver, plus buffers with the
   destination driver, plus the pending one, plus one for every source QBUF that has failed, are
   always all the source buffers there are.
  */
  lemma Conservation(src: Stream, dst: Stream, moves: seq<Move>)
    requires Pumpable(src, dst)
    ensures var y := After(src, dst, moves).0;
      y.src.buffers.Some? &&
      |InFlight(y.src.drv)| + |InFlight(y.dst.drv)| + (if y.pump.next >= 0 then 1 else 0) + |y.hist.lost|
        == |y.src.buffers.value|
  {
    hide Inv, InFlight, Create, After;
    AfterInv(src, dst, moves, false);
    CountsAddUp(After(src, dst, moves).0);
  }

  // ---------- exclusive memory ----------

  /**
   Whatever buffer the destination driver holds, it points at the memory of one source buffer; the
   source driver does not hold that one, it is not pending, and no other destination buffer has it.
  */
  lemma ExclusiveMemory(src: Stream, dst: Stream, moves: seq<Move>, b: V4l2Buffer)
    requires Pumpable(src, dst) && b in Held(After(src, dst, moves).0.dst.drv)
    ensures var y := After(src, dst, moves).0;
      && HeldPointsAt(y, b)
      && var s := y.pump.acquired[b.index];
         && s !in InFlight(y.src.drv) && s != y.pump.next && s !in y.hist.lost
         && forall j :: 0 <= j < |y.pump.acquired| && j != b.index ==> y.pump.acquired[j] != s
  {
    hide StreamOk, FullRing, InFlight, Held, Frames, InRotation, Create, After, PointsAt;
    AfterInv(src, dst, moves, false);
    var y := After(src, dst, moves).0;
    assert HeldPointsAt(y, b);
    var a, s := y.pump.acquired, y.pump.acquired[b.index];
    AttachedHas(a, b.index);
    AccountedOnce(multiset(InFlight(y.src.drv)), a, y.pump.next, y.hist.lost, |y.src.buffers.value|);
    assert multiset(InFlight(y.src.drv))[s] + Attached(a)[s] + Pending(y.pump.next)[s] + multiset(y.hist.lost)[s] <= 1;
    assert s !in multiset(InFlight(y.src.drv)) && s !in multiset(y.hist.lost) && s !in Pending(y.pump.next);
    forall j | 0 <= j < |a| && j != b.index
      ensures a[j] != s
    {
      if a[j] == s {
        AttachedTwice(a, if j < b.index then j else b.index, if j < b.index then b.index else j);
      }
    }
  }

  // ---------- frames ----------

  /**
   Latest frame wins, on every run: frames are forwarded in the order in which they were captured,
   and each dequeued frame has one fate: forwarded once, returned unseen because a newer one came,
   still pending, or dropped at the cost of a source buffer. No more frames are dropped than source
   QBUFs have failed; as long as none has, none is dropped.
  */
  lemma FrameFates(src: Stream, dst: Stream, moves: seq<Move>)
    requires Pumpable(src, dst)
    ensures var y := After(src, dst, moves).0;
      && StrictlyIncreasing(y.hist.dequeued) && StrictlyIncreasing(y.hist.forwarded)
      && multiset(y.hist.dequeued)
         == multiset(y.hist.forwarded) + multiset(y.hist.skipped) + multiset(y.hist.dropped) + PendingFrame(y)
      && NoDuplicates(multiset(y.hist.dequeued))
      && |y.hist.dropped| <= |y.hist.lost|
      && (y.hist.lost == [] ==>
            multiset(y.hist.dequeued) == multiset(y.hist.forwarded) + multiset(y.hist.skipped) + PendingFrame(y))
  {
    hide Own, MemoryOk, InRotation, Create, After;
    AfterInv(src, dst, moves, false);
    DistinctHasNoDuplicates(After(src, dst, moves).0.hist.dequeued);
  }

  /**
   A call forwards at most one frame, and that frame is the newest dequeued so far that was not dropped;
   as long as no source QBUF has failed, it is the newest of all.
  */
  lemma ForwardsTheNewest(src: Stream, dst: Stream, moves: seq<Move>)
    requires Pumpable(src, dst)
    ensures var y, y1 := After(src, dst, moves).0, PumpCall(After(src, dst, moves).0).0;
      y1.hist.forwarded == y.hist.forwarded ||
      exists f :: y1.hist.forwarded == y.hist.forwarded + [f] &&
        f in y1.hist.dequeued
        && forall x :: x in y1.hist.dequeued ==> x <= f || (x in y1.hist.dropped && y1.hist.lost != [])
  {
    hide Inv, PumpCall, Create, After;
    AfterInv(src, dst, moves, false);
    CallForwardsNewest(After(src, dst, moves).0);
  }

  lemma {:induction false} DrainDstForwardsNothing(y: Sys)
    ensures DrainDst(y).0.hist.forwarded == y.hist.forwarded && DrainDst(y).0.hist.used == y.hist.used
    decreases |Held(y.dst.drv)|
  {
    hide Pull, PushIndex;
    var (dst, got) := Pull(y.dst);
    if got.Some? {
      var (y1, o) := TakeBack(y, dst, got.value);
      if o == Code(0) {
        DrainDstForwardsNothing(y1);
      }
    }
  }

  lemma {:induction false} DrainSrcForwardsNothing(y: Sys)
    ensures DrainSrc(y).0.hist.forwarded == y.hist.forwarded && DrainSrc(y).0.hist.used == y.hist.used
    decreases |y.src.drv.tape|, |y.src.drv.done|
  {
    hide Pull, PushIndex;
    var (src, got) := Pull(y.src);
    if got.Some? {
      var (y1, o) := Replace(y, src, got.value);
      if o == Code(0) {
        DrainSrcForwardsNothing(y1);
      }
    }
  }

  lemma CallForwardsNewest(y: Sys)
    requires Inv(y, false)
    ensures var y1 := PumpCall(y).0;
      y1.hist.forwarded == y.hist.forwarded ||
      exists f :: y1.hist.forwarded == y.hist.forwarded + [f] &&
        f in y1.hist.dequeued
        && forall x :: x in y1.hist.dequeued ==> x <= f || (x in y1.hist.dropped && y1.hist.lost != [])
  {
    hide DrainDst, DrainSrc, Forward, Own, MemoryOk, InRotation;
    DrainDstInv(y, false);
    DrainDstForwardsNothing(y);
    var (y1, o1) := DrainDst(y);
    if o1 == Code(0) {
      DrainSrcInv(y1, false);
      DrainSrcForwardsNothing(y1);
      var (y2, o2) := DrainSrc(y1);
      if o2 == Code(0) {
        FramesForward(y2);
        ForwardedWereDequeued(y2);
        ForwardSees(y2);
        assert y2.hist.dropped != [] ==> y2.hist.lost != [];
      }
    }
  }

  lemma ForwardSees(y: Sys)
    ensures Forward(y).0.hist.dequeued == y.hist.dequeued && Forward(y).0.hist.dropped == y.hist.dropped
    ensures Forward(y).0.hist.lost == y.hist.lost
  {}

  // ---------- the ring is a FIFO free list ----------

  /**
   On every run, in any order of completion, the pump uses the destination indices in turn. The free
   part of the ring is the free list of a true FIFO queue if and only if the buffers that have come
   back came in the order in which they were used, and the whole ring is that list followed by the
   buffers in flight if and only if the driver still holds the others in that order.
  */
  lemma RingIsFifoExactly(src: Stream, dst: Stream, moves: seq<Move>)
    requires Pumpable(src, dst)
    ensures var y := After(src, dst, moves).0;
      && RingOk(y.pump.available) && y.pump.available.size == dst.count
      && (dst.count == 0 ==> y.hist.used == [])
      && (forall j :: 0 <= j < |y.hist.used| && dst.count > 0 ==> y.hist.used[j] == j % dst.count)
      && Busy(y) <= dst.count
      && (var ring, free := Contents(y.pump.available), dst.count - Busy(y);
          && (y.hist.used + ring[..free] == Iota(dst.count) + y.hist.reclaimed <==> y.hist.reclaimed <= y.hist.used)
          && (y.hist.used + ring[..free] == Iota(dst.count) + y.hist.reclaimed && ring[free..] == InFlight(y.dst.drv)
              <==> y.hist.used == y.hist.reclaimed + InFlight(y.dst.drv)))
  {
    hide Own, Frames, MemoryOk, Create, Contents, After, InFlight;
    AfterInv(src, dst, moves, false);
    AfterParts(src, dst, moves);
    FifoExactly(After(src, dst, moves).0);
  }

  /**
   On every run with in-order completion the destination indices that the pump has used are the ones
   a true FIFO free list would have handed out: the indices 0, 1, ..., followed by the indices in the
   order in which they came back.
  */
  lemma RingIsFifo(src: Stream, dst: Stream, moves: seq<Move>)
    requires Pumpable(src, dst) && InOrder(dst.drv.tape) && InOrderMoves(moves)
    ensures var y := After(src, dst, moves).0;
      && y.hist.used == y.hist.reclaimed + InFlight(y.dst.drv)
      && |y.hist.used| <= dst.count + |y.hist.reclaimed|
      && y.hist.used == (Iota(dst.count) + y.hist.reclaimed)[..|y.hist.used|]
      && RingOk(y.pump.available)
      && Contents(y.pump.available)
         == (Iota(dst.count) + y.hist.reclaimed)[|y.hist.used|..] + InFlight(y.dst.drv)
  {
    hide Own, Frames, MemoryOk, Create, Contents, InFlight, After;
    AfterInv(src, dst, moves, true);
    RingIsFifoExactly(src, dst, moves);
    var y := After(src, dst, moves).0;
    var ring, k := Contents(y.pump.available), dst.count - Busy(y);
    assert ring == ring[..k] + ring[k..];
    LawSplits(y.hist.used, ring[..k], Iota(dst.count) + y.hist.reclaimed);
  }

  lemma LawSplits(used: seq<int>, free: seq<int>, all: seq<int>)
    requires used + free == all
    ensures |used| <= |all| && used == all[..|used|] && free == all[|used|..]
  {}

  /** The theorems above, for a state that is only known to be reached. */
  lemma ReachedFacts(y: Sys)
    requires Reached(y)
    ensures y.src.buffers.Some? &&
      |InFlight(y.src.drv)| + |InFlight(y.dst.drv)| + (if y.pump.next >= 0 then 1 else 0) + |y.hist.lost|
        == |y.src.buffers.value|
    ensures StrictlyIncreasing(y.hist.forwarded)
    ensures multiset(y.hist.dequeued)
         == multiset(y.hist.forwarded) + multiset(y.hist.skipped) + multiset(y.hist.dropped) + PendingFrame(y)
    ensures |y.hist.dropped| <= |y.hist.lost|
    ensures forall j :: 0 <= j < |y.hist.used| && y.dst.count > 0 ==> y.hist.used[j] == j % y.dst.count
    ensures forall b :: b in Held(y.dst.drv) ==> HeldPointsAt(y, b) && y.pump.acquired[b.index] !in InFlight(y.src.drv)
  {
    hide Started, Create, After, InFlight, Held, PointsAt;
    var src, dst, moves :| Pumpable(src, dst) && After(src, dst, moves) == (y, Code(0));
    Conservation(src, dst, moves);
    FrameFates(src, dst, moves);
    RingIsFifoExactly(src, dst, moves);
    AfterParts(src, dst, moves);
    forall b | b in Held(y.dst.drv)
      ensures HeldPointsAt(y, b) && b.index < |y.pump.acquired| && y.pump.acquired[b.index] !in InFlight(y.src.drv)
    {
      ExclusiveMemory(src, dst, moves, b);
    }
  }

  // ---------- what a run leaves alone ----------

  predicate SameExtent(s: Stream, t: Stream) {
    && t == s.(drv := t.drv, buffers := t.buffers)
    && s.buffers.Some? == t.buffers.Some?
    && (s.buffers.Some? ==> |s.buffers.value| == |t.buffers.value|)
  }

  /** Same streams with as many buffers, and the same pump with as many slots. */
  predicate SameParts(y: Sys, z: Sys) {
    && SameExtent(y.src, z.src) && SameExtent(y.dst, z.dst)
    && |z.pump.acquired| == |y.pump.acquired| && z.pump.kind == y.pump.kind && z.pump.planes == y.pump.planes
  }

  lemma StepExtent(s: Stream, i: int)
    ensures SameExtent(s, Pull(s).0)
    ensures IsBuffer(s, i) ==> SameExtent(s, PushIndex(s, i).0)
  {
    hide Dqbuf, Qbuf;
  }

  lemma {:induction false} DrainDstParts(y: Sys)
    ensures SameParts(y, DrainDst(y).0) && DrainDst(y).0.pump.next == y.pump.next
    decreases |Held(y.dst.drv)|
  {
    hide Pull, PushIndex;
    StepExtent(y.dst, 0);
    var (dst, got) := Pull(y.dst);
    if got.Some? {
      var (y1, o) := TakeBack(y, dst, got.value);
      StepExtent(y.src, if got.value < |y.pump.acquired| then y.pump.acquired[got.value] else 0);
      if o == Code(0) {
        DrainDstParts(y1);
      }
    }
  }

  lemma {:induction false} DrainSrcParts(y: Sys)
    ensures SameParts(y, DrainSrc(y).0) && DrainSrc(y).0.dst == y.dst
    decreases |y.src.drv.tape|, |y.src.drv.done|
  {
    hide Pull, PushIndex;
    StepExtent(y.src, 0);
    var (src, got) := Pull(y.src);
    if got.Some? {
      var (y1, o) := Replace(y, src, got.value);
      StepExtent(src, y.pump.next);
      if o == Code(0) {
        DrainSrcParts(y1);
      }
    }
  }

  lemma ForwardParts(y: Sys)
    ensures SameParts(y, Forward(y).0) && Forward(y).0.src == y.src
  {
    hide Qbuf, Pass;
  }

  lemma CallParts(y: Sys)
    ensures SameParts(y, PumpCall(y).0)
  {
    hide DrainDst, DrainSrc, Forward;
    DrainDstParts(y);
    DrainSrcParts(DrainDst(y).0);
    ForwardParts(DrainSrc(DrainDst(y).0).0);
  }

  lemma MovedParts(y: Sys, m: Move)
    ensures SameParts(y, Moved(y, m).0)
  {
    hide PumpCall, Complete;
    CallParts(y);
  }

  lemma {:induction false} RunParts(y: Sys, moves: seq<Move>)
    ensures SameParts(y, Run(y, moves).0)
    decreases |moves|
  {
    hide Moved;
    if moves != [] {
      MovedParts(y, moves[0]);
      RunParts(Moved(y, moves[0]).0, moves[1..]);
    }
  }

  /** A run never changes what its pump was created for. */
  lemma AfterParts(src: Stream, dst: Stream, moves: seq<Move>)
    requires Create(src, dst).Some?
    ensures var y := After(src, dst, moves).0;
      && SameExtent(src, y.src) && SameExtent(dst, y.dst) && |y.pump.acquired| == dst.count
      && y.pump.kind == Create(src, dst).value.kind && y.pump.planes == Create(src, dst).value.planes
  {
    hide Run;
    RunParts(Sys(src, dst, Create(src, dst).value, NO_HISTORY), moves);
  }
}
