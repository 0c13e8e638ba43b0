/**
 Which memory the destination hardware may touch. Every buffer that the destination driver holds
 names the memory of the source buffer that is recorded for it, and the source driver does not
 hold that buffer: capture and encoder never work on the same memory.
*/
module PumpMemory {
  import opened Common
  import opened V4l2
  import opened Streams
  import opened Rings
  import opened Pumps
  import opened PumpOwnership

  /** Plane p of a buffer, wherever the buffer type keeps it. */
  function PlaneOf(mplane: bool, b: V4l2Buffer, p: nat): Plane
    requires p < |b.planes|
  {
    if mplane then b.planes[p] else Plane(b.mem, b.length, b.bytesused, 0)
  }

  predicate IsDmabuf(kind: PassKind) {
    kind in {DmabufMP, DmabufSP, DmabufMPtoSP, DmabufSPtoMP}
  }

  predicate SourceIsMplane(kind: PassKind) {
    kind in {DmabufMP, DmabufMPtoSP, MmapMPToUserptrSP, MmapMPToMmapSP}
  }

  predicate DestIsMplane(kind: PassKind) {
    kind in {DmabufMP, DmabufSPtoMP}
  }

  lemma {:induction false} RowFits(src: Stream, dst: Stream, i: nat)
    ensures var r := FindPass(src, dst, i);
      && (r.Some? ==> exists k :: i <= k < |PASS_TABLE| && EntryFits(PASS_TABLE[k], src, dst)
                                  && r.value == PASS_TABLE[k].kind)
      && (r.None? ==> forall k :: i <= k < |PASS_TABLE| ==> !EntryFits(PASS_TABLE[k], src, dst))
    decreases |PASS_TABLE| - i
  {
    if i < |PASS_TABLE| && !EntryFits(PASS_TABLE[i], src, dst) {
      RowFits(src, dst, i + 1);
    }
  }

  /**
   Which streams can be connected, and how: an exporting source to an importing destination always, a
   mapped source to one that takes addresses if that is single-planar, and a mapped multi-planar source to
   a mapped single-planar destination, by copying; no other pair can.
  */
  lemma TableRows(src: Stream, dst: Stream)
    ensures FindPass(src, dst, 0) ==
      match (src.memory, dst.memory)
      case (DmabufExport, DmabufImport) =>
        Some(if src.mplane then (if dst.mplane then DmabufMP else DmabufMPtoSP)
             else if dst.mplane then DmabufSPtoMP else DmabufSP)
      case (Mmap, Userptr) =>
        if dst.mplane then None else Some(if src.mplane then MmapMPToUserptrSP else MmapToUserptrSP)
      case (Mmap, Mmap) => if src.mplane && !dst.mplane then Some(MmapMPToMmapSP) else None
      case _ => None
    ensures FindPass(src, dst, 0).Some? ==>
      && SourceIsMplane(FindPass(src, dst, 0).value) == src.mplane
      && DestIsMplane(FindPass(src, dst, 0).value) == dst.mplane
  {
    RowFits(src, dst, 0);
    hide FindPass;
    if FindPass(src, dst, 0).Some? {
      var k :| 0 <= k < |PASS_TABLE| && EntryFits(PASS_TABLE[k], src, dst)
               && FindPass(src, dst, 0).value == PASS_TABLE[k].kind;
      assert k in {0, 1, 2, 3, 4, 5, 6};
    } else {
      assert !EntryFits(PASS_TABLE[0], src, dst) && !EntryFits(PASS_TABLE[1], src, dst);
      assert !EntryFits(PASS_TABLE[2], src, dst) && !EntryFits(PASS_TABLE[3], src, dst);
      assert !EntryFits(PASS_TABLE[4], src, dst) && !EntryFits(PASS_TABLE[5], src, dst);
      assert !EntryFits(PASS_TABLE[6], src, dst);
    }
  }

  /** b, in the hands of the destination driver, points at the memory of source buffer s, unless the pass copies. */
  predicate PointsAt(kind: PassKind, n: nat, s: Buffer, b: V4l2Buffer) {
    if kind == MmapMPToMmapSP then true
    else if IsDmabuf(kind) then
      forall p :: 0 <= p < n && p < |b.planes| && p < |s.dmabufFd| ==>
        PlaneOf(DestIsMplane(kind), b, p).fd == s.dmabufFd[p]
    else
      |s.mapped| > 0 ==> b.mem == s.mapped[0]
  }

  ghost predicate HeldPointsAt(y: Sys, b: V4l2Buffer) {
    && b.index < |y.pump.acquired|
    && IsBuffer(y.src, y.pump.acquired[b.index])
    && PointsAt(y.pump.kind, y.pump.planes, y.src.buffers.value[y.pump.acquired[b.index]], b)
  }

  /** Everything the destination driver holds points at the recorded source buffer. */
  ghost predicate MemoryOk(y: Sys) {
    forall b :: b in Held(y.dst.drv) ==> HeldPointsAt(y, b)
  }

  lemma PointsAtSameMemory(kind: PassKind, n: nat, s: Buffer, a: V4l2Buffer, b: V4l2Buffer)
    requires SameMemory(b, a) && PointsAt(kind, n, s, a)
    ensures PointsAt(kind, n, s, b)
  {
    if IsDmabuf(kind) {
      forall p | 0 <= p < n && p < |b.planes| && p < |s.dmabufFd|
        ensures PlaneOf(DestIsMplane(kind), b, p).fd == s.dmabufFd[p]
      {
        assert PlaneOf(DestIsMplane(kind), a, p).fd == s.dmabufFd[p];
      }
    }
  }

  /** Completions at the destination change payloads, not memory. */
  lemma MemoryAfter(y: Sys, e: Driver)
    requires MemoryOk(y) && Progress(y.dst.drv, e)
    ensures forall b :: b in Held(e) ==> HeldPointsAt(y, b)
  {
    hide PointsAt, InFlight, SameMemory;
    forall b | b in Held(e)
      ensures HeldPointsAt(y, b)
    {
      assert Backed(b, Held(y.dst.drv));
      var j :| 0 <= j < |Held(y.dst.drv)| && SameMemory(b, Held(y.dst.drv)[j]);
      var a := Held(y.dst.drv)[j];
      assert HeldPointsAt(y, a);
      SameIndex(b, a);
      PointsAtSameMemory(y.pump.kind, y.pump.planes, y.src.buffers.value[y.pump.acquired[a.index]], a, b);
    }
  }

  lemma MemoryAfterElapse(y: Sys)
    requires DriverOk(y.dst.drv) && MemoryOk(y)
    ensures forall b :: b in Held(Elapse(y.dst.drv)) ==> HeldPointsAt(y, b)
  {
    hide DriverOk, Elapse, Progress, MemoryOk;
    ElapseKeeps(y.dst.drv);
    MemoryAfter(y, Elapse(y.dst.drv));
  }

  lemma SameIndex(a: V4l2Buffer, b: V4l2Buffer)
    requires SameMemory(a, b)
    ensures a.index == b.index
  {}

  lemma HeldIndex(d: Driver, b: V4l2Buffer)
    requires b in Held(d)
    ensures b.index in multiset(InFlight(d))
  {
    var i :| 0 <= i < |Held(d)| && Held(d)[i] == b;
    assert InFlight(d)[i] == b.index;
  }

  // ---------- each step keeps the memory apart ----------

  lemma MemoryTakeBack(y: Sys)
    requires Own(y) && MemoryOk(y) && Pull(y.dst).1.Some?
    ensures MemoryOk(TakeBack(y, Pull(y.dst).0, Pull(y.dst).1.value).0)
  {
    hide DriverOk, InFlight, FullRing, Accounted, Elapse, PointsAt, BuffersOk, Dqbuf, Qbuf;
    PulledIsAttached(y);
    PullKeeps(y.dst);
    PullMoves(y.dst);
    DqbufKeeps(y.dst.drv);
    MemoryAfterElapse(y);
    var (dst, i) := (Pull(y.dst).0, Pull(y.dst).1.value);
    var y1 := TakeBack(y, dst, i).0;
    forall b | b in Held(dst.drv)
      ensures HeldPointsAt(y1, b)
    {
      assert b in Held(Elapse(y.dst.drv));
      assert HeldPointsAt(y, b);
      HeldIndex(dst.drv, b);
      assert multiset(InFlight(y.dst.drv))[i] == multiset(InFlight(dst.drv))[i] + 1 <= 1;
      assert b.index != i;
    }
  }

  lemma MemoryReplace(y: Sys)
    requires Own(y) && MemoryOk(y) && Pull(y.src).1.Some?
    ensures MemoryOk(Replace(y, Pull(y.src).0, Pull(y.src).1.value).0)
  {
    hide DriverOk, InFlight, FullRing, Accounted, Elapse, BuffersOk, Dqbuf, Qbuf, Matched;
    PullKeeps(y.src);
    var y1 := Replace(y, Pull(y.src).0, Pull(y.src).1.value).0;
    forall b | b in Held(y.dst.drv)
      ensures HeldPointsAt(y1, b)
    {
      assert HeldPointsAt(y, b);
      var s := y.pump.acquired[b.index];
      assert y1.src.buffers.value[s].dmabufFd == y.src.buffers.value[s].dmabufFd;
      assert y1.src.buffers.value[s].mapped == y.src.buffers.value[s].mapped;
    }
  }

  /** The buffer that a pass function fills in points at the source buffer. */
  lemma PassPoints(kind: PassKind, src: Buffer, dst: Buffer, n: nat)
    requires Pass(kind, src, dst, n).Some?
    ensures PointsAt(kind, n, src, Pass(kind, src, dst, n).value.buffer)
  {}

  /**
   What a DMABUF pass tells the destination: for every plane the descriptor, length and payload of
   the source buffer, and nothing else about the destination buffer changes: a multi-planar one keeps
   its own union, length and payload, and a single-planar one its planes. A multi-planar source
   passed to a single-planar destination loses its data offset, so there the description is exact
   if and only if that offset is zero.
  */
  lemma PassDescribesSource(kind: PassKind, src: Buffer, dst: Buffer, n: nat, p: nat)
    requires IsDmabuf(kind) && Pass(kind, src, dst, n).Some? && p < n
    ensures var out := Pass(kind, src, dst, n).value;
      && |out.buffer.planes| == |src.buffer.planes| == |src.dmabufFd| == VIDEO_MAX_PLANES && p < VIDEO_MAX_PLANES
      && (var told, meant := PlaneOf(DestIsMplane(kind), out.buffer, p),
                             PlaneOf(SourceIsMplane(kind), src.buffer, p).(fd := src.dmabufFd[p]);
          && told.fd == meant.fd && told.length == meant.length && told.bytesused == meant.bytesused
          && (told == meant <==> kind != DmabufMPtoSP || src.buffer.planes[p].dataOffset == 0))
      && out.buffer.index == dst.buffer.index && out.buffer.sequence == dst.buffer.sequence
      && out.dmabufFd == dst.dmabufFd && out.mapped == dst.mapped
      && (DestIsMplane(kind) ==> out.buffer.mem == dst.buffer.mem && out.buffer.length == dst.buffer.length
                                 && out.buffer.bytesused == dst.buffer.bytesused)
      && (!DestIsMplane(kind) ==> out.buffer.planes == dst.buffer.planes)
      && forall q :: n <= q < VIDEO_MAX_PLANES ==> out.buffer.planes[q] == dst.buffer.planes[q]
  {}

  /**
   What the other passes tell a single-planar destination: the address of the source's mapping, its length
   and its payload; the one that copies tells the payload only. Nothing else about the buffer changes.
  */
  lemma PassDescribesMapping(kind: PassKind, src: Buffer, dst: Buffer, n: nat)
    requires !IsDmabuf(kind) && Pass(kind, src, dst, n).Some?
    ensures n == 1 && |src.buffer.planes| == |src.mapped| == VIDEO_MAX_PLANES
    ensures var out, from := Pass(kind, src, dst, n).value, PlaneOf(SourceIsMplane(kind), src.buffer, 0);
      && out.buffer.bytesused == from.bytesused
      && out.buffer.mem == (if kind == MmapMPToMmapSP then dst.buffer.mem else src.mapped[0])
      && out.buffer.length == (if kind == MmapMPToMmapSP then dst.buffer.length else from.length)
      && out.buffer.index == dst.buffer.index && out.buffer.sequence == dst.buffer.sequence
      && out.buffer.planes == dst.buffer.planes && out.dmabufFd == dst.dmabufFd && out.mapped == dst.mapped
  {}

  lemma MemoryForward(y: Sys)
    requires Own(y) && MemoryOk(y)
    ensures MemoryOk(Forward(y).0)
  {
    hide DriverOk, InFlight, Accounted, Elapse, PointsAt, Forward, Contents, Pass, Qbuf;
    OwnForward(y);
    if HasWork(y) && !WouldAbort(y) {
      ForwardValue(y);
      MemoryAfterElapse(y);
      var h := Contents(y.pump.available)[0];
      var described := Described(y, h);
      var b' := described.buffers.value[h].buffer;
      QbufKeeps(y.dst.drv, b');
      PushMoves(described, h);
      DescribedRuns(y, h);
      PassPoints(y.pump.kind, y.src.buffers.value[y.pump.next], y.dst.buffers.value[h], y.pump.planes);
      var y1 := Forward(y).0;
      forall b | b in Held(y1.dst.drv)
        ensures HeldPointsAt(y1, b)
      {
        if b in Held(Elapse(y.dst.drv)) {
          assert HeldPointsAt(y, b);
          HeldIndex(Elapse(y.dst.drv), b);
          ElapseOk(y.dst.drv);
        }
      }
    }
  }
}
