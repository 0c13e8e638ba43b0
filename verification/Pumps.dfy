/**
 The pump of src/pump.c on values: what one call of `pumpPump` does to the pump and to the two
 streams it connects. The class in Pump.dfy is proved against these functions.

 The functions are total: where the C code would fire an ASSERT or leave an array, the outcome is
 Abort. Exactly when this happens is a theorem (PumpAborts.dfy), not an assumption.
*/
module Pumps {
  import opened Common
  import opened V4l2
  import opened Streams
  import opened Rings

  // ---------- describing a source buffer to the destination ----------

  datatype PassKind =
    | DmabufMP | DmabufSP | DmabufMPtoSP | DmabufSPtoMP
    | MmapToUserptrSP | MmapMPToUserptrSP | MmapMPToMmapSP

  datatype PassEntry = PassEntry(srcMem: Memory, dstMem: Memory, srcMp: bool, dstMp: bool, kind: PassKind)

  const PASS_TABLE: seq<PassEntry> := [
    PassEntry(DmabufExport, DmabufImport, true, true, DmabufMP),
    PassEntry(DmabufExport, DmabufImport, false, false, DmabufSP),
    PassEntry(DmabufExport, DmabufImport, true, false, DmabufMPtoSP),
    PassEntry(DmabufExport, DmabufImport, false, true, DmabufSPtoMP),
    PassEntry(Mmap, Userptr, false, false, MmapToUserptrSP),
    PassEntry(Mmap, Userptr, true, false, MmapMPToUserptrSP),
    PassEntry(Mmap, Mmap, true, false, MmapMPToMmapSP)
  ]

  predicate EntryFits(e: PassEntry, src: Stream, dst: Stream) {
    e.srcMem == src.memory && e.dstMem == dst.memory && e.srcMp == src.mplane && e.dstMp == dst.mplane
  }

  /** The first entry from position i on that fits. */
  function FindPass(src: Stream, dst: Stream, i: nat): Option<PassKind>
    decreases |PASS_TABLE| - i
  {
    if i >= |PASS_TABLE| then None
    else if EntryFits(PASS_TABLE[i], src, dst) then Some(PASS_TABLE[i].kind)
    else FindPass(src, dst, i + 1)
  }

  function PassPlanes(src: Buffer, dst: seq<Plane>, n: nat): (r: seq<Plane>)
    ensures |r| == |dst|
  {
    seq(|dst|, i requires 0 <= i < |dst| =>
      if i < n && i < |src.buffer.planes| && i < |src.dmabufFd|
      then src.buffer.planes[i].(fd := src.dmabufFd[i]) else dst[i])
  }

  /** The buffer_pass_func of this kind: the destination buffer after the call, or None when its ASSERT fires. */
  function Pass(kind: PassKind, src: Buffer, dst: Buffer, n: nat): Option<Buffer> {
    var s, d := src.buffer, dst.buffer;
    if |s.planes| != VIDEO_MAX_PLANES || |d.planes| != VIDEO_MAX_PLANES ||
       |src.dmabufFd| != VIDEO_MAX_PLANES || |src.mapped| != VIDEO_MAX_PLANES then None
    else match kind
    case DmabufMP =>
      if n > VIDEO_MAX_PLANES then None else Some(dst.(buffer := d.(planes := PassPlanes(src, d.planes, n))))
    case DmabufSPtoMP =>
      if n != 1 then None
      else Some(dst.(buffer := d.(planes := d.planes[0 := Plane(src.dmabufFd[0], s.length, s.bytesused, 0)])))
    case DmabufMPtoSP =>
      if n != 1 then None
      else Some(dst.(buffer :=
        d.(length := s.planes[0].length, bytesused := s.planes[0].bytesused, mem := src.dmabufFd[0])))
    case DmabufSP =>
      if n != 1 then None
      else Some(dst.(buffer := d.(length := s.length, bytesused := s.bytesused, mem := src.dmabufFd[0])))
    case MmapToUserptrSP =>
      if n != 1 then None
      else Some(dst.(buffer := d.(length := s.length, bytesused := s.bytesused, mem := src.mapped[0])))
    case MmapMPToUserptrSP =>
      if n != 1 then None
      else Some(dst.(buffer :=
        d.(length := s.planes[0].length, bytesused := s.planes[0].bytesused, mem := src.mapped[0])))
    case MmapMPToMmapSP =>
      if n != 1 || d.length < s.planes[0].bytesused then None
      else Some(dst.(buffer := d.(bytesused := s.planes[0].bytesused)))
  }

  // ---------- the pump ----------

  datatype Pump = Pump(next: int, acquired: seq<int>, available: Ring<int>, kind: PassKind, planes: nat)

  /**
   What has happened since the pump was created, for the theorems only. Frames are named by the
   sequence numbers that the source driver gives them.
   dequeued: every frame pulled from the source; skipped: pending frames whose buffer went back to
   the source because a newer frame arrived; forwarded: frames accepted by the destination;
   dropped: frames whose arrival found the skipped buffer refused; used, reclaimed: the destination
   indices in the order they were filled and came back; lost: source buffers whose QBUF failed.
  */
  datatype History = History(
    dequeued: seq<int>, skipped: seq<int>, forwarded: seq<int>, dropped: seq<int>,
    used: seq<int>, reclaimed: seq<int>, lost: seq<int>)

  const NO_HISTORY := History([], [], [], [], [], [], [])

  datatype Sys = Sys(src: Stream, dst: Stream, pump: Pump, hist: History)

  function Create(src: Stream, dst: Stream): Option<Pump> {
    match FindPass(src, dst, 0)
    case None => None
    case Some(kind) =>
      Some(Pump(-1, seq(dst.count, _ => -1), Ring(Iota(dst.count), dst.count, 0), kind, PlanesCount(src)))
  }

  /** The sequence number of the frame in source buffer i. */
  function FrameIn(src: Stream, i: int): int {
    if src.buffers.Some? && 0 <= i < |src.buffers.value| then src.buffers.value[i].buffer.sequence else -1
  }

  predicate IsBuffer(s: Stream, i: int) {
    s.buffers.Some? && 0 <= i < |s.buffers.value|
  }

  function PushIndex(s: Stream, i: int): (r: (Stream, int))
    requires IsBuffer(s, i)
    ensures |r.0.drv.tape| <= |s.drv.tape|
    ensures s.drv.tape == [] ==> |r.0.drv.done| == |s.drv.done|
  {
    Push(s, s.buffers.value[i].buffer)
  }

  /** The destination, now `dst`, has given buffer i back: the source buffer that it carried returns to the source. */
  function TakeBack(y: Sys, dst: Stream, i: nat): (r: (Sys, Outcome))
    ensures r.0.dst == dst
  {
    if i >= |y.pump.acquired| || !IsBuffer(y.src, y.pump.acquired[i]) then (y.(dst := dst), Abort) else
      var s := y.pump.acquired[i];
      var (src, code) := PushIndex(y.src, s);
      (y.(src := src, dst := dst,
          pump := y.pump.(acquired := y.pump.acquired[i := -1]),
          hist := y.hist.(reclaimed := y.hist.reclaimed + [i],
                          lost := y.hist.lost + if code == 0 then [] else [s])),
       Code(code))
  }

  /** Step 1: take back everything the destination has finished. */
  function DrainDst(y: Sys): (Sys, Outcome)
    decreases |Held(y.dst.drv)|
  {
    var (dst, got) := Pull(y.dst);
    if got.None? then (y.(dst := dst), Code(0)) else
      var (y1, o) := TakeBack(y, dst, got.value);
      if o != Code(0) then (y1, o) else DrainDst(y1)
  }

  /**
   The source, now `src`, has delivered a frame in buffer i: it replaces the pending frame, whose
   buffer returns to the source. When the source refuses that, the old frame stays pending.
  */
  function Replace(y: Sys, src: Stream, i: nat): (r: (Sys, Outcome))
    ensures |r.0.src.drv.tape| <= |src.drv.tape|
    ensures src.drv.tape == [] ==> |r.0.src.drv.done| == |src.drv.done|
  {
    var p, frame := y.pump.next, FrameIn(src, i);
    var seen := y.hist.(dequeued := y.hist.dequeued + [frame]);
    if p < 0 then (y.(src := src, pump := y.pump.(next := i), hist := seen), Code(0))
    else if !IsBuffer(src, p) then (y.(src := src, hist := seen), Abort)
    else
      var (src', code) := PushIndex(src, p);
      if code != 0 then
        (y.(src := src', hist := seen.(dropped := seen.dropped + [frame], lost := seen.lost + [i])), Code(code))
      else
        (y.(src := src', pump := y.pump.(next := i), hist := seen.(skipped := seen.skipped + [FrameIn(src, p)])),
          Code(0))
  }

  /** Step 2: pull every new frame from the source. */
  function DrainSrc(y: Sys): (Sys, Outcome)
    decreases |y.src.drv.tape|, |y.src.drv.done|
  {
    var (src, got) := Pull(y.src);
    if got.None? then (y.(src := src), Code(0)) else
      var (y1, o) := Replace(y, src, got.value);
      if o != Code(0) then (y1, o) else DrainSrc(y1)
  }

  /** Step 3: describe the pending frame to the destination buffer at the head of the ring and queue that. */
  function Forward(y: Sys): (Sys, Outcome) {
    if y.pump.available.size == 0 || y.pump.next < 0 then (y, Code(0)) else
      var head := RingPeek(y.pump.available);
      if head.None? || !IsBuffer(y.dst, head.value) || !IsBuffer(y.src, y.pump.next) then (y, Abort) else
        var h := head.value;
        var passed := Pass(y.pump.kind, y.src.buffers.value[y.pump.next], y.dst.buffers.value[h], y.pump.planes);
        if passed.None? then (y, Abort) else
          var described := y.dst.(buffers := Some(y.dst.buffers.value[h := passed.value]));
          var (dst, code) := PushIndex(described, h);
          if code != 0 then (y.(dst := dst), Code(code))
          else if h >= |y.pump.acquired| || y.pump.acquired[h] != -1 then (y.(dst := dst), Abort)
          else
            (y.(dst := dst,
                pump := y.pump.(acquired := y.pump.acquired[h := y.pump.next], next := -1,
                                available := RingPop(y.pump.available).0),
                hist := y.hist.(forwarded := y.hist.forwarded + [FrameIn(y.src, y.pump.next)],
                                used := y.hist.used + [h])),
             Code(0))
  }

  /** One call of pumpPump. */
  function PumpCall(y: Sys): (Sys, Outcome) {
    var (y1, o1) := DrainDst(y);
    if o1 != Code(0) then (y1, o1) else
      var (y2, o2) := DrainSrc(y1);
      if o2 != Code(0) then (y2, o2) else Forward(y2)
  }

  /** What can happen to a pump: a call of pumpPump, or the completion of a buffer on either side between two calls. */
  datatype Move = CallPump | SourceDone(fill: Fill) | DestDone(fill: Fill)

  function Finished(s: Stream, f: Fill): Stream {
    s.(drv := Complete(s.drv, f))
  }

  function Moved(y: Sys, m: Move): (Sys, Outcome) {
    match m
    case CallPump => PumpCall(y)
    case SourceDone(f) => (y.(src := Finished(y.src, f)), Code(0))
    case DestDone(f) => (y.(dst := Finished(y.dst, f)), Code(0))
  }

  /** A run: these moves, whatever the calls return. It stops where the program would abort. */
  function Run(y: Sys, moves: seq<Move>): (Sys, Outcome)
    decreases |moves|
  {
    if moves == [] then (y, Code(0)) else
      var (y1, o) := Moved(y, moves[0]);
      if o == Abort then (y1, Abort) else Run(y1, moves[1..])
  }
}
