/** The pump of src/pump.c, in place, proved against Pumps.dfy. Its invariant is the one of PumpRuns.dfy. */
module PumpObjects {
  import opened Common
  import opened V4l2
  import opened Streams
  import opened Rings
  import opened Queues
  import opened Devices
  import opened Pumps
  import opened PumpOwnership
  import opened PumpRuns

  /** getPassFunc. */
  method GetPassFunc(src: DeviceStream, dst: DeviceStream) returns (kind: Option<PassKind>)
    ensures kind == FindPass(src.Val(), dst.Val(), 0)
  {
    var i := 0;
    while i < |PASS_TABLE|
      invariant i <= |PASS_TABLE|
      invariant FindPass(src.Val(), dst.Val(), 0) == FindPass(src.Val(), dst.Val(), i)
    {
      var e := PASS_TABLE[i];
      if e.srcMem == src.memory && e.dstMem == dst.memory && e.srcMp == src.mplane && e.dstMp == dst.mplane {
        return Some(e.kind);
      }
      i := i + 1;
    }
    kind := None;
  }

  /** passDmabufMP: one plane after the other. */
  method PassDmabufPlanes(src: Buffer, dst: Buffer, n: nat) returns (out: Buffer)
    requires Pass(DmabufMP, src, dst, n).Some?
    ensures Pass(DmabufMP, src, dst, n) == Some(out)
  {
    var planes := dst.buffer.planes;
    for i := 0 to n
      invariant planes == PassPlanes(src, dst.buffer.planes, i)
    {
      planes := planes[i := src.buffer.planes[i].(fd := src.dmabufFd[i])];
    }
    out := dst.(buffer := dst.buffer.(planes := planes));
  }

  /** The call through `buffer_pass_func`. */
  method PassBuffer(kind: PassKind, src: Buffer, dst: Buffer, n: nat) returns (out: Buffer)
    requires Pass(kind, src, dst, n).Some?
    ensures Pass(kind, src, dst, n) == Some(out)
  {
    var s, d := src.buffer, dst.buffer;
    match kind
    case DmabufMP => out := PassDmabufPlanes(src, dst, n);
    case DmabufSPtoMP =>
      out := dst.(buffer := d.(planes := d.planes[0 := Plane(src.dmabufFd[0], s.length, s.bytesused, 0)]));
    case DmabufMPtoSP =>
      out := dst.(buffer :=
        d.(length := s.planes[0].length, bytesused := s.planes[0].bytesused, mem := src.dmabufFd[0]));
    case DmabufSP => out := dst.(buffer := d.(length := s.length, bytesused := s.bytesused, mem := src.dmabufFd[0]));
    case MmapToUserptrSP =>
      out := dst.(buffer := d.(length := s.length, bytesused := s.bytesused, mem := src.mapped[0]));
    case MmapMPToUserptrSP =>
      out := dst.(buffer := d.(length := s.planes[0].length, bytesused := s.planes[0].bytesused, mem := src.mapped[0]));
    case MmapMPToMmapSP => out := dst.(buffer := d.(bytesused := s.planes[0].bytesused));
  }

  lemma SameDestination(y: Sys, dst: Stream, i: nat)
    ensures TakeBack(y.(dst := dst), dst, i) == TakeBack(y, dst, i)
  {}

  lemma SameSource(y: Sys, src: Stream, i: nat)
    ensures Replace(y.(src := src), src, i) == Replace(y, src, i)
  {}

  /** One turn of each of the two loops. */
  lemma DrainDstTurn(y: Sys)
    ensures var (dst, got) := Pull(y.dst);
      if got.None? then DrainDst(y) == (y.(dst := dst), Code(0)) else
        var (y1, o) := TakeBack(y, dst, got.value);
        DrainDst(y) == if o != Code(0) then (y1, o) else DrainDst(y1)
  {
    hide Pull, TakeBack;
  }

  lemma DrainSrcTurn(y: Sys)
    ensures var (src, got) := Pull(y.src);
      if got.None? then DrainSrc(y) == (y.(src := src), Code(0)) else
        var (y1, o) := Replace(y, src, got.value);
        DrainSrc(y) == if o != Code(0) then (y1, o) else DrainSrc(y1)
  {
    hide Pull, Replace;
  }

  class PumpObject {
    const src: DeviceStream
    const dst: DeviceStream
    const acquired: array<int>
    const available: Queue<int>
    const kind: PassKind
    const planes: nat
    var next: int
    ghost var hist: History

    /** What the pump allocates for itself. */
    ghost function Private(): set<object>
      reads this, available, available.data
    {
      {this, acquired} + available.Repr()
    }

    ghost function Repr(): set<object>
      reads this, src, dst, available, available.data
    {
      Private() + src.Repr() + dst.Repr()
    }

    /** The parts of the pump that are its own are in order. */
    ghost predicate Built()
      reads this, available, available.data, available.data.data
    {
      && available.Valid()
      && src != dst
      && (available.data.data != null ==> available.data.data != acquired)
    }

    ghost predicate Valid()
      reads this, src, dst, available, available.data, available.data.data
    {
      Built() && (src.buffers != null ==> src.buffers != dst.buffers)
    }

    ghost function Val(): Pump
      reads this, acquired, available, available.data, available.data.data
    {
      Pump(next, acquired[..], available.Val(), kind, planes)
    }

    ghost function System(): Sys
      reads this, acquired, available, available.data, available.data.data, src, src.buffers, dst, dst.buffers
    {
      Sys(src.Val(), dst.Val(), Val(), hist)
    }

    /** pumpCreate, once a pass function is found. */
    constructor (src: DeviceStream, dst: DeviceStream, kind: PassKind)
      requires src != dst && (src.buffers != null ==> src.buffers != dst.buffers)
      requires FindPass(src.Val(), dst.Val(), 0) == Some(kind)
      ensures this.src == src && this.dst == dst
      ensures Valid() && fresh(Private())
      ensures Create(src.Val(), dst.Val()) == Some(Val())
      ensures hist == NO_HISTORY
    {
      this.src, this.dst, this.kind, this.planes := src, dst, kind, if src.mplane then src.numPlanes else 1;
      next, hist := -1, NO_HISTORY;
      var table := NothingAcquired(dst.count);
      var queue := AllAvailable(dst.count);
      acquired, available := table, queue;
      new;
      assert available.Val().slots == Iota(dst.count);
    }

    /** Nothing is attached to any destination buffer at first. */
    static method NothingAcquired(n: nat) returns (table: array<int>)
      ensures fresh(table) && table[..] == seq(n, _ => -1)
    {
      table := new int[n];
      for i := 0 to n
        invariant forall k :: 0 <= k < i ==> table[k] == -1
      {
        table[i] := -1;
      }
      assert table[..] == seq(n, _ => -1);
    }

    /** A queue that holds every destination index. */
    static method AllAvailable(n: nat) returns (queue: Queue<int>)
      ensures queue.Valid() && fresh(queue.Repr()) && queue.Val() == Ring(Iota(n), n, 0)
    {
      queue := new Queue<int>(4, n);
      for i := 0 to n
        invariant queue.Valid() && fresh(queue.Repr())
        invariant |queue.Val().slots| == n && queue.Val().size == i && queue.Val().front == 0
        invariant forall k :: 0 <= k < i ==> queue.Val().slots[k] == k
      {
        var code := queue.Push(i);
      }
      assert queue.Val().slots == Iota(n);
    }

    /** Destination buffer i came back: its source buffer returns to the source, whether or not the source takes it. */
    method ReturnSource(i: nat) returns (code: int)
      requires Valid() && i < acquired.Length && IsBuffer(src.Val(), acquired[i])
      modifies this`hist, acquired, src
      ensures Valid() && src.buffers == old(src.buffers)
      ensures (System(), Code(code)) == TakeBack(old(System()), dst.Val(), i)
    {
      hide Push;
      var s := acquired[i];
      code := src.PushBuffer(src.buffers[s].buffer);
      acquired[i] := -1;
      hist := hist.(reclaimed := hist.reclaimed + [i], lost := hist.lost + if code == 0 then [] else [s]);
      assert acquired[..] == old(acquired[..])[i := -1];
    }

    /** The source delivered a frame in buffer i: it replaces the pending one. */
    method ReplacePending(i: nat) returns (code: int)
      requires Valid() && IsBuffer(src.Val(), i) && (next >= 0 ==> IsBuffer(src.Val(), next))
      modifies this, src
      ensures Valid() && src.buffers == old(src.buffers)
      ensures (System(), Code(code)) == Replace(old(System()), old(src.Val()), i)
    {
      hide Push;
      ghost var frame := src.buffers[i].buffer.sequence;
      hist := hist.(dequeued := hist.dequeued + [frame]);
      if next >= 0 {
        ghost var skipped := src.buffers[next].buffer.sequence;
        code := src.PushBuffer(src.buffers[next].buffer);
        if code != 0 {
          hist := hist.(dropped := hist.dropped + [frame], lost := hist.lost + [i]);
          return;
        }
        hist := hist.(skipped := hist.skipped + [skipped]);
      }
      next := i;
      code := 0;
    }

    /** Step 1 of pumpPump. */
    method DrainDestination() returns (code: int)
      requires Valid() && Inv(System(), false)
      modifies this, acquired, src, dst, dst.buffers
      ensures Valid() && Inv(System(), false)
      ensures src.buffers == old(src.buffers) && dst.buffers == old(dst.buffers)
      ensures (System(), Code(code)) == DrainDst(old(System()))
    {
      hide Inv, Pull, TakeBack, Replace, DrainDst, StreamOk;
      while true
        invariant Valid() && Inv(System(), false)
        invariant src.buffers == old(src.buffers) && dst.buffers == old(dst.buffers)
        invariant DrainDst(System()) == DrainDst(old(System()))
        decreases |Held(dst.drv)|
      {
        ghost var y := System();
        StreamsReady(y);
        DrainDstInv(y, false);
        DrainDstTurn(y);
        var got := dst.PullBuffer();
        if got.None? {
          assert System() == y.(dst := Pull(y.dst).0);
          return 0;
        }
        DestinationReady(y);
        TakeBackInv(y, false);
        code := ReturnSource(got.value);
        SameDestination(y, Pull(y.dst).0, got.value);
        assert (System(), Code(code)) == TakeBack(y, Pull(y.dst).0, got.value);
        if code != 0 {
          return;
        }
      }
    }

    /** Step 2 of pumpPump. */
    method DrainSource() returns (code: int)
      requires Valid() && Inv(System(), false)
      modifies this, src, src.buffers
      ensures Valid() && Inv(System(), false)
      ensures src.buffers == old(src.buffers) && dst.buffers == old(dst.buffers)
      ensures (System(), Code(code)) == DrainSrc(old(System()))
    {
      hide Inv, Pull, TakeBack, Replace, DrainSrc, StreamOk;
      while true
        invariant Valid() && Inv(System(), false)
        invariant src.buffers == old(src.buffers)
        invariant DrainSrc(System()) == DrainSrc(old(System()))
        decreases |src.drv.tape|, |src.drv.done|
      {
        ghost var y := System();
        StreamsReady(y);
        DrainSrcInv(y, false);
        DrainSrcTurn(y);
        var got := src.PullBuffer();
        if got.None? {
          assert System() == y.(src := Pull(y.src).0);
          return 0;
        }
        ReplaceInv(y, false);
        if next >= 0 {
          PendingReady(y);
        }
        code := ReplacePending(got.value);
        SameSource(y, Pull(y.src).0, got.value);
        assert (System(), Code(code)) == Replace(y, Pull(y.src).0, got.value);
        if code != 0 {
          return;
        }
      }
    }

    /** Step 3 of pumpPump, unless it aborts. */
    method ForwardPending() returns (code: int)
      requires Valid() && Inv(System(), false) && Forward(System()).1 != Abort
      modifies this, acquired, available, dst, dst.buffers
      ensures Valid() && Inv(System(), false)
      ensures src.buffers == old(src.buffers) && dst.buffers == old(dst.buffers)
      ensures (System(), Code(code)) == Forward(old(System()))
    {
      hide Inv, Push, Pass, StreamOk;
      ghost var y := System();
      ForwardInv(y, false);
      StreamsReady(y);
      var size := available.GetSize();
      if size <= 0 || next < 0 {
        return 0;
      }
      ForwardReady(y);
      var head := available.Peek();
      var h := head.value;
      var sbuf := src.buffers[next];
      var passed := PassBuffer(kind, sbuf, dst.buffers[h], planes);
      dst.buffers[h] := passed;
      assert dst.Val() == Described(y, h);
      code := dst.PushBuffer(dst.buffers[h].buffer);
      if code != 0 {
        return;
      }
      assert acquired[h] == -1;
      hist := hist.(forwarded := hist.forwarded + [sbuf.buffer.sequence], used := hist.used + [h]);
      acquired[h] := next;
      next := -1;
      var popped := available.Pop();
      assert acquired[..] == y.pump.acquired[h := y.pump.next];
    }

    /** pumpPump, unless the call aborts; PumpAborts.dfy states exactly when it does. */
    method PumpPump() returns (code: int)
      requires Valid() && Inv(System(), false) && PumpCall(System()).1 != Abort
      modifies this, acquired, available, src, src.buffers, dst, dst.buffers
      ensures Valid() && Inv(System(), false)
      ensures src.buffers == old(src.buffers) && dst.buffers == old(dst.buffers)
      ensures (System(), Code(code)) == PumpCall(old(System()))
    {
      hide Inv, DrainDst, DrainSrc, Forward;
      code := DrainDestination();
      if code != 0 {
        return;
      }
      code := DrainSource();
      if code != 0 {
        return;
      }
      code := ForwardPending();
    }
  }

  /** pumpCreate: no pump when no pass function fits. */
  method CreatePump(src: DeviceStream, dst: DeviceStream) returns (p: PumpObject?)
    requires src != dst && (src.buffers != null ==> src.buffers != dst.buffers)
    ensures p == null <==> Create(src.Val(), dst.Val()).None?
    ensures p != null ==>
      && fresh(p) && fresh(p.Private()) && p.src == src && p.dst == dst && p.Valid()
      && Create(src.Val(), dst.Val()) == Some(p.Val()) && p.hist == NO_HISTORY
  {
    var kind := GetPassFunc(src, dst);
    if kind.None? {
      return null;
    }
    p := new PumpObject(src, dst, kind.value);
  }
}
