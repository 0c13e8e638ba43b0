/** The stream operations of src/device.c, in place, proved against the state machine of Streams.dfy. */
module Devices {
  import opened Common
  import opened V4l2
  import opened Streams

  class DeviceStream {
    const capture: bool
    const mplane: bool
    var numPlanes: nat
    var state: State
    var memory: Memory
    var count: nat
    var buffers: array?<Buffer>
    var drv: Driver

    ghost function Repr(): set<object>
      reads this
    {
      if buffers == null then {this} else {this, buffers}
    }

    ghost function Val(): (s: Stream)
      reads this, buffers
      ensures s.buffers.Some? <==> buffers != null
      ensures buffers != null ==> |s.buffers.value| == buffers.Length && s.buffers.value == buffers[..]
    {
      Stream(capture, mplane, numPlanes, state, memory, count,
             if buffers == null then None else Some(buffers[..]), drv)
    }

    /** streamInit, after a format could be read. */
    constructor (capture: bool, mplane: bool, numPlanes: nat, drv: Driver)
      ensures Val() == Stream(capture, mplane, numPlanes, Idle, NoMemory, 0, None, drv) && buffers == null
    {
      this.capture, this.mplane, this.numPlanes, this.drv := capture, mplane, numPlanes, drv;
      state, memory, count, buffers := Idle, NoMemory, 0, null;
    }

    /** streamSetFormat. */
    method SetStreamFormat(wanted: bool) returns (code: int)
      modifies this
      ensures (Val(), code) == SetFormat(old(Val()), wanted) && buffers == old(buffers)
    {
      if !wanted {
        return 0;
      }
      var (d, err, planes) := SetFmt(drv);
      drv := d;
      if err != 0 {
        return -1;
      }
      if mplane {
        numPlanes := planes;
      }
      code := 0;
    }

    /** bufferDmabufExport and bufferMmap: one call for each plane. */
    method ExposeBuffer(buf: Buffer, n: nat, exporting: bool) returns (code: int, out: Buffer)
      modifies this
      ensures Val() == old(Val()).(drv := drv) && buffers == old(buffers)
      ensures (drv, code, out) == ExposePlanes(old(drv), buf, 0, n, exporting)
    {
      out := buf;
      var i := 0;
      while i < n && i < |out.dmabufFd| && i < |out.mapped|
        invariant Val() == old(Val()).(drv := drv) && buffers == old(buffers)
        invariant ExposePlanes(old(drv), buf, 0, n, exporting) == ExposePlanes(drv, out, i, n, exporting)
        decreases n - i
      {
        var (d, err, value) := Expose(drv);
        drv := d;
        if err != 0 {
          return err, out;
        }
        if exporting && value == 0 {
          return 0, out;
        }
        out := if exporting then out.(dmabufFd := out.dmabufFd[i := value]) else out.(mapped := out.mapped[i := value]);
        i := i + 1;
      }
      code := 0;
    }

    /** bufferPrepare. */
    method PrepareBuffer(buf: Buffer) returns (code: int, out: Buffer)
      modifies this
      ensures Val() == old(Val()).(drv := drv) && buffers == old(buffers)
      ensures (drv, code, out) == BufferPrepare(old(Val()), old(drv), buf)
    {
      match memory
      case Mmap => code, out := ExposeBuffer(buf, if mplane then numPlanes else 1, false);
      case DmabufExport => code, out := ExposeBuffer(buf, if mplane then numPlanes else 1, true);
      case Userptr => code, out := 0, buf;
      case DmabufImport => code, out := 0, buf;
      case NoMemory => code, out := EINVAL, buf;
    }

    /** streamRequestBuffers: on an error after the grant the array is given up again. */
    method RequestStreamBuffers() returns (code: int)
      modifies this
      ensures (Val(), code) == RequestBuffers(old(Val()))
      ensures buffers == old(buffers) || (buffers != null && fresh(buffers))
    {
      hide Elapse, QueryBuf, ExposePlanes, FreshBuffer;
      if buffers != null {
        return -EBUSY;
      }
      if memory == NoMemory {
        return EINVAL;
      }
      var (d, err, granted) := Reqbufs(drv, count);
      drv := d;
      if err != 0 {
        return -1;
      }
      count := granted;
      ghost var start := Val();
      var bufs := new Buffer[granted](_ => Buffer(V4l2Buffer(0, 0, 0, 0, 0, []), [], []));
      var i := 0;
      while i < count
        invariant i <= count == granted && buffers == null && fresh(bufs)
        invariant Val() == start.(drv := drv)
        invariant QueryAll(start, []) == QueryAll(Val(), bufs[..i])
        decreases count - i
      {
        var empty := FreshBuffer(Stream(capture, mplane, numPlanes, state, memory, count, None, drv), i);
        var (d, err, b) := QueryBuf(drv, mplane, empty.buffer);
        drv := d;
        if err != 0 {
          return 1;
        }
        var failed, buf := PrepareBuffer(empty.(buffer := b));
        if failed != 0 {
          return 1;
        }
        bufs[i] := buf;
        i := i + 1;
        assert bufs[..i] == bufs[..i - 1] + [buf];
      }
      assert bufs[..i] == bufs[..];
      buffers := bufs;
      code := 0;
    }

    /** deviceStreamPrepare. */
    method Prepare(opts: PrepareOpts) returns (code: int)
      modifies this
      ensures (Val(), code) == Streams.Prepare(old(Val()), opts)
      ensures buffers == old(buffers) || (buffers != null && fresh(buffers))
    {
      if state == Streaming {
        return -EBUSY;
      }
      var r := SetStreamFormat(opts.format);
      if r != 0 {
        return -1;
      }
      memory, count := opts.memory, opts.count;
      r := RequestStreamBuffers();
      if r != 0 {
        return -2;
      }
      state := Prepared;
      code := 0;
    }

    /** streamEnqueueBuffers. */
    method EnqueueBuffers() returns (code: int)
      requires buffers != null && count <= buffers.Length
      modifies this
      ensures (Val(), code) == Enqueue(old(Val()), 0) && buffers == old(buffers)
    {
      var i := 0;
      while i < count
        invariant buffers != null && buffers == old(buffers) && i <= count <= buffers.Length
        invariant Val() == old(Val()).(drv := drv)
        invariant Enqueue(old(Val()), 0) == Enqueue(Val(), i)
        decreases count - i
      {
        var (d, err) := Qbuf(drv, buffers[i].buffer);
        drv := d;
        if err != 0 {
          return -1;
        }
        i := i + 1;
      }
      code := 0;
    }

    /** deviceStreamStart. */
    method Start() returns (code: int)
      requires StreamOk(Val()) && (capture ==> CountCovered(Val()))
      modifies this
      ensures (Val(), code) == Streams.Start(old(Val())) && buffers == old(buffers)
    {
      match state {
        case Idle => return -ENOENT;
        case Streaming => return -EBUSY;
        case Prepared =>
      }
      if capture {
        var r := EnqueueBuffers();
        if r != 0 {
          return -3;
        }
      }
      var (d, err) := StreamOn(drv);
      drv := d;
      if err != 0 {
        return 1;
      }
      state := Streaming;
      code := 0;
    }

    /** deviceStreamStop. */
    method Stop() returns (code: int)
      modifies this
      ensures (Val(), code) == Streams.Stop(old(Val())) && buffers == old(buffers)
    {
      if state != Streaming {
        return 0;
      }
      var (d, err) := StreamOff(drv);
      drv := d;
      if err != 0 {
        return 1;
      }
      state := Prepared;
      code := 0;
    }

    /** The loop of deviceStreamPullBuffer over the planes that the driver filled in. */
    static method CopyPlanes(was: seq<Plane>, now: seq<Plane>, n: nat) returns (planes: seq<Plane>)
      ensures planes == Overlay(was, now, n)
    {
      planes := was;
      var i := 0;
      while i < n && i < |was| && i < |now|
        invariant i <= |was| == |planes| && i <= n && i <= |now|
        invariant planes == Overlay(was, now, i)
        decreases |was| - i
      {
        planes := planes[i := now[i]];
        i := i + 1;
      }
      assert forall k :: 0 <= k < |was| ==> planes[k] == Overlay(was, now, n)[k];
    }

    /** deviceStreamPullBuffer: the buffer at this index now describes what the driver returned. */
    method PullBuffer() returns (index: Option<nat>)
      requires StreamOk(Val())
      modifies this, buffers
      ensures (Val(), index) == Pull(old(Val())) && buffers == old(buffers)
      ensures StreamOk(Val()) && (index.Some? ==> buffers != null && index.value < buffers.Length)
    {
      hide Dqbuf, StreamOk, Overlay;
      PullKeeps(Val());
      if buffers == null {
        return None;
      }
      var (d, got) := Dqbuf(drv);
      drv := d;
      if got.None? {
        return None;
      }
      var b, was := got.value, buffers[got.value.index].buffer.planes;
      var planes := was;
      if mplane {
        planes := CopyPlanes(was, b.planes, b.length);
      }
      buffers[b.index] := buffers[b.index].(buffer := b.(planes := planes));
      index := Some(b.index);
    }

    /** deviceStreamPushBuffer. */
    method PushBuffer(b: V4l2Buffer) returns (code: int)
      modifies this
      ensures (Val(), code) == Push(old(Val()), b) && buffers == old(buffers)
    {
      if buffers == null {
        return -EIO;
      }
      var (d, err) := Qbuf(drv, b);
      drv := d;
      code := err;
    }
  }
}
