/**
 The state machine of one stream: what each `deviceStream*` function of src/device.c does to the
 stream and to its driver, as functions on values. The class in Device.dfy is proved against them.
*/
module Streams {
  import opened Common
  import opened V4l2

  datatype Memory = NoMemory | Mmap | Userptr | DmabufExport | DmabufImport

  datatype State = Idle | Prepared | Streaming

  /** `mapped` and `dmabufFd` have one entry for each of VIDEO_MAX_PLANES planes. */
  datatype Buffer = Buffer(buffer: V4l2Buffer, mapped: seq<int>, dmabufFd: seq<int>)

  datatype Stream = Stream(
    capture: bool, mplane: bool, numPlanes: nat, state: State, memory: Memory, count: nat,
    buffers: Option<seq<Buffer>>, drv: Driver)

  /** `format` is false when pixel format, width and height are all zero, which keeps the current format. */
  datatype PrepareOpts = PrepareOpts(memory: Memory, count: nat, format: bool)

  function PlanesCount(s: Stream): nat {
    if s.mplane then s.numPlanes else 1
  }

  // ---------- prepare ----------

  function SetFormat(s: Stream, wanted: bool): (Stream, int) {
    if !wanted then (s, 0) else
      var (e, err, planes) := SetFmt(s.drv);
      if err != 0 then (s.(drv := e), -1)
      else (s.(drv := e, numPlanes := if s.mplane then planes else s.numPlanes), 0)
  }

  const NO_PLANE := Plane(0, 0, 0, 0)

  function FreshBuffer(s: Stream, index: nat): Buffer {
    Buffer(V4l2Buffer(index, 0, 0, if s.mplane then s.numPlanes else 0, 0, seq(VIDEO_MAX_PLANES, _ => NO_PLANE)),
           seq(VIDEO_MAX_PLANES, _ => 0), seq(VIDEO_MAX_PLANES, _ => 0))
  }

  /** Exports or maps planes i, i + 1, ..., n - 1. An exported descriptor 0 ends the loop without an error. */
  function ExposePlanes(d: Driver, buf: Buffer, i: nat, n: nat, exporting: bool): (Driver, int, Buffer)
    decreases n - i
  {
    if i >= n || i >= |buf.dmabufFd| || i >= |buf.mapped| then (d, 0, buf) else
      var (e, err, value) := Expose(d);
      if err != 0 then (e, err, buf)
      else if exporting && value == 0 then (e, 0, buf)
      else
        var exposed := if exporting then buf.(dmabufFd := buf.dmabufFd[i := value])
                       else buf.(mapped := buf.mapped[i := value]);
        ExposePlanes(e, exposed, i + 1, n, exporting)
  }

  function BufferPrepare(s: Stream, d: Driver, buf: Buffer): (Driver, int, Buffer) {
    match s.memory
    case Mmap => ExposePlanes(d, buf, 0, PlanesCount(s), false)
    case DmabufExport => ExposePlanes(d, buf, 0, PlanesCount(s), true)
    case Userptr => (d, 0, buf)
    case DmabufImport => (d, 0, buf)
    case NoMemory => (d, EINVAL, buf)
  }

  /** Queries and prepares the buffers that `done` does not have yet; on an error the stream has no buffers. */
  function QueryAll(s: Stream, done: seq<Buffer>): (Stream, int)
    requires |done| <= s.count
    decreases s.count - |done|
  {
    if |done| == s.count then (s.(buffers := Some(done)), 0) else
      var blank := FreshBuffer(s, |done|);
      var (e, err, b) := QueryBuf(s.drv, s.mplane, blank.buffer);
      if err != 0 then (s.(drv := e), 1) else
        var (f, code, buf) := BufferPrepare(s, e, blank.(buffer := b));
        if code != 0 then (s.(drv := f), 1)
        else QueryAll(s.(drv := f), done + [buf])
  }

  function RequestBuffers(s: Stream): (Stream, int) {
    if s.buffers.Some? then (s, -EBUSY)
    else if s.memory == NoMemory then (s, EINVAL)
    else
      var (e, err, granted) := Reqbufs(s.drv, s.count);
      if err != 0 then (s.(drv := e), -1)
      else QueryAll(s.(drv := e, count := granted), [])
  }

  function Prepare(s: Stream, opts: PrepareOpts): (Stream, int) {
    if s.state == Streaming then (s, -EBUSY) else
      var (s1, r1) := SetFormat(s, opts.format);
      if r1 != 0 then (s1, -1) else
        var (s2, r2) := RequestBuffers(s1.(memory := opts.memory, count := opts.count));
        if r2 != 0 then (s2, -2) else (s2.(state := Prepared), 0)
  }

  // ---------- start and stop ----------

  /** Queues buffers i, i + 1, ..., count - 1 and gives up at the first refusal. */
  function Enqueue(s: Stream, i: nat): (Stream, int)
    requires s.buffers.Some?
    decreases s.count - i
  {
    if i >= s.count || i >= |s.buffers.value| then (s, 0) else
      var (e, err) := Qbuf(s.drv, s.buffers.value[i].buffer);
      if err != 0 then (s.(drv := e), -1) else Enqueue(s.(drv := e), i + 1)
  }

  function Start(s: Stream): (Stream, int) {
    match s.state
    case Idle => (s, -ENOENT)
    case Streaming => (s, -EBUSY)
    case Prepared =>
      var (s1, r) := if s.capture && s.buffers.Some? then Enqueue(s, 0) else (s, 0);
      if r != 0 then (s1, -3) else
        var (e, err) := StreamOn(s1.drv);
        if err != 0 then (s1.(drv := e), 1) else (s1.(drv := e, state := Streaming), 0)
  }

  function Stop(s: Stream): (Stream, int) {
    if s.state != Streaming then (s, 0) else
      var (e, err) := StreamOff(s.drv);
      if err != 0 then (s.(drv := e), 1) else (s.(drv := e, state := Prepared), 0)
  }

  // ---------- pull and push ----------

  function Overlay(was: seq<Plane>, now: seq<Plane>, n: nat): (r: seq<Plane>)
    ensures |r| == |was|
  {
    seq(|was|, i requires 0 <= i < |was| => if i < n && i < |now| then now[i] else was[i])
  }

  /** The application's copy of a buffer after the driver returned it as b. */
  function Pulled(was: Buffer, b: V4l2Buffer, mplane: bool): Buffer {
    was.(buffer := b.(planes := if mplane then Overlay(was.buffer.planes, b.planes, b.length)
                                else was.buffer.planes))
  }

  /** The index of a buffer that the driver has completed, if there is one. */
  function Pull(s: Stream): (r: (Stream, Option<nat>))
    ensures r.1.Some? ==> |Held(r.0.drv)| + 1 == |Held(s.drv)|
    ensures |r.0.drv.tape| <= |s.drv.tape|
    ensures (r.1.Some? || s.buffers.Some?) && s.drv.tape != [] ==> |r.0.drv.tape| < |s.drv.tape|
    ensures r.1.Some? && s.drv.tape == [] ==> |r.0.drv.done| < |s.drv.done|
  {
    if s.buffers.None? then (s, None) else
      var (e, got) := Dqbuf(s.drv);
      if got.None? then (s.(drv := e), None) else
        var b, bufs := got.value, s.buffers.value;
        // DQBUF only ever names a buffer that QBUF was given, so the index is within the array
        var bufs' := if b.index < |bufs| then bufs[b.index := Pulled(bufs[b.index], b, s.mplane)] else bufs;
        (s.(drv := e, buffers := Some(bufs')), Some(b.index))
  }

  function Push(s: Stream, b: V4l2Buffer): (r: (Stream, int))
    ensures |r.0.drv.tape| <= |s.drv.tape|
    ensures s.drv.tape == [] ==> |r.0.drv.done| == |s.drv.done|
  {
    if s.buffers.None? then (s, -EIO) else
      var (e, err) := Qbuf(s.drv, b);
      (s.(drv := e), err)
  }

  // ---------- what every operation keeps ----------

  ghost predicate BuffersOk(bufs: seq<Buffer>) {
    forall i :: 0 <= i < |bufs| ==>
      && bufs[i].buffer.index == i
      && |bufs[i].buffer.planes| == VIDEO_MAX_PLANES
      && |bufs[i].dmabufFd| == VIDEO_MAX_PLANES
      && |bufs[i].mapped| == VIDEO_MAX_PLANES
  }

  /**
   The stream has buffers exactly when it is not idle; the driver streams exactly when the stream
   says so; a stream that is not streaming has no completed buffer, and an output stream that is
   not streaming has given the driver nothing.
  */
  ghost predicate StreamOk(s: Stream) {
    && DriverOk(s.drv)
    && (s.buffers.Some? <==> s.state != Idle)
    && (s.buffers.Some? ==> 0 < |s.buffers.value| == s.drv.count && BuffersOk(s.buffers.value))
    && (s.drv.streaming <==> s.state == Streaming)
    && (s.state == Idle ==> Held(s.drv) == [])
    && (!s.capture && s.state != Streaming ==> Held(s.drv) == [])
    && 1 <= s.numPlanes < VIDEO_MAX_PLANES
  }

  /** `buffers_count` is the length of the array it describes. */
  ghost predicate CountExact(s: Stream) {
    s.buffers.Some? ==> s.count == |s.buffers.value|
  }

  /** Every index below `buffers_count` is within the array. */
  ghost predicate CountCovered(s: Stream) {
    s.buffers.Some? ==> s.count <= |s.buffers.value|
  }

  lemma NothingHeld(d: Driver)
    requires d.queued == [] && d.done == []
    ensures DriverOk(d) && Held(d) == [] && InFlight(d) == []
  {}

  lemma {:induction false} ExposeKeeps(d: Driver, buf: Buffer, i: nat, n: nat, exporting: bool)
    requires DriverOk(d) && Held(d) == []
    requires |buf.dmabufFd| == |buf.mapped| == VIDEO_MAX_PLANES
    ensures var (e, code, b) := ExposePlanes(d, buf, i, n, exporting);
      && DriverOk(e) && Held(e) == [] && e.count == d.count && e.streaming == d.streaming
      && b.buffer == buf.buffer && |b.dmabufFd| == |b.mapped| == VIDEO_MAX_PLANES
    decreases n - i
  {
    hide Elapse, DriverOk;
    if i < n && i < VIDEO_MAX_PLANES {
      ElapseOk(d);
      var (e, err, value) := Expose(d);
      if err == 0 && !(exporting && value == 0) {
        var exposed := if exporting then buf.(dmabufFd := buf.dmabufFd[i := value])
                       else buf.(mapped := buf.mapped[i := value]);
        ExposeKeeps(e, exposed, i + 1, n, exporting);
      }
    }
  }

  lemma {:induction false} QueryAllKeeps(s: Stream, done: seq<Buffer>)
    requires DriverOk(s.drv) && Held(s.drv) == [] && |done| <= s.count && BuffersOk(done) && s.buffers.None?
    ensures var (t, r) := QueryAll(s, done);
      && DriverOk(t.drv) && Held(t.drv) == []
      && t == s.(drv := t.drv, buffers := t.buffers)
      && t.drv.count == s.drv.count && t.drv.streaming == s.drv.streaming
      && (r == 0 <==> t.buffers.Some?)
      && (r == 0 ==> |t.buffers.value| == s.count && BuffersOk(t.buffers.value))
    decreases s.count - |done|
  {
    hide Elapse, DriverOk, Held;
    if |done| < s.count {
      var blank := FreshBuffer(s, |done|);
      var (e, err, b) := QueryBuf(s.drv, s.mplane, blank.buffer);
      ElapseOk(s.drv);
      if err == 0 {
        var full := blank.(buffer := b);
        var (f, code, buf) := BufferPrepare(s, e, full);
        ExposeKeeps(e, full, 0, PlanesCount(s), false);
        ExposeKeeps(e, full, 0, PlanesCount(s), true);
        if code == 0 {
          QueryAllKeeps(s.(drv := f), done + [buf]);
        }
      }
    }
  }

  lemma FormatKeeps(s: Stream, wanted: bool)
    requires StreamOk(s)
    ensures var (t, r) := SetFormat(s, wanted);
      StreamOk(t) && t == s.(drv := t.drv, numPlanes := t.numPlanes) && (CountExact(s) ==> CountExact(t))
      && t.drv.count == s.drv.count
  {
    hide Elapse, DriverOk;
    ElapseOk(s.drv);
  }

  lemma RequestKeeps(s: Stream)
    requires StreamOk(s) && s.state != Streaming
    ensures var (t, r) := RequestBuffers(s);
      && StreamOk(t.(state := if r == 0 then Prepared else s.state))
      && t == s.(drv := t.drv, buffers := t.buffers, count := t.count)
      && (s.buffers.Some? ==> r == -EBUSY && t == s)
      && (r == 0 ==> s.state == Idle && t.buffers.Some? && t.count == |t.buffers.value| && Held(t.drv) == [])
  {
    hide Elapse, DriverOk;
    if s.buffers.None? && s.memory != NoMemory {
      ElapseOk(s.drv);
      var (e, err, granted) := Reqbufs(s.drv, s.count);
      if err == 0 {
        NothingHeld(e);
        QueryAllKeeps(s.(drv := e, count := granted), []);
      }
    }
  }

  /**
   Preparing keeps the stream consistent whatever the driver answers. It succeeds only from IDLE,
   and then the count is exact, whatever number the driver granted.
  */
  lemma PrepareKeeps(s: Stream, opts: PrepareOpts)
    requires StreamOk(s)
    ensures var (t, r) := Prepare(s, opts);
      && StreamOk(t) && t.capture == s.capture && t.mplane == s.mplane
      && (r == 0 ==>
            && s.state == Idle && t.state == Prepared && CountExact(t)
            && Held(t.drv) == [] && t.memory == opts.memory)
      && (r != 0 ==> t.state == s.state)
  {
    hide StreamOk, SetFormat, RequestBuffers;
    if s.state != Streaming {
      FormatKeeps(s, opts.format);
      var s1 := SetFormat(s, opts.format).0;
      var s2 := s1.(memory := opts.memory, count := opts.count);
      OtherFields(s1, s2);
      RequestKeeps(s2);
    }
  }

  /** Consistency does not depend on the memory type and the count. */
  lemma OtherFields(s: Stream, t: Stream)
    requires StreamOk(s) && t == s.(memory := t.memory, count := t.count)
    ensures StreamOk(t)
  {}

  /**
   Preparing again is where the count goes wrong: `buffers_count` is overwritten before the existing
   buffers are noticed. The indices below it stay within the array if and only if the driver had
   granted at least as many buffers as are requested now.
  */
  lemma PrepareAgain(s: Stream, opts: PrepareOpts)
    requires StreamOk(s) && s.state == Prepared && (opts.format ==> Errno(s.drv) == 0)
    ensures var (t, r) := Prepare(s, opts);
      && r == -2 && t.count == opts.count && t.buffers == s.buffers
      && (CountCovered(t) <==> opts.count <= |s.buffers.value|)
  {
    hide Elapse, DriverOk, BuffersOk;
    FormatKeeps(s, opts.format);
  }

  /** One QBUF of a stream that is not streaming yet. */
  lemma EnqueueOne(s: Stream, i: nat)
    requires StreamOk(s) && s.state == Prepared && s.capture && i < |s.buffers.value|
    ensures var (e, err) := Qbuf(s.drv, s.buffers.value[i].buffer);
      && StreamOk(s.(drv := e))
      && (err == 0 ==> i !in InFlight(s.drv) && multiset(InFlight(e)) == multiset(InFlight(s.drv)) + multiset{i as int})
      && (err != 0 ==> multiset(InFlight(e)) == multiset(InFlight(s.drv)))
  {
    hide Elapse, Qbuf, DriverOk, InFlight, Held;
    QbufKeeps(s.drv, s.buffers.value[i].buffer);
    ElapseOk(s.drv);
  }

  lemma {:induction false} EnqueueKeeps(s: Stream, i: nat)
    requires StreamOk(s) && s.state == Prepared && s.capture
    ensures var (t, r) := Enqueue(s, i);
      && StreamOk(t) && t == s.(drv := t.drv)
      && multiset(InFlight(s.drv)) <= multiset(InFlight(t.drv))
      && (r == 0 ==> forall k :: i <= k < s.count && k < |s.buffers.value| ==>
            k !in InFlight(s.drv) && k in InFlight(t.drv))
    decreases s.count - i
  {
    hide Qbuf, DriverOk, BuffersOk, InFlight, Held;
    if i < s.count && i < |s.buffers.value| {
      EnqueueOne(s, i);
      var (e, err) := Qbuf(s.drv, s.buffers.value[i].buffer);
      if err == 0 {
        var s1 := s.(drv := e);
        EnqueueKeeps(s1, i + 1);
        MembersOf(InFlight(s.drv), InFlight(e), i, InFlight(Enqueue(s1, i + 1).0.drv));
      }
    }
  }

  lemma MembersOf(a: seq<int>, b: seq<int>, i: int, c: seq<int>)
    requires multiset(b) == multiset(a) + multiset{i} && multiset(b) <= multiset(c)
    ensures multiset(a) <= multiset(c) && i in c
    ensures forall k :: k in a ==> k in b
  {
    forall k | k in a
      ensures k in b
    {
      assert k in multiset(a);
      assert k in multiset(b);
    }
    assert i in multiset(b);
    assert i in multiset(c);
  }

  lemma AllOf(s: seq<int>, n: nat)
    requires NoDuplicates(multiset(s)) && forall x :: x in s <==> 0 <= x < n
    ensures multiset(s) == multiset(Iota(n))
  {
    IotaMultiset(n);
    forall x
      ensures multiset(s)[x] == multiset(Iota(n))[x]
    {
      assert x in multiset(s) <==> x in s;
      assert multiset(s)[x] <= 1 && multiset(Iota(n))[x] <= 1;
    }
  }

  /**
   Starting keeps the stream consistent, and a stream that starts is in one known condition: a capture
   stream has handed every buffer to the driver once, an output stream has handed over none.
  */
  lemma StartKeeps(s: Stream)
    requires StreamOk(s)
    ensures var (t, r) := Start(s);
      && StreamOk(t) && t == s.(drv := t.drv, state := t.state)
      && (r == 0 ==> s.state == Prepared && t.state == Streaming)
      && (r != 0 ==> t.state == s.state)
      && (r == 0 && s.capture && CountExact(s) ==> multiset(InFlight(t.drv)) == multiset(Iota(s.count)))
      && (r == 0 && !s.capture ==> Held(t.drv) == [])
  {
    hide Elapse, DriverOk, BuffersOk, InFlight, Enqueue;
    if s.state == Prepared {
      if s.capture {
        EnqueueKeeps(s, 0);
      }
      var (s1, r) := if s.capture then Enqueue(s, 0) else (s, 0);
      ElapseOk(s1.drv);
      Switched(Elapse(s1.drv));
      if s.capture && CountExact(s) && r == 0 {
        InRange(s1.drv);
        AllOf(InFlight(s1.drv), s.count);
      }
    }
  }

  /** Streaming may be switched on while nothing is completed. */
  lemma Switched(e: Driver)
    requires DriverOk(e)
    ensures DriverOk(e.(streaming := true)) && InFlight(e.(streaming := true)) == InFlight(e)
  {}

  lemma InRange(d: Driver)
    requires DriverOk(d)
    ensures NoDuplicates(multiset(InFlight(d)))
    ensures forall x :: x in InFlight(d) ==> 0 <= x < d.count
  {
    forall x | x in InFlight(d)
      ensures 0 <= x < d.count
    {
      var i :| 0 <= i < |InFlight(d)| && InFlight(d)[i] == x;
      assert Held(d)[i] in Held(d);
    }
  }

  /** Stopping a stream gets every buffer back, unless STREAMOFF itself fails, which changes nothing. */
  lemma StopKeeps(s: Stream)
    requires StreamOk(s)
    ensures var (t, r) := Stop(s);
      && StreamOk(t) && t == s.(drv := t.drv, state := t.state)
      && (r == 0 ==> t.state != Streaming && (s.state == Streaming ==> t.state == Prepared && Held(t.drv) == []))
      && (r == 0 <==> s.state != Streaming || Errno(s.drv) == 0)
      && (s.state != Streaming || r != 0 ==> t.state == s.state)
  {
    hide Elapse, DriverOk, BuffersOk;
    if s.state == Streaming {
      ElapseOk(s.drv);
      NothingHeld(Elapse(s.drv).(streaming := false, queued := [], done := []));
    }
  }

  // ---------- any sequence of operations ----------

  datatype StreamOp = DoPrepare(opts: PrepareOpts) | DoStart | DoStop

  function Do(s: Stream, op: StreamOp): (Stream, int) {
    match op
    case DoPrepare(opts) => Prepare(s, opts)
    case DoStart => Start(s)
    case DoStop => Stop(s)
  }

  function DoAll(s: Stream, ops: seq<StreamOp>): Stream
    decreases |ops|
  {
    if ops == [] then s else DoAll(Do(s, ops[0]).0, ops[1..])
  }

  /**
   The life of a stream: over any sequence of prepares, starts and stops, with any outcome of their
   ioctls, it stays consistent; in particular it has buffers exactly when it is not idle, and an
   output stream that is not streaming has left nothing with the driver.
  */
  lemma {:induction false} StreamLives(s: Stream, ops: seq<StreamOp>)
    requires StreamOk(s)
    ensures var t := DoAll(s, ops);
      && StreamOk(t) && (t.buffers.Some? <==> t.state != Idle)
      && (!t.capture && t.state != Streaming ==> Held(t.drv) == [])
    decreases |ops|
  {
    hide DriverOk, BuffersOk, Prepare, Start, Stop;
    if ops != [] {
      PrepareKeeps(s, if ops[0].DoPrepare? then ops[0].opts else PrepareOpts(NoMemory, 0, false));
      StartKeeps(s);
      StopKeeps(s);
      StreamLives(Do(s, ops[0]).0, ops[1..]);
    }
  }

  // ---------- what an operation leaves on the tape ----------

  lemma {:induction false} ExposeTape(d: Driver, buf: Buffer, i: nat, n: nat, exporting: bool)
    ensures Later(ExposePlanes(d, buf, i, n, exporting).0.tape, d.tape)
    decreases n - i
  {
    hide Elapse;
    if i < n && i < |buf.dmabufFd| && i < |buf.mapped| {
      var (e, err, value) := Expose(d);
      ElapseTape(d);
      if err == 0 && !(exporting && value == 0) {
        var exposed := if exporting then buf.(dmabufFd := buf.dmabufFd[i := value])
                       else buf.(mapped := buf.mapped[i := value]);
        ExposeTape(e, exposed, i + 1, n, exporting);
        LaterTransitive(ExposePlanes(e, exposed, i + 1, n, exporting).0.tape, e.tape, d.tape);
      }
    }
  }

  lemma BufferPrepareTape(s: Stream, d: Driver, buf: Buffer)
    ensures Later(BufferPrepare(s, d, buf).0.tape, d.tape)
  {
    hide ExposePlanes;
    ExposeTape(d, buf, 0, PlanesCount(s), false);
    ExposeTape(d, buf, 0, PlanesCount(s), true);
  }

  lemma {:induction false} QueryAllTape(s: Stream, done: seq<Buffer>)
    requires |done| <= s.count
    ensures Later(QueryAll(s, done).0.drv.tape, s.drv.tape)
    decreases s.count - |done|
  {
    hide Elapse, BufferPrepare;
    if |done| < s.count {
      var blank := FreshBuffer(s, |done|);
      var (e, err, b) := QueryBuf(s.drv, s.mplane, blank.buffer);
      ElapseTape(s.drv);
      if err == 0 {
        var full := blank.(buffer := b);
        var (f, code, buf) := BufferPrepare(s, e, full);
        BufferPrepareTape(s, e, full);
        LaterTransitive(f.tape, e.tape, s.drv.tape);
        if code == 0 {
          QueryAllTape(s.(drv := f), done + [buf]);
          LaterTransitive(QueryAll(s.(drv := f), done + [buf]).0.drv.tape, f.tape, s.drv.tape);
        }
      }
    }
  }

  lemma RequestTape(s: Stream)
    ensures Later(RequestBuffers(s).0.drv.tape, s.drv.tape)
  {
    hide Elapse, QueryAll;
    ElapseTape(s.drv);
    var (e, err, granted) := Reqbufs(s.drv, s.count);
    QueryAllTape(s.(drv := e, count := granted), []);
    LaterTransitive(QueryAll(s.(drv := e, count := granted), []).0.drv.tape, e.tape, s.drv.tape);
  }

  lemma FormatTape(s: Stream, wanted: bool)
    ensures Later(s.drv.tape, s.drv.tape) && Later(SetFormat(s, wanted).0.drv.tape, s.drv.tape)
  {
    hide Elapse;
    ElapseTape(s.drv);
  }

  lemma PrepareTape(s: Stream, opts: PrepareOpts)
    ensures Later(Prepare(s, opts).0.drv.tape, s.drv.tape)
  {
    hide SetFormat, RequestBuffers, Later;
    FormatTape(s, opts.format);
    if s.state != Streaming {
      var s1 := SetFormat(s, opts.format).0.(memory := opts.memory, count := opts.count);
      RequestTape(s1);
      LaterTransitive(RequestBuffers(s1).0.drv.tape, s1.drv.tape, s.drv.tape);
    }
  }

  lemma QbufTape(d: Driver, b: V4l2Buffer)
    ensures Later(Qbuf(d, b).0.tape, d.tape)
  {
    hide Elapse;
    ElapseTape(d);
  }

  lemma {:induction false} EnqueueTape(s: Stream, i: nat)
    requires s.buffers.Some?
    ensures Later(Enqueue(s, i).0.drv.tape, s.drv.tape)
    decreases s.count - i
  {
    hide Qbuf;
    if i < s.count && i < |s.buffers.value| {
      QbufTape(s.drv, s.buffers.value[i].buffer);
      var (e, err) := Qbuf(s.drv, s.buffers.value[i].buffer);
      if err == 0 {
        EnqueueTape(s.(drv := e), i + 1);
        LaterTransitive(Enqueue(s.(drv := e), i + 1).0.drv.tape, e.tape, s.drv.tape);
      }
    }
  }

  lemma StartTape(s: Stream)
    ensures Later(Start(s).0.drv.tape, s.drv.tape)
  {
    hide Elapse, Enqueue;
    if s.state == Prepared {
      if s.capture && s.buffers.Some? {
        EnqueueTape(s, 0);
        var s1 := Enqueue(s, 0).0;
        ElapseTape(s1.drv);
        LaterTransitive(Elapse(s1.drv).tape, s1.drv.tape, s.drv.tape);
      }
      ElapseTape(s.drv);
    }
  }

  lemma StopTape(s: Stream)
    ensures Later(Stop(s).0.drv.tape, s.drv.tape)
  {
    hide Elapse;
    ElapseTape(s.drv);
  }

  // ---------- a start that fails half-way ----------

  /** A capture stream that is not streaming and yet has given the driver some of its buffers. */
  ghost predicate Wedged(s: Stream) {
    StreamOk(s) && s.capture && s.state == Prepared && CountExact(s) && Held(s.drv) != []
  }

  lemma NotHeld(d: Driver, i: nat)
    requires Held(d) == []
    ensures i !in InFlight(d)
  {}

  lemma StillHeld(d: Driver, e: Driver)
    requires multiset(InFlight(d)) <= multiset(InFlight(e)) && Held(d) != []
    ensures Held(e) != []
  {
    var x := InFlight(d)[0];
    assert x in multiset(InFlight(d));
    assert x in multiset(InFlight(e));
  }

  /**
   A start that fails leaves a healthy capture stream healthy if and only if its very first QBUF
   failed; after any later failure the buffers queued so far stay with the driver.
  */
  lemma FailedStart(s: Stream)
    requires StreamOk(s) && s.capture && s.state == Prepared && CountExact(s) && Held(s.drv) == []
    requires Start(s).1 != 0
    ensures Wedged(Start(s).0) <==> Errno(s.drv) == 0
  {
    hide Elapse, DriverOk, InFlight;
    StartKeeps(s);
    var b := s.buffers.value[0].buffer;
    NotHeld(s.drv, b.index);
    QbufKeeps(s.drv, b);
    ElapseOk(s.drv);
    var (e, err) := Qbuf(s.drv, b);
    if err == 0 {
      assert StreamOk(s.(drv := e));
      EnqueueKeeps(s.(drv := e), 1);
      StillHeld(e, Enqueue(s.(drv := e), 1).0.drv);
    }
  }

  datatype SwitchOp = OpStart | OpStop

  function Switch(s: Stream, op: SwitchOp): (Stream, int) {
    if op == OpStart then Start(s) else Stop(s)
  }

  /** The stream after a list of starts and stops; `started` tells whether one of the starts succeeded. */
  function SwitchAll(s: Stream, ops: seq<SwitchOp>): (r: (Stream, bool))
    decreases |ops|
  {
    if ops == [] then (s, false) else
      var (s1, code) := Switch(s, ops[0]);
      var (s2, started) := SwitchAll(s1, ops[1..]);
      (s2, started || (ops[0] == OpStart && code == 0))
  }

  lemma WedgedStays(s: Stream, op: SwitchOp)
    requires Wedged(s)
    ensures Wedged(Switch(s, op).0) && (op == OpStart ==> Switch(s, op).1 == -3)
  {
    hide Elapse, DriverOk, BuffersOk;
    if op == OpStart {
      StartKeeps(s);
      EnqueueKeeps(s, 0);
      InRange(s.drv);
      assert InFlight(s.drv)[0] == Held(s.drv)[0].index;
      assert InFlight(s.drv)[0] in InFlight(s.drv);
      StillHeld(s.drv, Enqueue(s, 0).0.drv);
    }
  }

  /**
   A wedged stream never streams again: every later start is refused, and stopping it does nothing,
   because STREAMOFF is only issued for a stream whose start succeeded.
  */
  lemma {:induction false} WedgedForever(s: Stream, ops: seq<SwitchOp>)
    requires Wedged(s)
    ensures Wedged(SwitchAll(s, ops).0) && !SwitchAll(s, ops).1
    decreases |ops|
  {
    hide Wedged, Switch;
    if ops != [] {
      WedgedStays(s, ops[0]);
      WedgedForever(Switch(s, ops[0]).0, ops[1..]);
    }
  }

  lemma NotAdded(a: seq<int>, b: seq<int>, i: int, k: int)
    requires multiset(b) == multiset(a) + multiset{i} && k !in a && k != i
    ensures k !in b
  {
    assert k !in multiset(a) + multiset{i};
    assert k !in multiset(b);
  }

  /** Buffers i, i + 1, ... that the application owns are all accepted exactly when none of their QBUFs fails. */
  lemma {:induction false} EnqueueExactly(s: Stream, i: nat, more: nat)
    requires StreamOk(s) && s.state == Prepared && s.capture && CountExact(s) && i <= s.count
    requires forall k :: i <= k < s.count ==> k !in InFlight(s.drv)
    ensures var (t, r) := Enqueue(s, i);
      Works(s.drv.tape, s.count - i + more) <==> r == 0 && Works(t.drv.tape, more)
    decreases s.count - i
  {
    hide Elapse, DriverOk, InFlight, Held, Works;
    if i < s.count {
      var b := s.buffers.value[i].buffer;
      QbufKeeps(s.drv, b);
      WorksNext(s.drv, s.count - i - 1 + more);
      var (e, err) := Qbuf(s.drv, b);
      if err == 0 {
        hide Qbuf;
        ElapseOk(s.drv);
        forall k | i + 1 <= k < s.count
          ensures k !in InFlight(e)
        {
          NotAdded(InFlight(s.drv), InFlight(e), i, k);
        }
        QbufTakesOne(s.drv, b);
        EnqueueExactly(s.(drv := e), i + 1, more);
      }
    }
  }

  lemma QbufTakesOne(d: Driver, b: V4l2Buffer)
    ensures Qbuf(d, b).0.tape == Elapse(d).tape
  {
    hide Elapse;
  }

  /** How many ioctls a start issues if none fails: a QBUF for each buffer of a capture stream, and STREAMON. */
  function StartIoctls(s: Stream): nat {
    if s.capture then s.count + 1 else 1
  }

  /** A start of this stream would succeed. */
  ghost predicate CanStart(s: Stream) {
    s.state == Prepared && !Wedged(s) && Works(s.drv.tape, StartIoctls(s))
  }

  /**
   Which starts succeed, exactly: those of a prepared stream that is not a wedged capture stream, if none
   of the ioctls that it issues fails.
  */
  lemma StartsExactly(s: Stream)
    requires StreamOk(s) && (s.capture ==> CountExact(s))
    ensures Start(s).1 == 0 <==> CanStart(s)
  {
    hide DriverOk, Elapse, Enqueue, BuffersOk, InFlight, Works;
    if s.state == Prepared {
      if Wedged(s) {
        WedgedStays(s, OpStart);
      } else if s.capture {
        forall k | 0 <= k < s.count
          ensures k !in InFlight(s.drv)
        {
          NotHeld(s.drv, k);
        }
        EnqueueExactly(s, 0, 1);
        WorksNext(Enqueue(s, 0).0.drv, 0);
        WorksNone(Elapse(Enqueue(s, 0).0.drv).tape);
      } else {
        WorksNext(s.drv, 0);
        WorksNone(Elapse(s.drv).tape);
      }
    }
  }

  lemma WorksNone(tape: seq<Tick>)
    ensures Works(tape, 0)
  {}

  /**
   When a failed start of a capture stream can be retried: the second start succeeds if and only if the
   first one had failed at its very first QBUF and none of the second one's ioctls fails.
  */
  lemma RetryExactly(s: Stream)
    requires StreamOk(s) && s.capture && s.state == Prepared && CountExact(s) && Held(s.drv) == []
    requires Start(s).1 != 0
    ensures Start(Start(s).0).1 == 0 <==> Errno(s.drv) != 0 && Works(Start(s).0.drv.tape, s.count + 1)
  {
    hide DriverOk, Elapse, Start, InFlight, Works, BuffersOk;
    StartKeeps(s);
    FailedStart(s);
    StartsExactly(Start(s).0);
  }

  /**
   One failure is enough: when the second QBUF of a start fails, the stream is wedged, whatever the
   driver does after.
  */
  lemma SecondQbufWedges(s: Stream)
    requires StreamOk(s) && s.capture && s.state == Prepared && CountExact(s) && Held(s.drv) == []
    requires |s.buffers.value| >= 2 && |s.drv.tape| >= 2 && s.drv.tape[0].errno == 0 && s.drv.tape[1].errno != 0
    ensures Start(s).1 == -3 && Wedged(Start(s).0)
  {
    hide DriverOk, InFlight, Held;
    var b := s.buffers.value[0].buffer;
    NotHeld(s.drv, 0);
    QbufKeeps(s.drv, b);
    ElapsedTape(s.drv);
    var e := Qbuf(s.drv, b).0;
    QbufFails(e, s.buffers.value[1].buffer);
    assert Enqueue(s.(drv := e), 1).1 == -1;
    FailedStart(s);
  }

  lemma ElapsedTape(d: Driver)
    requires d.tape != []
    ensures Elapse(d).tape == d.tape[1..]
  {}

  lemma QbufFails(d: Driver, b: V4l2Buffer)
    requires Errno(d) != 0
    ensures Qbuf(d, b).1 != 0
  {}

  /** A prepared capture stream with two buffers and a driver that fails its second QBUF with EIO. */
  function Unlucky(): Stream {
    var plane := seq(VIDEO_MAX_PLANES, _ => NO_PLANE);
    var none := seq(VIDEO_MAX_PLANES, _ => 0);
    var bufs := [Buffer(V4l2Buffer(0, 0, 0, 0, 0, plane), none, none),
      Buffer(V4l2Buffer(1, 0, 0, 0, 0, plane), none, none)];
    Stream(true, false, 1, Prepared, DmabufExport, 2, Some(bufs),
           Driver(2, false, [], [], 0, [Tick(0, 0, 0, []), Tick(EIO, 0, 0, [])]))
  }

  /** Its driver fails once and never again, and yet no list of starts and stops makes it stream. */
  lemma UnluckyNeverStreams(ops: seq<SwitchOp>)
    ensures StreamOk(Unlucky()) && Unlucky().state == Prepared && Held(Unlucky().drv) == []
    ensures Start(Unlucky()).1 == -3
    ensures Wedged(SwitchAll(Start(Unlucky()).0, ops).0) && !SwitchAll(Start(Unlucky()).0, ops).1
  {
    hide Start, SwitchAll, Wedged, DriverOk;
    NothingHeld(Unlucky().drv);
    SecondQbufWedges(Unlucky());
    WedgedForever(Start(Unlucky()).0, ops);
  }

  // ---------- pull and push on a streaming pair ----------

  lemma PullKeeps(s: Stream)
    requires StreamOk(s)
    ensures var (t, r) := Pull(s);
      && StreamOk(t) && t == s.(drv := t.drv, buffers := t.buffers)
      && t.drv == (if s.buffers.Some? then Dqbuf(s.drv).0 else s.drv)
      && (r.None? ==> t.buffers == s.buffers)
      && (r.Some? ==>
            && s.buffers.Some? && Dqbuf(s.drv).1.Some? && r.value == Dqbuf(s.drv).1.value.index < |s.buffers.value|
            && t.buffers == Some(s.buffers.value[r.value :=
              Pulled(s.buffers.value[r.value], Dqbuf(s.drv).1.value, s.mplane)]))
  {
    hide Elapse, DriverOk, Dqbuf;
    if s.buffers.Some? {
      DqbufKeeps(s.drv);
    }
  }

  lemma PushKeeps(s: Stream, b: V4l2Buffer)
    requires StreamOk(s) && s.state == Streaming && |b.planes| == VIDEO_MAX_PLANES
    ensures var (t, r) := Push(s, b);
      StreamOk(t) && t == s.(drv := Qbuf(s.drv, b).0) && r == Qbuf(s.drv, b).1
  {
    hide Elapse, DriverOk, Qbuf, BuffersOk;
    QbufKeeps(s.drv, b);
  }
}
