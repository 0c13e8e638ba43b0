/**
 What a stream's operations do, said without the functions of Streams.dfy that compute it: the fields of
 every buffer after a preparation, by the position on the tape of the ioctl that reported them, and what
 arrives when a buffer is pulled.
*/
module StreamLaws {
  import opened V4l2
  import opened Streams

  // ---------- positions on a tape ----------

  /** What the n-th ioctl from here reports. */
  function ValueAt(tape: seq<Tick>, n: nat, byDefault: nat): nat {
    if n < |tape| then tape[n].value else byDefault
  }

  /** The tape after n ioctls. */
  function Drop(tape: seq<Tick>, n: nat): seq<Tick> {
    if n <= |tape| then tape[n..] else []
  }

  lemma Dropped(d: Driver)
    ensures Elapse(d).tape == Drop(d.tape, 1)
    ensures forall byDefault :: Reported(d, byDefault) == ValueAt(d.tape, 0, byDefault)
  {}

  lemma DropAll(tape: seq<Tick>)
    ensures Drop(tape, 0) == tape
  {}

  lemma DropTwice(tape: seq<Tick>, a: nat, b: nat)
    ensures Drop(Drop(tape, a), b) == Drop(tape, a + b)
    ensures forall byDefault :: ValueAt(Drop(tape, a), b, byDefault) == ValueAt(tape, a + b, byDefault)
  {}

  lemma WorksSplits(tape: seq<Tick>, a: nat, b: nat)
    ensures Works(tape, a + b) <==> Works(tape, a) && Works(Drop(tape, a), b)
  {
    if Works(tape, a) && Works(Drop(tape, a), b) {
      forall i | 0 <= i < a + b && i < |tape|
        ensures tape[i].errno == 0
      {
        assert i < a || tape[i] == Drop(tape, a)[i - a];
      }
    }
    if Works(tape, a + b) {
      forall i | 0 <= i < b && i < |Drop(tape, a)|
        ensures Drop(tape, a)[i].errno == 0
      {
        assert Drop(tape, a)[i] == tape[a + i];
      }
    }
  }

  // ---------- the planes of one buffer ----------

  /**
   Planes i, ..., n - 1, one ioctl each: if the exported descriptors are positive, all planes are done
   exactly when none of the ioctls fails, and then each has what its own ioctl reported, on the right side.
  */
  lemma {:induction false} EveryPlane(d: Driver, buf: Buffer, i: nat, n: nat, exporting: bool)
    requires |buf.dmabufFd| == |buf.mapped| == VIDEO_MAX_PLANES && i <= n <= VIDEO_MAX_PLANES
    requires exporting ==> forall k :: 0 <= k < n - i ==> ValueAt(d.tape, k, 1) > 0
    ensures var (e, code, b) := ExposePlanes(d, buf, i, n, exporting);
      && (code == 0 <==> Works(d.tape, n - i))
      && (code == 0 ==>
            && e.tape == Drop(d.tape, n - i)
            && b == buf.(dmabufFd := b.dmabufFd, mapped := b.mapped)
            && (if exporting then b.mapped == buf.mapped else b.dmabufFd == buf.dmabufFd)
            && var (now, was) := if exporting then (b.dmabufFd, buf.dmabufFd) else (b.mapped, buf.mapped);
               && |now| == VIDEO_MAX_PLANES
               && forall p :: 0 <= p < VIDEO_MAX_PLANES ==>
                    now[p] == if i <= p < n then ValueAt(d.tape, p - i, 1) else was[p])
    decreases n - i
  {
    hide Elapse, Works, Drop, ValueAt;
    DropAll(d.tape);
    Dropped(d);
    if i < n {
      var (e, err, value) := Expose(d);
      WorksNext(d, n - i - 1);
      if err == 0 {
        assert value == ValueAt(d.tape, 0, 1);
        var next := if exporting then buf.(dmabufFd := buf.dmabufFd[i := value])
                    else buf.(mapped := buf.mapped[i := value]);
        forall k | 0 <= k < n - i
          ensures Drop(Drop(d.tape, 1), k) == Drop(d.tape, k + 1)
          ensures ValueAt(Drop(d.tape, 1), k, 1) == ValueAt(d.tape, k + 1, 1)
        {
          DropTwice(d.tape, 1, k);
        }
        EveryPlane(e, next, i + 1, n, exporting);
      }
    } else {
      WorksNone(d.tape);
    }
  }

  /** An exported descriptor 0 ends the loop, as if all were well, with the planes from there on untouched. */
  lemma {:induction false} ZeroEndsTheLoop(d: Driver, buf: Buffer, i: nat, m: nat, n: nat)
    requires |buf.dmabufFd| == |buf.mapped| == VIDEO_MAX_PLANES && i <= m < n <= VIDEO_MAX_PLANES
    requires forall k :: 0 <= k < m - i ==> ValueAt(d.tape, k, 1) > 0
    requires ValueAt(d.tape, m - i, 1) == 0 && Works(d.tape, m - i + 1)
    ensures var (e, code, b) := ExposePlanes(d, buf, i, n, true);
      && code == 0 && e.tape == Drop(d.tape, m - i + 1) && b == buf.(dmabufFd := b.dmabufFd)
      && |b.dmabufFd| == VIDEO_MAX_PLANES
      && forall p :: 0 <= p < VIDEO_MAX_PLANES ==>
           b.dmabufFd[p] == if i <= p < m then ValueAt(d.tape, p - i, 1) else buf.dmabufFd[p]
    decreases m - i
  {
    hide Elapse, Works, Drop, ValueAt;
    Dropped(d);
    WorksNext(d, m - i);
    if i < m {
      var e, value := Expose(d).0, ValueAt(d.tape, 0, 1);
      forall k | 0 <= k <= m - i
        ensures Drop(Drop(d.tape, 1), k) == Drop(d.tape, k + 1)
        ensures ValueAt(Drop(d.tape, 1), k, 1) == ValueAt(d.tape, k + 1, 1)
      {
        DropTwice(d.tape, 1, k);
      }
      ZeroEndsTheLoop(e, buf.(dmabufFd := buf.dmabufFd[i := value]), i + 1, m, n);
    }
  }

  /** Importing and foreign memory needs no ioctl for a buffer, and a memory type that does not exist is refused. */
  lemma PrepareBufferAnswers(s: Stream, d: Driver, buf: Buffer)
    ensures var (e, code, out) := BufferPrepare(s, d, buf);
      && (s.memory in {Userptr, DmabufImport} ==> e == d && code == 0 && out == buf)
      && (s.memory == NoMemory ==> e == d && code == 22 && out == buf)
  {}

  // ---------- the buffers ----------

  predicate Exposes(memory: Memory) {
    memory == Mmap || memory == DmabufExport
  }

  /** How many ioctls one buffer takes: the query, and one for each plane that is exported or mapped. */
  function PerBuffer(s: Stream): nat {
    if Exposes(s.memory) then 1 + PlanesCount(s) else 1
  }

  /** The position of the k-th buffer's query, counted from the first one's. */
  function Place(k: nat, per: nat): nat {
    k * per
  }

  lemma NextPlace(k: nat, per: nat)
    ensures Place(0, per) == 0 && Place(k + 1, per) == per + Place(k, per)
  {}

  /**
   Buffer number index as its own ioctls made it, the first of them next on this tape: the query tells
   its length, or that of its planes, and the others the descriptors or the addresses, by memory type.
  */
  predicate PreparedAs(s: Stream, b: Buffer, index: nat, tape: seq<Tick>) {
    && b.buffer.index == index
    && b.buffer.sequence == 0 && b.buffer.mem == 0 && b.buffer.bytesused == 0
    && b.buffer.length == (if s.mplane then s.numPlanes else ValueAt(tape, 0, 0))
    && |b.buffer.planes| == |b.dmabufFd| == |b.mapped| == VIDEO_MAX_PLANES
    && (forall p :: 0 <= p < VIDEO_MAX_PLANES ==>
          b.buffer.planes[p] == Plane(0, if s.mplane then ValueAt(tape, 0, 0) else 0, 0, 0))
    && (forall p :: 0 <= p < VIDEO_MAX_PLANES ==>
          b.dmabufFd[p] == if s.memory == DmabufExport && p < PlanesCount(s) then ValueAt(tape, 1 + p, 1) else 0)
    && (forall p :: 0 <= p < VIDEO_MAX_PLANES ==>
          b.mapped[p] == if s.memory == Mmap && p < PlanesCount(s) then ValueAt(tape, 1 + p, 1) else 0)
  }

  /** The descriptors of one buffer, if it is exported, are positive. */
  predicate PositiveNext(s: Stream, tape: seq<Tick>) {
    s.memory == DmabufExport ==> forall q :: 1 <= q <= PlanesCount(s) ==> ValueAt(tape, q, 1) > 0
  }

  /** And those of n buffers. */
  ghost predicate Positive(s: Stream, tape: seq<Tick>, n: nat) {
    forall k :: 0 <= k < n ==> PositiveNext(s, Drop(tape, Place(k, PerBuffer(s))))
  }

  lemma OneBuffer(s: Stream, index: nat)
    requires s.memory != NoMemory && PlanesCount(s) < VIDEO_MAX_PLANES && PositiveNext(s, s.drv.tape)
    ensures var blank := FreshBuffer(s, index);
      var (e, err, b) := QueryBuf(s.drv, s.mplane, blank.buffer);
      var (f, code, buf) := BufferPrepare(s, e, blank.(buffer := b));
      && (err == 0 && code == 0 <==> Works(s.drv.tape, PerBuffer(s)))
      && (err == 0 && code == 0 ==>
            f.tape == Drop(s.drv.tape, PerBuffer(s)) && PreparedAs(s, buf, index, s.drv.tape))
  {
    hide Elapse, Works, Drop, ValueAt, ExposePlanes, Reported;
    var blank := FreshBuffer(s, index);
    var (e, err, b) := QueryBuf(s.drv, s.mplane, blank.buffer);
    Dropped(s.drv);
    WorksNext(s.drv, PerBuffer(s) - 1);
    WorksNone(e.tape);
    var n := PlanesCount(s);
    forall k | 0 <= k <= n
      ensures Drop(Drop(s.drv.tape, 1), k) == Drop(s.drv.tape, 1 + k)
      ensures ValueAt(e.tape, k, 1) == ValueAt(s.drv.tape, 1 + k, 1)
    {
      DropTwice(s.drv.tape, 1, k);
    }
    if Exposes(s.memory) {
      EveryPlane(e, blank.(buffer := b), 0, n, s.memory == DmabufExport);
    }
  }

  lemma PositiveRest(s: Stream, tape: seq<Tick>, n: nat)
    requires Positive(s, tape, n + 1)
    ensures PositiveNext(s, tape) && Positive(s, Drop(tape, PerBuffer(s)), n)
  {
    hide Drop, Place, PositiveNext;
    var per := PerBuffer(s);
    NextPlace(0, per);
    DropAll(tape);
    assert PositiveNext(s, Drop(tape, Place(0, per)));
    forall k | 0 <= k < n
      ensures PositiveNext(s, Drop(Drop(tape, per), Place(k, per)))
    {
      NextPlace(k, per);
      DropTwice(tape, per, Place(k, per));
      assert PositiveNext(s, Drop(tape, Place(k + 1, per)));
    }
  }

  /** What a buffer is prepared as does not depend on the driver and the number of buffers. */
  lemma PreparedIgnores(s: Stream, t: Stream, b: Buffer, index: nat, tape: seq<Tick>)
    requires t == s.(drv := t.drv, count := t.count)
    ensures PreparedAs(t, b, index, tape) <==> PreparedAs(s, b, index, tape)
  {}

  lemma PositiveIgnores(s: Stream, t: Stream, tape: seq<Tick>)
    requires t == s.(drv := t.drv, count := t.count)
    ensures PositiveNext(t, tape) <==> PositiveNext(s, tape)
  {}

  lemma PositiveAs(s: Stream, t: Stream, tape: seq<Tick>, n: nat)
    requires t == s.(drv := t.drv, count := t.count) && Positive(s, tape, n)
    ensures Positive(t, tape, n)
  {
    hide PositiveNext, Place, Drop;
    assert PerBuffer(t) == PerBuffer(s);
    forall k | 0 <= k < n
      ensures PositiveNext(t, Drop(tape, Place(k, PerBuffer(t))))
    {
      assert PositiveNext(s, Drop(tape, Place(k, PerBuffer(s))));
      PositiveIgnores(s, t, Drop(tape, Place(k, PerBuffer(s))));
    }
  }

  lemma AlsoFirst(s: Stream, s1: Stream, bufs: seq<Buffer>, done: seq<Buffer>, buf: Buffer)
    requires s1 == s.(drv := s1.drv) && s1.drv.tape == Drop(s.drv.tape, PerBuffer(s)) && |bufs| > |done|
    requires bufs[..|done| + 1] == done + [buf] && PreparedAs(s, buf, |done|, s.drv.tape)
    requires forall k :: 0 <= k < |bufs| - |done| - 1 ==>
      PreparedAs(s1, bufs[|done| + 1 + k], |done| + 1 + k, Drop(s1.drv.tape, Place(k, PerBuffer(s))))
    ensures bufs[..|done|] == done
    ensures forall k :: 0 <= k < |bufs| - |done| ==>
      PreparedAs(s, bufs[|done| + k], |done| + k, Drop(s.drv.tape, Place(k, PerBuffer(s))))
  {
    hide PreparedAs, Drop, Place;
    var per, m := PerBuffer(s), |done|;
    assert bufs[..m] == bufs[..m + 1][..m] == done;
    assert bufs[m] == bufs[..m + 1][m] == buf;
    forall k | 0 <= k < |bufs| - m
      ensures PreparedAs(s, bufs[m + k], m + k, Drop(s.drv.tape, Place(k, per)))
    {
      NextPlace(0, per);
      DropAll(s.drv.tape);
      if k > 0 {
        NextPlace(k - 1, per);
        DropTwice(s.drv.tape, per, Place(k - 1, per));
        assert PreparedAs(s1, bufs[m + 1 + (k - 1)], m + 1 + (k - 1), Drop(s1.drv.tape, Place(k - 1, per)));
        PreparedIgnores(s, s1, bufs[m + k], m + k, Drop(s.drv.tape, Place(k, per)));
      }
    }
  }

  /** From buffer number |done| on: all buffers are prepared exactly when no ioctl fails, each by its own ioctls. */
  lemma {:induction false} EveryBuffer(s: Stream, done: seq<Buffer>)
    requires |done| <= s.count && s.memory != NoMemory && PlanesCount(s) < VIDEO_MAX_PLANES
    requires Positive(s, s.drv.tape, s.count - |done|)
    ensures var (t, r) := QueryAll(s, done);
      var n, per := s.count - |done|, PerBuffer(s);
      && (r == 0 <==> Works(s.drv.tape, Place(n, per)))
      && (r == 0 ==>
            && t == s.(drv := t.drv, buffers := t.buffers) && t.buffers.Some? && |t.buffers.value| == s.count
            && t.drv.tape == Drop(s.drv.tape, Place(n, per))
            && t.buffers.value[..|done|] == done
            && forall k :: 0 <= k < n ==>
                 PreparedAs(s, t.buffers.value[|done| + k], |done| + k, Drop(s.drv.tape, Place(k, per))))
    decreases s.count - |done|
  {
    hide Elapse, Works, Drop, ValueAt, BufferPrepare, QueryBuf, FreshBuffer, Place, PreparedAs, PositiveNext, Positive;
    var n, per := s.count - |done|, PerBuffer(s);
    NextPlace(0, per);
    DropAll(s.drv.tape);
    if n == 0 {
      WorksNone(s.drv.tape);
      assert done[..|done|] == done;
    } else {
      PositiveRest(s, s.drv.tape, n - 1);
      OneBuffer(s, |done|);
      NextPlace(n - 1, per);
      WorksSplits(s.drv.tape, per, Place(n - 1, per));
      DropTwice(s.drv.tape, per, Place(n - 1, per));
      var blank := FreshBuffer(s, |done|);
      var (e, err, b) := QueryBuf(s.drv, s.mplane, blank.buffer);
      var (f, code, buf) := BufferPrepare(s, e, blank.(buffer := b));
      if err == 0 && code == 0 {
        var s1 := s.(drv := f);
        PositiveAs(s, s1, f.tape, n - 1);
        EveryBuffer(s1, done + [buf]);
        var (t, r) := QueryAll(s1, done + [buf]);
        assert QueryAll(s, done) == (t, r);
        if r == 0 {
          AlsoFirst(s, s1, t.buffers.value, done, buf);
        }
      }
    }
  }

  // ---------- a whole preparation ----------

  /** How many planes a stream has once its format is set. */
  function FormatPlanes(s: Stream, wanted: bool): nat {
    if wanted && s.mplane then (if 1 <= ValueAt(s.drv.tape, 0, 1) <= 7 then ValueAt(s.drv.tape, 0, 1) else 1)
    else s.numPlanes
  }

  /** The ioctl for the format, if one is wanted, records the number of planes that the driver reports. */
  lemma FormatLaw(s: Stream, wanted: bool)
    ensures var (t, r) := SetFormat(s, wanted);
      && t == s.(drv := t.drv, numPlanes := t.numPlanes)
      && t.drv.tape == Drop(s.drv.tape, if wanted then 1 else 0) && t.drv.streaming == s.drv.streaming
      && r == (if Works(s.drv.tape, if wanted then 1 else 0) then 0 else -1)
      && t.numPlanes == if r == 0 then FormatPlanes(s, wanted) else s.numPlanes
  {
    hide Elapse, Works;
    Dropped(s.drv);
    WorksNext(s.drv, 0);
    WorksNone(s.drv.tape);
    WorksNone(Elapse(s.drv).tape);
  }

  /** An idle stream as it asks for its buffers. */
  function Asking(s: Stream, opts: PrepareOpts): Stream {
    s.(memory := opts.memory, count := opts.count, numPlanes := FormatPlanes(s, opts.format))
  }

  /** The position of REQBUFS on the tape. */
  function AskedAt(opts: PrepareOpts): nat {
    if opts.format then 1 else 0
  }

  function GrantAt(tape: seq<Tick>, n: nat, byDefault: nat): nat {
    if n < |tape| then tape[n].granted else byDefault
  }

  /** Every descriptor that a driver reports to the preparation of an exporting stream is positive. */
  ghost predicate AllPositive(s: Stream, opts: PrepareOpts) {
    var n := AskedAt(opts);
    Positive(Asking(s, opts), Drop(s.drv.tape, n + 1), GrantAt(s.drv.tape, n, opts.count))
  }

  lemma IdleStream(s: Stream)
    requires StreamOk(s) && s.state == Idle
    ensures s.buffers.None? && !s.drv.streaming && 1 <= s.numPlanes < VIDEO_MAX_PLANES
  {}

  lemma PlanesRange(s: Stream, wanted: bool)
    requires 1 <= s.numPlanes < VIDEO_MAX_PLANES
    ensures 1 <= FormatPlanes(s, wanted) < VIDEO_MAX_PLANES
  {}

  lemma DropGrant(tape: seq<Tick>, a: nat, b: nat, byDefault: nat)
    ensures GrantAt(Drop(tape, a), b, byDefault) == GrantAt(tape, a + b, byDefault)
  {}

  lemma RequestLaw(s: Stream)
    requires s.buffers.None? && s.memory != NoMemory && !s.drv.streaming && PlanesCount(s) < VIDEO_MAX_PLANES
    requires Positive(s, Drop(s.drv.tape, 1), GrantAt(s.drv.tape, 0, s.count))
    ensures var (t, r) := RequestBuffers(s);
      var granted, per := GrantAt(s.drv.tape, 0, s.count), PerBuffer(s);
      && (r == 0 <==> granted > 0 && Works(s.drv.tape, 1 + Place(granted, per)))
      && (r == 0 ==>
            && t == s.(drv := t.drv, buffers := t.buffers, count := granted)
            && t.drv.tape == Drop(s.drv.tape, 1 + Place(granted, per))
            && t.buffers.Some? && |t.buffers.value| == granted
            && forall k :: 0 <= k < granted ==>
                 PreparedAs(s, t.buffers.value[k], k, Drop(s.drv.tape, 1 + Place(k, per))))
  {
    hide QueryAll, Works, Drop, Place, PreparedAs, Positive, PositiveNext, ValueAt, Elapse;
    var granted, per := GrantAt(s.drv.tape, 0, s.count), PerBuffer(s);
    Dropped(s.drv);
    WorksNext(s.drv, Place(granted, per));
    var (e, err, got) := Reqbufs(s.drv, s.count);
    if err == 0 {
      var s1 := s.(drv := e, count := granted);
      assert e.tape == Drop(s.drv.tape, 1);
      PositiveAs(s, s1, e.tape, granted);
      EveryBuffer(s1, []);
      forall k | 0 <= k <= granted
        ensures Drop(e.tape, Place(k, per)) == Drop(s.drv.tape, 1 + Place(k, per))
      {
        DropTwice(s.drv.tape, 1, Place(k, per));
      }
      if QueryAll(s1, []).1 == 0 {
        var bufs := QueryAll(s1, []).0.buffers.value;
        forall k | 0 <= k < granted
          ensures PreparedAs(s, bufs[k], k, Drop(s.drv.tape, 1 + Place(k, per)))
        {
          assert PreparedAs(s1, bufs[0 + k], 0 + k, Drop(e.tape, Place(k, per)));
          PreparedIgnores(s, s1, bufs[k], k, Drop(e.tape, Place(k, per)));
        }
      }
    }
  }

  /**
   What a preparation does, exactly, ioctl by ioctl: one for the format, if it is wanted, one that asks for
   buffers, and then for each buffer granted one query, and one more for each of its planes if the stream
   maps or exports. From IDLE it succeeds if and only if buffers are granted and none of these fails, and
   then every buffer is what its own ioctls reported.
  */
  lemma PrepareExactly(s: Stream, opts: PrepareOpts)
    requires StreamOk(s) && s.state == Idle && opts.memory != NoMemory && AllPositive(s, opts)
    ensures var (t, r) := Prepare(s, opts);
      var a, n := Asking(s, opts), AskedAt(opts);
      var granted, per := GrantAt(s.drv.tape, n, opts.count), PerBuffer(a);
      && (r == 0 <==> granted > 0 && Works(s.drv.tape, n + 1 + Place(granted, per)))
      && (r == 0 ==>
            && t == a.(drv := t.drv, buffers := t.buffers, count := granted, state := Prepared)
            && t.drv.tape == Drop(s.drv.tape, n + 1 + Place(granted, per))
            && t.buffers.Some? && |t.buffers.value| == granted
            && forall k :: 0 <= k < granted ==>
                 PreparedAs(a, t.buffers.value[k], k, Drop(s.drv.tape, n + 1 + Place(k, per))))
  {
    hide StreamOk, SetFormat, RequestBuffers, Works, Drop, Place, PreparedAs, Positive, ValueAt, GrantAt, FormatPlanes;
    FormatLaw(s, opts.format);
    IdleStream(s);
    var n, a := AskedAt(opts), Asking(s, opts);
    var (s1, r1) := SetFormat(s, opts.format);
    var s2 := s1.(memory := opts.memory, count := opts.count);
    var granted, per := GrantAt(s.drv.tape, n, opts.count), PerBuffer(a);
    WorksSplits(s.drv.tape, n, 1 + Place(granted, per));
    if r1 == 0 {
      PlanesRange(s, opts.format);
      DropGrant(s.drv.tape, n, 0, opts.count);
      DropTwice(s.drv.tape, n, 1);
      PositiveAs(a, s2, Drop(s2.drv.tape, 1), granted);
      RequestLaw(s2);
      forall k | 0 <= k <= granted
        ensures Drop(s2.drv.tape, 1 + Place(k, per)) == Drop(s.drv.tape, n + 1 + Place(k, per))
      {
        DropTwice(s.drv.tape, n, 1 + Place(k, per));
      }
      var (t, r) := RequestBuffers(s2);
      if r == 0 {
        forall k | 0 <= k < granted
          ensures PreparedAs(a, t.buffers.value[k], k, Drop(s.drv.tape, n + 1 + Place(k, per)))
        {
          PreparedIgnores(a, s2, t.buffers.value[k], k, Drop(s2.drv.tape, 1 + Place(k, per)));
        }
      }
    }
  }

  // ---------- the answers ----------

  /**
   The answer of a preparation: busy while streaming, before anything is done; -1 when the format is
   refused, before the options are taken over; -2 when there are buffers already, for a memory type that
   does not exist, or when the buffers are not obtained: the options are taken over then all the same.
  */
  lemma PrepareAnswers(s: Stream, opts: PrepareOpts)
    requires StreamOk(s)
    ensures var (t, r) := Prepare(s, opts);
      && r in {0, -1, -2, -16}
      && (r == -16 <==> s.state == Streaming)
      && (r == -1 <==> s.state != Streaming && opts.format && Errno(s.drv) != 0)
      && (s.state == Prepared || opts.memory == NoMemory ==> r != 0)
      && (r == -16 ==> t == s)
      && (r == -1 ==> t == s.(drv := t.drv) && t.drv.tape == Drop(s.drv.tape, 1))
      && (r == -2 ==> t.memory == opts.memory && t.buffers == s.buffers && t.state == s.state
                      && (opts.memory == NoMemory || s.buffers.Some? ==> t.count == opts.count))
  {
    hide Elapse, DriverOk, BuffersOk, QueryAll;
    Dropped(s.drv);
    FormatKeeps(s, opts.format);
    var s1 := SetFormat(s, opts.format).0.(memory := opts.memory, count := opts.count);
    OtherFields(SetFormat(s, opts.format).0, s1);
    if s.state != Streaming {
      RequestKeeps(s1);
    }
  }

  /**
   The answer of a start: -ENOENT without preparation, -EBUSY while streaming, -3 when a buffer of a
   capture stream is refused, which happens exactly if it is wedged or one of the QBUFs fails, 1 when
   STREAMON fails, and 0 otherwise.
  */
  lemma StartAnswers(s: Stream)
    requires StreamOk(s) && (s.capture ==> CountExact(s))
    ensures Start(s).1 == match s.state
      case Idle => -2
      case Streaming => -16
      case Prepared =>
        if s.capture && (Held(s.drv) != [] || !Works(s.drv.tape, s.count)) then -3
        else if CanStart(s) then 0 else 1
  {
    hide DriverOk, Elapse, BuffersOk, InFlight, Works, CanStart, Enqueue;
    StartsExactly(s);
    if s.state == Prepared && s.capture {
      if Held(s.drv) != [] {
        WedgedStays(s, OpStart);
      } else {
        forall k | 0 <= k < s.count
          ensures k !in InFlight(s.drv)
        {
          NotHeld(s.drv, k);
        }
        EnqueueExactly(s, 0, 0);
        WorksNone(Enqueue(s, 0).0.drv.tape);
        EnqueueAnswers(s, 0);
      }
    }
  }

  lemma {:induction false} EnqueueAnswers(s: Stream, i: nat)
    requires s.buffers.Some?
    ensures Enqueue(s, i).1 in {0, -1}
    decreases s.count - i
  {
    hide Qbuf;
    if i < s.count && i < |s.buffers.value| {
      EnqueueAnswers(s.(drv := Qbuf(s.drv, s.buffers.value[i].buffer).0), i + 1);
    }
  }

  /** The answer of a stop: 1 when STREAMOFF fails, and 0 also for a stream that does not stream. */
  lemma StopAnswers(s: Stream)
    ensures Stop(s).1 == if s.state == Streaming && Errno(s.drv) != 0 then 1 else 0
  {
    hide Elapse;
  }

  // ---------- the order of the buffers ----------

  /** While the driver does not stream nothing completes. */
  lemma {:induction false} NothingCompletes(d: Driver, fills: seq<Fill>)
    requires !d.streaming
    ensures CompleteAll(d, fills) == d
    decreases |fills|
  {
    if fills != [] {
      NothingCompletes(d, fills[1..]);
    }
  }

  lemma NothingElapses(d: Driver)
    requires !d.streaming
    ensures Elapse(d) == d.(tape := Drop(d.tape, 1))
  {
    if d.tape != [] {
      NothingCompletes(d.(tape := d.tape[1..]), d.tape[0].fills);
    }
  }

  function BuffersFrom(s: Stream, i: nat): seq<V4l2Buffer>
    requires s.buffers.Some? && i <= |s.buffers.value|
  {
    seq(|s.buffers.value| - i, k requires 0 <= k < |s.buffers.value| - i => s.buffers.value[i + k].buffer)
  }

  lemma {:induction false} EnqueuesInOrder(s: Stream, i: nat)
    requires s.buffers.Some? && s.count == |s.buffers.value| && i <= s.count && !s.drv.streaming
    ensures var (t, r) := Enqueue(s, i);
      && t == s.(drv := t.drv) && t.drv.done == s.drv.done && !t.drv.streaming
      && s.drv.queued <= t.drv.queued <= s.drv.queued + BuffersFrom(s, i)
      && (r == 0 ==> t.drv.queued == s.drv.queued + BuffersFrom(s, i))
    decreases s.count - i
  {
    hide Qbuf;
    if i < s.count {
      var b := s.buffers.value[i].buffer;
      var (e, err) := Qbuf(s.drv, b);
      QueuedBehind(s.drv, b);
      if err == 0 {
        EnqueuesInOrder(s.(drv := e), i + 1);
        assert BuffersFrom(s, i) == [b] + BuffersFrom(s, i + 1);
        assert s.drv.queued + ([b] + BuffersFrom(s, i + 1)) == e.queued + BuffersFrom(s, i + 1);
      }
    }
  }

  lemma QueuedBehind(d: Driver, b: V4l2Buffer)
    requires !d.streaming
    ensures var (e, err) := Qbuf(d, b);
      !e.streaming && e.done == d.done && e.queued == d.queued + if err == 0 then [b] else []
  {
    hide Elapse, InFlight;
    NothingElapses(d);
  }

  /** A capture stream that starts has queued its buffers as they are, in the order of their indices. */
  lemma StartsInOrder(s: Stream)
    requires StreamOk(s) && s.capture && CountExact(s) && Held(s.drv) == [] && Start(s).1 == 0
    ensures s.buffers.Some? && Start(s).0.drv.done == []
    ensures Start(s).0.drv.queued == BuffersFrom(s, 0)
  {
    hide DriverOk, Elapse, BuffersOk, Enqueue;
    EnqueuesInOrder(s, 0);
    NothingElapses(Enqueue(s, 0).0.drv);
    assert s.drv.queued == [];
  }

  // ---------- pull and push ----------

  /**
   What arrives when a buffer is pulled. All fields of the driver's buffer do; on a multi-planar stream
   also the planes that it filled in, while the others stay, and on a single-planar one all planes stay.
   The mapping and the descriptors of the buffer stay, and so does every other buffer.
  */
  lemma PullArrives(s: Stream)
    requires StreamOk(s) && Pull(s).1.Some?
    ensures s.buffers.Some? && Dqbuf(s.drv).1.Some?
    ensures var (t, i, b) := (Pull(s).0, Pull(s).1.value, Dqbuf(s.drv).1.value);
      && t == s.(drv := Dqbuf(s.drv).0, buffers := t.buffers)
      && t.buffers.Some? && |t.buffers.value| == |s.buffers.value| && i == b.index < |s.buffers.value|
      && var (was, now) := (s.buffers.value[i], t.buffers.value[i]);
         && now.buffer == b.(planes := now.buffer.planes)
         && |now.buffer.planes| == |b.planes| == VIDEO_MAX_PLANES
         && (forall p :: 0 <= p < VIDEO_MAX_PLANES ==>
               now.buffer.planes[p] == if s.mplane && p < b.length then b.planes[p] else was.buffer.planes[p])
         && now.mapped == was.mapped && now.dmabufFd == was.dmabufFd
         && forall j :: 0 <= j < |s.buffers.value| && j != i ==> t.buffers.value[j] == s.buffers.value[j]
  {
    hide DriverOk, Dqbuf, Elapse;
    PullKeeps(s);
    DqbufKeeps(s.drv);
  }

  /** When there is nothing to pull: no buffers, a failing DQBUF, or nothing completed; then only time passes. */
  lemma PullsNothing(s: Stream)
    ensures Pull(s).1.None? <==> s.buffers.None? || Errno(s.drv) != 0 || Elapse(s.drv).done == []
    ensures Pull(s).1.None? ==> Pull(s).0 == if s.buffers.None? then s else s.(drv := Elapse(s.drv))
  {
    hide Elapse;
  }

  /** What is pushed is what the driver queues; without buffers there is nobody to push to. */
  lemma PushArrives(s: Stream, b: V4l2Buffer)
    ensures var (t, r) := Push(s, b);
      && (s.buffers.None? ==> t == s && r == -5)
      && (s.buffers.Some? ==>
            && t == s.(drv := t.drv)
            && t.drv == Elapse(s.drv).(queued := Elapse(s.drv).queued + if r == 0 then [b] else [])
            && (r == 0 <==> Errno(s.drv) == 0 && b.index < s.drv.count && b.index !in InFlight(Elapse(s.drv)))
            && (Errno(s.drv) != 0 ==> r == Errno(s.drv)))
  {
    hide Elapse, InFlight;
    assert Elapse(s.drv).queued + [] == Elapse(s.drv).queued;
  }
}
