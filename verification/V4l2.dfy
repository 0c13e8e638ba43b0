/**
 The kernel's side of the program: what the V4L2 buffer queue of one stream promises.

 A driver is a value. Everything the kernel and the hardware may choose is on its tape: every
 ioctl first takes the next tick from the tape, lets the hardware complete the buffers that
 the tick names, and then fails with the tick's error number if there is one. A theorem about
 every tape is therefore a theorem about every pattern of failures and about every interleaving
 of hardware completions with the program, also in the middle of a call.
*/
module V4l2 {
  import opened Common

  const VIDEO_MAX_PLANES: nat := 8

  datatype Plane = Plane(fd: int, length: nat, bytesused: nat, dataOffset: nat)

  /** The fields of `struct v4l2_buffer` that the program reads or writes; `mem` is the union `m`. */
  datatype V4l2Buffer = V4l2Buffer(
    index: nat, sequence: nat, mem: int, length: nat, bytesused: nat, planes: seq<Plane>)

  /** One hardware completion: which queued buffer finishes, and how many bytes it then holds. */
  datatype Fill = Fill(pick: nat, bytesused: nat, planeBytes: seq<nat>)

  /**
   What happens at one ioctl: its error number (0 for none), how many buffers it grants if it is a
   REQBUFS, the number it reports otherwise, and the completions before it.
  */
  datatype Tick = Tick(errno: nat, granted: nat, value: nat, fills: seq<Fill>)

  datatype Driver = Driver(
    count: nat, streaming: bool, queued: seq<V4l2Buffer>, done: seq<V4l2Buffer>, sequence: nat, tape: seq<Tick>)

  function Indices(s: seq<V4l2Buffer>): (r: seq<int>)
    ensures |r| == |s|
    ensures forall i :: 0 <= i < |s| ==> r[i] == s[i].index
  {
    seq(|s|, i requires 0 <= i < |s| => s[i].index)
  }

  /** Every buffer the driver owns, the oldest first when it completes in order. */
  function Held(d: Driver): seq<V4l2Buffer> {
    d.done + d.queued
  }

  function InFlight(d: Driver): seq<int> {
    Indices(Held(d))
  }

  function Filled(b: V4l2Buffer, f: Fill, sequence: nat): V4l2Buffer {
    b.(sequence := sequence, bytesused := f.bytesused,
       planes := seq(|b.planes|, i requires 0 <= i < |b.planes| =>
         b.planes[i].(bytesused := if i < |f.planeBytes| then f.planeBytes[i] else 0)))
  }

  /** The hardware finishes one queued buffer; nothing happens when it has none. */
  function Complete(d: Driver, f: Fill): (r: Driver)
    ensures |Held(r)| == |Held(d)|
    ensures |r.queued| <= |d.queued|
    ensures r.tape == d.tape && r.count == d.count && r.streaming == d.streaming
  {
    if !d.streaming || d.queued == [] then d else
      var k := if f.pick < |d.queued| then f.pick else 0;
      d.(queued := d.queued[..k] + d.queued[k + 1..],
         done := d.done + [Filled(d.queued[k], f, d.sequence)],
         sequence := d.sequence + 1)
  }

  function CompleteAll(d: Driver, fills: seq<Fill>): (r: Driver)
    ensures |Held(r)| == |Held(d)|
    ensures r.tape == d.tape && r.count == d.count && r.streaming == d.streaming
    decreases |fills|
  {
    if fills == [] then d else CompleteAll(Complete(d, fills[0]), fills[1..])
  }

  /** The time that passes until the next ioctl takes effect. */
  function Elapse(d: Driver): (r: Driver)
    ensures |Held(r)| == |Held(d)|
    ensures r.count == d.count && r.streaming == d.streaming
    ensures |r.tape| <= |d.tape|
    ensures d.tape != [] ==> |r.tape| < |d.tape|
    ensures d.tape == [] ==> r == d
  {
    if d.tape == [] then d else CompleteAll(d.(tape := d.tape[1..]), d.tape[0].fills)
  }

  function Errno(d: Driver): nat {
    if d.tape == [] then 0 else d.tape[0].errno
  }

  function Reported(d: Driver, byDefault: nat): nat {
    if d.tape == [] then byDefault else d.tape[0].value
  }

  function Granted(d: Driver, requested: nat): nat {
    if d.tape == [] then requested else d.tape[0].granted
  }

  /** VIDIOC_QBUF: refused, with no other effect, unless the buffer exists and the application owns it. */
  function Qbuf(d: Driver, b: V4l2Buffer): (r: (Driver, nat))
    ensures |r.0.tape| <= |d.tape|
    ensures d.tape == [] ==> |r.0.done| == |d.done|
  {
    var e := Elapse(d);
    if Errno(d) != 0 then (e, Errno(d))
    else if b.index >= d.count || b.index in InFlight(e) then (e, EINVAL)
    else (e.(queued := e.queued + [b]), 0)
  }

  /** VIDIOC_DQBUF: hands out the buffer that completed first, and fails when none has. */
  function Dqbuf(d: Driver): (r: (Driver, Option<V4l2Buffer>))
    ensures r.1.Some? ==> |Held(r.0)| + 1 == |Held(d)|
    ensures |r.0.tape| <= |d.tape|
    ensures d.tape != [] ==> |r.0.tape| < |d.tape|
    ensures d.tape == [] && r.1.Some? ==> |r.0.done| < |d.done|
  {
    var e := Elapse(d);
    if Errno(d) != 0 || e.done == [] then (e, None)
    else (e.(done := e.done[1..]), Some(e.done[0]))
  }

  /** VIDIOC_STREAMON. */
  function StreamOn(d: Driver): (Driver, nat) {
    var e := Elapse(d);
    if Errno(d) != 0 then (e, Errno(d)) else (e.(streaming := true), 0)
  }

  /** VIDIOC_STREAMOFF gives every buffer back to the application. */
  function StreamOff(d: Driver): (Driver, nat) {
    var e := Elapse(d);
    if Errno(d) != 0 then (e, Errno(d)) else (e.(streaming := false, queued := [], done := []), 0)
  }

  /** VIDIOC_REQBUFS: the driver picks how many buffers it grants; granting none is an error. */
  function Reqbufs(d: Driver, count: nat): (Driver, nat, nat) {
    var e := Elapse(d);
    var granted := Granted(d, count);
    if Errno(d) != 0 then (e, Errno(d), 0)
    else if d.streaming then (e, EBUSY, 0)
    else if granted == 0 then (e, ENOMEM, 0)
    else (e.(count := granted, queued := [], done := []), 0, granted)
  }

  /** VIDIOC_S_FMT on a multi-planar stream reports how many planes a buffer will have. */
  function SetFmt(d: Driver): (r: (Driver, nat, nat))
    ensures 1 <= r.2 < VIDEO_MAX_PLANES
  {
    var planes := Reported(d, 1);
    (Elapse(d), Errno(d), if 1 <= planes < VIDEO_MAX_PLANES then planes else 1)
  }

  /** VIDIOC_QUERYBUF reports the length of a buffer, or of each of its planes. */
  function QueryBuf(d: Driver, mplane: bool, b: V4l2Buffer): (Driver, nat, V4l2Buffer) {
    var len := Reported(d, 0);
    (Elapse(d), Errno(d),
     if mplane then b.(planes := seq(|b.planes|, i requires 0 <= i < |b.planes| => b.planes[i].(length := len)))
     else b.(length := len))
  }

  /** VIDIOC_EXPBUF or mmap of one plane: an error, or a descriptor (or address) for it. */
  function Expose(d: Driver): (Driver, nat, nat) {
    (Elapse(d), Errno(d), Reported(d, 1))
  }

  // ---------- what a driver keeps ----------

  ghost predicate SequencesOk(d: Driver) {
    && StrictlyIncreasing(Sequences(d.done))
    && forall b :: b in d.done ==> b.sequence < d.sequence
  }

  function Sequences(s: seq<V4l2Buffer>): (r: seq<int>)
    ensures |r| == |s|
    ensures forall i :: 0 <= i < |s| ==> r[i] == s[i].sequence
  {
    seq(|s|, i requires 0 <= i < |s| => s[i].sequence)
  }

  /** The driver owns each of its buffers once, and hands frames out in the order it numbered them. */
  ghost predicate DriverOk(d: Driver) {
    && NoDuplicates(multiset(InFlight(d)))
    && (forall b :: b in Held(d) ==> b.index < d.count && |b.planes| == VIDEO_MAX_PLANES)
    && SequencesOk(d)
    && (!d.streaming ==> d.done == [])
  }

  /** Every completion that is still to come takes the oldest queued buffer. */
  ghost predicate InOrder(tape: seq<Tick>) {
    forall i, j :: 0 <= i < |tape| && 0 <= j < |tape[i].fills| ==> tape[i].fills[j].pick == 0
  }

  /** What the completion of buffers may change and what it may not. */
  ghost predicate Progress(d: Driver, e: Driver) {
    && e.count == d.count && e.streaming == d.streaming
    && multiset(InFlight(e)) == multiset(InFlight(d))
    && d.sequence <= e.sequence
    && d.done <= e.done
    && (forall i :: |d.done| <= i < |e.done| ==> d.sequence <= e.done[i].sequence)
    && (forall b :: b in Held(e) ==> Backed(b, Held(d)))
  }

  /** One of the buffers in s is b, as far as memory is concerned. */
  ghost predicate Backed(b: V4l2Buffer, s: seq<V4l2Buffer>) {
    exists j :: 0 <= j < |s| && SameMemory(b, s[j])
  }

  /** Same buffer, backed by the same memory. */
  predicate SameMemory(a: V4l2Buffer, b: V4l2Buffer) {
    && a.index == b.index && a.mem == b.mem && |a.planes| == |b.planes|
    && forall i :: 0 <= i < |a.planes| ==> a.planes[i].fd == b.planes[i].fd
  }

  lemma {:induction false} CompleteKeeps(d: Driver, f: Fill)
    requires DriverOk(d)
    ensures DriverOk(Complete(d, f)) && Progress(d, Complete(d, f))
    ensures f.pick == 0 ==> InFlight(Complete(d, f)) == InFlight(d)
  {
    var e := Complete(d, f);
    if d.streaming && d.queued != [] {
      var k := if f.pick < |d.queued| then f.pick else 0;
      CompleteBacked(d, f, k);
      CompleteIndices(d, f);
      assert Sequences(e.done) == Sequences(d.done) + [d.sequence];
      forall x | x in Sequences(d.done)
        ensures x < d.sequence
      {
        var i :| 0 <= i < |d.done| && Sequences(d.done)[i] == x;
        assert d.done[i] in d.done;
      }
      IncreasingSnoc(Sequences(d.done), d.sequence);
    } else {
      BackedByItself(Held(d));
    }
  }

  /**
   What a completion is: the buffer that the hardware picks leaves the queue and goes behind the completed
   ones, with the next number and with the payloads that the hardware reports, and with nothing else changed.
  */
  lemma CompletionFills(d: Driver, f: Fill)
    requires d.streaming && d.queued != []
    ensures var k := if f.pick < |d.queued| then f.pick else 0;
      var (e, was) := (Complete(d, f), d.queued[k]);
      && e == d.(queued := d.queued[..k] + d.queued[k + 1..], done := e.done, sequence := d.sequence + 1)
      && |e.done| == |d.done| + 1 && e.done[..|d.done|] == d.done
      && var now := e.done[|d.done|];
         && now == was.(sequence := d.sequence, bytesused := f.bytesused, planes := now.planes)
         && |now.planes| == |was.planes|
         && forall p :: 0 <= p < |was.planes| ==>
              now.planes[p] == was.planes[p].(bytesused := if p < |f.planeBytes| then f.planeBytes[p] else 0)
  {}

  lemma CompleteBacked(d: Driver, f: Fill, k: nat)
    requires d.streaming && d.queued != [] && k == if f.pick < |d.queued| then f.pick else 0
    requires forall b :: b in Held(d) ==> b.index < d.count && |b.planes| == VIDEO_MAX_PLANES
    ensures forall b :: b in Held(Complete(d, f)) ==>
      Backed(b, Held(d)) && b.index < d.count && |b.planes| == VIDEO_MAX_PLANES
  {
    var e := Complete(d, f);
    BackedByItself(Held(d));
    forall b | b in Held(e)
      ensures Backed(b, Held(d)) && b.index < d.count && |b.planes| == VIDEO_MAX_PLANES
    {
      var from := d.queued[k];
      assert from == Held(d)[|d.done| + k];
      if b == Filled(from, f, d.sequence) {
        assert SameMemory(b, Held(d)[|d.done| + k]);
      } else {
        assert b in d.done || b in d.queued[..k] || b in d.queued[k + 1..];
        assert b in Held(d);
      }
    }
  }

  /** A buffer that moves from position k of the queue to the end of the completed ones. */
  lemma MoveToDone(done: seq<V4l2Buffer>, queued: seq<V4l2Buffer>, k: nat, moved: V4l2Buffer)
    requires k < |queued| && moved.index == queued[k].index
    ensures var held := Indices((done + [moved]) + (queued[..k] + queued[k + 1..]));
      && multiset(held) == multiset(Indices(done + queued))
      && (k == 0 ==> held == Indices(done + queued))
  {
    var i, before, after := queued[k].index as int, Indices(queued[..k]), Indices(queued[k + 1..]);
    assert Indices(done + queued) == Indices(done) + (before + [i] + after);
    assert Indices((done + [moved]) + (queued[..k] + queued[k + 1..])) == (Indices(done) + [i]) + (before + after);
  }

  lemma CompleteIndices(d: Driver, f: Fill)
    ensures multiset(InFlight(Complete(d, f))) == multiset(InFlight(d))
    ensures f.pick == 0 ==> InFlight(Complete(d, f)) == InFlight(d)
  {
    if d.streaming && d.queued != [] {
      var k := if f.pick < |d.queued| then f.pick else 0;
      MoveToDone(d.done, d.queued, k, Filled(d.queued[k], f, d.sequence));
    }
  }

  lemma BackedByItself(s: seq<V4l2Buffer>)
    ensures forall b :: b in s ==> Backed(b, s)
  {
    forall b | b in s
      ensures Backed(b, s)
    {
      var i :| 0 <= i < |s| && s[i] == b;
      assert SameMemory(b, s[i]);
    }
  }

  lemma ProgressTransitive(a: Driver, b: Driver, c: Driver)
    requires Progress(a, b) && Progress(b, c)
    ensures Progress(a, c)
  {
    forall x | x in Held(c)
      ensures Backed(x, Held(a))
    {
      assert Backed(x, Held(b));
      var j :| 0 <= j < |Held(b)| && SameMemory(x, Held(b)[j]);
      assert Backed(Held(b)[j], Held(a));
      var k :| 0 <= k < |Held(a)| && SameMemory(Held(b)[j], Held(a)[k]);
      assert SameMemory(x, Held(a)[k]);
    }
  }

  lemma {:induction false} CompleteAllKeeps(d: Driver, fills: seq<Fill>)
    requires DriverOk(d)
    ensures DriverOk(CompleteAll(d, fills)) && Progress(d, CompleteAll(d, fills))
    ensures (forall j :: 0 <= j < |fills| ==> fills[j].pick == 0) ==> InFlight(CompleteAll(d, fills)) == InFlight(d)
    decreases |fills|
  {
    hide Complete, DriverOk;
    if fills == [] {
      BackedByItself(Held(d));
    } else {
      CompleteKeeps(d, fills[0]);
      CompleteAllKeeps(Complete(d, fills[0]), fills[1..]);
      ProgressTransitive(d, Complete(d, fills[0]), CompleteAll(d, fills));
    }
  }

  /** Whatever the hardware does, it neither loses nor invents a buffer; in order, it does not even reorder them. */
  lemma ElapseKeeps(d: Driver)
    requires DriverOk(d)
    ensures DriverOk(Elapse(d)) && Progress(d, Elapse(d))
    ensures InOrder(d.tape) ==> InOrder(Elapse(d).tape) && InFlight(Elapse(d)) == InFlight(d)
  {
    if d.tape == [] {
      BackedByItself(Held(d));
    } else {
      var rest := d.(tape := d.tape[1..]);
      CompleteAllKeeps(rest, d.tape[0].fills);
    }
  }

  /** The part of ElapseKeeps that most callers need. */
  lemma ElapseOk(d: Driver)
    requires DriverOk(d)
    ensures DriverOk(Elapse(d)) && multiset(InFlight(Elapse(d))) == multiset(InFlight(d))
  {
    ElapseKeeps(d);
  }

  /** A buffer put at the end of the queue. */
  lemma Enqueued(e: Driver, b: V4l2Buffer)
    requires DriverOk(e) && |b.planes| == VIDEO_MAX_PLANES && b.index < e.count && b.index !in InFlight(e)
    ensures var f := e.(queued := e.queued + [b]);
      DriverOk(f) && Held(f) == Held(e) + [b] && InFlight(f) == InFlight(e) + [b.index]
  {
    var f := e.(queued := e.queued + [b]);
    assert Held(f) == Held(e) + [b];
    assert InFlight(f) == InFlight(e) + [b.index];
    assert b.index !in multiset(InFlight(e));
  }

  /** The buffer at the front of the completed ones taken out. */
  lemma Dequeued(e: Driver)
    requires DriverOk(e) && e.done != []
    ensures var f := e.(done := e.done[1..]);
      && DriverOk(f) && Held(e) == [e.done[0]] + Held(f) && InFlight(e) == [e.done[0].index] + InFlight(f)
      && e.done[0].index < e.count && |e.done[0].planes| == VIDEO_MAX_PLANES
  {
    var f := e.(done := e.done[1..]);
    assert Held(e) == [e.done[0]] + Held(f);
    assert InFlight(e) == [e.done[0].index] + InFlight(f);
    assert Sequences(f.done) == Sequences(e.done)[1..];
    IncreasingParts(Sequences(e.done));
    HeadTail(InFlight(e));
    assert InFlight(e)[1..] == InFlight(f);
    NoDuplicatesPart(multiset{e.done[0].index as int}, multiset(InFlight(f)));
    assert forall b :: b in Held(f) ==> b in Held(e);
  }

  /** QBUF succeeds exactly when nothing fails and the application owns the buffer; a refusal changes nothing. */
  lemma QbufKeeps(d: Driver, b: V4l2Buffer)
    requires DriverOk(d) && |b.planes| == VIDEO_MAX_PLANES
    ensures var (e, r) := Qbuf(d, b);
      && DriverOk(e)
      && (InOrder(d.tape) ==> InOrder(e.tape))
      && e.count == d.count && e.streaming == d.streaming
      && (r == 0 <==> Errno(d) == 0 && b.index < d.count && b.index !in InFlight(d))
      && (r != 0 ==> e == Elapse(d))
      && (r == 0 ==> Held(e) == Held(Elapse(d)) + [b] && InFlight(e) == InFlight(Elapse(d)) + [b.index]
                     && multiset(InFlight(e)) == multiset(InFlight(d)) + multiset{b.index as int})
  {
    hide Elapse, DriverOk, InFlight;
    ElapseKeeps(d);
    var e := Elapse(d);
    assert b.index in InFlight(e) <==> b.index in multiset(InFlight(e));
    assert b.index in InFlight(d) <==> b.index in multiset(InFlight(d));
    if Qbuf(d, b).1 == 0 {
      Enqueued(e, b);
    }
  }

  lemma DqbufKeeps(d: Driver)
    requires DriverOk(d)
    ensures var (e, r) := Dqbuf(d);
      && DriverOk(e)
      && (InOrder(d.tape) ==> InOrder(e.tape))
      && e.count == d.count && e.streaming == d.streaming
      && (r.None? ==> e == Elapse(d))
      && (r.Some? <==> Errno(d) == 0 && Elapse(d).done != [])
      && (r.Some? ==> Held(Elapse(d)) == [r.value] + Held(e) && InFlight(Elapse(d)) == [r.value.index] + InFlight(e)
                      && multiset(InFlight(d)) == multiset(InFlight(e)) + multiset{r.value.index as int}
                      && r.value.index < d.count && |r.value.planes| == VIDEO_MAX_PLANES)
  {
    hide Elapse, DriverOk, InFlight;
    ElapseKeeps(d);
    var e := Elapse(d);
    if Dqbuf(d).1.Some? {
      Dequeued(e);
      assert Held(e)[0] == e.done[0];
    }
  }

  // ---------- what is still to come ----------

  ghost predicate NothingFails(tape: seq<Tick>) {
    forall i :: 0 <= i < |tape| ==> tape[i].errno == 0
  }

  /** None of the next n ioctls fails. */
  ghost predicate Works(tape: seq<Tick>, n: nat) {
    forall i :: 0 <= i < n && i < |tape| ==> tape[i].errno == 0
  }

  /** Each ioctl takes at most one tick. */
  predicate Later(later: seq<Tick>, tape: seq<Tick>) {
    |later| <= |tape| && later == tape[|tape| - |later|..]
  }

  lemma LaterTransitive(a: seq<Tick>, b: seq<Tick>, c: seq<Tick>)
    requires Later(a, b) && Later(b, c)
    ensures Later(a, c)
  {}

  lemma LaterKeeps(later: seq<Tick>, tape: seq<Tick>)
    requires Later(later, tape)
    ensures NothingFails(tape) ==> NothingFails(later)
  {
    var k := |tape| - |later|;
    assert forall i :: 0 <= i < |later| ==> later[i] == tape[i + k];
  }

  lemma ElapseTape(d: Driver)
    ensures Later(Elapse(d).tape, d.tape)
    ensures NothingFails(d.tape) ==> Errno(d) == 0
  {}

  /** One ioctl takes one tick. */
  lemma WorksNext(d: Driver, n: nat)
    ensures Works(d.tape, n + 1) <==> Errno(d) == 0 && Works(Elapse(d).tape, n)
  {
    if d.tape != [] {
      var rest := d.tape[1..];
      assert Elapse(d).tape == rest;
      if Errno(d) == 0 && Works(rest, n) {
        forall i | 0 <= i < n + 1 && i < |d.tape|
          ensures d.tape[i].errno == 0
        {
          assert i == 0 || d.tape[i] == rest[i - 1];
        }
      }
      if Works(d.tape, n + 1) {
        forall i | 0 <= i < n && i < |rest|
          ensures rest[i].errno == 0
        {
          assert rest[i] == d.tape[i + 1];
        }
      }
    }
  }

  lemma AlwaysWorks(tape: seq<Tick>, n: nat)
    requires NothingFails(tape)
    ensures Works(tape, n)
  {}
}
