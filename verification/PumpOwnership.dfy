/**
 Who owns which buffer. Every source buffer is in exactly one place: with the source driver,
 attached to one destination buffer that the destination driver holds, pending in the pump, or
 lost through a source QBUF that failed. This holds in every state the pump can reach, for every
 pattern of driver failures and every order of completion. It leaves exactly two ways to abort,
 both in step 3: an index beyond the destination's buffers, and the ASSERT of the pass function.
*/
module PumpOwnership {
  import opened Common
  import opened V4l2
  import opened Streams
  import opened Rings
  import opened Pumps

  /** The source buffers recorded in `acquired_to_source`. */
  function Attached(acquired: seq<int>): multiset<int> {
    if acquired == [] then multiset{} else
      var last := acquired[|acquired| - 1];
      Attached(acquired[..|acquired| - 1]) + if last >= 0 then multiset{last} else multiset{}
  }

  function Pending(next: int): multiset<int> {
    if next >= 0 then multiset{next} else multiset{}
  }

  /** Each of the n source buffers is accounted for exactly once. */
  ghost predicate Accounted(inSource: multiset<int>, acquired: seq<int>, next: int, lost: seq<int>, n: nat) {
    inSource + Attached(acquired) + Pending(next) + multiset(lost) == multiset(Iota(n))
  }

  /** A destination buffer has a recorded source buffer exactly when the destination driver holds it. */
  ghost predicate Matched(acquired: seq<int>, inDest: multiset<int>) {
    && (forall i :: 0 <= i < |acquired| ==> acquired[i] >= -1 && (acquired[i] >= 0 <==> i in inDest))
    && (forall x :: x in inDest ==> 0 <= x < |acquired|)
    && NoDuplicates(inDest)
  }

  /** `available` holds every destination index once. */
  ghost predicate FullRing(q: Ring<int>, n: nat) {
    RingOk(q) && q.size == |q.slots| == n && multiset(Contents(q)) == multiset(Iota(n))
  }

  /** The number of planes is one that the pass function accepts. */
  predicate PlanesFit(kind: PassKind, planes: nat) {
    if kind == DmabufMP then planes <= VIDEO_MAX_PLANES else planes == 1
  }

  /** The pass function never meets an ASSERT: the copying one also checks a length that the driver reports. */
  predicate PassSafe(kind: PassKind, planes: nat) {
    PlanesFit(kind, planes) && kind != MmapMPToMmapSP
  }

  ghost predicate Running(s: Stream) {
    StreamOk(s) && s.state == Streaming && s.buffers.Some?
  }

  ghost predicate Own(y: Sys) {
    && Running(y.src) && Running(y.dst)
    && FullRing(y.pump.available, |y.pump.acquired|)
    && y.pump.next >= -1
    && Matched(y.pump.acquired, multiset(InFlight(y.dst.drv)))
    && Accounted(multiset(InFlight(y.src.drv)), y.pump.acquired, y.pump.next, y.hist.lost, |y.src.buffers.value|)
  }

  // ---------- accounting ----------

  lemma Exchange(a: multiset<int>, b: multiset<int>, c: multiset<int>, d: multiset<int>, more: multiset<int>)
    requires a + b == c + d
    ensures (a + more) + b == (c + more) + d
  {
    assert (a + more) + b == (a + b) + more;
    assert (c + more) + d == (c + d) + more;
  }

  lemma {:induction false} AttachedUpdate(acquired: seq<int>, i: nat, v: int)
    requires i < |acquired|
    ensures Attached(acquired[i := v]) + Pending(acquired[i]) == Attached(acquired) + Pending(v)
  {
    var k := |acquired| - 1;
    if i < k {
      AttachedUpdate(acquired[..k], i, v);
      assert acquired[i := v][..k] == acquired[..k][i := v];
      Exchange(Attached(acquired[..k][i := v]), Pending(acquired[i]), Attached(acquired[..k]), Pending(v),
        Pending(acquired[k]));
    } else {
      assert acquired[i := v][..k] == acquired[..k];
    }
  }

  lemma {:induction false} AttachedNone(n: nat)
    ensures Attached(seq(n, _ => -1)) == multiset{}
  {
    if n > 0 {
      AttachedNone(n - 1);
      assert seq(n, _ => -1)[..n - 1] == seq(n - 1, _ => -1);
    }
  }

  lemma {:induction false} AttachedHas(acquired: seq<int>, i: nat)
    requires i < |acquired| && acquired[i] >= 0
    ensures acquired[i] in Attached(acquired)
  {
    AttachedUpdate(acquired, i, -1);
    assert acquired[i] in Attached(acquired[i := -1]) + Pending(acquired[i]);
  }

  /** Two recorded source buffers are two different buffers. */
  lemma {:induction false} AttachedTwice(acquired: seq<int>, i: nat, j: nat)
    requires i < j < |acquired| && acquired[i] == acquired[j] >= 0
    ensures Attached(acquired)[acquired[i]] >= 2
  {
    AttachedUpdate(acquired, i, -1);
    AttachedHas(acquired[i := -1], j);
    var x := acquired[i];
    assert (Attached(acquired[i := -1]) + Pending(x))[x] == Attached(acquired)[x];
  }

  /** What exact accounting says about a single buffer. */
  lemma AccountedOnce(inSource: multiset<int>, acquired: seq<int>, next: int, lost: seq<int>, n: nat)
    requires Accounted(inSource, acquired, next, lost, n)
    ensures forall x ::
      x in inSource || x in Attached(acquired) || x in Pending(next) || x in multiset(lost) ==> 0 <= x < n
    ensures forall x :: inSource[x] + Attached(acquired)[x] + Pending(next)[x] + multiset(lost)[x] <= 1
  {
    IotaMultiset(n);
    forall x
      ensures inSource[x] + Attached(acquired)[x] + Pending(next)[x] + multiset(lost)[x] == multiset(Iota(n))[x]
    {
      assert (inSource + Attached(acquired) + Pending(next) + multiset(lost))[x] == multiset(Iota(n))[x];
    }
    forall x | x in inSource || x in Attached(acquired) || x in Pending(next) || x in multiset(lost)
      ensures 0 <= x < n
    {
      assert x in multiset(Iota(n));
    }
  }

  lemma AttachedInRange(y: Sys, i: nat)
    requires Own(y) && i < |y.pump.acquired| && y.pump.acquired[i] >= 0
    ensures IsBuffer(y.src, y.pump.acquired[i])
    ensures y.pump.acquired[i] !in multiset(InFlight(y.src.drv))
  {
    hide StreamOk, InFlight;
    AttachedHas(y.pump.acquired, i);
    AccountedOnce(multiset(InFlight(y.src.drv)), y.pump.acquired, y.pump.next, y.hist.lost, |y.src.buffers.value|);
    var x := y.pump.acquired[i];
    assert multiset(InFlight(y.src.drv))[x] + Attached(y.pump.acquired)[x] + Pending(y.pump.next)[x]
        + multiset(y.hist.lost)[x] <= 1;
  }

  /** A destination buffer that comes back has a recorded source buffer, and the source does not hold that. */
  lemma PulledIsAttached(y: Sys)
    requires Own(y) && Pull(y.dst).1.Some?
    ensures var i := Pull(y.dst).1.value;
      && i < |y.pump.acquired| && y.pump.acquired[i] >= 0
      && IsBuffer(y.src, y.pump.acquired[i]) && y.pump.acquired[i] !in multiset(InFlight(y.src.drv))
  {
    hide StreamOk, Pull, InFlight, FullRing, Accounted;
    PullMoves(y.dst);
    var i := Pull(y.dst).1.value;
    assert i in multiset(InFlight(y.dst.drv));
    AttachedInRange(y, i);
  }

  lemma MatchedUpdate(acquired: seq<int>, before: multiset<int>, i: nat, v: int, after: multiset<int>)
    requires Matched(acquired, before) && i < |acquired| && v >= -1
    requires v < 0 ==> before == after + multiset{i as int}
    requires v >= 0 ==> after == before + multiset{i as int} && i !in before
    ensures Matched(acquired[i := v], after)
  {
    forall x
      ensures after[x] <= 1 && (x in after ==> 0 <= x < |acquired|)
      ensures x != i ==> (x in after <==> x in before)
      ensures i in after <==> v >= 0
    {
      assert before[x] <= 1 && before[i] <= 1;
      if v < 0 {
        assert before[x] == after[x] + multiset{i as int}[x];
        assert before[i] == after[i] + multiset{i as int}[i];
      }
    }
  }

  // ---------- the streams of a pump ----------

  lemma PullMoves(s: Stream)
    requires Running(s)
    ensures var (t, got) := Pull(s);
      && Running(t) && t == s.(drv := t.drv, buffers := t.buffers)
      && |t.buffers.value| == |s.buffers.value|
      && (got.None? ==> t.buffers == s.buffers && multiset(InFlight(t.drv)) == multiset(InFlight(s.drv)))
      && (got.Some? ==>
            && got.value < |s.buffers.value|
            && multiset(InFlight(s.drv)) == multiset(InFlight(t.drv)) + multiset{got.value as int})
  {
    hide DriverOk, Dqbuf, InFlight, Elapse, BuffersOk;
    PullKeeps(s);
    DqbufKeeps(s.drv);
    ElapseOk(s.drv);
  }

  lemma PushMoves(s: Stream, i: int)
    requires Running(s) && IsBuffer(s, i)
    ensures var (t, code) := PushIndex(s, i);
      && Running(t) && t == s.(drv := t.drv)
      && (code == 0 <==> Errno(s.drv) == 0 && i !in multiset(InFlight(s.drv)))
      && (code == 0 ==> multiset(InFlight(t.drv)) == multiset(InFlight(s.drv)) + multiset{i})
      && (code != 0 ==> multiset(InFlight(t.drv)) == multiset(InFlight(s.drv)))
      && (Errno(s.drv) != 0 ==> code == Errno(s.drv))
  {
    hide DriverOk, Qbuf, InFlight, Elapse;
    var b := s.buffers.value[i].buffer;
    PushKeeps(s, b);
    QbufKeeps(s.drv, b);
    ElapseOk(s.drv);
    assert i in multiset(InFlight(s.drv)) <==> i in InFlight(s.drv);
    QbufErrno(s.drv, b);
  }

  lemma QbufErrno(d: Driver, b: V4l2Buffer)
    ensures Errno(d) != 0 ==> Qbuf(d, b).1 == Errno(d)
  {}

  // ---------- each step keeps the ownership ----------

  lemma OwnTakeBack(y: Sys)
    requires Own(y) && Pull(y.dst).1.Some?
    ensures var (y1, o) := TakeBack(y, Pull(y.dst).0, Pull(y.dst).1.value);
      && Own(y1) && o.Code? && o.code == Errno(y.src.drv)
      && |y1.hist.lost| == |y.hist.lost| + (if o.code == 0 then 0 else 1)
  {
    hide StreamOk, Pull, PushIndex, InFlight, FullRing;
    PullMoves(y.dst);
    var dst, i := Pull(y.dst).0, Pull(y.dst).1.value;
    var a := y.pump.acquired;
    PulledIsAttached(y);
    PushMoves(y.src, a[i]);
    AttachedUpdate(a, i, -1);
    MatchedUpdate(a, multiset(InFlight(y.dst.drv)), i, -1, multiset(InFlight(dst.drv)));
    var (y1, o) := TakeBack(y, dst, i);
    Regroup(multiset(InFlight(y.src.drv)), Attached(a), Attached(a[i := -1]), a[i], Pending(y.pump.next), y.hist.lost);
  }

  /** A source buffer that leaves the attached ones and joins the source's, or the lost ones. */
  lemma Regroup(inSource: multiset<int>, before: multiset<int>, after: multiset<int>, s: int,
                pending: multiset<int>, lost: seq<int>)
    requires before == after + multiset{s}
    ensures (inSource + multiset{s}) + after + pending + multiset(lost + [])
      == inSource + before + pending + multiset(lost)
    ensures inSource + after + pending + multiset(lost + [s]) == inSource + before + pending + multiset(lost)
  {
    assert lost + [] == lost;
    assert inSource + (after + multiset{s}) == (inSource + multiset{s}) + after;
  }

  lemma OwnReplace(y: Sys)
    requires Own(y) && Pull(y.src).1.Some?
    ensures var (y1, o) := Replace(y, Pull(y.src).0, Pull(y.src).1.value);
      && Own(y1) && o.Code?
      && o.code == (if y.pump.next < 0 then 0 else Errno(Pull(y.src).0.drv))
      && |y1.hist.lost| == |y.hist.lost| + (if o.code == 0 then 0 else 1)
      && y1.dst == y.dst && y1.pump == y.pump.(next := y1.pump.next)
      && y1.hist.used == y.hist.used && y1.hist.reclaimed == y.hist.reclaimed
      && y1.pump.next == (if o.code == 0 then Pull(y.src).1.value else y.pump.next)
  {
    hide StreamOk, Pull, PushIndex, InFlight, FullRing, Matched;
    PullMoves(y.src);
    var src, i, p := Pull(y.src).0, Pull(y.src).1.value, y.pump.next;
    var lost := y.hist.lost;
    AccountedOnce(multiset(InFlight(y.src.drv)), y.pump.acquired, p, lost, |y.src.buffers.value|);
    if p >= 0 {
      assert p in Pending(p);
      assert multiset(InFlight(y.src.drv))[p] + Attached(y.pump.acquired)[p] + Pending(p)[p] + multiset(lost)[p] <= 1;
      assert multiset(InFlight(y.src.drv))[p] == multiset(InFlight(src.drv))[p] + multiset{i as int}[p];
      PushMoves(src, p);
    }
    Reassign(multiset(InFlight(src.drv)), Attached(y.pump.acquired), p, i, lost);
  }

  /** The pending buffer joins the attached ones. */
  lemma Attach(inSource: multiset<int>, before: multiset<int>, after: multiset<int>, pending: multiset<int>,
    lost: multiset<int>)
    requires after == before + pending
    ensures inSource + after + multiset{} + lost == inSource + before + pending + lost
  {}

  /** The frame buffer i leaves the source's buffers and becomes pending, or is lost; p goes the other way. */
  lemma Reassign(inSource: multiset<int>, attached: multiset<int>, p: int, i: int, lost: seq<int>)
    requires i >= 0
    ensures var before := (inSource + multiset{i}) + attached + Pending(p) + multiset(lost);
      && (inSource + Pending(p)) + attached + Pending(i) + multiset(lost) == before
      && inSource + attached + Pending(p) + multiset(lost + [i]) == before
  {
    assert inSource + (attached + multiset{i}) == (inSource + multiset{i}) + attached;
    assert inSource + attached + Pending(p) + (multiset(lost) + multiset{i})
      == (inSource + multiset{i}) + attached + Pending(p) + multiset(lost);
  }

  /** Which calls of a pass function survive its ASSERTs, and that a description leaves the buffer's shape alone. */
  lemma PassExactly(kind: PassKind, src: Buffer, dst: Buffer, n: nat)
    requires |src.buffer.planes| == |src.dmabufFd| == |src.mapped| == |dst.buffer.planes| == VIDEO_MAX_PLANES
    ensures var r := Pass(kind, src, dst, n);
      && (r.Some? <==> PlanesFit(kind, n)
                       && (kind == MmapMPToMmapSP ==> src.buffer.planes[0].bytesused <= dst.buffer.length))
      && (r.Some? ==> r.value == dst.(buffer := r.value.buffer) && r.value.buffer.index == dst.buffer.index
                      && |r.value.buffer.planes| == VIDEO_MAX_PLANES)
  {}

  /** The destination stream with the source frame described in its buffer h. */
  function Described(y: Sys, h: int): (r: Stream)
    requires IsBuffer(y.dst, h) && IsBuffer(y.src, y.pump.next)
    ensures r == y.dst.(buffers := r.buffers) && r.buffers.Some? && |r.buffers.value| == |y.dst.buffers.value|
  {
    var r := Pass(y.pump.kind, y.src.buffers.value[y.pump.next], y.dst.buffers.value[h], y.pump.planes);
    if r.None? then y.dst else y.dst.(buffers := Some(y.dst.buffers.value[h := r.value]))
  }

  lemma DescribedRuns(y: Sys, h: int)
    requires Running(y.src) && Running(y.dst) && IsBuffer(y.dst, h) && IsBuffer(y.src, y.pump.next)
    ensures Running(Described(y, h))
    ensures PassSafe(y.pump.kind, y.pump.planes) ==>
      Pass(y.pump.kind, y.src.buffers.value[y.pump.next], y.dst.buffers.value[h], y.pump.planes).Some?
    ensures !PlanesFit(y.pump.kind, y.pump.planes) ==>
      Pass(y.pump.kind, y.src.buffers.value[y.pump.next], y.dst.buffers.value[h], y.pump.planes).None?
  {
    hide DriverOk, Pass;
    PassExactly(y.pump.kind, y.src.buffers.value[y.pump.next], y.dst.buffers.value[h], y.pump.planes);
  }

  /** There is a frame to forward, and a destination index to try. */
  ghost predicate HasWork(y: Sys) {
    y.pump.next >= 0 && |y.pump.acquired| > 0
  }

  lemma HeadOk(y: Sys)
    requires Own(y) && HasWork(y)
    ensures IsBuffer(y.src, y.pump.next)
    ensures Contents(y.pump.available) != []
    ensures RingPeek(y.pump.available) == Some(Contents(y.pump.available)[0])
    ensures 0 <= Contents(y.pump.available)[0] < |y.pump.acquired|
  {
    hide StreamOk, InFlight;
    PopShifts(y.pump.available);
    IotaMultiset(|y.pump.acquired|);
    assert Contents(y.pump.available)[0] in multiset(Contents(y.pump.available));
    AccountedOnce(multiset(InFlight(y.src.drv)), y.pump.acquired, y.pump.next, y.hist.lost, |y.src.buffers.value|);
    assert y.pump.next in Pending(y.pump.next);
  }

  /** The head of the ring lies beyond the destination's buffers, or the pass function rejects the frame. */
  ghost predicate WouldAbort(y: Sys)
    requires Own(y)
  {
    HasWork(y) && (
      HeadOk(y);
      var h := Contents(y.pump.available)[0];
      h >= |y.dst.buffers.value|
      || Pass(y.pump.kind, y.src.buffers.value[y.pump.next], y.dst.buffers.value[h], y.pump.planes).None?)
  }

  lemma RingRotates(q: Ring<int>, n: nat)
    requires FullRing(q, n) && n > 0
    ensures FullRing(RingPop(q).0, n)
    ensures Contents(RingPop(q).0) == Contents(q)[1..] + [Contents(q)[0]]
  {
    PopRotates(q);
    HeadTail(Contents(q));
  }

  /** The pump and its history after step 3 has put the pending frame into destination buffer h. */
  function Forwarded(y: Sys, h: int, dst: Stream): Sys
    requires 0 <= h < |y.pump.acquired|
  {
    y.(dst := dst,
       pump := y.pump.(acquired := y.pump.acquired[h := y.pump.next], next := -1,
                       available := RingPop(y.pump.available).0),
       hist := y.hist.(forwarded := y.hist.forwarded + [FrameIn(y.src, y.pump.next)], used := y.hist.used + [h]))
  }

  /** Step 3 in one line: a QBUF of the described head either succeeds or leaves the bookkeeping alone. */
  lemma ForwardValue(y: Sys)
    requires Own(y) && HasWork(y) && !WouldAbort(y)
    ensures IsBuffer(y.src, y.pump.next)
    ensures Contents(y.pump.available) != []
    ensures var h := Contents(y.pump.available)[0];
      && 0 <= h < |y.pump.acquired| && IsBuffer(y.dst, h)
      && Running(Described(y, h)) && Described(y, h).drv == y.dst.drv
      && Pass(y.pump.kind, y.src.buffers.value[y.pump.next], y.dst.buffers.value[h], y.pump.planes).Some?
      && var (dst, code) := PushIndex(Described(y, h), h);
         && (code == 0 ==> y.pump.acquired[h] == -1 && Forward(y) == (Forwarded(y, h, dst), Code(0)))
         && (code != 0 ==> Forward(y) == (y.(dst := dst), Code(code)))
  {
    hide StreamOk, PushIndex, InFlight, RingPeek, RingPop, Contents, Pass;
    HeadOk(y);
    var h := Contents(y.pump.available)[0];
    DescribedRuns(y, h);
    PushMoves(Described(y, h), h);
  }

  /** Step 3 aborts in these two cases and in no other, and has changed nothing then. */
  lemma ForwardAborts(y: Sys)
    requires Own(y)
    ensures Forward(y).1 == Abort <==> WouldAbort(y)
    ensures WouldAbort(y) ==> Forward(y).0 == y
  {
    hide StreamOk, PushIndex, InFlight, RingPeek, RingPop, Contents, Pass, Matched, Accounted;
    if HasWork(y) {
      HeadOk(y);
      if !WouldAbort(y) {
        hide Forward;
        ForwardValue(y);
      }
    }
  }

  /**
   Step 3 forwards exactly when nothing fails and the head of the ring is not with the destination
   driver; otherwise it returns an error and the pump's bookkeeping is as before.
  */
  lemma OwnForward(y: Sys)
    requires Own(y)
    ensures var (y1, o) := Forward(y);
      && Own(y1) && y1.hist.lost == y.hist.lost && y1.src == y.src
      && (o == Abort <==> WouldAbort(y))
      && (o == Abort ==> y1 == y)
      && (!HasWork(y) ==> y1 == y && o == Code(0))
      && (HasWork(y) && o.Code? ==>
            && (o.code == 0 <==>
                  Errno(y.dst.drv) == 0 && Contents(y.pump.available)[0] !in multiset(InFlight(y.dst.drv)))
            && (o.code == 0 ==> y1.pump.next == -1 && y1.hist.used == y.hist.used + [Contents(y.pump.available)[0]])
            && (o.code != 0 ==> y1.pump == y.pump && y1.hist == y.hist)
            && (Errno(y.dst.drv) != 0 ==> o.code == Errno(y.dst.drv)))
  {
    hide StreamOk, PushIndex, InFlight, Contents, Pass, Described;
    ForwardAborts(y);
    if HasWork(y) && !WouldAbort(y) {
      hide Forward, RingPop;
      ForwardValue(y);
      var h, a := Contents(y.pump.available)[0], y.pump.acquired;
      PushMoves(Described(y, h), h);
      var (dst, code) := PushIndex(Described(y, h), h);
      if code == 0 {
        RingRotates(y.pump.available, |a|);
        MatchedUpdate(a, multiset(InFlight(y.dst.drv)), h, y.pump.next, multiset(InFlight(dst.drv)));
        AttachedUpdate(a, h, y.pump.next);
        Attach(multiset(InFlight(y.src.drv)), Attached(a), Attached(a[h := y.pump.next]), Pending(y.pump.next),
          multiset(y.hist.lost));
      }
    }
  }

  /** With a safe pass function and no index beyond the destination's buffers, step 3 does not abort. */
  lemma SafeForward(y: Sys)
    requires Own(y) && PassSafe(y.pump.kind, y.pump.planes) && |y.pump.acquired| <= |y.dst.buffers.value|
    ensures !WouldAbort(y)
  {
    hide StreamOk, InFlight, Contents, Pass, Matched, Accounted;
    if HasWork(y) {
      HeadOk(y);
      DescribedRuns(y, Contents(y.pump.available)[0]);
    }
  }
}
