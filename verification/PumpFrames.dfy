/**
 What becomes of the frames. The latest frame wins: what reaches the destination is an in-order
 part of what left the source, each forwarded frame is the newest one that the pump was able to
 keep, and every dequeued frame has exactly one fate.
*/
module PumpFrames {
  import opened Common
  import opened V4l2
  import opened Streams
  import opened Rings
  import opened Pumps
  import opened PumpOwnership

  function PendingFrame(y: Sys): multiset<int> {
    if y.pump.next >= 0 then multiset{FrameIn(y.src, y.pump.next)} else multiset{}
  }

  /** Frames that the source still has to deliver are newer than all of s. */
  ghost predicate OlderThanSource(s: seq<int>, d: Driver) {
    && (forall x :: x in s ==> x < d.sequence)
    && (forall x, b :: x in s && b in d.done ==> x < b.sequence)
  }

  ghost predicate Frames(y: Sys) {
    && StrictlyIncreasing(y.hist.dequeued)
    && OlderThanSource(y.hist.dequeued, y.src.drv)
    && multiset(y.hist.dequeued)
       == multiset(y.hist.forwarded) + multiset(y.hist.skipped) + multiset(y.hist.dropped) + PendingFrame(y)
    && |y.hist.dropped| <= |y.hist.lost|
    && StrictlyIncreasing(y.hist.forwarded)
    && (y.pump.next >= 0 ==>
          PendingIsNewest(y.hist.forwarded, y.hist.dequeued, y.hist.dropped, FrameIn(y.src, y.pump.next)))
  }

  /** The pending frame is newer than every forwarded one, and newer than every frame that was not dropped. */
  ghost predicate PendingIsNewest(forwarded: seq<int>, dequeued: seq<int>, dropped: seq<int>, frame: int) {
    && (forall x :: x in forwarded ==> x < frame)
    && (forall x :: x in dequeued ==> x <= frame || x in dropped)
  }

  /** Completions bring newer frames only. */
  lemma OlderAfterProgress(s: seq<int>, d: Driver, e: Driver)
    requires OlderThanSource(s, d) && Progress(d, e)
    ensures OlderThanSource(s, e)
  {
    hide InFlight;
    forall x, b | x in s && b in e.done
      ensures x < b.sequence
    {
      var i :| 0 <= i < |e.done| && e.done[i] == b;
      if i < |d.done| {
        assert d.done[i] == b;
        assert b in d.done;
      }
    }
  }

  lemma OlderAfterElapse(s: seq<int>, d: Driver)
    requires DriverOk(d) && OlderThanSource(s, d)
    ensures OlderThanSource(s, Elapse(d))
  {
    hide DriverOk, Elapse, Progress, OlderThanSource;
    ElapseKeeps(d);
    OlderAfterProgress(s, d, Elapse(d));
  }

  lemma OlderAfterQbuf(s: seq<int>, d: Driver, b: V4l2Buffer)
    requires DriverOk(d) && OlderThanSource(s, d)
    ensures OlderThanSource(s, Qbuf(d, b).0)
  {
    hide DriverOk, Elapse, InFlight;
    OlderAfterElapse(s, d);
  }

  /** The next frame is newer than all frames before it, and older than all that follow. */
  lemma OlderAfterDqbuf(s: seq<int>, d: Driver)
    requires DriverOk(d) && OlderThanSource(s, d) && StrictlyIncreasing(s)
    ensures var (e, got) := Dqbuf(d);
      && (got.None? ==> OlderThanSource(s, e))
      && (got.Some? ==> OlderThanSource(s + [got.value.sequence], e) && StrictlyIncreasing(s + [got.value.sequence])
                        && forall x :: x in s ==> x < got.value.sequence)
  {
    hide Elapse, InFlight;
    OlderAfterElapse(s, d);
    ElapseOk(d);
    var (e, got) := Dqbuf(d);
    var e0 := Elapse(d);
    if got.Some? {
      var q := got.value.sequence;
      assert got.value in e0.done;
      IncreasingSnoc(s, q);
      FirstIsOldest(e0.done);
      forall x, b | x in s + [q] && b in e.done
        ensures x < b.sequence
      {
        assert b in e0.done[1..];
        assert b in e0.done;
      }
    }
  }

  lemma FirstIsOldest(done: seq<V4l2Buffer>)
    requires StrictlyIncreasing(Sequences(done)) && done != []
    ensures forall b :: b in done[1..] ==> done[0].sequence < b.sequence
  {
    forall b | b in done[1..]
      ensures done[0].sequence < b.sequence
    {
      var i :| 0 <= i < |done| - 1 && done[1..][i] == b;
      assert Sequences(done)[0] < Sequences(done)[i + 1];
    }
  }

  // ---------- each step keeps the account of the frames ----------

  lemma FramesTakeBack(y: Sys)
    requires Own(y) && Frames(y) && Pull(y.dst).1.Some?
    ensures Frames(TakeBack(y, Pull(y.dst).0, Pull(y.dst).1.value).0)
  {
    hide DriverOk, Pull, Qbuf, InFlight, FullRing, OlderThanSource, StrictlyIncreasing, PendingIsNewest, Matched,
      Accounted;
    PullMoves(y.dst);
    var i := Pull(y.dst).1.value;
    PulledIsAttached(y);
    var b := y.src.buffers.value[y.pump.acquired[i]].buffer;
    OlderAfterQbuf(y.hist.dequeued, y.src.drv, b);
  }

  /** The buffer that the source delivers is not the pending one. */
  lemma PendingStays(y: Sys)
    requires Own(y) && Pull(y.src).1.Some? && y.pump.next >= 0
    ensures IsBuffer(y.src, y.pump.next) && IsBuffer(Pull(y.src).0, y.pump.next)
    ensures FrameIn(Pull(y.src).0, y.pump.next) == FrameIn(y.src, y.pump.next)
  {
    hide StreamOk, Pull, InFlight, FullRing, Matched;
    var p, i := y.pump.next, Pull(y.src).1.value;
    PullMoves(y.src);
    PullKeeps(y.src);
    AccountedOnce(multiset(InFlight(y.src.drv)), y.pump.acquired, p, y.hist.lost, |y.src.buffers.value|);
    assert p in Pending(p);
    assert i in multiset(InFlight(y.src.drv));
    assert multiset(InFlight(y.src.drv))[p] + Attached(y.pump.acquired)[p] + Pending(p)[p]
        + multiset(y.hist.lost)[p] <= 1;
  }

  lemma ArrivalAccount(h: History, pending: multiset<int>, prev: seq<int>, frame: int)
    requires multiset(h.dequeued) == multiset(h.forwarded) + multiset(h.skipped) + multiset(h.dropped) + pending
    ensures multiset(h.dequeued + [frame])
         == multiset(h.forwarded) + multiset(h.skipped) + multiset(h.dropped + [frame]) + pending
    ensures pending == multiset(prev) ==>
      multiset(h.dequeued + [frame])
         == multiset(h.forwarded) + multiset(h.skipped + prev) + multiset(h.dropped) + multiset{frame}
  {
    assert multiset(h.forwarded) + (multiset(h.skipped) + multiset(prev)) + multiset(h.dropped)
        == multiset(h.forwarded) + multiset(h.skipped) + multiset(h.dropped) + multiset(prev);
    assert multiset(h.dropped + [frame]) == multiset(h.dropped) + multiset{frame};
  }

  /**
   A frame newer than all others: either it becomes the newest kept frame, or it is dropped and the
   old one stays newest.
  */
  lemma ArrivalNewest(forwarded: seq<int>, dequeued: seq<int>, dropped: seq<int>, frame: int)
    requires forall x :: x in forwarded ==> x in dequeued
    requires forall x :: x in dequeued ==> x < frame
    ensures PendingIsNewest(forwarded, dequeued + [frame], dropped, frame)
    ensures forall prev :: PendingIsNewest(forwarded, dequeued, dropped, prev) ==>
      PendingIsNewest(forwarded, dequeued + [frame], dropped + [frame], prev)
  {}

  /** The frame that the source delivers is newer than all before it and older than all that follow. */
  lemma ArrivalIsNew(y: Sys)
    requires Own(y) && Frames(y) && Pull(y.src).1.Some?
    ensures var (src, i) := (Pull(y.src).0, Pull(y.src).1.value);
      && Running(src) && IsBuffer(src, i) && DriverOk(src.drv)
      && var frame := FrameIn(src, i);
         && OlderThanSource(y.hist.dequeued + [frame], src.drv) && StrictlyIncreasing(y.hist.dequeued + [frame])
         && forall x :: x in y.hist.dequeued ==> x < frame
  {
    hide DriverOk, Dqbuf, InFlight, FullRing, OlderThanSource, Matched, Accounted, BuffersOk, StrictlyIncreasing,
      PendingIsNewest;
    PullMoves(y.src);
    PullKeeps(y.src);
    OlderAfterDqbuf(y.hist.dequeued, y.src.drv);
    assert FrameIn(Pull(y.src).0, Pull(y.src).1.value) == Dqbuf(y.src.drv).1.value.sequence;
  }

  /** With nothing pending, the frame becomes the pending one. */
  lemma FramesFirst(y: Sys)
    requires Own(y) && Frames(y) && Pull(y.src).1.Some? && y.pump.next < 0
    ensures Frames(Replace(y, Pull(y.src).0, Pull(y.src).1.value).0)
  {
    hide Own, StreamOk, Pull, OlderThanSource, StrictlyIncreasing, PendingIsNewest;
    var h, src, i := y.hist, Pull(y.src).0, Pull(y.src).1.value;
    ArrivalIsNew(y);
    ForwardedWereDequeued(y);
    ArrivalNewest(h.forwarded, h.dequeued, h.dropped, FrameIn(src, i));
    ArrivalAccount(h, PendingFrame(y), [], FrameIn(src, i));
    assert h.skipped + [] == h.skipped;
  }

  /** With a frame pending, that one is skipped, or the new one is dropped when the source refuses the buffer. */
  lemma FramesNext(y: Sys)
    requires Own(y) && Frames(y) && Pull(y.src).1.Some? && y.pump.next >= 0
    ensures Frames(Replace(y, Pull(y.src).0, Pull(y.src).1.value).0)
  {
    hide Own, StreamOk, Pull, Qbuf, OlderThanSource, StrictlyIncreasing, PendingIsNewest, Replace;
    var h, p, src, i := y.hist, y.pump.next, Pull(y.src).0, Pull(y.src).1.value;
    ArrivalIsNew(y);
    var frame := FrameIn(src, i);
    ForwardedWereDequeued(y);
    ArrivalNewest(h.forwarded, h.dequeued, h.dropped, frame);
    PendingStays(y);
    OlderAfterQbuf(h.dequeued + [frame], src.drv, src.buffers.value[p].buffer);
    ArrivalAccount(h, PendingFrame(y), [FrameIn(y.src, p)], frame);
    FramesKept(y, src, i);
  }

  lemma FramesReplace(y: Sys)
    requires Own(y) && Frames(y) && Pull(y.src).1.Some?
    ensures Frames(Replace(y, Pull(y.src).0, Pull(y.src).1.value).0)
  {
    hide Own, Frames, Replace, Pull;
    if y.pump.next < 0 {
      FramesFirst(y);
    } else {
      FramesNext(y);
    }
  }

  /** What a refused or accepted push of the pending buffer leaves behind. */
  lemma FramesKept(y: Sys, src: Stream, i: nat)
    requires y.pump.next >= 0 && IsBuffer(src, y.pump.next) && IsBuffer(src, i)
    ensures var (y1, o) := Replace(y, src, i);
      && y1.src.buffers == src.buffers
      && y1.src.drv == Qbuf(src.drv, src.buffers.value[y.pump.next].buffer).0
      && y1.hist.dequeued == y.hist.dequeued + [FrameIn(src, i)] && y1.hist.forwarded == y.hist.forwarded
      && (o == Code(0) ==> y1.pump.next == i && y1.hist.dropped == y.hist.dropped && y1.hist.lost == y.hist.lost
                           && y1.hist.skipped == y.hist.skipped + [FrameIn(src, y.pump.next)])
      && (o != Code(0) ==> y1.pump.next == y.pump.next && y1.hist.skipped == y.hist.skipped
                           && y1.hist.dropped == y.hist.dropped + [FrameIn(src, i)]
                           && y1.hist.lost == y.hist.lost + [i])
  {
    hide Qbuf;
  }

  lemma ForwardedWereDequeued(y: Sys)
    requires Frames(y)
    ensures forall x :: x in y.hist.forwarded ==> x in y.hist.dequeued
    ensures y.pump.next >= 0 ==> FrameIn(y.src, y.pump.next) in y.hist.dequeued
  {
    forall x | x in y.hist.forwarded || x in PendingFrame(y)
      ensures x in y.hist.dequeued
    {
      assert x in multiset(y.hist.dequeued);
    }
  }

  lemma FramesForward(y: Sys)
    requires Own(y) && Frames(y)
    ensures Frames(Forward(y).0)
    ensures Forward(y).0.hist != y.hist ==>
      && y.pump.next >= 0
      && Forward(y).0.hist.forwarded == y.hist.forwarded + [FrameIn(y.src, y.pump.next)]
  {
    hide StreamOk, InFlight, FullRing, OlderThanSource, Matched, Accounted, Contents, Forward, PushIndex, Described;
    OwnForward(y);
    if HasWork(y) && !WouldAbort(y) {
      ForwardValue(y);
      IncreasingSnoc(y.hist.forwarded, FrameIn(y.src, y.pump.next));
    }
  }
}
