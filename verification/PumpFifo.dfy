/**
 The rotating ring is a FIFO free list after all, exactly as far as the destination lets it be one.
 `queuePop` never removes anything and the pump never pushes a finished index back, so in truth the
 ring hands the destination indices out in turn, 0, 1, ..., n - 1, 0, ..., whatever comes back. If
 and only if the destination gives its buffers back in the order in which it got them, this is the
 true FIFO free list, followed by the buffers in flight, oldest first.
*/
module PumpFifo {
  import opened Common
  import opened V4l2
  import opened Streams
  import opened Rings
  import opened Pumps
  import opened PumpOwnership

  function Busy(y: Sys): nat {
    |InFlight(y.dst.drv)|
  }

  // ---------- in any order ----------

  /** The indices 0, ..., n - 1 again and again: the one at position j. */
  function InTurn(j: nat, n: nat): (i: nat)
    requires n > 0
    ensures i < n
    ensures j < n ==> i == j
  {
    j % n
  }

  lemma OneTurn(j: nat, n: nat)
    requires n > 0
    ensures InTurn(j + n, n) == InTurn(j, n)
  {
    var q, r, q', r' := j / n, j % n, (j + n) / n, (j + n) % n;
    assert j == n * q + r && j + n == n * q' + r';
    Times(n, q' - q - 1);
    assert n * (q' - q - 1) == n * q' - n * q - n == r - r';
  }

  lemma Times(n: int, d: int)
    requires n >= 0
    ensures d >= 1 ==> n * d >= n
    ensures d <= -1 ==> n * d <= -n
  {}

  /** What the pump has used and what it will use next follow one another in turn. */
  ghost predicate Turn(used: seq<int>, ring: seq<int>) {
    && (ring == [] ==> used == [])
    && (ring != [] ==>
          && (forall j :: 0 <= j < |used| ==> used[j] == InTurn(j, |ring|))
          && (forall i :: 0 <= i < |ring| ==> ring[i] == InTurn(|used| + i, |ring|)))
  }

  /** Every index that was used is either with the destination driver or was given back. */
  ghost predicate Counted(h: History, inDest: multiset<int>) {
    && multiset(h.used) == multiset(h.reclaimed) + inDest
    && |h.used| == |h.forwarded|
  }

  ghost predicate InRotation(y: Sys) {
    && FullRing(y.pump.available, |y.pump.acquired|)
    && Turn(y.hist.used, Contents(y.pump.available))
    && Counted(y.hist, multiset(InFlight(y.dst.drv)))
  }

  lemma TurnTaken(used: seq<int>, ring: seq<int>)
    requires Turn(used, ring) && ring != []
    ensures Turn(used + [ring[0]], ring[1..] + [ring[0]])
  {
    hide InTurn;
    var n, after := |ring|, ring[1..] + [ring[0]];
    OneTurn(|used|, n);
    forall i | 0 <= i < n
      ensures after[i] == InTurn(|used| + 1 + i, n)
    {
      if i < n - 1 {
        assert after[i] == ring[i + 1];
      }
    }
  }

  lemma RotationTakeBack(y: Sys)
    requires Own(y) && InRotation(y) && Pull(y.dst).1.Some?
    ensures InRotation(TakeBack(y, Pull(y.dst).0, Pull(y.dst).1.value).0)
  {
    hide StreamOk, InFlight, FullRing, Accounted, Contents, Matched, Turn, Pull, PushIndex;
    PulledIsAttached(y);
    PullMoves(y.dst);
  }

  lemma RotationForward(y: Sys)
    requires Own(y) && InRotation(y)
    ensures InRotation(Forward(y).0)
  {
    hide StreamOk, InFlight, Accounted, Contents, Matched, Turn, Forward, PushIndex, Described, FullRing;
    OwnForward(y);
    if HasWork(y) && !WouldAbort(y) {
      ForwardValue(y);
      RingRotates(y.pump.available, |y.pump.acquired|);
      TurnTaken(y.hist.used, Contents(y.pump.available));
      var h := Contents(y.pump.available)[0];
      PushMoves(Described(y, h), h);
    }
  }

  /** No more destination buffers are in flight than there are, and as many as were used and have not come back. */
  lemma BusyIs(y: Sys)
    requires Own(y) && InRotation(y)
    ensures Busy(y) <= |y.pump.acquired| && |y.hist.used| == |y.hist.reclaimed| + Busy(y)
  {
    hide StreamOk, InFlight, Accounted, Contents, Turn;
    var inDest, all := multiset(InFlight(y.dst.drv)), multiset(Iota(|y.pump.acquired|));
    IotaMultiset(|y.pump.acquired|);
    forall x
      ensures inDest[x] <= all[x]
    {
      assert inDest[x] <= 1 && (x in inDest ==> 0 <= x < |y.pump.acquired|);
    }
    assert all == inDest + (all - inDest);
    assert |multiset(y.hist.used)| == |multiset(y.hist.reclaimed)| + |inDest|;
  }

  // ---------- exactly when it is a FIFO ----------

  /**
   The law of a FIFO queue: what was taken out, followed by what is left, is what was put in. Put in
   were all indices at the start and then each index as the destination gave it back.
  */
  ghost predicate FifoLaw(used: seq<int>, free: seq<int>, reclaimed: seq<int>, n: nat) {
    used + free == Iota(n) + reclaimed
  }

  /** The ring is the FIFO free list followed by the buffers in flight, the oldest first. */
  ghost predicate Fifo(y: Sys) {
    var n, ring := |y.pump.acquired|, y.pump.available;
    && RingOk(ring) && ring.size == n && Busy(y) <= n
    && Contents(ring)[n - Busy(y)..] == InFlight(y.dst.drv)
    && FifoLaw(y.hist.used, Contents(ring)[..n - Busy(y)], y.hist.reclaimed, n)
  }

  /** The destination has given back, and will give back, its buffers in the order in which it got them. */
  ghost predicate Ordered(y: Sys) {
    y.hist.used == y.hist.reclaimed + InFlight(y.dst.drv)
  }

  /** What the ring and the used indices hold once they are put in a row. */
  lemma TurnRow(used: seq<int>, ring: seq<int>, k: nat)
    requires Turn(used, ring) && ring != [] && k <= |ring|
    ensures forall j :: 0 <= j < |used| + k ==> (used + ring[..k])[j] == InTurn(j, |ring|)
    ensures |used| >= |ring| - k ==>
      forall i :: 0 <= i < |ring| - k ==> ring[k..][i] == InTurn(|used| - (|ring| - k) + i, |ring|)
  {
    hide InTurn;
    forall j | 0 <= j < |used| + k
      ensures (used + ring[..k])[j] == InTurn(j, |ring|)
    {
      if j >= |used| {
        assert ring[j - |used|] == InTurn(|used| + (j - |used|), |ring|);
      }
    }
    if |used| >= |ring| - k {
      forall i | 0 <= i < |ring| - k
        ensures ring[k..][i] == InTurn(|used| - (|ring| - k) + i, |ring|)
      {
        OneTurn(|used| - (|ring| - k) + i, |ring|);
        assert ring[k..][i] == ring[k + i];
      }
    }
  }

  /** The FIFO law, for indices used in turn: it holds exactly when the first ones used were the ones given back. */
  lemma LawExactly(used: seq<int>, ring: seq<int>, reclaimed: seq<int>, b: nat)
    requires Turn(used, ring) && ring != [] && b <= |ring| && |used| == |reclaimed| + b
    ensures FifoLaw(used, ring[..|ring| - b], reclaimed, |ring|) <==> reclaimed <= used
  {
    hide InTurn;
    var n := |ring|;
    var row, all := used + ring[..n - b], Iota(n) + reclaimed;
    TurnRow(used, ring, n - b);
    if reclaimed <= used {
      forall j | 0 <= j < n + |reclaimed|
        ensures row[j] == all[j]
      {
        if j >= n {
          OneTurn(j - n, n);
          assert all[j] == used[j - n];
        }
      }
      assert row == all;
    } else if row == all {
      forall j | 0 <= j < |reclaimed|
        ensures reclaimed[j] == used[j]
      {
        OneTurn(j, n);
        assert all[n + j] == reclaimed[j];
        assert row[n + j] == InTurn(j + n, n);
      }
      assert false;
    }
  }

  /** The tail of the ring, for indices used in turn, is what was used last. */
  lemma TailIsLastUsed(used: seq<int>, ring: seq<int>, b: nat)
    requires Turn(used, ring) && ring != [] && b <= |ring| && b <= |used|
    ensures ring[|ring| - b..] == used[|used| - b..]
  {
    hide InTurn;
    TurnRow(used, ring, |ring| - b);
    var tail, last := ring[|ring| - b..], used[|used| - b..];
    forall i | 0 <= i < b
      ensures tail[i] == last[i]
    {
      assert last[i] == used[|used| - b + i];
    }
  }

  /**
   The rotating ring is the FIFO free list followed by the buffers in flight if and only if the
   destination gives its buffers back in order. For the free list alone it is enough that those it
   has given back came in order.
  */
  lemma FifoExactly(y: Sys)
    requires Own(y) && InRotation(y)
    ensures Busy(y) <= |y.pump.acquired|
    ensures FifoLaw(y.hist.used, Contents(y.pump.available)[..|y.pump.acquired| - Busy(y)], y.hist.reclaimed,
      |y.pump.acquired|)
      <==> y.hist.reclaimed <= y.hist.used
    ensures Fifo(y) <==> Ordered(y)
  {
    hide StreamOk, InFlight, Accounted, Contents, Turn, Matched, FifoLaw, NoDuplicates;
    BusyIs(y);
    var used, ring, reclaimed, b := y.hist.used, Contents(y.pump.available), y.hist.reclaimed, Busy(y);
    if ring == [] {
      NothingInTurn(used, ring, reclaimed);
    } else {
      LawExactly(used, ring, reclaimed, b);
      TailIsLastUsed(used, ring, b);
      Halves(used, reclaimed, InFlight(y.dst.drv));
    }
  }

  lemma NothingInTurn(used: seq<int>, ring: seq<int>, reclaimed: seq<int>)
    requires Turn(used, ring) && ring == [] && |used| >= |reclaimed|
    ensures used == reclaimed == [] && FifoLaw(used, ring, reclaimed, 0)
  {}

  lemma Halves(whole: seq<int>, first: seq<int>, second: seq<int>)
    requires |whole| == |first| + |second|
    ensures whole == first + second <==> first <= whole && second == whole[|whole| - |second|..]
  {
    if first <= whole && second == whole[|whole| - |second|..] {
      assert whole == whole[..|first|] + whole[|first|..];
    }
  }

  // ---------- a destination that completes in order ----------

  lemma OrderedTakeBack(y: Sys)
    requires Own(y) && Ordered(y) && InOrder(y.dst.drv.tape) && Pull(y.dst).1.Some?
    ensures var y1 := TakeBack(y, Pull(y.dst).0, Pull(y.dst).1.value).0;
      Ordered(y1) && InOrder(y1.dst.drv.tape)
  {
    hide DriverOk, InFlight, FullRing, Accounted, Elapse, BuffersOk, Dqbuf, Qbuf, Contents, Matched;
    PulledIsAttached(y);
    PullKeeps(y.dst);
    DqbufKeeps(y.dst.drv);
    ElapseKeeps(y.dst.drv);
    var (dst, i) := (Pull(y.dst).0, Pull(y.dst).1.value);
    assert y.hist.reclaimed + ([i] + InFlight(dst.drv)) == (y.hist.reclaimed + [i]) + InFlight(dst.drv);
  }

  /** In order, a forward appends the head of the ring to the buffers in flight; a failed one leaves them alone. */
  lemma InFlightAfterForward(y: Sys)
    requires Own(y) && HasWork(y) && !WouldAbort(y) && InOrder(y.dst.drv.tape)
    ensures Contents(y.pump.available) != []
    ensures var (y1, o) := Forward(y);
      && InOrder(y1.dst.drv.tape)
      && (o == Code(0) ==> InFlight(y1.dst.drv) == InFlight(y.dst.drv) + [Contents(y.pump.available)[0]])
      && (o != Code(0) ==> InFlight(y1.dst.drv) == InFlight(y.dst.drv))
  {
    hide DriverOk, InFlight, Accounted, Elapse, Qbuf, Contents, Matched, Forward, Described, Pass;
    ForwardValue(y);
    var h := Contents(y.pump.available)[0];
    PlanesOf(Described(y, h), h);
    QbufKeeps(y.dst.drv, Described(y, h).buffers.value[h].buffer);
    ElapseKeeps(y.dst.drv);
  }

  lemma PlanesOf(s: Stream, h: int)
    requires Running(s) && IsBuffer(s, h)
    ensures |s.buffers.value[h].buffer.planes| == VIDEO_MAX_PLANES && s.buffers.value[h].buffer.index == h
  {}

  lemma OrderedForward(y: Sys)
    requires Own(y) && Ordered(y) && InOrder(y.dst.drv.tape)
    ensures Ordered(Forward(y).0) && InOrder(Forward(y).0.dst.drv.tape)
  {
    hide StreamOk, InFlight, Accounted, Contents, Matched, Forward, Described;
    OwnForward(y);
    if HasWork(y) && !WouldAbort(y) {
      InFlightAfterForward(y);
      ReclaimedStay(y);
      var h := Contents(y.pump.available)[0];
      assert y.hist.reclaimed + (InFlight(y.dst.drv) + [h]) == (y.hist.reclaimed + InFlight(y.dst.drv)) + [h];
    }
  }

  lemma ReclaimedStay(y: Sys)
    ensures Forward(y).0.hist.reclaimed == y.hist.reclaimed
  {}

  lemma BorderAt(ring: seq<int>, k: nat, inFlight: seq<int>)
    requires k <= |ring| && ring[k..] == inFlight && NoDuplicates(multiset(ring)) && ring != []
    ensures ring[0] in multiset(inFlight) <==> k == 0
  {
    assert ring == ring[..k] + ring[k..];
    NoDuplicatesPart(multiset(ring[..k]), multiset(ring[k..]));
    if k > 0 {
      assert ring[0] == ring[..k][0];
      assert ring[0] in multiset(ring[..k]);
    }
  }

  /** In order, the head of the ring is with the destination exactly when every destination buffer is. */
  lemma HeadBusyMeansAllBusy(y: Sys)
    requires Own(y) && InRotation(y) && Ordered(y) && |y.pump.acquired| > 0
    ensures Contents(y.pump.available)[0] in multiset(InFlight(y.dst.drv)) <==> Busy(y) == |y.pump.acquired|
  {
    hide StreamOk, InFlight, Accounted, Contents, Matched, Turn, FifoLaw, Counted;
    FifoExactly(y);
    IotaMultiset(|y.pump.acquired|);
    BorderAt(Contents(y.pump.available), |y.pump.acquired| - Busy(y), InFlight(y.dst.drv));
  }
}
