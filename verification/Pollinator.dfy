/**
 The pollinator of src/pollinator.c, in place: the slot table is a growable array, the kernel's
 epoll set a field beside it.
*/
module Pollinators {
  import opened Common
  import opened Arrays
  import opened Polls

  class Pollinator {
    const fds: Array<PollSlot>
    /** The kernel's side. */
    var epoll: map<int, Interest>

    ghost predicate Shaped()
      reads this, fds, fds.data
    {
      fds.Valid()
    }

    ghost function Val(): (v: Poll)
      requires Shaped()
      reads this, fds, fds.data
      ensures |v.slots| == fds.size
    {
      Poll(fds.Val().items, epoll)
    }

    ghost predicate Valid()
      reads this, fds, fds.data
    {
      Shaped() && PollOk(Val())
    }

    /** What this pollinator watches, and for what. */
    ghost function Watched(): map<int, Watch>
      requires Valid()
      reads this, fds, fds.data
    {
      Registrations(Val())
    }

    /** pollinatorCreate. */
    constructor ()
      ensures Valid() && Watched() == map[] && fresh(fds) && fds.data == null
    {
      fds := new Array<PollSlot>(32);
      epoll := map[];
    }

    /** findPfd. */
    method FindSlot(fd: int) returns (index: int)
      requires Shaped()
      ensures index == FindFd(Val().slots, fd, 0)
    {
      var i := 0;
      while i < fds.size
        invariant i <= fds.size
        invariant FindFd(Val().slots, fd, 0) == FindFd(Val().slots, fd, i)
      {
        if fds.data[i].fd == fd {
          return i;
        }
        i := i + 1;
      }
      index := -1;
    }

    /** allocPfd: the first free slot, or one more whose contents are not yet anything. */
    method AllocSlot() returns (index: nat)
      requires Shaped()
      modifies fds, fds.data
      ensures Shaped() && index == FindFree(old(Val()).slots, 0) && index < fds.size
      ensures fds.size == if index < old(fds.size) then old(fds.size) else old(fds.size) + 1
      ensures Val().slots[..old(fds.size)] == old(Val()).slots
      ensures fds.data != null && (fds.data == old(fds.data) || fresh(fds.data))
      ensures epoll == old(epoll)
    {
      FindFreeFinds(Val().slots, 0);
      var i := 0;
      while i < fds.size
        invariant i <= fds.size
        invariant FindFree(Val().slots, 0) == FindFree(Val().slots, i)
      {
        if fds.data[i].fd < 0 {
          return i;
        }
        i := i + 1;
      }
      index := fds.Append(None);
    }

    /** pollinatorMonitorFd. The kernel's answer to epoll_ctl is as in the model; it is never a refusal. */
    method MonitorFd(fd: int, w: Watch)
      requires Valid() && fd >= 0
      modifies this, fds, fds.data
      ensures Valid() && Val() == Monitor(old(Val()), fd, w).0
      ensures Watched() == Registered(old(Watched()), fd, w)
      ensures fds.data == old(fds.data) || (fds.data != null && fresh(fds.data))
    {
      hide Mask, FindFd, FindFree, PollOk, Registrations;
      ghost var v := Val();
      MonitorRefines(v, fd, w);
      FoundIffWatched(v, fd);
      var index := FindSlot(fd);
      if w.events == 0 {
        if index < 0 {
          return;
        }
        fds.data[index] := fds.data[index].(fd := -1);
        assert fd in epoll;
        epoll := epoll - {fd};
        assert Val().slots == v.slots[index := v.slots[index].(fd := -1)];
        return;
      }
      ghost var known := index >= 0;
      if index < 0 {
        index := AllocSlot();
      }
      fds.data[index] := PollSlot(fd, w.bits);
      assert known == (fd in epoll);
      epoll := epoll[fd := Interest(Mask(w.events), index)];
      assert Val().slots == if index < |v.slots| then v.slots[index := PollSlot(fd, w.bits)]
        else v.slots + [PollSlot(fd, w.bits)];
    }

    /**
     The dispatch loop of pollinatorPoll. Each entry that epoll_wait returned carries the index that
     the kernel stores for the descriptor; the callback is bitSetFunc on the word of the pipeline.
    */
    method Dispatch(ready: seq<Ready>, word: bv32) returns (bits: bv32)
      requires Valid() && forall r :: r in ready ==> r.fd in epoll
      ensures bits == Gathered(Watched(), ready, word)
    {
      hide Recognised;
      bits := word;
      for i := 0 to |ready|
        invariant bits == Gathered(Watched(), ready[..i], word)
      {
        var r := ready[i];
        var slot := fds.data[epoll[r.fd].index];
        assert ready[..i + 1][..i] == ready[..i];
        if Recognised(r.revents) {
          bits := Or(bits, slot.bits);
        }
      }
      assert ready[..|ready|] == ready;
    }
  }
}
