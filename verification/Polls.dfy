/**
 The pollinator of src/pollinator.c as a value, against a model of the kernel's epoll set: a table
 of slots that are reused, whose indices the kernel stores and hands back. What it amounts to is a
 plain map from file descriptors to registrations.
*/
module Polls {
  import opened Common

  const POLLIN_FD_READ: bv32 := 1
  const POLLIN_FD_WRITE: bv32 := 2
  const POLLIN_FD_EXCEPT: bv32 := 4
  const POLLIN_FD_ERR: bv32 := 8

  const EPOLLIN: bv32 := 0x001
  const EPOLLPRI: bv32 := 0x002
  const EPOLLOUT: bv32 := 0x004
  const EPOLLERR: bv32 := 0x008
  const EPOLLHUP: bv32 := 0x010
  const EPOLLET: bv32 := 0x8000_0000

  /** What a caller asks for: the callback is always bitSetFunc here, which ors `bits` into a word. */
  datatype Watch = Watch(events: bv32, bits: bv32)

  /** A slot of the table; `fd` is -1 when it is free. */
  datatype PollSlot = PollSlot(fd: int, bits: bv32)

  /** What the kernel keeps for a descriptor: the events, and the slot index it will hand back. */
  datatype Interest = Interest(events: bv32, index: nat)

  datatype Poll = Poll(slots: seq<PollSlot>, epoll: map<int, Interest>)

  function Mask(eventBits: bv32): bv32 {
    EPOLLET
    | (if eventBits & POLLIN_FD_READ != 0 then EPOLLIN else 0)
    | (if eventBits & POLLIN_FD_WRITE != 0 then EPOLLOUT else 0)
    | (if eventBits & POLLIN_FD_EXCEPT != 0 then EPOLLPRI else 0)
    | (if eventBits & POLLIN_FD_ERR != 0 then EPOLLERR else 0)
  }

  /** The first slot with this descriptor, or -1. */
  function FindFd(slots: seq<PollSlot>, fd: int, i: nat): (r: int)
    decreases |slots| - i
    ensures r == -1 || i <= r < |slots|
  {
    if i >= |slots| then -1 else if slots[i].fd == fd then i else FindFd(slots, fd, i + 1)
  }

  /** The first free slot, or the index of one more. */
  function FindFree(slots: seq<PollSlot>, i: nat): (r: nat)
    decreases |slots| - i
    ensures r <= |slots| || r == i
  {
    if i >= |slots| || slots[i].fd < 0 then i else FindFree(slots, i + 1)
  }

  /** pollinatorMonitorFd. EPOLL_CTL_ADD fails on a descriptor that the set has, MOD and DEL on one that it lacks. */
  function Monitor(v: Poll, fd: int, w: Watch): (Poll, Outcome) {
    var found := FindFd(v.slots, fd, 0);
    if w.events == 0 then
      if found < 0 then (v, Code(0)) else
        var v1 := v.(slots := v.slots[found := v.slots[found].(fd := -1)]);
        if fd !in v.epoll then (v1, Abort) else (v1.(epoll := v.epoll - {fd}), Code(0))
    else
      var index := if found >= 0 then found else FindFree(v.slots, 0);
      var slot := PollSlot(fd, w.bits);
      var v1 := v.(slots := if index < |v.slots| then v.slots[index := slot] else v.slots + [slot]);
      if (found >= 0) != (fd in v.epoll) then (v1, Abort)
      else (v1.(epoll := v.epoll[fd := Interest(Mask(w.events), index)]), Code(0))
  }

  // ---------- the table agrees with the kernel ----------

  /** Every descriptor in the epoll set has the slot it points to; every used slot is pointed to. */
  ghost predicate PollOk(v: Poll) {
    && (forall fd :: fd in v.epoll ==> fd >= 0 && v.epoll[fd].index < |v.slots| && v.slots[v.epoll[fd].index].fd == fd)
    && (forall i :: 0 <= i < |v.slots| ==> v.slots[i].fd >= 0 ==>
          v.slots[i].fd in v.epoll && v.epoll[v.slots[i].fd].index == i)
  }

  /** The registrations that a poll acts on: the kernel's events, and the bits of the slot its index names. */
  function Registrations(v: Poll): map<int, Watch>
    requires PollOk(v)
  {
    map fd | fd in v.epoll :: Watch(v.epoll[fd].events, v.slots[v.epoll[fd].index].bits)
  }

  /** The same call on a plain map. */
  function Registered(m: map<int, Watch>, fd: int, w: Watch): map<int, Watch> {
    if w.events == 0 then m - {fd} else m[fd := Watch(Mask(w.events), w.bits)]
  }

  lemma {:induction false} FindFdFinds(slots: seq<PollSlot>, fd: int, i: nat)
    ensures var r := FindFd(slots, fd, i);
      && (r >= 0 ==> slots[r].fd == fd)
      && (r < 0 ==> forall k :: i <= k < |slots| ==> slots[k].fd != fd)
    decreases |slots| - i
  {
    if i < |slots| && slots[i].fd != fd {
      FindFdFinds(slots, fd, i + 1);
    }
  }

  lemma {:induction false} FindFreeFinds(slots: seq<PollSlot>, i: nat)
    requires i <= |slots|
    ensures var r := FindFree(slots, i); i <= r <= |slots| && (r < |slots| ==> slots[r].fd < 0)
    decreases |slots| - i
  {
    if i < |slots| && slots[i].fd >= 0 {
      FindFreeFinds(slots, i + 1);
    }
  }

  /** A descriptor has a slot exactly when the kernel watches it, and then the kernel's index is that slot. */
  lemma FoundIffWatched(v: Poll, fd: int)
    requires PollOk(v) && fd >= 0
    ensures var r := FindFd(v.slots, fd, 0);
      && (r >= 0 <==> fd in v.epoll)
      && (r >= 0 ==> v.epoll[fd].index == r)
  {
    FindFdFinds(v.slots, fd, 0);
  }

  lemma MonitorKeeps(v: Poll, fd: int, w: Watch)
    requires PollOk(v) && fd >= 0
    ensures Monitor(v, fd, w).1 == Code(0) && PollOk(Monitor(v, fd, w).0)
  {
    hide Mask, FindFd, FindFree;
    FoundIffWatched(v, fd);
    FindFdFinds(v.slots, fd, 0);
    FindFreeFinds(v.slots, 0);
  }

  /**
   Without a slot there is nothing to take away; with one, the slot is freed and the kernel forgets
   the descriptor.
  */
  lemma MonitorRemoves(v: Poll, fd: int, w: Watch)
    requires PollOk(v) && fd >= 0 && w.events == 0
    ensures var (v1, o) := Monitor(v, fd, w);
      PollOk(v1) && Registrations(v1) == Registrations(v) - {fd}
  {
    hide Mask, FindFd, FindFree;
    MonitorKeeps(v, fd, w);
    FoundIffWatched(v, fd);
    FindFdFinds(v.slots, fd, 0);
    var got, wanted := Registrations(Monitor(v, fd, w).0), Registrations(v) - {fd};
    assert got.Keys == wanted.Keys;
    forall f | f in got
      ensures got[f] == wanted[f]
    {}
  }

  /** The slot of the descriptor, or a free one, takes the bits; all other descriptors keep their slots. */
  lemma MonitorSets(v: Poll, fd: int, w: Watch)
    requires PollOk(v) && fd >= 0 && w.events != 0
    ensures var (v1, o) := Monitor(v, fd, w);
      PollOk(v1) && Registrations(v1) == Registrations(v)[fd := Watch(Mask(w.events), w.bits)]
  {
    hide Mask, FindFd, FindFree;
    MonitorKeeps(v, fd, w);
    FoundIffWatched(v, fd);
    FindFreeFinds(v.slots, 0);
    var v1 := Monitor(v, fd, w).0;
    var got, wanted := Registrations(v1), Registrations(v)[fd := Watch(Mask(w.events), w.bits)];
    assert got.Keys == wanted.Keys;
    forall f | f in got
      ensures got[f] == wanted[f]
    {
      if f != fd {
        assert v.epoll[f].index != v1.epoll[fd].index;
      }
    }
  }

  /**
   Registering, changing and unregistering do to the registrations what they would do to a plain
   map, no epoll_ctl call is refused, and a slot that is reused is referenced by no other descriptor.
  */
  lemma MonitorRefines(v: Poll, fd: int, w: Watch)
    requires PollOk(v) && fd >= 0
    ensures var (v1, o) := Monitor(v, fd, w);
      o == Code(0) && PollOk(v1) && Registrations(v1) == Registered(Registrations(v), fd, w)
  {
    hide Mask, Monitor, PollOk, Registrations;
    MonitorKeeps(v, fd, w);
    if w.events == 0 {
      MonitorRemoves(v, fd, w);
    } else {
      MonitorSets(v, fd, w);
    }
  }

  datatype Call = Call(fd: int, watch: Watch)

  function MonitorAll(v: Poll, calls: seq<Call>): (Poll, Outcome)
    decreases |calls|
  {
    if calls == [] then (v, Code(0)) else
      var (v1, o) := Monitor(v, calls[0].fd, calls[0].watch);
      if o == Abort then (v1, Abort) else MonitorAll(v1, calls[1..])
  }

  function RegisteredAll(m: map<int, Watch>, calls: seq<Call>): map<int, Watch>
    decreases |calls|
  {
    if calls == [] then m else RegisteredAll(Registered(m, calls[0].fd, calls[0].watch), calls[1..])
  }

  /** Over any sequence of calls the table and the kernel's set together are a plain map; no ASSERT fires. */
  lemma {:induction false} PollinatorIsAMap(v: Poll, calls: seq<Call>)
    requires PollOk(v) && forall c :: c in calls ==> c.fd >= 0
    ensures var (v1, o) := MonitorAll(v, calls);
      o == Code(0) && PollOk(v1) && Registrations(v1) == RegisteredAll(Registrations(v), calls)
    decreases |calls|
  {
    hide Monitor, Registered, PollOk, Registrations;
    if calls != [] {
      MonitorRefines(v, calls[0].fd, calls[0].watch);
      PollinatorIsAMap(Monitor(v, calls[0].fd, calls[0].watch).0, calls[1..]);
    }
  }

  // ---------- one poll ----------

  /** One entry of the array that epoll_wait fills in, by descriptor. */
  datatype Ready = Ready(fd: int, revents: bv32)

  /** The POLLIN_FD_* flags of the reported events. */
  function Flags(revents: bv32): bv32 {
    (if revents & EPOLLIN != 0 then POLLIN_FD_READ else 0)
    | (if revents & EPOLLOUT != 0 then POLLIN_FD_WRITE else 0)
    | (if revents & EPOLLPRI != 0 then POLLIN_FD_EXCEPT else 0)
    | (if revents & (EPOLLERR | EPOLLHUP) != 0 then POLLIN_FD_ERR else 0)
  }

  predicate Recognised(revents: bv32) {
    Flags(revents) != 0
  }

  /** What is asked of epoll, bit by bit: each flag asks for its own event, and every watch is edge-triggered. */
  lemma MaskExactly(eventBits: bv32)
    ensures Mask(eventBits) & 0x001 != 0 <==> eventBits & 1 != 0
    ensures Mask(eventBits) & 0x004 != 0 <==> eventBits & 2 != 0
    ensures Mask(eventBits) & 0x002 != 0 <==> eventBits & 4 != 0
    ensures Mask(eventBits) & 0x008 != 0 <==> eventBits & 8 != 0
    ensures Mask(eventBits) & 0xffff_fff0 == 0x8000_0000
  {}

  /**
   What a report is taken for, bit by bit, whatever else is in it: each flag is set exactly for its own event,
   and the one for errors for an error or a hang-up.
  */
  lemma FlagsExactly(revents: bv32)
    ensures Flags(revents) & 1 != 0 <==> revents & 0x001 != 0
    ensures Flags(revents) & 2 != 0 <==> revents & 0x004 != 0
    ensures Flags(revents) & 4 != 0 <==> revents & 0x002 != 0
    ensures Flags(revents) & 8 != 0 <==> revents & 0x018 != 0
    ensures Flags(revents) & 0xffff_fff0 == 0
  {}

  /** The report is of one of the five events that matter. */
  predicate Tells(revents: bv32) {
    revents & (EPOLLIN | EPOLLOUT | EPOLLPRI | EPOLLERR | EPOLLHUP) != 0
  }

  lemma RecognisedExactly(revents: bv32)
    ensures Recognised(revents) <==> Tells(revents)
  {}

  /**
   The two translations are inverse to each other: a descriptor that reports all the events that it is watched
   for, which never include the edge-triggered flag, reports what was asked.
  */
  lemma MaskRoundTrip(eventBits: bv32)
    ensures Flags(Mask(eventBits) & !EPOLLET)
      == eventBits & (POLLIN_FD_READ | POLLIN_FD_WRITE | POLLIN_FD_EXCEPT | POLLIN_FD_ERR)
    ensures Mask(eventBits) & EPOLLET == EPOLLET
  {}

  function Or(x: bv32, y: bv32): bv32 {
    x | y
  }

  /** The word after the callbacks of all these entries, one after the other. */
  function Gathered(m: map<int, Watch>, ready: seq<Ready>, bits: bv32): bv32
    decreases |ready|
  {
    if ready == [] then bits else
      var r := ready[|ready| - 1];
      var before := Gathered(m, ready[..|ready| - 1], bits);
      if Recognised(r.revents) && r.fd in m then Or(before, m[r.fd].bits) else before
  }

  predicate Test(x: bv32, mask: bv32) {
    x & mask != 0
  }

  lemma OrTest(x: bv32, y: bv32, mask: bv32)
    ensures Test(Or(x, y), mask) <==> Test(x, mask) || Test(y, mask)
  {
    assert (x | y) & mask == (x & mask) | (y & mask);
  }

  /** The entry reports an event on a descriptor that is registered for some bit of the mask. */
  predicate Reports(m: map<int, Watch>, r: Ready, mask: bv32) {
    Tells(r.revents) && r.fd in m && Test(m[r.fd].bits, mask)
  }

  predicate SomeReport(m: map<int, Watch>, ready: seq<Ready>, mask: bv32) {
    exists r :: r in ready && Reports(m, r, mask)
  }

  lemma SomeReportSnoc(m: map<int, Watch>, ready: seq<Ready>, r: Ready, mask: bv32)
    ensures SomeReport(m, ready + [r], mask) <==> SomeReport(m, ready, mask) || Reports(m, r, mask)
  {
    hide Reports;
    assert r in ready + [r];
    assert forall x :: x in ready ==> x in ready + [r];
    assert forall x :: x in ready + [r] ==> x in ready || x == r;
  }

  /**
   After one poll a bit of the word is set exactly when it was set before or a descriptor that
   reported one of the five events is registered for it; the order of the events plays no part.
  */
  lemma {:induction false} GatheredExactly(m: map<int, Watch>, ready: seq<Ready>, bits: bv32, mask: bv32)
    ensures Test(Gathered(m, ready, bits), mask) <==> Test(bits, mask) || SomeReport(m, ready, mask)
    decreases |ready|
  {
    hide Recognised, Tells, Test, Or, SomeReport;
    if ready != [] {
      var init, r := ready[..|ready| - 1], ready[|ready| - 1];
      GatheredExactly(m, init, bits, mask);
      assert ready == init + [r];
      SomeReportSnoc(m, init, r, mask);
      RecognisedExactly(r.revents);
      if r.fd in m {
        OrTest(Gathered(m, init, bits), m[r.fd].bits, mask);
      }
    } else {
      assert !SomeReport(m, ready, mask) by {
        NoReport(m, mask);
      }
    }
  }

  lemma NoReport(m: map<int, Watch>, mask: bv32)
    ensures !SomeReport(m, [], mask)
  {}
}
