/**
 Why edge-triggered polling is enough, for the pipeline as a whole. The kernel raises an edge on a
 descriptor when the hardware completes a buffer behind it, and reports each edge once. Over any list of
 completions and turns of the main loop, host events included, whatever any of the six streams has
 completed and not handed out is behind an edge that the next poll reports, and that poll makes the pump
 run which takes it; and a frame that a pump cannot pass on yet waits for a buffer that the hardware has.
*/
module PipelineEdges {
  import opened Common
  import opened V4l2
  import opened Streams
  import opened Rings
  import opened Pumps
  import opened PumpRuns
  import opened PumpWakeups
  import opened Nodes
  import opened Polls
  import opened Pipelines
  import opened PipelineProofs
  import opened PipelineStarts

  /** The encoder has one descriptor for both of its streams. */
  function FdAt(f: Fds, at: Where): int {
    match at
    case CamOut => f.cam
    case IspIn => f.ispIn
    case IspOut => f.ispOut
    case EncIn => f.enc
    case EncOut => f.enc
    case UvcIn => f.uvc
  }

  /** Whether the pump at this stream is due. */
  predicate DueAt(due: Due, at: Where) {
    match at
    case CamOut => due.camToIsp
    case IspIn => due.camToIsp
    case IspOut => due.ispToEnc
    case EncIn => due.ispToEnc
    case EncOut => due.encToUvc
    case UvcIn => due.encToUvc
  }

  const NONE_DUE := Due(false, false, false)

  /** The stream has completed a buffer that nobody has taken yet. */
  predicate HasDone(p: Pipe, at: Where)
    requires Shape(p)
  {
    StreamAt(p, at).drv.done != []
  }

  // ---------- edges ----------

  /**
   The edges that one step raises: on each descriptor behind which a buffer completed meanwhile, and on
   each that has something to report when it is registered. A driver numbers its completions.
  */
  ghost function Raised(p: Pipe, q: Pipe): iset<int>
    requires Shape(p) && Shape(q)
  {
    (iset at: Where | StreamAt(p, at).drv.sequence < StreamAt(q, at).drv.sequence :: FdAt(p.fds, at))
    + (iset at: Where | NoPumps(p) && !NoPumps(q) && HasDone(q, at) :: FdAt(q.fds, at))
  }

  /** The edges that no poll has reported yet, after these steps. */
  ghost function EdgesAfter(p: Pipe, edges: iset<int>, steps: seq<Step>): iset<int>
    requires Shape(p)
    decreases |steps|
  {
    if steps == [] then edges else
      var (q, ok) := Take(p, steps[0]);
      if !ok then edges + Raised(p, q) else EdgesAfter(q, edges + Raised(p, q), steps[1..])
  }

  /** The event by which a stream tells that a buffer has completed. */
  function DataEvent(at: Where): bv32 {
    if at in {CamOut, IspOut, EncOut} then EPOLLIN else EPOLLOUT
  }

  /** The stream's descriptor is registered for that event. */
  predicate Reportable(p: Pipe, at: Where) {
    FdAt(p.fds, at) in p.watched && p.watched[FdAt(p.fds, at)].events & DataEvent(at) != 0
  }

  /** The descriptor has reported this event, perhaps among others. */
  predicate EventReported(ready: seq<Ready>, fd: int, event: bv32) {
    exists r :: r in ready && r.fd == fd && r.revents & event != 0
  }

  /**
   What epoll_wait promises: it reports registered descriptors only, and every one that has an edge, a
   stream with something completed, and a registration for the event that tells so.
  */
  ghost predicate PollReports(p: Pipe, edges: iset<int>, ready: seq<Ready>)
    requires Shape(p)
  {
    && (forall r :: r in ready ==> r.fd in p.watched)
    && forall at: Where :: HasDone(p, at) && FdAt(p.fds, at) in edges && Reportable(p, at) ==>
         EventReported(ready, FdAt(p.fds, at), DataEvent(at))
  }

  /** With the pumps' registrations every stream is reportable. */
  lemma FullWatchReports(p: Pipe, at: Where)
    requires DistinctFds(p.fds) && p.watched == FullWatch(p.fds)
    ensures Reportable(p, at)
  {}

  /** With the gadget's events alone none is. */
  lemma OnlyUvcReports(p: Pipe, at: Where)
    requires p.watched == OnlyUvc(p.fds)
    ensures !Reportable(p, at)
  {}

  /** The promise can be kept in every state of the pipeline. */
  lemma PollCanReport(p: Pipe, edges: iset<int>)
    requires Shape(p) && DistinctFds(p.fds) && WatchesRight(p)
    ensures exists ready :: PollReports(p, edges, ready)
  {
    hide Reportable, EventReported, DistinctFds;
    if NoPumps(p) {
      forall at: Where
        ensures !Reportable(p, at)
      {
        OnlyUvcReports(p, at);
      }
      assert PollReports(p, edges, []);
    } else {
      var ready := AllReady(p.fds);
      forall at: Where
        ensures EventReported(ready, FdAt(p.fds, at), DataEvent(at))
      {
        AllReported(p.fds, at);
      }
      assert forall r :: r in ready ==> r.fd in p.watched;
      assert PollReports(p, edges, ready);
    }
  }

  function AllReady(f: Fds): seq<Ready> {
    [Ready(f.cam, EPOLLIN), Ready(f.ispIn, EPOLLOUT), Ready(f.ispOut, EPOLLIN), Ready(f.enc, EPOLLIN | EPOLLOUT),
      Ready(f.uvc, EPOLLOUT)]
  }

  lemma AllReported(f: Fds, at: Where)
    ensures EventReported(AllReady(f), FdAt(f, at), DataEvent(at))
  {
    var r := Ready(FdAt(f, at), if at in {EncIn, EncOut} then EPOLLIN | EPOLLOUT else DataEvent(at));
    assert r.revents & DataEvent(at) != 0;
    assert r in AllReady(f);
  }

  /** Its data event is one of those that a poll takes notice of. */
  lemma EventTells(ready: seq<Ready>, fd: int, at: Where)
    requires EventReported(ready, fd, DataEvent(at))
    ensures ReportedOn(ready, fd, fd)
  {
    var r :| r in ready && r.fd == fd && r.revents & DataEvent(at) != 0;
    assert Tells(r.revents);
  }

  lemma DueBits(bits: bv32)
    ensures DueIn(bits) == Due(bits & 1 != 0, bits & 2 != 0, bits & 4 != 0)
  {}

  /** No ioctl of the two loops of a pump that is due fails. */
  ghost predicate PumpWorks(src: Stream, dst: Stream, i: Option<Installed>, due: bool) {
    due && i.Some? ==> LoopsWork(Sys(src, dst, i.value.pump, i.value.hist))
  }

  ghost predicate RoundWorks(p: Pipe, due: Due)
    requires Shape(p)
  {
    && PumpWorks(p.cam.output.value, p.isp.input.value, p.camToIsp, due.camToIsp)
    && PumpWorks(p.isp.output.value, p.enc.input.value, p.ispToEnc, due.ispToEnc)
    && PumpWorks(p.enc.output.value, p.uvc.input.value, p.encToUvc, due.encToUvc)
  }

  ghost predicate StepsWork(p: Pipe, steps: seq<Step>)
    requires Shape(p)
    decreases |steps|
  {
    steps != [] ==>
      && (steps[0].MainLoop? ==> RoundWorks(p, steps[0].due))
      && (Take(p, steps[0]).1 ==> StepsWork(Take(p, steps[0]).0, steps[1..]))
  }

  // ---------- what a pump call leaves behind ----------

  lemma {:induction false} CompleteAllCounts(d: Driver, fills: seq<Fill>)
    ensures d.sequence <= CompleteAll(d, fills).sequence
    decreases |fills|
  {
    if fills != [] {
      CompleteAllCounts(Complete(d, fills[0]), fills[1..]);
    }
  }

  lemma PullCounts(s: Stream)
    ensures s.drv.sequence <= Pull(s).0.drv.sequence
  {
    hide CompleteAll;
    if s.drv.tape != [] {
      CompleteAllCounts(s.drv.(tape := s.drv.tape[1..]), s.drv.tape[0].fills);
    }
  }

  lemma {:induction false} DrainDstCounts(y: Sys)
    ensures y.dst.drv.sequence <= DrainDst(y).0.dst.drv.sequence
    decreases |Held(y.dst.drv)|
  {
    hide Pull, PushIndex;
    PullCounts(y.dst);
    var (dst, got) := Pull(y.dst);
    if got.Some? {
      var (y1, o) := TakeBack(y, dst, got.value);
      if o == Code(0) {
        DrainDstCounts(y1);
      }
    }
  }

  /** A call that works leaves the source drained, and at the destination only what completed during the call. */
  lemma PumpedDrains(src: Stream, dst: Stream, i: Option<Installed>, due: bool)
    requires PairFits(src, dst) && PumpFits(src, dst, i) && PumpWorks(src, dst, i, due)
    ensures var (s, d, j, ok) := Pumped(src, dst, i, due);
      && j.Some? == i.Some?
      && (due && i.Some? ==> s.drv.done == [] && (d.drv.done != [] ==> dst.drv.sequence < d.drv.sequence))
      && (!due ==> s == src && d == dst)
  {
    hide StreamOk, PumpCall, Inv, Reached, LoopsWork, DrainDst;
    if i.Some? && due {
      var y := Sys(src, dst, i.value.pump, i.value.hist);
      ReachedInv(y);
      NoWakeupIsLost(y);
      DrainDstCounts(y);
      var e := PumpCall(y).0.dst.drv;
      if e.done != [] {
        assert e.done[0] in e.done;
      }
    }
  }

  // ---------- one step ----------

  predicate AllOrNone(p: Pipe) {
    NoPumps(p) || (p.camToIsp.Some? && p.ispToEnc.Some? && p.encToUvc.Some?)
  }

  /** While there are pumps, whatever has completed is behind an edge or about to be taken. */
  ghost predicate Awake(p: Pipe, edges: iset<int>, due: Due)
    requires Shape(p)
  {
    !NoPumps(p) ==> forall at: Where :: HasDone(p, at) ==> FdAt(p.fds, at) in edges || DueAt(due, at)
  }

  ghost predicate Attentive(p: Pipe, edges: iset<int>, due: Due) {
    && PipeOk(p) && Shape(p) && AllOrNone(p) && DistinctFds(p.fds) && WatchesRight(p)
    && Awake(p, edges, due)
  }

  /** The six streams after a round are those that the three calls leave behind. */
  lemma RoundStreams(p: Pipe, due: Due)
    requires Shape(p) && PumpRound(p, due).1
    ensures var q := PumpRound(p, due).0;
      var (c, i, e) := (Pumped(p.cam.output.value, p.isp.input.value, p.camToIsp, due.camToIsp),
                        Pumped(p.isp.output.value, p.enc.input.value, p.ispToEnc, due.ispToEnc),
                        Pumped(p.enc.output.value, p.uvc.input.value, p.encToUvc, due.encToUvc));
      && StreamAt(q, CamOut) == c.0 && StreamAt(q, IspIn) == c.1 && q.camToIsp == c.2
      && StreamAt(q, IspOut) == i.0 && StreamAt(q, EncIn) == i.1 && q.ispToEnc == i.2
      && StreamAt(q, EncOut) == e.0 && StreamAt(q, UvcIn) == e.1 && q.encToUvc == e.2
      && q.fds == p.fds
  {
    hide Pumped;
  }

  /** A round takes everything that it was due to take. */
  lemma RoundAwake(p: Pipe, edges: iset<int>, due: Due)
    requires Attentive(p, edges, due) && PumpRound(p, due).1 && RoundWorks(p, due)
    ensures var q := PumpRound(p, due).0;
      AllOrNone(q) && Awake(q, edges + Raised(p, q), NONE_DUE)
  {
    hide PairFits, PumpFits, Pumped, PumpRound, PumpWorks, WatchesRight, DistinctFds, AllStreaming;
    RoundStreams(p, due);
    RoundFits(p, due);
    PumpedDrains(p.cam.output.value, p.isp.input.value, p.camToIsp, due.camToIsp);
    PumpedDrains(p.isp.output.value, p.enc.input.value, p.ispToEnc, due.ispToEnc);
    PumpedDrains(p.enc.output.value, p.uvc.input.value, p.encToUvc, due.encToUvc);
    var q := PumpRound(p, due).0;
    if !NoPumps(q) {
      forall at: Where | HasDone(q, at)
        ensures FdAt(q.fds, at) in edges + Raised(p, q)
      {
        if DueAt(due, at) {
          assert StreamAt(p, at).drv.sequence < StreamAt(q, at).drv.sequence;
        } else {
          assert StreamAt(q, at) == StreamAt(p, at);
        }
      }
    }
  }

  lemma CompletionAwake(p: Pipe, edges: iset<int>, due: Due, at: Where, f: Fill)
    requires Shape(p) && Awake(p, edges, due) && (NoPumps(p) <==> NoPumps(Completed(p, at, f)))
    ensures var q := Completed(p, at, f); Awake(q, edges + Raised(p, q), due)
  {
    var q := Completed(p, at, f);
    if !NoPumps(q) {
      forall a: Where | HasDone(q, a)
        ensures FdAt(q.fds, a) in edges + Raised(p, q) || DueAt(due, a)
      {
        if !HasDone(p, a) {
          assert StreamAt(p, a).drv.sequence < StreamAt(q, a).drv.sequence;
        }
      }
    }
  }

  /** A STREAMON either changes nothing that matters or registers descriptors that report what they have. */
  lemma HostOnAwake(p: Pipe, edges: iset<int>, due: Due)
    requires Attentive(p, edges, due)
    ensures var q := Take(p, HostOn).0;
      AllOrNone(q) && Awake(q, edges + Raised(p, q), due)
  {
    hide PipeFits, PumpFits, PipelineStart, Prepare, WatchesRight, DistinctFds, StartCalls, RegisteredAll;
    StreamOnFits(p);
    PreparedOk(p);
    StartFits(PreparedPipe(p));
    var q := Take(p, HostOn).0;
    if NoPumps(p) && !NoPumps(q) {
      forall at: Where | HasDone(q, at)
        ensures FdAt(q.fds, at) in Raised(p, q)
      {}
    }
  }

  lemma StepAttentive(p: Pipe, edges: iset<int>, due: Due, step: Step)
    requires Attentive(p, edges, due) && Take(p, step).1
    requires step.MainLoop? ==> step.due == due && RoundWorks(p, due)
    ensures var q := Take(p, step).0;
      Attentive(q, edges + Raised(p, q), if step.MainLoop? then NONE_DUE else due)
  {
    hide PipeOk, AllOrNone, Awake, PumpRound, PipelineStop, StreamOnEvent, Completed, RoundTrips, RoundWorks,
      WatchesRight, DistinctFds;
    TakeFits(p, step);
    TakeWatches(p, step);
    match step
    case HostOn => HostOnAwake(p, edges, due);
    case HostOff => HostOffAwake(p, edges, due);
    case MainLoop(d) => RoundAwake(p, edges, due);
    case Completion(at, f) =>
      CompletedFits(p, at, f);
      CompletionAwake(p, edges, due, at, f);
      CompletedAllOrNone(p, at, f);
  }

  lemma CompletedAllOrNone(p: Pipe, at: Where, f: Fill)
    requires Shape(p) && AllOrNone(p)
    ensures AllOrNone(Completed(p, at, f))
  {}

  lemma HostOffAwake(p: Pipe, edges: iset<int>, due: Due)
    requires PipeOk(p)
    ensures Shape(p)
    ensures var q := PipelineStop(p); AllOrNone(q) && Awake(q, edges + Raised(p, q), due)
  {
    hide PipeOk, PipelineStop, Raised;
    PipeShape(p);
    StopFits(p);
  }

  // ---------- a turn of the main loop ----------

  /** Host events, or a completion, and then one round. */
  ghost predicate TurnSteps(steps: seq<Step>, due: Due) {
    && steps != [] && steps[|steps| - 1] == MainLoop(due)
    && forall i :: 0 <= i < |steps| - 1 ==> !steps[i].MainLoop?
  }

  lemma {:induction false} TurnAttentive(p: Pipe, edges: iset<int>, due: Due, steps: seq<Step>)
    requires Attentive(p, edges, due) && TurnSteps(steps, due) && StepsWork(p, steps) && TakeAll(p, steps).1
    ensures Attentive(TakeAll(p, steps).0, EdgesAfter(p, edges, steps), NONE_DUE)
    decreases |steps|
  {
    hide Attentive, Take, Raised, RoundWorks;
    AttentiveShape(p, edges, due);
    StepAttentive(p, edges, due, steps[0]);
    var (q, ok) := Take(p, steps[0]);
    if |steps| > 1 {
      TurnAttentive(q, edges + Raised(p, q), due, steps[1..]);
    } else {
      assert steps[1..] == [];
    }
  }

  lemma AttentiveShape(p: Pipe, edges: iset<int>, due: Due)
    requires Attentive(p, edges, due)
    ensures Shape(p)
  {}

  /** The poll that reports an edge makes the pump due which takes what is behind it. */
  lemma NextPollWakes(p: Pipe, edges: iset<int>, ready: seq<Ready>)
    requires Attentive(p, edges, NONE_DUE) && PollReports(p, edges, ready) && !NoPumps(p)
    ensures forall at: Where :: HasDone(p, at) ==> DueAt(DueIn(Gathered(p.watched, ready, 0)), at)
  {
    hide PipeOk, Gathered, DueIn, FullWatch, OnlyUvc, DistinctFds, Reportable;
    PumpsWakeUp(p.fds, ready);
    DueBits(Gathered(p.watched, ready, 0));
    forall at: Where | HasDone(p, at)
      ensures DueAt(DueIn(Gathered(p.watched, ready, 0)), at)
    {
      FullWatchReports(p, at);
      EventTells(ready, FdAt(p.fds, at), at);
    }
  }

  /** The poll takes all edges, and the pumps that it makes due answer for them. */
  lemma PollAttentive(p: Pipe, edges: iset<int>, ready: seq<Ready>)
    requires Attentive(p, edges, NONE_DUE) && PollReports(p, edges, ready)
    ensures Attentive(p, iset{}, DueIn(Gathered(p.watched, ready, 0)))
  {
    hide PipeOk, Gathered, WatchesRight, DistinctFds, DueIn;
    if !NoPumps(p) {
      NextPollWakes(p, edges, ready);
    }
  }

  lemma RoundIsTurn(events: seq<bool>, bits: bv32)
    ensures TurnSteps(RoundSteps(events, bits), DueIn(bits))
  {
    hide DueIn, Test;
    assert forall i :: 0 <= i < |events| ==> !EventSteps(events)[i].MainLoop?;
  }

  // ---------- any list of completions and turns ----------

  /** A completion between two turns, or a turn: what epoll_wait reports, and the events that the gadget has pending. */
  datatype Event = Finish(at: Where, fill: Fill) | Turn(ready: seq<Ready>, events: seq<bool>)

  /** What the event is to the pipeline. */
  function StepsAt(p: Pipe, e: Event): seq<Step> {
    match e
    case Finish(at, f) => [Completion(at, f)]
    case Turn(ready, events) => RoundSteps(events, Gathered(p.watched, ready, 0))
  }

  /** The pipeline and the edges not yet reported after an event; a poll takes all that there are. */
  ghost function Happened(p: Pipe, edges: iset<int>, e: Event): (Pipe, iset<int>, bool)
    requires Shape(p)
  {
    var (q, ok) := TakeAll(p, StepsAt(p, e));
    (q, EdgesAfter(p, if e.Turn? then iset{} else edges, StepsAt(p, e)), ok)
  }

  ghost function HappenedAll(p: Pipe, edges: iset<int>, es: seq<Event>): (r: (Pipe, iset<int>, bool))
    requires Shape(p)
    ensures Shape(r.0)
    decreases |es|
  {
    if es == [] then (p, edges, true) else
      var (q, after, ok) := Happened(p, edges, es[0]);
      if !ok then (q, after, false) else HappenedAll(q, after, es[1..])
  }

  /** epoll_wait keeps its promise in every turn, and no ioctl of a loop fails. */
  ghost predicate GoesWell(p: Pipe, edges: iset<int>, es: seq<Event>)
    requires Shape(p)
    decreases |es|
  {
    es != [] ==>
      && (es[0].Turn? ==> PollReports(p, edges, es[0].ready))
      && StepsWork(p, StepsAt(p, es[0]))
      && var (q, after, ok) := Happened(p, edges, es[0]); (ok ==> GoesWell(q, after, es[1..]))
  }

  lemma OneStep(p: Pipe, edges: iset<int>, step: Step)
    requires Shape(p)
    ensures TakeAll(p, [step]) == Take(p, step)
    ensures EdgesAfter(p, edges, [step]) == edges + Raised(p, Take(p, step).0)
  {
    hide Take, Raised;
    var (q, ok) := Take(p, step);
    assert [step][1..] == [];
    assert TakeAll(q, []) == (q, true);
  }

  lemma HappenedAttentive(p: Pipe, edges: iset<int>, e: Event)
    requires Attentive(p, edges, NONE_DUE) && Happened(p, edges, e).2
    requires (e.Turn? ==> PollReports(p, edges, e.ready)) && StepsWork(p, StepsAt(p, e))
    ensures var (q, after, ok) := Happened(p, edges, e); Attentive(q, after, NONE_DUE)
  {
    hide Attentive, Take, Raised, Gathered, DueIn, RoundSteps;
    AttentiveShape(p, edges, NONE_DUE);
    match e
    case Finish(at, f) =>
      OneStep(p, edges, Completion(at, f));
      StepAttentive(p, edges, NONE_DUE, Completion(at, f));
    case Turn(ready, events) =>
      var bits := Gathered(p.watched, ready, 0);
      PollAttentive(p, edges, ready);
      RoundIsTurn(events, bits);
      TurnAttentive(p, iset{}, DueIn(bits), RoundSteps(events, bits));
  }

  /**
   No wake-up is lost in the whole life of the pipeline: over any list of completions and turns, with any
   host events in them, as long as epoll_wait reports what it promises and no ioctl of a draining loop
   fails, whatever a stream has completed and not handed out is behind an edge not reported yet.
  */
  lemma {:induction false} NoEdgeIsLost(p: Pipe, edges: iset<int>, es: seq<Event>)
    requires Attentive(p, edges, NONE_DUE) && GoesWell(p, edges, es) && HappenedAll(p, edges, es).2
    ensures var (q, after, ok) := HappenedAll(p, edges, es);
      && Attentive(q, after, NONE_DUE)
      && (!NoPumps(q) ==> forall at: Where :: HasDone(q, at) ==> FdAt(q.fds, at) in after)
    decreases |es|
  {
    hide PipeOk, WatchesRight, DistinctFds, AllOrNone, Happened, StepsAt, StepsWork, PollReports;
    if es != [] {
      HappenedAttentive(p, edges, es[0]);
      var (q, after, ok) := Happened(p, edges, es[0]);
      NoEdgeIsLost(q, after, es[1..]);
    }
  }

  // ---------- no frame waits for ever ----------

  /** The pump has a frame pending only while the destination has the buffer that it needs. */
  ghost predicate PumpFed(src: Stream, dst: Stream, i: Option<Installed>) {
    i.Some? ==> HeadBusy(Sys(src, dst, i.value.pump, i.value.hist))
  }

  ghost predicate Fed(p: Pipe)
    requires Shape(p)
  {
    && PumpFed(p.cam.output.value, p.isp.input.value, p.camToIsp)
    && PumpFed(p.isp.output.value, p.enc.input.value, p.ispToEnc)
    && PumpFed(p.enc.output.value, p.uvc.input.value, p.encToUvc)
  }

  /** The call of a pump that is due loses no buffer, and its last QBUF meets no failure. */
  ghost predicate PumpClean(src: Stream, dst: Stream, i: Option<Installed>, due: bool) {
    due && i.Some? ==> CleanCall(Sys(src, dst, i.value.pump, i.value.hist))
  }

  ghost predicate RoundClean(p: Pipe, due: Due)
    requires Shape(p)
  {
    && PumpClean(p.cam.output.value, p.isp.input.value, p.camToIsp, due.camToIsp)
    && PumpClean(p.isp.output.value, p.enc.input.value, p.ispToEnc, due.ispToEnc)
    && PumpClean(p.enc.output.value, p.uvc.input.value, p.encToUvc, due.encToUvc)
  }

  ghost predicate StepsClean(p: Pipe, steps: seq<Step>)
    requires Shape(p)
    decreases |steps|
  {
    steps != [] ==>
      && (steps[0].MainLoop? ==> RoundClean(p, steps[0].due))
      && (Take(p, steps[0]).1 ==> StepsClean(Take(p, steps[0]).0, steps[1..]))
  }

  lemma PumpedFed(src: Stream, dst: Stream, i: Option<Installed>, due: bool)
    requires PumpFits(src, dst, i) && PumpFed(src, dst, i) && PumpClean(src, dst, i, due)
    ensures var (s, d, j, ok) := Pumped(src, dst, i, due); ok ==> PumpFed(s, d, j)
  {
    hide PumpCall, Inv, Reached, HeadBusy, CleanCall;
    if i.Some? && due {
      var y := Sys(src, dst, i.value.pump, i.value.hist);
      ReachedInv(y);
      if PumpCall(y).1 != Abort {
        MovedHeadBusy(y, CallPump);
      }
    }
  }

  lemma CompletionFed(src: Stream, dst: Stream, i: Option<Installed>, f: Fill)
    requires PumpFits(src, dst, i) && PumpFed(src, dst, i)
    ensures PumpFed(Finished(src, f), dst, i) && PumpFed(src, Finished(dst, f), i)
  {
    hide Complete, Inv, Reached, HeadBusy;
    if i.Some? {
      var y := Sys(src, dst, i.value.pump, i.value.hist);
      ReachedInv(y);
      MovedHeadBusy(y, SourceDone(f));
      MovedHeadBusy(y, DestDone(f));
    }
  }

  lemma FreshFed(src: Stream, dst: Stream)
    ensures PumpFed(src, dst, Install(src, dst))
  {
    hide FindPass;
  }

  lemma HostOnFed(p: Pipe)
    requires PipeOk(p) && Fed(p)
    ensures Fed(Take(p, HostOn).0)
  {
    hide PipeFits, PumpFits, PumpFed, StartNodes, Prepare, Install, StartCalls, RegisteredAll;
    StreamOnFits(p);
    PreparedOk(p);
    StartFits(PreparedPipe(p));
    var q := Take(p, HostOn).0;
    FreshFed(q.cam.output.value, q.isp.input.value);
    FreshFed(q.isp.output.value, q.enc.input.value);
    FreshFed(q.enc.output.value, q.uvc.input.value);
    if NoPumps(q) {
      NoneFed(q);
    }
  }

  lemma NoneFed(p: Pipe)
    requires Shape(p) && NoPumps(p)
    ensures Fed(p)
  {}

  lemma RoundFed(p: Pipe, due: Due)
    requires PipeOk(p) && Fed(p) && RoundClean(p, due) && PumpRound(p, due).1
    ensures Fed(PumpRound(p, due).0)
  {
    hide PipeFits, PumpFits, PumpFed, PumpClean, Pumped, PumpRound, AllStreaming;
    RoundStreams(p, due);
    PumpedFed(p.cam.output.value, p.isp.input.value, p.camToIsp, due.camToIsp);
    PumpedFed(p.isp.output.value, p.enc.input.value, p.ispToEnc, due.ispToEnc);
    PumpedFed(p.enc.output.value, p.uvc.input.value, p.encToUvc, due.encToUvc);
    RoundSurvives(p, due);
  }

  lemma RoundSurvives(p: Pipe, due: Due)
    requires Shape(p) && PumpRound(p, due).1
    ensures Pumped(p.cam.output.value, p.isp.input.value, p.camToIsp, due.camToIsp).3
    ensures Pumped(p.isp.output.value, p.enc.input.value, p.ispToEnc, due.ispToEnc).3
    ensures Pumped(p.enc.output.value, p.uvc.input.value, p.encToUvc, due.encToUvc).3
  {
    hide Pumped;
  }

  lemma StepFed(p: Pipe, step: Step)
    requires PipeOk(p) && Shape(p) && Fed(p) && Take(p, step).1 && (step.MainLoop? ==> RoundClean(p, step.due))
    ensures Fed(Take(p, step).0)
  {
    hide PipeFits, PumpFits, PumpFed, PumpRound, StreamOnEvent, RoundClean, Complete, NodeStop, RegisteredAll,
      StopCalls,
      AllStreaming;
    match step
    case HostOn => HostOnFed(p);
    case HostOff => NoneFed(PipelineStop(p));
    case MainLoop(due) => RoundFed(p, due);
    case Completion(at, f) =>
      CompletionFed(p.cam.output.value, p.isp.input.value, p.camToIsp, f);
      CompletionFed(p.isp.output.value, p.enc.input.value, p.ispToEnc, f);
      CompletionFed(p.enc.output.value, p.uvc.input.value, p.encToUvc, f);
  }

  lemma {:induction false} StepsFed(p: Pipe, steps: seq<Step>)
    requires PipeOk(p) && Shape(p) && Fed(p) && StepsClean(p, steps) && TakeAll(p, steps).1
    ensures Fed(TakeAll(p, steps).0)
    decreases |steps|
  {
    hide PipeOk, Fed, Take, RoundClean, RoundTrips;
    if steps != [] {
      TakeFits(p, steps[0]);
      StepFed(p, steps[0]);
      var q := Take(p, steps[0]).0;
      PipeShape(q);
      StepsFed(q, steps[1..]);
    }
  }

  /** All calls of the pumps in these events are clean ones. */
  ghost predicate GoesCleanly(p: Pipe, edges: iset<int>, es: seq<Event>)
    requires Shape(p)
    decreases |es|
  {
    es != [] ==>
      && StepsClean(p, StepsAt(p, es[0]))
      && var (q, after, ok) := Happened(p, edges, es[0]); (ok ==> GoesCleanly(q, after, es[1..]))
  }

  lemma {:induction false} EventsFed(p: Pipe, edges: iset<int>, es: seq<Event>)
    requires PipeOk(p) && Shape(p) && Fed(p) && GoesCleanly(p, edges, es) && HappenedAll(p, edges, es).2
    ensures Fed(HappenedAll(p, edges, es).0)
    decreases |es|
  {
    hide PipeOk, Fed, StepsAt, StepsClean, TakeAll, EdgesAfter, TripsAt;
    if es != [] {
      var (q, after, ok) := Happened(p, edges, es[0]);
      StepsFed(p, StepsAt(p, es[0]));
      PipelineLives(p, StepsAt(p, es[0]));
      PipeShape(q);
      EventsFed(q, after, es[1..]);
    }
  }

  /**
   What a pending frame waits for: the destination buffer that it needs is queued with the hardware, or
   some buffer of the destination has completed and an edge tells the next poll so.
  */
  ghost predicate WaitsForEvent(p: Pipe, edges: iset<int>, at: Where, i: Option<Installed>)
    requires Shape(p)
  {
    i.Some? && i.value.pump.next >= 0 && i.value.pump.acquired != [] ==>
      && var ring := i.value.pump.available;
      && RingOk(ring) && Contents(ring) != []
      && ((exists b :: b in StreamAt(p, at).drv.queued && b.index == Contents(ring)[0])
          || (HasDone(p, at) && FdAt(p.fds, at) in edges))
  }

  lemma FedWaits(p: Pipe, edges: iset<int>, at: Where, src: Stream, i: Option<Installed>)
    requires Shape(p) && PumpFed(src, StreamAt(p, at), i) && (HasDone(p, at) ==> FdAt(p.fds, at) in edges)
    ensures WaitsForEvent(p, edges, at, i)
  {
    hide InFlight, Contents;
    if i.Some? && i.value.pump.next >= 0 && i.value.pump.acquired != [] {
      QueuedOrDone(StreamAt(p, at).drv, Contents(i.value.pump.available)[0]);
    }
  }

  /**
   No frame waits for ever: over any list of completions and turns that go well and cleanly, a frame that
   is pending in one of the pumps waits for an event that is certain to be reported.
  */
  lemma NoFrameIsStuck(p: Pipe, edges: iset<int>, es: seq<Event>)
    requires Attentive(p, edges, NONE_DUE) && Shape(p) && Fed(p)
    requires GoesWell(p, edges, es) && GoesCleanly(p, edges, es) && HappenedAll(p, edges, es).2
    ensures var (q, after, ok) := HappenedAll(p, edges, es);
      && WaitsForEvent(q, after, IspIn, q.camToIsp)
      && WaitsForEvent(q, after, EncIn, q.ispToEnc)
      && WaitsForEvent(q, after, UvcIn, q.encToUvc)
  {
    hide PipeOk, WatchesRight, DistinctFds, AllOrNone, HappenedAll, GoesWell, GoesCleanly, PumpFed, WaitsForEvent;
    NoEdgeIsLost(p, edges, es);
    EventsFed(p, edges, es);
    var (q, after, ok) := HappenedAll(p, edges, es);
    if NoPumps(q) {
      NoneWaits(q, after);
    } else {
      FedWaits(q, after, IspIn, q.cam.output.value, q.camToIsp);
      FedWaits(q, after, EncIn, q.isp.output.value, q.ispToEnc);
      FedWaits(q, after, UvcIn, q.enc.output.value, q.encToUvc);
    }
  }

  lemma NoneWaits(p: Pipe, edges: iset<int>)
    requires Shape(p) && NoPumps(p)
    ensures WaitsForEvent(p, edges, IspIn, p.camToIsp)
    ensures WaitsForEvent(p, edges, EncIn, p.ispToEnc)
    ensures WaitsForEvent(p, edges, UvcIn, p.encToUvc)
  {}

  // ---------- drivers that fail nothing ----------

  lemma PumpedWorks(src: Stream, dst: Stream, i: Option<Installed>, due: bool)
    requires PumpFits(src, dst, i) && NothingFails(src.drv.tape) && NothingFails(dst.drv.tape)
    ensures PumpWorks(src, dst, i, due) && PumpClean(src, dst, i, due)
    ensures var (s, d, j, ok) := Pumped(src, dst, i, due); NothingFails(s.drv.tape) && NothingFails(d.drv.tape)
  {
    hide PumpCall, NothingFails, LoopsWork, CleanCall, Reached, Inv;
    if i.Some? {
      var y := Sys(src, dst, i.value.pump, i.value.hist);
      ReachedInv(y);
      NothingFailsWorks(y);
      NothingFailsClean(y);
      CallTapes(y);
    }
  }

  lemma StepWorks(p: Pipe, step: Step)
    requires PipeOk(p) && PipeWorks(p)
    ensures step.MainLoop? ==> RoundWorks(p, step.due) && RoundClean(p, step.due)
    ensures Take(p, step).1 ==> PipeWorks(Take(p, step).0)
  {
    hide PipeFits, PumpFits, PumpRound, PumpWorks, PumpClean, PipelineStart, PipelineStop, NothingFails, Pumped,
      Prepare, Complete, AllStreaming;
    match step
    case HostOn =>
      PreparedWorks(p);
      StartWorks(PreparedPipe(p));
    case HostOff => StopWorks(p);
    case MainLoop(due) =>
      PumpedWorks(p.cam.output.value, p.isp.input.value, p.camToIsp, due.camToIsp);
      PumpedWorks(p.isp.output.value, p.enc.input.value, p.ispToEnc, due.ispToEnc);
      PumpedWorks(p.enc.output.value, p.uvc.input.value, p.encToUvc, due.encToUvc);
      if PumpRound(p, due).1 {
        RoundStreams(p, due);
        SameSides(p, due);
      }
    case Completion(at, f) =>
  }

  lemma SameSides(p: Pipe, due: Due)
    requires Shape(p)
    ensures var q := PumpRound(p, due).0;
      q.cam.input == p.cam.input && q.uvc.output == p.uvc.output
  {
    hide Pumped;
  }

  /** When the drivers fail nothing, all loops work and all calls are clean, in every step, and that stays so. */
  lemma {:induction false} WorksWhenNothingFails(p: Pipe, steps: seq<Step>)
    requires PipeOk(p) && PipeWorks(p)
    ensures Shape(p) && StepsWork(p, steps) && StepsClean(p, steps)
    ensures TakeAll(p, steps).1 ==> PipeOk(TakeAll(p, steps).0) && PipeWorks(TakeAll(p, steps).0)
    decreases |steps|
  {
    hide PipeOk, PipeWorks, Take, RoundWorks, RoundClean, RoundTrips;
    PipeShape(p);
    if steps != [] {
      TakeFits(p, steps[0]);
      StepWorks(p, steps[0]);
      if Take(p, steps[0]).1 {
        WorksWhenNothingFails(Take(p, steps[0]).0, steps[1..]);
      }
    }
  }

  /** epoll_wait keeps its promise in every turn. */
  ghost predicate PollsReport(p: Pipe, edges: iset<int>, es: seq<Event>)
    requires Shape(p)
    decreases |es|
  {
    es != [] ==>
      && (es[0].Turn? ==> PollReports(p, edges, es[0].ready))
      && var (q, after, ok) := Happened(p, edges, es[0]); (ok ==> PollsReport(q, after, es[1..]))
  }

  lemma {:induction false} PromiseIsEnough(p: Pipe, edges: iset<int>, es: seq<Event>)
    requires PipeOk(p) && PipeWorks(p) && Shape(p) && PollsReport(p, edges, es)
    ensures GoesWell(p, edges, es) && GoesCleanly(p, edges, es)
    decreases |es|
  {
    hide PipeOk, PipeWorks, StepsAt, StepsWork, StepsClean, PollReports, TakeAll, EdgesAfter;
    if es != [] {
      WorksWhenNothingFails(p, StepsAt(p, es[0]));
      var (q, after, ok) := Happened(p, edges, es[0]);
      if ok {
        PromiseIsEnough(q, after, es[1..]);
      }
    }
  }

  /**
   The same for drivers that fail nothing: epoll's promise is all it takes. Over any list of completions
   and turns, with any host events in them, no edge is lost and no frame waits for ever.
  */
  lemma PipelineStaysAwake(p: Pipe, edges: iset<int>, es: seq<Event>)
    requires Attentive(p, edges, NONE_DUE) && Shape(p) && Fed(p) && PipeWorks(p)
    requires PollsReport(p, edges, es) && HappenedAll(p, edges, es).2
    ensures var (q, after, ok) := HappenedAll(p, edges, es);
      && (!NoPumps(q) ==> forall at: Where :: HasDone(q, at) ==> FdAt(q.fds, at) in after)
      && WaitsForEvent(q, after, IspIn, q.camToIsp)
      && WaitsForEvent(q, after, EncIn, q.ispToEnc)
      && WaitsForEvent(q, after, UvcIn, q.encToUvc)
  {
    hide PipeOk, PipeWorks, WatchesRight, DistinctFds, AllOrNone, Fed, HappenedAll, GoesWell, GoesCleanly, PollsReport,
      WaitsForEvent;
    PromiseIsEnough(p, edges, es);
    NoEdgeIsLost(p, edges, es);
    NoFrameIsStuck(p, edges, es);
  }

  /** A pipeline without pumps, such as a freshly opened one, is where this begins. */
  lemma BeginsAwake(p: Pipe, edges: iset<int>)
    requires PipeOk(p) && NoPumps(p) && DistinctFds(p.fds) && WatchesRight(p)
    ensures Attentive(p, edges, NONE_DUE) && Fed(p)
  {
    hide PipeFits, WatchesRight, DistinctFds;
  }
}
