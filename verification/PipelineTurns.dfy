/**
 One turn of the main loop, from the word that the poll has gathered: first the host's pending events, if
 the bit of the gadget's events is set, and then the pumps whose bits are set, as far as they exist then.
*/
module PipelineTurns {
  import opened Streams
  import opened Pumps
  import opened Nodes
  import opened Polls
  import opened Pipelines
  import opened PipelineProofs
  import opened PipelineStarts

  /** The pending events, one after the other: a STREAMON starts the pipeline and a STREAMOFF stops it. */
  function EventsHandled(p: Pipe, events: seq<bool>): (r: Pipe)
    requires Shape(p)
    ensures Shape(r)
    decreases |events|
  {
    if events == [] then p else
      EventsHandled(if events[0] then StreamOnEvent(p).0 else PipelineStop(p), events[1..])
  }

  lemma NoEvents(p: Pipe)
    requires Shape(p)
    ensures EventsHandled(p, []) == p
  {}

  /** What is left of the steps of a turn when the events are handled. */
  lemma {:induction false} EventsAreSteps(p: Pipe, events: seq<bool>, rest: seq<Step>)
    requires Shape(p)
    ensures TakeAll(p, EventSteps(events) + rest) == TakeAll(EventsHandled(p, events), rest)
    decreases |events|
  {
    hide StreamOnEvent, PipelineStop, PumpRound;
    var steps := EventSteps(events) + rest;
    if events == [] {
      assert steps == rest;
    } else {
      assert steps[1..] == EventSteps(events[1..]) + rest;
      EventsAreSteps(Take(p, steps[0]).0, events[1..], rest);
    }
  }

  /** A turn, bit by bit. */
  lemma TurnIs(p: Pipe, events: seq<bool>, bits: bv32)
    requires Shape(p)
    ensures TakeAll(p, RoundSteps(events, bits))
         == PumpRound(if bits & 8 != 0 then EventsHandled(p, events) else p,
                      Due(bits & 1 != 0, bits & 2 != 0, bits & 4 != 0))
  {
    hide StreamOnEvent, PipelineStop, PumpRound, EventSteps, EventsHandled;
    var round := [MainLoop(DueIn(bits))];
    EventsAreSteps(p, events, round);
    RoundAlone(if bits & 8 != 0 then EventsHandled(p, events) else p, DueIn(bits));
    assert [] + round == round;
  }

  lemma RoundAlone(p: Pipe, due: Due)
    requires Shape(p)
    ensures TakeAll(p, [MainLoop(due)]) == PumpRound(p, due)
  {
    hide PumpRound;
    assert [MainLoop(due)][1..] == [];
  }

  lemma {:induction false} EventsOk(p: Pipe, events: seq<bool>)
    requires PipeOk(p) && Shape(p)
    ensures PipeOk(EventsHandled(p, events))
    decreases |events|
  {
    hide PipeOk, StreamOnEvent, PipelineStop;
    if events != [] {
      StreamOnFits(p);
      StopFits(p);
      EventsOk(if events[0] then StreamOnEvent(p).0 else PipelineStop(p), events[1..]);
    }
  }

  lemma {:induction false} LastEvent(p: Pipe, events: seq<bool>, last: bool)
    requires Shape(p)
    ensures var q := EventsHandled(p, events);
      EventsHandled(p, events + [last]) == if last then StreamOnEvent(q).0 else PipelineStop(q)
    decreases |events|
  {
    hide StreamOnEvent, PipelineStop;
    if events == [] {
      assert ([] + [last])[1..] == [];
    } else {
      assert (events + [last])[1..] == events[1..] + [last];
      LastEvent(if events[0] then StreamOnEvent(p).0 else PipelineStop(p), events[1..], last);
    }
  }

  predicate AllPumps(p: Pipe) {
    p.camToIsp.Some? && p.ispToEnc.Some? && p.encToUvc.Some?
  }

  lemma RoundKeepsPumps(p: Pipe, due: Due)
    requires Shape(p) && AllPumps(p)
    ensures AllPumps(PumpRound(p, due).0)
  {
    hide PumpCall;
  }

  /**
   The host's STREAMON starts the pipeline: after a turn with the event bit set whose last event is a
   STREAMON that five streams and the gadget can follow, all three pumps exist.
  */
  lemma TurnStarts(p: Pipe, events: seq<bool>, bits: bv32)
    requires PipeOk(p) && Shape(p) && bits & 8 != 0
    requires FiveCanStart(EventsHandled(p, events)) && GadgetStarts(EventsHandled(p, events).uvc.input.value)
    ensures AllPumps(TakeAll(p, RoundSteps(events + [true], bits)).0)
  {
    hide PipeOk, FiveCanStart, GadgetStarts, StreamOnEvent, PipelineStop, PumpRound, EventsHandled, PipelineStart;
    var q := EventsHandled(p, events);
    EventsOk(p, events);
    StreamOnExactly(q);
    PreparedOk(q);
    StartFits(PreparedPipe(q));
    LastEvent(p, events, true);
    TurnIs(p, events + [true], bits);
    RoundKeepsPumps(StreamOnEvent(q).0, Due(bits & 1 != 0, bits & 2 != 0, bits & 4 != 0));
  }

  /**
   The host's STREAMOFF stops it: after a turn with the event bit set whose last event is a STREAMOFF there
   is no pump, and none has run since: the turn leaves what the stop left.
  */
  lemma TurnStops(p: Pipe, events: seq<bool>, bits: bv32)
    requires PipeOk(p) && Shape(p) && bits & 8 != 0
    ensures var (q, ok) := TakeAll(p, RoundSteps(events + [false], bits));
      ok && NoPumps(q) && q == PipelineStop(EventsHandled(p, events))
  {
    hide PipeOk, StreamOnEvent, PipelineStop, PumpRound, EventsHandled;
    var q := EventsHandled(p, events);
    EventsOk(p, events);
    StopFits(q);
    LastEvent(p, events, false);
    TurnIs(p, events + [false], bits);
    RoundFits(PipelineStop(q), Due(bits & 1 != 0, bits & 2 != 0, bits & 4 != 0));
  }

  // ---------- a start that fails part-way ----------

  predicate NodeStreams(n: Node) {
    (n.output.Some? ==> n.output.value.state == Streaming) && (n.input.Some? ==> n.input.value.state == Streaming)
  }

  lemma NodeStreamsAfterStart(n: Node)
    requires NodeOk(n) && NodeStart(n).1 == 0
    ensures NodeStreams(NodeStart(n).0)
  {
    hide StreamOk, NodeStart;
    NodeStartKeeps(n);
  }

  /**
   Where a start stops: the nodes are started from the gadget backwards to the camera, each only when all
   before it stream. At the first refusal the nodes before it stay started, and those after it are untouched.
  */
  lemma StartsFromTheEnd(p: Pipe)
    requires PipeOk(p) && Shape(p)
    ensures var (q, code) := PipelineStart(p);
      var u, e, i, c := NodeStart(p.uvc).1, NodeStart(p.enc).1, NodeStart(p.isp).1, NodeStart(p.cam).1;
      && code == (if u == 0 && e == 0 && i == 0 && c == 0 then 0 else 1)
      && (u != 0 ==> q == p.(uvc := q.uvc))
      && (u == 0 && e != 0 ==> NodeStreams(q.uvc) && q == p.(uvc := q.uvc, enc := q.enc))
      && (u == 0 && e == 0 && i != 0 ==>
            NodeStreams(q.uvc) && NodeStreams(q.enc) && q == p.(uvc := q.uvc, enc := q.enc, isp := q.isp))
      && (u == 0 && e == 0 && i == 0 ==>
            && NodeStreams(q.uvc) && NodeStreams(q.enc) && NodeStreams(q.isp)
            && (c != 0 ==> q == p.(uvc := q.uvc, enc := q.enc, isp := q.isp, cam := q.cam)))
  {
    hide PipeOk, NodeOk, NodeStart, NodeStreams, Install, RegisteredAll, StartCalls;
    NodesOfPipe(p);
    if NodeStart(p.uvc).1 == 0 {
      NodeStreamsAfterStart(p.uvc);
    }
    if NodeStart(p.enc).1 == 0 {
      NodeStreamsAfterStart(p.enc);
    }
    if NodeStart(p.isp).1 == 0 {
      NodeStreamsAfterStart(p.isp);
    }
  }

  lemma NodesOfPipe(p: Pipe)
    requires PipeOk(p)
    ensures NodeOk(p.cam) && NodeOk(p.isp) && NodeOk(p.enc) && NodeOk(p.uvc)
  {
    hide PumpFits;
    NodesAreOk(p);
  }
}
