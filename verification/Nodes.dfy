/**
 A node of src/Node.c as a value: an optional capture stream and an optional output stream that
 start and stop together.
*/
module Nodes {
  import opened Common
  import opened V4l2
  import opened Streams
  import opened PumpOwnership

  /** `output` produces buffers (V4L2 CAPTURE), `input` consumes them (V4L2 OUTPUT). */
  datatype Node = Node(output: Option<Stream>, input: Option<Stream>)

  function StartIfAny(s: Option<Stream>): (r: (Option<Stream>, int))
    ensures r.0.Some? == s.Some?
  {
    match s
    case None => (None, 0)
    case Some(st) => var (t, code) := Start(st); (Some(t), code)
  }

  function StopIfAny(s: Option<Stream>): (r: (Option<Stream>, int))
    ensures r.0.Some? == s.Some?
  {
    match s
    case None => (None, 0)
    case Some(st) => var (t, code) := Stop(st); (Some(t), code)
  }

  /** nodeStart: when the input does not start, the output is stopped again, and that may fail unnoticed. */
  function NodeStart(n: Node): (r: (Node, int))
    ensures r.0.output.Some? == n.output.Some? && r.0.input.Some? == n.input.Some?
  {
    var (o, code) := StartIfAny(n.output);
    if code != 0 then (n.(output := o), code) else
      var (i, code) := StartIfAny(n.input);
      if code != 0 then (Node(StopIfAny(o).0, i), code) else (Node(o, i), 0)
  }

  /** nodeStop. */
  function NodeStop(n: Node): (r: (Node, int))
    ensures r.0.output.Some? == n.output.Some? && r.0.input.Some? == n.input.Some?
  {
    var (o, c1) := StopIfAny(n.output);
    var (i, c2) := StopIfAny(n.input);
    (Node(o, i), if c1 != 0 then c1 else c2)
  }

  /** The streams are consistent, the right way round, and a capture stream knows how many buffers it has. */
  ghost predicate NodeOk(n: Node) {
    && (n.output.Some? ==> StreamOk(n.output.value) && n.output.value.capture && CountExact(n.output.value))
    && (n.input.Some? ==> StreamOk(n.input.value) && !n.input.value.capture)
  }

  /** Only the driver and the state of the stream differ. */
  predicate SameStream(s: Option<Stream>, t: Option<Stream>) {
    && s.Some? == t.Some?
    && (s.Some? ==> t.value == s.value.(drv := t.value.drv, state := t.value.state))
  }

  predicate SameNode(n: Node, m: Node) {
    SameStream(n.output, m.output) && SameStream(n.input, m.input)
  }

  function StateOf(s: Option<Stream>): State {
    if s.Some? then s.value.state else Idle
  }

  predicate SameStates(n: Node, m: Node) {
    StateOf(n.output) == StateOf(m.output) && StateOf(n.input) == StateOf(m.input)
  }

  ghost predicate StartedOutput(s: Stream) {
    Running(s) && multiset(InFlight(s.drv)) == multiset(Iota(|s.buffers.value|))
  }

  ghost predicate StartedInput(s: Stream) {
    Running(s) && Held(s.drv) == []
  }

  lemma StartedStream(s: Stream)
    requires StreamOk(s) && (s.capture ==> CountExact(s)) && Start(s).1 == 0
    ensures if s.capture then StartedOutput(Start(s).0) else StartedInput(Start(s).0)
  {
    hide DriverOk, InFlight, Start, BuffersOk;
    StartKeeps(s);
  }

  /**
   Starting a node keeps its streams consistent. A node that starts has a capture stream that gave
   all its buffers away and an output stream that gave none.
  */
  lemma NodeStartKeeps(n: Node)
    requires NodeOk(n)
    ensures var (m, code) := NodeStart(n);
      && NodeOk(m) && SameNode(n, m)
      && (code == 0 && n.output.Some? ==> StartedOutput(m.output.value))
      && (code == 0 && n.input.Some? ==> StartedInput(m.input.value))
      && (code == 0 ==>
            && (n.output.Some? ==> n.output.value.state == Prepared)
            && (n.input.Some? ==> n.input.value.state == Prepared))
  {
    hide StreamOk, Start, Stop, StartedOutput, StartedInput;
    if n.output.Some? {
      StartKeeps(n.output.value);
      StopKeeps(Start(n.output.value).0);
      if Start(n.output.value).1 == 0 {
        StartedStream(n.output.value);
      }
    }
    if n.input.Some? {
      StartKeeps(n.input.value);
      if Start(n.input.value).1 == 0 {
        StartedStream(n.input.value);
      }
    }
  }

  /**
   A node start that fails leaves the states as they were, except in one case: the output was
   started, the input refused, and the STREAMOFF that rolls the output back fails.
  */
  lemma StartAllOrNothing(n: Node)
    requires NodeOk(n) && NodeStart(n).1 != 0
    ensures SameStates(n, NodeStart(n).0) <==>
      StartIfAny(n.output).1 != 0 || StopIfAny(StartIfAny(n.output).0).1 == 0
  {
    hide StreamOk, Start, Stop;
    if n.output.Some? {
      StartKeeps(n.output.value);
      StopKeeps(Start(n.output.value).0);
    }
    if n.input.Some? {
      StartKeeps(n.input.value);
    }
  }

  lemma NodeStopKeeps(n: Node)
    requires NodeOk(n)
    ensures var (m, code) := NodeStop(n);
      && NodeOk(m) && SameNode(n, m)
      && (code == 0 ==> StateOf(m.output) != Streaming && StateOf(m.input) != Streaming)
  {
    hide StreamOk, Stop;
    if n.output.Some? {
      StopKeeps(n.output.value);
    }
    if n.input.Some? {
      StopKeeps(n.input.value);
    }
  }

  /** The answer of a stream that may not be there. */
  function StartCode(s: Option<Stream>): int {
    if s.Some? then Start(s.value).1 else 0
  }

  function StopCode(s: Option<Stream>): int {
    if s.Some? then Stop(s.value).1 else 0
  }

  /**
   The order in which a node starts: the output first, and if it refuses, the input is not touched; then the
   input, and if that refuses, the output is stopped again. The answer is that of the stream that refused.
  */
  lemma StartOrder(n: Node)
    ensures var (m, code) := NodeStart(n);
      && code == (if StartCode(n.output) != 0 then StartCode(n.output) else StartCode(n.input))
      && (StartCode(n.output) != 0 ==> m.input == n.input)
      && (StartCode(n.output) == 0 && n.input.Some? ==> m.input == Some(Start(n.input.value).0))
      && (n.output.Some? ==>
            var started := Start(n.output.value).0;
            m.output == Some(if StartCode(n.output) == 0 && StartCode(n.input) != 0 then Stop(started).0 else started))
  {
    hide Start, Stop;
  }

  /** A stop stops both streams, whatever the first one answers, and reports the first answer that is not 0. */
  lemma StopOrder(n: Node)
    ensures var (m, code) := NodeStop(n);
      && code == (if StopCode(n.output) != 0 then StopCode(n.output) else StopCode(n.input))
      && (n.output.Some? ==> m.output == Some(Stop(n.output.value).0))
      && (n.input.Some? ==> m.input == Some(Stop(n.input.value).0))
  {
    hide Stop;
  }
}
