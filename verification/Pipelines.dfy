/**
 The camera pipeline of src/main.c as a value: four nodes, three pumps between them, and the
 descriptors that are watched. Its runs are lists of steps: the host switches streaming on or off,
 the main loop runs the pumps, or the hardware completes a buffer.
*/
module Pipelines {
  import opened Common
  import opened V4l2
  import opened Streams
  import opened Pumps
  import opened Nodes
  import opened Polls

  const CAM_TO_ISP_BIT: bv32 := 1
  const ISP_TO_ENC_BIT: bv32 := 2
  const ENC_TO_UVC_BIT: bv32 := 4
  const UVC_EVENTS_BIT: bv32 := 8

  /** uvcPrepare asks for the same thing at every STREAMON. */
  const UVC_OPTS := PrepareOpts(DmabufImport, 3, true)

  datatype Fds = Fds(cam: int, ispIn: int, ispOut: int, enc: int, uvc: int)

  /** A pump together with what it has done so far. */
  datatype Installed = Installed(pump: Pump, hist: History)

  datatype Pipe = Pipe(
    cam: Node, isp: Node, enc: Node, uvc: Node,
    camToIsp: Option<Installed>, ispToEnc: Option<Installed>, encToUvc: Option<Installed>,
    watched: map<int, Watch>, fds: Fds)

  /** The camera only produces, the gadget only consumes. */
  predicate Shape(p: Pipe) {
    && p.cam.output.Some? && p.cam.input.None?
    && p.isp.output.Some? && p.isp.input.Some?
    && p.enc.output.Some? && p.enc.input.Some?
    && p.uvc.output.None? && p.uvc.input.Some?
  }

  function StartCalls(f: Fds): seq<Call> {
    [Call(f.cam, Watch(POLLIN_FD_READ | POLLIN_FD_WRITE, CAM_TO_ISP_BIT)),
     Call(f.ispIn, Watch(POLLIN_FD_READ | POLLIN_FD_WRITE, CAM_TO_ISP_BIT)),
     Call(f.ispOut, Watch(POLLIN_FD_READ | POLLIN_FD_WRITE, ISP_TO_ENC_BIT)),
     Call(f.enc, Watch(POLLIN_FD_READ | POLLIN_FD_WRITE, ISP_TO_ENC_BIT | ENC_TO_UVC_BIT)),
     Call(f.uvc, Watch(POLLIN_FD_EXCEPT | POLLIN_FD_WRITE | POLLIN_FD_READ, ENC_TO_UVC_BIT | UVC_EVENTS_BIT))]
  }

  const UVC_WATCH := Watch(POLLIN_FD_EXCEPT, UVC_EVENTS_BIT)

  function StopCalls(f: Fds): seq<Call> {
    [Call(f.cam, Watch(0, 0)), Call(f.ispIn, Watch(0, 0)), Call(f.ispOut, Watch(0, 0)), Call(f.enc, Watch(0, 0)),
     Call(f.uvc, UVC_WATCH)]
  }

  function Install(src: Stream, dst: Stream): Option<Installed> {
    match Create(src, dst)
    case None => None
    case Some(pump) => Some(Installed(pump, NO_HISTORY))
  }

  /** The four nodes started in order, up to the first failure. */
  function StartNodes(p: Pipe): (r: (Pipe, int))
    requires Shape(p)
    ensures Shape(r.0)
  {
    var (uvc, c1) := NodeStart(p.uvc);
    var p1 := p.(uvc := uvc);
    if c1 != 0 then (p1, 1) else
      var (enc, c2) := NodeStart(p1.enc);
      var p2 := p1.(enc := enc);
      if c2 != 0 then (p2, 1) else
        var (isp, c3) := NodeStart(p2.isp);
        var p3 := p2.(isp := isp);
        if c3 != 0 then (p3, 1) else
          var (cam, c4) := NodeStart(p3.cam);
          (p3.(cam := cam), if c4 != 0 then 1 else 0)
  }

  /** pipelineStart: nodes that have started stay started when a later one fails. */
  function PipelineStart(p: Pipe): (r: (Pipe, int))
    requires Shape(p)
    ensures Shape(r.0)
  {
    var (p1, code) := StartNodes(p);
    if code != 0 then (p1, code) else
      (p1.(camToIsp := Install(p1.cam.output.value, p1.isp.input.value),
           ispToEnc := Install(p1.isp.output.value, p1.enc.input.value),
           encToUvc := Install(p1.enc.output.value, p1.uvc.input.value),
           watched := RegisteredAll(p1.watched, StartCalls(p1.fds))), 0)
  }

  /** pipelineStop: the results of nodeStop are not looked at. */
  function PipelineStop(p: Pipe): (r: Pipe)
    requires Shape(p)
    ensures Shape(r)
  {
    p.(uvc := NodeStop(p.uvc).0, enc := NodeStop(p.enc).0, isp := NodeStop(p.isp).0, cam := NodeStop(p.cam).0,
       camToIsp := None, ispToEnc := None, encToUvc := None,
       watched := RegisteredAll(p.watched, StopCalls(p.fds)))
  }

  /** A call of pumpPump, when the pump exists and its bit is set; the result is only logged. */
  function Pumped(src: Stream, dst: Stream, i: Option<Installed>, due: bool)
    : (r: (Stream, Stream, Option<Installed>, bool))
  {
    if i.None? || !due then (src, dst, i, true) else
      var (y, o) := PumpCall(Sys(src, dst, i.value.pump, i.value.hist));
      (y.src, y.dst, Some(Installed(y.pump, y.hist)), o != Abort)
  }

  /** Which pumps the word of the poll asks for. */
  datatype Due = Due(camToIsp: bool, ispToEnc: bool, encToUvc: bool)

  function RoundCam(p: Pipe, due: bool): (r: (Pipe, bool))
    requires Shape(p)
    ensures Shape(r.0)
  {
    var (s, d, i, ok) := Pumped(p.cam.output.value, p.isp.input.value, p.camToIsp, due);
    (p.(cam := p.cam.(output := Some(s)), isp := p.isp.(input := Some(d)), camToIsp := i), ok)
  }

  function RoundIsp(p: Pipe, due: bool): (r: (Pipe, bool))
    requires Shape(p)
    ensures Shape(r.0)
  {
    var (s, d, i, ok) := Pumped(p.isp.output.value, p.enc.input.value, p.ispToEnc, due);
    (p.(isp := p.isp.(output := Some(s)), enc := p.enc.(input := Some(d)), ispToEnc := i), ok)
  }

  function RoundEnc(p: Pipe, due: bool): (r: (Pipe, bool))
    requires Shape(p)
    ensures Shape(r.0)
  {
    var (s, d, i, ok) := Pumped(p.enc.output.value, p.uvc.input.value, p.encToUvc, due);
    (p.(enc := p.enc.(output := Some(s)), uvc := p.uvc.(input := Some(d)), encToUvc := i), ok)
  }

  /** The last part of pipelineProcess; false when a pump aborts the program. */
  function PumpRound(p: Pipe, due: Due): (r: (Pipe, bool))
    requires Shape(p)
    ensures Shape(r.0)
  {
    var (p1, ok1) := RoundCam(p, due.camToIsp);
    if !ok1 then (p1, false) else
      var (p2, ok2) := RoundIsp(p1, due.ispToEnc);
      if !ok2 then (p2, false) else RoundEnc(p2, due.encToUvc)
  }

  /** UVC_EVENT_STREAMON: the gadget's stream is prepared, whatever comes of it, and the pipeline is started. */
  function StreamOnEvent(p: Pipe): (r: (Pipe, int))
    requires Shape(p)
    ensures Shape(r.0)
  {
    PipelineStart(p.(uvc := p.uvc.(input := Some(Prepare(p.uvc.input.value, UVC_OPTS).0))))
  }

  /** The six streams, by node and side. */
  datatype Where = CamOut | IspIn | IspOut | EncIn | EncOut | UvcIn

  function StreamAt(p: Pipe, at: Where): Stream
    requires Shape(p)
  {
    match at
    case CamOut => p.cam.output.value
    case IspIn => p.isp.input.value
    case IspOut => p.isp.output.value
    case EncIn => p.enc.input.value
    case EncOut => p.enc.output.value
    case UvcIn => p.uvc.input.value
  }

  /** The hardware behind one of the streams completes a buffer. */
  function Completed(p: Pipe, at: Where, f: Fill): (r: Pipe)
    requires Shape(p)
    ensures Shape(r)
  {
    var s := Some(Finished(StreamAt(p, at), f));
    match at
    case CamOut => p.(cam := p.cam.(output := s))
    case IspIn => p.(isp := p.isp.(input := s))
    case IspOut => p.(isp := p.isp.(output := s))
    case EncIn => p.(enc := p.enc.(input := s))
    case EncOut => p.(enc := p.enc.(output := s))
    case UvcIn => p.(uvc := p.uvc.(input := s))
  }

  /** A host event, the pump calls of one turn of the main loop, or a completion between two of those. */
  datatype Step = HostOn | HostOff | MainLoop(due: Due) | Completion(at: Where, fill: Fill)

  /** One step; false when the program aborts in it. */
  function Take(p: Pipe, step: Step): (r: (Pipe, bool))
    requires Shape(p)
    ensures Shape(r.0)
  {
    match step
    case HostOn => (StreamOnEvent(p).0, true)
    case HostOff => (PipelineStop(p), true)
    case MainLoop(due) => PumpRound(p, due)
    case Completion(at, f) => (Completed(p, at, f), true)
  }

  function TakeAll(p: Pipe, steps: seq<Step>): (r: (Pipe, bool))
    requires Shape(p)
    ensures Shape(r.0)
    decreases |steps|
  {
    if steps == [] then (p, true) else
      var (p1, ok) := Take(p, steps[0]);
      if !ok then (p1, false) else TakeAll(p1, steps[1..])
  }

  /** The step that a STREAMON or STREAMOFF event is. */
  function EventStep(on: bool): Step {
    if on then HostOn else HostOff
  }

  function EventSteps(events: seq<bool>): (steps: seq<Step>)
    ensures |steps| == |events|
  {
    seq(|events|, i requires 0 <= i < |events| => EventStep(events[i]))
  }

  function DueIn(bits: bv32): Due {
    Due(Test(bits, CAM_TO_ISP_BIT), Test(bits, ISP_TO_ENC_BIT), Test(bits, ENC_TO_UVC_BIT))
  }

  /** The steps of one round of the main loop: the gadget's events if the poll reported any, then the pumps. */
  function RoundSteps(events: seq<bool>, bits: bv32): seq<Step> {
    (if Test(bits, UVC_EVENTS_BIT) then EventSteps(events) else []) + [MainLoop(DueIn(bits))]
  }
}
