/**
 The pipeline of src/main.c, in place, proved against Pipelines.dfy; its life is the subject of
 PipelineProofs.dfy.
*/
module PipelineObjects {
  import opened Common
  import opened Streams
  import opened Pumps
  import opened PumpRuns
  import opened Devices
  import opened PumpObjects
  import opened Nodes
  import opened NodeObjects
  import opened Polls
  import opened Pollinators
  import opened Pipelines
  import opened PipelineProofs
  import opened PipelineTurns

  /** The objects that the value of a pump depends on, its streams not included. */
  ghost function Parts(p: PumpObject?): set<object?>
    reads p, if p == null then {} else {p.available, p.available.data}
  {
    if p == null then {} else {p, p.acquired, p.available, p.available.data, p.available.data.data}
  }

  ghost function Held(p: PumpObject?): Option<Installed>
    reads p, if p == null then {} else {p.available, p.available.data}, Parts(p)
  {
    if p == null then None else Some(Installed(p.Val(), p.hist))
  }

  /** Different objects, as far as they are objects. */
  ghost predicate Different(a: object?, b: object?, c: object?, d: object?, e: object?, f: object?) {
    && (a != null ==> a != b && a != c && a != d && a != e && a != f)
    && (b != null ==> b != c && b != d && b != e && b != f)
    && (c != null ==> c != d && c != e && c != f)
    && (d != null ==> d != e && d != f)
    && (e != null ==> e != f)
  }

  /** The nodes have the streams they need, and no stream belongs to two of them. */
  ghost predicate WiredNodes(cam: NodeObject, isp: NodeObject, enc: NodeObject, uvc: NodeObject) {
    && cam.output != null && cam.input == null && isp.output != null && isp.input != null
    && enc.output != null && enc.input != null && uvc.output == null && uvc.input != null
    && Different(cam.output, isp.input, isp.output, enc.input, enc.output, uvc.input)
  }

  /** No two streams share a buffer array. */
  ghost predicate ApartNodes(cam: NodeObject, isp: NodeObject, enc: NodeObject, uvc: NodeObject)
    requires WiredNodes(cam, isp, enc, uvc)
    reads cam.output, isp.input, isp.output, enc.input, enc.output, uvc.input
  {
    Different(cam.output.buffers, isp.input.buffers, isp.output.buffers, enc.input.buffers, enc.output.buffers,
      uvc.input.buffers)
  }

  class Pipeline {
    const cam: NodeObject
    const isp: NodeObject
    const enc: NodeObject
    const uvc: NodeObject
    const pol: Pollinator
    const fds: Fds
    var camToIsp: PumpObject?
    var ispToEnc: PumpObject?
    var encToUvc: PumpObject?
    var fdBits: bv32

    ghost predicate Wired() {
      WiredNodes(cam, isp, enc, uvc)
    }

    ghost predicate Apart()
      requires Wired()
      reads cam.output, isp.input, isp.output, enc.input, enc.output, uvc.input
    {
      ApartNodes(cam, isp, enc, uvc)
    }

    /** The pump, if there is one, connects these two streams and is in good shape. */
    ghost predicate Connects(p: PumpObject?, src: DeviceStream, dst: DeviceStream)
      reads p, if p == null then {} else {p.available, p.available.data}, Parts(p)
    {
      p != null ==> p.src == src && p.dst == dst && p.Built()
    }

    /** Two pumps share nothing of what they allocated. */
    ghost predicate Separate(p: PumpObject?, q: PumpObject?)
      reads p, if p == null then {} else {p.available, p.available.data}
      reads q, if q == null then {} else {q.available, q.available.data}
    {
      p != null && q != null ==>
        && p != q && p.acquired != q.acquired && p.available != q.available && p.available.data != q.available.data
        && p.acquired != q.available.data.data && q.acquired != p.available.data.data
        && (p.available.data.data != null ==> p.available.data.data != q.available.data.data)
    }

    /** How the objects of the pipeline are laid out. */
    ghost predicate Laid()
      reads *
    {
      && Wired() && Apart() && pol.Valid()
      && Connects(camToIsp, cam.output, isp.input)
      && Connects(ispToEnc, isp.output, enc.input)
      && Connects(encToUvc, enc.output, uvc.input)
      && Separate(camToIsp, ispToEnc) && Separate(camToIsp, encToUvc) && Separate(ispToEnc, encToUvc)
    }

    ghost predicate Valid()
      reads *
    {
      Laid() && PipeOk(Val())
    }

    ghost function Val(): (p: Pipe)
      requires pol.Valid()
      reads *
      ensures p.fds == fds
    {
      Pipe(cam.Val(), isp.Val(), enc.Val(), uvc.Val(), Held(camToIsp), Held(ispToEnc), Held(encToUvc), pol.Watched(),
        fds)
    }

    /** pipelineCreate, once the four nodes are open: only the gadget's events are watched. */
    constructor (cam: NodeObject, isp: NodeObject, enc: NodeObject, uvc: NodeObject, fds: Fds)
      requires fds.uvc >= 0 && WiredNodes(cam, isp, enc, uvc) && ApartNodes(cam, isp, enc, uvc)
      requires PipeFits(Pipe(cam.Val(), isp.Val(), enc.Val(), uvc.Val(), None, None, None, map[], fds))
      ensures this.cam == cam && this.isp == isp && this.enc == enc && this.uvc == uvc && this.fds == fds
      ensures Valid() && NoPumps(Val()) && WatchesRight(Val())
    {
      hide PipeFits, PipeOk, PollOk, Registrations, NodeObject.Val, DeviceStream.Val, Registered, OnlyUvc,
        Pollinator.Watched, Pollinator.Valid;
      ghost var p := Pipe(cam.Val(), isp.Val(), enc.Val(), uvc.Val(), None, None, None, map[], fds);
      this.cam, this.isp, this.enc, this.uvc, this.fds := cam, isp, enc, uvc, fds;
      pol := new Pollinator();
      camToIsp, ispToEnc, encToUvc, fdBits := null, null, null, 0;
      new;
      pol.MonitorFd(fds.uvc, UVC_WATCH);
      FirstWatch(fds);
      OpenedOk(p, Val());
    }

    /** The buffer arrays are where they were. */
    twostate predicate SameArrays()
      reads cam.output, isp.input, isp.output, enc.input, enc.output, uvc.input
    {
      && Wired()
      && cam.output.buffers == old(cam.output.buffers) && isp.input.buffers == old(isp.input.buffers)
      && isp.output.buffers == old(isp.output.buffers) && enc.input.buffers == old(enc.input.buffers)
      && enc.output.buffers == old(enc.output.buffers) && uvc.input.buffers == old(uvc.input.buffers)
    }

    /** Everything that pump calls write. */
    ghost function Touched(): set<object?>
      requires Wired()
      reads this, cam.output, isp.input, isp.output, enc.input, enc.output, uvc.input
    {
      {cam.output, isp.input, isp.output, enc.input, enc.output, uvc.input}
      + {cam.output.buffers, isp.input.buffers, isp.output.buffers, enc.input.buffers, enc.output.buffers,
        uvc.input.buffers}
      + Allocated(camToIsp) + Allocated(ispToEnc) + Allocated(encToUvc)
    }

    ghost function Allocated(p: PumpObject?): set<object?> {
      if p == null then {} else {p, p.acquired, p.available}
    }

    /** In particular the objects of each pump and of its two streams. */
    lemma WithinTouched()
      requires Wired()
      ensures Allocated(camToIsp) + {cam.output, cam.output.buffers, isp.input, isp.input.buffers} <= Touched()
      ensures Allocated(ispToEnc) + {isp.output, isp.output.buffers, enc.input, enc.input.buffers} <= Touched()
      ensures Allocated(encToUvc) + {enc.output, enc.output.buffers, uvc.input, uvc.input.buffers} <= Touched()
    {}

    /** The call of pumpPump from the camera to the ISP; its result is only logged. */
    method PumpCamToIsp()
      requires Laid() && camToIsp != null && Inv(camToIsp.System(), false) && PumpCall(camToIsp.System()).1 != Abort
      modifies camToIsp, camToIsp.acquired, camToIsp.available
      modifies cam.output, cam.output.buffers, isp.input, isp.input.buffers
      ensures Laid() && SameArrays() && Touched() == old(Touched())
      ensures (cam.output.Val(), isp.input.Val(), Held(camToIsp), true)
        == Pumped(old(cam.output.Val()), old(isp.input.Val()), old(Held(camToIsp)), true)
      ensures isp.output.Val() == old(isp.output.Val()) && enc.input.Val() == old(enc.input.Val())
      ensures enc.output.Val() == old(enc.output.Val()) && uvc.input.Val() == old(uvc.input.Val())
      ensures Held(ispToEnc) == old(Held(ispToEnc)) && Held(encToUvc) == old(Held(encToUvc))
      ensures pol.Watched() == old(pol.Watched())
    {
      hide PumpCall, Inv, PollOk, Registrations, Pollinator.Watched, Pollinator.Valid, PumpObject.Built;
      var code := camToIsp.PumpPump();
    }

    /** From the ISP to the encoder. */
    method PumpIspToEnc()
      requires Laid() && ispToEnc != null && Inv(ispToEnc.System(), false) && PumpCall(ispToEnc.System()).1 != Abort
      modifies ispToEnc, ispToEnc.acquired, ispToEnc.available
      modifies isp.output, isp.output.buffers, enc.input, enc.input.buffers
      ensures Laid() && SameArrays() && Touched() == old(Touched())
      ensures (isp.output.Val(), enc.input.Val(), Held(ispToEnc), true)
        == Pumped(old(isp.output.Val()), old(enc.input.Val()), old(Held(ispToEnc)), true)
      ensures cam.output.Val() == old(cam.output.Val()) && isp.input.Val() == old(isp.input.Val())
      ensures enc.output.Val() == old(enc.output.Val()) && uvc.input.Val() == old(uvc.input.Val())
      ensures Held(camToIsp) == old(Held(camToIsp)) && Held(encToUvc) == old(Held(encToUvc))
      ensures pol.Watched() == old(pol.Watched())
    {
      hide PumpCall, Inv, PollOk, Registrations, Pollinator.Watched, Pollinator.Valid, PumpObject.Built;
      var code := ispToEnc.PumpPump();
    }

    /** From the encoder to the gadget. */
    method PumpEncToUvc()
      requires Laid() && encToUvc != null && Inv(encToUvc.System(), false) && PumpCall(encToUvc.System()).1 != Abort
      modifies encToUvc, encToUvc.acquired, encToUvc.available
      modifies enc.output, enc.output.buffers, uvc.input, uvc.input.buffers
      ensures Laid() && SameArrays() && Touched() == old(Touched())
      ensures (enc.output.Val(), uvc.input.Val(), Held(encToUvc), true)
        == Pumped(old(enc.output.Val()), old(uvc.input.Val()), old(Held(encToUvc)), true)
      ensures cam.output.Val() == old(cam.output.Val()) && isp.input.Val() == old(isp.input.Val())
      ensures isp.output.Val() == old(isp.output.Val()) && enc.input.Val() == old(enc.input.Val())
      ensures Held(camToIsp) == old(Held(camToIsp)) && Held(ispToEnc) == old(Held(ispToEnc))
      ensures pol.Watched() == old(pol.Watched())
    {
      hide PumpCall, Inv, PollOk, Registrations, Pollinator.Watched, Pollinator.Valid, PumpObject.Built;
      var code := encToUvc.PumpPump();
    }

    /** The value of the pipeline in terms of its six streams. */
    lemma ValParts()
      requires Wired() && pol.Valid()
      ensures Val() == Pipe(
        Node(Some(cam.output.Val()), None), Node(Some(isp.output.Val()), Some(isp.input.Val())),
        Node(Some(enc.output.Val()), Some(enc.input.Val())), Node(None, Some(uvc.input.Val())),
        Held(camToIsp), Held(ispToEnc), Held(encToUvc), pol.Watched(), fds)
    {
      hide DeviceStream.Val, PumpObject.Val;
    }

    method RunCamToIsp(due: bool, ghost touched: set<object?>)
      requires Valid() && Touched() <= touched && RoundCam(Val(), due).1
      modifies touched
      ensures Laid() && Touched() <= touched && Val() == RoundCam(old(Val()), due).0
    {
      hide PumpCall, Inv, PipeOk, Pumped, Pollinator.Watched, Pollinator.Valid, Pipeline.Separate, Pipeline.Apart,
        Pipeline.Val,
        NodeObject.Val, DeviceStream.Val, PumpObject.Val, Pipeline.Touched;
      ValParts();
      WithinTouched();
      PipeShape(Val());
      PumpsReady(Val());
      NothingPumped(cam.output.Val(), isp.input.Val(), due);
      NothingDue(cam.output.Val(), isp.input.Val(), Held(camToIsp));
      Survives(cam.output.Val(), isp.input.Val(), Held(camToIsp));
      if camToIsp != null && due {
        PumpCamToIsp();
        ValParts();
      }
    }

    method RunIspToEnc(due: bool, ghost touched: set<object?>)
      requires Valid() && Touched() <= touched && RoundIsp(Val(), due).1
      modifies touched
      ensures Laid() && Touched() <= touched && Val() == RoundIsp(old(Val()), due).0
    {
      hide PumpCall, Inv, PipeOk, Pumped, Pollinator.Watched, Pollinator.Valid, Pipeline.Separate, Pipeline.Apart,
        Pipeline.Val,
        NodeObject.Val, DeviceStream.Val, PumpObject.Val, Pipeline.Touched;
      ValParts();
      WithinTouched();
      PipeShape(Val());
      PumpsReady(Val());
      NothingPumped(isp.output.Val(), enc.input.Val(), due);
      NothingDue(isp.output.Val(), enc.input.Val(), Held(ispToEnc));
      Survives(isp.output.Val(), enc.input.Val(), Held(ispToEnc));
      if ispToEnc != null && due {
        PumpIspToEnc();
        ValParts();
      }
    }

    method RunEncToUvc(due: bool, ghost touched: set<object?>)
      requires Valid() && Touched() <= touched && RoundEnc(Val(), due).1
      modifies touched
      ensures Laid() && Touched() <= touched && Val() == RoundEnc(old(Val()), due).0
    {
      hide PumpCall, Inv, PipeOk, Pumped, Pollinator.Watched, Pollinator.Valid, Pipeline.Separate, Pipeline.Apart,
        Pipeline.Val,
        NodeObject.Val, DeviceStream.Val, PumpObject.Val, Pipeline.Touched;
      ValParts();
      WithinTouched();
      PipeShape(Val());
      PumpsReady(Val());
      NothingPumped(enc.output.Val(), uvc.input.Val(), due);
      NothingDue(enc.output.Val(), uvc.input.Val(), Held(encToUvc));
      Survives(enc.output.Val(), uvc.input.Val(), Held(encToUvc));
      if encToUvc != null && due {
        PumpEncToUvc();
        ValParts();
      }
    }

    /**
     The last part of pipelineProcess: every pump that exists and whose bit the poll has set,
     unless one of them aborts.
    */
    method RunPumps(due: Due, ghost touched: set<object?>)
      requires Valid() && Touched() <= touched && PumpRound(Val(), due).1
      modifies touched
      ensures Valid() && Val() == PumpRound(old(Val()), due).0
    {
      hide PipeOk, RoundCam, RoundIsp, RoundEnc, Apart, Connects, Separate, Touched;
      RoundCamFits(Val(), due.camToIsp);
      RunCamToIsp(due.camToIsp, touched);
      RoundIspFits(Val(), due.ispToEnc);
      RunIspToEnc(due.ispToEnc, touched);
      RoundEncFits(Val(), due.encToUvc);
      RunEncToUvc(due.encToUvc, touched);
    }

    lemma NothingDue(src: Stream, dst: Stream, i: Option<Installed>)
      ensures Pumped(src, dst, i, false) == (src, dst, i, true)
    {}

    lemma Survives(src: Stream, dst: Stream, i: Option<Installed>)
      ensures i.Some? && Pumped(src, dst, i, true).3 ==> PumpCall(Sys(src, dst, i.value.pump, i.value.hist)).1 != Abort
    {
      hide PumpCall;
    }

    lemma PumpsReady(p: Pipe)
      requires PipeOk(p)
      ensures p.camToIsp.Some? ==>
        Inv(Sys(p.cam.output.value, p.isp.input.value, p.camToIsp.value.pump, p.camToIsp.value.hist), false)
      ensures p.ispToEnc.Some? ==>
        Inv(Sys(p.isp.output.value, p.enc.input.value, p.ispToEnc.value.pump, p.ispToEnc.value.hist), false)
      ensures p.encToUvc.Some? ==>
        Inv(Sys(p.enc.output.value, p.uvc.input.value, p.encToUvc.value.pump, p.encToUvc.value.hist), false)
    {
      hide Inv, PipeFits, Reached;
      PumpReady(p.cam.output.value, p.isp.input.value, p.camToIsp);
      PumpReady(p.isp.output.value, p.enc.input.value, p.ispToEnc);
      PumpReady(p.enc.output.value, p.uvc.input.value, p.encToUvc);
    }

    static lemma PumpReady(src: Stream, dst: Stream, i: Option<Installed>)
      requires PumpFits(src, dst, i)
      ensures i.Some? ==> Inv(Sys(src, dst, i.value.pump, i.value.hist), false)
    {
      hide Inv, Reached;
      if i.Some? {
        ReachedInv(Sys(src, dst, i.value.pump, i.value.hist));
      }
    }

    // ---------- stopping ----------

    /** The registrations that pipelineStop takes away, and the one it leaves. */
    method StopWatching()
      requires pol.Valid() && fds.cam >= 0 && fds.ispIn >= 0 && fds.ispOut >= 0 && fds.enc >= 0 && fds.uvc >= 0
      modifies pol, pol.fds, pol.fds.data
      ensures pol.Valid() && pol.Watched() == RegisteredAll(old(pol.Watched()), StopCalls(fds))
      ensures pol.fds.data == old(pol.fds.data) || (pol.fds.data != null && fresh(pol.fds.data))
    {
      hide Registered, PollOk, Registrations;
      var c := StopCalls(fds);
      FiveCalls(pol.Watched(), c[0], c[1], c[2], c[3], c[4]);
      pol.MonitorFd(fds.cam, Watch(0, 0));
      pol.MonitorFd(fds.ispIn, Watch(0, 0));
      pol.MonitorFd(fds.ispOut, Watch(0, 0));
      pol.MonitorFd(fds.enc, Watch(0, 0));
      pol.MonitorFd(fds.uvc, UVC_WATCH);
    }

    /** The registrations that pipelineStart makes. */
    method StartWatching()
      requires pol.Valid() && fds.cam >= 0 && fds.ispIn >= 0 && fds.ispOut >= 0 && fds.enc >= 0 && fds.uvc >= 0
      modifies pol, pol.fds, pol.fds.data
      ensures pol.Valid() && pol.Watched() == RegisteredAll(old(pol.Watched()), StartCalls(fds))
      ensures pol.fds.data == old(pol.fds.data) || (pol.fds.data != null && fresh(pol.fds.data))
    {
      hide Registered, PollOk, Registrations;
      var c := StartCalls(fds);
      FiveCalls(pol.Watched(), c[0], c[1], c[2], c[3], c[4]);
      pol.MonitorFd(fds.cam, Watch(POLLIN_FD_READ | POLLIN_FD_WRITE, CAM_TO_ISP_BIT));
      pol.MonitorFd(fds.ispIn, Watch(POLLIN_FD_READ | POLLIN_FD_WRITE, CAM_TO_ISP_BIT));
      pol.MonitorFd(fds.ispOut, Watch(POLLIN_FD_READ | POLLIN_FD_WRITE, ISP_TO_ENC_BIT));
      pol.MonitorFd(fds.enc, Watch(POLLIN_FD_READ | POLLIN_FD_WRITE, ISP_TO_ENC_BIT | ENC_TO_UVC_BIT));
      pol.MonitorFd(fds.uvc, Watch(POLLIN_FD_EXCEPT | POLLIN_FD_WRITE | POLLIN_FD_READ,
        ENC_TO_UVC_BIT | UVC_EVENTS_BIT));
    }

    ghost predicate FdsOpen() {
      fds.cam >= 0 && fds.ispIn >= 0 && fds.ispOut >= 0 && fds.enc >= 0 && fds.uvc >= 0
    }

    method StopNodes()
      requires Wired()
      modifies cam.output, isp.input, isp.output, enc.input, enc.output, uvc.input
      ensures SameArrays()
      ensures cam.Val() == NodeStop(old(cam.Val())).0 && isp.Val() == NodeStop(old(isp.Val())).0
      ensures enc.Val() == NodeStop(old(enc.Val())).0 && uvc.Val() == NodeStop(old(uvc.Val())).0
    {
      hide NodeStop;
      var ignored := uvc.StopNode();
      ignored := enc.StopNode();
      ignored := isp.StopNode();
      ignored := cam.StopNode();
    }

    /** The nodes stopped and the pumps destroyed. */
    method StopStreams()
      requires Valid()
      modifies this`camToIsp, this`ispToEnc, this`encToUvc
      modifies cam.output, isp.input, isp.output, enc.input, enc.output, uvc.input
      ensures Laid() && SameArrays() && camToIsp == null && ispToEnc == null && encToUvc == null
      ensures Val() == PipelineStop(old(Val())).(watched := old(Val()).watched)
    {
      hide PipeOk, NodeStop, RegisteredAll, StopCalls, PollOk, Registrations, Pollinator.Watched, Pollinator.Valid,
        DeviceStream.Val,
        NodeObject.Val, PumpObject.Val, PumpObject.Built;
      ghost var p := Val();
      assert cam.Val() == p.cam && isp.Val() == p.isp && enc.Val() == p.enc && uvc.Val() == p.uvc;
      StopNodes();
      assert pol.Watched() == p.watched;
      encToUvc, ispToEnc, camToIsp := null, null, null;
      assert cam.Val() == NodeStop(p.cam).0 && isp.Val() == NodeStop(p.isp).0;
      assert enc.Val() == NodeStop(p.enc).0 && uvc.Val() == NodeStop(p.uvc).0;
    }

    method StopWatchingAll()
      requires Laid() && camToIsp == null && ispToEnc == null && encToUvc == null && FdsOpen()
      modifies pol, pol.fds, pol.fds.data
      ensures Laid() && Val() == old(Val()).(watched := RegisteredAll(old(Val()).watched, StopCalls(fds)))
      ensures pol.fds.data == old(pol.fds.data) || (pol.fds.data != null && fresh(pol.fds.data))
    {
      hide RegisteredAll, StopCalls, Pollinator.Watched, Pollinator.Valid, Pipeline.Val, NodeObject.Val,
        DeviceStream.Val, PumpObject.Val,
        PumpObject.Built, Pipeline.Separate, Pipeline.Apart;
      ValParts();
      StopWatching();
      ValParts();
    }

    /** pipelineStop. */
    method Stop()
      requires Valid() && FdsOpen()
      modifies this`camToIsp, this`ispToEnc, this`encToUvc, pol, pol.fds, pol.fds.data
      modifies cam.output, isp.input, isp.output, enc.input, enc.output, uvc.input
      ensures Valid() && Val() == PipelineStop(old(Val()))
      ensures Grown()
    {
      hide PipeOk, NodeStop, RegisteredAll, StopCalls, PollOk, Registrations, Apart, Connects, Separate, Pipeline.Val;
      StopFits(Val());
      StopStreams();
      StopWatchingAll();
    }

    // ---------- starting ----------

    /** The part of pipelineStart that can fail: nodes that started stay started. */
    method StartAllNodes(ghost p: Pipe) returns (code: int)
      requires Wired() && p.cam == cam.Val() && p.isp == isp.Val() && p.enc == enc.Val() && p.uvc == uvc.Val()
      requires NodeOk(p.cam) && NodeOk(p.isp) && NodeOk(p.enc) && NodeOk(p.uvc)
      modifies cam.output, isp.input, isp.output, enc.input, enc.output, uvc.input
      ensures SameArrays()
      ensures (p.(cam := cam.Val(), isp := isp.Val(), enc := enc.Val(), uvc := uvc.Val()), code) == StartNodes(p)
    {
      hide NodeStart, NodeOk, NodeObject.Val;
      code := uvc.StartNode();
      if code != 0 {
        return 1;
      }
      code := enc.StartNode();
      if code != 0 {
        return 1;
      }
      code := isp.StartNode();
      if code != 0 {
        return 1;
      }
      code := cam.StartNode();
      code := if code != 0 then 1 else 0;
    }

    /** The nodes started from a valid pipeline without pumps. */
    method StartStreams() returns (code: int)
      requires Valid()
      modifies cam.output, isp.input, isp.output, enc.input, enc.output, uvc.input
      ensures (Val(), code) == StartNodes(old(Val()))
      ensures Laid() && SameArrays()
      ensures code == 0 ==> camToIsp == null && ispToEnc == null && encToUvc == null
    {
      hide PipeOk, StartNodes, PollOk, Registrations, NodeOk, DeviceStream.Val, PumpObject.Val, Pollinator.Watched,
        Pollinator.Valid,
        Pipeline.Separate, PumpObject.Built, NodeObject.Val;
      ghost var p := Val();
      PipeShape(p);
      NodesOfPipe(p);
      if StartNodes(p).1 == 0 {
        NoPumpWhileStarting(p);
      }
      code := StartAllNodes(p);
    }

    method CreateCamToIsp()
      requires Laid() && camToIsp == null && ispToEnc == null && encToUvc == null
      modifies this`camToIsp
      ensures Laid() && SameOrNew(null, camToIsp)
      ensures Val() == old(Val()).(camToIsp := Install(cam.output.Val(), isp.input.Val()))
    {
      hide Create, PollOk, Registrations, NodeObject.Val, DeviceStream.Val, PumpObject.Val, Pollinator.Watched,
        Pollinator.Valid,
        PumpObject.Built;
      camToIsp := CreatePump(cam.output, isp.input);
    }

    method CreateIspToEnc()
      requires Laid() && ispToEnc == null && encToUvc == null
      modifies this`ispToEnc
      ensures Laid() && SameOrNew(null, ispToEnc)
      ensures Val() == old(Val()).(ispToEnc := Install(isp.output.Val(), enc.input.Val()))
    {
      hide Create, PollOk, Registrations, NodeObject.Val, DeviceStream.Val, PumpObject.Val, Pollinator.Watched,
        Pollinator.Valid,
        PumpObject.Built;
      ispToEnc := CreatePump(isp.output, enc.input);
    }

    method CreateEncToUvc()
      requires Laid() && encToUvc == null
      modifies this`encToUvc
      ensures Laid() && SameOrNew(null, encToUvc)
      ensures Val() == old(Val()).(encToUvc := Install(enc.output.Val(), uvc.input.Val()))
    {
      hide Create, PollOk, Registrations, NodeObject.Val, DeviceStream.Val, PumpObject.Val, Pollinator.Watched,
        Pollinator.Valid,
        PumpObject.Built;
      encToUvc := CreatePump(enc.output, uvc.input);
    }

    /** Pumps of which nothing was written are what they were. */
    twostate lemma PumpsKept()
      requires unchanged(this) && old(Laid())
      requires camToIsp != null ==>
        && unchanged(camToIsp) && unchanged(camToIsp.acquired)
        && unchanged(camToIsp.available) && unchanged(camToIsp.available.data)
        && (camToIsp.available.data.data != null ==> unchanged(camToIsp.available.data.data))
      requires ispToEnc != null ==>
        && unchanged(ispToEnc) && unchanged(ispToEnc.acquired)
        && unchanged(ispToEnc.available) && unchanged(ispToEnc.available.data)
        && (ispToEnc.available.data.data != null ==> unchanged(ispToEnc.available.data.data))
      requires encToUvc != null ==>
        && unchanged(encToUvc) && unchanged(encToUvc.acquired)
        && unchanged(encToUvc.available) && unchanged(encToUvc.available.data)
        && (encToUvc.available.data.data != null ==> unchanged(encToUvc.available.data.data))
      ensures Held(camToIsp) == old(Held(camToIsp)) && Connects(camToIsp, cam.output, isp.input)
      ensures Held(ispToEnc) == old(Held(ispToEnc)) && Connects(ispToEnc, isp.output, enc.input)
      ensures Held(encToUvc) == old(Held(encToUvc)) && Connects(encToUvc, enc.output, uvc.input)
      ensures Separate(camToIsp, ispToEnc) && Separate(camToIsp, encToUvc) && Separate(ispToEnc, encToUvc)
    {
      hide Pollinator.Valid, Pipeline.Apart;
    }

    method StartWatchingAll()
      requires Laid() && FdsOpen()
      modifies pol, pol.fds, pol.fds.data
      ensures Laid() && Val() == old(Val()).(watched := RegisteredAll(old(Val()).watched, StartCalls(fds)))
      ensures pol.fds.data == old(pol.fds.data) || (pol.fds.data != null && fresh(pol.fds.data))
    {
      hide RegisteredAll, StartCalls, Pollinator.Watched, Pollinator.Valid, Pipeline.Val, NodeObject.Val,
        DeviceStream.Val, PumpObject.Val,
        PumpObject.Built, Pipeline.Separate, Pipeline.Apart, Pipeline.Connects, Held, Parts;
      ValParts();
      StartWatching();
      PumpsKept();
      ValParts();
    }

    /** A pump that was not there before is new. */
    static twostate predicate SameOrNew(p: PumpObject?, new q: PumpObject?)
    {
      q == null || q == p || (fresh(q) && fresh(q.acquired) && fresh(q.available))
    }

    static twostate predicate ArraySameOrNew(p: array?<Buffer>, new q: array?<Buffer>)
    {
      q == null || q == p || fresh(q)
    }

    /** Whatever the pipeline may write now is what it could write before, or new. */
    twostate predicate Grown()
      requires Wired()
      reads this, pol.fds, cam.output, isp.input, isp.output, enc.input, enc.output, uvc.input
    {
      && (pol.fds.data == old(pol.fds.data) || pol.fds.data == null || fresh(pol.fds.data))
      && SameOrNew(old(camToIsp), camToIsp) && SameOrNew(old(ispToEnc), ispToEnc) && SameOrNew(old(encToUvc), encToUvc)
      && ArraySameOrNew(old(cam.output.buffers), cam.output.buffers)
      && ArraySameOrNew(old(isp.input.buffers), isp.input.buffers)
      && ArraySameOrNew(old(isp.output.buffers), isp.output.buffers)
      && ArraySameOrNew(old(enc.input.buffers), enc.input.buffers)
      && ArraySameOrNew(old(enc.output.buffers), enc.output.buffers)
      && ArraySameOrNew(old(uvc.input.buffers), uvc.input.buffers)
    }

    lemma ValStreams()
      requires Wired() && pol.Valid()
      ensures Shape(Val())
      ensures Val().cam.output.value == cam.output.Val() && Val().isp.input.value == isp.input.Val()
      ensures Val().isp.output.value == isp.output.Val() && Val().enc.input.value == enc.input.Val()
      ensures Val().enc.output.value == enc.output.Val() && Val().uvc.input.value == uvc.input.Val()
    {}

    lemma StreamsTouched()
      requires Wired()
      ensures {cam.output, isp.input, isp.output, enc.input, enc.output, uvc.input} <= Touched()
    {}

    twostate lemma GrownTouched()
      requires Wired() && Grown()
      ensures forall o :: o in Touched() ==> o == null || o in old(Touched()) || fresh(o)
    {}

    /** pipelineStart. */
    method Start() returns (code: int)
      requires Valid() && FdsOpen()
      modifies this`camToIsp, this`ispToEnc, this`encToUvc, pol, pol.fds, pol.fds.data
      modifies cam.output, isp.input, isp.output, enc.input, enc.output, uvc.input
      ensures Valid() && (Val(), code) == PipelineStart(old(Val()))
      ensures Grown()
    {
      hide PipeOk, StartNodes, RegisteredAll, StartCalls, PollOk, Registrations, Create, Apart, Connects, Separate,
        Pipeline.Val, Install;
      StartFits(Val());
      code := StartStreams();
      if code != 0 {
        return;
      }
      StartPumps();
    }

    /** The three pumps created and all descriptors watched. */
    method StartPumps()
      requires Laid() && FdsOpen() && camToIsp == null && ispToEnc == null && encToUvc == null
      modifies this`camToIsp, this`ispToEnc, this`encToUvc, pol, pol.fds, pol.fds.data
      ensures Laid() && SameArrays()
      ensures SameOrNew(null, camToIsp) && SameOrNew(null, ispToEnc) && SameOrNew(null, encToUvc)
      ensures pol.fds.data == old(pol.fds.data) || (pol.fds.data != null && fresh(pol.fds.data))
      ensures Shape(old(Val()))
      ensures var p := old(Val());
        Val() == p.(camToIsp := Install(p.cam.output.value, p.isp.input.value),
                    ispToEnc := Install(p.isp.output.value, p.enc.input.value),
                    encToUvc := Install(p.enc.output.value, p.uvc.input.value),
                    watched := RegisteredAll(p.watched, StartCalls(p.fds)))
    {
      hide RegisteredAll, StartCalls, Apart, Connects, Separate, Pipeline.Val, Install;
      ValStreams();
      CreateCamToIsp();
      CreateIspToEnc();
      CreateEncToUvc();
      StartWatchingAll();
    }

    /** The call of deviceStreamPrepare in uvcPrepare: it touches nothing but the gadget's stream. */
    method PrepareUvcStream()
      requires Laid()
      modifies uvc.input
      ensures Laid() && ArraySameOrNew(old(uvc.input.buffers), uvc.input.buffers)
      ensures var p := old(Val());
        Val() == p.(uvc := p.uvc.(input := Some(Streams.Prepare(old(uvc.input.Val()), UVC_OPTS).0)))
    {
      hide Streams.Prepare, PollOk, Registrations, PumpObject.Val, Pollinator.Watched, Pollinator.Valid,
        PumpObject.Built,
        Pipeline.Separate, DeviceStream.Val;
      var ignored := uvc.input.Prepare(UVC_OPTS);
    }

    /** uvcPrepare: the gadget's stream is prepared; a failure is only logged. */
    method PrepareGadget()
      requires Valid()
      modifies uvc.input
      ensures Valid() && Shape(old(Val())) && Val() == PreparedPipe(old(Val()))
      ensures Wired() && ArraySameOrNew(old(uvc.input.buffers), uvc.input.buffers)
    {
      hide PipeOk, Streams.Prepare, Pipeline.Apart, Pipeline.Connects, Pipeline.Separate, PreparedPipe, Pipeline.Val,
        DeviceStream.Val;
      ghost var p := Val();
      ValStreams();
      PreparedOk(p);
      PreparedIs(p);
      PrepareUvcStream();
    }

    lemma PreparedIs(p: Pipe)
      requires Shape(p)
      ensures PreparedPipe(p) == p.(uvc := p.uvc.(input := Some(Streams.Prepare(p.uvc.input.value, UVC_OPTS).0)))
    {}

    /** UVC_EVENT_STREAMON. */
    method StreamOn()
      requires Valid() && FdsOpen()
      modifies this`camToIsp, this`ispToEnc, this`encToUvc, pol, pol.fds, pol.fds.data
      modifies cam.output, isp.input, isp.output, enc.input, enc.output, uvc.input
      ensures Valid() && Val() == StreamOnEvent(old(Val())).0
      ensures Grown()
    {
      hide PipeOk, PipelineStart, Pipeline.Val, PreparedPipe;
      PipeShape(Val());
      PrepareGadget();
      var ignored := Start();
    }

    // ---------- the main loop ----------

    /** uvcEventStreamon, with the preparation that comes before a STREAMON. */
    method HandleEvent(on: bool)
      requires Valid() && FdsOpen()
      modifies this`camToIsp, this`ispToEnc, this`encToUvc, pol, pol.fds, pol.fds.data
      modifies cam.output, isp.input, isp.output, enc.input, enc.output, uvc.input
      ensures Valid() && Val() == if on then StreamOnEvent(old(Val())).0 else PipelineStop(old(Val()))
      ensures Grown()
    {
      hide PipeOk, StreamOnEvent, PipelineStop, Pipeline.Val, Apart, Connects, Separate;
      if on {
        StreamOn();
      } else {
        Stop();
      }
    }

    /** Event i of the pending ones: one event less is left. */
    method HandleNext(events: seq<bool>, i: nat)
      requires Valid() && FdsOpen() && i < |events|
      modifies this`camToIsp, this`ispToEnc, this`encToUvc, pol, pol.fds, pol.fds.data
      modifies cam.output, isp.input, isp.output, enc.input, enc.output, uvc.input
      ensures Valid() && Grown() && Shape(Val()) && Shape(old(Val()))
      ensures EventsHandled(Val(), events[i + 1..]) == EventsHandled(old(Val()), events[i..])
    {
      hide PipeOk, StreamOnEvent, PipelineStop, Pipeline.Val, Apart, Connects, Separate, Grown;
      assert events[i..][0] == events[i];
      assert events[i..][1..] == events[i + 1..];
      ValStreams();
      HandleEvent(events[i]);
      ValStreams();
    }

    /** The gadget's pending events, one after the other. */
    method HandleEvents(events: seq<bool>)
      requires Valid() && FdsOpen()
      modifies this`camToIsp, this`ispToEnc, this`encToUvc, pol, pol.fds, pol.fds.data
      modifies cam.output, isp.input, isp.output, enc.input, enc.output, uvc.input
      ensures Valid() && Grown() && Shape(Val()) && Shape(old(Val()))
      ensures Val() == EventsHandled(old(Val()), events)
    {
      hide PipeOk, StreamOnEvent, PipelineStop, Pipeline.Val, Apart, Connects, Separate, EventsHandled,
        Pollinator.Valid, Shape;
      var i := 0;
      ValStreams();
      assert events[0..] == events;
      while i < |events|
        invariant i <= |events| && Valid() && Grown()
        invariant Shape(Val())
        invariant EventsHandled(Val(), events[i..]) == EventsHandled(old(Val()), events)
      {
        HandleNext(events, i);
        ValStreams();
        i := i + 1;
      }
      assert events[i..] == [];
      NoEvents(Val());
    }

    /** The first half of pipelineProcess: the word is cleared and the poll's events are gathered in it. */
    method PollOnce(ready: seq<Ready>)
      requires Valid() && forall r :: r in ready ==> r.fd in pol.epoll
      modifies this`fdBits
      ensures Valid() && Val() == old(Val()) && fdBits == Gathered(pol.Watched(), ready, 0)
    {
      hide PipeOk, Gathered, PollOk, Registrations, NodeObject.Val, PumpObject.Val, PumpObject.Built, DeviceStream.Val,
        Pollinator.Valid, Pollinator.Watched;
      fdBits := pol.Dispatch(ready, 0);
    }

    /** The gadget's events, if the poll reported any. */
    method HandleIfReported(events: seq<bool>)
      requires Valid() && FdsOpen()
      modifies this`camToIsp, this`ispToEnc, this`encToUvc, pol, pol.fds, pol.fds.data
      modifies cam.output, isp.input, isp.output, enc.input, enc.output, uvc.input
      ensures Valid() && Grown() && Shape(Val()) && Shape(old(Val()))
      ensures Val() == if fdBits & 8 != 0 then EventsHandled(old(Val()), events) else old(Val())
    {
      hide PipeOk, Apart, Connects, Separate, Pipeline.Val, EventsHandled;
      ValStreams();
      if Test(fdBits, UVC_EVENTS_BIT) {
        HandleEvents(events);
      }
    }

    /**
     The second half of pipelineProcess: the gadget's events first, and then whatever pumps still exist,
     unless one of these aborts.
    */
    method ServeOnce(events: seq<bool>)
      requires Valid() && FdsOpen() && Shape(Val()) && TakeAll(Val(), RoundSteps(events, fdBits)).1
      modifies this`camToIsp, this`ispToEnc, this`encToUvc, pol, pol.fds, pol.fds.data, Touched()
      ensures Valid()
      ensures var bits := old(fdBits);
        Val() == PumpRound(if bits & 8 != 0 then EventsHandled(old(Val()), events) else old(Val()),
                           Due(bits & 1 != 0, bits & 2 != 0, bits & 4 != 0)).0
    {
      hide PipeOk, Apart, Connects, Separate, Pipeline.Val, Touched, Grown, TakeAll, RoundSteps, EventsHandled,
        PumpRound;
      StreamsTouched();
      TurnIs(Val(), events, fdBits);
      HandleIfReported(events);
      GrownTouched();
      ValStreams();
      RunPumps(DueIn(fdBits), Touched());
    }

    /**
     pipelineProcess, after epoll_wait has returned `ready`; `events` are the STREAMON and STREAMOFF
     events that the gadget has pending. PipelineProofs.PipelineLives states exactly which turns abort.
    */
    method Process(ready: seq<Ready>, events: seq<bool>)
      requires Valid() && FdsOpen() && forall r :: r in ready ==> r.fd in pol.epoll
      requires Shape(Val()) && TakeAll(Val(), RoundSteps(events, Gathered(pol.Watched(), ready, 0))).1
      modifies this, pol, pol.fds, pol.fds.data, Touched()
      ensures Valid()
      ensures var bits := Gathered(old(pol.Watched()), ready, 0);
        && Val() == PumpRound(if bits & 8 != 0 then EventsHandled(old(Val()), events) else old(Val()),
                              Due(bits & 1 != 0, bits & 2 != 0, bits & 4 != 0)).0
        && Val() == TakeAll(old(Val()), RoundSteps(events, bits)).0
    {
      hide PipeOk, TakeAll, RoundSteps, Gathered, Apart, Connects, Separate, Pipeline.Val, PumpRound, EventsHandled;
      TurnIs(Val(), events, Gathered(pol.Watched(), ready, 0));
      PollOnce(ready);
      ServeOnce(events);
    }
  }
}
