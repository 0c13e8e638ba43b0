/**
 The control requests of src/UVC.c as a state machine: a SETUP packet is dispatched over a table of
 controls and always answered; a SET_CUR that is accepted is completed by the DATA packet after it.
*/
module UvcControls {
  import opened Common

  type Byte = n: nat | n < 0x100
  type Word = n: nat | n < 0x1_0000

  const SET_CUR: Byte := 0x01
  const GET_CUR: Byte := 0x81
  const GET_MIN: Byte := 0x82
  const GET_MAX: Byte := 0x83
  const GET_RES: Byte := 0x84
  const GET_LEN: Byte := 0x85
  const GET_INFO: Byte := 0x86
  const GET_DEF: Byte := 0x87

  // Section 4.2.1.2 of the USB Video Class 1.5 specification
  const NO_ERROR: Byte := 0x00
  const INVALID_CONTROL: Byte := 0x06
  const INVALID_REQUEST: Byte := 0x07

  const NO_CONTROL: int := -1
  const EL2HLT: int := 51

  const VIDEO_CONTROL: Byte := 0
  const VIDEO_STREAMING: Byte := 1

  /** struct usb_ctrlrequest, and struct uvc_request_data with its 60 bytes. */
  datatype Request = Request(requestType: Byte, request: Byte, value: Word, index: Word)
  datatype Response = Response(length: int, data: seq<Byte>)

  datatype GetFunc = ErrorCodeGet | AeModeGet | BrightnessGet | ProbeCommitGet
  datatype SetFunc = BrightnessSet | ProbeCommitSet

  datatype Control = Control(
    tag: nat, canGet: bool, canSet: bool, len: Byte, brightnessInfo: bool, get: GetFunc, setData: Option<SetFunc>)

  /** The tag's bit-fields, the first one in the lowest byte. */
  function MakeTag(interface: Byte, entity: Byte, selector: Byte): nat {
    interface + 0x100 * entity + 0x1_0000 * selector
  }

  const TABLE: seq<Control> := [
    Control(MakeTag(VIDEO_CONTROL, 0, 2), true, false, 1, false, ErrorCodeGet, None),
    Control(MakeTag(VIDEO_CONTROL, 1, 2), true, false, 1, false, AeModeGet, None),
    Control(MakeTag(VIDEO_CONTROL, 2, 2), false, false, 2, true, BrightnessGet, Some(BrightnessSet)),
    Control(MakeTag(VIDEO_STREAMING, 0, 1), true, true, 34, false, ProbeCommitGet, Some(ProbeCommitSet)),
    Control(MakeTag(VIDEO_STREAMING, 0, 2), true, true, 34, false, ProbeCommitGet, Some(ProbeCommitSet))
  ]

  /** A V4L2 control that brightness is mapped to. */
  datatype V4l2Control = V4l2Control(value: int, minimum: int, defaultValue: int)

  /** `dataPhase` is a position in the table. */
  datatype Gadget = Gadget(errorCode: Byte, dataPhase: Option<nat>, brightness: Option<V4l2Control>)

  function RequestTag(req: Request): nat {
    MakeTag(req.index % 0x100, req.index / 0x100, req.value / 0x100)
  }

  /** bRequestType & USB_TYPE_MASK (0x60) is USB_TYPE_CLASS (0x20). */
  predicate IsClass(req: Request) {
    (req.requestType / 0x20) % 4 == 1
  }

  /** The position of the first control with this tag, from i on. */
  function FindControl(tag: nat, i: nat): Option<nat>
    decreases |TABLE| - i
  {
    if i >= |TABLE| then None else if TABLE[i].tag == tag then Some(i) else FindControl(tag, i + 1)
  }

  function Zeros(n: nat): (s: seq<Byte>)
    ensures |s| == n
  {
    seq(n, _ => 0)
  }

  /** The bytes of a little-endian integer. */
  function LittleEndian(v: nat, n: nat): (s: seq<Byte>)
    ensures |s| == n
  {
    if n == 0 then [] else [v % 0x100] + LittleEndian(v / 0x100, n - 1)
  }

  /** bytes written over the front of data. */
  function Over(data: seq<Byte>, bytes: seq<Byte>): (r: seq<Byte>)
    ensures |r| == |data|
  {
    if |bytes| <= |data| then bytes + data[|bytes|..] else data
  }

  /** struct uvc_streaming_control as the gadget fills it in. */
  const STREAMING_CONTROL: seq<Byte> :=
    LittleEndian(1, 2) + [1, 1] + LittleEndian(83333, 4) + Zeros(10) + LittleEndian(1332 * 976 * 2, 4)
    + LittleEndian(1024, 4) + LittleEndian(0, 4) + [3, 1, 1, 1]

  /** The get handlers: the response and the request error code. */
  function Get(f: GetFunc, g: Gadget, request: Byte, r: Response): (Response, Byte) {
    match f
    case ErrorCodeGet =>
      if request == GET_CUR then (Response(1, Over(r.data, [g.errorCode])), NO_ERROR) else (r, INVALID_REQUEST)
    case AeModeGet =>
      if request in {GET_CUR, GET_DEF, GET_RES} then (Response(1, Over(r.data, [2])), NO_ERROR)
      else (r.(length := 1), INVALID_REQUEST)
    case BrightnessGet =>
      if g.brightness.None? then (r, INVALID_CONTROL) else
        var c := g.brightness.value;
        var v := if request == GET_CUR then c.value
                 else if request == GET_MIN || request == GET_MAX then c.minimum
                 else if request == GET_DEF then c.defaultValue
                 else 1;
        (Response(2, Over(r.data, LittleEndian(v % 0x1_0000, 2))), NO_ERROR)
    case ProbeCommitGet =>
      (Response(34, Over(r.data, if request == GET_RES then Zeros(34) else STREAMING_CONTROL)), NO_ERROR)
  }

  /** usbUvcDispatchRequest: a request error code, or NO_CONTROL. */
  function Dispatch(g: Gadget, req: Request, r: Response): (Gadget, Response, int) {
    match FindControl(RequestTag(req), 0)
    case None => (g, r, NO_CONTROL)
    case Some(i) =>
      if i >= |TABLE| then (g, r, NO_CONTROL) else
        var c := TABLE[i];
        if req.request == GET_LEN then
          (g, Response(2, Over(r.data, [c.len / 0x100, c.len % 0x100])), NO_ERROR)
        else if req.request == GET_INFO then
          var info := if c.brightnessInfo then (if g.brightness.Some? then 3 else 0)
                      else (if c.canGet then 1 else 0) + (if c.canSet then 2 else 0);
          (g, Response(1, Over(r.data, [info])), NO_ERROR)
        else if req.request == SET_CUR then
          if !c.canSet then (g, r, INVALID_REQUEST)
          else (g.(dataPhase := Some(i)), Response(c.len, Over(r.data, Zeros(c.len))), NO_ERROR)
        else if req.request in {GET_CUR, GET_MIN, GET_DEF, GET_MAX, GET_RES} then
          if !c.canGet then (g, r, INVALID_REQUEST)
          else
            var (response, code) := Get(c.get, g, req.request, r);
            (g, response, code)
        else (g, r, INVALID_REQUEST)
  }

  /** processEventSetup: the new state and the response that is sent. */
  function Setup(g: Gadget, req: Request): (Gadget, Response) {
    var g0 := g.(dataPhase := None, errorCode := if IsClass(req) then g.errorCode else INVALID_REQUEST);
    var (g1, r, code) := Dispatch(g0, req, Response(-EL2HLT, Zeros(60)));
    if code == NO_CONTROL then (g1.(errorCode := INVALID_REQUEST), r.(length := -1))
    else if 0 <= code < 0x100 then
      (g1.(errorCode := code), if code != 0 then r.(length := -1) else r)
    else (g1, r)
  }

  /** processEventData: the control whose set_data ran, if one did, or the ASSERT of the brightness setter. */
  function Data(g: Gadget): (Gadget, Option<nat>, Outcome) {
    var after := g.(dataPhase := None);
    match g.dataPhase
    case None => (after, None, Code(0))
    case Some(i) =>
      if i >= |TABLE| || TABLE[i].setData.None? then (after, None, Code(0))
      else if TABLE[i].setData.value == BrightnessSet && g.brightness.None? then (g, Some(i), Abort)
      else (after, Some(i), Code(0))
  }

  // ---------- the table ----------

  lemma {:induction false} FindControlFinds(tag: nat, i: nat)
    ensures var r := FindControl(tag, i);
      && (r.Some? ==> i <= r.value < |TABLE| && TABLE[r.value].tag == tag)
      && (r.None? ==> forall k :: i <= k < |TABLE| ==> TABLE[k].tag != tag)
    decreases |TABLE| - i
  {
    if i < |TABLE| && TABLE[i].tag != tag {
      FindControlFinds(tag, i + 1);
    }
  }

  /** Tags tell controls apart: equal tags come from equal interface, entity and selector. */
  lemma TagsAreUnique(i1: Byte, e1: Byte, s1: Byte, i2: Byte, e2: Byte, s2: Byte)
    requires MakeTag(i1, e1, s1) == MakeTag(i2, e2, s2)
    ensures i1 == i2 && e1 == e2 && s1 == s2
  {
    var low1, low2 := i1 + 0x100 * e1, i2 + 0x100 * e2;
    assert 0 <= low1 < 0x1_0000 && 0 <= low2 < 0x1_0000;
    assert s1 == s2;
  }

  // ---------- what the host gets, byte by byte ----------

  lemma TagsInTable()
    ensures TABLE[0].tag == 0x2_0000 && TABLE[1].tag == 0x2_0100 && TABLE[2].tag == 0x2_0200
    ensures TABLE[3].tag == 0x1_0001 && TABLE[4].tag == 0x2_0001
  {}

  /** A class request, as bits: the type field of bmRequestType, under the mask 0x60, is 0x20. */
  lemma ClassMask(req: Request, bits: bv8)
    requires bits as int == req.requestType
    ensures IsClass(req) <==> bits & 0x60 == 0x20
  {}

  /**
   Which control a packet addresses: interface and entity in the low and the high byte of wIndex, the
   selector in the high byte of wValue.
  */
  lemma Addressed(req: Request)
    ensures var selector := req.value / 0x100;
      FindControl(RequestTag(req), 0) ==
        if req.index == 0x0000 && selector == 2 then Some(0)
        else if req.index == 0x0100 && selector == 2 then Some(1)
        else if req.index == 0x0200 && selector == 2 then Some(2)
        else if req.index == 0x0001 && selector == 1 then Some(3)
        else if req.index == 0x0001 && selector == 2 then Some(4)
        else None
  {
    TagsInTable();
    FindControlFinds(RequestTag(req), 0);
    assert req.index == 0x100 * (req.index / 0x100) + req.index % 0x100;
    assert req.value / 0x100 < 0x100;
    TagIs(req, 0x00, 0x00, 2);
    TagIs(req, 0x00, 0x01, 2);
    TagIs(req, 0x00, 0x02, 2);
    TagIs(req, 0x01, 0x00, 1);
    TagIs(req, 0x01, 0x00, 2);
    hide FindControl;
    var found := FindControl(RequestTag(req), 0);
    if found.Some? {
      assert found.value in {0, 1, 2, 3, 4};
    }
  }

  lemma TagIs(req: Request, interface: Byte, entity: Byte, selector: Byte)
    ensures RequestTag(req) == MakeTag(interface, entity, selector) <==>
      req.index == 0x100 * entity + interface && req.value / 0x100 == selector
  {
    if RequestTag(req) == MakeTag(interface, entity, selector) {
      TagsAreUnique(req.index % 0x100, req.index / 0x100, req.value / 0x100, interface, entity, selector);
    }
  }

  /** An answer: these bytes, zeros up to 60, no error. */
  predicate Answers(r: (Gadget, Response), bytes: seq<Byte>) {
    r.1.length == |bytes| && |bytes| <= 60 && r.1.data == bytes + Zeros(60 - |bytes|) && r.0.errorCode == 0x00
  }

  /** A stall without data, with this error code left for the host to read. */
  predicate Stalls(r: (Gadget, Response), code: Byte) {
    r.1.length == -1 && r.1.data == Zeros(60) && r.0.errorCode == code
  }

  /** The Request Error Code Control can be read and nothing else. */
  lemma ErrorCodeControl(g: Gadget, req: Request)
    requires req.index == 0x0000 && req.value / 0x100 == 2
    ensures var r := Setup(g, req);
      match req.request
      case 0x81 => Answers(r, [if IsClass(req) then g.errorCode else 0x07])
      case 0x85 => Answers(r, [0, 1])
      case 0x86 => Answers(r, [1])
      case _ => Stalls(r, 0x07)
  {
    Addressed(req);
    hide FindControl, RequestTag;
  }

  /** The auto-exposure mode is fixed to automatic. */
  lemma AeModeControl(g: Gadget, req: Request)
    requires req.index == 0x0100 && req.value / 0x100 == 2
    ensures var r := Setup(g, req);
      match req.request
      case 0x81 => Answers(r, [2])
      case 0x84 => Answers(r, [2])
      case 0x87 => Answers(r, [2])
      case 0x85 => Answers(r, [0, 1])
      case 0x86 => Answers(r, [1])
      case _ => Stalls(r, 0x07)
  {
    Addressed(req);
    hide FindControl, RequestTag;
  }

  /**
   Brightness announces by GET_INFO that it can be read and set when it is mapped, and yet every read
   and every SET_CUR is refused, because the table gives it no capability.
  */
  lemma BrightnessControl(g: Gadget, req: Request)
    requires req.index == 0x0200 && req.value / 0x100 == 2
    ensures var r := Setup(g, req);
      match req.request
      case 0x85 => Answers(r, [0, 2])
      case 0x86 => Answers(r, [if g.brightness.Some? then 3 else 0])
      case _ => Stalls(r, 0x07)
  {
    Addressed(req);
    hide FindControl, RequestTag;
  }

  /** What the get handler of brightness would answer: 16 bits, the low byte first, and the minimum for GET_MAX. */
  lemma BrightnessHandler(g: Gadget, request: Byte, r: Response)
    requires request in {0x81, 0x82, 0x83, 0x84, 0x87} && |r.data| == 60
    ensures g.brightness.None? ==> Get(BrightnessGet, g, request, r) == (r, 0x06)
    ensures g.brightness.Some? ==>
      var (out, code) := Get(BrightnessGet, g, request, r);
      var v := match request
        case 0x81 => g.brightness.value.value
        case 0x87 => g.brightness.value.defaultValue
        case 0x84 => 1
        case _ => g.brightness.value.minimum;
      && code == 0 && out.length == 2 && (out.data[0] + 0x100 * out.data[1] - v) % 0x1_0000 == 0
      && out.data[2..] == r.data[2..]
  {
    if g.brightness.Some? {
      var v := match request
        case 0x81 => g.brightness.value.value
        case 0x87 => g.brightness.value.defaultValue
        case 0x84 => 1
        case _ => g.brightness.value.minimum;
      TwoBytes(v % 0x1_0000);
    }
  }

  lemma TwoBytes(v: nat)
    requires v < 0x1_0000
    ensures LittleEndian(v, 2) == [v % 0x100, v / 0x100]
  {
    assert LittleEndian(v / 0x100, 1) == [v / 0x100] + LittleEndian(v / 0x100 / 0x100, 0);
  }

  /** The one format that the gadget offers, as it goes over the wire. */
  const OFFERED: seq<Byte> := [
    0x01, 0x00,                 // bmHint: the frame interval is fixed
    0x01, 0x01,                 // bFormatIndex, bFrameIndex
    0x85, 0x45, 0x01, 0x00,     // dwFrameInterval: 83333
    0, 0, 0, 0, 0, 0, 0, 0, 0, 0,
    0x80, 0xac, 0x27, 0x00,     // dwMaxVideoFrameSize: 1332 * 976 * 2
    0x00, 0x04, 0x00, 0x00,     // dwMaxPayloadTransferSize: 1024
    0, 0, 0, 0,                 // dwClockFrequency
    0x03, 0x01, 0x01, 0x01]     // bmFramingInfo, bPreferedVersion, bMinVersion, bMaxVersion

  lemma FourBytes(v: nat, a: Byte, b: Byte, c: Byte, d: Byte)
    requires v == a + 0x100 * b + 0x1_0000 * c + 0x100_0000 * d
    ensures LittleEndian(v, 4) == [a, b, c, d]
  {
    var v1, v2 := b + 0x100 * c + 0x1_0000 * d, c + 0x100 * d;
    assert v / 0x100 == v1 && v1 / 0x100 == v2 && v2 / 0x100 == d;
    assert LittleEndian(v2, 2) == [c, d] by {
      TwoBytes(v2);
    }
    assert LittleEndian(v1, 3) == [b] + LittleEndian(v2, 2);
  }

  lemma OfferedIs()
    ensures STREAMING_CONTROL == OFFERED
  {
    hide LittleEndian;
    TwoBytes(1);
    FourBytes(83333, 0x85, 0x45, 0x01, 0x00);
    FourBytes(1332 * 976 * 2, 0x80, 0xac, 0x27, 0x00);
    FourBytes(1024, 0x00, 0x04, 0x00, 0x00);
    FourBytes(0, 0, 0, 0, 0);
    var front := LittleEndian(1, 2) + [1, 1] + LittleEndian(83333, 4);
    assert front == OFFERED[..8];
    assert front + Zeros(10) == OFFERED[..18];
    assert front + Zeros(10) + LittleEndian(1332 * 976 * 2, 4) == OFFERED[..22];
    assert front + Zeros(10) + LittleEndian(1332 * 976 * 2, 4) + LittleEndian(1024, 4) == OFFERED[..26];
  }

  lemma OverZeros(bytes: seq<Byte>)
    requires |bytes| <= 60
    ensures Over(Zeros(60), bytes) == bytes + Zeros(60 - |bytes|)
  {}

  /** Probe and commit offer one format and accept whatever they are set to. */
  lemma ProbeAndCommit(g: Gadget, req: Request)
    requires req.index == 0x0001 && req.value / 0x100 in {1, 2}
    ensures var r := Setup(g, req);
      && (match req.request
          case 0x81 => Answers(r, OFFERED)
          case 0x82 => Answers(r, OFFERED)
          case 0x83 => Answers(r, OFFERED)
          case 0x87 => Answers(r, OFFERED)
          case 0x84 => Answers(r, Zeros(34))
          case 0x01 => Answers(r, Zeros(34))
          case 0x85 => Answers(r, [0, 34])
          case 0x86 => Answers(r, [3])
          case _ => Stalls(r, 0x07))
      && r.0.dataPhase == if req.request != 0x01 then None else if req.value / 0x100 == 1 then Some(3) else Some(4)
  {
    hide FindControl, RequestTag, LittleEndian, Over, Zeros;
    Addressed(req);
    OfferedIs();
    OverZeros(OFFERED);
    OverZeros(Zeros(34));
    OverZeros([0, 34]);
    OverZeros([3]);
  }

  /** Every other address is stalled as an invalid request. */
  lemma NoSuchControl(g: Gadget, req: Request)
    requires !(req.index in {0x0000, 0x0100, 0x0200} && req.value / 0x100 == 2)
    requires !(req.index == 0x0001 && req.value / 0x100 in {1, 2})
    ensures Stalls(Setup(g, req), 0x07)
  {
    Addressed(req);
    hide FindControl, RequestTag;
  }

  /** No other address opens a data phase, and no packet touches the mapping of brightness. */
  lemma OthersOpenNothing(g: Gadget, req: Request)
    ensures !(req.index == 0x0001 && req.value / 0x100 in {1, 2}) ==> Setup(g, req).0.dataPhase == None
    ensures Setup(g, req).0.brightness == g.brightness
  {
    Addressed(req);
    hide FindControl, RequestTag, Get;
  }

  /**
   A DATA packet closes the data phase and sets the control that opened it, if that control has a
   handler, positions 2, 3 and 4 of the table; the handler of brightness has its ASSERT.
  */
  lemma DataCloses(g: Gadget)
    ensures var (after, applied, o) := Data(g);
      && (o == Abort <==> g.dataPhase == Some(2) && g.brightness.None?)
      && (o != Abort ==>
            && o == Code(0) && after == g.(dataPhase := None)
            && applied == if g.dataPhase in {Some(2), Some(3), Some(4)} then g.dataPhase else None)
  {}

  // ---------- one request ----------

  /** The host sees a stall exactly when the request error code says that something was wrong. */
  lemma StallIffError(g: Gadget, req: Request)
    ensures Setup(g, req).1.length < 0 <==> Setup(g, req).0.errorCode != NO_ERROR
  {
    FindControlFinds(RequestTag(req), 0);
    hide FindControl;
  }

  /** A read of the Request Error Code Control: GET_CUR of selector 2 of entity 0 on interface 0. */
  predicate AsksForError(req: Request) {
    req.request == 0x81 && req.index == 0x0000 && req.value / 0x100 == 2
  }

  /**
   Reading the error code answers the code of the request before, if and only if the read itself is a
   class request or that code was the one for an invalid request; the read leaves no error behind.
  */
  lemma ErrorCodeRead(g: Gadget, req: Request)
    requires AsksForError(req)
    ensures var (g1, r) := Setup(g, req);
      && r.length == 1 && |r.data| == 60 && g1.errorCode == NO_ERROR
      && (r.data[0] == g.errorCode <==> IsClass(req) || g.errorCode == INVALID_REQUEST)
  {
    TagsInTable();
    assert FindControl(RequestTag(req), 0) == Some(0);
  }

  /**
   Every answer that carries a control's value, and every data phase that is opened, has the length
   that GET_LEN announces.
  */
  lemma AnswersHaveAnnouncedLength(g: Gadget, req: Request, lenReq: Request)
    requires req.request in {GET_CUR, GET_MIN, GET_MAX, GET_DEF, GET_RES, SET_CUR}
    requires lenReq == req.(request := GET_LEN) && Setup(g, req).1.length >= 0
    ensures var announced := Setup(g, lenReq).1;
      && announced.length == 2 && |announced.data| == 60
      && Setup(g, req).1.length == 0x100 * announced.data[0] + announced.data[1]
  {
    FindControlFinds(RequestTag(req), 0);
    assert RequestTag(lenReq) == RequestTag(req);
    var found := FindControl(RequestTag(req), 0);
    if found.Some? {
      assert found.value in {0, 1, 2, 3, 4};
    }
  }

  // ---------- traces ----------

  datatype Event = SetupEvent(req: Request) | DataEvent

  function Handle(g: Gadget, e: Event): (Gadget, Outcome) {
    match e
    case SetupEvent(req) => (Setup(g, req).0, Code(0))
    case DataEvent => var (g1, applied, o) := Data(g); (g1, o)
  }

  function HandleAll(g: Gadget, events: seq<Event>): (Gadget, Outcome)
    decreases |events|
  {
    if events == [] then (g, Code(0)) else
      var (before, o) := HandleAll(g, events[..|events| - 1]);
      if o == Abort then (before, Abort) else Handle(before, events[|events| - 1])
  }

  /** The gadget as uvcOpen makes it: nothing is in progress and no brightness control is mapped. */
  const OPENED := Gadget(NO_ERROR, None, None)

  /** The requests that open a data phase: SET_CUR of selector 1 (probe) or 2 (commit) of entity 0 on interface 1. */
  function OpensDataPhase(e: Event): Option<nat> {
    if e.DataEvent? || e.req.request != 0x01 || e.req.index != 0x0001 then None
    else if e.req.value / 0x100 == 1 then Some(3)
    else if e.req.value / 0x100 == 2 then Some(4)
    else None
  }

  lemma SetupOpens(g: Gadget, req: Request)
    ensures Setup(g, req).0.dataPhase == OpensDataPhase(SetupEvent(req))
  {
    hide Setup;
    if req.index == 0x0001 && req.value / 0x100 in {1, 2} {
      ProbeAndCommit(g, req);
    } else {
      OthersOpenNothing(g, req);
    }
  }

  /** The data phase that is open after a trace is the one that its last event opened. */
  lemma {:induction false} PhaseOfLast(events: seq<Event>)
    ensures HandleAll(OPENED, events).1 == Code(0)
    ensures HandleAll(OPENED, events).0.brightness == None
    ensures HandleAll(OPENED, events).0.dataPhase
      == if events == [] then None else OpensDataPhase(events[|events| - 1])
    decreases |events|
  {
    hide Setup, OpensDataPhase;
    if events != [] {
      PhaseOfLast(events[..|events| - 1]);
      var g := HandleAll(OPENED, events[..|events| - 1]).0;
      var e := events[|events| - 1];
      match e
      case SetupEvent(req) => SetupOpens(g, req); OthersOpenNothing(g, req);
      case DataEvent =>
        NoDataOpens();
        if |events| > 1 {
          OnlyProbeAndCommit(events[|events| - 2]);
        }
    }
  }

  lemma NoDataOpens()
    ensures OpensDataPhase(DataEvent) == None
  {}

  lemma OnlyProbeAndCommit(e: Event)
    ensures OpensDataPhase(e).Some? ==>
      OpensDataPhase(e).value < |TABLE| && TABLE[OpensDataPhase(e).value].setData == Some(ProbeCommitSet)
  {}

  /** Whose set_data runs when a DATA packet follows these events. */
  function AppliedAfter(events: seq<Event>): Option<nat> {
    Data(HandleAll(OPENED, events).0).1
  }

  /**
   The data phase over any interleaving of SETUP and DATA packets: a DATA packet runs set_data exactly
   when the packet just before it is a SETUP that asked to set probe or commit, and then on that
   control. So it runs once for each such SETUP that is followed by its DATA, and never otherwise,
   and no trace reaches the ASSERT of the brightness setter.
  */
  lemma DataPhaseExactly(events: seq<Event>)
    ensures AppliedAfter(events) == if events == [] then None else OpensDataPhase(events[|events| - 1])
    ensures HandleAll(OPENED, events + [DataEvent]).1 == Code(0)
    ensures AppliedAfter(events + [DataEvent]) == None
  {
    hide Setup, OpensDataPhase;
    PhaseOfLast(events);
    PhaseOfLast(events + [DataEvent]);
    NoDataOpens();
    if events != [] {
      OnlyProbeAndCommit(events[|events| - 1]);
    }
  }

  lemma {:induction false} DataKeepsError(g: Gadget, n: nat)
    ensures HandleAll(g, seq(n, _ => DataEvent)).0.errorCode == g.errorCode
    decreases n
  {
    if n > 0 {
      DataKeepsError(g, n - 1);
      assert seq(n, _ => DataEvent)[..n - 1] == seq(n - 1, _ => DataEvent);
    }
  }

  /**
   Section 4.2.1.2 of the USB Video Class 1.5 specification, on traces: after any SETUP, with any
   number of DATA packets in between, a class request for the error code answers zero exactly when
   that SETUP was not stalled, and its error code otherwise.
  */
  lemma ErrorCodeOfPreviousRequest(g: Gadget, req: Request, n: nat, read: Request)
    requires AsksForError(read) && IsClass(read)
    ensures var (g1, r1) := Setup(g, req);
      var answer := Setup(HandleAll(g1, seq(n, _ => DataEvent)).0, read).1;
      && answer.length == 1 && |answer.data| == 60 && answer.data[0] == g1.errorCode
      && (answer.data[0] == 0 <==> r1.length >= 0)
  {
    hide Setup, HandleAll;
    StallIffError(g, req);
    var g1 := Setup(g, req).0;
    DataKeepsError(g1, n);
    ErrorCodeRead(HandleAll(g1, seq(n, _ => DataEvent)).0, read);
  }
}
