/** The gadget of src/UVC.c, in place, proved against UvcControls.dfy. */
module UvcGadgets {
  import opened Common
  import opened UvcControls

  class UvcGadget {
    var errorCode: Byte
    var dataPhase: Option<nat>
    var brightness: Option<V4l2Control>

    ghost function Val(): Gadget
      reads this
    {
      Gadget(errorCode, dataPhase, brightness)
    }

    /** What is left of uvcOpen: all fields are zero. */
    constructor ()
      ensures Val() == OPENED
    {
      errorCode, dataPhase, brightness := NO_ERROR, None, None;
    }

    /** usbUvcDispatchFindControlByTag. */
    static method FindControlByTag(tag: nat) returns (found: Option<nat>)
      ensures found == FindControl(tag, 0)
    {
      var i := 0;
      while i < |TABLE|
        invariant i <= |TABLE|
        invariant FindControl(tag, 0) == FindControl(tag, i)
      {
        if TABLE[i].tag == tag {
          return Some(i);
        }
        i := i + 1;
      }
      found := None;
    }

    /** usbUvcDispatchRequest: the response is filled in on the way. */
    method DispatchRequest(req: Request, response: Response) returns (out: Response, code: int)
      modifies this`dataPhase
      ensures (Val(), out, code) == Dispatch(old(Val()), req, response)
    {
      out := response;
      var found := FindControlByTag(RequestTag(req));
      if found.None? {
        return out, NO_CONTROL;
      }
      FindControlFinds(RequestTag(req), 0);
      var c := TABLE[found.value];
      if req.request == GET_LEN {
        out := Response(2, Over(out.data, [c.len / 0x100, c.len % 0x100]));
        return out, NO_ERROR;
      }
      if req.request == GET_INFO {
        var info := if c.brightnessInfo then (if brightness.Some? then 3 else 0)
                    else (if c.canGet then 1 else 0) + (if c.canSet then 2 else 0);
        out := Response(1, Over(out.data, [info]));
        return out, NO_ERROR;
      }
      if req.request == SET_CUR {
        if !c.canSet {
          return out, INVALID_REQUEST;
        }
        dataPhase := found;
        out := Response(c.len, Over(out.data, Zeros(c.len)));
        return out, NO_ERROR;
      }
      if req.request in {GET_CUR, GET_MIN, GET_DEF, GET_MAX, GET_RES} {
        if !c.canGet {
          return out, INVALID_REQUEST;
        }
        var (r, err) := Get(c.get, Gadget(errorCode, dataPhase, brightness), req.request, out);
        return r, err;
      }
      code := INVALID_REQUEST;
    }

    /** processEventSetup, up to the response that it sends. */
    method ProcessEventSetup(req: Request) returns (response: Response)
      modifies this`dataPhase, this`errorCode
      ensures (Val(), response) == Setup(old(Val()), req)
      ensures response.length < 0 <==> errorCode != NO_ERROR
    {
      hide Dispatch;
      StallIffError(Val(), req);
      response := Response(-EL2HLT, Zeros(60));
      dataPhase := None;
      if !IsClass(req) {
        errorCode := INVALID_REQUEST;
      }
      var code: int;
      response, code := DispatchRequest(req, response);
      CodeIsByte(Val(), req);
      if code == NO_CONTROL {
        errorCode := INVALID_REQUEST;
        response := response.(length := -1);
      } else if 0 <= code < 0x100 {
        errorCode := code;
        if code != NO_ERROR {
          response := response.(length := -1);
        }
      }
    }

    /** A dispatch answers a request error code, which fits a byte, or that there is no control. */
    lemma CodeIsByte(g: Gadget, req: Request)
      ensures var code := Dispatch(g, req, Response(-EL2HLT, Zeros(60))).2; code == NO_CONTROL || 0 <= code < 0x100
    {}

    /**
     processEventData. The ASSERT of the brightness setter holds whenever a brightness control is
     mapped or not addressed.
    */
    method ProcessEventData() returns (applied: Option<nat>)
      requires Data(Val()).2 != Abort
      modifies this`dataPhase
      ensures (Val(), applied) == (Data(old(Val())).0, Data(old(Val())).1)
    {
      applied := None;
      if dataPhase.Some? && dataPhase.value < |TABLE| && TABLE[dataPhase.value].setData.Some? {
        if TABLE[dataPhase.value].setData.value == BrightnessSet {
          assert brightness.Some?;
        }
        applied := dataPhase;
      }
      dataPhase := None;
    }
  }
}
