/** The client's side of the protocol: sending a request, taking an answer, and asking for a service's endpoint. */
module ClientApi {
  import opened Bytes
  import opened Protocol
  import opened Messages

  const ENDPOINT_MAXLEN := 100

  /** Empty first frame in place of a REQ socket's envelope, protocol header, service name, the caller's frames. */
  function ClientWire(service: Frame, parts: seq<Frame>): seq<Frame>
  {
    [EMPTY_FRAME, MDPC_CLIENT, CStr(service)] + parts
  }

  /** An answer that passes the asserts of recv. */
  predicate Answer(wire: seq<Frame>)
  {
    |wire| >= 4 && wire[0] == [] && wire[1] == MDPC_CLIENT
  }

  /** An answer of mmi.service that passes those of ask_service_info as well. */
  predicate ServiceAnswer(wire: seq<Frame>)
  {
    && Answer(wire) && |wire| >= 6 && wire[4] == MMI_SERVICE
    && (StatusOf(wire[5]) == 200 ==> |wire| >= 7)
  }

  /** atoi on a text without leading blanks or sign. */
  function StatusOf(text: Frame): nat { Digits(text, 0) }

  function Digits(text: Frame, value: nat): nat
  {
    if text == [] || !(48 <= text[0] <= 57) then value else Digits(text[1..], 10 * value + text[0] - 48)
  }

  lemma StatusCodes()
    ensures StatusOf(CODE_OK) == 200 && StatusOf(CODE_UNKNOWN) == 404
    ensures StatusOf(CODE_BAD_COMMAND) == 400 && StatusOf(CODE_UNSUPPORTED) == 501
  {
    ThreeDigits(50, 48, 48);
    ThreeDigits(52, 48, 52);
    ThreeDigits(52, 48, 48);
    ThreeDigits(53, 48, 49);
  }

  lemma ThreeDigits(a: Byte, b: Byte, c: Byte)
    requires 48 <= a <= 57 && 48 <= b <= 57 && 48 <= c <= 57
    ensures StatusOf([a, b, c]) == 100 * (a - 48) + 10 * (b - 48) + c - 48
  {
    assert [a, b, c][1..] == [b, c] && [b, c][1..] == [c] && [c][1..] == [];
    var x, y := a - 48, 10 * (a - 48) + b - 48;
    assert Digits([a, b, c], 0) == Digits([b, c], x);
    assert Digits([b, c], x) == Digits([c], y);
    assert Digits([c], y) == Digits([], 10 * y + c - 48);
  }

  class MdClient {
    var endpoints: map<Frame, Frame>   // what is known about services; the first answer stays

    constructor ()
      ensures endpoints == map[]
    {
      endpoints := map[];
    }

    method Send(service: Frame, request: ZMsg) returns (wire: seq<Frame>)
      modifies request
      ensures wire == ClientWire(service, old(request.parts)) && request.parts == []
    {
      assert CStr(MDPC_CLIENT) == MDPC_CLIENT by { CStrExact(MDPC_CLIENT); }
      ghost var parts := request.parts;
      request.PushFrontC(service);
      request.PushFrontC(MDPC_CLIENT);
      request.PushFrontC(EMPTY_FRAME);
      assert request.parts == ClientWire(service, parts);
      wire := request.Send();
    }

    method Recv(wire: seq<Frame>) returns (msg: ZMsg)
      requires Answer(wire)
      ensures fresh(msg) && msg.parts == wire[3..]
    {
      msg := new ZMsg();
      msg.Recv(wire);
      var empty := msg.PopFront();
      assert empty == [];
      var header := msg.PopFront();
      assert header == MDPC_CLIENT;
      var _ := msg.PopFront();
    }

    method AskServiceInfo(name: Frame) returns (wire: seq<Frame>)
      ensures wire == ClientWire(MMI_SERVICE, [CStr(name)])
    {
      var request := new ZMsg();
      request.PushFrontC(name);
      wire := Send(MMI_SERVICE, request);
    }

    /** Status 0 stands for no answer in time. */
    method TakeServiceInfo(name: Frame, reply: Option<seq<Frame>>, bufSize: nat) returns (status: nat, endpoint: Frame)
      requires reply.Some? ==> ServiceAnswer(reply.value)
      modifies this`endpoints
      ensures status == if reply.None? then 0 else StatusOf(reply.value[5])
      ensures endpoint == if status == 200 then Bounded(reply.value[6], bufSize) else []
      ensures endpoints == if status == 200 && CStr(name) !in old(endpoints)
                           then old(endpoints)[CStr(name) := Bounded(endpoint, ENDPOINT_MAXLEN)] else old(endpoints)
    {
      status, endpoint := 0, [];
      if reply.Some? {
        var report := Recv(reply.value);
        var _ := report.PopFront();
        var request := report.PopFront();
        assert request == MMI_SERVICE;
        var code := report.PopFront();
        status := StatusOf(code);
        if status == 200 {
          var text := report.PopFront();
          endpoint := Bounded(text, bufSize);
          if CStr(name) !in endpoints {
            endpoints := endpoints[CStr(name) := Bounded(endpoint, ENDPOINT_MAXLEN)];
          }
        }
      }
    }
  }
}
