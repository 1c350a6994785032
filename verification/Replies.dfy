/** The messages of a step other than worker requests, frame by frame. */
module Replies {
  import opened Bytes
  import opened Protocol
  import opened Messages
  import opened Schema
  import opened System

  /** worker_send with an identity and a bare command. */
  function Command(identity: Frame, command: Frame): seq<Frame>
  {
    [CStr(identity), EMPTY_FRAME, MDPW_WORKER, command]
  }

  function Nak(sender: Frame, service: Frame): seq<Frame>
  {
    [CStr(sender), EMPTY_FRAME, MDPC_CLIENT, MDPC_NAK, CStr(service)]
  }

  /** The worker's REPORT payload, readdressed to the client it names. */
  function Forwarded(service: Frame, payload: seq<Frame>): seq<Frame>
    requires payload != []
  {
    [CStr(payload[0]), EMPTY_FRAME, MDPC_CLIENT, MDPC_REPORT, service] + Stripped(payload[1..])
  }

  /** Frames left over for the answer of an internal service, envelope included. */
  function InternalParts(d: Db, sender: Frame, service: Frame, rest: seq<Frame>, asked: Option<Id>): seq<Frame>
    requires |rest| >= 1 && (asked.Some? ==> asked.value in d.services)
  {
    var envelope := [CStr(sender), EMPTY_FRAME];
    if service == MMI_SERVICE then
      if asked.Some? && (d.services[asked.value].state == Activated || d.services[asked.value].state == Registered)
      then envelope + [CODE_OK, CStr(d.services[asked.value].endpoint)]
      else envelope + [CODE_UNKNOWN]
    else if service == MMI_FILTER then
      // the three pops take address, delimiter and the first argument: the answer has no address left
      [EMPTY_FRAME] + (if |rest| == 1 then [] else rest[1..|rest| - 1]) + [CODE_BAD_COMMAND]
    else
      envelope + rest[..|rest| - 1] + [CODE_UNSUPPORTED]
  }

  function InternalReply(service: Frame, parts: seq<Frame>): seq<Frame>
    requires parts != []
  {
    [CStr(parts[0]), EMPTY_FRAME, MDPC_CLIENT, MDPC_REPORT, MDPC_CLIENT, CStr(service)] + Stripped(parts[1..])
  }

  /** What a step sends besides worker requests; all of it goes out before the step dispatches. */
  function RepliesOf(s: State, e: Event, c: Choice, asked: Option<Id>): seq<seq<Frame>>
    requires !Aborts(s, e, c) && Found(s.db, e, c) && (asked.Some? ==> asked.value in s.db.services)
  {
    match e
    case Client(sender, service, rest) =>
      if IsInternal(service) then [InternalReply(service, InternalParts(s.db, sender, service, rest, asked))]
      else if c.service.None? then [Nak(sender, service)] else []
    case Ready(_, _) => if c.who.Some? then [Command(s.db.workers[c.who.value].identity, MDPW_DISCONNECT)] else []
    case Report(sender, payload) =>
      if c.who.None? then [Command(sender, MDPW_DISCONNECT)]
      else [Forwarded(s.db.services[s.db.workers[c.who.value].service].name, payload)]
    case Invalid(sender) => if c.who.None? then [Command(sender, MDPW_DISCONNECT)] else []
    case _ => []
  }

  function OnWire(messages: seq<seq<Frame>>): seq<seq<Frame>>
  {
    seq(|messages|, i requires 0 <= i < |messages| => WireOf(messages[i]))
  }

  function FramesOf(deliveries: seq<Delivery>): seq<seq<Frame>>
  {
    seq(|deliveries|, i requires 0 <= i < |deliveries| => deliveries[i].frames)
  }
}
