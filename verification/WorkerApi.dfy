/** The worker's side of the protocol: messages to and from the broker, and the receive loop with its clock. */
module WorkerApi {
  import opened Bytes
  import opened Protocol
  import opened Messages

  datatype Setup = Setup(service: Frame, endpoint: Frame, heartbeatMsec: nat, reconnectMsec: nat, fullLiveness: nat)

  /** One message handed to the socket, and when. */
  datatype Sent = Sent(at: nat, wire: seq<Frame>)

  /** What one poll gives: a message after some milliseconds, or nothing for a whole heartbeat period.
      `cost` is the time the rest of the round takes. */
  datatype Poll =
    | Arrives(after: nat, cost: nat, wire: seq<Frame>)
    | Timeout(cost: nat)

  /** The fields the loop changes, the clock and everything sent so far. */
  datatype Pace = Pace(clock: nat, heartbeatAt: int, liveness: nat, sent: seq<Sent>)

  // ---------------------------------------------------------------- messages

  function ToBroker(command: Frame, parts: seq<Frame>): seq<Frame>
  {
    [EMPTY_FRAME, MDPW_WORKER, command] + parts
  }

  function ReadyWire(setup: Setup): seq<Frame>
  {
    ToBroker(MDPW_READY, [CStr(setup.service), CStr(setup.endpoint)])
  }

  const HEARTBEAT_WIRE := ToBroker(MDPW_HEARTBEAT, [])

  /** A message from the broker that passes the asserts of the loop. */
  predicate Acceptable(wire: seq<Frame>)
  {
    && |wire| >= 3 && wire[0] == [] && wire[1] == MDPW_WORKER
    && (wire[2] == MDPW_REQUEST ==> |wire| > 3)
  }

  /** A message arrives, with this command. */
  predicate Says(poll: Poll, command: Frame) { poll.Arrives? && |poll.wire| > 2 && poll.wire[2] == command }

  predicate IsRequest(poll: Poll)
  {
    poll.Arrives? && Acceptable(poll.wire) && poll.wire[2] == MDPW_REQUEST
  }

  /** What the loop hands to the service: the address for the reply, and the frames behind it. */
  function ReplyAddress(wire: seq<Frame>): Frame
    requires |wire| > 3
  {
    CStr(wire[3])
  }

  function Payload(wire: seq<Frame>): seq<Frame>
    requires |wire| > 3
  {
    Stripped(wire[4..])
  }

  // ---------------------------------------------------------------- one round

  /** --m_liveness on a size_t. */
  function Decremented(liveness: nat): nat
  {
    if liveness == 0 then 0xFFFF_FFFF_FFFF_FFFF else liveness - 1
  }

  function Refreshed(setup: Setup, p: Pace): Pace
  {
    p.(heartbeatAt := p.clock + setup.heartbeatMsec, liveness := setup.fullLiveness)
  }

  function Reconnected(setup: Setup, p: Pace): Pace
  {
    Refreshed(setup, p.(sent := p.sent + [Sent(p.clock, ReadyWire(setup))]))
  }

  /** The heartbeat at the end of a round, when it is due. */
  function Beaten(setup: Setup, p: Pace): Pace
  {
    if p.clock > p.heartbeatAt then Refreshed(setup, p.(sent := p.sent + [Sent(p.clock, HEARTBEAT_WIRE)])) else p
  }

  /** A message counts as a sign of life; a farewell makes the worker register again. */
  function Heard(setup: Setup, p: Pace, after: nat, cost: nat, wire: seq<Frame>): Pace
  {
    var q := Refreshed(setup, p.(clock := p.clock + after + cost));
    if |wire| > 2 && wire[2] == MDPW_DISCONNECT then Reconnected(setup, q) else q
  }

  function Quiet(setup: Setup, p: Pace, cost: nat): Pace
  {
    var q := p.(clock := p.clock + setup.heartbeatMsec + cost, liveness := Decremented(p.liveness));
    if q.liveness == 0 then Reconnected(setup, q.(clock := q.clock + setup.reconnectMsec)) else q
  }

  function Round(setup: Setup, p: Pace, poll: Poll): Pace
  {
    match poll
    case Arrives(after, cost, wire) =>
      var q := Heard(setup, p, after, cost, wire);
      if IsRequest(poll) then q else Beaten(setup, q)
    case Timeout(cost) => Beaten(setup, Quiet(setup, p, cost))
  }

  function Rounds(setup: Setup, p: Pace, polls: seq<Poll>): Pace
    decreases |polls|
  {
    if polls == [] then p else Rounds(setup, Round(setup, p, polls[0]), polls[1..])
  }

  lemma {:induction false} RoundsSnoc(setup: Setup, p: Pace, polls: seq<Poll>, poll: Poll)
    ensures Rounds(setup, p, polls + [poll]) == Round(setup, Rounds(setup, p, polls), poll)
    decreases |polls|
  {
    if polls == [] {
      assert polls + [poll] == [poll] && [poll][1..] == [];
    } else {
      assert (polls + [poll])[1..] == polls[1..] + [poll];
      RoundsSnoc(setup, Round(setup, p, polls[0]), polls[1..], poll);
    }
  }

  /** At every head of the loop, liveness is between one and its full value, so the decrement never wraps. */
  lemma {:induction false} LivenessInRange(setup: Setup, p: Pace, polls: seq<Poll>)
    requires 1 <= p.liveness <= setup.fullLiveness
    ensures 1 <= Rounds(setup, p, polls).liveness <= setup.fullLiveness
    decreases |polls|
  {
    if polls != [] {
      LivenessInRange(setup, Round(setup, p, polls[0]), polls[1..]);
    }
  }

  // ---------------------------------------------------------------- the program

  class MdWorker {
    const setup: Setup
    var clock: nat
    var heartbeatAt: int
    var liveness: nat
    var sent: seq<Sent>

    ghost function State(): Pace
      reads this
    {
      Pace(clock, heartbeatAt, liveness, sent)
    }

    /** Registers with the broker at once. */
    constructor (setup: Setup, clock: nat)
      ensures this.setup == setup && State() == Reconnected(setup, Pace(clock, 0, setup.fullLiveness, []))
    {
      this.setup, this.clock, heartbeatAt, liveness, sent := setup, clock, 0, setup.fullLiveness, [];
      new;
      ConnectToBroker();
    }

    /** A first empty frame stands for the envelope of a REQ socket. */
    method SendToBroker(command: Frame, msg: ZMsg?)
      requires 0 !in command
      modifies this`sent
      ensures sent == old(sent) + [Sent(clock, ToBroker(command, if msg == null then [] else msg.parts))]
    {
      var copy := new ZMsg();
      if msg != null {
        copy.parts := msg.parts;
      }
      assert CStr(command) == command by { CStrExact(command); }
      assert CStr(MDPW_WORKER) == MDPW_WORKER by { CStrExact(MDPW_WORKER); }
      copy.PushFrontC(command);
      copy.PushFrontC(MDPW_WORKER);
      copy.PushFrontC(EMPTY_FRAME);
      assert copy.parts == ToBroker(command, if msg == null then [] else msg.parts);
      var wire := copy.Send();
      sent := sent + [Sent(clock, wire)];
    }

    method ConnectToBroker()
      modifies this`sent, this`heartbeatAt, this`liveness
      ensures State() == Reconnected(setup, old(State()))
    {
      var msg := new ZMsg();
      msg.PushFrontC(setup.endpoint);
      msg.PushFrontC(setup.service);
      assert msg.parts == [CStr(setup.service), CStr(setup.endpoint)];
      SendToBroker(MDPW_READY, msg);
      UpdateHeartbeatSign();
    }

    method UpdateHeartbeatSign()
      modifies this`heartbeatAt, this`liveness
      ensures State() == Refreshed(setup, old(State()))
    {
      heartbeatAt := clock + setup.heartbeatMsec;
      liveness := setup.fullLiveness;
    }

    /** The answer of a service: header and data, wrapped for the client. */
    method Reply(address: Frame, header: Frame, data: Frame)
      modifies this`sent
      ensures sent == old(sent) + [Sent(clock, ToBroker(MDPW_REPORT, [CStr(address), EMPTY_FRAME, header, data]))]
    {
      var msg := new ZMsg();
      msg.PushFront(data);
      msg.PushFront(header);
      msg.Wrap(address, EMPTY_FRAME);
      assert msg.parts == [CStr(address), EMPTY_FRAME, header, data];
      SendToBroker(MDPW_REPORT, msg);
    }

    /** Waits for the next request; `polls` says what each poll will give, its end is the interrupt. */
    method Recv(polls: seq<Poll>) returns (used: nat, reply: Option<Frame>, msg: ZMsg?)
      requires 1 <= liveness <= setup.fullLiveness
      requires forall i :: 0 <= i < |polls| && polls[i].Arrives? ==> Acceptable(polls[i].wire)
      modifies this`clock, this`heartbeatAt, this`liveness, this`sent
      ensures used <= |polls| && State() == Rounds(setup, old(State()), polls[..used])
      ensures forall i :: 0 <= i < used && Says(polls[i], [2]) ==> i == used - 1
      ensures msg != null <==> used > 0 && Says(polls[used - 1], [2])
      ensures msg == null ==> used == |polls| && reply == None
      ensures msg != null ==>
                && fresh(msg) && |polls[used - 1].wire| > 3
                && reply == Some(ReplyAddress(polls[used - 1].wire)) && msg.parts == Payload(polls[used - 1].wire)
    {
      ghost var p := State();
      used, reply, msg := 0, None, null;
      while used < |polls|
        invariant used <= |polls| && State() == Rounds(setup, p, polls[..used])
        invariant 1 <= liveness <= setup.fullLiveness
        invariant forall i :: 0 <= i < used ==> !IsRequest(polls[i])
      {
        var poll := polls[used];
        ghost var q := State();
        assert polls[..used + 1] == polls[..used] + [poll];
        RoundsSnoc(setup, p, polls[..used], poll);
        used := used + 1;
        match poll
        case Arrives(after, cost, wire) =>
          var command, request := Hear(after, cost, wire);
          if command == MDPW_REQUEST {
            var address := request.Unwrap();
            return used, Some(CStr(address.value)), request;
          }
        case Timeout(cost) =>
          MissOne(cost);
        Beat();
        assert State() == Round(setup, q, poll);
      }
      assert polls[..used] == polls;
    }

    method MissOne(cost: nat)
      modifies this`clock, this`heartbeatAt, this`liveness, this`sent
      ensures State() == Quiet(setup, old(State()), cost)
    {
      clock := clock + setup.heartbeatMsec + cost;
      liveness := Decremented(liveness);
      if liveness == 0 {
        clock := clock + setup.reconnectMsec;
        ConnectToBroker();
      }
    }

    method Beat()
      modifies this`heartbeatAt, this`liveness, this`sent
      ensures State() == Beaten(setup, old(State()))
    {
      if clock > heartbeatAt {
        SendToBroker(MDPW_HEARTBEAT, null);
        UpdateHeartbeatSign();
      }
    }

    /** Takes the three frames of the envelope off, asserting what they are. */
    method Hear(after: nat, cost: nat, wire: seq<Frame>) returns (command: Frame, msg: ZMsg)
      requires Acceptable(wire)
      modifies this`clock, this`heartbeatAt, this`liveness, this`sent
      ensures State() == Heard(setup, old(State()), after, cost, wire)
      ensures fresh(msg) && command == wire[2] && msg.parts == wire[3..]
    {
      clock := clock + after + cost;
      msg := new ZMsg();
      msg.Recv(wire);
      UpdateHeartbeatSign();
      var empty := msg.PopFront();
      assert empty == [];
      var header := msg.PopFront();
      assert header == MDPW_WORKER;
      command := msg.PopFront();
      if command == MDPW_DISCONNECT {
        ConnectToBroker();
      }
    }
  }
}
