/** A request from a client's frames to the worker's hands and back, through the sockets and the tables. */
module Envelope {
  import opened Bytes
  import opened Protocol
  import opened IdentityCodec
  import opened Messages
  import opened Schema
  import opened System
  import opened Invariants
  import opened Conservation
  import opened Affinity
  import opened Runs
  import opened Replies
  import opened Broker
  import opened ClientApi
  import opened WorkerApi

  /** The broker's ROUTER socket puts the sender's identity in front, and takes the receiver's off. */
  function RouterIn(id: Frame, wire: seq<Frame>): seq<Frame> { [id] + wire }

  function RouterOut(wire: seq<Frame>): seq<Frame>
    requires wire != []
  {
    wire[1..]
  }

  /** The broker takes the frames that the socket `id` sent for this event. */
  ghost predicate Brought(id: Frame, wire: seq<Frame>, e: Event)
  {
    var text := TextOf(RouterIn(id, wire));
    WellFormed(text) && EventOf(text) == Some(e)
  }

  // ---------------------------------------------------------------- the event a message becomes

  lemma {:induction false} ClientMessage(id: Frame, service: Frame, parts: seq<Frame>)
    requires id != []
    ensures var text := TextOf(RouterIn(id, ClientWire(service, parts)));
            WellFormed(text) && EventOf(text) == Some(Client(ToText(id), CStr(service), parts))
  {
    var text := TextOf(RouterIn(id, ClientWire(service, parts)));
    assert text == [ToText(id), EMPTY_FRAME, MDPC_CLIENT, CStr(service)] + parts;
    assert text[4..] == parts;
  }

  /** A worker's message by its octets: "MDPW0X", and then 1, 3, 4 and 5 are READY, REPORT, HEARTBEAT and DISCONNECT. */
  lemma {:induction false} WorkerMessage(id: Frame, command: Frame, parts: seq<Frame>)
    requires id != []
    ensures var text := TextOf(RouterIn(id, [[], [77, 68, 80, 87, 48, 88], command] + parts));
            && WellFormed(text)
            && EventOf(text) == Some(
                 if command == [1] then Ready(ToText(id), parts) else if command == [3] then Report(ToText(id), parts)
                 else if command == [4] then Heartbeat(ToText(id)) else if command == [5] then Disconnect(ToText(id))
                 else Invalid(ToText(id)))
  {
    var text := TextOf(RouterIn(id, [[], MDPW_WORKER, command] + parts));
    assert text == [ToText(id), EMPTY_FRAME, MDPW_WORKER] + ([command] + parts);
    assert text[3..] == [command] + parts && ([command] + parts)[1..] == parts;
    assert MDPC_CLIENT[3] != MDPW_WORKER[3];
  }

  /** So the worker's library and the broker agree on what its bare commands are. */
  lemma CommandMessages(id: Frame, command: Frame)
    requires id != []
    ensures Brought(id, HEARTBEAT_WIRE, Heartbeat(ToText(id)))
    ensures Brought(id, ToBroker(MDPW_DISCONNECT, []), Disconnect(ToText(id)))
    ensures command !in {[1], [3], [4], [5]} ==> Brought(id, ToBroker(command, []), Invalid(ToText(id)))
  {
    WorkerMessage(id, [4], []);
    WorkerMessage(id, [5], []);
    WorkerMessage(id, command, []);
  }

  lemma {:induction false} ReportMessage(id: Frame, address: Frame, frames: seq<Frame>)
    requires id != []
    ensures var text := TextOf(RouterIn(id, ToBroker(MDPW_REPORT, [CStr(address), EMPTY_FRAME] + frames)));
            WellFormed(text) && EventOf(text) == Some(Report(ToText(id), [CStr(address), EMPTY_FRAME] + frames))
  {
    WorkerMessage(id, [3], [CStr(address), EMPTY_FRAME] + frames);
  }

  // ---------------------------------------------------------------- accepted requests are kept

  ghost predicate Recorded(s: State)
  {
    forall l :: l in s.log.accepted ==> l < s.db.next
  }

  /** Everything accepted in `s` is accepted in `s'`, unchanged. */
  ghost predicate KeepsAccepted(s: State, s': State)
  {
    Recorded(s') && forall l :: l in s.log.accepted ==> l in s'.log.accepted && s'.log.accepted[l] == s.log.accepted[l]
  }

  lemma ApplyKeepsAccepted(cfg: Config, s: State, a: Action, now: nat)
    requires Recorded(s)
    ensures KeepsAccepted(s, Apply(cfg, s, a, now))
  {
  }

  lemma {:induction false} TraceKeepsAccepted(cfg: Config, s: State, t: seq<Action>, now: nat)
    requires Recorded(s)
    ensures KeepsAccepted(s, ApplyAll(cfg, s, t, now))
    decreases |t|
  {
    if t != [] {
      ApplyKeepsAccepted(cfg, s, t[0], now);
      TraceKeepsAccepted(cfg, Apply(cfg, s, t[0], now), t[1..], now);
    }
  }

  lemma {:induction false} RunKeepsAccepted(cfg: Config, s: State, run: seq<Label>)
    requires Recorded(s) && IsRun(cfg, s, run)
    ensures KeepsAccepted(s, After(cfg, s, run))
    decreases |run|
  {
    if run != [] {
      TraceKeepsAccepted(cfg, s, Trace(s, run[0].event, run[0].choice), run[0].now);
      RunKeepsAccepted(cfg, Step(cfg, s, run[0]), run[1..]);
    }
  }

  /** A request for a known service becomes a letter with exactly its header and body, the last two frames whatever
      comes before them; a request of one frame has no header. */
  lemma RequestAccepted(cfg: Config, s: State, x: Label, sender: Frame, service: Frame, more: seq<Frame>,
                        header: Frame, body: Frame)
    requires Recorded(s) && Legal(cfg, s, x.event, x.now, x.choice)
    requires || x.event == Client(sender, service, more + [header, body])
             || (x.event == Client(sender, service, [body]) && header == EMPTY_FRAME)
    requires !IsInternal(service) && x.choice.service.Some?
    ensures var s' := Step(cfg, s, x);
            && Recorded(s') && s.db.next in s'.log.accepted
            && s'.log.accepted[s.db.next] == Request(sender, x.choice.service.value, header, body)
  {
    var q := RequestOf(sender, x.choice.service.value, x.event.rest);
    assert q == Request(sender, x.choice.service.value, header, body);
    assert Prefix(s, x.event, x.choice) == [Enqueue(q)];
    Unfold1(cfg, s, Enqueue(q), x.now);
    StepParts(cfg, s, x);
    var s1 := Apply(cfg, s, Enqueue(q), x.now);
    assert Enabled(s, Enqueue(q));
    TraceKeepsAccepted(cfg, s1, DispatchTrace(x.choice.d1), x.now);
  }

  /** The worker's socket gives this message as a request; its loop gets the client's return address, and both
      frames exactly when the header cannot pass for a delimiter. */
  predicate Arrived(wire: seq<Frame>, address: Frame, header: Frame, body: Frame)
  {
    && |wire| > 4 && Acceptable(RouterOut(wire)) && RouterOut(wire)[2] == MDPW_REQUEST
    && ReplyAddress(RouterOut(wire)) == address
    && (Payload(RouterOut(wire)) == [header, body] <==> header != [] && header[0] != 0)
  }

  /** One message leaves the broker, an answer with these frames behind the service's name; it goes to the client
      exactly when its identity is addressable. */
  predicate Returned(out: seq<seq<Frame>>, id: Frame, name: Frame, frames: seq<Frame>)
  {
    && |out| == 1 && |out[0]| > 4 && Answer(RouterOut(out[0]))
    && RouterOut(out[0])[3..] == [name] + frames
    && (out[0][0] == id <==> Addressable(id))
  }

  // ---------------------------------------------------------------- rows keep their names

  ghost predicate KeepsRows(d: Db, d': Db)
  {
    && (forall w :: w in d.workers ==> w in d'.workers && d'.workers[w].identity == d.workers[w].identity)
    && (forall v :: v in d.services ==> v in d'.services && d'.services[v].name == d.services[v].name)
  }

  lemma ApplyKeepsRows(cfg: Config, s: State, a: Action, now: nat)
    requires Numbered(s.db)
    ensures KeepsRows(s.db, Apply(cfg, s, a, now).db)
  {
  }

  lemma {:induction false} TraceKeepsRows(cfg: Config, s: State, t: seq<Action>, now: nat)
    requires Sound(s.db)
    ensures KeepsRows(s.db, ApplyAll(cfg, s, t, now).db)
    decreases |t|
  {
    if t != [] {
      ApplyKeepsRows(cfg, s, t[0], now);
      ApplyKeepsSound(cfg, s, t[0], now);
      TraceKeepsRows(cfg, Apply(cfg, s, t[0], now), t[1..], now);
    }
  }

  lemma {:induction false} RunKeepsRows(cfg: Config, s: State, run: seq<Label>)
    requires IsRun(cfg, s, run) && Sound(s.db)
    ensures KeepsRows(s.db, After(cfg, s, run).db)
    decreases |run|
  {
    if run != [] {
      var t := Trace(s, run[0].event, run[0].choice);
      TraceKeepsRows(cfg, s, t, run[0].now);
      TraceKeepsSound(cfg, s, t, run[0].now);
      RunKeepsRows(cfg, Step(cfg, s, run[0]), run[1..]);
    }
  }

  lemma MadeByCreate(cfg: Config, s: State, a: Action, now: nat, w: Id)
    requires w !in s.db.workers && w in Apply(cfg, s, a, now).db.workers
    ensures a.Create? && Apply(cfg, s, a, now).db.workers[w].identity == a.identity
  {
  }

  /** No action but Create makes a worker row, and only READY has one. */
  lemma {:induction false} NewRow(cfg: Config, s: State, t: seq<Action>, now: nat, w: Id, identity: Frame)
    requires Sound(s.db) && w !in s.db.workers && w in ApplyAll(cfg, s, t, now).db.workers
    requires forall a :: a in t && a.Create? ==> a.identity == identity
    ensures ApplyAll(cfg, s, t, now).db.workers[w].identity == identity
    ensures exists a :: a in t && a.Create?
    decreases |t|
  {
    if t != [] {
      var s1 := Apply(cfg, s, t[0], now);
      ApplyKeepsSound(cfg, s, t[0], now);
      if w in s1.db.workers {
        MadeByCreate(cfg, s, t[0], now, w);
        TraceKeepsRows(cfg, s1, t[1..], now);
      } else {
        NewRow(cfg, s1, t[1..], now, w, identity);
      }
    }
  }

  lemma OnlyReadyCreates(s: State, x: Label)
    requires !Aborts(s, x.event, x.choice) && Found(s.db, x.event, x.choice)
    ensures forall a :: a in Trace(s, x.event, x.choice) && a.Create? ==>
              x.event.Ready? && a.identity == Bounded(x.event.sender, IDENTITY_MAXLEN)
  {
    assert forall a :: a in DispatchTrace(x.choice.d1) ==> !a.Create?;
    assert forall a :: a in DispatchTrace(x.choice.d2) ==> !a.Create?;
    assert forall a :: a in Prefix(s, x.event, x.choice) && a.Create? ==>
      x.event.Ready? && a.identity == Bounded(x.event.sender, IDENTITY_MAXLEN);
  }

  /** A worker's row is made by READY of some socket, and carries that socket's return address ever after; it leads
      back there exactly when the socket's identity is addressable. */
  lemma {:induction false} RowOfSocket(cfg: Config, s: State, x: Label, after: seq<Label>, wid: Frame, w: Id)
    requires Sound(s.db) && Legal(cfg, s, x.event, x.now, x.choice) && IsRun(cfg, Step(cfg, s, x), after)
    requires w !in s.db.workers && w in Step(cfg, s, x).db.workers && (x.event.Ready? ==> x.event.sender == ToText(wid))
    ensures x.event.Ready?
    ensures var d := After(cfg, Step(cfg, s, x), after).db;
            && w in d.workers && d.workers[w].identity == ReturnAddress(wid)
            && (ToWire(d.workers[w].identity) == wid <==> Addressable(wid))
  {
    var t := Trace(s, x.event, x.choice);
    OnlyReadyCreates(s, x);
    if x.event.Ready? {
      NewRow(cfg, s, t, x.now, w, ReturnAddress(wid));
    } else {
      NewRow(cfg, s, t, x.now, w, []);
    }
    TraceKeepsSound(cfg, s, t, x.now);
    RunKeepsRows(cfg, Step(cfg, s, x), after);
    ReturnAddressExact(wid);
  }

  // ---------------------------------------------------------------- there

  /** What the worker's socket gives of a delivery, and what the loop makes of it. */
  lemma WorkerTakes(identity: Frame, q: Request)
    ensures var wire := WireOf(ExpectedFrames(identity, q)); var inbox := RouterOut(wire);
            && wire[0] == ToWire(identity)
            && Acceptable(inbox) && inbox[2] == MDPW_REQUEST && |inbox| > 3
            && ReplyAddress(inbox) == Bounded(q.client, IDENTITY_MAXLEN)
            && (Payload(inbox) == [q.header, q.body] <==> q.header != [] && q.header[0] != 0)
            && (q.header == [] || q.header[0] == 0 ==> Payload(inbox) == [q.body])
  {
    var inbox := RouterOut(WireOf(ExpectedFrames(identity, q)));
    CStrExact(Bounded(q.client, IDENTITY_MAXLEN));
    assert inbox[4..] == [q.header, q.body];
  }

  /**
   A client with identity `id` sends [header, body] to a known service; `before` and `after` are any runs around
   that step. Wherever the letter is delivered, it goes to a worker of the table, whose loop gets the
   client's return address; it gets both frames exactly when the header cannot pass for a delimiter.
   */
  lemma {:induction false} RequestReachesWorker(cfg: Config, before: seq<Label>, x: Label, after: seq<Label>,
                             id: Frame, service: Frame, header: Frame, body: Frame, i: nat)
    requires IsRun(cfg, INITIAL, before) && id != []
    requires var s := After(cfg, INITIAL, before);
             && Legal(cfg, s, x.event, x.now, x.choice)
             && IsRun(cfg, Step(cfg, s, x), after)
             && var s' := After(cfg, Step(cfg, s, x), after);
                i < |s'.log.sent| && s'.log.sent[i].letter == s.db.next
    requires Brought(id, ClientWire(service, [header, body]), x.event)
    requires !IsInternal(CStr(service)) && x.choice.service.Some?
    ensures var s' := After(cfg, Step(cfg, After(cfg, INITIAL, before), x), after);
            var wire := WireOf(s'.log.sent[i].frames);
            && Arrived(wire, ReturnAddress(id), header, body) && s'.log.sent[i].worker in s'.db.workers
            && wire[0] == ToWire(s'.db.workers[s'.log.sent[i].worker].identity)
            && forall wid :: s'.db.workers[s'.log.sent[i].worker].identity == ReturnAddress(wid) ==>
                               (wire[0] == wid <==> Addressable(wid))
  {
    ClientMessage(id, service, [header, body]);
    RequestDelivered(cfg, before, x, after, ToText(id), CStr(service), header, body, i);
    forall wid ensures ToWire(ReturnAddress(wid)) == wid <==> Addressable(wid)
    {
      ReturnAddressExact(wid);
    }
  }

  lemma {:induction false} RequestDelivered(cfg: Config, before: seq<Label>, x: Label, after: seq<Label>,
                         sender: Frame, service: Frame, header: Frame, body: Frame, i: nat)
    requires IsRun(cfg, INITIAL, before) && Legal(cfg, After(cfg, INITIAL, before), x.event, x.now, x.choice)
    requires IsRun(cfg, Step(cfg, After(cfg, INITIAL, before), x), after)
    requires x.event == Client(sender, service, [header, body]) && !IsInternal(service) && x.choice.service.Some?
    requires var s := After(cfg, INITIAL, before);
             var sent := After(cfg, Step(cfg, s, x), after).log.sent;
             i < |sent| && sent[i].letter == s.db.next
    ensures var s' := After(cfg, Step(cfg, After(cfg, INITIAL, before), x), after);
            var wire := WireOf(s'.log.sent[i].frames);
            && Arrived(wire, Bounded(sender, IDENTITY_MAXLEN), header, body) && s'.log.sent[i].worker in s'.db.workers
            && wire[0] == ToWire(s'.db.workers[s'.log.sent[i].worker].identity)
  {
    var s' := After(cfg, Step(cfg, After(cfg, INITIAL, before), x), after);
    var q := Request(sender, x.choice.service.value, header, body);
    AcceptedForGood(cfg, before, x, after, sender, service, header, body);
    DeliveredFrames(s', i, q);
    WorkerTakes(s'.db.workers[s'.log.sent[i].worker].identity, q);
  }

  /** In every later state the record is sound and the letter still is that request. */
  lemma {:induction false} AcceptedForGood(cfg: Config, before: seq<Label>, x: Label, after: seq<Label>,
                        sender: Frame, service: Frame, header: Frame, body: Frame)
    requires IsRun(cfg, INITIAL, before) && Legal(cfg, After(cfg, INITIAL, before), x.event, x.now, x.choice)
    requires IsRun(cfg, Step(cfg, After(cfg, INITIAL, before), x), after)
    requires x.event == Client(sender, service, [header, body]) && !IsInternal(service) && x.choice.service.Some?
    ensures var s := After(cfg, INITIAL, before);
            var s' := After(cfg, Step(cfg, s, x), after);
            && Conserved(s') && s.db.next in s'.log.accepted
            && s'.log.accepted[s.db.next] == Request(sender, x.choice.service.value, header, body)
  {
    var s := After(cfg, INITIAL, before);
    var s1 := Step(cfg, s, x);
    assert Sound(s.db) && Conserved(s) by {
      InitialSafe();
      RunSafe(cfg, INITIAL, before);
    }
    assert Recorded(s) by { RunKeepsAccepted(cfg, INITIAL, before); }
    TraceConserves(cfg, s, Trace(s, x.event, x.choice), x.now);
    TwoFrames(header, body);
    RequestAccepted(cfg, s, x, sender, service, [], header, body);
    assert Conserved(After(cfg, s1, after)) by { RunSafe(cfg, s1, after); }
    RunKeepsAccepted(cfg, s1, after);
  }

  lemma TwoFrames(header: Frame, body: Frame)
    ensures [] + [header, body] == [header, body]
  {
  }

  lemma DeliveredFrames(s: State, i: nat, q: Request)
    requires SentFollowsTables(s) && i < |s.log.sent|
    requires s.log.sent[i].letter in s.log.accepted && s.log.accepted[s.log.sent[i].letter] == q
    ensures s.log.sent[i].worker in s.db.workers
    ensures s.log.sent[i].frames == ExpectedFrames(s.db.workers[s.log.sent[i].worker].identity, q)
  {
  }

  // ---------------------------------------------------------------- and back

  /** The worker answers to the address it was given, with any frames. One message leaves the broker: the frames come
      behind the service's name, and it reaches the client exactly when its identity is addressable. */
  lemma ReportReachesClient(cfg: Config, s: State, x: Label, worker: Frame, id: Frame, frames: seq<Frame>)
    requires Sound(s.db) && Legal(cfg, s, x.event, x.now, x.choice) && x.choice.who.Some? && worker != []
    requires Brought(worker, ToBroker(MDPW_REPORT, [CStr(ReturnAddress(id)), EMPTY_FRAME] + frames), x.event)
    ensures Returned(OnWire(RepliesOf(s, x.event, x.choice, None)), id,
                     s.db.services[s.db.workers[x.choice.who.value].service].name, frames)
  {
    ReportMessage(worker, ReturnAddress(id), frames);
    assert CStr(ReturnAddress(id)) == ReturnAddress(id) by { CStrExact(ReturnAddress(id)); }
    ReportReturns(cfg, s, x, id, frames);
  }

  lemma ReportFrames(name: Frame, id: Frame, frames: seq<Frame>)
    ensures OnWire([Forwarded(name, [CStr(ReturnAddress(id)), EMPTY_FRAME] + frames)]) ==
            [[ToWire(ReturnAddress(id))] + ([EMPTY_FRAME, MDPC_CLIENT, MDPC_REPORT, name] + frames)]
  {
    var address := ReturnAddress(id);
    var behind := [EMPTY_FRAME, MDPC_CLIENT, MDPC_REPORT, name] + frames;
    assert CStr(address) == address by { CStrExact(address); }
    var payload := [address, EMPTY_FRAME] + frames;
    assert Stripped(payload[1..]) == frames by {
      assert payload[1..] == [EMPTY_FRAME] + frames && payload[1..][1..] == frames;
    }
    assert Forwarded(name, payload) == [address] + behind;
    WireHead(address, behind);
    assert OnWire([[address] + behind]) == [WireOf([address] + behind)];
  }

  lemma WireHead(address: Frame, behind: seq<Frame>)
    ensures WireOf([address] + behind) == [ToWire(address)] + behind
    ensures RouterOut([address] + behind) == behind
  {
  }

  // ---------------------------------------------------------------- there and back

  /**
   From the client's frames to the client's frames. A client `id` sends [header, body] to a known service; later
   the letter is delivered to a worker `w` that still holds it; the worker answers to the address it was given
   with any frames of its own. Then the request went to the very socket that reports, exactly when the broker can
   answer to its identity; it was intact exactly when the header cannot pass for a delimiter; the answer is one
   message, those frames behind the name the client asked for; it reaches the client exactly when `id` is
   addressable; and the letter is released by `w`.
   */
  lemma {:induction false} RoundTrip(cfg: Config, before: seq<Label>, x: Label, mid: seq<Label>, y: Label,
                                     id: Frame, service: Frame, header: Frame, body: Frame, i: nat, worker: Frame,
                                     answer: seq<Frame>)
    requires IsRun(cfg, INITIAL, before) && id != [] && worker != []
    requires var s := After(cfg, INITIAL, before);
             && Legal(cfg, s, x.event, x.now, x.choice) && IsRun(cfg, Step(cfg, s, x), mid)
             && var s' := After(cfg, Step(cfg, s, x), mid);
                && i < |s'.log.sent| && s'.log.sent[i].letter == s.db.next && s.db.next in s'.db.letters
                && Affine(s'.db) && Legal(cfg, s', y.event, y.now, y.choice)
                && y.choice.who == Some(s'.log.sent[i].worker)
    requires !IsInternal(CStr(service)) && x.choice.service.Some?
    requires Brought(id, ClientWire(service, [header, body]), x.event)
    requires Brought(worker, ToBroker(MDPW_REPORT, [CStr(ReturnAddress(id)), EMPTY_FRAME] + answer), y.event)
    ensures var s := After(cfg, INITIAL, before);
            var s' := After(cfg, Step(cfg, s, x), mid);
            && Arrived(WireOf(s'.log.sent[i].frames), ReturnAddress(id), header, body)
            && (WireOf(s'.log.sent[i].frames)[0] == worker <==> Answerable(worker))
            && Returned(OnWire(RepliesOf(s', y.event, y.choice, None)), id, CStr(service), answer)
            && s.db.next !in Step(cfg, s', y).db.letters
            && s.db.next in Step(cfg, s', y).log.released
            && Step(cfg, s', y).log.released[s.db.next] == s'.log.sent[i].worker
  {
    ClientMessage(id, service, [header, body]);
    ReportMessage(worker, ReturnAddress(id), answer);
    assert CStr(ReturnAddress(id)) == ReturnAddress(id) by { CStrExact(ReturnAddress(id)); }
    TripOfEvents(cfg, before, x, mid, y, id, service, header, body, i, worker, answer);
  }

  lemma {:induction false} TripOfEvents(cfg: Config, before: seq<Label>, x: Label, mid: seq<Label>, y: Label,
                                        id: Frame, service: Frame, header: Frame, body: Frame, i: nat, worker: Frame,
                                        answer: seq<Frame>)
    requires IsRun(cfg, INITIAL, before) && id != [] && worker != []
    requires var s := After(cfg, INITIAL, before);
             && Legal(cfg, s, x.event, x.now, x.choice) && IsRun(cfg, Step(cfg, s, x), mid)
             && var s' := After(cfg, Step(cfg, s, x), mid);
                && i < |s'.log.sent| && s'.log.sent[i].letter == s.db.next && s.db.next in s'.db.letters
                && Affine(s'.db) && Legal(cfg, s', y.event, y.now, y.choice)
                && y.choice.who == Some(s'.log.sent[i].worker)
    requires x.event == Client(ToText(id), CStr(service), [header, body])
    requires !IsInternal(CStr(service)) && x.choice.service.Some?
    requires y.event == Report(ToText(worker), [ReturnAddress(id), EMPTY_FRAME] + answer)
    ensures var s := After(cfg, INITIAL, before);
            var s' := After(cfg, Step(cfg, s, x), mid);
            && Arrived(WireOf(s'.log.sent[i].frames), ReturnAddress(id), header, body)
            && (WireOf(s'.log.sent[i].frames)[0] == worker <==> Answerable(worker))
            && Returned(OnWire(RepliesOf(s', y.event, y.choice, None)), id, CStr(service), answer)
            && s.db.next !in Step(cfg, s', y).db.letters
            && s.db.next in Step(cfg, s', y).log.released
            && Step(cfg, s', y).log.released[s.db.next] == s'.log.sent[i].worker
  {
    var s := After(cfg, INITIAL, before);
    var s' := After(cfg, Step(cfg, s, x), mid);
    var w := s'.log.sent[i].worker;
    RequestDelivered(cfg, before, x, mid, ToText(id), CStr(service), header, body, i);
    ServedByName(cfg, before, x, mid, ToText(id), CStr(service), header, body, i);
    assert CStr(CStr(service)) == CStr(service) by { CStrExact(CStr(service)); }
    ReportReturns(cfg, s', y, id, answer);
    LeavesWith(cfg, s', y, s.db.next);
    assert s'.db.workers[w].identity == CStr(ToText(worker));
    AnswerableExact(worker);
  }

  lemma LeavesWith(cfg: Config, s: State, y: Label, l: Id)
    requires Sound(s.db) && Legal(cfg, s, y.event, y.now, y.choice) && y.event.Report? && y.choice.who.Some?
    requires l in s.db.letters && s.db.letters[l].worker == y.choice.who.value
    ensures var s' := Step(cfg, s, y);
            l !in s'.db.letters && l in s'.log.released && s'.log.released[l] == y.choice.who.value
  {
    ReportRemovesHeld(cfg, s, y);
    assert l in HeldBy(s.db, y.choice.who.value);
  }

  /** The worker that holds the letter serves the service the client named. */
  lemma {:induction false} ServedByName(cfg: Config, before: seq<Label>, x: Label, mid: seq<Label>,
                                       sender: Frame, service: Frame, header: Frame, body: Frame, i: nat)
    requires IsRun(cfg, INITIAL, before) && Legal(cfg, After(cfg, INITIAL, before), x.event, x.now, x.choice)
    requires IsRun(cfg, Step(cfg, After(cfg, INITIAL, before), x), mid)
    requires x.event == Client(sender, service, [header, body]) && !IsInternal(service) && x.choice.service.Some?
    requires var s := After(cfg, INITIAL, before); var s' := After(cfg, Step(cfg, s, x), mid);
             i < |s'.log.sent| && s'.log.sent[i].letter == s.db.next && s.db.next in s'.db.letters && Affine(s'.db)
    ensures var s := After(cfg, INITIAL, before); var s' := After(cfg, Step(cfg, s, x), mid);
            var w := s'.log.sent[i].worker;
            && Sound(s'.db) && w in s'.db.workers && s'.db.letters[s.db.next].worker == w
            && s'.db.workers[w].service in s'.db.services
            && s'.db.services[s'.db.workers[w].service].name == CStr(service)
  {
    var s := After(cfg, INITIAL, before);
    var s1 := Step(cfg, s, x);
    var s' := After(cfg, s1, mid);
    AcceptedForGood(cfg, before, x, mid, sender, service, header, body);
    StaysSound(cfg, before, x, mid);
    TraceKeepsRows(cfg, s, Trace(s, x.event, x.choice), x.now);
    RunKeepsRows(cfg, s1, mid);
    HeldHome(s', i);
  }

  lemma {:induction false} StaysSound(cfg: Config, before: seq<Label>, x: Label, mid: seq<Label>)
    requires IsRun(cfg, INITIAL, before) && Legal(cfg, After(cfg, INITIAL, before), x.event, x.now, x.choice)
    requires IsRun(cfg, Step(cfg, After(cfg, INITIAL, before), x), mid)
    ensures var s := After(cfg, INITIAL, before);
            Sound(s.db) && Sound(Step(cfg, s, x).db) && Sound(After(cfg, Step(cfg, s, x), mid).db)
  {
    var s := After(cfg, INITIAL, before);
    InitialSafe();
    RunSafe(cfg, INITIAL, before);
    TraceConserves(cfg, s, Trace(s, x.event, x.choice), x.now);
    RunSafe(cfg, Step(cfg, s, x), mid);
  }

  /** A letter that was sent and is still stored is held by the worker it was sent to, at home with it. */
  lemma HeldHome(s: State, i: nat)
    requires Partition(s) && Faithful(s) && SentFollowsTables(s) && Sound(s.db) && Affine(s.db)
    requires i < |s.log.sent| && s.log.sent[i].letter in s.db.letters
    ensures var m := s.log.sent[i];
            && m.worker in s.db.workers && s.db.letters[m.letter].worker == m.worker
            && m.letter in s.log.accepted && s.db.workers[m.worker].service == s.log.accepted[m.letter].service
  {
    assert Owner(s, s.log.sent[i].letter, s.log.sent[i].worker);
  }

  lemma ReportReturns(cfg: Config, s: State, y: Label, id: Frame, frames: seq<Frame>)
    requires Sound(s.db) && Legal(cfg, s, y.event, y.now, y.choice) && y.choice.who.Some?
    requires y.event.Report? && y.event.payload == [ReturnAddress(id), EMPTY_FRAME] + frames
    ensures Returned(OnWire(RepliesOf(s, y.event, y.choice, None)), id,
                     s.db.services[s.db.workers[y.choice.who.value].service].name, frames)
  {
    var name := s.db.services[s.db.workers[y.choice.who.value].service].name;
    assert CStr(ReturnAddress(id)) == ReturnAddress(id) by { CStrExact(ReturnAddress(id)); }
    assert RepliesOf(s, y.event, y.choice, None) == [Forwarded(name, y.event.payload)];
    FramesReturn(name, id, frames);
  }

  lemma FramesReturn(name: Frame, id: Frame, frames: seq<Frame>)
    ensures Returned(OnWire([Forwarded(name, [CStr(ReturnAddress(id)), EMPTY_FRAME] + frames)]), id, name, frames)
  {
    var behind := [EMPTY_FRAME, MDPC_CLIENT, MDPC_REPORT, name] + frames;
    ReportFrames(name, id, frames);
    WireHead(ToWire(ReturnAddress(id)), behind);
    assert behind[3..] == [name] + frames;
    ReturnAddressExact(id);
  }

  // ---------------------------------------------------------------- mmi.service

  /** Every service stays as its registration left it, so the other states never show in an answer. */
  ghost predicate AllRegistered(d: Db)
  {
    forall v :: v in d.services ==> d.services[v].state == Registered
  }

  lemma {:induction false} TraceKeepsRegistered(cfg: Config, s: State, t: seq<Action>, now: nat)
    requires AllRegistered(s.db)
    ensures AllRegistered(ApplyAll(cfg, s, t, now).db)
    decreases |t|
  {
    if t != [] {
      var s' := Apply(cfg, s, t[0], now);
      assert AllRegistered(s'.db);
      TraceKeepsRegistered(cfg, s', t[1..], now);
    }
  }

  lemma {:induction false} RunKeepsRegistered(cfg: Config, s: State, run: seq<Label>)
    requires AllRegistered(s.db) && IsRun(cfg, s, run)
    ensures AllRegistered(After(cfg, s, run).db)
    decreases |run|
  {
    if run != [] {
      TraceKeepsRegistered(cfg, s, Trace(s, run[0].event, run[0].choice), run[0].now);
      RunKeepsRegistered(cfg, Step(cfg, s, run[0]), run[1..]);
    }
  }

  /** No 11 octet buffer is on the way of these answers, so longer identities get them too. */
  predicate Answerable(id: Frame)
  {
    IsSocketId(id) || (0 !in id && !LooksEncoded(id))
  }

  lemma AnswerableExact(id: Frame)
    ensures ToWire(CStr(ToText(id))) == id <==> Answerable(id)
  {
    if IsSocketId(id) {
      DecodeEncode(id);
      CStrExact(Encode(id));
    } else {
      CStrExact(id);
    }
  }

  /** A request for a service nobody registered changes nothing; one NAK with the service's name leaves, for exactly
      the answerable clients. */
  lemma {:induction false} RefusalReachesClient(cfg: Config, s: State, x: Label, id: Frame, service: Frame,
                                                parts: seq<Frame>)
    requires Legal(cfg, s, x.event, x.now, x.choice) && x.event == Client(ToText(id), CStr(service), parts)
    requires !IsInternal(CStr(service)) && x.choice.service.None?
    ensures Step(cfg, s, x) == s
    ensures var out := OnWire(RepliesOf(s, x.event, x.choice, None));
            && |out| == 1 && |out[0]| == 5
            && Answer(RouterOut(out[0])) && RouterOut(out[0])[2..] == [MDPC_NAK, CStr(service)]
            && (out[0][0] == id <==> Answerable(id))
  {
    StaysPut(cfg, s, x.event, x.choice, x.now);
    assert CStr(CStr(service)) == CStr(service) by { CStrExact(CStr(service)); }
    AnswerableExact(id);
    var nak := [CStr(ToText(id)), EMPTY_FRAME, MDPC_CLIENT, MDPC_NAK, CStr(service)];
    assert RepliesOf(s, x.event, x.choice, None) == [nak];
    assert OnWire([nak])[0] == WireOf(nak);
  }

  /** Asking for a service in any state of any run: 200 and its endpoint if the table has a service of that name,
      404 if it has none, and the answer reaches exactly the answerable clients. */
  lemma {:induction false} ServiceAskedFor(cfg: Config, run: seq<Label>, e: Event, c: Choice, asked: Option<Id>,
                                           id: Frame, name: Frame)
    requires IsRun(cfg, INITIAL, run) && id != []
    requires var s := After(cfg, INITIAL, run);
             Found(s.db, e, c) && !Aborts(s, e, c) && IsService(s.db, CStr(name), asked)
    requires Brought(id, ClientWire(MMI_SERVICE, [CStr(name)]), e)
    ensures var s := After(cfg, INITIAL, run);
            var out := OnWire(RepliesOf(s, e, c, asked));
            && |out| == 1 && |out[0]| > 4 && (out[0][0] == id <==> Answerable(id))
            && ServiceAnswer(RouterOut(out[0]))
            && StatusOf(RouterOut(out[0])[5]) == (if asked.Some? then 200 else 404)
            && (asked.Some? ==> RouterOut(out[0])[6] == CStr(s.db.services[asked.value].endpoint))
  {
    var s := After(cfg, INITIAL, run);
    assert AllRegistered(s.db) by { RunKeepsRegistered(cfg, INITIAL, run); }
    assert e == Client(ToText(id), MMI_SERVICE, [CStr(name)]) by {
      MmiIsInternal();
      ClientMessage(id, MMI_SERVICE, [CStr(name)]);
    }
    AnswerableExact(id);
    ServiceAnswered(s, c, ToText(id), CStr(name), asked);
  }

  /** From any tables: a service that is activated counts as well, a disabled or unknown one as none. */
  lemma {:induction false} ServiceAnswered(s: State, c: Choice, sender: Frame, name: Frame, asked: Option<Id>)
    requires var e := Client(sender, MMI_SERVICE, [name]); Found(s.db, e, c) && !Aborts(s, e, c)
    requires IsService(s.db, name, asked)
    ensures var out := OnWire(RepliesOf(s, Client(sender, MMI_SERVICE, [name]), c, asked));
            var usable := asked.Some? && s.db.services[asked.value].state in {Registered, Activated};
            && |out| == 1 && |out[0]| > 4 && out[0][0] == ToWire(CStr(sender))
            && ServiceAnswer(RouterOut(out[0]))
            && StatusOf(RouterOut(out[0])[5]) == (if usable then 200 else 404)
            && (usable ==> RouterOut(out[0])[6] == CStr(s.db.services[asked.value].endpoint))
  {
    var e := Client(sender, MMI_SERVICE, [name]);
    var usable := asked.Some? && s.db.services[asked.value].state in {Registered, Activated};
    var tail := if usable then [CODE_OK, CStr(s.db.services[asked.value].endpoint)] else [CODE_UNKNOWN];
    var reply := InternalReply(MMI_SERVICE, [CStr(sender), EMPTY_FRAME] + tail);
    assert RepliesOf(s, e, c, asked) == [reply] by {
      MmiIsInternal();
      assert InternalParts(s.db, sender, MMI_SERVICE, [name], asked) == [CStr(sender), EMPTY_FRAME] + tail;
    }
    InternalFrames(sender, MMI_SERVICE, tail);
    assert OnWire([reply]) == [[ToWire(CStr(sender))] + (InternalHead(MMI_SERVICE) + tail)];
    TailRead(tail);
  }

  /** Every other internal service but mmi.filter: one message leaves, with the name asked for, the asker's own frames
      short of the last, and 501 in its place; it reaches exactly the answerable clients, and changes nothing. */
  lemma {:induction false} UnsupportedAnswered(cfg: Config, s: State, x: Label, id: Frame, name: Frame,
                                               before: Frame, after: Frame, parts: seq<Frame>, asked: Option<Id>)
    requires Legal(cfg, s, x.event, x.now, x.choice) && id != [] && parts != []
    requires Brought(id, ClientWire(name, parts), x.event) && (asked.Some? ==> asked.value in s.db.services)
    requires CStr(name) == before + [109, 109, 105, 46] + after && CStr(name) != MMI_SERVICE && CStr(name) != MMI_FILTER
    ensures Step(cfg, s, x) == s
    ensures var out := OnWire(RepliesOf(s, x.event, x.choice, asked));
            && |out| == 1 && |out[0]| == 6 + |parts| && (out[0][0] == id <==> Answerable(id))
            && RouterOut(out[0])[..5] == [EMPTY_FRAME, MDPC_CLIENT, MDPC_REPORT, MDPC_CLIENT, CStr(name)]
            && RouterOut(out[0])[5..|parts| + 4] == parts[..|parts| - 1]
            && StatusOf(RouterOut(out[0])[|parts| + 4]) == 501
  {
    ClientMessage(id, name, parts);
    PrefixAnywhere(before, after);
    StaysPut(cfg, s, x.event, x.choice, x.now);
    var sender, service := ToText(id), CStr(name);
    var answer := [CStr(sender), EMPTY_FRAME] + parts[..|parts| - 1] + [CODE_UNSUPPORTED];
    assert RepliesOf(s, x.event, x.choice, asked) == [InternalReply(service, answer)];
    assert OnWire([InternalReply(service, answer)]) == [WireOf(InternalReply(service, answer))];
    UnsupportedFrames(id, service, parts);
  }

  lemma {:induction false} UnsupportedFrames(id: Frame, service: Frame, parts: seq<Frame>)
    requires parts != [] && 0 !in service
    ensures var answer := [CStr(ToText(id)), EMPTY_FRAME] + parts[..|parts| - 1] + [CODE_UNSUPPORTED];
            var wire := WireOf(InternalReply(service, answer));
            && |wire| == 6 + |parts| && (wire[0] == id <==> Answerable(id))
            && RouterOut(wire)[..5] == [EMPTY_FRAME, MDPC_CLIENT, MDPC_REPORT, MDPC_CLIENT, service]
            && RouterOut(wire)[5..|parts| + 4] == parts[..|parts| - 1]
            && StatusOf(RouterOut(wire)[|parts| + 4]) == 501
  {
    var sender, tail := ToText(id), parts[..|parts| - 1] + [CODE_UNSUPPORTED];
    CStrExact(service);
    var envelope := [CStr(sender), EMPTY_FRAME];
    assert envelope + parts[..|parts| - 1] + [CODE_UNSUPPORTED] == envelope + tail;
    InternalFrames(sender, service, tail);
    AnswerableExact(id);
    StatusCodes();
    var wire := [ToWire(CStr(sender))] + (InternalHead(service) + tail);
    assert RouterOut(wire) == InternalHead(service) + tail;
    assert (InternalHead(service) + tail)[..5] == InternalHead(service);
    assert (InternalHead(service) + tail)[5..|parts| + 4] == tail[..|parts| - 1] == parts[..|parts| - 1];
  }

  lemma PrefixAnywhere(before: Frame, after: Frame)
    ensures IsInternal(before + MMI_PREFIX + after)
  {
    assert OccursAt(before + MMI_PREFIX + after, MMI_PREFIX, |before|);
  }

  /** mmi.filter: the answer says 400, whatever was asked, and has no address. */
  lemma {:induction false} FilterAnswered(cfg: Config, s: State, x: Label, id: Frame, parts: seq<Frame>,
                                          asked: Option<Id>)
    requires Legal(cfg, s, x.event, x.now, x.choice) && id != []
    requires Brought(id, ClientWire(MMI_FILTER, parts), x.event) && (asked.Some? ==> asked.value in s.db.services)
    ensures Step(cfg, s, x) == s && parts != []
    ensures var out := OnWire(RepliesOf(s, x.event, x.choice, asked));
            && |out| == 1 && |out[0]| > 6 && out[0][0] == []
            && RouterOut(out[0])[..5] == [EMPTY_FRAME, MDPC_CLIENT, MDPC_REPORT, MDPC_CLIENT, MMI_FILTER]
            && StatusOf(out[0][|out[0]| - 1]) == 400
  {
    assert x.event == Client(ToText(id), MMI_FILTER, parts) by { FilterMessage(id, parts); }
    assert Step(cfg, s, x) == s by {
      FilterIsInternal();
      StaysPut(cfg, s, x.event, x.choice, x.now);
    }
    FilterReply(s, x.event, x.choice, ToText(id), parts, asked);
  }

  lemma FilterReply(s: State, e: Event, c: Choice, sender: Frame, parts: seq<Frame>, asked: Option<Id>)
    requires e == Client(sender, MMI_FILTER, parts) && Found(s.db, e, c) && !Aborts(s, e, c)
    requires asked.Some? ==> asked.value in s.db.services
    ensures parts != []
    ensures var out := OnWire(RepliesOf(s, e, c, asked));
            && |out| == 1 && |out[0]| > 6 && out[0][0] == []
            && RouterOut(out[0])[..5] == [EMPTY_FRAME, MDPC_CLIENT, MDPC_REPORT, MDPC_CLIENT, MMI_FILTER]
            && StatusOf(out[0][|out[0]| - 1]) == 400
  {
    FilterIsInternal();
    var given := if |parts| == 1 then [] else parts[1..|parts| - 1];
    var reply := InternalReply(MMI_FILTER, [EMPTY_FRAME] + given + [CODE_BAD_COMMAND]);
    assert RepliesOf(s, e, c, asked) == [reply];
    assert OnWire([reply]) == [WireOf(reply)];
    FilterFrames(given);
  }

  lemma {:induction false} FilterFrames(given: seq<Frame>)
    ensures var wire := WireOf(InternalReply(MMI_FILTER, [EMPTY_FRAME] + given + [CODE_BAD_COMMAND]));
            && |wire| > 6 && wire[0] == []
            && RouterOut(wire)[..5] == [EMPTY_FRAME, MDPC_CLIENT, MDPC_REPORT, MDPC_CLIENT, MMI_FILTER]
            && StatusOf(wire[|wire| - 1]) == 400
  {
    CStrExact(MMI_FILTER);
    var answer, tail := [EMPTY_FRAME] + given + [CODE_BAD_COMMAND], given + [CODE_BAD_COMMAND];
    assert answer[1..] == tail;
    assert tail[|tail| - 1] == CODE_BAD_COMMAND && (|tail| == 1 ==> tail[0] == CODE_BAD_COMMAND);
    var behind := Stripped(tail);
    assert behind != [] && behind[|behind| - 1] == CODE_BAD_COMMAND;
    assert InternalReply(MMI_FILTER, answer) == [EMPTY_FRAME] + (InternalHead(MMI_FILTER) + behind);
    StatusCodes();
  }

  /** The client messages the broker does not survive: no frame behind the name, mmi.service with any number but one,
      and mmi.filter from a client that calls itself "enable" or "disable". */
  lemma {:induction false} ClientAborts(s: State, e: Event, c: Choice, id: Frame, name: Frame, parts: seq<Frame>)
    requires id != [] && Found(s.db, e, c) && Brought(id, ClientWire(name, parts), e)
    ensures Aborts(s, e, c) <==>
              || parts == []
              || (CStr(name) == [109, 109, 105, 46, 115, 101, 114, 118, 105, 99, 101] && |parts| != 1)
              || (CStr(name) == [109, 109, 105, 46, 102, 105, 108, 116, 101, 114]
                  && (CStr(id) == [101, 110, 97, 98, 108, 101] || CStr(id) == [100, 105, 115, 97, 98, 108, 101]))
  {
    assert e == Client(ToText(id), CStr(name), parts) by { ClientMessage(id, name, parts); }
    MmiNames();
    assert CStr(ToText(id)) in {ENABLE, DISABLE} <==> CStr(id) in {ENABLE, DISABLE} by {
      if IsSocketId(id) {
        CStrExact(Encode(id));
      }
    }
  }

  lemma MmiNames()
    ensures MMI_SERVICE == [109, 109, 105, 46, 115, 101, 114, 118, 105, 99, 101]
    ensures MMI_FILTER == [109, 109, 105, 46, 102, 105, 108, 116, 101, 114]
  {
  }

  /** A service is internal exactly when its name holds "mmi." somewhere. */
  lemma InternalExactly(name: Frame)
    ensures IsInternal(name) <==> exists before: Frame, after: Frame :: name == before + [109, 109, 105, 46] + after
  {
    if IsInternal(name) {
      var i :| 0 <= i <= |name| && OccursAt(name, MMI_PREFIX, i);
      assert name == name[..i] + [109, 109, 105, 46] + name[i + 4..];
    }
    forall before: Frame, after: Frame | name == before + [109, 109, 105, 46] + after ensures IsInternal(name)
    {
      PrefixAnywhere(before, after);
    }
  }

  lemma FilterMessage(id: Frame, parts: seq<Frame>)
    requires id != []
    ensures forall e :: Brought(id, ClientWire(MMI_FILTER, parts), e) ==> e == Client(ToText(id), MMI_FILTER, parts)
  {
    CStrExact(MMI_FILTER);
    ClientMessage(id, MMI_FILTER, parts);
  }

  lemma FilterIsInternal()
    ensures IsInternal(MMI_FILTER) && MMI_FILTER != MMI_SERVICE
  {
    assert OccursAt(MMI_FILTER, MMI_PREFIX, 0);
    assert MMI_FILTER[4] != MMI_SERVICE[4];
  }

  lemma TailRead(tail: seq<Frame>)
    requires tail != [] && (tail[0] == CODE_OK ==> |tail| > 1) && (tail[0] == CODE_OK || tail[0] == CODE_UNKNOWN)
    ensures var wire := InternalHead(MMI_SERVICE) + tail;
            && ServiceAnswer(wire) && wire[5] == tail[0] && (|tail| > 1 ==> wire[6] == tail[1])
            && StatusOf(wire[5]) == if tail[0] == CODE_OK then 200 else 404
  {
    MmiIsInternal();
    StatusCodes();
  }

  function InternalHead(service: Frame): seq<Frame>
  {
    [EMPTY_FRAME, MDPC_CLIENT, MDPC_REPORT, MDPC_CLIENT, CStr(service)]
  }

  lemma {:induction false} InternalFrames(sender: Frame, service: Frame, tail: seq<Frame>)
    ensures WireOf(InternalReply(service, [CStr(sender), EMPTY_FRAME] + tail)) ==
            [ToWire(CStr(sender))] + (InternalHead(service) + tail)
  {
    var address, parts := CStr(sender), [CStr(sender), EMPTY_FRAME] + tail;
    assert CStr(address) == address by { CStrExact(address); }
    assert Stripped(parts[1..]) == tail by { assert parts[1..] == [EMPTY_FRAME] + tail && parts[1..][1..] == tail; }
    var reply := InternalReply(service, parts);
    assert reply == [address] + (InternalHead(service) + tail);
    assert reply[0] == address && reply[1..] == InternalHead(service) + tail;
  }
}
