/**
 The broker as the program writes it: handlers that look rows up, change them through the database and edit
 messages in place. Every handler is proved to take one legal step of System, and to send what that step says.
 */
module Broker {
  import opened Bytes
  import opened Protocol
  import opened Messages
  import opened Schema
  import opened Entities
  import opened System
  import opened Invariants
  import opened Affinity
  import opened Runs
  import opened Replies
  import opened ServiceList
  import opened Database

  const IDLE := Dispatching({}, map[], {}, None)

  class Broker {
    const cfg: Config
    const db: DatabaseBroker
    const list: Services
    var outbox: seq<seq<Frame>>   // everything handed to the socket, as it goes over the wire
    ghost var log: Log
    ghost var run: seq<Label>

    constructor (cfg: Config)
      requires cfg.maxServices > 0
      ensures Reached() && run == [] && outbox == [] && this.cfg == cfg && fresh(db) && fresh(list)
      ensures fresh(list.entries)
    {
      this.cfg := cfg;
      db := new DatabaseBroker(cfg);
      list := new Services(cfg.maxServices);
      outbox, log, run := [], INITIAL.log, [];
    }

    ghost function S(): State
      reads this, db
    {
      State(db.Tables(), log)
    }

    ghost predicate Valid()
      reads this, db, list, list.entries
    {
      db.Valid() && db.cfg == cfg && list.Valid() && list.entries.Length == cfg.maxServices
    }

    /** Between messages: the state is the one the steps so far lead to. */
    ghost predicate Reached()
      reads this, db, list, list.entries
    {
      Valid() && IsRun(cfg, INITIAL, run) && S() == After(cfg, INITIAL, run)
    }

    // -------------------------------------------------------------- sending to workers

    /** The protocol header and the routing envelope in front of what is there. */
    method StackEnvelope(msg: ZMsg, identity: Frame, command: Frame)
      requires 0 !in command
      modifies msg
      ensures msg.parts == [CStr(identity), EMPTY_FRAME, MDPW_WORKER, command] + old(msg.parts)
    {
      assert CStr(command) == command by { CStrExact(command); }
      assert CStr(MDPW_WORKER) == MDPW_WORKER by { CStrExact(MDPW_WORKER); }
      msg.PushFrontC(command);
      msg.PushFrontC(MDPW_WORKER);
      msg.Wrap(identity, EMPTY_FRAME);
    }

    method SendCommand(identity: Frame, command: Frame)
      requires 0 !in command
      modifies this`outbox
      ensures outbox == old(outbox) + OnWire([Command(identity, command)])
    {
      var msg := new ZMsg();
      StackEnvelope(msg, identity, command);
      assert msg.parts == Command(identity, command);
      Post(msg);
    }

    /** Hands the message to the socket. */
    method Post(msg: ZMsg)
      modifies this`outbox, msg
      ensures outbox == old(outbox) + OnWire([old(msg.parts)])
    {
      var wire := msg.Send();
      outbox := outbox + [wire];
    }

    method StackRequest(wrk: Worker, letter: Letter) returns (msg: ZMsg)
      requires 0 !in wrk.identity && 0 !in letter.replyTo
      ensures fresh(msg)
      ensures msg.parts == [wrk.identity, EMPTY_FRAME, MDPW_WORKER, MDPW_REQUEST,
                            letter.replyTo, letter.header, letter.data]
    {
      assert CStr(wrk.identity) == wrk.identity by { CStrExact(wrk.identity); }
      assert CStr(letter.replyTo) == letter.replyTo by { CStrExact(letter.replyTo); }
      msg := new ZMsg();
      msg.PushFront(letter.data);
      msg.PushFront(letter.header);
      msg.PushFrontC(letter.replyTo);
      assert msg.parts == [letter.replyTo, letter.header, letter.data];
      StackEnvelope(msg, wrk.identity, MDPW_REQUEST);
    }

    /** The request goes out only after the assignment has committed. */
    method WorkerSend(wrk: Worker, letter: Letter, now: nat)
      requires Valid() && wrk.Mirrors(db.Tables()) && letter.Mirrors(db.Tables())
      requires Enabled(S(), Assign(wrk.id, letter.id))
      modifies this`outbox, this`log, db, wrk, letter
      ensures Valid() && S() == Apply(cfg, old(S()), Assign(old(wrk.id), old(letter.id)), now)
      ensures Posted(old(outbox), old(S()), outbox, S(), [])
    {
      ghost var s, a := S(), Assign(wrk.id, letter.id);
      AssignPosts(cfg, s, wrk.id, letter.id, now, outbox);
      var ok := db.AssignLetterToWorker(wrk, letter, now);
      log := Apply(cfg, s, a, now).log;
      assert S() == Apply(cfg, s, a, now);
      if ok {
        var msg := StackRequest(wrk, letter);
        Post(msg);
      }
    }

    // -------------------------------------------------------------- purge and dispatch

    /** Takes the worker out of service; the farewell goes out before the row changes. */
    method Release(wrk: Worker, disconnect: bool)
      requires Valid() && wrk.Mirrors(db.Tables())
      modifies this`outbox, db, wrk`state
      ensures Valid() && db.Tables() == DisarmTx(old(db.Tables()), {wrk.id})
      ensures outbox == old(outbox) + if disconnect then OnWire([Command(wrk.identity, MDPW_DISCONNECT)]) else []
    {
      if disconnect {
        SendCommand(wrk.identity, MDPW_DISCONNECT);
      }
      var _, found := db.RemoveWorker(wrk);
      assert found == Some(wrk.id);
    }

    method PurgeWorkers(now: nat) returns (ghost c: Dispatching)
      requires Valid()
      modifies this`outbox, db, list, list.entries
      ensures Valid() && outbox == old(outbox) && c.send == None
      ensures PurgeOk(cfg, old(db.Tables()), now, c)
      ensures db.Tables() == DisarmTx(old(db.Tables()), c.purged)
    {
      ghost var d := db.Tables();
      list.Refresh(db.services);
      ghost var ids := list.Listed();
      c := IDLE;
      ghost var n := 0;
      DisarmNothing(d);
      var srv := list.First();
      while srv.Some?
        invariant Valid() && outbox == old(outbox) && c.send == None && list.Listed() == ids && 0 <= n <= |ids|
        invariant srv == (if n < |ids| then Some(ids[n]) else None)
                  && list.current == if n < |ids| then n + 1 else |ids|
        invariant db.Tables() == DisarmTx(d, c.purged)
        invariant PurgedSoFar(d, now, Elements(ids[..n]), c)
        decreases |ids| - n
      {
        ElementsOneMore(ids, n);
        ghost var r := PurgeService(srv.value, now);
        c := PurgeOn(d, now, Elements(ids[..n]), c, srv.value, r);
        srv := list.Next();
        n := n + 1;
      }
      assert ids[..n] == ids;
      PurgeDone(cfg, d, now, ids, c);
      c := c.(listed := Elements(ids));
    }

    /** One round of the purge: the worker that is looked at, if any, goes when its time is over. */
    method PurgeService(svc: Id, now: nat) returns (ghost r: Option<Id>)
      requires Valid()
      modifies this`outbox, db
      ensures Valid() && outbox == old(outbox)
      ensures Examined(old(db.Tables()), svc, r)
      ensures db.Tables() == match r
                             case Some(w) => DisarmTx(old(db.Tables()), Gone(old(db.Tables()), w, now))
                             case None => old(db.Tables())
    {
      r := None;
      DisarmNothing(db.Tables());
      var wrk := db.PopWorker(svc, Armed);
      if wrk != null {
        r := Some(wrk.id);
        var expired := wrk.Expired(now);
        if expired {
          Release(wrk, false);
        }
      }
    }

    /** Turns the message into a letter of the service. */
    method Accept(srv: Service, msg: ZMsg, ghost q: Request, now: nat)
      requires Valid() && srv.id in db.services && Carries(msg.parts, q, srv.id)
      modifies this`log, db
      ensures Valid() && S() == Apply(cfg, old(S()), Enqueue(q), now) && log.sent == old(log.sent)
    {
      ghost var s := S();
      EnqueueStores(cfg, s, msg.parts, q, srv.id, now);
      var letter := new Letter.FromMessage(msg);
      ghost var s' := Apply(cfg, s, Enqueue(q), now);
      var status := db.PushRequestToService(srv, letter, now);
      assert status;
      assert db.Tables() == s'.db;
      log := Apply(cfg, s, Enqueue(q), now).log;
    }

    /** The loop of the program breaks at the end of its first round. */
    method Pair(svc: Id, now: nat) returns (ghost send: Option<(Id, Id)>)
      requires Valid()
      modifies this`outbox, this`log, db
      ensures Valid() && SendOk(old(db.Tables()), svc, send)
      ensures S() == if send.Some? then Apply(cfg, old(S()), Assign(send.value.0, send.value.1), now) else old(S())
      ensures Posted(old(outbox), old(S()), outbox, S(), [])
    {
      send := None;
      var wrk := db.PopWorker(svc, Armed);
      if wrk != null {
        var letter := db.GetWaitingLetter(svc);
        if letter != null {
          send := Some((wrk.id, letter.id));
          WorkerSend(wrk, letter, now);
        }
      }
    }

    /** Stores the request, if there is one, purges, and pairs one armed worker with one waiting letter. */
    method ServiceDispatch(srv: Service, msg: ZMsg?, ghost q: Request, now: nat) returns (ghost c: Dispatching)
      requires Valid() && srv.id in db.services && (msg != null ==> Carries(msg.parts, q, srv.id))
      modifies this`outbox, this`log, db, list, list.entries
      ensures Valid()
      ensures var s := if msg != null then Apply(cfg, old(S()), Enqueue(q), now) else old(S());
              DispatchOk(cfg, s, srv.id, now, c) && S() == ApplyAll(cfg, s, DispatchTrace(c), now)
      ensures Posted(old(outbox), old(S()), outbox, S(), [])
    {
      if msg != null {
        Accept(srv, msg, q, now);
      }
      ghost var s := S();
      c := PurgeWorkers(now);
      ghost var send := Pair(srv.id, now);
      DispatchUnfolds(cfg, s, c.(send := send), now);
      c := c.(send := send);
    }

    /** The worker asks for work: arm it, then dispatch its service. */
    method WorkerWaiting(wrk: Worker, now: nat) returns (ghost key: Option<Id>, ghost c: Dispatching)
      requires Valid() && wrk.Named() && wrk.serviceId in db.services
      modifies this`outbox, this`log, db, list, list.entries, wrk
      ensures Valid() && IsWorker(old(db.Tables()), old(wrk.identity), key)
      ensures var s := ApplyAll(cfg, old(S()), Enlisted(old(wrk.identity), old(wrk.serviceId), key), now);
              && DispatchOk(cfg, s, old(wrk.serviceId), now, c)
              && S() == ApplyAll(cfg, s, DispatchTrace(c), now)
      ensures Posted(old(outbox), old(S()), outbox, S(), [])
    {
      ghost var s := S();
      var ok, found := db.PushWorker(wrk, now);
      assert ok;
      key := found;
      ghost var t := Enlisted(wrk.identity, wrk.serviceId, key);
      JoinedEffect(cfg, s, wrk.identity, wrk.serviceId, key, now);
      log := ApplyAll(cfg, s, t, now).log;
      var service := db.GetServiceById(wrk.serviceId);
      c := ServiceDispatch(service.value, null, NO_REQUEST, now);
    }

    // -------------------------------------------------------------- worker commands

    /** Finds or creates the service, and gives it the endpoint. */
    method ServiceRequire(name: Frame, endpoint: Frame) returns (srv: Service, ghost found: Option<Id>)
      requires Valid() && name != []
      modifies db
      ensures Valid() && IsService(old(db.Tables()), CStr(name), found)
      ensures var d := if found.Some? then old(db.Tables()) else AddServiceTx(cfg, old(db.Tables()), CStr(name));
              srv.id in d.services && db.Tables() == SetEndpointTx(d, srv.id, CStr(endpoint))
      ensures srv.id == if found.Some? then found.value else old(db.next)
    {
      var r := db.GetServiceByName(name);
      if r.Some? {
        srv, found := r.value, Some(r.value.id);
      } else {
        srv := db.AddService(name);
        found := None;
      }
      srv := srv.(endpoint := endpoint);
      db.UpdateService(srv);
    }

    method ProcessReady(worker: Worker?, sender: Frame, msg: ZMsg, now: nat) returns (ghost c: Choice)
      requires Valid() && Looked(db.Tables(), sender, worker)
      requires Survives(S(), Ready(sender, msg.parts))
      modifies this`outbox, this`log, db, list, list.entries, msg, worker
      ensures Valid() && Took(cfg, old(S()), Label(Ready(sender, old(msg.parts)), now, c), S())
      ensures Posted(old(outbox), old(S()), outbox, S(),
                     RepliesOf(old(S()), Ready(sender, old(msg.parts)), c, None))
    {
      ghost var s, e := S(), Ready(sender, msg.parts);
      ghost var svc := if |msg.parts| > 0 then ServiceNamed(s.db, CStr(msg.parts[0])) else None;
      if worker != null {
        c := Choice(Some(worker.id), Some(worker.id), svc, IDLE, IDLE);
        KnownReadyTook(cfg, s, sender, msg.parts, worker.id, svc, now);
        Release(worker, true);
        log := log.(seen := log.seen[worker.id := now]);
      } else {
        c := Choice(None, WorkerNamed(s.db, Bounded(sender, IDENTITY_MAXLEN)), svc, IDLE, IDLE);
        assert Found(s.db, e, c);
        assert |msg.parts| >= 2 && msg.parts[0] != [];
        c := Join(sender, msg, now);
      }
    }

    /** READY of a worker whose full identity has no row. */
    method Join(sender: Frame, msg: ZMsg, now: nat) returns (ghost c: Choice)
      requires Valid() && IsWorker(db.Tables(), CStr(sender), None)
      requires |msg.parts| >= 2 && msg.parts[0] != [] && !IsInternal(sender)
      modifies this`outbox, this`log, db, list, list.entries, msg
      ensures Valid() && c.who == None && Took(cfg, old(S()), Label(Ready(sender, old(msg.parts)), now, c), S())
      ensures Posted(old(outbox), old(S()), outbox, S(), [])
    {
      ghost var s, args, box := S(), msg.parts, outbox;
      var name := msg.PopFront();
      var endpoint := msg.PopFront();
      var service, found := ServiceRequire(name, endpoint);
      OpeningEffect(cfg, s, args, found, now);
      assert S() == ApplyAll(cfg, s, Opening(s, args, Choice(None, None, found, IDLE, IDLE)), now);
      ghost var key, d1, d2 := Enroll(service, sender, now);
      c := Choice(None, key, found, d1, d2);
      JoinTook(cfg, s, sender, args, c, now);
    }

    /** Arms a worker for the service, which dispatches it, and dispatches it once more. */
    method Enroll(service: Service, sender: Frame, now: nat)
      returns (ghost key: Option<Id>, ghost d1: Dispatching, ghost d2: Dispatching)
      requires Valid() && service.id in db.services
      modifies this`outbox, this`log, db, list, list.entries
      ensures Valid() && IsWorker(old(db.Tables()), Bounded(sender, IDENTITY_MAXLEN), key)
      ensures var s1 := ApplyAll(cfg, old(S()), Enlisted(Bounded(sender, IDENTITY_MAXLEN), service.id, key), now);
              var s2 := ApplyAll(cfg, s1, DispatchTrace(d1), now);
              && DispatchOk(cfg, s1, service.id, now, d1) && DispatchOk(cfg, s2, service.id, now, d2)
              && S() == ApplyAll(cfg, s2, DispatchTrace(d2), now)
      ensures Posted(old(outbox), old(S()), outbox, S(), [])
    {
      ghost var s, box := S(), outbox;
      var worker := new Worker(service.id, sender, 0, 0);
      key, d1 := WorkerWaiting(worker, now);
      ghost var s2, box2 := S(), outbox;
      JoinedKeepsServices(cfg, s, Bounded(sender, IDENTITY_MAXLEN), service.id, key, d1, now);
      d2 := ServiceDispatch(service, null, NO_REQUEST, now);
      PostedMore(box, s, box2, s2, outbox, S(), []);
    }

    /** Puts the client's address in front of the worker's answer. */
    method Forward(service: Frame, msg: ZMsg)
      requires msg.parts != [] && 0 !in service
      modifies this`outbox, msg
      ensures outbox == old(outbox) + OnWire([Forwarded(service, old(msg.parts))])
    {
      ghost var payload := msg.parts;
      var client := msg.Unwrap();
      assert CStr(service) == service by { CStrExact(service); }
      assert CStr(MDPC_REPORT) == MDPC_REPORT by { CStrExact(MDPC_REPORT); }
      assert CStr(MDPC_CLIENT) == MDPC_CLIENT by { CStrExact(MDPC_CLIENT); }
      msg.PushFrontC(service);
      msg.PushFrontC(MDPC_REPORT);
      msg.PushFrontC(MDPC_CLIENT);
      msg.Wrap(client.value, EMPTY_FRAME);
      assert msg.parts == Forwarded(service, payload);
      Post(msg);
    }

    /** The asserts of the program on the service's id and the letter's service hold here. */
    method Unburden(worker: Worker, now: nat) returns (service: Service)
      requires Valid() && worker.Mirrors(db.Tables()) && Enabled(S(), Action.Release(worker.id))
      modifies this`log, db, worker
      ensures Valid() && S() == Apply(cfg, old(S()), Action.Release(old(worker.id)), now) && log.sent == old(log.sent)
      ensures worker.identity == old(worker.identity) && worker.serviceId == old(worker.serviceId) && worker.Named()
      ensures service.id == worker.serviceId && service.id in db.services && db.services == old(db.services)
      ensures 0 !in service.name && service.name == db.services[service.id].name
    {
      ghost var s, w := S(), worker.id;
      assert WorkerOk(s.db, w);
      var r := db.GetServiceById(worker.serviceId);
      service := r.value;
      assert service.id == worker.serviceId;
      var _ := db.ReleaseLetterFromWorker(worker);
      log := Apply(cfg, s, Action.Release(w), now).log;
    }

    method ProcessReport(worker: Worker, sender: Frame, msg: ZMsg, now: nat) returns (ghost c: Choice)
      requires Valid() && Looked(db.Tables(), sender, worker)
      requires Survives(S(), Report(sender, msg.parts))
      modifies this`outbox, this`log, db, list, list.entries, msg, worker
      ensures Valid() && Took(cfg, old(S()), Label(Report(sender, old(msg.parts)), now, c), S())
      ensures Posted(old(outbox), old(S()), outbox, S(),
                     RepliesOf(old(S()), Report(sender, old(msg.parts)), c, None))
    {
      ghost var s, e, w := S(), Report(sender, msg.parts), worker.id;
      c := Choice(Some(w), None, None, IDLE, IDLE);
      assert Found(s.db, e, c);
      var service := Unburden(worker, now);
      ghost var key, d := ForwardAndWait(service, worker, msg, now);
      c := c.(d1 := d);
      ReportTook(cfg, s, e, c, key, now);
    }

    /** The answer goes out before the worker's service is dispatched. */
    method ForwardAndWait(service: Service, worker: Worker, msg: ZMsg, now: nat)
      returns (ghost key: Option<Id>, ghost c: Dispatching)
      requires Valid() && worker.Named() && worker.serviceId in db.services && msg.parts != [] && 0 !in service.name
      modifies this`outbox, this`log, db, list, list.entries, msg, worker
      ensures Valid() && IsWorker(old(db.Tables()), old(worker.identity), key)
      ensures var s := ApplyAll(cfg, old(S()), Enlisted(old(worker.identity), old(worker.serviceId), key), now);
              && DispatchOk(cfg, s, old(worker.serviceId), now, c)
              && S() == ApplyAll(cfg, s, DispatchTrace(c), now)
      ensures Posted(old(outbox), old(S()), outbox, S(), [Forwarded(service.name, old(msg.parts))])
    {
      ghost var s, box, replies := S(), outbox, [Forwarded(service.name, msg.parts)];
      Forward(service.name, msg);
      ghost var box1 := outbox;
      key, c := WorkerWaiting(worker, now);
      PostedMore(box, s, box1, s, outbox, S(), replies);
    }

    /** The state of the worker is not looked at: an occupied one is armed as well. */
    method ProcessHeartbeat(worker: Worker, sender: Frame, now: nat) returns (ghost c: Choice)
      requires Valid() && Looked(db.Tables(), sender, worker)
      modifies this`outbox, this`log, db, list, list.entries, worker
      ensures Valid() && Took(cfg, old(S()), Label(Heartbeat(sender), now, c), S())
      ensures Posted(old(outbox), old(S()), outbox, S(), [])
    {
      ghost var s, w := S(), worker.id;
      assert WorkerOk(s.db, w);
      ghost var key, d := WorkerWaiting(worker, now);
      c := Choice(Some(w), None, None, d, IDLE);
      HeartbeatTook(cfg, s, sender, w, key, d, now);
    }

    method ProcessDisconnect(worker: Worker, sender: Frame, now: nat) returns (ghost c: Choice)
      requires Valid() && Looked(db.Tables(), sender, worker)
      modifies this`outbox, this`log, db, worker
      ensures Valid() && Took(cfg, old(S()), Label(Disconnect(sender), now, c), S())
      ensures Posted(old(outbox), old(S()), outbox, S(), [])
    {
      ghost var s, w := S(), worker.id;
      c := Choice(Some(w), None, None, IDLE, IDLE);
      DisconnectTook(cfg, s, sender, w, now);
      Release(worker, false);
      log := log.(seen := log.seen[w := now]);
    }

    /** A message of a worker, its first frame the command. */
    method WorkerMsg(sender: Frame, msg: ZMsg, now: nat) returns (ghost c: Choice)
      requires Valid() && msg.parts != [] && Survives(S(), WorkerEvent(sender, msg.parts))
      modifies this`outbox, this`log, db, list, list.entries, msg
      ensures Valid() && Took(cfg, old(S()), Label(WorkerEvent(sender, old(msg.parts)), now, c), S())
      ensures Posted(old(outbox), old(S()), outbox, S(),
                     RepliesOf(old(S()), WorkerEvent(sender, old(msg.parts)), c, None))
    {
      ghost var s, e := S(), WorkerEvent(sender, msg.parts);
      c := Choice(None, None, None, IDLE, IDLE);
      var command := msg.PopFront();
      var worker := db.GetWorkerByIdent(sender);
      if worker == null && (e.Report? || e.Heartbeat? || e.Invalid?) {
        UnknownWorker(cfg, s, e, c, now);
      }
      var status := true;
      if command == MDPW_READY {
        c := ProcessReady(worker, sender, msg, now);
      } else if command == MDPW_REPORT {
        if worker != null {
          c := ProcessReport(worker, sender, msg, now);
        } else {
          status := false;
        }
      } else if command == MDPW_HEARTBEAT {
        if worker != null {
          c := ProcessHeartbeat(worker, sender, now);
        }
      } else if command == MDPW_DISCONNECT {
        assert worker == null ==> Found(s.db, e, c) && Aborts(s, e, c);
        c := ProcessDisconnect(worker, sender, now);
      } else {
        status := false;
        if worker != null {
          c := c.(who := Some(worker.id));
          StepParts(cfg, s, Label(e, now, c));
        }
      }
      if !status && worker == null {
        SendCommand(sender, MDPW_DISCONNECT);
      }
    }

    // -------------------------------------------------------------- client requests

    /** The mmi services; the message comes with its return envelope. */
    method ServiceInternal(service: Frame, msg: ZMsg, ghost sender: Frame, ghost rest: seq<Frame>)
      returns (ghost asked: Option<Id>)
      requires msg.parts == [CStr(sender), EMPTY_FRAME] + rest && !BadRequest(sender, service, rest)
      modifies this`outbox, msg
      ensures asked.Some? ==> asked.value in db.services
      ensures service == MMI_SERVICE ==> IsService(db.Tables(), CStr(rest[0]), asked)
      ensures outbox ==
                old(outbox) + OnWire([InternalReply(service, InternalParts(db.Tables(), sender, service, rest, asked))])
    {
      asked := FillIn(service, msg, sender, rest);
      SendInternal(service, msg);
    }

    /** The return code takes the place of the last frame. */
    method FillIn(service: Frame, msg: ZMsg, ghost sender: Frame, ghost rest: seq<Frame>)
      returns (ghost asked: Option<Id>)
      requires msg.parts == [CStr(sender), EMPTY_FRAME] + rest && !BadRequest(sender, service, rest)
      modifies msg
      ensures asked.Some? ==> asked.value in db.services
      ensures service == MMI_SERVICE ==> IsService(db.Tables(), CStr(rest[0]), asked)
      ensures msg.parts == InternalParts(db.Tables(), sender, service, rest, asked)
    {
      asked := None;
      ghost var envelope := [CStr(sender), EMPTY_FRAME];
      if service == MMI_SERVICE {
        assert (envelope + rest)[..2] == envelope;
        asked := AskService(msg);
      } else if service == MMI_FILTER {
        assert |rest| > 1 ==> (envelope + rest)[3..|rest| + 1] == rest[1..|rest| - 1];
        FilterCommands(msg);
        assert msg.parts == [EMPTY_FRAME] + (if |rest| == 1 then [] else rest[1..|rest| - 1]) + [CODE_BAD_COMMAND];
      } else {
        ButLast(envelope, rest);
        assert CStr(CODE_UNSUPPORTED) == CODE_UNSUPPORTED by { ConstantsAreText(); }
        msg.BodySet(CODE_UNSUPPORTED);
        assert msg.parts == envelope + rest[..|rest| - 1] + [CODE_UNSUPPORTED];
      }
    }

    /** mmi.filter: what is taken for the operation is the sender's address, so it is never one of the two known. */
    method FilterCommands(msg: ZMsg)
      requires |msg.parts| >= 3 && msg.parts[0] != ENABLE && msg.parts[0] != DISABLE
      modifies msg
      ensures msg.parts == [EMPTY_FRAME] +
                (if |old(msg.parts)| == 3 then [] else old(msg.parts)[3..|old(msg.parts)| - 1]) + [CODE_BAD_COMMAND]
    {
      ghost var parts := msg.parts;
      assert CStr(CODE_BAD_COMMAND) == CODE_BAD_COMMAND by { ConstantsAreText(); }
      var operation := msg.PopFront();
      var _ := msg.PopFront();
      var _ := msg.PopFront();
      assert operation != ENABLE && operation != DISABLE;
      assert msg.parts == parts[3..];
      msg.BodySet(CODE_BAD_COMMAND);
      msg.PushFrontC(EMPTY_FRAME);
    }

    /** mmi.service: is there such a service, and where. */
    method AskService(msg: ZMsg) returns (ghost asked: Option<Id>)
      requires |msg.parts| == 3
      modifies msg
      ensures IsService(db.Tables(), CStr(old(msg.parts[2])), asked)
      ensures msg.parts == old(msg.parts[..2]) +
                (if asked.Some?
                    && (db.services[asked.value].state == Activated || db.services[asked.value].state == Registered)
                 then [CODE_OK, CStr(db.services[asked.value].endpoint)] else [CODE_UNKNOWN])
    {
      assert CStr(CODE_OK) == CODE_OK && CStr(CODE_UNKNOWN) == CODE_UNKNOWN by { ConstantsAreText(); }
      var srv := db.GetServiceByName(msg.parts[2]);
      asked := if srv.Some? then Some(srv.value.id) else None;
      if srv.Some? && (srv.value.state == Activated || srv.value.state == Registered) {
        msg.BodySet(CODE_OK);
        msg.PushBackC(srv.value.endpoint);
      } else {
        msg.BodySet(CODE_UNKNOWN);
      }
    }

    /** Puts protocol header and service name behind the return address. */
    method SendInternal(service: Frame, msg: ZMsg)
      requires msg.parts != []
      modifies this`outbox, msg
      ensures outbox == old(outbox) + OnWire([InternalReply(service, old(msg.parts))])
    {
      StackInternal(service, msg);
      Post(msg);
    }

    method StackInternal(service: Frame, msg: ZMsg)
      requires msg.parts != []
      modifies msg
      ensures msg.parts == InternalReply(service, old(msg.parts))
    {
      ghost var behind := Stripped(msg.parts[1..]);
      var client := msg.Unwrap();
      assert msg.parts == behind;
      StackHead(service, msg);
      msg.Wrap(client.value, EMPTY_FRAME);
    }

    method StackHead(service: Frame, msg: ZMsg)
      modifies msg
      ensures msg.parts == [MDPC_CLIENT, MDPC_REPORT, MDPC_CLIENT, CStr(service)] + old(msg.parts)
    {
      assert CStr(MDPC_CLIENT) == MDPC_CLIENT && CStr(MDPC_REPORT) == MDPC_REPORT by { ConstantsAreText(); }
      msg.Wrap(MDPC_CLIENT, service);
      msg.PushFrontC(MDPC_REPORT);
      msg.PushFrontC(MDPC_CLIENT);
    }

    method Refuse(sender: Frame, service: Frame, msg: ZMsg)
      modifies this`outbox, msg
      ensures outbox == old(outbox) + OnWire([Nak(sender, service)])
    {
      assert CStr(MDPC_CLIENT) == MDPC_CLIENT && CStr(MDPC_NAK) == MDPC_NAK by { ConstantsAreText(); }
      assert CStr(EMPTY_FRAME) == EMPTY_FRAME;
      msg.Clear();
      msg.PushFrontC(service);
      msg.PushFrontC(MDPC_NAK);
      msg.PushFrontC(MDPC_CLIENT);
      msg.Wrap(sender, EMPTY_FRAME);
      assert msg.parts == Nak(sender, service);
      Post(msg);
    }

    /** A request of a client, its first frame the name of the service. */
    method ClientMsg(sender: Frame, msg: ZMsg, now: nat) returns (ghost c: Choice, ghost asked: Option<Id>)
      requires Valid() && msg.parts != [] && !BadRequest(sender, msg.parts[0], msg.parts[1..])
      modifies this`outbox, this`log, db, list, list.entries, msg
      ensures Valid() && Asked(old(db.Tables()), Client(sender, old(msg.parts[0]), old(msg.parts[1..])), asked)
      ensures Took(cfg, old(S()), Label(Client(sender, old(msg.parts[0]), old(msg.parts[1..])), now, c), S())
      ensures Posted(old(outbox), old(S()), outbox, S(),
                     RepliesOf(old(S()), Client(sender, old(msg.parts[0]), old(msg.parts[1..])), c, asked))
    {
      ghost var s, rest, e := S(), msg.parts[1..], Client(sender, msg.parts[0], msg.parts[1..]);
      c := Choice(None, None, ServiceNamed(s.db, CStr(msg.parts[0])), IDLE, IDLE);
      asked := None;
      var name := msg.PopFront();
      assert name == MMI_SERVICE ==> IsInternal(name) by { MmiIsInternal(); }
      if IsInternal(name) {
        StaysPut(cfg, s, e, c, now);
        msg.Wrap(sender, EMPTY_FRAME);
        asked := ServiceInternal(name, msg, sender, rest);
        return;
      }
      var r := db.GetServiceByName(name);
      c := c.(service := if r.Some? then Some(r.value.id) else None);
      if r.None? {
        StaysPut(cfg, s, e, c, now);
        Refuse(sender, name, msg);
        return;
      }
      msg.Wrap(sender, EMPTY_FRAME);
      ghost var q := RequestOf(sender, r.value.id, rest);
      RequestCarried(sender, r.value.id, rest);
      ghost var d := ServiceDispatch(r.value, msg, q, now);
      c := c.(d1 := d);
      RequestTook(cfg, s, sender, name, rest, c, now);
    }

    // -------------------------------------------------------------- the main loop

    /** One message off the socket, past the asserts on its envelope. */
    method Receive(wire: seq<Frame>, now: nat) returns (ghost c: Choice, ghost asked: Option<Id>)
      requires Reached() && WellFormed(TextOf(wire))
      requires EventOf(TextOf(wire)).Some? ==> Survives(S(), EventOf(TextOf(wire)).value)
      modifies this, db, list, list.entries
      ensures Reached()
      ensures match EventOf(TextOf(wire))
              case None => run == old(run) && outbox == old(outbox) && S() == old(S())
              case Some(e) =>
                && Asked(old(db.Tables()), e, asked)
                && run == old(run) + [Label(e, now, c)]
                && Took(cfg, old(S()), Label(e, now, c), S())
                && Posted(old(outbox), old(S()), outbox, S(), RepliesOf(old(S()), e, c, asked))
    {
      var msg := new ZMsg();
      msg.Recv(wire);
      c, asked := Handle(msg, now);
      ghost var e := EventOf(TextOf(wire));
      if e.Some? {
        RunGrows(cfg, run, Label(e.value, now, c), S());
        run := run + [Label(e.value, now, c)];
      }
    }

    /** Takes the envelope off and hands the rest to the client or the worker side. */
    method Handle(msg: ZMsg, now: nat) returns (ghost c: Choice, ghost asked: Option<Id>)
      requires Valid() && WellFormed(msg.parts)
      requires EventOf(msg.parts).Some? ==> Survives(S(), EventOf(msg.parts).value)
      modifies this`outbox, this`log, db, list, list.entries, msg
      ensures Valid()
      ensures match EventOf(old(msg.parts))
              case None => outbox == old(outbox) && S() == old(S())
              case Some(e) =>
                && Asked(old(db.Tables()), e, asked)
                && Took(cfg, old(S()), Label(e, now, c), S())
                && Posted(old(outbox), old(S()), outbox, S(), RepliesOf(old(S()), e, c, asked))
    {
      ghost var parts := msg.parts;
      c, asked := Choice(None, None, None, IDLE, IDLE), None;
      var sender := msg.PopFront();
      var empty := msg.PopFront();
      assert sender != [] && empty == [];
      var header := msg.PopFront();
      assert msg.parts == parts[3..];
      if header == MDPC_CLIENT {
        assert parts[4..] == parts[3..][1..];
        ClientSurvives(S(), parts);
        c, asked := ClientMsg(sender, msg, now);
      } else if header == MDPW_WORKER {
        c := WorkerMsg(sender, msg, now);
      }
    }

    /** The purge between two polls. */
    method Tick(now: nat)
      requires Reached()
      modifies this, db, list, list.entries
      ensures Reached() && outbox == old(outbox)
      ensures exists c :: run == old(run) + [Label(Timer, now, c)] && Took(cfg, old(S()), Label(Timer, now, c), S())
    {
      ghost var s := S();
      ghost var d := PurgeWorkers(now);
      ghost var x := Label(Timer, now, Choice(None, None, None, d, IDLE));
      TimerTook(cfg, s, d, now);
      RunGrows(cfg, run, x, S());
      run := run + [x];
    }
  }

  // ---------------------------------------------------------------- from frames to events

  /** The asserts of the main loop on the first three frames, and the frame each kind of message must have. */
  predicate WellFormed(parts: seq<Frame>)
  {
    && |parts| >= 3 && parts[0] != [] && parts[1] == [] && parts[2] != []
    && (parts[2] == MDPC_CLIENT || parts[2] == MDPW_WORKER ==> |parts| > 3)
  }

  function WorkerEvent(sender: Frame, parts: seq<Frame>): Event
    requires parts != []
  {
    if parts[0] == MDPW_READY then Ready(sender, parts[1..])
    else if parts[0] == MDPW_REPORT then Report(sender, parts[1..])
    else if parts[0] == MDPW_HEARTBEAT then Heartbeat(sender)
    else if parts[0] == MDPW_DISCONNECT then Disconnect(sender)
    else Invalid(sender)
  }

  /** Messages under any other protocol header are dropped. */
  function EventOf(parts: seq<Frame>): Option<Event>
    requires WellFormed(parts)
  {
    if parts[2] == MDPC_CLIENT then Some(Client(parts[0], parts[3], parts[4..]))
    else if parts[2] == MDPW_WORKER then Some(WorkerEvent(parts[0], parts[3..]))
    else None
  }

  // ---------------------------------------------------------------- what handlers promise

  /** `after` adds to `before` the answers and, behind them, the worker requests recorded in between. */
  ghost predicate Posted(before: seq<seq<Frame>>, s: State, after: seq<seq<Frame>>, s': State, replies: seq<seq<Frame>>)
  {
    && s.log.sent <= s'.log.sent
    && after == before + OnWire(replies) + OnWire(FramesOf(s'.log.sent[|s.log.sent|..]))
  }

  lemma PostedMore(a: seq<seq<Frame>>, s: State, b: seq<seq<Frame>>, s1: State, c: seq<seq<Frame>>, s2: State,
                   replies: seq<seq<Frame>>)
    requires Posted(a, s, b, s1, replies) && Posted(b, s1, c, s2, [])
    ensures Posted(a, s, c, s2, replies)
  {
    var n, n1 := |s.log.sent|, |s1.log.sent|;
    assert s2.log.sent[n..] == s1.log.sent[n..] + s2.log.sent[n1..];
  }

  /** The service mmi.service was asked for. */
  ghost predicate Asked(d: Db, e: Event, asked: Option<Id>)
  {
    && (asked.Some? ==> asked.value in d.services)
    && (e.Client? && e.service == MMI_SERVICE && e.rest != [] ==> IsService(d, CStr(e.rest[0]), asked))
  }

  /** One legal step. */
  ghost predicate Took(cfg: Config, s: State, x: Label, s': State)
  {
    Legal(cfg, s, x.event, x.now, x.choice) && s' == Step(cfg, s, x)
  }

  /** An assignment records the very message that WorkerSend sends, or nothing. */
  lemma AssignPosts(cfg: Config, s: State, w: Id, l: Id, now: nat, box: seq<seq<Frame>>)
    requires Sound(s.db) && Enabled(s, Assign(w, l))
    ensures Sound(Apply(cfg, s, Assign(w, l), now).db)
    ensures 0 !in s.db.workers[w].identity && 0 !in s.db.letters[l].origin
    ensures Posted(box, s, if AssignCollides(s.db, w, l) then box
                           else box + OnWire([RequestFrames(s.db.workers[w].identity, s.db.letters[l])]),
                   Apply(cfg, s, Assign(w, l), now), [])
  {
    ApplyKeepsSound(cfg, s, Assign(w, l), now);
    assert LetterOk(s.db, l) && WorkerOk(s.db, w);
    AssignRecords(cfg, s, w, l, now);
  }

  lemma AssignRecords(cfg: Config, s: State, w: Id, l: Id, now: nat)
    requires Enabled(s, Assign(w, l))
    ensures var s' := Apply(cfg, s, Assign(w, l), now);
            && s.log.sent <= s'.log.sent
            && FramesOf(s'.log.sent[|s.log.sent|..]) ==
               if AssignCollides(s.db, w, l) then [] else [RequestFrames(s.db.workers[w].identity, s.db.letters[l])]
  {
  }

  lemma EnqueueStores(cfg: Config, s: State, parts: seq<Frame>, q: Request, svc: Id, now: nat)
    requires Sound(s.db) && svc in s.db.services && Carries(parts, q, svc)
    ensures s.db.next !in s.db.letters && HeldBy(s.db, s.db.next) == {}
    ensures var s' := Apply(cfg, s, Enqueue(q), now);
            && Sound(s'.db) && s'.log.sent == s.log.sent
            && s'.db == EnqueueTx(cfg, s.db, svc, Bounded(parts[0], IDENTITY_MAXLEN),
                                  parts[|parts| - 2], parts[|parts| - 1], now)
  {
    ApplyKeepsSound(cfg, s, Enqueue(q), now);
    EnqueueKeeps(cfg, s.db, q.service, Bounded(q.client, IDENTITY_MAXLEN), q.header, q.body, now);
  }

  lemma {:induction false} DispatchUnfolds(cfg: Config, s: State, c: Dispatching, now: nat)
    ensures var s1 := s.(db := DisarmTx(s.db, c.purged));
            ApplyAll(cfg, s, DispatchTrace(c), now) ==
              if c.send.Some? then Apply(cfg, s1, Assign(c.send.value.0, c.send.value.1), now) else s1
  {
    if c.send.Some? {
      Unfold2(cfg, s, Disarm(c.purged), Assign(c.send.value.0, c.send.value.1), now);
    } else {
      Unfold1(cfg, s, Disarm(c.purged), now);
    }
  }

  /** What Letter's constructor takes from the message is what the request says. */
  predicate Carries(parts: seq<Frame>, q: Request, svc: Id)
  {
    && |parts| >= 2 && q.service == svc
    && Bounded(q.client, IDENTITY_MAXLEN) == Bounded(parts[0], IDENTITY_MAXLEN)
    && q.header == parts[|parts| - 2] && q.body == parts[|parts| - 1]
  }

  /** The protocol's constants hold no NUL, so they pass through C strings. */
  lemma ConstantsAreText()
    ensures CStr(MDPC_CLIENT) == MDPC_CLIENT && CStr(MDPC_REPORT) == MDPC_REPORT && CStr(MDPC_NAK) == MDPC_NAK
    ensures CStr(CODE_OK) == CODE_OK && CStr(CODE_UNKNOWN) == CODE_UNKNOWN
    ensures CStr(CODE_BAD_COMMAND) == CODE_BAD_COMMAND && CStr(CODE_UNSUPPORTED) == CODE_UNSUPPORTED
    ensures CStr(EMPTY_FRAME) == EMPTY_FRAME
  {
    CStrExact(MDPC_CLIENT);
    CStrExact(MDPC_REPORT);
    CStrExact(MDPC_NAK);
    CStrExact(CODE_OK);
    CStrExact(CODE_UNKNOWN);
    CStrExact(CODE_BAD_COMMAND);
    CStrExact(CODE_UNSUPPORTED);
  }

  lemma ButLast(a: seq<Frame>, b: seq<Frame>)
    requires b != []
    ensures (a + b)[..|a| + |b| - 1] == a + b[..|b| - 1]
  {
  }

  lemma MmiIsInternal()
    ensures IsInternal(MMI_SERVICE) && CStr(MMI_SERVICE) == MMI_SERVICE
  {
    assert OccursAt(MMI_SERVICE, MMI_PREFIX, 0);
    CStrExact(MMI_SERVICE);
  }

  /** However the lookups turn out, the message does not run into an assert. */
  ghost predicate Survives(s: State, e: Event)
  {
    forall c :: Found(s.db, e, c) ==> !Aborts(s, e, c)
  }

  /** Where letters and workers agree, that is so for every message but the ones told by their looks; and they agree
      after any run with fitting identities. */
  lemma {:induction false} SurvivesExactly(cfg: Config, s: State, run: seq<Label>, e: Event)
    requires Sound(s.db) && Affine(s.db) && IsRun(cfg, s, run) && AllFit(run)
    ensures Survives(After(cfg, s, run), e) <==> !CallerError(After(cfg, s, run).db, e)
  {
    var s' := After(cfg, s, run);
    RunAffine(cfg, s, run);
    forall c | Found(s'.db, e, c) ensures Aborts(s', e, c) <==> CallerError(s'.db, e)
    {
      AbortsInState(s', e, c);
    }
    var c := SomeChoice(s'.db, e);
    assert Found(s'.db, e, c);
  }

  /** The lookups of a message always have an outcome. */
  ghost function SomeChoice(d: Db, e: Event): (c: Choice)
    ensures Found(d, e, c)
  {
    match e
    case Client(_, service, _) => Choice(None, None, ServiceNamed(d, CStr(service)), IDLE, IDLE)
    case Ready(sender, args) =>
      Choice(WorkerNamed(d, CStr(sender)), WorkerNamed(d, Bounded(sender, IDENTITY_MAXLEN)),
             if |args| > 0 then ServiceNamed(d, CStr(args[0])) else None, IDLE, IDLE)
    case Report(sender, _) => Choice(WorkerNamed(d, CStr(sender)), None, None, IDLE, IDLE)
    case Heartbeat(sender) => Choice(WorkerNamed(d, CStr(sender)), None, None, IDLE, IDLE)
    case Disconnect(sender) => Choice(WorkerNamed(d, CStr(sender)), None, None, IDLE, IDLE)
    case Invalid(sender) => Choice(WorkerNamed(d, CStr(sender)), None, None, IDLE, IDLE)
    case Timer => Choice(None, None, None, IDLE, IDLE)
  }

  /** The handler got the worker's row, or null if there is none. */
  ghost predicate Looked(d: Db, sender: Frame, worker: Worker?)
    reads worker
  {
    if worker == null then IsWorker(d, CStr(sender), None)
    else worker.Mirrors(d) && worker.Named() && worker.identity == CStr(sender)
  }

  ghost function ServiceNamed(d: Db, name: Frame): (r: Option<Id>)
    ensures IsService(d, name, r)
  {
    if v :| v in d.services && d.services[v].name == name then Some(v) else None
  }

  ghost function WorkerNamed(d: Db, identity: Frame): (r: Option<Id>)
    ensures IsWorker(d, identity, r)
  {
    if w :| w in d.workers && d.workers[w].identity == identity then Some(w) else None
  }

  const NO_REQUEST := Request([], 0, [], [])

  /** PushWorker, as actions. */
  function Enlisted(identity: Frame, svc: Id, key: Option<Id>): seq<Action>
  {
    match key
    case Some(w) => [Hear(w), Arm(w, svc)]
    case None => [Create(identity, svc)]
  }

  lemma {:induction false} JoinedEffect(cfg: Config, s: State, identity: Frame, svc: Id, key: Option<Id>, now: nat)
    requires IsWorker(s.db, identity, key) && svc in s.db.services && 0 !in identity && |identity| <= IDENTITY_MAXLEN
    ensures var s' := ApplyAll(cfg, s, Enlisted(identity, svc, key), now);
            && s'.log.sent == s.log.sent
            && s'.log.seen == s.log.seen[(if key.Some? then key.value else s.db.next) := now]
            && s'.db == match key
                        case Some(w) => ArmTx(cfg, s.db, w, svc, now)
                        case None => CreateWorkerTx(cfg, s.db, identity, svc, now)
  {
    match key
    case Some(w) => Unfold2(cfg, s, Hear(w), Arm(w, svc), now);
    case None => Unfold1(cfg, s, Create(identity, svc), now);
  }

  lemma {:induction false} JoinedKeepsServices(cfg: Config, s: State, identity: Frame, svc: Id, key: Option<Id>,
                                               c: Dispatching, now: nat)
    requires IsWorker(s.db, identity, key) && svc in s.db.services && 0 !in identity && |identity| <= IDENTITY_MAXLEN
    ensures ApplyAll(cfg, ApplyAll(cfg, s, Enlisted(identity, svc, key), now), DispatchTrace(c), now).db.services ==
              s.db.services
  {
    JoinedEffect(cfg, s, identity, svc, key, now);
    DispatchUnfolds(cfg, ApplyAll(cfg, s, Enlisted(identity, svc, key), now), c, now);
  }

  lemma {:induction false} OpeningEffect(cfg: Config, s: State, args: seq<Frame>, found: Option<Id>, now: nat)
    requires |args| >= 2 && IsService(s.db, CStr(args[0]), found)
    ensures var c := Choice(None, None, found, IDLE, IDLE);
            var s' := ApplyAll(cfg, s, Opening(s, args, c), now);
            var d := if found.Some? then s.db else AddServiceTx(cfg, s.db, CStr(args[0]));
            && s'.log == s.log
            && s'.db == SetEndpointTx(d, if found.Some? then found.value else s.db.next, CStr(args[1]))
  {
    var endpoint := CStr(args[1]);
    match found
    case Some(v) => Unfold1(cfg, s, SetEndpoint(v, endpoint), now);
    case None => Unfold2(cfg, s, Register(CStr(args[0])), SetEndpoint(s.db.next, endpoint), now);
  }

  lemma {:induction false} JoinTook(cfg: Config, s: State, sender: Frame, args: seq<Frame>, c: Choice, now: nat)
    requires IsWorker(s.db, CStr(sender), None) && !IsInternal(sender) && c.who.None?
    requires |args| >= 2 && args[0] != [] && IsService(s.db, CStr(args[0]), c.service)
    requires IsWorker(s.db, Bounded(sender, IDENTITY_MAXLEN), c.key)
    requires var svc := ServiceOf(s, c);
             var s1 := ApplyAll(cfg, s, Opening(s, args, c), now);
             var s2 := ApplyAll(cfg, s1, Enlisted(Bounded(sender, IDENTITY_MAXLEN), svc, c.key), now);
             && DispatchOk(cfg, s2, svc, now, c.d1)
             && DispatchOk(cfg, ApplyAll(cfg, s2, DispatchTrace(c.d1), now), svc, now, c.d2)
    ensures var svc := ServiceOf(s, c);
            var s1 := ApplyAll(cfg, s, Opening(s, args, c), now);
            var s2 := ApplyAll(cfg, s1, Enlisted(Bounded(sender, IDENTITY_MAXLEN), svc, c.key), now);
            Took(cfg, s, Label(Ready(sender, args), now, c),
                 ApplyAll(cfg, ApplyAll(cfg, s2, DispatchTrace(c.d1), now), DispatchTrace(c.d2), now))
  {
    var e := Ready(sender, args);
    assert Found(s.db, e, c) && !Aborts(s, e, c);
    assert Enlisted(Bounded(sender, IDENTITY_MAXLEN), ServiceOf(s, c), c.key) == Joining(sender, ServiceOf(s, c), c);
    ReadyPrefixEnabled(cfg, s, e, c, now);
    StepParts(cfg, s, Label(e, now, c));
  }

  /** A known worker's message that asks for work: what comes before, the worker row, and the dispatch. */
  lemma {:induction false} ReportTook(cfg: Config, s: State, e: Event, c: Choice, key: Option<Id>, now: nat)
    requires Sound(s.db) && e.Report? && c.who.Some? && Found(s.db, e, c) && !Aborts(s, e, c)
    requires var s1 := Apply(cfg, s, Action.Release(c.who.value), now);
             var row := s.db.workers[c.who.value];
             var s2 := ApplyAll(cfg, s1, Enlisted(row.identity, row.service, key), now);
             IsWorker(s1.db, row.identity, key) && DispatchOk(cfg, s2, row.service, now, c.d1)
    ensures var s1 := Apply(cfg, s, Action.Release(c.who.value), now);
            var row := s.db.workers[c.who.value];
            var s2 := ApplyAll(cfg, s1, Enlisted(row.identity, row.service, key), now);
            Took(cfg, s, Label(e, now, c), ApplyAll(cfg, s2, DispatchTrace(c.d1), now))
  {
    var w := c.who.value;
    var row := s.db.workers[w];
    var s1 := Apply(cfg, s, Action.Release(w), now);
    SameRow(s1.db, w, row.identity, key) by { ReleaseKeeps(s.db, w); }
    ApplyAllConcat(cfg, s, [Action.Release(w)], Enlisted(row.identity, row.service, key), now);
    Unfold1(cfg, s, Action.Release(w), now);
    StepParts(cfg, s, Label(e, now, c));
  }

  lemma SameRow(d: Db, w: Id, identity: Frame, key: Option<Id>)
    requires UniqueIdentities(d.workers) && w in d.workers && d.workers[w].identity == identity
    requires IsWorker(d, identity, key)
    ensures key == Some(w)
  {
  }

  lemma StaysPut(cfg: Config, s: State, e: Event, c: Choice, now: nat)
    requires e.Client? && (IsInternal(e.service) || c.service.None?) && Found(s.db, e, c) && !Aborts(s, e, c)
    ensures Took(cfg, s, Label(e, now, c), s)
  {
    StepParts(cfg, s, Label(e, now, c));
  }

  lemma {:induction false} RequestTook(cfg: Config, s: State, sender: Frame, service: Frame, rest: seq<Frame>,
                                       c: Choice, now: nat)
    requires !IsInternal(service) && c.service.Some? && |rest| >= 1
    requires var e := Client(sender, service, rest); Found(s.db, e, c) && !Aborts(s, e, c)
    requires var s1 := Apply(cfg, s, Enqueue(RequestOf(sender, c.service.value, rest)), now);
             DispatchOk(cfg, s1, c.service.value, now, c.d1)
    ensures var s1 := Apply(cfg, s, Enqueue(RequestOf(sender, c.service.value, rest)), now);
            Took(cfg, s, Label(Client(sender, service, rest), now, c), ApplyAll(cfg, s1, DispatchTrace(c.d1), now))
  {
    Unfold1(cfg, s, Enqueue(RequestOf(sender, c.service.value, rest)), now);
    StepParts(cfg, s, Label(Client(sender, service, rest), now, c));
  }

  lemma UnknownWorker(cfg: Config, s: State, e: Event, c: Choice, now: nat)
    requires e.Report? || e.Heartbeat? || e.Invalid?
    requires Found(s.db, e, c) && c.who.None?
    ensures Took(cfg, s, Label(e, now, c), s)
  {
    StepParts(cfg, s, Label(e, now, c));
  }

  lemma {:induction false} RequestCarried(sender: Frame, svc: Id, rest: seq<Frame>)
    requires |rest| >= 1
    ensures Carries([CStr(sender), EMPTY_FRAME] + rest, RequestOf(sender, svc, rest), svc)
  {
    CStrExact(CStr(sender));
  }

  lemma ClientSurvives(s: State, parts: seq<Frame>)
    requires WellFormed(parts) && parts[2] == MDPC_CLIENT && Survives(s, EventOf(parts).value)
    ensures !BadRequest(parts[0], parts[3], parts[4..])
  {
    var c := Choice(None, None, ServiceNamed(s.db, CStr(parts[3])), IDLE, IDLE);
    assert Found(s.db, EventOf(parts).value, c);
  }

  lemma {:induction false} KnownReadyTook(cfg: Config, s: State, sender: Frame, args: seq<Frame>, w: Id,
                                          svc: Option<Id>, now: nat)
    requires Sound(s.db) && w in s.db.workers && s.db.workers[w].identity == CStr(sender)
    requires |args| > 0 ==> IsService(s.db, CStr(args[0]), svc)
    ensures Took(cfg, s, Label(Ready(sender, args), now, Choice(Some(w), Some(w), svc, IDLE, IDLE)),
                 State(DisarmTx(s.db, {w}), s.log.(seen := s.log.seen[w := now])))
  {
    var x := Label(Ready(sender, args), now, Choice(Some(w), Some(w), svc, IDLE, IDLE));
    assert Bounded(sender, IDENTITY_MAXLEN) == CStr(sender) by { assert WorkerOk(s.db, w); }
    assert Found(s.db, x.event, x.choice);
    Unfold2(cfg, s, Hear(w), Disarm({w}), now);
    StepParts(cfg, s, x);
  }

  lemma {:induction false} DisconnectTook(cfg: Config, s: State, sender: Frame, w: Id, now: nat)
    requires w in s.db.workers && s.db.workers[w].identity == CStr(sender)
    ensures Took(cfg, s, Label(Disconnect(sender), now, Choice(Some(w), None, None, IDLE, IDLE)),
                 State(DisarmTx(s.db, {w}), s.log.(seen := s.log.seen[w := now])))
  {
    var x := Label(Disconnect(sender), now, Choice(Some(w), None, None, IDLE, IDLE));
    assert Found(s.db, x.event, x.choice);
    Unfold2(cfg, s, Hear(w), Disarm({w}), now);
    StepParts(cfg, s, x);
  }

  lemma {:induction false} HeartbeatTook(cfg: Config, s: State, sender: Frame, w: Id, key: Option<Id>, d: Dispatching,
                                         now: nat)
    requires UniqueIdentities(s.db.workers) && w in s.db.workers && s.db.workers[w].identity == CStr(sender)
    requires IsWorker(s.db, CStr(sender), key)
    requires var s1 := ApplyAll(cfg, s, Enlisted(CStr(sender), s.db.workers[w].service, key), now);
             DispatchOk(cfg, s1, s.db.workers[w].service, now, d)
    ensures var s1 := ApplyAll(cfg, s, Enlisted(CStr(sender), s.db.workers[w].service, key), now);
            Took(cfg, s, Label(Heartbeat(sender), now, Choice(Some(w), None, None, d, IDLE)),
                 ApplyAll(cfg, s1, DispatchTrace(d), now))
  {
    var x := Label(Heartbeat(sender), now, Choice(Some(w), None, None, d, IDLE));
    SameRow(s.db, w, CStr(sender), key);
    assert Found(s.db, x.event, x.choice);
    StepParts(cfg, s, x);
  }

  lemma TimerTook(cfg: Config, s: State, d: Dispatching, now: nat)
    requires PurgeOk(cfg, s.db, now, d)
    ensures Took(cfg, s, Label(Timer, now, Choice(None, None, None, d, IDLE)), s.(db := DisarmTx(s.db, d.purged)))
  {
    Unfold1(cfg, s, Disarm(d.purged), now);
  }

  /** The run grows by the step just taken. */
  lemma {:induction false} RunGrows(cfg: Config, run: seq<Label>, x: Label, s: State)
    requires IsRun(cfg, INITIAL, run) && Took(cfg, After(cfg, INITIAL, run), x, s)
    ensures IsRun(cfg, INITIAL, run + [x]) && After(cfg, INITIAL, run + [x]) == s
  {
    RunSnoc(cfg, INITIAL, run, x);
  }

  lemma {:induction false} RunSnoc(cfg: Config, s: State, run: seq<Label>, x: Label)
    requires IsRun(cfg, s, run) && Legal(cfg, After(cfg, s, run), x.event, x.now, x.choice)
    ensures IsRun(cfg, s, run + [x]) && After(cfg, s, run + [x]) == Step(cfg, After(cfg, s, run), x)
    decreases |run|
  {
    if run == [] {
      assert run + [x] == [x] && [x][1..] == [];
    } else {
      RunSnoc(cfg, Step(cfg, s, run[0]), run[1..], x);
      assert (run + [x])[1..] == run[1..] + [x] && (run + [x])[0] == run[0];
    }
  }

  // ---------------------------------------------------------------- purge

  lemma DisarmNothing(d: Db)
    ensures DisarmTx(d, {}) == d
  {
    assert DisarmTx(d, {}).workers == d.workers;
  }

  /** The walk so far: one armed worker looked at per service that has any, the expired ones disarmed. */
  ghost predicate PurgedSoFar(d: Db, now: nat, listed: set<Id>, c: Dispatching)
  {
    && c.examined.Keys <= listed
    && (forall svc :: svc in c.examined ==> ArmedFor(d, c.examined[svc], svc))
    && (forall svc, w :: svc in listed && ArmedFor(d, w, svc) ==> svc in c.examined)
    && c.purged == (set svc | svc in c.examined && d.workers[c.examined[svc]].expiry < now :: c.examined[svc])
  }

  /** What was purged for other services does not hide a worker of this one. */
  lemma PurgePasses(d: Db, now: nat, listed: set<Id>, c: Dispatching, svc: Id)
    requires PurgedSoFar(d, now, listed, c) && svc !in listed
    requires forall w :: !ArmedFor(DisarmTx(d, c.purged), w, svc)
    ensures PurgedSoFar(d, now, listed + {svc}, c)
  {
    forall w | w in d.workers && d.workers[w].service == svc ensures w !in c.purged {}
    assert forall w :: ArmedFor(d, w, svc) ==> ArmedFor(DisarmTx(d, c.purged), w, svc);
  }

  lemma PurgeMeets(d: Db, now: nat, listed: set<Id>, c: Dispatching, svc: Id, w: Id)
    requires PurgedSoFar(d, now, listed, c) && svc !in listed && ArmedFor(DisarmTx(d, c.purged), w, svc)
    ensures w in d.workers && DisarmTx(d, c.purged).workers[w] == d.workers[w]
    ensures var gone := if d.workers[w].expiry < now then {w} else {};
            && PurgedSoFar(d, now, listed + {svc}, c.(examined := c.examined[svc := w], purged := c.purged + gone))
            && DisarmTx(DisarmTx(d, c.purged), gone) == DisarmTx(d, c.purged + gone)
  {
    var gone := if d.workers[w].expiry < now then {w} else {};
    assert w !in c.purged;
    assert DisarmTx(DisarmTx(d, c.purged), gone).workers == DisarmTx(d, c.purged + gone).workers;
    PurgedOneMore(d, now, c.examined, c.purged, svc, w);
  }

  lemma PurgeDone(cfg: Config, d: Db, now: nat, ids: seq<Id>, c: Dispatching)
    requires PurgedSoFar(d, now, Elements(ids), c) && Complete(ids, d.services.Keys, cfg.maxServices)
    ensures PurgeOk(cfg, d, now, c.(listed := Elements(ids)))
  {
    SetOfDistinct(ids);
    assert |d.services| == |d.services.Keys|;
  }

  /** An armed worker of the service, if there is one. */
  ghost predicate Examined(d: Db, svc: Id, r: Option<Id>)
  {
    match r
    case Some(w) => ArmedFor(d, w, svc)
    case None => forall w :: !ArmedFor(d, w, svc)
  }

  function Gone(d: Db, w: Id, now: nat): set<Id>
    requires w in d.workers
  {
    if d.workers[w].expiry < now then {w} else {}
  }

  /** One round more; `d` is what the tables were before the first one. */
  lemma PurgeOn(d: Db, now: nat, listed: set<Id>, c: Dispatching, svc: Id, r: Option<Id>) returns (c': Dispatching)
    requires PurgedSoFar(d, now, listed, c) && svc !in listed && Examined(DisarmTx(d, c.purged), svc, r)
    ensures PurgedSoFar(d, now, listed + {svc}, c') && c'.send == c.send
    ensures DisarmTx(d, c'.purged) ==
              match r
              case Some(w) => DisarmTx(DisarmTx(d, c.purged), Gone(DisarmTx(d, c.purged), w, now))
              case None => DisarmTx(d, c.purged)
  {
    match r
    case None =>
      PurgePasses(d, now, listed, c, svc);
      c' := c;
    case Some(w) =>
      PurgeMeets(d, now, listed, c, svc, w);
      c' := c.(examined := c.examined[svc := w], purged := c.purged + Gone(d, w, now));
  }

  lemma ElementsOneMore(ids: seq<Id>, n: nat)
    requires n < |ids| && forall i, j :: 0 <= i < j < |ids| ==> ids[i] != ids[j]
    ensures Elements(ids[..n + 1]) == Elements(ids[..n]) + {ids[n]} && ids[n] !in Elements(ids[..n])
  {
    assert ids[..n + 1] == ids[..n] + [ids[n]];
  }

  lemma PurgedOneMore(d: Db, now: nat, examined: map<Id, Id>, purged: set<Id>, svc: Id, w: Id)
    requires svc !in examined && w in d.workers && forall v :: v in examined ==> examined[v] in d.workers
    requires purged == (set v | v in examined && d.workers[examined[v]].expiry < now :: examined[v])
    ensures var examined' := examined[svc := w];
            purged + (if d.workers[w].expiry < now then {w} else {})
              == (set v | v in examined' && d.workers[examined'[v]].expiry < now :: examined'[v])
  {
    var examined' := examined[svc := w];
    var purged' := set v | v in examined' && d.workers[examined'[v]].expiry < now :: examined'[v];
    forall x | x in purged ensures x in purged'
    {
      var v :| v in examined && d.workers[examined[v]].expiry < now && examined[v] == x;
      assert v in examined' && examined'[v] == x;
    }
    if d.workers[w].expiry < now {
      assert svc in examined' && examined'[svc] == w;
    }
  }
}
