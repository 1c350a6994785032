/** From the frames a worker's socket sends to what becomes of its row. */
module Commands {
  import opened Bytes
  import opened Protocol
  import opened IdentityCodec
  import opened Schema
  import opened System
  import opened Invariants
  import opened Runs
  import opened Dispatch
  import opened Expiry
  import opened Replies
  import opened Broker
  import opened ClientApi
  import opened Envelope

  /** The broker knows the socket `id` as the worker `w`. */
  ghost predicate Known(d: Db, id: Frame, w: Id)
  {
    id != [] && IsWorker(d, CStr(ToText(id)), Some(w))
  }

  // ---------------------------------------------------------------- HEARTBEAT and DISCONNECT

  /** One round of dispatch keeps the row of a busy worker, and that of one armed a moment ago, unless it gives it a
      letter. */
  lemma AtWorkSurvives(cfg: Config, d: Db, svc: Id, c: Dispatching, now: nat, w: Id)
    requires PurgeOk(cfg, d, now, c) && SendOk(DisarmTx(d, c.purged), svc, c.send)
    requires InState(d, w, Occupied) || (InState(d, w, Armed) && d.workers[w].expiry >= now)
    ensures var d' := Dispatched(cfg, d, c, now);
            && w in d'.workers && d'.services == d.services
            && d'.workers[w].identity == d.workers[w].identity && d'.workers[w].service == d.workers[w].service
            && (d'.workers[w] == d.workers[w] || d'.workers[w].state == Occupied)
  {
    NotPurged(cfg, d, c, now, w);
  }

  /** The frames of a HEARTBEAT from a known worker: it is heard now, and armed for a grace from now on, or busy with
      a letter that has just been given to it. */
  lemma HeartbeatKeeps(cfg: Config, s: State, x: Label, id: Frame, w: Id)
    requires Sound(s.db) && Legal(cfg, s, x.event, x.now, x.choice) && Known(s.db, id, w)
    requires Brought(id, [[], [77, 68, 80, 87, 48, 88], [4]], x.event)
    ensures var s' := Step(cfg, s, x);
            && w in s'.db.workers && w in s'.log.seen && s'.log.seen[w] == x.now
            && (|| (s'.db.workers[w].state == Armed && s'.db.workers[w].expiry == x.now + cfg.Grace())
                || s'.db.workers[w].state == Occupied)
    ensures OnWire(RepliesOf(s, x.event, x.choice, None)) == []
  {
    WorkerMessage(id, [4], []);
    SameRow(s.db, w, CStr(ToText(id)), x.choice.who);
    var s1 := ApplyAll(cfg, s, Prefix(s, x.event, x.choice), x.now);
    var svc := s.db.workers[w].service;
    assert ArmedNow(cfg, s, s1, w, x.now) by { PrefixEffect(cfg, s, x); }
    StepKeepsSeen(cfg, s, x);
    assert Step(cfg, s, x).db == Dispatched(cfg, s1.db, x.choice.d1, x.now) by { StepEffect(cfg, s, x); }
    AtWorkSurvives(cfg, s1.db, svc, x.choice.d1, x.now, w);
  }

  /** The frames of a DISCONNECT from a known worker: it is heard now, disarmed, and nothing else changes. */
  lemma DisconnectLeaves(cfg: Config, s: State, x: Label, id: Frame, w: Id)
    requires Sound(s.db) && Legal(cfg, s, x.event, x.now, x.choice) && Known(s.db, id, w)
    requires Brought(id, [[], [77, 68, 80, 87, 48, 88], [5]], x.event)
    ensures var s' := Step(cfg, s, x);
            && s'.log == s.log.(seen := s.log.seen[w := x.now])
            && s'.db.letters == s.db.letters && s'.db.services == s.db.services
            && s'.db.workers == s.db.workers[w := s.db.workers[w].(state := Disarmed)]
    ensures OnWire(RepliesOf(s, x.event, x.choice, None)) == []
  {
    WorkerMessage(id, [5], []);
    SameRow(s.db, w, CStr(ToText(id)), x.choice.who);
    Unfold2(cfg, s, Hear(w), Disarm({w}), x.now);
    StepParts(cfg, s, x);
  }

  // ---------------------------------------------------------------- unknown workers and unknown commands

  /** REPORT or a command that is none of the four, from a socket without a row, changes nothing and is answered with
      one DISCONNECT, for exactly the answerable sockets; HEARTBEAT from it is passed over. */
  lemma StrangerDismissed(cfg: Config, s: State, x: Label, id: Frame, command: Frame, parts: seq<Frame>)
    requires Legal(cfg, s, x.event, x.now, x.choice) && id != [] && IsWorker(s.db, CStr(ToText(id)), None)
    requires Brought(id, [[], [77, 68, 80, 87, 48, 88], command] + parts, x.event) && command !in {[1], [5]}
    ensures Step(cfg, s, x) == s
    ensures var out := OnWire(RepliesOf(s, x.event, x.choice, None));
            if command == [4] then out == []
            else |out| == 1 && |out[0]| == 4 && RouterOut(out[0]) == [[], [77, 68, 80, 87, 48, 88], [5]]
                 && (out[0][0] == id <==> Answerable(id))
  {
    WorkerMessage(id, command, parts);
    UnknownWorker(cfg, s, x.event, x.choice, x.now);
    AnswerableExact(id);
  }

  /** A command that is none of the four, from a known worker, changes nothing and is not answered. */
  lemma UnknownCommand(cfg: Config, s: State, x: Label, id: Frame, w: Id, command: Frame, parts: seq<Frame>)
    requires Sound(s.db) && Legal(cfg, s, x.event, x.now, x.choice) && Known(s.db, id, w)
    requires Brought(id, [[], [77, 68, 80, 87, 48, 88], command] + parts, x.event)
    requires command !in {[1], [3], [4], [5]}
    ensures Step(cfg, s, x) == s && OnWire(RepliesOf(s, x.event, x.choice, None)) == []
  {
    WorkerMessage(id, command, parts);
    SameRow(s.db, w, CStr(ToText(id)), x.choice.who);
    StepParts(cfg, s, x);
  }

  // ---------------------------------------------------------------- READY

  /** The service of that name is this one, with that endpoint. */
  ghost predicate Offers(d: Db, name: Frame, endpoint: Frame, v: Id)
  {
    IsService(d, name, Some(v)) && d.services[v].endpoint == endpoint && d.services[v].state == Registered
  }

  /** The frames of a READY from a socket without a row: the service it names is in the table under its first name,
      with the endpoint READY brings; a worker with the socket's return address is armed for it or busy with a letter
      that has just been given to it; services of other names are as before. */
  lemma ReadyRegisters(cfg: Config, s: State, x: Label, id: Frame, name: Frame, endpoint: Frame) returns (w: Id, v: Id)
    requires Sound(s.db) && AllRegistered(s.db) && Legal(cfg, s, x.event, x.now, x.choice)
    requires id != [] && IsWorker(s.db, CStr(ToText(id)), None)
    requires Brought(id, [[], [77, 68, 80, 87, 48, 88], [1]] + [name, endpoint], x.event)
    ensures var s' := Step(cfg, s, x);
            && Offers(s'.db, CStr(name), CStr(endpoint), v)
            && w in s'.db.workers && s'.db.workers[w].service == v && s'.db.workers[w].identity == ReturnAddress(id)
            && (s'.db.workers[w].state == Armed || s'.db.workers[w].state == Occupied)
            && w in s'.log.seen && s'.log.seen[w] == x.now
            && (forall u :: u in s.db.services && u != v ==>
                  u in s'.db.services && s'.db.services[u] == s.db.services[u])
    ensures OnWire(RepliesOf(s, x.event, x.choice, None)) == []
  {
    WorkerMessage(id, [1], [name, endpoint]);
    v := ServiceOf(s, x.choice);
    var s1 := ApplyAll(cfg, s, Prefix(s, x.event, x.choice), x.now);
    w := ReadyPrefix(cfg, s, x.event, x.choice, x.now);
    StepKeepsSeen(cfg, s, x);
    ReadyDispatched(cfg, s, x, s1, w);
  }

  /** What READY leaves before it dispatches. */
  lemma {:induction false} ReadyPrefix(cfg: Config, s: State, e: Event, c: Choice, now: nat) returns (w: Id)
    requires Sound(s.db) && AllRegistered(s.db) && e.Ready? && c.who.None? && Found(s.db, e, c) && !Aborts(s, e, c)
    ensures var s1, v := ApplyAll(cfg, s, Prefix(s, e, c), now), ServiceOf(s, c);
            && Offers(s1.db, CStr(e.args[0]), CStr(e.args[1]), v)
            && InState(s1.db, w, Armed) && s1.db.workers[w].service == v && s1.db.workers[w].expiry >= now
            && s1.db.workers[w].identity == Bounded(e.sender, IDENTITY_MAXLEN)
            && w in s1.log.seen && s1.log.seen[w] == now
            && (forall u :: u in s.db.services && u != v ==>
                  u in s1.db.services && s1.db.services[u] == s.db.services[u])
  {
    var svc := ServiceOf(s, c);
    var s0 := ApplyAll(cfg, s, Opening(s, e.args, c), now);
    var u := Joining(e.sender, svc, c);
    ReadyPrefixEnabled(cfg, s, e, c, now);
    OpeningEnabled(cfg, s, e.args, c, now);
    OpeningEffect(cfg, s, e.args, c.service, now);
    if c.key.Some? {
      w := c.key.value;
      Unfold2(cfg, s0, u[0], u[1], now);
    } else {
      w := s0.db.next;
      Unfold1(cfg, s0, u[0], now);
    }
  }

  /** Both rounds keep the services, and the new worker. */
  lemma {:induction false} ReadyDispatched(cfg: Config, s: State, x: Label, s1: State, w: Id)
    requires Legal(cfg, s, x.event, x.now, x.choice) && x.event.Ready? && x.choice.who.None?
    requires s1 == ApplyAll(cfg, s, Prefix(s, x.event, x.choice), x.now)
    requires InState(s1.db, w, Armed) && s1.db.workers[w].expiry >= x.now
    ensures var d := Step(cfg, s, x).db;
            && d.services == s1.db.services && w in d.workers
            && d.workers[w].identity == s1.db.workers[w].identity && d.workers[w].service == s1.db.workers[w].service
            && (d.workers[w].state == Armed || d.workers[w].state == Occupied)
  {
    var c, svc, now := x.choice, ServiceOf(s, x.choice), x.now;
    var d2 := Dispatched(cfg, s1.db, c.d1, now);
    DispatchEffect(cfg, s1, svc, now, c.d1);
    StepEffect(cfg, s, x);
    AtWorkSurvives(cfg, s1.db, svc, c.d1, now, w);
    AtWorkSurvives(cfg, d2, svc, c.d2, now, w);
  }

  /** And whoever asks mmi.service for the name next is told that endpoint. */
  lemma {:induction false} EndpointTold(cfg: Config, run: seq<Label>, x: Label, id: Frame, name: Frame, endpoint: Frame,
                                        e: Event, c: Choice, asked: Option<Id>, client: Frame)
    requires IsRun(cfg, INITIAL, run) && Legal(cfg, After(cfg, INITIAL, run), x.event, x.now, x.choice)
    requires id != [] && IsWorker(After(cfg, INITIAL, run).db, CStr(ToText(id)), None) && client != []
    requires Brought(id, [[], [77, 68, 80, 87, 48, 88], [1]] + [name, endpoint], x.event)
    requires var s := Step(cfg, After(cfg, INITIAL, run), x);
             Found(s.db, e, c) && !Aborts(s, e, c) && IsService(s.db, CStr(name), asked)
    requires Brought(client, ClientWire(MMI_SERVICE, [CStr(name)]), e)
    ensures var out := OnWire(RepliesOf(Step(cfg, After(cfg, INITIAL, run), x), e, c, asked));
            && |out| == 1 && |out[0]| > 7 && (out[0][0] == client <==> Answerable(client))
            && StatusOf(RouterOut(out[0])[5]) == 200 && RouterOut(out[0])[6] == CStr(endpoint)
  {
    var s := After(cfg, INITIAL, run);
    assert Sound(s.db) by {
      InitialSafe();
      RunSafe(cfg, INITIAL, run);
    }
    assert AllRegistered(s.db) by { RunKeepsRegistered(cfg, INITIAL, run); }
    var w, v := ReadyRegisters(cfg, s, x, id, name, endpoint);
    assert asked == Some(v) by {
      TraceKeepsSound(cfg, s, Trace(s, x.event, x.choice), x.now);
      SameService(Step(cfg, s, x).db, CStr(name), asked, v);
    }
    assert CStr(CStr(endpoint)) == CStr(endpoint) by { CStrExact(CStr(endpoint)); }
    RunSnoc(cfg, INITIAL, run, x);
    ServiceAskedFor(cfg, run + [x], e, c, asked, client, name);
  }

  lemma SameService(d: Db, name: Frame, asked: Option<Id>, v: Id)
    requires UniqueNames(d.services) && IsService(d, name, asked) && IsService(d, name, Some(v))
    ensures asked == Some(v)
  {
  }
}
