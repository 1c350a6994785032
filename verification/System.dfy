/**
 The persistent broker as a state machine. A step is one message or one timer tick; it runs a few
 transactions, and the nondeterminism of the database (which row an index yields first) is a Choice.
 */
module System {
  import opened Bytes
  import opened Protocol
  import opened Schema

  /** A client request as the broker accepted it; `client` is the textual identity. */
  datatype Request = Request(client: Frame, service: Id, header: Frame, body: Frame)

  /** One MDPW_REQUEST message handed to the socket, and when. */
  datatype Delivery = Delivery(letter: Id, worker: Id, frames: seq<Frame>, at: nat)

  /** What has happened so far. The program keeps no such record; the properties are about it. */
  datatype Log = Log(
    accepted: map<Id, Request>,  // letter id of every request pushed into the table
    sent: seq<Delivery>,         // MDPW_REQUEST messages, in order
    released: map<Id, Id>,       // removed letter to the worker that reported on it
    seen: map<Id, nat>)          // worker to the time of its latest message

  datatype State = State(db: Db, log: Log)

  const INITIAL := State(EMPTY_DB, Log(map[], [], map[], map[]))

  /** Frames of the request message, before the socket turns frame 0 into a binary identity. */
  function RequestFrames(identity: Frame, letter: LetterRow): seq<Frame>
  {
    [identity, EMPTY_FRAME, MDPW_WORKER, MDPW_REQUEST, letter.origin, letter.header, letter.body]
  }

  // ---------------------------------------------------------------- actions

  /** The transactions a step is made of, and the arrival of a message from a known worker. */
  datatype Action =
    | Hear(worker: Id)
    | Register(name: Frame)
    | SetEndpoint(service: Id, endpoint: Frame)
    | Create(identity: Frame, service: Id)
    | Arm(worker: Id, service: Id)
    | Disarm(workers: set<Id>)
    | Enqueue(request: Request)
    | Assign(worker: Id, letter: Id)
    | Release(worker: Id)

  /** Where the code can run the transaction without failing one of its own asserts. */
  predicate Enabled(s: State, a: Action)
  {
    match a
    case Hear(w) => w in s.db.workers
    case Register(name) => IsService(s.db, name, None) && 0 !in name
    case SetEndpoint(svc, _) => svc in s.db.services
    case Create(identity, svc) =>
      IsWorker(s.db, identity, None) && svc in s.db.services && 0 !in identity && |identity| <= IDENTITY_MAXLEN
    case Arm(w, svc) => w in s.db.workers && svc in s.db.services
    case Disarm(ws) => true
    case Enqueue(request) => request.service in s.db.services
    case Assign(w, l) => InState(s.db, w, Armed) && WaitingFor(s.db, l, s.db.workers[w].service)
    case Release(w) =>
      w in s.db.workers && forall l :: l in HeldBy(s.db, w) ==> s.db.letters[l].service == s.db.workers[w].service
  }

  function Apply(cfg: Config, s: State, a: Action, now: nat): State
  {
    if !Enabled(s, a) then s else
    match a
    case Hear(w) => s.(log := s.log.(seen := s.log.seen[w := now]))
    case Register(name) => s.(db := AddServiceTx(cfg, s.db, name))
    case SetEndpoint(svc, endpoint) => s.(db := SetEndpointTx(s.db, svc, endpoint))
    case Create(identity, svc) =>
      State(CreateWorkerTx(cfg, s.db, identity, svc, now), s.log.(seen := s.log.seen[s.db.next := now]))
    case Arm(w, svc) => s.(db := ArmTx(cfg, s.db, w, svc, now))
    case Disarm(ws) => s.(db := DisarmTx(s.db, ws))
    case Enqueue(q) =>
      State(EnqueueTx(cfg, s.db, q.service, Bounded(q.client, IDENTITY_MAXLEN), q.header, q.body, now),
            s.log.(accepted := s.log.accepted[s.db.next := q]))
    case Assign(w, l) =>
      State(AssignTx(cfg, s.db, w, l, now),
            if AssignCollides(s.db, w, l) then s.log else
            s.log.(sent := s.log.sent
              + [Delivery(l, w, RequestFrames(s.db.workers[w].identity, s.db.letters[l]), now)]))
    case Release(w) =>
      State(ReleaseTx(s.db, w),
            s.log.(released := s.log.released + map l | l in HeldBy(s.db, w) :: w))
  }

  predicate AllEnabled(cfg: Config, s: State, t: seq<Action>, now: nat)
    decreases |t|
  {
    t == [] || (Enabled(s, t[0]) && AllEnabled(cfg, Apply(cfg, s, t[0], now), t[1..], now))
  }

  function ApplyAll(cfg: Config, s: State, t: seq<Action>, now: nat): State
    decreases |t|
  {
    if t == [] then s else ApplyAll(cfg, Apply(cfg, s, t[0], now), t[1..], now)
  }

  // ---------------------------------------------------------------- events

  /** A message after its envelope is off, or a tick. `sender` is the textual identity. */
  datatype Event =
    | Client(sender: Frame, service: Frame, rest: seq<Frame>)
    | Ready(sender: Frame, args: seq<Frame>)
    | Report(sender: Frame, payload: seq<Frame>)
    | Heartbeat(sender: Frame)
    | Disconnect(sender: Frame)
    | Invalid(sender: Frame)
    | Timer

  /** What one purge and one dispatch get from the indexes. */
  datatype Dispatching = Dispatching(
    listed: set<Id>,          // the services the purge walks over
    examined: map<Id, Id>,    // the one armed worker it sees for each of them
    purged: set<Id>,          // those of them it disarms
    send: Option<(Id, Id)>)   // worker and letter the dispatch pairs up

  datatype Choice = Choice(who: Option<Id>, key: Option<Id>, service: Option<Id>, d1: Dispatching, d2: Dispatching)

  /** The last two frames of the message are header and body; its first two are address and delimiter. */
  function RequestOf(sender: Frame, service: Id, rest: seq<Frame>): Request
    requires |rest| >= 1
  {
    var full := [CStr(sender), EMPTY_FRAME] + rest;
    Request(sender, service, full[|full| - 2], full[|full| - 1])
  }

  /** Requests the broker does not survive. mmi.filter takes the sender's own address for the operation,
      and its two operations are stubs that assert. */
  predicate BadRequest(sender: Frame, service: Frame, rest: seq<Frame>)
  {
    || |rest| == 0
    || (service == MMI_SERVICE && |rest| != 1)
    || (service == MMI_FILTER && CStr(sender) in {ENABLE, DISABLE})
  }

  /** The code runs into an assert, a null pointer or a missing frame. */
  predicate Aborts(s: State, e: Event, c: Choice)
  {
    match e
    case Client(sender, service, rest) => BadRequest(sender, service, rest)
    case Ready(sender, args) =>
      c.who.None? && (IsInternal(sender) || |args| < 2 || args[0] == [])
    case Report(_, payload) =>
      c.who.Some? && (
        || |payload| == 0
        || c.who.value !in s.db.workers
        || s.db.workers[c.who.value].service !in s.db.services
        || !Enabled(s, Release(c.who.value)))
    case Disconnect(_) => c.who.None?
    case _ => false
  }

  /** The service a new worker's READY names; it is created when nobody registered it before. */
  function ServiceOf(s: State, c: Choice): Id
  {
    if c.service.Some? then c.service.value else s.db.next
  }

  function Opening(s: State, args: seq<Frame>, c: Choice): seq<Action>
    requires |args| >= 2
  {
    if c.service.Some? then [SetEndpoint(c.service.value, CStr(args[1]))]
    else [Register(CStr(args[0])), SetEndpoint(s.db.next, CStr(args[1]))]
  }

  /** The row of the new worker, unless the bounded identity names a row that exists already. */
  function Joining(sender: Frame, svc: Id, c: Choice): seq<Action>
  {
    match c.key
    case Some(w) => [Hear(w), Arm(w, svc)]
    case None => [Create(Bounded(sender, IDENTITY_MAXLEN), svc)]
  }

  /** The transactions of a step before it starts to dispatch. */
  function Prefix(s: State, e: Event, c: Choice): seq<Action>
    requires !Aborts(s, e, c) && Found(s.db, e, c)
  {
    match e
    case Client(sender, service, rest) =>
      if IsInternal(service) || c.service.None? then [] else [Enqueue(RequestOf(sender, c.service.value, rest))]
    case Ready(sender, args) =>
      (match c.who
       case Some(w) => [Hear(w), Disarm({w})]
       case None =>
         Opening(s, args, c) + Joining(sender, ServiceOf(s, c), c))
    case Report(_, _) =>
      if c.who.None? then []
      else [Release(c.who.value), Hear(c.who.value), Arm(c.who.value, s.db.workers[c.who.value].service)]
    case Heartbeat(_) =>
      if c.who.None? then [] else [Hear(c.who.value), Arm(c.who.value, s.db.workers[c.who.value].service)]
    case Disconnect(_) => [Hear(c.who.value), Disarm({c.who.value})]
    case Invalid(_) => []
    case Timer => []
  }

  /** The service a step dispatches, if it gets that far. */
  function Target(s: State, e: Event, c: Choice): Option<Id>
    requires !Aborts(s, e, c) && Found(s.db, e, c)
  {
    match e
    case Client(_, service, _) => if IsInternal(service) then None else c.service
    case Ready(_, _) => if c.who.Some? then None else Some(ServiceOf(s, c))
    case Report(_, _) => if c.who.None? then None else Some(s.db.workers[c.who.value].service)
    case Heartbeat(_) => if c.who.None? then None else Some(s.db.workers[c.who.value].service)
    case _ => None
  }

  /** The lookups of a step give what the tables hold. A worker is looked up by the whole C string,
      stored under its first 11 octets. */
  predicate Found(d: Db, e: Event, c: Choice)
  {
    match e
    case Client(_, service, _) => IsService(d, CStr(service), c.service)
    case Ready(sender, args) =>
      && IsWorker(d, CStr(sender), c.who)
      && IsWorker(d, Bounded(sender, IDENTITY_MAXLEN), c.key)
      && (|args| > 0 ==> IsService(d, CStr(args[0]), c.service))
    case Report(sender, _) => IsWorker(d, CStr(sender), c.who)
    case Heartbeat(sender) => IsWorker(d, CStr(sender), c.who)
    case Disconnect(sender) => IsWorker(d, CStr(sender), c.who)
    case Invalid(sender) => IsWorker(d, CStr(sender), c.who)
    case Timer => true
  }

  /** purge_workers: at most one armed worker per listed service is looked at, and disarmed if its time is over. */
  ghost predicate PurgeOk(cfg: Config, d: Db, now: nat, c: Dispatching)
  {
    && c.listed <= d.services.Keys
    && |c.listed| == (if |d.services| < cfg.maxServices then |d.services| else cfg.maxServices)
    && c.examined.Keys <= c.listed
    && (forall svc :: svc in c.examined ==> ArmedFor(d, c.examined[svc], svc))
    && (forall svc, w :: svc in c.listed && ArmedFor(d, w, svc) ==> svc in c.examined)
    && c.purged == (set svc | svc in c.examined && d.workers[c.examined[svc]].expiry < now :: c.examined[svc])
  }

  /** The dispatch loop breaks after its first round: one armed worker, one waiting letter of the service. */
  ghost predicate SendOk(d: Db, svc: Id, send: Option<(Id, Id)>)
  {
    match send
    case Some(p) => ArmedFor(d, p.0, svc) && WaitingFor(d, p.1, svc)
    case None => (forall w :: !ArmedFor(d, w, svc)) || (forall l :: !WaitingFor(d, l, svc))
  }

  ghost predicate DispatchOk(cfg: Config, s: State, svc: Id, now: nat, c: Dispatching)
  {
    PurgeOk(cfg, s.db, now, c) && SendOk(DisarmTx(s.db, c.purged), svc, c.send)
  }

  function DispatchTrace(c: Dispatching): seq<Action>
  {
    [Disarm(c.purged)] + (if c.send.Some? then [Assign(c.send.value.0, c.send.value.1)] else [])
  }

  /** One legal step: lookups, no abort, and a purge and dispatch wherever the code runs them. */
  ghost predicate Legal(cfg: Config, s: State, e: Event, now: nat, c: Choice)
  {
    && Found(s.db, e, c)
    && !Aborts(s, e, c)
    && var s1 := ApplyAll(cfg, s, Prefix(s, e, c), now);
    && (e.Timer? ==> PurgeOk(cfg, s1.db, now, c.d1))
    && (Target(s, e, c).Some? ==>
          && DispatchOk(cfg, s1, Target(s, e, c).value, now, c.d1)
          && (e.Ready? ==>
                var s2 := ApplyAll(cfg, s1, DispatchTrace(c.d1), now);
                DispatchOk(cfg, s2, Target(s, e, c).value, now, c.d2)))
  }

  /** All transactions of a step. A new worker's READY dispatches twice. */
  function Trace(s: State, e: Event, c: Choice): seq<Action>
    requires !Aborts(s, e, c) && Found(s.db, e, c)
  {
    if e.Timer? then [Disarm(c.d1.purged)] else
    Prefix(s, e, c) + (if Target(s, e, c).None? then [] else
                       DispatchTrace(c.d1) + (if e.Ready? then DispatchTrace(c.d2) else []))
  }
}
