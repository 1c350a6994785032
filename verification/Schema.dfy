/** The three tables of the broker database as values, and the effect of each transaction on them. */
module Schema {
  import opened Bytes

  /** An autoid: all tables draw from one counter. 0 stands for "no reference". */
  type Id = nat

  datatype WorkerState = Disarmed | Armed | Init | Shutdown | Occupied | Expired
  datatype LetterState = Empty | Unassigned | Assigned | Processing | DoneOk | DoneFail
  datatype ServiceState = Unknown | Registered | Activated | Disabled

  datatype ServiceRow = ServiceRow(name: Frame, endpoint: Frame, state: ServiceState)
  datatype WorkerRow = WorkerRow(identity: Frame, state: WorkerState, expiry: nat, service: Id, letter: Id)
  datatype LetterRow = LetterRow(
    service: Id, worker: Id, state: LetterState, origin: Frame, expiry: nat, header: Frame, body: Frame)

  datatype Db = Db(
    services: map<Id, ServiceRow>, workers: map<Id, WorkerRow>, letters: map<Id, LetterRow>, next: Id)

  /** The values of config.h are chosen when the project is built, so they are parameters here. */
  datatype Config = Config(
    heartbeatMsec: nat,             // HEARTBEAT_PERIOD_MSEC
    letterExpiry: nat,              // MESSAGE_EXPIRATION_PERIOD_MSEC, which the code adds to seconds
    maxServices: nat,               // MAX_SERVICES_ENTRY
    endpoints: map<Frame, Frame>)   // default endpoints of the known services
  {
    /** Seconds a worker stays alive after a message: two heartbeats, each cut to whole seconds. */
    function Grace(): nat { heartbeatMsec / 1000 * 2 }
  }

  /** What the build files choose. */
  const SHIPPED := Config(2500, 500, 400, map[])

  const EMPTY_DB := Db(map[], map[], map[], 1)

  predicate InState(d: Db, w: Id, state: WorkerState)
  {
    w in d.workers && d.workers[w].state == state
  }

  predicate ArmedFor(d: Db, w: Id, svc: Id)
  {
    InState(d, w, Armed) && d.workers[w].service == svc
  }

  predicate WaitingFor(d: Db, l: Id, svc: Id)
  {
    l in d.letters && d.letters[l].state == Unassigned && d.letters[l].service == svc
  }

  /** SK_by_worker_id: the letters whose worker_ref is `w`. */
  function HeldBy(d: Db, w: Id): set<Id>
  {
    set l | l in d.letters && d.letters[l].worker == w
  }

  /** The engine's own guarantees: unique keys, and every id already drawn from the one counter. */
  ghost predicate Indexed(d: Db)
  {
    Numbered(d) && UniqueNames(d.services) && UniqueIdentities(d.workers) && UniqueHolders(d.letters)
  }

  ghost predicate Numbered(d: Db)
  {
    && d.next > 0
    && (forall v :: v in d.services ==> 0 < v < d.next)
    && (forall w :: w in d.workers ==> 0 < w < d.next)
    && (forall l :: l in d.letters ==> 0 < l < d.next && l !in d.workers)
  }

  ghost predicate UniqueNames(services: map<Id, ServiceRow>)
  {
    forall x, y :: x in services && y in services && services[x].name == services[y].name ==> x == y
  }

  ghost predicate UniqueIdentities(workers: map<Id, WorkerRow>)
  {
    forall x, y :: x in workers && y in workers && workers[x].identity == workers[y].identity ==> x == y
  }

  ghost predicate UniqueHolders(letters: map<Id, LetterRow>)
  {
    forall x, y :: x in letters && y in letters && letters[x].worker == letters[y].worker ==> x == y
  }

  /** The result of looking a worker up by identity. */
  predicate IsWorker(d: Db, identity: Frame, r: Option<Id>)
  {
    match r
    case Some(w) => w in d.workers && d.workers[w].identity == identity
    case None => forall w :: w in d.workers ==> d.workers[w].identity != identity
  }

  predicate IsService(d: Db, name: Frame, r: Option<Id>)
  {
    match r
    case Some(v) => v in d.services && d.services[v].name == name
    case None => forall v :: v in d.services ==> d.services[v].name != name
  }

  function AddServiceTx(cfg: Config, d: Db, name: Frame): Db
  {
    var endpoint := if name in cfg.endpoints then cfg.endpoints[name] else [];
    d.(services := d.services[d.next := ServiceRow(name, endpoint, Registered)], next := d.next + 1)
  }

  function SetEndpointTx(d: Db, svc: Id, endpoint: Frame): Db
    requires svc in d.services
  {
    d.(services := d.services[svc := d.services[svc].(endpoint := endpoint)])
  }

  function CreateWorkerTx(cfg: Config, d: Db, identity: Frame, svc: Id, now: nat): Db
  {
    d.(workers := d.workers[d.next := WorkerRow(identity, Armed, now + cfg.Grace(), svc, 0)], next := d.next + 1)
  }

  /** Arming a known worker leaves its letter reference alone, whatever its state was. */
  function ArmTx(cfg: Config, d: Db, w: Id, svc: Id, now: nat): Db
    requires w in d.workers
  {
    d.(workers := d.workers[w := d.workers[w].(state := Armed, service := svc, expiry := now + cfg.Grace())])
  }

  function DisarmTx(d: Db, ws: set<Id>): Db
  {
    d.(workers := map w | w in d.workers :: if w in ws then d.workers[w].(state := Disarmed) else d.workers[w])
  }

  /** Until a worker takes the letter, worker_ref holds the letter's own id to keep the index unique. */
  function EnqueueTx(cfg: Config, d: Db, svc: Id, origin: Frame, header: Frame, body: Frame, now: nat): Db
  {
    d.(letters := d.letters[d.next :=
        LetterRow(svc, d.next, Unassigned, origin, now + cfg.heartbeatMsec / 1000, header, body)],
       next := d.next + 1)
  }

  /** The put of worker_ref collides with another letter: the transaction rolls back. */
  predicate AssignCollides(d: Db, w: Id, l: Id)
  {
    HeldBy(d, w) - {l} != {}
  }

  function AssignTx(cfg: Config, d: Db, w: Id, l: Id, now: nat): Db
    requires w in d.workers && l in d.letters
  {
    if AssignCollides(d, w, l) then d else
    d.(workers := d.workers[w := d.workers[w].(state := Occupied, letter := l, expiry := now + cfg.letterExpiry)],
       letters := d.letters[l := d.letters[l].(state := Assigned, worker := w, expiry := now + cfg.letterExpiry)])
  }

  /** Removes the letter held by `w`, arms `w` and clears its reference; without a letter nothing changes. */
  function ReleaseTx(d: Db, w: Id): Db
    requires w in d.workers
  {
    if HeldBy(d, w) == {} then d else
    d.(letters := d.letters - HeldBy(d, w),
       workers := d.workers[w := d.workers[w].(state := Armed, letter := 0)])
  }
}
