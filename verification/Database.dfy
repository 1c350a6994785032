/** The broker database: every call is a transaction that commits or leaves the rows as they were. */
module Database {
  import opened Bytes
  import opened Schema
  import opened Invariants
  import opened Affinity
  import opened Entities

  /** The only return codes of the engine this model knows. */
  datatype Rc = Ok | NotFound | Duplicate

  class DatabaseBroker {
    const cfg: Config
    var services: map<Id, ServiceRow>
    var workers: map<Id, WorkerRow>
    var letters: map<Id, LetterRow>
    var next: Id
    var depth: nat   // open transactions, one inside the other
    var saved: Db    // the rows when the outermost one started

    ghost function Tables(): Db
      reads this
    {
      Db(services, workers, letters, next)
    }

    /** Between transactions the tables are sound. */
    ghost predicate Valid()
      reads this
    {
      depth == 0 && Sound(Tables())
    }

    constructor (cfg: Config)
      ensures Valid() && Tables() == EMPTY_DB && this.cfg == cfg
    {
      this.cfg := cfg;
      services, workers, letters, next := map[], map[], map[], 1;
      depth, saved := 0, EMPTY_DB;
    }

    // -------------------------------------------------------------- transactions

    method Start()
      modifies this`depth, this`saved
      ensures depth == old(depth) + 1
      ensures saved == if old(depth) == 0 then Tables() else old(saved)
    {
      if depth == 0 {
        saved := Db(services, workers, letters, next);
      }
      depth := depth + 1;
    }

    /** Committing an inner transaction leaves the rows to the outer one. */
    method Commit()
      requires depth > 0
      modifies this`depth
      ensures depth == old(depth) - 1
    {
      depth := depth - 1;
    }

    /** All rows go back to what they were when the outermost transaction started; drawn ids stay drawn. */
    method Rollback()
      requires depth > 0
      modifies this`services, this`workers, this`letters, this`depth
      ensures services == saved.services && workers == saved.workers && letters == saved.letters
      ensures depth == old(depth) - 1
    {
      services, workers, letters := saved.services, saved.workers, saved.letters;
      depth := depth - 1;
    }

    /** A put into the unique index SK_by_worker_id. */
    method PutWorkerRef(l: Id, w: Id) returns (rc: Rc)
      requires l in letters
      modifies this`letters
      ensures rc == (if HeldBy(old(Tables()), w) - {l} != {} then Duplicate else Ok)
      ensures letters == if rc == Ok then old(letters)[l := old(letters)[l].(worker := w)] else old(letters)
    {
      ghost var held := HeldBy(Tables(), w) - {l};
      if m :| m in letters && m != l && letters[m].worker == w {
        assert m in held;
        return Duplicate;
      }
      assert held == {};
      letters := letters[l := letters[l].(worker := w)];
      return Ok;
    }

    // -------------------------------------------------------------- lookups

    method FindWorker(identity: Frame) returns (r: Option<Id>)
      ensures IsWorker(Tables(), identity, r)
    {
      if w :| w in workers && workers[w].identity == identity {
        r := Some(w);
      } else {
        r := None;
      }
    }

    method FindService(name: Frame) returns (r: Option<Id>)
      ensures IsService(Tables(), name, r)
    {
      if v :| v in services && services[v].name == name {
        r := Some(v);
      } else {
        r := None;
      }
    }

    /** A fresh copy of a worker's row. */
    method LoadWorker(w: Id) returns (wrk: Worker)
      requires Sound(Tables()) && w in workers
      ensures fresh(wrk) && wrk.id == w && wrk.Mirrors(Tables()) && wrk.Named()
    {
      assert WorkerOk(Tables(), w);
      var row := workers[w];
      CStrExact(row.identity);
      wrk := new Worker(row.service, row.identity, w, row.letter);
      wrk.state := row.state;
      wrk.expiry := row.expiry;
    }

    method GetWorkerByIdent(ident: Frame) returns (wrk: Worker?)
      requires Valid()
      ensures wrk == null ==> IsWorker(Tables(), CStr(ident), None)
      ensures wrk != null ==> fresh(wrk) && wrk.Mirrors(Tables()) && wrk.Named() && wrk.identity == CStr(ident)
    {
      var r := FindWorker(CStr(ident));
      if r.None? {
        return null;
      }
      wrk := LoadWorker(r.value);
    }

    /** Some worker of the service in the given state; which one is up to the index. */
    method PopWorker(service: Id, state: WorkerState) returns (wrk: Worker?)
      requires Valid()
      ensures wrk == null ==> forall w :: InState(Tables(), w, state) ==> workers[w].service != service
      ensures wrk != null ==> fresh(wrk) && wrk.Mirrors(Tables()) && wrk.Named()
      ensures wrk != null ==> wrk.serviceId == service && wrk.state == state
    {
      if w :| w in workers && workers[w].service == service && workers[w].state == state {
        wrk := LoadWorker(w);
      } else {
        wrk := null;
      }
    }

    /** Some letter that waits for the service. */
    method GetWaitingLetter(service: Id) returns (letter: Letter?)
      requires Valid()
      ensures letter == null ==> forall l :: !WaitingFor(Tables(), l, service)
      ensures letter != null ==> fresh(letter) && letter.Mirrors(Tables()) && WaitingFor(Tables(), letter.id, service)
    {
      if l :| l in letters && letters[l].service == service && letters[l].state == Unassigned {
        assert LetterOk(Tables(), l);
        CStrExact(letters[l].origin);
        letter := new Letter.FromRow(l, letters[l]);
        assert letter.state == Unassigned;
      } else {
        letter := null;
      }
    }

    method GetServiceByName(name: Frame) returns (r: Option<Service>)
      ensures IsService(Tables(), CStr(name), if r.Some? then Some(r.value.id) else None)
      ensures r.Some? ==>
                && r.value.id in services
                && services[r.value.id] == ServiceRow(r.value.name, r.value.endpoint, r.value.state)
    {
      var v := FindService(CStr(name));
      if v.None? {
        return None;
      }
      var row := services[v.value];
      return Some(Service(v.value, row.name, row.endpoint, row.state));
    }

    method GetServiceById(id: Id) returns (r: Option<Service>)
      ensures r.Some? <==> id in services
      ensures r.Some? ==> r.value.id == id && services[id] == ServiceRow(r.value.name, r.value.endpoint, r.value.state)
    {
      if id !in services {
        return None;
      }
      var row := services[id];
      return Some(Service(id, row.name, row.endpoint, row.state));
    }

    // -------------------------------------------------------------- services

    method AddService(name: Frame) returns (srv: Service)
      requires Valid() && IsService(Tables(), CStr(name), None)
      modifies this
      ensures Valid() && Tables() == AddServiceTx(cfg, old(Tables()), CStr(name))
      ensures srv.id == old(next) && srv.name == CStr(name) && srv.state == Registered
      ensures services.Keys == old(services.Keys) + {srv.id} && services[srv.id].name == CStr(name)
      ensures services[srv.id].endpoint == if CStr(name) in cfg.endpoints then cfg.endpoints[CStr(name)] else []
    {
      ghost var d := Tables();
      Start();
      var aid, key := next, CStr(name);
      var endpoint := if key in cfg.endpoints then cfg.endpoints[key] else [];
      services := services[aid := ServiceRow(key, endpoint, Registered)];
      next := next + 1;
      srv := Service(aid, key, [], Registered);
      Commit();
      assert Tables() == AddServiceTx(cfg, d, key);
      RegisterKeeps(cfg, d, key);
    }

    /** Writes the copy back; the handlers change nothing but the endpoint. */
    method UpdateService(srv: Service)
      requires Valid() && srv.id in services && services[srv.id].name == srv.name && services[srv.id].state == srv.state
      modifies this
      ensures Valid() && Tables() == SetEndpointTx(old(Tables()), srv.id, CStr(srv.endpoint))
    {
      ghost var d := Tables();
      CStrExact(srv.name);
      Start();
      services := services[srv.id := ServiceRow(CStr(srv.name), CStr(srv.endpoint), srv.state)];
      Commit();
      SetEndpointKeeps(d, srv.id, CStr(srv.endpoint));
    }

    // -------------------------------------------------------------- workers

    /** Arms the worker named by the copy, creating its row if there is none. */
    method PushWorker(wrk: Worker, now: nat) returns (ok: bool, ghost found: Option<Id>)
      requires Valid() && wrk.Named()
      modifies this, wrk
      ensures Valid() && IsWorker(old(Tables()), wrk.identity, found)
      ensures ok <==> wrk.serviceId in old(services)
      ensures !ok ==> Tables() == old(Tables())
      ensures ok ==> Tables() == (match found
                                  case Some(w) => ArmTx(cfg, old(Tables()), w, wrk.serviceId, now)
                                  case None => CreateWorkerTx(cfg, old(Tables()), wrk.identity, wrk.serviceId, now))
      ensures wrk.identity == old(wrk.identity) && wrk.serviceId == old(wrk.serviceId)
    {
      ghost var d := Tables();
      var rc := Ok;
      var r := FindWorker(wrk.identity);
      found := r;
      Start();
      label Tx: {
        if wrk.serviceId !in services {
          rc := NotFound;
          break Tx;
        }
        var expiration := wrk.CalculateExpirationTime(cfg, now);
        if r.Some? {
          var w := r.value;
          if wrk.id == 0 {
            wrk.id := w;
          }
          workers := workers[w := workers[w].(state := Armed, service := wrk.serviceId, expiry := expiration)];
          assert Tables() == ArmTx(cfg, d, w, wrk.serviceId, now);
          ArmKeeps(cfg, d, w, wrk.serviceId, now);
        } else {
          workers := workers[next := WorkerRow(wrk.identity, Armed, expiration, wrk.serviceId, 0)];
          wrk.id := next;
          next := next + 1;
          assert Tables() == CreateWorkerTx(cfg, d, wrk.identity, wrk.serviceId, now);
          CreateKeeps(cfg, d, wrk.identity, wrk.serviceId, now);
        }
        Commit();
      }
      if rc != Ok {
        Rollback();
      }
      return rc == Ok, found;
    }

    /** The row stays, marked as disarmed; so does its letter reference. */
    method RemoveWorker(wrk: Worker) returns (ok: bool, ghost found: Option<Id>)
      requires Valid()
      modifies this, wrk`state
      ensures Valid() && IsWorker(old(Tables()), wrk.identity, found)
      ensures ok <==> found.Some?
      ensures forall w :: w in old(workers) && old(workers)[w].identity == wrk.identity ==> found == Some(w)
      ensures Tables() == if found.Some? then DisarmTx(old(Tables()), {found.value}) else old(Tables())
      ensures ok ==> wrk.state == Disarmed
    {
      ghost var d := Tables();
      var r := FindWorker(wrk.identity);
      found := r;
      Start();
      if r.None? {
        Rollback();
        return false, found;
      }
      workers := workers[r.value := workers[r.value].(state := Disarmed)];
      wrk.state := Disarmed;
      Commit();
      DisarmsOne(d, wrk.identity, r.value);
      return true, found;
    }

    /** Runs inside the caller's transaction, if there is one. ARMED also drops the letter reference. */
    method SetWorkerState(wrk: Worker, state: WorkerState) returns (ok: bool)
      requires depth > 0 ==> saved.workers.Keys == workers.Keys
      modifies this, wrk
      ensures depth == old(depth) && next == old(next) && services == (if ok then old(services) else saved.services)
      ensures ok <==> exists w :: w in old(workers) && old(workers)[w].identity == old(wrk.identity)
      ensures ok ==> exists w :: w in old(workers) && old(workers)[w].identity == old(wrk.identity) &&
                       workers == old(workers)[w := old(workers)[w].(
                         state := state, letter := if state == Armed then 0 else old(workers)[w].letter)]
      ensures ok ==> letters == old(letters) && (depth > 0 ==> saved == old(saved))
      ensures !ok ==> letters == saved.letters && workers == saved.workers
      ensures wrk.id == old(wrk.id) && wrk.identity == old(wrk.identity) && wrk.serviceId == old(wrk.serviceId)
    {
      var r := FindWorker(wrk.identity);
      Start();
      if r.None? {
        Rollback();
        return false;
      }
      var w := r.value;
      if state == Armed {
        workers := workers[w := workers[w].(letter := 0)];
        wrk.letterId := 0;
      }
      workers := workers[w := workers[w].(state := state)];
      wrk.state := state;
      Commit();
      return true;
    }

    // -------------------------------------------------------------- letters

    /** The new letter's worker_ref is its own id; the put fails only if another letter carries that id already,
        which never happens in sound tables (Invariants.EnqueueKeeps). */
    method PushRequestToService(srv: Service, letter: Letter, now: nat) returns (ok: bool)
      requires depth == 0 && next !in letters && 0 !in letter.replyTo
      modifies this, letter
      ensures depth == 0
      ensures ok <==> HeldBy(old(Tables()), old(next)) == {}
      ensures ok ==>
        Tables() ==
          EnqueueTx(cfg, old(Tables()), srv.id, old(letter.replyTo), old(letter.header), old(letter.data), now)
      ensures !ok ==> Tables() == old(Tables()).(next := old(next) + 1)
    {
      CStrExact(letter.replyTo);
      Start();
      var aid, rc := StoreLetter(srv.id, letter, now);
      letter.id := aid;
      letter.serviceId := srv.id;
      letter.workerId := 0;
      if rc != Ok {
        Rollback();
        return false;
      }
      letter.state := Unassigned;
      letter.expiry := now + cfg.heartbeatMsec / 1000;
      Commit();
      return true;
    }

    /** The writes of a new letter's row. */
    method StoreLetter(service: Id, letter: Letter, now: nat) returns (aid: Id, rc: Rc)
      requires next !in letters
      modifies this`letters, this`next
      ensures aid == old(next) && next == old(next) + 1
      ensures rc == if HeldBy(old(Tables()), aid) == {} then Ok else Duplicate
      ensures rc == Ok ==>
        Tables() == EnqueueTx(cfg, old(Tables()), service, CStr(letter.replyTo), letter.header, letter.data, now)
    {
      aid, rc := NewLetter(service);
      if rc == Ok {
        letters := letters[aid := letters[aid].(
          state := Unassigned, expiry := now + cfg.heartbeatMsec / 1000,
          header := letter.header, body := letter.data, origin := CStr(letter.replyTo))];
      }
    }

    /** A blank row under a fresh id, which its worker_ref takes for the time being. */
    method NewLetter(service: Id) returns (aid: Id, rc: Rc)
      requires next !in letters
      modifies this`letters, this`next
      ensures aid == old(next) && next == old(next) + 1
      ensures rc == if HeldBy(old(Tables()), aid) == {} then Ok else Duplicate
      ensures rc == Ok ==> letters == old(letters)[aid := LetterRow(service, aid, Empty, [], 0, [], [])]
    {
      ghost var d := Tables();
      aid := next;
      letters := letters[aid := LetterRow(service, 0, Empty, [], 0, [], [])];
      next := next + 1;
      PlaceholderFree(d, Tables(), aid);
      rc := PutWorkerRef(aid, aid);
    }

    /** A blank new row with reference 0 collides with nothing that carries its id. */
    lemma PlaceholderFree(d: Db, d': Db, l: Id)
      requires l !in d.letters && l in d'.letters && d'.letters == d.letters[l := d'.letters[l]]
      ensures HeldBy(d', l) - {l} == HeldBy(d, l)
    {
    }

    /** Pairs a waiting letter with a worker; a worker that still holds a letter makes the last put fail,
        and everything before it is undone. */
    method AssignLetterToWorker(worker: Worker, letter: Letter, now: nat) returns (ok: bool)
      requires depth == 0
      modifies this, worker, letter
      ensures depth == 0
      ensures ok <==> old(worker.id in workers && letter.id in letters) &&
                      !AssignCollides(old(Tables()), old(worker.id), old(letter.id))
      ensures Tables() == if old(worker.id in workers && letter.id in letters)
                          then AssignTx(cfg, old(Tables()), old(worker.id), old(letter.id), now) else old(Tables())
      ensures worker.identity == old(worker.identity) && worker.id == old(worker.id) && letter.id == old(letter.id)
      ensures letter.replyTo == old(letter.replyTo) && letter.header == old(letter.header)
      ensures letter.data == old(letter.data)
    {
      ghost var d := Tables();
      var rc := Ok;
      Start();
      label Tx: {
        if letter.id !in letters {
          rc := NotFound;
          break Tx;
        }
        if worker.id !in workers {
          rc := NotFound;
          break Tx;
        }
        rc := Pair(worker, letter, now);
        if rc != Ok {
          break Tx;
        }
        Commit();
      }
      if rc != Ok {
        Rollback();
      }
      return rc == Ok;
    }

    /** The writes of an assignment, the last of them into the unique index. */
    method Pair(worker: Worker, letter: Letter, now: nat) returns (rc: Rc)
      requires worker.id in workers && letter.id in letters
      modifies this`workers, this`letters, worker, letter
      ensures rc == if AssignCollides(old(Tables()), old(worker.id), old(letter.id)) then Duplicate else Ok
      ensures rc == Ok ==> Tables() == AssignTx(cfg, old(Tables()), old(worker.id), old(letter.id), now)
      ensures worker.identity == old(worker.identity) && worker.id == old(worker.id) && letter.id == old(letter.id)
      ensures letter.replyTo == old(letter.replyTo) && letter.header == old(letter.header)
      ensures letter.data == old(letter.data)
    {
      ghost var d := Tables();
      var expiration := now + cfg.letterExpiry;
      letters := letters[letter.id := letters[letter.id].(expiry := expiration, state := Assigned)];
      letter.state := Assigned;
      letter.workerId := worker.id;
      workers := workers[worker.id := workers[worker.id].(expiry := expiration, state := Occupied)];
      worker.state := Occupied;
      workers := workers[worker.id := workers[worker.id].(letter := letter.id)];
      assert HeldBy(Tables(), worker.id) == HeldBy(d, worker.id);
      rc := PutWorkerRef(letter.id, worker.id);
    }

    /** Removes the letter the worker reports on, and arms the worker, in one transaction. */
    method ReleaseLetterFromWorker(worker: Worker) returns (ok: bool)
      requires Valid() && worker.id in workers && workers[worker.id].identity == worker.identity
      requires forall l :: l in HeldBy(Tables(), worker.id) ==> letters[l].service == worker.serviceId
      modifies this, worker
      ensures Valid() && Tables() == ReleaseTx(old(Tables()), old(worker.id))
      ensures ok <==> HeldBy(old(Tables()), old(worker.id)) != {}
      ensures worker.id == old(worker.id) && worker.identity == old(worker.identity)
      ensures worker.serviceId == old(worker.serviceId)
    {
      ghost var d := Tables();
      ghost var held := HeldBy(d, worker.id);
      ReleaseKeeps(d, worker.id);
      HeldByReference(d, worker.id);
      Start();
      var l := 0;
      if m :| m in letters && letters[m].worker == worker.id {
        l := m;
        assert l in held;
      } else {
        assert held == {};
        Rollback();
        return false;
      }
      assert letters[l].worker == worker.id;
      assert letters[l].service == worker.serviceId;
      letters := letters - {l};
      var armed := SetWorkerState(worker, Armed);
      assert armed;
      worker.state := Armed;
      Commit();
      return true;
    }

    // -------------------------------------------------------------- shutdown

    /** The two transactions of one round. */
    method ClearOne(wrk: Worker)
      requires Valid() && wrk.Mirrors(Tables())
      requires forall l :: l in HeldBy(Tables(), wrk.id) ==> letters[l].service == wrk.serviceId
      modifies this, wrk
      ensures Valid() && Tables() == DisarmTx(ReleaseTx(old(Tables()), old(wrk.id)), {old(wrk.id)})
    {
      var _ := ReleaseLetterFromWorker(wrk);
      var _, _ := RemoveWorker(wrk);
    }

    /** Takes every occupied worker of the service off its letter, removes the letter and disarms the worker.
        Each round leaves one occupied worker less. */
    method ClearWorkersForService(svc: Id)
      requires Valid() && Affine(Tables())
      modifies this
      ensures Valid() && Tables() == Cleared(old(Tables()), OccupiedFor(old(Tables()), svc))
      ensures OccupiedFor(Tables(), svc) == {}
    {
      ghost var d := Tables();
      ghost var all, cleared := OccupiedFor(d, svc), {};
      ClearedNothing(d);
      var wrk := PopWorker(svc, Occupied);
      while wrk != null
        invariant Valid() && cleared <= all && Tables() == Cleared(d, cleared)
        invariant wrk != null ==> fresh(wrk) && wrk.Mirrors(Tables()) && wrk.serviceId == svc && wrk.state == Occupied
        invariant wrk == null ==> OccupiedFor(Tables(), svc) == {}
        decreases all - cleared
      {
        ghost var w := wrk.id;
        ClearRound(d, cleared, w, svc);
        ClearOne(wrk);
        cleared := cleared + {w};
        wrk := PopWorker(svc, Occupied);
      }
      NoneLeft(d, cleared, svc);
    }
  }

  lemma DisarmsOne(d: Db, identity: Frame, w: Id)
    requires Sound(d) && w in d.workers && d.workers[w].identity == identity
    ensures DisarmTx(d, {w}) == d.(workers := d.workers[w := d.workers[w].(state := Disarmed)])
    ensures Sound(DisarmTx(d, {w}))
    ensures forall v :: v in d.workers && d.workers[v].identity == identity ==> v == w
  {
    assert DisarmTx(d, {w}).workers == d.workers[w := d.workers[w].(state := Disarmed)];
    DisarmKeeps(d, {w});
  }

  function OccupiedFor(d: Db, svc: Id): set<Id>
  {
    set w | w in d.workers && d.workers[w].state == Occupied && d.workers[w].service == svc
  }

  /** The workers `ws` are disarmed and hold nothing, and their letters are gone. */
  function Cleared(d: Db, ws: set<Id>): Db
  {
    d.(letters := map l | l in d.letters && d.letters[l].worker !in ws :: d.letters[l],
       workers := map w | w in d.workers ::
                    if w in ws then d.workers[w].(state := Disarmed, letter := 0) else d.workers[w])
  }

  lemma ClearedStaysAffine(d: Db, ws: set<Id>, w: Id)
    requires Affine(d) && Sound(Cleared(d, ws)) && w in d.workers
    ensures forall l :: l in HeldBy(Cleared(d, ws), w) ==> Cleared(d, ws).letters[l].service == d.workers[w].service
  {
    var d1 := Cleared(d, ws);
    forall l | l in HeldBy(d1, w) ensures d1.letters[l].service == d.workers[w].service
    {
      assert LetterOk(d1, l);
    }
  }

  /** An occupied worker holds a letter. */
  lemma OccupiedHolds(d: Db, w: Id)
    requires Sound(d) && InState(d, w, Occupied)
    ensures HeldBy(d, w) != {}
  {
    HeldByReference(d, w);
    assert WorkerOk(d, w);
  }

  lemma ClearOneMore(d: Db, ws: set<Id>, w: Id)
    requires w in d.workers && w !in ws && HeldBy(Cleared(d, ws), w) != {}
    ensures DisarmTx(ReleaseTx(Cleared(d, ws), w), {w}) == Cleared(d, ws + {w})
  {
    var d1, d' := Cleared(d, ws), Cleared(d, ws + {w});
    assert d1.letters - HeldBy(d1, w) == d'.letters;
    assert DisarmTx(ReleaseTx(d1, w), {w}).workers == d'.workers;
  }

  lemma NoneLeft(d: Db, ws: set<Id>, svc: Id)
    requires ws <= OccupiedFor(d, svc) && OccupiedFor(Cleared(d, ws), svc) == {}
    ensures ws == OccupiedFor(d, svc)
  {
    ClearedLeavesRest(d, ws, svc);
    assert OccupiedFor(d, svc) - ws == {};
    assert forall w :: w in OccupiedFor(d, svc) ==> w in ws || w in OccupiedFor(d, svc) - ws;
  }

  lemma ClearedNothing(d: Db)
    ensures Cleared(d, {}) == d
  {
    assert Cleared(d, {}).letters == d.letters && Cleared(d, {}).workers == d.workers;
  }

  /** What one round may rely on and what it achieves. */
  lemma ClearRound(d: Db, ws: set<Id>, w: Id, svc: Id)
    requires Affine(d) && Sound(Cleared(d, ws)) && w in OccupiedFor(Cleared(d, ws), svc)
    ensures forall l :: l in HeldBy(Cleared(d, ws), w) ==> Cleared(d, ws).letters[l].service == svc
    ensures w in OccupiedFor(d, svc) - ws
    ensures DisarmTx(ReleaseTx(Cleared(d, ws), w), {w}) == Cleared(d, ws + {w})
  {
    ClearedLeavesRest(d, ws, svc);
    ClearedStaysAffine(d, ws, w);
    OccupiedHolds(Cleared(d, ws), w);
    ClearOneMore(d, ws, w);
  }

  lemma ClearedLeavesRest(d: Db, ws: set<Id>, svc: Id)
    ensures OccupiedFor(Cleared(d, ws), svc) == OccupiedFor(d, svc) - ws
  {
  }
}
