/** In-memory copies of table rows, as the handlers pass them around. */
module Entities {
  import opened Bytes
  import opened Schema
  import opened Messages

  datatype Service = Service(id: Id, name: Frame, endpoint: Frame, state: ServiceState)

  class Worker {
    var id: Id
    var serviceId: Id
    var letterId: Id
    var identity: Frame
    var state: WorkerState
    var expiry: nat

    /** A worker that is not in the table yet has id 0. */
    constructor (serviceId: Id, identity: Frame, id: Id, letterId: Id)
      ensures this.serviceId == serviceId && this.id == id && this.letterId == letterId
      ensures this.identity == Bounded(identity, IDENTITY_MAXLEN) && state == Init && expiry == 0
    {
      this.id, this.serviceId, this.letterId := id, serviceId, letterId;
      this.identity := Bounded(identity, IDENTITY_MAXLEN);
      state, expiry := Init, 0;
    }

    predicate Named()
      reads this
    {
      0 !in identity && |identity| <= IDENTITY_MAXLEN
    }

    /** The copy agrees with its row. */
    predicate Mirrors(d: Db)
      reads this
    {
      id in d.workers && d.workers[id] == WorkerRow(identity, state, expiry, serviceId, letterId)
    }

    /** Only the seconds are compared. */
    method Expired(now: nat) returns (expired: bool)
      ensures expired <==> expiry < now
    {
      expired := false;
      if expiry < now {
        expired := true;
      }
    }

    /** Two heartbeats from now, in whole seconds. */
    method CalculateExpirationTime(cfg: Config, now: nat) returns (next: nat)
      ensures next == now + cfg.Grace()
    {
      next := now + cfg.heartbeatMsec / 1000 * 2;
    }
  }

  class Letter {
    var id: Id
    var serviceId: Id
    var workerId: Id
    var state: LetterState
    var header: Frame
    var data: Frame
    var replyTo: Frame
    var expiry: nat

    /** From a message: the first frame is the reply address, the last two are header and body. */
    constructor FromMessage(msg: ZMsg)
      requires |msg.parts| >= 2
      ensures id == 0 && serviceId == 0 && workerId == 0 && state == Unassigned && expiry == 0
      ensures replyTo == Bounded(msg.parts[0], IDENTITY_MAXLEN)
      ensures header == msg.parts[|msg.parts| - 2] && data == msg.parts[|msg.parts| - 1]
    {
      id, serviceId, workerId, state, expiry := 0, 0, 0, Unassigned, 0;
      replyTo := Bounded(msg.parts[0], IDENTITY_MAXLEN);
      header, data := msg.parts[|msg.parts| - 2], msg.parts[|msg.parts| - 1];
    }

    constructor FromRow(id: Id, row: LetterRow)
      ensures this.id == id && serviceId == row.service && workerId == row.worker && state == row.state
      ensures header == row.header && data == row.body && expiry == row.expiry
      ensures replyTo == Bounded(row.origin, IDENTITY_MAXLEN)
    {
      this.id, serviceId, workerId, state, expiry := id, row.service, row.worker, row.state, row.expiry;
      replyTo := Bounded(row.origin, IDENTITY_MAXLEN);
      header, data := row.header, row.body;
    }

    predicate Mirrors(d: Db)
      reads this
    {
      id in d.letters && d.letters[id] == LetterRow(serviceId, workerId, state, replyTo, expiry, header, data)
    }
  }
}
