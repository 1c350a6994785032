/** What every transaction keeps: unique indexes and mutually inverse references. */
module Invariants {
  import opened Bytes
  import opened Schema
  import opened System

  /** Where the two references stand, row by row. */
  ghost predicate Linked(d: Db)
  {
    && (forall l {:trigger LetterOk(d, l)} :: l in d.letters ==> LetterOk(d, l))
    && (forall w {:trigger WorkerOk(d, w)} :: w in d.workers ==> WorkerOk(d, w))
    && (forall v :: v in d.services ==> 0 !in d.services[v].name)
  }

  ghost predicate LetterOk(d: Db, l: Id)
    requires l in d.letters
  {
    var row := d.letters[l];
    && row.service in d.services
    && 0 !in row.origin && |row.origin| <= IDENTITY_MAXLEN
    && (row.state == Unassigned || row.state == Assigned)
    && (row.state == Unassigned ==> row.worker == l)
    && (row.state == Assigned ==> row.worker in d.workers && d.workers[row.worker].letter == l)
  }

  ghost predicate WorkerOk(d: Db, w: Id)
    requires w in d.workers
  {
    var row := d.workers[w];
    && row.service in d.services
    && 0 !in row.identity && |row.identity| <= IDENTITY_MAXLEN
    && (row.state == Armed || row.state == Disarmed || row.state == Occupied)
    && (row.state == Occupied ==> row.letter != 0)
    && (row.letter != 0 ==>
          && row.letter in d.letters
          && d.letters[row.letter].state == Assigned
          && d.letters[row.letter].worker == w)
  }

  ghost predicate Sound(d: Db) { Indexed(d) && Linked(d) }

  /** A worker holds exactly the letter its own reference names. */
  lemma HeldByReference(d: Db, w: Id)
    requires Sound(d) && w in d.workers
    ensures HeldBy(d, w) == if d.workers[w].letter == 0 then {} else {d.workers[w].letter}
  {
    forall l | l in HeldBy(d, w)
      ensures d.workers[w].letter == l
    {
      assert LetterOk(d, l);
    }
    assert WorkerOk(d, w);
  }

  // ---------------------------------------------------------------- transaction by transaction

  lemma CreateKeeps(cfg: Config, d: Db, identity: Frame, svc: Id, now: nat)
    requires Sound(d) && IsWorker(d, identity, None) && svc in d.services
    requires 0 !in identity && |identity| <= IDENTITY_MAXLEN
    ensures Sound(CreateWorkerTx(cfg, d, identity, svc, now))
  {
    var d' := CreateWorkerTx(cfg, d, identity, svc, now);
    forall l | l in d'.letters ensures LetterOk(d', l) { assert LetterOk(d, l); }
    forall w | w in d'.workers ensures WorkerOk(d', w) { if w != d.next { assert WorkerOk(d, w); } }
  }

  lemma ArmKeeps(cfg: Config, d: Db, w: Id, svc: Id, now: nat)
    requires Sound(d) && w in d.workers && svc in d.services
    ensures Sound(ArmTx(cfg, d, w, svc, now))
  {
    var d' := ArmTx(cfg, d, w, svc, now);
    forall l | l in d'.letters ensures LetterOk(d', l) { assert LetterOk(d, l); }
    forall v | v in d'.workers ensures WorkerOk(d', v) { assert WorkerOk(d, v); }
  }

  lemma DisarmKeeps(d: Db, ws: set<Id>)
    requires Sound(d)
    ensures Sound(DisarmTx(d, ws))
  {
    var d' := DisarmTx(d, ws);
    assert UniqueIdentities(d'.workers);
    forall l | l in d'.letters ensures LetterOk(d', l) { assert LetterOk(d, l); }
    forall v | v in d'.workers ensures WorkerOk(d', v) { assert WorkerOk(d, v); }
  }

  /** No letter can already carry the placeholder, since it is a fresh id: the index never rejects the put. */
  lemma EnqueueKeeps(cfg: Config, d: Db, svc: Id, origin: Frame, header: Frame, body: Frame, now: nat)
    requires Sound(d) && svc in d.services && 0 !in origin && |origin| <= IDENTITY_MAXLEN
    ensures HeldBy(d, d.next) == {}
    ensures Sound(EnqueueTx(cfg, d, svc, origin, header, body, now))
  {
    forall l | l in d.letters ensures d.letters[l].worker != d.next { assert LetterOk(d, l); }
    var d' := EnqueueTx(cfg, d, svc, origin, header, body, now);
    assert Indexed(d');
    EnqueueKeepsLinks(cfg, d, svc, origin, header, body, now);
  }

  lemma EnqueueKeepsLinks(cfg: Config, d: Db, svc: Id, origin: Frame, header: Frame, body: Frame, now: nat)
    requires Numbered(d) && Linked(d) && svc in d.services && 0 !in origin && |origin| <= IDENTITY_MAXLEN
    ensures Linked(EnqueueTx(cfg, d, svc, origin, header, body, now))
  {
    var d' := EnqueueTx(cfg, d, svc, origin, header, body, now);
    forall l | l in d'.letters ensures LetterOk(d', l) { if l != d.next { assert LetterOk(d, l); } }
    forall v | v in d'.workers ensures WorkerOk(d', v) { assert WorkerOk(d, v); }
  }

  /** The index rejects an assignment exactly when the worker still holds a letter. */
  lemma CollidesExactly(d: Db, w: Id, l: Id)
    requires Sound(d) && w in d.workers && l in d.letters && d.letters[l].state == Unassigned
    ensures AssignCollides(d, w, l) <==> d.workers[w].letter != 0
  {
    HeldByReference(d, w);
    assert WorkerOk(d, w) && LetterOk(d, l);
    if d.workers[w].letter != 0 {
      assert d.workers[w].letter in HeldBy(d, w) - {l};
    }
  }

  lemma AssignKeepsIndexes(cfg: Config, d: Db, w: Id, l: Id, now: nat)
    requires Sound(d) && w in d.workers && l in d.letters && !AssignCollides(d, w, l)
    ensures Indexed(AssignTx(cfg, d, w, l, now))
  {
    forall m | m in d.letters && m != l ensures d.letters[m].worker != w
    {
      assert m !in HeldBy(d, w) - {l};
    }
  }

  lemma AssignKeepsLinks(cfg: Config, d: Db, w: Id, l: Id, now: nat)
    requires Sound(d) && w in d.workers && l in d.letters && d.letters[l].state == Unassigned
    requires d.workers[w].letter == 0 && !AssignCollides(d, w, l)
    ensures Linked(AssignTx(cfg, d, w, l, now))
  {
    var d' := AssignTx(cfg, d, w, l, now);
    assert LetterOk(d, l) && WorkerOk(d, w);
    forall m | m in d'.letters ensures LetterOk(d', m)
    {
      assert LetterOk(d, m);
    }
    forall v | v in d'.workers ensures WorkerOk(d', v)
    {
      assert WorkerOk(d, v);
    }
  }

  lemma AssignKeeps(cfg: Config, d: Db, w: Id, l: Id, now: nat)
    requires Sound(d) && w in d.workers && l in d.letters && d.letters[l].state == Unassigned
    ensures Sound(AssignTx(cfg, d, w, l, now))
  {
    CollidesExactly(d, w, l);
    if !AssignCollides(d, w, l) {
      AssignKeepsIndexes(cfg, d, w, l, now);
      AssignKeepsLinks(cfg, d, w, l, now);
    }
  }

  lemma ReleaseKeeps(d: Db, w: Id)
    requires Sound(d) && w in d.workers
    ensures Sound(ReleaseTx(d, w))
  {
    HeldByReference(d, w);
    if HeldBy(d, w) != {} {
      assert WorkerOk(d, w);
      RemovalKeepsIndexes(d, w, d.workers[w].letter);
      RemovalKeepsLinks(d, w, d.workers[w].letter);
    }
  }

  lemma RemovalKeepsIndexes(d: Db, w: Id, l: Id)
    requires Indexed(d) && w in d.workers && HeldBy(d, w) == {l}
    ensures Indexed(ReleaseTx(d, w))
  {
    assert UniqueHolders(ReleaseTx(d, w).letters);
  }

  lemma RemovalKeepsLinks(d: Db, w: Id, l: Id)
    requires Linked(d) && w in d.workers && HeldBy(d, w) == {l} && d.workers[w].letter == l != 0
    ensures Linked(ReleaseTx(d, w))
  {
    var d' := ReleaseTx(d, w);
    forall m | m in d'.letters ensures LetterOk(d', m) { assert LetterOk(d, m) && m !in HeldBy(d, w); }
    forall v | v in d'.workers ensures WorkerOk(d', v) { assert WorkerOk(d, v); }
  }

  lemma RegisterKeeps(cfg: Config, d: Db, name: Frame)
    requires Sound(d) && IsService(d, name, None) && 0 !in name
    ensures Sound(AddServiceTx(cfg, d, name))
  {
    var d' := AddServiceTx(cfg, d, name);
    forall m | m in d'.letters ensures LetterOk(d', m) { assert LetterOk(d, m); }
    forall v | v in d'.workers ensures WorkerOk(d', v) { assert WorkerOk(d, v); }
  }

  lemma SetEndpointKeeps(d: Db, svc: Id, endpoint: Frame)
    requires Sound(d) && svc in d.services
    ensures Sound(SetEndpointTx(d, svc, endpoint))
  {
    var d' := SetEndpointTx(d, svc, endpoint);
    forall m | m in d'.letters ensures LetterOk(d', m) { assert LetterOk(d, m); }
    forall v | v in d'.workers ensures WorkerOk(d', v) { assert WorkerOk(d, v); }
  }

  /** Every transaction keeps the links, whatever state the worker it touches is in. */
  lemma ApplyKeepsSound(cfg: Config, s: State, a: Action, now: nat)
    requires Sound(s.db)
    ensures Sound(Apply(cfg, s, a, now).db)
  {
    if Enabled(s, a) {
      match a
      case Hear(_) =>
      case Register(name) => RegisterKeeps(cfg, s.db, name);
      case SetEndpoint(svc, endpoint) => SetEndpointKeeps(s.db, svc, endpoint);
      case Create(identity, svc) => CreateKeeps(cfg, s.db, identity, svc, now);
      case Arm(w, svc) => ArmKeeps(cfg, s.db, w, svc, now);
      case Disarm(ws) => DisarmKeeps(s.db, ws);
      case Enqueue(q) =>
        EnqueueKeeps(cfg, s.db, q.service, Bounded(q.client, IDENTITY_MAXLEN), q.header, q.body, now);
      case Assign(w, l) => AssignKeeps(cfg, s.db, w, l, now);
      case Release(w) => ReleaseKeeps(s.db, w);
    }
  }

  lemma {:induction false} TraceKeepsSound(cfg: Config, s: State, t: seq<Action>, now: nat)
    requires Sound(s.db)
    ensures Sound(ApplyAll(cfg, s, t, now).db)
    decreases |t|
  {
    if t != [] {
      ApplyKeepsSound(cfg, s, t[0], now);
      TraceKeepsSound(cfg, Apply(cfg, s, t[0], now), t[1..], now);
    }
  }
}
