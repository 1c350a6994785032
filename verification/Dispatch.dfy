/** One round of dispatch after each step is enough: no armed worker idles beside a waiting letter. */
module Dispatch {
  import opened Bytes
  import opened Schema
  import opened System
  import opened Invariants
  import opened Runs

  /** No service has both an armed worker and a waiting letter. */
  ghost predicate NoneIdles(d: Db)
  {
    forall w, l :: InState(d, w, Armed) && l in d.letters && d.letters[l].state == Unassigned ==>
      d.workers[w].service != d.letters[l].service
  }

  /** Armed workers hold nothing. */
  ghost predicate ArmedAreFree(d: Db)
  {
    forall w :: InState(d, w, Armed) ==> d.workers[w].letter == 0
  }

  ghost predicate Busy(d: Db) { NoneIdles(d) && ArmedAreFree(d) }

  /** The step arms a worker whose letter is still outstanding. */
  predicate RearmsHolder(s: State, x: Label)
    requires Found(s.db, x.event, x.choice)
  {
    match x.event
    case Heartbeat(_) => x.choice.who.Some? && s.db.workers[x.choice.who.value].letter != 0
    case Ready(_, _) => x.choice.who.None? && x.choice.key.Some? && s.db.workers[x.choice.key.value].letter != 0
    case _ => false
  }

  /** Only `svc` may have an armed worker beside a waiting letter, and either the worker is always `w` or the letter
      is always `l`. */
  ghost predicate Near(d: Db, svc: Id, w: Id, l: Id)
  {
    && (forall v, m :: InState(d, v, Armed) && WaitingFor(d, m, d.workers[v].service) ==> d.workers[v].service == svc)
    && (OneWorker(d, svc, w) || (forall v, m :: ArmedFor(d, v, svc) && WaitingFor(d, m, svc) ==> m == l))
  }

  ghost predicate OneWorker(d: Db, svc: Id, w: Id)
  {
    forall v, m :: ArmedFor(d, v, svc) && WaitingFor(d, m, svc) ==> v == w
  }

  /** The dispatch pairs a letter with a worker that still holds one. */
  predicate PicksHolder(d: Db, c: Dispatching)
  {
    c.send.Some? && c.send.value.0 in d.workers && d.workers[c.send.value.0].letter != 0
  }

  // ---------------------------------------------------------------- one dispatch

  lemma DisarmStaysNear(d: Db, ws: set<Id>, svc: Id, x: Id, y: Id)
    requires Near(d, svc, x, y)
    ensures Near(DisarmTx(d, ws), svc, x, y)
  {
    var d' := DisarmTx(d, ws);
    forall v, m | InState(d', v, Armed) && WaitingFor(d', m, d'.workers[v].service)
      ensures d'.workers[v].service == svc
    {
      assert InState(d, v, Armed) && WaitingFor(d, m, d.workers[v].service);
    }
    assert forall v :: ArmedFor(d', v, svc) ==> ArmedFor(d, v, svc);
    assert forall m :: WaitingFor(d', m, svc) ==> WaitingFor(d, m, svc);
  }

  lemma NothingToSend(d: Db, svc: Id, x: Id, y: Id)
    requires Near(d, svc, x, y) && SendOk(d, svc, None)
    ensures NoneIdles(d)
  {
    forall w, l | InState(d, w, Armed) && l in d.letters && d.letters[l].state == Unassigned
      ensures d.workers[w].service != d.letters[l].service
    {
      assert WaitingFor(d, l, d.letters[l].service) && ArmedFor(d, w, d.workers[w].service);
    }
  }

  lemma AssignRestores(cfg: Config, d: Db, svc: Id, w: Id, l: Id, now: nat, x: Id, y: Id)
    requires Near(d, svc, x, y) && ArmedFor(d, w, svc) && WaitingFor(d, l, svc) && !AssignCollides(d, w, l)
    ensures NoneIdles(AssignTx(cfg, d, w, l, now))
  {
    var d' := AssignTx(cfg, d, w, l, now);
    assert forall v :: InState(d', v, Armed) ==> v != w && InState(d, v, Armed) && d'.workers[v] == d.workers[v];
    assert forall m, k :: WaitingFor(d', m, k) ==> m != l && WaitingFor(d, m, k);
    forall v, m | InState(d', v, Armed) && m in d'.letters && d'.letters[m].state == Unassigned
      ensures d'.workers[v].service != d'.letters[m].service
    {
      assert WaitingFor(d', m, d'.letters[m].service);
      assert WaitingFor(d, m, d.letters[m].service) && ArmedFor(d, v, d.workers[v].service);
    }
  }

  /** One purge and one pairing restore the balance, unless the worker that is picked still holds a letter: then
      the pairing is rolled back, and the worker stays beside the letter. */
  lemma DispatchRestores(cfg: Config, d: Db, svc: Id, c: Dispatching, now: nat, x: Id, y: Id)
    requires Sound(d) && Near(d, svc, x, y) && SendOk(DisarmTx(d, c.purged), svc, c.send)
    ensures NoneIdles(Dispatched(cfg, d, c, now)) <==> !PicksHolder(d, c)
    ensures PicksHolder(d, c) ==> Dispatched(cfg, d, c, now) == DisarmTx(d, c.purged)
  {
    var d1 := DisarmTx(d, c.purged);
    DisarmStaysNear(d, c.purged, svc, x, y);
    if c.send.Some? {
      assert AssignCollides(d1, c.send.value.0, c.send.value.1) <==> d1.workers[c.send.value.0].letter != 0 by {
        DisarmKeeps(d, c.purged);
        CollidesExactly(d1, c.send.value.0, c.send.value.1);
      }
      if PicksHolder(d, c) {
        assert InState(d1, c.send.value.0, Armed);
      } else {
        AssignRestores(cfg, d1, svc, c.send.value.0, c.send.value.1, now, x, y);
      }
    } else {
      NothingToSend(d1, svc, x, y);
    }
  }

  lemma DispatchStaysFree(cfg: Config, d: Db, svc: Id, c: Dispatching, now: nat)
    requires ArmedAreFree(d) && SendOk(DisarmTx(d, c.purged), svc, c.send)
    ensures ArmedAreFree(Dispatched(cfg, d, c, now)) && !PicksHolder(d, c)
  {
    var d' := Dispatched(cfg, d, c, now);
    assert forall v :: InState(d', v, Armed) ==> InState(d, v, Armed) && d'.workers[v] == d.workers[v];
    assert c.send.Some? ==> InState(d, c.send.value.0, Armed);
  }

  // ---------------------------------------------------------------- what the prefix of a step leaves to dispatch

  /** One more armed worker. */
  lemma ArmingIsNear(d: Db, d': Db, w: Id, svc: Id)
    requires NoneIdles(d) && d'.letters.Keys <= d.letters.Keys
    requires forall m :: m in d'.letters ==> d'.letters[m] == d.letters[m]
    requires w in d'.workers && d'.workers[w].state == Armed && d'.workers[w].service == svc
    requires forall v :: v in d'.workers && v != w ==> v in d.workers && d'.workers[v] == d.workers[v]
    ensures Near(d', svc, w, 0) && OneWorker(d', svc, w)
    ensures ArmedAreFree(d) && d'.workers[w].letter == 0 ==> ArmedAreFree(d')
  {
    forall v, m | InState(d', v, Armed) && WaitingFor(d', m, d'.workers[v].service)
      ensures d'.workers[v].service == svc && v == w
    {
      if v != w {
        assert InState(d, v, Armed);
      }
    }
    assert forall v :: v != w && InState(d', v, Armed) ==> InState(d, v, Armed);
  }

  /** One more waiting letter. */
  lemma EnqueueIsNear(cfg: Config, d: Db, svc: Id, origin: Frame, header: Frame, body: Frame, now: nat)
    requires NoneIdles(d)
    ensures var d' := EnqueueTx(cfg, d, svc, origin, header, body, now);
            Near(d', svc, 0, d.next) && (ArmedAreFree(d) ==> ArmedAreFree(d'))
  {
    var d' := EnqueueTx(cfg, d, svc, origin, header, body, now);
    forall v, m | InState(d', v, Armed) && WaitingFor(d', m, d'.workers[v].service)
      ensures d'.workers[v].service == svc
    {
      assert InState(d, v, Armed);
    }
    forall v, m | ArmedFor(d', v, svc) && WaitingFor(d', m, svc) ensures m == d.next
    {
      assert InState(d, v, Armed);
    }
    assert forall v :: InState(d', v, Armed) ==> InState(d, v, Armed);
  }

  lemma DisarmStaysIdle(d: Db, ws: set<Id>)
    requires NoneIdles(d)
    ensures NoneIdles(DisarmTx(d, ws)) && (ArmedAreFree(d) ==> ArmedAreFree(DisarmTx(d, ws)))
  {
    var d' := DisarmTx(d, ws);
    assert forall v :: InState(d', v, Armed) ==> InState(d, v, Armed) && d'.workers[v] == d.workers[v];
  }

  /** A report leaves its worker with nothing in its hands. */
  lemma ReportedHoldsNothing(d: Db, w: Id)
    requires Sound(d) && w in d.workers
    ensures ReleaseTx(d, w).workers[w].letter == 0
  {
    HeldByReference(d, w);
    assert WorkerOk(d, w);
  }

  /** A known worker that is armed again for its own service. */
  lemma {:induction false} KnownPrefix(cfg: Config, s: State, e: Event, c: Choice, now: nat)
    requires Sound(s.db) && NoneIdles(s.db) && (e.Report? || e.Heartbeat?) && c.who.Some?
    requires Found(s.db, e, c) && !Aborts(s, e, c)
    ensures var d := ApplyAll(cfg, s, Prefix(s, e, c), now).db;
            && Near(d, s.db.workers[c.who.value].service, c.who.value, 0)
            && (ArmedAreFree(s.db) && (e.Heartbeat? ==> s.db.workers[c.who.value].letter == 0) ==> ArmedAreFree(d))
  {
    var w := c.who.value;
    KnownPrefixEffect(cfg, s, e, c, now);
    ReportedHoldsNothing(s.db, w);
    ArmingIsNear(s.db, ApplyAll(cfg, s, Prefix(s, e, c), now).db, w, s.db.workers[w].service);
  }

  /** A worker that joins: the new row, or the row it collides with. */
  lemma NewcomerPrefix(cfg: Config, s: State, e: Event, c: Choice, now: nat) returns (w: Id)
    requires NoneIdles(s.db) && e.Ready? && c.who.None? && Found(s.db, e, c) && !Aborts(s, e, c)
    ensures var d := ApplyAll(cfg, s, Prefix(s, e, c), now).db;
            && Near(d, ServiceOf(s, c), w, 0) && OneWorker(d, ServiceOf(s, c), w) && d.letters == s.db.letters
            && ArmedFor(d, w, ServiceOf(s, c)) && d.workers[w].expiry >= now
            && d.workers[w].letter == (if c.key.Some? then s.db.workers[c.key.value].letter else 0)
            && (ArmedAreFree(s.db) && d.workers[w].letter == 0 ==> ArmedAreFree(d))
            && w == (if c.key.Some? then c.key.value else ApplyAll(cfg, s, Opening(s, e.args, c), now).db.next)
  {
    var svc := ServiceOf(s, c);
    var s1 := ApplyAll(cfg, s, Opening(s, e.args, c), now);
    var u := Joining(e.sender, svc, c);
    ReadyPrefixEnabled(cfg, s, e, c, now);
    OpeningEnabled(cfg, s, e.args, c, now);
    var d := ApplyAll(cfg, s, Prefix(s, e, c), now).db;
    if c.key.Some? {
      w := c.key.value;
      Unfold2(cfg, s1, u[0], u[1], now);
    } else {
      w := s1.db.next;
      Unfold1(cfg, s1, u[0], now);
    }
    ArmingIsNear(s.db, d, w, svc);
  }

  // ---------------------------------------------------------------- workers that hold a letter

  /** A worker armed a moment ago outlives the purge, and an assignment to it rolls back. */
  lemma HolderStaysArmed(cfg: Config, d: Db, svc: Id, c: Dispatching, now: nat, w: Id)
    requires Sound(d) && PurgeOk(cfg, d, now, c) && SendOk(DisarmTx(d, c.purged), svc, c.send)
    requires InState(d, w, Armed) && d.workers[w].letter != 0 && d.workers[w].expiry >= now
    ensures var d' := Dispatched(cfg, d, c, now);
            w in d'.workers && d'.workers[w] == d.workers[w]
    ensures c.send.Some? && c.send.value.0 == w ==> Dispatched(cfg, d, c, now) == DisarmTx(d, c.purged)
  {
    NotPurged(cfg, d, c, now, w);
    DisarmKeeps(d, c.purged);
    if c.send.Some? {
      CollidesExactly(DisarmTx(d, c.purged), c.send.value.0, c.send.value.1);
    }
  }

  lemma NotPurged(cfg: Config, d: Db, c: Dispatching, now: nat, w: Id)
    requires PurgeOk(cfg, d, now, c) && w in d.workers && (d.workers[w].state != Armed || d.workers[w].expiry >= now)
    ensures w !in c.purged && DisarmTx(d, c.purged).workers[w] == d.workers[w]
  {
  }

  /** Re-arming is safe: an assignment to a worker that still holds a letter changes no row and sends nothing. */
  lemma HolderTakesNoSecondLetter(cfg: Config, s: State, w: Id, l: Id, now: nat)
    requires Sound(s.db) && w in s.db.workers && s.db.workers[w].letter != 0
    ensures Apply(cfg, s, Assign(w, l), now) == s
  {
    if Enabled(s, Assign(w, l)) {
      CollidesExactly(s.db, w, l);
    }
  }

  // ---------------------------------------------------------------- steps and runs

  /** The tables of a whole step in terms of what its prefix left. */
  lemma {:induction false} StepEffect(cfg: Config, s: State, x: Label)
    requires Legal(cfg, s, x.event, x.now, x.choice)
    ensures var d1 := ApplyAll(cfg, s, Prefix(s, x.event, x.choice), x.now).db;
            Step(cfg, s, x).db ==
              if x.event.Timer? then DisarmTx(s.db, x.choice.d1.purged)
              else if Target(s, x.event, x.choice).None? then d1
              else if !x.event.Ready? then Dispatched(cfg, d1, x.choice.d1, x.now)
              else Dispatched(cfg, Dispatched(cfg, d1, x.choice.d1, x.now), x.choice.d2, x.now)
  {
    var c, now := x.choice, x.now;
    var s1 := ApplyAll(cfg, s, Prefix(s, x.event, c), now);
    StepParts(cfg, s, x);
    if x.event.Timer? {
      Unfold1(cfg, s, Disarm(c.d1.purged), now);
    } else if Target(s, x.event, c).Some? {
      var svc := Target(s, x.event, c).value;
      DispatchEffect(cfg, s1, svc, now, c.d1);
      if x.event.Ready? {
        DispatchEffect(cfg, ApplyAll(cfg, s1, DispatchTrace(c.d1), now), svc, now, c.d2);
      }
    }
  }

  lemma DispatchKeepsSound(cfg: Config, d: Db, c: Dispatching, svc: Id, now: nat)
    requires Sound(d) && SendOk(DisarmTx(d, c.purged), svc, c.send)
    ensures Sound(Dispatched(cfg, d, c, now))
  {
    DisarmKeeps(d, c.purged);
    if c.send.Some? {
      AssignKeeps(cfg, DisarmTx(d, c.purged), c.send.value.0, c.send.value.1, now);
    }
  }

  // ---------------------------------------------------------------- exactly when a step leaves a worker idle

  /** The first dispatch of the step picks a worker that holds a letter. */
  ghost predicate StepPicksHolder(cfg: Config, s: State, x: Label)
    requires Legal(cfg, s, x.event, x.now, x.choice)
  {
    Target(s, x.event, x.choice).Some? &&
    PicksHolder(ApplyAll(cfg, s, Prefix(s, x.event, x.choice), x.now).db, x.choice.d1)
  }

  /** Without a dispatch a step disarms at most. */
  lemma QuietStep(cfg: Config, s: State, x: Label)
    requires NoneIdles(s.db) && Legal(cfg, s, x.event, x.now, x.choice) && Target(s, x.event, x.choice).None?
    ensures NoneIdles(Step(cfg, s, x).db) && (ArmedAreFree(s.db) ==> ArmedAreFree(Step(cfg, s, x).db))
  {
    StepEffect(cfg, s, x);
    DisarmStaysIdle(s.db, x.choice.d1.purged);
    if (x.event.Ready? || x.event.Disconnect?) && x.choice.who.Some? {
      Unfold2(cfg, s, Hear(x.choice.who.value), Disarm({x.choice.who.value}), x.now);
      DisarmStaysIdle(s.db, {x.choice.who.value});
    }
  }

  /** A step that dispatches once. */
  lemma {:induction false} OneDispatch(cfg: Config, s: State, x: Label, w: Id, l: Id)
    requires Sound(s.db) && Legal(cfg, s, x.event, x.now, x.choice) && Target(s, x.event, x.choice).Some?
    requires !x.event.Ready?
    requires Near(ApplyAll(cfg, s, Prefix(s, x.event, x.choice), x.now).db, Target(s, x.event, x.choice).value, w, l)
    ensures NoneIdles(Step(cfg, s, x).db) <==> !StepPicksHolder(cfg, s, x)
  {
    var s1 := ApplyAll(cfg, s, Prefix(s, x.event, x.choice), x.now);
    assert Sound(s1.db) by { TraceKeepsSound(cfg, s, Prefix(s, x.event, x.choice), x.now); }
    StepEffect(cfg, s, x);
    DispatchRestores(cfg, s1.db, Target(s, x.event, x.choice).value, x.choice.d1, x.now, w, l);
  }

  /** READY dispatches twice. What the first round has put right stays right; what it could not, the second can not
      either, because it meets the same worker. */
  lemma TwoDispatches(cfg: Config, d: Db, svc: Id, c1: Dispatching, c2: Dispatching, now: nat, w: Id)
    requires Sound(d) && Near(d, svc, w, 0) && OneWorker(d, svc, w) && ArmedFor(d, w, svc) && d.workers[w].expiry >= now
    requires SendOk(DisarmTx(d, c1.purged), svc, c1.send) && PurgeOk(cfg, d, now, c1)
    requires var d2 := Dispatched(cfg, d, c1, now);
             PurgeOk(cfg, d2, now, c2) && SendOk(DisarmTx(d2, c2.purged), svc, c2.send)
    ensures NoneIdles(Dispatched(cfg, Dispatched(cfg, d, c1, now), c2, now)) <==> !PicksHolder(d, c1)
  {
    var d2 := Dispatched(cfg, d, c1, now);
    assert Sound(d2) by { DispatchKeepsSound(cfg, d, c1, svc, now); }
    DispatchRestores(cfg, d, svc, c1, now, w, 0);
    if PicksHolder(d, c1) {
      assert Near(d2, svc, w, 0) by { DisarmStaysNear(d, c1.purged, svc, w, 0); }
      DispatchRestores(cfg, d2, svc, c2, now, w, 0);
      HolderPickedAgain(cfg, d, svc, c1, c2, now, w);
    } else {
      StaysRight(cfg, d2, svc, c2, now);
    }
  }

  lemma StaysRight(cfg: Config, d: Db, svc: Id, c: Dispatching, now: nat)
    requires NoneIdles(d) && SendOk(DisarmTx(d, c.purged), svc, c.send)
    ensures NoneIdles(Dispatched(cfg, d, c, now))
  {
    DisarmStaysIdle(d, c.purged);
    NoPair(DisarmTx(d, c.purged), svc);
  }

  lemma NoPair(d: Db, svc: Id)
    requires NoneIdles(d)
    ensures forall v, m :: ArmedFor(d, v, svc) ==> !WaitingFor(d, m, svc)
  {
    assert forall v :: ArmedFor(d, v, svc) ==> InState(d, v, Armed);
  }

  lemma HolderPickedAgain(cfg: Config, d: Db, svc: Id, c1: Dispatching, c2: Dispatching, now: nat, w: Id)
    requires OneWorker(d, svc, w) && ArmedFor(d, w, svc) && d.workers[w].expiry >= now && PicksHolder(d, c1)
    requires PurgeOk(cfg, d, now, c1) && SendOk(DisarmTx(d, c1.purged), svc, c1.send)
    requires var d2 := DisarmTx(d, c1.purged);
             PurgeOk(cfg, d2, now, c2) && SendOk(DisarmTx(d2, c2.purged), svc, c2.send)
    ensures PicksHolder(DisarmTx(d, c1.purged), c2)
  {
    var d2 := DisarmTx(d, c1.purged);
    var d3 := DisarmTx(d2, c2.purged);
    assert ArmedFor(d, c1.send.value.0, svc) && WaitingFor(d, c1.send.value.1, svc);
    NotPurged(cfg, d, c1, now, w);
    NotPurged(cfg, d2, c2, now, w);
    assert ArmedFor(d3, w, svc) && WaitingFor(d3, c1.send.value.1, svc);
    assert ArmedFor(d, c2.send.value.0, svc) && WaitingFor(d, c2.send.value.1, svc);
  }

  /** From any sound tables in which nobody idles, whoever else holds what: the step leaves an armed worker beside a
      waiting letter exactly when the database hands its dispatch a worker that holds a letter. */
  lemma StepIdlesByPick(cfg: Config, s: State, x: Label)
    requires Sound(s.db) && NoneIdles(s.db) && Legal(cfg, s, x.event, x.now, x.choice)
    ensures NoneIdles(Step(cfg, s, x).db) <==> !StepPicksHolder(cfg, s, x)
  {
    var e, c, now := x.event, x.choice, x.now;
    if Target(s, e, c).None? {
      QuietStep(cfg, s, x);
    } else if e.Client? {
      ClientPrefix(cfg, s, x);
      OneDispatch(cfg, s, x, 0, s.db.next);
    } else if e.Ready? {
      NewcomerIdlesByPick(cfg, s, x);
    } else {
      KnownPrefix(cfg, s, e, c, now);
      OneDispatch(cfg, s, x, c.who.value, 0);
    }
  }

  lemma {:induction false} ClientPrefix(cfg: Config, s: State, x: Label)
    requires NoneIdles(s.db) && Legal(cfg, s, x.event, x.now, x.choice) && x.event.Client?
    requires Target(s, x.event, x.choice).Some?
    ensures var d := ApplyAll(cfg, s, Prefix(s, x.event, x.choice), x.now).db;
            Near(d, x.choice.service.value, 0, s.db.next) && (ArmedAreFree(s.db) ==> ArmedAreFree(d))
  {
    var q := RequestOf(x.event.sender, x.choice.service.value, x.event.rest);
    Unfold1(cfg, s, Enqueue(q), x.now);
    EnqueueIsNear(cfg, s.db, q.service, Bounded(q.client, IDENTITY_MAXLEN), q.header, q.body, x.now);
  }

  lemma NewcomerIdlesByPick(cfg: Config, s: State, x: Label)
    requires Sound(s.db) && NoneIdles(s.db) && Legal(cfg, s, x.event, x.now, x.choice) && x.event.Ready?
    requires x.choice.who.None?
    ensures NoneIdles(Step(cfg, s, x).db) <==> !StepPicksHolder(cfg, s, x)
  {
    var e, c, now, svc := x.event, x.choice, x.now, ServiceOf(s, x.choice);
    var s1 := ApplyAll(cfg, s, Prefix(s, e, c), now);
    var w := NewcomerPrefix(cfg, s, e, c, now);
    assert Sound(s1.db) by { TraceKeepsSound(cfg, s, Prefix(s, e, c), now); }
    DispatchEffect(cfg, s1, svc, now, c.d1);
    StepEffect(cfg, s, x);
    TwoDispatches(cfg, s1.db, svc, c.d1, c.d2, now, w);
  }

  /** From balanced tables, that is when the step arms a worker that holds a letter, and a letter waits for it. */
  lemma PicksExactly(cfg: Config, s: State, x: Label)
    requires Sound(s.db) && Busy(s.db) && Legal(cfg, s, x.event, x.now, x.choice)
    ensures StepPicksHolder(cfg, s, x) <==>
              RearmsHolder(s, x) && exists l :: WaitingFor(s.db, l, Target(s, x.event, x.choice).value)
  {
    if RearmsHolder(s, x) {
      RearmedIsPicked(cfg, s, x);
    } else if Target(s, x.event, x.choice).Some? {
      PrefixStaysFree(cfg, s, x);
      var d := ApplyAll(cfg, s, Prefix(s, x.event, x.choice), x.now).db;
      DispatchStaysFree(cfg, d, Target(s, x.event, x.choice).value, x.choice.d1, x.now);
    }
  }

  lemma {:induction false} PrefixStaysFree(cfg: Config, s: State, x: Label)
    requires Sound(s.db) && Busy(s.db) && Legal(cfg, s, x.event, x.now, x.choice) && !RearmsHolder(s, x)
    requires Target(s, x.event, x.choice).Some?
    ensures ArmedAreFree(ApplyAll(cfg, s, Prefix(s, x.event, x.choice), x.now).db)
  {
    if x.event.Client? {
      ClientPrefix(cfg, s, x);
    } else if x.event.Ready? {
      var _ := NewcomerPrefix(cfg, s, x.event, x.choice, x.now);
    } else {
      KnownPrefix(cfg, s, x.event, x.choice, x.now);
    }
  }

  /** The holder a step re-arms: what the dispatch will find. */
  lemma RearmedPrefix(cfg: Config, s: State, x: Label) returns (w: Id)
    requires Sound(s.db) && NoneIdles(s.db) && Legal(cfg, s, x.event, x.now, x.choice) && RearmsHolder(s, x)
    ensures var d, svc := ApplyAll(cfg, s, Prefix(s, x.event, x.choice), x.now).db, Target(s, x.event, x.choice).value;
            && OneWorker(d, svc, w) && d.letters == s.db.letters
            && ArmedFor(d, w, svc) && d.workers[w].expiry >= x.now && d.workers[w].letter != 0
  {
    var e, c, now := x.event, x.choice, x.now;
    if e.Heartbeat? {
      w := c.who.value;
      KnownPrefixEffect(cfg, s, e, c, now);
      ArmingIsNear(s.db, ApplyAll(cfg, s, Prefix(s, e, c), now).db, w, s.db.workers[w].service);
    } else {
      w := NewcomerPrefix(cfg, s, e, c, now);
    }
  }

  lemma RearmedIsPicked(cfg: Config, s: State, x: Label)
    requires Sound(s.db) && NoneIdles(s.db) && Legal(cfg, s, x.event, x.now, x.choice) && RearmsHolder(s, x)
    ensures StepPicksHolder(cfg, s, x) <==> exists l :: WaitingFor(s.db, l, Target(s, x.event, x.choice).value)
  {
    var c, svc := x.choice.d1, Target(s, x.event, x.choice).value;
    var w := RearmedPrefix(cfg, s, x);
    var d := ApplyAll(cfg, s, Prefix(s, x.event, x.choice), x.now).db;
    NotPurged(cfg, d, c, x.now, w);
    assert ArmedFor(DisarmTx(d, c.purged), w, svc);
    if l :| WaitingFor(s.db, l, svc) {
      assert WaitingFor(DisarmTx(d, c.purged), l, svc);
      assert ArmedFor(d, c.send.value.0, svc) && WaitingFor(d, c.send.value.1, svc);
    }
    assert c.send.Some? ==> WaitingFor(s.db, c.send.value.1, svc);
  }

  /** Work conservation, exactly: from balanced tables a step leaves an armed worker beside a waiting letter if and
      only if it arms a worker whose letter is outstanding while another letter waits for the service. */
  lemma StepIdlesExactly(cfg: Config, s: State, x: Label)
    requires Sound(s.db) && Busy(s.db) && Legal(cfg, s, x.event, x.now, x.choice)
    ensures NoneIdles(Step(cfg, s, x).db) <==>
              !(RearmsHolder(s, x) && exists l :: WaitingFor(s.db, l, Target(s, x.event, x.choice).value))
  {
    StepIdlesByPick(cfg, s, x);
    PicksExactly(cfg, s, x);
  }

  // ---------------------------------------------------------------- runs

  /** In no state of the run an armed worker stands beside a waiting letter. */
  ghost predicate NeverIdle(cfg: Config, s: State, run: seq<Label>)
    requires IsRun(cfg, s, run)
    decreases |run|
  {
    NoneIdles(s.db) && (run == [] || NeverIdle(cfg, Step(cfg, s, run[0]), run[1..]))
  }

  ghost predicate NeverPicks(cfg: Config, s: State, run: seq<Label>)
    requires IsRun(cfg, s, run)
    decreases |run|
  {
    run == [] || (!StepPicksHolder(cfg, s, run[0]) && NeverPicks(cfg, Step(cfg, s, run[0]), run[1..]))
  }

  /** Every run at all: work is conserved throughout exactly when no dispatch is handed a letter holder. */
  lemma {:induction false} RunIdlesExactly(cfg: Config, s: State, run: seq<Label>)
    requires IsRun(cfg, s, run) && Sound(s.db) && NoneIdles(s.db)
    ensures NeverIdle(cfg, s, run) <==> NeverPicks(cfg, s, run)
    decreases |run|
  {
    if run != [] {
      var s' := Step(cfg, s, run[0]);
      StepIdlesByPick(cfg, s, run[0]);
      if NoneIdles(s'.db) {
        TraceKeepsSound(cfg, s, Trace(s, run[0].event, run[0].choice), run[0].now);
        RunIdlesExactly(cfg, s', run[1..]);
      }
    }
  }

  ghost predicate NoHolderRearmed(cfg: Config, s: State, run: seq<Label>)
    requires IsRun(cfg, s, run)
    decreases |run|
  {
    run == [] || (!RearmsHolder(s, run[0]) && NoHolderRearmed(cfg, Step(cfg, s, run[0]), run[1..]))
  }

  /** Armed workers stay free unless the step arms a holder. */
  lemma StepStaysBusy(cfg: Config, s: State, x: Label)
    requires Sound(s.db) && Busy(s.db) && Legal(cfg, s, x.event, x.now, x.choice) && !RearmsHolder(s, x)
    ensures Busy(Step(cfg, s, x).db)
  {
    StepIdlesExactly(cfg, s, x);
    if Target(s, x.event, x.choice).None? {
      QuietStep(cfg, s, x);
    } else {
      var c, now, svc := x.choice, x.now, Target(s, x.event, x.choice).value;
      var s1 := ApplyAll(cfg, s, Prefix(s, x.event, c), now);
      PrefixStaysFree(cfg, s, x);
      StepEffect(cfg, s, x);
      DispatchStaysFree(cfg, s1.db, svc, c.d1, now);
      DispatchEffect(cfg, s1, svc, now, c.d1);
      if x.event.Ready? {
        DispatchStaysFree(cfg, Dispatched(cfg, s1.db, c.d1, now), svc, c.d2, now);
      }
    }
  }

  /** Between any two steps of such a run no service has an armed worker beside a waiting letter. */
  lemma {:induction false} RunNeverIdles(cfg: Config, s: State, run: seq<Label>)
    requires IsRun(cfg, s, run) && Sound(s.db) && Busy(s.db) && NoHolderRearmed(cfg, s, run)
    ensures Busy(After(cfg, s, run).db)
    decreases |run|
  {
    if run != [] {
      StepStaysBusy(cfg, s, run[0]);
      TraceKeepsSound(cfg, s, Trace(s, run[0].event, run[0].choice), run[0].now);
      RunNeverIdles(cfg, Step(cfg, s, run[0]), run[1..]);
    }
  }
}
