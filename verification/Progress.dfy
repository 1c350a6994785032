/** Nothing waits that could be served: a request and a worker that fit meet in the step that brings the second. */
module Progress {
  import opened Bytes
  import opened Schema
  import opened System
  import opened Invariants
  import opened Runs
  import opened Dispatch
  import opened Expiry
  import opened Broker

  /** The step sent one request: this letter, to this worker, and nothing else. */
  predicate SentOne(s: State, s': State, w: Id, l: Id)
  {
    |s'.log.sent| == |s.log.sent| + 1 && s.log.sent <= s'.log.sent
    && s'.log.sent[|s.log.sent|].letter == l && s'.log.sent[|s.log.sent|].worker == w
    && l in s'.db.letters && s'.db.letters[l].state == Assigned && s'.db.letters[l].worker == w
    && InState(s'.db, w, Occupied)
  }

  /** The purge leaves that worker, so the dispatch finds a pair, and one that was there before. */
  lemma FindsPair(cfg: Config, d: Db, svc: Id, c: Dispatching, now: nat, w: Id, l: Id)
    requires PurgeOk(cfg, d, now, c) && SendOk(DisarmTx(d, c.purged), svc, c.send)
    requires ArmedFor(d, w, svc) && d.workers[w].expiry >= now && WaitingFor(d, l, svc)
    ensures c.send.Some? && ArmedFor(d, c.send.value.0, svc) && WaitingFor(d, c.send.value.1, svc)
    ensures var d' := DisarmTx(d, c.purged); var v, m := c.send.value.0, c.send.value.1;
            ArmedFor(d', v, svc) && d'.workers[v] == d.workers[v] && d'.letters == d.letters
  {
    var d' := DisarmTx(d, c.purged);
    NotPurged(cfg, d, c, now, w);
    assert ArmedFor(d', w, svc) && WaitingFor(d', l, svc);
  }

  lemma FreeWorkerTakes(cfg: Config, s: State, v: Id, m: Id, now: nat)
    requires Sound(s.db) && Enabled(s, Assign(v, m)) && s.db.workers[v].letter == 0
    ensures SentOne(s, Apply(cfg, s, Assign(v, m), now), v, m)
  {
    CollidesExactly(s.db, v, m);
  }

  /** Dispatch from a state with an armed worker that is not expired and a letter that waits. */
  lemma {:induction false} DispatchSends(cfg: Config, s: State, svc: Id, c: Dispatching, now: nat, w: Id, l: Id)
    requires Sound(s.db) && (forall v :: ArmedFor(s.db, v, svc) ==> s.db.workers[v].letter == 0)
    requires DispatchOk(cfg, s, svc, now, c)
    requires ArmedFor(s.db, w, svc) && s.db.workers[w].expiry >= now && WaitingFor(s.db, l, svc)
    ensures c.send.Some? && ArmedFor(s.db, c.send.value.0, svc) && WaitingFor(s.db, c.send.value.1, svc)
    ensures SentOne(s, ApplyAll(cfg, s, DispatchTrace(c), now), c.send.value.0, c.send.value.1)
  {
    FindsPair(cfg, s.db, svc, c, now, w, l);
    var s1 := s.(db := DisarmTx(s.db, c.purged));
    DisarmKeeps(s.db, c.purged);
    FreeWorkerTakes(cfg, s1, c.send.value.0, c.send.value.1, now);
    DispatchUnfolds(cfg, s, c, now);
  }

  /** A new letter changes no worker, and where a worker was armed it is the only one that waits. */
  lemma OnlyOneWaits(cfg: Config, s: State, q: Request, now: nat, w: Id)
    requires s.db.next !in s.db.letters && Busy(s.db) && Enabled(s, Enqueue(q)) && ArmedFor(s.db, w, q.service)
    ensures var s1 := Apply(cfg, s, Enqueue(q), now);
            && s1.db.workers == s.db.workers && s1.log.sent == s.log.sent
            && (forall v :: ArmedFor(s1.db, v, q.service) ==> s1.db.workers[v].letter == 0)
            && (forall m :: WaitingFor(s1.db, m, q.service) <==> m == s.db.next)
  {
    var s1 := Apply(cfg, s, Enqueue(q), now);
    assert InState(s.db, w, Armed);
    forall v | ArmedFor(s1.db, v, q.service) ensures s1.db.workers[v].letter == 0
    {
      assert InState(s.db, v, Armed);
    }
  }

  /** A request for a service with an armed worker that is not expired goes out in the very step that accepts it. */
  lemma RequestServedAtOnce(cfg: Config, s: State, x: Label, w: Id)
    requires Sound(s.db) && Busy(s.db) && Legal(cfg, s, x.event, x.now, x.choice) && x.event.Client?
    requires Target(s, x.event, x.choice).Some?
    requires ArmedFor(s.db, w, Target(s, x.event, x.choice).value) && s.db.workers[w].expiry >= x.now
    ensures exists v :: SentOne(s, Step(cfg, s, x), v, s.db.next)
  {
    var svc, c, now := x.choice.service.value, x.choice.d1, x.now;
    var q := RequestOf(x.event.sender, svc, x.event.rest);
    var s1 := Apply(cfg, s, Enqueue(q), now);
    assert Step(cfg, s, x) == ApplyAll(cfg, s1, DispatchTrace(c), now) && DispatchOk(cfg, s1, svc, now, c) by {
      Unfold1(cfg, s, Enqueue(q), now);
      StepParts(cfg, s, x);
    }
    OnlyOneWaits(cfg, s, q, now, w);
    assert Sound(s1.db) by { ApplyKeepsSound(cfg, s, Enqueue(q), now); }
    DispatchSends(cfg, s1, svc, c, now, w, s.db.next);
    assert SentOne(s, Step(cfg, s, x), c.send.value.0, s.db.next);
  }

  /** A worker that calls for work with nothing in its hands, by READY, REPORT or HEARTBEAT, gets a waiting letter of
      its service at once, if there is one. */
  lemma WorkerServedAtOnce(cfg: Config, s: State, x: Label, w: Id, l: Id)
    requires Sound(s.db) && Busy(s.db) && Legal(cfg, s, x.event, x.now, x.choice)
    requires Joined(cfg, s, x) == Some(w) && !RearmsHolder(s, x)
    requires WaitingFor(s.db, l, Target(s, x.event, x.choice).value)
    ensures exists m :: WaitingFor(s.db, m, Target(s, x.event, x.choice).value) && SentOne(s, Step(cfg, s, x), w, m)
  {
    if x.event.Ready? {
      NewcomerServedAtOnce(cfg, s, x, w, l);
    } else {
      KnownServedAtOnce(cfg, s, x, l);
    }
  }

  lemma KnownServedAtOnce(cfg: Config, s: State, x: Label, l: Id)
    requires Sound(s.db) && Busy(s.db) && Legal(cfg, s, x.event, x.now, x.choice)
    requires (x.event.Report? || x.event.Heartbeat?) && x.choice.who.Some? && !RearmsHolder(s, x)
    requires WaitingFor(s.db, l, s.db.workers[x.choice.who.value].service)
    ensures exists m :: WaitingFor(s.db, m, s.db.workers[x.choice.who.value].service) &&
              SentOne(s, Step(cfg, s, x), x.choice.who.value, m)
  {
    var w, c, now := x.choice.who.value, x.choice.d1, x.now;
    var svc := s.db.workers[w].service;
    var s1 := ApplyAll(cfg, s, Prefix(s, x.event, x.choice), now);
    assert s1.db.workers[w].letter == 0 && ArmedFor(s1.db, w, svc) by {
      KnownPrefix(cfg, s, x.event, x.choice, now);
      KnownPrefixEffect(cfg, s, x.event, x.choice, now);
    }
    PrefixAlone(cfg, s, x, l);
    assert Sound(s1.db) by { TraceKeepsSound(cfg, s, Prefix(s, x.event, x.choice), now); }
    assert Step(cfg, s, x) == ApplyAll(cfg, s1, DispatchTrace(c), now) && DispatchOk(cfg, s1, svc, now, c) by {
      StepParts(cfg, s, x);
    }
    DispatchSends(cfg, s1, svc, c, now, w, l);
    assert SentOne(s, Step(cfg, s, x), w, c.send.value.1);
  }

  /** A new worker takes its letter in the first of the two dispatches, and the second finds nobody to serve. */
  lemma NewcomerServedAtOnce(cfg: Config, s: State, x: Label, w: Id, l: Id)
    requires Sound(s.db) && Busy(s.db) && Legal(cfg, s, x.event, x.now, x.choice)
    requires x.event.Ready? && Joined(cfg, s, x) == Some(w) && !RearmsHolder(s, x)
    requires WaitingFor(s.db, l, ServiceOf(s, x.choice))
    ensures exists m :: WaitingFor(s.db, m, ServiceOf(s, x.choice)) && SentOne(s, Step(cfg, s, x), w, m)
  {
    var svc, c, now := ServiceOf(s, x.choice), x.choice, x.now;
    var s1 := ApplyAll(cfg, s, Prefix(s, x.event, c), now);
    var s2 := ApplyAll(cfg, s1, DispatchTrace(c.d1), now);
    assert DispatchOk(cfg, s1, svc, now, c.d1) && DispatchOk(cfg, s2, svc, now, c.d2);
    NewcomerArmed(cfg, s, x, w);
    assert Sound(s1.db) by { TraceKeepsSound(cfg, s, Prefix(s, x.event, c), now); }
    assert WaitingFor(s1.db, l, svc);
    DispatchSends(cfg, s1, svc, c.d1, now, w, l);
    var m := c.d1.send.value.1;
    SecondRound(cfg, s1, s2, svc, c.d1, c.d2, now, w);
    assert Step(cfg, s, x) == ApplyAll(cfg, s2, DispatchTrace(c.d2), now) by { StepParts(cfg, s, x); }
    assert SentOne(s, Step(cfg, s, x), w, m);
  }

  /** READY leaves the new worker armed and free, alone where letters wait. */
  lemma {:induction false} NewcomerArmed(cfg: Config, s: State, x: Label, w: Id)
    requires Busy(s.db) && Legal(cfg, s, x.event, x.now, x.choice)
    requires x.event.Ready? && Joined(cfg, s, x) == Some(w) && !RearmsHolder(s, x)
    ensures var s1, svc := ApplyAll(cfg, s, Prefix(s, x.event, x.choice), x.now), ServiceOf(s, x.choice);
            && ArmedFor(s1.db, w, svc) && s1.db.workers[w].expiry >= x.now && OneWorker(s1.db, svc, w)
            && (forall v :: ArmedFor(s1.db, v, svc) ==> s1.db.workers[v].letter == 0)
            && s1.db.letters == s.db.letters && s1.log.sent == s.log.sent
  {
    var e, c, now := x.event, x.choice, x.now;
    var s1 := ApplyAll(cfg, s, Prefix(s, e, c), now);
    var v := NewcomerPrefix(cfg, s, e, c, now);
    assert v == w;
    assert forall v :: ArmedFor(s1.db, v, ServiceOf(s, c)) ==> InState(s1.db, v, Armed);
    NewcomerSendsNothing(cfg, s, e, c, now);
  }

  lemma {:induction false} NewcomerSendsNothing(cfg: Config, s: State, e: Event, c: Choice, now: nat)
    requires e.Ready? && c.who.None? && Found(s.db, e, c) && !Aborts(s, e, c)
    ensures ApplyAll(cfg, s, Prefix(s, e, c), now).log.sent == s.log.sent
  {
    var s0 := ApplyAll(cfg, s, Opening(s, e.args, c), now);
    var u := Joining(e.sender, ServiceOf(s, c), c);
    ReadyPrefixEnabled(cfg, s, e, c, now);
    OpeningKeepsLog(cfg, s, e.args, c, now);
    if c.key.Some? {
      Unfold2(cfg, s0, u[0], u[1], now);
    } else {
      Unfold1(cfg, s0, u[0], now);
    }
  }

  /** Where `w` was the only one to serve, the next round only purges, and not `w`. */
  lemma {:induction false} SecondRound(cfg: Config, s1: State, s2: State, svc: Id, c1: Dispatching, c2: Dispatching,
                                      now: nat, w: Id)
    requires OneWorker(s1.db, svc, w) && DispatchOk(cfg, s1, svc, now, c1) && c1.send.Some?
    requires s2 == ApplyAll(cfg, s1, DispatchTrace(c1), now) && InState(s2.db, w, Occupied)
    requires DispatchOk(cfg, s2, svc, now, c2)
    ensures c1.send.value.0 == w
    ensures var s3 := ApplyAll(cfg, s2, DispatchTrace(c2), now);
            InState(s3.db, w, Occupied) && s3.db.letters == s2.db.letters && s3.log == s2.log
  {
    assert ArmedFor(s1.db, c1.send.value.0, svc) && WaitingFor(s1.db, c1.send.value.1, svc);
    DispatchEffect(cfg, s1, svc, now, c1);
    var d := DisarmTx(s2.db, c2.purged);
    assert forall v :: ArmedFor(d, v, svc) ==> v != w && ArmedFor(s1.db, v, svc);
    assert forall m :: WaitingFor(d, m, svc) ==> WaitingFor(s1.db, m, svc);
    assert c2.send.None?;
    NotPurged(cfg, s2.db, c2, now, w);
    Unfold1(cfg, s2, Disarm(c2.purged), now);
  }

  lemma {:induction false} PrefixSendsNothing(cfg: Config, s: State, e: Event, c: Choice, now: nat)
    requires Found(s.db, e, c) && !Aborts(s, e, c) && (e.Report? || e.Heartbeat?) && c.who.Some?
    requires AllEnabled(cfg, s, Prefix(s, e, c), now)
    ensures var w, s1 := c.who.value, ApplyAll(cfg, s, Prefix(s, e, c), now);
            && s1.db == ArmTx(cfg, if e.Report? then ReleaseTx(s.db, w) else s.db, w, s.db.workers[w].service, now)
            && s1.log.sent == s.log.sent
  {
    KnownPrefixUnfolds(cfg, s, e, c, now);
  }

  lemma {:induction false} PrefixAlone(cfg: Config, s: State, x: Label, l: Id)
    requires Sound(s.db) && Busy(s.db) && Legal(cfg, s, x.event, x.now, x.choice)
    requires (x.event.Report? || x.event.Heartbeat?) && x.choice.who.Some?
    requires WaitingFor(s.db, l, s.db.workers[x.choice.who.value].service)
    ensures var w, s1 := x.choice.who.value, ApplyAll(cfg, s, Prefix(s, x.event, x.choice), x.now);
            var svc := s.db.workers[w].service;
            && w in s1.db.workers && s1.db.workers[w].expiry >= x.now && s1.log.sent == s.log.sent
            && (forall v :: ArmedFor(s1.db, v, svc) ==> v == w)
            && (forall m :: WaitingFor(s1.db, m, svc) <==> WaitingFor(s.db, m, svc))
  {
    var w := x.choice.who.value;
    assert AllEnabled(cfg, s, Prefix(s, x.event, x.choice), x.now) by {
      PrefixEnabled(cfg, s, x.event, x.choice, x.now);
    }
    PrefixSendsNothing(cfg, s, x.event, x.choice, x.now);
    HeldAreAssigned(s.db, w);
    ArmedAlone(cfg, s.db, w, l, x.now, x.event.Report?);
  }

  /** Before the dispatch the caller is the only armed worker of its service, and the waiting letters are as before. */
  lemma ArmedAlone(cfg: Config, d: Db, w: Id, l: Id, now: nat, report: bool)
    requires NoneIdles(d) && w in d.workers && WaitingFor(d, l, d.workers[w].service)
    requires forall m :: m in HeldBy(d, w) ==> d.letters[m].state == Assigned
    ensures var svc := d.workers[w].service;
            var d' := ArmTx(cfg, if report then ReleaseTx(d, w) else d, w, svc, now);
            && d'.workers[w].expiry >= now
            && (forall v :: ArmedFor(d', v, svc) ==> v == w)
            && (forall m :: WaitingFor(d', m, svc) <==> WaitingFor(d, m, svc))
  {
    var svc := d.workers[w].service;
    var d' := ArmTx(cfg, if report then ReleaseTx(d, w) else d, w, svc, now);
    forall v | ArmedFor(d', v, svc) ensures v == w
    {
      assert v != w ==> InState(d, v, Armed);
    }
  }

  lemma HeldAreAssigned(d: Db, w: Id)
    requires Sound(d) && w in d.workers
    ensures forall m :: m in HeldBy(d, w) ==> d.letters[m].state == Assigned
  {
    forall m | m in HeldBy(d, w) ensures d.letters[m].state == Assigned
    {
      assert LetterOk(d, m);
    }
  }
}
