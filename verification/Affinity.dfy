/** A letter and the worker that holds it belong to one service: exactly when a step can break this. */
module Affinity {
  import opened Bytes
  import opened Protocol
  import opened Schema
  import opened System
  import opened Invariants
  import opened Runs

  ghost predicate Affine(d: Db)
  {
    forall l :: l in d.letters && d.letters[l].state == Assigned && d.letters[l].worker in d.workers ==>
      d.letters[l].service == d.workers[d.letters[l].worker].service
  }

  /** Workers stay, and stay with the service they were created for. */
  ghost predicate SameHomes(d: Db, d': Db)
  {
    forall w :: w in d.workers ==> w in d'.workers && d'.workers[w].service == d.workers[w].service
  }

  /** The textual identity of a worker fits its buffer. Identities that the socket generates are 11 octets long. */
  predicate Fits(e: Event)
  {
    e.Ready? ==> |CStr(e.sender)| <= IDENTITY_MAXLEN
  }

  /** READY from an unknown identity whose first 11 octets name a known worker moves that worker to
      another service, although it still holds a letter of its own. */
  predicate Steals(s: State, x: Label)
    requires !Aborts(s, x.event, x.choice) && Found(s.db, x.event, x.choice)
  {
    && x.event.Ready? && x.choice.who.None? && x.choice.key.Some?
    && s.db.workers[x.choice.key.value].letter != 0
    && Target(s, x.event, x.choice) != Some(s.db.workers[x.choice.key.value].service)
  }

  // ---------------------------------------------------------------- one transaction

  predicate Moves(a: Action) { a.Arm? || a.Release? }

  lemma AssignAffine(cfg: Config, s: State, w: Id, l: Id, now: nat)
    requires Sound(s.db) && Enabled(s, Assign(w, l))
    ensures Affine(s.db) <==> Affine(Apply(cfg, s, Assign(w, l), now).db)
    ensures SameHomes(s.db, Apply(cfg, s, Assign(w, l), now).db)
  {
    var d, d' := s.db, Apply(cfg, s, Assign(w, l), now).db;
    assert LetterOk(d, l);
    if d' != d && Affine(d') {
      forall m | m in d.letters && d.letters[m].state == Assigned && d.letters[m].worker in d.workers
        ensures d.letters[m].service == d.workers[d.letters[m].worker].service
      {
        assert d'.letters[m] == d.letters[m];
      }
    }
  }

  lemma LettersKnowTheirWorkers(d: Db)
    requires Sound(d)
    ensures forall l :: l in d.letters && d.letters[l].state == Assigned ==> d.letters[l].worker in d.workers
  {
    assert forall l :: l in d.letters ==> LetterOk(d, l);
  }

  lemma ApplyAffine(cfg: Config, s: State, a: Action, now: nat)
    requires Sound(s.db) && !Moves(a)
    ensures Affine(s.db) <==> Affine(Apply(cfg, s, a, now).db)
    ensures SameHomes(s.db, Apply(cfg, s, a, now).db)
  {
    if Enabled(s, a) {
      var d, d' := s.db, Apply(cfg, s, a, now).db;
      match a
      case Assign(w, l) => AssignAffine(cfg, s, w, l, now);
      case Enqueue(_) =>
        assert d'.workers == d.workers;
        assert forall l :: l in d.letters ==> l in d'.letters && d'.letters[l] == d.letters[l];
      case Hear(_) =>
      case Register(_) =>
      case SetEndpoint(_, _) =>
      case Create(_, _) => assert d'.letters == d.letters; LettersKnowTheirWorkers(d);
      case Disarm(_) => assert d'.letters == d.letters;
      case Arm(_, _) =>
      case Release(_) =>
    }
  }

  lemma ReleaseAffine(cfg: Config, s: State, w: Id, now: nat)
    requires Sound(s.db) && Enabled(s, Release(w))
    ensures Affine(s.db) ==> Affine(Apply(cfg, s, Release(w), now).db)
    ensures SameHomes(s.db, Apply(cfg, s, Release(w), now).db)
  {
  }

  /** Arming breaks the agreement exactly when it moves a worker that holds a letter. */
  lemma ArmAffine(cfg: Config, d: Db, w: Id, svc: Id, now: nat)
    requires Sound(d) && Affine(d) && w in d.workers
    ensures Affine(ArmTx(cfg, d, w, svc, now)) <==> d.workers[w].letter == 0 || svc == d.workers[w].service
    ensures svc == d.workers[w].service ==> SameHomes(d, ArmTx(cfg, d, w, svc, now))
  {
    var d' := ArmTx(cfg, d, w, svc, now);
    assert WorkerOk(d, w);
    forall l | l in d.letters && d.letters[l].worker == w && d.letters[l].state == Assigned
      ensures d.workers[w].letter == l
    {
      assert LetterOk(d, l);
    }
    if d.workers[w].letter != 0 {
      var l := d.workers[w].letter;
      assert d'.letters[l].service == d.workers[w].service;
    }
  }

  // ---------------------------------------------------------------- traces

  lemma {:induction false} TraceAffine(cfg: Config, s: State, t: seq<Action>, now: nat)
    requires Sound(s.db) && forall a :: a in t ==> !Moves(a)
    ensures Affine(s.db) <==> Affine(ApplyAll(cfg, s, t, now).db)
    ensures SameHomes(s.db, ApplyAll(cfg, s, t, now).db)
    ensures Sound(ApplyAll(cfg, s, t, now).db)
    decreases |t|
  {
    if t != [] {
      ApplyAffine(cfg, s, t[0], now);
      ApplyKeepsSound(cfg, s, t[0], now);
      TraceAffine(cfg, Apply(cfg, s, t[0], now), t[1..], now);
    }
  }

  /** Everything after the prefix only disarms and assigns. */
  lemma {:induction false} AfterPrefix(cfg: Config, s: State, x: Label)
    requires Sound(s.db) && Legal(cfg, s, x.event, x.now, x.choice)
    ensures var s1 := ApplyAll(cfg, s, Prefix(s, x.event, x.choice), x.now);
            && (Affine(s1.db) <==> Affine(Step(cfg, s, x).db))
            && SameHomes(s1.db, Step(cfg, s, x).db)
            && Sound(s1.db)
  {
    var s1 := ApplyAll(cfg, s, Prefix(s, x.event, x.choice), x.now);
    StepParts(cfg, s, x);
    TraceKeepsSound(cfg, s, Prefix(s, x.event, x.choice), x.now);
    TraceAffine(cfg, s1, [Disarm(x.choice.d1.purged)], x.now);
    TraceAffine(cfg, s1, DispatchTrace(x.choice.d1), x.now);
    TraceAffine(cfg, ApplyAll(cfg, s1, DispatchTrace(x.choice.d1), x.now), DispatchTrace(x.choice.d2), x.now);
  }

  /** A READY that collides with a known row arms that row for the service it names, and no more. */
  lemma {:induction false} CollidingReady(cfg: Config, s: State, e: Event, c: Choice, now: nat)
    requires Sound(s.db) && e.Ready? && Found(s.db, e, c) && !Aborts(s, e, c) && c.who.None? && c.key.Some?
    ensures var s1 := ApplyAll(cfg, s, Opening(s, e.args, c), now);
            && Sound(s1.db) && s1.db.workers == s.db.workers && (Affine(s.db) <==> Affine(s1.db))
            && ApplyAll(cfg, s, Prefix(s, e, c), now).db == ArmTx(cfg, s1.db, c.key.value, ServiceOf(s, c), now)
  {
    var w, t := c.key.value, Opening(s, e.args, c);
    var s1 := ApplyAll(cfg, s, t, now);
    ReadyPrefixEnabled(cfg, s, e, c, now);
    OpeningEnabled(cfg, s, e.args, c, now);
    Unfold2(cfg, s1, Hear(w), Arm(w, ServiceOf(s, c)), now);
    TraceAffine(cfg, s, t, now);
  }

  lemma {:induction false} ReadyPrefixAffine(cfg: Config, s: State, e: Event, c: Choice, now: nat)
    requires Sound(s.db) && Affine(s.db) && e.Ready? && Found(s.db, e, c) && !Aborts(s, e, c) && c.who.None?
    ensures var d := ApplyAll(cfg, s, Prefix(s, e, c), now).db;
            && (Affine(d) <==> !Steals(s, Label(e, now, c)))
            && (c.key.None? ==> SameHomes(s.db, d))
  {
    if c.key.None? {
      TraceAffine(cfg, s, Prefix(s, e, c), now);
    } else {
      CollidingReady(cfg, s, e, c, now);
      var s1 := ApplyAll(cfg, s, Opening(s, e.args, c), now);
      ArmAffine(cfg, s1.db, c.key.value, ServiceOf(s, c), now);
    }
  }

  lemma {:induction false} KnownPrefixAffine(cfg: Config, s: State, e: Event, c: Choice, now: nat)
    requires Sound(s.db) && Affine(s.db) && Found(s.db, e, c) && !Aborts(s, e, c) && (e.Ready? ==> c.who.Some?)
    ensures Affine(ApplyAll(cfg, s, Prefix(s, e, c), now).db)
    ensures SameHomes(s.db, ApplyAll(cfg, s, Prefix(s, e, c), now).db)
  {
    if (e.Report? || e.Heartbeat?) && c.who.Some? {
      var w := c.who.value;
      KnownPrefixEffect(cfg, s, e, c, now);
      if e.Report? {
        ReleaseAffine(cfg, s, w, now);
        ReleaseKeeps(s.db, w);
        ArmAffine(cfg, ReleaseTx(s.db, w), w, s.db.workers[w].service, now);
      } else {
        ArmAffine(cfg, s.db, w, s.db.workers[w].service, now);
      }
    } else {
      TraceAffine(cfg, s, Prefix(s, e, c), now);
    }
  }

  // ---------------------------------------------------------------- steps and runs

  /** A step breaks the agreement exactly when it steals a busy worker; otherwise no worker changes service,
      except that a READY under a too long identity may move an idle one. */
  lemma StepAffineExactly(cfg: Config, s: State, x: Label)
    requires Sound(s.db) && Affine(s.db) && Legal(cfg, s, x.event, x.now, x.choice)
    ensures Affine(Step(cfg, s, x).db) <==> !Steals(s, x)
    ensures Fits(x.event) ==> !Steals(s, x) && SameHomes(s.db, Step(cfg, s, x).db)
  {
    AfterPrefix(cfg, s, x);
    if x.event.Ready? && x.choice.who.None? {
      ReadyPrefixAffine(cfg, s, x.event, x.choice, x.now);
    } else {
      KnownPrefixAffine(cfg, s, x.event, x.choice, x.now);
    }
  }

  ghost predicate AllFit(run: seq<Label>)
  {
    forall i :: 0 <= i < |run| ==> Fits(run[i].event)
  }

  /** Over any run whose identities fit, a worker never changes service and letters stay with their own. */
  lemma {:induction false} RunAffine(cfg: Config, s: State, run: seq<Label>)
    requires IsRun(cfg, s, run) && Sound(s.db) && Affine(s.db) && AllFit(run)
    ensures Affine(After(cfg, s, run).db) && Sound(After(cfg, s, run).db) && SameHomes(s.db, After(cfg, s, run).db)
    decreases |run|
  {
    if run != [] {
      StepAffineExactly(cfg, s, run[0]);
      TraceKeepsSound(cfg, s, Trace(s, run[0].event, run[0].choice), run[0].now);
      RunAffine(cfg, Step(cfg, s, run[0]), run[1..]);
    }
  }

  ghost predicate AlwaysAffine(cfg: Config, s: State, run: seq<Label>)
    requires IsRun(cfg, s, run)
    decreases |run|
  {
    Affine(s.db) && (run == [] || AlwaysAffine(cfg, Step(cfg, s, run[0]), run[1..]))
  }

  ghost predicate NeverSteals(cfg: Config, s: State, run: seq<Label>)
    requires IsRun(cfg, s, run)
    decreases |run|
  {
    run == [] || (!Steals(s, run[0]) && NeverSteals(cfg, Step(cfg, s, run[0]), run[1..]))
  }

  /** Every run at all: letters and workers agree throughout exactly when no step steals a busy worker. */
  lemma {:induction false} RunAffineExactly(cfg: Config, s: State, run: seq<Label>)
    requires IsRun(cfg, s, run) && Sound(s.db) && Affine(s.db)
    ensures AlwaysAffine(cfg, s, run) <==> NeverSteals(cfg, s, run)
    decreases |run|
  {
    if run != [] {
      var s' := Step(cfg, s, run[0]);
      StepAffineExactly(cfg, s, run[0]);
      if Affine(s'.db) {
        TraceKeepsSound(cfg, s, Trace(s, run[0].event, run[0].choice), run[0].now);
        RunAffineExactly(cfg, s', run[1..]);
      }
    }
  }

  // ---------------------------------------------------------------- aborts

  /** Messages the broker does not survive, told from the message and the identity table alone. */
  ghost predicate CallerError(d: Db, e: Event)
  {
    match e
    case Client(sender, service, rest) => BadRequest(sender, service, rest)
    case Ready(sender, args) =>
      IsWorker(d, CStr(sender), None) && (IsInternal(sender) || |args| < 2 || args[0] == [])
    case Report(sender, payload) => !IsWorker(d, CStr(sender), None) && |payload| == 0
    case Disconnect(sender) => IsWorker(d, CStr(sender), None)
    case _ => false
  }

  lemma AbortsInState(s: State, e: Event, c: Choice)
    requires Sound(s.db) && Affine(s.db) && Found(s.db, e, c)
    ensures Aborts(s, e, c) <==> CallerError(s.db, e)
  {
    if e.Report? && c.who.Some? {
      var w := c.who.value;
      assert WorkerOk(s.db, w);
      forall l | l in HeldBy(s.db, w) ensures s.db.letters[l].service == s.db.workers[w].service
      {
        assert LetterOk(s.db, l);
      }
    }
  }

  /** From any sound state in which letters and workers agree, after any run with fitting identities, the asserts on
      services and letters never fail: the broker aborts on malformed or unsolicited messages and on nothing else. */
  lemma {:induction false} AbortsExactly(cfg: Config, s: State, run: seq<Label>, e: Event, c: Choice)
    requires Sound(s.db) && Affine(s.db) && IsRun(cfg, s, run) && AllFit(run) && Found(After(cfg, s, run).db, e, c)
    ensures Aborts(After(cfg, s, run), e, c) <==> CallerError(After(cfg, s, run).db, e)
  {
    RunAffine(cfg, s, run);
    AbortsInState(After(cfg, s, run), e, c);
  }

  lemma StolenWorkerMoved(cfg: Config, s: State, x: Label)
    requires Sound(s.db) && Legal(cfg, s, x.event, x.now, x.choice) && Steals(s, x)
    ensures var w, d := x.choice.key.value, Step(cfg, s, x).db;
            && w in d.workers && d.workers[w].identity == s.db.workers[w].identity
            && d.workers[w].service != s.db.workers[w].service
            && s.db.workers[w].letter in s.db.letters && s.db.workers[w].letter in HeldBy(d, w)
            && d.letters[s.db.workers[w].letter].service == s.db.letters[s.db.workers[w].letter].service
  {
    StolenHome(cfg, s, x);
    ReadyKeepsAssigned(cfg, s, x);
    StillHeld(s.db, Step(cfg, s, x).db, x.choice.key.value);
  }

  lemma StolenHome(cfg: Config, s: State, x: Label)
    requires Sound(s.db) && Legal(cfg, s, x.event, x.now, x.choice)
    requires x.event.Ready? && x.choice.who.None? && x.choice.key.Some?
    ensures var w, d := x.choice.key.value, Step(cfg, s, x).db;
            w in d.workers && d.workers[w].service == ServiceOf(s, x.choice)
  {
    CollidingReady(cfg, s, x.event, x.choice, x.now);
    AfterPrefix(cfg, s, x);
  }

  lemma ReadyKeepsAssigned(cfg: Config, s: State, x: Label)
    requires Sound(s.db) && Legal(cfg, s, x.event, x.now, x.choice) && x.event.Ready?
    ensures KeepsAssigned(s.db, Step(cfg, s, x).db)
  {
    NoReleaseElsewhere(s, x.event, x.choice);
    TraceKeepsAssigned(cfg, s, Trace(s, x.event, x.choice), x.now);
  }

  lemma StillHeld(d: Db, d': Db, w: Id)
    requires Sound(d) && w in d.workers && d.workers[w].letter != 0 && KeepsAssigned(d, d')
    ensures w in d'.workers && d'.workers[w].identity == d.workers[w].identity
    ensures d.workers[w].letter in d.letters && d.workers[w].letter in HeldBy(d', w)
    ensures d'.letters[d.workers[w].letter].service == d.letters[d.workers[w].letter].service
  {
    assert WorkerOk(d, w);
  }

  /** And a stolen worker does end the broker: its next report fails the assert on the service. */
  lemma StolenWorkerAborts(cfg: Config, s: State, x: Label, payload: seq<Frame>, c: Choice)
    requires Sound(s.db) && Affine(s.db) && Legal(cfg, s, x.event, x.now, x.choice) && Steals(s, x)
    requires c.who == x.choice.key
    ensures var report := Report(s.db.workers[x.choice.key.value].identity, payload);
            Found(Step(cfg, s, x).db, report, c) && Aborts(Step(cfg, s, x), report, c)
  {
    var w := x.choice.key.value;
    assert WorkerOk(s.db, w);
    StolenWorkerMoved(cfg, s, x);
    CStrExact(s.db.workers[w].identity);
  }

  /** Without a release no letter leaves the table, an assigned one stays as it is, and identities stay. */
  ghost predicate KeepsAssigned(d: Db, d': Db)
  {
    && d.letters.Keys <= d'.letters.Keys
    && (forall l :: l in d.letters && d.letters[l].state == Assigned ==>
          d'.letters[l].(expiry := 0) == d.letters[l].(expiry := 0))
    && (forall w :: w in d.workers ==> w in d'.workers && d'.workers[w].identity == d.workers[w].identity)
  }

  lemma ApplyKeepsAssigned(cfg: Config, s: State, a: Action, now: nat)
    requires Numbered(s.db) && !a.Release?
    ensures KeepsAssigned(s.db, Apply(cfg, s, a, now).db)
  {
  }

  lemma {:induction false} TraceKeepsAssigned(cfg: Config, s: State, t: seq<Action>, now: nat)
    requires Sound(s.db) && forall a :: a in t ==> !a.Release?
    ensures KeepsAssigned(s.db, ApplyAll(cfg, s, t, now).db)
    decreases |t|
  {
    if t != [] {
      ApplyKeepsSound(cfg, s, t[0], now);
      ApplyKeepsAssigned(cfg, s, t[0], now);
      TraceKeepsAssigned(cfg, Apply(cfg, s, t[0], now), t[1..], now);
    }
  }

  lemma NoReleaseElsewhere(s: State, e: Event, c: Choice)
    requires !Aborts(s, e, c) && Found(s.db, e, c) && (e.Report? ==> c.who.None?)
    ensures forall a :: a in Trace(s, e, c) ==> !a.Release?
  {
    assert forall a :: a in DispatchTrace(c.d1) ==> !a.Release?;
    assert forall a :: a in DispatchTrace(c.d2) ==> !a.Release?;
    assert forall a :: a in Prefix(s, e, c) ==> !a.Release?;
  }

  /** A letter leaves the table only on a REPORT from the worker it was assigned to, and is recorded as
      released by that worker. */
  lemma LeavesOnlyOnReport(cfg: Config, s: State, x: Label, l: Id)
    requires Sound(s.db) && Legal(cfg, s, x.event, x.now, x.choice)
    requires l in s.db.letters && l !in Step(cfg, s, x).db.letters
    ensures x.event.Report? && x.choice.who.Some?
    ensures s.db.letters[l].state == Assigned && s.db.letters[l].worker == x.choice.who.value
    ensures s.db.workers[x.choice.who.value].identity == CStr(x.event.sender)
    ensures l in Step(cfg, s, x).log.released && Step(cfg, s, x).log.released[l] == x.choice.who.value
  {
    if !x.event.Report? || x.choice.who.None? {
      NoReleaseElsewhere(s, x.event, x.choice);
      TraceKeepsAssigned(cfg, s, Trace(s, x.event, x.choice), x.now);
      assert false;
    }
    ReportRemovesHeld(cfg, s, x);
    assert l in HeldBy(s.db, x.choice.who.value);
    assert LetterOk(s.db, l);
  }

  lemma ReportRemovesHeld(cfg: Config, s: State, x: Label)
    requires Sound(s.db) && Legal(cfg, s, x.event, x.now, x.choice) && x.event.Report? && x.choice.who.Some?
    ensures s.db.letters.Keys - HeldBy(s.db, x.choice.who.value) == Step(cfg, s, x).db.letters.Keys
    ensures forall l :: l in HeldBy(s.db, x.choice.who.value) ==>
              l in Step(cfg, s, x).log.released && Step(cfg, s, x).log.released[l] == x.choice.who.value
  {
    var s1 := ApplyAll(cfg, s, Prefix(s, x.event, x.choice), x.now);
    PrefixEnabled(cfg, s, x.event, x.choice, x.now);
    ReportPrefixRemoves(cfg, s, x.event, x.choice, x.now);
    StepParts(cfg, s, x);
    DispatchKeepsLetters(cfg, s1, x.choice.d1, x.now);
  }

  lemma {:induction false} ReportPrefixRemoves(cfg: Config, s: State, e: Event, c: Choice, now: nat)
    requires Found(s.db, e, c) && !Aborts(s, e, c) && e.Report? && c.who.Some?
    requires AllEnabled(cfg, s, Prefix(s, e, c), now)
    ensures var s1 := ApplyAll(cfg, s, Prefix(s, e, c), now);
            && s1.db.letters.Keys == s.db.letters.Keys - HeldBy(s.db, c.who.value)
            && forall l :: l in HeldBy(s.db, c.who.value) ==> l in s1.log.released && s1.log.released[l] == c.who.value
  {
    KnownPrefixUnfolds(cfg, s, e, c, now);
  }

  lemma {:induction false} DispatchKeepsLetters(cfg: Config, s: State, c: Dispatching, now: nat)
    ensures var s' := ApplyAll(cfg, s, DispatchTrace(c), now);
            s'.db.letters.Keys == s.db.letters.Keys && s'.log.released == s.log.released
  {
    if c.send.Some? {
      Unfold2(cfg, s, Disarm(c.purged), Assign(c.send.value.0, c.send.value.1), now);
    } else {
      Unfold1(cfg, s, Disarm(c.purged), now);
    }
  }
}
