/** Short runs of the empty broker that reach the cases the general theorems except. */
module Counterexamples {
  import opened Bytes
  import opened Protocol
  import opened Schema
  import opened System
  import opened Invariants
  import opened Runs
  import opened Affinity
  import opened Dispatch
  import opened Expiry
  import opened Broker
  import opened IdentityCodec
  import opened WorkerApi
  import opened Heartbeats

  /** Names that pass through C strings as they are; the greedy identity is the loyal one and more. */
  datatype Cast = Cast(
    loyal: Frame, greedy: Frame, client: Frame, first: Frame, second: Frame, where: Frame, header: Frame, body: Frame)

  predicate Proper(k: Cast)
  {
    && CStr(k.loyal) == k.loyal && |k.loyal| == IDENTITY_MAXLEN && Bounded(k.loyal, IDENTITY_MAXLEN) == k.loyal
    && CStr(k.greedy) == k.greedy && k.greedy != k.loyal && Bounded(k.greedy, IDENTITY_MAXLEN) == k.loyal
    && CStr(k.client) == k.client && Bounded(k.client, IDENTITY_MAXLEN) == k.client
    && CStr(k.first) == k.first != [] && CStr(k.second) == k.second != [] && k.first != k.second
    && CStr(k.where) == k.where
    && !IsInternal(k.loyal) && !IsInternal(k.greedy) && !IsInternal(k.first)
  }

  /** Letters will do. */
  lemma ProperExist() returns (k: Cast)
    ensures Proper(k)
  {
    var loyal := seq(IDENTITY_MAXLEN, _ => 65);
    k := Cast(loyal, loyal + [66], [67], [83], [84], [69], [72], [66]);
    forall f | f in {k.loyal, k.greedy, k.client, k.first, k.second, k.where} ensures CStr(f) == f && !IsInternal(f)
    {
      assert 0 !in f && 109 !in f;
      CStrExact(f);
      NotInternal(f);
    }
    assert k.greedy[..IDENTITY_MAXLEN] == k.loyal;
    assert k.first[0] != k.second[0] && |k.greedy| != |k.loyal|;
  }

  lemma NotInternal(name: Frame)
    requires 109 !in name
    ensures !IsInternal(name)
  {
    forall i | 0 <= i <= |name| ensures !OccursAt(name, MMI_PREFIX, i)
    {
      assert |name| >= i + 4 ==> name[i..i + 4][0] == name[i];
    }
  }

  // ---------------------------------------------------------------- READY of a first worker

  function ServiceS(k: Cast): ServiceRow { ServiceRow(k.first, k.where, Registered) }

  /** One service, one armed worker. */
  function Db1(cfg: Config, k: Cast): Db
  {
    Db(map[1 := ServiceS(k)], map[2 := WorkerRow(k.loyal, Armed, cfg.Grace(), 1, 0)], map[], 3)
  }

  /** The only service is listed and its armed worker looked at, but not expired. */
  function Calm(send: Option<(Id, Id)>): Dispatching { Dispatching({1}, map[1 := 2], {}, send) }

  function ReadyFirst(k: Cast): Label
  {
    Label(Ready(k.loyal, [k.first, k.where]), 0, Choice(None, None, None, Calm(None), Calm(None)))
  }

  lemma CalmPurge(cfg: Config, k: Cast, d: Db, send: Option<(Id, Id)>)
    requires cfg.maxServices > 0 && d.services == map[1 := ServiceS(k)] && d.workers.Keys == {2} && ArmedFor(d, 2, 1)
    requires SendOk(d, 1, send)
    ensures PurgeOk(cfg, d, 0, Calm(send)) && SendOk(DisarmTx(d, {}), 1, send) && DisarmTx(d, {}) == d
  {
    assert d.services.Keys == {1};
    assert |d.services| == |d.services.Keys| == 1;
    DisarmNothing(d);
  }

  /** A dispatch that purges nobody and sends nothing leaves the state as it is. */
  lemma {:induction false} NothingHappens(cfg: Config, s: State, c: Dispatching)
    requires c.purged == {} && c.send == None
    ensures ApplyAll(cfg, s, DispatchTrace(c), 0) == s
  {
    DisarmNothing(s.db);
    DispatchUnfolds(cfg, s, c, 0);
  }

  function Log1(): Log { INITIAL.log.(seen := map[2 := 0]) }

  lemma {:induction false} FirstOpening(cfg: Config, k: Cast)
    requires Proper(k)
    ensures ApplyAll(cfg, INITIAL, Opening(INITIAL, [k.first, k.where], ReadyFirst(k).choice), 0)
            == State(Db(map[1 := ServiceS(k)], map[], map[], 2), INITIAL.log)
  {
    OpeningEffect(cfg, INITIAL, [k.first, k.where], None, 0);
  }

  lemma {:induction false} FirstJoining(cfg: Config, k: Cast)
    requires Proper(k)
    ensures ApplyAll(cfg, State(Db(map[1 := ServiceS(k)], map[], map[], 2), INITIAL.log), Enlisted(k.loyal, 1, None), 0)
            == State(Db1(cfg, k), Log1())
  {
    Unfold1(cfg, State(Db(map[1 := ServiceS(k)], map[], map[], 2), INITIAL.log), Create(k.loyal, 1), 0);
  }

  lemma FirstReady(cfg: Config, k: Cast)
    requires Proper(k)
    requires cfg.maxServices > 0
    ensures Took(cfg, INITIAL, ReadyFirst(k), State(Db1(cfg, k), Log1()))
  {
    var s2 := State(Db1(cfg, k), Log1());
    FirstOpening(cfg, k);
    FirstJoining(cfg, k);
    assert DispatchOk(cfg, s2, 1, 0, Calm(None)) by { CalmPurge(cfg, k, s2.db, None); }
    NothingHappens(cfg, s2, Calm(None));
    JoinTook(cfg, INITIAL, k.loyal, [k.first, k.where], ReadyFirst(k).choice, 0);
  }

  // ---------------------------------------------------------------- requests

  function Busy2(cfg: Config, k: Cast): WorkerRow { WorkerRow(k.loyal, Occupied, cfg.letterExpiry, 1, 3) }

  function Letter3(cfg: Config, k: Cast): LetterRow
  {
    LetterRow(1, 2, Assigned, k.client, cfg.letterExpiry, k.header, k.body)
  }

  function Letter4(cfg: Config, k: Cast): LetterRow
  {
    LetterRow(1, 4, Unassigned, k.client, cfg.heartbeatMsec / 1000, k.header, k.body)
  }

  /** The worker has the first request. */
  function Db2(cfg: Config, k: Cast): Db
  {
    Db(map[1 := ServiceS(k)], map[2 := Busy2(cfg, k)], map[3 := Letter3(cfg, k)], 4)
  }

  /** And a second one waits. */
  function Db3(cfg: Config, k: Cast): Db
  {
    Db(map[1 := ServiceS(k)], map[2 := Busy2(cfg, k)], map[3 := Letter3(cfg, k), 4 := Letter4(cfg, k)], 5)
  }

  /** The worker armed again, with the first request still in its hands. */
  function Db4(cfg: Config, k: Cast): Db
  {
    Db3(cfg, k).(workers := map[2 := Busy2(cfg, k).(state := Armed, expiry := cfg.Grace())])
  }

  function Ask(k: Cast): Event { Client(k.client, k.first, [k.header, k.body]) }
  const QUIET := Dispatching({1}, map[], {}, None)
  function AskFirst(k: Cast): Label { Label(Ask(k), 0, Choice(None, None, Some(1), Calm(Some((2, 3))), IDLE)) }
  function AskNext(k: Cast): Label { Label(Ask(k), 0, Choice(None, None, Some(1), QUIET, IDLE)) }
  function Beat(k: Cast): Label { Label(Heartbeat(k.loyal), 0, Choice(Some(2), None, None, Calm(Some((2, 4))), IDLE)) }

  lemma AskEffect(cfg: Config, k: Cast, s: State)
    requires Proper(k) && s.db.services == map[1 := ServiceS(k)]
    ensures RequestOf(k.client, 1, [k.header, k.body]) == Request(k.client, 1, k.header, k.body)
    ensures Apply(cfg, s, Enqueue(Request(k.client, 1, k.header, k.body)), 0).db ==
            EnqueueTx(cfg, s.db, 1, k.client, k.header, k.body, 0)
  {
  }

  lemma AskFine(k: Cast, s: State, c: Choice)
    requires Proper(k) && s.db.services == map[1 := ServiceS(k)] && c.service == Some(1)
    ensures Found(s.db, Ask(k), c) && !Aborts(s, Ask(k), c)
  {
    assert !BadRequest(k.client, k.first, [k.header, k.body]) by {
      MmiIsInternal();
      assert OccursAt(MMI_FILTER, MMI_PREFIX, 0);
    }
  }

  lemma FirstAsk(cfg: Config, k: Cast, s: State) returns (s': State)
    requires Proper(k) && cfg.maxServices > 0 && s.db == Db1(cfg, k)
    ensures Took(cfg, s, AskFirst(k), s') && s'.db == Db2(cfg, k)
  {
    var q, c := Request(k.client, 1, k.header, k.body), Calm(Some((2, 3)));
    AskEffect(cfg, k, s);
    var s1 := Apply(cfg, s, Enqueue(q), 0);
    assert s1.db == Db1Asked(cfg, k) by { AskedAndGiven(cfg, k); }
    FirstPair(cfg, k, s1);
    FirstGiven(cfg, k, s1);
    s' := ApplyAll(cfg, s1, DispatchTrace(c), 0);
    AskFine(k, s, AskFirst(k).choice);
    RequestTook(cfg, s, k.client, k.first, [k.header, k.body], AskFirst(k).choice, 0);
  }

  /** The first request is stored and not yet given. */
  function Db1Asked(cfg: Config, k: Cast): Db
  {
    Db1(cfg, k).(letters := map[3 := LetterRow(1, 3, Unassigned, k.client, cfg.heartbeatMsec / 1000, k.header, k.body)],
                 next := 4)
  }

  lemma AskedAndGiven(cfg: Config, k: Cast)
    ensures EnqueueTx(cfg, Db1(cfg, k), 1, k.client, k.header, k.body, 0) == Db1Asked(cfg, k)
    ensures AssignTx(cfg, Db1Asked(cfg, k), 2, 3, 0) == Db2(cfg, k)
  {
    assert HeldBy(Db1Asked(cfg, k), 2) == {};
  }

  lemma FirstPair(cfg: Config, k: Cast, s: State)
    requires cfg.maxServices > 0 && s.db == Db1Asked(cfg, k)
    ensures DispatchOk(cfg, s, 1, 0, Calm(Some((2, 3))))
  {
    assert ArmedFor(s.db, 2, 1) && WaitingFor(s.db, 3, 1);
    CalmPurge(cfg, k, s.db, Some((2, 3)));
  }

  lemma {:induction false} FirstGiven(cfg: Config, k: Cast, s: State)
    requires s.db == Db1Asked(cfg, k)
    ensures ApplyAll(cfg, s, DispatchTrace(Calm(Some((2, 3)))), 0).db == Db2(cfg, k)
  {
    AskedAndGiven(cfg, k);
    DisarmNothing(s.db);
    DispatchUnfolds(cfg, s, Calm(Some((2, 3))), 0);
  }

  lemma NextAsk(cfg: Config, k: Cast, s: State) returns (s': State)
    requires Proper(k) && cfg.maxServices > 0 && s.db == Db2(cfg, k)
    ensures Took(cfg, s, AskNext(k), s') && s'.db == Db3(cfg, k)
  {
    var q := Request(k.client, 1, k.header, k.body);
    AskEffect(cfg, k, s);
    s' := Apply(cfg, s, Enqueue(q), 0);
    assert s'.db == Db3(cfg, k);
    NobodyArmed(cfg, k, s');
    NothingHappens(cfg, s', QUIET);
    AskFine(k, s, AskNext(k).choice);
    RequestTook(cfg, s, k.client, k.first, [k.header, k.body], AskNext(k).choice, 0);
  }

  lemma NobodyArmed(cfg: Config, k: Cast, s: State)
    requires cfg.maxServices > 0 && s.db == Db3(cfg, k)
    ensures DispatchOk(cfg, s, 1, 0, QUIET)
  {
    assert s.db.services.Keys == {1} && |s.db.services| == |s.db.services.Keys|;
    DisarmNothing(s.db);
  }

  lemma {:induction false} Rearmed(cfg: Config, k: Cast, s: State)
    requires Proper(k)
    requires s.db == Db3(cfg, k)
    ensures ApplyAll(cfg, s, Enlisted(k.loyal, 1, Some(2)), 0).db == Db4(cfg, k)
    ensures CStr(k.loyal) == k.loyal
  {
    JoinedEffect(cfg, s, k.loyal, 1, Some(2), 0);
  }

  lemma {:induction false} RolledBack(cfg: Config, k: Cast, s: State)
    requires Proper(k)
    requires s.db == Db4(cfg, k)
    ensures ApplyAll(cfg, s, DispatchTrace(Calm(Some((2, 4)))), 0).db == Db4(cfg, k)
  {
    DisarmNothing(s.db);
    assert 3 in HeldBy(s.db, 2) - {4};
    DispatchUnfolds(cfg, s, Calm(Some((2, 4))), 0);
  }

  lemma BeatOfTheBusy(cfg: Config, k: Cast, s: State) returns (s': State)
    requires Proper(k)
    requires cfg.maxServices > 0 && s.db == Db3(cfg, k)
    ensures Took(cfg, s, Beat(k), s') && s'.db == Db4(cfg, k)
  {
    var c := Calm(Some((2, 4)));
    Rearmed(cfg, k, s);
    var s1 := ApplyAll(cfg, s, Enlisted(k.loyal, 1, Some(2)), 0);
    RolledBack(cfg, k, s1);
    s' := ApplyAll(cfg, s1, DispatchTrace(c), 0);
    assert DispatchOk(cfg, s1, 1, 0, c) by {
      assert ArmedFor(s1.db, 2, 1) && WaitingFor(s1.db, 4, 1);
      CalmPurge(cfg, k, s1.db, c.send);
    }
    HeartbeatTook(cfg, s, k.loyal, 2, Some(2), c, 0);
  }

  // ---------------------------------------------------------------- the runs, step by step

  lemma Run1(cfg: Config, k: Cast) returns (run: seq<Label>)
    requires Proper(k) && cfg.maxServices > 0
    ensures run == [ReadyFirst(k)] && IsRun(cfg, INITIAL, run) && After(cfg, INITIAL, run) == State(Db1(cfg, k), Log1())
  {
    FirstReady(cfg, k);
    RunGrows(cfg, [], ReadyFirst(k), State(Db1(cfg, k), Log1()));
    run := [] + [ReadyFirst(k)];
  }

  lemma Run2(cfg: Config, k: Cast) returns (run: seq<Label>)
    requires Proper(k) && cfg.maxServices > 0
    ensures IsRun(cfg, INITIAL, run) && After(cfg, INITIAL, run).db == Db2(cfg, k)
    ensures run == [ReadyFirst(k)] + [AskFirst(k)]
  {
    run := Run1(cfg, k);
    var s' := FirstAsk(cfg, k, After(cfg, INITIAL, run));
    RunGrows(cfg, run, AskFirst(k), s');
    run := run + [AskFirst(k)];
  }

  lemma Run3(cfg: Config, k: Cast) returns (run: seq<Label>)
    requires Proper(k) && cfg.maxServices > 0
    ensures IsRun(cfg, INITIAL, run) && After(cfg, INITIAL, run).db == Db3(cfg, k)
    ensures run == [ReadyFirst(k)] + [AskFirst(k)] + [AskNext(k)]
  {
    run := Run2(cfg, k);
    var s' := NextAsk(cfg, k, After(cfg, INITIAL, run));
    RunGrows(cfg, run, AskNext(k), s');
    run := run + [AskNext(k)];
  }

  /** READY, two requests, and a HEARTBEAT of the busy worker: it stands armed beside the second request. */
  lemma IdlingRun(cfg: Config, k: Cast) returns (before: seq<Label>)
    requires Proper(k) && cfg.maxServices > 0
    ensures before == [ReadyFirst(k)] + [AskFirst(k)] + [AskNext(k)]
    ensures IsRun(cfg, INITIAL, before) && NoneIdles(After(cfg, INITIAL, before).db)
    ensures IsRun(cfg, INITIAL, before + [Beat(k)]) && !NoneIdles(After(cfg, INITIAL, before + [Beat(k)]).db)
  {
    before := Run3(cfg, k);
    var s' := BeatOfTheBusy(cfg, k, After(cfg, INITIAL, before));
    RunGrows(cfg, before, Beat(k), s');
    assert InState(s'.db, 2, Armed) && s'.db.letters[4].state == Unassigned;
  }

  // ---------------------------------------------------------------- identities that are too long

  const BOTH := Dispatching({1, 4}, map[4 := 2], {}, None)
  function ReadyGreedy(k: Cast): Label
  {
    Label(Ready(k.greedy, [k.second, k.where]), 0, Choice(None, Some(2), None, BOTH, BOTH))
  }

  /** Two services; the worker is armed for the second and holds a letter of the first. */
  function Db5(cfg: Config, k: Cast): Db
  {
    Db(map[1 := ServiceS(k), 4 := ServiceRow(k.second, k.where, Registered)],
       map[2 := Busy2(cfg, k).(state := Armed, service := 4, expiry := cfg.Grace())], map[3 := Letter3(cfg, k)], 5)
  }

  lemma {:induction false} GreedyOpening(cfg: Config, k: Cast, s: State)
    requires Proper(k) && s.db == Db2(cfg, k)
    ensures ApplyAll(cfg, s, Opening(s, [k.second, k.where], ReadyGreedy(k).choice), 0)
            == s.(db := Db2(cfg, k).(services := Db5(cfg, k).services, next := 5))
  {
    var args := [k.second, k.where];
    assert SetEndpointTx(AddServiceTx(cfg, s.db, k.second), 4, k.where)
           == Db2(cfg, k).(services := Db5(cfg, k).services, next := 5);
    assert IsService(s.db, k.second, None);
    OpeningEffect(cfg, s, args, None, 0);
  }

  lemma {:induction false} GreedyJoining(cfg: Config, k: Cast, s: State)
    requires Proper(k)
    requires s.db == Db2(cfg, k).(services := Db5(cfg, k).services, next := 5)
    ensures ApplyAll(cfg, s, Enlisted(k.loyal, 4, Some(2)), 0).db == Db5(cfg, k)
  {
    JoinedEffect(cfg, s, k.loyal, 4, Some(2), 0);
  }

  lemma BothPurge(cfg: Config, k: Cast, s: State)
    requires cfg.maxServices > 1 && s.db == Db5(cfg, k)
    ensures DispatchOk(cfg, s, 4, 0, BOTH)
  {
    assert s.db.services.Keys == {1, 4} && |s.db.services| == |s.db.services.Keys|;
    assert ArmedFor(s.db, 2, 4);
    DisarmNothing(s.db);
  }

  lemma GreedyLookups(cfg: Config, k: Cast)
    requires Proper(k)
    ensures IsWorker(Db2(cfg, k), k.greedy, None) && IsWorker(Db2(cfg, k), k.loyal, Some(2))
    ensures IsService(Db2(cfg, k), k.second, None)
  {
  }

  lemma GreedyReady(cfg: Config, k: Cast, s: State) returns (s': State)
    requires Proper(k)
    requires cfg.maxServices > 1 && s.db == Db2(cfg, k)
    ensures Took(cfg, s, ReadyGreedy(k), s') && s'.db == Db5(cfg, k)
  {
    GreedyOpening(cfg, k, s);
    var s1 := s.(db := Db2(cfg, k).(services := Db5(cfg, k).services, next := 5));
    GreedyJoining(cfg, k, s1);
    s' := ApplyAll(cfg, s1, Enlisted(k.loyal, 4, Some(2)), 0);
    BothPurge(cfg, k, s');
    NothingHappens(cfg, s', BOTH);
    GreedyLookups(cfg, k);
    JoinTook(cfg, s, k.greedy, [k.second, k.where], ReadyGreedy(k).choice, 0);
  }

  /** READY under 11 octets, a request, READY under more that begin with them: the busy worker changes service, and
      its next report ends the broker. */
  lemma StealingRun(cfg: Config, k: Cast, payload: seq<Frame>, c: Choice) returns (run: seq<Label>)
    requires Proper(k) && cfg.maxServices > 1 && c.who == Some(2)
    ensures run == [ReadyFirst(k)] + [AskFirst(k)] && IsRun(cfg, INITIAL, run) && Affine(After(cfg, INITIAL, run).db)
    ensures IsRun(cfg, INITIAL, run + [ReadyGreedy(k)])
    ensures var s := After(cfg, INITIAL, run + [ReadyGreedy(k)]);
            !Affine(s.db) && Found(s.db, Report(k.loyal, payload), c) && Aborts(s, Report(k.loyal, payload), c)
  {
    run := Run2(cfg, k);
    var s' := GreedyReady(cfg, k, After(cfg, INITIAL, run));
    RunGrows(cfg, run, ReadyGreedy(k), s');
    StolenReport(cfg, k, s', payload, c);
  }

  lemma StolenReport(cfg: Config, k: Cast, s: State, payload: seq<Frame>, c: Choice)
    requires Proper(k)
    requires s.db == Db5(cfg, k) && c.who == Some(2)
    ensures !Affine(s.db) && Found(s.db, Report(k.loyal, payload), c) && Aborts(s, Report(k.loyal, payload), c)
    ensures Affine(Db2(cfg, k))
  {
    assert s.db.letters[3].state == Assigned && s.db.letters[3].worker == 2;
    assert 3 in HeldBy(s.db, 2);
  }

  // ---------------------------------------------------------------- the expiry window

  /** Whenever the heartbeat period is no whole number of seconds there is a phase of the clock in which an idle
      worker is disarmed: everything is as Heartbeats.IdleWorkerStays asks, but for that. */
  lemma IdleWorkerDisarmed(cfg: Config, k: Cast, setup: Setup)
    returns (p: Pace, polls: seq<Poll>, before: seq<Label>, s: State, run: seq<Label>, ms: seq<nat>)
    requires Proper(k) && cfg.maxServices > 0
    requires setup.heartbeatMsec == cfg.heartbeatMsec && cfg.heartbeatMsec % 1000 != 0 && setup.fullLiveness >= 3
    ensures JustSent(setup, p) && Idle(polls, 0)
    ensures IsRun(cfg, INITIAL, before) && s == After(cfg, INITIAL, before) && OnDuty(cfg, s, k.loyal, 2, p.clock)
    ensures IsRun(cfg, s, run) && InStep(cfg, s, run, ms, k.loyal, 2, Rounds(setup, p, polls).sent, |p.sent| - 1)
    ensures !InService(After(cfg, s, run), 2)
  {
    var sent: seq<Sent>;
    p, polls, sent := LateWorker(setup);
    before, s, run, ms := LateBroker(cfg, k, sent, |p.sent| - 1);
  }

  /** What the broker does meanwhile. */
  lemma LateBroker(cfg: Config, k: Cast, sent: seq<Sent>, j: nat)
    returns (before: seq<Label>, s: State, run: seq<Label>, ms: seq<nat>)
    requires Proper(k) && cfg.maxServices > 0 && j + 1 < |sent| && sent[j].at == 999
    requires 1000 * (cfg.Grace() + 1) <= sent[j + 1].at
    ensures IsRun(cfg, INITIAL, before) && s == After(cfg, INITIAL, before) && OnDuty(cfg, s, k.loyal, 2, 999)
    ensures IsRun(cfg, s, run) && InStep(cfg, s, run, ms, k.loyal, 2, sent, j) && !InService(After(cfg, s, run), 2)
  {
    before, s := OnDutyRun(cfg, k);
    run, ms := LateRun(cfg, k, s, sent, j);
  }

  lemma LateRun(cfg: Config, k: Cast, s: State, sent: seq<Sent>, j: nat) returns (run: seq<Label>, ms: seq<nat>)
    requires cfg.maxServices > 0 && s.db == Db1(cfg, k) && j + 1 < |sent| && sent[j].at == 999
    requires 1000 * (cfg.Grace() + 1) <= sent[j + 1].at
    ensures IsRun(cfg, s, run) && InStep(cfg, s, run, ms, k.loyal, 2, sent, j) && !InService(After(cfg, s, run), 2)
  {
    var x, s' := LateTick(cfg, k, s);
    run, ms := [x], [1000 * x.now];
    TickInStep(cfg, s, x, s', 1000 * x.now, k.loyal, 2, sent, j);
  }

  /** It speaks in the last millisecond of a second, and then two whole periods later. */
  lemma LateWorker(setup: Setup) returns (p: Pace, polls: seq<Poll>, sent: seq<Sent>)
    requires setup.heartbeatMsec % 1000 != 0 && setup.fullLiveness >= 3
    ensures JustSent(setup, p) && Idle(polls, 0) && p.clock == 999 && sent == Rounds(setup, p, polls).sent
    ensures |p.sent| < |sent| && sent[|p.sent| - 1].at == 999
    ensures 1000 * (setup.heartbeatMsec / 1000 * 2 + 1) <= sent[|p.sent|].at
  {
    p := Pace(999, 999 + setup.heartbeatMsec, setup.fullLiveness, [Sent(999, ReadyWire(setup))]);
    polls := [Timeout(0), Timeout(0)];
    LateBeat(setup, p, polls);
    sent := Rounds(setup, p, polls).sent;
  }

  lemma {:induction false} TickInStep(cfg: Config, s: State, x: Label, s': State, ms: nat, id: Frame, w: Id,
                                      sent: seq<Sent>, j: nat)
    requires Took(cfg, s, x, s') && x.event == Timer && x.now == Seconds(ms)
    requires j + 1 < |sent| && sent[j].at <= ms <= sent[j + 1].at
    ensures IsRun(cfg, s, [x]) && After(cfg, s, [x]) == s' && InStep(cfg, s, [x], [ms], id, w, sent, j)
  {
    assert [x][1..] == [] && [ms][1..] == [];
  }

  lemma OnDutyRun(cfg: Config, k: Cast) returns (run: seq<Label>, s: State)
    requires Proper(k) && cfg.maxServices > 0
    ensures IsRun(cfg, INITIAL, run) && s == After(cfg, INITIAL, run) && s.db == Db1(cfg, k)
    ensures OnDuty(cfg, s, k.loyal, 2, 999)
  {
    run := Run1(cfg, k);
    s := State(Db1(cfg, k), Log1());
    FirstOnDuty(cfg, k, s);
  }

  lemma FirstOnDuty(cfg: Config, k: Cast, s: State)
    requires Proper(k) && s == State(Db1(cfg, k), Log1())
    ensures OnDuty(cfg, s, k.loyal, 2, 999)
  {
    assert ToText(k.loyal) == k.loyal;
    assert Sound(s.db) by {
      FirstNamed(k);
      assert WorkerOk(s.db, 2);
    }
  }

  lemma FirstNamed(k: Cast)
    requires Proper(k)
    ensures 0 !in k.first && 0 !in k.loyal
  {
    CStrExact(k.first);
    CStrExact(k.loyal);
  }

  lemma LateTick(cfg: Config, k: Cast, s: State) returns (x: Label, s': State)
    requires cfg.maxServices > 0 && s.db == Db1(cfg, k)
    ensures x.event == Timer && x.now == cfg.Grace() + 1 && x.choice.who == None
    ensures Took(cfg, s, x, s') && InState(s'.db, 2, Disarmed)
  {
    var d := Dispatching({1}, map[1 := 2], {2}, None);
    x := Label(Timer, cfg.Grace() + 1, Choice(None, None, None, d, IDLE));
    LatePurge(cfg, k, s, d, x.now);
    TimerTook(cfg, s, d, x.now);
    s' := s.(db := DisarmTx(s.db, d.purged));
  }

  lemma {:induction false} LateBeat(setup: Setup, p: Pace, polls: seq<Poll>)
    requires setup.fullLiveness >= 3 && setup.heartbeatMsec > 0 && JustSent(setup, p)
    requires polls == [Timeout(0), Timeout(0)]
    ensures Rounds(setup, p, polls).sent == p.sent + [Sent(p.clock + 2 * setup.heartbeatMsec, HEARTBEAT_WIRE)]
  {
    assert polls[1..] == [Timeout(0)] && polls[1..][1..] == [];
    var q := Round(setup, p, Timeout(0));
    assert Rounds(setup, p, polls) == Rounds(setup, q, [Timeout(0)]) == Round(setup, q, Timeout(0));
  }

  lemma LatePurge(cfg: Config, k: Cast, s: State, d: Dispatching, now: nat)
    requires cfg.maxServices > 0 && s.db == Db1(cfg, k) && now > cfg.Grace()
    requires d == Dispatching({1}, map[1 := 2], {2}, None)
    ensures PurgeOk(cfg, s.db, now, d)
  {
    assert s.db.services.Keys == {1} && |s.db.services| == |s.db.services.Keys|;
    assert d.purged == (set v | v in d.examined && s.db.workers[d.examined[v]].expiry < now :: d.examined[v]) by {
      assert 1 in d.examined && d.examined[1] == 2;
    }
  }
}
