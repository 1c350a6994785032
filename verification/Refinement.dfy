/** The tables with their placeholder references implement a queue per service and a map of requests in flight. */
module Refinement {
  import opened Bytes
  import opened Schema
  import opened System
  import opened Invariants
  import opened Conservation
  import opened Runs

  // ---------------------------------------------------------------- the abstract broker

  datatype Abs = Abs(
    waiting: map<Id, Id>,   // request to its service
    inflight: map<Id, Id>,  // worker to the request it works on
    home: map<Id, Id>,      // worker to its service
    armed: set<Id>,         // workers ready for a request of their service
    done: set<Id>)          // requests reported on

  datatype AbsAction =
    | Accept(request: Id, service: Id)
    | Give(worker: Id, request: Id)
    | Finish(worker: Id)
    | Offer(worker: Id, service: Id)
    | Withdraw(workers: set<Id>)
    | Skip

  ghost predicate AbsEnabled(a: Abs, act: AbsAction)
  {
    match act
    case Accept(r, _) => r !in a.waiting && r !in a.inflight.Values && r !in a.done
    case Give(w, r) =>
      w in a.armed && w !in a.inflight && r in a.waiting && w in a.home && a.waiting[r] == a.home[w]
    case Finish(w) => w in a.inflight
    case _ => true
  }

  ghost function AbsNext(a: Abs, act: AbsAction): Abs
    requires AbsEnabled(a, act)
  {
    match act
    case Accept(r, svc) => a.(waiting := a.waiting[r := svc])
    case Give(w, r) => a.(waiting := a.waiting - {r}, inflight := a.inflight[w := r], armed := a.armed - {w})
    case Finish(w) => a.(inflight := a.inflight - {w}, done := a.done + {a.inflight[w]}, armed := a.armed + {w})
    case Offer(w, svc) => a.(home := a.home[w := svc], armed := a.armed + {w})
    case Withdraw(ws) => a.(armed := a.armed - ws)
    case Skip => a
  }

  ghost predicate AbsRuns(a: Abs, acts: seq<AbsAction>, a': Abs)
    decreases |acts|
  {
    if acts == [] then a == a'
    else AbsEnabled(a, acts[0]) && AbsRuns(AbsNext(a, acts[0]), acts[1..], a')
  }

  /** A request is in one place, no two workers share one, and every worker has a service. */
  ghost predicate AbsOk(a: Abs)
  {
    && a.waiting.Keys !! a.inflight.Values
    && a.waiting.Keys !! a.done
    && a.inflight.Values !! a.done
    && a.armed <= a.home.Keys && a.inflight.Keys <= a.home.Keys
    && (forall v, w :: v in a.inflight && w in a.inflight && a.inflight[v] == a.inflight[w] ==> v == w)
  }

  lemma {:induction false} AbsRunsKeepOk(a: Abs, acts: seq<AbsAction>, a': Abs)
    requires AbsOk(a) && AbsRuns(a, acts, a')
    ensures AbsOk(a')
    decreases |acts|
  {
    if acts != [] {
      AbsRunsKeepOk(AbsNext(a, acts[0]), acts[1..], a');
    }
  }

  // ---------------------------------------------------------------- the abstraction

  function Waiting(d: Db): map<Id, Id>
  {
    map l | l in d.letters && d.letters[l].state == Unassigned :: d.letters[l].service
  }

  function InFlight(d: Db): map<Id, Id>
  {
    map w | w in d.workers && d.workers[w].letter != 0 :: d.workers[w].letter
  }

  function Homes(d: Db): map<Id, Id>
  {
    map w | w in d.workers :: d.workers[w].service
  }

  function ArmedWorkers(d: Db): set<Id>
  {
    set w | w in d.workers && d.workers[w].state == Armed
  }

  function Alpha(s: State): Abs
  {
    Abs(Waiting(s.db), InFlight(s.db), Homes(s.db), ArmedWorkers(s.db), s.log.released.Keys)
  }

  /** Rejected assignments, reports without a letter and everything about services are invisible. */
  function Image(s: State, a: Action): AbsAction
  {
    if !Enabled(s, a) then Skip else
    match a
    case Create(_, svc) => Offer(s.db.next, svc)
    case Arm(w, svc) => Offer(w, svc)
    case Disarm(ws) => Withdraw(ws)
    case Enqueue(q) => Accept(s.db.next, q.service)
    case Assign(w, l) => if AssignCollides(s.db, w, l) then Skip else Give(w, l)
    case Release(w) => if HeldBy(s.db, w) == {} then Skip else Finish(w)
    case _ => Skip
  }

  function Images(cfg: Config, s: State, t: seq<Action>, now: nat): seq<AbsAction>
    decreases |t|
  {
    if t == [] then [] else [Image(s, t[0])] + Images(cfg, Apply(cfg, s, t[0], now), t[1..], now)
  }

  // ---------------------------------------------------------------- transactions on the tables

  lemma ReleaseImage(d: Db, w: Id)
    requires w in d.workers && d.workers[w].letter != 0 && HeldBy(d, w) == {d.workers[w].letter}
    requires d.workers[w].letter in d.letters && d.letters[d.workers[w].letter].state == Assigned
    ensures Waiting(ReleaseTx(d, w)) == Waiting(d)
    ensures InFlight(ReleaseTx(d, w)) == InFlight(d) - {w}
    ensures ArmedWorkers(ReleaseTx(d, w)) == ArmedWorkers(d) + {w} && Homes(ReleaseTx(d, w)) == Homes(d)
  {
    assert ReleaseTx(d, w).letters == d.letters - {d.workers[w].letter};
  }

  lemma AssignImage(cfg: Config, d: Db, w: Id, l: Id, now: nat)
    requires w in d.workers && l in d.letters && l != 0 && d.letters[l].state == Unassigned && !AssignCollides(d, w, l)
    ensures var d' := AssignTx(cfg, d, w, l, now);
            && Waiting(d') == Waiting(d) - {l}
            && InFlight(d') == InFlight(d)[w := l]
            && ArmedWorkers(d') == ArmedWorkers(d) - {w} && Homes(d') == Homes(d)
  {
  }

  lemma EnqueueImage(cfg: Config, d: Db, svc: Id, origin: Frame, header: Frame, body: Frame, now: nat)
    ensures Waiting(EnqueueTx(cfg, d, svc, origin, header, body, now)) == Waiting(d)[d.next := svc]
  {
  }

  lemma ArmImage(cfg: Config, d: Db, w: Id, svc: Id, now: nat)
    requires w in d.workers
    ensures var d' := ArmTx(cfg, d, w, svc, now);
            InFlight(d') == InFlight(d) && ArmedWorkers(d') == ArmedWorkers(d) + {w} && Homes(d') == Homes(d)[w := svc]
  {
  }

  lemma DisarmImage(d: Db, ws: set<Id>)
    ensures InFlight(DisarmTx(d, ws)) == InFlight(d) && ArmedWorkers(DisarmTx(d, ws)) == ArmedWorkers(d) - ws
    ensures Homes(DisarmTx(d, ws)) == Homes(d)
  {
  }

  // ---------------------------------------------------------------- one action

  lemma ReleaseRefines(cfg: Config, s: State, w: Id, now: nat)
    requires Sound(s.db) && Enabled(s, Release(w))
    ensures AbsEnabled(Alpha(s), Image(s, Release(w)))
    ensures AbsNext(Alpha(s), Image(s, Release(w))) == Alpha(Apply(cfg, s, Release(w), now))
  {
    HeldByReference(s.db, w);
    if s.db.workers[w].letter == 0 {
      ReleaseStutters(cfg, s, w, now);
    } else {
      assert WorkerOk(s.db, w);
      RemovalRefines(cfg, s, w, now);
    }
  }

  lemma RemovalRefines(cfg: Config, s: State, w: Id, now: nat)
    requires Enabled(s, Release(w)) && s.db.workers[w].letter != 0 && HeldBy(s.db, w) == {s.db.workers[w].letter}
    requires s.db.workers[w].letter in s.db.letters && s.db.letters[s.db.workers[w].letter].state == Assigned
    ensures AbsEnabled(Alpha(s), Image(s, Release(w)))
    ensures AbsNext(Alpha(s), Image(s, Release(w))) == Alpha(Apply(cfg, s, Release(w), now))
  {
    ReleaseEffect(cfg, s, w, s.db.workers[w].letter, now);
    ReleaseImage(s.db, w);
  }

  lemma AssignRefines(cfg: Config, s: State, w: Id, l: Id, now: nat)
    requires Sound(s.db) && Enabled(s, Assign(w, l))
    ensures AbsEnabled(Alpha(s), Image(s, Assign(w, l)))
    ensures AbsNext(Alpha(s), Image(s, Assign(w, l))) == Alpha(Apply(cfg, s, Assign(w, l), now))
  {
    CollidesExactly(s.db, w, l);
    if !AssignCollides(s.db, w, l) {
      AssignImage(cfg, s.db, w, l, now);
    }
  }

  lemma EnqueueRefines(cfg: Config, s: State, q: Request, now: nat)
    requires Sound(s.db) && Conserved(s) && Enabled(s, Enqueue(q))
    ensures AbsEnabled(Alpha(s), Image(s, Enqueue(q)))
    ensures AbsNext(Alpha(s), Image(s, Enqueue(q))) == Alpha(Apply(cfg, s, Enqueue(q), now))
  {
    forall w | w in InFlight(s.db) ensures InFlight(s.db)[w] != s.db.next
    {
      assert WorkerOk(s.db, w);
    }
    EnqueueImage(cfg, s.db, q.service, Bounded(q.client, IDENTITY_MAXLEN), q.header, q.body, now);
  }

  lemma CreateRefines(cfg: Config, s: State, identity: Frame, svc: Id, now: nat)
    requires Sound(s.db) && Enabled(s, Create(identity, svc))
    ensures AbsNext(Alpha(s), Image(s, Create(identity, svc))) == Alpha(Apply(cfg, s, Create(identity, svc), now))
  {
    var s' := Apply(cfg, s, Create(identity, svc), now);
    assert InFlight(s'.db) == InFlight(s.db);
    assert ArmedWorkers(s'.db) == ArmedWorkers(s.db) + {s.db.next};
    assert Homes(s'.db) == Homes(s.db)[s.db.next := svc];
  }

  /** Each transaction is one abstract action, or invisible. */
  lemma ApplyRefines(cfg: Config, s: State, a: Action, now: nat)
    requires Sound(s.db) && Conserved(s)
    ensures AbsEnabled(Alpha(s), Image(s, a))
    ensures AbsNext(Alpha(s), Image(s, a)) == Alpha(Apply(cfg, s, a, now))
  {
    if Enabled(s, a) {
      match a
      case Assign(w, l) => AssignRefines(cfg, s, w, l, now);
      case Release(w) => ReleaseRefines(cfg, s, w, now);
      case Enqueue(q) => EnqueueRefines(cfg, s, q, now);
      case Create(identity, svc) => CreateRefines(cfg, s, identity, svc, now);
      case Arm(w, svc) => ArmImage(cfg, s.db, w, svc, now);
      case Disarm(ws) => DisarmImage(s.db, ws);
      case _ =>
    }
  }

  lemma {:induction false} TraceRefines(cfg: Config, s: State, t: seq<Action>, now: nat)
    requires Sound(s.db) && Conserved(s)
    ensures AbsRuns(Alpha(s), Images(cfg, s, t, now), Alpha(ApplyAll(cfg, s, t, now)))
    decreases |t|
  {
    if t != [] {
      ApplyRefines(cfg, s, t[0], now);
      ApplyKeepsSound(cfg, s, t[0], now);
      ApplyConserves(cfg, s, t[0], now);
      var s1 := Apply(cfg, s, t[0], now);
      TraceRefines(cfg, s1, t[1..], now);
      assert Images(cfg, s, t, now)[1..] == Images(cfg, s1, t[1..], now);
    }
  }

  /** All abstract actions of a run, in order. */
  ghost function RunImages(cfg: Config, s: State, run: seq<Label>): seq<AbsAction>
    requires IsRun(cfg, s, run)
    decreases |run|
  {
    if run == [] then [] else
    Images(cfg, s, Trace(s, run[0].event, run[0].choice), run[0].now) + RunImages(cfg, Step(cfg, s, run[0]), run[1..])
  }

  lemma {:induction false} AbsRunsConcat(a: Abs, acts: seq<AbsAction>, b: Abs, more: seq<AbsAction>, c: Abs)
    requires AbsRuns(a, acts, b) && AbsRuns(b, more, c)
    ensures AbsRuns(a, acts + more, c)
    decreases |acts|
  {
    if acts == [] {
      assert acts + more == more;
    } else {
      assert (acts + more)[1..] == acts[1..] + more;
      AbsRunsConcat(AbsNext(a, acts[0]), acts[1..], b, more, c);
    }
  }

  /** Every run of the broker is a run of the abstract broker. */
  lemma {:induction false} RunRefines(cfg: Config, s: State, run: seq<Label>)
    requires IsRun(cfg, s, run) && Sound(s.db) && Conserved(s)
    ensures AbsRuns(Alpha(s), RunImages(cfg, s, run), Alpha(After(cfg, s, run)))
    decreases |run|
  {
    if run != [] {
      var t, now, s1 := Trace(s, run[0].event, run[0].choice), run[0].now, Step(cfg, s, run[0]);
      TraceRefines(cfg, s, t, now);
      TraceConserves(cfg, s, t, now);
      RunRefines(cfg, s1, run[1..]);
      AbsRunsConcat(Alpha(s), Images(cfg, s, t, now), Alpha(s1),
                    RunImages(cfg, s1, run[1..]), Alpha(After(cfg, s, run)));
    }
  }
}
