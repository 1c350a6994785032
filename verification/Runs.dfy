/** Steps and whole runs: safety, and when the broker can run into its own asserts. */
module Runs {
  import opened Bytes
  import opened Schema
  import opened System
  import opened Invariants
  import opened Conservation

  datatype Label = Label(event: Event, now: nat, choice: Choice)

  ghost function Step(cfg: Config, s: State, x: Label): State
    requires Legal(cfg, s, x.event, x.now, x.choice)
  {
    ApplyAll(cfg, s, Trace(s, x.event, x.choice), x.now)
  }

  ghost predicate IsRun(cfg: Config, s: State, run: seq<Label>)
    decreases |run|
  {
    run == [] || (Legal(cfg, s, run[0].event, run[0].now, run[0].choice) && IsRun(cfg, Step(cfg, s, run[0]), run[1..]))
  }

  ghost function After(cfg: Config, s: State, run: seq<Label>): State
    requires IsRun(cfg, s, run)
    decreases |run|
  {
    if run == [] then s else After(cfg, Step(cfg, s, run[0]), run[1..])
  }

  // ---------------------------------------------------------------- traces

  lemma {:induction false} ApplyAllConcat(cfg: Config, s: State, t: seq<Action>, u: seq<Action>, now: nat)
    ensures ApplyAll(cfg, s, t + u, now) == ApplyAll(cfg, ApplyAll(cfg, s, t, now), u, now)
    ensures AllEnabled(cfg, s, t + u, now) <==>
              AllEnabled(cfg, s, t, now) && AllEnabled(cfg, ApplyAll(cfg, s, t, now), u, now)
    decreases |t|
  {
    if t == [] {
      assert t + u == u;
    } else {
      assert (t + u)[1..] == t[1..] + u;
      ApplyAllConcat(cfg, Apply(cfg, s, t[0], now), t[1..], u, now);
    }
  }

  /** The step, cut where the code starts to dispatch. */
  lemma {:induction false} StepParts(cfg: Config, s: State, x: Label)
    requires Legal(cfg, s, x.event, x.now, x.choice)
    ensures var c, now := x.choice, x.now;
            var s1 := ApplyAll(cfg, s, Prefix(s, x.event, c), now);
            Step(cfg, s, x) ==
              if x.event.Timer? then ApplyAll(cfg, s, [Disarm(c.d1.purged)], now)
              else if Target(s, x.event, c).None? then s1
              else if !x.event.Ready? then ApplyAll(cfg, s1, DispatchTrace(c.d1), now)
              else ApplyAll(cfg, ApplyAll(cfg, s1, DispatchTrace(c.d1), now), DispatchTrace(c.d2), now)
  {
    var e, c, now := x.event, x.choice, x.now;
    var p := Prefix(s, e, c);
    var s1 := ApplyAll(cfg, s, p, now);
    if Target(s, e, c).None? {
      assert p + [] == p;
    } else if e.Ready? {
      ApplyAllConcat(cfg, s, p, DispatchTrace(c.d1) + DispatchTrace(c.d2), now);
      ApplyAllConcat(cfg, s1, DispatchTrace(c.d1), DispatchTrace(c.d2), now);
    } else {
      assert DispatchTrace(c.d1) + [] == DispatchTrace(c.d1);
      ApplyAllConcat(cfg, s, p, DispatchTrace(c.d1), now);
    }
  }

  lemma {:induction false} Unfold1(cfg: Config, s: State, a: Action, now: nat)
    ensures ApplyAll(cfg, s, [a], now) == Apply(cfg, s, a, now)
    ensures AllEnabled(cfg, s, [a], now) <==> Enabled(s, a)
  {
    assert [a][1..] == [];
  }

  lemma {:induction false} Unfold2(cfg: Config, s: State, a: Action, b: Action, now: nat)
    ensures var s1 := Apply(cfg, s, a, now);
            && ApplyAll(cfg, s, [a, b], now) == Apply(cfg, s1, b, now)
            && (AllEnabled(cfg, s, [a, b], now) <==> Enabled(s, a) && Enabled(s1, b))
  {
    assert [a, b][1..] == [b];
    Unfold1(cfg, Apply(cfg, s, a, now), b, now);
  }

  lemma {:induction false} Unfold3(cfg: Config, s: State, a: Action, b: Action, c: Action, now: nat)
    ensures var s1 := Apply(cfg, s, a, now); var s2 := Apply(cfg, s1, b, now);
            && ApplyAll(cfg, s, [a, b, c], now) == Apply(cfg, s2, c, now)
            && (AllEnabled(cfg, s, [a, b, c], now) <==> Enabled(s, a) && Enabled(s1, b) && Enabled(s2, c))
  {
    assert [a, b, c][1..] == [b, c];
    Unfold2(cfg, Apply(cfg, s, a, now), b, c, now);
  }

  // ---------------------------------------------------------------- no step gets stuck

  lemma {:induction false} OpeningEnabled(cfg: Config, s: State, args: seq<Frame>, c: Choice, now: nat)
    requires |args| >= 2 && IsService(s.db, CStr(args[0]), c.service)
    ensures AllEnabled(cfg, s, Opening(s, args, c), now)
    ensures var s1 := ApplyAll(cfg, s, Opening(s, args, c), now);
            s1.db.workers == s.db.workers && s1.db.letters == s.db.letters && ServiceOf(s, c) in s1.db.services
  {
    var t := Opening(s, args, c);
    if c.service.Some? {
      Unfold1(cfg, s, t[0], now);
    } else {
      Unfold2(cfg, s, t[0], t[1], now);
    }
  }

  lemma {:induction false} ReadyPrefixEnabled(cfg: Config, s: State, e: Event, c: Choice, now: nat)
    requires e.Ready? && Found(s.db, e, c) && !Aborts(s, e, c) && c.who.None?
    ensures AllEnabled(cfg, s, Prefix(s, e, c), now)
    ensures var s1 := ApplyAll(cfg, s, Opening(s, e.args, c), now);
            ApplyAll(cfg, s, Prefix(s, e, c), now) == ApplyAll(cfg, s1, Joining(e.sender, ServiceOf(s, c), c), now)
  {
    var t, u := Opening(s, e.args, c), Joining(e.sender, ServiceOf(s, c), c);
    var s1 := ApplyAll(cfg, s, t, now);
    OpeningEnabled(cfg, s, e.args, c, now);
    ApplyAllConcat(cfg, s, t, u, now);
    if c.key.Some? {
      Unfold2(cfg, s1, u[0], u[1], now);
    } else {
      Unfold1(cfg, s1, u[0], now);
    }
  }

  lemma {:induction false} PrefixEnabled(cfg: Config, s: State, e: Event, c: Choice, now: nat)
    requires Sound(s.db) && Found(s.db, e, c) && !Aborts(s, e, c)
    ensures AllEnabled(cfg, s, Prefix(s, e, c), now)
  {
    if e.Ready? && c.who.None? {
      ReadyPrefixEnabled(cfg, s, e, c, now);
    } else if c.who.Some? && !e.Client? && !e.Timer? && !e.Invalid? {
      var w := c.who.value;
      assert WorkerOk(s.db, w);
      var svc := s.db.workers[w].service;
      match e
      case Report(_, _) => Unfold3(cfg, s, Release(w), Hear(w), Arm(w, svc), now);
      case Heartbeat(_) => Unfold2(cfg, s, Hear(w), Arm(w, svc), now);
      case _ => Unfold2(cfg, s, Hear(w), Disarm({w}), now);
    } else if e.Client? && Prefix(s, e, c) != [] {
      Unfold1(cfg, s, Prefix(s, e, c)[0], now);
    }
  }

  lemma {:induction false} DispatchEnabled(cfg: Config, s: State, svc: Id, now: nat, c: Dispatching)
    requires DispatchOk(cfg, s, svc, now, c)
    ensures AllEnabled(cfg, s, DispatchTrace(c), now)
  {
    if c.send.Some? {
      Unfold2(cfg, s, Disarm(c.purged), Assign(c.send.value.0, c.send.value.1), now);
    } else {
      Unfold1(cfg, s, Disarm(c.purged), now);
    }
  }

  /** The tables after one round of dispatch. */
  function Dispatched(cfg: Config, d: Db, c: Dispatching, now: nat): Db
  {
    var d1 := DisarmTx(d, c.purged);
    if c.send.None? || c.send.value.0 !in d1.workers || c.send.value.1 !in d1.letters then d1
    else AssignTx(cfg, d1, c.send.value.0, c.send.value.1, now)
  }

  lemma {:induction false} DispatchEffect(cfg: Config, s: State, svc: Id, now: nat, c: Dispatching)
    requires DispatchOk(cfg, s, svc, now, c)
    ensures ApplyAll(cfg, s, DispatchTrace(c), now).db == Dispatched(cfg, s.db, c, now)
  {
    if c.send.Some? {
      Unfold2(cfg, s, Disarm(c.purged), Assign(c.send.value.0, c.send.value.1), now);
    } else {
      Unfold1(cfg, s, Disarm(c.purged), now);
    }
  }

  /** The tables after a known worker's REPORT or HEARTBEAT, before dispatch. */
  lemma {:induction false} KnownPrefixEffect(cfg: Config, s: State, e: Event, c: Choice, now: nat)
    requires Sound(s.db) && Found(s.db, e, c) && !Aborts(s, e, c) && (e.Report? || e.Heartbeat?) && c.who.Some?
    ensures var w := c.who.value; var svc := s.db.workers[w].service;
            var s1 := ApplyAll(cfg, s, Prefix(s, e, c), now);
            && s1.db == ArmTx(cfg, if e.Report? then ReleaseTx(s.db, w) else s.db, w, svc, now)
            && s1.log.seen == s.log.seen[w := now]
  {
    PrefixEnabled(cfg, s, e, c, now);
    KnownPrefixUnfolds(cfg, s, e, c, now);
  }

  lemma {:induction false} KnownPrefixUnfolds(cfg: Config, s: State, e: Event, c: Choice, now: nat)
    requires Found(s.db, e, c) && !Aborts(s, e, c) && (e.Report? || e.Heartbeat?) && c.who.Some?
    requires AllEnabled(cfg, s, Prefix(s, e, c), now)
    ensures var w := c.who.value; var svc := s.db.workers[w].service;
            var s0 := if e.Report? then Apply(cfg, s, Release(w), now) else s;
            ApplyAll(cfg, s, Prefix(s, e, c), now) ==
              State(ArmTx(cfg, if e.Report? then ReleaseTx(s.db, w) else s.db, w, svc, now),
                    s0.log.(seen := s.log.seen[w := now]))
  {
    var p := Prefix(s, e, c);
    if e.Report? {
      Unfold3(cfg, s, p[0], p[1], p[2], now);
    } else {
      Unfold2(cfg, s, p[0], p[1], now);
    }
  }

  /** No transaction of a step fails: in a sound state the code never meets a missing row or a failing assert. */
  lemma {:induction false} TraceEnabled(cfg: Config, s: State, x: Label)
    requires Sound(s.db) && Legal(cfg, s, x.event, x.now, x.choice)
    ensures AllEnabled(cfg, s, Trace(s, x.event, x.choice), x.now)
  {
    var e, c, now := x.event, x.choice, x.now;
    var p := Prefix(s, e, c);
    var s1 := ApplyAll(cfg, s, p, now);
    if e.Timer? {
      Unfold1(cfg, s, Disarm(c.d1.purged), now);
      return;
    }
    PrefixEnabled(cfg, s, e, c, now);
    if Target(s, e, c).None? {
      assert p + [] == p;
      return;
    }
    var svc := Target(s, e, c).value;
    DispatchEnabled(cfg, s1, svc, now, c.d1);
    if e.Ready? {
      var s2 := ApplyAll(cfg, s1, DispatchTrace(c.d1), now);
      DispatchEnabled(cfg, s2, svc, now, c.d2);
      ApplyAllConcat(cfg, s1, DispatchTrace(c.d1), DispatchTrace(c.d2), now);
      ApplyAllConcat(cfg, s, p, DispatchTrace(c.d1) + DispatchTrace(c.d2), now);
    } else {
      assert DispatchTrace(c.d1) + [] == DispatchTrace(c.d1);
      ApplyAllConcat(cfg, s, p, DispatchTrace(c.d1), now);
    }
  }

  // ---------------------------------------------------------------- safety of runs

  /** In every state of every run the references are mutually inverse and the record agrees with the tables. */
  lemma {:induction false} RunSafe(cfg: Config, s: State, run: seq<Label>)
    requires IsRun(cfg, s, run) && Sound(s.db) && Conserved(s)
    ensures Sound(After(cfg, s, run).db) && Conserved(After(cfg, s, run))
    decreases |run|
  {
    if run != [] {
      TraceConserves(cfg, s, Trace(s, run[0].event, run[0].choice), run[0].now);
      RunSafe(cfg, Step(cfg, s, run[0]), run[1..]);
    }
  }

  lemma InitialSafe()
    ensures Sound(INITIAL.db) && Conserved(INITIAL)
  {
  }

  /** Waiting, held and released ones divide the accepted requests; each was sent at most once, to its owner,
      and not at all while it waits. */
  lemma {:induction false} EachRequestOnce(cfg: Config, run: seq<Label>, l: Id)
    requires IsRun(cfg, INITIAL, run) && l in After(cfg, INITIAL, run).log.accepted
    ensures var s := After(cfg, INITIAL, run);
            var waiting := l in s.db.letters && s.db.letters[l].state == Unassigned;
            var held := l in s.db.letters && s.db.letters[l].state == Assigned;
            var released := l in s.log.released;
            && (waiting || held || released)
            && !(waiting && held) && !(waiting && released) && !(held && released)
            && (waiting <==> !WasSent(s.log.sent, l))
            && SentOnce(s.log.sent)
            && (forall i :: (0 <= i < |s.log.sent| && s.log.sent[i].letter == l) ==>
                              if released then s.log.released[l] == s.log.sent[i].worker
                              else s.db.letters[l].worker == s.log.sent[i].worker)
  {
    InitialSafe();
    RunSafe(cfg, INITIAL, run);
    var s := After(cfg, INITIAL, run);
    if l in s.db.letters {
      assert LetterOk(s.db, l);
    }
    forall i | 0 <= i < |s.log.sent| && s.log.sent[i].letter == l
      ensures Owner(s, l, s.log.sent[i].worker)
    {
    }
  }
}
