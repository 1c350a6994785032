/** A worker is purged when it has been silent for longer than its grace, and never before. */
module Expiry {
  import opened Bytes
  import opened Schema
  import opened System
  import opened Invariants
  import opened Runs
  import opened Dispatch

  /** The expiry of every armed worker was set by its latest message. */
  ghost predicate Timed(cfg: Config, d: Db, seen: map<Id, nat>)
  {
    forall w :: InState(d, w, Armed) ==> w in seen && d.workers[w].expiry == seen[w] + cfg.Grace()
  }

  // ---------------------------------------------------------------- the record of messages

  lemma {:induction false} DispatchKeepsSeen(cfg: Config, s: State, svc: Id, now: nat, c: Dispatching)
    requires DispatchOk(cfg, s, svc, now, c)
    ensures ApplyAll(cfg, s, DispatchTrace(c), now).log.seen == s.log.seen
  {
    if c.send.Some? {
      Unfold2(cfg, s, Disarm(c.purged), Assign(c.send.value.0, c.send.value.1), now);
    } else {
      Unfold1(cfg, s, Disarm(c.purged), now);
    }
  }

  lemma {:induction false} StepKeepsSeen(cfg: Config, s: State, x: Label)
    requires Legal(cfg, s, x.event, x.now, x.choice)
    ensures Step(cfg, s, x).log.seen == ApplyAll(cfg, s, Prefix(s, x.event, x.choice), x.now).log.seen
  {
    var c, now := x.choice, x.now;
    var s1 := ApplyAll(cfg, s, Prefix(s, x.event, c), now);
    StepParts(cfg, s, x);
    if x.event.Timer? {
      Unfold1(cfg, s, Disarm(c.d1.purged), now);
    } else if Target(s, x.event, c).Some? {
      var svc := Target(s, x.event, c).value;
      DispatchKeepsSeen(cfg, s1, svc, now, c.d1);
      if x.event.Ready? {
        DispatchKeepsSeen(cfg, ApplyAll(cfg, s1, DispatchTrace(c.d1), now), svc, now, c.d2);
      }
    }
  }

  // ---------------------------------------------------------------- tables

  lemma DispatchStaysTimed(cfg: Config, d: Db, c: Dispatching, now: nat, seen: map<Id, nat>)
    requires Timed(cfg, d, seen)
    ensures Timed(cfg, Dispatched(cfg, d, c, now), seen)
  {
    var d' := Dispatched(cfg, d, c, now);
    assert forall w :: InState(d', w, Armed) ==> InState(d, w, Armed) && d'.workers[w] == d.workers[w];
  }

  lemma {:induction false} OpeningKeepsLog(cfg: Config, s: State, args: seq<Frame>, c: Choice, now: nat)
    requires |args| >= 2
    ensures ApplyAll(cfg, s, Opening(s, args, c), now).log == s.log
  {
    var t := Opening(s, args, c);
    if c.service.Some? {
      Unfold1(cfg, s, t[0], now);
    } else {
      Unfold2(cfg, s, t[0], t[1], now);
    }
  }

  /** One row is armed now: the joining worker's, or the new worker's. The rest of the table stays. */
  ghost predicate ArmedNow(cfg: Config, s: State, s': State, w: Id, now: nat)
  {
    && InState(s'.db, w, Armed) && s'.db.workers[w].expiry == now + cfg.Grace()
    && s'.log.seen == s.log.seen[w := now]
    && forall v :: v != w ==> (v in s'.db.workers <==> v in s.db.workers) &&
                              (v in s.db.workers ==> s'.db.workers[v] == s.db.workers[v])
  }

  lemma {:induction false} NewcomerEffect(cfg: Config, s: State, e: Event, c: Choice, now: nat)
    requires e.Ready? && c.who.None? && Found(s.db, e, c) && !Aborts(s, e, c)
    ensures var s0 := ApplyAll(cfg, s, Opening(s, e.args, c), now);
            var w := if c.key.Some? then c.key.value else s0.db.next;
            ArmedNow(cfg, s, ApplyAll(cfg, s, Prefix(s, e, c), now), w, now)
  {
    var s0 := ApplyAll(cfg, s, Opening(s, e.args, c), now);
    var u := Joining(e.sender, ServiceOf(s, c), c);
    ReadyPrefixEnabled(cfg, s, e, c, now);
    OpeningEnabled(cfg, s, e.args, c, now);
    OpeningKeepsLog(cfg, s, e.args, c, now);
    if c.key.Some? {
      Unfold2(cfg, s0, u[0], u[1], now);
    } else {
      Unfold1(cfg, s0, u[0], now);
    }
  }

  lemma {:induction false} KnownEffect(cfg: Config, s: State, e: Event, c: Choice, now: nat)
    requires Sound(s.db) && Found(s.db, e, c) && !Aborts(s, e, c) && (e.Report? || e.Heartbeat?) && c.who.Some?
    ensures ArmedNow(cfg, s, ApplyAll(cfg, s, Prefix(s, e, c), now), c.who.value, now)
  {
    KnownPrefixEffect(cfg, s, e, c, now);
  }

  /** The worker the prefix of a step arms, if any. */
  function Joined(cfg: Config, s: State, x: Label): Option<Id>
    requires Found(s.db, x.event, x.choice) && !Aborts(s, x.event, x.choice)
  {
    if Target(s, x.event, x.choice).None? || x.event.Client? then None
    else if !x.event.Ready? then x.choice.who
    else if x.choice.key.Some? then x.choice.key
    else Some(ApplyAll(cfg, s, Opening(s, x.event.args, x.choice), x.now).db.next)
  }

  /** What the prefix of a step does to the worker table and to the record of messages. */
  lemma {:induction false} PrefixEffect(cfg: Config, s: State, x: Label)
    requires Sound(s.db) && Legal(cfg, s, x.event, x.now, x.choice)
    ensures var s1 := ApplyAll(cfg, s, Prefix(s, x.event, x.choice), x.now);
            match Joined(cfg, s, x)
            case Some(w) => ArmedNow(cfg, s, s1, w, x.now)
            case None =>
              || (s1.db.workers == s.db.workers && s1.log.seen == s.log.seen)
              || ((x.event.Ready? || x.event.Disconnect?) && x.choice.who.Some?
                  && s1.db == DisarmTx(s.db, {x.choice.who.value})
                  && s1.log.seen == s.log.seen[x.choice.who.value := x.now])
  {
    var e, c, now := x.event, x.choice, x.now;
    if e.Ready? && c.who.None? {
      NewcomerEffect(cfg, s, e, c, now);
    } else if (e.Report? || e.Heartbeat?) && c.who.Some? {
      KnownEffect(cfg, s, e, c, now);
    } else {
      QuietEffect(cfg, s, e, c, now);
    }
  }

  /** The prefixes that arm nobody. */
  lemma {:induction false} QuietEffect(cfg: Config, s: State, e: Event, c: Choice, now: nat)
    requires Found(s.db, e, c) && !Aborts(s, e, c)
    requires !(e.Ready? && c.who.None?) && !((e.Report? || e.Heartbeat?) && c.who.Some?)
    ensures var s1 := ApplyAll(cfg, s, Prefix(s, e, c), now);
            || (s1.db.workers == s.db.workers && s1.log.seen == s.log.seen)
            || ((e.Ready? || e.Disconnect?) && c.who.Some?
                && s1.db == DisarmTx(s.db, {c.who.value}) && s1.log.seen == s.log.seen[c.who.value := now])
  {
    if (e.Ready? || e.Disconnect?) && c.who.Some? {
      Unfold2(cfg, s, Hear(c.who.value), Disarm({c.who.value}), now);
    } else if Prefix(s, e, c) != [] {
      Unfold1(cfg, s, Prefix(s, e, c)[0], now);
    }
  }

  /** After the prefix, every armed worker's expiry is that of its latest message again. */
  lemma {:induction false} PrefixStaysTimed(cfg: Config, s: State, x: Label)
    requires Sound(s.db) && Timed(cfg, s.db, s.log.seen) && Legal(cfg, s, x.event, x.now, x.choice)
    ensures var s1 := ApplyAll(cfg, s, Prefix(s, x.event, x.choice), x.now);
            Timed(cfg, s1.db, s1.log.seen)
  {
    PrefixEffect(cfg, s, x);
    var s1 := ApplyAll(cfg, s, Prefix(s, x.event, x.choice), x.now);
    if Joined(cfg, s, x).Some? {
      ArmedNowStaysTimed(cfg, s, s1, Joined(cfg, s, x).value, x.now);
    } else {
      assert forall v :: InState(s1.db, v, Armed) ==> InState(s.db, v, Armed) && s1.db.workers[v] == s.db.workers[v];
    }
  }

  lemma ArmedNowStaysTimed(cfg: Config, s: State, s': State, w: Id, now: nat)
    requires Timed(cfg, s.db, s.log.seen) && ArmedNow(cfg, s, s', w, now)
    ensures Timed(cfg, s'.db, s'.log.seen)
  {
    assert forall v :: v != w && InState(s'.db, v, Armed) ==> InState(s.db, v, Armed);
  }

  lemma StepStaysTimed(cfg: Config, s: State, x: Label)
    requires Sound(s.db) && Timed(cfg, s.db, s.log.seen) && Legal(cfg, s, x.event, x.now, x.choice)
    ensures Timed(cfg, Step(cfg, s, x).db, Step(cfg, s, x).log.seen)
  {
    var c, now := x.choice, x.now;
    var s1 := ApplyAll(cfg, s, Prefix(s, x.event, c), now);
    PrefixStaysTimed(cfg, s, x);
    StepKeepsSeen(cfg, s, x);
    StepEffect(cfg, s, x);
    var none := c.d1.(send := None);
    DispatchStaysTimed(cfg, s.db, none, now, s.log.seen);
    DispatchStaysTimed(cfg, s1.db, c.d1, now, s1.log.seen);
    DispatchStaysTimed(cfg, Dispatched(cfg, s1.db, c.d1, now), c.d2, now, s1.log.seen);
  }

  // ---------------------------------------------------------------- the window

  /** Of the workers a purge looks at, it disarms exactly those silent for more than the grace. */
  lemma PurgedExactly(cfg: Config, s: State, now: nat, c: Dispatching, svc: Id)
    requires Timed(cfg, s.db, s.log.seen) && PurgeOk(cfg, s.db, now, c) && svc in c.examined
    ensures c.examined[svc] in s.log.seen
    ensures c.examined[svc] in c.purged <==> now > s.log.seen[c.examined[svc]] + cfg.Grace()
  {
    assert InState(s.db, c.examined[svc], Armed);
    if c.examined[svc] in c.purged {
      var v :| v in c.examined && s.db.workers[c.examined[v]].expiry < now && c.examined[v] == c.examined[svc];
    }
  }

  /** The step comes within the grace of the worker's latest message, and is not the worker signing off. */
  ghost predicate Punctual(cfg: Config, s: State, x: Label, w: Id)
  {
    && w in s.log.seen && x.now <= s.log.seen[w] + cfg.Grace()
    && !(x.choice.who == Some(w) && (x.event.Ready? || x.event.Disconnect?))
  }

  /** In service: known, heard of, and not disarmed. */
  ghost predicate InService(s: State, w: Id)
  {
    w in s.db.workers && s.db.workers[w].state != Disarmed && w in s.log.seen
  }

  lemma DispatchSpares(cfg: Config, d: Db, c: Dispatching, now: nat, seen: map<Id, nat>, w: Id)
    requires Timed(cfg, d, seen) && PurgeOk(cfg, d, now, c)
    requires w in d.workers && d.workers[w].state != Disarmed && w in seen && now <= seen[w] + cfg.Grace()
    ensures w in Dispatched(cfg, d, c, now).workers && Dispatched(cfg, d, c, now).workers[w].state != Disarmed
  {
    assert d.workers[w].state == Armed ==> InState(d, w, Armed);
    NotPurged(cfg, d, c, now, w);
  }

  lemma {:induction false} PrefixSpares(cfg: Config, s: State, x: Label, w: Id)
    requires Sound(s.db) && Legal(cfg, s, x.event, x.now, x.choice)
    requires InService(s, w) && Punctual(cfg, s, x, w)
    ensures var s1 := ApplyAll(cfg, s, Prefix(s, x.event, x.choice), x.now);
            InService(s1, w) && x.now <= s1.log.seen[w] + cfg.Grace()
  {
    PrefixEffect(cfg, s, x);
  }

  lemma StepSpares(cfg: Config, s: State, x: Label, w: Id)
    requires Sound(s.db) && Timed(cfg, s.db, s.log.seen) && Legal(cfg, s, x.event, x.now, x.choice)
    requires InService(s, w) && Punctual(cfg, s, x, w)
    ensures InService(Step(cfg, s, x), w)
  {
    var c, now := x.choice, x.now;
    var s1 := ApplyAll(cfg, s, Prefix(s, x.event, c), now);
    PrefixSpares(cfg, s, x, w);
    PrefixStaysTimed(cfg, s, x);
    StepKeepsSeen(cfg, s, x);
    StepEffect(cfg, s, x);
    if x.event.Timer? {
      NotPurgedWhilePunctual(cfg, s.db, c.d1, now, s.log.seen, w);
    } else if Target(s, x.event, c).Some? {
      var svc := Target(s, x.event, c).value;
      DispatchSpares(cfg, s1.db, c.d1, now, s1.log.seen, w);
      if x.event.Ready? {
        DispatchEffect(cfg, s1, svc, now, c.d1);
        DispatchStaysTimed(cfg, s1.db, c.d1, now, s1.log.seen);
        DispatchSpares(cfg, Dispatched(cfg, s1.db, c.d1, now), c.d2, now, s1.log.seen, w);
      }
    }
  }

  lemma NotPurgedWhilePunctual(cfg: Config, d: Db, c: Dispatching, now: nat, seen: map<Id, nat>, w: Id)
    requires Timed(cfg, d, seen) && PurgeOk(cfg, d, now, c)
    requires w in d.workers && w in seen && now <= seen[w] + cfg.Grace()
    ensures w in DisarmTx(d, c.purged).workers && DisarmTx(d, c.purged).workers[w] == d.workers[w]
  {
    assert d.workers[w].state == Armed ==> InState(d, w, Armed);
    NotPurged(cfg, d, c, now, w);
  }

  ghost predicate PunctualRun(cfg: Config, s: State, run: seq<Label>, w: Id)
    requires IsRun(cfg, s, run)
    decreases |run|
  {
    run == [] || (Punctual(cfg, s, run[0], w) && PunctualRun(cfg, Step(cfg, s, run[0]), run[1..], w))
  }

  /** A worker whose messages are never more than the grace apart stays in service through any run. */
  lemma {:induction false} PunctualWorkerStays(cfg: Config, s: State, run: seq<Label>, w: Id)
    requires IsRun(cfg, s, run) && Sound(s.db) && Timed(cfg, s.db, s.log.seen)
    requires InService(s, w) && PunctualRun(cfg, s, run, w)
    ensures InService(After(cfg, s, run), w)
    decreases |run|
  {
    if run != [] {
      StepSpares(cfg, s, run[0], w);
      StepStaysTimed(cfg, s, run[0]);
      TraceKeepsSound(cfg, s, Trace(s, run[0].event, run[0].choice), run[0].now);
      PunctualWorkerStays(cfg, Step(cfg, s, run[0]), run[1..], w);
    }
  }

  lemma {:induction false} RunStaysTimed(cfg: Config, s: State, run: seq<Label>)
    requires IsRun(cfg, s, run) && Sound(s.db) && Timed(cfg, s.db, s.log.seen)
    ensures Timed(cfg, After(cfg, s, run).db, After(cfg, s, run).log.seen)
    decreases |run|
  {
    if run != [] {
      StepStaysTimed(cfg, s, run[0]);
      TraceKeepsSound(cfg, s, Trace(s, run[0].event, run[0].choice), run[0].now);
      RunStaysTimed(cfg, Step(cfg, s, run[0]), run[1..]);
    }
  }

  /** One purge disarms at most one worker per service, only armed ones, and touches no letter. */
  lemma PurgeFrame(cfg: Config, d: Db, now: nat, c: Dispatching)
    requires PurgeOk(cfg, d, now, c)
    ensures DisarmTx(d, c.purged).letters == d.letters && DisarmTx(d, c.purged).services == d.services
    ensures forall w :: w in c.purged ==> InState(d, w, Armed) && d.workers[w].expiry < now
    ensures forall v, w :: v in c.purged && w in c.purged && d.workers[v].service == d.workers[w].service ==> v == w
    ensures forall w :: w in d.workers && w !in c.purged ==> DisarmTx(d, c.purged).workers[w] == d.workers[w]
  {
    forall v, w | v in c.purged && w in c.purged && d.workers[v].service == d.workers[w].service
      ensures v == w
    {
      var i :| i in c.examined && c.examined[i] == v;
      var j :| j in c.examined && c.examined[j] == w;
      assert ArmedFor(d, c.examined[i], i) && ArmedFor(d, c.examined[j], j);
    }
  }
}
