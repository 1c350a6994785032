/** The expiry times the broker writes into letters and into the rows of the workers that take them. */
module Stamps {
  import opened Bytes
  import opened Schema
  import opened System
  import opened Invariants
  import opened Conservation
  import opened Runs

  // ---------------------------------------------------------------- the step that sends

  /** The letter is with the worker it was sent to, and both rows run out `letterExpiry` after it was sent. */
  ghost predicate Fresh(cfg: Config, d: Db, m: Delivery)
  {
    && m.letter in d.letters && d.letters[m.letter].state == Assigned && d.letters[m.letter].worker == m.worker
    && d.letters[m.letter].expiry == m.at + cfg.letterExpiry
    && InState(d, m.worker, Occupied) && d.workers[m.worker].letter == m.letter
    && d.workers[m.worker].expiry == m.at + cfg.letterExpiry
  }

  lemma {:induction false} NoAssignSendsNothing(cfg: Config, s: State, t: seq<Action>, now: nat)
    requires forall i :: 0 <= i < |t| ==> !t[i].Assign?
    ensures ApplyAll(cfg, s, t, now).log.sent == s.log.sent
    decreases |t|
  {
    if t != [] {
      assert !t[0].Assign?;
      NoAssignSendsNothing(cfg, Apply(cfg, s, t[0], now), t[1..], now);
    }
  }

  lemma OpeningHasNoAssign(s: State, args: seq<Frame>, c: Choice)
    requires |args| >= 2
    ensures forall i :: 0 <= i < |Opening(s, args, c)| ==> !Opening(s, args, c)[i].Assign?
  {
  }

  lemma {:induction false} PrefixSendsNothing(cfg: Config, s: State, e: Event, c: Choice, now: nat)
    requires Found(s.db, e, c) && !Aborts(s, e, c)
    ensures ApplyAll(cfg, s, Prefix(s, e, c), now).log.sent == s.log.sent
  {
    if e.Ready? && c.who.None? {
      OpeningHasNoAssign(s, e.args, c);
    }
    NoAssignSendsNothing(cfg, s, Prefix(s, e, c), now);
  }

  /** One letter was sent at this time, or none. */
  ghost predicate SendsOne(cfg: Config, s: State, s': State, now: nat)
  {
    && s.log.sent <= s'.log.sent && |s'.log.sent| <= |s.log.sent| + 1
    && (|s.log.sent| < |s'.log.sent| ==>
          s'.log.sent[|s.log.sent|].at == now && Fresh(cfg, s'.db, s'.log.sent[|s.log.sent|]))
  }

  lemma AssignSends(cfg: Config, s: State, w: Id, l: Id, now: nat)
    ensures SendsOne(cfg, s, Apply(cfg, s, Assign(w, l), now), now)
  {
  }

  lemma {:induction false} RoundSends(cfg: Config, s: State, s': State, c: Dispatching, now: nat)
    requires s' == ApplyAll(cfg, s, DispatchTrace(c), now)
    ensures SendsOne(cfg, s, s', now)
  {
    var s1 := Apply(cfg, s, Disarm(c.purged), now);
    assert s1.log == s.log;
    if c.send.Some? {
      Unfold2(cfg, s, Disarm(c.purged), Assign(c.send.value.0, c.send.value.1), now);
      AssignSends(cfg, s1, c.send.value.0, c.send.value.1, now);
    } else {
      Unfold1(cfg, s, Disarm(c.purged), now);
    }
  }

  /** The next round leaves that pair alone: it purges and takes armed workers and waiting letters only. */
  lemma {:induction false} RoundKeepsFresh(cfg: Config, s: State, s': State, svc: Id, c: Dispatching, now: nat,
                                           m: Delivery)
    requires DispatchOk(cfg, s, svc, now, c) && s' == ApplyAll(cfg, s, DispatchTrace(c), now) && Fresh(cfg, s.db, m)
    ensures Fresh(cfg, s'.db, m)
  {
    DispatchEffect(cfg, s, svc, now, c);
    assert m.worker !in c.purged;
  }

  /** All that was sent from `s` to `s'` was sent at this time, and is as it was sent. */
  ghost predicate AllFresh(cfg: Config, s: State, s': State, now: nat)
  {
    forall i :: |s.log.sent| <= i < |s'.log.sent| ==> s'.log.sent[i].at == now && Fresh(cfg, s'.db, s'.log.sent[i])
  }

  /** Whatever a step sends, letter and worker run out `letterExpiry` after the step. */
  lemma StepStamps(cfg: Config, s: State, x: Label)
    requires Legal(cfg, s, x.event, x.now, x.choice)
    ensures AllFresh(cfg, s, Step(cfg, s, x), x.now)
  {
    if x.event.Timer? || Target(s, x.event, x.choice).None? {
      QuietSends(cfg, s, x);
    } else if x.event.Ready? {
      ReadyStamps(cfg, s, x);
    } else {
      OneRoundStamps(cfg, s, x);
    }
  }

  lemma OneRoundStamps(cfg: Config, s: State, x: Label)
    requires Legal(cfg, s, x.event, x.now, x.choice) && !x.event.Timer? && !x.event.Ready?
    requires Target(s, x.event, x.choice).Some?
    ensures AllFresh(cfg, s, Step(cfg, s, x), x.now)
  {
    var s1 := ApplyAll(cfg, s, Prefix(s, x.event, x.choice), x.now);
    assert s1.log.sent == s.log.sent by { PrefixSendsNothing(cfg, s, x.event, x.choice, x.now); }
    assert Step(cfg, s, x) == ApplyAll(cfg, s1, DispatchTrace(x.choice.d1), x.now) by { StepParts(cfg, s, x); }
    RoundStamps(cfg, s, s1, Step(cfg, s, x), x.choice.d1, x.now);
  }

  lemma {:induction false} RoundStamps(cfg: Config, s: State, s1: State, s': State, c: Dispatching, now: nat)
    requires s1.log.sent == s.log.sent && s' == ApplyAll(cfg, s1, DispatchTrace(c), now)
    ensures AllFresh(cfg, s, s', now)
  {
    RoundSends(cfg, s1, s', c, now);
  }

  lemma {:induction false} QuietSends(cfg: Config, s: State, x: Label)
    requires Legal(cfg, s, x.event, x.now, x.choice) && (x.event.Timer? || Target(s, x.event, x.choice).None?)
    ensures Step(cfg, s, x).log.sent == s.log.sent
  {
    PrefixSendsNothing(cfg, s, x.event, x.choice, x.now);
    StepParts(cfg, s, x);
    Unfold1(cfg, s, Disarm(x.choice.d1.purged), x.now);
  }

  lemma ReadyStamps(cfg: Config, s: State, x: Label)
    requires Legal(cfg, s, x.event, x.now, x.choice) && x.event.Ready? && Target(s, x.event, x.choice).Some?
    ensures AllFresh(cfg, s, Step(cfg, s, x), x.now)
  {
    var c := x.choice;
    var s1 := ApplyAll(cfg, s, Prefix(s, x.event, c), x.now);
    var s2 := ApplyAll(cfg, s1, DispatchTrace(c.d1), x.now);
    PrefixSendsNothing(cfg, s, x.event, c, x.now);
    assert Step(cfg, s, x) == ApplyAll(cfg, s2, DispatchTrace(c.d2), x.now) by { StepParts(cfg, s, x); }
    assert SendsOne(cfg, s1, s2, x.now) by { RoundSends(cfg, s1, s2, c.d1, x.now); }
    SecondStamps(cfg, s1, s2, Step(cfg, s, x), ServiceOf(s, c), c.d2, x.now);
  }

  lemma {:induction false} SecondStamps(cfg: Config, s1: State, s2: State, s3: State, svc: Id, c: Dispatching, now: nat)
    requires SendsOne(cfg, s1, s2, now)
    requires DispatchOk(cfg, s2, svc, now, c) && s3 == ApplyAll(cfg, s2, DispatchTrace(c), now)
    ensures AllFresh(cfg, s1, s3, now)
  {
    RoundSends(cfg, s2, s3, c, now);
    forall i | |s1.log.sent| <= i < |s2.log.sent| ensures Fresh(cfg, s3.db, s2.log.sent[i])
    {
      RoundKeepsFresh(cfg, s2, s3, svc, c, now, s2.log.sent[i]);
    }
  }

  // ---------------------------------------------------------------- all deliveries

  ghost predicate SentAt(sent: seq<Delivery>, l: Id, w: Id, at: int)
  {
    exists i :: 0 <= i < |sent| && sent[i].letter == l && sent[i].worker == w && sent[i].at == at
  }

  /** The expiry of assigned letters and occupied workers was set by a delivery to that worker. */
  ghost predicate Stamped(cfg: Config, s: State)
  {
    && (forall l :: l in s.db.letters && s.db.letters[l].state == Assigned ==>
          SentAt(s.log.sent, l, s.db.letters[l].worker, s.db.letters[l].expiry - cfg.letterExpiry))
    && (forall w :: InState(s.db, w, Occupied) ==>
          SentAt(s.log.sent, s.db.workers[w].letter, w, s.db.workers[w].expiry - cfg.letterExpiry))
  }

  lemma SentStays(sent: seq<Delivery>, sent': seq<Delivery>, l: Id, w: Id, at: int)
    requires SentAt(sent, l, w, at) && sent <= sent'
    ensures SentAt(sent', l, w, at)
  {
    var i :| 0 <= i < |sent| && sent[i].letter == l && sent[i].worker == w && sent[i].at == at;
    assert sent'[i] == sent[i];
  }

  lemma LetterStamped(cfg: Config, s: State, a: Action, now: nat, l: Id)
    requires Stamped(cfg, s)
    requires var d := Apply(cfg, s, a, now).db; l in d.letters && d.letters[l].state == Assigned
    ensures var s' := Apply(cfg, s, a, now); var row := s'.db.letters[l];
            SentAt(s'.log.sent, l, row.worker, row.expiry - cfg.letterExpiry)
  {
    var s' := Apply(cfg, s, a, now);
    if l in s.db.letters && s'.db.letters[l] == s.db.letters[l] {
      SentStays(s.log.sent, s'.log.sent, l, s.db.letters[l].worker, s.db.letters[l].expiry - cfg.letterExpiry);
    } else {
      assert s'.log.sent[|s.log.sent|].letter == l;
    }
  }

  lemma WorkerStamped(cfg: Config, s: State, a: Action, now: nat, w: Id)
    requires Stamped(cfg, s) && InState(Apply(cfg, s, a, now).db, w, Occupied)
    ensures var s' := Apply(cfg, s, a, now); var row := s'.db.workers[w];
            SentAt(s'.log.sent, row.letter, w, row.expiry - cfg.letterExpiry)
  {
    var s' := Apply(cfg, s, a, now);
    if w in s.db.workers && s'.db.workers[w] == s.db.workers[w] {
      assert InState(s.db, w, Occupied);
      SentStays(s.log.sent, s'.log.sent, s.db.workers[w].letter, w, s.db.workers[w].expiry - cfg.letterExpiry);
    } else {
      assert s'.log.sent[|s.log.sent|].worker == w;
    }
  }

  lemma ApplyStamped(cfg: Config, s: State, a: Action, now: nat)
    requires Stamped(cfg, s)
    ensures Stamped(cfg, Apply(cfg, s, a, now))
  {
    var s' := Apply(cfg, s, a, now);
    forall l | l in s'.db.letters && s'.db.letters[l].state == Assigned
      ensures SentAt(s'.log.sent, l, s'.db.letters[l].worker, s'.db.letters[l].expiry - cfg.letterExpiry)
    {
      LetterStamped(cfg, s, a, now, l);
    }
    forall w | InState(s'.db, w, Occupied)
      ensures SentAt(s'.log.sent, s'.db.workers[w].letter, w, s'.db.workers[w].expiry - cfg.letterExpiry)
    {
      WorkerStamped(cfg, s, a, now, w);
    }
  }

  lemma {:induction false} TraceStamped(cfg: Config, s: State, t: seq<Action>, now: nat)
    requires Stamped(cfg, s)
    ensures Stamped(cfg, ApplyAll(cfg, s, t, now))
    decreases |t|
  {
    if t != [] {
      ApplyStamped(cfg, s, t[0], now);
      TraceStamped(cfg, Apply(cfg, s, t[0], now), t[1..], now);
    }
  }

  lemma {:induction false} RunStamped(cfg: Config, s: State, run: seq<Label>)
    requires IsRun(cfg, s, run) && Stamped(cfg, s)
    ensures Stamped(cfg, After(cfg, s, run))
    decreases |run|
  {
    if run != [] {
      TraceStamped(cfg, s, Trace(s, run[0].event, run[0].choice), run[0].now);
      RunStamped(cfg, Step(cfg, s, run[0]), run[1..]);
    }
  }

  /** In every state of every run of the broker, whatever was sent and is still out runs out `letterExpiry` after its
      own delivery, and so does the worker that is busy with it. */
  lemma {:induction false} DeliveriesExpire(cfg: Config, run: seq<Label>, i: nat)
    requires IsRun(cfg, INITIAL, run) && i < |After(cfg, INITIAL, run).log.sent|
    ensures var s := After(cfg, INITIAL, run); var m := s.log.sent[i];
            && (m.letter in s.db.letters ==>
                  && s.db.letters[m.letter].state == Assigned && s.db.letters[m.letter].worker == m.worker
                  && s.db.letters[m.letter].expiry == m.at + cfg.letterExpiry)
            && (InState(s.db, m.worker, Occupied) && s.db.workers[m.worker].letter == m.letter ==>
                  s.db.workers[m.worker].expiry == m.at + cfg.letterExpiry)
  {
    InitialSafe();
    RunSafe(cfg, INITIAL, run);
    RunStamped(cfg, INITIAL, run);
    DeliveryStamped(cfg, After(cfg, INITIAL, run), i);
  }

  lemma DeliveryStamped(cfg: Config, s: State, i: nat)
    requires Stamped(cfg, s) && SentOnce(s.log.sent) && Partition(s) && SentFollowsTables(s) && i < |s.log.sent|
    ensures var m := s.log.sent[i];
            && (m.letter in s.db.letters ==>
                  && s.db.letters[m.letter].state == Assigned && s.db.letters[m.letter].worker == m.worker
                  && s.db.letters[m.letter].expiry == m.at + cfg.letterExpiry)
            && (InState(s.db, m.worker, Occupied) && s.db.workers[m.worker].letter == m.letter ==>
                  s.db.workers[m.worker].expiry == m.at + cfg.letterExpiry)
  {
    assert Owner(s, s.log.sent[i].letter, s.log.sent[i].worker);
  }

  // ---------------------------------------------------------------- letters that wait

  /** What waits after a transaction waited before, in the same row, or has just been stored. */
  ghost predicate WaitsSince(cfg: Config, d: Db, d': Db, now: nat)
  {
    && d.next <= d'.next
    && forall l :: l in d'.letters && d'.letters[l].state == Unassigned ==>
         || (l in d.letters && d'.letters[l] == d.letters[l])
         || (d.next <= l && d'.letters[l].expiry == now + cfg.heartbeatMsec / 1000)
  }

  lemma ApplyWaits(cfg: Config, s: State, a: Action, now: nat)
    ensures WaitsSince(cfg, s.db, Apply(cfg, s, a, now).db, now)
  {
  }

  lemma {:induction false} TraceWaits(cfg: Config, s: State, t: seq<Action>, now: nat)
    ensures WaitsSince(cfg, s.db, ApplyAll(cfg, s, t, now).db, now)
    decreases |t|
  {
    if t != [] {
      ApplyWaits(cfg, s, t[0], now);
      TraceWaits(cfg, Apply(cfg, s, t[0], now), t[1..], now);
    }
  }

  /** A letter that waits after a step waited before, untouched, or was stored by it, and then runs out a heartbeat
      period, cut to whole seconds, after the step. */
  lemma WaitingLetters(cfg: Config, s: State, x: Label, l: Id)
    requires Sound(s.db) && Legal(cfg, s, x.event, x.now, x.choice)
    requires var d := Step(cfg, s, x).db; l in d.letters && d.letters[l].state == Unassigned
    ensures var d := Step(cfg, s, x).db;
            if l in s.db.letters then d.letters[l] == s.db.letters[l]
            else d.letters[l].expiry == x.now + cfg.heartbeatMsec / 1000
  {
    TraceWaits(cfg, s, Trace(s, x.event, x.choice), x.now);
  }
}
