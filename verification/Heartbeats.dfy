/** An idle worker's heartbeats against the broker's expiry window. */
module Heartbeats {
  import opened Bytes
  import opened Schema
  import opened System
  import opened Invariants
  import opened Runs
  import opened Expiry
  import opened IdentityCodec
  import opened WorkerApi
  import opened Envelope

  /** Nothing arrives, and no round takes longer than `cost` on top of its poll. */
  predicate Idle(polls: seq<Poll>, cost: nat)
  {
    forall i :: 0 <= i < |polls| ==> polls[i].Timeout? && polls[i].cost <= cost
  }

  /** The worker has just sent something. */
  predicate JustSent(setup: Setup, p: Pace)
  {
    && p.sent != [] && p.sent[|p.sent| - 1].at == p.clock
    && p.heartbeatAt == p.clock + setup.heartbeatMsec && p.liveness == setup.fullLiveness
  }

  /** Its heartbeat is due this very millisecond, which the comparison in the loop does not count as due. */
  predicate AlmostDue(setup: Setup, p: Pace)
  {
    && p.sent != [] && p.sent[|p.sent| - 1].at + setup.heartbeatMsec == p.clock
    && p.heartbeatAt == p.clock && p.liveness == setup.fullLiveness - 1
  }

  /** From index `from` on only heartbeats, none later than `gap` after the message before it. */
  predicate Steady(sent: seq<Sent>, from: nat, gap: nat)
  {
    forall i :: 0 < from <= i < |sent| ==> Follows(sent, i, gap)
  }

  predicate Follows(sent: seq<Sent>, i: nat, gap: nat)
    requires 0 < i < |sent|
  {
    sent[i].wire == HEARTBEAT_WIRE && sent[i - 1].at <= sent[i].at <= sent[i - 1].at + gap
  }

  predicate OnBeat(setup: Setup, p: Pace) { JustSent(setup, p) || AlmostDue(setup, p) }

  /** From p to q only heartbeats were sent, none later than `gap` after the message before it. */
  predicate Beating(p: Pace, q: Pace, gap: nat)
  {
    p.sent != [] && p.sent <= q.sent && Steady(q.sent, |p.sent|, gap)
  }

  lemma IdleRound(setup: Setup, p: Pace, poll: Poll, cost: nat)
    requires setup.fullLiveness >= 3 && setup.heartbeatMsec > 0 && poll.Timeout? && poll.cost <= cost
    requires OnBeat(setup, p)
    ensures OnBeat(setup, Round(setup, p, poll))
    ensures Beating(p, Round(setup, p, poll), 2 * setup.heartbeatMsec + cost)
  {
  }

  lemma BeatingOn(p: Pace, q: Pace, r: Pace, gap: nat)
    requires Beating(p, q, gap) && Beating(q, r, gap)
    ensures Beating(p, r, gap)
  {
    forall i | |p.sent| <= i < |r.sent| ensures Follows(r.sent, i, gap)
    {
      if i < |q.sent| {
        assert Follows(q.sent, i, gap);
        assert r.sent[i] == q.sent[i] && r.sent[i - 1] == q.sent[i - 1];
      }
    }
  }

  /** An idle worker sends heartbeats and nothing else, at most two periods and one round's cost apart,
      and has sent its latest one no longer than a period ago at every head of the loop. */
  lemma {:induction false} IdleWorkerBeats(setup: Setup, p: Pace, polls: seq<Poll>, cost: nat)
    requires setup.fullLiveness >= 3 && setup.heartbeatMsec > 0 && Idle(polls, cost) && OnBeat(setup, p)
    ensures var q := Rounds(setup, p, polls);
            && Beating(p, q, 2 * setup.heartbeatMsec + cost)
            && q.sent[|q.sent| - 1].at <= q.clock <= q.sent[|q.sent| - 1].at + setup.heartbeatMsec
            && OnBeat(setup, q)
    decreases |polls|
  {
    if polls != [] {
      IdleRound(setup, p, polls[0], cost);
      var q := Round(setup, p, polls[0]);
      IdleWorkerBeats(setup, q, polls[1..], cost);
      BeatingOn(p, q, Rounds(setup, q, polls[1..]), 2 * setup.heartbeatMsec + cost);
    }
  }

  /** So the heartbeats do come: every round takes a period at least. */
  lemma {:induction false} IdleRoundsTakeTime(setup: Setup, p: Pace, polls: seq<Poll>, cost: nat)
    requires Idle(polls, cost)
    ensures Rounds(setup, p, polls).clock >= p.clock + |polls| * setup.heartbeatMsec
    decreases |polls|
  {
    if polls != [] {
      IdleRoundsTakeTime(setup, Round(setup, p, polls[0]), polls[1..], cost);
      assert (|polls| - 1) * setup.heartbeatMsec + setup.heartbeatMsec == |polls| * setup.heartbeatMsec;
    }
  }

  /** With no cost, the two rounds between heartbeats keep an idle worker from registering again exactly
      when the liveness counter starts at three or more. */
  lemma {:induction false} ThreeLivesNeeded(setup: Setup, p: Pace)
    requires setup.fullLiveness >= 1 && setup.heartbeatMsec > 0 && JustSent(setup, p)
    ensures setup.fullLiveness >= 3 <==>
              Steady(Rounds(setup, p, [Timeout(0), Timeout(0)]).sent, |p.sent|, 2 * setup.heartbeatMsec)
  {
    var polls := [Timeout(0), Timeout(0)];
    assert polls[1..] == [Timeout(0)] && polls[1..][1..] == [];
    var q := Round(setup, p, Timeout(0));
    var r := Rounds(setup, p, polls);
    assert r == Round(setup, q, Timeout(0));
    assert ReadyWire(setup)[2] != HEARTBEAT_WIRE[2];
    if setup.fullLiveness < 3 {
      assert r.sent[|p.sent|].wire == ReadyWire(setup);
      assert !Follows(r.sent, |p.sent|, 2 * setup.heartbeatMsec);
    }
  }

  // ---------------------------------------------------------------- the broker's clock counts seconds

  /** Silence of at most `gap` milliseconds never looks longer than `grace` seconds, whatever the phase of the
      clock, exactly when the gap is no longer than the grace. */
  lemma WindowExactly(gap: nat, grace: nat)
    ensures (forall a: nat, t: nat :: a <= t <= a + gap ==> Seconds(t) <= Seconds(a) + grace) <==> gap <= 1000 * grace
  {
    if gap <= 1000 * grace {
      forall a: nat, t: nat | a <= t <= a + gap
        ensures Seconds(t) <= Seconds(a) + grace
      {
      }
    } else {
      assert 999 <= 1000 * (grace + 1) <= 999 + gap;
      assert Seconds(1000 * (grace + 1)) > Seconds(999) + grace;
    }
  }

  function Seconds(msec: nat): nat { msec / 1000 }

  /** The gap of an idle worker fits the broker's window exactly when the heartbeat period is a whole number
      of seconds and a round costs nothing. */
  lemma IdleGapFits(cfg: Config, cost: nat)
    ensures 2 * cfg.heartbeatMsec + cost <= 1000 * cfg.Grace() <==> cfg.heartbeatMsec % 1000 == 0 && cost == 0
  {
  }

  /** With the values the project is built with, an idle worker that last spoke at 0.999 s is out of its grace
      at 5 s, almost a second before its next heartbeat. */
  lemma {:induction false} ShippedWindowTooSmall(setup: Setup, p: Pace)
    requires setup.fullLiveness == 3 && setup.heartbeatMsec == SHIPPED.heartbeatMsec
    requires JustSent(setup, p) && p.clock == 999
    ensures Rounds(setup, p, [Timeout(0), Timeout(0)]).sent == p.sent + [Sent(5999, HEARTBEAT_WIRE)]
    ensures Seconds(5000) > Seconds(999) + SHIPPED.Grace()
  {
    var polls := [Timeout(0), Timeout(0)];
    assert polls[1..] == [Timeout(0)] && polls[1..][1..] == [];
    var q := Round(setup, p, Timeout(0));
    assert Rounds(setup, p, polls) == Round(setup, q, Timeout(0));
  }

  // ---------------------------------------------------------------- worker and broker together

  /** The step is a message of the worker known as `w`. */
  predicate Speaks(x: Label, w: Id)
  {
    x.choice.who == Some(w) && !x.event.Client? && !x.event.Timer?
  }

  /**
   Messages take no time: `sent[j]` is the latest message of `w` the broker has handled, every step of the broker
   comes between it and the next one, and a step in which `w` speaks is the broker taking the frames of that next one
   from the socket `id`, at the time they were sent. `ms` are the steps' times.
   */
  ghost predicate InStep(cfg: Config, s: State, run: seq<Label>, ms: seq<nat>, id: Frame, w: Id,
                         sent: seq<Sent>, j: nat)
    requires IsRun(cfg, s, run)
    decreases |run|
  {
    |ms| == |run| && (run == [] ||
      (&& j + 1 < |sent| && sent[j].at <= ms[0] <= sent[j + 1].at && run[0].now == Seconds(ms[0])
       && (Speaks(run[0], w) ==> ms[0] == sent[j + 1].at && Brought(id, sent[j + 1].wire, run[0].event))
       && InStep(cfg, Step(cfg, s, run[0]), run[1..], ms[1..], id, w, sent,
                 if Speaks(run[0], w) then j + 1 else j)))
  }

  /** The worker is in service under the identity of its socket, and the broker heard from it at this millisecond. */
  ghost predicate OnDuty(cfg: Config, s: State, id: Frame, w: Id, at: nat)
  {
    && Sound(s.db) && Timed(cfg, s.db, s.log.seen) && InService(s, w)
    && id != [] && IsWorker(s.db, CStr(ToText(id)), Some(w)) && s.log.seen[w] == Seconds(at)
  }

  /** A step in which `w` sends a heartbeat, or nothing, and the record of when it was heard. */
  lemma {:induction false} SeenAfter(cfg: Config, s: State, x: Label, w: Id)
    requires Sound(s.db) && Legal(cfg, s, x.event, x.now, x.choice) && InService(s, w)
    requires Speaks(x, w) ==> x.event.Heartbeat?
    ensures var seen := Step(cfg, s, x).log.seen;
            w in seen && (seen[w] == x.now || (!Speaks(x, w) && seen[w] == s.log.seen[w]))
  {
    PrefixEffect(cfg, s, x);
    StepKeepsSeen(cfg, s, x);
  }

  lemma {:induction false} InStepIsPunctual(cfg: Config, s: State, run: seq<Label>, ms: seq<nat>, id: Frame, w: Id,
                                           sent: seq<Sent>, j: nat, gap: nat)
    requires IsRun(cfg, s, run) && Sound(s.db) && Timed(cfg, s.db, s.log.seen) && InService(s, w) && id != []
    requires InStep(cfg, s, run, ms, id, w, sent, j) && Steady(sent, j + 1, gap) && gap <= 1000 * cfg.Grace()
    requires j < |sent| && s.log.seen[w] >= Seconds(sent[j].at)
    ensures PunctualRun(cfg, s, run, w)
    decreases |run|
  {
    if run != [] {
      var x, s' := run[0], Step(cfg, s, run[0]);
      assert Speaks(x, w) ==> x.event == Heartbeat(ToText(id)) by {
        assert Follows(sent, j + 1, gap);
        CommandMessages(id, []);
      }
      assert Punctual(cfg, s, x, w) by {
        assert Follows(sent, j + 1, gap);
      }
      StepSpares(cfg, s, x, w);
      StepStaysTimed(cfg, s, x);
      TraceKeepsSound(cfg, s, Trace(s, x.event, x.choice), x.now);
      SeenAfter(cfg, s, x, w);
      InStepIsPunctual(cfg, s', run[1..], ms[1..], id, w, sent, if Speaks(x, w) then j + 1 else j, gap);
    }
  }

  lemma {:induction false} IdleSchedule(setup: Setup, p: Pace, polls: seq<Poll>)
    requires setup.fullLiveness >= 3 && setup.heartbeatMsec > 0 && JustSent(setup, p) && Idle(polls, 0)
    ensures var sent := Rounds(setup, p, polls).sent;
            && |p.sent| <= |sent| && sent[|p.sent| - 1].at == p.clock
            && Steady(sent, |p.sent|, 2 * setup.heartbeatMsec)
  {
    IdleWorkerBeats(setup, p, polls, 0);
    assert Rounds(setup, p, polls).sent[|p.sent| - 1] == p.sent[|p.sent| - 1];
  }

  /** Worker loop and broker together: with a heartbeat period of whole seconds and rounds that cost nothing,
      no run of the broker, taking the frames the loop really sends, ever disarms an idle worker. */
  lemma IdleWorkerStays(cfg: Config, setup: Setup, p: Pace, polls: seq<Poll>,
                        s: State, run: seq<Label>, ms: seq<nat>, id: Frame, w: Id)
    requires setup.heartbeatMsec == cfg.heartbeatMsec > 0 && cfg.heartbeatMsec % 1000 == 0 && setup.fullLiveness >= 3
    requires JustSent(setup, p) && Idle(polls, 0)
    requires IsRun(cfg, s, run) && OnDuty(cfg, s, id, w, p.clock)
    requires InStep(cfg, s, run, ms, id, w, Rounds(setup, p, polls).sent, |p.sent| - 1)
    ensures InService(After(cfg, s, run), w)
  {
    var sent := Rounds(setup, p, polls).sent;
    IdleSchedule(setup, p, polls);
    IdleGapFits(cfg, 0);
    InStepIsPunctual(cfg, s, run, ms, id, w, sent, |p.sent| - 1, 2 * cfg.heartbeatMsec);
    PunctualWorkerStays(cfg, s, run, w);
  }
}
