/** How a worker that was disarmed gets back to work, and how it does not. */
module Registration {
  import opened Bytes
  import opened Protocol
  import opened IdentityCodec
  import opened Messages
  import opened Schema
  import opened System
  import opened Invariants
  import opened Runs
  import opened Affinity
  import opened Dispatch
  import opened Expiry
  import opened Replies
  import opened Broker
  import opened WorkerApi
  import opened Envelope

  // ---------------------------------------------------------------- disarmed workers

  lemma DispatchLeavesDisarmed(cfg: Config, d: Db, svc: Id, c: Dispatching, now: nat, w: Id)
    requires InState(d, w, Disarmed) && SendOk(DisarmTx(d, c.purged), svc, c.send)
    ensures InState(Dispatched(cfg, d, c, now), w, Disarmed)
  {
  }

  /** A disarmed worker stays disarmed in every step that is not its own call for work. */
  lemma DisarmedStays(cfg: Config, s: State, x: Label, w: Id)
    requires Sound(s.db) && Legal(cfg, s, x.event, x.now, x.choice)
    requires InState(s.db, w, Disarmed) && Expiry.Joined(cfg, s, x) != Some(w)
    ensures InState(Step(cfg, s, x).db, w, Disarmed)
  {
    var c, now := x.choice, x.now;
    var s1 := ApplyAll(cfg, s, Prefix(s, x.event, c), now);
    PrefixEffect(cfg, s, x);
    StepEffect(cfg, s, x);
    if !x.event.Timer? && Target(s, x.event, c).Some? {
      var svc := Target(s, x.event, c).value;
      DispatchLeavesDisarmed(cfg, s1.db, svc, c.d1, now, w);
      if x.event.Ready? {
        DispatchEffect(cfg, s1, svc, now, c.d1);
        DispatchLeavesDisarmed(cfg, Dispatched(cfg, s1.db, c.d1, now), svc, c.d2, now, w);
      }
    }
  }

  /** Such a call is the worker's own HEARTBEAT or REPORT, or somebody else's READY whose identity, cut to 11
      octets, is the worker's. Its own READY is none. */
  lemma CallsForWork(cfg: Config, s: State, x: Label, w: Id)
    requires Sound(s.db) && Legal(cfg, s, x.event, x.now, x.choice)
    requires w in s.db.workers && Expiry.Joined(cfg, s, x) == Some(w)
    ensures match x.event
            case Heartbeat(sender) => CStr(sender) == s.db.workers[w].identity
            case Report(sender, _) => CStr(sender) == s.db.workers[w].identity
            case Ready(sender, _) =>
              CStr(sender) != s.db.workers[w].identity && Bounded(sender, IDENTITY_MAXLEN) == s.db.workers[w].identity
            case _ => false
    ensures x.event.Ready? ==> !Fits(x.event)
  {
    if x.event.Ready? && x.choice.who.None? && x.choice.key.None? {
      OpeningCounts(cfg, s, x.event.args, x.choice, x.now);
    }
  }

  lemma {:induction false} OpeningCounts(cfg: Config, s: State, args: seq<Frame>, c: Choice, now: nat)
    requires |args| >= 2 && IsService(s.db, CStr(args[0]), c.service)
    ensures ApplyAll(cfg, s, Opening(s, args, c), now).db.next >= s.db.next
  {
    var t := Opening(s, args, c);
    if c.service.Some? {
      Unfold1(cfg, s, t[0], now);
    } else {
      Unfold2(cfg, s, t[0], t[1], now);
    }
  }

  // ---------------------------------------------------------------- READY of a known worker

  /** What a worker's socket gives of the broker's farewell. */
  const FAREWELL: seq<Frame> := [EMPTY_FRAME, MDPW_WORKER, MDPW_DISCONNECT]

  lemma ReadyMessage(id: Frame, setup: Setup)
    requires id != []
    ensures var text := TextOf(RouterIn(id, ReadyWire(setup)));
            WellFormed(text) && EventOf(text) == Some(Ready(ToText(id), [CStr(setup.service), CStr(setup.endpoint)]))
  {
    WorkerMessage(id, [1], [CStr(setup.service), CStr(setup.endpoint)]);
  }

  /** The broker answers it with a farewell and leaves the worker disarmed, and known as before. */
  lemma KnownReadyDismissed(cfg: Config, s: State, x: Label)
    requires Sound(s.db) && Legal(cfg, s, x.event, x.now, x.choice) && x.event.Ready? && x.choice.who.Some?
    ensures var w, out := x.choice.who.value, OnWire(RepliesOf(s, x.event, x.choice, None));
            && |out| == 1 && |out[0]| == 4 && RouterOut(out[0]) == FAREWELL
            && out[0][0] == ToWire(s.db.workers[w].identity)
            && InState(Step(cfg, s, x).db, w, Disarmed)
            && Step(cfg, s, x).db.workers[w].identity == s.db.workers[w].identity
  {
    var w := x.choice.who.value;
    assert CStr(s.db.workers[w].identity) == s.db.workers[w].identity by {
      assert WorkerOk(s.db, w);
      CStrExact(s.db.workers[w].identity);
    }
    Unfold2(cfg, s, Hear(w), Disarm({w}), x.now);
    StepParts(cfg, s, x);
  }

  /** And the worker answers the farewell with READY again, and puts the HEARTBEAT that would arm it off by a
      whole period. */
  lemma FarewellAnswered(setup: Setup, p: Pace, after: nat, cost: nat)
    ensures var q := Round(setup, p, Arrives(after, cost, FAREWELL));
            && Acceptable(FAREWELL)
            && q.sent == p.sent + [Sent(p.clock + after + cost, ReadyWire(setup))]
            && q.heartbeatAt == q.clock + setup.heartbeatMsec && q.liveness == setup.fullLiveness
  {
    assert FAREWELL[2] != MDPW_REQUEST;
  }

  /** The socket with identity `id` brings the worker's latest message to the broker. */
  ghost predicate Brings(id: Frame, p: Pace, e: Event)
  {
    p.sent != [] && Brought(id, p.sent[|p.sent| - 1].wire, e)
  }

  /** What the broker sends in a step besides requests is one message, to `id`, and the poll gives it. */
  ghost predicate Answers(s: State, x: Label, id: Frame, poll: Poll)
    requires Found(s.db, x.event, x.choice) && !Aborts(s, x.event, x.choice)
  {
    var out := OnWire(RepliesOf(s, x.event, x.choice, None));
    && |out| == 1 && out[0] != [] && out[0][0] == id
    && poll.Arrives? && poll.wire == RouterOut(out[0])
  }

  /**
   Worker and broker taking turns among everything else the broker does. Where `polls` has a poll, the step handles
   the latest message of the worker and the poll gives the broker's answer to it. Where it has none, the step is
   any legal one: a purge, or a message of somebody else.
   */
  ghost predicate Exchange(cfg: Config, setup: Setup, id: Frame, s: State, run: seq<Label>, p: Pace,
                           polls: seq<Option<Poll>>)
    requires IsRun(cfg, s, run)
    decreases |run|
  {
    |run| == |polls| && (run == [] ||
      (&& Turn(id, s, run[0], p, polls[0])
       && Exchange(cfg, setup, id, Step(cfg, s, run[0]), run[1..], Paced(setup, p, polls[0]), polls[1..])))
  }

  ghost predicate Turn(id: Frame, s: State, x: Label, p: Pace, o: Option<Poll>)
    requires Found(s.db, x.event, x.choice) && !Aborts(s, x.event, x.choice)
  {
    o.Some? ==> Brings(id, p, x.event) && Answers(s, x, id, o.value)
  }

  /** Where the worker stands after the step. */
  function Paced(setup: Setup, p: Pace, o: Option<Poll>): Pace { if o.Some? then Round(setup, p, o.value) else p }

  /** The worker's own polls. */
  function Given(polls: seq<Option<Poll>>): seq<Poll>
  {
    if polls == [] then [] else (if polls[0].Some? then [polls[0].value] else []) + Given(polls[1..])
  }

  predicate OnlyReady(setup: Setup, sent: seq<Sent>, from: nat)
  {
    forall i :: from <= i < |sent| ==> sent[i].wire == ReadyWire(setup)
  }

  /** The worker known as `w` has just asked to register. */
  ghost predicate Asking(setup: Setup, id: Frame, s: State, p: Pace, w: Id)
  {
    && id != [] && IsWorker(s.db, CStr(ToText(id)), Some(w))
    && p.sent != [] && p.sent[|p.sent| - 1].wire == ReadyWire(setup)
  }

  /** One turn: the request is answered with a farewell, and the farewell with the same request. */
  lemma OneTurn(cfg: Config, setup: Setup, id: Frame, s: State, x: Label, p: Pace, poll: Poll, w: Id)
    requires Sound(s.db) && Legal(cfg, s, x.event, x.now, x.choice) && Asking(setup, id, s, p, w)
    requires Brings(id, p, x.event) && Answers(s, x, id, poll)
    ensures x.event.Ready? && x.choice.who == Some(w) && poll.wire == FAREWELL
    ensures InState(Step(cfg, s, x).db, w, Disarmed)
    ensures var q := Round(setup, p, poll);
            && Asking(setup, id, Step(cfg, s, x), q, w)
            && q.sent == p.sent + [Sent(q.clock, ReadyWire(setup))]
  {
    ReadyMessage(id, setup);
    SameRow(s.db, w, CStr(ToText(id)), x.choice.who);
    KnownReadyDismissed(cfg, s, x);
    FarewellAnswered(setup, p, poll.after, poll.cost);
  }

  /** Every turn is READY of the known worker, every answer a farewell. */
  predicate InCircles(run: seq<Label>, polls: seq<Option<Poll>>, w: Id)
    decreases |run|
  {
    |run| == |polls| && (run == [] ||
      (&& (polls[0].Some? ==>
             run[0].event.Ready? && run[0].choice.who == Some(w)
             && polls[0].value.Arrives? && polls[0].value.wire == FAREWELL)
       && InCircles(run[1..], polls[1..], w)))
  }

  /** No step of the run is a call for work by `w` (CallsForWork says which ones are). */
  ghost predicate NobodyCalls(cfg: Config, s: State, run: seq<Label>, w: Id)
    requires IsRun(cfg, s, run)
    decreases |run|
  {
    run == [] || (Expiry.Joined(cfg, s, run[0]) != Some(w) && NobodyCalls(cfg, Step(cfg, s, run[0]), run[1..], w))
  }

  /** From p to q the worker has sent READY `n` times and nothing else. */
  predicate SentReady(setup: Setup, p: Pace, q: Pace, n: nat)
  {
    p.sent <= q.sent && |q.sent| == |p.sent| + n && OnlyReady(setup, q.sent, |p.sent|)
  }

  /** So re-registration goes round in circles. However long worker and broker go on, and whatever steps of others
      and purges come between the turns, every turn is READY of the known worker, every answer a farewell, the
      worker has sent one READY for each and nothing else, and it asks again. Once there was a turn it is
      disarmed, unless a step between them called for work in its name. */
  lemma {:induction false} RegistrationCircles(cfg: Config, setup: Setup, id: Frame, s: State, run: seq<Label>,
                                              p: Pace, polls: seq<Option<Poll>>, w: Id)
    requires IsRun(cfg, s, run) && Sound(s.db) && Asking(setup, id, s, p, w)
    requires Exchange(cfg, setup, id, s, run, p, polls)
    ensures InCircles(run, polls, w) && SentReady(setup, p, Rounds(setup, p, Given(polls)), |Given(polls)|)
    ensures Sound(After(cfg, s, run).db) && Asking(setup, id, After(cfg, s, run), Rounds(setup, p, Given(polls)), w)
    ensures (InState(s.db, w, Disarmed) || Given(polls) != []) && NobodyCalls(cfg, s, run, w) ==>
              InState(After(cfg, s, run).db, w, Disarmed)
    decreases |run|
  {
    if run == [] {
      assert Given(polls) == [];
    } else {
      var q := Paced(setup, p, polls[0]);
      AnyStep(cfg, setup, id, s, run[0], p, polls[0], w);
      GivenHead(setup, p, polls);
      RegistrationCircles(cfg, setup, id, Step(cfg, s, run[0]), run[1..], q, polls[1..], w);
      if polls[0].Some? {
        ReadyOn(setup, p, q, Rounds(setup, q, Given(polls[1..])), |Given(polls[1..])|);
      }
    }
  }

  /** A turn, or a step of somebody else. */
  lemma AnyStep(cfg: Config, setup: Setup, id: Frame, s: State, x: Label, p: Pace, o: Option<Poll>, w: Id)
    requires Sound(s.db) && Legal(cfg, s, x.event, x.now, x.choice) && Asking(setup, id, s, p, w)
    requires Turn(id, s, x, p, o)
    ensures var s', q := Step(cfg, s, x), Paced(setup, p, o);
            && Sound(s'.db) && Asking(setup, id, s', q, w)
            && (o.Some? ==>
                  && x.event.Ready? && x.choice.who == Some(w) && o.value.Arrives? && o.value.wire == FAREWELL
                  && InState(s'.db, w, Disarmed) && q.sent == p.sent + [Sent(q.clock, ReadyWire(setup))])
            && (InState(s.db, w, Disarmed) && Expiry.Joined(cfg, s, x) != Some(w) ==> InState(s'.db, w, Disarmed))
  {
    SoundAfter(cfg, s, x);
    if o.Some? {
      OneTurn(cfg, setup, id, s, x, p, o.value, w);
    } else {
      OtherStep(cfg, setup, id, s, x, p, w);
    }
  }

  /** The worker stays known and keeps asking, whatever somebody else does. */
  lemma OtherStep(cfg: Config, setup: Setup, id: Frame, s: State, x: Label, p: Pace, w: Id)
    requires Sound(s.db) && Legal(cfg, s, x.event, x.now, x.choice) && Asking(setup, id, s, p, w)
    ensures Asking(setup, id, Step(cfg, s, x), p, w)
    ensures InState(s.db, w, Disarmed) && Expiry.Joined(cfg, s, x) != Some(w) ==>
              InState(Step(cfg, s, x).db, w, Disarmed)
  {
    TraceKeepsRows(cfg, s, Trace(s, x.event, x.choice), x.now);
    if InState(s.db, w, Disarmed) && Expiry.Joined(cfg, s, x) != Some(w) {
      DisarmedStays(cfg, s, x, w);
    }
  }

  lemma SoundAfter(cfg: Config, s: State, x: Label)
    requires Sound(s.db) && Legal(cfg, s, x.event, x.now, x.choice)
    ensures Sound(Step(cfg, s, x).db)
  {
    TraceKeepsSound(cfg, s, Trace(s, x.event, x.choice), x.now);
  }

  lemma ReadyOn(setup: Setup, p: Pace, q: Pace, r: Pace, n: nat)
    requires q.sent == p.sent + [Sent(q.clock, ReadyWire(setup))] && SentReady(setup, q, r, n)
    ensures SentReady(setup, p, r, n + 1)
  {
    assert r.sent[|p.sent|] == q.sent[|p.sent|];
  }

  /** And nothing ends it. After any exchange, and any run of others after that, there are as many turns more as one
      likes, if the broker can answer to the worker's identity. */
  lemma CirclesOfAnyLength(cfg: Config, setup: Setup, id: Frame, s: State, run: seq<Label>, p: Pace,
                           polls: seq<Option<Poll>>, w: Id, others: seq<Label>, now: nat, n: nat)
    returns (quiet: seq<Option<Poll>>, more: seq<Label>, rest: seq<Option<Poll>>)
    requires IsRun(cfg, s, run) && Sound(s.db) && Asking(setup, id, s, p, w) && Answerable(id)
    requires Exchange(cfg, setup, id, s, run, p, polls) && IsRun(cfg, After(cfg, s, run), others)
    ensures Given(quiet) == [] && |Given(rest)| == n && IsRun(cfg, s, run + others + more)
    ensures Exchange(cfg, setup, id, s, run + others + more, p, polls + quiet + rest)
  {
    quiet := OthersGoOn(cfg, setup, id, s, run, p, polls, others);
    more, rest := TurnsGoOn(cfg, setup, id, s, run + others, p, polls + quiet, w, now, n);
  }

  lemma {:induction false} TurnsGoOn(cfg: Config, setup: Setup, id: Frame, s: State, run: seq<Label>, p: Pace,
                                    polls: seq<Option<Poll>>, w: Id, now: nat, n: nat)
    returns (more: seq<Label>, rest: seq<Option<Poll>>)
    requires IsRun(cfg, s, run) && Sound(s.db) && Asking(setup, id, s, p, w) && Answerable(id)
    requires Exchange(cfg, setup, id, s, run, p, polls)
    ensures |Given(rest)| == n && IsRun(cfg, s, run + more) && Exchange(cfg, setup, id, s, run + more, p, polls + rest)
  {
    var s', q := After(cfg, s, run), Rounds(setup, p, Given(polls));
    RegistrationCircles(cfg, setup, id, s, run, p, polls, w);
    more, rest := Turns(cfg, setup, id, s', q, w, now, n);
    ExchangeConcat(cfg, setup, id, s, run, p, polls, s', more, q, rest);
  }

  lemma {:induction false} OthersGoOn(cfg: Config, setup: Setup, id: Frame, s: State, run: seq<Label>, p: Pace,
                                     polls: seq<Option<Poll>>, others: seq<Label>)
    returns (rest: seq<Option<Poll>>)
    requires IsRun(cfg, s, run) && Exchange(cfg, setup, id, s, run, p, polls) && IsRun(cfg, After(cfg, s, run), others)
    ensures Given(rest) == [] && IsRun(cfg, s, run + others)
    ensures Exchange(cfg, setup, id, s, run + others, p, polls + rest)
  {
    var s', q := After(cfg, s, run), Rounds(setup, p, Given(polls));
    rest := NoTurns(cfg, setup, id, s', q, others);
    ExchangeConcat(cfg, setup, id, s, run, p, polls, s', others, q, rest);
  }

  lemma {:induction false} NoTurns(cfg: Config, setup: Setup, id: Frame, s: State, p: Pace, others: seq<Label>)
    returns (rest: seq<Option<Poll>>)
    requires IsRun(cfg, s, others)
    ensures Given(rest) == [] && Exchange(cfg, setup, id, s, others, p, rest)
    decreases |others|
  {
    rest := [];
    if others != [] {
      var more := NoTurns(cfg, setup, id, Step(cfg, s, others[0]), p, others[1..]);
      rest := [None] + more;
      assert rest[1..] == more;
    }
  }

  lemma {:induction false} Turns(cfg: Config, setup: Setup, id: Frame, s: State, p: Pace, w: Id, now: nat, n: nat)
    returns (run: seq<Label>, polls: seq<Option<Poll>>)
    requires Sound(s.db) && Asking(setup, id, s, p, w) && Answerable(id)
    ensures |Given(polls)| == n && IsRun(cfg, s, run) && Exchange(cfg, setup, id, s, run, p, polls)
    decreases n
  {
    run, polls := [], [];
    if n > 0 {
      var x := ATurn(cfg, setup, id, s, p, w, now);
      var poll := Arrives(0, 0, FAREWELL);
      OneTurn(cfg, setup, id, s, x, p, poll, w);
      SoundAfter(cfg, s, x);
      var more, rest := Turns(cfg, setup, id, Step(cfg, s, x), Round(setup, p, poll), w, now, n - 1);
      run, polls := [x] + more, [Some(poll)] + rest;
      assert run[1..] == more && polls[1..] == rest;
      StepMore(cfg, setup, id, s, run, p, polls);
    }
  }

  lemma {:induction false} ExchangeConcat(cfg: Config, setup: Setup, id: Frame, s: State, run: seq<Label>, p: Pace,
                                         polls: seq<Option<Poll>>, s': State, more: seq<Label>, q: Pace,
                                         rest: seq<Option<Poll>>)
    requires IsRun(cfg, s, run) && Exchange(cfg, setup, id, s, run, p, polls)
    requires s' == After(cfg, s, run) && q == Rounds(setup, p, Given(polls))
    requires IsRun(cfg, s', more) && Exchange(cfg, setup, id, s', more, q, rest)
    ensures IsRun(cfg, s, run + more) && Exchange(cfg, setup, id, s, run + more, p, polls + rest)
    decreases |run|
  {
    if run == [] {
      assert run + more == more && polls + rest == rest && Given(polls) == [];
    } else {
      var x, o, s1, p1 := run[0], polls[0], Step(cfg, s, run[0]), Paced(setup, p, polls[0]);
      var tail, tailPolls := run[1..], polls[1..];
      assert Legal(cfg, s, x.event, x.now, x.choice) && Turn(id, s, x, p, o);
      assert q == Rounds(setup, p1, Given(tailPolls)) by { GivenHead(setup, p, polls); }
      ExchangeConcat(cfg, setup, id, s1, tail, p1, tailPolls, s', more, q, rest);
      ConcatHead(run, more);
      ConcatHead(polls, rest);
      StepMore(cfg, setup, id, s, run + more, p, polls + rest);
    }
  }

  lemma ConcatHead<T>(a: seq<T>, b: seq<T>)
    requires a != []
    ensures a + b != [] && (a + b)[0] == a[0] && (a + b)[1..] == a[1..] + b
  {
  }

  lemma {:induction false} GivenHead(setup: Setup, p: Pace, polls: seq<Option<Poll>>)
    requires polls != []
    ensures Rounds(setup, p, Given(polls)) == Rounds(setup, Paced(setup, p, polls[0]), Given(polls[1..]))
  {
    if polls[0].Some? {
      assert Given(polls)[0] == polls[0].value && Given(polls)[1..] == Given(polls[1..]);
    } else {
      assert Given(polls) == Given(polls[1..]);
    }
  }

  /** One step in front: a turn, or anything. */
  lemma {:induction false} StepMore(cfg: Config, setup: Setup, id: Frame, s: State, run: seq<Label>, p: Pace,
                                   polls: seq<Option<Poll>>)
    requires run != [] && polls != [] && Legal(cfg, s, run[0].event, run[0].now, run[0].choice)
    requires Turn(id, s, run[0], p, polls[0]) && IsRun(cfg, Step(cfg, s, run[0]), run[1..])
    requires Exchange(cfg, setup, id, Step(cfg, s, run[0]), run[1..], Paced(setup, p, polls[0]), polls[1..])
    ensures IsRun(cfg, s, run) && Exchange(cfg, setup, id, s, run, p, polls)
  {
  }

  /** The turn that is always open. */
  lemma ATurn(cfg: Config, setup: Setup, id: Frame, s: State, p: Pace, w: Id, now: nat) returns (x: Label)
    requires Sound(s.db) && Asking(setup, id, s, p, w) && Answerable(id)
    ensures Legal(cfg, s, x.event, x.now, x.choice) && Brings(id, p, x.event)
    ensures Answers(s, x, id, Arrives(0, 0, FAREWELL))
  {
    var args := [CStr(setup.service), CStr(setup.endpoint)];
    x := Label(Ready(ToText(id), args), now, Choice(Some(w), Some(w), ServiceNamed(s.db, CStr(args[0])), IDLE, IDLE));
    ReadyMessage(id, setup);
    KnownReadyTook(cfg, s, ToText(id), args, w, x.choice.service, now);
    KnownReadyDismissed(cfg, s, x);
    AnswerableExact(id);
  }

  // ---------------------------------------------------------------- identities that do not fit

  /** A worker whose textual identity is longer than its column is known to no sound table: its heartbeats and
      invalid commands change nothing, its reports release nothing and are answered with a farewell, and its
      own sign-off ends the broker. */
  lemma {:induction false} LongIdentityUnknown(cfg: Config, s: State, x: Label, sender: Frame)
    requires Sound(s.db) && |CStr(sender)| > IDENTITY_MAXLEN
    ensures IsWorker(s.db, CStr(sender), None)
    ensures CallerError(s.db, Disconnect(sender))
    ensures Found(s.db, x.event, x.choice) && x.event == Disconnect(sender) ==> Aborts(s, x.event, x.choice)
    ensures Legal(cfg, s, x.event, x.now, x.choice) && x.event == Heartbeat(sender) ==> Step(cfg, s, x) == s
    ensures Legal(cfg, s, x.event, x.now, x.choice) && x.event.Report? && x.event.sender == sender ==>
              && Step(cfg, s, x) == s
              && RepliesOf(s, x.event, x.choice, None) == [Command(sender, MDPW_DISCONNECT)]
  {
    forall w | w in s.db.workers ensures s.db.workers[w].identity != CStr(sender)
    {
      assert WorkerOk(s.db, w);
    }
    if Legal(cfg, s, x.event, x.now, x.choice) && (x.event.Heartbeat? || x.event.Report?) && x.event.sender == sender {
      UnknownWorker(cfg, s, x.event, x.choice, x.now);
    }
  }
}
