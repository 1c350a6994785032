/** What keeps a worker from registering again: every message that arrives, and every heartbeat it sends. */
module Lives {
  import opened Bytes
  import opened WorkerApi

  // ---------------------------------------------------------------- one round

  /** Any message of the broker, a request or not, gives all lives back and puts the next heartbeat a whole period
      off; DISCONNECT, and nothing else that arrives, is answered with READY. */
  lemma MessageRevives(setup: Setup, p: Pace, after: nat, cost: nat, wire: seq<Frame>)
    requires Acceptable(wire)
    ensures var q := Round(setup, p, Arrives(after, cost, wire));
            && q.clock == p.clock + after + cost
            && q.liveness == setup.fullLiveness && q.heartbeatAt == q.clock + setup.heartbeatMsec
            && q.sent == (if wire[2] == [5] then p.sent + [Sent(q.clock, ReadyWire(setup))] else p.sent)
  {
  }

  /** Silence for a poll costs a life. With the last one the worker pauses and registers again; otherwise it sends a
      heartbeat, which gives all lives back, exactly when one is due. */
  lemma SilenceCosts(setup: Setup, p: Pace, cost: nat)
    requires p.liveness >= 1
    ensures var q := Round(setup, p, Timeout(cost));
            if p.liveness == 1 then
              && q.clock == p.clock + setup.heartbeatMsec + cost + setup.reconnectMsec
              && q.sent == p.sent + [Sent(q.clock, ReadyWire(setup))]
              && q.liveness == setup.fullLiveness && q.heartbeatAt == q.clock + setup.heartbeatMsec
            else
              && q.clock == p.clock + setup.heartbeatMsec + cost
              && if q.clock > p.heartbeatAt
                 then && q.sent == p.sent + [Sent(q.clock, HEARTBEAT_WIRE)]
                      && q.liveness == setup.fullLiveness && q.heartbeatAt == q.clock + setup.heartbeatMsec
                 else q.sent == p.sent && q.liveness == p.liveness - 1 && q.heartbeatAt == p.heartbeatAt
  {
  }

  // ---------------------------------------------------------------- any number of rounds

  /** `n` polls in a row give nothing. */
  ghost predicate InARow(polls: seq<Poll>, n: nat)
  {
    exists i: nat :: Silent(polls, i, n)
  }

  predicate Silent(polls: seq<Poll>, i: nat, n: nat)
  {
    i + n <= |polls| && forall k :: i <= k < i + n ==> polls[k].Timeout?
  }

  function Farewells(polls: seq<Poll>): nat
  {
    if polls == [] then 0
    else Farewells(polls[..|polls| - 1]) + (if Says(polls[|polls| - 1], [5]) then 1 else 0)
  }

  function Readies(setup: Setup, sent: seq<Sent>): nat
  {
    if sent == [] then 0
    else Readies(setup, sent[..|sent| - 1]) + (if sent[|sent| - 1].wire == ReadyWire(setup) then 1 else 0)
  }

  /** How many of the latest polls gave nothing. */
  function Silence(polls: seq<Poll>): (n: nat)
    ensures n <= |polls| && Silent(polls, |polls| - n, n)
  {
    if polls == [] || polls[|polls| - 1].Arrives? then 0 else Silence(polls[..|polls| - 1]) + 1
  }

  /** Unless as many polls in a row as there are lives give nothing, whatever else arrives and whatever it costs, the
      worker registers again once for each DISCONNECT and never besides. */
  lemma {:induction false} RegistersOnlyWhenTold(setup: Setup, p: Pace, polls: seq<Poll>)
    requires p.liveness == setup.fullLiveness && !InARow(polls, setup.fullLiveness)
    requires forall i :: 0 <= i < |polls| && polls[i].Arrives? ==> Acceptable(polls[i].wire)
    ensures var q := Rounds(setup, p, polls);
            && Readies(setup, q.sent) == Readies(setup, p.sent) + Farewells(polls)
            && q.liveness + Silence(polls) >= setup.fullLiveness > Silence(polls)
    decreases |polls|
  {
    SilenceIsShort(polls, setup.fullLiveness);
    if polls != [] {
      var init, last := polls[..|polls| - 1], polls[|polls| - 1];
      assert polls == init + [last];
      NoLongerRow(init, last, setup.fullLiveness);
      RegistersOnlyWhenTold(setup, p, init);
      RoundsSnoc(setup, p, init, last);
      LastRound(setup, Rounds(setup, p, init), last);
    }
  }

  lemma {:induction false} LastRound(setup: Setup, p: Pace, poll: Poll)
    requires poll.Arrives? ==> Acceptable(poll.wire)
    requires poll.Timeout? ==> p.liveness >= 2
    ensures var q := Round(setup, p, poll);
            && Readies(setup, q.sent) == Readies(setup, p.sent) + (if Says(poll, [5]) then 1 else 0)
            && (if poll.Arrives? then q.liveness == setup.fullLiveness
                else q.liveness == setup.fullLiveness || q.liveness == p.liveness - 1)
  {
    ReadiesSnoc(setup, p.sent, Sent(Round(setup, p, poll).clock, ReadyWire(setup)));
    ReadiesSnoc(setup, p.sent, Sent(Round(setup, p, poll).clock, HEARTBEAT_WIRE));
    assert ReadyWire(setup)[2] != HEARTBEAT_WIRE[2];
  }

  lemma {:induction false} ReadiesSnoc(setup: Setup, sent: seq<Sent>, m: Sent)
    ensures Readies(setup, sent + [m]) == Readies(setup, sent) + if m.wire == ReadyWire(setup) then 1 else 0
  {
    assert (sent + [m])[..|sent|] == sent;
  }

  lemma {:induction false} SilenceIsShort(polls: seq<Poll>, n: nat)
    requires !InARow(polls, n)
    ensures Silence(polls) < n
  {
    if Silence(polls) >= n {
      assert Silent(polls, |polls| - n, n);
    }
  }

  lemma NoLongerRow(init: seq<Poll>, last: Poll, n: nat)
    requires !InARow(init + [last], n)
    ensures !InARow(init, n)
  {
    if InARow(init, n) {
      var i: nat :| Silent(init, i, n);
      assert Silent(init + [last], i, n);
    }
  }
}
