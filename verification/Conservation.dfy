/** No request is lost, duplicated or answered by the wrong worker, over any sequence of transactions. */
module Conservation {
  import opened Bytes
  import opened Protocol
  import opened Schema
  import opened System
  import opened Invariants

  /** The record agrees with the tables. */
  ghost predicate Conserved(s: State)
  {
    Partition(s) && Faithful(s) && SentOnce(s.log.sent) && SentFollowsTables(s) && TablesFollowSent(s)
  }

  /** Every accepted request is in the table or released, never both. */
  ghost predicate Partition(s: State)
  {
    && s.log.accepted.Keys == s.db.letters.Keys + s.log.released.Keys
    && s.db.letters.Keys !! s.log.released.Keys
    && (forall l :: l in s.log.accepted ==> l < s.db.next)
  }

  /** A stored letter is still the request that was accepted, for the service it named. */
  ghost predicate Faithful(s: State)
  {
    forall l :: l in s.db.letters && l in s.log.accepted ==>
      && s.db.letters[l].service == s.log.accepted[l].service
      && s.db.letters[l].origin == Bounded(s.log.accepted[l].client, IDENTITY_MAXLEN)
      && s.db.letters[l].header == s.log.accepted[l].header
      && s.db.letters[l].body == s.log.accepted[l].body
  }

  ghost predicate SentOnce(sent: seq<Delivery>)
  {
    forall i, j :: 0 <= i < j < |sent| ==> sent[i].letter != sent[j].letter
  }

  /** The worker a letter was ever given to: the one that holds it, or the one that reported on it. */
  ghost predicate Owner(s: State, l: Id, w: Id)
  {
    || (l in s.db.letters && s.db.letters[l].state == Assigned && s.db.letters[l].worker == w)
    || (l in s.log.released && s.log.released[l] == w)
  }

  /** A request message went out only for a committed assignment, to its worker, with the client's own frames. */
  ghost predicate SentFollowsTables(s: State)
  {
    forall i :: 0 <= i < |s.log.sent| ==>
      var m := s.log.sent[i];
      && Owner(s, m.letter, m.worker)
      && m.letter in s.log.accepted && m.worker in s.db.workers
      && m.frames == ExpectedFrames(s.db.workers[m.worker].identity, s.log.accepted[m.letter])
  }

  function ExpectedFrames(identity: Frame, q: Request): seq<Frame>
  {
    [identity, EMPTY_FRAME, MDPW_WORKER, MDPW_REQUEST, Bounded(q.client, IDENTITY_MAXLEN), q.header, q.body]
  }

  ghost predicate WasSent(sent: seq<Delivery>, l: Id)
  {
    exists i :: 0 <= i < |sent| && sent[i].letter == l
  }

  /** Whatever left the waiting state was sent. */
  ghost predicate TablesFollowSent(s: State)
  {
    && (forall l :: l in s.db.letters && s.db.letters[l].state == Assigned ==> WasSent(s.log.sent, l))
    && (forall l :: l in s.log.released ==> WasSent(s.log.sent, l))
  }

  lemma AssignConserves(cfg: Config, s: State, w: Id, l: Id, now: nat)
    requires Sound(s.db) && Conserved(s) && Enabled(s, Assign(w, l))
    ensures Conserved(Apply(cfg, s, Assign(w, l), now))
  {
    if !AssignCollides(s.db, w, l) {
      var s' := Apply(cfg, s, Assign(w, l), now);
      assert Given(s, s', w, l, now);
      GivenOnce(s, s', w, l, now);
      GivenFollows(s, s', w, l, now);
    }
  }

  /** The letter passes from waiting to the worker, and one message is recorded; nothing else moves. */
  ghost predicate Given(s: State, s': State, w: Id, l: Id, now: nat)
  {
    && w in s.db.workers && WaitingFor(s.db, l, s.db.workers[w].service)
    && l in s'.db.letters && s'.db.letters[l].state == Assigned && s'.db.letters[l].worker == w
    && s'.db.letters[l].(expiry := 0) == s.db.letters[l].(expiry := 0, state := Assigned, worker := w)
    && s'.db.letters == s.db.letters[l := s'.db.letters[l]]
    && s'.log == s.log.(sent := s.log.sent
         + [Delivery(l, w, RequestFrames(s.db.workers[w].identity, s.db.letters[l]), now)])
    && s'.db.next == s.db.next && s'.db.workers.Keys == s.db.workers.Keys
    && forall v :: v in s.db.workers ==> s'.db.workers[v].identity == s.db.workers[v].identity
  }

  lemma GivenOnce(s: State, s': State, w: Id, l: Id, now: nat)
    requires Conserved(s) && Given(s, s', w, l, now)
    ensures Partition(s') && Faithful(s') && SentOnce(s'.log.sent)
  {
    assert l in s.log.accepted && l !in s.log.released;
    assert forall i :: 0 <= i < |s.log.sent| ==> s.log.sent[i].letter != l by { NotSentYet(s, l); }
    assert SentOnce(s'.log.sent);
    GivenKeepsPartition(s, s', w, l, now);
  }

  lemma GivenKeepsPartition(s: State, s': State, w: Id, l: Id, now: nat)
    requires Partition(s) && Faithful(s) && Given(s, s', w, l, now)
    ensures Partition(s') && Faithful(s')
  {
    assert s'.db.letters.Keys == s.db.letters.Keys;
  }

  lemma NotSentYet(s: State, l: Id)
    requires SentFollowsTables(s) && l in s.db.letters && s.db.letters[l].state == Unassigned && l !in s.log.released
    ensures forall i :: 0 <= i < |s.log.sent| ==> s.log.sent[i].letter != l
  {
    forall i | 0 <= i < |s.log.sent| ensures s.log.sent[i].letter != l
    {
      assert Owner(s, s.log.sent[i].letter, s.log.sent[i].worker);
    }
  }

  lemma GivenFollows(s: State, s': State, w: Id, l: Id, now: nat)
    requires Conserved(s) && Given(s, s', w, l, now)
    ensures SentFollowsTables(s') && TablesFollowSent(s')
  {
    forall i | 0 <= i < |s.log.sent|
      ensures Owner(s', s.log.sent[i].letter, s.log.sent[i].worker)
    {
      assert Owner(s, s.log.sent[i].letter, s.log.sent[i].worker);
    }
    assert s'.log.sent[|s.log.sent|].letter == l;
    forall m | WasSent(s.log.sent, m) ensures WasSent(s'.log.sent, m)
    {
      var i :| 0 <= i < |s.log.sent| && s.log.sent[i].letter == m;
      assert s'.log.sent[i].letter == m;
    }
  }

  lemma ReleaseConserves(cfg: Config, s: State, w: Id, now: nat)
    requires Sound(s.db) && Conserved(s) && Enabled(s, Release(w))
    ensures Conserved(Apply(cfg, s, Release(w), now))
  {
    var l, s' := s.db.workers[w].letter, Apply(cfg, s, Release(w), now);
    if l == 0 {
      ReleaseStutters(cfg, s, w, now);
    } else {
      assert Moved(s, s', w, l) by {
        HeldByReference(s.db, w);
        assert WorkerOk(s.db, w);
        ReleaseEffect(cfg, s, w, l, now);
      }
      assert SentOnce(s'.log.sent);
      ReleaseKeepsPartition(s, s', w, l);
      ReleaseKeepsOwners(s, s', w, l);
    }
  }

  /** A report from a worker that holds no letter changes nothing. */
  lemma ReleaseStutters(cfg: Config, s: State, w: Id, now: nat)
    requires Sound(s.db) && w in s.db.workers && s.db.workers[w].letter == 0
    ensures Apply(cfg, s, Release(w), now) == s
  {
    HeldByReference(s.db, w);
    var none: map<Id, Id> := map l | l in HeldBy(s.db, w) :: w;
    assert none == map[] && s.log.released + none == s.log.released;
  }

  /** The letter moves from the table to the released ones, under the name of its worker; nothing else moves. */
  ghost predicate Moved(s: State, s': State, w: Id, l: Id)
  {
    && l in s.db.letters && s.db.letters[l].state == Assigned && s.db.letters[l].worker == w
    && s'.db.letters == s.db.letters - {l}
    && s'.log == s.log.(released := s.log.released[l := w])
    && s'.db.next == s.db.next && s'.db.workers.Keys == s.db.workers.Keys
    && forall v :: v in s.db.workers ==> s'.db.workers[v].identity == s.db.workers[v].identity
  }

  lemma ReleaseEffect(cfg: Config, s: State, w: Id, l: Id, now: nat)
    requires w in s.db.workers && HeldBy(s.db, w) == {l} && Enabled(s, Release(w))
    requires l in s.db.letters && s.db.letters[l].state == Assigned
    ensures Moved(s, Apply(cfg, s, Release(w), now), w, l)
  {
    assert l in HeldBy(s.db, w);
    assert (map m | m in HeldBy(s.db, w) :: w) == map[l := w];
    assert s.log.released + map[l := w] == s.log.released[l := w];
  }

  lemma ReleaseKeepsPartition(s: State, s': State, w: Id, l: Id)
    requires Partition(s) && Faithful(s) && TablesFollowSent(s) && Moved(s, s', w, l)
    ensures Partition(s') && Faithful(s') && TablesFollowSent(s')
  {
    assert s'.db.letters.Keys == s.db.letters.Keys - {l};
    assert s'.log.released.Keys == s.log.released.Keys + {l};
  }

  lemma ReleaseKeepsOwners(s: State, s': State, w: Id, l: Id)
    requires SentFollowsTables(s) && Partition(s) && Moved(s, s', w, l)
    ensures SentFollowsTables(s')
  {
    forall i | 0 <= i < |s.log.sent|
      ensures Owner(s', s.log.sent[i].letter, s.log.sent[i].worker)
    {
      assert Owner(s, s.log.sent[i].letter, s.log.sent[i].worker);
    }
  }

  lemma EnqueueConserves(cfg: Config, s: State, q: Request, now: nat)
    requires Sound(s.db) && Conserved(s) && Enabled(s, Enqueue(q))
    ensures Conserved(Apply(cfg, s, Enqueue(q), now))
  {
    var s' := Apply(cfg, s, Enqueue(q), now);
    forall i | 0 <= i < |s.log.sent|
      ensures Owner(s', s.log.sent[i].letter, s.log.sent[i].worker)
    {
      assert Owner(s, s.log.sent[i].letter, s.log.sent[i].worker);
    }
  }

  /** The other transactions touch neither letters nor their record. */
  lemma OthersConserve(cfg: Config, s: State, a: Action, now: nat)
    requires Sound(s.db) && Conserved(s) && !a.Assign? && !a.Release? && !a.Enqueue?
    ensures Conserved(Apply(cfg, s, a, now))
  {
    OthersLeaveLetters(cfg, s, a, now);
    LettersLeftConserve(s, Apply(cfg, s, a, now));
  }

  ghost predicate LettersLeft(s: State, s': State)
  {
    && s'.db.letters == s.db.letters && s'.log == s.log.(seen := s'.log.seen) && s'.db.next >= s.db.next
    && forall w :: w in s.db.workers ==> w in s'.db.workers && s'.db.workers[w].identity == s.db.workers[w].identity
  }

  lemma OthersLeaveLetters(cfg: Config, s: State, a: Action, now: nat)
    requires s.db.next !in s.db.workers && !a.Assign? && !a.Release? && !a.Enqueue?
    ensures LettersLeft(s, Apply(cfg, s, a, now))
  {
  }

  lemma LettersLeftConserve(s: State, s': State)
    requires Conserved(s) && LettersLeft(s, s')
    ensures Conserved(s')
  {
    forall i | 0 <= i < |s.log.sent|
      ensures Owner(s', s.log.sent[i].letter, s.log.sent[i].worker)
    {
      assert Owner(s, s.log.sent[i].letter, s.log.sent[i].worker);
    }
  }

  lemma ApplyConserves(cfg: Config, s: State, a: Action, now: nat)
    requires Sound(s.db) && Conserved(s)
    ensures Conserved(Apply(cfg, s, a, now))
  {
    if Enabled(s, a) {
      match a
      case Assign(w, l) => AssignConserves(cfg, s, w, l, now);
      case Release(w) => ReleaseConserves(cfg, s, w, now);
      case Enqueue(q) => EnqueueConserves(cfg, s, q, now);
      case _ => OthersConserve(cfg, s, a, now);
    }
  }

  lemma {:induction false} TraceConserves(cfg: Config, s: State, t: seq<Action>, now: nat)
    requires Sound(s.db) && Conserved(s)
    ensures Sound(ApplyAll(cfg, s, t, now).db) && Conserved(ApplyAll(cfg, s, t, now))
    decreases |t|
  {
    if t != [] {
      ApplyKeepsSound(cfg, s, t[0], now);
      ApplyConserves(cfg, s, t[0], now);
      TraceConserves(cfg, Apply(cfg, s, t[0], now), t[1..], now);
    }
  }
}
