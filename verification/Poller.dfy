/** The subscription poller: find groups with changed points, publish each group, and only then clear the flags. */
module Poller {
  import opened Bytes

  type Tag = Frame
  type Name = Frame

  /** The real-time base as far as subscriptions go. A value stands for all attributes of a point. */
  datatype Base = Base(values: map<Tag, Frame>, modified: set<Tag>, groups: map<Name, set<Tag>>, enabled: set<Name>)

  predicate Consistent(b: Base)
  {
    && b.modified <= b.values.Keys && b.enabled <= b.groups.Keys
    && forall g :: g in b.groups ==> b.groups[g] <= b.values.Keys
  }

  /** How the reading and publishing of one group turns out, and what others write just before its reading. */
  datatype Turn = Turn(writes: seq<Update>, found: bool, unreadable: set<Tag>, sent: bool)

  datatype Publication = Publication(group: Name, points: map<Tag, Frame>)

  datatype Update = Update(point: Tag, value: Frame)

  function Updated(b: Base, u: Update): Base
  {
    if u.point in b.values then b.(values := b.values[u.point := u.value], modified := b.modified + {u.point}) else b
  }

  function AllUpdated(b: Base, us: seq<Update>): Base
    decreases |us|
  {
    if us == [] then b else AllUpdated(Updated(b, us[0]), us[1..])
  }

  // ---------------------------------------------------------------- one round

  function ArmedGroups(b: Base): set<Name>
  {
    set g | g in b.enabled && g in b.groups && b.groups[g] * b.modified != {}
  }

  function ArmedPoints(b: Base, g: Name, unreadable: set<Tag>): map<Tag, Frame>
    requires g in b.groups
  {
    map p | p in b.groups[g] && p in b.modified && p !in unreadable && p in b.values :: b.values[p]
  }

  predicate Sends(turns: map<Name, Turn>, g: Name) { g in turns && turns[g].found && turns[g].sent }

  function WritesBefore(turns: map<Name, Turn>, g: Name): seq<Update> { if g in turns then turns[g].writes else [] }

  function Publications(b: Base, turns: map<Name, Turn>, order: seq<Name>): seq<Publication>
    decreases |order|
  {
    if order == [] then []
    else
      var b1 := AllUpdated(b, WritesBefore(turns, order[0]));
      PublicationOf(b1, turns, order[0]) + Publications(b1, turns, order[1..])
  }

  /** One message for a group that is read and sent, else none. */
  function PublicationOf(b: Base, turns: map<Name, Turn>, g: Name): (m: seq<Publication>)
    ensures |m| <= 1
  {
    if Sends(turns, g) && g in b.groups then [Publication(g, ArmedPoints(b, g, turns[g].unreadable))] else []
  }

  /** The base when all groups have been read. */
  function Meanwhile(b: Base, turns: map<Name, Turn>, order: seq<Name>): Base
    decreases |order|
  {
    if order == [] then b else Meanwhile(AllUpdated(b, WritesBefore(turns, order[0])), turns, order[1..])
  }

  function Tags(pubs: seq<Publication>): set<Tag>
    decreases |pubs|
  {
    if pubs == [] then {} else pubs[0].points.Keys + Tags(pubs[1..])
  }

  /** The base at the end of a round, before the flags are cleared; `late` are writes that fall between the last
      reading and the clearing. */
  function Written(b: Base, turns: map<Name, Turn>, order: seq<Name>, late: seq<Update>): Base
  {
    AllUpdated(Meanwhile(b, turns, order), late)
  }

  /** The base after a round whose groups came in this order. */
  function Polled(b: Base, turns: map<Name, Turn>, order: seq<Name>, late: seq<Update>): Base
  {
    var b' := Written(b, turns, order, late);
    b'.(modified := b'.modified - Tags(Publications(b, turns, order)))
  }

  /** The armed groups in some order, each once. */
  predicate IsOrder(b: Base, order: seq<Name>)
  {
    && (forall i, j :: 0 <= i < j < |order| ==> order[i] != order[j])
    && (set g | g in order) == ArmedGroups(b)
  }

  // ---------------------------------------------------------------- the program

  class Rtdb {
    var values: map<Tag, Frame>
    var modified: set<Tag>
    const groups: map<Name, set<Tag>>
    const enabled: set<Name>

    constructor (b: Base)
      ensures State() == b
    {
      values, modified, groups, enabled := b.values, b.modified, b.groups, b.enabled;
    }

    ghost function State(): Base
      reads this
    {
      Base(values, modified, groups, enabled)
    }

    method Write(point: Tag, value: Frame) returns (ok: bool)
      modifies this`values, this`modified
      ensures State() == Updated(old(State()), Update(point, value)) && ok == (point in old(values))
    {
      if point !in values {
        return false;
      }
      values := values[point := value];
      modified := modified + {point};
      return true;
    }

    /** What others do to the base meanwhile. */
    method WriteAll(us: seq<Update>)
      modifies this`values, this`modified
      ensures State() == AllUpdated(old(State()), us)
    {
      var i := 0;
      while i < |us|
        invariant 0 <= i <= |us| && AllUpdated(State(), us[i..]) == AllUpdated(old(State()), us)
      {
        var _ := Write(us[i].point, us[i].value);
        i := i + 1;
      }
    }

    /** Goes from every changed point to the groups it is in, and keeps the enabled ones. */
    method QueryArmedGroups() returns (found: set<Name>)
      requires Consistent(State())
      ensures found == ArmedGroups(State())
    {
      found := {};
      var points := modified;
      while points != {}
        invariant points <= modified
        invariant found == set g | g in enabled && g in groups && groups[g] * (modified - points) != {}
        decreases points
      {
        var p :| p in points;
        var more := set g | g in groups && p in groups[g] && g in enabled;
        forall g | g in enabled && g in groups
          ensures groups[g] * (modified - (points - {p})) != {} <==> groups[g] * (modified - points) != {} || g in more
        {
          assert modified - (points - {p}) == modified - points + {p};
          if g in more {
            assert p in groups[g] * (modified - (points - {p}));
          }
          assert groups[g] * (modified - (points - {p})) == groups[g] * (modified - points) + groups[g] * {p};
        }
        found := found + more;
        points := points - {p};
      }
      assert modified - points == modified;
    }

    /** Goes over all changed points and keeps the group's; one that cannot be read is left out. */
    method QueryReadPoints(g: Name, unreadable: set<Tag>) returns (list: map<Tag, Frame>)
      requires Consistent(State()) && g in groups
      ensures list == ArmedPoints(State(), g, unreadable)
    {
      list := map[];
      var points := modified;
      while points != {}
        invariant points <= modified
        invariant list == map p | p in groups[g] && p in modified - points && p !in unreadable && p in values ::
                    values[p]
        decreases points
      {
        var p :| p in points;
        if p in groups[g] && p !in unreadable {
          list := list[p := values[p]];
        }
        points := points - {p};
      }
      assert modified - points == modified;
    }

    method QueryDisarmByList(tags: set<Tag>)
      modifies this`modified
      ensures modified == old(modified) - tags
    {
      var rest := tags;
      while rest != {}
        invariant rest <= tags && modified == old(modified) - (tags - rest)
        decreases rest
      {
        var p :| p in rest;
        assert tags - (rest - {p}) == tags - rest + {p};
        modified := modified - {p};
        rest := rest - {p};
      }
      assert tags - rest == tags;
    }
  }

  class DiggerPoller {
    const db: Rtdb
    var published: seq<Publication>

    constructor (db: Rtdb)
      ensures this.db == db && published == []
    {
      this.db, published := db, [];
    }

    /** One pass of the loop. What happens elsewhere meanwhile is in `turns` and `late`. */
    method Poll(turns: map<Name, Turn>, late: seq<Update>) returns (ghost order: seq<Name>)
      requires Consistent(db.State())
      modifies this`published, db
      ensures IsOrder(old(db.State()), order)
      ensures published == old(published) + Publications(old(db.State()), turns, order)
      ensures db.State() == Polled(old(db.State()), turns, order, late)
    {
      ghost var b := db.State();
      var clear: set<Tag> := {};
      var sbs := db.QueryArmedGroups();
      order := [];
      ghost var pubs := [];
      while sbs != {}
        invariant Halfway(b, turns, order, sbs, pubs, clear, db.State())
        invariant published == old(published) + pubs
        decreases sbs
      {
        var g :| g in sbs;
        HalfwayOn(b, turns, order, sbs, pubs, clear, db.State(), g);
        var list, sent := Take(g, if g in turns then turns[g] else Turn([], false, {}, false));
        if sent {
          published := published + [Publication(g, list)];
          pubs := pubs + [Publication(g, list)];
          clear := clear + list.Keys;
        }
        order := order + [g];
        sbs := sbs - {g};
      }
      db.WriteAll(late);
      db.QueryDisarmByList(clear);
    }

    /** Reads one group and tries to publish it. */
    method Take(g: Name, turn: Turn) returns (list: map<Tag, Frame>, sent: bool)
      requires Consistent(AllUpdated(db.State(), turn.writes)) && g in db.groups
      modifies db
      ensures db.State() == AllUpdated(old(db.State()), turn.writes)
      ensures sent == (turn.found && turn.sent)
      ensures sent ==> list == ArmedPoints(db.State(), g, turn.unreadable)
    {
      db.WriteAll(turn.writes);
      list := map[];
      if turn.found {
        list := db.QueryReadPoints(g, turn.unreadable);
      }
      sent := turn.found && turn.sent;
    }
  }

  /** Some groups are done and `sbs` are left. */
  ghost predicate Halfway(b: Base, turns: map<Name, Turn>, order: seq<Name>, sbs: set<Name>,
                          pubs: seq<Publication>, clear: set<Tag>, now: Base)
  {
    && now == Meanwhile(b, turns, order) && Consistent(b) && KeepsFlags(b, now)
    && sbs <= ArmedGroups(b) && (set g | g in order) == ArmedGroups(b) - sbs
    && (forall i, j :: 0 <= i < j < |order| ==> order[i] != order[j])
    && pubs == Publications(b, turns, order) && clear == Tags(pubs)
  }

  lemma {:induction false} HalfwayOn(b: Base, turns: map<Name, Turn>, order: seq<Name>, sbs: set<Name>,
                  pubs: seq<Publication>, clear: set<Tag>, now: Base, g: Name)
    requires Halfway(b, turns, order, sbs, pubs, clear, now) && g in sbs
    ensures var now' := AllUpdated(now, WritesBefore(turns, g));
            && g in now'.groups && KeepsFlags(now, now')
            && if Sends(turns, g)
               then var m := Publication(g, ArmedPoints(now', g, turns[g].unreadable));
                    Halfway(b, turns, order + [g], sbs - {g}, pubs + [m], clear + m.points.Keys, now')
               else Halfway(b, turns, order + [g], sbs - {g}, pubs, clear, now')
  {
    OneMore(b, turns, order, g);
    ReadingKeepsFlags(b, turns, order + [g]);
    UpdatesKeepFlags(now, WritesBefore(turns, g));
    assert (set h | h in order + [g]) == (set h | h in order) + {g};
    var now' := AllUpdated(now, WritesBefore(turns, g));
    if Sends(turns, g) {
      TagsOneMore(pubs, Publication(g, ArmedPoints(now', g, turns[g].unreadable)));
    }
  }

  /** One more group at the end. */
  lemma {:induction false} OneMore(b: Base, turns: map<Name, Turn>, order: seq<Name>, g: Name)
    ensures Meanwhile(b, turns, order + [g]) == AllUpdated(Meanwhile(b, turns, order), WritesBefore(turns, g))
    ensures Publications(b, turns, order + [g]) ==
            Publications(b, turns, order) + PublicationOf(Meanwhile(b, turns, order + [g]), turns, g)
    decreases |order|
  {
    if order == [] {
      assert order + [g] == [g] && [g][1..] == [];
    } else {
      assert (order + [g])[1..] == order[1..] + [g] && (order + [g])[0] == order[0];
      OneMore(AllUpdated(b, WritesBefore(turns, order[0])), turns, order[1..], g);
    }
  }

  lemma {:induction false} ReadingKeepsFlags(b: Base, turns: map<Name, Turn>, order: seq<Name>)
    requires Consistent(b)
    ensures KeepsFlags(b, Meanwhile(b, turns, order))
    decreases |order|
  {
    if order != [] {
      UpdatesKeepFlags(b, WritesBefore(turns, order[0]));
      ReadingKeepsFlags(AllUpdated(b, WritesBefore(turns, order[0])), turns, order[1..]);
    }
  }

  /** Writes only: flags stay, and without a flag so does the value. */
  ghost predicate KeepsFlags(b: Base, b': Base)
  {
    && Consistent(b') && b.modified <= b'.modified && b'.groups == b.groups && b'.enabled == b.enabled
    && b'.values.Keys == b.values.Keys
    && forall p :: p in b.values && p !in b'.modified ==> b'.values[p] == b.values[p]
  }

  lemma {:induction false} UpdatesKeepFlags(b: Base, us: seq<Update>)
    requires Consistent(b)
    ensures KeepsFlags(b, AllUpdated(b, us))
    decreases |us|
  {
    if us != [] {
      UpdatesKeepFlags(Updated(b, us[0]), us[1..]);
    }
  }

  lemma RoundKeepsFlags(b: Base, turns: map<Name, Turn>, order: seq<Name>, late: seq<Update>)
    requires Consistent(b)
    ensures KeepsFlags(b, Written(b, turns, order, late))
  {
    ReadingKeepsFlags(b, turns, order);
    UpdatesKeepFlags(Meanwhile(b, turns, order), late);
  }

  lemma {:induction false} TagsOneMore(pubs: seq<Publication>, m: Publication)
    ensures Tags(pubs + [m]) == Tags(pubs) + m.points.Keys
    decreases |pubs|
  {
    if pubs == [] {
      assert pubs + [m] == [m] && [m][1..] == [];
    } else {
      assert (pubs + [m])[1..] == pubs[1..] + [m];
      TagsOneMore(pubs[1..], m);
    }
  }

  // ---------------------------------------------------------------- what a round publishes

  predicate Carries(pubs: seq<Publication>, g: Name, p: Tag)
  {
    exists i :: 0 <= i < |pubs| && pubs[i].group == g && p in pubs[i].points
  }

  lemma {:induction false} TagsExactly(pubs: seq<Publication>, p: Tag)
    ensures p in Tags(pubs) <==> exists i :: 0 <= i < |pubs| && p in pubs[i].points
    decreases |pubs|
  {
    if pubs != [] {
      TagsExactly(pubs[1..], p);
      if i :| 0 <= i < |pubs| && p in pubs[i].points && i > 0 {
        assert pubs[1..][i - 1] == pubs[i];
      }
      if j :| 0 <= j < |pubs[1..]| && p in pubs[1..][j].points {
        assert pubs[j + 1] == pubs[1..][j];
      }
    }
  }

  /** A point that is flagged when the round starts is in a group's publication exactly when that group has its
      turn, is read and sent, and the point can be read. */
  lemma {:induction false} PublicationsExactly(b: Base, turns: map<Name, Turn>, order: seq<Name>, g: Name, p: Tag)
    requires Consistent(b) && p in b.modified
    ensures Carries(Publications(b, turns, order), g, p) <==>
              g in order && Sends(turns, g) && g in b.groups && p in b.groups[g] && p !in turns[g].unreadable
    decreases |order|
  {
    if order != [] {
      var b1 := AllUpdated(b, WritesBefore(turns, order[0]));
      UpdatesKeepFlags(b, WritesBefore(turns, order[0]));
      PublicationsExactly(b1, turns, order[1..], g, p);
      CarriesEither(PublicationOf(b1, turns, order[0]), Publications(b1, turns, order[1..]), g, p);
      assert g in order <==> g == order[0] || g in order[1..];
    }
  }

  lemma CarriesEither(a: seq<Publication>, b: seq<Publication>, g: Name, p: Tag)
    requires |a| <= 1
    ensures Carries(a + b, g, p) <==> (a != [] && a[0].group == g && p in a[0].points) || Carries(b, g, p)
  {
    if a != [] && a[0].group == g && p in a[0].points {
      assert (a + b)[0] == a[0];
    }
    if i :| 0 <= i < |b| && b[i].group == g && p in b[i].points {
      assert (a + b)[|a| + i] == b[i];
    }
  }

  /** A flag is cleared by a round exactly when the point was in a publication of it, writes in between or not. */
  lemma {:induction false} ClearedExactly(b: Base, turns: map<Name, Turn>, order: seq<Name>, late: seq<Update>, p: Tag)
    requires Consistent(b) && p in b.modified
    ensures var pubs := Publications(b, turns, order);
            p !in Polled(b, turns, order, late).modified <==> exists g :: Carries(pubs, g, p)
  {
    var pubs := Publications(b, turns, order);
    TagsExactly(pubs, p);
    RoundKeepsFlags(b, turns, order, late);
    forall i | 0 <= i < |pubs| && p in pubs[i].points ensures exists g :: Carries(pubs, g, p)
    {
      assert Carries(pubs, pubs[i].group, p);
    }
  }

  lemma ArmedIsOrdered(b: Base, order: seq<Name>, g: Name, p: Tag)
    requires Consistent(b) && IsOrder(b, order) && g in b.enabled && p in b.groups[g] && p in b.modified
    ensures g in order && p in b.groups[g] * b.modified
    ensures g in ArmedGroups(b)
  {
    assert p in b.groups[g] * b.modified;
    assert g in ArmedGroups(b);
  }

  /** The group is read, its point too, and published. */
  predicate Gets(b: Base, turns: map<Name, Turn>, g: Name, p: Tag)
  {
    g in b.enabled && g in b.groups && p in b.groups[g] && Sends(turns, g) && p !in turns[g].unreadable
  }

  /** A group misses the change of one of its points, flag cleared all the same, exactly when its own turn failed
      for the point and some other group's did not. */
  lemma {:induction false} MissedExactly(b: Base, turns: map<Name, Turn>, order: seq<Name>, late: seq<Update>, g: Name,
                                         p: Tag)
    requires Consistent(b) && IsOrder(b, order) && g in b.enabled && p in b.groups[g] && p in b.modified
    ensures Carries(Publications(b, turns, order), g, p) <==> Gets(b, turns, g, p)
    ensures (p !in Polled(b, turns, order, late).modified && !Carries(Publications(b, turns, order), g, p)) <==>
            (!Gets(b, turns, g, p) && exists h :: Gets(b, turns, h, p))
  {
    var pubs := Publications(b, turns, order);
    ClearedExactly(b, turns, order, late, p);
    forall h | h in b.enabled && p in b.groups[h]
      ensures Carries(pubs, h, p) <==> Gets(b, turns, h, p)
    {
      ArmedIsOrdered(b, order, h, p);
      PublicationsExactly(b, turns, order, h, p);
    }
    forall h | Carries(pubs, h, p) ensures Gets(b, turns, h, p)
    {
      PublicationsExactly(b, turns, order, h, p);
      assert h in ArmedGroups(b);
    }
  }

  predicate AllSucceed(b: Base, turns: map<Name, Turn>)
  {
    forall g :: g in ArmedGroups(b) ==> Sends(turns, g) && turns[g].unreadable == {}
  }

  /** Nobody writes between the readings. */
  predicate Quiet(turns: map<Name, Turn>) { forall g :: g in turns ==> turns[g].writes == [] }

  /** Whatever is published is the base's value. */
  predicate Current(pubs: seq<Publication>, b: Base)
  {
    forall m, p :: m in pubs && p in m.points ==> p in b.values && m.points[p] == b.values[p]
  }

  lemma {:induction false} QuietRound(b: Base, turns: map<Name, Turn>, order: seq<Name>)
    requires Quiet(turns) && Consistent(b)
    ensures Meanwhile(b, turns, order) == b
    ensures Current(Publications(b, turns, order), b)
    decreases |order|
  {
    if order != [] {
      QuietRound(b, turns, order[1..]);
      assert Publications(b, turns, order) == PublicationOf(b, turns, order[0]) + Publications(b, turns, order[1..]);
    }
  }

  /** In a round where every group is read and published, every point flagged at its start reaches every enabled
      group that contains it, whatever is written meanwhile, and stays flagged only if there is no such group. If
      nothing is written, it is the current value that reaches them. */
  lemma {:induction false} FullRound(b: Base, turns: map<Name, Turn>, order: seq<Name>, late: seq<Update>, p: Tag)
    requires Consistent(b) && IsOrder(b, order) && AllSucceed(b, turns) && p in b.modified
    ensures var pubs := Publications(b, turns, order);
            && (forall g :: g in b.enabled && p in b.groups[g] ==> Carries(pubs, g, p))
            && (p in Polled(b, turns, order, late).modified <==> forall g :: g in b.enabled ==> p !in b.groups[g])
            && (Quiet(turns) ==> Current(pubs, b))
  {
    var pubs := Publications(b, turns, order);
    ClearedExactly(b, turns, order, late, p);
    forall g | g in b.enabled && p in b.groups[g] ensures Carries(pubs, g, p)
    {
      ArmedIsOrdered(b, order, g, p);
      PublicationsExactly(b, turns, order, g, p);
    }
    forall g | Carries(pubs, g, p) ensures g in b.enabled && p in b.groups[g]
    {
      PublicationsExactly(b, turns, order, g, p);
      assert g in ArmedGroups(b);
    }
    if Quiet(turns) {
      QuietRound(b, turns, order);
    }
  }

  // ---------------------------------------------------------------- runs

  datatype Step = Write(update: Update) | Round(turns: map<Name, Turn>, order: seq<Name>, late: seq<Update>)

  /** The base and all publications so far. */
  datatype World = World(base: Base, history: seq<Publication>)

  function Next(w: World, x: Step): World
  {
    match x
    case Write(u) => w.(base := Updated(w.base, u))
    case Round(turns, order, late) =>
      World(Polled(w.base, turns, order, late), w.history + Publications(w.base, turns, order))
  }

  function AfterAll(w: World, run: seq<Step>): World
    decreases |run|
  {
    if run == [] then w else AfterAll(Next(w, run[0]), run[1..])
  }

  /** The latest publication of the point carries this value. */
  predicate LatestIs(history: seq<Publication>, p: Tag, value: Frame)
  {
    exists i :: 0 <= i < |history| && p in history[i].points && history[i].points[p] == value
                && forall j :: i < j < |history| ==> p !in history[j].points
  }

  /** No change is lost: a point is flagged, or the latest value published of it is its current one, or it still
      has the value it started with and was never published. */
  ghost predicate NothingLost(start: Base, w: World)
  {
    forall p :: p in w.base.values && p !in w.base.modified ==>
      LatestIs(w.history, p, w.base.values[p]) || Untouched(start, w, p)
  }

  predicate Untouched(start: Base, w: World, p: Tag)
  {
    && p in start.values && p in w.base.values && w.base.values[p] == start.values[p]
    && forall i :: 0 <= i < |w.history| ==> p !in w.history[i].points
  }

  /** The value in the last of these publications that holds the point. */
  function LastValue(pubs: seq<Publication>, p: Tag): Frame
    requires p in Tags(pubs)
    decreases |pubs|
  {
    if p in Tags(pubs[1..]) then LastValue(pubs[1..], p) else pubs[0].points[p]
  }

  lemma {:induction false} LatestAfter(history: seq<Publication>, pubs: seq<Publication>, p: Tag, value: Frame)
    requires if p in Tags(pubs) then LastValue(pubs, p) == value else LatestIs(history, p, value)
    ensures LatestIs(history + pubs, p, value)
    decreases |pubs|
  {
    if pubs == [] {
      assert history + pubs == history;
    } else {
      var more := history + [pubs[0]];
      assert more + pubs[1..] == history + pubs;
      if p !in Tags(pubs[1..]) {
        if p in pubs[0].points {
          assert more[|history|] == pubs[0];
          assert LatestIs(more, p, value);
        } else {
          LatestStays(history, pubs[0], p, value);
        }
      }
      LatestAfter(more, pubs[1..], p, value);
    }
  }

  lemma LatestStays(history: seq<Publication>, m: Publication, p: Tag, value: Frame)
    requires LatestIs(history, p, value) && p !in m.points
    ensures LatestIs(history + [m], p, value)
  {
    var i :| 0 <= i < |history| && p in history[i].points && history[i].points[p] == value
             && forall j :: i < j < |history| ==> p !in history[j].points;
    assert (history + [m])[i] == history[i];
  }

  // ---------------------------------------------------------------- writes that come too late

  /** The writes that fall into the turns of these groups, in time order. */
  function WritesIn(turns: map<Name, Turn>, order: seq<Name>): seq<Update>
  {
    if order == [] then [] else WritesBefore(turns, order[0]) + WritesIn(turns, order[1..])
  }

  predicate Touches(us: seq<Update>, p: Tag) { exists i :: 0 <= i < |us| && us[i].point == p }

  /** The last of these writes to the point leaves it with another value than `v`. */
  predicate Overwrites(us: seq<Update>, p: Tag, v: Frame)
  {
    exists i :: 0 <= i < |us| && us[i].point == p && us[i].value != v && forall j :: i < j < |us| ==> us[j].point != p
  }

  /** The value these writes leave the point with. */
  function FinalValue(us: seq<Update>, p: Tag, v: Frame): Frame
    decreases |us|
  {
    if us == [] then v else FinalValue(us[1..], p, if us[0].point == p then us[0].value else v)
  }

  /** The k-th group is read and sent with the point in it, flagged by then. */
  predicate ReadsPoint(b: Base, turns: map<Name, Turn>, order: seq<Name>, k: nat, p: Tag)
    requires k < |order|
  {
    && Sends(turns, order[k]) && order[k] in b.groups && p in b.groups[order[k]] && p !in turns[order[k]].unreadable
    && p in b.values && (p in b.modified || Touches(WritesIn(turns, order[..k + 1]), p))
  }

  predicate LastReads(b: Base, turns: map<Name, Turn>, order: seq<Name>, k: nat, p: Tag)
    requires k < |order|
  {
    ReadsPoint(b, turns, order, k, p) && forall j :: k < j < |order| ==> !ReadsPoint(b, turns, order, j, p)
  }

  /** A write in a later turn, or between the last turn and the clearing, leaves the point with another value than it
      had when the last group took it. */
  ghost predicate Overtaken(w: World, x: Step, p: Tag)
    requires x.Round?
  {
    exists k: nat :: k < |x.order| && LastReads(w.base, x.turns, x.order, k, p) && OverwrittenAfter(w, x, p, k)
  }

  /** The writes after the k-th reading leave the point with another value than it had there. */
  predicate OverwrittenAfter(w: World, x: Step, p: Tag, k: nat)
    requires x.Round? && k < |x.order| && p in w.base.values
  {
    Overwrites(WritesIn(x.turns, x.order[k + 1..]) + x.late, p,
               FinalValue(WritesIn(x.turns, x.order[..k + 1]), p, w.base.values[p]))
  }

  ghost predicate Overtakes(w: World, x: Step)
  {
    x.Round? && (exists p :: Overtaken(w, x, p))
  }

  lemma {:induction false} OverwritesExactly(us: seq<Update>, p: Tag, v: Frame)
    ensures Overwrites(us, p, v) <==> FinalValue(us, p, v) != v
    decreases |us|
  {
    if us != [] {
      var init, last := us[..|us| - 1], us[|us| - 1];
      assert us == init + [last] && [last][1..] == [];
      FinalConcat(init, [last], p, v);
      assert FinalValue([last], p, FinalValue(init, p, v)) ==
             FinalValue([], p, if last.point == p then last.value else FinalValue(init, p, v));
      OverwritesExactly(init, p, v);
      OverwritesLast(init, last, p, v);
    }
  }

  lemma OverwritesLast(init: seq<Update>, last: Update, p: Tag, v: Frame)
    ensures Overwrites(init + [last], p, v) <==> if last.point == p then last.value != v else Overwrites(init, p, v)
  {
    var us := init + [last];
    assert us[|init|] == last && forall i :: 0 <= i < |init| ==> us[i] == init[i];
    if last.point != p && Overwrites(init, p, v) {
      var i :| 0 <= i < |init| && init[i].point == p && init[i].value != v
               && forall j :: i < j < |init| ==> init[j].point != p;
      assert us[i].point == p && us[i].value != v;
    }
  }

  lemma {:induction false} FinalConcat(us: seq<Update>, vs: seq<Update>, p: Tag, v: Frame)
    ensures FinalValue(us + vs, p, v) == FinalValue(vs, p, FinalValue(us, p, v))
    ensures Touches(us + vs, p) <==> Touches(us, p) || Touches(vs, p)
    decreases |us|
  {
    if us == [] {
      assert us + vs == vs;
    } else {
      assert (us + vs)[1..] == us[1..] + vs && (us + vs)[0] == us[0];
      FinalConcat(us[1..], vs, p, if us[0].point == p then us[0].value else v);
    }
    TouchesEither(us, vs, p);
  }

  lemma TouchesEither(us: seq<Update>, vs: seq<Update>, p: Tag)
    ensures Touches(us + vs, p) <==> Touches(us, p) || Touches(vs, p)
  {
    if i :| 0 <= i < |us| && us[i].point == p {
      assert (us + vs)[i] == us[i];
    }
    if i :| 0 <= i < |vs| && vs[i].point == p {
      assert (us + vs)[|us| + i] == vs[i];
    }
  }

  lemma {:induction false} UpdatedPoint(b: Base, us: seq<Update>, p: Tag)
    requires p in b.values
    ensures var b' := AllUpdated(b, us);
            && p in b'.values && b'.values[p] == FinalValue(us, p, b.values[p])
            && (p in b'.modified <==> p in b.modified || Touches(us, p)) && b'.groups == b.groups
    decreases |us|
  {
    if us != [] {
      UpdatedPoint(Updated(b, us[0]), us[1..], p);
      TouchesEither([us[0]], us[1..], p);
      assert [us[0]] + us[1..] == us;
      assert Touches([us[0]], p) <==> us[0].point == p by {
        assert [us[0]][0] == us[0];
      }
    }
  }

  lemma {:induction false} WritesConcat(turns: map<Name, Turn>, a: seq<Name>, b: seq<Name>)
    ensures WritesIn(turns, a + b) == WritesIn(turns, a) + WritesIn(turns, b)
  {
    if a == [] {
      assert a + b == b;
    } else {
      assert (a + b)[1..] == a[1..] + b && (a + b)[0] == a[0];
      WritesConcat(turns, a[1..], b);
    }
  }

  lemma {:induction false} MeanwhilePoint(b: Base, turns: map<Name, Turn>, order: seq<Name>, p: Tag)
    requires p in b.values
    ensures p in Meanwhile(b, turns, order).values
    ensures Meanwhile(b, turns, order).values[p] == FinalValue(WritesIn(turns, order), p, b.values[p])
    decreases |order|
  {
    if order != [] {
      var b1 := AllUpdated(b, WritesBefore(turns, order[0]));
      UpdatedPoint(b, WritesBefore(turns, order[0]), p);
      MeanwhilePoint(b1, turns, order[1..], p);
      FinalConcat(WritesBefore(turns, order[0]), WritesIn(turns, order[1..]), p, b.values[p]);
    }
  }

  /** The readings of the rest of a round, seen from its first turn and from its second. */
  lemma {:induction false} ReadsShift(b: Base, turns: map<Name, Turn>, order: seq<Name>, k: nat, p: Tag)
    requires 0 < k < |order| && p in b.values
    ensures ReadsPoint(b, turns, order, k, p) <==>
              ReadsPoint(AllUpdated(b, WritesBefore(turns, order[0])), turns, order[1..], k - 1, p)
    ensures FinalValue(WritesIn(turns, order[..k + 1]), p, b.values[p]) ==
            FinalValue(WritesIn(turns, order[1..][..k]), p, FinalValue(WritesBefore(turns, order[0]), p, b.values[p]))
  {
    UpdatedPoint(b, WritesBefore(turns, order[0]), p);
    assert order[..k + 1][1..] == order[1..][..k] && order[..k + 1][0] == order[0];
    FinalConcat(WritesBefore(turns, order[0]), WritesIn(turns, order[1..][..k]), p, b.values[p]);
  }

  lemma {:induction false} ReadsFirst(b: Base, turns: map<Name, Turn>, order: seq<Name>, p: Tag)
    requires order != [] && p in b.values
    ensures var b1 := AllUpdated(b, WritesBefore(turns, order[0]));
            && p in b1.values && b1.values[p] == FinalValue(WritesIn(turns, order[..1]), p, b.values[p])
            && (ReadsPoint(b, turns, order, 0, p) <==>
                  PublicationOf(b1, turns, order[0]) != [] && p in PublicationOf(b1, turns, order[0])[0].points)
  {
    UpdatedPoint(b, WritesBefore(turns, order[0]), p);
    assert order[..1] == [order[0]] && order[..1][1..] == [];
    assert order[..1][0] == order[0] && WritesIn(turns, order[..1][1..]) == [];
    assert WritesIn(turns, order[..1]) == WritesBefore(turns, order[0]) + [];
    assert WritesIn(turns, order[..1]) == WritesBefore(turns, order[0]);
  }

  /** What is published of a point in a round, told from the writes and turns. */
  lemma {:induction false} PublishedExactly(b: Base, turns: map<Name, Turn>, order: seq<Name>, p: Tag) returns (k: nat)
    requires p in b.values
    ensures p in Tags(Publications(b, turns, order)) <==>
              exists j: nat :: j < |order| && ReadsPoint(b, turns, order, j, p)
    ensures p in Tags(Publications(b, turns, order)) ==>
              && k < |order| && LastReads(b, turns, order, k, p)
              && LastValue(Publications(b, turns, order), p) ==
                   FinalValue(WritesIn(turns, order[..k + 1]), p, b.values[p])
    decreases |order|
  {
    k := 0;
    if order != [] {
      var b1, rest := AllUpdated(b, WritesBefore(turns, order[0])), order[1..];
      var first, pubs := PublicationOf(b1, turns, order[0]), Publications(b1, turns, rest);
      ReadsFirst(b, turns, order, p);
      UpdatedPoint(b, WritesBefore(turns, order[0]), p);
      k := PublishedExactly(b1, turns, rest, p);
      PublishedEither(first, pubs, p);
      forall j: nat | 0 < j < |order|
        ensures ReadsPoint(b, turns, order, j, p) <==> ReadsPoint(b1, turns, rest, j - 1, p)
      {
        ReadsShift(b, turns, order, j, p);
      }
      forall i: nat | i < |rest|
        ensures ReadsPoint(b1, turns, rest, i, p) <==> ReadsPoint(b, turns, order, i + 1, p)
      {
        ReadsShift(b, turns, order, i + 1, p);
      }
      if p in Tags(pubs) {
        ReadsShift(b, turns, order, k + 1, p);
        assert ReadsPoint(b, turns, order, k + 1, p);
        k := k + 1;
      } else {
        k := 0;
        forall j: nat | 0 < j < |order| ensures !ReadsPoint(b, turns, order, j, p)
        {
          ReadsShift(b, turns, order, j, p);
        }
      }
    }
  }

  lemma {:induction false} PublishedEither(first: seq<Publication>, pubs: seq<Publication>, p: Tag)
    requires |first| <= 1
    ensures p in Tags(first + pubs) <==> (first != [] && p in first[0].points) || p in Tags(pubs)
    ensures p in Tags(pubs) ==> LastValue(first + pubs, p) == LastValue(pubs, p)
    ensures p !in Tags(pubs) && first != [] && p in first[0].points ==> LastValue(first + pubs, p) == first[0].points[p]
  {
    if first == [] {
      assert first + pubs == pubs;
    } else {
      assert (first + pubs)[1..] == pubs && (first + pubs)[0] == first[0];
    }
  }

  /** The value at the clearing, from the value at the k-th reading and the writes after it. */
  lemma {:induction false} ValueAtClearing(b: Base, turns: map<Name, Turn>, order: seq<Name>, late: seq<Update>, p: Tag,
                                           k: nat)
    requires p in b.values && k < |order|
    ensures p in Written(b, turns, order, late).values
    ensures Written(b, turns, order, late).values[p] ==
            FinalValue(WritesIn(turns, order[k + 1..]) + late, p,
                       FinalValue(WritesIn(turns, order[..k + 1]), p, b.values[p]))
  {
    MeanwhilePoint(b, turns, order, p);
    UpdatedPoint(Meanwhile(b, turns, order), late, p);
    assert order[..k + 1] + order[k + 1..] == order;
    WritesConcat(turns, order[..k + 1], order[k + 1..]);
    FinalConcat(WritesIn(turns, order[..k + 1]), WritesIn(turns, order[k + 1..]), p, b.values[p]);
    FinalConcat(WritesIn(turns, order[k + 1..]), late, p, FinalValue(WritesIn(turns, order[..k + 1]), p, b.values[p]));
  }

  lemma OneLastReading(b: Base, turns: map<Name, Turn>, order: seq<Name>, p: Tag, j: nat, k: nat)
    requires j < |order| && k < |order| && LastReads(b, turns, order, j, p) && LastReads(b, turns, order, k, p)
    ensures j == k
  {
  }

  /** So the condition on the writes says when the round ends with another value than it published. */
  lemma {:induction false} OvertakenExactly(w: World, x: Step, p: Tag)
    requires Consistent(w.base) && x.Round? && p in w.base.values
    ensures var pubs, b' := Publications(w.base, x.turns, x.order), Written(w.base, x.turns, x.order, x.late);
            && p in b'.values
            && (Overtaken(w, x, p) <==> p in Tags(pubs) && b'.values[p] != LastValue(pubs, p))
  {
    var b, turns, order := w.base, x.turns, x.order;
    var k := PublishedExactly(b, turns, order, p);
    MeanwhilePoint(b, turns, order, p);
    UpdatedPoint(Meanwhile(b, turns, order), x.late, p);
    if p in Tags(Publications(b, turns, order)) {
      OvertakenAfter(w, x, p, k);
      ValueAtClearing(b, turns, order, x.late, p, k);
    }
  }

  /** Where the k-th reading is the last. */
  lemma {:induction false} OvertakenAfter(w: World, x: Step, p: Tag, k: nat)
    requires x.Round? && p in w.base.values && k < |x.order| && LastReads(w.base, x.turns, x.order, k, p)
    ensures var v := FinalValue(WritesIn(x.turns, x.order[..k + 1]), p, w.base.values[p]);
            Overtaken(w, x, p) <==> FinalValue(WritesIn(x.turns, x.order[k + 1..]) + x.late, p, v) != v
  {
    var v := FinalValue(WritesIn(x.turns, x.order[..k + 1]), p, w.base.values[p]);
    OverwritesExactly(WritesIn(x.turns, x.order[k + 1..]) + x.late, p, v);
    if Overtaken(w, x, p) {
      var j: nat :| j < |x.order| && LastReads(w.base, x.turns, x.order, j, p) && OverwrittenAfter(w, x, p, j);
      OneLastReading(w.base, x.turns, x.order, p, j, k);
    }
  }

  lemma OvertakenIsStored(w: World, x: Step, p: Tag)
    requires x.Round? && Overtaken(w, x, p)
    ensures p in w.base.values
  {
  }

  /** A round, whatever fails in it and whatever is written meanwhile, loses a change exactly when a write
      overtakes it. */
  lemma StepLosesExactly(start: Base, w: World, x: Step)
    requires Consistent(w.base) && NothingLost(start, w)
    ensures NothingLost(start, Next(w, x)) <==> !Overtakes(w, x)
    ensures Consistent(Next(w, x).base)
  {
    var w' := Next(w, x);
    if x.Round? {
      RoundKeepsFlags(w.base, x.turns, x.order, x.late);
      if p :| Overtaken(w, x, p) {
        OvertakenIsStored(w, x, p);
        OvertakenIsLost(start, w, x, p);
      } else {
        forall p | p in w'.base.values && p !in w'.base.modified
          ensures LatestIs(w'.history, p, w'.base.values[p]) || Untouched(start, w', p)
        {
          assert !Overtaken(w, x, p);
          NotOvertaken(start, w, x, p);
        }
      }
    }
  }

  lemma OvertakenIsLost(start: Base, w: World, x: Step, p: Tag)
    requires Consistent(w.base) && x.Round? && Overtaken(w, x, p)
    ensures p in Next(w, x).base.values && p !in Next(w, x).base.modified
    ensures !LatestIs(Next(w, x).history, p, Next(w, x).base.values[p]) && !Untouched(start, Next(w, x), p)
  {
    var pubs := Publications(w.base, x.turns, x.order);
    OvertakenIsStored(w, x, p);
    OvertakenExactly(w, x, p);
    LatestAfter(w.history, pubs, p, LastValue(pubs, p));
    TagsExactly(pubs, p);
    LatestUnique(Next(w, x).history, p, LastValue(pubs, p));
  }

  lemma LatestUnique(history: seq<Publication>, p: Tag, v: Frame)
    requires LatestIs(history, p, v)
    ensures forall v' :: LatestIs(history, p, v') ==> v' == v
    ensures exists i :: 0 <= i < |history| && p in history[i].points
  {
  }

  lemma NotOvertaken(start: Base, w: World, x: Step, p: Tag)
    requires Consistent(w.base) && NothingLost(start, w) && x.Round? && !Overtaken(w, x, p)
    requires p in Next(w, x).base.values && p !in Next(w, x).base.modified
    ensures LatestIs(Next(w, x).history, p, Next(w, x).base.values[p]) || Untouched(start, Next(w, x), p)
  {
    var pubs, b' := Publications(w.base, x.turns, x.order), Written(w.base, x.turns, x.order, x.late);
    RoundKeepsFlags(w.base, x.turns, x.order, x.late);
    OvertakenExactly(w, x, p);
    if p in Tags(pubs) || LatestIs(w.history, p, w.base.values[p]) {
      LatestAfter(w.history, pubs, p, b'.values[p]);
    } else {
      TagsExactly(pubs, p);
    }
  }

  /** A complete round that nobody writes into. */
  predicate Undisturbed(x: Step) { x.Round? ==> Quiet(x.turns) && x.late == [] }

  lemma UndisturbedNotOvertaken(w: World, x: Step)
    requires Consistent(w.base) && Undisturbed(x)
    ensures !Overtakes(w, x)
  {
    if x.Round? {
      forall p: Tag, k: nat | k < |x.order| && LastReads(w.base, x.turns, x.order, k, p)
        ensures !Overwrites(WritesIn(x.turns, x.order[k + 1..]) + x.late, p,
                            FinalValue(WritesIn(x.turns, x.order[..k + 1]), p, w.base.values[p]))
      {
        NoWrites(x.turns, x.order[k + 1..]);
      }
    }
  }

  lemma {:induction false} NoWrites(turns: map<Name, Turn>, order: seq<Name>)
    requires Quiet(turns)
    ensures WritesIn(turns, order) == []
  {
    if order != [] {
      NoWrites(turns, order[1..]);
    }
  }

  ghost predicate NeverLoses(start: Base, w: World, run: seq<Step>)
    decreases |run|
  {
    NothingLost(start, w) && (run == [] || NeverLoses(start, Next(w, run[0]), run[1..]))
  }

  ghost predicate NeverOvertakes(w: World, run: seq<Step>)
    decreases |run|
  {
    run == [] || (!Overtakes(w, run[0]) && NeverOvertakes(Next(w, run[0]), run[1..]))
  }

  /** Every alternation of writes and rounds, written into or not, failing or not: nothing is lost in any state of it
      exactly when no write overtakes a round. */
  lemma {:induction false} RunLosesExactly(start: Base, w: World, run: seq<Step>)
    requires Consistent(w.base) && NothingLost(start, w)
    ensures NeverLoses(start, w, run) <==> NeverOvertakes(w, run)
    decreases |run|
  {
    if run != [] {
      StepLosesExactly(start, w, run[0]);
      if NothingLost(start, Next(w, run[0])) {
        RunLosesExactly(start, Next(w, run[0]), run[1..]);
      }
    }
  }

  /** One point, one group, and a write after the reading: the round loses it. */
  lemma LostUpdate(p: Tag, g: Name, v: Frame, v': Frame) returns (start: Base, w: World, x: Step)
    requires v != v'
    ensures Consistent(w.base) && NothingLost(start, w) && x.Round? && IsOrder(w.base, x.order) && Sends(x.turns, g)
    ensures x.late == [Update(p, v')] && Quiet(x.turns)
    ensures p !in Next(w, x).base.modified && Next(w, x).base.values == map[p := v']
    ensures Next(w, x).history == [Publication(g, map[p := v])]
    ensures !NothingLost(start, Next(w, x))
  {
    start := Base(map[p := v], {p}, map[g := {p}], {g});
    w := World(start, []);
    x := Round(map[g := Turn([], true, {}, true)], [g], [Update(p, v')]);
    assert p in start.groups[g] * start.modified;
    assert ArmedGroups(start) == {g};
    assert [g][1..] == [] && x.late[1..] == [];
    assert Publications(start, x.turns, [g]) == PublicationOf(start, x.turns, g) + [];
    assert ArmedPoints(start, g, {}) == map[p := v];
    var pubs := Publications(start, x.turns, [g]);
    assert pubs == [Publication(g, map[p := v])] && pubs[1..] == [];
    assert Tags(pubs) == {p};
    var w' := Next(w, x);
    assert Meanwhile(start, x.turns, [g]) == AllUpdated(start, []) == start;
    assert AllUpdated(start, x.late) == Updated(start, x.late[0]);
    assert w'.base.values == map[p := v'];
    assert w'.history == pubs;
    assert w'.history[0].points == map[p := v];
  }

  /** Over any alternation of writes and complete rounds nothing is lost, whatever fails in the rounds. */
  lemma {:induction false} RunLosesNothing(start: Base, w: World, run: seq<Step>)
    requires Consistent(w.base) && NothingLost(start, w)
    requires forall i :: 0 <= i < |run| ==> Undisturbed(run[i])
    ensures NothingLost(start, AfterAll(w, run))
    decreases |run|
  {
    if run != [] {
      UndisturbedNotOvertaken(w, run[0]);
      StepLosesExactly(start, w, run[0]);
      RunLosesNothing(start, Next(w, run[0]), run[1..]);
    }
  }
}
