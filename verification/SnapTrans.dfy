/** The translator from RTAP instance records to XML points: one pass over the records, against batch grouping. */
module SnapTrans {
  import opened Bytes
  import opened Escape

  type Name = Frame

  const UNUSED := 127
  const UNIVNAME: Name := [85, 78, 73, 86, 78, 65, 77, 69]  // "UNIVNAME"
  const OBJCLASS: Name := [79, 66, 74, 67, 76, 65, 83, 83]  // "OBJCLASS"
  const SLASH: Byte := 47

  datatype Attr = Attr(name: Name, value: Frame)

  /** A record of the instance file, its fields taken apart; `Other` stands for all types the loop passes over
      and for scalars it cannot read. */
  datatype Record =
    | Instance(cls: nat, point: Name)
    | Scalar(attr: Attr)
    | Other

  /** What the loop writes for one point. */
  datatype Point = Point(cls: nat, tag: Frame, attrs: seq<Attr>)

  /** The attributes of each class in the order of the map they are kept in; None where no file was loaded. */
  type Classes = map<nat, Option<seq<Attr>>>

  // ---------------------------------------------------------------- one point

  predicate Shown(n: Name) { n != UNIVNAME && n != OBJCLASS }

  /** The template's attributes, with the given values where there are any. */
  function Overlay(template: seq<Attr>, given: map<Name, Frame>): seq<Attr>
  {
    if template == [] then []
    else
      (if !Shown(template[0].name) then []
       else [Attr(template[0].name, if template[0].name in given then given[template[0].name] else template[0].value)])
      + Overlay(template[1..], given)
  }

  function TagOf(point: Name, given: map<Name, Frame>): Frame
  {
    if UNIVNAME in given then given[UNIVNAME] else [SLASH] + point
  }

  /** The point as it is before its values are escaped; nothing for a class without a template. */
  function Dumped(classes: Classes, cls: nat, point: Name, given: map<Name, Frame>): seq<Point>
  {
    if !Loaded(classes, cls) then []
    else [Point(cls, TagOf(point, given), Overlay(classes[cls].value, given))]
  }

  /** Values go out as XML character data; tag and names go out as they are. */
  function Rendered(attrs: seq<Attr>): seq<Attr>
  {
    if attrs == [] then [] else [Attr(attrs[0].name, Escaped(attrs[0].value))] + Rendered(attrs[1..])
  }

  function Written(points: seq<Point>): seq<Point>
  {
    if points == [] then [] else [points[0].(attrs := Rendered(points[0].attrs))] + Written(points[1..])
  }

  /** The loop that escapes a value with an ampersand does not end (Escape.ReplaceAmp). */
  predicate AmpFree(attrs: seq<Attr>)
  {
    attrs == [] || (AMP !in attrs[0].value && AmpFree(attrs[1..]))
  }

  predicate AllEnd(points: seq<Point>)
  {
    points == [] || (AmpFree(points[0].attrs) && AllEnd(points[1..]))
  }

  /** The points before the first one that is never finished. */
  function Upto(points: seq<Point>): seq<Point>
  {
    if points == [] || !AmpFree(points[0].attrs) then [] else [points[0]] + Upto(points[1..])
  }

  /** map::insert: a name that is there keeps its value. */
  function Inserted(given: map<Name, Frame>, a: Attr): map<Name, Frame>
  {
    if a.name in given then given else given[a.name := a.value]
  }

  // ---------------------------------------------------------------- the loop

  /** `hung`: the program is inside the loop that does not end. */
  datatype Reader = Reader(cls: nat, point: Name, given: map<Name, Frame>, count: nat, out: seq<Point>, hung: bool)

  const START := Reader(UNUSED, [], map[], 0, [], false)

  /** dump_point returns early for an unused class, before it empties the map of given attributes. */
  function Flushed(classes: Classes, r: Reader): Reader
  {
    var dump := Dumped(classes, r.cls, r.point, r.given);
    if !AllEnd(dump) then r.(hung := true)
    else r.(out := r.out + Written(dump), given := if r.cls == UNUSED then r.given else map[])
  }

  function Read(classes: Classes, r: Reader, x: Record): Reader
  {
    if r.hung then r else
    match x
    case Instance(cls, point) =>
      var r' := if r.count > 0 then Flushed(classes, r) else r;
      if r'.hung then r' else r'.(cls := cls, point := point, count := r.count + 1)
    case Scalar(a) => r.(given := Inserted(r.given, a))
    case Other => r
  }

  function ReadAll(classes: Classes, r: Reader, xs: seq<Record>): Reader
    decreases |xs|
  {
    if xs == [] then r else ReadAll(classes, Read(classes, r, xs[0]), xs[1..])
  }

  lemma {:induction false} ReadSnoc(classes: Classes, r: Reader, xs: seq<Record>, x: Record)
    ensures ReadAll(classes, r, xs + [x]) == Read(classes, ReadAll(classes, r, xs), x)
    decreases |xs|
  {
    if xs == [] {
      assert xs + [x] == [x] && [x][1..] == [];
    } else {
      assert (xs + [x])[1..] == xs[1..] + [x];
      ReadSnoc(classes, Read(classes, r, xs[0]), xs[1..], x);
    }
  }

  class Translator {
    const classes: Classes
    var cls: nat
    var point: Name
    var given: map<Name, Frame>
    var count: nat
    var out: seq<Point>
    var hung: bool

    constructor (classes: Classes)
      ensures State() == START && this.classes == classes
    {
      this.classes := classes;
      cls, point, given, count, out, hung := UNUSED, [], map[], 0, [], false;
    }

    ghost function State(): Reader
      reads this
    {
      Reader(cls, point, given, count, out, hung)
    }

    /** None: a value with an ampersand kept the program for all of its `rounds`, however many. */
    method DumpPoint(rounds: nat) returns (dump: Option<seq<Point>>)
      modifies this`given
      ensures dump.Some? <==> AllEnd(Dumped(classes, cls, point, old(given)))
      ensures dump.Some? ==> dump.value == Written(Dumped(classes, cls, point, old(given)))
      ensures given == if cls == UNUSED || dump.None? then old(given) else map[]
    {
      if cls == UNUSED {
        return Some([]);
      }
      if cls in classes && classes[cls].Some? {
        var attrs := Present(classes[cls].value, rounds);
        if attrs.None? {
          return None;
        }
        var tag := if UNIVNAME in given then given[UNIVNAME] else [SLASH] + point;
        dump := Some([Point(cls, tag, attrs.value)]);
      } else {
        dump := Some([]);
      }
      given := map[];
    }

    /** The attributes of the template, one by one, each value escaped. */
    method Present(template: seq<Attr>, rounds: nat) returns (attrs: Option<seq<Attr>>)
      ensures attrs.Some? <==> AmpFree(Overlay(template, given))
      ensures attrs.Some? ==> attrs.value == Rendered(Overlay(template, given))
    {
      var done := [];
      var i := 0;
      PresentedEnds(template, given);
      while i < |template|
        invariant 0 <= i <= |template| && Presented(template, i, done, given)
      {
        var a := template[i];
        PresentedOn(template, i, done, given);
        if Shown(a.name) {
          var value := Masquerade(ValueOf(a, given), rounds);
          if value.None? {
            return None;
          }
          done := done + [Attr(a.name, value.value)];
        }
        i := i + 1;
      }
      return Some(done);
    }

    /** The last point is never written: only the next instance record writes the one before it. */
    method ProcessInstanceFile(records: seq<Record>, rounds: nat)
      requires State() == START
      modifies this
      ensures State() == ReadAll(classes, START, records)
    {
      var i := 0;
      while i < |records| && !hung
        invariant 0 <= i <= |records| && State() == ReadAll(classes, START, records[..i])
      {
        assert records[..i + 1] == records[..i] + [records[i]];
        ReadSnoc(classes, START, records[..i], records[i]);
        match records[i] {
          case Instance(c, p) =>
            if count > 0 {
              var dump := DumpPoint(rounds);
              if dump.None? {
                hung := true;
              } else {
                out := out + dump.value;
              }
            }
            if !hung {
              cls, point, count := c, p, count + 1;
            }
          case Scalar(a) =>
            if a.name !in given {
              given := given[a.name := a.value];
            }
          case Other =>
        }
        i := i + 1;
      }
      HungStays(classes, State(), records[i..]);
      ReadConcat(classes, START, records[..i], records[i..]);
      assert records[..i] + records[i..] == records;
    }
  }

  /** The first `i` attributes of the template are done. */
  ghost predicate Presented(template: seq<Attr>, i: nat, done: seq<Attr>, given: map<Name, Frame>)
    requires i <= |template|
  {
    var rest := Overlay(template[i..], given);
    && done + Rendered(rest) == Rendered(Overlay(template, given))
    && (AmpFree(rest) <==> AmpFree(Overlay(template, given)))
  }

  /** At the start nothing is done; at the end everything is. */
  lemma {:induction false} PresentedEnds(template: seq<Attr>, given: map<Name, Frame>)
    ensures Presented(template, 0, [], given)
    ensures forall done :: Presented(template, |template|, done, given) ==>
              done == Rendered(Overlay(template, given)) && AmpFree(Overlay(template, given))
  {
    assert template[0..] == template && template[|template|..] == [];
  }

  lemma {:induction false} PresentedOn(template: seq<Attr>, i: nat, done: seq<Attr>, given: map<Name, Frame>)
    requires i < |template| && Presented(template, i, done, given)
    ensures var name, value := template[i].name, ValueOf(template[i], given);
            if !Shown(name) then Presented(template, i + 1, done, given)
            else if AMP in value then !AmpFree(Overlay(template, given))
            else Presented(template, i + 1, done + [Attr(name, Escaped(value))], given)
  {
    TailFrom(template, i);
    OverlayHead(template[i..], given);
    Regrouped(done, Attr(template[i].name, Escaped(ValueOf(template[i], given))),
              Rendered(Overlay(template[i + 1..], given)));
  }

  lemma TailFrom<T>(s: seq<T>, i: nat)
    requires i < |s|
    ensures s[i..] != [] && s[i..][0] == s[i] && s[i..][1..] == s[i + 1..]
  {
  }

  lemma Regrouped<T>(a: seq<T>, x: T, b: seq<T>)
    ensures a + ([x] + b) == a + [x] + b
  {
  }

  lemma {:induction false} OverlayHead(template: seq<Attr>, given: map<Name, Frame>)
    requires template != []
    ensures var rest, a := Overlay(template[1..], given), Attr(template[0].name, ValueOf(template[0], given));
            && Rendered(Overlay(template, given)) ==
                 (if Shown(a.name) then [Attr(a.name, Escaped(a.value))] + Rendered(rest) else Rendered(rest))
            && (AmpFree(Overlay(template, given)) <==> (Shown(a.name) ==> AMP !in a.value) && AmpFree(rest))
  {
    var rest, a := Overlay(template[1..], given), Attr(template[0].name, ValueOf(template[0], given));
    if Shown(a.name) {
      assert Overlay(template, given) == [a] + rest;
      assert ([a] + rest)[1..] == rest && ([a] + rest)[0] == a;
    } else {
      assert Overlay(template, given) == rest;
    }
  }

  lemma {:induction false} HungStays(classes: Classes, r: Reader, xs: seq<Record>)
    requires r.hung || xs == []
    ensures ReadAll(classes, r, xs) == r
    decreases |xs|
  {
    if xs != [] {
      HungStays(classes, r, xs[1..]);
    }
  }

  lemma {:induction false} ReadConcat(classes: Classes, r: Reader, xs: seq<Record>, ys: seq<Record>)
    ensures ReadAll(classes, r, xs + ys) == ReadAll(classes, ReadAll(classes, r, xs), ys)
    decreases |xs|
  {
    if xs == [] {
      assert xs + ys == ys;
    } else {
      assert (xs + ys)[1..] == xs[1..] + ys && (xs + ys)[0] == xs[0];
      ReadConcat(classes, Read(classes, r, xs[0]), xs[1..], ys);
    }
  }

  // ---------------------------------------------------------------- batch grouping

  /** An instance record with the scalars up to the next one. */
  datatype Group = Group(cls: nat, point: Name, scalars: seq<Attr>)

  function Lead(xs: seq<Record>): seq<Attr>
  {
    if xs == [] || xs[0].Instance? then [] else (if xs[0].Scalar? then [xs[0].attr] else []) + Lead(xs[1..])
  }

  function Rest(xs: seq<Record>): (r: seq<Record>)
    ensures |r| <= |xs| && (r == [] || r[0].Instance?)
  {
    if xs == [] || xs[0].Instance? then xs else Rest(xs[1..])
  }

  function Groups(xs: seq<Record>): seq<Group>
    decreases |xs|
  {
    var r := Rest(xs);
    if r == [] then [] else [Group(r[0].cls, r[0].point, Lead(r[1..]))] + Groups(r[1..])
  }

  /** Of several values for one name the first counts. */
  function Inserts(given: map<Name, Frame>, scalars: seq<Attr>): map<Name, Frame>
    decreases |scalars|
  {
    if scalars == [] then given else Inserts(Inserted(given, scalars[0]), scalars[1..])
  }

  /** The point of a group on its own. */
  function PointOf(classes: Classes, g: Group): seq<Point>
  {
    Dumped(classes, g.cls, g.point, Inserts(map[], g.scalars))
  }

  function Batch(classes: Classes, gs: seq<Group>): seq<Point>
    decreases |gs|
  {
    if gs == [] then [] else PointOf(classes, gs[0]) + Batch(classes, gs[1..])
  }

  function ButLast(gs: seq<Group>): seq<Group> { if gs == [] then [] else gs[..|gs| - 1] }

  /** Batch grouping with what the loop carries over from unused groups. */
  function Carried(classes: Classes, carry: map<Name, Frame>, gs: seq<Group>): seq<Point>
    decreases |gs|
  {
    if gs == [] then []
    else
      var given := Inserts(carry, gs[0].scalars);
      Dumped(classes, gs[0].cls, gs[0].point, given)
      + Carried(classes, if gs[0].cls == UNUSED then given else map[], gs[1..])
  }

  // ---------------------------------------------------------------- what a point shows

  lemma {:induction false} FirstWins(given: map<Name, Frame>, scalars: seq<Attr>, n: Name)
    ensures n in Inserts(given, scalars) <==> n in given || exists i :: 0 <= i < |scalars| && scalars[i].name == n
    ensures n in given ==> Inserts(given, scalars)[n] == given[n]
    ensures forall i :: n !in given && 0 <= i < |scalars| && scalars[i].name == n
                        && (forall j :: 0 <= j < i ==> scalars[j].name != n) ==>
              n in Inserts(given, scalars) && Inserts(given, scalars)[n] == scalars[i].value
    decreases |scalars|
  {
    if scalars != [] {
      var rest := scalars[1..];
      FirstWins(Inserted(given, scalars[0]), rest, n);
      assert forall i :: 0 < i < |scalars| ==> scalars[i] == rest[i - 1];
      assert forall i :: 0 <= i < |rest| ==> rest[i] == scalars[i + 1];
      if i :| n !in given && 0 < i < |scalars| && scalars[i].name == n
              && forall j :: 0 <= j < i ==> scalars[j].name != n {
        assert scalars[0].name != n;
        assert forall j :: 0 <= j < i - 1 ==> rest[j].name == scalars[j + 1].name;
      }
    }
  }

  /** Two sets of given attributes give the same list exactly when every shown attribute of the template comes
      out the same. */
  lemma {:induction false} OverlayExactly(template: seq<Attr>, a: map<Name, Frame>, b: map<Name, Frame>)
    ensures Overlay(template, a) == Overlay(template, b) <==>
              forall i :: 0 <= i < |template| ==> SameShown(template[i], a, b)
  {
    if template != [] {
      var rest := template[1..];
      OverlayExactly(rest, a, b);
      assert forall i :: 0 < i < |template| ==> template[i] == rest[i - 1];
      assert forall i :: 0 <= i < |rest| ==> rest[i] == template[i + 1];
      assert (forall i :: 0 <= i < |template| ==> SameShown(template[i], a, b)) <==>
             SameShown(template[0], a, b) && forall i :: 0 <= i < |rest| ==> SameShown(rest[i], a, b);
      if Shown(template[0].name) {
        var x, y := Overlay(template, a), Overlay(template, b);
        assert x == [Attr(template[0].name, ValueOf(template[0], a))] + Overlay(rest, a);
        assert y == [Attr(template[0].name, ValueOf(template[0], b))] + Overlay(rest, b);
        assert x[1..] == Overlay(rest, a) && y[1..] == Overlay(rest, b);
        assert x[0].value == ValueOf(template[0], a) && y[0].value == ValueOf(template[0], b);
        assert x == y <==> ValueOf(template[0], a) == ValueOf(template[0], b) && Overlay(rest, a) == Overlay(rest, b);
      } else {
        assert Overlay(template, a) == Overlay(rest, a) && Overlay(template, b) == Overlay(rest, b);
      }
    }
  }

  predicate SameShown(t: Attr, a: map<Name, Frame>, b: map<Name, Frame>)
  {
    Shown(t.name) ==> ValueOf(t, a) == ValueOf(t, b)
  }

  function ValueOf(a: Attr, given: map<Name, Frame>): Frame
  {
    if a.name in given then given[a.name] else a.value
  }

  // ---------------------------------------------------------------- streaming is grouping

  /** What the loop makes of these points: all before the first one with an ampersand in a value are written; if
      there is such a point, the program never leaves it. */
  predicate Yields(r: Reader, points: seq<Point>, r': Reader)
  {
    r'.out == r.out + Written(Upto(points)) && (r'.hung <==> !AllEnd(points))
  }

  /** One point that ends, and what comes after it. */
  lemma {:induction false} OneMore(p: Point, points: seq<Point>)
    requires AmpFree(p.attrs)
    ensures Upto([p] + points) == [p] + Upto(points)
    ensures Written([p] + Upto(points)) == Written([p]) + Written(Upto(points))
    ensures AllEnd([p] + points) <==> AllEnd(points)
  {
    assert ([p] + points)[1..] == points && ([p] + Upto(points))[1..] == Upto(points) && [p][1..] == [];
  }

  /** From any point of the stream on: the open group takes the scalars up to the next instance record. */
  lemma {:induction false} OpenGroup(classes: Classes, r: Reader, xs: seq<Record>)
    requires r.count > 0 && !r.hung
    ensures Yields(r, Carried(classes, r.given, ButLast([Group(r.cls, r.point, Lead(xs))] + Groups(xs))),
                   ReadAll(classes, r, xs))
    decreases |xs|
  {
    if xs != [] {
      var r', rest := Read(classes, r, xs[0]), xs[1..];
      if xs[0].Instance? {
        ClosedGroup(classes, r, xs);
      } else {
        OpenGroup(classes, r', rest);
        SameGroups(r, xs);
        CarryFirst(classes, r, xs);
      }
    }
  }

  /** The points of an open group and of what follows the instance record that closes it. */
  lemma {:induction false} GroupCloses(classes: Classes, r: Reader, xs: seq<Record>)
    requires xs != [] && xs[0].Instance?
    ensures var next := [Group(xs[0].cls, xs[0].point, Lead(xs[1..]))] + Groups(xs[1..]);
            Carried(classes, r.given, ButLast([Group(r.cls, r.point, Lead(xs))] + Groups(xs))) ==
              Dumped(classes, r.cls, r.point, r.given)
              + Carried(classes, if r.cls == UNUSED then r.given else map[], ButLast(next))
  {
    var open, gs := Group(r.cls, r.point, []), ButLast(Groups(xs));
    assert Groups(xs) == [Group(xs[0].cls, xs[0].point, Lead(xs[1..]))] + Groups(xs[1..]);
    assert ButLast([open] + Groups(xs)) == [open] + gs;
    assert ([open] + gs)[1..] == gs && ([open] + gs)[0] == open;
  }

  /** The flush writes the open group's point, or gets stuck in it. */
  lemma {:induction false} FlushYields(dump: seq<Point>, points: seq<Point>, r: Reader, r1: Reader, r': Reader)
    requires |dump| <= 1
    requires if AllEnd(dump) then r1.out == r.out + Written(dump) && Yields(r1, points, r')
             else r'.hung && r'.out == r.out
    ensures Yields(r, dump + points, r')
  {
    if |dump| == 0 {
      assert dump + points == points;
    } else {
      var p := dump[0];
      assert dump == [p] && [p][1..] == [];
      assert AllEnd(dump) <==> AmpFree(p.attrs) && AllEnd(dump[1..]);
      if AmpFree(p.attrs) {
        PointYields(p, points, r, r1, r');
      } else {
        assert (dump + points)[0] == p;
      }
    }
  }

  lemma {:induction false} PointYields(p: Point, points: seq<Point>, r: Reader, r1: Reader, r': Reader)
    requires AmpFree(p.attrs) && r1.out == r.out + Written([p]) && Yields(r1, points, r')
    ensures Yields(r, [p] + points, r')
  {
    OneMore(p, points);
    assert r.out + Written([p]) + Written(Upto(points)) == r.out + (Written([p]) + Written(Upto(points)));
  }

  /** An instance record closes the open group. */
  lemma {:induction false} ClosedGroup(classes: Classes, r: Reader, xs: seq<Record>)
    requires r.count > 0 && !r.hung && xs != [] && xs[0].Instance?
    ensures Yields(r, Carried(classes, r.given, ButLast([Group(r.cls, r.point, Lead(xs))] + Groups(xs))),
                   ReadAll(classes, r, xs))
    decreases |xs|, 0
  {
    var r1, rest, dump := Read(classes, r, xs[0]), xs[1..], Dumped(classes, r.cls, r.point, r.given);
    if AllEnd(dump) {
      OpenGroup(classes, r1, rest);
    } else {
      HungStays(classes, r1, rest);
    }
    var points := Carried(classes, if r.cls == UNUSED then r.given else map[],
                          ButLast([Group(xs[0].cls, xs[0].point, Lead(rest))] + Groups(rest)));
    FlushYields(dump, points, r, r1, ReadAll(classes, r1, rest));
    GroupCloses(classes, r, xs);
  }

  lemma {:induction false} SameGroups(r: Reader, xs: seq<Record>)
    requires xs != [] && !xs[0].Instance?
    ensures Groups(xs) == Groups(xs[1..]) && Rest(xs) == Rest(xs[1..])
  {
  }

  /** Reading one scalar of the open group and then the rest is reading them together. */
  lemma {:induction false} CarryFirst(classes: Classes, r: Reader, xs: seq<Record>)
    requires xs != [] && !xs[0].Instance? && !r.hung
    ensures var gs := Groups(xs[1..]);
            Carried(classes, Read(classes, r, xs[0]).given, ButLast([Group(r.cls, r.point, Lead(xs[1..]))] + gs))
            == Carried(classes, r.given, ButLast([Group(r.cls, r.point, Lead(xs))] + gs))
  {
    var gs := Groups(xs[1..]);
    var g, h := Group(r.cls, r.point, Lead(xs[1..])), Group(r.cls, r.point, Lead(xs));
    if xs[0].Scalar? {
      assert h.scalars == [xs[0].attr] + g.scalars;
      assert h.scalars[1..] == g.scalars && h.scalars[0] == xs[0].attr;
    } else {
      assert h.scalars == g.scalars;
    }
    assert Inserts(Read(classes, r, xs[0]).given, g.scalars) == Inserts(r.given, h.scalars);
    if gs != [] {
      assert ButLast([g] + gs) == [g] + ButLast(gs) && ButLast([h] + gs) == [h] + ButLast(gs);
      assert ([g] + ButLast(gs))[1..] == ButLast(gs) && ([h] + ButLast(gs))[1..] == ButLast(gs);
      assert ([g] + ButLast(gs))[0] == g && ([h] + ButLast(gs))[0] == h;
    }
  }

  /** Every stream at all: the points are those of the groups but the last, each with what was carried into it; the
      first one gets the scalars before it. They are written, escaped, up to the first that never ends. */
  lemma {:induction false} StreamIsCarriedGrouping(classes: Classes, r: Reader, xs: seq<Record>)
    requires r.count == 0 && !r.hung
    ensures Yields(r, Carried(classes, Inserts(r.given, Lead(xs)), ButLast(Groups(xs))), ReadAll(classes, r, xs))
    decreases |xs|
  {
    if xs != [] {
      var r', rest := Read(classes, r, xs[0]), xs[1..];
      if xs[0].Instance? {
        OpenGroup(classes, r', rest);
      } else {
        StreamIsCarriedGrouping(classes, r', rest);
        SameGroups(r, xs);
        if xs[0].Scalar? {
          assert Lead(xs) == [xs[0].attr] + Lead(rest);
          assert Lead(xs)[1..] == Lead(rest) && Lead(xs)[0] == xs[0].attr;
        } else {
          assert Lead(xs) == Lead(rest);
        }
      }
    }
  }

  predicate NoneUnused(gs: seq<Group>) { forall i :: 0 <= i < |gs| ==> gs[i].cls != UNUSED }

  lemma {:induction false} NothingCarried(classes: Classes, gs: seq<Group>)
    requires NoneUnused(gs)
    ensures Carried(classes, map[], gs) == Batch(classes, gs)
    decreases |gs|
  {
    if gs != [] {
      NothingCarried(classes, gs[1..]);
    }
  }

  /** A stream that starts with an instance record and names known classes: the points are exactly those of all
      groups but the last, each from its own scalars. The translation ends exactly when none of them shows a value
      with an ampersand, and then what is written decodes to them. */
  lemma {:induction false} StreamIsBatch(classes: Classes, xs: seq<Record>)
    requires xs != [] && xs[0].Instance? && NoneUnused(ButLast(Groups(xs)))
    ensures var points, r := Batch(classes, ButLast(Groups(xs))), ReadAll(classes, START, xs);
            && r.out == Written(Upto(points))
            && (!r.hung <==> AllEnd(points))
            && (!r.hung ==> r.out == Written(points) && Unwritten(r.out) == points)
  {
    var points := Batch(classes, ButLast(Groups(xs)));
    StreamIsCarriedGrouping(classes, START, xs);
    NothingCarried(classes, ButLast(Groups(xs)));
    UptoAll(points);
    WrittenDecodes(points);
  }

  lemma {:induction false} UptoAll(points: seq<Point>)
    ensures AllEnd(points) <==> Upto(points) == points
    ensures |Upto(points)| <= |points|
  {
    if points != [] {
      UptoAll(points[1..]);
      assert [points[0]] + points[1..] == points;
      if AmpFree(points[0].attrs) {
        assert Upto(points)[1..] == Upto(points[1..]);
      }
    }
  }

  // ---------------------------------------------------------------- reading it back

  function Unrendered(attrs: seq<Attr>): seq<Attr>
  {
    if attrs == [] then [] else [Attr(attrs[0].name, Decoded(attrs[0].value))] + Unrendered(attrs[1..])
  }

  function Unwritten(points: seq<Point>): seq<Point>
  {
    if points == [] then [] else [points[0].(attrs := Unrendered(points[0].attrs))] + Unwritten(points[1..])
  }

  lemma {:induction false} RenderedDecodes(attrs: seq<Attr>)
    ensures Unrendered(Rendered(attrs)) == attrs
  {
    if attrs != [] {
      DecodedEscaped(attrs[0].value);
      RenderedDecodes(attrs[1..]);
      assert Rendered(attrs)[1..] == Rendered(attrs[1..]);
      assert [attrs[0]] + attrs[1..] == attrs;
    }
  }

  lemma {:induction false} WrittenDecodes(points: seq<Point>)
    ensures Unwritten(Written(points)) == points && |Written(points)| == |points|
  {
    if points != [] {
      RenderedDecodes(points[0].attrs);
      WrittenDecodes(points[1..]);
      assert Written(points)[1..] == Written(points[1..]);
      assert [points[0]] + points[1..] == points;
    }
  }

  /** No value that is written holds a mark that could be taken for markup. */
  lemma {:induction false} WrittenIsText(points: seq<Point>, i: nat, j: nat)
    requires i < |Written(points)| && j < |Written(points)[i].attrs|
    ensures LT !in Written(points)[i].attrs[j].value && GT !in Written(points)[i].attrs[j].value
  {
    if i > 0 {
      assert Written(points)[i] == Written(points[1..])[i - 1];
      WrittenIsText(points[1..], i - 1, j);
    } else {
      RenderedIsText(points[0].attrs, j);
    }
  }

  lemma {:induction false} RenderedIsText(attrs: seq<Attr>, j: nat)
    requires j < |Rendered(attrs)|
    ensures LT !in Rendered(attrs)[j].value && GT !in Rendered(attrs)[j].value
  {
    if j > 0 {
      assert Rendered(attrs)[j] == Rendered(attrs[1..])[j - 1];
      RenderedIsText(attrs[1..], j - 1);
    } else {
      EscapedIsText(attrs[0].value);
    }
  }

  /** A point ends exactly when none of the values it shows, given or the template's own, holds an ampersand. */
  lemma {:induction false} EndsExactly(template: seq<Attr>, given: map<Name, Frame>)
    ensures AmpFree(Overlay(template, given)) <==>
            forall i :: 0 <= i < |template| && Shown(template[i].name) ==> AMP !in ValueOf(template[i], given)
  {
    if template != [] {
      var rest := template[1..];
      EndsExactly(rest, given);
      OverlayHead(template, given);
      assert forall i :: 0 < i < |template| ==> template[i] == rest[i - 1];
      assert forall i :: 0 <= i < |rest| ==> rest[i] == template[i + 1];
    }
  }

  /** So a stream of known, loaded classes always loses its last point, and no other unless it never ends. */
  lemma {:induction false} OnePointShort(classes: Classes, xs: seq<Record>)
    requires xs != [] && xs[0].Instance?
    requires forall i :: 0 <= i < |Groups(xs)| ==> Loaded(classes, Groups(xs)[i].cls)
    ensures |ReadAll(classes, START, xs).out| + 1 <= |Groups(xs)|
    ensures !ReadAll(classes, START, xs).hung ==> |ReadAll(classes, START, xs).out| + 1 == |Groups(xs)|
  {
    var points := Batch(classes, ButLast(Groups(xs)));
    StreamIsBatch(classes, xs);
    OneEach(classes, ButLast(Groups(xs)));
    UptoAll(points);
    WrittenDecodes(points);
    WrittenDecodes(Upto(points));
  }

  predicate Loaded(classes: Classes, cls: nat) { cls != UNUSED && cls in classes && classes[cls].Some? }

  lemma {:induction false} OneEach(classes: Classes, gs: seq<Group>)
    requires forall i :: 0 <= i < |gs| ==> Loaded(classes, gs[i].cls)
    ensures |Batch(classes, gs)| == |gs|
    ensures forall i :: 0 <= i < |gs| ==> [Batch(classes, gs)[i]] == PointOf(classes, gs[i])
    decreases |gs|
  {
    if gs != [] {
      OneEach(classes, gs[1..]);
      assert forall i :: 0 < i < |gs| ==> gs[i] == gs[1..][i - 1];
      assert forall i :: 0 < i < |gs| ==> Batch(classes, gs)[i] == Batch(classes, gs[1..])[i - 1];
    }
  }

  /** After a group of an unknown class, the next point is what its own group says exactly when none of the
      carried attributes shows in it. */
  lemma {:induction false} LeakExactly(classes: Classes, carry: map<Name, Frame>, g: Group)
    requires Loaded(classes, g.cls)
    ensures var own, given := Inserts(map[], g.scalars), Inserts(carry, g.scalars);
            var template := classes[g.cls].value;
            Dumped(classes, g.cls, g.point, given) == PointOf(classes, g) <==>
              && (UNIVNAME in carry ==>
                     carry[UNIVNAME] == if UNIVNAME in own then own[UNIVNAME] else [47] + g.point)
              && (forall i :: 0 <= i < |template| && Shown(template[i].name) && template[i].name in carry ==>
                    carry[template[i].name] == ValueOf(template[i], own))
  {
    var own, given := Inserts(map[], g.scalars), Inserts(carry, g.scalars);
    var template := classes[g.cls].value;
    OverlayExactly(template, given, own);
    forall n: Name ensures CarriedOrOwn(carry, own, given, n)
    {
      FirstWins(carry, g.scalars, n);
      FirstWins(map[], g.scalars, n);
      if n !in carry {
        SameWhenNew(carry, map[], g.scalars, n);
      }
    }
    assert CarriedOrOwn(carry, own, given, UNIVNAME);
    forall i | 0 <= i < |template|
      ensures ValueOf(template[i], given) ==
                if template[i].name in carry then carry[template[i].name] else ValueOf(template[i], own)
    {
      assert CarriedOrOwn(carry, own, given, template[i].name);
    }
  }

  ghost predicate CarriedOrOwn(carry: map<Name, Frame>, own: map<Name, Frame>, given: map<Name, Frame>, n: Name)
  {
    if n in carry then n in given && given[n] == carry[n]
    else (n in given <==> n in own) && (n in own ==> given[n] == own[n])
  }

  lemma {:induction false} SameWhenNew(a: map<Name, Frame>, b: map<Name, Frame>, scalars: seq<Attr>, n: Name)
    requires n in a <==> n in b
    requires n in a ==> a[n] == b[n]
    ensures n in Inserts(a, scalars) <==> n in Inserts(b, scalars)
    ensures n in Inserts(a, scalars) ==> Inserts(a, scalars)[n] == Inserts(b, scalars)[n]
    decreases |scalars|
  {
    if scalars != [] {
      SameWhenNew(Inserted(a, scalars[0]), Inserted(b, scalars[0]), scalars[1..], n);
    }
  }
}
