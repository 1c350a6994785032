/** What the translator writes, told from the records of the instance file, position by position. */
module SnapRecords {
  import opened Bytes
  import opened Escape
  import opened SnapTrans

  /** The record gives a value for this attribute. */
  predicate Gives(x: Record, n: Name) { x.Scalar? && x.attr.name == n }

  /** The k-th record is the first one behind the n-th that gives a value for the attribute. */
  predicate FirstBehind(xs: seq<Record>, n: nat, k: nat, name: Name)
  {
    n < k < |xs| && Gives(xs[k], name) && forall j :: n < j < k ==> !Gives(xs[j], name)
  }

  /** The n-th record opens a group, the next group begins at `next`, or the file ends there. */
  predicate GroupSpans(xs: seq<Record>, n: nat, next: nat)
  {
    && n < next <= |xs| && xs[n].Instance? && (next == |xs| || xs[next].Instance?)
    && forall k :: n < k < next ==> !xs[k].Instance?
  }

  /** How many of the records are instances of a class with a template. */
  function Points(classes: Classes, xs: seq<Record>): nat
  {
    if xs == [] then 0
    else (if xs[0].Instance? && Loaded(classes, xs[0].cls) then 1 else 0) + Points(classes, xs[1..])
  }

  // ---------------------------------------------------------------- groups

  /** The point of the n-th record stands where the records before it say. */
  lemma {:induction false} PointAt(classes: Classes, xs: seq<Record>, n: nat)
    requires n < |xs| && xs[n].Instance? && Loaded(classes, xs[n].cls)
    ensures var i, batch := Points(classes, xs[..n]), Batch(classes, Groups(xs));
            i < |batch| && [batch[i]] == PointOf(classes, Group(xs[n].cls, xs[n].point, Lead(xs[n + 1..])))
    decreases |xs|
  {
    var rest := xs[1..];
    if n == 0 {
      assert Groups(xs)[0] == Group(xs[0].cls, xs[0].point, Lead(rest));
    } else {
      PointAt(classes, rest, n - 1);
      Slices(xs, n);
      if xs[0].Instance? {
        GroupsHead(classes, xs);
        Behind(PointOf(classes, Group(xs[0].cls, xs[0].point, Lead(rest))), Batch(classes, Groups(rest)),
               Points(classes, rest[..n - 1]));
      } else {
        SameGroups(START, xs);
      }
    }
  }

  lemma Behind<T>(head: seq<T>, tail: seq<T>, i: nat)
    requires i < |tail|
    ensures (head + tail)[|head| + i] == tail[i]
  {
  }

  lemma Slices(xs: seq<Record>, n: nat)
    requires 0 < n < |xs|
    ensures xs[..n][1..] == xs[1..][..n - 1] && xs[1..][n..] == xs[n + 1..]
    ensures xs[..n][0] == xs[0] && xs[1..][n - 1] == xs[n]
  {
  }

  lemma {:induction false} GroupsHead(classes: Classes, xs: seq<Record>)
    requires xs != [] && xs[0].Instance?
    ensures Batch(classes, Groups(xs)) ==
              PointOf(classes, Group(xs[0].cls, xs[0].point, Lead(xs[1..]))) + Batch(classes, Groups(xs[1..]))
  {
    assert Groups(xs) == [Group(xs[0].cls, xs[0].point, Lead(xs[1..]))] + Groups(xs[1..]);
    assert Groups(xs)[1..] == Groups(xs[1..]);
  }

  lemma {:induction false} BatchConcat(classes: Classes, a: seq<Group>, b: seq<Group>)
    ensures Batch(classes, a + b) == Batch(classes, a) + Batch(classes, b)
    decreases |a|
  {
    if a == [] {
      assert a + b == b;
    } else {
      assert (a + b)[1..] == a[1..] + b && (a + b)[0] == a[0];
      BatchConcat(classes, a[1..], b);
    }
  }

  lemma {:induction false} ButLastPrefix(classes: Classes, gs: seq<Group>)
    requires gs != []
    ensures Batch(classes, ButLast(gs)) <= Batch(classes, gs)
  {
    assert gs == ButLast(gs) + [gs[|gs| - 1]];
    BatchConcat(classes, ButLast(gs), [gs[|gs| - 1]]);
  }

  lemma {:induction false} UptoPrefix(points: seq<Point>)
    ensures Upto(points) <= points
  {
    if points != [] && AmpFree(points[0].attrs) {
      UptoPrefix(points[1..]);
    }
  }

  lemma {:induction false} WrittenAt(points: seq<Point>, i: nat)
    requires i < |points|
    ensures |Written(points)| == |points| && Written(points)[i] == points[i].(attrs := Rendered(points[i].attrs))
  {
    WrittenDecodes(points);
    if i > 0 {
      WrittenAt(points[1..], i - 1);
    }
  }

  /** Whatever is written at that place is the point of that record's group. */
  lemma {:induction false} OutputAt(classes: Classes, xs: seq<Record>, n: nat)
    requires xs != [] && xs[0].Instance? && NoneUnused(ButLast(Groups(xs)))
    requires n < |xs| && xs[n].Instance? && Loaded(classes, xs[n].cls)
    requires Points(classes, xs[..n]) < |ReadAll(classes, START, xs).out|
    ensures var p := ReadAll(classes, START, xs).out[Points(classes, xs[..n])];
            var own := Inserts(map[], Lead(xs[n + 1..]));
            p == Point(xs[n].cls, TagOf(xs[n].point, own), Rendered(Overlay(classes[xs[n].cls].value, own)))
  {
    var gs, i := Groups(xs), Points(classes, xs[..n]);
    var points := Batch(classes, ButLast(gs));
    StreamIsBatch(classes, xs);
    UptoPrefix(points);
    WrittenDecodes(Upto(points));
    WrittenAt(Upto(points), i);
    PointAt(classes, xs, n);
    assert Upto(points)[i] == Batch(classes, gs)[i] by { ButLastPrefix(classes, gs); }
  }

  // ---------------------------------------------------------------- given values

  /** What a group's scalars give for one attribute, in terms of the records up to the next instance. */
  lemma {:induction false} GivenFrom(given: map<Name, Frame>, ys: seq<Record>, m: nat, name: Name)
    requires m <= |ys| && (m == |ys| || ys[m].Instance?) && (forall k :: 0 <= k < m ==> !ys[k].Instance?)
    ensures var r := Inserts(given, Lead(ys));
            && (name in given ==> name in r && r[name] == given[name])
            && (name !in given && (forall k :: 0 <= k < m ==> !Gives(ys[k], name)) ==> name !in r)
            && (forall k :: name !in given && 0 <= k < m && Gives(ys[k], name)
                            && (forall j :: 0 <= j < k ==> !Gives(ys[j], name)) ==>
                  name in r && r[name] == ys[k].attr.value)
    decreases m
  {
    if m == 0 {
      assert Lead(ys) == [];
    } else {
      var rest, lead := ys[1..], Lead(ys[1..]);
      assert forall k :: 0 < k <= |rest| ==> ys[k] == rest[k - 1];
      if ys[0].Scalar? {
        assert Lead(ys) == [ys[0].attr] + lead && Lead(ys)[1..] == lead;
        GivenFrom(Inserted(given, ys[0].attr), rest, m - 1, name);
      } else {
        assert Lead(ys) == lead;
        GivenFrom(given, rest, m - 1, name);
      }
    }
  }

  /** The value is that of the first record behind the n-th that gives one; without one it is `otherwise`. */
  ghost predicate FirstOr(xs: seq<Record>, n: nat, next: nat, name: Name, value: Frame, otherwise: Frame)
    requires next <= |xs|
  {
    && ((forall k :: n < k < next ==> !Gives(xs[k], name)) ==> value == otherwise)
    && (forall k: nat :: k < next && FirstBehind(xs, n, k, name) ==> value == xs[k].attr.value)
  }

  lemma GivenBehind(xs: seq<Record>, n: nat, next: nat, a: Attr)
    requires GroupSpans(xs, n, next)
    ensures FirstOr(xs, n, next, a.name, ValueOf(a, Inserts(map[], Lead(xs[n + 1..]))), a.value)
  {
    var ys := xs[n + 1..];
    var own := Inserts(map[], Lead(ys));
    GivenFrom(map[], ys, next - n - 1, a.name);
    forall k: nat | k < next && FirstBehind(xs, n, k, a.name)
      ensures a.name in own && own[a.name] == xs[k].attr.value
    {
      assert ys[k - n - 1] == xs[k];
      assert forall j :: 0 <= j < k - n - 1 ==> ys[j] == xs[j + n + 1];
    }
  }

  // ---------------------------------------------------------------- attributes

  /** The attribute at this place of the template is one that goes out. */
  predicate GoesOut(template: seq<Attr>, k: nat)
  {
    k < |template| && template[k].name != UNIVNAME && template[k].name != OBJCLASS
  }

  predicate Ascending(at: seq<nat>) { forall i, j :: 0 <= i < j < |at| ==> at[i] < at[j] }

  /** In ascending order, exactly the places of the attributes other than "UNIVNAME" and "OBJCLASS". */
  ghost predicate Places(template: seq<Attr>, at: seq<nat>)
  {
    Ascending(at) && forall k: nat :: k in at <==> GoesOut(template, k)
  }

  function Shifted(more: seq<nat>): (at: seq<nat>)
    ensures |at| == |more| && forall j :: 0 <= j < |more| ==> at[j] == more[j] + 1
  {
    seq(|more|, j requires 0 <= j < |more| => more[j] + 1)
  }

  lemma ShiftedHas(more: seq<nat>, k: nat)
    ensures k in Shifted(more) <==> k > 0 && k - 1 in more
  {
    if k > 0 && k - 1 in more {
      var j :| 0 <= j < |more| && more[j] == k - 1;
      assert Shifted(more)[j] == k;
    }
  }

  lemma PlacesOn(template: seq<Attr>, more: seq<nat>, at: seq<nat>)
    requires template != [] && Places(template[1..], more)
    requires at == if GoesOut(template, 0) then [0] + Shifted(more) else Shifted(more)
    ensures Places(template, at)
  {
    forall k: nat ensures k in at <==> GoesOut(template, k)
    {
      ShiftedHas(more, k);
      if k > 0 {
        assert k - 1 in more <==> GoesOut(template[1..], k - 1);
      }
    }
  }

  /** What is written of a template: the values of those places. */
  lemma {:induction false} OverlayAt(template: seq<Attr>, given: map<Name, Frame>) returns (at: seq<nat>)
    ensures Places(template, at) && Within(template, at)
    ensures Rendered(Overlay(template, given)) == Values(template, given, at)
    decreases |template|
  {
    at := [];
    if template != [] {
      var more := OverlayAt(template[1..], given);
      at := if GoesOut(template, 0) then [0] + Shifted(more) else Shifted(more);
      PlacesOn(template, more, at);
      ValuesOn(template, given, more, at);
      OverlayHead(template, given);
    }
  }

  predicate Within(template: seq<Attr>, at: seq<nat>) { forall i :: 0 <= i < |at| ==> at[i] < |template| }

  function Value(template: seq<Attr>, given: map<Name, Frame>, k: nat): Attr
    requires k < |template|
  {
    Attr(template[k].name, Escaped(ValueOf(template[k], given)))
  }

  function Values(template: seq<Attr>, given: map<Name, Frame>, at: seq<nat>): (r: seq<Attr>)
    requires Within(template, at)
    ensures |r| == |at| && forall j :: 0 <= j < |at| ==> r[j] == Value(template, given, at[j])
  {
    seq(|at|, j requires 0 <= j < |at| => Value(template, given, at[j]))
  }

  lemma ShiftedValues(template: seq<Attr>, given: map<Name, Frame>, more: seq<nat>)
    requires template != [] && Within(template[1..], more)
    ensures Within(template, Shifted(more))
    ensures Values(template, given, Shifted(more)) == Values(template[1..], given, more)
  {
    forall j | 0 <= j < |more| ensures Value(template, given, Shifted(more)[j]) == Value(template[1..], given, more[j])
    {
    }
  }

  lemma ValuesOn(template: seq<Attr>, given: map<Name, Frame>, more: seq<nat>, at: seq<nat>)
    requires template != [] && Within(template[1..], more)
    requires at == if GoesOut(template, 0) then [0] + Shifted(more) else Shifted(more)
    ensures Within(template, at)
    ensures Values(template, given, at) ==
              (if GoesOut(template, 0) then [Value(template, given, 0)] else []) + Values(template[1..], given, more)
  {
    ShiftedValues(template, given, more);
    if GoesOut(template, 0) {
      var r := [Value(template, given, 0)] + Values(template[1..], given, more);
      forall j | 0 <= j < |at| ensures Value(template, given, at[j]) == r[j]
      {
        assert j > 0 ==> at[j] == Shifted(more)[j - 1];
      }
    }
  }

  // ---------------------------------------------------------------- the file and what is written

  /**
   Every point that is written, position by position: it stands behind those of the loaded records before it; its
   class is its own record's; its tag is the group's first UNIVNAME, or '/' and the record's point name; its attributes
   are those of the template but "UNIVNAME" and "OBJCLASS", in order, each with the group's first value for it or the
   template's own, escaped.
   */
  lemma {:induction false} WrittenFromRecords(classes: Classes, xs: seq<Record>, n: nat, next: nat)
    returns (at: seq<nat>, values: seq<Frame>)
    requires xs != [] && xs[0].Instance? && NoneUnused(ButLast(Groups(xs)))
    requires GroupSpans(xs, n, next) && Loaded(classes, xs[n].cls)
    requires Points(classes, xs[..n]) < |ReadAll(classes, START, xs).out|
    ensures var p, template := ReadAll(classes, START, xs).out[Points(classes, xs[..n])], classes[xs[n].cls].value;
            && p.cls == xs[n].cls
            && FirstOr(xs, n, next, UNIVNAME, p.tag, [47] + xs[n].point)
            && Places(template, at) && Within(template, at) && |at| == |values| == |p.attrs|
            && forall j :: 0 <= j < |at| ==>
                 && p.attrs[j] == Attr(template[at[j]].name, Escaped(values[j]))
                 && FirstOr(xs, n, next, template[at[j]].name, values[j], template[at[j]].value)
  {
    var template, own := classes[xs[n].cls].value, Inserts(map[], Lead(xs[n + 1..]));
    OutputAt(classes, xs, n);
    GivenBehind(xs, n, next, Attr(UNIVNAME, [47] + xs[n].point));
    at := OverlayAt(template, own);
    values := ValuesBehind(xs, n, next, template, own, at);
  }

  lemma ValuesBehind(xs: seq<Record>, n: nat, next: nat, template: seq<Attr>, own: map<Name, Frame>, at: seq<nat>)
    returns (values: seq<Frame>)
    requires GroupSpans(xs, n, next) && own == Inserts(map[], Lead(xs[n + 1..])) && Within(template, at)
    ensures |values| == |at|
    ensures forall j :: 0 <= j < |at| ==>
              && Values(template, own, at)[j] == Attr(template[at[j]].name, Escaped(values[j]))
              && FirstOr(xs, n, next, template[at[j]].name, values[j], template[at[j]].value)
  {
    values := seq(|at|, j requires 0 <= j < |at| => ValueOf(template[at[j]], own));
    forall j | 0 <= j < |at|
      ensures FirstOr(xs, n, next, template[at[j]].name, ValueOf(template[at[j]], own), template[at[j]].value)
    {
      GivenBehind(xs, n, next, template[at[j]]);
    }
  }
}
