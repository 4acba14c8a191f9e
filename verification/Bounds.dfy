/** Intervals of column values and the algebra of sets of them (src/expression.rs:700-865). */
module Bounds {
  import opened Values

  datatype SingleBound = Included(v: ColVal) | Excluded(v: ColVal) | Unbounded

  datatype ColBound = ColBound(start: SingleBound, end: SingleBound)

  const FULL := ColBound(Unbounded, Unbounded)

  predicate Above(start: SingleBound, x: ColVal) {
    match start
    case Included(v) => !Less(x, v)
    case Excluded(v) => Less(v, x)
    case Unbounded => true
  }

  predicate Below(end: SingleBound, x: ColVal) {
    match end
    case Included(v) => !Less(v, x)
    case Excluded(v) => Less(x, v)
    case Unbounded => true
  }

  predicate In(b: ColBound, x: ColVal) {
    Above(b.start, x) && Below(b.end, x)
  }

  ghost predicate InAny(bs: seq<ColBound>, x: ColVal) {
    exists k :: 0 <= k < |bs| && In(bs[k], x)
  }

  predicate Greater(a: ColVal, b: ColVal) { Less(b, a) }
  predicate GreaterEq(a: ColVal, b: ColVal) { !Less(a, b) }

  /** `col_bound_intersect_interval`. */
  function Intersect(l: ColBound, r: ColBound): ColBound {
    var lower := match (l.start, r.start)
      case (Unbounded, _) => r.start
      case (_, Unbounded) => l.start
      case (Excluded(b1), Included(b2)) => if Greater(b2, b1) then r.start else l.start
      case _ => if Greater(l.start.v, r.start.v) then l.start else r.start;
    var upper := match (l.end, r.end)
      case (Unbounded, _) => r.end
      case (_, Unbounded) => l.end
      case (Excluded(b1), Included(b2)) => if Greater(b1, b2) then r.end else l.end
      case _ => if Greater(r.end.v, l.end.v) then l.end else r.end;
    ColBound(lower, upper)
  }

  /** `is_surely_interval_empty`. */
  predicate SurelyEmpty(b: ColBound) {
    match (b.start, b.end)
    case (Unbounded, _) => false
    case (_, Unbounded) => false
    case (Included(b1), Included(b2)) => Greater(b1, b2)
    case _ => GreaterEq(b.start.v, b.end.v)
  }

  /** An intersection holds exactly what both hold. */
  lemma {:induction false} IntersectExact(l: ColBound, r: ColBound, x: ColVal)
    ensures In(Intersect(l, r), x) <==> In(l, x) && In(r, x)
  {
    StartExact(l, r, x);
    EndExact(l, r, x);
  }

  /** The facts about the order that comparing two end points with a value needs. */
  lemma {:induction false} Compare(a: ColVal, b: ColVal, x: ColVal)
    ensures !(Less(a, b) && Less(b, a)) && !(Less(a, x) && Less(x, a)) && !(Less(b, x) && Less(x, b))
    ensures Less(a, b) && Less(b, x) ==> Less(a, x)
    ensures Less(x, a) && Less(a, b) ==> Less(x, b)
    ensures Less(a, b) && !Less(x, b) ==> Less(a, x)
    ensures Less(a, b) && !Less(a, x) ==> Less(x, b)
    ensures !Less(a, b) && Less(a, x) ==> Less(b, x)
    ensures !Less(a, b) && !Less(x, a) ==> !Less(x, b)
    ensures !Less(a, b) && Less(x, b) ==> Less(x, a)
    ensures !Less(a, b) && !Less(b, x) ==> !Less(a, x)
  {
    LessTotal(a, b);
    LessTotal(b, x);
    LessTotal(a, x);
    if Less(a, b) && Less(b, x) { LessTransitive(a, b, x); }
    if Less(x, a) && Less(a, b) { LessTransitive(x, a, b); }
    if Less(b, a) && Less(a, x) { LessTransitive(b, a, x); }
    if Less(x, b) && Less(b, a) { LessTransitive(x, b, a); }
  }

  lemma {:induction false} StartExact(l: ColBound, r: ColBound, x: ColVal)
    ensures Above(Intersect(l, r).start, x) <==> Above(l.start, x) && Above(r.start, x)
  {
    hide Less;
    if l.start != Unbounded && r.start != Unbounded {
      Compare(l.start.v, r.start.v, x);
      Compare(r.start.v, l.start.v, x);
    }
  }

  lemma {:induction false} EndExact(l: ColBound, r: ColBound, x: ColVal)
    ensures Below(Intersect(l, r).end, x) <==> Below(l.end, x) && Below(r.end, x)
  {
    hide Less;
    if l.end != Unbounded && r.end != Unbounded {
      Compare(l.end.v, r.end.v, x);
      Compare(r.end.v, l.end.v, x);
    }
  }

  lemma {:induction false} SurelyEmptyIsEmpty(b: ColBound, x: ColVal)
    requires SurelyEmpty(b)
    ensures !In(b, x)
  {
    hide Less;
    Compare(b.end.v, b.start.v, x);
    Compare(b.start.v, b.end.v, x);
  }

  // ---------------------------------------------------------------------------------------------
  //  Sets of intervals
  // ---------------------------------------------------------------------------------------------

  /** The intersections of `l` with every one of `rs` that may not be empty. */
  function IntersectOne(l: ColBound, rs: seq<ColBound>): seq<ColBound> {
    if rs == [] then []
    else
      var b := Intersect(l, rs[|rs| - 1]);
      IntersectOne(l, rs[..|rs| - 1]) + if SurelyEmpty(b) then [] else [b]
  }

  function IntersectAll(ls: seq<ColBound>, rs: seq<ColBound>): seq<ColBound> {
    if ls == [] then [] else IntersectAll(ls[..|ls| - 1], rs) + IntersectOne(ls[|ls| - 1], rs)
  }

  lemma {:induction false} InAnyConcat(a: seq<ColBound>, b: seq<ColBound>, x: ColVal)
    ensures InAny(a + b, x) <==> InAny(a, x) || InAny(b, x)
  {
    if InAny(a, x) {
      var k :| 0 <= k < |a| && In(a[k], x);
      assert (a + b)[k] == a[k];
    }
    if InAny(b, x) {
      var k :| 0 <= k < |b| && In(b[k], x);
      assert (a + b)[|a| + k] == b[k];
    }
  }

  lemma {:induction false} InOne(b: ColBound, x: ColVal)
    ensures InAny([b], x) <==> In(b, x)
  {
    if In(b, x) { assert In([b][0], x); }
  }

  lemma {:induction false} LastIn(bs: seq<ColBound>, x: ColVal)
    requires bs != []
    ensures InAny(bs, x) <==> InAny(bs[..|bs| - 1], x) || In(bs[|bs| - 1], x)
  {
    assert bs == bs[..|bs| - 1] + [bs[|bs| - 1]];
    InAnyConcat(bs[..|bs| - 1], [bs[|bs| - 1]], x);
    InOne(bs[|bs| - 1], x);
  }

  lemma {:induction false} IntersectOneExact(l: ColBound, rs: seq<ColBound>, x: ColVal)
    ensures InAny(IntersectOne(l, rs), x) <==> In(l, x) && InAny(rs, x)
  {
    if rs != [] {
      var init, r := rs[..|rs| - 1], rs[|rs| - 1];
      var b := Intersect(l, r);
      IntersectOneExact(l, init, x);
      LastIn(rs, x);
      IntersectExact(l, r, x);
      if SurelyEmpty(b) { SurelyEmptyIsEmpty(b, x); }
      InAnyConcat(IntersectOne(l, init), if SurelyEmpty(b) then [] else [b], x);
      InOne(b, x);
      hide In, InAny, SurelyEmpty, Intersect;
      assert !InAny([], x) by { Nothing(x); }
    }
  }

  lemma {:induction false} Nothing(x: ColVal)
    ensures !InAny([], x)
  {
  }

  /** The intersection of two sets of intervals holds exactly what both hold. */
  lemma {:induction false} IntersectAllExact(ls: seq<ColBound>, rs: seq<ColBound>, x: ColVal)
    ensures InAny(IntersectAll(ls, rs), x) <==> InAny(ls, x) && InAny(rs, x)
  {
    if ls != [] {
      var init, l := ls[..|ls| - 1], ls[|ls| - 1];
      IntersectAllExact(init, rs, x);
      IntersectOneExact(l, rs, x);
      LastIn(ls, x);
      InAnyConcat(IntersectAll(init, rs), IntersectOne(l, rs), x);
    }
  }

  /** `col_bounds_intersect`. */
  method ColBoundsIntersect(ls: seq<ColBound>, rs: seq<ColBound>) returns (res: seq<ColBound>)
    ensures res == IntersectAll(ls, rs)
    ensures forall x :: InAny(res, x) <==> InAny(ls, x) && InAny(rs, x)
  {
    res := [];
    var i := 0;
    while i < |ls|
      invariant 0 <= i <= |ls| && res == IntersectAll(ls[..i], rs)
    {
      var j := 0;
      ghost var before := res;
      while j < |rs|
        invariant 0 <= j <= |rs| && res == before + IntersectOne(ls[i], rs[..j])
      {
        var b := Intersect(ls[i], rs[j]);
        assert rs[..j + 1][..j] == rs[..j];
        if !SurelyEmpty(b) { res := res + [b]; }
        j := j + 1;
      }
      assert rs[..j] == rs && ls[..i + 1][..i] == ls[..i];
      i := i + 1;
    }
    assert ls[..i] == ls;
    forall x ensures InAny(res, x) <==> InAny(ls, x) && InAny(rs, x) { IntersectAllExact(ls, rs, x); }
  }

  /** `invert_col_bound`: the complement of one interval. */
  function Invert(b: ColBound): seq<ColBound> {
    match (b.start, b.end)
    case (Unbounded, Unbounded) => []
    case (Unbounded, Included(e)) => [ColBound(Excluded(e), Unbounded)]
    case (Unbounded, Excluded(e)) => [ColBound(Included(e), Unbounded)]
    case (Included(s), Unbounded) => [ColBound(Unbounded, Excluded(s))]
    case (Excluded(s), Unbounded) => [ColBound(Unbounded, Included(s))]
    case (Included(s), Included(e)) =>
      if Greater(s, e) then [FULL] else [ColBound(Unbounded, Excluded(s)), ColBound(Excluded(e), Unbounded)]
    case (Included(s), Excluded(e)) =>
      if GreaterEq(s, e) then [FULL] else [ColBound(Unbounded, Excluded(s)), ColBound(Included(e), Unbounded)]
    case (Excluded(s), Included(e)) =>
      if GreaterEq(s, e) then [FULL] else [ColBound(Unbounded, Included(s)), ColBound(Excluded(e), Unbounded)]
    case (Excluded(s), Excluded(e)) =>
      if GreaterEq(s, e) then [FULL] else [ColBound(Unbounded, Included(s)), ColBound(Included(e), Unbounded)]
  }

  lemma {:induction false} InPair(a: ColBound, b: ColBound, x: ColVal)
    ensures InAny([a, b], x) <==> In(a, x) || In(b, x)
  {
    assert [a, b] == [a] + [b];
    InAnyConcat([a], [b], x);
    InOne(a, x);
    InOne(b, x);
  }

  /** The complement of an interval holds exactly what the interval does not. */
  lemma {:induction false} InvertExact(b: ColBound, x: ColVal)
    ensures InAny(Invert(b), x) <==> !In(b, x)
  {
    var inv := Invert(b);
    if |inv| == 1 { InOne(inv[0], x); assert inv == [inv[0]]; }
    if |inv| == 2 { InPair(inv[0], inv[1], x); assert inv == [inv[0], inv[1]]; }
    hide Less, InAny;
    if b.start != Unbounded && b.end != Unbounded {
      Compare(b.start.v, b.end.v, x);
      Compare(b.end.v, b.start.v, x);
    }
    if inv == [] { Nothing(x); }
  }

  function InvertAll(bs: seq<ColBound>): seq<ColBound> {
    if bs == [] then [FULL] else IntersectAll(InvertAll(bs[..|bs| - 1]), Invert(bs[|bs| - 1]))
  }

  /** The complement of a set of intervals holds exactly what none of them does. */
  lemma {:induction false} InvertAllExact(bs: seq<ColBound>, x: ColVal)
    ensures InAny(InvertAll(bs), x) <==> !InAny(bs, x)
  {
    if bs == [] {
      InOne(FULL, x);
    } else {
      var init, b := bs[..|bs| - 1], bs[|bs| - 1];
      InvertAllExact(init, x);
      InvertExact(b, x);
      LastIn(bs, x);
      IntersectAllExact(InvertAll(init), Invert(b), x);
    }
  }

  /** `invert_col_bounds`. */
  method InvertColBounds(bs: seq<ColBound>) returns (cum: seq<ColBound>)
    ensures cum == InvertAll(bs)
    ensures forall x :: InAny(cum, x) <==> !InAny(bs, x)
  {
    cum := [FULL];
    var i := 0;
    while i < |bs|
      invariant 0 <= i <= |bs| && cum == InvertAll(bs[..i])
    {
      cum := ColBoundsIntersect(cum, Invert(bs[i]));
      assert bs[..i + 1][..i] == bs[..i];
      i := i + 1;
    }
    assert bs[..i] == bs;
    forall x ensures InAny(cum, x) <==> !InAny(bs, x) { InvertAllExact(bs, x); }
  }
}
