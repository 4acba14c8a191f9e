/** Read and write regions of a table and their intersection with the range of a shard
    (src/expression.rs:865-1072, src/common.rs:337-411). */
module Regions {
  import opened Wrappers
  import opened Values
  import opened Bounds
  import opened KeyRegions

  type RowRegion = seq<KeyBound>

  datatype ReadRegion = ReadRegion(rows: RowRegion, cols: seq<ColName>)
  datatype WriteRegion = WriteRegion(rows: RowRegion, presence: bool, cols: seq<ColName>)

  /** What a query may read or change: whether a row is present, and one of its cells. */
  datatype Item = Presence(pk: PrimaryKey) | Cell(pk: PrimaryKey, col: ColName)

  ghost predicate Reads(r: ReadRegion, x: Item) {
    InRegion(r.rows, x.pk) && (x.Cell? ==> x.col in r.cols)
  }

  ghost predicate Writes(w: WriteRegion, x: Item) {
    InRegion(w.rows, x.pk) && (x.Cell? ==> x.col in w.cols) && (x.Presence? ==> w.presence)
  }

  /** Every bound of the region has the types `ts`. */
  predicate Typed(rows: RowRegion, ts: seq<ColType>) {
    forall k | 0 <= k < |rows| ::
      |rows[k]| == |ts| && forall j | 0 <= j < |ts| :: rows[k][j].t == ts[j]
  }

  // ---------------------------------------------------------------------------------------------
  //  Isolation
  // ---------------------------------------------------------------------------------------------

  predicate MightColIntersect(a: ColBound, b: ColBound) {
    !SurelyEmpty(Intersect(a, b))
  }

  lemma {:induction false} ApartCols(a: ColBound, b: ColBound, x: ColVal)
    requires !MightColIntersect(a, b)
    ensures !(In(a, x) && In(b, x))
  {
    IntersectExact(a, b, x);
    SurelyEmptyIsEmpty(Intersect(a, b), x);
  }

  /** No column alone keeps the two bounds apart. */
  predicate MayMeet(a: KeyBound, b: KeyBound) {
    |a| == |b| && forall k | 0 <= k < |a| :: MightColIntersect(a[k].bound, b[k].bound)
  }

  ghost predicate RegionsMayMeet(a: RowRegion, b: RowRegion) {
    exists i, j :: 0 <= i < |a| && 0 <= j < |b| && MayMeet(a[i], b[j])
  }

  lemma {:induction false} ApartBounds(a: KeyBound, b: KeyBound, pk: PrimaryKey)
    requires InKeyBound(a, pk) && InKeyBound(b, pk)
    ensures MayMeet(a, b)
  {
    forall k | 0 <= k < |a| ensures MightColIntersect(a[k].bound, b[k].bound) {
      if !MightColIntersect(a[k].bound, b[k].bound) { ApartCols(a[k].bound, b[k].bound, pk[k]); }
    }
  }

  lemma {:induction false} ApartRegions(a: RowRegion, b: RowRegion, pk: PrimaryKey)
    requires InRegion(a, pk) && InRegion(b, pk)
    ensures RegionsMayMeet(a, b)
  {
    var i :| 0 <= i < |a| && InKeyBound(a[i], pk);
    var j :| 0 <= j < |b| && InKeyBound(b[j], pk);
    ApartBounds(a[i], b[j], pk);
  }

  /** `might_key_bound_intersect`: false only if the bounds have no key in common. */
  method MightKeyBoundIntersect(a: KeyBound, b: KeyBound) returns (might: bool)
    requires |a| == |b| && forall k | 0 <= k < |a| :: a[k].t == b[k].t
    ensures might <==> MayMeet(a, b)
    ensures !might ==> forall pk :: !(InKeyBound(a, pk) && InKeyBound(b, pk))
  {
    var i := 0;
    while i < |a|
      invariant 0 <= i <= |a| && forall k | 0 <= k < i :: MightColIntersect(a[k].bound, b[k].bound)
    {
      if !MightColIntersect(a[i].bound, b[i].bound) {
        forall pk | InKeyBound(a, pk) && InKeyBound(b, pk) ensures false { ApartBounds(a, b, pk); }
        return false;
      }
      i := i + 1;
    }
    return true;
  }

  /** `might_row_region_intersect`: false only if the regions have no key in common. */
  method MightRowRegionIntersect(a: RowRegion, b: RowRegion, ghost ts: seq<ColType>) returns (might: bool)
    requires Typed(a, ts) && Typed(b, ts)
    ensures might <==> RegionsMayMeet(a, b)
    ensures !might ==> forall pk :: !(InRegion(a, pk) && InRegion(b, pk))
  {
    var i := 0;
    while i < |a|
      invariant 0 <= i <= |a|
      invariant forall k, j | 0 <= k < i && 0 <= j < |b| :: !MayMeet(a[k], b[j])
    {
      var j := 0;
      while j < |b|
        invariant 0 <= j <= |b|
        invariant forall k | 0 <= k < j :: !MayMeet(a[i], b[k])
      {
        var m := MightKeyBoundIntersect(a[i], b[j]);
        if m { return true; }
        j := j + 1;
      }
      i := i + 1;
    }
    assert !RegionsMayMeet(a, b);
    forall pk ensures !(InRegion(a, pk) && InRegion(b, pk)) {
      if InRegion(a, pk) && InRegion(b, pk) { ApartRegions(a, b, pk); }
    }
    return false;
  }

  /** `does_col_regions_intersect`. */
  method DoesColRegionsIntersect(a: seq<ColName>, b: seq<ColName>) returns (does: bool)
    ensures does <==> exists c :: c in a && c in b
  {
    var i := 0;
    while i < |a|
      invariant 0 <= i <= |a| && forall k | 0 <= k < i :: a[k] !in b
    {
      if a[i] in b { return true; }
      i := i + 1;
    }
    return false;
  }

  /** Neither the bounds nor the columns keep what is read and what is written apart. */
  ghost predicate MayClash(w: WriteRegion, r: ReadRegion) {
    RegionsMayMeet(r.rows, w.rows) && (w.presence || exists c :: c in r.cols && c in w.cols)
  }

  /** `is_surely_isolated`: if true, nothing read is written. */
  method IsSurelyIsolated(w: WriteRegion, r: ReadRegion, ghost ts: seq<ColType>) returns (isolated: bool)
    requires Typed(w.rows, ts) && Typed(r.rows, ts)
    ensures isolated ==> forall x :: !(Reads(r, x) && Writes(w, x))
    ensures isolated <==> !MayClash(w, r)
  {
    var might := MightRowRegionIntersect(r.rows, w.rows, ts);
    if might {
      if w.presence {
        return false;
      } else {
        var does := DoesColRegionsIntersect(r.cols, w.cols);
        return !does;
      }
    } else {
      return true;
    }
  }

  /** `is_surely_isolated_multiread`; a set is visited in some order. */
  method IsSurelyIsolatedMultiread(w: WriteRegion, rs: seq<ReadRegion>, ghost ts: seq<ColType>) returns (isolated: bool)
    requires Typed(w.rows, ts) && forall k | 0 <= k < |rs| :: Typed(rs[k].rows, ts)
    ensures isolated ==> forall k, x | 0 <= k < |rs| :: !(Reads(rs[k], x) && Writes(w, x))
    ensures isolated <==> forall k | 0 <= k < |rs| :: !MayClash(w, rs[k])
  {
    var i := 0;
    while i < |rs|
      invariant 0 <= i <= |rs| && forall k, x | 0 <= k < i :: !(Reads(rs[k], x) && Writes(w, x))
      invariant forall k | 0 <= k < i :: !MayClash(w, rs[k])
    {
      var ok := IsSurelyIsolated(w, rs[i], ts);
      if !ok { return false; }
      i := i + 1;
    }
    return true;
  }

  /** `is_surely_isolated_multiwrite`. */
  method IsSurelyIsolatedMultiwrite(ws: seq<WriteRegion>, r: ReadRegion, ghost ts: seq<ColType>) returns (isolated: bool)
    requires Typed(r.rows, ts) && forall k | 0 <= k < |ws| :: Typed(ws[k].rows, ts)
    ensures isolated ==> forall k, x | 0 <= k < |ws| :: !(Reads(r, x) && Writes(ws[k], x))
    ensures isolated <==> forall k | 0 <= k < |ws| :: !MayClash(ws[k], r)
  {
    var i := 0;
    while i < |ws|
      invariant 0 <= i <= |ws| && forall k, x | 0 <= k < i :: !(Reads(r, x) && Writes(ws[k], x))
      invariant forall k | 0 <= k < i :: !MayClash(ws[k], r)
    {
      var ok := IsSurelyIsolated(ws[i], r, ts);
      if !ok { return false; }
      i := i + 1;
    }
    return true;
  }

  // ---------------------------------------------------------------------------------------------
  //  The range of a shard
  // ---------------------------------------------------------------------------------------------

  /** The keys whose first column is at least `start` and less than `end`. */
  datatype TabletKeyRange = TabletKeyRange(start: ColValN, end: ColValN)

  predicate Contains(r: TabletKeyRange, x: ColVal) {
    (r.start.Some? ==> !Less(x, r.start.value)) && (r.end.Some? ==> Less(x, r.end.value))
  }

  predicate ContainsKey(r: TabletKeyRange, pk: PrimaryKey) {
    pk != [] ==> Contains(r, pk[0])
  }

  /** `into_col_bound`. */
  function AsBound(r: TabletKeyRange): ColBound {
    ColBound(if r.start.Some? then Included(r.start.value) else Unbounded,
             if r.end.Some? then Excluded(r.end.value) else Unbounded)
  }

  /** The range is typed as the first key column, if it is restricted at all. */
  predicate RangeOk(keys: KeyCols, r: TabletKeyRange) {
    && (r.start.Some? ==> keys != [] && TypeOf(r.start.value) == keys[0].1)
    && (r.end.Some? ==> keys != [] && TypeOf(r.end.value) == keys[0].1)
  }

  function Types(keys: KeyCols): seq<ColType> {
    seq(|keys|, k requires 0 <= k < |keys| => keys[k].1)
  }

  /** `range_might_intersect_row_region`: false only if no key of the region is in the range. */
  method RangeMightIntersectRowRegion(keys: KeyCols, range: TabletKeyRange, rows: RowRegion) returns (might: bool)
    requires RangeOk(keys, range) && Typed(rows, Types(keys))
    ensures !might ==> forall pk | InRegion(rows, pk) :: !ContainsKey(range, pk)
    ensures might <==> exists k :: 0 <= k < |rows| && (rows[k] == [] || MightColIntersect(AsBound(range), rows[k][0].bound))
  {
    if keys != [] {
      var i := 0;
      while i < |rows|
        invariant 0 <= i <= |rows|
        invariant forall k, pk | 0 <= k < i && InKeyBound(rows[k], pk) :: !ContainsKey(range, pk)
        invariant forall k | 0 <= k < i :: rows[k] != [] && !MightColIntersect(AsBound(range), rows[k][0].bound)
      {
        if MightColIntersect(AsBound(range), rows[i][0].bound) { return true; }
        forall pk | InKeyBound(rows[i], pk) ensures !ContainsKey(range, pk) {
          ApartCols(AsBound(range), rows[i][0].bound, pk[0]);
        }
        i := i + 1;
      }
      return false;
    } else {
      assert rows != [] ==> rows[0] == [];
      return rows != [];
    }
  }

  /** The part of a key bound inside a range. */
  function Sliced(range: TabletKeyRange, kb: KeyBound): KeyBound
    requires kb != []
  {
    kb[0 := kb[0].(bound := Intersect(AsBound(range), kb[0].bound))]
  }

  lemma {:induction false} SlicedExact(range: TabletKeyRange, kb: KeyBound, pk: PrimaryKey)
    requires kb != []
    ensures InKeyBound(Sliced(range, kb), pk) <==> InKeyBound(kb, pk) && ContainsKey(range, pk)
  {
    if |pk| == |kb| {
      IntersectExact(AsBound(range), kb[0].bound, pk[0]);
      assert Contains(range, pk[0]) <==> In(AsBound(range), pk[0]);
      hide In, Intersect, Contains;
      var s := Sliced(range, kb);
      assert forall k | 1 <= k < |kb| :: s[k] == kb[k];
      assert s[0].t == kb[0].t && s[0].bound == Intersect(AsBound(range), kb[0].bound);
      if InKeyBound(s, pk) {
        forall k | 0 <= k < |pk| ensures TypeOf(pk[k]) == kb[k].t && In(kb[k].bound, pk[k]) {
          assert TypeOf(pk[k]) == s[k].t && In(s[k].bound, pk[k]);
        }
      }
    }
  }

  /** `range_row_region_intersection`: exactly the keys of the region inside the range. */
  method RangeRowRegionIntersection(keys: KeyCols, range: TabletKeyRange, rows: RowRegion) returns (res: RowRegion)
    requires RangeOk(keys, range) && Typed(rows, Types(keys))
    ensures forall pk :: InRegion(res, pk) <==> InRegion(rows, pk) && ContainsKey(range, pk)
  {
    if keys != [] {
      res := [];
      var i := 0;
      while i < |rows|
        invariant 0 <= i <= |rows| && |res| == i
        invariant forall k | 0 <= k < i :: res[k] == Sliced(range, rows[k])
      {
        res := res + [Sliced(range, rows[i])];
        i := i + 1;
      }
      forall pk ensures InRegion(res, pk) <==> InRegion(rows, pk) && ContainsKey(range, pk) {
        SlicesExact(range, rows, res, pk);
      }
    } else {
      res := rows;
      assert forall pk | InRegion(rows, pk) :: pk == [];
    }
  }

  lemma {:induction false} SlicesExact(range: TabletKeyRange, rows: RowRegion, res: RowRegion, pk: PrimaryKey)
    requires |res| == |rows| && forall k | 0 <= k < |rows| :: rows[k] != [] && res[k] == Sliced(range, rows[k])
    ensures InRegion(res, pk) <==> InRegion(rows, pk) && ContainsKey(range, pk)
  {
    forall k | 0 <= k < |rows| ensures InKeyBound(res[k], pk) <==> InKeyBound(rows[k], pk) && ContainsKey(range, pk) {
      SlicedExact(range, rows[k], pk);
    }
    hide InKeyBound, ContainsKey, Sliced;
    if InRegion(rows, pk) && ContainsKey(range, pk) {
      var k :| 0 <= k < |rows| && InKeyBound(rows[k], pk);
      assert InKeyBound(res[k], pk);
    }
    if InRegion(res, pk) {
      var k :| 0 <= k < |res| && InKeyBound(res[k], pk);
      assert InKeyBound(rows[k], pk);
    }
  }
}
