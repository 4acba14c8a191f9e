/** The metadata the master commits DDL queries and shard splits to (src/common.rs:806-931,
    src/create_table_tm_es.rs, src/alter_table_tm_es.rs, src/drop_table_tm_es.rs,
    src/shard_split_tm_es.rs). */
module Metadata {
  import opened Wrappers
  import opened Values
  import opened Timestamps
  import opened MultiVersion
  import opened SchemaViews
  import opened Regions

  datatype TabletId = TabletId(name: string)
  datatype SlaveId = SlaveId(name: string)

  type Shards = seq<(TabletKeyRange, TabletId)>

  datatype Gossip = Gossip(
    gens: Mvm<TablePath, FullGen>,
    schemas: map<(TablePath, nat), TableSchema>,
    sharding: map<(TablePath, FullGen), Shards>,
    addresses: map<TabletId, SlaveId>)

  /** A table had this generation at some time. */
  ghost predicate Had(gens: Mvm<TablePath, FullGen>, p: TablePath, g: FullGen) {
    exists k :: 0 <= k < |Versions(gens, p)| && Versions(gens, p)[k].1 == Some(g)
  }

  ghost predicate HadGen(gens: Mvm<TablePath, FullGen>, p: TablePath, g: nat) {
    exists k :: 0 <= k < |Versions(gens, p)| && Versions(gens, p)[k].1.Some? && Versions(gens, p)[k].1.value.gen == g
  }

  /** The first documented property: schemas are kept for exactly the generations tables had. */
  ghost predicate PropertyOne(g: Gossip) {
    forall p, n: nat :: (p, n) in g.schemas <==> HadGen(g.gens, p, n)
  }

  /** The second: and so are shards, sharding by sharding. */
  ghost predicate PropertyTwo(g: Gossip) {
    forall p, f :: (p, f) in g.sharding <==> Had(g.gens, p, f)
  }

  /** The fourth: every tablet of a sharding has an address. */
  ghost predicate PropertyFour(g: Gossip) {
    forall x, k | x in g.sharding && 0 <= k < |g.sharding[x]| :: g.sharding[x][k].1 in g.addresses
  }

  predicate Newer(a: FullGen, b: FullGen) {
    a.gen < b.gen || (a.gen == b.gen && a.sharding < b.sharding)
  }

  /** The generations of a table, and the shardings within one, only go up. */
  ghost predicate GensOrdered(vs: seq<Version<FullGen>>) {
    forall j, k | 0 <= j < k < |vs| && vs[j].1.Some? && vs[k].1.Some? :: Newer(vs[j].1.value, vs[k].1.value)
  }

  ghost predicate Inv(g: Gossip) {
    && Valid(g.gens) && (forall x | x in g.schemas :: Valid(g.schemas[x].valCols))
    && PropertyOne(g) && PropertyTwo(g) && PropertyFour(g)
    && forall p :: GensOrdered(Versions(g.gens, p))
  }

  const TICK := Millis(1)

  /** `next_gen`. */
  function NextGen(cur: Option<FullGen>): nat {
    if cur.Some? then cur.value.gen + 1 else 0
  }

  // ---------------------------------------------------------------------------------------------
  //  The four commits
  // ---------------------------------------------------------------------------------------------

  function NewCols(cols: seq<(ColName, ColType)>, t: Timestamp): Mvm<ColName, ColType> {
    if cols == [] then NewMvm()
    else Written(NewCols(cols[..|cols| - 1], t), cols[|cols| - 1].0, Some(cols[|cols| - 1].1), t)
  }

  function Stripped(shards: seq<(TabletKeyRange, TabletId, SlaveId)>): (s: Shards)
    ensures |s| == |shards| && forall k | 0 <= k < |s| :: s[k] == (shards[k].0, shards[k].1)
  {
    seq(|shards|, k requires 0 <= k < |shards| => (shards[k].0, shards[k].1))
  }

  function Addressed(a: map<TabletId, SlaveId>, shards: seq<(TabletKeyRange, TabletId, SlaveId)>): map<TabletId, SlaveId> {
    if shards == [] then a
    else Addressed(a, shards[..|shards| - 1])[shards[|shards| - 1].1 := shards[|shards| - 1].2]
  }

  function CreateTime(g: Gossip, p: TablePath, hint: Timestamp): Timestamp {
    Later(hint, Add(Lat(g.gens, p), TICK))
  }

  function CreateGen(g: Gossip, p: TablePath): FullGen {
    FullGen(NextGen(LastPresentOf(Versions(g.gens, p))), 0)
  }

  function Created(g: Gossip, p: TablePath, keyCols: seq<(ColName, ColType)>, valCols: seq<(ColName, ColType)>,
                   shards: seq<(TabletKeyRange, TabletId, SlaveId)>, hint: Timestamp): Gossip {
    var t, f := CreateTime(g, p, hint), CreateGen(g, p);
    Gossip(Written(g.gens, p, Some(f), t),
           g.schemas[(p, f.gen) := TableSchema(keyCols, NewCols(valCols, t))],
           g.sharding[(p, f) := Stripped(shards)],
           Addressed(g.addresses, shards))
  }

  function AlterTime(g: Gossip, p: TablePath, gen: nat, col: ColName, hint: Timestamp): Timestamp
    requires (p, gen) in g.schemas
  {
    Later(Later(hint, Add(Lat(g.gens, p), TICK)), Add(Lat(g.schemas[(p, gen)].valCols, col), TICK))
  }

  function Altered(g: Gossip, p: TablePath, gen: nat, col: ColName, val: Option<ColType>, hint: Timestamp): Gossip
    requires (p, gen) in g.schemas
  {
    var t, s := AlterTime(g, p, gen, col, hint), g.schemas[(p, gen)];
    g.(gens := Raised(g.gens, p, t), schemas := g.schemas[(p, gen) := s.(valCols := Written(s.valCols, col, val, t))])
  }

  function Dropped(g: Gossip, p: TablePath, hint: Timestamp): Gossip {
    g.(gens := Written(g.gens, p, None, CreateTime(g, p, hint)))
  }

  /** One shard replaced by its two parts. */
  function SplitShards(shards: Shards, old': (TabletKeyRange, TabletId), new': (TabletKeyRange, TabletId)): Shards {
    if shards == [] then []
    else
      var last := shards[|shards| - 1];
      SplitShards(shards[..|shards| - 1], old', new') + if last.1 == old'.1 then [old', new'] else [last]
  }

  function SplitGen(g: Gossip, p: TablePath): FullGen
    requires LastPresentOf(Versions(g.gens, p)).Some?
  {
    var f := LastPresentOf(Versions(g.gens, p)).value;
    FullGen(f.gen, f.sharding + 1)
  }

  /** A split makes a new sharding of the same generation. */
  function Resharded(g: Gossip, p: TablePath, old': (TabletKeyRange, TabletId), new': (TabletKeyRange, TabletId), sid: SlaveId, hint: Timestamp): Gossip
    requires LastPresentOf(Versions(g.gens, p)).Some? && (p, LastPresentOf(Versions(g.gens, p)).value) in g.sharding
  {
    var f := SplitGen(g, p);
    g.(gens := Written(g.gens, p, Some(f), CreateTime(g, p, hint)),
       sharding := g.sharding[(p, f) := SplitShards(g.sharding[(p, LastPresentOf(Versions(g.gens, p)).value)], old', new')],
       addresses := g.addresses[new'.1 := sid])
  }

  /** Column names do not repeat. */
  predicate DistinctCols(cols: seq<(ColName, ColType)>) {
    forall j, k | 0 <= j < k < |cols| :: cols[j].0 != cols[k].0
  }

  // ---------------------------------------------------------------------------------------------
  //  Timestamps
  // ---------------------------------------------------------------------------------------------

  /** A tick after a LAT is after the LAT. */
  lemma {:induction false} TickAfter(t: Timestamp, hint: Timestamp)
    ensures Before(t, Later(hint, Add(t, TICK))) && Upto(hint, Later(hint, Add(t, TICK)))
  {
    AddMonotone(t, t, TICK);
  }

  /** The commit time of an alteration is after both LATs and not before the hint. */
  lemma {:induction false} AlterTimeIsLate(g: Gossip, p: TablePath, gen: nat, col: ColName, hint: Timestamp)
    requires (p, gen) in g.schemas
    ensures var t := AlterTime(g, p, gen, col, hint);
      Before(Lat(g.gens, p), t) && Before(Lat(g.schemas[(p, gen)].valCols, col), t) && Upto(hint, t)
  {
    TickAfter(Lat(g.gens, p), hint);
    TickAfter(Lat(g.schemas[(p, gen)].valCols, col), Later(hint, Add(Lat(g.gens, p), TICK)));
  }

  lemma {:induction false} CreateTimeIsLate(g: Gossip, p: TablePath, hint: Timestamp)
    ensures var t := CreateTime(g, p, hint); Before(Lat(g.gens, p), t) && Before(Millis(0), t) && Upto(hint, t)
  {
    TickAfter(Lat(g.gens, p), hint);
  }

  // ---------------------------------------------------------------------------------------------
  //  Versions
  // ---------------------------------------------------------------------------------------------

  lemma {:induction false} WrittenVersions<K(!new), V(!new)>(m: Mvm<K, V>, k: K, v: Option<V>, t: Timestamp, j: K)
    ensures Versions(Written(m, k, v, t), j) == if j == k then Versions(m, k) + [(t, v)] else Versions(m, j)
  {
  }

  lemma {:induction false} HadWritten(gens: Mvm<TablePath, FullGen>, q: TablePath, v: Option<FullGen>, t: Timestamp, p: TablePath)
    ensures forall f :: Had(Written(gens, q, v, t), p, f) <==> Had(gens, p, f) || (p == q && v == Some(f))
    ensures forall n: nat :: HadGen(Written(gens, q, v, t), p, n) <==> HadGen(gens, p, n) || (p == q && v.Some? && v.value.gen == n)
  {
    WrittenVersions(gens, q, v, t, p);
    var vs, ws := Versions(gens, p), Versions(Written(gens, q, v, t), p);
    hide Written;
    if p == q {
      assert ws[|vs|].1 == v && forall k | 0 <= k < |vs| :: ws[k] == vs[k];
    }
  }

  /** No generation is newer than the newest that is one. */
  lemma {:induction false} LastIsNewest(vs: seq<Version<FullGen>>)
    requires GensOrdered(vs)
    ensures forall k | 0 <= k < |vs| && vs[k].1.Some? ::
      LastPresentOf(vs).Some? && (vs[k].1 == LastPresentOf(vs) || Newer(vs[k].1.value, LastPresentOf(vs).value))
  {
    if vs != [] {
      var n := |vs| - 1;
      LastIsNewest(vs[..n]);
      if vs[n].1.None? {
        forall k | 0 <= k < |vs| && vs[k].1.Some?
          ensures LastPresentOf(vs).Some? && (vs[k].1 == LastPresentOf(vs) || Newer(vs[k].1.value, LastPresentOf(vs).value))
        {
          assert vs[..n][k] == vs[k];
        }
      }
    }
  }

  /** The next generation exceeds all others. */
  lemma {:induction false} NextGenIsNew(vs: seq<Version<FullGen>>)
    requires GensOrdered(vs)
    ensures forall k | 0 <= k < |vs| && vs[k].1.Some? :: vs[k].1.value.gen < NextGen(LastPresentOf(vs))
  {
    LastIsNewest(vs);
  }

  lemma {:induction false} OrderedNext(vs: seq<Version<FullGen>>, t: Timestamp, v: Option<FullGen>)
    requires GensOrdered(vs) && (v.Some? ==> forall k | 0 <= k < |vs| && vs[k].1.Some? :: Newer(vs[k].1.value, v.value))
    ensures GensOrdered(vs + [(t, v)])
  {
    var ws := vs + [(t, v)];
    forall j, k | 0 <= j < k < |ws| && ws[j].1.Some? && ws[k].1.Some? ensures Newer(ws[j].1.value, ws[k].1.value) {
      assert ws[j] == vs[j];
      if k < |vs| { assert ws[k] == vs[k]; }
    }
  }

  lemma {:induction false} NotHadYet(gens: Mvm<TablePath, FullGen>, p: TablePath)
    requires GensOrdered(Versions(gens, p))
    ensures !HadGen(gens, p, NextGen(LastPresentOf(Versions(gens, p))))
  {
    NextGenIsNew(Versions(gens, p));
  }

  lemma {:induction false} HadHasGen(gens: Mvm<TablePath, FullGen>, p: TablePath, f: FullGen)
    ensures Had(gens, p, f) ==> HadGen(gens, p, f.gen)
  {
  }

  lemma {:induction false} LatestIsHad(g: Gossip, p: TablePath)
    requires Inv(g) && Last(g.gens, p).Some?
    ensures (p, Last(g.gens, p).value.gen) in g.schemas && (p, Last(g.gens, p).value) in g.sharding
  {
    var vs := Versions(g.gens, p);
    assert vs[|vs| - 1].1 == Last(g.gens, p);
    assert Had(g.gens, p, Last(g.gens, p).value) && HadGen(g.gens, p, Last(g.gens, p).value.gen);
  }

  // ---------------------------------------------------------------------------------------------
  //  Create
  // ---------------------------------------------------------------------------------------------

  lemma {:induction false} NewColsValid(cols: seq<(ColName, ColType)>, t: Timestamp)
    requires DistinctCols(cols) && Before(Millis(0), t)
    ensures var m := NewCols(cols, t);
      Valid(m) && m.minLat == Millis(0) && (forall c :: c in m.entries <==> exists k :: 0 <= k < |cols| && cols[k].0 == c)
  {
    if cols != [] {
      var n := |cols| - 1;
      var init := cols[..n];
      assert DistinctCols(init);
      NewColsValid(init, t);
      var m0 := NewCols(init, t);
      assert cols[n].0 !in m0.entries by {
        forall k | 0 <= k < n ensures init[k].0 != cols[n].0 { assert init[k] == cols[k]; }
      }
      WriteGrows(m0, cols[n].0, Some(cols[n].1), t);
      var m := NewCols(cols, t);
      forall c ensures c in m.entries <==> exists k :: 0 <= k < |cols| && cols[k].0 == c {
        if c in m0.entries {
          var k :| 0 <= k < n && init[k].0 == c;
          assert cols[k].0 == c;
        }
        if k :| 0 <= k < |cols| && cols[k].0 == c { if k < n { assert init[k].0 == c; } }
      }
    }
  }

  lemma {:induction false} AddressedHas(a: map<TabletId, SlaveId>, shards: seq<(TabletKeyRange, TabletId, SlaveId)>)
    ensures a.Keys <= Addressed(a, shards).Keys
    ensures forall k | 0 <= k < |shards| :: shards[k].1 in Addressed(a, shards)
  {
    if shards != [] {
      var n := |shards| - 1;
      AddressedHas(a, shards[..n]);
      forall k | 0 <= k < |shards| ensures shards[k].1 in Addressed(a, shards) {
        if k < n { assert shards[..n][k] == shards[k]; }
      }
    }
  }

  lemma {:induction false} CreateProperties(g: Gossip, g': Gossip, p: TablePath, f: FullGen, t: Timestamp, s: TableSchema, shards: Shards)
    requires PropertyOne(g) && PropertyTwo(g)
    requires g'.gens == Written(g.gens, p, Some(f), t) && g'.schemas == g.schemas[(p, f.gen) := s]
    requires g'.sharding == g.sharding[(p, f) := shards]
    ensures PropertyOne(g') && PropertyTwo(g')
  {
    hide Had, HadGen, Written;
    forall q, n: nat ensures (q, n) in g'.schemas <==> HadGen(g'.gens, q, n) { HadWritten(g.gens, p, Some(f), t, q); }
    forall q, x ensures (q, x) in g'.sharding <==> Had(g'.gens, q, x) { HadWritten(g.gens, p, Some(f), t, q); }
  }

  lemma {:induction false} CreateFour(g: Gossip, p: TablePath, keyCols: seq<(ColName, ColType)>, valCols: seq<(ColName, ColType)>,
                                      shards: seq<(TabletKeyRange, TabletId, SlaveId)>, hint: Timestamp)
    requires PropertyFour(g)
    ensures PropertyFour(Created(g, p, keyCols, valCols, shards, hint))
  {
    AddressedHas(g.addresses, shards);
  }

  lemma {:induction false} CreateOrdered(g: Gossip, p: TablePath, t: Timestamp, q: TablePath)
    requires forall x :: GensOrdered(Versions(g.gens, x))
    ensures GensOrdered(Versions(Written(g.gens, p, Some(CreateGen(g, p)), t), q))
    ensures GensOrdered(Versions(Written(g.gens, p, None, t), q))
  {
    WrittenVersions(g.gens, p, Some(CreateGen(g, p)), t, q);
    WrittenVersions(g.gens, p, None, t, q);
    NextGenIsNew(Versions(g.gens, p));
    OrderedNext(Versions(g.gens, p), t, Some(CreateGen(g, p)));
    OrderedNext(Versions(g.gens, p), t, None);
  }

  /** Creating a table uses a generation it never had, at a time after its LAT, and keeps the
      documented properties. */
  lemma {:induction false} CreateKeeps(g: Gossip, p: TablePath, keyCols: seq<(ColName, ColType)>, valCols: seq<(ColName, ColType)>,
                                       shards: seq<(TabletKeyRange, TabletId, SlaveId)>, hint: Timestamp)
    requires Inv(g) && DistinctCols(valCols)
    ensures Inv(Created(g, p, keyCols, valCols, shards, hint))
    ensures (p, CreateGen(g, p).gen) !in g.schemas && (p, CreateGen(g, p)) !in g.sharding
    ensures Before(Lat(g.gens, p), CreateTime(g, p, hint))
  {
    var t, f := CreateTime(g, p, hint), CreateGen(g, p);
    CreateTimeIsLate(g, p, hint);
    NotHadYet(g.gens, p);
    HadHasGen(g.gens, p, f);
    WriteGrows(g.gens, p, Some(f), t);
    NewColsValid(valCols, t);
    CreateProperties(g, Created(g, p, keyCols, valCols, shards, hint), p, f, t, TableSchema(keyCols, NewCols(valCols, t)), Stripped(shards));
    CreateFour(g, p, keyCols, valCols, shards, hint);
    hide PropertyOne, PropertyTwo, PropertyFour, GensOrdered, Valid, Had, HadGen;
    forall q ensures GensOrdered(Versions(Written(g.gens, p, Some(f), t), q)) { CreateOrdered(g, p, t, q); }
  }

  // ---------------------------------------------------------------------------------------------
  //  Alter and drop
  // ---------------------------------------------------------------------------------------------

  lemma {:induction false} SameVersionsKeep(g: Gossip, g': Gossip)
    requires PropertyOne(g) && PropertyTwo(g) && forall p :: Versions(g'.gens, p) == Versions(g.gens, p)
    requires g'.schemas.Keys == g.schemas.Keys && g'.sharding == g.sharding
    ensures PropertyOne(g') && PropertyTwo(g')
  {
    forall p, n: nat ensures HadGen(g'.gens, p, n) <==> HadGen(g.gens, p, n) { assert Versions(g'.gens, p) == Versions(g.gens, p); }
    forall p, f ensures Had(g'.gens, p, f) <==> Had(g.gens, p, f) { assert Versions(g'.gens, p) == Versions(g.gens, p); }
    hide Had, HadGen;
    forall p, n: nat ensures (p, n) in g'.schemas <==> HadGen(g'.gens, p, n) { assert (p, n) in g'.schemas.Keys <==> (p, n) in g.schemas.Keys; }
  }

  lemma {:induction false} AlterKeeps(g: Gossip, p: TablePath, gen: nat, col: ColName, val: Option<ColType>, hint: Timestamp)
    requires Inv(g) && (p, gen) in g.schemas
    ensures Inv(Altered(g, p, gen, col, val, hint))
    ensures var t := AlterTime(g, p, gen, col, hint);
      Before(Lat(g.gens, p), t) && Before(Lat(g.schemas[(p, gen)].valCols, col), t)
  {
    var t, s := AlterTime(g, p, gen, col, hint), g.schemas[(p, gen)];
    var g' := Altered(g, p, gen, col, val, hint);
    AlterTimeIsLate(g, p, gen, col, hint);
    RaiseGrows(g.gens, p, t);
    RaisedVersions(g.gens, p, t);
    WriteGrows(s.valCols, col, val, t);
    assert g'.schemas.Keys == g.schemas.Keys;
    SameVersionsKeep(g, g');
    hide PropertyOne, PropertyTwo, GensOrdered, Valid, Grows;
  }

  lemma {:induction false} DropKeeps(g: Gossip, p: TablePath, hint: Timestamp)
    requires Inv(g)
    ensures Inv(Dropped(g, p, hint)) && Before(Lat(g.gens, p), CreateTime(g, p, hint))
  {
    var t := CreateTime(g, p, hint);
    var g' := Dropped(g, p, hint);
    CreateTimeIsLate(g, p, hint);
    WriteGrows(g.gens, p, None, t);
    assert PropertyOne(g') && PropertyTwo(g') by {
      hide Had, HadGen, Written;
      forall q, n: nat ensures (q, n) in g'.schemas <==> HadGen(g'.gens, q, n) { HadWritten(g.gens, p, None, t, q); }
      forall q, x ensures (q, x) in g'.sharding <==> Had(g'.gens, q, x) { HadWritten(g.gens, p, None, t, q); }
    }
    hide PropertyOne, PropertyTwo, GensOrdered, Valid, Grows;
    forall q ensures GensOrdered(Versions(g'.gens, q)) { CreateOrdered(g, p, t, q); }
  }

  // ---------------------------------------------------------------------------------------------
  //  Split
  // ---------------------------------------------------------------------------------------------

  lemma {:induction false} LatestIsPresent(gens: Mvm<TablePath, FullGen>, p: TablePath)
    requires Last(gens, p).Some?
    ensures LastPresentOf(Versions(gens, p)) == Last(gens, p)
  {
  }

  lemma {:induction false} SplitNotHad(g: Gossip, p: TablePath)
    requires GensOrdered(Versions(g.gens, p)) && LastPresentOf(Versions(g.gens, p)).Some?
    ensures !Had(g.gens, p, SplitGen(g, p))
    ensures forall k | 0 <= k < |Versions(g.gens, p)| && Versions(g.gens, p)[k].1.Some? :: Newer(Versions(g.gens, p)[k].1.value, SplitGen(g, p))
  {
    LastIsNewest(Versions(g.gens, p));
  }

  lemma {:induction false} SplitShardsFrom(shards: Shards, old': (TabletKeyRange, TabletId), new': (TabletKeyRange, TabletId))
    ensures forall x | x in SplitShards(shards, old', new') :: x == new' || exists k :: 0 <= k < |shards| && shards[k].1 == x.1
  {
    if shards != [] {
      var n := |shards| - 1;
      SplitShardsFrom(shards[..n], old', new');
      forall x | x in SplitShards(shards, old', new') ensures x == new' || exists k :: 0 <= k < |shards| && shards[k].1 == x.1 {
        if x in SplitShards(shards[..n], old', new') {
          if k :| 0 <= k < n && shards[..n][k].1 == x.1 { assert shards[k].1 == x.1; }
        } else {
          assert x == new' || shards[n].1 == x.1;
        }
      }
    }
  }

  lemma {:induction false} SplitFour(g: Gossip, p: TablePath, old': (TabletKeyRange, TabletId), new': (TabletKeyRange, TabletId), sid: SlaveId, hint: Timestamp)
    requires PropertyFour(g) && LastPresentOf(Versions(g.gens, p)).Some? && (p, LastPresentOf(Versions(g.gens, p)).value) in g.sharding
    ensures PropertyFour(Resharded(g, p, old', new', sid, hint))
  {
    var shards := g.sharding[(p, LastPresentOf(Versions(g.gens, p)).value)];
    SplitShardsFrom(shards, old', new');
    var g', next := Resharded(g, p, old', new', sid, hint), SplitShards(shards, old', new');
    forall k | 0 <= k < |next| ensures next[k].1 in g'.addresses { assert next[k] in next; }
  }

  /** A split makes a sharding the table never had, at a time after its LAT, and keeps the documented
      properties. */
  lemma {:induction false} SplitKeeps(g: Gossip, p: TablePath, old': (TabletKeyRange, TabletId), new': (TabletKeyRange, TabletId), sid: SlaveId, hint: Timestamp)
    requires Inv(g) && Last(g.gens, p).Some?
    ensures LastPresentOf(Versions(g.gens, p)) == Last(g.gens, p) && (p, Last(g.gens, p).value) in g.sharding
    ensures Inv(Resharded(g, p, old', new', sid, hint)) && (p, SplitGen(g, p)) !in g.sharding
    ensures Before(Lat(g.gens, p), CreateTime(g, p, hint))
  {
    LatestIsHad(g, p);
    LatestIsPresent(g.gens, p);
    var t, f, g' := CreateTime(g, p, hint), SplitGen(g, p), Resharded(g, p, old', new', sid, hint);
    CreateTimeIsLate(g, p, hint);
    SplitNotHad(g, p);
    WriteGrows(g.gens, p, Some(f), t);
    assert g.schemas == g.schemas[(p, f.gen) := g.schemas[(p, f.gen)]];
    CreateProperties(g, g', p, f, t, g.schemas[(p, f.gen)], g'.sharding[(p, f)]);
    SplitFour(g, p, old', new', sid, hint);
    hide PropertyOne, PropertyFour, GensOrdered, Valid, Had, HadGen;
    forall q ensures GensOrdered(Versions(g'.gens, q)) {
      WrittenVersions(g.gens, p, Some(f), t, q);
      if p == q { OrderedNext(Versions(g.gens, p), t, Some(f)); }
    }
  }

  // ---------------------------------------------------------------------------------------------
  //  Every run
  // ---------------------------------------------------------------------------------------------

  /** The commits, and the queries that raise LATs in between. */
  datatype Commit =
    | Create(table: TablePath, keyCols: seq<(ColName, ColType)>, valCols: seq<(ColName, ColType)>,
             shards: seq<(TabletKeyRange, TabletId, SlaveId)>, hint: Timestamp)
    | Alter(table: TablePath, col: ColName, val: Option<ColType>, hint: Timestamp)
    | Drop(table: TablePath, hint: Timestamp)
    | Split(table: TablePath, old': (TabletKeyRange, TabletId), new': (TabletKeyRange, TabletId), sid: SlaveId, hint: Timestamp)
    | LockTable(table: TablePath, hint: Timestamp)
    | LockCol(table: TablePath, gen: nat, col: ColName, hint: Timestamp)
    | LockCols(table: TablePath, gen: nat, hint: Timestamp)

  /** The scheduler starts an alteration, a drop or a split of an existing table only; that the table
      still exists at the commit is proved in `MasterRuns`. */
  predicate Legal(g: Gossip, c: Commit) {
    match c
    case Create(_, _, vs, _, _) => DistinctCols(vs)
    case Alter(p, _, _, _) => Last(g.gens, p).Some?
    case Drop(p, _) => Last(g.gens, p).Some?
    case Split(p, _, _, _, _) => Last(g.gens, p).Some?
    case LockTable(_, _) => true
    case LockCol(p, n, _, _) => (p, n) in g.schemas
    case LockCols(p, n, _) => (p, n) in g.schemas
  }

  ghost function Apply(g: Gossip, c: Commit): Gossip
    requires Inv(g) && Legal(g, c)
  {
    match c
    case Create(p, ks, vs, shards, hint) => Created(g, p, ks, vs, shards, hint)
    case Alter(p, col, val, hint) =>
      LatestIsHad(g, p);
      Altered(g, p, Last(g.gens, p).value.gen, col, val, hint)
    case Drop(p, hint) => Dropped(g, p, hint)
    case Split(p, o, n, sid, hint) =>
      SplitKeeps(g, p, o, n, sid, hint);
      Resharded(g, p, o, n, sid, hint)
    case LockTable(p, t) => g.(gens := Raised(g.gens, p, t))
    case LockCol(p, n, col, t) =>
      g.(schemas := g.schemas[(p, n) := g.schemas[(p, n)].(valCols := Raised(g.schemas[(p, n)].valCols, col, t))])
    case LockCols(p, n, t) =>
      g.(schemas := g.schemas[(p, n) := g.schemas[(p, n)].(valCols := RaisedAll(g.schemas[(p, n)].valCols, t))])
  }

  lemma {:induction false} LockKeeps(g: Gossip, g': Gossip)
    requires Inv(g) && Valid(g'.gens) && (forall p :: Versions(g'.gens, p) == Versions(g.gens, p))
    requires g'.schemas.Keys == g.schemas.Keys && g'.sharding == g.sharding && g'.addresses == g.addresses
    requires forall x | x in g'.schemas :: Valid(g'.schemas[x].valCols)
    ensures Inv(g')
  {
    SameVersionsKeep(g, g');
    hide PropertyOne, PropertyTwo, Valid;
  }

  lemma {:induction false} StepKeeps(g: Gossip, c: Commit)
    requires Inv(g) && Legal(g, c)
    ensures Inv(Apply(g, c))
  {
    match c
    case Create(p, ks, vs, shards, hint) => CreateKeeps(g, p, ks, vs, shards, hint);
    case Alter(p, col, val, hint) =>
      LatestIsHad(g, p);
      AlterKeeps(g, p, Last(g.gens, p).value.gen, col, val, hint);
    case Drop(p, hint) => DropKeeps(g, p, hint);
    case Split(p, o, n, sid, hint) => SplitKeeps(g, p, o, n, sid, hint);
    case LockTable(p, t) =>
      RaiseGrows(g.gens, p, t);
      RaisedVersions(g.gens, p, t);
      LockKeeps(g, Apply(g, c));
    case LockCol(p, n, col, t) =>
      RaiseGrows(g.schemas[(p, n)].valCols, col, t);
      assert Apply(g, c).schemas.Keys == g.schemas.Keys;
      LockKeeps(g, Apply(g, c));
    case LockCols(p, n, t) =>
      RaiseAllGrows(g.schemas[(p, n)].valCols, t);
      assert Apply(g, c).schemas.Keys == g.schemas.Keys;
      LockKeeps(g, Apply(g, c));
  }

  ghost predicate Run(gs: seq<Gossip>, cs: seq<Commit>) {
    && |gs| == |cs| + 1 && gs[0] == Gossip(NewMvm(), map[], map[], map[])
    && forall k | 0 <= k < |cs| :: Inv(gs[k]) ==> Legal(gs[k], cs[k]) && gs[k + 1] == Apply(gs[k], cs[k])
  }

  /** The documented properties of the metadata hold in every run. */
  lemma {:induction false} MetadataInvariant(gs: seq<Gossip>, cs: seq<Commit>, k: nat)
    requires Run(gs, cs) && k < |gs|
    ensures Inv(gs[k])
  {
    if k > 0 {
      MetadataInvariant(gs, cs, k - 1);
      StepKeeps(gs[k - 1], cs[k - 1]);
    }
  }

  /** A schema, once there, is never replaced by another table's or by a re-creation. */
  lemma {:induction false} GenerationsAreNotReused(gs: seq<Gossip>, cs: seq<Commit>, k: nat)
    requires Run(gs, cs) && k < |cs| && cs[k].Create?
    ensures (cs[k].table, CreateGen(gs[k], cs[k].table).gen) !in gs[k].schemas
    ensures Before(Lat(gs[k].gens, cs[k].table), CreateTime(gs[k], cs[k].table, cs[k].hint))
  {
    MetadataInvariant(gs, cs, k);
    CreateKeeps(gs[k], cs[k].table, cs[k].keyCols, cs[k].valCols, cs[k].shards, cs[k].hint);
  }

  // ---------------------------------------------------------------------------------------------
  //  The metadata, updated in place
  // ---------------------------------------------------------------------------------------------

  /** The hint of a commit: not before the clock nor any time a resource manager prepared at. */
  method MkCommittedHint(now: Timestamp, prepared: seq<Timestamp>) returns (hint: Timestamp)
    ensures Upto(now, hint) && forall k | 0 <= k < |prepared| :: Upto(prepared[k], hint)
    ensures hint == now || hint in prepared
  {
    hint := now;
    var i := 0;
    while i < |prepared|
      invariant 0 <= i <= |prepared| && Upto(now, hint) && forall k | 0 <= k < i :: Upto(prepared[k], hint)
      invariant hint == now || hint in prepared
    {
      hint := Later(hint, prepared[i]);
      i := i + 1;
    }
  }

  /** The tablets of the current sharding of a table, each with its address. */
  ghost predicate IsRms(g: Gossip, p: TablePath, rms: seq<(SlaveId, TabletId)>) {
    && Last(g.gens, p).Some? && (p, Last(g.gens, p).value) in g.sharding
    && var shards := g.sharding[(p, Last(g.gens, p).value)];
       |rms| == |shards| && forall k | 0 <= k < |rms| :: shards[k].1 in g.addresses && rms[k] == (g.addresses[shards[k].1], shards[k].1)
  }

  class GossipData {
    var gen: nat
    var g: Gossip

    constructor ()
      ensures gen == 0 && g == Gossip(NewMvm(), map[], map[], map[]) && Inv(g)
    {
      gen, g := 0, Gossip(NewMvm(), map[], map[], map[]);
    }

    /** `apply_create`. */
    method ApplyCreate(p: TablePath, keyCols: seq<(ColName, ColType)>, valCols: seq<(ColName, ColType)>,
                       shards: seq<(TabletKeyRange, TabletId, SlaveId)>, hint: Timestamp) returns (t: Timestamp)
      requires Inv(g) && DistinctCols(valCols)
      modifies this
      ensures gen == old(gen) + 1 && Inv(g) && g == Created(old(g), p, keyCols, valCols, shards, hint)
      ensures t == CreateTime(old(g), p, hint) && Upto(hint, t) && Before(Lat(old(g).gens, p), t)
    {
      gen := gen + 1;
      CreateKeeps(g, p, keyCols, valCols, shards, hint);
      CreateTimeIsLate(g, p, hint);
      t := Later(hint, Add(Lat(g.gens, p), TICK));
      var f := FullGen(NextGen(LastPresentOf(Versions(g.gens, p))), 0);
      assert (p, f.gen) !in g.schemas;
      var cols := WriteCols(valCols, t);
      var stripped: Shards := [];
      var addresses := g.addresses;
      var i := 0;
      while i < |shards|
        invariant 0 <= i <= |shards| && stripped == Stripped(shards)[..i] && addresses == Addressed(g.addresses, shards[..i])
        invariant gen == old(gen) + 1 && g == old(g)
      {
        stripped := stripped + [(shards[i].0, shards[i].1)];
        addresses := addresses[shards[i].1 := shards[i].2];
        assert shards[..i + 1][..i] == shards[..i];
        i := i + 1;
      }
      assert shards[..i] == shards && stripped == Stripped(shards);
      hide Inv, Valid, DistinctCols;
      g := Gossip(Written(g.gens, p, Some(f), t), g.schemas[(p, f.gen) := TableSchema(keyCols, cols)],
                  g.sharding[(p, f) := stripped], addresses);
    }

    /** The commit of an ALTER TABLE: its time is after what it overwrites. */
    method CommitAlter(p: TablePath, col: ColName, val: Option<ColType>, hint: Timestamp) returns (t: Timestamp)
      requires Inv(g) && Last(g.gens, p).Some?
      modifies this
      ensures gen == old(gen) + 1 && Inv(g) && (p, Last(old(g).gens, p).value.gen) in old(g).schemas
      ensures g == Altered(old(g), p, Last(old(g).gens, p).value.gen, col, val, hint)
      ensures t == AlterTime(old(g), p, Last(old(g).gens, p).value.gen, col, hint) && Upto(hint, t) && Before(Lat(old(g).gens, p), t)
      ensures Before(Lat(old(g).schemas[(p, Last(old(g).gens, p).value.gen)].valCols, col), t)
    {
      gen := gen + 1;
      LatestIsHad(g, p);
      var n := Last(g.gens, p).value.gen;
      AlterKeeps(g, p, n, col, val, hint);
      AlterTimeIsLate(g, p, n, col, hint);
      var s := g.schemas[(p, n)];
      t := hint;
      t := Later(t, Add(Lat(g.gens, p), TICK));
      t := Later(t, Add(Lat(s.valCols, col), TICK));
      g := g.(gens := Raised(g.gens, p, t));
      g := g.(schemas := g.schemas[(p, n) := s.(valCols := Written(s.valCols, col, val, t))]);
    }

    /** The commit of a DROP TABLE. */
    method CommitDrop(p: TablePath, hint: Timestamp) returns (t: Timestamp, rms: seq<(SlaveId, TabletId)>)
      requires Inv(g) && Last(g.gens, p).Some?
      modifies this
      ensures gen == old(gen) + 1 && Inv(g) && g == Dropped(old(g), p, hint) && Last(g.gens, p) == None
      ensures t == CreateTime(old(g), p, hint) && Upto(hint, t) && Before(Lat(old(g).gens, p), t)
      ensures IsRms(old(g), p, rms)
    {
      gen := gen + 1;
      DropKeeps(g, p, hint);
      CreateTimeIsLate(g, p, hint);
      t := Later(hint, Add(Lat(g.gens, p), TICK));
      rms := GetRms(p);
      g := g.(gens := Written(g.gens, p, None, t));
    }

    /** `apply_sharding`. */
    method ApplySharding(p: TablePath, old': (TabletKeyRange, TabletId), new': (TabletKeyRange, TabletId), sid: SlaveId, hint: Timestamp)
      returns (t: Timestamp)
      requires Inv(g) && Last(g.gens, p).Some?
      modifies this
      ensures gen == old(gen) + 1 && Inv(g) && (p, Last(old(g).gens, p).value) in old(g).sharding
      ensures LastPresentOf(Versions(old(g).gens, p)) == Last(old(g).gens, p)
      ensures g == Resharded(old(g), p, old', new', sid, hint)
      ensures t == CreateTime(old(g), p, hint) && Upto(hint, t) && Before(Lat(old(g).gens, p), t)
    {
      gen := gen + 1;
      SplitKeeps(g, p, old', new', sid, hint);
      CreateTimeIsLate(g, p, hint);
      t := Later(hint, Add(Lat(g.gens, p), TICK));
      var f := Last(g.gens, p).value;
      var shards := g.sharding[(p, f)];
      var next: Shards := [];
      var i := 0;
      while i < |shards|
        invariant 0 <= i <= |shards| && next == SplitShards(shards[..i], old', new')
        invariant gen == old(gen) + 1 && g == old(g)
      {
        assert shards[..i + 1][..i] == shards[..i];
        if shards[i].1 == old'.1 {
          next := next + [old', new'];
        } else {
          next := next + [shards[i]];
        }
        i := i + 1;
      }
      assert shards[..i] == shards;
      hide Inv;
      g := g.(gens := Written(g.gens, p, Some(FullGen(f.gen, f.sharding + 1)), t),
              sharding := g.sharding[(p, FullGen(f.gen, f.sharding + 1)) := next], addresses := g.addresses[new'.1 := sid]);
    }

    /** `get_rms`: the tablets of the current sharding and where they are; every lookup succeeds. */
    method GetRms(p: TablePath) returns (rms: seq<(SlaveId, TabletId)>)
      requires Inv(g) && Last(g.gens, p).Some?
      ensures IsRms(g, p, rms)
    {
      LatestIsHad(g, p);
      var shards := g.sharding[(p, Last(g.gens, p).value)];
      rms := [];
      var i := 0;
      while i < |shards|
        invariant 0 <= i <= |shards| && |rms| == i
        invariant forall k | 0 <= k < i :: shards[k].1 in g.addresses && rms[k] == (g.addresses[shards[k].1], shards[k].1)
      {
        rms := rms + [(g.addresses[shards[i].1], shards[i].1)];
        i := i + 1;
      }
    }
  }

  /** The columns of a new table; every write passes the assertion of the map. */
  method WriteCols(cols: seq<(ColName, ColType)>, t: Timestamp) returns (m: Mvm<ColName, ColType>)
    requires DistinctCols(cols) && Before(Millis(0), t)
    ensures m == NewCols(cols, t) && Valid(m)
  {
    m := NewMvm();
    var i := 0;
    while i < |cols|
      invariant 0 <= i <= |cols| && m == NewCols(cols[..i], t)
    {
      var init := cols[..i + 1];
      NewColsValid(cols[..i], t);
      assert cols[i].0 !in m.entries by {
        forall k | 0 <= k < i ensures cols[..i][k].0 != cols[i].0 { assert cols[..i][k] == cols[k]; }
      }
      assert Before(Lat(m, cols[i].0), t);
      m := Written(m, cols[i].0, Some(cols[i].1), t);
      assert init[..i] == cols[..i];
      i := i + 1;
    }
    assert cols[..i] == cols;
    NewColsValid(cols, t);
  }
}
