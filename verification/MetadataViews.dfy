/** What the commits of the master make of the answers about tables, columns and shards
    (src/create_table_tm_es.rs, src/alter_table_tm_es.rs, src/drop_table_tm_es.rs, src/shard_split_tm_es.rs). */
module MetadataViews {
  import opened Wrappers
  import opened Values
  import opened Timestamps
  import opened MultiVersion
  import opened SchemaViews
  import opened Regions
  import opened Metadata

  /** The metadata as a database for the schema views. */
  function DBOf(g: Gossip): DB { DB(g.gens, g.schemas) }

  lemma {:induction false} InvGivesDB(g: Gossip)
    requires Inv(g)
    ensures ValidDB(DBOf(g))
  {
    forall p, k: nat | k < |Versions(g.gens, p)| && Versions(g.gens, p)[k].1.Some?
      ensures (p, Versions(g.gens, p)[k].1.value.gen) in g.schemas
    {
      assert HadGen(g.gens, p, Versions(g.gens, p)[k].1.value.gen);
    }
  }

  /** From its LAT on, a key has its last value. */
  lemma {:induction false} LastFromLat<K(!new), V(!new)>(m: Mvm<K, V>, k: K, t: Timestamp)
    requires Valid(m) && Upto(Lat(m, k), t)
    ensures At(m, k, t) == Last(m, k)
  {
    if k in m.entries {
      assert ValidEntry(m.entries[k], m.minLat);
      var vs := m.entries[k].versions;
      if vs != [] { assert Upto(vs[|vs| - 1].0, m.entries[k].lat); }
    }
  }

  /** The tables other than `p` answer as before at every time, and `p` as before at every earlier time. */
  ghost predicate OthersSame(g: Gossip, g': Gossip, p: TablePath, t: Timestamp) {
    && (forall q, x | q != p || Before(x, t) :: At(g'.gens, q, x) == At(g.gens, q, x))
    && (forall y | y in g.schemas && y.0 != p :: y in g'.schemas && g'.schemas[y] == g.schemas[y])
    && (forall y | y in g'.schemas && y.0 != p :: y in g.schemas)
  }

  lemma {:induction false} WrittenOthers(g: Gossip, g': Gossip, p: TablePath, v: Option<FullGen>, t: Timestamp)
    requires Valid(g.gens) && Before(Lat(g.gens, p), t) && g'.gens == Written(g.gens, p, v, t)
    requires forall y: (TablePath, nat) | y.0 != p :: (y in g'.schemas <==> y in g.schemas) && (y in g.schemas ==> g'.schemas[y] == g.schemas[y])
    ensures OthersSame(g, g', p, t) && forall x | Upto(t, x) :: At(g'.gens, p, x) == v
  {
    forall q, x ensures At(g'.gens, q, x) == if q == p && Upto(t, x) then v else At(g.gens, q, x) { WriteMeans(g.gens, p, v, t, q, x); }
    hide At, Written;
  }

  // ---------------------------------------------------------------------------------------------
  //  ALTER TABLE
  // ---------------------------------------------------------------------------------------------

  /** From the time of the commit on the column is what was asked for; before, and for all other columns
      and tables, nothing has changed at any time. */
  lemma {:induction false} AlterMeans(g: Gossip, p: TablePath, gen: nat, col: ColName, val: Option<ColType>, hint: Timestamp)
    requires Inv(g) && (p, gen) in g.schemas
    ensures var t, g', s := AlterTime(g, p, gen, col, hint), Altered(g, p, gen, col, val, hint), g.schemas[(p, gen)];
      && (forall q, x :: At(g'.gens, q, x) == At(g.gens, q, x)) && g'.schemas.Keys == g.schemas.Keys
      && (forall y | y in g.schemas && y != (p, gen) :: g'.schemas[y] == g.schemas[y])
      && g'.schemas[(p, gen)].keyCols == s.keyCols
      && (forall c, x :: At(g'.schemas[(p, gen)].valCols, c, x) == if c == col && Upto(t, x) then val else At(s.valCols, c, x))
      && g'.sharding == g.sharding && g'.addresses == g.addresses
  {
    var t, g', s := AlterTime(g, p, gen, col, hint), Altered(g, p, gen, col, val, hint), g.schemas[(p, gen)];
    AlterTimeIsLate(g, p, gen, col, hint);
    RaiseGrows(g.gens, p, t);
    forall c, x ensures At(g'.schemas[(p, gen)].valCols, c, x) == if c == col && Upto(t, x) then val else At(s.valCols, c, x) {
      WriteMeans(s.valCols, col, val, t, c, x);
    }
    assert g'.schemas.Keys == g.schemas.Keys;
    hide At, Valid, Grows;
  }

  /** A view at the time of the commit sees the column exactly if the alteration added it. */
  lemma {:induction false} AlterIsSeen(g: Gossip, p: TablePath, col: ColName, val: Option<ColType>, hint: Timestamp)
    requires Inv(g) && Last(g.gens, p).Some? && (p, Last(g.gens, p).value.gen) in g.schemas
    requires !IsKey(g.schemas[(p, Last(g.gens, p).value.gen)], col)
    ensures var gen := Last(g.gens, p).value.gen;
      var t, g' := AlterTime(g, p, gen, col, hint), Altered(g, p, gen, col, val, hint);
      ValidDB(DBOf(g')) && Checking(DBOf(g'), t, ContainsCol(p, col)) == Present(val.Some?)
  {
    var f := Last(g.gens, p).value;
    var gen := f.gen;
    var t, g' := AlterTime(g, p, gen, col, hint), Altered(g, p, gen, col, val, hint);
    AlterKeeps(g, p, gen, col, val, hint);
    InvGivesDB(g');
    AlterMeans(g, p, gen, col, val, hint);
    AlterTimeIsLate(g, p, gen, col, hint);
    RaiseExactly(g.gens, p, t, p);
    LastFromLat(g.gens, p, t);
    assert At(g'.gens, p, t) == Some(f) && Upto(t, Lat(g'.gens, p));
    assert Lat(g'.schemas[(p, gen)].valCols, col) == t;
    assert IsKey(g'.schemas[(p, gen)], col) == IsKey(g.schemas[(p, gen)], col);
    hide Inv, ValidDB, At, Altered, Lat, Checking, AlterTime, IsKey;
    CheckingColumn(DBOf(g'), t, p, f, col);
  }

  /** What the checking view answers about a column of a table that exists. */
  lemma {:induction false} CheckingColumn(db: DB, t: Timestamp, p: TablePath, f: FullGen, col: ColName)
    requires ValidDB(db) && At(db.gens, p, t) == Some(f) && Upto(t, Lat(db.gens, p)) && (p, f.gen) in db.schemas
    requires !IsKey(db.schemas[(p, f.gen)], col) && Upto(t, Lat(db.schemas[(p, f.gen)].valCols, col))
    ensures Checking(db, t, ContainsCol(p, col)) == Present(At(db.schemas[(p, f.gen)].valCols, col, t).Some?)
  {
    hide ValidDB, At, Lat;
  }

  // ---------------------------------------------------------------------------------------------
  //  CREATE TABLE
  // ---------------------------------------------------------------------------------------------

  /** The type a list of columns gives a name. */
  function TypeIn(cols: seq<(ColName, ColType)>, c: ColName): Option<ColType> {
    if cols == [] then None
    else if cols[|cols| - 1].0 == c then Some(cols[|cols| - 1].1)
    else TypeIn(cols[..|cols| - 1], c)
  }

  lemma {:induction false} TypeInExactly(cols: seq<(ColName, ColType)>, c: ColName)
    requires DistinctCols(cols)
    ensures forall ty :: TypeIn(cols, c) == Some(ty) <==> (c, ty) in cols
  {
    if cols != [] {
      var n := |cols| - 1;
      TypeInExactly(cols[..n], c);
      assert cols == cols[..n] + [cols[n]];
      forall k | 0 <= k < n ensures cols[..n][k].0 != cols[n].0 { assert cols[..n][k] == cols[k]; }
    }
  }

  /** New columns have their types from the time of the commit on, and there are no others. */
  lemma {:induction false} NewColsMean(cols: seq<(ColName, ColType)>, t: Timestamp, c: ColName, x: Timestamp)
    requires DistinctCols(cols) && Before(Millis(0), t)
    ensures At(NewCols(cols, t), c, x) == if Upto(t, x) then TypeIn(cols, c) else None
  {
    if cols != [] {
      var n := |cols| - 1;
      var init := cols[..n];
      NewColsValid(init, t);
      NewColsMean(init, t, c, x);
      var m0 := NewCols(init, t);
      assert cols[n].0 !in m0.entries by {
        forall k | 0 <= k < n ensures init[k].0 != cols[n].0 { assert init[k] == cols[k]; }
      }
      WriteMeans(m0, cols[n].0, Some(cols[n].1), t, c, x);
    }
  }

  /** From the time of the commit on the table has exactly the given columns with their types; nothing else
      has changed. */
  lemma {:induction false} CreateMeans(g: Gossip, p: TablePath, keyCols: seq<(ColName, ColType)>, valCols: seq<(ColName, ColType)>,
                                       shards: seq<(TabletKeyRange, TabletId, SlaveId)>, hint: Timestamp)
    requires Inv(g) && DistinctCols(valCols)
    ensures var t, f, g' := CreateTime(g, p, hint), CreateGen(g, p), Created(g, p, keyCols, valCols, shards, hint);
      && (forall x | Upto(t, x) :: At(g'.gens, p, x) == Some(f)) && OthersSame(g, g', p, t)
      && (p, f.gen) in g'.schemas && g'.schemas[(p, f.gen)].keyCols == keyCols
      && (forall c, x | Upto(t, x) :: At(g'.schemas[(p, f.gen)].valCols, c, x) == TypeIn(valCols, c))
      && (forall y | y in g.schemas :: y != (p, f.gen) && g'.schemas[y] == g.schemas[y])
  {
    var t, f, g' := CreateTime(g, p, hint), CreateGen(g, p), Created(g, p, keyCols, valCols, shards, hint);
    CreateTimeIsLate(g, p, hint);
    CreateKeeps(g, p, keyCols, valCols, shards, hint);
    WrittenOthers(g, g', p, Some(f), t);
    forall c, x | Upto(t, x) ensures At(g'.schemas[(p, f.gen)].valCols, c, x) == TypeIn(valCols, c) { NewColsMean(valCols, t, c, x); }
    hide Inv, At, NewCols;
  }

  /** A view at the time of the commit sees the table with its key columns and exactly its value columns. */
  lemma {:induction false} CreateIsSeen(g: Gossip, p: TablePath, keyCols: seq<(ColName, ColType)>, valCols: seq<(ColName, ColType)>,
                                        shards: seq<(TabletKeyRange, TabletId, SlaveId)>, hint: Timestamp)
    requires Inv(g) && DistinctCols(valCols)
    ensures var t, db := CreateTime(g, p, hint), DBOf(Created(g, p, keyCols, valCols, shards, hint));
      && ValidDB(db) && Locking(db, t, ContainsTable(p)).1 == Present(true) && Locking(db, t, KeyCols(p)).1 == Keys(keyCols)
      && var o := Locking(db, t, GetAllCols(p)).1;
         o.AllCols? && o.keys == keyCols && forall c :: c in o.vals <==> exists ty :: (c, ty) in valCols
  {
    var t, f, g' := CreateTime(g, p, hint), CreateGen(g, p), Created(g, p, keyCols, valCols, shards, hint);
    CreateKeeps(g, p, keyCols, valCols, shards, hint);
    InvGivesDB(g');
    CreateMeans(g, p, keyCols, valCols, shards, hint);
    var s := g'.schemas[(p, f.gen)];
    assert At(g'.gens, p, t) == Some(f);
    LockingTable(DBOf(g'), t, p, f);
    hide Inv, Created, CreateTime, CreateGen, ValidDB, Locking, DistinctCols, OthersSame;
    forall c ensures c in Snapshot(s.valCols, t).Keys <==> exists ty :: (c, ty) in valCols {
      Absent(s.valCols, c, t);
      assert At(s.valCols, c, t) == TypeIn(valCols, c);
      TypeInExactly(valCols, c);
    }
  }

  /** What the locking view answers about a table that exists. */
  lemma {:induction false} LockingTable(db: DB, t: Timestamp, p: TablePath, f: FullGen)
    requires ValidDB(db) && At(db.gens, p, t) == Some(f) && (p, f.gen) in db.schemas
    ensures var s := db.schemas[(p, f.gen)];
      && Locking(db, t, ContainsTable(p)).1 == Present(true) && Locking(db, t, KeyCols(p)).1 == Keys(s.keyCols)
      && Locking(db, t, GetAllCols(p)).1 == AllCols(s.keyCols, Snapshot(s.valCols, t).Keys)
  {
    hide ValidDB, At, Raised, Locked, Snapshot;
  }

  /** The shards of the new table are where they were placed, and all other tablets where they were. */
  lemma {:induction false} AddressedMeans(a: map<TabletId, SlaveId>, shards: seq<(TabletKeyRange, TabletId, SlaveId)>)
    requires forall j, k | 0 <= j < k < |shards| :: shards[j].1 != shards[k].1
    ensures forall k | 0 <= k < |shards| :: shards[k].1 in Addressed(a, shards) && Addressed(a, shards)[shards[k].1] == shards[k].2
    ensures forall t | t in a && (forall k | 0 <= k < |shards| :: shards[k].1 != t) :: t in Addressed(a, shards) && Addressed(a, shards)[t] == a[t]
  {
    if shards != [] {
      var n := |shards| - 1;
      AddressedMeans(a, shards[..n]);
      var b := Addressed(a, shards[..n]);
      forall k | 0 <= k < n ensures shards[k].1 in b && b[shards[k].1] == shards[k].2 { assert shards[..n][k] == shards[k]; }
      forall t | t in a && (forall k | 0 <= k < |shards| :: shards[k].1 != t) ensures t in b && b[t] == a[t] {
        forall k | 0 <= k < n ensures shards[..n][k].1 != t { assert shards[..n][k] == shards[k]; }
      }
    }
  }

  // ---------------------------------------------------------------------------------------------
  //  DROP TABLE and splits
  // ---------------------------------------------------------------------------------------------

  /** From the time of the commit on the table does not exist; nothing else has changed. */
  lemma {:induction false} DropMeans(g: Gossip, p: TablePath, hint: Timestamp)
    requires Inv(g)
    ensures var t, g' := CreateTime(g, p, hint), Dropped(g, p, hint);
      (forall x | Upto(t, x) :: At(g'.gens, p, x) == None) && OthersSame(g, g', p, t) && g' == g.(gens := g'.gens)
  {
    CreateTimeIsLate(g, p, hint);
    WrittenOthers(g, Dropped(g, p, hint), p, None, CreateTime(g, p, hint));
  }

  /** Every view from then on answers that there is no such table. */
  lemma {:induction false} DropIsSeen(g: Gossip, p: TablePath, hint: Timestamp, x: Timestamp, c: Call)
    requires Inv(g) && Upto(CreateTime(g, p, hint), x) && c.table == p
    ensures var db := DBOf(Dropped(g, p, hint));
      && ValidDB(db) && Locking(db, x, c).1 == (if c.ContainsTable? then Present(false) else TablesDNE)
      && (x == CreateTime(g, p, hint) ==> Checking(db, x, c) == Locking(db, x, c).1)
  {
    DropKeeps(g, p, hint);
    InvGivesDB(Dropped(g, p, hint));
    DropMeans(g, p, hint);
    hide Inv;
  }

  /** From the time of the commit on the table has its next sharding, with the split shard in two; its
      columns are the same, the new tablet is where it was placed, and nothing else has changed. */
  lemma {:induction false} SplitMeans(g: Gossip, p: TablePath, o: (TabletKeyRange, TabletId), n: (TabletKeyRange, TabletId), sid: SlaveId, hint: Timestamp)
    requires Inv(g) && Last(g.gens, p).Some?
    ensures LastPresentOf(Versions(g.gens, p)) == Last(g.gens, p) && (p, Last(g.gens, p).value) in g.sharding
    ensures var t, f, g' := CreateTime(g, p, hint), Last(g.gens, p).value, Resharded(g, p, o, n, sid, hint);
      && (forall x | Upto(t, x) :: At(g'.gens, p, x) == Some(FullGen(f.gen, f.sharding + 1))) && OthersSame(g, g', p, t)
      && g'.schemas == g.schemas && (p, FullGen(f.gen, f.sharding + 1)) in g'.sharding
      && n.1 in g'.addresses && g'.addresses[n.1] == sid
      && (forall x | x in g.addresses && x != n.1 :: x in g'.addresses && g'.addresses[x] == g.addresses[x])
      && (forall y | y in g.sharding :: y in g'.sharding && g'.sharding[y] == g.sharding[y])
  {
    SplitKeeps(g, p, o, n, sid, hint);
    CreateTimeIsLate(g, p, hint);
    var g' := Resharded(g, p, o, n, sid, hint);
    WrittenOthers(g, g', p, Some(SplitGen(g, p)), CreateTime(g, p, hint));
    hide Inv, At;
  }
}
