/** The two views of the database schema that promise idempotence
    (src/master_query_planning_es.rs:144-373). */
module SchemaViews {
  import opened Wrappers
  import opened Values
  import opened Timestamps
  import opened MultiVersion

  datatype TablePath = TablePath(name: string)

  /** The generation of a table and of its sharding. */
  datatype FullGen = FullGen(gen: nat, sharding: nat)

  datatype TableSchema = TableSchema(keyCols: seq<(ColName, ColType)>, valCols: Mvm<ColName, ColType>)

  datatype DB = DB(gens: Mvm<TablePath, FullGen>, schemas: map<(TablePath, nat), TableSchema>)

  /** Every generation a table ever had has a schema. */
  ghost predicate ValidDB(db: DB) {
    && Valid(db.gens)
    && (forall x | x in db.schemas :: Valid(db.schemas[x].valCols))
    && (forall p, k: nat | k < |Versions(db.gens, p)| && Versions(db.gens, p)[k].1.Some? ::
          (p, Versions(db.gens, p)[k].1.value.gen) in db.schemas)
  }

  datatype Call =
    | KeyCols(table: TablePath)
    | GetGen(table: TablePath)
    | ContainsTable(table: TablePath)
    | ContainsCol(table: TablePath, col: ColName)
    | GetAllCols(table: TablePath)

  /** The value columns of all columns come in the order of their names, so they are given as a set. */
  datatype Outcome =
    | InsufficientLat
    | TablesDNE
    | Keys(keys: seq<(ColName, ColType)>)
    | Generation(gen: FullGen)
    | Present(yes: bool)
    | AllCols(keys: seq<(ColName, ColType)>, vals: set<ColName>)

  predicate IsKey(s: TableSchema, c: ColName) {
    exists k :: 0 <= k < |s.keyCols| && s.keyCols[k].0 == c
  }

  lemma {:induction false} PriorIsVersion<V>(vs: seq<Version<V>>, t: Timestamp)
    requires PriorValue(vs, t).Some?
    ensures exists k :: 0 <= k < |vs| && vs[k].1 == PriorValue(vs, t)
  {
    var n := |vs| - 1;
    if Upto(vs[n].0, t) {
      assert vs[n].1 == PriorValue(vs, t);
    } else {
      PriorIsVersion(vs[..n], t);
      var k :| 0 <= k < n && vs[..n][k].1 == PriorValue(vs[..n], t);
      assert vs[k].1 == PriorValue(vs, t);
    }
  }

  /** The schema of a table that exists at a time. */
  lemma {:induction false} SchemaExists(db: DB, p: TablePath, t: Timestamp)
    requires ValidDB(db) && At(db.gens, p, t).Some?
    ensures (p, At(db.gens, p, t).value.gen) in db.schemas
  {
    PriorIsVersion(Versions(db.gens, p), t);
  }

  ghost function SchemaAt(db: DB, p: TablePath, t: Timestamp): (s: TableSchema)
    requires ValidDB(db) && At(db.gens, p, t).Some?
    ensures Valid(s.valCols)
  {
    SchemaExists(db, p, t);
    db.schemas[(p, At(db.gens, p, t).value.gen)]
  }

  /** What a table with this schema answers, if its LATs are high enough. */
  function Answer(s: TableSchema, g: FullGen, t: Timestamp, c: Call): Outcome {
    match c
    case KeyCols(_) => Keys(s.keyCols)
    case GetGen(_) => Generation(g)
    case ContainsTable(_) => Present(true)
    case ContainsCol(_, col) => Present(IsKey(s, col) || At(s.valCols, col, t).Some?)
    case GetAllCols(_) => AllCols(s.keyCols, Snapshot(s.valCols, t).Keys)
  }

  function NoTable(c: Call): Outcome {
    if c.ContainsTable? then Present(false) else TablesDNE
  }

  /** Whether the LATs of the schema a call depends on are high enough. */
  predicate LatSuffices(s: TableSchema, t: Timestamp, c: Call) {
    match c
    case ContainsCol(_, col) => IsKey(s, col) || Upto(t, Lat(s.valCols, col))
    case GetAllCols(_) => Upto(t, s.valCols.minLat)
    case _ => true
  }

  /** `CheckingDBSchemaView`: fails if a LAT is too low. */
  ghost function Checking(db: DB, t: Timestamp, c: Call): Outcome
    requires ValidDB(db)
  {
    if Before(Lat(db.gens, c.table), t) then InsufficientLat
    else if At(db.gens, c.table, t).None? then NoTable(c)
    else
      var s := SchemaAt(db, c.table, t);
      if LatSuffices(s, t, c) then Answer(s, At(db.gens, c.table, t).value, t, c) else InsufficientLat
  }

  // What the views tell, in terms of the versions.

  ghost predicate ColumnAt(s: TableSchema, c: ColName, t: Timestamp) {
    exists v :: Says(Versions(s.valCols, c), t, Some(v))
  }

  ghost predicate TellsTable(s: TableSchema, g: FullGen, t: Timestamp, c: Call, o: Outcome) {
    match c
    case KeyCols(_) => o == Keys(s.keyCols)
    case GetGen(_) => o == Generation(g)
    case ContainsTable(_) => o == Present(true)
    case ContainsCol(_, col) => o.Present? && (o.yes <==> IsKey(s, col) || ColumnAt(s, col, t))
    case GetAllCols(_) => o.AllCols? && o.keys == s.keyCols && forall col :: col in o.vals <==> ColumnAt(s, col, t)
  }

  /** The outcome is the truth at time `t`: there is no table and it says so, or there is one and what it
      says about the table holds. */
  ghost predicate Truth(db: DB, t: Timestamp, c: Call, o: Outcome) {
    || (Says(Versions(db.gens, c.table), t, None) && (o == Present(false) || o == TablesDNE) && (o == TablesDNE <==> !c.ContainsTable?))
    || (exists g :: TellsGen(db, t, c, o, g))
  }

  ghost predicate TellsGen(db: DB, t: Timestamp, c: Call, o: Outcome, g: FullGen) {
    Says(Versions(db.gens, c.table), t, Some(g)) && (c.table, g.gen) in db.schemas && TellsTable(db.schemas[(c.table, g.gen)], g, t, c, o)
  }

  lemma {:induction false} ColumnSays(s: TableSchema, c: ColName, t: Timestamp)
    ensures ColumnAt(s, c, t) <==> At(s.valCols, c, t).Some?
  {
    PriorSays(Versions(s.valCols, c), t);
  }

  lemma {:induction false} AnswerIsTrue(s: TableSchema, g: FullGen, t: Timestamp, c: Call)
    ensures TellsTable(s, g, t, c, Answer(s, g, t, c))
  {
    if c.ContainsCol? { ColumnSays(s, c.col, t); }
    if c.GetAllCols? {
      forall col ensures col in Snapshot(s.valCols, t).Keys <==> ColumnAt(s, col, t) {
        ColumnSays(s, col, t);
        Absent(s.valCols, col, t);
      }
    }
  }

  /** Both views tell the truth, unless a LAT is too low for the checking one. */
  lemma {:induction false} ViewsAreTrue(db: DB, t: Timestamp, c: Call)
    requires ValidDB(db)
    ensures Truth(db, t, c, Locking(db, t, c).1)
    ensures Checking(db, t, c) != InsufficientLat ==> Truth(db, t, c, Checking(db, t, c))
  {
    PriorSays(Versions(db.gens, c.table), t);
    if At(db.gens, c.table, t).Some? {
      var g, s := At(db.gens, c.table, t).value, SchemaAt(db, c.table, t);
      SchemaExists(db, c.table, t);
      AnswerIsTrue(s, g, t, c);
      assert TellsGen(db, t, c, Answer(s, g, t, c), g);
    }
  }

  /** There is one truth: two outcomes for a call, and the outcomes for different calls, fit together. */
  lemma {:induction false} TruthIsOne(db: DB, t: Timestamp, p: TablePath, col: ColName, c: Call, o: Outcome, table: Outcome, has: Outcome, all: Outcome)
    requires Truth(db, t, c, o) && c.table == p && Truth(db, t, ContainsTable(p), table)
    requires Truth(db, t, ContainsCol(p, col), has) && Truth(db, t, GetAllCols(p), all)
    ensures table == Present(true) || table == Present(false)
    ensures !c.ContainsTable? ==> (o == TablesDNE <==> table == Present(false))
    ensures has.Present? && all.AllCols? ==> (has.yes <==> col in all.vals || exists k :: 0 <= k < |all.keys| && all.keys[k].0 == col)
  {
    PriorSays(Versions(db.gens, p), t);
    hide Says;
    if At(db.gens, p, t).Some? {
      var g := At(db.gens, p, t).value;
      assert forall x: Call, y: Outcome | x.table == p && Truth(db, t, x, y) :: TellsGen(db, t, x, y, g);
      hide Truth;
    }
  }

  /** The LATs of a schema raised for a call. */
  function Locked(s: TableSchema, t: Timestamp, c: Call): TableSchema {
    match c
    case ContainsCol(_, col) => if IsKey(s, col) then s else s.(valCols := Raised(s.valCols, col, t))
    case GetAllCols(_) => s.(valCols := RaisedAll(s.valCols, t))
    case _ => s
  }

  /** `LockingDBSchemaView`: raises the LATs it depends on. */
  ghost function Locking(db: DB, t: Timestamp, c: Call): (DB, Outcome)
    requires ValidDB(db)
  {
    var gens := Raised(db.gens, c.table, t);
    if At(db.gens, c.table, t).None? then (db.(gens := gens), NoTable(c))
    else
      var g := At(db.gens, c.table, t).value;
      var s := SchemaAt(db, c.table, t);
      (DB(gens, db.schemas[(c.table, g.gen) := Locked(s, t, c)]), Answer(s, g, t, c))
  }

  // ---------------------------------------------------------------------------------------------
  //  Legal changes
  // ---------------------------------------------------------------------------------------------

  /** The database after some legal operations: schemas are added, never replaced or removed. */
  ghost predicate GrowsDB(a: DB, b: DB) {
    && Grows(a.gens, b.gens)
    && (forall x | x in a.schemas ::
          x in b.schemas && b.schemas[x].keyCols == a.schemas[x].keyCols && Grows(a.schemas[x].valCols, b.schemas[x].valCols))
  }

  datatype Op =
    | ReadGen(table: TablePath, t: Timestamp)
    | LockAllGens(t: Timestamp)
    | WriteGen(table: TablePath, gen: Option<FullGen>, t: Timestamp)
    | ReadCol(schema: (TablePath, nat), col: ColName, t: Timestamp)
    | LockAllCols(schema: (TablePath, nat), t: Timestamp)
    | WriteCol(schema: (TablePath, nat), col: ColName, val: Option<ColType>, t: Timestamp)
    | AddSchema(schema: (TablePath, nat), content: TableSchema)
    | View(t: Timestamp, call: Call)

  /** A write comes after the LAT of what it writes; a generation is written once it has a schema. */
  ghost predicate LegalOp(db: DB, o: Op) {
    match o
    case WriteGen(p, g, t) => Before(Lat(db.gens, p), t) && (g.Some? ==> (p, g.value.gen) in db.schemas)
    case ReadCol(x, _, _) => x in db.schemas
    case LockAllCols(x, _) => x in db.schemas
    case WriteCol(x, c, _, t) => x in db.schemas && Before(Lat(db.schemas[x].valCols, c), t)
    case AddSchema(x, s) => x !in db.schemas && Valid(s.valCols)
    case _ => true
  }

  function WithCols(db: DB, x: (TablePath, nat), m: Mvm<ColName, ColType>): DB
    requires x in db.schemas
  {
    db.(schemas := db.schemas[x := db.schemas[x].(valCols := m)])
  }

  ghost function Apply(db: DB, o: Op): DB
    requires ValidDB(db) && LegalOp(db, o)
  {
    match o
    case ReadGen(p, t) => db.(gens := Raised(db.gens, p, t))
    case LockAllGens(t) => db.(gens := RaisedAll(db.gens, t))
    case WriteGen(p, g, t) => db.(gens := Written(db.gens, p, g, t))
    case ReadCol(x, c, t) => WithCols(db, x, Raised(db.schemas[x].valCols, c, t))
    case LockAllCols(x, t) => WithCols(db, x, RaisedAll(db.schemas[x].valCols, t))
    case WriteCol(x, c, v, t) => WithCols(db, x, Written(db.schemas[x].valCols, c, v, t))
    case AddSchema(x, s) => db.(schemas := db.schemas[x := s])
    case View(t, c) => Locking(db, t, c).0
  }

  ghost predicate Run(dbs: seq<DB>, ops: seq<Op>) {
    && |dbs| == |ops| + 1 && ValidDB(dbs[0])
    && forall k | 0 <= k < |ops| :: ValidDB(dbs[k]) && LegalOp(dbs[k], ops[k]) && dbs[k + 1] == Apply(dbs[k], ops[k])
  }

  lemma {:induction false} SameVersionsValid(db: DB, gens: Mvm<TablePath, FullGen>)
    requires ValidDB(db) && Valid(gens) && forall p :: Versions(gens, p) == Versions(db.gens, p)
    ensures ValidDB(db.(gens := gens))
  {
  }

  lemma {:induction false} RaisedVersions<K(!new), V(!new)>(m: Mvm<K, V>, k: K, t: Timestamp)
    ensures forall p :: Versions(Raised(m, k, t), p) == Versions(m, p)
    ensures forall p :: Versions(RaisedAll(m, t), p) == Versions(m, p)
  {
  }

  lemma {:induction false} GrowsSelf<K(!new), V(!new)>(m: Mvm<K, V>)
    ensures Grows(m, m)
  {
  }

  lemma {:induction false} GrowsSchemas(db: DB, gens: Mvm<TablePath, FullGen>)
    requires Grows(db.gens, gens)
    ensures GrowsDB(db, db.(gens := gens))
  {
    forall x | x in db.schemas ensures Grows(db.schemas[x].valCols, db.schemas[x].valCols) { GrowsSelf(db.schemas[x].valCols); }
  }

  lemma {:induction false} ColsGrow(db: DB, x: (TablePath, nat), m: Mvm<ColName, ColType>)
    requires ValidDB(db) && x in db.schemas && Valid(m) && Grows(db.schemas[x].valCols, m)
    ensures ValidDB(WithCols(db, x, m)) && GrowsDB(db, WithCols(db, x, m))
  {
    GrowsSelf(db.gens);
    forall y | y in db.schemas ensures Grows(db.schemas[y].valCols, db.schemas[y].valCols) { GrowsSelf(db.schemas[y].valCols); }
    hide Grows, Valid;
  }

  lemma {:induction false} GensRaised(db: DB, p: TablePath, t: Timestamp)
    requires ValidDB(db)
    ensures ValidDB(db.(gens := Raised(db.gens, p, t))) && GrowsDB(db, db.(gens := Raised(db.gens, p, t)))
  {
    RaiseGrows(db.gens, p, t);
    RaisedVersions(db.gens, p, t);
    hide Grows, Valid, Raised, RaisedAll;
    SameVersionsValid(db, Raised(db.gens, p, t));
    GrowsSchemas(db, Raised(db.gens, p, t));
  }

  lemma {:induction false} GensWritten(db: DB, p: TablePath, g: Option<FullGen>, t: Timestamp)
    requires ValidDB(db) && Before(Lat(db.gens, p), t) && (g.Some? ==> (p, g.value.gen) in db.schemas)
    ensures ValidDB(db.(gens := Written(db.gens, p, g, t))) && GrowsDB(db, db.(gens := Written(db.gens, p, g, t)))
  {
    WriteGrows(db.gens, p, g, t);
    var gens := Written(db.gens, p, g, t);
    GrowsSchemas(db, gens);
    forall q, k: nat | k < |Versions(gens, q)| && Versions(gens, q)[k].1.Some?
      ensures (q, Versions(gens, q)[k].1.value.gen) in db.schemas
    {
      if q == p && k == |Versions(db.gens, p)| {
        assert Versions(gens, q)[k].1 == g;
      } else {
        assert Versions(gens, q)[k] == Versions(db.gens, q)[k];
      }
    }
    hide Grows, Valid;
  }

  lemma {:induction false} GrowsDBTransitive(a: DB, b: DB, c: DB)
    requires GrowsDB(a, b) && GrowsDB(b, c)
    ensures GrowsDB(a, c)
  {
    hide Grows;
    GrowsTransitive(a.gens, b.gens, c.gens);
    forall x | x in a.schemas ensures Grows(a.schemas[x].valCols, c.schemas[x].valCols) {
      GrowsTransitive(a.schemas[x].valCols, b.schemas[x].valCols, c.schemas[x].valCols);
    }
  }

  /** The schema of a call, locked. */
  lemma {:induction false} LockedGrows(s: TableSchema, t: Timestamp, c: Call)
    requires Valid(s.valCols)
    ensures var l := Locked(s, t, c);
      && l.keyCols == s.keyCols && Valid(l.valCols) && Grows(s.valCols, l.valCols) && LatSuffices(l, t, c)
      && forall g :: Answer(l, g, t, c) == Answer(s, g, t, c)
  {
    GrowsSelf(s.valCols);
    if c.ContainsCol? {
      RaiseGrows(s.valCols, c.col, t);
      assert IsKey(Locked(s, t, c), c.col) == IsKey(s, c.col);
    } else if c.GetAllCols? {
      RaiseAllGrows(s.valCols, t);
      SameSnapshot(s.valCols, RaisedAll(s.valCols, t), t);
    }
  }

  lemma {:induction false} SameSnapshot<K(!new), V(!new)>(m: Mvm<K, V>, n: Mvm<K, V>, t: Timestamp)
    requires n.entries.Keys == m.entries.Keys && forall k :: At(n, k, t) == At(m, k, t)
    ensures Snapshot(n, t) == Snapshot(m, t)
  {
    hide At;
  }

  /** A locking call leaves a valid database that has only grown, and in which the checking view
      would now answer the same. */
  lemma {:induction false} LockingFixes(db: DB, t: Timestamp, c: Call)
    requires ValidDB(db)
    ensures var (db', o) := Locking(db, t, c);
      ValidDB(db') && GrowsDB(db, db') && Checking(db', t, c) == o && o != InsufficientLat
  {
    var gens := Raised(db.gens, c.table, t);
    var db1 := db.(gens := gens);
    GensRaised(db, c.table, t);
    RaiseGrows(db.gens, c.table, t);
    if At(db.gens, c.table, t).Some? {
      var g, s := At(db.gens, c.table, t).value, SchemaAt(db, c.table, t);
      var x := (c.table, g.gen);
      SchemaExists(db, c.table, t);
      LockedGrows(s, t, c);
      assert db1.schemas[x].(valCols := Locked(s, t, c).valCols) == Locked(s, t, c);
      hide Grows, Valid, Raised, Locked, Answer, At, Lat, LatSuffices;
      ColsGrow(db1, x, Locked(s, t, c).valCols);
      GrowsDBTransitive(db, db1, WithCols(db1, x, Locked(s, t, c).valCols));
    }
  }

  /** What the answer to a call depends on does not change any more. */
  lemma {:induction false} AnswerFixed(s: TableSchema, s': TableSchema, g: FullGen, t: Timestamp, c: Call)
    requires Valid(s.valCols) && s'.keyCols == s.keyCols && Grows(s.valCols, s'.valCols) && LatSuffices(s, t, c)
    ensures LatSuffices(s', t, c) && Answer(s', g, t, c) == Answer(s, g, t, c)
  {
    if c.ContainsCol? {
      assert IsKey(s', c.col) == IsKey(s, c.col);
      assert Upto(Lat(s.valCols, c.col), Lat(s'.valCols, c.col));
    } else if c.GetAllCols? {
      SnapshotFixed(s.valCols, s'.valCols, t);
    }
  }

  /** Once the checking view has answered, it answers the same after any legal changes, and so does the
      locking view. */
  lemma {:induction false} CheckingIsStable(a: DB, b: DB, t: Timestamp, c: Call)
    requires ValidDB(a) && ValidDB(b) && GrowsDB(a, b) && Checking(a, t, c) != InsufficientLat
    ensures Checking(b, t, c) == Checking(a, t, c) && Locking(b, t, c).1 == Checking(a, t, c)
  {
    assert Upto(Lat(a.gens, c.table), Lat(b.gens, c.table)) && At(b.gens, c.table, t) == At(a.gens, c.table, t);
    if At(a.gens, c.table, t).Some? {
      SchemaExists(a, c.table, t);
      var s, s', g := SchemaAt(a, c.table, t), SchemaAt(b, c.table, t), At(a.gens, c.table, t).value;
      var x := (c.table, g.gen);
      assert s == a.schemas[x] && s' == b.schemas[x];
      hide Grows, Valid, At, Lat, LatSuffices, Answer;
      AnswerFixed(s, s', g, t, c);
    }
  }

  // ---------------------------------------------------------------------------------------------
  //  Every run
  // ---------------------------------------------------------------------------------------------

  lemma {:induction false} StepGrows(db: DB, o: Op)
    requires ValidDB(db) && LegalOp(db, o)
    ensures ValidDB(Apply(db, o)) && GrowsDB(db, Apply(db, o))
  {
    match o
    case ReadGen(p, t) => GensRaised(db, p, t);
    case LockAllGens(t) => AllGensRaised(db, t);
    case WriteGen(p, g, t) => GensWritten(db, p, g, t);
    case ReadCol(x, c, t) => RaiseGrows(db.schemas[x].valCols, c, t); ColsGrow(db, x, Raised(db.schemas[x].valCols, c, t));
    case LockAllCols(x, t) => RaiseAllGrows(db.schemas[x].valCols, t); ColsGrow(db, x, RaisedAll(db.schemas[x].valCols, t));
    case WriteCol(x, c, v, t) => WriteGrows(db.schemas[x].valCols, c, v, t); ColsGrow(db, x, Written(db.schemas[x].valCols, c, v, t));
    case AddSchema(x, s) => SchemaAdded(db, x, s);
    case View(t, c) => LockingFixes(db, t, c);
  }

  lemma {:induction false} AllGensRaised(db: DB, t: Timestamp)
    requires ValidDB(db)
    ensures ValidDB(db.(gens := RaisedAll(db.gens, t))) && GrowsDB(db, db.(gens := RaisedAll(db.gens, t)))
  {
    RaiseAllGrows(db.gens, t);
    RaisedVersions(db.gens, TablePath(""), t);
    hide Grows, Valid, Raised, RaisedAll;
    SameVersionsValid(db, RaisedAll(db.gens, t));
    GrowsSchemas(db, RaisedAll(db.gens, t));
  }

  lemma {:induction false} SchemaAdded(db: DB, x: (TablePath, nat), s: TableSchema)
    requires ValidDB(db) && x !in db.schemas && Valid(s.valCols)
    ensures ValidDB(db.(schemas := db.schemas[x := s])) && GrowsDB(db, db.(schemas := db.schemas[x := s]))
  {
    GrowsSelf(db.gens);
    forall y | y in db.schemas ensures Grows(db.schemas[y].valCols, db.schemas[y].valCols) { GrowsSelf(db.schemas[y].valCols); }
    hide Grows, Valid;
  }

  lemma {:induction false} RunGrows(dbs: seq<DB>, ops: seq<Op>, i: nat, j: nat)
    requires Run(dbs, ops) && i <= j < |dbs|
    ensures ValidDB(dbs[i]) && ValidDB(dbs[j]) && GrowsDB(dbs[i], dbs[j])
    decreases j - i
  {
    hide ValidDB, GrowsDB;
    if i == j {
      SelfGrows(dbs[i]);
      if i > 0 { StepGrows(dbs[i - 1], ops[i - 1]); }
    } else {
      RunGrows(dbs, ops, i, j - 1);
      StepGrows(dbs[j - 1], ops[j - 1]);
      GrowsDBTransitive(dbs[i], dbs[j - 1], dbs[j]);
    }
  }

  lemma {:induction false} SelfGrows(db: DB)
    ensures GrowsDB(db, db)
  {
    GrowsSelf(db.gens);
    forall y | y in db.schemas ensures Grows(db.schemas[y].valCols, db.schemas[y].valCols) { GrowsSelf(db.schemas[y].valCols); }
    hide Grows;
  }

  /** Idempotence of the checking view: an answer that did not fail on a LAT is given by every later
      view at the same time. */
  lemma {:induction false} CheckingIsIdempotent(dbs: seq<DB>, ops: seq<Op>, i: nat, j: nat, t: Timestamp, c: Call)
    requires Run(dbs, ops) && i <= j < |dbs| && ValidDB(dbs[i]) && ValidDB(dbs[j])
    requires Checking(dbs[i], t, c) != InsufficientLat
    ensures Checking(dbs[j], t, c) == Checking(dbs[i], t, c) && Locking(dbs[j], t, c).1 == Checking(dbs[i], t, c)
  {
    RunGrows(dbs, ops, i, j);
    hide Run;
    CheckingIsStable(dbs[i], dbs[j], t, c);
  }

  /** Idempotence of the locking view: what a call answers, every later view at the same time answers. */
  lemma {:induction false} LockingIsIdempotent(dbs: seq<DB>, ops: seq<Op>, i: nat, j: nat, t: Timestamp, c: Call)
    requires Run(dbs, ops) && i < j < |dbs| && ValidDB(dbs[i]) && ValidDB(dbs[j]) && ops[i] == View(t, c)
    ensures Checking(dbs[j], t, c) == Locking(dbs[i], t, c).1 && Locking(dbs[j], t, c).1 == Locking(dbs[i], t, c).1
  {
    assert dbs[i + 1] == Apply(dbs[i], ops[i]);
    RunGrows(dbs, ops, i + 1, j);
    LockingFixes(dbs[i], t, c);
    hide Run, ValidDB, GrowsDB;
    CheckingIsStable(dbs[i + 1], dbs[j], t, c);
  }
}
