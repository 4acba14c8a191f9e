/** The schema views as objects: what they record about the columns they were asked for stays true
    at their timestamp, and their internal checks never fail
    (src/master_query_planning_es.rs:44-133, 166-373). */
module SchemaViewObjects {
  import opened Wrappers
  import opened Values
  import opened Timestamps
  import opened MultiVersion
  import opened SchemaViews

  /** Which value columns of a table must be present or absent; or exactly which are present. */
  datatype ColReq = PresentAbsent(present: set<ColName>, absent: set<ColName>) | Exclusive(cols: set<ColName>)

  type Reqs = map<TablePath, ColReq>

  function ReqOf(reqs: Reqs, p: TablePath): ColReq {
    if p in reqs then reqs[p] else PresentAbsent({}, {})
  }

  function ValColsAt(s: TableSchema, t: Timestamp): set<ColName> {
    set c | c in Snapshot(s.valCols, t) && !IsKey(s, c)
  }

  /** A requirement that the schema meets at `t`, now and for ever. */
  predicate Meets(s: TableSchema, t: Timestamp, q: ColReq) {
    match q
    case PresentAbsent(ps, ns) =>
      && (forall c | c in ps :: !IsKey(s, c) && Upto(t, Lat(s.valCols, c)) && At(s.valCols, c, t).Some?)
      && (forall c | c in ns :: !IsKey(s, c) && Upto(t, Lat(s.valCols, c)) && At(s.valCols, c, t).None?)
    case Exclusive(cs) => Upto(t, s.valCols.minLat) && cs == ValColsAt(s, t)
  }

  ghost predicate AlignedFor(db: DB, t: Timestamp, p: TablePath, q: ColReq)
    requires ValidDB(db)
  {
    && Upto(t, Lat(db.gens, p)) && At(db.gens, p, t).Some?
    && Meets(SchemaAt(db, p, t), t, q)
  }

  ghost predicate Aligned(db: DB, t: Timestamp, reqs: Reqs)
    requires ValidDB(db)
  {
    forall p | p in reqs :: AlignedFor(db, t, p, reqs[p])
  }

  /** What a schema has to meet so far. */
  lemma {:induction false} ReqIsMet(db: DB, t: Timestamp, reqs: Reqs, p: TablePath)
    requires ValidDB(db) && Aligned(db, t, reqs) && At(db.gens, p, t).Some?
    ensures Meets(SchemaAt(db, p, t), t, ReqOf(reqs, p))
  {
    if p in reqs { assert AlignedFor(db, t, p, reqs[p]); }
  }

  lemma {:induction false} AlignedMore(db: DB, t: Timestamp, reqs: Reqs, p: TablePath, q: ColReq)
    requires ValidDB(db) && Aligned(db, t, reqs) && Upto(t, Lat(db.gens, p)) && At(db.gens, p, t).Some?
    requires Meets(SchemaAt(db, p, t), t, q)
    ensures Aligned(db, t, reqs[p := q])
  {
    hide Meets, At, Lat;
  }

  lemma {:induction false} MeetsGrows(s: TableSchema, s': TableSchema, t: Timestamp, q: ColReq)
    requires Valid(s.valCols) && s'.keyCols == s.keyCols && Grows(s.valCols, s'.valCols) && Meets(s, t, q)
    ensures Meets(s', t, q)
  {
    assert forall c :: IsKey(s', c) == IsKey(s, c);
    if q.Exclusive? {
      SnapshotFixed(s.valCols, s'.valCols, t);
      assert ValColsAt(s', t) == ValColsAt(s, t);
    } else {
      assert forall c :: Upto(Lat(s.valCols, c), Lat(s'.valCols, c));
    }
  }

  /** What a view has recorded stays true after any legal changes. */
  lemma {:induction false} AlignedGrows(a: DB, b: DB, t: Timestamp, reqs: Reqs)
    requires ValidDB(a) && ValidDB(b) && GrowsDB(a, b) && Aligned(a, t, reqs)
    ensures Aligned(b, t, reqs)
  {
    forall p | p in reqs ensures AlignedFor(b, t, p, reqs[p]) {
      assert AlignedFor(a, t, p, reqs[p]);
      assert Upto(Lat(a.gens, p), Lat(b.gens, p)) && At(b.gens, p, t) == At(a.gens, p, t);
      SchemaExists(a, p, t);
      hide Grows, Meets;
      MeetsGrows(SchemaAt(a, p, t), SchemaAt(b, p, t), t, reqs[p]);
    }
  }

  /** `mark_val_col_presence`. The assertions are those of the code. */
  method MarkValColPresence(reqs: Reqs, p: TablePath, c: ColName, present: bool, ghost s: TableSchema, ghost t: Timestamp)
    returns (reqs': Reqs)
    requires Valid(s.valCols) && Meets(s, t, ReqOf(reqs, p))
    requires !IsKey(s, c) && Upto(t, Lat(s.valCols, c)) && present == At(s.valCols, c, t).Some?
    ensures p in reqs' && reqs' == reqs[p := reqs'[p]] && Meets(s, t, reqs'[p])
    ensures reqs'[p].Exclusive? || c in (if present then reqs'[p].present else reqs'[p].absent)
  {
    var q := ReqOf(reqs, p);
    match q {
      case PresentAbsent(ps, ns) =>
        if present {
          q := PresentAbsent(ps + {c}, ns);
          assert c !in q.absent;
        } else {
          q := PresentAbsent(ps, ns + {c});
          assert c !in q.present;
        }
      case Exclusive(cs) =>
        Absent(s.valCols, c, t);
        assert present == (c in cs);
    }
    reqs' := reqs[p := q];
  }

  /** `mark_all_val_cols`. */
  method MarkAllValCols(reqs: Reqs, p: TablePath, cols: set<ColName>, ghost s: TableSchema, ghost t: Timestamp)
    returns (reqs': Reqs)
    requires Valid(s.valCols) && Meets(s, t, ReqOf(reqs, p)) && Upto(t, s.valCols.minLat) && cols == ValColsAt(s, t)
    ensures reqs' == reqs[p := Exclusive(cols)] && Meets(s, t, reqs'[p])
  {
    match ReqOf(reqs, p) {
      case PresentAbsent(ps, ns) =>
        forall c | c in ps ensures c in cols { Absent(s.valCols, c, t); }
        assert ps <= cols && ns !! cols;
      case Exclusive(cs) => assert cols == cs;
    }
    reqs' := reqs[p := Exclusive(cols)];
  }

  /** The view that fails if a LAT is too low. Its database is not changed. */
  class CheckingDBSchemaView {
    const db: DB
    const timestamp: Timestamp
    var colPresenceReq: Reqs

    constructor (db: DB, timestamp: Timestamp)
      requires ValidDB(db)
      ensures this.db == db && this.timestamp == timestamp && colPresenceReq == map[] && Valid()
    {
      this.db, this.timestamp := db, timestamp;
      colPresenceReq := map[];
    }

    ghost predicate Valid()
      reads this
    {
      ValidDB(db) && Aligned(db, timestamp, colPresenceReq)
    }

    method GetGenOf(p: TablePath) returns (o: Outcome)
      requires Valid()
      ensures o == Checking(db, timestamp, GetGen(p))
      ensures o.InsufficientLat? || Truth(db, timestamp, GetGen(p), o)
    {
      hide Truth;
      ViewsAreTrue(db, timestamp, GetGen(p));
      if Before(Lat(db.gens, p), timestamp) { return InsufficientLat; }
      match At(db.gens, p, timestamp) {
        case Some(g) => o := Generation(g);
        case None => o := TablesDNE;
      }
    }

    method HasTable(p: TablePath) returns (o: Outcome)
      requires Valid()
      ensures o == Checking(db, timestamp, ContainsTable(p))
      ensures o.InsufficientLat? || Truth(db, timestamp, ContainsTable(p), o)
    {
      hide Truth;
      ViewsAreTrue(db, timestamp, ContainsTable(p));
      if Before(Lat(db.gens, p), timestamp) { return InsufficientLat; }
      o := Present(At(db.gens, p, timestamp).Some?);
    }

    method KeyColsOf(p: TablePath) returns (o: Outcome)
      requires Valid()
      ensures o == Checking(db, timestamp, KeyCols(p))
      ensures o.InsufficientLat? || Truth(db, timestamp, KeyCols(p), o)
    {
      hide Truth;
      ViewsAreTrue(db, timestamp, KeyCols(p));
      o := GetGenOf(p);
      if o.Generation? {
        SchemaExists(db, p, timestamp);
        o := Keys(db.schemas[(p, o.gen.gen)].keyCols);
      }
    }

    method HasCol(p: TablePath, c: ColName) returns (o: Outcome)
      requires Valid()
      modifies this
      ensures Valid() && o == Checking(db, timestamp, ContainsCol(p, c))
      ensures o.InsufficientLat? || Truth(db, timestamp, ContainsCol(p, c), o)
    {
      hide Truth;
      ViewsAreTrue(db, timestamp, ContainsCol(p, c));
      o := GetGenOf(p);
      if o.Generation? {
        SchemaExists(db, p, timestamp);
        var s := db.schemas[(p, o.gen.gen)];
        if IsKey(s, c) { return Present(true); }
        if Before(Lat(s.valCols, c), timestamp) { return InsufficientLat; }
        var present := At(s.valCols, c, timestamp).Some?;
        assert p in colPresenceReq ==> AlignedFor(db, timestamp, p, colPresenceReq[p]);
        colPresenceReq := MarkValColPresence(colPresenceReq, p, c, present, s, timestamp);
        o := Present(present);
      }
    }

    method AllColsOf(p: TablePath) returns (o: Outcome)
      requires Valid()
      modifies this
      ensures Valid() && o == Checking(db, timestamp, GetAllCols(p))
      ensures o.InsufficientLat? || Truth(db, timestamp, GetAllCols(p), o)
    {
      hide Truth;
      ViewsAreTrue(db, timestamp, GetAllCols(p));
      o := GetGenOf(p);
      if o.Generation? {
        SchemaExists(db, p, timestamp);
        var s := db.schemas[(p, o.gen.gen)];
        if Before(s.valCols.minLat, timestamp) { return InsufficientLat; }
        assert p in colPresenceReq ==> AlignedFor(db, timestamp, p, colPresenceReq[p]);
        colPresenceReq := MarkAllValCols(colPresenceReq, p, ValColsAt(s, timestamp), s, timestamp);
        o := AllCols(s.keyCols, Snapshot(s.valCols, timestamp).Keys);
      }
    }
  }

  /** The view that raises the LATs it depends on. */
  class LockingDBSchemaView {
    var db: DB
    const timestamp: Timestamp
    var colPresenceReq: Reqs

    constructor (db: DB, timestamp: Timestamp)
      requires ValidDB(db)
      ensures this.db == db && this.timestamp == timestamp && colPresenceReq == map[] && Valid()
    {
      this.db, this.timestamp := db, timestamp;
      colPresenceReq := map[];
    }

    ghost predicate Valid()
      reads this
    {
      ValidDB(db) && Aligned(db, timestamp, colPresenceReq)
    }

    /** `MVM::read` of the generation of a table. */
    method ReadGeneration(p: TablePath) returns (g: Option<FullGen>)
      requires Valid()
      modifies this`db
      ensures Valid() && db == old(db).(gens := Raised(old(db).gens, p, timestamp))
      ensures g == At(old(db).gens, p, timestamp) && Upto(timestamp, Lat(db.gens, p)) && At(db.gens, p, timestamp) == g
    {
      GensRaised(db, p, timestamp);
      RaiseGrows(db.gens, p, timestamp);
      AlignedGrows(db, db.(gens := Raised(db.gens, p, timestamp)), timestamp, colPresenceReq);
      g := At(db.gens, p, timestamp);
      db := db.(gens := Raised(db.gens, p, timestamp));
    }

    method GetGenOf(p: TablePath) returns (o: Outcome)
      requires Valid()
      modifies this
      ensures Valid() && (db, o) == Locking(old(db), timestamp, GetGen(p))
      ensures Truth(old(db), timestamp, GetGen(p), o)
    {
      hide Truth;
      ViewsAreTrue(db, timestamp, GetGen(p));
      ghost var before := db;
      var g := ReadGeneration(p);
      if g.Some? {
        SchemaExists(before, p, timestamp);
        assert db.schemas == before.schemas[(p, g.value.gen) := before.schemas[(p, g.value.gen)]];
        o := Generation(g.value);
      } else {
        o := TablesDNE;
      }
    }

    method HasTable(p: TablePath) returns (o: Outcome)
      requires Valid()
      modifies this
      ensures Valid() && (db, o) == Locking(old(db), timestamp, ContainsTable(p))
      ensures Truth(old(db), timestamp, ContainsTable(p), o)
    {
      hide Truth;
      ViewsAreTrue(db, timestamp, ContainsTable(p));
      ghost var before := db;
      var g := ReadGeneration(p);
      if g.Some? {
        SchemaExists(before, p, timestamp);
        assert db.schemas == before.schemas[(p, g.value.gen) := before.schemas[(p, g.value.gen)]];
      }
      o := Present(g.Some?);
    }

    method KeyColsOf(p: TablePath) returns (o: Outcome)
      requires Valid()
      modifies this
      ensures Valid() && (db, o) == Locking(old(db), timestamp, KeyCols(p))
      ensures Truth(old(db), timestamp, KeyCols(p), o)
    {
      hide Truth;
      ViewsAreTrue(db, timestamp, KeyCols(p));
      ghost var before := db;
      var g := ReadGeneration(p);
      if g.None? { return TablesDNE; }
      SchemaExists(before, p, timestamp);
      assert db.schemas == before.schemas[(p, g.value.gen) := before.schemas[(p, g.value.gen)]];
      o := Keys(db.schemas[(p, g.value.gen)].keyCols);
    }

    /** Puts raised LATs of value columns into the database. */
    method LockColumns(p: TablePath, gen: nat, m: Mvm<ColName, ColType>)
      requires Valid() && (p, gen) in db.schemas
      requires MultiVersion.Valid(m) && Grows(db.schemas[(p, gen)].valCols, m)
      modifies this`db
      ensures Valid() && db == WithCols(old(db), (p, gen), m)
    {
      ColsGrow(db, (p, gen), m);
      AlignedGrows(db, WithCols(db, (p, gen), m), timestamp, colPresenceReq);
      db := WithCols(db, (p, gen), m);
    }

    method HasCol(p: TablePath, c: ColName) returns (o: Outcome)
      requires Valid()
      modifies this
      ensures Valid() && (db, o) == Locking(old(db), timestamp, ContainsCol(p, c))
      ensures Truth(old(db), timestamp, ContainsCol(p, c), o)
    {
      hide Truth;
      ViewsAreTrue(db, timestamp, ContainsCol(p, c));
      ghost var before := db;
      var g := ReadGeneration(p);
      if g.None? { return TablesDNE; }
      SchemaExists(before, p, timestamp);
      var x := (p, g.value.gen);
      var s := db.schemas[x];
      if IsKey(s, c) {
        assert db.schemas == before.schemas[x := s];
        return Present(true);
      }
      RaiseGrows(s.valCols, c, timestamp);
      var present := At(s.valCols, c, timestamp).Some?;
      LockColumns(p, g.value.gen, Raised(s.valCols, c, timestamp));
      ghost var s' := db.schemas[x];
      assert !IsKey(s', c) && s' == SchemaAt(db, p, timestamp);
      ReqIsMet(db, timestamp, colPresenceReq, p);
      hide Meets, Grows;
      ghost var reqs := colPresenceReq;
      colPresenceReq := MarkValColPresence(colPresenceReq, p, c, present, s', timestamp);
      AlignedMore(db, timestamp, reqs, p, colPresenceReq[p]);
      hide Aligned;
      o := Present(present);
    }

    method AllColsOf(p: TablePath) returns (o: Outcome)
      requires Valid()
      modifies this
      ensures Valid() && (db, o) == Locking(old(db), timestamp, GetAllCols(p))
      ensures Truth(old(db), timestamp, GetAllCols(p), o)
    {
      hide Truth;
      ViewsAreTrue(db, timestamp, GetAllCols(p));
      ghost var before := db;
      var g := ReadGeneration(p);
      if g.None? { return TablesDNE; }
      SchemaExists(before, p, timestamp);
      var x := (p, g.value.gen);
      var s := db.schemas[x];
      var all := Snapshot(s.valCols, timestamp).Keys;
      RaiseAllGrows(s.valCols, timestamp);
      LockColumns(p, g.value.gen, RaisedAll(s.valCols, timestamp));
      ghost var s' := db.schemas[x];
      SameSnapshot(s.valCols, s'.valCols, timestamp);
      assert forall c :: IsKey(s', c) == IsKey(s, c);
      assert ValColsAt(s', timestamp) == ValColsAt(s, timestamp) && s' == SchemaAt(db, p, timestamp);
      ReqIsMet(db, timestamp, colPresenceReq, p);
      hide Meets, Grows;
      ghost var reqs := colPresenceReq;
      colPresenceReq := MarkAllValCols(colPresenceReq, p, ValColsAt(s, timestamp), s', timestamp);
      AlignedMore(db, timestamp, reqs, p, colPresenceReq[p]);
      hide Aligned;
      o := AllCols(s.keyCols, all);
    }
  }
}
