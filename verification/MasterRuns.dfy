/** The master's scheduler and its metadata together: whatever is submitted, started, committed, closed
    or lost with a leadership, an operation that was started still finds what it was checked against
    when it commits, and every key has exactly one shard. */
module MasterRuns {
  import opened Wrappers
  import opened Values
  import opened Timestamps
  import opened MultiVersion
  import opened SchemaViews
  import opened Regions
  import opened Sharding
  import opened Metadata
  import opened MetadataViews
  import opened Scheduler

  datatype Kind = Creating | Altering | Dropping | Splitting

  function KindOf(op: Scheduler.Op): Kind {
    match op
    case CreateOp => Creating
    case AlterOp(_, _) => Altering
    case DropOp => Dropping
    case SplitOp(_, _, _, _, _) => Splitting
  }

  function JobsOf(s: Statuses, k: Kind): Jobs {
    match k
    case Creating => s.creates
    case Altering => s.alters
    case Dropping => s.drops
    case Splitting => s.splits
  }

  function WithJobs(s: Statuses, k: Kind, js: Jobs): Statuses {
    match k
    case Creating => s.(creates := js)
    case Altering => s.(alters := js)
    case Dropping => s.(drops := js)
    case Splitting => s.(splits := js)
  }

  /** The operations, the metadata, and the operations that committed but are not closed yet. */
  datatype State = State(statuses: Statuses, gossip: Gossip, committed: set<(Kind, QueryId)>)

  /** A commit is that of an operation; `Leave` is the end of one, by its closing, by an abort, or by a
      change of leadership before it was logged; `Lock` is a query that raises LATs. */
  datatype Event =
    | Submit(q: QueryId, job: Job)
    | Advance
    | CommitJob(kind: Kind, q: QueryId, c: Commit)
    | Leave(kind: Kind, q: QueryId)
    | Lock(c: Commit)

  // ---------------------------------------------------------------------------------------------
  //  Shards
  // ---------------------------------------------------------------------------------------------

  function RangesOf(shards: Shards): (rs: seq<TabletKeyRange>)
    ensures |rs| == |shards| && forall k | 0 <= k < |shards| :: rs[k] == shards[k].0
  {
    seq(|shards|, k requires 0 <= k < |shards| => shards[k].0)
  }

  predicate DistinctTablets(shards: Shards) {
    forall j, k | 0 <= j < k < |shards| :: shards[j].1 != shards[k].1
  }

  /** Each tablet once, ranges of the right type, and each key in exactly one of them. */
  ghost predicate ShardsFit(keys: seq<(ColName, ColType)>, shards: Shards) {
    && DistinctTablets(shards) && (forall k | 0 <= k < |shards| :: RangeOk(keys, shards[k].0))
    && (keys != [] ==> Partitions(RangesOf(shards), keys[0].1))
  }

  /** The third and fifth documented property, and that shards fit their table. */
  ghost predicate ShardingOK(g: Gossip, slaves: set<SlaveId>) {
    && (forall p, f | (p, f) in g.sharding && (p, f.gen) in g.schemas :: ShardsFit(g.schemas[(p, f.gen)].keyCols, g.sharding[(p, f)]))
    && (forall t | t in g.addresses :: g.addresses[t] in slaves)
  }

  /** What `simple_partition` draws fits, if its random tablet names differ. */
  lemma {:induction false} PartitionFits(keys: seq<(ColName, ColType)>, drawn: seq<Shard>, shards: Shards)
    requires RangesOf(shards) == Ranges(drawn) && DistinctTablets(shards)
    requires forall t | keys == [] || t == keys[0].1 :: Partitions(Ranges(drawn), t)
    requires keys == [] ==> Ranges(drawn) == [TabletKeyRange(None, None)]
    requires forall k | 0 <= k < |drawn| :: keys != [] ==> RangeOk(keys, drawn[k].range)
    ensures ShardsFit(keys, shards)
  {
    hide Partitions;
    forall k | 0 <= k < |shards| ensures RangeOk(keys, shards[k].0) {
      assert shards[k].0 == RangesOf(shards)[k] && Ranges(drawn)[k] == drawn[k].range;
    }
  }

  lemma {:induction false} RangeOfAt(shards: Shards, t: TabletId) returns (i: nat)
    requires RangeOf(shards, t).Some?
    ensures i < |shards| && shards[i].1 == t && shards[i].0 == RangeOf(shards, t).value && forall j | 0 <= j < i :: shards[j].1 != t
  {
    if shards[0].1 == t {
      i := 0;
    } else {
      var j := RangeOfAt(shards[1..], t);
      i := j + 1;
    }
  }

  lemma {:induction false} SplitElsewhere(shards: Shards, o: (TabletKeyRange, TabletId), n: (TabletKeyRange, TabletId))
    requires forall k | 0 <= k < |shards| :: shards[k].1 != o.1
    ensures SplitShards(shards, o, n) == shards
  {
    if shards != [] {
      var m := |shards| - 1;
      assert forall k | 0 <= k < m :: shards[..m][k] == shards[k];
      SplitElsewhere(shards[..m], o, n);
    }
  }

  lemma {:induction false} SplitAt(shards: Shards, i: nat, o: (TabletKeyRange, TabletId), n: (TabletKeyRange, TabletId))
    requires DistinctTablets(shards) && i < |shards| && shards[i].1 == o.1
    ensures SplitShards(shards, o, n) == shards[..i] + [o, n] + shards[i + 1..]
  {
    var m := |shards| - 1;
    var init := shards[..m];
    assert forall k | 0 <= k < m :: init[k] == shards[k];
    if i == m {
      forall k | 0 <= k < |init| ensures init[k].1 != o.1 { assert shards[k].1 != shards[i].1; }
      SplitElsewhere(init, o, n);
      assert shards[i + 1..] == [] && init == shards[..i];
    } else {
      assert init[i] == shards[i] && shards[m].1 != o.1;
      SplitAt(init, i, o, n);
      assert init[..i] == shards[..i] && shards[i + 1..] == init[i + 1..] + [shards[m]];
      assert (shards[..i] + [o, n] + init[i + 1..]) + [shards[m]] == shards[..i] + [o, n] + shards[i + 1..];
    }
  }

  /** The shards with the one at `i` replaced by two. */
  function CutShards(shards: Shards, i: nat, o: (TabletKeyRange, TabletId), n: (TabletKeyRange, TabletId)): (next: Shards)
    requires i < |shards|
    ensures |next| == |shards| + 1
    ensures forall j | 0 <= j < |next| :: next[j] == if j < i then shards[j] else if j == i then o else if j == i + 1 then n else shards[j - 1]
  {
    shards[..i] + [o, n] + shards[i + 1..]
  }

  lemma {:induction false} CutFits(keys: seq<(ColName, ColType)>, shards: Shards, i: nat, o: (TabletKeyRange, TabletId), n: (TabletKeyRange, TabletId))
    requires i < |shards| && shards[i].1 == o.1 && DistinctTablets(shards) && forall k | 0 <= k < |shards| :: shards[k].1 != n.1
    requires RangeOk(keys, o.0) && RangeOk(keys, n.0) && forall k | 0 <= k < |shards| :: RangeOk(keys, shards[k].0)
    ensures var next := CutShards(shards, i, o, n);
      && DistinctTablets(next) && (forall k | 0 <= k < |next| :: RangeOk(keys, next[k].0))
      && RangesOf(next) == Cut(RangesOf(shards), i, o.0, n.0)
  {
    hide RangeOk;
    var next := CutShards(shards, i, o, n);
    forall j, k | 0 <= j < k < |next| ensures next[j].1 != next[k].1 { }
    var rs, cut := RangesOf(next), Cut(RangesOf(shards), i, o.0, n.0);
    assert |rs| == |cut| && forall k | 0 <= k < |cut| :: rs[k] == cut[k];
  }

  lemma {:induction false} SplitFits(keys: seq<(ColName, ColType)>, shards: Shards, o: (TabletKeyRange, TabletId), n: (TabletKeyRange, TabletId))
    requires ShardsFit(keys, shards) && RangeOf(shards, o.1).Some? && SplitsPerfectly(RangeOf(shards, o.1).value, o.0, n.0)
    requires keys != [] && TypeOf(o.0.end.value) == keys[0].1 && forall k | 0 <= k < |shards| :: shards[k].1 != n.1
    ensures ShardsFit(keys, SplitShards(shards, o, n))
  {
    var i := RangeOfAt(shards, o.1);
    assert RangeOk(keys, shards[i].0);
    SplitEnds(shards[i].0, o.0, n.0);
    assert RangeOk(keys, o.0) && RangeOk(keys, n.0);
    hide RangeOk, DistinctTablets, Cut, CutShards, SplitShards, Partitions;
    SplitAt(shards, i, o, n);
    assert SplitShards(shards, o, n) == CutShards(shards, i, o, n) by { CutIs(shards, i, o, n); }
    CutFits(keys, shards, i, o, n);
    SplitPartitions(RangesOf(shards), i, o.0, n.0, keys[0].1);
  }

  lemma {:induction false} CutIs(shards: Shards, i: nat, o: (TabletKeyRange, TabletId), n: (TabletKeyRange, TabletId))
    requires i < |shards|
    ensures CutShards(shards, i, o, n) == shards[..i] + [o, n] + shards[i + 1..]
  {
  }

  lemma {:induction false} SplitEnds(orig: TabletKeyRange, a: TabletKeyRange, b: TabletKeyRange)
    requires SplitsPerfectly(orig, a, b)
    ensures orig.start == a.start && a.end == b.start && b.end == orig.end
  {
  }

  // ---------------------------------------------------------------------------------------------
  //  Steps
  // ---------------------------------------------------------------------------------------------

  predicate IsLock(c: Commit) { c.LockTable? || c.LockCol? || c.LockCols? }

  /** What a commit makes of the metadata; `None` if a lookup on the way fails. */
  function TryApply(g: Gossip, c: Commit): Option<Gossip> {
    match c
    case Create(p, ks, vs, shards, hint) =>
      if (p, CreateGen(g, p).gen) in g.schemas then None else Some(Created(g, p, ks, vs, shards, hint))
    case Alter(p, col, val, hint) =>
      if Last(g.gens, p).Some? && (p, Last(g.gens, p).value.gen) in g.schemas && HasRms(g, p)
      then Some(Altered(g, p, Last(g.gens, p).value.gen, col, val, hint)) else None
    case Drop(p, hint) => if HasRms(g, p) then Some(Dropped(g, p, hint)) else None
    case Split(p, o, n, sid, hint) =>
      var f := LastPresentOf(Versions(g.gens, p));
      if f.Some? && (p, f.value) in g.sharding then Some(Resharded(g, p, o, n, sid, hint)) else None
    case LockTable(p, t) => Some(g.(gens := Raised(g.gens, p, t)))
    case LockCol(p, n, col, t) =>
      if (p, n) in g.schemas
      then Some(g.(schemas := g.schemas[(p, n) := g.schemas[(p, n)].(valCols := Raised(g.schemas[(p, n)].valCols, col, t))])) else None
    case LockCols(p, n, t) =>
      if (p, n) in g.schemas
      then Some(g.(schemas := g.schemas[(p, n) := g.schemas[(p, n)].(valCols := RaisedAll(g.schemas[(p, n)].valCols, t))])) else None
  }

  /** `get_rms` succeeds. */
  predicate HasRms(g: Gossip, p: TablePath) {
    && Last(g.gens, p).Some? && (p, Last(g.gens, p).value) in g.sharding
    && forall k | 0 <= k < |g.sharding[(p, Last(g.gens, p).value)]| :: g.sharding[(p, Last(g.gens, p).value)][k].1 in g.addresses
  }

  /** A commit that an operation can lead to. The shards of a new table come from `simple_partition`. */
  ghost predicate CommitOf(slaves: set<SlaveId>, job: Job, c: Commit) {
    match job.op
    case CreateOp =>
      && c.Create? && c.table == job.table && DistinctCols(c.valCols) && ShardsFit(c.keyCols, Stripped(c.shards))
      && forall k | 0 <= k < |c.shards| :: c.shards[k].2 in slaves
    case AlterOp(col, add) => c.Alter? && c.table == job.table && c.col == col && c.val.Some? == add
    case DropOp => c.Drop? && c.table == job.table
    case SplitOp(oldTid, oldRange, newTid, newSid, newRange) =>
      c.Split? && c.table == job.table && c.old' == (oldRange, oldTid) && c.new' == (newRange, newTid) && c.sid == newSid
  }

  /** Creations and splits are applied when they are closed, alterations and drops before. */
  predicate AppliedAtClose(k: Kind) { k == Creating || k == Splitting }

  function Gone(s: State, k: Kind, q: QueryId): State {
    s.(statuses := WithJobs(s.statuses, k, JobsOf(s.statuses, k) - {q}), committed := s.committed - {(k, q)})
  }

  /** The state once the operation has been committed, but for the metadata. */
  function Settle(s: State, k: Kind, q: QueryId): State {
    if AppliedAtClose(k) then Gone(s, k, q) else s.(committed := s.committed + {(k, q)})
  }

  /** The operation runs and has not been committed. */
  predicate Pending(s: State, k: Kind, q: QueryId) {
    q in JobsOf(s.statuses, k) && JobsOf(s.statuses, k)[q].started && (k, q) !in s.committed
  }

  ghost predicate Step(slaves: set<SlaveId>, s: State, e: Event, s': State) {
    match e
    case Submit(q, job) =>
      var k := KindOf(job.op);
      !job.started && q !in JobsOf(s.statuses, k) && s' == s.(statuses := WithJobs(s.statuses, k, JobsOf(s.statuses, k)[q := job]))
    case Advance => s' == s.(statuses := s'.statuses) && (Exclusive(s.statuses) ==> Advances(s.gossip, slaves, s.statuses, s'.statuses))
    case CommitJob(k, q, c) =>
      && Pending(s, k, q) && CommitOf(slaves, JobsOf(s.statuses, k)[q], c) && TryApply(s.gossip, c) == Some(s'.gossip)
      && s' == Settle(s, k, q).(gossip := s'.gossip)
    case Leave(k, q) => s' == Gone(s, k, q)
    case Lock(c) => IsLock(c) && TryApply(s.gossip, c) == Some(s'.gossip) && s' == s.(gossip := s'.gossip)
  }

  ghost predicate Run(slaves: set<SlaveId>, states: seq<State>, events: seq<Event>) {
    && |states| == |events| + 1
    && states[0] == State(Statuses(map[], map[], map[], map[]), Gossip(NewMvm(), map[], map[], map[]), {})
    && forall k | 0 <= k < |events| :: Step(slaves, states[k], events[k], states[k + 1])
  }

  // ---------------------------------------------------------------------------------------------
  //  One operation per table
  // ---------------------------------------------------------------------------------------------

  ghost predicate OnePerTable(s: Statuses) {
    forall k, q, l, r | q in JobsOf(s, k) && r in JobsOf(s, l) && JobsOf(s, k)[q].started && JobsOf(s, l)[r].started
                        && JobsOf(s, k)[q].table == JobsOf(s, l)[r].table :: k == l && q == r
  }

  lemma {:induction false} ExclusiveIsOne(s: Statuses)
    ensures Exclusive(s) <==> OnePerTable(s)
  {
    if Exclusive(s) { ExclusiveOne(s); }
    if OnePerTable(s) { OneExclusive(s); }
  }

  lemma {:induction false} RunningHas(js: Jobs, q: QueryId)
    requires q in js && js[q].started
    ensures js[q].table in Running(js)
  {
  }

  lemma {:induction false} ExclusiveOne(s: Statuses)
    requires Exclusive(s)
    ensures OnePerTable(s)
  {
    hide Exclusive, Running, JobsOf;
    forall k, q, l, r | q in JobsOf(s, k) && r in JobsOf(s, l) && JobsOf(s, k)[q].started && JobsOf(s, l)[r].started
                        && JobsOf(s, k)[q].table == JobsOf(s, l)[r].table ensures k == l && q == r {
      RunningHas(JobsOf(s, k), q);
      RunningHas(JobsOf(s, l), r);
      ExclusiveKinds(s, k, l);
    }
  }

  lemma {:induction false} ExclusiveKinds(s: Statuses, k: Kind, l: Kind)
    requires Exclusive(s)
    ensures Unique(JobsOf(s, k)) && (k != l ==> Running(JobsOf(s, k)) !! Running(JobsOf(s, l)))
  {
    hide Running, Unique;
  }

  lemma {:induction false} ApartKinds(s: Statuses, k: Kind, l: Kind)
    requires OnePerTable(s) && k != l
    ensures Running(JobsOf(s, k)) !! Running(JobsOf(s, l)) && Unique(JobsOf(s, k)) && Unique(JobsOf(s, l))
  {
  }

  lemma {:induction false} OneExclusive(s: Statuses)
    requires OnePerTable(s)
    ensures Exclusive(s)
  {
    hide OnePerTable, Running, Unique;
    ApartKinds(s, Creating, Altering);
    ApartKinds(s, Creating, Dropping);
    ApartKinds(s, Creating, Splitting);
    ApartKinds(s, Altering, Dropping);
    ApartKinds(s, Altering, Splitting);
    ApartKinds(s, Dropping, Splitting);
  }

  // ---------------------------------------------------------------------------------------------
  //  What an operation was checked against stays
  // ---------------------------------------------------------------------------------------------

  /** The check of the scheduler, as far as it concerns the table alone. */
  predicate StillValid(g: Gossip, slaves: set<SlaveId>, p: TablePath, op: Scheduler.Op) {
    match op
    case CreateOp => Last(g.gens, p).None?
    case DropOp => Last(g.gens, p).Some?
    case AlterOp(c, add) =>
      && Last(g.gens, p).Some? && (p, Last(g.gens, p).value.gen) in g.schemas
      && var s := g.schemas[(p, Last(g.gens, p).value.gen)];
         !IsKey(s, c) && (Last(s.valCols, c).Some? != add)
    case SplitOp(oldTid, oldRange, newTid, newSid, newRange) =>
      && newSid in slaves
      && Last(g.gens, p).Some? && (p, Last(g.gens, p).value) in g.sharding && (p, Last(g.gens, p).value.gen) in g.schemas
      && var shards := g.sharding[(p, Last(g.gens, p).value)];
         && RangeOf(shards, oldTid).Some? && SplitsPerfectly(RangeOf(shards, oldTid).value, oldRange, newRange)
         && ValidRangeKey(g.schemas[(p, Last(g.gens, p).value.gen)], oldRange.end)
         && forall k | 0 <= k < |shards| :: shards[k].1 != newTid
  }

  lemma {:induction false} ValidStays(g: Gossip, slaves: set<SlaveId>, p: TablePath, op: Scheduler.Op)
    requires Scheduler.Valid(g, slaves, p, op) && PropertyFour(g)
    ensures StillValid(g, slaves, p, op)
  {
    hide SplitsPerfectly, ValidRangeKey, IsKey, RangeOf;
  }

  /** A table and its columns and shards are the same in both. */
  ghost predicate SameTable(g: Gossip, g': Gossip, p: TablePath) {
    && Last(g'.gens, p) == Last(g.gens, p)
    && (forall n | (p, n) in g.schemas :: (p, n) in g'.schemas && g'.schemas[(p, n)].keyCols == g.schemas[(p, n)].keyCols
          && forall c :: Last(g'.schemas[(p, n)].valCols, c) == Last(g.schemas[(p, n)].valCols, c))
    && (forall f | (p, f) in g.sharding :: (p, f) in g'.sharding && g'.sharding[(p, f)] == g.sharding[(p, f)])
  }

  lemma {:induction false} SameTableValid(g: Gossip, g': Gossip, slaves: set<SlaveId>, p: TablePath, op: Scheduler.Op)
    requires SameTable(g, g', p) && StillValid(g, slaves, p, op)
    ensures StillValid(g', slaves, p, op)
  {
    hide SplitsPerfectly, RangeOf, Last;
  }

  lemma {:induction false} WrittenElsewhere<K(!new), V(!new)>(m: Mvm<K, V>, k: K, v: Option<V>, t: Timestamp)
    ensures forall j | j != k :: Last(Written(m, k, v, t), j) == Last(m, j)
  {
  }

  lemma {:induction false} RaisedLast<K(!new), V(!new)>(m: Mvm<K, V>, k: K, t: Timestamp)
    ensures forall j :: Last(Raised(m, k, t), j) == Last(m, j)
    ensures forall j :: Last(RaisedAll(m, t), j) == Last(m, j)
  {
  }

  /** A commit leaves the other tables alone. */
  lemma {:induction false} OtherTables(g: Gossip, c: Commit, p: TablePath)
    requires TryApply(g, c).Some? && (IsLock(c) || c.table != p)
    ensures SameTable(g, TryApply(g, c).value, p)
  {
    match c
    case Create(q, ks, vs, shards, hint) => WrittenElsewhere(g.gens, q, Some(CreateGen(g, q)), CreateTime(g, q, hint));
    case Alter(q, col, val, hint) => RaisedLast(g.gens, q, AlterTime(g, q, Last(g.gens, q).value.gen, col, hint));
    case Drop(q, hint) => WrittenElsewhere(g.gens, q, None, CreateTime(g, q, hint));
    case Split(q, o, n, sid, hint) => WrittenElsewhere(g.gens, q, Some(SplitGen(g, q)), CreateTime(g, q, hint));
    case LockTable(q, t) => RaisedLast(g.gens, q, t);
    case LockCol(q, n, col, t) => RaisedLast(g.schemas[(q, n)].valCols, col, t);
    case LockCols(q, n, t) => LockedLast(g.schemas[(q, n)].valCols, t);
  }

  lemma {:induction false} LockedLast(m: Mvm<ColName, ColType>, t: Timestamp)
    ensures forall j :: Last(RaisedAll(m, t), j) == Last(m, j)
  {
  }

  /** The check of the scheduler, in terms of what the schema views answer from the LATs on: a table is
      created if it does not exist, dropped if it does, and a column that is not a key column is added if it
      does not exist and dropped if it does. */
  lemma {:induction false} ValidExactly(g: Gossip, slaves: set<SlaveId>, p: TablePath, c: ColName, add: bool, t: Timestamp)
    requires Inv(g) && Upto(Lat(g.gens, p), t)
    requires Last(g.gens, p).Some? && (p, Last(g.gens, p).value.gen) in g.schemas ==> Upto(Lat(g.schemas[(p, Last(g.gens, p).value.gen)].valCols, c), t)
    ensures ValidDB(DBOf(g))
    ensures Scheduler.Valid(g, slaves, p, CreateOp) <==> Locking(DBOf(g), t, ContainsTable(p)).1 == Present(false)
    ensures Scheduler.Valid(g, slaves, p, DropOp) <==> Locking(DBOf(g), t, ContainsTable(p)).1 == Present(true)
    ensures Scheduler.Valid(g, slaves, p, AlterOp(c, add)) <==>
      && Locking(DBOf(g), t, ContainsCol(p, c)).1 == Present(!add)
      && var o := Locking(DBOf(g), t, KeyCols(p)).1; o.Keys? && forall k | 0 <= k < |o.keys| :: o.keys[k].0 != c
  {
    InvGivesDB(g);
    LastFromLat(g.gens, p, t);
    if Last(g.gens, p).Some? {
      LatestIsHad(g, p);
      var s := g.schemas[(p, Last(g.gens, p).value.gen)];
      LastFromLat(s.valCols, c, t);
      assert SchemaAt(DBOf(g), p, t) == s;
    }
    hide Inv, ValidDB, At, Lat, Last;
  }

  /** A split is valid exactly if it cuts a shard of an existing table at a key of the right type inside the
      shard, and gives the part from there on to a new tablet of a known group. */
  lemma {:induction false} SplitValidExactly(g: Gossip, slaves: set<SlaveId>, p: TablePath, oldTid: TabletId, oldRange: TabletKeyRange,
                                             newTid: TabletId, newSid: SlaveId, newRange: TabletKeyRange)
    requires Inv(g)
    ensures Scheduler.Valid(g, slaves, p, SplitOp(oldTid, oldRange, newTid, newSid, newRange)) <==>
      && Last(g.gens, p).Some? && newSid in slaves && newTid !in g.addresses
      && (p, Last(g.gens, p).value) in g.sharding && (p, Last(g.gens, p).value.gen) in g.schemas
      && exists k: ColVal, i :: CutsAt(g.sharding[(p, Last(g.gens, p).value)], i, oldTid, k, oldRange, newRange)
                        && HasKeyType(g.schemas[(p, Last(g.gens, p).value.gen)], k)
  {
    if Last(g.gens, p).Some? {
      LatestIsHad(g, p);
      hide Inv;
      var shards, s := g.sharding[(p, Last(g.gens, p).value)], g.schemas[(p, Last(g.gens, p).value.gen)];
      if Scheduler.Valid(g, slaves, p, SplitOp(oldTid, oldRange, newTid, newSid, newRange)) {
        var i := RangeOfAt(shards, oldTid);
        assert CutsAt(shards, i, oldTid, oldRange.end.value, oldRange, newRange) && HasKeyType(s, oldRange.end.value);
      }
      if k: ColVal, i :| CutsAt(shards, i, oldTid, k, oldRange, newRange) && HasKeyType(s, k) {
        RangeOfFirst(shards, oldTid, i);
      }
    }
  }

  /** The new ranges are the two parts of the first shard of the tablet, cut at `k`. */
  ghost predicate CutsAt(shards: Shards, i: int, t: TabletId, k: ColVal, a: TabletKeyRange, b: TabletKeyRange) {
    && 0 <= i < |shards| && shards[i].1 == t && (forall j | 0 <= j < i :: shards[j].1 != t) && Contains(shards[i].0, k)
    && a == TabletKeyRange(shards[i].0.start, Some(k)) && b == TabletKeyRange(Some(k), shards[i].0.end)
  }

  predicate HasKeyType(s: TableSchema, k: ColVal) { s.keyCols != [] && TypeOf(k) == s.keyCols[0].1 }

  lemma {:induction false} RangeOfFirst(shards: Shards, t: TabletId, i: nat)
    requires i < |shards| && shards[i].1 == t && forall j | 0 <= j < i :: shards[j].1 != t
    ensures RangeOf(shards, t) == Some(shards[i].0)
  {
    if i > 0 {
      assert shards[0].1 != t;
      RangeOfFirst(shards[1..], t, i - 1);
    }
  }

  // ---------------------------------------------------------------------------------------------
  //  The invariant
  // ---------------------------------------------------------------------------------------------

  ghost predicate Kinded(s: Statuses) {
    forall k, q | q in JobsOf(s, k) :: KindOf(JobsOf(s, k)[q].op) == k
  }

  ghost predicate PendingValid(slaves: set<SlaveId>, s: State) {
    forall k, q | Pending(s, k, q) :: StillValid(s.gossip, slaves, JobsOf(s.statuses, k)[q].table, JobsOf(s.statuses, k)[q].op)
  }

  ghost predicate Good(slaves: set<SlaveId>, s: State) {
    Inv(s.gossip) && ShardingOK(s.gossip, slaves) && Exclusive(s.statuses) && Kinded(s.statuses) && PendingValid(slaves, s)
  }

  // Operations.

  lemma {:induction false} JobsWith(s: Statuses, k: Kind, js: Jobs)
    ensures forall l :: JobsOf(WithJobs(s, k, js), l) == if l == k then js else JobsOf(s, l)
  {
  }

  /** Fewer operations run. */
  lemma {:induction false} FewerKeeps(slaves: set<SlaveId>, s: State, s': State)
    requires Good(slaves, s) && s'.gossip == s.gossip && Kinded(s'.statuses)
    requires forall l, r | r in JobsOf(s'.statuses, l) && JobsOf(s'.statuses, l)[r].started ::
      r in JobsOf(s.statuses, l) && JobsOf(s.statuses, l)[r] == JobsOf(s'.statuses, l)[r] && ((l, r) in s.committed ==> (l, r) in s'.committed)
    ensures Good(slaves, s')
  {
    ExclusiveIsOne(s.statuses);
    ExclusiveIsOne(s'.statuses);
    hide Inv, ShardingOK, Exclusive, StillValid, JobsOf;
    forall k, q | Pending(s', k, q) ensures Pending(s, k, q) { }
  }

  lemma {:induction false} SubmitKeeps(slaves: set<SlaveId>, s: State, q: QueryId, job: Job, s': State)
    requires Good(slaves, s) && Step(slaves, s, Submit(q, job), s')
    ensures Good(slaves, s')
  {
    var k := KindOf(job.op);
    JobsWith(s.statuses, k, JobsOf(s.statuses, k)[q := job]);
    hide Inv, ShardingOK, Exclusive, StillValid, JobsOf, WithJobs;
    FewerKeeps(slaves, s, s');
  }

  lemma {:induction false} LeaveKeeps(slaves: set<SlaveId>, s: State, k: Kind, q: QueryId)
    requires Good(slaves, s)
    ensures Good(slaves, Gone(s, k, q))
  {
    JobsWith(s.statuses, k, JobsOf(s.statuses, k) - {q});
    hide Inv, ShardingOK, Exclusive, StillValid, JobsOf, WithJobs;
    FewerKeeps(slaves, s, Gone(s, k, q));
  }

  lemma {:induction false} AdvancedJobs(g: Gossip, slaves: set<SlaveId>, a: Statuses, b: Statuses, k: Kind)
    requires Advances(g, slaves, a, b)
    ensures Advanced(g, slaves, JobsOf(a, k), JobsOf(b, k)) && Exclusive(b)
  {
  }

  lemma {:induction false} AdvanceKeeps(slaves: set<SlaveId>, s: State, s': State)
    requires Good(slaves, s) && Step(slaves, s, Advance, s')
    ensures Good(slaves, s')
  {
    hide Inv, ShardingOK, Exclusive, StillValid, Advances, Scheduler.Valid;
    AdvancedJobs(s.gossip, slaves, s.statuses, s'.statuses, Creating);
    assert PropertyFour(s.gossip) by { InvFour(s.gossip); }
    forall k, q | q in JobsOf(s'.statuses, k)
      ensures KindOf(JobsOf(s'.statuses, k)[q].op) == k
      ensures Pending(s', k, q) ==> StillValid(s.gossip, slaves, JobsOf(s'.statuses, k)[q].table, JobsOf(s'.statuses, k)[q].op)
    {
      AdvancedJobs(s.gossip, slaves, s.statuses, s'.statuses, k);
      var a := JobsOf(s.statuses, k);
      if JobsOf(s'.statuses, k)[q] == a[q] {
        assert Pending(s', k, q) ==> Pending(s, k, q);
      } else {
        ValidStays(s.gossip, slaves, a[q].table, a[q].op);
      }
    }
  }

  lemma {:induction false} InvFour(g: Gossip)
    requires Inv(g)
    ensures PropertyFour(g)
  {
  }

  // Commits.

  /** What was checked makes every lookup of the commit succeed. */
  lemma {:induction false} CommitSucceeds(slaves: set<SlaveId>, g: Gossip, job: Job, c: Commit)
    requires Inv(g) && StillValid(g, slaves, job.table, job.op) && CommitOf(slaves, job, c)
    ensures Legal(g, c) && TryApply(g, c) == Some(Metadata.Apply(g, c))
  {
    if c.Create? {
      CreateKeeps(g, c.table, c.keyCols, c.valCols, c.shards, c.hint);
    } else {
      LatestIsHad(g, job.table);
      LatestIsPresent(g.gens, job.table);
    }
  }

  lemma {:induction false} LockSucceeds(g: Gossip, c: Commit)
    requires Inv(g) && IsLock(c) && TryApply(g, c).Some?
    ensures Legal(g, c) && TryApply(g, c) == Some(Metadata.Apply(g, c))
  {
  }

  /** The schemas keep their key columns, and no shards are replaced. */
  ghost predicate KeysKept(g: Gossip, g': Gossip) {
    && (forall x | x in g.schemas :: x in g'.schemas && g'.schemas[x].keyCols == g.schemas[x].keyCols)
    && (forall x | x in g.sharding :: x in g'.sharding && g'.sharding[x] == g.sharding[x])
  }

  lemma {:induction false} ShardingKept(g: Gossip, g': Gossip, slaves: set<SlaveId>)
    requires ShardingOK(g, slaves) && Inv(g) && KeysKept(g, g')
    requires forall p, f | (p, f) in g'.sharding && (p, f) !in g.sharding :: (p, f.gen) in g'.schemas && ShardsFit(g'.schemas[(p, f.gen)].keyCols, g'.sharding[(p, f)])
    requires forall t | t in g'.addresses :: g'.addresses[t] in slaves
    ensures ShardingOK(g', slaves)
  {
    hide ShardsFit;
    forall p, f | (p, f) in g'.sharding && (p, f.gen) in g'.schemas ensures ShardsFit(g'.schemas[(p, f.gen)].keyCols, g'.sharding[(p, f)]) {
      if (p, f) in g.sharding { ShardedHasSchema(g, p, f); }
    }
  }

  lemma {:induction false} ShardedHasSchema(g: Gossip, p: TablePath, f: FullGen)
    requires Inv(g) && (p, f) in g.sharding
    ensures (p, f.gen) in g.schemas
  {
    HadHasGen(g.gens, p, f);
  }

  lemma {:induction false} AddressedFrom(a: map<TabletId, SlaveId>, shards: seq<(TabletKeyRange, TabletId, SlaveId)>, slaves: set<SlaveId>)
    requires (forall t | t in a :: a[t] in slaves) && forall k | 0 <= k < |shards| :: shards[k].2 in slaves
    ensures forall t | t in Addressed(a, shards) :: Addressed(a, shards)[t] in slaves
  {
    if shards != [] { AddressedFrom(a, shards[..|shards| - 1], slaves); }
  }

  lemma {:induction false} CreateSharding(slaves: set<SlaveId>, g: Gossip, job: Job, c: Commit)
    requires Inv(g) && ShardingOK(g, slaves) && job.op.CreateOp? && CommitOf(slaves, job, c)
    ensures ShardingOK(Created(g, c.table, c.keyCols, c.valCols, c.shards, c.hint), slaves)
  {
    CreateKeeps(g, c.table, c.keyCols, c.valCols, c.shards, c.hint);
    AddressedFrom(g.addresses, c.shards, slaves);
    hide Inv, ShardsFit;
    ShardingKept(g, Created(g, c.table, c.keyCols, c.valCols, c.shards, c.hint), slaves);
  }

  lemma {:induction false} SplitSharding(slaves: set<SlaveId>, g: Gossip, job: Job, c: Commit)
    requires Inv(g) && ShardingOK(g, slaves) && job.op.SplitOp? && CommitOf(slaves, job, c) && StillValid(g, slaves, job.table, job.op)
    requires TryApply(g, c).Some?
    ensures ShardingOK(TryApply(g, c).value, slaves)
  {
    hide Inv, SplitShards, StillValid, ShardsFit;
    var p := c.table;
    assert Last(g.gens, p).Some? by { SplitFinds(slaves, g, job, c); }
    SplitKeeps(g, p, c.old', c.new', c.sid, c.hint);
    var f := Last(g.gens, p).value;
    ShardedHasSchema(g, p, f);
    SplitNew(slaves, g, job, c);
    SplitShardingOK(slaves, g, c);
  }

  lemma {:induction false} SplitFinds(slaves: set<SlaveId>, g: Gossip, job: Job, c: Commit)
    requires job.op.SplitOp? && CommitOf(slaves, job, c) && StillValid(g, slaves, job.table, job.op)
    ensures Last(g.gens, c.table).Some? && c.sid in slaves
  {
  }

  lemma {:induction false} SplitShardingOK(slaves: set<SlaveId>, g: Gossip, c: Commit)
    requires Inv(g) && ShardingOK(g, slaves) && c.Split? && TryApply(g, c).Some? && c.sid in slaves
    requires var f := LastPresentOf(Versions(g.gens, c.table)).value;
      && (c.table, SplitGen(g, c.table)) !in g.sharding && (c.table, f.gen) in g.schemas
      && ShardsFit(g.schemas[(c.table, f.gen)].keyCols, SplitShards(g.sharding[(c.table, f)], c.old', c.new'))
    ensures ShardingOK(TryApply(g, c).value, slaves)
  {
    hide Inv, ShardsFit, SplitShards, Versions, CreateTime, Written;
    var g', x := TryApply(g, c).value, (c.table, SplitGen(g, c.table));
    assert g'.schemas == g.schemas && forall y | y in g'.sharding && y !in g.sharding :: y == x;
    ShardingKept(g, g', slaves);
  }

  /** The shards after a split fit. */
  lemma {:induction false} SplitNew(slaves: set<SlaveId>, g: Gossip, job: Job, c: Commit)
    requires ShardingOK(g, slaves) && job.op.SplitOp? && CommitOf(slaves, job, c) && StillValid(g, slaves, job.table, job.op)
    ensures c.sid in slaves && var f := Last(g.gens, c.table).value;
      ShardsFit(g.schemas[(c.table, f.gen)].keyCols, SplitShards(g.sharding[(c.table, f)], c.old', c.new'))
  {
    var f := Last(g.gens, c.table).value;
    hide ShardsFit, SplitShards, RangeOf;
    SplitFits(g.schemas[(c.table, f.gen)].keyCols, g.sharding[(c.table, f)], c.old', c.new');
  }

  lemma {:induction false} CommitSharding(slaves: set<SlaveId>, g: Gossip, job: Job, c: Commit)
    requires Inv(g) && ShardingOK(g, slaves) && CommitOf(slaves, job, c) && StillValid(g, slaves, job.table, job.op) && TryApply(g, c).Some?
    ensures ShardingOK(TryApply(g, c).value, slaves)
  {
    if job.op.CreateOp? {
      CreateSharding(slaves, g, job, c);
    } else if job.op.SplitOp? {
      SplitSharding(slaves, g, job, c);
    } else {
      ShardingKept(g, TryApply(g, c).value, slaves);
    }
  }

  /** Metadata that changes on no table with a pending operation. */
  lemma {:induction false} ElsewhereKeeps(slaves: set<SlaveId>, s: State, g': Gossip)
    requires Good(slaves, s) && Inv(g') && ShardingOK(g', slaves)
    requires forall k, q | Pending(s, k, q) :: SameTable(s.gossip, g', JobsOf(s.statuses, k)[q].table)
    ensures Good(slaves, s.(gossip := g'))
  {
    hide Inv, ShardingOK, Exclusive, StillValid, SameTable, JobsOf;
    var s' := s.(gossip := g');
    forall k, q | Pending(s', k, q) ensures StillValid(g', slaves, JobsOf(s'.statuses, k)[q].table, JobsOf(s'.statuses, k)[q].op) {
      assert Pending(s, k, q);
      SameTableValid(s.gossip, g', slaves, JobsOf(s.statuses, k)[q].table, JobsOf(s.statuses, k)[q].op);
    }
  }

  /** Once it has been committed, no operation on its table is pending. */
  lemma {:induction false} SettleKeeps(slaves: set<SlaveId>, s: State, k: Kind, q: QueryId)
    requires Good(slaves, s) && Pending(s, k, q)
    ensures Good(slaves, Settle(s, k, q))
    ensures forall l, r | Pending(Settle(s, k, q), l, r) :: JobsOf(Settle(s, k, q).statuses, l)[r].table != JobsOf(s.statuses, k)[q].table
  {
    ExclusiveIsOne(s.statuses);
    JobsWith(s.statuses, k, JobsOf(s.statuses, k) - {q});
    hide Inv, ShardingOK, Exclusive, StillValid, JobsOf, WithJobs;
    FewerKeeps(slaves, s, Settle(s, k, q));
  }

  lemma {:induction false} CommitKeeps(slaves: set<SlaveId>, s: State, k: Kind, q: QueryId, c: Commit, s': State)
    requires Good(slaves, s) && Step(slaves, s, CommitJob(k, q, c), s')
    ensures Good(slaves, s')
  {
    hide Inv, ShardingOK, Exclusive, StillValid, JobsOf, WithJobs, TryApply, SameTable;
    var job := JobsOf(s.statuses, k)[q];
    CommitSucceeds(slaves, s.gossip, job, c);
    StepKeeps(s.gossip, c);
    CommitSharding(slaves, s.gossip, job, c);
    SettleKeeps(slaves, s, k, q);
    var s1 := Settle(s, k, q);
    forall l, r | Pending(s1, l, r) ensures SameTable(s.gossip, s'.gossip, JobsOf(s1.statuses, l)[r].table) {
      OtherTables(s.gossip, c, JobsOf(s1.statuses, l)[r].table);
    }
    ElsewhereKeeps(slaves, s1, s'.gossip);
  }

  lemma {:induction false} LockSharding(slaves: set<SlaveId>, g: Gossip, c: Commit)
    requires Inv(g) && ShardingOK(g, slaves) && IsLock(c) && TryApply(g, c).Some?
    ensures ShardingOK(TryApply(g, c).value, slaves)
  {
    ShardingKept(g, TryApply(g, c).value, slaves);
  }

  lemma {:induction false} LockStep(slaves: set<SlaveId>, s: State, c: Commit, s': State)
    requires Good(slaves, s) && Step(slaves, s, Lock(c), s')
    ensures Good(slaves, s')
  {
    hide Inv, ShardingOK, Exclusive, StillValid, JobsOf, TryApply, SameTable;
    LockSucceeds(s.gossip, c);
    StepKeeps(s.gossip, c);
    LockSharding(slaves, s.gossip, c);
    forall k, q | Pending(s, k, q) ensures SameTable(s.gossip, s'.gossip, JobsOf(s.statuses, k)[q].table) {
      OtherTables(s.gossip, c, JobsOf(s.statuses, k)[q].table);
    }
    ElsewhereKeeps(slaves, s, s'.gossip);
  }

  // ---------------------------------------------------------------------------------------------
  //  Every run
  // ---------------------------------------------------------------------------------------------

  lemma {:induction false} EventKeeps(slaves: set<SlaveId>, s: State, e: Event, s': State)
    requires Good(slaves, s) && Step(slaves, s, e, s')
    ensures Good(slaves, s')
  {
    hide Good;
    match e
    case Submit(q, job) => SubmitKeeps(slaves, s, q, job, s');
    case Advance => AdvanceKeeps(slaves, s, s');
    case CommitJob(k, q, c) => CommitKeeps(slaves, s, k, q, c, s');
    case Leave(k, q) => LeaveKeeps(slaves, s, k, q);
    case Lock(c) => LockStep(slaves, s, c, s');
  }

  /** In every run, at most one operation per table has been started, and the metadata satisfies the
      documented properties. */
  lemma {:induction false} RunsAreGood(slaves: set<SlaveId>, states: seq<State>, events: seq<Event>, n: nat)
    requires Run(slaves, states, events) && n < |states|
    ensures Good(slaves, states[n])
  {
    if n > 0 {
      hide Good;
      RunsAreGood(slaves, states, events, n - 1);
      EventKeeps(slaves, states[n - 1], events[n - 1], states[n]);
    }
  }

  /** An operation that was started still finds its table, column and shard as they were checked: every
      lookup of its commit succeeds, which makes the commit legal. */
  lemma {:induction false} StartedCommitsSucceed(slaves: set<SlaveId>, states: seq<State>, events: seq<Event>, n: nat, k: Kind, q: QueryId, c: Commit)
    requires Run(slaves, states, events) && n < |states| && Pending(states[n], k, q) && CommitOf(slaves, JobsOf(states[n].statuses, k)[q], c)
    ensures var job := JobsOf(states[n].statuses, k)[q];
      StillValid(states[n].gossip, slaves, job.table, job.op) && Inv(states[n].gossip) && Legal(states[n].gossip, c)
      && TryApply(states[n].gossip, c) == Some(Metadata.Apply(states[n].gossip, c))
  {
    hide Inv, ShardingOK, Exclusive, StillValid, JobsOf, TryApply;
    RunsAreGood(slaves, states, events, n);
    CommitSucceeds(slaves, states[n].gossip, JobsOf(states[n].statuses, k)[q], c);
  }

  /** As long as an operation on a table is pending, `get_rms` finds all tablets of the table, and a
      split the tablet it is about. */
  lemma {:induction false} PendingFindsManagers(slaves: set<SlaveId>, states: seq<State>, events: seq<Event>, n: nat, k: Kind, q: QueryId)
    requires Run(slaves, states, events) && n < |states| && Pending(states[n], k, q) && k != Creating
    ensures var g, job := states[n].gossip, JobsOf(states[n].statuses, k)[q];
      HasRms(g, job.table) && (k == Splitting ==> job.op.SplitOp? && job.op.oldTid in g.addresses)
  {
    hide ShardingOK, Exclusive, JobsOf;
    RunsAreGood(slaves, states, events, n);
    var g, job := states[n].gossip, JobsOf(states[n].statuses, k)[q];
    assert KindOf(job.op) == k && StillValid(g, slaves, job.table, job.op);
    LatestIsHad(g, job.table);
    if k == Splitting {
      var i := RangeOfAt(g.sharding[(job.table, Last(g.gens, job.table).value)], job.op.oldTid);
    }
  }

  /** In every run, every key of every table is in the range of exactly one of its shards, however often
      they were split, and each shard is at a known group. */
  lemma {:induction false} KeysHaveOneShard(slaves: set<SlaveId>, states: seq<State>, events: seq<Event>, n: nat, p: TablePath)
    requires Run(slaves, states, events) && n < |states| && Last(states[n].gossip.gens, p).Some?
    ensures var g, f := states[n].gossip, Last(states[n].gossip.gens, p).value;
      && (p, f) in g.sharding && (p, f.gen) in g.schemas && ShardsFit(g.schemas[(p, f.gen)].keyCols, g.sharding[(p, f)])
      && forall k | 0 <= k < |g.sharding[(p, f)]| :: g.sharding[(p, f)][k].1 in g.addresses && g.addresses[g.sharding[(p, f)][k].1] in slaves
  {
    hide ShardsFit, Exclusive, Kinded, PendingValid;
    RunsAreGood(slaves, states, events, n);
    LatestIsHad(states[n].gossip, p);
  }
}
