/** The master's scheduler of DDL and sharding operations (src/master.rs:1313-1501). */
module Scheduler {
  import opened Wrappers
  import opened Values
  import opened MultiVersion
  import opened SchemaViews
  import opened Regions
  import opened Sharding
  import opened Metadata

  datatype QueryId = QueryId(id: nat)

  /** What an operation is to do. */
  datatype Op =
    | CreateOp
    | AlterOp(col: ColName, add: bool)
    | DropOp
    | SplitOp(oldTid: TabletId, oldRange: TabletKeyRange, newTid: TabletId, newSid: SlaveId, newRange: TabletKeyRange)

  datatype Job = Job(table: TablePath, op: Op, started: bool)

  type Jobs = map<QueryId, Job>

  /** `is_valid_range_key`. */
  predicate ValidRangeKey(s: TableSchema, k: ColValN) {
    k.Some? ==> s.keyCols != [] && TypeOf(k.value) == s.keyCols[0].1
  }

  /** The first shard of a tablet. */
  function RangeOf(shards: Shards, t: TabletId): Option<TabletKeyRange> {
    if shards == [] then None
    else if shards[0].1 == t then Some(shards[0].0)
    else RangeOf(shards[1..], t)
  }

  /** The check an operation must pass before it is started. */
  predicate Valid(g: Gossip, slaves: set<SlaveId>, p: TablePath, op: Op) {
    match op
    case CreateOp => Last(g.gens, p).None?
    case DropOp => Last(g.gens, p).Some?
    case AlterOp(c, add) =>
      && Last(g.gens, p).Some? && (p, Last(g.gens, p).value.gen) in g.schemas
      && var s := g.schemas[(p, Last(g.gens, p).value.gen)];
         !IsKey(s, c) && (Last(s.valCols, c).Some? != add)
    case SplitOp(oldTid, oldRange, newTid, newSid, newRange) =>
      && Last(g.gens, p).Some? && (p, Last(g.gens, p).value) in g.sharding && (p, Last(g.gens, p).value.gen) in g.schemas
      && var orig := RangeOf(g.sharding[(p, Last(g.gens, p).value)], oldTid);
         && orig.Some? && newSid in slaves && newTid !in g.addresses
         && ValidRangeKey(g.schemas[(p, Last(g.gens, p).value.gen)], oldRange.end)
         && SplitsPerfectly(orig.value, oldRange, newRange)
  }

  function Running(js: Jobs): set<TablePath> {
    set q | q in js && js[q].started :: js[q].table
  }

  /** At most one operation per table has been started. */
  ghost predicate Unique(js: Jobs) {
    forall q, r | q in js && r in js && js[q].started && js[r].started && js[q].table == js[r].table :: q == r
  }

  /** The operations after a pass: some were started, some rejected, the rest is as before. */
  ghost predicate Advanced(g: Gossip, slaves: set<SlaveId>, a: Jobs, b: Jobs) {
    && b.Keys <= a.Keys
    && (forall q | q in b :: b[q] == a[q] || (!a[q].started && b[q] == a[q].(started := true) && Valid(g, slaves, a[q].table, a[q].op)))
    && (forall q | q in a && q !in b :: !a[q].started && !Valid(g, slaves, a[q].table, a[q].op))
  }

  /** The state in the middle of a pass over one kind of operation. */
  ghost predicate PassInv(g: Gossip, slaves: set<SlaveId>, a: Jobs, b: Jobs, todo: set<QueryId>, busy0: set<TablePath>, busy: set<TablePath>) {
    && Advanced(g, slaves, a, b) && Unique(b) && todo <= a.Keys
    && busy == busy0 + Running(b) && (Running(b) - Running(a)) !! busy0
    && (forall q | q in todo :: q in b && b[q] == a[q])
    && (forall q | q in a && a[q].table in busy0 :: q in b && b[q] == a[q])
    && (forall q | q in b && q !in todo && !b[q].started :: b[q].table in busy)
    && ((forall q | q in a && !a[q].started :: a[q].table in busy0) ==> a == b && busy == busy0)
  }

  lemma {:induction false} PassStart(g: Gossip, slaves: set<SlaveId>, a: Jobs, busy: set<TablePath>)
    requires Unique(a) && Running(a) <= busy
    ensures PassInv(g, slaves, a, a, a.Keys, busy, busy)
  {
  }

  lemma {:induction false} RunningStart(js: Jobs, q: QueryId)
    requires q in js && !js[q].started
    ensures Running(js[q := js[q].(started := true)]) == Running(js) + {js[q].table}
  {
    var b := js[q := js[q].(started := true)];
    forall x | x in Running(js) ensures x in Running(b) {
      var r :| r in js && js[r].started && js[r].table == x;
      assert r in b && b[r].started && b[r].table == x;
    }
    assert b[q].started && b[q].table == js[q].table;
  }

  lemma {:induction false} RunningReject(js: Jobs, q: QueryId)
    requires q in js && !js[q].started
    ensures Running(js - {q}) == Running(js)
  {
    forall x | x in Running(js) ensures x in Running(js - {q}) {
      var r :| r in js && js[r].started && js[r].table == x;
      assert r in js - {q};
    }
  }

  /** An operation that is not blocked is started. */
  lemma {:induction false} PassStarts(g: Gossip, slaves: set<SlaveId>, a: Jobs, b: Jobs, todo: set<QueryId>, busy0: set<TablePath>, busy: set<TablePath>, q: QueryId)
    requires PassInv(g, slaves, a, b, todo, busy0, busy) && q in todo && !a[q].started && a[q].table !in busy
    requires Valid(g, slaves, a[q].table, a[q].op)
    ensures PassInv(g, slaves, a, b[q := a[q].(started := true)], todo - {q}, busy0, busy + {a[q].table})
  {
    RunningStart(b, q);
    var c := b[q := a[q].(started := true)];
    StartUnique(b, q);
    StartAdvanced(g, slaves, a, b, q);
    hide Valid, Running, Unique, Advanced;
  }

  lemma {:induction false} StartUnique(b: Jobs, q: QueryId)
    requires Unique(b) && q in b && b[q].table !in Running(b)
    ensures Unique(b[q := b[q].(started := true)])
  {
    forall r | r in b && b[r].started ensures b[r].table in Running(b) { }
    hide Running;
  }

  lemma {:induction false} StartAdvanced(g: Gossip, slaves: set<SlaveId>, a: Jobs, b: Jobs, q: QueryId)
    requires Advanced(g, slaves, a, b) && q in a && q in b && b[q] == a[q] && !a[q].started && Valid(g, slaves, a[q].table, a[q].op)
    ensures Advanced(g, slaves, a, b[q := a[q].(started := true)])
  {
    hide Valid;
  }

  /** ... or rejected. */
  lemma {:induction false} PassRejects(g: Gossip, slaves: set<SlaveId>, a: Jobs, b: Jobs, todo: set<QueryId>, busy0: set<TablePath>, busy: set<TablePath>, q: QueryId)
    requires PassInv(g, slaves, a, b, todo, busy0, busy) && q in todo && !a[q].started && a[q].table !in busy
    requires !Valid(g, slaves, a[q].table, a[q].op)
    ensures PassInv(g, slaves, a, b - {q}, todo - {q}, busy0, busy)
  {
    RunningReject(b, q);
    hide Valid, Running;
    var c := b - {q};
    RejectAdvanced(g, slaves, a, b, q);
    assert Unique(c);
    hide Unique, Advanced;
  }

  lemma {:induction false} RejectAdvanced(g: Gossip, slaves: set<SlaveId>, a: Jobs, b: Jobs, q: QueryId)
    requires Advanced(g, slaves, a, b) && q in a && !a[q].started && !Valid(g, slaves, a[q].table, a[q].op)
    ensures Advanced(g, slaves, a, b - {q})
  {
    hide Valid;
  }

  lemma {:induction false} PassSkips(g: Gossip, slaves: set<SlaveId>, a: Jobs, b: Jobs, todo: set<QueryId>, busy0: set<TablePath>, busy: set<TablePath>, q: QueryId)
    requires PassInv(g, slaves, a, b, todo, busy0, busy) && q in todo && (a[q].started || a[q].table in busy)
    ensures PassInv(g, slaves, a, b, todo - {q}, busy0, busy)
  {
    hide Valid;
  }

  /** One of the four loops: goes through the operations of a kind in some order. */
  method Pass(g: Gossip, slaves: set<SlaveId>, jobs: Jobs, busy0: set<TablePath>) returns (after: Jobs, busy: set<TablePath>)
    requires Unique(jobs) && Running(jobs) <= busy0
    ensures PassInv(g, slaves, jobs, after, {}, busy0, busy)
  {
    PassStart(g, slaves, jobs, busy0);
    after, busy := jobs, busy0;
    var todo := jobs.Keys;
    hide PassInv, Valid, Unique, Running;
    while todo != {}
      invariant PassInv(g, slaves, jobs, after, todo, busy0, busy) && todo <= jobs.Keys
      decreases todo
    {
      var q :| q in todo;
      var j := jobs[q];
      if !j.started && j.table !in busy {
        if Valid(g, slaves, j.table, j.op) {
          PassStarts(g, slaves, jobs, after, todo, busy0, busy, q);
          after, busy := after[q := j.(started := true)], busy + {j.table};
        } else {
          PassRejects(g, slaves, jobs, after, todo, busy0, busy, q);
          after := after - {q};
        }
      } else {
        PassSkips(g, slaves, jobs, after, todo, busy0, busy, q);
      }
      todo := todo - {q};
    }
  }

  /** The four kinds of operations. */
  datatype Statuses = Statuses(creates: Jobs, alters: Jobs, drops: Jobs, splits: Jobs)

  function AllRunning(s: Statuses): set<TablePath> {
    Running(s.creates) + Running(s.alters) + Running(s.drops) + Running(s.splits)
  }

  /** At most one started operation per table, across all kinds. */
  ghost predicate Exclusive(s: Statuses) {
    && Unique(s.creates) && Unique(s.alters) && Unique(s.drops) && Unique(s.splits)
    && Running(s.creates) !! Running(s.alters) && Running(s.creates) !! Running(s.drops) && Running(s.creates) !! Running(s.splits)
    && Running(s.alters) !! Running(s.drops) && Running(s.alters) !! Running(s.splits) && Running(s.drops) !! Running(s.splits)
  }

  /** Operations on the tables `busy` are left alone. */
  ghost predicate Untouched(a: Jobs, b: Jobs, busy: set<TablePath>) {
    forall q | q in a && a[q].table in busy :: q in b && b[q] == a[q]
  }

  ghost predicate Blocked(js: Jobs, busy: set<TablePath>) {
    forall q | q in js && !js[q].started :: js[q].table in busy
  }

  /** Every operation that has not been started waits for one on the same table that has. */
  ghost predicate Settled(s: Statuses) {
    var busy := AllRunning(s);
    Blocked(s.creates, busy) && Blocked(s.alters, busy) && Blocked(s.drops, busy) && Blocked(s.splits, busy)
  }

  ghost predicate AllAdvanced(g: Gossip, slaves: set<SlaveId>, a: Statuses, b: Statuses) {
    && Advanced(g, slaves, a.creates, b.creates) && Advanced(g, slaves, a.alters, b.alters)
    && Advanced(g, slaves, a.drops, b.drops) && Advanced(g, slaves, a.splits, b.splits)
  }

  ghost predicate AllUntouched(a: Statuses, b: Statuses, busy: set<TablePath>) {
    && Untouched(a.creates, b.creates, busy) && Untouched(a.alters, b.alters, busy)
    && Untouched(a.drops, b.drops, busy) && Untouched(a.splits, b.splits, busy)
  }

  /** What advancing the operations does to them. */
  ghost predicate Advances(g: Gossip, slaves: set<SlaveId>, a: Statuses, b: Statuses) {
    && Exclusive(b) && Settled(b) && AllAdvanced(g, slaves, a, b) && AllUntouched(a, b, AllRunning(a))
    && (Settled(a) ==> b == a)
  }

  lemma {:induction false} PassGives(g: Gossip, slaves: set<SlaveId>, a: Jobs, b: Jobs, busy0: set<TablePath>, busy: set<TablePath>)
    requires PassInv(g, slaves, a, b, {}, busy0, busy)
    ensures Advanced(g, slaves, a, b) && Unique(b) && busy == busy0 + Running(b) && (Running(b) - Running(a)) !! busy0
    ensures Untouched(a, b, busy0)
    ensures Running(a) <= Running(b) && Blocked(b, busy) && (Blocked(a, busy0) ==> a == b && busy == busy0)
  {
    forall x | x in Running(a) ensures x in Running(b) {
      var q :| q in a && a[q].started && a[q].table == x;
      assert q in b && b[q].started;
    }
    hide Valid;
  }

  /** Four passes in succession keep the kinds apart. */
  lemma {:induction false} FourPasses(s: Statuses, s': Statuses, b0: set<TablePath>, b1: set<TablePath>, b2: set<TablePath>, b3: set<TablePath>, b4: set<TablePath>)
    requires Exclusive(s) && b0 == AllRunning(s)
    requires Unique(s'.creates) && Unique(s'.alters) && Unique(s'.drops) && Unique(s'.splits)
    requires b1 == b0 + Running(s'.creates) && (Running(s'.creates) - Running(s.creates)) !! b0 && Running(s.creates) <= Running(s'.creates)
    requires b2 == b1 + Running(s'.alters) && (Running(s'.alters) - Running(s.alters)) !! b1 && Running(s.alters) <= Running(s'.alters)
    requires b3 == b2 + Running(s'.drops) && (Running(s'.drops) - Running(s.drops)) !! b2 && Running(s.drops) <= Running(s'.drops)
    requires b4 == b3 + Running(s'.splits) && (Running(s'.splits) - Running(s.splits)) !! b3 && Running(s.splits) <= Running(s'.splits)
    ensures Exclusive(s') && b4 == AllRunning(s')
  {
    hide Running, Unique;
    TwoPasses(Running(s.creates), Running(s.alters), Running(s'.creates), Running(s'.alters), b0, b1);
    TwoPasses(Running(s.creates), Running(s.drops), Running(s'.creates), Running(s'.drops), b0, b2);
    TwoPasses(Running(s.creates), Running(s.splits), Running(s'.creates), Running(s'.splits), b0, b3);
    TwoPasses(Running(s.alters), Running(s.drops), Running(s'.alters), Running(s'.drops), b1, b2);
    TwoPasses(Running(s.alters), Running(s.splits), Running(s'.alters), Running(s'.splits), b1, b3);
    TwoPasses(Running(s.drops), Running(s.splits), Running(s'.drops), Running(s'.splits), b2, b3);
  }

  lemma {:induction false} TwoPasses(x: set<TablePath>, y: set<TablePath>, x': set<TablePath>, y': set<TablePath>, bx: set<TablePath>, by': set<TablePath>)
    requires x !! y && y <= bx && x' <= by' && (x' - x) !! bx && (y' - y) !! by'
    ensures x' !! y'
  {
  }

  class Master {
    var statuses: Statuses
    var gossip: Gossip
    const slaves: set<SlaveId>

    constructor (slaves: set<SlaveId>, gossip: Gossip)
      ensures Exclusive(statuses) && this.gossip == gossip && this.slaves == slaves
    {
      this.slaves, this.gossip := slaves, gossip;
      statuses := Statuses(map[], map[], map[], map[]);
    }

    /** `advance_ddl_sharding_ess`. */
    method AdvanceDDLShardingEss()
      requires Exclusive(statuses)
      modifies this`statuses
      ensures Advances(gossip, slaves, old(statuses), statuses)
    {
      hide PassInv, Advanced, Unique, Running, Blocked, Untouched;
      var s := statuses;
      var busy0 := AllRunning(s);
      var creates, busy1 := Pass(gossip, slaves, s.creates, busy0);
      PassGives(gossip, slaves, s.creates, creates, busy0, busy1);
      var alters, busy2 := Pass(gossip, slaves, s.alters, busy1);
      PassGives(gossip, slaves, s.alters, alters, busy1, busy2);
      var drops, busy3 := Pass(gossip, slaves, s.drops, busy2);
      PassGives(gossip, slaves, s.drops, drops, busy2, busy3);
      var splits, busy4 := Pass(gossip, slaves, s.splits, busy3);
      PassGives(gossip, slaves, s.splits, splits, busy3, busy4);
      statuses := Statuses(creates, alters, drops, splits);
      StillBlocked(creates, busy1, busy4);
      StillBlocked(alters, busy2, busy4);
      StillBlocked(drops, busy3, busy4);
      FewerUntouched(s.alters, alters, busy0, busy1);
      FewerUntouched(s.drops, drops, busy0, busy2);
      FewerUntouched(s.splits, splits, busy0, busy3);
      FourPasses(s, statuses, busy0, busy1, busy2, busy3, busy4);
    }
  }

  lemma {:induction false} FewerUntouched(a: Jobs, b: Jobs, few: set<TablePath>, many: set<TablePath>)
    requires Untouched(a, b, many) && few <= many
    ensures Untouched(a, b, few)
  {
  }

  lemma {:induction false} StillBlocked(js: Jobs, a: set<TablePath>, b: set<TablePath>)
    requires Blocked(js, a) && a <= b
    ensures Blocked(js, b)
  {
  }
}
