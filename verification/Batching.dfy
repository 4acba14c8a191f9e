/** Correlated subqueries evaluated in batches: equal contexts are evaluated once
    (src/gr_query_es.rs, src/join_read_es.rs:1375-1515). What a stage returns for one context row is
    given; the tables are abstract. */
module Batching {
  import opened Values
  import opened Expressions

  // ---------------------------------------------------------------------------------------------
  //  Numbering rows in the order of their first visit
  // ---------------------------------------------------------------------------------------------

  /** The rows visited, each once, in the order of the first visit. */
  function Firsts<R(==)>(rows: seq<R>): seq<R> {
    if rows == [] then []
    else
      var init := Firsts(rows[..|rows| - 1]);
      var r := rows[|rows| - 1];
      if r in init then init else init + [r]
  }

  predicate Distinct<R(==)>(s: seq<R>) {
    forall j, k | 0 <= j < k < |s| :: s[j] != s[k]
  }

  lemma {:induction false} FirstsDistinct<R>(rows: seq<R>)
    ensures Distinct(Firsts(rows)) && forall r :: r in Firsts(rows) <==> r in rows
  {
    if rows != [] {
      var n := |rows| - 1;
      FirstsDistinct(rows[..n]);
      assert rows == rows[..n] + [rows[n]];
    }
  }

  /** Later visits do not renumber earlier ones. */
  lemma {:induction false} FirstsPrefix<R>(rows: seq<R>, n: nat)
    requires n <= |rows|
    ensures |Firsts(rows[..n])| <= |Firsts(rows)| && Firsts(rows[..n]) == Firsts(rows)[..|Firsts(rows[..n])|]
    decreases |rows|
  {
    if n < |rows| {
      var init := rows[..|rows| - 1];
      FirstsPrefix(init, n);
      assert init[..n] == rows[..n];
    } else {
      assert rows[..n] == rows;
    }
  }

  /** A map from the rows visited so far to their numbers. */
  ghost predicate Numbers<R(!new)>(index: map<R, nat>, rows: seq<R>) {
    && index.Keys == (set r | r in rows) && |index| == |Firsts(rows)|
    && forall r | r in index :: index[r] < |Firsts(rows)| && Firsts(rows)[index[r]] == r
  }

  lemma {:induction false} FirstsNext<R>(rows: seq<R>, r: R)
    ensures Firsts(rows + [r]) == if r in rows then Firsts(rows) else Firsts(rows) + [r]
  {
    assert (rows + [r])[..|rows|] == rows;
    FirstsDistinct(rows);
  }

  lemma {:induction false} NewKey<R>(index: map<R, nat>, r: R)
    requires r !in index
    ensures |index[r := |index|]| == |index| + 1 && index[r := |index|].Keys == index.Keys + {r}
  {
    assert |index[r := |index|].Keys| == |index.Keys + {r}|;
  }

  lemma {:induction false} NumbersStep<R(!new)>(index: map<R, nat>, rows: seq<R>, r: R)
    requires Numbers(index, rows)
    ensures Numbers(if r in index then index else index[r := |index|], rows + [r])
  {
    FirstsNext(rows, r);
    assert (set x | x in rows + [r]) == (set x | x in rows) + {r};
    if r !in index { NewKey(index, r); }
    hide Firsts;
  }

  /** A row has the number it gets in any longer list of visits. */
  lemma {:induction false} NumberedAlike<R(!new)>(index: map<R, nat>, visited: seq<R>, all: seq<R>, r: R)
    requires Numbers(index, visited) && |visited| <= |all| && visited == all[..|visited|] && r in visited
    ensures r in index && index[r] < |Firsts(all)| && Firsts(all)[index[r]] == r
  {
    assert r in (set x | x in visited);
    FirstsPrefix(all, |visited|);
    var a, b := Firsts(visited), Firsts(all);
    hide Firsts;
    assert a[index[r]] == b[..|a|][index[r]];
  }

  /** `ContextConstructorSimpleOnce`: collects the context rows of a subquery and numbers them. */
  class ContextConstructor<R(==, !new)> {
    var rows: seq<R>
    var index: map<R, nat>
    ghost var visited: seq<R>

    constructor ()
      ensures Valid() && visited == []
    {
      rows, index, visited := [], map[], [];
    }

    ghost predicate Valid()
      reads this
    {
      rows == Firsts(visited) && Numbers(index, visited)
    }

    /** `add_row`. */
    method AddRow(r: R) returns (i: nat)
      requires Valid()
      modifies this
      ensures Valid() && visited == old(visited) + [r] && i < |rows| && rows[i] == r
    {
      NumbersStep(index, visited, r);
      assert (visited + [r])[..|visited|] == visited;
      visited := visited + [r];
      if r in index {
        i := index[r];
      } else {
        i := |index|;
        index := index[r := i];
        rows := rows + [r];
      }
    }
  }

  /** One subquery of `SubqueryExtractorSimple`: finds the result for a row by numbering the rows it is
      asked for as the constructor did. */
  class SubqueryExtractor<R(==, !new), V(!new)> {
    var index: map<R, nat>
    const result: seq<V>
    ghost var visited: seq<R>

    constructor (result: seq<V>)
      ensures Valid() && visited == [] && this.result == result
    {
      this.result := result;
      index, visited := map[], [];
    }

    ghost predicate Valid()
      reads this
    {
      Numbers(index, visited)
    }

    /** `get_results` for one subquery. If the constructor visited the same rows in the same order, and
        `result` has the value `f` of each of its rows, then this is the value of `r`. */
    method GetResult(r: R, ghost all: seq<R>, ghost f: R -> V) returns (v: V)
      requires Valid() && |visited| < |all| && visited + [r] == all[..|visited| + 1]
      requires |result| == |Firsts(all)| && forall k | 0 <= k < |result| :: result[k] == f(Firsts(all)[k])
      modifies this
      ensures Valid() && visited == old(visited) + [r] && v == f(r)
    {
      NumbersStep(index, visited, r);
      visited := visited + [r];
      if r !in index { index := index[r := |index|]; }
      NumberedAlike(index, visited, all, r);
      hide Firsts, Numbers;
      v := result[index[r]];
    }
  }

  // ---------------------------------------------------------------------------------------------
  //  A query of several stages
  // ---------------------------------------------------------------------------------------------

  datatype Name = Name(s: string)

  /** A row of a context: column values, and for each transient table the number of its instance. */
  datatype ContextRow = ContextRow(cols: seq<ColValN>, trans: seq<nat>)

  datatype ContextSchema = ContextSchema(cols: seq<ColumnRef>, trans: seq<Name>)

  /** A stage defines a transient table from columns and transient tables it uses. */
  datatype Stage = Stage(name: Name, cols: seq<ColumnRef>, trans: seq<Name>)

  /** What a stage returns for given columns and tables, and the instances of external tables. */
  datatype World<!V> = World(stage: (nat, seq<ColValN>, seq<V>) -> V, external: (Name, nat) -> V)

  datatype Query = Query(schema: ContextSchema, stages: seq<Stage>, returning: Name)

  function Position<T(==)>(s: seq<T>, x: T): (p: nat)
    requires x in s
    ensures p < |s| && s[p] == x && forall j | 0 <= j < p :: s[j] != x
  {
    if s[0] == x then 0 else 1 + Position(s[1..], x)
  }

  function NamesOf(stages: seq<Stage>): (ns: seq<Name>)
    ensures |ns| == |stages| && forall k | 0 <= k < |stages| :: ns[k] == stages[k].name
  {
    seq(|stages|, k requires 0 <= k < |stages| => stages[k].name)
  }

  /** Stages use columns of the context, its tables and the stages before them. */
  predicate WellScoped(q: Query) {
    && q.returning in NamesOf(q.stages)
    && forall k | 0 <= k < |q.stages| ::
         && (forall c | c in q.stages[k].cols :: c in q.schema.cols)
         && (forall n | n in q.stages[k].trans :: n in q.schema.trans || n in NamesOf(q.stages[..k]))
  }

  predicate RowFits(q: Query, r: ContextRow) {
    |r.cols| == |q.schema.cols| && |r.trans| == |q.schema.trans|
  }

  function ColsFor(q: Query, k: nat, r: ContextRow): seq<ColValN>
    requires WellScoped(q) && k < |q.stages| && RowFits(q, r)
  {
    var cs := q.stages[k].cols;
    seq(|cs|, m requires 0 <= m < |cs| => r.cols[Position(q.schema.cols, cs[m])])
  }

  /** The stage before `k` that a local table comes from. */
  function Local(q: Query, k: nat, n: Name): (j: nat)
    requires k <= |q.stages| && n in NamesOf(q.stages[..k])
    ensures j < k && q.stages[j].name == n
  {
    Position(NamesOf(q.stages[..k]), n)
  }

  /** The result of stage `k` for one context row evaluated alone. */
  ghost function Alone<V>(w: World<V>, q: Query, k: nat, r: ContextRow): V
    requires WellScoped(q) && k < |q.stages| && RowFits(q, r)
    decreases k, 1
  {
    w.stage(k, ColsFor(q, k, r), AloneTables(w, q, k, r, |q.stages[k].trans|))
  }

  /** The table that entry `m` of a stage's tables stands for, for this row. */
  ghost function AloneTable<V>(w: World<V>, q: Query, k: nat, r: ContextRow, m: nat): V
    requires WellScoped(q) && k < |q.stages| && RowFits(q, r) && m < |q.stages[k].trans|
    decreases k, 0, 0
  {
    var n := q.stages[k].trans[m];
    if n in q.schema.trans then w.external(n, r.trans[Position(q.schema.trans, n)])
    else assert n in NamesOf(q.stages[..k]); Alone(w, q, Local(q, k, n), r)
  }

  ghost function AloneTables<V>(w: World<V>, q: Query, k: nat, r: ContextRow, m: nat): seq<V>
    requires WellScoped(q) && k < |q.stages| && RowFits(q, r) && m <= |q.stages[k].trans|
    decreases k, 0, 1 + m
  {
    if m == 0 then [] else AloneTables(w, q, k, r, m - 1) + [AloneTable(w, q, k, r, m - 1)]
  }

  /** The context row of stage `k`: `locals` has the instances of the stages before, for this row. */
  function ChildRow(q: Query, k: nat, r: ContextRow, locals: seq<nat>): ContextRow
    requires WellScoped(q) && k < |q.stages| && RowFits(q, r) && |locals| == k
  {
    var ns := q.stages[k].trans;
    ContextRow(ColsFor(q, k, r),
      seq(|ns|, m requires 0 <= m < |ns| =>
        if ns[m] in q.schema.trans then r.trans[Position(q.schema.trans, ns[m])]
        else assert ns[m] in NamesOf(q.stages[..k]); locals[Local(q, k, ns[m])]))
  }

  /** The first position of a member. */
  ghost predicate FirstAt<T(!new)>(s: seq<T>, x: T, p: int) {
    0 <= p < |s| && s[p] == x && forall j | 0 <= j < p :: s[j] != x
  }

  /** A child row has the values that the context row has for the columns of the stage, and for its tables
      the instances of the context row, or of the stage of that name if the context has no such table. */
  lemma {:induction false} ChildRowTakes(q: Query, k: nat, r: ContextRow, locals: seq<nat>, m: nat)
    requires WellScoped(q) && k < |q.stages| && RowFits(q, r) && |locals| == k
    ensures var c := ChildRow(q, k, r, locals);
      && |c.cols| == |q.stages[k].cols| && |c.trans| == |q.stages[k].trans|
      && (m < |c.cols| ==> exists p :: FirstAt(q.schema.cols, q.stages[k].cols[m], p) && c.cols[m] == r.cols[p])
      && (m < |c.trans| && q.stages[k].trans[m] in q.schema.trans
          ==> exists p :: FirstAt(q.schema.trans, q.stages[k].trans[m], p) && c.trans[m] == r.trans[p])
      && (m < |c.trans| && q.stages[k].trans[m] !in q.schema.trans
          ==> exists j :: FirstAt(NamesOf(q.stages[..k]), q.stages[k].trans[m], j) && c.trans[m] == locals[j])
  {
    var cs, ns := q.stages[k].cols, q.stages[k].trans;
    if m < |cs| { assert FirstAt(q.schema.cols, cs[m], Position(q.schema.cols, cs[m])); }
    if m < |ns| {
      if ns[m] in q.schema.trans {
        assert FirstAt(q.schema.trans, ns[m], Position(q.schema.trans, ns[m]));
      } else {
        assert ns[m] in ns;
        assert FirstAt(NamesOf(q.stages[..k]), ns[m], Local(q, k, ns[m]));
      }
    }
  }

  /** The table that entry `m` of a child row points to. */
  ghost function Table<V>(w: World<V>, q: Query, k: nat, views: seq<seq<V>>, c: ContextRow, m: nat): V
    requires WellScoped(q) && k < |q.stages| && |views| == k && |c.trans| == |q.stages[k].trans| && m < |c.trans|
    requires PointsInto(q, k, views, c)
  {
    var n := q.stages[k].trans[m];
    if n in q.schema.trans then w.external(n, c.trans[m])
    else assert n in NamesOf(q.stages[..k]); views[Local(q, k, n)][c.trans[m]]
  }

  ghost function Tables<V>(w: World<V>, q: Query, k: nat, views: seq<seq<V>>, c: ContextRow, m: nat): seq<V>
    requires WellScoped(q) && k < |q.stages| && |views| == k && |c.trans| == |q.stages[k].trans| && m <= |c.trans|
    requires PointsInto(q, k, views, c)
    decreases m
  {
    if m == 0 then [] else Tables(w, q, k, views, c, m - 1) + [Table(w, q, k, views, c, m - 1)]
  }

  ghost predicate PointsInto<V>(q: Query, k: nat, views: seq<seq<V>>, c: ContextRow)
    requires WellScoped(q) && k < |q.stages| && |views| == k && |c.trans| == |q.stages[k].trans|
  {
    forall m | 0 <= m < |c.trans| && q.stages[k].trans[m] !in q.schema.trans ::
      q.stages[k].trans[m] in NamesOf(q.stages[..k]) && c.trans[m] < |views[Local(q, k, q.stages[k].trans[m])]|
  }

  // ---------------------------------------------------------------------------------------------
  //  Batched evaluation refines evaluation row by row
  // ---------------------------------------------------------------------------------------------

  /** For a context row: instance `locals[j]` of stage `j` is what the row alone would give. */
  ghost predicate Matches<V(!new)>(w: World<V>, q: Query, k: nat, views: seq<seq<V>>, r: ContextRow, locals: seq<nat>)
    requires WellScoped(q) && k <= |q.stages| && RowFits(q, r)
  {
    && |views| == k && |locals| == k
    && forall j: nat | j < k :: locals[j] < |views[j]| && views[j][locals[j]] == Alone(w, q, j, r)
  }

  lemma {:induction false} ChildPoints<V(!new)>(w: World<V>, q: Query, k: nat, views: seq<seq<V>>, r: ContextRow, locals: seq<nat>)
    requires WellScoped(q) && k < |q.stages| && RowFits(q, r) && Matches(w, q, k, views, r, locals)
    ensures PointsInto(q, k, views, ChildRow(q, k, r, locals))
  {
    var c, ns := ChildRow(q, k, r, locals), q.stages[k].trans;
    forall m | 0 <= m < |c.trans| && ns[m] !in q.schema.trans
      ensures ns[m] in NamesOf(q.stages[..k]) && c.trans[m] < |views[Local(q, k, ns[m])]|
    {
      assert ns[m] in ns;
      assert c.trans[m] == locals[Local(q, k, ns[m])];
    }
  }

  /** Entry `m` of a child row points to what the context row means by the table. */
  lemma {:induction false} ChildTable<V(!new)>(w: World<V>, q: Query, k: nat, views: seq<seq<V>>, r: ContextRow, locals: seq<nat>, m: nat)
    requires WellScoped(q) && k < |q.stages| && RowFits(q, r) && Matches(w, q, k, views, r, locals) && m < |q.stages[k].trans|
    requires PointsInto(q, k, views, ChildRow(q, k, r, locals))
    ensures Table(w, q, k, views, ChildRow(q, k, r, locals), m) == AloneTable(w, q, k, r, m)
  {
    var c, n := ChildRow(q, k, r, locals), q.stages[k].trans[m];
    assert n in q.stages[k].trans;
    if n !in q.schema.trans {
      var j := Local(q, k, n);
      assert c.trans[m] == locals[j];
    }
    hide Alone;
  }

  lemma {:induction false} TablesSame<V(!new)>(w: World<V>, q: Query, k: nat, views: seq<seq<V>>, r: ContextRow, c: ContextRow, m: nat)
    requires WellScoped(q) && k < |q.stages| && RowFits(q, r) && |views| == k && |c.trans| == |q.stages[k].trans|
    requires m <= |c.trans| && PointsInto(q, k, views, c)
    requires forall j: nat | j < m :: Table(w, q, k, views, c, j) == AloneTable(w, q, k, r, j)
    ensures Tables(w, q, k, views, c, m) == AloneTables(w, q, k, r, m)
  {
    hide WellScoped, PointsInto, Table, AloneTable, Alone;
    if m > 0 { TablesSame(w, q, k, views, r, c, m - 1); }
  }

  /** The result of stage `k` for a child row. */
  ghost function StageResult<V>(w: World<V>, q: Query, k: nat, views: seq<seq<V>>, c: ContextRow): V
    requires WellScoped(q) && k < |q.stages| && |views| == k && |c.trans| == |q.stages[k].trans| && PointsInto(q, k, views, c)
  {
    w.stage(k, c.cols, Tables(w, q, k, views, c, |c.trans|))
  }

  /** A stage's result for the child row is what the context row alone would give. */
  lemma {:induction false} StageRefines<V(!new)>(w: World<V>, q: Query, k: nat, views: seq<seq<V>>, r: ContextRow, locals: seq<nat>)
    requires WellScoped(q) && k < |q.stages| && RowFits(q, r) && Matches(w, q, k, views, r, locals)
    ensures var c := ChildRow(q, k, r, locals);
      PointsInto(q, k, views, c) && StageResult(w, q, k, views, c) == Alone(w, q, k, r)
  {
    ChildPoints(w, q, k, views, r, locals);
    var c, n := ChildRow(q, k, r, locals), |q.stages[k].trans|;
    forall m: nat | m < n ensures Table(w, q, k, views, c, m) == AloneTable(w, q, k, r, m) {
      ChildTable(w, q, k, views, r, locals, m);
    }
    hide WellScoped, PointsInto, Table, AloneTable;
    TablesSame(w, q, k, views, r, c, n);
  }

  lemma {:induction false} MatchesNext<V(!new)>(w: World<V>, q: Query, k: nat, views: seq<seq<V>>, r: ContextRow, locals: seq<nat>, next: seq<V>, i: nat)
    requires WellScoped(q) && k < |q.stages| && RowFits(q, r) && Matches(w, q, k, views, r, locals)
    requires i < |next| && next[i] == Alone(w, q, k, r)
    ensures Matches(w, q, k + 1, views + [next], r, locals + [i])
  {
  }

  datatype State = Start | ReadStage(idx: nat, childOf: seq<nat>) | Done

  /** `GRQueryES`: `newTransTableContext` has, for each context row, the instance of every finished
      stage; `children` are the rows of the context of the running stage. */
  class GRQueryES<V(!new)> {
    const q: Query
    const context: seq<ContextRow>
    var newTransTableContext: seq<seq<nat>>
    var views: seq<seq<V>>
    var state: State
    ghost var children: seq<ContextRow>
    ghost const w: World<V>

    constructor (q: Query, context: seq<ContextRow>, ghost w: World<V>)
      requires WellScoped(q) && forall r | r in context :: RowFits(q, r)
      ensures Valid() && this.q == q && this.context == context && this.w == w && state == Start
    {
      this.q, this.context, this.w := q, context, w;
      newTransTableContext := seq(|context|, _ => []);
      views, state, children := [], Start, [];
    }

    ghost predicate Finished()
      reads this
    {
      && WellScoped(q) && |views| <= |q.stages| && |newTransTableContext| == |context|
      && forall i | 0 <= i < |context| ::
           RowFits(q, context[i]) && Matches(w, q, |views|, views, context[i], newTransTableContext[i])
    }

    /** The child context: no row twice, and parent row `i` goes to exactly its own child row. */
    ghost predicate Running()
      reads this
      requires Finished()
    {
      state.ReadStage? ==>
        && state.idx == |views| < |q.stages| && Distinct(children) && |state.childOf| == |context|
        && (forall i | 0 <= i < |context| ::
              state.childOf[i] < |children|
              && children[state.childOf[i]] == ChildRow(q, |views|, context[i], newTransTableContext[i]))
        && (forall c | c in children :: |c.trans| == |q.stages[|views|].trans| && PointsInto(q, |views|, views, c))
    }

    ghost predicate Valid()
      reads this
    {
      Finished() && Running()
    }

    /** `compute_child_context` for stage `k`. */
    method ComputeChildContext(k: nat) returns (rows: seq<ContextRow>, childOf: seq<nat>)
      requires Finished() && k == |views| < |q.stages|
      ensures Distinct(rows) && |childOf| == |context|
      ensures forall i | 0 <= i < |context| ::
        childOf[i] < |rows| && rows[childOf[i]] == ChildRow(q, k, context[i], newTransTableContext[i])
      ensures forall c | 0 <= c < |rows| :: c in childOf
    {
      var reverse: map<ContextRow, nat> := map[];
      rows, childOf := [], [];
      var i := 0;
      while i < |context|
        invariant 0 <= i <= |context| && |childOf| == i && Distinct(rows)
        invariant forall r :: r in reverse <==> r in rows
        invariant forall r | r in reverse :: reverse[r] < |rows| && rows[reverse[r]] == r
        invariant forall j | 0 <= j < i ::
          childOf[j] < |rows| && rows[childOf[j]] == ChildRow(q, k, context[j], newTransTableContext[j])
        invariant forall c | 0 <= c < |rows| :: c in childOf
      {
        var row := ChildRow(q, k, context[i], newTransTableContext[i]);
        if row !in reverse {
          reverse := reverse[row := |rows|];
          rows := rows + [row];
        }
        childOf := childOf + [reverse[row]];
        i := i + 1;
      }
    }

    /** `process_gr_query_stage`: the context for the next stage, or again for the running one. */
    method ProcessStage(k: nat) returns (rows: seq<ContextRow>)
      requires Finished() && k == |views| < |q.stages|
      modifies this`state, this`children
      ensures Valid() && state.ReadStage? && state.idx == k && rows == children
    {
      var childOf: seq<nat>;
      rows, childOf := ComputeChildContext(k);
      forall c | c in rows ensures |c.trans| == |q.stages[k].trans| && PointsInto(q, k, views, c) {
        var n :| 0 <= n < |rows| && rows[n] == c;
        assert n in childOf;
        var i :| 0 <= i < |childOf| && childOf[i] == n;
        ChildPoints(w, q, k, views, context[i], newTransTableContext[i]);
      }
      children := rows;
      state := ReadStage(k, childOf);
    }

    /** `advance`, when another stage follows. */
    method NextStage() returns (rows: seq<ContextRow>)
      requires Finished() && |views| < |q.stages| && !state.Done?
      modifies this`state, this`children
      ensures Valid() && state.ReadStage? && state.idx == |views| && rows == children
    {
      rows := ProcessStage(|views|);
    }

    /** The running stage has returned a table for every child row. */
    method StageDone(tables: seq<V>)
      requires Valid() && state.ReadStage? && |tables| == |children|
      requires forall c | 0 <= c < |children| :: tables[c] == StageResult(w, q, |views|, views, children[c])
      modifies this
      ensures Finished() && views == old(views) + [tables] && state == old(state)
    {
      var next: seq<seq<nat>> := [];
      ghost var k := |views|;
      var i := 0;
      while i < |context|
        invariant 0 <= i <= |context| && |next| == i && unchanged(this)
        invariant forall j | 0 <= j < i :: Matches(w, q, k + 1, views + [tables], context[j], next[j])
      {
        var n := state.childOf[i];
        StageRefines(w, q, k, views, context[i], newTransTableContext[i]);
        assert children[n] in children;
        MatchesNext(w, q, k, views, context[i], newTransTableContext[i], tables, n);
        next := next + [newTransTableContext[i] + [n]];
        i := i + 1;
      }
      newTransTableContext := next;
      views := views + [tables];
    }

    /** `advance`, when all stages are done: row `i` of the result is the table that evaluating the query
        for context row `i` alone returns. */
    method Finish() returns (result: seq<V>)
      requires Finished() && |views| == |q.stages| && !state.Done?
      modifies this`state
      ensures state == Done && |result| == |context|
      ensures forall i | 0 <= i < |context| :: result[i] == Alone(w, q, Position(NamesOf(q.stages), q.returning), context[i])
    {
      var p := Position(NamesOf(q.stages), q.returning);
      result := [];
      var i := 0;
      while i < |context|
        invariant 0 <= i <= |context| && |result| == i
        invariant forall j | 0 <= j < i :: result[j] == Alone(w, q, p, context[j])
      {
        assert Matches(w, q, |views|, views, context[i], newTransTableContext[i]);
        result := result + [views[p][newTransTableContext[i][p]]];
        i := i + 1;
      }
      state := Done;
    }
  }

  /** A server that returns, for stage `k` and its child rows, the table of every row. */
  ghost predicate Supplies<V(!new)>(w: World<V>, q: Query, supply: (nat, seq<seq<V>>, seq<ContextRow>) -> seq<V>)
    requires WellScoped(q)
  {
    forall k: nat, views: seq<seq<V>>, rows: seq<ContextRow> |
      k < |q.stages| && |views| == k
      && (forall c | c in rows :: |c.trans| == |q.stages[k].trans| && PointsInto(q, k, views, c)) ::
      |supply(k, views, rows)| == |rows|
      && forall i | 0 <= i < |rows| :: supply(k, views, rows)[i] == StageResult(w, q, k, views, rows[i])
  }

  /** A query run through all its stages: batched evaluation is evaluation row by row. */
  method Evaluate<V(!new)>(q: Query, context: seq<ContextRow>, supply: (nat, seq<seq<V>>, seq<ContextRow>) -> seq<V>, ghost w: World<V>)
    returns (result: seq<V>)
    requires WellScoped(q) && (forall r | r in context :: RowFits(q, r)) && Supplies(w, q, supply)
    ensures |result| == |context|
    ensures forall i | 0 <= i < |context| :: result[i] == Alone(w, q, Position(NamesOf(q.stages), q.returning), context[i])
  {
    var es := new GRQueryES(q, context, w);
    while |es.views| < |q.stages|
      invariant fresh(es) && es.q == q && es.context == context && es.w == w
      invariant es.Finished() && !es.state.Done?
      decreases |q.stages| - |es.views|
    {
      var rows := es.NextStage();
      var tables := supply(|es.views|, es.views, rows);
      Supplied(w, q, supply, |es.views|, es.views, rows);
      es.StageDone(tables);
    }
    result := es.Finish();
  }

  lemma {:induction false} Supplied<V(!new)>(w: World<V>, q: Query, supply: (nat, seq<seq<V>>, seq<ContextRow>) -> seq<V>,
                                             k: nat, views: seq<seq<V>>, rows: seq<ContextRow>)
    requires WellScoped(q) && Supplies(w, q, supply) && k < |q.stages| && |views| == k
    requires forall c | c in rows :: |c.trans| == |q.stages[k].trans| && PointsInto(q, k, views, c)
    ensures |supply(k, views, rows)| == |rows|
    ensures forall i | 0 <= i < |rows| :: supply(k, views, rows)[i] == StageResult(w, q, k, views, rows[i])
  {
  }
}
