/** The evaluation of a join node from the tables of its two sides (src/join_read_es.rs:1518-1839,
    src/join_util.rs, src/common.rs:688-712). A subquery's value for a pair of rows is given. */
module JoinTables {
  import opened Wrappers
  import opened Values
  import opened Expressions
  import opened Bags
  import opened JoinBags

  type Row = seq<ColValN>

  datatype GeneralColumnRef = Named(ref: ColumnRef) | Unnamed(index: nat)

  type Schema = seq<GeneralColumnRef>

  /** The rows of a table with their multiplicities, in the order of iteration. */
  type Entries = seq<(Row, nat)>

  ghost predicate ValidEntries(es: Entries) {
    && (forall k | 0 <= k < |es| :: es[k].1 > 0)
    && (forall j, k | 0 <= j < k < |es| :: es[j].0 != es[k].0)
  }

  ghost function BagOf(es: Entries): multiset<Row> {
    if es == [] then multiset{} else BagOf(es[..|es| - 1]) + Copies(es[|es| - 1].0, es[|es| - 1].1)
  }

  /** The multiplicity of a row in a table. */
  function Count(rows: map<Row, nat>, r: Row): nat {
    if r in rows then rows[r] else 0
  }

  class TableView {
    var rows: map<Row, nat>

    constructor ()
      ensures Valid() && rows == map[]
    {
      rows := map[];
    }

    ghost predicate Valid()
      reads this
    {
      forall r | r in rows :: rows[r] > 0
    }

    /** `add_row_multi`. */
    method AddRowMulti(r: Row, n: nat)
      requires Valid()
      modifies this
      ensures Valid() && forall x :: Count(rows, x) == Count(old(rows), x) + if x == r then n else 0
    {
      if r in rows {
        rows := rows[r := rows[r] + n];
      } else if n > 0 {
        rows := rows[r := n];
      }
    }
  }

  /** `make_parent_row`: the columns of the parent, found on the first side or else on the second. */
  function Find(schema: Schema, c: GeneralColumnRef): (k: Option<nat>)
    ensures k.Some? ==> k.value < |schema| && schema[k.value] == c && forall j | 0 <= j < k.value :: schema[j] != c
    ensures k.None? ==> c !in schema
  {
    if schema == [] then None
    else if schema[0] == c then Some(0)
    else match Find(schema[1..], c)
      case Some(k) => Some(k + 1)
      case None => None
  }

  function ParentRow(fsch: Schema, f: Row, ssch: Schema, s: Row, psch: Schema): Row
    requires |f| == |fsch| && |s| == |ssch|
  {
    if psch == [] then []
    else
      var c := psch[|psch| - 1];
      ParentRow(fsch, f, ssch, s, psch[..|psch| - 1])
      + match (Find(fsch, c), Find(ssch, c))
        case (Some(k), _) => [f[k]]
        case (None, Some(k)) => [s[k]]
        case _ => []
  }

  /** The place of a column of the parent: its first occurrence on the first side, or else on the second. */
  ghost predicate TakenFrom(fsch: Schema, f: Row, ssch: Schema, s: Row, c: GeneralColumnRef, v: ColValN)
    requires |f| == |fsch| && |s| == |ssch|
  {
    || (exists k :: FirstAt(fsch, c, k) && v == f[k])
    || (c !in fsch && exists k :: FirstAt(ssch, c, k) && v == s[k])
  }

  ghost predicate FirstAt(schema: Schema, c: GeneralColumnRef, k: int) {
    0 <= k < |schema| && schema[k] == c && forall j | 0 <= j < k :: schema[j] != c
  }

  /** Every column of a parent row is the column of that name of one of the two rows. */
  lemma {:induction false} ParentRowTakes(fsch: Schema, f: Row, ssch: Schema, s: Row, psch: Schema)
    requires |f| == |fsch| && |s| == |ssch| && forall c | c in psch :: c in fsch || c in ssch
    ensures var r := ParentRow(fsch, f, ssch, s, psch);
      |r| == |psch| && forall i | 0 <= i < |r| :: TakenFrom(fsch, f, ssch, s, psch[i], r[i])
  {
    if psch != [] {
      var n := |psch| - 1;
      var init, r := ParentRow(fsch, f, ssch, s, psch[..n]), ParentRow(fsch, f, ssch, s, psch);
      ParentRowTakes(fsch, f, ssch, s, psch[..n]);
      forall i | 0 <= i < |r| ensures TakenFrom(fsch, f, ssch, s, psch[i], r[i]) {
        if i < n {
          assert r[i] == init[i] && psch[..n][i] == psch[i];
        } else {
          var k := Find(fsch, psch[n]);
          if k.Some? { assert FirstAt(fsch, psch[n], k.value); } else { assert FirstAt(ssch, psch[n], Find(ssch, psch[n]).value); }
        }
      }
    }
  }

  /** The search for a column, as a loop. */
  method FindColumn(schema: Schema, c: GeneralColumnRef) returns (k: Option<nat>)
    ensures k == Find(schema, c)
  {
    var j: nat := 0;
    while j < |schema|
      invariant j <= |schema| && forall i | 0 <= i < j :: schema[i] != c
    {
      if schema[j] == c { return Some(j); }
      j := j + 1;
    }
    return None;
  }

  method MakeParentRow(fsch: Schema, f: Row, ssch: Schema, s: Row, psch: Schema) returns (r: Row)
    requires |f| == |fsch| && |s| == |ssch|
    ensures r == ParentRow(fsch, f, ssch, s, psch)
    ensures (forall c | c in psch :: c in fsch || c in ssch) ==>
      |r| == |psch| && forall i | 0 <= i < |r| :: TakenFrom(fsch, f, ssch, s, psch[i], r[i])
  {
    r := [];
    var i := 0;
    while i < |psch|
      invariant 0 <= i <= |psch| && r == ParentRow(fsch, f, ssch, s, psch[..i])
    {
      assert psch[..i + 1][..i] == psch[..i];
      var k := FindColumn(fsch, psch[i]);
      if k.Some? {
        r := r + [f[k.value]];
      } else {
        k := FindColumn(ssch, psch[i]);
        if k.Some? { r := r + [s[k.value]]; }
      }
      i := i + 1;
    }
    assert psch[..i] == psch;
    if forall c | c in psch :: c in fsch || c in ssch { ParentRowTakes(fsch, f, ssch, s, psch); }
  }

  /** The values of the named columns of a row, over those known before. */
  function WithRow(env: Env, schema: Schema, r: Row): Env
    requires |r| == |schema|
  {
    if schema == [] then env
    else
      var n := |schema| - 1;
      var rest := WithRow(env, schema[..n], r[..n]);
      if schema[n].Named? then rest[schema[n].ref := r[n]] else rest
  }

  method AddValsGeneral(env: Env, schema: Schema, r: Row) returns (res: Env)
    requires |r| == |schema|
    ensures res == WithRow(env, schema, r)
    ensures forall k | 0 <= k < |schema| && schema[k].Named? && (forall j | k < j < |schema| :: schema[j] != schema[k]) ::
      schema[k].ref in res && res[schema[k].ref] == r[k]
  {
    res := env;
    var i := 0;
    while i < |schema|
      invariant 0 <= i <= |schema| && res == WithRow(env, schema[..i], r[..i])
    {
      assert schema[..i + 1][..i] == schema[..i] && r[..i + 1][..i] == r[..i];
      if schema[i].Named? { res := res[schema[i].ref := r[i]]; }
      i := i + 1;
    }
    assert schema[..i] == schema && r[..i] == r;
    forall k | 0 <= k < |schema| && schema[k].Named? && (forall j | k < j < |schema| :: schema[j] != schema[k])
      ensures schema[k].ref in res && res[schema[k].ref] == r[k]
    {
      WithRowTakes(env, schema, r, k);
    }
  }

  function NamedCols(schema: Schema): set<ColumnRef> {
    set k | 0 <= k < |schema| && schema[k].Named? :: schema[k].ref
  }

  /** Values written for one row are all overwritten by the next. */
  lemma {:induction false} WithRowGives(env: Env, schema: Schema, r: Row)
    requires |r| == |schema|
    ensures WithRow(env, schema, r).Keys == env.Keys + NamedCols(schema)
    ensures forall c | c in env && c !in NamedCols(schema) :: WithRow(env, schema, r)[c] == env[c]
    ensures forall c, env2 | c in NamedCols(schema) ::
              c in WithRow(env2, schema, r) && c in WithRow(env, schema, r)
              && WithRow(env2, schema, r)[c] == WithRow(env, schema, r)[c]
  {
    if schema != [] {
      var n := |schema| - 1;
      WithRowGives(env, schema[..n], r[..n]);
      assert NamedCols(schema) == NamedCols(schema[..n]) + if schema[n].Named? then {schema[n].ref} else {} by {
        assert forall k | 0 <= k < n :: schema[..n][k] == schema[k];
      }
    }
  }

  /** A named column has the value of the row at its last position in the schema. */
  lemma {:induction false} WithRowTakes(env: Env, schema: Schema, r: Row, k: nat)
    requires |r| == |schema| && k < |schema| && schema[k].Named? && forall j | k < j < |schema| :: schema[j] != schema[k]
    ensures schema[k].ref in WithRow(env, schema, r) && WithRow(env, schema, r)[schema[k].ref] == r[k]
  {
    var n := |schema| - 1;
    if k < n {
      WithRowTakes(env, schema[..n], r[..n], k);
      assert schema[n] != schema[k];
    }
  }

  /** Whatever rows were written before, writing both rows leaves the values of just these. */
  lemma {:induction false} Rewritten(ctx: Env, env: Env, fsch: Schema, f: Row, ssch: Schema, s: Row)
    requires |f| == |fsch| && |s| == |ssch|
    requires Context(ctx, env, fsch, ssch)
    requires forall c | c in NamedCols(fsch) && c !in NamedCols(ssch) ::
               c in env && c in WithRow(ctx, fsch, f) && env[c] == WithRow(ctx, fsch, f)[c]
    ensures WithRow(env, ssch, s) == WithRow(WithRow(ctx, fsch, f), ssch, s)
  {
    WithRowGives(ctx, fsch, f);
    WithRowGives(env, ssch, s);
    WithRowGives(WithRow(ctx, fsch, f), ssch, s);
    assert WithRow(env, ssch, s).Keys == WithRow(WithRow(ctx, fsch, f), ssch, s).Keys;
  }

  /** `env` is the context with only columns of the two sides written over it. */
  ghost predicate Context(ctx: Env, env: Env, fsch: Schema, ssch: Schema) {
    && ctx.Keys <= env.Keys <= ctx.Keys + NamedCols(fsch) + NamedCols(ssch)
    && forall c | c in ctx && c !in NamedCols(fsch) && c !in NamedCols(ssch) :: env[c] == ctx[c]
  }

  // ---------------------------------------------------------------------------------------------
  //  Conjunctions
  // ---------------------------------------------------------------------------------------------

  /** One conjunction: constructed, evaluated and taken as a truth value. Looking up a column or a
      subquery that is not there counts as an error. */
  function Condition(e: ValExpr, env: Env, vals: seq<ColValN>, next: nat): Result<bool> {
    if !(Columns(e) <= env.Keys) || next + Subqueries(e) > |vals| then Err
    else match ConstructC(e, env, vals, next)
      case Err => Err
      case Ok((c, _)) =>
        match EvaluateC(c)
        case Ok(Some(BoolVal(b))) => Ok(b)
        case Ok(None) => Ok(false)
        case _ => Err
  }

  /** Whether all conjunctions from `k` on hold; later ones are not looked at once one fails. */
  function AllHold(es: seq<ValExpr>, env: Env, vals: seq<ColValN>, k: nat, next: nat): Result<bool>
    decreases |es| - k
  {
    if k >= |es| then Ok(true)
    else match Condition(es[k], env, vals, next)
      case Ok(true) => AllHold(es, env, vals, k + 1, next + Subqueries(es[k]))
      case other => other
  }

  /** `evaluate_conjunctions`. */
  method EvaluateConjunctions(es: seq<ValExpr>, env: Env, vals: Result<seq<ColValN>>) returns (r: Result<bool>)
    ensures vals.Err? ==> r == Err
    ensures vals.Ok? ==> r == AllHold(es, env, vals.value, 0, 0)
  {
    if vals.Err? { return Err; }
    var next: nat := 0;
    var i: nat := 0;
    while i < |es|
      invariant 0 <= i <= |es|
      invariant AllHold(es, env, vals.value, 0, 0) == AllHold(es, env, vals.value, i, next)
    {
      var c := Condition(es[i], env, vals.value, next);
      if c != Ok(true) { return c; }
      next := next + Subqueries(es[i]);
      i := i + 1;
    }
    return Ok(true);
  }

  // ---------------------------------------------------------------------------------------------
  //  The join
  // ---------------------------------------------------------------------------------------------

  /** A join node with its schemas; the subqueries of its conjunctions have a result per pair. */
  datatype Node = Node(
    fsch: Schema, ssch: Schema, psch: Schema,
    weak: seq<ValExpr>, strong: seq<ValExpr>,
    weakVals: (Row, Row) -> Result<seq<ColValN>>,
    strongVals: (Row, Row) -> Result<seq<ColValN>>,
    firstOuter: bool, secondOuter: bool)

  /** `make_empty_row`. */
  function Nulls(n: nat): (r: Row)
    ensures |r| == n && forall k | 0 <= k < n :: r[k] == None
  {
    seq(n, _ => None)
  }

  function Both(n: Node, ctx: Env, f: Row, s: Row): Env
    requires |f| == |n.fsch| && |s| == |n.ssch|
  {
    WithRow(WithRow(ctx, n.fsch, f), n.ssch, s)
  }

  /** The verdict of the weak or the strong conjunctions on a pair of rows. */
  function Verdict(n: Node, ctx: Env, f: Row, s: Row, strong: bool): Result<bool> {
    if |f| != |n.fsch| || |s| != |n.ssch| then Err
    else
      var vals := if strong then n.strongVals(f, s) else n.weakVals(f, s);
      if vals.Err? then Err
      else AllHold(if strong then n.strong else n.weak, Both(n, ctx, f, s), vals.value, 0, 0)
  }

  function Joined(n: Node, f: Row, s: Row): Row {
    if |f| == |n.fsch| && |s| == |n.ssch| then ParentRow(n.fsch, f, n.ssch, s, n.psch) else []
  }

  /** The join a node stands for. */
  ghost function Meaning(n: Node, ctx: Env): Join<Row, Row> {
    Join((f, s) => Verdict(n, ctx, f, s, false) == Ok(true),
         (f, s) => Verdict(n, ctx, f, s, true) == Ok(true),
         (f, s) => Joined(n, f, s),
         Nulls(|n.fsch|), Nulls(|n.ssch|), n.firstOuter, n.secondOuter)
  }

  /** The rows fit the schema. */
  predicate Fits(es: Entries, schema: Schema) {
    forall k | 0 <= k < |es| :: |es[k].0| == |schema|
  }

  ghost predicate Listed(es: Entries, x: Row) {
    exists k :: 0 <= k < |es| && es[k].0 == x
  }

  lemma {:induction false} ListedLast(es: Entries, x: Row)
    requires es != []
    ensures Listed(es, x) <==> Listed(es[..|es| - 1], x) || es[|es| - 1].0 == x
  {
    var n := |es| - 1;
    if Listed(es[..n], x) {
      var k :| 0 <= k < n && es[..n][k].0 == x;
      assert es[k].0 == x;
    }
    if Listed(es, x) {
      var k :| 0 <= k < |es| && es[k].0 == x;
      if k < n { assert es[..n][k].0 == x; }
    }
  }

  lemma {:induction false} BagMembers(es: Entries, x: Row)
    requires forall k | 0 <= k < |es| :: es[k].1 > 0
    ensures x in BagOf(es) <==> Listed(es, x)
  {
    if es != [] {
      var n := |es| - 1;
      BagMembers(es[..n], x);
      ListedLast(es, x);
      hide Listed;
      CopiesCount(es[n].0, es[n].1);
      var c := Copies(es[n].0, es[n].1);
      assert BagOf(es) == BagOf(es[..n]) + c;
      assert x in c <==> x == es[n].0;
    }
  }

  /** The pairs whose evaluation the join needs, and cannot do. */
  ghost predicate PairFails(n: Node, ctx: Env, f: Row, s: Row) {
    Verdict(n, ctx, f, s, false).Err? || (Verdict(n, ctx, f, s, false) == Ok(true) && Verdict(n, ctx, f, s, true).Err?)
  }

  ghost predicate AnyPairFails(n: Node, ctx: Env, f: Row, ss: multiset<Row>) {
    exists s :: s in ss && PairFails(n, ctx, f, s)
  }

  ghost predicate FirstFails(n: Node, ctx: Env, f: Row, ss: multiset<Row>) {
    || AnyPairFails(n, ctx, f, ss)
    || (n.firstOuter && Unmatched(Meaning(n, ctx), f, ss) && Verdict(n, ctx, f, Nulls(|n.ssch|), true).Err?)
  }

  ghost predicate SecondFails(n: Node, ctx: Env, fs: multiset<Row>, s: Row) {
    n.secondOuter && UnmatchedSecond(Meaning(n, ctx), fs, s) && Verdict(n, ctx, Nulls(|n.fsch|), s, true).Err?
  }

  ghost predicate JoinFails(n: Node, ctx: Env, fs: multiset<Row>, ss: multiset<Row>) {
    (exists f :: f in fs && FirstFails(n, ctx, f, ss)) || (exists s :: s in ss && SecondFails(n, ctx, fs, s))
  }

  /** The verdict on the pair whose rows were last written to the column map. */
  method Judge(n: Node, ghost ctx: Env, env: Env, f: Row, s: Row, strong: bool) returns (r: Result<bool>)
    requires |f| == |n.fsch| && |s| == |n.ssch| && env == Both(n, ctx, f, s)
    ensures r == Verdict(n, ctx, f, s, strong)
  {
    if strong {
      r := EvaluateConjunctions(n.strong, env, n.strongVals(f, s));
    } else {
      r := EvaluateConjunctions(n.weak, env, n.weakVals(f, s));
    }
  }

  /** The column map after the row of the first side has been written. */
  ghost predicate HasFirst(n: Node, ctx: Env, env: Env, f: Row)
    requires |f| == |n.fsch|
  {
    && Context(ctx, env, n.fsch, n.ssch)
    && forall c | c in NamedCols(n.fsch) && c !in NamedCols(n.ssch) ::
         c in env && c in WithRow(ctx, n.fsch, f) && env[c] == WithRow(ctx, n.fsch, f)[c]
  }

  lemma {:induction false} WriteFirst(n: Node, ctx: Env, env: Env, f: Row)
    requires |f| == |n.fsch| && Context(ctx, env, n.fsch, n.ssch)
    ensures HasFirst(n, ctx, WithRow(env, n.fsch, f), f)
  {
    WithRowGives(env, n.fsch, f);
    WithRowGives(ctx, n.fsch, f);
  }

  lemma {:induction false} WriteSecond(n: Node, ctx: Env, env: Env, f: Row, s: Row)
    requires |f| == |n.fsch| && |s| == |n.ssch| && HasFirst(n, ctx, env, f)
    ensures WithRow(env, n.ssch, s) == Both(n, ctx, f, s)
    ensures HasFirst(n, ctx, WithRow(env, n.ssch, s), f)
  {
    Rewritten(ctx, env, n.fsch, f, n.ssch, s);
    WithRowGives(env, n.ssch, s);
  }

  // ---------------------------------------------------------------------------------------------
  //  Growth of the output
  // ---------------------------------------------------------------------------------------------

  /** The table `now` is `was` with `n` times the rows of `b` added. */
  ghost predicate Added(was: map<Row, nat>, now: map<Row, nat>, n: nat, b: multiset<Row>) {
    forall x :: Count(now, x) == Count(was, x) + n * b[x]
  }

  lemma {:induction false} NothingAdded(t: map<Row, nat>, n: nat)
    ensures Added(t, t, n, multiset{})
  {
  }

  lemma {:induction false} AddScaled(t0: map<Row, nat>, t1: map<Row, nat>, t2: map<Row, nat>, n: nat, c: nat,
                                     a: multiset<Row>, b: multiset<Row>, all: multiset<Row>)
    requires Added(t0, t1, n, a) && Added(t1, t2, n * c, b) && forall x :: all[x] == a[x] + c * b[x]
    ensures Added(t0, t2, n, all)
  {
    hide Added, Count;
    forall x ensures Count(t2, x) == Count(t0, x) + n * all[x] {
      AddedAt(t0, t1, n, a, x);
      AddedAt(t1, t2, n * c, b, x);
      Distribute(n, c, a[x], b[x]);
    }
    AddedAll(t0, t2, n, all);
  }

  lemma {:induction false} BagNext(es: Entries, i: nat)
    requires i < |es|
    ensures BagOf(es[..i + 1]) == BagOf(es[..i]) + Copies(es[i].0, es[i].1)
  {
    assert es[..i + 1][..i] == es[..i];
  }

  /** After the pairs with the first `i` rows, those with the next. */
  lemma {:induction false} AddPair(j: Join<Row, Row>, f: Row, second: Entries, i: nat, n: nat,
                                   t0: map<Row, nat>, t1: map<Row, nat>, t2: map<Row, nat>)
    requires i < |second| && Added(t0, t1, n, Pairs(j, f, BagOf(second[..i])))
    requires Added(t1, t2, n * second[i].1, Pair(j, f, second[i].0))
    ensures Added(t0, t2, n, Pairs(j, f, BagOf(second[..i + 1])))
  {
    hide Added, BagOf, Pairs, Pair, Copies;
    var s, c, bag := second[i].0, second[i].1, BagOf(second[..i]);
    var all := Pairs(j, f, bag + Copies(s, c));
    BagNext(second, i);
    forall x ensures all[x] == Pairs(j, f, bag)[x] + c * Pair(j, f, s)[x] { PairsAdd(j, f, bag, s, c, x); }
    AddScaled(t0, t1, t2, n, c, Pairs(j, f, bag), Pair(j, f, s), all);
  }

  lemma {:induction false} AddedAt(was: map<Row, nat>, now: map<Row, nat>, n: nat, b: multiset<Row>, x: Row)
    requires Added(was, now, n, b)
    ensures Count(now, x) == Count(was, x) + n * b[x]
  {
  }

  lemma {:induction false} AddedAll(was: map<Row, nat>, now: map<Row, nat>, n: nat, b: multiset<Row>)
    requires forall x :: Count(now, x) == Count(was, x) + n * b[x]
    ensures Added(was, now, n, b)
  {
  }

  lemma {:induction false} AddedOne(t0: map<Row, nat>, t1: map<Row, nat>, r: Row, n: nat)
    requires forall x :: Count(t1, x) == Count(t0, x) + if x == r then n else 0
    ensures Added(t0, t1, n, multiset{r})
  {
    hide Count;
    forall x ensures Count(t1, x) == Count(t0, x) + n * multiset{r}[x] {
      assert multiset{r}[x] == if x == r then 1 else 0;
    }
  }

  lemma {:induction false} Distribute(n: nat, c: nat, a: nat, b: nat)
    ensures n * a + (n * c) * b == n * (a + c * b)
  {
  }

  lemma {:induction false} AddExtended(t0: map<Row, nat>, t1: map<Row, nat>, t2: map<Row, nat>, n: nat,
                                       a: multiset<Row>, b: multiset<Row>)
    requires Added(t0, t1, n, a) && Added(t1, t2, n, b)
    ensures Added(t0, t2, n, a + b)
  {
    forall x ensures Count(t2, x) == Count(t0, x) + n * (a + b)[x] {
      Distribute(n, 1, a[x], b[x]);
    }
  }

  /** After the first `i` rows of the first side, the next. */
  lemma {:induction false} AddFirst(j: Join<Row, Row>, first: Entries, i: nat, ss: multiset<Row>,
                                    t0: map<Row, nat>, t1: map<Row, nat>, t2: map<Row, nat>)
    requires i < |first| && Added(t0, t1, 1, FirstSum(j, BagOf(first[..i]), ss))
    requires Added(t1, t2, first[i].1, FromFirst(j, first[i].0, ss))
    ensures Added(t0, t2, 1, FirstSum(j, BagOf(first[..i + 1]), ss))
  {
    hide Added, BagOf, FirstSum, FromFirst, Copies;
    var f, c, bag := first[i].0, first[i].1, BagOf(first[..i]);
    var all := FirstSum(j, bag + Copies(f, c), ss);
    BagNext(first, i);
    forall x ensures all[x] == FirstSum(j, bag, ss)[x] + c * FromFirst(j, f, ss)[x] { FirstAdd(j, bag, f, c, ss, x); }
    AddScaled(t0, t1, t2, 1, c, FirstSum(j, bag, ss), FromFirst(j, f, ss), all);
  }

  lemma {:induction false} AddSecond(j: Join<Row, Row>, fs: multiset<Row>, second: Entries, i: nat,
                                     t0: map<Row, nat>, t1: map<Row, nat>, t2: map<Row, nat>)
    requires i < |second| && Added(t0, t1, 1, SecondSum(j, fs, BagOf(second[..i])))
    requires Added(t1, t2, second[i].1, FromSecond(j, fs, second[i].0))
    ensures Added(t0, t2, 1, SecondSum(j, fs, BagOf(second[..i + 1])))
  {
    hide Added, BagOf, SecondSum, FromSecond, Copies;
    var s, c, bag := second[i].0, second[i].1, BagOf(second[..i]);
    var all := SecondSum(j, fs, bag + Copies(s, c));
    BagNext(second, i);
    forall x ensures all[x] == SecondSum(j, fs, bag)[x] + c * FromSecond(j, fs, s)[x] { SecondAdd(j, fs, bag, s, c, x); }
    AddScaled(t0, t1, t2, 1, c, SecondSum(j, fs, bag), FromSecond(j, fs, s), all);
  }

  // ---------------------------------------------------------------------------------------------
  //  The loops
  // ---------------------------------------------------------------------------------------------

  /** A pair that the weak conjunctions accept, or a row extended with NULLs. */
  method JoinExtended(n: Node, ghost ctx: Env, env: Env, f: Row, s: Row, count: nat, view: TableView)
    returns (ok: bool)
    requires |f| == |n.fsch| && |s| == |n.ssch| && env == Both(n, ctx, f, s) && view.Valid()
    modifies view
    ensures view.Valid()
    ensures ok <==> Verdict(n, ctx, f, s, true).Ok?
    ensures ok ==> Added(old(view.rows), view.rows, count, Out(Meaning(n, ctx), f, s))
  {
    hide Added, ParentRow, AllHold, WithRow;
    var v := Judge(n, ctx, env, f, s, true);
    if v.Err? { return false; }
    if v.value {
      var r := MakeParentRow(n.fsch, f, n.ssch, s, n.psch);
      ghost var t0 := view.rows;
      view.AddRowMulti(r, count);
      AddedOne(t0, view.rows, r, count);
      assert Out(Meaning(n, ctx), f, s) == multiset{r};
    } else {
      NothingAdded(view.rows, count);
      assert Out(Meaning(n, ctx), f, s) == multiset{};
    }
    return true;
  }

  method JoinPair(n: Node, ghost ctx: Env, env0: Env, f: Row, s: Row, count: nat, view: TableView)
    returns (ok: bool, env: Env, accepted: bool)
    requires |f| == |n.fsch| && |s| == |n.ssch| && view.Valid() && HasFirst(n, ctx, env0, f)
    modifies view
    ensures view.Valid() && HasFirst(n, ctx, env, f)
    ensures ok <==> !PairFails(n, ctx, f, s)
    ensures ok ==> accepted == Meaning(n, ctx).weak(f, s)
    ensures ok ==> Added(old(view.rows), view.rows, count, Pair(Meaning(n, ctx), f, s))
  {
    WriteSecond(n, ctx, env0, f, s);
    env := AddValsGeneral(env0, n.ssch, s);
    var v := Judge(n, ctx, env, f, s, false);
    accepted := v == Ok(true);
    ok := v.Ok?;
    if accepted { ok := JoinExtended(n, ctx, env, f, s, count, view); }
  }

  /** What the pairs of one row of the first side with some rows of the second leave behind. */
  ghost predicate PairsDone(n: Node, ctx: Env, f: Row, second: Entries, count: nat, t0: map<Row, nat>, t1: map<Row, nat>,
                            allRejected: bool, unrejected0: set<Row>, unrejected: set<Row>)
  {
    && (allRejected <==> forall k | 0 <= k < |second| :: !Meaning(n, ctx).weak(f, second[k].0))
    && (forall s :: s in unrejected <==> s in unrejected0 || (Listed(second, s) && Meaning(n, ctx).weak(f, s)))
    && (forall k | 0 <= k < |second| :: !PairFails(n, ctx, f, second[k].0))
    && Added(t0, t1, count, Pairs(Meaning(n, ctx), f, BagOf(second)))
  }

  lemma {:induction false} NoPairsDone(n: Node, ctx: Env, f: Row, count: nat, t: map<Row, nat>, unrejected: set<Row>)
    ensures PairsDone(n, ctx, f, [], count, t, t, true, unrejected, unrejected)
  {
    NothingAdded(t, count);
    assert Pairs(Meaning(n, ctx), f, BagOf([])) == multiset{};
  }

  lemma {:induction false} PairDone(n: Node, ctx: Env, f: Row, second: Entries, i: nat, count: nat,
                                    t0: map<Row, nat>, t1: map<Row, nat>, t2: map<Row, nat>,
                                    allRejected: bool, un0: set<Row>, un: set<Row>)
    requires i < |second| && PairsDone(n, ctx, f, second[..i], count, t0, t1, allRejected, un0, un)
    requires !PairFails(n, ctx, f, second[i].0)
    requires Added(t1, t2, count * second[i].1, Pair(Meaning(n, ctx), f, second[i].0))
    ensures var yes := Meaning(n, ctx).weak(f, second[i].0);
      PairsDone(n, ctx, f, second[..i + 1], count, t0, t2, allRejected && !yes, un0, if yes then un + {second[i].0} else un)
  {
    hide Listed, Added, PairFails, Pairs, BagOf, Meaning, Pair;
    var j := Meaning(n, ctx);
    AddPair(j, f, second, i, count, t0, t1, t2);
    ListedNext(second, i);
    var a, b := second[..i], second[..i + 1];
    assert |b| == i + 1 && b[i] == second[i];
    forall k | 0 <= k < i ensures b[k] == a[k] { }
    forall k | 0 <= k < |b| ensures !PairFails(n, ctx, f, b[k].0) { if k < i { assert b[k] == a[k]; } }
    if forall k | 0 <= k < |b| :: !j.weak(f, b[k].0) {
      forall k | 0 <= k < i ensures !j.weak(f, a[k].0) { assert b[k] == a[k]; }
      assert !j.weak(f, b[i].0);
    }
  }

  /** All pairs of one row of the first side with the rows of the second. `unrejected` collects the
      rows of the second side that some weak verdict accepted. */
  method JoinPairs(n: Node, ghost ctx: Env, env0: Env, f: Row, count: nat, second: Entries, view: TableView, unrejected0: set<Row>)
    returns (ok: bool, env: Env, unrejected: set<Row>, allWeakRejected: bool)
    requires |f| == |n.fsch| && Fits(second, n.ssch) && ValidEntries(second) && view.Valid()
    requires HasFirst(n, ctx, env0, f)
    modifies view
    ensures view.Valid() && HasFirst(n, ctx, env, f)
    ensures !ok ==> AnyPairFails(n, ctx, f, BagOf(second))
    ensures ok ==> PairsDone(n, ctx, f, second, count, old(view.rows), view.rows, allWeakRejected, unrejected0, unrejected)
  {
    hide PairsDone, PairFails, HasFirst, Added, Pair, BagOf, Meaning, AnyPairFails, ValidEntries;
    ghost var t0 := view.rows;
    env, unrejected, ok, allWeakRejected := env0, unrejected0, true, true;
    NoPairsDone(n, ctx, f, count, t0, unrejected0);
    assert second[..0] == [];
    var i := 0;
    while i < |second|
      invariant 0 <= i <= |second| && view.Valid() && HasFirst(n, ctx, env, f) && ok
      invariant PairsDone(n, ctx, f, second[..i], count, t0, view.rows, allWeakRejected, unrejected0, unrejected)
    {
      var accepted: bool;
      ghost var t1 := view.rows;
      ok, env, accepted := JoinPair(n, ctx, env, f, second[i].0, count * second[i].1, view);
      if !ok {
        FailsAt(n, ctx, f, second, i);
        return;
      }
      PairDone(n, ctx, f, second, i, count, t0, t1, view.rows, allWeakRejected, unrejected0, unrejected);
      if accepted {
        allWeakRejected := false;
        unrejected := unrejected + {second[i].0};
      }
      i := i + 1;
    }
    assert second[..i] == second;
  }

  lemma {:induction false} PairsDoneGives(n: Node, ctx: Env, f: Row, second: Entries, count: nat, t0: map<Row, nat>, t1: map<Row, nat>,
                                          allRejected: bool, un0: set<Row>, un: set<Row>)
    requires ValidEntries(second) && PairsDone(n, ctx, f, second, count, t0, t1, allRejected, un0, un)
    ensures allRejected <==> Unmatched(Meaning(n, ctx), f, BagOf(second))
    ensures !AnyPairFails(n, ctx, f, BagOf(second))
    ensures forall s :: s in un <==> s in un0 || (Listed(second, s) && Meaning(n, ctx).weak(f, s))
    ensures Added(t0, t1, count, Pairs(Meaning(n, ctx), f, BagOf(second)))
  {
    NoPairFails(n, ctx, f, second);
    RejectedIsUnmatched(n, ctx, f, second);
  }

  /** Everything one row of the first side contributes. */
  method JoinFirstRow(n: Node, ghost ctx: Env, env0: Env, f: Row, count: nat, second: Entries,
                      view: TableView, unrejected0: set<Row>)
    returns (ok: bool, env: Env, unrejected: set<Row>)
    requires |f| == |n.fsch| && Fits(second, n.ssch) && ValidEntries(second) && view.Valid()
    requires Context(ctx, env0, n.fsch, n.ssch)
    modifies view
    ensures view.Valid() && Context(ctx, env, n.fsch, n.ssch)
    ensures ok <==> !FirstFails(n, ctx, f, BagOf(second))
    ensures ok ==> Added(old(view.rows), view.rows, count, FromFirst(Meaning(n, ctx), f, BagOf(second)))
    ensures ok ==> forall s :: s in unrejected <==> s in unrejected0 || (Listed(second, s) && Meaning(n, ctx).weak(f, s))
  {
    hide PairsDone, PairFails, Added, Pairs, BagOf, AnyPairFails, ValidEntries, Verdict, Listed, WithRow, NamedCols, Unmatched,
      HasFirst, Context, Out;
    ghost var j := Meaning(n, ctx);
    ghost var ss := BagOf(second);
    ghost var t0 := view.rows;
    env := AddValsGeneral(env0, n.fsch, f);
    WriteFirst(n, ctx, env0, f);
    var allWeakRejected: bool;
    ok, env, unrejected, allWeakRejected := JoinPairs(n, ctx, env, f, count, second, view, unrejected0);
    FirstIsContext(n, ctx, env, f);
    if !ok { return; }
    ghost var t1 := view.rows;
    PairsDoneGives(n, ctx, f, second, count, t0, t1, allWeakRejected, unrejected0, unrejected);
    if allWeakRejected && n.firstOuter {
      var s := Nulls(|n.ssch|);
      WriteSecond(n, ctx, env, f, s);
      env := AddValsGeneral(env, n.ssch, s);
      FirstIsContext(n, ctx, env, f);
      ok := JoinExtended(n, ctx, env, f, s, count, view);
      if ok { AddExtended(t0, t1, view.rows, count, Pairs(j, f, ss), Out(j, f, s)); }
    } else {
      assert FromFirst(j, f, ss) == Pairs(j, f, ss);
    }
  }

  lemma {:induction false} FirstIsContext(n: Node, ctx: Env, env: Env, f: Row)
    requires |f| == |n.fsch| && HasFirst(n, ctx, env, f)
    ensures Context(ctx, env, n.fsch, n.ssch)
  {
  }

  lemma {:induction false} ListedNext(es: Entries, i: nat)
    requires i < |es|
    ensures forall s :: Listed(es[..i + 1], s) <==> Listed(es[..i], s) || es[i].0 == s
  {
    assert es[..i + 1][..i] == es[..i] && es[..i + 1][i] == es[i];
    forall s ensures Listed(es[..i + 1], s) <==> Listed(es[..i], s) || es[i].0 == s { ListedLast(es[..i + 1], s); }
  }

  lemma {:induction false} FailsAt(n: Node, ctx: Env, f: Row, second: Entries, i: nat)
    requires i < |second| && ValidEntries(second) && PairFails(n, ctx, f, second[i].0)
    ensures AnyPairFails(n, ctx, f, BagOf(second))
  {
    BagMembers(second, second[i].0);
  }

  lemma {:induction false} NoPairFails(n: Node, ctx: Env, f: Row, second: Entries)
    requires ValidEntries(second) && forall k | 0 <= k < |second| :: !PairFails(n, ctx, f, second[k].0)
    ensures !AnyPairFails(n, ctx, f, BagOf(second))
  {
    forall s | s in BagOf(second) ensures !PairFails(n, ctx, f, s) { BagMembers(second, s); }
  }

  lemma {:induction false} RejectedIsUnmatched(n: Node, ctx: Env, f: Row, second: Entries)
    requires ValidEntries(second)
    ensures (forall k | 0 <= k < |second| :: !Meaning(n, ctx).weak(f, second[k].0))
       <==> Unmatched(Meaning(n, ctx), f, BagOf(second))
  {
    var j := Meaning(n, ctx);
    forall s ensures s in BagOf(second) <==> Listed(second, s) { BagMembers(second, s); }
    hide BagOf;
    if Unmatched(j, f, BagOf(second)) {
      forall k | 0 <= k < |second| ensures !j.weak(f, second[k].0) {
        assert Listed(second, second[k].0);
      }
    }
  }

  // ---------------------------------------------------------------------------------------------
  //  The whole join
  // ---------------------------------------------------------------------------------------------

  /** What the first rows of the first side leave behind. */
  ghost predicate FirstDone(n: Node, ctx: Env, first: Entries, second: Entries, t: map<Row, nat>, unrejected: set<Row>) {
    && Added(map[], t, 1, FirstSum(Meaning(n, ctx), BagOf(first), BagOf(second)))
    && (forall k | 0 <= k < |first| :: !FirstFails(n, ctx, first[k].0, BagOf(second)))
    && (forall s :: s in unrejected <==> Listed(second, s) && Partnered(n, ctx, first, s))
  }

  lemma {:induction false} FirstDoneStart(n: Node, ctx: Env, second: Entries)
    ensures FirstDone(n, ctx, [], second, map[], {})
  {
    NothingAdded(map[], 1);
    assert FirstSum(Meaning(n, ctx), BagOf([]), BagOf(second)) == multiset{};
  }

  /** Some row of the first side is paired with `s`. */
  ghost predicate Partnered(n: Node, ctx: Env, first: Entries, s: Row) {
    exists k :: 0 <= k < |first| && Meaning(n, ctx).weak(first[k].0, s)
  }

  lemma {:induction false} PartneredNext(n: Node, ctx: Env, first: Entries, i: nat, s: Row)
    requires i < |first|
    ensures Partnered(n, ctx, first[..i + 1], s) <==> Partnered(n, ctx, first[..i], s) || Meaning(n, ctx).weak(first[i].0, s)
  {
    hide Meaning;
    var a, b := first[..i], first[..i + 1];
    assert b[i] == first[i];
    if Partnered(n, ctx, b, s) {
      var k :| 0 <= k < |b| && Meaning(n, ctx).weak(b[k].0, s);
      if k < i { assert a[k] == b[k]; }
    }
    if Partnered(n, ctx, a, s) {
      var k :| 0 <= k < |a| && Meaning(n, ctx).weak(a[k].0, s);
      assert a[k] == b[k];
    }
  }

  lemma {:induction false} FirstDoneStep(n: Node, ctx: Env, first: Entries, i: nat, second: Entries,
                                         t1: map<Row, nat>, t2: map<Row, nat>, un: set<Row>, un': set<Row>)
    requires i < |first| && FirstDone(n, ctx, first[..i], second, t1, un)
    requires !FirstFails(n, ctx, first[i].0, BagOf(second))
    requires Added(t1, t2, first[i].1, FromFirst(Meaning(n, ctx), first[i].0, BagOf(second)))
    requires forall s :: s in un' <==> s in un || (Listed(second, s) && Meaning(n, ctx).weak(first[i].0, s))
    ensures FirstDone(n, ctx, first[..i + 1], second, t2, un')
  {
    hide Added, FirstFails, Listed, BagOf, FirstSum, FromFirst, Meaning, Partnered;
    AddFirst(Meaning(n, ctx), first, i, BagOf(second), map[], t1, t2);
    var a, b := first[..i], first[..i + 1];
    forall k | 0 <= k < |b| ensures !FirstFails(n, ctx, b[k].0, BagOf(second)) {
      if k < i { assert b[k] == a[k]; } else { assert b[k] == first[i]; }
    }
    forall s ensures s in un' <==> Listed(second, s) && Partnered(n, ctx, b, s) { PartneredNext(n, ctx, first, i, s); }
  }

  /** The rows of the second side that were always rejected are those without a partner. */
  lemma {:induction false} RejectedSecond(n: Node, ctx: Env, first: Entries, second: Entries, t: map<Row, nat>, un: set<Row>, k: nat)
    requires ValidEntries(first) && k < |second| && FirstDone(n, ctx, first, second, t, un)
    ensures second[k].0 !in un <==> UnmatchedSecond(Meaning(n, ctx), BagOf(first), second[k].0)
  {
    var j, s := Meaning(n, ctx), second[k].0;
    assert Listed(second, s);
    forall f ensures f in BagOf(first) <==> Listed(first, f) { BagMembers(first, f); }
    hide BagOf, Added, FirstFails, FirstSum, Meaning;
    if s !in un {
      forall f | f in BagOf(first) ensures !j.weak(f, s) {
        var i :| 0 <= i < |first| && first[i].0 == f;
      }
    } else {
      var i :| 0 <= i < |first| && j.weak(first[i].0, s);
      assert Listed(first, first[i].0);
    }
  }

  /** The rows of the second side that no row of the first was paired with. */
  method JoinSecondRows(n: Node, ghost ctx: Env, env0: Env, ghost first: Entries, second: Entries,
                        view: TableView, unrejected: set<Row>) returns (ok: bool)
    requires ValidEntries(first) && Fits(second, n.ssch) && ValidEntries(second) && view.Valid() && n.secondOuter
    requires Context(ctx, env0, n.fsch, n.ssch) && FirstDone(n, ctx, first, second, view.rows, unrejected)
    modifies view
    ensures view.Valid()
    ensures ok ==> Added(old(view.rows), view.rows, 1, SecondSum(Meaning(n, ctx), BagOf(first), BagOf(second)))
    ensures ok <==> forall k | 0 <= k < |second| :: !SecondFails(n, ctx, BagOf(first), second[k].0)
  {
    hide FirstDone, Added, BagOf, SecondSum, ValidEntries, HasFirst, WithRow, NamedCols, Context, Out, UnmatchedSecond, Verdict;
    ghost var j := Meaning(n, ctx);
    ghost var t0 := view.rows;
    var f := Nulls(|n.fsch|);
    var env := AddValsGeneral(env0, n.fsch, f);
    WriteFirst(n, ctx, env0, f);
    SecondStart(j, BagOf(first), second, t0);
    var i := 0;
    while i < |second|
      invariant 0 <= i <= |second| && view.Valid() && HasFirst(n, ctx, env, f)
      invariant Added(t0, view.rows, 1, SecondSum(j, BagOf(first), BagOf(second[..i])))
      invariant forall k | 0 <= k < i :: !SecondFails(n, ctx, BagOf(first), second[k].0)
    {
      ghost var t1 := view.rows;
      var s := second[i].0;
      RejectedSecond(n, ctx, first, second, t0, unrejected, i);
      if s !in unrejected {
        WriteSecond(n, ctx, env, f, s);
        env := AddValsGeneral(env, n.ssch, s);
        ok := JoinExtended(n, ctx, env, f, s, second[i].1, view);
        if !ok { return; }
      } else {
        NothingAdded(t1, second[i].1);
      }
      AddSecond(j, BagOf(first), second, i, t0, t1, view.rows);
      i := i + 1;
    }
    assert second[..i] == second;
    ok := true;
  }

  lemma {:induction false} SecondStart(j: Join<Row, Row>, fs: multiset<Row>, second: Entries, t: map<Row, nat>)
    ensures Added(t, t, 1, SecondSum(j, fs, BagOf(second[..0])))
  {
    NothingAdded(t, 1);
    assert second[..0] == [];
    assert SecondSum(j, fs, BagOf([])) == multiset{};
  }

  /** The rows of the first side, one after the other. */
  method JoinFirstRows(n: Node, ctx: Env, first: Entries, second: Entries, view: TableView)
    returns (ok: bool, env: Env, unrejected: set<Row>)
    requires Fits(first, n.fsch) && Fits(second, n.ssch) && ValidEntries(first) && ValidEntries(second)
    requires view.Valid() && view.rows == map[]
    modifies view
    ensures view.Valid() && Context(ctx, env, n.fsch, n.ssch)
    ensures ok ==> FirstDone(n, ctx, first, second, view.rows, unrejected)
    ensures ok <==> forall k | 0 <= k < |first| :: !FirstFails(n, ctx, first[k].0, BagOf(second))
  {
    hide FirstDone, Added, BagOf, FirstSum, FirstFails, FromFirst, ValidEntries, Listed;
    env, unrejected, ok := ctx, {}, true;
    FirstDoneStart(n, ctx, second);
    assert first[..0] == [];
    var i := 0;
    while i < |first|
      invariant 0 <= i <= |first| && ok && view.Valid() && Context(ctx, env, n.fsch, n.ssch)
      invariant FirstDone(n, ctx, first[..i], second, view.rows, unrejected)
      invariant forall k | 0 <= k < i :: !FirstFails(n, ctx, first[k].0, BagOf(second))
    {
      ghost var t1, un := view.rows, unrejected;
      ok, env, unrejected := JoinFirstRow(n, ctx, env, first[i].0, first[i].1, second, view, unrejected);
      if !ok { return; }
      FirstDoneStep(n, ctx, first, i, second, t1, view.rows, un, unrejected);
      i := i + 1;
    }
    assert first[..i] == first;
  }

  lemma {:induction false} FailsIff(n: Node, ctx: Env, first: Entries, second: Entries)
    requires ValidEntries(first) && ValidEntries(second)
    ensures JoinFails(n, ctx, BagOf(first), BagOf(second)) <==>
         !((forall k | 0 <= k < |first| :: !FirstFails(n, ctx, first[k].0, BagOf(second)))
           && (forall k | 0 <= k < |second| :: !SecondFails(n, ctx, BagOf(first), second[k].0)))
  {
    forall x ensures x in BagOf(first) <==> Listed(first, x) { BagMembers(first, x); }
    forall x ensures x in BagOf(second) <==> Listed(second, x) { BagMembers(second, x); }
    hide BagOf, FirstFails, SecondFails;
    if k :| 0 <= k < |first| && FirstFails(n, ctx, first[k].0, BagOf(second)) { assert Listed(first, first[k].0); }
    if k :| 0 <= k < |second| && SecondFails(n, ctx, BagOf(first), second[k].0) { assert Listed(second, second[k].0); }
  }

  /** `finish_join_independent` for one row of the parent's context: the result holds every row
      exactly as often as the join of the two bags does, and there is one exactly if no evaluation
      that the join needs fails. */
  method FinishJoin(n: Node, ctx: Env, first: Entries, second: Entries) returns (r: Result<TableView>)
    requires Fits(first, n.fsch) && Fits(second, n.ssch) && ValidEntries(first) && ValidEntries(second)
    ensures r.Err? <==> JoinFails(n, ctx, BagOf(first), BagOf(second))
    ensures r.Ok? ==> fresh(r.value) && r.value.Valid() && forall x :: Count(r.value.rows, x) == JoinBag(Meaning(n, ctx), BagOf(first), BagOf(second))[x]
  {
    hide FirstDone, Added, BagOf, FirstFails, SecondFails, JoinFails, ValidEntries, FirstSum, SecondSum, Context;
    ghost var j, fs, ss := Meaning(n, ctx), BagOf(first), BagOf(second);
    FailsIff(n, ctx, first, second);
    var view := new TableView();
    var ok, env, unrejected := JoinFirstRows(n, ctx, first, second, view);
    if !ok { return Err; }
    ghost var t1 := view.rows;
    assert Added(map[], t1, 1, FirstSum(j, fs, ss)) by { FirstDoneGives(n, ctx, first, second, t1, unrejected); }
    if n.secondOuter {
      ok := JoinSecondRows(n, ctx, env, first, second, view, unrejected);
      if !ok { return Err; }
    } else {
      NoSecond(n, ctx, fs, ss);
      NothingAdded(t1, 1);
      forall k | 0 <= k < |second| ensures !SecondFails(n, ctx, fs, second[k].0) { InnerSecond(n, ctx, fs, second[k].0); }
    }
    AddExtended(map[], t1, view.rows, 1, FirstSum(j, fs, ss), SecondSum(j, fs, ss));
    forall x ensures Count(view.rows, x) == JoinBag(j, fs, ss)[x] {
      AddedAt(map[], view.rows, 1, FirstSum(j, fs, ss) + SecondSum(j, fs, ss), x);
    }
    r := Ok(view);
  }

  lemma {:induction false} FirstDoneGives(n: Node, ctx: Env, first: Entries, second: Entries, t: map<Row, nat>, un: set<Row>)
    requires FirstDone(n, ctx, first, second, t, un)
    ensures Added(map[], t, 1, FirstSum(Meaning(n, ctx), BagOf(first), BagOf(second)))
  {
  }

  lemma {:induction false} InnerSecond(n: Node, ctx: Env, fs: multiset<Row>, s: Row)
    requires !n.secondOuter
    ensures !SecondFails(n, ctx, fs, s)
  {
  }

  lemma {:induction false} NoSecond(n: Node, ctx: Env, fs: multiset<Row>, ss: multiset<Row>)
    requires !n.secondOuter
    ensures SecondSum(Meaning(n, ctx), fs, ss) == multiset{}
    decreases |ss|
  {
    if ss != multiset{} {
      var s :| s in ss;
      SumPick(ss, s => FromSecond(Meaning(n, ctx), fs, s), s);
      NoSecond(n, ctx, fs, ss - multiset{s});
    }
  }

  /** The tables of a finished child, found through the context row each parent row led to. */
  datatype Finished = Finished(tables: seq<Entries>, childOf: seq<nat>) {
    predicate Valid(rows: nat) {
      |childOf| == rows && forall k | 0 <= k < rows :: childOf[k] < |tables|
    }

    function For(i: nat): Entries
      requires i < |childOf| && childOf[i] < |tables|
    {
      tables[childOf[i]]
    }
  }

  ghost predicate Good(c: Finished, schema: Schema) {
    forall k | 0 <= k < |c.tables| :: Fits(c.tables[k], schema) && ValidEntries(c.tables[k])
  }

  /** The values of the subqueries for a row of the parent's context and a pair of rows. */
  type SubqueryVals = (nat, Row, Row) -> Result<seq<ColValN>>

  /** The node as it stands for row `i` of the parent's context. */
  function AtRow(n: Node, weak: SubqueryVals, strong: SubqueryVals, i: nat): Node {
    n.(weakVals := (a, b) => weak(i, a, b), strongVals := (a, b) => strong(i, a, b))
  }

  /** `finish_join_independent`: one table per row of the parent's context, on which the subqueries may
      depend. */
  method FinishJoinIndependent(n: Node, weak: SubqueryVals, strong: SubqueryVals, ctxs: seq<Env>, first: Finished, second: Finished)
    returns (r: Result<seq<TableView>>)
    requires first.Valid(|ctxs|) && second.Valid(|ctxs|) && Good(first, n.fsch) && Good(second, n.ssch)
    ensures r.Err? <==>
      exists i: nat :: i < |ctxs| && JoinFails(AtRow(n, weak, strong, i), ctxs[i], BagOf(first.For(i)), BagOf(second.For(i)))
    ensures r.Ok? ==> |r.value| == |ctxs|
    ensures r.Ok? ==> forall i: nat, x | i < |ctxs| ::
      Count(r.value[i].rows, x)
      == JoinBag(Meaning(AtRow(n, weak, strong, i), ctxs[i]), BagOf(first.For(i)), BagOf(second.For(i)))[x]
  {
    hide BagOf, JoinFails, JoinBag, Meaning, Fits, ValidEntries;
    var views: seq<TableView> := [];
    var i: nat := 0;
    while i < |ctxs|
      invariant 0 <= i <= |ctxs| && |views| == i
      invariant forall k: nat | k < i :: !JoinFails(AtRow(n, weak, strong, k), ctxs[k], BagOf(first.For(k)), BagOf(second.For(k)))
      invariant forall k: nat, x | k < i ::
        Count(views[k].rows, x)
        == JoinBag(Meaning(AtRow(n, weak, strong, k), ctxs[k]), BagOf(first.For(k)), BagOf(second.For(k)))[x]
    {
      var t := FinishJoin(AtRow(n, weak, strong, i), ctxs[i], first.For(i), second.For(i));
      if t.Err? { return Err; }
      views := views + [t.value];
      i := i + 1;
    }
    r := Ok(views);
  }

  // ---------------------------------------------------------------------------------------------
  //  A second side that depends on the rows of the first
  // ---------------------------------------------------------------------------------------------

  lemma {:induction false} AddDependent(j: Join<Row, Row>, first: Entries, i: nat, second: Row -> multiset<Row>,
                                        t0: map<Row, nat>, t1: map<Row, nat>, t2: map<Row, nat>)
    requires i < |first| && Added(t0, t1, 1, DependentBag(j, BagOf(first[..i]), second))
    requires Added(t1, t2, first[i].1, FromFirst(j, first[i].0, second(first[i].0)))
    ensures Added(t0, t2, 1, DependentBag(j, BagOf(first[..i + 1]), second))
  {
    hide Added, BagOf, DependentBag, FromFirst, Copies;
    var f, c, bag := first[i].0, first[i].1, BagOf(first[..i]);
    var all := DependentBag(j, bag + Copies(f, c), second);
    BagNext(first, i);
    forall x ensures all[x] == DependentBag(j, bag, second)[x] + c * FromFirst(j, f, second(f))[x] {
      DependentAdd(j, bag, f, c, second, x);
    }
    AddScaled(t0, t1, t2, 1, c, DependentBag(j, bag, second), FromFirst(j, f, second(f)), all);
  }

  lemma {:induction false} NoDependent(j: Join<Row, Row>, second: Row -> multiset<Row>)
    ensures Added(map[], map[], 1, DependentBag(j, BagOf([]), second))
  {
    NothingAdded(map[], 1);
    assert DependentBag(j, BagOf([]), second) == multiset{};
  }

  /** The second side of a row of the first: the table at the same place. */
  ghost function SecondOf(first: Entries, seconds: seq<Entries>, x: Row): multiset<Row>
    requires |seconds| == |first|
  {
    if first == [] then multiset{}
    else
      var n := |first| - 1;
      if first[n].0 == x then BagOf(seconds[n]) else SecondOf(first[..n], seconds[..n], x)
  }

  lemma {:induction false} SecondAt(first: Entries, seconds: seq<Entries>, k: nat)
    requires |seconds| == |first| && k < |first| && ValidEntries(first)
    ensures SecondOf(first, seconds, first[k].0) == BagOf(seconds[k])
  {
    var n := |first| - 1;
    if k < n {
      SecondAt(first[..n], seconds[..n], k);
      assert first[..n][k] == first[k];
    }
  }

  /** The join in which every row of the first side meets its own second side. */
  ghost function DependentJoin(n: Node, ctx: Env, first: Entries, seconds: seq<Entries>): multiset<Row>
    requires |seconds| == |first|
  {
    DependentBag(Meaning(n, ctx), BagOf(first), x => SecondOf(first, seconds, x))
  }

  /** Some evaluation that this join needs fails. */
  ghost predicate DependentFails(n: Node, ctx: Env, first: Entries, seconds: seq<Entries>)
    requires |seconds| == |first|
  {
    exists k :: 0 <= k < |first| && FirstFails(n, ctx, first[k].0, BagOf(seconds[k]))
  }

  ghost predicate ValidSeconds(seconds: seq<Entries>, schema: Schema) {
    forall k | 0 <= k < |seconds| :: Fits(seconds[k], schema) && ValidEntries(seconds[k])
  }

  /** `finish_join_dependent` for one row of the parent's context. */
  method FinishDependent(n: Node, ctx: Env, first: Entries, seconds: seq<Entries>) returns (r: Result<TableView>)
    requires |seconds| == |first| && Fits(first, n.fsch) && ValidEntries(first) && ValidSeconds(seconds, n.ssch)
    ensures r.Err? <==> DependentFails(n, ctx, first, seconds)
    ensures r.Ok? ==> fresh(r.value) && r.value.Valid()
    ensures r.Ok? ==> forall x :: Count(r.value.rows, x) == DependentJoin(n, ctx, first, seconds)[x]
  {
    hide Added, BagOf, FirstFails, FromFirst, ValidEntries, Listed, DependentBag, Fits, Context, SecondOf;
    ghost var j := Meaning(n, ctx);
    ghost var second := (x: Row) => SecondOf(first, seconds, x);
    var view := new TableView();
    var env := ctx;
    StartContext(ctx, n.fsch, n.ssch);
    NoDependent(j, second);
    assert first[..0] == [];
    FitsAll(first, n.fsch);
    var i := 0;
    while i < |first|
      invariant 0 <= i <= |first| && view.Valid() && fresh(view) && Context(ctx, env, n.fsch, n.ssch)
      invariant Added(map[], view.rows, 1, DependentBag(j, BagOf(first[..i]), second))
      invariant forall k | 0 <= k < i :: !FirstFails(n, ctx, first[k].0, BagOf(seconds[k]))
    {
      ghost var t1 := view.rows;
      var ok, env', _ := JoinFirstRow(n, ctx, env, first[i].0, first[i].1, seconds[i], view, {});
      if !ok { return Err; }
      env := env';
      SecondAt(first, seconds, i);
      AddDependent(j, first, i, second, map[], t1, view.rows);
      i := i + 1;
    }
    assert first[..i] == first;
    forall x ensures Count(view.rows, x) == DependentJoin(n, ctx, first, seconds)[x] {
      AddedAt(map[], view.rows, 1, DependentBag(j, BagOf(first), second), x);
    }
    r := Ok(view);
  }

  lemma {:induction false} StartContext(ctx: Env, fsch: Schema, ssch: Schema)
    ensures Context(ctx, ctx, fsch, ssch)
  {
  }

  lemma {:induction false} FitsAll(es: Entries, schema: Schema)
    requires Fits(es, schema)
    ensures forall k | 0 <= k < |es| :: |es[k].0| == |schema|
  {
  }

  /** How many rows of first sides come before those of row `i` of the parent's context. */
  function RowsBefore(firsts: seq<Entries>, i: nat): nat
    requires i <= |firsts|
  {
    if i == 0 then 0 else RowsBefore(firsts, i - 1) + |firsts[i - 1]|
  }

  lemma {:induction false} RowsBeforeGrow(firsts: seq<Entries>, i: nat, j: nat)
    requires i <= j <= |firsts|
    ensures RowsBefore(firsts, i) <= RowsBefore(firsts, j)
    decreases j
  {
    if i < j { RowsBeforeGrow(firsts, i, j - 1); }
  }

  /** The second sides of the rows of the first side of row `i` of the parent's context. */
  function SecondsOf(firsts: seq<Entries>, seconds: seq<Entries>, i: nat): (s: seq<Entries>)
    requires i < |firsts| && RowsBefore(firsts, |firsts|) <= |seconds|
    ensures |s| == |firsts[i]|
  {
    RowsBeforeGrow(firsts, i + 1, |firsts|);
    seconds[RowsBefore(firsts, i)..RowsBefore(firsts, i) + |firsts[i]|]
  }

  /** Row `i` of the parent's context, whose second sides start at `count`. */
  method FinishDependentAt(n: Node, weak: SubqueryVals, strong: SubqueryVals, ctxs: seq<Env>, firsts: seq<Entries>, seconds: seq<Entries>,
                           i: nat, count: nat)
    returns (r: Result<map<Row, nat>>, next: nat)
    requires |firsts| == |ctxs| && RowsBefore(firsts, |firsts|) <= |seconds| && ValidSeconds(firsts, n.fsch) && ValidSeconds(seconds, n.ssch)
    requires i < |ctxs| && count == RowsBefore(firsts, i)
    ensures r.Err? <==> DependentFails(AtRow(n, weak, strong, i), ctxs[i], firsts[i], SecondsOf(firsts, seconds, i))
    ensures r.Ok? ==> IsTable(r.value, DependentJoin(AtRow(n, weak, strong, i), ctxs[i], firsts[i], SecondsOf(firsts, seconds, i)))
    ensures next == RowsBefore(firsts, i + 1)
  {
    RowsBeforeGrow(firsts, i + 1, |firsts|);
    var mine := seconds[count..count + |firsts[i]|];
    assert mine == SecondsOf(firsts, seconds, i);
    next := count + |firsts[i]|;
    hide RowsBefore, SecondsOf, DependentFails, DependentJoin, Fits, ValidEntries;
    var t := FinishDependent(AtRow(n, weak, strong, i), ctxs[i], firsts[i], mine);
    r := if t.Ok? then Ok(t.value.rows) else Err;
  }

  /** The table has every row as often as the bag. */
  ghost predicate IsTable(t: map<Row, nat>, b: multiset<Row>) {
    forall x :: Count(t, x) == b[x]
  }

  /** What the parent's context and the tables of both sides must be. */
  ghost predicate Inputs(n: Node, ctxs: seq<Env>, firsts: seq<Entries>, seconds: seq<Entries>) {
    |firsts| == |ctxs| && RowsBefore(firsts, |firsts|) <= |seconds| && ValidSeconds(firsts, n.fsch) && ValidSeconds(seconds, n.ssch)
  }

  /** The tables of the first rows of the parent's context: none failed, and each is the join. */
  ghost predicate Done(n: Node, weak: SubqueryVals, strong: SubqueryVals, ctxs: seq<Env>, firsts: seq<Entries>, seconds: seq<Entries>,
                       tables: seq<map<Row, nat>>)
    requires Inputs(n, ctxs, firsts, seconds)
  {
    && |tables| <= |ctxs|
    && forall i: nat | i < |tables| ::
         && !DependentFails(AtRow(n, weak, strong, i), ctxs[i], firsts[i], SecondsOf(firsts, seconds, i))
         && IsTable(tables[i], DependentJoin(AtRow(n, weak, strong, i), ctxs[i], firsts[i], SecondsOf(firsts, seconds, i)))
  }

  lemma {:induction false} DoneNext(n: Node, weak: SubqueryVals, strong: SubqueryVals, ctxs: seq<Env>, firsts: seq<Entries>, seconds: seq<Entries>,
                                    tables: seq<map<Row, nat>>, t: map<Row, nat>)
    requires Inputs(n, ctxs, firsts, seconds) && Done(n, weak, strong, ctxs, firsts, seconds, tables) && |tables| < |ctxs|
    requires var i := |tables|;
      && !DependentFails(AtRow(n, weak, strong, i), ctxs[i], firsts[i], SecondsOf(firsts, seconds, i))
      && IsTable(t, DependentJoin(AtRow(n, weak, strong, i), ctxs[i], firsts[i], SecondsOf(firsts, seconds, i)))
    ensures Done(n, weak, strong, ctxs, firsts, seconds, tables + [t])
  {
    hide DependentFails, DependentJoin, IsTable, AtRow, SecondsOf;
  }

  /** `finish_join_dependent`: the tables of the second side are taken one after the other, for all rows
      of all first sides. */
  method FinishJoinDependent(n: Node, weak: SubqueryVals, strong: SubqueryVals, ctxs: seq<Env>, firsts: seq<Entries>, seconds: seq<Entries>)
    returns (r: Result<seq<map<Row, nat>>>)
    requires Inputs(n, ctxs, firsts, seconds)
    ensures r.Err? <==>
      exists i: nat :: i < |ctxs| && DependentFails(AtRow(n, weak, strong, i), ctxs[i], firsts[i], SecondsOf(firsts, seconds, i))
    ensures r.Ok? ==> |r.value| == |ctxs| && Done(n, weak, strong, ctxs, firsts, seconds, r.value)
  {
    var failed: bool;
    ghost var at: nat;
    var tables: seq<map<Row, nat>>;
    failed, tables, at := JoinDependent(n, weak, strong, ctxs, firsts, seconds);
    hide DependentFails, AtRow, SecondsOf, DependentJoin, IsTable;
    r := if failed then Err else Ok(tables);
  }

  method JoinDependent(n: Node, weak: SubqueryVals, strong: SubqueryVals, ctxs: seq<Env>, firsts: seq<Entries>, seconds: seq<Entries>)
    returns (failed: bool, tables: seq<map<Row, nat>>, ghost at: nat)
    requires Inputs(n, ctxs, firsts, seconds)
    ensures failed ==> at < |ctxs| && DependentFails(AtRow(n, weak, strong, at), ctxs[at], firsts[at], SecondsOf(firsts, seconds, at))
    ensures !failed ==> |tables| == |ctxs| && Done(n, weak, strong, ctxs, firsts, seconds, tables)
  {
    hide DependentFails, DependentJoin, IsTable, AtRow, SecondsOf, ValidSeconds;
    tables, failed, at := [], false, 0;
    var secondSideCount: nat := 0;
    while |tables| < |ctxs|
      invariant !failed && Done(n, weak, strong, ctxs, firsts, seconds, tables) && secondSideCount == RowsBefore(firsts, |tables|)
      decreases |ctxs| - |tables|
    {
      hide Done;
      at := |tables|;
      var t, next := FinishDependentAt(n, weak, strong, ctxs, firsts, seconds, |tables|, secondSideCount);
      if t.Err? {
        failed := true;
        return;
      }
      DoneNext(n, weak, strong, ctxs, firsts, seconds, tables, t.value);
      secondSideCount := next;
      tables := tables + [t.value];
    }
  }
}
