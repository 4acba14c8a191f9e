/** The key region of a WHERE clause (src/expression.rs:335-695): outside of it the clause cannot
    accept. */
module KeyRegions {
  import opened Wrappers
  import opened Values
  import opened Expressions
  import opened Bounds

  /** An expression in which only some values are known. */
  datatype KBExpr =
    | KeyColumn(col: ColName)
    | KUnary(op: UnaryOp, expr: KBExpr)
    | KBinary(bop: BinaryOp, left: KBExpr, right: KBExpr)
    | KValue(val: ColValN)
    | Unknown

  type KeyCols = seq<(ColName, ColType)>

  predicate IsKeyCol(keys: KeyCols, c: ColName) {
    exists k :: 0 <= k < |keys| && keys[k].0 == c
  }

  /** `contains_key_col_ref`. */
  predicate RefersToKey(source: string, keys: KeyCols, c: ColumnRef) {
    c.table == source && IsKeyCol(keys, c.col)
  }

  /** `construct_kb_expr`; `known` has the values of the columns of the context. */
  function ConstructKB(e: ValExpr, known: Env, source: string, keys: KeyCols): Result<KBExpr> {
    match e
    case Column(c) =>
      Ok(if c in known then KValue(known[c]) else if RefersToKey(source, keys, c) then KeyColumn(c.col) else Unknown)
    case Unary(op, x) => (
      match ConstructKB(x, known, source, keys)
      case Ok(k) => Ok(KUnary(op, k))
      case Err => Err)
    case Binary(op, l, r) => (
      match (ConstructKB(l, known, source, keys), ConstructKB(r, known, source, keys))
      case (Ok(a), Ok(b)) => Ok(KBinary(op, a, b))
      case _ => Err)
    case Value(lit) => (
      match LiteralValue(lit)
      case Ok(v) => Ok(KValue(v))
      case Err => Err)
    case Subquery(_, _) => Ok(Unknown)
  }

  /** `evaluate_kb_expr`: the value, if it does not depend on anything unknown. */
  function EvaluateKB(e: KBExpr): Result<Option<ColValN>> {
    match e
    case KeyColumn(_) => Ok(None)
    case Unknown => Ok(None)
    case KValue(v) => Ok(Some(v))
    case KUnary(op, x) => (
      match EvaluateKB(x)
      case Ok(Some(v)) => (match EvalUnary(op, v) case Ok(w) => Ok(Some(w)) case Err => Err)
      case Ok(None) => Ok(None)
      case Err => Err)
    case KBinary(op, l, r) => (
      match (EvaluateKB(l), EvaluateKB(r))
      case (Err, _) => Err
      case (_, Err) => Err
      case (Ok(Some(a)), Ok(Some(b))) => (match EvalBinary(op, a, b) case Ok(w) => Ok(Some(w)) case Err => Err)
      case _ => Ok(None))
  }

  /** The interval of the values `x` with `x op v`, or with `v op x` if the column is on the right. */
  function LeafBound(op: BinaryOp, v: ColVal, columnLeft: bool): ColBound {
    match op
    case Gt => if columnLeft then ColBound(Excluded(v), Unbounded) else ColBound(Unbounded, Excluded(v))
    case Lt => if columnLeft then ColBound(Unbounded, Excluded(v)) else ColBound(Excluded(v), Unbounded)
    case GtEq => if columnLeft then ColBound(Included(v), Unbounded) else ColBound(Unbounded, Included(v))
    case LtEq => if columnLeft then ColBound(Unbounded, Included(v)) else ColBound(Included(v), Unbounded)
    case _ => ColBound(Included(v), Included(v))
  }

  /** The bounds from comparing the column with an expression whose value may be known. */
  function SideBounds(op: BinaryOp, other: KBExpr, columnLeft: bool, t: ColType): seq<ColBound> {
    match EvaluateKB(other)
    case Ok(Some(None)) => []
    case Ok(Some(Some(v))) => if TypeOf(v) == t then [LeafBound(op, v, columnLeft)] else [FULL]
    case _ => [FULL]
  }

  /** `boolean_leaf_constraint`. */
  function LeafBounds(op: BinaryOp, l: KBExpr, r: KBExpr, col: ColName, t: ColType): seq<ColBound> {
    if l.KeyColumn? then (if l.col == col then SideBounds(op, r, true, t) else [FULL])
    else if r.KeyColumn? then (if r.col == col then SideBounds(op, l, false, t) else [FULL])
    else match EvaluateKB(KBinary(op, l, r))
      case Ok(Some(v)) => if v == Some(BoolVal(false)) || v == None then [] else [FULL]
      case _ => [FULL]
  }

  /** `compute_col_bounds`. */
  function ColBounds(e: KBExpr, col: ColName, t: ColType): seq<ColBound> {
    match e
    case KBinary(op, l, r) =>
      if op in {Gt, Lt, GtEq, LtEq, Spaceship, Eq} then LeafBounds(op, l, r, col, t)
      else if op == And then IntersectAll(ColBounds(l, col, t), ColBounds(r, col, t))
      else if op == Or then ColBounds(l, col, t) + ColBounds(r, col, t)
      else [FULL]
    case KValue(v) => if v == None || v == Some(BoolVal(false)) then [] else [FULL]
    case _ => [FULL]
  }

  datatype PolyColBound = PolyColBound(t: ColType, bound: ColBound)

  type KeyBound = seq<PolyColBound>

  type PrimaryKey = seq<ColVal>

  predicate InKeyBound(kb: KeyBound, pk: PrimaryKey) {
    |kb| == |pk| && forall k | 0 <= k < |pk| :: TypeOf(pk[k]) == kb[k].t && In(kb[k].bound, pk[k])
  }

  ghost predicate InRegion(region: seq<KeyBound>, pk: PrimaryKey) {
    exists k :: 0 <= k < |region| && InKeyBound(region[k], pk)
  }

  /** A key of the table. */
  predicate Conforms(keys: KeyCols, pk: PrimaryKey) {
    |pk| == |keys| && forall k | 0 <= k < |pk| :: TypeOf(pk[k]) == keys[k].1
  }

  /** The bounds of one column, whether or not the expression could be built. */
  function BoundsOf(kb: Result<KBExpr>, key: (ColName, ColType)): seq<ColBound> {
    match kb
    case Ok(e) => ColBounds(e, key.0, key.1)
    case Err => [FULL]
  }

  /** The columns of a row and of its context, as the clause sees them. */
  ghost predicate Agrees(env: Env, known: Env, source: string, keys: KeyCols, pk: PrimaryKey)
    requires |pk| == |keys|
  {
    && (forall c | c in known :: c in env && env[c] == known[c])
    && (forall k | 0 <= k < |keys| ::
          ColumnRef(source, keys[k].0) in env && env[ColumnRef(source, keys[k].0)] == Some(pk[k]))
  }

  // ---------------------------------------------------------------------------------------------
  //  One column
  // ---------------------------------------------------------------------------------------------

  /** `k` and `c` come from the same clause, of which `k` knows less. */
  ghost predicate Abstracts(k: KBExpr, c: CExpr, col: ColName, x: ColVal)
  {
    match k
    case KeyColumn(n) => c.CValue? && (n == col ==> c.val == Some(x))
    case Unknown => c.CValue?
    case KValue(v) => c == CValue(v)
    case KUnary(op, y) => c.CUnary? && c.op == op && Abstracts(y, c.expr, col, x)
    case KBinary(op, l, r) => c.CBinary? && c.bop == op && Abstracts(l, c.left, col, x) && Abstracts(r, c.right, col, x)
  }

  /** The two ways of replacing the columns of a clause agree. */
  lemma {:induction false} BothConstructions(e: ValExpr, known: Env, source: string, keys: KeyCols,
                                             env: Env, vals: seq<ColValN>, next: nat, pk: PrimaryKey, i: nat)
    requires |pk| == |keys| && i < |keys| && Agrees(env, known, source, keys, pk)
    requires Columns(e) <= env.Keys && next + Subqueries(e) <= |vals|
    requires ConstructKB(e, known, source, keys).Ok? && ConstructC(e, env, vals, next).Ok?
    ensures Abstracts(ConstructKB(e, known, source, keys).value, ConstructC(e, env, vals, next).value.0, keys[i].0, pk[i])
  {
    match e
    case Unary(op, y) => BothConstructions(y, known, source, keys, env, vals, next, pk, i);
    case Binary(op, l, r) =>
      BothConstructions(l, known, source, keys, env, vals, next, pk, i);
      BothConstructions(r, known, source, keys, env, vals, next + Subqueries(l), pk, i);
    case _ =>
  }

  /** A value that does not depend on anything unknown is the value. */
  lemma {:induction false} KnownValue(k: KBExpr, c: CExpr, col: ColName, x: ColVal)
    requires Abstracts(k, c, col, x) && EvaluateKB(k).Ok? && EvaluateKB(k).value.Some?
    ensures EvaluateC(c) == Ok(EvaluateKB(k).value.value)
  {
    match k
    case KUnary(op, y) => KnownValue(y, c.expr, col, x);
    case KBinary(op, l, r) =>
      KnownValue(l, c.left, col, x);
      KnownValue(r, c.right, col, x);
    case _ =>
  }

  /** A comparison is true exactly inside its interval, if it is one of integers or for equality; the
      others are not defined on other types. */
  lemma {:induction false} ComparisonBound(op: BinaryOp, v: ColVal, x: ColVal, columnLeft: bool)
    requires op in {Gt, Lt, GtEq, LtEq, Spaceship, Eq} && TypeOf(v) == TypeOf(x)
    ensures (if columnLeft then EvalBinary(op, Some(x), Some(v)) else EvalBinary(op, Some(v), Some(x))) == Ok(TRUE)
      <==> In(LeafBound(op, v, columnLeft), x) && (v.IntVal? || op in {Spaceship, Eq})
  {
    LessTotal(v, x);
  }

  lemma {:induction false} SideSound(op: BinaryOp, other: KBExpr, c: CExpr, columnLeft: bool, col: ColName, x: ColVal)
    requires op in {Gt, Lt, GtEq, LtEq, Spaceship, Eq} && Abstracts(other, c, col, x)
    requires !InAny(SideBounds(op, other, columnLeft, TypeOf(x)), x)
    ensures EvaluateC(if columnLeft then CBinary(op, CValue(Some(x)), c) else CBinary(op, c, CValue(Some(x)))) != Ok(TRUE)
  {
    InOne(FULL, x);
    var kv := EvaluateKB(other);
    assert kv.Ok? && kv.value.Some?;
    KnownValue(other, c, col, x);
    if kv.value.value.Some? {
      var v := kv.value.value.value;
      InOne(LeafBound(op, v, columnLeft), x);
      ComparisonBound(op, v, x, columnLeft);
    }
  }

  lemma {:induction false} LeafSound(k: KBExpr, c: CExpr, col: ColName, x: ColVal)
    requires k.KBinary? && k.bop in {Gt, Lt, GtEq, LtEq, Spaceship, Eq} && Abstracts(k, c, col, x)
    requires !InAny(LeafBounds(k.bop, k.left, k.right, col, TypeOf(x)), x)
    ensures EvaluateC(c) != Ok(TRUE)
  {
    InOne(FULL, x);
    if k.left.KeyColumn? {
      SideSound(k.bop, k.right, c.right, true, col, x);
    } else if k.right.KeyColumn? {
      SideSound(k.bop, k.left, c.left, false, col, x);
    } else {
      KnownValue(k, c, col, x);
    }
  }

  /** A conjunction is true only if both sides are, a disjunction only if one side is. */
  lemma {:induction false} TrueSides(c: CExpr)
    requires c.CBinary? && EvaluateC(c) == Ok(TRUE)
    ensures c.bop == And ==> EvaluateC(c.left) == Ok(TRUE) && EvaluateC(c.right) == Ok(TRUE)
    ensures c.bop == Or ==> EvaluateC(c.left) == Ok(TRUE) || EvaluateC(c.right) == Ok(TRUE)
  {
  }

  /** Outside the bounds of a column, the clause does not accept. */
  lemma {:induction false} ColBoundsSound(k: KBExpr, c: CExpr, col: ColName, x: ColVal)
    requires Abstracts(k, c, col, x) && !InAny(ColBounds(k, col, TypeOf(x)), x)
    ensures EvaluateC(c) != Ok(TRUE)
  {
    InOne(FULL, x);
    if k.KBinary? && EvaluateC(c) == Ok(TRUE) {
      TrueSides(c);
      hide EvaluateC, InAny, IntersectAll, In;
      var a, b := ColBounds(k.left, col, TypeOf(x)), ColBounds(k.right, col, TypeOf(x));
      if k.bop in {Gt, Lt, GtEq, LtEq, Spaceship, Eq} {
        LeafSound(k, c, col, x);
      } else if k.bop == And {
        IntersectAllExact(a, b, x);
        if InAny(a, x) { ColBoundsSound(k.right, c.right, col, x); } else { ColBoundsSound(k.left, c.left, col, x); }
      } else if k.bop == Or {
        InAnyConcat(a, b, x);
        if EvaluateC(c.left) == Ok(TRUE) {
          ColBoundsSound(k.left, c.left, col, x);
        } else {
          ColBoundsSound(k.right, c.right, col, x);
        }
      }
    }
  }

  // ---------------------------------------------------------------------------------------------
  //  The whole key
  // ---------------------------------------------------------------------------------------------

  /** All ways to continue the bounds of a shorter key. */
  ghost predicate IsProduct(kb: Result<KBExpr>, keys: KeyCols, region: seq<KeyBound>) {
    forall pk | Conforms(keys, pk) ::
      InRegion(region, pk) <==> forall k | 0 <= k < |keys| :: InAny(BoundsOf(kb, keys[k]), pk[k])
  }

  /** The bound `kb` continued with every bound of the next column. */
  function Extend(kb: KeyBound, t: ColType, bs: seq<ColBound>): (r: seq<KeyBound>)
    ensures |r| == |bs| && forall k | 0 <= k < |bs| :: r[k] == kb + [PolyColBound(t, bs[k])]
  {
    seq(|bs|, k requires 0 <= k < |bs| => kb + [PolyColBound(t, bs[k])])
  }

  function ExtendAll(region: seq<KeyBound>, t: ColType, bs: seq<ColBound>): seq<KeyBound> {
    if region == [] then [] else ExtendAll(region[..|region| - 1], t, bs) + Extend(region[|region| - 1], t, bs)
  }

  lemma {:induction false} InRegionConcat(a: seq<KeyBound>, b: seq<KeyBound>, pk: PrimaryKey)
    ensures InRegion(a + b, pk) <==> InRegion(a, pk) || InRegion(b, pk)
  {
    if InRegion(a, pk) {
      var k :| 0 <= k < |a| && InKeyBound(a[k], pk);
      assert (a + b)[k] == a[k];
    }
    if InRegion(b, pk) {
      var k :| 0 <= k < |b| && InKeyBound(b[k], pk);
      assert (a + b)[|a| + k] == b[k];
    }
  }

  lemma {:induction false} InExtended(kb: KeyBound, p: PolyColBound, pk: PrimaryKey, x: ColVal)
    requires TypeOf(x) == p.t
    ensures InKeyBound(kb + [p], pk + [x]) <==> InKeyBound(kb, pk) && In(p.bound, x)
  {
    if |kb| == |pk| {
      assert (kb + [p])[|pk|] == p && (pk + [x])[|pk|] == x;
      assert forall k | 0 <= k < |pk| :: (kb + [p])[k] == kb[k] && (pk + [x])[k] == pk[k];
      if InKeyBound(kb + [p], pk + [x]) {
        forall k | 0 <= k < |pk| ensures TypeOf(pk[k]) == kb[k].t && In(kb[k].bound, pk[k]) {
          assert (kb + [p])[k] == kb[k] && (pk + [x])[k] == pk[k];
        }
      }
    }
  }

  lemma {:induction false} ExtendExact(kb: KeyBound, t: ColType, bs: seq<ColBound>, pk: PrimaryKey, x: ColVal)
    requires TypeOf(x) == t
    ensures InRegion(Extend(kb, t, bs), pk + [x]) <==> InKeyBound(kb, pk) && InAny(bs, x)
  {
    var r := Extend(kb, t, bs);
    forall k | 0 <= k < |bs| ensures InKeyBound(r[k], pk + [x]) <==> InKeyBound(kb, pk) && In(bs[k], x) {
      InExtended(kb, PolyColBound(t, bs[k]), pk, x);
    }
    hide InKeyBound, In;
    if InKeyBound(kb, pk) && InAny(bs, x) {
      var k :| 0 <= k < |bs| && In(bs[k], x);
      assert InKeyBound(r[k], pk + [x]);
    }
  }

  lemma {:induction false} ExtendAllExact(region: seq<KeyBound>, t: ColType, bs: seq<ColBound>, pk: PrimaryKey, x: ColVal)
    requires TypeOf(x) == t
    ensures InRegion(ExtendAll(region, t, bs), pk + [x]) <==> InRegion(region, pk) && InAny(bs, x)
  {
    if region != [] {
      var n := |region| - 1;
      ExtendAllExact(region[..n], t, bs, pk, x);
      ExtendExact(region[n], t, bs, pk, x);
      InRegionConcat(ExtendAll(region[..n], t, bs), Extend(region[n], t, bs), pk + [x]);
      InRegionConcat(region[..n], [region[n]], pk);
      assert region == region[..n] + [region[n]];
      OneKeyBound(region[n], pk);
    }
  }

  lemma {:induction false} OneKeyBound(kb: KeyBound, pk: PrimaryKey)
    ensures InRegion([kb], pk) <==> InKeyBound(kb, pk)
  {
    if InKeyBound(kb, pk) { assert InKeyBound([kb][0], pk); }
  }

  /** A key without columns lies in the region without constraints. */
  lemma {:induction false} ProductStart(kb: Result<KBExpr>)
    ensures IsProduct(kb, [], [[]])
  {
    forall pk | Conforms([], pk) ensures InRegion([[]], pk) { OneKeyBound([], pk); }
  }

  lemma {:induction false} ProductStep(kb: Result<KBExpr>, keys: KeyCols, n: nat, region: seq<KeyBound>)
    requires n < |keys| && IsProduct(kb, keys[..n], region)
    ensures IsProduct(kb, keys[..n + 1], ExtendAll(region, keys[n].1, BoundsOf(kb, keys[n])))
  {
    var bs, t := BoundsOf(kb, keys[n]), keys[n].1;
    forall pk | Conforms(keys[..n + 1], pk)
      ensures InRegion(ExtendAll(region, t, bs), pk)
          <==> forall k | 0 <= k < n + 1 :: InAny(BoundsOf(kb, keys[..n + 1][k]), pk[k])
    {
      var init := pk[..n];
      assert pk == init + [pk[n]];
      assert Conforms(keys[..n], init) by {
        assert forall k | 0 <= k < n :: keys[..n + 1][k] == keys[k] && init[k] == pk[k] && keys[..n][k] == keys[k];
      }
      assert TypeOf(pk[n]) == t by { assert keys[..n + 1][n] == keys[n]; }
      ExtendAllExact(region, t, bs, init, pk[n]);
      assert forall k | 0 <= k < n :: keys[..n + 1][k] == keys[..n][k] && pk[k] == init[k];
      assert keys[..n + 1][n] == keys[n];
      hide InRegion, InAny, BoundsOf;
      assert (forall k | 0 <= k < n + 1 :: InAny(BoundsOf(kb, keys[..n + 1][k]), pk[k]))
        <==> (forall k | 0 <= k < n :: InAny(BoundsOf(kb, keys[..n][k]), init[k])) && InAny(bs, pk[n]);
    }
  }

  /** `compute_key_region`. The columns with known values are not key columns. */
  method ComputeKeyRegion(e: ValExpr, known: Env, source: string, keys: KeyCols) returns (region: seq<KeyBound>)
    requires forall c | c in known :: !RefersToKey(source, keys, c)
    ensures IsProduct(ConstructKB(e, known, source, keys), keys, region)
  {
    var kb := ConstructKB(e, known, source, keys);
    region := [[]];
    ProductStart(kb);
    assert keys[..0] == [];
    var i := 0;
    while i < |keys|
      invariant 0 <= i <= |keys| && IsProduct(kb, keys[..i], region)
    {
      var bs := BoundsOf(kb, keys[i]);
      var next: seq<KeyBound> := [];
      var j := 0;
      while j < |region|
        invariant 0 <= j <= |region| && next == ExtendAll(region[..j], keys[i].1, bs)
      {
        var k := 0;
        ghost var before := next;
        while k < |bs|
          invariant 0 <= k <= |bs| && next == before + Extend(region[j], keys[i].1, bs)[..k]
        {
          next := next + [region[j] + [PolyColBound(keys[i].1, bs[k])]];
          k := k + 1;
        }
        assert region[..j + 1][..j] == region[..j];
        j := j + 1;
      }
      assert region[..j] == region;
      ProductStep(kb, keys, i, region);
      region := next;
      i := i + 1;
    }
    assert keys[..i] == keys;
  }

  /** Key-region soundness: a clause accepts no row whose key lies outside its key region, whatever
      the other columns and the subqueries evaluate to. */
  lemma {:induction false} KeyRegionSound(e: ValExpr, known: Env, source: string, keys: KeyCols, region: seq<KeyBound>,
                                          pk: PrimaryKey, env: Env, vals: seq<ColValN>, next: nat)
    requires IsProduct(ConstructKB(e, known, source, keys), keys, region)
    requires Conforms(keys, pk) && Agrees(env, known, source, keys, pk)
    requires Columns(e) <= env.Keys && next + Subqueries(e) <= |vals|
    requires !InRegion(region, pk)
    ensures !Accepts(e, env, vals, next)
  {
    var kb := ConstructKB(e, known, source, keys);
    var i :| 0 <= i < |keys| && !InAny(BoundsOf(kb, keys[i]), pk[i]);
    InOne(FULL, pk[i]);
    if ConstructC(e, env, vals, next).Ok? {
      BothConstructions(e, known, source, keys, env, vals, next, pk, i);
      ColBoundsSound(kb.value, ConstructC(e, env, vals, next).value.0, keys[i].0, pk[i]);
    }
  }

  // ---------------------------------------------------------------------------------------------
  //  When the region is tight
  // ---------------------------------------------------------------------------------------------

  /** A comparison of a key column with a known value of its type. */
  predicate Compares(k: KBExpr, col: ColName, other: KBExpr, keys: KeyCols) {
    && k.KBinary? && k.bop in {Gt, Lt, GtEq, LtEq, Spaceship, Eq}
    && ((k.left == KeyColumn(col) && k.right == other) || (!k.left.KeyColumn? && k.right == KeyColumn(col) && k.left == other))
    && IsKeyCol(keys, col) && EvaluateKB(other).Ok? && EvaluateKB(other).value.Some? && EvaluateKB(other).value.value.Some?
    && var v := EvaluateKB(other).value.value.value;
       (v.IntVal? || k.bop in {Spaceship, Eq}) && forall j | 0 <= j < |keys| && keys[j].0 == col :: keys[j].1 == TypeOf(v)
  }

  /** A conjunction of such comparisons. */
  predicate Conjunctive(k: KBExpr, keys: KeyCols) {
    || (k.KBinary? && k.bop == And && Conjunctive(k.left, keys) && Conjunctive(k.right, keys))
    || (k.KBinary? && k.left.KeyColumn? && Compares(k, k.left.col, k.right, keys))
    || (k.KBinary? && k.right.KeyColumn? && Compares(k, k.right.col, k.left, keys))
  }

  /** Both substitutions agree in every key column. */
  ghost predicate AbstractsAll(k: KBExpr, c: CExpr, keys: KeyCols, pk: PrimaryKey)
    requires |pk| == |keys|
  {
    forall i | 0 <= i < |keys| :: Abstracts(k, c, keys[i].0, pk[i])
  }

  lemma {:induction false} CompareTight(k: KBExpr, c: CExpr, keys: KeyCols, pk: PrimaryKey, col: ColName, other: KBExpr)
    requires Conforms(keys, pk) && AbstractsAll(k, c, keys, pk) && Compares(k, col, other, keys)
    requires forall i | 0 <= i < |keys| :: InAny(ColBounds(k, keys[i].0, keys[i].1), pk[i])
    ensures EvaluateC(c) == Ok(TRUE)
  {
    var j :| 0 <= j < |keys| && keys[j].0 == col;
    var v := EvaluateKB(other).value.value.value;
    var left := k.left == KeyColumn(col) && k.right == other;
    assert Abstracts(k, c, col, pk[j]);
    assert ColBounds(k, col, keys[j].1) == [LeafBound(k.bop, v, left)];
    InOne(LeafBound(k.bop, v, left), pk[j]);
    ComparisonBound(k.bop, v, pk[j], left);
    var side := if left then c.right else c.left;
    assert Abstracts(k.left, c.left, col, pk[j]) && Abstracts(k.right, c.right, col, pk[j]);
    assert left ==> Abstracts(KeyColumn(col), c.left, col, pk[j]);
    assert !left ==> Abstracts(KeyColumn(col), c.right, col, pk[j]);
    assert c.CBinary? && c.bop == k.bop && (if left then c.left else c.right) == CValue(Some(pk[j])) && Abstracts(other, side, col, pk[j]);
    KnownValue(other, side, col, pk[j]);
    CompareValue(c.bop, pk[j], side, v, left);
    hide EvaluateC, EvaluateKB, Abstracts, EvalBinary;
    assert c == if left then CBinary(c.bop, CValue(Some(pk[j])), side) else CBinary(c.bop, side, CValue(Some(pk[j])));
  }

  lemma {:induction false} CompareValue(op: BinaryOp, x: ColVal, side: CExpr, v: ColVal, left: bool)
    requires EvaluateC(side) == Ok(Some(v))
    ensures EvaluateC(CBinary(op, CValue(Some(x)), side)) == EvalBinary(op, Some(x), Some(v))
    ensures EvaluateC(CBinary(op, side, CValue(Some(x)))) == EvalBinary(op, Some(v), Some(x))
  {
    hide EvalBinary;
  }

  lemma {:induction false} BoundsTight(k: KBExpr, c: CExpr, keys: KeyCols, pk: PrimaryKey)
    requires Conforms(keys, pk) && AbstractsAll(k, c, keys, pk) && Conjunctive(k, keys) && c.CBinary? && c.bop == k.bop
    requires forall i | 0 <= i < |keys| :: InAny(ColBounds(k, keys[i].0, keys[i].1), pk[i])
    ensures EvaluateC(c) == Ok(TRUE)
  {
    hide EvaluateC, EvaluateKB, ColBounds, InAny, Abstracts, Compares;
    if k.bop == And && Conjunctive(k.left, keys) && Conjunctive(k.right, keys) {
      forall i | 0 <= i < |keys|
        ensures Abstracts(k.left, c.left, keys[i].0, pk[i]) && Abstracts(k.right, c.right, keys[i].0, pk[i])
        ensures InAny(ColBounds(k.left, keys[i].0, keys[i].1), pk[i]) && InAny(ColBounds(k.right, keys[i].0, keys[i].1), pk[i])
      {
        AndTight(k, c, keys[i].0, pk[i]);
      }
      HasKey(k.left, keys);
      HasKey(k.right, keys);
      SameShape(k.left, c.left, keys[0].0, pk[0]);
      SameShape(k.right, c.right, keys[0].0, pk[0]);
      hide Conjunctive;
      BoundsTight(k.left, c.left, keys, pk);
      BoundsTight(k.right, c.right, keys, pk);
      BothTrue(c);
    } else if k.left.KeyColumn? && Compares(k, k.left.col, k.right, keys) {
      CompareTight(k, c, keys, pk, k.left.col, k.right);
    } else {
      CompareTight(k, c, keys, pk, k.right.col, k.left);
    }
  }

  lemma {:induction false} BothTrue(c: CExpr)
    requires c.CBinary? && c.bop == And && EvaluateC(c.left) == Ok(TRUE) && EvaluateC(c.right) == Ok(TRUE)
    ensures EvaluateC(c) == Ok(TRUE)
  {
  }

  lemma {:induction false} AndTight(k: KBExpr, c: CExpr, col: ColName, x: ColVal)
    requires k.KBinary? && k.bop == And && Abstracts(k, c, col, x) && InAny(ColBounds(k, col, TypeOf(x)), x)
    ensures c.CBinary? && Abstracts(k.left, c.left, col, x) && Abstracts(k.right, c.right, col, x)
    ensures InAny(ColBounds(k.left, col, TypeOf(x)), x) && InAny(ColBounds(k.right, col, TypeOf(x)), x)
  {
    IntersectAllExact(ColBounds(k.left, col, TypeOf(x)), ColBounds(k.right, col, TypeOf(x)), x);
  }

  lemma {:induction false} SameShape(k: KBExpr, c: CExpr, col: ColName, x: ColVal)
    requires k.KBinary? && Abstracts(k, c, col, x)
    ensures c.CBinary? && c.bop == k.bop
  {
  }

  lemma {:induction false} HasKey(k: KBExpr, keys: KeyCols)
    requires Conjunctive(k, keys)
    ensures keys != [] && k.KBinary?
  {
    if k.bop == And { HasKey(k.left, keys); }
  }

  /** The key region of a conjunction of comparisons of key columns with known values is tight: a key lies
      in it exactly if the clause accepts. */
  lemma {:induction false} KeyRegionTight(e: ValExpr, known: Env, source: string, keys: KeyCols, region: seq<KeyBound>,
                                          pk: PrimaryKey, env: Env, vals: seq<ColValN>, next: nat)
    requires IsProduct(ConstructKB(e, known, source, keys), keys, region)
    requires Conforms(keys, pk) && Agrees(env, known, source, keys, pk)
    requires Columns(e) <= env.Keys && next + Subqueries(e) <= |vals|
    requires ConstructKB(e, known, source, keys).Ok? && Conjunctive(ConstructKB(e, known, source, keys).value, keys)
    ensures InRegion(region, pk) <==> Accepts(e, env, vals, next)
  {
    var k := ConstructKB(e, known, source, keys).value;
    if !InRegion(region, pk) {
      KeyRegionSound(e, known, source, keys, region, pk, env, vals, next);
    } else {
      ConstructedToo(e, known, source, keys, env, vals, next);
      var c := ConstructC(e, env, vals, next).value.0;
      forall i | 0 <= i < |keys| ensures Abstracts(k, c, keys[i].0, pk[i]) {
        BothConstructions(e, known, source, keys, env, vals, next, pk, i);
      }
      HasKey(k, keys);
      assert Abstracts(k, c, keys[0].0, pk[0]);
      forall i | 0 <= i < |keys| ensures InAny(ColBounds(k, keys[i].0, keys[i].1), pk[i]) {
        assert InAny(BoundsOf(Ok(k), keys[i]), pk[i]);
      }
      BoundsTight(k, c, keys, pk);
    }
  }

  /** One substitution succeeds if the other does. */
  lemma {:induction false} ConstructedToo(e: ValExpr, known: Env, source: string, keys: KeyCols, env: Env, vals: seq<ColValN>, next: nat)
    requires Columns(e) <= env.Keys && next + Subqueries(e) <= |vals|
    ensures ConstructKB(e, known, source, keys).Ok? <==> ConstructC(e, env, vals, next).Ok?
  {
    match e
    case Unary(op, y) => ConstructedToo(y, known, source, keys, env, vals, next);
    case Binary(op, l, r) =>
      ConstructedToo(l, known, source, keys, env, vals, next);
      ConstructedToo(r, known, source, keys, env, vals, next + Subqueries(l));
    case _ =>
  }
}
