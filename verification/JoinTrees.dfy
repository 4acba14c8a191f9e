/** Join trees and the bag of rows they evaluate to under a dependency graph (src/join_read_es.rs:708-790,
    src/sql_ast.rs:330-372). A conjunction counts as true or not true: evaluation errors are not told from
    NULL. */
module JoinTrees {
  import opened Wrappers
  import opened Values
  import opened Expressions
  import opened Bags
  import opened JoinBags
  import opened JoinLaws
  import opened JoinPlans

  /** What the sources of leaves and the subqueries return, given the values of the columns they use. */
  datatype World = World(table: (nat, seq<ColValN>) -> multiset<Env>, subquery: (nat, seq<ColValN>) -> ColValN)

  /** A leaf selects from a source, which uses some columns around it. It knows the columns of the source
      under the name `inside`; the rest of the tree knows them under `alias`. */
  datatype JoinNode =
    | JoinLeaf(alias: string, lateral: bool, source: nat, uses: seq<ColumnRef>, inside: string, cols: set<ColName>, selection: ValExpr)
    | JoinInner(left: JoinNode, right: JoinNode, jt: JoinType, weak: seq<ValExpr>, strong: seq<ValExpr>)

  // ---------------------------------------------------------------------------------------------
  //  Expressions in a world
  // ---------------------------------------------------------------------------------------------

  /** The columns an expression uses, in its subqueries too. */
  function Refs(e: ValExpr): set<ColumnRef> {
    match e
    case Column(c) => {c}
    case Unary(_, x) => Refs(x)
    case Binary(_, l, r) => Refs(l) + Refs(r)
    case Value(_) => {}
    case Subquery(_, uses) => set c | c in uses
  }

  function Tables(e: ValExpr): set<string> {
    set c | c in Refs(e) :: c.table
  }

  /** The values of the columns a subquery uses. */
  function Arguments(uses: seq<ColumnRef>, env: Env): seq<ColValN> {
    seq(|uses|, k requires 0 <= k < |uses| => if uses[k] in env then env[uses[k]] else None)
  }

  function Eval(w: World, e: ValExpr, env: Env): Result<ColValN> {
    match e
    case Column(c) => if c in env then Ok(env[c]) else Err
    case Value(lit) => LiteralValue(lit)
    case Subquery(q, uses) => Ok(w.subquery(q, Arguments(uses, env)))
    case Unary(op, x) => (
      match Eval(w, x, env)
      case Ok(v) => EvalUnary(op, v)
      case Err => Err)
    case Binary(op, l, r) => (
      match (Eval(w, l, env), Eval(w, r, env))
      case (Ok(a), Ok(b)) => EvalBinary(op, a, b)
      case _ => Err)
  }

  predicate IsTrue(w: World, e: ValExpr, env: Env) {
    Eval(w, e, env) == Ok(TRUE)
  }

  predicate AllTrue(w: World, es: seq<ValExpr>, env: Env) {
    forall k | 0 <= k < |es| :: IsTrue(w, es[k], env)
  }

  /** The same columns are known with the same values. */
  ghost predicate SameOn(cs: set<ColumnRef>, a: Env, b: Env) {
    forall c | c in cs :: (c in a <==> c in b) && (c in a ==> a[c] == b[c])
  }

  lemma {:induction false} EvalFrame(w: World, e: ValExpr, a: Env, b: Env)
    requires SameOn(Refs(e), a, b)
    ensures Eval(w, e, a) == Eval(w, e, b)
  {
    match e
    case Unary(_, x) => EvalFrame(w, x, a, b);
    case Binary(_, l, r) =>
      EvalFrame(w, l, a, b);
      EvalFrame(w, r, a, b);
    case Subquery(q, uses) =>
      assert Arguments(uses, a) == Arguments(uses, b) by {
        forall k | 0 <= k < |uses| ensures Arguments(uses, a)[k] == Arguments(uses, b)[k] { assert uses[k] in Refs(e); }
      }
    case _ =>
  }

  // ---------------------------------------------------------------------------------------------
  //  Trees in a world
  // ---------------------------------------------------------------------------------------------

  function Names(n: JoinNode): set<string> {
    match n
    case JoinLeaf(alias, _, _, _, _, _, _) => {alias}
    case JoinInner(l, r, _, _, _) => Names(l) + Names(r)
  }

  function Insides(n: JoinNode): set<string> {
    match n
    case JoinLeaf(_, _, _, _, inside, _, _) => {inside}
    case JoinInner(l, r, _, _, _) => Insides(l) + Insides(r)
  }

  function Schema(n: JoinNode): set<ColumnRef> {
    match n
    case JoinLeaf(alias, _, _, _, _, cols, _) => set c | c in cols :: ColumnRef(alias, c)
    case JoinInner(l, r, _, _, _) => Schema(l) + Schema(r)
  }

  function Nulls(n: JoinNode): Env {
    map c | c in Schema(n) :: None
  }

  /** The columns of a row of the source under a name. */
  function RowAs(name: string, cols: set<ColName>, row: Env, inside: string): Env {
    map c: ColumnRef | c in (set x | x in cols :: ColumnRef(name, x)) ::
      if ColumnRef(inside, c.col) in row then row[ColumnRef(inside, c.col)] else None
  }

  /** What a row of the source contributes to a leaf. */
  ghost function LeafRow(w: World, n: JoinNode, env: Env, row: Env): multiset<Env> {
    if n.JoinLeaf? && IsTrue(w, n.selection, env + RowAs(n.inside, n.cols, row, n.inside))
    then multiset{RowAs(n.alias, n.cols, row, n.inside)} else multiset{}
  }

  predicate IsLateral(n: JoinNode) { n.JoinLeaf? && n.lateral }

  function SkeletonOf(n: JoinNode): Skeleton {
    match n
    case JoinLeaf(_, lateral, _, _, _, _, _) => Leaf(lateral)
    case JoinInner(l, r, jt, _, _) => Node(jt, SkeletonOf(l), SkeletonOf(r))
  }

  /** The sides of a join in the order of its case, and the paths to them. */
  function FirstSide(n: JoinNode, c: Case): JoinNode
    requires n.JoinInner?
  {
    if c.leftFirst then n.left else n.right
  }

  function SecondSide(n: JoinNode, c: Case): JoinNode
    requires n.JoinInner?
  {
    if c.leftFirst then n.right else n.left
  }

  function FirstPath(path: Path, c: Case): Path { path + if c.leftFirst then "L" else "R" }

  function SecondPath(path: Path, c: Case): Path { path + if c.leftFirst then "R" else "L" }

  /** The columns a pair of rows is judged by. */
  function Merged(env: Env, f: Env, s: Env, c: Case): Env {
    if c.leftFirst then env + f + s else env + s + f
  }

  ghost function JoinOf(w: World, n: JoinNode, env: Env, c: Case): Join<Env, Env>
    requires n.JoinInner?
  {
    Join((f, s) => AllTrue(w, n.weak, Merged(env, f, s, c)), (f, s) => AllTrue(w, n.strong, Merged(env, f, s, c)),
         (f, s) => if c.leftFirst then f + s else s + f, Nulls(FirstSide(n, c)), Nulls(SecondSide(n, c)),
         c.firstOuter, c.Independent? && c.secondOuter)
  }

  /** The rows of a node in the surroundings `env`. A side that waits for the other is evaluated once for
      every row of it. */
  ghost function Rows(w: World, n: JoinNode, path: Path, g: Graph, env: Env): multiset<Env> {
    match n
    case JoinLeaf(_, _, source, uses, _, _, _) => Sum(w.table(source, Arguments(uses, env)), row => LeafRow(w, n, env, row))
    case JoinInner(_, _, jt, _, _) =>
      match CaseAt(g, path, jt)
      case None => multiset{}
      case Some(c) =>
        var first := Rows(w, FirstSide(n, c), FirstPath(path, c), g, env);
        if c.Dependent? then DependentBag(JoinOf(w, n, env, c), first, f => Rows(w, SecondSide(n, c), SecondPath(path, c), g, env + f))
        else JoinBag(JoinOf(w, n, env, c), first, Rows(w, SecondSide(n, c), SecondPath(path, c), g, env))
  }

  /** Names are unique, and no conjunction uses the names inside the leaves. */
  predicate WellFormed(n: JoinNode) {
    match n
    case JoinLeaf(alias, _, _, _, inside, _, _) => alias != inside
    case JoinInner(l, r, _, weak, strong) =>
      && WellFormed(l) && WellFormed(r)
      && (Names(l) + Insides(l)) !! (Names(r) + Insides(r))
      && (forall e | e in weak :: Tables(e) !! Insides(n))
      && (forall e | e in strong :: Tables(e) !! Insides(n))
  }

  /** The surroundings do not know the names of the tree. */
  predicate Avoids(env: Env, n: JoinNode) {
    forall c | c in env :: c.table !in Names(n) && c.table !in Insides(n)
  }

  lemma {:induction false} SchemaNames(n: JoinNode)
    ensures forall c | c in Schema(n) :: c.table in Names(n)
  {
    if n.JoinInner? {
      SchemaNames(n.left);
      SchemaNames(n.right);
    }
  }

  /** Every output row of a join is a pair of rows of the two sides, or one extended with NULLs. */
  lemma {:induction false} FromFirstHas<R(!new), O(!new)>(j: Join<R, O>, f: R, ss: multiset<R>, o: O)
    requires o in FromFirst(j, f, ss)
    ensures exists s :: (s in ss || s == j.noSecond) && o == j.mk(f, s)
  {
    if o in Pairs(j, f, ss) {
      SumFrom(ss, s => Pair(j, f, s), o);
      var s :| s in ss && o in Pair(j, f, s);
      assert o == j.mk(f, s);
    } else {
      assert o == j.mk(f, j.noSecond);
    }
  }

  lemma {:induction false} JoinHas<R(!new), O(!new)>(j: Join<R, O>, fs: multiset<R>, ss: multiset<R>, o: O)
    requires o in JoinBag(j, fs, ss)
    ensures exists f, s :: (f in fs || f == j.noFirst) && (s in ss || s == j.noSecond) && o == j.mk(f, s)
  {
    if o in FirstSum(j, fs, ss) {
      SumFrom(fs, f => FromFirst(j, f, ss), o);
      var f :| f in fs && o in FromFirst(j, f, ss);
      FromFirstHas(j, f, ss, o);
    } else {
      SumFrom(ss, s => FromSecond(j, fs, s), o);
      var s :| s in ss && o in FromSecond(j, fs, s);
      assert o == j.mk(j.noFirst, s);
    }
  }

  lemma {:induction false} DependentHas<R(!new), O(!new)>(j: Join<R, O>, fs: multiset<R>, second: R -> multiset<R>, o: O)
    requires o in DependentBag(j, fs, second)
    ensures exists f, s :: f in fs && (s in second(f) || s == j.noSecond) && o == j.mk(f, s)
  {
    SumFrom(fs, f => FromFirst(j, f, second(f)), o);
    var f :| f in fs && o in FromFirst(j, f, second(f));
    FromFirstHas(j, f, second(f), o);
  }

  /** Every row of a join is made of a row of each side, or of NULLs. */
  lemma {:induction false} RowHasSides(w: World, n: JoinNode, path: Path, g: Graph, env: Env, c: Case, row: Env) returns (f: Env, s: Env, around: Env)
    requires n.JoinInner? && CaseAt(g, path, n.jt) == Some(c) && row in Rows(w, n, path, g, env)
    ensures row == if c.leftFirst then f + s else s + f
    ensures f in Rows(w, FirstSide(n, c), FirstPath(path, c), g, env) || f == Nulls(FirstSide(n, c))
    ensures s in Rows(w, SecondSide(n, c), SecondPath(path, c), g, around) || s == Nulls(SecondSide(n, c))
  {
    var j, fs := JoinOf(w, n, env, c), Rows(w, FirstSide(n, c), FirstPath(path, c), g, env);
    if c.Dependent? {
      var second := (f: Env) => Rows(w, SecondSide(n, c), SecondPath(path, c), g, env + f);
      assert Rows(w, n, path, g, env) == DependentBag(j, fs, second);
      DependentHas(j, fs, second, row);
      f, s :| f in fs && (s in second(f) || s == j.noSecond) && row == j.mk(f, s);
      around := env + f;
    } else {
      var ss := Rows(w, SecondSide(n, c), SecondPath(path, c), g, env);
      JoinHas(j, fs, ss, row);
      f, s :| (f in fs || f == j.noFirst) && (s in ss || s == j.noSecond) && row == j.mk(f, s);
      around := env;
    }
  }

  lemma {:induction false} KeysOfNulls(n: JoinNode)
    ensures Nulls(n).Keys == Schema(n)
  {
  }

  lemma {:induction false} LeafHasSchema(w: World, n: JoinNode, path: Path, g: Graph, env: Env, row: Env)
    requires n.JoinLeaf? && row in Rows(w, n, path, g, env)
    ensures row.Keys == Schema(n)
  {
    var rows := w.table(n.source, Arguments(n.uses, env));
    SumFrom(rows, row => LeafRow(w, n, env, row), row);
    var r :| r in rows && row in LeafRow(w, n, env, r);
    assert row == RowAs(n.alias, n.cols, r, n.inside);
  }

  lemma {:induction false} NoCaseNoRows(w: World, n: JoinNode, path: Path, g: Graph, env: Env)
    requires n.JoinInner? && CaseAt(g, path, n.jt).None?
    ensures Rows(w, n, path, g, env) == multiset{}
  {
  }

  lemma {:induction false} SchemaOfSides(n: JoinNode, c: Case)
    requires n.JoinInner?
    ensures Schema(n) == Schema(FirstSide(n, c)) + Schema(SecondSide(n, c))
  {
  }

  /** The rows of a node have its columns. */
  lemma {:induction false} RowsHaveSchema(w: World, n: JoinNode, path: Path, g: Graph, env: Env, row: Env)
    requires row in Rows(w, n, path, g, env)
    ensures row.Keys == Schema(n)
  {
    hide Rows, Nulls, JoinOf, Schema, CaseAt;
    if n.JoinLeaf? {
      LeafHasSchema(w, n, path, g, env, row);
    } else {
      if CaseAt(g, path, n.jt).None? { NoCaseNoRows(w, n, path, g, env); }
      var c := CaseAt(g, path, n.jt).value;
      var f, s, around := RowHasSides(w, n, path, g, env, c, row);
      SchemaOfSides(n, c);
      KeysOfNulls(FirstSide(n, c));
      KeysOfNulls(SecondSide(n, c));
      if f in Rows(w, FirstSide(n, c), FirstPath(path, c), g, env) { RowsHaveSchema(w, FirstSide(n, c), FirstPath(path, c), g, env, f); }
      if s in Rows(w, SecondSide(n, c), SecondPath(path, c), g, around) { RowsHaveSchema(w, SecondSide(n, c), SecondPath(path, c), g, around, s); }
    }
  }

  // ---------------------------------------------------------------------------------------------
  //  What a node uses
  // ---------------------------------------------------------------------------------------------

  function TablesOf(es: seq<ValExpr>): (ts: set<string>)
    ensures forall t :: t in ts <==> exists e :: e in es && t in Tables(e)
  {
    set e, t | e in es && t in Tables(e) :: t
  }

  /** The names a node uses anywhere. */
  function Uses(n: JoinNode): set<string> {
    match n
    case JoinLeaf(_, _, _, uses, _, _, selection) => (set c | c in uses :: c.table) + Tables(selection)
    case JoinInner(l, r, _, weak, strong) => Uses(l) + Uses(r) + TablesOf(weak) + TablesOf(strong)
  }

  /** Every side of a join finds the columns it uses: it uses none of the other side, unless it waits
      for that. */
  predicate Scoped(n: JoinNode, path: Path, g: Graph) {
    n.JoinInner? ==>
      && Scoped(n.left, path + "L", g) && Scoped(n.right, path + "R", g)
      && match CaseAt(g, path, n.jt)
         case None => true
         case Some(c) => Uses(FirstSide(n, c)) !! Names(SecondSide(n, c))
                         && (c.Independent? ==> Uses(SecondSide(n, c)) !! Names(FirstSide(n, c)))
  }

  /** The same values for all columns of the given names. */
  ghost predicate Agree(names: set<string>, a: Env, b: Env) {
    forall c: ColumnRef | c.table in names :: (c in a <==> c in b) && (c in a ==> a[c] == b[c])
  }

  lemma {:induction false} AgreeTrue(w: World, e: ValExpr, names: set<string>, a: Env, b: Env)
    requires Tables(e) <= names && Agree(names, a, b)
    ensures IsTrue(w, e, a) == IsTrue(w, e, b)
  {
    forall x | x in Refs(e) ensures x.table in names { assert x.table in Tables(e); }
    EvalFrame(w, e, a, b);
  }

  lemma {:induction false} AgreeAllTrue(w: World, es: seq<ValExpr>, names: set<string>, a: Env, b: Env)
    requires TablesOf(es) <= names && Agree(names, a, b)
    ensures AllTrue(w, es, a) == AllTrue(w, es, b)
  {
    forall k | 0 <= k < |es| ensures IsTrue(w, es[k], a) == IsTrue(w, es[k], b) {
      assert Tables(es[k]) <= names by { assert es[k] in es; }
      AgreeTrue(w, es[k], names, a, b);
    }
  }

  lemma {:induction false} AgreePlus(names: set<string>, a: Env, b: Env, f: Env)
    requires Agree(names, a, b)
    ensures Agree(names, a + f, b + f)
  {
  }

  lemma {:induction false} AgreeFewer(few: set<string>, many: set<string>, a: Env, b: Env)
    requires few <= many && Agree(many, a, b)
    ensures Agree(few, a, b)
  {
  }

  lemma {:induction false} FrameLeaf(w: World, n: JoinNode, path: Path, g: Graph, a: Env, b: Env)
    requires n.JoinLeaf? && Agree(Uses(n), a, b)
    ensures Rows(w, n, path, g, a) == Rows(w, n, path, g, b)
  {
    assert Arguments(n.uses, a) == Arguments(n.uses, b) by {
      forall k | 0 <= k < |n.uses| ensures Arguments(n.uses, a)[k] == Arguments(n.uses, b)[k] {
        assert n.uses[k] in n.uses && n.uses[k].table in Uses(n);
      }
    }
    var rows := w.table(n.source, Arguments(n.uses, a));
    forall row | row in rows ensures LeafRow(w, n, a, row) == LeafRow(w, n, b, row) {
      var inside := RowAs(n.inside, n.cols, row, n.inside);
      AgreePlus(Uses(n), a, b, inside);
      AgreeTrue(w, n.selection, Uses(n), a + inside, b + inside);
    }
    SumSame(rows, row => LeafRow(w, n, a, row), row => LeafRow(w, n, b, row));
  }

  /** Joins whose conjunctions agree on all pairs. */
  lemma {:induction false} FrameJoin(w: World, n: JoinNode, a: Env, b: Env, c: Case)
    requires n.JoinInner? && Agree(Uses(n), a, b)
    ensures SameJoin(JoinOf(w, n, a, c), JoinOf(w, n, b, c))
  {
    var j, k := JoinOf(w, n, a, c), JoinOf(w, n, b, c);
    forall f, s ensures j.weak(f, s) == k.weak(f, s) && j.strong(f, s) == k.strong(f, s) {
      AgreePlus(Uses(n), a, b, f);
      AgreePlus(Uses(n), a, b, s);
      AgreePlus(Uses(n), a + f, b + f, s);
      AgreePlus(Uses(n), a + s, b + s, f);
      AgreeAllTrue(w, n.weak, Uses(n), Merged(a, f, s, c), Merged(b, f, s, c));
      AgreeAllTrue(w, n.strong, Uses(n), Merged(a, f, s, c), Merged(b, f, s, c));
    }
  }

  /** The rows of a node depend on the columns it uses alone. */
  lemma {:induction false} RowsFrame(w: World, n: JoinNode, path: Path, g: Graph, a: Env, b: Env)
    requires Agree(Uses(n), a, b)
    ensures Rows(w, n, path, g, a) == Rows(w, n, path, g, b)
    decreases n, 1
  {
    if n.JoinLeaf? {
      FrameLeaf(w, n, path, g, a, b);
    } else if CaseAt(g, path, n.jt).None? {
      NoCaseNoRows(w, n, path, g, a);
      NoCaseNoRows(w, n, path, g, b);
    } else {
      var c := CaseAt(g, path, n.jt).value;
      FrameJoin(w, n, a, b, c);
      AgreeFewer(Uses(FirstSide(n, c)), Uses(n), a, b);
      AgreeFewer(Uses(SecondSide(n, c)), Uses(n), a, b);
      RowsFrame(w, FirstSide(n, c), FirstPath(path, c), g, a, b);
      hide Rows, JoinOf, Agree, Uses, CaseAt;
      if c.Dependent? {
        FrameDependent(w, n, path, g, a, b, c);
      } else {
        RowsFrame(w, SecondSide(n, c), SecondPath(path, c), g, a, b);
        RowsIndependent(w, n, path, g, a, c);
        RowsIndependent(w, n, path, g, b, c);
        SameJoinBag(JoinOf(w, n, a, c), JoinOf(w, n, b, c), Rows(w, FirstSide(n, c), FirstPath(path, c), g, a),
                    Rows(w, SecondSide(n, c), SecondPath(path, c), g, a));
      }
    }
  }

  lemma {:induction false} FrameDependent(w: World, n: JoinNode, path: Path, g: Graph, a: Env, b: Env, c: Case)
    requires n.JoinInner? && CaseAt(g, path, n.jt) == Some(c) && c.Dependent? && Agree(Uses(SecondSide(n, c)), a, b)
    requires SameJoin(JoinOf(w, n, a, c), JoinOf(w, n, b, c))
    requires Rows(w, FirstSide(n, c), FirstPath(path, c), g, a) == Rows(w, FirstSide(n, c), FirstPath(path, c), g, b)
    ensures Rows(w, n, path, g, a) == Rows(w, n, path, g, b)
    decreases n, 0
  {
    hide Rows, JoinOf, Agree, Uses, CaseAt;
    var sa, sb := SecondRows(w, n, path, g, a, c), SecondRows(w, n, path, g, b, c);
    forall f ensures sa(f) == sb(f) {
      AgreePlus(Uses(SecondSide(n, c)), a, b, f);
      RowsFrame(w, SecondSide(n, c), SecondPath(path, c), g, a + f, b + f);
    }
    RowsDependent(w, n, path, g, a, c, sa);
    RowsDependent(w, n, path, g, b, c, sb);
    SameDependent(JoinOf(w, n, a, c), JoinOf(w, n, b, c), Rows(w, FirstSide(n, c), FirstPath(path, c), g, a), sa, sb);
  }

  /** The rows of a join in a case without a dependency. */
  lemma {:induction false} RowsIndependent(w: World, n: JoinNode, path: Path, g: Graph, env: Env, c: Case)
    requires n.JoinInner? && CaseAt(g, path, n.jt) == Some(c) && c.Independent?
    ensures Rows(w, n, path, g, env)
         == JoinBag(JoinOf(w, n, env, c), Rows(w, FirstSide(n, c), FirstPath(path, c), g, env), Rows(w, SecondSide(n, c), SecondPath(path, c), g, env))
  {
  }

  /** The rows of the second side for a row of the first. */
  ghost function SecondRows(w: World, n: JoinNode, path: Path, g: Graph, env: Env, c: Case): (second: Env -> multiset<Env>)
    requires n.JoinInner?
    ensures forall f :: second(f) == Rows(w, SecondSide(n, c), SecondPath(path, c), g, if c.Dependent? then env + f else env)
  {
    (f: Env) => Rows(w, SecondSide(n, c), SecondPath(path, c), g, if c.Dependent? then env + f else env)
  }

  /** Without rows of the second side that are added again, every join is a dependent one. */
  lemma {:induction false} RowsDependent(w: World, n: JoinNode, path: Path, g: Graph, env: Env, c: Case, second: Env -> multiset<Env>)
    requires n.JoinInner? && CaseAt(g, path, n.jt) == Some(c) && (c.Independent? ==> !c.secondOuter)
    requires forall f :: second(f) == Rows(w, SecondSide(n, c), SecondPath(path, c), g, if c.Dependent? then env + f else env)
    ensures Rows(w, n, path, g, env) == DependentBag(JoinOf(w, n, env, c), Rows(w, FirstSide(n, c), FirstPath(path, c), g, env), second)
  {
    var j, fs := JoinOf(w, n, env, c), Rows(w, FirstSide(n, c), FirstPath(path, c), g, env);
    if c.Dependent? {
      var h := (f: Env) => Rows(w, SecondSide(n, c), SecondPath(path, c), g, env + f);
      assert Rows(w, n, path, g, env) == DependentBag(j, fs, h);
      hide Rows, JoinOf, FromFirst, DependentBag, JoinBag, CaseAt, FirstSide, SecondSide;
      SecondKept(j, j, fs, h, second);
    } else {
      var ss := Rows(w, SecondSide(n, c), SecondPath(path, c), g, env);
      assert Rows(w, n, path, g, env) == JoinBag(j, fs, ss) && !j.secondOuter;
      hide Rows, JoinOf, FromFirst, DependentBag, JoinBag, CaseAt, FirstSide, SecondSide;
      NoSecondOuter(j, fs, ss, second);
    }
  }
}
