/** Pushing a conjunction into a node (src/query_converter.rs:2173-2228) keeps the rows that satisfy it. */
module PushDown {
  import opened Wrappers
  import opened Expressions
  import opened Bags
  import opened JoinBags
  import opened JoinLaws
  import opened JoinPlans
  import opened JoinTrees

  /** Replaces the name of a leaf by the name inside it. */
  function RenamedRef(c: ColumnRef, alias: string, inside: string): ColumnRef {
    if c.table == alias then ColumnRef(inside, c.col) else c
  }

  function Renamed(e: ValExpr, alias: string, inside: string): ValExpr {
    match e
    case Column(c) => Column(RenamedRef(c, alias, inside))
    case Unary(op, x) => Unary(op, Renamed(x, alias, inside))
    case Binary(op, l, r) => Binary(op, Renamed(l, alias, inside), Renamed(r, alias, inside))
    case Value(_) => e
    case Subquery(q, uses) => Subquery(q, seq(|uses|, k requires 0 <= k < |uses| => RenamedRef(uses[k], alias, inside)))
  }

  const TRIVIAL := Value(Boolean(true))

  /** `push_expr_leaf`. */
  function PushLeaf(e: ValExpr, n: JoinNode): JoinNode
    requires n.JoinLeaf?
  {
    var x := Renamed(e, n.alias, n.inside);
    n.(selection := if n.selection == TRIVIAL then x else Binary(And, x, n.selection))
  }

  /** `push_expr`. */
  function Push(e: ValExpr, n: JoinNode): JoinNode {
    if n.JoinInner? then n.(strong := n.strong + [e]) else PushLeaf(e, n)
  }

  // ---------------------------------------------------------------------------------------------
  //  Pushing into a node keeps the rows that satisfy the conjunction
  // ---------------------------------------------------------------------------------------------

  /** The renamed expression means inside the leaf what the expression means outside. */
  lemma {:induction false} RenamedMeans(w: World, e: ValExpr, alias: string, inside: string, outer: Env, inner: Env)
    requires forall c | c in Refs(e) ::
      (c in outer <==> RenamedRef(c, alias, inside) in inner)
      && (c in outer ==> outer[c] == inner[RenamedRef(c, alias, inside)])
    ensures Eval(w, Renamed(e, alias, inside), inner) == Eval(w, e, outer)
  {
    match e
    case Unary(_, x) => RenamedMeans(w, x, alias, inside, outer, inner);
    case Binary(_, l, r) =>
      RenamedMeans(w, l, alias, inside, outer, inner);
      RenamedMeans(w, r, alias, inside, outer, inner);
    case Subquery(q, uses) =>
      var uses' := Renamed(e, alias, inside).uses;
      assert Arguments(uses', inner) == Arguments(uses, outer) by {
        forall k | 0 <= k < |uses| ensures Arguments(uses', inner)[k] == Arguments(uses, outer)[k] {
          assert uses[k] in Refs(e) && uses'[k] == RenamedRef(uses[k], alias, inside);
        }
      }
    case _ =>
  }

  lemma {:induction false} LeafSees(n: JoinNode, env: Env, row: Env, c: ColumnRef)
    requires n.JoinLeaf? && WellFormed(n) && Avoids(env, n) && c.table != n.inside
    ensures
      var outer, inner := env + RowAs(n.alias, n.cols, row, n.inside), env + RowAs(n.inside, n.cols, row, n.inside);
      var d := RenamedRef(c, n.alias, n.inside);
      (c in outer <==> d in inner) && (c in outer ==> outer[c] == inner[d])
  {
    var a, b := RowAs(n.alias, n.cols, row, n.inside), RowAs(n.inside, n.cols, row, n.inside);
    assert a.Keys == set x | x in n.cols :: ColumnRef(n.alias, x);
    assert b.Keys == set x | x in n.cols :: ColumnRef(n.inside, x);
  }

  lemma {:induction false} AndTrue(w: World, x: ValExpr, y: ValExpr, env: Env)
    ensures IsTrue(w, Binary(And, x, y), env) <==> IsTrue(w, x, env) && IsTrue(w, y, env)
  {
  }

  /** The conjunction joins the selection of the leaf. */
  lemma {:induction false} SelectionMeans(w: World, e: ValExpr, n: JoinNode, env: Env, row: Env)
    requires n.JoinLeaf? && WellFormed(n) && Avoids(env, n) && n.inside !in Tables(e)
    ensures var outer, inner := env + RowAs(n.alias, n.cols, row, n.inside), env + RowAs(n.inside, n.cols, row, n.inside);
      IsTrue(w, Push(e, n).selection, inner) <==> IsTrue(w, e, outer) && IsTrue(w, n.selection, inner)
  {
    var outer, inner := env + RowAs(n.alias, n.cols, row, n.inside), env + RowAs(n.inside, n.cols, row, n.inside);
    forall c | c in Refs(e) ensures (c in outer <==> RenamedRef(c, n.alias, n.inside) in inner)
                                 && (c in outer ==> outer[c] == inner[RenamedRef(c, n.alias, n.inside)]) {
      assert c.table in Tables(e);
      LeafSees(n, env, row, c);
    }
    hide RowAs, Tables, Renamed;
    RenamedMeans(w, e, n.alias, n.inside, outer, inner);
    AndTrue(w, Renamed(e, n.alias, n.inside), n.selection, inner);
  }

  lemma {:induction false} LeafCondition(w: World, e: ValExpr, n: JoinNode, env: Env, row: Env, p: Env -> bool)
    requires n.JoinLeaf? && WellFormed(n) && Avoids(env, n) && n.inside !in Tables(e)
    requires forall r :: p(r) == IsTrue(w, e, env + r)
    ensures LeafRow(w, Push(e, n), env, row) == Keep(LeafRow(w, n, env, row), p)
  {
    SelectionMeans(w, e, n, env, row);
    hide IsTrue, RowAs;
    KeepOne(RowAs(n.alias, n.cols, row, n.inside), p);
  }

  /** A leaf, summed over the rows of its source. */
  lemma {:induction false} LeafRows(w: World, n: JoinNode, path: Path, g: Graph, env: Env, h: Env -> multiset<Env>)
    requires n.JoinLeaf? && forall row :: h(row) == LeafRow(w, n, env, row)
    ensures Rows(w, n, path, g, env) == Sum(w.table(n.source, Arguments(n.uses, env)), h)
  {
    SumSame(w.table(n.source, Arguments(n.uses, env)), h, row => LeafRow(w, n, env, row));
  }

  lemma {:induction false} PushLeafMeans(w: World, e: ValExpr, n: JoinNode, path: Path, g: Graph, env: Env, p: Env -> bool)
    requires n.JoinLeaf? && WellFormed(n) && Avoids(env, n) && n.inside !in Tables(e)
    requires forall r :: p(r) == IsTrue(w, e, env + r)
    ensures Rows(w, Push(e, n), path, g, env) == Keep(Rows(w, n, path, g, env), p)
  {
    var n' := Push(e, n);
    forall row ensures LeafRow(w, n', env, row) == Keep(LeafRow(w, n, env, row), p) { LeafCondition(w, e, n, env, row, p); }
    var h, h' := (row: Env) => LeafRow(w, n, env, row), (row: Env) => LeafRow(w, n', env, row);
    LeafRows(w, n, path, g, env, h);
    LeafRows(w, n', path, g, env, h');
    SumKept(w.table(n.source, Arguments(n.uses, env)), h, h', p);
  }

  lemma {:induction false} OneMoreTrue(w: World, es: seq<ValExpr>, e: ValExpr, env: Env)
    ensures AllTrue(w, es + [e], env) <==> AllTrue(w, es, env) && IsTrue(w, e, env)
  {
    var all := es + [e];
    if AllTrue(w, all, env) {
      assert all[|es|] == e;
      forall k | 0 <= k < |es| ensures IsTrue(w, es[k], env) { assert all[k] == es[k]; }
    }
  }

  lemma {:induction false} PlusAssoc(a: Env, b: Env, c: Env)
    ensures a + b + c == a + (b + c)
  {
  }

  /** The joins of a node with and without one more strong conjunction. */
  lemma {:induction false} PushedJoins(w: World, e: ValExpr, n: JoinNode, env: Env, c: Case, f: Env, s: Env)
    requires n.JoinInner?
    ensures var j, k := JoinOf(w, Push(e, n), env, c), JoinOf(w, n, env, c);
      j.weak(f, s) == k.weak(f, s) && j.strong(f, s) == (k.strong(f, s) && IsTrue(w, e, env + k.mk(f, s)))
  {
    OneMoreTrue(w, n.strong, e, Merged(env, f, s, c));
    PlusAssoc(env, f, s);
    PlusAssoc(env, s, f);
  }

  lemma {:induction false} PushedShape(w: World, e: ValExpr, n: JoinNode, env: Env, c: Case, p: Env -> bool)
    requires n.JoinInner? && forall r :: p(r) == IsTrue(w, e, env + r)
    ensures var j, k := JoinOf(w, Push(e, n), env, c), JoinOf(w, n, env, c);
      SameShape(j, k) && forall f, s :: j.weak(f, s) == k.weak(f, s) && j.strong(f, s) == (k.strong(f, s) && p(k.mk(f, s)))
  {
    var j, k := JoinOf(w, Push(e, n), env, c), JoinOf(w, n, env, c);
    assert SameShape(j, k);
    hide JoinOf, IsTrue;
    forall f, s ensures j.weak(f, s) == k.weak(f, s) && j.strong(f, s) == (k.strong(f, s) && p(k.mk(f, s))) {
      PushedJoins(w, e, n, env, c, f, s);
    }
  }

  lemma {:induction false} PushInnerMeans(w: World, e: ValExpr, n: JoinNode, path: Path, g: Graph, env: Env, p: Env -> bool)
    requires n.JoinInner? && forall r :: p(r) == IsTrue(w, e, env + r)
    ensures Rows(w, Push(e, n), path, g, env) == Keep(Rows(w, n, path, g, env), p)
  {
    var n' := Push(e, n);
    if CaseAt(g, path, n.jt).Some? {
      var c := CaseAt(g, path, n.jt).value;
      PushedShape(w, e, n, env, c, p);
      var j, k := JoinOf(w, n', env, c), JoinOf(w, n, env, c);
      var fs := Rows(w, FirstSide(n, c), FirstPath(path, c), g, env);
      assert FirstSide(n', c) == FirstSide(n, c) && SecondSide(n', c) == SecondSide(n, c);
      hide Rows, JoinOf, CaseAt, FirstSide, SecondSide, Push;
      if c.Dependent? {
        var second := SecondRows(w, n, path, g, env, c);
        RowsDependent(w, n, path, g, env, c, second);
        RowsDependent(w, n', path, g, env, c, second);
        forall f | f in fs ensures FromFirst(j, f, second(f)) == Keep(FromFirst(k, f, second(f)), p) {
          StrongIsKeepRow(j, k, f, second(f), p);
        }
        StrongIsKeepDependent(j, k, fs, second, p);
      } else {
        RowsIndependent(w, n, path, g, env, c);
        RowsIndependent(w, n', path, g, env, c);
        StrongIsKeep(j, k, fs, Rows(w, SecondSide(n, c), SecondPath(path, c), g, env), p);
      }
    } else {
      assert Keep(multiset{}, p) == multiset{};
    }
  }

  /** Pushing a conjunction into a node keeps the rows that satisfy it. */
  lemma {:induction false} PushMeans(w: World, e: ValExpr, n: JoinNode, path: Path, g: Graph, env: Env, p: Env -> bool)
    requires WellFormed(n) && Avoids(env, n) && Tables(e) !! Insides(n)
    requires forall r :: p(r) == IsTrue(w, e, env + r)
    ensures Rows(w, Push(e, n), path, g, env) == Keep(Rows(w, n, path, g, env), p)
  {
    if n.JoinInner? { PushInnerMeans(w, e, n, path, g, env, p); } else { PushLeafMeans(w, e, n, path, g, env, p); }
  }

  /** The shape of a node does not change. */
  lemma {:induction false} PushShape(e: ValExpr, n: JoinNode)
    ensures Schema(Push(e, n)) == Schema(n) && Names(Push(e, n)) == Names(n) && Insides(Push(e, n)) == Insides(n)
    ensures Nulls(Push(e, n)) == Nulls(n) && SkeletonOf(Push(e, n)) == SkeletonOf(n)
  {
  }

  lemma {:induction false} RenamedTables(e: ValExpr, alias: string, inside: string)
    ensures Tables(e) - {alias} <= Tables(Renamed(e, alias, inside)) <= Tables(e) - {alias} + {inside}
  {
    RenamedRefs(e, alias, inside);
    forall t | t in Tables(e) - {alias} ensures t in Tables(Renamed(e, alias, inside)) {
      var c :| c in Refs(e) && c.table == t;
      assert RenamedRef(c, alias, inside) == c;
    }
    forall t | t in Tables(Renamed(e, alias, inside)) ensures t in Tables(e) - {alias} + {inside} {
      var d :| d in Refs(Renamed(e, alias, inside)) && d.table == t;
      var c :| c in Refs(e) && d == RenamedRef(c, alias, inside);
      assert c.table in Tables(e);
    }
  }

  lemma {:induction false} RenamedRefs(e: ValExpr, alias: string, inside: string)
    ensures Refs(Renamed(e, alias, inside)) == set c | c in Refs(e) :: RenamedRef(c, alias, inside)
  {
    match e
    case Unary(_, x) => RenamedRefs(x, alias, inside);
    case Binary(_, l, r) =>
      RenamedRefs(l, alias, inside);
      RenamedRefs(r, alias, inside);
    case Subquery(_, uses) =>
      var uses' := Renamed(e, alias, inside).uses;
      forall c | c in uses ensures RenamedRef(c, alias, inside) in uses' {
        var k :| 0 <= k < |uses| && uses[k] == c;
        assert uses'[k] == RenamedRef(c, alias, inside);
      }
    case _ =>
  }

  /** What a node uses after a push: what it used, and what the conjunction uses of other nodes. */
  lemma {:induction false} PushUses(e: ValExpr, n: JoinNode)
    ensures Uses(n) <= Uses(Push(e, n)) <= Uses(n) + Tables(e) + Insides(n)
    ensures Tables(e) - Names(n) <= Uses(Push(e, n))
  {
    if n.JoinInner? {
      forall t | t in TablesOf(n.strong) ensures t in TablesOf(n.strong + [e]) {
        var x :| x in n.strong && t in Tables(x);
        assert x in n.strong + [e];
      }
      assert e in n.strong + [e];
    } else {
      RenamedTables(e, n.alias, n.inside);
      AndTables(Renamed(e, n.alias, n.inside), n.selection);
    }
  }

  lemma {:induction false} AndTables(x: ValExpr, y: ValExpr)
    ensures Tables(Binary(And, x, y)) == Tables(x) + Tables(y)
  {
    assert Refs(Binary(And, x, y)) == Refs(x) + Refs(y);
  }
}
