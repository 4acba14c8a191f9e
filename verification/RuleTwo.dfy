/** Rule 2 of the join optimizer moves a strong conjunction that uses both sides without recording a
    dependency (src/query_converter.rs:2027-2032, 2054-2059). An input for which this loses rows. */
module RuleTwo {
  import opened Wrappers
  import opened Values
  import opened Expressions
  import opened Bags
  import opened JoinBags
  import opened JoinPlans
  import opened JoinTrees
  import opened PushDown
  import M = MoveDown
  import opened JoinScopes
  import opened JoinOptimizer

  /** Two tables with one row each, and the WHERE clause that their columns are equal. */
  function TwoTables(x: ColName): JoinNode {
    JoinInner(JoinLeaf("a", false, 0, [], "a'", {x}, TRIVIAL), JoinLeaf("b", false, 1, [], "b'", {x}, TRIVIAL), Inner, [],
              [Binary(Eq, Column(ColumnRef("a", x)), Column(ColumnRef("b", x)))])
  }

  function OneRowEach(x: ColName): World {
    World((source, _) => multiset{map[ColumnRef(if source == 0 then "a'" else "b'", x) := Some(IntVal(1))]}, (_, _) => None)
  }

  lemma {:induction false} LeafHasRow(x: ColName, left: bool)
    ensures var n := TwoTables(x); var leaf := if left then n.left else n.right;
      map[ColumnRef(leaf.alias, x) := Some(IntVal(1))] in Rows(OneRowEach(x), leaf, if left then "L" else "R", map[], map[])
  {
    var n, w := TwoTables(x), OneRowEach(x);
    var leaf := if left then n.left else n.right;
    var row: Env := map[ColumnRef(leaf.inside, x) := Some(IntVal(1))];
    var h := (r: Env) => LeafRow(w, leaf, map[], r);
    LeafRows(w, leaf, if left then "L" else "R", map[], map[], h);
    assert w.table(leaf.source, Arguments(leaf.uses, map[])) == multiset{row};
    SumOne(row, h);
    LeafGives(x, leaf, row, w);
    hide Rows, OneRowEach, LeafRow;
  }

  lemma {:induction false} LeafGives(x: ColName, leaf: JoinNode, row: Env, w: World)
    requires leaf.JoinLeaf? && leaf.cols == {x} && leaf.selection == TRIVIAL && row == map[ColumnRef(leaf.inside, x) := Some(IntVal(1))]
    ensures LeafRow(w, leaf, map[], row) == multiset{map[ColumnRef(leaf.alias, x) := Some(IntVal(1))]}
  {
    assert RowAs(leaf.alias, leaf.cols, row, leaf.inside) == map[ColumnRef(leaf.alias, x) := Some(IntVal(1))];
    assert IsTrue(w, TRIVIAL, map[] + RowAs(leaf.inside, leaf.cols, row, leaf.inside));
  }

  lemma {:induction false} InJoin<R(!new), O(!new)>(j: Join<R, O>, fs: multiset<R>, ss: multiset<R>, f: R, s: R)
    requires f in fs && s in ss && j.weak(f, s) && j.strong(f, s)
    ensures j.mk(f, s) in JoinBag(j, fs, ss)
  {
    SumFrom(ss, t => Pair(j, f, t), j.mk(f, s));
    assert j.mk(f, s) in FromFirst(j, f, ss);
    SumFrom(fs, r => FromFirst(j, r, ss), j.mk(f, s));
  }

  /** The clause accepts the pair of the two rows. */
  lemma {:induction false} ClauseHolds(x: ColName, f: Env, s: Env)
    requires f == map[ColumnRef("a", x) := Some(IntVal(1))] && s == map[ColumnRef("b", x) := Some(IntVal(1))]
    ensures AllTrue(OneRowEach(x), TwoTables(x).strong, map[] + f + s)
  {
    var env, e := map[] + f + s, TwoTables(x).strong[0];
    assert env[ColumnRef("a", x)] == Some(IntVal(1)) && env[ColumnRef("b", x)] == Some(IntVal(1));
    assert Eval(OneRowEach(x), e, env) == EvalBinary(Eq, Some(IntVal(1)), Some(IntVal(1)));
    assert IsTrue(OneRowEach(x), e, env);
  }

  lemma {:induction false} TwoTablesHasRow(x: ColName)
    ensures Rows(OneRowEach(x), TwoTables(x), [], map[], map[]) != multiset{}
  {
    var n, w := TwoTables(x), OneRowEach(x);
    var c := Independent(true, false, false);
    var f: Env, s: Env := map[ColumnRef("a", x) := Some(IntVal(1))], map[ColumnRef("b", x) := Some(IntVal(1))];
    LeafHasRow(x, true);
    LeafHasRow(x, false);
    ClauseHolds(x, f, s);
    hide Rows, AllTrue, OneRowEach;
    var j := JoinOf(w, n, map[], c);
    assert AllTrue(w, n.weak, map[] + f + s) by { NothingToCheck(w, map[] + f + s); }
    RowsIndependent(w, n, [], map[], map[], c);
    assert [] + "L" == "L" && [] + "R" == "R";
    InJoin(j, Rows(w, n.left, "L", map[], map[]), Rows(w, n.right, "R", map[], map[]), f, s);
  }

  lemma {:induction false} NothingToCheck(w: World, env: Env)
    ensures AllTrue(w, [], env)
  {
  }

  lemma {:induction false} PlainLeaf(l: JoinNode, path: Path)
    requires l.JoinLeaf? && l.uses == [] && l.selection == TRIVIAL && l.alias != l.inside
    ensures Names(l) == {l.alias} && Insides(l) == {l.inside} && Uses(l) == {} && WellFormed(l) && Scoped(l, path, map[])
  {
    assert Refs(TRIVIAL) == {};
  }

  lemma {:induction false} NamesDiffer()
    ensures "a" != "b" && "a" != "a'" && "a" != "b'" && "b" != "a'" && "b" != "b'" && "a'" != "b'"
  {
    assert "a"[0] != "b"[0] && "a'"[0] != "b'"[0];
  }

  lemma {:induction false} TwoTablesScoped(x: ColName)
    ensures WellFormed(TwoTables(x)) && Scoped(TwoTables(x), [], map[])
  {
    var n := TwoTables(x);
    NamesDiffer();
    PlainLeaf(n.left, [] + "L");
    PlainLeaf(n.right, [] + "R");
    ClauseTables(x);
    PlainJoin(n);
  }

  lemma {:induction false} PlainJoin(n: JoinNode)
    requires n.JoinInner? && n.jt == Inner && n.weak == [] && |n.strong| == 1 && WellFormed(n.left) && WellFormed(n.right)
    requires (Names(n.left) + Insides(n.left)) !! (Names(n.right) + Insides(n.right))
    requires Tables(n.strong[0]) !! (Insides(n.left) + Insides(n.right)) && Uses(n.left) == {} && Uses(n.right) == {}
    requires Scoped(n.left, [] + "L", map[]) && Scoped(n.right, [] + "R", map[])
    ensures WellFormed(n) && Scoped(n, [], map[])
  {
    PlainScopes(n);
    hide Tables, Uses, Scoped, Names;
    assert Insides(n) == Insides(n.left) + Insides(n.right);
    assert forall e | e in n.strong :: e == n.strong[0];
    hide Insides;
  }

  lemma {:induction false} PlainScopes(n: JoinNode)
    requires n.JoinInner? && n.jt == Inner && Uses(n.left) == {} && Uses(n.right) == {}
    requires Scoped(n.left, [] + "L", map[]) && Scoped(n.right, [] + "R", map[])
    ensures Scoped(n, [], map[])
  {
    assert CaseAt(map[], [], n.jt) == Some(Independent(true, false, false));
    hide CaseAt, Uses, Names;
  }

  lemma {:induction false} ClauseTables(x: ColName)
    ensures Tables(TwoTables(x).strong[0]) == {"a", "b"}
  {
    assert Refs(TwoTables(x).strong[0]) == {ColumnRef("a", x), ColumnRef("b", x)};
  }

  /** Rule 2 moves the clause to the table whose first key it names ... */
  lemma {:induction false} RuleTwoPushes(x: ColName)
    ensures var n := TwoTables(x);
      RuleTwoOn(State(n.left, n.right, map[]), Inner, [], n.strong[0], true, map["b" := x]) == Some(State(n.left, Push(n.strong[0], n.right), map[]))
  {
    hide Push, Tables;
  }

  /** ... where the column of the other table is not known, and loses the row. */
  lemma {:induction false} RuleTwoLosesRows(x: ColName)
    ensures var n := TwoTables(x);
      && WellFormed(n) && Scoped(n, [], map[])
      && RuleTwoOn(State(n.left, n.right, map[]), Inner, [], n.strong[0], true, map["b" := x])
         == Some(State(n.left, Push(n.strong[0], n.right), map[]))
      && Rows(OneRowEach(x), n, [], map[], map[]) != multiset{}
      && Rows(OneRowEach(x), JoinInner(n.left, Push(n.strong[0], n.right), Inner, [], []), [], map[], map[]) == multiset{}
  {
    var n, w := TwoTables(x), OneRowEach(x);
    TwoTablesHasRow(x);
    RuleTwoPushes(x);
    TwoTablesScoped(x);
    hide Rows, WellFormed, Scoped, RuleTwoOn, Push, OneRowEach;
    BlindMoveIsEmpty(w, n, [], map[], 0, true, map[], Independent(true, false, false), ColumnRef("a", x));
    assert M.Moved(n, 0, true, true) == JoinInner(n.left, Push(n.strong[0], n.right), Inner, [], []);
  }
}
