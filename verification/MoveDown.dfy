/** Moving a conjunction from a join to one of its sides keeps the rows of the join, for all types of joins
    and both lists of conjunctions, if that side finds the columns the conjunction uses
    (src/query_converter.rs:2003-2152). */
module MoveDown {
  import opened Wrappers
  import opened Expressions
  import opened Bags
  import opened JoinBags
  import opened JoinLaws
  import opened JoinPlans
  import opened JoinTrees
  import opened PushDown

  function Without<T>(s: seq<T>, i: nat): seq<T>
    requires i < |s|
  {
    s[..i] + s[i + 1..]
  }

  /** The strong or the weak conjunctions of a node. */
  function Conjunctions(n: JoinNode, strong: bool): seq<ValExpr>
    requires n.JoinInner?
  {
    if strong then n.strong else n.weak
  }

  /** Whether the type of a join lets a conjunction move to a side. */
  predicate Allowed(jt: JoinType, strong: bool, toRight: bool) {
    if toRight then (if strong then NonLeft(jt) else NonRight(jt)) else (if strong then NonRight(jt) else NonLeft(jt))
  }

  /** The conjunction finds its columns at that side: it uses none of the other side, or the side is
      evaluated for every row of the other. */
  predicate Sees(n: JoinNode, e: ValExpr, toRight: bool, c: Case)
    requires n.JoinInner?
  {
    Tables(e) !! Names(if toRight then n.left else n.right) || (c.Dependent? && toRight == c.leftFirst)
  }

  predicate MayMove(n: JoinNode, i: nat, strong: bool, toRight: bool, c: Case) {
    && n.JoinInner? && i < |Conjunctions(n, strong)| && Allowed(n.jt, strong, toRight)
    && Sees(n, Conjunctions(n, strong)[i], toRight, c)
  }

  function Moved(n: JoinNode, i: nat, strong: bool, toRight: bool): JoinNode
    requires n.JoinInner? && i < |Conjunctions(n, strong)|
  {
    var e := Conjunctions(n, strong)[i];
    JoinInner(if toRight then n.left else Push(e, n.left), if toRight then Push(e, n.right) else n.right, n.jt,
              if strong then n.weak else Without(n.weak, i), if strong then Without(n.strong, i) else n.strong)
  }

  /** What the case of a join has to do with its type. */
  lemma {:induction false} CaseFacts(g: Graph, path: Path, jt: JoinType, c: Case)
    requires CaseAt(g, path, jt) == Some(c)
    ensures jt != Outer && c.Independent? ==> !c.secondOuter
    ensures (jt == Inner ==> !c.firstOuter) && (c.leftFirst ==> jt != Right) && (!c.leftFirst ==> jt == Right || jt == Inner)
  {
  }

  // ---------------------------------------------------------------------------------------------
  //  What a conjunction does not use does not matter to it
  // ---------------------------------------------------------------------------------------------

  lemma {:induction false} Ignores(w: World, e: ValExpr, n: JoinNode, row: Env, a: Env, b: Env)
    requires Tables(e) !! Names(n) && row.Keys <= Schema(n)
    ensures IsTrue(w, e, a + row) == IsTrue(w, e, a)
    ensures IsTrue(w, e, a + row + b) == IsTrue(w, e, a + b)
  {
    SchemaNames(n);
    forall c | c in Refs(e) ensures c !in row { assert c.table in Tables(e); }
    assert SameOn(Refs(e), a + row, a);
    EvalFrame(w, e, a + row, a);
    assert SameOn(Refs(e), a + row + b, a + b);
    EvalFrame(w, e, a + row + b, a + b);
  }

  lemma {:induction false} WithoutTrue(w: World, es: seq<ValExpr>, i: nat, env: Env)
    requires i < |es|
    ensures AllTrue(w, es, env) <==> AllTrue(w, Without(es, i), env) && IsTrue(w, es[i], env)
  {
    var rest := Without(es, i);
    if AllTrue(w, es, env) {
      forall k | 0 <= k < |rest| ensures IsTrue(w, rest[k], env) { assert rest[k] == es[if k < i then k else k + 1]; }
    }
    if AllTrue(w, rest, env) && IsTrue(w, es[i], env) {
      forall k | 0 <= k < |es| ensures IsTrue(w, es[k], env) {
        if k < i { assert rest[k] == es[k]; } else if k > i { assert rest[k - 1] == es[k]; }
      }
    }
  }

  lemma {:induction false} MovedShape(w: World, n: JoinNode, i: nat, strong: bool, toRight: bool, env: Env, c: Case)
    requires n.JoinInner? && i < |Conjunctions(n, strong)|
    ensures SameShape(JoinOf(w, n, env, c), JoinOf(w, Moved(n, i, strong, toRight), env, c))
  {
    var e := Conjunctions(n, strong)[i];
    PushShape(e, n.left);
    PushShape(e, n.right);
    hide Push, AllTrue;
  }

  lemma {:induction false} MovedVerdicts(w: World, n: JoinNode, i: nat, strong: bool, toRight: bool, env: Env, c: Case, f: Env, s: Env)
    requires n.JoinInner? && i < |Conjunctions(n, strong)|
    ensures var j, k := JoinOf(w, n, env, c), JoinOf(w, Moved(n, i, strong, toRight), env, c);
      var yes := IsTrue(w, Conjunctions(n, strong)[i], Merged(env, f, s, c));
      j.weak(f, s) == (k.weak(f, s) && (strong || yes)) && j.strong(f, s) == (k.strong(f, s) && (!strong || yes))
  {
    hide Push, IsTrue, AllTrue;
    WithoutTrue(w, Conjunctions(n, strong), i, Merged(env, f, s, c));
  }

  /** The joins before and after a move differ in the conjunction moved only. */
  lemma {:induction false} MovedJoins(w: World, n: JoinNode, i: nat, strong: bool, toRight: bool, env: Env, c: Case)
    requires n.JoinInner? && i < |Conjunctions(n, strong)|
    ensures var j, k := JoinOf(w, n, env, c), JoinOf(w, Moved(n, i, strong, toRight), env, c);
      var e := Conjunctions(n, strong)[i];
      && SameShape(j, k)
      && (forall f, s :: j.weak(f, s) == (k.weak(f, s) && (strong || IsTrue(w, e, Merged(env, f, s, c)))))
      && (forall f, s :: j.strong(f, s) == (k.strong(f, s) && (!strong || IsTrue(w, e, Merged(env, f, s, c)))))
  {
    var j, k := JoinOf(w, n, env, c), JoinOf(w, Moved(n, i, strong, toRight), env, c);
    hide Moved, JoinOf, IsTrue, Merged, SameShape;
    var e := Conjunctions(n, strong)[i];
    MovedShape(w, n, i, strong, toRight, env, c);
    forall f, s
      ensures j.weak(f, s) == (k.weak(f, s) && (strong || IsTrue(w, e, Merged(env, f, s, c))))
      ensures j.strong(f, s) == (k.strong(f, s) && (!strong || IsTrue(w, e, Merged(env, f, s, c))))
    {
      MovedVerdicts(w, n, i, strong, toRight, env, c, f, s);
    }
  }

  lemma {:induction false} AvoidsSides(n: JoinNode, env: Env, c: Case, f: Env)
    requires n.JoinInner? && WellFormed(n) && Avoids(env, n) && f.Keys <= Schema(FirstSide(n, c))
    ensures Avoids(env, FirstSide(n, c)) && Avoids(env, SecondSide(n, c)) && Avoids(env + f, SecondSide(n, c))
  {
    SchemaNames(FirstSide(n, c));
    forall x | x in env + f ensures x.table !in Names(SecondSide(n, c)) && x.table !in Insides(SecondSide(n, c)) {
      if x in f { assert x.table in Names(FirstSide(n, c)); }
    }
  }

  lemma {:induction false} SidesAvoid(n: JoinNode, i: nat, strong: bool)
    requires n.JoinInner? && WellFormed(n) && i < |Conjunctions(n, strong)|
    ensures Tables(Conjunctions(n, strong)[i]) !! Insides(n.left) && Tables(Conjunctions(n, strong)[i]) !! Insides(n.right)
  {
    assert Conjunctions(n, strong)[i] in Conjunctions(n, strong);
  }

  // ---------------------------------------------------------------------------------------------
  //  To the first side
  // ---------------------------------------------------------------------------------------------

  lemma {:induction false} FirstVerdict(w: World, n: JoinNode, e: ValExpr, env: Env, c: Case, f: Env, s: Env)
    requires n.JoinInner? && Tables(e) !! Names(SecondSide(n, c)) && s.Keys <= Schema(SecondSide(n, c))
    ensures IsTrue(w, e, Merged(env, f, s, c)) == IsTrue(w, e, env + f)
  {
    Ignores(w, e, SecondSide(n, c), s, env + f, f);
    Ignores(w, e, SecondSide(n, c), s, env, f);
  }

  lemma {:induction false} MoveFirstRow(w: World, n: JoinNode, i: nat, strong: bool, toRight: bool, env: Env, c: Case, f: Env, ss: multiset<Env>)
    requires n.JoinInner? && i < |Conjunctions(n, strong)| && (strong || !c.firstOuter)
    requires Tables(Conjunctions(n, strong)[i]) !! Names(SecondSide(n, c))
    requires forall s | s in ss :: s.Keys == Schema(SecondSide(n, c))
    ensures var j, k := JoinOf(w, n, env, c), JoinOf(w, Moved(n, i, strong, toRight), env, c);
      FromFirst(j, f, ss) == if IsTrue(w, Conjunctions(n, strong)[i], env + f) then FromFirst(k, f, ss) else multiset{}
  {
    var j, k := JoinOf(w, n, env, c), JoinOf(w, Moved(n, i, strong, toRight), env, c);
    var e := Conjunctions(n, strong)[i];
    MovedJoins(w, n, i, strong, toRight, env, c);
    KeysOfNulls(SecondSide(n, c));
    assert j.noSecond == Nulls(SecondSide(n, c)) && j.noSecond == k.noSecond && j.firstOuter == c.firstOuter;
    forall s | s in ss || s == k.noSecond ensures IsTrue(w, e, Merged(env, f, s, c)) == IsTrue(w, e, env + f) {
      FirstVerdict(w, n, e, env, c, f, s);
    }
    hide JoinOf, Moved, IsTrue, Merged, FromFirst;
    if strong { FirstStrongRow(j, k, f, ss, IsTrue(w, e, env + f)); } else { FirstWeakRow(j, k, f, ss, IsTrue(w, e, env + f)); }
  }

  /** The sides of the join after a move to the first side. */
  lemma {:induction false} MovedFirstSides(n: JoinNode, i: nat, strong: bool, toRight: bool, c: Case)
    requires n.JoinInner? && i < |Conjunctions(n, strong)| && toRight == !c.leftFirst
    ensures var n' := Moved(n, i, strong, toRight);
      FirstSide(n', c) == Push(Conjunctions(n, strong)[i], FirstSide(n, c)) && SecondSide(n', c) == SecondSide(n, c) && n'.jt == n.jt
  {
  }

  /** A conjunction moved to the first side. */
  lemma {:induction false} MoveFirst(w: World, n: JoinNode, path: Path, g: Graph, i: nat, strong: bool, toRight: bool, env: Env, c: Case)
    requires WellFormed(n) && Avoids(env, n) && MayMove(n, i, strong, toRight, c) && toRight == !c.leftFirst
    requires CaseAt(g, path, n.jt) == Some(c)
    ensures Rows(w, Moved(n, i, strong, toRight), path, g, env) == Rows(w, n, path, g, env)
  {
    var n', e := Moved(n, i, strong, toRight), Conjunctions(n, strong)[i];
    CaseFacts(g, path, n.jt, c);
    assert Tables(e) !! Names(SecondSide(n, c)) && (strong || !c.firstOuter);
    MovedFirstSides(n, i, strong, toRight, c);
    AvoidsSides(n, env, c, map[]);
    SidesAvoid(n, i, strong);
    assert WellFormed(FirstSide(n, c)) && Tables(e) !! Insides(FirstSide(n, c));
    var p := (r: Env) => IsTrue(w, e, env + r);
    hide WellFormed, Avoids, Tables, Insides, Names, Rows, JoinOf, Moved, IsTrue, FromFirst, Push, MayMove, CaseAt, FirstSide, SecondSide;
    PushMeans(w, e, FirstSide(n, c), FirstPath(path, c), g, env, p);
    var second := SecondRows(w, n, path, g, env, c);
    RowsDependent(w, n, path, g, env, c, second);
    RowsDependent(w, n', path, g, env, c, second);
    var fs, j, k := Rows(w, FirstSide(n, c), FirstPath(path, c), g, env), JoinOf(w, n, env, c), JoinOf(w, n', env, c);
    hide Conjunctions;
    forall f | f in fs ensures FromFirst(j, f, second(f)) == if p(f) then FromFirst(k, f, second(f)) else multiset{} {
      MoveFirstAt(w, n, path, g, i, strong, toRight, env, c, f);
    }
    FirstKept(j, k, fs, p, second);
  }

  lemma {:induction false} MoveFirstAt(w: World, n: JoinNode, path: Path, g: Graph, i: nat, strong: bool, toRight: bool, env: Env, c: Case, f: Env)
    requires n.JoinInner? && i < |Conjunctions(n, strong)| && (strong || !c.firstOuter)
    requires Tables(Conjunctions(n, strong)[i]) !! Names(SecondSide(n, c))
    ensures var j, k, ss := JoinOf(w, n, env, c), JoinOf(w, Moved(n, i, strong, toRight), env, c), SecondRows(w, n, path, g, env, c)(f);
      FromFirst(j, f, ss) == if IsTrue(w, Conjunctions(n, strong)[i], env + f) then FromFirst(k, f, ss) else multiset{}
  {
    hide Rows, JoinOf, Moved, IsTrue, FromFirst, Tables, Names, SecondSide;
    var ss := SecondRows(w, n, path, g, env, c)(f);
    SecondHasSchema(w, n, path, g, env, c, f, ss);
    MoveFirstRow(w, n, i, strong, toRight, env, c, f, ss);
  }

  lemma {:induction false} SecondHasSchema(w: World, n: JoinNode, path: Path, g: Graph, env: Env, c: Case, f: Env, ss: multiset<Env>)
    requires n.JoinInner? && ss == Rows(w, SecondSide(n, c), SecondPath(path, c), g, if c.Dependent? then env + f else env)
    ensures forall s | s in ss :: s.Keys == Schema(SecondSide(n, c))
  {
    hide Rows;
    forall s | s in ss ensures s.Keys == Schema(SecondSide(n, c)) {
      RowsHaveSchema(w, SecondSide(n, c), SecondPath(path, c), g, if c.Dependent? then env + f else env, s);
    }
  }

  // ---------------------------------------------------------------------------------------------
  //  To the second side
  // ---------------------------------------------------------------------------------------------

  lemma {:induction false} SchemasApart(n: JoinNode, c: Case)
    requires n.JoinInner? && WellFormed(n)
    ensures Schema(FirstSide(n, c)) !! Schema(SecondSide(n, c))
  {
    SchemaNames(FirstSide(n, c));
    SchemaNames(SecondSide(n, c));
  }

  lemma {:induction false} SecondVerdict(w: World, n: JoinNode, e: ValExpr, toRight: bool, env: Env, c: Case, f: Env, s: Env)
    requires n.JoinInner? && WellFormed(n) && Sees(n, e, toRight, c) && toRight == c.leftFirst
    requires f.Keys == Schema(FirstSide(n, c)) && s.Keys == Schema(SecondSide(n, c))
    ensures IsTrue(w, e, Merged(env, f, s, c)) == IsTrue(w, e, (if c.Dependent? then env + f else env) + s)
  {
    SchemasApart(n, c);
    assert env + s + f == env + f + s;
    if Tables(e) !! Names(FirstSide(n, c)) { Ignores(w, e, FirstSide(n, c), f, env, s); }
  }

  lemma {:induction false} MoveSecondRow(w: World, n: JoinNode, i: nat, strong: bool, toRight: bool, env: Env, c: Case, f: Env, ss: multiset<Env>, p: Env -> bool)
    requires WellFormed(n) && MayMove(n, i, strong, toRight, c) && toRight == c.leftFirst && (!strong || !c.firstOuter)
    requires f.Keys == Schema(FirstSide(n, c)) && forall s | s in ss :: s.Keys == Schema(SecondSide(n, c))
    requires forall s :: p(s) == IsTrue(w, Conjunctions(n, strong)[i], (if c.Dependent? then env + f else env) + s)
    ensures var j, k := JoinOf(w, n, env, c), JoinOf(w, Moved(n, i, strong, toRight), env, c);
      FromFirst(j, f, ss) == FromFirst(k, f, Keep(ss, p))
  {
    var j, k := JoinOf(w, n, env, c), JoinOf(w, Moved(n, i, strong, toRight), env, c);
    var e := Conjunctions(n, strong)[i];
    MovedJoins(w, n, i, strong, toRight, env, c);
    assert j.firstOuter == c.firstOuter;
    forall s | s in ss ensures IsTrue(w, e, Merged(env, f, s, c)) == p(s) { SecondVerdict(w, n, e, toRight, env, c, f, s); }
    hide JoinOf, Moved, IsTrue, Merged, FromFirst, WellFormed, MayMove;
    if strong { SecondStrongRow(j, k, f, ss, p); } else { SecondWeakRow(j, k, f, ss, p); }
  }

  lemma {:induction false} MovedSecondSides(n: JoinNode, i: nat, strong: bool, toRight: bool, c: Case)
    requires n.JoinInner? && i < |Conjunctions(n, strong)| && toRight == c.leftFirst
    ensures var n' := Moved(n, i, strong, toRight);
      FirstSide(n', c) == FirstSide(n, c) && SecondSide(n', c) == Push(Conjunctions(n, strong)[i], SecondSide(n, c)) && n'.jt == n.jt
  {
  }

  lemma {:induction false} MoveSecondAt(w: World, n: JoinNode, path: Path, g: Graph, i: nat, strong: bool, toRight: bool, env: Env, c: Case, f: Env)
    requires WellFormed(n) && Avoids(env, n) && MayMove(n, i, strong, toRight, c) && toRight == c.leftFirst && (!strong || !c.firstOuter)
    requires f.Keys == Schema(FirstSide(n, c))
    ensures var n' := Moved(n, i, strong, toRight);
      FromFirst(JoinOf(w, n, env, c), f, SecondRows(w, n, path, g, env, c)(f))
      == FromFirst(JoinOf(w, n', env, c), f, SecondRows(w, n', path, g, env, c)(f))
  {
    var e := Conjunctions(n, strong)[i];
    var around := if c.Dependent? then env + f else env;
    var p := (s: Env) => IsTrue(w, e, around + s);
    var ss := Rows(w, SecondSide(n, c), SecondPath(path, c), g, around);
    MovedSecondSides(n, i, strong, toRight, c);
    SidesAvoid(n, i, strong);
    AvoidsSides(n, env, c, f);
    assert WellFormed(SecondSide(n, c)) && Tables(e) !! Insides(SecondSide(n, c));
    hide WellFormed, Avoids, Tables, Insides, Names, Rows, JoinOf, Moved, IsTrue, FromFirst, Push, MayMove, SecondSide;
    PushMeans(w, e, SecondSide(n, c), SecondPath(path, c), g, around, p);
    SecondHasSchema(w, n, path, g, env, c, f, ss);
    MoveSecondRow(w, n, i, strong, toRight, env, c, f, ss, p);
  }

  /** A conjunction moved to the second side. */
  lemma {:induction false} MoveSecond(w: World, n: JoinNode, path: Path, g: Graph, i: nat, strong: bool, toRight: bool, env: Env, c: Case)
    requires WellFormed(n) && Avoids(env, n) && MayMove(n, i, strong, toRight, c) && toRight == c.leftFirst
    requires CaseAt(g, path, n.jt) == Some(c)
    ensures Rows(w, Moved(n, i, strong, toRight), path, g, env) == Rows(w, n, path, g, env)
  {
    var n' := Moved(n, i, strong, toRight);
    CaseFacts(g, path, n.jt, c);
    MovedSecondSides(n, i, strong, toRight, c);
    assert !strong || !c.firstOuter;
    hide WellFormed, Avoids, Rows, JoinOf, Moved, FromFirst, Push, MayMove, CaseAt, FirstSide, SecondSide;
    var second, second' := SecondRows(w, n, path, g, env, c), SecondRows(w, n', path, g, env, c);
    RowsDependent(w, n, path, g, env, c, second);
    RowsDependent(w, n', path, g, env, c, second');
    var fs, j, k := Rows(w, FirstSide(n, c), FirstPath(path, c), g, env), JoinOf(w, n, env, c), JoinOf(w, n', env, c);
    forall f | f in fs ensures FromFirst(j, f, second(f)) == FromFirst(k, f, second'(f)) {
      RowsHaveSchema(w, FirstSide(n, c), FirstPath(path, c), g, env, f);
      MoveSecondAt(w, n, path, g, i, strong, toRight, env, c, f);
    }
    SecondKept(j, k, fs, second, second');
  }

  /** Moving a conjunction to a side where it finds its columns leaves the rows of the join unchanged. */
  lemma {:induction false} MoveKeepsRows(w: World, n: JoinNode, path: Path, g: Graph, i: nat, strong: bool, toRight: bool, env: Env, c: Case)
    requires WellFormed(n) && Avoids(env, n) && MayMove(n, i, strong, toRight, c) && CaseAt(g, path, n.jt) == Some(c)
    ensures Rows(w, Moved(n, i, strong, toRight), path, g, env) == Rows(w, n, path, g, env)
  {
    if toRight == c.leftFirst {
      MoveSecond(w, n, path, g, i, strong, toRight, env, c);
    } else {
      MoveFirst(w, n, path, g, i, strong, toRight, env, c);
    }
  }
}
