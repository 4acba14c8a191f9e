/** Where the columns of a join tree are found: what a side waits for beyond its needs does not matter,
    a conjunction finds its columns at a side exactly if the tree stays scoped, and where it does not find
    them the join returns nothing. */
module JoinScopes {
  import opened Wrappers
  import opened Expressions
  import opened Bags
  import opened JoinBags
  import opened JoinLaws
  import opened JoinPlans
  import opened JoinTrees
  import opened PushDown
  import opened MoveDown

  // ---------------------------------------------------------------------------------------------
  //  Sides with the same rows
  // ---------------------------------------------------------------------------------------------

  /** Two nodes return the same wherever the names are new. */
  ghost predicate Alike(w: World, n: JoinNode, g: Graph, n': JoinNode, g': Graph, path: Path) {
    forall env | Avoids(env, n) :: Rows(w, n, path, g, env) == Rows(w, n', path, g', env)
  }

  lemma {:induction false} AlikeAt(w: World, n: JoinNode, g: Graph, n': JoinNode, g': Graph, path: Path, env: Env)
    requires Alike(w, n, g, n', g', path) && Avoids(env, n)
    ensures Rows(w, n, path, g, env) == Rows(w, n', path, g', env)
  {
  }

  lemma {:induction false} SameJoinOf(w: World, n: JoinNode, n': JoinNode, env: Env, c: Case)
    requires n.JoinInner? && n'.JoinInner? && n'.weak == n.weak && n'.strong == n.strong
    requires Schema(n.left) == Schema(n'.left) && Schema(n.right) == Schema(n'.right)
    ensures JoinOf(w, n, env, c) == JoinOf(w, n', env, c)
  {
    assert Nulls(n.left) == Nulls(n'.left) && Nulls(n.right) == Nulls(n'.right);
  }

  lemma {:induction false} SidesDependent(w: World, n: JoinNode, g: Graph, n': JoinNode, g': Graph, path: Path, env: Env, c: Case)
    requires n.JoinInner? && n'.JoinInner? && n'.jt == n.jt && CaseAt(g, path, n.jt) == Some(c) && CaseAt(g', path, n.jt) == Some(c) && c.Dependent?
    requires JoinOf(w, n, env, c) == JoinOf(w, n', env, c) && WellFormed(n) && Avoids(env, n)
    requires Alike(w, FirstSide(n, c), g, FirstSide(n', c), g', FirstPath(path, c))
    requires Alike(w, SecondSide(n, c), g, SecondSide(n', c), g', SecondPath(path, c))
    ensures Rows(w, n, path, g, env) == Rows(w, n', path, g', env)
  {
    AvoidsSides(n, env, c, map[]);
    AlikeAt(w, FirstSide(n, c), g, FirstSide(n', c), g', FirstPath(path, c), env);
    var j, fs := JoinOf(w, n, env, c), Rows(w, FirstSide(n, c), FirstPath(path, c), g, env);
    var second, second' := SecondRows(w, n, path, g, env, c), SecondRows(w, n', path, g', env, c);
    hide Rows, JoinOf, WellFormed, Avoids, CaseAt, Alike, FirstSide, SecondSide;
    RowsDependent(w, n, path, g, env, c, second);
    RowsDependent(w, n', path, g', env, c, second');
    forall f | f in fs ensures second(f) == second'(f) {
      RowsHaveSchema(w, FirstSide(n, c), FirstPath(path, c), g, env, f);
      AvoidsSides(n, env, c, f);
      AlikeAt(w, SecondSide(n, c), g, SecondSide(n', c), g', SecondPath(path, c), env + f);
    }
    SameDependent(j, j, fs, second, second');
  }

  lemma {:induction false} SidesIndependent(w: World, n: JoinNode, g: Graph, n': JoinNode, g': Graph, path: Path, env: Env, c: Case)
    requires n.JoinInner? && n'.JoinInner? && n'.jt == n.jt && CaseAt(g, path, n.jt) == Some(c) && CaseAt(g', path, n.jt) == Some(c) && c.Independent?
    requires JoinOf(w, n, env, c) == JoinOf(w, n', env, c) && WellFormed(n) && Avoids(env, n)
    requires Alike(w, FirstSide(n, c), g, FirstSide(n', c), g', FirstPath(path, c))
    requires Alike(w, SecondSide(n, c), g, SecondSide(n', c), g', SecondPath(path, c))
    ensures Rows(w, n, path, g, env) == Rows(w, n', path, g', env)
  {
    AvoidsSides(n, env, c, map[]);
    hide JoinOf, WellFormed, Avoids, CaseAt, Alike, FirstSide, SecondSide, Rows;
    AlikeAt(w, FirstSide(n, c), g, FirstSide(n', c), g', FirstPath(path, c), env);
    AlikeAt(w, SecondSide(n, c), g, SecondSide(n', c), g', SecondPath(path, c), env);
    RowsIndependent(w, n, path, g, env, c);
    RowsIndependent(w, n', path, g', env, c);
  }

  /** A join whose sides return the same returns the same. */
  lemma {:induction false} SidesSame(w: World, n: JoinNode, g: Graph, n': JoinNode, g': Graph, path: Path, env: Env)
    requires n.JoinInner? && n'.JoinInner? && n'.jt == n.jt && n'.weak == n.weak && n'.strong == n.strong
    requires Schema(n.left) == Schema(n'.left) && Schema(n.right) == Schema(n'.right)
    requires CaseAt(g, path, n.jt) == CaseAt(g', path, n.jt) && WellFormed(n) && Avoids(env, n)
    requires Alike(w, n.left, g, n'.left, g', path + "L") && Alike(w, n.right, g, n'.right, g', path + "R")
    ensures Rows(w, n, path, g, env) == Rows(w, n', path, g', env)
  {
    hide Rows, JoinOf, WellFormed, Avoids, CaseAt, Alike, Schema;
    if CaseAt(g, path, n.jt).None? {
      NoCaseNoRows(w, n, path, g, env);
      NoCaseNoRows(w, n', path, g', env);
    } else {
      var c := CaseAt(g, path, n.jt).value;
      SameJoinOf(w, n, n', env, c);
      if c.Dependent? {
        SidesDependent(w, n, g, n', g', path, env, c);
      } else {
        SidesIndependent(w, n, g, n', g', path, env, c);
      }
    }
  }

  // ---------------------------------------------------------------------------------------------
  //  Waiting without need
  // ---------------------------------------------------------------------------------------------

  /** Every join below a path is served. */
  predicate ServedFrom(n: JoinNode, path: Path, g: Graph) {
    n.JoinInner? ==> Serves(g, path, n.jt) && ServedFrom(n.left, path + "L", g) && ServedFrom(n.right, path + "R", g)
  }

  lemma {:induction false} ServedIsFrom(n: JoinNode, path: Path, g: Graph)
    requires forall p | At(SkeletonOf(n), p).Some? && At(SkeletonOf(n), p).value.Node? :: Serves(g, path + p, At(SkeletonOf(n), p).value.jt)
    ensures ServedFrom(n, path, g)
    decreases n
  {
    if n.JoinInner? {
      assert At(SkeletonOf(n), []) == Some(SkeletonOf(n)) && path + [] == path;
      forall p | At(SkeletonOf(n.left), p).Some? && At(SkeletonOf(n.left), p).value.Node?
        ensures Serves(g, path + "L" + p, At(SkeletonOf(n.left), p).value.jt)
      {
        OneTurn(SkeletonOf(n), 'L', p);
        assert path + (['L'] + p) == path + "L" + p;
      }
      forall p | At(SkeletonOf(n.right), p).Some? && At(SkeletonOf(n.right), p).value.Node?
        ensures Serves(g, path + "R" + p, At(SkeletonOf(n.right), p).value.jt)
      {
        OneTurn(SkeletonOf(n), 'R', p);
        assert path + (['R'] + p) == path + "R" + p;
      }
      ServedIsFrom(n.left, path + "L", g);
      ServedIsFrom(n.right, path + "R", g);
    }
  }

  /** The case of a join when more nodes wait. */
  lemma {:induction false} CaseGrows(g: Graph, g': Graph, path: Path, jt: JoinType)
    requires (forall p | p in g :: p in g') && Serves(g', path, jt)
    ensures CaseAt(g, path, jt).Some? && CaseAt(g', path, jt).Some?
    ensures var c, c' := CaseAt(g, path, jt).value, CaseAt(g', path, jt).value;
      c == c' || (c.Independent? && !c.secondOuter && c'.Dependent? && c'.firstOuter == c.firstOuter
                  && (c.leftFirst == c'.leftFirst || (jt == Inner && !c.firstOuter)))
  {
  }

  /** Columns of the other side that a side does not use do not matter to it. */
  lemma {:induction false} UnusedRows(w: World, n: JoinNode, path: Path, g: Graph, env: Env, other: JoinNode, f: Env)
    requires Uses(n) !! Names(other) && f.Keys == Schema(other)
    ensures Rows(w, n, path, g, env + f) == Rows(w, n, path, g, env)
  {
    SchemaNames(other);
    assert Agree(Uses(n), env + f, env);
    RowsFrame(w, n, path, g, env + f, env);
  }

  /** An independent join evaluated as a dependent one. */
  lemma {:induction false} WaitForFirst(w: World, n: JoinNode, path: Path, g: Graph, env: Env, c: Case)
    requires n.JoinInner? && CaseAt(g, path, n.jt) == Some(c) && c.Dependent? && Uses(SecondSide(n, c)) !! Names(FirstSide(n, c))
    ensures Rows(w, n, path, g, env)
         == JoinBag(JoinOf(w, n, env, c), Rows(w, FirstSide(n, c), FirstPath(path, c), g, env), Rows(w, SecondSide(n, c), SecondPath(path, c), g, env))
  {
    var j, fs, ss := JoinOf(w, n, env, c), Rows(w, FirstSide(n, c), FirstPath(path, c), g, env), Rows(w, SecondSide(n, c), SecondPath(path, c), g, env);
    var second, flat := SecondRows(w, n, path, g, env, c), (f: Env) => ss;
    assert !j.secondOuter;
    hide Rows, JoinOf, CaseAt, FirstSide, SecondSide, Uses, Names;
    RowsDependent(w, n, path, g, env, c, second);
    forall f | f in fs ensures second(f) == flat(f) {
      RowsHaveSchema(w, FirstSide(n, c), FirstPath(path, c), g, env, f);
      UnusedRows(w, SecondSide(n, c), SecondPath(path, c), g, env, FirstSide(n, c), f);
    }
    hide SecondRows;
    assert forall f | f in fs :: FromFirst(j, f, second(f)) == FromFirst(j, f, flat(f));
    SecondKept(j, j, fs, second, flat);
    NoSecondOuter(j, fs, ss, flat);
  }

  lemma {:induction false} SwapPair(w: World, n: JoinNode, env: Env, c: Case, c': Case, f: Env, s: Env)
    requires n.JoinInner? && WellFormed(n) && c.leftFirst != c'.leftFirst && f.Keys == Schema(FirstSide(n, c)) && s.Keys == Schema(SecondSide(n, c))
    ensures Pair(JoinOf(w, n, env, c), f, s) == Pair(JoinOf(w, n, env, c'), s, f)
  {
    SchemasApart(n, c);
    SwapPlus(env, f, s);
    hide WellFormed, AllTrue, Schema, FirstSide, SecondSide, Nulls;
    var j, k := JoinOf(w, n, env, c), JoinOf(w, n, env, c');
    assert Merged(env, f, s, c) == Merged(env, s, f, c');
    assert j.weak(f, s) == k.weak(s, f) && j.strong(f, s) == k.strong(s, f) && j.mk(f, s) == k.mk(s, f);
    hide JoinOf;
  }

  lemma {:induction false} SwapPlus(env: Env, f: Env, s: Env)
    requires f.Keys !! s.Keys
    ensures f + s == s + f && env + f + s == env + s + f
  {
  }

  /** An inner join with the sides the other way round. */
  lemma {:induction false} SwapSides(w: World, n: JoinNode, path: Path, g: Graph, env: Env, c: Case, c': Case)
    requires n.JoinInner? && WellFormed(n) && c.leftFirst != c'.leftFirst && !c.firstOuter && !c'.firstOuter
    requires (c.Independent? ==> !c.secondOuter) && (c'.Independent? ==> !c'.secondOuter)
    ensures JoinBag(JoinOf(w, n, env, c), Rows(w, FirstSide(n, c), FirstPath(path, c), g, env), Rows(w, SecondSide(n, c), SecondPath(path, c), g, env))
         == JoinBag(JoinOf(w, n, env, c'), Rows(w, FirstSide(n, c'), FirstPath(path, c'), g, env), Rows(w, SecondSide(n, c'), SecondPath(path, c'), g, env))
  {
    var j, k := JoinOf(w, n, env, c), JoinOf(w, n, env, c');
    var fs, ss := Rows(w, FirstSide(n, c), FirstPath(path, c), g, env), Rows(w, SecondSide(n, c), SecondPath(path, c), g, env);
    assert IsInner(j) && IsInner(k);
    assert FirstSide(n, c') == SecondSide(n, c) && SecondSide(n, c') == FirstSide(n, c);
    assert FirstPath(path, c') == SecondPath(path, c) && SecondPath(path, c') == FirstPath(path, c);
    hide Rows, JoinOf, WellFormed, FirstSide, SecondSide, JoinBag, Pair;
    forall f, s | f in fs && s in ss ensures Pair(j, f, s) == Pair(k, s, f) {
      RowsHaveSchema(w, FirstSide(n, c), FirstPath(path, c), g, env, f);
      RowsHaveSchema(w, SecondSide(n, c), SecondPath(path, c), g, env, s);
      SwapPair(w, n, env, c, c', f, s);
    }
    InnerSwap(j, k, fs, ss);
  }

  lemma {:induction false} SameOuter(w: World, n: JoinNode, env: Env, c: Case, c': Case, fs: multiset<Env>, ss: multiset<Env>)
    requires n.JoinInner? && c.leftFirst == c'.leftFirst && c.firstOuter == c'.firstOuter
    requires (c.Independent? ==> !c.secondOuter) && (c'.Independent? ==> !c'.secondOuter)
    ensures JoinBag(JoinOf(w, n, env, c), fs, ss) == JoinBag(JoinOf(w, n, env, c'), fs, ss)
  {
    var j, k := JoinOf(w, n, env, c), JoinOf(w, n, env, c');
    assert SameJoin(j, k);
    hide JoinOf;
    SameJoinBag(j, k, fs, ss);
  }

  /** One join that waits without need. */
  lemma {:induction false} WaitsAtJoin(w: World, n: JoinNode, path: Path, g: Graph, env: Env, c: Case, c': Case)
    requires n.JoinInner? && WellFormed(n) && CaseAt(g, path, n.jt) == Some(c') && c'.Dependent? && c.Independent? && !c.secondOuter
    requires c.firstOuter == c'.firstOuter && (c.leftFirst == c'.leftFirst || !c.firstOuter)
    requires Uses(n.left) !! Names(n.right) && Uses(n.right) !! Names(n.left)
    ensures Rows(w, n, path, g, env)
         == JoinBag(JoinOf(w, n, env, c), Rows(w, FirstSide(n, c), FirstPath(path, c), g, env), Rows(w, SecondSide(n, c), SecondPath(path, c), g, env))
  {
    WaitForFirst(w, n, path, g, env, c');
    hide Rows, JoinOf, WellFormed, CaseAt, JoinBag;
    if c.leftFirst == c'.leftFirst {
      SameOuter(w, n, env, c, c', Rows(w, FirstSide(n, c), FirstPath(path, c), g, env), Rows(w, SecondSide(n, c), SecondPath(path, c), g, env));
    } else {
      SwapSides(w, n, path, g, env, c, c');
    }
  }

  /** More waiting than a scoped tree needs does not change its rows. */
  lemma {:induction false} MoreWaits(w: World, n: JoinNode, path: Path, g: Graph, g': Graph)
    requires WellFormed(n) && Scoped(n, path, g) && (forall p | p in g :: p in g') && ServedFrom(n, path, g')
    ensures Alike(w, n, g, n, g', path)
    decreases n
  {
    if n.JoinInner? {
      MoreWaits(w, n.left, path + "L", g, g');
      MoreWaits(w, n.right, path + "R", g, g');
      CaseGrows(g, g', path, n.jt);
      var c, c' := CaseAt(g, path, n.jt).value, CaseAt(g', path, n.jt).value;
      assert c.Independent? ==> Uses(n.left) !! Names(n.right) && Uses(n.right) !! Names(n.left);
      forall env | Avoids(env, n) ensures Rows(w, n, path, g, env) == Rows(w, n, path, g', env) {
        MoreWaitsIn(w, n, path, g, g', env, c, c');
      }
    }
  }

  lemma {:induction false} MoreWaitsIn(w: World, n: JoinNode, path: Path, g: Graph, g': Graph, env: Env, c: Case, c': Case)
    requires n.JoinInner? && WellFormed(n) && Avoids(env, n) && CaseAt(g, path, n.jt) == Some(c) && CaseAt(g', path, n.jt) == Some(c')
    requires c == c' || (c.Independent? && !c.secondOuter && c'.Dependent? && c'.firstOuter == c.firstOuter
                         && (c.leftFirst == c'.leftFirst || (n.jt == Inner && !c.firstOuter)))
    requires c.Independent? ==> Uses(n.left) !! Names(n.right) && Uses(n.right) !! Names(n.left)
    requires Alike(w, n.left, g, n.left, g', path + "L") && Alike(w, n.right, g, n.right, g', path + "R")
    ensures Rows(w, n, path, g, env) == Rows(w, n, path, g', env)
  {
    hide Rows, JoinOf, CaseAt, JoinBag;
    if c == c' {
      SidesSame(w, n, g, n, g', path, env);
    } else {
      RowsIndependent(w, n, path, g, env, c);
      WaitsAtJoin(w, n, path, g', env, c, c');
      AvoidsSides(n, env, c, map[]);
      AlikeAt(w, FirstSide(n, c), g, FirstSide(n, c), g', FirstPath(path, c), env);
      AlikeAt(w, SecondSide(n, c), g, SecondSide(n, c), g', SecondPath(path, c), env);
    }
  }

  // ---------------------------------------------------------------------------------------------
  //  Moves and scopes
  // ---------------------------------------------------------------------------------------------

  lemma {:induction false} PushScoped(e: ValExpr, n: JoinNode, path: Path, g: Graph)
    ensures Scoped(Push(e, n), path, g) == Scoped(n, path, g)
  {
  }

  /** A tree stays scoped by a move exactly if the conjunction finds its columns where it is moved to. */
  lemma {:induction false} MoveScopedExactly(n: JoinNode, path: Path, g: Graph, i: nat, strong: bool, toRight: bool, c: Case)
    requires n.JoinInner? && WellFormed(n) && i < |Conjunctions(n, strong)| && CaseAt(g, path, n.jt) == Some(c)
    ensures Scoped(Moved(n, i, strong, toRight), path, g) <==> Scoped(n, path, g) && Sees(n, Conjunctions(n, strong)[i], toRight, c)
  {
    var e := Conjunctions(n, strong)[i];
    PushScoped(e, n.left, path + "L", g);
    PushScoped(e, n.right, path + "R", g);
    PushUses(e, n.left);
    PushUses(e, n.right);
    PushShape(e, n.left);
    PushShape(e, n.right);
    SidesAvoid(n, i, strong);
    assert Insides(n.left) !! Names(n.right) && Insides(n.right) !! Names(n.left) && Names(n.left) !! Names(n.right);
    MovedScopes(n, path, g, i, strong, toRight, c);
    hide WellFormed, CaseAt, Push, Uses, Tables, Names, Insides, Scoped, Moved;
  }

  /** What it takes for the tree after a move to be scoped, side by side. */
  lemma {:induction false} MovedScopes(n: JoinNode, path: Path, g: Graph, i: nat, strong: bool, toRight: bool, c: Case)
    requires n.JoinInner? && i < |Conjunctions(n, strong)| && CaseAt(g, path, n.jt) == Some(c)
    ensures var e := Conjunctions(n, strong)[i];
      var l, r := if toRight then n.left else Push(e, n.left), if toRight then Push(e, n.right) else n.right;
      && (Scoped(n, path, g) <==> ScopedSides(n.left, n.right, path, g, c))
      && (Scoped(Moved(n, i, strong, toRight), path, g) <==> ScopedSides(l, r, path, g, c))
  {
    hide CaseAt, Push, Uses, Names;
  }

  predicate ScopedSides(l: JoinNode, r: JoinNode, path: Path, g: Graph, c: Case) {
    && Scoped(l, path + "L", g) && Scoped(r, path + "R", g)
    && (c.leftFirst || c.Independent? ==> Uses(l) !! Names(r))
    && (!c.leftFirst || c.Independent? ==> Uses(r) !! Names(l))
  }

  // ---------------------------------------------------------------------------------------------
  //  Where a conjunction does not find a column
  // ---------------------------------------------------------------------------------------------

  /** The columns an expression uses outside its subqueries. */
  function Direct(e: ValExpr): set<ColumnRef> {
    match e
    case Column(c) => {c}
    case Unary(_, x) => Direct(x)
    case Binary(_, l, r) => Direct(l) + Direct(r)
    case Value(_) => {}
    case Subquery(_, _) => {}
  }

  lemma {:induction false} MissingColumn(w: World, e: ValExpr, env: Env, x: ColumnRef)
    requires x in Direct(e) && x !in env
    ensures Eval(w, e, env) == Err
  {
    match e
    case Unary(_, y) => MissingColumn(w, y, env, x);
    case Binary(_, l, r) =>
      if x in Direct(l) { MissingColumn(w, l, env, x); } else { MissingColumn(w, r, env, x); }
    case _ =>
  }

  lemma {:induction false} KeepsNone<A(!new)>(m: multiset<A>, p: A -> bool)
    requires forall x | x in m :: !p(x)
    ensures Keep(m, p) == multiset{}
  {
    SumNothing(m, x => if p(x) then multiset{x} else multiset{});
  }

  /** A side with a conjunction that uses a column of the other returns nothing by itself. */
  lemma {:induction false} BlindSide(w: World, e: ValExpr, n: JoinNode, path: Path, g: Graph, env: Env, x: ColumnRef)
    requires WellFormed(n) && Avoids(env, n) && Tables(e) !! Insides(n) && x in Direct(e) && x !in env && x.table !in Names(n)
    ensures Rows(w, Push(e, n), path, g, env) == multiset{}
  {
    var p := (r: Env) => IsTrue(w, e, env + r);
    SchemaNames(n);
    hide WellFormed, Avoids, Rows, Tables, Insides;
    PushMeans(w, e, n, path, g, env, p);
    var rows := Rows(w, n, path, g, env);
    forall r | r in rows ensures !p(r) {
      RowsHaveSchema(w, n, path, g, env, r);
      MissingColumn(w, e, env + r, x);
    }
    KeepsNone(rows, p);
  }

  lemma {:induction false} NothingSecond(j: Join<Env, Env>, fs: multiset<Env>)
    requires IsInner(j)
    ensures JoinBag(j, fs, multiset{}) == multiset{}
  {
    SumNothing(fs, f => FromFirst(j, f, multiset{}));
  }

  /** Moving a strong conjunction to a side that does not wait for the other, though it uses a column of it
      outside its subqueries, empties the join: the rows are kept exactly if there were none. */
  lemma {:induction false} BlindMoveIsEmpty(w: World, n: JoinNode, path: Path, g: Graph, i: nat, toRight: bool, env: Env, c: Case, x: ColumnRef)
    requires n.JoinInner? && WellFormed(n) && Avoids(env, n) && i < |n.strong| && Allowed(n.jt, true, toRight)
    requires CaseAt(g, path, n.jt) == Some(c) && !(c.Dependent? && toRight == c.leftFirst)
    requires x in Direct(n.strong[i]) && x.table in Names(if toRight then n.left else n.right)
    ensures Rows(w, Moved(n, i, true, toRight), path, g, env) == multiset{}
  {
    var e, n' := n.strong[i], Moved(n, i, true, toRight);
    SidesAvoid(n, i, true);
    AvoidsSides(n, env, c, map[]);
    CaseFacts(g, path, n.jt, c);
    var side := if toRight then n.right else n.left;
    assert x !in env && x.table !in Names(side) && WellFormed(side) && Avoids(env, side);
    BlindSide(w, e, side, path + if toRight then "R" else "L", g, env, x);
    var j := JoinOf(w, n', env, c);
    if toRight == c.leftFirst {
      assert IsInner(j);
      RowsIndependent(w, n', path, g, env, c);
      NothingSecond(j, Rows(w, FirstSide(n', c), FirstPath(path, c), g, env));
    } else {
      RowsDependent(w, n', path, g, env, c, SecondRows(w, n', path, g, env, c));
    }
  }

  /** A strong conjunction that uses a side, if at all, outside its subqueries too: moving it to the other side
      keeps the rows exactly if it finds its columns there, or if there are no rows. */
  lemma {:induction false} MoveKeepsExactly(w: World, n: JoinNode, path: Path, g: Graph, i: nat, toRight: bool, env: Env, c: Case)
    requires n.JoinInner? && WellFormed(n) && Avoids(env, n) && i < |n.strong| && Allowed(n.jt, true, toRight) && CaseAt(g, path, n.jt) == Some(c)
    requires var other := if toRight then n.left else n.right;
      Tables(n.strong[i]) !! Names(other) || exists x :: x in Direct(n.strong[i]) && x.table in Names(other)
    ensures Rows(w, Moved(n, i, true, toRight), path, g, env) == Rows(w, n, path, g, env)
      <==> Sees(n, n.strong[i], toRight, c) || Rows(w, n, path, g, env) == multiset{}
  {
    hide Rows, WellFormed, Avoids, CaseAt, Tables, Moved;
    if Sees(n, n.strong[i], toRight, c) {
      MoveKeepsRows(w, n, path, g, i, true, toRight, env, c);
    } else {
      var x :| x in Direct(n.strong[i]) && x.table in Names(if toRight then n.left else n.right);
      BlindMoveIsEmpty(w, n, path, g, i, toRight, env, c, x);
    }
  }
}
