/** The join optimizer (src/query_converter.rs:1892-2152): it terminates for every tree, its
    dependency graph stays free of cycles, and it keeps the rows of the tree if in the result every
    conjunction finds its columns, which Rule 1 never endangers. */
module JoinOptimizer {
  import opened Wrappers
  import opened Values
  import opened Expressions
  import opened JoinLaws
  import opened JoinTrees
  import opened JoinPlans
  import opened PushDown
  import opened MoveDown
  import opened JoinScopes

  // ---------------------------------------------------------------------------------------------
  //  The measure
  // ---------------------------------------------------------------------------------------------

  function Height(n: JoinNode): nat {
    if n.JoinLeaf? then 0
    else 1 + if Height(n.left) > Height(n.right) then Height(n.left) else Height(n.right)
  }

  /** What a conjunction at a given height counts: more than two copies one level down. */
  function Power(h: nat): nat {
    if h == 0 then 1 else 3 * Power(h - 1)
  }

  function Cost(n: JoinNode): nat {
    if n.JoinLeaf? then 0 else Power(Height(n))
  }

  function Weight(n: JoinNode): nat {
    if n.JoinLeaf? then 0 else Weight(n.left) + Weight(n.right) + (|n.weak| + |n.strong|) * Cost(n)
  }

  lemma {:induction false} PowerGrows(a: nat, b: nat)
    requires a <= b
    ensures 0 < Power(a) <= Power(b)
    decreases b
  {
    if a < b { PowerGrows(a, b - 1); } else if a > 0 { PowerGrows(a - 1, a - 1); }
  }

  lemma {:induction false} PushWeight(e: ValExpr, n: JoinNode)
    ensures Height(Push(e, n)) == Height(n) && Weight(Push(e, n)) == Weight(n) + Cost(n)
  {
    if n.JoinInner? {
      var c := |n.weak| + |n.strong|;
      assert (c + 1) * Cost(n) == c * Cost(n) + Cost(n);
    }
  }

  /** Two copies one level down count less than the conjunction did. */
  lemma {:induction false} ChildCost(n: JoinNode)
    requires n.JoinInner?
    ensures 2 * Cost(n.left) < Cost(n) && 2 * Cost(n.right) < Cost(n) && Cost(n.left) + Cost(n.right) < Cost(n)
  {
    var h := Height(n);
    PowerGrows(h - 1, h);
    PowerGrows(Height(n.left), h - 1);
    PowerGrows(Height(n.right), h - 1);
  }

  // ---------------------------------------------------------------------------------------------
  //  One join
  // ---------------------------------------------------------------------------------------------

  /** The two sides of a join and the graph, while conjunctions are being pushed. */
  datatype State = State(left: JoinNode, right: JoinNode, graph: Graph)

  /** The names, heights and shapes of the sides do not change. */
  predicate SameSides(a: State, b: State) {
    && Names(a.left) == Names(b.left) && Names(a.right) == Names(b.right)
    && Height(a.left) == Height(b.left) && Height(a.right) == Height(b.right)
    && SkeletonOf(a.left) == SkeletonOf(b.left) && SkeletonOf(a.right) == SkeletonOf(b.right)
  }

  function SidesWeight(s: State): nat { Weight(s.left) + Weight(s.right) }

  function Pushed(s: State, e: ValExpr, toRight: bool): State {
    if toRight then s.(right := Push(e, s.right)) else s.(left := Push(e, s.left))
  }

  /** `try_push_expr`: whether the join type lets the conjunction down, and the dependency recorded. */
  function TryPush(s: State, jt: JoinType, path: Path, e: ValExpr, strong: bool, toRight: bool): Option<State> {
    var (here, there) := if toRight then (path + "R", path + "L") else (path + "L", path + "R");
    var others := if toRight then Names(s.left) else Names(s.right);
    if strong then
      if (if toRight then NonLeft(jt) else NonRight(jt)) then Some(Pushed(s, e, toRight)) else None
    else if !(if toRight then NonRight(jt) else NonLeft(jt)) then None
    else if Tables(e) !! others then Some(Pushed(s, e, toRight))
    else if there in s.graph then None
    else Some(Pushed(s, e, toRight).(graph := s.graph[here := there]))
  }

  lemma {:induction false} PushedKeeps(s: State, e: ValExpr, toRight: bool)
    ensures var r := Pushed(s, e, toRight);
      r.graph == s.graph && SameSides(s, r)
      && SidesWeight(r) == SidesWeight(s) + (if toRight then Cost(s.right) else Cost(s.left))
  {
    PushShape(e, s.left);
    PushShape(e, s.right);
    PushWeight(e, s.left);
    PushWeight(e, s.right);
    hide Push, Height, Weight, Cost;
  }

  lemma {:induction false} TryPushKeeps(s: State, jt: JoinType, path: Path, e: ValExpr, strong: bool, toRight: bool)
    requires Acyclic(s.graph)
    ensures var r := TryPush(s, jt, path, e, strong, toRight);
      r.None? || (Acyclic(r.value.graph) && SameSides(s, r.value)
                  && SidesWeight(r.value) == SidesWeight(s) + (if toRight then Cost(s.right) else Cost(s.left)))
  {
    PushedKeeps(s, e, toRight);
    hide Pushed, SameSides, Tables, Weight, Cost;
    var g := Pushed(s, e, toRight);
    SameSidesGraph(s, g, s.graph[(path + if toRight then "R" else "L") := path + if toRight then "L" else "R"]);
    if toRight {
      if path + "L" !in s.graph { AddDependency(s.graph, path, false); }
    } else {
      if path + "R" !in s.graph { AddDependency(s.graph, path, true); }
    }
  }

  /** What newly waits at a join may wait there. */
  ghost predicate Waits(jt: JoinType, path: Path, g: Graph, g': Graph) {
    && (forall p | p in g :: p in g')
    && (forall p | p in g' && p !in g :: (p == path + "R" && NonRight(jt)) || (p == path + "L" && NonLeft(jt)))
  }

  lemma {:induction false} TryPushWaits(s: State, jt: JoinType, path: Path, e: ValExpr, strong: bool, toRight: bool)
    ensures var r := TryPush(s, jt, path, e, strong, toRight); r.None? || Waits(jt, path, s.graph, r.value.graph)
  {
  }

  lemma {:induction false} WaitsTwice(jt: JoinType, path: Path, g1: Graph, g2: Graph, g3: Graph)
    requires Waits(jt, path, g1, g2) && Waits(jt, path, g2, g3)
    ensures Waits(jt, path, g1, g3)
  {
  }

  lemma {:induction false} WaitsAdded(jt: JoinType, path: Path, g: Graph, g': Graph, s: Skeleton)
    requires s.Node? && s.jt == jt && Waits(jt, path, g, g')
    ensures Added(s, path, g, g')
  {
    forall p | p in g' && p !in g ensures path <= p && MayWait(s, p[|path|..]) {
      assert p == path + "R" ==> p[|path|..] == "R";
      assert p == path + "L" ==> p[|path|..] == "L";
    }
  }

  lemma {:induction false} SameSidesGraph(a: State, b: State, g: Graph)
    requires SameSides(a, b)
    ensures SameSides(a, b.(graph := g)) && SidesWeight(b.(graph := g)) == SidesWeight(b)
  {
  }

  /** The cost of a conjunction of the join. */
  function JoinCost(s: State): nat {
    Power(1 + if Height(s.left) > Height(s.right) then Height(s.left) else Height(s.right))
  }

  lemma {:induction false} SidesCost(s: State)
    ensures 2 * Cost(s.left) < JoinCost(s) && 2 * Cost(s.right) < JoinCost(s) && Cost(s.left) + Cost(s.right) < JoinCost(s)
  {
    ChildCost(JoinInner(s.left, s.right, Inner, [], []));
  }

  lemma {:induction false} SameCost(a: State, b: State)
    requires SameSides(a, b)
    ensures JoinCost(a) == JoinCost(b) && Cost(a.left) == Cost(b.left) && Cost(a.right) == Cost(b.right)
  {
  }

  /** What a pass over some conjunctions guarantees: what was pushed costs less than what is gone, and
      nothing changes unless something was pushed. */
  ghost predicate Progress(a: State, b: State, before: nat, after: nat, changed: bool) {
    && Acyclic(b.graph) && SameSides(a, b) && after <= before
    && (changed ==> SidesWeight(b) + after * JoinCost(a) < SidesWeight(a) + before * JoinCost(a))
    && (!changed ==> a == b && after == before)
  }

  lemma {:induction false} ProgressStep(a: State, b: State, c: State, before: nat, after: nat, changed: bool, moved: bool)
    requires Progress(a, b, before, after, changed) && SameSides(b, c) && Acyclic(c.graph)
    requires moved ==> SidesWeight(c) < SidesWeight(b) + JoinCost(b)
    requires !moved ==> c == b
    ensures Progress(a, c, before + 1, if moved then after else after + 1, changed || moved)
  {
    SameCost(a, b);
    var k := JoinCost(a);
    assert (before + 1) * k == before * k + k && (after + 1) * k == after * k + k;
  }

  // ---------------------------------------------------------------------------------------------
  //  Meaning
  // ---------------------------------------------------------------------------------------------

  /** What Rule 2 acts on: an equality one of whose sides is the first key column of a table. */
  predicate KeyEquality(e: ValExpr, firstKey: map<string, ColName>) {
    e.Binary? && e.bop == Eq && (IsFirstKey(e.left, firstKey) || IsFirstKey(e.right, firstKey))
  }

  predicate IsFirstKey(x: ValExpr, firstKey: map<string, ColName>) {
    x.Column? && x.ref.table in firstKey && firstKey[x.ref.table] == x.ref.col
  }

  predicate NoKeyEqualities(es: seq<ValExpr>, firstKey: map<string, ColName>) {
    forall e | e in es :: !KeyEquality(e, firstKey)
  }

  /** Rule 2 has nothing to act on anywhere in the tree. */
  predicate KeyFree(n: JoinNode, firstKey: map<string, ColName>) {
    n.JoinInner? ==> NoKeyEqualities(n.weak, firstKey) && NoKeyEqualities(n.strong, firstKey) && KeyFree(n.left, firstKey) && KeyFree(n.right, firstKey)
  }

  /** Under a graph, the first tree finds its columns if the second does, and then both have the same rows
      wherever their names are new; with `always` they have the same rows in any case. */
  ghost predicate SameUnder(w: World, path: Path, g: Graph, a: JoinNode, b: JoinNode, always: bool) {
    && (Scoped(b, path, g) ==> Scoped(a, path, g))
    && (always || Scoped(b, path, g) ==> Alike(w, a, g, b, g, path))
  }

  /** The second tree is the first with conjunctions moved down. */
  ghost predicate SameRows(w: World, path: Path, a: JoinNode, b: JoinNode, always: bool) {
    && (WellFormed(a) ==> WellFormed(b))
    && Names(a) == Names(b) && Insides(a) == Insides(b) && Schema(a) == Schema(b) && SkeletonOf(a) == SkeletonOf(b)
    && (forall firstKey | KeyFree(a, firstKey) :: KeyFree(b, firstKey))
    && (WellFormed(a) ==> Uses(a) - Names(a) <= Uses(b) && forall g :: SameUnder(w, path, g, a, b, always))
  }

  lemma {:induction false} AlikeTransitive(w: World, g: Graph, path: Path, a: JoinNode, b: JoinNode, c: JoinNode)
    requires Alike(w, a, g, b, g, path) && Alike(w, b, g, c, g, path) && Names(a) == Names(b) && Insides(a) == Insides(b)
    ensures Alike(w, a, g, c, g, path)
  {
    hide Rows;
    forall env | Avoids(env, a) ensures Rows(w, a, path, g, env) == Rows(w, c, path, g, env) { assert Avoids(env, b); }
  }

  lemma {:induction false} SameRowsTransitive(w: World, path: Path, a: JoinNode, b: JoinNode, c: JoinNode, always: bool)
    requires SameRows(w, path, a, b, always) && SameRows(w, path, b, c, always)
    ensures SameRows(w, path, a, c, always)
  {
    hide WellFormed, Alike, Scoped, Uses, KeyFree;
    if WellFormed(a) {
      forall g ensures SameUnder(w, path, g, a, c, always) {
        assert SameUnder(w, path, g, a, b, always) && SameUnder(w, path, g, b, c, always);
        if always || Scoped(c, path, g) { AlikeTransitive(w, g, path, a, b, c); }
      }
    }
  }

  lemma {:induction false} SameRowsWeaken(w: World, path: Path, a: JoinNode, b: JoinNode, strict: bool, always: bool)
    requires SameRows(w, path, a, b, strict) && (always ==> strict)
    ensures SameRows(w, path, a, b, always)
  {
    hide WellFormed, Alike, Scoped, Uses, KeyFree;
    forall g | WellFormed(a) ensures SameUnder(w, path, g, a, b, always) { assert SameUnder(w, path, g, a, b, strict); }
  }

  lemma {:induction false} PushWellFormed(e: ValExpr, n: JoinNode)
    requires WellFormed(n) && Tables(e) !! Insides(n)
    ensures WellFormed(Push(e, n))
  {
    if n.JoinInner? {
      forall x | x in n.strong + [e] ensures Tables(x) !! Insides(n) { assert x in n.strong || x == e; }
    }
  }

  lemma {:induction false} MovedWellFormed(n: JoinNode, i: nat, strong: bool, toRight: bool)
    requires n.JoinInner? && WellFormed(n) && i < |Conjunctions(n, strong)|
    ensures WellFormed(Moved(n, i, strong, toRight))
  {
    var e := Conjunctions(n, strong)[i];
    SidesAvoid(n, i, strong);
    PushShape(e, n.left);
    PushShape(e, n.right);
    PushWellFormed(e, n.left);
    PushWellFormed(e, n.right);
    var n' := Moved(n, i, strong, toRight);
    assert Insides(n') == Insides(n);
    forall x | x in n'.weak ensures Tables(x) !! Insides(n') { assert x in n.weak; }
    forall x | x in n'.strong ensures Tables(x) !! Insides(n') { assert x in n.strong; }
  }

  lemma {:induction false} MovedNames(n: JoinNode, i: nat, strong: bool, toRight: bool)
    requires n.JoinInner? && i < |Conjunctions(n, strong)|
    ensures var n' := Moved(n, i, strong, toRight);
      Names(n') == Names(n) && Insides(n') == Insides(n) && Schema(n') == Schema(n) && SkeletonOf(n') == SkeletonOf(n)
  {
    var e := Conjunctions(n, strong)[i];
    PushShape(e, n.left);
    PushShape(e, n.right);
  }

  lemma {:induction false} WithoutTables(es: seq<ValExpr>, i: nat)
    requires i < |es|
    ensures TablesOf(es) <= TablesOf(Without(es, i)) + Tables(es[i])
  {
    forall t | t in TablesOf(es) ensures t in TablesOf(Without(es, i)) + Tables(es[i]) {
      var x :| x in es && t in Tables(x);
      var k :| 0 <= k < |es| && es[k] == x;
      if k != i { assert Without(es, i)[if k < i then k else k - 1] == x; }
    }
  }

  lemma {:induction false} MovedUses(n: JoinNode, i: nat, strong: bool, toRight: bool)
    requires n.JoinInner? && i < |Conjunctions(n, strong)|
    ensures Uses(n) - Names(n) <= Uses(Moved(n, i, strong, toRight))
  {
    var e := Conjunctions(n, strong)[i];
    PushUses(e, n.left);
    PushUses(e, n.right);
    WithoutTables(Conjunctions(n, strong), i);
    hide Push, Tables, TablesOf;
  }

  lemma {:induction false} MovedKeyFree(n: JoinNode, i: nat, strong: bool, toRight: bool, firstKey: map<string, ColName>)
    requires n.JoinInner? && i < |Conjunctions(n, strong)| && KeyFree(n, firstKey)
    ensures KeyFree(Moved(n, i, strong, toRight), firstKey)
  {
    var e, n' := Conjunctions(n, strong)[i], Moved(n, i, strong, toRight);
    PushKeyFree(e, n.left, firstKey);
    PushKeyFree(e, n.right, firstKey);
    hide KeyEquality, KeyFree, Push;
    forall x | x in n'.weak ensures x in n.weak { }
    forall x | x in n'.strong ensures x in n.strong { }
  }

  lemma {:induction false} PushKeyFree(e: ValExpr, n: JoinNode, firstKey: map<string, ColName>)
    requires KeyFree(n, firstKey) && !KeyEquality(e, firstKey)
    ensures KeyFree(Push(e, n), firstKey)
  {
  }

  /** A move, of a conjunction that uses one side alone if the rows are to be the same in any case. */
  lemma {:induction false} MoveSameRows(w: World, path: Path, n: JoinNode, i: nat, strong: bool, toRight: bool, always: bool)
    requires n.JoinInner? && i < |Conjunctions(n, strong)| && Allowed(n.jt, strong, toRight)
    requires always ==> Tables(Conjunctions(n, strong)[i]) !! Names(if toRight then n.left else n.right)
    ensures SameRows(w, path, n, Moved(n, i, strong, toRight), always)
  {
    var n' := Moved(n, i, strong, toRight);
    MovedNames(n, i, strong, toRight);
    MovedUses(n, i, strong, toRight);
    forall firstKey | KeyFree(n, firstKey) ensures KeyFree(n', firstKey) { MovedKeyFree(n, i, strong, toRight, firstKey); }
    if WellFormed(n) {
      MovedWellFormed(n, i, strong, toRight);
      hide WellFormed, Scoped, Alike, Uses, Moved, Tables, Names, KeyFree;
      forall g ensures SameUnder(w, path, g, n, n', always) { MoveSameUnder(w, path, g, n, i, strong, toRight, always); }
    }
  }

  lemma {:induction false} MoveSameUnder(w: World, path: Path, g: Graph, n: JoinNode, i: nat, strong: bool, toRight: bool, always: bool)
    requires n.JoinInner? && WellFormed(n) && i < |Conjunctions(n, strong)| && Allowed(n.jt, strong, toRight)
    requires always ==> Tables(Conjunctions(n, strong)[i]) !! Names(if toRight then n.left else n.right)
    ensures SameUnder(w, path, g, n, Moved(n, i, strong, toRight), always)
  {
    var n' := Moved(n, i, strong, toRight);
    assert CaseAt(g, path, n.jt).Some?;
    var c := CaseAt(g, path, n.jt).value;
    hide WellFormed, Scoped, Rows, Moved, CaseAt, Tables, Names;
    MoveScopedExactly(n, path, g, i, strong, toRight, c);
    if always || Scoped(n', path, g) {
      forall env | Avoids(env, n) ensures Rows(w, n, path, g, env) == Rows(w, n', path, g, env) {
        MoveKeepsRows(w, n, path, g, i, strong, toRight, env, c);
      }
    }
  }

  /** The join made of the state and its conjunctions. */
  function JoinWith(s: State, jt: JoinType, cs: seq<ValExpr>, others: seq<ValExpr>, strong: bool): JoinNode {
    if strong then JoinInner(s.left, s.right, jt, others, cs) else JoinInner(s.left, s.right, jt, cs, others)
  }

  lemma {:induction false} PushedIsMoved(s: State, jt: JoinType, kept: seq<ValExpr>, e: ValExpr, rest: seq<ValExpr>,
                                         others: seq<ValExpr>, strong: bool, toRight: bool)
    ensures Moved(JoinWith(s, jt, kept + ([e] + rest), others, strong), |kept|, strong, toRight)
         == JoinWith(Pushed(s, e, toRight), jt, kept + rest, others, strong)
  {
    var all := kept + ([e] + rest);
    assert all[|kept|] == e && Without(all, |kept|) == kept + rest;
  }

  // ---------------------------------------------------------------------------------------------
  //  The two rules
  // ---------------------------------------------------------------------------------------------

  /** What Rule 1 does with one conjunction. */
  function RuleOneOn(s: State, jt: JoinType, path: Path, e: ValExpr, strong: bool): Option<State> {
    if Tables(e) !! Names(s.left) then TryPush(s, jt, path, e, strong, true)
    else if Tables(e) !! Names(s.right) then TryPush(s, jt, path, e, strong, false)
    else None
  }

  lemma {:induction false} RuleOneProgress(s: State, jt: JoinType, path: Path, e: ValExpr, strong: bool)
    requires Acyclic(s.graph)
    ensures var r := RuleOneOn(s, jt, path, e, strong);
      r.None? || (Acyclic(r.value.graph) && SameSides(s, r.value) && SidesWeight(r.value) < SidesWeight(s) + JoinCost(s))
  {
    SidesCost(s);
    TryPushKeeps(s, jt, path, e, strong, true);
    TryPushKeeps(s, jt, path, e, strong, false);
    hide TryPush, SameSides, JoinCost, Weight, Cost, Tables;
  }

  lemma {:induction false} RuleOneWaits(s: State, jt: JoinType, path: Path, e: ValExpr, strong: bool)
    ensures var r := RuleOneOn(s, jt, path, e, strong); r.None? || Waits(jt, path, s.graph, r.value.graph)
  {
    TryPushWaits(s, jt, path, e, strong, true);
    TryPushWaits(s, jt, path, e, strong, false);
  }

  lemma {:induction false} RuleOneMeans(w: World, s: State, jt: JoinType, path: Path, kept: seq<ValExpr>, e: ValExpr,
                                        rest: seq<ValExpr>, others: seq<ValExpr>, strong: bool)
    ensures var r := RuleOneOn(s, jt, path, e, strong);
      r.None? || SameRows(w, path, JoinWith(s, jt, kept + ([e] + rest), others, strong), JoinWith(r.value, jt, kept + rest, others, strong), true)
  {
    var n := JoinWith(s, jt, kept + ([e] + rest), others, strong);
    var r := RuleOneOn(s, jt, path, e, strong);
    if r.Some? {
      var toRight := Tables(e) !! Names(s.left);
      assert r.value == Pushed(s, e, toRight) && Allowed(jt, strong, toRight);
      assert Conjunctions(n, strong)[|kept|] == e;
      PushedIsMoved(s, jt, kept, e, rest, others, strong, toRight);
      hide SameRows, RuleOneOn, TryPush;
      MoveSameRows(w, path, n, |kept|, strong, toRight, true);
    }
  }

  // What is left to do.

  /** Rule 1 could move the conjunction: it uses one side at most, and the type of the join allows it. */
  predicate RuleOneApplies(l: JoinNode, r: JoinNode, jt: JoinType, e: ValExpr, strong: bool) {
    if Tables(e) !! Names(l) then Allowed(jt, strong, true) else Tables(e) !! Names(r) && Allowed(jt, strong, false)
  }

  /** Rule 2 could move the conjunction towards a side: the type of the join allows it, and for a weak one
      that uses the other side as well, the other side does not wait for this one. */
  predicate MayBePushed(s: State, jt: JoinType, path: Path, e: ValExpr, strong: bool, toRight: bool) {
    && Allowed(jt, strong, toRight)
    && (strong || Tables(e) !! Names(if toRight then s.left else s.right) || path + (if toRight then "L" else "R") !in s.graph)
  }

  /** ... because that side has the table whose first key column one of its sides is. */
  predicate RuleTwoApplies(s: State, jt: JoinType, path: Path, e: ValExpr, strong: bool, firstKey: map<string, ColName>) {
    && e.Binary? && e.bop == Eq
    && (KeyPushes(s, jt, path, e, e.left, strong, firstKey) || KeyPushes(s, jt, path, e, e.right, strong, firstKey))
  }

  predicate KeyPushes(s: State, jt: JoinType, path: Path, e: ValExpr, x: ValExpr, strong: bool, firstKey: map<string, ColName>) {
    && IsFirstKey(x, firstKey) && (x.ref.table in Names(s.left) || x.ref.table in Names(s.right))
    && MayBePushed(s, jt, path, e, strong, x.ref.table !in Names(s.left))
  }

  lemma {:induction false} RulesExactly(s: State, jt: JoinType, path: Path, e: ValExpr, strong: bool, firstKey: map<string, ColName>)
    ensures RuleOneOn(s, jt, path, e, strong).Some? <==> RuleOneApplies(s.left, s.right, jt, e, strong)
    ensures RuleTwoOn(s, jt, path, e, strong, firstKey).Some? <==> RuleTwoApplies(s, jt, path, e, strong, firstKey)
  {
    TryPushExactly(s, jt, path, e, strong, true);
    TryPushExactly(s, jt, path, e, strong, false);
    hide TryPush, Tables, Names, MayBePushed;
  }

  lemma {:induction false} TryPushExactly(s: State, jt: JoinType, path: Path, e: ValExpr, strong: bool, toRight: bool)
    ensures TryPush(s, jt, path, e, strong, toRight).Some? <==> MayBePushed(s, jt, path, e, strong, toRight)
    ensures Tables(e) !! Names(if toRight then s.left else s.right) ==>
      (TryPush(s, jt, path, e, strong, toRight).Some? <==> Allowed(jt, strong, toRight))
  {
  }

  /** Neither rule applies to any conjunction of the tree. */
  predicate Exhausted(n: JoinNode, path: Path, g: Graph, firstKey: map<string, ColName>) {
    n.JoinInner? ==>
      && ExhaustedList(n, path, g, n.strong, true, firstKey) && ExhaustedList(n, path, g, n.weak, false, firstKey)
      && Exhausted(n.left, path + "L", g, firstKey) && Exhausted(n.right, path + "R", g, firstKey)
  }

  predicate ExhaustedList(n: JoinNode, path: Path, g: Graph, cs: seq<ValExpr>, strong: bool, firstKey: map<string, ColName>)
    requires n.JoinInner?
  {
    forall e | e in cs :: !RuleOneApplies(n.left, n.right, n.jt, e, strong)
                          && !RuleTwoApplies(State(n.left, n.right, g), n.jt, path, e, strong, firstKey)
  }

  lemma {:induction false} RuleDoneUnchanged(w: World, path: Path, s0: State, jt: JoinType, cs: seq<ValExpr>, others: seq<ValExpr>, strong: bool,
                                             s: State, kept: seq<ValExpr>, i: nat, changed: bool, always: bool)
    requires i <= |cs| && RuleDone(w, path, s0, jt, cs, others, strong, s, kept, i, changed, always)
    ensures !changed ==> s == s0
  {
  }

  /** After the first `i` conjunctions: `kept` stay, the others were pushed. */
  ghost predicate RuleDone(w: World, path: Path, s0: State, jt: JoinType, cs: seq<ValExpr>, others: seq<ValExpr>, strong: bool,
                           s: State, kept: seq<ValExpr>, i: nat, changed: bool, always: bool)
    requires i <= |cs|
  {
    && Progress(s0, s, i, |kept|, changed) && (!changed ==> kept == cs[..i])
    && SameRows(w, path, JoinWith(s0, jt, cs, others, strong), JoinWith(s, jt, kept + cs[i..], others, strong), always)
  }

  lemma {:induction false} RuleStart(w: World, path: Path, s: State, jt: JoinType, cs: seq<ValExpr>, others: seq<ValExpr>, strong: bool, always: bool)
    requires Acyclic(s.graph)
    ensures RuleDone(w, path, s, jt, cs, others, strong, s, [], 0, false, always)
  {
    ProgressStart(s);
    assert [] + cs[0..] == cs;
    SameRowsStart(w, path, JoinWith(s, jt, cs, others, strong), always);
    hide Progress, SameRows;
  }

  /** One conjunction more: pushed down, which leads to the state `r`, or kept. */
  lemma {:induction false} RuleStep(w: World, path: Path, s0: State, jt: JoinType, cs: seq<ValExpr>, others: seq<ValExpr>, strong: bool,
                                    s: State, kept: seq<ValExpr>, i: nat, changed: bool, always: bool, r: Option<State>)
    requires i < |cs| && RuleDone(w, path, s0, jt, cs, others, strong, s, kept, i, changed, always)
    requires r.Some? ==> Acyclic(r.value.graph) && SameSides(s, r.value) && SidesWeight(r.value) < SidesWeight(s) + JoinCost(s)
    requires r.Some? ==> SameRows(w, path, JoinWith(s, jt, kept + ([cs[i]] + cs[i + 1..]), others, strong),
                                  JoinWith(r.value, jt, kept + cs[i + 1..], others, strong), always)
    ensures if r.Some? then RuleDone(w, path, s0, jt, cs, others, strong, r.value, kept, i + 1, true, always)
      else RuleDone(w, path, s0, jt, cs, others, strong, s, kept + [cs[i]], i + 1, changed, always)
  {
    hide Progress, SameRows, JoinWith, SameSides;
    var rest := cs[i + 1..];
    var t := if r.Some? then r.value else s;
    assert cs[i..] == [cs[i]] + rest;
    ProgressAcyclic(s0, s, i, |kept|, changed);
    SameSidesSelf(s);
    ProgressStep(s0, s, t, i, |kept|, changed, r.Some?);
    if r.Some? {
      SameRowsTransitive(w, path, JoinWith(s0, jt, cs, others, strong), JoinWith(s, jt, kept + ([cs[i]] + rest), others, strong),
                         JoinWith(t, jt, kept + rest, others, strong), always);
    } else {
      assert kept + ([cs[i]] + rest) == (kept + [cs[i]]) + rest;
      assert cs[..i + 1] == cs[..i] + [cs[i]];
    }
  }

  lemma {:induction false} RuleDoneAcyclic(w: World, path: Path, s0: State, jt: JoinType, cs: seq<ValExpr>, others: seq<ValExpr>, strong: bool,
                                           s: State, kept: seq<ValExpr>, i: nat, changed: bool, always: bool)
    requires i <= |cs| && RuleDone(w, path, s0, jt, cs, others, strong, s, kept, i, changed, always)
    ensures Acyclic(s.graph)
  {
  }

  /** `apply_rule_1`. */
  method ApplyRuleOne(s0: State, jt: JoinType, path: Path, cs: seq<ValExpr>, strong: bool, ghost others: seq<ValExpr>, ghost w: World)
    returns (s: State, kept: seq<ValExpr>, changed: bool)
    requires Acyclic(s0.graph)
    ensures Progress(s0, s, |cs|, |kept|, changed) && (!changed ==> kept == cs)
    ensures SameRows(w, path, JoinWith(s0, jt, cs, others, strong), JoinWith(s, jt, kept, others, strong), true)
    ensures Waits(jt, path, s0.graph, s.graph)
    ensures !changed ==> forall e | e in cs :: !RuleOneApplies(s0.left, s0.right, jt, e, strong)
  {
    s, kept, changed := s0, [], false;
    RuleStart(w, path, s0, jt, cs, others, strong, true);
    assert Waits(jt, path, s0.graph, s.graph);
    hide RuleOneOn, RuleDone, Progress, SameRows, JoinWith, Waits, SameSides, RuleOneApplies, RuleTwoApplies, RuleTwoOn;
    var i := 0;
    while i < |cs|
      invariant 0 <= i <= |cs| && RuleDone(w, path, s0, jt, cs, others, strong, s, kept, i, changed, true)
      invariant Waits(jt, path, s0.graph, s.graph)
      invariant !changed ==> forall k | 0 <= k < i :: !RuleOneApplies(s0.left, s0.right, jt, cs[k], strong)
    {
      var r := RuleOneOn(s, jt, path, cs[i], strong);
      RulesExactly(s, jt, path, cs[i], strong, map[]);
      RuleDoneUnchanged(w, path, s0, jt, cs, others, strong, s, kept, i, changed, true);
      RuleDoneAcyclic(w, path, s0, jt, cs, others, strong, s, kept, i, changed, true);
      RuleOneProgress(s, jt, path, cs[i], strong);
      RuleOneMeans(w, s, jt, path, kept, cs[i], cs[i + 1..], others, strong);
      RuleStep(w, path, s0, jt, cs, others, strong, s, kept, i, changed, true, r);
      if r.Some? {
        RuleOneWaits(s, jt, path, cs[i], strong);
        WaitsTwice(jt, path, s0.graph, s.graph, r.value.graph);
        s, changed := r.value, true;
      } else {
        kept := kept + [cs[i]];
      }
      i := i + 1;
    }
    RuleEnd(w, path, s0, jt, cs, others, strong, s, kept, changed, true);
  }

  lemma {:induction false} RuleEnd(w: World, path: Path, s0: State, jt: JoinType, cs: seq<ValExpr>, others: seq<ValExpr>, strong: bool,
                                   s: State, kept: seq<ValExpr>, changed: bool, always: bool)
    requires RuleDone(w, path, s0, jt, cs, others, strong, s, kept, |cs|, changed, always)
    ensures Progress(s0, s, |cs|, |kept|, changed) && (!changed ==> kept == cs)
    ensures SameRows(w, path, JoinWith(s0, jt, cs, others, strong), JoinWith(s, jt, kept, others, strong), always)
  {
    hide Progress, SameRows, JoinWith;
    assert kept + cs[|cs|..] == kept && cs[..|cs|] == cs;
  }

  // Rule 2.

  /** Where Rule 2 would push an equality because of one of its sides: towards the table whose first
      key column that side is. `firstKey` has the first key column of every name of a real table. */
  function RuleTwoSide(s: State, x: ValExpr, firstKey: map<string, ColName>): Option<bool> {
    if IsFirstKey(x, firstKey) then
      if x.ref.table in Names(s.left) then Some(false)
      else if x.ref.table in Names(s.right) then Some(true)
      else None
    else None
  }

  function RuleTwoOnce(s: State, jt: JoinType, path: Path, e: ValExpr, x: ValExpr, strong: bool, firstKey: map<string, ColName>): Option<State> {
    match RuleTwoSide(s, x, firstKey)
    case Some(toRight) => TryPush(s, jt, path, e, strong, toRight)
    case None => None
  }

  /** What Rule 2 does with one conjunction: it may push two copies. */
  function RuleTwoOn(s: State, jt: JoinType, path: Path, e: ValExpr, strong: bool, firstKey: map<string, ColName>): Option<State> {
    if e.Binary? && e.bop == Eq then
      var a := RuleTwoOnce(s, jt, path, e, e.left, strong, firstKey);
      var s1 := if a.Some? then a.value else s;
      var b := RuleTwoOnce(s1, jt, path, e, e.right, strong, firstKey);
      if b.Some? then b else a
    else None
  }

  lemma {:induction false} RuleTwoOnceKeeps(s: State, jt: JoinType, path: Path, e: ValExpr, x: ValExpr, strong: bool, firstKey: map<string, ColName>)
    requires Acyclic(s.graph)
    ensures var r := RuleTwoOnce(s, jt, path, e, x, strong, firstKey);
      r.None? || (Acyclic(r.value.graph) && SameSides(s, r.value)
                  && (SidesWeight(r.value) == SidesWeight(s) + Cost(s.left) || SidesWeight(r.value) == SidesWeight(s) + Cost(s.right)))
  {
    TryPushKeeps(s, jt, path, e, strong, true);
    TryPushKeeps(s, jt, path, e, strong, false);
  }

  lemma {:induction false} SameSidesTransitive(a: State, b: State, c: State)
    requires SameSides(a, b) && SameSides(b, c)
    ensures SameSides(a, c)
  {
  }

  lemma {:induction false} RuleTwoProgress(s: State, jt: JoinType, path: Path, e: ValExpr, strong: bool, firstKey: map<string, ColName>)
    requires Acyclic(s.graph)
    ensures var r := RuleTwoOn(s, jt, path, e, strong, firstKey);
      r.None? || (Acyclic(r.value.graph) && SameSides(s, r.value) && SidesWeight(r.value) < SidesWeight(s) + JoinCost(s))
  {
    if e.Binary? && e.bop == Eq {
      SidesCost(s);
      RuleTwoOnceKeeps(s, jt, path, e, e.left, strong, firstKey);
      var a := RuleTwoOnce(s, jt, path, e, e.left, strong, firstKey);
      var s1 := if a.Some? then a.value else s;
      SameSidesSelf(s);
      SameCost(s, s1);
      RuleTwoOnceKeeps(s1, jt, path, e, e.right, strong, firstKey);
      var b := RuleTwoOnce(s1, jt, path, e, e.right, strong, firstKey);
      if b.Some? { SameSidesTransitive(s, s1, b.value); }
      hide RuleTwoOnce, SameSides, JoinCost, Cost, Weight;
    }
  }

  lemma {:induction false} RuleTwoWaits(s: State, jt: JoinType, path: Path, e: ValExpr, strong: bool, firstKey: map<string, ColName>)
    ensures var r := RuleTwoOn(s, jt, path, e, strong, firstKey); r.None? || Waits(jt, path, s.graph, r.value.graph)
  {
    if e.Binary? && e.bop == Eq {
      RuleTwoOnceWaits(s, jt, path, e, e.left, strong, firstKey);
      var a := RuleTwoOnce(s, jt, path, e, e.left, strong, firstKey);
      if a.Some? {
        RuleTwoOnceWaits(a.value, jt, path, e, e.right, strong, firstKey);
      } else {
        RuleTwoOnceWaits(s, jt, path, e, e.right, strong, firstKey);
      }
      hide RuleTwoOnce;
    }
  }

  lemma {:induction false} RuleTwoOnceWaits(s: State, jt: JoinType, path: Path, e: ValExpr, x: ValExpr, strong: bool, firstKey: map<string, ColName>)
    ensures var r := RuleTwoOnce(s, jt, path, e, x, strong, firstKey); r.None? || Waits(jt, path, s.graph, r.value.graph)
  {
    TryPushWaits(s, jt, path, e, strong, true);
    TryPushWaits(s, jt, path, e, strong, false);
  }

  /** A conjunction listed twice. */
  lemma {:induction false} TwiceSame(w: World, path: Path, s: State, jt: JoinType, kept: seq<ValExpr>, e: ValExpr, rest: seq<ValExpr>,
                                     others: seq<ValExpr>, strong: bool, always: bool)
    ensures SameRows(w, path, JoinWith(s, jt, kept + ([e] + rest), others, strong), JoinWith(s, jt, kept + ([e] + ([e] + rest)), others, strong), always)
  {
    TwiceIn(kept, e, rest);
    ListedSame(w, path, JoinWith(s, jt, kept + ([e] + rest), others, strong), JoinWith(s, jt, kept + ([e] + ([e] + rest)), others, strong), always);
    hide SameRows;
  }

  /** Joins whose lists have the same members. */
  lemma {:induction false} ListedSame(w: World, path: Path, n: JoinNode, n': JoinNode, always: bool)
    requires n.JoinInner? && n'.JoinInner? && n'.left == n.left && n'.right == n.right && n'.jt == n.jt
    requires (forall x :: x in n.weak <==> x in n'.weak) && (forall x :: x in n.strong <==> x in n'.strong)
    ensures SameRows(w, path, n, n', always)
  {
    assert TablesOf(n.weak) == TablesOf(n'.weak) && TablesOf(n.strong) == TablesOf(n'.strong);
    assert WellFormed(n) == WellFormed(n') && Uses(n) == Uses(n');
    forall g ensures SameUnder(w, path, g, n, n', always) {
      assert Scoped(n, path, g) == Scoped(n', path, g);
      hide WellFormed, Uses, Rows, Scoped;
      forall env | Avoids(env, n) ensures Rows(w, n, path, g, env) == Rows(w, n', path, g, env) {
        ListedAlike(w, n, n', path, g, env);
      }
    }
    hide WellFormed, Uses, SameUnder;
  }

  lemma {:induction false} TwiceIn(kept: seq<ValExpr>, e: ValExpr, rest: seq<ValExpr>)
    ensures forall x :: x in kept + ([e] + ([e] + rest)) <==> x in kept + ([e] + rest)
  {
  }

  lemma {:induction false} ListedAlike(w: World, n: JoinNode, n': JoinNode, path: Path, g: Graph, env: Env)
    requires n.JoinInner? && n'.JoinInner? && n'.left == n.left && n'.right == n.right && n'.jt == n.jt
    requires (forall x :: x in n.weak <==> x in n'.weak) && (forall x :: x in n.strong <==> x in n'.strong)
    ensures Rows(w, n, path, g, env) == Rows(w, n', path, g, env)
  {
    if CaseAt(g, path, n.jt).Some? {
      var c := CaseAt(g, path, n.jt).value;
      var j, k := JoinOf(w, n, env, c), JoinOf(w, n', env, c);
      forall f, s ensures j.weak(f, s) == k.weak(f, s) && j.strong(f, s) == k.strong(f, s) {
        MembersTrue(w, n.weak, n'.weak, Merged(env, f, s, c));
        MembersTrue(w, n.strong, n'.strong, Merged(env, f, s, c));
      }
      assert SameJoin(j, k);
      var fs := Rows(w, FirstSide(n, c), FirstPath(path, c), g, env);
      assert FirstSide(n', c) == FirstSide(n, c) && SecondSide(n', c) == SecondSide(n, c);
      hide Rows, JoinOf, CaseAt, FirstSide, SecondSide, SameJoin;
      if c.Dependent? {
        var second := SecondRows(w, n, path, g, env, c);
        RowsDependent(w, n, path, g, env, c, second);
        RowsDependent(w, n', path, g, env, c, second);
        SameDependent(j, k, fs, second, second);
      } else {
        RowsIndependent(w, n, path, g, env, c);
        RowsIndependent(w, n', path, g, env, c);
        SameJoinBag(j, k, fs, Rows(w, SecondSide(n, c), SecondPath(path, c), g, env));
      }
    }
  }

  lemma {:induction false} MembersTrue(w: World, a: seq<ValExpr>, b: seq<ValExpr>, env: Env)
    requires forall x :: x in a <==> x in b
    ensures AllTrue(w, a, env) == AllTrue(w, b, env)
  {
    hide IsTrue;
    assert AllTrue(w, a, env) <==> forall x | x in a :: IsTrue(w, x, env);
    assert AllTrue(w, b, env) <==> forall x | x in b :: IsTrue(w, x, env);
  }

  /** A copy of a conjunction pushed down. */
  lemma {:induction false} PushedMeans(w: World, s: State, jt: JoinType, path: Path, kept: seq<ValExpr>, e: ValExpr, rest: seq<ValExpr>,
                                       others: seq<ValExpr>, strong: bool, toRight: bool)
    requires Allowed(jt, strong, toRight)
    ensures SameRows(w, path, JoinWith(s, jt, kept + ([e] + rest), others, strong), JoinWith(Pushed(s, e, toRight), jt, kept + rest, others, strong), false)
  {
    var n := JoinWith(s, jt, kept + ([e] + rest), others, strong);
    assert Conjunctions(n, strong)[|kept|] == e;
    PushedIsMoved(s, jt, kept, e, rest, others, strong, toRight);
    hide SameRows;
    MoveSameRows(w, path, n, |kept|, strong, toRight, false);
  }

  /** What a push does to the sides. */
  lemma {:induction false} TryPushSides(s: State, jt: JoinType, path: Path, e: ValExpr, strong: bool, toRight: bool, cs: seq<ValExpr>, others: seq<ValExpr>)
    ensures var r := TryPush(s, jt, path, e, strong, toRight);
      r.None? || (Allowed(jt, strong, toRight) && JoinWith(r.value, jt, cs, others, strong) == JoinWith(Pushed(s, e, toRight), jt, cs, others, strong))
  {
  }

  lemma {:induction false} RuleTwoOnceMeans(w: World, s: State, jt: JoinType, path: Path, kept: seq<ValExpr>, e: ValExpr, x: ValExpr, rest: seq<ValExpr>,
                                            others: seq<ValExpr>, strong: bool, firstKey: map<string, ColName>)
    ensures var r := RuleTwoOnce(s, jt, path, e, x, strong, firstKey);
      r.None? || SameRows(w, path, JoinWith(s, jt, kept + ([e] + rest), others, strong), JoinWith(r.value, jt, kept + rest, others, strong), false)
  {
    match RuleTwoSide(s, x, firstKey)
    case Some(toRight) =>
      TryPushSides(s, jt, path, e, strong, toRight, kept + rest, others);
      if TryPush(s, jt, path, e, strong, toRight).Some? { PushedMeans(w, s, jt, path, kept, e, rest, others, strong, toRight); }
    case None =>
  }

  /** Rule 2 moves a conjunction, or a copy of it to either side. */
  lemma {:induction false} RuleTwoMeans(w: World, s: State, jt: JoinType, path: Path, kept: seq<ValExpr>, e: ValExpr, rest: seq<ValExpr>,
                                        others: seq<ValExpr>, strong: bool, firstKey: map<string, ColName>)
    ensures var r := RuleTwoOn(s, jt, path, e, strong, firstKey);
      r.None? || SameRows(w, path, JoinWith(s, jt, kept + ([e] + rest), others, strong), JoinWith(r.value, jt, kept + rest, others, strong), false)
  {
    if e.Binary? && e.bop == Eq {
      var a := RuleTwoOnce(s, jt, path, e, e.left, strong, firstKey);
      var s1 := if a.Some? then a.value else s;
      var b := RuleTwoOnce(s1, jt, path, e, e.right, strong, firstKey);
      hide SameRows, RuleTwoOnce, JoinWith;
      if a.Some? && b.Some? {
        TwiceSame(w, path, s, jt, kept, e, rest, others, strong, false);
        RuleTwoOnceMeans(w, s, jt, path, kept, e, e.left, [e] + rest, others, strong, firstKey);
        RuleTwoOnceMeans(w, s1, jt, path, kept, e, e.right, rest, others, strong, firstKey);
        var n, n2 := JoinWith(s, jt, kept + ([e] + rest), others, strong), JoinWith(s, jt, kept + ([e] + ([e] + rest)), others, strong);
        var n3, n4 := JoinWith(s1, jt, kept + ([e] + rest), others, strong), JoinWith(b.value, jt, kept + rest, others, strong);
        SameRowsTransitive(w, path, n, n2, n3, false);
        SameRowsTransitive(w, path, n, n3, n4, false);
      } else {
        RuleTwoOnceMeans(w, s, jt, path, kept, e, e.left, rest, others, strong, firstKey);
        RuleTwoOnceMeans(w, s1, jt, path, kept, e, e.right, rest, others, strong, firstKey);
      }
    }
  }

  lemma {:induction false} RuleTwoNeedsKeys(s: State, jt: JoinType, path: Path, e: ValExpr, strong: bool, firstKey: map<string, ColName>)
    ensures RuleTwoOn(s, jt, path, e, strong, firstKey).Some? ==> KeyEquality(e, firstKey)
  {
  }

  /** `apply_rule_2`. */
  method ApplyRuleTwo(s0: State, jt: JoinType, path: Path, cs: seq<ValExpr>, strong: bool, firstKey: map<string, ColName>,
                      ghost others: seq<ValExpr>, ghost w: World)
    returns (s: State, kept: seq<ValExpr>, changed: bool)
    requires Acyclic(s0.graph)
    ensures Progress(s0, s, |cs|, |kept|, changed) && (!changed ==> kept == cs)
    ensures SameRows(w, path, JoinWith(s0, jt, cs, others, strong), JoinWith(s, jt, kept, others, strong), NoKeyEqualities(cs, firstKey))
    ensures Waits(jt, path, s0.graph, s.graph)
    ensures !changed ==> forall e | e in cs :: !RuleTwoApplies(s0, jt, path, e, strong, firstKey)
  {
    s, kept, changed := s0, [], false;
    ghost var always := NoKeyEqualities(cs, firstKey);
    RuleStart(w, path, s0, jt, cs, others, strong, always);
    assert Waits(jt, path, s0.graph, s.graph);
    hide RuleTwoOn, RuleDone, Progress, SameRows, JoinWith, Waits, SameSides, RuleOneApplies, RuleTwoApplies, RuleOneOn;
    var i := 0;
    while i < |cs|
      invariant 0 <= i <= |cs| && RuleDone(w, path, s0, jt, cs, others, strong, s, kept, i, changed, always)
      invariant Waits(jt, path, s0.graph, s.graph)
      invariant !changed ==> forall k | 0 <= k < i :: !RuleTwoApplies(s0, jt, path, cs[k], strong, firstKey)
    {
      var r := RuleTwoOn(s, jt, path, cs[i], strong, firstKey);
      RulesExactly(s, jt, path, cs[i], strong, firstKey);
      RuleDoneUnchanged(w, path, s0, jt, cs, others, strong, s, kept, i, changed, always);
      RuleDoneAcyclic(w, path, s0, jt, cs, others, strong, s, kept, i, changed, always);
      RuleTwoProgress(s, jt, path, cs[i], strong, firstKey);
      RuleTwoNeedsKeys(s, jt, path, cs[i], strong, firstKey);
      RuleTwoMeans(w, s, jt, path, kept, cs[i], cs[i + 1..], others, strong, firstKey);
      RuleStep(w, path, s0, jt, cs, others, strong, s, kept, i, changed, always, r);
      if r.Some? {
        RuleTwoWaits(s, jt, path, cs[i], strong, firstKey);
        WaitsTwice(jt, path, s0.graph, s.graph, r.value.graph);
        s, changed := r.value, true;
      } else {
        kept := kept + [cs[i]];
      }
      i := i + 1;
    }
    RuleEnd(w, path, s0, jt, cs, others, strong, s, kept, changed, always);
  }

  lemma {:induction false} ProgressStart(s: State)
    requires Acyclic(s.graph)
    ensures Progress(s, s, 0, 0, false)
  {
  }

  lemma {:induction false} ProgressAcyclic(a: State, b: State, before: nat, after: nat, changed: bool)
    requires Progress(a, b, before, after, changed)
    ensures Acyclic(b.graph)
  {
  }

  lemma {:induction false} SameRowsStart(w: World, path: Path, n: JoinNode, always: bool)
    ensures SameRows(w, path, n, n, always)
  {
    hide WellFormed, Rows;
  }

  lemma {:induction false} SameSidesSelf(s: State)
    ensures SameSides(s, s)
  {
  }

  // ---------------------------------------------------------------------------------------------
  //  One level
  // ---------------------------------------------------------------------------------------------

  /** The weight of a join, from its sides and the number of its conjunctions. */
  lemma {:induction false} JoinWeight(n: JoinNode, s: State)
    requires n.JoinInner? && s.left == n.left && s.right == n.right
    ensures Weight(n) == SidesWeight(s) + (|n.weak| + |n.strong|) * JoinCost(s) && Height(n) == 1 + Taller(s)
  {
  }

  function Taller(s: State): nat { if Height(s.left) > Height(s.right) then Height(s.left) else Height(s.right) }

  /** Passes in succession: what they push costs less than what is gone. */
  lemma {:induction false} TwoPasses(a: State, b: State, c: State, p0: nat, p1: nat, q0: nat, q1: nat, x: bool, y: bool)
    requires Progress(a, b, p0, p1, x) && Progress(b, c, q0, q1, y)
    ensures Acyclic(c.graph) && SameSides(a, c) && p1 + q1 <= p0 + q0
    ensures x || y ==> SidesWeight(c) + (p1 + q1) * JoinCost(a) < SidesWeight(a) + (p0 + q0) * JoinCost(a)
    ensures !x && !y ==> a == c && p1 + q1 == p0 + q0
  {
    SameCost(a, b);
    SameSidesTransitive(a, b, c);
    var k := JoinCost(a);
    hide SameSides, JoinCost, Weight;
    assert (p1 + q1) * k == p1 * k + q1 * k && (p0 + q0) * k == p0 * k + q0 * k;
  }

  lemma {:induction false} FourPasses(a: State, b: State, c: State, d: State, e: State,
                                      s0: nat, s1: nat, s2: nat, w0: nat, w1: nat, w2: nat, x1: bool, x2: bool, x3: bool, x4: bool)
    requires Progress(a, b, s0, s1, x1) && Progress(b, c, w0, w1, x2) && Progress(c, d, s1, s2, x3) && Progress(d, e, w1, w2, x4)
    ensures Acyclic(e.graph) && SameSides(a, e)
    ensures x1 || x2 || x3 || x4 ==> SidesWeight(e) + (w2 + s2) * JoinCost(a) < SidesWeight(a) + (w0 + s0) * JoinCost(a)
    ensures !(x1 || x2 || x3 || x4) ==> a == e
  {
    TwoPasses(a, b, c, s0, s1, w0, w1, x1, x2);
    TwoPasses(c, d, e, s1, s2, w1, w2, x3, x4);
    SameSidesTransitive(a, c, e);
    SameCost(a, c);
    hide Progress, SameSides, JoinCost, Weight, Acyclic;
  }

  /** What optimizing a tree guarantees. */
  ghost predicate Optimized(n: JoinNode, g: Graph, n': JoinNode, g': Graph, changed: bool) {
    && Acyclic(g') && Height(n') == Height(n) && SkeletonOf(n') == SkeletonOf(n)
    && (changed ==> Weight(n') < Weight(n))
    && (!changed ==> n' == n && g' == g)
  }

  lemma {:induction false} LevelOptimized(n: JoinNode, n': JoinNode, a: State, e: State, changed: bool)
    requires n.JoinInner? && n'.JoinInner? && n.jt == n'.jt && a.left == n.left && a.right == n.right && e.left == n'.left && e.right == n'.right
    requires Acyclic(e.graph) && SameSides(a, e)
    requires changed ==> SidesWeight(e) + (|n'.weak| + |n'.strong|) * JoinCost(a) < SidesWeight(a) + (|n.weak| + |n.strong|) * JoinCost(a)
    requires !changed ==> n' == n && a == e
    ensures Optimized(n, a.graph, n', e.graph, changed)
  {
    JoinWeight(n, a);
    JoinWeight(n', e);
    SameCost(a, e);
  }

  /** `optimize_top_level_once`. */
  method OptimizeTopLevelOnce(n: JoinNode, path: Path, graph: Graph, firstKey: map<string, ColName>, ghost w: World)
    returns (n': JoinNode, graph': Graph, changed: bool)
    requires Acyclic(graph)
    ensures Optimized(n, graph, n', graph', changed) && Added(SkeletonOf(n), path, graph, graph')
    ensures SameRows(w, path, n, n', KeyFree(n, firstKey))
    ensures !changed && n.JoinInner? ==> ExhaustedList(n, path, graph, n.strong, true, firstKey) && ExhaustedList(n, path, graph, n.weak, false, firstKey)
  {
    hide RuleOneApplies, RuleTwoApplies, KeyFree, NoKeyEqualities;
    hide Progress, SameRows, SameSides, Weight, JoinCost, Acyclic, Waits;
    ghost var always := KeyFree(n, firstKey);
    if n.JoinLeaf? {
      SameRowsStart(w, path, n, always);
      return n, graph, false;
    }
    hide Added, SkeletonOf;
    var a := State(n.left, n.right, graph);
    var b, strong1, x1 := ApplyRuleOne(a, n.jt, path, n.strong, true, n.weak, w);
    ProgressAcyclic(a, b, |n.strong|, |strong1|, x1);
    var c, weak1, x2 := ApplyRuleOne(b, n.jt, path, n.weak, false, strong1, w);
    ProgressAcyclic(b, c, |n.weak|, |weak1|, x2);
    var d, strong2, x3 := ApplyRuleTwo(c, n.jt, path, strong1, true, firstKey, weak1, w);
    ProgressAcyclic(c, d, |strong1|, |strong2|, x3);
    var e, weak2, x4 := ApplyRuleTwo(d, n.jt, path, weak1, false, firstKey, strong2, w);
    n', graph', changed := JoinInner(e.left, e.right, n.jt, weak2, strong2), e.graph, x1 || x2 || x3 || x4;
    FourPasses(a, b, c, d, e, |n.strong|, |strong1|, |strong2|, |n.weak|, |weak1|, |weak2|, x1, x2, x3, x4);
    LevelOptimized(n, n', a, e, changed);
    FourWaits(n, path, a.graph, b.graph, c.graph, d.graph, e.graph);
    if !changed {
      Unmoved(a, b, |n.strong|, |strong1|);
      Unmoved(b, c, |n.weak|, |weak1|);
      Unmoved(c, d, |strong1|, |strong2|);
    }
    FourSame(w, path, n, JoinInner(b.left, b.right, n.jt, n.weak, strong1), JoinInner(c.left, c.right, n.jt, weak1, strong1),
             JoinInner(d.left, d.right, n.jt, weak1, strong2), n', firstKey);
  }

  lemma {:induction false} Unmoved(a: State, b: State, before: nat, after: nat)
    requires Progress(a, b, before, after, false)
    ensures a == b
  {
  }

  lemma {:induction false} FourSame(w: World, path: Path, a: JoinNode, b: JoinNode, c: JoinNode, d: JoinNode, e: JoinNode, firstKey: map<string, ColName>)
    requires c.JoinInner? && d.JoinInner? && d.weak == c.weak
    requires SameRows(w, path, a, b, true) && SameRows(w, path, b, c, true)
    requires SameRows(w, path, c, d, NoKeyEqualities(c.strong, firstKey)) && SameRows(w, path, d, e, NoKeyEqualities(d.weak, firstKey))
    ensures SameRows(w, path, a, e, KeyFree(a, firstKey))
  {
    var always := KeyFree(a, firstKey);
    hide SameRows, NoKeyEqualities;
    SameRowsTransitive(w, path, a, b, c, true);
    KeyFreeKept(w, path, a, c, true, firstKey);
    assert always ==> NoKeyEqualities(c.strong, firstKey) && NoKeyEqualities(c.weak, firstKey);
    SameRowsWeaken(w, path, a, c, true, always);
    SameRowsWeaken(w, path, c, d, NoKeyEqualities(c.strong, firstKey), always);
    SameRowsWeaken(w, path, d, e, NoKeyEqualities(d.weak, firstKey), always);
    SameRowsTransitive(w, path, a, c, d, always);
    SameRowsTransitive(w, path, a, d, e, always);
  }

  lemma {:induction false} KeyFreeKept(w: World, path: Path, a: JoinNode, b: JoinNode, always: bool, firstKey: map<string, ColName>)
    requires SameRows(w, path, a, b, always)
    ensures KeyFree(a, firstKey) ==> KeyFree(b, firstKey)
  {
    hide WellFormed, Uses, SameUnder, KeyFree;
  }

  lemma {:induction false} FourWaits(n: JoinNode, path: Path, a: Graph, b: Graph, c: Graph, d: Graph, e: Graph)
    requires n.JoinInner? && Waits(n.jt, path, a, b) && Waits(n.jt, path, b, c) && Waits(n.jt, path, c, d) && Waits(n.jt, path, d, e)
    ensures Added(SkeletonOf(n), path, a, e)
  {
    hide Waits, Added;
    WaitsTwice(n.jt, path, a, b, c);
    WaitsTwice(n.jt, path, a, c, d);
    WaitsTwice(n.jt, path, a, d, e);
    WaitsAdded(n.jt, path, a, e, SkeletonOf(n));
  }

  // ---------------------------------------------------------------------------------------------
  //  All levels
  // ---------------------------------------------------------------------------------------------

  lemma {:induction false} ChildrenOptimized(n: JoinNode, n1: JoinNode, g: Graph, g1: Graph, l: JoinNode, r: JoinNode, g2: Graph, g3: Graph,
                                             c1: bool, c2: bool, c3: bool)
    requires n1.JoinInner? && Optimized(n, g, n1, g1, c1) && Optimized(n1.left, g1, l, g2, c2) && Optimized(n1.right, g2, r, g3, c3)
    ensures Optimized(n, g, n1.(left := l, right := r), g3, c1 || c2 || c3)
  {
    var n2 := n1.(left := l, right := r);
    assert Height(n2) == Height(n1);
    assert Weight(n2) - Weight(l) - Weight(r) == Weight(n1) - Weight(n1.left) - Weight(n1.right);
  }

  lemma {:induction false} ChildrenAdded(s: Skeleton, path: Path, g: Graph, g1: Graph, g2: Graph, g3: Graph)
    requires s.Node? && Added(s, path, g, g1) && Added(s.left, path + "L", g1, g2) && Added(s.right, path + "R", g2, g3)
    ensures Added(s, path, g, g3)
  {
    hide Added;
    AddedBelow(s, path, true, g1, g2);
    AddedBelow(s, path, false, g2, g3);
    AddedTwice(s, path, g, g1, g2);
    AddedTwice(s, path, g, g2, g3);
  }

  /** A tree whose sides are replaced by sides with the same rows. */
  lemma {:induction false} SidesReplaced(w: World, path: Path, n: JoinNode, l: JoinNode, r: JoinNode, always: bool)
    requires n.JoinInner? && SameRows(w, path + "L", n.left, l, always) && SameRows(w, path + "R", n.right, r, always)
    ensures SameRows(w, path, n, n.(left := l, right := r), always)
  {
    var n' := n.(left := l, right := r);
    if WellFormed(n) {
      assert WellFormed(n') && Uses(n) - Names(n) <= Uses(n');
      forall g ensures SameUnder(w, path, g, n, n', always) {
        assert SameUnder(w, path + "L", g, n.left, l, always) && SameUnder(w, path + "R", g, n.right, r, always);
        SidesUnder(w, path, g, n, l, r, always);
      }
    }
  }

  lemma {:induction false} SidesScoped(path: Path, g: Graph, n: JoinNode, l: JoinNode, r: JoinNode)
    requires n.JoinInner? && WellFormed(n) && Names(n.left) == Names(l) && Names(n.right) == Names(r)
    requires Uses(n.left) - Names(n.left) <= Uses(l) && Uses(n.right) - Names(n.right) <= Uses(r)
    requires (Scoped(l, path + "L", g) ==> Scoped(n.left, path + "L", g)) && (Scoped(r, path + "R", g) ==> Scoped(n.right, path + "R", g))
    ensures Scoped(n.(left := l, right := r), path, g) ==> Scoped(n, path, g)
  {
    hide Uses, Names, CaseAt;
  }

  lemma {:induction false} SidesUnder(w: World, path: Path, g: Graph, n: JoinNode, l: JoinNode, r: JoinNode, always: bool)
    requires n.JoinInner? && WellFormed(n) && Names(n.left) == Names(l) && Names(n.right) == Names(r)
    requires Schema(n.left) == Schema(l) && Schema(n.right) == Schema(r)
    requires Uses(n.left) - Names(n.left) <= Uses(l) && Uses(n.right) - Names(n.right) <= Uses(r)
    requires SameUnder(w, path + "L", g, n.left, l, always) && SameUnder(w, path + "R", g, n.right, r, always)
    ensures SameUnder(w, path, g, n, n.(left := l, right := r), always)
  {
    var n' := n.(left := l, right := r);
    SidesScoped(path, g, n, l, r);
    if always || Scoped(n', path, g) {
      assert always || (Scoped(l, path + "L", g) && Scoped(r, path + "R", g));
      hide WellFormed, Uses, Names, Schema, Scoped, Rows;
      forall env | Avoids(env, n) ensures Rows(w, n, path, g, env) == Rows(w, n', path, g, env) {
        SidesSame(w, n, g, n', g, path, env);
      }
    }
  }

  /** `optimize_all_levels_once`. */
  method OptimizeAllLevelsOnce(n: JoinNode, path: Path, graph: Graph, firstKey: map<string, ColName>, ghost w: World)
    returns (n': JoinNode, graph': Graph, changed: bool)
    requires Acyclic(graph)
    ensures Optimized(n, graph, n', graph', changed) && Added(SkeletonOf(n), path, graph, graph')
    ensures SameRows(w, path, n, n', KeyFree(n, firstKey))
    ensures !changed ==> Exhausted(n, path, graph, firstKey)
    decreases Height(n)
  {
    hide SameRows, Added, ExhaustedList, KeyFree;
    var n1, g1, c1 := OptimizeTopLevelOnce(n, path, graph, firstKey, w);
    if n1.JoinLeaf? { return n1, g1, c1; }
    var l, g2, c2 := OptimizeAllLevelsOnce(n1.left, path + "L", g1, firstKey, w);
    var r, g3, c3 := OptimizeAllLevelsOnce(n1.right, path + "R", g2, firstKey, w);
    n', graph', changed := n1.(left := l, right := r), g3, c1 || c2 || c3;
    ChildrenOptimized(n, n1, graph, g1, l, r, g2, g3, c1, c2, c3);
    ChildrenAdded(SkeletonOf(n), path, graph, g1, g2, g3);
    LevelsSame(w, path, n, n1, l, r, firstKey);
  }

  lemma {:induction false} LevelsSame(w: World, path: Path, n: JoinNode, n1: JoinNode, l: JoinNode, r: JoinNode, firstKey: map<string, ColName>)
    requires n1.JoinInner? && SameRows(w, path, n, n1, KeyFree(n, firstKey))
    requires SameRows(w, path + "L", n1.left, l, KeyFree(n1.left, firstKey)) && SameRows(w, path + "R", n1.right, r, KeyFree(n1.right, firstKey))
    ensures SameRows(w, path, n, n1.(left := l, right := r), KeyFree(n, firstKey))
  {
    var always := KeyFree(n, firstKey);
    hide SameRows;
    KeyFreeKept(w, path, n, n1, always, firstKey);
    assert always ==> KeyFree(n1.left, firstKey) && KeyFree(n1.right, firstKey);
    SameRowsWeaken(w, path + "L", n1.left, l, KeyFree(n1.left, firstKey), always);
    SameRowsWeaken(w, path + "R", n1.right, r, KeyFree(n1.right, firstKey), always);
    SidesReplaced(w, path, n1, l, r, always);
    SameRowsTransitive(w, path, n, n1, n1.(left := l, right := r), always);
  }

  /** `optimize_all_levels`: the loop ends for every tree, no two siblings wait for each other, a node
      comes to wait only where the type of its join allows it, in the end neither rule applies any more, and
      the rows are the same under every graph in which the new tree finds its columns, and in any case if
      Rule 2 had nothing to act on. */
  method OptimizeAllLevels(n: JoinNode, graph: Graph, firstKey: map<string, ColName>, ghost w: World)
    returns (n': JoinNode, graph': Graph)
    requires Acyclic(graph)
    ensures Acyclic(graph') && Height(n') == Height(n) && Weight(n') <= Weight(n)
    ensures SkeletonOf(n') == SkeletonOf(n) && Added(SkeletonOf(n), [], graph, graph')
    ensures SameRows(w, [], n, n', KeyFree(n, firstKey)) && Exhausted(n', [], graph', firstKey)
  {
    n', graph' := n, graph;
    assert Added(SkeletonOf(n), [], graph, graph');
    ghost var always := KeyFree(n, firstKey);
    hide SameRows, Acyclic, Added, KeyFree, Exhausted;
    SameRowsStart(w, [], n, always);
    var changed := true;
    while changed
      invariant Acyclic(graph') && Height(n') == Height(n) && Weight(n') <= Weight(n)
      invariant SkeletonOf(n') == SkeletonOf(n) && Added(SkeletonOf(n), [], graph, graph')
      invariant SameRows(w, [], n, n', always) && (!changed ==> Exhausted(n', [], graph', firstKey))
      decreases Weight(n'), changed
    {
      ghost var before, g := n', graph';
      n', graph', changed := OptimizeAllLevelsOnce(n', [], graph', firstKey, w);
      AddedTwice(SkeletonOf(n), [], graph, g, graph');
      KeyFreeKept(w, [], n, before, always, firstKey);
      SameRowsWeaken(w, [], before, n', KeyFree(before, firstKey), always);
      SameRowsTransitive(w, [], n, before, n', always);
    }
  }

  /** `add_dependencies_for_lateral_joins`: exactly the LATERAL leaves below the path are added, and each
      waits for the side it depends on. */
  method AddDependenciesForLateralJoins(n: JoinNode, path: Path, graph: Graph) returns (graph': Graph)
    requires Acyclic(graph) && forall p | p in graph :: p[|p| - 1] == 'R'
    ensures Acyclic(graph') && (forall p | p in graph' :: p[|p| - 1] == 'R')
    ensures forall p :: p in graph' <==> p in graph || (path <= p && LateralAt(SkeletonOf(n), p[|path|..]))
  {
    graph' := graph;
    if n.JoinInner? {
      var left, right := path + "L", path + "R";
      if IsLateral(n.right) {
        assert left[|left| - 1] == 'L' && right[|right| - 1] == 'R';
        AddDependency(graph, path, false);
        graph' := graph'[right := left];
      }
      graph' := AddDependenciesForLateralJoins(n.left, left, graph');
      graph' := AddDependenciesForLateralJoins(n.right, right, graph');
      forall p ensures p in graph' <==> p in graph || (path <= p && LateralAt(SkeletonOf(n), p[|path|..])) {
        LateralBelow(n, path, p);
      }
    }
  }

  /** A LATERAL leaf of a join is its right side or one of a side. */
  lemma {:induction false} LateralBelow(n: JoinNode, path: Path, p: Path)
    requires n.JoinInner?
    ensures path <= p && LateralAt(SkeletonOf(n), p[|path|..])
      <==> || (p == path + "R" && IsLateral(n.right))
           || (path + "L" <= p && LateralAt(SkeletonOf(n.left), p[|path| + 1..]))
           || (path + "R" <= p && LateralAt(SkeletonOf(n.right), p[|path| + 1..]))
  {
    if path < p {
      var rest := p[|path|..];
      assert rest[1..] == p[|path| + 1..] && rest[0] == p[|path|];
      assert path + "L" <= p <==> rest[0] == 'L';
      assert path + "R" <= p <==> rest[0] == 'R';
      if |rest| == 1 {
        assert rest[1..] == [] && rest == [rest[0]] && p == path + rest;
        assert p == path + "R" <==> rest[0] == 'R';
        assert rest[0] == 'R' ==> At(SkeletonOf(n), rest) == Some(SkeletonOf(n.right));
        assert SkeletonOf(n.right) == Leaf(true) <==> IsLateral(n.right);
      } else {
        assert p != path + "R" && rest[1..][|rest| - 2] == rest[|rest| - 1];
      }
    }
  }

  /** The plan of a select: the dependencies of the LATERAL leaves, then the optimizer. For a tree that
      `validate_lateral` accepts, the evaluator has a case for every join exactly if no LATERAL leaf is
      the right side of a FULL OUTER join. The plan then returns the rows of the tree as it was given if
      every conjunction finds its columns in it, and in any case if Rule 2 had nothing to act on. */
  method Plan(n: JoinNode, firstKey: map<string, ColName>, ghost w: World) returns (n': JoinNode, graph: Graph, ghost given: Graph)
    ensures Acyclic(graph) && SkeletonOf(n') == SkeletonOf(n)
    ensures forall p :: p in given <==> LateralAt(SkeletonOf(n), p)
    ensures forall p | p in given :: p in graph && graph[p] == p[..|p| - 1] + "L"
    ensures Validated(SkeletonOf(n)) ==> (Served(SkeletonOf(n'), graph) <==> NoOuterLateral(SkeletonOf(n)))
    ensures WellFormed(n) && (Scoped(n', [], graph) || KeyFree(n, firstKey)) ==> Alike(w, n, graph, n', graph, [])
    ensures WellFormed(n) && (Scoped(n', [], graph) || KeyFree(n, firstKey))
      ==> (Validated(SkeletonOf(n)) && NoOuterLateral(SkeletonOf(n)) && Scoped(n, [], given) ==> Alike(w, n, given, n', graph, []))
  {
    hide SameRows;
    var g := AddDependenciesForLateralJoins(n, [], map[]);
    n', graph := OptimizeAllLevels(n, g, firstKey, w);
    given := g;
    var s := SkeletonOf(n);
    forall p ensures p in g <==> LateralAt(s, p) { assert p[0..] == p; }
    if Validated(s) { ServedExactly(s, g, graph); }
    hide Served, WellFormed, Scoped, Alike, KeyFree;
    SameUnderPlan(w, n, n', graph, KeyFree(n, firstKey));
    if WellFormed(n) && Validated(s) && NoOuterLateral(s) && Scoped(n, [], given) && (Scoped(n', [], graph) || KeyFree(n, firstKey)) {
      PlanAlike(w, n, n', given, graph);
    }
  }

  lemma {:induction false} SameUnderPlan(w: World, n: JoinNode, n': JoinNode, g: Graph, always: bool)
    requires SameRows(w, [], n, n', always)
    ensures WellFormed(n) && (Scoped(n', [], g) || always) ==> Alike(w, n, g, n', g, [])
  {
    hide WellFormed, Scoped, Alike;
    assert WellFormed(n) ==> SameUnder(w, [], g, n, n', always);
  }

  lemma {:induction false} PlanAlike(w: World, n: JoinNode, n': JoinNode, given: Graph, graph: Graph)
    requires WellFormed(n) && Scoped(n, [], given) && Served(SkeletonOf(n), graph) && forall p | p in given :: p in graph
    requires Alike(w, n, graph, n', graph, [])
    ensures Alike(w, n, given, n', graph, [])
  {
    ServedIsFrom(n, [], graph) by {
      forall p | At(SkeletonOf(n), p).Some? && At(SkeletonOf(n), p).value.Node? ensures Serves(graph, [] + p, At(SkeletonOf(n), p).value.jt) {
        assert [] + p == p;
      }
    }
    MoreWaits(w, n, [], given, graph);
    hide Rows;
  }

  // ---------------------------------------------------------------------------------------------
  //  Splitting a clause into conjunctions
  // ---------------------------------------------------------------------------------------------

  function Split(e: ValExpr): seq<ValExpr> {
    if e.Binary? && e.bop == And then Split(e.left) + Split(e.right)
    else if e == TRIVIAL then []
    else [e]
  }

  /** `split_into_conjunctions`, with the list built so far. */
  method SplitIntoConjunctions(e: ValExpr, cs0: seq<ValExpr>) returns (cs: seq<ValExpr>)
    ensures cs == cs0 + Split(e)
  {
    cs := cs0;
    if e.Binary? && e.bop == And {
      cs := SplitIntoConjunctions(e.left, cs);
      cs := SplitIntoConjunctions(e.right, cs);
    } else if e != TRIVIAL {
      cs := cs + [e];
    }
  }

  /** The conjunctions are all true exactly if the clause is. */
  lemma {:induction false} SplitMeans(w: World, e: ValExpr, env: Env)
    ensures AllTrue(w, Split(e), env) <==> IsTrue(w, e, env)
  {
    if e.Binary? && e.bop == And {
      SplitMeans(w, e.left, env);
      SplitMeans(w, e.right, env);
      AndTrue(w, e.left, e.right, env);
      ConcatTrue(w, Split(e.left), Split(e.right), env);
    } else if e != TRIVIAL {
      OneMoreTrue(w, [], e, env);
      assert [] + [e] == [e];
    }
  }

  lemma {:induction false} ConcatTrue(w: World, a: seq<ValExpr>, b: seq<ValExpr>, env: Env)
    ensures AllTrue(w, a + b, env) <==> AllTrue(w, a, env) && AllTrue(w, b, env)
  {
    var all := a + b;
    if AllTrue(w, all, env) {
      forall k | 0 <= k < |a| ensures IsTrue(w, a[k], env) { assert all[k] == a[k]; }
      forall k | 0 <= k < |b| ensures IsTrue(w, b[k], env) { assert all[|a| + k] == b[k]; }
    }
  }
}
