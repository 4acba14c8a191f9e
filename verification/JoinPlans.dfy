/** The dependency graph of a join tree: which LATERAL leaves `validate_lateral` admits
    (src/query_converter.rs:168-209), and which case of the evaluator (src/join_read_es.rs:708-780) a
    join then falls into. */
module JoinPlans {
  import opened Wrappers

  datatype JoinType = Inner | Outer | Left | Right

  predicate NonLeft(t: JoinType) { t == Right || t == Inner }
  predicate NonRight(t: JoinType) { t == Left || t == Inner }

  /** A node is named by the turns from the root to it; the graph maps it to the one it waits for. */
  type Path = string
  type Graph = map<Path, Path>

  function Sibling(p: Path): Path
    requires p != []
  {
    p[..|p| - 1] + (if p[|p| - 1] == 'L' then "R" else "L")
  }

  /** A node waits for its sibling only, and not both for each other. */
  predicate Acyclic(g: Graph) {
    forall p | p in g :: p != [] && (p[|p| - 1] == 'L' || p[|p| - 1] == 'R') && g[p] == Sibling(p) && Sibling(p) !in g
  }

  lemma {:induction false} AddDependency(g: Graph, p: Path, left: bool)
    requires Acyclic(g) && (p + if left then "R" else "L") !in g
    ensures Acyclic(g[(p + if left then "L" else "R") := p + if left then "R" else "L"])
  {
    var q, s := p + (if left then "L" else "R"), p + (if left then "R" else "L");
    assert Sibling(q) == s && Sibling(s) == q;
    forall x | x in g && x != q ensures Sibling(x) != q {
      if Sibling(x) == q { SiblingTwice(x); }
    }
  }

  lemma {:induction false} SiblingTwice(p: Path)
    requires p != [] && (p[|p| - 1] == 'L' || p[|p| - 1] == 'R')
    ensures Sibling(Sibling(p)) == p
  {
    assert p == p[..|p| - 1] + [p[|p| - 1]];
  }

  // ---------------------------------------------------------------------------------------------
  //  Trees without their tables and conjunctions
  // ---------------------------------------------------------------------------------------------

  /** What the validated tree, the converted one and the optimized one have in common. */
  datatype Skeleton = Leaf(lateral: bool) | Node(jt: JoinType, left: Skeleton, right: Skeleton)

  /** The subtree some turns lead to. */
  function At(s: Skeleton, turns: Path): Option<Skeleton> {
    if turns == [] then Some(s)
    else if s.Leaf? then None
    else if turns[0] == 'L' then At(s.left, turns[1..])
    else if turns[0] == 'R' then At(s.right, turns[1..])
    else None
  }

  /** The turns lead to a LATERAL leaf on the right side of its join. */
  predicate LateralAt(s: Skeleton, p: Path) {
    p != [] && p[|p| - 1] == 'R' && At(s, p) == Some(Leaf(true))
  }

  /** `validate_lateral_r`. */
  predicate ValidBelow(s: Skeleton, parent: JoinType, isLeft: bool) {
    match s
    case Node(jt, l, r) => ValidBelow(l, jt, true) && ValidBelow(r, jt, false)
    case Leaf(lateral) => lateral ==> !isLeft && parent != Right
  }

  /** `validate_lateral`. */
  predicate Validated(s: Skeleton) {
    match s
    case Node(jt, l, r) => ValidBelow(l, jt, true) && ValidBelow(r, jt, false)
    case Leaf(lateral) => !lateral
  }

  /** No LATERAL leaf is the right side of a FULL OUTER join. */
  predicate NoOuterLateral(s: Skeleton) {
    s.Node? ==> NoOuterLateral(s.left) && NoOuterLateral(s.right) && !(s.jt == Outer && s.right == Leaf(true))
  }

  /** The node some turns lead to may wait for its sibling: the sibling is then the first side of the
      join, as its type allows. */
  predicate MayWait(s: Skeleton, p: Path) {
    && s.Node? && p != []
    && if |p| == 1 then (p == "R" && NonRight(s.jt)) || (p == "L" && NonLeft(s.jt))
       else if p[0] == 'L' then MayWait(s.left, p[1..])
       else p[0] == 'R' && MayWait(s.right, p[1..])
  }

  /** The nodes of the graph are among those below `path` that may wait. */
  ghost predicate Fits(s: Skeleton, path: Path, g: Graph) {
    forall p | p in g :: path <= p && MayWait(s, p[|path|..])
  }

  /** Nothing waits any less than before, and what does so newly is below `path` and may. */
  ghost predicate Added(s: Skeleton, path: Path, g: Graph, g': Graph) {
    && (forall p | p in g :: p in g')
    && (forall p | p in g' && p !in g :: path <= p && MayWait(s, p[|path|..]))
  }

  lemma {:induction false} AddedTwice(s: Skeleton, path: Path, g1: Graph, g2: Graph, g3: Graph)
    requires Added(s, path, g1, g2) && Added(s, path, g2, g3)
    ensures Added(s, path, g1, g3)
  {
  }

  /** What may wait below a side of a join may wait below the join. */
  lemma {:induction false} AddedBelow(s: Skeleton, path: Path, left: bool, g: Graph, g': Graph)
    requires s.Node? && Added(if left then s.left else s.right, path + (if left then "L" else "R"), g, g')
    ensures Added(s, path, g, g')
  {
    var side := path + if left then "L" else "R";
    forall p | p in g' && p !in g ensures path <= p && MayWait(s, p[|path|..]) {
      var rest := p[|path|..];
      assert p[|side|..] == rest[1..] && rest[0] == side[|path|];
      assert p[|side|..] != [];
    }
  }

  // ---------------------------------------------------------------------------------------------
  //  The case of the evaluator
  // ---------------------------------------------------------------------------------------------

  /** How the evaluator joins two sides: which one comes first, whether a row of it is kept without a
      partner, and whether the other side was computed once or per row of the first. */
  datatype Case = Independent(leftFirst: bool, firstOuter: bool, secondOuter: bool)
                | Dependent(leftFirst: bool, firstOuter: bool)

  /** The case for the join at a path; `None` is the branch that the evaluator does not expect. */
  function CaseAt(g: Graph, path: Path, jt: JoinType): Option<Case> {
    if path + "L" !in g && path + "R" !in g then
      match jt
      case Inner => Some(Independent(true, false, false))
      case Left => Some(Independent(true, true, false))
      case Right => Some(Independent(false, true, false))
      case Outer => Some(Independent(true, true, true))
    else
      match jt
      case Inner => Some(Dependent(path + "R" in g, false))
      case Left => Some(Dependent(true, true))
      case Right => Some(Dependent(false, true))
      case Outer => None
  }

  /** There is a case, and a side that waits for the other comes second in it. */
  predicate Serves(g: Graph, path: Path, jt: JoinType) {
    match CaseAt(g, path, jt)
    case Some(c) => (path + "R" in g ==> c.Dependent? && c.leftFirst) && (path + "L" in g ==> c.Dependent? && !c.leftFirst)
    case None => false
  }

  /** Every join of the tree is served. */
  ghost predicate Served(s: Skeleton, g: Graph) {
    forall p | At(s, p).Some? && At(s, p).value.Node? :: Serves(g, p, At(s, p).value.jt)
  }

  /** A child of a join may wait exactly if the type of the join allows it. */
  lemma {:induction false} MayWaitAt(s: Skeleton, p: Path)
    ensures MayWait(s, p + "R") <==> At(s, p).Some? && At(s, p).value.Node? && NonRight(At(s, p).value.jt)
    ensures MayWait(s, p + "L") <==> At(s, p).Some? && At(s, p).value.Node? && NonLeft(At(s, p).value.jt)
    decreases |p|
  {
    var r, l := p + "R", p + "L";
    if p == [] {
      assert r == "R" && l == "L";
    } else {
      assert r[1..] == p[1..] + "R" && l[1..] == p[1..] + "L" && r[0] == p[0] && l[0] == p[0];
      if s.Node? {
        MayWaitAt(s.left, p[1..]);
        MayWaitAt(s.right, p[1..]);
      }
    }
  }

  /** A join is served exactly if its sides wait only where its type lets them. */
  lemma {:induction false} ServesExactly(g: Graph, path: Path, jt: JoinType)
    requires Acyclic(g)
    ensures Serves(g, path, jt) <==> (path + "R" in g ==> NonRight(jt)) && (path + "L" in g ==> NonLeft(jt))
  {
    assert Sibling(path + "R") == path + "L";
  }

  lemma {:induction false} FitsServed(s: Skeleton, g: Graph)
    requires Acyclic(g) && Fits(s, [], g)
    ensures Served(s, g)
  {
    forall p | At(s, p).Some? && At(s, p).value.Node? ensures Serves(g, p, At(s, p).value.jt) {
      MayWaitAt(s, p);
      ServesExactly(g, p, At(s, p).value.jt);
      assert (p + "R")[0..] == p + "R" && (p + "L")[0..] == p + "L";
    }
  }

  // ---------------------------------------------------------------------------------------------
  //  What validation leaves open
  // ---------------------------------------------------------------------------------------------

  /** In an accepted tree without a LATERAL leaf under FULL OUTER, such a leaf may wait. */
  lemma {:induction false} LateralFits(s: Skeleton, p: Path)
    requires Validated(s) && NoOuterLateral(s) && LateralAt(s, p)
    ensures MayWait(s, p)
    decreases |p|
  {
    if |p| > 1 {
      LateralFits(if p[0] == 'L' then s.left else s.right, p[1..]);
    } else {
      assert At(s, p) == Some(s.right) && p == "R";
    }
  }

  /** A LATERAL leaf under FULL OUTER, if there is one. */
  lemma {:induction false} OuterLateralAt(s: Skeleton)
    requires !NoOuterLateral(s)
    ensures exists p :: LateralAt(s, p + "R") && At(s, p).Some? && At(s, p).value.Node? && At(s, p).value.jt == Outer
  {
    if s.jt == Outer && s.right == Leaf(true) {
      var p: Path := [];
      assert p + "R" == "R" && At(s.right, "R"[1..]) == Some(s.right);
      assert LateralAt(s, p + "R") && At(s, p) == Some(s);
    } else if !NoOuterLateral(s.left) {
      OuterLateralAt(s.left);
      var q :| LateralAt(s.left, q + "R") && At(s.left, q).Some? && At(s.left, q).value.Node? && At(s.left, q).value.jt == Outer;
      OneTurn(s, 'L', q);
    } else {
      OuterLateralAt(s.right);
      var q :| LateralAt(s.right, q + "R") && At(s.right, q).Some? && At(s.right, q).value.Node? && At(s.right, q).value.jt == Outer;
      OneTurn(s, 'R', q);
    }
  }

  lemma {:induction false} OneTurn(s: Skeleton, c: char, q: Path)
    requires s.Node? && (c == 'L' || c == 'R')
    ensures var side := if c == 'L' then s.left else s.right;
      At(s, [c] + q) == At(side, q) && At(s, ([c] + q) + "R") == At(side, q + "R")
  {
    assert ([c] + q)[1..] == q && (([c] + q) + "R")[1..] == q + "R";
  }

  lemma {:induction false} AddedFits(s: Skeleton, g: Graph, g': Graph)
    requires Validated(s) && NoOuterLateral(s) && Added(s, [], g, g') && forall p | p in g :: LateralAt(s, p)
    ensures Fits(s, [], g')
  {
    forall p | p in g' ensures MayWait(s, p[0..]) {
      assert p[0..] == p;
      if p in g { LateralFits(s, p); }
    }
    hide MayWait, Validated, NoOuterLateral, LateralAt;
  }

  /** Exactly when the evaluator has a case for every join of an accepted tree: the graph has the
      dependencies of the LATERAL leaves and whatever the optimizer added. */
  lemma {:induction false} ServedExactly(s: Skeleton, g: Graph, g': Graph)
    requires Validated(s) && Acyclic(g') && Added(s, [], g, g')
    requires forall p :: p in g <==> LateralAt(s, p)
    ensures Served(s, g') <==> NoOuterLateral(s)
  {
    hide Served, Fits, LateralAt, Validated, Acyclic;
    if NoOuterLateral(s) {
      AddedFits(s, g, g');
      FitsServed(s, g');
    } else {
      OuterUnserved(s, g');
    }
  }

  lemma {:induction false} OuterUnserved(s: Skeleton, g: Graph)
    requires !NoOuterLateral(s) && forall p | LateralAt(s, p) :: p in g
    ensures !Served(s, g)
  {
    OuterLateralAt(s);
    var p :| LateralAt(s, p + "R") && At(s, p).Some? && At(s, p).value.Node? && At(s, p).value.jt == Outer;
    assert !Serves(g, p, Outer);
    hide LateralAt, At, NoOuterLateral;
  }

  /** A FULL OUTER join with a LATERAL right side: accepted, and without a case of the evaluator. */
  lemma OuterLateralIsUnserved(g: Graph)
    requires "R" in g
    ensures var s := Node(Outer, Leaf(false), Leaf(true)); Validated(s) && LateralAt(s, "R") && !Served(s, g)
  {
    var s := Node(Outer, Leaf(false), Leaf(true));
    assert At(s.right, "R"[1..]) == Some(s.right);
    assert At(s, []) == Some(s) && [] + "R" == "R";
    assert !Serves(g, [], Outer);
  }
}
