/** The conjunctions as the evaluator of joins computes them, by putting values into the clause and using up
    the values of subqueries in order (src/expression.rs:56-98, src/join_read_es.rs:1518-1536), mean what they
    mean in a join tree. */
module JoinVerdicts {
  import opened Expressions
  import opened Values
  import opened Wrappers
  import opened JoinTrees
  import JT = JoinTables

  /** The values of the subqueries of an expression, from left to right. */
  function Answers(w: World, e: ValExpr, env: Env): (vals: seq<ColValN>)
    ensures |vals| == Subqueries(e)
  {
    match e
    case Unary(_, x) => Answers(w, x, env)
    case Binary(_, l, r) => Answers(w, l, env) + Answers(w, r, env)
    case Subquery(q, uses) => [w.subquery(q, Arguments(uses, env))]
    case _ => []
  }

  function AllAnswers(w: World, es: seq<ValExpr>, k: nat, env: Env): seq<ColValN>
    requires k <= |es|
    decreases |es| - k
  {
    if k == |es| then [] else Answers(w, es[k], env) + AllAnswers(w, es, k + 1, env)
  }

  /** The value of an expression with all values put in. */
  function Constructed(e: ValExpr, env: Env, vals: seq<ColValN>, next: nat): Result<ColValN>
    requires Columns(e) <= env.Keys && next + Subqueries(e) <= |vals|
  {
    match ConstructC(e, env, vals, next)
    case Ok((c, _)) => EvaluateC(c)
    case Err => Err
  }

  /** Putting the values in and evaluating is evaluating. */
  lemma {:induction false} ConstructedMeans(w: World, e: ValExpr, env: Env, vals: seq<ColValN>, next: nat)
    requires Columns(e) <= env.Keys && next + Subqueries(e) <= |vals| && vals[next..next + Subqueries(e)] == Answers(w, e, env)
    ensures Constructed(e, env, vals, next) == Eval(w, e, env)
  {
    if e.Unary? {
      ConstructedMeans(w, e.expr, env, vals, next);
      ConstructedUnary(w, e.op, e.expr, env, vals, next);
    } else if e.Binary? {
      var a, b := Answers(w, e.left, env), Answers(w, e.right, env);
      Halves(vals, next, a, b);
      ConstructedMeans(w, e.left, env, vals, next);
      ConstructedMeans(w, e.right, env, vals, next + |a|);
      ConstructedBinary(w, e.bop, e.left, e.right, env, vals, next);
    } else {
      ConstructedLeaf(w, e, env, vals, next);
    }
    hide Constructed, Eval, EvalBinary, EvalUnary;
  }

  lemma {:induction false} ConstructedLeaf(w: World, e: ValExpr, env: Env, vals: seq<ColValN>, next: nat)
    requires !e.Unary? && !e.Binary? && Columns(e) <= env.Keys && next + Subqueries(e) <= |vals| && vals[next..next + Subqueries(e)] == Answers(w, e, env)
    ensures Constructed(e, env, vals, next) == Eval(w, e, env)
  {
    if e.Subquery? { assert vals[next] == vals[next..next + 1][0]; }
  }

  lemma {:induction false} ConstructedUnary(w: World, op: UnaryOp, x: ValExpr, env: Env, vals: seq<ColValN>, next: nat)
    requires Columns(x) <= env.Keys && next + Subqueries(x) <= |vals| && Constructed(x, env, vals, next) == Eval(w, x, env)
    ensures Constructed(Unary(op, x), env, vals, next) == Eval(w, Unary(op, x), env)
  {
    hide EvalUnary;
  }

  lemma {:induction false} Halves(vals: seq<ColValN>, next: nat, a: seq<ColValN>, b: seq<ColValN>)
    requires next + |a| + |b| <= |vals| && vals[next..next + |a| + |b|] == a + b
    ensures vals[next..next + |a|] == a && vals[next + |a|..next + |a| + |b|] == b
  {
    assert vals[next..next + |a|] == (a + b)[..|a|];
    assert vals[next + |a|..next + |a| + |b|] == (a + b)[|a|..];
  }

  lemma {:induction false} ConstructedBinary(w: World, op: BinaryOp, l: ValExpr, r: ValExpr, env: Env, vals: seq<ColValN>, next: nat)
    requires Columns(l) + Columns(r) <= env.Keys && next + Subqueries(l) + Subqueries(r) <= |vals|
    requires Constructed(l, env, vals, next) == Eval(w, l, env) && Constructed(r, env, vals, next + Subqueries(l)) == Eval(w, r, env)
    ensures Constructed(Binary(op, l, r), env, vals, next) == Eval(w, Binary(op, l, r), env)
  {
    hide EvalBinary;
  }

  /** One conjunction holds for the evaluator exactly if it is true. */
  lemma {:induction false} ConditionMeans(w: World, e: ValExpr, env: Env, vals: seq<ColValN>, next: nat)
    requires Columns(e) <= env.Keys && next + Subqueries(e) <= |vals| && vals[next..next + Subqueries(e)] == Answers(w, e, env)
    ensures JT.Condition(e, env, vals, next) == Ok(true) <==> IsTrue(w, e, env)
    ensures JT.Condition(e, env, vals, next) == Ok(false) <==> Eval(w, e, env) == Ok(None) || Eval(w, e, env) == Ok(Some(BoolVal(false)))
  {
    ConstructedMeans(w, e, env, vals, next);
  }

  lemma {:induction false} AllHoldMeansFrom(w: World, es: seq<ValExpr>, env: Env, vals: seq<ColValN>, k: nat, next: nat)
    requires k <= |es| && next <= |vals| && vals[next..] == AllAnswers(w, es, k, env) && forall e | e in es :: Columns(e) <= env.Keys
    ensures JT.AllHold(es, env, vals, k, next) == Ok(true) <==> forall j | k <= j < |es| :: IsTrue(w, es[j], env)
    decreases |es| - k
  {
    hide IsTrue, JT.Condition, Answers, Columns;
    if k < |es| {
      var a, rest := Answers(w, es[k], env), AllAnswers(w, es, k + 1, env);
      assert vals[next..next + |a| + |rest|] == a + rest;
      Halves(vals, next, a, rest);
      assert vals[next + |a|..] == rest && es[k] in es;
      ConditionMeans(w, es[k], env, vals, next);
      AllHoldMeansFrom(w, es, env, vals, k + 1, next + |a|);
    }
  }

  /** The evaluator accepts by its conjunctions exactly if all of them are true. */
  lemma {:induction false} AllHoldMeans(w: World, es: seq<ValExpr>, env: Env, vals: seq<ColValN>)
    requires vals == AllAnswers(w, es, 0, env) && forall e | e in es :: Columns(e) <= env.Keys
    ensures JT.AllHold(es, env, vals, 0, 0) == Ok(true) <==> AllTrue(w, es, env)
  {
    assert vals[0..] == vals;
    AllHoldMeansFrom(w, es, env, vals, 0, 0);
  }
}
