/** SQL value expressions and their evaluation (src/expression.rs:100-345). */
module Expressions {
  import opened Wrappers
  import opened Values

  datatype ColumnRef = ColumnRef(table: string, col: ColName)

  datatype UnaryOp = UPlus | UMinus | Not | IsNull | IsNotNull

  datatype BinaryOp =
    | Plus | Minus | Multiply | Divide | Modulus | StringConcat
    | Gt | Lt | GtEq | LtEq | Spaceship | Eq | NotEq | And | Or

  /** A literal; the digits of a number may not parse. */
  datatype Literal = Number(parsed: Option<int>) | QuotedString(s: string) | Boolean(b: bool) | Null

  /** A subquery is known by its number and the columns of its surroundings that it uses. */
  datatype ValExpr =
    | Column(ref: ColumnRef)
    | Unary(op: UnaryOp, expr: ValExpr)
    | Binary(bop: BinaryOp, left: ValExpr, right: ValExpr)
    | Value(lit: Literal)
    | Subquery(query: nat, uses: seq<ColumnRef>)

  /** An expression in which columns and subqueries have been replaced by their values. */
  datatype CExpr =
    | CUnary(op: UnaryOp, expr: CExpr)
    | CBinary(bop: BinaryOp, left: CExpr, right: CExpr)
    | CValue(val: ColValN)

  datatype Result<+T> = Ok(value: T) | Err

  function LiteralValue(lit: Literal): Result<ColValN> {
    match lit
    case Number(n) => if n.Some? then Ok(Some(IntVal(n.value))) else Err
    case QuotedString(s) => Ok(Some(StringVal(s)))
    case Boolean(b) => Ok(Some(BoolVal(b)))
    case Null => Ok(None)
  }

  /** Division as the machine does it, towards zero. */
  function Quotient(a: int, b: int): int
    requires b != 0
  {
    if a >= 0 then a / b else -((-a) / b)
  }

  function EvalUnary(op: UnaryOp, v: ColValN): Result<ColValN> {
    match (op, v)
    case (UPlus, Some(IntVal(i))) => Ok(Some(IntVal(i)))
    case (UPlus, None) => Ok(None)
    case (UMinus, Some(IntVal(i))) => Ok(Some(IntVal(-i)))
    case (UMinus, None) => Ok(None)
    case (Not, Some(BoolVal(b))) => Ok(Some(BoolVal(!b)))
    case (Not, None) => Ok(None)
    case (IsNull, _) => Ok(Some(BoolVal(v == None)))
    case (IsNotNull, _) => Ok(Some(BoolVal(v != None)))
    case _ => Err
  }

  /** The operators that work on integers. */
  predicate OnInts(op: BinaryOp) {
    op in {Plus, Minus, Multiply, Divide, Modulus, Gt, Lt, GtEq, LtEq}
  }

  function EvalInts(op: BinaryOp, a: int, b: int): Result<ColValN>
    requires OnInts(op)
  {
    match op
    case Plus => Ok(Some(IntVal(a + b)))
    case Minus => Ok(Some(IntVal(a - b)))
    case Multiply => Ok(Some(IntVal(a * b)))
    case Divide => if b != 0 then Ok(Some(IntVal(Quotient(a, b)))) else Err
    case Modulus => if b != 0 then Ok(Some(IntVal(a - b * Quotient(a, b)))) else Err
    case Gt => Ok(Some(BoolVal(a > b)))
    case Lt => Ok(Some(BoolVal(a < b)))
    case GtEq => Ok(Some(BoolVal(a >= b)))
    case LtEq => Ok(Some(BoolVal(a <= b)))
  }

  function EvalConcat(l: ColValN, r: ColValN): Result<ColValN> {
    match (l, r)
    case (Some(StringVal(a)), Some(StringVal(b))) => Ok(Some(StringVal(a + b)))
    case (Some(StringVal(_)), None) => Ok(None)
    case (None, Some(StringVal(_))) => Ok(None)
    case (None, None) => Ok(None)
    case _ => Err
  }

  /** `=` and `!=`. */
  function EvalEquality(equal: bool, l: ColValN, r: ColValN): Result<ColValN> {
    if l.None? || r.None? then Ok(None)
    else if TypeOf(l.value) != TypeOf(r.value) then Err
    else Ok(Some(BoolVal((l == r) == equal)))
  }

  /** Not Kleene's conjunction: false AND NULL is NULL. */
  function EvalAnd(l: ColValN, r: ColValN): Result<ColValN> {
    match (l, r)
    case (Some(BoolVal(a)), Some(BoolVal(b))) => Ok(Some(BoolVal(a && b)))
    case (Some(BoolVal(_)), None) => Ok(None)
    case (None, Some(BoolVal(_))) => Ok(None)
    case (None, None) => Ok(None)
    case _ => Err
  }

  function EvalOr(l: ColValN, r: ColValN): Result<ColValN> {
    match (l, r)
    case (Some(BoolVal(a)), Some(BoolVal(b))) => Ok(Some(BoolVal(a || b)))
    case (Some(BoolVal(a)), None) => Ok(if a then Some(BoolVal(true)) else None)
    case (None, Some(BoolVal(b))) => Ok(if b then Some(BoolVal(true)) else None)
    case (None, None) => Ok(None)
    case _ => Err
  }

  /** Most operators are NULL if a side is NULL, provided that the other side has the right type. */
  function EvalBinary(op: BinaryOp, l: ColValN, r: ColValN): Result<ColValN> {
    if OnInts(op) then
      match (l, r)
      case (Some(IntVal(a)), Some(IntVal(b))) => EvalInts(op, a, b)
      case (Some(IntVal(_)), None) => Ok(None)
      case (None, Some(IntVal(_))) => Ok(None)
      case (None, None) => Ok(None)
      case _ => Err
    else if op == StringConcat then EvalConcat(l, r)
    else if op == Spaceship then Ok(Some(BoolVal(l == r)))
    else if op == And then EvalAnd(l, r)
    else if op == Or then EvalOr(l, r)
    else EvalEquality(op == Eq, l, r)
  }

  function EvaluateC(e: CExpr): Result<ColValN> {
    match e
    case CValue(v) => Ok(v)
    case CUnary(op, x) => (
      match EvaluateC(x)
      case Ok(v) => EvalUnary(op, v)
      case Err => Err)
    case CBinary(op, l, r) => (
      match (EvaluateC(l), EvaluateC(r))
      case (Ok(a), Ok(b)) => EvalBinary(op, a, b)
      case _ => Err)
  }

  type Env = map<ColumnRef, ColValN>

  /** How many subqueries occur in an expression. */
  function Subqueries(e: ValExpr): nat {
    match e
    case Unary(_, x) => Subqueries(x)
    case Binary(_, l, r) => Subqueries(l) + Subqueries(r)
    case Subquery(_, _) => 1
    case _ => 0
  }

  /** The columns an expression itself refers to, its subqueries aside. */
  function Columns(e: ValExpr): set<ColumnRef> {
    match e
    case Column(c) => {c}
    case Unary(_, x) => Columns(x)
    case Binary(_, l, r) => Columns(l) + Columns(r)
    case _ => {}
  }

  /** `construct_cexpr`; `next` is the index of the next subquery value. */
  function ConstructC(e: ValExpr, env: Env, vals: seq<ColValN>, next: nat): (r: Result<(CExpr, nat)>)
    requires Columns(e) <= env.Keys && next + Subqueries(e) <= |vals|
    ensures r.Ok? ==> r.value.1 == next + Subqueries(e)
  {
    match e
    case Column(c) => Ok((CValue(env[c]), next))
    case Value(lit) => (
      match LiteralValue(lit)
      case Ok(v) => Ok((CValue(v), next))
      case Err => Err)
    case Subquery(_, _) => Ok((CValue(vals[next]), next + 1))
    case Unary(op, x) => (
      match ConstructC(x, env, vals, next)
      case Ok((c, n)) => Ok((CUnary(op, c), n))
      case Err => Err)
    case Binary(op, l, r) => (
      match ConstructC(l, env, vals, next)
      case Ok((cl, n)) => (
        match ConstructC(r, env, vals, n)
        case Ok((cr, n')) => Ok((CBinary(op, cl, cr), n'))
        case Err => Err)
      case Err => Err)
  }

  const TRUE: ColValN := Some(BoolVal(true))

  /** Whether a WHERE clause with these values accepts. */
  predicate Accepts(e: ValExpr, env: Env, vals: seq<ColValN>, next: nat)
    requires Columns(e) <= env.Keys && next + Subqueries(e) <= |vals|
  {
    var c := ConstructC(e, env, vals, next);
    c.Ok? && EvaluateC(c.value.0) == Ok(TRUE)
  }
}
