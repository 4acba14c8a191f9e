/** What the operators of SQL expressions mean (src/expression.rs:100-318): when they fail, when they are
    NULL, and the laws their values obey. */
module ExpressionLaws {
  import opened Wrappers
  import opened Values
  import opened Expressions

  function Int(i: int): ColValN { Some(IntVal(i)) }

  function Bool(b: bool): ColValN { Some(BoolVal(b)) }

  /** A value that is NULL or of a type. */
  predicate NullOr(v: ColValN, t: ColType) { v.Some? ==> TypeOf(v.value) == t }

  /** The sides have types that the operator works on. */
  predicate Typed(op: BinaryOp, l: ColValN, r: ColValN) {
    match op
    case Spaceship => true
    case Eq => l.None? || NullOr(r, TypeOf(l.value))
    case NotEq => l.None? || NullOr(r, TypeOf(l.value))
    case And => NullOr(l, BoolType) && NullOr(r, BoolType)
    case Or => NullOr(l, BoolType) && NullOr(r, BoolType)
    case StringConcat => NullOr(l, StringType) && NullOr(r, StringType)
    case _ => NullOr(l, IntType) && NullOr(r, IntType)
  }

  predicate DividesByZero(op: BinaryOp, l: ColValN, r: ColValN) {
    (op == Divide || op == Modulus) && l.Some? && r == Int(0)
  }

  /** An operator fails exactly if its sides have the wrong types, or if it divides by zero. */
  lemma {:induction false} FailsExactly(op: BinaryOp, l: ColValN, r: ColValN)
    ensures EvalBinary(op, l, r).Err? <==> !Typed(op, l, r) || DividesByZero(op, l, r)
  {
    match op
    case Plus => case Minus => case Multiply => case Divide => case Modulus =>
    case Gt => case Lt => case GtEq => case LtEq =>
    case _ =>
  }

  /** An operator is NULL exactly if a side is, except that `<=>` never is and OR is not beside a true. */
  lemma {:induction false} NullExactly(op: BinaryOp, l: ColValN, r: ColValN)
    requires EvalBinary(op, l, r).Ok?
    ensures EvalBinary(op, l, r) == Ok(None) <==>
      op != Spaceship && (l.None? || r.None?) && !(op == Or && (l == TRUE || r == TRUE))
  {
    match op
    case Plus => case Minus => case Multiply => case Divide => case Modulus =>
    case Gt => case Lt => case GtEq => case LtEq =>
    case _ =>
  }

  // ---------------------------------------------------------------------------------------------
  //  Arithmetic
  // ---------------------------------------------------------------------------------------------

  /** Addition and subtraction undo each other, with zero as the neutral element. */
  lemma {:induction false} PlusUndoesMinus(a: int, b: int)
    ensures exists d :: EvalBinary(Minus, Int(a), Int(b)) == Ok(Int(d)) && EvalBinary(Plus, Int(d), Int(b)) == Ok(Int(a))
    ensures exists c :: EvalBinary(Plus, Int(a), Int(b)) == Ok(Int(c)) && c - a == b
    ensures EvalBinary(Plus, Int(a), Int(0)) == Ok(Int(a)) && EvalBinary(Minus, Int(a), Int(a)) == Ok(Int(0))
  {
    assert EvalBinary(Minus, Int(a), Int(b)) == Ok(Int(a - b));
    assert EvalBinary(Plus, Int(a - b), Int(b)) == Ok(Int(a));
    assert EvalBinary(Plus, Int(a), Int(b)) == Ok(Int(a + b));
  }

  /** Multiplication is repeated addition. */
  lemma {:induction false} TimesIsRepeatedPlus(a: int, b: int)
    ensures EvalBinary(Multiply, Int(0), Int(b)) == Ok(Int(0)) && EvalBinary(Multiply, Int(1), Int(b)) == Ok(Int(b))
    ensures exists p, q :: EvalBinary(Multiply, Int(a), Int(b)) == Ok(Int(p)) && EvalBinary(Multiply, Int(a + 1), Int(b)) == Ok(Int(q))
                           && EvalBinary(Plus, Int(p), Int(b)) == Ok(Int(q))
  {
    assert EvalBinary(Multiply, Int(a), Int(b)) == Ok(Int(a * b));
    assert EvalBinary(Multiply, Int(a + 1), Int(b)) == Ok(Int((a + 1) * b));
    assert a * b + b == (a + 1) * b;
    assert EvalBinary(Plus, Int(a * b), Int(b)) == Ok(Int((a + 1) * b));
  }

  function Abs(i: int): nat { if i < 0 then -i else i }

  /** Division is towards zero: the rest is smaller than the divisor and has the sign of the dividend. */
  lemma {:induction false} DivisionRests(a: int, b: int)
    requires b != 0
    ensures exists q, r :: EvalBinary(Divide, Int(a), Int(b)) == Ok(Int(q)) && EvalBinary(Modulus, Int(a), Int(b)) == Ok(Int(r))
                           && a == b * q + r && Abs(r) < Abs(b) && (a >= 0 ==> r >= 0) && (a <= 0 ==> r <= 0)
  {
    var q := Quotient(a, b);
    var r := a - b * q;
    QuotientRests(a, b);
    assert EvalBinary(Divide, Int(a), Int(b)) == Ok(Int(q)) && EvalBinary(Modulus, Int(a), Int(b)) == Ok(Int(r));
    hide Quotient;
  }

  lemma {:induction false} QuotientRests(a: int, b: int)
    requires b != 0
    ensures var r := a - b * Quotient(a, b); Abs(r) < Abs(b) && (a >= 0 ==> r >= 0) && (a <= 0 ==> r <= 0)
  {
    var m := Abs(a);
    var k, rest := m / b, m % b;
    EuclidRests(m, b, k, rest);
    NegatedTimes(b, k);
    assert Quotient(a, b) == if a >= 0 then k else -k;
  }

  lemma {:induction false} EuclidRests(m: int, b: int, k: int, rest: int)
    requires b != 0 && k == m / b && rest == m % b
    ensures m == b * k + rest && 0 <= rest < Abs(b)
  {
  }

  lemma {:induction false} NegatedTimes(b: int, k: int)
    ensures b * -k == -(b * k)
  {
  }

  /** Changing the sign twice changes nothing, and a number and its opposite add up to zero. */
  lemma {:induction false} MinusTwice(a: int)
    ensures exists n :: EvalUnary(UMinus, Int(a)) == Ok(Int(n)) && EvalUnary(UMinus, Int(n)) == Ok(Int(a))
                        && EvalBinary(Plus, Int(a), Int(n)) == Ok(Int(0))
    ensures EvalUnary(UPlus, Int(a)) == Ok(Int(a))
  {
    assert EvalUnary(UMinus, Int(a)) == Ok(Int(-a)) && EvalUnary(UMinus, Int(-a)) == Ok(Int(a));
    assert EvalBinary(Plus, Int(a), Int(-a)) == Ok(Int(0));
  }

  // ---------------------------------------------------------------------------------------------
  //  Comparisons
  // ---------------------------------------------------------------------------------------------

  /** The comparisons of integers agree with the order of values. */
  lemma {:induction false} ComparesByOrder(a: int, b: int)
    ensures EvalBinary(Lt, Int(a), Int(b)) == Ok(TRUE) <==> Less(IntVal(a), IntVal(b))
    ensures EvalBinary(Gt, Int(a), Int(b)) == Ok(TRUE) <==> Less(IntVal(b), IntVal(a))
    ensures EvalBinary(LtEq, Int(a), Int(b)) == Ok(TRUE) <==> !Less(IntVal(b), IntVal(a))
    ensures EvalBinary(GtEq, Int(a), Int(b)) == Ok(TRUE) <==> !Less(IntVal(a), IntVal(b))
  {
  }

  function Negation(op: BinaryOp): BinaryOp
    requires op in {Lt, Gt, LtEq, GtEq, Eq, NotEq}
  {
    match op
    case Lt => GtEq case GtEq => Lt
    case Gt => LtEq case LtEq => Gt
    case Eq => NotEq case NotEq => Eq
  }

  /** On sides of the right types, NULL among them, each comparison is the negation of its opposite. */
  lemma {:induction false} NegatesExactly(op: BinaryOp, l: ColValN, r: ColValN)
    requires op in {Lt, Gt, LtEq, GtEq, Eq, NotEq} && Typed(op, l, r)
    ensures EvalBinary(op, l, r).Ok? && EvalBinary(Negation(op), l, r) == EvalUnary(Not, EvalBinary(op, l, r).value)
  {
  }

  /** `=` is equality where it is not NULL, and `<=>` is equality with NULL equal to itself. */
  lemma {:induction false} EqualityExactly(l: ColValN, r: ColValN)
    ensures EvalBinary(Eq, l, r) == Ok(TRUE) <==> l == r && l.Some?
    ensures EvalBinary(Spaceship, l, r) == Ok(Bool(l == r))
  {
  }

  // ---------------------------------------------------------------------------------------------
  //  Truth values, strings and NULL
  // ---------------------------------------------------------------------------------------------

  /** A conjunction is true exactly if both sides are, and a disjunction exactly if one side is and the other
      a truth value or NULL. */
  lemma {:induction false} TrueExactly(l: ColValN, r: ColValN)
    ensures EvalBinary(And, l, r) == Ok(TRUE) <==> l == TRUE && r == TRUE
    ensures EvalBinary(Or, l, r) == Ok(TRUE) <==> Typed(Or, l, r) && (l == TRUE || r == TRUE)
    ensures EvalBinary(Or, l, r) == Ok(Bool(false)) <==> l == Bool(false) && r == Bool(false)
    ensures EvalBinary(And, l, r) == Ok(Bool(false)) <==> Typed(And, l, r) && l.Some? && r.Some? && !(l == TRUE && r == TRUE)
  {
  }

  function Opposite(v: ColValN): ColValN
    requires NullOr(v, BoolType)
  {
    if v.Some? then Bool(!v.value.b) else None
  }

  /** NOT of AND is OR of NOTs exactly if it is not false AND NULL that is asked for: that is NULL here. */
  lemma {:induction false} DeMorganExactly(l: ColValN, r: ColValN)
    requires NullOr(l, BoolType) && NullOr(r, BoolType)
    ensures EvalUnary(Not, l) == Ok(Opposite(l)) && EvalBinary(And, l, r).Ok?
    ensures EvalUnary(Not, EvalBinary(And, l, r).value) == EvalBinary(Or, Opposite(l), Opposite(r))
      <==> !((l == Bool(false) && r == None) || (l == None && r == Bool(false)))
    ensures EvalUnary(Not, Opposite(l)) == Ok(l)
  {
  }

  /** `IS NULL` never fails and never is NULL. */
  lemma {:induction false} IsNullExactly(v: ColValN)
    ensures EvalUnary(IsNull, v) == Ok(Bool(v.None?)) && EvalUnary(IsNotNull, v) == EvalUnary(Not, EvalUnary(IsNull, v).value)
  {
  }

  /** A concatenation starts with the one string and ends with the other. */
  lemma {:induction false} ConcatParts(a: string, b: string)
    ensures exists c :: EvalBinary(StringConcat, Some(StringVal(a)), Some(StringVal(b))) == Ok(Some(StringVal(c)))
                        && |c| == |a| + |b| && c[..|a|] == a && c[|a|..] == b
  {
    var c := a + b;
    assert EvalBinary(StringConcat, Some(StringVal(a)), Some(StringVal(b))) == Ok(Some(StringVal(c)));
    assert c[..|a|] == a && c[|a|..] == b;
  }
}
