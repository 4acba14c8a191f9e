/** Column values and their order (src/common.rs). Integers are mathematical. */
module Values {
  import opened Wrappers

  datatype ColType = IntType | BoolType | StringType

  datatype ColVal = IntVal(i: int) | BoolVal(b: bool) | StringVal(s: string)

  /** A value that may be NULL. */
  type ColValN = Option<ColVal>

  datatype ColName = ColName(name: string)

  function TypeOf(v: ColVal): ColType {
    match v
    case IntVal(_) => IntType
    case BoolVal(_) => BoolType
    case StringVal(_) => StringType
  }

  function Rank(v: ColVal): nat {
    match v
    case IntVal(_) => 0
    case BoolVal(_) => 1
    case StringVal(_) => 2
  }

  /** Strings are ordered lexicographically. */
  predicate StringLess(a: string, b: string) {
    b != [] && (a == [] || a[0] < b[0] || (a[0] == b[0] && StringLess(a[1..], b[1..])))
  }

  /** The order of the values of one type, and of the types. */
  predicate Less(a: ColVal, b: ColVal) {
    match (a, b)
    case (IntVal(x), IntVal(y)) => x < y
    case (BoolVal(x), BoolVal(y)) => !x && y
    case (StringVal(x), StringVal(y)) => StringLess(x, y)
    case _ => Rank(a) < Rank(b)
  }

  lemma {:induction false} StringTrichotomy(a: string, b: string)
    ensures a == b ==> !StringLess(a, b)
    ensures StringLess(a, b) ==> !StringLess(b, a)
    ensures a != b ==> StringLess(a, b) || StringLess(b, a)
  {
    if a != [] && b != [] {
      StringTrichotomy(a[1..], b[1..]);
      assert a == [a[0]] + a[1..] && b == [b[0]] + b[1..];
    }
  }

  lemma {:induction false} StringTransitive(a: string, b: string, c: string)
    requires StringLess(a, b) && StringLess(b, c)
    ensures StringLess(a, c)
  {
    if a != [] && a[0] == b[0] && b[0] == c[0] { StringTransitive(a[1..], b[1..], c[1..]); }
  }

  /** `Less` is a strict total order. */
  lemma {:induction false} LessTotal(a: ColVal, b: ColVal)
    ensures a == b ==> !Less(a, b)
    ensures Less(a, b) ==> !Less(b, a)
    ensures a != b ==> Less(a, b) || Less(b, a)
  {
    if a.StringVal? && b.StringVal? { StringTrichotomy(a.s, b.s); }
  }

  lemma {:induction false} LessTransitive(a: ColVal, b: ColVal, c: ColVal)
    requires Less(a, b) && Less(b, c)
    ensures Less(a, c)
  {
    if a.StringVal? && b.StringVal? && c.StringVal? { StringTransitive(a.s, b.s, c.s); }
  }
}
