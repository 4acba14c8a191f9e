/** Timestamps: milliseconds with a fraction of 64 bits (src/common.rs:1108-1149). */
module Timestamps {

  const TWO_64: nat := 0x1_0000_0000_0000_0000

  newtype Suffix = x: int | 0 <= x < 0x1_0000_0000_0000_0000

  /** Ordered by milliseconds, then by suffix. The milliseconds are unbounded here. */
  datatype Timestamp = Timestamp(ms: nat, suffix: Suffix)

  predicate Before(a: Timestamp, b: Timestamp) {
    a.ms < b.ms || (a.ms == b.ms && a.suffix < b.suffix)
  }

  predicate Upto(a: Timestamp, b: Timestamp) { !Before(b, a) }

  function Later(a: Timestamp, b: Timestamp): (r: Timestamp)
    ensures Upto(a, r) && Upto(b, r) && (r == a || r == b)
  {
    if Before(a, b) then b else a
  }

  function Millis(ms: nat): Timestamp { Timestamp(ms, 0) }

  /** `Timestamp::add`: the suffixes are added as wider numbers and the sum is cut back. */
  function Add(a: Timestamp, b: Timestamp): Timestamp {
    var sum := a.suffix as nat + b.suffix as nat;
    var borrow := if sum > 0xFFFF_FFFF_FFFF_FFFF then 1 else 0;
    Timestamp(a.ms + b.ms + borrow, (sum % 0x1_0000_0000_0000_0000) as Suffix)
  }

  /** The number a timestamp stands for, in units of the suffix. */
  function Value(t: Timestamp): nat {
    t.ms * TWO_64 + t.suffix as nat
  }

  /** Addition is exact. */
  lemma {:induction false} AddExact(a: Timestamp, b: Timestamp)
    ensures Value(Add(a, b)) == Value(a) + Value(b)
  {
    var sum := a.suffix as nat + b.suffix as nat;
    assert sum % TWO_64 == if sum >= TWO_64 then sum - TWO_64 else sum;
    assert (a.ms + b.ms) * TWO_64 == a.ms * TWO_64 + b.ms * TWO_64;
    assert (a.ms + b.ms + 1) * TWO_64 == (a.ms + b.ms) * TWO_64 + TWO_64;
  }

  /** The order is that of the numbers. */
  lemma {:induction false} OrderExact(a: Timestamp, b: Timestamp)
    ensures Before(a, b) <==> Value(a) < Value(b)
    ensures a == b <==> Value(a) == Value(b)
  {
    if a.ms < b.ms {
      assert (a.ms + 1) * TWO_64 <= b.ms * TWO_64;
    } else if b.ms < a.ms {
      assert (b.ms + 1) * TWO_64 <= a.ms * TWO_64;
    }
  }

  /** Addition respects the order, so a later timestamp can always be had. */
  lemma {:induction false} AddMonotone(a: Timestamp, b: Timestamp, c: Timestamp)
    ensures Before(a, b) <==> Before(Add(a, c), Add(b, c))
    ensures c.ms > 0 ==> Before(a, Add(a, c))
  {
    AddExact(a, c);
    AddExact(b, c);
    OrderExact(a, b);
    OrderExact(Add(a, c), Add(b, c));
    OrderExact(a, Add(a, c));
    if c.ms > 0 { assert c.ms * TWO_64 >= TWO_64; }
  }
}
