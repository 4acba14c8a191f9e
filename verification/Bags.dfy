/** Sums over bags. */
module Bags {

  /** The sum of `g(x)` over the members `x` of `m`, each as often as it occurs. */
  ghost function Sum<A(!new), B(!new)>(m: multiset<A>, g: A -> multiset<B>): multiset<B>
    decreases |m|
  {
    if m == multiset{} then multiset{}
    else
      var x :| x in m;
      g(x) + Sum(m - multiset{x}, g)
  }

  /** The members of `m` that satisfy `p`. */
  ghost function Keep<A(!new)>(m: multiset<A>, p: A -> bool): multiset<A> {
    Sum(m, x => if p(x) then multiset{x} else multiset{})
  }

  ghost function Times<A(!new)>(n: nat, b: multiset<A>): multiset<A> {
    if n == 0 then multiset{} else b + Times(n - 1, b)
  }

  lemma {:induction false} Swap<A>(a: multiset<A>, b: multiset<A>, c: multiset<A>)
    ensures a + (b + c) == b + (a + c)
  {
  }

  lemma {:induction false} Regroup<A>(a: multiset<A>, b: multiset<A>, c: multiset<A>)
    ensures (a + b) + c == a + (b + c)
  {
  }

  lemma {:induction false} Without<A>(m: multiset<A>, x: A, y: A)
    requires x in m && y in m && x != y
    ensures y in m - multiset{x} && x in m - multiset{y}
    ensures m - multiset{y} - multiset{x} == m - multiset{x} - multiset{y}
  {
  }

  /** Any member can be taken out first. */
  lemma {:induction false} SumPick<A(!new), B(!new)>(m: multiset<A>, g: A -> multiset<B>, x: A)
    requires x in m
    ensures Sum(m, g) == g(x) + Sum(m - multiset{x}, g)
    decreases |m|
  {
    var y :| y in m && Sum(m, g) == g(y) + Sum(m - multiset{y}, g);
    if y != x {
      var rest := m - multiset{x} - multiset{y};
      Without(m, x, y);
      hide Sum;
      SumPick(m - multiset{y}, g, x);
      SumPick(m - multiset{x}, g, y);
      Swap(g(x), g(y), Sum(rest, g));
    }
  }

  lemma {:induction false} SumConcat<A(!new), B(!new)>(a: multiset<A>, b: multiset<A>, g: A -> multiset<B>)
    ensures Sum(a + b, g) == Sum(a, g) + Sum(b, g)
    decreases |a|
  {
    if a == multiset{} {
      assert a + b == b;
    } else {
      var x :| x in a;
      var rest := a - multiset{x};
      assert a + b - multiset{x} == rest + b;
      hide Sum;
      SumPick(a, g, x);
      SumPick(a + b, g, x);
      SumConcat(rest, b, g);
      Regroup(g(x), Sum(rest, g), Sum(b, g));
    }
  }

  lemma {:induction false} SumSame<A(!new), B(!new)>(m: multiset<A>, g: A -> multiset<B>, h: A -> multiset<B>)
    requires forall x | x in m :: g(x) == h(x)
    ensures Sum(m, g) == Sum(m, h)
    decreases |m|
  {
    if m != multiset{} {
      var x :| x in m;
      SumPick(m, g, x);
      SumPick(m, h, x);
      SumSame(m - multiset{x}, g, h);
    }
  }

  lemma {:induction false} SumOne<A(!new), B(!new)>(x: A, g: A -> multiset<B>)
    ensures Sum(multiset{x}, g) == g(x)
  {
    SumPick(multiset{x}, g, x);
    assert multiset{x} - multiset{x} == multiset{};
  }

  /** A member of a sum comes from one of the members summed over. */
  lemma {:induction false} SumFrom<A(!new), B(!new)>(m: multiset<A>, g: A -> multiset<B>, y: B)
    ensures y in Sum(m, g) <==> exists x :: x in m && y in g(x)
    decreases |m|
  {
    if m != multiset{} {
      var x :| x in m;
      SumPick(m, g, x);
      SumFrom(m - multiset{x}, g, y);
      if y in Sum(m - multiset{x}, g) {
        var z :| z in m - multiset{x} && y in g(z);
        assert z in m;
      }
      if z :| z in m && y in g(z) {
        if z != x { assert z in m - multiset{x}; }
      }
    }
  }

  /** A sum of sums. */
  lemma {:induction false} SumSum<A(!new), B(!new), C(!new)>(m: multiset<A>, g: A -> multiset<B>, h: B -> multiset<C>)
    ensures Sum(Sum(m, g), h) == Sum(m, x => Sum(g(x), h))
    decreases |m|
  {
    var gh := (x: A) => Sum(g(x), h);
    if m != multiset{} {
      var x :| x in m;
      SumPick(m, g, x);
      SumPick(m, gh, x);
      SumConcat(g(x), Sum(m - multiset{x}, g), h);
      SumSum(m - multiset{x}, g, h);
      SumSame(m - multiset{x}, gh, x => Sum(g(x), h));
    }
    SumSame(m, gh, x => Sum(g(x), h));
  }

  /** Summing over the members kept is summing over all, the others counting nothing. */
  lemma {:induction false} SumKeep<A(!new), B(!new)>(m: multiset<A>, p: A -> bool, g: A -> multiset<B>)
    ensures Sum(Keep(m, p), g) == Sum(m, x => if p(x) then g(x) else multiset{})
  {
    var one := (x: A) => if p(x) then multiset{x} else multiset{};
    SumSame(m, one, x => if p(x) then multiset{x} else multiset{});
    SumSum(m, one, g);
    forall x ensures Sum(one(x), g) == if p(x) then g(x) else multiset{} {
      SumOne(x, g);
    }
    SumSame(m, x => Sum(one(x), g), x => if p(x) then g(x) else multiset{});
  }

  lemma {:induction false} KeepIn<A(!new)>(m: multiset<A>, p: A -> bool, x: A)
    ensures x in Keep(m, p) <==> x in m && p(x)
  {
    var one := (y: A) => if p(y) then multiset{y} else multiset{};
    SumSame(m, one, y => if p(y) then multiset{y} else multiset{});
    SumFrom(m, one, x);
    if x in m && p(x) { assert x in one(x); }
  }

  /** Keeping from a sum is summing what is kept. */
  lemma {:induction false} KeepSum<A(!new), B(!new)>(m: multiset<A>, g: A -> multiset<B>, p: B -> bool)
    ensures Keep(Sum(m, g), p) == Sum(m, x => Keep(g(x), p))
  {
    var one := (y: B) => if p(y) then multiset{y} else multiset{};
    SumSame(Sum(m, g), one, y => if p(y) then multiset{y} else multiset{});
    SumSum(m, g, one);
    forall x ensures Sum(g(x), one) == Keep(g(x), p) {
      SumSame(g(x), one, y => if p(y) then multiset{y} else multiset{});
    }
    SumSame(m, x => Sum(g(x), one), x => Keep(g(x), p));
  }

  lemma {:induction false} SumKept<A(!new), B(!new)>(m: multiset<A>, g: A -> multiset<B>, h: A -> multiset<B>, p: B -> bool)
    requires forall x | x in m :: h(x) == Keep(g(x), p)
    ensures Sum(m, h) == Keep(Sum(m, g), p)
  {
    KeepSum(m, g, p);
    SumSame(m, h, x => Keep(g(x), p));
  }

  lemma {:induction false} KeepOne<A(!new)>(x: A, p: A -> bool)
    ensures Keep(multiset{x}, p) == if p(x) then multiset{x} else multiset{}
  {
    SumOne(x, y => if p(y) then multiset{y} else multiset{});
  }

  lemma {:induction false} KeepConcat<A(!new)>(a: multiset<A>, b: multiset<A>, p: A -> bool)
    ensures Keep(a + b, p) == Keep(a, p) + Keep(b, p)
  {
    SumConcat(a, b, x => if p(x) then multiset{x} else multiset{});
  }

  lemma {:induction false} SumNothing<A(!new), B(!new)>(m: multiset<A>, g: A -> multiset<B>)
    requires forall x | x in m :: g(x) == multiset{}
    ensures Sum(m, g) == multiset{}
    decreases |m|
  {
    if m != multiset{} {
      var x :| x in m;
      SumPick(m, g, x);
      SumNothing(m - multiset{x}, g);
    }
  }

  lemma {:induction false} SumPlus<A(!new), B(!new)>(m: multiset<A>, g: A -> multiset<B>, h: A -> multiset<B>, gh: A -> multiset<B>)
    requires forall x | x in m :: gh(x) == g(x) + h(x)
    ensures Sum(m, gh) == Sum(m, g) + Sum(m, h)
    decreases |m|
  {
    if m != multiset{} {
      var x :| x in m;
      var rest := m - multiset{x};
      SumPick(m, g, x);
      SumPick(m, h, x);
      SumPick(m, gh, x);
      SumPlus(rest, g, h, gh);
      hide Sum;
      assert (g(x) + h(x)) + (Sum(rest, g) + Sum(rest, h)) == (g(x) + Sum(rest, g)) + (h(x) + Sum(rest, h));
    }
  }

  /** A double sum does not depend on the order. */
  lemma {:induction false} SumSwap<A(!new), B(!new), C(!new)>(a: multiset<A>, b: multiset<B>, g: (A, B) -> multiset<C>)
    ensures Sum(a, x => Sum(b, y => g(x, y))) == Sum(b, y => Sum(a, x => g(x, y)))
    decreases |a|
  {
    var rows, cols := (x: A) => Sum(b, y => g(x, y)), (y: B) => Sum(a, x => g(x, y));
    if a == multiset{} {
      SumNothing(b, cols);
      SumSame(b, cols, y => Sum(a, x => g(x, y)));
    } else {
      var x :| x in a;
      var rest := a - multiset{x};
      SumSwap(rest, b, g);
      SumSame(a, rows, x => Sum(b, y => g(x, y)));
      SumPick(a, rows, x);
      SumSame(rest, rows, x => Sum(b, y => g(x, y)));
      var one, others := (y: B) => g(x, y), (y: B) => Sum(rest, x => g(x, y));
      SumSame(b, one, y => g(x, y));
      SumSame(b, others, y => Sum(rest, x => g(x, y)));
      forall y | y in b ensures cols(y) == one(y) + others(y) { SumPick(a, x => g(x, y), x); }
      SumPlus(b, one, others, cols);
      SumSame(b, cols, y => Sum(a, x => g(x, y)));
    }
  }

  /** Copies of one member. */
  ghost function Copies<A>(x: A, n: nat): multiset<A> {
    if n == 0 then multiset{} else multiset{x} + Copies(x, n - 1)
  }

  lemma {:induction false} CopiesCount<A(!new)>(x: A, n: nat)
    ensures Copies(x, n)[x] == n && forall y | y != x :: Copies(x, n)[y] == 0
  {
    if n > 0 { CopiesCount(x, n - 1); }
  }

  lemma {:induction false} SumCopies<A(!new), B(!new)>(x: A, n: nat, g: A -> multiset<B>)
    ensures Sum(Copies(x, n), g) == Times(n, g(x))
  {
    if n > 0 {
      var rest := Copies(x, n - 1);
      assert Copies(x, n) == multiset{x} + rest && Times(n, g(x)) == g(x) + Times(n - 1, g(x));
      hide Sum, Copies, Times;
      SumCopies(x, n - 1, g);
      SumConcat(multiset{x}, rest, g);
      SumOne(x, g);
    }
  }

  lemma {:induction false} TimesCount<B(!new)>(n: nat, b: multiset<B>, y: B)
    ensures Times(n, b)[y] == n * b[y]
  {
    if n > 0 {
      TimesCount(n - 1, b, y);
      assert Times(n, b)[y] == b[y] + (n - 1) * b[y];
    }
  }
}
