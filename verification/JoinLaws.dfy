/** When a condition on one side of a join can be applied to that side first. */
module JoinLaws {
  import opened Bags
  import opened JoinBags

  /** Two joins that differ in their conjunctions only. */
  ghost predicate SameShape<R(!new), O(!new)>(j: Join<R, O>, k: Join<R, O>) {
    && (forall f, s :: j.mk(f, s) == k.mk(f, s))
    && j.noFirst == k.noFirst && j.noSecond == k.noSecond
    && j.firstOuter == k.firstOuter && j.secondOuter == k.secondOuter
  }

  /** A condition on the row of the first side among the strong conjunctions. */
  lemma {:induction false} FirstStrongRow<R(!new), O(!new)>(j: Join<R, O>, k: Join<R, O>, f: R, ss: multiset<R>, b: bool)
    requires SameShape(j, k)
    requires forall s | s in ss :: j.weak(f, s) == k.weak(f, s)
    requires forall s | s in ss || s == k.noSecond :: j.strong(f, s) == (k.strong(f, s) && b)
    ensures FromFirst(j, f, ss) == if b then FromFirst(k, f, ss) else multiset{}
  {
    SumSame(ss, s => Pair(j, f, s), s => if b then Pair(k, f, s) else multiset{});
    assert Unmatched(j, f, ss) == Unmatched(k, f, ss);
    if b {
      SumSame(ss, s => if b then Pair(k, f, s) else multiset{}, s => Pair(k, f, s));
    } else {
      SumNothing(ss, s => if b then Pair(k, f, s) else multiset{});
    }
  }

  /** A condition on the row of the first side among the weak conjunctions. */
  lemma {:induction false} FirstWeakRow<R(!new), O(!new)>(j: Join<R, O>, k: Join<R, O>, f: R, ss: multiset<R>, b: bool)
    requires SameShape(j, k) && !j.firstOuter
    requires forall s | s in ss :: j.weak(f, s) == (k.weak(f, s) && b)
    requires forall s | s in ss :: j.strong(f, s) == k.strong(f, s)
    ensures FromFirst(j, f, ss) == if b then FromFirst(k, f, ss) else multiset{}
  {
    SumSame(ss, s => Pair(j, f, s), s => if b then Pair(k, f, s) else multiset{});
    if b {
      SumSame(ss, s => if b then Pair(k, f, s) else multiset{}, s => Pair(k, f, s));
    } else {
      SumNothing(ss, s => if b then Pair(k, f, s) else multiset{});
    }
  }

  lemma {:induction false} KeptPairs<R(!new), O(!new)>(j: Join<R, O>, k: Join<R, O>, f: R, ss: multiset<R>, p: R -> bool)
    requires forall s | s in ss :: Pair(j, f, s) == if p(s) then Pair(k, f, s) else multiset{}
    ensures Pairs(j, f, ss) == Pairs(k, f, Keep(ss, p))
  {
    SumKeep(ss, p, s => Pair(k, f, s));
    SumSame(ss, s => Pair(j, f, s), s => if p(s) then (s => Pair(k, f, s))(s) else multiset{});
  }

  /** A condition on the rows of the second side among the weak conjunctions. */
  lemma {:induction false} SecondWeakRow<R(!new), O(!new)>(j: Join<R, O>, k: Join<R, O>, f: R, ss: multiset<R>, p: R -> bool)
    requires SameShape(j, k)
    requires forall s | s in ss :: j.weak(f, s) == (k.weak(f, s) && p(s))
    requires forall s | s in ss || s == k.noSecond :: j.strong(f, s) == k.strong(f, s)
    ensures FromFirst(j, f, ss) == FromFirst(k, f, Keep(ss, p))
  {
    KeptPairs(j, k, f, ss, p);
    assert Unmatched(j, f, ss) <==> Unmatched(k, f, Keep(ss, p)) by {
      forall s ensures s in Keep(ss, p) <==> s in ss && p(s) { KeepIn(ss, p, s); }
    }
  }

  /** A condition on the rows of the second side among the strong conjunctions. */
  lemma {:induction false} SecondStrongRow<R(!new), O(!new)>(j: Join<R, O>, k: Join<R, O>, f: R, ss: multiset<R>, p: R -> bool)
    requires SameShape(j, k) && !j.firstOuter
    requires forall s | s in ss :: j.weak(f, s) == k.weak(f, s)
    requires forall s | s in ss :: j.strong(f, s) == (k.strong(f, s) && p(s))
    ensures FromFirst(j, f, ss) == FromFirst(k, f, Keep(ss, p))
  {
    KeptPairs(j, k, f, ss, p);
  }

  /** Applying a condition on the first side to that side first. */
  lemma {:induction false} FirstKept<R(!new), O(!new)>(j: Join<R, O>, k: Join<R, O>, fs: multiset<R>, p: R -> bool, second: R -> multiset<R>)
    requires forall f | f in fs :: FromFirst(j, f, second(f)) == if p(f) then FromFirst(k, f, second(f)) else multiset{}
    ensures DependentBag(j, fs, second) == DependentBag(k, Keep(fs, p), second)
  {
    SumKeep(fs, p, f => FromFirst(k, f, second(f)));
    SumSame(fs, f => FromFirst(j, f, second(f)), f => if p(f) then (f => FromFirst(k, f, second(f)))(f) else multiset{});
  }

  /** Applying a condition on the second side to that side first. */
  lemma {:induction false} SecondKept<R(!new), O(!new)>(j: Join<R, O>, k: Join<R, O>, fs: multiset<R>, second: R -> multiset<R>, second': R -> multiset<R>)
    requires forall f | f in fs :: FromFirst(j, f, second(f)) == FromFirst(k, f, second'(f))
    ensures DependentBag(j, fs, second) == DependentBag(k, fs, second')
  {
    SumSame(fs, f => FromFirst(j, f, second(f)), f => FromFirst(k, f, second'(f)));
  }

  /** Without row re-addition on the second side a join is made up of what the first rows give. */
  lemma {:induction false} NoSecondOuter<R(!new), O(!new)>(j: Join<R, O>, fs: multiset<R>, ss: multiset<R>, second: R -> multiset<R>)
    requires !j.secondOuter && forall f :: second(f) == ss
    ensures JoinBag(j, fs, ss) == DependentBag(j, fs, second)
  {
    SumNothing(ss, s => FromSecond(j, fs, s));
    SumSame(fs, f => FromFirst(j, f, ss), f => FromFirst(j, f, second(f)));
  }

  // ---------------------------------------------------------------------------------------------
  //  A condition on the output
  // ---------------------------------------------------------------------------------------------

  lemma {:induction false} OutKept<R(!new), O(!new)>(j: Join<R, O>, k: Join<R, O>, f: R, s: R, p: O -> bool)
    requires SameShape(j, k) && j.strong(f, s) == (k.strong(f, s) && p(k.mk(f, s)))
    ensures Out(j, f, s) == Keep(Out(k, f, s), p)
  {
    KeepOne(k.mk(f, s), p);
  }

  /** One more strong conjunction keeps the output rows that satisfy it. */
  lemma {:induction false} StrongIsKeepRow<R(!new), O(!new)>(j: Join<R, O>, k: Join<R, O>, f: R, ss: multiset<R>, p: O -> bool)
    requires SameShape(j, k)
    requires forall s | s in ss :: j.weak(f, s) == k.weak(f, s)
    requires forall s | s in ss || s == k.noSecond :: j.strong(f, s) == (k.strong(f, s) && p(k.mk(f, s)))
    ensures FromFirst(j, f, ss) == Keep(FromFirst(k, f, ss), p)
  {
    var g := (s: R) => Pair(k, f, s);
    KeepSum(ss, g, p);
    forall s | s in ss ensures Pair(j, f, s) == Keep(g(s), p) { OutKept(j, k, f, s, p); }
    SumSame(ss, s => Pair(j, f, s), s => Keep(g(s), p));
    SumSame(ss, g, s => Pair(k, f, s));
    assert Unmatched(j, f, ss) == Unmatched(k, f, ss);
    OutKept(j, k, f, k.noSecond, p);
    var ext := if k.firstOuter && Unmatched(k, f, ss) then Out(k, f, k.noSecond) else multiset{};
    KeepConcat(Pairs(k, f, ss), ext, p);
  }

  lemma {:induction false} StrongIsKeepDependent<R(!new), O(!new)>(j: Join<R, O>, k: Join<R, O>, fs: multiset<R>, second: R -> multiset<R>, p: O -> bool)
    requires forall f | f in fs :: FromFirst(j, f, second(f)) == Keep(FromFirst(k, f, second(f)), p)
    ensures DependentBag(j, fs, second) == Keep(DependentBag(k, fs, second), p)
  {
    var g := (f: R) => FromFirst(k, f, second(f));
    KeepSum(fs, g, p);
    SumSame(fs, f => FromFirst(j, f, second(f)), f => Keep(g(f), p));
    SumSame(fs, g, f => FromFirst(k, f, second(f)));
  }

  lemma {:induction false} StrongIsKeep<R(!new), O(!new)>(j: Join<R, O>, k: Join<R, O>, fs: multiset<R>, ss: multiset<R>, p: O -> bool)
    requires SameShape(j, k)
    requires forall f, s | (f in fs || f == k.noFirst) && (s in ss || s == k.noSecond) ::
               j.weak(f, s) == k.weak(f, s) && j.strong(f, s) == (k.strong(f, s) && p(k.mk(f, s)))
    ensures JoinBag(j, fs, ss) == Keep(JoinBag(k, fs, ss), p)
  {
    var second := (f: R) => ss;
    forall f | f in fs ensures FromFirst(j, f, second(f)) == Keep(FromFirst(k, f, second(f)), p) {
      StrongIsKeepRow(j, k, f, ss, p);
    }
    StrongIsKeepDependent(j, k, fs, second, p);
    FirstIsDependent(j, fs, ss, second);
    FirstIsDependent(k, fs, ss, second);
    SecondIsKeep(j, k, fs, ss, p);
    KeepConcat(FirstSum(k, fs, ss), SecondSum(k, fs, ss), p);
  }

  lemma {:induction false} FirstIsDependent<R(!new), O(!new)>(j: Join<R, O>, fs: multiset<R>, ss: multiset<R>, second: R -> multiset<R>)
    requires forall f :: second(f) == ss
    ensures FirstSum(j, fs, ss) == DependentBag(j, fs, second)
  {
    SumSame(fs, f => FromFirst(j, f, ss), f => FromFirst(j, f, second(f)));
  }

  lemma {:induction false} SecondIsKeep<R(!new), O(!new)>(j: Join<R, O>, k: Join<R, O>, fs: multiset<R>, ss: multiset<R>, p: O -> bool)
    requires SameShape(j, k)
    requires forall f, s | (f in fs || f == k.noFirst) && (s in ss || s == k.noSecond) ::
               j.weak(f, s) == k.weak(f, s) && j.strong(f, s) == (k.strong(f, s) && p(k.mk(f, s)))
    ensures SecondSum(j, fs, ss) == Keep(SecondSum(k, fs, ss), p)
  {
    var g := (s: R) => FromSecond(k, fs, s);
    KeepSum(ss, g, p);
    forall s | s in ss ensures FromSecond(j, fs, s) == Keep(g(s), p) {
      OutKept(j, k, k.noFirst, s, p);
      assert UnmatchedSecond(j, fs, s) == UnmatchedSecond(k, fs, s);
    }
    SumSame(ss, s => FromSecond(j, fs, s), s => Keep(g(s), p));
    SumSame(ss, g, s => FromSecond(k, fs, s));
  }

  // ---------------------------------------------------------------------------------------------
  //  Equal joins, and inner joins the other way round
  // ---------------------------------------------------------------------------------------------

  ghost predicate SameJoin<R(!new), O(!new)>(j: Join<R, O>, k: Join<R, O>) {
    SameShape(j, k) && forall f, s :: j.weak(f, s) == k.weak(f, s) && j.strong(f, s) == k.strong(f, s)
  }

  lemma {:induction false} SameFirst<R(!new), O(!new)>(j: Join<R, O>, k: Join<R, O>, f: R, ss: multiset<R>)
    requires SameJoin(j, k)
    ensures FromFirst(j, f, ss) == FromFirst(k, f, ss)
  {
    SumSame(ss, s => Pair(j, f, s), s => Pair(k, f, s));
    assert Unmatched(j, f, ss) == Unmatched(k, f, ss);
  }

  lemma {:induction false} SameDependent<R(!new), O(!new)>(j: Join<R, O>, k: Join<R, O>, fs: multiset<R>, a: R -> multiset<R>, b: R -> multiset<R>)
    requires SameJoin(j, k) && forall f | f in fs :: a(f) == b(f)
    ensures DependentBag(j, fs, a) == DependentBag(k, fs, b)
  {
    forall f | f in fs ensures FromFirst(j, f, a(f)) == FromFirst(k, f, b(f)) { SameFirst(j, k, f, a(f)); }
    SecondKept(j, k, fs, a, b);
  }

  lemma {:induction false} SameJoinBag<R(!new), O(!new)>(j: Join<R, O>, k: Join<R, O>, fs: multiset<R>, ss: multiset<R>)
    requires SameJoin(j, k)
    ensures JoinBag(j, fs, ss) == JoinBag(k, fs, ss)
  {
    forall f | f in fs ensures FromFirst(j, f, ss) == FromFirst(k, f, ss) { SameFirst(j, k, f, ss); }
    SumSame(fs, f => FromFirst(j, f, ss), f => FromFirst(k, f, ss));
    forall s | s in ss ensures FromSecond(j, fs, s) == FromSecond(k, fs, s) {
      assert UnmatchedSecond(j, fs, s) == UnmatchedSecond(k, fs, s);
    }
    SumSame(ss, s => FromSecond(j, fs, s), s => FromSecond(k, fs, s));
  }

  ghost predicate IsInner<R(!new), O(!new)>(j: Join<R, O>) { !j.firstOuter && !j.secondOuter }

  lemma {:induction false} InnerPairs<R(!new), O(!new)>(j: Join<R, O>, fs: multiset<R>, ss: multiset<R>)
    requires IsInner(j)
    ensures JoinBag(j, fs, ss) == Sum(fs, f => Sum(ss, s => Pair(j, f, s)))
  {
    SumNothing(ss, s => FromSecond(j, fs, s));
    SumSame(fs, f => FromFirst(j, f, ss), f => Sum(ss, s => Pair(j, f, s)));
  }

  /** An inner join can be evaluated with either side first. */
  lemma {:induction false} InnerSwap<R(!new), O(!new)>(j: Join<R, O>, k: Join<R, O>, fs: multiset<R>, ss: multiset<R>)
    requires IsInner(j) && IsInner(k) && forall f, s | f in fs && s in ss :: Pair(j, f, s) == Pair(k, s, f)
    ensures JoinBag(j, fs, ss) == JoinBag(k, ss, fs)
  {
    InnerPairs(j, fs, ss);
    InnerPairs(k, ss, fs);
    var g := (f: R, s: R) => Pair(j, f, s);
    SumSwap(fs, ss, g);
    forall f | f in fs ensures Sum(ss, s => Pair(j, f, s)) == Sum(ss, s => g(f, s)) { SumSame(ss, s => Pair(j, f, s), s => g(f, s)); }
    SumSame(fs, f => Sum(ss, s => Pair(j, f, s)), f => Sum(ss, s => g(f, s)));
    forall s | s in ss ensures Sum(fs, f => g(f, s)) == Sum(fs, f => Pair(k, s, f)) { SumSame(fs, f => g(f, s), f => Pair(k, s, f)); }
    SumSame(ss, s => Sum(fs, f => g(f, s)), s => Sum(fs, f => Pair(k, s, f)));
  }
}
