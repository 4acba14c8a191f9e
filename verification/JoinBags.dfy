/** What the join of two bags is: the pairs that satisfy the weak conjunctions, the rows of an outer
    side that are in no such pair extended with NULLs, and of all those what the strong conjunctions
    accept. */
module JoinBags {
  import opened Bags

  datatype Join<!R, !O> = Join(
    weak: (R, R) -> bool,
    strong: (R, R) -> bool,
    mk: (R, R) -> O,
    noFirst: R,
    noSecond: R,
    firstOuter: bool,
    secondOuter: bool)

  /** The output row of a pair, if the strong conjunctions accept it. */
  ghost function Out<R(!new), O(!new)>(j: Join<R, O>, f: R, s: R): multiset<O> {
    if j.strong(f, s) then multiset{j.mk(f, s)} else multiset{}
  }

  ghost function Pair<R(!new), O(!new)>(j: Join<R, O>, f: R, s: R): multiset<O> {
    if j.weak(f, s) then Out(j, f, s) else multiset{}
  }

  ghost predicate Unmatched<R(!new), O(!new)>(j: Join<R, O>, f: R, ss: multiset<R>) {
    forall s | s in ss :: !j.weak(f, s)
  }

  ghost predicate UnmatchedSecond<R(!new), O(!new)>(j: Join<R, O>, fs: multiset<R>, s: R) {
    forall f | f in fs :: !j.weak(f, s)
  }

  /** The accepted pairs of one row of the first side. */
  ghost function Pairs<R(!new), O(!new)>(j: Join<R, O>, f: R, ss: multiset<R>): multiset<O> {
    Sum(ss, s => Pair(j, f, s))
  }

  /** What one row of the first side contributes. */
  ghost function FromFirst<R(!new), O(!new)>(j: Join<R, O>, f: R, ss: multiset<R>): multiset<O> {
    Pairs(j, f, ss) + if j.firstOuter && Unmatched(j, f, ss) then Out(j, f, j.noSecond) else multiset{}
  }

  /** What a row of the second side contributes by itself. */
  ghost function FromSecond<R(!new), O(!new)>(j: Join<R, O>, fs: multiset<R>, s: R): multiset<O> {
    if j.secondOuter && UnmatchedSecond(j, fs, s) then Out(j, j.noFirst, s) else multiset{}
  }

  ghost function FirstSum<R(!new), O(!new)>(j: Join<R, O>, fs: multiset<R>, ss: multiset<R>): multiset<O> {
    Sum(fs, f => FromFirst(j, f, ss))
  }

  ghost function SecondSum<R(!new), O(!new)>(j: Join<R, O>, fs: multiset<R>, ss: multiset<R>): multiset<O> {
    Sum(ss, s => FromSecond(j, fs, s))
  }

  ghost function JoinBag<R(!new), O(!new)>(j: Join<R, O>, fs: multiset<R>, ss: multiset<R>): multiset<O> {
    FirstSum(j, fs, ss) + SecondSum(j, fs, ss)
  }

  /** The join in which the second side depends on the row of the first side. */
  ghost function DependentBag<R(!new), O(!new)>(j: Join<R, O>, fs: multiset<R>, second: R -> multiset<R>): multiset<O> {
    Sum(fs, f => FromFirst(j, f, second(f)))
  }

  // ---------------------------------------------------------------------------------------------
  //  Adding copies of a row to one side
  // ---------------------------------------------------------------------------------------------

  lemma {:induction false} CopiesAdd<A(!new), B(!new)>(m: multiset<A>, x: A, n: nat, g: A -> multiset<B>, y: B)
    ensures Sum(m + Copies(x, n), g)[y] == Sum(m, g)[y] + n * g(x)[y]
  {
    SumConcat(m, Copies(x, n), g);
    SumCopies(x, n, g);
    TimesCount(n, g(x), y);
  }

  lemma {:induction false} PairsAdd<R(!new), O(!new)>(j: Join<R, O>, f: R, ss: multiset<R>, s: R, n: nat, y: O)
    ensures Pairs(j, f, ss + Copies(s, n))[y] == Pairs(j, f, ss)[y] + n * Pair(j, f, s)[y]
  {
    CopiesAdd(ss, s, n, s => Pair(j, f, s), y);
  }

  lemma {:induction false} FirstAdd<R(!new), O(!new)>(j: Join<R, O>, fs: multiset<R>, f: R, n: nat, ss: multiset<R>, y: O)
    ensures FirstSum(j, fs + Copies(f, n), ss)[y] == FirstSum(j, fs, ss)[y] + n * FromFirst(j, f, ss)[y]
  {
    CopiesAdd(fs, f, n, f => FromFirst(j, f, ss), y);
  }

  lemma {:induction false} DependentAdd<R(!new), O(!new)>(j: Join<R, O>, fs: multiset<R>, f: R, n: nat, second: R -> multiset<R>, y: O)
    ensures DependentBag(j, fs + Copies(f, n), second)[y] == DependentBag(j, fs, second)[y] + n * FromFirst(j, f, second(f))[y]
  {
    CopiesAdd(fs, f, n, f => FromFirst(j, f, second(f)), y);
  }

  lemma {:induction false} SecondAdd<R(!new), O(!new)>(j: Join<R, O>, fs: multiset<R>, all: multiset<R>, s: R, n: nat, y: O)
    ensures SecondSum(j, fs, all + Copies(s, n))[y] == SecondSum(j, fs, all)[y] + n * FromSecond(j, fs, s)[y]
  {
    CopiesAdd(all, s, n, s => FromSecond(j, fs, s), y);
  }
}
