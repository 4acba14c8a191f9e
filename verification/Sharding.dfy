/** The ranges of the shards of a table: their creation (src/master.rs:1164-1266) and the check made
    before one of them is split (src/master.rs:1464-1478). */
module Sharding {
  import opened Wrappers
  import opened Values
  import opened Bounds
  import opened KeyRegions
  import opened Regions

  const ALPHABET := "abcdefghijklmnopqrstuvwxyz"

  /** Every key value of type `t` is in exactly one range. */
  ghost predicate Partitions(rs: seq<TabletKeyRange>, t: ColType) {
    forall x | TypeOf(x) == t :: exists k :: OnlyIn(rs, k, x)
  }

  ghost predicate OnlyIn(rs: seq<TabletKeyRange>, k: int, x: ColVal) {
    0 <= k < |rs| && Contains(rs[k], x) && forall j | 0 <= j < |rs| && j != k :: !Contains(rs[j], x)
  }

  predicate Increasing(ks: seq<ColVal>) {
    forall j, k | 0 <= j < k < |ks| :: Less(ks[j], ks[k])
  }

  /** The ranges between successive split keys, unbounded at both ends. */
  function RangesBetween(ks: seq<ColVal>): (rs: seq<TabletKeyRange>)
    ensures |rs| == |ks| + 1
  {
    seq(|ks| + 1, k requires 0 <= k <= |ks| =>
      TabletKeyRange(if k == 0 then None else Some(ks[k - 1]), if k == |ks| then None else Some(ks[k])))
  }

  /** The number of split keys not above `x`. */
  function Slot(ks: seq<ColVal>, x: ColVal): (n: nat)
    ensures n <= |ks|
  {
    if ks == [] || Less(x, ks[0]) then 0 else 1 + Slot(ks[1..], x)
  }

  lemma {:induction false} SlotSeparates(ks: seq<ColVal>, x: ColVal)
    requires Increasing(ks)
    ensures forall j | 0 <= j < |ks| :: !Less(x, ks[j]) <==> j < Slot(ks, x)
  {
    if ks != [] {
      if Less(x, ks[0]) {
        forall j | 0 <= j < |ks| ensures Less(x, ks[j]) {
          if j > 0 { LessTransitive(x, ks[0], ks[j]); }
        }
      } else {
        SlotSeparates(ks[1..], x);
        forall j | 0 <= j < |ks| ensures !Less(x, ks[j]) <==> j < Slot(ks, x) {
          if j > 0 { assert ks[1..][j - 1] == ks[j]; }
        }
      }
    }
  }

  /** Increasing split keys cut the key space into ranges that overlap nowhere and miss nothing. */
  lemma {:induction false} RangesPartition(ks: seq<ColVal>, t: ColType)
    requires Increasing(ks)
    ensures Partitions(RangesBetween(ks), t)
  {
    var rs := RangesBetween(ks);
    forall x | TypeOf(x) == t ensures exists k :: OnlyIn(rs, k, x) {
      SlotSeparates(ks, x);
      var k := Slot(ks, x);
      forall j | 0 <= j < |rs| ensures Contains(rs[j], x) <==> j == k {
      }
      assert OnlyIn(rs, k, x);
    }
  }

  datatype Shard = Shard(range: TabletKeyRange, sid: nat)

  /** `mk_shard` takes one of the remaining groups at random. */
  method MkShard(sids: seq<nat>, rand: nat, start: ColValN, end: ColValN) returns (shard: Shard, rest: seq<nat>)
    requires sids != []
    ensures shard.range == TabletKeyRange(start, end) && shard.sid in sids
    ensures multiset(rest) == multiset(sids) - multiset{shard.sid} && |rest| == |sids| - 1
  {
    var i := rand % |sids|;
    shard := Shard(TabletKeyRange(start, end), sids[i]);
    rest := sids[..i] + sids[i + 1..];
    assert sids == sids[..i] + [sids[i]] + sids[i + 1..];
  }

  function KeysOf(cs: seq<char>): (ks: seq<ColVal>)
    ensures |ks| == |cs| && forall k | 0 <= k < |cs| :: ks[k] == StringVal([cs[k]])
  {
    seq(|cs|, k requires 0 <= k < |cs| => StringVal([cs[k]]))
  }

  predicate Sorted(cs: seq<char>) {
    forall j, k | 0 <= j < k < |cs| :: cs[j] < cs[k]
  }

  lemma {:induction false} KeysIncrease(cs: seq<char>)
    requires Sorted(cs)
    ensures Increasing(KeysOf(cs))
  {
    forall j, k | 0 <= j < k < |cs| ensures Less(KeysOf(cs)[j], KeysOf(cs)[k]) {
      assert StringLess([cs[j]], [cs[k]]);
    }
  }

  /** Puts a character that does not occur yet in its place. */
  method InsertSorted(cs: seq<char>, c: char) returns (res: seq<char>)
    requires Sorted(cs) && c !in cs
    ensures Sorted(res) && |res| == |cs| + 1 && forall d :: d in res <==> d in cs || d == c
  {
    var i := 0;
    while i < |cs| && cs[i] < c
      invariant 0 <= i <= |cs| && forall k | 0 <= k < i :: cs[k] < c
    {
      i := i + 1;
    }
    res := cs[..i] + [c] + cs[i..];
    InsertedAt(cs, c, i, res);
  }

  lemma {:induction false} InsertedAt(cs: seq<char>, c: char, i: nat, res: seq<char>)
    requires Sorted(cs) && c !in cs && i <= |cs| && res == cs[..i] + [c] + cs[i..]
    requires (forall k | 0 <= k < i :: cs[k] < c) && (i < |cs| ==> cs[i] >= c)
    ensures Sorted(res) && forall d :: d in res <==> d in cs || d == c
  {
    InsertedHas(cs, c, i, res);
    forall j | 0 <= j < |res| ensures res[j] == if j < i then cs[j] else if j == i then c else cs[j - 1] { }
    forall k | i <= k < |cs| ensures c < cs[k] { assert cs[k] in cs; }
  }

  lemma {:induction false} InsertedHas(cs: seq<char>, c: char, i: nat, res: seq<char>)
    requires i <= |cs| && res == cs[..i] + [c] + cs[i..]
    ensures forall d :: d in res <==> d in cs || d == c
  {
    assert cs == cs[..i] + cs[i..];
  }

  /** Draws `n` different letters, in order. */
  method SplitChars(n: nat, rands: seq<nat>) returns (cs: seq<char>)
    requires n < |ALPHABET| && |rands| >= n
    ensures Sorted(cs) && |cs| == n
  {
    var left := ALPHABET;
    cs := [];
    var i := 0;
    while i < n
      invariant 0 <= i <= n && |cs| == i && |left| == |ALPHABET| - i && Sorted(cs)
      invariant Sorted(left) && forall c | c in left :: c !in cs
    {
      var k := rands[i] % |left|;
      var c := left[k];
      var rest := left[..k] + left[k + 1..];
      assert c !in rest;
      cs := InsertSorted(cs, c);
      left := rest;
      i := i + 1;
    }
  }

  function Ranges(shards: seq<Shard>): (rs: seq<TabletKeyRange>)
    ensures |rs| == |shards| && forall k | 0 <= k < |shards| :: rs[k] == shards[k].range
  {
    seq(|shards|, k requires 0 <= k < |shards| => shards[k].range)
  }

  /** One shard for each range between the keys. */
  method ShardsBetween(ks: seq<ColVal>, sids: seq<nat>, rands: seq<nat>) returns (shards: seq<Shard>)
    requires |sids| > |ks| && |rands| > |ks|
    ensures Ranges(shards) == RangesBetween(ks)
    ensures multiset(Sids(shards)) <= multiset(sids)
  {
    var rest := sids;
    shards := [];
    var prev: ColValN := None;
    var i := 0;
    while i <= |ks|
      invariant 0 <= i <= |ks| + 1 && |shards| == i && |rest| == |sids| - i
      invariant prev == if i == 0 then None else if i <= |ks| then Some(ks[i - 1]) else prev
      invariant forall k | 0 <= k < i :: shards[k].range == RangesBetween(ks)[k]
      invariant multiset(Sids(shards)) + multiset(rest) == multiset(sids)
    {
      var end: ColValN := if i < |ks| then Some(ks[i]) else None;
      var shard: Shard;
      ghost var before := shards;
      shard, rest := MkShard(rest, rands[i], prev, end);
      shards := shards + [shard];
      assert Sids(shards) == Sids(before) + [shard.sid];
      if i < |ks| { prev := end; }
      i := i + 1;
    }
  }

  function Sids(shards: seq<Shard>): (s: seq<nat>)
    ensures |s| == |shards| && forall k | 0 <= k < |shards| :: s[k] == shards[k].sid
  {
    seq(|shards|, k requires 0 <= k < |shards| => shards[k].sid)
  }

  function Min(a: nat, b: nat): nat { if a < b then a else b }

  /** `simple_partition`: the shards cover the key space without overlap, each on a group of its own.
      `choice` and `rands` are the random numbers drawn. */
  method SimplePartition(keys: KeyCols, sids: seq<nat>, choice: nat, rands: seq<nat>) returns (shards: seq<Shard>)
    requires sids != [] && |rands| >= 8
    ensures |shards| == if keys == [] then 1 else if keys[0].1 == StringType then Min(choice % 4 + 1, |sids|) else Min(choice % 2 + 1, |sids|)
    ensures shards != [] && forall t | keys == [] || t == keys[0].1 :: Partitions(Ranges(shards), t)
    ensures keys == [] ==> Ranges(shards) == [TabletKeyRange(None, None)]
    ensures forall k | 0 <= k < |shards| :: keys != [] ==> RangeOk(keys, shards[k].range)
    ensures multiset(Sids(shards)) <= multiset(sids)
  {
    var ks: seq<ColVal> := [];
    if keys != [] {
      match keys[0].1 {
        case IntType => if Min(choice % 2 + 1, |sids|) != 1 { ks := [IntVal(0)]; }
        case BoolType => if Min(choice % 2 + 1, |sids|) != 1 { ks := [BoolVal(true)]; }
        case StringType =>
          var n := Min(choice % 4 + 1, |sids|);
          var cs := SplitChars(n - 1, rands[4..]);
          KeysIncrease(cs);
          ks := KeysOf(cs);
      }
    }
    shards := ShardsBetween(ks, sids, rands);
    forall t ensures Partitions(Ranges(shards), t) { RangesPartition(ks, t); }
  }

  // ---------------------------------------------------------------------------------------------
  //  Splitting a shard
  // ---------------------------------------------------------------------------------------------

  /** The check made before a shard is split: the new ranges meet at a key inside the old one. */
  predicate SplitsPerfectly(orig: TabletKeyRange, old': TabletKeyRange, new': TabletKeyRange) {
    && orig.start == old'.start && old'.end == new'.start && new'.end == orig.end
    && old'.end.Some? && Contains(orig, old'.end.value)
  }

  lemma {:induction false} SplitHalves(orig: TabletKeyRange, a: TabletKeyRange, b: TabletKeyRange, x: ColVal)
    requires SplitsPerfectly(orig, a, b)
    ensures Contains(orig, x) <==> Contains(a, x) || Contains(b, x)
    ensures !(Contains(a, x) && Contains(b, x))
  {
    hide Less;
    var m := a.end.value;
    LessTotal(m, x);
    if orig.start.Some? { Compare(orig.start.value, m, x); Compare(m, orig.start.value, x); }
    if orig.end.Some? { Compare(orig.end.value, m, x); Compare(m, orig.end.value, x); }
  }

  /** The ranges with the one at `i` replaced by two. */
  function Cut(rs: seq<TabletKeyRange>, i: nat, a: TabletKeyRange, b: TabletKeyRange): seq<TabletKeyRange>
    requires i < |rs|
  {
    rs[..i] + [a, b] + rs[i + 1..]
  }

  lemma {:induction false} SplitOnlyIn(rs: seq<TabletKeyRange>, i: nat, a: TabletKeyRange, b: TabletKeyRange, k: nat, x: ColVal)
    requires i < |rs| && OnlyIn(rs, k, x) && SplitsPerfectly(rs[i], a, b)
    ensures OnlyIn(Cut(rs, i, a, b), if k > i || (k == i && Contains(b, x)) then k + 1 else k, x)
  {
    SplitHalves(rs[i], a, b, x);
    hide Contains, SplitsPerfectly;
    var rs' := Cut(rs, i, a, b);
    assert rs'[i] == a && rs'[i + 1] == b;
    forall j | 0 <= j < |rs'| ensures rs'[j] == if j < i then rs[j] else if j == i then a else if j == i + 1 then b else rs[j - 1] { }
  }

  /** A split keeps every key in exactly one range. */
  lemma {:induction false} SplitPartitions(rs: seq<TabletKeyRange>, i: nat, a: TabletKeyRange, b: TabletKeyRange, t: ColType)
    requires i < |rs| && Partitions(rs, t) && SplitsPerfectly(rs[i], a, b)
    ensures Partitions(Cut(rs, i, a, b), t)
  {
    hide OnlyIn, SplitsPerfectly;
    var rs' := Cut(rs, i, a, b);
    forall x | TypeOf(x) == t ensures exists k :: OnlyIn(rs', k, x) {
      var k :| OnlyIn(rs, k, x);
      assert k >= 0 by { OnlyInRange(rs, k, x); }
      SplitOnlyIn(rs, i, a, b, k, x);
    }
  }

  lemma {:induction false} OnlyInRange(rs: seq<TabletKeyRange>, k: int, x: ColVal)
    requires OnlyIn(rs, k, x)
    ensures 0 <= k < |rs|
  {
  }

  /** Pruning by range misses no row: the range of a shard that could hold a row of the region is
      never ruled out. */
  lemma {:induction false} NoRowMissed(rs: seq<TabletKeyRange>, keys: KeyCols, rows: RowRegion, pk: PrimaryKey)
    requires keys != [] && Partitions(rs, keys[0].1) && Typed(rows, Types(keys)) && Conforms(keys, pk) && InRegion(rows, pk)
    ensures exists k, j :: 0 <= k < |rs| && 0 <= j < |rows| && ContainsKey(rs[k], pk)
                           && rows[j] != [] && MightColIntersect(AsBound(rs[k]), rows[j][0].bound)
  {
    var k :| OnlyIn(rs, k, pk[0]);
    var j :| 0 <= j < |rows| && InKeyBound(rows[j], pk);
    if !MightColIntersect(AsBound(rs[k]), rows[j][0].bound) {
      ApartCols(AsBound(rs[k]), rows[j][0].bound, pk[0]);
    }
    assert ContainsKey(rs[k], pk);
    assert rows[j] != [] && MightColIntersect(AsBound(rs[k]), rows[j][0].bound);
  }
}
