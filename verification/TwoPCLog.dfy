/** The log of a Paxos group as Paxos2PC sees it, cut into the stretches inserted under successive
    leaderships: segment `k` holds what leadership `k` inserted, for the Paxos layer lets only the
    leader of a prefix extend it. */
module TwoPCLog {
  import opened TwoPCTypes

  datatype Entry = RemoteLeader(group: GroupId, gen: Gen) | Insertion(plm: RMPlm)

  type Log = seq<seq<Entry>>

  function Flat(log: Log): seq<Entry> {
    if log == [] then [] else Flat(log[..|log| - 1]) + log[|log| - 1]
  }

  /** What leadership `k` has seen after it inserted `applied` entries of its own stretch. */
  function View(log: Log, k: nat, applied: nat): seq<Entry> {
    if k < |log| then
      Flat(log[..k]) + (if applied <= |log[k]| then log[k][..applied] else log[k])
    else Flat(log)
  }

  /** The leader map after a stretch of log: a change takes effect only if it is newer. */
  function Leader(es: seq<Entry>, g: GroupId): Gen {
    if es == [] then 0
    else
      var gen := Leader(es[..|es| - 1], g);
      var e := es[|es| - 1];
      if e.RemoteLeader? && e.group == g && e.gen > gen then e.gen else gen
  }

  function Plms(es: seq<Entry>): seq<RMPlm> {
    if es == [] then []
    else
      var e := es[|es| - 1];
      Plms(es[..|es| - 1]) + if e.Insertion? then [e.plm] else []
  }

  /** Appends to the stretch of the current leadership. */
  function Append(log: Log, e: Entry): Log
    requires log != []
  {
    log[|log| - 1 := log[|log| - 1] + [e]]
  }

  predicate IsPrefix<T(==)>(a: seq<T>, b: seq<T>) {
    |a| <= |b| && a == b[..|a|]
  }

  lemma {:induction false} LeaderGrows(a: seq<Entry>, b: seq<Entry>, g: GroupId)
    requires IsPrefix(a, b)
    ensures Leader(a, g) <= Leader(b, g)
    decreases |b|
  {
    if |a| < |b| {
      assert IsPrefix(a, b[..|b| - 1]);
      LeaderGrows(a, b[..|b| - 1], g);
    } else {
      assert a == b;
    }
  }

  lemma {:induction false} PlmsConcat(a: seq<Entry>, b: seq<Entry>)
    ensures Plms(a + b) == Plms(a) + Plms(b)
  {
    if b == [] {
      assert a + b == a;
    } else {
      var init := b[..|b| - 1];
      PlmsConcat(a, init);
      assert (a + b)[..|a + b| - 1] == a + init;
    }
  }

  lemma {:induction false} FlatPrefix(log: Log, k: nat)
    requires k <= |log|
    ensures IsPrefix(Flat(log[..k]), Flat(log))
    decreases |log|
  {
    if k < |log| {
      FlatPrefix(log[..|log| - 1], k);
      assert log[..|log| - 1][..k] == log[..k];
    } else {
      assert log[..k] == log;
    }
  }

  lemma {:induction false} FlatNext(log: Log, k: nat)
    requires k < |log|
    ensures Flat(log[..k + 1]) == Flat(log[..k]) + log[k]
  {
    assert log[..k + 1][..k] == log[..k];
  }

  /** A leadership has seen a part of the log, and the next ones all of that. */
  lemma {:induction false} ViewPrefix(log: Log, k: nat, a: nat)
    ensures IsPrefix(View(log, k, a), Flat(log))
    ensures k < |log| ==> IsPrefix(View(log, k, a), Flat(log[..k + 1]))
  {
    if k < |log| {
      FlatNext(log, k);
      FlatPrefix(log, k + 1);
      assert IsPrefix(View(log, k, a), Flat(log[..k + 1]));
    }
  }

  /** A later leadership starts from everything an earlier one has seen. */
  lemma {:induction false} LaterSeesMore(log: Log, k: nat, a: nat, k': nat, a': nat)
    requires k < k' < |log|
    ensures IsPrefix(View(log, k, a), View(log, k', a'))
  {
    ViewPrefix(log, k, a);
    FlatPrefix(log[..k'], k + 1);
    assert log[..k'][..k + 1] == log[..k + 1];
  }

  lemma {:induction false} ViewStep(log: Log, k: nat, a: nat)
    requires k < |log| && a < |log[k]|
    ensures View(log, k, a + 1) == View(log, k, a) + [log[k][a]]
  {
    assert log[k][..a + 1] == log[k][..a] + [log[k][a]];
  }

  lemma {:induction false} FlatAppend(log: Log, e: Entry)
    requires log != []
    ensures Flat(Append(log, e)) == Flat(log) + [e]
  {
    assert Append(log, e)[..|log| - 1] == log[..|log| - 1];
  }

  lemma {:induction false} ViewAppend(log: Log, e: Entry, k: nat, a: nat)
    requires log != []
    ensures k < |log| && a <= |log[k]| ==> View(Append(log, e), k, a) == View(log, k, a)
    ensures IsPrefix(View(log, k, a), View(Append(log, e), k, a))
  {
    FlatAppend(log, e);
    if k < |log| {
      assert Append(log, e)[..k] == log[..k];
    }
  }

  /** Everything in the log: what leadership `k`, the current one, has seen and has still to see. */
  lemma {:induction false} FlatSplit(log: Log, a: nat)
    requires log != [] && a <= |log[|log| - 1]|
    ensures Flat(log) == View(log, |log| - 1, a) + log[|log| - 1][a..]
  {
    var k := |log| - 1;
    var rest := Flat(log[..k]);
    assert log[k] == log[k][..a] + log[k][a..];
    assert Flat(log) == rest + log[k];
    hide Flat;
    assert View(log, k, a) == rest + log[k][..a];
  }
}
