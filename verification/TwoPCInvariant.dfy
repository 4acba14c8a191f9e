/** What every reachable state of Paxos2PC satisfies. */
module TwoPCInvariant {
  import opened Wrappers
  import opened TwoPCTypes
  import opened TwoPCResource
  import opened TwoPCLog
  import opened TwoPCSystem

  /** The entries of the query in the log of `r`. */
  function Entries(s: Sys, r: RMPath): seq<RMPlm> {
    Plms(Flat(s.rlog(r)))
  }

  ghost predicate Decided(s: Sys, d: Decision) {
    exists k :: 0 <= k < |s.decisions| && s.decisions[k].1 == d
  }

  predicate Legal(q: Query, ps: seq<RMPlm>) {
    |ps| <= 2 && (|ps| >= 1 ==> ps[0] == PreparedPlm(q.id, q.tm, q.rms))
    && (|ps| == 2 ==> ps[1] == CommittedPlm(q.id) || ps[1] == AbortedPlm(q.id))
  }

  /** The entries a leadership in a given state has pushed and not yet seen inserted. */
  function Expected(q: Query, es: Option<RMOuter>): seq<RMPlm> {
    if es.None? || !es.value.Exec? then []
    else match es.value.state
      case InsertingPrepared(_) => [PreparedPlm(q.id, q.tm, q.rms)]
      case InsertingPreparedAborted => [PreparedPlm(q.id, q.tm, q.rms)]
      case InsertingCommitted => [CommittedPlm(q.id)]
      case InsertingAborted => [AbortedPlm(q.id)]
      case _ => []
  }

  predicate TowardsCommit(es: Option<RMOuter>) {
    es == Some(HasCommitted) || InState(es, InsertingCommitted)
  }

  predicate TowardsAbort(es: Option<RMOuter>) {
    es == Some(HasAborted) || InState(es, InsertingAborted) || InState(es, InsertingPreparedAborted)
  }

  predicate EsOk(q: Query, es: Option<RMOuter>) {
    es.Some? && es.value.Exec? ==>
      es.value.query == q.id && es.value.tm == q.tm && es.value.rms == q.rms && !es.value.state.Follower?
  }

  function Unseen(s: Sys, r: RMPath, h: Gen): seq<RMPlm>
    requires h < |s.rlog(r)| && s.rm(r, h).applied <= |s.rlog(r)[h]|
  {
    Plms(s.rlog(r)[h][s.rm(r, h).applied..])
  }

  /** How the state of a leadership relates to the log. */
  ghost predicate RMTracks(q: Query, s: Sys, r: RMPath, h: Gen)
    requires h < |s.rlog(r)|
  {
    var a := s.rm(r, h);
    && a.applied <= |s.rlog(r)[h]|
    && EsOk(q, a.es)
    && Snapshot(a.es) == Replay(Plms(RMView(s, r, h)))
    && IsPrefix(Unseen(s, r, h), Expected(q, a.es))
    && (h == |s.rlog(r)| - 1 ==> Unseen(s, r, h) + a.pending == Expected(q, a.es))
  }

  /** What the state of a leadership says about the rest of the system. */
  ghost predicate RMCauses(q: Query, s: Sys, r: RMPath, h: Gen) {
    var es := s.rm(r, h).es;
    && (es.Some? ==> s.orig.Some? && RMLeader(s, r, h, q.tm.group) >= s.orig.value)
    && (PrePrepared(es) ==> h <= TMLeader(s, s.orig.value, r.group))
    && (TowardsCommit(es) ==> Decided(s, DecideCommit))
    && (TowardsAbort(es) ==> Decided(s, DecideAbort))
  }

  ghost predicate RMOk(q: Query, s: Sys, r: RMPath, h: Gen) {
    h < |s.rlog(r)| ==> RMTracks(q, s, r, h) && RMCauses(q, s, r, h)
  }

  ghost predicate LogOk(q: Query, s: Sys, r: RMPath) {
    && s.rlog(r) != []
    && Legal(q, Entries(s, r))
    && (Entries(s, r) != [] ==> s.orig.Some? && Leader(Flat(s.rlog(r)), q.tm.group) >= s.orig.value)
    && (CommittedPlm(q.id) in Entries(s, r) ==> Decided(s, DecideCommit))
    && (AbortedPlm(q.id) in Entries(s, r) ==> Decided(s, DecideAbort))
    && (forall h: Gen | h >= |s.rlog(r)| :: s.rm(r, h) == RMActor(0, None, []))
  }

  /** Only a leadership that the original transaction manager asked can insert Prepared. */
  ghost predicate AskedOk(q: Query, s: Sys, r: RMPath, h: Gen) {
    h < |s.rlog(r)| && PreparedPlm(q.id, q.tm, q.rms) in Plms(s.rlog(r)[h]) ==>
      s.orig.Some? && h <= TMLeader(s, s.orig.value, r.group)
  }

  ghost predicate DownMsgOk(q: Query, s: Sys, l: Link, k: nat, m: RMMessage) {
    && m.query == q.id && m.tm == q.tm && s.orig.Some? && l.tm >= s.orig.value
    && l.gen <= TMLeader(s, l.tm, l.rm.group)
    && (m.Prepare? ==> k == 0 && l.tm == s.orig.value && m.rms == q.rms)
    && (m.Abort? ==> Decided(s, DecideAbort))
    && (m.Commit? ==> Decided(s, DecideCommit))
  }

  ghost predicate DownOk(q: Query, s: Sys, l: Link) {
    && s.down(l).recv <= |s.down(l).sent|
    && forall k: nat | k < |s.down(l).sent| :: DownMsgOk(q, s, l, k, s.down(l).sent[k])
  }

  /** Leadership `h` of `r` answered before it had any state and can no longer be asked. */
  ghost predicate Refused(q: Query, s: Sys, r: RMPath, h: Gen) {
    && s.orig.Some? && h < |s.rlog(r)| && s.rm(r, h).es == None
    && (RMLeader(s, r, h, q.tm.group) > s.orig.value || s.down(Link(s.orig.value, r, h)).recv >= 1)
  }

  ghost predicate UpMsgOk(q: Query, s: Sys, l: Link, m: TMMessage) {
    && m.query == q.id && s.orig.Some? && l.tm >= s.orig.value && l.gen < |s.rlog(l.rm)|
    && (m.Prepared? ==> m.rm == l.rm && Entries(s, l.rm) != [])
    && (m.InformPrepared? ==> m.tm == q.tm && m.rms == q.rms)
    && (m.Aborted? ==>
          (Decided(s, DecideAbort) && Entries(s, l.rm) != []) || (Refused(q, s, l.rm, l.gen) && RMLeader(s, l.rm, l.gen, q.tm.group) >= l.tm))
  }

  ghost predicate UpOk(q: Query, s: Sys, l: Link) {
    && s.up(l).recv <= |s.up(l).sent|
    && forall k: nat | k < |s.up(l).sent| :: UpMsgOk(q, s, l, s.up(l).sent[k])
  }

  predicate AsksOk(q: Query, es: TMState) {
    forall r | r in es.remaining ::
      && r in q.rms && es.remaining[r].query == q.id && es.remaining[r].tm == q.tm
      && (es.Preparing? ==> es.remaining[r].Prepare? && es.remaining[r].rms == q.rms)
      && (es.CheckingPrepared? ==> es.remaining[r].CheckPrepared?)
  }

  ghost predicate AnsweredOk(q: Query, s: Sys, es: TMState) {
    forall r | r in q.rms && r !in es.remaining :: Entries(s, r) != []
  }

  ghost predicate TMEsOk(q: Query, s: Sys, g: Gen, es: TMState) {
    && es.query == q.id && es.all == q.rms && s.orig.Some? && g >= s.orig.value
    && (es.Preparing? ==> g == s.orig.value)
    && AsksOk(q, es) && AnsweredOk(q, s, es)
  }

  ghost predicate TMOk(q: Query, s: Sys, g: Gen) {
    && (g < |s.tlog| ==> s.tm(g).applied <= |s.tlog[g]|)
    && (g >= |s.tlog| ==> s.tm(g) == TMActor(0, None))
    && (s.tm(g).es.Some? ==> TMEsOk(q, s, g, s.tm(g).es.value))
  }

  predicate IsPreparing(s: Sys, g: Gen) {
    s.tm(g).es.Some? && s.tm(g).es.value.Preparing?
  }

  ghost predicate NoPrepareLeft(c: Chan<RMMessage>) {
    forall k: nat | c.recv <= k < |c.sent| :: !c.sent[k].Prepare?
  }

  /** Nothing can make `r` prepare any more. */
  ghost predicate Dead(q: Query, s: Sys, r: RMPath) {
    && s.orig.Some? && s.rlog(r) != [] && Entries(s, r) == []
    && var h := |s.rlog(r)| - 1;
       && s.rm(r, h).es == None
       && (RMLeader(s, r, h, q.tm.group) > s.orig.value
           || (!IsPreparing(s, s.orig.value)
               && forall h': Gen | h' >= h :: NoPrepareLeft(s.down(Link(s.orig.value, r, h')))))
  }

  /** Why a decision is safe. */
  ghost predicate Fate(q: Query, s: Sys) {
    && s.tlog != []
    && (s.orig.Some? ==> s.orig.value < |s.tlog|)
    && (s.decisions != [] ==> s.orig.Some?)
    && (Decided(s, DecideCommit) ==> forall r | r in q.rms :: Entries(s, r) != [])
    && (Decided(s, DecideAbort) ==> exists r :: r in q.rms && Dead(q, s, r))
  }

  ghost predicate Inv(q: Query, s: Sys) {
    && Fate(q, s)
    && (forall r | r in q.rms :: LogOk(q, s, r))
    && (forall r, h: Gen | r in q.rms :: RMOk(q, s, r, h))
    && (forall r, h: Gen | r in q.rms :: AskedOk(q, s, r, h))
    && (forall l :: DownOk(q, s, l))
    && (forall l :: UpOk(q, s, l))
    && (forall g: Gen :: TMOk(q, s, g))
  }

  /** What no step takes back. */
  ghost predicate Grows(q: Query, s: Sys, s': Sys) {
    && (s.orig.Some? ==> s'.orig == s.orig)
    && (forall r | Entries(s, r) != [] :: Entries(s', r) != [])
    && (forall d | Decided(s, d) :: Decided(s', d))
    && (forall g: Gen, group :: TMLeader(s, g, group) <= TMLeader(s', g, group))
    && (forall r, h: Gen :: RMLeader(s, r, h, q.tm.group) <= RMLeader(s', r, h, q.tm.group))
    && (forall r, h: Gen | Refused(q, s, r, h) :: Refused(q, s', r, h))
    && (forall r :: |s.rlog(r)| <= |s'.rlog(r)|)
  }

  /** No dead manager revives. */
  ghost predicate DeadStay(q: Query, s: Sys, s': Sys) {
    forall r | r in q.rms && Dead(q, s, r) :: Dead(q, s', r)
  }

  // ---------------------------------------------------------------------------------------------
  //  Facts about one state
  // ---------------------------------------------------------------------------------------------

  lemma {:induction false} Initially(q: Query)
    ensures Inv(q, InitialSys())
  {
    var s := InitialSys();
    forall r ensures s.rlog(r) == [[]] && Flat(s.rlog(r)) == [] && Entries(s, r) == [] {
      assert s.rlog(r)[..0] == [];
      assert Flat(s.rlog(r)) == Flat([]) + [];
    }
    forall r, h: Gen | h < |s.rlog(r)| ensures RMTracks(q, s, r, h) {
      assert h == 0 && RMView(s, r, h) == [];
    }
  }

  /** What a follower's state says about the legal log it inserted. */
  lemma {:induction false} ReplayLegal(q: Query, ps: seq<RMPlm>)
    requires Legal(q, ps)
    ensures ps == [] ==> Replay(ps) == None
    ensures |ps| == 1 ==> Replay(ps) == Some(Exec(q.id, q.tm, q.rms, Follower))
    ensures |ps| == 2 ==> Replay(ps) == Some(if ps[1].CommittedPlm? then HasCommitted else HasAborted)
  {
    if |ps| >= 1 {
      assert ps[..1][..0] == [];
      assert Replay(ps[..1]) == Some(Exec(q.id, q.tm, q.rms, Follower));
      if |ps| == 1 { assert ps[..1] == ps; }
    }
  }

  lemma {:induction false} LegalPrefix(q: Query, a: seq<RMPlm>, b: seq<RMPlm>)
    requires Legal(q, a + b)
    ensures Legal(q, a)
  {
    assert forall k | 0 <= k < |a| :: a[k] == (a + b)[k];
  }

  /** The entries a leadership has seen are a legal beginning of the log. */
  lemma {:induction false} SeenLegal(q: Query, s: Sys, r: RMPath, h: Gen)
    requires Legal(q, Entries(s, r))
    ensures Legal(q, Plms(RMView(s, r, h))) && IsPrefix(Plms(RMView(s, r, h)), Entries(s, r))
  {
    var v, f := RMView(s, r, h), Flat(s.rlog(r));
    ViewPrefix(s.rlog(r), h, s.rm(r, h).applied);
    assert f == v + f[|v|..];
    PlmsConcat(v, f[|v|..]);
    LegalPrefix(q, Plms(v), Plms(f[|v|..]));
  }

  /** The whole log, seen from the current leadership. */
  lemma {:induction false} EntriesSplit(q: Query, s: Sys, r: RMPath)
    requires s.rlog(r) != [] && s.rm(r, |s.rlog(r)| - 1).applied <= |s.rlog(r)[|s.rlog(r)| - 1]|
    ensures var h := |s.rlog(r)| - 1; Entries(s, r) == Plms(RMView(s, r, h)) + Unseen(s, r, h)
  {
    var h := |s.rlog(r)| - 1;
    FlatSplit(s.rlog(r), s.rm(r, h).applied);
    PlmsConcat(RMView(s, r, h), s.rlog(r)[h][s.rm(r, h).applied..]);
  }

  /** A leadership that knows of no execution has seen no entry of the query. */
  lemma {:induction false} NothingSeen(q: Query, s: Sys, r: RMPath, h: Gen)
    requires Legal(q, Entries(s, r)) && h < |s.rlog(r)| && RMTracks(q, s, r, h)
    ensures Snapshot(s.rm(r, h).es).None? <==> Plms(RMView(s, r, h)) == []
    ensures InState(s.rm(r, h).es, HasPrepared) ==> Plms(RMView(s, r, h)) == [PreparedPlm(q.id, q.tm, q.rms)]
  {
    SeenLegal(q, s, r, h);
    ReplayLegal(q, Plms(RMView(s, r, h)));
  }

  /** A leadership that has seen no entry and expects none leaves none in its stretch of log. */
  lemma {:induction false} NothingInserted(q: Query, s: Sys, r: RMPath, h: Gen)
    requires Legal(q, Entries(s, r)) && h < |s.rlog(r)| && RMTracks(q, s, r, h) && s.rm(r, h).es == None
    ensures Plms(Flat(s.rlog(r)[..h + 1])) == []
  {
    NothingSeen(q, s, r, h);
    assert Unseen(s, r, h) == [];
    hide RMTracks, Legal, Entries;
    StretchEntries(s, r, h);
  }

  /** What a leadership has seen and what is left of its stretch make up the log so far. */
  lemma {:induction false} StretchEntries(s: Sys, r: RMPath, h: Gen)
    requires h < |s.rlog(r)| && s.rm(r, h).applied <= |s.rlog(r)[h]|
    ensures Plms(Flat(s.rlog(r)[..h + 1])) == Plms(RMView(s, r, h)) + Unseen(s, r, h)
  {
    hide Plms, Flat;
    var log, a := s.rlog(r), s.rm(r, h).applied;
    FlatNext(log, h);
    var v, rest := RMView(s, r, h), log[h][a..];
    assert log[h] == log[h][..a] + rest;
    assert Flat(log[..h + 1]) == v + rest;
    PlmsConcat(v, rest);
  }

  /** A later leadership of the transaction manager has a newer leader map. */
  lemma {:induction false} LaterTMLeader(s: Sys, g: Gen, g': Gen, group: GroupId)
    requires g <= g' < |s.tlog|
    ensures TMLeader(s, g, group) <= TMLeader(s, g', group)
  {
    if g < g' {
      LaterSeesMore(s.tlog, g, s.tm(g).applied, g', s.tm(g').applied);
      LeaderGrows(TMView(s, g), TMView(s, g'), group);
    }
  }

  lemma {:induction false} LaterRMLeader(s: Sys, r: RMPath, h: Gen, h': Gen, group: GroupId)
    requires h <= h' < |s.rlog(r)|
    ensures RMLeader(s, r, h, group) <= RMLeader(s, r, h', group)
  {
    if h < h' {
      LaterSeesMore(s.rlog(r), h, s.rm(r, h).applied, h', s.rm(r, h').applied);
      LeaderGrows(RMView(s, r, h), RMView(s, r, h'), group);
    }
  }

  /** Both decisions cannot be made. */
  lemma {:induction false} OneFate(q: Query, s: Sys)
    requires Fate(q, s)
    ensures !(Decided(s, DecideCommit) && Decided(s, DecideAbort))
  {
  }
}
