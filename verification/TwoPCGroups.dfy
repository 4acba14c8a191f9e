/** Insertions and elections in the Paxos groups keep the invariant of Paxos2PC. */
module TwoPCGroups {
  import opened Wrappers
  import opened TwoPCTypes
  import opened TwoPCResource
  import opened TwoPCLog
  import opened TwoPCSystem
  import opened TwoPCInvariant
  import opened TwoPCSteps

  // ---------------------------------------------------------------------------------------------
  //  The group of the transaction manager
  // ---------------------------------------------------------------------------------------------

  lemma {:induction false} TLogKeeps(q: Query, s: Sys, s': Sys)
    requires Inv(q, s) && s' == s.(tlog := s'.tlog) && |s'.tlog| >= |s.tlog|
    requires forall g: Gen, group :: TMLeader(s, g, group) <= TMLeader(s', g, group)
    requires forall g: Gen | g < |s.tlog| :: |s.tlog[g]| <= |s'.tlog[g]|
    ensures Inv(q, s') && DeadStay(q, s, s')
  {
    assert forall r, h: Gen :: RMLeader(s, r, h, q.tm.group) == RMLeader(s', r, h, q.tm.group);
    assert forall r :: Entries(s', r) == Entries(s, r);
    assert forall d :: Decided(s, d) ==> Decided(s', d);
    assert Grows(q, s, s');
    forall d | d in q.rms && Dead(q, s, d) ensures Dead(q, s', d) { }
    FateFrame(q, s, s');
    forall r' | r' in q.rms ensures LogOk(q, s', r') { LogFrame(q, s, s', r'); }
    forall r', h': Gen | r' in q.rms ensures RMOk(q, s', r', h') { RMFrame(q, s, s', r', h'); }
    forall r', h': Gen | r' in q.rms ensures AskedOk(q, s', r', h') { AskedFrame(q, s, s', r', h'); }
    forall l ensures DownOk(q, s', l) { DownFrame(q, s, s', l); }
    forall l ensures UpOk(q, s', l) { UpFrame(q, s, s', l); }
    forall g: Gen ensures TMOk(q, s', g) {
      assert TMOk(q, s, g);
      if s.tm(g).es.Some? { TMEsFrame(q, s, s', g, s.tm(g).es.value); }
    }
  }

  lemma {:induction false} TMAppendKeeps(q: Query, s: Sys, group: GroupId, gen: Gen)
    requires Inv(q, s) && s.tlog != []
    ensures Inv(q, Next(q, s, TMAppend(group, gen))) && DeadStay(q, s, Next(q, s, TMAppend(group, gen)))
  {
    var s' := Next(q, s, TMAppend(group, gen));
    forall g: Gen, group' ensures TMLeader(s, g, group') <= TMLeader(s', g, group') {
      ViewAppend(s.tlog, RemoteLeader(group, gen), g, s.tm(g).applied);
      LeaderGrows(TMView(s, g), TMView(s', g), group');
    }
    TLogKeeps(q, s, s');
  }

  /** A new leadership starts with the leader map of the whole log. */
  lemma {:induction false} ViewElect(log: Log, k: nat, a: nat)
    requires log != []
    ensures View(log + [[]], k, a) == View(log, k, a) && Flat(log + [[]]) == Flat(log)
  {
    assert (log + [[]])[..|log|] == log;
    if k < |log| {
      assert (log + [[]])[..k] == log[..k];
    }
  }

  lemma {:induction false} TMElectKeeps(q: Query, s: Sys)
    requires Inv(q, s)
    ensures Inv(q, Next(q, s, TMElect)) && DeadStay(q, s, Next(q, s, TMElect))
  {
    var s' := Next(q, s, TMElect);
    forall g: Gen, group ensures TMLeader(s, g, group) <= TMLeader(s', g, group) {
      ViewElect(s.tlog, g, s.tm(g).applied);
    }
    TLogKeeps(q, s, s');
  }

  // ---------------------------------------------------------------------------------------------
  //  The group of a resource manager
  // ---------------------------------------------------------------------------------------------

  /** Only the log, the leaderships and the messages of `r` change. */
  ghost predicate Elsewhere(s: Sys, s': Sys, r: RMPath) {
    && s'.tlog == s.tlog && s'.tm == s.tm && s'.down == s.down && s'.orig == s.orig && s'.decisions == s.decisions
    && forall r' | r' != r :: s'.rlog(r') == s.rlog(r') && forall h: Gen :: s'.rm(r', h) == s.rm(r', h)
  }

  lemma {:induction false} RLogKeeps(q: Query, s: Sys, s': Sys, r: RMPath)
    requires Inv(q, s) && Elsewhere(s, s', r) && Grows(q, s, s')
    requires LogOk(q, s', r) && (forall h: Gen :: RMOk(q, s', r, h)) && (forall h: Gen :: AskedOk(q, s', r, h))
    requires forall l :: UpOk(q, s', l)
    requires Dead(q, s, r) ==> Dead(q, s', r)
    ensures Inv(q, s') && DeadStay(q, s, s')
  {
    forall d | d in q.rms && Dead(q, s, d) ensures Dead(q, s', d) {
      if d != r { DeadElsewhere(q, s, s', r, d); }
    }
    FateFrame(q, s, s');
    forall r' | r' in q.rms ensures LogOk(q, s', r') { if r' != r { LogFrame(q, s, s', r'); } }
    forall r', h': Gen | r' in q.rms ensures RMOk(q, s', r', h') { if r' != r { RMFrame(q, s, s', r', h'); } }
    forall r', h': Gen | r' in q.rms ensures AskedOk(q, s', r', h') { if r' != r { AskedFrame(q, s, s', r', h'); } }
    forall l ensures DownOk(q, s', l) { DownFrame(q, s, s', l); }
    forall g: Gen ensures TMOk(q, s', g) { TMFrame(q, s, s', g); }
  }

  lemma {:induction false} DeadElsewhere(q: Query, s: Sys, s': Sys, r: RMPath, d: RMPath)
    requires Elsewhere(s, s', r) && d != r && Dead(q, s, d)
    ensures Dead(q, s', d)
  {
    var h := |s.rlog(d)| - 1;
    assert s'.rlog(d) == s.rlog(d) && s'.rm(d, h) == s.rm(d, h);
    assert RMLeader(s', d, h, q.tm.group) == RMLeader(s, d, h, q.tm.group);
  }

  /** An insertion into the log of `r`: the state of its leaderships changes at most in `pending`. */
  ghost predicate Inserts(s: Sys, s': Sys, r: RMPath, e: Entry) {
    && Elsewhere(s, s', r) && s'.up == s.up && s.rlog(r) != [] && s'.rlog(r) == Append(s.rlog(r), e)
    && forall h: Gen :: s'.rm(r, h).es == s.rm(r, h).es && s'.rm(r, h).applied == s.rm(r, h).applied
  }

  lemma {:induction false} InsertsView(q: Query, s: Sys, s': Sys, r: RMPath, e: Entry, h: Gen)
    requires Inserts(s, s', r, e) && RMOk(q, s, r, h)
    ensures h < |s.rlog(r)| ==> RMView(s', r, h) == RMView(s, r, h)
    ensures RMLeader(s, r, h, q.tm.group) <= RMLeader(s', r, h, q.tm.group)
  {
    ViewAppend(s.rlog(r), e, h, s.rm(r, h).applied);
    LeaderGrows(RMView(s, r, h), RMView(s', r, h), q.tm.group);
  }

  lemma {:induction false} InsertsEntries(s: Sys, s': Sys, r: RMPath, e: Entry)
    requires Inserts(s, s', r, e)
    ensures Entries(s', r) == Entries(s, r) + Plms([e])
    ensures forall group :: Leader(Flat(s.rlog(r)), group) <= Leader(Flat(s'.rlog(r)), group)
  {
    FlatAppend(s.rlog(r), e);
    PlmsConcat(Flat(s.rlog(r)), [e]);
    forall group ensures Leader(Flat(s.rlog(r)), group) <= Leader(Flat(s'.rlog(r)), group) {
      LeaderGrows(Flat(s.rlog(r)), Flat(s'.rlog(r)), group);
    }
  }

  lemma {:induction false} InsertsGrow(q: Query, s: Sys, s': Sys, r: RMPath, e: Entry)
    requires Inv(q, s) && r in q.rms && Inserts(s, s', r, e)
    ensures Grows(q, s, s')
  {
    forall r', h: Gen ensures RMLeader(s, r', h, q.tm.group) <= RMLeader(s', r', h, q.tm.group) {
      if r' == r {
        InsertsView(q, s, s', r, e, h);
      } else {
        assert s'.rlog(r') == s.rlog(r') && s'.rm(r', h) == s.rm(r', h);
      }
    }
    forall r' | Entries(s, r') != [] ensures Entries(s', r') != [] {
      if r' == r { InsertsEntries(s, s', r, e); } else { assert s'.rlog(r') == s.rlog(r'); }
    }
    assert forall g: Gen, group :: TMLeader(s, g, group) == TMLeader(s', g, group);
    assert forall d :: Decided(s, d) ==> Decided(s', d);
    forall r', h: Gen | Refused(q, s, r', h) ensures Refused(q, s', r', h) {
      assert RMLeader(s, r', h, q.tm.group) <= RMLeader(s', r', h, q.tm.group);
      if r' != r { assert s'.rlog(r') == s.rlog(r') && s'.rm(r', h) == s.rm(r', h); }
    }
    forall r' ensures |s.rlog(r')| <= |s'.rlog(r')| {
      if r' != r { assert s'.rlog(r') == s.rlog(r'); }
    }
  }

  /** The leaderships of `r` after an insertion by the current one. */
  lemma {:induction false} InsertsUnseen(s: Sys, s': Sys, r: RMPath, e: Entry, h: Gen)
    requires Inserts(s, s', r, e) && h < |s.rlog(r)| && s.rm(r, h).applied <= |s.rlog(r)[h]|
    ensures RMView(s', r, h) == RMView(s, r, h) && |s'.rlog(r)| == |s.rlog(r)| && |s.rlog(r)[h]| <= |s'.rlog(r)[h]|
    ensures Unseen(s', r, h) == Unseen(s, r, h) + if h == |s.rlog(r)| - 1 then Plms([e]) else []
  {
    hide Plms, Flat;
    ViewAppend(s.rlog(r), e, h, s.rm(r, h).applied);
    var a, seg := s.rm(r, h).applied, s.rlog(r)[h];
    if h == |s.rlog(r)| - 1 {
      assert (seg + [e])[a..] == seg[a..] + [e];
      PlmsConcat(seg[a..], [e]);
    }
  }

  lemma {:induction false} InsertsTracks(q: Query, s: Sys, s': Sys, r: RMPath, e: Entry, h: Gen)
    requires Inserts(s, s', r, e) && h < |s.rlog(r)| && RMTracks(q, s, r, h)
    requires h == |s.rlog(r)| - 1 ==> s.rm(r, h).pending == Plms([e]) + s'.rm(r, h).pending
    ensures RMTracks(q, s', r, h)
  {
    InsertsUnseen(s, s', r, e, h);
    hide Unseen, RMView, Plms, Snapshot, Replay, Expected, Elsewhere, EsOk, IsPrefix;
    if h == |s.rlog(r)| - 1 {
      Shift(Unseen(s, r, h), Plms([e]), s.rm(r, h).pending, s'.rm(r, h).pending);
    }
  }

  lemma {:induction false} Shift<T>(u: seq<T>, e: seq<T>, p: seq<T>, p': seq<T>)
    requires p == e + p'
    ensures (u + e) + p' == u + p && IsPrefix(u + e, u + p)
  {
    assert u + p == (u + e) + p';
  }

  lemma {:induction false} InsertsCauses(q: Query, s: Sys, s': Sys, r: RMPath, e: Entry, h: Gen)
    requires Inserts(s, s', r, e) && h < |s.rlog(r)| && RMOk(q, s, r, h) && Grows(q, s, s')
    ensures RMCauses(q, s', r, h)
  {
    assert RMCauses(q, s, r, h);
  }

  lemma {:induction false} InsertsDead(q: Query, s: Sys, s': Sys, r: RMPath, e: Entry)
    requires Inserts(s, s', r, e) && Grows(q, s, s') && Dead(q, s, r) && Plms([e]) == []
    ensures Dead(q, s', r)
  {
    var h := |s.rlog(r)| - 1;
    InsertsEntries(s, s', r, e);
    assert RMLeader(s, r, h, q.tm.group) <= RMLeader(s', r, h, q.tm.group);
    hide Grows, RMLeader, Entries, Plms;
  }

  lemma {:induction false} InsertsUp(q: Query, s: Sys, s': Sys, r: RMPath, e: Entry)
    requires Inv(q, s) && Inserts(s, s', r, e) && Grows(q, s, s')
    ensures forall l :: UpOk(q, s', l)
  {
    forall l ensures UpOk(q, s', l) { UpFrame(q, s, s', l); }
  }

  lemma {:induction false} InsertsAsked(q: Query, s: Sys, s': Sys, r: RMPath, e: Entry, h: Gen)
    requires Inserts(s, s', r, e) && Grows(q, s, s') && AskedOk(q, s, r, h)
    requires h == |s.rlog(r)| - 1 && e.Insertion? && e.plm.PreparedPlm? ==>
               s'.orig.Some? && h <= TMLeader(s', s'.orig.value, r.group)
    ensures AskedOk(q, s', r, h)
  {
    if h == |s.rlog(r)| - 1 {
      PlmsConcat(s.rlog(r)[h], [e]);
      assert s'.rlog(r)[h] == s.rlog(r)[h] + [e];
      assert e.Insertion? ==> Plms([e]) == [e.plm] by { PlmsOne(e); }
      assert !e.Insertion? ==> Plms([e]) == [] by { PlmsOne(e); }
    } else {
      assert h < |s.rlog(r)| ==> s'.rlog(r)[h] == s.rlog(r)[h];
    }
    assert |s'.rlog(r)| == |s.rlog(r)| && forall g: Gen :: TMLeader(s, g, r.group) <= TMLeader(s', g, r.group);
    hide Grows, Inserts, TMLeader, Plms;
  }

  lemma {:induction false} PlmsOne(e: Entry)
    ensures Plms([e]) == if e.Insertion? then [e.plm] else []
  {
    assert [e][..0] == [];
  }

  lemma {:induction false} AppendLogOk(q: Query, s: Sys, s': Sys, r: RMPath, e: Entry)
    requires LogOk(q, s, r) && Inserts(s, s', r, e) && Grows(q, s, s') && Plms([e]) == [] && s'.rm == s.rm
    ensures LogOk(q, s', r)
  {
    InsertsEntries(s, s', r, e);
    assert forall d :: Decided(s, d) ==> Decided(s', d);
    hide Grows, Decided, Leader, Flat, Entries, Elsewhere;
  }

  lemma {:induction false} RMAppendKeeps(q: Query, s: Sys, r: RMPath, group: GroupId, gen: Gen)
    requires Inv(q, s) && r in q.rms && s.rlog(r) != []
    ensures Inv(q, Next(q, s, RMAppend(r, group, gen))) && DeadStay(q, s, Next(q, s, RMAppend(r, group, gen)))
  {
    var s' := Next(q, s, RMAppend(r, group, gen));
    var e := RemoteLeader(group, gen);
    assert Plms([e]) == [];
    assert Inserts(s, s', r, e);
    assert s'.rm == s.rm && LogOk(q, s, r);
    InsertsElsewhere(s, s', r, e);
    InsertsGrow(q, s, s', r, e);
    hide RMOk, LogOk, AskedOk, UpOk, DownOk, TMOk, Inserts, Fate, Grows, Elsewhere, Dead, Next;
    InsertsRMOk(q, s, s', r, e);
    AppendLogOk(q, s, s', r, e);
    forall h: Gen ensures AskedOk(q, s', r, h) { InsertsAsked(q, s, s', r, e, h); }
    InsertsUp(q, s, s', r, e);
    if Dead(q, s, r) { InsertsDead(q, s, s', r, e); }
    RLogKeeps(q, s, s', r);
  }

  /** What the current leadership can insert, and what that says. */
  lemma {:induction false} InsertLegal(q: Query, s: Sys, r: RMPath)
    requires LogOk(q, s, r) && RMOk(q, s, r, |s.rlog(r)| - 1) && s.rm(r, |s.rlog(r)| - 1).pending != []
    ensures var a := s.rm(r, |s.rlog(r)| - 1);
      && Legal(q, Entries(s, r) + [a.pending[0]]) && a.es.Some? && a.pending == [a.pending[0]]
      && (a.pending[0].PreparedPlm? ==> PrePrepared(a.es))
      && (a.pending[0].CommittedPlm? ==> TowardsCommit(a.es))
      && (a.pending[0].AbortedPlm? ==> TowardsAbort(a.es))
  {
    var h := |s.rlog(r)| - 1;
    var a := s.rm(r, h);
    EntriesSplit(q, s, r);
    SeenLegal(q, s, r, h);
    ReplayLegal(q, Plms(RMView(s, r, h)));
    var x := Expected(q, a.es);
    assert Unseen(s, r, h) + a.pending == x;
    assert |x| <= 1;
    assert Unseen(s, r, h) == [] && a.pending == x;
  }

  lemma {:induction false} InsertsRMOk(q: Query, s: Sys, s': Sys, r: RMPath, e: Entry)
    requires Inserts(s, s', r, e) && Grows(q, s, s') && forall h: Gen :: RMOk(q, s, r, h)
    requires var k := |s.rlog(r)| - 1; s.rm(r, k).pending == Plms([e]) + s'.rm(r, k).pending
    ensures forall h: Gen :: RMOk(q, s', r, h)
  {
    forall h: Gen ensures RMOk(q, s', r, h) {
      assert RMOk(q, s, r, h);
      if h < |s.rlog(r)| {
        InsertsTracks(q, s, s', r, e, h);
        InsertsCauses(q, s, s', r, e, h);
      }
    }
  }

  lemma {:induction false} InsertIsInserts(q: Query, s: Sys, r: RMPath)
    requires Enabled(q, s, RMInsert(r))
    ensures var s' := Next(q, s, RMInsert(r)); var k := |s.rlog(r)| - 1; var p := s.rm(r, k).pending;
      && Inserts(s, s', r, Insertion(p[0])) && s'.rm(r, k).pending == p[1..]
      && Plms([Insertion(p[0])]) == [p[0]]
      && forall h: Gen | h != k :: s'.rm(r, h) == s.rm(r, h)
  {
  }

  lemma {:induction false} RMInsertAsked(q: Query, s: Sys, s': Sys, r: RMPath, e: Entry, h: Gen)
    requires LogOk(q, s, r) && Inserts(s, s', r, e) && Grows(q, s, s') && e.Insertion?
    requires var k := |s.rlog(r)| - 1; RMOk(q, s, r, k) && s.rm(r, k).pending == [e.plm]
    requires AskedOk(q, s, r, h)
    ensures AskedOk(q, s', r, h)
  {
    InsertLegal(q, s, r);
    assert RMCauses(q, s, r, |s.rlog(r)| - 1);
    InsertsAsked(q, s, s', r, e, h);
  }

  lemma {:induction false} InsertKeeps(q: Query, s: Sys, s': Sys, r: RMPath, e: Entry)
    requires Inv(q, s) && r in q.rms && Inserts(s, s', r, e) && e.Insertion? && s.rlog(r) != []
    requires var k := |s.rlog(r)| - 1;
      s.rm(r, k).pending == [e.plm] + s'.rm(r, k).pending && forall h: Gen | h != k :: s'.rm(r, h) == s.rm(r, h)
    ensures Inv(q, s') && DeadStay(q, s, s')
  {
    var k := |s.rlog(r)| - 1;
    assert LogOk(q, s, r) && RMOk(q, s, r, k);
    assert Plms([e]) == [e.plm];
    InsertLegal(q, s, r);
    assert !Dead(q, s, r);
    InsertsElsewhere(s, s', r, e);
    InsertsGrow(q, s, s', r, e);
    hide RMOk, LogOk, AskedOk, UpOk, DownOk, TMOk, Inserts, Fate, Entries, Legal, Grows, Elsewhere, Dead,
      PrePrepared, TowardsCommit, TowardsAbort;
    InsertsRMOk(q, s, s', r, e);
    RMInsertLogOk(q, s, s', r, e);
    forall h: Gen ensures AskedOk(q, s', r, h) { RMInsertAsked(q, s, s', r, e, h); }
    InsertsUp(q, s, s', r, e);
    RLogKeeps(q, s, s', r);
  }

  lemma {:induction false} RMInsertKeeps(q: Query, s: Sys, r: RMPath)
    requires Inv(q, s) && Enabled(q, s, RMInsert(r))
    ensures Inv(q, Next(q, s, RMInsert(r))) && DeadStay(q, s, Next(q, s, RMInsert(r)))
  {
    InsertIsInserts(q, s, r);
    hide Inv, Inserts;
    InsertKeeps(q, s, Next(q, s, RMInsert(r)), r, Insertion(s.rm(r, |s.rlog(r)| - 1).pending[0]));
  }

  lemma {:induction false} InsertsElsewhere(s: Sys, s': Sys, r: RMPath, e: Entry)
    requires Inserts(s, s', r, e)
    ensures Elsewhere(s, s', r)
  {
  }

  /** What the leadership that inserts an entry answers for. */
  lemma {:induction false} InsertGives(q: Query, s: Sys, r: RMPath)
    requires LogOk(q, s, r) && RMOk(q, s, r, |s.rlog(r)| - 1) && s.rm(r, |s.rlog(r)| - 1).pending != []
    ensures var p := s.rm(r, |s.rlog(r)| - 1).pending[0];
      && Legal(q, Entries(s, r) + [p])
      && s.orig.Some? && Leader(Flat(s.rlog(r)), q.tm.group) >= s.orig.value
      && (p.CommittedPlm? ==> Decided(s, DecideCommit)) && (p.AbortedPlm? ==> Decided(s, DecideAbort))
  {
    InsertLegal(q, s, r);
    var k := |s.rlog(r)| - 1;
    hide Legal, Expected, Plms, Flat, Leader, Unseen, RMTracks, LogOk, Decided, IsPrefix;
    assert RMCauses(q, s, r, k);
    ViewPrefix(s.rlog(r), k, s.rm(r, k).applied);
    LeaderGrows(RMView(s, r, k), Flat(s.rlog(r)), q.tm.group);
  }

  lemma {:induction false} RMInsertLogOk(q: Query, s: Sys, s': Sys, r: RMPath, e: Entry)
    requires LogOk(q, s, r) && Inserts(s, s', r, e) && Grows(q, s, s') && e.Insertion?
    requires var k := |s.rlog(r)| - 1; RMOk(q, s, r, k) && s.rm(r, k).pending == [e.plm]
    requires forall h: Gen | h >= |s.rlog(r)| :: s'.rm(r, h) == s.rm(r, h)
    ensures LogOk(q, s', r)
  {
    InsertGives(q, s, r);
    assert Plms([e]) == [e.plm];
    InsertsEntries(s, s', r, e);
    assert forall d :: Decided(s, d) ==> Decided(s', d);
    assert s'.orig == s.orig && |s'.rlog(r)| == |s.rlog(r)|;
    LogOkAfter(q, s', r, Entries(s, r), e.plm);
  }

  /** A log with one more entry, given what the entry rests on. */
  lemma {:induction false} LogOkAfter(q: Query, s: Sys, r: RMPath, ps: seq<RMPlm>, p: RMPlm)
    requires s.rlog(r) != [] && Entries(s, r) == ps + [p] && Legal(q, ps + [p])
    requires s.orig.Some? && Leader(Flat(s.rlog(r)), q.tm.group) >= s.orig.value
    requires (CommittedPlm(q.id) in ps || p.CommittedPlm?) ==> Decided(s, DecideCommit)
    requires (AbortedPlm(q.id) in ps || p.AbortedPlm?) ==> Decided(s, DecideAbort)
    requires forall h: Gen | h >= |s.rlog(r)| :: s.rm(r, h) == RMActor(0, None, [])
    ensures LogOk(q, s, r)
  {
    hide Legal, Entries, Decided, Leader, Flat;
    NewEntry(ps, p, q);
  }

  lemma {:induction false} NewEntry(ps: seq<RMPlm>, p: RMPlm, q: Query)
    ensures CommittedPlm(q.id) in ps + [p] ==> CommittedPlm(q.id) in ps || p.CommittedPlm?
    ensures AbortedPlm(q.id) in ps + [p] ==> AbortedPlm(q.id) in ps || p.AbortedPlm?
  {
  }

  // ---------------------------------------------------------------------------------------------
  //  Election of a resource manager
  // ---------------------------------------------------------------------------------------------

  /** The state in which a leadership starts. */
  lemma {:induction false} Promotion(q: Query, ps: seq<RMPlm>)
    requires Legal(q, ps)
    ensures var o := RMLeaderChanged(true, Replay(ps));
      && EsOk(q, o.es) && Snapshot(o.es) == Replay(ps) && Expected(q, o.es) == [] && o.plms == []
      && !PrePrepared(o.es) && (o.es.None? <==> ps == [])
      && (o.es == Some(HasCommitted) ==> CommittedPlm(q.id) in ps)
      && (o.es == Some(HasAborted) ==> AbortedPlm(q.id) in ps)
      && (o.sends == [] || (ps != [] && o.sends == [ToTM(q.tm, InformPrepared(q.id, q.tm, q.rms))]))
      && !InState(o.es, InsertingCommitted) && !InState(o.es, InsertingAborted)
  {
    ReplayLegal(q, ps);
    if |ps| == 2 { assert ps[1] in ps; }
  }

  lemma {:induction false} OneBody(tm: TMPath, x: ToTM)
    ensures Bodies([], tm) == []
    ensures Bodies([x], tm) == if x.tm == tm then [x.msg] else []
  {
    assert [x][..0] == [];
    assert Bodies([x][..0], tm) == [];
  }

  lemma {:induction false} ElectFacts(q: Query, s: Sys, s': Sys, r: RMPath)
    requires r in q.rms && s' == Elected(q, s, r) && LogOk(q, s, r)
    ensures Elsewhere(s, s', r) && s'.rlog(r) == s.rlog(r) + [[]]
    ensures forall h: Gen | h != |s.rlog(r)| :: s'.rm(r, h) == s.rm(r, h)
    ensures forall h: Gen :: RMView(s', r, h) == RMView(s, r, h)
    ensures Entries(s', r) == Entries(s, r) && Flat(s'.rlog(r)) == Flat(s.rlog(r))
    ensures var n := |s.rlog(r)|;
      RMView(s', r, n) == Flat(s.rlog(r))
      && s'.rm(r, n) == RMActor(0, RMLeaderChanged(true, Replay(Entries(s, r))).es, [])
  {
    var n := |s.rlog(r)|;
    Promotion(q, Entries(s, r));
    forall h: Gen ensures RMView(s', r, h) == RMView(s, r, h) {
      ViewElect(s.rlog(r), h, s.rm(r, h).applied);
      assert h == n ==> s.rm(r, h).applied == 0;
    }
    ViewElect(s.rlog(r), n, 0);
  }

  lemma {:induction false} ElectGrows(q: Query, s: Sys, s': Sys, r: RMPath)
    requires r in q.rms && s' == Elected(q, s, r) && LogOk(q, s, r)
    ensures Grows(q, s, s')
  {
    ElectFacts(q, s, s', r);
    forall r', h: Gen ensures RMLeader(s, r', h, q.tm.group) <= RMLeader(s', r', h, q.tm.group) {
      if r' != r { assert s'.rlog(r') == s.rlog(r') && s'.rm(r', h) == s.rm(r', h); }
    }
    forall r' ensures |s.rlog(r')| <= |s'.rlog(r')| && Entries(s, r') == Entries(s', r') {
      if r' != r { assert s'.rlog(r') == s.rlog(r'); }
    }
    assert forall g: Gen, group :: TMLeader(s, g, group) == TMLeader(s', g, group);
    assert forall d :: Decided(s, d) ==> Decided(s', d);
    forall r', h: Gen | Refused(q, s, r', h) ensures Refused(q, s', r', h) {
      assert RMLeader(s, r', h, q.tm.group) <= RMLeader(s', r', h, q.tm.group);
      if r' != r { assert s'.rlog(r') == s.rlog(r') && s'.rm(r', h) == s.rm(r', h); }
    }
  }

  lemma {:induction false} ElectRMOk(q: Query, s: Sys, s': Sys, r: RMPath, h: Gen)
    requires r in q.rms && s' == Elected(q, s, r) && LogOk(q, s, r) && RMOk(q, s, r, h) && Grows(q, s, s')
    ensures RMOk(q, s', r, h)
  {
    ElectFacts(q, s, s', r);
    var n := |s.rlog(r)|;
    if h < n {
      assert Unseen(s', r, h) == Unseen(s, r, h);
      assert RMTracks(q, s, r, h) && RMCauses(q, s, r, h);
      assert RMTracks(q, s', r, h);
      assert RMCauses(q, s', r, h);
    } else if h == n {
      Promotion(q, Entries(s, r));
      assert Unseen(s', r, n) == [];
      assert RMTracks(q, s', r, n);
      assert RMCauses(q, s', r, n);
    }
  }

  /** A new leadership may announce that it has prepared. */
  lemma {:induction false} ElectSends(q: Query, s: Sys, s': Sys, r: RMPath, l: Link)
    requires r in q.rms && s' == Elected(q, s, r) && LogOk(q, s, r)
    ensures s'.up(l).recv == s.up(l).recv
    ensures s'.up(l).sent == s.up(l).sent ||
            (l == Link(Leader(Flat(s.rlog(r)), q.tm.group), r, |s.rlog(r)|) && Entries(s, r) != []
             && s'.up(l).sent == s.up(l).sent + [InformPrepared(q.id, q.tm, q.rms)])
  {
    hide Legal, Leader, Flat, Plms, Replay, RMLeaderChanged;
    var n := |s.rlog(r)|;
    assert View(s.rlog(r) + [[]], n, 0) == Flat(s.rlog(r)) by { ElectFacts(q, s, s', r); }
    Promotion(q, Entries(s, r));
    OneBody(q.tm, ToTM(q.tm, InformPrepared(q.id, q.tm, q.rms)));
  }

  lemma {:induction false} ElectUp(q: Query, s: Sys, s': Sys, r: RMPath, l: Link)
    requires r in q.rms && s' == Elected(q, s, r) && LogOk(q, s, r) && UpOk(q, s, l) && Grows(q, s, s')
    ensures UpOk(q, s', l)
  {
    assert |s'.rlog(r)| == |s.rlog(r)| + 1 && s'.orig == s.orig by { ElectFacts(q, s, s', r); }
    ElectSends(q, s, s', r, l);
    hide Elected, Grows, Legal, Decided, Leader, Flat, Plms, RMLeader, Refused;
    forall k: nat | k < |s'.up(l).sent| ensures UpMsgOk(q, s', l, s'.up(l).sent[k]) {
      if k < |s.up(l).sent| {
        assert s'.up(l).sent[k] == s.up(l).sent[k];
        UpMsgFrame(q, s, s', l, s.up(l).sent[k]);
      }
    }
  }

  lemma {:induction false} ElectDead(q: Query, s: Sys, s': Sys, r: RMPath)
    requires r in q.rms && s' == Elected(q, s, r) && LogOk(q, s, r) && Dead(q, s, r)
    ensures Dead(q, s', r)
  {
    ElectFacts(q, s, s', r);
    Promotion(q, Entries(s, r));
    var n := |s.rlog(r)|;
    ViewPrefix(s.rlog(r), n - 1, s.rm(r, n - 1).applied);
    LeaderGrows(RMView(s, r, n - 1), Flat(s.rlog(r)), q.tm.group);
  }

  lemma {:induction false} ElectLogOk(q: Query, s: Sys, s': Sys, r: RMPath)
    requires r in q.rms && s' == Elected(q, s, r) && LogOk(q, s, r)
    ensures LogOk(q, s', r)
  {
    ElectFacts(q, s, s', r);
    assert forall d :: Decided(s, d) ==> Decided(s', d);
  }

  lemma {:induction false} ElectAsked(q: Query, s: Sys, s': Sys, r: RMPath, h: Gen)
    requires r in q.rms && s' == Elected(q, s, r) && LogOk(q, s, r) && AskedOk(q, s, r, h) && Grows(q, s, s')
    ensures AskedOk(q, s', r, h)
  {
    ElectFacts(q, s, s', r);
    hide Elected, LogOk, Flat, View, RMView;
  }

  lemma {:induction false} RMElectKeeps(q: Query, s: Sys, r: RMPath)
    requires Inv(q, s) && r in q.rms
    ensures Inv(q, Next(q, s, RMElect(r))) && DeadStay(q, s, Next(q, s, RMElect(r)))
  {
    var s' := Elected(q, s, r);
    assert s' == Next(q, s, RMElect(r));
    assert LogOk(q, s, r);
    hide Next, RMOk, LogOk, AskedOk, UpOk, DownOk, TMOk, Fate, Grows, Elsewhere, Dead, Entries, View, Elected, RMView, Flat;
    ElectFacts(q, s, s', r);
    ElectGrows(q, s, s', r);
    ElectLogOk(q, s, s', r);
    forall h: Gen ensures AskedOk(q, s', r, h) { ElectAsked(q, s, s', r, h); }
    forall h: Gen ensures RMOk(q, s', r, h) { ElectRMOk(q, s, s', r, h); }
    forall l ensures UpOk(q, s', l) { ElectUp(q, s, s', r, l); }
    if Dead(q, s, r) { ElectDead(q, s, s', r); }
    RLogKeeps(q, s, s', r);
  }
}
