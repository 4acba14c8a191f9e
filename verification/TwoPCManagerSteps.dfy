/** The steps of the transaction managers keep the invariant of Paxos2PC. */
module TwoPCManagerSteps {
  import opened Wrappers
  import opened TwoPCTypes
  import opened TwoPCResource
  import opened TwoPCManager
  import opened TwoPCLog
  import opened TwoPCSystem
  import opened TwoPCInvariant
  import opened TwoPCSteps

  // ---------------------------------------------------------------------------------------------
  //  Who is sent what
  // ---------------------------------------------------------------------------------------------

  lemma {:induction false} BodiesToOne(rms: seq<RMPath>, sends: seq<ToRM>, r: RMPath)
    requires |sends| == |rms| && forall k | 0 <= k < |rms| :: sends[k].rm == rms[k]
    requires forall j, k | 0 <= j < k < |rms| :: rms[j] != rms[k]
    ensures |BodiesTo(sends, r)| <= 1
    ensures r !in rms ==> BodiesTo(sends, r) == []
  {
    if rms != [] {
      var n := |rms| - 1;
      BodiesToOne(rms[..n], sends[..n], r);
      if sends[n].rm == r {
        assert r !in rms[..n];
      }
    }
  }

  lemma {:induction false} ResendsTo(rms: seq<RMPath>, remaining: map<RMPath, RMMessage>, g: GroupId, r: RMPath)
    requires forall j, k | 0 <= j < k < |rms| :: rms[j] != rms[k]
    ensures BodiesTo(Resends(rms, remaining, g), r)
         == if r in rms && r in remaining && r.group == g then [remaining[r]] else []
  {
    if rms != [] {
      var n := |rms| - 1;
      var rest := Resends(rms[..n], remaining, g);
      assert r in rms <==> r in rms[..n] || r == rms[n];
      assert r == rms[n] ==> r !in rms[..n];
      ResendsLast(rms, remaining, g);
      hide Resends, BodiesTo;
      ResendsTo(rms[..n], remaining, g, r);
      if rms[n] in remaining && rms[n].group == g { BodiesNext(rest, ToRM(rms[n], remaining[rms[n]]), r); }
    }
  }

  lemma {:induction false} ResendsLast(rms: seq<RMPath>, remaining: map<RMPath, RMMessage>, g: GroupId)
    requires rms != []
    ensures var n := |rms| - 1; var rest := Resends(rms[..n], remaining, g);
      Resends(rms, remaining, g) == if rms[n] in remaining && rms[n].group == g then rest + [ToRM(rms[n], remaining[rms[n]])] else rest
  {
  }

  lemma {:induction false} BodiesNext(sends: seq<ToRM>, x: ToRM, r: RMPath)
    ensures BodiesTo(sends + [x], r) == if x.rm == r then BodiesTo(sends, r) + [x.msg] else BodiesTo(sends, r)
  {
    assert (sends + [x])[..|sends|] == sends;
  }

  lemma {:induction false} ResendsAre(rms: seq<RMPath>, remaining: map<RMPath, RMMessage>, g: GroupId)
    ensures forall x | x in Resends(rms, remaining, g) :: x.rm in remaining && x.msg == remaining[x.rm]
  {
    if rms != [] { ResendsAre(rms[..|rms| - 1], remaining, g); }
  }

  /** A link is used only after the start, and to a leadership its sender knew of. */
  lemma {:induction false} WhoSent(q: Query, s: Sys, l: Link)
    requires DownOk(q, s, l)
    ensures s.down(l).sent != [] ==> s.orig.Some? && l.gen <= TMLeader(s, l.tm, l.rm.group)
  {
    if s.down(l).sent != [] { assert DownMsgOk(q, s, l, 0, s.down(l).sent[0]); }
  }

  // ---------------------------------------------------------------------------------------------
  //  The original start
  // ---------------------------------------------------------------------------------------------

  /** Before the original start nothing has happened. */
  lemma {:induction false} NothingYet(q: Query, s: Sys)
    requires Inv(q, s) && s.orig.None?
    ensures forall l :: s.down(l).sent == []
    ensures s.decisions == [] && forall d :: !Decided(s, d)
  {
    forall l ensures s.down(l).sent == [] {
      assert DownOk(q, s, l);
      WhoSent(q, s, l);
    }
  }

  lemma {:induction false} BeginSends(q: Query, s: Sys, s': Sys, g: Gen, sends: seq<ToRM>)
    requires q.Valid() && sends == StartOrig(q.id, q.tm, q.rms, q.payloads).sends
    requires s'.orig == Some(g) && forall l :: s.down(l).sent == []
    ensures SendsOk(q, s, s', g, sends)
  {
    forall l: Link, k: nat | l.tm == g && l.gen == TMLeader(s', g, l.rm.group) && k < |BodiesTo(sends, l.rm)|
      ensures SendOk(q, s, s', l, k, BodiesTo(sends, l.rm)[k])
    {
      BeginSend(q, s, s', g, sends, l, k);
    }
  }

  lemma {:induction false} BeginSend(q: Query, s: Sys, s': Sys, g: Gen, sends: seq<ToRM>, l: Link, k: nat)
    requires q.Valid() && sends == StartOrig(q.id, q.tm, q.rms, q.payloads).sends && s'.orig == Some(g) && s.down(l).sent == []
    requires l.tm == g && l.gen == TMLeader(s', g, l.rm.group) && k < |BodiesTo(sends, l.rm)|
    ensures SendOk(q, s, s', l, k, BodiesTo(sends, l.rm)[k])
  {
    BodiesToOne(q.rms, sends, l.rm);
    BodiesAreSent(sends, l.rm, k);
    hide TMLeader, BodiesTo;
  }

  /** The state after the original start. */
  lemma {:induction false} BeginTMOk(q: Query, s: Sys, s': Sys, g: Gen)
    requires TMOk(q, s, g) && s'.tlog == s.tlog && g < |s.tlog| && s'.orig == Some(g)
    requires s'.tm(g) == TMActor(s.tm(g).applied, StartOrig(q.id, q.tm, q.rms, q.payloads).es)
    ensures TMOk(q, s', g)
  {
  }

  lemma {:induction false} BeginKeeps(q: Query, s: Sys, g: Gen)
    requires q.Valid() && Inv(q, s) && Enabled(q, s, Begin(g))
    ensures Inv(q, Next(q, s, Begin(g))) && DeadStay(q, s, Next(q, s, Begin(g)))
  {
    var s' := Next(q, s, Begin(g));
    var o := StartOrig(q.id, q.tm, q.rms, q.payloads);
    NothingYet(q, s);
    forall l ensures s.up(l).recv <= |s.up(l).sent| { assert UpOk(q, s, l); }
    assert TMMoves(q, s, s', g, o.sends, None);
    assert TMOk(q, s, g);
    assert s'.decisions == [] && s'.tlog == s.tlog && s'.orig == Some(g) && !s.orig.Some?;
    assert s'.tm(g) == TMActor(s.tm(g).applied, o.es);
    InvFate(q, s);
    hide Inv, TMMoves, SendsOk, TMOk, Next, StartOrig, Dead;
    BeginSends(q, s, s', g, o.sends);
    BeginTMOk(q, s, s', g);
    assert DeadStay(q, s, s') by { UnbegunAlive(q, s); }
    TMKeepsRest(q, s, s', g, o.sends, None);
  }

  lemma {:induction false} UnbegunAlive(q: Query, s: Sys)
    requires s.orig.None?
    ensures forall r :: !Dead(q, s, r)
  {
  }

  lemma {:induction false} InvFate(q: Query, s: Sys)
    requires Inv(q, s)
    ensures Fate(q, s)
  {
  }

  // ---------------------------------------------------------------------------------------------
  //  Leader changes
  // ---------------------------------------------------------------------------------------------

  lemma {:induction false} ResendsOk(q: Query, s: Sys, s': Sys, g: Gen, es: TMState, group: GroupId)
    requires q.Valid() && TMEsOk(q, s, g, es) && s'.orig == s.orig
    requires forall l :: DownOk(q, s, l)
    requires TMLeader(s, g, group) < TMLeader(s', g, group)
    ensures SendsOk(q, s, s', g, Resends(es.all, es.remaining, group))
  {
    var sends := Resends(es.all, es.remaining, group);
    forall l: Link, k: nat | l.tm == g && l.gen == TMLeader(s', g, l.rm.group) && k < |BodiesTo(sends, l.rm)|
      ensures SendOk(q, s, s', l, k, BodiesTo(sends, l.rm)[k])
    {
      ResendsTo(es.all, es.remaining, group, l.rm);
      assert l.rm.group == group && k == 0 && BodiesTo(sends, l.rm)[k] == es.remaining[l.rm];
      assert DownOk(q, s, l);
      WhoSent(q, s, l);
    }
  }

  lemma {:induction false} AdvanceLeader(s: Sys, s': Sys, g: Gen)
    requires g < |s.tlog| && s.tm(g).applied < |s.tlog[g]| && s'.tlog == s.tlog
    requires s'.tm(g).applied == s.tm(g).applied + 1
    ensures var e := s.tlog[g][s.tm(g).applied];
      e.RemoteLeader? && e.gen > TMLeader(s, g, e.group) ==> TMLeader(s', g, e.group) == e.gen
  {
    ViewStep(s.tlog, g, s.tm(g).applied);
    var e := s.tlog[g][s.tm(g).applied];
    assert (TMView(s, g) + [e])[..|TMView(s, g)|] == TMView(s, g);
  }

  lemma {:induction false} NoSends(q: Query, s: Sys, s': Sys, g: Gen)
    ensures SendsOk(q, s, s', g, [])
  {
  }

  lemma {:induction false} AdvanceSends(q: Query, s: Sys, g: Gen)
    requires q.Valid() && Inv(q, s) && Enabled(q, s, TMAdvance(g))
    ensures var o := AdvanceTM(s, g);
      && o.es == s.tm(g).es && o.decision == None
      && SendsOk(q, s, Next(q, s, TMAdvance(g)), g, o.sends)
      && PreparesOnce(s, Next(q, s, TMAdvance(g)), g, o.sends)
  {
    var s' := Next(q, s, TMAdvance(g));
    var e := s.tlog[g][s.tm(g).applied];
    assert TMOk(q, s, g);
    NoSends(q, s, s', g);
    if s.tm(g).es.Some? && e.RemoteLeader? && e.gen > TMLeader(s, g, e.group) {
      var es := s.tm(g).es.value;
      AdvanceLeader(s, s', g);
      ResendsOk(q, s, s', g, es, e.group);
      ResendsAre(es.all, es.remaining, e.group);
      var sends := Resends(es.all, es.remaining, e.group);
      forall k | 0 <= k < |sends| && !es.Preparing? ensures !sends[k].msg.Prepare? { assert sends[k] in sends; }
    }
  }

  lemma {:induction false} TMAdvanceKeeps(q: Query, s: Sys, g: Gen)
    requires q.Valid() && Inv(q, s) && Enabled(q, s, TMAdvance(g))
    ensures Inv(q, Next(q, s, TMAdvance(g))) && DeadStay(q, s, Next(q, s, TMAdvance(g)))
  {
    var s' := Next(q, s, TMAdvance(g));
    var o := AdvanceTM(s, g);
    AdvanceSends(q, s, g);
    forall l ensures s.up(l).recv <= |s.up(l).sent| { assert UpOk(q, s, l); }
    assert TMMoves(q, s, s', g, o.sends, None);
    TMMovesGrow(q, s, s', g, o.sends, None);
    assert TMOk(q, s, g);
    assert TMOk(q, s', g) by {
      if s.tm(g).es.Some? { TMEsFrame(q, s, s', g, s.tm(g).es.value); }
    }
    hide Inv, TMMoves, SendsOk, PreparesOnce, TMOk, Grows;
    TMKeeps(q, s, s', g, o.sends);
  }

  // ---------------------------------------------------------------------------------------------
  //  Messages
  // ---------------------------------------------------------------------------------------------

  function Head(s: Sys, l: Link): TMMessage
    requires s.up(l).recv < |s.up(l).sent|
  {
    s.up(l).sent[s.up(l).recv]
  }

  function Reaction(q: Query, s: Sys, l: Link): TMOut
    requires s.up(l).recv < |s.up(l).sent|
  {
    OnTMMessage(q.tm, s.tm(l.tm).es, Head(s, l))
  }

  lemma {:induction false} ReceiveMoves(q: Query, s: Sys, l: Link)
    requires Inv(q, s) && Enabled(q, s, TMReceive(l))
    ensures var s' := Next(q, s, TMReceive(l)); var o := Reaction(q, s, l);
      && TMMoves(q, s, s', l.tm, o.sends, o.decision) && s'.orig == s.orig
      && s'.tm(l.tm) == TMActor(s.tm(l.tm).applied, o.es)
      && UpMsgOk(q, s, l, Head(s, l)) && TMOk(q, s, l.tm)
  {
    forall k ensures s.up(k).recv <= |s.up(k).sent| { assert UpOk(q, s, k); }
    assert UpOk(q, s, l);
  }

  /** What a message makes a transaction manager say: one message to each, or to the waiting one. */
  lemma {:induction false} ReactionSends(q: Query, cur: Option<TMState>, m: TMMessage)
    requires m.query == q.id && (cur.Some? ==> AsksOk(q, cur.value) && cur.value.query == q.id)
    ensures var o := OnTMMessage(q.tm, cur, m);
      forall k | 0 <= k < |o.sends| ::
        var b := o.sends[k].msg;
        b.query == q.id && b.tm == q.tm && !b.Prepare?
        && (b.Commit? ==> o.decision == Some(DecideCommit)) && (b.Abort? ==> o.decision == Some(DecideAbort))
  {
  }

  /** A decision is recorded with the messages that carry it. */
  ghost predicate Recorded(q: Query, s: Sys, o: TMOut) {
    && s.orig.Some?
    && (o.decision.Some? ==> Decided(s, o.decision.value))
    && forall k | 0 <= k < |o.sends| ::
         var b := o.sends[k].msg;
         b.query == q.id && b.tm == q.tm && !b.Prepare?
         && (b.Commit? ==> o.decision == Some(DecideCommit)) && (b.Abort? ==> o.decision == Some(DecideAbort))
  }

  lemma {:induction false} RecordedSends(q: Query, s: Sys, s': Sys, g: Gen, o: TMOut)
    requires Recorded(q, s', o) && g >= s'.orig.value
    ensures SendsOk(q, s, s', g, o.sends)
  {
    hide TMLeader, Decided;
    forall k: Link, j: nat | k.tm == g && k.gen == TMLeader(s', g, k.rm.group) && j < |BodiesTo(o.sends, k.rm)|
      ensures SendOk(q, s, s', k, j, BodiesTo(o.sends, k.rm)[j])
    {
      BodiesAreSent(o.sends, k.rm, j);
    }
  }

  lemma {:induction false} ReactionRecorded(q: Query, s: Sys, l: Link)
    requires Inv(q, s) && Enabled(q, s, TMReceive(l))
    ensures var s' := Next(q, s, TMReceive(l)); var o := Reaction(q, s, l);
      Recorded(q, s', o) && l.tm >= s'.orig.value
      && PreparesOnce(s, s', l.tm, o.sends)
  {
    var s' := Next(q, s, TMReceive(l));
    var o := Reaction(q, s, l);
    ReceiveMoves(q, s, l);
    MovesDecisions(q, s, s', l.tm, o);
    hide Inv, TMMoves, Next, OnTMMessage, Enabled, AnsweredOk, AsksOk, Decided;
    ReactionSends(q, s.tm(l.tm).es, Head(s, l));
    ReactionPreparing(q, s.tm(l.tm).es, Head(s, l));
  }

  lemma {:induction false} MovesDecisions(q: Query, s: Sys, s': Sys, g: Gen, o: TMOut)
    requires TMMoves(q, s, s', g, o.sends, o.decision)
    ensures o.decision.Some? ==> Decided(s', o.decision.value)
  {
    if o.decision.Some? { assert s'.decisions[|s.decisions|] == (g, o.decision.value); }
  }

  lemma {:induction false} ReactionPreparing(q: Query, cur: Option<TMState>, m: TMMessage)
    ensures var o := OnTMMessage(q.tm, cur, m);
      o.es.Some? && o.es.value.Preparing? ==> cur.Some? && cur.value.Preparing?
  {
  }

  lemma {:induction false} ReactionOk(q: Query, s: Sys, l: Link)
    requires Inv(q, s) && Enabled(q, s, TMReceive(l))
    ensures var s' := Next(q, s, TMReceive(l)); var o := Reaction(q, s, l);
      SendsOk(q, s, s', l.tm, o.sends) && PreparesOnce(s, s', l.tm, o.sends)
  {
    ReactionRecorded(q, s, l);
    hide Inv, Next, OnTMMessage, Recorded, Enabled;
    RecordedSends(q, s, Next(q, s, TMReceive(l)), l.tm, Reaction(q, s, l));
  }

  lemma {:induction false} ReactionEs(q: Query, s: Sys, l: Link)
    requires s.up(l).recv < |s.up(l).sent| && UpMsgOk(q, s, l, Head(s, l)) && TMOk(q, s, l.tm)
    ensures var o := Reaction(q, s, l); o.es.Some? ==> TMEsOk(q, s, l.tm, o.es.value)
  {
  }

  lemma {:induction false} ReceiveTMOk(q: Query, s: Sys, l: Link)
    requires Inv(q, s) && Enabled(q, s, TMReceive(l))
    ensures TMOk(q, Next(q, s, TMReceive(l)), l.tm)
  {
    var s' := Next(q, s, TMReceive(l));
    var o := Reaction(q, s, l);
    ReceiveMoves(q, s, l);
    ReactionEs(q, s, l);
    TMMovesGrow(q, s, s', l.tm, o.sends, o.decision);
    hide Inv, TMMoves, Grows, Next, OnTMMessage;
    if o.es.Some? { TMEsFrame(q, s, s', l.tm, o.es.value); }
  }

  /** A unanimous vote. */
  lemma {:induction false} CommitIsUnanimous(q: Query, s: Sys, l: Link)
    requires s.up(l).recv < |s.up(l).sent| && UpMsgOk(q, s, l, Head(s, l)) && TMOk(q, s, l.tm)
    requires Reaction(q, s, l).decision == Some(DecideCommit)
    ensures forall r | r in q.rms :: Entries(s, r) != []
  {
    var es := s.tm(l.tm).es.value;
    forall r | r in q.rms ensures Entries(s, r) != [] {
      assert AnsweredOk(q, s, es);
      if r in es.remaining {
        assert r !in es.remaining - {Head(s, l).rm};
      }
    }
  }

  // ---------------------------------------------------------------------------------------------
  //  A refusal that is accepted is final
  // ---------------------------------------------------------------------------------------------

  /** No later leadership of `r` was ever asked to prepare. */
  lemma {:induction false} NotAskedLater(q: Query, s: Sys, r: RMPath, h: Gen, h': Gen)
    requires Inv(q, s) && r in q.rms && s.orig.Some? && TMLeader(s, s.orig.value, r.group) <= h < h' < |s.rlog(r)|
    ensures PreparedPlm(q.id, q.tm, q.rms) !in Plms(s.rlog(r)[h']) && !PrePrepared(s.rm(r, h').es)
  {
    assert AskedOk(q, s, r, h') && RMOk(q, s, r, h');
  }

  lemma {:induction false} LegalStarts(q: Query, a: seq<RMPlm>, b: seq<RMPlm>)
    requires Legal(q, a + b)
    ensures a != [] ==> PreparedPlm(q.id, q.tm, q.rms) in a
  {
    if a != [] { assert (a + b)[0] == a[0]; }
  }

  lemma {:induction false} FirstEntry(q: Query, log: Log, n: nat)
    requires n < |log| && Legal(q, Plms(Flat(log))) && Plms(Flat(log[..n])) == []
    requires PreparedPlm(q.id, q.tm, q.rms) !in Plms(log[n])
    ensures Plms(Flat(log[..n + 1])) == []
  {
    FlatNext(log, n);
    FlatPrefix(log, n + 1);
    var f, all := Flat(log[..n + 1]), Flat(log);
    var before := Flat(log[..n]);
    hide Flat, Plms, Legal;
    assert all == f + all[|f|..];
    PlmsConcat(before, log[n]);
    PlmsConcat(f, all[|f|..]);
    assert Plms(f) == Plms(log[n]);
    LegalStarts(q, Plms(f), Plms(all[|f|..]));
  }

  lemma {:induction false} FirstNothing(q: Query, s: Sys, r: RMPath, h: Gen)
    requires Inv(q, s) && r in q.rms && Refused(q, s, r, h)
    ensures Plms(Flat(s.rlog(r)[..h + 1])) == []
  {
    assert LogOk(q, s, r) && RMOk(q, s, r, h);
    NothingInserted(q, s, r, h);
  }

  lemma {:induction false} InvLegal(q: Query, s: Sys, r: RMPath)
    requires Inv(q, s) && r in q.rms
    ensures Legal(q, Entries(s, r)) && s.rlog(r) != []
  {
    assert LogOk(q, s, r);
  }

  lemma {:induction false} StillNothing(q: Query, s: Sys, r: RMPath, h: Gen, n: nat)
    requires Inv(q, s) && r in q.rms && Refused(q, s, r, h) && h < n <= |s.rlog(r)|
    requires TMLeader(s, s.orig.value, r.group) <= h
    ensures Plms(Flat(s.rlog(r)[..n])) == []
  {
    hide Inv, Plms, Flat, Legal;
    if n == h + 1 {
      FirstNothing(q, s, r, h);
    } else {
      StillNothing(q, s, r, h, n - 1);
      InvLegal(q, s, r);
      NotAskedLater(q, s, r, h, n - 1);
      FirstEntry(q, s.rlog(r), n - 1);
    }
  }

  /** A leadership of a manager without entries is idle, unless it is about to insert the first. */
  lemma {:induction false} IdleWithoutEntries(q: Query, s: Sys, r: RMPath, k: Gen)
    requires Inv(q, s) && r in q.rms && k < |s.rlog(r)| && Entries(s, r) == [] && !PrePrepared(s.rm(r, k).es)
    ensures s.rm(r, k).es == None
  {
    assert RMOk(q, s, r, k);
    InvLegal(q, s, r);
    hide Inv;
    SeenLegal(q, s, r, k);
    NothingSeen(q, s, r, k);
  }

  lemma {:induction false} NoEntries(q: Query, s: Sys, r: RMPath, h: Gen)
    requires Inv(q, s) && r in q.rms && Refused(q, s, r, h)
    requires TMLeader(s, s.orig.value, r.group) <= h
    ensures Entries(s, r) == [] && s.rm(r, |s.rlog(r)| - 1).es == None
  {
    hide Inv, Plms, Flat, Legal;
    var log := s.rlog(r);
    var n := |log|;
    StillNothing(q, s, r, h, n);
    assert log[..n] == log;
    if n - 1 != h {
      NotAskedLater(q, s, r, h, n - 1);
      IdleWithoutEntries(q, s, r, n - 1);
    }
  }

  /** Nothing the original transaction manager sent can still ask `r` to prepare. */
  lemma {:induction false} NothingInFlight(q: Query, s: Sys, r: RMPath, h: Gen, h': Gen)
    requires Inv(q, s) && s.orig.Some? && s.down(Link(s.orig.value, r, h)).recv >= 1
    requires TMLeader(s, s.orig.value, r.group) <= h <= h'
    ensures NoPrepareLeft(s.down(Link(s.orig.value, r, h')))
  {
    var l := Link(s.orig.value, r, h');
    assert DownOk(q, s, l);
    forall k: nat | s.down(l).recv <= k < |s.down(l).sent| ensures !s.down(l).sent[k].Prepare? {
      assert DownMsgOk(q, s, l, k, s.down(l).sent[k]);
    }
  }

  /** The manager whose refusal is accepted cannot prepare any more. */
  lemma {:induction false} RefusalKills(q: Query, s: Sys, l: Link, s': Sys)
    requires Inv(q, s) && l.rm in q.rms && l.tm < |s.tlog| && TMLeader(s, l.tm, l.rm.group) == l.gen
    requires s.tm(l.tm).es.Some? && Refused(q, s, l.rm, l.gen) && RMLeader(s, l.rm, l.gen, q.tm.group) >= l.tm
    requires s'.tlog == s.tlog && s'.rlog == s.rlog && s'.rm == s.rm && s'.orig == s.orig
    requires s'.tm(l.tm).es == None
    requires forall k: Gen :: NoPrepareLeft(s.down(Link(s.orig.value, l.rm, k))) ==>
                                NoPrepareLeft(s'.down(Link(s.orig.value, l.rm, k)))
    ensures Dead(q, s', l.rm)
  {
    var r, h, g0 := l.rm, l.gen, s.orig.value;
    var n := |s.rlog(r)| - 1;
    assert TMOk(q, s, l.tm);
    LaterTMLeader(s, g0, l.tm, r.group);
    NoEntries(q, s, r, h);
    assert Entries(s', r) == Entries(s, r);
    LaterRMLeader(s, r, h, n, q.tm.group);
    assert RMLeader(s', r, n, q.tm.group) == RMLeader(s, r, n, q.tm.group);
    if RMLeader(s, r, n, q.tm.group) <= g0 {
      assert l.tm == g0;
      forall h': Gen | h' >= n ensures NoPrepareLeft(s'.down(Link(g0, r, h'))) {
        NothingInFlight(q, s, r, h, h');
      }
    }
  }

  /** Nothing but aborts is sent with an abort decision. */
  lemma {:induction false} StillNoPrepare(q: Query, s: Sys, s': Sys, g: Gen, o: TMOut, k: Link)
    requires TMMoves(q, s, s', g, o.sends, o.decision) && Recorded(q, s', o) && NoPrepareLeft(s.down(k))
    ensures NoPrepareLeft(s'.down(k))
  {
    forall j: nat | s'.down(k).recv <= j < |s'.down(k).sent| ensures !s'.down(k).sent[j].Prepare? {
      if j < |s.down(k).sent| {
        assert s'.down(k).sent[j] == s.down(k).sent[j];
      } else {
        BodiesAreSent(o.sends, k.rm, j - |s.down(k).sent|);
      }
    }
  }

  lemma {:induction false} AbortHasVictim(q: Query, s: Sys, l: Link)
    requires Inv(q, s) && Enabled(q, s, TMReceive(l)) && Reaction(q, s, l).decision == Some(DecideAbort)
    requires !Decided(s, DecideAbort) || Entries(s, l.rm) == []
    ensures Dead(q, Next(q, s, TMReceive(l)), l.rm)
  {
    var s' := Next(q, s, TMReceive(l));
    var o := Reaction(q, s, l);
    ReceiveMoves(q, s, l);
    ReactionRecorded(q, s, l);
    assert Head(s, l).Aborted? && s.tm(l.tm).es.Some? && o.es == None;
    hide Inv, OnTMMessage, Next, Recorded, NoPrepareLeft;
    forall k: Gen | NoPrepareLeft(s.down(Link(s.orig.value, l.rm, k)))
      ensures NoPrepareLeft(s'.down(Link(s.orig.value, l.rm, k)))
    {
      StillNoPrepare(q, s, s', l.tm, o, Link(s.orig.value, l.rm, k));
    }
    RefusalKills(q, s, l, s');
  }

  lemma {:induction false} OneMore(s: Sys, s': Sys, g: Gen, d: Option<Decision>)
    requires s'.decisions == s.decisions + (if d.Some? then [(g, d.value)] else [])
    ensures forall c | Decided(s', c) :: Decided(s, c) || d == Some(c)
  {
    forall c | Decided(s', c) ensures Decided(s, c) || d == Some(c) {
      var k :| 0 <= k < |s'.decisions| && s'.decisions[k].1 == c;
      if k < |s.decisions| { assert s.decisions[k].1 == c; }
    }
  }

  lemma {:induction false} ReceiveFate(q: Query, s: Sys, l: Link)
    requires Inv(q, s) && Enabled(q, s, TMReceive(l))
    ensures Fate(q, Next(q, s, TMReceive(l))) && DeadStay(q, s, Next(q, s, TMReceive(l)))
  {
    var s' := Next(q, s, TMReceive(l));
    var o := Reaction(q, s, l);
    ReceiveMoves(q, s, l);
    ReactionOk(q, s, l);
    TMMovesGrow(q, s, s', l.tm, o.sends, o.decision);
    OneMore(s, s', l.tm, o.decision);
    InvFate(q, s);
    if o.decision == Some(DecideAbort) && !Decided(s, DecideAbort) { AbortHasVictim(q, s, l); }
    if o.decision == Some(DecideCommit) { CommitIsUnanimous(q, s, l); }
    hide Inv, Next, Enabled, Reaction, SendsOk, PreparesOnce, Dead, Decided, Entries;
    forall r | r in q.rms && Dead(q, s, r) ensures Dead(q, s', r) {
      TMMovesDead(q, s, s', l.tm, o.sends, o.decision, r);
    }
    FateFollows(q, s, s', l, o);
  }

  lemma {:induction false} FateFollows(q: Query, s: Sys, s': Sys, l: Link, o: TMOut)
    requires Fate(q, s) && Grows(q, s, s') && s.orig.Some? && l.rm in q.rms
    requires s'.tlog == s.tlog && forall c | Decided(s', c) :: Decided(s, c) || o.decision == Some(c)
    requires forall r | r in q.rms && Dead(q, s, r) :: Dead(q, s', r)
    requires o.decision == Some(DecideAbort) && !Decided(s, DecideAbort) ==> Dead(q, s', l.rm)
    requires o.decision == Some(DecideCommit) ==> forall r | r in q.rms :: Entries(s, r) != []
    ensures Fate(q, s')
  {
  }

  lemma {:induction false} TMReceiveKeeps(q: Query, s: Sys, l: Link)
    requires Inv(q, s) && Enabled(q, s, TMReceive(l))
    ensures Inv(q, Next(q, s, TMReceive(l))) && DeadStay(q, s, Next(q, s, TMReceive(l)))
  {
    var s' := Next(q, s, TMReceive(l));
    var o := Reaction(q, s, l);
    ReceiveMoves(q, s, l);
    ReactionOk(q, s, l);
    ReceiveTMOk(q, s, l);
    ReceiveFate(q, s, l);
    hide Inv, Next, Enabled, Reaction, SendsOk, TMMoves, TMOk, Fate, DeadStay;
    TMKeepsRest(q, s, s', l.tm, o.sends, o.decision);
  }
}
