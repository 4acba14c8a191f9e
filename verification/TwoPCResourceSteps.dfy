/** The steps of the resource managers keep the invariant of Paxos2PC. */
module TwoPCResourceSteps {
  import opened Wrappers
  import opened TwoPCTypes
  import opened TwoPCResource
  import opened TwoPCLog
  import opened TwoPCSystem
  import opened TwoPCInvariant
  import opened TwoPCSteps
  import opened TwoPCGroups

  // ---------------------------------------------------------------------------------------------
  //  The state machine alone
  // ---------------------------------------------------------------------------------------------

  /** A step that inserts nothing changes what is expected exactly by what it pushes, and leaves
      unchanged what a follower would know. */
  ghost predicate Quiet(q: Query, es: Option<RMOuter>, o: RMOut) {
    && EsOk(q, o.es) && Snapshot(o.es) == Snapshot(es)
    && Expected(q, o.es) == Expected(q, es) + o.plms
    && (o.sends == [] || exists m :: o.sends == [ToTM(q.tm, m)])
  }

  predicate Addressed(q: Query, m: RMMessage) {
    m.query == q.id && m.tm == q.tm && (m.Prepare? ==> m.rms == q.rms)
  }

  lemma {:induction false} MessageQuiet(q: Query, r: RMPath, leaders: LeaderMap, es: Option<RMOuter>, m: RMMessage, works: bool)
    requires EsOk(q, es) && Addressed(q, m)
    ensures Quiet(q, es, OnRMMessage(r, leaders, es, m, works))
  {
    var o := OnRMMessage(r, leaders, es, m, works);
    if o.sends != [] { assert o.sends == [ToTM(q.tm, o.sends[0].msg)]; }
  }

  lemma {:induction false} StartQuiet(q: Query, es: Option<RMOuter>)
    requires EsOk(q, es)
    ensures Quiet(q, es, StartInserting(es))
  {
  }

  lemma {:induction false} RemoteQuiet(q: Query, es: Option<RMOuter>, g: GroupId)
    requires EsOk(q, es)
    ensures var o := RMRemoteLeaderChanged(es, g);
      && o.es == es && o.plms == []
      && (o.sends == [] || (es.Some? && o.sends == [ToTM(q.tm, InformPrepared(q.id, q.tm, q.rms))]))
  {
  }

  /** When the entry a leadership waits for is inserted, its state follows, its followers agree
      with it, and it waits for exactly what it pushes next. */
  lemma {:induction false} ExpectedEntry(q: Query, r: RMPath, leaders: LeaderMap, es: Option<RMOuter>, p: RMPlm, ps: seq<RMPlm>)
    requires EsOk(q, es) && Expected(q, es) == [p] && Snapshot(es) == Replay(ps)
    ensures PlmFinds(true, es, p)
    ensures var o := OnRMPlm(r, leaders, true, es, p);
      && EsOk(q, o.es) && Snapshot(o.es) == Replay(ps + [p]) && Expected(q, o.es) == o.plms
      && o.es.Some? && !PrePrepared(o.es)
      && (TowardsCommit(o.es) ==> TowardsCommit(es)) && (TowardsAbort(o.es) ==> TowardsAbort(es))
      && (o.sends == [] || o.sends == [ToTM(q.tm, Prepared(q.id, r))]
          || o.sends == [ToTM(q.tm, InformPrepared(q.id, q.tm, q.rms))])
  {
    assert (ps + [p])[..|ps|] == ps;
    assert Replay(ps + [p]) == (if PlmFinds(false, Replay(ps), p)
      then OnRMPlm(RMPath(GroupId(""), 0), map[], false, Replay(ps), p).es else Replay(ps));
  }

  // ---------------------------------------------------------------------------------------------
  //  The step in the system
  // ---------------------------------------------------------------------------------------------

  lemma {:induction false} QuietTracks(q: Query, s: Sys, s': Sys, r: RMPath, h: Gen, o: RMOut)
    requires h < |s.rlog(r)| && RMTracks(q, s, r, h) && s'.rlog(r) == s.rlog(r) && Quiet(q, s.rm(r, h).es, o)
    requires s'.rm(r, h) == RMActor(s.rm(r, h).applied, o.es, s.rm(r, h).pending + o.plms)
    ensures RMTracks(q, s', r, h)
  {
    assert Unseen(s', r, h) == Unseen(s, r, h) && RMView(s', r, h) == RMView(s, r, h);
    hide Unseen, Replay, Plms, RMView, Expected, Snapshot;
    var u, p := Unseen(s, r, h), s.rm(r, h).pending;
    assert u + (p + o.plms) == (u + p) + o.plms;
  }

  /** The effect of `RMActs`, message by message. */
  lemma {:induction false} ActsMoves(q: Query, s: Sys, s0: Sys, r: RMPath, h: Gen, applied: nat, o: RMOut)
    requires s0 == s || exists l :: s0 == TookDown(s, l) && s.down(l).recv < |s.down(l).sent|
    requires s.rm(r, h).applied <= applied && forall l :: s.down(l).recv <= |s.down(l).sent|
    ensures RMMoves(q, s, RMActs(q, s0, r, h, applied, o), r, h, Bodies(o.sends, q.tm))
  {
    hide Bodies, Leader;
  }

  /** A leadership that has just seen, or knew of, the Prepared entry may say so. */
  lemma {:induction false} KnownPrepared(q: Query, s: Sys, r: RMPath, h: Gen)
    requires h < |s.rlog(r)| && RMTracks(q, s, r, h) && Snapshot(s.rm(r, h).es) != None && Legal(q, Entries(s, r))
    ensures Entries(s, r) != []
  {
    SeenLegal(q, s, r, h);
    ReplayLegal(q, Plms(RMView(s, r, h)));
  }

  /** What the invariant says of one leadership, and of every link. */
  lemma {:induction false} InvHere(q: Query, s: Sys, r: RMPath, h: Gen)
    requires Inv(q, s) && r in q.rms && h < |s.rlog(r)|
    ensures RMTracks(q, s, r, h) && RMCauses(q, s, r, h) && Legal(q, Entries(s, r)) && s.rlog(r) != []
    ensures forall k :: s.down(k).recv <= |s.down(k).sent|
  {
    hide RMTracks, RMCauses, Legal, Entries, Decided;
    assert RMOk(q, s, r, h) && LogOk(q, s, r);
    forall k ensures s.down(k).recv <= |s.down(k).sent| { assert DownOk(q, s, k); }
  }

  // ---------------------------------------------------------------------------------------------
  //  Messages
  // ---------------------------------------------------------------------------------------------

  /** What delivering the message at the head of `l` finds. */
  ghost predicate Delivering(q: Query, s: Sys, l: Link) {
    && l.rm in q.rms && l.gen < |s.rlog(l.rm)| && s.down(l).recv < |s.down(l).sent|
    && RMLeader(s, l.rm, l.gen, q.tm.group) == l.tm
    && s.rlog(l.rm) != [] && Legal(q, Entries(s, l.rm))
    && RMTracks(q, s, l.rm, l.gen) && RMCauses(q, s, l.rm, l.gen) && DownOk(q, s, l)
  }

  function Head(s: Sys, l: Link): RMMessage
    requires s.down(l).recv < |s.down(l).sent|
  {
    s.down(l).sent[s.down(l).recv]
  }

  function Answer(q: Query, s: Sys, l: Link, works: bool): RMOut
    requires s.down(l).recv < |s.down(l).sent|
  {
    OnRMMessage(l.rm, Leaders(RMView(s, l.rm, l.gen), q.tm.group), s.rm(l.rm, l.gen).es, Head(s, l), works)
  }

  /** The state `s'` after the message is taken and answered. */
  ghost predicate Delivered(q: Query, s: Sys, l: Link, works: bool, s': Sys)
    requires s.down(l).recv < |s.down(l).sent|
  {
    var a := s.rm(l.rm, l.gen);
    var o := Answer(q, s, l, works);
    s'.tlog == s.tlog && s'.tm == s.tm && s'.rlog == s.rlog && s'.orig == s.orig && s'.decisions == s.decisions
    && s'.rm(l.rm, l.gen) == RMActor(a.applied, o.es, a.pending + o.plms)
    && s'.down(l) == Chan(s.down(l).sent, s.down(l).recv + 1)
  }

  lemma {:induction false} DeliveredMayBegin(q: Query, s: Sys, l: Link, works: bool, s': Sys)
    requires Delivering(q, s, l) && Delivered(q, s, l, works, s')
    ensures MayBegin(q, s, s', l.rm, l.gen)
  {
    var m := Head(s, l);
    assert DownMsgOk(q, s, l, s.down(l).recv, m);
    var r, h := l.rm, l.gen;
    if s.rm(r, h).es == None && s'.rm(r, h).es != None {
      assert m.Prepare? && s.down(l).recv == 0 && l == Link(s.orig.value, r, h);
      assert RMLeader(s, r, h, q.tm.group) == s.orig.value;
      assert !NoPrepareLeft(s.down(l));
      hide Legal, Entries, RMTracks, RMCauses;
    }
  }

  /** Where a message can take an execution. */
  lemma {:induction false} MessageLeads(r: RMPath, leaders: LeaderMap, es: Option<RMOuter>, m: RMMessage, works: bool)
    ensures var o := OnRMMessage(r, leaders, es, m, works);
      && (o.es.Some? ==> es.Some? || m.Prepare?) && (PrePrepared(o.es) ==> PrePrepared(es) || m.Prepare?)
      && (TowardsCommit(o.es) ==> TowardsCommit(es) || m.Commit?)
      && (TowardsAbort(o.es) ==> TowardsAbort(es) || m.Abort?)
  {
  }

  lemma {:induction false} DeliveredCauses(q: Query, s: Sys, l: Link, works: bool, s': Sys)
    requires Delivering(q, s, l) && Delivered(q, s, l, works, s')
    ensures RMCauses(q, s', l.rm, l.gen)
  {
    var m := Head(s, l);
    assert DownMsgOk(q, s, l, s.down(l).recv, m);
    assert RMView(s', l.rm, l.gen) == RMView(s, l.rm, l.gen);
    assert forall g: Gen, group :: TMLeader(s, g, group) == TMLeader(s', g, group);
    assert forall d :: Decided(s, d) == Decided(s', d);
    MessageLeads(l.rm, Leaders(RMView(s, l.rm, l.gen), q.tm.group), s.rm(l.rm, l.gen).es, m, works);
    hide Legal, Entries, RMTracks, RMView, TMLeader, Decided, DownOk, OnRMMessage, PrePrepared, TowardsCommit, TowardsAbort;
  }

  /** What a message can be answered with. */
  lemma {:induction false} MessageAnswers(q: Query, r: RMPath, leaders: LeaderMap, es: Option<RMOuter>, m: RMMessage, works: bool)
    requires EsOk(q, es) && Addressed(q, m)
    ensures var o := OnRMMessage(r, leaders, es, m, works);
      || o.sends == []
      || (o.sends == [ToTM(q.tm, Prepared(q.id, r))] && Snapshot(es) != None)
      || o.sends == [ToTM(q.tm, Wait(q.id, r))]
      || (o.sends == [ToTM(q.tm, Aborted(q.id, r))]
          && ((es == None && o.es == None) || es == Some(HasAborted)))
  {
  }

  /** A refusal: nothing sent by the original transaction manager can be delivered any more. */
  lemma {:induction false} NowRefused(q: Query, s: Sys, l: Link, works: bool, s': Sys)
    requires Delivering(q, s, l) && Delivered(q, s, l, works, s') && s'.rm(l.rm, l.gen).es == None
    ensures Refused(q, s', l.rm, l.gen) && RMLeader(s', l.rm, l.gen, q.tm.group) >= l.tm
  {
    assert DownMsgOk(q, s, l, s.down(l).recv, Head(s, l));
    assert RMView(s', l.rm, l.gen) == RMView(s, l.rm, l.gen);
    hide Legal, Entries, RMTracks, RMCauses, Leader, View;
    assert RMLeader(s', l.rm, l.gen, q.tm.group) == l.tm;
    if l.tm == s.orig.value { assert l == Link(s.orig.value, l.rm, l.gen); }
  }

  lemma {:induction false} AnswerOk(q: Query, s: Sys, l: Link, works: bool, s': Sys, m: TMMessage)
    requires Delivering(q, s, l) && Delivered(q, s, l, works, s')
    requires m in Bodies(Answer(q, s, l, works).sends, q.tm)
    ensures UpMsgOk(q, s', l, m)
  {
    AnswerIs(q, s, l, works, m);
    assert Entries(s', l.rm) == Entries(s, l.rm);
    assert forall d :: Decided(s, d) == Decided(s', d);
    hide Legal, Entries, RMTracks, RMLeader, Refused, OnRMMessage, Bodies, Decided, Snapshot;
    if m.Prepared? || s.rm(l.rm, l.gen).es == Some(HasAborted) { KnownAnswer(q, s, l); }
    if m.Aborted? && s.rm(l.rm, l.gen).es == None { NowRefused(q, s, l, works, s'); }
  }

  lemma {:induction false} KnownAnswer(q: Query, s: Sys, l: Link)
    requires Delivering(q, s, l) && Snapshot(s.rm(l.rm, l.gen).es) != None
    ensures Entries(s, l.rm) != []
  {
    hide RMTracks, Legal, Entries, RMCauses, DownOk, Snapshot;
    KnownPrepared(q, s, l.rm, l.gen);
  }

  /** The one message of an answer, and what it says of the state answered from. */
  lemma {:induction false} AnswerIs(q: Query, s: Sys, l: Link, works: bool, m: TMMessage)
    requires Delivering(q, s, l) && m in Bodies(Answer(q, s, l, works).sends, q.tm)
    ensures s.orig.Some? && l.tm >= s.orig.value && m.query == q.id && !m.InformPrepared?
    ensures var es := s.rm(l.rm, l.gen).es;
      && (m.Prepared? ==> m.rm == l.rm && Snapshot(es) != None)
      && (m.Aborted? ==> (es == None && Answer(q, s, l, works).es == None)
                         || (es == Some(HasAborted) && Snapshot(es) != None && Decided(s, DecideAbort)))
  {
    var x := Head(s, l);
    assert DownMsgOk(q, s, l, s.down(l).recv, x);
    var es := s.rm(l.rm, l.gen).es;
    var sends := Answer(q, s, l, works).sends;
    MessageAnswers(q, l.rm, Leaders(RMView(s, l.rm, l.gen), q.tm.group), es, x, works);
    OneBody(q.tm, if sends != [] then sends[0] else ToTM(q.tm, m));
    hide Legal, Entries, RMTracks, RMLeader, OnRMMessage, Bodies, Decided, DownOk;
  }

  lemma {:induction false} ReceiveIsDelivered(q: Query, s: Sys, l: Link, works: bool)
    requires Inv(q, s) && Enabled(q, s, RMReceive(l, works))
    ensures var s' := Next(q, s, RMReceive(l, works));
      && Delivering(q, s, l) && Delivered(q, s, l, works, s')
      && RMLeader(s', l.rm, l.gen, q.tm.group) == l.tm
      && RMMoves(q, s, s', l.rm, l.gen, Bodies(Answer(q, s, l, works).sends, q.tm))
      && Addressed(q, Head(s, l))
  {
    InvHere(q, s, l.rm, l.gen);
    assert DownOk(q, s, l);
    assert DownMsgOk(q, s, l, s.down(l).recv, Head(s, l));
    hide Inv, RMTracks, RMCauses, Legal, RMMoves, Answer, OnRMMessage, Leader, Bodies;
    ActsMoves(q, s, TookDown(s, l), l.rm, l.gen, s.rm(l.rm, l.gen).applied, Answer(q, s, l, works));
  }

  lemma {:induction false} RMReceiveKeeps(q: Query, s: Sys, l: Link, works: bool)
    requires Inv(q, s) && Enabled(q, s, RMReceive(l, works))
    ensures Inv(q, Next(q, s, RMReceive(l, works))) && DeadStay(q, s, Next(q, s, RMReceive(l, works)))
  {
    var s' := Next(q, s, RMReceive(l, works));
    ReceiveIsDelivered(q, s, l, works);
    hide Inv, Enabled, Next, RMMoves;
    DeliveredMayBegin(q, s, l, works, s');
    DeliveredCauses(q, s, l, works, s');
    MessageQuiet(q, l.rm, Leaders(RMView(s, l.rm, l.gen), q.tm.group), s.rm(l.rm, l.gen).es, Head(s, l), works);
    QuietTracks(q, s, s', l.rm, l.gen, Answer(q, s, l, works));
    forall m | m in Bodies(Answer(q, s, l, works).sends, q.tm) ensures UpMsgOk(q, s', l, m) {
      AnswerOk(q, s, l, works, s', m);
    }
    RMKeeps(q, s, s', l.rm, l.gen, Bodies(Answer(q, s, l, works).sends, q.tm));
  }

  // ---------------------------------------------------------------------------------------------
  //  Starting to insert
  // ---------------------------------------------------------------------------------------------

  lemma {:induction false} StartLeads(es: Option<RMOuter>)
    ensures var o := StartInserting(es);
      && o.sends == [] && (o.es.Some? <==> es.Some?) && (PrePrepared(o.es) <==> PrePrepared(es))
      && (TowardsCommit(o.es) <==> TowardsCommit(es)) && (TowardsAbort(o.es) <==> TowardsAbort(es))
  {
  }

  lemma {:induction false} RMStartKeeps(q: Query, s: Sys, r: RMPath, h: Gen)
    requires Inv(q, s) && Enabled(q, s, RMStart(r, h))
    ensures Inv(q, Next(q, s, RMStart(r, h))) && DeadStay(q, s, Next(q, s, RMStart(r, h)))
  {
    var s' := Next(q, s, RMStart(r, h));
    var o := StartInserting(s.rm(r, h).es);
    forall k ensures s.down(k).recv <= |s.down(k).sent| { assert DownOk(q, s, k); }
    ActsMoves(q, s, s, r, h, s.rm(r, h).applied, o);
    assert RMOk(q, s, r, h);
    hide Inv, Enabled, RMMoves;
    StartQuiet(q, s.rm(r, h).es);
    StartLeads(s.rm(r, h).es);
    QuietTracks(q, s, s', r, h, o);
    assert RMCauses(q, s', r, h) by {
      assert RMView(s', r, h) == RMView(s, r, h);
      assert forall d :: Decided(s, d) == Decided(s', d);
    }
    assert Bodies(o.sends, q.tm) == [];
    RMKeeps(q, s, s', r, h, []);
  }

  // ---------------------------------------------------------------------------------------------
  //  Insertions
  // ---------------------------------------------------------------------------------------------

  /** Leadership `h` of `r` sees the next entry of its stretch. */
  ghost predicate Advanced(s: Sys, r: RMPath, h: Gen, o: RMOut, s': Sys) {
    var a := s.rm(r, h);
    s'.tlog == s.tlog && s'.tm == s.tm && s'.rlog == s.rlog && s'.orig == s.orig && s'.decisions == s.decisions
    && s'.rm(r, h) == RMActor(a.applied + 1, o.es, a.pending + o.plms)
  }

  lemma {:induction false} NextUnseen(s: Sys, r: RMPath, h: Gen)
    requires h < |s.rlog(r)| && s.rm(r, h).applied < |s.rlog(r)[h]|
    ensures var e := s.rlog(r)[h][s.rm(r, h).applied];
      && Unseen(s, r, h) == Plms([e]) + Plms(s.rlog(r)[h][s.rm(r, h).applied + 1..])
      && Plms([e]) == (if e.Insertion? then [e.plm] else [])
  {
    var seg, a := s.rlog(r)[h], s.rm(r, h).applied;
    assert seg[a..] == [seg[a]] + seg[a + 1..];
    PlmsConcat([seg[a]], seg[a + 1..]);
  }

  lemma {:induction false} AdvancedView(s: Sys, r: RMPath, h: Gen, o: RMOut, s': Sys)
    requires h < |s.rlog(r)| && s.rm(r, h).applied < |s.rlog(r)[h]| && Advanced(s, r, h, o, s')
    ensures var e := s.rlog(r)[h][s.rm(r, h).applied];
      && RMView(s', r, h) == RMView(s, r, h) + [e]
      && Plms(RMView(s', r, h)) == Plms(RMView(s, r, h)) + Plms([e])
      && Unseen(s, r, h) == Plms([e]) + Unseen(s', r, h)
      && Plms([e]) == (if e.Insertion? then [e.plm] else [])
      && RMLeader(s, r, h, GroupId("")) <= RMLeader(s', r, h, GroupId(""))
      && (forall group :: RMLeader(s, r, h, group) <= RMLeader(s', r, h, group))
  {
    var e := s.rlog(r)[h][s.rm(r, h).applied];
    ViewStep(s.rlog(r), h, s.rm(r, h).applied);
    PlmsConcat(RMView(s, r, h), [e]);
    NextUnseen(s, r, h);
    forall group ensures RMLeader(s, r, h, group) <= RMLeader(s', r, h, group) {
      RMLeaderAdvances(s, s', r, h, group);
    }
  }

  /** The entry a leadership is about to see is the one it expects. */
  lemma {:induction false} SeesExpected(q: Query, s: Sys, r: RMPath, h: Gen)
    requires h < |s.rlog(r)| && s.rm(r, h).applied < |s.rlog(r)[h]| && RMTracks(q, s, r, h)
    requires s.rlog(r)[h][s.rm(r, h).applied].Insertion?
    ensures Expected(q, s.rm(r, h).es) == [s.rlog(r)[h][s.rm(r, h).applied].plm]
    ensures Plms(s.rlog(r)[h][s.rm(r, h).applied + 1..]) == []
    ensures h == |s.rlog(r)| - 1 ==> s.rm(r, h).pending == []
  {
    NextUnseen(s, r, h);
    var x, u := Expected(q, s.rm(r, h).es), Unseen(s, r, h);
    assert |x| <= 1 && |u| >= 1;
    if h == |s.rlog(r)| - 1 { assert |u + s.rm(r, h).pending| == |x|; }
  }

  /** The outcome of seeing a leader change. */
  ghost predicate SeesRemote(q: Query, s: Sys, r: RMPath, h: Gen, o: RMOut, s': Sys) {
    && h < |s.rlog(r)| && s.rm(r, h).applied < |s.rlog(r)[h]| && RMTracks(q, s, r, h) && RMCauses(q, s, r, h)
    && s.rlog(r)[h][s.rm(r, h).applied].RemoteLeader? && Advanced(s, r, h, o, s')
    && o.es == s.rm(r, h).es && o.plms == []
    && (o.sends == [] || (o.es.Some? && o.sends == [ToTM(q.tm, InformPrepared(q.id, q.tm, q.rms))]))
  }

  lemma {:induction false} RemoteTracks(q: Query, s: Sys, r: RMPath, h: Gen, o: RMOut, s': Sys)
    requires SeesRemote(q, s, r, h, o, s')
    ensures RMTracks(q, s', r, h)
  {
    AdvancedView(s, r, h, o, s');
    assert Unseen(s', r, h) == Unseen(s, r, h);
    assert s'.rm(r, h).pending == s.rm(r, h).pending;
    assert Plms(RMView(s', r, h)) == Plms(RMView(s, r, h));
  }

  lemma {:induction false} RemoteCauses(q: Query, s: Sys, r: RMPath, h: Gen, o: RMOut, s': Sys)
    requires SeesRemote(q, s, r, h, o, s')
    ensures RMCauses(q, s', r, h) && s'.rm(r, h).es == s.rm(r, h).es
  {
    AdvancedView(s, r, h, o, s');
    assert forall d :: Decided(s, d) == Decided(s', d);
  }

  lemma {:induction false} RemoteAnswer(q: Query, s: Sys, r: RMPath, h: Gen, o: RMOut, s': Sys, m: TMMessage)
    requires SeesRemote(q, s, r, h, o, s') && m in Bodies(o.sends, q.tm)
    ensures UpMsgOk(q, s', Link(RMLeader(s', r, h, q.tm.group), r, h), m)
  {
    AdvancedView(s, r, h, o, s');
    OneBody(q.tm, ToTM(q.tm, m));
    OneBody(q.tm, if o.sends != [] then o.sends[0] else ToTM(q.tm, m));
  }

  /** The outcome of seeing an entry of the query. */
  ghost predicate SeesEntry(q: Query, s: Sys, r: RMPath, h: Gen, o: RMOut, s': Sys) {
    && h < |s.rlog(r)| && s.rm(r, h).applied < |s.rlog(r)[h]| && RMTracks(q, s, r, h) && RMCauses(q, s, r, h)
    && s.rlog(r)[h][s.rm(r, h).applied].Insertion? && Advanced(s, r, h, o, s')
    && var p := s.rlog(r)[h][s.rm(r, h).applied].plm;
       && Expected(q, s.rm(r, h).es) == [p] && PlmFinds(true, s.rm(r, h).es, p)
       && o == OnRMPlm(r, Leaders(RMView(s, r, h), q.tm.group), true, s.rm(r, h).es, p)
  }

  lemma {:induction false} EntryTracks(q: Query, s: Sys, r: RMPath, h: Gen, o: RMOut, s': Sys)
    requires SeesEntry(q, s, r, h, o, s')
    ensures RMTracks(q, s', r, h)
  {
    SeesExpected(q, s, r, h);
    AdvancedView(s, r, h, o, s');
    var p := s.rlog(r)[h][s.rm(r, h).applied].plm;
    ExpectedEntry(q, r, Leaders(RMView(s, r, h), q.tm.group), s.rm(r, h).es, p, Plms(RMView(s, r, h)));
    assert Unseen(s', r, h) == [];
  }

  lemma {:induction false} EntryCauses(q: Query, s: Sys, r: RMPath, h: Gen, o: RMOut, s': Sys)
    requires SeesEntry(q, s, r, h, o, s')
    ensures RMCauses(q, s', r, h) && s.rm(r, h).es != None
  {
    AdvancedView(s, r, h, o, s');
    var p := s.rlog(r)[h][s.rm(r, h).applied].plm;
    ExpectedEntry(q, r, Leaders(RMView(s, r, h), q.tm.group), s.rm(r, h).es, p, Plms(RMView(s, r, h)));
    assert forall d :: Decided(s, d) == Decided(s', d);
    hide OnRMPlm, RMView, View, Leader, RMTracks, Decided, TowardsCommit, TowardsAbort, PrePrepared, Plms, Unseen, Snapshot, Replay;
  }

  lemma {:induction false} EntryAnswer(q: Query, s: Sys, r: RMPath, h: Gen, o: RMOut, s': Sys, m: TMMessage)
    requires SeesEntry(q, s, r, h, o, s') && RMTracks(q, s', r, h) && RMCauses(q, s', r, h)
    requires Legal(q, Entries(s', r)) && m in Bodies(o.sends, q.tm)
    ensures UpMsgOk(q, s', Link(RMLeader(s', r, h, q.tm.group), r, h), m)
  {
    EntryMessage(q, s, r, h, o, s', m);
    hide SeesEntry, Legal, RMTracks, Decided, Bodies, Leader, View, Snapshot;
    KnownPrepared(q, s', r, h);
  }

  lemma {:induction false} EntryMessage(q: Query, s: Sys, r: RMPath, h: Gen, o: RMOut, s': Sys, m: TMMessage)
    requires SeesEntry(q, s, r, h, o, s') && m in Bodies(o.sends, q.tm)
    ensures Snapshot(s'.rm(r, h).es) != None && s'.rm(r, h).es.Some? && h < |s'.rlog(r)|
    ensures m == Prepared(q.id, r) || m == InformPrepared(q.id, q.tm, q.rms)
  {
    var p := s.rlog(r)[h][s.rm(r, h).applied].plm;
    ExpectedEntry(q, r, Leaders(RMView(s, r, h), q.tm.group), s.rm(r, h).es, p, Plms(RMView(s, r, h)));
    OneBody(q.tm, if o.sends != [] then o.sends[0] else ToTM(q.tm, m));
    hide OnRMPlm, RMTracks, RMCauses, Bodies, Leader, View, Expected, EsOk, Replay, Plms;
  }

  // Either kind of entry.

  lemma {:induction false} AdvanceMoves(q: Query, s: Sys, r: RMPath, h: Gen)
    requires Inv(q, s) && Enabled(q, s, RMAdvance(r, h))
    ensures var s' := Next(q, s, RMAdvance(r, h));
      && RMMoves(q, s, s', r, h, Bodies(AdvanceRM(q, s, r, h).sends, q.tm))
      && Advanced(s, r, h, AdvanceRM(q, s, r, h), s') && Entries(s', r) == Entries(s, r)
      && RMTracks(q, s, r, h) && RMCauses(q, s, r, h) && Legal(q, Entries(s, r))
  {
    InvHere(q, s, r, h);
    var s' := Next(q, s, RMAdvance(r, h));
    var o := AdvanceRM(q, s, r, h);
    assert s' == RMActs(q, s, r, h, s.rm(r, h).applied + 1, o);
    hide Inv, Next, AdvanceRM, Enabled, RMTracks, RMCauses, Legal, RMMoves, AdvanceFinds;
    ActsMoves(q, s, s, r, h, s.rm(r, h).applied + 1, o);
    ActsAdvance(q, s, r, h, o);
  }

  lemma {:induction false} ActsAdvance(q: Query, s: Sys, r: RMPath, h: Gen, o: RMOut)
    ensures var s' := RMActs(q, s, r, h, s.rm(r, h).applied + 1, o);
      Advanced(s, r, h, o, s') && Entries(s', r) == Entries(s, r)
  {
    hide Bodies, Leader, Plms, Flat, View;
  }

  lemma {:induction false} AdvanceSees(q: Query, s: Sys, r: RMPath, h: Gen, s': Sys)
    requires h < |s.rlog(r)| && s.rm(r, h).applied < |s.rlog(r)[h]| && AdvanceFinds(s, r, h)
    requires Advanced(s, r, h, AdvanceRM(q, s, r, h), s') && RMTracks(q, s, r, h) && RMCauses(q, s, r, h)
    ensures SeesRemote(q, s, r, h, AdvanceRM(q, s, r, h), s') || SeesEntry(q, s, r, h, AdvanceRM(q, s, r, h), s')
  {
    var e := s.rlog(r)[h][s.rm(r, h).applied];
    if e.Insertion? {
      SeesExpected(q, s, r, h);
    } else {
      RemoteQuiet(q, s.rm(r, h).es, e.group);
    }
  }

  /** What seeing an entry leaves to be shown, from either outcome. */
  lemma {:induction false} SeesKeeps(q: Query, s: Sys, r: RMPath, h: Gen, o: RMOut, s': Sys)
    requires SeesRemote(q, s, r, h, o, s') || SeesEntry(q, s, r, h, o, s')
    requires Legal(q, Entries(s', r))
    ensures RMOk(q, s', r, h) && MayBegin(q, s, s', r, h)
    ensures forall m | m in Bodies(o.sends, q.tm) :: UpMsgOk(q, s', Link(RMLeader(s', r, h, q.tm.group), r, h), m)
  {
    hide Legal, Entries, RMTracks, RMCauses, UpMsgOk, Bodies, SeesEntry, SeesRemote, Refused, Dead;
    if SeesEntry(q, s, r, h, o, s') {
      EntryTracks(q, s, r, h, o, s');
      EntryCauses(q, s, r, h, o, s');
      forall m | m in Bodies(o.sends, q.tm) ensures UpMsgOk(q, s', Link(RMLeader(s', r, h, q.tm.group), r, h), m) {
        EntryAnswer(q, s, r, h, o, s', m);
      }
    } else {
      RemoteTracks(q, s, r, h, o, s');
      RemoteCauses(q, s, r, h, o, s');
      forall m | m in Bodies(o.sends, q.tm) ensures UpMsgOk(q, s', Link(RMLeader(s', r, h, q.tm.group), r, h), m) {
        RemoteAnswer(q, s, r, h, o, s', m);
      }
    }
  }

  lemma {:induction false} RMAdvanceKeeps(q: Query, s: Sys, r: RMPath, h: Gen)
    requires Inv(q, s) && Enabled(q, s, RMAdvance(r, h))
    ensures Inv(q, Next(q, s, RMAdvance(r, h))) && DeadStay(q, s, Next(q, s, RMAdvance(r, h)))
  {
    var s' := Next(q, s, RMAdvance(r, h));
    var o := AdvanceRM(q, s, r, h);
    AdvanceMoves(q, s, r, h);
    AdvanceSees(q, s, r, h, s');
    hide Inv, RMMoves, Next, RMTracks, RMCauses, AdvanceRM, Legal, SeesEntry, SeesRemote, RMOk, UpMsgOk;
    SeesKeeps(q, s, r, h, o, s');
    RMKeeps(q, s, s', r, h, Bodies(o.sends, q.tm));
  }
}
