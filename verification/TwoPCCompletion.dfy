/** What Paxos2PC brings about: a decision is told to everybody it concerns, and once leaderships no
    longer change and nothing is left to deliver, no manager is left waiting for one. */
module TwoPCCompletion {
  import opened Wrappers
  import opened TwoPCTypes
  import opened TwoPCResource
  import opened TwoPCManager
  import opened TwoPCLog
  import opened TwoPCSystem
  import opened TwoPCInvariant
  import opened TwoPCResourceSteps
  import opened TwoPCCells
  import opened TwoPCProgress
  import opened TwoPCTheorems
  import MS = TwoPCManagerSteps

  lemma {:induction false} RunLive(q: Query, states: seq<Sys>, events: seq<Event>, k: nat)
    requires q.Valid() && Run(q, states, events) && k < |states|
    ensures Inv(q, states[k]) && Live(q, states[k])
  {
    RunKeeps(q, states, events, k);
    hide Inv, Live;
    if k == 0 {
      LiveInitially(q);
    } else {
      RunLive(q, states, events, k - 1);
      StepLive(q, states[k - 1], events[k - 1]);
    }
  }

  // ---------------------------------------------------------------------------------------------
  //  A decision is told to everybody
  // ---------------------------------------------------------------------------------------------

  function Telling(q: Query, d: Decision): RMMessage {
    if d == DecideCommit then Commit(q.id, q.tm) else Abort(q.id, q.tm)
  }

  /** A decision is made by leadership `g` of the transaction manager, which tells it once to the
      leadership it knows of each resource manager, tells nobody else anything, and is done. */
  ghost predicate Tells(q: Query, s: Sys, s': Sys, g: Gen, d: Decision) {
    && s'.decisions == s.decisions + [(g, d)] && s'.tm(g).es.None?
    && forall l :: s'.down(l).recv == s.down(l).recv && s'.down(l).sent == s.down(l).sent
                     + if l.tm == g && l.rm in q.rms && l.gen == TMLeader(s, g, l.rm.group) then [Telling(q, d)] else []
  }

  lemma {:induction false} ToAllOnly(q: Query, m: RMMessage, r: RMPath)
    requires q.Valid()
    ensures BodiesTo(ToAll(q.rms, m), r) == if r in q.rms then [m] else []
  {
    EachGetsOne(q.rms, ToAll(q.rms, m), r, m);
  }

  lemma {:induction false} DecidingReaction(q: Query, s: Sys, l: Link)
    requires Inv(q, s) && Enabled(q, s, TMReceive(l)) && MS.Reaction(q, s, l).decision.Some?
    ensures var o := MS.Reaction(q, s, l);
      o == TMOut(None, ToAll(q.rms, Telling(q, o.decision.value)), o.decision)
  {
    assert TMOk(q, s, l.tm) && UpOk(q, s, l);
    assert UpMsgOk(q, s, l, MS.Head(s, l));
  }

  lemma {:induction false} StepTells(q: Query, s: Sys, e: Event)
    requires q.Valid() && Inv(q, s) && Enabled(q, s, e) && Next(q, s, e).decisions != s.decisions
    ensures var s' := Next(q, s, e);
      |s'.decisions| == |s.decisions| + 1 && var (g, d) := s'.decisions[|s.decisions|]; Tells(q, s, s', g, d)
  {
    OnlyRepliesDecide(q, s, e);
    var l, s' := e.link, Next(q, s, e);
    var o := MS.Reaction(q, s, l);
    assert s' == TMActs(TookUp(s, l), l.tm, s.tm(l.tm).applied, o);
    assert o.decision.Some? by { hide OnTMMessage, BodiesTo; }
    hide Inv, Next, Enabled, OnTMMessage, TMLeader, ToAll, BodiesTo, MS.Reaction, Telling, TMActs, q.Valid;
    DecidingReaction(q, s, l);
    ActsTell(q, s, l, o.decision.value);
  }

  lemma {:induction false} OnlyRepliesDecide(q: Query, s: Sys, e: Event)
    requires Enabled(q, s, e) && Next(q, s, e).decisions != s.decisions
    ensures e.TMReceive?
  {
    hide OnTMMessage, BodiesTo, Bodies, Leader, View, OnRMMessage, OnRMPlm;
  }

  lemma {:induction false} ActsTell(q: Query, s: Sys, l: Link, d: Decision)
    requires q.Valid()
    ensures Tells(q, s, TMActs(TookUp(s, l), l.tm, s.tm(l.tm).applied, TMOut(None, ToAll(q.rms, Telling(q, d)), Some(d))), l.tm, d)
  {
    var s' := TMActs(TookUp(s, l), l.tm, s.tm(l.tm).applied, TMOut(None, ToAll(q.rms, Telling(q, d)), Some(d)));
    hide ToAll, BodiesTo, Telling, Leader, View;
    forall k ensures s'.down(k).recv == s.down(k).recv && s'.down(k).sent == s.down(k).sent
      + if k.tm == l.tm && k.rm in q.rms && k.gen == TMLeader(s, l.tm, k.rm.group) then [Telling(q, d)] else []
    {
      ToAllOnly(q, Telling(q, d), k.rm);
      assert s.down(k).sent + [] == s.down(k).sent;
    }
  }

  /** Whenever a step adds a decision, everybody is told that decision. */
  lemma {:induction false} DecisionsAreTold(q: Query, states: seq<Sys>, events: seq<Event>, k: nat)
    requires q.Valid() && Run(q, states, events) && k < |events| && states[k + 1].decisions != states[k].decisions
    ensures var s, s' := states[k], states[k + 1];
      |s'.decisions| == |s.decisions| + 1 && var (g, d) := s'.decisions[|s.decisions|]; Tells(q, s, s', g, d)
  {
    RunKeeps(q, states, events, k);
    StepTells(q, states[k], events[k]);
  }

  // ---------------------------------------------------------------------------------------------
  //  Nobody is left waiting
  // ---------------------------------------------------------------------------------------------

  /** Leadership `g` of the transaction manager and leadership `h` of `r` know of each other, have
      nothing left to deliver to each other, and `r` has nothing left to begin or to insert. */
  ghost predicate SettledAt(q: Query, s: Sys, g: Gen, r: RMPath, h: Gen) {
    && h < |s.rlog(r)| && TMLeader(s, g, r.group) == h && RMLeader(s, r, h, q.tm.group) == g
    && s.rm(r, h).applied == |s.rlog(r)[h]| && s.rm(r, h).pending == [] && StartInserting(s.rm(r, h).es).plms == []
    && var l := Link(g, r, h);
       s.down(l).recv == |s.down(l).sent| && s.up(l).recv == |s.up(l).sent|
  }

  /** The current leaderships are settled with each other. */
  ghost predicate Settled(q: Query, s: Sys) {
    s.tlog != [] && forall r | r in q.rms :: s.rlog(r) != [] && SettledAt(q, s, |s.tlog| - 1, r, |s.rlog(r)| - 1)
  }

  /** The states in which a settled manager can be. */
  lemma {:induction false} SettledState(q: Query, s: Sys, g: Gen, r: RMPath)
    requires Inv(q, s) && r in q.rms && s.rlog(r) != [] && SettledAt(q, s, g, r, |s.rlog(r)| - 1)
    ensures var es := s.rm(r, |s.rlog(r)| - 1).es;
      && Snapshot(es) == Replay(Entries(s, r)) && !Unprepared(es)
      && (es == None || es == Some(HasCommitted) || es == Some(HasAborted) || InState(es, HasPrepared))
  {
    var h := |s.rlog(r)| - 1;
    InvHere(q, s, r, h);
    assert Unseen(s, r, h) == [];
    EntriesSplit(q, s, r);
    assert Plms(RMView(s, r, h)) == Entries(s, r);
    assert Expected(q, s.rm(r, h).es) == [];
  }

  /** A transaction manager that has settled with everybody waits for nobody. */
  lemma {:induction false} SettledAsker(q: Query, s: Sys, g: Gen, r: RMPath, h: Gen)
    requires Inv(q, s) && Live(q, s) && r in q.rms && h == |s.rlog(r)| - 1 && SettledAt(q, s, g, r, h)
    ensures s.tm(g).es.Some? ==> r !in s.tm(g).es.value.remaining
  {
    var l := Link(g, r, h);
    CellHere(q, s, l);
    SettledState(q, s, g, r);
    hide Inv, Live;
  }

  lemma {:induction false} SettledIsDone(q: Query, s: Sys)
    requires Inv(q, s) && Live(q, s) && Settled(q, s) && q.rms != []
    ensures s.tm(|s.tlog| - 1).es.None?
  {
    var g := |s.tlog| - 1;
    assert Awaits(q, s, g) && TMOk(q, s, g);
    if s.tm(g).es.Some? {
      var es := s.tm(g).es.value;
      var r :| r in es.remaining;
      assert r in q.rms && SettledAt(q, s, g, r, |s.rlog(r)| - 1);
      hide Inv, Live, SettledAt;
      SettledAsker(q, s, g, r, |s.rlog(r)| - 1);
    }
  }

  /** With nothing under way, a manager that is known to the transaction manager it knows, and that
      was prepared, would have been asked; and whoever was asked has been told. */
  lemma {:induction false} SettledCell(l: Link, c: Cell)
    requires DownSide(l, c) && ExecSide(l, c) && c.tm.None? && c.known == l.gen && c.knows == l.tm
    requires c.down.recv == |c.down.sent| && c.up.recv == |c.up.sent|
    ensures !InState(c.es, HasPrepared)
  {
    if c.down.sent != [] { assert Verdict(c.down.sent[|c.down.sent| - 1]); }
  }

  /** No settled manager is left prepared and undecided. */
  lemma {:induction false} SettledManager(q: Query, s: Sys, r: RMPath)
    requires Inv(q, s) && Live(q, s) && Settled(q, s) && r in q.rms
    ensures !InState(s.rm(r, |s.rlog(r)| - 1).es, HasPrepared)
  {
    var g, h := |s.tlog| - 1, |s.rlog(r)| - 1;
    var l := Link(g, r, h);
    var c := CellOf(q, s, l);
    assert SettledAt(q, s, g, r, h);
    assert c.tm == s.tm(g).es && c.known == h && c.knows == g && c.es == s.rm(r, h).es && c.down == s.down(l) && c.up == s.up(l);
    hide Inv, Live, Settled, CellOf, DownSide, UpSide, ExecSide, AskSide, Fits, RMLeader, TMLeader;
    SettledIsDone(q, s);
    CellHere(q, s, l);
    SettledCell(l, c);
  }

  /** Replaying a legal log gives an execution exactly if it is prepared and undecided. */
  lemma {:induction false} ReplayDecided(q: Query, ps: seq<RMPlm>, es: Option<RMOuter>)
    requires Legal(q, ps) && Snapshot(es) == Replay(ps)
    requires es == None || es == Some(HasCommitted) || es == Some(HasAborted)
    ensures |ps| != 1
  {
    ReplayLegal(q, ps);
  }

  lemma {:induction false} SettledLog(q: Query, s: Sys, r: RMPath)
    requires Inv(q, s) && Live(q, s) && Settled(q, s) && r in q.rms
    ensures |Entries(s, r)| != 1 && Legal(q, Entries(s, r))
  {
    var h := |s.rlog(r)| - 1;
    assert SettledAt(q, s, |s.tlog| - 1, r, h) && LogOk(q, s, r);
    hide Inv, Live, SettledAt;
    SettledState(q, s, |s.tlog| - 1, r);
    SettledManager(q, s, r);
    ReplayDecided(q, Entries(s, r), s.rm(r, h).es);
  }

  /** What a decision says of a log that is not left prepared. */
  lemma {:induction false} DecidedSays(q: Query, s: Sys, r: RMPath)
    requires Fate(q, s) && LogOk(q, s, r) && r in q.rms && |Entries(s, r)| != 1
    ensures var ps := Entries(s, r); var p := PreparedPlm(q.id, q.tm, q.rms);
      && (Decided(s, DecideCommit) ==> ps == [p, CommittedPlm(q.id)])
      && (Decided(s, DecideAbort) ==> ps == [] || ps == [p, AbortedPlm(q.id)])
      && (s.decisions == [] ==> ps == [])
  {
    var ps := Entries(s, r);
    OneFate(q, s);
    assert Legal(q, ps) && (Decided(s, DecideCommit) ==> ps != []);
    assert (CommittedPlm(q.id) in ps ==> Decided(s, DecideCommit)) && (AbortedPlm(q.id) in ps ==> Decided(s, DecideAbort));
    assert s.decisions == [] ==> !Decided(s, DecideCommit) && !Decided(s, DecideAbort);
    hide Fate, LogOk, Entries, Decided;
    if |ps| == 2 { assert ps[1] in ps; }
  }

  lemma {:induction false} SettledSays(q: Query, s: Sys, r: RMPath)
    requires Inv(q, s) && Live(q, s) && Settled(q, s) && r in q.rms
    ensures var ps := Entries(s, r); var p := PreparedPlm(q.id, q.tm, q.rms);
      && (Decided(s, DecideCommit) ==> ps == [p, CommittedPlm(q.id)])
      && (Decided(s, DecideAbort) ==> ps == [] || ps == [p, AbortedPlm(q.id)])
      && (s.decisions == [] ==> ps == [])
      && s.tm(|s.tlog| - 1).es.None?
  {
    assert Fate(q, s) && LogOk(q, s, r) && q.rms != [] && s.tlog != [];
    hide *;
    SettledLog(q, s, r);
    SettledIsDone(q, s);
    DecidedSays(q, s, r);
  }

  /** Completion: in a settled state everybody has committed if that was decided, nobody is left
      prepared if it was decided to abort, and if nothing was decided nobody has prepared. */
  lemma {:induction false} Completion(q: Query, states: seq<Sys>, events: seq<Event>, k: nat, r: RMPath)
    requires q.Valid() && Run(q, states, events) && k < |states| && Settled(q, states[k]) && r in q.rms
    ensures var s := states[k]; var ps := Entries(s, r); var p := PreparedPlm(q.id, q.tm, q.rms);
      && (Decided(s, DecideCommit) ==> ps == [p, CommittedPlm(q.id)])
      && (Decided(s, DecideAbort) ==> ps == [] || ps == [p, AbortedPlm(q.id)])
      && (s.decisions == [] ==> ps == [])
      && s.tm(|s.tlog| - 1).es.None?
  {
    hide Inv, Live, Settled, Run, Fate;
    RunLive(q, states, events, k);
    SettledSays(q, states[k], r);
  }

  /** So where one log commits, in a settled state all do. */
  lemma {:induction false} AllOrNone(q: Query, states: seq<Sys>, events: seq<Event>, k: nat)
    requires q.Valid() && Run(q, states, events) && k < |states| && Settled(q, states[k])
    ensures var p := PreparedPlm(q.id, q.tm, q.rms);
      || (forall r | r in q.rms :: Entries(states[k], r) == [p, CommittedPlm(q.id)])
      || (forall r | r in q.rms :: Entries(states[k], r) == [] || Entries(states[k], r) == [p, AbortedPlm(q.id)])
  {
    var s := states[k];
    hide Settled, Entries;
    forall r | r in q.rms ensures var p := PreparedPlm(q.id, q.tm, q.rms);
      && (Decided(s, DecideCommit) ==> Entries(s, r) == [p, CommittedPlm(q.id)])
      && (Decided(s, DecideAbort) ==> Entries(s, r) == [] || Entries(s, r) == [p, AbortedPlm(q.id)])
      && (s.decisions == [] ==> Entries(s, r) == [])
    {
      Completion(q, states, events, k, r);
    }
    if s.decisions != [] { assert Decided(s, s.decisions[0].1); }
  }
}
