/** What the invariant of Paxos2PC needs from a step of a resource manager, of a transaction
    manager, or of a log, and why the rest of it then survives. */
module TwoPCSteps {
  import opened Wrappers
  import opened TwoPCTypes
  import opened TwoPCLog
  import opened TwoPCSystem
  import opened TwoPCInvariant

  // ---------------------------------------------------------------------------------------------
  //  What is untouched stays right
  // ---------------------------------------------------------------------------------------------

  lemma {:induction false} DownMsgFrame(q: Query, s: Sys, s': Sys, l: Link, k: nat, m: RMMessage)
    requires Grows(q, s, s') && DownMsgOk(q, s, l, k, m)
    ensures DownMsgOk(q, s', l, k, m)
  {
  }

  lemma {:induction false} DownFrame(q: Query, s: Sys, s': Sys, l: Link)
    requires Grows(q, s, s') && DownOk(q, s, l)
    requires s'.down(l).sent == s.down(l).sent && s'.down(l).recv <= |s.down(l).sent|
    ensures DownOk(q, s', l)
  {
    forall k: nat | k < |s'.down(l).sent| ensures DownMsgOk(q, s', l, k, s'.down(l).sent[k]) {
      DownMsgFrame(q, s, s', l, k, s.down(l).sent[k]);
    }
  }

  lemma {:induction false} UpMsgFrame(q: Query, s: Sys, s': Sys, l: Link, m: TMMessage)
    requires Grows(q, s, s') && UpMsgOk(q, s, l, m)
    ensures UpMsgOk(q, s', l, m)
  {
  }

  lemma {:induction false} UpFrame(q: Query, s: Sys, s': Sys, l: Link)
    requires Grows(q, s, s') && UpOk(q, s, l)
    requires s'.up(l).sent == s.up(l).sent && s'.up(l).recv <= |s.up(l).sent|
    ensures UpOk(q, s', l)
  {
    forall k: nat | k < |s'.up(l).sent| ensures UpMsgOk(q, s', l, s'.up(l).sent[k]) {
      UpMsgFrame(q, s, s', l, s.up(l).sent[k]);
    }
  }

  lemma {:induction false} TMEsFrame(q: Query, s: Sys, s': Sys, g: Gen, es: TMState)
    requires Grows(q, s, s') && TMEsOk(q, s, g, es)
    ensures TMEsOk(q, s', g, es)
  {
  }

  lemma {:induction false} TMFrame(q: Query, s: Sys, s': Sys, g: Gen)
    requires Grows(q, s, s') && TMOk(q, s, g)
    requires s'.tlog == s.tlog && s'.tm(g) == s.tm(g)
    ensures TMOk(q, s', g)
  {
    if s.tm(g).es.Some? { TMEsFrame(q, s, s', g, s.tm(g).es.value); }
  }

  lemma {:induction false} RMFrame(q: Query, s: Sys, s': Sys, r: RMPath, h: Gen)
    requires Grows(q, s, s') && RMOk(q, s, r, h)
    requires s'.rlog(r) == s.rlog(r) && s'.rm(r, h) == s.rm(r, h)
    ensures RMOk(q, s', r, h)
  {
    if h < |s.rlog(r)| {
      assert RMTracks(q, s, r, h);
      assert Unseen(s', r, h) == Unseen(s, r, h) && RMView(s', r, h) == RMView(s, r, h);
    }
  }

  lemma {:induction false} LogFrame(q: Query, s: Sys, s': Sys, r: RMPath)
    requires Grows(q, s, s') && LogOk(q, s, r)
    requires s'.rlog(r) == s.rlog(r)
    requires forall h: Gen | h >= |s.rlog(r)| :: s'.rm(r, h) == s.rm(r, h)
    ensures LogOk(q, s', r)
  {
  }

  lemma {:induction false} AskedFrame(q: Query, s: Sys, s': Sys, r: RMPath, h: Gen)
    requires Grows(q, s, s') && AskedOk(q, s, r, h) && s'.rlog(r) == s.rlog(r)
    ensures AskedOk(q, s', r, h)
  {
  }

  /** The fate of the query is sealed by facts that grow, as long as the dead stay dead. */
  lemma {:induction false} FateFrame(q: Query, s: Sys, s': Sys)
    requires Grows(q, s, s') && Fate(q, s)
    requires |s'.tlog| >= |s.tlog| && s'.orig == s.orig && s'.decisions == s.decisions
    requires forall r | r in q.rms && Dead(q, s, r) :: Dead(q, s', r)
    ensures Fate(q, s')
  {
  }

  // ---------------------------------------------------------------------------------------------
  //  A step of a resource manager
  // ---------------------------------------------------------------------------------------------

  /** Leadership `h` of `r` acts, having perhaps taken a message, and sends `msgs`. */
  ghost predicate RMMoves(q: Query, s: Sys, s': Sys, r: RMPath, h: Gen, msgs: seq<TMMessage>) {
    && s'.tlog == s.tlog && s'.tm == s.tm && s'.rlog == s.rlog && s'.orig == s.orig && s'.decisions == s.decisions
    && (forall r', h': Gen | r' != r || h' != h :: s'.rm(r', h') == s.rm(r', h'))
    && s.rm(r, h).applied <= s'.rm(r, h).applied
    && (forall l :: s'.down(l).sent == s.down(l).sent
                    && s.down(l).recv <= s'.down(l).recv && s'.down(l).recv <= |s.down(l).sent|)
    && (forall l :: s'.up(l).recv == s.up(l).recv
                    && s'.up(l).sent == s.up(l).sent
                       + (if l == Link(RMLeader(s', r, h, q.tm.group), r, h) then msgs else []))
  }

  /** A leadership that has refused, or whose manager is dead, does not begin to execute. */
  ghost predicate MayBegin(q: Query, s: Sys, s': Sys, r: RMPath, h: Gen) {
    s.rm(r, h).es == None && s'.rm(r, h).es != None ==>
      !Refused(q, s, r, h) && !(h == |s.rlog(r)| - 1 && Dead(q, s, r))
  }

  lemma {:induction false} RMLeaderAdvances(s: Sys, s': Sys, r: RMPath, h: Gen, group: GroupId)
    requires s'.rlog(r) == s.rlog(r) && s.rm(r, h).applied <= s'.rm(r, h).applied
    ensures RMLeader(s, r, h, group) <= RMLeader(s', r, h, group)
  {
    var log, a, b := s.rlog(r), s.rm(r, h).applied, s'.rm(r, h).applied;
    if h < |log| {
      var v, w := View(log, h, a), View(log, h, b);
      if b <= |log[h]| { assert log[h][..a] == log[h][..b][..a]; }
      assert IsPrefix(v, w);
    }
    LeaderGrows(RMView(s, r, h), RMView(s', r, h), group);
  }

  lemma {:induction false} RMMovesGrow(q: Query, s: Sys, s': Sys, r: RMPath, h: Gen, msgs: seq<TMMessage>)
    requires RMMoves(q, s, s', r, h, msgs) && MayBegin(q, s, s', r, h)
    ensures Grows(q, s, s')
  {
    forall r', h': Gen ensures RMLeader(s, r', h', q.tm.group) <= RMLeader(s', r', h', q.tm.group) {
      RMLeaderAdvances(s, s', r', h', q.tm.group);
    }
    forall r', h': Gen | Refused(q, s, r', h') ensures Refused(q, s', r', h') {
      assert RMLeader(s, r', h', q.tm.group) <= RMLeader(s', r', h', q.tm.group);
    }
  }

  lemma {:induction false} RMMovesDead(q: Query, s: Sys, s': Sys, r: RMPath, h: Gen, msgs: seq<TMMessage>, d: RMPath)
    requires RMMoves(q, s, s', r, h, msgs) && MayBegin(q, s, s', r, h) && Dead(q, s, d)
    ensures Dead(q, s', d)
  {
    var k := |s.rlog(d)| - 1;
    RMLeaderAdvances(s, s', d, k, q.tm.group);
    assert Entries(s', d) == Entries(s, d);
    forall h': Gen | h' >= k && NoPrepareLeft(s.down(Link(s.orig.value, d, h')))
      ensures NoPrepareLeft(s'.down(Link(s.orig.value, d, h'))) {
    }
  }

  lemma {:induction false} RMKeeps(q: Query, s: Sys, s': Sys, r: RMPath, h: Gen, msgs: seq<TMMessage>)
    requires Inv(q, s) && RMMoves(q, s, s', r, h, msgs) && MayBegin(q, s, s', r, h)
    requires h < |s.rlog(r)| && RMOk(q, s', r, h)
    requires forall m | m in msgs :: UpMsgOk(q, s', Link(RMLeader(s', r, h, q.tm.group), r, h), m)
    ensures Inv(q, s') && DeadStay(q, s, s')
  {
    RMMovesGrow(q, s, s', r, h, msgs);
    forall d | d in q.rms && Dead(q, s, d) ensures Dead(q, s', d) { RMMovesDead(q, s, s', r, h, msgs, d); }
    FateFrame(q, s, s');
    forall r' | r' in q.rms ensures LogOk(q, s', r') { LogFrame(q, s, s', r'); }
    forall r', h': Gen | r' in q.rms ensures RMOk(q, s', r', h') {
      if r' != r || h' != h { RMFrame(q, s, s', r', h'); }
    }
    forall r', h': Gen | r' in q.rms ensures AskedOk(q, s', r', h') { AskedFrame(q, s, s', r', h'); }
    forall l ensures DownOk(q, s', l) { DownFrame(q, s, s', l); }
    forall l ensures UpOk(q, s', l) { RMUpKept(q, s, s', r, h, msgs, l); }
    forall g: Gen ensures TMOk(q, s', g) { TMFrame(q, s, s', g); }
  }

  lemma {:induction false} RMUpKept(q: Query, s: Sys, s': Sys, r: RMPath, h: Gen, msgs: seq<TMMessage>, l: Link)
    requires Grows(q, s, s') && UpOk(q, s, l) && RMMoves(q, s, s', r, h, msgs)
    requires forall m | m in msgs :: UpMsgOk(q, s', Link(RMLeader(s', r, h, q.tm.group), r, h), m)
    ensures UpOk(q, s', l)
  {
    forall k: nat | k < |s'.up(l).sent| ensures UpMsgOk(q, s', l, s'.up(l).sent[k]) {
      if k < |s.up(l).sent| {
        assert s'.up(l).sent[k] == s.up(l).sent[k];
        UpMsgFrame(q, s, s', l, s.up(l).sent[k]);
      } else {
        assert s'.up(l).sent[k] == msgs[k - |s.up(l).sent|];
      }
    }
  }

  // ---------------------------------------------------------------------------------------------
  //  A step of a transaction manager
  // ---------------------------------------------------------------------------------------------

  /** Leadership `g` of the transaction manager acts, having perhaps taken a message. */
  ghost predicate TMMoves(q: Query, s: Sys, s': Sys, g: Gen, sends: seq<ToRM>, d: Option<Decision>) {
    && s'.tlog == s.tlog && s'.rm == s.rm && s'.rlog == s.rlog
    && (s.orig.Some? ==> s'.orig == s.orig)
    && s'.decisions == s.decisions + (if d.Some? then [(g, d.value)] else [])
    && (forall g': Gen | g' != g :: s'.tm(g') == s.tm(g'))
    && s.tm(g).applied <= s'.tm(g).applied
    && (forall l :: s.up(l).sent == s'.up(l).sent && s'.up(l).recv <= |s.up(l).sent|)
    && (forall l :: s'.down(l).recv == s.down(l).recv
                    && s'.down(l).sent == s.down(l).sent
                       + (if l.tm == g && l.gen == TMLeader(s', g, l.rm.group) then BodiesTo(sends, l.rm) else []))
  }

  lemma {:induction false} TMLeaderAdvances(s: Sys, s': Sys, g: Gen, group: GroupId)
    requires s'.tlog == s.tlog && s.tm(g).applied <= s'.tm(g).applied
    ensures TMLeader(s, g, group) <= TMLeader(s', g, group)
  {
    var log, a, b := s.tlog, s.tm(g).applied, s'.tm(g).applied;
    if g < |log| {
      var v, w := View(log, g, a), View(log, g, b);
      if b <= |log[g]| { assert log[g][..a] == log[g][..b][..a]; }
      assert IsPrefix(v, w);
    }
    LeaderGrows(TMView(s, g), TMView(s', g), group);
  }

  lemma {:induction false} TMMovesGrow(q: Query, s: Sys, s': Sys, g: Gen, sends: seq<ToRM>, d: Option<Decision>)
    requires TMMoves(q, s, s', g, sends, d)
    ensures Grows(q, s, s')
  {
    forall g': Gen, group ensures TMLeader(s, g', group) <= TMLeader(s', g', group) {
      TMLeaderAdvances(s, s', g', group);
    }
    forall c | Decided(s, c) ensures Decided(s', c) {
      var k :| 0 <= k < |s.decisions| && s.decisions[k].1 == c;
      assert s'.decisions[k].1 == c;
    }
    forall r | Entries(s, r) != [] ensures Entries(s', r) != [] {
      assert Entries(s', r) == Entries(s, r);
    }
    forall r, h: Gen ensures RMLeader(s, r, h, q.tm.group) == RMLeader(s', r, h, q.tm.group) {
    }
  }

  /** A message this step may send over `l`. */
  ghost predicate SendOk(q: Query, s: Sys, s': Sys, l: Link, k: nat, m: RMMessage) {
    DownMsgOk(q, s', l, |s.down(l).sent| + k, m)
  }

  /** Every message a step sends may be sent. */
  ghost predicate SendsOk(q: Query, s: Sys, s': Sys, g: Gen, sends: seq<ToRM>) {
    forall l: Link, k: nat ::
      l.tm == g && l.gen == TMLeader(s', g, l.rm.group) && k < |BodiesTo(sends, l.rm)| ==>
        SendOk(q, s, s', l, k, BodiesTo(sends, l.rm)[k])
  }

  lemma {:induction false} TMDownKept(q: Query, s: Sys, s': Sys, g: Gen, sends: seq<ToRM>, d: Option<Decision>, l: Link)
    requires Grows(q, s, s') && DownOk(q, s, l) && TMMoves(q, s, s', g, sends, d) && SendsOk(q, s, s', g, sends)
    ensures DownOk(q, s', l)
  {
    hide BodiesTo, TMLeader;
    forall k: nat | k < |s'.down(l).sent| ensures DownMsgOk(q, s', l, k, s'.down(l).sent[k]) {
      if k < |s.down(l).sent| {
        assert s'.down(l).sent[k] == s.down(l).sent[k];
        assert DownMsgOk(q, s, l, k, s.down(l).sent[k]);
        DownMsgFrame(q, s, s', l, k, s.down(l).sent[k]);
      } else {
        hide Grows, DownMsgOk;
        var j := k - |s.down(l).sent|;
        assert s'.down(l).sent[k] == BodiesTo(sends, l.rm)[j];
        assert SendOk(q, s, s', l, j, BodiesTo(sends, l.rm)[j]);
      }
    }
  }

  /** The original transaction manager does not go back to preparing, nor asks after that. */
  ghost predicate PreparesOnce(s: Sys, s': Sys, g: Gen, sends: seq<ToRM>) {
    s.orig == Some(g) && !IsPreparing(s, g) ==>
      !IsPreparing(s', g) && forall k | 0 <= k < |sends| :: !sends[k].msg.Prepare?
  }

  lemma {:induction false} BodiesAreSent(sends: seq<ToRM>, r: RMPath, k: nat)
    requires k < |BodiesTo(sends, r)|
    ensures exists j :: 0 <= j < |sends| && sends[j] == ToRM(r, BodiesTo(sends, r)[k])
  {
    var n := |sends| - 1;
    var init := sends[..n];
    if k < |BodiesTo(init, r)| {
      BodiesAreSent(init, r, k);
      var j :| 0 <= j < |init| && init[j] == ToRM(r, BodiesTo(init, r)[k]);
      assert sends[j] == ToRM(r, BodiesTo(sends, r)[k]);
    } else {
      assert sends[n] == ToRM(r, BodiesTo(sends, r)[k]);
    }
  }

  lemma {:induction false} TMMovesDead(q: Query, s: Sys, s': Sys, g: Gen, sends: seq<ToRM>, d: Option<Decision>, r: RMPath)
    requires TMMoves(q, s, s', g, sends, d) && PreparesOnce(s, s', g, sends) && Dead(q, s, r)
    ensures Dead(q, s', r)
  {
    var h, g0 := |s.rlog(r)| - 1, s.orig.value;
    assert RMLeader(s, r, h, q.tm.group) == RMLeader(s', r, h, q.tm.group);
    assert Entries(s', r) == Entries(s, r);
    if RMLeader(s, r, h, q.tm.group) <= g0 {
      assert !IsPreparing(s', g0);
      forall h': Gen | h' >= h ensures NoPrepareLeft(s'.down(Link(g0, r, h'))) {
        var l := Link(g0, r, h');
        assert NoPrepareLeft(s.down(l));
        forall k: nat | s'.down(l).recv <= k < |s'.down(l).sent| ensures !s'.down(l).sent[k].Prepare? {
          if k < |s.down(l).sent| {
            assert s'.down(l).sent[k] == s.down(l).sent[k];
          } else {
            assert s'.down(l).sent[k] == BodiesTo(sends, r)[k - |s.down(l).sent|];
            BodiesAreSent(sends, r, k - |s.down(l).sent|);
          }
        }
      }
    }
  }

  /** Everything but the reasons for a new decision. */
  lemma {:induction false} TMKeepsRest(q: Query, s: Sys, s': Sys, g: Gen, sends: seq<ToRM>, d: Option<Decision>)
    requires Inv(q, s) && TMMoves(q, s, s', g, sends, d) && SendsOk(q, s, s', g, sends)
    requires TMOk(q, s', g) && Fate(q, s') && DeadStay(q, s, s')
    ensures Inv(q, s')
  {
    TMMovesGrow(q, s, s', g, sends, d);
    forall r' | r' in q.rms ensures LogOk(q, s', r') { LogFrame(q, s, s', r'); }
    forall r', h': Gen | r' in q.rms ensures RMOk(q, s', r', h') { RMFrame(q, s, s', r', h'); }
    forall r', h': Gen | r' in q.rms ensures AskedOk(q, s', r', h') { AskedFrame(q, s, s', r', h'); }
    forall l ensures DownOk(q, s', l) { TMDownKept(q, s, s', g, sends, d, l); }
    forall l ensures UpOk(q, s', l) { UpFrame(q, s, s', l); }
    forall g': Gen ensures TMOk(q, s', g') { if g' != g { TMFrame(q, s, s', g'); } }
  }

  /** A step of a transaction manager that decides nothing. */
  lemma {:induction false} TMKeeps(q: Query, s: Sys, s': Sys, g: Gen, sends: seq<ToRM>)
    requires Inv(q, s) && TMMoves(q, s, s', g, sends, None) && SendsOk(q, s, s', g, sends)
    requires TMOk(q, s', g) && s'.orig == s.orig && PreparesOnce(s, s', g, sends)
    ensures Inv(q, s') && DeadStay(q, s, s')
  {
    TMMovesGrow(q, s, s', g, sends, None);
    forall r | r in q.rms && Dead(q, s, r) ensures Dead(q, s', r) { TMMovesDead(q, s, s', g, sends, None, r); }
    FateFrame(q, s, s');
    TMKeepsRest(q, s, s', g, sends, None);
  }
}
