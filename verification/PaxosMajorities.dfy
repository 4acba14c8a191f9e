/** In every run: whoever has promises from more than half of the members has asked all of them to
    accept, nobody else has, and whoever has heard from more than half learns. */
module PaxosMajorities {
  import opened Wrappers
  import opened PaxosTypes
  import opened PaxosNode
  import opened PaxosSystem
  import opened PaxosInvariant
  import opened PaxosCounting
  import opened PaxosQuorums
  import opened PaxosTheorems

  // ---------------------------------------------------------------------------------------------
  //  Every node is sound
  // ---------------------------------------------------------------------------------------------

  ghost predicate AllSound(cfg: Config, s: Sys) {
    && (forall p, q | p in cfg.members && q in cfg.members :: (p, q) in s.wires)
    && (forall a | a in cfg.members :: a in s.nodes)
    && forall a | a in s.nodes :: s.nodes[a].me == a && s.nodes[a].nodes == cfg.members && Sound(s.nodes[a])
  }

  lemma {:induction false} InitiallySound(cfg: Config)
    requires cfg.Valid()
    ensures AllSound(cfg, InitialSys(cfg))
  {
  }

  /** What is on the wires after sending. */
  lemma {:induction false} Posted(wires: Wires, a: EndpointId, sends: seq<Send>, p: EndpointId, q: EndpointId)
    ensures (p, q) in Post(wires, a, sends) <==> (p, q) in wires
    ensures (p, q) in wires ==> forall m ::
              m in Post(wires, a, sends)[(p, q)].sent <==> m in wires[(p, q)].sent || (p == a && Send(q, m) in sends)
  {
    if sends != [] {
      var init, x := sends[..|sends| - 1], sends[|sends| - 1];
      Posted(wires, a, init, p, q);
      Posted(wires, a, init, a, x.to);
      assert sends == init + [x];
      hide Post;
      assert Post(wires, a, sends) == PostOne(Post(wires, a, init), a, x) by { PostLast(wires, a, sends); }
    }
  }

  lemma {:induction false} PostLast(wires: Wires, a: EndpointId, sends: seq<Send>)
    requires sends != []
    ensures Post(wires, a, sends) == PostOne(Post(wires, a, sends[..|sends| - 1]), a, sends[|sends| - 1])
  {
  }

  /** A step at node `a`, as far as the messages of `a` and the nodes go. */
  lemma {:induction false} StepSays(cfg: Config, s: Sys, e: Event, s0: Sys, a: EndpointId, o: Out)
    requires AllSound(cfg, s) && Runs(s, e, s0, a, o) && a in s0.logs
    ensures var s' := Apply(s0, a, o);
      && Answers(s.nodes[a], o.node, o.sends) && AllSound(cfg, s')
      && s'.nodes == s.nodes[a := o.node]
      && forall p, q | (p, q) in s.wires :: (p, q) in s'.wires && forall m ::
           m in s'.wires[(p, q)].sent <==> m in s.wires[(p, q)].sent || (p == a && Send(q, m) in o.sends)
  {
    var s' := Apply(s0, a, o);
    EventAnswers(s, e, s0, a, o);
    hide Handle, InsertBundle, RetryInsert, LeaderHeartbeat, NextIndexTimer, Answers, Sound;
    assert s0.nodes == s.nodes;
    assert SameFrame(s.nodes[a], o.node) by { AnswersFrame(s.nodes[a], o.node, o.sends); }
    forall p, q | (p, q) in s.wires ensures (p, q) in s'.wires && forall m ::
      m in s'.wires[(p, q)].sent <==> m in s.wires[(p, q)].sent || (p == a && Send(q, m) in o.sends)
    {
      Posted(s0.wires, a, o.sends, p, q);
    }
  }

  lemma {:induction false} AnswersFrame(n: Node, n': Node, sends: seq<Send>)
    requires Answers(n, n', sends)
    ensures SameFrame(n, n')
  {
  }

  lemma {:induction false} RunSound(cfg: Config, states: seq<Sys>, events: seq<Event>, n: nat)
    requires cfg.Valid() && Run(cfg, states, events) && n < |states|
    ensures AllSound(cfg, states[n])
  {
    hide Runs, Apply, AllSound;
    if n == 0 {
      InitiallySound(cfg);
    } else {
      RunSound(cfg, states, events, n - 1);
      assert Step(states[n - 1], events[n - 1], states[n]);
      var s0, a, o :| Runs(states[n - 1], events[n - 1], s0, a, o) && a in s0.logs && states[n] == Apply(s0, a, o);
      StepSays(cfg, states[n - 1], events[n - 1], s0, a, o);
    }
  }

  // ---------------------------------------------------------------------------------------------
  //  Promises
  // ---------------------------------------------------------------------------------------------

  /** `a` has asked `e` to accept `v` in round `r` of index `i`. */
  predicate AskedToAccept(s: Sys, a: EndpointId, e: EndpointId, i: PLIndex, r: Rnd, v: PLEntry) {
    (a, e) in s.wires && Multi(a, i, Accept(r, v)) in s.wires[(a, e)].sent
  }

  predicate AllAsked(cfg: Config, s: Sys, a: EndpointId, i: PLIndex, r: Rnd, v: PLEntry) {
    forall e | e in cfg.members :: AskedToAccept(s, a, e, i, r, v)
  }

  /** `a` counts promises for round `r` of index `i` from more than half of the members. */
  predicate BackedAt(cfg: Config, s: Sys, a: EndpointId, i: PLIndex, r: Rnd) {
    a in s.nodes && 2 * Promises(s.nodes[a], i, r) > |cfg.members|
  }

  lemma {:induction false} StepAsks(cfg: Config, s: Sys, e: Event, s': Sys, a: EndpointId, i: PLIndex, r: Rnd)
    requires AllSound(cfg, s) && Step(s, e, s') && a in cfg.members
    ensures BackedAt(cfg, s', a, i, r) && !BackedAt(cfg, s, a, i, r) ==> exists v :: AllAsked(cfg, s', a, i, r, v)
    ensures forall v | AllAsked(cfg, s, a, i, r, v) :: AllAsked(cfg, s', a, i, r, v)
    ensures forall b, v | b in cfg.members && AskedToAccept(s', a, b, i, r, v) ::
              AskedToAccept(s, a, b, i, r, v) || BackedAt(cfg, s', a, i, r)
  {
    hide Runs, Apply, Promises, Sound;
    var s0, x, o :| Runs(s, e, s0, x, o) && x in s0.logs && s' == Apply(s0, x, o);
    assert x in s.nodes by { RunsAt(s, e, s0, x, o); }
    StepSays(cfg, s, e, s0, x, o);
    var n := s.nodes[x];
    forall v | AllAsked(cfg, s, a, i, r, v) ensures AllAsked(cfg, s', a, i, r, v) {
      forall b | b in cfg.members ensures AskedToAccept(s', a, b, i, r, v) { assert AskedToAccept(s, a, b, i, r, v); }
    }
    if BackedAt(cfg, s', a, i, r) && !BackedAt(cfg, s, a, i, r) {
      assert a == x && Backed(o.node, i, r) && !Backed(n, i, r);
      var v :| AsksAll(n, o.sends, i, r, v);
      forall b | b in cfg.members ensures AskedToAccept(s', a, b, i, r, v) {
        assert Send(b, Multi(n.me, i, Accept(r, v))) in o.sends;
      }
      assert AllAsked(cfg, s', a, i, r, v);
    }
    forall b, v | b in cfg.members && AskedToAccept(s', a, b, i, r, v) && !AskedToAccept(s, a, b, i, r, v)
      ensures BackedAt(cfg, s', a, i, r)
    {
      var m := Multi(a, i, Accept(r, v));
      assert (a, b) in s.wires;
      assert a == x && Send(b, m) in o.sends;
      var k :| 0 <= k < |o.sends| && o.sends[k] == Send(b, m);
      assert AsksToAccept(o.sends[k].msg, i, r);
      assert Backed(o.node, i, r);
    }
  }

  lemma {:induction false} RunsAt(s: Sys, e: Event, s0: Sys, a: EndpointId, o: Out)
    requires Runs(s, e, s0, a, o)
    ensures a in s.nodes
  {
  }

  lemma {:induction false} AcceptsSoFar(cfg: Config, states: seq<Sys>, events: seq<Event>, n: nat, a: EndpointId, i: PLIndex, r: Rnd)
    requires cfg.Valid() && Run(cfg, states, events) && n < |states| && a in cfg.members
    ensures (exists k :: 0 <= k <= n && BackedAt(cfg, states[k], a, i, r)) ==> exists v :: AllAsked(cfg, states[n], a, i, r, v)
    ensures forall b, v | b in cfg.members && AskedToAccept(states[n], a, b, i, r, v) ::
              exists k :: 0 <= k <= n && BackedAt(cfg, states[k], a, i, r)
  {
    hide Step, AllAsked, Promises;
    if n == 0 {
      assert states[0] == InitialSys(cfg);
      hide InitialSys;
      InitiallyNobody(cfg, a, i, r);
    } else {
      AcceptsSoFar(cfg, states, events, n - 1, a, i, r);
      RunSound(cfg, states, events, n - 1);
      var s, s' := states[n - 1], states[n];
      assert Step(s, events[n - 1], s');
      hide Run, BackedAt, AskedToAccept, AllSound;
      StepAsks(cfg, s, events[n - 1], s', a, i, r);
    }
  }

  lemma {:induction false} InitiallyNobody(cfg: Config, a: EndpointId, i: PLIndex, r: Rnd)
    requires cfg.Valid()
    ensures var s := InitialSys(cfg);
      !BackedAt(cfg, s, a, i, r) && forall b, v :: !AskedToAccept(s, a, b, i, r, v)
  {
  }

  /** An `Accept` of a round has been sent to every member exactly if promises for the round from more
      than half of the members were counted; and where one member was asked, all were. */
  lemma {:induction false} AcceptsAreBacked(cfg: Config, states: seq<Sys>, events: seq<Event>, n: nat, a: EndpointId, i: PLIndex, r: Rnd)
    requires cfg.Valid() && Run(cfg, states, events) && n < |states| && a in cfg.members
    ensures (exists v :: AllAsked(cfg, states[n], a, i, r, v)) <==> (exists k :: 0 <= k <= n && BackedAt(cfg, states[k], a, i, r))
    ensures forall b, v | b in cfg.members && AskedToAccept(states[n], a, b, i, r, v) :: AllAsked(cfg, states[n], a, i, r, v)
  {
    hide Run, BackedAt;
    var s := states[n];
    AcceptsSoFar(cfg, states, events, n, a, i, r);
    if v :| AllAsked(cfg, s, a, i, r, v) {
      assert AskedToAccept(s, a, cfg.members[0], i, r, v);
    }
    forall b, v | b in cfg.members && AskedToAccept(s, a, b, i, r, v) ensures AllAsked(cfg, s, a, i, r, v) {
      var w :| AllAsked(cfg, s, a, i, r, w);
      assert AskedToAccept(s, a, b, i, r, w);
      OneValue(cfg, states, events, n, a, b, i, r, v, w);
    }
  }

  lemma {:induction false} OneValue(cfg: Config, states: seq<Sys>, events: seq<Event>, n: nat, a: EndpointId, b: EndpointId, i: PLIndex, r: Rnd, v: PLEntry, w: PLEntry)
    requires cfg.Valid() && Run(cfg, states, events) && n < |states|
    requires AskedToAccept(states[n], a, b, i, r, v) && AskedToAccept(states[n], a, b, i, r, w)
    ensures v == w
  {
    hide Run;
    var sent := states[n].wires[(a, b)].sent;
    var j :| 0 <= j < |sent| && sent[j] == Multi(a, i, Accept(r, v));
    var k :| 0 <= k < |sent| && sent[k] == Multi(a, i, Accept(r, w));
    OneAcceptPerRound(cfg, states, events, n, i, r, a, b, j, v, a, b, k, w);
  }

  // ---------------------------------------------------------------------------------------------
  //  Learns
  // ---------------------------------------------------------------------------------------------

  /** A learner that has taken in `Learn`s of one round from more than half of the members, and that voted in
      that round or a later one, holds a learned value, which its log holds too. */
  lemma {:induction false} HalfTeaches(cfg: Config, states: seq<Sys>, events: seq<Event>, n: nat, a: EndpointId, i: PLIndex, r: Rnd)
    requires cfg.Valid() && Run(cfg, states, events) && n < |states|
    requires a in states[n].nodes && i in states[n].nodes[a].slots && states[n].nodes[a].slots[i].instance.Some?
    requires 2 * |Reached(cfg, states[n].wires, a, i, r) - Queued(BufferAt(states[n].nodes[a], i), r)| > |cfg.members|
    requires var vote := states[n].nodes[a].slots[i].instance.value.vote; vote.Some? && r <= vote.value.0
    ensures var s := states[n];
      && s.nodes[a].slots[i].learned.Some? && a in s.logs && i < |s.logs[a]|
      && s.logs[a][i] == s.nodes[a].slots[i].learned.value.1
  {
    hide Run, Reached, Queued;
    var s := states[n];
    var node := s.nodes[a];
    var inst := node.slots[i].instance.value;
    LearnsCountAcceptors(cfg, states, events, n, a, i, r);
    RunSound(cfg, states, events, n);
    assert SlotSound(node.slots[i], node.nodes);
    assert r in inst.learned && MoreThanHalf(inst.learned[r], node.nodes);
    RunLength(cfg, states, events);
    LogReaches(cfg, states, events, n, a);
    Agreement(cfg, states, events, n, n, a, a, i, s.logs[a][i], node.slots[i].learned.value.1);
  }

  lemma {:induction false} LogReaches(cfg: Config, states: seq<Sys>, events: seq<Event>, n: nat, a: EndpointId)
    requires cfg.Valid() && Run(cfg, states, events) && n < |states| && a in states[n].nodes
    ensures a in states[n].logs && |states[n].logs[a]| == states[n].nodes[a].nextIndex
  {
    hide Inv, Run, HistExtends, OffersHappened;
    RunLength(cfg, states, events);
    var hs := RunHistories(cfg, states, events, n);
    InvLog(cfg, states[n], hs[n], a);
  }

  lemma {:induction false} InvLog(cfg: Config, s: Sys, h: Hist, a: EndpointId)
    requires Inv(cfg, s, h) && a in s.nodes
    ensures a in s.logs && |s.logs[a]| == s.nodes[a].nextIndex
  {
    hide WiresOK, ReceivedOK, SyncOK, OffersOK, SlotsOK, BallotsOK, EntryOK, RetainOK;
    assert a in s.logs by { hide NodeShape, WiresShape; }
    assert LogOK(cfg, h, s.nodes[a], s.logs[a]);
  }
}
