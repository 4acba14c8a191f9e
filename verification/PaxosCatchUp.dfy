/** Whoever has fallen behind can catch up with the leader, whatever has happened before. */
module PaxosCatchUp {
  import opened Wrappers
  import opened PaxosTypes
  import opened PaxosNode
  import opened PaxosSlots
  import opened PaxosSystem
  import opened PaxosInvariant
  import opened PaxosPaths
  import opened PaxosTheorems
  import opened PaxosMajorities

  // ---------------------------------------------------------------------------------------------
  //  One node
  // ---------------------------------------------------------------------------------------------

  /** Some message asks `leader` for the log from an index on that `n` has reached. */
  ghost predicate AsksFor(n: Node, leader: EndpointId, sends: seq<Send>) {
    exists from: PLIndex :: from <= n.nextIndex && Send(leader, LogSyncRequest(n.me, from)) in sends
  }

  lemma {:induction false} AsksStill(n: Node, n': Node, leader: EndpointId, before: seq<Send>, sends: seq<Send>, after: seq<Send>)
    requires n'.me == n.me && n.nextIndex <= n'.nextIndex && AsksFor(n, leader, sends)
    ensures AsksFor(n', leader, before + sends + after)
  {
    var from: PLIndex :| from <= n.nextIndex && Send(leader, LogSyncRequest(n.me, from)) in sends;
    assert Send(leader, LogSyncRequest(n'.me, from)) in before + sends + after;
  }

  /** One round of `OnInformLearned`. */
  lemma {:induction false} InformUnfolds(n: Node, leader: EndpointId, should: map<PLIndex, Rnd>)
    ensures var d := Drain(n); var n1 := d.node; var o := OnInformLearned(n, leader, should);
      && n.nextIndex <= n1.nextIndex && n1.nextIndex <= o.node.nextIndex
      && (CanInform(n1, should) ==>
            var e := Deliver(LearnInformed(n1, should)); var rest := OnInformLearned(e.node, leader, should);
            && n1.nextIndex < e.node.nextIndex && n1.nextIndex in should
            && o.node == rest.node && o.sends == d.sends + rest.sends)
      && (!CanInform(n1, should) ==> o.node == n1)
      && (!CanInform(n1, should) && n1.nextIndex in should ==>
            o.sends == d.sends + [Send(leader, LogSyncRequest(n1.me, n1.nextIndex))])
  {
    var d := Drain(n);
    hide Drain, IndicesAhead;
    if CanInform(d.node, should) {
      var e := Deliver(LearnInformed(d.node, should));
      IndicesAheadMonotone(n, d.node, should);
      IndicesAheadShrinks(d.node, e.node, should);
      assert e.sends == [] && [] + OnInformLearned(e.node, leader, should).sends == OnInformLearned(e.node, leader, should).sends;
      assert n.nextIndex <= d.node.nextIndex by { DrainGrows(n); }
    } else {
      assert n.nextIndex <= d.node.nextIndex by { DrainGrows(n); }
    }
  }

  /** Who is told of rounds up to `bound` reaches it, or asks for the log. */
  lemma {:induction false} InformCatchesUp(n: Node, leader: EndpointId, should: map<PLIndex, Rnd>, bound: PLIndex)
    requires forall i: PLIndex | n.nextIndex <= i < bound :: i in should
    ensures var o := OnInformLearned(n, leader, should); o.node.nextIndex >= bound || AsksFor(o.node, leader, o.sends)
    decreases |IndicesAhead(n, should)|
  {
    var d := Drain(n);
    var n1 := d.node;
    hide Drain, IndicesAhead, AsksFor, Deliver, CanInform, LearnInformed, OnInformLearned;
    InformUnfolds(n, leader, should);
    if CanInform(n1, should) {
      var e := Deliver(LearnInformed(n1, should));
      IndicesAheadMonotone(n, n1, should);
      IndicesAheadShrinks(n1, e.node, should);
      InformCatchesUp(e.node, leader, should, bound);
      var rest := OnInformLearned(e.node, leader, should);
      if AsksFor(rest.node, leader, rest.sends) {
        AsksStill(rest.node, rest.node, leader, d.sends, rest.sends, []);
        assert d.sends + rest.sends + [] == d.sends + rest.sends;
      }
    } else if n1.nextIndex in should {
      var ask := [Send(leader, LogSyncRequest(n1.me, n1.nextIndex))];
      Asked(n1, leader);
      AsksStill(n1, n1, leader, d.sends, ask, []);
      assert d.sends + ask + [] == d.sends + ask;
    }
  }

  lemma {:induction false} Asked(n: Node, leader: EndpointId)
    ensures AsksFor(n, leader, [Send(leader, LogSyncRequest(n.me, n.nextIndex))])
  {
    var from: PLIndex := n.nextIndex;
    assert from <= n.nextIndex && Send(leader, LogSyncRequest(n.me, from)) in [Send(leader, LogSyncRequest(n.me, n.nextIndex))];
  }

  /** Everything adopted is there to be delivered. */
  lemma {:induction false} AdoptedIsLearned(n: Node, learned: seq<(PLIndex, Rnd, PLEntry)>)
    ensures var n1 := AdoptAll(n, learned);
      && n1.nextIndex == n.nextIndex && SameFrame(n, n1)
      && forall k | 0 <= k < |learned| && n.nextIndex <= learned[k].0 :: learned[k].0 in n1.slots && n1.slots[learned[k].0].learned.Some?
    decreases |learned|
  {
    if learned != [] {
      var init := learned[..|learned| - 1];
      AdoptedIsLearned(n, init);
      assert forall k | 0 <= k < |init| :: init[k] == learned[k];
    }
  }

  /** Who adopts the log from an index it has reached up to `bound` reaches `bound`. */
  lemma {:induction false} SyncCatchesUp(n: Node, learned: seq<(PLIndex, Rnd, PLEntry)>, from: PLIndex)
    requires from <= n.nextIndex && forall k | 0 <= k < |learned| :: learned[k].0 == from + k
    ensures OnLogSyncResponse(n, learned).node.nextIndex >= from + |learned|
  {
    AdoptedIsLearned(n, learned);
    var n1 := AdoptAll(n, learned);
    var d := Deliver(n1).node;
    assert d.slots == n1.slots && !Deliverable(d) && n.nextIndex <= d.nextIndex;
    forall i: PLIndex | n.nextIndex <= i < from + |learned| ensures i in n1.slots && n1.slots[i].learned.Some? {
      assert learned[i - from].0 == i;
    }
  }

  // What handling such messages comes to.

  lemma {:induction false} HandleInform(n: Node, leader: EndpointId, should: map<PLIndex, Rnd>, bound: PLIndex)
    requires forall i: PLIndex | n.nextIndex <= i < bound :: i in should
    ensures var o := Handle(n, InformLearned(leader, should)); o.node.nextIndex >= bound || AsksFor(o.node, leader, o.sends)
  {
    var p := OnInformLearned(n, leader, should);
    hide OnInformLearned, Drain, AsksFor;
    InformCatchesUp(n, leader, should, bound);
    var o := Handle(n, InformLearned(leader, should));
    assert o == Then(p, Drain(p.node));
    DrainGrows(p.node);
    if AsksFor(p.node, leader, p.sends) {
      AsksStill(p.node, o.node, leader, [], p.sends, Drain(p.node).sends);
      assert [] + p.sends + Drain(p.node).sends == o.sends;
    }
  }

  lemma {:induction false} DrainGrows(n: Node)
    ensures Drain(n).node.nextIndex >= n.nextIndex && Drain(n).node.me == n.me
  {
  }

  lemma {:induction false} HandleRequest(n: Node, sender: EndpointId, from: PLIndex)
    requires Handle(n, LogSyncRequest(sender, from)).ok
    ensures exists learned: seq<(PLIndex, Rnd, PLEntry)> ::
                              && Send(sender, LogSyncResponse(learned)) in Handle(n, LogSyncRequest(sender, from)).sends
                              && |learned| == (if from < n.nextIndex then n.nextIndex - from else 0)
                              && forall k | 0 <= k < |learned| :: learned[k].0 == from + k
  {
    assert Retains(n, from, n.nextIndex);
    var learned := LearnedRange(n, from, n.nextIndex);
    var o := OnLogSyncRequest(n, sender, from);
    assert o.sends[0] == Send(sender, LogSyncResponse(learned));
    hide Drain;
    assert Send(sender, LogSyncResponse(learned)) in (o.sends + Drain(o.node).sends);
  }

  lemma {:induction false} HandleResponse(n: Node, learned: seq<(PLIndex, Rnd, PLEntry)>, from: PLIndex)
    requires from <= n.nextIndex && forall k | 0 <= k < |learned| :: learned[k].0 == from + k
    ensures Handle(n, LogSyncResponse(learned)).node.nextIndex >= from + |learned|
  {
    hide OnLogSyncResponse, Drain;
    SyncCatchesUp(n, learned, from);
    DrainGrows(OnLogSyncResponse(n, learned).node);
  }

  /** What a leader tells `e` of the rounds that it may lack. */
  lemma {:induction false} LeaderInforms(n: Node, rand: nat, e: EndpointId)
    requires n.increment > 0 && n.leader.eid == n.me && e in n.nodes && LeaderHeartbeat(n, rand).ok
    ensures e in n.remote && exists should: map<PLIndex, Rnd> ::
              && Send(e, InformLearned(n.me, should)) in LeaderHeartbeat(n, rand).sends
              && forall i: PLIndex | n.remote[e] <= i < n.nextIndex :: i in should
  {
    var b := BroadcastInformLearned(n);
    assert CanInformAll(n);
    var k :| 0 <= k < |n.nodes| && n.nodes[k] == e;
    var should := ShouldLearn(n, e);
    assert b.sends[k] == Send(e, InformLearned(n.me, should));
    assert LeaderHeartbeat(n, rand).sends == Broadcast(n.nodes, IsLeader(n.leader)) + b.sends;
    assert Send(e, InformLearned(n.me, should)) in LeaderHeartbeat(n, rand).sends;
  }

  // ---------------------------------------------------------------------------------------------
  //  Going on with a run
  // ---------------------------------------------------------------------------------------------

  /** A run that goes on from another one with events at members of `who` alone. */
  ghost predicate GoesOn(cfg: Config, states: seq<Sys>, events: seq<Event>, states': seq<Sys>, events': seq<Event>, who: set<EndpointId>)
    requires cfg.Valid()
  {
    && Run(cfg, states', events') && |states| == |events| + 1 <= |states'| == |events'| + 1
    && states'[..|states|] == states && events'[..|events|] == events
    && forall k | |events| <= k < |events'| :: Where(events'[k]) in who
  }

  function Last(states: seq<Sys>): Sys
    requires states != []
  {
    states[|states| - 1]
  }

  /** No node has fallen back. */
  ghost predicate Forward(s: Sys, s': Sys) {
    forall a | a in s.nodes :: a in s'.nodes && s.nodes[a].nextIndex <= s'.nodes[a].nextIndex && s'.nodes[a].me == s.nodes[a].me
  }

  lemma {:induction false} StaysOn(cfg: Config, states: seq<Sys>, events: seq<Event>, who: set<EndpointId>)
    requires cfg.Valid() && Run(cfg, states, events)
    ensures GoesOn(cfg, states, events, states, events, who) && Forward(Last(states), Last(states))
  {
    assert states[..|states|] == states && events[..|events|] == events;
  }

  lemma {:induction false} OneFurther(cfg: Config, states: seq<Sys>, events: seq<Event>, e: Event, s': Sys, who: set<EndpointId>)
    requires cfg.Valid() && Run(cfg, states, events) && states != [] && Step(Last(states), e, s') && Where(e) in who
    ensures GoesOn(cfg, states, events, states + [s'], events + [e], who)
  {
    hide Step;
  }

  lemma {:induction false} FurtherOn(cfg: Config, states: seq<Sys>, events: seq<Event>, states1: seq<Sys>, events1: seq<Event>,
                                     states2: seq<Sys>, events2: seq<Event>, who: set<EndpointId>)
    requires cfg.Valid() && GoesOn(cfg, states, events, states1, events1, who) && GoesOn(cfg, states1, events1, states2, events2, who)
    ensures GoesOn(cfg, states, events, states2, events2, who)
    ensures Forward(Last(states), Last(states1)) && Forward(Last(states1), Last(states2)) ==> Forward(Last(states), Last(states2))
  {
    hide Run;
    assert states2[..|states|] == states2[..|states1|][..|states|];
    assert events2[..|events|] == events2[..|events1|][..|events|];
    forall k | |events| <= k < |events2| ensures Where(events2[k]) in who {
      if k < |events1| { assert events2[k] == events2[..|events1|][k]; }
    }
  }

  /** `m` has been sent from `p` to `q` and is the `k`-th message to be received from now. */
  predicate OnItsWay(s: Sys, p: EndpointId, q: EndpointId, k: nat, m: Message) {
    (p, q) in s.wires && s.wires[(p, q)].recv + k < |s.wires[(p, q)].sent| && s.wires[(p, q)].sent[s.wires[(p, q)].recv + k] == m
  }

  lemma {:induction false} ToHolds(sends: seq<Send>, q: EndpointId, m: Message) returns (k: nat)
    requires Send(q, m) in sends
    ensures k < |To(sends, q)| && To(sends, q)[k] == m
  {
    var init, x := sends[..|sends| - 1], sends[|sends| - 1];
    if x == Send(q, m) {
      k := |To(init, q)|;
    } else {
      assert sends == init + [x];
      k := ToHolds(init, q, m);
    }
  }

  /** What a node sends is on its way. */
  lemma {:induction false} SentOff(s: Sys, a: EndpointId, o: Out, q: EndpointId, m: Message) returns (k: nat)
    requires a in s.logs && (a, q) in s.wires && s.wires[(a, q)].recv <= |s.wires[(a, q)].sent| && Send(q, m) in o.sends
    ensures OnItsWay(Apply(s, a, o), a, q, k, m)
  {
    var j := ToHolds(o.sends, q, m);
    PostPends(s.wires, a, o.sends, a, q);
    k := |s.wires[(a, q)].sent| - s.wires[(a, q)].recv + j;
  }

  // ---------------------------------------------------------------------------------------------
  //  Receiving until a message arrives
  // ---------------------------------------------------------------------------------------------

  ghost predicate InGroup(cfg: Config, s: Sys) {
    && (forall p, q | p in cfg.members && q in cfg.members :: (p, q) in s.wires && s.wires[(p, q)].recv <= |s.wires[(p, q)].sent|)
    && (forall a | a in cfg.members :: a in s.nodes && a in s.logs && s.nodes[a].me == a && s.nodes[a].nodes == cfg.members
                                       && s.nodes[a].increment == cfg.increment)
  }

  lemma {:induction false} RunInGroup(cfg: Config, states: seq<Sys>, events: seq<Event>)
    requires cfg.Valid() && Run(cfg, states, events)
    ensures states != [] && InGroup(cfg, Last(states))
  {
    hide Inv, Run, HistExtends, OffersHappened;
    RunLength(cfg, states, events);
    var hs := RunHistories(cfg, states, events, |events|);
    PaxosCounting.WiresBounded(cfg, Last(states), hs[|events|]);
    InvInGroup(cfg, Last(states), hs[|events|]);
  }

  lemma {:induction false} InvInGroup(cfg: Config, s: Sys, h: Hist)
    requires Inv(cfg, s, h) && PaxosCounting.Bounded(s.wires)
    ensures InGroup(cfg, s)
  {
    hide WiresOK, ReceivedOK, SyncOK, OffersOK, SlotsOK, BallotsOK, NodesOK, NodesShape, WiresShape, Senders, InGroup;
    ShapeInGroup(cfg, s);
  }

  lemma {:induction false} ShapeInGroup(cfg: Config, s: Sys)
    requires NodesShape(cfg, s.nodes) && s.logs.Keys == Senders(cfg.members) && WiresShape(cfg, s.wires) && PaxosCounting.Bounded(s.wires)
    ensures InGroup(cfg, s)
  {
    forall p, q | p in cfg.members && q in cfg.members
      ensures (p, q) in s.wires && s.wires[(p, q)].recv <= |s.wires[(p, q)].sent|
    {
      assert p in Senders(cfg.members) && q in Senders(cfg.members);
    }
    forall a | a in cfg.members
      ensures a in s.nodes && a in s.logs && s.nodes[a].me == a && s.nodes[a].nodes == cfg.members && s.nodes[a].increment == cfg.increment
    {
      assert a in Senders(cfg.members) && a in s.nodes.Keys && a in s.logs.Keys;
      assert NodeShape(cfg, a, s.nodes[a]);
    }
  }

  /** The message at the head of a channel is received. */
  lemma {:induction false} TakeHead(cfg: Config, states: seq<Sys>, events: seq<Event>, p: EndpointId, q: EndpointId, m: Message, who: set<EndpointId>)
    returns (s': Sys, s0: Sys)
    requires q in who && cfg.Valid() && Run(cfg, states, events) && states != [] && p in cfg.members && q in cfg.members
    requires OnItsWay(Last(states), p, q, 0, m)
    ensures var s := Last(states); q in s.nodes && var o := Handle(s.nodes[q], m);
      && Step(s, Receive(p, q), s') && Run(cfg, states + [s'], events + [Receive(p, q)])
      && GoesOn(cfg, states, events, states + [s'], events + [Receive(p, q)], who) && Forward(s, s')
      && o.ok && s0.nodes == s.nodes && q in s0.logs && s' == Apply(s0, q, o) && InGroup(cfg, s0)
      && forall k: nat, n | OnItsWay(s, p, q, k + 1, n) :: OnItsWay(s', p, q, k, n)
  {
    var s := Last(states);
    RunInGroup(cfg, states, events);
    var o := Handle(s.nodes[q], m);
    s0 := Received(s, p, q);
    s' := Apply(s0, q, o);
    hide Run, Handle, Apply, GoesOn, Forward;
    HeadRuns(cfg, s, p, q, m);
    RunLength(cfg, states, events);
    NeverPanics(cfg, states, events, Receive(p, q), s0, q, o);
    OneFurther(cfg, states, events, Receive(p, q), s', who);
    GoneOn(cfg, states, events, states + [s'], events + [Receive(p, q)], who);
  }

  lemma {:induction false} HeadRuns(cfg: Config, s: Sys, p: EndpointId, q: EndpointId, m: Message)
    requires InGroup(cfg, s) && p in cfg.members && q in cfg.members && OnItsWay(s, p, q, 0, m)
    ensures var o, s0 := Handle(s.nodes[q], m), Received(s, p, q); var s' := Apply(s0, q, o);
      && Runs(s, Receive(p, q), s0, q, o) && Step(s, Receive(p, q), s') && InGroup(cfg, s0) && Forward(s, s')
      && s'.nodes == s.nodes[q := o.node]
      && forall k: nat, n | OnItsWay(s, p, q, k + 1, n) :: OnItsWay(s', p, q, k, n)
  {
    var o, s0 := Handle(s.nodes[q], m), Received(s, p, q);
    HandleForward(s.nodes[q], m);
    assert s.wires[(p, q)].sent[s.wires[(p, q)].recv] == m;
    hide Handle, Post, InGroup;
    assert Runs(s, Receive(p, q), s0, q, o) by { assert q in s.logs by { GroupAt(cfg, s, q); } }
    GroupAt(cfg, s, q);
    ReceivedInGroup(cfg, s, p, q);
    ReceivedMoves(s, p, q, o);
  }

  lemma {:induction false} GroupAt(cfg: Config, s: Sys, a: EndpointId)
    requires InGroup(cfg, s) && a in cfg.members
    ensures a in s.nodes && a in s.logs && s.nodes[a].me == a
  {
  }

  lemma {:induction false} ReceivedInGroup(cfg: Config, s: Sys, p: EndpointId, q: EndpointId)
    requires InGroup(cfg, s) && (p, q) in s.wires && s.wires[(p, q)].recv < |s.wires[(p, q)].sent|
    ensures InGroup(cfg, Received(s, p, q))
  {
  }

  lemma {:induction false} ReceivedMoves(s: Sys, p: EndpointId, q: EndpointId, o: Out)
    requires (p, q) in s.wires && q in s.logs
    ensures forall k: nat, n | OnItsWay(s, p, q, k + 1, n) :: OnItsWay(Apply(Received(s, p, q), q, o), p, q, k, n)
  {
    PostPends(Received(s, p, q).wires, q, o.sends, p, q);
  }

  lemma {:induction false} HandleForward(n: Node, m: Message)
    ensures Handle(n, m).node.nextIndex >= n.nextIndex && Handle(n, m).node.me == n.me
  {
  }

  /** Receives from `p` at `q` until `m` is next. */
  lemma {:induction false} TakeUntil(cfg: Config, states: seq<Sys>, events: seq<Event>, p: EndpointId, q: EndpointId, k: nat, m: Message, who: set<EndpointId>)
    returns (states': seq<Sys>, events': seq<Event>)
    requires q in who && cfg.Valid() && Run(cfg, states, events) && states != [] && p in cfg.members && q in cfg.members
    requires OnItsWay(Last(states), p, q, k, m)
    ensures GoesOn(cfg, states, events, states', events', who) && states' != [] && Forward(Last(states), Last(states'))
    ensures OnItsWay(Last(states'), p, q, 0, m)
    decreases k
  {
    hide Run, Step, InGroup, Handle, Forward, GoesOn;
    if k == 0 {
      states', events' := states, events;
      StaysOn(cfg, states, events, who);
    } else {
      var s := Last(states);
      var head := s.wires[(p, q)].sent[s.wires[(p, q)].recv];
      assert OnItsWay(s, p, q, 0, head);
      var s1, s0 := TakeHead(cfg, states, events, p, q, head, who);
      var states1, events1 := states + [s1], events + [Receive(p, q)];
      assert Last(states1) == s1 && OnItsWay(s, p, q, (k - 1) + 1, m);
      states', events' := TakeUntil(cfg, states1, events1, p, q, k - 1, m, who);
      FurtherOn(cfg, states, events, states1, events1, states', events', who);
    }
  }

  // ---------------------------------------------------------------------------------------------
  //  Catching up
  // ---------------------------------------------------------------------------------------------

  /** A leader tells `e` what it has learned. */
  lemma {:induction false} LeaderSpeaks(cfg: Config, states: seq<Sys>, events: seq<Event>, a: EndpointId, e: EndpointId, who: set<EndpointId>)
    returns (states': seq<Sys>, events': seq<Event>, k: nat, should: map<PLIndex, Rnd>)
    requires cfg.Valid() && Run(cfg, states, events) && states != [] && a in cfg.members && e in cfg.members && a in who
    requires a in Last(states).nodes && e in Last(states).nodes && Last(states).nodes[a].leader.eid == a
    ensures GoesOn(cfg, states, events, states', events', who) && states' != [] && Forward(Last(states), Last(states'))
    ensures OnItsWay(Last(states'), a, e, k, InformLearned(a, should))
    ensures forall i: PLIndex | Last(states).nodes[e].nextIndex <= i < Last(states).nodes[a].nextIndex :: i in should
  {
    var s := Last(states);
    RunInGroup(cfg, states, events);
    RunLength(cfg, states, events);
    var n := s.nodes[a];
    var o := LeaderHeartbeat(n, 0);
    var s' := Apply(s, a, o);
    hide Run, LeaderHeartbeat, Apply, GoesOn, Step, Forward, Runs;
    HeartbeatRuns(cfg, s, a);
    NeverPanics(cfg, states, events, HeartbeatEvent(a, 0), s, a, o);
    OneFurther(cfg, states, events, HeartbeatEvent(a, 0), s', who);
    Retention(cfg, states, events, |events|, a);
    k, should := InformOff(cfg, s, a, e);
    states', events' := states + [s'], events + [HeartbeatEvent(a, 0)];
  }

  lemma {:induction false} InformOff(cfg: Config, s: Sys, a: EndpointId, e: EndpointId) returns (k: nat, should: map<PLIndex, Rnd>)
    requires InGroup(cfg, s) && cfg.Valid() && a in cfg.members && e in cfg.members && s.nodes[a].leader.eid == a
    requires LeaderHeartbeat(s.nodes[a], 0).ok
    ensures OnItsWay(Apply(s, a, LeaderHeartbeat(s.nodes[a], 0)), a, e, k, InformLearned(a, should))
    ensures e in s.nodes[a].remote && forall i: PLIndex | s.nodes[a].remote[e] <= i < s.nodes[a].nextIndex :: i in should
  {
    var n := s.nodes[a];
    var o := LeaderHeartbeat(n, 0);
    assert (a, e) in s.wires && n.increment > 0 && e in n.nodes && n.me == a;
    hide LeaderHeartbeat, Apply;
    LeaderInforms(n, 0, e);
    should :| Send(e, InformLearned(a, should)) in o.sends && forall i: PLIndex | n.remote[e] <= i < n.nextIndex :: i in should;
    k := SentOff(s, a, o, e, InformLearned(a, should));
  }

  lemma {:induction false} HeartbeatRuns(cfg: Config, s: Sys, a: EndpointId)
    requires InGroup(cfg, s) && cfg.Valid() && a in cfg.members && s.nodes[a].leader.eid == a
    ensures var o := LeaderHeartbeat(s.nodes[a], 0); var s' := Apply(s, a, o);
      Runs(s, HeartbeatEvent(a, 0), s, a, o) && Step(s, HeartbeatEvent(a, 0), s') && Forward(s, s')
  {
    var o := LeaderHeartbeat(s.nodes[a], 0);
    assert o.node == s.nodes[a];
    hide LeaderHeartbeat, Post;
    assert Runs(s, HeartbeatEvent(a, 0), s, a, o);
  }

  /** `e` is told, and reaches the leader's index or asks for the log. */
  lemma {:induction false} MemberHears(cfg: Config, states: seq<Sys>, events: seq<Event>, a: EndpointId, e: EndpointId, k: nat,
                                       should: map<PLIndex, Rnd>, bound: PLIndex, who: set<EndpointId>)
    returns (states': seq<Sys>, events': seq<Event>)
    requires cfg.Valid() && Run(cfg, states, events) && states != [] && a in cfg.members && e in cfg.members && e in who
    requires e in Last(states).nodes && OnItsWay(Last(states), a, e, k, InformLearned(a, should))
    requires forall i: PLIndex | Last(states).nodes[e].nextIndex <= i < bound :: i in should
    ensures GoesOn(cfg, states, events, states', events', who) && states' != [] && Forward(Last(states), Last(states'))
    ensures e in Last(states').nodes
    ensures var s' := Last(states');
      (s'.nodes[e].nextIndex >= bound
       || exists j: nat, from: PLIndex :: from <= s'.nodes[e].nextIndex && OnItsWay(s', e, a, j, LogSyncRequest(e, from)))
  {
    hide Run, GoesOn, Handle, Apply, Step;
    var states1, events1 := TakeUntil(cfg, states, events, a, e, k, InformLearned(a, should), who);
    GoneOn(cfg, states, events, states1, events1, who);
    var s1 := Last(states1);
    RunInGroup(cfg, states1, events1);
    var s2, s0 := TakeHead(cfg, states1, events1, a, e, InformLearned(a, should), who);
    states', events' := states1 + [s2], events1 + [Receive(a, e)];
    FurtherOn(cfg, states, events, states1, events1, states', events', who);
    var n, o := s1.nodes[e], Handle(s1.nodes[e], InformLearned(a, should));
    HandleInform(n, a, should, bound);
    assert s2.nodes[e] == o.node by { hide Handle; assert Apply(s0, e, o).nodes == s0.nodes[e := o.node] by { ApplyNodes(s0, e, o); } }
    if o.node.nextIndex < bound {
      var from: PLIndex :| from <= o.node.nextIndex && Send(a, LogSyncRequest(o.node.me, from)) in o.sends;
      HandleForward(n, InformLearned(a, should));
      var j := SentOff(s0, e, o, a, LogSyncRequest(e, from));
      assert OnItsWay(Last(states'), e, a, j, LogSyncRequest(e, from));
    }
  }

  lemma {:induction false} GoneOn(cfg: Config, states: seq<Sys>, events: seq<Event>, states': seq<Sys>, events': seq<Event>, who: set<EndpointId>)
    requires cfg.Valid() && GoesOn(cfg, states, events, states', events', who)
    ensures Run(cfg, states', events') && |states'| == |events'| + 1 && |states| <= |states'|
    ensures forall k | 0 <= k < |states| :: states'[k] == states[k]
  {
    hide Run;
    assert forall k | 0 <= k < |states| :: states'[..|states|][k] == states'[k];
  }

  lemma {:induction false} ApplyNodes(s: Sys, a: EndpointId, o: Out)
    requires a in s.logs
    ensures Apply(s, a, o).nodes == s.nodes[a := o.node]
  {
  }

  /** The leader is asked, and sends its log. */
  lemma {:induction false} LeaderSends(cfg: Config, states: seq<Sys>, events: seq<Event>, a: EndpointId, e: EndpointId, k: nat, from: PLIndex, who: set<EndpointId>)
    returns (states': seq<Sys>, events': seq<Event>, j: nat, learned: seq<(PLIndex, Rnd, PLEntry)>)
    requires cfg.Valid() && Run(cfg, states, events) && states != [] && a in cfg.members && e in cfg.members && a in who
    requires a in Last(states).nodes && OnItsWay(Last(states), e, a, k, LogSyncRequest(e, from))
    ensures GoesOn(cfg, states, events, states', events', who) && states' != [] && Forward(Last(states), Last(states'))
    ensures OnItsWay(Last(states'), a, e, j, LogSyncResponse(learned))
    ensures from + |learned| >= Last(states).nodes[a].nextIndex && forall i | 0 <= i < |learned| :: learned[i].0 == from + i
  {
    hide Run, GoesOn, Handle, Apply, Step;
    var states1, events1 := TakeUntil(cfg, states, events, e, a, k, LogSyncRequest(e, from), who);
    GoneOn(cfg, states, events, states1, events1, who);
    var s1 := Last(states1);
    var s2, s0 := TakeHead(cfg, states1, events1, e, a, LogSyncRequest(e, from), who);
    states', events' := states1 + [s2], events1 + [Receive(e, a)];
    FurtherOn(cfg, states, events, states1, events1, states', events', who);
    var n, o := s1.nodes[a], Handle(s1.nodes[a], LogSyncRequest(e, from));
    HandleRequest(n, e, from);
    learned :| Send(e, LogSyncResponse(learned)) in o.sends && |learned| == (if from < n.nextIndex then n.nextIndex - from else 0)
               && forall i | 0 <= i < |learned| :: learned[i].0 == from + i;
    j := SentOff(s0, a, o, e, LogSyncResponse(learned));
  }

  /** `e` receives the log. */
  lemma {:induction false} MemberAdopts(cfg: Config, states: seq<Sys>, events: seq<Event>, a: EndpointId, e: EndpointId, k: nat,
                                        learned: seq<(PLIndex, Rnd, PLEntry)>, from: PLIndex, who: set<EndpointId>)
    returns (states': seq<Sys>, events': seq<Event>)
    requires cfg.Valid() && Run(cfg, states, events) && states != [] && a in cfg.members && e in cfg.members && e in who
    requires e in Last(states).nodes && OnItsWay(Last(states), a, e, k, LogSyncResponse(learned))
    requires from <= Last(states).nodes[e].nextIndex && forall i | 0 <= i < |learned| :: learned[i].0 == from + i
    ensures GoesOn(cfg, states, events, states', events', who) && states' != []
    ensures e in Last(states').nodes && Last(states').nodes[e].nextIndex >= from + |learned|
  {
    hide Run, GoesOn, Handle, Apply, Step;
    var states1, events1 := TakeUntil(cfg, states, events, a, e, k, LogSyncResponse(learned), who);
    GoneOn(cfg, states, events, states1, events1, who);
    var s1 := Last(states1);
    var s2, s0 := TakeHead(cfg, states1, events1, a, e, LogSyncResponse(learned), who);
    states', events' := states1 + [s2], events1 + [Receive(a, e)];
    FurtherOn(cfg, states, events, states1, events1, states', events', who);
    HandleResponse(s1.nodes[e], learned, from);
    ApplyNodes(s0, e, Handle(s1.nodes[e], LogSyncResponse(learned)));
  }

  lemma {:induction false} Reaches(cfg: Config, states: seq<Sys>, events: seq<Event>, a: EndpointId, e: EndpointId)
    returns (states': seq<Sys>, events': seq<Event>)
    requires cfg.Valid() && Run(cfg, states, events) && states != [] && a in cfg.members && e in cfg.members
    requires a in Last(states).nodes && e in Last(states).nodes && Last(states).nodes[a].leader.eid == a
    ensures GoesOn(cfg, states, events, states', events', {a, e}) && states' != []
    ensures e in Last(states').nodes && Last(states').nodes[e].nextIndex >= Last(states).nodes[a].nextIndex
  {
    hide Run, GoesOn;
    var who, bound := {a, e}, Last(states).nodes[a].nextIndex;
    var states1, events1, k1, should := LeaderSpeaks(cfg, states, events, a, e, who);
    GoneOn(cfg, states, events, states1, events1, who);
    var states2, events2 := MemberHears(cfg, states1, events1, a, e, k1, should, bound, who);
    GoneOn(cfg, states1, events1, states2, events2, who);
    FurtherOn(cfg, states, events, states1, events1, states2, events2, who);
    states', events' := states2, events2;
    if Last(states2).nodes[e].nextIndex < bound {
      var k2: nat, from: PLIndex :| from <= Last(states2).nodes[e].nextIndex && OnItsWay(Last(states2), e, a, k2, LogSyncRequest(e, from));
      var states3, events3, k3, learned := LeaderSends(cfg, states2, events2, a, e, k2, from, who);
      GoneOn(cfg, states2, events2, states3, events3, who);
      FurtherOn(cfg, states, events, states2, events2, states3, events3, who);
      states', events' := MemberAdopts(cfg, states3, events3, a, e, k3, learned, from, who);
      FurtherOn(cfg, states, events, states3, events3, states', events', who);
    }
  }

  /** Catching up: whatever a run has done, if its last state has a leader then the run can go on with
      events at the leader and at a given member alone until the log of the member holds everything
      that the log of the leader held. */
  lemma {:induction false} CatchUp(cfg: Config, states: seq<Sys>, events: seq<Event>, a: EndpointId, e: EndpointId)
    returns (states': seq<Sys>, events': seq<Event>)
    requires cfg.Valid() && Run(cfg, states, events) && states != [] && a in cfg.members && e in cfg.members
    requires a in Last(states).nodes && Last(states).nodes[a].leader.eid == a
    ensures GoesOn(cfg, states, events, states', events', {a, e}) && states' != []
    ensures a in Last(states).logs && e in Last(states').logs
            && var before, after := Last(states).logs[a], Last(states').logs[e]; |before| <= |after| && after[..|before|] == before
  {
    hide Run, GoesOn;
    RunInGroup(cfg, states, events);
    RunLength(cfg, states, events);
    states', events' := Reaches(cfg, states, events, a, e);
    GoneOn(cfg, states, events, states', events', {a, e});
    LogReaches(cfg, states, events, |events|, a);
    LogReaches(cfg, states', events', |events'|, e);
    var before, after := Last(states).logs[a], Last(states').logs[e];
    forall i | 0 <= i < |before| ensures after[i] == before[i] {
      assert states'[|events|] == Last(states);
      Agreement(cfg, states', events', |events|, |events'|, a, e, i, before[i], after[i]);
    }
  }
}
