/** A group whose rounds never exceed 0 appends nothing: the step to a new round is drawn below
    `proposal_increment`, so with an increment of 1 every round is 0, and nobody promises round 0. */
module PaxosStalls {
  import opened Wrappers
  import opened PaxosTypes
  import opened PaxosNode
  import opened PaxosSystem
  import opened PaxosPaths
  import opened PaxosRound
  import opened PaxosLiveness

  predicate StalledSlot(s: Slot) {
    s.learned.None? && (s.instance.Some? ==> Blank(s))
  }

  predicate StalledNode(n: Node) {
    n.increment == 1 && n.nextIndex == 0 && n.buffered == map[] && forall i | i in n.slots :: StalledSlot(n.slots[i])
  }

  predicate Harmless(m: Message) {
    match m
    case Multi(_, i, body) => i == 0 && body == Prepare(0)
    case InformLearned(_, should) => should == map[]
    case LogSyncRequest(_, _) => false
    case LogSyncResponse(_) => false
    case _ => true
  }

  ghost predicate StalledOut(o: Out) {
    StalledNode(o.node) && o.learned == [] && forall k | 0 <= k < |o.sends| :: Harmless(o.sends[k].msg)
  }

  lemma {:induction false} ZeroRound(rand: nat)
    ensures NextRound(0, 1, rand) == 0
  {
  }

  lemma {:induction false} StalledProposal(n: Node, v: PLEntry, rand: nat)
    requires StalledNode(n)
    ensures StalledOut(Propose(n, v, rand))
  {
    ZeroRound(rand);
    hide NextRound;
  }

  lemma {:induction false} StalledInform(n: Node)
    requires StalledNode(n)
    ensures StalledOut(BroadcastInformLearned(n))
  {
    var o := BroadcastInformLearned(n);
    forall k | 0 <= k < |o.sends| ensures Harmless(o.sends[k].msg) {
      assert o.sends[k].msg.InformLearned?;
      assert o.sends[k].msg.shouldLearned == map[];
    }
  }

  /** The three things that a heartbeat can come to. */
  lemma {:induction false} HeartbeatCases(n: Node, rand: nat)
    requires n.increment > 0
    ensures var n1 := n.(heartbeat := n.heartbeat + 1);
      var p := Propose(n1, LeaderChanged(LeadershipId(n.leader.gen + 1, n.me)), rand);
      || LeaderHeartbeat(n, rand) == Then(Out(n, Broadcast(n.nodes, IsLeader(n.leader)), [], true), BroadcastInformLearned(n))
      || LeaderHeartbeat(n, rand) == Then(p, BroadcastInformLearned(p.node))
      || LeaderHeartbeat(n, rand) == Quiet(n1)
  {
    hide Propose, BroadcastInformLearned, Broadcast;
  }

  lemma {:induction false} StalledLeader(n: Node)
    requires StalledNode(n)
    ensures StalledOut(Out(n, Broadcast(n.nodes, IsLeader(n.leader)), [], true)) && n.increment > 0
    ensures StalledNode(n.(heartbeat := n.heartbeat + 1))
  {
  }

  lemma {:induction false} StalledHeartbeat(n: Node, rand: nat)
    requires StalledNode(n)
    ensures StalledOut(LeaderHeartbeat(n, rand))
  {
    var n1 := n.(heartbeat := n.heartbeat + 1);
    var v := LeaderChanged(LeadershipId(n.leader.gen + 1, n.me));
    var p := Propose(n1, v, rand);
    assert StalledOut(p) ==> StalledNode(p.node);
    hide *;
    StalledLeader(n);
    HeartbeatCases(n, rand);
    StalledProposal(n1, v, rand);
    StalledInform(n);
    StalledInform(p.node);
    StalledQuiet(n1);
    StalledThen(p, BroadcastInformLearned(p.node));
    StalledThen(Out(n, Broadcast(n.nodes, IsLeader(n.leader)), [], true), BroadcastInformLearned(n));
  }

  lemma {:induction false} StalledQuiet(n: Node)
    requires StalledNode(n)
    ensures StalledOut(Quiet(n))
  {
  }

  lemma {:induction false} StalledThen(o: Out, p: Out)
    requires StalledOut(o) && StalledOut(p)
    ensures StalledOut(Then(o, p))
  {
  }

  lemma {:induction false} StalledHandle(n: Node, m: Message)
    requires StalledNode(n) && Harmless(m)
    ensures StalledOut(Handle(n, m))
  {
    var o := Internal(n, m);
    assert StalledOut(o) by {
      NothingToDrain(n);
      hide MinComplete;
    }
    NothingToDrain(o.node);
  }

  predicate HarmlessSent(sent: seq<Message>) {
    forall k | 0 <= k < |sent| :: Harmless(sent[k])
  }

  predicate HarmlessWires(wires: Wires) {
    forall c | c in wires :: HarmlessSent(wires[c].sent)
  }

  ghost predicate Stalled(s: Sys) {
    && (forall a | a in s.nodes :: StalledNode(s.nodes[a]))
    && HarmlessWires(s.wires)
    && (forall a | a in s.logs :: s.logs[a] == [])
  }

  lemma {:induction false} StalledPost(wires: Wires, a: EndpointId, sends: seq<Send>)
    requires HarmlessWires(wires) && forall k | 0 <= k < |sends| :: Harmless(sends[k].msg)
    ensures HarmlessWires(Post(wires, a, sends))
  {
    hide Harmless;
    if sends != [] {
      StalledPost(wires, a, sends[..|sends| - 1]);
      var before, x := Post(wires, a, sends[..|sends| - 1]), sends[|sends| - 1];
      var after := PostOne(before, a, x);
      forall c | c in after ensures HarmlessSent(after[c].sent) { assert HarmlessSent(before[c].sent); }
    }
  }

  lemma {:induction false} StalledEvent(s: Sys, e: Event, s0: Sys, a: EndpointId, o: Out)
    requires Stalled(s) && Runs(s, e, s0, a, o)
    ensures StalledOut(o) && Stalled(s0)
  {
    var n := s.nodes[a];
    assert StalledNode(n);
    match e
    case Receive(p, q) =>
      assert HarmlessSent(s.wires[(p, q)].sent);
      hide Handle, StalledNode, Harmless;
      StalledHandle(n, s.wires[(p, q)].sent[s.wires[(p, q)].recv]);
    case InsertEvent(_, uuid, payload, rand) =>
      StalledProposal(n.(nextInsert := Some((uuid, payload))), Bundle(payload), rand);
      hide Propose, Harmless;
    case RetryEvent(_, uuid, rand) =>
      if n.nextInsert.Some? { StalledProposal(n, Bundle(n.nextInsert.value.1), rand); }
      hide Propose, Harmless;
    case HeartbeatEvent(_, rand) =>
      hide LeaderHeartbeat, StalledNode, Harmless;
      StalledHeartbeat(n, rand);
    case NextIndexEvent(_) =>
  }

  /** With an increment of 1 no log of any run ever holds an entry. */
  lemma {:induction false} NothingIsAppended(cfg: Config, states: seq<Sys>, events: seq<Event>, n: nat)
    requires cfg.Valid() && cfg.increment == 1 && Run(cfg, states, events) && n < |states|
    ensures Stalled(states[n])
  {
    hide Runs, Stalled;
    if n == 0 {
      InitiallyStalled(cfg);
    } else {
      NothingIsAppended(cfg, states, events, n - 1);
      assert Step(states[n - 1], events[n - 1], states[n]);
      var s0, a, o :| Runs(states[n - 1], events[n - 1], s0, a, o) && a in s0.logs && states[n] == Apply(s0, a, o);
      hide Apply, Run, StalledOut;
      StalledEvent(states[n - 1], events[n - 1], s0, a, o);
      StalledApply(s0, a, o);
    }
  }

  lemma {:induction false} InitiallyStalled(cfg: Config)
    requires cfg.Valid() && cfg.increment == 1
    ensures Stalled(InitialSys(cfg))
  {
  }

  lemma {:induction false} StalledApply(s: Sys, a: EndpointId, o: Out)
    requires Stalled(s) && StalledOut(o) && a in s.logs
    ensures Stalled(Apply(s, a, o))
  {
    hide StalledNode, Harmless;
    StalledPost(s.wires, a, o.sends);
  }

  /** A run of the members in `live` that appends the bundles. */
  ghost predicate Appends(cfg: Config, live: set<EndpointId>, payloads: seq<int>, states: seq<Sys>, events: seq<Event>)
    requires cfg.Valid()
  {
    && Run(cfg, states, events) && |states| == |events| + 1 && (forall k | 0 <= k < |events| :: Where(events[k]) in live)
    && forall e | e in live :: e in states[|events|].logs && states[|events|].logs[e] == Bundles(payloads)
  }

  /** More than half of the members, the leader among them, can append any bundles by themselves exactly
      if the increment is more than 1. */
  lemma {:induction false} ProgressExactly(cfg: Config, live: set<EndpointId>, payloads: seq<int>)
    requires cfg.Valid() && (forall e | e in live :: e in cfg.members) && 2 * |live| > |cfg.members| && cfg.members[0] in live
    requires payloads != []
    ensures (exists states, events :: Appends(cfg, live, payloads, states, events)) <==> cfg.increment > 1
  {
    if cfg.increment > 1 {
      var states, events, elected := Progress(cfg, live, payloads);
      assert elected + Bundles(payloads) == Bundles(payloads);
      hide Run, Bundles;
      assert |states| == |events| + 1 by { RunIsLonger(cfg, states, events); }
      assert Appends(cfg, live, payloads, states, events);
    } else {
      forall states, events ensures !Appends(cfg, live, payloads, states, events) {
        StallsForever(cfg, live, payloads, states, events);
      }
    }
  }

  lemma {:induction false} StallsForever(cfg: Config, live: set<EndpointId>, payloads: seq<int>, states: seq<Sys>, events: seq<Event>)
    requires cfg.Valid() && cfg.increment == 1 && live != {} && payloads != []
    ensures !Appends(cfg, live, payloads, states, events)
  {
    hide Run;
    var e :| e in live;
    if Appends(cfg, live, payloads, states, events) && |Bundles(payloads)| > 0 {
      NothingIsAppended(cfg, states, events, |events|);
      assert false;
    }
  }

  lemma {:induction false} RunIsLonger(cfg: Config, states: seq<Sys>, events: seq<Event>)
    requires cfg.Valid() && Run(cfg, states, events)
    ensures |states| == |events| + 1
  {
  }
}
