/** As long as more than half of the members take part, the group can append whatever is inserted:
    through its leader, or, if the leader takes no part, through a new one that it elects. */
module PaxosLiveness {
  import opened Wrappers
  import opened PaxosTypes
  import opened PaxosNode
  import opened PaxosSystem
  import opened PaxosPaths
  import opened PaxosRound
  import opened PaxosProgress

  // ---------------------------------------------------------------------------------------------
  //  A group at rest
  // ---------------------------------------------------------------------------------------------

  /** The members in `live`, all of which hold `log` and follow `leader`. */
  datatype Rest = Rest(
    members: seq<EndpointId>, threshold: nat, increment: nat, live: seq<EndpointId>, leader: LeadershipId, log: seq<PLEntry>)
  {
    ghost predicate Valid() {
      && Distinct(members) && Distinct(live) && (forall e | e in live :: e in members)
      && 2 * |live| > |members| && increment > 1
    }

    predicate Trifling(m: Message) {
      (m.InformLearned? && |log| !in m.shouldLearned) || (m.Multi? && m.index == |log| && m.body == Prepare(0))
    }

    function InRound(value: PLEntry, extra: seq<seq<Message>>): Round {
      Round(members, threshold, increment, live, leader, log, 1, value, extra)
    }
  }

  /** Nothing was promised, accepted or learned in a slot. */
  predicate Blank(s: Slot)
    requires s.instance.Some?
  {
    var inst := s.instance.value;
    s.learned.None? && inst.rnd == 0 && inst.vote.None? && inst.learned == map[] && inst.learnedVrnd.None? && inst.latestCrnd == 0
  }

  predicate CalmNode(g: Rest, n: Node, a: EndpointId) {
    && n.me == a && n.nodes == g.members && n.threshold == g.threshold && n.increment == g.increment
    && n.buffered == map[] && a in n.remote && a in g.members && n.remote[a] <= |g.log|
    && (forall j | j in n.slots :: j <= |g.log|) && Complete(n, |g.log|)
    && Blank(SlotWithInstance(n, |g.log|))
    && n.nextIndex == |g.log| && n.leader == g.leader && n.nextInsert.None?
  }

  ghost predicate Calm(g: Rest, s: Sys) {
    CalmBut(g, s, 0, seq(|g.live|, _ => []))
  }

  ghost predicate CalmNodes(g: Rest, s: Sys) {
    && g.Valid() && Present(s, g.live)
    && forall j: nat | j < |g.live| :: CalmNode(g, s.nodes[g.live[j]], g.live[j]) && s.logs[g.live[j]] == g.log
  }

  ghost predicate Trifles(g: Rest, tails: seq<seq<Message>>) {
    forall m: nat, k: nat | m < |tails| && k < |tails[m]| :: g.Trifling(tails[m][k])
  }

  function TailOf(tails: seq<seq<Message>>, i: nat, j: nat, m: nat): seq<Message>
    requires m < |tails|
  {
    if j == i then tails[m] else []
  }

  /** Nothing is under way but `tails`, from `live[i]`. */
  ghost predicate Tails(g: Rest, s: Sys, i: nat, tails: seq<seq<Message>>) {
    && |tails| == |g.live| && i < |g.live| && Trifles(g, tails)
    && forall j: nat, m: nat | j < |g.live| && m < |g.live| :: Pending(s, g.live[j], g.live[m], TailOf(tails, i, j, m))
  }

  ghost predicate CalmBut(g: Rest, s: Sys, i: nat, tails: seq<seq<Message>>) {
    CalmNodes(g, s) && Tails(g, s, i, tails)
  }

  function Heartbeats(g: Rest, s: Sys): seq<nat>
    requires Present(s, g.live)
  {
    seq(|g.live|, j requires 0 <= j < |g.live| => s.nodes[g.live[j]].heartbeat)
  }

  // ---------------------------------------------------------------------------------------------
  //  Rivals that do not matter
  // ---------------------------------------------------------------------------------------------

  lemma {:induction false} CalmHandles(g: Rest, n: Node, a: EndpointId, m: Message)
    requires CalmNode(g, n, a) && g.Trifling(m)
    ensures var o := Handle(n, m);
      CalmNode(g, o.node, a) && o.sends == [] && o.learned == [] && o.node.heartbeat == n.heartbeat
  {
    NothingToDrain(n);
    if m.Multi? {
      var n1 := PutSlot(n, |g.log|, SlotWithInstance(n, |g.log|));
      NothingToDrain(n1);
      MinOverIsMinimum(n.nodes, n.remote, n.nextIndex);
      assert Internal(n, m) == Quiet(n) || Internal(n, m) == Quiet(n1);
    }
  }

  /** One member takes a step that leaves it at rest. */
  lemma {:induction false} OneStays(g: Rest, s: Sys, m: nat, n: Node, s': Sys)
    requires CalmNodes(g, s) && m < |g.live| && CalmNode(g, n, g.live[m])
    requires s'.nodes == s.nodes[g.live[m] := n] && s'.logs == s.logs[g.live[m] := g.log]
    ensures CalmNodes(g, s')
    ensures forall j: nat | j < |g.live| :: Heartbeats(g, s')[j] == if j == m then n.heartbeat else Heartbeats(g, s)[j]
  {
    hide CalmNode;
    assert forall j: nat | j < |g.live| && j != m :: g.live[j] != g.live[m];
  }

  lemma {:induction false} TakeOne(g: Rest, s: Sys, i: nat, tails: seq<seq<Message>>, m: nat) returns (s': Sys)
    requires CalmBut(g, s, i, tails) && m < |tails| && tails[m] != []
    ensures Leads(g.live, s, s') && CalmBut(g, s', i, tails[m := tails[m][1..]]) && Present(s', g.live)
    ensures Heartbeats(g, s') == Heartbeats(g, s)
  {
    var p, q, ms := g.live[i], g.live[m], tails[m];
    assert g.Trifling(ms[0]) && Present(s, g.live) && s.logs[q] == g.log && CalmNode(g, s.nodes[q], q);
    assert Pending(s, p, q, TailOf(tails, i, i, m));
    assert s.logs[q] + [] == g.log;
    hide Handle, CalmNodes, Tails, Leads, Pending, Step, CalmNode;
    CalmHandles(g, s.nodes[q], q, ms[0]);
    s' := ReceiveStep(s, p, q, ms);
    LeadsStep(g.live, s, Receive(p, q), s');
    OneStays(g, s, m, Handle(s.nodes[q], ms[0]).node, s');
    TakenPends(g, s, i, tails, m, s');
    CalmPresent(g, s');
  }

  lemma {:induction false} CalmPresent(g: Rest, s: Sys)
    requires CalmNodes(g, s)
    ensures Present(s, g.live) && g.Valid()
  {
  }

  lemma {:induction false} TakenPend(g: Rest, s: Sys, i: nat, tails: seq<seq<Message>>, m: nat, s': Sys, x: nat, y: nat)
    requires g.Valid() && Tails(g, s, i, tails) && m < |tails| && tails[m] != [] && x < |tails| && y < |tails| && g.live[m] in s.nodes
    requires Receives(s, g.live[i], g.live[m], tails[m][0], s') && Handle(s.nodes[g.live[m]], tails[m][0]).sends == []
    ensures Pending(s', g.live[x], g.live[y], TailOf(tails[m := tails[m][1..]], i, x, y))
  {
    hide Handle;
    var ms := TailOf(tails, i, x, y);
    assert Pending(s, g.live[x], g.live[y], ms);
    assert (g.live[x], g.live[y]) == (g.live[i], g.live[m]) <==> x == i && y == m;
    hide Pending, Trifles;
    assert To([], g.live[y]) == [];
    assert ms + [] == ms;
    if x == i && y == m {
      assert ms[1..] + [] == ms[1..];
    }
  }

  lemma {:induction false} TakenPends(g: Rest, s: Sys, i: nat, tails: seq<seq<Message>>, m: nat, s': Sys)
    requires g.Valid() && Tails(g, s, i, tails) && m < |tails| && tails[m] != [] && g.live[m] in s.nodes
    requires Receives(s, g.live[i], g.live[m], tails[m][0], s') && Handle(s.nodes[g.live[m]], tails[m][0]).sends == []
    ensures Tails(g, s', i, tails[m := tails[m][1..]])
  {
    var rest := tails[m := tails[m][1..]];
    assert Trifles(g, rest) by { FewerTrifles(g, tails, m); }
    hide Handle, Pending, Receives, Trifles, TailOf;
    forall x: nat, y: nat | x < |g.live| && y < |g.live| ensures Pending(s', g.live[x], g.live[y], TailOf(rest, i, x, y)) {
      TakenPend(g, s, i, tails, m, s', x, y);
    }
  }

  lemma {:induction false} FewerTrifles(g: Rest, tails: seq<seq<Message>>, m: nat)
    requires Trifles(g, tails) && m < |tails| && tails[m] != []
    ensures Trifles(g, tails[m := tails[m][1..]])
  {
    hide g.Trifling;
    var rest := tails[m := tails[m][1..]];
    forall x: nat, k: nat | x < |rest| && k < |rest[x]| ensures g.Trifling(rest[x][k]) {
      assert rest[x][k] == tails[x][if x == m then k + 1 else k];
    }
  }

  lemma {:induction false} TakeAll(g: Rest, s: Sys, i: nat, tails: seq<seq<Message>>, m: nat) returns (s': Sys)
    requires CalmBut(g, s, i, tails) && m <= |tails| && forall y: nat | y < m :: tails[y] == []
    ensures Leads(g.live, s, s') && Calm(g, s') && Present(s, g.live) && Present(s', g.live)
    ensures Heartbeats(g, s') == Heartbeats(g, s)
    decreases |tails| - m, if m < |tails| then |tails[m]| else 0
  {
    hide *;
    ButPresent(g, s, i, tails);
    if m == |tails| {
      NothingLeft(g, s, i, tails);
      s' := s;
      LeadsNowhere(g.live, s);
    } else if tails[m] == [] {
      s' := TakeAll(g, s, i, tails, m + 1);
    } else {
      var s1 := TakeOne(g, s, i, tails, m);
      s' := TakeAll(g, s1, i, tails[m := tails[m][1..]], m);
      LeadsOn(g.live, s, s1, s');
    }
  }

  lemma {:induction false} ButPresent(g: Rest, s: Sys, i: nat, tails: seq<seq<Message>>)
    requires CalmBut(g, s, i, tails)
    ensures Present(s, g.live) && |tails| == |g.live|
  {
  }

  lemma {:induction false} NothingLeft(g: Rest, s: Sys, i: nat, tails: seq<seq<Message>>)
    requires CalmBut(g, s, i, tails) && forall y: nat | y < |tails| :: tails[y] == []
    ensures Calm(g, s)
  {
    hide CalmNodes;
    var none: seq<seq<Message>> := seq(|g.live|, _ => []);
    forall j: nat, m: nat | j < |g.live| && m < |g.live|
      ensures Pending(s, g.live[j], g.live[m], TailOf(none, 0, j, m))
    {
      assert Pending(s, g.live[j], g.live[m], TailOf(tails, i, j, m));
      hide Pending;
    }
  }

  // ---------------------------------------------------------------------------------------------
  //  Heartbeats that fail to come
  // ---------------------------------------------------------------------------------------------

  function Campaign(g: Rest, a: EndpointId): PLEntry {
    LeaderChanged(LeadershipId(g.leader.gen + 1, a))
  }

  /** A list with one message for each member. */
  lemma {:induction false} ToOwn(nodes: seq<EndpointId>, sends: seq<Send>, m: nat)
    requires Distinct(nodes) && |sends| == |nodes| && m < |nodes| && forall k | 0 <= k < |nodes| :: sends[k].to == nodes[k]
    ensures To(sends, nodes[m]) == [sends[m].msg]
  {
    var n := |nodes| - 1;
    var init := sends[..n];
    if m == n {
      ToNobody(init, nodes[m]);
    } else {
      ToOwn(nodes[..n], init, m);
    }
  }

  lemma {:induction false} ToNobody(sends: seq<Send>, q: EndpointId)
    requires forall k | 0 <= k < |sends| :: sends[k].to != q
    ensures To(sends, q) == []
  {
    if sends != [] { ToNobody(sends[..|sends| - 1], q); }
  }

  /** What a member tells `q` about the indices it may lack means nothing to it. */
  lemma {:induction false} InformsIdly(g: Rest, n: Node, q: EndpointId)
    requires Distinct(g.members) && n.nodes == g.members && n.nextIndex == |g.log| && Complete(n, |g.log|) && q in g.members
    ensures var o := BroadcastInformLearned(n);
      && o.node == n && o.learned == []
      && |To(o.sends, q)| == 1 && To(o.sends, q)[0].InformLearned? && |g.log| !in To(o.sends, q)[0].shouldLearned
  {
    var o := BroadcastInformLearned(n);
    assert CanInformAll(n);
    var m :| 0 <= m < |g.members| && g.members[m] == q;
    ToOwn(g.members, o.sends, m);
  }

  lemma {:induction false} SmallModulo(a: nat, b: nat)
    requires a < b
    ensures a % b == a
  {
    var k := a / b;
    assert a == b * k + a % b;
    if k > 0 { AtLeastOnce(b, k); }
  }

  lemma {:induction false} AtLeastOnce(b: nat, k: nat)
    requires k > 0
    ensures b * k >= b
  {
    assert b * k == b * (k - 1) + b;
  }

  lemma {:induction false} SmallRound(increment: nat, rand: nat)
    requires increment > 1 && rand <= 1
    ensures NextRound(0, increment, rand) == rand
  {
    SmallModulo(rand, increment);
  }

  /** A member that runs for leadership. */
  lemma {:induction false} Campaigns(g: Rest, n: Node, a: EndpointId, rand: nat, q: EndpointId)
    requires g.Valid() && CalmNode(g, n, a) && g.leader.eid != a && n.heartbeat >= g.threshold && rand <= 1 && q in g.members
    ensures var o := LeaderHeartbeat(n, rand);
      && o.learned == [] && o.node == Propose(n.(heartbeat := n.heartbeat + 1), Campaign(g, a), rand).node
      && |To(o.sends, q)| == 2 && To(o.sends, q)[0] == Multi(a, |g.log|, Prepare(rand))
      && To(o.sends, q)[1].InformLearned? && |g.log| !in To(o.sends, q)[1].shouldLearned
  {
    var n1 := n.(heartbeat := n.heartbeat + 1);
    var p := Propose(n1, Campaign(g, a), rand);
    var r := BroadcastInformLearned(p.node);
    hide *;
    AnyHeartbeat(g, n, a, n.heartbeat + 1);
    ProposalSays(g, n1, a, Campaign(g, a), rand);
    CampaignIs(g, n, a, rand);
    InformsIdly(g, p.node, q);
    ToEach(g.members, Multi(a, |g.log|, Prepare(rand)), q);
    ToBoth(p.sends, r.sends, q);
    JoinsOuts(p, r);
  }

  lemma {:induction false} AnyHeartbeat(g: Rest, n: Node, a: EndpointId, heartbeat: nat)
    requires CalmNode(g, n, a)
    ensures CalmNode(g, n.(heartbeat := heartbeat), a)
  {
    assert SlotWithInstance(n.(heartbeat := heartbeat), |g.log|) == SlotWithInstance(n, |g.log|);
    hide SlotWithInstance, Blank;
  }

  lemma {:induction false} CampaignIs(g: Rest, n: Node, a: EndpointId, rand: nat)
    requires g.Valid() && CalmNode(g, n, a) && g.leader.eid != a && n.heartbeat >= g.threshold
    ensures var p := Propose(n.(heartbeat := n.heartbeat + 1), Campaign(g, a), rand);
      LeaderHeartbeat(n, rand) == Then(p, BroadcastInformLearned(p.node))
  {
    hide Propose, BroadcastInformLearned, Complete, Blank;
  }

  lemma {:induction false} JoinsOuts(p: Out, r: Out)
    requires p.learned == [] && r.learned == [] && r.node == p.node
    ensures Then(p, r).sends == p.sends + r.sends && Then(p, r).learned == [] && Then(p, r).node == p.node
  {
  }

  lemma {:induction false} ProposalSays(g: Rest, n: Node, a: EndpointId, v: PLEntry, rand: nat)
    requires g.Valid() && CalmNode(g, n, a) && rand <= 1
    ensures var p := Propose(n, v, rand);
      && Distinct(g.members) && p.node.nodes == g.members && p.node.nextIndex == |g.log| && Complete(p.node, |g.log|)
      && p.sends == Broadcast(g.members, Multi(a, |g.log|, Prepare(rand))) && p.learned == []
  {
    SmallRound(g.increment, rand);
    hide NextRound, Blank;
  }

  /** A campaign in round 0 leaves the member at rest. */
  lemma {:induction false} ProposesIdly(g: Rest, n: Node, a: EndpointId)
    requires g.increment > 1 && CalmNode(g, n, a)
    ensures var n' := Propose(n.(heartbeat := n.heartbeat + 1), Campaign(g, a), 0).node;
      CalmNode(g, n', a) && n'.heartbeat == n.heartbeat + 1
  {
    SmallRound(g.increment, 0);
    hide NextRound;
  }

  /** `live[i]` acts on a calm group and says `tails`. */
  lemma {:induction false} TailsAfter(g: Rest, s: Sys, i: nat, o: Out, s': Sys, tails: seq<seq<Message>>)
    requires g.Valid() && Tails(g, s, 0, seq(|g.live|, _ => [])) && i < |g.live| && Acts(s, g.live[i], o, s')
    requires |tails| == |g.live| && Trifles(g, tails) && forall m | 0 <= m < |tails| :: To(o.sends, g.live[m]) == tails[m]
    ensures Tails(g, s', i, tails)
  {
    var none: seq<seq<Message>> := seq(|g.live|, _ => []);
    hide Trifles;
    forall x: nat, y: nat | x < |g.live| && y < |g.live| ensures Pending(s', g.live[x], g.live[y], TailOf(tails, i, x, y)) {
      assert Pending(s, g.live[x], g.live[y], TailOf(none, 0, x, y));
      assert g.live[x] == g.live[i] <==> x == i;
      hide Pending;
      assert TailOf(none, 0, x, y) == [];
      assert [] + To(o.sends, g.live[y]) == To(o.sends, g.live[y]);
    }
  }

  lemma {:induction false} HeartbeatStep(s: Sys, a: EndpointId, rand: nat) returns (s': Sys)
    requires a in s.nodes && a in s.logs && s.nodes[a].increment > 0
    ensures Step(s, HeartbeatEvent(a, rand), s') && Acts(s, a, LeaderHeartbeat(s.nodes[a], rand), s')
  {
    var o := LeaderHeartbeat(s.nodes[a], rand);
    hide LeaderHeartbeat, Post;
    s' := Apply(s, a, o);
    ApplyActs(s, a, o);
    assert Runs(s, HeartbeatEvent(a, rand), s, a, o);
  }

  /** What each member is told by a campaign. */
  function Told(sends: seq<Send>, live: seq<EndpointId>): seq<seq<Message>> {
    seq(|live|, m requires 0 <= m < |live| => To(sends, live[m]))
  }

  lemma {:induction false} IdleTick(g: Rest, n: Node, a: EndpointId)
    requires g.Valid() && CalmNode(g, n, a) && g.leader.eid != a
    ensures var o := LeaderHeartbeat(n, 0);
      && CalmNode(g, o.node, a) && o.node.heartbeat == n.heartbeat + 1 && o.learned == [] && Trifles(g, Told(o.sends, g.live))
  {
    if n.heartbeat >= g.threshold {
      hide CalmNode, LeaderHeartbeat, Propose, Trifles;
      ProposesIdly(g, n, a);
      Campaigns(g, n, a, 0, g.live[0]);
      IdleCampaign(g, n, a);
    } else {
      QuietTick(g, n, a);
    }
  }

  lemma {:induction false} IdleCampaign(g: Rest, n: Node, a: EndpointId)
    requires g.Valid() && CalmNode(g, n, a) && g.leader.eid != a && n.heartbeat >= g.threshold
    ensures Trifles(g, Told(LeaderHeartbeat(n, 0).sends, g.live))
  {
    var sends := LeaderHeartbeat(n, 0).sends;
    hide CalmNode, LeaderHeartbeat, Propose;
    forall m: nat, k: nat | m < |g.live| && k < |Told(sends, g.live)[m]| ensures g.Trifling(Told(sends, g.live)[m][k]) {
      Campaigns(g, n, a, 0, g.live[m]);
    }
  }

  lemma {:induction false} QuietTick(g: Rest, n: Node, a: EndpointId)
    requires g.Valid() && CalmNode(g, n, a) && g.leader.eid != a && n.heartbeat < g.threshold
    ensures var o := LeaderHeartbeat(n, 0);
      && CalmNode(g, o.node, a) && o.node.heartbeat == n.heartbeat + 1 && o.learned == [] && Trifles(g, Told(o.sends, g.live))
  {
    var o := LeaderHeartbeat(n, 0);
    AnyHeartbeat(g, n, a, n.heartbeat + 1);
    assert o.sends == [];
    hide CalmNode;
  }

  /** The leader is not heard of once more. */
  lemma {:induction false} Tick(g: Rest, s: Sys, i: nat) returns (s': Sys)
    requires Calm(g, s) && i < |g.live| && g.leader.eid != g.live[i]
    ensures Leads(g.live, s, s') && Calm(g, s') && Present(s, g.live) && Present(s', g.live)
    ensures forall j | 0 <= j < |g.live| :: Heartbeats(g, s')[j] == if j == i then Heartbeats(g, s)[j] + 1 else Heartbeats(g, s)[j]
  {
    var a := g.live[i];
    var n := s.nodes[a];
    assert CalmNode(g, n, a) && s.logs[a] == g.log && CalmNodes(g, s) && Tails(g, s, 0, seq(|g.live|, _ => []));
    hide CalmNode, LeaderHeartbeat, Leads, Step, Pending, Trifles, Calm, CalmNodes, Tails, Acts;
    CalmPresent(g, s);
    assert n.increment > 0 by { CalmIncrement(g, n, a); }
    var s1 := HeartbeatStep(s, a, 0);
    LeadsStep(g.live, s, HeartbeatEvent(a, 0), s1);
    var o := LeaderHeartbeat(n, 0);
    IdleTick(g, n, a);
    assert g.log + [] == g.log;
    ActsOn(s, a, o, s1);
    OneStays(g, s, i, o.node, s1);
    TailsAfter(g, s, i, o, s1, Told(o.sends, g.live));
    assert CalmBut(g, s1, i, Told(o.sends, g.live));
    s' := TakeAll(g, s1, i, Told(o.sends, g.live), 0);
    LeadsOn(g.live, s, s1, s');
  }

  lemma {:induction false} CalmIncrement(g: Rest, n: Node, a: EndpointId)
    requires g.Valid() && CalmNode(g, n, a)
    ensures n.increment > 0
  {
  }

  lemma {:induction false} ActsOn(s: Sys, a: EndpointId, o: Out, s': Sys)
    requires Acts(s, a, o, s')
    ensures a in s.logs && s'.nodes == s.nodes[a := o.node] && s'.logs == s.logs[a := s.logs[a] + o.learned]
  {
  }

  /** `live[i]` waits until it has missed `bound` heartbeats. */
  lemma {:induction false} WaitFor(g: Rest, s: Sys, i: nat, bound: nat) returns (s': Sys)
    requires Calm(g, s) && i < |g.live| && g.leader.eid != g.live[i]
    ensures Leads(g.live, s, s') && Calm(g, s') && Present(s, g.live) && Present(s', g.live)
    ensures Heartbeats(g, s')[i] >= bound
    ensures forall j | 0 <= j < |g.live| :: Heartbeats(g, s')[j] >= Heartbeats(g, s)[j]
    decreases if i < |g.live| && Present(s, g.live) && Heartbeats(g, s)[i] < bound then bound - Heartbeats(g, s)[i] else 0
  {
    assert Present(s, g.live);
    hide *;
    if Heartbeats(g, s)[i] >= bound {
      s' := s;
      LeadsNowhere(g.live, s);
    } else {
      var s1 := Tick(g, s, i);
      s' := WaitFor(g, s1, i, bound);
      LeadsOn(g.live, s, s1, s');
    }
  }

  /** The members from `live[i]` on lose patience. */
  lemma {:induction false} AllWait(g: Rest, s: Sys, i: nat) returns (s': Sys)
    requires Calm(g, s) && i <= |g.live| && (forall j | 0 <= j < |g.live| :: g.leader.eid != g.live[j]) && Present(s, g.live)
    requires forall j | 0 <= j < i :: Heartbeats(g, s)[j] > g.threshold
    ensures Leads(g.live, s, s') && Calm(g, s') && Present(s', g.live)
    ensures forall j | 0 <= j < |g.live| :: Heartbeats(g, s')[j] > g.threshold
    decreases |g.live| - i
  {
    hide *;
    if i == |g.live| {
      s' := s;
      LeadsNowhere(g.live, s);
    } else {
      var s1 := WaitFor(g, s, i, g.threshold + 1);
      s' := AllWait(g, s1, i + 1);
      LeadsOn(g.live, s, s1, s');
    }
  }

  // ---------------------------------------------------------------------------------------------
  //  From rest to rest
  // ---------------------------------------------------------------------------------------------

  function Grown(g: Rest, v: PLEntry): Rest {
    g.(leader := NextLeader(g.leader, v), log := g.log + [v])
  }

  /** A member at rest that would listen to the proposer is ready for a round. */
  lemma {:induction false} CalmIsReady(g: Rest, n: Node, a: EndpointId, v: PLEntry, extra: seq<seq<Message>>)
    requires g.Valid() && CalmNode(g, n, a) && (n.leader.eid == g.live[0] || n.heartbeat > n.threshold)
    ensures NodeAt(g.InRound(v, extra), n, a, false, false, 0)
  {
    hide Complete;
  }

  lemma {:induction false} ProposerIsReady(g: Rest, n: Node, a: EndpointId, v: PLEntry, extra: seq<seq<Message>>, ins: Option<(UUID, int)>)
    requires g.Valid() && CalmNode(g, n, a) && (n.leader.eid == g.live[0] || n.heartbeat > n.threshold)
    ensures var n' := Propose(n.(nextInsert := ins), v, 1).node; var c := g.InRound(v, extra);
      NodeAt(c, n', a, false, false, 0) && Collected(c, n', 0)
  {
    SmallRound(g.increment, 1);
    hide NextRound;
    assert Nones(0) == [];
  }

  /** What follows a round in which everybody heard of all votes. */
  lemma {:induction false} NodeRests(g: Rest, v: PLEntry, extra: seq<seq<Message>>, n: Node, a: EndpointId)
    requires g.Valid()
    requires NodeAt(g.InRound(v, extra), n, a, true, true, |g.live|)
    ensures CalmNode(Grown(g, v), n, a)
  {
    assert |g.live| >= Majority(g.members);
    var i := |g.log|;
    assert i in n.slots && n.slots[i].learned.Some?;
    assert i + 1 !in n.slots;
    hide SlotAt;
  }

  lemma {:induction false} RoundRests(g: Rest, v: PLEntry, extra: seq<seq<Message>>, s: Sys)
    requires g.Valid() && SysAt(g.InRound(v, extra), s, Learning(|g.live|, 0))
    ensures Calm(Grown(g, v), s)
  {
    var c := g.InRound(v, extra);
    var g' := Grown(g, v);
    forall j: nat | j < |g.live| ensures CalmNode(g', s.nodes[g.live[j]], g.live[j]) && s.logs[g.live[j]] == g'.log {
      assert MemberAt(c, Learning(|g.live|, 0), j, s.nodes[g.live[j]], s.logs[g.live[j]]);
      NodeRests(g, v, extra, s.nodes[g.live[j]], g.live[j]);
    }
    hide CalmNode, MemberAt;
    var none: seq<seq<Message>> := seq(|g.live|, _ => []);
    forall j: nat, m: nat | j < |g.live| && m < |g.live| ensures Pending(s, g.live[j], g.live[m], TailOf(none, 0, j, m)) {
      assert Pending(s, g.live[j], g.live[m], Under(c, Learning(|g.live|, 0), j, m));
    }
  }

  /** `live[0]` proposes, and everybody is ready. */
  lemma {:induction false} RoundStarts(g: Rest, v: PLEntry, extra: seq<seq<Message>>, s: Sys, o: Out, s': Sys)
    requires Calm(g, s) && Acts(s, g.live[0], o, s') && g.InRound(v, extra).Valid() && o.learned == []
    requires NodeAt(g.InRound(v, extra), o.node, g.live[0], false, false, 0) && Collected(g.InRound(v, extra), o.node, 0)
    requires forall j | 0 < j < |g.live| :: s.nodes[g.live[j]].leader.eid == g.live[0] || s.nodes[g.live[j]].heartbeat > g.threshold
    requires forall m | 0 <= m < |g.live| :: To(o.sends, g.live[m]) == [Multi(g.live[0], |g.log|, Prepare(1))] + extra[m]
    ensures SysAt(g.InRound(v, extra), s', Asking(0))
  {
    var c := g.InRound(v, extra);
    hide Acts;
    ActsOn(s, g.live[0], o, s');
    RoundPends(g, v, extra, s, o, s');
    forall j: nat | j < |g.live| ensures MemberAt(c, Asking(0), j, s'.nodes[g.live[j]], s'.logs[g.live[j]]) {
      StartMember(g, v, extra, s, o, s', j);
    }
  }

  lemma {:induction false} StartMember(g: Rest, v: PLEntry, extra: seq<seq<Message>>, s: Sys, o: Out, s': Sys, j: nat)
    requires CalmNodes(g, s) && j < |g.live| && o.learned == []
    requires NodeAt(g.InRound(v, extra), o.node, g.live[0], false, false, 0) && Collected(g.InRound(v, extra), o.node, 0)
    requires 0 < j ==> s.nodes[g.live[j]].leader.eid == g.live[0] || s.nodes[g.live[j]].heartbeat > g.threshold
    requires s'.nodes == s.nodes[g.live[0] := o.node] && s'.logs == s.logs[g.live[0] := s.logs[g.live[0]] + o.learned]
    ensures MemberAt(g.InRound(v, extra), Asking(0), j, s'.nodes[g.live[j]], s'.logs[g.live[j]])
  {
    assert s.logs[g.live[j]] == g.log && s.logs[g.live[0]] + [] == g.log && g.log + [] == g.log;
    if j > 0 {
      assert g.live[j] != g.live[0];
      var n := s.nodes[g.live[j]];
      assert CalmNode(g, n, g.live[j]);
      assert n.threshold == g.threshold;
      hide CalmNode, NodeAt, Collected;
      CalmIsReady(g, n, g.live[j], v, extra);
    } else {
      hide CalmNode, NodeAt, Collected;
    }
  }

  lemma {:induction false} RoundPends(g: Rest, v: PLEntry, extra: seq<seq<Message>>, s: Sys, o: Out, s': Sys)
    requires Calm(g, s) && Acts(s, g.live[0], o, s') && g.InRound(v, extra).Valid()
    requires forall m | 0 <= m < |g.live| :: To(o.sends, g.live[m]) == [Multi(g.live[0], |g.log|, Prepare(1))] + extra[m]
    ensures var c := g.InRound(v, extra); forall x: nat, y: nat | x < |g.live| && y < |g.live| ::
              Pending(s', g.live[x], g.live[y], Under(c, Asking(0), x, y))
  {
    var c := g.InRound(v, extra);
    var none: seq<seq<Message>> := seq(|g.live|, _ => []);
    hide CalmNodes;
    forall x: nat, y: nat | x < |g.live| && y < |g.live| ensures Pending(s', g.live[x], g.live[y], Under(c, Asking(0), x, y)) {
      assert Pending(s, g.live[x], g.live[y], TailOf(none, 0, x, y));
      assert g.live[x] == g.live[0] <==> x == 0;
      hide Pending;
      assert TailOf(none, 0, x, y) == [];
      assert [] + To(o.sends, g.live[y]) == To(o.sends, g.live[y]);
      assert Under(c, Asking(0), x, y) == if x == 0 then To(o.sends, g.live[y]) else [];
    }
  }

  lemma {:induction false} InsertStep(s: Sys, a: EndpointId, uuid: UUID, payload: int) returns (s': Sys)
    requires a in s.nodes && a in s.logs && s.nodes[a].increment > 0
    ensures Step(s, InsertEvent(a, uuid, payload, 1), s') && Acts(s, a, InsertBundle(s.nodes[a], uuid, payload, 1), s')
  {
    var o := InsertBundle(s.nodes[a], uuid, payload, 1);
    hide InsertBundle, Post;
    s' := Apply(s, a, o);
    ApplyActs(s, a, o);
    assert Runs(s, InsertEvent(a, uuid, payload, 1), s, a, o);
  }

  lemma {:induction false} InsertSays(g: Rest, n: Node, uuid: UUID, payload: int)
    requires g.Valid() && CalmNode(g, n, g.live[0]) && g.leader.eid == g.live[0]
    ensures var o := InsertBundle(n, uuid, payload, 1); var extra := seq(|g.live|, _ => []); var c := g.InRound(Bundle(payload), extra);
      && o.learned == [] && NodeAt(c, o.node, g.live[0], false, false, 0) && Collected(c, o.node, 0)
      && forall q | q in g.members :: To(o.sends, q) == [Multi(g.live[0], |g.log|, Prepare(1))]
  {
    var ins := Some((uuid, payload));
    var extra: seq<seq<Message>> := seq(|g.live|, _ => []);
    var o := InsertBundle(n, uuid, payload, 1);
    ProposerIsReady(g, n, g.live[0], Bundle(payload), extra, ins);
    InsertIs(g, n, uuid, payload);
    hide *;
    forall q | q in g.members ensures To(o.sends, q) == [Multi(g.live[0], |g.log|, Prepare(1))] {
      EachHears(g, q);
    }
  }

  lemma {:induction false} EachHears(g: Rest, q: EndpointId)
    requires g.Valid() && q in g.members
    ensures To(Broadcast(g.members, Multi(g.live[0], |g.log|, Prepare(1))), q) == [Multi(g.live[0], |g.log|, Prepare(1))]
  {
    ToEach(g.members, Multi(g.live[0], |g.log|, Prepare(1)), q);
  }

  lemma {:induction false} InsertIs(g: Rest, n: Node, uuid: UUID, payload: int)
    requires g.Valid() && CalmNode(g, n, g.live[0]) && g.leader.eid == g.live[0]
    ensures var o := InsertBundle(n, uuid, payload, 1);
      && o == Propose(n.(nextInsert := Some((uuid, payload))), Bundle(payload), 1) && o.learned == []
      && o.sends == Broadcast(g.members, Multi(g.live[0], |g.log|, Prepare(1)))
  {
    SmallRound(g.increment, 1);
    hide NextRound, Complete;
  }

  lemma {:induction false} NoExtra(g: Rest, v: PLEntry)
    requires g.Valid()
    ensures g.InRound(v, seq(|g.live|, _ => [])).Valid()
  {
  }

  /** The leader appends a bundle. */
  lemma {:induction false} Inserts(g: Rest, s: Sys, uuid: UUID, payload: int) returns (s': Sys)
    requires Calm(g, s) && g.leader.eid == g.live[0]
    ensures Leads(g.live, s, s') && Calm(Grown(g, Bundle(payload)), s')
  {
    var a, v := g.live[0], Bundle(payload);
    var extra: seq<seq<Message>> := seq(|g.live|, _ => []);
    var n := s.nodes[a];
    assert CalmNode(g, n, a) && CalmNodes(g, s) && n.increment > 0;
    assert forall j | 0 <= j < |g.live| :: s.nodes[g.live[j]].leader.eid == a;
    hide CalmNode, CalmNodes, Calm, NodeAt, Collected, Acts, InsertBundle, Leads, Step;
    CalmPresent(g, s);
    InsertSays(g, n, uuid, payload);
    NoExtra(g, v);
    var s1 := InsertStep(s, a, uuid, payload);
    LeadsStep(g.live, s, InsertEvent(a, uuid, payload, 1), s1);
    RoundStarts(g, v, extra, s, InsertBundle(n, uuid, payload, 1), s1);
    s' := RoundCompletes(g.InRound(v, extra), s1);
    RoundRests(g, v, extra, s');
    LeadsOn(g.live, s, s1, s');
  }

  lemma {:induction false} CampaignNode(g: Rest, n: Node, extra: seq<seq<Message>>)
    requires g.Valid() && CalmNode(g, n, g.live[0]) && g.leader.eid != g.live[0] && n.heartbeat > g.threshold
    ensures var o := LeaderHeartbeat(n, 1); var c := g.InRound(Campaign(g, g.live[0]), extra);
      o.learned == [] && NodeAt(c, o.node, g.live[0], false, false, 0) && Collected(c, o.node, 0)
  {
    var a := g.live[0];
    var n1 := n.(heartbeat := n.heartbeat + 1);
    assert n1.(nextInsert := n1.nextInsert) == n1;
    hide *;
    CampaignHere(g, n);
    AnyHeartbeat(g, n, a, n.heartbeat + 1);
    CalmFrame(g, n1, a);
    ProposerIsReady(g, n1, a, Campaign(g, a), extra, n1.nextInsert);
  }

  lemma {:induction false} CampaignHere(g: Rest, n: Node)
    requires g.Valid() && CalmNode(g, n, g.live[0]) && g.leader.eid != g.live[0] && n.heartbeat > g.threshold
    ensures var o := LeaderHeartbeat(n, 1);
      o.learned == [] && o.node == Propose(n.(heartbeat := n.heartbeat + 1), Campaign(g, g.live[0]), 1).node
  {
    hide CalmNode, LeaderHeartbeat, Propose;
    Campaigns(g, n, g.live[0], 1, g.live[0]);
  }

  lemma {:induction false} CampaignTells(g: Rest, n: Node, q: EndpointId)
    requires g.Valid() && CalmNode(g, n, g.live[0]) && g.leader.eid != g.live[0] && n.heartbeat > g.threshold && q in g.members
    ensures var ms := To(LeaderHeartbeat(n, 1).sends, q);
      && ms == [Multi(g.live[0], |g.log|, Prepare(1))] + Popped(ms)
      && |Popped(ms)| == 1 && Popped(ms)[0].InformLearned? && |g.log| !in Popped(ms)[0].shouldLearned
  {
    hide CalmNode, LeaderHeartbeat;
    Campaigns(g, n, g.live[0], 1, q);
  }

  /** What the campaign of `live[0]` in round 1 says. */
  lemma {:induction false} CampaignSays(g: Rest, n: Node) returns (extra: seq<seq<Message>>)
    requires g.Valid() && CalmNode(g, n, g.live[0]) && g.leader.eid != g.live[0] && n.heartbeat > g.threshold
    ensures var sends := LeaderHeartbeat(n, 1).sends;
      && g.InRound(Campaign(g, g.live[0]), extra).Valid()
      && forall m | 0 <= m < |g.live| :: To(sends, g.live[m]) == [Multi(g.live[0], |g.log|, Prepare(1))] + extra[m]
  {
    var sends := LeaderHeartbeat(n, 1).sends;
    extra := seq(|g.live|, m requires 0 <= m < |g.live| => Popped(To(sends, g.live[m])));
    hide CalmNode, LeaderHeartbeat, To, Popped;
    forall m | 0 <= m < |g.live|
      ensures To(sends, g.live[m]) == [Multi(g.live[0], |g.log|, Prepare(1))] + extra[m]
      ensures |extra[m]| == 1 && extra[m][0].InformLearned? && |g.log| !in extra[m][0].shouldLearned
    {
      CampaignTells(g, n, g.live[m]);
    }
  }

  lemma {:induction false} CalmFrame(g: Rest, n: Node, a: EndpointId)
    requires CalmNode(g, n, a)
    ensures n.threshold == g.threshold && n.increment == g.increment && n.leader == g.leader
  {
  }

  /** The members that have waited in vain make `live[0]` their leader. */
  lemma {:induction false} Elects(g: Rest, s: Sys) returns (s': Sys)
    requires Calm(g, s) && g.leader.eid != g.live[0] && Present(s, g.live)
    requires forall j | 0 <= j < |g.live| :: Heartbeats(g, s)[j] > g.threshold
    ensures Leads(g.live, s, s') && Calm(Grown(g, Campaign(g, g.live[0])), s')
  {
    var a, v := g.live[0], Campaign(g, g.live[0]);
    var n := s.nodes[a];
    assert CalmNode(g, n, a) && CalmNodes(g, s) && n.increment > 0;
    assert n.heartbeat == Heartbeats(g, s)[0];
    forall j | 0 <= j < |g.live| ensures s.nodes[g.live[j]].heartbeat > g.threshold {
      assert Heartbeats(g, s)[j] == s.nodes[g.live[j]].heartbeat;
    }
    hide CalmNode, CalmNodes, Calm, NodeAt, Collected, Acts, LeaderHeartbeat, Leads, Step, Heartbeats;
    CalmPresent(g, s);
    var extra := CampaignSays(g, n);
    CampaignNode(g, n, extra);
    var s1 := HeartbeatStep(s, a, 1);
    LeadsStep(g.live, s, HeartbeatEvent(a, 1), s1);
    RoundStarts(g, v, extra, s, LeaderHeartbeat(n, 1), s1);
    s' := RoundCompletes(g.InRound(v, extra), s1);
    RoundRests(g, v, extra, s');
    LeadsOn(g.live, s, s1, s');
  }

  /** Without the leader, the others elect `live[0]`. */
  lemma {:induction false} Replaces(g: Rest, s: Sys) returns (s': Sys)
    requires Calm(g, s) && g.leader.eid !in g.live
    ensures Leads(g.live, s, s') && Calm(Grown(g, Campaign(g, g.live[0])), s') && |g.live| > 0
  {
    assert Present(s, g.live) && |g.live| > 0;
    hide *;
    var s1 := AllWait(g, s, 0);
    s' := Elects(g, s1);
    LeadsOn(g.live, s, s1, s');
  }

  function Bundles(payloads: seq<int>): seq<PLEntry> {
    seq(|payloads|, k requires 0 <= k < |payloads| => Bundle(payloads[k]))
  }

  /** The leader appends one bundle after the other. */
  lemma {:induction false} InsertsAll(g: Rest, s: Sys, payloads: seq<int>) returns (s': Sys)
    requires Calm(g, s) && g.live != [] && g.leader.eid == g.live[0]
    ensures Leads(g.live, s, s') && Calm(g.(log := g.log + Bundles(payloads)), s')
    decreases |payloads|
  {
    hide Calm, Leads;
    if payloads == [] {
      assert g.log + Bundles(payloads) == g.log;
      s' := s;
      LeadsNowhere(g.live, s);
    } else {
      var init, last := payloads[..|payloads| - 1], payloads[|payloads| - 1];
      var s1 := InsertsAll(g, s, init);
      var g1 := g.(log := g.log + Bundles(init));
      s' := Inserts(g1, s1, |payloads|, last);
      assert g1.log + [Bundle(last)] == g.log + Bundles(payloads);
      LeadsOn(g.live, s, s1, s');
    }
  }

  // ---------------------------------------------------------------------------------------------
  //  From the start
  // ---------------------------------------------------------------------------------------------

  lemma {:induction false} InitiallyCalm(cfg: Config, live: seq<EndpointId>)
    requires cfg.Valid() && cfg.increment > 1 && Distinct(live) && (forall e | e in live :: e in cfg.members) && 2 * |live| > |cfg.members|
    ensures Calm(Rest(cfg.members, cfg.threshold, cfg.increment, live, LeadershipId(0, cfg.members[0]), []), InitialSys(cfg))
  {
    var g := Rest(cfg.members, cfg.threshold, cfg.increment, live, LeadershipId(0, cfg.members[0]), []);
    var s := InitialSys(cfg);
    forall j: nat | j < |live| ensures live[j] in s.nodes && CalmNode(g, s.nodes[live[j]], live[j]) && s.logs[live[j]] == [] {
      assert live[j] in live;
    }
    forall j: nat, m: nat | j < |live| && m < |live| ensures Pending(s, live[j], live[m], []) {
      assert live[j] in live && live[m] in live;
    }
  }

  /** The members of a set in some order, with `first` at the front if it is one of them. */
  lemma {:induction false} InOrder(live: set<EndpointId>, first: EndpointId) returns (order: seq<EndpointId>)
    ensures Distinct(order) && (forall e :: e in order <==> e in live) && |order| == |live|
    ensures first in live ==> order[0] == first
    decreases |live|
  {
    if live == {} {
      order := [];
    } else {
      var last :| last in live && (last != first || live == {first}) by {
        var x :| x in live;
        if live != {first} && x == first {
          var rest := live - {first};
          assert rest != {};
          var y :| y in rest;
          assert y in live && y != first;
        }
      }
      var rest := InOrder(live - {last}, first);
      order := rest + [last];
    }
  }

  /** Progress: for every set of more than half of the members and every sequence of bundles there is a
      run, all of whose events happen at members of the set, after which each of their logs holds the
      bundles in order, and nothing else if the first leader is one of them; if it is not, they first
      make one of themselves the leader. */
  lemma {:induction false} Progress(cfg: Config, live: set<EndpointId>, payloads: seq<int>)
    returns (states: seq<Sys>, events: seq<Event>, elected: seq<PLEntry>)
    requires cfg.Valid() && cfg.increment > 1 && (forall e | e in live :: e in cfg.members) && 2 * |live| > |cfg.members|
    ensures Run(cfg, states, events) && forall k | 0 <= k < |events| :: Where(events[k]) in live
    ensures if cfg.members[0] in live then elected == []
            else exists e | e in live :: elected == [LeaderChanged(LeadershipId(1, e))]
    ensures forall e | e in live :: e in states[|events|].logs && states[|events|].logs[e] == elected + Bundles(payloads)
  {
    var order := InOrder(live, cfg.members[0]);
    var leader := LeadershipId(0, cfg.members[0]);
    var g0 := Rest(cfg.members, cfg.threshold, cfg.increment, order, leader, []);
    var s0 := InitialSys(cfg);
    InitiallyCalm(cfg, order);
    assert |order| > 0;
    var g1, s1 := g0, s0;
    elected := [];
    if leader.eid in live {
      LeadsNowhere(order, s0);
    } else {
      hide Calm, Leads;
      s1 := Replaces(g0, s0);
      elected := [Campaign(g0, order[0])];
      g1 := Grown(g0, elected[0]);
      assert order[0] in live;
      assert g0.log + elected == elected;
    }
    hide *;
    var s2 := InsertsAll(g1, s1, payloads);
    LeadsOn(order, s0, s1, s2);
    states, events := Witness(cfg, order, s2);
    AtRest(g1.(log := g1.log + Bundles(payloads)), s2);
  }

  lemma {:induction false} Witness(cfg: Config, live: seq<EndpointId>, s: Sys) returns (states: seq<Sys>, events: seq<Event>)
    requires cfg.Valid() && Leads(live, InitialSys(cfg), s)
    ensures Run(cfg, states, events) && |states| == |events| + 1 && states[|events|] == s
    ensures forall k | 0 <= k < |events| :: Where(events[k]) in live
  {
    states, events :| Path(live, states, events) && states[0] == InitialSys(cfg) && states[|events|] == s;
  }

  lemma {:induction false} AtRest(g: Rest, s: Sys)
    requires Calm(g, s)
    ensures forall e | e in g.live :: e in s.logs && s.logs[e] == g.log
  {
    hide CalmNode;
  }
}
