/** When a leader is given up: only by members that have missed its heartbeats. */
module PaxosLeaders {
  import opened Wrappers
  import opened PaxosTypes
  import opened Sets
  import opened PaxosNode
  import opened PaxosSystem

  // ---------------------------------------------------------------------------------------------
  //  One node
  // ---------------------------------------------------------------------------------------------

  predicate NewLeader(learned: seq<PLEntry>) {
    exists k :: 0 <= k < |learned| && learned[k].LeaderChanged?
  }

  /** `p` leads according to some entry. */
  predicate MadeLeader(learned: seq<PLEntry>, p: EndpointId) {
    exists k :: 0 <= k < |learned| && learned[k].LeaderChanged? && learned[k].lid.eid == p
  }

  /** Node `n` may answer `p` before or after it appends `learned`. */
  predicate MayPromise(n: Node, learned: seq<PLEntry>, p: EndpointId) {
    n.heartbeat > n.threshold || p == n.leader.eid || MadeLeader(learned, p)
  }

  ghost predicate PromisesOk(n: Node, learned: seq<PLEntry>, sends: seq<Send>) {
    forall k | 0 <= k < |sends| && sends[k].msg.Multi? && sends[k].msg.body.Promise? :: MayPromise(n, learned, sends[k].to)
  }

  /** From `n` to `n'`: the heartbeats missed are forgotten exactly with a change of leader, and only a
      leader, or anybody once too many heartbeats were missed, is promised anything. */
  ghost predicate Follows(n: Node, n': Node, learned: seq<PLEntry>, sends: seq<Send>) {
    && SameFrame(n, n')
    && n'.heartbeat == (if NewLeader(learned) then 0 else n.heartbeat)
    && (n'.leader == n.leader || MadeLeader(learned, n'.leader.eid))
    && PromisesOk(n, learned, sends)
  }

  lemma {:induction false} MadeInBoth(a: seq<PLEntry>, b: seq<PLEntry>, p: EndpointId)
    ensures MadeLeader(a + b, p) <==> MadeLeader(a, p) || MadeLeader(b, p)
    ensures NewLeader(a + b) <==> NewLeader(a) || NewLeader(b)
  {
    var ab := a + b;
    if k :| 0 <= k < |a| && a[k].LeaderChanged? && a[k].lid.eid == p { assert ab[k] == a[k]; }
    if k :| 0 <= k < |b| && b[k].LeaderChanged? && b[k].lid.eid == p { assert ab[|a| + k] == b[k]; }
    if k :| 0 <= k < |a| && a[k].LeaderChanged? { assert ab[k] == a[k]; }
    if k :| 0 <= k < |b| && b[k].LeaderChanged? { assert ab[|a| + k] == b[k]; }
  }

  lemma {:induction false} FollowsBoth(n: Node, n1: Node, n2: Node, l1: seq<PLEntry>, l2: seq<PLEntry>, s1: seq<Send>, s2: seq<Send>)
    requires Follows(n, n1, l1, s1) && Follows(n1, n2, l2, s2)
    ensures Follows(n, n2, l1 + l2, s1 + s2)
  {
    MadeInBoth(l1, l2, n2.leader.eid);
    MadeInBoth(l1, l2, n1.leader.eid);
    hide MadeLeader, NewLeader;
    forall k | 0 <= k < |s1 + s2| && (s1 + s2)[k].msg.Multi? && (s1 + s2)[k].msg.body.Promise?
      ensures MayPromise(n, l1 + l2, (s1 + s2)[k].to)
    {
      var p := (s1 + s2)[k].to;
      MadeInBoth(l1, l2, p);
      if k < |s1| { assert MayPromise(n, l1, s1[k].to); } else { assert MayPromise(n1, l2, s2[k - |s1|].to); }
    }
  }

  predicate NoPromise(sends: seq<Send>) {
    forall k | 0 <= k < |sends| :: !sends[k].msg.Multi? || !sends[k].msg.body.Promise?
  }

  /** Nothing that matters here changes. */
  lemma {:induction false} FollowsSame(n: Node, n': Node, sends: seq<Send>)
    requires SameFrame(n, n') && n'.heartbeat == n.heartbeat && n'.leader == n.leader && NoPromise(sends)
    ensures Follows(n, n', [], sends)
  {
  }

  /** A step before that does not matter here. */
  lemma {:induction false} FollowsFrom(n: Node, n0: Node, n': Node, learned: seq<PLEntry>, sends: seq<Send>)
    requires SameFrame(n, n0) && n0.heartbeat == n.heartbeat && n0.leader == n.leader && Follows(n0, n', learned, sends)
    ensures Follows(n, n', learned, sends)
  {
    assert forall p :: MayPromise(n0, learned, p) == MayPromise(n, learned, p);
    hide MayPromise;
  }

  lemma {:induction false} DeliverFollows(n: Node)
    ensures Follows(n, Deliver(n).node, Deliver(n).learned, [])
    decreases |SlotsAhead(n)|
  {
    if Deliverable(n) {
      var entry := n.slots[n.nextIndex].learned.value.1;
      var n1 := DeliverOne(n);
      DeliverOneShrinks(n);
      assert Follows(n, n1, [entry], []) by {
        assert [entry][0] == entry;
        assert entry.LeaderChanged? ==> NewLeader([entry]) && MadeLeader([entry], entry.lid.eid);
      }
      hide SlotsAhead;
      DeliverFollows(n1);
      FollowsBoth(n, n1, Deliver(n1).node, [entry], Deliver(n1).learned, [], []);
      var none: seq<Send> := [];
      assert none + none == none;
    } else {
      FollowsSame(n, n, []);
    }
  }

  /** What `Process` does apart from delivering. */
  lemma {:induction false} ProcessFollows(n: Node, sender: EndpointId, i: PLIndex, body: PaxosMessage)
    requires !Ignored(n, sender, body)
    ensures Follows(n, Process(n, sender, i, body).node, Process(n, sender, i, body).learned, Process(n, sender, i, body).sends)
  {
    var s := SlotWithInstance(n, i);
    var o := Process(n, sender, i, body);
    match body
    case Prepare(crnd) => PrepareFollows(n, sender, i, crnd);
    case Promise(rnd, vote) =>
      assert o.learned == [] && NoPromise(o.sends);
      FollowsSame(n, o.node, o.sends);
    case Accept(crnd, cval) =>
      PutFollows(n, i, AcceptedSlot(s, crnd, cval), Broadcast(n.nodes, Multi(n.me, i, PaxosMessage.Learn(crnd))));
      PutFollows(n, i, AcceptedSlot(s, crnd, cval), []);
    case Learn(vrnd) => PutFollows(n, i, LearnedSlot(s, vrnd, Majority(n.nodes)), []);
  }

  lemma {:induction false} PrepareFollows(n: Node, sender: EndpointId, i: PLIndex, crnd: Rnd)
    requires !Ignored(n, sender, Prepare(crnd))
    ensures var o := Process(n, sender, i, Prepare(crnd)); Follows(n, o.node, o.learned, o.sends)
  {
  }

  lemma {:induction false} PutFollows(n: Node, i: PLIndex, s: Slot, sends: seq<Send>)
    requires NoPromise(sends)
    ensures var n1 := PutSlot(n, i, s); var d := Deliver(n1);
      Follows(n, n1, [], sends) && Follows(n, d.node, [] + d.learned, sends + d.sends) && Follows(n, d.node, d.learned, sends + d.sends)
  {
    var n1 := PutSlot(n, i, s);
    var d := Deliver(n1);
    FollowsSame(n, n1, sends);
    DeliverFollows(n1);
    assert d.sends == [];
    hide Follows, Deliver;
    FollowsBoth(n, n1, d.node, [], d.learned, sends, []);
    assert [] + d.learned == d.learned;
  }

  lemma {:induction false} OnMultiFollows(n: Node, sender: EndpointId, i: PLIndex, body: PaxosMessage)
    ensures Follows(n, OnMulti(n, sender, i, body).node, OnMulti(n, sender, i, body).learned, OnMulti(n, sender, i, body).sends)
  {
    if Ignored(n, sender, body) || i < MinComplete(n) {
      FollowsSame(n, n, []);
    } else if i > n.nextIndex {
      FollowsSame(n, Buffer(n, sender, i, body), []);
    } else {
      ProcessFollows(n, sender, i, body);
    }
  }

  lemma {:induction false} DrainFollows(n: Node)
    ensures Follows(n, Drain(n).node, Drain(n).learned, Drain(n).sends)
    decreases |n.buffered|, if n.buffered == map[] then 0 else |n.buffered[Least(n.buffered.Keys)]|
  {
    if !Drainable(n) {
      FollowsSame(n, n, []);
    } else {
      var i := Least(n.buffered.Keys);
      if n.buffered[i] == [] {
        var n1 := n.(buffered := n.buffered - {i});
        DrainDropsKey(n);
        hide Follows, Drain;
        DrainFollows(n1);
        FollowsFrom(n, n1, Drain(n1).node, Drain(n1).learned, Drain(n1).sends);
        EmptyThen(n1, Drain(n1));
      } else {
        var l := n.buffered[i][0];
        var n0 := n.(buffered := n.buffered[i := n.buffered[i][1..]]);
        var o := OnMulti(n0, l.sender, i, l.body);
        DrainPopsLetter(n);
        hide Follows, Drain, OnMulti;
        OnMultiFollows(n0, l.sender, i, l.body);
        FollowsFrom(n, n0, o.node, o.learned, o.sends);
        DrainFollows(o.node);
        FollowsBoth(n, o.node, Drain(o.node).node, o.learned, Drain(o.node).learned, o.sends, Drain(o.node).sends);
      }
    }
  }

  lemma {:induction false} EmptyThen(n: Node, o: Out)
    ensures Then(Quiet(n), o) == o
  {
    assert [] + o.sends == o.sends && [] + o.learned == o.learned;
  }

  lemma {:induction false} InformFollows(n: Node, sender: EndpointId, should: map<PLIndex, Rnd>)
    ensures Follows(n, OnInformLearned(n, sender, should).node, OnInformLearned(n, sender, should).learned, OnInformLearned(n, sender, should).sends)
    decreases |IndicesAhead(n, should)|
  {
    var o := Drain(n);
    var n1 := o.node;
    assert n.nextIndex <= n1.nextIndex;
    DrainFollows(n);
    hide Drain, IndicesAhead, Follows;
    if CanInform(n1, should) {
      var n2 := LearnInformed(n1, should);
      var d := Deliver(n2);
      assert n1.nextIndex < d.node.nextIndex;
      hide Deliver;
      InformsOne(n1, should);
      IndicesAheadMonotone(n, n1, should);
      IndicesAheadShrinks(n1, d.node, should);
      InformFollows(d.node, sender, should);
      var rest := OnInformLearned(d.node, sender, should);
      FollowsBoth(n1, d.node, rest.node, d.learned, rest.learned, d.sends, rest.sends);
      FollowsBoth(n, n1, rest.node, o.learned, d.learned + rest.learned, o.sends, d.sends + rest.sends);
    } else if n1.nextIndex in should {
      var sends := [Send(sender, LogSyncRequest(n1.me, n1.nextIndex))];
      FollowsSame(n1, n1, sends);
      FollowsBoth(n, n1, n1, o.learned, [], o.sends, sends);
    }
  }

  lemma {:induction false} InformsOne(n: Node, should: map<PLIndex, Rnd>)
    requires CanInform(n, should)
    ensures var d := Deliver(LearnInformed(n, should)); Follows(n, d.node, d.learned, d.sends)
  {
    var n1 := LearnInformed(n, should);
    assert n1 == PutSlot(n, n.nextIndex, n1.slots[n.nextIndex]);
    assert [] + Deliver(n1).sends == Deliver(n1).sends;
    hide Deliver, Follows;
    PutFollows(n, n.nextIndex, n1.slots[n.nextIndex], []);
  }

  lemma {:induction false} SyncFollows(n: Node, learned: seq<(PLIndex, Rnd, PLEntry)>)
    ensures Follows(n, OnLogSyncResponse(n, learned).node, OnLogSyncResponse(n, learned).learned, OnLogSyncResponse(n, learned).sends)
  {
    var n1 := AdoptAll(n, learned);
    var d := Deliver(n1);
    assert d.sends == [];
    hide Deliver, Drain, Follows;
    DeliverFollows(n1);
    FollowsFrom(n, n1, d.node, d.learned, []);
    DrainFollows(d.node);
    FollowsBoth(n, d.node, Drain(d.node).node, d.learned, Drain(d.node).learned, d.sends, Drain(d.node).sends);
  }

  /** A heartbeat of the node's own leader. */
  predicate Beat(n: Node, m: Message) {
    m == IsLeader(n.leader)
  }

  lemma {:induction false} InternalFollows(n: Node, m: Message)
    requires !Beat(n, m)
    ensures Follows(n, Internal(n, m).node, Internal(n, m).learned, Internal(n, m).sends)
  {
    var o := Internal(n, m);
    hide OnMulti, OnInformLearned, OnLogSyncResponse, Follows, MinComplete;
    match m
    case Multi(sender, i, body) => OnMultiFollows(n, sender, i, body);
    case InformLearned(sender, should) => InformFollows(n, sender, should);
    case LogSyncResponse(learned) => SyncFollows(n, learned);
    case _ => FollowsSame(n, o.node, o.sends);
  }

  /** What any message does to what a node thinks of its leader. */
  lemma {:induction false} HandleFollows(n: Node, m: Message)
    ensures var o := Handle(n, m); Follows(if Beat(n, m) then n.(heartbeat := 0) else n, o.node, o.learned, o.sends)
  {
    var i := Internal(n, m);
    var n0 := if Beat(n, m) then n.(heartbeat := 0) else n;
    hide Drain, Follows;
    if Beat(n, m) {
      assert i == Quiet(n0);
      FollowsSame(n0, n0, []);
    } else {
      InternalFollows(n, m);
    }
    hide Internal;
    DrainFollows(i.node);
    FollowsBoth(n0, i.node, Drain(i.node).node, i.learned, Drain(i.node).learned, i.sends, Drain(i.node).sends);
  }

  // ---------------------------------------------------------------------------------------------
  //  Events
  // ---------------------------------------------------------------------------------------------

  /** The event brings a heartbeat of the leader that its node follows. */
  predicate BringsBeat(s: Sys, e: Event) {
    e.Receive? && e.to in s.nodes && (e.sender, e.to) in s.wires
    && s.wires[(e.sender, e.to)].recv < |s.wires[(e.sender, e.to)].sent|
    && Beat(s.nodes[e.to], s.wires[(e.sender, e.to)].sent[s.wires[(e.sender, e.to)].recv])
  }

  /** A node that follows somebody else notices that its timer has run out. */
  predicate Misses(s: Sys, e: Event) {
    e.HeartbeatEvent? && e.at in s.nodes && s.nodes[e.at].leader.eid != s.nodes[e.at].me
  }

  /** The node before an event, as far as the missed heartbeats go. */
  function Before(s: Sys, e: Event, a: EndpointId): Node
    requires a in s.nodes
  {
    var n := s.nodes[a];
    if BringsBeat(s, e) then n.(heartbeat := 0) else if Misses(s, e) then n.(heartbeat := n.heartbeat + 1) else n
  }

  lemma {:induction false} ProposeFollows(n: Node, entry: PLEntry, rand: nat)
    requires n.increment > 0
    ensures var o := Propose(n, entry, rand); Follows(n, o.node, o.learned, o.sends) && NoPromise(o.sends) && o.learned == []
  {
    hide NextRound, Follows;
    var o := Propose(n, entry, rand);
    FollowsSame(n, o.node, o.sends);
  }

  lemma {:induction false} HeartbeatFollows(n: Node, rand: nat)
    requires n.increment > 0
    ensures var o := LeaderHeartbeat(n, rand);
      && Follows(if n.leader.eid == n.me then n else n.(heartbeat := n.heartbeat + 1), o.node, o.learned, o.sends)
      && NoPromise(o.sends) && o.learned == []
  {
    var n1 := n.(heartbeat := n.heartbeat + 1);
    var o := LeaderHeartbeat(n, rand);
    if n.leader.eid == n.me {
      FollowsSame(n, n, o.sends);
    } else if n1.heartbeat > n1.threshold {
      var entry := LeaderChanged(LeadershipId(n1.leader.gen + 1, n1.me));
      var p := Propose(n1, entry, rand);
      var b := BroadcastInformLearned(p.node);
      assert NoPromise(b.sends) && b.node == p.node && b.learned == [];
      hide Propose, BroadcastInformLearned, Follows;
      ProposeFollows(n1, entry, rand);
      FollowsSame(p.node, p.node, b.sends);
      FollowsBoth(n1, p.node, p.node, [], [], p.sends, b.sends);
    } else {
      FollowsSame(n1, n1, []);
    }
  }

  lemma {:induction false} EventFollows(s: Sys, e: Event, s0: Sys, a: EndpointId, o: Out)
    requires Runs(s, e, s0, a, o)
    ensures Follows(Before(s, e, a), o.node, o.learned, o.sends)
    ensures e.HeartbeatEvent? ==> NoPromise(o.sends) && o.learned == []
  {
    hide Handle, Propose, LeaderHeartbeat, Follows;
    var n := s.nodes[a];
    match e
    case Receive(p, q) => HandleFollows(n, s.wires[(p, q)].sent[s.wires[(p, q)].recv]);
    case InsertEvent(_, uuid, payload, rand) =>
      var n1 := n.(nextInsert := Some((uuid, payload)));
      if n.leader.eid == n.me && n.nextInsert.None? {
        ProposeFollows(n1, Bundle(payload), rand);
        FollowsFrom(n, n1, o.node, o.learned, o.sends);
      } else {
        FollowsSame(n, n, []);
      }
    case RetryEvent(_, uuid, rand) =>
      if n.nextInsert.Some? && n.nextInsert.value.0 == uuid {
        ProposeFollows(n, Bundle(n.nextInsert.value.1), rand);
      } else {
        FollowsSame(n, n, []);
      }
    case HeartbeatEvent(_, rand) => HeartbeatFollows(n, rand);
    case NextIndexEvent(_) => FollowsSame(n, n, o.sends);
  }
}
