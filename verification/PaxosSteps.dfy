/** Every elementary effect of a handler keeps the invariant. */
module PaxosSteps {
  import opened Wrappers
  import opened PaxosTypes
  import opened Sets
  import opened PaxosBallots
  import opened PaxosNode
  import opened PaxosSlots
  import opened PaxosSystem
  import opened PaxosInvariant

  /** A letter in hand: received, and neither buffered nor consumed if it must not be repeated. */
  ghost predicate Avail(s: Sys, h: Hist, a: EndpointId, i: PLIndex, l: Letter) {
    && a in s.nodes && Arrived(s.wires, a, i, l)
    && (!l.body.Prepare? ==> l !in AuxAt(h, a, i).seen
                             && (i in s.nodes[a].buffered ==> l !in s.nodes[a].buffered[i]))
  }

  // ---------------------------------------------------------------------------------------------
  //  Replacing one slot
  // ---------------------------------------------------------------------------------------------

  function WithSlot(s: Sys, a: EndpointId, i: PLIndex, slot: Slot): Sys
    requires a in s.nodes
  {
    s.(nodes := s.nodes[a := PutSlot(s.nodes[a], i, slot)])
  }

  function WithHist(h: Hist, a: EndpointId, i: PLIndex, b: Ballots, x: Aux): Hist {
    Hist(h.ballots[i := b], h.aux[(a, i) := x])
  }

  lemma {:induction false} SlotKeepsSlots(cfg: Config, s: Sys, h: Hist, a: EndpointId, i: PLIndex, slot: Slot, b: Ballots, x: Aux)
    requires SlotsOK(cfg, s.nodes, h) && a in s.nodes && !AllPast(s.nodes[a], i)
    requires SlotOK(b, a, false, Some(slot), x, GroupOf(cfg))
    requires forall e | e != a :: NotBy(At(h, i), b, e)
    ensures SlotsOK(cfg, WithSlot(s, a, i, slot).nodes, WithHist(h, a, i, b, x))
  {
    var nodes' := WithSlot(s, a, i, slot).nodes;
    var h' := WithHist(h, a, i, b, x);
    forall e, j: PLIndex | e in nodes'
      ensures SlotOK(At(h', j), e, AllPast(nodes'[e], j), SlotAt(nodes'[e], j), AuxAt(h', e, j), GroupOf(cfg))
    {
      assert SlotOK(At(h, j), e, AllPast(s.nodes[e], j), SlotAt(s.nodes[e], j), AuxAt(h, e, j), GroupOf(cfg));
      assert AllPast(nodes'[e], j) == AllPast(s.nodes[e], j);
      if j == i && e != a {
        OthersKeepSlot(At(h, i), b, e, AllPast(s.nodes[e], i), SlotAt(s.nodes[e], i), AuxAt(h, e, i), GroupOf(cfg));
      }
    }
  }

  lemma {:induction false} SlotKeepsReceived(s: Sys, h: Hist, a: EndpointId, i: PLIndex, slot: Slot, b: Ballots, x: Aux)
    requires ReceivedOK(s.wires, s.nodes, h) && a in s.nodes
    requires forall l | l in x.seen :: l in AuxAt(h, a, i).seen || (!l.body.Prepare? && Avail(s, h, a, i, l))
    ensures ReceivedOK(s.wires, WithSlot(s, a, i, slot).nodes, WithHist(h, a, i, b, x))
  {
    var nodes' := WithSlot(s, a, i, slot).nodes;
    var h' := WithHist(h, a, i, b, x);
    forall e, j: PLIndex | e in nodes' ensures SeenOK(s.wires, e, j, AuxAt(h', e, j)) {
      assert SeenOK(s.wires, e, j, AuxAt(h, e, j));
    }
    forall e, j: PLIndex | e in nodes' && j in nodes'[e].buffered
      ensures QueueOK(s.wires, e, j, nodes'[e].buffered[j], AuxAt(h', e, j))
    {
      assert QueueOK(s.wires, e, j, s.nodes[e].buffered[j], AuxAt(h, e, j));
    }
  }

  lemma {:induction false} SlotKeepsNodes(cfg: Config, s: Sys, h: Hist, a: EndpointId, i: PLIndex, slot: Slot, h': Hist)
    requires cfg.Valid() && NodesOK(cfg, s, h) && a in s.nodes && HistExtends(h, h')
    requires i in s.nodes[a].slots && s.nodes[a].slots[i].learned.Some? ==> slot.learned.Some?
    ensures NodesOK(cfg, WithSlot(s, a, i, slot), h')
  {
    var s' := WithSlot(s, a, i, slot);
    forall e | e in s'.nodes && e in s'.logs ensures RetainOK(s'.nodes[e]) && LogOK(cfg, h', s'.nodes[e], s'.logs[e]) {
      LogGrows(cfg, h, h', s.nodes[e], s.logs[e]);
      forall j | 0 <= j < s'.nodes[e].nextIndex && !AllPast(s'.nodes[e], j)
        ensures j in s'.nodes[e].slots && s'.nodes[e].slots[j].learned.Some?
      {
        assert AllPast(s'.nodes[e], j) == AllPast(s.nodes[e], j);
      }
    }
  }

  lemma {:induction false} SlotStep(cfg: Config, s: Sys, h: Hist, a: EndpointId, i: PLIndex, slot: Slot, b: Ballots, x: Aux)
    returns (h': Hist)
    requires Inv(cfg, s, h) && a in s.nodes && !AllPast(s.nodes[a], i)
    requires Good(b, GroupOf(cfg)) && Grows(At(h, i), b) && SlotOK(b, a, false, Some(slot), x, GroupOf(cfg))
    requires forall e | e != a :: NotBy(At(h, i), b, e)
    requires forall l | l in x.seen :: l in AuxAt(h, a, i).seen || (!l.body.Prepare? && Avail(s, h, a, i, l))
    requires i in s.nodes[a].slots && s.nodes[a].slots[i].learned.Some? ==> slot.learned.Some?
    requires forall e, v | (e, v) in b.offers :: (e, v) in At(h, i).offers || OfferOK(cfg, s.logs, i, e, v)
    ensures h' == WithHist(h, a, i, b, x) && HistExtends(h, h')
    ensures b.offers == At(h, i).offers ==> HistGrows(h, h')
    ensures Inv(cfg, WithSlot(s, a, i, slot), h')
  {
    hide Good, SlotOK, NotBy, SlotsOK, NodesShape, SyncOK, ReceivedOK, WiresOK, NodesOK, OffersOK, OfferOK, Avail;
    h' := WithHist(h, a, i, b, x);
    var s' := WithSlot(s, a, i, slot);
    forall j ensures Grows(At(h, j), At(h', j)) && Good(At(h', j), GroupOf(cfg)) {
      assert Good(At(h, j), GroupOf(cfg));
    }
    SlotKeepsSlots(cfg, s, h, a, i, slot, b, x);
    SlotKeepsReceived(s, h, a, i, slot, b, x);
    SlotKeepsNodes(cfg, s, h, a, i, slot, h');
    WiresGrow(cfg, h, h', s.wires);
    UpdateKeepsShape(cfg, s.nodes, a, PutSlot(s.nodes[a], i, slot));
    SlotKeepsSync(s, a, i, slot);
    SlotKeepsOffers(cfg, s, h, a, i, b, x);
  }

  lemma {:induction false} SlotKeepsSync(s: Sys, a: EndpointId, i: PLIndex, slot: Slot)
    requires SyncOK(s) && a in s.nodes
    ensures SyncOK(WithSlot(s, a, i, slot))
  {
    var s' := WithSlot(s, a, i, slot);
    forall p, q | (p, q) in s'.wires && p in s'.nodes && q in s'.nodes && p in s'.nodes[q].remote
      ensures MarksOK(s'.wires[(p, q)], s'.nodes[q].remote[p], s'.nodes[p].nextIndex)
    {
      assert MarksOK(s.wires[(p, q)], s.nodes[q].remote[p], s.nodes[p].nextIndex);
    }
  }

  lemma {:induction false} SlotKeepsOffers(cfg: Config, s: Sys, h: Hist, a: EndpointId, i: PLIndex, b: Ballots, x: Aux)
    requires cfg.Valid() && OffersOK(cfg, s.logs, h)
    requires forall e, v | (e, v) in b.offers :: (e, v) in At(h, i).offers || OfferOK(cfg, s.logs, i, e, v)
    ensures OffersOK(cfg, s.logs, WithHist(h, a, i, b, x))
  {
    var h' := WithHist(h, a, i, b, x);
    forall j: PLIndex, e, v | (e, v) in At(h', j).offers ensures OfferOK(cfg, s.logs, j, e, v) {
      if j != i { assert (e, v) in At(h, j).offers; }
    }
  }

  // ---------------------------------------------------------------------------------------------
  //  Sending
  // ---------------------------------------------------------------------------------------------

  ghost predicate SendOK(cfg: Config, s: Sys, h: Hist, a: EndpointId, send: Send) {
    && a in s.nodes && (a, send.to) in s.wires && MsgOK(cfg, h, a, send.to, send.msg)
    && (IsBallot(send.msg) ==> send.msg !in s.wires[(a, send.to)].sent)
    && (IsMark(send.msg) ==> send.msg.nextIndex == s.nodes[a].nextIndex)
  }

  lemma {:induction false} PostKeepsWires(cfg: Config, s: Sys, h: Hist, a: EndpointId, send: Send)
    requires WiresOK(cfg, s.wires, h) && SendOK(cfg, s, h, a, send)
    ensures WiresOK(cfg, PostOne(s.wires, a, send), h)
  {
    hide MsgOK;
    var wires' := PostOne(s.wires, a, send);
    forall p, q | (p, q) in wires' ensures WireOK(cfg, h, p, q, wires'[(p, q)].sent) {
      assert WireOK(cfg, h, p, q, s.wires[(p, q)].sent);
    }
  }

  lemma {:induction false} PostKeepsArrived(s: Sys, a: EndpointId, send: Send, e: EndpointId, i: PLIndex, l: Letter)
    requires Arrived(s.wires, e, i, l) && (a, send.to) in s.wires
    ensures Arrived(PostOne(s.wires, a, send), e, i, l)
  {
    var c := s.wires[(l.sender, e)];
    var c' := PostOne(s.wires, a, send)[(l.sender, e)];
    assert c'.sent[..c'.recv] == c.sent[..c.recv];
  }

  lemma {:induction false} PostKeepsReceived(s: Sys, h: Hist, a: EndpointId, send: Send)
    requires ReceivedOK(s.wires, s.nodes, h) && (a, send.to) in s.wires
    ensures ReceivedOK(PostOne(s.wires, a, send), s.nodes, h)
  {
    var wires' := PostOne(s.wires, a, send);
    forall e, i: PLIndex | e in s.nodes ensures SeenOK(wires', e, i, AuxAt(h, e, i)) {
      assert SeenOK(s.wires, e, i, AuxAt(h, e, i));
      forall l | l in AuxAt(h, e, i).seen ensures Arrived(wires', e, i, l) { PostKeepsArrived(s, a, send, e, i, l); }
    }
    forall e, i: PLIndex | e in s.nodes && i in s.nodes[e].buffered
      ensures QueueOK(wires', e, i, s.nodes[e].buffered[i], AuxAt(h, e, i))
    {
      var q := s.nodes[e].buffered[i];
      assert QueueOK(s.wires, e, i, q, AuxAt(h, e, i));
      forall k | 0 <= k < |q| ensures Arrived(wires', e, i, q[k]) { PostKeepsArrived(s, a, send, e, i, q[k]); }
    }
  }

  lemma {:induction false} PostKeepsSync(s: Sys, a: EndpointId, send: Send)
    requires SyncOK(s) && a in s.nodes && (a, send.to) in s.wires
    requires IsMark(send.msg) ==> send.msg.nextIndex == s.nodes[a].nextIndex
    ensures SyncOK(s.(wires := PostOne(s.wires, a, send)))
  {
    var wires' := PostOne(s.wires, a, send);
    forall p, q | (p, q) in wires' && p in s.nodes && q in s.nodes && p in s.nodes[q].remote
      ensures MarksOK(wires'[(p, q)], s.nodes[q].remote[p], s.nodes[p].nextIndex)
    {
      assert MarksOK(s.wires[(p, q)], s.nodes[q].remote[p], s.nodes[p].nextIndex);
    }
  }

  lemma {:induction false} PostKeepsShape(cfg: Config, wires: Wires, a: EndpointId, send: Send)
    requires WiresShape(cfg, wires)
    ensures WiresShape(cfg, PostOne(wires, a, send))
  {
    hide Senders;
  }

  lemma {:induction false} PostOneStep(cfg: Config, s: Sys, h: Hist, a: EndpointId, send: Send)
    requires Inv(cfg, s, h) && SendOK(cfg, s, h, a, send)
    ensures Inv(cfg, s.(wires := PostOne(s.wires, a, send)), h)
  {
    hide SlotsOK, BallotsOK, NodesShape, WiresShape, WiresOK, ReceivedOK, SyncOK, RetainOK, LogOK, OffersOK, MsgOK;
    PostKeepsShape(cfg, s.wires, a, send);
    PostKeepsWires(cfg, s, h, a, send);
    PostKeepsReceived(s, h, a, send);
    PostKeepsSync(s, a, send);
  }

  /** A batch of sends that never repeats a ballot. */
  ghost predicate SendsOK(cfg: Config, s: Sys, h: Hist, a: EndpointId, sends: seq<Send>) {
    && (forall k | 0 <= k < |sends| :: SendOK(cfg, s, h, a, sends[k]))
    && (forall j, k | 0 <= j < k < |sends| && IsBallot(sends[j].msg) :: sends[j] != sends[k])
  }

  lemma {:induction false} PostContents(wires: Wires, a: EndpointId, sends: seq<Send>, to: EndpointId, m: Message)
    requires (a, to) in wires
    ensures (a, to) in Post(wires, a, sends)
    ensures m in Post(wires, a, sends)[(a, to)].sent ==> m in wires[(a, to)].sent || Send(to, m) in sends
  {
    if sends != [] {
      PostContents(wires, a, sends[..|sends| - 1], to, m);
    }
  }

  lemma {:induction false} PostStep(cfg: Config, s: Sys, h: Hist, a: EndpointId, sends: seq<Send>)
    requires Inv(cfg, s, h) && SendsOK(cfg, s, h, a, sends)
    ensures Inv(cfg, s.(wires := Post(s.wires, a, sends)), h)
    decreases |sends|
  {
    if sends == [] {
      assert s.(wires := Post(s.wires, a, sends)) == s;
    } else {
      var init, last := sends[..|sends| - 1], sends[|sends| - 1];
      InitOK(cfg, s, h, a, sends);
      PostStep(cfg, s, h, a, init);
      var s1 := s.(wires := Post(s.wires, a, init));
      LastOK(cfg, s, h, a, sends);
      PostOneStep(cfg, s1, h, a, last);
    }
  }

  lemma {:induction false} InitOK(cfg: Config, s: Sys, h: Hist, a: EndpointId, sends: seq<Send>)
    requires SendsOK(cfg, s, h, a, sends) && sends != []
    ensures SendsOK(cfg, s, h, a, sends[..|sends| - 1])
  {
    hide SendOK;
  }

  lemma {:induction false} LastOK(cfg: Config, s: Sys, h: Hist, a: EndpointId, sends: seq<Send>)
    requires SendsOK(cfg, s, h, a, sends) && sends != []
    ensures SendOK(cfg, s.(wires := Post(s.wires, a, sends[..|sends| - 1])), h, a, sends[|sends| - 1])
  {
    hide MsgOK;
    var last := sends[|sends| - 1];
    assert SendOK(cfg, s, h, a, last);
    PostContents(s.wires, a, sends[..|sends| - 1], last.to, last.msg);
  }

  // ---------------------------------------------------------------------------------------------
  //  Replacing a node without touching its slots
  // ---------------------------------------------------------------------------------------------

  lemma {:induction false} KeepSlots(cfg: Config, nodes: map<EndpointId, Node>, h: Hist, a: EndpointId, n: Node)
    requires SlotsOK(cfg, nodes, h) && a in nodes
    requires n.slots == nodes[a].slots && n.remote == nodes[a].remote && n.nodes == nodes[a].nodes
    ensures SlotsOK(cfg, nodes[a := n], h)
  {
    hide SlotOK;
    forall e, i: PLIndex | e in nodes[a := n]
      ensures SlotOK(At(h, i), e, AllPast(nodes[a := n][e], i), SlotAt(nodes[a := n][e], i), AuxAt(h, e, i), GroupOf(cfg))
    {
      assert SlotOK(At(h, i), e, AllPast(nodes[e], i), SlotAt(nodes[e], i), AuxAt(h, e, i), GroupOf(cfg));
      assert AllPast(nodes[a := n][e], i) == AllPast(nodes[e], i);
    }
  }

  lemma {:induction false} KeepReceived(wires: Wires, nodes: map<EndpointId, Node>, h: Hist, a: EndpointId, n: Node)
    requires ReceivedOK(wires, nodes, h) && a in nodes
    requires forall i | i in n.buffered :: QueueOK(wires, a, i, n.buffered[i], AuxAt(h, a, i))
    ensures ReceivedOK(wires, nodes[a := n], h)
  {
    hide QueueOK, SeenOK;
    forall e, i: PLIndex | e in nodes[a := n] ensures SeenOK(wires, e, i, AuxAt(h, e, i)) {
      assert e in nodes;
    }
  }

  lemma {:induction false} KeepSync(s: Sys, a: EndpointId, n: Node)
    requires SyncOK(s) && a in s.nodes && n.remote == s.nodes[a].remote && s.nodes[a].nextIndex <= n.nextIndex
    ensures SyncOK(s.(nodes := s.nodes[a := n]))
  {
    var nodes' := s.nodes[a := n];
    forall p, q | (p, q) in s.wires && p in nodes' && q in nodes' && p in nodes'[q].remote
      ensures MarksOK(s.wires[(p, q)], nodes'[q].remote[p], nodes'[p].nextIndex)
    {
      assert MarksOK(s.wires[(p, q)], s.nodes[q].remote[p], s.nodes[p].nextIndex);
    }
  }

  lemma {:induction false} KeepOffers(cfg: Config, logs: map<EndpointId, seq<PLEntry>>, h: Hist, a: EndpointId, more: seq<PLEntry>)
    requires cfg.Valid() && OffersOK(cfg, logs, h) && a in logs
    ensures OffersOK(cfg, logs[a := logs[a] + more], h)
  {
    hide Legit;
    var logs' := logs[a := logs[a] + more];
    forall i: PLIndex, e, v | (e, v) in At(h, i).offers ensures OfferOK(cfg, logs', i, e, v) {
      assert OfferOK(cfg, logs, i, e, v);
      assert logs'[e][..i] == logs[e][..i];
    }
  }

  /** Replaces the node at `a`, keeping slots and records, and extends its log by `more`. */
  lemma {:induction false} NodeStep(cfg: Config, s: Sys, h: Hist, a: EndpointId, n: Node, more: seq<PLEntry>)
    requires Inv(cfg, s, h) && a in s.nodes && a in s.logs && SameFrame(s.nodes[a], n)
    requires n.slots == s.nodes[a].slots && n.remote == s.nodes[a].remote && s.nodes[a].nextIndex <= n.nextIndex
    requires forall i | i in n.buffered :: QueueOK(s.wires, a, i, n.buffered[i], AuxAt(h, a, i))
    requires RetainOK(n) && LogOK(cfg, h, n, s.logs[a] + more)
    ensures Inv(cfg, Apply(s, a, Out(n, [], more, true)), h)
  {
    hide SlotsOK, BallotsOK, NodesShape, WiresShape, WiresOK, ReceivedOK, QueueOK, SyncOK, RetainOK, LogOK, OffersOK, Senders;
    var s' := Apply(s, a, Out(n, [], more, true));
    UpdateKeepsShape(cfg, s.nodes, a, n);
    UpdateKeys(s.logs, a, s.logs[a] + more);
    KeepSlots(cfg, s.nodes, h, a, n);
    KeepReceived(s.wires, s.nodes, h, a, n);
    KeepSync(s, a, n);
    SyncIgnoresLogs(s.(nodes := s.nodes[a := n]), s'.logs);
    KeepOffers(cfg, s.logs, h, a, more);
  }

  lemma {:induction false} SyncIgnoresLogs(s: Sys, logs: map<EndpointId, seq<PLEntry>>)
    requires SyncOK(s)
    ensures SyncOK(s.(logs := logs))
  {
  }

  lemma {:induction false} LeaderInserts(cfg: Config, s: Sys, h: Hist, a: EndpointId)
    requires cfg.Valid() && NodesOK(cfg, s, h) && a in s.nodes && a in s.logs
    ensures s.nodes[a].nextInsert.Some? ==> s.nodes[a].leader.eid == s.nodes[a].me
  {
  }

  lemma {:induction false} SameProgress(cfg: Config, h: Hist, n: Node, n': Node, log: seq<PLEntry>)
    requires cfg.Valid() && RetainOK(n) && LogOK(cfg, h, n, log)
    requires n'.slots == n.slots && n'.remote == n.remote && n'.nodes == n.nodes && n'.me == n.me
    requires n'.nextIndex == n.nextIndex && n'.leader == n.leader
    requires n'.nextInsert.Some? ==> n'.leader.eid == n'.me
    ensures RetainOK(n') && LogOK(cfg, h, n', log + [])
  {
    assert log + [] == log;
    assert forall i :: AllPast(n', i) == AllPast(n, i);
  }

  /** The heartbeat counter and a pending insertion of the leader are free to change. */
  lemma {:induction false} CounterStep(cfg: Config, s: Sys, h: Hist, a: EndpointId, n: Node)
    requires Inv(cfg, s, h) && a in s.nodes && a in s.logs
    requires n == s.nodes[a].(heartbeat := n.heartbeat, nextInsert := n.nextInsert)
    requires n.nextInsert.Some? ==> n.leader.eid == a
    ensures Inv(cfg, Apply(s, a, Quiet(n)), h)
  {
    hide BallotsOK, SlotsOK, WiresOK, SyncOK, OffersOK, WiresShape, QueueOK, SeenOK, RetainOK, LogOK;
    assert NodeShape(cfg, a, s.nodes[a]);
    SameProgress(cfg, h, s.nodes[a], n, s.logs[a]);
    NodeStep(cfg, s, h, a, n, []);
  }

  // ---------------------------------------------------------------------------------------------
  //  Delivering learned entries
  // ---------------------------------------------------------------------------------------------

  lemma {:induction false} DeliverOneKeepsLog(cfg: Config, h: Hist, n: Node, log: seq<PLEntry>)
    requires cfg.Valid() && LogOK(cfg, h, n, log) && Deliverable(n)
    requires LearnedOK(At(h, n.nextIndex), n.slots[n.nextIndex].learned, GroupOf(cfg))
    ensures LogOK(cfg, h, DeliverOne(n), log + [n.slots[n.nextIndex].learned.value.1])
  {
    var (r, v) := n.slots[n.nextIndex].learned.value;
    var log' := log + [v];
    assert Decided(At(h, n.nextIndex), r, v, GroupOf(cfg));
    assert log'[..|log'| - 1] == log;
    forall j | 0 <= j < |log'| ensures EntryOK(cfg, h, j, log'[j]) {
      if j < |log| { assert EntryOK(cfg, h, j, log[j]); }
    }
  }

  lemma {:induction false} DeliverOneKeepsRetain(n: Node)
    requires RetainOK(n) && Deliverable(n)
    ensures RetainOK(DeliverOne(n))
  {
    assert forall i :: AllPast(DeliverOne(n), i) == AllPast(n, i);
  }

  lemma {:induction false} DeliverOneStep(cfg: Config, s: Sys, h: Hist, a: EndpointId)
    requires Inv(cfg, s, h) && a in s.nodes && a in s.logs && Deliverable(s.nodes[a])
    ensures var n := s.nodes[a];
            Inv(cfg, Apply(s, a, Out(DeliverOne(n), [], [n.slots[n.nextIndex].learned.value.1], true)), h)
  {
    hide BallotsOK, WiresOK, SyncOK, OffersOK, WiresShape, QueueOK, SeenOK, RetainOK, LogOK, Decided, InstanceOK;
    var n := s.nodes[a];
    assert SlotOK(At(h, n.nextIndex), a, AllPast(n, n.nextIndex), SlotAt(n, n.nextIndex),
                  AuxAt(h, a, n.nextIndex), GroupOf(cfg));
    DeliverOneKeepsLog(cfg, h, n, s.logs[a]);
    DeliverOneKeepsRetain(n);
    NodeStep(cfg, s, h, a, DeliverOne(n), [n.slots[n.nextIndex].learned.value.1]);
  }

  lemma {:induction false} DeliverStep(cfg: Config, s: Sys, h: Hist, a: EndpointId)
    requires Inv(cfg, s, h) && a in s.nodes && a in s.logs
    ensures Inv(cfg, Apply(s, a, Deliver(s.nodes[a])), h)
    decreases Lag(s.nodes[a])
  {
    hide BallotsOK, SlotsOK, WiresOK, SyncOK, OffersOK, NodesShape, WiresShape, ReceivedOK, NodesOK;
    var n := s.nodes[a];
    if Deliverable(n) {
      var o := Out(DeliverOne(n), [], [n.slots[n.nextIndex].learned.value.1], true);
      DeliverOneStep(cfg, s, h, a);
      DeliverOneShrinks(n);
      DeliverStep(cfg, Apply(s, a, o), h, a);
      ApplyThen(s, a, o, Deliver(DeliverOne(n)));
    } else {
      ApplyQuiet(s, a);
    }
  }

  // ---------------------------------------------------------------------------------------------
  //  Receiving, buffering, and taking letters out of the buffer
  // ---------------------------------------------------------------------------------------------

  lemma {:induction false} RecvKeepsArrived(s: Sys, p: EndpointId, q: EndpointId, e: EndpointId, i: PLIndex, l: Letter)
    requires (p, q) in s.wires && s.wires[(p, q)].recv < |s.wires[(p, q)].sent|
    requires Arrived(s.wires, e, i, l)
    ensures Arrived(PaxosSystem.Received(s, p, q).wires, e, i, l)
  {
    var c := s.wires[(l.sender, e)];
    var c' := PaxosSystem.Received(s, p, q).wires[(l.sender, e)];
    assert c.sent[..c.recv] <= c'.sent[..c'.recv];
  }

  lemma {:induction false} RecvKeepsReceived(s: Sys, h: Hist, p: EndpointId, q: EndpointId)
    requires ReceivedOK(s.wires, s.nodes, h)
    requires (p, q) in s.wires && s.wires[(p, q)].recv < |s.wires[(p, q)].sent|
    ensures ReceivedOK(PaxosSystem.Received(s, p, q).wires, s.nodes, h)
  {
    var wires' := PaxosSystem.Received(s, p, q).wires;
    forall e, i: PLIndex | e in s.nodes ensures SeenOK(wires', e, i, AuxAt(h, e, i)) {
      assert SeenOK(s.wires, e, i, AuxAt(h, e, i));
      forall l | l in AuxAt(h, e, i).seen ensures Arrived(wires', e, i, l) { RecvKeepsArrived(s, p, q, e, i, l); }
    }
    forall e, i: PLIndex | e in s.nodes && i in s.nodes[e].buffered
      ensures QueueOK(wires', e, i, s.nodes[e].buffered[i], AuxAt(h, e, i))
    {
      var queue := s.nodes[e].buffered[i];
      assert QueueOK(s.wires, e, i, queue, AuxAt(h, e, i));
      forall k | 0 <= k < |queue| ensures Arrived(wires', e, i, queue[k]) { RecvKeepsArrived(s, p, q, e, i, queue[k]); }
    }
  }

  lemma {:induction false} RecvKeepsWires(cfg: Config, s: Sys, h: Hist, p: EndpointId, q: EndpointId)
    requires WiresOK(cfg, s.wires, h) && WiresShape(cfg, s.wires) && SyncOK(s)
    requires (p, q) in s.wires && s.wires[(p, q)].recv < |s.wires[(p, q)].sent|
    ensures var s' := PaxosSystem.Received(s, p, q);
            WiresOK(cfg, s'.wires, h) && WiresShape(cfg, s'.wires) && SyncOK(s')
  {
    hide MsgOK, Senders;
    var s' := PaxosSystem.Received(s, p, q);
    forall e, f | (e, f) in s'.wires ensures WireOK(cfg, h, e, f, s'.wires[(e, f)].sent) {
      assert WireOK(cfg, h, e, f, s.wires[(e, f)].sent);
    }
    forall e, f | (e, f) in s'.wires && e in s'.nodes && f in s'.nodes && e in s'.nodes[f].remote
      ensures MarksOK(s'.wires[(e, f)], s'.nodes[f].remote[e], s'.nodes[e].nextIndex)
    {
      assert MarksOK(s.wires[(e, f)], s.nodes[f].remote[e], s.nodes[e].nextIndex);
    }
  }

  /** The received message is genuine, and if it must not be repeated it is new to the receiver. */
  lemma {:induction false} RecvAvail(cfg: Config, s: Sys, h: Hist, p: EndpointId, q: EndpointId)
    requires WiresOK(cfg, s.wires, h) && ReceivedOK(s.wires, s.nodes, h) && q in s.nodes
    requires (p, q) in s.wires && s.wires[(p, q)].recv < |s.wires[(p, q)].sent|
    ensures var msg := s.wires[(p, q)].sent[s.wires[(p, q)].recv];
            && MsgOK(cfg, h, p, q, msg)
            && (msg.Multi? ==> Avail(PaxosSystem.Received(s, p, q), h, q, msg.index, Letter(p, msg.body)))
  {
    var c := s.wires[(p, q)];
    var msg := c.sent[c.recv];
    assert WireOK(cfg, h, p, q, c.sent);
    assert MsgOK(cfg, h, p, q, msg);
    if msg.Multi? {
      var i, l := msg.index, Letter(p, msg.body);
      var wires' := PaxosSystem.Received(s, p, q).wires;
      assert wires'[(p, q)].sent[..c.recv + 1][c.recv] == Multi(p, i, l.body);
      assert Arrived(wires', q, i, l);
      if !l.body.Prepare? {
        assert msg !in c.sent[..c.recv];
        assert SeenOK(s.wires, q, i, AuxAt(h, q, i));
        if i in s.nodes[q].buffered { assert QueueOK(s.wires, q, i, s.nodes[q].buffered[i], AuxAt(h, q, i)); }
      }
    }
  }

  lemma {:induction false} RecvStep(cfg: Config, s: Sys, h: Hist, p: EndpointId, q: EndpointId)
    requires Inv(cfg, s, h) && q in s.nodes
    requires (p, q) in s.wires && s.wires[(p, q)].recv < |s.wires[(p, q)].sent|
    ensures Inv(cfg, PaxosSystem.Received(s, p, q), h)
    ensures var msg := s.wires[(p, q)].sent[s.wires[(p, q)].recv];
            && MsgOK(cfg, h, p, q, msg)
            && (msg.Multi? ==> Avail(PaxosSystem.Received(s, p, q), h, q, msg.index, Letter(p, msg.body)))
  {
    hide BallotsOK, SlotsOK, WiresOK, SyncOK, OffersOK, NodesShape, WiresShape, ReceivedOK, MsgOK, Avail, RetainOK, LogOK;
    RecvKeepsReceived(s, h, p, q);
    RecvKeepsWires(cfg, s, h, p, q);
    RecvAvail(cfg, s, h, p, q);
  }

  lemma {:induction false} QueueStep(cfg: Config, s: Sys, h: Hist, a: EndpointId, buffered: map<PLIndex, seq<Letter>>)
    requires Inv(cfg, s, h) && a in s.nodes && a in s.logs
    requires forall i | i in buffered :: QueueOK(s.wires, a, i, buffered[i], AuxAt(h, a, i))
    ensures Inv(cfg, Apply(s, a, Quiet(s.nodes[a].(buffered := buffered))), h)
  {
    hide BallotsOK, SlotsOK, WiresOK, SyncOK, OffersOK, WiresShape, NodesShape, ReceivedOK, QueueOK, RetainOK, LogOK;
    var n := s.nodes[a].(buffered := buffered);
    LeaderInserts(cfg, s, h, a);
    SameProgress(cfg, h, s.nodes[a], n, s.logs[a]);
    NodeStep(cfg, s, h, a, n, []);
  }

  lemma {:induction false} BufferStep(cfg: Config, s: Sys, h: Hist, a: EndpointId, i: PLIndex, l: Letter)
    requires Inv(cfg, s, h) && a in s.logs && Avail(s, h, a, i, l)
    ensures Inv(cfg, Apply(s, a, Quiet(Buffer(s.nodes[a], l.sender, i, l.body))), h)
  {
    hide BallotsOK, SlotsOK, WiresOK, SyncOK, OffersOK, NodesShape, WiresShape, NodesOK, Arrived;
    var n := s.nodes[a];
    var buffered := Buffer(n, l.sender, i, l.body).buffered;
    forall j | j in buffered ensures QueueOK(s.wires, a, j, buffered[j], AuxAt(h, a, j)) {
      if j in n.buffered { assert QueueOK(s.wires, a, j, n.buffered[j], AuxAt(h, a, j)); }
    }
    QueueStep(cfg, s, h, a, buffered);
  }

  lemma {:induction false} PopStep(cfg: Config, s: Sys, h: Hist, a: EndpointId, i: PLIndex)
    requires Inv(cfg, s, h) && a in s.nodes && a in s.logs
    requires i in s.nodes[a].buffered && s.nodes[a].buffered[i] != []
    ensures var n := s.nodes[a];
            var s' := Apply(s, a, Quiet(n.(buffered := n.buffered[i := n.buffered[i][1..]])));
            Inv(cfg, s', h) && Avail(s', h, a, i, n.buffered[i][0])
  {
    hide BallotsOK, SlotsOK, WiresOK, SyncOK, OffersOK, NodesShape, WiresShape, NodesOK, Arrived;
    var n := s.nodes[a];
    var q := n.buffered[i];
    assert QueueOK(s.wires, a, i, q, AuxAt(h, a, i));
    var buffered := n.buffered[i := q[1..]];
    forall j | j in buffered ensures QueueOK(s.wires, a, j, buffered[j], AuxAt(h, a, j)) {
      assert QueueOK(s.wires, a, j, n.buffered[j], AuxAt(h, a, j));
    }
    QueueStep(cfg, s, h, a, buffered);
  }

  lemma {:induction false} DropKeyStep(cfg: Config, s: Sys, h: Hist, a: EndpointId, i: PLIndex)
    requires Inv(cfg, s, h) && a in s.nodes && a in s.logs
    ensures Inv(cfg, Apply(s, a, Quiet(s.nodes[a].(buffered := s.nodes[a].buffered - {i}))), h)
  {
    hide BallotsOK, SlotsOK, WiresOK, SyncOK, OffersOK, NodesShape, WiresShape, NodesOK, QueueOK, SeenOK;
    QueueStep(cfg, s, h, a, s.nodes[a].buffered - {i});
  }
}
