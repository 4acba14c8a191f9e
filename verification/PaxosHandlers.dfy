/** Every handler of every node keeps the invariant, and none of its `unwrap`s fails. */
module PaxosHandlers {
  import opened Wrappers
  import opened PaxosTypes
  import opened Sets
  import opened PaxosBallots
  import opened PaxosNode
  import opened PaxosSlots
  import opened PaxosSystem
  import opened PaxosInvariant
  import opened PaxosSteps

  // ---------------------------------------------------------------------------------------------
  //  Confirmations and purging
  // ---------------------------------------------------------------------------------------------

  lemma {:induction false} BelowMinIsPast(n: Node, i: PLIndex)
    requires i < MinComplete(n) && (forall e | e in n.nodes :: e in n.remote)
    ensures AllPast(n, i)
  {
    MinOverIsMinimum(n.nodes, n.remote, n.nextIndex);
  }

  lemma {:induction false} AboveMinIsNotPast(n: Node, i: PLIndex)
    requires MinComplete(n) <= i && n.me in n.nodes && n.me in n.remote && n.remote[n.me] <= n.nextIndex
    ensures !AllPast(n, i)
  {
    MinOverIsMinimum(n.nodes, n.remote, n.nextIndex);
  }

  lemma {:induction false} AckKeepsSlots(cfg: Config, nodes: map<EndpointId, Node>, h: Hist, q: EndpointId, p: EndpointId, v: PLIndex)
    requires SlotsOK(cfg, nodes, h) && q in nodes && p in nodes[q].remote && (forall e | e in nodes[q].nodes :: e in nodes[q].remote)
    ensures SlotsOK(cfg, nodes[q := OnNextIndexResponse(nodes[q], p, v).node], h)
  {
    hide InstanceOK, LearnedOK, Untouched;
    var n, n' := nodes[q], OnNextIndexResponse(nodes[q], p, v).node;
    var nodes' := nodes[q := n'];
    forall e, i: PLIndex | e in nodes'
      ensures SlotOK(At(h, i), e, AllPast(nodes'[e], i), SlotAt(nodes'[e], i), AuxAt(h, e, i), GroupOf(cfg))
    {
      assert SlotOK(At(h, i), e, AllPast(nodes[e], i), SlotAt(nodes[e], i), AuxAt(h, e, i), GroupOf(cfg));
      if e == q { AckPurges(n, p, v, i); }
    }
  }

  /** Only indices that every member has confirmed are purged. */
  lemma {:induction false} AckPurges(n: Node, p: EndpointId, v: PLIndex, i: PLIndex)
    requires p in n.remote && (forall e | e in n.nodes :: e in n.remote)
    ensures var n' := OnNextIndexResponse(n, p, v).node;
            && (AllPast(n, i) ==> AllPast(n', i))
            && (SlotAt(n', i) == SlotAt(n, i) || (SlotAt(n', i) == None && AllPast(n', i)))
  {
    var n1 := n.(remote := n.remote[p := if n.remote[p] < v then v else n.remote[p]]);
    var n' := OnNextIndexResponse(n, p, v).node;
    assert n'.remote == n1.remote;
    if MinComplete(n) <= i < MinComplete(n1) {
      BelowMinIsPast(n1, i);
      assert AllPast(n', i);
    }
  }

  lemma {:induction false} AckKeepsRetain(n: Node, p: EndpointId, v: PLIndex)
    requires RetainOK(n) && p in n.remote && (forall e | e in n.nodes :: e in n.remote)
    ensures RetainOK(OnNextIndexResponse(n, p, v).node)
  {
    var n' := OnNextIndexResponse(n, p, v).node;
    forall i | 0 <= i < n'.nextIndex && !AllPast(n', i) ensures i in n'.slots && n'.slots[i].learned.Some? {
      AckPurges(n, p, v, i);
      assert SlotAt(n, i) == SlotAt(n', i);
    }
  }

  /** A mark on its way to `q` does not pass the later ones, nor its sender. */
  ghost predicate MarkOK(s: Sys, p: EndpointId, q: EndpointId, v: PLIndex) {
    && (p, q) in s.wires && p in s.nodes && v <= s.nodes[p].nextIndex
    && forall k | 0 <= k && s.wires[(p, q)].recv <= k < |s.wires[(p, q)].sent| && IsMark(s.wires[(p, q)].sent[k]) ::
         v <= s.wires[(p, q)].sent[k].nextIndex
  }

  lemma {:induction false} AckKeepsSync(s: Sys, q: EndpointId, p: EndpointId, v: PLIndex)
    requires SyncOK(s) && q in s.nodes && p in s.nodes[q].remote && MarkOK(s, p, q, v)
    ensures SyncOK(s.(nodes := s.nodes[q := OnNextIndexResponse(s.nodes[q], p, v).node]))
  {
    var nodes' := s.nodes[q := OnNextIndexResponse(s.nodes[q], p, v).node];
    forall e, f | (e, f) in s.wires && e in nodes' && f in nodes' && e in nodes'[f].remote
      ensures MarksOK(s.wires[(e, f)], nodes'[f].remote[e], nodes'[e].nextIndex)
    {
      assert MarksOK(s.wires[(e, f)], s.nodes[f].remote[e], s.nodes[e].nextIndex);
    }
  }

  lemma {:induction false} AckStep(cfg: Config, s: Sys, h: Hist, q: EndpointId, p: EndpointId, v: PLIndex)
    requires Inv(cfg, s, h) && q in s.nodes && q in s.logs && MarkOK(s, p, q, v)
    ensures OnNextIndexResponse(s.nodes[q], p, v).ok
    ensures Inv(cfg, Apply(s, q, OnNextIndexResponse(s.nodes[q], p, v)), h)
  {
    hide BallotsOK, SlotsOK, WiresOK, SyncOK, OffersOK, NodesShape, WiresShape, ReceivedOK, RetainOK, LogOK, MarkOK,
         OnNextIndexResponse;
    var o := OnNextIndexResponse(s.nodes[q], p, v);
    MarkFromMember(cfg, s, p, q, v);
    AckKeepsShape(cfg, s.nodes, q, p, v);
    AckKeepsSlots(cfg, s.nodes, h, q, p, v);
    AckKeepsRetain(s.nodes[q], p, v);
    AckKeepsSync(s, q, p, v);
    AckKeepsReceived(s, h, q, p, v);
    KeepNodes(cfg, s, h, q, p, v);
    AckApplies(s, q, p, v);
  }

  lemma {:induction false} AckApplies(s: Sys, q: EndpointId, p: EndpointId, v: PLIndex)
    requires q in s.nodes && q in s.logs
    ensures var o := OnNextIndexResponse(s.nodes[q], p, v); Apply(s, q, o) == s.(nodes := s.nodes[q := o.node])
  {
    assert s.logs[q] + [] == s.logs[q];
  }

  lemma {:induction false} AckKeepsShape(cfg: Config, nodes: map<EndpointId, Node>, q: EndpointId, p: EndpointId, v: PLIndex)
    requires NodesShape(cfg, nodes) && q in nodes && p in nodes[q].remote
    ensures NodesShape(cfg, nodes[q := OnNextIndexResponse(nodes[q], p, v).node])
  {
    var n := nodes[q];
    UpdateKeys(n.remote, p, if n.remote[p] < v then v else n.remote[p]);
    UpdateKeepsShape(cfg, nodes, q, OnNextIndexResponse(n, p, v).node);
  }

  lemma {:induction false} AckKeepsReceived(s: Sys, h: Hist, q: EndpointId, p: EndpointId, v: PLIndex)
    requires ReceivedOK(s.wires, s.nodes, h) && q in s.nodes
    ensures ReceivedOK(s.wires, s.nodes[q := OnNextIndexResponse(s.nodes[q], p, v).node], h)
  {
    hide QueueOK, SeenOK;
    KeepReceived(s.wires, s.nodes, h, q, OnNextIndexResponse(s.nodes[q], p, v).node);
  }

  lemma {:induction false} MarkFromMember(cfg: Config, s: Sys, p: EndpointId, q: EndpointId, v: PLIndex)
    requires Shape(cfg, s) && MarkOK(s, p, q, v) && q in s.nodes
    ensures p in s.nodes[q].remote && forall e | e in s.nodes[q].nodes :: e in s.nodes[q].remote
    ensures OnNextIndexResponse(s.nodes[q], p, v).ok
  {
    assert NodeShape(cfg, q, s.nodes[q]);
  }

  lemma {:induction false} KeepNodes(cfg: Config, s: Sys, h: Hist, q: EndpointId, p: EndpointId, v: PLIndex)
    requires cfg.Valid() && NodesOK(cfg, s, h) && q in s.nodes && q in s.logs
    requires RetainOK(OnNextIndexResponse(s.nodes[q], p, v).node)
    ensures NodesOK(cfg, s.(nodes := s.nodes[q := OnNextIndexResponse(s.nodes[q], p, v).node]), h)
  {
    hide RetainOK, EntryOK, LeaderAfter;
  }

  lemma {:induction false} RecvMark(s: Sys, p: EndpointId, q: EndpointId)
    requires SyncOK(s) && p in s.nodes && q in s.nodes && p in s.nodes[q].remote
    requires (p, q) in s.wires && s.wires[(p, q)].recv < |s.wires[(p, q)].sent|
    requires IsMark(s.wires[(p, q)].sent[s.wires[(p, q)].recv])
    ensures var msg := s.wires[(p, q)].sent[s.wires[(p, q)].recv];
            MarkOK(PaxosSystem.Received(s, p, q), p, q, msg.nextIndex) && s.nodes[q].remote[p] <= msg.nextIndex
  {
    assert MarksOK(s.wires[(p, q)], s.nodes[q].remote[p], s.nodes[p].nextIndex);
  }

  // ---------------------------------------------------------------------------------------------
  //  Paxos letters
  // ---------------------------------------------------------------------------------------------

  lemma {:induction false} ApplySlot(s: Sys, a: EndpointId, i: PLIndex, slot: Slot, sends: seq<Send>)
    requires a in s.nodes && a in s.logs
    ensures var s1 := WithSlot(s, a, i, slot);
            Apply(s, a, Out(PutSlot(s.nodes[a], i, slot), sends, [], true)) == s1.(wires := Post(s.wires, a, sends))
  {
    assert s.logs[a] + [] == s.logs[a];
  }

  lemma {:induction false} AvailIsGenuine(cfg: Config, s: Sys, h: Hist, a: EndpointId, i: PLIndex, l: Letter)
    requires Inv(cfg, s, h) && Avail(s, h, a, i, l)
    ensures LetterOK(At(h, i), l.sender, a, l.body) && l.sender in GroupOf(cfg).all && a in GroupOf(cfg).all
  {
    hide BallotsOK, SlotsOK, SyncOK, OffersOK, NodesOK, ReceivedOK, LetterOK;
    var sent := s.wires[(l.sender, a)].sent;
    assert WireOK(cfg, h, l.sender, a, sent);
    var k :| 0 <= k < |sent| && sent[k] == Multi(l.sender, i, l.body);
    assert MsgOK(cfg, h, l.sender, a, sent[k]);
  }

  /** A ballot that the history does not know yet was never sent. */
  lemma {:induction false} NewBallotIsUnsent(cfg: Config, s: Sys, h: Hist, a: EndpointId, q: EndpointId, i: PLIndex, body: PaxosMessage)
    requires WiresOK(cfg, s.wires, h) && (a, q) in s.wires && !LetterOK(At(h, i), a, q, body)
    ensures Multi(a, i, body) !in s.wires[(a, q)].sent
  {
    hide LetterOK;
    var sent := s.wires[(a, q)].sent;
    assert WireOK(cfg, h, a, q, sent);
    forall k | 0 <= k < |sent| ensures sent[k] != Multi(a, i, body) {
      assert MsgOK(cfg, h, a, q, sent[k]);
    }
  }

  lemma {:induction false} BroadcastOneOK(cfg: Config, s: Sys, h0: Hist, h: Hist, a: EndpointId, q: EndpointId, i: PLIndex, body: PaxosMessage)
    requires WiresOK(cfg, s.wires, h0) && a in s.nodes && (a, q) in s.wires && !body.Promise?
    requires LetterOK(At(h, i), a, a, body) && (body.Prepare? || !LetterOK(At(h0, i), a, a, body))
    ensures SendOK(cfg, s, h, a, Send(q, Multi(a, i, body)))
  {
    hide WiresOK;
    if !body.Prepare? { NewBallotIsUnsent(cfg, s, h0, a, q, i, body); }
  }

  lemma {:induction false} ReachesAll(cfg: Config, s: Sys, a: EndpointId)
    requires Shape(cfg, s) && a in s.nodes
    ensures forall k | 0 <= k < |cfg.members| :: cfg.members[k] in s.nodes && (a, cfg.members[k]) in s.wires
  {
    hide NodeShape;
    forall k | 0 <= k < |cfg.members| ensures cfg.members[k] in s.nodes && (a, cfg.members[k]) in s.wires {
      assert cfg.members[k] in Senders(cfg.members);
    }
  }

  /** Broadcasting a Paxos message: genuine now, and a ballot only if it was not genuine before. */
  lemma {:induction false} BroadcastOK(cfg: Config, s: Sys, h0: Hist, h: Hist, a: EndpointId, i: PLIndex, body: PaxosMessage)
    requires cfg.Valid() && Shape(cfg, s) && WiresOK(cfg, s.wires, h0) && a in s.nodes && !body.Promise?
    requires LetterOK(At(h, i), a, a, body) && (body.Prepare? || !LetterOK(At(h0, i), a, a, body))
    ensures SendsOK(cfg, s, h, a, Broadcast(cfg.members, Multi(a, i, body)))
  {
    hide LetterOK, WiresOK, SendOK, NodesShape, WiresShape, Senders;
    ReachesAll(cfg, s, a);
    var sends := Broadcast(cfg.members, Multi(a, i, body));
    forall k | 0 <= k < |sends| ensures SendOK(cfg, s, h, a, sends[k]) {
      BroadcastOneOK(cfg, s, h0, h, a, cfg.members[k], i, body);
    }
  }

  lemma {:induction false} NodeFacts(cfg: Config, s: Sys, a: EndpointId)
    requires Shape(cfg, s) && a in s.nodes
    ensures s.nodes[a].nodes == cfg.members && s.nodes[a].me == a && s.nodes[a].increment == cfg.increment
    ensures a in s.nodes[a].remote && a in cfg.members && forall e | e in cfg.members :: e in s.nodes[a].remote
  {
    assert NodeShape(cfg, a, s.nodes[a]);
  }

  lemma {:induction false} SlotFacts(cfg: Config, s: Sys, h: Hist, a: EndpointId, i: PLIndex)
    requires SlotsOK(cfg, s.nodes, h) && BallotsOK(cfg, h) && a in s.nodes
    ensures SlotOK(At(h, i), a, AllPast(s.nodes[a], i), SlotAt(s.nodes[a], i), AuxAt(h, a, i), GroupOf(cfg))
    ensures Good(At(h, i), GroupOf(cfg))
  {
    hide Good, SlotOK;
  }

  lemma {:induction false} Connected(cfg: Config, s: Sys, a: EndpointId, q: EndpointId)
    requires Shape(cfg, s) && a in s.nodes && q in GroupOf(cfg).all
    ensures (a, q) in s.wires && q in s.nodes
  {
    hide NodeShape, Senders;
  }

  /** The slot a letter is processed in, with its instance created if need be. */
  lemma {:induction false} ReadySlot(cfg: Config, s: Sys, h: Hist, a: EndpointId, i: PLIndex) returns (slot: Slot)
    requires Inv(cfg, s, h) && a in s.nodes && !AllPast(s.nodes[a], i)
    ensures slot == SlotWithInstance(s.nodes[a], i)
    ensures SlotOK(At(h, i), a, false, Some(slot), AuxAt(h, a, i), GroupOf(cfg))
    ensures Good(At(h, i), GroupOf(cfg)) && GroupOf(cfg).Valid() && GroupOf(cfg).majority == Majority(s.nodes[a].nodes)
    ensures s.nodes[a].nodes == cfg.members && s.nodes[a].me == a
    ensures i in s.nodes[a].slots && s.nodes[a].slots[i].learned.Some? ==> slot.learned.Some?
  {
    hide WiresOK, ReceivedOK, SyncOK, OffersOK, NodesOK, Good, SlotOK, Shape, SlotsOK, BallotsOK;
    slot := SlotWithInstance(s.nodes[a], i);
    GroupIsValid(cfg);
    NodeFacts(cfg, s, a);
    SlotFacts(cfg, s, h, a, i);
    EnsureKeepsSlot(At(h, i), a, s.nodes[a], i, AuxAt(h, a, i), GroupOf(cfg));
  }

  /** Replaces a slot and sends what the new history justifies. */
  lemma {:induction false} SlotAndSend(cfg: Config, s: Sys, h: Hist, h': Hist, a: EndpointId, i: PLIndex, slot: Slot, sends: seq<Send>)
    requires a in s.nodes && a in s.logs && Inv(cfg, WithSlot(s, a, i, slot), h')
    requires SendsOK(cfg, WithSlot(s, a, i, slot), h', a, sends)
    ensures Inv(cfg, Apply(s, a, Out(PutSlot(s.nodes[a], i, slot), sends, [], true)), h')
  {
    hide Inv, SendsOK;
    PostStep(cfg, WithSlot(s, a, i, slot), h', a, sends);
    ApplySlot(s, a, i, slot, sends);
  }

  lemma {:induction false} NoSends(cfg: Config, s: Sys, h: Hist, a: EndpointId)
    ensures SendsOK(cfg, s, h, a, [])
  {
  }

  lemma {:induction false} PrepareStep(cfg: Config, s: Sys, h: Hist, a: EndpointId, i: PLIndex, sender: EndpointId, crnd: Rnd)
    returns (h': Hist)
    requires Inv(cfg, s, h) && a in s.nodes && a in s.logs && !AllPast(s.nodes[a], i) && Avail(s, h, a, i, Letter(sender, Prepare(crnd)))
    ensures HistGrows(h, h')
    ensures Inv(cfg, Apply(s, a, OnPrepare(s.nodes[a], i, SlotWithInstance(s.nodes[a], i), sender, crnd)), h')
  {
    hide Good, SlotOK, NotBy, Inv, HistGrows;
    AvailIsGenuine(cfg, s, h, a, i, Letter(sender, Prepare(crnd)));
    var slot := ReadySlot(cfg, s, h, a, i);
    var x, g := AuxAt(h, a, i), GroupOf(cfg);
    var b := PrepareKeepsSlot(At(h, i), a, slot, x, g, sender, crnd);
    var slot' := PreparedSlot(slot, crnd);
    h' := SlotStep(cfg, s, h, a, i, slot', b, x);
    var s1 := WithSlot(s, a, i, slot');
    if crnd > slot.instance.value.rnd {
      var msg := Multi(a, i, Promise(crnd, slot.instance.value.vote));
      PromiseSendOK(cfg, s, s1, h, h', a, i, sender, crnd, slot.instance.value.vote);
      SlotAndSend(cfg, s, h, h', a, i, slot', [Send(sender, msg)]);
    } else {
      NoSends(cfg, s1, h', a);
      SlotAndSend(cfg, s, h, h', a, i, slot', []);
    }
  }

  lemma {:induction false} PromiseSendOK(cfg: Config, s: Sys, s1: Sys, h: Hist, h': Hist, a: EndpointId, i: PLIndex, q: EndpointId, crnd: Rnd, vote: Vote)
    requires Inv(cfg, s, h) && s1.wires == s.wires && a in s1.nodes && a in s.nodes && q in GroupOf(cfg).all
    requires (a, crnd) !in At(h, i).pledges
    requires (a, crnd) in At(h', i).pledges && At(h', i).pledges[(a, crnd)] == Pledge(q, vote)
    ensures SendsOK(cfg, s1, h', a, [Send(q, Multi(a, i, Promise(crnd, vote)))])
  {
    hide WiresOK, ReceivedOK, SyncOK, OffersOK, NodesOK, BallotsOK, SlotsOK, Shape;
    Connected(cfg, s, a, q);
    NewBallotIsUnsent(cfg, s, h, a, q, i, Promise(crnd, vote));
  }

  lemma {:induction false} PromiseCounted(cfg: Config, s: Sys, h: Hist, a: EndpointId, i: PLIndex, e: EndpointId, rnd: Rnd, vote: Vote)
    returns (slot: Slot, h': Hist)
    requires Inv(cfg, s, h) && a in s.nodes && a in s.logs && !AllPast(s.nodes[a], i) && Avail(s, h, a, i, Letter(e, Promise(rnd, vote)))
    ensures HistGrows(h, h')
    ensures slot == SlotWithInstance(s.nodes[a], i) && rnd in slot.instance.value.proposals
    ensures Inv(cfg, WithSlot(s, a, i, PromisedSlot(slot, rnd, vote)), h')
    ensures var p := PromisedSlot(slot, rnd, vote).instance.value.proposals[rnd];
            |p.promises| == Majority(cfg.members) ==>
              && LetterOK(At(h', i), a, a, Accept(p.crnd, ValueToAccept(p)))
              && !LetterOK(At(h, i), a, a, Accept(p.crnd, ValueToAccept(p)))
  {
    hide Good, SlotOK, NotBy, Inv, HistGrows;
    AvailIsGenuine(cfg, s, h, a, i, Letter(e, Promise(rnd, vote)));
    slot := ReadySlot(cfg, s, h, a, i);
    var b, x' := PromiseKeepsSlot(At(h, i), a, slot, AuxAt(h, a, i), GroupOf(cfg), e, rnd, vote);
    h' := SlotStep(cfg, s, h, a, i, PromisedSlot(slot, rnd, vote), b, x');
  }

  lemma {:induction false} PromiseStep(cfg: Config, s: Sys, h: Hist, a: EndpointId, i: PLIndex, e: EndpointId, rnd: Rnd, vote: Vote)
    returns (h': Hist)
    requires Inv(cfg, s, h) && a in s.nodes && a in s.logs && !AllPast(s.nodes[a], i) && Avail(s, h, a, i, Letter(e, Promise(rnd, vote)))
    ensures HistGrows(h, h')
    ensures OnPromise(s.nodes[a], i, SlotWithInstance(s.nodes[a], i), rnd, vote).ok
    ensures Inv(cfg, Apply(s, a, OnPromise(s.nodes[a], i, SlotWithInstance(s.nodes[a], i), rnd, vote)), h')
  {
    hide HistGrows, LetterOK, Avail, ValueToAccept, Inv, SendsOK, Shape, WiresOK, BallotsOK;
    var slot;
    slot, h' := PromiseCounted(cfg, s, h, a, i, e, rnd, vote);
    var slot' := PromisedSlot(slot, rnd, vote);
    var s1 := WithSlot(s, a, i, slot');
    var p := slot'.instance.value.proposals[rnd];
    InvParts(cfg, s, h);
    NodeFacts(cfg, s, a);
    if |p.promises| == Majority(cfg.members) {
      var body := Accept(p.crnd, ValueToAccept(p));
      InvParts(cfg, s1, h');
      BroadcastOK(cfg, s1, h, h', a, i, body);
      SlotAndSend(cfg, s, h, h', a, i, slot', Broadcast(cfg.members, Multi(a, i, body)));
    } else {
      NoSends(cfg, s1, h', a);
      SlotAndSend(cfg, s, h, h', a, i, slot', []);
    }
  }

  lemma {:induction false} InvParts(cfg: Config, s: Sys, h: Hist)
    requires Inv(cfg, s, h)
    ensures cfg.Valid() && Shape(cfg, s) && WiresOK(cfg, s.wires, h) && BallotsOK(cfg, h)
  {
    hide SlotsOK, ReceivedOK, SyncOK, OffersOK, NodesOK, WiresOK, NodesShape, WiresShape, BallotsOK;
  }

  lemma {:induction false} AcceptCounted(cfg: Config, s: Sys, h: Hist, a: EndpointId, i: PLIndex, p: EndpointId, crnd: Rnd, cval: PLEntry)
    returns (slot: Slot, h': Hist)
    requires Inv(cfg, s, h) && a in s.nodes && a in s.logs && !AllPast(s.nodes[a], i) && Avail(s, h, a, i, Letter(p, Accept(crnd, cval)))
    ensures HistGrows(h, h')
    ensures slot == SlotWithInstance(s.nodes[a], i)
    ensures Inv(cfg, WithSlot(s, a, i, AcceptedSlot(slot, crnd, cval)), h')
    ensures crnd >= slot.instance.value.rnd ==>
              LetterOK(At(h', i), a, a, Learn(crnd)) && !LetterOK(At(h, i), a, a, Learn(crnd))
  {
    hide Good, SlotOK, NotBy, Inv, HistGrows;
    AvailIsGenuine(cfg, s, h, a, i, Letter(p, Accept(crnd, cval)));
    slot := ReadySlot(cfg, s, h, a, i);
    var b, x' := AcceptKeepsSlot(At(h, i), a, slot, AuxAt(h, a, i), GroupOf(cfg), p, crnd, cval);
    h' := SlotStep(cfg, s, h, a, i, AcceptedSlot(slot, crnd, cval), b, x');
  }

  /** The effect of an `Accept` before the log is extended. */
  ghost function AcceptSent(n: Node, i: PLIndex, slot: Slot, crnd: Rnd, cval: PLEntry): Out
    requires slot.instance.Some?
  {
    Out(PutSlot(n, i, AcceptedSlot(slot, crnd, cval)),
        if crnd >= slot.instance.value.rnd then Broadcast(n.nodes, Multi(n.me, i, Learn(crnd))) else [], [], true)
  }

  lemma {:induction false} AcceptSentStep(cfg: Config, s: Sys, h: Hist, a: EndpointId, i: PLIndex, p: EndpointId, crnd: Rnd, cval: PLEntry)
    returns (h': Hist)
    requires Inv(cfg, s, h) && a in s.nodes && a in s.logs && !AllPast(s.nodes[a], i) && Avail(s, h, a, i, Letter(p, Accept(crnd, cval)))
    ensures HistGrows(h, h')
    ensures Inv(cfg, Apply(s, a, AcceptSent(s.nodes[a], i, SlotWithInstance(s.nodes[a], i), crnd, cval)), h')
  {
    hide HistGrows, LetterOK, Avail, Inv, AcceptedSlot, SendsOK, Shape, WiresOK, BallotsOK;
    var slot;
    slot, h' := AcceptCounted(cfg, s, h, a, i, p, crnd, cval);
    var slot' := AcceptedSlot(slot, crnd, cval);
    var s1 := WithSlot(s, a, i, slot');
    InvParts(cfg, s, h);
    NodeFacts(cfg, s, a);
    if crnd >= slot.instance.value.rnd {
      InvParts(cfg, s1, h');
      BroadcastOK(cfg, s1, h, h', a, i, Learn(crnd));
      SlotAndSend(cfg, s, h, h', a, i, slot', Broadcast(cfg.members, Multi(a, i, Learn(crnd))));
    } else {
      NoSends(cfg, s1, h', a);
      SlotAndSend(cfg, s, h, h', a, i, slot', []);
    }
  }

  lemma {:induction false} AcceptStep(cfg: Config, s: Sys, h: Hist, a: EndpointId, i: PLIndex, p: EndpointId, crnd: Rnd, cval: PLEntry)
    returns (h': Hist)
    requires Inv(cfg, s, h) && a in s.nodes && a in s.logs && !AllPast(s.nodes[a], i) && Avail(s, h, a, i, Letter(p, Accept(crnd, cval)))
    ensures HistGrows(h, h')
    ensures OnAccept(s.nodes[a], i, SlotWithInstance(s.nodes[a], i), crnd, cval).ok
    ensures Inv(cfg, Apply(s, a, OnAccept(s.nodes[a], i, SlotWithInstance(s.nodes[a], i), crnd, cval)), h')
  {
    hide HistGrows, Avail, Inv, Broadcast;
    h' := AcceptSentStep(cfg, s, h, a, i, p, crnd, cval);
    var o := AcceptSent(s.nodes[a], i, SlotWithInstance(s.nodes[a], i), crnd, cval);
    DeliverStep(cfg, Apply(s, a, o), h', a);
    ApplyThen(s, a, o, Deliver(o.node));
  }

  lemma {:induction false} LearnCounted(cfg: Config, s: Sys, h: Hist, a: EndpointId, i: PLIndex, e: EndpointId, vrnd: Rnd)
    returns (slot: Slot, h': Hist)
    requires Inv(cfg, s, h) && a in s.nodes && a in s.logs && !AllPast(s.nodes[a], i) && Avail(s, h, a, i, Letter(e, Learn(vrnd)))
    ensures HistGrows(h, h')
    ensures slot == SlotWithInstance(s.nodes[a], i)
    ensures Inv(cfg, WithSlot(s, a, i, LearnedSlot(slot, vrnd, Majority(s.nodes[a].nodes))), h')
  {
    hide Good, SlotOK, Inv, HistGrows;
    AvailIsGenuine(cfg, s, h, a, i, Letter(e, Learn(vrnd)));
    slot := ReadySlot(cfg, s, h, a, i);
    var x' := LearnKeepsSlot(At(h, i), a, slot, AuxAt(h, a, i), GroupOf(cfg), e, vrnd);
    h' := SlotStep(cfg, s, h, a, i, LearnedSlot(slot, vrnd, Majority(s.nodes[a].nodes)), At(h, i), x');
  }

  lemma {:induction false} LearnStep(cfg: Config, s: Sys, h: Hist, a: EndpointId, i: PLIndex, e: EndpointId, vrnd: Rnd)
    returns (h': Hist)
    requires Inv(cfg, s, h) && a in s.nodes && a in s.logs && !AllPast(s.nodes[a], i) && Avail(s, h, a, i, Letter(e, Learn(vrnd)))
    ensures HistGrows(h, h')
    ensures OnLearn(s.nodes[a], i, SlotWithInstance(s.nodes[a], i), vrnd).ok
    ensures Inv(cfg, Apply(s, a, OnLearn(s.nodes[a], i, SlotWithInstance(s.nodes[a], i), vrnd)), h')
  {
    hide HistGrows, Avail, Inv;
    var slot;
    slot, h' := LearnCounted(cfg, s, h, a, i, e, vrnd);
    var slot' := LearnedSlot(slot, vrnd, Majority(s.nodes[a].nodes));
    NoSends(cfg, WithSlot(s, a, i, slot'), h', a);
    SlotAndSend(cfg, s, h, h', a, i, slot', []);
    var o := Quiet(PutSlot(s.nodes[a], i, slot'));
    DeliverStep(cfg, Apply(s, a, o), h', a);
    ApplyThen(s, a, o, Deliver(o.node));
    assert [] + Deliver(o.node).learned == Deliver(o.node).learned;
  }

  lemma {:induction false} ProcessStep(cfg: Config, s: Sys, h: Hist, a: EndpointId, i: PLIndex, l: Letter) returns (h': Hist)
    requires Inv(cfg, s, h) && a in s.nodes && a in s.logs && !AllPast(s.nodes[a], i) && Avail(s, h, a, i, l)
    ensures HistGrows(h, h') && Process(s.nodes[a], l.sender, i, l.body).ok
    ensures Inv(cfg, Apply(s, a, Process(s.nodes[a], l.sender, i, l.body)), h')
  {
    hide HistGrows, Avail, Inv, OnAccept, OnLearn, OnPromise;
    match l.body
    case Prepare(crnd) => h' := PrepareStep(cfg, s, h, a, i, l.sender, crnd);
    case Promise(rnd, vote) => h' := PromiseStep(cfg, s, h, a, i, l.sender, rnd, vote);
    case Accept(crnd, cval) => h' := AcceptStep(cfg, s, h, a, i, l.sender, crnd, cval);
    case Learn(vrnd) => h' := LearnStep(cfg, s, h, a, i, l.sender, vrnd);
  }

  lemma {:induction false} KeptIsNotPast(cfg: Config, s: Sys, h: Hist, a: EndpointId, i: PLIndex)
    requires Inv(cfg, s, h) && a in s.nodes && MinComplete(s.nodes[a]) <= i
    ensures !AllPast(s.nodes[a], i)
  {
    hide SlotsOK, ReceivedOK, OffersOK, NodesOK, WiresOK, Shape, BallotsOK;
    NodeFacts(cfg, s, a);
    Connected(cfg, s, a, a) by { assert a in Senders(cfg.members); }
    assert MarksOK(s.wires[(a, a)], s.nodes[a].remote[a], s.nodes[a].nextIndex);
    AboveMinIsNotPast(s.nodes[a], i);
  }

  lemma {:induction false} Reflexive(h: Hist)
    ensures HistGrows(h, h)
  {
  }

  lemma {:induction false} MultiStep(cfg: Config, s: Sys, h: Hist, a: EndpointId, i: PLIndex, l: Letter) returns (h': Hist)
    requires Inv(cfg, s, h) && a in s.nodes && a in s.logs && Avail(s, h, a, i, l)
    ensures HistGrows(h, h') && OnMulti(s.nodes[a], l.sender, i, l.body).ok
    ensures Inv(cfg, Apply(s, a, OnMulti(s.nodes[a], l.sender, i, l.body)), h')
  {
    hide HistGrows, Avail, Inv, Process;
    h' := h;
    Reflexive(h);
    var n := s.nodes[a];
    if Ignored(n, l.sender, l.body) || i < MinComplete(n) {
      ApplyQuiet(s, a);
    } else if i > n.nextIndex {
      BufferStep(cfg, s, h, a, i, l);
    } else {
      KeptIsNotPast(cfg, s, h, a, i);
      h' := ProcessStep(cfg, s, h, a, i, l);
    }
  }

  lemma {:induction false} DrainStep(cfg: Config, s: Sys, h: Hist, a: EndpointId) returns (h': Hist)
    requires Inv(cfg, s, h) && a in s.nodes && a in s.logs
    ensures HistGrows(h, h') && Drain(s.nodes[a]).ok
    ensures Inv(cfg, Apply(s, a, Drain(s.nodes[a])), h')
    decreases |s.nodes[a].buffered|,
              if s.nodes[a].buffered == map[] then 0 else |s.nodes[a].buffered[Least(s.nodes[a].buffered.Keys)]|
  {
    hide HistGrows, Avail, Inv, OnMulti;
    var n := s.nodes[a];
    h' := h;
    Reflexive(h);
    if !Drainable(n) {
      ApplyQuiet(s, a);
    } else {
      var i := Least(n.buffered.Keys);
      if n.buffered[i] == [] {
        DropKeyStep(cfg, s, h, a, i);
        var o := Quiet(n.(buffered := n.buffered - {i}));
        assert o.node.buffered.Keys == n.buffered.Keys - {i};
        h' := DrainStep(cfg, Apply(s, a, o), h, a);
        DrainAfter(s, a, o);
      } else {
        h' := DrainLetter(cfg, s, h, a, i);
        var o := Quiet(n.(buffered := n.buffered[i := n.buffered[i][1..]]));
        UpdateKeys(n.buffered, i, n.buffered[i][1..]);
        var letter := n.buffered[i][0];
        var o' := OnMulti(o.node, letter.sender, i, letter.body);
        var h'' := DrainStep(cfg, Apply(s, a, o'), h', a);
        GrowsTransitive(h, h', h'');
        h' := h'';
        ApplyThen(s, a, o', Drain(o'.node));
      }
    }
  }

  lemma {:induction false} DrainAfter(s: Sys, a: EndpointId, o: Out)
    requires a in s.logs && o == Quiet(o.node)
    ensures Apply(Apply(s, a, o), a, Drain(o.node)) == Apply(s, a, Drain(o.node))
  {
    ApplyThen(s, a, o, Drain(o.node));
    var d := Drain(o.node);
    assert [] + d.sends == d.sends && [] + d.learned == d.learned;
  }

  /** Takes the first letter at `i` out of the buffer and handles it. */
  lemma {:induction false} DrainLetter(cfg: Config, s: Sys, h: Hist, a: EndpointId, i: PLIndex) returns (h': Hist)
    requires Inv(cfg, s, h) && a in s.nodes && a in s.logs
    requires i in s.nodes[a].buffered && s.nodes[a].buffered[i] != []
    ensures var n := s.nodes[a];
            var o := OnMulti(n.(buffered := n.buffered[i := n.buffered[i][1..]]), n.buffered[i][0].sender, i, n.buffered[i][0].body);
            HistGrows(h, h') && o.ok && Inv(cfg, Apply(s, a, o), h')
  {
    hide HistGrows, Avail, Inv, OnMulti;
    var n := s.nodes[a];
    var q := Quiet(n.(buffered := n.buffered[i := n.buffered[i][1..]]));
    PopStep(cfg, s, h, a, i);
    var l := n.buffered[i][0];
    h' := MultiStep(cfg, Apply(s, a, q), h, a, i, l);
    var o := OnMulti(q.node, l.sender, i, l.body);
    ApplyThen(s, a, q, o);
    assert [] + o.sends == o.sends && [] + o.learned == o.learned;
  }

  // ---------------------------------------------------------------------------------------------
  //  Catching up
  // ---------------------------------------------------------------------------------------------

  lemma {:induction false} FrontIsNotPast(cfg: Config, s: Sys, h: Hist, a: EndpointId, i: PLIndex)
    requires Inv(cfg, s, h) && a in s.nodes && s.nodes[a].nextIndex <= i
    ensures !AllPast(s.nodes[a], i)
  {
    hide Inv;
    MinOverIsMinimum(s.nodes[a].nodes, s.nodes[a].remote, s.nodes[a].nextIndex);
    KeptIsNotPast(cfg, s, h, a, i);
  }

  /** Setting a learned value that the group has decided. */
  lemma {:induction false} AdoptStep(cfg: Config, s: Sys, h: Hist, a: EndpointId, i: PLIndex, slot: Slot) returns (h': Hist)
    requires Inv(cfg, s, h) && a in s.nodes && a in s.logs && !AllPast(s.nodes[a], i)
    requires slot.learned.Some? && LearnedOK(At(h, i), slot.learned, GroupOf(cfg))
    requires slot.instance == if i in s.nodes[a].slots then s.nodes[a].slots[i].instance else None
    ensures HistGrows(h, h') && Inv(cfg, Apply(s, a, Quiet(PutSlot(s.nodes[a], i, slot))), h')
  {
    hide Inv, HistGrows, LearnedOK, InstanceOK, Good;
    InvSlot(cfg, s, h, a, i);
    h' := SlotStep(cfg, s, h, a, i, slot, At(h, i), AuxAt(h, a, i));
    NoSends(cfg, WithSlot(s, a, i, slot), h', a);
    SlotAndSend(cfg, s, h, h', a, i, slot, []);
  }

  lemma {:induction false} InvSlot(cfg: Config, s: Sys, h: Hist, a: EndpointId, i: PLIndex)
    requires Inv(cfg, s, h) && a in s.nodes
    ensures SlotOK(At(h, i), a, AllPast(s.nodes[a], i), SlotAt(s.nodes[a], i), AuxAt(h, a, i), GroupOf(cfg))
    ensures Good(At(h, i), GroupOf(cfg)) && GroupOf(cfg).Valid()
  {
    hide WiresOK, ReceivedOK, SyncOK, OffersOK, NodesOK, Good, SlotOK, Shape, SlotsOK, BallotsOK, GroupOf;
    SlotFacts(cfg, s, h, a, i);
    GroupIsValid(cfg);
  }

  lemma {:induction false} InformOneStep(cfg: Config, s: Sys, h: Hist, a: EndpointId, should: map<PLIndex, Rnd>) returns (h': Hist)
    requires Inv(cfg, s, h) && a in s.nodes && a in s.logs && CanInform(s.nodes[a], should)
    requires Chosen(At(h, s.nodes[a].nextIndex), should[s.nodes[a].nextIndex], GroupOf(cfg))
    ensures HistGrows(h, h') && Inv(cfg, Apply(s, a, Deliver(LearnInformed(s.nodes[a], should))), h')
  {
    hide Inv, HistGrows, Good, Chosen, ProposerOK, LearnerOK;
    var n := s.nodes[a];
    var i := n.nextIndex;
    FrontIsNotPast(cfg, s, h, a, i);
    InvSlot(cfg, s, h, a, i);
    var vote := n.slots[i].instance.value.vote.value;
    AcceptedAboveIsDecision(At(h, i), a, vote.0, should[i], GroupOf(cfg));
    h' := AdoptStep(cfg, s, h, a, i, n.slots[i].(learned := Some((should[i], vote.1))));
    var o := Quiet(LearnInformed(n, should));
    DeliverStep(cfg, Apply(s, a, o), h', a);
    ApplyThen(s, a, o, Deliver(o.node));
    assert [] + Deliver(o.node).learned == Deliver(o.node).learned;
  }

  lemma {:induction false} MarkSendOK(cfg: Config, s: Sys, h: Hist, a: EndpointId, q: EndpointId, msg: Message)
    requires Inv(cfg, s, h) && a in s.nodes && a in s.logs && q in GroupOf(cfg).all
    requires !msg.Multi? && MsgOK(cfg, h, a, q, msg) && (IsMark(msg) ==> msg.nextIndex == s.nodes[a].nextIndex)
    ensures Inv(cfg, Apply(s, a, Out(s.nodes[a], [Send(q, msg)], [], true)), h)
  {
    hide Inv, MsgOK, Shape, WiresOK, BallotsOK, GroupOf;
    InvParts(cfg, s, h);
    Connected(cfg, s, a, q);
    PostStep(cfg, s, h, a, [Send(q, msg)]);
    assert s.logs[a] + [] == s.logs[a] && s.nodes[a := s.nodes[a]] == s.nodes;
    assert s.logs[a := s.logs[a]] == s.logs;
  }

  ghost predicate ShouldOK(cfg: Config, h: Hist, should: map<PLIndex, Rnd>) {
    forall i | i in should :: Chosen(At(h, i), should[i], GroupOf(cfg))
  }

  lemma {:induction false} ShouldGrows(cfg: Config, h: Hist, h': Hist, should: map<PLIndex, Rnd>)
    requires ShouldOK(cfg, h, should) && HistGrows(h, h')
    ensures ShouldOK(cfg, h', should)
  {
    hide Chosen;
    forall i | i in should ensures Chosen(At(h', i), should[i], GroupOf(cfg)) {
      DecidedGrows(At(h, i), At(h', i), GroupOf(cfg));
    }
  }

  lemma {:induction false} InformStep(cfg: Config, s: Sys, h: Hist, a: EndpointId, p: EndpointId, should: map<PLIndex, Rnd>)
    returns (h': Hist)
    requires Inv(cfg, s, h) && a in s.nodes && a in s.logs && p in GroupOf(cfg).all && ShouldOK(cfg, h, should)
    ensures HistGrows(h, h') && OnInformLearned(s.nodes[a], p, should).ok
    ensures Inv(cfg, Apply(s, a, OnInformLearned(s.nodes[a], p, should)), h')
    decreases |IndicesAhead(s.nodes[a], should)|
  {
    hide Inv, HistGrows, Chosen, IndicesAhead, Drain, Deliver;
    var n := s.nodes[a];
    var o := Drain(n);
    h' := DrainStep(cfg, s, h, a);
    ShouldGrows(cfg, h, h', should);
    var s1 := Apply(s, a, o);
    var n1 := o.node;
    if CanInform(n1, should) {
      var h1 := InformOneStep(cfg, s1, h', a, should);
      var d := Deliver(LearnInformed(n1, should));
      ShouldGrows(cfg, h', h1, should);
      IndicesAheadMonotone(n, n1, should);
      IndicesAheadShrinks(n1, d.node, should);
      var h2 := InformStep(cfg, Apply(s1, a, d), h1, a, p, should);
      GrowsTransitive(h, h', h1);
      GrowsTransitive(h, h1, h2);
      h' := h2;
      var rest := OnInformLearned(d.node, p, should);
      ApplyThen(s1, a, d, rest);
      ApplyThen(s, a, o, Then(d, rest));
    } else if n1.nextIndex in should {
      assert n1.me == a by { InvParts(cfg, s, h); NodeFacts(cfg, s, a); }
      MarkSendOK(cfg, s1, h', a, p, LogSyncRequest(a, n1.nextIndex));
      ApplyThen(s, a, o, Out(n1, [Send(p, LogSyncRequest(a, n1.nextIndex))], [], true));
    }
  }

  // A node answers a log request from indices it still holds.

  lemma {:induction false} RetainsFrom(cfg: Config, s: Sys, h: Hist, a: EndpointId, p: EndpointId, lo: PLIndex)
    requires Inv(cfg, s, h) && a in s.nodes && p in s.nodes[a].remote && p in cfg.members && s.nodes[a].remote[p] <= lo
    ensures Retains(s.nodes[a], lo, s.nodes[a].nextIndex)
  {
    hide Inv;
    InvRetains(cfg, s, h, a);
    forall i | lo <= i < s.nodes[a].nextIndex ensures i in s.nodes[a].slots && s.nodes[a].slots[i].learned.Some? {
      assert !AllPast(s.nodes[a], i);
    }
  }

  lemma {:induction false} InvRetains(cfg: Config, s: Sys, h: Hist, a: EndpointId)
    requires Inv(cfg, s, h) && a in s.nodes
    ensures RetainOK(s.nodes[a]) && s.nodes[a].nodes == cfg.members
  {
    hide WiresOK, ReceivedOK, SyncOK, OffersOK, SlotsOK, BallotsOK, LogOK, RetainOK, Shape;
    NodeFacts(cfg, s, a);
    assert a in s.logs by { LogsCover(cfg, s, a); }
  }

  lemma {:induction false} LogsCover(cfg: Config, s: Sys, a: EndpointId)
    requires Shape(cfg, s) && a in s.nodes
    ensures a in s.logs
  {
    hide NodeShape, WiresShape, Senders;
  }

  lemma {:induction false} LearnedIsDecided(cfg: Config, s: Sys, h: Hist, a: EndpointId, i: PLIndex)
    requires Inv(cfg, s, h) && a in s.nodes && i in s.nodes[a].slots && s.nodes[a].slots[i].learned.Some?
    ensures var l := s.nodes[a].slots[i].learned.value; Decided(At(h, i), l.0, l.1, GroupOf(cfg))
  {
    hide Inv, InstanceOK, Good, Decided;
    InvSlot(cfg, s, h, a, i);
  }

  lemma {:induction false} LogSyncRequestStep(cfg: Config, s: Sys, h: Hist, a: EndpointId, p: EndpointId, lo: PLIndex)
    requires Inv(cfg, s, h) && a in s.nodes && a in s.logs && p in GroupOf(cfg).all
    requires p in s.nodes[a].remote && s.nodes[a].remote[p] <= lo
    ensures OnLogSyncRequest(s.nodes[a], p, lo).ok
    ensures Inv(cfg, Apply(s, a, OnLogSyncRequest(s.nodes[a], p, lo)), h)
  {
    hide Inv, Decided;
    var n := s.nodes[a];
    RetainsFrom(cfg, s, h, a, p, lo);
    var learned := LearnedRange(n, lo, n.nextIndex);
    forall k | 0 <= k < |learned| ensures Decided(At(h, learned[k].0), learned[k].1, learned[k].2, GroupOf(cfg)) {
      LearnedIsDecided(cfg, s, h, a, lo + k);
    }
    MarkSendOK(cfg, s, h, a, p, LogSyncResponse(learned));
  }

  ghost predicate EntriesOK(cfg: Config, h: Hist, l: seq<(PLIndex, Rnd, PLEntry)>) {
    forall k | 0 <= k < |l| :: Decided(At(h, l[k].0), l[k].1, l[k].2, GroupOf(cfg))
  }

  lemma {:induction false} EntriesGrow(cfg: Config, h: Hist, h': Hist, l: seq<(PLIndex, Rnd, PLEntry)>)
    requires EntriesOK(cfg, h, l) && HistGrows(h, h')
    ensures EntriesOK(cfg, h', l)
  {
    hide Decided;
    forall k | 0 <= k < |l| ensures Decided(At(h', l[k].0), l[k].1, l[k].2, GroupOf(cfg)) {
      DecidedGrows(At(h, l[k].0), At(h', l[k].0), GroupOf(cfg));
    }
  }

  lemma {:induction false} AdoptOneStep(cfg: Config, s: Sys, h: Hist, a: EndpointId, l: (PLIndex, Rnd, PLEntry)) returns (h': Hist)
    requires Inv(cfg, s, h) && a in s.nodes && a in s.logs && Decided(At(h, l.0), l.1, l.2, GroupOf(cfg))
    ensures HistGrows(h, h') && Inv(cfg, Apply(s, a, Quiet(AdoptOne(s.nodes[a], l))), h')
  {
    hide Inv, HistGrows, Decided;
    var n := s.nodes[a];
    h' := h;
    Reflexive(h);
    if AdoptOne(n, l) == n {
      ApplyQuiet(s, a);
    } else {
      FrontIsNotPast(cfg, s, h, a, l.0);
      var slot := Slot(if l.0 in n.slots then n.slots[l.0].instance else None, Some((l.1, l.2)));
      h' := AdoptStep(cfg, s, h, a, l.0, slot);
    }
  }

  lemma {:induction false} AdoptAllStep(cfg: Config, s: Sys, h: Hist, a: EndpointId, l: seq<(PLIndex, Rnd, PLEntry)>) returns (h': Hist)
    requires Inv(cfg, s, h) && a in s.nodes && a in s.logs && EntriesOK(cfg, h, l)
    ensures HistGrows(h, h') && Inv(cfg, Apply(s, a, Quiet(AdoptAll(s.nodes[a], l))), h')
    decreases |l|
  {
    hide Inv, HistGrows, Decided;
    h' := h;
    Reflexive(h);
    if l == [] {
      ApplyQuiet(s, a);
    } else {
      var init, last := l[..|l| - 1], l[|l| - 1];
      var h1 := AdoptAllStep(cfg, s, h, a, init);
      EntriesGrow(cfg, h, h1, l);
      var o := Quiet(AdoptAll(s.nodes[a], init));
      assert Decided(At(h1, last.0), last.1, last.2, GroupOf(cfg)) by { assert l[|l| - 1] == last; }
      h' := AdoptOneStep(cfg, Apply(s, a, o), h1, a, last);
      GrowsTransitive(h, h1, h');
      ApplyThen(s, a, o, Quiet(AdoptOne(o.node, last)));
    }
  }

  lemma {:induction false} LogSyncResponseStep(cfg: Config, s: Sys, h: Hist, a: EndpointId, l: seq<(PLIndex, Rnd, PLEntry)>) returns (h': Hist)
    requires Inv(cfg, s, h) && a in s.nodes && a in s.logs && EntriesOK(cfg, h, l)
    ensures HistGrows(h, h') && OnLogSyncResponse(s.nodes[a], l).ok
    ensures Inv(cfg, Apply(s, a, OnLogSyncResponse(s.nodes[a], l)), h')
  {
    hide Inv, HistGrows, EntriesOK, AdoptAll, Drain, Deliver;
    var h1 := AdoptAllStep(cfg, s, h, a, l);
    var o := Quiet(AdoptAll(s.nodes[a], l));
    var d := Deliver(o.node);
    DeliverStep(cfg, Apply(s, a, o), h1, a);
    ApplyThen(s, a, o, d);
    assert Then(o, d) == d by { assert [] + d.learned == d.learned; }
    h' := DrainStep(cfg, Apply(s, a, d), h1, a);
    GrowsTransitive(h, h1, h');
    ApplyThen(s, a, d, Drain(d.node));
  }
}
