/** The guarantees of the group, over every run. */
module PaxosSafety {
  import opened Wrappers
  import opened PaxosTypes
  import opened PaxosBallots
  import opened PaxosNode
  import opened PaxosSlots
  import opened PaxosSystem
  import opened PaxosInvariant
  import opened PaxosSteps
  import opened PaxosHandlers

  // ---------------------------------------------------------------------------------------------
  //  Every event keeps the invariant
  // ---------------------------------------------------------------------------------------------

  /** A message just received: genuine, and in hand if it is a Paxos message. */
  ghost predicate InHand(cfg: Config, s: Sys, h: Hist, p: EndpointId, q: EndpointId, msg: Message) {
    && MsgOK(cfg, h, p, q, msg) && p in GroupOf(cfg).all && q in s.nodes && q in s.logs && p in s.nodes[q].remote
    && (msg.Multi? ==> Avail(s, h, q, msg.index, Letter(p, msg.body)))
    && (msg.NextIndexResponse? ==> MarkOK(s, p, q, msg.nextIndex))
    && (msg.LogSyncRequest? ==> s.nodes[q].remote[p] <= msg.nextIndex)
  }

  lemma {:induction false} InternalStep(cfg: Config, s: Sys, h: Hist, p: EndpointId, q: EndpointId, msg: Message) returns (h': Hist)
    requires Inv(cfg, s, h) && InHand(cfg, s, h, p, q, msg)
    ensures HistGrows(h, h') && Internal(s.nodes[q], msg).ok
    ensures Inv(cfg, Apply(s, q, Internal(s.nodes[q], msg)), h')
  {
    hide Inv, HistGrows, Avail, MarkOK, LetterOK, Chosen, Decided, OnMulti, OnInformLearned, OnLogSyncRequest,
         OnLogSyncResponse, OnNextIndexResponse;
    h' := h;
    Reflexive(h);
    var n := s.nodes[q];
    match msg
    case Multi(_, i, body) => h' := MultiStep(cfg, s, h, q, i, Letter(p, body));
    case IsLeader(lid) => IsLeaderStep(cfg, s, h, q, lid);
    case InformLearned(_, should) => h' := InformStep(cfg, s, h, q, p, should);
    case LogSyncRequest(_, next) => LogSyncRequestStep(cfg, s, h, q, p, next);
    case LogSyncResponse(l) => h' := LogSyncResponseStep(cfg, s, h, q, l);
    case NextIndexRequest(_) =>
      assert n.me == q by { InvParts(cfg, s, h); NodeFacts(cfg, s, q); }
      MarkSendOK(cfg, s, h, q, p, NextIndexResponse(q, n.nextIndex));
    case NextIndexResponse(_, next) => AckStep(cfg, s, h, q, p, next);
  }

  lemma {:induction false} IsLeaderStep(cfg: Config, s: Sys, h: Hist, a: EndpointId, lid: LeadershipId)
    requires Inv(cfg, s, h) && a in s.nodes && a in s.logs
    ensures Inv(cfg, Apply(s, a, Internal(s.nodes[a], IsLeader(lid))), h)
  {
    hide WiresOK, ReceivedOK, SyncOK, OffersOK, SlotsOK, BallotsOK, Shape;
    LeaderInserts(cfg, s, h, a);
    NodeFacts(cfg, s, a);
    CounterStep(cfg, s, h, a, Internal(s.nodes[a], IsLeader(lid)).node);
  }

  lemma {:induction false} HandleStep(cfg: Config, s: Sys, h: Hist, p: EndpointId, q: EndpointId, msg: Message) returns (h': Hist)
    requires Inv(cfg, s, h) && InHand(cfg, s, h, p, q, msg)
    ensures HistGrows(h, h') && Handle(s.nodes[q], msg).ok
    ensures Inv(cfg, Apply(s, q, Handle(s.nodes[q], msg)), h')
  {
    hide Inv, HistGrows, MsgOK, Avail, MarkOK, Internal, Drain;
    var o := Internal(s.nodes[q], msg);
    var h1 := InternalStep(cfg, s, h, p, q, msg);
    h' := DrainStep(cfg, Apply(s, q, o), h1, q);
    GrowsTransitive(h, h1, h');
    ApplyThen(s, q, o, Drain(o.node));
  }

  lemma {:induction false} ReceiveKeeps(cfg: Config, s: Sys, h: Hist, p: EndpointId, q: EndpointId) returns (h': Hist)
    requires Inv(cfg, s, h) && q in s.nodes && q in s.logs
    requires (p, q) in s.wires && s.wires[(p, q)].recv < |s.wires[(p, q)].sent|
    ensures var msg := s.wires[(p, q)].sent[s.wires[(p, q)].recv];
            && Handle(s.nodes[q], msg).ok && HistGrows(h, h')
            && Inv(cfg, Apply(PaxosSystem.Received(s, p, q), q, Handle(s.nodes[q], msg)), h')
  {
    hide Inv, HistGrows, MsgOK, Avail, Handle, MarkOK, Shape, WiresOK, BallotsOK;
    var msg := s.wires[(p, q)].sent[s.wires[(p, q)].recv];
    RecvStep(cfg, s, h, p, q);
    SenderFacts(cfg, s, h, p, q);
    h' := HandleStep(cfg, PaxosSystem.Received(s, p, q), h, p, q, msg);
  }

  lemma {:induction false} SenderFacts(cfg: Config, s: Sys, h: Hist, p: EndpointId, q: EndpointId)
    requires Inv(cfg, s, h) && q in s.nodes
    requires (p, q) in s.wires && s.wires[(p, q)].recv < |s.wires[(p, q)].sent|
    ensures p in GroupOf(cfg).all && p in s.nodes[q].remote
    ensures var msg := s.wires[(p, q)].sent[s.wires[(p, q)].recv];
            IsMark(msg) ==> MarkOK(PaxosSystem.Received(s, p, q), p, q, msg.nextIndex) && s.nodes[q].remote[p] <= msg.nextIndex
  {
    hide WiresOK, ReceivedOK, SyncOK, OffersOK, SlotsOK, BallotsOK, NodesOK, MarkOK;
    assert NodeShape(cfg, q, s.nodes[q]);
    if IsMark(s.wires[(p, q)].sent[s.wires[(p, q)].recv]) { RecvMark(s, p, q); }
  }

  // ---------------------------------------------------------------------------------------------
  //  Proposals and timers
  // ---------------------------------------------------------------------------------------------

  /** The only new proposal is that of `v` by `e` at index `i`. */
  ghost predicate HistOffers(h: Hist, h': Hist, i: PLIndex, e: EndpointId, v: PLEntry) {
    && HistExtends(h, h')
    && forall j, f, w | (f, w) in At(h', j).offers :: (f, w) in At(h, j).offers || (j == i && f == e && w == v)
  }

  lemma {:induction false} ProposeStep(cfg: Config, s: Sys, h: Hist, a: EndpointId, entry: PLEntry, rand: nat) returns (h': Hist)
    requires Inv(cfg, s, h) && a in s.nodes && a in s.logs && s.nodes[a].increment > 0
    requires OfferOK(cfg, s.logs, s.nodes[a].nextIndex, a, entry)
    ensures HistOffers(h, h', s.nodes[a].nextIndex, a, entry) && Inv(cfg, Apply(s, a, Propose(s.nodes[a], entry, rand)), h')
  {
    hide Inv, HistExtends, HistGrows, Good, SlotOK, NotBy, OfferOK, Shape, WiresOK, BallotsOK, NextRound;
    var n := s.nodes[a];
    var i := n.nextIndex;
    FrontIsNotPast(cfg, s, h, a, i);
    var slot := ReadySlot(cfg, s, h, a, i);
    var crnd := NextRound(slot.instance.value.latestCrnd, n.increment, rand);
    var b, x := AskKeepsSlot(At(h, i), a, slot, AuxAt(h, a, i), GroupOf(cfg), crnd, entry);
    var slot' := AskedSlot(slot, crnd, entry);
    h' := SlotStep(cfg, s, h, a, i, slot', b, x);
    var s1 := WithSlot(s, a, i, slot');
    InvParts(cfg, s, h);
    InvParts(cfg, s1, h');
    BroadcastOK(cfg, s1, h, h', a, i, Prepare(crnd));
    SlotAndSend(cfg, s, h, h', a, i, slot', Broadcast(cfg.members, Multi(a, i, Prepare(crnd))));
  }

  /** Event `e` in state `s` makes node `p` propose `v` at index `i`. */
  predicate Proposes(s: Sys, e: Event, p: EndpointId, i: PLIndex, v: PLEntry) {
    p in s.nodes && s.nodes[p].nextIndex == i &&
    match e
    case InsertEvent(at, _, payload, _) =>
      at == p && s.nodes[p].leader.eid == s.nodes[p].me && s.nodes[p].nextInsert.None? && v == Bundle(payload)
    case RetryEvent(at, uuid, _) =>
      at == p && s.nodes[p].nextInsert.Some? && s.nodes[p].nextInsert.value.0 == uuid && v == Bundle(s.nodes[p].nextInsert.value.1)
    case HeartbeatEvent(at, _) =>
      at == p && s.nodes[p].leader.eid != s.nodes[p].me && s.nodes[p].heartbeat >= s.nodes[p].threshold
      && v == LeaderChanged(LeadershipId(s.nodes[p].leader.gen + 1, p))
    case _ => false
  }

  /** Every proposal that event `e` adds to the history is one that it makes. */
  ghost predicate NewOffers(s: Sys, e: Event, h: Hist, h': Hist) {
    && HistExtends(h, h')
    && forall j, p, v | (p, v) in At(h', j).offers :: (p, v) in At(h, j).offers || Proposes(s, e, p, j, v)
  }

  lemma {:induction false} NoNewOffers(s: Sys, e: Event, h: Hist, h': Hist)
    requires HistGrows(h, h')
    ensures NewOffers(s, e, h, h')
  {
    hide HistExtends;
    forall j: PLIndex, p, v | (p, v) in At(h', j).offers ensures (p, v) in At(h, j).offers {
      assert At(h', j).offers == At(h, j).offers;
    }
  }

  lemma {:induction false} OneNewOffer(s: Sys, e: Event, h: Hist, h': Hist, i: PLIndex, p: EndpointId, v: PLEntry)
    requires HistOffers(h, h', i, p, v) && Proposes(s, e, p, i, v)
    ensures NewOffers(s, e, h, h')
  {
    hide HistExtends, Proposes;
  }

  /** A node offers only what its own log entitles it to. */
  lemma {:induction false} OwnOfferOK(cfg: Config, s: Sys, h: Hist, a: EndpointId, entry: PLEntry)
    requires Inv(cfg, s, h) && a in s.nodes && a in s.logs
    requires entry.Bundle? ==> s.nodes[a].leader.eid == a
    requires entry.LeaderChanged? ==> entry.lid == LeadershipId(s.nodes[a].leader.gen + 1, a)
    ensures OfferOK(cfg, s.logs, s.nodes[a].nextIndex, a, entry)
  {
    hide WiresOK, ReceivedOK, SyncOK, OffersOK, SlotsOK, BallotsOK, Shape, RetainOK, EntryOK;
    assert LogOK(cfg, h, s.nodes[a], s.logs[a]);
    assert s.logs[a][..s.nodes[a].nextIndex] == s.logs[a];
  }

  lemma {:induction false} InsertStep(cfg: Config, s: Sys, h: Hist, a: EndpointId, uuid: UUID, payload: int, rand: nat) returns (h': Hist)
    requires Inv(cfg, s, h) && a in s.nodes && a in s.logs && s.nodes[a].increment > 0
    ensures NewOffers(s, InsertEvent(a, uuid, payload, rand), h, h')
    ensures Inv(cfg, Apply(s, a, InsertBundle(s.nodes[a], uuid, payload, rand)), h')
  {
    hide Inv, HistGrows, HistOffers, NewOffers, Propose, Shape, WiresOK, BallotsOK, OfferOK;
    var n := s.nodes[a];
    h' := h;
    Reflexive(h);
    NoNewOffers(s, InsertEvent(a, uuid, payload, rand), h, h);
    if n.leader.eid == n.me && n.nextInsert.None? {
      InvParts(cfg, s, h);
      NodeFacts(cfg, s, a);
      var o := Quiet(n.(nextInsert := Some((uuid, payload))));
      CounterStep(cfg, s, h, a, o.node);
      var s1 := Apply(s, a, o);
      OwnOfferOK(cfg, s1, h, a, Bundle(payload));
      h' := ProposeStep(cfg, s1, h, a, Bundle(payload), rand);
      OneNewOffer(s, InsertEvent(a, uuid, payload, rand), h, h', n.nextIndex, a, Bundle(payload));
      ApplyAfterQuiet(s, a, o, Propose(o.node, Bundle(payload), rand));
    } else {
      ApplyQuiet(s, a);
    }
  }

  lemma {:induction false} ApplyAfterQuiet(s: Sys, a: EndpointId, o: Out, p: Out)
    requires a in s.logs && o == Quiet(o.node)
    ensures Apply(Apply(s, a, o), a, p) == Apply(s, a, p)
  {
    ApplyThen(s, a, o, p);
    assert [] + p.sends == p.sends && [] + p.learned == p.learned;
  }

  lemma {:induction false} RetryStep(cfg: Config, s: Sys, h: Hist, a: EndpointId, uuid: UUID, rand: nat) returns (h': Hist)
    requires Inv(cfg, s, h) && a in s.nodes && a in s.logs && s.nodes[a].increment > 0
    ensures NewOffers(s, RetryEvent(a, uuid, rand), h, h')
    ensures Inv(cfg, Apply(s, a, RetryInsert(s.nodes[a], uuid, rand)), h')
  {
    hide Inv, HistGrows, HistOffers, NewOffers, Propose, Shape, WiresOK, BallotsOK, OfferOK;
    var n := s.nodes[a];
    h' := h;
    Reflexive(h);
    NoNewOffers(s, RetryEvent(a, uuid, rand), h, h);
    if n.nextInsert.Some? && n.nextInsert.value.0 == uuid {
      assert n.leader.eid == a by { InvLeader(cfg, s, h, a); }
      OwnOfferOK(cfg, s, h, a, Bundle(n.nextInsert.value.1));
      h' := ProposeStep(cfg, s, h, a, Bundle(n.nextInsert.value.1), rand);
      OneNewOffer(s, RetryEvent(a, uuid, rand), h, h', n.nextIndex, a, Bundle(n.nextInsert.value.1));
    } else {
      ApplyQuiet(s, a);
    }
  }

  lemma {:induction false} InvLeader(cfg: Config, s: Sys, h: Hist, a: EndpointId)
    requires Inv(cfg, s, h) && a in s.nodes && a in s.logs
    ensures s.nodes[a].me == a && (s.nodes[a].nextInsert.Some? ==> s.nodes[a].leader.eid == a)
  {
    hide WiresOK, ReceivedOK, SyncOK, OffersOK, SlotsOK, BallotsOK, Shape;
    LeaderInserts(cfg, s, h, a);
    NodeFacts(cfg, s, a);
  }

  lemma {:induction false} InformAllStep(cfg: Config, s: Sys, h: Hist, a: EndpointId)
    requires Inv(cfg, s, h) && a in s.nodes && a in s.logs
    ensures BroadcastInformLearned(s.nodes[a]).ok
    ensures Inv(cfg, Apply(s, a, BroadcastInformLearned(s.nodes[a])), h)
  {
    hide Inv, Shape, WiresOK, BallotsOK;
    var n := s.nodes[a];
    InvParts(cfg, s, h);
    NodeFacts(cfg, s, a);
    forall k | 0 <= k < |n.nodes| ensures n.nodes[k] in n.remote && Retains(n, n.remote[n.nodes[k]], n.nextIndex) {
      RetainsFrom(cfg, s, h, a, n.nodes[k], n.remote[n.nodes[k]]);
    }
    var o := BroadcastInformLearned(n);
    InformSendsOK(cfg, s, h, a);
    PostStep(cfg, s, h, a, o.sends);
    ApplySends(s, a, o);
  }

  lemma {:induction false} ApplySends(s: Sys, a: EndpointId, o: Out)
    requires a in s.nodes && a in s.logs && o.node == s.nodes[a] && o.learned == []
    ensures Apply(s, a, o) == s.(wires := Post(s.wires, a, o.sends))
  {
    assert s.logs[a] + [] == s.logs[a] && s.nodes[a := s.nodes[a]] == s.nodes;
    assert s.logs[a := s.logs[a]] == s.logs;
  }

  lemma {:induction false} InformSendsOK(cfg: Config, s: Sys, h: Hist, a: EndpointId)
    requires Inv(cfg, s, h) && a in s.nodes && CanInformAll(s.nodes[a])
    ensures SendsOK(cfg, s, h, a, BroadcastInformLearned(s.nodes[a]).sends)
  {
    hide Inv, Shape, WiresOK, BallotsOK, Chosen;
    var n := s.nodes[a];
    InvParts(cfg, s, h);
    NodeFacts(cfg, s, a);
    ReachesAll(cfg, s, a);
    var sends := BroadcastInformLearned(n).sends;
    forall k | 0 <= k < |sends| ensures SendOK(cfg, s, h, a, sends[k]) {
      var should := ShouldLearn(n, n.nodes[k]);
      forall i | i in should ensures Chosen(At(h, i), should[i], GroupOf(cfg)) {
        LearnedIsDecided(cfg, s, h, a, i);
      }
    }
  }

  lemma {:induction false} PlainBroadcastStep(cfg: Config, s: Sys, h: Hist, a: EndpointId, msg: Message)
    requires Inv(cfg, s, h) && a in s.nodes && a in s.logs
    requires msg.IsLeader? || msg == NextIndexRequest(a)
    ensures Inv(cfg, Apply(s, a, Out(s.nodes[a], Broadcast(s.nodes[a].nodes, msg), [], true)), h)
  {
    hide Inv, Shape, WiresOK, BallotsOK;
    InvParts(cfg, s, h);
    NodeFacts(cfg, s, a);
    ReachesAll(cfg, s, a);
    var o := Out(s.nodes[a], Broadcast(s.nodes[a].nodes, msg), [], true);
    PostStep(cfg, s, h, a, o.sends);
    ApplySends(s, a, o);
  }

  lemma {:induction false} HeartbeatStep(cfg: Config, s: Sys, h: Hist, a: EndpointId, rand: nat) returns (h': Hist)
    requires Inv(cfg, s, h) && a in s.nodes && a in s.logs && s.nodes[a].increment > 0
    ensures NewOffers(s, HeartbeatEvent(a, rand), h, h') && LeaderHeartbeat(s.nodes[a], rand).ok
    ensures Inv(cfg, Apply(s, a, LeaderHeartbeat(s.nodes[a], rand)), h')
  {
    hide Inv, HistGrows, HistOffers, NewOffers, Broadcast, BroadcastInformLearned, OfferOK;
    var n := s.nodes[a];
    h' := h;
    Reflexive(h);
    NoNewOffers(s, HeartbeatEvent(a, rand), h, h);
    InvLeader(cfg, s, h, a);
    if n.leader.eid == n.me {
      var o := Out(n, Broadcast(n.nodes, IsLeader(n.leader)), [], true);
      PlainBroadcastStep(cfg, s, h, a, IsLeader(n.leader));
      InformAllStep(cfg, Apply(s, a, o), h, a);
      ApplyThen(s, a, o, BroadcastInformLearned(n));
    } else {
      var o := Quiet(n.(heartbeat := n.heartbeat + 1));
      CounterStep(cfg, s, h, a, o.node);
      var s1 := Apply(s, a, o);
      if o.node.heartbeat > n.threshold {
        var entry := LeaderChanged(LeadershipId(n.leader.gen + 1, a));
        OwnOfferOK(cfg, s1, h, a, entry);
        h' := ProposeStep(cfg, s1, h, a, entry, rand);
        var p := Propose(o.node, entry, rand);
        OneNewOffer(s, HeartbeatEvent(a, rand), h, h', n.nextIndex, a, entry);
        ApplyAfterQuiet(s, a, o, p);
        InformAllStep(cfg, Apply(s, a, p), h', a);
        ApplyThen(s, a, p, BroadcastInformLearned(p.node));
      }
    }
  }

  /** No event of any node breaks the invariant, and no `unwrap` fails. */
  lemma {:induction false} EventKeeps(cfg: Config, s: Sys, h: Hist, e: Event, s0: Sys, a: EndpointId, o: Out) returns (h': Hist)
    requires Inv(cfg, s, h) && Runs(s, e, s0, a, o)
    ensures o.ok && a in s0.logs && NewOffers(s, e, h, h') && Inv(cfg, Apply(s0, a, o), h')
  {
    hide Inv, HistGrows, NewOffers, Handle, InsertBundle, RetryInsert, LeaderHeartbeat;
    h' := h;
    Reflexive(h);
    NoNewOffers(s, e, h, h);
    match e
    case Receive(p, q) =>
      h' := ReceiveKeeps(cfg, s, h, p, q);
      NoNewOffers(s, e, h, h');
    case InsertEvent(n, uuid, payload, rand) => h' := InsertStep(cfg, s, h, n, uuid, payload, rand); OkFacts(s.nodes[n], uuid, payload, rand);
    case RetryEvent(n, uuid, rand) => h' := RetryStep(cfg, s, h, n, uuid, rand); OkFacts(s.nodes[n], uuid, 0, rand);
    case HeartbeatEvent(n, rand) => h' := HeartbeatStep(cfg, s, h, n, rand);
    case NextIndexEvent(n) =>
      InvLeader(cfg, s, h, n);
      PlainBroadcastStep(cfg, s, h, n, NextIndexRequest(n));
  }

  lemma {:induction false} OkFacts(n: Node, uuid: UUID, payload: int, rand: nat)
    requires n.increment > 0
    ensures InsertBundle(n, uuid, payload, rand).ok && RetryInsert(n, uuid, rand).ok
  {
  }
}
