/** What every reachable state of the group satisfies, relative to a history that exists only in
    the proof. Each part speaks about as little of the state as it can. */
module PaxosInvariant {
  import opened Wrappers
  import opened PaxosTypes
  import opened Sets
  import opened PaxosBallots
  import opened PaxosNode
  import opened PaxosSlots
  import opened PaxosSystem

  datatype Hist = Hist(ballots: map<PLIndex, Ballots>, aux: map<(EndpointId, PLIndex), Aux>)

  function At(h: Hist, i: PLIndex): Ballots {
    if i in h.ballots then h.ballots[i] else NO_BALLOTS
  }

  function AuxAt(h: Hist, a: EndpointId, i: PLIndex): Aux {
    if (a, i) in h.aux then h.aux[(a, i)] else NO_AUX
  }

  function SlotAt(n: Node, i: PLIndex): Option<Slot> {
    if i in n.slots then Some(n.slots[i]) else None
  }

  ghost function GroupOf(cfg: Config): Group {
    Group(Senders(cfg.members), Majority(cfg.members))
  }

  lemma {:induction false} GroupIsValid(cfg: Config)
    requires cfg.Valid()
    ensures GroupOf(cfg).Valid()
  {
    DistinctSize(cfg.members);
  }

  ghost predicate HistExtends(h: Hist, h': Hist) {
    forall i :: Grows(At(h, i), At(h', i))
  }

  /** The history grew without a new proposal. */
  ghost predicate HistGrows(h: Hist, h': Hist) {
    HistExtends(h, h') && forall i :: At(h', i).offers == At(h, i).offers
  }

  // ---------------------------------------------------------------------------------------------
  //  The parts
  // ---------------------------------------------------------------------------------------------

  ghost predicate NodeShape(cfg: Config, a: EndpointId, n: Node) {
    n.me == a && n.nodes == cfg.members && n.threshold == cfg.threshold && n.increment == cfg.increment
    && n.remote.Keys == Senders(cfg.members)
  }

  ghost predicate WiresShape(cfg: Config, wires: Wires) {
    forall p, q :: (p, q) in wires <==> p in Senders(cfg.members) && q in Senders(cfg.members)
  }

  ghost predicate NodesShape(cfg: Config, nodes: map<EndpointId, Node>) {
    && nodes.Keys == Senders(cfg.members)
    && forall a | a in nodes :: NodeShape(cfg, a, nodes[a])
  }

  ghost predicate Shape(cfg: Config, s: Sys) {
    NodesShape(cfg, s.nodes) && s.logs.Keys == Senders(cfg.members) && WiresShape(cfg, s.wires)
  }

  lemma {:induction false} UpdateKeepsShape(cfg: Config, nodes: map<EndpointId, Node>, a: EndpointId, n: Node)
    requires NodesShape(cfg, nodes) && a in nodes
    requires SameFrame(nodes[a], n) && n.remote.Keys == nodes[a].remote.Keys
    ensures NodesShape(cfg, nodes[a := n])
  {
    assert NodeShape(cfg, a, nodes[a]);
    var nodes' := nodes[a := n];
    UpdateKeys(nodes, a, n);
    forall e | e in nodes' ensures NodeShape(cfg, e, nodes'[e]) {
      if e != a { assert NodeShape(cfg, e, nodes[e]); }
    }
  }

  ghost predicate BallotsOK(cfg: Config, h: Hist) {
    forall i :: Good(At(h, i), GroupOf(cfg))
  }

  /** Every member has confirmed an index beyond `i`. */
  ghost predicate AllPast(n: Node, i: PLIndex) {
    forall e | e in n.nodes :: e in n.remote && i < n.remote[e]
  }

  ghost predicate SlotsOK(cfg: Config, nodes: map<EndpointId, Node>, h: Hist) {
    forall a, i | a in nodes ::
      SlotOK(At(h, i), a, AllPast(nodes[a], i), SlotAt(nodes[a], i), AuxAt(h, a, i), GroupOf(cfg))
  }

  ghost predicate LetterOK(b: Ballots, p: EndpointId, q: EndpointId, body: PaxosMessage) {
    match body
    case Prepare(r) => (p, r) in b.asked
    case Promise(r, vote) => (p, r) in b.pledges && b.pledges[(p, r)] == Pledge(q, vote)
    case Accept(r, v) => r in b.choices && b.choices[r].proposer == p && b.choices[r].value == v
    case Learn(r) => (p, r) in b.accepted
  }

  ghost predicate MsgOK(cfg: Config, h: Hist, p: EndpointId, q: EndpointId, msg: Message) {
    match msg
    case Multi(sender, i, body) => sender == p && LetterOK(At(h, i), p, q, body)
    case IsLeader(_) => true
    case InformLearned(sender, should) => sender == p && forall i | i in should :: Chosen(At(h, i), should[i], GroupOf(cfg))
    case LogSyncRequest(sender, _) => sender == p
    case LogSyncResponse(l) =>
      forall k | 0 <= k < |l| :: Decided(At(h, l[k].0), l[k].1, l[k].2, GroupOf(cfg))
    case NextIndexRequest(sender) => sender == p
    case NextIndexResponse(responder, _) => responder == p
  }

  /** Promises, accepts and learns: sent at most once to each receiver. */
  predicate IsBallot(msg: Message) {
    msg.Multi? && !msg.body.Prepare?
  }

  ghost predicate WireOK(cfg: Config, h: Hist, p: EndpointId, q: EndpointId, sent: seq<Message>) {
    && (forall k | 0 <= k < |sent| :: MsgOK(cfg, h, p, q, sent[k]))
    && (forall j, k | 0 <= j < k < |sent| && IsBallot(sent[j]) :: sent[j] != sent[k])
  }

  ghost predicate WiresOK(cfg: Config, wires: Wires, h: Hist) {
    forall p, q | (p, q) in wires :: WireOK(cfg, h, p, q, wires[(p, q)].sent)
  }

  /** The letter was received by `a` on its channel from the sender. */
  ghost predicate Arrived(wires: Wires, a: EndpointId, i: PLIndex, l: Letter) {
    && (l.sender, a) in wires && wires[(l.sender, a)].recv <= |wires[(l.sender, a)].sent|
    && Multi(l.sender, i, l.body) in wires[(l.sender, a)].sent[..wires[(l.sender, a)].recv]
  }

  ghost predicate SeenOK(wires: Wires, a: EndpointId, i: PLIndex, x: Aux) {
    forall l | l in x.seen :: Arrived(wires, a, i, l)
  }

  ghost predicate QueueOK(wires: Wires, a: EndpointId, i: PLIndex, q: seq<Letter>, x: Aux) {
    && (forall k | 0 <= k < |q| :: Arrived(wires, a, i, q[k]))
    && (forall k | 0 <= k < |q| && !q[k].body.Prepare? :: q[k] !in x.seen)
    && (forall j, k | 0 <= j < k < |q| && !q[j].body.Prepare? :: q[j] != q[k])
  }

  ghost predicate ReceivedOK(wires: Wires, nodes: map<EndpointId, Node>, h: Hist) {
    && (forall a, i | a in nodes :: SeenOK(wires, a, i, AuxAt(h, a, i)))
    && (forall a, i | a in nodes && i in nodes[a].buffered :: QueueOK(wires, a, i, nodes[a].buffered[i], AuxAt(h, a, i)))
  }

  /** Messages that tell how far their sender has got. */
  predicate IsMark(msg: Message) {
    msg.LogSyncRequest? || msg.NextIndexResponse?
  }

  /** On each channel these marks never decrease; the receiver's record is below those to come. */
  ghost predicate MarksOK(c: Chan, recorded: PLIndex, reached: PLIndex) {
    && c.recv <= |c.sent| && recorded <= reached
    && (forall k | 0 <= k < |c.sent| && IsMark(c.sent[k]) :: c.sent[k].nextIndex <= reached)
    && (forall k | c.recv <= k < |c.sent| && IsMark(c.sent[k]) :: recorded <= c.sent[k].nextIndex)
    && (forall j, k | 0 <= j < k < |c.sent| && IsMark(c.sent[j]) && IsMark(c.sent[k]) ::
          c.sent[j].nextIndex <= c.sent[k].nextIndex)
  }

  ghost predicate SyncOK(s: Sys) {
    forall p, q | (p, q) in s.wires && p in s.nodes && q in s.nodes && p in s.nodes[q].remote ::
      MarksOK(s.wires[(p, q)], s.nodes[q].remote[p], s.nodes[p].nextIndex)
  }

  ghost predicate RetainOK(n: Node) {
    forall i | 0 <= i < n.nextIndex && !AllPast(n, i) :: i in n.slots && n.slots[i].learned.Some?
  }

  /** The leadership in force after a log prefix. */
  function LeaderAfter(cfg: Config, log: seq<PLEntry>): LeadershipId
    requires cfg.Valid()
  {
    if log == [] then LeadershipId(0, cfg.members[0])
    else NextLeader(LeaderAfter(cfg, log[..|log| - 1]), log[|log| - 1])
  }

  ghost predicate EntryOK(cfg: Config, h: Hist, j: PLIndex, v: PLEntry) {
    exists r :: Decided(At(h, j), r, v, GroupOf(cfg))
  }

  ghost predicate LogOK(cfg: Config, h: Hist, n: Node, log: seq<PLEntry>)
    requires cfg.Valid()
  {
    && |log| == n.nextIndex && n.leader == LeaderAfter(cfg, log)
    && (n.nextInsert.Some? ==> n.leader.eid == n.me)
    && forall j | 0 <= j < |log| :: EntryOK(cfg, h, j, log[j])
  }

  /** What a node may propose after the prefix it has seen. */
  ghost predicate Legit(cfg: Config, prefix: seq<PLEntry>, e: EndpointId, v: PLEntry)
    requires cfg.Valid()
  {
    match v
    case Bundle(_) => LeaderAfter(cfg, prefix).eid == e
    case LeaderChanged(lid) => lid == LeadershipId(LeaderAfter(cfg, prefix).gen + 1, e)
  }

  ghost predicate OfferOK(cfg: Config, logs: map<EndpointId, seq<PLEntry>>, i: PLIndex, e: EndpointId, v: PLEntry)
    requires cfg.Valid()
  {
    e in logs && i <= |logs[e]| && Legit(cfg, logs[e][..i], e, v)
  }

  ghost predicate OffersOK(cfg: Config, logs: map<EndpointId, seq<PLEntry>>, h: Hist)
    requires cfg.Valid()
  {
    forall i, e, v | (e, v) in At(h, i).offers :: OfferOK(cfg, logs, i, e, v)
  }

  ghost predicate NodesOK(cfg: Config, s: Sys, h: Hist)
    requires cfg.Valid()
  {
    forall a | a in s.nodes && a in s.logs :: RetainOK(s.nodes[a]) && LogOK(cfg, h, s.nodes[a], s.logs[a])
  }

  ghost predicate Inv(cfg: Config, s: Sys, h: Hist) {
    && cfg.Valid() && Shape(cfg, s) && BallotsOK(cfg, h) && SlotsOK(cfg, s.nodes, h)
    && WiresOK(cfg, s.wires, h) && ReceivedOK(s.wires, s.nodes, h) && SyncOK(s)
    && NodesOK(cfg, s, h) && OffersOK(cfg, s.logs, h)
  }

  // ---------------------------------------------------------------------------------------------
  //  Growth of the history
  // ---------------------------------------------------------------------------------------------

  lemma {:induction false} MsgGrows(cfg: Config, h: Hist, h': Hist, p: EndpointId, q: EndpointId, msg: Message)
    requires HistExtends(h, h') && MsgOK(cfg, h, p, q, msg)
    ensures MsgOK(cfg, h', p, q, msg)
  {
    match msg
    case Multi(_, i, _) => assert Grows(At(h, i), At(h', i));
    case InformLearned(_, should) =>
      forall i | i in should ensures Chosen(At(h', i), should[i], GroupOf(cfg)) {
        DecidedGrows(At(h, i), At(h', i), GroupOf(cfg));
      }
    case LogSyncResponse(l) =>
      forall k | 0 <= k < |l| ensures Decided(At(h', l[k].0), l[k].1, l[k].2, GroupOf(cfg)) {
        DecidedGrows(At(h, l[k].0), At(h', l[k].0), GroupOf(cfg));
      }
    case _ =>
  }

  lemma {:induction false} WiresGrow(cfg: Config, h: Hist, h': Hist, wires: Wires)
    requires HistExtends(h, h') && WiresOK(cfg, wires, h)
    ensures WiresOK(cfg, wires, h')
  {
    forall p, q | (p, q) in wires ensures WireOK(cfg, h', p, q, wires[(p, q)].sent) {
      assert WireOK(cfg, h, p, q, wires[(p, q)].sent);
      forall k | 0 <= k < |wires[(p, q)].sent| ensures MsgOK(cfg, h', p, q, wires[(p, q)].sent[k]) {
        MsgGrows(cfg, h, h', p, q, wires[(p, q)].sent[k]);
      }
    }
  }

  lemma {:induction false} LogGrows(cfg: Config, h: Hist, h': Hist, n: Node, log: seq<PLEntry>)
    requires cfg.Valid() && HistExtends(h, h') && LogOK(cfg, h, n, log)
    ensures LogOK(cfg, h', n, log)
  {
    forall j | 0 <= j < |log| ensures EntryOK(cfg, h', j, log[j]) {
      var r :| Decided(At(h, j), r, log[j], GroupOf(cfg));
      DecidedGrows(At(h, j), At(h', j), GroupOf(cfg));
    }
  }

  lemma {:induction false} GrowsTransitive(h: Hist, h': Hist, h'': Hist)
    requires HistGrows(h, h') && HistGrows(h', h'')
    ensures HistGrows(h, h'')
  {
    forall i ensures Grows(At(h, i), At(h'', i)) && At(h'', i).offers == At(h, i).offers {
      assert Grows(At(h, i), At(h', i)) && Grows(At(h', i), At(h'', i));
      assert At(h', i).offers == At(h, i).offers;
    }
  }
}
