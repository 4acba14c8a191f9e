/** A learner loses no `Learn`: each one that reached it is counted in its instance or waits in its
    buffer, until every member is past the index. */
module PaxosCounting {
  import opened Wrappers
  import opened PaxosTypes
  import opened Sets
  import opened PaxosBallots
  import opened PaxosNode
  import opened PaxosSlots
  import opened PaxosSystem
  import opened PaxosInvariant
  import opened PaxosHandlers

  // ---------------------------------------------------------------------------------------------
  //  One node
  // ---------------------------------------------------------------------------------------------

  /** How many letters of a buffer say that round `r` was accepted. */
  function Waiting(q: seq<Letter>, r: Rnd): nat {
    if q == [] then 0 else Waiting(q[..|q| - 1], r) + if q[|q| - 1].body == Learn(r) then 1 else 0
  }

  lemma {:induction false} WaitingFirst(q: seq<Letter>, r: Rnd)
    requires q != []
    ensures Waiting(q, r) == Waiting(q[1..], r) + if q[0].body == Learn(r) then 1 else 0
  {
    if |q| > 1 {
      WaitingFirst(q[..|q| - 1], r);
      assert q[..|q| - 1][1..] == q[1..][..|q| - 2];
    } else {
      assert q[..0] == [] && q[1..] == [];
    }
  }

  /** The `Learn`s of round `r` at index `i` that the node has counted or buffered. */
  function Backlog(n: Node, i: PLIndex, r: Rnd): nat {
    (if i in n.slots && n.slots[i].instance.Some? then Count(n.slots[i].instance.value, r) else 0)
    + (if i in n.buffered then Waiting(n.buffered[i], r) else 0)
  }

  /** The node knows how far every member is, is not ahead of itself, and keeps no slot that all are past. */
  ghost predicate Ready(n: Node) {
    && n.me in n.nodes && (forall e | e in n.nodes :: e in n.remote) && n.remote[n.me] <= n.nextIndex
    && forall i | i in n.slots :: !AllPast(n, i)
  }

  function One(i: PLIndex, body: Option<PaxosMessage>, j: PLIndex, r: Rnd): nat {
    if j == i && body == Some(Learn(r)) then 1 else 0
  }

  /** From `n` to `n'` no `Learn` was lost, and that of `body`, if it is one, was taken in. */
  ghost predicate Absorbs(n: Node, n': Node, i: PLIndex, body: Option<PaxosMessage>) {
    && SameFrame(n, n') && n'.remote == n.remote && n.nextIndex <= n'.nextIndex && Ready(n')
    && forall j, r | !AllPast(n, j) :: Backlog(n', j, r) >= Backlog(n, j, r) + One(i, body, j, r)
  }

  lemma {:induction false} PastAlike(n: Node, n': Node)
    requires n'.nodes == n.nodes && n'.remote == n.remote
    ensures forall j :: AllPast(n', j) == AllPast(n, j)
  {
  }

  lemma {:induction false} AbsorbsBoth(n: Node, n1: Node, n2: Node, i: PLIndex, body: Option<PaxosMessage>)
    requires Absorbs(n, n1, i, body) && Absorbs(n1, n2, i, None)
    ensures Absorbs(n, n2, i, body)
  {
    hide Ready, Backlog;
    PastAlike(n, n1);
    forall j: PLIndex, r | !AllPast(n, j) ensures Backlog(n2, j, r) >= Backlog(n, j, r) + One(i, body, j, r) {
      assert Backlog(n1, j, r) >= Backlog(n, j, r) + One(i, body, j, r);
      assert Backlog(n2, j, r) >= Backlog(n1, j, r) + One(i, None, j, r);
    }
  }

  /** The same slots and buffers. */
  lemma {:induction false} AbsorbsSame(n: Node, n': Node, i: PLIndex)
    requires Ready(n) && SameFrame(n, n') && n'.remote == n.remote && n.nextIndex <= n'.nextIndex
    requires n'.slots == n.slots && n'.buffered == n.buffered
    ensures Absorbs(n, n', i, None)
  {
    PastAlike(n, n');
    hide AllPast;
  }

  /** One slot replaced by one that counts what the message says. */
  lemma {:induction false} AbsorbsSlot(n: Node, i: PLIndex, s: Slot, body: Option<PaxosMessage>)
    requires Ready(n) && !AllPast(n, i)
    requires forall r :: Backlog(PutSlot(n, i, s), i, r) >= Backlog(n, i, r) + One(i, body, i, r)
    ensures Absorbs(n, PutSlot(n, i, s), i, body)
  {
    PastAlike(n, PutSlot(n, i, s));
    hide AllPast;
  }

  lemma {:induction false} KeptIsReady(n: Node, i: PLIndex)
    requires Ready(n) && MinComplete(n) <= i
    ensures !AllPast(n, i)
  {
    MinOverIsMinimum(n.nodes, n.remote, n.nextIndex);
  }

  lemma {:induction false} ProcessAbsorbs(n: Node, sender: EndpointId, i: PLIndex, body: PaxosMessage)
    requires Ready(n) && MinComplete(n) <= i
    ensures Absorbs(n, Process(n, sender, i, body).node, i, Some(body))
  {
    hide Absorbs, Deliver, AllPast;
    KeptIsReady(n, i);
    var s := SlotWithInstance(n, i);
    var s' := match body
      case Prepare(crnd) => PreparedSlot(s, crnd)
      case Promise(rnd, vote) => if rnd in s.instance.value.proposals then PromisedSlot(s, rnd, vote) else s
      case Accept(crnd, cval) => AcceptedSlot(s, crnd, cval)
      case Learn(vrnd) => LearnedSlot(s, vrnd, Majority(n.nodes));
    AbsorbsSlot(n, i, s', Some(body));
    var n' := PutSlot(n, i, s');
    AbsorbsReady(n, n', i, Some(body));
    AbsorbsSame(n', Deliver(n').node, i);
    AbsorbsBoth(n, n', Deliver(n').node, i, Some(body));
    assert Process(n, sender, i, body).node == n' || Process(n, sender, i, body).node == Deliver(n').node;
  }

  lemma {:induction false} AbsorbsReady(n: Node, n': Node, i: PLIndex, body: Option<PaxosMessage>)
    requires Absorbs(n, n', i, body)
    ensures Ready(n')
  {
  }

  lemma {:induction false} OnMultiAbsorbs(n: Node, sender: EndpointId, i: PLIndex, body: PaxosMessage)
    requires Ready(n)
    ensures Absorbs(n, OnMulti(n, sender, i, body).node, i, Some(body))
  {
    if Ignored(n, sender, body) {
    } else if i < MinComplete(n) {
      MinOverIsMinimum(n.nodes, n.remote, n.nextIndex);
    } else if i > n.nextIndex {
      BufferAbsorbs(n, sender, i, body);
    } else {
      ProcessAbsorbs(n, sender, i, body);
    }
  }

  lemma {:induction false} BufferAbsorbs(n: Node, sender: EndpointId, i: PLIndex, body: PaxosMessage)
    requires Ready(n)
    ensures Absorbs(n, Buffer(n, sender, i, body), i, Some(body))
  {
    var n' := Buffer(n, sender, i, body);
    PastAlike(n, n');
    var letters := if i in n.buffered then n.buffered[i] else [];
    forall r ensures Waiting(n'.buffered[i], r) == Waiting(letters, r) + One(i, Some(body), i, r) {
      var q := n'.buffered[i];
      assert q[..|q| - 1] == letters;
    }
    hide AllPast;
  }

  /** The first buffered letter, taken out and handled. */
  lemma {:induction false} PopAbsorbs(n: Node, i: PLIndex)
    requires Ready(n) && i in n.buffered && n.buffered[i] != []
    ensures var n1 := n.(buffered := n.buffered[i := n.buffered[i][1..]]);
      Absorbs(n, OnMulti(n1, n.buffered[i][0].sender, i, n.buffered[i][0].body).node, i, None)
  {
    var l := n.buffered[i][0];
    var n1 := n.(buffered := n.buffered[i := n.buffered[i][1..]]);
    PastAlike(n, n1);
    var n2 := OnMulti(n1, l.sender, i, l.body).node;
    hide AllPast, OnMulti;
    OnMultiAbsorbs(n1, l.sender, i, l.body);
    forall j: PLIndex, r | !AllPast(n, j) ensures Backlog(n2, j, r) >= Backlog(n, j, r) {
      assert Backlog(n2, j, r) >= Backlog(n1, j, r) + One(i, Some(l.body), j, r);
      WaitingFirst(n.buffered[i], r);
    }
  }

  lemma {:induction false} DropAbsorbs(n: Node, i: PLIndex)
    requires Ready(n) && i in n.buffered && n.buffered[i] == []
    ensures Absorbs(n, n.(buffered := n.buffered - {i}), i, None)
  {
    PastAlike(n, n.(buffered := n.buffered - {i}));
    hide AllPast;
  }

  lemma {:induction false} AbsorbsAnywhere(n: Node, n': Node, i: PLIndex, j: PLIndex)
    requires Absorbs(n, n', i, None)
    ensures Absorbs(n, n', j, None)
  {
    hide AllPast, Ready, Backlog;
    forall k: PLIndex, r | !AllPast(n, k) ensures Backlog(n', k, r) >= Backlog(n, k, r) + One(j, None, k, r) {
      assert Backlog(n', k, r) >= Backlog(n, k, r) + One(i, None, k, r);
    }
  }

  lemma {:induction false} DrainAbsorbs(n: Node, k: PLIndex)
    requires Ready(n)
    ensures Absorbs(n, Drain(n).node, k, None)
    decreases |n.buffered|, if n.buffered == map[] then 0 else |n.buffered[Least(n.buffered.Keys)]|
  {
    hide Absorbs, OnMulti, AllPast, Ready;
    if !Drainable(n) {
      AbsorbsSame(n, n, k);
    } else {
      var i := Least(n.buffered.Keys);
      ghost var n1;
      if n.buffered[i] == [] {
        n1 := n.(buffered := n.buffered - {i});
        DropAbsorbs(n, i);
        DrainDropsKey(n);
      } else {
        var l := n.buffered[i][0];
        n1 := OnMulti(n.(buffered := n.buffered[i := n.buffered[i][1..]]), l.sender, i, l.body).node;
        PopAbsorbs(n, i);
        DrainPopsLetter(n);
      }
      AbsorbsReady(n, n1, i, None);
      AbsorbsAnywhere(n, n1, i, k);
      DrainAbsorbs(n1, k);
      AbsorbsBoth(n, n1, Drain(n1).node, k, None);
    }
  }

  lemma {:induction false} InformAbsorbs(n: Node, sender: EndpointId, should: map<PLIndex, Rnd>, k: PLIndex)
    requires Ready(n)
    ensures Absorbs(n, OnInformLearned(n, sender, should).node, k, None)
    decreases |IndicesAhead(n, should)|
  {
    hide Absorbs, Drain, AllPast, Ready, Deliver, IndicesAhead;
    var n1 := Drain(n).node;
    DrainAbsorbs(n, k);
    AbsorbsReady(n, n1, k, None);
    if CanInform(n1, should) {
      var n2 := LearnInformed(n1, should);
      var d := Deliver(n2);
      FrontIsReady(n1);
      AbsorbsSlot(n1, n1.nextIndex, n2.slots[n1.nextIndex], None);
      AbsorbsReady(n1, n2, n1.nextIndex, None);
      AbsorbsAnywhere(n1, n2, n1.nextIndex, k);
      AbsorbsSame(n2, d.node, k);
      AbsorbsReady(n2, d.node, k, None);
      IndicesAheadMonotone(n, n1, should);
      IndicesAheadShrinks(n1, d.node, should);
      InformAbsorbs(d.node, sender, should, k);
      AbsorbsBoth(n, n1, n2, k, None);
      AbsorbsBoth(n, n2, d.node, k, None);
      AbsorbsBoth(n, d.node, OnInformLearned(d.node, sender, should).node, k, None);
    }
  }

  lemma {:induction false} FrontIsReady(n: Node)
    requires Ready(n)
    ensures forall i | n.nextIndex <= i :: !AllPast(n, i)
  {
  }

  lemma {:induction false} AdoptAbsorbs(n: Node, learned: seq<(PLIndex, Rnd, PLEntry)>, k: PLIndex)
    requires Ready(n)
    ensures Absorbs(n, AdoptAll(n, learned), k, None)
    decreases |learned|
  {
    hide Absorbs, AllPast, Ready;
    if learned == [] {
      AbsorbsSame(n, n, k);
    } else {
      var init, l := learned[..|learned| - 1], learned[|learned| - 1];
      var n1 := AdoptAll(n, init);
      AdoptAbsorbs(n, init, k);
      AbsorbsReady(n, n1, k, None);
      var n2 := AdoptOne(n1, l);
      if n2 == n1 {
        AbsorbsSame(n1, n2, k);
      } else {
        FrontIsReady(n1);
        AbsorbsSlot(n1, l.0, n2.slots[l.0], None);
        AbsorbsAnywhere(n1, n2, l.0, k);
      }
      AbsorbsBoth(n, n1, n2, k, None);
    }
  }

  lemma {:induction false} SyncAbsorbs(n: Node, learned: seq<(PLIndex, Rnd, PLEntry)>, k: PLIndex)
    requires Ready(n)
    ensures Absorbs(n, OnLogSyncResponse(n, learned).node, k, None)
  {
    hide Absorbs, AllPast, Ready, AdoptAll, Deliver, Drain;
    var n1 := AdoptAll(n, learned);
    AdoptAbsorbs(n, learned, k);
    AbsorbsReady(n, n1, k, None);
    var n2 := Deliver(n1).node;
    AbsorbsSame(n1, n2, k);
    AbsorbsReady(n1, n2, k, None);
    DrainAbsorbs(n2, k);
    AbsorbsBoth(n, n1, n2, k, None);
    AbsorbsBoth(n, n2, Drain(n2).node, k, None);
  }

  lemma {:induction false} ProposeAbsorbs(n: Node, entry: PLEntry, rand: nat, k: PLIndex)
    requires Ready(n) && n.increment > 0
    ensures Absorbs(n, Propose(n, entry, rand).node, k, None)
  {
    hide Absorbs, AllPast, NextRound;
    var n' := Propose(n, entry, rand).node;
    FrontIsReady(n);
    AbsorbsSlot(n, n.nextIndex, n'.slots[n.nextIndex], None);
    AbsorbsAnywhere(n, n', n.nextIndex, k);
  }

  /** Nothing is lost that some member may still need. */
  ghost predicate Retained(n: Node, n': Node, i: PLIndex, body: Option<PaxosMessage>) {
    && Ready(n') && (forall j | AllPast(n, j) :: AllPast(n', j))
    && forall j, r | !AllPast(n', j) :: Backlog(n', j, r) >= Backlog(n, j, r) + One(i, body, j, r)
  }

  lemma {:induction false} AbsorbsRetained(n: Node, n': Node, i: PLIndex, body: Option<PaxosMessage>)
    requires Absorbs(n, n', i, body)
    ensures Retained(n, n', i, body)
  {
    PastAlike(n, n');
    hide AllPast, Backlog;
  }

  lemma {:induction false} AckRetains(n: Node, responder: EndpointId, next: PLIndex)
    requires Ready(n) && (responder == n.me ==> next <= n.nextIndex)
    ensures Retained(n, OnNextIndexResponse(n, responder, next).node, 0, None)
  {
    if responder in n.remote {
      var n1 := n.(remote := n.remote[responder := if n.remote[responder] < next then next else n.remote[responder]]);
      var n' := OnNextIndexResponse(n, responder, next).node;
      PastAlike(n1, n');
      AckPast(n, n1);
      hide AllPast, MinComplete;
      forall j | j in n'.slots ensures !AllPast(n', j) { AboveMin(n1, j); }
    }
  }

  /** Where an index goes out of date, everybody is past it. */
  lemma {:induction false} AckPast(n: Node, n1: Node)
    requires Ready(n) && n1.nodes == n.nodes && n1.nextIndex == n.nextIndex && n1.remote.Keys == n.remote.Keys
    requires forall e | e in n.remote :: n.remote[e] <= n1.remote[e]
    ensures forall j | AllPast(n, j) :: AllPast(n1, j)
    ensures forall j: PLIndex | j < MinComplete(n1) :: AllPast(n1, j)
    ensures forall j | j in n.slots :: MinComplete(n) <= j
  {
    MinOverIsMinimum(n.nodes, n.remote, n.nextIndex);
    MinOverIsMinimum(n1.nodes, n1.remote, n1.nextIndex);
  }

  lemma {:induction false} AboveMin(n: Node, i: PLIndex)
    requires n.me in n.nodes && n.me in n.remote && n.remote[n.me] <= n.nextIndex && MinComplete(n) <= i
    ensures !AllPast(n, i)
  {
    MinOverIsMinimum(n.nodes, n.remote, n.nextIndex);
  }

  lemma {:induction false} InternalRetains(n: Node, msg: Message)
    requires Ready(n) && (msg.NextIndexResponse? && msg.responder == n.me ==> msg.nextIndex <= n.nextIndex)
    ensures Retained(n, Internal(n, msg).node, if msg.Multi? then msg.index else 0, if msg.Multi? then Some(msg.body) else None)
  {
    hide Absorbs, Retained, Ready, AllPast, OnMulti, OnInformLearned, OnLogSyncRequest, OnLogSyncResponse, OnNextIndexResponse;
    var n' := Internal(n, msg).node;
    match msg
    case Multi(sender, i, body) =>
      OnMultiAbsorbs(n, sender, i, body);
      AbsorbsRetained(n, n', i, Some(body));
    case IsLeader(lid) =>
      AbsorbsSame(n, n', 0);
      AbsorbsRetained(n, n', 0, None);
    case InformLearned(sender, should) =>
      InformAbsorbs(n, sender, should, 0);
      AbsorbsRetained(n, n', 0, None);
    case LogSyncRequest(sender, next) =>
      assert n' == n by { SyncRequestKeeps(n, sender, next); }
      AbsorbsSame(n, n', 0);
      AbsorbsRetained(n, n', 0, None);
    case LogSyncResponse(learned) =>
      SyncAbsorbs(n, learned, 0);
      AbsorbsRetained(n, n', 0, None);
    case NextIndexRequest(_) =>
      AbsorbsSame(n, n', 0);
      AbsorbsRetained(n, n', 0, None);
    case NextIndexResponse(responder, next) => AckRetains(n, responder, next);
  }

  lemma {:induction false} SyncRequestKeeps(n: Node, sender: EndpointId, next: PLIndex)
    ensures OnLogSyncRequest(n, sender, next).node == n
  {
  }

  lemma {:induction false} HandleRetains(n: Node, msg: Message)
    requires Ready(n) && (msg.NextIndexResponse? && msg.responder == n.me ==> msg.nextIndex <= n.nextIndex)
    ensures Retained(n, Handle(n, msg).node, if msg.Multi? then msg.index else 0, if msg.Multi? then Some(msg.body) else None)
  {
    hide Internal, Drain, Ready, Backlog, AllPast;
    InternalRetains(n, msg);
    var n1 := Internal(n, msg).node;
    DrainAbsorbs(n1, 0);
    var n2 := Drain(n1).node;
    AbsorbsRetained(n1, n2, 0, None);
    var i, body := if msg.Multi? then msg.index else 0, if msg.Multi? then Some(msg.body) else None;
    forall j: PLIndex, r | !AllPast(n2, j) ensures Backlog(n2, j, r) >= Backlog(n, j, r) + One(i, body, j, r) {
      assert Backlog(n1, j, r) >= Backlog(n, j, r) + One(i, body, j, r);
      assert Backlog(n2, j, r) >= Backlog(n1, j, r) + One(0, None, j, r);
    }
  }

  lemma {:induction false} TimerRetains(s: Sys, e: Event, s0: Sys, a: EndpointId, o: Out)
    requires Runs(s, e, s0, a, o) && !e.Receive? && Ready(s.nodes[a])
    ensures s0 == s && Retained(s.nodes[a], o.node, 0, None)
  {
    hide Absorbs, Retained, Ready, Propose, BroadcastInformLearned;
    var n := s.nodes[a];
    match e
    case InsertEvent(_, uuid, payload, rand) =>
      var n1 := if n.leader.eid == n.me && n.nextInsert.None? then n.(nextInsert := Some((uuid, payload))) else n;
      AbsorbsSame(n, n1, 0);
      AbsorbsReady(n, n1, 0, None);
      ProposeAbsorbs(n1, Bundle(payload), rand, 0);
      AbsorbsBoth(n, n1, Propose(n1, Bundle(payload), rand).node, 0, None);
      AbsorbsRetained(n, o.node, 0, None);
    case RetryEvent(_, uuid, rand) =>
      AbsorbsSame(n, n, 0);
      if n.nextInsert.Some? { ProposeAbsorbs(n, Bundle(n.nextInsert.value.1), rand, 0); }
      AbsorbsRetained(n, o.node, 0, None);
    case HeartbeatEvent(_, rand) => HeartbeatRetains(n, rand);
    case NextIndexEvent(_) =>
      AbsorbsSame(n, n, 0);
      AbsorbsRetained(n, n, 0, None);
  }

  lemma {:induction false} HeartbeatRetains(n: Node, rand: nat)
    requires Ready(n) && n.increment > 0
    ensures Retained(n, LeaderHeartbeat(n, rand).node, 0, None)
  {
    hide Absorbs, Retained, Ready, Propose;
    var n1 := if n.leader.eid == n.me then n else n.(heartbeat := n.heartbeat + 1);
    var entry := LeaderChanged(LeadershipId(n1.leader.gen + 1, n1.me));
    var n2 := Propose(n1, entry, rand).node;
    AbsorbsSame(n, n1, 0);
    AbsorbsReady(n, n1, 0, None);
    ProposeAbsorbs(n1, entry, rand, 0);
    AbsorbsBoth(n, n1, n2, 0, None);
    var n' := LeaderHeartbeat(n, rand).node;
    assert n' == n1 || n' == n2;
    AbsorbsRetained(n, n', 0, None);
  }

  // ---------------------------------------------------------------------------------------------
  //  The whole group
  // ---------------------------------------------------------------------------------------------

  /** The members whose `Learn` of round `r` at index `i` has reached node `a`. */
  ghost function Reached(cfg: Config, wires: Wires, a: EndpointId, i: PLIndex, r: Rnd): set<EndpointId> {
    set e | e in Senders(cfg.members) && Arrived(wires, a, i, Letter(e, Learn(r)))
  }

  ghost predicate Tallied(cfg: Config, wires: Wires, a: EndpointId, n: Node) {
    Ready(n) && forall i, r | !AllPast(n, i) :: Backlog(n, i, r) >= |Reached(cfg, wires, a, i, r)|
  }

  ghost predicate AllTallied(cfg: Config, s: Sys) {
    forall a | a in s.nodes :: Tallied(cfg, s.wires, a, s.nodes[a])
  }

  ghost predicate Bounded(wires: Wires) {
    forall k | k in wires :: wires[k].recv <= |wires[k].sent|
  }

  /** Sending does not make anything arrive. */
  lemma {:induction false} PostArrives(wires: Wires, a: EndpointId, sends: seq<Send>, b: EndpointId, i: PLIndex, l: Letter)
    requires Bounded(wires)
    ensures Bounded(Post(wires, a, sends)) && (Arrived(Post(wires, a, sends), b, i, l) ==> Arrived(wires, b, i, l))
  {
    if sends != [] {
      PostArrives(wires, a, sends[..|sends| - 1], b, i, l);
      PostOneArrives(Post(wires, a, sends[..|sends| - 1]), a, sends[|sends| - 1], b, i, l);
    }
  }

  lemma {:induction false} PostOneArrives(wires: Wires, a: EndpointId, send: Send, b: EndpointId, i: PLIndex, l: Letter)
    requires Bounded(wires)
    ensures Bounded(PostOne(wires, a, send)) && (Arrived(PostOne(wires, a, send), b, i, l) ==> Arrived(wires, b, i, l))
  {
    var wires' := PostOne(wires, a, send);
    if Arrived(wires', b, i, l) {
      var c, c' := wires[(l.sender, b)], wires'[(l.sender, b)];
      assert c'.sent[..c'.recv] == c.sent[..c.recv];
    }
  }

  lemma {:induction false} RecvArrives(s: Sys, p: EndpointId, q: EndpointId, b: EndpointId, i: PLIndex, l: Letter)
    requires (p, q) in s.wires && s.wires[(p, q)].recv < |s.wires[(p, q)].sent| && Arrived(PaxosSystem.Received(s, p, q).wires, b, i, l)
    ensures Arrived(s.wires, b, i, l) || (l.sender == p && b == q && s.wires[(p, q)].sent[s.wires[(p, q)].recv] == Multi(p, i, l.body))
  {
    var c := s.wires[(p, q)];
    if l.sender == p && b == q {
      assert c.sent[..c.recv + 1] == c.sent[..c.recv] + [c.sent[c.recv]];
    }
  }

  lemma {:induction false} WiresBounded(cfg: Config, s: Sys, h: Hist)
    requires Inv(cfg, s, h)
    ensures Bounded(s.wires)
  {
    hide Inv;
    forall k | k in s.wires ensures s.wires[k].recv <= |s.wires[k].sent| {
      var (p, q) := k;
      WireMarks(cfg, s, h, p, q);
    }
  }

  /** What arrives with an event at node `a`. */
  lemma {:induction false} NewArrivals(cfg: Config, s: Sys, h: Hist, e: Event, s0: Sys, a: EndpointId, o: Out, b: EndpointId, i: PLIndex, r: Rnd)
    requires Inv(cfg, s, h) && Runs(s, e, s0, a, o) && a in s0.logs
    ensures var before, after := Reached(cfg, s.wires, b, i, r), Reached(cfg, Apply(s0, a, o).wires, b, i, r);
      |after| <= |before| + if e.Receive? && a == b && Body(s, e, i) == Some(Learn(r)) then 1 else 0
  {
    hide Inv, Handle, InsertBundle, RetryInsert, LeaderHeartbeat, Arrived, Bounded, Senders;
    WiresBounded(cfg, s, h);
    var before, after := Reached(cfg, s.wires, b, i, r), Reached(cfg, Apply(s0, a, o).wires, b, i, r);
    RecvBounded(s, e, s0, a, o);
    forall p | p in after ensures p in before || (e.Receive? && a == b && p == e.sender && Body(s, e, i) == Some(Learn(r))) {
      PostArrives(s0.wires, a, o.sends, b, i, Letter(p, Learn(r)));
      if e.Receive? { RecvArrives(s, e.sender, a, b, i, Letter(p, Learn(r))); }
    }
    if e.Receive? && a == b && Body(s, e, i) == Some(Learn(r)) {
      SubsetSize(after, before + {e.sender});
    } else {
      SubsetSize(after, before);
    }
  }

  /** The Paxos message at index `i` that an event delivers. */
  function Body(s: Sys, e: Event, i: PLIndex): Option<PaxosMessage> {
    if e.Receive? && (e.sender, e.to) in s.wires && s.wires[(e.sender, e.to)].recv < |s.wires[(e.sender, e.to)].sent| then
      var msg := s.wires[(e.sender, e.to)].sent[s.wires[(e.sender, e.to)].recv];
      if msg.Multi? && msg.index == i then Some(msg.body) else None
    else None
  }

  lemma {:induction false} RecvBounded(s: Sys, e: Event, s0: Sys, a: EndpointId, o: Out)
    requires Runs(s, e, s0, a, o) && Bounded(s.wires)
    ensures Bounded(s0.wires)
  {
    hide Handle, InsertBundle, RetryInsert, LeaderHeartbeat;
  }

  /** The node of an event takes in what the event delivers. */
  lemma {:induction false} EventRetains(cfg: Config, s: Sys, h: Hist, e: Event, s0: Sys, a: EndpointId, o: Out, i: PLIndex, r: Rnd)
    requires Inv(cfg, s, h) && Runs(s, e, s0, a, o) && Ready(s.nodes[a])
    ensures Ready(o.node) && (forall j | AllPast(s.nodes[a], j) :: AllPast(o.node, j))
    ensures !AllPast(o.node, i) ==>
      Backlog(o.node, i, r) >= Backlog(s.nodes[a], i, r) + if e.Receive? && Body(s, e, i) == Some(Learn(r)) then 1 else 0
  {
    hide Inv, Handle, InsertBundle, RetryInsert, LeaderHeartbeat, Ready, AllPast, Backlog;
    if e.Receive? {
      var msg := s.wires[(e.sender, a)].sent[s.wires[(e.sender, a)].recv];
      OwnMark(cfg, s, h, e.sender, a);
      HandleRetains(s.nodes[a], msg);
    } else {
      TimerRetains(s, e, s0, a, o);
    }
  }

  /** A node never hears from itself of an index beyond its own. */
  lemma {:induction false} OwnMark(cfg: Config, s: Sys, h: Hist, p: EndpointId, a: EndpointId)
    requires Inv(cfg, s, h) && a in s.nodes && (p, a) in s.wires && s.wires[(p, a)].recv < |s.wires[(p, a)].sent|
    ensures var msg := s.wires[(p, a)].sent[s.wires[(p, a)].recv];
      msg.NextIndexResponse? && msg.responder == s.nodes[a].me ==> msg.nextIndex <= s.nodes[a].nextIndex
  {
    hide Inv;
    MarkSender(cfg, s, h, p, a);
    WireMarks(cfg, s, h, p, a);
  }

  lemma {:induction false} MarkSender(cfg: Config, s: Sys, h: Hist, p: EndpointId, a: EndpointId)
    requires Inv(cfg, s, h) && (p, a) in s.wires && s.wires[(p, a)].recv < |s.wires[(p, a)].sent|
    ensures var msg := s.wires[(p, a)].sent[s.wires[(p, a)].recv]; msg.NextIndexResponse? ==> msg.responder == p
  {
    hide SlotsOK, ReceivedOK, OffersOK, NodesOK, BallotsOK, Shape, SyncOK;
    assert WireOK(cfg, h, p, a, s.wires[(p, a)].sent);
  }

  lemma {:induction false} WireMarks(cfg: Config, s: Sys, h: Hist, p: EndpointId, a: EndpointId)
    requires Inv(cfg, s, h) && (p, a) in s.wires
    ensures p in s.nodes && a in s.nodes && p in s.nodes[a].remote && s.nodes[a].me == a && p in Senders(cfg.members)
    ensures MarksOK(s.wires[(p, a)], s.nodes[a].remote[p], s.nodes[p].nextIndex)
  {
    hide SlotsOK, ReceivedOK, OffersOK, NodesOK, BallotsOK, WiresOK, Senders, MarksOK;
    assert NodeShape(cfg, a, s.nodes[a]);
  }

  lemma {:induction false} EventTallies(cfg: Config, s: Sys, h: Hist, e: Event, s0: Sys, a: EndpointId, o: Out)
    requires Inv(cfg, s, h) && Runs(s, e, s0, a, o) && a in s0.logs && AllTallied(cfg, s)
    ensures AllTallied(cfg, Apply(s0, a, o))
  {
    hide Inv, Handle, InsertBundle, RetryInsert, LeaderHeartbeat, Ready, AllPast, Backlog, Reached, Post, Body;
    var s' := Apply(s0, a, o);
    assert s0.nodes == s.nodes;
    assert Tallied(cfg, s.wires, a, s.nodes[a]);
    EventRetains(cfg, s, h, e, s0, a, o, 0, 0);
    forall b | b in s'.nodes ensures Tallied(cfg, s'.wires, b, s'.nodes[b]) {
      assert Tallied(cfg, s.wires, b, s.nodes[b]);
      forall i: PLIndex, r: Rnd | !AllPast(s'.nodes[b], i) ensures Backlog(s'.nodes[b], i, r) >= |Reached(cfg, s'.wires, b, i, r)| {
        NewArrivals(cfg, s, h, e, s0, a, o, b, i, r);
        EventRetains(cfg, s, h, e, s0, a, o, i, r);
        assert !AllPast(s.nodes[b], i);
        assert Backlog(s.nodes[b], i, r) >= |Reached(cfg, s.wires, b, i, r)|;
      }
    }
  }

  lemma {:induction false} InitialTallies(cfg: Config)
    requires cfg.Valid()
    ensures AllTallied(cfg, InitialSys(cfg))
  {
    var s := InitialSys(cfg);
    forall a | a in s.nodes ensures Tallied(cfg, s.wires, a, s.nodes[a]) {
      var n := s.nodes[a];
      assert Ready(n);
      forall i: PLIndex, r: Rnd ensures Reached(cfg, s.wires, a, i, r) == {} {
      }
    }
  }

  // ---------------------------------------------------------------------------------------------
  //  Exactly who is counted
  // ---------------------------------------------------------------------------------------------

  /** The members whose `Learn` of round `r` waits in a buffer. */
  ghost function Queued(q: seq<Letter>, r: Rnd): (senders: set<EndpointId>)
    ensures forall e :: e in senders <==> Letter(e, Learn(r)) in q
  {
    set l | l in q && l.body == Learn(r) :: l.sender
  }

  lemma {:induction false} WaitingIsQueued(q: seq<Letter>, r: Rnd)
    requires forall j, k | 0 <= j < k < |q| && !q[j].body.Prepare? :: q[j] != q[k]
    ensures Waiting(q, r) == |Queued(q, r)|
  {
    if q == [] {
      assert Queued(q, r) == {};
    } else {
      var init, l := q[..|q| - 1], q[|q| - 1];
      assert q == init + [l];
      WaitingIsQueued(init, r);
      forall k | 0 <= k < |init| && !init[k].body.Prepare? ensures init[k] != l { assert q[k] == init[k]; }
      QueuedMore(init, l, r);
    }
  }

  lemma {:induction false} QueuedMore(init: seq<Letter>, l: Letter, r: Rnd)
    requires !l.body.Prepare? ==> l !in init
    ensures |Queued(init + [l], r)| == |Queued(init, r)| + if l.body == Learn(r) then 1 else 0
  {
    var q := init + [l];
    assert forall x :: x in q <==> x in init || x == l;
    if l.body == Learn(r) {
      assert Queued(q, r) == Queued(init, r) + {l.sender};
    } else {
      assert Queued(q, r) == Queued(init, r);
    }
  }

  /** The buffer of a node at an index. */
  function BufferAt(n: Node, i: PLIndex): seq<Letter> {
    if i in n.buffered then n.buffered[i] else []
  }

  /** Who was heard is who was reached, without those that still wait. */
  lemma {:induction false} HeardExactly(cfg: Config, s: Sys, h: Hist, a: EndpointId, i: PLIndex, r: Rnd)
    requires Inv(cfg, s, h) && a in s.nodes && AllTallied(cfg, s)
    requires i in s.nodes[a].slots && s.nodes[a].slots[i].instance.Some?
    ensures var heard := Heard(AuxAt(h, a, i), r, GroupOf(cfg));
      && |heard| == Count(s.nodes[a].slots[i].instance.value, r)
      && heard == Reached(cfg, s.wires, a, i, r) - Queued(BufferAt(s.nodes[a], i), r)
  {
    hide Inv, SlotOK, Good, Arrived, Ready, AllPast;
    var n, x := s.nodes[a], AuxAt(h, a, i);
    var heard, reached, queued := Heard(x, r, GroupOf(cfg)), Reached(cfg, s.wires, a, i, r), Queued(BufferAt(n, i), r);
    InvSlot(cfg, s, h, a, i);
    CountIsHeard(At(h, i), a, AllPast(n, i), n.slots[i], x, GroupOf(cfg), r);
    LettersAreOne(cfg, s, h, a, i, r);
    WaitingIsQueued(BufferAt(n, i), r);
    assert Tallied(cfg, s.wires, a, n);
    assert !AllPast(n, i) by { ReadySlotLives(n, i); }
    assert |heard + queued| == |heard| + |queued|;
    assert Backlog(n, i, r) == |heard| + |queued|;
    SubsetIsAll(heard + queued, reached);
  }

  lemma {:induction false} ReadySlotLives(n: Node, i: PLIndex)
    requires Ready(n) && i in n.slots
    ensures !AllPast(n, i)
  {
  }

  lemma {:induction false} SubsetIsAll<T>(a: set<T>, b: set<T>)
    requires a <= b && |b| <= |a|
    ensures a == b
  {
    SubsetSize(b - a, b);
    assert |b| == |a| + |b - a| by { assert b == a + (b - a); }
  }

  lemma {:induction false} CountIsHeard(b: Ballots, a: EndpointId, purged: bool, slot: Slot, x: Aux, g: Group, r: Rnd)
    requires SlotOK(b, a, purged, Some(slot), x, g) && slot.instance.Some?
    ensures |Heard(x, r, g)| == Count(slot.instance.value, r)
  {
    hide AcceptorOK, ProposerOK;
    assert LearnerOK(b, slot.instance.value, x, g);
    assert Count(slot.instance.value, r) == |Heard(x, r, g)|;
  }

  /** A `Learn` is heard or waits, not both, and only once it has arrived. */
  lemma {:induction false} LettersAreOne(cfg: Config, s: Sys, h: Hist, a: EndpointId, i: PLIndex, r: Rnd)
    requires Inv(cfg, s, h) && a in s.nodes
    ensures var heard, queued := Heard(AuxAt(h, a, i), r, GroupOf(cfg)), Queued(BufferAt(s.nodes[a], i), r);
      heard !! queued && heard + queued <= Reached(cfg, s.wires, a, i, r)
    ensures var q := BufferAt(s.nodes[a], i); forall j, k | 0 <= j < k < |q| && !q[j].body.Prepare? :: q[j] != q[k]
  {
    hide Inv, Arrived;
    var q, x := BufferAt(s.nodes[a], i), AuxAt(h, a, i);
    InvReceived(cfg, s, h, a, i);
    forall k | 0 <= k < |q| && q[k].body == Learn(r)
      ensures Arrived(s.wires, a, i, Letter(q[k].sender, Learn(r))) && q[k].sender in Senders(cfg.members) && Letter(q[k].sender, Learn(r)) !in x.seen
    {
      assert q[k] == Letter(q[k].sender, Learn(r));
      ArrivedFrom(cfg, s, h, a, i, q[k]);
    }
  }

  lemma {:induction false} InvReceived(cfg: Config, s: Sys, h: Hist, a: EndpointId, i: PLIndex)
    requires Inv(cfg, s, h) && a in s.nodes
    ensures SeenOK(s.wires, a, i, AuxAt(h, a, i)) && QueueOK(s.wires, a, i, BufferAt(s.nodes[a], i), AuxAt(h, a, i))
  {
    hide SlotsOK, OffersOK, NodesOK, BallotsOK, SyncOK, WiresOK, Shape, SeenOK;
  }

  lemma {:induction false} ArrivedFrom(cfg: Config, s: Sys, h: Hist, a: EndpointId, i: PLIndex, l: Letter)
    requires Inv(cfg, s, h) && Arrived(s.wires, a, i, l)
    ensures l.sender in Senders(cfg.members)
  {
    hide Inv;
    WireMarks(cfg, s, h, l.sender, a);
  }
}
