/** What each handler of `PaxosDriver` does, as a function of the node's state. The class
    `PaxosDriver` is proved to compute these functions; the protocol is proved about them. */
module PaxosNode {
  import opened Wrappers
  import opened PaxosTypes
  import opened Sets

  function Quiet(n: Node): Out {
    Out(n, [], [], true)
  }

  function Then(o: Out, p: Out): Out {
    Out(p.node, o.sends + p.sends, o.learned + p.learned, o.ok && p.ok)
  }

  lemma {:induction false} ThenAppends(sends: seq<Send>, learned: seq<PLEntry>, n: Node, s: seq<Send>, l: seq<PLEntry>, rest: Out)
    ensures forall n0 :: Then(Out(n0, sends, learned, true), Then(Out(n, s, l, true), rest))
                      == Then(Out(n, sends + s, learned + l, true), rest)
  {
    assert sends + (s + rest.sends) == sends + s + rest.sends;
    assert learned + (l + rest.learned) == learned + l + rest.learned;
  }

  function Broadcast(nodes: seq<EndpointId>, msg: Message): (sends: seq<Send>) {
    seq(|nodes|, k requires 0 <= k < |nodes| => Send(nodes[k], msg))
  }

  /** A node of the initial group. Every member starts from the same leadership. */
  function InitialNode(me: EndpointId, nodes: seq<EndpointId>, threshold: nat, increment: nat): Node
    requires nodes != []
  {
    Node(me, nodes, threshold, increment, map e | e in nodes :: 0, 0, map[], map[],
         LeadershipId(0, nodes[0]), 0, None)
  }

  /** The parts of a node that no handler touches. */
  ghost predicate SameFrame(n: Node, n': Node) {
    n'.me == n.me && n'.nodes == n.nodes && n'.threshold == n.threshold && n'.increment == n.increment
  }

  /** A pending insertion is dropped as soon as the log grows. */
  ghost predicate Pinned(n: Node, n': Node) {
    n'.nextInsert == None || (n'.nextInsert == n.nextInsert && n'.nextIndex == n.nextIndex)
  }

  // ---------------------------------------------------------------------------------------------
  //  Which indices are still kept
  // ---------------------------------------------------------------------------------------------

  function MinOver(eids: seq<EndpointId>, remote: map<EndpointId, PLIndex>, bound: PLIndex): PLIndex {
    if eids == [] then bound
    else
      var rest := MinOver(eids[1..], remote, bound);
      if eids[0] in remote && remote[eids[0]] < rest then remote[eids[0]] else rest
  }

  /** No node needs an index below this one any more. */
  function MinComplete(n: Node): PLIndex {
    MinOver(n.nodes, n.remote, n.nextIndex)
  }

  lemma {:induction false} MinOverIsMinimum(eids: seq<EndpointId>, remote: map<EndpointId, PLIndex>, bound: PLIndex)
    ensures MinOver(eids, remote, bound) <= bound
    ensures forall e | e in eids && e in remote :: MinOver(eids, remote, bound) <= remote[e]
    ensures MinOver(eids, remote, bound) == bound
         || exists e | e in eids && e in remote :: MinOver(eids, remote, bound) == remote[e]
  {
    if eids != [] {
      MinOverIsMinimum(eids[1..], remote, bound);
      assert forall e :: e in eids <==> e == eids[0] || e in eids[1..];
    }
  }

  // ---------------------------------------------------------------------------------------------
  //  Instances and delivery
  // ---------------------------------------------------------------------------------------------

  /** The slot at `i` once it holds an instance. */
  function SlotWithInstance(n: Node, i: PLIndex): (s: Slot)
    ensures s.instance.Some?
  {
    if i in n.slots then
      if n.slots[i].instance.Some? then n.slots[i] else n.slots[i].(instance := Some(NEW_INSTANCE))
    else Slot(Some(NEW_INSTANCE), None)
  }

  function PutSlot(n: Node, i: PLIndex, s: Slot): Node {
    n.(slots := n.slots[i := s])
  }

  predicate Deliverable(n: Node) {
    n.nextIndex in n.slots && n.slots[n.nextIndex].learned.Some?
  }

  function NextLeader(leader: LeadershipId, entry: PLEntry): LeadershipId {
    if entry.LeaderChanged? then entry.lid else leader
  }

  /** Appends the entry learned at `nextIndex` to the log. */
  function DeliverOne(n: Node): Node
    requires Deliverable(n)
  {
    var entry := n.slots[n.nextIndex].learned.value.1;
    n.(nextIndex := n.nextIndex + 1,
       leader := NextLeader(n.leader, entry),
       heartbeat := if entry.LeaderChanged? then 0 else n.heartbeat,
       nextInsert := None)
  }

  ghost function SlotsAhead(n: Node): set<PLIndex> {
    set i | i in n.slots && n.nextIndex <= i
  }

  lemma {:induction false} DeliverOneShrinks(n: Node)
    requires Deliverable(n)
    ensures |SlotsAhead(DeliverOne(n))| < |SlotsAhead(n)|
  {
    assert SlotsAhead(DeliverOne(n)) == SlotsAhead(n) - {n.nextIndex};
  }

  /** Appends learned entries for as long as there is one at `nextIndex`. */
  ghost function Deliver(n: Node): (o: Out)
    ensures SameFrame(n, o.node) && o.node.remote == n.remote && o.node.buffered == n.buffered
    ensures o.node.slots == n.slots && n.nextIndex <= o.node.nextIndex
    ensures !Deliverable(o.node) && (Deliverable(n) ==> n.nextIndex < o.node.nextIndex)
    ensures o.ok && o.sends == [] && Pinned(n, o.node)
    decreases |SlotsAhead(n)|
  {
    if Deliverable(n) then
      DeliverOneShrinks(n);
      Then(Out(DeliverOne(n), [], [n.slots[n.nextIndex].learned.value.1], true), Deliver(DeliverOne(n)))
    else Quiet(n)
  }

  ghost function Lag(n: Node): nat {
    |SlotsAhead(n)|
  }

  lemma {:induction false} DeliverNext(n: Node) returns (n': Node)
    requires Deliverable(n)
    ensures n' == DeliverOne(n) && Lag(n') < Lag(n)
    ensures Deliver(n).node == Deliver(n').node
    ensures Deliver(n).learned == [n.slots[n.nextIndex].learned.value.1] + Deliver(n').learned
  {
    n' := DeliverOne(n);
    DeliverOneShrinks(n);
  }

  // ---------------------------------------------------------------------------------------------
  //  Paxos messages
  // ---------------------------------------------------------------------------------------------

  /** The promise with the highest round wins; the earlier one on a tie. */
  function BestVote(promises: seq<Vote>): (best: Vote) {
    if promises == [] then None
    else
      var last := promises[|promises| - 1];
      var best := BestVote(promises[..|promises| - 1]);
      if last.Some? && (best.None? || last.value.0 > best.value.0) then last else best
  }

  function PreparedSlot(s: Slot, crnd: Rnd): Slot
    requires s.instance.Some?
  {
    if crnd > s.instance.value.rnd then s.(instance := Some(s.instance.value.(rnd := crnd))) else s
  }

  function OnPrepare(n: Node, i: PLIndex, s: Slot, sender: EndpointId, crnd: Rnd): (o: Out)
    requires s.instance.Some?
    ensures SameFrame(n, o.node) && o.node.remote == n.remote && o.node.buffered == n.buffered
    ensures n.nextIndex <= o.node.nextIndex && Pinned(n, o.node)
  {
    var n' := PutSlot(n, i, PreparedSlot(s, crnd));
    if crnd > s.instance.value.rnd then
      Out(n', [Send(sender, Multi(n.me, i, Promise(crnd, s.instance.value.vote)))], [], true)
    else Quiet(n')
  }

  function PromisedSlot(s: Slot, rnd: Rnd, vote: Vote): Slot
    requires s.instance.Some? && rnd in s.instance.value.proposals
  {
    var inst := s.instance.value;
    var p := inst.proposals[rnd];
    s.(instance := Some(inst.(proposals := inst.proposals[rnd := p.(promises := p.promises + [vote])])))
  }

  /** The value an `Accept` carries, once enough promises are in. */
  function ValueToAccept(p: Proposal): PLEntry {
    var best := BestVote(p.promises);
    if best.Some? then best.value.1 else p.cval
  }

  function OnPromise(n: Node, i: PLIndex, s: Slot, rnd: Rnd, vote: Vote): (o: Out)
    requires s.instance.Some?
    ensures SameFrame(n, o.node) && o.node.remote == n.remote && o.node.buffered == n.buffered
    ensures n.nextIndex <= o.node.nextIndex && Pinned(n, o.node)
  {
    if rnd !in s.instance.value.proposals then Quiet(PutSlot(n, i, s)).(ok := false)
    else
      var s' := PromisedSlot(s, rnd, vote);
      var n' := PutSlot(n, i, s');
      var p := s'.instance.value.proposals[rnd];
      if |p.promises| == Majority(n.nodes) then
        Out(n', Broadcast(n.nodes, Multi(n.me, i, Accept(p.crnd, ValueToAccept(p)))), [], true)
      else Quiet(n')
  }

  function AcceptedSlot(s: Slot, crnd: Rnd, cval: PLEntry): Slot
    requires s.instance.Some?
  {
    var inst := s.instance.value;
    if crnd >= inst.rnd then
      Slot(Some(inst.(rnd := crnd, vote := Some((crnd, cval)))),
           if s.learned.None? && inst.learnedVrnd.Some? && inst.learnedVrnd.value <= crnd
           then Some((inst.learnedVrnd.value, cval)) else s.learned)
    else s
  }

  ghost function OnAccept(n: Node, i: PLIndex, s: Slot, crnd: Rnd, cval: PLEntry): (o: Out)
    requires s.instance.Some?
    ensures SameFrame(n, o.node) && o.node.remote == n.remote && o.node.buffered == n.buffered
    ensures n.nextIndex <= o.node.nextIndex && Pinned(n, o.node)
  {
    var s' := AcceptedSlot(s, crnd, cval);
    var n' := PutSlot(n, i, s');
    if crnd >= s.instance.value.rnd then
      var sends := Broadcast(n.nodes, Multi(n.me, i, Learn(crnd)));
      if s.learned.None? && s'.learned.Some? then Then(Out(n', sends, [], true), Deliver(n'))
      else Out(n', sends, [], true)
    else Quiet(n')
  }

  function CountLearn(inst: Instance, vrnd: Rnd, majority: nat): Instance {
    var count := (if vrnd in inst.learned then inst.learned[vrnd] else 0) + 1;
    inst.(learned := inst.learned[vrnd := count],
          learnedVrnd := if count == majority && (inst.learnedVrnd.None? || vrnd < inst.learnedVrnd.value)
                         then Some(vrnd) else inst.learnedVrnd)
  }

  function LearnedSlot(s: Slot, vrnd: Rnd, majority: nat): Slot
    requires s.instance.Some?
  {
    var inst := CountLearn(s.instance.value, vrnd, majority);
    Slot(Some(inst),
         if inst.learned[vrnd] == majority && s.learned.None? && inst.vote.Some?
            && inst.learnedVrnd.Some? && inst.learnedVrnd.value <= inst.vote.value.0
         then Some((inst.learnedVrnd.value, inst.vote.value.1)) else s.learned)
  }

  ghost function OnLearn(n: Node, i: PLIndex, s: Slot, vrnd: Rnd): (o: Out)
    requires s.instance.Some?
    ensures SameFrame(n, o.node) && o.node.remote == n.remote && o.node.buffered == n.buffered
    ensures n.nextIndex <= o.node.nextIndex && Pinned(n, o.node)
  {
    var s' := LearnedSlot(s, vrnd, Majority(n.nodes));
    var n' := PutSlot(n, i, s');
    if s.learned.None? && s'.learned.Some? then Deliver(n') else Quiet(n')
  }

  /** Processes a Paxos message whose index is neither purged nor ahead of `nextIndex`. */
  ghost function Process(n: Node, sender: EndpointId, i: PLIndex, body: PaxosMessage): (o: Out)
    ensures SameFrame(n, o.node) && o.node.remote == n.remote && o.node.buffered == n.buffered
    ensures n.nextIndex <= o.node.nextIndex && Pinned(n, o.node)
  {
    var s := SlotWithInstance(n, i);
    match body
    case Prepare(crnd) => OnPrepare(n, i, s, sender, crnd)
    case Promise(rnd, vote) => OnPromise(n, i, s, rnd, vote)
    case Accept(crnd, cval) => OnAccept(n, i, s, crnd, cval)
    case Learn(vrnd) => OnLearn(n, i, s, vrnd)
  }

  /** A `Prepare` of a rival is ignored while the leader still seems alive. */
  predicate Ignored(n: Node, sender: EndpointId, body: PaxosMessage) {
    body.Prepare? && sender != n.leader.eid && n.heartbeat <= n.threshold
  }

  function Buffer(n: Node, sender: EndpointId, i: PLIndex, body: PaxosMessage): Node {
    var letters := if i in n.buffered then n.buffered[i] else [];
    n.(buffered := n.buffered[i := letters + [Letter(sender, body)]])
  }

  ghost function OnMulti(n: Node, sender: EndpointId, i: PLIndex, body: PaxosMessage): (o: Out)
    ensures SameFrame(n, o.node) && o.node.remote == n.remote && n.nextIndex <= o.node.nextIndex
    ensures (i <= n.nextIndex ==> o.node.buffered == n.buffered) && Pinned(n, o.node)
  {
    if Ignored(n, sender, body) then Quiet(n)
    else if i < MinComplete(n) then Quiet(n)
    else if i > n.nextIndex then Quiet(Buffer(n, sender, i, body))
    else Process(n, sender, i, body)
  }

  // ---------------------------------------------------------------------------------------------
  //  Draining the buffer
  // ---------------------------------------------------------------------------------------------

  /** Some buffered index is no longer ahead of `nextIndex`. */
  ghost predicate Drainable(n: Node) {
    n.buffered != map[] && Least(n.buffered.Keys) <= n.nextIndex
  }

  /** Processes buffered messages, lowest index first, until all that are left lie ahead. */
  ghost function Drain(n: Node): (o: Out)
    ensures SameFrame(n, o.node) && o.node.remote == n.remote && n.nextIndex <= o.node.nextIndex
    ensures !Drainable(o.node) && Pinned(n, o.node)
    decreases |n.buffered|, if n.buffered == map[] then 0 else |n.buffered[Least(n.buffered.Keys)]|
  {
    if !Drainable(n) then Quiet(n)
    else
      var i := Least(n.buffered.Keys);
      if n.buffered[i] == [] then
        var n1 := n.(buffered := n.buffered - {i});
        assert n1.buffered.Keys == n.buffered.Keys - {i};
        Drain(n1)
      else
        var letter := n.buffered[i][0];
        var n1 := n.(buffered := n.buffered[i := n.buffered[i][1..]]);
        assert n1.buffered.Keys == n.buffered.Keys;
        var o := OnMulti(n1, letter.sender, i, letter.body);
        Then(o, Drain(o.node))
  }

  /** `n` has less to drain than `n0`. */
  ghost predicate DrainRank(n: Node, n0: Node) {
    && n0.buffered != map[]
    && (|n.buffered| < |n0.buffered|
        || (|n.buffered| == |n0.buffered| && n.buffered != map[]
            && |n.buffered[Least(n.buffered.Keys)]| < |n0.buffered[Least(n0.buffered.Keys)]|))
  }

  lemma {:induction false} DrainDropsKey(n: Node)
    requires Drainable(n) && n.buffered[Least(n.buffered.Keys)] == []
    ensures var n1 := n.(buffered := n.buffered - {Least(n.buffered.Keys)});
            Drain(n) == Then(Quiet(n1), Drain(n1)) && DrainRank(n1, n)
  {
    var n1 := n.(buffered := n.buffered - {Least(n.buffered.Keys)});
    assert n1.buffered.Keys == n.buffered.Keys - {Least(n.buffered.Keys)};
    var d := Drain(n1);
    assert [] + d.sends == d.sends && [] + d.learned == d.learned;
  }

  lemma {:induction false} DrainPopsLetter(n: Node)
    requires Drainable(n) && n.buffered[Least(n.buffered.Keys)] != []
    ensures var i := Least(n.buffered.Keys);
            var n1 := n.(buffered := n.buffered[i := n.buffered[i][1..]]);
            var o := OnMulti(n1, n.buffered[i][0].sender, i, n.buffered[i][0].body);
            Drain(n) == Then(o, Drain(o.node)) && DrainRank(o.node, n)
  {
    var i := Least(n.buffered.Keys);
    UpdateKeys(n.buffered, i, n.buffered[i][1..]);
  }

  // ---------------------------------------------------------------------------------------------
  //  Catching up
  // ---------------------------------------------------------------------------------------------

  /** `learned` says round `rnd` was accepted by a majority at `nextIndex`, and this node has
      accepted a value there in that round or a later one. */
  predicate CanInform(n: Node, should: map<PLIndex, Rnd>) {
    n.nextIndex in should && n.nextIndex in n.slots && n.slots[n.nextIndex].instance.Some?
    && n.slots[n.nextIndex].instance.value.vote.Some?
    && should[n.nextIndex] <= n.slots[n.nextIndex].instance.value.vote.value.0
  }

  function LearnInformed(n: Node, should: map<PLIndex, Rnd>): Node
    requires CanInform(n, should)
  {
    var s := n.slots[n.nextIndex];
    PutSlot(n, n.nextIndex, s.(learned := Some((should[n.nextIndex], s.instance.value.vote.value.1))))
  }

  ghost function IndicesAhead(n: Node, should: map<PLIndex, Rnd>): set<PLIndex> {
    set i | i in should && n.nextIndex <= i
  }

  lemma {:induction false} IndicesAheadShrinks(n: Node, n': Node, should: map<PLIndex, Rnd>)
    requires n.nextIndex in should && n.nextIndex < n'.nextIndex
    ensures |IndicesAhead(n', should)| < |IndicesAhead(n, should)|
  {
    assert n.nextIndex in IndicesAhead(n, should) && n.nextIndex !in IndicesAhead(n', should);
    SubsetSize(IndicesAhead(n', should), IndicesAhead(n, should));
  }

  lemma {:induction false} IndicesAheadMonotone(n: Node, n': Node, should: map<PLIndex, Rnd>)
    requires n.nextIndex <= n'.nextIndex
    ensures |IndicesAhead(n', should)| <= |IndicesAhead(n, should)|
  {
    SubsetSize(IndicesAhead(n', should), IndicesAhead(n, should));
  }

  ghost function OnInformLearned(n: Node, sender: EndpointId, should: map<PLIndex, Rnd>): (o: Out)
    ensures SameFrame(n, o.node) && o.node.remote == n.remote && n.nextIndex <= o.node.nextIndex && Pinned(n, o.node)
    decreases |IndicesAhead(n, should)|
  {
    var o := Drain(n);
    var n1 := o.node;
    if CanInform(n1, should) then
      var n2 := LearnInformed(n1, should);
      var d := Deliver(n2);
      IndicesAheadMonotone(n, n1, should);
      IndicesAheadShrinks(n1, d.node, should);
      Then(o, Then(d, OnInformLearned(d.node, sender, should)))
    else if n1.nextIndex in should then
      Then(o, Out(n1, [Send(sender, LogSyncRequest(n1.me, n1.nextIndex))], [], true))
    else o
  }

  lemma {:induction false} InformRoundAppends(n: Node, n': Node, sends: seq<Send>, s: seq<Send>, learned: seq<PLEntry>, l: seq<PLEntry>,
                           sender: EndpointId, should: map<PLIndex, Rnd>)
    requires CanInform(Drain(n).node, should)
    requires Out(n', s, l, true) == Then(Drain(n), Deliver(LearnInformed(Drain(n).node, should)))
    ensures Then(Out(n, sends, learned, true), OnInformLearned(n, sender, should))
         == Then(Out(n', sends + s, learned + l, true), OnInformLearned(n', sender, should))
    ensures |IndicesAhead(n', should)| < |IndicesAhead(n, should)|
  {
    hide Drain, Deliver, IndicesAhead, Drainable;
    var n1 := Drain(n).node;
    var d := Deliver(LearnInformed(n1, should));
    var rest := OnInformLearned(n', sender, should);
    IndicesAheadMonotone(n, n1, should);
    IndicesAheadShrinks(n1, n', should);
    assert sends + (Drain(n).sends + ([] + rest.sends)) == sends + s + rest.sends;
    assert learned + (Drain(n).learned + (d.learned + rest.learned)) == learned + l + rest.learned;
  }

  /** Every index from `lo` up to `hi` still has its learned value. */
  predicate Retains(n: Node, lo: PLIndex, hi: PLIndex) {
    forall i | lo <= i < hi :: i in n.slots && n.slots[i].learned.Some?
  }

  function LearnedRange(n: Node, lo: PLIndex, hi: PLIndex): (learned: seq<(PLIndex, Rnd, PLEntry)>)
    requires Retains(n, lo, hi)
    ensures |learned| == if lo < hi then hi - lo else 0
    ensures forall k | 0 <= k < |learned| ::
              learned[k].0 == lo + k && n.slots[lo + k].learned == Some((learned[k].1, learned[k].2))
    decreases hi - lo
  {
    if lo >= hi then []
    else [(lo, n.slots[lo].learned.value.0, n.slots[lo].learned.value.1)] + LearnedRange(n, lo + 1, hi)
  }

  function OnLogSyncRequest(n: Node, sender: EndpointId, from: PLIndex): Out {
    if Retains(n, from, n.nextIndex) then
      Out(n, [Send(sender, LogSyncResponse(LearnedRange(n, from, n.nextIndex)))], [], true)
    else Quiet(n).(ok := false)
  }

  function AdoptOne(n: Node, l: (PLIndex, Rnd, PLEntry)): Node {
    if l.0 < n.nextIndex then n
    else if l.0 in n.slots then
      if n.slots[l.0].learned.None? then PutSlot(n, l.0, n.slots[l.0].(learned := Some((l.1, l.2)))) else n
    else PutSlot(n, l.0, Slot(None, Some((l.1, l.2))))
  }

  function AdoptAll(n: Node, learned: seq<(PLIndex, Rnd, PLEntry)>): (n': Node)
    ensures n' == n.(slots := n'.slots)
  {
    if learned == [] then n
    else AdoptOne(AdoptAll(n, learned[..|learned| - 1]), learned[|learned| - 1])
  }

  ghost function OnLogSyncResponse(n: Node, learned: seq<(PLIndex, Rnd, PLEntry)>): (o: Out)
    ensures SameFrame(n, o.node) && o.node.remote == n.remote && n.nextIndex <= o.node.nextIndex && Pinned(n, o.node)
  {
    var d := Deliver(AdoptAll(n, learned));
    Then(d, Drain(d.node))
  }

  function Purge(slots: map<PLIndex, Slot>, lo: PLIndex, hi: PLIndex): map<PLIndex, Slot> {
    map i | i in slots && !(lo <= i < hi) :: slots[i]
  }

  function OnNextIndexResponse(n: Node, responder: EndpointId, next: PLIndex): (o: Out)
    ensures SameFrame(n, o.node) && o.node.buffered == n.buffered && o.node.nextIndex == n.nextIndex
  {
    if responder !in n.remote then Quiet(n).(ok := false)
    else
      var n1 := n.(remote := n.remote[responder := if n.remote[responder] < next then next else n.remote[responder]]);
      Quiet(n1.(slots := Purge(n.slots, MinComplete(n), MinComplete(n1))))
  }

  // ---------------------------------------------------------------------------------------------
  //  Every message
  // ---------------------------------------------------------------------------------------------

  ghost function Internal(n: Node, msg: Message): (o: Out)
    ensures SameFrame(n, o.node) && n.nextIndex <= o.node.nextIndex && Pinned(n, o.node)
  {
    match msg
    case Multi(sender, index, body) => OnMulti(n, sender, index, body)
    case IsLeader(lid) => Quiet(if lid == n.leader then n.(heartbeat := 0) else n)
    case InformLearned(sender, should) => OnInformLearned(n, sender, should)
    case LogSyncRequest(sender, next) => OnLogSyncRequest(n, sender, next)
    case LogSyncResponse(learned) => OnLogSyncResponse(n, learned)
    case NextIndexRequest(sender) => Out(n, [Send(sender, NextIndexResponse(n.me, n.nextIndex))], [], true)
    case NextIndexResponse(responder, next) => OnNextIndexResponse(n, responder, next)
  }

  ghost function Handle(n: Node, msg: Message): (o: Out)
    ensures SameFrame(n, o.node) && n.nextIndex <= o.node.nextIndex && Pinned(n, o.node)
  {
    var o := Internal(n, msg);
    Then(o, Drain(o.node))
  }

  // ---------------------------------------------------------------------------------------------
  //  Proposals and timers
  // ---------------------------------------------------------------------------------------------

  /** A random step above the last round tried here, in 32 bits. It may repeat a round. */
  function NextRound(latest: Rnd, increment: nat, rand: nat): Rnd
    requires increment > 0
  {
    (rand % increment + latest) % 0x1_0000_0000
  }

  function AskedSlot(s: Slot, crnd: Rnd, entry: PLEntry): Slot
    requires s.instance.Some?
  {
    var inst := s.instance.value;
    s.(instance := Some(inst.(proposals := inst.proposals[crnd := Proposal(crnd, entry, [])], latestCrnd := crnd)))
  }

  function Propose(n: Node, entry: PLEntry, rand: nat): (o: Out)
    requires n.increment > 0
  {
    var s := SlotWithInstance(n, n.nextIndex);
    var crnd := NextRound(s.instance.value.latestCrnd, n.increment, rand);
    Out(PutSlot(n, n.nextIndex, AskedSlot(s, crnd, entry)),
        Broadcast(n.nodes, Multi(n.me, n.nextIndex, Prepare(crnd))), [], true)
  }

  function InsertBundle(n: Node, uuid: UUID, payload: int, rand: nat): (o: Out)
    requires n.increment > 0
  {
    if n.leader.eid == n.me && n.nextInsert.None? then
      Propose(n.(nextInsert := Some((uuid, payload))), Bundle(payload), rand)
    else Quiet(n)
  }

  function RetryInsert(n: Node, uuid: UUID, rand: nat): (o: Out)
    requires n.increment > 0
  {
    if n.nextInsert.Some? && n.nextInsert.value.0 == uuid then Propose(n, Bundle(n.nextInsert.value.1), rand)
    else Quiet(n)
  }

  /** The rounds at which this node learned each index that `e` may still lack. */
  function ShouldLearn(n: Node, e: EndpointId): (should: map<PLIndex, Rnd>)
    requires e in n.remote && Retains(n, n.remote[e], n.nextIndex)
  {
    map i: PLIndex | n.remote[e] <= i < n.nextIndex :: n.slots[i].learned.value.0
  }

  predicate CanInformAll(n: Node) {
    forall k | 0 <= k < |n.nodes| :: n.nodes[k] in n.remote && Retains(n, n.remote[n.nodes[k]], n.nextIndex)
  }

  function BroadcastInformLearned(n: Node): (o: Out) {
    if CanInformAll(n) then
      Out(n, seq(|n.nodes|, k requires 0 <= k < |n.nodes| =>
            Send(n.nodes[k], InformLearned(n.me, ShouldLearn(n, n.nodes[k])))), [], true)
    else Quiet(n).(ok := false)
  }

  function LeaderHeartbeat(n: Node, rand: nat): (o: Out)
    requires n.increment > 0
  {
    if n.leader.eid == n.me then
      Then(Out(n, Broadcast(n.nodes, IsLeader(n.leader)), [], true), BroadcastInformLearned(n))
    else
      var n1 := n.(heartbeat := n.heartbeat + 1);
      if n1.heartbeat > n1.threshold then
        var p := Propose(n1, LeaderChanged(LeadershipId(n1.leader.gen + 1, n1.me)), rand);
        Then(p, BroadcastInformLearned(p.node))
      else Quiet(n1)
  }

  function NextIndexTimer(n: Node): (o: Out) {
    Out(n, Broadcast(n.nodes, NextIndexRequest(n.me)), [], true)
  }
}
