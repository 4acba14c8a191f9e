/** One undisturbed round of Paxos among more than half of the members: what each message of it does
    at one node. */
module PaxosRound {
  import opened Wrappers
  import opened PaxosTypes
  import opened PaxosNode

  /** The round `rnd` in which `live[0]` proposes `value` at index `|log|`, while the members in
      `live` follow `leader`. `extra[m]` is what `live[0]` says to `live[m]` besides. */
  datatype Round = Round(
    members: seq<EndpointId>,
    threshold: nat,
    increment: nat,
    live: seq<EndpointId>,
    leader: LeadershipId,
    log: seq<PLEntry>,
    rnd: Rnd,
    value: PLEntry,
    extra: seq<seq<Message>>)
  {
    function Index(): PLIndex { |log| }

    function Half(): nat { Majority(members) }

    ghost predicate Valid() {
      && Distinct(members) && Distinct(live) && (forall e | e in live :: e in members)
      && 2 * |live| > |members| && 0 < rnd && |extra| == |live|
      && forall m | 0 <= m < |live| :: |extra[m]| <= 1 && forall k | 0 <= k < |extra[m]| :: Idle(extra[m][k])
    }

    /** A message that means nothing to a node whose log is `log`. */
    predicate Idle(m: Message) {
      m.InformLearned? && |log| !in m.shouldLearned
    }

    function PrepareMsg(): Message
      requires live != []
    {
      Multi(live[0], |log|, Prepare(rnd))
    }

    function PromiseMsg(e: EndpointId): Message { Multi(e, |log|, Promise(rnd, None)) }

    function AcceptMsg(): Message
      requires live != []
    {
      Multi(live[0], |log|, Accept(rnd, value))
    }

    function LearnMsg(e: EndpointId): Message { Multi(e, |log|, Learn(rnd)) }
  }

  // ---------------------------------------------------------------------------------------------
  //  The stages of a node
  // ---------------------------------------------------------------------------------------------

  /** The slot at the index of the round: whether it has promised and voted, and of how many votes
      it has heard. */
  ghost predicate SlotAt(c: Round, s: Slot, promised: bool, voted: bool, heard: nat)
    requires s.instance.Some?
  {
    var inst := s.instance.value;
    && (if promised then inst.rnd == c.rnd else inst.rnd < c.rnd)
    && inst.vote == (if voted then Some((c.rnd, c.value)) else None)
    && inst.learned == (if heard == 0 then map[] else map[c.rnd := heard])
    && inst.learnedVrnd == (if heard >= c.Half() then Some(c.rnd) else None)
    && s.learned == (if heard >= c.Half() then Some((c.rnd, c.value)) else None)
  }

  function LeaderThen(c: Round, done: bool): LeadershipId {
    if done then NextLeader(c.leader, c.value) else c.leader
  }

  /** The promises that node `n` has counted in the round. */
  predicate Collected(c: Round, n: Node, promises: nat) {
    && c.Index() in n.slots && n.slots[c.Index()].instance.Some?
    && c.rnd in n.slots[c.Index()].instance.value.proposals
    && n.slots[c.Index()].instance.value.proposals[c.rnd] == Proposal(c.rnd, c.value, Nones(promises))
  }

  function Nones(k: nat): seq<Vote> {
    seq(k, _ => None)
  }

  /** The node knows every member, and has kept everything it learned. */
  predicate Complete(n: Node, bound: PLIndex) {
    (forall e | e in n.nodes :: e in n.remote) && Retains(n, 0, bound)
  }

  /** Member `a`, which appends the value once it has heard of enough votes. */
  ghost predicate NodeAt(c: Round, n: Node, a: EndpointId, promised: bool, voted: bool, heard: nat) {
    && n.me == a && n.nodes == c.members && n.threshold == c.threshold && n.increment == c.increment && n.buffered == map[]
    && a in n.remote && a in c.members && n.remote[a] <= c.Index()
    && (forall j | j in n.slots :: j <= c.Index()) && Complete(n, c.Index())
    && SlotAt(c, SlotWithInstance(n, c.Index()), promised, voted, heard)
    && n.nextIndex == (if heard >= c.Half() then c.Index() + 1 else c.Index())
    && n.leader == LeaderThen(c, heard >= c.Half())
    && (heard >= c.Half() ==> n.nextInsert.None?)
    && (!promised && c.live != [] ==> n.leader.eid == c.live[0] || n.heartbeat > n.threshold)
  }

  // ---------------------------------------------------------------------------------------------
  //  Handling a message at a node that has nothing buffered
  // ---------------------------------------------------------------------------------------------

  lemma {:induction false} NothingToDrain(n: Node)
    requires n.buffered == map[]
    ensures Drain(n) == Quiet(n)
  {
  }

  lemma {:induction false} OwnIndexCounts(c: Round, n: Node, a: EndpointId)
    requires a in n.remote && a in n.nodes && n.remote[a] <= c.Index()
    ensures MinComplete(n) <= c.Index()
  {
    MinOverIsMinimum(n.nodes, n.remote, n.nextIndex);
  }

  /** A message of the round is processed at once. */
  lemma {:induction false} HandlesRound(c: Round, n: Node, a: EndpointId, sender: EndpointId, body: PaxosMessage, promised: bool, voted: bool, heard: nat)
    requires NodeAt(c, n, a, promised, voted, heard)
    requires body.Prepare? ==> !promised && c.live != [] && sender == c.live[0]
    ensures var m, o := Multi(sender, c.Index(), body), Process(n, sender, c.Index(), body);
      Handle(n, m) == o
  {
    var m, o := Multi(sender, c.Index(), body), Process(n, sender, c.Index(), body);
    OwnIndexCounts(c, n, a);
    assert Internal(n, m) == o;
    NothingToDrain(o.node);
    assert o.sends + [] == o.sends && o.learned + [] == o.learned;
  }

  lemma {:induction false} Prepares(c: Round, n: Node, a: EndpointId)
    requires NodeAt(c, n, a, false, false, 0) && c.live != [] && 0 < c.Half()
    ensures var o := Handle(n, c.PrepareMsg());
      && NodeAt(c, o.node, a, true, false, 0) && o.sends == [Send(c.live[0], c.PromiseMsg(a))] && o.learned == []
      && (forall k | Collected(c, n, k) :: Collected(c, o.node, k))
  {
    HandlesRound(c, n, a, c.live[0], Prepare(c.rnd), false, false, 0);
  }

  lemma {:induction false} CountsPromise(c: Round, n: Node, a: EndpointId, e: EndpointId, k: nat)
    requires NodeAt(c, n, a, true, false, 0) && c.live != [] && a == c.live[0] && 0 < c.Half() && Collected(c, n, k)
    ensures var o := Handle(n, c.PromiseMsg(e));
      && NodeAt(c, o.node, a, true, false, 0) && o.learned == []
      && o.sends == (if k + 1 == c.Half() then Broadcast(c.members, c.AcceptMsg()) else [])
      && Collected(c, o.node, k + 1)
  {
    HandlesRound(c, n, a, e, Promise(c.rnd, None), true, false, 0);
    assert Nones(k) + [None] == Nones(k + 1);
    NoBest(k + 1);
  }

  lemma {:induction false} NoBest(k: nat)
    ensures BestVote(Nones(k)) == None
  {
    if k > 0 {
      NoBest(k - 1);
      assert Nones(k)[..k - 1] == Nones(k - 1);
    }
  }

  lemma {:induction false} Votes(c: Round, n: Node, a: EndpointId)
    requires NodeAt(c, n, a, true, false, 0) && c.live != [] && 0 < c.Half()
    ensures var o := Handle(n, c.AcceptMsg());
      && NodeAt(c, o.node, a, true, true, 0) && o.learned == [] && o.sends == Broadcast(c.members, c.LearnMsg(a))
      && (forall k | Collected(c, n, k) :: Collected(c, o.node, k))
  {
    HandlesRound(c, n, a, c.live[0], Accept(c.rnd, c.value), true, false, 0);
  }

  lemma {:induction false} HearsSlot(c: Round, s: Slot, k: nat)
    requires s.instance.Some? && SlotAt(c, s, true, true, k) && 0 < c.Half()
    ensures var s' := LearnedSlot(s, c.rnd, c.Half());
      SlotAt(c, s', true, true, k + 1) && (s.learned.None? && s'.learned.Some? <==> k + 1 == c.Half())
  {
    var inst := s.instance.value;
    assert inst.learned[c.rnd := k + 1] == map[c.rnd := k + 1];
  }

  /** The vote that makes enough is appended to the log, and no other. */
  lemma {:induction false} Hears(c: Round, n: Node, a: EndpointId, e: EndpointId, k: nat)
    requires NodeAt(c, n, a, true, true, k) && c.live != [] && 0 < c.Half()
    ensures var o := Handle(n, c.LearnMsg(e));
      && NodeAt(c, o.node, a, true, true, k + 1) && o.sends == []
      && o.learned == (if k + 1 == c.Half() then [c.value] else [])
  {
    var s := SlotWithInstance(n, c.Index());
    var s' := LearnedSlot(s, c.rnd, c.Half());
    HandlesRound(c, n, a, e, Learn(c.rnd), true, true, k);
    HearsSlot(c, s, k);
    var n1 := PutSlot(n, c.Index(), s');
    assert Complete(n1, c.Index());
    assert SlotWithInstance(n1, c.Index()) == s';
    hide Handle, LearnedSlot, SlotAt, Deliver;
    if k + 1 == c.Half() { DeliversOne(c, n, s'); }
  }

  lemma {:induction false} DeliversOne(c: Round, n: Node, s: Slot)
    requires n.nextIndex == c.Index() && (forall j | j in n.slots :: j <= c.Index()) && s.learned == Some((c.rnd, c.value))
    ensures var n1 := PutSlot(n, c.Index(), s); Deliver(n1) == Out(DeliverOne(n1), [], [c.value], true)
  {
    var n1 := PutSlot(n, c.Index(), s);
    assert !Deliverable(DeliverOne(n1));
  }

  /** What means nothing changes nothing. */
  lemma {:induction false} Ignores(c: Round, n: Node, a: EndpointId, m: Message, promised: bool, voted: bool)
    requires NodeAt(c, n, a, promised, voted, 0) && c.Idle(m) && 0 < c.Half()
    ensures Handle(n, m) == Quiet(n)
  {
    NothingToDrain(n);
  }
}
