/** What more than half of the members bring about: a proposer that has promises from more than half
    of them asks all of them to accept, and a learner that has heard from more than half of them of a
    round at which, or above which, it voted itself has learned the value. */
module PaxosQuorums {
  import opened Wrappers
  import opened PaxosTypes
  import opened Sets
  import opened PaxosNode
  import opened PaxosSystem

  predicate MoreThanHalf(k: nat, nodes: seq<EndpointId>) {
    2 * k > |nodes|
  }

  // ---------------------------------------------------------------------------------------------
  //  One node
  // ---------------------------------------------------------------------------------------------

  /** The learner of a slot: the lowest round that more than half accepted is known, and once the
      own vote reaches it the value is learned. */
  predicate SlotSound(s: Slot, nodes: seq<EndpointId>) {
    s.instance.Some? ==>
      var inst := s.instance.value;
      && (forall r | r in inst.proposals :: inst.proposals[r].crnd == r)
      && (forall r | r in inst.learned && MoreThanHalf(inst.learned[r], nodes) ::
            inst.learnedVrnd.Some? && inst.learnedVrnd.value <= r)
      && (inst.learnedVrnd.Some? && inst.vote.Some? && inst.learnedVrnd.value <= inst.vote.value.0 ==> s.learned.Some?)
  }

  /** What holds between events: no instance is ahead of the log, and nothing that is learned waits to
      be appended to it. */
  ghost predicate Sound(n: Node) {
    (forall i | i in n.slots :: SlotSound(n.slots[i], n.nodes) && (n.slots[i].instance.Some? ==> i <= n.nextIndex))
    && !Deliverable(n)
  }

  /** The promises counted for round `r` at index `i`. */
  function Promises(n: Node, i: PLIndex, r: Rnd): nat {
    if i in n.slots then SlotPromises(n.slots[i], r) else 0
  }

  function SlotPromises(s: Slot, r: Rnd): nat {
    if s.instance.Some? && r in s.instance.value.proposals then |s.instance.value.proposals[r].promises| else 0
  }

  predicate Backed(n: Node, i: PLIndex, r: Rnd) {
    MoreThanHalf(Promises(n, i, r), n.nodes)
  }

  predicate AsksToAccept(m: Message, i: PLIndex, r: Rnd) {
    m.Multi? && m.index == i && m.body.Accept? && m.body.crnd == r
  }

  predicate AsksAll(n: Node, sends: seq<Send>, i: PLIndex, r: Rnd, v: PLEntry) {
    forall e | e in n.nodes :: Send(e, Multi(n.me, i, Accept(r, v))) in sends
  }

  /** Whoever comes to be backed asks all; nobody is asked by a proposer that is not backed. */
  ghost predicate Answers(n: Node, n': Node, sends: seq<Send>) {
    && SameFrame(n, n')
    && (forall i, r | Backed(n', i, r) && !Backed(n, i, r) :: exists v :: AsksAll(n, sends, i, r, v))
    && (forall k, i, r | 0 <= k < |sends| && AsksToAccept(sends[k].msg, i, r) :: Backed(n', i, r))
  }

  /** In handling a message no promise is forgotten, and the node ends sound. */
  ghost predicate Grants(n: Node, n': Node, sends: seq<Send>) {
    Answers(n, n', sends) && Sound(n') && forall i, r :: Backed(n, i, r) ==> Backed(n', i, r)
  }

  lemma {:induction false} GrantsBoth(n: Node, n1: Node, n2: Node, s1: seq<Send>, s2: seq<Send>)
    requires Answers(n, n1, s1) && Grants(n1, n2, s2)
    ensures Answers(n, n2, s1 + s2) && Sound(n2)
    ensures Grants(n, n1, s1) ==> Grants(n, n2, s1 + s2)
  {
    hide Sound, Backed;
    forall i, r | Backed(n2, i, r) && !Backed(n, i, r) ensures exists v :: AsksAll(n, s1 + s2, i, r, v) {
      if Backed(n1, i, r) {
        var v :| AsksAll(n, s1, i, r, v);
        assert AsksAll(n, s1 + s2, i, r, v);
      } else {
        var v :| AsksAll(n1, s2, i, r, v);
        assert AsksAll(n, s1 + s2, i, r, v);
      }
    }
    forall k, i, r | 0 <= k < |s1 + s2| && AsksToAccept((s1 + s2)[k].msg, i, r) ensures Backed(n2, i, r) {
      if k < |s1| { assert AsksToAccept(s1[k].msg, i, r); } else { assert AsksToAccept(s2[k - |s1|].msg, i, r); }
    }
  }

  /** Messages that ask nobody to accept. */
  predicate Mute(sends: seq<Send>) {
    forall k | 0 <= k < |sends| :: !sends[k].msg.Multi? || !sends[k].msg.body.Accept?
  }

  /** The same slots: nothing is asked for. */
  lemma {:induction false} GrantsSame(n: Node, n': Node, sends: seq<Send>)
    requires SameFrame(n, n') && n'.slots == n.slots && Mute(sends)
    ensures Answers(n, n', sends) && (Sound(n') ==> Grants(n, n', sends))
  {
    assert forall i, r :: Backed(n', i, r) == Backed(n, i, r);
    hide Backed, Sound;
  }

  // ---------------------------------------------------------------------------------------------
  //  Slots
  // ---------------------------------------------------------------------------------------------

  lemma {:induction false} EnsuredSound(n: Node, i: PLIndex)
    requires forall j | j in n.slots :: SlotSound(n.slots[j], n.nodes)
    ensures var s := SlotWithInstance(n, i);
      SlotSound(s, n.nodes) && (i in n.slots ==> s.learned == n.slots[i].learned) && (i !in n.slots ==> s.learned.None?)
      && forall r :: SlotPromises(s, r) == Promises(n, i, r)
  {
  }

  lemma {:induction false} CountSound(s: Slot, vrnd: Rnd, nodes: seq<EndpointId>)
    requires s.instance.Some? && SlotSound(s, nodes)
    ensures SlotSound(LearnedSlot(s, vrnd, Majority(nodes)), nodes)
  {
    var s' := LearnedSlot(s, vrnd, Majority(nodes));
    var inst, inst' := s.instance.value, s'.instance.value;
    forall r | r in inst'.learned && MoreThanHalf(inst'.learned[r], nodes)
      ensures inst'.learnedVrnd.Some? && inst'.learnedVrnd.value <= r
    {
      if r != vrnd || (vrnd in inst.learned && MoreThanHalf(inst.learned[vrnd], nodes)) {
        assert inst.learnedVrnd.Some? && inst.learnedVrnd.value <= r;
      }
    }
  }

  lemma {:induction false} AcceptSound(s: Slot, crnd: Rnd, cval: PLEntry, nodes: seq<EndpointId>)
    requires s.instance.Some? && SlotSound(s, nodes)
    ensures SlotSound(AcceptedSlot(s, crnd, cval), nodes)
  {
  }

  /** The slot that a Paxos message leaves at its index. */
  function After(n: Node, i: PLIndex, body: PaxosMessage): Slot {
    var s := SlotWithInstance(n, i);
    match body
    case Prepare(crnd) => PreparedSlot(s, crnd)
    case Promise(rnd, vote) => if rnd in s.instance.value.proposals then PromisedSlot(s, rnd, vote) else s
    case Accept(crnd, cval) => AcceptedSlot(s, crnd, cval)
    case Learn(vrnd) => LearnedSlot(s, vrnd, Majority(n.nodes))
  }

  lemma {:induction false} AfterSound(n: Node, i: PLIndex, body: PaxosMessage)
    requires forall j | j in n.slots :: SlotSound(n.slots[j], n.nodes)
    ensures SlotSound(After(n, i, body), n.nodes)
    ensures forall r :: SlotPromises(After(n, i, body), r) >= Promises(n, i, r)
    ensures forall r | !(body.Promise? && body.rnd == r) :: SlotPromises(After(n, i, body), r) == Promises(n, i, r)
  {
    EnsuredSound(n, i);
    var s := SlotWithInstance(n, i);
    match body
    case Learn(vrnd) => CountSound(s, vrnd, n.nodes);
    case Accept(crnd, cval) => AcceptSound(s, crnd, cval, n.nodes);
    case _ =>
  }

  // ---------------------------------------------------------------------------------------------
  //  Paxos messages
  // ---------------------------------------------------------------------------------------------

  /** The node after slot `s` is put at `i` and what is learned is appended. */
  ghost predicate Puts(n: Node, i: PLIndex, s: Slot, n': Node) {
    n'.slots == n.slots[i := s] && SameFrame(n, n') && !Deliverable(n') && n.nextIndex <= n'.nextIndex
  }

  /** Entries are appended whenever one was learned, and that touches no slot. */
  lemma {:induction false} LearnedOrNot(n: Node, i: PLIndex, s: Slot, s': Slot)
    requires !Deliverable(n) && (i == n.nextIndex ==> s.learned.None?)
    ensures s.learned.Some? || s'.learned.None? ==> Puts(n, i, s', PutSlot(n, i, s'))
    ensures Puts(n, i, s', Deliver(PutSlot(n, i, s')).node)
  {
  }

  lemma {:induction false} ProcessNode(n: Node, sender: EndpointId, i: PLIndex, body: PaxosMessage)
    ensures var o, s, s' := Process(n, sender, i, body), SlotWithInstance(n, i), After(n, i, body);
      && (o.node == Deliver(PutSlot(n, i, s')).node || (o.node == PutSlot(n, i, s') && (s.learned.Some? || s'.learned.None?)))
      && (!body.Promise? ==> Mute(o.sends))
  {
    hide SlotWithInstance, LearnedSlot;
  }

  lemma {:induction false} ProcessIs(n: Node, sender: EndpointId, i: PLIndex, body: PaxosMessage)
    requires Sound(n) && i <= n.nextIndex
    ensures var o := Process(n, sender, i, body); Puts(n, i, After(n, i, body), o.node) && (!body.Promise? ==> Mute(o.sends))
  {
    EnsuredSound(n, i);
    hide Process, After, Deliver, Puts, SlotSound, SlotWithInstance;
    ProcessNode(n, sender, i, body);
    LearnedOrNot(n, i, SlotWithInstance(n, i), After(n, i, body));
  }

  /** A promise that tips the balance makes the proposer ask everybody, and only that does. */
  lemma {:induction false} PromiseAsks(n: Node, i: PLIndex, rnd: Rnd, vote: Vote)
    requires forall j | j in n.slots :: SlotSound(n.slots[j], n.nodes)
    ensures var o := OnPromise(n, i, SlotWithInstance(n, i), rnd, vote); var body := Promise(rnd, vote);
      && (!MoreThanHalf(Promises(n, i, rnd), n.nodes) && MoreThanHalf(SlotPromises(After(n, i, body), rnd), n.nodes) ==>
            exists v :: AsksAll(n, o.sends, i, rnd, v))
      && (forall k, j, r | 0 <= k < |o.sends| && AsksToAccept(o.sends[k].msg, j, r) ::
            j == i && r == rnd && MoreThanHalf(SlotPromises(After(n, i, body), rnd), n.nodes))
  {
    EnsuredSound(n, i);
    var s, o := SlotWithInstance(n, i), OnPromise(n, i, SlotWithInstance(n, i), rnd, vote);
    if rnd in s.instance.value.proposals {
      var p := PromisedSlot(s, rnd, vote).instance.value.proposals[rnd];
      assert p.crnd == rnd && |p.promises| == Promises(n, i, rnd) + 1;
      if |p.promises| == Majority(n.nodes) {
        var v := ValueToAccept(p);
        forall e | e in n.nodes ensures Send(e, Multi(n.me, i, Accept(rnd, v))) in o.sends {
          var k :| 0 <= k < |n.nodes| && n.nodes[k] == e;
          assert o.sends[k] == Send(e, Multi(n.me, i, Accept(rnd, v)));
        }
        assert AsksAll(n, o.sends, i, rnd, v);
      }
    }
  }

  lemma {:induction false} ProcessGrants(n: Node, sender: EndpointId, i: PLIndex, body: PaxosMessage)
    requires Sound(n) && i <= n.nextIndex
    ensures Grants(n, Process(n, sender, i, body).node, Process(n, sender, i, body).sends)
  {
    var o, s' := Process(n, sender, i, body), After(n, i, body);
    assert body.Promise? ==> o.sends == OnPromise(n, i, SlotWithInstance(n, i), body.rnd, body.vote).sends;
    hide Process, After, OnPromise, SlotWithInstance, SlotPromises, SlotSound;
    ProcessIs(n, sender, i, body);
    AfterSound(n, i, body);
    if body.Promise? { PromiseAsks(n, i, body.rnd, body.vote); }
    assert forall j, r :: Promises(o.node, j, r) == if j == i then SlotPromises(s', r) else Promises(n, j, r);
    assert Sound(o.node);
    hide Promises, Sound;
    forall j, r | Backed(o.node, j, r) && !Backed(n, j, r) ensures exists v :: AsksAll(n, o.sends, j, r, v) {
      assert j == i && body.Promise? && body.rnd == r;
    }
  }

  lemma {:induction false} OnMultiGrants(n: Node, sender: EndpointId, i: PLIndex, body: PaxosMessage)
    requires Sound(n)
    ensures Grants(n, OnMulti(n, sender, i, body).node, OnMulti(n, sender, i, body).sends)
  {
    if Ignored(n, sender, body) || i < MinComplete(n) {
      GrantsSame(n, n, []);
    } else if i > n.nextIndex {
      GrantsSame(n, Buffer(n, sender, i, body), []);
    } else {
      ProcessGrants(n, sender, i, body);
    }
  }

  lemma {:induction false} DrainGrants(n: Node)
    requires Sound(n)
    ensures Grants(n, Drain(n).node, Drain(n).sends)
    decreases |n.buffered|, if n.buffered == map[] then 0 else |n.buffered[Least(n.buffered.Keys)]|
  {
    if !Drainable(n) {
      GrantsSame(n, n, []);
    } else {
      var i := Least(n.buffered.Keys);
      ghost var n0, n1, sends;
      if n.buffered[i] == [] {
        n0, sends := n.(buffered := n.buffered - {i}), [];
        n1 := n0;
        DrainDropsKey(n);
        GrantsSame(n, n0, []);
      } else {
        var l := n.buffered[i][0];
        n0 := n.(buffered := n.buffered[i := n.buffered[i][1..]]);
        GrantsSame(n, n0, []);
        OnMultiGrants(n0, l.sender, i, l.body);
        n1, sends := OnMulti(n0, l.sender, i, l.body).node, OnMulti(n0, l.sender, i, l.body).sends;
        DrainPopsLetter(n);
        GrantsBoth(n, n0, n1, [], sends);
        assert [] + sends == sends;
      }
      hide Grants, OnMulti, Drain;
      assert Sound(n1) by { GrantsSound(n, n1, sends); }
      DrainGrants(n1);
      GrantsThen(n, n1, Drain(n1).node, sends, Drain(n1).sends);
    }
  }

  lemma {:induction false} GrantsSound(n: Node, n': Node, sends: seq<Send>)
    requires Grants(n, n', sends)
    ensures Sound(n')
  {
  }

  lemma {:induction false} GrantsThen(n: Node, n1: Node, n2: Node, s1: seq<Send>, s2: seq<Send>)
    requires Grants(n, n1, s1) && Grants(n1, n2, s2)
    ensures Grants(n, n2, s1 + s2)
  {
    GrantsBoth(n, n1, n2, s1, s2);
  }

  // ---------------------------------------------------------------------------------------------
  //  Catching up
  // ---------------------------------------------------------------------------------------------

  /** Learning more touches no promise, and leaves a node sound once it has delivered. */
  lemma {:induction false} LearnMoreGrants(n: Node, n1: Node)
    requires SameFrame(n, n1) && Sound(n) && n.nextIndex <= n1.nextIndex
    requires forall j | j in n.slots :: j in n1.slots && n1.slots[j].instance == n.slots[j].instance
                                        && (n.slots[j].learned.Some? ==> n1.slots[j].learned.Some?)
    requires forall j | j in n1.slots && j !in n.slots :: n1.slots[j].instance.None?
    ensures Grants(n, Deliver(n1).node, Deliver(n1).sends)
  {
    var d := Deliver(n1).node;
    assert d.slots == n1.slots && SameFrame(n, d) && !Deliverable(d) && n.nextIndex <= d.nextIndex;
    hide Deliver;
    assert forall j, r :: Backed(d, j, r) == Backed(n, j, r);
    hide Backed;
    forall j | j in d.slots ensures SlotSound(d.slots[j], d.nodes) { }
  }

  lemma {:induction false} InformGrants(n: Node, sender: EndpointId, should: map<PLIndex, Rnd>)
    requires Sound(n)
    ensures Grants(n, OnInformLearned(n, sender, should).node, OnInformLearned(n, sender, should).sends)
    decreases |IndicesAhead(n, should)|
  {
    var o := Drain(n);
    var n1 := o.node;
    DrainGrants(n);
    assert n.nextIndex <= n1.nextIndex;
    hide Grants, Drain, IndicesAhead;
    GrantsSound(n, n1, o.sends);
    if CanInform(n1, should) {
      var n2 := LearnInformed(n1, should);
      var d := Deliver(n2);
      LearnMoreGrants(n1, n2);
      assert d.sends == [] && n1.nextIndex < d.node.nextIndex;
      hide Deliver, Sound;
      GrantsSound(n1, d.node, d.sends);
      IndicesAheadMonotone(n, n1, should);
      IndicesAheadShrinks(n1, d.node, should);
      InformGrants(d.node, sender, should);
      var rest := OnInformLearned(d.node, sender, should);
      GrantsThen(n1, d.node, rest.node, d.sends, rest.sends);
      GrantsThen(n, n1, rest.node, o.sends, d.sends + rest.sends);
    } else if n1.nextIndex in should {
      var sends := [Send(sender, LogSyncRequest(n1.me, n1.nextIndex))];
      GrantsSame(n1, n1, sends);
      GrantsThen(n, n1, n1, o.sends, sends);
    }
  }

  lemma {:induction false} AdoptedAll(n: Node, learned: seq<(PLIndex, Rnd, PLEntry)>)
    ensures var n1 := AdoptAll(n, learned);
      && (forall j | j in n.slots :: j in n1.slots && n1.slots[j].instance == n.slots[j].instance
                                     && (n.slots[j].learned.Some? ==> n1.slots[j].learned.Some?))
      && (forall j | j in n1.slots && j !in n.slots :: n1.slots[j].instance.None?)
    decreases |learned|
  {
    if learned != [] { AdoptedAll(n, learned[..|learned| - 1]); }
  }

  lemma {:induction false} SyncGrants(n: Node, learned: seq<(PLIndex, Rnd, PLEntry)>)
    requires Sound(n)
    ensures Grants(n, OnLogSyncResponse(n, learned).node, OnLogSyncResponse(n, learned).sends)
  {
    hide Grants, Drain;
    var d := Deliver(AdoptAll(n, learned));
    AdoptedAll(n, learned);
    LearnMoreGrants(n, AdoptAll(n, learned));
    GrantsSound(n, d.node, d.sends);
    DrainGrants(d.node);
    GrantsThen(n, d.node, Drain(d.node).node, d.sends, Drain(d.node).sends);
  }

  /** Slots that every member is past are forgotten, promises and all. */
  lemma {:induction false} AckAnswers(n: Node, responder: EndpointId, next: PLIndex)
    requires Sound(n)
    ensures var o := OnNextIndexResponse(n, responder, next); Answers(n, o.node, o.sends) && Sound(o.node)
  {
    hide MinComplete;
    var o := OnNextIndexResponse(n, responder, next);
    forall i | i in o.node.slots ensures i in n.slots && o.node.slots[i] == n.slots[i] { }
    forall i, r | Backed(o.node, i, r) ensures Backed(n, i, r) { }
    hide Backed, OnNextIndexResponse, SlotSound;
  }

  lemma {:induction false} InternalAnswers(n: Node, msg: Message)
    requires Sound(n)
    ensures var o := Internal(n, msg); Answers(n, o.node, o.sends) && Sound(o.node)
  {
    hide OnMulti, OnInformLearned, OnLogSyncResponse, OnNextIndexResponse, Sound, Answers, LearnedRange, Retains;
    var o := Internal(n, msg);
    match msg
    case Multi(sender, i, body) => OnMultiGrants(n, sender, i, body); GrantsAnswers(n, o.node, o.sends);
    case IsLeader(_) => GrantsSame(n, o.node, []); SoundFrame(n, o.node);
    case InformLearned(sender, should) => InformGrants(n, sender, should); GrantsAnswers(n, o.node, o.sends);
    case LogSyncRequest(_, _) => GrantsSame(n, n, o.sends);
    case LogSyncResponse(learned) => SyncGrants(n, learned); GrantsAnswers(n, o.node, o.sends);
    case NextIndexRequest(_) => GrantsSame(n, n, o.sends);
    case NextIndexResponse(responder, next) => AckAnswers(n, responder, next);
  }

  lemma {:induction false} GrantsAnswers(n: Node, n': Node, sends: seq<Send>)
    requires Grants(n, n', sends)
    ensures Answers(n, n', sends) && Sound(n')
  {
  }

  lemma {:induction false} SoundFrame(n: Node, n': Node)
    requires Sound(n) && n'.slots == n.slots && n'.nodes == n.nodes && n'.nextIndex == n.nextIndex
    ensures Sound(n')
  {
  }

  lemma {:induction false} HandleAnswers(n: Node, msg: Message)
    requires Sound(n)
    ensures var o := Handle(n, msg); Answers(n, o.node, o.sends) && Sound(o.node)
  {
    hide Internal, Drain, Sound, Answers, Grants;
    var o := Internal(n, msg);
    InternalAnswers(n, msg);
    DrainGrants(o.node);
    GrantsBoth(n, o.node, Drain(o.node).node, o.sends, Drain(o.node).sends);
  }

  // ---------------------------------------------------------------------------------------------
  //  Proposals and timers
  // ---------------------------------------------------------------------------------------------

  /** A new round starts without promises. */
  lemma {:induction false} ProposeAnswers(n: Node, entry: PLEntry, rand: nat)
    requires Sound(n) && n.increment > 0
    ensures var o := Propose(n, entry, rand); Answers(n, o.node, o.sends) && Sound(o.node) && Mute(o.sends)
  {
    hide NextRound;
    EnsuredSound(n, n.nextIndex);
    var o := Propose(n, entry, rand);
    forall i, r | Backed(o.node, i, r) ensures Backed(n, i, r) { }
    hide Backed;
  }

  lemma {:induction false} AnswersMute(n: Node, n': Node, sends: seq<Send>, more: seq<Send>)
    requires Answers(n, n', sends) && Mute(sends) && Mute(more)
    ensures Answers(n, n', sends + more) && Mute(sends + more)
  {
    hide Backed;
    forall i, r | Backed(n', i, r) && !Backed(n, i, r) ensures exists v :: AsksAll(n, sends + more, i, r, v) {
      var v :| AsksAll(n, sends, i, r, v);
      assert AsksAll(n, sends + more, i, r, v);
    }
  }

  /** A step before that touches no slot. */
  lemma {:induction false} AnswersFrom(n: Node, n0: Node, n': Node, sends: seq<Send>)
    requires SameFrame(n, n0) && n0.slots == n.slots && Answers(n0, n', sends)
    ensures Answers(n, n', sends)
  {
    assert forall i, r :: Backed(n0, i, r) == Backed(n, i, r);
    hide Backed;
    forall i, r | Backed(n', i, r) && !Backed(n, i, r) ensures exists v :: AsksAll(n, sends, i, r, v) {
      var v :| AsksAll(n0, sends, i, r, v);
      assert AsksAll(n, sends, i, r, v);
    }
  }

  lemma {:induction false} InformIsMute(n: Node)
    ensures Mute(BroadcastInformLearned(n).sends) && BroadcastInformLearned(n).node == n
  {
  }

  lemma {:induction false} HeartbeatAnswers(n: Node, rand: nat)
    requires Sound(n) && n.increment > 0
    ensures var o := LeaderHeartbeat(n, rand); Answers(n, o.node, o.sends) && Sound(o.node)
  {
    hide Propose, BroadcastInformLearned, Sound, Answers;
    var o := LeaderHeartbeat(n, rand);
    if n.leader.eid == n.me {
      InformIsMute(n);
      GrantsSame(n, n, o.sends);
    } else {
      var n1 := n.(heartbeat := n.heartbeat + 1);
      SoundFrame(n, n1);
      if n1.heartbeat > n1.threshold {
        var entry := LeaderChanged(LeadershipId(n1.leader.gen + 1, n1.me));
        var p := Propose(n1, entry, rand);
        ProposeAnswers(n1, entry, rand);
        InformIsMute(p.node);
        AnswersMute(n1, p.node, p.sends, BroadcastInformLearned(p.node).sends);
        AnswersFrom(n, n1, p.node, o.sends);
      } else {
        GrantsSame(n, n1, []);
      }
    }
  }

  /** Every event, at the node where it happens. */
  lemma {:induction false} EventAnswers(s: Sys, e: Event, s0: Sys, a: EndpointId, o: Out)
    requires Runs(s, e, s0, a, o) && Sound(s.nodes[a])
    ensures Answers(s.nodes[a], o.node, o.sends) && Sound(o.node)
  {
    hide Handle, Propose, LeaderHeartbeat, Sound, Answers;
    var n := s.nodes[a];
    match e
    case Receive(p, q) => HandleAnswers(n, s.wires[(p, q)].sent[s.wires[(p, q)].recv]);
    case InsertEvent(_, uuid, payload, rand) =>
      if n.leader.eid == n.me && n.nextInsert.None? {
        var n1 := n.(nextInsert := Some((uuid, payload)));
        SoundFrame(n, n1);
        ProposeAnswers(n1, Bundle(payload), rand);
        AnswersFrom(n, n1, o.node, o.sends);
      } else {
        GrantsSame(n, n, []);
      }
    case RetryEvent(_, uuid, rand) =>
      if n.nextInsert.Some? && n.nextInsert.value.0 == uuid {
        ProposeAnswers(n, Bundle(n.nextInsert.value.1), rand);
      } else {
        GrantsSame(n, n, []);
      }
    case HeartbeatEvent(_, rand) => HeartbeatAnswers(n, rand);
    case NextIndexEvent(_) => GrantsSame(n, n, o.sends);
  }
}
