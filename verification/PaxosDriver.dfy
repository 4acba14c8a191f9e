/** `PaxosDriver` of src/paxos.rs: every handler updates the driver in place and leaves exactly
    the state, the messages and the log entries that `PaxosNode` specifies. */
module PaxosDriver {
  import opened Wrappers
  import opened PaxosTypes
  import opened Sets
  import opened PaxosNode

  lemma {:induction false} PurgeNone(slots: map<PLIndex, Slot>, lo: PLIndex, hi: PLIndex)
    ensures Purge(slots, lo, lo) == slots && (hi <= lo ==> Purge(slots, lo, hi) == slots)
  {
  }

  lemma {:induction false} PurgeNext(slots: map<PLIndex, Slot>, lo: PLIndex, i: PLIndex)
    requires lo <= i
    ensures Purge(slots, lo, i) - {i} == Purge(slots, lo, i + 1)
  {
  }

  class Driver {
    const me: EndpointId
    const threshold: nat
    const increment: nat
    const nodes: seq<EndpointId>
    var remote: map<EndpointId, PLIndex>
    var nextIndex: PLIndex
    var slots: map<PLIndex, Slot>
    var buffered: map<PLIndex, seq<Letter>>
    var leader: LeadershipId
    var heartbeat: nat
    var nextInsert: Option<(UUID, int)>

    ghost function View(): Node
      reads this
    {
      Node(me, nodes, threshold, increment, remote, nextIndex, slots, buffered, leader, heartbeat, nextInsert)
    }

    /** A driver of the initial group; the first member is the first leader. */
    constructor (me: EndpointId, nodes: seq<EndpointId>, threshold: nat, increment: nat)
      requires nodes != []
      ensures View() == InitialNode(me, nodes, threshold, increment)
    {
      this.me, this.nodes, this.threshold, this.increment := me, nodes, threshold, increment;
      remote := map e | e in nodes :: 0;
      nextIndex, slots, buffered := 0, map[], map[];
      leader, heartbeat, nextInsert := LeadershipId(0, nodes[0]), 0, None;
    }

    method MinCompleteIndex() returns (m: PLIndex)
      requires remote.Keys == set e | e in nodes
      ensures m == MinComplete(View())
    {
      m := nextIndex;
      var todo := remote.Keys;
      while todo != {}
        invariant todo <= remote.Keys
        invariant m <= nextIndex && forall e | e in remote && e !in todo :: m <= remote[e]
        invariant m == nextIndex || exists e | e in remote :: m == remote[e]
        decreases |todo|
      {
        var e :| e in todo;
        if remote[e] < m { m := remote[e]; }
        todo := todo - {e};
      }
      MinOverIsMinimum(nodes, remote, nextIndex);
      assert forall e | e in remote :: e in nodes;
    }

    method EnsureInstance(i: PLIndex) returns (inst: Instance)
      modifies `slots
      ensures slots == old(slots)[i := SlotWithInstance(old(View()), i)]
      ensures slots[i].instance == Some(inst)
    {
      if i in slots {
        if slots[i].instance.None? {
          slots := slots[i := slots[i].(instance := Some(NEW_INSTANCE))];
        } else {
          assert slots == slots[i := slots[i]];
        }
      } else {
        slots := slots[i := Slot(Some(NEW_INSTANCE), None)];
      }
      inst := slots[i].instance.value;
    }

    /** Takes the entry learned at `nextIndex` into the log. */
    method AppendNext() returns (entry: PLEntry)
      requires Deliverable(View())
      modifies `nextIndex, `leader, `heartbeat
      ensures entry == slots[old(nextIndex)].learned.value.1
      ensures View() == DeliverOne(old(View())).(nextInsert := nextInsert)
    {
      entry := slots[nextIndex].learned.value.1;
      nextIndex := nextIndex + 1;
      if entry.LeaderChanged? {
        leader := entry.lid;
        heartbeat := 0;
      }
    }

    method DeliverLearnedEntries() returns (learned: seq<PLEntry>)
      modifies `nextIndex, `leader, `heartbeat, `nextInsert
      ensures Out(View(), [], learned, true) == Deliver(old(View()))
    {
      ghost var all := Deliver(View());
      learned := [];
      if nextIndex !in slots || slots[nextIndex].learned.None? {
        return;
      }
      ghost var now := View();
      while nextIndex in slots && slots[nextIndex].learned.Some?
        invariant now == View().(nextInsert := now.nextInsert)
        invariant now.nextInsert == None || Deliverable(now)
        invariant all.node == Deliver(now).node
        invariant all.learned == learned + Deliver(now).learned
        decreases Lag(now)
      {
        ghost var next := DeliverNext(now);
        var entry := AppendNext();
        now := next;
        learned := learned + [entry];
      }
      nextInsert := None;
    }

    method ChooseValue(promises: seq<Vote>) returns (best: Vote)
      ensures best == BestVote(promises)
    {
      best := None;
      for k := 0 to |promises|
        invariant best == BestVote(promises[..k])
      {
        assert promises[..k + 1][..k] == promises[..k];
        if promises[k].Some? && (best.None? || promises[k].value.0 > best.value.0) {
          best := promises[k];
        }
      }
      assert promises[..|promises|] == promises;
    }

    method SendToAll(msg: Message) returns (sends: seq<Send>)
      ensures sends == Broadcast(nodes, msg)
    {
      sends := [];
      for k := 0 to |nodes|
        invariant sends == Broadcast(nodes, msg)[..k]
      {
        sends := sends + [Send(nodes[k], msg)];
      }
    }

    method HandleMulti(sender: EndpointId, i: PLIndex, body: PaxosMessage)
      returns (sends: seq<Send>, learned: seq<PLEntry>)
      requires remote.Keys == set e | e in nodes
      requires OnMulti(View(), sender, i, body).ok
      modifies this
      ensures Out(View(), sends, learned, true) == OnMulti(old(View()), sender, i, body)
    {
      sends, learned := [], [];
      if body.Prepare? && sender != leader.eid && heartbeat <= threshold {
        return;
      }
      var lowest := MinCompleteIndex();
      if i < lowest {
        return;
      } else if i > nextIndex {
        if i in buffered {
          buffered := buffered[i := buffered[i] + [Letter(sender, body)]];
        } else {
          assert [] + [Letter(sender, body)] == [Letter(sender, body)];
          buffered := buffered[i := [Letter(sender, body)]];
        }
        return;
      }
      sends, learned := ForwardToInstance(sender, i, body);
    }

    method ForwardToInstance(sender: EndpointId, i: PLIndex, body: PaxosMessage)
      returns (sends: seq<Send>, learned: seq<PLEntry>)
      requires Process(View(), sender, i, body).ok
      modifies this
      ensures Out(View(), sends, learned, true) == Process(old(View()), sender, i, body)
    {
      sends, learned := [], [];
      match body
      case Prepare(crnd) => sends := HandlePrepare(sender, i, crnd);
      case Promise(rnd, vote) => sends := HandlePromise(i, rnd, vote);
      case Accept(crnd, cval) => sends, learned := HandleAccept(i, crnd, cval);
      case Learn(vrnd) => learned := HandleLearn(i, vrnd);
    }

    method HandlePrepare(sender: EndpointId, i: PLIndex, crnd: Rnd) returns (sends: seq<Send>)
      modifies `slots
      ensures Out(View(), sends, [], true) ==
              OnPrepare(old(View()), i, SlotWithInstance(old(View()), i), sender, crnd)
    {
      sends := [];
      var inst := EnsureInstance(i);
      if crnd > inst.rnd {
        SetInstance(i, inst.(rnd := crnd));
        assert slots == old(slots)[i := slots[i]];
        sends := [Send(sender, Multi(me, i, Promise(crnd, inst.vote)))];
      }
    }

    method HandlePromise(i: PLIndex, rnd: Rnd, vote: Vote) returns (sends: seq<Send>)
      requires OnPromise(View(), i, SlotWithInstance(View(), i), rnd, vote).ok
      modifies `slots
      ensures Out(View(), sends, [], true) ==
              OnPromise(old(View()), i, SlotWithInstance(old(View()), i), rnd, vote)
    {
      sends := [];
      var inst := EnsureInstance(i);
      var proposal := inst.proposals[rnd];
      var promises := proposal.promises + [vote];
      SetInstance(i, inst.(proposals := inst.proposals[rnd := proposal.(promises := promises)]));
      assert slots == old(slots)[i := slots[i]];
      if |promises| == Majority(nodes) {
        var best := ChooseValue(promises);
        var cval := if best.Some? then best.value.1 else proposal.cval;
        sends := SendToAll(Multi(me, i, Accept(proposal.crnd, cval)));
      }
    }

    method HandleAccept(i: PLIndex, crnd: Rnd, cval: PLEntry)
      returns (sends: seq<Send>, learned: seq<PLEntry>)
      modifies this
      ensures Out(View(), sends, learned, true) ==
              OnAccept(old(View()), i, SlotWithInstance(old(View()), i), crnd, cval)
    {
      hide Deliver, Broadcast;
      sends, learned := [], [];
      var inst := EnsureInstance(i);
      if crnd >= inst.rnd {
        SetInstance(i, inst.(rnd := crnd, vote := Some((crnd, cval))));
        sends := SendToAll(Multi(me, i, Learn(crnd)));
        if slots[i].learned.None? && inst.learnedVrnd.Some? && inst.learnedVrnd.value <= crnd {
          SetLearned(i, inst.learnedVrnd.value, cval);
          assert slots == old(slots)[i := slots[i]];
          learned := DeliverLearnedEntries();
          assert sends + [] == sends;
        } else {
          assert slots == old(slots)[i := slots[i]];
        }
      }
    }

    method HandleLearn(i: PLIndex, vrnd: Rnd) returns (learned: seq<PLEntry>)
      modifies this
      ensures Out(View(), [], learned, true) ==
              OnLearn(old(View()), i, SlotWithInstance(old(View()), i), vrnd)
    {
      hide Deliver;
      learned := [];
      var inst := EnsureInstance(i);
      var count := (if vrnd in inst.learned then inst.learned[vrnd] else 0) + 1;
      inst := inst.(learned := inst.learned[vrnd := count]);
      if count == Majority(nodes) && (inst.learnedVrnd.None? || vrnd < inst.learnedVrnd.value) {
        inst := inst.(learnedVrnd := Some(vrnd));
      }
      SetInstance(i, inst);
      if count == Majority(nodes) && slots[i].learned.None? && inst.vote.Some?
         && inst.learnedVrnd.value <= inst.vote.value.0 {
        SetLearned(i, inst.learnedVrnd.value, inst.vote.value.1);
        assert slots == old(slots)[i := slots[i]];
        learned := DeliverLearnedEntries();
      } else {
        assert slots == old(slots)[i := slots[i]];
      }
    }

    method SetInstance(i: PLIndex, inst: Instance)
      requires i in slots
      modifies `slots
      ensures slots == old(slots)[i := old(slots)[i].(instance := Some(inst))]
    {
      slots := slots[i := slots[i].(instance := Some(inst))];
    }

    method SetLearned(i: PLIndex, vrnd: Rnd, vval: PLEntry)
      requires i in slots
      modifies `slots
      ensures slots == old(slots)[i := old(slots)[i].(learned := Some((vrnd, vval)))]
    {
      slots := slots[i := slots[i].(learned := Some((vrnd, vval)))];
    }

    method FirstBuffered() returns (i: PLIndex)
      requires buffered != map[]
      ensures i == Least(buffered.Keys)
    {
      var todo := buffered.Keys;
      i :| i in todo;
      todo := todo - {i};
      while todo != {}
        invariant i in buffered && todo <= buffered.Keys
        invariant forall k | k in buffered && k !in todo :: i <= k
        decreases |todo|
      {
        var k :| k in todo;
        if k < i { i := k; }
        todo := todo - {k};
      }
      assert IsLeast(buffered.Keys, i);
    }

    /** Handles one buffered message, or drops one emptied index, if the buffer has fallen behind. */
    method HandleFirstBuffered() returns (again: bool, sends: seq<Send>, learned: seq<PLEntry>)
      requires remote.Keys == set e | e in nodes
      requires Drain(View()).ok
      modifies this
      ensures remote == old(remote)
      ensures again == Drainable(old(View()))
      ensures !again ==> Out(View(), sends, learned, true) == Drain(old(View()))
      ensures again ==> Drain(old(View())) == Then(Out(View(), sends, learned, true), Drain(View()))
      ensures again ==> DrainRank(View(), old(View()))
    {
      again, sends, learned := false, [], [];
      if buffered == map[] {
        return;
      }
      var i := FirstBuffered();
      if i > nextIndex {
        return;
      }
      again := true;
      if buffered[i] == [] {
        buffered := buffered - {i};
        DrainDropsKey(old(View()));
      } else {
        var letter := buffered[i][0];
        buffered := buffered[i := buffered[i][1..]];
        DrainPopsLetter(old(View()));
        sends, learned := HandleMulti(letter.sender, i, letter.body);
      }
    }

    method HandleBufferedMessages() returns (sends: seq<Send>, learned: seq<PLEntry>)
      requires remote.Keys == set e | e in nodes
      requires Drain(View()).ok
      modifies this
      ensures remote == old(remote)
      ensures Out(View(), sends, learned, true) == Drain(old(View()))
    {
      hide Drain, Drainable;
      sends, learned := [], [];
      ghost var all := Drain(View());
      var again := true;
      while again
        invariant remote == old(remote)
        invariant again ==> all == Then(Out(View(), sends, learned, true), Drain(View()))
        invariant !again ==> all == Out(View(), sends, learned, true)
        decreases again, |buffered|, if buffered == map[] then 0 else |buffered[Least(buffered.Keys)]|
      {
        var s, l;
        again, s, l := HandleFirstBuffered();
        ThenAppends(sends, learned, View(), s, l, Drain(View()));
        sends, learned := sends + s, learned + l;
      }
    }

    method LearnAtNext(should: map<PLIndex, Rnd>) returns (did: bool, learned: seq<PLEntry>)
      modifies this
      ensures did == CanInform(old(View()), should)
      ensures did ==> Out(View(), [], learned, true) == Deliver(LearnInformed(old(View()), should))
      ensures !did ==> View() == old(View()) && learned == []
    {
      did, learned := false, [];
      if nextIndex in should && nextIndex in slots && slots[nextIndex].instance.Some? {
        var vote := slots[nextIndex].instance.value.vote;
        if vote.Some? && should[nextIndex] <= vote.value.0 {
          SetLearned(nextIndex, should[nextIndex], vote.value.1);
          learned := DeliverLearnedEntries();
          did := true;
        }
      }
    }

    /** One round of the catch-up loop; `again` says that it has to be repeated. */
    method InformStep(sender: EndpointId, should: map<PLIndex, Rnd>)
      returns (again: bool, sends: seq<Send>, learned: seq<PLEntry>)
      requires remote.Keys == set e | e in nodes
      requires OnInformLearned(View(), sender, should).ok
      modifies this
      ensures remote == old(remote)
      ensures again == CanInform(Drain(old(View())).node, should)
      ensures again ==> Out(View(), sends, learned, true)
                        == Then(Drain(old(View())), Deliver(LearnInformed(Drain(old(View())).node, should)))
      ensures !again ==> Out(View(), sends, learned, true) == OnInformLearned(old(View()), sender, should)
    {
      sends, learned := HandleBufferedMessages();
      var l;
      again, l := LearnAtNext(should);
      learned := learned + l;
      assert sends + [] == sends;
      if !again && nextIndex in should {
        sends := sends + [Send(sender, LogSyncRequest(me, nextIndex))];
      }
    }

    method HandleInformLearned(sender: EndpointId, should: map<PLIndex, Rnd>)
      returns (sends: seq<Send>, learned: seq<PLEntry>)
      requires remote.Keys == set e | e in nodes
      requires OnInformLearned(View(), sender, should).ok
      modifies this
      ensures remote == old(remote)
      ensures Out(View(), sends, learned, true) == OnInformLearned(old(View()), sender, should)
    {
      ghost var all := OnInformLearned(View(), sender, should);
      sends, learned := [], [];
      var again := true;
      while again
        invariant remote == old(remote)
        invariant again ==> all == Then(Out(View(), sends, learned, true), OnInformLearned(View(), sender, should))
        invariant !again ==> all == Out(View(), sends, learned, true)
        decreases again, |IndicesAhead(View(), should)|
      {
        ghost var before := View();
        var s, l;
        again, s, l := InformStep(sender, should);
        if again {
          InformRoundAppends(before, View(), sends, s, learned, l, sender, should);
        }
        sends, learned := sends + s, learned + l;
      }
    }

    method CollectLearned(lo: PLIndex) returns (learned: seq<(PLIndex, Rnd, PLEntry)>)
      requires Retains(View(), lo, nextIndex)
      ensures learned == LearnedRange(View(), lo, nextIndex)
    {
      learned := [];
      if lo >= nextIndex {
        return;
      }
      for i := lo to nextIndex
        invariant |learned| == i - lo
        invariant forall k | 0 <= k < |learned| :: learned[k].0 == lo + k
                    && slots[lo + k].learned == Some((learned[k].1, learned[k].2))
      {
        var (vrnd, vval) := slots[i].learned.value;
        learned := learned + [(i, vrnd, vval)];
      }
      var range := LearnedRange(View(), lo, nextIndex);
      assert forall k | 0 <= k < |learned| :: learned[k] == range[k];
    }

    method HandleLogSyncResponse(entries: seq<(PLIndex, Rnd, PLEntry)>)
      returns (sends: seq<Send>, learned: seq<PLEntry>)
      requires remote.Keys == set e | e in nodes
      requires OnLogSyncResponse(View(), entries).ok
      modifies this
      ensures remote == old(remote)
      ensures Out(View(), sends, learned, true) == OnLogSyncResponse(old(View()), entries)
    {
      for k := 0 to |entries|
        invariant View() == AdoptAll(old(View()), entries[..k])
      {
        assert entries[..k + 1][..k] == entries[..k];
        var (index, vrnd, vval) := entries[k];
        if index >= nextIndex {
          if index in slots {
            if slots[index].learned.None? {
              SetLearned(index, vrnd, vval);
            }
          } else {
            slots := slots[index := Slot(None, Some((vrnd, vval)))];
          }
        }
      }
      assert entries[..|entries|] == entries;
      learned := DeliverLearnedEntries();
      var l;
      sends, l := HandleBufferedMessages();
      learned := learned + l;
    }

    method HandleNextIndexResponse(responder: EndpointId, next: PLIndex)
      requires remote.Keys == set e | e in nodes
      requires OnNextIndexResponse(View(), responder, next).ok
      modifies `remote, `slots
      ensures remote.Keys == old(remote.Keys)
      ensures Out(View(), [], [], true) == OnNextIndexResponse(old(View()), responder, next)
    {
      var lo := MinCompleteIndex();
      remote := remote[responder := if remote[responder] < next then next else remote[responder]];
      assert remote.Keys == old(remote.Keys);
      var hi := MinCompleteIndex();
      hide Purge, MinOver;
      PurgeSlots(lo, hi);
    }

    /** Drops the indices from `lo` up to `hi`. */
    method PurgeSlots(lo: PLIndex, hi: PLIndex)
      modifies `slots
      ensures slots == Purge(old(slots), lo, hi)
    {
      PurgeNone(slots, lo, hi);
      hide Purge;
      if hi <= lo { return; }
      var i: PLIndex := lo;
      while i < hi
        invariant lo <= i <= hi && slots == Purge(old(slots), lo, i)
      {
        PurgeNext(old(slots), lo, i);
        slots := slots - {i};
        i := i + 1;
      }
    }

    method HandlePaxosMessageInternal(msg: Message) returns (sends: seq<Send>, learned: seq<PLEntry>)
      requires remote.Keys == set e | e in nodes
      requires Internal(View(), msg).ok
      modifies this
      ensures remote.Keys == old(remote.Keys)
      ensures Out(View(), sends, learned, true) == Internal(old(View()), msg)
    {
      sends, learned := [], [];
      match msg
      case Multi(sender, index, body) => sends, learned := HandleMulti(sender, index, body);
      case IsLeader(lid) => if lid == leader { heartbeat := 0; }
      case InformLearned(sender, should) => sends, learned := HandleInformLearned(sender, should);
      case LogSyncRequest(sender, next) =>
        var entries := CollectLearned(next);
        sends := [Send(sender, LogSyncResponse(entries))];
      case LogSyncResponse(entries) => sends, learned := HandleLogSyncResponse(entries);
      case NextIndexRequest(sender) => sends := [Send(sender, NextIndexResponse(me, nextIndex))];
      case NextIndexResponse(responder, next) => HandleNextIndexResponse(responder, next);
    }

    method HandlePaxosMessage(msg: Message) returns (sends: seq<Send>, learned: seq<PLEntry>)
      requires remote.Keys == set e | e in nodes
      requires Handle(View(), msg).ok
      modifies this
      ensures remote.Keys == old(remote.Keys)
      ensures Out(View(), sends, learned, true) == Handle(old(View()), msg)
    {
      sends, learned := HandlePaxosMessageInternal(msg);
      var s, l := HandleBufferedMessages();
      sends, learned := sends + s, learned + l;
    }

    method ProposeNextIndex(entry: PLEntry, rand: nat) returns (sends: seq<Send>)
      requires increment > 0
      modifies `slots
      ensures Out(View(), sends, [], true) == Propose(old(View()), entry, rand)
    {
      var inst := EnsureInstance(nextIndex);
      var crnd := NextRound(inst.latestCrnd, increment, rand);
      SetInstance(nextIndex,
        inst.(proposals := inst.proposals[crnd := Proposal(crnd, entry, [])], latestCrnd := crnd));
      assert slots == old(slots)[nextIndex := slots[nextIndex]];
      sends := SendToAll(Multi(me, nextIndex, Prepare(crnd)));
    }

    method Insert(uuid: UUID, payload: int, rand: nat) returns (sends: seq<Send>)
      requires increment > 0
      modifies `slots, `nextInsert
      ensures Out(View(), sends, [], true) == InsertBundle(old(View()), uuid, payload, rand)
    {
      sends := [];
      if leader.eid == me && nextInsert.None? {
        nextInsert := Some((uuid, payload));
        sends := ProposeNextIndex(Bundle(payload), rand);
      }
    }

    method Retry(uuid: UUID, rand: nat) returns (sends: seq<Send>)
      requires increment > 0
      modifies `slots
      ensures Out(View(), sends, [], true) == RetryInsert(old(View()), uuid, rand)
    {
      sends := [];
      if nextInsert.Some? && nextInsert.value.0 == uuid {
        sends := ProposeNextIndex(Bundle(nextInsert.value.1), rand);
      }
    }

    method LearnedRounds(e: EndpointId) returns (should: map<PLIndex, Rnd>)
      requires e in remote && Retains(View(), remote[e], nextIndex)
      ensures should == ShouldLearn(View(), e)
    {
      should := map[];
      if remote[e] >= nextIndex {
        return;
      }
      for i := remote[e] to nextIndex
        invariant should == map j: PLIndex | remote[e] <= j < i :: slots[j].learned.value.0
      {
        should := should[i := slots[i].learned.value.0];
      }
    }

    method InformAll() returns (sends: seq<Send>)
      requires PaxosNode.BroadcastInformLearned(View()).ok
      ensures Out(View(), sends, [], true) == PaxosNode.BroadcastInformLearned(View())
    {
      sends := [];
      ghost var all := PaxosNode.BroadcastInformLearned(View()).sends;
      for k := 0 to |nodes|
        invariant sends == all[..k]
      {
        var should := LearnedRounds(nodes[k]);
        sends := sends + [Send(nodes[k], InformLearned(me, should))];
      }
    }

    method Heartbeat(rand: nat) returns (sends: seq<Send>)
      requires increment > 0 && LeaderHeartbeat(View(), rand).ok
      modifies `slots, `heartbeat
      ensures Out(View(), sends, [], true) == LeaderHeartbeat(old(View()), rand)
    {
      sends := [];
      if leader.eid == me {
        sends := SendToAll(IsLeader(leader));
        var informs := InformAll();
        sends := sends + informs;
      } else {
        heartbeat := heartbeat + 1;
        if heartbeat > threshold {
          sends := ProposeNextIndex(LeaderChanged(LeadershipId(leader.gen + 1, me)), rand);
          var informs := InformAll();
          sends := sends + informs;
        }
      }
    }

    method NextIndexTick() returns (sends: seq<Send>)
      ensures Out(View(), sends, [], true) == NextIndexTimer(View())
    {
      sends := SendToAll(NextIndexRequest(me));
    }
  }
}
