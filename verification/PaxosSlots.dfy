/** How one node's slot at one index relates to the history of that index, and that every local
    step keeps this relation while extending the history. */
module PaxosSlots {
  import opened Wrappers
  import opened PaxosTypes
  import opened Sets
  import opened PaxosBallots
  import opened PaxosNode

  /** The letters this node has consumed at this index, and who sent the promises now counted. */
  datatype Aux = Aux(seen: set<Letter>, got: map<Rnd, seq<EndpointId>>)

  const NO_AUX := Aux({}, map[])

  ghost predicate Untouched(b: Ballots, a: EndpointId) {
    && (forall r | (a, r) in b.asked :: false)
    && (forall r | (a, r) in b.pledges :: false)
    && (forall r | (a, r) in b.accepted :: false)
  }

  ghost predicate AcceptorOK(b: Ballots, a: EndpointId, inst: Instance, x: Aux) {
    && (forall r | (a, r) in b.pledges :: r <= inst.rnd)
    && (forall r | (a, r) in b.accepted ::
          r <= inst.rnd && inst.vote.Some? && r <= inst.vote.value.0
          && r in b.choices && Letter(b.choices[r].proposer, Accept(r, b.choices[r].value)) in x.seen)
    && (inst.vote.Some? ==> (a, inst.vote.value.0) in b.accepted
                            && b.accepted[(a, inst.vote.value.0)] == inst.vote.value.1)
  }

  /** The promises counted for round `r` come from distinct acceptors. */
  ghost predicate ProposalOK(b: Ballots, a: EndpointId, r: Rnd, p: Proposal, x: Aux, g: Group) {
    && p.crnd == r && (a, r) in b.asked && (a, p.cval) in b.offers
    && r in x.got && |x.got[r]| == |p.promises| && Distinct(x.got[r])
    && forall j | 0 <= j < |p.promises| ::
         x.got[r][j] in g.all && (x.got[r][j], r) in b.pledges
         && b.pledges[(x.got[r][j], r)] == Pledge(a, p.promises[j])
         && Letter(x.got[r][j], Promise(r, p.promises[j])) in x.seen
  }

  /** The promises behind a past `Accept` of this node are consumed, and can no longer add up. */
  ghost predicate SpentOK(b: Ballots, a: EndpointId, r: Rnd, inst: Instance, x: Aux, g: Group)
    requires r in b.choices
  {
    var c := b.choices[r];
    c.proposer == a ==>
      && r in inst.proposals && r in x.got
      && (forall e | e in c.quorum :: (e, r) in b.pledges && Letter(e, Promise(r, b.pledges[(e, r)].vote)) in x.seen)
      && (|inst.proposals[r].promises| >= g.majority || forall e | e in c.quorum :: e !in x.got[r])
  }

  ghost predicate ProposerOK(b: Ballots, a: EndpointId, inst: Instance, x: Aux, g: Group) {
    && (forall r | (a, r) in b.asked :: r in inst.proposals)
    && (forall r | r in inst.proposals :: ProposalOK(b, a, r, inst.proposals[r], x, g))
    && (forall r | r in b.choices :: SpentOK(b, a, r, inst, x, g))
  }

  ghost function Heard(x: Aux, r: Rnd, g: Group): set<EndpointId> {
    set e | e in g.all && Letter(e, Learn(r)) in x.seen
  }

  function Count(inst: Instance, r: Rnd): nat {
    if r in inst.learned then inst.learned[r] else 0
  }

  /** Each counted `Learn` is from a different acceptor, which did accept. */
  ghost predicate LearnerOK(b: Ballots, inst: Instance, x: Aux, g: Group) {
    && (forall r :: Count(inst, r) == |Heard(x, r, g)|)
    && (forall e, r: Rnd | Letter(e, Learn(r)) in x.seen :: e in g.all && (e, r) in b.accepted)
    && (inst.learnedVrnd.Some? ==> Chosen(b, inst.learnedVrnd.value, g))
  }

  ghost predicate InstanceOK(b: Ballots, a: EndpointId, inst: Instance, x: Aux, g: Group) {
    AcceptorOK(b, a, inst, x) && ProposerOK(b, a, inst, x, g) && LearnerOK(b, inst, x, g)
  }

  ghost predicate LearnedOK(b: Ballots, learned: Vote, g: Group) {
    learned.Some? ==> Decided(b, learned.value.0, learned.value.1, g)
  }

  ghost predicate SlotOK(b: Ballots, a: EndpointId, purged: bool, s: Option<Slot>, x: Aux, g: Group) {
    && (s.Some? ==> LearnedOK(b, s.value.learned, g))
    && (s.Some? && s.value.instance.Some? ==> InstanceOK(b, a, s.value.instance.value, x, g))
    && (s.None? || s.value.instance.None? ==> purged || (Untouched(b, a) && x == NO_AUX))
  }

  // ---------------------------------------------------------------------------------------------
  //  Steps of other nodes
  // ---------------------------------------------------------------------------------------------

  /** The history grew, but not by anything `a` did. */
  ghost predicate NotBy(b: Ballots, b': Ballots, a: EndpointId) {
    && Grows(b, b')
    && (forall r | (a, r) in b'.asked :: (a, r) in b.asked)
    && (forall r | (a, r) in b'.pledges :: (a, r) in b.pledges)
    && (forall r | (a, r) in b'.accepted :: (a, r) in b.accepted)
    && (forall r | r in b'.choices && b'.choices[r].proposer == a :: r in b.choices)
  }

  lemma {:induction false} OthersKeepSlot(b: Ballots, b': Ballots, a: EndpointId, purged: bool, s: Option<Slot>, x: Aux, g: Group)
    requires SlotOK(b, a, purged, s, x, g) && NotBy(b, b', a)
    ensures SlotOK(b', a, purged, s, x, g)
  {
    DecidedGrows(b, b', g);
    if s.Some? && s.value.instance.Some? {
      var inst := s.value.instance.value;
      forall r | r in inst.proposals
        ensures ProposalOK(b', a, r, inst.proposals[r], x, g)
      {
        assert ProposalOK(b, a, r, inst.proposals[r], x, g);
      }
      forall r | r in b'.choices
        ensures SpentOK(b', a, r, inst, x, g)
      {
        if b'.choices[r].proposer == a { assert SpentOK(b, a, r, inst, x, g); }
      }
    }
  }

  // ---------------------------------------------------------------------------------------------
  //  Own steps
  // ---------------------------------------------------------------------------------------------

  lemma {:induction false} FreshInstanceOK(b: Ballots, a: EndpointId, g: Group)
    requires Good(b, g) && g.Valid() && Untouched(b, a)
    ensures InstanceOK(b, a, NEW_INSTANCE, NO_AUX, g)
  {
    forall r ensures Count(NEW_INSTANCE, r) == |Heard(NO_AUX, r, g)| { assert Heard(NO_AUX, r, g) == {}; }
    forall r | r in b.choices
      ensures SpentOK(b, a, r, NEW_INSTANCE, NO_AUX, g)
    {
      ChoiceWasAsked(b, r, g);
    }
  }

  /** Creating an instance on demand keeps the relation. */
  lemma {:induction false} EnsureKeepsSlot(b: Ballots, a: EndpointId, n: Node, i: PLIndex, x: Aux, g: Group)
    requires Good(b, g) && g.Valid()
    requires SlotOK(b, a, false, if i in n.slots then Some(n.slots[i]) else None, x, g)
    ensures SlotOK(b, a, false, Some(SlotWithInstance(n, i)), x, g)
  {
    if i !in n.slots || n.slots[i].instance.None? {
      FreshInstanceOK(b, a, g);
    }
  }

  lemma {:induction false} PrepareKeepsSlot(b: Ballots, a: EndpointId, s: Slot, x: Aux, g: Group, sender: EndpointId, crnd: Rnd)
    returns (b': Ballots)
    requires Good(b, g) && SlotOK(b, a, false, Some(s), x, g) && s.instance.Some?
    requires (sender, crnd) in b.asked
    ensures Good(b', g) && Grows(b, b') && SlotOK(b', a, false, Some(PreparedSlot(s, crnd)), x, g)
    ensures forall e | e != a :: NotBy(b, b', e)
    ensures b'.offers == b.offers
    ensures crnd > s.instance.value.rnd ==>
              && (a, crnd) !in b.pledges
              && (a, crnd) in b'.pledges && b'.pledges[(a, crnd)] == Pledge(sender, s.instance.value.vote)
  {
    var inst := s.instance.value;
    b' := b;
    if crnd > inst.rnd {
      var p := Pledge(sender, inst.vote);
      b' := Promised(b, a, crnd, p);
      PromiseKeepsGood(b, a, crnd, p, g);
      DecidedGrows(b, b', g);
      PrepareKeepsInstance(b, a, inst, x, g, crnd, p);
      hide InstanceOK, Good;
    }
  }

  lemma {:induction false} PrepareKeepsInstance(b: Ballots, a: EndpointId, inst: Instance, x: Aux, g: Group, crnd: Rnd, p: Pledge)
    requires InstanceOK(b, a, inst, x, g) && crnd > inst.rnd
    ensures InstanceOK(Promised(b, a, crnd, p), a, inst.(rnd := crnd), x, g)
  {
    var b', inst' := Promised(b, a, crnd, p), inst.(rnd := crnd);
    forall r | r in inst'.proposals ensures ProposalOK(b', a, r, inst'.proposals[r], x, g) {
      assert ProposalOK(b, a, r, inst.proposals[r], x, g);
    }
    forall r | r in b'.choices ensures SpentOK(b', a, r, inst', x, g) {
      assert SpentOK(b, a, r, inst, x, g);
    }
    assert forall r :: Count(inst', r) == Count(inst, r);
    assert inst.learnedVrnd.Some? ==> Chosen(b', inst.learnedVrnd.value, g) by { ChosenAlike(b, b', g); }
    hide ProposalOK, SpentOK, Chosen;
  }

  lemma {:induction false} ChosenAlike(b: Ballots, b': Ballots, g: Group)
    requires b'.accepted == b.accepted
    ensures forall r :: Chosen(b, r, g) ==> Chosen(b', r, g)
  {
    forall r ensures Acceptors(b', r, g) == Acceptors(b, r, g) { }
  }

  lemma {:induction false} AskKeepsSlot(b: Ballots, a: EndpointId, s: Slot, x: Aux, g: Group, crnd: Rnd, entry: PLEntry)
    returns (b': Ballots, x': Aux)
    requires Good(b, g) && SlotOK(b, a, false, Some(s), x, g) && s.instance.Some?
    ensures Good(b', g) && Grows(b, b') && SlotOK(b', a, false, Some(AskedSlot(s, crnd, entry)), x', g)
    ensures forall e | e != a :: NotBy(b, b', e)
    ensures (a, crnd) in b'.asked && b'.offers == b.offers + {(a, entry)}
    ensures x'.seen == x.seen
  {
    b' := Ask(b, a, crnd, entry);
    x' := x.(got := x.got[crnd := []]);
    AskKeepsGood(b, a, crnd, entry, g);
    DecidedGrows(b, b', g);
    AskKeepsProposer(b, a, s.instance.value, x, g, crnd, entry);
    AskKeepsLearner(b, a, s.instance.value, x, g, crnd, entry);
  }

  function Asked(inst: Instance, crnd: Rnd, entry: PLEntry): Instance {
    inst.(proposals := inst.proposals[crnd := Proposal(crnd, entry, [])], latestCrnd := crnd)
  }

  lemma {:induction false} AskKeepsProposer(b: Ballots, a: EndpointId, inst: Instance, x: Aux, g: Group, crnd: Rnd, entry: PLEntry)
    requires ProposerOK(b, a, inst, x, g)
    ensures ProposerOK(Ask(b, a, crnd, entry), a, Asked(inst, crnd, entry), x.(got := x.got[crnd := []]), g)
  {
    var b', x', inst' := Ask(b, a, crnd, entry), x.(got := x.got[crnd := []]), Asked(inst, crnd, entry);
    forall r | r in inst'.proposals ensures ProposalOK(b', a, r, inst'.proposals[r], x', g) {
      if r != crnd { assert ProposalOK(b, a, r, inst.proposals[r], x, g); }
    }
    forall r | r in b'.choices ensures SpentOK(b', a, r, inst', x', g) {
      assert SpentOK(b, a, r, inst, x, g);
    }
  }

  lemma {:induction false} AskKeepsLearner(b: Ballots, a: EndpointId, inst: Instance, x: Aux, g: Group, crnd: Rnd, entry: PLEntry)
    requires LearnerOK(b, inst, x, g)
    ensures LearnerOK(Ask(b, a, crnd, entry), Asked(inst, crnd, entry), x.(got := x.got[crnd := []]), g)
  {
    var x', inst' := x.(got := x.got[crnd := []]), Asked(inst, crnd, entry);
    forall r ensures Count(inst', r) == |Heard(x', r, g)| {
      assert Count(inst, r) == |Heard(x, r, g)|;
      assert Heard(x', r, g) == Heard(x, r, g);
    }
    assert Grows(b, Ask(b, a, crnd, entry));
    DecidedGrows(b, Ask(b, a, crnd, entry), g);
  }

  lemma {:induction false} LearnKeepsSlot(b: Ballots, a: EndpointId, s: Slot, x: Aux, g: Group, e: EndpointId, vrnd: Rnd)
    returns (x': Aux)
    requires Good(b, g) && g.Valid() && SlotOK(b, a, false, Some(s), x, g) && s.instance.Some?
    requires Letter(e, Learn(vrnd)) !in x.seen && e in g.all && (e, vrnd) in b.accepted
    ensures x' == x.(seen := x.seen + {Letter(e, Learn(vrnd))})
    ensures SlotOK(b, a, false, Some(LearnedSlot(s, vrnd, g.majority)), x', g)
  {
    x' := x.(seen := x.seen + {Letter(e, Learn(vrnd))});
    var inst := s.instance.value;
    LearnKeepsInstance(b, a, inst, x, g, e, vrnd);
    var inst' := CountLearn(inst, vrnd, g.majority);
    var s' := LearnedSlot(s, vrnd, g.majority);
    if s.learned.None? && s'.learned.Some? {
      AcceptedAboveIsDecision(b, a, inst.vote.value.0, inst'.learnedVrnd.value, g);
    }
  }

  lemma {:induction false} LearnKeepsInstance(b: Ballots, a: EndpointId, inst: Instance, x: Aux, g: Group, e: EndpointId, vrnd: Rnd)
    requires InstanceOK(b, a, inst, x, g)
    requires Letter(e, Learn(vrnd)) !in x.seen && e in g.all && (e, vrnd) in b.accepted
    ensures InstanceOK(b, a, CountLearn(inst, vrnd, g.majority), x.(seen := x.seen + {Letter(e, Learn(vrnd))}), g)
  {
    var x' := x.(seen := x.seen + {Letter(e, Learn(vrnd))});
    var inst' := CountLearn(inst, vrnd, g.majority);
    KeepProposer(b, a, inst, inst', x, x', g);
    LearnKeepsLearner(b, inst, x, g, e, vrnd);
  }

  lemma {:induction false} LearnKeepsLearner(b: Ballots, inst: Instance, x: Aux, g: Group, e: EndpointId, vrnd: Rnd)
    requires LearnerOK(b, inst, x, g)
    requires Letter(e, Learn(vrnd)) !in x.seen && e in g.all && (e, vrnd) in b.accepted
    ensures LearnerOK(b, CountLearn(inst, vrnd, g.majority), x.(seen := x.seen + {Letter(e, Learn(vrnd))}), g)
  {
    var x' := x.(seen := x.seen + {Letter(e, Learn(vrnd))});
    var inst' := CountLearn(inst, vrnd, g.majority);
    forall r ensures Count(inst', r) == |Heard(x', r, g)| {
      assert Count(inst, r) == |Heard(x, r, g)|;
      HeardOneMore(x, g, e, vrnd, r);
    }
    if inst'.learned[vrnd] == g.majority {
      assert Count(inst', vrnd) == |Heard(x', vrnd, g)|;
      HeardAccepted(b, x', g, vrnd);
    }
  }

  lemma {:induction false} HeardOneMore(x: Aux, g: Group, e: EndpointId, vrnd: Rnd, r: Rnd)
    requires Letter(e, Learn(vrnd)) !in x.seen && e in g.all
    ensures |Heard(x.(seen := x.seen + {Letter(e, Learn(vrnd))}), r, g)| == |Heard(x, r, g)| + if r == vrnd then 1 else 0
  {
    var x' := x.(seen := x.seen + {Letter(e, Learn(vrnd))});
    assert e !in Heard(x, vrnd, g);
    assert Heard(x', r, g) == if r == vrnd then Heard(x, r, g) + {e} else Heard(x, r, g);
  }

  lemma {:induction false} HeardAccepted(b: Ballots, x: Aux, g: Group, r: Rnd)
    requires forall e | Letter(e, Learn(r)) in x.seen :: (e, r) in b.accepted
    requires |Heard(x, r, g)| == g.majority
    ensures Chosen(b, r, g)
  {
    SubsetSize(Heard(x, r, g), Acceptors(b, r, g));
  }

  /** Consuming a letter other than a promise leaves the proposer's part alone. */
  lemma {:induction false} KeepProposer(b: Ballots, a: EndpointId, inst: Instance, inst': Instance, x: Aux, x': Aux, g: Group)
    requires ProposerOK(b, a, inst, x, g)
    requires inst'.proposals == inst.proposals && x'.got == x.got && x.seen <= x'.seen
    ensures ProposerOK(b, a, inst', x', g)
  {
    forall r | r in inst'.proposals ensures ProposalOK(b, a, r, inst'.proposals[r], x', g) {
      assert ProposalOK(b, a, r, inst.proposals[r], x, g);
    }
    forall r | r in b.choices ensures SpentOK(b, a, r, inst', x', g) {
      assert SpentOK(b, a, r, inst, x, g);
    }
  }

  lemma {:induction false} AcceptKeepsSlot(b: Ballots, a: EndpointId, s: Slot, x: Aux, g: Group, p: EndpointId, crnd: Rnd, cval: PLEntry)
    returns (b': Ballots, x': Aux)
    requires Good(b, g) && g.Valid() && SlotOK(b, a, false, Some(s), x, g) && s.instance.Some? && a in g.all
    requires Letter(p, Accept(crnd, cval)) !in x.seen
    requires crnd in b.choices && b.choices[crnd].proposer == p && b.choices[crnd].value == cval
    ensures x' == x.(seen := x.seen + {Letter(p, Accept(crnd, cval))})
    ensures Good(b', g) && Grows(b, b') && SlotOK(b', a, false, Some(AcceptedSlot(s, crnd, cval)), x', g)
    ensures forall e | e != a :: NotBy(b, b', e)
    ensures b'.offers == b.offers
    ensures crnd >= s.instance.value.rnd ==> (a, crnd) !in b.accepted && (a, crnd) in b'.accepted
  {
    x' := x.(seen := x.seen + {Letter(p, Accept(crnd, cval))});
    b' := b;
    var inst := s.instance.value;
    AcceptIsNew(b, a, inst, x, g, p, crnd, cval);
    AcceptingIsOwn(b, a, crnd, cval);
    hide Good, InstanceOK, Chosen, Decided, NotBy;
    if crnd >= inst.rnd {
      b' := Accepting(b, a, crnd, cval);
      AcceptKeepsGood(b, a, crnd, cval, g);
      AcceptKeepsInstance(b, a, inst, x, g, p, crnd, cval);
      DecidedGrows(b, b', g);
      var s' := AcceptedSlot(s, crnd, cval);
      if s.learned.None? && s'.learned.Some? {
        AcceptedAboveIsDecision(b', a, crnd, inst.learnedVrnd.value, g);
      }
    } else {
      RefusalKeepsInstance(b, a, inst, x, g, p, crnd, cval);
    }
  }

  lemma {:induction false} AcceptingIsOwn(b: Ballots, a: EndpointId, crnd: Rnd, cval: PLEntry)
    requires (a, crnd) !in b.accepted
    ensures forall e | e != a :: NotBy(b, Accepting(b, a, crnd, cval), e)
  {
  }

  /** An accept that is not below the promised round is the first of its round here. */
  lemma {:induction false} AcceptIsNew(b: Ballots, a: EndpointId, inst: Instance, x: Aux, g: Group, p: EndpointId, crnd: Rnd, cval: PLEntry)
    requires InstanceOK(b, a, inst, x, g) && Letter(p, Accept(crnd, cval)) !in x.seen
    requires crnd in b.choices && b.choices[crnd].proposer == p && b.choices[crnd].value == cval
    ensures crnd >= inst.rnd ==> (a, crnd) !in b.accepted && forall r | (a, r) in b.pledges :: r <= crnd
    ensures inst.learnedVrnd.Some? ==> Chosen(b, inst.learnedVrnd.value, g)
  {
    hide ProposerOK, Chosen;
  }

  lemma {:induction false} RefusalKeepsInstance(b: Ballots, a: EndpointId, inst: Instance, x: Aux, g: Group, p: EndpointId, crnd: Rnd, cval: PLEntry)
    requires InstanceOK(b, a, inst, x, g)
    ensures InstanceOK(b, a, inst, x.(seen := x.seen + {Letter(p, Accept(crnd, cval))}), g)
  {
    var x' := x.(seen := x.seen + {Letter(p, Accept(crnd, cval))});
    KeepProposer(b, a, inst, inst, x, x', g);
    AcceptKeepsLearner(b, b, inst, inst, x, x', g, p, crnd, cval);
    hide ProposerOK, LearnerOK;
  }

  lemma {:induction false} AcceptKeepsInstance(b: Ballots, a: EndpointId, inst: Instance, x: Aux, g: Group, p: EndpointId, crnd: Rnd, cval: PLEntry)
    requires InstanceOK(b, a, inst, x, g) && (a, crnd) !in b.accepted && crnd >= inst.rnd
    requires crnd in b.choices && b.choices[crnd].proposer == p && b.choices[crnd].value == cval
    ensures InstanceOK(Accepting(b, a, crnd, cval), a, inst.(rnd := crnd, vote := Some((crnd, cval))),
                       x.(seen := x.seen + {Letter(p, Accept(crnd, cval))}), g)
  {
    var x' := x.(seen := x.seen + {Letter(p, Accept(crnd, cval))});
    var b' := Accepting(b, a, crnd, cval);
    var inst' := inst.(rnd := crnd, vote := Some((crnd, cval)));
    KeepProposer(b, a, inst, inst', x, x', g);
    AcceptKeepsProposer(b, b', a, inst', x', g);
    AcceptKeepsLearner(b, b', inst, inst', x, x', g, p, crnd, cval);
  }

  lemma {:induction false} AcceptKeepsLearner(b: Ballots, b': Ballots, inst: Instance, inst': Instance, x: Aux, x': Aux, g: Group,
                           p: EndpointId, crnd: Rnd, cval: PLEntry)
    requires LearnerOK(b, inst, x, g) && Grows(b, b')
    requires inst'.learned == inst.learned && inst'.learnedVrnd == inst.learnedVrnd
    requires x'.seen == x.seen + {Letter(p, Accept(crnd, cval))}
    ensures LearnerOK(b', inst', x', g)
  {
    DecidedGrows(b, b', g);
    forall r ensures Count(inst', r) == |Heard(x', r, g)| {
      assert Count(inst, r) == |Heard(x, r, g)|;
      assert Heard(x', r, g) == Heard(x, r, g);
    }
  }

  lemma {:induction false} AcceptKeepsProposer(b: Ballots, b': Ballots, a: EndpointId, inst: Instance, x: Aux, g: Group)
    requires ProposerOK(b, a, inst, x, g) && Grows(b, b')
    requires b' == b.(accepted := b'.accepted)
    ensures ProposerOK(b', a, inst, x, g)
  {
    forall r | r in inst.proposals ensures ProposalOK(b', a, r, inst.proposals[r], x, g) {
      assert ProposalOK(b, a, r, inst.proposals[r], x, g);
    }
    forall r | r in b'.choices ensures SpentOK(b', a, r, inst, x, g) {
      assert SpentOK(b, a, r, inst, x, g);
    }
  }

  // ---------------------------------------------------------------------------------------------
  //  Promises
  // ---------------------------------------------------------------------------------------------

  lemma {:induction false} BestVoteIsHighest(promises: seq<Vote>)
    ensures BestVote(promises).None? ==> forall j | 0 <= j < |promises| :: promises[j].None?
    ensures BestVote(promises).Some? ==> BestVote(promises) in promises
    ensures forall j | 0 <= j < |promises| && promises[j].Some? ::
              BestVote(promises).Some? && promises[j].value.0 <= BestVote(promises).value.0
  {
    if promises != [] {
      var init := promises[..|promises| - 1];
      BestVoteIsHighest(init);
      forall j | 0 <= j < |promises| - 1 ensures promises[j] == init[j] {}
    }
  }

  ghost function Senders(s: seq<EndpointId>): set<EndpointId> {
    set e | e in s
  }

  /** A majority of promises for a round can be gathered only once, so the round was never used. */
  lemma {:induction false} RoundIsUnused(b: Ballots, a: EndpointId, inst: Instance, x: Aux, g: Group, e: EndpointId, rnd: Rnd, vote: Vote)
    requires Good(b, g) && g.Valid() && ProposerOK(b, a, inst, x, g)
    requires Letter(e, Promise(rnd, vote)) !in x.seen && e in g.all
    requires (e, rnd) in b.pledges && b.pledges[(e, rnd)] == Pledge(a, vote)
    requires rnd in inst.proposals && |inst.proposals[rnd].promises| + 1 == g.majority
    ensures rnd !in b.choices
  {
    assert ProposalOK(b, a, rnd, inst.proposals[rnd], x, g);
    var mine := Senders(x.got[rnd] + [e]);
    if rnd in b.choices {
      var c := b.choices[rnd];
      assert ChoiceOK(b, rnd, g) && SpentOK(b, a, rnd, inst, x, g);
      NewPromiser(b, a, inst, x, g, e, rnd, vote);
      DistinctSize(x.got[rnd] + [e]);
      QuorumsMeet(mine, c.quorum, g.all);
    }
  }

  lemma {:induction false} NewPromiser(b: Ballots, a: EndpointId, inst: Instance, x: Aux, g: Group, e: EndpointId, rnd: Rnd, vote: Vote)
    requires rnd in inst.proposals && ProposalOK(b, a, rnd, inst.proposals[rnd], x, g)
    requires Letter(e, Promise(rnd, vote)) !in x.seen && e in g.all
    requires (e, rnd) in b.pledges && b.pledges[(e, rnd)] == Pledge(a, vote)
    ensures e !in x.got[rnd] && Distinct(x.got[rnd] + [e])
    ensures Senders(x.got[rnd] + [e]) <= g.all
  {
  }

  /** The value broadcast is the highest reported one, or the proposer's own if none was. */
  lemma {:induction false} ChoiceIsSound(b: Ballots, a: EndpointId, r: Rnd, p: Proposal, x: Aux, g: Group)
    requires Good(b, g) && ProposalOK(b, a, r, p, x, g) && r !in b.choices && |p.promises| >= g.majority
    ensures ChoiceOK(Choose(b, r, Choice(a, ValueToAccept(p), Senders(x.got[r]))), r, g)
  {
    var quorum := Senders(x.got[r]);
    var c := Choice(a, ValueToAccept(p), quorum);
    var b' := Choose(b, r, c);
    DistinctSize(x.got[r]);
    BestVoteIsHighest(p.promises);
    var best := BestVote(p.promises);
    forall e | e in quorum
      ensures exists j :: 0 <= j < |p.promises| && x.got[r][j] == e && b.pledges[(e, r)] == Pledge(a, p.promises[j])
    {
      var j :| 0 <= j < |x.got[r]| && x.got[r][j] == e;
    }
    if best.None? {
      assert (a, c.value) in b'.offers;
    } else {
      var j :| 0 <= j < |p.promises| && p.promises[j] == best;
      var w := x.got[r][j];
      assert w in quorum && Highest(b', r, quorum, w);
      assert PledgeOK(b, w, r);
      assert AcceptedOK(b, w, best.value.0, g);
      assert ChoiceOK(b, best.value.0, g);
      var e :| (e, c.value) in b.offers;
      assert (e, c.value) in b'.offers;
    }
  }

  /** Counting one more promise. */
  lemma {:induction false} CountPromise(b: Ballots, a: EndpointId, inst: Instance, x: Aux, g: Group, e: EndpointId, rnd: Rnd, vote: Vote)
    returns (inst': Instance, x': Aux)
    requires InstanceOK(b, a, inst, x, g)
    requires Letter(e, Promise(rnd, vote)) !in x.seen && e in g.all
    requires (e, rnd) in b.pledges && b.pledges[(e, rnd)] == Pledge(a, vote)
    requires rnd in inst.proposals
    ensures inst' == inst.(proposals := inst.proposals[rnd := inst.proposals[rnd].(promises := inst.proposals[rnd].promises + [vote])])
    ensures x' == Aux(x.seen + {Letter(e, Promise(rnd, vote))}, x.got[rnd := x.got[rnd] + [e]])
    ensures InstanceOK(b, a, inst', x', g)
  {
    var p := inst.proposals[rnd];
    assert ProposalOK(b, a, rnd, p, x, g);
    NewPromiser(b, a, inst, x, g, e, rnd, vote);
    var p' := p.(promises := p.promises + [vote]);
    inst' := inst.(proposals := inst.proposals[rnd := p']);
    x' := Aux(x.seen + {Letter(e, Promise(rnd, vote))}, x.got[rnd := x.got[rnd] + [e]]);
    forall r | r in inst'.proposals ensures ProposalOK(b, a, r, inst'.proposals[r], x', g) {
      assert ProposalOK(b, a, r, inst.proposals[r], x, g);
    }
    forall r | r in b.choices ensures SpentOK(b, a, r, inst', x', g) {
      assert SpentOK(b, a, r, inst, x, g);
    }
    forall r ensures Count(inst', r) == |Heard(x', r, g)| {
      assert Count(inst, r) == |Heard(x, r, g)|;
      assert Heard(x', r, g) == Heard(x, r, g);
    }
  }

  lemma {:induction false} PromiseKeepsSlot(b: Ballots, a: EndpointId, s: Slot, x: Aux, g: Group, e: EndpointId, rnd: Rnd, vote: Vote)
    returns (b': Ballots, x': Aux)
    requires Good(b, g) && g.Valid() && SlotOK(b, a, false, Some(s), x, g) && s.instance.Some?
    requires Letter(e, Promise(rnd, vote)) !in x.seen && e in g.all
    requires (e, rnd) in b.pledges && b.pledges[(e, rnd)] == Pledge(a, vote)
    ensures rnd in s.instance.value.proposals
    ensures x'.seen == x.seen + {Letter(e, Promise(rnd, vote))}
    ensures Good(b', g) && Grows(b, b') && SlotOK(b', a, false, Some(PromisedSlot(s, rnd, vote)), x', g)
    ensures forall w | w != a :: NotBy(b, b', w)
    ensures b'.offers == b.offers
    ensures var p := PromisedSlot(s, rnd, vote).instance.value.proposals[rnd];
            |p.promises| == g.majority ==>
              && p.crnd == rnd && rnd !in b.choices && rnd in b'.choices
              && b'.choices[rnd].proposer == a && b'.choices[rnd].value == ValueToAccept(p)
  {
    assert PledgeOK(b, e, rnd);
    var inst';
    b', inst', x' := PromiseKeepsInstance(b, a, s.instance.value, x, g, e, rnd, vote);
    DecidedGrows(b, b', g);
  }

  lemma {:induction false} PromiseKeepsInstance(b: Ballots, a: EndpointId, inst: Instance, x: Aux, g: Group, e: EndpointId, rnd: Rnd, vote: Vote)
    returns (b': Ballots, inst': Instance, x': Aux)
    requires Good(b, g) && g.Valid() && InstanceOK(b, a, inst, x, g)
    requires Letter(e, Promise(rnd, vote)) !in x.seen && e in g.all
    requires (e, rnd) in b.pledges && b.pledges[(e, rnd)] == Pledge(a, vote)
    requires rnd in inst.proposals
    ensures inst' == inst.(proposals := inst.proposals[rnd := inst.proposals[rnd].(promises := inst.proposals[rnd].promises + [vote])])
    ensures x'.seen == x.seen + {Letter(e, Promise(rnd, vote))}
    ensures Good(b', g) && Grows(b, b') && InstanceOK(b', a, inst', x', g)
    ensures forall w | w != a :: NotBy(b, b', w)
    ensures b'.offers == b.offers
    ensures var p := inst'.proposals[rnd];
            |p.promises| == g.majority ==>
              && p.crnd == rnd && rnd !in b.choices && rnd in b'.choices
              && b'.choices[rnd].proposer == a && b'.choices[rnd].value == ValueToAccept(p)
  {
    inst', x' := CountPromise(b, a, inst, x, g, e, rnd, vote);
    var p := inst'.proposals[rnd];
    assert ProposalOK(b, a, rnd, p, x', g);
    b' := b;
    if |p.promises| == g.majority {
      RoundIsUnused(b, a, inst, x, g, e, rnd, vote);
      ChoiceIsSound(b, a, rnd, p, x', g);
      b' := MakeChoice(b, a, inst', x', g, rnd);
    }
  }

  lemma {:induction false} MakeChoice(b: Ballots, a: EndpointId, inst: Instance, x: Aux, g: Group, rnd: Rnd) returns (b': Ballots)
    requires Good(b, g) && InstanceOK(b, a, inst, x, g) && rnd in inst.proposals && rnd in x.got && rnd !in b.choices
    requires |inst.proposals[rnd].promises| == g.majority
    requires ChoiceOK(Choose(b, rnd, Choice(a, ValueToAccept(inst.proposals[rnd]), Senders(x.got[rnd]))), rnd, g)
    ensures b' == Choose(b, rnd, Choice(a, ValueToAccept(inst.proposals[rnd]), Senders(x.got[rnd])))
    ensures Good(b', g) && Grows(b, b') && InstanceOK(b', a, inst, x, g)
    ensures forall w | w != a :: NotBy(b, b', w)
  {
    var c := Choice(a, ValueToAccept(inst.proposals[rnd]), Senders(x.got[rnd]));
    b' := Choose(b, rnd, c);
    ChooseKeepsGood(b, rnd, c, g);
    ChoiceKeepsInstance(b, a, inst, x, g, rnd);
  }

  lemma {:induction false} ChoiceKeepsInstance(b: Ballots, a: EndpointId, inst: Instance, x: Aux, g: Group, rnd: Rnd)
    requires InstanceOK(b, a, inst, x, g) && rnd in inst.proposals && rnd in x.got && rnd !in b.choices
    requires |inst.proposals[rnd].promises| == g.majority
    ensures InstanceOK(Choose(b, rnd, Choice(a, ValueToAccept(inst.proposals[rnd]), Senders(x.got[rnd]))), a, inst, x, g)
  {
    var p := inst.proposals[rnd];
    var b' := Choose(b, rnd, Choice(a, ValueToAccept(p), Senders(x.got[rnd])));
    assert Grows(b, b');
    DecidedGrows(b, b', g);
    forall r | r in inst.proposals ensures ProposalOK(b', a, r, inst.proposals[r], x, g) {
      assert ProposalOK(b, a, r, inst.proposals[r], x, g);
    }
    forall r | r in b'.choices ensures SpentOK(b', a, r, inst, x, g) {
      if r != rnd { assert SpentOK(b, a, r, inst, x, g); }
      else { assert ProposalOK(b, a, rnd, p, x, g); }
    }
  }
}
