/** The history of one log index: which rounds were asked for, pledged, chosen for and accepted.
    It exists only in proofs. `Good` is what every step of the protocol keeps. */
module PaxosBallots {
  import opened Wrappers
  import opened PaxosTypes
  import opened Sets

  /** An acceptor's promise: to whom it was sent, and the vote it reported. */
  datatype Pledge = Pledge(to: EndpointId, vote: Vote)

  /** An `Accept` broadcast: by whom, for which value, on the strength of which promises. */
  datatype Choice = Choice(proposer: EndpointId, value: PLEntry, quorum: set<EndpointId>)

  datatype Ballots = Ballots(
    asked: set<(EndpointId, Rnd)>,
    offers: set<(EndpointId, PLEntry)>,
    pledges: map<(EndpointId, Rnd), Pledge>,
    choices: map<Rnd, Choice>,
    accepted: map<(EndpointId, Rnd), PLEntry>)

  const NO_BALLOTS := Ballots({}, {}, map[], map[], map[])

  /** A fixed electorate and its majority. */
  datatype Group = Group(all: set<EndpointId>, majority: nat) {
    predicate Valid() { 2 * majority > |all| && 0 < majority <= |all| }
  }

  ghost predicate PledgeOK(b: Ballots, a: EndpointId, r: Rnd)
    requires (a, r) in b.pledges
  {
    var p := b.pledges[(a, r)];
    && (p.to, r) in b.asked
    && (p.vote.Some? ==> p.vote.value.0 < r && (a, p.vote.value.0) in b.accepted
                         && b.accepted[(a, p.vote.value.0)] == p.vote.value.1)
    && forall r' | r' < r && (a, r') in b.accepted :: p.vote.Some? && r' <= p.vote.value.0
  }

  /** `a`'s vote is the highest one reported to this quorum. */
  ghost predicate Highest(b: Ballots, r: Rnd, quorum: set<EndpointId>, a: EndpointId)
    requires forall e | e in quorum :: (e, r) in b.pledges
  {
    && a in quorum && b.pledges[(a, r)].vote.Some?
    && forall e | e in quorum && b.pledges[(e, r)].vote.Some? ::
         b.pledges[(e, r)].vote.value.0 <= b.pledges[(a, r)].vote.value.0
  }

  ghost predicate ChoiceOK(b: Ballots, r: Rnd, g: Group)
    requires r in b.choices
  {
    var c := b.choices[r];
    && c.quorum <= g.all && |c.quorum| >= g.majority
    && (exists e :: (e, c.value) in b.offers)
    && (forall e | e in c.quorum :: (e, r) in b.pledges && b.pledges[(e, r)].to == c.proposer)
    && ((forall e | e in c.quorum :: b.pledges[(e, r)].vote.None?)
        || exists a :: Highest(b, r, c.quorum, a) && b.pledges[(a, r)].vote.value.1 == c.value)
  }

  ghost predicate AcceptedOK(b: Ballots, a: EndpointId, r: Rnd, g: Group)
    requires (a, r) in b.accepted
  {
    a in g.all && r in b.choices && b.accepted[(a, r)] == b.choices[r].value
  }

  ghost predicate Good(b: Ballots, g: Group) {
    && (forall a, r | (a, r) in b.pledges :: PledgeOK(b, a, r))
    && (forall r | r in b.choices :: ChoiceOK(b, r, g))
    && (forall a, r | (a, r) in b.accepted :: AcceptedOK(b, a, r, g))
  }

  ghost function Acceptors(b: Ballots, r: Rnd, g: Group): set<EndpointId> {
    set a | a in g.all && (a, r) in b.accepted
  }

  /** A majority of the acceptors accepted in round `r`. */
  ghost predicate Chosen(b: Ballots, r: Rnd, g: Group) {
    |Acceptors(b, r, g)| >= g.majority
  }

  /** The group settled on `v`. */
  ghost predicate Decided(b: Ballots, r: Rnd, v: PLEntry, g: Group) {
    Chosen(b, r, g) && r in b.choices && b.choices[r].value == v
  }

  lemma {:induction false} ChosenHasChoice(b: Ballots, r: Rnd, g: Group)
    requires Good(b, g) && g.Valid() && Chosen(b, r, g)
    ensures r in b.choices && Decided(b, r, b.choices[r].value, g)
  {
    var a :| a in Acceptors(b, r, g);
    assert AcceptedOK(b, a, r, g);
  }

  lemma {:induction false} ChoiceWasAsked(b: Ballots, r: Rnd, g: Group)
    requires Good(b, g) && g.Valid() && r in b.choices
    ensures (b.choices[r].proposer, r) in b.asked
  {
    assert ChoiceOK(b, r, g);
    var e :| e in b.choices[r].quorum;
    assert PledgeOK(b, e, r);
  }

  /** The heart of Paxos: once round `r` is chosen, every later `Accept` carries its value. */
  lemma {:induction false} ChosenIsStable(b: Ballots, r: Rnd, r2: Rnd, g: Group)
    requires Good(b, g) && g.Valid() && Chosen(b, r, g)
    requires r in b.choices && r2 in b.choices && r <= r2
    ensures b.choices[r2].value == b.choices[r].value
    decreases r2
  {
    if r < r2 {
      assert ChoiceOK(b, r2, g);
      var quorum := b.choices[r2].quorum;
      QuorumsMeet(Acceptors(b, r, g), quorum, g.all);
      var e :| e in Acceptors(b, r, g) && e in quorum;
      assert PledgeOK(b, e, r2);
      var a :| Highest(b, r2, quorum, a) && b.pledges[(a, r2)].vote.value.1 == b.choices[r2].value;
      assert PledgeOK(b, a, r2);
      var k := b.pledges[(a, r2)].vote.value.0;
      assert AcceptedOK(b, a, k, g);
      ChosenIsStable(b, r, k, g);
    }
  }

  /** Two decisions of the same index are the same entry. */
  lemma {:induction false} DecisionsAgree(b: Ballots, r1: Rnd, v1: PLEntry, r2: Rnd, v2: PLEntry, g: Group)
    requires Good(b, g) && g.Valid() && Decided(b, r1, v1, g) && Decided(b, r2, v2, g)
    ensures v1 == v2
  {
    if r1 <= r2 { ChosenIsStable(b, r1, r2, g); } else { ChosenIsStable(b, r2, r1, g); }
  }

  /** Whatever an acceptor accepted at or above a chosen round is the decision: this is why
      `Learn` need not carry the value. */
  lemma {:induction false} AcceptedAboveIsDecision(b: Ballots, a: EndpointId, k: Rnd, r: Rnd, g: Group)
    requires Good(b, g) && g.Valid() && Chosen(b, r, g) && (a, k) in b.accepted && r <= k
    ensures Decided(b, r, b.accepted[(a, k)], g)
  {
    ChosenHasChoice(b, r, g);
    assert AcceptedOK(b, a, k, g);
    ChosenIsStable(b, r, k, g);
  }

  /** Every decision is an entry that some node proposed at this index. */
  lemma {:induction false} DecisionWasOffered(b: Ballots, r: Rnd, v: PLEntry, g: Group)
    requires Good(b, g) && Decided(b, r, v, g)
    ensures exists e :: (e, v) in b.offers
  {
    assert ChoiceOK(b, r, g);
  }

  // ---------------------------------------------------------------------------------------------
  //  Growth
  // ---------------------------------------------------------------------------------------------

  ghost predicate Grows(b: Ballots, b': Ballots) {
    && b.asked <= b'.asked && b.offers <= b'.offers
    && (forall x | x in b.pledges :: x in b'.pledges && b'.pledges[x] == b.pledges[x])
    && (forall r | r in b.choices :: r in b'.choices && b'.choices[r] == b.choices[r])
    && (forall x | x in b.accepted :: x in b'.accepted && b'.accepted[x] == b.accepted[x])
  }

  lemma {:induction false} DecidedGrows(b: Ballots, b': Ballots, g: Group)
    requires Grows(b, b')
    ensures forall r | Chosen(b, r, g) :: Chosen(b', r, g)
    ensures forall r, v | Decided(b, r, v, g) :: Decided(b', r, v, g)
  {
    forall r | Chosen(b, r, g)
      ensures Chosen(b', r, g)
    {
      SubsetSize(Acceptors(b, r, g), Acceptors(b', r, g));
    }
  }

  function Ask(b: Ballots, e: EndpointId, r: Rnd, v: PLEntry): Ballots {
    b.(asked := b.asked + {(e, r)}, offers := b.offers + {(e, v)})
  }

  lemma {:induction false} AskKeepsGood(b: Ballots, e: EndpointId, r: Rnd, v: PLEntry, g: Group)
    requires Good(b, g)
    ensures Good(Ask(b, e, r, v), g) && Grows(b, Ask(b, e, r, v))
  {
    var b' := Ask(b, e, r, v);
    forall a, r' | (a, r') in b'.pledges ensures PledgeOK(b', a, r') { assert PledgeOK(b, a, r'); }
    forall r' | r' in b'.choices ensures ChoiceOK(b', r', g) { KeepChoice(b, b', r', g); }
    forall a, r' | (a, r') in b'.accepted ensures AcceptedOK(b', a, r', g) { assert AcceptedOK(b, a, r', g); }
  }

  lemma {:induction false} KeepChoice(b: Ballots, b': Ballots, r: Rnd, g: Group)
    requires Grows(b, b') && r in b.choices && ChoiceOK(b, r, g)
    ensures ChoiceOK(b', r, g)
  {
    var c := b.choices[r];
    var e :| (e, c.value) in b.offers;
    assert (e, c.value) in b'.offers;
    if a :| Highest(b, r, c.quorum, a) && b.pledges[(a, r)].vote.value.1 == c.value {
      assert Highest(b', r, c.quorum, a);
    }
  }

  function Promised(b: Ballots, a: EndpointId, r: Rnd, p: Pledge): Ballots {
    b.(pledges := b.pledges[(a, r) := p])
  }

  lemma {:induction false} PromiseKeepsGood(b: Ballots, a: EndpointId, r: Rnd, p: Pledge, g: Group)
    requires Good(b, g) && (a, r) !in b.pledges
    requires PledgeOK(Promised(b, a, r, p), a, r)
    ensures Good(Promised(b, a, r, p), g) && Grows(b, Promised(b, a, r, p))
  {
    var b' := Promised(b, a, r, p);
    forall a', r' | (a', r') in b'.pledges ensures PledgeOK(b', a', r') {
      if (a', r') != (a, r) { assert PledgeOK(b, a', r'); }
    }
    forall r' | r' in b'.choices ensures ChoiceOK(b', r', g) { KeepChoice(b, b', r', g); }
    forall a', r' | (a', r') in b'.accepted ensures AcceptedOK(b', a', r', g) { assert AcceptedOK(b, a', r', g); }
  }

  function Choose(b: Ballots, r: Rnd, c: Choice): Ballots {
    b.(choices := b.choices[r := c])
  }

  lemma {:induction false} ChooseKeepsGood(b: Ballots, r: Rnd, c: Choice, g: Group)
    requires Good(b, g) && r !in b.choices && ChoiceOK(Choose(b, r, c), r, g)
    ensures Good(Choose(b, r, c), g) && Grows(b, Choose(b, r, c))
  {
    var b' := Choose(b, r, c);
    forall a', r' | (a', r') in b'.pledges ensures PledgeOK(b', a', r') { assert PledgeOK(b, a', r'); }
    forall r' | r' in b'.choices ensures ChoiceOK(b', r', g) { if r' != r { KeepChoice(b, b', r', g); } }
    forall a', r' | (a', r') in b'.accepted ensures AcceptedOK(b', a', r', g) { assert AcceptedOK(b, a', r', g); }
  }

  function Accepting(b: Ballots, a: EndpointId, r: Rnd, v: PLEntry): Ballots {
    b.(accepted := b.accepted[(a, r) := v])
  }

  lemma {:induction false} AcceptKeepsGood(b: Ballots, a: EndpointId, r: Rnd, v: PLEntry, g: Group)
    requires Good(b, g) && (a, r) !in b.accepted && a in g.all
    requires r in b.choices && b.choices[r].value == v
    requires forall r' | (a, r') in b.pledges :: r' <= r
    ensures Good(Accepting(b, a, r, v), g) && Grows(b, Accepting(b, a, r, v))
  {
    var b' := Accepting(b, a, r, v);
    forall a', r' | (a', r') in b'.pledges ensures PledgeOK(b', a', r') { assert PledgeOK(b, a', r'); }
    forall r' | r' in b'.choices ensures ChoiceOK(b', r', g) { KeepChoice(b, b', r', g); }
    forall a', r' | (a', r') in b'.accepted ensures AcceptedOK(b', a', r', g) {
      if (a', r') != (a, r) { assert AcceptedOK(b, a', r', g); }
    }
  }
}
