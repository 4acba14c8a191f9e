/** What the group guarantees in every run: agreement, one `Accept` per round, honest counting,
    a log that leadership governs, retention of what may still be asked for, and no failed `unwrap`. */
module PaxosTheorems {
  import opened Wrappers
  import opened PaxosTypes
  import opened PaxosBallots
  import opened PaxosNode
  import opened PaxosSlots
  import opened PaxosSystem
  import opened PaxosInvariant
  import opened PaxosHandlers
  import opened PaxosSafety
  import opened PaxosCounting

  // ---------------------------------------------------------------------------------------------
  //  Runs have histories
  // ---------------------------------------------------------------------------------------------

  const NO_HIST := Hist(map[], map[])

  lemma {:induction false} InitialWires(cfg: Config)
    requires cfg.Valid()
    ensures var s := InitialSys(cfg); WiresShape(cfg, s.wires)
    ensures forall p, q | (p, q) in InitialSys(cfg).wires :: InitialSys(cfg).wires[(p, q)] == Chan([], 0)
  {
  }

  lemma {:induction false} InitialNodes(cfg: Config)
    requires cfg.Valid()
    ensures var s := InitialSys(cfg); NodesShape(cfg, s.nodes) && s.logs.Keys == Senders(cfg.members)
  {
    var s := InitialSys(cfg);
    forall a | a in s.nodes ensures NodeShape(cfg, a, s.nodes[a]) {
      assert s.nodes[a].remote.Keys == Senders(cfg.members);
    }
    assert s.nodes.Keys == Senders(cfg.members);
    assert s.logs.Keys == Senders(cfg.members);
  }

  lemma {:induction false} InitialInv(cfg: Config)
    requires cfg.Valid()
    ensures Inv(cfg, InitialSys(cfg), NO_HIST)
  {
    hide NodesShape, WiresShape, Senders, SlotsOK, BallotsOK, InitialSys, NodesOK, WireOK, GroupOf;
    InitialWires(cfg);
    InitialNodes(cfg);
    InitialSlots(cfg);
    InitialProgress(cfg);
  }

  lemma {:induction false} InitialSlots(cfg: Config)
    requires cfg.Valid()
    ensures var s := InitialSys(cfg);
            && SlotsOK(cfg, s.nodes, NO_HIST) && BallotsOK(cfg, NO_HIST) && OffersOK(cfg, s.logs, NO_HIST)
            && ReceivedOK(s.wires, s.nodes, NO_HIST)
  {
    hide Senders, WiresShape;
  }

  lemma {:induction false} InitialProgress(cfg: Config)
    requires cfg.Valid()
    ensures var s := InitialSys(cfg); NodesOK(cfg, s, NO_HIST) && SyncOK(s) && WiresOK(cfg, s.wires, NO_HIST)
  {
    hide Senders;
    InitialWires(cfg);
  }

  /** The proposals of the history are events of the run. */
  ghost predicate OffersHappened(states: seq<Sys>, events: seq<Event>, n: nat, h: Hist)
    requires n <= |events| && |events| < |states|
  {
    forall i, p, v | (p, v) in At(h, i).offers :: exists k :: 0 <= k < n && Proposes(states[k], events[k], p, i, v)
  }

  /** Every state of a run has a history, which grows from state to state. */
  lemma {:induction false} RunHistories(cfg: Config, states: seq<Sys>, events: seq<Event>, n: nat) returns (hs: seq<Hist>)
    requires cfg.Valid() && Run(cfg, states, events) && n <= |events|
    ensures |hs| == n + 1
    ensures forall k | 0 <= k <= n :: Inv(cfg, states[k], hs[k]) && OffersHappened(states, events, k, hs[k])
    ensures forall j, k | 0 <= j <= k <= n :: HistExtends(hs[j], hs[k])
  {
    hide Inv, NewOffers, HistExtends, OffersHappened, Runs, Apply;
    if n == 0 {
      InitialInv(cfg);
      hs := [NO_HIST];
      FirstOffers(states, events);
      ExtendsItself(NO_HIST);
    } else {
      hs := RunHistories(cfg, states, events, n - 1);
      assert Step(states[n - 1], events[n - 1], states[n]);
      var s0, a, o :| Runs(states[n - 1], events[n - 1], s0, a, o) && a in s0.logs && states[n] == Apply(s0, a, o);
      var h := EventKeeps(cfg, states[n - 1], hs[n - 1], events[n - 1], s0, a, o);
      MoreOffers(states, events, n - 1, hs[n - 1], h);
      ExtendsItself(h);
      forall j | 0 <= j < n ensures HistExtends(hs[j], h) { ExtendsTransitive(hs[j], hs[n - 1], h); }
      hs := hs + [h];
    }
  }

  lemma {:induction false} FirstOffers(states: seq<Sys>, events: seq<Event>)
    requires |events| < |states|
    ensures OffersHappened(states, events, 0, NO_HIST)
  {
  }

  lemma {:induction false} MoreOffers(states: seq<Sys>, events: seq<Event>, n: nat, h: Hist, h': Hist)
    requires n < |events| < |states| && OffersHappened(states, events, n, h) && NewOffers(states[n], events[n], h, h')
    ensures OffersHappened(states, events, n + 1, h') && HistExtends(h, h')
  {
    hide HistExtends, Proposes;
  }

  lemma {:induction false} ExtendsItself(h: Hist)
    ensures HistExtends(h, h)
  {
  }

  lemma {:induction false} ExtendsTransitive(h: Hist, h': Hist, h'': Hist)
    requires HistExtends(h, h') && HistExtends(h', h'')
    ensures HistExtends(h, h'')
  {
    forall i ensures Grows(At(h, i), At(h'', i)) {
      assert Grows(At(h, i), At(h', i)) && Grows(At(h', i), At(h'', i));
    }
  }

  // ---------------------------------------------------------------------------------------------
  //  Agreement
  // ---------------------------------------------------------------------------------------------

  /** Node `a` holds `v` as the entry at index `i`: in its log, or learned but not yet delivered. */
  predicate Holds(s: Sys, a: EndpointId, i: PLIndex, v: PLEntry) {
    || (a in s.logs && i < |s.logs[a]| && s.logs[a][i] == v)
    || (a in s.nodes && i in s.nodes[a].slots && s.nodes[a].slots[i].learned.Some? && s.nodes[a].slots[i].learned.value.1 == v)
  }

  lemma {:induction false} HoldsDecided(cfg: Config, s: Sys, h: Hist, a: EndpointId, i: PLIndex, v: PLEntry)
    requires Inv(cfg, s, h) && Holds(s, a, i, v)
    ensures EntryOK(cfg, h, i, v)
  {
    if a in s.logs && i < |s.logs[a]| && s.logs[a][i] == v {
      LogDecided(cfg, s, h, a, i);
    } else {
      hide Inv;
      LearnedIsDecided(cfg, s, h, a, i);
    }
  }

  lemma {:induction false} LogDecided(cfg: Config, s: Sys, h: Hist, a: EndpointId, i: PLIndex)
    requires Inv(cfg, s, h) && a in s.logs && i < |s.logs[a]|
    ensures EntryOK(cfg, h, i, s.logs[a][i])
  {
    hide WiresOK, ReceivedOK, SyncOK, OffersOK, SlotsOK, BallotsOK, EntryOK, RetainOK;
    assert a in s.nodes by { hide NodeShape, WiresShape; }
    assert LogOK(cfg, h, s.nodes[a], s.logs[a]);
  }

  lemma {:induction false} EntryGrows(cfg: Config, h: Hist, h': Hist, i: PLIndex, v: PLEntry)
    requires EntryOK(cfg, h, i, v) && HistExtends(h, h')
    ensures EntryOK(cfg, h', i, v)
  {
    var r :| Decided(At(h, i), r, v, GroupOf(cfg));
    DecidedGrows(At(h, i), At(h', i), GroupOf(cfg));
  }

  lemma {:induction false} EntriesAgree(cfg: Config, s: Sys, h: Hist, i: PLIndex, v: PLEntry, w: PLEntry)
    requires Inv(cfg, s, h) && EntryOK(cfg, h, i, v) && EntryOK(cfg, h, i, w)
    ensures v == w
  {
    hide WiresOK, ReceivedOK, SyncOK, OffersOK, SlotsOK, NodesOK, Shape, Good, Decided;
    GroupIsValid(cfg);
    var r1 :| Decided(At(h, i), r1, v, GroupOf(cfg));
    var r2 :| Decided(At(h, i), r2, w, GroupOf(cfg));
    assert Good(At(h, i), GroupOf(cfg));
    DecisionsAgree(At(h, i), r1, v, r2, w, GroupOf(cfg));
  }

  /** Paxos agreement: no two nodes, at any two moments of a run, hold different entries at an index. */
  lemma {:induction false} Agreement(cfg: Config, states: seq<Sys>, events: seq<Event>, j: nat, k: nat,
                                     a: EndpointId, b: EndpointId, i: PLIndex, v: PLEntry, w: PLEntry)
    requires cfg.Valid() && Run(cfg, states, events) && j <= k < |states|
    requires Holds(states[j], a, i, v) && Holds(states[k], b, i, w)
    ensures v == w
  {
    hide Inv, Holds, EntryOK, HistExtends, Run;
    assert |states| == |events| + 1 by { RunLength(cfg, states, events); }
    var hs := RunHistories(cfg, states, events, k);
    HoldsDecided(cfg, states[j], hs[j], a, i, v);
    HoldsDecided(cfg, states[k], hs[k], b, i, w);
    EntryGrows(cfg, hs[j], hs[k], i, v);
    EntriesAgree(cfg, states[k], hs[k], i, v, w);
  }

  lemma {:induction false} RunLength(cfg: Config, states: seq<Sys>, events: seq<Event>)
    requires cfg.Valid() && Run(cfg, states, events)
    ensures |states| == |events| + 1
  {
  }

  // ---------------------------------------------------------------------------------------------
  //  Rounds
  // ---------------------------------------------------------------------------------------------

  /** `msg` is the `k`-th message ever sent from `p` to `q`. */
  predicate SentAt(s: Sys, p: EndpointId, q: EndpointId, k: nat, msg: Message) {
    (p, q) in s.wires && k < |s.wires[(p, q)].sent| && s.wires[(p, q)].sent[k] == msg
  }

  lemma {:induction false} SentIsGenuine(cfg: Config, s: Sys, h: Hist, p: EndpointId, q: EndpointId, k: nat, msg: Message)
    requires Inv(cfg, s, h) && SentAt(s, p, q, k, msg)
    ensures MsgOK(cfg, h, p, q, msg)
    ensures forall k' | k != k' && SentAt(s, p, q, k', msg) :: !IsBallot(msg)
  {
    hide Shape, ReceivedOK, SyncOK, OffersOK, SlotsOK, NodesOK, BallotsOK, MsgOK;
    assert WireOK(cfg, h, p, q, s.wires[(p, q)].sent);
  }

  /** Although rounds are random and collide, at most one `Accept` broadcast ever happens for an
      index and a round: one proposer, one value, one copy to each receiver. */
  lemma {:induction false} OneAcceptPerRound(cfg: Config, states: seq<Sys>, events: seq<Event>, n: nat, i: PLIndex, r: Rnd,
                                             p: EndpointId, q: EndpointId, k: nat, v: PLEntry,
                                             p': EndpointId, q': EndpointId, k': nat, v': PLEntry)
    requires cfg.Valid() && Run(cfg, states, events) && n < |states|
    requires SentAt(states[n], p, q, k, Multi(p, i, Accept(r, v)))
    requires SentAt(states[n], p', q', k', Multi(p', i, Accept(r, v')))
    ensures p == p' && v == v' && (q == q' ==> k == k')
  {
    hide Inv, SentAt;
    var hs := RunHistories(cfg, states, events, n);
    SentIsGenuine(cfg, states[n], hs[n], p, q, k, Multi(p, i, Accept(r, v)));
    SentIsGenuine(cfg, states[n], hs[n], p', q', k', Multi(p', i, Accept(r, v')));
  }

  lemma {:induction false} RunTallies(cfg: Config, states: seq<Sys>, events: seq<Event>, n: nat)
    requires cfg.Valid() && Run(cfg, states, events) && n < |states|
    ensures AllTallied(cfg, states[n])
  {
    hide Inv, HistExtends, OffersHappened, Runs, Apply, AllTallied;
    if n == 0 {
      InitialTallies(cfg);
    } else {
      RunTallies(cfg, states, events, n - 1);
      var hs := RunHistories(cfg, states, events, n - 1);
      assert Step(states[n - 1], events[n - 1], states[n]);
      var s0, a, o :| Runs(states[n - 1], events[n - 1], s0, a, o) && a in s0.logs && states[n] == Apply(s0, a, o);
      EventTallies(cfg, states[n - 1], hs[n - 1], events[n - 1], s0, a, o);
    }
  }

  /** A learner's count for a round is exactly the number of members whose `Learn` has reached it and does
      not wait in its buffer: none is counted twice, and none is lost. */
  lemma {:induction false} LearnsCountAcceptors(cfg: Config, states: seq<Sys>, events: seq<Event>, n: nat, a: EndpointId, i: PLIndex, r: Rnd)
    requires cfg.Valid() && Run(cfg, states, events) && n < |states|
    requires a in states[n].nodes && i in states[n].nodes[a].slots && states[n].nodes[a].slots[i].instance.Some?
    ensures Count(states[n].nodes[a].slots[i].instance.value, r)
         == |Reached(cfg, states[n].wires, a, i, r) - Queued(BufferAt(states[n].nodes[a], i), r)|
  {
    hide Inv, AllTallied, Reached, OffersHappened, HistExtends;
    var hs := RunHistories(cfg, states, events, n);
    RunTallies(cfg, states, events, n);
    HeardExactly(cfg, states[n], hs[n], a, i, r);
  }

  lemma {:induction false} SeenHasArrived(cfg: Config, s: Sys, h: Hist, a: EndpointId, i: PLIndex, l: Letter)
    requires Inv(cfg, s, h) && a in s.nodes && l in AuxAt(h, a, i).seen
    ensures Arrived(s.wires, a, i, l)
  {
    hide Shape, WiresOK, SyncOK, OffersOK, SlotsOK, NodesOK, BallotsOK;
    assert SeenOK(s.wires, a, i, AuxAt(h, a, i));
  }

  /** A proposer's promises for a round come from distinct acceptors. */
  lemma {:induction false} PromisesCountAcceptors(cfg: Config, states: seq<Sys>, events: seq<Event>, n: nat, a: EndpointId, i: PLIndex, r: Rnd)
    returns (voters: seq<EndpointId>)
    requires cfg.Valid() && Run(cfg, states, events) && n < |states|
    requires a in states[n].nodes && i in states[n].nodes[a].slots && states[n].nodes[a].slots[i].instance.Some?
    requires r in states[n].nodes[a].slots[i].instance.value.proposals
    ensures var promises := states[n].nodes[a].slots[i].instance.value.proposals[r].promises;
            && |voters| == |promises| && Distinct(voters)
            && forall j | 0 <= j < |voters| :: Arrived(states[n].wires, a, i, Letter(voters[j], Promise(r, promises[j])))
  {
    hide Inv, Good, AcceptorOK, LearnerOK;
    var s := states[n];
    var hs := RunHistories(cfg, states, events, n);
    InvSlot(cfg, s, hs[n], a, i);
    var x := AuxAt(hs[n], a, i);
    var p := s.nodes[a].slots[i].instance.value.proposals[r];
    assert ProposalOK(At(hs[n], i), a, r, p, x, GroupOf(cfg));
    voters := x.got[r];
    forall j | 0 <= j < |voters| ensures Arrived(s.wires, a, i, Letter(voters[j], Promise(r, p.promises[j]))) {
      SeenHasArrived(cfg, s, hs[n], a, i, Letter(voters[j], Promise(r, p.promises[j])));
    }
  }

  // ---------------------------------------------------------------------------------------------
  //  Retention, and no failed unwrap
  // ---------------------------------------------------------------------------------------------

  /** No handler of any reachable state panics: promises find their proposal, log requests and
      heartbeats find every index they read. */
  lemma {:induction false} NeverPanics(cfg: Config, states: seq<Sys>, events: seq<Event>, e: Event, s0: Sys, a: EndpointId, o: Out)
    requires cfg.Valid() && Run(cfg, states, events) && Runs(states[|states| - 1], e, s0, a, o)
    ensures o.ok
  {
    hide Inv, Runs, NewOffers;
    var hs := RunHistories(cfg, states, events, |events|);
    var h := EventKeeps(cfg, states[|states| - 1], hs[|events|], e, s0, a, o);
  }

  /** Every index from `min_complete_index` up to `next_index` has its learned value, and every
      member that may still ask asks from there on. */
  lemma {:induction false} Retention(cfg: Config, states: seq<Sys>, events: seq<Event>, n: nat, a: EndpointId)
    requires cfg.Valid() && Run(cfg, states, events) && n < |states| && a in states[n].nodes
    ensures var node := states[n].nodes[a]; Retains(node, MinComplete(node), node.nextIndex)
    ensures forall e | e in states[n].nodes && e in states[n].nodes[a].remote ::
              states[n].nodes[a].remote[e] <= states[n].nodes[e].nextIndex
  {
    hide Inv;
    var s := states[n];
    var hs := RunHistories(cfg, states, events, n);
    var node := s.nodes[a];
    forall i | MinComplete(node) <= i < node.nextIndex ensures i in node.slots && node.slots[i].learned.Some? {
      KeptIsNotPast(cfg, s, hs[n], a, i);
      NotPastIsKept(cfg, s, hs[n], a, i);
    }
    forall e | e in s.nodes && e in s.nodes[a].remote ensures s.nodes[a].remote[e] <= s.nodes[e].nextIndex {
      RemoteLags(cfg, s, hs[n], a, e);
    }
  }

  lemma {:induction false} NotPastIsKept(cfg: Config, s: Sys, h: Hist, a: EndpointId, i: PLIndex)
    requires Inv(cfg, s, h) && a in s.nodes && i < s.nodes[a].nextIndex && !AllPast(s.nodes[a], i)
    ensures i in s.nodes[a].slots && s.nodes[a].slots[i].learned.Some?
  {
    hide Inv;
    InvRetains(cfg, s, h, a);
  }

  lemma {:induction false} RemoteLags(cfg: Config, s: Sys, h: Hist, a: EndpointId, e: EndpointId)
    requires Inv(cfg, s, h) && a in s.nodes && e in s.nodes && e in s.nodes[a].remote
    ensures s.nodes[a].remote[e] <= s.nodes[e].nextIndex
  {
    hide WiresOK, ReceivedOK, NodesOK, OffersOK, SlotsOK, BallotsOK;
    assert (e, a) in s.wires by { hide NodeShape, Senders; }
    assert MarksOK(s.wires[(e, a)], s.nodes[a].remote[e], s.nodes[e].nextIndex);
  }

  // ---------------------------------------------------------------------------------------------
  //  Leadership along the log
  // ---------------------------------------------------------------------------------------------

  /** How many leadership changes a log prefix holds. */
  function Changes(log: seq<PLEntry>): nat {
    if log == [] then 0 else Changes(log[..|log| - 1]) + if log[|log| - 1].LeaderChanged? then 1 else 0
  }

  /** Entry `i` of node `a`'s log was proposed, after the same prefix, by a node entitled to. */
  lemma {:induction false} EntryWasLegit(cfg: Config, states: seq<Sys>, events: seq<Event>, s: Sys, h: Hist, n: nat, a: EndpointId, i: PLIndex)
    returns (p: EndpointId, k: nat)
    requires n <= |events| && |events| < |states|
    requires Inv(cfg, s, h) && OffersHappened(states, events, n, h) && a in s.logs && i < |s.logs[a]|
    ensures Legit(cfg, s.logs[a][..i], p, s.logs[a][i])
    ensures k < n && Proposes(states[k], events[k], p, i, s.logs[a][i])
  {
    hide Inv, Legit, LeaderAfter, Decided, Proposes;
    var v := s.logs[a][i];
    LogDecided(cfg, s, h, a, i);
    var r :| Decided(At(h, i), r, v, GroupOf(cfg));
    p := DecisionOffered(cfg, s, h, i, r, v);
    k :| 0 <= k < n && Proposes(states[k], events[k], p, i, v);
    OfferFacts(cfg, s, h, i, p, v);
    assert s.logs[p][..i] == s.logs[a][..i] by {
      forall j | 0 <= j < i ensures s.logs[p][j] == s.logs[a][j] {
        LogDecided(cfg, s, h, p, j);
        LogDecided(cfg, s, h, a, j);
        EntriesAgree(cfg, s, h, j, s.logs[p][j], s.logs[a][j]);
      }
    }
  }

  lemma {:induction false} DecisionOffered(cfg: Config, s: Sys, h: Hist, i: PLIndex, r: Rnd, v: PLEntry) returns (p: EndpointId)
    requires Inv(cfg, s, h) && Decided(At(h, i), r, v, GroupOf(cfg))
    ensures (p, v) in At(h, i).offers
  {
    hide WiresOK, ReceivedOK, NodesOK, OffersOK, SlotsOK, Shape, Good, Decided, SyncOK;
    assert Good(At(h, i), GroupOf(cfg));
    DecisionWasOffered(At(h, i), r, v, GroupOf(cfg));
    p :| (p, v) in At(h, i).offers;
  }

  lemma {:induction false} OfferFacts(cfg: Config, s: Sys, h: Hist, i: PLIndex, p: EndpointId, v: PLEntry)
    requires Inv(cfg, s, h) && (p, v) in At(h, i).offers
    ensures OfferOK(cfg, s.logs, i, p, v)
  {
    hide WiresOK, ReceivedOK, NodesOK, SlotsOK, Shape, SyncOK, BallotsOK, OfferOK;
  }

  lemma {:induction false} GenerationIsChanges(cfg: Config, states: seq<Sys>, events: seq<Event>, s: Sys, h: Hist, n: nat, a: EndpointId, i: PLIndex)
    requires n <= |events| && |events| < |states|
    requires Inv(cfg, s, h) && OffersHappened(states, events, n, h) && a in s.logs && i <= |s.logs[a]|
    ensures LeaderAfter(cfg, s.logs[a][..i]).gen == Changes(s.logs[a][..i])
    decreases i
  {
    hide Inv, OffersHappened, Proposes;
    if i > 0 {
      var log := s.logs[a];
      assert log[..i][..i - 1] == log[..i - 1] && log[..i][i - 1] == log[i - 1];
      GenerationIsChanges(cfg, states, events, s, h, n, a, i - 1);
      var p, k := EntryWasLegit(cfg, states, events, s, h, n, a, i - 1);
    }
  }

  /** Along every learned log the k-th leadership change carries generation k and names its own
      proposer, and every bundle was proposed by the leader in force just before it. */
  lemma {:induction false} LogLeadership(cfg: Config, states: seq<Sys>, events: seq<Event>, n: nat, a: EndpointId, i: PLIndex)
    returns (p: EndpointId, k: nat)
    requires cfg.Valid() && Run(cfg, states, events) && n < |states|
    requires a in states[n].logs && i < |states[n].logs[a]|
    ensures var log := states[n].logs[a];
            && k < n && Proposes(states[k], events[k], p, i, log[i])
            && (log[i].LeaderChanged? ==> log[i].lid == LeadershipId(Changes(log[..i]) + 1, p))
            && (log[i].Bundle? ==> p == LeaderAfter(cfg, log[..i]).eid)
  {
    hide Inv, OffersHappened, Proposes;
    var s := states[n];
    var hs := RunHistories(cfg, states, events, n);
    p, k := EntryWasLegit(cfg, states, events, s, hs[n], n, a, i);
    GenerationIsChanges(cfg, states, events, s, hs[n], n, a, i);
  }

  // ---------------------------------------------------------------------------------------------
  //  Insertions
  // ---------------------------------------------------------------------------------------------

  lemma {:induction false} StepPins(s: Sys, e: Event, s': Sys, a: EndpointId)
    requires Step(s, e, s') && a in s.nodes && a in s'.nodes
    ensures Pinned(s.nodes[a], s'.nodes[a]) || (e.InsertEvent? && e.at == a && s'.nodes[a].nextInsert == Some((e.uuid, e.payload)))
  {
    hide Handle, Post;
    var s0, b, o :| Runs(s, e, s0, b, o) && b in s0.logs && s' == Apply(s0, b, o);
  }

  /** While an insertion is pending at a node, nothing is appended to the log of the node. */
  lemma {:induction false} PendingIsPinned(cfg: Config, states: seq<Sys>, events: seq<Event>, j: nat, k: nat, a: EndpointId, uuid: UUID)
    requires cfg.Valid() && Run(cfg, states, events) && j <= k < |states|
    requires a in states[j].nodes && a in states[k].nodes
    requires states[j].nodes[a].nextInsert.Some? && states[j].nodes[a].nextInsert.value.0 == uuid
    requires states[k].nodes[a].nextInsert.Some? && states[k].nodes[a].nextInsert.value.0 == uuid
    requires forall m | j <= m < k && events[m].InsertEvent? :: events[m].uuid != uuid
    ensures states[j].nodes[a].nextIndex == states[k].nodes[a].nextIndex
    ensures states[j].nodes[a].nextInsert == states[k].nodes[a].nextInsert
    decreases k - j
  {
    hide Step;
    if j < k {
      assert Step(states[k - 1], events[k - 1], states[k]);
      NodesStay(cfg, states, events, k - 1, a);
      StepPins(states[k - 1], events[k - 1], states[k], a);
      PendingIsPinned(cfg, states, events, j, k - 1, a, uuid);
    }
  }

  /** What is pending at a node was inserted there. */
  lemma {:induction false} PendingWasInserted(cfg: Config, states: seq<Sys>, events: seq<Event>, n: nat, a: EndpointId) returns (m: nat)
    requires cfg.Valid() && Run(cfg, states, events) && n < |states| && a in states[n].nodes && states[n].nodes[a].nextInsert.Some?
    ensures m < n && events[m].InsertEvent? && events[m].at == a && states[n].nodes[a].nextInsert == Some((events[m].uuid, events[m].payload))
  {
    hide Step;
    if n == 0 {
      assert false;
    } else {
      assert Step(states[n - 1], events[n - 1], states[n]);
      NodesStay(cfg, states, events, n - 1, a);
      StepPins(states[n - 1], events[n - 1], states[n], a);
      if Pinned(states[n - 1].nodes[a], states[n].nodes[a]) {
        m := PendingWasInserted(cfg, states, events, n - 1, a);
      } else {
        m := n - 1;
      }
    }
  }

  /** Event `e` proposes `v` at index `i` for the insertion that node `a` drew `uuid` for. */
  predicate ProposesFor(s: Sys, e: Event, a: EndpointId, uuid: UUID, i: PLIndex, v: PLEntry) {
    Proposes(s, e, a, i, v) && (e.InsertEvent? || e.RetryEvent?) && e.uuid == uuid
  }

  lemma {:induction false} ProposalIsPending(s: Sys, e: Event, s': Sys, a: EndpointId, uuid: UUID, i: PLIndex, v: PLEntry)
    requires Step(s, e, s') && ProposesFor(s, e, a, uuid, i, v)
    ensures a in s'.nodes && s'.nodes[a].nextIndex == i && v.Bundle? && s'.nodes[a].nextInsert == Some((uuid, v.payload))
  {
    hide Handle, Post, NextRound;
    var s0, b, o :| Runs(s, e, s0, b, o) && b in s0.logs && s' == Apply(s0, b, o);
  }

  /** Every insertion draws its own uuid. */
  ghost predicate FreshUuids(events: seq<Event>) {
    forall m, m' | 0 <= m < m' < |events| && events[m].InsertEvent? && events[m'].InsertEvent? :: events[m].uuid != events[m'].uuid
  }

  /** All proposals for one insertion are made at one index, with one value. */
  lemma {:induction false} InsertionHasOneIndex(cfg: Config, states: seq<Sys>, events: seq<Event>, j: nat, k: nat, a: EndpointId, uuid: UUID,
                                                i: PLIndex, v: PLEntry, i': PLIndex, v': PLEntry)
    requires cfg.Valid() && Run(cfg, states, events) && FreshUuids(events) && j <= k < |events|
    requires ProposesFor(states[j], events[j], a, uuid, i, v) && ProposesFor(states[k], events[k], a, uuid, i', v')
    ensures i == i' && v == v'
  {
    hide Step;
    if j < k {
      if events[k].InsertEvent? {
        assert events[j].RetryEvent?;
        var m := PendingWasInserted(cfg, states, events, j, a);
        assert false;
      } else {
        assert Step(states[j], events[j], states[j + 1]);
        ProposalIsPending(states[j], events[j], states[j + 1], a, uuid, i, v);
        var m := PendingWasInserted(cfg, states, events, j + 1, a);
        PendingIsPinned(cfg, states, events, j + 1, k, a, uuid);
      }
    }
  }

  /** The insertion that a proposed bundle goes back to. */
  lemma {:induction false} ProposalWasInserted(cfg: Config, states: seq<Sys>, events: seq<Event>, k: nat, p: EndpointId, i: PLIndex, payload: int)
    returns (m: nat)
    requires cfg.Valid() && Run(cfg, states, events) && k < |events| && Proposes(states[k], events[k], p, i, Bundle(payload))
    ensures m <= k && events[m].InsertEvent? && events[m].at == p && events[m].payload == payload
    ensures ProposesFor(states[k], events[k], p, events[m].uuid, i, Bundle(payload))
  {
    hide Step, Run;
    if events[k].InsertEvent? {
      m := k;
    } else {
      RunLength(cfg, states, events);
      m := PendingWasInserted(cfg, states, events, k, p);
    }
  }

  /** Bundles that differ pairwise stand at one index at most, in the logs of any two nodes at any two
      moments of a run. */
  lemma {:induction false} BundleHasOneIndex(cfg: Config, states: seq<Sys>, events: seq<Event>, n: nat, n': nat, a: EndpointId, b: EndpointId,
                                             i: PLIndex, i': PLIndex)
    requires cfg.Valid() && Run(cfg, states, events) && FreshUuids(events) && n < |states| && n' < |states|
    requires forall m, m' | 0 <= m < m' < |events| && events[m].InsertEvent? && events[m'].InsertEvent? :: events[m].payload != events[m'].payload
    requires a in states[n].logs && i < |states[n].logs[a]| && b in states[n'].logs && i' < |states[n'].logs[b]|
    requires states[n].logs[a][i].Bundle? && states[n].logs[a][i] == states[n'].logs[b][i']
    ensures i == i'
  {
    hide Run, Proposes;
    RunLength(cfg, states, events);
    var v := states[n].logs[a][i];
    var p, k := LogLeadership(cfg, states, events, n, a, i);
    var p', k' := LogLeadership(cfg, states, events, n', b, i');
    var m := ProposalWasInserted(cfg, states, events, k, p, i, v.payload);
    var m' := ProposalWasInserted(cfg, states, events, k', p', i', v.payload);
    assert m == m';
    if k <= k' {
      InsertionHasOneIndex(cfg, states, events, k, k', p, events[m].uuid, i, v, i', v);
    } else {
      InsertionHasOneIndex(cfg, states, events, k', k, p, events[m].uuid, i', v, i, v);
    }
  }

  lemma {:induction false} NodesStay(cfg: Config, states: seq<Sys>, events: seq<Event>, n: nat, a: EndpointId)
    requires cfg.Valid() && Run(cfg, states, events) && n < |states| && (exists m | 0 <= m < |states| :: a in states[m].nodes)
    ensures a in states[n].nodes
  {
    hide Inv, OffersHappened, HistExtends;
    var m :| 0 <= m < |states| && a in states[m].nodes;
    var hs := RunHistories(cfg, states, events, |events|);
    InvMembers(cfg, states[m], hs[m]);
    InvMembers(cfg, states[n], hs[n]);
  }

  lemma {:induction false} InvMembers(cfg: Config, s: Sys, h: Hist)
    requires Inv(cfg, s, h)
    ensures s.nodes.Keys == Senders(cfg.members)
  {
    hide WiresOK, ReceivedOK, NodesOK, OffersOK, SlotsOK, BallotsOK, SyncOK, NodeShape, WiresShape;
  }
}
