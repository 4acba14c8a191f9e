/** The group makes progress: an undisturbed round among more than half of the members ends with the
    value in the log of each of them. */
module PaxosProgress {
  import opened PaxosTypes
  import opened PaxosNode
  import opened PaxosSystem
  import opened PaxosPaths
  import opened PaxosRound

  // ---------------------------------------------------------------------------------------------
  //  The phases of a round
  // ---------------------------------------------------------------------------------------------

  /** `k` members have been asked to promise; `k` of them have been told what else was said; `k`
      promises were counted; `k` members have voted; `x` members have heard of all votes, and the
      next of `k`. */
  datatype Phase = Asking(k: nat) | Clearing(k: nat) | Promising(k: nat) | Accepting(k: nat) | Learning(x: nat, k: nat)

  predicate HasPromised(ph: Phase, j: nat) {
    ph.Asking? ==> j < ph.k
  }

  predicate HasVoted(ph: Phase, j: nat) {
    ph.Learning? || (ph.Accepting? && j < ph.k)
  }

  function HasHeard(c: Round, ph: Phase, j: nat): nat {
    if !ph.Learning? || j > ph.x then 0 else if j < ph.x then |c.live| else ph.k
  }

  function HasCounted(c: Round, ph: Phase): nat {
    match ph
    case Asking(_) => 0
    case Clearing(_) => 0
    case Promising(k) => k
    case _ => |c.live|
  }

  /** What is under way from `live[j]` to `live[m]`. */
  function Under(c: Round, ph: Phase, j: nat, m: nat): seq<Message>
    requires j < |c.live| && m < |c.live| && |c.extra| == |c.live|
  {
    match ph
    case Asking(k) =>
      (if j == 0 then (if m >= k then [c.PrepareMsg()] else []) + c.extra[m] else [])
      + if m == 0 && j < k then [c.PromiseMsg(c.live[j])] else []
    case Clearing(k) => (if j == 0 && m >= k then c.extra[m] else []) + if m == 0 then [c.PromiseMsg(c.live[j])] else []
    case Promising(k) =>
      (if m == 0 && j >= k then [c.PromiseMsg(c.live[j])] else []) + if j == 0 && k >= c.Half() then [c.AcceptMsg()] else []
    case Accepting(k) => (if j == 0 && m >= k then [c.AcceptMsg()] else []) + if j < k then [c.LearnMsg(c.live[j])] else []
    case Learning(x, k) => if m < x || (m == x && j < k) then [] else [c.LearnMsg(c.live[j])]
  }

  ghost predicate MemberAt(c: Round, ph: Phase, j: nat, n: Node, log: seq<PLEntry>)
    requires j < |c.live|
  {
    var heard := HasHeard(c, ph, j);
    && NodeAt(c, n, c.live[j], HasPromised(ph, j), HasVoted(ph, j), heard)
    && log == c.log + (if heard >= c.Half() then [c.value] else [])
    && (j == 0 && !ph.Learning? ==> Collected(c, n, HasCounted(c, ph)))
  }

  ghost predicate Present(s: Sys, live: seq<EndpointId>) {
    forall j | 0 <= j < |live| :: live[j] in s.nodes && live[j] in s.logs
  }

  ghost predicate SysAt(c: Round, s: Sys, ph: Phase) {
    && c.Valid() && Present(s, c.live)
    && (forall j: nat | j < |c.live| :: MemberAt(c, ph, j, s.nodes[c.live[j]], s.logs[c.live[j]]))
    && (forall j: nat, m: nat | j < |c.live| && m < |c.live| :: Pending(s, c.live[j], c.live[m], Under(c, ph, j, m)))
  }

  function Popped(ms: seq<Message>): seq<Message> {
    if ms == [] then [] else ms[1..]
  }

  /** How what is under way changes when `live[m]` receives from `live[j]` and sends `sends`. */
  predicate MovesAt(c: Round, ph: Phase, ph': Phase, j: nat, m: nat, sends: seq<Send>, x: nat, y: nat)
    requires |c.extra| == |c.live| && x < |c.live| && y < |c.live|
  {
    Under(c, ph', x, y) == (if x == j && y == m then Popped(Under(c, ph, x, y)) else Under(c, ph, x, y))
                           + if x == m then To(sends, c.live[y]) else []
  }

  ghost predicate Moves(c: Round, ph: Phase, ph': Phase, j: nat, m: nat, sends: seq<Send>)
    requires |c.extra| == |c.live|
  {
    forall x: nat, y: nat | x < |c.live| && y < |c.live| :: MovesAt(c, ph, ph', j, m, sends, x, y)
  }

  /** Member `live[m]` receives from `live[j]`, and all others stay as they are. */
  lemma {:induction false} PhaseStep(c: Round, s: Sys, ph: Phase, ph': Phase, j: nat, m: nat, o: Out) returns (s': Sys)
    requires SysAt(c, s, ph) && j < |c.live| && m < |c.live| && Under(c, ph, j, m) != []
    requires o == Handle(s.nodes[c.live[m]], Under(c, ph, j, m)[0])
    requires MemberAt(c, ph', m, o.node, s.logs[c.live[m]] + o.learned)
    requires forall i: nat | i < |c.live| && i != m :: MemberAt(c, ph', i, s.nodes[c.live[i]], s.logs[c.live[i]])
    requires Moves(c, ph, ph', j, m, o.sends)
    ensures Leads(c.live, s, s') && SysAt(c, s', ph')
  {
    var p, q, ms := c.live[j], c.live[m], Under(c, ph, j, m);
    assert Pending(s, p, q, ms) && Present(s, c.live) && c.Valid() && q in s.nodes && q in s.logs;
    hide *;
    s' := ReceiveStep(s, p, q, ms);
    ReceiveLeads(c.live, s, p, m, s');
    PhaseMembers(c, s, ph, ph', j, m, o, s');
    forall x: nat, y: nat | x < |c.live| && y < |c.live| ensures Pending(s', c.live[x], c.live[y], Under(c, ph', x, y)) {
      PhasePends(c, s, ph, ph', j, m, o, s', x, y);
    }
    SysIs(c, s', ph');
  }

  lemma {:induction false} ReceiveLeads(live: seq<EndpointId>, s: Sys, p: EndpointId, m: nat, s': Sys)
    requires m < |live| && Step(s, Receive(p, live[m]), s')
    ensures Leads(live, s, s')
  {
    hide Step;
    LeadsStep(live, s, Receive(p, live[m]), s');
  }

  lemma {:induction false} SysIs(c: Round, s: Sys, ph: Phase)
    requires c.Valid() && Present(s, c.live)
    requires forall j: nat | j < |c.live| :: MemberAt(c, ph, j, s.nodes[c.live[j]], s.logs[c.live[j]])
    requires forall j: nat, m: nat | j < |c.live| && m < |c.live| :: Pending(s, c.live[j], c.live[m], Under(c, ph, j, m))
    ensures SysAt(c, s, ph)
  {
  }

  lemma {:induction false} PhasePends(c: Round, s: Sys, ph: Phase, ph': Phase, j: nat, m: nat, o: Out, s': Sys, x: nat, y: nat)
    requires SysAt(c, s, ph) && j < |c.live| && m < |c.live| && Under(c, ph, j, m) != [] && x < |c.live| && y < |c.live|
    requires Receives(s, c.live[j], c.live[m], Under(c, ph, j, m)[0], s')
    requires o == Handle(s.nodes[c.live[m]], Under(c, ph, j, m)[0]) && Moves(c, ph, ph', j, m, o.sends)
    ensures Pending(s', c.live[x], c.live[y], Under(c, ph', x, y))
  {
    hide Under, MemberAt, Handle;
    var ms := Under(c, ph, x, y);
    assert Pending(s, c.live[x], c.live[y], ms);
    assert (c.live[x], c.live[y]) == (c.live[j], c.live[m]) <==> x == j && y == m;
    assert c.live[x] == c.live[m] <==> x == m;
    assert MovesAt(c, ph, ph', j, m, o.sends, x, y);
    hide Pending;
    assert Pending(s', c.live[x], c.live[y], (if x == j && y == m then ms[1..] else ms) + if x == m then To(o.sends, c.live[y]) else []);
  }

  lemma {:induction false} PhaseMembers(c: Round, s: Sys, ph: Phase, ph': Phase, j: nat, m: nat, o: Out, s': Sys)
    requires c.Valid() && Present(s, c.live) && j < |c.live| && m < |c.live| && Under(c, ph, j, m) != []
    requires Receives(s, c.live[j], c.live[m], Under(c, ph, j, m)[0], s')
    requires o == Handle(s.nodes[c.live[m]], Under(c, ph, j, m)[0])
    requires MemberAt(c, ph', m, o.node, s.logs[c.live[m]] + o.learned)
    requires forall i: nat | i < |c.live| && i != m :: MemberAt(c, ph', i, s.nodes[c.live[i]], s.logs[c.live[i]])
    ensures Present(s', c.live)
    ensures forall i: nat | i < |c.live| :: MemberAt(c, ph', i, s'.nodes[c.live[i]], s'.logs[c.live[i]])
  {
    hide Under, MemberAt, Handle;
    assert forall i: nat | i < |c.live| && i != m :: c.live[i] != c.live[m];
  }

  // ---------------------------------------------------------------------------------------------
  //  Phase by phase
  // ---------------------------------------------------------------------------------------------

  /** Two phases that mean the same to `live[i]`. */
  predicate SameFor(c: Round, ph: Phase, ph': Phase, i: nat) {
    && HasPromised(ph', i) == HasPromised(ph, i) && HasVoted(ph', i) == HasVoted(ph, i) && HasHeard(c, ph', i) == HasHeard(c, ph, i)
    && (i == 0 && !ph'.Learning? ==> !ph.Learning? && HasCounted(c, ph') == HasCounted(c, ph))
  }

  /** The members that take no part in a step. */
  lemma {:induction false} OthersStay(c: Round, s: Sys, ph: Phase, ph': Phase, m: nat)
    requires SysAt(c, s, ph)
    requires forall i: nat | i < |c.live| && i != m :: SameFor(c, ph, ph', i)
    ensures forall i: nat | i < |c.live| && i != m :: MemberAt(c, ph', i, s.nodes[c.live[i]], s.logs[c.live[i]])
  {
    hide MemberAt, SameFor, Pending, Under;
    forall i: nat | i < |c.live| && i != m ensures MemberAt(c, ph', i, s.nodes[c.live[i]], s.logs[c.live[i]]) {
      assert MemberAt(c, ph, i, s.nodes[c.live[i]], s.logs[c.live[i]]);
      MemberStays(c, ph, ph', i, s.nodes[c.live[i]], s.logs[c.live[i]]);
    }
  }

  lemma {:induction false} MemberStays(c: Round, ph: Phase, ph': Phase, i: nat, n: Node, log: seq<PLEntry>)
    requires i < |c.live| && MemberAt(c, ph, i, n, log) && SameFor(c, ph, ph', i)
    ensures MemberAt(c, ph', i, n, log)
  {
    hide NodeAt, Collected, c.Half, HasPromised, HasVoted, HasHeard, HasCounted;
  }

  lemma {:induction false} AskMember(c: Round, k: nat, n: Node, log: seq<PLEntry>)
    requires k < |c.live| && MemberAt(c, Asking(k), k, n, log) && 0 < c.Half()
    ensures var o := Handle(n, c.PrepareMsg());
      MemberAt(c, Asking(k + 1), k, o.node, log + o.learned) && o.sends == [Send(c.live[0], c.PromiseMsg(c.live[k]))]
  {
    Prepares(c, n, c.live[k]);
    hide NodeAt, Handle, Collected;
    assert log + [] == log;
  }

  lemma {:induction false} AskStep(c: Round, s: Sys, k: nat) returns (s': Sys)
    requires SysAt(c, s, Asking(k)) && k < |c.live|
    ensures Leads(c.live, s, s') && SysAt(c, s', Asking(k + 1))
  {
    var ph, ph', a := Asking(k), Asking(k + 1), c.live[k];
    var o := Handle(s.nodes[a], c.PrepareMsg());
    assert Under(c, ph, 0, k) != [] && Under(c, ph, 0, k)[0] == c.PrepareMsg();
    assert MemberAt(c, ph, k, s.nodes[a], s.logs[a]);
    assert forall i: nat | i < |c.live| && i != k :: SameFor(c, ph, ph', i);
    hide Handle, Under, Moves, MemberAt, Leads, Pending, SameFor;
    AskMember(c, k, s.nodes[a], s.logs[a]);
    OthersStay(c, s, ph, ph', k);
    AskMoves(c, k, o.sends);
    s' := PhaseStep(c, s, ph, ph', 0, k, o);
  }

  lemma {:induction false} UnderAsking(c: Round, k: nat, x: nat, y: nat)
    requires |c.extra| == |c.live| && k < |c.live| && x < |c.live| && y < |c.live|
    ensures Under(c, Asking(k + 1), x, y) ==
              (if x == 0 && y == k then Popped(Under(c, Asking(k), x, y)) else Under(c, Asking(k), x, y)) + if x == k && y == 0 then [c.PromiseMsg(c.live[k])] else []
    ensures Under(c, Asking(k), 0, k) != []
  {
  }

  lemma {:induction false} AskMoves(c: Round, k: nat, sends: seq<Send>)
    requires c.Valid() && k < |c.live| && sends == [Send(c.live[0], c.PromiseMsg(c.live[k]))]
    ensures Moves(c, Asking(k), Asking(k + 1), 0, k, sends)
  {
    var ph, ph' := Asking(k), Asking(k + 1);
    hide Under, c.Half;
    forall x: nat, y: nat | x < |c.live| && y < |c.live|
      ensures MovesAt(c, ph, ph', 0, k, sends, x, y)
    {
      UnderAsking(c, k, x, y);
      ToOne(sends[0], c.live[y]);
      assert c.live[y] == c.live[0] <==> y == 0;
    }
  }

  /** The phases until the last promise, or vote, or what else was said, has arrived. */
  lemma {:induction false} ClearStep(c: Round, s: Sys, k: nat) returns (s': Sys)
    requires SysAt(c, s, Clearing(k)) && k < |c.live|
    ensures Leads(c.live, s, s') && SysAt(c, s', Clearing(k + 1))
  {
    var ph, ph' := Clearing(k), Clearing(k + 1);
    assert forall i: nat | i < |c.live| :: SameFor(c, ph, ph', i);
    hide Handle, MemberAt, Pending, Leads, Moves, Under, SameFor;
    OthersStay(c, s, ph, ph', |c.live|);
    if c.extra[k] == [] {
      UnderNothing(c, k);
      s' := s;
      LeadsNowhere(c.live, s);
    } else {
      var a := c.live[k];
      assert MemberAt(c, ph, k, s.nodes[a], s.logs[a]);
      ClearMember(c, k, s.nodes[a], s.logs[a]);
      assert s.logs[a] + [] == s.logs[a];
      ClearMoves(c, k);
      s' := PhaseStep(c, s, ph, ph', 0, k, Quiet(s.nodes[a]));
    }
  }

  lemma {:induction false} UnderNothing(c: Round, k: nat)
    requires |c.extra| == |c.live| && k < |c.live| && c.extra[k] == []
    ensures forall x: nat, y: nat | x < |c.live| && y < |c.live| :: Under(c, Clearing(k + 1), x, y) == Under(c, Clearing(k), x, y)
  {
  }

  lemma {:induction false} ClearMember(c: Round, k: nat, n: Node, log: seq<PLEntry>)
    requires c.Valid() && k < |c.live| && c.extra[k] != [] && MemberAt(c, Clearing(k), k, n, log)
    ensures Handle(n, c.extra[k][0]) == Quiet(n)
  {
    Ignores(c, n, c.live[k], c.extra[k][0], true, false);
  }

  lemma {:induction false} ClearMoves(c: Round, k: nat)
    requires c.Valid() && k < |c.live| && c.extra[k] != []
    ensures Under(c, Clearing(k), 0, k) != [] && Under(c, Clearing(k), 0, k)[0] == c.extra[k][0]
    ensures Moves(c, Clearing(k), Clearing(k + 1), 0, k, [])
  {
    assert c.extra[k][1..] == [];
  }

  lemma {:induction false} PromiseMember(c: Round, k: nat, n: Node, log: seq<PLEntry>)
    requires k < |c.live| && MemberAt(c, Promising(k), 0, n, log) && 0 < c.Half()
    ensures var o := Handle(n, c.PromiseMsg(c.live[k]));
      MemberAt(c, Promising(k + 1), 0, o.node, log + o.learned)
      && o.sends == if k + 1 == c.Half() then Broadcast(c.members, c.AcceptMsg()) else []
  {
    CountsPromise(c, n, c.live[0], c.live[k], k);
    hide NodeAt, Handle, Collected;
    assert log + [] == log;
  }

  lemma {:induction false} PromiseStep(c: Round, s: Sys, k: nat) returns (s': Sys)
    requires SysAt(c, s, Promising(k)) && k < |c.live|
    ensures Leads(c.live, s, s') && SysAt(c, s', Promising(k + 1))
  {
    var ph, ph', a := Promising(k), Promising(k + 1), c.live[0];
    var o := Handle(s.nodes[a], c.PromiseMsg(c.live[k]));
    assert Under(c, ph, k, 0) != [] && Under(c, ph, k, 0)[0] == c.PromiseMsg(c.live[k]);
    assert MemberAt(c, ph, 0, s.nodes[a], s.logs[a]);
    assert forall i: nat | i < |c.live| && i != 0 :: SameFor(c, ph, ph', i);
    hide Handle, Under, Moves, MemberAt, Leads, Pending, SameFor;
    PromiseMember(c, k, s.nodes[a], s.logs[a]);
    OthersStay(c, s, ph, ph', 0);
    PromiseMoves(c, k, o.sends);
    s' := PhaseStep(c, s, ph, ph', k, 0, o);
  }

  lemma {:induction false} UnderPromising(c: Round, k: nat, x: nat, y: nat)
    requires |c.extra| == |c.live| && k < |c.live| && x < |c.live| && y < |c.live|
    ensures Under(c, Promising(k + 1), x, y) ==
              (if x == k && y == 0 then Popped(Under(c, Promising(k), x, y)) else Under(c, Promising(k), x, y)) + if x == 0 && k + 1 == c.Half() then [c.AcceptMsg()] else []
    ensures Under(c, Promising(k), k, 0) != []
  {
  }

  lemma {:induction false} PromiseMoves(c: Round, k: nat, sends: seq<Send>)
    requires c.Valid() && k < |c.live| && sends == if k + 1 == c.Half() then Broadcast(c.members, c.AcceptMsg()) else []
    ensures Moves(c, Promising(k), Promising(k + 1), k, 0, sends)
  {
    var ph, ph' := Promising(k), Promising(k + 1);
    hide Under, c.Half, Broadcast;
    forall x: nat, y: nat | x < |c.live| && y < |c.live|
      ensures MovesAt(c, ph, ph', k, 0, sends, x, y)
    {
      UnderPromising(c, k, x, y);
      ToEach(c.members, c.AcceptMsg(), c.live[y]);
    }
  }

  lemma {:induction false} AcceptMember(c: Round, k: nat, n: Node, log: seq<PLEntry>)
    requires k < |c.live| && MemberAt(c, Accepting(k), k, n, log) && 0 < c.Half()
    ensures var o := Handle(n, c.AcceptMsg());
      MemberAt(c, Accepting(k + 1), k, o.node, log + o.learned) && o.sends == Broadcast(c.members, c.LearnMsg(c.live[k]))
  {
    Votes(c, n, c.live[k]);
    hide NodeAt, Handle, Collected;
    assert log + [] == log;
  }

  lemma {:induction false} AcceptStep(c: Round, s: Sys, k: nat) returns (s': Sys)
    requires SysAt(c, s, Accepting(k)) && k < |c.live|
    ensures Leads(c.live, s, s') && SysAt(c, s', Accepting(k + 1))
  {
    var ph, ph', a := Accepting(k), Accepting(k + 1), c.live[k];
    var o := Handle(s.nodes[a], c.AcceptMsg());
    assert Under(c, ph, 0, k) != [] && Under(c, ph, 0, k)[0] == c.AcceptMsg();
    assert MemberAt(c, ph, k, s.nodes[a], s.logs[a]);
    assert forall i: nat | i < |c.live| && i != k :: SameFor(c, ph, ph', i);
    hide Handle, Under, Moves, MemberAt, Leads, Pending, SameFor;
    AcceptMember(c, k, s.nodes[a], s.logs[a]);
    OthersStay(c, s, ph, ph', k);
    AcceptMoves(c, k, o.sends);
    s' := PhaseStep(c, s, ph, ph', 0, k, o);
  }

  lemma {:induction false} UnderAccepting(c: Round, k: nat, x: nat, y: nat)
    requires |c.extra| == |c.live| && k < |c.live| && x < |c.live| && y < |c.live|
    ensures Under(c, Accepting(k + 1), x, y) ==
              (if x == 0 && y == k then Popped(Under(c, Accepting(k), x, y)) else Under(c, Accepting(k), x, y)) + if x == k then [c.LearnMsg(c.live[k])] else []
    ensures Under(c, Accepting(k), 0, k) != []
  {
  }

  lemma {:induction false} AcceptMoves(c: Round, k: nat, sends: seq<Send>)
    requires c.Valid() && k < |c.live| && sends == Broadcast(c.members, c.LearnMsg(c.live[k]))
    ensures Moves(c, Accepting(k), Accepting(k + 1), 0, k, sends)
  {
    var ph, ph' := Accepting(k), Accepting(k + 1);
    hide Under, c.Half, Broadcast;
    forall x: nat, y: nat | x < |c.live| && y < |c.live|
      ensures MovesAt(c, ph, ph', 0, k, sends, x, y)
    {
      UnderAccepting(c, k, x, y);
      ToEach(c.members, c.LearnMsg(c.live[k]), c.live[y]);
    }
  }

  lemma {:induction false} LearnMoves(c: Round, x: nat, k: nat)
    requires c.Valid() && x < |c.live| && k < |c.live|
    ensures Under(c, Learning(x, k), k, x) == [c.LearnMsg(c.live[k])]
    ensures Moves(c, Learning(x, k), Learning(x, k + 1), k, x, [])
  {
  }

  lemma {:induction false} LearnMember(c: Round, x: nat, k: nat, n: Node, log: seq<PLEntry>)
    requires x < |c.live| && k < |c.live| && MemberAt(c, Learning(x, k), x, n, log) && 0 < c.Half()
    ensures var o := Handle(n, c.LearnMsg(c.live[k]));
      MemberAt(c, Learning(x, k + 1), x, o.node, log + o.learned) && o.sends == []
  {
    Hears(c, n, c.live[x], c.live[k], k);
    hide NodeAt, Handle, Collected;
    OneMore(c, k, log, Handle(n, c.LearnMsg(c.live[k])).learned);
  }

  lemma {:induction false} LearnStep(c: Round, s: Sys, x: nat, k: nat) returns (s': Sys)
    requires SysAt(c, s, Learning(x, k)) && x < |c.live| && k < |c.live|
    ensures Leads(c.live, s, s') && SysAt(c, s', Learning(x, k + 1))
  {
    var ph, ph', a := Learning(x, k), Learning(x, k + 1), c.live[x];
    var o := Handle(s.nodes[a], c.LearnMsg(c.live[k]));
    LearnMoves(c, x, k);
    assert MemberAt(c, ph, x, s.nodes[a], s.logs[a]);
    assert forall i: nat | i < |c.live| && i != x :: SameFor(c, ph, ph', i);
    hide Handle, Under, Moves, MemberAt, Leads, Pending, SameFor;
    LearnMember(c, x, k, s.nodes[a], s.logs[a]);
    OthersStay(c, s, ph, ph', x);
    s' := PhaseStep(c, s, ph, ph', k, x, o);
  }

  lemma {:induction false} OneMore(c: Round, k: nat, log: seq<PLEntry>, learned: seq<PLEntry>)
    requires log == c.log + (if k >= c.Half() then [c.value] else []) && learned == if k + 1 == c.Half() then [c.value] else []
    ensures log + learned == c.log + if k + 1 >= c.Half() then [c.value] else []
  {
  }

  // ---------------------------------------------------------------------------------------------
  //  The whole round
  // ---------------------------------------------------------------------------------------------

  /** The end of a phase is the beginning of the next one. */
  lemma {:induction false} Rephase(c: Round, s: Sys, ph: Phase, ph': Phase)
    requires SysAt(c, s, ph) && forall i: nat | i < |c.live| :: SameFor(c, ph, ph', i)
    requires forall x: nat, y: nat | x < |c.live| && y < |c.live| :: Under(c, ph', x, y) == Under(c, ph, x, y)
    ensures SysAt(c, s, ph')
  {
    hide MemberAt, SameFor, Pending, Under;
    forall i: nat | i < |c.live| ensures MemberAt(c, ph', i, s.nodes[c.live[i]], s.logs[c.live[i]]) {
      assert MemberAt(c, ph, i, s.nodes[c.live[i]], s.logs[c.live[i]]);
      MemberStays(c, ph, ph', i, s.nodes[c.live[i]], s.logs[c.live[i]]);
    }
  }

  /** Two phases that mean the same to everybody, and to the channels. */
  ghost predicate SamePhase(c: Round, ph: Phase, ph': Phase)
    requires |c.extra| == |c.live|
  {
    && (forall i: nat | i < |c.live| :: SameFor(c, ph, ph', i))
    && forall x: nat, y: nat | x < |c.live| && y < |c.live| :: Under(c, ph', x, y) == Under(c, ph, x, y)
  }

  lemma {:induction false} PhaseEnds(c: Round)
    requires |c.extra| == |c.live| && 0 < c.Half() <= |c.live|
    ensures SamePhase(c, Asking(|c.live|), Clearing(0)) && SamePhase(c, Clearing(|c.live|), Promising(0))
    ensures SamePhase(c, Promising(|c.live|), Accepting(0)) && SamePhase(c, Accepting(|c.live|), Learning(0, 0))
    ensures forall x: nat | x < |c.live| :: SamePhase(c, Learning(x, |c.live|), Learning(x + 1, 0))
  {
    hide c.PrepareMsg, c.PromiseMsg, c.AcceptMsg, c.LearnMsg, c.Half;
  }

  lemma {:induction false} NextPhase(c: Round, s: Sys, ph: Phase, ph': Phase)
    requires SysAt(c, s, ph) && c.Valid() && SamePhase(c, ph, ph')
    ensures SysAt(c, s, ph')
  {
    hide SysAt, SameFor, Under;
    Rephase(c, s, ph, ph');
  }

  lemma {:induction false} RoundIsValid(c: Round, s: Sys, ph: Phase)
    requires SysAt(c, s, ph)
    ensures c.Valid() && |c.extra| == |c.live| && 0 < c.Half() <= |c.live|
  {
  }

  lemma {:induction false} AskAll(c: Round, s: Sys, k: nat) returns (s': Sys)
    requires SysAt(c, s, Asking(k)) && k <= |c.live|
    ensures Leads(c.live, s, s') && SysAt(c, s', Clearing(0))
    decreases |c.live| - k
  {
    hide *;
    if k == |c.live| {
      RoundIsValid(c, s, Asking(k));
      PhaseEnds(c);
      NextPhase(c, s, Asking(k), Clearing(0));
      s' := s;
      LeadsNowhere(c.live, s);
    } else {
      var s1 := AskStep(c, s, k);
      s' := AskAll(c, s1, k + 1);
      LeadsOn(c.live, s, s1, s');
    }
  }

  lemma {:induction false} ClearAll(c: Round, s: Sys, k: nat) returns (s': Sys)
    requires SysAt(c, s, Clearing(k)) && k <= |c.live|
    ensures Leads(c.live, s, s') && SysAt(c, s', Promising(0))
    decreases |c.live| - k
  {
    hide *;
    if k == |c.live| {
      RoundIsValid(c, s, Clearing(k));
      PhaseEnds(c);
      NextPhase(c, s, Clearing(k), Promising(0));
      s' := s;
      LeadsNowhere(c.live, s);
    } else {
      var s1 := ClearStep(c, s, k);
      s' := ClearAll(c, s1, k + 1);
      LeadsOn(c.live, s, s1, s');
    }
  }

  lemma {:induction false} PromiseAll(c: Round, s: Sys, k: nat) returns (s': Sys)
    requires SysAt(c, s, Promising(k)) && k <= |c.live|
    ensures Leads(c.live, s, s') && SysAt(c, s', Accepting(0))
    decreases |c.live| - k
  {
    hide *;
    if k == |c.live| {
      RoundIsValid(c, s, Promising(k));
      PhaseEnds(c);
      NextPhase(c, s, Promising(k), Accepting(0));
      s' := s;
      LeadsNowhere(c.live, s);
    } else {
      var s1 := PromiseStep(c, s, k);
      s' := PromiseAll(c, s1, k + 1);
      LeadsOn(c.live, s, s1, s');
    }
  }

  lemma {:induction false} AcceptAll(c: Round, s: Sys, k: nat) returns (s': Sys)
    requires SysAt(c, s, Accepting(k)) && k <= |c.live|
    ensures Leads(c.live, s, s') && SysAt(c, s', Learning(0, 0))
    decreases |c.live| - k
  {
    hide *;
    if k == |c.live| {
      RoundIsValid(c, s, Accepting(k));
      PhaseEnds(c);
      NextPhase(c, s, Accepting(k), Learning(0, 0));
      s' := s;
      LeadsNowhere(c.live, s);
    } else {
      var s1 := AcceptStep(c, s, k);
      s' := AcceptAll(c, s1, k + 1);
      LeadsOn(c.live, s, s1, s');
    }
  }

  lemma {:induction false} LearnAll(c: Round, s: Sys, x: nat, k: nat) returns (s': Sys)
    requires SysAt(c, s, Learning(x, k)) && x <= |c.live| && k <= |c.live| && (x == |c.live| ==> k == 0)
    ensures Leads(c.live, s, s') && SysAt(c, s', Learning(|c.live|, 0))
    decreases |c.live| - x, |c.live| - k
  {
    hide *;
    if x == |c.live| {
      s' := s;
      LeadsNowhere(c.live, s);
    } else if k == |c.live| {
      RoundIsValid(c, s, Learning(x, k));
      PhaseEnds(c);
      NextPhase(c, s, Learning(x, k), Learning(x + 1, 0));
      s' := LearnAll(c, s, x + 1, 0);
    } else {
      var s1 := LearnStep(c, s, x, k);
      s' := LearnAll(c, s1, x, k + 1);
      LeadsOn(c.live, s, s1, s');
    }
  }

  /** A round in which nobody interferes reaches all members in `live`. */
  lemma {:induction false} RoundCompletes(c: Round, s: Sys) returns (s': Sys)
    requires SysAt(c, s, Asking(0))
    ensures Leads(c.live, s, s') && SysAt(c, s', Learning(|c.live|, 0))
  {
    hide *;
    var s1 := AskAll(c, s, 0);
    var s2 := ClearAll(c, s1, 0);
    var s3 := PromiseAll(c, s2, 0);
    var s4 := AcceptAll(c, s3, 0);
    s' := LearnAll(c, s4, 0, 0);
    LeadsOn(c.live, s, s1, s2);
    LeadsOn(c.live, s, s2, s3);
    LeadsOn(c.live, s, s3, s4);
    LeadsOn(c.live, s, s4, s');
  }
}
