/** Runs of some members of a group, event by event, and the messages under way between them. */
module PaxosPaths {
  import opened PaxosTypes
  import opened PaxosNode
  import opened PaxosSystem

  // ---------------------------------------------------------------------------------------------
  //  Paths
  // ---------------------------------------------------------------------------------------------

  /** The member at which an event happens. */
  function Where(e: Event): EndpointId {
    match e
    case Receive(_, to) => to
    case InsertEvent(at, _, _, _) => at
    case RetryEvent(at, _, _) => at
    case HeartbeatEvent(at, _) => at
    case NextIndexEvent(at) => at
  }

  /** The events lead through the states, and happen at members of `live` alone. */
  ghost predicate Path(live: seq<EndpointId>, states: seq<Sys>, events: seq<Event>) {
    && |states| == |events| + 1
    && forall k | 0 <= k < |events| :: Step(states[k], events[k], states[k + 1]) && Where(events[k]) in live
  }

  ghost predicate Leads(live: seq<EndpointId>, s: Sys, s': Sys) {
    exists states, events :: Path(live, states, events) && states[0] == s && states[|events|] == s'
  }

  lemma {:induction false} LeadsNowhere(live: seq<EndpointId>, s: Sys)
    ensures Leads(live, s, s)
  {
    assert Path(live, [s], []);
  }

  lemma {:induction false} LeadsStep(live: seq<EndpointId>, s: Sys, e: Event, s': Sys)
    requires Step(s, e, s') && Where(e) in live
    ensures Leads(live, s, s')
  {
    assert Path(live, [s, s'], [e]);
  }

  lemma {:induction false} PathsJoin(live: seq<EndpointId>, xs: seq<Sys>, es: seq<Event>, ys: seq<Sys>, fs: seq<Event>)
    requires Path(live, xs, es) && Path(live, ys, fs) && xs[|es|] == ys[0]
    ensures Path(live, xs + ys[1..], es + fs)
    ensures (xs + ys[1..])[0] == xs[0] && (xs + ys[1..])[|es + fs|] == ys[|fs|]
  {
    hide Step;
    var zs, gs := xs + ys[1..], es + fs;
    forall k | 0 <= k < |gs| ensures Step(zs[k], gs[k], zs[k + 1]) && Where(gs[k]) in live {
      if k >= |es| {
        assert zs[k] == ys[k - |es|] && zs[k + 1] == ys[k - |es| + 1];
        assert Step(ys[k - |es|], fs[k - |es|], ys[k - |es| + 1]);
      } else {
        assert Step(xs[k], es[k], xs[k + 1]);
      }
    }
  }

  lemma {:induction false} LeadsOn(live: seq<EndpointId>, s: Sys, s1: Sys, s2: Sys)
    requires Leads(live, s, s1) && Leads(live, s1, s2)
    ensures Leads(live, s, s2)
  {
    var xs, es :| Path(live, xs, es) && xs[0] == s && xs[|es|] == s1;
    var ys, fs :| Path(live, ys, fs) && ys[0] == s1 && ys[|fs|] == s2;
    hide Path;
    PathsJoin(live, xs, es, ys, fs);
  }

  // ---------------------------------------------------------------------------------------------
  //  What is under way
  // ---------------------------------------------------------------------------------------------

  ghost predicate Pending(s: Sys, p: EndpointId, q: EndpointId, ms: seq<Message>) {
    (p, q) in s.wires && s.wires[(p, q)].recv <= |s.wires[(p, q)].sent|
    && s.wires[(p, q)].sent[s.wires[(p, q)].recv..] == ms
  }

  function To(sends: seq<Send>, q: EndpointId): seq<Message> {
    if sends == [] then []
    else
      var x := sends[|sends| - 1];
      To(sends[..|sends| - 1], q) + if x.to == q then [x.msg] else []
  }

  lemma {:induction false} PostPends(wires: Wires, a: EndpointId, sends: seq<Send>, p: EndpointId, q: EndpointId)
    ensures (p, q) in Post(wires, a, sends) <==> (p, q) in wires
    ensures (p, q) in wires ==>
      Post(wires, a, sends)[(p, q)] == Chan(wires[(p, q)].sent + (if p == a then To(sends, q) else []), wires[(p, q)].recv)
  {
    if sends != [] {
      var init, x := sends[..|sends| - 1], sends[|sends| - 1];
      PostPends(wires, a, init, p, q);
      PostPends(wires, a, init, a, x.to);
      if (p, q) in wires && p == a { assert wires[(p, q)].sent + To(sends, q) == wires[(p, q)].sent + To(init, q) + if x.to == q then [x.msg] else []; }
    } else if (p, q) in wires {
      assert wires[(p, q)].sent + [] == wires[(p, q)].sent;
    }
  }

  lemma {:induction false} ToEach(nodes: seq<EndpointId>, m: Message, q: EndpointId)
    requires Distinct(nodes)
    ensures To(Broadcast(nodes, m), q) == if q in nodes then [m] else []
  {
    if nodes != [] {
      var n := |nodes| - 1;
      assert Broadcast(nodes, m)[..n] == Broadcast(nodes[..n], m);
      assert q in nodes <==> q in nodes[..n] || q == nodes[n];
      ToEach(nodes[..n], m, q);
    }
  }

  lemma {:induction false} ToOne(x: Send, q: EndpointId)
    ensures To([x], q) == if x.to == q then [x.msg] else []
    ensures To([], q) == []
  {
    assert [x][..0] == [];
  }

  lemma {:induction false} ToBoth(a: seq<Send>, b: seq<Send>, q: EndpointId)
    ensures To(a + b, q) == To(a, q) + To(b, q)
  {
    if b == [] {
      assert a + b == a;
    } else {
      var init := b[..|b| - 1];
      ToBoth(a, init, q);
      assert (a + b)[..|a + b| - 1] == a + init;
    }
  }

  /** Node `a` acts on state `s`: its messages join those under way. */
  ghost predicate Acts(s: Sys, a: EndpointId, o: Out, s': Sys) {
    && a in s.nodes && a in s.logs && s'.nodes == s.nodes[a := o.node] && s'.logs == s.logs[a := s.logs[a] + o.learned]
    && forall p, q, ms | Pending(s, p, q, ms) :: Pending(s', p, q, ms + if p == a then To(o.sends, q) else [])
  }

  lemma {:induction false} ApplyActs(s: Sys, a: EndpointId, o: Out)
    requires a in s.nodes && a in s.logs
    ensures Acts(s, a, o, Apply(s, a, o))
  {
    var s' := Apply(s, a, o);
    forall p, q, ms | Pending(s, p, q, ms) ensures Pending(s', p, q, ms + if p == a then To(o.sends, q) else []) {
      PostPends(s.wires, a, o.sends, p, q);
    }
  }

  /** A message is received. */
  ghost predicate Receives(s: Sys, p: EndpointId, q: EndpointId, m: Message, s': Sys) {
    && q in s.nodes && q in s.logs
    && var o := Handle(s.nodes[q], m);
    && s'.nodes == s.nodes[q := o.node] && s'.logs == s.logs[q := s.logs[q] + o.learned]
    && forall x, y, ms | Pending(s, x, y, ms) && ((x, y) == (p, q) ==> ms != []) ::
         Pending(s', x, y, (if (x, y) == (p, q) then ms[1..] else ms) + if x == q then To(o.sends, y) else [])
  }

  lemma {:induction false} ReceiveStep(s: Sys, p: EndpointId, q: EndpointId, ms: seq<Message>) returns (s': Sys)
    requires Pending(s, p, q, ms) && ms != [] && q in s.nodes && q in s.logs
    ensures Step(s, Receive(p, q), s') && Receives(s, p, q, ms[0], s')
  {
    var o := Handle(s.nodes[q], ms[0]);
    var c := s.wires[(p, q)];
    assert c.sent[c.recv] == ms[0];
    hide Handle, Post;
    var s0 := Received(s, p, q);
    s' := Apply(s0, q, o);
    assert Runs(s, Receive(p, q), s0, q, o);
    ApplyActs(s0, q, o);
    forall x, y, ns | Pending(s, x, y, ns) && ((x, y) == (p, q) ==> ns != [])
      ensures Pending(s', x, y, (if (x, y) == (p, q) then ns[1..] else ns) + if x == q then To(o.sends, y) else [])
    {
      if (x, y) == (p, q) { assert c.sent[c.recv + 1..] == ns[1..]; }
      assert Pending(s0, x, y, if (x, y) == (p, q) then ns[1..] else ns);
    }
  }
}
