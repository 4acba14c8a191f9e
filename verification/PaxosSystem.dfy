/** A group of `PaxosDriver`s with a fixed membership, joined by FIFO channels that deliver each
    message at most once (a message that is never delivered stands for a lost connection). */
module PaxosSystem {
  import opened PaxosTypes
  import opened PaxosNode

  datatype Config = Config(members: seq<EndpointId>, threshold: nat, increment: nat) {
    predicate Valid() { members != [] && Distinct(members) && increment > 0 }
  }

  /** Everything ever sent from one node to another, and how much of it has been received. */
  datatype Chan = Chan(sent: seq<Message>, recv: nat)

  type Wires = map<(EndpointId, EndpointId), Chan>

  /** The nodes, the channels, and the log each node has handed to its owner so far. */
  datatype Sys = Sys(nodes: map<EndpointId, Node>, wires: Wires, logs: map<EndpointId, seq<PLEntry>>)

  datatype Event =
    | Receive(sender: EndpointId, to: EndpointId)
    | InsertEvent(at: EndpointId, uuid: UUID, payload: int, rand: nat)
    | RetryEvent(at: EndpointId, uuid: UUID, rand: nat)
    | HeartbeatEvent(at: EndpointId, rand: nat)
    | NextIndexEvent(at: EndpointId)

  function InitialSys(cfg: Config): Sys
    requires cfg.Valid()
  {
    Sys(map e | e in cfg.members :: InitialNode(e, cfg.members, cfg.threshold, cfg.increment),
        map p, q | p in cfg.members && q in cfg.members :: (p, q) := Chan([], 0),
        map e | e in cfg.members :: [])
  }

  function PostOne(wires: Wires, a: EndpointId, send: Send): Wires {
    if (a, send.to) in wires
    then wires[(a, send.to) := wires[(a, send.to)].(sent := wires[(a, send.to)].sent + [send.msg])]
    else wires
  }

  function Post(wires: Wires, a: EndpointId, sends: seq<Send>): Wires {
    if sends == [] then wires
    else PostOne(Post(wires, a, sends[..|sends| - 1]), a, sends[|sends| - 1])
  }

  /** The effect of a handler of node `a` on the whole system. */
  function Apply(s: Sys, a: EndpointId, o: Out): Sys
    requires a in s.logs
  {
    Sys(s.nodes[a := o.node], Post(s.wires, a, o.sends), s.logs[a := s.logs[a] + o.learned])
  }

  function Received(s: Sys, p: EndpointId, q: EndpointId): Sys
    requires (p, q) in s.wires
  {
    s.(wires := s.wires[(p, q) := s.wires[(p, q)].(recv := s.wires[(p, q)].recv + 1)])
  }

  /** What the handler triggered by an event does at the node where it happens. */
  ghost predicate Runs(s: Sys, e: Event, s0: Sys, a: EndpointId, o: Out) {
    a in s.nodes && a in s.logs &&
    match e
    case Receive(p, q) =>
      a == q && (p, q) in s.wires && s.wires[(p, q)].recv < |s.wires[(p, q)].sent|
      && s0 == Received(s, p, q) && o == Handle(s.nodes[q], s.wires[(p, q)].sent[s.wires[(p, q)].recv])
    case InsertEvent(n, uuid, payload, rand) =>
      a == n && s0 == s && s.nodes[n].increment > 0 && o == InsertBundle(s.nodes[n], uuid, payload, rand)
    case RetryEvent(n, uuid, rand) =>
      a == n && s0 == s && s.nodes[n].increment > 0 && o == RetryInsert(s.nodes[n], uuid, rand)
    case HeartbeatEvent(n, rand) =>
      a == n && s0 == s && s.nodes[n].increment > 0 && o == LeaderHeartbeat(s.nodes[n], rand)
    case NextIndexEvent(n) => a == n && s0 == s && o == NextIndexTimer(s.nodes[n])
  }

  ghost predicate Step(s: Sys, e: Event, s': Sys) {
    exists s0, a, o :: Runs(s, e, s0, a, o) && a in s0.logs && s' == Apply(s0, a, o)
  }

  /** A run: each state follows from the one before by some event. */
  ghost predicate Run(cfg: Config, states: seq<Sys>, events: seq<Event>)
    requires cfg.Valid()
  {
    && |states| == |events| + 1 && states[0] == InitialSys(cfg)
    && forall k | 0 <= k < |events| :: Step(states[k], events[k], states[k + 1])
  }

  // ---------------------------------------------------------------------------------------------
  //  Composition
  // ---------------------------------------------------------------------------------------------

  lemma {:induction false} PostConcat(wires: Wires, a: EndpointId, s1: seq<Send>, s2: seq<Send>)
    ensures Post(Post(wires, a, s1), a, s2) == Post(wires, a, s1 + s2)
  {
    if s2 == [] {
      assert s1 + s2 == s1;
    } else {
      var init := s2[..|s2| - 1];
      PostConcat(wires, a, s1, init);
      assert (s1 + s2)[..|s1 + s2| - 1] == s1 + init;
    }
  }

  lemma {:induction false} ApplyThen(s: Sys, a: EndpointId, o: Out, p: Out)
    requires a in s.logs
    ensures Apply(Apply(s, a, o), a, p) == Apply(s, a, Then(o, p))
  {
    PostConcat(s.wires, a, o.sends, p.sends);
    assert s.logs[a] + o.learned + p.learned == s.logs[a] + (o.learned + p.learned);
    var l := s.logs[a := s.logs[a] + o.learned];
    assert l[a := l[a] + p.learned] == s.logs[a := s.logs[a] + (o.learned + p.learned)];
    assert s.nodes[a := o.node][a := p.node] == s.nodes[a := p.node];
  }

  lemma {:induction false} ApplyQuiet(s: Sys, a: EndpointId)
    requires a in s.logs && a in s.nodes
    ensures Apply(s, a, Quiet(s.nodes[a])) == s
  {
    assert s.logs[a] + [] == s.logs[a];
    assert s.logs[a := s.logs[a]] == s.logs && s.nodes[a := s.nodes[a]] == s.nodes;
  }
}
