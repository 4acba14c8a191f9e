/** In every run: how many heartbeats a member has missed, whom it has promised anything, and how far it
    takes the others to be. */
module PaxosHeartbeats {
  import opened PaxosTypes
  import opened PaxosNode
  import opened PaxosSystem
  import opened PaxosInvariant
  import opened PaxosPaths
  import opened PaxosLeaders
  import opened PaxosTheorems
  import opened PaxosMajorities
  import opened PaxosCatchUp

  // ---------------------------------------------------------------------------------------------
  //  Heartbeats
  // ---------------------------------------------------------------------------------------------

  /** What an event adds to the log of `a`. */
  function Appended(s: Sys, s': Sys, a: EndpointId): seq<PLEntry> {
    if a in s.logs && a in s'.logs && |s.logs[a]| <= |s'.logs[a]| then s'.logs[a][|s.logs[a]|..] else []
  }

  /** The heartbeats that `a` has missed in a row after `n` events: how often its timer has run out while it
      followed somebody else, since it last heard from its leader or got another one. */
  function Missed(states: seq<Sys>, events: seq<Event>, n: nat, a: EndpointId): nat
    requires n <= |events| < |states|
  {
    if n == 0 then 0
    else
      var s, e, before := states[n - 1], events[n - 1], Missed(states, events, n - 1, a);
      if Where(e) != a then before
      else if NewLeader(Appended(s, states[n], a)) || BringsBeat(s, e) then 0
      else if Misses(s, e) then before + 1
      else before
  }

  /** `p` was the leader at some time, as far as `a` knows. */
  predicate HasLed(cfg: Config, s: Sys, a: EndpointId, p: EndpointId)
    requires cfg.Valid()
  {
    p == cfg.members[0] || (a in s.logs && MadeLeader(s.logs[a], p))
  }

  /** Who may have been promised something by `a`. */
  ghost predicate Entitled(cfg: Config, states: seq<Sys>, events: seq<Event>, n: nat, a: EndpointId, p: EndpointId)
    requires cfg.Valid() && n <= |events| < |states|
  {
    HasLed(cfg, states[n], a, p) || exists k: nat :: k <= n && Missed(states, events, k, a) > cfg.threshold
  }

  predicate Promised(s: Sys, a: EndpointId, p: EndpointId, i: PLIndex, r: Rnd, vote: Vote) {
    (a, p) in s.wires && Multi(a, i, Promise(r, vote)) in s.wires[(a, p)].sent
  }

  ghost predicate BeatsOk(cfg: Config, states: seq<Sys>, events: seq<Event>, n: nat, a: EndpointId)
    requires cfg.Valid() && n <= |events| < |states|
  {
    var s := states[n];
    && a in s.nodes && a in s.logs && s.nodes[a].me == a && s.nodes[a].threshold == cfg.threshold
    && s.nodes[a].heartbeat == Missed(states, events, n, a)
    && HasLed(cfg, s, a, s.nodes[a].leader.eid)
    && forall p, i, r, vote | Promised(s, a, p, i, r, vote) :: Entitled(cfg, states, events, n, a, p)
  }

  lemma {:induction false} InitiallyNoBeats(cfg: Config, states: seq<Sys>, events: seq<Event>, a: EndpointId)
    requires cfg.Valid() && Run(cfg, states, events) && a in cfg.members && |events| < |states|
    ensures BeatsOk(cfg, states, events, 0, a)
  {
  }

  /** What a step at another node leaves as it is. */
  lemma {:induction false} BeatsElsewhere(cfg: Config, states: seq<Sys>, events: seq<Event>, n: nat, a: EndpointId)
    requires cfg.Valid() && n < |events| < |states| && BeatsOk(cfg, states, events, n, a) && Where(events[n]) != a
    requires var s, s' := states[n], states[n + 1];
      && a in s'.nodes && s'.nodes[a] == s.nodes[a] && a in s'.logs && s'.logs[a] == s.logs[a]
      && forall p, i, r, vote | Promised(s', a, p, i, r, vote) :: Promised(s, a, p, i, r, vote)
    ensures BeatsOk(cfg, states, events, n + 1, a)
  {
    forall p | Entitled(cfg, states, events, n, a, p) ensures Entitled(cfg, states, events, n + 1, a, p) { }
    hide Missed, Promised, HasLed;
    assert Missed(states, events, n + 1, a) == Missed(states, events, n, a) by { MissedElsewhere(states, events, n, a); }
    assert HasLed(cfg, states[n + 1], a, states[n + 1].nodes[a].leader.eid) by { LedAlike(cfg, states[n], states[n + 1], a, states[n].nodes[a].leader.eid); }
  }

  lemma {:induction false} LedAlike(cfg: Config, s: Sys, s': Sys, a: EndpointId, p: EndpointId)
    requires cfg.Valid() && a in s.logs && a in s'.logs && |s.logs[a]| <= |s'.logs[a]| && s'.logs[a][..|s.logs[a]|] == s.logs[a]
    ensures HasLed(cfg, s, a, p) ==> HasLed(cfg, s', a, p)
    ensures MadeLeader(Appended(s, s', a), p) ==> HasLed(cfg, s', a, p)
  {
    var before, after := s.logs[a], s'.logs[a];
    assert after == before + after[|before|..];
    MadeInBoth(before, after[|before|..], p);
  }

  lemma {:induction false} MissedElsewhere(states: seq<Sys>, events: seq<Event>, n: nat, a: EndpointId)
    requires n < |events| < |states| && Where(events[n]) != a
    ensures Missed(states, events, n + 1, a) == Missed(states, events, n, a)
  {
  }

  /** The step of node `a`. */
  lemma {:induction false} BeatsHere(cfg: Config, states: seq<Sys>, events: seq<Event>, n: nat, a: EndpointId, o: Out)
    requires cfg.Valid() && n < |events| < |states| && BeatsOk(cfg, states, events, n, a) && Where(events[n]) == a
    requires Follows(Before(states[n], events[n], a), o.node, o.learned, o.sends)
    requires events[n].HeartbeatEvent? ==> NoPromise(o.sends) && o.learned == []
    requires var s, s' := states[n], states[n + 1];
      && a in s'.nodes && s'.nodes[a] == o.node && a in s'.logs && s'.logs[a] == s.logs[a] + o.learned
      && forall p, i, r, vote | Promised(s', a, p, i, r, vote) ::
           Promised(s, a, p, i, r, vote) || Send(p, Multi(a, i, Promise(r, vote))) in o.sends
    ensures BeatsOk(cfg, states, events, n + 1, a)
  {
    var s, s', e := states[n], states[n + 1], events[n];
    assert Appended(s, s', a) == o.learned;
    assert s'.logs[a][..|s.logs[a]|] == s.logs[a];
    MissedHere(states, events, n, a);
    assert Before(s, e, a).leader == s.nodes[a].leader && Before(s, e, a).threshold == cfg.threshold && o.node.me == a && o.node.threshold == cfg.threshold;
    LedAlike(cfg, s, s', a, o.node.leader.eid);
    assert HasLed(cfg, s', a, o.node.leader.eid);
    assert BringsBeat(s, e) ==> !Misses(s, e);
    forall p, i, r, vote | Promised(s', a, p, i, r, vote) ensures Entitled(cfg, states, events, n + 1, a, p) {
      LedAlike(cfg, s, s', a, p);
      if Promised(s, a, p, i, r, vote) {
        assert Entitled(cfg, states, events, n, a, p);
      } else {
        NewPromise(s, e, a, o, p, i, r, vote);
        hide Missed;
        if s.nodes[a].heartbeat > cfg.threshold { assert Missed(states, events, n, a) > cfg.threshold; }
      }
    }
  }

  lemma {:induction false} MissedHere(states: seq<Sys>, events: seq<Event>, n: nat, a: EndpointId)
    requires n < |events| < |states| && Where(events[n]) == a
    ensures Missed(states, events, n + 1, a) ==
              if NewLeader(Appended(states[n], states[n + 1], a)) || BringsBeat(states[n], events[n]) then 0
              else if Misses(states[n], events[n]) then Missed(states, events, n, a) + 1 else Missed(states, events, n, a)
  {
  }

  lemma {:induction false} NewPromise(s: Sys, e: Event, a: EndpointId, o: Out, p: EndpointId, i: PLIndex, r: Rnd, vote: Vote)
    requires a in s.nodes && Follows(Before(s, e, a), o.node, o.learned, o.sends) && Send(p, Multi(a, i, Promise(r, vote))) in o.sends
    requires e.HeartbeatEvent? ==> NoPromise(o.sends)
    ensures s.nodes[a].heartbeat > s.nodes[a].threshold || p == s.nodes[a].leader.eid || MadeLeader(o.learned, p)
  {
    var k :| 0 <= k < |o.sends| && o.sends[k] == Send(p, Multi(a, i, Promise(r, vote)));
    assert MayPromise(Before(s, e, a), o.learned, o.sends[k].to);
    hide MadeLeader;
  }

  lemma {:induction false} RunBeats(cfg: Config, states: seq<Sys>, events: seq<Event>, n: nat, a: EndpointId)
    requires cfg.Valid() && Run(cfg, states, events) && a in cfg.members && n <= |events| < |states|
    ensures BeatsOk(cfg, states, events, n, a)
  {
    hide *;
    if n == 0 {
      InitiallyNoBeats(cfg, states, events, a);
    } else {
      RunSteps(cfg, states, events, n - 1);
      RunBeats(cfg, states, events, n - 1, a);
      RunSound(cfg, states, events, n - 1);
      AnyStepBeats(cfg, states, events, n - 1, a);
    }
  }

  lemma {:induction false} AnyStepBeats(cfg: Config, states: seq<Sys>, events: seq<Event>, n: nat, a: EndpointId)
    requires cfg.Valid() && n < |events| < |states| && a in cfg.members && BeatsOk(cfg, states, events, n, a) && AllSound(cfg, states[n])
    requires Step(states[n], events[n], states[n + 1])
    ensures BeatsOk(cfg, states, events, n + 1, a)
  {
    hide Runs, Apply, BeatsOk, AllSound;
    var s0, x, o :| Runs(states[n], events[n], s0, x, o) && x in s0.logs && states[n + 1] == Apply(s0, x, o);
    StepBeats(cfg, states, events, n, a, s0, x, o);
  }

  lemma {:induction false} StepBeats(cfg: Config, states: seq<Sys>, events: seq<Event>, n: nat, a: EndpointId, s0: Sys, x: EndpointId, o: Out)
    requires cfg.Valid() && n < |events| < |states| && a in cfg.members && BeatsOk(cfg, states, events, n, a) && AllSound(cfg, states[n])
    requires Runs(states[n], events[n], s0, x, o) && x in s0.logs && states[n + 1] == Apply(s0, x, o)
    ensures BeatsOk(cfg, states, events, n + 1, a)
  {
    var s, e, s' := states[n], events[n], states[n + 1];
    assert Where(e) == x && s0.logs == s.logs && x in s.nodes by { hide Handle, InsertBundle, RetryInsert, LeaderHeartbeat; }
    StepPosts(cfg, s, e, s0, x, o, a);
    EventFollows(s, e, s0, x, o);
    assert a in s.nodes && a in s.logs by { BeatsGive(cfg, states, events, n, a); }
    hide Runs, AllSound, BeatsOk, Follows;
    if a == x {
      BeatsHere(cfg, states, events, n, a, o);
    } else {
      BeatsElsewhere(cfg, states, events, n, a);
    }
  }

  lemma {:induction false} BeatsGive(cfg: Config, states: seq<Sys>, events: seq<Event>, n: nat, a: EndpointId)
    requires cfg.Valid() && n <= |events| < |states| && BeatsOk(cfg, states, events, n, a)
    ensures a in states[n].nodes && a in states[n].logs
  {
  }

  /** The promises on the wires after a step. */
  lemma {:induction false} StepPosts(cfg: Config, s: Sys, e: Event, s0: Sys, x: EndpointId, o: Out, a: EndpointId)
    requires AllSound(cfg, s) && Runs(s, e, s0, x, o) && x in s0.logs
    ensures Apply(s0, x, o).nodes == s.nodes[x := o.node]
    ensures var s' := Apply(s0, x, o);
      forall p, i, r, vote | Promised(s', a, p, i, r, vote) ::
        Promised(s, a, p, i, r, vote) || (a == x && Send(p, Multi(a, i, Promise(r, vote))) in o.sends)
  {
    var s' := Apply(s0, x, o);
    hide AllSound, Handle, InsertBundle, RetryInsert, LeaderHeartbeat;
    forall p, i, r, vote | Promised(s', a, p, i, r, vote)
      ensures Promised(s, a, p, i, r, vote) || (a == x && Send(p, Multi(a, i, Promise(r, vote))) in o.sends)
    {
      Posted(s0.wires, x, o.sends, a, p);
      assert (a, p) in s.wires ==> s0.wires[(a, p)].sent == s.wires[(a, p)].sent;
    }
  }

  /** The heartbeats that a member counts are those that it has missed in a row. */
  lemma {:induction false} HeartbeatsAreMissed(cfg: Config, states: seq<Sys>, events: seq<Event>, n: nat, a: EndpointId)
    requires cfg.Valid() && Run(cfg, states, events) && a in cfg.members && n <= |events| < |states|
    ensures a in states[n].nodes && states[n].nodes[a].heartbeat == Missed(states, events, n, a)
  {
    hide Missed, Run;
    RunBeats(cfg, states, events, n, a);
  }

  /** A member that has never missed more heartbeats than the threshold has promised something to those alone
      that it knows to have been leaders. */
  lemma {:induction false} PromisesToLeaders(cfg: Config, states: seq<Sys>, events: seq<Event>, n: nat, a: EndpointId, p: EndpointId, i: PLIndex, r: Rnd, vote: Vote)
    requires cfg.Valid() && Run(cfg, states, events) && a in cfg.members && n <= |events| < |states|
    requires Promised(states[n], a, p, i, r, vote) && forall k: nat | k <= n :: Missed(states, events, k, a) <= cfg.threshold
    ensures HasLed(cfg, states[n], a, p)
  {
    hide Missed, Run, HasLed, Promised;
    RunBeats(cfg, states, events, n, a);
  }

  /** A leader is replaced only by a member that had missed more heartbeats than the threshold when it ran. */
  lemma {:induction false} ChallengersHaveWaited(cfg: Config, states: seq<Sys>, events: seq<Event>, n: nat, a: EndpointId, i: PLIndex)
    returns (k: nat)
    requires cfg.Valid() && Run(cfg, states, events) && n <= |events| < |states|
    requires a in states[n].logs && i < |states[n].logs[a]| && states[n].logs[a][i].LeaderChanged?
    ensures var p := states[n].logs[a][i].lid.eid;
      k < n && p in states[k].logs && |states[k].logs[p]| == i && Missed(states, events, k, p) >= cfg.threshold
      && events[k].HeartbeatEvent? && events[k].at == p
  {
    hide Missed, Run;
    RunLength(cfg, states, events);
    var p;
    p, k := LogLeadership(cfg, states, events, n, a, i);
    assert p in cfg.members by { MemberOf(cfg, states, events, k, p); }
    RunBeats(cfg, states, events, k, p);
    LogReaches(cfg, states, events, k, p);
  }

  lemma {:induction false} MemberOf(cfg: Config, states: seq<Sys>, events: seq<Event>, k: nat, p: EndpointId)
    requires cfg.Valid() && Run(cfg, states, events) && k < |states| && p in states[k].nodes
    ensures p in cfg.members
  {
    hide Run, Inv, OffersHappened, HistExtends;
    RunLength(cfg, states, events);
    var hs := RunHistories(cfg, states, events, k);
    InvMembers(cfg, states[k], hs[k]);
  }

  // ---------------------------------------------------------------------------------------------
  //  Remote indices
  // ---------------------------------------------------------------------------------------------

  /** The confirmation that message `k` from `e` to `a` is, if it is one. */
  predicate Confirms(s: Sys, e: EndpointId, a: EndpointId, k: nat, i: PLIndex) {
    (e, a) in s.wires && k < s.wires[(e, a)].recv <= |s.wires[(e, a)].sent| && s.wires[(e, a)].sent[k] == NextIndexResponse(e, i)
  }

  /** `a` takes `e` to be as far as the farthest confirmation received says, and at 0 without any. */
  ghost predicate RemoteExact(s: Sys, a: EndpointId, e: EndpointId) {
    && a in s.nodes && e in s.nodes[a].remote
    && (forall k, i | Confirms(s, e, a, k, i) :: i <= s.nodes[a].remote[e])
    && (s.nodes[a].remote[e] == 0 || exists k :: Confirms(s, e, a, k, s.nodes[a].remote[e]))
  }

  lemma {:induction false} HandleRemote(n: Node, m: Message)
    ensures Handle(n, m).node.remote ==
              if m.NextIndexResponse? && m.responder in n.remote
              then n.remote[m.responder := if n.remote[m.responder] < m.nextIndex then m.nextIndex else n.remote[m.responder]]
              else n.remote
  {
    hide MinComplete;
  }

  lemma {:induction false} TimerRemote(s: Sys, e: Event, s0: Sys, a: EndpointId, o: Out)
    requires Runs(s, e, s0, a, o) && !e.Receive?
    ensures o.node.remote == s.nodes[a].remote && s0 == s
  {
    hide NextRound, Handle;
  }

  /** Received messages do not change. */
  lemma {:induction false} ConfirmsKept(s: Sys, s': Sys, e: EndpointId, a: EndpointId)
    requires (e, a) in s.wires && (e, a) in s'.wires
    requires Extends(s.wires[(e, a)], s'.wires[(e, a)], 0)
    ensures forall k, i :: Confirms(s', e, a, k, i) == Confirms(s, e, a, k, i)
  {
    var c, d := s.wires[(e, a)], s'.wires[(e, a)];
    assert forall k | 0 <= k < |c.sent| :: d.sent[k] == d.sent[..|c.sent|][k];
  }

  lemma {:induction false} RemoteKept(s: Sys, s': Sys, a: EndpointId, e: EndpointId)
    requires RemoteExact(s, a, e) && a in s'.nodes && s'.nodes[a].remote == s.nodes[a].remote
    requires forall k, i :: Confirms(s', e, a, k, i) == Confirms(s, e, a, k, i)
    ensures RemoteExact(s', a, e)
  {
    hide Confirms;
    if s.nodes[a].remote[e] != 0 {
      var k :| Confirms(s, e, a, k, s.nodes[a].remote[e]);
      assert Confirms(s', e, a, k, s'.nodes[a].remote[e]);
    }
  }

  /** Which confirmations there are once one more message from `p` has been received by `a`. */
  lemma {:induction false} ConfirmsMore(s: Sys, s': Sys, p: EndpointId, a: EndpointId, e: EndpointId, m: Message)
    requires (p, a) in s.wires && s.wires[(p, a)].recv < |s.wires[(p, a)].sent| && m == s.wires[(p, a)].sent[s.wires[(p, a)].recv]
    requires (e, a) in s.wires && (e, a) in s'.wires && Extends(s.wires[(e, a)], s'.wires[(e, a)], if e == p then 1 else 0)
    ensures forall k, i :: Confirms(s', e, a, k, i) <==>
              Confirms(s, e, a, k, i) || (e == p && k == s.wires[(e, a)].recv && m == NextIndexResponse(e, i))
  {
    var c, d := s.wires[(e, a)], s'.wires[(e, a)];
    assert forall k | 0 <= k < |c.sent| :: d.sent[k] == d.sent[..|c.sent|][k];
  }

  /** One more message from `p` has been received by `a`. */
  lemma {:induction false} RemoteTaken(s: Sys, s': Sys, p: EndpointId, a: EndpointId, e: EndpointId, m: Message)
    requires RemoteExact(s, a, e) && (p, a) in s.wires && s.wires[(p, a)].recv < |s.wires[(p, a)].sent| && m == s.wires[(p, a)].sent[s.wires[(p, a)].recv]
    requires m.NextIndexResponse? ==> m.responder == p
    requires a in s'.nodes && s'.nodes[a].remote == Handle(s.nodes[a], m).node.remote
    requires (e, a) in s.wires && (e, a) in s'.wires && Extends(s.wires[(e, a)], s'.wires[(e, a)], if e == p then 1 else 0)
    ensures RemoteExact(s', a, e)
  {
    HandleRemote(s.nodes[a], m);
    hide Handle;
    ConfirmsMore(s, s', p, a, e, m);
    var c, before, after := s.wires[(e, a)], s.nodes[a].remote[e], s'.nodes[a].remote[e];
    hide Confirms, Extends;
    if after != before {
      assert Confirms(s', e, a, c.recv, after);
    } else if after != 0 {
      var k :| Confirms(s, e, a, k, before);
      assert Confirms(s', e, a, k, after);
    }
  }

  /** Whoever confirms an index speaks for itself. */
  ghost predicate Genuine(s: Sys) {
    forall p, a | (p, a) in s.wires && s.wires[(p, a)].recv < |s.wires[(p, a)].sent| ::
      s.wires[(p, a)].sent[s.wires[(p, a)].recv].NextIndexResponse? ==> s.wires[(p, a)].sent[s.wires[(p, a)].recv].responder == p
  }

  lemma {:induction false} InvGenuine(cfg: Config, s: Sys, h: Hist)
    requires Inv(cfg, s, h)
    ensures Genuine(s) && InGroup(cfg, s)
  {
    hide Inv, InGroup;
    PaxosCounting.WiresBounded(cfg, s, h);
    InvInGroup(cfg, s, h);
    forall p, a | (p, a) in s.wires && s.wires[(p, a)].recv < |s.wires[(p, a)].sent|
      ensures s.wires[(p, a)].sent[s.wires[(p, a)].recv].NextIndexResponse? ==> s.wires[(p, a)].sent[s.wires[(p, a)].recv].responder == p
    {
      PaxosCounting.MarkSender(cfg, s, h, p, a);
    }
  }

  lemma {:induction false} StepRemote(cfg: Config, s: Sys, ev: Event, s0: Sys, x: EndpointId, o: Out, a: EndpointId, e: EndpointId)
    requires InGroup(cfg, s) && Genuine(s) && a in cfg.members && e in cfg.members
    requires Runs(s, ev, s0, x, o) && x in s0.logs && RemoteExact(s, a, e)
    ensures RemoteExact(Apply(s0, x, o), a, e)
  {
    var s' := Apply(s0, x, o);
    StepWires(cfg, s, ev, s0, x, o, a, e);
    hide InGroup, RemoteExact, Apply, Handle;
    if a == x && ev.Receive? {
      var m := s.wires[(ev.sender, a)].sent[s.wires[(ev.sender, a)].recv];
      assert o == Handle(s.nodes[a], m) && ev.to == a;
      hide Runs;
      RemoteTaken(s, s', ev.sender, a, e, m);
    } else {
      if a == x { TimerRemote(s, ev, s0, x, o); }
      assert ev.Receive? ==> ev.to == x;
      hide Runs;
      ConfirmsKept(s, s', e, a);
      RemoteKept(s, s', a, e);
    }
  }

  /** What a step does to the nodes and to the channel from `e` to `a`. */
  lemma {:induction false} StepWires(cfg: Config, s: Sys, ev: Event, s0: Sys, x: EndpointId, o: Out, a: EndpointId, e: EndpointId)
    requires InGroup(cfg, s) && a in cfg.members && e in cfg.members && Runs(s, ev, s0, x, o) && x in s0.logs
    ensures var s' := Apply(s0, x, o);
      && x in s.nodes && a in s.nodes && s'.nodes == s.nodes[x := o.node] && (e, a) in s.wires && (e, a) in s'.wires
    ensures Extends(s.wires[(e, a)], Apply(s0, x, o).wires[(e, a)], if ev.Receive? && ev.sender == e && ev.to == a then 1 else 0)
  {
    var c := s.wires[(e, a)];
    assert c.recv <= |c.sent|;
    assert (e, a) in s0.wires && Extends(c, s0.wires[(e, a)], if ev.Receive? && ev.sender == e && ev.to == a then 1 else 0) by {
      hide Handle, InsertBundle, RetryInsert, LeaderHeartbeat, InGroup;
      assert c.sent[..|c.sent|] == c.sent;
    }
    assert s0.nodes == s.nodes by { hide Handle, InsertBundle, RetryInsert, LeaderHeartbeat, InGroup; }
    assert x in s.nodes by { hide Handle, InsertBundle, RetryInsert, LeaderHeartbeat, InGroup; }
    hide Runs;
    PostPends(s0.wires, x, o.sends, e, a);
  }

  /** A channel on which `k` more messages have been received, and perhaps more were sent. */
  predicate Extends(c: Chan, d: Chan, k: nat) {
    c.recv <= |c.sent| <= |d.sent| && d.sent[..|c.sent|] == c.sent && d.recv == c.recv + k
  }

  /** In every run the index that a node records for another is the largest one confirmed to it so far. */
  lemma {:induction false} RemoteIsLargest(cfg: Config, states: seq<Sys>, events: seq<Event>, n: nat, a: EndpointId, e: EndpointId)
    requires cfg.Valid() && Run(cfg, states, events) && n < |states| && a in cfg.members && e in cfg.members
    ensures RemoteExact(states[n], a, e)
  {
    hide *;
    RunLength(cfg, states, events);
    if n == 0 {
      RunStarts(cfg, states, events);
      InitiallyExact(cfg, a, e);
    } else {
      RunSteps(cfg, states, events, n - 1);
      RemoteIsLargest(cfg, states, events, n - 1, a, e);
      StateGenuine(cfg, states, events, n - 1);
      AnyStepRemote(cfg, states[n - 1], events[n - 1], states[n], a, e);
    }
  }

  lemma {:induction false} RunStarts(cfg: Config, states: seq<Sys>, events: seq<Event>)
    requires cfg.Valid() && Run(cfg, states, events)
    ensures states != [] && states[0] == InitialSys(cfg)
  {
  }

  lemma {:induction false} RunSteps(cfg: Config, states: seq<Sys>, events: seq<Event>, k: nat)
    requires cfg.Valid() && Run(cfg, states, events) && k < |events|
    ensures |states| == |events| + 1 && Step(states[k], events[k], states[k + 1])
  {
    hide Step;
  }

  lemma {:induction false} InitiallyExact(cfg: Config, a: EndpointId, e: EndpointId)
    requires cfg.Valid() && a in cfg.members && e in cfg.members
    ensures RemoteExact(InitialSys(cfg), a, e)
  {
  }

  lemma {:induction false} StateGenuine(cfg: Config, states: seq<Sys>, events: seq<Event>, n: nat)
    requires cfg.Valid() && Run(cfg, states, events) && n <= |events| < |states|
    ensures Genuine(states[n]) && InGroup(cfg, states[n])
  {
    hide Run, Inv, HistExtends, OffersHappened, Genuine, InGroup;
    var hs := RunHistories(cfg, states, events, n);
    InvGenuine(cfg, states[n], hs[n]);
  }

  lemma {:induction false} AnyStepRemote(cfg: Config, s: Sys, ev: Event, s': Sys, a: EndpointId, e: EndpointId)
    requires InGroup(cfg, s) && Genuine(s) && a in cfg.members && e in cfg.members && Step(s, ev, s') && RemoteExact(s, a, e)
    ensures RemoteExact(s', a, e)
  {
    hide Runs, Apply, InGroup, Genuine, RemoteExact;
    var s0, x, o :| Runs(s, ev, s0, x, o) && x in s0.logs && s' == Apply(s0, x, o);
    StepRemote(cfg, s, ev, s0, x, o, a, e);
  }

  /** Of the indices that are in its log, a node keeps exactly those that some member has not confirmed. */
  lemma {:induction false} KeptExactly(cfg: Config, states: seq<Sys>, events: seq<Event>, n: nat, a: EndpointId, i: PLIndex)
    requires cfg.Valid() && Run(cfg, states, events) && n < |states| && a in cfg.members && a in states[n].nodes
    requires i < states[n].nodes[a].nextIndex
    ensures i in states[n].nodes[a].slots <==>
              exists e :: e in cfg.members && e in states[n].nodes[a].remote && states[n].nodes[a].remote[e] <= i
  {
    hide Run, Inv, HistExtends, OffersHappened;
    RunLength(cfg, states, events);
    var node := states[n].nodes[a];
    RunTallies(cfg, states, events, n);
    assert PaxosCounting.Ready(node) by { assert PaxosCounting.Tallied(cfg, states[n].wires, a, node); }
    assert node.nodes == cfg.members by { StateGenuine(cfg, states, events, n); }
    if !AllPast(node, i) {
      var hs := RunHistories(cfg, states, events, n);
      NotPastIsKept(cfg, states[n], hs[n], a, i);
    }
  }
}
