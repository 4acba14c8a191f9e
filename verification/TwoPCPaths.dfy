/** Runs of one query in Paxos2PC, event by event, and what an event at a resource manager does to the
    one leadership on either side that takes part. */
module TwoPCPaths {
  import opened TwoPCTypes
  import opened TwoPCResource
  import opened TwoPCLog
  import opened TwoPCSystem
  import opened TwoPCProgress

  // ---------------------------------------------------------------------------------------------
  //  Paths
  // ---------------------------------------------------------------------------------------------

  /** No leadership changes, and nobody learns of a change. */
  predicate Plain(e: Event) {
    !e.TMAppend? && !e.TMElect? && !e.RMAppend? && !e.RMElect?
  }

  ghost predicate Path(q: Query, states: seq<Sys>, events: seq<Event>, plain: bool) {
    && |states| == |events| + 1
    && forall k | 0 <= k < |events| ::
         Enabled(q, states[k], events[k]) && states[k + 1] == Next(q, states[k], events[k]) && (plain ==> Plain(events[k]))
  }

  ghost predicate Leads(q: Query, s: Sys, s': Sys, plain: bool) {
    exists states, events :: Path(q, states, events, plain) && states[0] == s && states[|events|] == s'
  }

  lemma {:induction false} LeadsNowhere(q: Query, s: Sys, plain: bool)
    ensures Leads(q, s, s, plain)
  {
    assert Path(q, [s], [], plain);
  }

  lemma {:induction false} LeadsStep(q: Query, s: Sys, e: Event, plain: bool)
    requires Enabled(q, s, e) && (plain ==> Plain(e))
    ensures Leads(q, s, Next(q, s, e), plain)
  {
    hide Next, Enabled;
    assert Path(q, [s, Next(q, s, e)], [e], plain);
  }

  lemma {:induction false} PathsJoin(q: Query, xs: seq<Sys>, es: seq<Event>, ys: seq<Sys>, fs: seq<Event>, plain: bool)
    requires Path(q, xs, es, plain) && Path(q, ys, fs, plain) && xs[|es|] == ys[0]
    ensures Path(q, xs + ys[1..], es + fs, plain)
    ensures (xs + ys[1..])[0] == xs[0] && (xs + ys[1..])[|es + fs|] == ys[|fs|]
  {
    hide Next, Enabled;
    var zs, gs := xs + ys[1..], es + fs;
    forall k | 0 <= k < |gs| ensures Enabled(q, zs[k], gs[k]) && zs[k + 1] == Next(q, zs[k], gs[k]) && (plain ==> Plain(gs[k])) {
      if k >= |es| {
        assert zs[k] == ys[k - |es|] && zs[k + 1] == ys[k - |es| + 1] && gs[k] == fs[k - |es|];
      }
    }
  }

  lemma {:induction false} LeadsOn(q: Query, s: Sys, s1: Sys, s2: Sys, plain: bool)
    requires Leads(q, s, s1, plain) && Leads(q, s1, s2, plain)
    ensures Leads(q, s, s2, plain)
  {
    var xs, es :| Path(q, xs, es, plain) && xs[0] == s && xs[|es|] == s1;
    var ys, fs :| Path(q, ys, fs, plain) && ys[0] == s1 && ys[|fs|] == s2;
    hide Path;
    PathsJoin(q, xs, es, ys, fs, plain);
  }

  /** What leaderships `n` of the transaction manager and of `r` deal with between them. */
  datatype Local = Local(log: Log, rm: RMActor, down: Chan<RMMessage>, up: Chan<TMMessage>)

  function LocalOf(s: Sys, r: RMPath, n: Gen): Local {
    Local(s.rlog(r), s.rm(r, n), s.down(Link(n, r, n)), s.up(Link(n, r, n)))
  }

  /** Only `r` has changed. */
  ghost predicate Only(s: Sys, s': Sys, r: RMPath, n: Gen) {
    && s'.tlog == s.tlog && s'.tm == s.tm && s'.orig == s.orig && s'.decisions == s.decisions
    && forall r' | r' != r :: LocalOf(s', r', n) == LocalOf(s, r', n)
  }

  // ---------------------------------------------------------------------------------------------
  //  Events at a resource manager
  // ---------------------------------------------------------------------------------------------

  /** What a step of leadership `n` of `r` does to `r`, and that it does nothing to anybody else. */
  lemma {:induction false} ActsLocal(q: Query, s: Sys, r: RMPath, n: Gen, applied: nat, o: RMOut)
    requires Leader(View(s.rlog(r), n, applied), q.tm.group) == n && |o.sends| <= 1 && (o.sends != [] ==> o.sends[0].tm == q.tm)
    ensures var s' := RMActs(q, s, r, n, applied, o); var x := LocalOf(s, r, n);
      && Only(s, s', r, n)
      && LocalOf(s', r, n) == Local(x.log, RMActor(applied, o.es, x.rm.pending + o.plms), x.down,
                                 Chan(x.up.sent + (if o.sends == [] then [] else [o.sends[0].msg]), x.up.recv))
  {
    OneBodyOf(q, o.sends);
    hide Leader, View, Bodies;
  }

  lemma {:induction false} TookLocal(q: Query, s: Sys, r: RMPath, n: Gen)
    ensures var s' := TookDown(s, Link(n, r, n)); var x := LocalOf(s, r, n);
      Only(s, s', r, n) && LocalOf(s', r, n) == x.(down := Chan(x.down.sent, x.down.recv + 1))
  {
  }

  lemma {:induction false} OnlyBoth(s: Sys, s1: Sys, s2: Sys, r: RMPath, n: Gen)
    requires Only(s, s1, r, n) && Only(s1, s2, r, n)
    ensures Only(s, s2, r, n)
  {
  }

  /** `r` receives the next message from the transaction manager. */
  lemma {:induction false} ReceiveLocal(q: Query, s: Sys, r: RMPath, n: Gen)
    requires r in q.rms && n < |s.rlog(r)| && s.down(Link(n, r, n)).recv < |s.down(Link(n, r, n)).sent|
    requires RMLeader(s, r, n, q.tm.group) == n
    requires var o := OnRMMessage(r, map[q.tm.group := n], s.rm(r, n).es, s.down(Link(n, r, n)).sent[s.down(Link(n, r, n)).recv], true);
      |o.sends| <= 1 && (o.sends != [] ==> o.sends[0].tm == q.tm)
    ensures var e := RMReceive(Link(n, r, n), true); var x := LocalOf(s, r, n);
      Enabled(q, s, e) && var s' := Next(q, s, e);
      var o := OnRMMessage(r, map[q.tm.group := n], x.rm.es, x.down.sent[x.down.recv], true);
      && Only(s, s', r, n)
      && LocalOf(s', r, n) == Local(x.log, RMActor(x.rm.applied, o.es, x.rm.pending + o.plms), Chan(x.down.sent, x.down.recv + 1),
                                 Chan(x.up.sent + (if o.sends == [] then [] else [o.sends[0].msg]), x.up.recv))
  {
    var l := Link(n, r, n);
    var s0 := TookDown(s, l);
    var o := OnRMMessage(r, map[q.tm.group := n], s.rm(r, n).es, s.down(l).sent[s.down(l).recv], true);
    assert Leaders(RMView(s, r, n), q.tm.group) == map[q.tm.group := n];
    assert Next(q, s, RMReceive(l, true)) == RMActs(q, s0, r, n, s.rm(r, n).applied, o);
    hide OnRMMessage, Leader, View, Next, Only;
    TookLocal(q, s, r, n);
    ActsLocal(q, s0, r, n, s.rm(r, n).applied, o);
    OnlyBoth(s, s0, RMActs(q, s0, r, n, s.rm(r, n).applied, o), r, n);
  }

  lemma {:induction false} StartLocal(q: Query, s: Sys, r: RMPath, n: Gen)
    requires r in q.rms && n < |s.rlog(r)| && RMLeader(s, r, n, q.tm.group) == n
    ensures var x := LocalOf(s, r, n); Enabled(q, s, RMStart(r, n)) && var s' := Next(q, s, RMStart(r, n));
      var o := StartInserting(x.rm.es);
      Only(s, s', r, n) && LocalOf(s', r, n) == x.(rm := RMActor(x.rm.applied, o.es, x.rm.pending + o.plms))
  {
    var o := StartInserting(s.rm(r, n).es);
    assert o.sends == [];
    hide StartInserting, Leader, View, Only;
    ActsLocal(q, s, r, n, s.rm(r, n).applied, o);
    var x := LocalOf(s, r, n);
    assert x.up.sent + [] == x.up.sent;
  }

  lemma {:induction false} InsertLocal(q: Query, s: Sys, r: RMPath, n: Gen)
    requires r in q.rms && |s.rlog(r)| == n + 1 && s.rm(r, n).pending != []
    ensures var x := LocalOf(s, r, n); Enabled(q, s, RMInsert(r)) && var s' := Next(q, s, RMInsert(r));
      Only(s, s', r, n) && LocalOf(s', r, n) == x.(log := Append(x.log, Insertion(x.rm.pending[0])), rm := x.rm.(pending := x.rm.pending[1..]))
  {
    var x := LocalOf(s, r, n);
  }

  /** `r` sees the next entry of its log. */
  lemma {:induction false} AdvanceLocal(q: Query, s: Sys, r: RMPath, n: Gen, p: RMPlm)
    requires r in q.rms && n < |s.rlog(r)| && s.rm(r, n).applied < |s.rlog(r)[n]|
    requires s.rlog(r)[n][s.rm(r, n).applied] == Insertion(p) && PlmFinds(true, s.rm(r, n).es, p)
    requires RMLeader(s, r, n, q.tm.group) == n
    requires var o := OnRMPlm(r, map[q.tm.group := n], true, s.rm(r, n).es, p); |o.sends| <= 1 && (o.sends != [] ==> o.sends[0].tm == q.tm)
    ensures var x := LocalOf(s, r, n); Enabled(q, s, RMAdvance(r, n)) && var s' := Next(q, s, RMAdvance(r, n));
      var o := OnRMPlm(r, map[q.tm.group := n], true, x.rm.es, p);
      && Only(s, s', r, n)
      && LocalOf(s', r, n) == Local(x.log, RMActor(x.rm.applied + 1, o.es, x.rm.pending + o.plms), x.down,
                                 Chan(x.up.sent + (if o.sends == [] then [] else [o.sends[0].msg]), x.up.recv))
  {
    var x := LocalOf(s, r, n);
    var o := OnRMPlm(r, map[q.tm.group := n], true, x.rm.es, p);
    AdvanceIs(q, s, r, n, p);
    EntryView(q, s, r, n);
    hide OnRMPlm, Leader, View, Only, AdvanceRM, Next, Enabled;
    ActsLocal(q, s, r, n, x.rm.applied + 1, o);
  }

  lemma {:induction false} AdvanceIs(q: Query, s: Sys, r: RMPath, n: Gen, p: RMPlm)
    requires r in q.rms && n < |s.rlog(r)| && s.rm(r, n).applied < |s.rlog(r)[n]|
    requires s.rlog(r)[n][s.rm(r, n).applied] == Insertion(p) && PlmFinds(true, s.rm(r, n).es, p)
    requires RMLeader(s, r, n, q.tm.group) == n
    ensures Enabled(q, s, RMAdvance(r, n))
    ensures Next(q, s, RMAdvance(r, n)) ==
              RMActs(q, s, r, n, s.rm(r, n).applied + 1, OnRMPlm(r, map[q.tm.group := n], true, s.rm(r, n).es, p))
  {
    hide OnRMPlm, View, Leader, RMActs;
    assert Leaders(RMView(s, r, n), q.tm.group) == map[q.tm.group := n];
  }
}
