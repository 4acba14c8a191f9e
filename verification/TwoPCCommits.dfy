/** When every resource manager can do its part and no leadership changes, Paxos2PC can commit: there is
    a run in which everybody commits. */
module TwoPCCommits {
  import opened Wrappers
  import opened TwoPCTypes
  import opened TwoPCManager
  import opened TwoPCLog
  import opened TwoPCSystem
  import opened TwoPCInvariant
  import opened TwoPCGroups
  import opened TwoPCProgress
  import opened TwoPCPaths

  // ---------------------------------------------------------------------------------------------
  //  The stages of a resource manager
  // ---------------------------------------------------------------------------------------------

  datatype Stage = Asked | HasAnswered | Counted | Told | Done

  function P(q: Query): RMPlm { PreparedPlm(q.id, q.tm, q.rms) }

  function C(q: Query): RMPlm { CommittedPlm(q.id) }

  function Executing(q: Query, st: RMState): Option<RMOuter> {
    Some(Exec(q.id, q.tm, q.rms, st))
  }

  function Question(q: Query, r: RMPath): RMMessage {
    Ask(q.id, q.tm, q.rms, q.payloads, r)
  }

  function At(q: Query, r: RMPath, stage: Stage): Local {
    var ask, answer := Question(q, r), Prepared(q.id, r);
    match stage
    case Asked => Local([[]], RMActor(0, None, []), Chan([ask], 0), Chan([], 0))
    case HasAnswered => Local([[Insertion(P(q))]], RMActor(1, Executing(q, HasPrepared), []), Chan([ask], 1), Chan([answer], 0))
    case Counted => Local([[Insertion(P(q))]], RMActor(1, Executing(q, HasPrepared), []), Chan([ask], 1), Chan([answer], 1))
    case Told => Local([[Insertion(P(q))]], RMActor(1, Executing(q, HasPrepared), []), Chan([ask, Commit(q.id, q.tm)], 1), Chan([answer], 1))
    case Done => Local([[Insertion(P(q)), Insertion(C(q))]], RMActor(2, Some(HasCommitted), []),
                       Chan([ask, Commit(q.id, q.tm)], 2), Chan([answer], 1))
  }

  // The views of leaderships 0, which never hear of another.

  lemma {:induction false} ShortViews()
    ensures Flat([]) == [] && View([[]], 0, 0) == []
    ensures forall e :: Flat([[e]]) == [e] && View([[e]], 0, 0) == [] && View([[e]], 0, 1) == [e]
    ensures forall e, f :: Flat([[e, f]]) == [e, f] && View([[e, f]], 0, 1) == [e] && View([[e, f]], 0, 2) == [e, f]
  {
    forall x: seq<Entry> ensures Flat([x]) == x && View([x], 0, |x|) == x {
      assert [x][..0] == [];
      assert Flat([x]) == Flat([]) + x;
      assert View([x], 0, |x|) == Flat([]) + x[..|x|];
    }
    forall e, f ensures View([[e, f]], 0, 1) == [e] {
      assert [[e, f]][..0] == [];
      assert [e, f][..1] == [e];
    }
  }

  lemma {:induction false} NoLeaders(p: RMPlm, p': RMPlm, g: GroupId)
    ensures Leader([], g) == 0 && Leader([Insertion(p)], g) == 0 && Leader([Insertion(p), Insertion(p')], g) == 0
  {
    assert [Insertion(p)][..0] == [];
    assert [Insertion(p), Insertion(p')][..1] == [Insertion(p)];
  }

  /** Asked to prepare, `r` prepares and answers. */
  lemma {:induction false} Prepares(q: Query, s: Sys, r: RMPath) returns (s': Sys)
    requires r in q.rms && LocalOf(s, r, 0) == At(q, r, Asked)
    ensures Leads(q, s, s', true) && Only(s, s', r, 0) && LocalOf(s', r, 0) == At(q, r, HasAnswered)
  {
    hide Next, Enabled, Leads, Only, View, Leader, Flat;
    ShortViews();
    NoLeaders(P(q), P(q), q.tm.group);
    var ask := Question(q, r);
    ReceiveLocal(q, s, r, 0);
    var s1 := Next(q, s, RMReceive(Link(0, r, 0), true));
    assert LocalOf(s1, r, 0) == Local([[]], RMActor(0, Executing(q, WaitingInsertingPrepared(0)), []), Chan([ask], 1), Chan([], 0));
    StartLocal(q, s1, r, 0);
    var s2 := Next(q, s1, RMStart(r, 0));
    assert LocalOf(s2, r, 0) == Local([[]], RMActor(0, Executing(q, InsertingPrepared(0)), [P(q)]), Chan([ask], 1), Chan([], 0));
    InsertLocal(q, s2, r, 0);
    var s3 := Next(q, s2, RMInsert(r));
    assert [P(q)][1..] == [] && [] + [Insertion(P(q))] == [Insertion(P(q))];
    assert LocalOf(s3, r, 0) == Local([[Insertion(P(q))]], RMActor(0, Executing(q, InsertingPrepared(0)), []), Chan([ask], 1), Chan([], 0));
    AdvanceLocal(q, s3, r, 0, P(q));
    s' := Next(q, s3, RMAdvance(r, 0));
    LeadsStep(q, s, RMReceive(Link(0, r, 0), true), true);
    LeadsStep(q, s1, RMStart(r, 0), true);
    LeadsStep(q, s2, RMInsert(r), true);
    LeadsStep(q, s3, RMAdvance(r, 0), true);
    LeadsOn(q, s, s1, s2, true);
    LeadsOn(q, s, s2, s3, true);
    LeadsOn(q, s, s3, s', true);
    OnlyBoth(s, s1, s2, r, 0);
    OnlyBoth(s, s2, s3, r, 0);
    OnlyBoth(s, s3, s', r, 0);
  }

  /** Told to commit, `r` commits. */
  lemma {:induction false} Commits(q: Query, s: Sys, r: RMPath) returns (s': Sys)
    requires r in q.rms && LocalOf(s, r, 0) == At(q, r, Told)
    ensures Leads(q, s, s', true) && Only(s, s', r, 0) && LocalOf(s', r, 0) == At(q, r, Done)
  {
    hide Next, Enabled, Leads, Only, View, Leader, Flat;
    ShortViews();
    NoLeaders(P(q), C(q), q.tm.group);
    var x := At(q, r, Told);
    ReceiveLocal(q, s, r, 0);
    var s1 := Next(q, s, RMReceive(Link(0, r, 0), true));
    assert LocalOf(s1, r, 0) == Local(x.log, RMActor(1, Executing(q, InsertingCommitted), [C(q)]), Chan(x.down.sent, 2), x.up);
    InsertLocal(q, s1, r, 0);
    var s2 := Next(q, s1, RMInsert(r));
    assert [C(q)][1..] == [] && [Insertion(P(q))] + [Insertion(C(q))] == [Insertion(P(q)), Insertion(C(q))];
    assert LocalOf(s2, r, 0) == Local([[Insertion(P(q)), Insertion(C(q))]], RMActor(1, Executing(q, InsertingCommitted), []), Chan(x.down.sent, 2), x.up);
    AdvanceLocal(q, s2, r, 0, C(q));
    s' := Next(q, s2, RMAdvance(r, 0));
    LeadsStep(q, s, RMReceive(Link(0, r, 0), true), true);
    LeadsStep(q, s1, RMInsert(r), true);
    LeadsStep(q, s2, RMAdvance(r, 0), true);
    LeadsOn(q, s, s1, s2, true);
    LeadsOn(q, s, s2, s', true);
    OnlyBoth(s, s1, s2, r, 0);
    OnlyBoth(s, s2, s', r, 0);
  }

  // ---------------------------------------------------------------------------------------------
  //  The whole query
  // ---------------------------------------------------------------------------------------------

  /** The first `k` managers are at stage `a`, the others at stage `b`. */
  ghost predicate Mid(q: Query, s: Sys, a: Stage, b: Stage, k: nat, es: Option<TMState>, ds: seq<(Gen, Decision)>) {
    && q.Valid() && s.tlog == [[]] && s.tm(0) == TMActor(0, es) && s.orig == Some(0) && s.decisions == ds
    && forall j | 0 <= j < |q.rms| :: LocalOf(s, q.rms[j], 0) == At(q, q.rms[j], if j < k then a else b)
  }

  /** The manager at position `k` goes from stage `b` to stage `a`. */
  lemma {:induction false} OneMoves(q: Query, s: Sys, s': Sys, a: Stage, b: Stage, k: nat, es: Option<TMState>, ds: seq<(Gen, Decision)>)
    requires Mid(q, s, a, b, k, es, ds) && k < |q.rms| && Only(s, s', q.rms[k], 0) && LocalOf(s', q.rms[k], 0) == At(q, q.rms[k], a)
    ensures Mid(q, s', a, b, k + 1, es, ds)
  {
    hide LocalOf, At;
    assert forall j | 0 <= j < |q.rms| && j != k :: q.rms[j] != q.rms[k];
  }

  lemma {:induction false} NextStage(q: Query, s: Sys, a: Stage, b: Stage, c: Stage, es: Option<TMState>, ds: seq<(Gen, Decision)>)
    requires Mid(q, s, a, b, |q.rms|, es, ds)
    ensures Mid(q, s, c, a, 0, es, ds)
  {
    hide LocalOf, At;
  }

  function Waiting(q: Query, k: nat): TMState
    requires k <= |q.rms|
  {
    Preparing(q.id, q.rms, Asks(q.id, q.tm, q.rms, q.payloads, q.rms[k..]))
  }

  lemma {:induction false} Begins(q: Query) returns (s: Sys)
    requires q.Valid()
    ensures Leads(q, InitialSys(), s, true) && Mid(q, s, HasAnswered, Asked, 0, Some(Waiting(q, 0)), [])
  {
    s := Next(q, InitialSys(), Begin(0));
    LeadsStep(q, InitialSys(), Begin(0), true);
    assert q.rms[0..] == q.rms;
    forall j | 0 <= j < |q.rms| ensures LocalOf(s, q.rms[j], 0) == At(q, q.rms[j], Asked) { BeginsLocal(q, q.rms[j]); }
    hide LocalOf, At, Leads, View, Leader;
  }

  lemma {:induction false} BeginsLocal(q: Query, r: RMPath)
    requires q.Valid() && r in q.rms
    ensures LocalOf(Next(q, InitialSys(), Begin(0)), r, 0) == At(q, r, Asked)
  {
    var o := StartOrig(q.id, q.tm, q.rms, q.payloads);
    EachGetsOne(q.rms, o.sends, r, Question(q, r));
    ShortViews();
    NoLeaders(P(q), P(q), r.group);
    assert Leader(View([[]], 0, 0), r.group) == 0;
    hide View, Leader, BodiesTo, StartOrig;
  }

  lemma {:induction false} PrepareAll(q: Query, s: Sys, k: nat) returns (s': Sys)
    requires k <= |q.rms| && Mid(q, s, HasAnswered, Asked, k, Some(Waiting(q, 0)), [])
    ensures Leads(q, s, s', true) && Mid(q, s', HasAnswered, Asked, |q.rms|, Some(Waiting(q, 0)), [])
    decreases |q.rms| - k
  {
    hide Leads, LocalOf, At, Waiting, Only;
    if k == |q.rms| {
      s' := s;
      LeadsNowhere(q, s, true);
    } else {
      var s1 := Prepares(q, s, q.rms[k]);
      OneMoves(q, s, s1, HasAnswered, Asked, k, Some(Waiting(q, 0)), []);
      s' := PrepareAll(q, s1, k + 1);
      LeadsOn(q, s, s1, s', true);
    }
  }

  lemma {:induction false} CommitAll(q: Query, s: Sys, k: nat, ds: seq<(Gen, Decision)>) returns (s': Sys)
    requires k <= |q.rms| && Mid(q, s, Done, Told, k, None, ds)
    ensures Leads(q, s, s', true) && Mid(q, s', Done, Told, |q.rms|, None, ds)
    decreases |q.rms| - k
  {
    hide Leads, LocalOf, At, Only;
    if k == |q.rms| {
      s' := s;
      LeadsNowhere(q, s, true);
    } else {
      var s1 := Commits(q, s, q.rms[k]);
      OneMoves(q, s, s1, Done, Told, k, None, ds);
      s' := CommitAll(q, s1, k + 1, ds);
      LeadsOn(q, s, s1, s', true);
    }
  }

  /** The transaction manager counts one answer. */
  lemma {:induction false} OneLess(q: Query, k: nat)
    requires q.Valid() && k < |q.rms|
    ensures Waiting(q, k).remaining - {q.rms[k]} == Waiting(q, k + 1).remaining
    ensures Waiting(q, k + 1).remaining == map[] <==> k + 1 == |q.rms|
  {
    hide Ask;
    var rest, more := q.rms[k + 1..], q.rms[k..];
    assert more == [q.rms[k]] + rest;
    assert q.rms[k] !in rest;
    assert forall r :: r in more <==> r == q.rms[k] || r in rest;
    AsksLess(q, more, rest, q.rms[k]);
    if rest != [] { assert rest[0] in Waiting(q, k + 1).remaining; }
  }

  lemma {:induction false} AsksLess(q: Query, more: seq<RMPath>, rest: seq<RMPath>, x: RMPath)
    requires x !in rest && forall r :: r in more <==> r == x || r in rest
    ensures Asks(q.id, q.tm, q.rms, q.payloads, more) - {x} == Asks(q.id, q.tm, q.rms, q.payloads, rest)
  {
    hide Ask;
    var a, b := Asks(q.id, q.tm, q.rms, q.payloads, more) - {x}, Asks(q.id, q.tm, q.rms, q.payloads, rest);
    assert a.Keys == b.Keys;
  }

  lemma {:induction false} CountStep(q: Query, s: Sys, k: nat)
    requires k < |q.rms| && Mid(q, s, Counted, HasAnswered, k, Some(Waiting(q, k)), [])
    ensures var e := TMReceive(Link(0, q.rms[k], 0)); var last := k + 1 == |q.rms|;
      var o := if last then TMOut(None, ToAll(q.rms, Commit(q.id, q.tm)), Some(DecideCommit)) else TMOut(Some(Waiting(q, k + 1)), [], None);
      Enabled(q, s, e) && Next(q, s, e) == TMActs(TookUp(s, Link(0, q.rms[k], 0)), 0, 0, o)
  {
    CountFinds(q, s, k);
    CountReaction(q, k);
    hide Waiting, ToAll, TMActs, TookUp, View, Leader, Mid, OnTMMessage;
  }

  lemma {:induction false} CountFinds(q: Query, s: Sys, k: nat)
    requires k < |q.rms| && Mid(q, s, Counted, HasAnswered, k, Some(Waiting(q, k)), [])
    ensures var l := Link(0, q.rms[k], 0);
      Enabled(q, s, TMReceive(l)) && s.up(l) == Chan([Prepared(q.id, q.rms[k])], 0) && s.tm(0) == TMActor(0, Some(Waiting(q, k))) && q.Valid()
  {
    var r := q.rms[k];
    assert LocalOf(s, r, 0) == At(q, r, HasAnswered);
    UpOf(s, r);
    ShortViews();
    NoLeaders(P(q), P(q), r.group);
    hide LocalOf, Waiting, Leader, View;
  }

  lemma {:induction false} CountReaction(q: Query, k: nat)
    requires q.Valid() && k < |q.rms|
    ensures OnTMMessage(q.tm, Some(Waiting(q, k)), Prepared(q.id, q.rms[k])) ==
              if k + 1 == |q.rms| then TMOut(None, ToAll(q.rms, Commit(q.id, q.tm)), Some(DecideCommit))
              else TMOut(Some(Waiting(q, k + 1)), [], None)
  {
    OneLess(q, k);
    hide Asks, ToAll;
  }

  lemma {:induction false} UpOf(s: Sys, r: RMPath)
    ensures s.up(Link(0, r, 0)) == LocalOf(s, r, 0).up
  {
  }

  /** What the transaction manager's step does to the manager at position `j`. */
  lemma {:induction false} CountLocal(q: Query, s: Sys, k: nat, o: TMOut, j: nat)
    requires k < |q.rms| && j < |q.rms| && q.Valid() && s.tlog == [[]]
    ensures var s' := TMActs(TookUp(s, Link(0, q.rms[k], 0)), 0, 0, o); var x := LocalOf(s, q.rms[j], 0);
      LocalOf(s', q.rms[j], 0) == x.(down := Chan(x.down.sent + BodiesTo(o.sends, q.rms[j]), x.down.recv),
                                  up := Chan(x.up.sent, x.up.recv + if j == k then 1 else 0))
  {
    ShortViews();
    NoLeaders(P(q), P(q), q.rms[j].group);
    assert Leader(View(s.tlog, 0, 0), q.rms[j].group) == 0;
    assert q.rms[j] == q.rms[k] <==> j == k;
    hide View, Leader, BodiesTo;
  }

  lemma {:induction false} CountOne(q: Query, s: Sys, k: nat) returns (s': Sys)
    requires k + 1 < |q.rms| && Mid(q, s, Counted, HasAnswered, k, Some(Waiting(q, k)), [])
    ensures Leads(q, s, s', true) && Mid(q, s', Counted, HasAnswered, k + 1, Some(Waiting(q, k + 1)), [])
  {
    hide *;
    CountStep(q, s, k);
    s' := Next(q, s, TMReceive(Link(0, q.rms[k], 0)));
    LeadsStep(q, s, TMReceive(Link(0, q.rms[k], 0)), true) by { ReceiveIsPlain(q.rms[k]); }
    CountedOne(q, s, k);
  }

  lemma {:induction false} ReceiveIsPlain(r: RMPath)
    ensures Plain(TMReceive(Link(0, r, 0)))
  {
  }

  lemma {:induction false} CountedOne(q: Query, s: Sys, k: nat)
    requires k + 1 < |q.rms| && Mid(q, s, Counted, HasAnswered, k, Some(Waiting(q, k)), [])
    ensures var o := TMOut(Some(Waiting(q, k + 1)), [], None);
      Mid(q, TMActs(TookUp(s, Link(0, q.rms[k], 0)), 0, 0, o), Counted, HasAnswered, k + 1, Some(Waiting(q, k + 1)), [])
  {
    var o := TMOut(Some(Waiting(q, k + 1)), [], None);
    var s' := TMActs(TookUp(s, Link(0, q.rms[k], 0)), 0, 0, o);
    hide *;
    forall j | 0 <= j < |q.rms| ensures LocalOf(s', q.rms[j], 0) == At(q, q.rms[j], if j < k + 1 then Counted else HasAnswered) {
      CountOneLocal(q, s, k, o, j);
    }
    TMMoved(q, s, s', k, o, Counted, HasAnswered, k + 1);
  }

  lemma {:induction false} CountOneLocal(q: Query, s: Sys, k: nat, o: TMOut, j: nat)
    requires j < |q.rms| && k < |q.rms| && o.sends == [] && Mid(q, s, Counted, HasAnswered, k, Some(Waiting(q, k)), [])
    ensures LocalOf(TMActs(TookUp(s, Link(0, q.rms[k], 0)), 0, 0, o), q.rms[j], 0) == At(q, q.rms[j], if j < k + 1 then Counted else HasAnswered)
  {
    var x := LocalOf(s, q.rms[j], 0);
    assert x == At(q, q.rms[j], if j < k then Counted else HasAnswered) && s.tlog == [[]] && q.Valid();
    hide LocalOf, TMActs, TookUp, Waiting, Mid;
    CountLocal(q, s, k, o, j);
    OneBodyTo([], q.rms[j]);
    assert x.down.sent + [] == x.down.sent;
  }

  /** What is left to say of a step of the transaction manager once every manager is accounted for. */
  lemma {:induction false} TMMoved(q: Query, s: Sys, s': Sys, k: nat, o: TMOut, a: Stage, b: Stage, m: nat)
    requires k < |q.rms| && Mid(q, s, Counted, HasAnswered, k, Some(Waiting(q, k)), [])
    requires s' == TMActs(TookUp(s, Link(0, q.rms[k], 0)), 0, 0, o)
    requires forall j | 0 <= j < |q.rms| :: LocalOf(s', q.rms[j], 0) == At(q, q.rms[j], if j < m then a else b)
    ensures Mid(q, s', a, b, m, o.es, if o.decision.Some? then [(0, o.decision.value)] else [])
  {
    hide LocalOf, At, BodiesTo, Leader, View, Waiting;
  }

  lemma {:induction false} CountLast(q: Query, s: Sys, k: nat) returns (s': Sys)
    requires k + 1 == |q.rms| && Mid(q, s, Counted, HasAnswered, k, Some(Waiting(q, k)), [])
    ensures Leads(q, s, s', true) && Mid(q, s', Done, Told, 0, None, [(0, DecideCommit)])
  {
    hide *;
    CountStep(q, s, k);
    s' := Next(q, s, TMReceive(Link(0, q.rms[k], 0)));
    LeadsStep(q, s, TMReceive(Link(0, q.rms[k], 0)), true) by { ReceiveIsPlain(q.rms[k]); }
    CountedLast(q, s, k);
  }

  lemma {:induction false} CountedLast(q: Query, s: Sys, k: nat)
    requires k + 1 == |q.rms| && Mid(q, s, Counted, HasAnswered, k, Some(Waiting(q, k)), [])
    ensures var o := TMOut(None, ToAll(q.rms, Commit(q.id, q.tm)), Some(DecideCommit));
      Mid(q, TMActs(TookUp(s, Link(0, q.rms[k], 0)), 0, 0, o), Done, Told, 0, None, [(0, DecideCommit)])
  {
    var o := TMOut(None, ToAll(q.rms, Commit(q.id, q.tm)), Some(DecideCommit));
    var s' := TMActs(TookUp(s, Link(0, q.rms[k], 0)), 0, 0, o);
    hide *;
    forall j | 0 <= j < |q.rms| ensures LocalOf(s', q.rms[j], 0) == At(q, q.rms[j], Told) {
      CountLastLocal(q, s, k, o, j);
    }
    TMMoved(q, s, s', k, o, Done, Told, 0);
  }

  lemma {:induction false} CountLastLocal(q: Query, s: Sys, k: nat, o: TMOut, j: nat)
    requires j < |q.rms| && k + 1 == |q.rms| && Mid(q, s, Counted, HasAnswered, k, Some(Waiting(q, k)), [])
    requires o.sends == ToAll(q.rms, Commit(q.id, q.tm))
    ensures LocalOf(TMActs(TookUp(s, Link(0, q.rms[k], 0)), 0, 0, o), q.rms[j], 0) == At(q, q.rms[j], Told)
  {
    var x := LocalOf(s, q.rms[j], 0);
    assert x == At(q, q.rms[j], if j < k then Counted else HasAnswered) && s.tlog == [[]] && q.Valid();
    hide LocalOf, TMActs, TookUp, Waiting, ToAll, BodiesTo, Mid;
    CountLocal(q, s, k, o, j);
    ToAllReaches(q, Commit(q.id, q.tm), q.rms[j]);
    assert x.down.sent + [Commit(q.id, q.tm)] == [Question(q, q.rms[j]), Commit(q.id, q.tm)];
  }

  lemma {:induction false} CountAll(q: Query, s: Sys, k: nat) returns (s': Sys)
    requires k < |q.rms| && Mid(q, s, Counted, HasAnswered, k, Some(Waiting(q, k)), [])
    ensures Leads(q, s, s', true) && Mid(q, s', Done, Told, 0, None, [(0, DecideCommit)])
    decreases |q.rms| - k
  {
    hide *;
    if k + 1 == |q.rms| {
      s' := CountLast(q, s, k);
    } else {
      var s1 := CountOne(q, s, k);
      s' := CountAll(q, s1, k + 1);
      LeadsOn(q, s, s1, s', true);
    }
  }

  /** Every query can be committed: there is a run without leader changes, in which every manager can do its
      part, that ends with the decision to commit and with Prepared and Committed in every log. */
  lemma {:induction false} CanCommit(q: Query) returns (states: seq<Sys>, events: seq<Event>)
    requires q.Valid() && q.rms != []
    ensures Run(q, states, events) && forall k | 0 <= k < |events| :: Plain(events[k])
    ensures var s := states[|events|];
      s.decisions == [(0, DecideCommit)] && forall r | r in q.rms :: Entries(s, r) == [PreparedPlm(q.id, q.tm, q.rms), CommittedPlm(q.id)]
  {
    hide Leads, Mid, Waiting;
    var s1 := Begins(q);
    var s2 := PrepareAll(q, s1, 0);
    NextStage(q, s2, HasAnswered, Asked, Counted, Some(Waiting(q, 0)), []);
    var s3 := CountAll(q, s2, 0);
    var s4 := CommitAll(q, s3, 0, [(0, DecideCommit)]);
    LeadsOn(q, InitialSys(), s1, s2, true);
    LeadsOn(q, InitialSys(), s2, s3, true);
    LeadsOn(q, InitialSys(), s3, s4, true);
    states, events := Witness(q, s4);
    AllDone(q, s4, [(0, DecideCommit)]);
  }

  lemma {:induction false} Witness(q: Query, s: Sys) returns (states: seq<Sys>, events: seq<Event>)
    requires Leads(q, InitialSys(), s, true)
    ensures Run(q, states, events) && |states| == |events| + 1 && states[|events|] == s
    ensures forall k | 0 <= k < |events| :: Plain(events[k])
  {
    hide Next, Enabled;
    states, events :| Path(q, states, events, true) && states[0] == InitialSys() && states[|events|] == s;
  }

  lemma {:induction false} AllDone(q: Query, s: Sys, ds: seq<(Gen, Decision)>)
    requires Mid(q, s, Done, Told, |q.rms|, None, ds)
    ensures s.decisions == ds && forall r | r in q.rms :: Entries(s, r) == [PreparedPlm(q.id, q.tm, q.rms), CommittedPlm(q.id)]
  {
    forall r | r in q.rms ensures Entries(s, r) == [P(q), C(q)] {
      var j :| 0 <= j < |q.rms| && q.rms[j] == r;
      assert LocalOf(s, r, 0) == At(q, r, Done);
      DoneLog(q, s.rlog(r));
    }
  }

  lemma {:induction false} DoneLog(q: Query, log: Log)
    requires log == [[Insertion(P(q)), Insertion(C(q))]]
    ensures Plms(Flat(log)) == [P(q), C(q)]
  {
    ShortViews();
    PlmsOne(Insertion(P(q)));
    PlmsOne(Insertion(C(q)));
    PlmsConcat([Insertion(P(q))], [Insertion(C(q))]);
  }
}
