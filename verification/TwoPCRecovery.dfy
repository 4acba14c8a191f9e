/** No state is a dead end: whatever has happened, one more change of leadership on every side lets the
    query be settled. */
module TwoPCRecovery {
  import opened Wrappers
  import opened TwoPCTypes
  import opened TwoPCResource
  import opened TwoPCManager
  import opened TwoPCLog
  import opened TwoPCSystem
  import opened TwoPCInvariant
  import opened TwoPCGroups
  import opened TwoPCProgress
  import opened TwoPCPaths
  import opened TwoPCTheorems
  import opened TwoPCCompletion
  import MS = TwoPCManagerSteps

  // ---------------------------------------------------------------------------------------------
  //  Fresh leaderships that know each other
  // ---------------------------------------------------------------------------------------------

  /** What a fresh leadership of a resource manager and its link have come to. */
  datatype Part = Part(es: Option<RMOuter>, down: Chan<RMMessage>, up: Chan<TMMessage>)

  /** Leadership `n` is the current one, has inserted its stretch and knows leadership `n` of the
      transaction manager. */
  predicate PartAt(q: Query, x: Local, n: Gen, p: Part) {
    && |x.log| == n + 1 && x.rm == RMActor(|x.log[n]|, p.es, []) && x.down == p.down && x.up == p.up
    && Leader(View(x.log, n, |x.log[n]|), q.tm.group) == n
    && EsOk(q, p.es)
  }

  /** The same for the transaction manager, with execution `es`. */
  predicate HeadAt(q: Query, s: Sys, n: Gen, es: Option<TMState>) {
    && |s.tlog| == n + 1 && s.tm(n) == TMActor(|s.tlog[n]|, es)
    && forall r | r in q.rms :: TMLeader(s, n, r.group) == n
  }

  ghost predicate Whole(q: Query, s: Sys, n: Gen, es: Option<TMState>, parts: seq<Part>) {
    && q.Valid() && |parts| == |q.rms| && HeadAt(q, s, n, es)
    && forall j | 0 <= j < |q.rms| :: PartAt(q, LocalOf(s, q.rms[j], n), n, parts[j])
  }

  /** Only one part changes. */
  lemma {:induction false} OnePart(q: Query, s: Sys, s': Sys, n: Gen, es: Option<TMState>, parts: seq<Part>, j: nat, p: Part)
    requires Whole(q, s, n, es, parts) && j < |q.rms| && Only(s, s', q.rms[j], n) && PartAt(q, LocalOf(s', q.rms[j], n), n, p)
    ensures Whole(q, s', n, es, parts[j := p])
  {
    assert HeadAt(q, s', n, es) by { assert forall r :: TMLeader(s', n, r) == TMLeader(s, n, r); }
    hide HeadAt, PartAt, LocalOf;
    assert forall i | 0 <= i < |q.rms| && i != j :: q.rms[i] != q.rms[j];
  }

  /** Messages that a resource manager answers without inserting anything. */
  lemma {:induction false} PartReceives(q: Query, s: Sys, n: Gen, es: Option<TMState>, parts: seq<Part>, j: nat, es': Option<RMOuter>, msgs: seq<TMMessage>)
    returns (s': Sys)
    requires Whole(q, s, n, es, parts) && j < |q.rms| && parts[j].down.recv < |parts[j].down.sent| && |msgs| <= 1 && EsOk(q, es')
    requires OnRMMessage(q.rms[j], map[q.tm.group := n], parts[j].es, parts[j].down.sent[parts[j].down.recv], true)
          == RMOut(es', [], if msgs == [] then [] else [ToTM(q.tm, msgs[0])])
    ensures Leads(q, s, s', false)
    ensures var p := parts[j];
      Whole(q, s', n, es, parts[j := Part(es', Chan(p.down.sent, p.down.recv + 1), Chan(p.up.sent + msgs, p.up.recv))])
  {
    var r, p := q.rms[j], parts[j];
    var e := RMReceive(Link(n, r, n), true);
    var x := LocalOf(s, r, n);
    assert PartAt(q, x, n, p);
    hide OnRMMessage, Leader, View, Next, Enabled, Leads, Only;
    ReceiveLocal(q, s, r, n);
    s' := Next(q, s, e);
    LeadsStep(q, s, e, false);
    assert msgs == if msgs == [] then [] else [msgs[0]];
    hide Whole;
    OnePart(q, s, s', n, es, parts, j, Part(es', Chan(p.down.sent, p.down.recv + 1), Chan(p.up.sent + msgs, p.up.recv)));
  }

  function Executing(q: Query, st: RMState): Option<RMOuter> {
    Some(Exec(q.id, q.tm, q.rms, st))
  }

  function VerdictPlm(q: Query, d: Decision): RMPlm {
    if d == DecideCommit then CommittedPlm(q.id) else AbortedPlm(q.id)
  }

  function Decidedly(d: Decision): Option<RMOuter> {
    Some(if d == DecideCommit then HasCommitted else HasAborted)
  }

  /** A log with one more entry, before and after its leadership has seen it. */
  lemma {:induction false} OneEntryMore(log: Log, n: Gen, p: RMPlm, g: GroupId)
    requires |log| == n + 1
    ensures var log' := Append(log, Insertion(p)); var a := |log[n]|;
      && |log'| == n + 1 && |log'[n]| == a + 1 && log'[n][a] == Insertion(p)
      && View(log', n, a) == View(log, n, a)
      && Leader(View(log', n, a + 1), g) == Leader(View(log, n, a), g)
  {
    var log', a := Append(log, Insertion(p)), |log[n]|;
    ViewAppend(log, Insertion(p), n, a);
    ViewStep(log', n, a);
    var v := View(log', n, a);
    assert (v + [Insertion(p)])[..|v|] == v;
  }

  function Deciding(q: Query, d: Decision): Option<RMOuter> {
    Executing(q, if d == DecideCommit then InsertingCommitted else InsertingAborted)
  }

  /** A prepared manager that is told the verdict asks for its insertion. */
  lemma {:induction false} ToldLocal(q: Query, s: Sys, r: RMPath, n: Gen, p: Part, d: Decision) returns (s': Sys)
    requires r in q.rms && PartAt(q, LocalOf(s, r, n), n, p) && p.down.recv < |p.down.sent|
    requires p.es == Executing(q, HasPrepared) && p.down.sent[p.down.recv] == Telling(q, d)
    ensures Leads(q, s, s', false) && Only(s, s', r, n)
    ensures LocalOf(s', r, n) == Local(LocalOf(s, r, n).log, RMActor(LocalOf(s, r, n).rm.applied, Deciding(q, d), [VerdictPlm(q, d)]),
                                       Chan(p.down.sent, p.down.recv + 1), p.up)
  {
    hide Leader, View, Next, Enabled, Leads, Only;
    ReceiveLocal(q, s, r, n);
    s' := Next(q, s, RMReceive(Link(n, r, n), true));
    LeadsStep(q, s, RMReceive(Link(n, r, n), true), false);
    assert p.up.sent + [] == p.up.sent;
  }

  /** The verdict is inserted and seen. */
  lemma {:induction false} InsertedLocal(q: Query, s: Sys, r: RMPath, n: Gen, d: Decision) returns (s': Sys)
    requires var x := LocalOf(s, r, n);
      && r in q.rms && |x.log| == n + 1 && x.rm == RMActor(|x.log[n]|, Deciding(q, d), [VerdictPlm(q, d)])
      && Leader(View(x.log, n, |x.log[n]|), q.tm.group) == n
    ensures Leads(q, s, s', false) && Only(s, s', r, n)
    ensures var x := LocalOf(s, r, n); PartAt(q, LocalOf(s', r, n), n, Part(Decidedly(d), x.down, x.up))
  {
    var x, plm := LocalOf(s, r, n), VerdictPlm(q, d);
    hide Leader, View, Next, Enabled, Leads, Only;
    OneEntryMore(x.log, n, plm, q.tm.group);
    InsertLocal(q, s, r, n);
    var s1 := Next(q, s, RMInsert(r));
    assert [plm][1..] == [];
    assert LocalOf(s1, r, n) == Local(Append(x.log, Insertion(plm)), RMActor(x.rm.applied, Deciding(q, d), []), x.down, x.up);
    s' := SeenLocal(q, s1, r, n, d);
    LeadsStep(q, s, RMInsert(r), false);
    LeadsOn(q, s, s1, s', false);
    OnlyBoth(s, s1, s', r, n);
  }

  lemma {:induction false} SeenLocal(q: Query, s: Sys, r: RMPath, n: Gen, d: Decision) returns (s': Sys)
    requires var x := LocalOf(s, r, n);
      && r in q.rms && |x.log| == n + 1 && x.log[n] != [] && x.rm == RMActor(|x.log[n]| - 1, Deciding(q, d), [])
      && x.log[n][|x.log[n]| - 1] == Insertion(VerdictPlm(q, d))
      && Leader(View(x.log, n, |x.log[n]| - 1), q.tm.group) == n && Leader(View(x.log, n, |x.log[n]|), q.tm.group) == n
    ensures Leads(q, s, s', false) && Only(s, s', r, n)
    ensures var x := LocalOf(s, r, n); PartAt(q, LocalOf(s', r, n), n, Part(Decidedly(d), x.down, x.up))
  {
    var x := LocalOf(s, r, n);
    hide Leader, View, Next, Enabled, Leads, Only;
    AdvanceLocal(q, s, r, n, VerdictPlm(q, d));
    s' := Next(q, s, RMAdvance(r, n));
    LeadsStep(q, s, RMAdvance(r, n), false);
    assert x.up.sent + [] == x.up.sent;
  }

  /** A prepared manager that is told the verdict inserts it. */
  lemma {:induction false} PartDecides(q: Query, s: Sys, n: Gen, es: Option<TMState>, parts: seq<Part>, j: nat, d: Decision) returns (s': Sys)
    requires Whole(q, s, n, es, parts) && j < |q.rms| && parts[j].down.recv < |parts[j].down.sent|
    requires parts[j].es == Executing(q, HasPrepared) && parts[j].down.sent[parts[j].down.recv] == Telling(q, d)
    ensures Leads(q, s, s', false)
    ensures var p := parts[j]; Whole(q, s', n, es, parts[j := Part(Decidedly(d), Chan(p.down.sent, p.down.recv + 1), p.up)])
  {
    var r, p := q.rms[j], parts[j];
    assert PartAt(q, LocalOf(s, r, n), n, p);
    hide Leader, View, Leads, Only, Whole, Telling;
    var s1 := ToldLocal(q, s, r, n, p, d);
    s' := InsertedLocal(q, s1, r, n, d);
    LeadsOn(q, s, s1, s', false);
    OnlyBoth(s, s1, s', r, n);
    OnePart(q, s, s', n, es, parts, j, Part(Decidedly(d), Chan(p.down.sent, p.down.recv + 1), p.up));
  }

  /** The parts after the transaction manager took a message from part `j` and sent `sends`. */
  function Heard(q: Query, parts: seq<Part>, j: nat, sends: seq<ToRM>): seq<Part>
    requires |parts| == |q.rms|
  {
    seq(|parts|, i requires 0 <= i < |parts| =>
      parts[i].(down := Chan(parts[i].down.sent + BodiesTo(sends, q.rms[i]), parts[i].down.recv),
                up := Chan(parts[i].up.sent, parts[i].up.recv + if i == j then 1 else 0)))
  }

  lemma {:induction false} HeadHears(q: Query, s: Sys, n: Gen, es: Option<TMState>, parts: seq<Part>, j: nat) returns (s': Sys)
    requires Whole(q, s, n, es, parts) && j < |q.rms| && parts[j].up.recv < |parts[j].up.sent|
    ensures Leads(q, s, s', false)
    ensures var o := OnTMMessage(q.tm, es, parts[j].up.sent[parts[j].up.recv]); Whole(q, s', n, o.es, Heard(q, parts, j, o.sends))
  {
    var l := Link(n, q.rms[j], n);
    var o := OnTMMessage(q.tm, es, parts[j].up.sent[parts[j].up.recv]);
    assert PartAt(q, LocalOf(s, q.rms[j], n), n, parts[j]);
    assert TMLeader(s, n, q.rms[j].group) == n;
    s' := Next(q, s, TMReceive(l));
    assert s' == TMActs(TookUp(s, l), n, |s.tlog[n]|, o);
    hide OnTMMessage, Leader, View, Leads, TMActs, BodiesTo;
    LeadsStep(q, s, TMReceive(l), false);
    HeadActs(q, s, n, es, parts, j, o);
  }

  lemma {:induction false} HeadActs(q: Query, s: Sys, n: Gen, es: Option<TMState>, parts: seq<Part>, j: nat, o: TMOut)
    requires Whole(q, s, n, es, parts) && j < |q.rms|
    ensures Whole(q, TMActs(TookUp(s, Link(n, q.rms[j], n)), n, |s.tlog[n]|, o), n, o.es, Heard(q, parts, j, o.sends))
  {
    var s' := TMActs(TookUp(s, Link(n, q.rms[j], n)), n, |s.tlog[n]|, o);
    var parts' := Heard(q, parts, j, o.sends);
    forall i | 0 <= i < |q.rms| ensures PartAt(q, LocalOf(s', q.rms[i], n), n, parts'[i]) {
      assert PartAt(q, LocalOf(s, q.rms[i], n), n, parts[i]);
      HeadActsOn(q, s, n, es, parts, j, o, i);
    }
    assert HeadAt(q, s', n, o.es) by { assert forall r :: TMLeader(s', n, r) == TMLeader(s, n, r); }
  }

  lemma {:induction false} HeadActsOn(q: Query, s: Sys, n: Gen, es: Option<TMState>, parts: seq<Part>, j: nat, o: TMOut, i: nat)
    requires Whole(q, s, n, es, parts) && j < |q.rms| && i < |q.rms|
    ensures var x := LocalOf(s, q.rms[i], n);
      LocalOf(TMActs(TookUp(s, Link(n, q.rms[j], n)), n, |s.tlog[n]|, o), q.rms[i], n)
      == x.(down := Chan(x.down.sent + BodiesTo(o.sends, q.rms[i]), x.down.recv), up := Chan(x.up.sent, x.up.recv + if i == j then 1 else 0))
  {
    assert TMLeader(s, n, q.rms[i].group) == n;
    assert q.rms[i] == q.rms[j] <==> i == j;
    hide Leader, View, BodiesTo, PartAt;
  }

  // ---------------------------------------------------------------------------------------------
  //  The recovery, phase by phase
  // ---------------------------------------------------------------------------------------------

  /** The executions in which fresh leaderships start. */
  predicate Starting(q: Query, es: Option<RMOuter>) {
    es == None || es == Some(HasCommitted) || es == Some(HasAborted) || es == Executing(q, HasPrepared)
  }

  predicate AllStarting(q: Query, all: seq<Option<RMOuter>>) {
    |all| == |q.rms| && q.Valid() && forall j | 0 <= j < |all| :: Starting(q, all[j])
  }

  /** What a prepared manager announces. */
  function Announced(q: Query, es: Option<RMOuter>): seq<TMMessage> {
    if es == Executing(q, HasPrepared) then [InformPrepared(q.id, q.tm, q.rms)] else []
  }

  function Reply(q: Query, es: Option<RMOuter>, r: RMPath): TMMessage {
    if es == None || es == Some(HasAborted) then Aborted(q.id, r) else Prepared(q.id, r)
  }

  function Check(q: Query): RMMessage { CheckPrepared(q.id, q.tm) }

  function Checking(q: Query, some: seq<RMPath>): TMState {
    CheckingPrepared(q.id, q.rms, Checks(q.id, q.tm, some))
  }

  /** The announcements of the first `k` have been heard, and if there was one everybody is asked. */
  function Announcing(q: Query, all: seq<Option<RMOuter>>, k: nat, asked: bool): seq<Part> {
    seq(|all|, j requires 0 <= j < |all| =>
      Part(all[j], Chan(if asked then [Check(q)] else [], 0), Chan(Announced(q, all[j]), if j < k then |Announced(q, all[j])| else 0)))
  }

  /** The first `k` have answered. */
  function Answering(q: Query, all: seq<Option<RMOuter>>, k: nat): seq<Part>
    requires |all| == |q.rms|
  {
    seq(|all|, j requires 0 <= j < |all| =>
      Part(all[j], Chan([Check(q)], if j < k then 1 else 0),
           Chan(Announced(q, all[j]) + (if j < k then [Reply(q, all[j], q.rms[j])] else []), |Announced(q, all[j])|)))
  }

  /** The answers of the first `k` have been heard, and perhaps it has been decided. */
  function Counting(q: Query, all: seq<Option<RMOuter>>, k: nat, d: Option<Decision>): seq<Part>
    requires |all| == |q.rms|
  {
    seq(|all|, j requires 0 <= j < |all| =>
      Part(all[j], Chan([Check(q)] + (if d.Some? then [Telling(q, d.value)] else []), 1),
           Chan(Announced(q, all[j]) + [Reply(q, all[j], q.rms[j])], |Announced(q, all[j])| + if j < k then 1 else 0)))
  }

  function Ended(q: Query, es: Option<RMOuter>, d: Decision): Option<RMOuter> {
    if es == Executing(q, HasPrepared) then Decidedly(d) else es
  }

  /** The first `k` have been told. */
  function Ending(q: Query, all: seq<Option<RMOuter>>, k: nat, d: Decision): seq<Part>
    requires |all| == |q.rms|
  {
    seq(|all|, j requires 0 <= j < |all| =>
      Part(if j < k then Ended(q, all[j], d) else all[j], Chan([Check(q), Telling(q, d)], if j < k then 2 else 1),
           Chan(Announced(q, all[j]) + [Reply(q, all[j], q.rms[j])], |Announced(q, all[j])| + 1)))
  }

  function AskingNow(q: Query, asked: bool): Option<TMState> {
    if asked then Some(Checking(q, q.rms)) else None
  }

  lemma {:induction false} AnnounceStep(q: Query, s: Sys, n: Gen, all: seq<Option<RMOuter>>, k: nat, asked: bool) returns (s': Sys)
    requires AllStarting(q, all) && k < |all| && Whole(q, s, n, AskingNow(q, asked), Announcing(q, all, k, asked))
    ensures var asked' := asked || Announced(q, all[k]) != [];
      Leads(q, s, s', false) && Whole(q, s', n, AskingNow(q, asked'), Announcing(q, all, k + 1, asked'))
  {
    var parts := Announcing(q, all, k, asked);
    hide Leads, Whole;
    if Announced(q, all[k]) == [] {
      assert Announcing(q, all, k + 1, asked) == parts;
      s' := s;
      LeadsNowhere(q, s, false);
    } else {
      s' := HeadHears(q, s, n, AskingNow(q, asked), parts, k);
      var o := OnTMMessage(q.tm, AskingNow(q, asked), InformPrepared(q.id, q.tm, q.rms));
      assert o.es == AskingNow(q, true);
      forall i | 0 <= i < |all| ensures Heard(q, parts, k, o.sends)[i] == Announcing(q, all, k + 1, true)[i] {
        if asked { OneBodyTo(o.sends, q.rms[i]); } else { ToAllReaches(q, Check(q), q.rms[i]); }
        var sent := parts[i].down.sent;
        assert sent + BodiesTo(o.sends, q.rms[i]) == [Check(q)];
      }
      assert Heard(q, parts, k, o.sends) == Announcing(q, all, k + 1, true);
    }
  }

  lemma {:induction false} AnnounceAll(q: Query, s: Sys, n: Gen, all: seq<Option<RMOuter>>, k: nat, asked: bool) returns (s': Sys, asked': bool)
    requires AllStarting(q, all) && k <= |all| && Whole(q, s, n, AskingNow(q, asked), Announcing(q, all, k, asked))
    ensures Leads(q, s, s', false) && Whole(q, s', n, AskingNow(q, asked'), Announcing(q, all, |all|, asked'))
    ensures asked ==> asked'
    ensures asked' && !asked ==> k < |all|
    ensures !asked' ==> forall j | k <= j < |all| :: Announced(q, all[j]) == []
    decreases |all| - k
  {
    hide Leads, Whole, Announcing, Announced;
    if k == |all| {
      s', asked' := s, asked;
      LeadsNowhere(q, s, false);
    } else {
      var s1 := AnnounceStep(q, s, n, all, k, asked);
      s', asked' := AnnounceAll(q, s1, n, all, k + 1, asked || Announced(q, all[k]) != []);
      LeadsOn(q, s, s1, s', false);
    }
  }

  lemma {:induction false} AnswerStep(q: Query, s: Sys, n: Gen, all: seq<Option<RMOuter>>, k: nat) returns (s': Sys)
    requires AllStarting(q, all) && k < |all| && Whole(q, s, n, AskingNow(q, true), Answering(q, all, k))
    ensures Leads(q, s, s', false) && Whole(q, s', n, AskingNow(q, true), Answering(q, all, k + 1))
  {
    hide Leads, Whole;
    var parts, reply := Answering(q, all, k), Reply(q, all[k], q.rms[k]);
    assert Starting(q, all[k]);
    s' := PartReceives(q, s, n, AskingNow(q, true), parts, k, all[k], [reply]);
    var p := parts[k];
    assert p.up.sent + [reply] == Announced(q, all[k]) + [reply];
    assert Answering(q, all, k + 1) == parts[k := Part(all[k], Chan(p.down.sent, p.down.recv + 1), Chan(p.up.sent + [reply], p.up.recv))];
  }

  lemma {:induction false} AnswerAll(q: Query, s: Sys, n: Gen, all: seq<Option<RMOuter>>, k: nat) returns (s': Sys)
    requires AllStarting(q, all) && k <= |all| && Whole(q, s, n, AskingNow(q, true), Answering(q, all, k))
    ensures Leads(q, s, s', false) && Whole(q, s', n, AskingNow(q, true), Answering(q, all, |all|))
    decreases |all| - k
  {
    hide Leads, Whole, Answering, AskingNow;
    if k == |all| {
      s' := s;
      LeadsNowhere(q, s, false);
    } else {
      var s1 := AnswerStep(q, s, n, all, k);
      s' := AnswerAll(q, s1, n, all, k + 1);
      LeadsOn(q, s, s1, s', false);
    }
  }

  /** What the transaction manager knows after the first `k` answers, given what it has decided. */
  function CountingNow(q: Query, k: nat, d: Option<Decision>): Option<TMState>
    requires k <= |q.rms|
  {
    if d.None? then Some(Checking(q, q.rms[k..])) else None
  }

  /** What the next answer leads to. */
  function NextDecision(q: Query, all: seq<Option<RMOuter>>, k: nat, d: Option<Decision>): Option<Decision>
    requires k < |all| == |q.rms|
  {
    if d.Some? then d
    else if Reply(q, all[k], q.rms[k]).Aborted? then Some(DecideAbort)
    else if k + 1 == |all| then Some(DecideCommit)
    else None
  }

  lemma {:induction false} ChecksLess(q: Query, more: seq<RMPath>, rest: seq<RMPath>, x: RMPath)
    requires x !in rest && forall r :: r in more <==> r == x || r in rest
    ensures Checks(q.id, q.tm, more) - {x} == Checks(q.id, q.tm, rest)
    ensures rest != [] ==> Checks(q.id, q.tm, rest) != map[]
  {
    var a, b := Checks(q.id, q.tm, more) - {x}, Checks(q.id, q.tm, rest);
    assert a.Keys == b.Keys;
    if rest != [] { assert rest[0] in b; }
  }

  lemma {:induction false} OneLess(q: Query, k: nat)
    requires q.Valid() && k < |q.rms|
    ensures Checking(q, q.rms[k..]).remaining - {q.rms[k]} == Checking(q, q.rms[k + 1..]).remaining
    ensures Checking(q, q.rms[k + 1..]).remaining == map[] <==> k + 1 == |q.rms|
  {
    var rest, more := q.rms[k + 1..], q.rms[k..];
    assert more == [q.rms[k]] + rest;
    assert q.rms[k] !in rest;
    assert forall r :: r in more <==> r == q.rms[k] || r in rest;
    ChecksLess(q, more, rest, q.rms[k]);
  }

  lemma {:induction false} PreparedReaction(q: Query, k: nat)
    requires q.Valid() && k < |q.rms|
    ensures OnPrepared(q.tm, Checking(q, q.rms[k..]), q.rms[k]) ==
              if k + 1 == |q.rms| then TMOut(None, ToAll(q.rms, Telling(q, DecideCommit)), Some(DecideCommit))
              else TMOut(Some(Checking(q, q.rms[k + 1..])), [], None)
  {
    OneLess(q, k);
    hide Checks, ToAll;
  }

  lemma {:induction false} CountReaction(q: Query, all: seq<Option<RMOuter>>, k: nat, d: Option<Decision>)
    requires AllStarting(q, all) && k < |all|
    ensures var o := OnTMMessage(q.tm, CountingNow(q, k, d), Reply(q, all[k], q.rms[k])); var d' := NextDecision(q, all, k, d);
      && o.es == CountingNow(q, k + 1, d')
      && o.sends == if d.None? && d'.Some? then ToAll(q.rms, Telling(q, d'.value)) else []
  {
    assert |all| == |q.rms|;
    hide AllStarting, Checking, ToAll, OnTMMessage, OnPrepared;
    var m := Reply(q, all[k], q.rms[k]);
    if d.Some? {
      ReplyIgnored(q, m);
    } else {
      assert q.Valid() by { StartingValid(q, all); }
      PreparedReaction(q, k);
      ReplyTaken(q, Checking(q, q.rms[k..]), m);
      assert Checking(q, q.rms[k..]).all == q.rms && Checking(q, q.rms[k..]).query == q.id by { CheckingFor(q, q.rms[k..]); }
    }
  }

  lemma {:induction false} StartingValid(q: Query, all: seq<Option<RMOuter>>)
    requires AllStarting(q, all)
    ensures q.Valid()
  {
  }

  lemma {:induction false} CheckingFor(q: Query, some: seq<RMPath>)
    ensures Checking(q, some).all == q.rms && Checking(q, some).query == q.id
  {
  }

  lemma {:induction false} ReplyIgnored(q: Query, m: TMMessage)
    requires m.Prepared? || m.Aborted?
    ensures OnTMMessage(q.tm, None, m) == TMOut(None, [], None)
  {
  }

  lemma {:induction false} ReplyTaken(q: Query, es: TMState, m: TMMessage)
    requires m.Prepared? || m.Aborted?
    ensures OnTMMessage(q.tm, Some(es), m) ==
              if m.Prepared? then OnPrepared(q.tm, es, m.rm)
              else TMOut(None, ToAll(es.all, Abort(es.query, q.tm)), Some(DecideAbort))
  {
    hide OnPrepared;
  }

  lemma {:induction false} CountPart(q: Query, all: seq<Option<RMOuter>>, k: nat, d: Option<Decision>, d': Option<Decision>, sends: seq<ToRM>, i: nat)
    requires AllStarting(q, all) && k < |all| && i < |all| && (d.Some? ==> d' == d)
    requires sends == if d.None? && d'.Some? then ToAll(q.rms, Telling(q, d'.value)) else []
    ensures var a, b := Heard(q, Counting(q, all, k, d), k, sends), Counting(q, all, k + 1, d'); i < |a| && i < |b| && a[i] == b[i]
  {
    hide ToAll, BodiesTo, Reply, Announced, Telling;
    if d.None? && d'.Some? { ToAllReaches(q, Telling(q, d'.value), q.rms[i]); } else { OneBodyTo(sends, q.rms[i]); }
    var sent := Counting(q, all, k, d)[i].down.sent;
    assert sent + BodiesTo(sends, q.rms[i]) == [Check(q)] + if d'.Some? then [Telling(q, d'.value)] else [];
  }

  lemma {:induction false} CountStep(q: Query, s: Sys, n: Gen, all: seq<Option<RMOuter>>, k: nat, d: Option<Decision>) returns (s': Sys)
    requires AllStarting(q, all) && k < |all| && Whole(q, s, n, CountingNow(q, k, d), Counting(q, all, k, d))
    ensures var d' := NextDecision(q, all, k, d);
      Leads(q, s, s', false) && Whole(q, s', n, CountingNow(q, k + 1, d'), Counting(q, all, k + 1, d'))
  {
    var parts, d' := Counting(q, all, k, d), NextDecision(q, all, k, d);
    assert parts[k].up.sent[parts[k].up.recv] == Reply(q, all[k], q.rms[k]);
    assert |parts| == |all| && parts[k].up.recv < |parts[k].up.sent| && |all| == |q.rms|;
    assert d.Some? ==> d' == d by { if d.Some? { SameDecision(q, all, k, d); } }
    hide *;
    s' := HeadHears(q, s, n, CountingNow(q, k, d), parts, k);
    CountReaction(q, all, k, d);
    var sends := OnTMMessage(q.tm, CountingNow(q, k, d), Reply(q, all[k], q.rms[k])).sends;
    forall i | 0 <= i < |all|
      ensures i < |Heard(q, parts, k, sends)| && i < |Counting(q, all, k + 1, d')| && Heard(q, parts, k, sends)[i] == Counting(q, all, k + 1, d')[i]
    {
      CountPart(q, all, k, d, d', sends, i);
    }
    SameParts(q, parts, k, sends, all, d');
  }

  lemma {:induction false} SameParts(q: Query, parts: seq<Part>, k: nat, sends: seq<ToRM>, all: seq<Option<RMOuter>>, d: Option<Decision>)
    requires |parts| == |q.rms| == |all|
    requires forall i | 0 <= i < |all| :: i < |Heard(q, parts, k, sends)| && i < |Counting(q, all, k + 1, d)| && Heard(q, parts, k, sends)[i] == Counting(q, all, k + 1, d)[i]
    ensures Heard(q, parts, k, sends) == Counting(q, all, k + 1, d)
  {
  }

  lemma {:induction false} SameDecision(q: Query, all: seq<Option<RMOuter>>, k: nat, d: Option<Decision>)
    requires k < |all| == |q.rms| && d.Some?
    ensures NextDecision(q, all, k, d) == d
  {
  }

  /** With the last answer at the latest a decision is made. */
  lemma {:induction false} CountAll(q: Query, s: Sys, n: Gen, all: seq<Option<RMOuter>>, k: nat, d: Option<Decision>)
    returns (s': Sys, d': Decision)
    requires AllStarting(q, all) && k <= |all| && Whole(q, s, n, CountingNow(q, k, d), Counting(q, all, k, d))
    requires k == |all| ==> d.Some?
    ensures Leads(q, s, s', false) && Whole(q, s', n, None, Counting(q, all, |all|, Some(d')))
    decreases |all| - k
  {
    hide Leads, Whole, Counting, Reply;
    if k == |all| {
      s', d' := s, d.value;
      LeadsNowhere(q, s, false);
    } else {
      var s1 := CountStep(q, s, n, all, k, d);
      s', d' := CountAll(q, s1, n, all, k + 1, NextDecision(q, all, k, d));
      LeadsOn(q, s, s1, s', false);
    }
  }

  /** One more manager learns of the decision. */
  lemma {:induction false} EndStep(q: Query, s: Sys, n: Gen, all: seq<Option<RMOuter>>, k: nat, d: Decision) returns (s': Sys)
    requires AllStarting(q, all) && k < |all| && Whole(q, s, n, None, Ending(q, all, k, d))
    ensures Leads(q, s, s', false) && Whole(q, s', n, None, Ending(q, all, k + 1, d))
  {
    hide Leads, Whole;
    var parts := Ending(q, all, k, d);
    var p := parts[k];
    assert Starting(q, all[k]);
    if all[k] == Executing(q, HasPrepared) {
      s' := PartDecides(q, s, n, None, parts, k, d);
    } else {
      s' := PartReceives(q, s, n, None, parts, k, all[k], []);
      assert p.up.sent + [] == p.up.sent;
    }
    assert Ending(q, all, k + 1, d) == parts[k := Part(Ended(q, all[k], d), Chan(p.down.sent, p.down.recv + 1), p.up)];
  }

  lemma {:induction false} EndAll(q: Query, s: Sys, n: Gen, all: seq<Option<RMOuter>>, k: nat, d: Decision) returns (s': Sys)
    requires AllStarting(q, all) && k <= |all| && Whole(q, s, n, None, Ending(q, all, k, d))
    ensures Leads(q, s, s', false) && Whole(q, s', n, None, Ending(q, all, |all|, d))
    decreases |all| - k
  {
    hide Leads, Whole, Ending;
    if k == |all| {
      s' := s;
      LeadsNowhere(q, s, false);
    } else {
      var s1 := EndStep(q, s, n, all, k, d);
      s' := EndAll(q, s1, n, all, k + 1, d);
      LeadsOn(q, s, s1, s', false);
    }
  }

  /** Parts of which nothing is left to be done. */
  predicate Finished(parts: seq<Part>) {
    forall j | 0 <= j < |parts| ::
      && parts[j].down.recv == |parts[j].down.sent| && parts[j].up.recv == |parts[j].up.sent|
      && StartInserting(parts[j].es).plms == []
  }

  lemma {:induction false} FinishedSettles(q: Query, s: Sys, n: Gen, es: Option<TMState>, parts: seq<Part>)
    requires Whole(q, s, n, es, parts) && Finished(parts)
    ensures Settled(q, s)
  {
    hide PartAt, LocalOf, SettledAt, StartInserting;
    forall r | r in q.rms ensures s.rlog(r) != [] && SettledAt(q, s, |s.tlog| - 1, r, |s.rlog(r)| - 1) {
      var j :| 0 <= j < |q.rms| && q.rms[j] == r;
      assert PartAt(q, LocalOf(s, r, n), n, parts[j]);
      PartSettles(q, s, n, r, parts[j]);
    }
  }

  lemma {:induction false} PartSettles(q: Query, s: Sys, n: Gen, r: RMPath, p: Part)
    requires PartAt(q, LocalOf(s, r, n), n, p) && TMLeader(s, n, r.group) == n && StartInserting(p.es).plms == []
    requires p.down.recv == |p.down.sent| && p.up.recv == |p.up.sent|
    ensures s.rlog(r) != [] && |s.rlog(r)| == n + 1 && SettledAt(q, s, n, r, n)
  {
    hide StartInserting, TMLeader, Leader, View;
  }

  /** Fresh leaderships that know each other settle the query. */
  lemma {:induction false} FreshSettle(q: Query, s: Sys, n: Gen, all: seq<Option<RMOuter>>) returns (s': Sys)
    requires AllStarting(q, all) && Whole(q, s, n, None, Announcing(q, all, 0, false))
    ensures Leads(q, s, s', false) && Settled(q, s')
  {
    hide Leads, Whole, Settled;
    var s1, asked := AnnounceAll(q, s, n, all, 0, false);
    if !asked {
      s' := s1;
      assert Finished(Announcing(q, all, |all|, false)) by {
        forall j | 0 <= j < |all| ensures StartInserting(all[j]).plms == [] { assert Starting(q, all[j]); }
      }
      FinishedSettles(q, s1, n, AskingNow(q, false), Announcing(q, all, |all|, false));
    } else {
      assert Announcing(q, all, |all|, true) == Answering(q, all, 0) by { NobodyAnswered(q, all); }
      var s2 := AnswerAll(q, s1, n, all, 0);
      assert Answering(q, all, |all|) == Counting(q, all, 0, None) by { AllAnswered(q, all); }
      assert q.rms[0..] == q.rms;
      var s3, d := CountAll(q, s2, n, all, 0, None);
      assert Counting(q, all, |all|, Some(d)) == Ending(q, all, 0, d) by { AllCounted(q, all, d); }
      s' := EndAll(q, s3, n, all, 0, d);
      EndIsFinished(q, all, d);
      FinishedSettles(q, s', n, None, Ending(q, all, |all|, d));
      LeadsOn(q, s, s1, s2, false);
      LeadsOn(q, s, s2, s3, false);
      LeadsOn(q, s, s3, s', false);
    }
  }

  lemma {:induction false} NobodyAnswered(q: Query, all: seq<Option<RMOuter>>)
    requires |all| == |q.rms|
    ensures Announcing(q, all, |all|, true) == Answering(q, all, 0)
  {
    forall j | 0 <= j < |all| ensures Announced(q, all[j]) + [] == Announced(q, all[j]) { }
  }

  lemma {:induction false} AllAnswered(q: Query, all: seq<Option<RMOuter>>)
    requires |all| == |q.rms|
    ensures Answering(q, all, |all|) == Counting(q, all, 0, None)
  {
    assert [Check(q)] + [] == [Check(q)];
  }

  lemma {:induction false} AllCounted(q: Query, all: seq<Option<RMOuter>>, d: Decision)
    requires |all| == |q.rms|
    ensures Counting(q, all, |all|, Some(d)) == Ending(q, all, 0, d)
  {
    assert [Check(q)] + [Telling(q, d)] == [Check(q), Telling(q, d)];
  }

  lemma {:induction false} EndIsFinished(q: Query, all: seq<Option<RMOuter>>, d: Decision)
    requires AllStarting(q, all)
    ensures Finished(Ending(q, all, |all|, d))
  {
    forall j | 0 <= j < |all| ensures StartInserting(Ended(q, all[j], d)).plms == [] { assert Starting(q, all[j]); }
  }

  // ---------------------------------------------------------------------------------------------
  //  Getting there
  // ---------------------------------------------------------------------------------------------

  lemma {:induction false} PathKeeps(q: Query, states: seq<Sys>, events: seq<Event>, k: nat)
    requires q.Valid() && Path(q, states, events, false) && k < |states| && Inv(q, states[0])
    ensures Inv(q, states[k])
  {
    hide Inv;
    if k > 0 {
      PathKeeps(q, states, events, k - 1);
      StepKeeps(q, states[k - 1], events[k - 1]);
    }
  }

  lemma {:induction false} LeadsKeeps(q: Query, s: Sys, s': Sys)
    requires q.Valid() && Leads(q, s, s', false) && Inv(q, s)
    ensures Inv(q, s')
  {
    hide Inv;
    var states, events :| Path(q, states, events, false) && states[0] == s && states[|events|] == s';
    PathKeeps(q, states, events, |events|);
  }

  /** Later than every leadership there has been, or that anybody has heard of. */
  predicate Later(q: Query, s: Sys, n: Gen, r: RMPath) {
    && |s.tlog| <= n && |s.rlog(r)| <= n
    && Leader(Flat(s.tlog), r.group) < n && Leader(Flat(s.rlog(r)), q.tm.group) < n
  }

  lemma {:induction false} SomeLater(q: Query, s: Sys, k: nat) returns (n: Gen)
    requires k <= |q.rms|
    ensures n >= |s.tlog| && forall j | 0 <= j < k :: Later(q, s, n, q.rms[j])
  {
    hide Flat, Leader;
    if k == 0 {
      n := |s.tlog|;
    } else {
      var r := q.rms[k - 1];
      n := SomeLater(q, s, k - 1);
      n := n + |s.rlog(r)| + Leader(Flat(s.tlog), r.group) + Leader(Flat(s.rlog(r)), q.tm.group) + 1;
    }
  }

  /** Nothing was ever sent between leaderships of which at least one does not exist. */
  lemma {:induction false} NothingSent(q: Query, s: Sys, n: Gen, r: RMPath)
    requires Inv(q, s) && r in q.rms && Later(q, s, n, r)
    ensures s.down(Link(n, r, n)) == Chan([], 0) && s.up(Link(n, r, n)) == Chan([], 0)
  {
    var l := Link(n, r, n);
    assert DownOk(q, s, l) && UpOk(q, s, l);
    assert TMLeader(s, n, r.group) == Leader(Flat(s.tlog), r.group);
    MS.WhoSent(q, s, l);
    WhoAnswered(q, s, l);
  }

  lemma {:induction false} WhoAnswered(q: Query, s: Sys, l: Link)
    requires UpOk(q, s, l)
    ensures s.up(l).sent != [] ==> l.gen < |s.rlog(l.rm)|
  {
    if s.up(l).sent != [] { assert UpMsgOk(q, s, l, s.up(l).sent[0]); }
  }

  // The transaction manager.

  lemma {:induction false} TMElects(q: Query, s: Sys, n: Gen) returns (s': Sys)
    requires s.tlog != [] && |s.tlog| <= n + 1 && (|s.tlog| == n + 1 ==> s.tlog[n] == [])
    ensures Leads(q, s, s', false) && s' == s.(tlog := s'.tlog)
    ensures |s'.tlog| == n + 1 && s'.tlog[n] == [] && Flat(s'.tlog) == Flat(s.tlog)
    decreases n + 1 - |s.tlog|
  {
    hide Leads, Flat;
    if |s.tlog| == n + 1 {
      s' := s;
      LeadsNowhere(q, s, false);
    } else {
      var s1 := Next(q, s, TMElect);
      ViewElect(s.tlog, 0, 0);
      LeadsStep(q, s, TMElect, false);
      s' := TMElects(q, s1, n);
      LeadsOn(q, s, s1, s', false);
    }
  }

  /** Leadership `n` of the transaction manager learns that a group has leadership `n`. */
  lemma {:induction false} HeadLearns(q: Query, s: Sys, n: Gen, g: GroupId) returns (s': Sys)
    requires |s.tlog| == n + 1 && s.tm(n) == TMActor(|s.tlog[n]|, None)
    ensures Leads(q, s, s', false)
    ensures |s'.tlog| == n + 1 && s'.tm(n) == TMActor(|s'.tlog[n]|, None) && forall r :: LocalOf(s', r, n) == LocalOf(s, r, n)
    ensures forall x :: TMLeader(s', n, x) == if x == g && TMLeader(s, n, g) < n then n else TMLeader(s, n, x)
  {
    var e := RemoteLeader(g, n);
    var s1 := Next(q, s, TMAppend(g, n));
    LeadsStep(q, s, TMAppend(g, n), false);
    var a := |s.tlog[n]|;
    ViewAppend(s.tlog, e, n, a);
    assert s1.tlog[n] == s.tlog[n] + [e] && s1.tm(n) == s.tm(n);
    ViewStep(s1.tlog, n, a);
    s' := Next(q, s1, TMAdvance(n));
    LeadsStep(q, s1, TMAdvance(n), false);
    LeadsOn(q, s, s1, s', false);
    assert AdvanceTM(s1, n) == TMOut(None, [], None);
    var v := TMView(s, n);
    assert TMView(s', n) == v + [e] && (v + [e])[..|v|] == v;
    forall r ensures LocalOf(s', r, n) == LocalOf(s, r, n) {
      OneBodyTo([], r);
      var d := s.down(Link(n, r, n));
      assert d.sent + [] == d.sent;
    }
  }

  lemma {:induction false} HeadLearnsAll(q: Query, s: Sys, n: Gen, k: nat) returns (s': Sys)
    requires k <= |q.rms| && |s.tlog| == n + 1 && s.tm(n) == TMActor(|s.tlog[n]|, None)
    requires forall j | 0 <= j < |q.rms| :: TMLeader(s, n, q.rms[j].group) <= n
    requires forall j | 0 <= j < k :: TMLeader(s, n, q.rms[j].group) == n
    ensures Leads(q, s, s', false) && HeadAt(q, s', n, None) && forall r :: LocalOf(s', r, n) == LocalOf(s, r, n)
    decreases |q.rms| - k
  {
    hide Leads, TMLeader, LocalOf;
    if k == |q.rms| {
      s' := s;
      LeadsNowhere(q, s, false);
    } else {
      var s1 := HeadLearns(q, s, n, q.rms[k].group);
      s' := HeadLearnsAll(q, s1, n, k + 1);
      LeadsOn(q, s, s1, s', false);
    }
  }

  // The resource managers.

  /** `r` is led by leadership `n`, which has done nothing yet. */
  predicate Renewed(q: Query, x: Local, n: Gen, es: Option<RMOuter>) {
    && |x.log| == n + 1 && x.log[n] == [] && x.rm == RMActor(0, es, [])
    && x.down == Chan([], 0) && x.up == Chan([], 0) && Leader(Flat(x.log), q.tm.group) < n && Starting(q, es)
  }

  lemma {:induction false} StartsWell(q: Query, ps: seq<RMPlm>)
    requires Legal(q, ps)
    ensures Starting(q, RMLeaderChanged(true, Replay(ps)).es)
  {
    ReplayLegal(q, ps);
  }

  lemma {:induction false} ElectOnce(q: Query, s: Sys, r: RMPath, n: Gen)
    requires q.Valid() && Inv(q, s) && r in q.rms && |s.rlog(r)| <= n && Leader(Flat(s.rlog(r)), q.tm.group) < n
    ensures var s' := Next(q, s, RMElect(r));
      && Only(s, s', r, n) && s'.rlog(r) == s.rlog(r) + [[]] && Flat(s'.rlog(r)) == Flat(s.rlog(r))
      && s'.down(Link(n, r, n)) == s.down(Link(n, r, n)) && s'.up(Link(n, r, n)) == s.up(Link(n, r, n))
    ensures |s.rlog(r)| == n ==> var x := Next(q, s, RMElect(r)).rm(r, n); x == RMActor(0, x.es, []) && Starting(q, x.es)
  {
    var s' := Elected(q, s, r);
    assert s' == Next(q, s, RMElect(r)) && LogOk(q, s, r);
    hide Inv, Next, Leader;
    ElectFacts(q, s, s', r);
    ElectSends(q, s, s', r, Link(n, r, n));
    StartsWell(q, Entries(s, r));
    hide Elected, Flat, Replay, RMLeaderChanged, Entries;
    assert Only(s, s', r, n) by { ElectOnly(q, s, r, n); }
    assert s'.up(Link(n, r, n)).sent == s.up(Link(n, r, n)).sent;
  }

  lemma {:induction false} ElectOnly(q: Query, s: Sys, r: RMPath, n: Gen)
    ensures Only(s, Elected(q, s, r), r, n)
  {
    hide Leader, View, Flat, Replay, RMLeaderChanged, Bodies, Plms;
  }

  lemma {:induction false} RMElects(q: Query, s: Sys, r: RMPath, n: Gen) returns (s': Sys)
    requires q.Valid() && Inv(q, s) && r in q.rms && |s.rlog(r)| <= n && Leader(Flat(s.rlog(r)), q.tm.group) < n
    requires s.down(Link(n, r, n)) == Chan([], 0) && s.up(Link(n, r, n)) == Chan([], 0)
    ensures Leads(q, s, s', false) && Only(s, s', r, n) && exists es :: Renewed(q, LocalOf(s', r, n), n, es)
    decreases n - |s.rlog(r)|
  {
    var e := RMElect(r);
    var s1 := Next(q, s, e);
    assert Enabled(q, s, e);
    hide Inv, Next, Leads, Only, Enabled, Flat, Leader, Starting;
    ElectOnce(q, s, r, n);
    StepKeeps(q, s, e);
    LeadsStep(q, s, e, false);
    if |s.rlog(r)| == n {
      s' := s1;
      assert s1.rlog(r)[n] == [];
      assert Renewed(q, LocalOf(s1, r, n), n, s1.rm(r, n).es);
    } else {
      s' := RMElects(q, s1, r, n);
      LeadsOn(q, s, s1, s', false);
      OnlyBoth(s, s1, s', r, n);
    }
  }

  /** The new leadership of `r` learns of that of the transaction manager, and announces itself if it has prepared. */
  lemma {:induction false} RMLearns(q: Query, s: Sys, r: RMPath, n: Gen, es: Option<RMOuter>) returns (s': Sys)
    requires r in q.rms && Renewed(q, LocalOf(s, r, n), n, es)
    ensures Leads(q, s, s', false) && Only(s, s', r, n)
    ensures PartAt(q, LocalOf(s', r, n), n, Part(es, Chan([], 0), Chan(Announced(q, es), 0)))
  {
    var x, e := LocalOf(s, r, n), RemoteLeader(q.tm.group, n);
    AppendLocal(q, s, r, n, e);
    var s1 := Next(q, s, RMAppend(r, q.tm.group, n));
    FreshView(x.log, n, e, q.tm.group);
    hide Leader, View, Flat, Append, Leads, Only, Next, Enabled, LocalOf;
    LeadsStep(q, s, RMAppend(r, q.tm.group, n), false);
    s' := Learns(q, s1, r, n, es);
    LeadsOn(q, s, s1, s', false);
    OnlyBoth(s, s1, s', r, n);
  }

  lemma {:induction false} AppendLocal(q: Query, s: Sys, r: RMPath, n: Gen, e: Entry)
    requires r in q.rms && s.rlog(r) != [] && e.RemoteLeader?
    ensures var ev := RMAppend(r, e.group, e.gen);
      && Enabled(q, s, ev) && Only(s, Next(q, s, ev), r, n)
      && LocalOf(Next(q, s, ev), r, n) == LocalOf(s, r, n).(log := Append(s.rlog(r), e))
  {
    hide Append;
  }

  lemma {:induction false} Learns(q: Query, s: Sys, r: RMPath, n: Gen, es: Option<RMOuter>) returns (s': Sys)
    requires var x := LocalOf(s, r, n);
      && r in q.rms && |x.log| == n + 1 && x.log[n] == [RemoteLeader(q.tm.group, n)] && x.rm == RMActor(0, es, [])
      && x.down == Chan([], 0) && x.up == Chan([], 0) && Starting(q, es)
      && Leader(View(x.log, n, 0), q.tm.group) < n && Leader(View(x.log, n, 1), q.tm.group) == n
    ensures Leads(q, s, s', false) && Only(s, s', r, n)
    ensures PartAt(q, LocalOf(s', r, n), n, Part(es, Chan([], 0), Chan(Announced(q, es), 0)))
  {
    var x, o := LocalOf(s, r, n), RMRemoteLeaderChanged(es, q.tm.group);
    assert o == RMOut(es, [], if Announced(q, es) == [] then [] else [ToTM(q.tm, Announced(q, es)[0])]);
    hide Leader, View, Leads, Only, Next, Enabled, RMRemoteLeaderChanged;
    LearnIs(q, s, r, n, es);
    ActsLocal(q, s, r, n, 1, o);
    s' := Next(q, s, RMAdvance(r, n));
    LeadsStep(q, s, RMAdvance(r, n), false);
    assert x.rm.pending + [] == [] && x.up.sent + Announced(q, es) == Announced(q, es);
  }

  lemma {:induction false} FreshView(log: Log, n: Gen, e: Entry, g: GroupId)
    requires |log| == n + 1 && log[n] == [] && Leader(Flat(log), g) < n && e == RemoteLeader(g, n)
    ensures var log' := Append(log, e);
      && |log'| == n + 1 && log'[n] == [e] && Leader(View(log', n, 0), g) < n && Leader(View(log', n, 1), g) == n
  {
    var log' := Append(log, e);
    ViewAppend(log, e, n, 0);
    FlatSplit(log, 0);
    assert log[n][0..] == [];
    assert Flat(log) == View(log, n, 0);
    ViewStep(log', n, 0);
    var v := View(log', n, 0);
    assert (v + [e])[..|v|] == v;
  }

  lemma {:induction false} LearnIs(q: Query, s: Sys, r: RMPath, n: Gen, es: Option<RMOuter>)
    requires var x := LocalOf(s, r, n);
      && r in q.rms && |x.log| == n + 1 && x.log[n] == [RemoteLeader(q.tm.group, n)] && x.rm == RMActor(0, es, [])
      && Leader(View(x.log, n, 0), q.tm.group) < n
    ensures Enabled(q, s, RMAdvance(r, n))
    ensures Next(q, s, RMAdvance(r, n)) == RMActs(q, s, r, n, 1, RMRemoteLeaderChanged(es, q.tm.group))
  {
    hide Leader, View, RMActs, RMRemoteLeaderChanged;
  }

  /** The managers from position `k` on get fresh leaderships. */
  lemma {:induction false} RenewAll(q: Query, s: Sys, n: Gen, k: nat, some: seq<Option<RMOuter>>) returns (s': Sys, all: seq<Option<RMOuter>>)
    requires q.Valid() && Inv(q, s) && k == |some| <= |q.rms|
    requires forall j | 0 <= j < k :: Ready(q, s, n, j, some[j])
    requires forall j | k <= j < |q.rms| :: Waits(q, s, n, q.rms[j])
    ensures Leads(q, s, s', false) && s'.tlog == s.tlog && s'.tm == s.tm
    ensures |all| == |q.rms| && forall j | 0 <= j < |q.rms| :: Ready(q, s', n, j, all[j])
    decreases |q.rms| - k
  {
    hide Inv, Leads, Ready, Waits;
    if k == |q.rms| {
      s', all := s, some;
      LeadsNowhere(q, s, false);
    } else {
      var s1, es := RenewOne(q, s, n, k);
      LeadsKeeps(q, s, s1);
      forall j | 0 <= j < |q.rms| && j != k ensures (j < k ==> Ready(q, s1, n, j, some[j])) && (j > k ==> Waits(q, s1, n, q.rms[j])) {
        OthersWait(q, s, s1, n, k, j, if j < k then some[j] else es);
      }
      s', all := RenewAll(q, s1, n, k + 1, some + [es]);
      LeadsOn(q, s, s1, s', false);
    }
  }

  /** The manager at position `j` has a fresh leadership that knows the other one. */
  predicate Ready(q: Query, s: Sys, n: Gen, j: nat, es: Option<RMOuter>)
    requires j < |q.rms|
  {
    Starting(q, es) && PartAt(q, LocalOf(s, q.rms[j], n), n, Part(es, Chan([], 0), Chan(Announced(q, es), 0)))
  }

  predicate Waits(q: Query, s: Sys, n: Gen, r: RMPath) {
    var x := LocalOf(s, r, n);
    |x.log| <= n && Leader(Flat(x.log), q.tm.group) < n && x.down == Chan([], 0) && x.up == Chan([], 0)
  }

  lemma {:induction false} OthersWait(q: Query, s: Sys, s': Sys, n: Gen, k: nat, j: nat, es: Option<RMOuter>)
    requires q.Valid() && k < |q.rms| && j < |q.rms| && j != k && Only(s, s', q.rms[k], n)
    ensures Ready(q, s, n, j, es) ==> Ready(q, s', n, j, es)
    ensures Waits(q, s, n, q.rms[j]) ==> Waits(q, s', n, q.rms[j])
  {
    assert q.rms[j] != q.rms[k];
    hide LocalOf, PartAt;
  }

  lemma {:induction false} RenewOne(q: Query, s: Sys, n: Gen, k: nat) returns (s': Sys, es: Option<RMOuter>)
    requires q.Valid() && Inv(q, s) && k < |q.rms| && Waits(q, s, n, q.rms[k])
    ensures Leads(q, s, s', false) && Only(s, s', q.rms[k], n) && Ready(q, s', n, k, es)
  {
    var r := q.rms[k];
    hide Inv, Leads, Only, Flat, Leader, Starting, PartAt, Announced;
    var s1 := RMElects(q, s, r, n);
    es :| Renewed(q, LocalOf(s1, r, n), n, es);
    s' := RMLearns(q, s1, r, n, es);
    LeadsOn(q, s, s1, s', false);
    OnlyBoth(s, s1, s', r, n);
  }

  lemma {:induction false} Recovers(q: Query, s: Sys) returns (s': Sys)
    requires q.Valid() && Inv(q, s)
    ensures Leads(q, s, s', false) && Settled(q, s')
  {
    var n := SomeLater(q, s, |q.rms|);
    assert s.tlog != [] && TMOk(q, s, n);
    assert s.tm(n) == TMActor(0, None);
    forall j | 0 <= j < |q.rms| ensures Waits(q, s, n, q.rms[j]) { NothingSent(q, s, n, q.rms[j]); }
    hide Inv, Leads, Settled, Flat, Leader, Waits, Ready;
    var s1 := TMElects(q, s, n);
    LeadsKeeps(q, s, s1);
    forall j | 0 <= j < |q.rms| ensures Waits(q, s1, n, q.rms[j]) { WaitsStill(q, s, s1, n, q.rms[j]); }
    var s2, all := RenewAll(q, s1, n, 0, []);
    forall j | 0 <= j < |q.rms| ensures TMLeader(s2, n, q.rms[j].group) <= n {
      FreshLeader(s2.tlog, n);
      assert TMLeader(s2, n, q.rms[j].group) == Leader(Flat(s.tlog), q.rms[j].group);
    }
    var s3 := HeadLearnsAll(q, s2, n, 0);
    AllFresh(q, s2, s3, n, all);
    s' := FreshSettle(q, s3, n, all);
    LeadsOn(q, s, s1, s2, false);
    LeadsOn(q, s, s2, s3, false);
    LeadsOn(q, s, s3, s', false);
  }

  lemma {:induction false} WaitsStill(q: Query, s: Sys, s': Sys, n: Gen, r: RMPath)
    requires Waits(q, s, n, r) && s' == s.(tlog := s'.tlog)
    ensures Waits(q, s', n, r)
  {
    hide Flat, Leader;
  }

  lemma {:induction false} FreshLeader(log: Log, n: Gen)
    requires |log| == n + 1 && log[n] == []
    ensures View(log, n, 0) == Flat(log)
  {
    FlatSplit(log, 0);
    assert log[n][0..] == [];
  }

  lemma {:induction false} AllFresh(q: Query, s: Sys, s': Sys, n: Gen, all: seq<Option<RMOuter>>)
    requires q.Valid() && |all| == |q.rms| && HeadAt(q, s', n, None) && forall r :: LocalOf(s', r, n) == LocalOf(s, r, n)
    requires forall j | 0 <= j < |q.rms| :: Ready(q, s, n, j, all[j])
    ensures AllStarting(q, all) && Whole(q, s', n, None, Announcing(q, all, 0, false))
  {
    hide Starting, PartAt, LocalOf, HeadAt, Announced;
    var parts := Announcing(q, all, 0, false);
    forall j | 0 <= j < |q.rms| ensures Starting(q, all[j]) && PartAt(q, LocalOf(s', q.rms[j], n), n, parts[j]) {
      assert Ready(q, s, n, j, all[j]);
    }
  }

  // ---------------------------------------------------------------------------------------------
  //  No state is a dead end
  // ---------------------------------------------------------------------------------------------

  /** Every run of a query can go on to a state in which everybody has committed or nobody has, and nobody
      is left prepared, however many leaderships have come and gone and whatever they left under way. */
  lemma {:induction false} NoDeadEnd(q: Query, states: seq<Sys>, events: seq<Event>) returns (states': seq<Sys>, events': seq<Event>)
    requires q.Valid() && Run(q, states, events)
    ensures Run(q, states', events') && |events| <= |events'| && events'[..|events|] == events && Settled(q, states'[|events'|])
    ensures var s := states'[|events'|]; var p := PreparedPlm(q.id, q.tm, q.rms);
      || (forall r | r in q.rms :: Entries(s, r) == [p, CommittedPlm(q.id)])
      || (forall r | r in q.rms :: Entries(s, r) == [] || Entries(s, r) == [p, AbortedPlm(q.id)])
  {
    hide Inv, Leads, Settled, Entries, Path;
    assert |states| == |events| + 1 && states[0] == InitialSys();
    assert Path(q, states, events, false) by { RunIsPath(q, states, events); }
    RunKeeps(q, states, events, |events|);
    var s := states[|events|];
    var s' := Recovers(q, s);
    var ys, fs := PathThere(q, s, s');
    PathsJoin(q, states, events, ys, fs, false);
    states', events' := states + ys[1..], events + fs;
    PathIsRun(q, states', events');
    AllOrNone(q, states', events', |events'|);
  }

  lemma {:induction false} RunIsPath(q: Query, states: seq<Sys>, events: seq<Event>)
    requires Run(q, states, events)
    ensures Path(q, states, events, false)
  {
  }

  lemma {:induction false} PathIsRun(q: Query, states: seq<Sys>, events: seq<Event>)
    requires Path(q, states, events, false) && states[0] == InitialSys()
    ensures Run(q, states, events) && |states| == |events| + 1
  {
  }

  lemma {:induction false} PathThere(q: Query, s: Sys, s': Sys) returns (states: seq<Sys>, events: seq<Event>)
    requires Leads(q, s, s', false)
    ensures Path(q, states, events, false) && states[0] == s && states[|events|] == s'
  {
    states, events :| Path(q, states, events, false) && states[0] == s && states[|events|] == s';
  }
}
