/** What Paxos2PC promises in every run, however often the leaderships on either side change. */
module TwoPCTheorems {
  import opened Wrappers
  import opened TwoPCTypes
  import opened TwoPCResource
  import opened TwoPCLog
  import opened TwoPCSystem
  import opened TwoPCInvariant
  import opened TwoPCGroups
  import opened TwoPCResourceSteps
  import MS = TwoPCManagerSteps

  lemma {:induction false} StepKeeps(q: Query, s: Sys, e: Event)
    requires q.Valid() && Inv(q, s) && Enabled(q, s, e)
    ensures Inv(q, Next(q, s, e)) && DeadStay(q, s, Next(q, s, e))
  {
    match e
    case Begin(g) => MS.BeginKeeps(q, s, g);
    case TMReceive(l) => MS.TMReceiveKeeps(q, s, l);
    case TMAdvance(g) => MS.TMAdvanceKeeps(q, s, g);
    case TMAppend(group, gen) => TMAppendKeeps(q, s, group, gen);
    case TMElect => TMElectKeeps(q, s);
    case RMReceive(l, works) => RMReceiveKeeps(q, s, l, works);
    case RMStart(r, h) => RMStartKeeps(q, s, r, h);
    case RMAdvance(r, h) => RMAdvanceKeeps(q, s, r, h);
    case RMAppend(r, group, gen) => RMAppendKeeps(q, s, r, group, gen);
    case RMInsert(r) => RMInsertKeeps(q, s, r);
    case RMElect(r) => RMElectKeeps(q, s, r);
  }

  lemma {:induction false} RunKeeps(q: Query, states: seq<Sys>, events: seq<Event>, k: nat)
    requires q.Valid() && Run(q, states, events) && k < |states|
    ensures Inv(q, states[k])
  {
    if k == 0 {
      Initially(q);
    } else {
      RunKeeps(q, states, events, k - 1);
      StepKeeps(q, states[k - 1], events[k - 1]);
    }
  }

  ghost predicate HasPreparedEntry(s: Sys, r: RMPath) {
    exists k :: 0 <= k < |Entries(s, r)| && Entries(s, r)[k].PreparedPlm?
  }

  ghost predicate HasCommittedEntry(s: Sys, r: RMPath) {
    exists k :: 0 <= k < |Entries(s, r)| && Entries(s, r)[k].CommittedPlm?
  }

  ghost predicate HasAbortedEntry(s: Sys, r: RMPath) {
    exists k :: 0 <= k < |Entries(s, r)| && Entries(s, r)[k].AbortedPlm?
  }

  /** What a legal sequence of entries contains. */
  lemma {:induction false} LegalContents(q: Query, ps: seq<RMPlm>)
    requires Legal(q, ps)
    ensures (exists k :: 0 <= k < |ps| && ps[k].PreparedPlm?) <==> ps != []
    ensures (exists k :: 0 <= k < |ps| && ps[k].CommittedPlm?) ==> CommittedPlm(q.id) in ps
    ensures (exists k :: 0 <= k < |ps| && ps[k].AbortedPlm?) ==> AbortedPlm(q.id) in ps
  {
    if ps != [] { assert ps[0].PreparedPlm?; }
    if |ps| == 2 { assert ps[1] in ps; }
  }

  lemma {:induction false} WhatEntriesSay(q: Query, s: Sys, r: RMPath)
    requires Inv(q, s) && r in q.rms
    ensures HasPreparedEntry(s, r) <==> Entries(s, r) != []
    ensures HasCommittedEntry(s, r) ==> Decided(s, DecideCommit)
    ensures HasAbortedEntry(s, r) ==> Decided(s, DecideAbort)
  {
    assert LogOk(q, s, r);
    hide Inv, Fate, Legal, Entries, Decided;
    LegalContents(q, Entries(s, r));
  }

  /** Atomicity: where one log commits, every log has prepared and none aborts. */
  lemma {:induction false} Atomicity(q: Query, states: seq<Sys>, events: seq<Event>, k: nat, r: RMPath, r': RMPath)
    requires q.Valid() && Run(q, states, events) && k < |states|
    requires r in q.rms && r' in q.rms && HasCommittedEntry(states[k], r)
    ensures HasPreparedEntry(states[k], r') && !HasAbortedEntry(states[k], r')
  {
    RunKeeps(q, states, events, k);
    WhatEntriesSay(q, states[k], r);
    WhatEntriesSay(q, states[k], r');
    MS.InvFate(q, states[k]);
    OneFate(q, states[k]);
  }

  /** No two leaderships of the transaction manager ever decide differently. */
  lemma {:induction false} DecisionsAgree(q: Query, states: seq<Sys>, events: seq<Event>, k: nat, i: nat, j: nat)
    requires q.Valid() && Run(q, states, events) && k < |states|
    requires i < |states[k].decisions| && j < |states[k].decisions|
    ensures states[k].decisions[i].1 == states[k].decisions[j].1
  {
    RunKeeps(q, states, events, k);
    MS.InvFate(q, states[k]);
    OneFate(q, states[k]);
    var s := states[k];
    assert Decided(s, s.decisions[i].1) && Decided(s, s.decisions[j].1);
  }

  /** What a client is told agrees with every log, now and for ever. */
  lemma {:induction false} DecisionsMatchLogs(q: Query, states: seq<Sys>, events: seq<Event>, k: nat, i: nat, r: RMPath)
    requires q.Valid() && Run(q, states, events) && k < |states| && i < |states[k].decisions| && r in q.rms
    ensures states[k].decisions[i].1 == DecideCommit ==> HasPreparedEntry(states[k], r) && !HasAbortedEntry(states[k], r)
    ensures states[k].decisions[i].1 == DecideAbort ==> !HasCommittedEntry(states[k], r)
  {
    RunKeeps(q, states, events, k);
    var s := states[k];
    MS.InvFate(q, s);
    OneFate(q, s);
    WhatEntriesSay(q, s, r);
    assert Decided(s, s.decisions[i].1);
  }

  lemma {:induction false} StepStaysDead(q: Query, states: seq<Sys>, events: seq<Event>, k: nat, r: RMPath)
    requires q.Valid() && Run(q, states, events) && k < |events| && r in q.rms && Dead(q, states[k], r)
    ensures Dead(q, states[k + 1], r)
  {
    hide Dead, Inv;
    RunKeeps(q, states, events, k);
    StepKeeps(q, states[k], events[k]);
    assert states[k + 1] == Next(q, states[k], events[k]);
  }

  lemma {:induction false} StayDead(q: Query, states: seq<Sys>, events: seq<Event>, k: nat, j: nat, r: RMPath)
    requires q.Valid() && Run(q, states, events) && k <= j < |states| && r in q.rms && Dead(q, states[k], r)
    ensures Dead(q, states[j], r)
    decreases j - k
  {
    if k < j {
      assert k < |events|;
      hide Run, Dead;
      StepStaysDead(q, states, events, k, r);
      StayDead(q, states, events, k + 1, j, r);
    }
  }

  /** A manager whose refusal is accepted never prepares afterwards. */
  lemma {:induction false} AcceptedRefusalIsFinal(q: Query, states: seq<Sys>, events: seq<Event>, k: nat, j: nat, l: Link)
    requires q.Valid() && Run(q, states, events) && k < j < |states|
    requires events[k] == TMReceive(l) && states[k].tm(l.tm).es.Some? && Enabled(q, states[k], events[k])
    requires states[k].up(l).sent[states[k].up(l).recv].Aborted?
    ensures HasPreparedEntry(states[j], l.rm) ==> HasPreparedEntry(states[k], l.rm)
  {
    RunKeeps(q, states, events, k);
    RunKeeps(q, states, events, j);
    WhatEntriesSay(q, states[k], l.rm);
    WhatEntriesSay(q, states[j], l.rm);
    if Entries(states[k], l.rm) == [] {
      MS.AbortHasVictim(q, states[k], l);
      StayDead(q, states, events, k + 1, j, l.rm);
    }
  }

  /** Every log tells a legal story: prepared at most once, and decided at most once after that. */
  lemma {:induction false} LogsAreLegal(q: Query, states: seq<Sys>, events: seq<Event>, k: nat, r: RMPath)
    requires q.Valid() && Run(q, states, events) && k < |states| && r in q.rms
    ensures var ps := Entries(states[k], r); var p := PreparedPlm(q.id, q.tm, q.rms);
      ps == [] || ps == [p] || ps == [p, CommittedPlm(q.id)] || ps == [p, AbortedPlm(q.id)]
  {
    RunKeeps(q, states, events, k);
    MS.InvLegal(q, states[k], r);
  }

  /** The insertion of an entry always finds the execution it unwraps, and never is ignored. */
  lemma {:induction false} InsertionsFindTheirExecution(q: Query, states: seq<Sys>, events: seq<Event>, k: nat, r: RMPath, h: Gen)
    requires q.Valid() && Run(q, states, events) && k < |states| && r in q.rms
    requires h < |states[k].rlog(r)| && states[k].rm(r, h).applied < |states[k].rlog(r)[h]|
    ensures AdvanceFinds(states[k], r, h)
    ensures states[k].rlog(r)[h][states[k].rm(r, h).applied].Insertion? ==>
              AdvanceRM(q, states[k], r, h).es != states[k].rm(r, h).es
  {
    var s := states[k];
    RunKeeps(q, states, events, k);
    assert RMOk(q, s, r, h);
    hide Inv;
    if s.rlog(r)[h][s.rm(r, h).applied].Insertion? {
      SeesExpected(q, s, r, h);
      ExpectedEntry(q, r, Leaders(RMView(s, r, h), q.tm.group), s.rm(r, h).es, s.rlog(r)[h][s.rm(r, h).applied].plm,
                    Plms(RMView(s, r, h)));
    }
  }

  /** What a leader hands to a node that joins is what a follower knows, and what the leader itself
      is left with when it loses its leadership. */
  lemma {:induction false} SnapshotIsFollower(q: Query, states: seq<Sys>, events: seq<Event>, k: nat, r: RMPath, h: Gen)
    requires q.Valid() && Run(q, states, events) && k < |states| && r in q.rms && h < |states[k].rlog(r)|
    ensures var es := states[k].rm(r, h).es;
      Snapshot(es) == Replay(Plms(RMView(states[k], r, h))) && Snapshot(es) == RMLeaderChanged(false, es).es
  {
    RunKeeps(q, states, events, k);
    InvHere(q, states[k], r, h);
    hide Inv, Run, Legal, RMCauses, Replay, Plms, Expected, Unseen;
    Demoted(q, states[k].rm(r, h).es);
  }

  /** Losing the leadership leaves what a snapshot would hold. */
  lemma {:induction false} Demoted(q: Query, es: Option<RMOuter>)
    requires EsOk(q, es)
    ensures Snapshot(es) == RMLeaderChanged(false, es).es
  {
  }
}
