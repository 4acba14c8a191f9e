/** The containers of execution states of Paxos2PC and the handlers that update them in place
    (src/paxos2pc_rm.rs, src/paxos2pc_tm.rs), proved against the functions of `TwoPCResource` and
    `TwoPCManager`. The action `Exit` is carried out by the caller of a handler (src/tablet.rs,
    src/coord.rs), which removes the execution state. */
module TwoPCServers {
  import opened Wrappers
  import opened TwoPCTypes
  import opened TwoPCResource
  import opened TwoPCManager

  datatype Action = Continue | Exit

  /** A resource manager: its container, the entries pushed for the next bundle, what it sent. */
  class RMServer {
    const me: RMPath
    var leaders: LeaderMap
    var leader: bool
    var ess: map<QueryId, RMOuter>
    var plms: seq<RMPlm>
    var sent: seq<ToTM>

    constructor (me: RMPath, leaders: LeaderMap, leader: bool)
      ensures this.me == me && this.leaders == leaders && this.leader == leader
      ensures ess == map[] && plms == [] && sent == []
    {
      this.me, this.leaders, this.leader := me, leaders, leader;
      ess, plms, sent := map[], [], [];
    }

    function Cur(q: QueryId): (es: Option<RMOuter>)
      reads this
    {
      if q in ess then Some(ess[q]) else None
    }

    /** The execution of `q` took the step `o`, except that it is still to be removed on `Exit`;
        every other execution is as before. */
    twostate predicate Took(q: QueryId, o: RMOut, action: Action)
      reads this
    {
      && plms == old(plms) + o.plms && sent == old(sent) + o.sends
      && leaders == old(leaders) && leader == old(leader)
      && (forall x | x != q :: Cur(x) == old(Cur(x)))
      && if action.Exit? then o.es == None && q in ess else Cur(q) == o.es
    }

    method SendToTM(tm: TMPath, m: TMMessage)
      modifies this`sent
      ensures sent == old(sent) + [ToTM(tm, m)]
    {
      sent := sent + [ToTM(tm, m)];
    }

    method HandlePrepare(q: QueryId) returns (action: Action)
      requires q in ess
      modifies this
      ensures forall m: RMMessage, works :: m.Prepare? ==> Took(q, OnPrepare(me, leaders, old(Cur(q)), m, works), action)
    {
      match ess[q] {
        case Exec(query, tm, _, HasPrepared) => SendToTM(tm, Prepared(query, me));
        case _ =>
      }
      action := Continue;
    }

    method HandleCommit(q: QueryId) returns (action: Action)
      requires q in ess
      modifies this
      ensures Took(q, OnCommit(old(Cur(q))), action)
    {
      match ess[q] {
        case Exec(query, tm, rms, HasPrepared) =>
          plms := plms + [CommittedPlm(query)];
          ess := ess[q := Exec(query, tm, rms, InsertingCommitted)];
        case _ =>
      }
      action := Continue;
    }

    method HandleAbort(q: QueryId) returns (action: Action)
      requires q in ess
      modifies this
      ensures Took(q, OnAbort(old(Cur(q))), action)
    {
      action := Continue;
      match ess[q] {
        case Exec(_, _, _, WaitingInsertingPrepared(_)) => action := Exit;
        case Exec(query, tm, rms, InsertingPrepared(_)) =>
          ess := ess[q := Exec(query, tm, rms, InsertingPreparedAborted)];
        case Exec(query, tm, rms, HasPrepared) =>
          plms := plms + [AbortedPlm(query)];
          ess := ess[q := Exec(query, tm, rms, InsertingAborted)];
        case _ =>
      }
    }

    method HandleCheckPrepared(m: RMMessage) returns (action: Action)
      requires m.CheckPrepared? && m.query in ess
      modifies this
      ensures Took(m.query, OnCheckPrepared(me, old(Cur(m.query)), m), action)
    {
      match ess[m.query] {
        case HasCommitted => SendToTM(m.tm, Prepared(m.query, me));
        case HasAborted => SendToTM(m.tm, Aborted(m.query, me));
        case Exec(query, tm, _, state) =>
          match state {
            case Follower =>
            case WaitingInsertingPrepared(_) => SendToTM(tm, Wait(query, me));
            case InsertingPrepared(_) => SendToTM(tm, Wait(query, me));
            case InsertingPreparedAborted => SendToTM(tm, Wait(query, me));
            case _ => SendToTM(tm, Prepared(query, me));
          }
      }
      action := Continue;
    }

    /** `handle_rm_msg`. */
    method HandleRMMsg(m: RMMessage, works: bool) returns (action: Action)
      requires m.Prepare? ==> m.tm.group in leaders
      modifies this
      ensures Took(m.query, OnRMMessage(me, leaders, old(Cur(m.query)), m, works), action)
    {
      action := Continue;
      match m {
        case Prepare(query, tm, rms, _) =>
          if query in ess {
            action := HandlePrepare(query);
            assert Took(query, OnPrepare(me, leaders, old(Cur(query)), m, works), action);
          } else if works {
            ess := ess[query := Exec(query, tm, rms, WaitingInsertingPrepared(leaders[tm.group]))];
          } else {
            SendToTM(tm, Aborted(query, me));
          }
        case CheckPrepared(query, tm) =>
          if query in ess {
            action := HandleCheckPrepared(m);
          } else {
            SendToTM(tm, Aborted(query, me));
          }
        case Abort(query, _) =>
          if query in ess { action := HandleAbort(query); }
        case Commit(query, _) =>
          if query in ess { action := HandleCommit(query); }
      }
    }

    /** What the owner of the container does with an action. */
    method Finish(q: QueryId, action: Action)
      requires action.Exit? ==> q in ess
      modifies this`ess
      ensures Cur(q) == if action.Exit? then None else old(Cur(q))
      ensures forall x | x != q :: Cur(x) == old(Cur(x))
    {
      if action.Exit? { ess := ess - {q}; }
    }

    /** A message is delivered and the resulting action carried out. */
    method Receive(m: RMMessage, works: bool)
      requires m.Prepare? ==> m.tm.group in leaders
      modifies this
      ensures Took(m.query, OnRMMessage(me, leaders, old(Cur(m.query)), m, works), Continue)
    {
      var action := HandleRMMsg(m, works);
      Finish(m.query, action);
    }

    method HandlePreparedPlm(q: QueryId) returns (action: Action)
      requires q in ess && (ess[q].Exec? ==> ess[q].tm.group in leaders)
      modifies this
      ensures Took(q, OnPreparedPlm(me, leaders, old(ess[q])), action)
    {
      match ess[q] {
        case Exec(query, tm, rms, InsertingPrepared(orig)) =>
          if orig != leaders[tm.group] {
            SendToTM(tm, InformPrepared(query, tm, rms));
          } else {
            SendToTM(tm, Prepared(query, me));
          }
          ess := ess[q := Exec(query, tm, rms, HasPrepared)];
        case Exec(query, tm, rms, InsertingPreparedAborted) =>
          plms := plms + [AbortedPlm(query)];
          ess := ess[q := Exec(query, tm, rms, InsertingAborted)];
        case _ =>
      }
      action := Continue;
    }

    method HandleCommittedPlm(q: QueryId) returns (action: Action)
      requires q in ess
      modifies this
      ensures Took(q, OnCommittedPlm(old(ess[q])), action)
    {
      match ess[q] {
        case Exec(_, _, _, Follower) => ess := ess[q := HasCommitted];
        case Exec(_, _, _, InsertingCommitted) => ess := ess[q := HasCommitted];
        case _ =>
      }
      action := Continue;
    }

    method HandleAbortedPlm(q: QueryId) returns (action: Action)
      requires q in ess
      modifies this
      ensures Took(q, OnAbortedPlm(old(ess[q])), action)
    {
      match ess[q] {
        case Exec(_, _, _, Follower) => ess := ess[q := HasAborted];
        case Exec(_, _, _, InsertingAborted) => ess := ess[q := HasAborted];
        case _ =>
      }
      action := Continue;
    }

    /** `handle_rm_plm`. The execution it looks up must exist. */
    method HandleRMPlm(p: RMPlm) returns (action: Action)
      requires PlmFinds(leader, Cur(p.query), p)
      requires p.query in ess && ess[p.query].Exec? ==> ess[p.query].tm.group in leaders
      modifies this
      ensures Took(p.query, OnRMPlm(me, old(leaders), old(leader), old(Cur(p.query)), p), action)
    {
      match p {
        case PreparedPlm(query, tm, rms) =>
          if leader {
            action := HandlePreparedPlm(query);
          } else {
            ess := ess[query := Exec(query, tm, rms, Follower)];
            action := Continue;
          }
        case CommittedPlm(query) => action := HandleCommittedPlm(query);
        case AbortedPlm(query) => action := HandleAbortedPlm(query);
      }
    }

    method StartInsertingPrepared(q: QueryId) returns (action: Action)
      requires q in ess
      modifies this
      ensures Took(q, StartInserting(old(Cur(q))), action)
    {
      match ess[q] {
        case Exec(query, tm, rms, WaitingInsertingPrepared(orig)) =>
          plms := plms + [PreparedPlm(query, tm, rms)];
          ess := ess[q := Exec(query, tm, rms, InsertingPrepared(orig))];
        case _ =>
      }
      action := Continue;
    }

    method RemoteLeaderChanged(q: QueryId, group: GroupId) returns (action: Action)
      requires q in ess
      modifies this
      ensures Took(q, RMRemoteLeaderChanged(old(Cur(q)), group), action)
    {
      match ess[q] {
        case Exec(query, tm, rms, HasPrepared) =>
          if group == tm.group { SendToTM(tm, InformPrepared(query, tm, rms)); }
        case _ =>
      }
      action := Continue;
    }

    method LeaderChanged(q: QueryId) returns (action: Action)
      requires q in ess
      modifies this
      ensures Took(q, RMLeaderChanged(leader, old(Cur(q))), action)
    {
      action := Continue;
      match ess[q] {
        case Exec(query, tm, rms, state) =>
          match state {
            case Follower =>
              if leader {
                SendToTM(tm, InformPrepared(query, tm, rms));
                ess := ess[q := Exec(query, tm, rms, HasPrepared)];
              }
            case WaitingInsertingPrepared(_) => action := Exit;
            case InsertingPrepared(_) => action := Exit;
            case InsertingPreparedAborted => action := Exit;
            case _ => ess := ess[q := Exec(query, tm, rms, Follower)];
          }
        case _ =>
      }
    }
  }

  lemma {:induction false} AsksNext(q: QueryId, tm: TMPath, rms: seq<RMPath>, payloads: map<RMPath, int>, i: nat)
    requires i < |rms|
    ensures Asks(q, tm, rms, payloads, rms[..i + 1]) == Asks(q, tm, rms, payloads, rms[..i])[rms[i] := Ask(q, tm, rms, payloads, rms[i])]
  {
    assert rms[..i + 1] == rms[..i] + [rms[i]];
  }

  lemma {:induction false} ChecksNext(q: QueryId, tm: TMPath, rms: seq<RMPath>, i: nat)
    requires i < |rms|
    ensures Checks(q, tm, rms[..i + 1]) == Checks(q, tm, rms[..i])[rms[i] := CheckPrepared(q, tm)]
  {
    assert rms[..i + 1] == rms[..i] + [rms[i]];
  }

  lemma {:induction false} ResendsNone(remaining: map<RMPath, RMMessage>, g: GroupId)
    ensures Resends([], remaining, g) == []
  {
  }

  lemma {:induction false} ResendsNext(all: seq<RMPath>, i: nat, remaining: map<RMPath, RMMessage>, g: GroupId)
    requires i < |all|
    ensures Resends(all[..i + 1], remaining, g)
         == Resends(all[..i], remaining, g) + if all[i] in remaining && all[i].group == g then [ToRM(all[i], remaining[all[i]])] else []
  {
    assert all[..i + 1][..i] == all[..i];
  }

  lemma {:induction false} NoAsks(q: QueryId, tm: TMPath, rms: seq<RMPath>, payloads: map<RMPath, int>)
    ensures Asks(q, tm, rms, payloads, []) == map[] && Checks(q, tm, []) == map[]
  {
  }

  lemma {:induction false} SendsNext(sends: seq<ToRM>, i: nat, before: seq<ToRM>)
    requires i < |sends|
    ensures before + sends[..i] + [sends[i]] == before + sends[..i + 1]
  {
    assert sends[..i + 1] == sends[..i] + [sends[i]];
  }

  /** A transaction manager: its container, what it sent and what it decided. */
  class TMServer {
    const me: TMPath
    var ess: map<QueryId, TMState>
    var sent: seq<ToRM>
    var decided: seq<(QueryId, Decision)>

    constructor (me: TMPath)
      ensures this.me == me && ess == map[] && sent == [] && decided == []
    {
      this.me := me;
      ess, sent, decided := map[], [], [];
    }

    function Cur(q: QueryId): (es: Option<TMState>)
      reads this
    {
      if q in ess then Some(ess[q]) else None
    }

    twostate predicate Took(q: QueryId, o: TMOut, action: Action)
      reads this
    {
      && sent == old(sent) + o.sends
      && decided == old(decided) + (if o.decision.Some? then [(q, o.decision.value)] else [])
      && (forall x | x != q :: Cur(x) == old(Cur(x)))
      && if action.Exit? then o.es == None && q in ess else Cur(q) == o.es
    }

    method SendToAll(rms: seq<RMPath>, m: RMMessage)
      modifies this`sent
      ensures sent == old(sent) + ToAll(rms, m)
    {
      var i := 0;
      while i < |rms|
        invariant 0 <= i <= |rms|
        invariant sent == old(sent) + ToAll(rms, m)[..i]
      {
        sent := sent + [ToRM(rms[i], m)];
        i := i + 1;
      }
    }

    /** `start_orig`: asks every manager and remembers what it asked. */
    method Begin(q: QueryId, rms: seq<RMPath>, payloads: map<RMPath, int>)
      requires forall rm | rm in rms :: rm in payloads
      modifies this
      ensures Took(q, StartOrig(q, me, rms, payloads), Continue)
    {
      hide Asks;
      ghost var o := StartOrig(q, me, rms, payloads);
      assert rms[..0] == [] && Asks(q, me, rms, payloads, []) == map[] by { NoAsks(q, me, rms, payloads); }
      var remaining: map<RMPath, RMMessage> := map[];
      var i := 0;
      while i < |rms|
        invariant 0 <= i <= |rms|
        invariant ess == old(ess) && decided == old(decided)
        invariant sent == old(sent) + o.sends[..i]
        invariant remaining == Asks(q, me, rms, payloads, rms[..i])
      {
        var prepare := Prepare(q, me, rms, payloads[rms[i]]);
        AsksNext(q, me, rms, payloads, i);
        SendsNext(o.sends, i, old(sent));
        remaining := remaining[rms[i] := prepare];
        sent := sent + [ToRM(rms[i], prepare)];
        i := i + 1;
      }
      assert rms[..i] == rms && o.sends[..i] == o.sends;
      ess := ess[q := Preparing(q, rms, remaining)];
    }

    /** `start_rec`, and the insertion into the container that follows it. */
    method Recover(q: QueryId, rms: seq<RMPath>)
      modifies this
      ensures Took(q, StartRec(q, me, rms), Continue)
    {
      hide Checks;
      ghost var o := StartRec(q, me, rms);
      assert rms[..0] == [] && Checks(q, me, []) == map[] by { NoAsks(q, me, rms, map[]); }
      var remaining: map<RMPath, RMMessage> := map[];
      var i := 0;
      while i < |rms|
        invariant 0 <= i <= |rms|
        invariant ess == old(ess) && decided == old(decided)
        invariant sent == old(sent) + o.sends[..i]
        invariant remaining == Checks(q, me, rms[..i])
      {
        var check := CheckPrepared(q, me);
        ChecksNext(q, me, rms, i);
        SendsNext(o.sends, i, old(sent));
        remaining := remaining[rms[i] := check];
        sent := sent + [ToRM(rms[i], check)];
        i := i + 1;
      }
      assert rms[..i] == rms && o.sends[..i] == o.sends;
      ess := ess[q := CheckingPrepared(q, rms, remaining)];
    }

    method HandlePrepared(q: QueryId, rm: RMPath) returns (action: Action)
      requires q in ess
      modifies this
      ensures Took(q, OnPrepared(me, old(ess[q]), rm), action)
    {
      var es := ess[q];
      var rest := es.remaining - {rm};
      ess := ess[q := es.(remaining := rest)];
      if rest == map[] {
        SendToAll(es.all, Commit(es.query, me));
        decided := decided + [(q, DecideCommit)];
        action := Exit;
      } else {
        action := Continue;
      }
    }

    method HandleAborted(q: QueryId) returns (action: Action)
      requires q in ess
      modifies this
      ensures Took(q, OnAborted(me, old(ess[q])), action)
    {
      var es := ess[q];
      SendToAll(es.all, Abort(es.query, me));
      decided := decided + [(q, DecideAbort)];
      action := Exit;
    }

    method HandleWait(q: QueryId, rm: RMPath) returns (action: Action)
      requires q in ess
      modifies this
      ensures Took(q, OnWait(old(ess[q]), rm), action)
    {
      match ess[q] {
        case CheckingPrepared(_, _, remaining) =>
          if rm in remaining { sent := sent + [ToRM(rm, remaining[rm])]; }
        case _ =>
      }
      action := Continue;
    }

    /** `handle_tm_msg`. */
    method HandleTMMsg(m: TMMessage) returns (action: Action)
      modifies this
      ensures Took(m.query, OnTMMessage(me, old(Cur(m.query)), m), action)
    {
      action := Continue;
      match m {
        case Prepared(query, rm) => if query in ess { action := HandlePrepared(query, rm); }
        case Aborted(query, _) => if query in ess { action := HandleAborted(query); }
        case InformPrepared(query, _, rms) => if query !in ess { Recover(query, rms); }
        case Wait(query, rm) => if query in ess { action := HandleWait(query, rm); }
      }
    }

    method Receive(m: TMMessage)
      modifies this
      ensures Took(m.query, OnTMMessage(me, old(Cur(m.query)), m), Continue)
    {
      var action := HandleTMMsg(m);
      if action.Exit? { ess := ess - {m.query}; }
    }

    /** The managers of `group` that have not answered are asked again. */
    method RemoteLeaderChanged(q: QueryId, group: GroupId)
      requires q in ess
      modifies this
      ensures Took(q, TMRemoteLeaderChanged(old(Cur(q)), group), Continue)
    {
      hide Resends;
      var es := ess[q];
      var i := 0;
      ResendsNone(es.remaining, group);
      assert es.all[..0] == [];
      while i < |es.all|
        invariant 0 <= i <= |es.all|
        invariant ess == old(ess) && decided == old(decided)
        invariant sent == old(sent) + Resends(es.all[..i], es.remaining, group)
      {
        var rm := es.all[i];
        ResendsNext(es.all, i, es.remaining, group);
        if rm in es.remaining && rm.group == group {
          sent := sent + [ToRM(rm, es.remaining[rm])];
        }
        i := i + 1;
      }
      assert es.all[..i] == es.all;
    }
  }
}
