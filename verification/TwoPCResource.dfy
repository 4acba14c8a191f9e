/** The resource manager of Paxos2PC (src/paxos2pc_rm.rs): what every event does to the execution
    state of one query. */
module TwoPCResource {
  import opened Wrappers
  import opened TwoPCTypes

  /** The leadership of a group in a leader map. */
  function GenOf(leaders: LeaderMap, g: GroupId): Gen {
    if g in leaders then leaders[g] else 0
  }

  function Keep(es: Option<RMOuter>): RMOut {
    RMOut(es, [], [])
  }

  function Tell(es: Option<RMOuter>, tm: TMPath, msg: TMMessage): RMOut {
    RMOut(es, [], [ToTM(tm, msg)])
  }

  function Informing(e: RMOuter): TMMessage
    requires e.Exec?
  {
    InformPrepared(e.query, e.tm, e.rms)
  }

  /** The state `cur` is in if it is an execution. */
  predicate InState(cur: Option<RMOuter>, st: RMState) {
    cur.Some? && cur.value.Exec? && cur.value.state == st
  }

  /** Before the insertion of the Prepared entry is confirmed. */
  predicate PrePrepared(cur: Option<RMOuter>) {
    cur.Some? && cur.value.Exec? &&
    (cur.value.state.WaitingInsertingPrepared? || cur.value.state.InsertingPrepared?
     || cur.value.state.InsertingPreparedAborted?)
  }

  function OnPrepare(me: RMPath, leaders: LeaderMap, cur: Option<RMOuter>, m: RMMessage, works: bool): RMOut
    requires m.Prepare?
  {
    if cur.Some? then
      if InState(cur, HasPrepared) then Tell(cur, cur.value.tm, Prepared(cur.value.query, me)) else Keep(cur)
    else if works then
      Keep(Some(Exec(m.query, m.tm, m.rms, WaitingInsertingPrepared(GenOf(leaders, m.tm.group)))))
    else Tell(None, m.tm, Aborted(m.query, me))
  }

  function OnCommit(cur: Option<RMOuter>): RMOut {
    if InState(cur, HasPrepared)
    then RMOut(Some(cur.value.(state := InsertingCommitted)), [CommittedPlm(cur.value.query)], [])
    else Keep(cur)
  }

  function OnAbort(cur: Option<RMOuter>): RMOut {
    if cur.None? || !cur.value.Exec? then Keep(cur)
    else match cur.value.state
      case WaitingInsertingPrepared(_) => Keep(None)
      case InsertingPrepared(_) => Keep(Some(cur.value.(state := InsertingPreparedAborted)))
      case HasPrepared =>
        RMOut(Some(cur.value.(state := InsertingAborted)), [AbortedPlm(cur.value.query)], [])
      case _ => Keep(cur)
  }

  function OnCheckPrepared(me: RMPath, cur: Option<RMOuter>, m: RMMessage): RMOut
    requires m.CheckPrepared?
  {
    match cur
    case None => Tell(cur, m.tm, Aborted(m.query, me))
    case Some(HasCommitted) => Tell(cur, m.tm, Prepared(m.query, me))
    case Some(HasAborted) => Tell(cur, m.tm, Aborted(m.query, me))
    case Some(Exec(query, tm, _, st)) =>
      if st.Follower? then Keep(cur)
      else if PrePrepared(cur) then Tell(cur, tm, Wait(query, me))
      else Tell(cur, tm, Prepared(query, me))
  }

  /** `handle_rm_msg`; `works` says whether the inner state can be built from the payload. */
  function OnRMMessage(me: RMPath, leaders: LeaderMap, cur: Option<RMOuter>, m: RMMessage, works: bool): RMOut {
    match m
    case Prepare(_, _, _, _) => OnPrepare(me, leaders, cur, m, works)
    case CheckPrepared(_, _) => OnCheckPrepared(me, cur, m)
    case Abort(_, _) => OnAbort(cur)
    case Commit(_, _) => OnCommit(cur)
  }

  function OnPreparedPlm(me: RMPath, leaders: LeaderMap, cur: RMOuter): RMOut {
    if !cur.Exec? then Keep(Some(cur))
    else match cur.state
      case InsertingPrepared(orig) =>
        Tell(Some(cur.(state := HasPrepared)), cur.tm,
             if orig != GenOf(leaders, cur.tm.group) then Informing(cur) else Prepared(cur.query, me))
      case InsertingPreparedAborted =>
        RMOut(Some(cur.(state := InsertingAborted)), [AbortedPlm(cur.query)], [])
      case _ => Keep(Some(cur))
  }

  function OnCommittedPlm(cur: RMOuter): RMOut {
    if cur.Exec? && (cur.state.Follower? || cur.state.InsertingCommitted?)
    then Keep(Some(HasCommitted)) else Keep(Some(cur))
  }

  function OnAbortedPlm(cur: RMOuter): RMOut {
    if cur.Exec? && (cur.state.Follower? || cur.state.InsertingAborted?)
    then Keep(Some(HasAborted)) else Keep(Some(cur))
  }

  /** Whether `handle_rm_plm` finds the execution state it unwraps. */
  predicate PlmFinds(leader: bool, cur: Option<RMOuter>, p: RMPlm) {
    cur.Some? || (p.PreparedPlm? && !leader)
  }

  /** `handle_rm_plm`. */
  function OnRMPlm(me: RMPath, leaders: LeaderMap, leader: bool, cur: Option<RMOuter>, p: RMPlm): RMOut
    requires PlmFinds(leader, cur, p)
  {
    match p
    case PreparedPlm(query, tm, rms) =>
      if leader then OnPreparedPlm(me, leaders, cur.value) else Keep(Some(Exec(query, tm, rms, Follower)))
    case CommittedPlm(_) => OnCommittedPlm(cur.value)
    case AbortedPlm(_) => OnAbortedPlm(cur.value)
  }

  function StartInserting(cur: Option<RMOuter>): RMOut {
    if cur.Some? && cur.value.Exec? && cur.value.state.WaitingInsertingPrepared? then
      RMOut(Some(cur.value.(state := InsertingPrepared(cur.value.state.orig))),
            [PreparedPlm(cur.value.query, cur.value.tm, cur.value.rms)], [])
    else Keep(cur)
  }

  function RMRemoteLeaderChanged(cur: Option<RMOuter>, g: GroupId): RMOut {
    if InState(cur, HasPrepared) && g == cur.value.tm.group
    then Tell(cur, cur.value.tm, Informing(cur.value)) else Keep(cur)
  }

  function RMLeaderChanged(leader: bool, cur: Option<RMOuter>): RMOut {
    if cur.None? || !cur.value.Exec? then Keep(cur)
    else match cur.value.state
      case Follower =>
        if leader then Tell(Some(cur.value.(state := HasPrepared)), cur.value.tm, Informing(cur.value))
        else Keep(cur)
      case HasPrepared => Keep(Some(cur.value.(state := Follower)))
      case InsertingCommitted => Keep(Some(cur.value.(state := Follower)))
      case InsertingAborted => Keep(Some(cur.value.(state := Follower)))
      case _ => Keep(None)
  }

  /** `reconfig_snapshot`: the state handed to a node that joins the group. */
  function Snapshot(cur: Option<RMOuter>): Option<RMOuter> {
    if cur.None? || !cur.value.Exec? then cur
    else if PrePrepared(cur) then None
    else Some(cur.value.(state := Follower))
  }

  /** The state a follower reaches by inserting the entries of one query in order. */
  function Replay(ps: seq<RMPlm>): Option<RMOuter> {
    if ps == [] then None
    else
      var cur := Replay(ps[..|ps| - 1]);
      var p := ps[|ps| - 1];
      if PlmFinds(false, cur, p) then OnRMPlm(RMPath(GroupId(""), 0), map[], false, cur, p).es else cur
  }
}
