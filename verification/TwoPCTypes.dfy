/** The values exchanged and stored by Paxos2PC (src/paxos2pc_rm.rs, src/paxos2pc_tm.rs). The
    callbacks of the inner execution state and its payloads are not part of the model. */
module TwoPCTypes {
  import opened Wrappers

  datatype GroupId = GroupId(name: string)

  /** A leadership of a Paxos group, named by its generation. */
  type Gen = nat

  type LeaderMap = map<GroupId, Gen>

  datatype QueryId = QueryId(id: nat)
  datatype RMPath = RMPath(group: GroupId, tablet: nat)
  datatype TMPath = TMPath(group: GroupId, coord: nat)

  /** What a resource manager puts into the log of its Paxos group. */
  datatype RMPlm =
    | PreparedPlm(query: QueryId, tm: TMPath, rms: seq<RMPath>)
    | CommittedPlm(query: QueryId)
    | AbortedPlm(query: QueryId)

  datatype RMMessage =
    | Prepare(query: QueryId, tm: TMPath, rms: seq<RMPath>, payload: int)
    | CheckPrepared(query: QueryId, tm: TMPath)
    | Abort(query: QueryId, tm: TMPath)
    | Commit(query: QueryId, tm: TMPath)

  datatype TMMessage =
    | Prepared(query: QueryId, rm: RMPath)
    | InformPrepared(query: QueryId, tm: TMPath, rms: seq<RMPath>)
    | Wait(query: QueryId, rm: RMPath)
    | Aborted(query: QueryId, rm: RMPath)

  datatype RMState =
    | Follower
    | WaitingInsertingPrepared(orig: Gen)
    | InsertingPrepared(orig: Gen)
    | HasPrepared
    | InsertingCommitted
    | InsertingPreparedAborted
    | InsertingAborted

  datatype RMOuter =
    | HasCommitted
    | HasAborted
    | Exec(query: QueryId, tm: TMPath, rms: seq<RMPath>, state: RMState)

  datatype ToTM = ToTM(tm: TMPath, msg: TMMessage)
  datatype ToRM = ToRM(rm: RMPath, msg: RMMessage)

  /** What a step of a resource manager leaves in the container for the query, the log entries it
      asks to insert and the messages it sends. */
  datatype RMOut = RMOut(es: Option<RMOuter>, plms: seq<RMPlm>, sends: seq<ToTM>)

  /** `remaining` maps the managers that have not answered to the message to send them again. */
  datatype TMState =
    | Preparing(query: QueryId, all: seq<RMPath>, remaining: map<RMPath, RMMessage>)
    | CheckingPrepared(query: QueryId, all: seq<RMPath>, remaining: map<RMPath, RMMessage>)

  /** Which callback of the inner transaction manager runs when it exits. */
  datatype Decision = DecideCommit | DecideAbort

  datatype TMOut = TMOut(es: Option<TMState>, sends: seq<ToRM>, decision: Option<Decision>)
}
