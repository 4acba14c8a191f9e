/** The transaction manager of Paxos2PC (src/paxos2pc_tm.rs). It persists nothing. */
module TwoPCManager {
  import opened Wrappers
  import opened TwoPCTypes

  function Ask(q: QueryId, tm: TMPath, rms: seq<RMPath>, payloads: map<RMPath, int>, rm: RMPath): RMMessage {
    Prepare(q, tm, rms, if rm in payloads then payloads[rm] else 0)
  }

  /** What the managers in `some` were asked. */
  function Asks(q: QueryId, tm: TMPath, rms: seq<RMPath>, payloads: map<RMPath, int>, some: seq<RMPath>): map<RMPath, RMMessage> {
    map rm | rm in some :: Ask(q, tm, rms, payloads, rm)
  }

  function Checks(q: QueryId, tm: TMPath, some: seq<RMPath>): map<RMPath, RMMessage> {
    map rm | rm in some :: CheckPrepared(q, tm)
  }

  /** `start_orig`; `rms` are the keys of the map of payloads in order. */
  function StartOrig(q: QueryId, tm: TMPath, rms: seq<RMPath>, payloads: map<RMPath, int>): TMOut {
    TMOut(Some(Preparing(q, rms, Asks(q, tm, rms, payloads, rms))),
          seq(|rms|, k requires 0 <= k < |rms| => ToRM(rms[k], Ask(q, tm, rms, payloads, rms[k]))),
          None)
  }

  /** The same message to every manager. */
  function ToAll(rms: seq<RMPath>, msg: RMMessage): (s: seq<ToRM>)
    ensures |s| == |rms| && forall k | 0 <= k < |s| :: s[k] == ToRM(rms[k], msg)
  {
    seq(|rms|, k requires 0 <= k < |rms| => ToRM(rms[k], msg))
  }

  function StartRec(q: QueryId, tm: TMPath, rms: seq<RMPath>): TMOut {
    TMOut(Some(CheckingPrepared(q, rms, Checks(q, tm, rms))),
          ToAll(rms, CheckPrepared(q, tm)), None)
  }

  function OnPrepared(tm: TMPath, es: TMState, rm: RMPath): TMOut {
    var rest := es.remaining - {rm};
    if rest == map[] then TMOut(None, ToAll(es.all, Commit(es.query, tm)), Some(DecideCommit))
    else TMOut(Some(es.(remaining := rest)), [], None)
  }

  function OnAborted(tm: TMPath, es: TMState): TMOut {
    TMOut(None, ToAll(es.all, Abort(es.query, tm)), Some(DecideAbort))
  }

  function OnWait(es: TMState, rm: RMPath): TMOut {
    TMOut(Some(es), if es.CheckingPrepared? && rm in es.remaining then [ToRM(rm, es.remaining[rm])] else [], None)
  }

  /** `handle_tm_msg`. */
  function OnTMMessage(tm: TMPath, cur: Option<TMState>, m: TMMessage): TMOut {
    match m
    case InformPrepared(query, _, rms) =>
      if cur.Some? then TMOut(cur, [], None) else StartRec(query, tm, rms)
    case Prepared(_, rm) => if cur.Some? then OnPrepared(tm, cur.value, rm) else TMOut(None, [], None)
    case Aborted(_, _) => if cur.Some? then OnAborted(tm, cur.value) else TMOut(None, [], None)
    case Wait(_, rm) => if cur.Some? then OnWait(cur.value, rm) else TMOut(None, [], None)
  }

  /** The messages to send again to the managers of group `g` that have not answered. */
  function Resends(rms: seq<RMPath>, remaining: map<RMPath, RMMessage>, g: GroupId): seq<ToRM> {
    if rms == [] then []
    else
      var rm := rms[|rms| - 1];
      Resends(rms[..|rms| - 1], remaining, g)
      + if rm in remaining && rm.group == g then [ToRM(rm, remaining[rm])] else []
  }

  function TMRemoteLeaderChanged(cur: Option<TMState>, g: GroupId): TMOut {
    TMOut(cur, if cur.Some? then Resends(cur.value.all, cur.value.remaining, g) else [], None)
  }
}
