/** One query running through Paxos2PC: the Paxos group of its transaction manager, the groups of
    its resource managers, and the network between their leaderships. Any number of leaderships of
    a group may be acting at once, each as far along the log as it happens to be. */
module TwoPCSystem {
  import opened Wrappers
  import opened TwoPCTypes
  import opened TwoPCResource
  import opened TwoPCManager
  import opened TwoPCLog

  datatype Query = Query(id: QueryId, tm: TMPath, rms: seq<RMPath>, payloads: map<RMPath, int>) {
    predicate Valid() { forall j, k | 0 <= j < k < |rms| :: rms[j] != rms[k] }
  }

  /** A leadership of a resource manager: how much of its stretch of log it has inserted, the
      execution state in its container, and the entries it has pushed that are not yet inserted. */
  datatype RMActor = RMActor(applied: nat, es: Option<RMOuter>, pending: seq<RMPlm>)

  datatype TMActor = TMActor(applied: nat, es: Option<TMState>)

  /** Leadership `tm` of the transaction manager and leadership `gen` of resource manager `rm`. */
  datatype Link = Link(tm: Gen, rm: RMPath, gen: Gen)

  /** Everything ever sent over a link in one direction, and how much of it has been delivered. */
  datatype Chan<M> = Chan(sent: seq<M>, recv: nat)

  datatype Sys = Sys(
    tlog: Log,
    tm: Gen -> TMActor,
    rlog: RMPath -> Log,
    rm: (RMPath, Gen) -> RMActor,
    down: Link -> Chan<RMMessage>,
    up: Link -> Chan<TMMessage>,
    orig: Option<Gen>,
    decisions: seq<(Gen, Decision)>)

  datatype Event =
    | Begin(tm: Gen)
    | TMReceive(link: Link)
    | TMAdvance(tm: Gen)
    | TMAppend(group: GroupId, gen: Gen)
    | TMElect
    | RMReceive(link: Link, works: bool)
    | RMStart(rm: RMPath, gen: Gen)
    | RMAdvance(rm: RMPath, gen: Gen)
    | RMAppend(rm: RMPath, group: GroupId, gen: Gen)
    | RMInsert(rm: RMPath)
    | RMElect(rm: RMPath)

  function InitialSys(): Sys {
    Sys([[]], _ => TMActor(0, None), _ => [[]], (_, _) => RMActor(0, None, []),
        _ => Chan([], 0), _ => Chan([], 0), None, [])
  }

  function TMView(s: Sys, g: Gen): seq<Entry> {
    View(s.tlog, g, s.tm(g).applied)
  }

  function RMView(s: Sys, r: RMPath, h: Gen): seq<Entry> {
    View(s.rlog(r), h, s.rm(r, h).applied)
  }

  /** The leadership of a group according to leadership `g` of the transaction manager. */
  function TMLeader(s: Sys, g: Gen, group: GroupId): Gen {
    Leader(TMView(s, g), group)
  }

  function RMLeader(s: Sys, r: RMPath, h: Gen, group: GroupId): Gen {
    Leader(RMView(s, r, h), group)
  }

  function Bodies(sends: seq<ToTM>, tm: TMPath): seq<TMMessage> {
    if sends == [] then []
    else
      var x := sends[|sends| - 1];
      Bodies(sends[..|sends| - 1], tm) + if x.tm == tm then [x.msg] else []
  }

  function BodiesTo(sends: seq<ToRM>, rm: RMPath): seq<RMMessage> {
    if sends == [] then []
    else
      var x := sends[|sends| - 1];
      BodiesTo(sends[..|sends| - 1], rm) + if x.rm == rm then [x.msg] else []
  }

  /** Leadership `h` of `r` takes the step `o`. Its messages go to the leadership of the
      transaction manager that its leader map names. */
  function RMActs(q: Query, s: Sys, r: RMPath, h: Gen, applied: nat, o: RMOut): Sys {
    var a := RMActor(applied, o.es, s.rm(r, h).pending + o.plms);
    var to := Link(Leader(View(s.rlog(r), h, applied), q.tm.group), r, h);
    s.(rm := (r': RMPath, h': Gen) => if r' == r && h' == h then a else s.rm(r', h'),
       up := (l: Link) => if l == to then Chan(s.up(l).sent + Bodies(o.sends, q.tm), s.up(l).recv) else s.up(l))
  }

  /** Leadership `g` of the transaction manager takes the step `o`. */
  function TMActs(s: Sys, g: Gen, applied: nat, o: TMOut): Sys {
    var view := View(s.tlog, g, applied);
    s.(tm := (g': Gen) => if g' == g then TMActor(applied, o.es) else s.tm(g'),
       down := (l: Link) => if l.tm == g && l.gen == Leader(view, l.rm.group)
                    then Chan(s.down(l).sent + BodiesTo(o.sends, l.rm), s.down(l).recv) else s.down(l),
       decisions := s.decisions + if o.decision.Some? then [(g, o.decision.value)] else [])
  }

  function TookDown(s: Sys, l: Link): Sys {
    s.(down := (k: Link) => if k == l then s.down(l).(recv := s.down(l).recv + 1) else s.down(k))
  }

  function TookUp(s: Sys, l: Link): Sys {
    s.(up := (k: Link) => if k == l then s.up(l).(recv := s.up(l).recv + 1) else s.up(k))
  }

  function Extended(s: Sys, r: RMPath, log: Log): Sys {
    s.(rlog := r' => if r' == r then log else s.rlog(r'))
  }

  function Leaders(es: seq<Entry>, g: GroupId): LeaderMap {
    map[g := Leader(es, g)]
  }

  function AdvanceTM(s: Sys, g: Gen): TMOut
    requires g < |s.tlog| && s.tm(g).applied < |s.tlog[g]|
  {
    var e := s.tlog[g][s.tm(g).applied];
    if e.RemoteLeader? && e.gen > TMLeader(s, g, e.group) then TMRemoteLeaderChanged(s.tm(g).es, e.group)
    else TMOut(s.tm(g).es, [], None)
  }

  /** Whether the insertion of the next entry finds the execution state it unwraps. */
  predicate AdvanceFinds(s: Sys, r: RMPath, h: Gen)
    requires h < |s.rlog(r)| && s.rm(r, h).applied < |s.rlog(r)[h]|
  {
    var e := s.rlog(r)[h][s.rm(r, h).applied];
    e.Insertion? ==> PlmFinds(true, s.rm(r, h).es, e.plm)
  }

  function AdvanceRM(q: Query, s: Sys, r: RMPath, h: Gen): RMOut
    requires h < |s.rlog(r)| && s.rm(r, h).applied < |s.rlog(r)[h]| && AdvanceFinds(s, r, h)
  {
    var a := s.rm(r, h);
    match s.rlog(r)[h][a.applied]
    case Insertion(p) => OnRMPlm(r, Leaders(RMView(s, r, h), q.tm.group), true, a.es, p)
    case RemoteLeader(group, gen) =>
      if gen > RMLeader(s, r, h, group) then RMRemoteLeaderChanged(a.es, group) else Keep(a.es)
  }

  /** The leadership that replaces the current one of `r` starts where a follower that has inserted
      the whole log stands, and is told that it leads. */
  function Elected(q: Query, s: Sys, r: RMPath): Sys {
    var h := |s.rlog(r)|;
    RMActs(q, Extended(s, r, s.rlog(r) + [[]]), r, h, 0, RMLeaderChanged(true, Replay(Plms(Flat(s.rlog(r))))))
  }

  ghost predicate Enabled(q: Query, s: Sys, e: Event) {
    match e
    case Begin(g) => g < |s.tlog| && s.orig.None?
    case TMReceive(l) =>
      l.tm < |s.tlog| && l.rm in q.rms && s.up(l).recv < |s.up(l).sent| && TMLeader(s, l.tm, l.rm.group) == l.gen
    case TMAdvance(g) => g < |s.tlog| && s.tm(g).applied < |s.tlog[g]|
    case TMAppend(_, _) => s.tlog != []
    case TMElect => true
    case RMReceive(l, _) =>
      l.rm in q.rms && l.gen < |s.rlog(l.rm)| && s.down(l).recv < |s.down(l).sent|
      && RMLeader(s, l.rm, l.gen, q.tm.group) == l.tm
    case RMStart(r, h) => r in q.rms && h < |s.rlog(r)|
    case RMAdvance(r, h) =>
      r in q.rms && h < |s.rlog(r)| && s.rm(r, h).applied < |s.rlog(r)[h]| && AdvanceFinds(s, r, h)
    case RMAppend(r, _, _) => r in q.rms && s.rlog(r) != []
    case RMInsert(r) => r in q.rms && s.rlog(r) != [] && s.rm(r, |s.rlog(r)| - 1).pending != []
    case RMElect(r) => r in q.rms
  }

  function Next(q: Query, s: Sys, e: Event): Sys
    requires Enabled(q, s, e)
  {
    match e
    case Begin(g) =>
      TMActs(s, g, s.tm(g).applied, StartOrig(q.id, q.tm, q.rms, q.payloads)).(orig := Some(g))
    case TMReceive(l) =>
      TMActs(TookUp(s, l), l.tm, s.tm(l.tm).applied, OnTMMessage(q.tm, s.tm(l.tm).es, s.up(l).sent[s.up(l).recv]))
    case TMAdvance(g) => TMActs(s, g, s.tm(g).applied + 1, AdvanceTM(s, g))
    case TMAppend(group, gen) => s.(tlog := Append(s.tlog, RemoteLeader(group, gen)))
    case TMElect => s.(tlog := s.tlog + [[]])
    case RMReceive(l, works) =>
      RMActs(q, TookDown(s, l), l.rm, l.gen, s.rm(l.rm, l.gen).applied,
             OnRMMessage(l.rm, Leaders(RMView(s, l.rm, l.gen), q.tm.group), s.rm(l.rm, l.gen).es,
                         s.down(l).sent[s.down(l).recv], works))
    case RMStart(r, h) => RMActs(q, s, r, h, s.rm(r, h).applied, StartInserting(s.rm(r, h).es))
    case RMAdvance(r, h) => RMActs(q, s, r, h, s.rm(r, h).applied + 1, AdvanceRM(q, s, r, h))
    case RMAppend(r, group, gen) => Extended(s, r, Append(s.rlog(r), RemoteLeader(group, gen)))
    case RMInsert(r) =>
      var a := s.rm(r, |s.rlog(r)| - 1);
      Extended(s, r, Append(s.rlog(r), Insertion(a.pending[0]))).(rm := (r': RMPath, h': Gen) =>
        if r' == r && h' == |s.rlog(r)| - 1 then a.(pending := a.pending[1..]) else s.rm(r', h'))
    case RMElect(r) => Elected(q, s, r)
  }

  ghost predicate Run(q: Query, states: seq<Sys>, events: seq<Event>) {
    && |states| == |events| + 1 && states[0] == InitialSys()
    && forall k | 0 <= k < |events| ::
         Enabled(q, states[k], events[k]) && states[k + 1] == Next(q, states[k], events[k])
  }
}
