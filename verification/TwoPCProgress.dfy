/** Every step of Paxos2PC keeps what a pair of leaderships relies on. */
module TwoPCProgress {
  import opened Wrappers
  import opened TwoPCTypes
  import opened TwoPCResource
  import opened TwoPCManager
  import opened TwoPCLog
  import opened TwoPCSystem
  import opened TwoPCInvariant
  import opened TwoPCSteps
  import opened TwoPCGroups
  import opened TwoPCResourceSteps
  import opened TwoPCCells
  import MS = TwoPCManagerSteps

  predicate StillPreparing(s: Sys) {
    s.orig.Some? && IsPreparing(s, s.orig.value)
  }

  function CellOf(q: Query, s: Sys, l: Link): Cell {
    Cell(s.tm(l.tm).es, TMLeader(s, l.tm, l.rm.group),
         l.gen < |s.rlog(l.rm)|, s.rm(l.rm, l.gen).es, RMLeader(s, l.rm, l.gen, q.tm.group),
         Plms(RMView(s, l.rm, l.gen)) != [], s.down(l), s.up(l), s.orig, StillPreparing(s))
  }

  /** A log that holds a verdict: the original transaction manager is no longer preparing, or its
      Prepare comes too late for whoever leads the group. */
  ghost predicate VerdictOk(q: Query, s: Sys, r: RMPath) {
    CommittedPlm(q.id) in Entries(s, r) || AbortedPlm(q.id) in Entries(s, r) ==>
      !StillPreparing(s) || Leader(Flat(s.rlog(r)), q.tm.group) > s.orig.value
  }

  /** A transaction manager that has an execution waits for somebody. */
  predicate Awaits(q: Query, s: Sys, g: Gen) {
    s.tm(g).es.Some? && q.rms != [] ==> s.tm(g).es.value.remaining != map[]
  }

  ghost predicate Live(q: Query, s: Sys) {
    && (forall l: Link | l.rm in q.rms :: CellOk(l, CellOf(q, s, l)))
    && (forall r | r in q.rms :: VerdictOk(q, s, r))
    && (forall g: Gen :: Awaits(q, s, g))
  }

  lemma {:induction false} LiveInitially(q: Query)
    ensures Live(q, InitialSys())
  {
    var s := InitialSys();
    forall r ensures Flat(s.rlog(r)) == [] && Entries(s, r) == [] {
      assert s.rlog(r)[..0] == [];
      assert Flat(s.rlog(r)) == Flat([]) + [];
    }
  }

  // ---------------------------------------------------------------------------------------------
  //  The invariant, cell by cell
  // ---------------------------------------------------------------------------------------------

  lemma {:induction false} ExecFits(q: Query, s: Sys, l: Link)
    requires Inv(q, s) && l.rm in q.rms
    ensures var c := CellOf(q, s, l);
      && EsOk(q, c.es) && (!c.born ==> c.es.None?) && (c.born ==> (c.seen <==> Snapshot(c.es).Some?))
      && (c.es.Some? ==> c.orig.Some? && c.knows >= c.orig.value)
  {
    if l.gen < |s.rlog(l.rm)| {
      InvHere(q, s, l.rm, l.gen);
      NothingSeen(q, s, l.rm, l.gen);
    } else {
      assert LogOk(q, s, l.rm);
    }
  }

  lemma {:induction false} LinkFits(q: Query, s: Sys, l: Link)
    requires DownOk(q, s, l) && UpOk(q, s, l)
    ensures var c := CellOf(q, s, l);
      && c.down.recv <= |c.down.sent| && c.up.recv <= |c.up.sent|
      && (forall k: nat | k < |c.down.sent| :: DownFits(q, l, c, k, c.down.sent[k]))
      && (forall k: nat | k < |c.up.sent| :: UpFits(q, l, c, c.up.sent[k]))
  {
    var c := CellOf(q, s, l);
    forall k: nat | k < |c.down.sent| ensures DownFits(q, l, c, k, c.down.sent[k]) {
      assert DownMsgOk(q, s, l, k, s.down(l).sent[k]);
    }
    forall k: nat | k < |c.up.sent| ensures UpFits(q, l, c, c.up.sent[k]) {
      assert UpMsgOk(q, s, l, s.up(l).sent[k]);
    }
  }

  lemma {:induction false} AskerIsFit(q: Query, s: Sys, l: Link)
    requires TMOk(q, s, l.tm)
    ensures var c := CellOf(q, s, l); c.tm.Some? ==> AskerFits(q, l, c, c.tm.value)
  {
  }

  lemma {:induction false} CellFits(q: Query, s: Sys, l: Link)
    requires Inv(q, s) && l.rm in q.rms
    ensures Fits(q, l, CellOf(q, s, l))
  {
    ExecFits(q, s, l);
    assert DownOk(q, s, l) && UpOk(q, s, l) && TMOk(q, s, l.tm);
    hide Inv, DownOk, UpOk, TMOk, EsOk, Snapshot, DownFits, UpFits, AskerFits, TMLeader, RMLeader, RMView, Plms;
    LinkFits(q, s, l);
    AskerIsFit(q, s, l);
  }

  /** What the invariants give at one link. */
  lemma {:induction false} CellHere(q: Query, s: Sys, l: Link)
    requires Inv(q, s) && Live(q, s) && l.rm in q.rms
    ensures Fits(q, l, CellOf(q, s, l)) && CellOk(l, CellOf(q, s, l))
  {
    hide Inv, Fits, CellOk, CellOf;
    CellFits(q, s, l);
  }

  /** Seen by a leadership, seen by every later one. */
  lemma {:induction false} SeenLater(s: Sys, r: RMPath, h: Gen, h': Gen)
    requires h <= h' && Plms(RMView(s, r, h)) != []
    ensures Plms(RMView(s, r, h')) != []
  {
    var log, a, b := s.rlog(r), s.rm(r, h).applied, s.rm(r, h').applied;
    var v, w := RMView(s, r, h), RMView(s, r, h');
    if h < h' {
      if h' < |log| { LaterSeesMore(log, h, a, h', b); } else { ViewPrefix(log, h, a); }
      assert IsPrefix(v, w);
      assert w == v + w[|v|..];
      PlmsConcat(v, w[|v|..]);
    }
  }

  // ---------------------------------------------------------------------------------------------
  //  Resource managers
  // ---------------------------------------------------------------------------------------------

  lemma {:induction false} TookCell(q: Query, s: Sys, l: Link, k: Link)
    ensures CellOf(q, TookDown(s, l), k) == if k == l then Taken(CellOf(q, s, l)) else CellOf(q, s, k)
  {
    hide Leader, View, Plms;
  }

  /** What a step of leadership `h` of `r` does to each cell. */
  lemma {:induction false} ActsCell(q: Query, s: Sys, r: RMPath, h: Gen, applied: nat, o: RMOut, k: Link)
    ensures var c, c' := CellOf(q, s, k), CellOf(q, RMActs(q, s, r, h, applied, o), k);
      var v := View(s.rlog(r), h, applied); var knows := Leader(v, q.tm.group);
      c' == if k.rm == r && k.gen == h
            then Acted(c.(knows := knows, seen := Plms(v) != []), o.es, if knows == k.tm then Bodies(o.sends, q.tm) else [])
            else c
  {
    hide Leader, View, Plms, Bodies;
    assert s.up(k).sent + [] == s.up(k).sent;
  }

  /** With the same entries in every log and the same transaction managers, only the cells matter. */
  lemma {:induction false} CellsSuffice(q: Query, s: Sys, s': Sys)
    requires Live(q, s) && s'.tm == s.tm && s'.orig == s.orig
    requires forall r | r in q.rms :: Flat(s'.rlog(r)) == Flat(s.rlog(r))
    requires forall l: Link | l.rm in q.rms :: CellOk(l, CellOf(q, s', l))
    ensures Live(q, s')
  {
    hide CellOk, CellOf, Flat, Leader, Plms;
    forall x | x in q.rms ensures VerdictOk(q, s', x) { assert VerdictOk(q, s, x); }
    forall g: Gen ensures Awaits(q, s', g) { assert Awaits(q, s, g); }
  }

  lemma {:induction false} ActsLive(q: Query, s: Sys, s0: Sys, r: RMPath, h: Gen, applied: nat, o: RMOut)
    requires Live(q, s) && (s0 == s || exists l :: s0 == TookDown(s, l))
    requires forall l: Link | l.rm in q.rms :: CellOk(l, CellOf(q, RMActs(q, s0, r, h, applied, o), l))
    ensures Live(q, RMActs(q, s0, r, h, applied, o))
  {
    hide CellOk, CellOf, Live, Flat, Bodies, Leader, View;
    CellsSuffice(q, s, RMActs(q, s0, r, h, applied, o));
  }

  lemma {:induction false} OneBodyOf(q: Query, sends: seq<ToTM>)
    requires |sends| <= 1 && (sends != [] ==> sends[0].tm == q.tm)
    ensures Bodies(sends, q.tm) == if sends == [] then [] else [sends[0].msg]
  {
    if sends != [] {
      assert sends == [sends[0]];
      OneBody(q.tm, sends[0]);
    }
  }

  lemma {:induction false} ReceiveFinds(q: Query, s: Sys, l: Link, works: bool)
    requires Inv(q, s) && Live(q, s) && Enabled(q, s, RMReceive(l, works))
    ensures var o := Answer(q, s, l, works);
      Receives(q, l, CellOf(q, s, l), o.es, Bodies(o.sends, q.tm))
  {
    CellHere(q, s, l);
    ReceiveIsDelivered(q, s, l, works);
    var c, o := CellOf(q, s, l), Answer(q, s, l, works);
    assert EsOk(q, c.es) && c.born && c.knows == l.tm && c.down == s.down(l) && c.es == s.rm(l.rm, l.gen).es;
    hide Inv, Live, CellOk, Fits, CellOf, OnRMMessage, Replied, Bodies, RMMoves, Delivered, Delivering;
    MessageReplies(q, l, Leaders(RMView(s, l.rm, l.gen), q.tm.group), c.es, Head(s, l), works);
    OneBodyOf(q, o.sends);
  }

  lemma {:induction false} ReceiveCellIs(q: Query, s: Sys, l: Link, works: bool, k: Link)
    requires Enabled(q, s, RMReceive(l, works))
    ensures var o := Answer(q, s, l, works); var c := CellOf(q, s, k);
      CellOf(q, Next(q, s, RMReceive(l, works)), k) ==
        if k == l then Acted(Taken(c), o.es, Bodies(o.sends, q.tm))
        else if k.rm == l.rm && k.gen == l.gen then c.(es := o.es) else c
  {
    hide Bodies, OnRMMessage, Plms, Leader, View;
    TookCell(q, s, l, k);
    ActsCell(q, TookDown(s, l), l.rm, l.gen, s.rm(l.rm, l.gen).applied, Answer(q, s, l, works), k);
    assert s.up(k).sent + [] == s.up(k).sent;
  }

  /** All cells of one leadership of a resource manager agree about it. */
  lemma {:induction false} SameManager(q: Query, s: Sys, l: Link, k: Link)
    requires k.rm == l.rm && k.gen == l.gen
    ensures var c, d := CellOf(q, s, l), CellOf(q, s, k);
      d.born == c.born && d.es == c.es && d.knows == c.knows && d.seen == c.seen && d.orig == c.orig && d.prep == c.prep
  {
  }

  lemma {:induction false} ReceiveCells(q: Query, s: Sys, l: Link, works: bool, k: Link)
    requires Inv(q, s) && Live(q, s) && Enabled(q, s, RMReceive(l, works)) && k.rm in q.rms
    ensures CellOk(k, CellOf(q, Next(q, s, RMReceive(l, works)), k))
  {
    var o := Answer(q, s, l, works);
    CellHere(q, s, k);
    ReceiveFinds(q, s, l, works);
    ReceiveCellIs(q, s, l, works, k);
    var c, msgs := CellOf(q, s, l), Bodies(o.sends, q.tm);
    if k.rm == l.rm && k.gen == l.gen {
      SameManager(q, s, l, k);
      assert c.born by { assert l.gen < |s.rlog(l.rm)|; }
      hide Inv, Live, Receives, CellOk, Fits, CellOf, Next, Enabled, Answer, Acted, Taken;
      if k.tm == l.tm {
        assert k == l;
        ReceivedCell(q, l, c, o.es, msgs);
      } else {
        Beside(q, l, c, o.es, msgs, k, CellOf(q, s, k));
      }
    }
  }

  lemma {:induction false} RMReceiveLive(q: Query, s: Sys, l: Link, works: bool)
    requires Inv(q, s) && Live(q, s) && Enabled(q, s, RMReceive(l, works))
    ensures Live(q, Next(q, s, RMReceive(l, works)))
  {
    forall k: Link | k.rm in q.rms ensures CellOk(k, CellOf(q, Next(q, s, RMReceive(l, works)), k)) {
      ReceiveCells(q, s, l, works, k);
    }
    hide Inv, Live, CellOf, CellOk;
    ActsLive(q, s, TookDown(s, l), l.rm, l.gen, s.rm(l.rm, l.gen).applied, Answer(q, s, l, works));
  }

  lemma {:induction false} StartCellIs(q: Query, s: Sys, r: RMPath, h: Gen, k: Link)
    requires Enabled(q, s, RMStart(r, h))
    ensures var c := CellOf(q, s, k);
      CellOf(q, Next(q, s, RMStart(r, h)), k) == if k.rm == r && k.gen == h then c.(es := StartInserting(c.es).es) else c
  {
    var o := StartInserting(s.rm(r, h).es);
    assert o.sends == [];
    OneBodyOf(q, o.sends);
    assert s.up(k).sent + [] == s.up(k).sent;
    hide StartInserting, Leader, View, Plms, Bodies;
    ActsCell(q, s, r, h, s.rm(r, h).applied, o, k);
  }

  lemma {:induction false} StartCells(q: Query, s: Sys, r: RMPath, h: Gen, k: Link)
    requires Inv(q, s) && Live(q, s) && Enabled(q, s, RMStart(r, h)) && k.rm in q.rms
    ensures CellOk(k, CellOf(q, Next(q, s, RMStart(r, h)), k))
  {
    hide Inv, Live, CellOf, CellOk, Next, Fits, StartInserting;
    CellHere(q, s, k);
    StartCellIs(q, s, r, h, k);
    StartCell(q, k, CellOf(q, s, k));
  }

  lemma {:induction false} RMStartLive(q: Query, s: Sys, r: RMPath, h: Gen)
    requires Inv(q, s) && Live(q, s) && Enabled(q, s, RMStart(r, h))
    ensures Live(q, Next(q, s, RMStart(r, h)))
  {
    forall k: Link | k.rm in q.rms ensures CellOk(k, CellOf(q, Next(q, s, RMStart(r, h)), k)) {
      StartCells(q, s, r, h, k);
    }
    hide Inv, Live, CellOf, CellOk;
    ActsLive(q, s, s, r, h, s.rm(r, h).applied, StartInserting(s.rm(r, h).es));
  }

  /** What a leadership that sees the next entry of its stretch does to its cells. */
  lemma {:induction false} AdvanceIsActs(q: Query, s: Sys, r: RMPath, h: Gen, k: Link)
    requires Enabled(q, s, RMAdvance(r, h)) && k.rm == r && k.gen == h
    ensures var c := CellOf(q, s, k); var o := AdvanceRM(q, s, r, h);
      var v := View(s.rlog(r), h, s.rm(r, h).applied + 1); var knows := Leader(v, q.tm.group);
      && c.born && c.es == s.rm(r, h).es && c.knows == RMLeader(s, r, h, q.tm.group) && c.seen == (Plms(RMView(s, r, h)) != [])
      && CellOf(q, Next(q, s, RMAdvance(r, h)), k) ==
           Acted(c.(knows := knows, seen := Plms(v) != []), o.es, if knows == k.tm then Bodies(o.sends, q.tm) else [])
  {
    hide AdvanceRM, View, Leader, Plms, Bodies, AdvanceFinds;
    ActsCell(q, s, r, h, s.rm(r, h).applied + 1, AdvanceRM(q, s, r, h), k);
  }

  /** What a leadership says that sees a change of leader. */
  lemma {:induction false} RemoteSays(q: Query, s: Sys, r: RMPath, h: Gen)
    requires Enabled(q, s, RMAdvance(r, h)) && EsOk(q, s.rm(r, h).es)
    requires s.rlog(r)[h][s.rm(r, h).applied].RemoteLeader?
    ensures var o := AdvanceRM(q, s, r, h); var v := View(s.rlog(r), h, s.rm(r, h).applied + 1);
      var msgs := Bodies(o.sends, q.tm);
      && o.es == s.rm(r, h).es && (msgs == [] || msgs == [InformPrepared(q.id, q.tm, q.rms)])
      && RMLeader(s, r, h, q.tm.group) <= Leader(v, q.tm.group) && Plms(v) == Plms(RMView(s, r, h))
      && (InState(o.es, HasPrepared) && RMLeader(s, r, h, q.tm.group) < Leader(v, q.tm.group) ==> msgs != [])
  {
    var e, o := s.rlog(r)[h][s.rm(r, h).applied], AdvanceRM(q, s, r, h);
    RemoteView(q, s, r, h);
    RemoteQuiet(q, s.rm(r, h).es, e.group);
    OneBodyOf(q, o.sends);
    hide View, Leader, Plms, Bodies;
  }

  /** Leadership `h` of `r` sees a change of leader. */
  lemma {:induction false} RemoteCells(q: Query, s: Sys, r: RMPath, h: Gen, k: Link)
    requires Inv(q, s) && Live(q, s) && Enabled(q, s, RMAdvance(r, h)) && k.rm in q.rms && k.rm == r && k.gen == h
    requires s.rlog(r)[h][s.rm(r, h).applied].RemoteLeader?
    ensures CellOk(k, CellOf(q, Next(q, s, RMAdvance(r, h)), k))
  {
    var o, c, a := AdvanceRM(q, s, r, h), CellOf(q, s, k), s.rm(r, h).applied;
    var knows := Leader(View(s.rlog(r), h, a + 1), q.tm.group);
    var msgs := if knows == k.tm then Bodies(o.sends, q.tm) else [];
    AdvanceIsActs(q, s, r, h, k);
    hide Inv, Live, Enabled, CellOk, Fits, CellOf, Next, AdvanceRM, RMActs, AdvanceFinds, View, Leader, Plms, Bodies, RMView;
    CellHere(q, s, k);
    assert EsOk(q, s.rm(r, h).es) by { InvHere(q, s, r, h); }
    RemoteSays(q, s, r, h);
    RemoteCell(q, k, c, knows, msgs);
  }

  lemma {:induction false} RemoteView(q: Query, s: Sys, r: RMPath, h: Gen)
    requires h < |s.rlog(r)| && s.rm(r, h).applied < |s.rlog(r)[h]|
    requires s.rlog(r)[h][s.rm(r, h).applied].RemoteLeader?
    ensures var e := s.rlog(r)[h][s.rm(r, h).applied]; var v := View(s.rlog(r), h, s.rm(r, h).applied + 1);
      && Plms(v) == Plms(RMView(s, r, h))
      && Leader(v, q.tm.group) == if e.group == q.tm.group && e.gen > RMLeader(s, r, h, q.tm.group) then e.gen else RMLeader(s, r, h, q.tm.group)
  {
    ViewStep(s.rlog(r), h, s.rm(r, h).applied);
    var v, w := RMView(s, r, h), View(s.rlog(r), h, s.rm(r, h).applied + 1);
    assert w[..|w| - 1] == v;
  }

  lemma {:induction false} EntrySays(q: Query, s: Sys, r: RMPath, h: Gen, k: Link)
    requires Inv(q, s) && Enabled(q, s, RMAdvance(r, h)) && k.rm == r && k.gen == h
    requires s.rlog(r)[h][s.rm(r, h).applied].Insertion?
    ensures var o := AdvanceRM(q, s, r, h);
      Inserted(q, k, s.rm(r, h).es, RMLeader(s, r, h, q.tm.group), o.es, Bodies(o.sends, q.tm))
  {
    var o, es, leaders := AdvanceRM(q, s, r, h), s.rm(r, h).es, Leaders(RMView(s, r, h), q.tm.group);
    var p := s.rlog(r)[h][s.rm(r, h).applied].plm;
    InvHere(q, s, r, h);
    SeesExpected(q, s, r, h);
    assert o == OnRMPlm(r, leaders, true, es, p) && PlmFinds(true, es, p) && EsOk(q, es);
    assert GenOf(leaders, q.tm.group) == RMLeader(s, r, h, q.tm.group);
    hide Inv, Enabled, RMTracks, RMCauses, Legal, OnRMPlm, AdvanceRM, Inserted, Expected, Bodies, Unseen;
    EntryInserts(q, k, leaders, es, p);
    OneBodyOf(q, o.sends);
  }

  /** Leadership `h` of `r` sees an entry of the query. */
  lemma {:induction false} EntryCells(q: Query, s: Sys, r: RMPath, h: Gen, k: Link)
    requires Inv(q, s) && Live(q, s) && Enabled(q, s, RMAdvance(r, h)) && k.rm in q.rms && k.rm == r && k.gen == h
    requires s.rlog(r)[h][s.rm(r, h).applied].Insertion?
    ensures CellOk(k, CellOf(q, Next(q, s, RMAdvance(r, h)), k))
  {
    var o, c := AdvanceRM(q, s, r, h), CellOf(q, s, k);
    AdvanceIsActs(q, s, r, h, k);
    hide Inv, Live, Enabled, CellOk, Fits, CellOf, Next, AdvanceRM, RMActs, AdvanceFinds, View, Leader, Plms, Bodies, RMView, Inserted;
    CellHere(q, s, k);
    EntryView(q, s, r, h);
    EntrySays(q, s, r, h, k);
    EntryCell(q, k, c, o.es, Bodies(o.sends, q.tm));
  }

  lemma {:induction false} EntryView(q: Query, s: Sys, r: RMPath, h: Gen)
    requires h < |s.rlog(r)| && s.rm(r, h).applied < |s.rlog(r)[h]|
    requires s.rlog(r)[h][s.rm(r, h).applied].Insertion?
    ensures var v := View(s.rlog(r), h, s.rm(r, h).applied + 1);
      Plms(v) != [] && Leader(v, q.tm.group) == RMLeader(s, r, h, q.tm.group)
  {
    ViewStep(s.rlog(r), h, s.rm(r, h).applied);
    var v, w := RMView(s, r, h), View(s.rlog(r), h, s.rm(r, h).applied + 1);
    assert w[..|w| - 1] == v;
  }

  lemma {:induction false} AdvanceElsewhere(q: Query, s: Sys, r: RMPath, h: Gen, k: Link)
    requires Enabled(q, s, RMAdvance(r, h)) && (k.rm != r || k.gen != h)
    ensures CellOf(q, Next(q, s, RMAdvance(r, h)), k) == CellOf(q, s, k)
  {
    hide AdvanceRM, AdvanceFinds, CellOf, RMActs;
    ActsCell(q, s, r, h, s.rm(r, h).applied + 1, AdvanceRM(q, s, r, h), k);
  }

  lemma {:induction false} AnyAdvanceCells(q: Query, s: Sys, r: RMPath, h: Gen, k: Link)
    requires Inv(q, s) && Live(q, s) && Enabled(q, s, RMAdvance(r, h)) && k.rm in q.rms
    ensures CellOk(k, CellOf(q, Next(q, s, RMAdvance(r, h)), k))
  {
    var entry := s.rlog(r)[h][s.rm(r, h).applied];
    hide *;
    if k.rm != r || k.gen != h {
      AdvanceElsewhere(q, s, r, h, k);
      CellHere(q, s, k);
    } else if entry.Insertion? {
      EntryCells(q, s, r, h, k);
    } else {
      RemoteCells(q, s, r, h, k);
    }
  }

  lemma {:induction false} AdvanceNext(q: Query, s: Sys, r: RMPath, h: Gen)
    requires Enabled(q, s, RMAdvance(r, h))
    ensures Next(q, s, RMAdvance(r, h)) == RMActs(q, s, r, h, s.rm(r, h).applied + 1, AdvanceRM(q, s, r, h))
  {
    hide AdvanceRM, AdvanceFinds, RMActs;
  }

  lemma {:induction false} RMAdvanceLive(q: Query, s: Sys, r: RMPath, h: Gen)
    requires Inv(q, s) && Live(q, s) && Enabled(q, s, RMAdvance(r, h))
    ensures Live(q, Next(q, s, RMAdvance(r, h)))
  {
    hide Inv, Live, CellOf, CellOk, Next, RMActs, AdvanceRM, AdvanceFinds;
    var s' := Next(q, s, RMAdvance(r, h));
    AdvanceNext(q, s, r, h);
    forall k: Link | k.rm in q.rms ensures CellOk(k, CellOf(q, s', k)) { AnyAdvanceCells(q, s, r, h, k); }
    ActsLive(q, s, s, r, h, s.rm(r, h).applied + 1, AdvanceRM(q, s, r, h));
  }

  // ---------------------------------------------------------------------------------------------
  //  The groups
  // ---------------------------------------------------------------------------------------------

  /** A new leadership of `r` starts. */
  lemma {:induction false} ElectCells(q: Query, s: Sys, r: RMPath, k: Link)
    requires Inv(q, s) && Live(q, s) && k.rm in q.rms && r in q.rms
    ensures CellOk(k, CellOf(q, Elected(q, s, r), k))
  {
    var s', n := Elected(q, s, r), |s.rlog(r)|;
    var c := CellOf(q, s, k);
    var o := RMLeaderChanged(true, Replay(Entries(s, r)));
    assert LogOk(q, s, r) && VerdictOk(q, s, r);
    CellHere(q, s, k);
    ElectCellIs(q, s, r, k);
    if k.rm == r && k.gen == n {
      Promotion(q, Entries(s, r));
      PromotionSays(q, Entries(s, r));
      OneBodyOf(q, o.sends);
      assert c.knows == Leader(Flat(s.rlog(r)), q.tm.group) && !c.born;
      hide Inv, Live, CellOk, Fits, Elected, RMLeaderChanged, Replay, Entries, Bodies, Legal, Flat, Leader;
      ElectCell(q, k, c, o.es, Bodies(o.sends, q.tm));
    }
  }

  lemma {:induction false} PromotionSays(q: Query, ps: seq<RMPlm>)
    requires Legal(q, ps)
    ensures var o := RMLeaderChanged(true, Replay(ps));
      && !Unprepared(o.es) && (Towards(o.es) ==> CommittedPlm(q.id) in ps || AbortedPlm(q.id) in ps)
      && o.sends == if InState(o.es, HasPrepared) then [ToTM(q.tm, InformPrepared(q.id, q.tm, q.rms))] else []
  {
    ReplayLegal(q, ps);
    if |ps| == 2 { assert ps[1] in ps; }
  }

  lemma {:induction false} ElectCellIs(q: Query, s: Sys, r: RMPath, k: Link)
    requires LogOk(q, s, r) && r in q.rms
    ensures var n := |s.rlog(r)|; var c := CellOf(q, s, k);
      var o := RMLeaderChanged(true, Replay(Entries(s, r)));
      CellOf(q, Elected(q, s, r), k) ==
        if k.rm == r && k.gen == n
        then Acted(c.(born := true), o.es, if c.knows == k.tm then Bodies(o.sends, q.tm) else []) else c
  {
    var s', n := Elected(q, s, r), |s.rlog(r)|;
    var t := Extended(s, r, s.rlog(r) + [[]]);
    var o := RMLeaderChanged(true, Replay(Entries(s, r)));
    hide Replay, RMLeaderChanged, Bodies, Legal, Leader;
    ActsCell(q, t, r, n, 0, o, k);
    ViewElect(s.rlog(r), n, 0);
    if k.rm == r { ViewElect(s.rlog(r), k.gen, s.rm(r, k.gen).applied); }
  }

  lemma {:induction false} ElectedLogs(q: Query, s: Sys, r: RMPath)
    requires s.rlog(r) != []
    ensures var s' := Elected(q, s, r); s'.tm == s.tm && s'.orig == s.orig && forall x :: Flat(s'.rlog(x)) == Flat(s.rlog(x))
  {
    ViewElect(s.rlog(r), 0, 0);
    hide Flat, View, Leader, Plms, Replay, RMLeaderChanged, Bodies;
  }

  lemma {:induction false} HasLog(q: Query, s: Sys, r: RMPath)
    requires Inv(q, s) && r in q.rms
    ensures s.rlog(r) != []
  {
    assert LogOk(q, s, r);
  }

  lemma {:induction false} RMElectLive(q: Query, s: Sys, r: RMPath)
    requires Inv(q, s) && Live(q, s) && r in q.rms
    ensures Live(q, Next(q, s, RMElect(r)))
  {
    hide Inv, Live, CellOf, CellOk, Elected;
    var s' := Elected(q, s, r);
    forall k: Link | k.rm in q.rms ensures CellOk(k, CellOf(q, s', k)) { ElectCells(q, s, r, k); }
    HasLog(q, s, r);
    ElectedLogs(q, s, r);
    CellsSuffice(q, s, s');
  }

  /** An insertion into the log of `r` is seen by no leadership yet, but by those to come. */
  lemma {:induction false} InsertsDrift(q: Query, s: Sys, s': Sys, r: RMPath, e: Entry, k: Link)
    requires RMOk(q, s, k.rm, k.gen) && Inserts(s, s', r, e)
    ensures Drifts(CellOf(q, s, k), CellOf(q, s', k))
  {
    if k.rm == r {
      InsertsView(q, s, s', r, e, k.gen);
      InsertsSeen(s, s', r, e, k.gen);
      assert |s'.rlog(r)| == |s.rlog(r)|;
    } else {
      assert s'.rlog(k.rm) == s.rlog(k.rm) && s'.rm(k.rm, k.gen) == s.rm(k.rm, k.gen);
    }
    assert StillPreparing(s') == StillPreparing(s) && TMLeader(s', k.tm, k.rm.group) == TMLeader(s, k.tm, k.rm.group);
    assert s'.up == s.up && s'.down == s.down && s'.orig == s.orig && s'.tm == s.tm && s'.rm(k.rm, k.gen).es == s.rm(k.rm, k.gen).es;
    hide RMOk, Inserts, RMView, View, Leader, Plms, StillPreparing, TMLeader;
  }

  lemma {:induction false} InsertsSeen(s: Sys, s': Sys, r: RMPath, e: Entry, h: Gen)
    requires Inserts(s, s', r, e)
    ensures Plms(RMView(s, r, h)) != [] ==> Plms(RMView(s', r, h)) != []
  {
    ViewAppend(s.rlog(r), e, h, s.rm(r, h).applied);
    var v, w := RMView(s, r, h), RMView(s', r, h);
    assert w == v + w[|v|..];
    PlmsConcat(v, w[|v|..]);
  }

  lemma {:induction false} InsertsCells(q: Query, s: Sys, s': Sys, r: RMPath, e: Entry)
    requires Inv(q, s) && Live(q, s) && r in q.rms && Inserts(s, s', r, e)
    ensures forall k: Link | k.rm in q.rms :: CellOk(k, CellOf(q, s', k))
  {
    forall k: Link | k.rm in q.rms ensures CellOk(k, CellOf(q, s', k)) {
      CellHere(q, s, k);
      assert RMOk(q, s, k.rm, k.gen);
      InsertsDrift(q, s, s', r, e, k);
      hide *;
      DriftKeeps(q, k, CellOf(q, s, k), CellOf(q, s', k));
    }
  }

  /** A verdict enters the log from a leadership that was told it. */
  lemma {:induction false} InsertsVerdict(q: Query, s: Sys, s': Sys, r: RMPath, e: Entry, x: RMPath)
    requires Inv(q, s) && Live(q, s) && r in q.rms && Inserts(s, s', r, e) && x in q.rms
    requires e.Insertion? ==> var p := s.rm(r, |s.rlog(r)| - 1).pending; p != [] && p[0] == e.plm
    ensures VerdictOk(q, s', x)
  {
    assert VerdictOk(q, s, x);
    assert StillPreparing(s') == StillPreparing(s) && s'.orig == s.orig;
    if x == r {
      InsertsEntries(s, s', r, e);
      PlmsOne(e);
      if e.Insertion? && !e.plm.PreparedPlm? { TellsVerdict(q, s, r); }
      hide Inv, Live, Inserts, Entries, Leader, StillPreparing;
    } else {
      assert s'.rlog(x) == s.rlog(x);
    }
  }

  /** A verdict that waits to be inserted. */
  lemma {:induction false} PendingVerdict(q: Query, s: Sys, r: RMPath)
    requires Inv(q, s) && r in q.rms && s.rlog(r) != []
    requires var p := s.rm(r, |s.rlog(r)| - 1).pending; p != [] && !p[0].PreparedPlm?
    ensures Towards(s.rm(r, |s.rlog(r)| - 1).es)
  {
    assert LogOk(q, s, r) && RMOk(q, s, r, |s.rlog(r)| - 1);
    hide Inv, LogOk, RMOk, Legal, Entries;
    InsertLegal(q, s, r);
  }

  lemma {:induction false} ToldLate(q: Query, s: Sys, r: RMPath, h: Gen)
    requires Inv(q, s) && Live(q, s) && r in q.rms && Towards(s.rm(r, h).es)
    ensures !StillPreparing(s) || (s.orig.Some? && RMLeader(s, r, h, q.tm.group) > s.orig.value)
  {
    var l := Link(0, r, h);
    var c := CellOf(q, s, l);
    assert c.es == s.rm(r, h).es && c.prep == StillPreparing(s) && c.orig == s.orig && c.knows == RMLeader(s, r, h, q.tm.group);
    hide Inv, Live, CellOf, StillPreparing, RMLeader, Towards, Fits, DownSide, UpSide, AskSide, Noticed;
    CellHere(q, s, l);
    assert ExecSide(l, c);
  }

  lemma {:induction false} TellsVerdict(q: Query, s: Sys, r: RMPath)
    requires Inv(q, s) && Live(q, s) && r in q.rms
    requires var p := s.rm(r, |s.rlog(r)| - 1).pending; s.rlog(r) != [] && p != [] && !p[0].PreparedPlm?
    ensures !StillPreparing(s) || (s.orig.Some? && Leader(Flat(s.rlog(r)), q.tm.group) > s.orig.value)
  {
    var n := |s.rlog(r)| - 1;
    hide Inv, Live, Flat, Leader, View, StillPreparing, Towards;
    PendingVerdict(q, s, r);
    ToldLate(q, s, r, n);
    ViewPrefix(s.rlog(r), n, s.rm(r, n).applied);
    LeaderGrows(RMView(s, r, n), Flat(s.rlog(r)), q.tm.group);
  }

  lemma {:induction false} InsertsLive(q: Query, s: Sys, s': Sys, r: RMPath, e: Entry)
    requires Inv(q, s) && Live(q, s) && r in q.rms && Inserts(s, s', r, e)
    requires e.Insertion? ==> var p := s.rm(r, |s.rlog(r)| - 1).pending; p != [] && p[0] == e.plm
    ensures Live(q, s')
  {
    InsertsCells(q, s, s', r, e);
    forall x | x in q.rms ensures VerdictOk(q, s', x) { InsertsVerdict(q, s, s', r, e, x); }
    forall g: Gen ensures Awaits(q, s', g) { assert Awaits(q, s, g); }
  }

  lemma {:induction false} RMInsertLive(q: Query, s: Sys, r: RMPath)
    requires Inv(q, s) && Live(q, s) && Enabled(q, s, RMInsert(r))
    ensures Live(q, Next(q, s, RMInsert(r)))
  {
    InsertIsInserts(q, s, r);
    hide Inv, Live, Inserts;
    InsertsLive(q, s, Next(q, s, RMInsert(r)), r, Insertion(s.rm(r, |s.rlog(r)| - 1).pending[0]));
  }

  lemma {:induction false} RMAppendLive(q: Query, s: Sys, r: RMPath, group: GroupId, gen: Gen)
    requires Inv(q, s) && Live(q, s) && r in q.rms && s.rlog(r) != []
    ensures Live(q, Next(q, s, RMAppend(r, group, gen)))
  {
    var s' := Next(q, s, RMAppend(r, group, gen));
    assert Inserts(s, s', r, RemoteLeader(group, gen));
    hide Inv, Live, Inserts;
    InsertsLive(q, s, s', r, RemoteLeader(group, gen));
  }

  /** The group of the transaction manager moves on, unseen by the leaderships that act. */
  lemma {:induction false} TLogLive(q: Query, s: Sys, s': Sys)
    requires Inv(q, s) && Live(q, s) && s' == s.(tlog := s'.tlog)
    requires forall g: Gen, group :: TMLeader(s, g, group) <= TMLeader(s', g, group)
    requires forall g: Gen, group | s.tm(g).es.Some? :: TMLeader(s', g, group) == TMLeader(s, g, group)
    ensures Live(q, s')
  {
    forall k: Link | k.rm in q.rms ensures CellOk(k, CellOf(q, s', k)) {
      CellHere(q, s, k);
      assert Drifts(CellOf(q, s, k), CellOf(q, s', k));
      hide *;
      DriftKeeps(q, k, CellOf(q, s, k), CellOf(q, s', k));
    }
    hide CellOf, CellOk, Inv, TMLeader;
    CellsSuffice(q, s, s');
  }

  lemma {:induction false} TMAppendLive(q: Query, s: Sys, group: GroupId, gen: Gen)
    requires Inv(q, s) && Live(q, s) && s.tlog != []
    ensures Live(q, Next(q, s, TMAppend(group, gen)))
  {
    var s' := Next(q, s, TMAppend(group, gen));
    forall g: Gen, x
      ensures TMLeader(s, g, x) <= TMLeader(s', g, x) && (s.tm(g).es.Some? ==> TMLeader(s', g, x) == TMLeader(s, g, x))
    {
      assert TMOk(q, s, g);
      ViewAppend(s.tlog, RemoteLeader(group, gen), g, s.tm(g).applied);
      LeaderGrows(TMView(s, g), TMView(s', g), x);
    }
    hide Inv, Live, TMLeader;
    TLogLive(q, s, s');
  }

  lemma {:induction false} TMElectLive(q: Query, s: Sys)
    requires Inv(q, s) && Live(q, s)
    ensures Live(q, Next(q, s, TMElect))
  {
    var s' := Next(q, s, TMElect);
    forall g: Gen, x ensures TMLeader(s, g, x) == TMLeader(s', g, x) { ViewElect(s.tlog, g, s.tm(g).applied); }
    hide Inv, Live, TMLeader;
    TLogLive(q, s, s');
  }

  // ---------------------------------------------------------------------------------------------
  //  Transaction managers
  // ---------------------------------------------------------------------------------------------

  /** One message to each is one message to `r`. */
  lemma {:induction false} EachGetsOne(rms: seq<RMPath>, sends: seq<ToRM>, r: RMPath, m: RMMessage)
    requires |sends| == |rms| && forall k | 0 <= k < |rms| :: sends[k].rm == rms[k] && (rms[k] == r ==> sends[k].msg == m)
    requires forall j, k | 0 <= j < k < |rms| :: rms[j] != rms[k]
    ensures BodiesTo(sends, r) == if r in rms then [m] else []
  {
    if rms != [] {
      var n := |rms| - 1;
      assert r in rms <==> r in rms[..n] || r == rms[n];
      assert r == rms[n] ==> r !in rms[..n];
      EachGetsOne(rms[..n], sends[..n], r, m);
    }
  }

  lemma {:induction false} ToAllReaches(q: Query, m: RMMessage, r: RMPath)
    requires q.Valid() && r in q.rms
    ensures BodiesTo(ToAll(q.rms, m), r) == [m]
  {
    EachGetsOne(q.rms, ToAll(q.rms, m), r, m);
  }

  lemma {:induction false} OneBodyTo(sends: seq<ToRM>, r: RMPath)
    ensures sends == [] ==> BodiesTo(sends, r) == []
    ensures |sends| == 1 ==> BodiesTo(sends, r) == if sends[0].rm == r then [sends[0].msg] else []
  {
    if |sends| == 1 { assert sends[..0] == []; }
  }

  lemma {:induction false} TookUpCell(q: Query, s: Sys, l: Link, k: Link)
    ensures var c := CellOf(q, s, k);
      CellOf(q, TookUp(s, l), k) == c.(up := Chan(c.up.sent, c.up.recv + if k == l then 1 else 0))
  {
    hide Leader, View, Plms;
  }

  /** What a step of leadership `g` of the transaction manager does to each cell. */
  lemma {:induction false} TMActsCell(q: Query, s: Sys, g: Gen, applied: nat, o: TMOut, k: Link)
    ensures var s' := TMActs(s, g, applied, o); var c := CellOf(q, s, k);
      var known := Leader(View(s.tlog, g, applied), k.rm.group);
      CellOf(q, s', k) ==
        if k.tm == g
        then c.(tm := o.es, known := known, prep := StillPreparing(s'),
                down := Chan(c.down.sent + if k.gen == known then BodiesTo(o.sends, k.rm) else [], c.down.recv))
        else c.(prep := StillPreparing(s'))
  {
    hide Leader, Plms, BodiesTo;
    assert s.down(k).sent + [] == s.down(k).sent;
  }

  /** The original transaction manager never goes back to preparing. */
  lemma {:induction false} StopsPreparing(q: Query, s: Sys, g: Gen, applied: nat, o: TMOut)
    requires s.tm(g).es.None? || !s.tm(g).es.value.Preparing? ==> o.es.None? || !o.es.value.Preparing?
    ensures var s' := TMActs(s, g, applied, o);
      && (StillPreparing(s') ==> StillPreparing(s))
      && (s.orig == Some(g) ==> (StillPreparing(s') <==> o.es.Some? && o.es.value.Preparing?))
  {
  }

  /** The state after a reply: a step of the transaction manager in which it stops preparing or does not start to. */
  lemma {:induction false} HearingNext(q: Query, s: Sys, l: Link)
    requires Enabled(q, s, TMReceive(l))
    ensures var s' := Next(q, s, TMReceive(l)); var o := MS.Reaction(q, s, l);
      && s' == TMActs(TookUp(s, l), l.tm, s.tm(l.tm).applied, o) && TookUp(s, l).orig == s.orig
      && (StillPreparing(s') ==> StillPreparing(s))
      && (s.orig == Some(l.tm) ==> (StillPreparing(s') <==> o.es.Some? && o.es.value.Preparing?))
  {
    var o := MS.Reaction(q, s, l);
    MS.ReactionPreparing(q, s.tm(l.tm).es, MS.Head(s, l));
    assert Next(q, s, TMReceive(l)) == TMActs(TookUp(s, l), l.tm, s.tm(l.tm).applied, o);
    assert StillPreparing(TookUp(s, l)) == StillPreparing(s);
    hide OnTMMessage, BodiesTo, Leader, View, TMActs, StillPreparing, Next;
    StopsPreparing(q, TookUp(s, l), l.tm, s.tm(l.tm).applied, o);
  }

  lemma {:induction false} HearingCellIs(q: Query, s: Sys, l: Link, k: Link)
    requires Enabled(q, s, TMReceive(l))
    ensures var s' := Next(q, s, TMReceive(l)); var o := MS.Reaction(q, s, l); var c := CellOf(q, s, k);
      var prep := StillPreparing(s');
      CellOf(q, s', k) == if k.tm == l.tm then Turned(c, k == l, o.es, if k.gen == c.known then BodiesTo(o.sends, k.rm) else [], prep)
                          else c.(prep := prep)
  {
    var o := MS.Reaction(q, s, l);
    HearingNext(q, s, l);
    TookUpCell(q, s, l, k);
    hide OnTMMessage, BodiesTo, Leader, View, Plms, StillPreparing, Next, MS.Reaction;
    TMActsCell(q, TookUp(s, l), l.tm, s.tm(l.tm).applied, o, k);
  }

  /** The cells of leadership `l.tm` after it took a message from `l`. */
  lemma {:induction false} HearingCell(q: Query, s: Sys, l: Link, k: Link)
    requires Inv(q, s) && Live(q, s) && Enabled(q, s, TMReceive(l)) && k.rm in q.rms
    ensures var s' := Next(q, s, TMReceive(l)); var o := MS.Reaction(q, s, l); var c := CellOf(q, s, k);
      var prep := StillPreparing(s');
      && (k.tm == l.tm ==>
            && Hears(q, k, c, k == l, MS.Head(s, l), o.es, prep)
            && CellOf(q, s', k) == Turned(c, k == l, o.es, if k.gen == c.known then BodiesTo(o.sends, k.rm) else [], prep))
      && (k.tm != l.tm ==> Drifts(c, CellOf(q, s', k)))
  {
    var c := CellOf(q, s, k);
    assert c.prep == StillPreparing(s) && c.orig == s.orig;
    assert k == l ==> c.up == s.up(l) && c.known == TMLeader(s, l.tm, l.rm.group);
    hide Inv, Live, Next, CellOf, CellOk, Fits, Turned, BodiesTo, StillPreparing, MS.Reaction, TMLeader;
    CellHere(q, s, k);
    HearingNext(q, s, l);
    HearingCellIs(q, s, l, k);
  }

  /** What the transaction manager knows of the sender of the message it takes. */
  lemma {:induction false} SenderSeen(q: Query, s: Sys, l: Link, k: Link)
    requires Inv(q, s) && Live(q, s) && Enabled(q, s, TMReceive(l)) && MS.Head(s, l).Prepared?
    requires k.tm == l.tm && k.rm == l.rm && k.gen >= l.gen
    ensures CellOf(q, s, k).seen && MS.Head(s, l).rm == l.rm
  {
    CellHere(q, s, l);
    var c := CellOf(q, s, l);
    assert c.seen && UpFits(q, l, c, MS.Head(s, l)) by {
      assert c.up == s.up(l) && UpSide(l, c) && Fits(q, l, c);
    }
    hide Inv, Live, CellOk, Fits, Enabled;
    SeenLater(s, l.rm, l.gen, k.gen);
  }

  lemma {:induction false} PreparedReaction(q: Query, s: Sys, l: Link)
    requires Inv(q, s) && Enabled(q, s, TMReceive(l)) && s.tm(l.tm).es.Some? && MS.Head(s, l).Prepared?
    ensures var es := s.tm(l.tm).es.value; var rest := es.remaining - {l.rm};
      && MS.Head(s, l).rm == l.rm
      && MS.Reaction(q, s, l) == if rest == map[] then TMOut(None, ToAll(q.rms, Commit(q.id, q.tm)), Some(DecideCommit))
                                 else TMOut(Some(es.(remaining := rest)), [], None)
  {
    assert UpOk(q, s, l) && TMOk(q, s, l.tm);
    assert UpMsgOk(q, s, l, MS.Head(s, l));
    hide Inv, Enabled;
  }

  /** Whoever has answered, the last one included, has seen the entry. */
  lemma {:induction false} PreparedSeen(q: Query, s: Sys, l: Link, k: Link)
    requires Inv(q, s) && Live(q, s) && Enabled(q, s, TMReceive(l)) && k.rm in q.rms && k.tm == l.tm
    requires s.tm(l.tm).es.Some? && MS.Head(s, l).Prepared?
    ensures var c := CellOf(q, s, k);
      k.rm !in s.tm(l.tm).es.value.remaining - {l.rm} && k.gen >= c.known ==> c.seen
  {
    var c := CellOf(q, s, k);
    assert TMLeader(s, l.tm, l.rm.group) == l.gen && c.known == TMLeader(s, k.tm, k.rm.group) && c.tm == s.tm(k.tm).es;
    assert AskSide(k, c) by { CellHere(q, s, k); }
    hide Inv, Live, Enabled, CellOf, MS.Head;
    if k.rm == l.rm && k.gen >= l.gen { SenderSeen(q, s, l, k); }
  }

  /** The cells of the transaction manager, message by message. */
  lemma {:induction false} PreparedCells(q: Query, s: Sys, l: Link, k: Link)
    requires q.Valid() && Inv(q, s) && Live(q, s) && Enabled(q, s, TMReceive(l)) && k.rm in q.rms && k.tm == l.tm
    requires s.tm(l.tm).es.Some? && MS.Head(s, l).Prepared?
    ensures CellOk(k, CellOf(q, Next(q, s, TMReceive(l)), k))
  {
    var c, m := CellOf(q, s, k), MS.Head(s, l);
    var es, prep := s.tm(l.tm).es.value, StillPreparing(Next(q, s, TMReceive(l)));
    assert c.tm == Some(es);
    hide Inv, Live, Enabled, Hears, Turned, CellOk, CellOf, Next, BodiesTo, ToAll, StillPreparing, MS.Head, MS.Reaction;
    HearingCell(q, s, l, k);
    PreparedSeen(q, s, l, k);
    PreparedReaction(q, s, l);
    var rest := es.remaining - {l.rm};
    if rest == map[] {
      var v := Commit(q.id, q.tm);
      ToAllReaches(q, v, k.rm);
      assert k.rm !in rest;
      VerdictCell(q, k, c, k == l, m, v, if k.gen == c.known then [v] else [], prep);
    } else {
      OneBodyTo([], k.rm);
      AnsweredCell(q, k, c, k == l, m, es.(remaining := rest), prep);
    }
  }

  lemma {:induction false} OtherReaction(q: Query, s: Sys, l: Link)
    requires Inv(q, s) && Enabled(q, s, TMReceive(l)) && s.tm(l.tm).es.Some? && !MS.Head(s, l).Prepared?
    ensures var es := s.tm(l.tm).es.value; var m := MS.Head(s, l); var o := MS.Reaction(q, s, l);
      && (m.Aborted? ==> o == TMOut(None, ToAll(q.rms, Abort(q.id, q.tm)), Some(DecideAbort)))
      && (m.Wait? ==> o == OnWait(es, m.rm) && forall r | r in es.remaining && es.CheckingPrepared? :: es.remaining[r].CheckPrepared?)
      && (m.InformPrepared? ==> o == TMOut(Some(es), [], None))
  {
    assert TMOk(q, s, l.tm);
    hide Inv, Enabled;
  }

  lemma {:induction false} AbortedCells(q: Query, s: Sys, l: Link, k: Link)
    requires q.Valid() && Inv(q, s) && Live(q, s) && Enabled(q, s, TMReceive(l)) && k.rm in q.rms && k.tm == l.tm
    requires s.tm(l.tm).es.Some? && MS.Head(s, l).Aborted?
    ensures CellOk(k, CellOf(q, Next(q, s, TMReceive(l)), k))
  {
    var c, m, v := CellOf(q, s, k), MS.Head(s, l), Abort(q.id, q.tm);
    var prep := StillPreparing(Next(q, s, TMReceive(l)));
    assert c.tm == s.tm(l.tm).es;
    hide Inv, Live, Enabled, Hears, Turned, CellOk, CellOf, Next, BodiesTo, ToAll, StillPreparing, MS.Head, MS.Reaction;
    HearingCell(q, s, l, k);
    OtherReaction(q, s, l);
    ToAllReaches(q, v, k.rm);
    VerdictCell(q, k, c, k == l, m, v, if k.gen == c.known then [v] else [], prep);
  }

  lemma {:induction false} OtherCells(q: Query, s: Sys, l: Link, k: Link)
    requires q.Valid() && Inv(q, s) && Live(q, s) && Enabled(q, s, TMReceive(l)) && k.rm in q.rms && k.tm == l.tm
    requires s.tm(l.tm).es.Some? && (MS.Head(s, l).Wait? || MS.Head(s, l).InformPrepared?)
    ensures CellOk(k, CellOf(q, Next(q, s, TMReceive(l)), k))
  {
    var o, c, m := MS.Reaction(q, s, l), CellOf(q, s, k), MS.Head(s, l);
    var es, prep := s.tm(l.tm).es.value, StillPreparing(Next(q, s, TMReceive(l)));
    assert c.tm == Some(es);
    hide Inv, Live, Enabled, Hears, Turned, CellOk, CellOf, Next, BodiesTo, ToAll, StillPreparing, MS.Head, MS.Reaction;
    HearingCell(q, s, l, k);
    OtherReaction(q, s, l);
    OneBodyTo(o.sends, k.rm);
    if m.Wait? && es.CheckingPrepared? {
      WaitCell(q, k, c, k == l, m, if k.gen == c.known then BodiesTo(o.sends, k.rm) else [], prep);
    } else {
      KeptCell(q, k, c, k == l, m, prep);
    }
  }

  lemma {:induction false} IdleReaction(q: Query, s: Sys, l: Link)
    requires Inv(q, s) && Enabled(q, s, TMReceive(l)) && s.tm(l.tm).es.None?
    ensures MS.Reaction(q, s, l) ==
              if MS.Head(s, l).InformPrepared? then StartRec(q.id, q.tm, q.rms) else TMOut(None, [], None)
  {
    assert UpOk(q, s, l);
    assert UpMsgOk(q, s, l, MS.Head(s, l));
    hide Inv, Enabled;
  }

  lemma {:induction false} IdleCells(q: Query, s: Sys, l: Link, k: Link)
    requires q.Valid() && Inv(q, s) && Live(q, s) && Enabled(q, s, TMReceive(l)) && k.rm in q.rms && k.tm == l.tm
    requires s.tm(l.tm).es.None?
    ensures CellOk(k, CellOf(q, Next(q, s, TMReceive(l)), k))
  {
    var o, c, m := MS.Reaction(q, s, l), CellOf(q, s, k), MS.Head(s, l);
    var prep := StillPreparing(Next(q, s, TMReceive(l)));
    assert c.tm.None?;
    hide Inv, Live, Enabled, Hears, Turned, CellOk, CellOf, Next, BodiesTo, ToAll, StillPreparing, MS.Head, MS.Reaction;
    HearingCell(q, s, l, k);
    IdleReaction(q, s, l);
    if m.InformPrepared? {
      var v := CheckPrepared(q.id, q.tm);
      ToAllReaches(q, v, k.rm);
      var es := o.es.value;
      assert k.rm in es.remaining && es.CheckingPrepared?;
      CheckCell(q, k, c, k == l, m, es, if k.gen == c.known then [v] else [], prep);
    } else {
      OneBodyTo(o.sends, k.rm);
      KeptCell(q, k, c, k == l, m, prep);
    }
  }

  lemma {:induction false} HeardCells(q: Query, s: Sys, l: Link, k: Link)
    requires q.Valid() && Inv(q, s) && Live(q, s) && Enabled(q, s, TMReceive(l)) && k.rm in q.rms
    ensures CellOk(k, CellOf(q, Next(q, s, TMReceive(l)), k))
  {
    if k.tm != l.tm {
      HearingCell(q, s, l, k);
      CellHere(q, s, k);
      hide *;
      DriftKeeps(q, k, CellOf(q, s, k), CellOf(q, Next(q, s, TMReceive(l)), k));
    } else if s.tm(l.tm).es.None? {
      IdleCells(q, s, l, k);
    } else if MS.Head(s, l).Prepared? {
      PreparedCells(q, s, l, k);
    } else if MS.Head(s, l).Aborted? {
      AbortedCells(q, s, l, k);
    } else {
      OtherCells(q, s, l, k);
    }
  }

  /** Steps of the transaction managers touch no log. */
  lemma {:induction false} TMActsVerdicts(q: Query, s: Sys, s': Sys)
    requires Live(q, s) && s'.rlog == s.rlog && s'.orig == s.orig && (StillPreparing(s') ==> StillPreparing(s))
    ensures forall r | r in q.rms :: VerdictOk(q, s', r)
  {
    forall r | r in q.rms ensures VerdictOk(q, s', r) {
      assert VerdictOk(q, s, r);
    }
  }

  lemma {:induction false} ReactionAwaits(q: Query, s: Sys, l: Link)
    requires Inv(q, s) && Live(q, s) && Enabled(q, s, TMReceive(l))
    ensures var o := MS.Reaction(q, s, l); o.es.Some? && q.rms != [] ==> o.es.value.remaining != map[]
  {
    assert Awaits(q, s, l.tm) && UpOk(q, s, l);
    assert UpMsgOk(q, s, l, MS.Head(s, l));
    hide Inv, Live;
    var o, m := MS.Reaction(q, s, l), MS.Head(s, l);
    if m.InformPrepared? && s.tm(l.tm).es.None? && q.rms != [] { assert q.rms[0] in o.es.value.remaining; }
  }

  lemma {:induction false} TMReceiveLive(q: Query, s: Sys, l: Link)
    requires q.Valid() && Inv(q, s) && Live(q, s) && Enabled(q, s, TMReceive(l))
    ensures Live(q, Next(q, s, TMReceive(l)))
  {
    var s' := Next(q, s, TMReceive(l));
    forall k: Link | k.rm in q.rms ensures CellOk(k, CellOf(q, s', k)) { HeardCells(q, s, l, k); }
    MS.ReactionPreparing(q, s.tm(l.tm).es, MS.Head(s, l));
    ReactionAwaits(q, s, l);
    assert s' == TMActs(TookUp(s, l), l.tm, s.tm(l.tm).applied, MS.Reaction(q, s, l));
    hide Inv, CellOk, CellOf, OnTMMessage;
    StopsPreparing(q, TookUp(s, l), l.tm, s.tm(l.tm).applied, MS.Reaction(q, s, l));
    TMActsVerdicts(q, s, s');
    forall g: Gen ensures Awaits(q, s', g) { assert Awaits(q, s, g); }
  }

  lemma {:induction false} AdvancedLeader(s: Sys, g: Gen, group: GroupId)
    requires g < |s.tlog| && s.tm(g).applied < |s.tlog[g]|
    ensures var e := s.tlog[g][s.tm(g).applied];
      Leader(View(s.tlog, g, s.tm(g).applied + 1), group) ==
        if e.RemoteLeader? && e.group == group && e.gen > TMLeader(s, g, group) then e.gen else TMLeader(s, g, group)
  {
    ViewStep(s.tlog, g, s.tm(g).applied);
    var v, w := TMView(s, g), View(s.tlog, g, s.tm(g).applied + 1);
    assert w[..|w| - 1] == v;
  }

  lemma {:induction false} AskerOf(q: Query, s: Sys, g: Gen)
    requires Inv(q, s)
    ensures s.tm(g).es.Some? ==> s.tm(g).es.value.all == q.rms
  {
    assert TMOk(q, s, g);
  }

  /** What leadership `g` says to `k.rm` when it sees the next entry of its stretch. */
  lemma {:induction false} AdvanceSaysTo(q: Query, s: Sys, g: Gen, k: Link)
    requires q.Valid() && Inv(q, s) && Enabled(q, s, TMAdvance(g)) && k.rm in q.rms && k.tm == g
    ensures var o := AdvanceTM(s, g); var c := CellOf(q, s, k);
      var known := Leader(View(s.tlog, g, s.tm(g).applied + 1), k.rm.group);
      && o.es == s.tm(g).es && c.known <= known
      && (if k.gen == known then BodiesTo(o.sends, k.rm) else []) ==
           if c.tm.Some? && c.known < known && k.gen == known && k.rm in c.tm.value.remaining
           then [c.tm.value.remaining[k.rm]] else []
  {
    var e := s.tlog[g][s.tm(g).applied];
    AskerOf(q, s, g);
    hide Inv, View, Leader, BodiesTo;
    AdvancedLeader(s, g, k.rm.group);
    OneBodyTo([], k.rm);
    if s.tm(g).es.Some? && e.RemoteLeader? && e.gen > TMLeader(s, g, e.group) {
      MS.ResendsTo(q.rms, s.tm(g).es.value.remaining, e.group, k.rm);
    }
  }

  lemma {:induction false} AdvanceKeepsEs(s: Sys, g: Gen)
    requires g < |s.tlog| && s.tm(g).applied < |s.tlog[g]|
    ensures AdvanceTM(s, g).es == s.tm(g).es
    ensures StillPreparing(TMActs(s, g, s.tm(g).applied + 1, AdvanceTM(s, g))) == StillPreparing(s)
  {
  }

  lemma {:induction false} AdvanceCellIs(q: Query, s: Sys, g: Gen, k: Link)
    requires Enabled(q, s, TMAdvance(g))
    ensures var c := CellOf(q, s, k); var o := AdvanceTM(s, g);
      var known := Leader(View(s.tlog, g, s.tm(g).applied + 1), k.rm.group);
      CellOf(q, Next(q, s, TMAdvance(g)), k) ==
        if k.tm == g then Resent(c, known, if k.gen == known then BodiesTo(o.sends, k.rm) else []) else c
  {
    var o, c := AdvanceTM(s, g), CellOf(q, s, k);
    AdvanceKeepsEs(s, g);
    assert Next(q, s, TMAdvance(g)) == TMActs(s, g, s.tm(g).applied + 1, o);
    assert c.tm == s.tm(k.tm).es && c.prep == StillPreparing(s);
    hide Next, CellOf, AdvanceTM, TMActs, BodiesTo, Leader, View, StillPreparing;
    TMActsCell(q, s, g, s.tm(g).applied + 1, o, k);
  }

  lemma {:induction false} AdvanceCells(q: Query, s: Sys, g: Gen, k: Link)
    requires q.Valid() && Inv(q, s) && Live(q, s) && Enabled(q, s, TMAdvance(g)) && k.rm in q.rms
    ensures CellOk(k, CellOf(q, Next(q, s, TMAdvance(g)), k))
  {
    var s', o, c := Next(q, s, TMAdvance(g)), AdvanceTM(s, g), CellOf(q, s, k);
    AdvanceCellIs(q, s, g, k);
    hide Inv, Live, CellOk, Fits, Next, CellOf, AdvanceTM, TMActs, BodiesTo, Leader, View, Enabled, Resent;
    CellHere(q, s, k);
    if k.tm == g {
      AdvanceSaysTo(q, s, g, k);
      var known := Leader(View(s.tlog, g, s.tm(g).applied + 1), k.rm.group);
      ResentCell(q, k, c, known, if k.gen == known then BodiesTo(o.sends, k.rm) else []);
    }
  }

  lemma {:induction false} TMAdvanceLive(q: Query, s: Sys, g: Gen)
    requires q.Valid() && Inv(q, s) && Live(q, s) && Enabled(q, s, TMAdvance(g))
    ensures Live(q, Next(q, s, TMAdvance(g)))
  {
    var s', o := Next(q, s, TMAdvance(g)), AdvanceTM(s, g);
    forall k: Link | k.rm in q.rms ensures CellOk(k, CellOf(q, s', k)) { AdvanceCells(q, s, g, k); }
    assert o.es == s.tm(g).es && s' == TMActs(s, g, s.tm(g).applied + 1, o);
    hide Inv, CellOk, CellOf, AdvanceTM;
    StopsPreparing(q, s, g, s.tm(g).applied + 1, o);
    TMActsVerdicts(q, s, s');
    forall x: Gen ensures Awaits(q, s', x) { assert Awaits(q, s, x); }
  }

  lemma {:induction false} BeginCellIs(q: Query, s: Sys, g: Gen, k: Link)
    requires q.Valid() && Enabled(q, s, Begin(g)) && k.rm in q.rms && s.tm(k.tm).es.None?
    ensures var c := CellOf(q, s, k); var s' := Next(q, s, Begin(g));
      var es := if k.tm == g then StartOrig(q.id, q.tm, q.rms, q.payloads).es else None;
      var msgs := if k.tm == g && k.gen == c.known then [Ask(q.id, q.tm, q.rms, q.payloads, k.rm)] else [];
      CellOf(q, s', k) == Turned(c, false, es, msgs, StillPreparing(s')).(orig := Some(g))
  {
    var o, c := StartOrig(q.id, q.tm, q.rms, q.payloads), CellOf(q, s, k);
    EachGetsOne(q.rms, o.sends, k.rm, Ask(q.id, q.tm, q.rms, q.payloads, k.rm));
    hide StartOrig, Ask, BodiesTo, Leader, View, Plms;
    TMActsCell(q, s, g, s.tm(g).applied, o, k);
    assert c.down.sent + [] == c.down.sent;
  }

  lemma {:induction false} BeginCells(q: Query, s: Sys, g: Gen, k: Link)
    requires q.Valid() && Inv(q, s) && Live(q, s) && Enabled(q, s, Begin(g)) && k.rm in q.rms
    ensures CellOk(k, CellOf(q, Next(q, s, Begin(g)), k))
  {
    var c := CellOf(q, s, k);
    var prep := StillPreparing(Next(q, s, Begin(g)));
    assert s.tm(k.tm).es.None? by { assert TMOk(q, s, k.tm); }
    assert c.orig.None?;
    hide Inv, Live, CellOk, Fits, Next, CellOf, Enabled, StillPreparing;
    CellHere(q, s, k);
    BeginCellIs(q, s, g, k);
    var es := if k.tm == g then StartOrig(q.id, q.tm, q.rms, q.payloads).es else None;
    var msgs := if k.tm == g && k.gen == c.known then [Ask(q.id, q.tm, q.rms, q.payloads, k.rm)] else [];
    BeginCell(q, k, c, g, es, msgs, prep);
  }

  lemma {:induction false} BeginLive(q: Query, s: Sys, g: Gen)
    requires q.Valid() && Inv(q, s) && Live(q, s) && Enabled(q, s, Begin(g))
    ensures Live(q, Next(q, s, Begin(g)))
  {
    var s' := Next(q, s, Begin(g));
    forall k: Link | k.rm in q.rms ensures CellOk(k, CellOf(q, s', k)) { BeginCells(q, s, g, k); }
    forall r | r in q.rms ensures VerdictOk(q, s', r) {
      assert LogOk(q, s, r);
      assert Entries(s', r) == Entries(s, r);
    }
    hide Inv, CellOk, CellOf;
    forall x: Gen ensures Awaits(q, s', x) {
      assert Awaits(q, s, x);
      if x == g && q.rms != [] { assert q.rms[0] in s'.tm(g).es.value.remaining; }
    }
  }

  lemma {:induction false} StepLive(q: Query, s: Sys, e: Event)
    requires q.Valid() && Inv(q, s) && Live(q, s) && Enabled(q, s, e)
    ensures Live(q, Next(q, s, e))
  {
    hide Inv, Live, Next;
    match e
    case Begin(g) => BeginLive(q, s, g);
    case TMReceive(l) => TMReceiveLive(q, s, l);
    case TMAdvance(g) => TMAdvanceLive(q, s, g);
    case TMAppend(group, gen) => TMAppendLive(q, s, group, gen);
    case TMElect => TMElectLive(q, s);
    case RMReceive(l, works) => RMReceiveLive(q, s, l, works);
    case RMStart(r, h) => RMStartLive(q, s, r, h);
    case RMAdvance(r, h) => RMAdvanceLive(q, s, r, h);
    case RMAppend(r, group, gen) => RMAppendLive(q, s, r, group, gen);
    case RMInsert(r) => RMInsertLive(q, s, r);
    case RMElect(r) => RMElectLive(q, s, r);
  }
}
