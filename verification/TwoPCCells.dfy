/** Why Paxos2PC does not get stuck, seen from one pair of leaderships: what the leadership of the
    transaction manager and the leadership of a resource manager at the two ends of a link know of
    each other, and what is still under way between them. */
module TwoPCCells {
  import opened Wrappers
  import opened TwoPCTypes
  import opened TwoPCResource
  import opened TwoPCSystem
  import opened TwoPCInvariant
  import opened TwoPCResourceSteps

  /** The two ends of a link: the execution at the transaction manager and the leadership of the
      group it `known`s; whether the leadership of the resource manager is `born`, its execution,
      the transaction manager it `knows` and whether it has `seen` the Prepared entry; the messages
      either way; and whether the original transaction manager is still preparing. */
  datatype Cell = Cell(
    tm: Option<TMState>, known: Gen,
    born: bool, es: Option<RMOuter>, knows: Gen, seen: bool,
    down: Chan<RMMessage>, up: Chan<TMMessage>,
    orig: Option<Gen>, prep: bool)

  /** Some message that satisfies `p` has not been delivered yet. */
  ghost predicate Unread<M(!new)>(c: Chan<M>, p: M -> bool) {
    exists k: nat :: c.recv <= k < |c.sent| && p(c.sent[k])
  }

  predicate Verdict(m: RMMessage) { m.Commit? || m.Abort? }

  /** The messages by which a transaction manager in state `es` asks. */
  function Questions(es: TMState): RMMessage -> bool {
    (m: RMMessage) => if es.Preparing? then m.Prepare? else m.CheckPrepared?
  }

  /** The messages that make a transaction manager in state `es` do something about the sender. */
  function Replies(es: TMState): TMMessage -> bool {
    (m: TMMessage) => m.Prepared? || m.Aborted? || (m.Wait? && es.CheckingPrepared?)
  }

  function Announcements(): TMMessage -> bool {
    (m: TMMessage) => m.InformPrepared?
  }

  /** Asked to prepare, and not yet answered. */
  predicate Unprepared(es: Option<RMOuter>) {
    es.Some? && es.value.Exec? && (es.value.state.WaitingInsertingPrepared? || es.value.state.InsertingPrepared?)
  }

  predicate Towards(es: Option<RMOuter>) { TowardsCommit(es) || TowardsAbort(es) }

  // ---------------------------------------------------------------------------------------------
  //  What holds of every cell
  // ---------------------------------------------------------------------------------------------

  predicate DownFits(q: Query, l: Link, c: Cell, k: nat, m: RMMessage) {
    Addressed(q, m) && c.orig.Some? && l.tm >= c.orig.value && l.gen <= c.known
    && (m.Prepare? ==> k == 0 && c.orig == Some(l.tm))
  }

  predicate UpFits(q: Query, l: Link, c: Cell, m: TMMessage) {
    c.orig.Some? && (m.Prepared? ==> m.rm == l.rm) && (m.InformPrepared? ==> m == InformPrepared(q.id, q.tm, q.rms))
  }

  predicate AskerFits(q: Query, l: Link, c: Cell, es: TMState) {
    es.query == q.id && es.all == q.rms && AsksOk(q, es)
    && c.orig.Some? && (es.Preparing? ==> c.orig == Some(l.tm))
  }

  /** What the invariant of the system says of a cell. */
  ghost predicate Fits(q: Query, l: Link, c: Cell) {
    && EsOk(q, c.es) && (!c.born ==> c.es.None?) && (c.born ==> (c.seen <==> Snapshot(c.es).Some?))
    && (c.es.Some? ==> c.orig.Some? && c.knows >= c.orig.value)
    && c.down.recv <= |c.down.sent| && c.up.recv <= |c.up.sent|
    && (forall k: nat | k < |c.down.sent| :: DownFits(q, l, c, k, c.down.sent[k]))
    && (forall k: nat | k < |c.up.sent| :: UpFits(q, l, c, c.up.sent[k]))
    && (c.tm.Some? ==> AskerFits(q, l, c, c.tm.value))
    && (c.orig == Some(l.tm) ==> (c.prep <==> c.tm.Some? && c.tm.value.Preparing?))
    && (c.orig.None? ==> !c.prep)
  }

  /** Who was told to commit has prepared, and whoever was asked is still asked or was told. */
  ghost predicate DownSide(l: Link, c: Cell) {
    && (!c.born ==> c.down.recv == 0)
    && (c.down.recv > 0 ==> c.knows >= l.tm)
    && (forall k: nat | k < |c.down.sent| ::
          (c.down.sent[k].Commit? ==> c.seen) && (Verdict(c.down.sent[k]) && c.orig == Some(l.tm) ==> !c.prep))
    && (c.down.sent != [] ==> c.known > l.gen || c.tm.Some? || Verdict(c.down.sent[|c.down.sent| - 1]))
  }

  ghost predicate UpSide(l: Link, c: Cell) {
    forall k: nat | k < |c.up.sent| :: (c.up.sent[k].Prepared? ==> c.seen) && (c.up.sent[k].Wait? ==> c.up.sent[k].rm == l.rm)
  }

  /** A manager that has prepared has been told nothing, and the transaction manager it knows has
      heard of it or will. */
  ghost predicate ExecSide(l: Link, c: Cell) {
    && (Unprepared(c.es) ==>
          c.orig == Some(c.es.value.state.orig) && (c.orig == Some(l.tm) ==> c.down.recv >= 1))
    && (Towards(c.es) ==> !c.prep || (c.orig.Some? && c.knows > c.orig.value))
    && (Unprepared(c.es) || InState(c.es, HasPrepared) ==>
          forall k: nat | k < |c.down.sent| && k < c.down.recv :: !Verdict(c.down.sent[k]))
    && (InState(c.es, HasPrepared) && c.knows == l.tm ==> Noticed(l, c))
  }

  ghost predicate Noticed(l: Link, c: Cell) {
    c.down.sent != [] || c.known > l.gen || Unread(c.up, Announcements()) || (c.tm.Some? && c.known == l.gen)
  }

  /** Every manager that has not answered is being asked, or its answer is under way. */
  ghost predicate AskSide(l: Link, c: Cell) {
    c.tm.Some? ==>
      && (l.rm !in c.tm.value.remaining && l.gen >= c.known ==> c.seen)
      && (l.rm in c.tm.value.remaining && l.gen == c.known ==> Pursued(l, c, c.tm.value))
  }

  ghost predicate Pursued(l: Link, c: Cell, es: TMState) {
    || (c.born && c.knows > l.tm) || Unread(c.down, Questions(es)) || Unread(c.up, Replies(es))
    || (es.Preparing? && Unprepared(c.es))
  }

  ghost predicate CellOk(l: Link, c: Cell) {
    DownSide(l, c) && UpSide(l, c) && ExecSide(l, c) && AskSide(l, c)
  }

  // ---------------------------------------------------------------------------------------------
  //  Channels
  // ---------------------------------------------------------------------------------------------

  lemma {:induction false} UnreadMore<M(!new)>(c: Chan<M>, c': Chan<M>, p: M -> bool)
    requires c'.recv == c.recv && |c.sent| <= |c'.sent| && c.sent == c'.sent[..|c.sent|]
    ensures Unread(c, p) ==> Unread(c', p)
  {
    if Unread(c, p) {
      var k: nat :| c.recv <= k < |c.sent| && p(c.sent[k]);
      assert c'.sent[k] == c.sent[k];
    }
  }

  lemma {:induction false} UnreadNew<M(!new)>(c: Chan<M>, x: M, p: M -> bool)
    requires c.recv <= |c.sent| && p(x)
    ensures Unread(Chan(c.sent + [x], c.recv), p)
  {
    assert (c.sent + [x])[|c.sent|] == x;
  }

  lemma {:induction false} UnreadTaken<M(!new)>(c: Chan<M>, p: M -> bool)
    requires c.recv < |c.sent| && Unread(c, p) && !p(c.sent[c.recv])
    ensures Unread(Chan(c.sent, c.recv + 1), p)
  {
    var k: nat :| c.recv <= k < |c.sent| && p(c.sent[k]);
    assert Chan(c.sent, c.recv + 1).sent[k] == c.sent[k];
  }

  // ---------------------------------------------------------------------------------------------
  //  Cells that only watch
  // ---------------------------------------------------------------------------------------------

  /** Logs grow and the original transaction manager stops preparing; what a leadership that acts
      knows changes by its own steps alone. */
  ghost predicate Drifts(c: Cell, c': Cell) {
    && c' == c.(known := c'.known, knows := c'.knows, seen := c'.seen, prep := c'.prep)
    && c.known <= c'.known && (c.tm.Some? ==> c'.known == c.known)
    && c.knows <= c'.knows && (c.born ==> c'.knows == c.knows)
    && (c.seen ==> c'.seen) && (c'.prep ==> c.prep)
  }

  lemma {:induction false} DriftKeeps(q: Query, l: Link, c: Cell, c': Cell)
    requires Fits(q, l, c) && CellOk(l, c) && Drifts(c, c')
    ensures CellOk(l, c')
  {
  }

  // ---------------------------------------------------------------------------------------------
  //  A message reaches a resource manager
  // ---------------------------------------------------------------------------------------------

  /** The cell after its resource manager took a step to `es` and said `msgs` over the link. */
  function Acted(c: Cell, es: Option<RMOuter>, msgs: seq<TMMessage>): Cell {
    c.(es := es, up := Chan(c.up.sent + msgs, c.up.recv))
  }

  function Taken(c: Cell): Cell {
    c.(down := Chan(c.down.sent, c.down.recv + 1))
  }

  /** What a message does to an execution, as far as a transaction manager can tell. */
  ghost predicate Replied(q: Query, l: Link, es: Option<RMOuter>, m: RMMessage, es': Option<RMOuter>, msgs: seq<TMMessage>) {
    && (msgs == [] || (|msgs| == 1 && (msgs[0].Prepared? || msgs[0].Aborted? || msgs[0].Wait?) && msgs[0].rm == l.rm))
    && (msgs != [] && msgs[0].Prepared? ==> Snapshot(es).Some?)
    && (m.CheckPrepared? ==> msgs != [] && es' == es)
    && (m.Prepare? ==>
          || (es.None? && Unprepared(es') && es'.value.state == WaitingInsertingPrepared(l.tm) && msgs == [])
          || (es' == es && ((msgs != [] && !msgs[0].Wait?) || Unprepared(es) || Towards(es))))
    && (m.Commit? ==> msgs == [] && (if InState(es, HasPrepared) then InState(es', InsertingCommitted) else es' == es))
    && (m.Abort? ==> msgs == [] && (if Unprepared(es) || InState(es, HasPrepared) then es'.None? || Towards(es') else es' == es))
  }

  lemma {:induction false} MessageReplies(q: Query, l: Link, leaders: LeaderMap, es: Option<RMOuter>, m: RMMessage, works: bool)
    requires EsOk(q, es) && Addressed(q, m) && GenOf(leaders, q.tm.group) == l.tm
    ensures var o := OnRMMessage(l.rm, leaders, es, m, works);
      && |o.sends| <= 1 && (o.sends != [] ==> o.sends[0].tm == q.tm)
      && Replied(q, l, es, m, o.es, if o.sends == [] then [] else [o.sends[0].msg])
  {
    var o := OnRMMessage(l.rm, leaders, es, m, works);
    var msgs := if o.sends == [] then [] else [o.sends[0].msg];
    assert Replied(q, l, es, m, o.es, msgs);
  }

  /** The cell over whose link the message came. */
  ghost predicate Receives(q: Query, l: Link, c: Cell, es': Option<RMOuter>, msgs: seq<TMMessage>) {
    && Fits(q, l, c) && CellOk(l, c) && c.born && c.knows == l.tm && c.down.recv < |c.down.sent|
    && Replied(q, l, c.es, c.down.sent[c.down.recv], es', msgs)
  }

  lemma {:induction false} ReceivedDown(q: Query, l: Link, c: Cell, es': Option<RMOuter>, msgs: seq<TMMessage>)
    requires Receives(q, l, c, es', msgs)
    ensures var c' := Acted(Taken(c), es', msgs); DownSide(l, c') && UpSide(l, c')
  {
    hide Unread;
  }

  /** A Commit finds a manager that has prepared, and any verdict finds the original transaction
      manager no longer preparing. */
  lemma {:induction false} VerdictFinds(q: Query, l: Link, c: Cell, es': Option<RMOuter>, msgs: seq<TMMessage>)
    requires Receives(q, l, c, es', msgs) && Verdict(c.down.sent[c.down.recv])
    ensures !Unprepared(es') && !InState(es', HasPrepared)
    ensures !c.prep || (c.orig.Some? && c.knows > c.orig.value)
  {
    assert DownFits(q, l, c, c.down.recv, c.down.sent[c.down.recv]);
    hide Unread;
  }

  lemma {:induction false} ReceivedExec(q: Query, l: Link, c: Cell, es': Option<RMOuter>, msgs: seq<TMMessage>)
    requires Receives(q, l, c, es', msgs)
    ensures ExecSide(l, Acted(Taken(c), es', msgs))
  {
    var m := c.down.sent[c.down.recv];
    assert DownFits(q, l, c, c.down.recv, m);
    hide Unread;
    if Verdict(m) { VerdictFinds(q, l, c, es', msgs); }
  }

  /** A question is answered, or is being acted upon. */
  lemma {:induction false} ReceivedAsk(q: Query, l: Link, c: Cell, es': Option<RMOuter>, msgs: seq<TMMessage>)
    requires Receives(q, l, c, es', msgs)
    ensures AskSide(l, Acted(Taken(c), es', msgs))
  {
    var c' := Acted(Taken(c), es', msgs);
    if c.tm.Some? && l.rm in c.tm.value.remaining && l.gen == c.known {
      var es, m := c.tm.value, c.down.sent[c.down.recv];
      UnreadMore(c.up, c'.up, Replies(es));
      if msgs != [] && Replies(es)(msgs[0]) {
        UnreadNew(c.up, msgs[0], Replies(es));
        assert c.up.sent + [msgs[0]] == c'.up.sent;
      } else if Unread(c.down, Questions(es)) && !Questions(es)(m) {
        UnreadTaken(c.down, Questions(es));
      } else {
        StillPursued(q, l, c, es', msgs);
      }
    }
  }

  lemma {:induction false} StillPursued(q: Query, l: Link, c: Cell, es': Option<RMOuter>, msgs: seq<TMMessage>)
    requires Receives(q, l, c, es', msgs) && c.tm.Some? && l.rm in c.tm.value.remaining && l.gen == c.known
    requires !(msgs != [] && Replies(c.tm.value)(msgs[0]))
    requires Unread(c.down, Questions(c.tm.value)) ==> Questions(c.tm.value)(c.down.sent[c.down.recv])
    ensures Unread(c.up, Replies(c.tm.value)) || (c.tm.value.Preparing? && Unprepared(es'))
  {
    var m := c.down.sent[c.down.recv];
    assert DownFits(q, l, c, c.down.recv, m);
    if Verdict(m) { VerdictFinds(q, l, c, es', msgs); }
    hide Unread;
  }

  lemma {:induction false} ReceivedCell(q: Query, l: Link, c: Cell, es': Option<RMOuter>, msgs: seq<TMMessage>)
    requires Receives(q, l, c, es', msgs)
    ensures CellOk(l, Acted(Taken(c), es', msgs))
  {
    hide Receives, DownSide, UpSide, ExecSide, AskSide;
    ReceivedDown(q, l, c, es', msgs);
    ReceivedExec(q, l, c, es', msgs);
    ReceivedAsk(q, l, c, es', msgs);
  }

  /** The other links of the same leadership of the resource manager. */
  lemma {:induction false} Beside(q: Query, l: Link, c: Cell, es': Option<RMOuter>, msgs: seq<TMMessage>, k: Link, d: Cell)
    requires Receives(q, l, c, es', msgs) && k.rm == l.rm && k.gen == l.gen && k.tm != l.tm
    requires Fits(q, k, d) && CellOk(k, d) && d.born && d.es == c.es && d.knows == c.knows && d.seen == c.seen
    requires d.orig == c.orig && d.prep == c.prep
    ensures CellOk(k, d.(es := es'))
  {
    var m := c.down.sent[c.down.recv];
    assert DownFits(q, l, c, c.down.recv, m);
    hide Unread;
    if Verdict(m) { VerdictFinds(q, l, c, es', msgs); }
    assert forall j: nat | j < |d.down.sent| && Verdict(d.down.sent[j]) :: DownFits(q, k, d, j, d.down.sent[j]);
  }

  // ---------------------------------------------------------------------------------------------
  //  A resource manager moves on by itself
  // ---------------------------------------------------------------------------------------------

  lemma {:induction false} StartCell(q: Query, l: Link, c: Cell)
    requires Fits(q, l, c) && CellOk(l, c)
    ensures CellOk(l, c.(es := StartInserting(c.es).es))
  {
    hide Unread;
  }

  /** A leadership of the resource manager learns of another leadership of the transaction manager. */
  lemma {:induction false} RemoteCell(q: Query, l: Link, c: Cell, knows: Gen, msgs: seq<TMMessage>)
    requires Fits(q, l, c) && CellOk(l, c) && c.born && c.knows <= knows
    requires msgs == [] || msgs == [InformPrepared(q.id, q.tm, q.rms)]
    requires InState(c.es, HasPrepared) && c.knows < knows == l.tm ==> msgs != []
    ensures CellOk(l, Acted(c.(knows := knows), c.es, msgs))
  {
    var c' := Acted(c.(knows := knows), c.es, msgs);
    UnreadMore(c.up, c'.up, Announcements());
    if c.tm.Some? { UnreadMore(c.up, c'.up, Replies(c.tm.value)); }
    if msgs != [] { UnreadNew(c.up, msgs[0], Announcements()); }
    hide Unread;
  }

  /** What seeing an entry does to an execution. */
  ghost predicate Inserted(q: Query, l: Link, es: Option<RMOuter>, knows: Gen, es': Option<RMOuter>, msgs: seq<TMMessage>) {
    && es.Some? && es.value.Exec? && !Unprepared(es') && Snapshot(es').Some?
    && (InState(es', HasPrepared) ==>
          Unprepared(es)
          && msgs == [if es.value.state.orig != knows then InformPrepared(q.id, q.tm, q.rms) else Prepared(q.id, l.rm)])
    && (!InState(es', HasPrepared) ==> msgs == [] && Towards(es) && Towards(es'))
  }

  lemma {:induction false} EntryInserts(q: Query, l: Link, leaders: LeaderMap, es: Option<RMOuter>, p: RMPlm)
    requires EsOk(q, es) && Expected(q, es) == [p]
    requires PlmFinds(true, es, p)
    ensures var o := OnRMPlm(l.rm, leaders, true, es, p);
      && |o.sends| <= 1 && (o.sends != [] ==> o.sends[0].tm == q.tm)
      && Inserted(q, l, es, GenOf(leaders, q.tm.group), o.es, if o.sends == [] then [] else [o.sends[0].msg])
  {
  }

  /** The messages go over the link if it leads to the transaction manager that is known. */
  lemma {:induction false} EntryCell(q: Query, l: Link, c: Cell, es': Option<RMOuter>, msgs: seq<TMMessage>)
    requires Fits(q, l, c) && CellOk(l, c) && c.born && Inserted(q, l, c.es, c.knows, es', msgs)
    ensures CellOk(l, Acted(c.(seen := true), es', if c.knows == l.tm then msgs else []))
  {
    var c' := Acted(c.(seen := true), es', if c.knows == l.tm then msgs else []);
    UnreadMore(c.up, c'.up, Announcements());
    if c.tm.Some? { UnreadMore(c.up, c'.up, Replies(c.tm.value)); }
    if c.knows == l.tm && msgs != [] {
      if msgs[0].InformPrepared? {
        UnreadNew(c.up, msgs[0], Announcements());
      } else if c.tm.Some? {
        UnreadNew(c.up, msgs[0], Replies(c.tm.value));
      }
    }
    hide Unread;
  }

  /** A new leadership starts. */
  lemma {:induction false} ElectCell(q: Query, l: Link, c: Cell, es': Option<RMOuter>, msgs: seq<TMMessage>)
    requires Fits(q, l, c) && CellOk(l, c) && !c.born && !Unprepared(es')
    requires Towards(es') ==> !c.prep || (c.orig.Some? && c.knows > c.orig.value)
    requires msgs == (if InState(es', HasPrepared) then [InformPrepared(q.id, q.tm, q.rms)] else [])
    ensures CellOk(l, Acted(c.(born := true), es', if c.knows == l.tm then msgs else []))
  {
    var c' := Acted(c.(born := true), es', if c.knows == l.tm then msgs else []);
    UnreadMore(c.up, c'.up, Announcements());
    if c.tm.Some? { UnreadMore(c.up, c'.up, Replies(c.tm.value)); }
    if c.knows == l.tm && msgs != [] { UnreadNew(c.up, msgs[0], Announcements()); }
    hide Unread;
  }

  // ---------------------------------------------------------------------------------------------
  //  A transaction manager acts
  // ---------------------------------------------------------------------------------------------

  /** The cell after its transaction manager took a step to `es`, having perhaps taken a message
      from the link, and put `msgs` on it. */
  function Turned(c: Cell, took: bool, es: Option<TMState>, msgs: seq<RMMessage>, prep: bool): Cell {
    c.(tm := es, down := Chan(c.down.sent + msgs, c.down.recv),
       up := Chan(c.up.sent, c.up.recv + if took then 1 else 0), prep := prep)
  }

  /** `m` reaches the transaction manager of the cell, over the link of the cell if `took`. */
  ghost predicate Hears(q: Query, l: Link, c: Cell, took: bool, m: TMMessage, es': Option<TMState>, prep': bool) {
    && Fits(q, l, c) && CellOk(l, c)
    && (took ==> c.up.recv < |c.up.sent| && c.up.sent[c.up.recv] == m && l.gen == c.known)
    && (prep' ==> c.prep) && (c.orig == Some(l.tm) ==> (prep' <==> es'.Some? && es'.value.Preparing?))
  }

  lemma {:induction false} HeardUp(q: Query, l: Link, c: Cell, took: bool, m: TMMessage, p: TMMessage -> bool)
    requires Unread(c.up, p)
    requires took ==> c.up.recv < |c.up.sent| && c.up.sent[c.up.recv] == m && !p(m)
    ensures Unread(Chan(c.up.sent, c.up.recv + if took then 1 else 0), p)
  {
    if took { UnreadTaken(c.up, p); } else { UnreadMore(c.up, Chan(c.up.sent, c.up.recv), p); }
  }

  /** What stays said on either side, whatever the transaction manager does. */
  lemma {:induction false} HeardNotices(q: Query, l: Link, c: Cell, took: bool, m: TMMessage, es': Option<TMState>, msgs: seq<RMMessage>, prep': bool)
    requires Hears(q, l, c, took, m, es', prep')
    requires Noticed(l, c)
    requires took && m.InformPrepared? ==> es'.Some?
    requires c.tm.Some? && c.known == l.gen ==> es'.Some? || msgs != []
    ensures Noticed(l, Turned(c, took, es', msgs, prep'))
  {
    if Unread(c.up, Announcements()) && !(took && m.InformPrepared?) { HeardUp(q, l, c, took, m, Announcements()); }
  }

  /** Nothing happens but that a message is taken which asks for nothing. */
  lemma {:induction false} KeptCell(q: Query, l: Link, c: Cell, took: bool, m: TMMessage, prep': bool)
    requires Hears(q, l, c, took, m, c.tm, prep')
    requires c.tm.Some? && took ==> !Replies(c.tm.value)(m)
    requires c.tm.None? && took ==> !m.InformPrepared?
    ensures CellOk(l, Turned(c, took, c.tm, [], prep'))
  {
    var c' := Turned(c, took, c.tm, [], prep');
    assert c'.down == c.down;
    if Noticed(l, c) { HeardNotices(q, l, c, took, m, c.tm, [], prep'); }
    if c.tm.Some? && Unread(c.up, Replies(c.tm.value)) { HeardUp(q, l, c, took, m, Replies(c.tm.value)); }
    hide Unread, Noticed;
  }

  /** A transaction manager that knew nothing begins to check. */
  lemma {:induction false} CheckCell(q: Query, l: Link, c: Cell, took: bool, m: TMMessage, es: TMState, msgs: seq<RMMessage>, prep': bool)
    requires Hears(q, l, c, took, m, Some(es), prep') && c.tm.None? && es.CheckingPrepared? && l.rm in es.remaining
    requires msgs == if l.gen == c.known then [CheckPrepared(q.id, q.tm)] else []
    ensures CellOk(l, Turned(c, took, Some(es), msgs, prep'))
  {
    if Noticed(l, c) { HeardNotices(q, l, c, took, m, Some(es), msgs, prep'); }
    if l.gen == c.known { UnreadNew(c.down, CheckPrepared(q.id, q.tm), Questions(es)); }
    hide Unread, Noticed;
  }

  /** A manager has answered that it prepared. */
  lemma {:induction false} AnsweredCell(q: Query, l: Link, c: Cell, took: bool, m: TMMessage, es: TMState, prep': bool)
    requires c.tm.Some? && m.Prepared? && es == c.tm.value.(remaining := c.tm.value.remaining - {m.rm})
    requires Hears(q, l, c, took, m, Some(es), prep')
    requires m.rm == l.rm && l.gen >= c.known ==> c.seen
    ensures CellOk(l, Turned(c, took, Some(es), [], prep'))
  {
    var c' := Turned(c, took, Some(es), [], prep');
    assert c'.down == c.down;
    if Noticed(l, c) { HeardNotices(q, l, c, took, m, Some(es), [], prep'); }
    assert AskSide(l, c') by { AnsweredAsk(q, l, c, took, m, es, prep'); }
    hide Unread, Noticed, AskSide, Pursued;
  }

  lemma {:induction false} AnsweredAsk(q: Query, l: Link, c: Cell, took: bool, m: TMMessage, es: TMState, prep': bool)
    requires c.tm.Some? && m.Prepared? && es == c.tm.value.(remaining := c.tm.value.remaining - {m.rm})
    requires Hears(q, l, c, took, m, Some(es), prep')
    requires m.rm == l.rm && l.gen >= c.known ==> c.seen
    ensures AskSide(l, Turned(c, took, Some(es), [], prep'))
  {
    var c' := Turned(c, took, Some(es), [], prep');
    assert c'.down == c.down;
    assert l.rm in es.remaining ==> l.rm != m.rm && l.rm in c.tm.value.remaining;
    assert AskSide(l, c);
    if took { assert UpFits(q, l, c, m); }
    if Unread(c.up, Replies(c.tm.value)) && !took {
      HeardUp(q, l, c, took, m, Replies(c.tm.value));
      SameReplies(c'.up, c.tm.value, es);
    }
    SameQuestions(c.down, c.tm.value, es);
    hide Unread, Noticed, DownSide, UpSide, ExecSide, Fits;
  }

  lemma {:induction false} SameReplies(u: Chan<TMMessage>, es: TMState, es': TMState)
    requires es.Preparing? == es'.Preparing?
    ensures Unread(u, Replies(es)) ==> Unread(u, Replies(es'))
  {
    if Unread(u, Replies(es)) {
      var k: nat :| u.recv <= k < |u.sent| && Replies(es)(u.sent[k]);
      assert Replies(es')(u.sent[k]);
    }
  }

  lemma {:induction false} SameQuestions(d: Chan<RMMessage>, es: TMState, es': TMState)
    requires es.Preparing? == es'.Preparing?
    ensures Unread(d, Questions(es)) ==> Unread(d, Questions(es'))
  {
    if Unread(d, Questions(es)) {
      var k: nat :| d.recv <= k < |d.sent| && Questions(es)(d.sent[k]);
      assert Questions(es')(d.sent[k]);
    }
  }

  /** The transaction manager decides and forgets. */
  lemma {:induction false} VerdictCell(q: Query, l: Link, c: Cell, took: bool, m: TMMessage, v: RMMessage, msgs: seq<RMMessage>, prep': bool)
    requires Hears(q, l, c, took, m, None, prep') && c.tm.Some? && Verdict(v)
    requires !m.InformPrepared? && (v.Commit? && l.gen == c.known ==> c.seen)
    requires msgs == if l.gen == c.known then [v] else []
    ensures CellOk(l, Turned(c, took, None, msgs, prep'))
  {
    if Noticed(l, c) { HeardNotices(q, l, c, took, m, None, msgs, prep'); }
    assert c.down.sent != [] ==> DownFits(q, l, c, 0, c.down.sent[0]);
    hide Unread, Noticed;
  }

  /** A manager that asks for patience is asked again. */
  lemma {:induction false} WaitCell(q: Query, l: Link, c: Cell, took: bool, m: TMMessage, msgs: seq<RMMessage>, prep': bool)
    requires Hears(q, l, c, took, m, c.tm, prep') && m.Wait? && c.tm.Some? && c.tm.value.CheckingPrepared?
    requires msgs == [] || (|msgs| == 1 && msgs[0].CheckPrepared?)
    requires l.rm in c.tm.value.remaining && m.rm == l.rm && l.gen == c.known ==> msgs != []
    ensures CellOk(l, Turned(c, took, c.tm, msgs, prep'))
  {
    var c' := Turned(c, took, c.tm, msgs, prep');
    var es := c.tm.value;
    if Noticed(l, c) { HeardNotices(q, l, c, took, m, c.tm, msgs, prep'); }
    UnreadMore(c.down, c'.down, Questions(es));
    if Unread(c.up, Replies(es)) && !took { HeardUp(q, l, c, took, m, Replies(es)); }
    if msgs != [] { UnreadNew(c.down, msgs[0], Questions(es)); }
    hide Unread, Noticed;
  }

  /** The transaction manager learns of a new leadership of the group and asks it what is open. */
  ghost predicate AsksAnew(q: Query, l: Link, c: Cell, known: Gen, msgs: seq<RMMessage>) {
    && Fits(q, l, c) && CellOk(l, c) && c.known <= known
    && msgs == if c.tm.Some? && c.known < known && l.gen == known && l.rm in c.tm.value.remaining
               then [c.tm.value.remaining[l.rm]] else []
  }

  function Resent(c: Cell, known: Gen, msgs: seq<RMMessage>): Cell {
    c.(known := known, down := Chan(c.down.sent + msgs, c.down.recv))
  }

  lemma {:induction false} ResentDown(q: Query, l: Link, c: Cell, known: Gen, msgs: seq<RMMessage>)
    requires AsksAnew(q, l, c, known, msgs)
    ensures DownSide(l, Resent(c, known, msgs)) && UpSide(l, Resent(c, known, msgs))
  {
    hide Unread, Pursued, Noticed, ExecSide, EsOk;
    if c.down.sent != [] { assert DownFits(q, l, c, 0, c.down.sent[0]); }
  }

  lemma {:induction false} ResentExec(q: Query, l: Link, c: Cell, known: Gen, msgs: seq<RMMessage>)
    requires AsksAnew(q, l, c, known, msgs)
    ensures ExecSide(l, Resent(c, known, msgs))
  {
    hide Unread, Pursued, AskSide, DownSide, UpSide, EsOk;
    assert Resent(c, known, msgs).up == c.up;
  }

  lemma {:induction false} ResentAsk(q: Query, l: Link, c: Cell, known: Gen, msgs: seq<RMMessage>)
    requires AsksAnew(q, l, c, known, msgs)
    ensures AskSide(l, Resent(c, known, msgs))
  {
    var c' := Resent(c, known, msgs);
    hide ExecSide, DownSide, UpSide, EsOk;
    if c.tm.Some? {
      assert AskerFits(q, l, c, c.tm.value);
      UnreadMore(c.down, c'.down, Questions(c.tm.value));
      if msgs != [] { UnreadNew(c.down, msgs[0], Questions(c.tm.value)); }
      hide Unread;
    }
  }

  lemma {:induction false} ResentCell(q: Query, l: Link, c: Cell, known: Gen, msgs: seq<RMMessage>)
    requires AsksAnew(q, l, c, known, msgs)
    ensures CellOk(l, Resent(c, known, msgs))
  {
    ResentDown(q, l, c, known, msgs);
    ResentExec(q, l, c, known, msgs);
    ResentAsk(q, l, c, known, msgs);
  }

  /** The original start: nothing has happened before. */
  lemma {:induction false} BeginCell(q: Query, l: Link, c: Cell, g: Gen, es: Option<TMState>, msgs: seq<RMMessage>, prep: bool)
    requires Fits(q, l, c) && CellOk(l, c) && c.orig.None?
    requires es.Some? ==> es.value.Preparing? && l.rm in es.value.remaining
    requires if es.Some? && l.gen == c.known then |msgs| == 1 && msgs[0].Prepare? else msgs == []
    ensures CellOk(l, Turned(c, false, es, msgs, prep).(orig := Some(g)))
  {
    assert c.down.sent != [] ==> DownFits(q, l, c, 0, c.down.sent[0]);
    assert c.up.sent != [] ==> UpFits(q, l, c, c.up.sent[0]);
    assert c.tm.Some? ==> AskerFits(q, l, c, c.tm.value);
    if msgs != [] {
      UnreadNew(c.down, msgs[0], Questions(es.value));
      assert c.down.sent + [msgs[0]] == c.down.sent + msgs;
    }
    hide Unread;
  }
}
