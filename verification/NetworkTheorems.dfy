/** One local leadership receiving from remote groups through the network filter, with the handling
    of inserted leader changes around it (src/master.rs:583-621). */
module NetworkTheorems {
  import opened Wrappers
  import opened PaxosTypes
  import opened TwoPCTypes
  import opened NetworkDriver

  /** The state of the leadership: the filter, the leader map, the leader changes waiting to be
      inserted, and what has been received and delivered so far. */
  datatype Net<P> = Net(
    buffer: Buffer<P>,
    leaders: map<GroupId, LeadershipId>,
    queued: seq<Change>,
    received: seq<RemoteMessage<P>>,
    delivered: seq<RemoteMessage<P>>)

  datatype Event<P> =
    | Arrive(m: RemoteMessage<P>)
    | Inserted(changes: seq<Change>)
    | Gossip(change: Change)
    | NewGroup(gid: GroupId, lid: LeadershipId)

  function Received<P>(n: Net<P>, m: RemoteMessage<P>): Net<P>
    requires m.fromGid in n.buffer && m.fromGid in n.leaders
  {
    var f := Filter(n.buffer[m.fromGid], n.leaders[m.fromGid].gen, m);
    n.(buffer := n.buffer[m.fromGid := f.buffer],
       queued := n.queued + (if f.change.Some? then [f.change.value] else []),
       received := n.received + [m],
       delivered := n.delivered + (if f.out.Some? then [f.out.value] else []))
  }

  /** A bundle's leader changes first all take effect, each only if it is newer ... */
  function Adopted(leaders: map<GroupId, LeadershipId>, cs: seq<Change>): map<GroupId, LeadershipId> {
    if cs == [] then leaders
    else
      var ls := Adopted(leaders, cs[..|cs| - 1]);
      var c := cs[|cs| - 1];
      if c.gid in ls && c.lid.gen > ls[c.gid].gen then ls[c.gid := c.lid] else ls
  }

  /** ... and then release what they blocked, if they name the current leadership. */
  function Released<P>(n: Net<P>, c: Change): Net<P> {
    if c.gid in n.leaders && c.gid in n.buffer && c.lid.gen == n.leaders[c.gid].gen then
      var u := Unblock(n.buffer[c.gid], c.lid.gen);
      n.(buffer := n.buffer[c.gid := u.0], delivered := n.delivered + u.1)
    else n
  }

  function ReleasedAll<P>(n: Net<P>, cs: seq<Change>): Net<P> {
    if cs == [] then n else Released(ReleasedAll(n, cs[..|cs| - 1]), cs[|cs| - 1])
  }

  /** The changes still waiting after those in `cs` have been inserted. */
  function Waiting(queued: seq<Change>, cs: seq<Change>): seq<Change> {
    if queued == [] then []
    else
      var c := queued[|queued| - 1];
      Waiting(queued[..|queued| - 1], cs) + if c in cs then [] else [c]
  }

  function Next<P>(n: Net<P>, e: Event<P>): Net<P>
    requires e.Arrive? ==> e.m.fromGid in n.buffer && e.m.fromGid in n.leaders
  {
    match e
    case Arrive(m) => Received(n, m)
    case Inserted(cs) =>
      ReleasedAll(n.(leaders := Adopted(n.leaders, cs), queued := Waiting(n.queued, cs)), cs)
    case Gossip(c) =>
      if c.gid in n.leaders && c.lid.gen > n.leaders[c.gid].gen then n.(queued := n.queued + [c]) else n
    case NewGroup(g, lid) => n.(leaders := n.leaders[g := lid], buffer := n.buffer[g := []])
  }

  /** A message comes from a known group; a group is added once, before it is heard of. */
  predicate Enabled<P>(n: Net<P>, e: Event<P>) {
    match e
    case Arrive(m) => m.fromGid in n.leaders && m.fromGid in n.buffer
    case Inserted(_) => true
    case Gossip(_) => true
    case NewGroup(g, _) => g !in n.leaders
  }

  ghost predicate Run<P(!new)>(states: seq<Net<P>>, events: seq<Event<P>>) {
    && |states| == |events| + 1
    && states[0] == Net(map g | g in states[0].leaders :: [], states[0].leaders, [], [], [])
    && forall k | 0 <= k < |events| ::
         Enabled(states[k], events[k]) && states[k + 1] == Next(states[k], events[k])
  }

  /** The messages of leadership `gen` of group `g`, in order. */
  function Of<P>(ms: seq<RemoteMessage<P>>, g: GroupId, gen: nat): seq<RemoteMessage<P>> {
    if ms == [] then []
    else
      var m := ms[|ms| - 1];
      Of(ms[..|ms| - 1], g, gen) + if m.fromGid == g && m.fromLid.gen == gen then [m] else []
  }

  predicate IsPrefix<T(==)>(a: seq<T>, b: seq<T>) {
    |a| <= |b| && a == b[..|a|]
  }

  lemma {:induction false} OfConcat<P>(a: seq<RemoteMessage<P>>, b: seq<RemoteMessage<P>>, g: GroupId, gen: nat)
    ensures Of(a + b, g, gen) == Of(a, g, gen) + Of(b, g, gen)
  {
    if b == [] {
      assert a + b == a;
    } else {
      var init := b[..|b| - 1];
      OfConcat(a, init, g, gen);
      assert (a + b)[..|a + b| - 1] == a + init;
    }
  }

  lemma {:induction false} OfSame<P>(b: seq<RemoteMessage<P>>, h: GroupId, x: nat, g: GroupId, gen: nat)
    requires forall k | 0 <= k < |b| :: b[k].fromGid == h && b[k].fromLid.gen == x
    ensures Of(b, g, gen) == if g == h && gen == x then b else []
  {
    if b != [] { OfSame(b[..|b| - 1], h, x, g, gen); }
  }

  /** What the filter has promised for group `g` so far, with `c` the generation in its leader map. */
  ghost predicate Promised<P(!new)>(n: Net<P>, g: GroupId, c: nat)
    requires g in n.buffer
  {
    && (forall x: nat :: IsPrefix(Of(n.delivered, g, x), Of(n.received, g, x)))
    && (forall x: nat | x > c :: Of(n.delivered, g, x) == [])
    && BufferHolds(n, g)
  }

  /** A buffer holds everything received from one leadership, and nothing newer was received. */
  ghost predicate BufferHolds<P(!new)>(n: Net<P>, g: GroupId)
    requires g in n.buffer
  {
    var b := n.buffer[g];
    b != [] ==>
      && (forall k | 0 <= k < |b| :: b[k].fromGid == g && b[k].fromLid.gen == b[0].fromLid.gen)
      && Of(n.received, g, b[0].fromLid.gen) == b
      && forall x: nat | x > b[0].fromLid.gen :: Of(n.received, g, x) == []
  }

  /** With nothing buffered, the current leadership is delivered as it arrives. */
  ghost predicate Current<P(!new)>(n: Net<P>, g: GroupId, c: nat)
    requires g in n.buffer
  {
    if n.buffer[g] == [] then
      Of(n.delivered, g, c) == Of(n.received, g, c) && forall x: nat | x > c :: Of(n.received, g, x) == []
    else n.buffer[g][0].fromLid.gen > c
  }

  predicate Queued<P>(n: Net<P>, g: GroupId)
    requires g in n.buffer
  {
    n.buffer[g] != [] ==> exists k :: 0 <= k < |n.queued| && n.queued[k].gid == g
                                      && n.queued[k].lid.gen == n.buffer[g][0].fromLid.gen
  }

  ghost predicate GroupOk<P(!new)>(n: Net<P>, g: GroupId)
    requires g in n.buffer && g in n.leaders
  {
    Promised(n, g, n.leaders[g].gen) && Current(n, g, n.leaders[g].gen) && Queued(n, g)
  }

  ghost predicate Inv<P(!new)>(n: Net<P>) {
    && n.buffer.Keys == n.leaders.Keys
    && (forall g | g in n.leaders :: GroupOk(n, g))
    && (forall g, x: nat | g !in n.leaders :: Of(n.received, g, x) == [] && Of(n.delivered, g, x) == [])
    && Ordered(n)
  }

  /** Deliveries are in order and do not run ahead of the leader map. */
  ghost predicate Ordered<P(!new)>(n: Net<P>) {
    && InOrder(n.delivered)
    && forall k | 0 <= k < |n.delivered| ::
         n.delivered[k].fromGid in n.leaders && n.delivered[k].fromLid.gen <= n.leaders[n.delivered[k].fromGid].gen
  }

  /** Each group's leaderships are delivered in increasing order of generation. */
  predicate InOrder<P>(ms: seq<RemoteMessage<P>>) {
    forall j, k | 0 <= j < k < |ms| && ms[j].fromGid == ms[k].fromGid :: ms[j].fromLid.gen <= ms[k].fromLid.gen
  }

  // ---------------------------------------------------------------------------------------------
  //  A message arrives
  // ---------------------------------------------------------------------------------------------

  lemma {:induction false} OfOne<P>(ms: seq<RemoteMessage<P>>, m: RemoteMessage<P>, g: GroupId, x: nat)
    ensures Of(ms + [m], g, x) == Of(ms, g, x) + (if m.fromGid == g && m.fromLid.gen == x then [m] else [])
  {
    assert (ms + [m])[..|ms|] == ms;
  }

  lemma {:induction false} ArriveShape<P(!new)>(n: Net<P>, m: RemoteMessage<P>)
    requires m.fromGid in n.buffer && m.fromGid in n.leaders
    ensures var n' := Received(n, m);
      && n'.received == n.received + [m] && n'.leaders == n.leaders && n'.buffer.Keys == n.buffer.Keys
      && (n'.delivered == n.delivered
          || (n'.delivered == n.delivered + [m] && m.fromLid.gen == n.leaders[m.fromGid].gen))
      && IsPrefix(n.queued, n'.queued)
      && forall g | g in n.buffer && g != m.fromGid :: n'.buffer[g] == n.buffer[g]
  {
    assert n.delivered + [] == n.delivered;
  }

  /** What arrives from one group is of no concern to another. */
  lemma {:induction false} ArriveElsewhere<P(!new)>(n: Net<P>, m: RemoteMessage<P>, g: GroupId)
    requires m.fromGid in n.buffer && m.fromGid in n.leaders && g != m.fromGid
    ensures var n' := Received(n, m);
      forall x: nat :: Of(n'.received, g, x) == Of(n.received, g, x) && Of(n'.delivered, g, x) == Of(n.delivered, g, x)
  {
    var n' := Received(n, m);
    ArriveShape(n, m);
    hide Received, Of;
    forall x: nat ensures Of(n'.received, g, x) == Of(n.received, g, x) && Of(n'.delivered, g, x) == Of(n.delivered, g, x) {
      OfOne(n.received, m, g, x);
      OfOne(n.delivered, m, g, x);
    }
  }

  lemma {:induction false} SameGroup<P(!new)>(n: Net<P>, n': Net<P>, g: GroupId)
    requires g in n.buffer && g in n.leaders && GroupOk(n, g)
    requires g in n'.buffer && n'.buffer[g] == n.buffer[g] && g in n'.leaders && n'.leaders[g] == n.leaders[g]
    requires forall x: nat :: Of(n'.received, g, x) == Of(n.received, g, x) && Of(n'.delivered, g, x) == Of(n.delivered, g, x)
    requires IsPrefix(n.queued, n'.queued)
    ensures GroupOk(n', g)
  {
    if n.buffer[g] != [] {
      var k :| 0 <= k < |n.queued| && n.queued[k].gid == g && n.queued[k].lid.gen == n.buffer[g][0].fromLid.gen;
      assert n'.queued[k] == n.queued[k];
    }
  }

  /** What has been received and delivered from the sender of `m` once it has arrived. */
  ghost predicate Arrived<P(!new)>(n: Net<P>, m: RemoteMessage<P>, n': Net<P>)
    requires m.fromGid in n.buffer && m.fromGid in n.leaders
  {
    var g, y := m.fromGid, m.fromLid.gen;
    && (forall x: nat | x != y :: Of(n'.received, g, x) == Of(n.received, g, x) && Of(n'.delivered, g, x) == Of(n.delivered, g, x))
    && Of(n'.received, g, y) == Of(n.received, g, y) + [m]
    && Of(n'.delivered, g, y) == Of(n.delivered, g, y) + (if n.buffer[g] == [] && y == n.leaders[g].gen then [m] else [])
  }

  lemma {:induction false} ArriveIsArrived<P(!new)>(n: Net<P>, m: RemoteMessage<P>)
    requires m.fromGid in n.buffer && m.fromGid in n.leaders
    ensures Arrived(n, m, Received(n, m))
  {
    var n', g := Received(n, m), m.fromGid;
    assert n.delivered + [] == n.delivered;
    forall x: nat
      ensures Of(n'.received, g, x) == Of(n.received, g, x) + (if x == m.fromLid.gen then [m] else [])
      ensures Of(n.delivered + [m], g, x) == Of(n.delivered, g, x) + (if x == m.fromLid.gen then [m] else [])
    {
      OfOne(n.received, m, g, x);
      OfOne(n.delivered, m, g, x);
    }
  }

  lemma {:induction false} ArrivePrefix<P(!new)>(n: Net<P>, m: RemoteMessage<P>, n': Net<P>, x: nat)
    requires m.fromGid in n.buffer && m.fromGid in n.leaders && Arrived(n, m, n')
    requires Promised(n, m.fromGid, n.leaders[m.fromGid].gen) && Current(n, m.fromGid, n.leaders[m.fromGid].gen)
    ensures IsPrefix(Of(n'.delivered, m.fromGid, x), Of(n'.received, m.fromGid, x))
    ensures x > n.leaders[m.fromGid].gen ==> Of(n'.delivered, m.fromGid, x) == []
  {
    hide Of, BufferHolds;
    assert IsPrefix(Of(n.delivered, m.fromGid, x), Of(n.received, m.fromGid, x));
  }

  lemma {:induction false} ArriveBuffer<P(!new)>(n: Net<P>, m: RemoteMessage<P>, n': Net<P>)
    requires m.fromGid in n.buffer && m.fromGid in n.leaders && Arrived(n, m, n') && n' == Received(n, m)
    requires BufferHolds(n, m.fromGid) && Current(n, m.fromGid, n.leaders[m.fromGid].gen)
    ensures BufferHolds(n', m.fromGid)
  {
    hide Of;
    var g, y := m.fromGid, m.fromLid.gen;
    var b, b' := n.buffer[g], n'.buffer[g];
    if b == [] || y > b[0].fromLid.gen {
      assert b' == [] || (b' == [m] && Of(n.received, g, y) == []);
      assert [] + [m] == [m];
    } else if y == b[0].fromLid.gen {
      assert b' == b + [m] && b'[0] == b[0];
    } else {
      assert b' == b;
    }
  }

  lemma {:induction false} ArriveCurrent<P(!new)>(n: Net<P>, m: RemoteMessage<P>, n': Net<P>)
    requires m.fromGid in n.buffer && m.fromGid in n.leaders && Arrived(n, m, n') && n' == Received(n, m)
    requires Current(n, m.fromGid, n.leaders[m.fromGid].gen)
    ensures Current(n', m.fromGid, n.leaders[m.fromGid].gen)
  {
    hide Of;
  }

  lemma {:induction false} ArriveHere<P(!new)>(n: Net<P>, m: RemoteMessage<P>)
    requires m.fromGid in n.buffer && m.fromGid in n.leaders && GroupOk(n, m.fromGid)
    ensures GroupOk(Received(n, m), m.fromGid)
  {
    var n' := Received(n, m);
    ArriveIsArrived(n, m);
    hide Arrived, Of, Current, Queued, IsPrefix;
    ArriveBuffer(n, m, n');
    ArriveCurrent(n, m, n');
    ArriveQueued(n, m);
    hide BufferHolds;
    forall x: nat ensures IsPrefix(Of(n'.delivered, m.fromGid, x), Of(n'.received, m.fromGid, x))
                  ensures x > n.leaders[m.fromGid].gen ==> Of(n'.delivered, m.fromGid, x) == [] {
      ArrivePrefix(n, m, n', x);
    }
  }

  lemma {:induction false} ArriveQueued<P(!new)>(n: Net<P>, m: RemoteMessage<P>)
    requires m.fromGid in n.buffer && m.fromGid in n.leaders && Queued(n, m.fromGid)
    ensures Queued(Received(n, m), m.fromGid)
  {
    var g := m.fromGid;
    var n', b := Received(n, m), n.buffer[g];
    if n'.buffer[g] != [] {
      if b != [] && m.fromLid.gen <= b[0].fromLid.gen {
        var k :| 0 <= k < |n.queued| && n.queued[k].gid == g && n.queued[k].lid.gen == b[0].fromLid.gen;
        assert n'.queued[k] == n.queued[k];
      } else {
        assert n'.queued[|n.queued|] == Change(g, m.fromLid);
      }
    }
  }

  lemma {:induction false} ArriveOrder<P(!new)>(n: Net<P>, m: RemoteMessage<P>)
    requires Ordered(n) && m.fromGid in n.buffer && m.fromGid in n.leaders
    ensures Ordered(Received(n, m))
  {
    ArriveShape(n, m);
    hide Received;
  }

  lemma {:induction false} ArriveKeeps<P(!new)>(n: Net<P>, m: RemoteMessage<P>)
    requires Inv(n) && Enabled(n, Arrive(m))
    ensures Inv(Received(n, m))
  {
    var n' := Received(n, m);
    hide GroupOk, Of, Ordered, Received, IsPrefix;
    ArriveShape(n, m);
    ArriveOrder(n, m);
    forall g | g in n'.leaders ensures GroupOk(n', g) {
      assert GroupOk(n, g);
      if g == m.fromGid {
        ArriveHere(n, m);
      } else {
        ArriveElsewhere(n, m, g);
        SameGroup(n, n', g);
      }
    }
    forall g, x: nat | g !in n'.leaders ensures Of(n'.received, g, x) == [] && Of(n'.delivered, g, x) == [] {
      ArriveElsewhere(n, m, g);
    }
  }

  // ---------------------------------------------------------------------------------------------
  //  Leader changes are inserted
  // ---------------------------------------------------------------------------------------------

  lemma {:induction false} AdoptedGrows(leaders: map<GroupId, LeadershipId>, cs: seq<Change>)
    ensures Adopted(leaders, cs).Keys == leaders.Keys
    ensures forall g | g in leaders :: leaders[g].gen <= Adopted(leaders, cs)[g].gen
    ensures forall c | c in cs && c.gid in leaders :: c.lid.gen <= Adopted(leaders, cs)[c.gid].gen
  {
    if cs != [] {
      AdoptedGrows(leaders, cs[..|cs| - 1]);
      forall c | c in cs && c.gid in leaders ensures c.lid.gen <= Adopted(leaders, cs)[c.gid].gen {
        assert c in cs[..|cs| - 1] || c == cs[|cs| - 1];
      }
    }
  }

  /** A group's leader changes only by a change in the bundle. */
  lemma {:induction false} AdoptedFrom(leaders: map<GroupId, LeadershipId>, cs: seq<Change>, g: GroupId)
    requires g in leaders && g in Adopted(leaders, cs)
    ensures Adopted(leaders, cs)[g] == leaders[g]
         || exists k :: 0 <= k < |cs| && cs[k] == Change(g, Adopted(leaders, cs)[g])
  {
    if cs != [] {
      var init := cs[..|cs| - 1];
      AdoptedGrows(leaders, init);
      AdoptedFrom(leaders, init, g);
      var ls := Adopted(leaders, init);
      if Adopted(leaders, cs)[g] == ls[g] {
        if ls[g] != leaders[g] {
          var k :| 0 <= k < |init| && init[k] == Change(g, ls[g]);
          assert cs[k] == Change(g, ls[g]);
        }
      } else {
        assert cs[|cs| - 1] == Change(g, Adopted(leaders, cs)[g]);
      }
    }
  }

  lemma {:induction false} WaitingKeeps(queued: seq<Change>, cs: seq<Change>, k: nat)
    requires k < |queued| && queued[k] !in cs
    ensures queued[k] in Waiting(queued, cs)
  {
    var n := |queued| - 1;
    if k < n { WaitingKeeps(queued[..n], cs, k); }
  }

  /** A buffer that the inserted changes have caught up with and a change still to be handled that
      will empty it. */
  ghost predicate Owes<P(!new)>(n: Net<P>, g: GroupId, cs: seq<Change>, k: nat)
    requires g in n.buffer && g in n.leaders
  {
    var c := n.leaders[g].gen;
    && n.buffer[g] != [] && n.buffer[g][0].fromLid.gen <= c && Of(n.delivered, g, c) == []
    && exists j :: k <= j < |cs| && cs[j].gid == g && cs[j].lid.gen == c
  }

  ghost predicate MidGroup<P(!new)>(n: Net<P>, g: GroupId, cs: seq<Change>, k: nat)
    requires g in n.buffer && g in n.leaders
  {
    && Promised(n, g, n.leaders[g].gen)
    && ((Current(n, g, n.leaders[g].gen) && Queued(n, g)) || Owes(n, g, cs, k))
  }

  /** Between taking effect and release: `k` changes of the bundle have been handled. */
  ghost predicate Mid<P(!new)>(n: Net<P>, cs: seq<Change>, k: nat) {
    && n.buffer.Keys == n.leaders.Keys
    && (forall g | g in n.leaders :: MidGroup(n, g, cs, k))
    && (forall g, x: nat | g !in n.leaders :: Of(n.received, g, x) == [] && Of(n.delivered, g, x) == [])
    && Ordered(n)
  }

  lemma {:induction false} AdoptGroup<P(!new)>(n: Net<P>, cs: seq<Change>, g: GroupId)
    requires g in n.buffer && g in n.leaders && GroupOk(n, g)
    ensures var n' := n.(leaders := Adopted(n.leaders, cs), queued := Waiting(n.queued, cs));
      g in n'.leaders && MidGroup(n', g, cs, 0)
  {
    var n' := n.(leaders := Adopted(n.leaders, cs), queued := Waiting(n.queued, cs));
    AdoptedGrows(n.leaders, cs);
    AdoptedFrom(n.leaders, cs, g);
    var c, c' := n.leaders[g].gen, n'.leaders[g].gen;
    assert Promised(n', g, c');
    if n.buffer[g] != [] {
      var b := n.buffer[g][0].fromLid.gen;
      if b <= c' {
        assert Owes(n', g, cs, 0);
      } else {
        var k :| 0 <= k < |n.queued| && n.queued[k].gid == g && n.queued[k].lid.gen == b;
        WaitingKeeps(n.queued, cs, k);
        var j :| 0 <= j < |n'.queued| && n'.queued[j] == n.queued[k];
        assert Queued(n', g);
      }
    }
  }

  lemma {:induction false} AdoptMid<P(!new)>(n: Net<P>, cs: seq<Change>)
    requires Inv(n)
    ensures Mid(n.(leaders := Adopted(n.leaders, cs), queued := Waiting(n.queued, cs)), cs, 0)
  {
    AdoptedGrows(n.leaders, cs);
    forall g | g in n.leaders ensures
      MidGroup(n.(leaders := Adopted(n.leaders, cs), queued := Waiting(n.queued, cs)), g, cs, 0)
    {
      AdoptGroup(n, cs, g);
    }
  }

  /** What a release delivers, seen from any group. */
  lemma {:induction false} ReleaseOf<P(!new)>(n: Net<P>, c: Change, g: GroupId, x: nat)
    requires c.gid in n.leaders && c.gid in n.buffer && c.lid.gen == n.leaders[c.gid].gen && BufferHolds(n, c.gid)
    ensures Of(Released(n, c).delivered, g, x)
         == Of(n.delivered, g, x) + (if g == c.gid && x == c.lid.gen then Unblock(n.buffer[c.gid], c.lid.gen).1 else [])
  {
    var b := n.buffer[c.gid];
    var u := Unblock(b, c.lid.gen).1;
    OfConcat(n.delivered, u, g, x);
    if b != [] { OfSame(b, c.gid, b[0].fromLid.gen, g, x); }
  }

  lemma {:induction false} ReleaseCurrent<P(!new)>(n: Net<P>, c: Change, n': Net<P>, cs: seq<Change>, k: nat)
    requires c.gid in n.leaders && c.gid in n.buffer && c.lid.gen == n.leaders[c.gid].gen && n' == Released(n, c)
    requires MidGroup(n, c.gid, cs, k)
    requires forall x: nat :: Of(n'.delivered, c.gid, x)
               == Of(n.delivered, c.gid, x) + (if x == c.lid.gen then Unblock(n.buffer[c.gid], c.lid.gen).1 else [])
    ensures Current(n', c.gid, c.lid.gen) && Queued(n', c.gid)
  {
    hide Of, IsPrefix;
    var b := n.buffer[c.gid];
    if b != [] { assert [] + b == b; }
  }

  lemma {:induction false} ReleasePromised<P(!new)>(n: Net<P>, c: Change, n': Net<P>, x: nat)
    requires c.gid in n.leaders && c.gid in n.buffer && c.lid.gen == n.leaders[c.gid].gen && n' == Released(n, c)
    requires Promised(n, c.gid, c.lid.gen) && Current(n', c.gid, c.lid.gen)
    requires Of(n'.delivered, c.gid, x)
               == Of(n.delivered, c.gid, x) + (if x == c.lid.gen then Unblock(n.buffer[c.gid], c.lid.gen).1 else [])
    ensures IsPrefix(Of(n'.delivered, c.gid, x), Of(n'.received, c.gid, x))
    ensures x > c.lid.gen ==> Of(n'.delivered, c.gid, x) == []
  {
    hide Of, BufferHolds;
    assert IsPrefix(Of(n.delivered, c.gid, x), Of(n.received, c.gid, x));
  }

  lemma {:induction false} ReleaseHere<P(!new)>(n: Net<P>, cs: seq<Change>, k: nat)
    requires k < |cs|
    requires var c := cs[k];
      c.gid in n.leaders && c.gid in n.buffer && c.lid.gen == n.leaders[c.gid].gen && MidGroup(n, c.gid, cs, k)
    ensures MidGroup(Released(n, cs[k]), cs[k].gid, cs, k + 1)
  {
    var c := cs[k];
    var n' := Released(n, c);
    forall x: nat ensures Of(n'.delivered, c.gid, x)
               == Of(n.delivered, c.gid, x) + (if x == c.lid.gen then Unblock(n.buffer[c.gid], c.lid.gen).1 else []) {
      ReleaseOf(n, c, c.gid, x);
    }
    ReleaseCurrent(n, c, n', cs, k);
    hide Of, Current, Queued, IsPrefix, Owes;
    forall x: nat ensures IsPrefix(Of(n'.delivered, c.gid, x), Of(n'.received, c.gid, x))
                  ensures x > c.lid.gen ==> Of(n'.delivered, c.gid, x) == [] {
      ReleasePromised(n, c, n', x);
    }
  }

  lemma {:induction false} ReleaseElsewhere<P(!new)>(n: Net<P>, cs: seq<Change>, k: nat, g: GroupId)
    requires k < |cs| && g in n.leaders && g in n.buffer && MidGroup(n, g, cs, k)
    requires cs[k].gid != g || cs[k].lid.gen != n.leaders[g].gen
    requires cs[k].gid in n.buffer ==> BufferHolds(n, cs[k].gid)
    ensures MidGroup(Released(n, cs[k]), g, cs, k + 1)
  {
    var n' := Released(n, cs[k]);
    if cs[k].gid in n.leaders && cs[k].gid in n.buffer && cs[k].lid.gen == n.leaders[cs[k].gid].gen {
      forall x: nat ensures Of(n'.delivered, g, x) == Of(n.delivered, g, x) { ReleaseOf(n, cs[k], g, x); }
    }
    hide Of;
    if Owes(n, g, cs, k) {
      var j :| k <= j < |cs| && cs[j].gid == g && cs[j].lid.gen == n.leaders[g].gen;
      assert j >= k + 1;
      assert Owes(n', g, cs, k + 1);
    } else {
      assert Current(n', g, n'.leaders[g].gen) && Queued(n', g);
    }
  }

  lemma {:induction false} ReleaseOrder<P(!new)>(n: Net<P>, cs: seq<Change>, k: nat)
    requires Mid(n, cs, k) && k < |cs|
    ensures Ordered(Released(n, cs[k]))
  {
    if cs[k].gid in n.leaders {
      assert MidGroup(n, cs[k].gid, cs, k);
    }
    ReleasedOnce(n, cs[k]);
    hide Released, MidGroup, Of;
    OrderExtends(n, Released(n, cs[k]));
  }

  /** Deliveries from leaderships the leader map names keep the order. */
  lemma {:induction false} OrderExtends<P(!new)>(n: Net<P>, n': Net<P>)
    requires Ordered(n) && n'.leaders == n.leaders && IsPrefix(n.delivered, n'.delivered)
    requires forall j | |n.delivered| <= j < |n'.delivered| ::
               var m := n'.delivered[j]; m.fromGid in n.leaders && m.fromLid.gen == n.leaders[m.fromGid].gen
    ensures Ordered(n')
  {
    var d, d' := n.delivered, n'.delivered;
    assert forall j | 0 <= j < |d| :: d'[j] == d[j];
    forall j | 0 <= j < |d'| ensures d'[j].fromGid in n.leaders && d'[j].fromLid.gen <= n.leaders[d'[j].fromGid].gen {
    }
    forall j, k | 0 <= j < k < |d'| && d'[j].fromGid == d'[k].fromGid ensures d'[j].fromLid.gen <= d'[k].fromLid.gen {
      if k < |d| { assert d[j].fromGid == d[k].fromGid; }
    }
  }

  lemma {:induction false} ReleaseOutside<P(!new)>(n: Net<P>, c: Change, g: GroupId, x: nat)
    requires g !in n.leaders && (c.gid in n.buffer ==> BufferHolds(n, c.gid))
    ensures var n' := Released(n, c); n'.received == n.received && Of(n'.delivered, g, x) == Of(n.delivered, g, x)
  {
    if c.gid in n.leaders && c.gid in n.buffer && c.lid.gen == n.leaders[c.gid].gen { ReleaseOf(n, c, g, x); }
  }

  lemma {:induction false} ReleaseKeys<P>(n: Net<P>, c: Change)
    ensures Released(n, c).leaders == n.leaders && Released(n, c).buffer.Keys == n.buffer.Keys
  {
  }

  lemma {:induction false} ReleaseMidGroup<P(!new)>(n: Net<P>, cs: seq<Change>, k: nat, g: GroupId)
    requires k < |cs| && n.buffer.Keys == n.leaders.Keys && g in n.leaders
    requires forall h | h in n.leaders :: MidGroup(n, h, cs, k)
    ensures MidGroup(Released(n, cs[k]), g, cs, k + 1)
  {
    if cs[k].gid in n.buffer { assert MidGroup(n, cs[k].gid, cs, k); }
    assert MidGroup(n, g, cs, k);
    if g == cs[k].gid && cs[k].lid.gen == n.leaders[g].gen {
      ReleaseHere(n, cs, k);
    } else {
      ReleaseElsewhere(n, cs, k, g);
    }
  }

  lemma {:induction false} ReleaseMid<P(!new)>(n: Net<P>, cs: seq<Change>, k: nat)
    requires Mid(n, cs, k) && k < |cs|
    ensures Mid(Released(n, cs[k]), cs, k + 1)
  {
    var n' := Released(n, cs[k]);
    ReleaseOrder(n, cs, k);
    ReleaseKeys(n, cs[k]);
    hide Of, MidGroup, Ordered, Released;
    forall g | g in n'.leaders ensures MidGroup(n', g, cs, k + 1) { ReleaseMidGroup(n, cs, k, g); }
    forall g, x: nat | g !in n'.leaders ensures Of(n'.received, g, x) == [] && Of(n'.delivered, g, x) == [] {
      ReleaseMidOutside(n, cs, k, g, x);
    }
  }

  lemma {:induction false} ReleaseMidOutside<P(!new)>(n: Net<P>, cs: seq<Change>, k: nat, g: GroupId, x: nat)
    requires Mid(n, cs, k) && k < |cs| && g !in n.leaders
    ensures var n' := Released(n, cs[k]); Of(n'.received, g, x) == [] && Of(n'.delivered, g, x) == []
  {
    if cs[k].gid in n.buffer { assert MidGroup(n, cs[k].gid, cs, k); }
    assert Of(n.received, g, x) == [] && Of(n.delivered, g, x) == [];
    hide Of, Ordered, Unblock, Released;
    ReleaseOutside(n, cs[k], g, x);
  }

  lemma {:induction false} ReleaseAllMid<P(!new)>(n: Net<P>, cs: seq<Change>, k: nat)
    requires Mid(n, cs, 0) && k <= |cs|
    ensures Mid(ReleasedAll(n, cs[..k]), cs, k)
  {
    if k > 0 {
      ReleaseAllMid(n, cs, k - 1);
      assert cs[..k][..k - 1] == cs[..k - 1];
      ReleaseMid(ReleasedAll(n, cs[..k - 1]), cs, k - 1);
    } else {
      assert cs[..0] == [];
    }
  }

  lemma {:induction false} InsertedKeeps<P(!new)>(n: Net<P>, cs: seq<Change>)
    requires Inv(n)
    ensures Inv(Next(n, Inserted(cs)))
  {
    AdoptMid(n, cs);
    var n0 := n.(leaders := Adopted(n.leaders, cs), queued := Waiting(n.queued, cs));
    ReleaseAllMid(n0, cs, |cs|);
    assert cs[..|cs|] == cs;
    var n' := ReleasedAll(n0, cs);
    forall g | g in n'.leaders ensures GroupOk(n', g) { assert MidGroup(n', g, cs, |cs|); }
  }

  // ---------------------------------------------------------------------------------------------
  //  Every run
  // ---------------------------------------------------------------------------------------------

  lemma {:induction false} NewGroupOk<P(!new)>(n: Net<P>, g: GroupId, lid: LeadershipId)
    requires forall x: nat :: Of(n.received, g, x) == [] && Of(n.delivered, g, x) == []
    ensures GroupOk(n.(leaders := n.leaders[g := lid], buffer := n.buffer[g := []]), g)
  {
    hide Of;
    var n' := n.(leaders := n.leaders[g := lid], buffer := n.buffer[g := []]);
    assert forall x: nat :: Of(n'.received, g, x) == [] && Of(n'.delivered, g, x) == [];
  }

  lemma {:induction false} NewGroupOrder<P(!new)>(n: Net<P>, g: GroupId, lid: LeadershipId)
    requires Ordered(n) && g !in n.leaders
    ensures Ordered(n.(leaders := n.leaders[g := lid], buffer := n.buffer[g := []]))
  {
  }

  lemma {:induction false} NewGroupKeeps<P(!new)>(n: Net<P>, g: GroupId, lid: LeadershipId)
    requires Inv(n) && g !in n.leaders
    ensures Inv(Next(n, NewGroup(g, lid)))
  {
    var n' := n.(leaders := n.leaders[g := lid], buffer := n.buffer[g := []]);
    hide Of, GroupOk, Ordered;
    NewGroupOrder(n, g, lid);
    NewGroupOk(n, g, lid);
    forall h | h in n'.leaders ensures GroupOk(n', h) {
      if h != g {
        assert GroupOk(n, h);
        SameGroup(n, n', h);
      }
    }
    assert n'.buffer.Keys == n'.leaders.Keys;
  }

  lemma {:induction false} GossipKeeps<P(!new)>(n: Net<P>, c: Change)
    requires Inv(n)
    ensures Inv(Next(n, Gossip(c)))
  {
    var n' := Next(n, Gossip(c));
    forall h | h in n'.leaders ensures GroupOk(n', h) { SameGroup(n, n', h); }
  }

  lemma {:induction false} StepKeeps<P(!new)>(n: Net<P>, e: Event<P>)
    requires Inv(n) && Enabled(n, e)
    ensures Inv(Next(n, e))
  {
    hide Inv;
    match e
    case Arrive(m) => ArriveKeeps(n, m);
    case Inserted(cs) => InsertedKeeps(n, cs);
    case Gossip(c) => GossipKeeps(n, c);
    case NewGroup(g, lid) => NewGroupKeeps(n, g, lid);
  }

  lemma {:induction false} InitialInv<P(!new)>(n: Net<P>)
    requires n == Net(map g | g in n.leaders :: [], n.leaders, [], [], [])
    ensures Inv(n)
  {
  }

  lemma {:induction false} RunKeeps<P(!new)>(states: seq<Net<P>>, events: seq<Event<P>>, k: nat)
    requires Run(states, events) && k < |states|
    ensures Inv(states[k])
  {
    hide Inv, Enabled;
    if k > 0 {
      RunKeeps(states, events, k - 1);
      StepKeeps(states[k - 1], events[k - 1]);
    } else {
      InitialInv(states[0]);
    }
  }

  /** Of every remote leadership, what is delivered is a prefix of what was received. */
  lemma {:induction false} DeliveredIsPrefix<P(!new)>(states: seq<Net<P>>, events: seq<Event<P>>, k: nat, g: GroupId, gen: nat)
    requires Run(states, events) && k < |states|
    ensures IsPrefix(Of(states[k].delivered, g, gen), Of(states[k].received, g, gen))
  {
    RunKeeps(states, events, k);
    if g in states[k].leaders { assert GroupOk(states[k], g); }
  }

  /** Remote leaderships are delivered in the order of their generations, and none before the leader
      map has reached it. */
  lemma {:induction false} GenerationsInOrder<P(!new)>(states: seq<Net<P>>, events: seq<Event<P>>, k: nat)
    requires Run(states, events) && k < |states|
    ensures InOrder(states[k].delivered)
    ensures forall j | 0 <= j < |states[k].delivered| ::
      var m := states[k].delivered[j]; m.fromGid in states[k].leaders && m.fromLid.gen <= states[k].leaders[m.fromGid].gen
  {
    RunKeeps(states, events, k);
  }

  /** What is delivered between two states is from leaderships the leader map names. */
  ghost predicate DeliversCurrent<P(!new)>(n: Net<P>, n': Net<P>) {
    && n'.leaders == n.leaders && IsPrefix(n.delivered, n'.delivered)
    && forall j | |n.delivered| <= j < |n'.delivered| ::
         var m := n'.delivered[j]; m.fromGid in n.leaders && m.fromLid.gen == n.leaders[m.fromGid].gen
  }

  lemma {:induction false} DeliversTransitive<P(!new)>(a: Net<P>, b: Net<P>, c: Net<P>)
    requires DeliversCurrent(a, b) && DeliversCurrent(b, c)
    ensures DeliversCurrent(a, c)
  {
    forall j | 0 <= j < |b.delivered| ensures c.delivered[j] == b.delivered[j] { assert b.delivered[j] == c.delivered[..|b.delivered|][j]; }
  }

  /** One release delivers a run of messages of the current leadership. */
  lemma {:induction false} ReleasedOnce<P(!new)>(n: Net<P>, c: Change)
    requires c.gid in n.buffer ==> BufferHolds(n, c.gid)
    ensures DeliversCurrent(n, Released(n, c))
  {
    hide Of;
  }

  lemma {:induction false} MidHolds<P(!new)>(n: Net<P>, cs: seq<Change>, k: nat, g: GroupId)
    requires Mid(n, cs, k)
    ensures g in n.buffer ==> BufferHolds(n, g)
  {
    hide Of, BufferHolds;
    if g in n.buffer { assert MidGroup(n, g, cs, k); }
  }

  lemma {:induction false} ReleasedNow<P(!new)>(n: Net<P>, cs: seq<Change>, k: nat)
    requires Mid(n, cs, 0) && k <= |cs|
    ensures DeliversCurrent(n, ReleasedAll(n, cs[..k]))
  {
    if k > 0 {
      var p, c := ReleasedAll(n, cs[..k - 1]), cs[k - 1];
      assert cs[..k][..k - 1] == cs[..k - 1];
      assert ReleasedAll(n, cs[..k]) == Released(p, c);
      hide Released, ReleasedAll, Mid, BufferHolds, DeliversCurrent;
      ReleasedNow(n, cs, k - 1);
      ReleaseAllMid(n, cs, k - 1);
      MidHolds(p, cs, k - 1, c.gid);
      ReleasedOnce(p, c);
      DeliversTransitive(n, p, Released(p, c));
    } else {
      assert cs[..0] == [];
    }
  }

  /** A message is delivered only at a moment when the leader map names its leadership. */
  lemma {:induction false} DeliveredWhenCurrent<P(!new)>(states: seq<Net<P>>, events: seq<Event<P>>, k: nat, j: nat)
    requires Run(states, events) && k < |events| && |states[k].delivered| <= j < |states[k + 1].delivered|
    ensures var m := states[k + 1].delivered[j];
      m.fromGid in states[k + 1].leaders && m.fromLid.gen == states[k + 1].leaders[m.fromGid].gen
  {
    RunKeeps(states, events, k);
    var n := states[k];
    if events[k].Inserted? {
      var cs := events[k].changes;
      AdoptMid(n, cs);
      ReleasedNow(n.(leaders := Adopted(n.leaders, cs), queued := Waiting(n.queued, cs)), cs, |cs|);
      assert cs[..|cs|] == cs;
    }
  }

  /** A buffer that is not empty holds one generation, newer than the leader map's, and a leader
      change that will release it is on its way. */
  lemma {:induction false} BufferIsAhead<P(!new)>(states: seq<Net<P>>, events: seq<Event<P>>, k: nat, g: GroupId)
    requires Run(states, events) && k < |states| && g in states[k].buffer && states[k].buffer[g] != []
    ensures var n := states[k]; var b := n.buffer[g];
      && g in n.leaders && b[0].fromLid.gen > n.leaders[g].gen
      && (forall j | 0 <= j < |b| :: b[j].fromGid == g && b[j].fromLid.gen == b[0].fromLid.gen)
      && (exists j :: 0 <= j < |n.queued| && n.queued[j].gid == g && n.queued[j].lid.gen == b[0].fromLid.gen)
  {
    RunKeeps(states, events, k);
    assert GroupOk(states[k], g);
  }

  /** Nothing received from the current leadership is lost as long as nothing is buffered. */
  lemma {:induction false} CurrentIsComplete<P(!new)>(states: seq<Net<P>>, events: seq<Event<P>>, k: nat, g: GroupId)
    requires Run(states, events) && k < |states| && g in states[k].leaders && g in states[k].buffer
    requires states[k].buffer[g] == []
    ensures var n := states[k];
      Of(n.delivered, g, n.leaders[g].gen) == Of(n.received, g, n.leaders[g].gen)
  {
    RunKeeps(states, events, k);
    assert GroupOk(states[k], g);
  }
}
