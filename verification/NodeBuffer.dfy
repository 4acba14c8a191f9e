/** The layer that holds back messages from endpoints the server does not know yet
    (src/node.rs:150-257). The server behind it is any function of what it has been given. */
module NodeBuffer {
  import opened PaxosTypes

  datatype Kind = External | TierOne | Ordinary

  datatype Msg = Msg(kind: Kind, eid: EndpointId, payload: int)

  /** The endpoints a server accepts, with a generation that goes up when they change. */
  datatype Eids = Eids(gen: nat, value: set<EndpointId>)

  /** The endpoints after a history of inputs. */
  type Server = seq<Msg> -> Eids

  ghost predicate ValidServer(server: Server) {
    forall log, m :: server(log).gen <= server(log + [m]).gen
                     && (server(log).gen == server(log + [m]).gen ==> server(log).value == server(log + [m]).value)
  }

  /** The ordinary messages of an endpoint, in order. */
  function Of(ms: seq<Msg>, e: EndpointId): seq<Msg> {
    if ms == [] then []
    else
      var m := ms[|ms| - 1];
      Of(ms[..|ms| - 1], e) + if m.kind == Ordinary && m.eid == e then [m] else []
  }

  lemma {:induction false} OfNext(ms: seq<Msg>, m: Msg, e: EndpointId)
    ensures Of(ms + [m], e) == Of(ms, e) + if m.kind == Ordinary && m.eid == e then [m] else []
  {
    assert (ms + [m])[..|ms|] == ms;
  }

  /** The messages that are never held back, in order. */
  function Urgent(ms: seq<Msg>): seq<Msg> {
    if ms == [] then []
    else
      var m := ms[|ms| - 1];
      Urgent(ms[..|ms| - 1]) + if m.kind == Ordinary then [] else [m]
  }

  lemma {:induction false} UrgentNext(ms: seq<Msg>, m: Msg)
    ensures Urgent(ms + [m]) == Urgent(ms) + if m.kind == Ordinary then [] else [m]
  {
    assert (ms + [m])[..|ms|] == ms;
  }

  function Held(buffer: map<EndpointId, seq<Msg>>, e: EndpointId): seq<Msg> {
    if e in buffer then buffer[e] else []
  }

  /** How many messages are held for the endpoints in `es`. */
  ghost function Count(buffer: map<EndpointId, seq<Msg>>, es: set<EndpointId>): nat
    decreases |es|
  {
    if es == {} then 0
    else
      var e :| e in es;
      |Held(buffer, e)| + Count(buffer, es - {e})
  }

  lemma {:induction false} CountPick(buffer: map<EndpointId, seq<Msg>>, es: set<EndpointId>, e: EndpointId)
    requires e in es
    ensures Count(buffer, es) == |Held(buffer, e)| + Count(buffer, es - {e})
    decreases |es|
  {
    var x :| x in es && Count(buffer, es) == |Held(buffer, x)| + Count(buffer, es - {x});
    if x != e {
      CountPick(buffer, es - {x}, e);
      CountPick(buffer, es - {e}, x);
      assert es - {x} - {e} == es - {e} - {x};
    }
  }

  lemma {:induction false} CountSame(a: map<EndpointId, seq<Msg>>, b: map<EndpointId, seq<Msg>>, es: set<EndpointId>)
    requires forall e | e in es :: |Held(a, e)| == |Held(b, e)|
    ensures Count(a, es) == Count(b, es)
    decreases |es|
  {
    if es != {} {
      var e :| e in es;
      CountPick(a, es, e);
      CountPick(b, es, e);
      CountSame(a, b, es - {e});
    }
  }

  /** Keys without messages do not count. */
  lemma {:induction false} CountNone(buffer: map<EndpointId, seq<Msg>>, es: set<EndpointId>)
    requires forall e | e in es :: Held(buffer, e) == []
    ensures Count(buffer, es) == 0
    decreases |es|
  {
    if es != {} {
      var e :| e in es;
      CountPick(buffer, es, e);
      CountNone(buffer, es - {e});
    }
  }

  ghost function Total(buffer: map<EndpointId, seq<Msg>>): nat { Count(buffer, buffer.Keys) }

  lemma {:induction false} TotalAmend(buffer: map<EndpointId, seq<Msg>>, m: Msg)
    ensures Total(buffer[m.eid := Held(buffer, m.eid) + [m]]) == Total(buffer) + 1
  {
    var b := buffer[m.eid := Held(buffer, m.eid) + [m]];
    CountPick(b, b.Keys, m.eid);
    CountSame(buffer, b, b.Keys - {m.eid});
    if m.eid in buffer {
      CountPick(buffer, buffer.Keys, m.eid);
      assert b.Keys == buffer.Keys;
    } else {
      assert b.Keys - {m.eid} == buffer.Keys;
    }
  }

  /** The next message moves from what is to come to what was delivered, or to what is held. */
  lemma {:induction false} Shifted(done: seq<Msg>, held: seq<Msg>, done0: seq<Msg>, ms: seq<Msg>, m: Msg)
    requires done + held == done0 + ms
    ensures done + (held + [m]) == done0 + (ms + [m])
    ensures held == [] ==> (done + [m]) + held == done0 + (ms + [m])
  {
    assert done + (held + [m]) == (done + held) + [m];
    assert done0 + (ms + [m]) == (done0 + ms) + [m];
    if held == [] { assert (done + [m]) + held == done + (held + [m]); }
  }

  /** A message added to what arrived, and to what was delivered or is held. */
  lemma {:induction false} ArrivedAt(init: seq<Msg>, done: seq<Msg>, held: seq<Msg>, m: Msg)
    requires init == done + held
    ensures init + [m] == done + (held + [m]) && (held == [] ==> init + [m] == (done + [m]) + held)
    ensures init + [] == (done + []) + held
  {
    assert init + [] == init && done + [] == done;
    Shifted(done, held, init, [], m);
    assert [] + [m] == [m];
  }

  lemma {:induction false} Emptied(done0: seq<Msg>, held0: seq<Msg>, taken: seq<Msg>, done: seq<Msg>, held: seq<Msg>)
    requires held0 == [] && done + held == done0 + taken
    ensures done0 + held0 + taken == done + held + []
  {
    assert done0 + held0 == done0;
    assert done + held + [] == done + held;
  }

  /** Buffers hold ordinary messages, each under its sender. */
  ghost predicate Tagged(buffer: map<EndpointId, seq<Msg>>) {
    forall e | e in buffer :: TaggedAs(buffer[e], e)
  }

  ghost predicate TaggedAs(ms: seq<Msg>, e: EndpointId) {
    forall k | 0 <= k < |ms| :: ms[k].kind == Ordinary && ms[k].eid == e
  }

  lemma {:induction false} AmendTagged(before: map<EndpointId, seq<Msg>>, m: Msg, delivered: bool)
    requires Tagged(before) && (!delivered ==> m.kind == Ordinary)
    ensures Tagged(if delivered then before else before[m.eid := Held(before, m.eid) + [m]])
  {
  }

  class NominalState {
    var buffered: map<EndpointId, seq<Msg>>
    var curGen: nat
    /** What the server has been given, and what has arrived. */
    var log: seq<Msg>
    ghost var received: seq<Msg>
    const server: Server

    constructor (server: Server)
      requires ValidServer(server)
      ensures Steady() && this.server == server && received == [] && log == []
    {
      this.server := server;
      buffered, log, received := map[], [], [];
      curGen := server([]).gen;
    }

    /** Of every endpoint, the ordinary messages that arrived are those delivered, then those held; all
        other messages have been delivered. */
    ghost predicate Kept()
      reads this
    {
      && ValidServer(server) && Urgent(received) == Urgent(log)
      && Tagged(buffered)
      && forall e :: Of(received, e) == Of(log, e) + Held(buffered, e)
    }

    /** Between two calls: and nothing is held from an endpoint the server accepts. */
    ghost predicate Steady()
      reads this
    {
      && Kept() && curGen == server(log).gen
      && forall e | e in buffered && buffered[e] != [] :: e !in server(log).value
    }

    /** `deliver_single_once`: the server gets the message, or it is held. */
    method DeliverSingleOnce(m: Msg) returns (delivered: bool)
      requires ValidServer(server)
      modifies this`log, this`buffered
      ensures delivered <==> m.kind != Ordinary || m.eid in server(old(log)).value
      ensures delivered ==> log == old(log) + [m] && buffered == old(buffered)
      ensures !delivered ==> log == old(log) && buffered == old(buffered)[m.eid := Held(old(buffered), m.eid) + [m]]
    {
      if m.kind == External {
        log := log + [m];
        delivered := true;
      } else if m.kind == TierOne {
        log := log + [m];
        delivered := true;
      } else if m.eid in server(log).value {
        log := log + [m];
        delivered := true;
      } else {
        buffered := buffered[m.eid := (if m.eid in buffered then buffered[m.eid] else []) + [m]];
        delivered := false;
      }
    }
  
    /** What is held is from endpoints not accepted, as long as the generation is still `g`. */
    ghost predicate HeldBack(g: nat)
      reads this
    {
      && server(log).gen >= g
      && forall e | e in buffered && buffered[e] != [] && server(log).gen == g :: e !in server(log).value
    }

    /** The messages held for one endpoint are given to the server for as long as it accepts them. */
    method DeliverFrom(e: EndpointId, msgs: seq<Msg>, ghost g: nat)
      requires ValidServer(server) && Held(buffered, e) == [] && HeldBack(g)
      requires TaggedAs(msgs, e)
      modifies this`log, this`buffered
      ensures HeldBack(g) && Of(log, e) + Held(buffered, e) == Of(old(log), e) + msgs && Urgent(log) == Urgent(old(log))
      ensures forall x | x != e :: Of(log, x) == Of(old(log), x) && Held(buffered, x) == Held(old(buffered), x)
      ensures Total(buffered) + |log| == Total(old(buffered)) + |old(log)| + |msgs| && |log| >= |old(log)|
      ensures |log| == |old(log)| ==> log == old(log)
      ensures TaggedAs(Held(buffered, e), e)
      ensures buffered.Keys <= old(buffered).Keys + {e}
    {
      hide Of, Count, Total, HeldBack, Urgent;
      var i := 0;
      while i < |msgs|
        invariant 0 <= i <= |msgs| && HeldBack(g) && buffered.Keys <= old(buffered).Keys + {e} && Urgent(log) == Urgent(old(log))
        invariant Of(log, e) + Held(buffered, e) == Of(old(log), e) + msgs[..i]
        invariant forall x | x != e :: Of(log, x) == Of(old(log), x) && Held(buffered, x) == Held(old(buffered), x)
        invariant Held(buffered, e) != [] ==> e !in server(log).value
        invariant Total(buffered) + |log| == Total(old(buffered)) + |old(log)| + i
        invariant |log| >= |old(log)| && (|log| == |old(log)| ==> log == old(log))
        invariant TaggedAs(Held(buffered, e), e)
      {
        i := DeliverNext(e, msgs, i, g, old(log));
      }
      assert msgs[..i] == msgs;
    }

    /** One step of the loop above. */
    method DeliverNext(e: EndpointId, msgs: seq<Msg>, i: nat, ghost g: nat, ghost log0: seq<Msg>)
      returns (next: nat)
      requires ValidServer(server) && i < |msgs| && msgs[i].kind == Ordinary && msgs[i].eid == e && HeldBack(g)
      requires Held(buffered, e) != [] ==> e !in server(log).value
      requires Of(log, e) + Held(buffered, e) == Of(log0, e) + msgs[..i]
      modifies this`log, this`buffered
      ensures next == i + 1 && HeldBack(g) && buffered.Keys <= old(buffered).Keys + {e} && Urgent(log) == Urgent(old(log))
      ensures Of(log, e) + Held(buffered, e) == Of(log0, e) + msgs[..i + 1]
      ensures forall x | x != e :: Of(log, x) == Of(old(log), x) && Held(buffered, x) == Held(old(buffered), x)
      ensures Held(buffered, e) != [] ==> e !in server(log).value
      ensures Total(buffered) + |log| == Total(old(buffered)) + |old(log)| + 1
      ensures |log| >= |old(log)| && (|log| == |old(log)| ==> log == old(log))
      ensures Held(buffered, e) == Held(old(buffered), e) || Held(buffered, e) == Held(old(buffered), e) + [msgs[i]]
    {
      ghost var was, before := log, buffered;
      var m := msgs[i];
      var delivered := DeliverSingleOnce(m);
      assert msgs[..i + 1] == msgs[..i] + [m];
      if delivered {
        UrgentNext(was, m);
        forall x ensures Of(log, x) == Of(was, x) + if x == e then [m] else [] { OfNext(was, m, x); }
      } else {
        TotalAmend(before, m);
      }
      Shifted(Of(was, e), Held(before, e), Of(log0, e), msgs[..i], m);
      next := i + 1;
    }
  
    /** Mid-way through a round: `old'` are the buffers taken out, those in `todo` not yet gone through. */
    ghost predicate MidRound(old': map<EndpointId, seq<Msg>>, todo: set<EndpointId>, g: nat)
      reads this
    {
      && ValidServer(server) && HeldBack(g) && todo <= old'.Keys && Urgent(received) == Urgent(log)
      && Tagged(old')
      && Tagged(buffered)
      && (forall e | e in todo :: Held(buffered, e) == [])
      && (forall e :: Of(received, e) == Of(log, e) + Held(buffered, e) + if e in todo then old'[e] else [])
    }

    /** `deliver_all_once`: every message held is delivered or held again. */
    method DeliverAllOnce()
      requires Kept()
      modifies this`log, this`buffered
      ensures Kept() && HeldBack(server(old(log)).gen)
      ensures Total(buffered) + |log| == Total(old(buffered)) + |old(log)| && |log| >= |old(log)|
      ensures |log| == |old(log)| ==> log == old(log)
    {
      hide Of, Count, TaggedAs, Urgent, ValidServer, HeldBack;
      var taken := buffered;
      ghost var g := server(log).gen;
      ghost var log0 := log;
      buffered := map[];
      var todo := taken.Keys;
      StartRound(taken, g);
      while todo != {}
        invariant MidRound(taken, todo, g) && |log| >= |log0| && (|log| == |log0| ==> log == log0)
        invariant Total(buffered) + |log| + Count(taken, todo) == Total(taken) + |log0|
        decreases todo
      {
        var e :| e in todo;
        CountPick(taken, todo, e);
        ghost var b, l := buffered, log;
        DeliverFrom(e, taken[e], g);
        todo := todo - {e};
        assert MidRound(taken, todo, g) by { EndpointDone(taken, todo, g, e, b, l); }
      }
      CountNone(taken, {});
      assert Kept() by {
        forall e ensures Of(received, e) == Of(log, e) + Held(buffered, e) {
          assert Of(log, e) + Held(buffered, e) + [] == Of(log, e) + Held(buffered, e);
        }
      }
    }

    lemma {:induction false} StartRound(taken: map<EndpointId, seq<Msg>>, g: nat)
      requires ValidServer(server) && buffered == map[] && g == server(log).gen && Urgent(received) == Urgent(log)
      requires Tagged(taken)
      requires forall e :: Of(received, e) == Of(log, e) + Held(taken, e)
      ensures MidRound(taken, taken.Keys, g) && Total(buffered) == 0
    {
      forall e ensures Of(received, e) == Of(log, e) + Held(buffered, e) + if e in taken.Keys then taken[e] else [] {
        assert Of(log, e) + [] == Of(log, e);
      }
    }

    lemma {:induction false} EndpointDone(taken: map<EndpointId, seq<Msg>>, todo: set<EndpointId>, g: nat, e: EndpointId,
                                          b: map<EndpointId, seq<Msg>>, l: seq<Msg>)
      requires ValidServer(server) && HeldBack(g) && e in taken && e !in todo && todo <= taken.Keys && Urgent(received) == Urgent(log)
      requires Tagged(taken)
      requires Tagged(b)
      requires forall x | x in todo || x == e :: Held(b, x) == []
      requires forall x :: Of(received, x) == Of(l, x) + Held(b, x) + if x in todo || x == e then taken[x] else []
      requires Of(log, e) + Held(buffered, e) == Of(l, e) + taken[e]
      requires forall x | x != e :: Of(log, x) == Of(l, x) && Held(buffered, x) == Held(b, x)
      requires TaggedAs(Held(buffered, e), e)
      requires buffered.Keys <= b.Keys + {e}
      ensures MidRound(taken, todo, g)
    {
      hide TaggedAs, Of, Urgent;
      forall x ensures Of(received, x) == Of(log, x) + Held(buffered, x) + if x in todo then taken[x] else [] {
        if x == e { Emptied(Of(l, e), Held(b, e), taken[e], Of(log, e), Held(buffered, e)); }
      }
      forall x | x in buffered ensures TaggedAs(buffered[x], x) {
        if x != e { assert Held(buffered, x) == Held(b, x); } else { assert Held(buffered, e) == buffered[e]; }
      }
    }

    /** `deliver_all`: it ends, for the endpoints can change again only if a message was delivered. */
    method DeliverAll()
      requires Kept() && (curGen == server(log).gen ==> HeldBack(curGen))
      modifies this`log, this`buffered, this`curGen
      ensures Steady()
    {
      while curGen != server(log).gen
        invariant Kept() && (curGen == server(log).gen ==> HeldBack(curGen))
        decreases Total(buffered), curGen != server(log).gen
      {
        curGen := server(log).gen;
        DeliverAllOnce();
      }
    }

    /** `handle_msg`: a message arrives. */
    method HandleMsg(m: Msg)
      requires Steady()
      modifies this
      ensures Steady() && received == old(received) + [m]
    {
      ghost var was, before := log, buffered;
      var delivered := DeliverSingleOnce(m);
      received := received + [m];
      assert Kept() by { Arrived(m, was, before, delivered); }
      DeliverAll();
    }

    lemma {:induction false} Arrived(m: Msg, was: seq<Msg>, before: map<EndpointId, seq<Msg>>, delivered: bool)
      requires ValidServer(server) && |received| > 0 && received[|received| - 1] == m && Urgent(received[..|received| - 1]) == Urgent(was)
      requires Tagged(before)
      requires forall e :: Of(received[..|received| - 1], e) == Of(was, e) + Held(before, e)
      requires forall e | e in before && before[e] != [] :: e !in server(was).value
      requires delivered <==> m.kind != Ordinary || m.eid in server(was).value
      requires delivered ==> log == was + [m] && buffered == before
      requires !delivered ==> log == was && buffered == before[m.eid := Held(before, m.eid) + [m]]
      ensures Kept()
    {
      var init := received[..|received| - 1];
      assert received == init + [m];
      UrgentNext(init, m);
      UrgentNext(was, m);
      hide Of, TaggedAs, Urgent;
      forall e ensures Of(received, e) == Of(log, e) + Held(buffered, e) {
        OfNext(init, m, e);
        OfNext(was, m, e);
        ArrivedAt(Of(init, e), Of(was, e), Held(before, e), m);
      }
      AmendTagged(before, m, delivered);
    }
  }
}
