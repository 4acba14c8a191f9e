/** The generation filter every remote message passes through (src/network_driver.rs). */
module NetworkDriver {
  import opened Wrappers
  import opened PaxosTypes
  import opened TwoPCTypes

  datatype RemoteMessage<P> = RemoteMessage(
    payload: P, fromGid: GroupId, fromLid: LeadershipId, toLid: LeadershipId)

  datatype Versioned = Versioned(gen: nat, value: map<GroupId, LeadershipId>)

  datatype Change = Change(gid: GroupId, lid: LeadershipId)

  type Buffer<P> = map<GroupId, seq<RemoteMessage<P>>>

  /** A buffer that has an entry for exactly the groups of the leader map. */
  function Synced<P>(buffer: Buffer<P>, leaders: map<GroupId, LeadershipId>): Buffer<P> {
    map g | g in leaders :: if g in buffer then buffer[g] else []
  }

  /** The buffer of the sender, the message if it is delivered, and the leader change to insert. */
  datatype Filtered<P> = Filtered(buffer: seq<RemoteMessage<P>>, out: Option<RemoteMessage<P>>, change: Option<Change>)

  /** What happens to a message `m` addressed to the current leadership. */
  function Filter<P>(buffer: seq<RemoteMessage<P>>, cur: nat, m: RemoteMessage<P>): Filtered<P> {
    var change := Change(m.fromGid, m.fromLid);
    if buffer != [] then
      if m.fromLid.gen < buffer[0].fromLid.gen then Filtered(buffer, None, None)
      else if m.fromLid.gen == buffer[0].fromLid.gen then Filtered(buffer + [m], None, None)
      else Filtered([m], None, Some(change))
    else if m.fromLid.gen < cur then Filtered(buffer, None, None)
    else if m.fromLid.gen == cur then Filtered(buffer, Some(m), None)
    else Filtered([m], None, Some(change))
  }

  /** What is left in a buffer, and what leaves it, when a leader change takes effect. */
  function Unblock<P>(buffer: seq<RemoteMessage<P>>, gen: nat): (seq<RemoteMessage<P>>, seq<RemoteMessage<P>>) {
    if buffer == [] || gen < buffer[0].fromLid.gen then (buffer, [])
    else if gen > buffer[0].fromLid.gen then ([], [])
    else ([], buffer)
  }

  function Payloads<P>(ms: seq<RemoteMessage<P>>): (ps: seq<P>)
    ensures |ps| == |ms| && forall k | 0 <= k < |ms| :: ps[k] == ms[k].payload
  {
    seq(|ms|, k requires 0 <= k < |ms| => ms[k].payload)
  }

  class NetworkDriver<P> {
    var buffer: Buffer<P>
    var gen: nat

    constructor (leaders: Versioned)
      ensures buffer == Synced(map[], leaders.value) && gen == leaders.gen
    {
      buffer := map g | g in leaders.value :: [];
      gen := leaders.gen;
    }

    /** Brings the keys of the buffer in line with the leader map. */
    method AdoptGroups(leaders: Versioned)
      modifies this
      ensures gen == leaders.gen && buffer == Synced(old(buffer), leaders.value)
    {
      gen := leaders.gen;
      var todo := leaders.value.Keys;
      while todo != {}
        invariant gen == leaders.gen && todo <= leaders.value.Keys
        invariant buffer.Keys == old(buffer).Keys + (leaders.value.Keys - todo)
        invariant forall g | g in buffer :: buffer[g] == if g in old(buffer) then old(buffer)[g] else []
        decreases todo
      {
        var g :| g in todo;
        if g !in buffer { buffer := buffer[g := []]; }
        todo := todo - {g};
      }
      var removed := set g | g in buffer && g !in leaders.value;
      buffer := buffer - removed;
    }

    /** `receive`: the message comes from a known group and is addressed to this node, which leads. */
    method Receive(thisGid: GroupId, thisEid: EndpointId, leaders: Versioned, m: RemoteMessage<P>)
      returns (out: Option<P>, changes: seq<Change>)
      requires thisGid in leaders.value && m.fromGid in leaders.value
      requires gen >= leaders.gen ==> buffer.Keys == leaders.value.Keys
      requires leaders.value[thisGid].eid == thisEid == m.toLid.eid
      requires m.toLid.gen <= leaders.value[thisGid].gen
      modifies this
      ensures
        var b := if old(gen) < leaders.gen then Synced(old(buffer), leaders.value) else old(buffer);
        && gen == (if old(gen) < leaders.gen then leaders.gen else old(gen))
        && m.fromGid in b
        && if m.toLid.gen < leaders.value[thisGid].gen then out == None && changes == [] && buffer == b
           else
             var f := Filter(b[m.fromGid], leaders.value[m.fromGid].gen, m);
             && buffer == b[m.fromGid := f.buffer]
             && out == (if f.out.Some? then Some(f.out.value.payload) else None)
             && changes == (if f.change.Some? then [f.change.value] else [])
    {
      out, changes := None, [];
      if gen < leaders.gen { AdoptGroups(leaders); }
      if m.toLid.gen < leaders.value[thisGid].gen { return; }
      var g := m.fromGid;
      var b := buffer[g];
      if b != [] {
        var newGen := b[0].fromLid.gen;
        if m.fromLid.gen < newGen {
          assert buffer == buffer[g := b];
        } else if m.fromLid.gen == newGen {
          buffer := buffer[g := b + [m]];
        } else {
          buffer := buffer[g := [m]];
          changes := [Change(g, m.fromLid)];
        }
      } else {
        var curGen := leaders.value[g].gen;
        assert buffer == buffer[g := b];
        if m.fromLid.gen == curGen {
          out := Some(m.payload);
        } else if m.fromLid.gen > curGen {
          assert b + [m] == [m];
          buffer := buffer[g := b + [m]];
          changes := [Change(g, m.fromLid)];
        }
      }
    }

    /** `deliver_blocked_messages`: called when a leader change has been inserted. */
    method DeliverBlockedMessages(g: GroupId, lid: LeadershipId) returns (payloads: seq<P>)
      modifies this
      ensures gen == old(gen)
      ensures g !in old(buffer) ==> buffer == old(buffer) && payloads == []
      ensures g in old(buffer) ==>
        buffer == old(buffer)[g := Unblock(old(buffer)[g], lid.gen).0]
        && payloads == Payloads(Unblock(old(buffer)[g], lid.gen).1)
    {
      payloads := [];
      if g in buffer {
        var b := buffer[g];
        assert buffer == buffer[g := b];
        if b != [] {
          if lid.gen > b[0].fromLid.gen {
            buffer := buffer[g := []];
          } else if lid.gen == b[0].fromLid.gen {
            buffer := buffer[g := []];
            payloads := Payloads(b);
          }
        }
      }
    }

    /** `leader_changed`: a new leadership starts with nothing buffered. */
    method LeaderChanged()
      modifies this`buffer
      ensures buffer.Keys == old(buffer).Keys && forall g | g in buffer :: buffer[g] == []
    {
      var todo := buffer.Keys;
      while todo != {}
        invariant todo <= buffer.Keys == old(buffer).Keys
        invariant forall g | g in buffer && g !in todo :: buffer[g] == []
        decreases todo
      {
        var g :| g in todo;
        buffer := buffer[g := []];
        todo := todo - {g};
      }
    }
  }
}
