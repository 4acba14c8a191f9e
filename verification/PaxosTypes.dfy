/** The values exchanged and stored by `PaxosDriver` (src/paxos.rs, src/message.rs), with the
    membership of the Paxos group fixed, so that reconfiguration entries do not occur. */
module PaxosTypes {
  import opened Wrappers

  datatype EndpointId = EndpointId(name: string)
  type Rnd = nat
  type PLIndex = nat
  type UUID = nat

  datatype LeadershipId = LeadershipId(gen: nat, eid: EndpointId)

  /** One entry of the replicated log. The driver never inspects a bundle. */
  datatype PLEntry = Bundle(payload: int) | LeaderChanged(lid: LeadershipId)

  /** What an acceptor last accepted, if anything. */
  type Vote = Option<(Rnd, PLEntry)>

  datatype PaxosMessage =
    | Prepare(crnd: Rnd)
    | Promise(rnd: Rnd, vote: Vote)
    | Accept(crnd: Rnd, cval: PLEntry)
    | Learn(vrnd: Rnd)

  datatype Message =
    | Multi(sender: EndpointId, index: PLIndex, body: PaxosMessage)
    | IsLeader(lid: LeadershipId)
    | InformLearned(sender: EndpointId, shouldLearned: map<PLIndex, Rnd>)
    | LogSyncRequest(sender: EndpointId, nextIndex: PLIndex)
    | LogSyncResponse(learned: seq<(PLIndex, Rnd, PLEntry)>)
    | NextIndexRequest(sender: EndpointId)
    | NextIndexResponse(responder: EndpointId, nextIndex: PLIndex)

  datatype Send = Send(to: EndpointId, msg: Message)

  /** A buffered Paxos message; its index is the key it is buffered under. */
  datatype Letter = Letter(sender: EndpointId, body: PaxosMessage)

  datatype Proposal = Proposal(crnd: Rnd, cval: PLEntry, promises: seq<Vote>)

  datatype Instance = Instance(
    proposals: map<Rnd, Proposal>,
    latestCrnd: Rnd,
    rnd: Rnd,
    vote: Vote,
    learned: map<Rnd, nat>,
    learnedVrnd: Option<Rnd>)

  datatype Slot = Slot(instance: Option<Instance>, learned: Vote)

  const NEW_INSTANCE := Instance(map[], 0, 0, None, map[], None)

  /** The state of one driver. `me`, `nodes`, `threshold` and `increment` never change. */
  datatype Node = Node(
    me: EndpointId,
    nodes: seq<EndpointId>,
    threshold: nat,
    increment: nat,
    remote: map<EndpointId, PLIndex>,
    nextIndex: PLIndex,
    slots: map<PLIndex, Slot>,
    buffered: map<PLIndex, seq<Letter>>,
    leader: LeadershipId,
    heartbeat: nat,
    nextInsert: Option<(UUID, int)>)

  /** The outcome of a handler: the new state, the messages sent in order, the entries newly
      appended to this node's log, and whether every `unwrap` on the way succeeded. */
  datatype Out = Out(node: Node, sends: seq<Send>, learned: seq<PLEntry>, ok: bool)

  predicate Distinct<T(==)>(s: seq<T>) {
    forall j, k | 0 <= j < k < |s| :: s[j] != s[k]
  }

  function Majority(nodes: seq<EndpointId>): nat {
    |nodes| / 2 + 1
  }
}
