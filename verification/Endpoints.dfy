/**
  What the endpoint map of one `ConnectionManager` does, event by event, as functions on values:
  per peer, the transport connection in use or being made, with the messages waiting for it or
  written to it. The classes in `ConnectionManager.dfy` are proved to follow these functions.
 */
module Endpoints {
  type NodeId = string
  type ConnectionId = nat
  type Message = string

  // ------------------------------------------------------------------ offering.ts

  datatype Offerer = Local | Remote

  /** `hash` stands for the first four bytes of the MD5 of the id pair. */
  function GetOfferer(hash: string -> int, local: NodeId, remote: NodeId): Offerer {
    if hash(local + "," + remote) < hash(remote + "," + local) then Local else Remote
  }

  /**
    The two ends name the same offerer exactly when the two hashes differ, and then the node whose own
    ordering of the pair has the smaller hash; otherwise each names the other.
   */
  lemma OfferersAgree(hash: string -> int, a: NodeId, b: NodeId)
    ensures GetOfferer(hash, a, b) != GetOfferer(hash, b, a) <==> hash(a + "," + b) != hash(b + "," + a)
    ensures GetOfferer(hash, a, b) == GetOfferer(hash, b, a) ==> GetOfferer(hash, a, b) == Remote
    ensures hash(a + "," + b) < hash(b + "," + a)
        ==> GetOfferer(hash, a, b) == Local && GetOfferer(hash, b, a) == Remote
  {
  }

  // ------------------------------------------------------------------ views of the endpoint map

  datatype View =
    | Connecting(id: ConnectionId, buffered: seq<Message>)
    | Connected(id: ConnectionId, sent: seq<Message>)

  type Views = map<NodeId, View>

  predicate Refuses(vs: Views, peer: NodeId, offerer: Offerer) {
    peer in vs && offerer == Local
  }

  /** A new connection to or from the peer is offered to the manager. */
  function AfterNewConnection(vs: Views, peer: NodeId, offerer: Offerer, id: ConnectionId): Views {
    if Refuses(vs, peer, offerer) then vs
    else if peer in vs && vs[peer].Connecting? then vs[peer := Connecting(id, vs[peer].buffered)]
    else vs[peer := Connecting(id, [])]
  }

  /** The pending connection `id` reports that it is connected: what waited is written, in order. */
  function AfterConnected(vs: Views, peer: NodeId, id: ConnectionId): Views {
    if peer in vs && vs[peer].Connecting? && vs[peer].id == id then vs[peer := Connected(id, vs[peer].buffered)] else vs
  }

  /** The pending connection `id` reports that it is gone. */
  function AfterPendingGone(vs: Views, peer: NodeId, id: ConnectionId): Views {
    if peer in vs && vs[peer].Connecting? && vs[peer].id == id then vs - {peer} else vs
  }

  /** The established connection `id` reports that it is gone. */
  function AfterConnectionGone(vs: Views, peer: NodeId, id: ConnectionId): Views {
    if peer in vs && vs[peer].Connected? && vs[peer].id == id then vs - {peer} else vs
  }

  /** What waits for the peer is thrown away, and the endpoint stays. */
  function AfterDrop(vs: Views, peer: NodeId): Views {
    if peer in vs && vs[peer].Connecting? then vs[peer := Connecting(vs[peer].id, [])] else vs
  }

  /** A message for a peer with an endpoint waits in its buffer, or follows what was written before. */
  function AfterSend(vs: Views, peer: NodeId, message: Message): Views
    requires peer in vs
  {
    match vs[peer]
    case Connecting(id, buffered) => vs[peer := Connecting(id, buffered + [message])]
    case Connected(id, sent) => vs[peer := Connected(id, sent + [message])]
  }
}
