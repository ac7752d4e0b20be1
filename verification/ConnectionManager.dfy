/**
  `ConnectionManager.ts` and the handshaker callbacks that drive it. JavaScript runs an event to
  completion, so every event is one method; each is proved to make the step of `Connections.dfy`.
 */
module ConnectionManagers {
  import opened Wrappers
  import opened Defers
  import opened Endpoints
  import opened ConnectionParts
  import opened Connections

  // ------------------------------------------------------------------ Handshaker.ts

  datatype HandshakeError = DuplicateConnection | InvalidTargetPeerDescriptor | UnsupportedProtocolVersion

  const LOCAL_MAJOR_VERSION := 1

  /** `None` stands for a version string that cannot be parsed. */
  predicate IsMaybeSupported(remoteMajor: Option<int>) {
    remoteMajor.Some? && remoteMajor.value >= LOCAL_MAJOR_VERSION
  }

  function JudgeResponse(remoteMajor: Option<int>, error: Option<HandshakeError>): Option<HandshakeError> {
    if !IsMaybeSupported(remoteMajor) then Some(UnsupportedProtocolVersion) else error
  }

  /** On a duplicate the handshaker waits for the other end to close. */
  function AfterResponse(s: State, id: ConnectionId, verdict: Option<HandshakeError>): State
    requires Inv(s) && id in s.pendings
  {
    if !s.pendings[id].handshaking then s
    else match verdict
      case None => HandshakeCompleted(s, id)
      case Some(DuplicateConnection) => s
      case Some(_) => HandshakerClosed(s, id)
  }

  /** The other end speaks no version that is understood. */
  predicate Unsupported(remoteMajor: Option<int>) { remoteMajor.None? || remoteMajor.value < 1 }

  /**
    A response while the handshaker listens: with a supported version and no error it establishes the
    stored connection, if that can complete; with a duplicate it changes nothing and the handshaker
    goes on; else it closes the connection for good. Once the handshaker has stopped it is ignored.
   */
  lemma ResponseExactly(s: State, id: ConnectionId, remoteMajor: Option<int>, error: Option<HandshakeError>)
    requires Inv(s) && id in s.pendings
    ensures var p, t := s.pendings[id], AfterResponse(s, id, JudgeResponse(remoteMajor, error));
      && Inv(t) && id in t.pendings
      && if !p.handshaking then t == s
         else if !Unsupported(remoteMajor) && error == Some(DuplicateConnection) then t == s
         else
           && !t.pendings[id].handshaking
           && ViewsOf(t)
              == if !Unsupported(remoteMajor) && error.None? then
                   if p.CanComplete() then AfterConnected(ViewsOf(s), p.peer, id) else ViewsOf(s)
                 else if p.EmitsDisconnected() then AfterPendingGone(ViewsOf(s), p.peer, id) else ViewsOf(s)
  {
    HandshakeCompletedKeeps(s, id);
    HandshakerClosedKeeps(s, id);
    ReportsOnlyStored(s, id);
  }

  lemma ReportsOnlyStored(s: State, id: ConnectionId)
    requires Inv(s) && id in s.pendings
    ensures Stores(s, id) && s.pendings[id].Live() ==> s.pendings[id].EmitsDisconnected()
    ensures !Stores(s, id) ==> AfterPendingGone(ViewsOf(s), s.pendings[id].peer, id) == ViewsOf(s)
    ensures !Stores(s, id) ==> AfterConnected(ViewsOf(s), s.pendings[id].peer, id) == ViewsOf(s)
  {
    if Stores(s, id) {
      assert EndpointOk(s, s.pendings[id].peer);
    }
  }

  /** The names of a new connection and of a buffer for it. */
  predicate Fresh(s: State, id: ConnectionId, b: BufferId) { id !in s.pendings && b !in s.buffers }

  /** An incoming handshake request that was judged acceptable: taken and completed, or refused and destroyed. */
  function AfterRequest(s: State, peer: NodeId, offerer: Offerer, id: ConnectionId, b: BufferId): State
    requires Inv(s) && Fresh(s, id, b)
  {
    NewConnectionKeeps(s, peer, offerer, id, b);
    RefersToKnown(s, peer);
    var t := NewConnection(s, peer, offerer, id, b);
    if Takes(s, peer, offerer) then HandshakeCompleted(t, id) else PendingDestroyed(t, id)
  }

  lemma TakenRequestKeeps(s: State, peer: NodeId, offerer: Offerer, id: ConnectionId, b: BufferId)
    requires Inv(s) && Fresh(s, id, b) && Takes(s, peer, offerer)
    ensures var t := AfterRequest(s, peer, offerer, id, b);
            Inv(t) && ViewsOf(t) == AfterConnected(AfterNewConnection(ViewsOf(s), peer, offerer, id), peer, id)
  {
    NewConnectionKeeps(s, peer, offerer, id, b);
    RefersToKnown(s, peer);
    var t := NewConnection(s, peer, offerer, id, b);
    NewConnectionIsLive(s, peer, offerer, id, b);
    HandshakeCompletedKeeps(t, id);
  }

  lemma NewConnectionIsLive(s: State, peer: NodeId, offerer: Offerer, id: ConnectionId, b: BufferId)
    requires Inv(s) && Fresh(s, id, b) && Refers(s, peer)
    ensures var t := NewConnection(s, peer, offerer, id, b);
            && id in t.pendings && t.pendings[id].peer == peer
            && (Takes(s, peer, offerer) ==> t.pendings[id].CanComplete())
  {
    if peer in s.endpoints {
      assert EndpointOk(s, peer);
    }
  }

  lemma RefusedRequestKeeps(s: State, peer: NodeId, offerer: Offerer, id: ConnectionId, b: BufferId)
    requires Inv(s) && Fresh(s, id, b) && !Takes(s, peer, offerer)
    ensures var t := AfterRequest(s, peer, offerer, id, b); Inv(t) && ViewsOf(t) == ViewsOf(s)
  {
    NewConnectionKeeps(s, peer, offerer, id, b);
    RefersToKnown(s, peer);
    PendingDestroyedKeeps(NewConnection(s, peer, offerer, id, b), id);
  }

  /** Accepting an incoming request establishes its connection at once; refusing it leaves the endpoints alone. */
  lemma AfterRequestKeeps(s: State, peer: NodeId, offerer: Offerer, id: ConnectionId, b: BufferId)
    requires Inv(s) && Fresh(s, id, b)
    ensures var t := AfterRequest(s, peer, offerer, id, b);
            && Inv(t)
            && ViewsOf(t) == if Takes(s, peer, offerer)
                then AfterConnected(AfterNewConnection(ViewsOf(s), peer, offerer, id), peer, id)
                             else ViewsOf(s)
  {
    if Takes(s, peer, offerer) {
      TakenRequestKeeps(s, peer, offerer, id, b);
    } else {
      RefusedRequestKeeps(s, peer, offerer, id, b);
    }
  }

  // ------------------------------------------------------------------ the manager

  lemma NewConnectionKeepsInv(s: State, peer: NodeId, offerer: Offerer, id: ConnectionId, b: BufferId)
    requires Inv(s) && Offerable(s, peer, id, b) && Refers(s, peer)
    ensures Inv(NewConnection(s, peer, offerer, id, b))
  {
    NewConnectionKeeps(s, peer, offerer, id, b);
  }

  /** It makes no difference whether the offered connection is in the table before it is accepted. */
  lemma AcceptedAsOffered(s: State, peer: NodeId, id: ConnectionId, b: BufferId, offered: Pending)
    requires Refers(s, peer)
    ensures Refers(WithPending(s, id, offered), peer)
    ensures Accept(WithPending(s, id, offered), peer, id, b, offered) == Accept(s, peer, id, b, offered)
  {
    assert s.pendings[id := offered][id := offered.Heard()] == s.pendings[id := offered.Heard()];
  }

  datatype Websocket = Websocket(host: string, port: int)

  /** What `closeConnection` sets off. */
  datatype Closing = ClosesPending(id: ConnectionId) | ClosesTransport(id: ConnectionId) | ReportsDisconnected

  class ConnectionManager {
    const localNodeId: NodeId
    const localWebsocket: Option<Websocket>
    const offeringHash: string -> int
    var endpoints: map<NodeId, Endpoint>
    var state: Phase
    /** The objects the manager and the handshakers deal with, by transport connection. */
    var pendings: map<ConnectionId, Pending>
    var manageds: map<ConnectionId, Managed>
    var buffers: map<BufferId, Buffer>
    ghost var homes: map<BufferId, NodeId>
    ghost var carriers: map<BufferId, ConnectionId>
    /** The buffers of endpoints that `stop` waits for in vain. */
    var doomed: set<BufferId>

    ghost function Value(): State
      reads this
    {
      State(endpoints, pendings, manageds, buffers, homes, carriers, doomed, state)
    }

    ghost predicate Valid()
      reads this
    {
      Inv(Value())
    }

    constructor (localNodeId: NodeId, localWebsocket: Option<Websocket>, offeringHash: string -> int)
      ensures Valid() && Value() == INITIAL_STATE
    {
      this.localNodeId, this.localWebsocket, this.offeringHash := localNodeId, localWebsocket, offeringHash;
      endpoints, pendings, manageds, buffers := map[], map[], map[], map[];
      homes, carriers, doomed := map[], map[], {};
      state := Idle;
    }

    function OffererFor(peer: NodeId): Offerer { GetOfferer(offeringHash, localNodeId, peer) }

    /** A peer is this node if it has its id, or the address of its websocket server. */
    predicate IsConnectionToSelf(peer: NodeId, websocket: Option<Websocket>): (self: bool)
      ensures peer == localNodeId ==> self
      ensures self && peer != localNodeId ==> websocket.Some? && localWebsocket.Some?
      ensures websocket.Some? && localWebsocket.Some? && peer != localNodeId ==>
        (self <==> websocket.value.host == localWebsocket.value.host
                   && websocket.value.port == localWebsocket.value.port)
    {
      peer == localNodeId || (websocket.Some? && websocket == localWebsocket)
    }

    // ---------------------------------------------------------------- listeners

    method OnConnected(peer: NodeId, id: ConnectionId)
      requires peer in endpoints && endpoints[peer].ConnectingEndpoint?
      requires endpoints[peer].buffer in buffers && endpoints[peer].pending in pendings
      modifies this
      ensures Value() == Connections.OnConnected(old(Value()), peer, id)
    {
      var managed := Managed(peer, false, true, [], endpoints[peer].buffer, []);
      var outputBuffer, pendingConnection := endpoints[peer].buffer, endpoints[peer].pending;
      var waiting := buffers[outputBuffer].waiting;
      while waiting != []
        invariant managed == Managed(peer, false, true, managed.sent, outputBuffer, [])
        invariant managed.sent + waiting == buffers[outputBuffer].waiting
        decreases |waiting|
      {
        managed := managed.Send(waiting[0]);
        waiting := waiting[1..];
      }
      assert managed.sent == buffers[outputBuffer].waiting;
      buffers := buffers[outputBuffer := buffers[outputBuffer].Resolve()];
      pendings := pendings[pendingConnection := pendings[pendingConnection].Destroy()];
      manageds := manageds[id := managed];
      endpoints := endpoints[peer := ConnectedEndpoint(id)];
      carriers := carriers[outputBuffer := id];
    }

    method OnDisconnected(peer: NodeId)
      requires peer in endpoints && endpoints[peer].ConnectingEndpoint? ==> endpoints[peer].buffer in buffers
      modifies this
      ensures Value() == Connections.OnDisconnected(old(Value()), peer)
    {
      if peer in endpoints {
        if endpoints[peer].ConnectingEndpoint? {
          var buffer := endpoints[peer].buffer;
          buffers := buffers[buffer := buffers[buffer].Reject()];
        }
        endpoints := endpoints - {peer};
      }
    }

    // ---------------------------------------------------------------- events

    /** `b` names the output buffer, should one be made; a refused connection gets no listeners. */
    method OnNewConnection(peer: NodeId, id: ConnectionId, b: BufferId) returns (accepted: bool)
      requires Valid() && Offerable(Value(), peer, id, b)
      modifies this
      ensures Valid() && Refers(old(Value()), peer)
          && Value() == NewConnection(old(Value()), peer, OffererFor(peer), id, b)
      ensures accepted == Takes(old(Value()), peer, OffererFor(peer))
    {
      ghost var start := Value();
      RefersToKnown(start, peer);
      NewConnectionKeepsInv(start, peer, OffererFor(peer), id, b);
      pendings := pendings[id := Offer(pendings, peer, id)];
      if state == Stopped {
        return false;
      }
      accepted := AcceptNewConnection(peer, id, b);
      if accepted {
        pendings := pendings[id := pendings[id].Heard()];
        AcceptedAsOffered(start, peer, id, b, Offer(start.pendings, peer, id));
      }
      assert Value() == NewConnection(start, peer, OffererFor(peer), id, b);
    }

    /** Leaves the two listeners of the new connection to its caller; it may be the very one that it replaces. */
    method AcceptNewConnection(peer: NodeId, id: ConnectionId, b: BufferId) returns (accepted: bool)
      requires Refers(Value(), peer) && id in pendings
      modifies this
      ensures accepted == !(peer in old(endpoints) && OffererFor(peer) == Local) && id in pendings
      ensures if accepted then WithPending(Value(), id, pendings[id].Heard())
          == Accept(old(Value()), peer, id, b, old(pendings[id]))
                          else Value() == old(Value())
    {
      if peer in endpoints {
        if OffererFor(peer) == Remote {
          var buffer := ReplaceOld(peer, b);
          endpoints := endpoints[peer := ConnectingEndpoint(id, buffer)];
          return true;
        } else {
          return false;
        }
      }
      buffers := buffers[b := EMPTY_BUFFER];
      homes := homes[b := peer];
      endpoints := endpoints[peer := ConnectingEndpoint(id, b)];
      return true;
    }

    /** The old connection is marked as replaced; only a connecting one hands over its buffer. */
    method ReplaceOld(peer: NodeId, b: BufferId) returns (buffer: BufferId)
      requires peer in endpoints && Refers(Value(), peer)
      modifies this
      ensures match old(endpoints[peer])
        case ConnectedEndpoint(m) =>
          buffer == b && Value() == old(Value()).(
            buffers := old(buffers)[b := EMPTY_BUFFER], homes := old(homes)[b := peer],
            manageds := old(manageds)[m := old(manageds[m]).(replacedAsDuplicate := true)])
        case ConnectingEndpoint(p, kept) =>
          buffer == kept && Value()
              == old(Value()).(pendings := old(pendings)[p := old(pendings[p]).(replacedAsDuplicate := true)])
    {
      match endpoints[peer] {
        case ConnectedEndpoint(m) =>
          buffer := b;
          buffers := buffers[b := EMPTY_BUFFER];
          homes := homes[b := peer];
          manageds := manageds[m := manageds[m].(replacedAsDuplicate := true)];
        case ConnectingEndpoint(p, kept) =>
          buffer := kept;
          pendings := pendings[p := pendings[p].(replacedAsDuplicate := true)];
      }
    }

    /** `pendingConnection.onHandshakeCompleted(connection)`, after which its handshaker stops. */
    method OnHandshakeCompleted(id: ConnectionId)
      requires Valid() && id in pendings
      modifies this
      ensures Valid() && Value() == HandshakeCompleted(old(Value()), id)
    {
      HandshakeCompletedKeeps(Value(), id);
      if pendings[id].handshaking {
        var pending := pendings[id];
        pendings := pendings[id := pending.OnHandshakeCompleted().(handshaking := false)];
        if pending.EmitsConnected() {
          OnConnected(pending.peer, id);
        }
      }
    }

    method ClosePending(id: ConnectionId)
      requires Valid() && id in pendings
      modifies this
      ensures Valid() && Value() == PendingClosed(old(Value()), id)
    {
      PendingClosedKeeps(Value(), id);
      var pending := pendings[id];
      pendings := pendings[id := pending.Close()];
      if pending.EmitsDisconnected() {
        OnDisconnected(pending.peer);
      }
    }

    /** The transport of an established connection closes. */
    method OnManagedClosed(id: ConnectionId)
      requires Valid() && id in manageds
      modifies this
      ensures Valid() && Value() == ManagedClosed(old(Value()), id)
    {
      ManagedClosedKeeps(Value(), id);
      var managed := manageds[id];
      manageds := manageds[id := managed.(listening := false)];
      if managed.EmitsDisconnected() {
        OnDisconnected(managed.peer);
      }
    }

    /** A handshake response arrives on an outgoing connection. */
    method OnHandshakeResponse(id: ConnectionId, remoteMajor: Option<int>, error: Option<HandshakeError>)
      requires Valid() && id in pendings
      modifies this
      ensures Valid() && Value() == AfterResponse(old(Value()), id, JudgeResponse(remoteMajor, error))
    {
      if !pendings[id].handshaking {
        return;
      }
      var verdict := JudgeResponse(remoteMajor, error);
      match verdict {
        case None => OnHandshakeCompleted(id);
        case Some(e) =>
          if e == InvalidTargetPeerDescriptor || e == UnsupportedProtocolVersion {
            CloseFromHandshaker(id);
          }
      }
    }

    /** The transport of an outgoing connection closes, or its handshake fails for good. */
    method CloseFromHandshaker(id: ConnectionId)
      requires Valid() && id in pendings
      modifies this
      ensures Valid() && Value() == HandshakerClosed(old(Value()), id)
    {
      HandshakerClosedKeeps(Value(), id);
      ClosePending(id);
      pendings := pendings[id := pendings[id].(handshaking := false)];
    }

    /** A handshake request arrives: `acceptHandshake` if the manager takes the connection, else `rejectHandshake`. */
    method OnHandshakeRequest(peer: NodeId, id: ConnectionId, b: BufferId) returns (accepted: bool)
      requires Valid() && Fresh(Value(), id, b)
      modifies this
      ensures Valid() && Value() == AfterRequest(old(Value()), peer, OffererFor(peer), id, b)
      ensures accepted == Takes(old(Value()), peer, OffererFor(peer))
    {
      AfterRequestKeeps(Value(), peer, OffererFor(peer), id, b);
      accepted := OnNewConnection(peer, id, b);
      if accepted {
        OnHandshakeCompleted(id);
      } else {
        RejectHandshake(id);
      }
    }

    /**
      `rejectHandshake` as the manager's table sees it. Called for a pending connection that is
      already stored, it leaves the endpoint behind with nobody to report on it.
     */
    method RejectHandshake(id: ConnectionId)
      requires Valid() && id in pendings
      modifies this
      ensures Valid() && Value() == PendingDestroyed(old(Value()), id)
    {
      PendingDestroyedKeeps(Value(), id);
      pendings := pendings[id := pendings[id].Destroy()];
    }

    method Send(peer: NodeId, websocket: Option<Websocket>, message: Message, opts: SendOptions, id: ConnectionId,
                b: BufferId)
      returns (result: SendResult)
      requires Valid() && Offerable(Value(), peer, id, b)
      modifies this
      ensures Valid()
      ensures (Value(), result)
           == Connections.Send(old(Value()), IsConnectionToSelf(peer, websocket), peer, message, opts,
                               OffererFor(peer), id, b)
    {
      SendKeeps(Value(), IsConnectionToSelf(peer, websocket), peer, message, opts, OffererFor(peer), id, b);
      if (state == Stopped || state == Stopping) && !opts.sendIfStopped {
        return Ignored;
      }
      if IsConnectionToSelf(peer, websocket) {
        return CannotConnectToSelf;
      }
      if peer !in endpoints && opts.connect {
        var _ := OnNewConnection(peer, id, b);
      } else if peer !in endpoints || (endpoints[peer].ConnectingEndpoint? && !opts.connect) {
        return SendFailed;
      }
      result := DeliverTo(peer, message, opts);
    }

    method DeliverTo(peer: NodeId, message: Message, opts: SendOptions) returns (result: SendResult)
      requires Valid()
      modifies this
      ensures Valid() && (Value(), result) == Deliver(old(Value()), peer, message, opts)
    {
      if peer !in endpoints {
        return NoEndpoint;
      }
      DeliverKeeps(Value(), peer, message, opts);
      assert EndpointOk(Value(), peer);
      match endpoints[peer] {
        case ConnectedEndpoint(m) =>
          var managed := manageds[m];
          manageds := manageds[m := managed.Send(message).(direct := managed.direct + [message])];
          return Written;
        case ConnectingEndpoint(p, b) =>
          if opts.bufferWhileConnecting {
            buffers := buffers[b := buffers[b].Push(message)];
            return Buffered;
          }
          return Dropped;
      }
    }

    /**
      A pending connection is closed here, an established one by its transport; for no endpoint there is
      only a report.
     */
    method Close(peer: NodeId) returns (closing: Closing)
      requires Valid()
      modifies this
      ensures Valid() && Value() == CloseConnection(old(Value()), peer)
      ensures closing == if peer !in old(endpoints) then ReportsDisconnected
                         else match old(endpoints[peer])
                           case ConnectingEndpoint(p, _) => ClosesPending(p)
                           case ConnectedEndpoint(m) => ClosesTransport(m)
    {
      if peer !in endpoints {
        return ReportsDisconnected;
      }
      assert EndpointOk(Value(), peer);
      match endpoints[peer] {
        case ConnectingEndpoint(p, _) =>
          closing := ClosesPending(p);
          ClosePending(p);
        case ConnectedEndpoint(m) =>
          closing := ClosesTransport(m);
      }
    }

    method Start() returns (started: bool)
      requires Valid()
      modifies this
      ensures Valid() && started == (old(state) != Running && old(state) != Stopped)
      ensures Value() == if started then old(Value()).(phase := Running) else old(Value())
    {
      if state == Running || state == Stopped {
        return false;
      }
      PhaseKeeps(Value(), Running);
      state := Running;
      return true;
    }

    /**
      `stop` up to its first await: connections that are not handshaked are closed, in the order of
      the map. Those that cannot report their end any more are waited for, for two seconds.
     */
    method BeginStop(peers: seq<NodeId>)
      requires Valid() && forall n :: n in peers <==> n in endpoints
      modifies this
      ensures Valid()
      ensures Value() == if old(state) == Stopped || old(state) == Stopping then old(Value())
          else CloseAll(StopBegun(old(Value())), peers)
    {
      if state == Stopped || state == Stopping {
        return;
      }
      StopBegunKeeps(Value());
      doomed := doomed + StrandedBuffers(State(endpoints, pendings, manageds, buffers, map[], map[], doomed, state));
      state := Stopping;
      ghost var start := Value();
      assert start == StopBegun(old(Value()));
      for k := 0 to |peers|
        invariant Valid() && Value() == CloseAll(start, peers[..k])
      {
        assert peers[..k + 1][..k] == peers[..k] && peers[..k + 1][k] == peers[k];
        var _ := Close(peers[k]);
      }
      assert peers[..|peers|] == peers;
    }

    /** The two seconds are over: the buffer is rejected. */
    method OnStopTimeout(b: BufferId)
      requires Valid() && b in doomed && b in buffers
      modifies this
      ensures Valid() && Value() == Fallback(old(Value()), b)
    {
      FallbackKeeps(Value(), b);
      buffers := buffers[b := buffers[b].Reject()];
    }

    /** The connectors have stopped. */
    method FinishStop()
      requires Valid()
      modifies this
      ensures Valid() && Value() == old(Value()).(phase := Stopped)
    {
      PhaseKeeps(Value(), Stopped);
      state := Stopped;
    }
  }

  /** `closeConnection` for each of the peers in turn. */
  ghost function CloseAll(s: State, peers: seq<NodeId>): (t: State)
    requires Inv(s)
    ensures Inv(t)
  {
    if peers == [] then s
    else
      var t := CloseAll(s, peers[..|peers| - 1]);
      CloseConnectionKeeps(t, peers[|peers| - 1]);
      CloseConnection(t, peers[|peers| - 1])
  }

  lemma CloseConnectionKeeps(s: State, peer: NodeId)
    requires Inv(s)
    ensures var t := CloseConnection(s, peer);
            Inv(t) && ViewsOf(t) == if Closable(s, peer) then ViewsOf(s) - {peer} else ViewsOf(s)
  {
    if peer in s.endpoints && s.endpoints[peer].ConnectingEndpoint? {
      assert EndpointOk(s, peer);
      PendingClosedKeeps(s, s.endpoints[peer].pending);
    }
  }

  /** The peer's connection is being made, and will report its end. */
  ghost predicate Closable(s: State, peer: NodeId) {
    && peer in s.endpoints && s.endpoints[peer].ConnectingEndpoint?
    && s.endpoints[peer].pending in s.pendings && s.pendings[s.endpoints[peer].pending].Live()
  }

  lemma CloseConnectionElsewhere(s: State, peer: NodeId, other: NodeId)
    requires Inv(s) && peer != other
    ensures Closable(CloseConnection(s, peer), other) <==> Closable(s, other)
  {
    if peer in s.endpoints && s.endpoints[peer].ConnectingEndpoint? {
      assert EndpointOk(s, peer);
    }
  }

  lemma NotClosableTwice(s: State, peer: NodeId)
    requires Inv(s)
    ensures !Closable(CloseConnection(s, peer), peer)
  {
    if peer in s.endpoints {
      assert EndpointOk(s, peer);
    }
  }

  /** Closing one connection changes what that says of a peer only for that peer. */
  lemma CloseConnectionLeaves(s: State, peer: NodeId, n: NodeId)
    requires Inv(s)
    ensures var t := CloseConnection(s, peer);
      && Inv(t)
      && (Closable(t, n) <==> Closable(s, n) && n != peer)
      && (n in ViewsOf(t) <==> n in ViewsOf(s) && !(n == peer && Closable(s, n)))
      && (n in ViewsOf(t) ==> ViewsOf(t)[n] == ViewsOf(s)[n])
  {
    CloseConnectionKeeps(s, peer);
    if n == peer {
      NotClosableTwice(s, peer);
    } else {
      CloseConnectionElsewhere(s, peer, n);
    }
  }

  /**
    After closing them all, a peer's endpoint is gone exactly if its connection was being made and
    could still report its end; every other endpoint, established or stranded, is as it was.
   */
  lemma {:induction false} CloseAllLeaves(s: State, peers: seq<NodeId>, n: NodeId)
    requires Inv(s)
    ensures var t := CloseAll(s, peers);
      && (Closable(t, n) <==> Closable(s, n) && n !in peers)
      && (n in ViewsOf(t) <==> n in ViewsOf(s) && !(n in peers && Closable(s, n)))
      && (n in ViewsOf(t) ==> ViewsOf(t)[n] == ViewsOf(s)[n])
  {
    if peers != [] {
      var before, last := peers[..|peers| - 1], peers[|peers| - 1];
      assert peers == before + [last];
      CloseAllLeaves(s, before, n);
      CloseConnectionLeaves(CloseAll(s, before), last, n);
      assert CloseAll(s, peers) == CloseConnection(CloseAll(s, before), last);
      assert n in peers <==> n in before || n == last;
    }
  }
}
