/**
  The connection manager's state and the events that change it, as functions on values: what every
  event keeps in every run, what it does to the endpoint map, and what becomes of a buffered message.
 */
module Connections {
  import opened Defers
  import opened Endpoints
  import opened ConnectionParts

  type BufferId = nat

  datatype Endpoint =
    | ConnectingEndpoint(pending: ConnectionId, buffer: BufferId)
    | ConnectedEndpoint(managed: ConnectionId)

  datatype Phase = Idle | Running | Stopping | Stopped

  /**
    Objects are named by the transport connection they belong to. Nothing is ever removed from the
    object tables. `homes` holds the peer a buffer was made for, `carriers` the connection it was
    written to, and `doomed` are the buffers that `stop` is about to reject.
   */
  datatype State = State(
    endpoints: map<NodeId, Endpoint>,
    pendings: map<ConnectionId, Pending>,
    manageds: map<ConnectionId, Managed>,
    buffers: map<BufferId, Buffer>,
    homes: map<BufferId, NodeId>,
    carriers: map<BufferId, ConnectionId>,
    doomed: set<BufferId>,
    phase: Phase
  )

  const INITIAL_STATE := State(map[], map[], map[], map[], map[], map[], {}, Idle)

  // ------------------------------------------------------------------ what holds in every reachable state

  ghost predicate Stores(s: State, p: ConnectionId) {
    && p in s.pendings
    && s.pendings[p].peer in s.endpoints
    && s.endpoints[s.pendings[p].peer].ConnectingEndpoint?
    && s.endpoints[s.pendings[p].peer].pending == p
  }

  ghost predicate Holds(s: State, m: ConnectionId) {
    && m in s.manageds
    && s.manageds[m].peer in s.endpoints
    && s.endpoints[s.manageds[m].peer] == ConnectedEndpoint(m)
  }

  /** The buffer waits in the endpoint of its peer. */
  ghost predicate Waits(s: State, b: BufferId) {
    && b in s.homes
    && s.homes[b] in s.endpoints
    && s.endpoints[s.homes[b]].ConnectingEndpoint?
    && s.endpoints[s.homes[b]].buffer == b
  }

  /**
    An endpoint names objects of its peer, and a pending connection that is neither stopped nor
    replaced has the manager's listeners. The promise of its buffer is open, unless the fallback of
    `stop` has rejected it.
   */
  ghost predicate EndpointOk(s: State, n: NodeId)
    requires n in s.endpoints
  {
    match s.endpoints[n]
    case ConnectingEndpoint(p, b) =>
      && p in s.pendings && s.pendings[p].peer == n
      && (s.pendings[p].Live() ==> s.pendings[p].connectedListener && s.pendings[p].disconnectedListener)
      && b in s.buffers && b in s.homes && s.homes[b] == n && b !in s.carriers
      && (s.buffers[b].promise == Open || (s.buffers[b].promise == Rejected && b in s.doomed))
    case ConnectedEndpoint(m) =>
      m in s.manageds && s.manageds[m].peer == n && !s.manageds[m].replacedAsDuplicate
  }

  /** A pending connection that can still report something is the stored one. */
  ghost predicate PendingOk(s: State, p: ConnectionId)
    requires p in s.pendings
  {
    var c := s.pendings[p];
    && (c.CanComplete() ==> Stores(s, p))
    && (c.Live() && (c.connectedListener || c.disconnectedListener) ==> Stores(s, p))
  }

  /** So is an established one; and what it wrote is what waited in its opening buffer, then the direct sends. */
  ghost predicate ManagedOk(s: State, m: ConnectionId)
    requires m in s.manageds
  {
    var c := s.manageds[m];
    && (c.EmitsDisconnected() ==> Holds(s, m))
    && m in s.pendings && s.pendings[m].peer == c.peer && !s.pendings[m].handshaking
    && c.opening in s.carriers && s.carriers[c.opening] == m
    && c.opening in s.buffers
    && s.buffers[c.opening].dropped + c.sent == s.buffers[c.opening].pushed + c.direct
  }

  /**
    An open buffer waits with all it was given, a resolved one was written to one connection. A
    rejected one has lost what it had, and only after the fallback of `stop` can it get more.
   */
  ghost predicate BufferOk(s: State, b: BufferId)
    requires b in s.buffers
  {
    var buffer := s.buffers[b];
    && b in s.homes && buffer.dropped <= buffer.pushed
    && (buffer.promise == Open ==> Waits(s, b))
    && (buffer.promise == Resolved ==> b in s.carriers)
    && (buffer.promise == Rejected && b in s.carriers ==> b in s.doomed)
    && (buffer.promise != Rejected ==> buffer.dropped == [])
    && (buffer.waiting != [] ==> Waits(s, b))
    && (if b in s.carriers then
          && buffer.promise != Open && buffer.waiting == []
          && s.carriers[b] in s.manageds && s.manageds[s.carriers[b]].opening == b
        else buffer.pushed == buffer.dropped + buffer.waiting)
  }

  ghost predicate EndpointsValid(s: State) {
    forall n <- s.endpoints :: EndpointOk(s, n)
  }

  ghost predicate PendingsValid(s: State) {
    forall p <- s.pendings :: PendingOk(s, p)
  }

  ghost predicate ManagedsValid(s: State) {
    forall m <- s.manageds :: ManagedOk(s, m)
  }

  ghost predicate BuffersValid(s: State) {
    && s.carriers.Keys <= s.buffers.Keys && s.doomed <= s.buffers.Keys
    && forall b <- s.buffers :: BufferOk(s, b)
  }

  ghost predicate Inv(s: State) {
    EndpointsValid(s) && PendingsValid(s) && ManagedsValid(s) && BuffersValid(s)
  }

  ghost function ViewOf(s: State, n: NodeId): View
    requires n in s.endpoints && EndpointOk(s, n)
  {
    match s.endpoints[n]
    case ConnectingEndpoint(p, b) => Connecting(p, s.buffers[b].waiting)
    case ConnectedEndpoint(m) => Connected(m, s.manageds[m].sent)
  }

  ghost function ViewsOf(s: State): Views
    requires EndpointsValid(s)
  {
    map n <- s.endpoints :: ViewOf(s, n)
  }

  // ------------------------------------------------------------------ the manager's listeners

  function OnDisconnected(s: State, peer: NodeId): State
    requires peer in s.endpoints && s.endpoints[peer].ConnectingEndpoint? ==> s.endpoints[peer].buffer in s.buffers
  {
    if peer !in s.endpoints then s
    else if s.endpoints[peer].ConnectingEndpoint? then
      var b := s.endpoints[peer].buffer;
      s.(endpoints := s.endpoints - {peer}, buffers := s.buffers[b := s.buffers[b].Reject()])
    else s.(endpoints := s.endpoints - {peer})
  }

  /**
    The source reads the endpoint without a check and casts it to a connecting one: that is the
    `requires`. Everything in the buffer is written to the new connection, and the promise resolved.
   */
  function OnConnected(s: State, peer: NodeId, id: ConnectionId): State
    requires peer in s.endpoints && s.endpoints[peer].ConnectingEndpoint?
    requires s.endpoints[peer].buffer in s.buffers && s.endpoints[peer].pending in s.pendings
  {
    var ConnectingEndpoint(p, b) := s.endpoints[peer];
    s.(endpoints := s.endpoints[peer := ConnectedEndpoint(id)],
       pendings := s.pendings[p := s.pendings[p].Destroy()],
       manageds := s.manageds[id := Managed(peer, false, true, s.buffers[b].waiting, b, [])],
       buffers := s.buffers[b := s.buffers[b].Resolve()],
       carriers := s.carriers[b := id])
  }

  // ------------------------------------------------------------------ events

  /** The endpoint of the peer, if there is one, names a known object. */
  predicate Refers(s: State, peer: NodeId) {
    peer in s.endpoints ==>
      match s.endpoints[peer]
      case ConnectingEndpoint(p, b) => p in s.pendings
      case ConnectedEndpoint(m) => m in s.manageds
  }

  /**
    `acceptNewConnection`, for a pending connection that was taken, and the listeners it then gets.
    `b` names the output buffer, should a new one be made.
   */
  function Accept(s: State, peer: NodeId, id: ConnectionId, b: BufferId, offered: Pending): State
    requires Refers(s, peer)
  {
    var heard := s.pendings[id := offered.Heard()];
    if peer in s.endpoints && s.endpoints[peer].ConnectingEndpoint? then
      var ConnectingEndpoint(p, kept) := s.endpoints[peer];
      s.(endpoints := s.endpoints[peer := ConnectingEndpoint(id, kept)],
         pendings := heard[p := heard[p].(replacedAsDuplicate := true)])
    else
      s.(endpoints := s.endpoints[peer := ConnectingEndpoint(id, b)],
         pendings := heard,
         buffers := s.buffers[b := EMPTY_BUFFER],
         homes := s.homes[b := peer],
         manageds := if peer in s.endpoints then
                       var m := s.endpoints[peer].managed;
                       s.manageds[m := s.manageds[m].(replacedAsDuplicate := true)]
                     else s.manageds)
  }

  predicate Takes(s: State, peer: NodeId, offerer: Offerer) {
    s.phase != Stopped && !(peer in s.endpoints && offerer == Local)
  }

  /** The pending connection as it comes from its connector: a fresh one, or one handed out before. */
  function Offer(pendings: map<ConnectionId, Pending>, peer: NodeId, id: ConnectionId): Pending {
    if id in pendings then pendings[id] else Pending(peer, false, false, false, false, true)
  }

  /** `onNewConnection`; a refused connection gets no listeners. */
  function NewConnection(s: State, peer: NodeId, offerer: Offerer, id: ConnectionId, b: BufferId): State
    requires Refers(s, peer)
  {
    if Takes(s, peer, offerer) then Accept(s, peer, id, b, Offer(s.pendings, peer, id))
    else s.(pendings := s.pendings[id := Offer(s.pendings, peer, id)])
  }

  /** A connection to the peer, with a fresh name for a buffer. */
  predicate Offerable(s: State, peer: NodeId, id: ConnectionId, b: BufferId) {
    b !in s.buffers && (id in s.pendings ==> s.pendings[id].peer == peer)
  }

  /** A handshaker sees the handshake succeed: `onHandshakeCompleted`, then the handshaker stops. */
  function HandshakeCompleted(s: State, id: ConnectionId): State
    requires id in s.pendings && Inv(s)
  {
    var p := s.pendings[id];
    if !p.handshaking then s
    else
      var s' := s.(pendings := s.pendings[id := p.OnHandshakeCompleted().(handshaking := false)]);
      if p.EmitsConnected() then OnConnected(s', p.peer, id) else s'
  }

  /** `PendingConnection.close`: its timeout, a closed transport, a fatal handshake error, or a local close. */
  function PendingClosed(s: State, id: ConnectionId): State
    requires id in s.pendings && Inv(s)
  {
    var p := s.pendings[id];
    var s' := s.(pendings := s.pendings[id := p.Close()]);
    if p.EmitsDisconnected() then OnDisconnected(s', p.peer) else s'
  }

  /** The transport of an outgoing connection closes, or its handshake fails: the handshaker closes and stops. */
  function HandshakerClosed(s: State, id: ConnectionId): State
    requires id in s.pendings && Inv(s)
  {
    var t := PendingClosed(s, id);
    t.(pendings := t.pendings[id := t.pendings[id].(handshaking := false)])
  }

  /** `PendingConnection.destroy`, as `rejectHandshake` calls it. */
  function PendingDestroyed(s: State, id: ConnectionId): State
    requires id in s.pendings
  {
    s.(pendings := s.pendings[id := s.pendings[id].Destroy()])
  }

  /** The transport of an established connection closes. */
  function ManagedClosed(s: State, id: ConnectionId): State
    requires id in s.manageds && Inv(s)
  {
    var m := s.manageds[id];
    var s' := s.(manageds := s.manageds[id := m.(listening := false)]);
    if m.EmitsDisconnected() then OnDisconnected(s', m.peer) else s'
  }

  /** `ManagedConnection.close` ends by removing the listeners, whether or not the transport reported the end. */
  function ManagedSilenced(s: State, id: ConnectionId): State
    requires id in s.manageds
  {
    s.(manageds := s.manageds[id := s.manageds[id].(listening := false)])
  }

  /** A send while an endpoint exists: written to the connection, or appended to the buffer. */
  function SendTo(s: State, peer: NodeId, message: Message): State
    requires peer in s.endpoints && EndpointsValid(s)
  {
    match s.endpoints[peer]
    case ConnectedEndpoint(m) =>
      var c := s.manageds[m];
      s.(manageds := s.manageds[m := c.Send(message).(direct := c.direct + [message])])
    case ConnectingEndpoint(p, b) =>
      s.(buffers := s.buffers[b := s.buffers[b].Push(message)])
  }

  datatype SendOptions = SendOptions(connect: bool, sendIfStopped: bool, bufferWhileConnecting: bool)

  datatype SendResult = Ignored | CannotConnectToSelf | SendFailed | NoEndpoint | Written | Dropped | Buffered

  /**
    `send`. On the way a pending connection `id` may be offered, with `b` for its buffer. If it is
    not taken the source fails on the missing endpoint.
   */
  function Send(s: State, self: bool, peer: NodeId, message: Message, opts: SendOptions,
                offerer: Offerer, id: ConnectionId, b: BufferId): (State, SendResult)
    requires Inv(s) && Offerable(s, peer, id, b)
  {
    if (s.phase == Stopped || s.phase == Stopping) && !opts.sendIfStopped then (s, Ignored)
    else if self then (s, CannotConnectToSelf)
    else if peer !in s.endpoints && !opts.connect then (s, SendFailed)
    else if peer in s.endpoints && s.endpoints[peer].ConnectingEndpoint? && !opts.connect then (s, SendFailed)
    else if peer in s.endpoints then Deliver(s, peer, message, opts)
    else
      NewConnectionKeeps(s, peer, offerer, id, b);
      Deliver(NewConnection(s, peer, offerer, id, b), peer, message, opts)
  }

  function Deliver(s: State, peer: NodeId, message: Message, opts: SendOptions): (State, SendResult)
    requires Inv(s)
  {
    if peer !in s.endpoints then (s, NoEndpoint)
    else if s.endpoints[peer].ConnectedEndpoint? then (SendTo(s, peer, message), Written)
    else if opts.bufferWhileConnecting then (SendTo(s, peer, message), Buffered)
    else (s, Dropped)
  }

  /** `closeConnection` as far as the manager does it itself; an established connection is closed by its transport. */
  function CloseConnection(s: State, peer: NodeId): State
    requires Inv(s)
  {
    if peer in s.endpoints && s.endpoints[peer].ConnectingEndpoint? then PendingClosed(s, s.endpoints[peer].pending)
    else s
  }

  /** What `stop` will reject after two seconds: the buffers of endpoints whose connection does not report its end. */
  function StrandedBuffers(s: State): set<BufferId> {
    set n | n in s.endpoints && s.endpoints[n].ConnectingEndpoint? && s.endpoints[n].pending in s.pendings
            && !s.pendings[s.endpoints[n].pending].Live() && s.endpoints[n].buffer in s.buffers :: s.endpoints[n].buffer
  }

  /** `stop`, as far as it does not close connections. */
  function StopBegun(s: State): State {
    if s.phase == Stopped || s.phase == Stopping then s
    else s.(phase := Stopping, doomed := s.doomed + StrandedBuffers(s))
  }

  /** No `disconnected` event came within two seconds: the buffer is rejected, its endpoint stays. */
  function Fallback(s: State, b: BufferId): State
    requires b in s.buffers
  {
    s.(buffers := s.buffers[b := s.buffers[b].Reject()])
  }

  // ------------------------------------------------------------------ every event keeps the invariant

  /** The pending connection may lose listeners or stop, as far as the manager does not hear of it. */
  ghost predicate Quiet(s: State, id: ConnectionId, p: Pending)
    requires id in s.pendings
  {
    var was := s.pendings[id];
    && p.peer == was.peer && p.replacedAsDuplicate == was.replacedAsDuplicate
    && (was.stopped ==> p.stopped) && (p.handshaking ==> was.handshaking)
    && (p.connectedListener ==> was.connectedListener) && (p.disconnectedListener ==> was.disconnectedListener)
    && (Stores(s, id) && p.Live() ==> p.connectedListener && p.disconnectedListener)
  }

  function WithPending(s: State, id: ConnectionId, p: Pending): State { s.(pendings := s.pendings[id := p]) }

  lemma QuietPending(s: State, id: ConnectionId, p: Pending, q: ConnectionId)
    requires Inv(s) && id in s.pendings && Quiet(s, id, p) && q in s.pendings
    ensures PendingOk(WithPending(s, id, p), q)
  {
    assert PendingOk(s, q);
  }

  lemma QuietEndpoint(s: State, id: ConnectionId, p: Pending, n: NodeId)
    requires Inv(s) && id in s.pendings && Quiet(s, id, p) && n in s.endpoints
    ensures EndpointOk(WithPending(s, id, p), n)
  {
    assert EndpointOk(s, n);
  }

  lemma QuietPendingKeeps(s: State, id: ConnectionId, p: Pending)
    requires Inv(s) && id in s.pendings && Quiet(s, id, p)
    ensures Inv(WithPending(s, id, p))
  {
    var s' := WithPending(s, id, p);
    forall n <- s'.endpoints ensures EndpointOk(s', n) {
      QuietEndpoint(s, id, p, n);
    }
    forall q <- s'.pendings ensures PendingOk(s', q) {
      QuietPending(s, id, p, q);
    }
    forall m <- s'.manageds ensures ManagedOk(s', m) {
      assert ManagedOk(s, m);
    }
    forall c <- s'.buffers ensures BufferOk(s', c) {
      assert BufferOk(s, c);
    }
  }

  lemma QuietPendingViews(s: State, id: ConnectionId, p: Pending)
    requires Inv(s) && id in s.pendings && Quiet(s, id, p)
    ensures Inv(WithPending(s, id, p)) && ViewsOf(WithPending(s, id, p)) == ViewsOf(s)
  {
    QuietPendingKeeps(s, id, p);
  }

  lemma RefusedKeeps(s: State, peer: NodeId, id: ConnectionId)
    requires Inv(s) && id !in s.pendings
    ensures Inv(WithPending(s, id, Offer(s.pendings, peer, id)))
  {
    var s' := WithPending(s, id, Offer(s.pendings, peer, id));
    forall n <- s'.endpoints ensures EndpointOk(s', n) {
      if n in s.endpoints {
        assert EndpointOk(s, n);
      }
    }
    forall q <- s'.pendings ensures PendingOk(s', q) {
      if q in s.pendings {
        assert PendingOk(s, q);
      }
    }
    forall m <- s'.manageds ensures ManagedOk(s', m) {
      assert ManagedOk(s, m);
    }
    forall c <- s'.buffers ensures BufferOk(s', c) {
      assert BufferOk(s, c);
    }
  }

  lemma RefusedViews(s: State, peer: NodeId, id: ConnectionId)
    requires Inv(s) && id !in s.pendings
    ensures var s' := WithPending(s, id, Offer(s.pendings, peer, id)); Inv(s') && ViewsOf(s') == ViewsOf(s)
  {
    RefusedKeeps(s, peer, id);
  }

  /** What `Accept` is given: a connection as it is offered. */
  ghost predicate Joins(s: State, peer: NodeId, id: ConnectionId, b: BufferId, offered: Pending) {
    Offerable(s, peer, id, b) && offered == Offer(s.pendings, peer, id)
  }

  lemma AddedEndpoint(s: State, peer: NodeId, id: ConnectionId, b: BufferId, offered: Pending, n: NodeId)
    requires Inv(s) && Joins(s, peer, id, b, offered)
    requires peer !in s.endpoints
    requires n in Accept(s, peer, id, b, offered).endpoints
    ensures EndpointOk(Accept(s, peer, id, b, offered), n)
  {
    if n in s.endpoints {
      assert EndpointOk(s, n);
    }
  }

  lemma AddedPending(s: State, peer: NodeId, id: ConnectionId, b: BufferId, offered: Pending, q: ConnectionId)
    requires Inv(s) && Joins(s, peer, id, b, offered)
    requires peer !in s.endpoints
    requires q in Accept(s, peer, id, b, offered).pendings
    ensures PendingOk(Accept(s, peer, id, b, offered), q)
  {
    if q in s.pendings {
      assert PendingOk(s, q);
    }
  }

  lemma AddedManaged(s: State, peer: NodeId, id: ConnectionId, b: BufferId, offered: Pending, m: ConnectionId)
    requires Inv(s) && Joins(s, peer, id, b, offered)
    requires peer !in s.endpoints
    requires m in Accept(s, peer, id, b, offered).manageds
    ensures ManagedOk(Accept(s, peer, id, b, offered), m)
  {
    assert ManagedOk(s, m);
    assert BufferOk(s, s.manageds[m].opening);
  }

  lemma AddedBuffer(s: State, peer: NodeId, id: ConnectionId, b: BufferId, offered: Pending, c: BufferId)
    requires Inv(s) && Joins(s, peer, id, b, offered)
    requires peer !in s.endpoints
    requires c in Accept(s, peer, id, b, offered).buffers
    ensures BufferOk(Accept(s, peer, id, b, offered), c)
  {
    if c in s.buffers {
      assert BufferOk(s, c);
    }
  }

  lemma AddedKeeps(s: State, peer: NodeId, id: ConnectionId, b: BufferId, offered: Pending)
    requires Inv(s) && Joins(s, peer, id, b, offered)
    requires peer !in s.endpoints
    ensures Inv(Accept(s, peer, id, b, offered))
  {
    var s' := Accept(s, peer, id, b, offered);
    forall n <- s'.endpoints ensures EndpointOk(s', n) {
      AddedEndpoint(s, peer, id, b, offered, n);
    }
    forall q <- s'.pendings ensures PendingOk(s', q) {
      AddedPending(s, peer, id, b, offered, q);
    }
    forall m <- s'.manageds ensures ManagedOk(s', m) {
      AddedManaged(s, peer, id, b, offered, m);
    }
    forall c <- s'.buffers ensures BufferOk(s', c) {
      AddedBuffer(s, peer, id, b, offered, c);
    }
  }

  lemma ReplacedPendingEndpoint(s: State, peer: NodeId, id: ConnectionId, b: BufferId, offered: Pending, n: NodeId)
    requires Inv(s) && Joins(s, peer, id, b, offered)
    requires peer in s.endpoints && s.endpoints[peer].ConnectingEndpoint?
    requires n in Accept(s, peer, id, b, offered).endpoints
    ensures EndpointOk(Accept(s, peer, id, b, offered), n)
  {
    if n in s.endpoints {
      assert EndpointOk(s, n);
    }
  }

  lemma ReplacedPendingPending(s: State, peer: NodeId, id: ConnectionId, b: BufferId, offered: Pending, q: ConnectionId)
    requires Inv(s) && Joins(s, peer, id, b, offered)
    requires peer in s.endpoints && s.endpoints[peer].ConnectingEndpoint?
    requires q in Accept(s, peer, id, b, offered).pendings
    ensures PendingOk(Accept(s, peer, id, b, offered), q)
  {
    if q in s.pendings {
      assert PendingOk(s, q);
    }
    assert EndpointOk(s, peer);
  }

  lemma ReplacedPendingManaged(s: State, peer: NodeId, id: ConnectionId, b: BufferId, offered: Pending, m: ConnectionId)
    requires Inv(s) && Joins(s, peer, id, b, offered)
    requires peer in s.endpoints && s.endpoints[peer].ConnectingEndpoint?
    requires m in Accept(s, peer, id, b, offered).manageds
    ensures ManagedOk(Accept(s, peer, id, b, offered), m)
  {
    assert ManagedOk(s, m);
    assert BufferOk(s, s.manageds[m].opening);
  }

  lemma ReplacedPendingBuffer(s: State, peer: NodeId, id: ConnectionId, b: BufferId, offered: Pending, c: BufferId)
    requires Inv(s) && Joins(s, peer, id, b, offered)
    requires peer in s.endpoints && s.endpoints[peer].ConnectingEndpoint?
    requires c in Accept(s, peer, id, b, offered).buffers
    ensures BufferOk(Accept(s, peer, id, b, offered), c)
  {
    if c in s.buffers {
      assert BufferOk(s, c);
    }
  }

  lemma ReplacedPendingKeeps(s: State, peer: NodeId, id: ConnectionId, b: BufferId, offered: Pending)
    requires Inv(s) && Joins(s, peer, id, b, offered)
    requires peer in s.endpoints && s.endpoints[peer].ConnectingEndpoint?
    ensures Inv(Accept(s, peer, id, b, offered))
  {
    var s' := Accept(s, peer, id, b, offered);
    forall n <- s'.endpoints ensures EndpointOk(s', n) {
      ReplacedPendingEndpoint(s, peer, id, b, offered, n);
    }
    forall q <- s'.pendings ensures PendingOk(s', q) {
      ReplacedPendingPending(s, peer, id, b, offered, q);
    }
    forall m <- s'.manageds ensures ManagedOk(s', m) {
      ReplacedPendingManaged(s, peer, id, b, offered, m);
    }
    forall c <- s'.buffers ensures BufferOk(s', c) {
      ReplacedPendingBuffer(s, peer, id, b, offered, c);
    }
  }

  lemma ReplacedManagedEndpoint(s: State, peer: NodeId, id: ConnectionId, b: BufferId, offered: Pending, n: NodeId)
    requires Inv(s) && Joins(s, peer, id, b, offered)
    requires peer in s.endpoints && s.endpoints[peer].ConnectedEndpoint?
    requires n in Accept(s, peer, id, b, offered).endpoints
    ensures EndpointOk(Accept(s, peer, id, b, offered), n)
  {
    if n in s.endpoints {
      assert EndpointOk(s, n);
    }
  }

  lemma ReplacedManagedPending(s: State, peer: NodeId, id: ConnectionId, b: BufferId, offered: Pending, q: ConnectionId)
    requires Inv(s) && Joins(s, peer, id, b, offered)
    requires peer in s.endpoints && s.endpoints[peer].ConnectedEndpoint?
    requires q in Accept(s, peer, id, b, offered).pendings
    ensures PendingOk(Accept(s, peer, id, b, offered), q)
  {
    if q in s.pendings {
      assert PendingOk(s, q);
    }
    assert EndpointOk(s, peer);
  }

  lemma ReplacedManagedManaged(s: State, peer: NodeId, id: ConnectionId, b: BufferId, offered: Pending, m: ConnectionId)
    requires Inv(s) && Joins(s, peer, id, b, offered)
    requires peer in s.endpoints && s.endpoints[peer].ConnectedEndpoint?
    requires m in Accept(s, peer, id, b, offered).manageds
    ensures ManagedOk(Accept(s, peer, id, b, offered), m)
  {
    assert ManagedOk(s, m);
    assert BufferOk(s, s.manageds[m].opening);
  }

  lemma ReplacedManagedBuffer(s: State, peer: NodeId, id: ConnectionId, b: BufferId, offered: Pending, c: BufferId)
    requires Inv(s) && Joins(s, peer, id, b, offered)
    requires peer in s.endpoints && s.endpoints[peer].ConnectedEndpoint?
    requires c in Accept(s, peer, id, b, offered).buffers
    ensures BufferOk(Accept(s, peer, id, b, offered), c)
  {
    if c in s.buffers {
      assert BufferOk(s, c);
    }
  }

  lemma ReplacedManagedKeeps(s: State, peer: NodeId, id: ConnectionId, b: BufferId, offered: Pending)
    requires Inv(s) && Joins(s, peer, id, b, offered)
    requires peer in s.endpoints && s.endpoints[peer].ConnectedEndpoint?
    ensures Inv(Accept(s, peer, id, b, offered))
  {
    var s' := Accept(s, peer, id, b, offered);
    forall n <- s'.endpoints ensures EndpointOk(s', n) {
      ReplacedManagedEndpoint(s, peer, id, b, offered, n);
    }
    forall q <- s'.pendings ensures PendingOk(s', q) {
      ReplacedManagedPending(s, peer, id, b, offered, q);
    }
    forall m <- s'.manageds ensures ManagedOk(s', m) {
      ReplacedManagedManaged(s, peer, id, b, offered, m);
    }
    forall c <- s'.buffers ensures BufferOk(s', c) {
      ReplacedManagedBuffer(s, peer, id, b, offered, c);
    }
  }

  /** The stored connection can report that it is connected; `b` waits for it. */
  ghost predicate Completes(s: State, p: ConnectionId, b: BufferId) {
    Stores(s, p) && s.pendings[p].CanComplete() && s.endpoints[s.pendings[p].peer] == ConnectingEndpoint(p, b)
  }

  /** It can report its end. */
  ghost predicate Ends(s: State, p: ConnectionId, b: BufferId) {
    Stores(s, p) && s.pendings[p].EmitsDisconnected() && s.endpoints[s.pendings[p].peer] == ConnectingEndpoint(p, b)
  }

  /** A handshake that can still be completed was not completed before. */
  lemma CompletesOnce(s: State, p: ConnectionId)
    requires Inv(s) && p in s.pendings && s.pendings[p].handshaking
    ensures p !in s.manageds
  {
    assert p in s.manageds ==> ManagedOk(s, p);
  }

  lemma EstablishedEndpoint(s: State, p: ConnectionId, b: BufferId, n: NodeId)
    requires Inv(s) && Completes(s, p, b)
    requires n in HandshakeCompleted(s, p).endpoints
    ensures EndpointOk(HandshakeCompleted(s, p), n)
  {
    assert EndpointOk(s, s.pendings[p].peer);
    if n in s.endpoints {
      assert EndpointOk(s, n);
    }
  }

  lemma EstablishedPending(s: State, p: ConnectionId, b: BufferId, q: ConnectionId)
    requires Inv(s) && Completes(s, p, b)
    requires q in HandshakeCompleted(s, p).pendings
    ensures PendingOk(HandshakeCompleted(s, p), q)
  {
    assert EndpointOk(s, s.pendings[p].peer);
    assert PendingOk(s, q);
  }

  lemma EstablishedManaged(s: State, p: ConnectionId, b: BufferId, m: ConnectionId)
    requires Inv(s) && Completes(s, p, b)
    requires m in HandshakeCompleted(s, p).manageds
    ensures ManagedOk(HandshakeCompleted(s, p), m)
  {
    CompletesOnce(s, p);
    if m == p {
      EstablishedItself(s, p, b);
    } else {
      EstablishedBeside(s, p, b, m);
    }
  }

  lemma EstablishedItself(s: State, p: ConnectionId, b: BufferId)
    requires Inv(s) && Completes(s, p, b)
    ensures p in HandshakeCompleted(s, p).manageds && ManagedOk(HandshakeCompleted(s, p), p)
  {
    assert EndpointOk(s, s.pendings[p].peer);
    assert BufferOk(s, b);
  }

  lemma EstablishedBeside(s: State, p: ConnectionId, b: BufferId, m: ConnectionId)
    requires Inv(s) && Completes(s, p, b) && m in s.manageds && m != p
    ensures m in HandshakeCompleted(s, p).manageds && ManagedOk(HandshakeCompleted(s, p), m)
  {
    assert EndpointOk(s, s.pendings[p].peer);
    assert ManagedOk(s, m);
  }

  lemma EstablishedBuffer(s: State, p: ConnectionId, b: BufferId, c: BufferId)
    requires Inv(s) && Completes(s, p, b)
    requires c in HandshakeCompleted(s, p).buffers
    ensures BufferOk(HandshakeCompleted(s, p), c)
  {
    assert EndpointOk(s, s.pendings[p].peer);
    CompletesOnce(s, p);
    assert BufferOk(s, c);
  }

  lemma EstablishedKeeps(s: State, p: ConnectionId, b: BufferId)
    requires Inv(s) && Completes(s, p, b)
    ensures Inv(HandshakeCompleted(s, p))
  {
    var s' := HandshakeCompleted(s, p);
    forall n <- s'.endpoints ensures EndpointOk(s', n) {
      EstablishedEndpoint(s, p, b, n);
    }
    forall q <- s'.pendings ensures PendingOk(s', q) {
      EstablishedPending(s, p, b, q);
    }
    forall m <- s'.manageds ensures ManagedOk(s', m) {
      EstablishedManaged(s, p, b, m);
    }
    forall c <- s'.buffers ensures BufferOk(s', c) {
      EstablishedBuffer(s, p, b, c);
    }
  }

  lemma GoneBuffer(s: State, p: ConnectionId, b: BufferId, c: BufferId)
    requires Inv(s) && Ends(s, p, b)
    requires c in PendingClosed(s, p).buffers
    ensures BufferOk(PendingClosed(s, p), c)
  {
    assert EndpointOk(s, s.pendings[p].peer);
    assert BufferOk(s, c);
  }

  lemma GoneEndpoint(s: State, p: ConnectionId, b: BufferId, n: NodeId)
    requires Inv(s) && Ends(s, p, b)
    requires n in PendingClosed(s, p).endpoints
    ensures EndpointOk(PendingClosed(s, p), n)
  {
    assert EndpointOk(s, s.pendings[p].peer);
    assert EndpointOk(s, n);
  }

  lemma GoneKeeps(s: State, p: ConnectionId, b: BufferId)
    requires Inv(s) && Ends(s, p, b)
    ensures Inv(PendingClosed(s, p))
  {
    var s' := PendingClosed(s, p);
    forall n <- s'.endpoints ensures EndpointOk(s', n) {
      GoneEndpoint(s, p, b, n);
    }
    forall q <- s'.pendings ensures PendingOk(s', q) {
      assert EndpointOk(s, s.pendings[p].peer);
      assert PendingOk(s, q);
    }
    forall m <- s'.manageds ensures ManagedOk(s', m) {
      assert EndpointOk(s, s.pendings[p].peer);
      assert ManagedOk(s, m);
    }
    forall c <- s'.buffers ensures BufferOk(s', c) {
      GoneBuffer(s, p, b, c);
    }
  }

  lemma HeldGoneKeeps(s: State, p: ConnectionId)
    requires Inv(s) && Holds(s, p) && s.manageds[p].EmitsDisconnected()
    ensures Inv(ManagedClosed(s, p))
  {
    var s' := ManagedClosed(s, p);
    forall n <- s'.endpoints ensures EndpointOk(s', n) {
      assert EndpointOk(s, n);
    }
    forall q <- s'.pendings ensures PendingOk(s', q) {
      assert PendingOk(s, q);
    }
    forall m <- s'.manageds ensures ManagedOk(s', m) {
      assert ManagedOk(s, m);
    }
    forall c <- s'.buffers ensures BufferOk(s', c) {
      assert BufferOk(s, c);
    }
  }

  lemma SilencedKeeps(s: State, p: ConnectionId)
    requires Inv(s) && p in s.manageds
    ensures Inv(ManagedSilenced(s, p))
  {
    var s' := ManagedSilenced(s, p);
    forall n <- s'.endpoints ensures EndpointOk(s', n) {
      assert EndpointOk(s, n);
    }
    forall q <- s'.pendings ensures PendingOk(s', q) {
      assert PendingOk(s, q);
    }
    forall m <- s'.manageds ensures ManagedOk(s', m) {
      assert ManagedOk(s, m);
    }
    forall c <- s'.buffers ensures BufferOk(s', c) {
      assert BufferOk(s, c);
    }
  }

  lemma BufferedKeeps(s: State, peer: NodeId, message: Message)
    requires Inv(s) && peer in s.endpoints && s.endpoints[peer].ConnectingEndpoint?
    ensures Inv(SendTo(s, peer, message))
  {
    var s' := SendTo(s, peer, message);
    forall n <- s'.endpoints ensures EndpointOk(s', n) {
      assert EndpointOk(s, n);
      assert EndpointOk(s, peer);
    }
    forall q <- s'.pendings ensures PendingOk(s', q) {
      assert PendingOk(s, q);
    }
    forall m <- s'.manageds ensures ManagedOk(s', m) {
      assert ManagedOk(s, m);
      assert EndpointOk(s, peer);
    }
    forall c <- s'.buffers ensures BufferOk(s', c) {
      assert BufferOk(s, c);
      assert EndpointOk(s, peer);
    }
  }

  lemma AppendBoth(a: seq<Message>, b: seq<Message>, c: seq<Message>, d: seq<Message>, message: Message)
    requires a + b == c + d
    ensures a + (b + [message]) == c + (d + [message])
  {
    assert a + (b + [message]) == (a + b) + [message];
  }

  lemma WrittenKeeps(s: State, peer: NodeId, message: Message)
    requires Inv(s) && peer in s.endpoints && s.endpoints[peer].ConnectedEndpoint?
    ensures Inv(SendTo(s, peer, message))
  {
    var s' := SendTo(s, peer, message);
    forall n <- s'.endpoints ensures EndpointOk(s', n) {
      assert EndpointOk(s, n);
      assert EndpointOk(s, peer);
    }
    forall q <- s'.pendings ensures PendingOk(s', q) {
      assert PendingOk(s, q);
    }
    forall m <- s'.manageds ensures ManagedOk(s', m) {
      assert ManagedOk(s, m);
      assert EndpointOk(s, peer);
      var c := s.manageds[m];
      AppendBoth(s.buffers[c.opening].dropped, c.sent, s.buffers[c.opening].pushed, c.direct, message);
    }
    forall c <- s'.buffers ensures BufferOk(s', c) {
      assert BufferOk(s, c);
      assert EndpointOk(s, peer);
    }
  }

  lemma FallbackEndpoint(s: State, b: BufferId, n: NodeId)
    requires Inv(s) && b in s.doomed && b in s.buffers
    requires n in Fallback(s, b).endpoints
    ensures EndpointOk(Fallback(s, b), n)
  {
    assert EndpointOk(s, n);
  }

  lemma FallbackPending(s: State, b: BufferId, q: ConnectionId)
    requires Inv(s) && b in s.doomed && b in s.buffers
    requires q in Fallback(s, b).pendings
    ensures PendingOk(Fallback(s, b), q)
  {
    assert PendingOk(s, q);
  }

  lemma FallbackManaged(s: State, b: BufferId, m: ConnectionId)
    requires Inv(s) && b in s.doomed && b in s.buffers
    requires m in Fallback(s, b).manageds
    ensures ManagedOk(Fallback(s, b), m)
  {
    assert ManagedOk(s, m);
    assert BufferOk(s, s.manageds[m].opening);
  }

  lemma FallbackBuffer(s: State, b: BufferId, c: BufferId)
    requires Inv(s) && b in s.doomed && b in s.buffers
    requires c in Fallback(s, b).buffers
    ensures BufferOk(Fallback(s, b), c)
  {
    assert BufferOk(s, c);
  }

  lemma FallbackKeeps(s: State, b: BufferId)
    requires Inv(s) && b in s.doomed && b in s.buffers
    ensures Inv(Fallback(s, b))
  {
    var s' := Fallback(s, b);
    forall n <- s'.endpoints ensures EndpointOk(s', n) {
      FallbackEndpoint(s, b, n);
    }
    forall q <- s'.pendings ensures PendingOk(s', q) {
      FallbackPending(s, b, q);
    }
    forall m <- s'.manageds ensures ManagedOk(s', m) {
      FallbackManaged(s, b, m);
    }
    forall c <- s'.buffers ensures BufferOk(s', c) {
      FallbackBuffer(s, b, c);
    }
  }

  // ------------------------------------------------------------------ what every event does to the endpoint map

  /** The stored pending connection can report nothing to the manager: no success, and no end. */
  ghost predicate Stranded(s: State, id: ConnectionId) {
    Stores(s, id) && s.pendings[id].Mute()
  }

  /** Only the endpoint of `peer` looks different. */
  ghost predicate SameElsewhere(s: State, s': State, peer: NodeId)
    requires EndpointsValid(s) && EndpointsValid(s')
  {
    forall n <- s.endpoints :: n != peer ==> n in s'.endpoints && ViewOf(s', n) == ViewOf(s, n)
  }

  lemma ViewsElsewhere(s: State, s': State, peer: NodeId)
    requires EndpointsValid(s) && EndpointsValid(s') && SameElsewhere(s, s', peer)
    requires peer in s'.endpoints && s'.endpoints.Keys == s.endpoints.Keys + {peer}
    ensures ViewsOf(s') == ViewsOf(s)[peer := ViewOf(s', peer)]
  {
  }

  lemma ViewsWithout(s: State, s': State, peer: NodeId)
    requires EndpointsValid(s) && EndpointsValid(s') && SameElsewhere(s, s', peer)
    requires s'.endpoints == s.endpoints - {peer}
    ensures ViewsOf(s') == ViewsOf(s) - {peer}
  {
  }

  lemma AcceptView(s: State, peer: NodeId, id: ConnectionId, b: BufferId, offered: Pending, n: NodeId)
    requires Inv(s) && Joins(s, peer, id, b, offered) && Refers(s, peer) && n in s.endpoints && n != peer
    requires EndpointsValid(Accept(s, peer, id, b, offered))
    ensures var s' := Accept(s, peer, id, b, offered); n in s'.endpoints && ViewOf(s', n) == ViewOf(s, n)
  {
    assert EndpointOk(s, n);
    if peer in s.endpoints {
      assert EndpointOk(s, peer);
    }
  }

  lemma AcceptOwnView(s: State, peer: NodeId, id: ConnectionId, b: BufferId, offered: Pending)
    requires Inv(s) && Joins(s, peer, id, b, offered) && Refers(s, peer)
    requires EndpointsValid(Accept(s, peer, id, b, offered))
    ensures var s' := Accept(s, peer, id, b, offered);
            && s'.endpoints.Keys == s.endpoints.Keys + {peer}
            && ViewOf(s', peer) == if peer in s.endpoints && ViewOf(s, peer).Connecting?
                then Connecting(id, ViewOf(s, peer).buffered)
                                   else Connecting(id, [])
  {
    if peer in s.endpoints {
      assert EndpointOk(s, peer);
    }
  }

  lemma AcceptViews(s: State, peer: NodeId, id: ConnectionId, b: BufferId, offered: Pending)
    requires Inv(s) && Joins(s, peer, id, b, offered) && Refers(s, peer)
    requires EndpointsValid(Accept(s, peer, id, b, offered))
    ensures ViewsOf(Accept(s, peer, id, b, offered)) == AfterNewConnection(ViewsOf(s), peer, Remote, id)
  {
    var s' := Accept(s, peer, id, b, offered);
    AcceptOwnView(s, peer, id, b, offered);
    assert SameElsewhere(s, s', peer) by {
      forall n <- s.endpoints | n != peer ensures n in s'.endpoints && ViewOf(s', n) == ViewOf(s, n) {
        AcceptView(s, peer, id, b, offered, n);
      }
    }
    OwnViewIsNew(s, s', peer, id);
  }

  lemma OwnViewIsNew(s: State, s': State, peer: NodeId, id: ConnectionId)
    requires EndpointsValid(s) && EndpointsValid(s') && SameElsewhere(s, s', peer)
    requires s'.endpoints.Keys == s.endpoints.Keys + {peer}
    requires ViewOf(s', peer) == if peer in s.endpoints && ViewOf(s, peer).Connecting?
        then Connecting(id, ViewOf(s, peer).buffered)
                                 else Connecting(id, [])
    ensures ViewsOf(s') == AfterNewConnection(ViewsOf(s), peer, Remote, id)
  {
    ViewsElsewhere(s, s', peer);
  }

  lemma EstablishedView(s: State, p: ConnectionId, b: BufferId, n: NodeId)
    requires Inv(s) && Completes(s, p, b) && EndpointsValid(HandshakeCompleted(s, p))
    requires n in s.endpoints && n != s.pendings[p].peer
    ensures var s' := HandshakeCompleted(s, p); n in s'.endpoints && ViewOf(s', n) == ViewOf(s, n)
  {
    assert EndpointOk(s, n);
    assert EndpointOk(s, s.pendings[p].peer);
  }

  lemma EstablishedViews(s: State, p: ConnectionId, b: BufferId)
    requires Inv(s) && Completes(s, p, b) && EndpointsValid(HandshakeCompleted(s, p))
    ensures ViewsOf(HandshakeCompleted(s, p)) == AfterConnected(ViewsOf(s), s.pendings[p].peer, p)
  {
    var s', peer := HandshakeCompleted(s, p), s.pendings[p].peer;
    forall n <- s.endpoints | n != peer ensures n in s'.endpoints && ViewOf(s', n) == ViewOf(s, n) {
      EstablishedView(s, p, b, n);
    }
    ViewsElsewhere(s, s', peer);
  }

  lemma GoneViews(s: State, p: ConnectionId, b: BufferId)
    requires Inv(s) && Ends(s, p, b) && EndpointsValid(PendingClosed(s, p))
    ensures ViewsOf(PendingClosed(s, p)) == AfterPendingGone(ViewsOf(s), s.pendings[p].peer, p)
  {
    var s' := PendingClosed(s, p);
    assert EndpointOk(s, s.pendings[p].peer);
    forall n <- s.endpoints | n != s.pendings[p].peer ensures n in s'.endpoints && ViewOf(s', n) == ViewOf(s, n) {
      assert EndpointOk(s, n);
    }
    ViewsWithout(s, s', s.pendings[p].peer);
  }

  lemma HeldGoneViews(s: State, m: ConnectionId)
    requires Inv(s) && Holds(s, m) && s.manageds[m].EmitsDisconnected() && EndpointsValid(ManagedClosed(s, m))
    ensures ViewsOf(ManagedClosed(s, m)) == AfterConnectionGone(ViewsOf(s), s.manageds[m].peer, m)
  {
    var s' := ManagedClosed(s, m);
    forall n <- s.endpoints | n != s.manageds[m].peer ensures n in s'.endpoints && ViewOf(s', n) == ViewOf(s, n) {
      assert EndpointOk(s, n);
    }
    ViewsWithout(s, s', s.manageds[m].peer);
  }

  lemma SilencedViews(s: State, m: ConnectionId)
    requires Inv(s) && m in s.manageds
    ensures Inv(ManagedSilenced(s, m)) && ViewsOf(ManagedSilenced(s, m)) == ViewsOf(s)
  {
    SilencedKeeps(s, m);
  }

  lemma SendView(s: State, peer: NodeId, message: Message, n: NodeId)
    requires Inv(s) && peer in s.endpoints && EndpointsValid(SendTo(s, peer, message)) && n in s.endpoints && n != peer
    ensures n in SendTo(s, peer, message).endpoints && ViewOf(SendTo(s, peer, message), n) == ViewOf(s, n)
  {
    assert EndpointOk(s, n);
    assert EndpointOk(s, peer);
  }

  lemma SendViews(s: State, peer: NodeId, message: Message)
    requires Inv(s) && peer in s.endpoints && EndpointsValid(SendTo(s, peer, message))
    ensures ViewsOf(SendTo(s, peer, message)) == AfterSend(ViewsOf(s), peer, message)
  {
    var s' := SendTo(s, peer, message);
    forall n <- s.endpoints | n != peer ensures n in s'.endpoints && ViewOf(s', n) == ViewOf(s, n) {
      SendView(s, peer, message, n);
    }
    ViewsElsewhere(s, s', peer);
    assert EndpointOk(s, peer);
  }

  lemma AcceptKeepsInv(s: State, peer: NodeId, id: ConnectionId, b: BufferId)
    requires Inv(s) && Offerable(s, peer, id, b) && Refers(s, peer)
    ensures Inv(Accept(s, peer, id, b, Offer(s.pendings, peer, id)))
  {
    var offered := Offer(s.pendings, peer, id);
    if peer !in s.endpoints {
      AddedKeeps(s, peer, id, b, offered);
    } else if s.endpoints[peer].ConnectingEndpoint? {
      ReplacedPendingKeeps(s, peer, id, b, offered);
    } else {
      ReplacedManagedKeeps(s, peer, id, b, offered);
    }
  }

  lemma AcceptStores(s: State, peer: NodeId, id: ConnectionId, b: BufferId)
    requires Offerable(s, peer, id, b) && Refers(s, peer)
    ensures Stores(Accept(s, peer, id, b, Offer(s.pendings, peer, id)), id)
  {
  }

  lemma AcceptKeeps(s: State, peer: NodeId, id: ConnectionId, b: BufferId)
    requires Inv(s) && Offerable(s, peer, id, b) && Refers(s, peer)
    ensures var s' := Accept(s, peer, id, b, Offer(s.pendings, peer, id));
            Inv(s') && Stores(s', id) && ViewsOf(s') == AfterNewConnection(ViewsOf(s), peer, Remote, id)
  {
    AcceptKeepsInv(s, peer, id, b);
    AcceptStores(s, peer, id, b);
    AcceptViews(s, peer, id, b, Offer(s.pendings, peer, id));
  }

  lemma NewConnectionKeeps(s: State, peer: NodeId, offerer: Offerer, id: ConnectionId, b: BufferId)
    requires Inv(s) && Offerable(s, peer, id, b)
    ensures var s' := NewConnection(s, peer, offerer, id, b);
            && Inv(s')
            && ViewsOf(s')
                == (if s.phase == Stopped then ViewsOf(s) else AfterNewConnection(ViewsOf(s), peer, offerer, id))
            && (Stores(s', id) <==> Takes(s, peer, offerer) || Stores(s, id))
  {
    RefersToKnown(s, peer);
    if Takes(s, peer, offerer) {
      AcceptKeeps(s, peer, id, b);
    } else if id in s.pendings {
      assert s.pendings[id := s.pendings[id]] == s.pendings;
    } else {
      RefusedViews(s, peer, id);
      assert EndpointsValid(s);
    }
  }

  lemma RefersToKnown(s: State, peer: NodeId)
    requires EndpointsValid(s)
    ensures Refers(s, peer)
  {
    if peer in s.endpoints {
      assert EndpointOk(s, peer);
    }
  }

  /** A connection that will be able to report nothing once it is taken. */
  ghost predicate MuteOnceTaken(s: State, id: ConnectionId) {
    id in s.pendings && (s.pendings[id].replacedAsDuplicate || Stores(s, id)
                         || (s.pendings[id].stopped && !s.pendings[id].handshaking))
  }

  /**
    Connectors may hand out a pending connection again. Once it is taken it can report nothing, neither
    success nor end, exactly if it was offered before and has been replaced, or is the endpoint's own,
    or has stopped and its handshake is over.
   */
  lemma ReportsNothingExactly(s: State, peer: NodeId, id: ConnectionId, b: BufferId)
    requires Inv(s) && Offerable(s, peer, id, b) && Refers(s, peer)
    ensures Stranded(Accept(s, peer, id, b, Offer(s.pendings, peer, id)), id) <==> MuteOnceTaken(s, id)
  {
    AcceptKeeps(s, peer, id, b);
    if peer in s.endpoints {
      assert EndpointOk(s, peer);
    }
  }

  /**
    A connection that is taken again gets a second pair of listeners. No event reaches both: if it still
    had a listener, that event is not emitted any more. So one flag for each kind is enough.
   */
  lemma NoListenerIsDoubled(s: State, peer: NodeId, id: ConnectionId, b: BufferId)
    requires Inv(s) && Offerable(s, peer, id, b) && Refers(s, peer) && id in s.pendings
    ensures var was, now := s.pendings[id], Accept(s, peer, id, b, s.pendings[id]).pendings[id];
            && (was.connectedListener ==> now.replacedAsDuplicate || !now.handshaking)
            && (was.disconnectedListener ==> !now.Live())
  {
    assert PendingOk(s, id);
    if Stores(s, id) {
      assert EndpointOk(s, peer);
    }
  }

  /**
    A completed handshake establishes the stored connection and no other: a replaced, refused or
    closed one changes nothing, even though `onHandshakeCompleted` does not look at `stopped`.
   */
  lemma HandshakeCompletedKeeps(s: State, id: ConnectionId)
    requires Inv(s) && id in s.pendings
    ensures var s', p := HandshakeCompleted(s, id), s.pendings[id];
            && Inv(s') && (p.CanComplete() ==> Stores(s, id))
            && ViewsOf(s') == if Stores(s, id) && !p.CanComplete() then ViewsOf(s)
                else AfterConnected(ViewsOf(s), p.peer, id)
  {
    var p := s.pendings[id];
    assert PendingOk(s, id);
    if Stores(s, id) {
      assert EndpointOk(s, p.peer);
    }
    if p.CanComplete() {
      EstablishedKeeps(s, id, s.endpoints[p.peer].buffer);
      EstablishedViews(s, id, s.endpoints[p.peer].buffer);
    } else if p.handshaking {
      QuietPendingViews(s, id, p.OnHandshakeCompleted().(handshaking := false));
    }
  }

  lemma PendingClosedKeeps(s: State, id: ConnectionId)
    requires Inv(s) && id in s.pendings
    ensures var s', p := PendingClosed(s, id), s.pendings[id];
            && Inv(s') && (p.EmitsDisconnected() ==> Stores(s, id))
            && ViewsOf(s') == if Stores(s, id) && !p.Live() then ViewsOf(s)
                else AfterPendingGone(ViewsOf(s), p.peer, id)
  {
    var p := s.pendings[id];
    assert PendingOk(s, id);
    if Stores(s, id) {
      assert EndpointOk(s, p.peer);
    }
    if p.EmitsDisconnected() {
      GoneKeeps(s, id, s.endpoints[p.peer].buffer);
      GoneViews(s, id, s.endpoints[p.peer].buffer);
    } else {
      QuietPendingViews(s, id, p.Close());
    }
  }

  lemma HandshakerClosedKeeps(s: State, id: ConnectionId)
    requires Inv(s) && id in s.pendings
    ensures var s', p := HandshakerClosed(s, id), s.pendings[id];
            && Inv(s')
            && ViewsOf(s') == if Stores(s, id) && !p.Live() then ViewsOf(s)
                else AfterPendingGone(ViewsOf(s), p.peer, id)
  {
    PendingClosedKeeps(s, id);
    var t := PendingClosed(s, id);
    if Stores(t, id) {
      assert EndpointOk(t, t.pendings[id].peer);
    }
    QuietPendingViews(t, id, t.pendings[id].(handshaking := false));
  }

  /**
    Destroying a connection changes no endpoint. It strands one exactly if the connection is stored,
    except that a stopped one, whose `destroy` returns at once, may still complete its handshake.
   */
  lemma PendingDestroyedKeeps(s: State, id: ConnectionId)
    requires Inv(s) && id in s.pendings
    ensures var s', p := PendingDestroyed(s, id), s.pendings[id];
            && Inv(s') && ViewsOf(s') == ViewsOf(s)
            && (Stranded(s', id) <==> Stores(s, id) && !(p.stopped && p.CanComplete()))
  {
    assert PendingOk(s, id);
    if Stores(s, id) {
      assert EndpointOk(s, s.pendings[id].peer);
    }
    QuietPendingViews(s, id, s.pendings[id].Destroy());
  }

  lemma ManagedClosedKeeps(s: State, id: ConnectionId)
    requires Inv(s) && id in s.manageds
    ensures var s' := ManagedClosed(s, id);
            && Inv(s')
            && ViewsOf(s') == if s.manageds[id].listening then AfterConnectionGone(ViewsOf(s), s.manageds[id].peer, id)
                else ViewsOf(s)
  {
    assert ManagedOk(s, id);
    if Holds(s, id) {
      assert EndpointOk(s, s.manageds[id].peer);
    }
    if s.manageds[id].EmitsDisconnected() {
      HeldGoneKeeps(s, id);
      HeldGoneViews(s, id);
    } else {
      SilencedViews(s, id);
    }
  }

  lemma SendToKeeps(s: State, peer: NodeId, message: Message)
    requires Inv(s) && peer in s.endpoints
    ensures var s' := SendTo(s, peer, message); Inv(s') && ViewsOf(s') == AfterSend(ViewsOf(s), peer, message)
  {
    if s.endpoints[peer].ConnectingEndpoint? {
      BufferedKeeps(s, peer, message);
    } else {
      WrittenKeeps(s, peer, message);
    }
    SendViews(s, peer, message);
  }

  /** The fallback of `stop` throws away what waits at an endpoint, and leaves the endpoint. */
  lemma FallbackViews(s: State, b: BufferId)
    requires Inv(s) && b in s.doomed && b in s.buffers
    ensures var s' := Fallback(s, b);
            && Inv(s') && ViewsOf(s') == (if Waits(s, b) then AfterDrop(ViewsOf(s), s.homes[b]) else ViewsOf(s))
            && s'.buffers[b].promise == if s.buffers[b].promise == Open then Rejected else s.buffers[b].promise
  {
    var s' := Fallback(s, b);
    FallbackKeeps(s, b);
    forall n <- s.endpoints ensures ViewOf(s', n) == if Waits(s, b) && n == s.homes[b]
        then Connecting(s.endpoints[n].pending, []) else ViewOf(s, n) {
      FallbackView(s, b, n);
    }
  }

  lemma FallbackView(s: State, b: BufferId, n: NodeId)
    requires Inv(s) && b in s.doomed && b in s.buffers && n in s.endpoints && EndpointOk(Fallback(s, b), n)
    ensures ViewOf(Fallback(s, b), n)
         == if Waits(s, b) && n == s.homes[b] then Connecting(s.endpoints[n].pending, []) else ViewOf(s, n)
  {
    assert BufferOk(s, b);
    assert EndpointOk(s, n);
  }

  /** The stored connection will not report its end. */
  ghost predicate Unending(s: State, p: ConnectionId) { Stores(s, p) && !s.pendings[p].EmitsDisconnected() }

  lemma StopBegunBuffer(s: State, c: BufferId)
    requires Inv(s)
    requires c in StopBegun(s).buffers
    ensures BufferOk(StopBegun(s), c)
  {
    assert BufferOk(s, c);
  }

  lemma StopBegunKeeps(s: State)
    requires Inv(s)
    ensures Inv(StopBegun(s))
  {
    var s' := StopBegun(s);
    forall n <- s'.endpoints ensures EndpointOk(s', n) {
      assert EndpointOk(s, n);
    }
    forall q <- s'.pendings ensures PendingOk(s', q) {
      assert PendingOk(s, q);
    }
    forall m <- s'.manageds ensures ManagedOk(s', m) {
      assert ManagedOk(s, m);
    }
    forall c <- s'.buffers ensures BufferOk(s', c) {
      StopBegunBuffer(s, c);
    }
  }

  /** `stop` dooms exactly the buffers of endpoints whose connection is replaced or stopped, and changes no endpoint. */
  lemma StopBegunDooms(s: State, b: BufferId)
    requires Inv(s) && b in s.buffers && s.phase != Stopped && s.phase != Stopping
    ensures StopBegun(s).endpoints == s.endpoints
    ensures b in StopBegun(s).doomed <==> b in s.doomed || (Waits(s, b) && Unending(s, s.endpoints[s.homes[b]].pending))
  {
    if Waits(s, b) {
      assert EndpointOk(s, s.homes[b]);
    }
    if b in StrandedBuffers(s) {
      var n :| n in s.endpoints && s.endpoints[n].ConnectingEndpoint? && s.endpoints[n].pending in s.pendings
        && !s.pendings[s.endpoints[n].pending].Live() && s.endpoints[n].buffer == b;
      assert EndpointOk(s, n);
    }
  }

  // ------------------------------------------------------------------ if no used-up connection is taken

  /** A connection that can still be made: not replaced or stopped, its handshake not over, not an endpoint already. */
  ghost predicate Fit(s: State, id: ConnectionId) {
    id in s.pendings ==> s.pendings[id].Live() && s.pendings[id].handshaking && !Stores(s, id)
  }

  /** The endpoint's pending connection was not replaced, and as long as it is not stopped it can report both ways. */
  ghost predicate SoundAt(s: State, n: NodeId)
    requires n in s.endpoints
  {
    s.endpoints[n].ConnectingEndpoint? && s.endpoints[n].pending in s.pendings ==>
      SoundPending(s.pendings[s.endpoints[n].pending])
  }

  predicate SoundPending(p: Pending) {
    && !p.replacedAsDuplicate && p.connectedListener == p.disconnectedListener == !p.stopped
    && (p.handshaking || p.stopped)
  }

  ghost predicate Sound(s: State) {
    forall n <- s.endpoints :: SoundAt(s, n)
  }

  /** The end of the connection rejects what waits, and takes the endpoint away. */
  ghost predicate RejectsOnClose(s: State, b: BufferId, p: ConnectionId)
    requires Inv(s) && b in s.buffers && b in s.homes && p in s.pendings
  {
    var t := PendingClosed(s, p);
    b in t.buffers && t.buffers[b] == s.buffers[b].Reject() && s.homes[b] !in t.endpoints
  }

  /** Its completed handshake writes all that waits. */
  ghost predicate WritesOnCompletion(s: State, b: BufferId, p: ConnectionId)
    requires Inv(s) && b in s.buffers && p in s.pendings
  {
    var t := HandshakeCompleted(s, p);
    && b in t.buffers && t.buffers[b] == s.buffers[b].Resolve()
    && Holds(t, p) && t.manageds[p].sent == s.buffers[b].waiting
  }

  lemma CloseRejects(s: State, b: BufferId)
    requires Inv(s) && b in s.buffers && Waits(s, b)
    ensures var p := s.endpoints[s.homes[b]].pending;
            p in s.pendings && (RejectsOnClose(s, b, p) <==> s.pendings[p].Live())
  {
    assert EndpointOk(s, s.homes[b]);
  }

  lemma CompletionWrites(s: State, b: BufferId)
    requires Inv(s) && b in s.buffers && Waits(s, b)
    ensures var p := s.endpoints[s.homes[b]].pending;
            p in s.pendings && (WritesOnCompletion(s, b, p) <==> s.pendings[p].CanComplete())
  {
    assert EndpointOk(s, s.homes[b]);
    var p := s.endpoints[s.homes[b]].pending;
    if p in s.manageds {
      assert ManagedOk(s, p);
    }
  }

  /**
    While messages wait at an endpoint that is not stranded, the end of its connection rejects them or
    its handshake writes them: the first exactly if the connection is not stopped or replaced.
   */
  lemma WaitingEnds(s: State, b: BufferId)
    requires Inv(s) && b in s.buffers && Waits(s, b)
    ensures var p := s.endpoints[s.homes[b]].pending;
            && p in s.pendings
            && (RejectsOnClose(s, b, p) <==> s.pendings[p].Live())
            && (WritesOnCompletion(s, b, p) <==> s.pendings[p].CanComplete())
            && (Stranded(s, p) || RejectsOnClose(s, b, p) || WritesOnCompletion(s, b, p))
            && (Sound(s) && !Stranded(s, p) ==> RejectsOnClose(s, b, p) && WritesOnCompletion(s, b, p))
  {
    assert EndpointOk(s, s.homes[b]);
    CloseRejects(s, b);
    CompletionWrites(s, b);
    if Sound(s) {
      assert SoundAt(s, s.homes[b]);
    }
  }

  // ------------------------------------------------------------------ runs

  datatype Event =
    | Offered(peer: NodeId, offerer: Offerer, id: ConnectionId, b: BufferId)
    | Completed(id: ConnectionId)
    | Closed(id: ConnectionId)
    | HandshakerEnds(id: ConnectionId)
    | Destroyed(id: ConnectionId)
    | TransportClosed(id: ConnectionId)
    | ListenersRemoved(id: ConnectionId)
    | Sent(self: bool, peer: NodeId, message: Message, opts: SendOptions, offerer: Offerer, id: ConnectionId,
        b: BufferId)
    | CloseRequested(peer: NodeId)
    | Starts
    | StopBegins
    | FallbackFires(b: BufferId)
    | StopEnds

  /** Any connection may be offered, fresh or handed out before; other events come from connections that exist. */
  ghost predicate Enabled(s: State, e: Event) {
    match e
    case Offered(peer, _, id, b) => Offerable(s, peer, id, b)
    case Completed(id) => id in s.pendings
    case Closed(id) => id in s.pendings
    case HandshakerEnds(id) => id in s.pendings
    case Destroyed(id) => id in s.pendings
    case TransportClosed(id) => id in s.manageds
    case ListenersRemoved(id) => id in s.manageds
    case Sent(_, peer, _, _, _, id, b) => Offerable(s, peer, id, b)
    case CloseRequested(_) => true
    case Starts => s.phase != Running && s.phase != Stopped
    case StopBegins => true
    case FallbackFires(b) => b in s.doomed && b in s.buffers
    case StopEnds => true
  }

  function Apply(s: State, e: Event): State
    requires Inv(s) && Enabled(s, e)
  {
    match e
    case Offered(peer, offerer, id, b) =>
      RefersToKnown(s, peer);
      NewConnection(s, peer, offerer, id, b)
    case Completed(id) => HandshakeCompleted(s, id)
    case Closed(id) => PendingClosed(s, id)
    case HandshakerEnds(id) => HandshakerClosed(s, id)
    case Destroyed(id) => PendingDestroyed(s, id)
    case TransportClosed(id) => ManagedClosed(s, id)
    case ListenersRemoved(id) => ManagedSilenced(s, id)
    case Sent(self, peer, message, opts, offerer, id, b) => Send(s, self, peer, message, opts, offerer, id, b).0
    case CloseRequested(peer) => CloseConnection(s, peer)
    case Starts => s.(phase := Running)
    case StopBegins => StopBegun(s)
    case FallbackFires(b) => Fallback(s, b)
    case StopEnds => s.(phase := Stopped)
  }

  lemma DeliverKeeps(s: State, peer: NodeId, message: Message, opts: SendOptions)
    requires Inv(s)
    ensures Inv(Deliver(s, peer, message, opts).0)
  {
    if peer in s.endpoints {
      SendToKeeps(s, peer, message);
    }
  }

  lemma SendKeeps(s: State, self: bool, peer: NodeId, message: Message, opts: SendOptions,
                  offerer: Offerer, id: ConnectionId, b: BufferId)
    requires Inv(s) && Offerable(s, peer, id, b)
    ensures Inv(Send(s, self, peer, message, opts, offerer, id, b).0)
  {
    if peer in s.endpoints {
      DeliverKeeps(s, peer, message, opts);
    } else {
      NewConnectionKeeps(s, peer, offerer, id, b);
      DeliverKeeps(NewConnection(s, peer, offerer, id, b), peer, message, opts);
    }
  }

  /** A send fails on a missing endpoint exactly in a stopped manager that may still send and would have to connect. */
  lemma NoEndpointExactly(s: State, self: bool, peer: NodeId, message: Message, opts: SendOptions,
                          offerer: Offerer, id: ConnectionId, b: BufferId)
    requires Inv(s) && Offerable(s, peer, id, b)
    ensures Send(s, self, peer, message, opts, offerer, id, b).1 == NoEndpoint
       <==> s.phase == Stopped && opts.sendIfStopped && opts.connect && !self && peer !in s.endpoints
  {
    NewConnectionKeeps(s, peer, offerer, id, b);
  }

  /** The send is not ignored and not aimed at this node itself. */
  predicate Proceeds(s: State, self: bool, opts: SendOptions) {
    !self && (opts.sendIfStopped || (s.phase != Stopped && s.phase != Stopping))
  }

  /** The endpoints after the connection that a send makes for want of one, if it makes one. */
  ghost function ViewsToSend(s: State, self: bool, peer: NodeId, opts: SendOptions, offerer: Offerer, id: ConnectionId)
    : Views
    requires Inv(s)
  {
    if Proceeds(s, self, opts) && opts.connect && peer !in ViewsOf(s) && s.phase != Stopped then
      AfterNewConnection(ViewsOf(s), peer, offerer, id)
    else ViewsOf(s)
  }

  /** When a send has which result, in terms of the phase, the endpoint and the options. */
  ghost predicate ResultIsExact(s: State, self: bool, peer: NodeId, opts: SendOptions, result: SendResult)
    requires Inv(s)
  {
    var proceeds, views := Proceeds(s, self, opts), ViewsOf(s);
    var stopped, connected := s.phase == Stopped || s.phase == Stopping, peer in views && views[peer].Connected?;
    var waits := proceeds && !connected && opts.connect && (peer in views || s.phase != Stopped);
    match result
    case Ignored => stopped && !opts.sendIfStopped
    case CannotConnectToSelf => self && (opts.sendIfStopped || !stopped)
    case SendFailed => proceeds && !connected && !opts.connect
    case NoEndpoint => proceeds && peer !in views && opts.connect && s.phase == Stopped
    case Written => proceeds && connected
    case Dropped => waits && !opts.bufferWhileConnecting
    case Buffered => waits && opts.bufferWhileConnecting
  }

  lemma DeliverViews(s: State, peer: NodeId, message: Message, opts: SendOptions)
    requires Inv(s)
    ensures var (t, r) := Deliver(s, peer, message, opts);
      && Inv(t) && ViewsOf(t) == (if r == Written || r == Buffered then AfterSend(ViewsOf(s), peer, message)
                                  else ViewsOf(s))
      && r == if peer !in ViewsOf(s) then NoEndpoint
              else if ViewsOf(s)[peer].Connected? then Written
              else if opts.bufferWhileConnecting then Buffered else Dropped
  {
    if peer in s.endpoints {
      SendToKeeps(s, peer, message);
    }
  }

  lemma ConnectingSendViews(s: State, peer: NodeId, message: Message, opts: SendOptions,
                            offerer: Offerer, id: ConnectionId, b: BufferId)
    requires Inv(s) && Offerable(s, peer, id, b) && peer !in ViewsOf(s) && Refers(s, peer)
    requires Inv(NewConnection(s, peer, offerer, id, b))
    ensures var (t, r) := Deliver(NewConnection(s, peer, offerer, id, b), peer, message, opts);
      && Inv(t)
      && r == (if s.phase == Stopped then NoEndpoint else if opts.bufferWhileConnecting then Buffered else Dropped)
      && var v := if s.phase == Stopped then ViewsOf(s) else AfterNewConnection(ViewsOf(s), peer, offerer, id);
         ViewsOf(t) == if r == Buffered then AfterSend(v, peer, message) else v
  {
    NewConnectionKeeps(s, peer, offerer, id, b);
    DeliverViews(NewConnection(s, peer, offerer, id, b), peer, message, opts);
  }

  /** What a send comes to: its result, and the endpoints afterwards. */
  ghost predicate SendIsExact(s: State, self: bool, peer: NodeId, message: Message, opts: SendOptions,
                              offerer: Offerer, id: ConnectionId, t: State, r: SendResult)
    requires Inv(s)
  {
    var v := ViewsToSend(s, self, peer, opts, offerer, id);
    && Inv(t) && ResultIsExact(s, self, peer, opts, r)
    && if r == Written || r == Buffered then peer in v && ViewsOf(t) == AfterSend(v, peer, message)
       else ViewsOf(t) == v
  }

  lemma ExistingSendIsExact(s: State, self: bool, peer: NodeId, message: Message, opts: SendOptions,
                            offerer: Offerer, id: ConnectionId, b: BufferId)
    requires Inv(s) && Offerable(s, peer, id, b) && Proceeds(s, self, opts) && peer in s.endpoints
    ensures var (t, r) := Send(s, self, peer, message, opts, offerer, id, b);
            SendIsExact(s, self, peer, message, opts, offerer, id, t, r)
  {
    DeliverViews(s, peer, message, opts);
  }

  lemma ConnectingSendIsExact(s: State, self: bool, peer: NodeId, message: Message, opts: SendOptions,
                              offerer: Offerer, id: ConnectionId, b: BufferId)
    requires Inv(s) && Offerable(s, peer, id, b) && Proceeds(s, self, opts) && peer !in s.endpoints && opts.connect
    ensures var (t, r) := Send(s, self, peer, message, opts, offerer, id, b);
            SendIsExact(s, self, peer, message, opts, offerer, id, t, r)
  {
    RefersToKnown(s, peer);
    NewConnectionKeeps(s, peer, offerer, id, b);
    ConnectingSendViews(s, peer, message, opts, offerer, id, b);
  }

  /**
    Every send: it has exactly one of the results, when `ResultIsExact` says so. A message that was
    written or buffered comes last at the endpoint of its peer, made for it if there was none; for every
    other result there is no trace of the message.
   */
  lemma SendExactly(s: State, self: bool, peer: NodeId, message: Message, opts: SendOptions,
                    offerer: Offerer, id: ConnectionId, b: BufferId)
    requires Inv(s) && Offerable(s, peer, id, b)
    ensures var (t, r) := Send(s, self, peer, message, opts, offerer, id, b);
            SendIsExact(s, self, peer, message, opts, offerer, id, t, r)
  {
    if Proceeds(s, self, opts) {
      if peer in s.endpoints && (opts.connect || s.endpoints[peer].ConnectedEndpoint?) {
        ExistingSendIsExact(s, self, peer, message, opts, offerer, id, b);
      } else if peer !in s.endpoints && opts.connect {
        ConnectingSendIsExact(s, self, peer, message, opts, offerer, id, b);
      }
    }
  }

  /** No two results are possible for one send. */
  lemma OneResult(s: State, self: bool, peer: NodeId, opts: SendOptions, r: SendResult, q: SendResult)
    requires Inv(s) && ResultIsExact(s, self, peer, opts, r) && ResultIsExact(s, self, peer, opts, q)
    ensures r == q
  {
  }

  lemma StepKeeps(s: State, e: Event)
    requires Inv(s) && Enabled(s, e)
    ensures Inv(Apply(s, e))
  {
    match e
    case Offered(peer, offerer, id, b) => NewConnectionKeeps(s, peer, offerer, id, b);
    case Completed(id) => HandshakeCompletedKeeps(s, id);
    case Closed(id) => PendingClosedKeeps(s, id);
    case HandshakerEnds(id) => HandshakerClosedKeeps(s, id);
    case Destroyed(id) => PendingDestroyedKeeps(s, id);
    case TransportClosed(id) => ManagedClosedKeeps(s, id);
    case ListenersRemoved(id) => SilencedKeeps(s, id);
    case Sent(self, peer, message, opts, offerer, id, b) => SendKeeps(s, self, peer, message, opts, offerer, id, b);
    case CloseRequested(peer) =>
      if peer in s.endpoints && s.endpoints[peer].ConnectingEndpoint? {
        assert EndpointOk(s, peer);
        PendingClosedKeeps(s, s.endpoints[peer].pending);
      }
    case Starts => PhaseKeeps(s, Running);
    case StopBegins => StopBegunKeeps(s);
    case FallbackFires(b) => FallbackKeeps(s, b);
    case StopEnds => PhaseKeeps(s, Stopped);
  }

  lemma PhaseKeeps(s: State, phase: Phase)
    requires Inv(s)
    ensures Inv(s.(phase := phase)) && ViewsOf(s.(phase := phase)) == ViewsOf(s)
  {
    var s' := s.(phase := phase);
    forall n <- s.endpoints ensures EndpointOk(s', n) {
      assert EndpointOk(s, n);
    }
    forall p <- s.pendings ensures PendingOk(s', p) {
      assert PendingOk(s, p);
    }
    forall m <- s.manageds ensures ManagedOk(s', m) {
      assert ManagedOk(s, m);
    }
    forall b <- s.buffers ensures BufferOk(s', b) {
      assert BufferOk(s, b);
    }
  }

  ghost predicate IsRun(states: seq<State>, events: seq<Event>) {
    && |states| == |events| + 1
    && states[0] == INITIAL_STATE
    && forall i | 0 <= i < |events| && Inv(states[i]) ::
         Enabled(states[i], events[i]) && states[i + 1] == Apply(states[i], events[i])
  }

  lemma {:induction false} ReachableValid(states: seq<State>, events: seq<Event>, i: nat)
    requires IsRun(states, events) && i < |states|
    ensures Inv(states[i])
  {
    if i > 0 {
      ReachableValid(states, events, i - 1);
      StepKeeps(states[i - 1], events[i - 1]);
    }
  }

  /**
    Events of connections other than the stored ones: whatever a replaced, refused or closed
    connection reports, no endpoint is removed or overwritten, no buffer flushed and nothing written.
   */
  lemma StaleEventsAreSilent(s: State, e: Event)
    requires Inv(s) && Enabled(s, e)
    requires e.Completed? || e.Closed? || e.HandshakerEnds? || e.Destroyed? || e.TransportClosed? || e.ListenersRemoved?
    requires !Stores(s, e.id) && !Holds(s, e.id)
    ensures Apply(s, e).endpoints == s.endpoints && Apply(s, e).buffers == s.buffers
    ensures forall m <- s.manageds :: m in Apply(s, e).manageds && Apply(s, e).manageds[m].sent == s.manageds[m].sent
  {
    if e.id in s.pendings {
      assert PendingOk(s, e.id);
    }
    if e.id in s.manageds {
      assert ManagedOk(s, e.id);
    }
  }

  // ------------------------------------------------------------------ what is over is over

  ghost predicate SameListening(s: State, t: State) {
    forall m <- s.manageds :: m in t.manageds && t.manageds[m].listening == s.manageds[m].listening
  }

  lemma SendToFrame(s: State, peer: NodeId, message: Message)
    requires EndpointsValid(s) && peer in s.endpoints
    ensures var t := SendTo(s, peer, message);
            t.phase == s.phase && t.endpoints == s.endpoints && SameListening(s, t)
  {
    assert EndpointOk(s, peer);
  }

  lemma DeliverFrame(s: State, peer: NodeId, message: Message, opts: SendOptions)
    requires Inv(s)
    ensures var t := Deliver(s, peer, message, opts).0;
            t.phase == s.phase && t.endpoints == s.endpoints && SameListening(s, t)
  {
    if peer in s.endpoints {
      SendToFrame(s, peer, message);
    }
  }

  lemma NewConnectionFrame(s: State, peer: NodeId, offerer: Offerer, id: ConnectionId, b: BufferId)
    requires Refers(s, peer)
    ensures var t := NewConnection(s, peer, offerer, id, b);
            t.phase == s.phase && SameListening(s, t) && (s.phase == Stopped ==> t.endpoints == s.endpoints)
  {
  }

  lemma ConnectingSendFrame(s: State, e: Event)
    requires Inv(s) && Enabled(s, e) && e.Sent? && Refers(s, e.peer)
    requires Inv(NewConnection(s, e.peer, e.offerer, e.id, e.b))
    ensures var t := Deliver(NewConnection(s, e.peer, e.offerer, e.id, e.b), e.peer, e.message, e.opts).0;
            t.phase == s.phase && SameListening(s, t) && (s.phase == Stopped ==> t.endpoints == s.endpoints)
  {
    NewConnectionFrame(s, e.peer, e.offerer, e.id, e.b);
    DeliverFrame(NewConnection(s, e.peer, e.offerer, e.id, e.b), e.peer, e.message, e.opts);
  }

  lemma SentFrame(s: State, e: Event)
    requires Inv(s) && Enabled(s, e) && e.Sent?
    ensures var t := Apply(s, e);
            t.phase == s.phase && SameListening(s, t) && (s.phase == Stopped ==> t.endpoints == s.endpoints)
  {
    if e.peer in s.endpoints {
      DeliverFrame(s, e.peer, e.message, e.opts);
    } else {
      NewConnectionKeeps(s, e.peer, e.offerer, e.id, e.b);
      UnmetSendFrame(s, e);
    }
  }

  lemma UnmetSendFrame(s: State, e: Event)
    requires Inv(s) && Enabled(s, e) && e.Sent? && e.peer !in s.endpoints && Refers(s, e.peer)
    requires Inv(NewConnection(s, e.peer, e.offerer, e.id, e.b))
    ensures var t := Apply(s, e);
            t.phase == s.phase && SameListening(s, t) && (s.phase == Stopped ==> t.endpoints == s.endpoints)
  {
    var t := Deliver(NewConnection(s, e.peer, e.offerer, e.id, e.b), e.peer, e.message, e.opts).0;
    ConnectingSendFrame(s, e);
    assert Apply(s, e) == s || Apply(s, e) == t;
  }

  /** Nothing of the established connections changes, nor the phase, and no endpoint is added. */
  ghost predicate OnlyCloses(s: State, t: State) {
    t.phase == s.phase && t.manageds == s.manageds && t.endpoints.Keys <= s.endpoints.Keys
  }

  lemma ClosedFrame(s: State, id: ConnectionId)
    requires Inv(s) && id in s.pendings
    ensures OnlyCloses(s, PendingClosed(s, id)) && OnlyCloses(s, HandshakerClosed(s, id))
  {
  }

  lemma CloseRequestedFrame(s: State, peer: NodeId)
    requires Inv(s)
    ensures OnlyCloses(s, CloseConnection(s, peer))
  {
    if peer in s.endpoints && s.endpoints[peer].ConnectingEndpoint? {
      assert EndpointOk(s, peer);
      ClosedFrame(s, s.endpoints[peer].pending);
    }
  }

  lemma CompletedFrame(s: State, id: ConnectionId)
    requires Inv(s) && id in s.pendings
    ensures var t := HandshakeCompleted(s, id); t.phase == s.phase && t.endpoints.Keys <= s.endpoints.Keys
  {
    assert PendingOk(s, id);
  }

  /** Only starting and stopping change the phase, and a stopped manager cannot be started again. */
  lemma PhaseExactly(s: State, e: Event)
    requires Inv(s) && Enabled(s, e)
    ensures Apply(s, e).phase == match e
      case Starts => Running
      case StopBegins => if s.phase == Stopped then Stopped else Stopping
      case StopEnds => Stopped
      case _ => s.phase
    ensures s.phase == Stopped ==> !e.Starts? && Apply(s, e).endpoints.Keys <= s.endpoints.Keys
  {
    match e
    case Sent(_, _, _, _, _, _, _) => SentFrame(s, e);
    case Offered(peer, offerer, id, b) =>
      RefersToKnown(s, peer);
      NewConnectionFrame(s, peer, offerer, id, b);
    case Completed(id) => CompletedFrame(s, id);
    case Closed(i) => ClosedFrame(s, i);
    case HandshakerEnds(i) => ClosedFrame(s, i);
    case CloseRequested(peer) => CloseRequestedFrame(s, peer);
    case _ =>
  }

  /** Once it is stopped, a manager stays so, and gets no new endpoint. */
  lemma {:induction false} StoppedForGood(states: seq<State>, events: seq<Event>, i: nat, j: nat)
    requires IsRun(states, events) && i <= j < |states| && states[i].phase == Stopped
    ensures states[j].phase == Stopped && states[j].endpoints.Keys <= states[i].endpoints.Keys
  {
    if i < j {
      StoppedForGood(states, events, i, j - 1);
      ReachableValid(states, events, j - 1);
      PhaseExactly(states[j - 1], events[j - 1]);
    }
  }

  /** An established connection that the manager does not listen to any more. */
  predicate Silent(s: State, id: ConnectionId) { id in s.manageds && !s.manageds[id].listening }

  /** Offers and sends do not bring a listener back. */
  lemma OfferStaysSilent(s: State, e: Event, id: ConnectionId)
    requires Inv(s) && Enabled(s, e) && Silent(s, id) && (e.Offered? || e.Sent?)
    ensures Silent(Apply(s, e), id)
  {
    if e.Sent? {
      SentFrame(s, e);
    } else {
      RefersToKnown(s, e.peer);
      NewConnectionFrame(s, e.peer, e.offerer, e.id, e.b);
    }
  }

  lemma TransportClosedStaysSilent(s: State, i: ConnectionId, id: ConnectionId)
    requires Inv(s) && i in s.manageds && Silent(s, id)
    ensures Silent(ManagedClosed(s, i), id) && Silent(ManagedSilenced(s, i), id)
  {
  }

  lemma SilentStays(s: State, e: Event, id: ConnectionId)
    requires Inv(s) && Enabled(s, e) && Silent(s, id)
    ensures Silent(Apply(s, e), id)
  {
    if e.Offered? || e.Sent? {
      OfferStaysSilent(s, e, id);
    } else if e.Completed? {
      CompletedStaysSilent(s, e.id, id);
    } else if e.Closed? || e.HandshakerEnds? {
      ClosedFrame(s, e.id);
    } else if e.CloseRequested? {
      CloseRequestedFrame(s, e.peer);
    } else if e.TransportClosed? || e.ListenersRemoved? {
      TransportClosedStaysSilent(s, e.id, id);
    }
  }

  lemma CompletedStaysSilent(s: State, i: ConnectionId, id: ConnectionId)
    requires Inv(s) && i in s.pendings && Silent(s, id)
    ensures Silent(HandshakeCompleted(s, i), id)
  {
    assert ManagedOk(s, id);
  }

  lemma SilentIsUnheard(s: State, id: ConnectionId)
    requires Inv(s) && Silent(s, id)
    ensures ManagedClosed(s, id).endpoints == s.endpoints && ManagedClosed(s, id).buffers == s.buffers
  {
  }

  lemma BecomesSilent(s: State, e: Event)
    requires Inv(s) && Enabled(s, e) && (e.TransportClosed? || e.ListenersRemoved?)
    ensures Silent(Apply(s, e), e.id)
  {
  }

  lemma {:induction false} SilentForGood(states: seq<State>, events: seq<Event>, i: nat, j: nat, id: ConnectionId)
    requires IsRun(states, events) && i <= j < |states| && Silent(states[i], id)
    ensures Silent(states[j], id)
  {
    if i < j {
      SilentForGood(states, events, i, j - 1, id);
      ReachableValid(states, events, j - 1);
      SilentStays(states[j - 1], events[j - 1], id);
    }
  }

  /** The end of an established connection is heard at most once, and never after its listeners were removed. */
  lemma EndsOnce(states: seq<State>, events: seq<Event>, i: nat, j: nat, id: ConnectionId)
    requires IsRun(states, events) && i < j < |events|
    requires events[i] == TransportClosed(id) || events[i] == ListenersRemoved(id)
    requires events[j] == TransportClosed(id)
    ensures states[j + 1].endpoints == states[j].endpoints && states[j + 1].buffers == states[j].buffers
  {
    ReachableValid(states, events, i);
    BecomesSilent(states[i], events[i]);
    SilentForGood(states, events, i + 1, j, id);
    ReachableValid(states, events, j);
    SilentIsUnheard(states[j], id);
  }

  // ------------------------------------------------------------------ the fate of a buffered message

  /** What later states remember of a buffer: a settled promise is final, and buffers only grow. */
  ghost predicate BufferLater(s: State, t: State, b: BufferId)
    requires b in s.buffers
  {
    && b in t.buffers
    && s.buffers[b].pushed <= t.buffers[b].pushed && s.buffers[b].dropped <= t.buffers[b].dropped
    && (s.buffers[b].promise != Open ==> t.buffers[b].promise == s.buffers[b].promise)
    && (s.buffers[b].promise != Open && b !in t.doomed ==> t.buffers[b] == s.buffers[b])
  }

  /** And of a connection: what it wrote. */
  ghost predicate ManagedLater(s: State, t: State, m: ConnectionId)
    requires m in s.manageds
  {
    m in t.manageds && t.manageds[m].opening == s.manageds[m].opening && s.manageds[m].sent <= t.manageds[m].sent
  }

  ghost predicate Remembers(s: State, t: State) {
    && s.doomed <= t.doomed
    && (forall b <- s.buffers :: BufferLater(s, t, b))
    && (forall m <- s.manageds :: ManagedLater(s, t, m))
  }

  lemma RemembersSame(s: State, t: State)
    requires t.buffers == s.buffers && t.manageds == s.manageds && s.doomed <= t.doomed
    ensures Remembers(s, t)
  {
    forall b <- s.buffers ensures BufferLater(s, t, b) {
    }
    forall m <- s.manageds ensures ManagedLater(s, t, m) {
    }
  }

  lemma AcceptRemembers(s: State, peer: NodeId, id: ConnectionId, b: BufferId, offered: Pending)
    requires Refers(s, peer) && b !in s.buffers
    ensures Remembers(s, Accept(s, peer, id, b, offered))
  {
    var t := Accept(s, peer, id, b, offered);
    forall c <- s.buffers ensures BufferLater(s, t, c) {
    }
    forall m <- s.manageds ensures ManagedLater(s, t, m) {
    }
  }

  lemma NewConnectionRemembers(s: State, peer: NodeId, offerer: Offerer, id: ConnectionId, b: BufferId)
    requires Inv(s) && Offerable(s, peer, id, b) && Refers(s, peer)
    ensures Remembers(s, NewConnection(s, peer, offerer, id, b))
  {
    if Takes(s, peer, offerer) {
      AcceptRemembers(s, peer, id, b, Offer(s.pendings, peer, id));
    } else {
      RemembersSame(s, NewConnection(s, peer, offerer, id, b));
    }
  }

  lemma SendToRemembers(s: State, peer: NodeId, message: Message)
    requires Inv(s) && peer in s.endpoints
    ensures Remembers(s, SendTo(s, peer, message))
  {
    var t := SendTo(s, peer, message);
    assert EndpointOk(s, peer);
    forall b <- s.buffers ensures BufferLater(s, t, b) {
    }
    forall m <- s.manageds ensures ManagedLater(s, t, m) {
    }
  }

  lemma OnConnectedRemembers(s: State, p: ConnectionId, b: BufferId)
    requires Inv(s) && Completes(s, p, b) && p !in s.manageds
    ensures Remembers(s, HandshakeCompleted(s, p))
  {
    var t := HandshakeCompleted(s, p);
    assert EndpointOk(s, s.pendings[p].peer);
    forall c <- s.buffers ensures BufferLater(s, t, c) {
    }
    forall m <- s.manageds ensures ManagedLater(s, t, m) {
    }
  }

  lemma CompletedRemembers(s: State, id: ConnectionId)
    requires Inv(s) && id in s.pendings
    ensures Remembers(s, HandshakeCompleted(s, id))
  {
    var p := s.pendings[id];
    assert PendingOk(s, id);
    if p.CanComplete() {
      assert EndpointOk(s, p.peer);
      CompletesOnce(s, id);
      OnConnectedRemembers(s, id, s.endpoints[p.peer].buffer);
    } else {
      RemembersSame(s, HandshakeCompleted(s, id));
    }
  }

  lemma ClosedRemembers(s: State, id: ConnectionId)
    requires Inv(s) && id in s.pendings
    ensures Remembers(s, PendingClosed(s, id))
  {
    var t := PendingClosed(s, id);
    assert PendingOk(s, id);
    if Stores(s, id) {
      assert EndpointOk(s, s.pendings[id].peer);
    }
    forall b <- s.buffers ensures BufferLater(s, t, b) {
    }
    forall m <- s.manageds ensures ManagedLater(s, t, m) {
    }
  }

  lemma HandshakerClosedRemembers(s: State, id: ConnectionId)
    requires Inv(s) && id in s.pendings
    ensures Remembers(s, HandshakerClosed(s, id))
  {
    var t, u := PendingClosed(s, id), HandshakerClosed(s, id);
    ClosedRemembers(s, id);
    RemembersSame(t, u);
    RemembersTransitive(s, t, u);
  }

  lemma FallbackRemembers(s: State, b: BufferId)
    requires Inv(s) && b in s.doomed && b in s.buffers
    ensures Remembers(s, Fallback(s, b))
  {
  }

  lemma RemembersTransitive(s: State, t: State, u: State)
    requires Remembers(s, t) && Remembers(t, u)
    ensures Remembers(s, u)
  {
    forall b <- s.buffers ensures BufferLater(s, u, b) {
      assert BufferLater(s, t, b) && BufferLater(t, u, b);
    }
    forall m <- s.manageds ensures ManagedLater(s, u, m) {
      assert ManagedLater(s, t, m) && ManagedLater(t, u, m);
    }
  }

  lemma DeliverRemembers(s: State, peer: NodeId, message: Message, opts: SendOptions)
    requires Inv(s)
    ensures Remembers(s, Deliver(s, peer, message, opts).0)
  {
    if peer in s.endpoints {
      SendToRemembers(s, peer, message);
    }
  }

  lemma ConnectingSendRemembers(s: State, peer: NodeId, message: Message, opts: SendOptions,
                                offerer: Offerer, id: ConnectionId, b: BufferId)
    requires Inv(s) && Offerable(s, peer, id, b) && Refers(s, peer)
    requires Inv(NewConnection(s, peer, offerer, id, b))
    ensures Remembers(s, Deliver(NewConnection(s, peer, offerer, id, b), peer, message, opts).0)
  {
    var s' := NewConnection(s, peer, offerer, id, b);
    NewConnectionRemembers(s, peer, offerer, id, b);
    DeliverRemembers(s', peer, message, opts);
    RemembersTransitive(s, s', Deliver(s', peer, message, opts).0);
  }

  lemma SendRemembers(s: State, self: bool, peer: NodeId, message: Message, opts: SendOptions,
                      offerer: Offerer, id: ConnectionId, b: BufferId)
    requires Inv(s) && Offerable(s, peer, id, b)
    ensures Remembers(s, Send(s, self, peer, message, opts, offerer, id, b).0)
  {
    RemembersSame(s, s);
    if peer in s.endpoints {
      DeliverRemembers(s, peer, message, opts);
    } else {
      NewConnectionKeeps(s, peer, offerer, id, b);
      ConnectingSendRemembers(s, peer, message, opts, offerer, id, b);
    }
  }

  lemma StepRemembers(s: State, e: Event)
    requires Inv(s) && Enabled(s, e)
    ensures Remembers(s, Apply(s, e))
  {
    match e
    case Offered(peer, offerer, id, b) =>
      RefersToKnown(s, peer);
      NewConnectionRemembers(s, peer, offerer, id, b);
    case Completed(id) => CompletedRemembers(s, id);
    case Closed(id) => ClosedRemembers(s, id);
    case HandshakerEnds(id) => HandshakerClosedRemembers(s, id);
    case Destroyed(id) => RemembersSame(s, PendingDestroyed(s, id));
    case TransportClosed(id) => TransportClosedRemembers(s, id);
    case ListenersRemoved(id) => SilencedRemembers(s, id);
    case Sent(self, peer, message, opts, offerer, id, b) => SendRemembers(s, self, peer, message, opts, offerer, id, b);
    case CloseRequested(peer) =>
      if peer in s.endpoints && s.endpoints[peer].ConnectingEndpoint? {
        assert EndpointOk(s, peer);
        ClosedRemembers(s, s.endpoints[peer].pending);
      } else {
        RemembersSame(s, s);
      }
    case Starts => RemembersSame(s, s.(phase := Running));
    case StopBegins => RemembersSame(s, StopBegun(s));
    case FallbackFires(b) => FallbackRemembers(s, b);
    case StopEnds => RemembersSame(s, s.(phase := Stopped));
  }

  lemma SilencedRemembers(s: State, id: ConnectionId)
    requires id in s.manageds
    ensures Remembers(s, ManagedSilenced(s, id))
  {
    var t := ManagedSilenced(s, id);
    forall b <- s.buffers ensures BufferLater(s, t, b) {
    }
    forall m <- s.manageds ensures ManagedLater(s, t, m) {
    }
  }

  lemma TransportClosedRemembers(s: State, id: ConnectionId)
    requires Inv(s) && id in s.manageds
    ensures Remembers(s, ManagedClosed(s, id))
  {
    var t := ManagedClosed(s, id);
    assert ManagedOk(s, id);
    forall b <- s.buffers ensures BufferLater(s, t, b) {
    }
    forall m <- s.manageds ensures ManagedLater(s, t, m) {
    }
  }

  lemma RunStepRemembers(states: seq<State>, events: seq<Event>, i: nat)
    requires IsRun(states, events) && i < |events|
    ensures Remembers(states[i], states[i + 1])
  {
    ReachableValid(states, events, i);
    StepRemembers(states[i], events[i]);
  }

  lemma {:induction false} RunRemembers(states: seq<State>, events: seq<Event>, i: nat, j: nat)
    requires IsRun(states, events) && i <= j < |states|
    ensures Remembers(states[i], states[j])
  {
    if i < j {
      RunRemembers(states, events, i, j - 1);
      RunStepRemembers(states, events, j - 1);
      RemembersTransitive(states[i], states[j - 1], states[j]);
    } else {
      RemembersSame(states[i], states[j]);
    }
  }

  /** The message is the k-th of exactly one connection, before every direct send on it. */
  ghost predicate WrittenOnce(t: State, b: BufferId, k: nat, message: Message) {
    exists m <- t.manageds ::
      && t.manageds[m].opening == b && k < |t.manageds[m].sent| - |t.manageds[m].direct|
          && t.manageds[m].sent[k] == message
      && forall n <- t.manageds :: t.manageds[n].opening == b ==> n == m
  }

  ghost predicate WrittenNowhere(t: State, b: BufferId) {
    forall m <- t.manageds :: t.manageds[m].opening != b
  }

  /** The message waits, at its place, at exactly the endpoint of its peer. */
  ghost predicate WaitsAt(t: State, b: BufferId, k: nat, message: Message) {
    b in t.buffers && Waits(t, b) && k < |t.buffers[b].waiting| && t.buffers[b].waiting[k] == message
        && WrittenNowhere(t, b)
  }

  /**
    Where the k-th message ever pushed to a buffer is: as long as the promise is open it waits; once
    it is resolved it is the k-th message of exactly one connection; if it was thrown away, the
    promise is rejected and nothing of the buffer before it or itself was ever written. A message
    pushed after the fallback of `stop` has a rejected promise from the start, and yet it may be
    waiting, or written in its turn.
   */
  ghost predicate Fate(t: State, b: BufferId, k: nat, message: Message)
    requires b in t.buffers
  {
    var lost := |t.buffers[b].dropped|;
    match t.buffers[b].promise
    case Open => WaitsAt(t, b, k, message)
    case Resolved => WrittenOnce(t, b, k, message)
    case Rejected =>
      && (b !in t.doomed ==> k < lost && WrittenNowhere(t, b))
      && (k >= lost ==> WaitsAt(t, b, k - lost, message) || WrittenOnce(t, b, k - lost, message))
  }

  /** A connection that wrote the buffer wrote what was not thrown away, and then the direct sends. */
  ghost predicate WritesTheRest(t: State, b: BufferId)
    requires b in t.buffers
  {
    var buffer := t.buffers[b];
    forall m <- t.manageds :: t.manageds[m].opening == b ==>
      |buffer.dropped| <= |buffer.pushed|
          && t.manageds[m].sent == buffer.pushed[|buffer.dropped|..] + t.manageds[m].direct
  }

  lemma OnlyTheRestIsWritten(t: State, b: BufferId)
    requires Inv(t) && b in t.buffers
    ensures WritesTheRest(t, b)
  {
    var buffer := t.buffers[b];
    assert BufferOk(t, b);
    forall m <- t.manageds | t.manageds[m].opening == b
      ensures |buffer.dropped| <= |buffer.pushed|
          && t.manageds[m].sent == buffer.pushed[|buffer.dropped|..] + t.manageds[m].direct
    {
      OpenedBy(t, b, m);
      CutFront(buffer.dropped, t.manageds[m].sent, buffer.pushed, t.manageds[m].direct);
    }
  }

  lemma CutFront(a: seq<Message>, b: seq<Message>, c: seq<Message>, d: seq<Message>)
    requires a + b == c + d && |a| <= |c|
    ensures b == c[|a|..] + d
  {
    assert b == (a + b)[|a|..];
  }

  lemma OpenedBy(t: State, b: BufferId, m: ConnectionId)
    requires Inv(t) && b in t.buffers && m in t.manageds && t.manageds[m].opening == b
    ensures b in t.carriers && t.carriers[b] == m
        && t.buffers[b].dropped + t.manageds[m].sent == t.buffers[b].pushed + t.manageds[m].direct
  {
    assert ManagedOk(t, m);
  }

  lemma CarriedFate(t: State, b: BufferId, k: nat)
    requires Inv(t) && b in t.buffers && b in t.carriers && |t.buffers[b].dropped| <= k < |t.buffers[b].pushed|
    ensures WrittenOnce(t, b, k - |t.buffers[b].dropped|, t.buffers[b].pushed[k])
  {
    assert BufferOk(t, b);
    var m, buffer := t.carriers[b], t.buffers[b];
    OpenedBy(t, b, m);
    assert (buffer.dropped + t.manageds[m].sent)[k] == buffer.pushed[k];
    forall n <- t.manageds | t.manageds[n].opening == b ensures n == m {
      OpenedBy(t, b, n);
    }
  }

  lemma UncarriedNowhere(t: State, b: BufferId)
    requires Inv(t) && b in t.buffers && b !in t.carriers
    ensures WrittenNowhere(t, b)
  {
    forall m <- t.manageds ensures t.manageds[m].opening != b {
      assert ManagedOk(t, m);
    }
  }

  lemma UncarriedFate(t: State, b: BufferId, k: nat)
    requires Inv(t) && b in t.buffers && b !in t.carriers && k < |t.buffers[b].pushed|
    ensures Fate(t, b, k, t.buffers[b].pushed[k])
  {
    assert BufferOk(t, b);
    UncarriedNowhere(t, b);
  }

  lemma MessageFate(t: State, b: BufferId, k: nat)
    requires Inv(t) && b in t.buffers && k < |t.buffers[b].pushed|
    ensures Fate(t, b, k, t.buffers[b].pushed[k])
  {
    if b in t.carriers {
      assert BufferOk(t, b);
      if k >= |t.buffers[b].dropped| {
        CarriedFate(t, b, k);
      }
    } else {
      UncarriedFate(t, b, k);
    }
  }

  /** The fate of a buffered message in every later state of every run; and a promise settles once. */
  lemma BufferedMessageFate(states: seq<State>, events: seq<Event>, i: nat, j: nat, b: BufferId, k: nat)
    requires IsRun(states, events) && i <= j < |states|
    requires b in states[i].buffers && k < |states[i].buffers[b].pushed|
    ensures Inv(states[j]) && b in states[j].buffers && Fate(states[j], b, k, states[i].buffers[b].pushed[k])
    ensures states[i].buffers[b].promise != Open ==> states[j].buffers[b].promise == states[i].buffers[b].promise
    ensures k < |states[i].buffers[b].dropped| ==> k < |states[j].buffers[b].dropped|
    ensures WritesTheRest(states[j], b)
  {
    ReachableValid(states, events, j);
    RunRemembers(states, events, i, j);
    assert BufferLater(states[i], states[j], b);
    MessageFate(states[j], b, k);
    OnlyTheRestIsWritten(states[j], b);
  }
}
