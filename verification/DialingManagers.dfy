/**
  The connection managers behind `SimultaneousDial.dfy`: two managers driven by the same events keep
  step with the endpoint maps there in every run, so the managers themselves end in agreement.
 */
module DialingManagers {
  import opened Endpoints
  import opened SimultaneousDial
  import Connections
  import ConnectionManagers

  /** No endpoint waits for a pending connection that cannot report its success or its end. */
  ghost predicate NoneStranded(s: Connections.State) {
    forall n :: FreeAt(s, n)
  }

  ghost predicate FreeAt(s: Connections.State, n: NodeId) {
    n in s.endpoints && s.endpoints[n].ConnectingEndpoint? ==>
      && s.endpoints[n].pending in s.pendings
      && s.pendings[s.endpoints[n].pending].Live() && s.pendings[s.endpoints[n].pending].CanComplete()
  }

  /** The same connections with the same peers, in the same phase. */
  ghost predicate SamePeers(s: Connections.State, t: Connections.State) {
    && t.phase == s.phase && t.pendings.Keys == s.pendings.Keys && t.buffers.Keys == s.buffers.Keys
    && forall id <- s.pendings :: t.pendings[id].peer == s.pendings[id].peer
  }

  /** One connection more, with this peer. */
  ghost predicate OnePeerMore(s: Connections.State, t: Connections.State, id: ConnectionId, peer: NodeId) {
    && t.phase == s.phase && t.pendings.Keys == s.pendings.Keys + {id} && t.pendings[id].peer == peer
    && s.buffers.Keys <= t.buffers.Keys <= s.buffers.Keys + {id}
    && forall k <- s.pendings :: t.pendings[k].peer == s.pendings[k].peer
  }

  lemma AcceptFrees(s: Connections.State, peer: NodeId, id: ConnectionId, n: NodeId)
    requires Connections.Inv(s) && ConnectionManagers.Fresh(s, id, id) && Connections.Refers(s, peer)
    requires FreeAt(s, n)
    ensures FreeAt(Connections.Accept(s, peer, id, id, Connections.Offer(s.pendings, peer, id)), n)
  {
    if n in s.endpoints {
      assert Connections.EndpointOk(s, n);
    }
    if peer in s.endpoints {
      assert Connections.EndpointOk(s, peer);
    }
  }

  lemma AcceptPeers(s: Connections.State, peer: NodeId, id: ConnectionId)
    requires ConnectionManagers.Fresh(s, id, id) && Connections.Refers(s, peer)
    ensures OnePeerMore(s, Connections.Accept(s, peer, id, id, Connections.Offer(s.pendings, peer, id)), id, peer)
  {
  }

  lemma NewConnectionFrees(s: Connections.State, peer: NodeId, offerer: Offerer, id: ConnectionId)
    requires Connections.Inv(s) && ConnectionManagers.Fresh(s, id, id) && Connections.Refers(s, peer) && NoneStranded(s)
    ensures var t := Connections.NewConnection(s, peer, offerer, id, id); NoneStranded(t) && OnePeerMore(s, t, id, peer)
  {
    var t := Connections.NewConnection(s, peer, offerer, id, id);
    if Connections.Takes(s, peer, offerer) {
      AcceptPeers(s, peer, id);
      forall n ensures FreeAt(t, n) {
        assert FreeAt(s, n);
        AcceptFrees(s, peer, id, n);
      }
    } else {
      forall n ensures FreeAt(t, n) {
        assert FreeAt(s, n);
      }
    }
  }

  lemma CompletedPeers(s: Connections.State, id: ConnectionId)
    requires Connections.Inv(s) && id in s.pendings
    ensures SamePeers(s, Connections.HandshakeCompleted(s, id))
  {
    assert Connections.PendingOk(s, id);
    if Connections.Stores(s, id) {
      assert Connections.EndpointOk(s, s.pendings[id].peer);
    }
  }

  lemma CompletedFreesAt(s: Connections.State, id: ConnectionId, n: NodeId)
    requires Connections.Inv(s) && id in s.pendings && FreeAt(s, n)
    ensures FreeAt(Connections.HandshakeCompleted(s, id), n)
  {
    assert Connections.PendingOk(s, id);
    if n in s.endpoints {
      assert Connections.EndpointOk(s, n);
    }
    if Connections.Stores(s, id) {
      assert Connections.EndpointOk(s, s.pendings[id].peer);
    }
  }

  lemma CompletedFrees(s: Connections.State, id: ConnectionId)
    requires Connections.Inv(s) && id in s.pendings && NoneStranded(s)
    ensures NoneStranded(Connections.HandshakeCompleted(s, id))
  {
    forall n ensures FreeAt(Connections.HandshakeCompleted(s, id), n) {
      assert FreeAt(s, n);
      CompletedFreesAt(s, id, n);
    }
  }

  lemma ClosedFreesAt(s: Connections.State, id: ConnectionId, n: NodeId)
    requires Connections.Inv(s) && id in s.pendings && FreeAt(s, n)
    ensures FreeAt(Connections.PendingClosed(s, id), n)
  {
    assert Connections.PendingOk(s, id);
    if n in s.endpoints {
      assert Connections.EndpointOk(s, n);
    }
  }

  lemma ClosedFrees(s: Connections.State, id: ConnectionId)
    requires Connections.Inv(s) && id in s.pendings && NoneStranded(s)
    ensures NoneStranded(Connections.PendingClosed(s, id)) && SamePeers(s, Connections.PendingClosed(s, id))
  {
    assert Connections.PendingOk(s, id);
    if Connections.Stores(s, id) {
      assert Connections.EndpointOk(s, s.pendings[id].peer);
    }
    forall n ensures FreeAt(Connections.PendingClosed(s, id), n) {
      assert FreeAt(s, n);
      ClosedFreesAt(s, id, n);
    }
  }

  lemma HandshakerCloseFrees(s: Connections.State, id: ConnectionId)
    requires Connections.Inv(s) && id in s.pendings && NoneStranded(s)
    ensures NoneStranded(Connections.HandshakerClosed(s, id))
        && SamePeers(s, Connections.HandshakerClosed(s, id))
  {
    ClosedFrees(s, id);
    var t, u := Connections.PendingClosed(s, id), Connections.HandshakerClosed(s, id);
    forall n ensures FreeAt(u, n) {
      assert FreeAt(t, n);
    }
  }

  lemma DestroyedFrees(s: Connections.State, id: ConnectionId)
    requires Connections.Inv(s) && id in s.pendings && NoneStranded(s) && !Connections.Stores(s, id)
    ensures NoneStranded(Connections.PendingDestroyed(s, id)) && SamePeers(s, Connections.PendingDestroyed(s, id))
  {
    forall n ensures FreeAt(Connections.PendingDestroyed(s, id), n) {
      assert FreeAt(s, n);
      if n in s.endpoints {
        assert Connections.EndpointOk(s, n);
      }
    }
  }

  /** An incoming request leaves nothing stranded: what it destroys was refused, so never stored. */
  lemma RequestFrees(s: Connections.State, peer: NodeId, offerer: Offerer, id: ConnectionId)
    requires Connections.Inv(s) && ConnectionManagers.Fresh(s, id, id) && NoneStranded(s)
    ensures var t := ConnectionManagers.AfterRequest(s, peer, offerer, id, id);
            NoneStranded(t) && OnePeerMore(s, t, id, peer)
  {
    Connections.NewConnectionKeeps(s, peer, offerer, id, id);
    Connections.RefersToKnown(s, peer);
    NewConnectionFrees(s, peer, offerer, id);
    var t := Connections.NewConnection(s, peer, offerer, id, id);
    if Connections.Takes(s, peer, offerer) {
      CompletedFrees(t, id);
      CompletedPeers(t, id);
    } else {
      DestroyedFrees(t, id);
    }
  }

  lemma ReplyFrees(s: Connections.State, id: ConnectionId, reply: Reply)
    requires Connections.Inv(s) && id in s.pendings && NoneStranded(s)
    ensures NoneStranded(ManagersReply(s, id, reply)) && SamePeers(s, ManagersReply(s, id, reply))
  {
    match reply
    case Accepted =>
      CompletedFrees(s, id);
      CompletedPeers(s, id);
    case Refused =>
    case TransportClosed => HandshakerCloseFrees(s, id);
  }

  // ------------------------------------------------------------------ keeping step

  /** One node's manager has the endpoint map of the world, and knows the transports it should. */
  ghost predicate Follows(c: Config, w: World, side: Side, s: Connections.State) {
    && Connections.Inv(s) && s.phase == Connections.Running && NoneStranded(s)
    && Connections.ViewsOf(s) == w.At(side)
    && Knows(c, w, side, s)
  }

  ghost predicate Knows(c: Config, w: World, side: Side, s: Connections.State) {
    && (forall id <- s.pendings :: id < |w.transports|)
    && s.buffers.Keys <= s.pendings.Keys
    && forall id | 0 <= id < |w.transports| ::
         if w.transports[id].dialer == side then id in s.pendings && s.pendings[id].peer == c.Id(Other(side))
         else w.transports[id].requested ==> id !in s.pendings
  }

  datatype Managers = Managers(a: Connections.State, b: Connections.State) {
    function At(s: Side): Connections.State { if s == A then a else b }

    function With(s: Side, state: Connections.State): Managers {
      if s == A then this.(a := state) else this.(b := state)
    }
  }

  ghost predicate Simulate(c: Config, w: World, ms: Managers) {
    Follows(c, w, A, ms.a) && Follows(c, w, B, ms.b)
  }

  const NEW_MANAGER := Connections.INITIAL_STATE.(phase := Connections.Running)

  /** What the managers do at an event: the dialler's `onNewConnection`, the acceptor's request, the dialler's reply. */
  ghost function ManagersStep(c: Config, w: World, ms: Managers, e: Event): Managers
    requires Simulate(c, w, ms) && Enabled(c, w, e)
  {
    match e
    case Dial(side) =>
      Connections.RefersToKnown(ms.At(side), c.Id(Other(side)));
      var id := |w.transports|;
      ms.With(side, Connections.NewConnection(ms.At(side), c.Id(Other(side)), c.OffererAt(side), id, id))
    case Request(id) =>
      var dialer := w.transports[id].dialer;
      var side := Other(dialer);
      ms.With(side, ConnectionManagers.AfterRequest(ms.At(side), c.Id(dialer), c.OffererAt(side), id, id))
    case Deliver(id) =>
      var dialer := w.transports[id].dialer;
      ms.With(dialer, ManagersReply(ms.At(dialer), id, w.transports[id].replies[0]))
  }

  lemma DialKnows(c: Config, w: World, side: Side, s: Connections.State, t: Connections.State)
    requires Knows(c, w, side, s) && Enabled(c, w, Dial(side)) && OnePeerMore(s, t, |w.transports|, c.Id(Other(side)))
    ensures Knows(c, Step(c, w, Dial(side)), side, t)
  {
  }

  lemma RequestKnows(c: Config, w: World, id: ConnectionId, s: Connections.State, t: Connections.State)
    requires Enabled(c, w, Request(id)) && Knows(c, w, Other(w.transports[id].dialer), s)
    requires OnePeerMore(s, t, id, c.Id(w.transports[id].dialer))
    ensures Knows(c, Step(c, w, Request(id)), Other(w.transports[id].dialer), t)
  {
  }

  lemma ReplyKnows(c: Config, w: World, id: ConnectionId, s: Connections.State, t: Connections.State)
    requires Enabled(c, w, Deliver(id)) && Knows(c, w, w.transports[id].dialer, s) && SamePeers(s, t)
    ensures Knows(c, Step(c, w, Deliver(id)), w.transports[id].dialer, t)
  {
  }

  lemma DialFollows(c: Config, w: World, side: Side, s: Connections.State)
    requires Follows(c, w, side, s) && Enabled(c, w, Dial(side)) && Connections.Refers(s, c.Id(Other(side)))
    ensures Follows(c, Step(c, w, Dial(side)), side,
        Connections.NewConnection(s, c.Id(Other(side)), c.OffererAt(side), |w.transports|, |w.transports|))
  {
    DialIsTheManagers(c, w, side, s);
    NewConnectionFrees(s, c.Id(Other(side)), c.OffererAt(side), |w.transports|);
    DialKnows(c, w, side, s,
        Connections.NewConnection(s, c.Id(Other(side)), c.OffererAt(side), |w.transports|, |w.transports|));
  }

  lemma RequestFollows(c: Config, w: World, id: ConnectionId, s: Connections.State)
    requires Enabled(c, w, Request(id)) && Follows(c, w, Other(w.transports[id].dialer), s)
    ensures var side := Other(w.transports[id].dialer);
      Follows(c, Step(c, w, Request(id)), side,
          ConnectionManagers.AfterRequest(s, c.Id(w.transports[id].dialer), c.OffererAt(side), id, id))
  {
    var dialer := w.transports[id].dialer;
    RequestIsTheManagers(c, w, id, s);
    RequestFrees(s, c.Id(dialer), c.OffererAt(Other(dialer)), id);
    RequestKnows(c, w, id, s, ConnectionManagers.AfterRequest(s, c.Id(dialer), c.OffererAt(Other(dialer)), id, id));
  }

  lemma ReplyFollows(c: Config, w: World, id: ConnectionId, s: Connections.State)
    requires Enabled(c, w, Deliver(id)) && Follows(c, w, w.transports[id].dialer, s)
    ensures Follows(c, Step(c, w, Deliver(id)), w.transports[id].dialer,
        ManagersReply(s, id, w.transports[id].replies[0]))
  {
    assert FreeAt(s, c.Id(Other(w.transports[id].dialer)));
    DeliverIsTheManagers(c, w, id, s);
    ReplyFrees(s, id, w.transports[id].replies[0]);
    ReplyKnows(c, w, id, s, ManagersReply(s, id, w.transports[id].replies[0]));
  }

  /** The node that an event does not concern follows as well. */
  lemma OtherFollows(c: Config, w: World, e: Event, side: Side, s: Connections.State)
    requires Enabled(c, w, e) && Follows(c, w, side, s)
    requires side == match e
      case Dial(dialer) => Other(dialer)
      case Request(id) => w.transports[id].dialer
      case Deliver(id) => Other(w.transports[id].dialer)
    ensures Follows(c, Step(c, w, e), side, s)
  {
  }

  lemma StepSimulates(c: Config, w: World, ms: Managers, e: Event)
    requires Simulate(c, w, ms) && Enabled(c, w, e)
    ensures Simulate(c, Step(c, w, e), ManagersStep(c, w, ms, e))
  {
    match e
    case Dial(side) =>
      Connections.RefersToKnown(ms.At(side), c.Id(Other(side)));
      DialFollows(c, w, side, ms.At(side));
      OtherFollows(c, w, e, Other(side), ms.At(Other(side)));
    case Request(id) =>
      var dialer := w.transports[id].dialer;
      RequestFollows(c, w, id, ms.At(Other(dialer)));
      OtherFollows(c, w, e, dialer, ms.At(dialer));
    case Deliver(id) =>
      var dialer := w.transports[id].dialer;
      ReplyFollows(c, w, id, ms.At(dialer));
      OtherFollows(c, w, e, Other(dialer), ms.At(Other(dialer)));
  }

  // ------------------------------------------------------------------ runs of two managers

  ghost predicate IsManagersRun(c: Config, worlds: seq<World>, events: seq<Event>, managers: seq<Managers>) {
    && IsRun(c, worlds, events) && |managers| == |worlds|
    && managers[0] == Managers(NEW_MANAGER, NEW_MANAGER)
    && forall i | 0 <= i < |events| && Simulate(c, worlds[i], managers[i]) ::
         managers[i + 1] == ManagersStep(c, worlds[i], managers[i], events[i])
  }

  lemma {:induction false} ManagersKeepStep(c: Config, worlds: seq<World>, events: seq<Event>,
                                            managers: seq<Managers>, i: nat)
    requires IsManagersRun(c, worlds, events, managers) && i < |worlds|
    ensures Simulate(c, worlds[i], managers[i])
  {
    if i > 0 {
      ManagersKeepStep(c, worlds, events, managers, i - 1);
      StepSimulates(c, worlds[i - 1], managers[i - 1], events[i - 1]);
    }
  }

  /**
    Two connection managers whose offering hashes differ: whenever they have dialled and nothing is
    left to deliver, both hold one established connection, over the same transport.
   */
  lemma ManagersAgree(c: Config, worlds: seq<World>, events: seq<Event>, managers: seq<Managers>)
    requires c.Valid() && c.HashesDiffer() && IsManagersRun(c, worlds, events, managers)
    requires Quiescent(worlds[|events|]) && worlds[|events|].transports != []
    ensures var ms := managers[|events|];
            exists id: ConnectionId ::
              && c.b in ms.a.endpoints && ms.a.endpoints[c.b] == Connections.ConnectedEndpoint(id)
              && c.a in ms.b.endpoints && ms.b.endpoints[c.a] == Connections.ConnectedEndpoint(id)
  {
    EveryRunAgrees(c, worlds, events);
    ManagersKeepStep(c, worlds, events, managers, |events|);
    var w, ms := worlds[|events|], managers[|events|];
    var id: ConnectionId :| Agreed(c, w, id);
    HasEndpoint(ms.a, c.b, id);
    HasEndpoint(ms.b, c.a, id);
  }

  lemma HasEndpoint(s: Connections.State, peer: NodeId, id: ConnectionId)
    requires Connections.Inv(s) && peer in Connections.ViewsOf(s)
    requires Connections.ViewsOf(s)[peer].Connected? && Connections.ViewsOf(s)[peer].id == id
    ensures peer in s.endpoints && s.endpoints[peer] == Connections.ConnectedEndpoint(id)
  {
  }
}
