/**
  Endpoints of the connection manager whose connection can report nothing any more: which event
  strands an endpoint, what frees it again, and what happens if connectors offer no used-up connection.
 */
module StrandedEndpoints {
  import opened Defers
  import opened Endpoints
  import opened ConnectionParts
  import opened Connections

  // ------------------------------------------------------------------ the stored connections, step by step

  /** The event offers a connection, and it is taken. */
  predicate TakesOffer(s: State, e: Event) {
    match e
    case Offered(peer, offerer, _, _) => Takes(s, peer, offerer)
    case Sent(self, peer, _, opts, _, _, _) =>
      peer !in s.endpoints && opts.connect && !self
      && s.phase != Stopped && !(s.phase == Stopping && !opts.sendIfStopped)
    case _ => false
  }

  /** What an event that is no offer makes of a stored connection, if it stays stored. */
  function Moved(e: Event, id: ConnectionId, p: Pending): Pending {
    match e
    case Completed(i) => if i == id && p.handshaking then p.OnHandshakeCompleted().(handshaking := false) else p
    case Closed(i) => if i == id then p.Close() else p
    case HandshakerEnds(i) => if i == id then p.Close().(handshaking := false) else p
    case Destroyed(i) => if i == id then p.Destroy() else p
    case CloseRequested(peer) => if peer == p.peer then p.Close() else p
    case _ => p
  }

  /** The event makes the manager hear of the stored connection's success or end. */
  ghost predicate Reports(s: State, e: Event, id: ConnectionId)
    requires id in s.pendings
  {
    var p := s.pendings[id];
    match e
    case Completed(i) => i == id && p.CanComplete()
    case Closed(i) => i == id && p.EmitsDisconnected()
    case HandshakerEnds(i) => i == id && p.EmitsDisconnected()
    case CloseRequested(peer) => peer == p.peer && p.EmitsDisconnected()
    case _ => false
  }

  lemma DeliverStores(s: State, peer: NodeId, message: Message, opts: SendOptions)
    requires Inv(s)
    ensures var t := Deliver(s, peer, message, opts).0; t.endpoints == s.endpoints && t.pendings == s.pendings
  {
  }

  /** The state after an offer was taken, as far as pending connections go. */
  lemma OfferIsTaken(s: State, e: Event)
    requires Inv(s) && Enabled(s, e) && TakesOffer(s, e)
    ensures Refers(s, e.peer)
    ensures var t, u := Apply(s, e), Accept(s, e.peer, e.id, e.b, Offer(s.pendings, e.peer, e.id));
            t.endpoints == u.endpoints && t.pendings == u.pendings
  {
    RefersToKnown(s, e.peer);
    if e.Sent? {
      NewConnectionKeeps(s, e.peer, e.offerer, e.id, e.b);
      DeliverStores(NewConnection(s, e.peer, e.offerer, e.id, e.b), e.peer, e.message, e.opts);
    }
  }

  ghost predicate SameStored(s: State, t: State) {
    t.endpoints == s.endpoints && forall q <- s.pendings :: q in t.pendings && t.pendings[q] == s.pendings[q]
  }

  lemma OfferIsRefused(s: State, e: Event)
    requires Inv(s) && Enabled(s, e) && (e.Offered? || e.Sent?) && !TakesOffer(s, e)
    ensures SameStored(s, Apply(s, e))
  {
    RefersToKnown(s, e.peer);
    if e.Sent? {
      UnconnectedSend(s, e);
    }
  }

  lemma UnconnectedSend(s: State, e: Event)
    requires Inv(s) && Enabled(s, e) && e.Sent? && !TakesOffer(s, e)
    ensures SameStored(s, Apply(s, e))
  {
    if e.peer in s.endpoints {
      DeliverStores(s, e.peer, e.message, e.opts);
    }
  }

  /** The other endpoints after an offer was taken, and their connections. */
  lemma TakenElsewhere(s: State, peer: NodeId, id: ConnectionId, b: BufferId, q: ConnectionId)
    requires Inv(s) && Offerable(s, peer, id, b) && Refers(s, peer) && q != id
    ensures var t := Accept(s, peer, id, b, Offer(s.pendings, peer, id));
            && (Stores(t, q) <==> Stores(s, q) && s.pendings[q].peer != peer)
            && (Stores(t, q) ==> t.pendings[q] == s.pendings[q])
  {
    if Stores(s, q) {
      assert EndpointOk(s, s.pendings[q].peer);
    }
    if peer in s.endpoints {
      assert EndpointOk(s, peer);
    }
  }

  /** The connection stays stored exactly if the event reports nothing of it, and is what the event makes of it. */
  ghost predicate StaysUnlessReported(s: State, e: Event, q: ConnectionId)
    requires Inv(s) && Enabled(s, e)
  {
    var t := Apply(s, e);
    && (Stores(t, q) <==> Stores(s, q) && !Reports(s, e, q))
    && (Stores(t, q) ==> t.pendings[q] == Moved(e, q, s.pendings[q]))
  }

  /** The endpoint of a stored connection goes, or becomes an established one. */
  lemma Unstored(s: State, t: State, id: ConnectionId, q: ConnectionId)
    requires Stores(s, id) && id in t.pendings && t.pendings == s.pendings[id := t.pendings[id]]
    requires forall n <- s.endpoints ::
        n != s.pendings[id].peer ==> n in t.endpoints && t.endpoints[n] == s.endpoints[n]
    requires t.endpoints.Keys <= s.endpoints.Keys && t.pendings[id].peer == s.pendings[id].peer
    requires s.pendings[id].peer in t.endpoints ==> t.endpoints[s.pendings[id].peer].ConnectedEndpoint?
    ensures Stores(t, q) <==> Stores(s, q) && q != id
    ensures Stores(t, q) ==> t.pendings[q] == s.pendings[q]
  {
  }

  lemma StillStored(s: State, t: State, id: ConnectionId, q: ConnectionId)
    requires EndpointsValid(s) && id in s.pendings && id in t.pendings
    requires t.pendings == s.pendings[id := t.pendings[id]] && t.endpoints == s.endpoints
    requires t.pendings[id].peer == s.pendings[id].peer
    ensures Stores(t, q) <==> Stores(s, q)
  {
  }

  lemma CompletedStays(s: State, id: ConnectionId, q: ConnectionId)
    requires Inv(s) && id in s.pendings
    ensures StaysUnlessReported(s, Completed(id), q)
  {
    var t := HandshakeCompleted(s, id);
    if s.pendings[id].CanComplete() {
      CompletesStored(s, id);
      Unstored(s, t, id, q);
    } else {
      StillStored(s, t, id, q);
    }
  }

  lemma CompletesStored(s: State, id: ConnectionId)
    requires Inv(s) && id in s.pendings && s.pendings[id].CanComplete()
    ensures Stores(s, id) && s.endpoints[s.pendings[id].peer].pending == id
  {
    assert PendingOk(s, id);
  }

  lemma EndsStored(s: State, id: ConnectionId)
    requires Inv(s) && id in s.pendings && s.pendings[id].EmitsDisconnected()
    ensures Stores(s, id)
  {
    assert PendingOk(s, id);
  }

  lemma ClosedStays(s: State, id: ConnectionId, q: ConnectionId)
    requires Inv(s) && id in s.pendings
    ensures StaysUnlessReported(s, Closed(id), q)
  {
    var t := PendingClosed(s, id);
    if s.pendings[id].EmitsDisconnected() {
      EndsStored(s, id);
      Unstored(s, t, id, q);
    } else {
      StillStored(s, t, id, q);
    }
  }

  lemma HandshakerEndsStays(s: State, id: ConnectionId, q: ConnectionId)
    requires Inv(s) && id in s.pendings
    ensures StaysUnlessReported(s, HandshakerEnds(id), q)
  {
    ClosedStays(s, id, q);
  }

  lemma DestroyedStays(s: State, id: ConnectionId, q: ConnectionId)
    requires Inv(s) && id in s.pendings
    ensures StaysUnlessReported(s, Destroyed(id), q)
  {
  }

  lemma CloseRequestedStays(s: State, peer: NodeId, q: ConnectionId)
    requires Inv(s)
    ensures StaysUnlessReported(s, CloseRequested(peer), q)
  {
    if peer in s.endpoints && s.endpoints[peer].ConnectingEndpoint? {
      assert EndpointOk(s, peer);
      ClosedStays(s, s.endpoints[peer].pending, q);
    }
  }

  lemma TransportClosedStays(s: State, id: ConnectionId, q: ConnectionId)
    requires Inv(s) && id in s.manageds
    ensures StaysUnlessReported(s, TransportClosed(id), q)
  {
    assert ManagedOk(s, id);
  }

  /**
    One event and one connection that it does not newly store: the connection is stored afterwards
    exactly if it was, the event reports nothing of it, and no other connection to its peer was taken.
   */
  lemma StoredExactly(s: State, e: Event, q: ConnectionId)
    requires Inv(s) && Enabled(s, e) && !(TakesOffer(s, e) && e.id == q)
    ensures Stores(Apply(s, e), q)
        <==> Stores(s, q) && !Reports(s, e, q) && !(TakesOffer(s, e) && e.peer == s.pendings[q].peer)
    ensures Stores(Apply(s, e), q) ==> Apply(s, e).pendings[q] == Moved(e, q, s.pendings[q])
  {
    match e
    case Offered(_, _, _, _) => OfferStores(s, e, q);
    case Sent(_, _, _, _, _, _, _) => OfferStores(s, e, q);
    case Completed(id) => CompletedStays(s, id, q);
    case Closed(id) => ClosedStays(s, id, q);
    case HandshakerEnds(id) => HandshakerEndsStays(s, id, q);
    case Destroyed(id) => DestroyedStays(s, id, q);
    case CloseRequested(peer) => CloseRequestedStays(s, peer, q);
    case TransportClosed(id) => TransportClosedStays(s, id, q);
    case _ =>
  }

  lemma OfferStores(s: State, e: Event, q: ConnectionId)
    requires Inv(s) && Enabled(s, e) && (e.Offered? || e.Sent?) && !(TakesOffer(s, e) && e.id == q)
    ensures Stores(Apply(s, e), q) <==> Stores(s, q) && !(TakesOffer(s, e) && e.peer == s.pendings[q].peer)
    ensures Stores(Apply(s, e), q) ==> Apply(s, e).pendings[q] == s.pendings[q]
  {
    if TakesOffer(s, e) {
      OfferIsTaken(s, e);
      TakenElsewhere(s, e.peer, e.id, e.b, q);
    } else {
      OfferIsRefused(s, e);
      assert forall n <- s.endpoints :: EndpointOk(s, n);
    }
  }

  // ------------------------------------------------------------------ what strands an endpoint, and what frees it

  /**
    The event takes an offered connection that can report nothing any more; or it destroys a stored one
    that is neither replaced nor stopped; or it ends the handshaker of a stored one that was stopped
    before it was offered, and could only complete its handshake.
   */
  ghost predicate Strands(s: State, e: Event, id: ConnectionId) {
    || (TakesOffer(s, e) && e.id == id && MuteOnceTaken(s, id))
    || (e == Destroyed(id) && Stores(s, id) && s.pendings[id].Live())
    || (e == HandshakerEnds(id) && Stores(s, id) && s.pendings[id].stopped && s.pendings[id].CanComplete())
  }

  lemma TakenStrands(s: State, e: Event)
    requires Inv(s) && Enabled(s, e) && TakesOffer(s, e)
    ensures Stranded(Apply(s, e), e.id) <==> MuteOnceTaken(s, e.id)
  {
    OfferIsTaken(s, e);
    ReportsNothingExactly(s, e.peer, e.id, e.b);
  }

  lemma StoredIsHeard(s: State, id: ConnectionId)
    requires Inv(s) && Stores(s, id) && s.pendings[id].Live()
    ensures s.pendings[id].EmitsDisconnected()
  {
    assert EndpointOk(s, s.pendings[id].peer);
  }

  lemma OtherStrands(s: State, e: Event, id: ConnectionId)
    requires Inv(s) && Enabled(s, e) && !Stranded(s, id) && !(TakesOffer(s, e) && e.id == id)
    ensures Stranded(Apply(s, e), id) <==> Strands(s, e, id)
  {
    StoredExactly(s, e, id);
    if Stores(s, id) && s.pendings[id].Live() {
      StoredIsHeard(s, id);
    }
  }

  /** Over all events: an endpoint becomes stranded exactly by one of these three. */
  lemma StrandedExactly(s: State, e: Event, id: ConnectionId)
    requires Inv(s) && Enabled(s, e) && !Stranded(s, id)
    ensures Stranded(Apply(s, e), id) <==> Strands(s, e, id)
  {
    if TakesOffer(s, e) && e.id == id {
      TakenStrands(s, e);
    } else {
      OtherStrands(s, e, id);
    }
  }

  /** Another connection to the peer of `id` is taken. */
  predicate TakesOver(s: State, e: Event, id: ConnectionId)
    requires id in s.pendings
  {
    TakesOffer(s, e) && e.peer == s.pendings[id].peer && e.id != id
  }

  /** And it stays so, with its endpoint, exactly until another connection of the peer takes it over. */
  lemma StrandedStays(s: State, e: Event, id: ConnectionId)
    requires Inv(s) && Enabled(s, e) && Stranded(s, id)
    ensures Stranded(Apply(s, e), id) <==> !TakesOver(s, e, id)
  {
    if TakesOffer(s, e) && e.id == id {
      TakenStrands(s, e);
    } else {
      StoredExactly(s, e, id);
    }
  }

  /** Over any stretch of a run. */
  lemma {:induction false} StrandedUntilTakenOver(states: seq<State>, events: seq<Event>, i: nat, j: nat,
                                                  id: ConnectionId)
    requires IsRun(states, events) && i <= j < |states| && Stranded(states[i], id)
    requires forall k | i <= k < j && id in states[k].pendings :: !TakesOver(states[k], events[k], id)
    ensures Stranded(states[j], id)
  {
    if i < j {
      StrandedUntilTakenOver(states, events, i, j - 1, id);
      ReachableValid(states, events, j - 1);
      StrandedStays(states[j - 1], events[j - 1], id);
    }
  }

  // ------------------------------------------------------------------ if no used-up connection is taken

  lemma SoundStored(s: State, q: ConnectionId)
    requires Sound(s) && Stores(s, q)
    ensures SoundPending(s.pendings[q])
  {
    assert SoundAt(s, s.pendings[q].peer);
  }

  lemma StoredStaysSound(s: State, e: Event, q: ConnectionId)
    requires Inv(s) && Enabled(s, e) && Sound(s) && !(TakesOffer(s, e) && e.id == q) && Stores(Apply(s, e), q)
    ensures SoundPending(Apply(s, e).pendings[q])
  {
    StoredExactly(s, e, q);
    SoundStored(s, q);
  }

  lemma TakenIsSound(s: State, e: Event)
    requires Inv(s) && Enabled(s, e) && TakesOffer(s, e)
    ensures var t := Apply(s, e);
            e.id in t.pendings && (Sound(s) ==> (SoundPending(t.pendings[e.id]) <==> Fit(s, e.id)))
  {
    OfferIsTaken(s, e);
    if Sound(s) && Stores(s, e.id) {
      SoundStored(s, e.id);
    }
  }

  lemma FitKeepsSoundAt(s: State, e: Event, n: NodeId)
    requires Inv(s) && Enabled(s, e) && Sound(s) && (TakesOffer(s, e) ==> Fit(s, e.id))
    requires n in Apply(s, e).endpoints && EndpointOk(Apply(s, e), n)
    ensures SoundAt(Apply(s, e), n)
  {
    var t := Apply(s, e);
    if t.endpoints[n].ConnectingEndpoint? {
      var q := t.endpoints[n].pending;
      if TakesOffer(s, e) && e.id == q {
        TakenIsSound(s, e);
      } else {
        StoredStaysSound(s, e, q);
      }
    }
  }

  lemma UnfitBreaks(s: State, e: Event)
    requires Inv(s) && Enabled(s, e) && TakesOffer(s, e) && !Fit(s, e.id)
    ensures e.peer in Apply(s, e).endpoints && !SoundAt(Apply(s, e), e.peer)
  {
    OfferIsTaken(s, e);
  }

  /**
    After an event every endpoint can still report both ways, or is stranded by `rejectHandshake`,
    exactly if the event took no used-up connection.
   */
  lemma SoundExactly(s: State, e: Event)
    requires Inv(s) && Enabled(s, e) && Sound(s)
    ensures Sound(Apply(s, e)) <==> (TakesOffer(s, e) ==> Fit(s, e.id))
  {
    if TakesOffer(s, e) && !Fit(s, e.id) {
      UnfitBreaks(s, e);
    } else {
      StepKeeps(s, e);
      forall n <- Apply(s, e).endpoints ensures SoundAt(Apply(s, e), n) {
        FitKeepsSoundAt(s, e, n);
      }
    }
  }

  ghost predicate OffersAreFit(states: seq<State>, events: seq<Event>)
    requires |states| == |events| + 1
  {
    forall i | 0 <= i < |events| && TakesOffer(states[i], events[i]) :: Fit(states[i], events[i].id)
  }

  lemma {:induction false} ReachableSound(states: seq<State>, events: seq<Event>, i: nat)
    requires IsRun(states, events) && OffersAreFit(states, events) && i < |states|
    ensures Sound(states[i])
  {
    if i > 0 {
      ReachableSound(states, events, i - 1);
      ReachableValid(states, events, i - 1);
      SoundExactly(states[i - 1], events[i - 1]);
    }
  }

  /** Then only destroying its connection strands an endpoint. */
  lemma OnlyDestroyStrands(states: seq<State>, events: seq<Event>, i: nat, id: ConnectionId)
    requires IsRun(states, events) && OffersAreFit(states, events) && i < |events|
    requires !Stranded(states[i], id)
    ensures Stranded(states[i + 1], id) <==> events[i] == Destroyed(id) && Stores(states[i], id)
  {
    ReachableValid(states, events, i);
    ReachableSound(states, events, i);
    StrandedExactly(states[i], events[i], id);
    if Stores(states[i], id) {
      SoundStored(states[i], id);
    }
  }

  // ------------------------------------------------------------------ three runs

  /** A run with one more event. */
  lemma Extend(states: seq<State>, events: seq<Event>, e: Event) returns (longer: seq<State>, more: seq<Event>)
    requires IsRun(states, events) && Enabled(states[|events|], e)
    ensures IsRun(longer, more) && more == events + [e] && Inv(states[|events|])
    ensures Inv(longer[|more|]) && longer[|more|] == Apply(states[|events|], e)
  {
    var s := states[|events|];
    ReachableValid(states, events, |events|);
    StepKeeps(s, e);
    longer, more := states + [Apply(s, e)], events + [e];
    forall i | 0 <= i < |more| && Inv(longer[i])
      ensures Enabled(longer[i], more[i]) && longer[i + 1] == Apply(longer[i], more[i])
    {
      if i < |events| {
        assert longer[i] == states[i] && more[i] == events[i] && longer[i + 1] == states[i + 1];
      }
    }
  }

  lemma FirstOffer(peer: NodeId) returns (states: seq<State>, events: seq<Event>)
    ensures IsRun(states, events) && events == [Offered(peer, Remote, 0, 0)]
    ensures var s := states[1];
            && s.endpoints == map[peer := ConnectingEndpoint(0, 0)] && s.manageds == map[] && s.doomed == {}
            && s.pendings == map[0 := Pending(peer, false, false, true, true, true)]
            && s.buffers == map[0 := EMPTY_BUFFER] && s.homes == map[0 := peer] && s.phase == Idle
  {
    states, events := Extend([INITIAL_STATE], [], Offered(peer, Remote, 0, 0));
  }

  lemma ReplacedRun(peer: NodeId) returns (states: seq<State>, events: seq<Event>)
    ensures IsRun(states, events) && events == [Offered(peer, Remote, 0, 0), Offered(peer, Remote, 1, 1), Completed(1)]
    ensures var s := states[3];
            && s.endpoints == map[peer := ConnectedEndpoint(1)] && s.phase == Idle && s.buffers.Keys == {0}
            && 0 in s.pendings && s.pendings[0] == Pending(peer, true, false, true, true, true)
            && 1 in s.manageds && s.manageds[1].peer == peer && s.manageds[1].EmitsDisconnected()
  {
    states, events := FirstOffer(peer);
    states, events := Extend(states, events, Offered(peer, Remote, 1, 1));
    states, events := Extend(states, events, Completed(1));
  }

  /**
    Connection 0 is replaced by 1, which is established and then ends; 0 is still live, and its connector
    hands it out again. It is taken, and can report nothing.
   */
  lemma ReplacedOfferedAgain(peer: NodeId) returns (states: seq<State>, events: seq<Event>)
    ensures IsRun(states, events)
    ensures events == [Offered(peer, Remote, 0, 0), Offered(peer, Remote, 1, 1), Completed(1), TransportClosed(1),
                       Offered(peer, Remote, 0, 2)]
    ensures Stranded(states[5], 0) && !states[5].pendings[0].stopped && states[5].pendings[0].handshaking
  {
    states, events := ReplacedRun(peer);
    states, events := Extend(states, events, TransportClosed(1));
    states, events := Extend(states, events, Offered(peer, Remote, 0, 2));
  }

  const SEND_WHILE_STOPPING := SendOptions(true, true, true)

  lemma DestroyedRun(peer: NodeId) returns (states: seq<State>, events: seq<Event>)
    ensures IsRun(states, events) && events == [Offered(peer, Remote, 0, 0), Destroyed(0)]
    ensures var s := states[2];
            && s.endpoints == map[peer := ConnectingEndpoint(0, 0)] && s.manageds == map[] && s.phase == Idle
            && s.pendings == map[0 := Pending(peer, false, true, false, false, true)]
            && s.buffers == map[0 := EMPTY_BUFFER] && s.homes == map[0 := peer]
  {
    states, events := FirstOffer(peer);
    states, events := Extend(states, events, Destroyed(0));
  }

  /** A rejected handshake on a connection that is being made leaves an endpoint that nobody reports on. */
  lemma StrandedRun(peer: NodeId) returns (states: seq<State>, events: seq<Event>)
    ensures IsRun(states, events) && events == [Offered(peer, Remote, 0, 0), Destroyed(0)] && Stranded(states[2], 0)
  {
    states, events := DestroyedRun(peer);
  }

  lemma FallbackRun(peer: NodeId) returns (states: seq<State>, events: seq<Event>)
    ensures IsRun(states, events)
    ensures events == [Offered(peer, Remote, 0, 0), Destroyed(0), StopBegins, FallbackFires(0)]
    ensures var s := states[4];
            && s.endpoints == map[peer := ConnectingEndpoint(0, 0)] && s.manageds == map[] && s.phase == Stopping
            && s.pendings == map[0 := Pending(peer, false, true, false, false, true)]
            && s.buffers == map[0 := Buffer([], Rejected, [], [])]
  {
    states, events := DestroyedRun(peer);
    ReachableValid(states, events, 2);
    StopBegunDooms(states[2], 0);
    states, events := Extend(states, events, StopBegins);
    states, events := Extend(states, events, FallbackFires(0));
  }

  lemma LateSendRun(peer: NodeId, message: Message) returns (states: seq<State>, events: seq<Event>)
    ensures IsRun(states, events)
    ensures events == [Offered(peer, Remote, 0, 0), Destroyed(0), StopBegins, FallbackFires(0),
                       Sent(false, peer, message, SEND_WHILE_STOPPING, Remote, 2, 2)]
    ensures var s := states[5];
            && s.endpoints == map[peer := ConnectingEndpoint(0, 0)] && s.manageds == map[] && s.phase == Stopping
            && s.pendings == map[0 := Pending(peer, false, true, false, false, true)]
            && s.buffers == map[0 := Buffer([message], Rejected, [message], [])]
  {
    states, events := FallbackRun(peer);
    assert [] + [message] == [message];
    states, events := Extend(states, events, Sent(false, peer, message, SEND_WHILE_STOPPING, Remote, 2, 2));
  }

  /**
    Connection 0 is destroyed, the fallback of `stop` rejects its buffer, a message is pushed to it after
    that, and connection 1 takes the endpoint over: it writes the message, whose promise is rejected.
   */
  lemma RejectedYetWritten(peer: NodeId, message: Message) returns (states: seq<State>, events: seq<Event>)
    ensures IsRun(states, events)
    ensures events == [Offered(peer, Remote, 0, 0), Destroyed(0), StopBegins, FallbackFires(0),
                       Sent(false, peer, message, SEND_WHILE_STOPPING, Remote, 2, 2),
                       Offered(peer, Remote, 1, 1), Completed(1)]
    ensures var t := states[7]; 0 in t.buffers && t.buffers[0].promise == Rejected && WrittenOnce(t, 0, 0, message)
  {
    states, events := LateSendRun(peer, message);
    states, events := Extend(states, events, Offered(peer, Remote, 1, 1));
    states, events := Extend(states, events, Completed(1));
  }
}
