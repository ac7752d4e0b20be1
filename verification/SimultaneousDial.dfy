/**
  Two nodes that may dial each other at any time, over transports that lose nothing: every
  interleaving of dials, handshake requests, refusals and replacements. Each node's endpoint map
  moves by the functions that `Connections.dfy` proves of the connection manager.
 */
module SimultaneousDial {
  import opened Wrappers
  import opened Endpoints
  import Connections
  import ConnectionManagers

  datatype Side = A | B

  function Other(s: Side): Side { if s == A then B else A }

  datatype Config = Config(hash: string -> int, a: NodeId, b: NodeId) {
    function Id(s: Side): NodeId { if s == A then a else b }

    /** Who `side` takes for the offerer of its connection with the other node. */
    function OffererAt(side: Side): Offerer { GetOfferer(hash, Id(side), Id(Other(side))) }

    ghost predicate Valid() { a != b }

    ghost predicate HashesDiffer() { hash(a + "," + b) != hash(b + "," + a) }

    /** The node both take for the offerer. */
    ghost function Chosen(): Side { if OffererAt(A) == Local then A else B }
  }

  /** What the acceptor's end sends back: the handshake response, and the end of the transport. */
  datatype Reply = Accepted | Refused | TransportClosed

  /** A transport: who dialled it, whether the handshake request is on its way, and the replies on their way. */
  datatype Transport = Transport(dialer: Side, requested: bool, replies: seq<Reply>)

  /** The endpoint maps of both nodes, and all transports ever dialled, named by their position. */
  datatype World = World(a: Views, b: Views, transports: seq<Transport>) {
    function At(s: Side): Views { if s == A then a else b }

    function With(s: Side, vs: Views): World { if s == A then this.(a := vs) else this.(b := vs) }
  }

  const START := World(map[], map[], [])

  datatype Event = Dial(side: Side) | Request(id: ConnectionId) | Deliver(id: ConnectionId)

  predicate Enabled(c: Config, w: World, e: Event) {
    match e
    case Dial(side) => c.Id(Other(side)) !in w.At(side)
    case Request(id) => id < |w.transports| && w.transports[id].requested
    case Deliver(id) => id < |w.transports| && w.transports[id].replies != []
  }

  function Step(c: Config, w: World, e: Event): World
    requires Enabled(c, w, e)
  {
    match e
    case Dial(side) =>
      w.With(side, AfterNewConnection(w.At(side), c.Id(Other(side)), c.OffererAt(side), |w.transports|))
       .(transports := w.transports + [Transport(side, true, [])])
    case Request(id) =>
      var t := w.transports[id];
      var side := Other(t.dialer);
      var vs, peer := w.At(side), c.Id(t.dialer);
      if Refuses(vs, peer, c.OffererAt(side)) then
        w.(transports := w.transports[id := t.(requested := false, replies := [Refused, TransportClosed])])
      else
        w.With(side, AfterConnected(AfterNewConnection(vs, peer, c.OffererAt(side), id), peer, id))
         .(transports := w.transports[id := t.(requested := false, replies := [Accepted])])
    case Deliver(id) =>
      var t := w.transports[id];
      var vs, peer := w.At(t.dialer), c.Id(Other(t.dialer));
      var vs' := match t.replies[0]
        case Accepted => AfterConnected(vs, peer, id)
        case Refused => vs
        case TransportClosed => AfterPendingGone(vs, peer, id);
      w.With(t.dialer, vs').(transports := w.transports[id := t.(replies := t.replies[1..])])
  }

  /** A dial moves the dialler's views as `onNewConnection` moves the connection manager's. */
  lemma DialIsTheManagers(c: Config, w: World, side: Side, s: Connections.State)
    requires Enabled(c, w, Dial(side)) && Connections.Inv(s) && s.phase != Connections.Stopped
    requires Connections.ViewsOf(s) == w.At(side) && ConnectionManagers.Fresh(s, |w.transports|, |w.transports|)
    ensures Connections.Refers(s, c.Id(Other(side)))
    ensures var t := Connections.NewConnection(s, c.Id(Other(side)), c.OffererAt(side), |w.transports|, |w.transports|);
            Connections.Inv(t) && Connections.ViewsOf(t) == Step(c, w, Dial(side)).At(side)
  {
    Connections.RefersToKnown(s, c.Id(Other(side)));
    Connections.NewConnectionKeeps(s, c.Id(Other(side)), c.OffererAt(side), |w.transports|, |w.transports|);
  }

  /** A request moves the acceptor's views as the connection manager's handling of it does. */
  lemma RequestIsTheManagers(c: Config, w: World, id: ConnectionId, s: Connections.State)
    requires Enabled(c, w, Request(id)) && Connections.Inv(s) && s.phase != Connections.Stopped
    requires Connections.ViewsOf(s) == w.At(Other(w.transports[id].dialer)) && ConnectionManagers.Fresh(s, id, id)
    ensures var dialer := w.transports[id].dialer;
            var t := ConnectionManagers.AfterRequest(s, c.Id(dialer), c.OffererAt(Other(dialer)), id, id);
            Connections.Inv(t) && Connections.ViewsOf(t) == Step(c, w, Request(id)).At(Other(dialer))
  {
    var dialer := w.transports[id].dialer;
    ConnectionManagers.AfterRequestKeeps(s, c.Id(dialer), c.OffererAt(Other(dialer)), id, id);
  }

  /** What the dialler's manager does with a reply, through the outgoing handshaker. */
  ghost function ManagersReply(s: Connections.State, id: ConnectionId, reply: Reply): Connections.State
    requires Connections.Inv(s) && id in s.pendings
  {
    match reply
    case Accepted => Connections.HandshakeCompleted(s, id)
    case Refused => ConnectionManagers.AfterResponse(s, id, Some(ConnectionManagers.DuplicateConnection))
    case TransportClosed => Connections.HandshakerClosed(s, id)
  }

  /** A stored connection can still report both ways. */
  ghost predicate Ready(s: Connections.State, id: ConnectionId) {
    Connections.Stores(s, id) ==> s.pendings[id].Live() && s.pendings[id].CanComplete()
  }

  /** A reply moves the dialler's views as the handshaker's listeners move the connection manager's. */
  lemma DeliverIsTheManagers(c: Config, w: World, id: ConnectionId, s: Connections.State)
    requires Enabled(c, w, Deliver(id)) && Connections.Inv(s)
    requires Connections.ViewsOf(s) == w.At(w.transports[id].dialer)
    requires id in s.pendings && s.pendings[id].peer == c.Id(Other(w.transports[id].dialer))
        && Ready(s, id)
    ensures var t := ManagersReply(s, id, w.transports[id].replies[0]);
            Connections.Inv(t) && Connections.ViewsOf(t) == Step(c, w, Deliver(id)).At(w.transports[id].dialer)
  {
    match w.transports[id].replies[0]
    case Accepted => Connections.HandshakeCompletedKeeps(s, id);
    case Refused =>
    case TransportClosed => Connections.HandshakerClosedKeeps(s, id);
  }

  predicate Quiescent(w: World) {
    forall t <- w.transports :: !t.requested && t.replies == []
  }

  /** A node's endpoint for the other node, without the messages. */
  datatype Link = NoLink | Trying(id: ConnectionId) | Joined(id: ConnectionId)

  function LinkAt(c: Config, w: World, side: Side): Link {
    var peer := c.Id(Other(side));
    if peer !in w.At(side) then NoLink
    else match w.At(side)[peer]
      case Connecting(id, _) => Trying(id)
      case Connected(id, _) => Joined(id)
  }

  // ------------------------------------------------------------------ the invariant

  /** A transport of the node that is not the offerer: being requested, or on its way out. */
  ghost predicate Losing(t: Transport) {
    if t.requested then t.replies == []
    else t.replies == [Refused, TransportClosed] || t.replies == [TransportClosed] || t.replies == []
  }

  ghost predicate OthersLose(w: World, n: Side, winner: ConnectionId) {
    forall j | 0 <= j < |w.transports| && j != winner :: w.transports[j].dialer == n && Losing(w.transports[j])
  }

  /**
    The offerer `o` dials at most once and never loses its endpoint; the other node `n` follows it.
    Only while the offerer has no endpoint can a transport of the other node come through.
   */
  ghost predicate Inv(c: Config, w: World) {
    var o, n := c.Chosen(), Other(c.Chosen());
    var ts, ln := w.transports, LinkAt(c, w, n);
    match LinkAt(c, w, o)
    case NoLink =>
      if ts == [] then ln == NoLink else ts == [Transport(n, true, [])] && ln == Trying(0)
    case Trying(i) =>
      && i < |ts| && OthersLose(w, n, i)
      && (match ln
          case NoLink => ts[i] == Transport(o, true, [])
          case Trying(k) => ts[i] == Transport(o, true, []) && k < |ts| && k != i
              && (ts[k].requested || ts[k].replies != [])
          case Joined(k) => k == i && ts[i] == Transport(o, false, [Accepted]))
    case Joined(i) =>
      && i < |ts|
      && if ts[i].dialer == o then
           ts[i] == Transport(o, false, []) && ln == Joined(i) && OthersLose(w, n, i)
         else
           && |ts| == 1 && i == 0
           && ((ts[0] == Transport(n, false, [Accepted]) && ln == Trying(0))
               || (ts[0] == Transport(n, false, []) && ln == Joined(0)))
  }

  lemma DialKeeps(c: Config, w: World, side: Side)
    requires c.Valid() && c.HashesDiffer() && Inv(c, w) && Enabled(c, w, Dial(side))
    ensures Inv(c, Step(c, w, Dial(side)))
  {
  }

  lemma OfferersRequestKeeps(c: Config, w: World, id: ConnectionId)
    requires c.Valid() && c.HashesDiffer() && Inv(c, w) && Enabled(c, w, Request(id))
    requires w.transports[id].dialer == c.Chosen()
    ensures Inv(c, Step(c, w, Request(id)))
  {
  }

  lemma FollowersRequestKeeps(c: Config, w: World, id: ConnectionId)
    requires c.Valid() && c.HashesDiffer() && Inv(c, w) && Enabled(c, w, Request(id))
    requires w.transports[id].dialer == Other(c.Chosen())
    ensures Inv(c, Step(c, w, Request(id)))
  {
  }

  lemma DeliverKeeps(c: Config, w: World, id: ConnectionId)
    requires c.Valid() && c.HashesDiffer() && Inv(c, w) && Enabled(c, w, Deliver(id))
    ensures Inv(c, Step(c, w, Deliver(id)))
  {
    assert [Refused, TransportClosed][1..] == [TransportClosed];
  }

  // ------------------------------------------------------------------ runs

  ghost predicate IsRun(c: Config, worlds: seq<World>, events: seq<Event>) {
    && |worlds| == |events| + 1
    && worlds[0] == START
    && forall i | 0 <= i < |events| ::
        Enabled(c, worlds[i], events[i]) && worlds[i + 1] == Step(c, worlds[i], events[i])
  }

  lemma {:induction false} ReachableValid(c: Config, worlds: seq<World>, events: seq<Event>, i: nat)
    requires c.Valid() && c.HashesDiffer() && IsRun(c, worlds, events) && i < |worlds|
    ensures Inv(c, worlds[i])
  {
    if i > 0 {
      ReachableValid(c, worlds, events, i - 1);
      match events[i - 1]
      case Dial(side) => DialKeeps(c, worlds[i - 1], side);
      case Request(id) =>
        if worlds[i - 1].transports[id].dialer == c.Chosen() {
          OfferersRequestKeeps(c, worlds[i - 1], id);
        } else {
          FollowersRequestKeeps(c, worlds[i - 1], id);
        }
      case Deliver(id) => DeliverKeeps(c, worlds[i - 1], id);
    }
  }

  ghost predicate Agreed(c: Config, w: World, id: ConnectionId) {
    LinkAt(c, w, A) == Joined(id) && LinkAt(c, w, B) == Joined(id)
  }

  /**
    If the two hashes differ, every interleaving in which somebody dialled and nothing is left to
    deliver ends with both nodes on the same transport, the offerer's if the offerer dialled.
   */
  lemma EveryRunAgrees(c: Config, worlds: seq<World>, events: seq<Event>)
    requires c.Valid() && c.HashesDiffer() && IsRun(c, worlds, events)
    requires var w := worlds[|events|]; Quiescent(w) && w.transports != []
    ensures var w := worlds[|events|];
            exists id: ConnectionId :: Agreed(c, w, id) && id < |w.transports|
              && ((exists t <- w.transports :: t.dialer == c.Chosen()) ==> w.transports[id].dialer == c.Chosen())
  {
    var w := worlds[|events|];
    ReachableValid(c, worlds, events, |events|);
    assert forall j | 0 <= j < |w.transports| :: w.transports[j] in w.transports;
    assert Agreed(c, w, LinkAt(c, w, c.Chosen()).id);
  }

  // ------------------------------------------------------------------ every run ends

  ghost function Work(ts: seq<Transport>): nat {
    if ts == [] then 0 else Work(ts[..|ts| - 1]) + (if ts[|ts| - 1].requested then 3 else 0) + |ts[|ts| - 1].replies|
  }

  lemma {:induction false} WorkUpdate(ts: seq<Transport>, id: nat, t: Transport)
    requires id < |ts|
    ensures Work(ts[id := t]) + (if ts[id].requested then 3 else 0) + |ts[id].replies|
         == Work(ts) + (if t.requested then 3 else 0) + |t.replies|
  {
    var n := |ts| - 1;
    if id == n {
      assert ts[id := t][..n] == ts[..n];
    } else {
      assert ts[id := t][..n] == ts[..n][id := t];
      WorkUpdate(ts[..n], id, t);
    }
  }

  ghost function Dials(events: seq<Event>): nat {
    if events == [] then 0 else Dials(events[..|events| - 1]) + (if events[|events| - 1].Dial? then 1 else 0)
  }

  /** After d dials at most 3·d further events can happen. */
  lemma {:induction false} EveryRunEnds(c: Config, worlds: seq<World>, events: seq<Event>)
    requires IsRun(c, worlds, events)
    ensures |events| - Dials(events) + Work(worlds[|events|].transports) <= 3 * Dials(events)
  {
    var n := |events|;
    if n > 0 {
      assert IsRun(c, worlds[..n], events[..n - 1]);
      EveryRunEnds(c, worlds[..n], events[..n - 1]);
      var w := worlds[n - 1];
      match events[n - 1]
      case Dial(side) => assert (w.transports + [Transport(side, true, [])])[..|w.transports|] == w.transports;
      case Request(id) => WorkUpdate(w.transports, id, worlds[n].transports[id]);
      case Deliver(id) => WorkUpdate(w.transports, id, worlds[n].transports[id]);
    }
  }

  /** While the world is not quiescent, something other than a dial can happen. */
  lemma NoDeadlock(c: Config, w: World)
    requires !Quiescent(w)
    ensures exists e: Event :: !e.Dial? && Enabled(c, w, e)
  {
    var id :| 0 <= id < |w.transports| && !(!w.transports[id].requested && w.transports[id].replies == []);
    assert Enabled(c, w, Request(id)) || Enabled(c, w, Deliver(id));
  }

  /**
    If the two hashes are equal, each node takes the other for the offerer: when both dial before
    either request arrives, each replaces its own connection by the other's, and they end apart.
   */
  lemma EqualHashesDisagree(c: Config) returns (worlds: seq<World>, events: seq<Event>)
    requires c.Valid() && !c.HashesDiffer()
    ensures IsRun(c, worlds, events)
    ensures var w := worlds[|events|];
      Quiescent(w) && w.transports != [] && LinkAt(c, w, A) == Joined(1) && LinkAt(c, w, B) == Joined(0)
  {
    events := [Dial(A), Dial(B), Request(0), Request(1), Deliver(0), Deliver(1)];
    var w1 := Step(c, START, events[0]);
    var w2 := Step(c, w1, events[1]);
    var w3 := Step(c, w2, events[2]);
    var w4 := Step(c, w3, events[3]);
    var w5 := Step(c, w4, events[4]);
    var w6 := Step(c, w5, events[5]);
    worlds := [START, w1, w2, w3, w4, w5, w6];
  }
}
