/**
  `RpcCommunicator.ts` and the disconnect listener of `ListeningRpcCommunicator.ts`: the client side
  as functions on values, the class proved against them, and what every run keeps.
 */
module Rpc {
  import opened Wrappers

  type RequestId = string
  type Peer = string
  type Bytes = string

  // ------------------------------------------------------------------ messages and errors

  datatype ErrorType = ServerTimeout | ClientTimeout | UnknownRpcMethod | ClientError | ServerError

  datatype Response = Response(
    requestId: RequestId,
    body: Option<Bytes>,
    errorType: Option<ErrorType>,
    errorClassName: Option<string>,
    errorCode: Option<string>,
    errorMessage: Option<string>
  )

  /** What a promise can be rejected with. */
  datatype Error =
    | RpcTimeout | RpcServerTimeout | UnknownMethod
    | ServerFailure(message: Option<string>, className: Option<string>, code: Option<string>)
    | RpcRequest | FailedToParse | SendFailure | Disconnected | StoppedError

  datatype Promise = Unsettled | Fulfilled(result: Bytes) | FulfilledEmpty | Rejected(error: Error)

  /** What the server's handler did: an answer, or an error with its optional properties. */
  datatype Handled =
    | Answer(body: Bytes)
    | Threw(code: Option<string>, className: Option<string>, message: Option<string>)

  const UNKNOWN_RPC_METHOD := "UNKNOWN_RPC_METHOD"
  const RPC_TIMEOUT := "RPC_TIMEOUT"

  /** A property that is set and not the empty string: what the server copies into the response. */
  function Truthy(property: Option<string>): Option<string> {
    if property == Some("") then None else property
  }

  /** `handleRequest`: the response to a request, whatever its handler did. */
  function RespondTo(requestId: RequestId, handled: Handled): Response {
    match handled
    case Answer(body) => Response(requestId, Some(body), None, None, None, None)
    case Threw(code, className, message) =>
      if code == Some(UNKNOWN_RPC_METHOD) then Response(requestId, None, Some(UnknownRpcMethod), None, None, None)
      else if code == Some(RPC_TIMEOUT) then Response(requestId, None, Some(ServerTimeout), None, None, None)
      else Response(requestId, None, Some(ServerError), Truthy(className), Truthy(code), Truthy(message))
  }

  /** What a response settles its request with; `parse` is the message parser, `None` where it throws. */
  function Verdict(response: Response, parse: Bytes -> Option<Bytes>): (p: Promise)
    ensures p != Unsettled
  {
    match response.errorType
    case Some(ServerTimeout) => Rejected(RpcServerTimeout)
    case Some(UnknownRpcMethod) => Rejected(UnknownMethod)
    case Some(ServerError) =>
      Rejected(ServerFailure(response.errorMessage, response.errorClassName, response.errorCode))
    case Some(_) => Rejected(RpcRequest)
    case None =>
      if response.body.Some? && parse(response.body.value).Some? then Fulfilled(parse(response.body.value).value)
      else Rejected(FailedToParse)
  }

  /** A property of an error as the other end is told it: as it was thrown, but not at all if it is empty. */
  predicate Tells(told: Option<string>, thrown: Option<string>) {
    && (told.Some? <==> thrown.Some? && thrown.value != "")
    && (told.Some? ==> told == thrown)
  }

  /**
    What the client learns of a handled request: the parsed answer, or that it cannot be parsed; one of
    two special errors, known by their codes; or else the server's error with its message, class and code.
   */
  predicate Learns(p: Promise, handled: Handled, parse: Bytes -> Option<Bytes>) {
    match handled
    case Answer(body) => p == if parse(body).Some? then Fulfilled(parse(body).value) else Rejected(FailedToParse)
    case Threw(code, className, message) =>
      if code == Some("UNKNOWN_RPC_METHOD") then p == Rejected(UnknownMethod)
      else if code == Some("RPC_TIMEOUT") then p == Rejected(RpcServerTimeout)
      else
        && p.Rejected? && p.error.ServerFailure?
        && Tells(p.error.message, message) && Tells(p.error.className, className) && Tells(p.error.code, code)
  }

  lemma VerdictOfResponse(id: RequestId, handled: Handled, parse: Bytes -> Option<Bytes>)
    ensures Learns(Verdict(RespondTo(id, handled), parse), handled, parse)
  {
  }

  /** So a server failure means that the handler threw with an ordinary code, and a result that it answered. */
  lemma LearnsExactly(p: Promise, handled: Handled, parse: Bytes -> Option<Bytes>)
    requires Learns(p, handled, parse)
    ensures p.Fulfilled? <==> handled.Answer? && parse(handled.body).Some?
    ensures p == Rejected(FailedToParse) <==> handled.Answer? && parse(handled.body) == None
    ensures p.Rejected? && p.error.ServerFailure?
       <==> handled.Threw? && handled.code != Some("UNKNOWN_RPC_METHOD") && handled.code != Some("RPC_TIMEOUT")
  {
  }

  /** Whatever the response is: its error decides, and without one its body. */
  lemma VerdictOfAny(response: Response, parse: Bytes -> Option<Bytes>)
    ensures var v := Verdict(response, parse);
      && (v == Rejected(RpcServerTimeout) <==> response.errorType == Some(ServerTimeout))
      && (v == Rejected(UnknownMethod) <==> response.errorType == Some(UnknownRpcMethod))
      && (v == Rejected(RpcRequest) <==> response.errorType in {Some(ClientTimeout), Some(ClientError)})
      && (v.Rejected? && v.error.ServerFailure? <==> response.errorType == Some(ServerError))
      && (v.Rejected? && v.error.ServerFailure? ==>
            v.error == ServerFailure(response.errorMessage, response.errorClassName, response.errorCode))
      && (v.Fulfilled? || v == Rejected(FailedToParse) <==> response.errorType == None)
      && (v.Fulfilled? ==> response.body.Some? && parse(response.body.value) == Some(v.result))
      && (v == Rejected(FailedToParse) ==> response.body == None || parse(response.body.value) == None)
  {
  }

  // ------------------------------------------------------------------ client state

  /** A registered request: whom it is aimed at, and whether its timeout is armed. */
  datatype Request = Request(target: Peer, timerArmed: bool)

  /** `requests` are all ever registered, `ongoing` the keys of the source's map, `promises` those of all calls. */
  datatype Client = Client(
    stopped: bool,
    requests: map<RequestId, Request>,
    ongoing: set<RequestId>,
    promises: map<RequestId, Promise>
  )

  const NEW_CLIENT := Client(false, map[], {}, map[])

  /** A registered request is in the map, unsettled and timed, or none of the three. */
  ghost predicate Inv(c: Client) {
    && c.ongoing <= c.requests.Keys <= c.promises.Keys
    && (forall id <- c.requests ::
          && (id in c.ongoing <==> c.promises[id] == Unsettled)
          && (id in c.ongoing <==> c.requests[id].timerArmed))
    && (c.stopped ==> c.ongoing == {})
  }

  /** Settling: the underlying deferred throws if it is settled already. */
  function Settle(c: Client, id: RequestId, p: Promise): Client
    requires id in c.promises && c.promises[id] == Unsettled && p != Unsettled
  {
    c.(promises := c.promises[id := p])
  }

  /** `resolveRequest` and `rejectRequest`, then the removal from the map. */
  function Finish(c: Client, id: RequestId, p: Promise): Client
    requires Inv(c) && id in c.ongoing && p != Unsettled
  {
    Settle(c, id, p).(requests := c.requests[id := c.requests[id].(timerArmed := false)], ongoing := c.ongoing - {id})
  }

  /** `resolveNotification` through a throw-away `OngoingRequest`. */
  function ResolveNotification(c: Client, id: RequestId): Client
    requires id in c.promises
  {
    if c.promises[id] == Unsettled then Settle(c, id, FulfilledEmpty) else c
  }

  // ------------------------------------------------------------------ events

  /** A call by this client, with a promise, under a fresh id; `listens` says whether there is a listener to send it. */
  function Outgoing(c: Client, id: RequestId, target: Peer, notification: bool, listens: bool): Client
    requires id !in c.promises
  {
    var open := c.(promises := c.promises[id := Unsettled]);
    if c.stopped then Settle(open, id, Rejected(StoppedError))
    else if !notification then open.(requests := c.requests[id := Request(target, true)], ongoing := c.ongoing + {id})
    else if listens then open
    else ResolveNotification(open, id)
  }

  /** The listener's promise is rejected: the `catch` continuation. */
  function SendFailed(c: Client, id: RequestId): Client
    requires Inv(c) && id in c.promises
  {
    if id in c.ongoing then (if c.stopped then c else Finish(c, id, Rejected(SendFailure)))
    else if c.promises[id] == Unsettled then Settle(c, id, Rejected(SendFailure))
    else c
  }

  /** The `then` continuation, after a successful or a failed send. */
  function SendDone(c: Client, id: RequestId): Client
    requires id in c.promises
  {
    if id !in c.ongoing then ResolveNotification(c, id) else c
  }

  function Receive(c: Client, response: Response, parse: Bytes -> Option<Bytes>): Client
    requires Inv(c)
  {
    if !c.stopped && response.requestId in c.ongoing then Finish(c, response.requestId, Verdict(response, parse)) else c
  }

  function TimedOut(c: Client, id: RequestId): Client
    requires Inv(c) && id in c.requests && c.requests[id].timerArmed
  {
    Finish(c, id, Rejected(RpcTimeout))
  }

  function AimedAt(c: Client, peer: Peer): set<RequestId>
    requires Inv(c)
  {
    set id | id in c.ongoing && c.requests[id].target == peer
  }

  /** Every request of the set ends the same way. */
  function FinishAll(c: Client, ids: set<RequestId>, p: Promise): Client
    requires Inv(c) && ids <= c.ongoing && p != Unsettled
  {
    c.(promises := map id <- c.promises :: if id in ids then p else c.promises[id],
       requests := map id <- c.requests :: if id in ids then c.requests[id].(timerArmed := false) else c.requests[id],
       ongoing := c.ongoing - ids)
  }

  /** The disconnect listener does nothing once the communicator is stopped. */
  function PeerDisconnected(c: Client, peer: Peer): Client
    requires Inv(c)
  {
    FinishAll(c, AimedAt(c, peer), Rejected(Disconnected))
  }

  function Stopping(c: Client): Client
    requires Inv(c)
  {
    FinishAll(c, c.ongoing, Rejected(StoppedError)).(stopped := true)
  }

  // ------------------------------------------------------------------ what every event keeps

  /** Settled is final: no promise, once settled, changes, and no request loses its target. */
  ghost predicate Settles(c: Client, d: Client) {
    && (forall id <- c.promises ::
        id in d.promises && (c.promises[id] != Unsettled ==> d.promises[id] == c.promises[id]))
    && (forall id <- c.requests :: id in d.requests && d.requests[id].target == c.requests[id].target)
    && (c.stopped ==> d.stopped)
  }

  datatype Event =
    | Calls(id: RequestId, target: Peer, notification: bool, listens: bool)
    | SendFails(id: RequestId)
    | SendEnds(id: RequestId)
    | Receives(response: Response)
    | TimesOut(id: RequestId)
    | Disconnects(peer: Peer)
    | Stops

  predicate Enabled(c: Client, e: Event) {
    match e
    case Calls(id, _, _, _) => id !in c.promises
    case SendFails(id) => id in c.promises
    case SendEnds(id) => id in c.promises
    case Receives(_) => true
    case TimesOut(id) => id in c.requests && c.requests[id].timerArmed
    case Disconnects(_) => true
    case Stops => true
  }

  function Apply(c: Client, e: Event, parse: Bytes -> Option<Bytes>): Client
    requires Inv(c) && Enabled(c, e)
  {
    match e
    case Calls(id, target, notification, listens) => Outgoing(c, id, target, notification, listens)
    case SendFails(id) => SendFailed(c, id)
    case SendEnds(id) => SendDone(c, id)
    case Receives(response) => Receive(c, response, parse)
    case TimesOut(id) => TimedOut(c, id)
    case Disconnects(peer) => PeerDisconnected(c, peer)
    case Stops => Stopping(c)
  }

  lemma StepKeeps(c: Client, e: Event, parse: Bytes -> Option<Bytes>)
    requires Inv(c) && Enabled(c, e)
    ensures Inv(Apply(c, e, parse)) && Settles(c, Apply(c, e, parse))
  {
  }

  /** What becomes of an open promise at an event; a request is registered for good, a notification never. */
  lemma EventSettlesExactly(c: Client, e: Event, parse: Bytes -> Option<Bytes>, id: RequestId)
    requires Inv(c) && Enabled(c, e) && id in c.promises && c.promises[id] == Unsettled
    ensures var d, registered := Apply(c, e, parse), id in c.requests;
      id in d.promises && d.promises[id] == match e
        case Calls(_, _, _, _) => Unsettled
        case SendFails(i) => if i == id then Rejected(SendFailure) else Unsettled
        case SendEnds(i) => if i == id && !registered then FulfilledEmpty else Unsettled
        case Receives(response) =>
          if response.requestId == id && registered then Verdict(response, parse) else Unsettled
        case TimesOut(i) => if i == id then Rejected(RpcTimeout) else Unsettled
        case Disconnects(peer) =>
          if registered && c.requests[id].target == peer then Rejected(Disconnected) else Unsettled
        case Stops => if registered then Rejected(StoppedError) else Unsettled
  {
  }

  /**
    A call opens a promise; a stopped client rejects it at once, and without a listener a notification
    is fulfilled at once. A request is registered with its peer and timed exactly if the client runs.
   */
  lemma CallsExactly(c: Client, id: RequestId, target: Peer, notification: bool, listens: bool,
                     parse: Bytes -> Option<Bytes>)
    requires Inv(c) && id !in c.promises
    ensures var d := Apply(c, Calls(id, target, notification, listens), parse);
      && id in d.promises
      && d.promises[id] == (if c.stopped then Rejected(StoppedError)
                            else if notification && !listens then FulfilledEmpty else Unsettled)
      && (id in d.requests <==> !c.stopped && !notification)
      && (id in d.requests ==> d.requests[id] == Request(target, true))
      && (c.stopped <==> d.stopped)
  {
  }

  /** Only `stop` stops the client, and only a call adds a promise or a request. */
  lemma NothingElseChanges(c: Client, e: Event, parse: Bytes -> Option<Bytes>)
    requires Inv(c) && Enabled(c, e)
    ensures Apply(c, e, parse).stopped <==> c.stopped || e.Stops?
    ensures !e.Calls? ==> Apply(c, e, parse).promises.Keys == c.promises.Keys
    ensures !e.Calls? ==> Apply(c, e, parse).requests.Keys == c.requests.Keys
  {
  }

  /** `then` runs after every send, yet it never fulfils a registered request with the empty result. */
  lemma SendDoneLeavesRequests(c: Client, id: RequestId)
    requires Inv(c) && id in c.requests
    ensures SendDone(c, id) == c
  {
  }

  /** A late response changes nothing, nor does a second one for the same request. */
  lemma LateResponse(c: Client, response: Response, again: Response, parse: Bytes -> Option<Bytes>)
    requires Inv(c) && response.requestId == again.requestId
    ensures response.requestId in c.promises && c.promises[response.requestId] != Unsettled
        ==> Receive(c, response, parse) == c
    ensures Inv(Receive(c, response, parse))
        && Receive(Receive(c, response, parse), again, parse) == Receive(c, response, parse)
  {
    StepKeeps(c, Receives(response), parse);
  }

  /** A disconnect rejects exactly the open requests aimed at that peer. */
  lemma DisconnectIsExact(c: Client, peer: Peer, id: RequestId)
    requires Inv(c) && id in c.promises
    ensures PeerDisconnected(c, peer).promises[id]
         == if id in c.requests && c.requests[id].target == peer && c.promises[id] == Unsettled
             then Rejected(Disconnected)
            else c.promises[id]
  {
  }

  lemma FinishAllStep(c: Client, done: set<RequestId>, id: RequestId, p: Promise)
    requires Inv(c) && done <= c.ongoing && p != Unsettled && id in c.ongoing - done
    ensures Inv(FinishAll(c, done, p)) && Finish(FinishAll(c, done, p), id, p) == FinishAll(c, done + {id}, p)
  {
    var left, right := Finish(FinishAll(c, done, p), id, p), FinishAll(c, done + {id}, p);
    assert left.promises == right.promises;
    assert left.requests == right.requests;
    assert left.ongoing == right.ongoing;
  }

  lemma FinishNone(c: Client, p: Promise)
    requires Inv(c) && p != Unsettled
    ensures FinishAll(c, {}, p) == c
  {
    assert FinishAll(c, {}, p).promises == c.promises && FinishAll(c, {}, p).requests == c.requests;
  }

  // ------------------------------------------------------------------ the class

  class RpcCommunicator {
    var stopped: bool
    /** The registered requests; `ongoing` are those in the source's `ongoingRequests` map. */
    var requests: map<RequestId, Request>
    var ongoing: set<RequestId>
    /** The deferred results of all calls. */
    var promises: map<RequestId, Promise>

    ghost function Value(): Client
      reads this
    {
      Client(stopped, requests, ongoing, promises)
    }

    ghost predicate Valid()
      reads this
    {
      Inv(Value())
    }

    constructor ()
      ensures Valid() && Value() == NEW_CLIENT
    {
      stopped, requests, ongoing, promises := false, map[], {}, map[];
    }

    /** The deferred throws when it is settled twice. */
    method SettleDeferred(id: RequestId, p: Promise)
      requires id in promises && promises[id] == Unsettled && p != Unsettled
      modifies this`promises
      ensures promises == old(promises)[id := p]
    {
      promises := promises[id := p];
    }

    /** `OngoingRequest.resolveRequest` or `rejectRequest`: the timer is cleared, an open promise settled. */
    method EndRequest(id: RequestId, p: Promise)
      requires id in requests && id in promises && p != Unsettled
      modifies this`requests, this`promises
      ensures requests == old(requests)[id := old(requests)[id].(timerArmed := false)]
      ensures promises == if old(promises)[id] == Unsettled then old(promises)[id := p] else old(promises)
    {
      requests := requests[id := requests[id].(timerArmed := false)];
      if promises[id] == Unsettled {
        SettleDeferred(id, p);
      }
    }

    /** A message without a deferred result, such as a response, is only handed to the listener. */
    method OnOutgoingMessage(id: RequestId, target: Peer, deferred: bool, notification: bool, listens: bool)
      requires Valid() && (deferred ==> id !in promises)
      modifies this
      ensures Valid()
      ensures Value() == if deferred then Outgoing(old(Value()), id, target, notification, listens) else old(Value())
    {
      if !deferred {
        return;
      }
      StepKeeps(Value(), Calls(id, target, notification, listens), _ => None);
      promises := promises[id := Unsettled];
      if stopped {
        SettleDeferred(id, Rejected(StoppedError));
        return;
      }
      if !notification {
        requests := requests[id := Request(target, true)];
        ongoing := ongoing + {id};
      }
      if !listens {
        OnSendDone(id);
      }
    }

    method OnSendFailed(id: RequestId)
      requires Valid() && id in promises
      modifies this
      ensures Valid() && Value() == SendFailed(old(Value()), id)
    {
      StepKeeps(Value(), SendFails(id), _ => None);
      if id in ongoing {
        HandleClientError(id, SendFailure);
      } else if promises[id] == Unsettled {
        SettleDeferred(id, Rejected(SendFailure));
      }
    }

    method OnSendDone(id: RequestId)
      requires id in promises
      modifies this
      ensures Value() == SendDone(old(Value()), id)
    {
      if id !in ongoing {
        if promises[id] == Unsettled {
          SettleDeferred(id, FulfilledEmpty);
        }
      }
    }

    method HandleClientError(id: RequestId, error: Error)
      requires Valid()
      modifies this
      ensures Valid()
      ensures Value() == if id in old(ongoing) then Finish(old(Value()), id, Rejected(error)) else old(Value())
    {
      if stopped {
        return;
      }
      if id in ongoing {
        EndRequest(id, Rejected(error));
        ongoing := ongoing - {id};
      }
    }

    method OnIncomingResponse(response: Response, parse: Bytes -> Option<Bytes>)
      requires Valid()
      modifies this
      ensures Valid() && Value() == Receive(old(Value()), response, parse)
    {
      StepKeeps(Value(), Receives(response), parse);
      if !stopped && response.requestId in ongoing {
        EndRequest(response.requestId, Verdict(response, parse));
        ongoing := ongoing - {response.requestId};
      }
    }

    /** The timer of a registered request fires. */
    method OnTimeout(id: RequestId)
      requires Valid() && id in requests && requests[id].timerArmed
      modifies this
      ensures Valid() && Value() == TimedOut(old(Value()), id)
    {
      StepKeeps(Value(), TimesOut(id), _ => None);
      EndRequest(id, Rejected(RpcTimeout));
      ongoing := ongoing - {id};
    }

    /** The transport's `disconnected` listener of `ListeningRpcCommunicator`. */
    method OnPeerDisconnected(peer: Peer)
      requires Valid()
      modifies this
      ensures Valid() && Value() == PeerDisconnected(old(Value()), peer)
    {
      ghost var start := Value();
      StepKeeps(start, Disconnects(peer), _ => None);
      var ids := set id | id in ongoing && requests[id].target == peer;
      ghost var all := ids;
      FinishNone(start, Rejected(Disconnected));
      while ids != {}
        invariant Valid() && ids <= all <= start.ongoing
        invariant Value() == FinishAll(start, all - ids, Rejected(Disconnected))
        decreases ids
      {
        var id :| id in ids;
        FinishAllStep(start, all - ids, id, Rejected(Disconnected));
        assert all - (ids - {id}) == (all - ids) + {id};
        HandleClientError(id, Disconnected);
        ids := ids - {id};
      }
      assert all - ids == all;
    }

    method Stop()
      requires Valid()
      modifies this
      ensures Valid() && Value() == Stopping(old(Value()))
    {
      ghost var start := Value();
      StepKeeps(start, Stops, _ => None);
      FinishNone(start, Rejected(StoppedError));
      stopped := true;
      var ids := ongoing;
      while ids != {}
        invariant ids <= ongoing == start.ongoing && stopped
        invariant requests == FinishAll(start, ongoing - ids, Rejected(StoppedError)).requests
        invariant promises == FinishAll(start, ongoing - ids, Rejected(StoppedError)).promises
        decreases ids
      {
        var id :| id in ids;
        FinishAllStep(start, ongoing - ids, id, Rejected(StoppedError));
        assert ongoing - (ids - {id}) == (ongoing - ids) + {id};
        EndRequest(id, Rejected(StoppedError));
        ids := ids - {id};
      }
      assert ongoing - ids == ongoing;
      ongoing := {};
    }
  }

  // ------------------------------------------------------------------ client and server over a lossy network

  /**
    A client and the servers it calls. The network may lose, repeat and reorder: any request ever
    sent can reach a server, and any response ever sent the client, any number of times.
   */
  datatype World = World(client: Client, requested: set<RequestId>, handled: set<(RequestId, Handled)>,
      responses: set<Response>)

  const START_WORLD := World(NEW_CLIENT, {}, {}, {})

  datatype WorldEvent = AtClient(event: Event) | AtServer(id: RequestId, outcome: Handled)

  predicate WorldEnabled(w: World, e: WorldEvent) {
    match e
    case AtClient(event) => Enabled(w.client, event) && (event.Receives? ==> event.response in w.responses)
    case AtServer(id, _) => id in w.requested
  }

  function WorldStep(w: World, e: WorldEvent, parse: Bytes -> Option<Bytes>): World
    requires Inv(w.client) && WorldEnabled(w, e)
  {
    match e
    case AtClient(event) =>
      var sends := event.Calls? && !w.client.stopped && event.listens && !event.notification;
      w.(client := Apply(w.client, event, parse), requested := if sends then w.requested + {event.id} else w.requested)
    case AtServer(id, outcome) =>
      w.(handled := w.handled + {(id, outcome)}, responses := w.responses + {RespondTo(id, outcome)})
  }

  /** This outcome at a server is what settled the promise. */
  ghost predicate SettledBy(w: World, id: RequestId, outcome: Handled, parse: Bytes -> Option<Bytes>) {
    && id in w.requested && (id, outcome) in w.handled
    && id in w.client.promises && w.client.promises[id] == Verdict(RespondTo(id, outcome), parse)
  }

  /** A result, or an error that only a server can cause. */
  predicate Remote(p: Promise) {
    p.Fulfilled? || (p.Rejected? && p.error in {UnknownMethod, RpcServerTimeout, FailedToParse})
        || (p.Rejected? && p.error.ServerFailure?)
  }

  ghost predicate WorldInv(w: World, parse: Bytes -> Option<Bytes>) {
    && Inv(w.client)
    && w.requested <= w.client.requests.Keys
    && (forall h <- w.handled :: h.0 in w.requested)
    && (forall r <- w.responses :: exists outcome ::
        (r.requestId, outcome) in w.handled && r == RespondTo(r.requestId, outcome))
    && (forall id <- w.client.promises | Remote(w.client.promises[id]) :: exists outcome ::
        SettledBy(w, id, outcome, parse))
    && (forall id <- w.client.requests :: w.client.promises[id] != FulfilledEmpty)
  }

  lemma ServerStepKeeps(w: World, id: RequestId, outcome: Handled, parse: Bytes -> Option<Bytes>)
    requires WorldInv(w, parse) && id in w.requested
    ensures WorldInv(WorldStep(w, AtServer(id, outcome), parse), parse)
  {
    var w' := WorldStep(w, AtServer(id, outcome), parse);
    forall i <- w'.client.promises | Remote(w'.client.promises[i]) ensures exists o :: SettledBy(w', i, o, parse) {
      var o :| SettledBy(w, i, o, parse);
      assert SettledBy(w', i, o, parse);
    }
  }

  /** Only a received response makes a promise remote, and only that of its own request. */
  lemma OnlyResponsesAreRemote(c: Client, event: Event, parse: Bytes -> Option<Bytes>, id: RequestId)
    requires Inv(c) && Enabled(c, event)
    requires id in Apply(c, event, parse).promises && Remote(Apply(c, event, parse).promises[id])
    ensures id in c.promises
    ensures c.promises[id] == Apply(c, event, parse).promises[id]
         || (event.Receives? && event.response.requestId == id
             && Apply(c, event, parse).promises[id] == Verdict(event.response, parse))
  {
  }

  lemma ClientStepKeeps(w: World, event: Event, parse: Bytes -> Option<Bytes>)
    requires WorldInv(w, parse) && WorldEnabled(w, AtClient(event))
    ensures WorldInv(WorldStep(w, AtClient(event), parse), parse)
  {
    StepKeeps(w.client, event, parse);
    var w' := WorldStep(w, AtClient(event), parse);
    forall i <- w'.client.promises | Remote(w'.client.promises[i]) ensures exists o :: SettledBy(w', i, o, parse) {
      OnlyResponsesAreRemote(w.client, event, parse, i);
      var o;
      if w.client.promises[i] == w'.client.promises[i] {
        o :| SettledBy(w, i, o, parse);
      } else {
        o :| (i, o) in w.handled && event.response == RespondTo(i, o);
        assert (i, o).0 in w.requested;
      }
      assert SettledBy(w', i, o, parse);
    }
    NoEmptyResults(w.client, event, parse);
  }

  /** No event fulfils a registered request with the empty result of a notification. */
  lemma NoEmptyResults(c: Client, event: Event, parse: Bytes -> Option<Bytes>)
    requires Inv(c) && Enabled(c, event)
    requires forall id <- c.requests :: c.promises[id] != FulfilledEmpty
    ensures forall id <- Apply(c, event, parse).requests ::
              id in Apply(c, event, parse).promises && Apply(c, event, parse).promises[id] != FulfilledEmpty
  {
    StepKeeps(c, event, parse);
  }

  ghost predicate IsRun(worlds: seq<World>, events: seq<WorldEvent>, parse: Bytes -> Option<Bytes>) {
    && |worlds| == |events| + 1
    && worlds[0] == START_WORLD
    && forall i | 0 <= i < |events| && Inv(worlds[i].client) ::
         WorldEnabled(worlds[i], events[i]) && worlds[i + 1] == WorldStep(worlds[i], events[i], parse)
  }

  lemma {:induction false} ReachableValid(worlds: seq<World>, events: seq<WorldEvent>, parse: Bytes -> Option<Bytes>,
                                          i: nat)
    requires IsRun(worlds, events, parse) && i < |worlds|
    ensures WorldInv(worlds[i], parse)
  {
    if i > 0 {
      ReachableValid(worlds, events, parse, i - 1);
      match events[i - 1]
      case AtClient(event) => ClientStepKeeps(worlds[i - 1], event, parse);
      case AtServer(id, outcome) => ServerStepKeeps(worlds[i - 1], id, outcome, parse);
    }
  }

  lemma {:induction false} SettledForGood(worlds: seq<World>, events: seq<WorldEvent>, parse: Bytes -> Option<Bytes>,
                                          i: nat, j: nat, id: RequestId)
    requires IsRun(worlds, events, parse) && i <= j < |worlds|
    requires id in worlds[i].client.promises && worlds[i].client.promises[id] != Unsettled
    ensures id in worlds[j].client.promises && worlds[j].client.promises[id] == worlds[i].client.promises[id]
  {
    if i < j {
      SettledForGood(worlds, events, parse, i, j - 1, id);
      ReachableValid(worlds, events, parse, j - 1);
      if events[j - 1].AtClient? {
        StepKeeps(worlds[j - 1].client, events[j - 1].event, parse);
      }
    }
  }

  /**
    In every run: a request that resolved did so with the parsed answer that a server's handler gave
    to that very request; one that failed with a server's error did so because a handler failed on
    it, with that error; no registered request ever got the empty result; being open, in the map and
    timed coincide.
   */
  lemma RequestsAreAnswered(worlds: seq<World>, events: seq<WorldEvent>, parse: Bytes -> Option<Bytes>, i: nat,
                            id: RequestId)
    requires IsRun(worlds, events, parse) && i < |worlds| && id in worlds[i].client.requests
    ensures var c := worlds[i].client;
      && id in c.promises
      && (c.promises[id] == Unsettled <==> id in c.ongoing)
      && (c.requests[id].timerArmed <==> id in c.ongoing)
      && c.promises[id] != FulfilledEmpty
      && (Remote(c.promises[id]) ==>
            exists handled :: (id, handled) in worlds[i].handled && Learns(c.promises[id], handled, parse))
  {
    ReachableValid(worlds, events, parse, i);
    var w := worlds[i];
    if Remote(w.client.promises[id]) {
      var outcome :| SettledBy(w, id, outcome, parse);
      VerdictOfResponse(id, outcome, parse);
    }
  }

  /** Over every run, an open request that receives the response to a handled one learns of that, for good. */
  lemma ResponseSettles(worlds: seq<World>, events: seq<WorldEvent>, parse: Bytes -> Option<Bytes>, i: nat, j: nat,
                        id: RequestId, handled: Handled)
    requires IsRun(worlds, events, parse) && i < j < |worlds|
    requires events[i] == AtClient(Receives(RespondTo(id, handled)))
    requires id in worlds[i].client.requests && id in worlds[i].client.ongoing
    ensures id in worlds[j].client.promises && Learns(worlds[j].client.promises[id], handled, parse)
  {
    ReachableValid(worlds, events, parse, i);
    EventSettlesExactly(worlds[i].client, events[i].event, parse, id);
    VerdictOfResponse(id, handled, parse);
    SettledForGood(worlds, events, parse, i + 1, j, id);
  }

  /** The world after a request, its handling and its response, where nothing is lost. */
  ghost function AfterExchange(w: World, id: RequestId, target: Peer, handled: Handled, parse: Bytes -> Option<Bytes>)
    : World
    requires WorldInv(w, parse) && id !in w.client.promises && !w.client.stopped
  {
    var request, response := Calls(id, target, false, true), Receives(RespondTo(id, handled));
    ClientStepKeeps(w, request, parse);
    var w1 := WorldStep(w, AtClient(request), parse);
    ServerStepKeeps(w1, id, handled, parse);
    var w2 := WorldStep(w1, AtServer(id, handled), parse);
    WorldStep(w2, AtClient(response), parse)
  }

  /** A running client that makes a request, in any reachable world, can have it handled and learns the outcome. */
  lemma ExchangeSucceeds(w: World, id: RequestId, target: Peer, handled: Handled, parse: Bytes -> Option<Bytes>)
    requires WorldInv(w, parse) && id !in w.client.promises && !w.client.stopped
    ensures var c := AfterExchange(w, id, target, handled, parse).client;
            id in c.promises && Learns(c.promises[id], handled, parse)
  {
    var request, response := Calls(id, target, false, true), Receives(RespondTo(id, handled));
    CallsExactly(w.client, id, target, false, true, parse);
    ClientStepKeeps(w, request, parse);
    var w1 := WorldStep(w, AtClient(request), parse);
    ServerStepKeeps(w1, id, handled, parse);
    var w2 := WorldStep(w1, AtServer(id, handled), parse);
    EventSettlesExactly(w2.client, response, parse, id);
    VerdictOfResponse(id, handled, parse);
  }
}
