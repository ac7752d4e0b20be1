/**
  `OutputBuffer.ts`, `PendingConnection.ts` and `ManagedConnection.ts`: the states of these objects
  as values, with one function per method, and the classes proved against the functions. An emitted
  event is a predicate of the state before: it says whether the connection manager's listener gets it.
 */
module ConnectionParts {
  import opened Defers
  import opened Endpoints

  /** `pushed` remembers every message ever pushed, `dropped` those that a rejection threw away. */
  datatype Buffer = Buffer(waiting: seq<Message>, promise: Outcome, pushed: seq<Message>, dropped: seq<Message>) {
    function Push(message: Message): Buffer {
      this.(waiting := waiting + [message], pushed := pushed + [message])
    }

    /** All waiting messages have been written. */
    function Resolve(): Buffer {
      this.(waiting := [], promise := if promise == Open then Resolved else promise)
    }

    function Reject(): Buffer {
      this.(waiting := [], promise := if promise == Open then Rejected else promise, dropped := dropped + waiting)
    }
  }

  const EMPTY_BUFFER := Buffer([], Open, [], [])

  datatype Pending = Pending(
    peer: NodeId,
    replacedAsDuplicate: bool,
    stopped: bool,
    connectedListener: bool,     // the manager's one-time listener for `connected`
    disconnectedListener: bool,  // and for `disconnected`
    handshaking: bool            // a handshaker still listens to the transport for this object
  ) {
    predicate Live() { !replacedAsDuplicate && !stopped }

    /** With the manager's listeners, as `onNewConnection` adds them. */
    function Heard(): Pending { this.(connectedListener := true, disconnectedListener := true) }

    predicate EmitsConnected() { !replacedAsDuplicate && connectedListener }

    /** The handshake can still be completed, and the manager will hear of it. */
    predicate CanComplete() { handshaking && EmitsConnected() }

    predicate EmitsDisconnected() { Live() && disconnectedListener }

    /** Nothing that happens to it will reach the manager. */
    predicate Mute() { !CanComplete() && !EmitsDisconnected() }

    /** Does not look at `stopped`. */
    function OnHandshakeCompleted(): Pending {
      if replacedAsDuplicate then this else this.(connectedListener := false)
    }

    /** The `disconnected` event, when emitted, also stops the handshaker. */
    function Close(): Pending {
      if stopped then this
      else if replacedAsDuplicate then this.(stopped := true)
      else this.(stopped := true, disconnectedListener := false, handshaking := false)
    }

    function Destroy(): Pending {
      if stopped then this else this.(stopped := true, connectedListener := false, disconnectedListener := false)
    }
  }

  /** `opening` names the buffer written when the connection was established, `direct` what was sent later. */
  datatype Managed = Managed(
    peer: NodeId,
    replacedAsDuplicate: bool,
    listening: bool,             // the manager's one-time listener for `disconnected`
    sent: seq<Message>,          // what was written to the transport
    opening: ConnectionId,
    direct: seq<Message>
  ) {
    predicate EmitsDisconnected() { !replacedAsDuplicate && listening }

    function Send(message: Message): Managed { this.(sent := sent + [message]) }
  }

  class OutputBuffer {
    var buffer: seq<Message>
    const deferredPromise: Defer
    ghost var pushed: seq<Message>
    ghost var dropped: seq<Message>

    ghost function Value(): Buffer
      reads this, deferredPromise
    {
      Buffer(buffer, deferredPromise.outcome, pushed, dropped)
    }

    constructor ()
      ensures fresh(deferredPromise) && deferredPromise.Valid() && Value() == EMPTY_BUFFER
    {
      buffer, pushed, dropped := [], [], [];
      deferredPromise := new Defer();
    }

    method Push(message: Message) returns (promise: Defer)
      modifies this
      ensures Value() == old(Value()).Push(message) && promise == deferredPromise
    {
      buffer := buffer + [message];
      pushed := pushed + [message];
      promise := deferredPromise;
    }

    method Resolve()
      requires deferredPromise.Valid()
      modifies this, deferredPromise
      ensures deferredPromise.Valid() && Value() == old(Value()).Resolve()
    {
      buffer := [];
      deferredPromise.Resolve();
    }

    method Reject()
      requires deferredPromise.Valid()
      modifies this, deferredPromise
      ensures deferredPromise.Valid() && Value() == old(Value()).Reject()
    {
      dropped := dropped + buffer;
      buffer := [];
      deferredPromise.Reject();
    }
  }

  class PendingConnection {
    const remotePeer: NodeId
    var replacedAsDuplicate: bool
    var stopped: bool
    var connectedListener: bool
    var disconnectedListener: bool
    var handshaking: bool

    function Value(): Pending
      reads this
    {
      Pending(remotePeer, replacedAsDuplicate, stopped, connectedListener, disconnectedListener, handshaking)
    }

    constructor (remotePeer: NodeId)
      ensures Value() == Pending(remotePeer, false, false, false, false, true)
    {
      this.remotePeer := remotePeer;
      replacedAsDuplicate, stopped, connectedListener, disconnectedListener, handshaking := false, false, false, false,
          true;
    }

    method ReplaceAsDuplicate()
      modifies this
      ensures Value() == old(Value()).(replacedAsDuplicate := true)
    {
      replacedAsDuplicate := true;
    }

    method OnHandshakeCompleted() returns (emitted: bool)
      modifies this
      ensures Value() == old(Value()).OnHandshakeCompleted() && emitted == old(Value()).EmitsConnected()
    {
      emitted := false;
      if !replacedAsDuplicate {
        emitted := connectedListener;
        connectedListener := false;
      }
    }

    method Close() returns (emitted: bool)
      modifies this
      ensures Value() == old(Value()).Close() && emitted == old(Value()).EmitsDisconnected()
    {
      if stopped {
        return false;
      }
      stopped := true;
      emitted := false;
      if !replacedAsDuplicate {
        handshaking := false;
        emitted := disconnectedListener;
        disconnectedListener := false;
      }
    }

    method Destroy()
      modifies this
      ensures Value() == old(Value()).Destroy()
    {
      if stopped {
        return;
      }
      stopped := true;
      connectedListener, disconnectedListener := false, false;
    }
  }

  class ManagedConnection {
    const remotePeer: NodeId
    const opening: ConnectionId
    var replacedAsDuplicate: bool
    var listening: bool
    var sent: seq<Message>
    ghost var direct: seq<Message>

    ghost function Value(): Managed
      reads this
    {
      Managed(remotePeer, replacedAsDuplicate, listening, sent, opening, direct)
    }

    constructor (remotePeer: NodeId, opening: ConnectionId)
      ensures Value() == Managed(remotePeer, false, true, [], opening, [])
    {
      this.remotePeer, this.opening := remotePeer, opening;
      replacedAsDuplicate, listening, sent, direct := false, true, [], [];
    }

    method ReplaceAsDuplicate()
      modifies this
      ensures Value() == old(Value()).(replacedAsDuplicate := true)
    {
      replacedAsDuplicate := true;
    }

    method Send(message: Message)
      modifies this
      ensures Value() == old(Value()).Send(message)
    {
      sent := sent + [message];
    }

    method OnDisconnected() returns (emitted: bool)
      modifies this
      ensures Value() == old(Value()).(listening := false) && emitted == old(Value()).EmitsDisconnected()
    {
      emitted := !replacedAsDuplicate && listening;
      listening := false;
    }
  }
}
