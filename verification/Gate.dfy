/** `Gate.ts`: while it is closed, everyone who waits holds the same pending promise. */
module Gates {
  import opened Defers

  class Gate {
    var pending: Defer?

    ghost predicate Valid()
      reads this, pending
    {
      pending != null ==> pending.Valid() && pending.outcome == Outcome.Open
    }

    constructor (isOpen: bool)
      ensures Valid() && (pending == null <==> isOpen)
      ensures pending != null ==> fresh(pending)
    {
      pending := null;
      new;
      if !isOpen {
        Close();
      }
    }

    /** Opening releases all who waited, once. */
    method Open()
      requires Valid()
      modifies this, pending
      ensures Valid() && pending == null
      ensures old(pending) != null ==> old(pending).Valid() && old(pending).outcome == Resolved
    {
      var waiting := pending;
      if waiting == null {
        return;
      }
      pending := null;
      waiting.Resolve();
    }

    /** Closing a closed gate keeps the promise that others wait for. */
    method Close()
      requires Valid()
      modifies this
      ensures Valid() && pending != null
      ensures if old(pending) == null then fresh(pending) else pending == old(pending)
    {
      if pending == null {
        pending := new Defer();
      }
    }

    predicate IsOpen()
      reads this
    {
      pending == null
    }

    /** What a caller waits for; nothing if the gate is open. */
    method WaitUntilOpen() returns (promise: Defer?)
      requires Valid()
      ensures promise == pending && (promise != null <==> !IsOpen())
    {
      promise := pending;
    }
  }
}
