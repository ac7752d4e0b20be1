/** `Defer.ts`: a promise settled from outside, of which only the first settlement counts. */
module Defers {
  datatype Outcome = Open | Resolved | Rejected

  class Defer {
    var settled: bool
    /** The state of the promise itself. */
    var outcome: Outcome

    ghost predicate Valid()
      reads this
    {
      settled <==> outcome != Open
    }

    constructor ()
      ensures Valid() && outcome == Open
    {
      settled, outcome := false, Open;
    }

    method Resolve()
      requires Valid()
      modifies this
      ensures Valid()
      ensures outcome == if old(outcome) == Open then Resolved else old(outcome)
    {
      if !settled {
        settled := true;
        outcome := Resolved;
      }
    }

    method Reject()
      requires Valid()
      modifies this
      ensures Valid()
      ensures outcome == if old(outcome) == Open then Rejected else old(outcome)
    {
      if !settled {
        settled := true;
        outcome := Rejected;
      }
    }
  }
}
