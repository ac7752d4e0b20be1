/**
  `TheGraphClient.ts`: queries wait at gates until polling has seen the block they need, and lists
  of entities are read page by page.
 */
module TheGraphClients {
  import opened Arithmetic
  import opened Wrappers

  type QueryId = nat

  datatype Phase = Waiting | Passed | TimedOut | Sent

  /** A query, the block it needs, and whether its own gate is open. */
  datatype Query = Query(target: int, phase: Phase, gateOpen: bool)

  /** `polling` loops wait for a block number, `sleeping` loops for their next round. */
  datatype State = State(
    required: int,
    blockNumber: int,
    queries: map<QueryId, Query>,
    gates: set<QueryId>,
    polling: nat,
    sleeping: nat
  )

  const INITIAL := State(0, 0, map[], {}, 0, 0)

  // ------------------------------------------------------------------ steps

  /** `queryEntity` up to its first wait. A gate added to an empty set starts a polling loop. */
  function AfterBegin(s: State, q: QueryId): State {
    if s.required <= s.blockNumber then s.(queries := s.queries[q := Query(s.required, Passed, true)])
    else
      s.(queries := s.queries[q := Query(s.required, Waiting, false)], gates := s.gates + {q},
         polling := s.polling + if s.gates == {} then 1 else 0)
  }

  function Opened(s: State, b: int): set<QueryId> {
    set q | q in s.gates && q in s.queries && s.queries[q].target <= b
  }

  /** The gates in `reached` are reached, which lets their queries pass. */
  function Release(queries: map<QueryId, Query>, reached: set<QueryId>): map<QueryId, Query> {
    map q | q in queries :: if q in reached then Query(queries[q].target, Passed, true) else queries[q]
  }

  /** A polled number is used unless it is missing or the one already known. */
  function WithBlockNumber(s: State, result: Option<int>): State {
    if result == None || result.value == s.blockNumber then s
    else
      var reached := Opened(s, result.value);
      s.(blockNumber := result.value, queries := Release(s.queries, reached), gates := s.gates - reached)
  }

  function AfterPolled(s: State, result: Option<int>): State
    requires s.polling > 0
  {
    var t := WithBlockNumber(s, result);
    t.(polling := t.polling - 1, sleeping := t.sleeping + if t.gates != {} then 1 else 0)
  }

  function AfterWoke(s: State): State
    requires s.sleeping > 0
  {
    s.(sleeping := s.sleeping - 1, polling := s.polling + if s.gates != {} then 1 else 0)
  }

  function WithPhase(s: State, q: QueryId, phase: Phase): State
    requires q in s.queries
  {
    s.(queries := s.queries[q := s.queries[q].(phase := phase)])
  }

  datatype Event =
    | Update(blockNumber: int)
    | Begin(q: QueryId)
    | Polled(result: Option<int>)
    | Woke
    | Expire(q: QueryId)
    | Send(q: QueryId)

  predicate Enabled(s: State, e: Event) {
    match e
    case Update(_) => true
    case Begin(q) => q !in s.queries
    case Polled(_) => s.polling > 0
    case Woke => s.sleeping > 0
    case Expire(q) => q in s.queries && s.queries[q].phase == Waiting
    case Send(q) => q in s.queries && s.queries[q].phase == Passed
  }

  function Apply(s: State, e: Event): State
    requires Enabled(s, e)
  {
    match e
    case Update(b) => s.(required := Max(b, s.required))
    case Begin(q) => AfterBegin(s, q)
    case Polled(result) => AfterPolled(s, result)
    case Woke => AfterWoke(s)
    case Expire(q) => WithPhase(s, q, TimedOut).(gates := s.gates - {q})
    case Send(q) => WithPhase(s, q, Sent)
  }

  // ------------------------------------------------------------------ the invariant

  /** Every gate in the set is closed, belongs to a waiting query and aims above the last seen block. */
  ghost predicate GatesValid(s: State) {
    forall q <- s.gates ::
      q in s.queries && s.queries[q].phase == Waiting && !s.queries[q].gateOpen && s.queries[q].target > s.blockNumber
  }

  ghost predicate Inv(s: State) {
    && GatesValid(s)
    && (forall q <- s.queries :: s.queries[q].phase == Waiting ==> q in s.gates)
    && (s.gates != {} ==> s.polling + s.sleeping > 0)
  }

  lemma StepKeeps(s: State, e: Event)
    requires Inv(s) && Enabled(s, e)
    ensures Inv(Apply(s, e))
  {
  }

  /**
    A poll lets pass exactly the waiting queries whose block it has reached, although a number
    that was already known is not compared with any gate.
   */
  lemma PollReleasesExactly(s: State, b: int, q: QueryId)
    requires Inv(s) && s.polling > 0 && q in s.queries && s.queries[q].phase == Waiting
    ensures var t := AfterPolled(s, Some(b));
            && q in t.queries && t.queries[q].target == s.queries[q].target
            && (s.queries[q].target <= b <==> t.queries[q].phase == Passed)
            && (s.queries[q].target <= b <==> t.queries[q].gateOpen && q !in t.gates)
  {
  }

  // ------------------------------------------------------------------ runs

  ghost predicate IsRun(states: seq<State>, events: seq<Event>) {
    && |states| == |events| + 1
    && states[0] == INITIAL
    && forall i | 0 <= i < |events| :: Enabled(states[i], events[i]) && states[i + 1] == Apply(states[i], events[i])
  }

  /** In every reachable state the gates are valid, and a polling loop is alive while there are any. */
  lemma {:induction false} ReachableValid(states: seq<State>, events: seq<Event>, i: nat)
    requires IsRun(states, events) && i < |states|
    ensures Inv(states[i])
    ensures states[i].gates != {} ==> states[i].polling + states[i].sleeping > 0
  {
    if i > 0 {
      ReachableValid(states, events, i - 1);
      StepKeeps(states[i - 1], events[i - 1]);
    }
  }

  predicate Reports(e: Event, b: int) { e.Polled? && e.result.Some? && e.result.value >= b }

  /** Before step `i` a poll reported block `b` or a later one, if `b` is a block at all. */
  ghost predicate Seen(events: seq<Event>, i: nat, b: int)
    requires i <= |events|
  {
    b <= 0 || exists k :: 0 <= k < i && Reports(events[k], b)
  }

  lemma {:induction false} BlockNumberSeen(states: seq<State>, events: seq<Event>, i: nat)
    requires IsRun(states, events) && i < |states|
    ensures Seen(events, i, states[i].blockNumber)
  {
    if i > 0 {
      BlockNumberSeen(states, events, i - 1);
      var e := events[i - 1];
      if e.Polled? && e.result.Some? {
        assert Reports(e, e.result.value);
      }
    }
  }

  /** A query passes only when the block it needs has been seen. */
  lemma {:induction false} PassedSeen(states: seq<State>, events: seq<Event>, i: nat, q: QueryId)
    requires IsRun(states, events) && i < |states| && q in states[i].queries
    ensures states[i].queries[q].phase == Passed || states[i].queries[q].phase == Sent
        ==> Seen(events, i, states[i].queries[q].target)
  {
    if i > 0 {
      var s, e := states[i - 1], events[i - 1];
      if q in s.queries {
        PassedSeen(states, events, i - 1, q);
        if e.Polled? && e.result.Some? {
          assert Reports(e, e.result.value);
        }
      } else {
        BlockNumberSeen(states, events, i - 1);
      }
    }
  }

  lemma {:induction false} RequiredGrows(states: seq<State>, events: seq<Event>, i: nat, j: nat)
    requires IsRun(states, events) && i <= j < |states|
    ensures states[i].required <= states[j].required
  {
    if i < j {
      RequiredGrows(states, events, i, j - 1);
    }
  }

  lemma {:induction false} TargetStays(states: seq<State>, events: seq<Event>, i: nat, j: nat, q: QueryId)
    requires IsRun(states, events) && i <= j < |states| && q in states[i].queries
    ensures q in states[j].queries && states[j].queries[q].target == states[i].queries[q].target
  {
    if i < j {
      TargetStays(states, events, i, j - 1, q);
    }
  }

  /**
    A query is sent only after some poll reported a block at least as large as any number that
    `updateRequiredBlockNumber` was given before the query began.
   */
  lemma SentOnlyWhenIndexed(states: seq<State>, events: seq<Event>, update: nat, begin: nat, send: nat)
    requires IsRun(states, events) && update < begin < send < |events|
    requires events[update].Update? && events[begin].Begin? && events[send] == Send(events[begin].q)
    ensures Seen(events, send, events[update].blockNumber)
  {
    var q := events[begin].q;
    RequiredGrows(states, events, update + 1, begin);
    assert states[begin + 1] == AfterBegin(states[begin], q);
    TargetStays(states, events, begin + 1, send, q);
    PassedSeen(states, events, send, q);
    assert states[send].queries[q].target >= events[update].blockNumber;
  }

  // ------------------------------------------------------------------ what a query waits for, and how long

  /** The largest number given by `updateRequiredBlockNumber` before step `i`, if it is more than 0. */
  ghost function LargestUpdate(events: seq<Event>, i: nat): int
    requires i <= |events|
  {
    if i == 0 then 0
    else
      var before := LargestUpdate(events, i - 1);
      if events[i - 1].Update? && events[i - 1].blockNumber > before then events[i - 1].blockNumber else before
  }

  /** The block number that a poll reported last before step `i`. */
  ghost function LastReported(events: seq<Event>, i: nat): int
    requires i <= |events|
  {
    if i == 0 then 0
    else if events[i - 1].Polled? && events[i - 1].result.Some? then events[i - 1].result.value
    else LastReported(events, i - 1)
  }

  lemma {:induction false} LargestIsLargest(events: seq<Event>, i: nat)
    requires i <= |events|
    ensures forall k | 0 <= k < i && events[k].Update? :: events[k].blockNumber <= LargestUpdate(events, i)
    ensures LargestUpdate(events, i) == 0
         || exists k :: 0 <= k < i && events[k] == Update(LargestUpdate(events, i))
    ensures LargestUpdate(events, i) >= 0
  {
    if i > 0 {
      LargestIsLargest(events, i - 1);
    }
  }

  lemma {:induction false} NumbersAreExact(states: seq<State>, events: seq<Event>, i: nat)
    requires IsRun(states, events) && i < |states|
    ensures states[i].required == LargestUpdate(events, i) && states[i].blockNumber == LastReported(events, i)
  {
    if i > 0 {
      NumbersAreExact(states, events, i - 1);
    }
  }

  /** Over every run, the block a query needs is the largest of 0 and all numbers given before it began. */
  lemma TargetIsLargest(states: seq<State>, events: seq<Event>, begin: nat, i: nat)
    requires IsRun(states, events) && begin < i < |states| && events[begin].Begin?
    ensures events[begin].q in states[i].queries
    ensures states[i].queries[events[begin].q].target == LargestUpdate(events, begin)
  {
    NumbersAreExact(states, events, begin);
    assert states[begin + 1] == AfterBegin(states[begin], events[begin].q);
    TargetStays(states, events, begin + 1, i, events[begin].q);
  }

  ghost predicate Occurs(events: seq<Event>, e: Event, from: nat, i: nat)
    requires i <= |events|
  {
    exists m :: from < m < i && events[m] == e
  }

  /** The block had not been seen when the query began, and since then no poll reported it or a later one. */
  ghost predicate NotReported(events: seq<Event>, begin: nat, i: nat, target: int)
    requires begin <= i <= |events|
  {
    LastReported(events, begin) < target && forall m | begin < m < i :: !Reports(events[m], target)
  }

  /** Where a query is, in terms of the events alone. */
  ghost predicate PhaseIs(events: seq<Event>, begin: nat, i: nat, q: QueryId, target: int, phase: Phase)
    requires begin < i <= |events|
  {
    && (phase == TimedOut <==> Occurs(events, Expire(q), begin, i))
    && (phase == Sent <==> Occurs(events, Send(q), begin, i))
    && (phase == Waiting <==> NotReported(events, begin, i, target) && !Occurs(events, Expire(q), begin, i))
  }

  lemma OccursNext(events: seq<Event>, e: Event, from: nat, i: nat)
    requires from < i < |events|
    ensures Occurs(events, e, from, i + 1) <==> Occurs(events, e, from, i) || events[i] == e
  {
  }

  lemma NotReportedNext(events: seq<Event>, begin: nat, i: nat, target: int)
    requires begin < i < |events|
    ensures NotReported(events, begin, i + 1, target)
       <==> NotReported(events, begin, i, target) && !Reports(events[i], target)
  {
  }

  /** The phase of a query after one more event. */
  lemma PhaseNext(s: State, e: Event, q: QueryId)
    requires Inv(s) && Enabled(s, e) && q in s.queries
    ensures q in Apply(s, e).queries
    ensures Apply(s, e).queries[q].phase
         == if e == Expire(q) then TimedOut
            else if e == Send(q) then Sent
            else if s.queries[q].phase == Waiting && Reports(e, s.queries[q].target) then Passed
            else s.queries[q].phase
  {
    if e.Polled? && e.result.Some? && s.queries[q].phase == Waiting {
      PollReleasesExactly(s, e.result.value, q);
    }
  }

  /**
    Over every run: a query passes at once if the last block number reported before it began is large
    enough, and else at the first later poll that reports a large enough one; unless it times out before.
    Only one that has passed is sent.
   */
  lemma {:induction false} WaitsExactly(states: seq<State>, events: seq<Event>, begin: nat, i: nat)
    requires IsRun(states, events) && begin < i < |states| && events[begin].Begin?
    ensures var q, target := events[begin].q, LargestUpdate(events, begin);
            q in states[i].queries && PhaseIs(events, begin, i, q, target, states[i].queries[q].phase)
  {
    var q, target := events[begin].q, LargestUpdate(events, begin);
    NumbersAreExact(states, events, begin);
    if i > begin + 1 {
      WaitsExactly(states, events, begin, i - 1);
      TargetIsLargest(states, events, begin, i - 1);
      ReachableValid(states, events, i - 1);
      PhaseNext(states[i - 1], events[i - 1], q);
      OccursNext(events, Expire(q), begin, i - 1);
      OccursNext(events, Send(q), begin, i - 1);
      NotReportedNext(events, begin, i - 1, target);
    }
  }

  /** The state when some loop next asks for the block number, if nothing else happens before. */
  function NextPoll(s: State): State {
    if s.polling == 0 && s.sleeping > 0 then AfterWoke(s) else s
  }

  /** While a query waits some loop will poll, and if the poll reports its block the query passes. */
  lemma NoStall(states: seq<State>, events: seq<Event>, i: nat, q: QueryId)
    requires IsRun(states, events) && i < |states| && q in states[i].queries && states[i].queries[q].phase == Waiting
    ensures var s := NextPoll(states[i]);
            && s.polling > 0
            && forall b | b >= states[i].queries[q].target ::
                q in AfterPolled(s, Some(b)).queries && AfterPolled(s, Some(b)).queries[q].phase == Passed
  {
    ReachableValid(states, events, i);
    var s := NextPoll(states[i]);
    forall b | b >= states[i].queries[q].target
      ensures q in AfterPolled(s, Some(b)).queries && AfterPolled(s, Some(b)).queries[q].phase == Passed
    {
      PollReleasesExactly(s, b, q);
    }
  }

  /** With no gates left, every loop ends at its next step. */
  lemma LoopsEnd(s: State, e: Event)
    requires s.gates == {} && Enabled(s, e) && (e.Polled? || e.Woke?)
    ensures Apply(s, e).polling + Apply(s, e).sleeping == s.polling + s.sleeping - 1
  {
    assert Opened(s, 0) == {};
  }

  function Loops(s: State): nat { s.polling + s.sleeping }

  /** A query that has to wait finds no gates, and so starts a loop. */
  predicate StartsLoop(s: State, e: Event) { e.Begin? && s.required > s.blockNumber && s.gates == {} }

  lemma LoopsStep(s: State, e: Event)
    requires Enabled(s, e)
    ensures if StartsLoop(s, e) then Loops(Apply(s, e)) == Loops(s) + 1 else Loops(Apply(s, e)) <= Loops(s)
  {
  }

  /** No loop polls or wakes strictly between the two steps. */
  predicate NoLoopSteps(events: seq<Event>, j: nat, k: nat)
    requires k <= |events|
  {
    forall i | j < i < k :: !events[i].Polled? && !events[i].Woke?
  }

  /** The timeout at step `j` takes the last gate, and no loop has noticed that before step `k`. */
  ghost predicate LeavesLoop(states: seq<State>, events: seq<Event>, j: nat, k: nat)
    requires j < k <= |events| < |states|
  {
    events[j].Expire? && states[j + 1].gates == {} && NoLoopSteps(events, j, k)
  }

  /**
    At step `k` a query has to wait and finds no gates, after a timeout that took the last gate, and
    before the loop that is left over has polled or woken.
   */
  ghost predicate StartsSecond(states: seq<State>, events: seq<Event>, k: nat)
    requires k < |events| < |states|
  {
    StartsLoop(states[k], events[k]) && exists j: nat :: j < k && LeavesLoop(states, events, j, k)
  }

  ghost predicate OneLoopUpTo(states: seq<State>, k: nat)
    requires k < |states|
  {
    Loops(states[k]) <= 1 && (k > 0 ==> OneLoopUpTo(states, k - 1))
  }

  /** A loop without gates, as long as there was never more than one, was left over by a timeout. */
  lemma {:induction false} LeftOver(states: seq<State>, events: seq<Event>, k: nat) returns (j: nat)
    requires IsRun(states, events) && k <= |events| && OneLoopUpTo(states, k)
    requires states[k].gates == {} && Loops(states[k]) > 0
    ensures j < k && LeavesLoop(states, events, j, k)
  {
    assert k > 0;
    if events[k - 1].Expire? {
      j := k - 1;
    } else {
      ReachableValid(states, events, k - 1);
      j := LeftOver(states, events, k - 1);
    }
  }

  lemma {:induction false} LoopsRemain(states: seq<State>, events: seq<Event>, j: nat, k: nat)
    requires IsRun(states, events) && j < k <= |events| && NoLoopSteps(events, j, k)
    ensures Loops(states[k]) >= Loops(states[j + 1])
  {
    if j + 1 < k {
      LoopsRemain(states, events, j, k - 1);
    }
  }

  ghost predicate NoSecondStart(states: seq<State>, events: seq<Event>)
    requires |events| < |states|
  {
    forall k | 0 <= k < |events| :: !StartsSecond(states, events, k)
  }

  lemma NextHasOneLoop(states: seq<State>, events: seq<Event>, k: nat)
    requires IsRun(states, events) && k < |events| && OneLoopUpTo(states, k) && !StartsSecond(states, events, k)
    ensures Loops(states[k + 1]) <= 1
  {
    LoopsStep(states[k], events[k]);
    if StartsLoop(states[k], events[k]) && Loops(states[k]) > 0 {
      var _ := LeftOver(states, events, k);
    }
  }

  lemma {:induction false} OneLoop(states: seq<State>, events: seq<Event>, i: nat)
    requires IsRun(states, events) && i < |states| && forall k | 0 <= k < i :: !StartsSecond(states, events, k)
    ensures OneLoopUpTo(states, i)
  {
    if i > 0 {
      OneLoop(states, events, i - 1);
      assert !StartsSecond(states, events, i - 1);
      NextHasOneLoop(states, events, i - 1);
    }
  }

  lemma SecondLoop(states: seq<State>, events: seq<Event>, k: nat)
    requires IsRun(states, events) && k < |events| && StartsSecond(states, events, k)
    ensures Loops(states[k + 1]) > 1
  {
    var j: nat :| j < k && LeavesLoop(states, events, j, k);
    ReachableValid(states, events, j);
    LoopsRemain(states, events, j, k);
    LoopsStep(states[k], events[k]);
  }

  ghost predicate NeverTwoLoops(states: seq<State>) {
    forall s <- states :: Loops(s) <= 1
  }

  lemma NoSecondStartSuffices(states: seq<State>, events: seq<Event>)
    requires IsRun(states, events) && NoSecondStart(states, events)
    ensures NeverTwoLoops(states)
  {
    forall s <- states ensures Loops(s) <= 1 {
      var i :| 0 <= i < |states| && states[i] == s;
      OneLoop(states, events, i);
    }
  }

  lemma NoSecondStartIsNeeded(states: seq<State>, events: seq<Event>, k: nat)
    requires IsRun(states, events) && k < |events| && NeverTwoLoops(states)
    ensures !StartsSecond(states, events, k)
  {
    assert states[k + 1] in states;
    if StartsSecond(states, events, k) {
      SecondLoop(states, events, k);
    }
  }

  /**
    Over every run there is never more than one loop, if and only if no query has to wait, with no other
    waiting, between a timeout that took the last gate and the next step of the loop left over.
   */
  lemma OneLoopExactly(states: seq<State>, events: seq<Event>)
    requires IsRun(states, events)
    ensures NeverTwoLoops(states) <==> NoSecondStart(states, events)
  {
    if NoSecondStart(states, events) {
      NoSecondStartSuffices(states, events);
    }
    if NeverTwoLoops(states) {
      forall k | 0 <= k < |events| ensures !StartsSecond(states, events, k) {
        NoSecondStartIsNeeded(states, events, k);
      }
    }
  }

  /** Without timeouts a loop never outlives the gates, so there is never more than one. */
  lemma {:induction false} OneLoopWithoutTimeouts(states: seq<State>, events: seq<Event>, i: nat)
    requires IsRun(states, events) && i < |states| && forall k | 0 <= k < i :: !events[k].Expire?
    ensures Loops(states[i]) <= 1 && (states[i].gates == {} ==> Loops(states[i]) == 0)
  {
    if i > 0 {
      OneLoopWithoutTimeouts(states, events, i - 1);
    }
  }

  /** The seen block falls exactly when a poll reports a smaller one. */
  lemma BlockNumberFallsExactly(s: State, e: Event)
    requires Enabled(s, e)
    ensures Apply(s, e).blockNumber < s.blockNumber <==> e.Polled? && e.result.Some? && e.result.value < s.blockNumber
  {
  }

  /** A timeout can leave a loop behind that a new query does not know of, so that two loops poll at once. */
  lemma TwoLoops()
    ensures exists states: seq<State>, events: seq<Event> :: IsRun(states, events) && states[|events|].polling == 2
  {
    var events := [Update(5), Begin(1), Expire(1), Begin(2)];
    var s1 := Apply(INITIAL, events[0]);
    var s2 := Apply(s1, events[1]);
    var s3 := Apply(s2, events[2]);
    var s4 := Apply(s3, events[3]);
    assert s2.gates == {1} && s3.gates == {};
    assert IsRun([INITIAL, s1, s2, s3, s4], events);
  }

  // ------------------------------------------------------------------ the class

  class IndexingState {
    var required: int
    var blockNumber: int
    var queries: map<QueryId, Query>
    var gates: set<QueryId>
    var polling: nat
    var sleeping: nat

    function Value(): State
      reads this
    {
      State(required, blockNumber, queries, gates, polling, sleeping)
    }

    constructor ()
      ensures Value() == INITIAL
    {
      required, blockNumber, queries, gates, polling, sleeping := 0, 0, map[], {}, 0, 0;
    }

    method UpdateRequiredBlockNumber(b: int)
      modifies this
      ensures Value() == Apply(old(Value()), Update(b))
    {
      required := Max(b, required);
    }

    method WaitUntilIndexed(q: QueryId)
      requires q !in queries
      modifies this
      ensures Value() == Apply(old(Value()), Begin(q))
    {
      if required <= blockNumber {
        queries := queries[q := Query(required, Passed, true)];
        return;
      }
      var isPolling := gates != {};
      queries := queries[q := Query(required, Waiting, false)];
      gates := gates + {q};
      if !isPolling {
        LoopHead();
      }
    }

    /** The head of a polling loop. */
    method LoopHead()
      modifies this
      ensures Value() == old(Value()).(polling := old(polling) + if gates != {} then 1 else 0)
    {
      if gates != {} {
        polling := polling + 1;
      }
    }

    method OnTimeout(q: QueryId)
      requires q in queries && queries[q].phase == Waiting
      modifies this
      ensures Value() == Apply(old(Value()), Expire(q))
    {
      gates := gates - {q};
      queries := queries[q := queries[q].(phase := TimedOut)];
    }

    method OpenReachedGates()
      requires forall q <- gates :: q in queries
      modifies this
      ensures var reached := Opened(old(Value()), blockNumber);
              Value() == old(Value()).(queries := Release(old(queries), reached), gates := old(gates) - reached)
    {
      var todo := gates;
      ghost var all := Opened(Value(), blockNumber);
      while todo != {}
        invariant todo <= gates <= old(gates) && queries.Keys == old(queries).Keys
        invariant unchanged(`required, `blockNumber, `polling, `sleeping)
        invariant forall q <- old(gates) :: q in gates <==> q in todo || q !in all
        invariant forall q <- queries :: queries[q] == if q in all && q !in todo
            then Query(old(queries)[q].target, Passed, true) else old(queries)[q]
        decreases |todo|
      {
        var q :| q in todo;
        if queries[q].target <= blockNumber {
          queries := queries[q := Query(queries[q].target, Passed, true)];
          gates := gates - {q};
        }
        todo := todo - {q};
      }
      assert gates == old(gates) - all;
      assert queries == Release(old(queries), all);
    }

    method OnPolled(result: Option<int>)
      requires polling > 0 && forall q <- gates :: q in queries
      modifies this
      ensures Value() == Apply(old(Value()), Polled(result))
    {
      if result.Some? && result.value != blockNumber {
        blockNumber := result.value;
        OpenReachedGates();
      }
      polling := polling - 1;
      if gates != {} {
        sleeping := sleeping + 1;
      }
    }

    method OnWoke()
      requires sleeping > 0
      modifies this
      ensures Value() == Apply(old(Value()), Woke)
    {
      sleeping := sleeping - 1;
      LoopHead();
    }

    method SendQuery(q: QueryId)
      requires q in queries && queries[q].phase == Passed
      modifies this
      ensures Value() == Apply(old(Value()), Send(q))
    {
      queries := queries[q := queries[q].(phase := Sent)];
    }
  }

  // ------------------------------------------------------------------ reading a list page by page

  datatype Row = Row(id: string, content: string)

  /** Ids are ordered character by character. */
  predicate Before(a: string, b: string) {
    if b == "" then false
    else if a == "" then true
    else a[0] < b[0] || (a[0] == b[0] && Before(a[1..], b[1..]))
  }

  ghost predicate TableValid(table: seq<Row>) {
    && (forall i | 0 <= i < |table| :: table[i].id != "")
    && forall i, j | 0 <= i < j < |table| :: Before(table[i].id, table[j].id)
  }

  /** The rows whose id comes after `lastId`, in the order of the table. */
  function After(table: seq<Row>, lastId: string): seq<Row> {
    if table == [] then []
    else (if Before(lastId, table[0].id) then [table[0]] else []) + After(table[1..], lastId)
  }

  /** What the server answers to the query for one page. */
  function Page(table: seq<Row>, lastId: string, pageSize: nat): seq<Row> {
    var rows := After(table, lastId);
    if |rows| <= pageSize then rows else rows[..pageSize]
  }

  lemma {:induction false} BeforeIsStrict(a: string, b: string)
    requires Before(a, b)
    ensures !Before(b, a)
  {
    if a != "" && a[0] == b[0] {
      BeforeIsStrict(a[1..], b[1..]);
    }
  }

  lemma {:induction false} AfterAll(table: seq<Row>, lastId: string)
    requires forall i | 0 <= i < |table| :: Before(lastId, table[i].id)
    ensures After(table, lastId) == table
  {
    if table != [] {
      AfterAll(table[1..], lastId);
    }
  }

  lemma {:induction false} AfterSkips(table: seq<Row>, lastId: string, k: nat)
    requires k <= |table| && forall i | 0 <= i < k :: !Before(lastId, table[i].id)
    ensures After(table, lastId) == After(table[k..], lastId)
  {
    if k > 0 {
      AfterSkips(table[1..], lastId, k - 1);
      assert table[1..][k - 1..] == table[k..];
    } else {
      assert table[0..] == table;
    }
  }

  /** None of the first `k` rows comes after the last of them, and all others do. */
  lemma LastIdSplits(table: seq<Row>, k: nat, lastId: string)
    requires TableValid(table) && k <= |table| && lastId == if k == 0 then "" else table[k - 1].id
    ensures After(table, lastId) == table[k..]
  {
    forall i | 0 <= i < k ensures !Before(lastId, table[i].id) {
      if i < k - 1 {
        BeforeIsStrict(table[i].id, lastId);
      } else if Before(lastId, lastId) {
        BeforeIsStrict(lastId, lastId);
      }
    }
    AfterSkips(table, lastId, k);
    AfterAll(table[k..], lastId);
  }

  lemma CutTwice(table: seq<Row>, k: nat, n: nat)
    requires k + n <= |table|
    ensures table[k..][..n] == table[k..k + n]
  {
  }

  /** After the first `k` rows the server gives the next ones. */
  lemma PageContinues(table: seq<Row>, k: nat, pageSize: nat)
    requires TableValid(table) && k <= |table|
    ensures var lastId := if k == 0 then "" else table[k - 1].id;
            Page(table, lastId, pageSize) == if |table| - k <= pageSize then table[k..] else table[k..k + pageSize]
  {
    LastIdSplits(table, k, if k == 0 then "" else table[k - 1].id);
    if pageSize < |table| - k {
      CutTwice(table, k, pageSize);
    }
  }

  /**
    Between two rounds: the items are the rows so far, the last page is their end, and if it is not
    full the table is read.
   */
  ghost predicate Paging(table: seq<Row>, pageSize: nat, items: seq<Row>, last: Option<seq<Row>>) {
    && items <= table
    && match last
       case None => items == []
       case Some(page) =>
         && |page| <= pageSize && |page| <= |items|
         && (page != [] ==> page[|page| - 1] == items[|items| - 1])
         && (|page| < pageSize ==> items == table)
  }

  lemma PageExtends(table: seq<Row>, pageSize: nat, items: seq<Row>, page: seq<Row>, end: nat)
    requires items <= table && end == |items| + Min(pageSize, |table| - |items|) && page == table[|items|..end]
    ensures Paging(table, pageSize, items + page, Some(page))
  {
    assert items + page == table[..end];
  }

  lemma LastId(table: seq<Row>, pageSize: nat, items: seq<Row>, page: seq<Row>)
    requires Paging(table, pageSize, items, Some(page)) && page != []
    ensures |items| > 0 && page[|page| - 1].id == table[|items| - 1].id
  {
  }

  /** One round of the loop keeps that. */
  lemma RoundKeeps(table: seq<Row>, pageSize: nat, items: seq<Row>, last: Option<seq<Row>>, lastId: string)
    requires TableValid(table) && pageSize > 0 && Paging(table, pageSize, items, last)
    requires last.Some? ==> |last.value| == pageSize
    requires lastId == if last.Some? then last.value[|last.value| - 1].id else ""
    ensures var page := Page(table, lastId, pageSize);
            Paging(table, pageSize, items + page, Some(page))
  {
    if last.Some? {
      LastId(table, pageSize, items, last.value);
    }
    assert lastId == if |items| == 0 then "" else table[|items| - 1].id;
    PageContinues(table, |items|, pageSize);
    var end := |items| + Min(pageSize, |table| - |items|);
    assert Page(table, lastId, pageSize) == table[|items|..end];
    PageExtends(table, pageSize, items, Page(table, lastId, pageSize), end);
  }

  /**
    `queryEntities` against a table that stays as it is: every row once and in order, with one
    query more than there are full pages. A page size of zero makes it fail after an empty page.
   */
  method QueryEntities(table: seq<Row>, pageSize: nat) returns (items: seq<Row>, queries: nat, failed: bool)
    requires TableValid(table)
    ensures failed <==> pageSize == 0
    ensures pageSize > 0 ==> items == table && queries == |table| / pageSize + 1
    ensures pageSize == 0 ==> items == [] && queries == 1
  {
    var lastResultSet: Option<seq<Row>> := None;
    items, queries, failed := [], 0, false;
    while lastResultSet == None || |lastResultSet.value| == pageSize
      invariant pageSize > 0 ==> Paging(table, pageSize, items, lastResultSet)
      invariant lastResultSet == None ==> queries == 0
      invariant pageSize > 0 && lastResultSet.Some?
          ==> queries > 0 && |items| == (queries - 1) * pageSize + |lastResultSet.value|
      invariant pageSize == 0 ==> items == [] && lastResultSet in {None, Some([])}
      invariant pageSize == 0 ==> queries == if lastResultSet == None then 0 else 1
      decreases if lastResultSet == None then 2 else if |lastResultSet.value| == pageSize then 1 else 0,
                |table| - |items|
    {
      if lastResultSet.Some? && lastResultSet.value == [] {
        return items, queries, true;
      }
      var lastId := if lastResultSet.Some? then lastResultSet.value[|lastResultSet.value| - 1].id else "";
      var page := Page(table, lastId, pageSize);
      if pageSize > 0 {
        RoundKeeps(table, pageSize, items, lastResultSet, lastId);
        if queries > 0 {
          Distribute(queries - 1, pageSize);
        }
      }
      items := items + page;
      queries := queries + 1;
      lastResultSet := Some(page);
    }
    if pageSize > 0 {
      QuotientIsUnique(|table|, pageSize, queries - 1, |lastResultSet.value|);
    }
  }
}
