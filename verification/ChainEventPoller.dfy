/**
  `ChainEventPoller.ts` with a fixed set of listeners, over a chain without reorganisations: a log
  cursor that moves over providers which lag, fail and take turns.
 */
module ChainEventPollers {
  import opened Arithmetic
  import opened Wrappers
  import opened ProviderHealths

  const POLLS_SINCE_LAST_FROM_BLOCK_UPDATE_THRESHOLD: nat := 30

  datatype Log = Log(address: string, topic: string, payload: string, blockNumber: nat)

  datatype Listener = Listener(address: string, topic: string, name: string)

  /** The logs of every block; a log carries the number of its block. */
  type Chain = nat -> seq<Log>

  ghost predicate ChainValid(chain: Chain) {
    forall b: nat :: forall log <- chain(b) :: log.blockNumber == b
  }

  // ------------------------------------------------------------------ what a poll asks and gets

  predicate Matches(l: Listener, log: Log) {
    l.address == log.address && l.topic == log.topic
  }

  /** The filter asks for any listener's address and any listener's topic, in every combination. */
  predicate Asked(listeners: seq<Listener>, log: Log) {
    (exists l <- listeners :: l.address == log.address) && (exists l <- listeners :: l.topic == log.topic)
  }

  function Filtered(listeners: seq<Listener>, logs: seq<Log>): seq<Log> {
    if logs == [] then []
    else (if Asked(listeners, logs[0]) then [logs[0]] else []) + Filtered(listeners, logs[1..])
  }

  /** All logs of the blocks `lo` up to but not including `hi`. */
  ghost function Logs(chain: Chain, lo: nat, hi: nat): seq<Log> {
    if hi <= lo then [] else Logs(chain, lo, hi - 1) + chain(hi - 1)
  }

  /** What one provider does in one attempt of a poll; the block number is asked for only now and then. */
  datatype Reply =
    | Answers(blockNumber: nat, logs: seq<Log>)
    | FailsAtBlock(providerFailure: bool)
    | FailsAtLogs(blockNumber: nat, providerFailure: bool)
    | AbortedAtBlock(blockNumber: nat)

  /** The provider itself failed, so the next one is asked. */
  predicate IsFailure(r: Reply) { (r.FailsAtBlock? || r.FailsAtLogs?) && r.providerFailure }

  /** The parts of the exchange about the block number happen only if it is asked for. */
  predicate Plausible(r: Reply, explicit: bool) { r.FailsAtBlock? || r.AbortedAtBlock? ==> explicit }

  /**
    An answering provider knows the chain up to some block, which is not below the block number it
    gave in the same attempt, and returns all logs the filter asks for up to there. It may lag.
   */
  ghost predicate Honest(r: Reply, chain: Chain, listeners: seq<Listener>, fromBlock: nat) {
    r.Answers? ==> exists head: nat :: KnowsUpTo(r, chain, listeners, fromBlock, head)
  }

  ghost predicate KnowsUpTo(r: Reply, chain: Chain, listeners: seq<Listener>, fromBlock: nat, head: nat)
    requires r.Answers?
  {
    r.blockNumber <= head && r.logs == Filtered(listeners, Logs(chain, fromBlock, head + 1))
  }

  // ------------------------------------------------------------------ what is delivered

  datatype Delivery = Delivery(listener: nat, log: Log)

  function FindFrom(listeners: seq<Listener>, log: Log, from: nat): (l: Option<Listener>)
    requires from <= |listeners|
    ensures l.Some? ==> exists k :: from <= k < |listeners| && listeners[k] == l.value && Matches(l.value, log)
    ensures l.None? ==> forall k :: from <= k < |listeners| ==> !Matches(listeners[k], log)
    decreases |listeners| - from
  {
    if from == |listeners| then None
    else if Matches(listeners[from], log) then Some(listeners[from])
    else FindFrom(listeners, log, from + 1)
  }

  /** `listeners.find`: the first listener of the log's contract and topic. */
  function Find(listeners: seq<Listener>, log: Log): (l: Option<Listener>)
    ensures l.Some? ==> l.value in listeners && Matches(l.value, log)
    ensures l.None? ==> forall k :: 0 <= k < |listeners| ==> !Matches(listeners[k], log)
  {
    FindFrom(listeners, log, 0)
  }

  /** Delivery goes by contract and event name. */
  function Receives(l: Listener, found: Listener): bool {
    l.address == found.address && l.name == found.name
  }

  function DeliverFrom(listeners: seq<Listener>, log: Log, found: Listener, k: nat): seq<Delivery>
    requires k <= |listeners|
    decreases |listeners| - k
  {
    if k == |listeners| then []
    else (if Receives(listeners[k], found) then [Delivery(k, log)] else []) + DeliverFrom(listeners, log, found, k + 1)
  }

  /** The deliveries one log causes. */
  function Deliver(listeners: seq<Listener>, log: Log): seq<Delivery> {
    match Find(listeners, log)
    case None => []
    case Some(found) => DeliverFrom(listeners, log, found, 0)
  }

  function DeliverAll(listeners: seq<Listener>, logs: seq<Log>): seq<Delivery> {
    if logs == [] then [] else DeliverAll(listeners, logs[..|logs| - 1]) + Deliver(listeners, logs[|logs| - 1])
  }

  // ------------------------------------------------------------------ the cursor

  datatype State = State(fromBlock: nat, polls: nat, delivered: seq<Delivery>)

  /** The first reply that decides a poll: an answer, an abort, or a failure that is not the provider's. */
  function Decisive(replies: seq<Reply>): Option<Reply> {
    if replies == [] then None else if IsFailure(replies[0]) then Decisive(replies[1..]) else Some(replies[0])
  }

  /** How many providers are asked. */
  function AskedCount(replies: seq<Reply>): nat {
    if replies == [] then 0 else if IsFailure(replies[0]) then 1 + AskedCount(replies[1..]) else 1
  }

  /** The health records after asking: one judgement for each provider asked, with the time of each. */
  function Judged(health: map<Provider, Health>, order: seq<Provider>, replies: seq<Reply>, times: seq<nat>)
    : map<Provider, Health>
    requires |order| == |replies| == |times|
  {
    if replies == [] then health
    else if IsFailure(replies[0]) then
      Judged(Recorded(health, order[0], false, times[0]), order[1..], replies[1..], times[1..])
    else Recorded(health, order[0], true, times[0])
  }

  lemma {:induction false} OthersAreNotJudged(health: map<Provider, Health>, order: seq<Provider>, replies: seq<Reply>,
                                              times: seq<nat>, p: Provider)
    requires |order| == |replies| == |times| && p in health && p !in order
    ensures var judged := Judged(health, order, replies, times); p in judged && judged[p] == health[p]
  {
    if replies != [] && IsFailure(replies[0]) {
      OthersAreNotJudged(Recorded(health, order[0], false, times[0]), order[1..], replies[1..], times[1..], p);
    }
  }

  ghost predicate Distinct(order: seq<Provider>) { forall i, j | 0 <= i < j < |order| :: order[i] != order[j] }

  /**
    Each known provider that is asked is judged once, by its own reply: a success if the reply is
    decisive, even one that reports an error, else a failure at its time. The others are not judged.
   */
  lemma {:induction false} JudgedByOwnReply(health: map<Provider, Health>, order: seq<Provider>, replies: seq<Reply>,
                                            times: seq<nat>, k: nat)
    requires |order| == |replies| == |times| && Distinct(order) && k < |order| && order[k] in health
    ensures var judged, p := Judged(health, order, replies, times), order[k];
            p in judged && judged[p] == if k >= AskedCount(replies) then health[p]
                else if IsFailure(replies[k]) then AfterFailure(health[p], times[k]) else AfterSuccess(health[p])
  {
    if IsFailure(replies[0]) {
      var next := Recorded(health, order[0], false, times[0]);
      if k == 0 {
        OthersAreNotJudged(next, order[1..], replies[1..], times[1..], order[0]);
      } else {
        JudgedByOwnReply(next, order[1..], replies[1..], times[1..], k - 1);
      }
    }
  }

  /** Providers are asked up to the decisive reply, or all of them if there is none. */
  lemma {:induction false} AskedExactly(replies: seq<Reply>)
    ensures AskedCount(replies) <= |replies| && forall i | 0 <= i < AskedCount(replies) - 1 :: IsFailure(replies[i])
    ensures match Decisive(replies)
      case Some(r) => AskedCount(replies) > 0 && r == replies[AskedCount(replies) - 1] && !IsFailure(r)
      case None => AskedCount(replies) == |replies| && forall r <- replies :: IsFailure(r)
  {
    if replies != [] {
      AskedExactly(replies[1..]);
    }
  }

  /** The logs that some listener is registered for. */
  function Events(listeners: seq<Listener>, logs: seq<Log>): seq<Log> {
    if logs == [] then []
    else Events(listeners, logs[..|logs| - 1]) + (if Find(listeners, logs[|logs| - 1]).Some? then [logs[|logs| - 1]]
        else [])
  }

  function Highest(logs: seq<Log>): nat
    requires logs != []
  {
    if |logs| == 1 then logs[0].blockNumber else Max(Highest(logs[..|logs| - 1]), logs[|logs| - 1].blockNumber)
  }

  predicate Explicit(s: State) { s.polls >= POLLS_SINCE_LAST_FROM_BLOCK_UPDATE_THRESHOLD }

  /** The state after a poll whose logs were `logs`, when the block number asked for was `blockNumber`. */
  function AfterLogs(s: State, listeners: seq<Listener>, blockNumber: nat, logs: seq<Log>): State {
    AfterEvents(s, listeners, blockNumber, Events(listeners, logs))
  }

  function AfterEvents(s: State, listeners: seq<Listener>, blockNumber: nat, events: seq<Log>): State {
    var newFromBlock := if events != [] then Highest(events) + 1 else if Explicit(s) then blockNumber + 1 else 0;
    var delivered := s.delivered + DeliverAll(listeners, events);
    if newFromBlock > s.fromBlock then State(newFromBlock, 0, delivered) else State(s.fromBlock, s.polls + 1, delivered)
  }

  /** One poll; `aborted` says whether the signal was aborted by the time the requests were done. */
  function AfterPoll(s: State, listeners: seq<Listener>, replies: seq<Reply>, aborted: bool): State {
    match Decisive(replies)
    case Some(AbortedAtBlock(_)) => s
    case Some(Answers(blockNumber, logs)) => if aborted then s else AfterLogs(s, listeners, blockNumber, logs)
    case _ => if aborted then s else s.(polls := s.polls + 1)
  }

  // ------------------------------------------------------------------ exactly once, in order

  /** The deliveries due for the blocks `lo` up to but not including `hi`. */
  ghost function Due(chain: Chain, listeners: seq<Listener>, lo: nat, hi: nat): seq<Delivery> {
    DeliverAll(listeners, Logs(chain, lo, hi))
  }

  lemma Associates<T>(a: seq<T>, b: seq<T>, c: seq<T>)
    ensures (a + b) + c == a + (b + c)
  {}

  lemma SplitLast<T>(a: seq<T>, b: seq<T>)
    requires b != []
    ensures b == b[..|b| - 1] + [b[|b| - 1]] && a + b == (a + b[..|b| - 1]) + [b[|b| - 1]]
  {}

  lemma DeliverAllStep(listeners: seq<Listener>, before: seq<Log>, last: Log)
    ensures DeliverAll(listeners, before + [last]) == DeliverAll(listeners, before) + Deliver(listeners, last)
  {
    assert (before + [last])[..|before|] == before;
  }

  lemma {:induction false} DeliverAppend(listeners: seq<Listener>, a: seq<Log>, b: seq<Log>)
    ensures DeliverAll(listeners, a + b) == DeliverAll(listeners, a) + DeliverAll(listeners, b)
  {
    if b == [] {
      assert a + b == a;
    } else {
      var before, last := b[..|b| - 1], b[|b| - 1];
      DeliverAppend(listeners, a, before);
      DeliverAllStep(listeners, a + before, last);
      DeliverAllStep(listeners, before, last);
      SplitLast(a, b);
      Associates(DeliverAll(listeners, a), DeliverAll(listeners, before), Deliver(listeners, last));
    }
  }

  lemma {:induction false} LogsSplit(chain: Chain, lo: nat, mid: nat, hi: nat)
    requires lo <= mid <= hi
    ensures Logs(chain, lo, hi) == Logs(chain, lo, mid) + Logs(chain, mid, hi)
  {
    if mid < hi {
      LogsSplit(chain, lo, mid, hi - 1);
    }
  }

  lemma {:induction false} LogsInRange(chain: Chain, lo: nat, hi: nat)
    requires ChainValid(chain)
    ensures forall log <- Logs(chain, lo, hi) :: lo <= log.blockNumber < hi
  {
    if lo < hi {
      LogsInRange(chain, lo, hi - 1);
    }
  }

  lemma EventsStep(listeners: seq<Listener>, before: seq<Log>, last: Log)
    ensures Events(listeners, before + [last])
        == Events(listeners, before) + (if Find(listeners, last).Some? then [last] else [])
  {
    assert (before + [last])[..|before|] == before;
  }

  lemma NobodyReceives(listeners: seq<Listener>, log: Log)
    requires Find(listeners, log).None?
    ensures Deliver(listeners, log) == []
  {}

  /** Logs nobody is registered for cause no deliveries, whether the filter lets them through or not. */
  lemma {:induction false} EventsDeliverAll(listeners: seq<Listener>, logs: seq<Log>)
    ensures DeliverAll(listeners, Events(listeners, logs)) == DeliverAll(listeners, logs)
  {
    if logs != [] {
      var before, last := logs[..|logs| - 1], logs[|logs| - 1];
      EventsDeliverAll(listeners, before);
      SplitLast([], logs);
      EventsStep(listeners, before, last);
      DeliverAllStep(listeners, before, last);
      if Find(listeners, last).Some? {
        DeliverAllStep(listeners, Events(listeners, before), last);
      } else {
        NobodyReceives(listeners, last);
        assert Events(listeners, before) + [] == Events(listeners, before);
        assert DeliverAll(listeners, before) + [] == DeliverAll(listeners, before);
      }
    }
  }

  lemma {:induction false} EventsAreLogs(listeners: seq<Listener>, logs: seq<Log>, log: Log)
    ensures log in Events(listeners, logs) <==> log in logs && Find(listeners, log).Some?
  {
    if logs != [] {
      var before, last := logs[..|logs| - 1], logs[|logs| - 1];
      EventsAreLogs(listeners, before, log);
      SplitLast([], logs);
      EventsStep(listeners, before, last);
    }
  }

  lemma {:induction false} EventsAppend(listeners: seq<Listener>, a: seq<Log>, b: seq<Log>)
    ensures Events(listeners, a + b) == Events(listeners, a) + Events(listeners, b)
  {
    if b == [] {
      assert a + b == a;
    } else {
      assert (a + b)[..|a + b| - 1] == a + b[..|b| - 1];
      EventsAppend(listeners, a, b[..|b| - 1]);
    }
  }

  lemma FoundIsAsked(listeners: seq<Listener>, log: Log)
    ensures Find(listeners, log).Some? ==> Asked(listeners, log)
  {}

  /** No listener has the address of the one and the topic of the other. */
  ghost predicate Unpaired(listeners: seq<Listener>, a: Listener, b: Listener) {
    forall l <- listeners :: !(l.address == a.address && l.topic == b.topic)
  }

  /** The filter asks for logs of nobody exactly if some address and topic were never registered together. */
  lemma AsksTooMuchIff(listeners: seq<Listener>)
    ensures (exists log: Log :: Asked(listeners, log) && Find(listeners, log).None?)
       <==> exists a <- listeners, b <- listeners :: Unpaired(listeners, a, b)
  {
    if a, b :| a in listeners && b in listeners && Unpaired(listeners, a, b) {
      var log := Log(a.address, b.topic, "", 0);
      assert Asked(listeners, log) && Find(listeners, log).None?;
    }
    if log: Log :| Asked(listeners, log) && Find(listeners, log).None? {
      var a :| a in listeners && a.address == log.address;
      var b :| b in listeners && b.topic == log.topic;
      forall l <- listeners ensures !(l.address == a.address && l.topic == b.topic) {
        assert !Matches(l, log);
      }
      assert Unpaired(listeners, a, b);
    }
  }

  lemma {:induction false} FilterKeepsEvents(listeners: seq<Listener>, logs: seq<Log>)
    ensures Events(listeners, Filtered(listeners, logs)) == Events(listeners, logs)
  {
    if logs != [] {
      FilterKeepsEvents(listeners, logs[1..]);
      assert logs == [logs[0]] + logs[1..];
      EventsAppend(listeners, [logs[0]], logs[1..]);
      if Asked(listeners, logs[0]) {
        EventsAppend(listeners, [logs[0]], Filtered(listeners, logs[1..]));
      } else {
        FoundIsAsked(listeners, logs[0]);
        EventsStep(listeners, [], logs[0]);
        assert [] + [logs[0]] == [logs[0]];
        assert [] + Events(listeners, logs[1..]) == Events(listeners, logs[1..]);
        assert [] + Filtered(listeners, logs[1..]) == Filtered(listeners, logs[1..]);
      }
    }
  }

  lemma {:induction false} HighestIsHighest(logs: seq<Log>)
    requires logs != []
    ensures forall log <- logs :: log.blockNumber <= Highest(logs)
    ensures exists log <- logs :: log.blockNumber == Highest(logs)
  {
    if |logs| > 1 {
      HighestIsHighest(logs[..|logs| - 1]);
      assert logs == logs[..|logs| - 1] + [logs[|logs| - 1]];
    } else {
      assert logs[0] in logs;
    }
  }

  lemma {:induction false} NothingDue(listeners: seq<Listener>, logs: seq<Log>)
    requires forall log <- logs :: Find(listeners, log).None?
    ensures DeliverAll(listeners, logs) == []
  {
    if logs != [] {
      NothingDue(listeners, logs[..|logs| - 1]);
    }
  }

  /** No log of block `mid` or later has a listener. */
  ghost predicate NoneFrom(listeners: seq<Listener>, logs: seq<Log>, mid: nat) {
    forall log <- logs :: log.blockNumber >= mid ==> Find(listeners, log).None?
  }

  lemma NoneInRange(chain: Chain, listeners: seq<Listener>, lo: nat, mid: nat, hi: nat)
    requires ChainValid(chain) && lo <= mid <= hi && NoneFrom(listeners, Logs(chain, lo, hi), mid)
    ensures DeliverAll(listeners, Logs(chain, mid, hi)) == []
  {
    LogsSplit(chain, lo, mid, hi);
    LogsInRange(chain, mid, hi);
    NothingDue(listeners, Logs(chain, mid, hi));
  }

  /** If no event lies in the blocks `mid` and later, what is due up to `hi` is what is due up to `mid`. */
  lemma DueUpTo(chain: Chain, listeners: seq<Listener>, lo: nat, mid: nat, hi: nat)
    requires ChainValid(chain) && lo <= mid <= hi && NoneFrom(listeners, Logs(chain, lo, hi), mid)
    ensures Due(chain, listeners, lo, hi) == Due(chain, listeners, lo, mid)
  {
    NoneInRange(chain, listeners, lo, mid, hi);
    LogsSplit(chain, lo, mid, hi);
    DeliverAppend(listeners, Logs(chain, lo, mid), Logs(chain, mid, hi));
    assert DeliverAll(listeners, Logs(chain, lo, mid)) + [] == DeliverAll(listeners, Logs(chain, lo, mid));
  }

  ghost predicate Inv(s: State, chain: Chain, listeners: seq<Listener>, start: nat) {
    start <= s.fromBlock && s.delivered == Due(chain, listeners, start, s.fromBlock)
  }

  /** No event lies above the highest one. */
  lemma NoneAbove(listeners: seq<Listener>, logs: seq<Log>)
    requires Events(listeners, logs) != []
    ensures NoneFrom(listeners, logs, Highest(Events(listeners, logs)) + 1)
  {
    var events := Events(listeners, logs);
    HighestIsHighest(events);
    forall log <- logs | log.blockNumber >= Highest(events) + 1 ensures Find(listeners, log).None? {
      EventsAreLogs(listeners, logs, log);
    }
  }

  lemma HighestInRange(chain: Chain, listeners: seq<Listener>, lo: nat, hi: nat)
    requires ChainValid(chain) && Events(listeners, Logs(chain, lo, hi)) != []
    ensures lo <= Highest(Events(listeners, Logs(chain, lo, hi))) < hi
  {
    var events := Events(listeners, Logs(chain, lo, hi));
    HighestIsHighest(events);
    var top :| top in events && top.blockNumber == Highest(events);
    EventsAreLogs(listeners, Logs(chain, lo, hi), top);
    LogsInRange(chain, lo, hi);
  }

  lemma EventsAreDueUpTo(chain: Chain, listeners: seq<Listener>, lo: nat, mid: nat, hi: nat, events: seq<Log>)
    requires ChainValid(chain) && lo <= mid <= hi && NoneFrom(listeners, Logs(chain, lo, hi), mid)
    requires events == Events(listeners, Logs(chain, lo, hi))
    ensures DeliverAll(listeners, events) == Due(chain, listeners, lo, mid)
  {
    EventsDeliverAll(listeners, Logs(chain, lo, hi));
    DueUpTo(chain, listeners, lo, mid, hi);
  }

  /** If there are events, what they cause is what is due up to just above the highest of them. */
  lemma EventsAreDue(chain: Chain, listeners: seq<Listener>, lo: nat, hi: nat)
    requires ChainValid(chain) && Events(listeners, Logs(chain, lo, hi)) != []
    ensures var events := Events(listeners, Logs(chain, lo, hi));
            lo <= Highest(events) < hi
                && DeliverAll(listeners, events) == Due(chain, listeners, lo, Highest(events) + 1)
  {
    HighestInRange(chain, listeners, lo, hi);
    NoneAbove(listeners, Logs(chain, lo, hi));
    EventsAreDueUpTo(chain, listeners, lo, Highest(Events(listeners, Logs(chain, lo, hi))) + 1, hi,
        Events(listeners, Logs(chain, lo, hi)));
  }

  /** If there are none, nothing is due up to any block the provider knows. */
  lemma NoEventsNothingDue(chain: Chain, listeners: seq<Listener>, lo: nat, mid: nat, hi: nat)
    requires ChainValid(chain) && lo <= mid <= hi && Events(listeners, Logs(chain, lo, hi)) == []
    ensures Due(chain, listeners, lo, mid) == []
  {
    forall log <- Logs(chain, lo, hi) ensures Find(listeners, log).None? {
      EventsAreLogs(listeners, Logs(chain, lo, hi), log);
    }
    LogsSplit(chain, lo, mid, hi);
    NothingDue(listeners, Logs(chain, lo, mid));
  }

  lemma AfterSomeEvents(s: State, chain: Chain, listeners: seq<Listener>, blockNumber: nat, events: seq<Log>)
    requires events != [] && s.fromBlock <= Highest(events)
    requires DeliverAll(listeners, events) == Due(chain, listeners, s.fromBlock, Highest(events) + 1)
    ensures var t := AfterEvents(s, listeners, blockNumber, events);
            s.fromBlock <= t.fromBlock && t.delivered == s.delivered + Due(chain, listeners, s.fromBlock, t.fromBlock)
  {
  }

  lemma SomeEventsDeliverDue(s: State, chain: Chain, listeners: seq<Listener>, blockNumber: nat, head: nat,
                             events: seq<Log>)
    requires ChainValid(chain) && blockNumber <= head
    requires events == Events(listeners, Logs(chain, s.fromBlock, head + 1)) && events != []
    ensures var t := AfterEvents(s, listeners, blockNumber, events);
            s.fromBlock <= t.fromBlock && t.delivered == s.delivered + Due(chain, listeners, s.fromBlock, t.fromBlock)
  {
    EventsAreDue(chain, listeners, s.fromBlock, head + 1);
    AfterSomeEvents(s, chain, listeners, blockNumber, events);
  }

  lemma NoEventsDeliverDue(s: State, chain: Chain, listeners: seq<Listener>, blockNumber: nat, head: nat)
    requires ChainValid(chain) && blockNumber <= head
    requires Events(listeners, Logs(chain, s.fromBlock, head + 1)) == []
    ensures var t := AfterEvents(s, listeners, blockNumber, []);
            s.fromBlock <= t.fromBlock && t.delivered == s.delivered + Due(chain, listeners, s.fromBlock, t.fromBlock)
  {
    var t := AfterEvents(s, listeners, blockNumber, []);
    if t.fromBlock <= head + 1 {
      NoEventsNothingDue(chain, listeners, s.fromBlock, t.fromBlock, head + 1);
    }
  }

  /** The deliveries of a poll are what is due between the old cursor and the new. */
  lemma PollDeliversDue(s: State, chain: Chain, listeners: seq<Listener>, blockNumber: nat, head: nat)
    requires ChainValid(chain) && blockNumber <= head
    ensures var t := AfterLogs(s, listeners, blockNumber, Filtered(listeners, Logs(chain, s.fromBlock, head + 1)));
            s.fromBlock <= t.fromBlock && t.delivered == s.delivered + Due(chain, listeners, s.fromBlock, t.fromBlock)
  {
    var events := Events(listeners, Logs(chain, s.fromBlock, head + 1));
    FilterKeepsEvents(listeners, Logs(chain, s.fromBlock, head + 1));
    if events != [] {
      SomeEventsDeliverDue(s, chain, listeners, blockNumber, head, events);
    } else {
      NoEventsDeliverDue(s, chain, listeners, blockNumber, head);
    }
  }

  /** Where the cursor moves, everything below it that was not delivered before is delivered now, and nothing else. */
  lemma LogsKeep(s: State, chain: Chain, listeners: seq<Listener>, start: nat, blockNumber: nat, head: nat)
    requires ChainValid(chain) && Inv(s, chain, listeners, start) && blockNumber <= head
    ensures var t := AfterLogs(s, listeners, blockNumber, Filtered(listeners, Logs(chain, s.fromBlock, head + 1)));
            Inv(t, chain, listeners, start) && s.fromBlock <= t.fromBlock
  {
    var t := AfterLogs(s, listeners, blockNumber, Filtered(listeners, Logs(chain, s.fromBlock, head + 1)));
    PollDeliversDue(s, chain, listeners, blockNumber, head);
    LogsSplit(chain, start, s.fromBlock, t.fromBlock);
    DeliverAppend(listeners, Logs(chain, start, s.fromBlock), Logs(chain, s.fromBlock, t.fromBlock));
  }

  lemma {:induction false} DecisiveIsAReply(replies: seq<Reply>)
    ensures Decisive(replies).Some? ==> Decisive(replies).value in replies
  {
    if replies != [] {
      DecisiveIsAReply(replies[1..]);
    }
  }

  lemma PollKeeps(s: State, chain: Chain, listeners: seq<Listener>, start: nat, replies: seq<Reply>, aborted: bool)
    requires ChainValid(chain) && Inv(s, chain, listeners, start)
    requires forall r <- replies :: Honest(r, chain, listeners, s.fromBlock)
    ensures var t := AfterPoll(s, listeners, replies, aborted);
            Inv(t, chain, listeners, start) && s.fromBlock <= t.fromBlock
  {
    DecisiveIsAReply(replies);
    match Decisive(replies)
    case Some(Answers(blockNumber, logs)) =>
      var head: nat :| KnowsUpTo(Answers(blockNumber, logs), chain, listeners, s.fromBlock, head);
      LogsKeep(s, chain, listeners, start, blockNumber, head);
    case _ =>
  }

  // ------------------------------------------------------------------ what one poll does, exactly

  /** The reply that decides a poll: the first that is not its provider's failure. */
  ghost predicate Decides(replies: seq<Reply>, k: nat) {
    k < |replies| && !IsFailure(replies[k]) && forall i | 0 <= i < k :: IsFailure(replies[i])
  }

  /** Some listener is registered for a log of the block. */
  ghost predicate HasEvent(chain: Chain, listeners: seq<Listener>, b: nat) {
    exists log <- chain(b) :: exists l <- listeners :: Matches(l, log)
  }

  /** The cursor stands just above the highest of the blocks `from` to `head` that have events. */
  ghost predicate AboveHighest(chain: Chain, listeners: seq<Listener>, from: nat, head: nat, cursor: nat) {
    && from < cursor <= head + 1 && HasEvent(chain, listeners, cursor - 1)
    && forall b: nat | cursor <= b <= head :: !HasEvent(chain, listeners, b)
  }

  ghost predicate NoEvents(chain: Chain, listeners: seq<Listener>, from: nat, head: nat) {
    forall b: nat | from <= b <= head :: !HasEvent(chain, listeners, b)
  }

  lemma {:induction false} DecisiveDecides(replies: seq<Reply>, k: nat)
    requires Decides(replies, k)
    ensures Decisive(replies) == Some(replies[k])
  {
    if k > 0 {
      DecisiveDecides(replies[1..], k - 1);
    }
  }

  lemma {:induction false} InLogs(chain: Chain, lo: nat, hi: nat, log: Log)
    requires ChainValid(chain)
    ensures log in Logs(chain, lo, hi) <==> lo <= log.blockNumber < hi && log in chain(log.blockNumber)
  {
    if lo < hi {
      InLogs(chain, lo, hi - 1, log);
    }
  }

  /** The events of the asked blocks are the logs there that some listener is registered for. */
  lemma InEvents(chain: Chain, listeners: seq<Listener>, lo: nat, hi: nat, log: Log)
    requires ChainValid(chain)
    ensures log in Events(listeners, Logs(chain, lo, hi))
       <==> lo <= log.blockNumber < hi && log in chain(log.blockNumber) && exists l <- listeners :: Matches(l, log)
  {
    EventsAreLogs(listeners, Logs(chain, lo, hi), log);
    InLogs(chain, lo, hi, log);
  }

  lemma NoEventsExactly(chain: Chain, listeners: seq<Listener>, from: nat, head: nat)
    requires ChainValid(chain)
    ensures Events(listeners, Logs(chain, from, head + 1)) == [] <==> NoEvents(chain, listeners, from, head)
  {
    var events := Events(listeners, Logs(chain, from, head + 1));
    if events != [] {
      InEvents(chain, listeners, from, head + 1, events[0]);
      assert HasEvent(chain, listeners, events[0].blockNumber);
    }
    if b: nat :| from <= b <= head && HasEvent(chain, listeners, b) {
      var log :| log in chain(b) && exists l <- listeners :: Matches(l, log);
      InEvents(chain, listeners, from, head + 1, log);
    }
  }

  lemma NoneAboveHighest(chain: Chain, listeners: seq<Listener>, from: nat, head: nat, b: nat)
    requires ChainValid(chain) && from <= b <= head && HasEvent(chain, listeners, b)
    ensures var events := Events(listeners, Logs(chain, from, head + 1)); events != [] && b <= Highest(events)
  {
    var log :| log in chain(b) && exists l <- listeners :: Matches(l, log);
    InEvents(chain, listeners, from, head + 1, log);
    HighestIsHighest(Events(listeners, Logs(chain, from, head + 1)));
  }

  lemma HighestHasEvent(chain: Chain, listeners: seq<Listener>, from: nat, head: nat)
    requires ChainValid(chain) && Events(listeners, Logs(chain, from, head + 1)) != []
    ensures var top := Highest(Events(listeners, Logs(chain, from, head + 1)));
            from <= top <= head && HasEvent(chain, listeners, top)
  {
    var events := Events(listeners, Logs(chain, from, head + 1));
    HighestIsHighest(events);
    var top :| top in events && top.blockNumber == Highest(events);
    InEvents(chain, listeners, from, head + 1, top);
  }

  lemma HighestIsAbove(chain: Chain, listeners: seq<Listener>, from: nat, head: nat)
    requires ChainValid(chain) && Events(listeners, Logs(chain, from, head + 1)) != []
    ensures AboveHighest(chain, listeners, from, head, Highest(Events(listeners, Logs(chain, from, head + 1))) + 1)
  {
    HighestHasEvent(chain, listeners, from, head);
    var top := Highest(Events(listeners, Logs(chain, from, head + 1)));
    forall b: nat | top < b <= head ensures !HasEvent(chain, listeners, b) {
      if HasEvent(chain, listeners, b) {
        NoneAboveHighest(chain, listeners, from, head, b);
      }
    }
  }

  /** A poll whose deciding provider answers and knows the chain up to block `head`. */
  ghost predicate Answered(s: State, chain: Chain, listeners: seq<Listener>, replies: seq<Reply>, k: nat, head: nat) {
    Decides(replies, k) && replies[k].Answers? && KnowsUpTo(replies[k], chain, listeners, s.fromBlock, head)
  }

  /**
    The cursor moves just above the last event. If there is none it moves above the provider's block
    number if that was asked for, as it is after 30 polls without progress, and else stays.
   */
  ghost predicate CursorMoves(s: State, chain: Chain, listeners: seq<Listener>, blockNumber: nat, head: nat,
                              cursor: nat)
  {
    if NoEvents(chain, listeners, s.fromBlock, head) then
      cursor == if s.polls >= 30 then Max(s.fromBlock, blockNumber + 1) else s.fromBlock
    else AboveHighest(chain, listeners, s.fromBlock, head, cursor)
  }

  lemma EventsMoveCursor(s: State, chain: Chain, listeners: seq<Listener>, blockNumber: nat, head: nat)
    requires ChainValid(chain)
    ensures var events := Events(listeners, Logs(chain, s.fromBlock, head + 1));
            var cursor := AfterEvents(s, listeners, blockNumber, events).fromBlock;
            CursorMoves(s, chain, listeners, blockNumber, head, cursor)
  {
    var events := Events(listeners, Logs(chain, s.fromBlock, head + 1));
    EventsMove(s, listeners, blockNumber, events);
    NoEventsExactly(chain, listeners, s.fromBlock, head);
    if events != [] {
      HighestIsAbove(chain, listeners, s.fromBlock, head);
      assert AfterEvents(s, listeners, blockNumber, events).fromBlock == Highest(events) + 1;
    }
  }

  lemma AnswerIsEvents(s: State, chain: Chain, listeners: seq<Listener>, replies: seq<Reply>, k: nat, head: nat)
    requires Answered(s, chain, listeners, replies, k, head)
    ensures AfterPoll(s, listeners, replies, false)
         == AfterEvents(s, listeners, replies[k].blockNumber, Events(listeners, Logs(chain, s.fromBlock, head + 1)))
  {
    DecisiveDecides(replies, k);
    FilterKeepsEvents(listeners, Logs(chain, s.fromBlock, head + 1));
  }

  /**
    It delivers all events from the cursor up to that block, and moves the cursor. The counter of polls
    without progress starts again exactly if the cursor has moved.
   */
  lemma PollExactly(s: State, chain: Chain, listeners: seq<Listener>, replies: seq<Reply>, k: nat, head: nat)
    requires ChainValid(chain) && Answered(s, chain, listeners, replies, k, head)
    ensures var t := AfterPoll(s, listeners, replies, false);
      && t.delivered == s.delivered + Due(chain, listeners, s.fromBlock, head + 1)
      && CursorMoves(s, chain, listeners, replies[k].blockNumber, head, t.fromBlock)
      && t.polls == if t.fromBlock > s.fromBlock then 0 else s.polls + 1
  {
    var logs := Logs(chain, s.fromBlock, head + 1);
    AnswerIsEvents(s, chain, listeners, replies, k, head);
    EventsDeliverAll(listeners, logs);
    EventsMove(s, listeners, replies[k].blockNumber, Events(listeners, logs));
    EventsMoveCursor(s, chain, listeners, replies[k].blockNumber, head);
  }

  lemma EventsMove(s: State, listeners: seq<Listener>, blockNumber: nat, events: seq<Log>)
    ensures var t := AfterEvents(s, listeners, blockNumber, events);
      && t.delivered == s.delivered + DeliverAll(listeners, events)
      && (events == [] ==>
            t.fromBlock == if s.polls >= 30 then Max(s.fromBlock, blockNumber + 1) else s.fromBlock)
      && (events != [] ==> t.fromBlock == Max(s.fromBlock, Highest(events) + 1))
      && t.polls == if t.fromBlock > s.fromBlock then 0 else s.polls + 1
  {
  }

  /** The signal was aborted, during the poll or before the requests. */
  ghost predicate WasAborted(replies: seq<Reply>, aborted: bool) {
    aborted || exists k: nat :: Decides(replies, k) && replies[k].AbortedAtBlock?
  }

  ghost predicate NobodyAnswers(replies: seq<Reply>) {
    forall k: nat | Decides(replies, k) :: !replies[k].Answers?
  }

  lemma {:induction false} DecisiveIsDecided(replies: seq<Reply>) returns (k: nat)
    ensures if Decisive(replies).Some? then Decides(replies, k) && replies[k] == Decisive(replies).value
            else forall j: nat :: !Decides(replies, j)
  {
    k := 0;
    if replies != [] && IsFailure(replies[0]) {
      var j := DecisiveIsDecided(replies[1..]);
      k := j + 1;
      forall i: nat | Decides(replies, i) ensures i > 0 && Decides(replies[1..], i - 1) {
      }
    }
  }

  /** An aborted poll changes nothing, and one without an answer is only counted. */
  lemma FailedPollExactly(s: State, listeners: seq<Listener>, replies: seq<Reply>, aborted: bool)
    requires WasAborted(replies, aborted) || NobodyAnswers(replies)
    ensures AfterPoll(s, listeners, replies, aborted)
         == if WasAborted(replies, aborted) then s else s.(polls := s.polls + 1)
  {
    var k := DecisiveIsDecided(replies);
    if j: nat :| Decides(replies, j) && replies[j].AbortedAtBlock? {
      DecisiveDecides(replies, j);
    }
  }

  /** What happens in one poll of a run. */
  datatype Poll = Poll(replies: seq<Reply>, aborted: bool)

  ghost predicate IsRun(chain: Chain, listeners: seq<Listener>, start: nat, states: seq<State>, polls: seq<Poll>) {
    && |states| == |polls| + 1
    && states[0] == State(start, 0, [])
    && forall i | 0 <= i < |polls| ::
         && (forall r <- polls[i].replies :: Honest(r, chain, listeners, states[i].fromBlock))
         && states[i + 1] == AfterPoll(states[i], listeners, polls[i].replies, polls[i].aborted)
  }

  /**
    Over every run of polls, each asking providers that lag, fail or take turns: what has been
    delivered is exactly what is due for the blocks from the start up to the cursor, in chain order,
    and the cursor never goes back.
   */
  lemma {:induction false} ExactlyOnce(chain: Chain, listeners: seq<Listener>, start: nat, states: seq<State>,
                                       polls: seq<Poll>, i: nat, j: nat)
    requires ChainValid(chain) && IsRun(chain, listeners, start, states, polls) && i <= j < |states|
    ensures start <= states[i].fromBlock <= states[j].fromBlock
    ensures states[j].delivered == Due(chain, listeners, start, states[j].fromBlock)
  {
    if j > 0 {
      ExactlyOnce(chain, listeners, start, states, polls, if i < j then i else j - 1, j - 1);
      PollKeeps(states[j - 1], chain, listeners, start, polls[j - 1].replies, polls[j - 1].aborted);
    }
  }

  lemma DuePrefix(chain: Chain, listeners: seq<Listener>, lo: nat, mid: nat, hi: nat)
    requires lo <= mid <= hi
    ensures Due(chain, listeners, lo, mid) <= Due(chain, listeners, lo, hi)
  {
    LogsSplit(chain, lo, mid, hi);
    DeliverAppend(listeners, Logs(chain, lo, mid), Logs(chain, mid, hi));
  }

  /** The poll at step `i` was answered by a provider that knew the chain up to block `head`, and not aborted. */
  ghost predicate AnsweredAt(chain: Chain, listeners: seq<Listener>, states: seq<State>, polls: seq<Poll>, i: nat,
                             head: nat)
    requires |states| == |polls| + 1
  {
    && i < |polls| && !polls[i].aborted
    && exists k: nat :: Answered(states[i], chain, listeners, polls[i].replies, k, head)
  }

  lemma DeliveredAt(chain: Chain, listeners: seq<Listener>, start: nat, states: seq<State>, polls: seq<Poll>, i: nat,
                    head: nat)
    requires ChainValid(chain) && IsRun(chain, listeners, start, states, polls)
    requires AnsweredAt(chain, listeners, states, polls, i, head)
    ensures start <= head ==> Due(chain, listeners, start, head + 1) <= states[i + 1].delivered
  {
    ExactlyOnce(chain, listeners, start, states, polls, i, i);
    var s := states[i];
    var k: nat :| Answered(s, chain, listeners, polls[i].replies, k, head);
    PollExactly(s, chain, listeners, polls[i].replies, k, head);
    if s.fromBlock <= head + 1 {
      LogsSplit(chain, start, s.fromBlock, head + 1);
      DeliverAppend(listeners, Logs(chain, start, s.fromBlock), Logs(chain, s.fromBlock, head + 1));
    } else if start <= head {
      DuePrefix(chain, listeners, start, head + 1, s.fromBlock);
    }
  }

  lemma {:induction false} DeliveredStays(chain: Chain, listeners: seq<Listener>, start: nat, states: seq<State>,
                                          polls: seq<Poll>, i: nat, j: nat)
    requires ChainValid(chain) && IsRun(chain, listeners, start, states, polls) && i <= j < |states|
    ensures states[i].delivered <= states[j].delivered
  {
    ExactlyOnce(chain, listeners, start, states, polls, i, i);
    ExactlyOnce(chain, listeners, start, states, polls, i, j);
    DuePrefix(chain, listeners, start, states[i].fromBlock, states[j].fromBlock);
  }

  /**
    Over every run: once a poll was answered by a provider that knew the chain up to block `head`, all
    that is due from the start up to that block has been delivered, in order, and before anything else.
   */
  lemma DeliveredUpTo(chain: Chain, listeners: seq<Listener>, start: nat, states: seq<State>, polls: seq<Poll>, i: nat,
                      j: nat, head: nat)
    requires ChainValid(chain) && IsRun(chain, listeners, start, states, polls) && i < j < |states| && start <= head
    requires AnsweredAt(chain, listeners, states, polls, i, head)
    ensures Due(chain, listeners, start, head + 1) <= states[j].delivered
  {
    DeliveredAt(chain, listeners, start, states, polls, i, head);
    DeliveredStays(chain, listeners, start, states, polls, i + 1, j);
  }

  /** The polls since the cursor last moved, without the aborted ones. */
  ghost function PollsWithoutProgress(states: seq<State>, polls: seq<Poll>, i: nat): nat
    requires i <= |polls| < |states|
  {
    if i == 0 || states[i].fromBlock != states[i - 1].fromBlock then 0
    else
      PollsWithoutProgress(states, polls, i - 1)
      + if WasAborted(polls[i - 1].replies, polls[i - 1].aborted) then 0 else 1
  }

  /** That is what the counter counts, over every run. */
  lemma {:induction false} CounterIsExact(chain: Chain, listeners: seq<Listener>, start: nat, states: seq<State>,
                                          polls: seq<Poll>, i: nat)
    requires ChainValid(chain) && IsRun(chain, listeners, start, states, polls) && i < |states|
    ensures states[i].polls == PollsWithoutProgress(states, polls, i)
  {
    if i > 0 {
      CounterIsExact(chain, listeners, start, states, polls, i - 1);
      var s, poll := states[i - 1], polls[i - 1];
      if WasAborted(poll.replies, poll.aborted) || NobodyAnswers(poll.replies) {
        FailedPollExactly(s, listeners, poll.replies, poll.aborted);
      } else {
        var k: nat :| Decides(poll.replies, k) && poll.replies[k].Answers?;
        assert poll.replies[k] in poll.replies;
        var head: nat :| KnowsUpTo(poll.replies[k], chain, listeners, s.fromBlock, head);
        PollExactly(s, chain, listeners, poll.replies, k, head);
        ExactlyOnce(chain, listeners, start, states, polls, i - 1, i);
      }
    }
  }

  // ------------------------------------------------------------------ which listener gets which log

  ghost function ReceivedBy(ds: seq<Delivery>, k: nat): seq<Log> {
    if ds == [] then []
    else ReceivedBy(ds[..|ds| - 1], k) + (if ds[|ds| - 1].listener == k then [ds[|ds| - 1].log] else [])
  }

  ghost function Matching(logs: seq<Log>, l: Listener): seq<Log> {
    if logs == [] then []
    else Matching(logs[..|logs| - 1], l) + (if Matches(l, logs[|logs| - 1]) then [logs[|logs| - 1]] else [])
  }

  /** A topic is the hash of an event's signature, so it determines the event's name. */
  ghost predicate TopicsNameEvents(listeners: seq<Listener>) {
    forall a <- listeners, b <- listeners :: a.topic == b.topic ==> a.name == b.name
  }

  /** No contract has listeners for two events of one name. */
  ghost predicate NoOverloads(listeners: seq<Listener>) {
    forall a <- listeners, b <- listeners :: a.address == b.address && a.name == b.name ==> a.topic == b.topic
  }

  ghost predicate DeliversExactly(listeners: seq<Listener>) {
    forall logs: seq<Log>, k: nat | k < |listeners| ::
        ReceivedBy(DeliverAll(listeners, logs), k) == Matching(logs, listeners[k])
  }

  lemma {:induction false} ReceivedAppend(a: seq<Delivery>, b: seq<Delivery>, k: nat)
    ensures ReceivedBy(a + b, k) == ReceivedBy(a, k) + ReceivedBy(b, k)
  {
    if b == [] {
      assert a + b == a;
    } else {
      assert (a + b)[..|a + b| - 1] == a + b[..|b| - 1];
      ReceivedAppend(a, b[..|b| - 1], k);
    }
  }

  lemma ReceivedOne(d: Delivery, k: nat)
    ensures ReceivedBy([d], k) == if d.listener == k then [d.log] else []
  {
    assert [d][..0] == [];
  }

  lemma ReceivedFirst(d: Delivery, rest: seq<Delivery>, k: nat)
    ensures ReceivedBy([d] + rest, k) == (if d.listener == k then [d.log] else []) + ReceivedBy(rest, k)
  {
    ReceivedOne(d, k);
    ReceivedAppend([d], rest, k);
  }

  lemma {:induction false} ReceivedFromOne(listeners: seq<Listener>, log: Log, found: Listener, from: nat, k: nat)
    requires from <= |listeners| && k < |listeners|
    ensures ReceivedBy(DeliverFrom(listeners, log, found, from), k)
        == (if from <= k && Receives(listeners[k], found) then [log] else [])
    decreases |listeners| - from
  {
    if from < |listeners| {
      ReceivedFromOne(listeners, log, found, from + 1, k);
      ReceivedMaybe(Delivery(from, log), DeliverFrom(listeners, log, found, from + 1), k,
                    Receives(listeners[from], found));
    }
  }

  lemma ReceivedMaybe(d: Delivery, rest: seq<Delivery>, k: nat, delivered: bool)
    ensures ReceivedBy((if delivered then [d] else []) + rest, k)
         == (if delivered && d.listener == k then [d.log] else []) + ReceivedBy(rest, k)
  {
    if delivered {
      ReceivedFirst(d, rest, k);
    } else {
      assert [] + rest == rest && [] + ReceivedBy(rest, k) == ReceivedBy(rest, k);
    }
  }

  ghost predicate InTurn(ds: seq<Delivery>) { forall i, j | 0 <= i < j < |ds| :: ds[i].listener < ds[j].listener }

  lemma FirstInTurn(d: Delivery, rest: seq<Delivery>)
    requires InTurn(rest) && forall r <- rest :: d.listener < r.listener
    ensures InTurn([d] + rest)
  {
    forall j | 0 < j < |[d] + rest| ensures d.listener < ([d] + rest)[j].listener {
      assert rest[j - 1] in rest;
    }
  }

  /** The deliveries of one log are of that log, to one listener after the other. */
  lemma {:induction false} DeliveredInTurn(listeners: seq<Listener>, log: Log, found: Listener, from: nat)
    requires from <= |listeners|
    ensures forall d <- DeliverFrom(listeners, log, found, from) :: d.log == log && from <= d.listener < |listeners|
    ensures InTurn(DeliverFrom(listeners, log, found, from))
    decreases |listeners| - from
  {
    if from < |listeners| {
      DeliveredInTurn(listeners, log, found, from + 1);
      var rest := DeliverFrom(listeners, log, found, from + 1);
      FirstInTurn(Delivery(from, log), rest);
      assert [] + rest == rest;
    }
  }

  lemma {:induction false} NoOverloadsSuffice(listeners: seq<Listener>, logs: seq<Log>, k: nat)
    requires TopicsNameEvents(listeners) && NoOverloads(listeners) && k < |listeners|
    ensures ReceivedBy(DeliverAll(listeners, logs), k) == Matching(logs, listeners[k])
  {
    if logs != [] {
      var before, last := logs[..|logs| - 1], logs[|logs| - 1];
      NoOverloadsSuffice(listeners, before, k);
      ReceivedAppend(DeliverAll(listeners, before), Deliver(listeners, last), k);
      assert listeners[k] in listeners;
      match Find(listeners, last)
      case None =>
      case Some(found) => ReceivedFromOne(listeners, last, found, 0, k);
    }
  }

  /**
    Delivery goes by event name, registration by topic. Every listener gets exactly the logs of its
    contract and topic, once each and in order, if and only if no contract has listeners for two
    overloads of one event name.
   */
  lemma DeliveryIsExactIff(listeners: seq<Listener>)
    requires TopicsNameEvents(listeners)
    ensures DeliversExactly(listeners) <==> NoOverloads(listeners)
  {
    if NoOverloads(listeners) {
      forall logs: seq<Log>, k: nat | k < |listeners| ensures ReceivedBy(DeliverAll(listeners, logs), k)
          == Matching(logs, listeners[k]) {
        NoOverloadsSuffice(listeners, logs, k);
      }
    } else {
      var i, j :| 0 <= i < |listeners| && 0 <= j < |listeners| && listeners[i].address == listeners[j].address
        && listeners[i].name == listeners[j].name && listeners[i].topic != listeners[j].topic;
      OverloadMisdelivers(listeners, i, j);
    }
  }

  lemma DeliverReaches(listeners: seq<Listener>, log: Log, k: nat)
    requires k < |listeners| && Find(listeners, log).Some? && Receives(listeners[k], Find(listeners, log).value)
    ensures ReceivedBy(DeliverAll(listeners, [log]), k) == [log]
  {
    ReceivedFromOne(listeners, log, Find(listeners, log).value, 0, k);
    OneLogDelivers(listeners, log);
  }

  lemma OneLogDelivers(listeners: seq<Listener>, log: Log)
    ensures DeliverAll(listeners, [log]) == Deliver(listeners, log)
  {
    DeliverAllStep(listeners, [], log);
    assert [] + [log] == [log] && [] + Deliver(listeners, log) == Deliver(listeners, log);
  }

  lemma OverloadIsFound(listeners: seq<Listener>, i: nat, j: nat, log: Log)
    requires TopicsNameEvents(listeners) && i < |listeners| && j < |listeners| && Matches(listeners[i], log)
    requires listeners[i].address == listeners[j].address && listeners[i].name == listeners[j].name
    ensures Find(listeners, log).Some? && Receives(listeners[j], Find(listeners, log).value)
  {
    assert listeners[i] in listeners;
  }

  lemma MatchesNothing(log: Log, l: Listener)
    requires !Matches(l, log)
    ensures Matching([log], l) == []
  {
    assert [log][..0] == [];
  }

  /** A log of one overload also reaches the listener of the other. */
  lemma OverloadMisdelivers(listeners: seq<Listener>, i: nat, j: nat)
    requires TopicsNameEvents(listeners) && i < |listeners| && j < |listeners|
    requires listeners[i].address == listeners[j].address && listeners[i].name == listeners[j].name
        && listeners[i].topic != listeners[j].topic
    ensures var log := Log(listeners[i].address, listeners[i].topic, "", 0);
            ReceivedBy(DeliverAll(listeners, [log]), j) == [log] && Matching([log], listeners[j]) == []
  {
    var log := Log(listeners[i].address, listeners[i].topic, "", 0);
    OverloadIsFound(listeners, i, j, log);
    DeliverReaches(listeners, log, j);
    MatchesNothing(log, listeners[j]);
  }

  /**
    After any run of polls a listener has received every log of its contract and event in the blocks
    from the start up to the cursor, once each and in chain order, and nothing else.
   */
  lemma ListenerGetsItsLogs(chain: Chain, listeners: seq<Listener>, start: nat, states: seq<State>, polls: seq<Poll>,
                            i: nat, k: nat)
    requires ChainValid(chain) && IsRun(chain, listeners, start, states, polls) && i < |states| && k < |listeners|
    requires TopicsNameEvents(listeners) && NoOverloads(listeners)
    ensures ReceivedBy(states[i].delivered, k) == Matching(Logs(chain, start, states[i].fromBlock), listeners[k])
  {
    ExactlyOnce(chain, listeners, start, states, polls, i, i);
    NoOverloadsSuffice(listeners, Logs(chain, start, states[i].fromBlock), k);
  }

  lemma {:induction false} ReceivedPrefix(a: seq<Delivery>, b: seq<Delivery>, k: nat)
    requires a <= b
    ensures ReceivedBy(a, k) <= ReceivedBy(b, k)
  {
    ReceivedAppend(a, b[|a|..], k);
    assert b == a + b[|a|..];
  }

  /** And once a poll was answered up to block `head`, a listener has received all of its logs up to there. */
  lemma ListenerHasItsLogs(chain: Chain, listeners: seq<Listener>, start: nat, states: seq<State>, polls: seq<Poll>,
                           i: nat, j: nat, head: nat, k: nat)
    requires ChainValid(chain) && IsRun(chain, listeners, start, states, polls) && i < j < |states| && start <= head
    requires AnsweredAt(chain, listeners, states, polls, i, head) && k < |listeners|
    requires TopicsNameEvents(listeners) && NoOverloads(listeners)
    ensures Matching(Logs(chain, start, head + 1), listeners[k]) <= ReceivedBy(states[j].delivered, k)
  {
    DeliveredUpTo(chain, listeners, start, states, polls, i, j, head);
    ReceivedPrefix(Due(chain, listeners, start, head + 1), states[j].delivered, k);
    NoOverloadsSuffice(listeners, Logs(chain, start, head + 1), k);
  }

  // ------------------------------------------------------------------ the class

  class ChainEventPoller {
    const listeners: seq<Listener>
    const health: ProviderHealth
    var fromBlock: nat
    var pollsSinceFromBlockUpdate: nat
    var delivered: seq<Delivery>

    function Value(): State
      reads this
    {
      State(fromBlock, pollsSinceFromBlockUpdate, delivered)
    }

    /** Polling begins at the block number some provider gave. */
    constructor (listeners: seq<Listener>, health: ProviderHealth, fromBlock: nat)
      ensures this.listeners == listeners && this.health == health && Value() == State(fromBlock, 0, [])
    {
      this.listeners, this.health, this.fromBlock := listeners, health, fromBlock;
      pollsSinceFromBlockUpdate, delivered := 0, [];
    }

    /** `withProvider`: the providers are asked in turn until one reply is not that provider's failure. */
    method WithProvider(order: seq<Provider>, replies: seq<Reply>, explicit: bool, times: seq<nat>)
      returns (decisive: Option<Reply>, newFromBlock: nat)
      requires |order| == |replies| == |times| && forall r <- replies :: Plausible(r, explicit)
      modifies health
      ensures decisive == Decisive(replies)
      ensures decisive.Some? && decisive.value.Answers? ==> newFromBlock == if explicit
          then decisive.value.blockNumber + 1 else 0
      ensures health.states == Judged(old(health.states), order, replies, times)
    {
      newFromBlock := 0;
      assert replies[0..] == replies && order[0..] == order && times[0..] == times;
      for k := 0 to |order|
        invariant Decisive(replies) == Decisive(replies[k..])
        invariant Judged(old(health.states), order, replies, times)
               == Judged(health.states, order[k..], replies[k..], times[k..])
        invariant !explicit ==> newFromBlock == 0
      {
        assert replies[k..][0] == replies[k] && replies[k..][1..] == replies[k + 1..] && replies[k] in replies;
        assert order[k..][0] == order[k] && order[k..][1..] == order[k + 1..];
        assert times[k..][0] == times[k] && times[k..][1..] == times[k + 1..];
        if explicit && !replies[k].FailsAtBlock? {
          newFromBlock := replies[k].blockNumber + 1;
        }
        if !IsFailure(replies[k]) {
          health.RecordSuccess(order[k]);
          return Some(replies[k]), newFromBlock;
        }
        health.RecordFailure(order[k], times[k]);
      }
      return None, newFromBlock;
    }

    method FindEvents(logItems: seq<Log>) returns (events: seq<Log>)
      ensures events == Events(listeners, logItems)
    {
      events := [];
      for k := 0 to |logItems|
        invariant events == Events(listeners, logItems[..k])
      {
        assert logItems[..k + 1][..k] == logItems[..k];
        if Find(listeners, logItems[k]).Some? {
          events := events + [logItems[k]];
        }
      }
      assert logItems[..|logItems|] == logItems;
    }

    method DeliverEvents(events: seq<Log>)
      modifies this`delivered
      ensures delivered == old(delivered) + DeliverAll(listeners, events)
    {
      for k := 0 to |events|
        invariant delivered == old(delivered) + DeliverAll(listeners, events[..k])
      {
        assert events[..k + 1] == events[..k] + [events[k]];
        DeliverAllStep(listeners, events[..k], events[k]);
        Associates(old(delivered), DeliverAll(listeners, events[..k]), Deliver(listeners, events[k]));
        DeliverEvent(events[k]);
      }
      assert events[..|events|] == events;
    }

    method DeliverEvent(event: Log)
      modifies this`delivered
      ensures delivered == old(delivered) + Deliver(listeners, event)
    {
      match Find(listeners, event) {
        case None =>
        case Some(found) =>
          for k := 0 to |listeners|
            invariant delivered + DeliverFrom(listeners, event, found, k)
                == old(delivered) + DeliverFrom(listeners, event, found, 0)
          {
            if Receives(listeners[k], found) {
              delivered := delivered + [Delivery(k, event)];
            }
          }
      }
    }

    method Poll(order: seq<Provider>, replies: seq<Reply>, aborted: bool, times: seq<nat>)
      requires |order| == |replies| == |times| && forall r <- replies ::
          Plausible(r, pollsSinceFromBlockUpdate >= POLLS_SINCE_LAST_FROM_BLOCK_UPDATE_THRESHOLD)
      modifies this, health
      ensures Value() == AfterPoll(old(Value()), listeners, replies, aborted)
      ensures health.states == Judged(old(health.states), order, replies, times)
    {
      var explicit := pollsSinceFromBlockUpdate >= POLLS_SINCE_LAST_FROM_BLOCK_UPDATE_THRESHOLD;
      var decisive, newFromBlock := WithProvider(order, replies, explicit, times);
      var events: Option<seq<Log>> := None;
      if decisive.Some? {
        match decisive.value {
          case AbortedAtBlock(_) => return;
          case Answers(_, logItems) =>
            var found := FindEvents(logItems);
            events := Some(found);
          case _ =>
        }
      }
      if aborted {
        return;
      }
      if events.Some? && events.value != [] {
        DeliverEvents(events.value);
        newFromBlock := Highest(events.value) + 1;
      }
      if events.Some? && newFromBlock > fromBlock {
        fromBlock := newFromBlock;
        pollsSinceFromBlockUpdate := 0;
      } else {
        pollsSinceFromBlockUpdate := pollsSinceFromBlockUpdate + 1;
      }
    }
  }
}
