/**
  `FailoverProvider.ts` with quorum 1: one call over several providers, hedged by timers. The call's
  state and events as functions on values, the class proved against them, and what every run keeps.
 */
module FailoverProviders {
  import opened Wrappers
  import opened ProviderHealths

  /** An error with its ethers code. */
  datatype Error = Error(code: string, detail: string)

  const PROVIDER_FAILURES := ["SERVER_ERROR", "TIMEOUT", "NETWORK_ERROR", "UNKNOWN_ERROR"]

  predicate IsProviderFailure(error: Error) { error.code in PROVIDER_FAILURES }

  datatype Status = Outstanding | Answered | Failed(error: Error)

  /** One provider being asked; `judgement` is what was recorded about it, `late` that its slow timer fired first. */
  datatype Attempt = Attempt(provider: Provider, status: Status, judgement: Option<bool>, late: bool)

  datatype Settlement =
    | Open
    | Resolved(result: string)
    | RejectedByAnswer(error: Error)
    | RejectedByFailure(error: Error)
    | TimedOut(lastFailure: Option<Error>)

  datatype Call = Call(
    queue: seq<Provider>,
    attempts: seq<Attempt>,
    pending: int,
    settlement: Settlement,
    lastFailure: Option<Error>,
    attemptTimer: bool,
    callTimer: bool,
    health: map<Provider, Health>
  )

  // ------------------------------------------------------------------ steps

  /** Only the first settlement counts; it clears both timers. */
  function Settle(c: Call, settlement: Settlement): Call {
    if c.settlement != Open then c
    else c.(settlement := settlement, attemptTimer := false, callTimer := false)
  }

  function LaunchNext(c: Call): Call {
    if c.queue == [] then c.(attemptTimer := false)
    else if c.settlement != Open then c.(attemptTimer := false, queue := c.queue[1..])
    else
      c.(queue := c.queue[1..], pending := c.pending + 1, attemptTimer := true,
         attempts := c.attempts + [Attempt(c.queue[0], Outstanding, None, false)])
  }

  function Start(order: seq<Provider>, health: map<Provider, Health>): Call {
    LaunchNext(Call(order, [], 0, Open, None, false, true, health))
  }

  /** An attempt is judged once; later judgements are ignored. */
  function Judge(c: Call, i: nat, answered: bool, now: nat): Call
    requires i < |c.attempts|
  {
    var a := c.attempts[i];
    if a.judgement.Some? then c
    else c.(attempts := c.attempts[i := a.(judgement := Some(answered))],
        health := Recorded(c.health, a.provider, answered, now))
  }

  function WithStatus(c: Call, i: nat, status: Status): Call
    requires i < |c.attempts|
  {
    c.(attempts := c.attempts[i := c.attempts[i].(status := status)])
  }

  function OnResult(c: Call, i: nat, result: string, now: nat): Call
    requires i < |c.attempts|
  {
    Settle(Judge(WithStatus(c, i, Answered), i, true, now), Resolved(result))
  }

  function OnError(c: Call, i: nat, error: Error, now: nat): Call
    requires i < |c.attempts|
  {
    var failed := WithStatus(c, i, Failed(error)).(pending := c.pending - 1);
    if !IsProviderFailure(error) then Settle(Judge(failed, i, true, now), RejectedByAnswer(error))
    else
      var noted := Judge(failed, i, false, now).(lastFailure := Some(error));
      if noted.queue != [] then LaunchNext(noted)
      else if noted.pending == 0 then Settle(noted, RejectedByFailure(error))
      else noted
  }

  function OnSlow(c: Call, i: nat, now: nat): Call
    requires i < |c.attempts| && c.attempts[i].judgement.None?
  {
    var late := c.(attempts := c.attempts[i := c.attempts[i].(late := true)]);
    Judge(late, i, false, now)
  }

  function OnCallTimer(c: Call): Call {
    Settle(c, TimedOut(c.lastFailure))
  }

  datatype Event =
    | Result(i: nat, result: string, now: nat)
    | Errs(i: nat, error: Error, now: nat)
    | Slow(i: nat, now: nat)
    | AttemptTimer
    | CallTimer

  /** Every asked provider replies at most once; a timer fires only while armed; being judged clears the slow timer. */
  predicate Enabled(c: Call, e: Event) {
    match e
    case Result(i, _, _) => i < |c.attempts| && c.attempts[i].status == Outstanding
    case Errs(i, _, _) => i < |c.attempts| && c.attempts[i].status == Outstanding
    case Slow(i, _) => i < |c.attempts| && c.attempts[i].judgement.None?
    case AttemptTimer => c.attemptTimer
    case CallTimer => c.callTimer
  }

  function Apply(c: Call, e: Event): Call
    requires Enabled(c, e)
  {
    match e
    case Result(i, result, now) => OnResult(c, i, result, now)
    case Errs(i, error, now) => OnError(c, i, error, now)
    case Slow(i, now) => OnSlow(c, i, now)
    case AttemptTimer => LaunchNext(c)
    case CallTimer => OnCallTimer(c)
  }

  // ------------------------------------------------------------------ the invariant

  ghost function Unfailed(attempts: seq<Attempt>): nat {
    if attempts == [] then 0
    else Unfailed(attempts[..|attempts| - 1]) + (if attempts[|attempts| - 1].status.Failed? then 0 else 1)
  }

  ghost function Asked(attempts: seq<Attempt>): seq<Provider> {
    seq(|attempts|, k requires 0 <= k < |attempts| => attempts[k].provider)
  }

  ghost predicate AllFailed(attempts: seq<Attempt>) {
    forall a <- attempts :: a.status.Failed? && IsProviderFailure(a.status.error)
  }

  ghost predicate AttemptsValid(c: Call) {
    forall i | 0 <= i < |c.attempts| ::
      var a := c.attempts[i];
      && (a.status != Outstanding ==> a.judgement.Some?)
      && (a.late ==> a.judgement == Some(false))
      && (c.settlement == Open ==> a.status == Outstanding || (a.status.Failed? && IsProviderFailure(a.status.error)))
  }

  /** The asked providers are a prefix of the order, and while the call is open the rest of it is queued. */
  ghost predicate Core(order: seq<Provider>, c: Call) {
    && AttemptsValid(c)
    && Asked(c.attempts) <= order
    && c.pending == Unfailed(c.attempts)
    && (c.attemptTimer ==> c.settlement == Open)
    && (c.callTimer <==> c.settlement == Open)
    && (c.settlement == Open ==> Asked(c.attempts) + c.queue == order)
    && (c.settlement.RejectedByFailure? ==> Asked(c.attempts) == order && AllFailed(c.attempts))
  }

  /**
    Moreover, while the call is open some attempt is outstanding, and while providers are left the timer
    that will ask the next one is armed.
   */
  ghost predicate Inv(order: seq<Provider>, c: Call) {
    && Core(order, c)
    && (c.settlement == Open && order != [] ==> exists i ::
          0 <= i < |c.attempts| && c.attempts[i].status == Outstanding)
    && (c.settlement == Open && c.queue != [] ==> c.attemptTimer)
  }

  lemma {:induction false} UnfailedUpdate(attempts: seq<Attempt>, i: nat, a: Attempt)
    requires i < |attempts|
    ensures Unfailed(attempts[i := a]) + (if attempts[i].status.Failed? then 0 else 1)
         == Unfailed(attempts) + (if a.status.Failed? then 0 else 1)
  {
    var n := |attempts| - 1;
    if i == n {
      assert attempts[i := a][..n] == attempts[..n];
    } else {
      assert attempts[i := a][..n] == attempts[..n][i := a];
      UnfailedUpdate(attempts[..n], i, a);
    }
  }

  lemma {:induction false} UnfailedZero(attempts: seq<Attempt>)
    ensures Unfailed(attempts) == 0 <==> forall i | 0 <= i < |attempts| :: attempts[i].status.Failed?
  {
    if attempts != [] {
      var n := |attempts| - 1;
      UnfailedZero(attempts[..n]);
      assert forall i | 0 <= i < n :: attempts[..n][i] == attempts[i];
    }
  }

  lemma LaunchKeeps(order: seq<Provider>, c: Call)
    requires Core(order, c)
    ensures Core(order, LaunchNext(c))
    ensures Inv(order, c) || c.queue != [] ==> Inv(order, LaunchNext(c))
  {
    if c.queue != [] && c.settlement == Open {
      var a := Attempt(c.queue[0], Outstanding, None, false);
      var attempts := c.attempts + [a];
      assert attempts[..|c.attempts|] == c.attempts;
      assert Asked(attempts) == Asked(c.attempts) + [c.queue[0]];
      assert c.queue == [c.queue[0]] + c.queue[1..];
      assert attempts[|c.attempts|].status == Outstanding;
    } else if c.settlement == Open && Inv(order, c) && order != [] {
      assert LaunchNext(c).attempts == c.attempts;
    }
  }

  lemma StartKeeps(order: seq<Provider>, health: map<Provider, Health>)
    ensures Inv(order, Start(order, health))
  {
    var c := Call(order, [], 0, Open, None, false, true, health);
    assert Asked([]) + order == order;
    LaunchKeeps(order, c);
  }

  /** An attempt changes its status and is judged, the asked providers stay. */
  lemma Replaced(attempts: seq<Attempt>, i: nat, a: Attempt)
    requires i < |attempts| && a.provider == attempts[i].provider
    ensures Asked(attempts[i := a]) == Asked(attempts)
  {
  }

  lemma FailureKeeps(order: seq<Provider>, c: Call, i: nat, error: Error, now: nat)
    requires Inv(order, c) && i < |c.attempts| && c.attempts[i].status == Outstanding && IsProviderFailure(error)
    ensures var d := Judge(WithStatus(c, i, Failed(error)).(pending := c.pending - 1), i, false, now);
            Core(order, d) && d.settlement == c.settlement && d.queue == c.queue
  {
    var d := Judge(WithStatus(c, i, Failed(error)).(pending := c.pending - 1), i, false, now);
    Replaced(c.attempts, i, d.attempts[i]);
    UnfailedUpdate(c.attempts, i, d.attempts[i]);
    assert d.attempts == c.attempts[i := d.attempts[i]];
  }

  lemma ErrorKeeps(order: seq<Provider>, c: Call, i: nat, error: Error, now: nat)
    requires Inv(order, c) && i < |c.attempts| && c.attempts[i].status == Outstanding && IsProviderFailure(error)
    ensures Inv(order, OnError(c, i, error, now))
  {
    FailureKeeps(order, c, i, error, now);
    var d := Judge(WithStatus(c, i, Failed(error)).(pending := c.pending - 1), i, false,
        now).(lastFailure := Some(error));
    if d.queue != [] {
      LaunchKeeps(order, d);
    } else {
      UnfailedZero(d.attempts);
    }
  }

  /** One attempt has another status and judgement, and everything else is as it was. */
  lemma ChangedAttempts(order: seq<Provider>, c: Call, i: nat, a: Attempt)
    requires Core(order, c) && i < |c.attempts| && a.provider == c.attempts[i].provider
    requires (a.status != Outstanding ==> a.judgement.Some?) && (a.late ==> a.judgement == Some(false))
    requires c.settlement != Open && !c.settlement.RejectedByFailure?
    ensures Core(order, c.(attempts := c.attempts[i := a], pending := Unfailed(c.attempts[i := a])))
  {
    Replaced(c.attempts, i, a);
  }

  lemma NotAllFailed(order: seq<Provider>, c: Call, i: nat)
    requires Core(order, c) && i < |c.attempts| && !c.attempts[i].status.Failed?
    ensures !c.settlement.RejectedByFailure?
  {
    assert c.attempts[i] in c.attempts;
  }

  /** An answer, in a call that is closed by it. */
  lemma AnswerKeeps(order: seq<Provider>, c: Call, i: nat, status: Status, now: nat, settlement: Settlement)
    requires Inv(order, c) && i < |c.attempts| && c.attempts[i].status == Outstanding
    requires status != Outstanding && settlement != Open && !settlement.RejectedByFailure?
    ensures var pending := if status.Failed? then c.pending - 1 else c.pending;
            Inv(order, Settle(Judge(WithStatus(c, i, status).(pending := pending), i, true, now), settlement))
  {
    var closed := Settle(c, settlement);
    var pending := if status.Failed? then c.pending - 1 else c.pending;
    var d := Settle(Judge(WithStatus(c, i, status).(pending := pending), i, true, now), settlement);
    UnfailedUpdate(c.attempts, i, d.attempts[i]);
    assert d.attempts == c.attempts[i := d.attempts[i]];
    NotAllFailed(order, c, i);
    ChangedAttempts(order, closed, i, d.attempts[i]);
  }

  lemma SlowKeeps(order: seq<Provider>, c: Call, i: nat, now: nat)
    requires Inv(order, c) && i < |c.attempts| && c.attempts[i].judgement.None?
    ensures Inv(order, OnSlow(c, i, now))
  {
    var d := OnSlow(c, i, now);
    Replaced(c.attempts, i, d.attempts[i]);
    UnfailedUpdate(c.attempts, i, d.attempts[i]);
    assert d.attempts == c.attempts[i := d.attempts[i]];
    if c.settlement == Open && order != [] {
      var k :| 0 <= k < |c.attempts| && c.attempts[k].status == Outstanding;
      assert d.attempts[k].status == Outstanding;
    }
  }

  lemma StepKeeps(order: seq<Provider>, c: Call, e: Event)
    requires Inv(order, c) && Enabled(c, e)
    ensures Inv(order, Apply(c, e))
  {
    match e
    case Result(i, result, now) => AnswerKeeps(order, c, i, Answered, now, Resolved(result));
    case Errs(i, error, now) =>
      if IsProviderFailure(error) {
        ErrorKeeps(order, c, i, error, now);
      } else {
        AnswerKeeps(order, c, i, Failed(error), now, RejectedByAnswer(error));
      }
    case Slow(i, now) => SlowKeeps(order, c, i, now);
    case AttemptTimer => LaunchKeeps(order, c);
    case CallTimer =>
  }

  // ------------------------------------------------------------------ what every run keeps

  /** The same attempt later: its judgement, once made, is final. */
  ghost predicate Later(a: Attempt, b: Attempt) {
    b.provider == a.provider && (a.judgement.Some? ==> b.judgement == a.judgement) && (a.late ==> b.late)
  }

  lemma ErrorRemembers(c: Call, i: nat, error: Error, now: nat, k: nat)
    requires i < |c.attempts| && k < |c.attempts|
    ensures k < |OnError(c, i, error, now).attempts| && Later(c.attempts[k], OnError(c, i, error, now).attempts[k])
  {
    var d := Judge(WithStatus(c, i, Failed(error)).(pending := c.pending - 1), i, !IsProviderFailure(error), now);
    assert k < |d.attempts| && Later(c.attempts[k], d.attempts[k]);
    assert d.attempts <= OnError(c, i, error, now).attempts;
  }

  /** One event keeps what was recorded of any attempt. */
  lemma StepRemembers(c: Call, e: Event, k: nat)
    requires Enabled(c, e) && k < |c.attempts|
    ensures k < |Apply(c, e).attempts| && Later(c.attempts[k], Apply(c, e).attempts[k])
  {
    if e.Errs? {
      ErrorRemembers(c, e.i, e.error, e.now, k);
    }
  }

  /** The health records an event writes: none, or those of the one attempt that it judges. */
  lemma StepJudges(c: Call, e: Event)
    requires Enabled(c, e)
    ensures Apply(c, e).health == match e
      case Result(i, _, now) => if c.attempts[i].judgement.None?
          then Recorded(c.health, c.attempts[i].provider, true, now) else c.health
      case Errs(i, error, now) =>
        if c.attempts[i].judgement.None? then Recorded(c.health, c.attempts[i].provider, !IsProviderFailure(error), now)
            else c.health
      case Slow(i, now) => Recorded(c.health, c.attempts[i].provider, false, now)
      case _ => c.health
  {
  }

  // ------------------------------------------------------------------ what an event does, exactly

  /** The codes by which a provider fails rather than answers. */
  lemma ProviderFailureCodes(error: Error)
    ensures IsProviderFailure(error)
       <==> error.code == "SERVER_ERROR" || error.code == "TIMEOUT" || error.code == "NETWORK_ERROR"
            || error.code == "UNKNOWN_ERROR"
  {
    assert PROVIDER_FAILURES[0] == "SERVER_ERROR" && PROVIDER_FAILURES[1] == "TIMEOUT";
    assert PROVIDER_FAILURES[2] == "NETWORK_ERROR" && PROVIDER_FAILURES[3] == "UNKNOWN_ERROR";
  }

  /** The next provider is due: the call is open, providers are left, and a timer fires or a provider fails. */
  ghost predicate AsksNext(order: seq<Provider>, c: Call, e: Event) {
    && c.settlement == Open && |c.attempts| < |order|
    && (e.AttemptTimer? || (e.Errs? && IsProviderFailure(e.error)))
  }

  /** What an event notes about the attempt that it concerns: the reply, and the first judgement. */
  ghost predicate NotedIn(a: Attempt, b: Attempt, e: Event)
    requires e.Result? || e.Errs? || e.Slow?
  {
    && b.provider == a.provider
    && b.status == (match e case Result(_, _, _) => Answered case Errs(_, error, _) => Failed(error) case _ => a.status)
    && b.judgement == (if a.judgement.Some? then a.judgement
                       else Some(e.Result? || (e.Errs? && !IsProviderFailure(e.error))))
    && b.late == (a.late || e.Slow?)
  }

  /** The attempts so far are as they were, except for what is noted in the one concerned. */
  ghost predicate AttemptsNoted(c: Call, d: Call, e: Event) {
    && |c.attempts| <= |d.attempts|
    && forall k | 0 <= k < |c.attempts| ::
         if (e.Result? || e.Errs? || e.Slow?) && e.i == k then NotedIn(c.attempts[k], d.attempts[k], e)
         else d.attempts[k] == c.attempts[k]
  }

  lemma ErrorAsks(order: seq<Provider>, c: Call, i: nat, error: Error, now: nat)
    requires Inv(order, c) && i < |c.attempts| && c.attempts[i].status == Outstanding
    ensures AsksExactly(order, c, Errs(i, error, now))
  {
    var d := Judge(WithStatus(c, i, Failed(error)).(pending := c.pending - 1), i, !IsProviderFailure(error), now);
    assert |d.attempts| == |c.attempts| && AttemptsNoted(c, d, Errs(i, error, now));
    QueueIsRest(order, c);
  }

  lemma QueueIsRest(order: seq<Provider>, c: Call)
    requires Inv(order, c)
    ensures c.settlement == Open ==> |c.attempts| <= |order| && c.queue == order[|c.attempts|..]
  {
  }

  /**
    The attempts after an event: one more exactly if the next provider is due, and that is the next of
    the order, with the timer for the one after it armed.
   */
  ghost predicate AsksExactly(order: seq<Provider>, c: Call, e: Event)
    requires Enabled(c, e)
  {
    var d := Apply(c, e);
    && AttemptsNoted(c, d, e)
    && if AsksNext(order, c, e) then
         && |d.attempts| == |c.attempts| + 1 && d.attemptTimer
         && d.attempts[|c.attempts|] == Attempt(order[|c.attempts|], Outstanding, None, false)
       else |d.attempts| == |c.attempts|
  }

  lemma StepAsks(order: seq<Provider>, c: Call, e: Event)
    requires Inv(order, c) && Enabled(c, e)
    ensures AsksExactly(order, c, e)
  {
    if e.Errs? {
      ErrorAsks(order, c, e.i, e.error, e.now);
    } else if e.AttemptTimer? {
      QueueIsRest(order, c);
    }
  }

  /** All providers were asked, and all but attempt `i` have failed. */
  ghost predicate OnlyLeft(order: seq<Provider>, c: Call, i: nat) {
    |c.attempts| == |order| && forall k | 0 <= k < |c.attempts| && k != i :: c.attempts[k].status.Failed?
  }

  /** How an open call stands after an event. */
  ghost function SettledAs(order: seq<Provider>, c: Call, e: Event): Settlement {
    match e
    case Result(_, result, _) => Resolved(result)
    case Errs(i, error, _) =>
      if !IsProviderFailure(error) then RejectedByAnswer(error)
      else if OnlyLeft(order, c, i) then RejectedByFailure(error)
      else Open
    case CallTimer => TimedOut(c.lastFailure)
    case _ => Open
  }

  lemma FailureSettles(order: seq<Provider>, c: Call, i: nat, error: Error, now: nat)
    requires Inv(order, c) && i < |c.attempts| && c.attempts[i].status == Outstanding && IsProviderFailure(error)
    requires c.settlement == Open
    ensures OnError(c, i, error, now).settlement == if OnlyLeft(order, c, i) then RejectedByFailure(error) else Open
  {
    var d := Judge(WithStatus(c, i, Failed(error)).(pending := c.pending - 1), i, false, now);
    UnfailedUpdate(c.attempts, i, d.attempts[i]);
    assert d.attempts == c.attempts[i := d.attempts[i]];
    UnfailedZero(d.attempts);
    QueueIsRest(order, c);
    assert forall k | 0 <= k < |c.attempts| && k != i :: d.attempts[k].status == c.attempts[k].status;
  }

  /** An event settles an open call as it should, a settled one not at all, and only a provider's failure is kept. */
  lemma StepSettles(order: seq<Provider>, c: Call, e: Event)
    requires Inv(order, c) && Enabled(c, e)
    ensures Apply(c, e).settlement == if c.settlement == Open then SettledAs(order, c, e) else c.settlement
    ensures Apply(c, e).lastFailure
         == if e.Errs? && IsProviderFailure(e.error) then Some(e.error) else c.lastFailure
  {
    if e.Errs? && IsProviderFailure(e.error) && c.settlement == Open {
      FailureSettles(order, c, e.i, e.error, e.now);
    }
  }

  ghost predicate IsRun(order: seq<Provider>, health: map<Provider, Health>, calls: seq<Call>, events: seq<Event>) {
    && |calls| == |events| + 1
    && calls[0] == Start(order, health)
    && forall i | 0 <= i < |events| :: Enabled(calls[i], events[i]) && calls[i + 1] == Apply(calls[i], events[i])
  }

  lemma {:induction false} ReachableValid(order: seq<Provider>, health: map<Provider, Health>, calls: seq<Call>,
                                          events: seq<Event>, i: nat)
    requires IsRun(order, health, calls, events) && i < |calls|
    ensures Inv(order, calls[i])
  {
    if i == 0 {
      StartKeeps(order, health);
    } else {
      ReachableValid(order, health, calls, events, i - 1);
      StepKeeps(order, calls[i - 1], events[i - 1]);
    }
  }

  lemma {:induction false} SettledForGood(order: seq<Provider>, health: map<Provider, Health>, calls: seq<Call>,
                                          events: seq<Event>, i: nat, j: nat)
    requires IsRun(order, health, calls, events) && i <= j < |calls|
    requires calls[i].settlement != Open
    ensures calls[j].settlement == calls[i].settlement
  {
    if i < j {
      SettledForGood(order, health, calls, events, i, j - 1);
    }
  }

  lemma {:induction false} JudgedForGood(
      order: seq<Provider>, health: map<Provider, Health>, calls: seq<Call>, events: seq<Event>, i: nat, j: nat, k: nat)
    requires IsRun(order, health, calls, events) && i <= j < |calls| && k < |calls[i].attempts|
    ensures k < |calls[j].attempts| && Later(calls[i].attempts[k], calls[j].attempts[k])
  {
    if i < j {
      JudgedForGood(order, health, calls, events, i, j - 1, k);
      StepRemembers(calls[j - 1], events[j - 1], k);
    }
  }

  /**
    A call over at least one provider, at any point of any run: while it is open an attempt is
    outstanding and the call timer is armed; providers are asked in the health order; a rejection
    by provider failures means every provider was asked and failed that way.
   */
  lemma CallIsServed(order: seq<Provider>, health: map<Provider, Health>, calls: seq<Call>, events: seq<Event>, i: nat)
    requires IsRun(order, health, calls, events) && i < |calls| && order != []
    ensures var c := calls[i];
      && (c.settlement == Open ==> c.callTimer && exists k ::
          0 <= k < |c.attempts| && c.attempts[k].status == Outstanding)
      && (c.settlement == Open && |c.attempts| < |order| ==> c.attemptTimer)
      && Asked(c.attempts) <= order
      && (c.settlement.RejectedByFailure? ==>
            |c.attempts| == |order| && forall a <- c.attempts :: a.status.Failed? && IsProviderFailure(a.status.error))
  {
    ReachableValid(order, health, calls, events, i);
  }

  /** The first answer wins: it settles an open call, and nothing that happens later changes that. */
  lemma FirstAnswerWins(order: seq<Provider>, health: map<Provider, Health>, calls: seq<Call>, events: seq<Event>,
                        i: nat, j: nat)
    requires IsRun(order, health, calls, events) && i < j < |calls| && calls[i].settlement == Open
    requires events[i].Result? || (events[i].Errs? && !IsProviderFailure(events[i].error))
    ensures calls[j].settlement == if events[i].Result? then Resolved(events[i].result)
        else RejectedByAnswer(events[i].error)
  {
    SettledForGood(order, health, calls, events, i + 1, j);
  }

  /** An answer after the attempt's slow timer, be it a result or an error, never counts as a success. */
  lemma LateIsNoSuccess(order: seq<Provider>, health: map<Provider, Health>, calls: seq<Call>, events: seq<Event>,
                        i: nat, j: nat)
    requires IsRun(order, health, calls, events) && i < j < |calls|
    requires events[i].Slow? && (events[j - 1].Result? || events[j - 1].Errs?) && events[j - 1].i == events[i].i
    ensures calls[j].health == calls[j - 1].health
    ensures events[i].i < |calls[j].attempts| && calls[j].attempts[events[i].i].judgement == Some(false)
  {
    var k := events[i].i;
    assert calls[i + 1].attempts[k].judgement == Some(false);
    JudgedForGood(order, health, calls, events, i + 1, j - 1, k);
    JudgedForGood(order, health, calls, events, i + 1, j, k);
    StepJudges(calls[j - 1], events[j - 1]);
  }

  /**
    In every run, as long as the call is open and providers are left, the attempt timer is armed; when
    it fires exactly the next provider of the order is asked, and the timer is armed again.
   */
  lemma AlwaysHedged(order: seq<Provider>, health: map<Provider, Health>, calls: seq<Call>, events: seq<Event>, i: nat)
    requires IsRun(order, health, calls, events) && i < |calls|
    requires calls[i].settlement == Open && |calls[i].attempts| < |order|
    ensures Enabled(calls[i], AttemptTimer)
    ensures i < |events| && events[i] == AttemptTimer ==>
      && calls[i + 1].settlement == Open && calls[i + 1].attemptTimer
      && calls[i + 1].attempts
           == calls[i].attempts + [Attempt(order[|calls[i].attempts|], Outstanding, None, false)]
  {
    ReachableValid(order, health, calls, events, i);
    QueueIsRest(order, calls[i]);
    if i < |events| && events[i] == AttemptTimer {
      StepAsks(order, calls[i], events[i]);
      StepSettles(order, calls[i], events[i]);
    }
  }

  /** The last provider failure among the first `i` events. */
  ghost function LastFailure(events: seq<Event>, i: nat): Option<Error>
    requires i <= |events|
  {
    if i == 0 then None
    else if events[i - 1].Errs? && IsProviderFailure(events[i - 1].error) then Some(events[i - 1].error)
    else LastFailure(events, i - 1)
  }

  lemma {:induction false} RemembersLastFailure(order: seq<Provider>, health: map<Provider, Health>, calls: seq<Call>,
                                                events: seq<Event>, i: nat)
    requires IsRun(order, health, calls, events) && i < |calls|
    ensures calls[i].lastFailure == LastFailure(events, i)
  {
    if i > 0 {
      RemembersLastFailure(order, health, calls, events, i - 1);
      ReachableValid(order, health, calls, events, i - 1);
      StepSettles(order, calls[i - 1], events[i - 1]);
    }
  }

  /** A call that runs out of time is rejected with the last failure of a provider, if there was one. */
  lemma TimeoutTellsLastFailure(order: seq<Provider>, health: map<Provider, Health>, calls: seq<Call>,
                                events: seq<Event>, i: nat, j: nat)
    requires IsRun(order, health, calls, events) && i < j < |calls| && events[i] == CallTimer
    ensures calls[j].settlement == TimedOut(LastFailure(events, i))
  {
    ReachableValid(order, health, calls, events, i);
    RemembersLastFailure(order, health, calls, events, i);
    StepSettles(order, calls[i], events[i]);
    SettledForGood(order, health, calls, events, i + 1, j);
  }

  // ------------------------------------------------------------------ the class

  /** One call of `performWithFailover`. */
  class FailoverCall {
    var queue: seq<Provider>
    var attempts: seq<Attempt>
    var pending: int
    var settlement: Settlement
    var lastFailure: Option<Error>
    var attemptTimer: bool
    var callTimer: bool
    const health: ProviderHealth

    ghost function Value(): Call
      reads this, health
    {
      Call(queue, attempts, pending, settlement, lastFailure, attemptTimer, callTimer, health.states)
    }

    constructor (order: seq<Provider>, health: ProviderHealth)
      ensures this.health == health && Value() == Start(order, health.states)
    {
      this.health := health;
      queue, attempts, pending, settlement, lastFailure := order, [], 0, Open, None;
      attemptTimer, callTimer := false, true;
      new;
      LaunchNextProvider();
    }

    method SettleWith(s: Settlement)
      modifies this
      ensures Value() == Settle(old(Value()), s)
    {
      if settlement != Open {
        return;
      }
      settlement := s;
      attemptTimer, callTimer := false, false;
    }

    method LaunchNextProvider()
      modifies this
      ensures Value() == LaunchNext(old(Value()))
    {
      attemptTimer := false;
      if queue == [] {
        return;
      }
      var provider := queue[0];
      queue := queue[1..];
      if settlement != Open {
        return;
      }
      pending := pending + 1;
      attemptTimer := true;
      attempts := attempts + [Attempt(provider, Outstanding, None, false)];
    }

    method JudgeAttempt(i: nat, answered: bool, now: nat)
      requires i < |attempts|
      modifies this, health
      ensures Value() == Judge(old(Value()), i, answered, now)
    {
      if attempts[i].judgement.Some? {
        return;
      }
      attempts := attempts[i := attempts[i].(judgement := Some(answered))];
      if answered {
        health.RecordSuccess(attempts[i].provider);
      } else {
        health.RecordFailure(attempts[i].provider, now);
      }
    }

    method HandleResult(i: nat, result: string, now: nat)
      requires i < |attempts|
      modifies this, health
      ensures Value() == OnResult(old(Value()), i, result, now)
    {
      attempts := attempts[i := attempts[i].(status := Answered)];
      JudgeAttempt(i, true, now);
      SettleWith(Resolved(result));
    }

    method HandleError(i: nat, error: Error, now: nat)
      requires i < |attempts|
      modifies this, health
      ensures Value() == OnError(old(Value()), i, error, now)
    {
      attempts := attempts[i := attempts[i].(status := Failed(error))];
      pending := pending - 1;
      if !IsProviderFailure(error) {
        JudgeAttempt(i, true, now);
        SettleWith(RejectedByAnswer(error));
        return;
      }
      JudgeAttempt(i, false, now);
      lastFailure := Some(error);
      if queue != [] {
        LaunchNextProvider();
      } else if pending == 0 {
        SettleWith(RejectedByFailure(error));
      }
    }

    method HandleSlow(i: nat, now: nat)
      requires i < |attempts| && attempts[i].judgement.None?
      modifies this, health
      ensures Value() == OnSlow(old(Value()), i, now)
    {
      attempts := attempts[i := attempts[i].(late := true)];
      JudgeAttempt(i, false, now);
    }

    method HandleCallTimer()
      modifies this
      ensures Value() == OnCallTimer(old(Value()))
    {
      SettleWith(TimedOut(lastFailure));
    }
  }
}
