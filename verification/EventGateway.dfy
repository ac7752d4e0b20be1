/**
  `initEventGateway.ts` over `ObservableEventEmitter.ts`, for the gateway's event: a producer that is
  started and stopped as listeners come and go, also while their callbacks run.
 */
module EventGateways {
  import opened Wrappers

  /** What is registered: a caller's listener itself, or the wrapper made for one call of `once`. */
  datatype Fn = Plain(listener: nat) | Wrapper(listener: nat, serial: nat)

  datatype Entry = Entry(fn: Fn, once: bool)

  /** An emission under way: who is still to be called, and whose callback is running. */
  datatype Frame = Frame(rest: seq<Entry>, running: Option<Entry>)

  datatype Call = Started | Stopped

  /**
    `producing` says that `producer` is not undefined; `log` are the calls of `start` and `stop`,
    `calls` those of listeners.
   */
  datatype State = State(
    listeners: seq<Entry>,
    stack: seq<Frame>,
    serial: nat,
    producing: bool,
    log: seq<Call>,
    calls: seq<Fn>
  )

  // ------------------------------------------------------------------ steps

  /** What the emitter library removes: every entry of the function, or only those made by its own `once`. */
  function Without(listeners: seq<Entry>, fn: Fn, once: bool): seq<Entry> {
    if listeners == [] then []
    else
      var rest := Without(listeners[1..], fn, once);
      if listeners[0].fn == fn && (!once || listeners[0].once) then rest else [listeners[0]] + rest
  }

  /** The observer of added listeners; `gives` says whether `start` returns something. */
  function OnAdded(s: State, gives: bool): State {
    if s.producing then s else s.(producing := gives, log := s.log + [Started])
  }

  function OnRemoved(s: State): State {
    if s.producing && s.listeners == [] then s.(producing := false, log := s.log + [Stopped]) else s
  }

  function Init(listeners: seq<Entry>, serial: nat, gives: bool): State {
    var s := State(listeners, [], serial, false, [], []);
    if listeners != [] then OnAdded(s, gives) else s
  }

  datatype Event =
    | On(listener: nat)
    | Once(listener: nat)
    | Off(listener: nat)
    | RemoveAll
    | Emit
    | CallNext
    | Return
    | EndEmit

  /** Listeners and producers act when nothing is emitted, or from the callback that is running. */
  predicate Free(s: State) { s.stack == [] || s.stack[|s.stack| - 1].running.Some? }

  predicate Enabled(s: State, e: Event) {
    match e
    case CallNext => s.stack != [] && s.stack[|s.stack| - 1].running.None? && s.stack[|s.stack| - 1].rest != []
    case Return => s.stack != [] && s.stack[|s.stack| - 1].running.Some?
    case EndEmit => s.stack != [] && s.stack[|s.stack| - 1].running.None? && s.stack[|s.stack| - 1].rest == []
    case _ => Free(s)
  }

  function WithTop(s: State, frame: Frame): State
    requires s.stack != []
  {
    s.(stack := s.stack[|s.stack| - 1 := frame])
  }

  /** An emission calls the listeners there were when it began; one of `once` is removed before its call. */
  function AfterCallNext(s: State): State
    requires Enabled(s, CallNext)
  {
    var top := s.stack[|s.stack| - 1];
    var entry := top.rest[0];
    var t := WithTop(s, Frame(top.rest[1..], Some(entry))).(calls := s.calls + [entry.fn]);
    if entry.once then t.(listeners := Without(s.listeners, entry.fn, true)) else t
  }

  /** The wrapper made by `once` notifies the observer after its listener has returned. */
  function AfterReturn(s: State): State
    requires Enabled(s, Return)
  {
    var top := s.stack[|s.stack| - 1];
    var t := WithTop(s, Frame(top.rest, None));
    if top.running.value.once then OnRemoved(t) else t
  }

  function Apply(s: State, gives: bool, e: Event): State
    requires Enabled(s, e)
  {
    match e
    case On(l) => OnAdded(s.(listeners := s.listeners + [Entry(Plain(l), false)]), gives)
    case Once(l) =>
      var wrapper := Wrapper(l, s.serial);
      OnAdded(s.(listeners := s.listeners + [Entry(wrapper, true)], serial := s.serial + 1), gives)
    case Off(l) => OnRemoved(s.(listeners := Without(s.listeners, Plain(l), false)))
    case RemoveAll => if s.listeners == [] then s else OnRemoved(s.(listeners := []))
    case Emit => s.(stack := s.stack + [Frame(s.listeners, None)])
    case CallNext => AfterCallNext(s)
    case Return => AfterReturn(s)
    case EndEmit => s.(stack := s.stack[..|s.stack| - 1])
  }

  // ------------------------------------------------------------------ the invariant

  /** The callback of some `once` listener is running. */
  ghost predicate OnceInFlight(s: State) {
    exists k :: 0 <= k < |s.stack| && s.stack[k].running.Some? && s.stack[k].running.value.once
  }

  /** The calls are start, stop, start and so on. */
  predicate Alternates(log: seq<Call>) {
    forall k | 0 <= k < |log| :: log[k] == if k % 2 == 0 then Started else Stopped
  }

  ghost predicate Inv(s: State) {
    && (s.listeners != [] ==> s.producing)
    && (s.producing && s.listeners == [] ==> OnceInFlight(s))
    && Alternates(s.log)
    && (s.producing <==> |s.log| % 2 == 1)
  }

  lemma CallNextKeeps(s: State)
    requires Inv(s) && Enabled(s, CallNext)
    ensures Inv(AfterCallNext(s))
  {
    var t := AfterCallNext(s);
    var n := |s.stack| - 1;
    assert t.stack[n].running == Some(s.stack[n].rest[0]);
    if OnceInFlight(s) {
      var k :| 0 <= k < |s.stack| && s.stack[k].running.Some? && s.stack[k].running.value.once;
      assert t.stack[k] == s.stack[k];
    }
    if s.listeners == [] {
      assert t.listeners == [];
    }
  }

  lemma ReturnKeeps(s: State)
    requires Inv(s) && Enabled(s, Return)
    ensures Inv(AfterReturn(s))
  {
    var t := AfterReturn(s);
    var n := |s.stack| - 1;
    if t.producing && t.listeners == [] {
      var k :| 0 <= k < |s.stack| && s.stack[k].running.Some? && s.stack[k].running.value.once;
      assert k != n && t.stack[k] == s.stack[k];
    }
  }

  lemma SameFlight(s: State, stack: seq<Frame>)
    requires OnceInFlight(s)
    requires s.stack <= stack || (stack <= s.stack && |stack| == |s.stack| - 1 && s.stack[|stack|].running.None?)
    ensures OnceInFlight(s.(stack := stack))
  {
    var k :| 0 <= k < |s.stack| && s.stack[k].running.Some? && s.stack[k].running.value.once;
    assert stack[k] == s.stack[k];
  }

  lemma StepKeeps(s: State, e: Event)
    requires Inv(s) && Enabled(s, e)
    ensures Inv(Apply(s, true, e))
  {
    match e
    case CallNext => CallNextKeeps(s);
    case Return => ReturnKeeps(s);
    case Emit =>
      if OnceInFlight(s) {
        SameFlight(s, s.stack + [Frame(s.listeners, None)]);
      }
    case EndEmit =>
      if OnceInFlight(s) {
        SameFlight(s, s.stack[..|s.stack| - 1]);
      }
    case _ =>
      if OnceInFlight(s) {
        SameFlight(s, s.stack);
      }
      var t := Apply(s, true, e);
      assert t.stack == s.stack;
      if OnceInFlight(s) {
        assert OnceInFlight(t);
      }
  }

  // ------------------------------------------------------------------ runs

  ghost predicate IsRun(gives: bool, states: seq<State>, events: seq<Event>) {
    && |states| == |events| + 1
    && (exists listeners, serial :: states[0] == Init(listeners, serial, gives))
    && forall i | 0 <= i < |events| ::
        Enabled(states[i], events[i]) && states[i + 1] == Apply(states[i], gives, events[i])
  }

  lemma {:induction false} ReachableValid(states: seq<State>, events: seq<Event>, i: nat)
    requires IsRun(true, states, events) && i < |states|
    ensures Inv(states[i])
  {
    if i > 0 {
      ReachableValid(states, events, i - 1);
      StepKeeps(states[i - 1], events[i - 1]);
    }
  }

  /** As the documentation of the gateway promises. */
  ghost predicate KeepsPromise(s: State) {
    && Alternates(s.log)
    && ((|s.log| % 2 == 1 <==> s.listeners != []) || OnceInFlight(s))
  }

  /**
    In every run the producer is started and stopped in turn, and it runs if and only if the event
    has listeners, except while the callback of a `once` listener runs, when it may still run after
    the last listener is gone.
   */
  lemma RunsWhileListenedTo(states: seq<State>, events: seq<Event>, i: nat)
    requires IsRun(true, states, events) && i < |states|
    ensures KeepsPromise(states[i])
    ensures states[i].stack == [] ==> (states[i].producing <==> states[i].listeners != [])
    ensures states[i].listeners != [] ==> states[i].producing
  {
    ReachableValid(states, events, i);
  }

  /** The promise holds in all runs exactly if `start` returns something other than undefined. */
  lemma NeedsAProducer(gives: bool)
    ensures (forall states: seq<State>, events: seq<Event>, i: nat | IsRun(gives, states, events) && i < |states| ::
        KeepsPromise(states[i])) <==> gives
  {
    if gives {
      forall states: seq<State>, events: seq<Event>, i: nat | IsRun(true, states, events)
          && i < |states| ensures KeepsPromise(states[i]) {
        RunsWhileListenedTo(states, events, i);
      }
    } else {
      var s0 := Init([], 0, false);
      var s1 := Apply(s0, false, On(1));
      var s2 := Apply(s1, false, On(2));
      assert IsRun(false, [s0, s1, s2], [On(1), On(2)]);
      assert [s0, s1, s2][2].log == [Started, Started];
      assert !KeepsPromise([s0, s1, s2][2]);
    }
  }

  // ------------------------------------------------------------------ once means once

  /** Exactly the entries of `once` are wrappers, and each wrapper is registered once. */
  ghost predicate Made(listeners: seq<Entry>, serial: nat) {
    && (forall e <- listeners :: (e.once <==> e.fn.Wrapper?) && (e.fn.Wrapper? ==> e.fn.serial < serial))
    && forall i, j | 0 <= i < j < |listeners| :: listeners[i].fn.Wrapper? ==> listeners[i].fn != listeners[j].fn
  }

  predicate Removes(e: Entry, fn: Fn, once: bool) { e.fn == fn && (!once || e.once) }

  /** Exactly the entries that are not removed stay. */
  lemma {:induction false} WithoutKeeps(listeners: seq<Entry>, fn: Fn, once: bool, e: Entry)
    ensures e in Without(listeners, fn, once) <==> e in listeners && !Removes(e, fn, once)
  {
    if listeners != [] {
      WithoutKeeps(listeners[1..], fn, once, e);
      assert listeners == [listeners[0]] + listeners[1..];
    }
  }

  lemma {:induction false} WithoutMade(listeners: seq<Entry>, fn: Fn, once: bool, serial: nat)
    requires Made(listeners, serial)
    ensures Made(Without(listeners, fn, once), serial)
  {
    if listeners != [] {
      var first, rest := listeners[0], Without(listeners[1..], fn, once);
      WithoutMade(listeners[1..], fn, once, serial);
      forall e <- rest ensures e in listeners[1..] {
        WithoutKeeps(listeners[1..], fn, once, e);
      }
      assert forall k | 0 <= k < |rest| :: rest[k] in listeners[1..];
    }
  }

  /** `off` removes every copy of a listener that `on` added, and nothing that was added with `once`. */
  lemma OffSparesOnce(listeners: seq<Entry>, serial: nat, l: nat, e: Entry)
    requires Made(listeners, serial)
    ensures e in Without(listeners, Plain(l), false) <==> e in listeners && e != Entry(Plain(l), false)
  {
    WithoutKeeps(listeners, Plain(l), false, e);
  }

  /** How often a function is among the entries. */
  ghost function Copies(listeners: seq<Entry>, fn: Fn): nat {
    if listeners == [] then 0 else (if listeners[0].fn == fn then 1 else 0) + Copies(listeners[1..], fn)
  }

  /** How often the emissions under way will still call it. */
  ghost function Due(stack: seq<Frame>, fn: Fn): nat {
    if stack == [] then 0 else Due(stack[..|stack| - 1], fn) + Copies(stack[|stack| - 1].rest, fn)
  }

  ghost function TimesCalled(calls: seq<Fn>, fn: Fn): nat {
    if calls == [] then 0 else TimesCalled(calls[..|calls| - 1], fn) + (if calls[|calls| - 1] == fn then 1 else 0)
  }

  lemma DueOnTop(stack: seq<Frame>, top: Frame, fn: Fn)
    ensures Due(stack + [top], fn) == Due(stack, fn) + Copies(top.rest, fn)
  {
    assert (stack + [top])[..|stack|] == stack;
  }

  /** The calls made, and those still to be made by the emissions under way. */
  ghost function Account(s: State, fn: Fn): nat { TimesCalled(s.calls, fn) + Due(s.stack, fn) }

  /** Only the emission on top is touched. */
  lemma TopChanges(s: State, t: State, top: Frame, fn: Fn)
    requires s.stack != [] && t.stack == s.stack[..|s.stack| - 1] + [top]
    ensures Due(t.stack, fn) + Copies(s.stack[|s.stack| - 1].rest, fn) == Due(s.stack, fn) + Copies(top.rest, fn)
  {
    var below := s.stack[..|s.stack| - 1];
    assert s.stack == below + [s.stack[|below|]];
    DueOnTop(below, s.stack[|below|], fn);
    DueOnTop(below, top, fn);
  }

  lemma CallCounts(s: State, fn: Fn)
    requires Enabled(s, CallNext)
    ensures Account(AfterCallNext(s), fn) == Account(s, fn)
  {
    var t, top := AfterCallNext(s), s.stack[|s.stack| - 1];
    TopChanges(s, t, Frame(top.rest[1..], Some(top.rest[0])), fn);
    assert t.calls[..|s.calls|] == s.calls;
  }

  lemma ReturnCounts(s: State, fn: Fn)
    requires Enabled(s, Return)
    ensures Account(AfterReturn(s), fn) == Account(s, fn)
  {
    TopChanges(s, AfterReturn(s), Frame(s.stack[|s.stack| - 1].rest, None), fn);
  }

  /** The account grows only when an emission begins, by the copies registered then. */
  lemma StepCounts(s: State, gives: bool, e: Event, fn: Fn)
    requires Enabled(s, e)
    ensures Account(Apply(s, gives, e), fn) == Account(s, fn) + (if e.Emit? then Copies(s.listeners, fn) else 0)
  {
    match e
    case Emit => DueOnTop(s.stack, Frame(s.listeners, None), fn);
    case CallNext => CallCounts(s, fn);
    case Return => ReturnCounts(s, fn);
    case _ =>
  }

  ghost predicate Registered(listeners: seq<Entry>, fn: Fn) {
    exists e <- listeners :: e.fn == fn
  }

  lemma {:induction false} CopiesOfWrapper(listeners: seq<Entry>, serial: nat, fn: Fn)
    requires Made(listeners, serial) && fn.Wrapper?
    ensures Copies(listeners, fn) == if Registered(listeners, fn) then 1 else 0
  {
    if listeners != [] {
      CopiesOfWrapper(listeners[1..], serial, fn);
      assert listeners == [listeners[0]] + listeners[1..];
    }
  }

  lemma StepMade(s: State, gives: bool, e: Event)
    requires Made(s.listeners, s.serial) && Enabled(s, e)
    ensures Made(Apply(s, gives, e).listeners, Apply(s, gives, e).serial)
  {
    match e
    case Off(l) => WithoutMade(s.listeners, Plain(l), false, s.serial);
    case CallNext => WithoutMade(s.listeners, s.stack[|s.stack| - 1].rest[0].fn, true, s.serial);
    case _ =>
  }

  /** An emission begins at step `k` while the function is registered. */
  ghost predicate BeginsWith(states: seq<State>, events: seq<Event>, k: nat, fn: Fn)
    requires k < |events| <= |states|
  {
    events[k].Emit? && Registered(states[k].listeners, fn)
  }

  ghost function Emissions(states: seq<State>, events: seq<Event>, i: nat, fn: Fn): nat
    requires i <= |events| <= |states|
  {
    if i == 0 then 0
        else Emissions(states, events, i - 1, fn) + (if BeginsWith(states, events, i - 1, fn) then 1 else 0)
  }

  lemma {:induction false} CalledPerEmission(gives: bool, states: seq<State>, events: seq<Event>, i: nat, w: Fn)
    requires IsRun(gives, states, events) && i < |states| && Made(states[0].listeners, states[0].serial) && w.Wrapper?
    ensures Made(states[i].listeners, states[i].serial)
    ensures Account(states[i], w) == Emissions(states, events, i, w)
  {
    if i > 0 {
      CalledPerEmission(gives, states, events, i - 1, w);
      StepMade(states[i - 1], gives, events[i - 1]);
      StepCounts(states[i - 1], gives, events[i - 1], w);
      CopiesOfWrapper(states[i - 1].listeners, states[i - 1].serial, w);
    }
  }

  lemma {:induction false} NoEmission(states: seq<State>, events: seq<Event>, i: nat, fn: Fn)
    requires i <= |events| <= |states|
    ensures Emissions(states, events, i, fn) == 0 <==> forall k | 0 <= k < i :: !BeginsWith(states, events, k, fn)
  {
    if i > 0 {
      NoEmission(states, events, i - 1, fn);
    }
  }

  lemma {:induction false} AtMostOneEmission(states: seq<State>, events: seq<Event>, i: nat, fn: Fn)
    requires i <= |events| <= |states|
    ensures Emissions(states, events, i, fn) <= 1
       <==> forall j, k | 0 <= j < k < i :: !(BeginsWith(states, events, j, fn) && BeginsWith(states, events, k, fn))
  {
    if i > 0 {
      AtMostOneEmission(states, events, i - 1, fn);
      NoEmission(states, events, i - 1, fn);
      if BeginsWith(states, events, i - 1, fn) && Emissions(states, events, i - 1, fn) > 0 {
        var j :| 0 <= j < i - 1 && BeginsWith(states, events, j, fn);
        assert !forall j, k | 0 <= j < k < i ::
            !(BeginsWith(states, events, j, fn) && BeginsWith(states, events, k, fn));
      }
    }
  }

  /**
    Over every run that ends with no emission under way, a listener given to `once` has been called
    exactly as often as an emission began while it was registered. So it is called at most once if
    and only if at most one emission begins while it is registered.
   */
  lemma OnceMeansOnce(gives: bool, states: seq<State>, events: seq<Event>, w: Fn)
    requires IsRun(gives, states, events) && Made(states[0].listeners, states[0].serial) && w.Wrapper?
    requires states[|events|].stack == []
    ensures TimesCalled(states[|events|].calls, w) == Emissions(states, events, |events|, w)
    ensures TimesCalled(states[|events|].calls, w) <= 1
       <==> forall j, k | 0 <= j < k < |events| ::
           !(BeginsWith(states, events, j, w) && BeginsWith(states, events, k, w))
  {
    CalledPerEmission(gives, states, events, |events|, w);
    AtMostOneEmission(states, events, |events|, w);
  }

  // ------------------------------------------------------------------ every listener is called, in its turn

  /** How often the emissions begun so far were due to call a function: once for each copy registered then. */
  ghost function CopiesEmitted(states: seq<State>, events: seq<Event>, i: nat, fn: Fn): nat
    requires i <= |events| <= |states|
  {
    if i == 0 then 0
    else
      CopiesEmitted(states, events, i - 1, fn)
      + if events[i - 1].Emit? then Copies(states[i - 1].listeners, fn) else 0
  }

  /** Over every run, the calls made to any listener and those still due are what the emissions owed it. */
  lemma {:induction false} CalledPerCopy(gives: bool, states: seq<State>, events: seq<Event>, i: nat, fn: Fn)
    requires IsRun(gives, states, events) && i < |states|
    ensures Account(states[i], fn) == CopiesEmitted(states, events, i, fn)
    ensures states[i].stack == [] ==> TimesCalled(states[i].calls, fn) == CopiesEmitted(states, events, i, fn)
  {
    if i > 0 {
      CalledPerCopy(gives, states, events, i - 1, fn);
      StepCounts(states[i - 1], gives, events[i - 1], fn);
    }
  }

  ghost function Fns(entries: seq<Entry>): seq<Fn> {
    seq(|entries|, k requires 0 <= k < |entries| => entries[k].fn)
  }

  /** From step `i` to step `k` the emission begun at `i` is the one on top of the stack. */
  ghost predicate OnTop(states: seq<State>, i: nat, k: nat)
    requires k < |states|
  {
    forall x | i < x <= k :: |states[x].stack| == |states[i].stack| + 1
  }

  /** The emission begun at step `i` has called the first `m` of the listeners there were. */
  ghost predicate CalledFirst(states: seq<State>, i: nat, k: nat, m: nat)
    requires i < |states| && k < |states|
  {
    var entries := states[i].listeners;
    && m <= |entries| && states[k].stack != [] && states[k].stack[|states[k].stack| - 1].rest == entries[m..]
    && states[k].calls == states[i].calls + Fns(entries[..m])
  }

  lemma CallsOneMore(s: State, before: seq<Fn>, entries: seq<Entry>, m: nat)
    requires Enabled(s, CallNext) && m < |entries| && s.stack[|s.stack| - 1].rest == entries[m..]
    requires s.calls == before + Fns(entries[..m])
    ensures var t := AfterCallNext(s);
            && t.stack != [] && t.stack[|t.stack| - 1].rest == entries[m + 1..]
            && t.calls == before + Fns(entries[..m + 1])
  {
    assert entries[m..][0] == entries[m] && entries[m..][1..] == entries[m + 1..];
    assert Fns(entries[..m + 1]) == Fns(entries[..m]) + [entries[m].fn];
  }

  lemma {:induction false} CalledSoFar(gives: bool, states: seq<State>, events: seq<Event>, i: nat, k: nat)
    returns (m: nat)
    requires IsRun(gives, states, events) && i < k < |states| && events[i] == Emit && OnTop(states, i, k)
    ensures CalledFirst(states, i, k, m)
  {
    var entries := states[i].listeners;
    if k == i + 1 {
      m := 0;
      assert entries[0..] == entries && Fns(entries[..0]) == [] && states[i].calls + [] == states[i].calls;
    } else {
      m := CalledSoFar(gives, states, events, i, k - 1);
      if events[k - 1].CallNext? {
        assert m < |entries|;
        CallsOneMore(states[k - 1], states[i].calls, entries, m);
        m := m + 1;
      }
    }
  }

  /** An emission during which no other begins calls the listeners there were at its beginning, once and in order. */
  lemma CalledInOrder(gives: bool, states: seq<State>, events: seq<Event>, i: nat, j: nat)
    requires IsRun(gives, states, events) && i < j < |events| && events[i] == Emit && events[j] == EndEmit
    requires OnTop(states, i, j)
    ensures states[j + 1].calls == states[i].calls + Fns(states[i].listeners)
  {
    var m := CalledSoFar(gives, states, events, i, j);
    var entries := states[i].listeners;
    assert Enabled(states[j], EndEmit);
    assert |entries[m..]| == 0 && entries[..m] == entries;
  }

  // ------------------------------------------------------------------ who is registered

  /** The entries of `a` are among those of `b`, in the same order. */
  ghost predicate Subsequence(a: seq<Entry>, b: seq<Entry>) {
    a == [] || (b != [] && ((a[0] == b[0] && Subsequence(a[1..], b[1..])) || Subsequence(a, b[1..])))
  }

  lemma {:induction false} WithoutIsSubsequence(listeners: seq<Entry>, fn: Fn, once: bool)
    ensures Subsequence(Without(listeners, fn, once), listeners)
  {
    if listeners != [] {
      WithoutIsSubsequence(listeners[1..], fn, once);
      var rest := Without(listeners[1..], fn, once);
      assert ([listeners[0]] + rest)[1..] == rest;
    }
  }

  lemma {:induction false} SubsequenceOfItself(listeners: seq<Entry>)
    ensures Subsequence(listeners, listeners)
  {
    if listeners != [] {
      SubsequenceOfItself(listeners[1..]);
    }
  }

  /** Listeners are added last, and all that stay keep their order. */
  lemma OrderIsKept(s: State, gives: bool, e: Event)
    requires Enabled(s, e)
    ensures match e
      case On(l) => Apply(s, gives, e).listeners == s.listeners + [Entry(Plain(l), false)]
      case Once(l) => Apply(s, gives, e).listeners == s.listeners + [Entry(Wrapper(l, s.serial), true)]
      case _ => Subsequence(Apply(s, gives, e).listeners, s.listeners)
  {
    SubsequenceOfItself(s.listeners);
    match e
    case Off(l) => WithoutIsSubsequence(s.listeners, Plain(l), false);
    case CallNext => WithoutIsSubsequence(s.listeners, s.stack[|s.stack| - 1].rest[0].fn, true);
    case _ =>
  }

  lemma {:induction false} CopiesWithout(listeners: seq<Entry>, fn: Fn, once: bool, g: Fn)
    ensures g != fn ==> Copies(Without(listeners, fn, once), g) == Copies(listeners, g)
    ensures !once ==> Copies(Without(listeners, fn, once), fn) == 0
  {
    if listeners != [] {
      CopiesWithout(listeners[1..], fn, once, g);
      var rest := Without(listeners[1..], fn, once);
      assert ([listeners[0]] + rest)[1..] == rest;
    }
  }

  lemma {:induction false} CopiesAppend(listeners: seq<Entry>, e: Entry, g: Fn)
    ensures Copies(listeners + [e], g) == Copies(listeners, g) + if e.fn == g then 1 else 0
  {
    if listeners == [] {
      assert [] + [e] == [e] && [e][1..] == [];
    } else {
      assert (listeners + [e])[1..] == listeners[1..] + [e];
      CopiesAppend(listeners[1..], e, g);
    }
  }

  /** Entries of `once` that are still to be called are wrappers. */
  ghost predicate FramesMade(stack: seq<Frame>) {
    forall frame <- stack :: forall e <- frame.rest :: e.once ==> e.fn.Wrapper?
  }

  lemma StepFramesMade(s: State, gives: bool, e: Event)
    requires Made(s.listeners, s.serial) && FramesMade(s.stack) && Enabled(s, e)
    ensures FramesMade(Apply(s, gives, e).stack)
  {
    if e.CallNext? || e.Return? {
      var top := s.stack[|s.stack| - 1];
      var rest := if e.CallNext? then top.rest[1..] else top.rest;
      assert top in s.stack;
      forall frame <- Apply(s, gives, e).stack ensures forall x <- frame.rest :: x.once ==> x.fn.Wrapper? {
        assert frame.rest == rest || frame in s.stack;
      }
    }
  }

  /** The copies of a listener that `on` has added since the last `off` for it, or removal of all. */
  ghost function Added(events: seq<Event>, i: nat, l: nat, start: nat): nat
    requires i <= |events|
  {
    if i == 0 then start
    else match events[i - 1]
      case On(k) => Added(events, i - 1, l, start) + if k == l then 1 else 0
      case Off(k) => if k == l then 0 else Added(events, i - 1, l, start)
      case RemoveAll => 0
      case _ => Added(events, i - 1, l, start)
  }

  lemma PlainStep(s: State, gives: bool, e: Event, l: nat)
    requires Made(s.listeners, s.serial) && FramesMade(s.stack) && Enabled(s, e)
    ensures Copies(Apply(s, gives, e).listeners, Plain(l)) == match e
      case On(k) => Copies(s.listeners, Plain(l)) + if k == l then 1 else 0
      case Off(k) => if k == l then 0 else Copies(s.listeners, Plain(l))
      case RemoveAll => 0
      case _ => Copies(s.listeners, Plain(l))
  {
    match e
    case On(k) => CopiesAppend(s.listeners, Entry(Plain(k), false), Plain(l));
    case Once(k) => CopiesAppend(s.listeners, Entry(Wrapper(k, s.serial), true), Plain(l));
    case Off(k) => CopiesWithout(s.listeners, Plain(k), false, Plain(l));
    case CallNext =>
      var top := s.stack[|s.stack| - 1];
      assert top in s.stack && top.rest[0] in top.rest;
      CopiesWithout(s.listeners, top.rest[0].fn, true, Plain(l));
    case _ =>
  }

  /** Over every run, a listener given to `on` is registered as often as that. */
  lemma {:induction false} PlainExactly(gives: bool, states: seq<State>, events: seq<Event>, i: nat, l: nat)
    requires IsRun(gives, states, events) && i < |states| && Made(states[0].listeners, states[0].serial)
    ensures Made(states[i].listeners, states[i].serial) && FramesMade(states[i].stack)
    ensures Copies(states[i].listeners, Plain(l)) == Added(events, i, l, Copies(states[0].listeners, Plain(l)))
  {
    if i > 0 {
      PlainExactly(gives, states, events, i - 1, l);
      StepMade(states[i - 1], gives, events[i - 1]);
      StepFramesMade(states[i - 1], gives, events[i - 1]);
      PlainStep(states[i - 1], gives, events[i - 1], l);
    }
  }

  /** Wrappers still to be called are marked for removal, and one that was called is registered no more. */
  ghost predicate CalledIsGone(s: State, w: Fn)
    requires w.Wrapper?
  {
    && (forall frame <- s.stack :: forall e <- frame.rest :: e.fn == w ==> e.once && w.serial < s.serial)
    && (TimesCalled(s.calls, w) > 0 ==> w.serial < s.serial && !Registered(s.listeners, w))
  }

  lemma CalledIsRemoved(s: State, w: Fn)
    requires w.Wrapper? && Made(s.listeners, s.serial) && CalledIsGone(s, w) && Enabled(s, CallNext)
    ensures CalledIsGone(AfterCallNext(s), w)
  {
    var t := AfterCallNext(s);
    var top := s.stack[|s.stack| - 1];
    var entry := top.rest[0];
    assert top.rest == [entry] + top.rest[1..];
    assert t.calls[..|s.calls|] == s.calls;
    if entry.once {
      forall e <- t.listeners ensures e in s.listeners && !Removes(e, entry.fn, true) {
        WithoutKeeps(s.listeners, entry.fn, true, e);
      }
    }
    assert top in s.stack;
    forall frame <- t.stack ensures forall e <- frame.rest :: e.fn == w ==> e.once && w.serial < t.serial {
      assert frame == Frame(top.rest[1..], Some(entry)) || frame in s.stack;
    }
  }

  lemma ReturnKeepsGone(s: State, w: Fn)
    requires w.Wrapper? && CalledIsGone(s, w) && Enabled(s, Return)
    ensures CalledIsGone(AfterReturn(s), w)
  {
    var top := s.stack[|s.stack| - 1];
    assert top in s.stack;
    forall frame <- AfterReturn(s).stack ensures forall e <- frame.rest :: e.fn == w ==> e.once && w.serial < s.serial {
      assert frame == Frame(top.rest, None) || frame in s.stack;
    }
  }

  lemma OffKeepsGone(s: State, w: Fn, l: nat)
    requires w.Wrapper? && CalledIsGone(s, w)
    ensures CalledIsGone(OnRemoved(s.(listeners := Without(s.listeners, Plain(l), false))), w)
  {
    forall e <- Without(s.listeners, Plain(l), false) ensures e in s.listeners {
      WithoutKeeps(s.listeners, Plain(l), false, e);
    }
  }

  lemma StepKeepsGone(s: State, gives: bool, e: Event, w: Fn)
    requires w.Wrapper? && Made(s.listeners, s.serial) && CalledIsGone(s, w) && Enabled(s, e)
    ensures CalledIsGone(Apply(s, gives, e), w)
  {
    match e
    case CallNext => CalledIsRemoved(s, w);
    case Return => ReturnKeepsGone(s, w);
    case Off(l) => OffKeepsGone(s, w, l);
    case _ =>
  }

  lemma {:induction false} GoneInRun(gives: bool, states: seq<State>, events: seq<Event>, i: nat, w: Fn)
    requires IsRun(gives, states, events) && i < |states| && Made(states[0].listeners, states[0].serial) && w.Wrapper?
    ensures Made(states[i].listeners, states[i].serial) && CalledIsGone(states[i], w)
  {
    if i > 0 {
      GoneInRun(gives, states, events, i - 1, w);
      StepMade(states[i - 1], gives, events[i - 1]);
      StepKeepsGone(states[i - 1], gives, events[i - 1], w);
    }
  }

  /** Whether a wrapper that waits for its call is registered after one more event. */
  lemma OnceStep(s: State, gives: bool, e: Event, w: Fn)
    requires w.Wrapper? && Enabled(s, e) && w.serial < s.serial
    ensures Registered(s.listeners, w) && TimesCalled(Apply(s, gives, e).calls, w) == TimesCalled(s.calls, w)
        ==> (Registered(Apply(s, gives, e).listeners, w) <==> e != RemoveAll)
    ensures !Registered(s.listeners, w) ==> !Registered(Apply(s, gives, e).listeners, w)
    ensures TimesCalled(s.calls, w) <= TimesCalled(Apply(s, gives, e).calls, w)
  {
    match e
    case Off(l) => WithoutRegisters(s.listeners, Plain(l), false, w);
    case CallNext =>
      var fn := s.stack[|s.stack| - 1].rest[0].fn;
      WithoutRegisters(s.listeners, fn, true, w);
      assert AfterCallNext(s).calls[..|s.calls|] == s.calls;
    case On(l) => AddedRegisters(s.listeners, Entry(Plain(l), false), w);
    case Once(l) => AddedRegisters(s.listeners, Entry(Wrapper(l, s.serial), true), w);
    case _ =>
  }

  lemma WithoutRegisters(listeners: seq<Entry>, fn: Fn, once: bool, w: Fn)
    ensures fn != w ==> (Registered(Without(listeners, fn, once), w) <==> Registered(listeners, w))
    ensures Registered(Without(listeners, fn, once), w) ==> Registered(listeners, w)
  {
    forall e: Entry ensures e in Without(listeners, fn, once) <==> e in listeners && !Removes(e, fn, once) {
      WithoutKeeps(listeners, fn, once, e);
    }
  }

  lemma AddedRegisters(listeners: seq<Entry>, e: Entry, w: Fn)
    ensures Registered(listeners + [e], w) <==> Registered(listeners, w) || e.fn == w
  {
    assert (listeners + [e])[|listeners|] == e;
  }

  lemma OnceBegins(s: State, gives: bool, l: nat)
    requires Enabled(s, Once(l)) && CalledIsGone(s, Wrapper(l, s.serial))
    ensures var w, t := Wrapper(l, s.serial), Apply(s, gives, Once(l));
            TimesCalled(t.calls, w) == 0 && Registered(t.listeners, w) && w.serial < t.serial
  {
    AddedRegisters(s.listeners, Entry(Wrapper(l, s.serial), true), Wrapper(l, s.serial));
  }

  /** Between the two steps not all listeners are removed. */
  ghost predicate NoRemoval(events: seq<Event>, k: nat, i: nat)
    requires i <= |events|
  {
    k + 1 < i ==> events[i - 1] != RemoveAll && NoRemoval(events, k, i - 1)
  }

  ghost predicate WaitsForCall(s: State, w: Fn, spared: bool)
    requires w.Wrapper?
  {
    w.serial < s.serial && (Registered(s.listeners, w) <==> TimesCalled(s.calls, w) == 0 && spared)
  }

  lemma WaitsNext(s: State, gives: bool, e: Event, w: Fn, spared: bool)
    requires w.Wrapper? && Enabled(s, e) && WaitsForCall(s, w, spared)
    requires CalledIsGone(Apply(s, gives, e), w)
    ensures WaitsForCall(Apply(s, gives, e), w, spared && e != RemoveAll)
  {
    OnceStep(s, gives, e, w);
  }

  lemma OnceFirst(gives: bool, states: seq<State>, events: seq<Event>, k: nat)
    requires IsRun(gives, states, events) && k < |events| && Made(states[0].listeners, states[0].serial)
    requires events[k].Once?
    ensures WaitsForCall(states[k + 1], Wrapper(events[k].listener, states[k].serial), true)
  {
    GoneInRun(gives, states, events, k, Wrapper(events[k].listener, states[k].serial));
    OnceBegins(states[k], gives, events[k].listener);
  }

  lemma OnceNext(gives: bool, states: seq<State>, events: seq<Event>, i: nat, w: Fn, spared: bool)
    requires IsRun(gives, states, events) && i < |events| && Made(states[0].listeners, states[0].serial)
    requires w.Wrapper? && WaitsForCall(states[i], w, spared)
    ensures WaitsForCall(states[i + 1], w, spared && events[i] != RemoveAll)
  {
    GoneInRun(gives, states, events, i + 1, w);
    WaitsNext(states[i], gives, events[i], w, spared);
  }

  /**
    Over every run, a listener given to `once` at step `k` is registered until it is called or all are
    removed, and not any more after that.
   */
  lemma {:induction false} OnceExactly(gives: bool, states: seq<State>, events: seq<Event>, k: nat, i: nat)
    requires IsRun(gives, states, events) && k < i < |states| && Made(states[0].listeners, states[0].serial)
    requires events[k].Once?
    ensures WaitsForCall(states[i], Wrapper(events[k].listener, states[k].serial), NoRemoval(events, k, i))
  {
    if i == k + 1 {
      OnceFirst(gives, states, events, k);
    } else {
      OnceExactly(gives, states, events, k, i - 1);
      OnceNext(gives, states, events, i - 1, Wrapper(events[k].listener, states[k].serial),
               NoRemoval(events, k, i - 1));
    }
  }

  /** In particular, where no listener emits, each listener given to `once` is called at most once. */
  lemma OnceWithoutNesting(gives: bool, states: seq<State>, events: seq<Event>, i: nat, w: Fn)
    requires IsRun(gives, states, events) && i < |states| && Made(states[0].listeners, states[0].serial) && w.Wrapper?
    requires NeverNested(states)
    ensures CalledIsGone(states[i], w) && Emissions(states, events, i, w) <= 1 && TimesCalled(states[i].calls, w) <= 1
  {
    OneEmissionAtMost(gives, states, events, i, w);
    CalledAtMostOnce(gives, states, events, i, w);
    GoneInRun(gives, states, events, i, w);
  }

  lemma {:induction false} OneEmissionAtMost(gives: bool, states: seq<State>, events: seq<Event>, i: nat, w: Fn)
    requires IsRun(gives, states, events) && i < |states| && Made(states[0].listeners, states[0].serial) && w.Wrapper?
    requires NeverNested(states)
    ensures Emissions(states, events, i, w) <= 1
  {
    if i > 0 {
      OneEmissionAtMost(gives, states, events, i - 1, w);
      OneEmission(gives, states, events, i - 1, w);
    }
  }

  lemma CalledAtMostOnce(gives: bool, states: seq<State>, events: seq<Event>, i: nat, w: Fn)
    requires IsRun(gives, states, events) && i < |states| && Made(states[0].listeners, states[0].serial) && w.Wrapper?
    requires Emissions(states, events, i, w) <= 1
    ensures TimesCalled(states[i].calls, w) <= 1
  {
    CalledPerEmission(gives, states, events, i, w);
  }

  lemma OneEmission(gives: bool, states: seq<State>, events: seq<Event>, i: nat, w: Fn)
    requires IsRun(gives, states, events) && i < |events| && Made(states[0].listeners, states[0].serial) && w.Wrapper?
    requires NeverNested(states) && Emissions(states, events, i, w) <= 1
    ensures Emissions(states, events, i + 1, w) <= 1
  {
    CalledPerEmission(gives, states, events, i, w);
    GoneInRun(gives, states, events, i, w);
    if events[i].Emit? {
      NothingIsEmitted(gives, states, events, i);
      NotCalledYet(states[i], w);
    }
  }

  ghost predicate NeverNested(states: seq<State>) { forall s <- states :: |s.stack| <= 1 }

  lemma NothingIsEmitted(gives: bool, states: seq<State>, events: seq<Event>, i: nat)
    requires IsRun(gives, states, events) && i < |events| && events[i].Emit? && NeverNested(states)
    ensures states[i].stack == []
  {
    assert states[i + 1] in states;
    assert |states[i + 1].stack| == |states[i].stack| + 1;
  }

  lemma NotCalledYet(s: State, w: Fn)
    requires w.Wrapper? && CalledIsGone(s, w) && s.stack == []
    ensures Registered(s.listeners, w) ==> Account(s, w) == 0
  {
  }

  /** A run from an emitter without listeners, and the state it ends in. */
  datatype Trace = Trace(states: seq<State>, events: seq<Event>, end: State)

  ghost predicate IsTrace(t: Trace) {
    IsRun(true, t.states, t.events) && t.states[0] == Init([], 0, true) && t.end == t.states[|t.events|]
  }

  lemma Extend(t: Trace, e: Event) returns (u: Trace)
    requires IsTrace(t) && Enabled(t.end, e)
    ensures IsTrace(u) && u.end == Apply(t.end, true, e)
  {
    var end := Apply(t.end, true, e);
    u := Trace(t.states + [end], t.events + [e], end);
  }

  /** An emission begins and calls its first listener. */
  lemma EmitFirst(t: Trace, e: Entry, w: Entry) returns (u: Trace)
    requires IsTrace(t) && Free(t.end) && t.end.listeners == [e, w] && !e.once
    ensures IsTrace(u)
    ensures u.end == t.end.(stack := t.end.stack + [Frame([w], Some(e))], calls := t.end.calls + [e.fn])
  {
    u := Extend(t, Emit);
    u := Extend(u, CallNext);
  }

  /** The first listener returns and the `once` listener is called. */
  lemma CallLast(t: Trace, stack: seq<Frame>, e: Entry, w: Entry) returns (u: Trace)
    requires IsTrace(t) && t.end.stack == stack + [Frame([w], Some(e))] && !e.once && w.once
    ensures IsTrace(u)
    ensures u.end
        == t.end.(stack := stack + [Frame([], Some(w))], listeners := Without(t.end.listeners, w.fn, true),
        calls := t.end.calls + [w.fn])
  {
    u := Extend(t, Return);
    assert u.end.stack == stack + [Frame([w], None)];
    u := Extend(u, CallNext);
    assert [w][1..] == [] && u.end.stack == stack + [Frame([], Some(w))];
  }

  /** The `once` listener returns and the emission ends, with another listener left. */
  lemma EndLast(t: Trace, stack: seq<Frame>, w: Entry) returns (u: Trace)
    requires IsTrace(t) && t.end.stack == stack + [Frame([], Some(w))] && t.end.listeners != []
    ensures IsTrace(u) && u.end == t.end.(stack := stack)
  {
    u := Extend(t, Return);
    u := Extend(u, EndEmit);
  }

  lemma Begun(e: Entry, w: Entry) returns (t: Trace)
    requires e == Entry(Plain(1), false) && w == Entry(Wrapper(2, 0), true)
    ensures IsTrace(t) && t.end == State([e, w], [], 1, true, [Started], [])
  {
    var start := Init([], 0, true);
    t := Trace([start], [], start);
    t := Extend(t, On(1));
    t := Extend(t, Once(2));
  }

  /** A listener that emits the event again lets a later `once` listener of the same emission run twice. */
  lemma NestedCallsTwice() returns (t: Trace)
    ensures IsTrace(t) && t.end.calls == [Plain(1), Plain(1), Wrapper(2, 0), Wrapper(2, 0)]
  {
    var e, w := Entry(Plain(1), false), Entry(Wrapper(2, 0), true);
    t := Begun(e, w);
    t := EmitFirst(t, e, w);
    t := EmitFirst(t, e, w);
    t := CallLast(t, [Frame([w], Some(e))], e, w);
    WithoutKeeps([e, w], w.fn, true, e);
    t := EndLast(t, [Frame([w], Some(e))], w);
    t := CallLast(t, [], e, w);
    assert t.end.calls == [e.fn, e.fn, w.fn, w.fn];
  }

  // ------------------------------------------------------------------ the class

  class EventGateway {
    /** Whether `start` returns something other than undefined. */
    const gives: bool
    var listeners: seq<Entry>
    var stack: seq<Frame>
    var serial: nat
    var producing: bool
    var log: seq<Call>
    ghost var calls: seq<Fn>

    ghost function Value(): State
      reads this
    {
      State(listeners, stack, serial, producing, log, calls)
    }

    constructor (listeners: seq<Entry>, serial: nat, gives: bool)
      ensures this.gives == gives && Value() == Init(listeners, serial, gives)
    {
      this.gives, this.listeners, this.serial := gives, listeners, serial;
      stack, producing, log, calls := [], false, [], [];
      new;
      if |listeners| > 0 {
        Start();
      }
    }

    method Start()
      modifies this
      ensures Value() == old(Value()).(producing := gives, log := old(log) + [Started])
    {
      producing := gives;
      log := log + [Started];
    }

    method ObserveAdded()
      modifies this
      ensures Value() == OnAdded(old(Value()), gives)
    {
      if !producing {
        Start();
      }
    }

    method ObserveRemoved()
      modifies this
      ensures Value() == OnRemoved(old(Value()))
    {
      if producing && |listeners| == 0 {
        log := log + [Stopped];
        producing := false;
      }
    }

    method AddListener(l: nat)
      requires Free(Value())
      modifies this
      ensures Value() == Apply(old(Value()), gives, On(l))
    {
      listeners := listeners + [Entry(Plain(l), false)];
      ObserveAdded();
    }

    method AddOnce(l: nat)
      requires Free(Value())
      modifies this
      ensures Value() == Apply(old(Value()), gives, Once(l))
    {
      listeners := listeners + [Entry(Wrapper(l, serial), true)];
      serial := serial + 1;
      ObserveAdded();
    }

    method RemoveListener(l: nat)
      requires Free(Value())
      modifies this
      ensures Value() == Apply(old(Value()), gives, Off(l))
    {
      listeners := Without(listeners, Plain(l), false);
      ObserveRemoved();
    }

    method RemoveAllListeners()
      requires Free(Value())
      modifies this
      ensures Value() == Apply(old(Value()), gives, RemoveAll)
    {
      var named := listeners != [];
      listeners := [];
      if named {
        ObserveRemoved();
      }
    }

    method BeginEmit()
      requires Free(Value())
      modifies this
      ensures Value() == Apply(old(Value()), gives, Emit)
    {
      stack := stack + [Frame(listeners, None)];
    }

    method CallNextListener()
      requires Enabled(Value(), CallNext)
      modifies this
      ensures Value() == Apply(old(Value()), gives, CallNext)
    {
      var top := stack[|stack| - 1];
      var entry := top.rest[0];
      if entry.once {
        listeners := Without(listeners, entry.fn, true);
      }
      stack := stack[|stack| - 1 := Frame(top.rest[1..], Some(entry))];
      calls := calls + [entry.fn];
    }

    method ReturnFromListener()
      requires Enabled(Value(), Return)
      modifies this
      ensures Value() == Apply(old(Value()), gives, Return)
    {
      var top := stack[|stack| - 1];
      stack := stack[|stack| - 1 := Frame(top.rest, None)];
      if top.running.value.once {
        ObserveRemoved();
      }
    }
  }
}
