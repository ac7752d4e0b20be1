/** `ProviderHealth.ts`: which providers failed recently, and the order in which to ask them. */
module ProviderHealths {
  import opened Arithmetic

  type Provider = nat

  const FAILURES_TO_SET_ASIDE: nat := 2
  const FIRST_COOLDOWN: nat := 30 * 1000
  const MAX_COOLDOWN: nat := 5 * 60 * 1000

  datatype Health = Health(failures: nat, cooldown: nat, asideUntil: nat)

  const HEALTHY := Health(0, 0, 0)

  function AfterSuccess(h: Health): Health {
    if h.failures == 0 then h else HEALTHY
  }

  predicate Counts(h: Health, now: nat) { h.asideUntil <= now }

  function AfterFailure(h: Health, now: nat): Health {
    if !Counts(h, now) then h
    else if h.failures + 1 < FAILURES_TO_SET_ASIDE then h.(failures := h.failures + 1)
    else
      var cooldown := if h.cooldown == 0 then FIRST_COOLDOWN else Min(h.cooldown * 2, MAX_COOLDOWN);
      Health(h.failures + 1, cooldown, now + cooldown)
  }

  /** The health records after a provider was judged; providers that are not known are not recorded. */
  function Recorded(states: map<Provider, Health>, p: Provider, answered: bool, now: nat): map<Provider, Health> {
    if p !in states then states
    else states[p := if answered then AfterSuccess(states[p]) else AfterFailure(states[p], now)]
  }

  // ------------------------------------------------------------------ cool-down over a whole history

  datatype Judgement = Success | Failure(now: nat)

  ghost function Replay(history: seq<Judgement>): Health {
    if history == [] then HEALTHY
    else
      var h := Replay(history[..|history| - 1]);
      match history[|history| - 1]
      case Success => AfterSuccess(h)
      case Failure(now) => AfterFailure(h, now)
  }

  /** The failures counted since the last success, by their times. */
  ghost function Counted(history: seq<Judgement>): seq<nat> {
    if history == [] then []
    else
      var before := history[..|history| - 1];
      match history[|history| - 1]
      case Success => []
      case Failure(now) => if Counts(Replay(before), now) then Counted(before) + [now] else Counted(before)
  }

  ghost function Pow2(n: nat): nat { if n == 0 then 1 else 2 * Pow2(n - 1) }

  /** The cool-down after f counted failures: none, then 30 s doubling up to 5 min. */
  ghost function Cooldown(f: nat): nat {
    if f < 2 then 0 else Min(FIRST_COOLDOWN * Pow2(f - 2), MAX_COOLDOWN)
  }

  lemma CooldownDoubles(f: nat)
    requires f >= 2
    ensures Cooldown(f) > 0 && Cooldown(f + 1) == Min(Cooldown(f) * 2, MAX_COOLDOWN)
  {
    assert Pow2(f - 1) == 2 * Pow2(f - 2);
    Pow2Positive(f - 2);
  }

  lemma {:induction false} Pow2Positive(n: nat)
    ensures Pow2(n) >= 1
  {
    if n > 0 {
      Pow2Positive(n - 1);
    }
  }

  /**
    After any history the state counts the failures since the last success, the cool-down is the
    closed form of that count, and from the second on the provider is set aside for that long from
    the last counted failure. No assumption is made about the clock.
   */
  lemma {:induction false} HealthAfter(history: seq<Judgement>)
    ensures var h := Replay(history); var times := Counted(history);
      && h.failures == |times| && h.cooldown == Cooldown(|times|)
      && h.asideUntil == (if |times| < 2 then 0 else times[|times| - 1] + Cooldown(|times|))
  {
    if history != [] {
      var before := history[..|history| - 1];
      HealthAfter(before);
      if Replay(before).failures >= 2 {
        CooldownDoubles(Replay(before).failures);
      }
      assert Cooldown(2) == FIRST_COOLDOWN by { assert Pow2(0) == 1; }
    }
  }

  /** In milliseconds: half a minute after the second failure, then twice that, up to five minutes. */
  lemma CooldownTable(f: nat)
    ensures Cooldown(f) == if f < 2 then 0 else if f == 2 then 30000 else if f == 3 then 60000
        else if f == 4 then 120000 else if f == 5 then 240000 else 300000
  {
    if 2 <= f <= 5 {
      assert Pow2(0) == 1 && Pow2(1) == 2 && Pow2(2) == 4 && Pow2(3) == 8;
    } else if f > 5 {
      Pow2Grows(4, f - 2);
      assert Pow2(4) == 16;
    }
  }

  lemma {:induction false} Pow2Grows(a: nat, b: nat)
    requires a <= b
    ensures Pow2(a) <= Pow2(b)
  {
    if a < b {
      Pow2Grows(a, b - 1);
    }
  }

  /**
    A failure counts unless the provider is set aside: exactly if it is one of the first two since the
    last success, or the cool-down since the last one that counted is over.
   */
  lemma CountedExactly(history: seq<Judgement>, now: nat)
    ensures Counted(history + [Failure(now)])
         == Counted(history) + if Rests(Counted(history), now) then [] else [now]
    ensures Counted(history + [Success]) == []
  {
    assert (history + [Failure(now)])[..|history|] == history;
    HealthAfter(history);
    assert Counted(history) + [] == Counted(history);
  }

  /** With these counted failures, the provider is set aside at the given time. */
  ghost predicate Rests(times: seq<nat>, now: nat) {
    |times| >= 2 && now < times[|times| - 1] + Cooldown(|times|)
  }

  /** Between two consecutive set-asides lies at least the cool-down of the earlier one. */
  lemma {:induction false} SetAsidesAreApart(history: seq<Judgement>, k: nat)
    requires 1 <= k && k + 1 < |Counted(history)|
    ensures Counted(history)[k] + Cooldown(k + 1) <= Counted(history)[k + 1]
  {
    var before := history[..|history| - 1];
    HealthAfter(before);
    if k + 1 < |Counted(before)| {
      SetAsidesAreApart(before, k);
    }
  }

  ghost function CooldownSum(k: nat): nat { if k == 0 then 0 else CooldownSum(k - 1) + Cooldown(k + 1) }

  /** The second to the (k+2)-nd counted failure, k + 1 set-asides, take at least the sum of the first k cool-downs. */
  lemma {:induction false} SetAsidesTakeTime(history: seq<Judgement>, k: nat)
    requires k + 1 < |Counted(history)|
    ensures Counted(history)[1] + CooldownSum(k) <= Counted(history)[k + 1]
  {
    if k > 0 {
      SetAsidesTakeTime(history, k - 1);
      SetAsidesAreApart(history, k);
    }
  }

  // ------------------------------------------------------------------ the order

  ghost predicate IsOrder(states: map<Provider, Health>, providers: seq<Provider>, now: nat, order: seq<Provider>) {
    && multiset(order) == multiset(providers)
    && forall i, j | 0 <= i < j < |order| ::
         var a, b := AsideUntil(states, order[i]), AsideUntil(states, order[j]);
         (b <= now ==> a <= now) && (a > now ==> a <= b)
  }

  function AsideUntil(states: map<Provider, Health>, p: Provider): nat {
    if p in states then states[p].asideUntil else 0
  }

  /** The providers that are set aside at this time, or those that are not, in their order. */
  function Select(states: map<Provider, Health>, providers: seq<Provider>, now: nat, aside: bool): (r: seq<Provider>)
    ensures forall p <- multiset(r) :: (AsideUntil(states, p) > now) == aside
  {
    if providers == [] then []
    else
      (if (AsideUntil(states, providers[0]) > now) == aside then [providers[0]] else [])
      + Select(states, providers[1..], now, aside)
  }

  lemma {:induction false} SelectShortens(states: map<Provider, Health>, providers: seq<Provider>, now: nat,
                                          aside: bool)
    ensures |Select(states, providers, now, aside)| <= |providers|
  {
    if providers != [] {
      SelectShortens(states, providers[1..], now, aside);
    }
  }

  lemma {:induction false} SelectPartitions(states: map<Provider, Health>, providers: seq<Provider>, now: nat)
    ensures multiset(Select(states, providers, now, false)) + multiset(Select(states, providers, now, true))
        == multiset(providers)
  {
    if providers != [] {
      assert providers == [providers[0]] + providers[1..];
      SelectPartitions(states, providers[1..], now);
    }
  }

  ghost predicate SoonestFirst(states: map<Provider, Health>, s: seq<Provider>) {
    forall i, j | 0 <= i < j < |s| :: AsideUntil(states, s[i]) <= AsideUntil(states, s[j])
  }

  /** `Array.sort` by `asideUntil`: stable, ascending. */
  function SortByAside(states: map<Provider, Health>, s: seq<Provider>): (r: seq<Provider>)
    ensures multiset(r) == multiset(s)
  {
    if s == [] then []
    else
      assert s == [s[0]] + s[1..];
      InsertByAside(states, s[0], SortByAside(states, s[1..]))
  }

  function InsertByAside(states: map<Provider, Health>, p: Provider, s: seq<Provider>): (r: seq<Provider>)
    ensures multiset(r) == multiset([p]) + multiset(s)
  {
    if s == [] || AsideUntil(states, p) <= AsideUntil(states, s[0]) then [p] + s
    else
      assert s == [s[0]] + s[1..];
      [s[0]] + InsertByAside(states, p, s[1..])
  }

  lemma {:induction false} SortSorts(states: map<Provider, Health>, s: seq<Provider>)
    ensures SoonestFirst(states, SortByAside(states, s))
  {
    if s != [] {
      SortSorts(states, s[1..]);
      InsertSorts(states, s[0], SortByAside(states, s[1..]));
    }
  }

  lemma {:induction false} InsertSorts(states: map<Provider, Health>, p: Provider, s: seq<Provider>)
    requires SoonestFirst(states, s)
    ensures SoonestFirst(states, InsertByAside(states, p, s))
  {
    if s != [] && AsideUntil(states, p) > AsideUntil(states, s[0]) {
      InsertSorts(states, p, s[1..]);
      var rest := InsertByAside(states, p, s[1..]);
      forall q <- rest ensures AsideUntil(states, s[0]) <= AsideUntil(states, q) {
        assert q in multiset(rest);
        assert q == p || q in s[1..];
      }
    }
  }

  lemma HealthyThenAside(states: map<Provider, Health>, providers: seq<Provider>, now: nat, healthy: seq<Provider>,
                         aside: seq<Provider>)
    requires multiset(healthy) + multiset(aside) == multiset(providers)
    requires forall p <- multiset(healthy) :: AsideUntil(states, p) <= now
    requires forall p <- multiset(aside) :: AsideUntil(states, p) > now
    requires SoonestFirst(states, aside)
    ensures IsOrder(states, providers, now, healthy + aside)
  {
    assert forall k | 0 <= k < |healthy| :: healthy[k] in multiset(healthy);
    assert forall k | 0 <= k < |aside| :: aside[k] in multiset(aside);
  }

  // ------------------------------------------------------------------ the shuffle

  ghost function Swapped(s: seq<Provider>, i: nat, j: nat): (r: seq<Provider>)
    requires i < |s| && j < |s|
    ensures |r| == |s|
  {
    s[i := s[j]][j := s[i]]
  }

  /** The random index drawn when position `i` is swapped, for every `i`. */
  predicate Draws(draws: seq<nat>) { forall i | 0 <= i < |draws| :: draws[i] <= i }

  /** What the rounds from `i` down to 1 make of the list. */
  ghost function ShuffledFrom(s: seq<Provider>, i: nat, draws: seq<nat>): (r: seq<Provider>)
    requires Draws(draws) && i < |s| <= |draws|
    ensures |r| == |s|
    decreases i
  {
    if i == 0 then s else ShuffledFrom(Swapped(s, i, draws[i]), i - 1, draws)
  }

  ghost function Shuffled(s: seq<Provider>, draws: seq<nat>): (r: seq<Provider>)
    requires Draws(draws) && |s| <= |draws|
    ensures |r| == |s|
  {
    if s == [] then [] else ShuffledFrom(s, |s| - 1, draws)
  }

  lemma SwappedPermutes(s: seq<Provider>, i: nat, j: nat)
    requires i < |s| && j < |s|
    ensures multiset(Swapped(s, i, j)) == multiset(s)
  {
  }

  lemma {:induction false} RoundsPermute(s: seq<Provider>, i: nat, draws: seq<nat>)
    requires Draws(draws) && i < |s| <= |draws|
    ensures multiset(ShuffledFrom(s, i, draws)) == multiset(s)
    decreases i
  {
    if i > 0 {
      SwappedPermutes(s, i, draws[i]);
      RoundsPermute(Swapped(s, i, draws[i]), i - 1, draws);
    }
  }

  lemma ShufflePermutes(s: seq<Provider>, draws: seq<nat>)
    requires Draws(draws) && |s| <= |draws|
    ensures multiset(Shuffled(s, draws)) == multiset(s)
  {
    if s != [] {
      RoundsPermute(s, |s| - 1, draws);
    }
  }

  /** A round decides one position for good: the rest of the list is the later rounds'. */
  lemma {:induction false} RoundsKeepAbove(s: seq<Provider>, i: nat, draws: seq<nat>, k: nat)
    requires Draws(draws) && i < k < |s| <= |draws|
    ensures ShuffledFrom(s, i, draws)[k] == s[k]
    decreases i
  {
    if i > 0 {
      RoundsKeepAbove(Swapped(s, i, draws[i]), i - 1, draws, k);
    }
  }

  lemma {:induction false} SameDraws(s: seq<Provider>, i: nat, r: seq<nat>, q: seq<nat>)
    requires Draws(r) && Draws(q) && i < |s| <= |r| && |s| <= |q| && forall k | 0 <= k <= i :: r[k] == q[k]
    ensures ShuffledFrom(s, i, r) == ShuffledFrom(s, i, q)
    decreases i
  {
    if i > 0 {
      SameDraws(Swapped(s, i, r[i]), i - 1, r, q);
    }
  }

  lemma SameFront(a: seq<Provider>, b: seq<Provider>, rest: seq<Provider>)
    requires multiset(a + rest) == multiset(b + rest)
    ensures multiset(a) == multiset(b)
  {
    assert multiset(a) == multiset(a + rest) - multiset(rest);
    assert multiset(b) == multiset(b + rest) - multiset(rest);
  }

  /** The element that belongs at position `i` is among the first `i + 1`, if the rest is in place. */
  lemma FindDraw(s: seq<Provider>, p: seq<Provider>, i: nat) returns (j: nat)
    requires i < |s| == |p| && multiset(s) == multiset(p) && s[i + 1..] == p[i + 1..]
    ensures j <= i && s[j] == p[i]
  {
    assert s == s[..i + 1] + s[i + 1..] && p == p[..i + 1] + p[i + 1..];
    SameFront(s[..i + 1], p[..i + 1], s[i + 1..]);
    assert p[..i + 1][i] in multiset(s[..i + 1]);
    j :| 0 <= j < i + 1 && s[..i + 1][j] == p[i];
  }

  lemma OneMoreInPlace(s: seq<Provider>, p: seq<Provider>, i: nat, j: nat)
    requires j <= i < |s| == |p| && s[i + 1..] == p[i + 1..] && s[j] == p[i]
    ensures Swapped(s, i, j)[i..] == p[i..]
  {
    var swapped := Swapped(s, i, j);
    assert swapped[i + 1..] == s[i + 1..];
    assert swapped[i..] == [swapped[i]] + swapped[i + 1..] && p[i..] == [p[i]] + p[i + 1..];
  }

  lemma LastInPlace(s: seq<Provider>, p: seq<Provider>)
    requires s != [] && |s| == |p| && s[0] == p[0] && s[1..] == p[1..]
    ensures s == p
  {
    assert s == [s[0]] + s[1..] && p == [p[0]] + p[1..];
  }

  lemma {:induction false} DrawsFor(s: seq<Provider>, p: seq<Provider>, i: nat) returns (draws: seq<nat>)
    requires i < |s| == |p| && multiset(s) == multiset(p) && s[i + 1..] == p[i + 1..]
    ensures Draws(draws) && |draws| == |s| && ShuffledFrom(s, i, draws) == p
    decreases i
  {
    var j := FindDraw(s, p, i);
    if i == 0 {
      draws := seq(|s|, _ => 0);
      LastInPlace(s, p);
    } else {
      OneMoreInPlace(s, p, i, j);
      SwappedPermutes(s, i, j);
      var rest := DrawsFor(Swapped(s, i, j), p, i - 1);
      draws := rest[i := j];
      SameDraws(Swapped(s, i, j), i - 1, rest, draws);
    }
  }

  /** Every order of the list comes about by some draws. */
  lemma ShuffleReachesAll(s: seq<Provider>, p: seq<Provider>) returns (draws: seq<nat>)
    requires multiset(s) == multiset(p)
    ensures Draws(draws) && |draws| == |s| && Shuffled(s, draws) == p
  {
    assert |s| == |multiset(s)| && |p| == |multiset(p)|;
    if s == [] {
      draws := [];
    } else {
      draws := DrawsFor(s, p, |s| - 1);
    }
  }

  ghost predicate NoRepeats(s: seq<Provider>) { forall i, j | 0 <= i < j < |s| :: s[i] != s[j] }

  lemma SwappedHasNoRepeats(s: seq<Provider>, i: nat, j: nat)
    requires i < |s| && j < |s| && NoRepeats(s)
    ensures NoRepeats(Swapped(s, i, j))
  {
    var r := Swapped(s, i, j);
    forall k, m | 0 <= k < m < |r| ensures r[k] != r[m] {
      assert r[k] == s[if k == i then j else if k == j then i else k];
      assert r[m] == s[if m == i then j else if m == j then i else m];
    }
  }

  lemma DrawnIsPlaced(s: seq<Provider>, i: nat, draws: seq<nat>)
    requires Draws(draws) && 0 < i < |s| <= |draws|
    ensures ShuffledFrom(s, i, draws)[i] == s[draws[i]]
  {
    DrawnStays(s, Swapped(s, i, draws[i]), i, draws[i], draws);
  }

  lemma DrawnStays(s: seq<Provider>, swapped: seq<Provider>, i: nat, j: nat, draws: seq<nat>)
    requires Draws(draws) && 0 < i < |s| == |swapped| <= |draws| && j < |s| && swapped[i] == s[j]
    ensures ShuffledFrom(swapped, i - 1, draws)[i] == s[j]
  {
    RoundsKeepAbove(swapped, i - 1, draws, i);
  }

  lemma SameElement(s: seq<Provider>, a: nat, b: nat)
    requires NoRepeats(s) && a < |s| && b < |s| && s[a] == s[b]
    ensures a == b
  {
  }

  lemma FirstDrawIsTold(s: seq<Provider>, i: nat, r: seq<nat>, q: seq<nat>)
    requires Draws(r) && Draws(q) && 0 < i < |s| <= |r| && |s| <= |q| && NoRepeats(s)
    requires ShuffledFrom(s, i, r) == ShuffledFrom(s, i, q)
    ensures r[i] == q[i]
  {
    DrawnIsPlaced(s, i, r);
    DrawnIsPlaced(s, i, q);
    SameElement(s, r[i], q[i]);
  }

  lemma {:induction false} DrawsAreTold(s: seq<Provider>, i: nat, r: seq<nat>, q: seq<nat>)
    requires Draws(r) && Draws(q) && i < |s| <= |r| && |s| <= |q| && NoRepeats(s)
    requires ShuffledFrom(s, i, r) == ShuffledFrom(s, i, q)
    ensures r[..i + 1] == q[..i + 1]
    decreases i
  {
    if i > 0 {
      FirstDrawIsTold(s, i, r, q);
      SwappedHasNoRepeats(s, i, r[i]);
      DrawsAreTold(Swapped(s, i, r[i]), i - 1, r, q);
      assert r[..i + 1] == r[..i] + [r[i]] && q[..i + 1] == q[..i] + [q[i]];
    }
  }

  /** And by no others: of different providers, all orders are equally likely if all draws are. */
  lemma ShuffleTellsDraws(s: seq<Provider>, r: seq<nat>, q: seq<nat>)
    requires Draws(r) && Draws(q) && |r| == |q| == |s| && NoRepeats(s) && Shuffled(s, r) == Shuffled(s, q)
    ensures r == q
  {
    if s != [] {
      DrawsAreTold(s, |s| - 1, r, q);
      assert r == r[..|s|] && q == q[..|s|];
    }
  }

  method SwapElements(a: array<Provider>, i: nat, j: nat)
    requires i < a.Length && j < a.Length
    modifies a
    ensures a[..] == Swapped(old(a[..]), i, j)
  {
    var swap := a[i];
    a[i] := a[j];
    a[j] := swap;
  }

  /** The Fisher-Yates shuffle. */
  method Shuffle(items: seq<Provider>, draws: seq<nat>) returns (result: seq<Provider>)
    requires Draws(draws) && |items| <= |draws|
    ensures result == Shuffled(items, draws)
  {
    if items == [] {
      return [];
    }
    var a := new Provider[|items|](k requires 0 <= k < |items| => items[k]);
    assert a[..] == items;
    var i := |items| - 1;
    while i > 0
      invariant 0 <= i < |items| == a.Length
      invariant ShuffledFrom(a[..], i, draws) == Shuffled(items, draws)
    {
      SwapElements(a, i, draws[i]);
      i := i - 1;
    }
    result := a[..];
  }

  // ------------------------------------------------------------------ the sort is stable

  /** The providers that are set aside until a given time, in their order. */
  ghost function AsideAt(states: map<Provider, Health>, s: seq<Provider>, time: nat): seq<Provider> {
    if s == [] then []
    else (if AsideUntil(states, s[0]) == time then [s[0]] else []) + AsideAt(states, s[1..], time)
  }

  lemma AsideAtFirst(states: map<Provider, Health>, p: Provider, rest: seq<Provider>, time: nat)
    ensures AsideAt(states, [p] + rest, time)
         == (if AsideUntil(states, p) == time then [p] else []) + AsideAt(states, rest, time)
  {
    assert ([p] + rest)[1..] == rest;
  }

  lemma {:induction false} InsertIsStable(states: map<Provider, Health>, p: Provider, s: seq<Provider>, time: nat)
    ensures AsideAt(states, InsertByAside(states, p, s), time)
         == (if AsideUntil(states, p) == time then [p] else []) + AsideAt(states, s, time)
  {
    if s == [] || AsideUntil(states, p) <= AsideUntil(states, s[0]) {
      AsideAtFirst(states, p, s, time);
    } else {
      InsertIsStable(states, p, s[1..], time);
      AsideAtFirst(states, s[0], InsertByAside(states, p, s[1..]), time);
      MovesPast(states, p, s, time);
    }
  }

  lemma MovesPast(states: map<Provider, Health>, p: Provider, s: seq<Provider>, time: nat)
    requires s != [] && AsideUntil(states, p) > AsideUntil(states, s[0])
    ensures (if AsideUntil(states, s[0]) == time then [s[0]] else [])
          + ((if AsideUntil(states, p) == time then [p] else []) + AsideAt(states, s[1..], time))
         == (if AsideUntil(states, p) == time then [p] else []) + AsideAt(states, s, time)
  {
  }

  lemma {:induction false} SortIsStable(states: map<Provider, Health>, s: seq<Provider>, time: nat)
    ensures AsideAt(states, SortByAside(states, s), time) == AsideAt(states, s, time)
  {
    if s != [] {
      SortIsStable(states, s[1..], time);
      InsertIsStable(states, s[0], SortByAside(states, s[1..]), time);
    }
  }

  lemma AsideAtMaybe(states: map<Provider, Health>, p: Provider, rest: seq<Provider>, kept: bool, time: nat)
    ensures AsideAt(states, (if kept then [p] else []) + rest, time)
         == (if kept && AsideUntil(states, p) == time then [p] else []) + AsideAt(states, rest, time)
  {
    if kept {
      AsideAtFirst(states, p, rest, time);
    } else {
      assert [] + rest == rest && [] + AsideAt(states, rest, time) == AsideAt(states, rest, time);
    }
  }

  lemma {:induction false} SelectKeepsOrder(states: map<Provider, Health>, s: seq<Provider>, now: nat, time: nat)
    requires time > now
    ensures AsideAt(states, Select(states, s, now, true), time) == AsideAt(states, s, time)
  {
    if s != [] {
      SelectKeepsOrder(states, s[1..], now, time);
      AsideAtMaybe(states, s[0], Select(states, s[1..], now, true), AsideUntil(states, s[0]) > now, time);
    }
  }

  lemma {:induction false} HealthyIsNotAside(states: map<Provider, Health>, healthy: seq<Provider>,
                                             aside: seq<Provider>, time: nat)
    requires forall p <- multiset(healthy) :: AsideUntil(states, p) != time
    ensures AsideAt(states, healthy + aside, time) == AsideAt(states, aside, time)
  {
    if healthy != [] {
      assert healthy == [healthy[0]] + healthy[1..] && healthy[0] in multiset(healthy);
      assert (healthy + aside)[1..] == healthy[1..] + aside;
      HealthyIsNotAside(states, healthy[1..], aside, time);
    } else {
      assert healthy + aside == aside;
    }
  }

  class ProviderHealth {
    var states: map<Provider, Health>

    constructor (providers: seq<Provider>)
      ensures states.Keys == (set p <- providers) && forall p <- providers :: states[p] == HEALTHY
    {
      states := map p <- providers :: HEALTHY;
    }

    /**
      Healthy providers first, shuffled by the draws, then those set aside, soonest back first; nobody is
      left out, and those who are back at the same time keep their order.
     */
    method Order(providers: seq<Provider>, now: nat, draws: seq<nat>) returns (order: seq<Provider>)
      requires Draws(draws) && |providers| <= |draws|
      ensures IsOrder(states, providers, now, order)
      ensures var healthy := Select(states, providers, now, false);
              |healthy| <= |draws| && Shuffled(healthy, draws) <= order
      ensures forall time | time > now :: AsideAt(states, order, time) == AsideAt(states, providers, time)
    {
      SelectPartitions(states, providers, now);
      SelectShortens(states, providers, now, false);
      var healthy := Shuffle(Select(states, providers, now, false), draws);
      ShufflePermutes(Select(states, providers, now, false), draws);
      var aside := SortByAside(states, Select(states, providers, now, true));
      SortSorts(states, Select(states, providers, now, true));
      HealthyThenAside(states, providers, now, healthy, aside);
      order := healthy + aside;
      forall time | time > now ensures AsideAt(states, order, time) == AsideAt(states, providers, time) {
        HealthyIsNotAside(states, healthy, aside, time);
        SortIsStable(states, Select(states, providers, now, true), time);
        SelectKeepsOrder(states, providers, now, time);
      }
    }

    method RecordSuccess(provider: Provider)
      modifies this
      ensures states == if provider in old(states) then old(states)[provider := AfterSuccess(old(states)[provider])]
          else old(states)
    {
      if provider !in states || states[provider].failures == 0 {
        return;
      }
      states := states[provider := Health(0, 0, 0)];
    }

    method RecordFailure(provider: Provider, now: nat)
      modifies this
      ensures states == if provider in old(states)
          then old(states)[provider := AfterFailure(old(states)[provider], now)] else old(states)
    {
      if provider !in states {
        return;
      }
      var state := states[provider];
      if state.asideUntil > now {
        return;
      }
      state := state.(failures := state.failures + 1);
      if state.failures >= FAILURES_TO_SET_ASIDE {
        state := state.(cooldown := if state.cooldown == 0 then FIRST_COOLDOWN
            else Min(state.cooldown * 2, MAX_COOLDOWN));
        state := state.(asideUntil := now + state.cooldown);
      }
      states := states[provider := state];
    }
  }
}
