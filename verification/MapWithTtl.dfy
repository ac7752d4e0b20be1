/**
  `MapWithTtl.ts` with exact timers: entries that a timer of their own removes. The map as a value,
  a reference without any timers that it refines, and the class proved against the value.
 */
module TtlMaps {
  import opened Wrappers

  type TimerId = nat

  datatype Wrapper<V> = Wrapper(value: V, timer: TimerId)

  datatype Timer<K> = Timer(key: K, due: nat)

  datatype TtlMap<K(==), V> = TtlMap(
    delegate: map<K, Wrapper<V>>,
    timers: map<TimerId, Timer<K>>,
    nextTimer: TimerId,
    now: nat
  )

  // ------------------------------------------------------------------ operations

  function Empty<K(==), V>(now: nat): TtlMap<K, V> { TtlMap(map[], map[], 0, now) }

  function Get<K(==), V>(m: TtlMap<K, V>, key: K): Option<V> {
    if key in m.delegate then Some(m.delegate[key].value) else None
  }

  /** The timer of the entry at `key`, if there is one. */
  function TimerOf<K(==), V>(m: TtlMap<K, V>, key: K): set<TimerId> {
    if key in m.delegate then {m.delegate[key].timer} else {}
  }

  function Set<K(==), V>(m: TtlMap<K, V>, ttl: V -> nat, key: K, value: V): TtlMap<K, V> {
    m.(timers := (m.timers - TimerOf(m, key))[m.nextTimer := Timer(key, m.now + ttl(value))],
       delegate := m.delegate[key := Wrapper(value, m.nextTimer)],
       nextTimer := m.nextTimer + 1)
  }

  function Delete<K(==), V>(m: TtlMap<K, V>, key: K): TtlMap<K, V> {
    m.(timers := m.timers - TimerOf(m, key), delegate := m.delegate - {key})
  }

  function Clear<K(==), V>(m: TtlMap<K, V>): TtlMap<K, V> {
    m.(timers := m.timers - (set key | key in m.delegate :: m.delegate[key].timer), delegate := map[])
  }

  /** A timer deletes whatever entry its key has by then. */
  function Fire<K(==), V>(m: TtlMap<K, V>, t: TimerId): TtlMap<K, V>
    requires t in m.timers
  {
    Delete(m.(timers := m.timers - {t}), m.timers[t].key)
  }

  datatype Event<K, V> =
    | SetEntry(key: K, value: V)
    | DeleteEntry(key: K)
    | ClearAll
    | TimerFires(t: TimerId)
    | Pass(time: nat)

  /** Timers are exact: each fires when it is due, and time does not pass a due one. */
  ghost predicate Enabled<K, V>(m: TtlMap<K, V>, e: Event<K, V>) {
    match e
    case TimerFires(t) => t in m.timers && m.timers[t].due == m.now
    case Pass(time) => forall t <- m.timers :: m.now + time <= m.timers[t].due
    case _ => true
  }

  function Apply<K(==), V>(m: TtlMap<K, V>, ttl: V -> nat, e: Event<K, V>): TtlMap<K, V>
    requires e.TimerFires? ==> e.t in m.timers
  {
    match e
    case SetEntry(key, value) => Set(m, ttl, key, value)
    case DeleteEntry(key) => Delete(m, key)
    case ClearAll => Clear(m)
    case TimerFires(t) => Fire(m, t)
    case Pass(time) => m.(now := m.now + time)
  }

  // ------------------------------------------------------------------ the invariant

  /** Each entry has exactly one live timer, and each live timer is that of an entry. */
  ghost predicate Inv<K, V>(m: TtlMap<K, V>) {
    && (forall key <- m.delegate :: m.delegate[key].timer in m.timers && m.timers[m.delegate[key].timer].key == key)
    && (forall t <- m.timers ::
          t < m.nextTimer && m.now <= m.timers[t].due && m.timers[t].key in m.delegate
              && m.delegate[m.timers[t].key].timer == t)
  }

  lemma StepKeeps<K, V>(m: TtlMap<K, V>, ttl: V -> nat, e: Event<K, V>)
    requires Inv(m) && Enabled(m, e)
    ensures Inv(Apply(m, ttl, e))
  {
  }

  /** A timer removes the very entry it was made for, so an old timer never removes a newer entry. */
  lemma TimerRemovesItsOwn<K, V>(m: TtlMap<K, V>, t: TimerId)
    requires Inv(m) && t in m.timers
    ensures m.timers[t].key in m.delegate && m.delegate[m.timers[t].key].timer == t
    ensures Fire(m, t).delegate == m.delegate - {m.timers[t].key}
    ensures Fire(m, t).timers == m.timers - {t}
  {
  }

  /** When a value is set, its timer is the only one for its key. */
  lemma SetReplacesTimer<K, V>(m: TtlMap<K, V>, ttl: V -> nat, key: K, value: V)
    requires Inv(m)
    ensures var n := Set(m, ttl, key, value);
            Get(n, key) == Some(value)
            && forall t <- n.timers :: n.timers[t].key == key
                ==> t == m.nextTimer && n.timers[t].due == m.now + ttl(value)
  {
  }

  // ------------------------------------------------------------------ the reference

  datatype Kept<V> = Kept(value: V, since: nat)

  /** What was set last and not deleted since, with no thought of timers. */
  datatype Reference<K(==), V> = Reference(entries: map<K, Kept<V>>, now: nat)

  function RefStep<K(==), V>(r: Reference<K, V>, e: Event<K, V>): Reference<K, V> {
    match e
    case SetEntry(key, value) => r.(entries := r.entries[key := Kept(value, r.now)])
    case DeleteEntry(key) => r.(entries := r.entries - {key})
    case ClearAll => r.(entries := map[])
    case TimerFires(_) => r
    case Pass(time) => r.(now := r.now + time)
  }

  function ReferenceOf<K(==), V>(start: nat, events: seq<Event<K, V>>): Reference<K, V> {
    if events == [] then Reference(map[], start)
    else RefStep(ReferenceOf(start, events[..|events| - 1]), events[|events| - 1])
  }

  /** When the time to live of an entry is over. */
  function Expiry<K(==), V>(r: Reference<K, V>, ttl: V -> nat, key: K): nat
    requires key in r.entries
  {
    r.entries[key].since + ttl(r.entries[key].value)
  }

  /** The map holds the reference's entries that are younger than their time to live, and none older. */
  ghost predicate Refines<K, V>(m: TtlMap<K, V>, ttl: V -> nat, r: Reference<K, V>) {
    && m.now == r.now
    && (forall key <- m.delegate ::
          && key in r.entries && m.delegate[key].value == r.entries[key].value && r.entries[key].since <= r.now
          && m.delegate[key].timer in m.timers
          && m.timers[m.delegate[key].timer].due == r.entries[key].since + ttl(r.entries[key].value))
    && (forall key <- r.entries :: key !in m.delegate ==> r.entries[key].since + ttl(r.entries[key].value) <= r.now)
  }

  lemma SetRefines<K, V>(m: TtlMap<K, V>, ttl: V -> nat, r: Reference<K, V>, key: K, value: V)
    requires Inv(m) && Refines(m, ttl, r)
    ensures Refines(Set(m, ttl, key, value), ttl, RefStep(r, SetEntry(key, value)))
  {
  }

  lemma TimerRefines<K, V>(m: TtlMap<K, V>, ttl: V -> nat, r: Reference<K, V>, t: TimerId)
    requires Inv(m) && Refines(m, ttl, r) && t in m.timers && m.timers[t].due == m.now
    ensures Refines(Fire(m, t), ttl, r)
  {
  }

  lemma StepRefines<K, V>(m: TtlMap<K, V>, ttl: V -> nat, r: Reference<K, V>, e: Event<K, V>)
    requires Inv(m) && Refines(m, ttl, r) && Enabled(m, e)
    ensures Refines(Apply(m, ttl, e), ttl, RefStep(r, e))
  {
    match e
    case SetEntry(key, value) => SetRefines(m, ttl, r, key, value);
    case TimerFires(t) => TimerRefines(m, ttl, r, t);
    case _ =>
  }

  ghost predicate IsRun<K, V>(start: nat, ttl: V -> nat, maps: seq<TtlMap<K, V>>, events: seq<Event<K, V>>) {
    && |maps| == |events| + 1
    && maps[0] == Empty<K, V>(start)
    && forall i | 0 <= i < |events| :: Enabled(maps[i], events[i]) && maps[i + 1] == Apply(maps[i], ttl, events[i])
  }

  lemma {:induction false} RunRefines<K, V>(start: nat, ttl: V -> nat, maps: seq<TtlMap<K, V>>,
                                            events: seq<Event<K, V>>, i: nat)
    requires IsRun(start, ttl, maps, events) && i < |maps|
    ensures Inv(maps[i]) && Refines(maps[i], ttl, ReferenceOf(start, events[..i]))
  {
    if i > 0 {
      RunRefines(start, ttl, maps, events, i - 1);
      assert events[..i][..i - 1] == events[..i - 1];
      StepKeeps(maps[i - 1], ttl, events[i - 1]);
      StepRefines(maps[i - 1], ttl, ReferenceOf(start, events[..i - 1]), events[i - 1]);
    } else {
      assert events[..0] == [];
    }
  }

  /**
    At any point of any run, `get` gives what was set last for the key and not deleted since if that
    is younger than its time to live, and nothing if it is older or there is no such value.
   */
  lemma GetIsExact<K, V>(start: nat, ttl: V -> nat, maps: seq<TtlMap<K, V>>, events: seq<Event<K, V>>, i: nat, key: K)
    requires IsRun(start, ttl, maps, events) && i < |maps|
    ensures var r := ReferenceOf(start, events[..i]);
      && (key !in r.entries ==> Get(maps[i], key) == None)
      && (key in r.entries && r.now < Expiry(r, ttl, key) ==> Get(maps[i], key) == Some(r.entries[key].value))
      && (key in r.entries && Expiry(r, ttl, key) < r.now ==> Get(maps[i], key) == None)
  {
    RunRefines(start, ttl, maps, events, i);
  }

  // ------------------------------------------------------------------ the class

  class MapWithTtl<K(==), V> {
    const getTtl: V -> nat
    var delegate: map<K, Wrapper<V>>
    /** The runtime's pending timers, and its clock. */
    var timers: map<TimerId, Timer<K>>
    var nextTimer: TimerId
    var now: nat

    function Value(): TtlMap<K, V>
      reads this
    {
      TtlMap(delegate, timers, nextTimer, now)
    }

    constructor (getTtl: V -> nat, now: nat)
      ensures this.getTtl == getTtl && Value() == Empty(now)
    {
      this.getTtl := getTtl;
      delegate, timers, nextTimer, this.now := map[], map[], 0, now;
    }

    method SetEntry(key: K, value: V)
      modifies this
      ensures Value() == Set(old(Value()), getTtl, key, value)
    {
      if key in delegate {
        timers := timers - {delegate[key].timer};
      }
      var t := CreateTimeout(key, value);
      delegate := delegate[key := Wrapper(value, t)];
    }

    method CreateTimeout(key: K, value: V) returns (t: TimerId)
      modifies this
      ensures t == old(nextTimer) && nextTimer == t + 1 && unchanged(`delegate, `now)
      ensures timers == old(timers)[t := Timer(key, now + getTtl(value))]
    {
      t := nextTimer;
      nextTimer := nextTimer + 1;
      timers := timers[t := Timer(key, now + getTtl(value))];
    }

    method GetEntry(key: K) returns (value: Option<V>)
      ensures value == Get(Value(), key)
    {
      value := if key in delegate then Some(delegate[key].value) else None;
    }

    method DeleteEntry(key: K)
      modifies this
      ensures Value() == Delete(old(Value()), key)
    {
      if key in delegate {
        timers := timers - {delegate[key].timer};
        delegate := delegate - {key};
      } else {
        assert delegate - {key} == delegate && timers - {} == timers;
      }
    }

    method ClearEntries()
      modifies this
      ensures Value() == Clear(old(Value()))
    {
      var todo := delegate.Keys;
      ghost var before := timers;
      while todo != {}
        invariant todo <= delegate.Keys
        invariant timers == before - (set key | key in delegate && key !in todo :: delegate[key].timer)
        modifies this`timers
      {
        var key :| key in todo;
        timers := timers - {delegate[key].timer};
        todo := todo - {key};
      }
      assert todo == {};
      delegate := map[];
    }

    method OnTimer(t: TimerId)
      requires t in timers
      modifies this
      ensures Value() == Fire(old(Value()), t)
    {
      var key := timers[t].key;
      timers := timers - {t};
      DeleteEntry(key);
    }
  }
}
