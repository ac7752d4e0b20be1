/**
  `Metric.ts` with `scheduleAtFixedRate.ts`: samplers collect what is recorded on their metrics, and
  at every tick of a fixed-rate schedule they are stopped, reported and replaced.
 */
module Metrics {
  import opened Arithmetic
  import opened Wrappers

  type MetricId = string

  datatype Kind = Count | Rate

  /** A running sampler; `recorded` are the values that make up its sum. */
  datatype Sampler = Sampler(kind: Kind, sum: real, start: int, recorded: seq<real>)

  /** The values a report carries, and the samplers they come from. */
  datatype Report = Report(end: int, values: map<MetricId, real>, stopped: map<MetricId, Sampler>)

  datatype State = State(
    metrics: map<MetricId, Kind>,
    samples: map<MetricId, Sampler>,
    invocationTime: int,
    armed: bool,
    reports: seq<Report>
  )

  // ------------------------------------------------------------------ steps

  function Seconds(start: int, stop: int): real { (stop - start) as real / 1000.0 }

  /** What a sampler stopped at `now` reports, if anything. */
  function Aggregated(s: Sampler, now: int): Option<real> {
    match s.kind
    case Count => Some(s.sum)
    case Rate => if s.start == now then None else Some(s.sum / Seconds(s.start, now))
  }

  function Start(initTime: nat, interval: nat): State
    requires interval > 0
  {
    State(map[], map[], initTime - initTime % interval, false, [])
  }

  /** One round of scheduling: the next due time is armed if it is still ahead, else skipped. */
  function AfterSchedule(s: State, interval: nat, now: int): State {
    var next := s.invocationTime + interval;
    s.(invocationTime := next, armed := now < next)
  }

  function ReportAt(samples: map<MetricId, Sampler>, now: int): Report {
    Report(now, map id | id in samples && Aggregated(samples[id], now).Some? ::
        Aggregated(samples[id], now).value, samples)
  }

  function Fresh(metrics: map<MetricId, Kind>, now: int): map<MetricId, Sampler> {
    map id | id in metrics :: Sampler(metrics[id], 0.0, now, [])
  }

  /** The task of the schedule: a report of the running samplers, if there are any, and new ones. */
  function AfterTick(s: State): State {
    var reports := if s.samples != map[] then s.reports + [ReportAt(s.samples, s.invocationTime)] else s.reports;
    State(s.metrics, Fresh(s.metrics, s.invocationTime), s.invocationTime, false, reports)
  }

  function Noted(s: Sampler, value: real): Sampler { s.(sum := s.sum + value, recorded := s.recorded + [value]) }

  function AfterRecord(s: State, id: MetricId, value: real): State {
    if id in s.samples then s.(samples := s.samples[id := Noted(s.samples[id], value)]) else s
  }

  datatype Event = Add(id: MetricId, kind: Kind) | Record(id: MetricId, value: real) | Schedule(now: int) | Tick

  predicate Enabled(s: State, e: Event) {
    match e
    case Schedule(_) => !s.armed
    case Tick => s.armed
    case _ => true
  }

  /** Adding a metric that is there already throws. */
  function Apply(s: State, interval: nat, e: Event): State {
    match e
    case Add(id, kind) => if id in s.metrics then s else s.(metrics := s.metrics[id := kind])
    case Record(id, value) => AfterRecord(s, id, value)
    case Schedule(now) => AfterSchedule(s, interval, now)
    case Tick => AfterTick(s)
  }

  // ------------------------------------------------------------------ the invariant

  function Sum(values: seq<real>): real {
    if values == [] then 0.0 else Sum(values[..|values| - 1]) + values[|values| - 1]
  }

  /** What the reported value of a metric amounts to: the count, or the rate times the sampled time. */
  function Amount(r: Report, id: MetricId): real
    requires id in r.stopped && id in r.values
  {
    match r.stopped[id].kind
    case Count => r.values[id]
    case Rate => r.values[id] * ((r.end - r.stopped[id].start) as real / 1000.0)
  }

  ghost predicate SampleValid(s: State, id: MetricId)
    requires id in s.samples
  {
    var sample := s.samples[id];
    && id in s.metrics && sample.kind == s.metrics[id]
    && sample.sum == Sum(sample.recorded)
    && (if s.armed then sample.start < s.invocationTime else sample.start <= s.invocationTime)
  }

  ghost predicate ReportValid(r: Report) {
    forall id <- r.stopped :: id in r.values && r.stopped[id].start < r.end
        && Amount(r, id) == Sum(r.stopped[id].recorded)
  }

  ghost predicate Inv(s: State, interval: nat) {
    && interval > 0 && s.invocationTime % interval == 0
    && (forall id <- s.samples :: SampleValid(s, id))
    && (forall k | 0 <= k < |s.reports| :: ReportValid(s.reports[k]))
  }

  lemma MultipleOf(k: int, n: nat)
    requires n > 0
    ensures (k - k % n) % n == 0 && (k % n == 0 ==> (k + n) % n == 0)
  {
    QuotientIsUnique(k - k % n, n, k / n, 0);
    if k % n == 0 {
      Distribute(k / n, n);
      QuotientIsUnique(k + n, n, k / n + 1, 0);
    }
  }

  lemma RateTimesTime(sum: real, seconds: real)
    requires seconds != 0.0
    ensures sum / seconds * seconds == sum
  {
  }

  lemma SumOne(values: seq<real>, value: real)
    ensures Sum(values + [value]) == Sum(values) + value
  {
    assert (values + [value])[..|values|] == values;
  }

  /** A report at an armed tick has a value for every running sampler, and each amounts to what was recorded. */
  lemma TickReports(s: State, interval: nat)
    requires Inv(s, interval) && s.armed
    ensures ReportValid(ReportAt(s.samples, s.invocationTime))
  {
    var r := ReportAt(s.samples, s.invocationTime);
    forall id <- r.stopped ensures id in r.values && r.stopped[id].start < r.end
        && Amount(r, id) == Sum(r.stopped[id].recorded) {
      var sample := s.samples[id];
      assert SampleValid(s, id);
      if sample.kind == Rate {
        RateTimesTime(sample.sum, Seconds(sample.start, s.invocationTime));
      }
    }
  }

  lemma StepKeeps(s: State, interval: nat, e: Event)
    requires Inv(s, interval) && Enabled(s, e)
    ensures Inv(Apply(s, interval, e), interval)
  {
    var t := Apply(s, interval, e);
    match e
    case Add(id, kind) =>
      forall k <- t.samples ensures SampleValid(t, k) {
        assert SampleValid(s, k);
      }
    case Record(id, value) =>
      forall k <- t.samples ensures SampleValid(t, k) {
        assert SampleValid(s, k);
        SumOne(s.samples[k].recorded, value);
      }
    case Schedule(now) =>
      MultipleOf(s.invocationTime, interval);
      forall k <- t.samples ensures SampleValid(t, k) {
        assert SampleValid(s, k);
      }
    case Tick => TickReports(s, interval);
  }

  // ------------------------------------------------------------------ runs

  ghost predicate IsRun(initTime: nat, interval: nat, states: seq<State>, events: seq<Event>) {
    && interval > 0
    && |states| == |events| + 1
    && states[0] == Start(initTime, interval)
    && forall i | 0 <= i < |events| ::
        Enabled(states[i], events[i]) && states[i + 1] == Apply(states[i], interval, events[i])
  }

  lemma {:induction false} ReachableValid(initTime: nat, interval: nat, states: seq<State>, events: seq<Event>, i: nat)
    requires IsRun(initTime, interval, states, events) && i < |states|
    ensures Inv(states[i], interval)
  {
    if i == 0 {
      MultipleOf(initTime, interval);
    } else {
      ReachableValid(initTime, interval, states, events, i - 1);
      StepKeeps(states[i - 1], interval, events[i - 1]);
    }
  }

  lemma {:induction false} TimeAdvances(initTime: nat, interval: nat, states: seq<State>, events: seq<Event>, i: nat,
                                        j: nat)
    requires IsRun(initTime, interval, states, events) && i <= j < |states|
    ensures states[i].invocationTime <= states[j].invocationTime
    ensures !states[i].armed && states[j].armed ==> states[i].invocationTime < states[j].invocationTime
  {
    if i < j {
      TimeAdvances(initTime, interval, states, events, i, j - 1);
    }
  }

  /** Tick times are multiples of the interval, and every tick is later than the ones before it. */
  lemma TickTimes(initTime: nat, interval: nat, states: seq<State>, events: seq<Event>, i: nat, j: nat)
    requires IsRun(initTime, interval, states, events) && i < j < |events| && events[i].Tick? && events[j].Tick?
    ensures states[i].invocationTime % interval == 0 && states[j].invocationTime % interval == 0
    ensures states[i].invocationTime + interval <= states[j].invocationTime
  {
    ReachableValid(initTime, interval, states, events, i);
    ReachableValid(initTime, interval, states, events, j);
    assert Enabled(states[j], events[j]);
    TimeAdvances(initTime, interval, states, events, i + 1, j);
    NextMultiple(states[i].invocationTime, states[j].invocationTime, interval);
  }

  lemma NextMultiple(a: int, b: int, n: nat)
    requires n > 0 && a % n == 0 && b % n == 0 && a < b
    ensures a + n <= b
  {
    if a / n < b / n {
      ProductGrows(a / n, b / n, n);
    } else if b / n < a / n {
      ProductGrows(b / n, a / n, n);
    }
  }

  /** After step `from` and before step `k` the clock was read and had reached `time`. */
  ghost predicate HadCome(events: seq<Event>, from: nat, k: nat, time: int)
    requires k <= |events|
  {
    exists m :: from < m < k && events[m].Schedule? && events[m].now >= time
  }

  lemma {:induction false} PassedHadCome(
      initTime: nat, interval: nat, states: seq<State>, events: seq<Event>, i: nat, k: nat, time: int)
    requires IsRun(initTime, interval, states, events) && i < k < |states|
    requires events[i].Tick? && forall m | i < m < k :: !events[m].Tick?
    requires time % interval == 0 && states[i].invocationTime < time <= states[k].invocationTime
    requires states[k].armed ==> time < states[k].invocationTime
    ensures HadCome(events, i, k, time)
  {
    if k > i + 1 {
      var s, e := states[k - 1], events[k - 1];
      ReachableValid(initTime, interval, states, events, k - 1);
      if e.Schedule? && s.invocationTime < time {
        NextMultiple(s.invocationTime, time, interval);
      } else {
        PassedHadCome(initTime, interval, states, events, i, k - 1, time);
      }
    }
  }

  /** A due time between two successive ticks is skipped only because it had come when it was to be scheduled. */
  lemma SkippedHadCome(initTime: nat, interval: nat, states: seq<State>, events: seq<Event>, i: nat, j: nat, time: int)
    requires IsRun(initTime, interval, states, events) && i < j < |events|
    requires events[i].Tick? && events[j].Tick? && forall m | i < m < j :: !events[m].Tick?
    requires time % interval == 0 && states[i].invocationTime < time < states[j].invocationTime
    ensures HadCome(events, i, j, time)
  {
    PassedHadCome(initTime, interval, states, events, i, j, time);
  }

  /** Step `m` is the last round of scheduling before step `k`. */
  ghost predicate LastRound(events: seq<Event>, m: nat, k: nat)
    requires k <= |events|
  {
    m < k && events[m].Schedule? && forall x | m < x < k :: !events[x].Schedule? && !events[x].Tick?
  }

  lemma {:induction false} ArmedAhead(initTime: nat, interval: nat, states: seq<State>, events: seq<Event>, k: nat)
    returns (m: nat)
    requires IsRun(initTime, interval, states, events) && k < |states| && states[k].armed
    ensures LastRound(events, m, k) && events[m].now < states[k].invocationTime
  {
    if events[k - 1].Schedule? {
      m := k - 1;
    } else {
      m := ArmedAhead(initTime, interval, states, events, k - 1);
    }
  }

  /** A tick was still ahead when the clock was read for it. */
  lemma TickWasAhead(initTime: nat, interval: nat, states: seq<State>, events: seq<Event>, j: nat) returns (m: nat)
    requires IsRun(initTime, interval, states, events) && j < |events| && events[j].Tick?
    ensures LastRound(events, m, j) && events[m].now < states[j].invocationTime
  {
    assert Enabled(states[j], events[j]);
    m := ArmedAhead(initTime, interval, states, events, j);
  }

  /** Before step `k` the clock was read and had reached `time`. */
  ghost predicate CameBefore(events: seq<Event>, k: nat, time: int)
    requires k <= |events|
  {
    exists m :: 0 <= m < k && events[m].Schedule? && events[m].now >= time
  }

  lemma {:induction false} PassedBefore(initTime: nat, interval: nat, states: seq<State>, events: seq<Event>, k: nat,
                                        time: int)
    requires IsRun(initTime, interval, states, events) && k < |states| && forall m | 0 <= m < k :: !events[m].Tick?
    requires time % interval == 0 && initTime < time <= states[k].invocationTime
    requires states[k].armed ==> time < states[k].invocationTime
    ensures CameBefore(events, k, time)
  {
    if k > 0 {
      var s, e := states[k - 1], events[k - 1];
      ReachableValid(initTime, interval, states, events, k - 1);
      if e.Schedule? && s.invocationTime < time {
        NextMultiple(s.invocationTime, time, interval);
      } else {
        PassedBefore(initTime, interval, states, events, k - 1, time);
      }
    }
  }

  lemma MultipleBelow(k: nat, n: nat)
    requires n > 0
    ensures k - k % n <= k < k - k % n + n
  {
  }

  /** The first tick is after the start, and a due time before it was skipped only because it had come. */
  lemma FirstTick(initTime: nat, interval: nat, states: seq<State>, events: seq<Event>, j: nat, time: int)
    requires IsRun(initTime, interval, states, events) && j < |events| && events[j].Tick?
    requires forall m | 0 <= m < j :: !events[m].Tick?
    ensures initTime < states[j].invocationTime
    ensures time % interval == 0 && initTime < time < states[j].invocationTime ==> CameBefore(events, j, time)
  {
    ReachableValid(initTime, interval, states, events, 0);
    ReachableValid(initTime, interval, states, events, j);
    assert Enabled(states[j], events[j]);
    TimeAdvances(initTime, interval, states, events, 0, j);
    NextMultiple(states[0].invocationTime, states[j].invocationTime, interval);
    MultipleBelow(initTime, interval);
    if time % interval == 0 && initTime < time < states[j].invocationTime {
      PassedBefore(initTime, interval, states, events, j, time);
    }
  }

  /** And it reports nothing, since nothing was sampled. */
  lemma FirstTickReportsNothing(initTime: nat, interval: nat, states: seq<State>, events: seq<Event>, j: nat)
    requires IsRun(initTime, interval, states, events) && j < |events| && events[j].Tick?
    requires forall m | 0 <= m < j :: !events[m].Tick?
    ensures states[j + 1].reports == []
  {
    SameBetweenTicks(initTime, interval, states, events, 0, j);
    assert states[j].samples.Keys == {};
    assert states[j].samples == map[];
  }

  /** As long as there is no tick, the samplers that run are the same, and nothing is reported. */
  lemma {:induction false} SameBetweenTicks(initTime: nat, interval: nat, states: seq<State>, events: seq<Event>,
                                            i: nat, j: nat)
    requires IsRun(initTime, interval, states, events) && i <= j < |states|
    requires forall m | i <= m < j :: !events[m].Tick?
    ensures states[j].reports == states[i].reports && states[j].samples.Keys == states[i].samples.Keys
  {
    if i < j {
      SameBetweenTicks(initTime, interval, states, events, i, j - 1);
      assert states[j].samples.Keys == states[j - 1].samples.Keys;
    }
  }

  /** Whether a tick reports, and what: exactly the metrics that are sampled, each with a value. */
  lemma TickExactly(s: State, interval: nat)
    requires Inv(s, interval) && s.armed
    ensures var t := Apply(s, interval, Tick);
      && t.samples.Keys == s.metrics.Keys && !t.armed && t.invocationTime == s.invocationTime
      && if s.samples == map[] then t.reports == s.reports
         else
           && |t.reports| == |s.reports| + 1 && s.reports <= t.reports
           && var r := t.reports[|s.reports|];
              r.end == s.invocationTime && r.values.Keys == r.stopped.Keys == s.samples.Keys
  {
    TickReports(s, interval);
    if s.samples != map[] {
      var r := ReportAt(s.samples, s.invocationTime);
      forall id <- s.samples ensures id in r.values {
        assert id in r.stopped;
      }
    }
  }

  /**
    Of two successive ticks the second makes one report, at its time and of the metrics that existed at the
    first, and none if there were none.
   */
  lemma OneReportPerTick(initTime: nat, interval: nat, states: seq<State>, events: seq<Event>, i: nat, j: nat)
    requires IsRun(initTime, interval, states, events) && i < j < |events| && events[i].Tick? && events[j].Tick?
    requires forall m | i < m < j :: !events[m].Tick?
    ensures var before, after := states[i + 1].reports, states[j + 1].reports;
      if states[i].metrics == map[] then after == before
      else
        && |after| == |before| + 1 && before <= after
        && after[|before|].end == states[j].invocationTime && after[|before|].values.Keys == states[i].metrics.Keys
  {
    ReachableValid(initTime, interval, states, events, i);
    ReachableValid(initTime, interval, states, events, j);
    assert Enabled(states[i], events[i]) && Enabled(states[j], events[j]);
    TickExactly(states[i], interval);
    TickExactly(states[j], interval);
    SameBetweenTicks(initTime, interval, states, events, i + 1, j);
    assert states[j].samples.Keys == states[i].metrics.Keys;
    assert states[j].samples == map[] <==> states[j].samples.Keys == {};
    assert states[i].metrics == map[] <==> states[i].metrics.Keys == {};
  }

  // ------------------------------------------------------------------ nothing lost, nothing counted twice

  /** The values recorded on a metric by the events from `lo` up to but not including `hi`. */
  function Recorded(events: seq<Event>, lo: nat, hi: nat, id: MetricId): seq<real>
    requires hi <= |events|
  {
    if hi <= lo then []
    else
      var e := events[hi - 1];
      Recorded(events, lo, hi - 1, id) + (if e.Record? && e.id == id then [e.value] else [])
  }

  /** The values that entered the reports from number `base` on, report after report. */
  ghost function Reported(reports: seq<Report>, base: nat, id: MetricId): seq<real> {
    if |reports| <= base then []
    else
      var last := reports[|reports| - 1];
      Reported(reports[..|reports| - 1], base, id) + (if id in last.stopped then last.stopped[id].recorded else [])
  }

  /** What those reports amount to. */
  ghost function Total(reports: seq<Report>, base: nat, id: MetricId): real {
    if |reports| <= base then 0.0
    else
      var last := reports[|reports| - 1];
      Total(reports[..|reports| - 1], base, id) + (if id in last.stopped && id in last.values then Amount(last, id)
          else 0.0)
  }

  /** The time their samplers have run. */
  ghost function Covered(reports: seq<Report>, base: nat, id: MetricId): int {
    if |reports| <= base then 0
    else
      var last := reports[|reports| - 1];
      Covered(reports[..|reports| - 1], base, id) + (if id in last.stopped then last.end - last.stopped[id].start
          else 0)
  }

  lemma {:induction false} SumAppend(a: seq<real>, b: seq<real>)
    ensures Sum(a + b) == Sum(a) + Sum(b)
  {
    if b == [] {
      assert a + b == a;
    } else {
      assert (a + b)[..|a + b| - 1] == a + b[..|b| - 1];
      SumAppend(a, b[..|b| - 1]);
    }
  }

  lemma {:induction false} TotalIsSum(reports: seq<Report>, base: nat, id: MetricId)
    requires forall k | 0 <= k < |reports| :: ReportValid(reports[k])
    ensures Total(reports, base, id) == Sum(Reported(reports, base, id))
  {
    if |reports| > base {
      var last := reports[|reports| - 1];
      TotalIsSum(reports[..|reports| - 1], base, id);
      SumAppend(Reported(reports[..|reports| - 1], base, id), if id in last.stopped then last.stopped[id].recorded
          else []);
    }
  }

  /** From one tick on, at any later point of the run: the new reports and the running sampler together have it all. */
  ghost predicate AllKept(states: seq<State>, events: seq<Event>, from: nat, k: nat, id: MetricId)
    requires from <= k < |states| && |states| == |events| + 1
  {
    var s, base := states[k], |states[from].reports|;
    && id in s.samples
    && base <= |s.reports|
    && Reported(s.reports, base, id) + s.samples[id].recorded == Recorded(events, from, k, id)
    && Covered(s.reports, base, id) == s.samples[id].start - states[from].invocationTime
  }

  /** What one event adds to what a metric's reports and running sampler hold. */
  lemma StepKeepsAll(s: State, interval: nat, e: Event, base: nat, id: MetricId)
    requires Inv(s, interval) && Enabled(s, e) && id in s.samples && base <= |s.reports|
    ensures var t := Apply(s, interval, e);
      && id in t.samples && base <= |t.reports|
      && Reported(t.reports, base, id) + t.samples[id].recorded
           == Reported(s.reports, base, id) + s.samples[id].recorded + (if e.Record? && e.id == id then [e.value]
               else [])
      && Covered(t.reports, base, id) - t.samples[id].start == Covered(s.reports, base, id) - s.samples[id].start
  {
    assert SampleValid(s, id);
    if e.Tick? {
      var t := AfterTick(s);
      assert s.samples != map[];
      assert t.reports[..|t.reports| - 1] == s.reports;
    }
  }

  lemma {:induction false} KeptFrom(
      initTime: nat, interval: nat, states: seq<State>, events: seq<Event>, tick: nat, k: nat, id: MetricId)
    requires IsRun(initTime, interval, states, events) && tick < k < |states| && events[tick].Tick?
        && id in states[tick].metrics
    ensures AllKept(states, events, tick + 1, k, id)
  {
    if k > tick + 1 {
      KeptFrom(initTime, interval, states, events, tick, k - 1, id);
      ReachableValid(initTime, interval, states, events, k - 1);
      StepKeepsAll(states[k - 1], interval, events[k - 1], |states[tick + 1].reports|, id);
    }
  }

  /**
    Between two ticks of any run, for a metric that was added before the first of them: the values
    recorded on it are, one after the other, those of the reports made since; so the counts of
    these reports, or the rates times the times they stand for, sum to what was recorded; and these
    times together are the time between the ticks.
   */
  lemma EveryValueReportedOnce(
      initTime: nat, interval: nat, states: seq<State>, events: seq<Event>, first: nat, last: nat, id: MetricId)
    requires IsRun(initTime, interval, states, events) && first < last < |events|
    requires events[first].Tick? && events[last].Tick? && id in states[first].metrics
    ensures var reports, base := states[last + 1].reports, |states[first + 1].reports|;
      && Reported(reports, base, id) == Recorded(events, first, last, id)
      && Total(reports, base, id) == Sum(Recorded(events, first, last, id))
      && Covered(reports, base, id) == states[last].invocationTime - states[first].invocationTime
  {
    KeptFrom(initTime, interval, states, events, first, last + 1, id);
    ReachableValid(initTime, interval, states, events, last + 1);
    TotalIsSum(states[last + 1].reports, |states[first + 1].reports|, id);
    TicksRecordNothing(events, first, last, id);
  }

  lemma {:induction false} TicksRecordNothing(events: seq<Event>, first: nat, last: nat, id: MetricId)
    requires first < last < |events| && events[first].Tick? && events[last].Tick?
    ensures Recorded(events, first + 1, last + 1, id) == Recorded(events, first, last, id)
  {
    RecordedFrom(events, first, last, id);
  }

  lemma {:induction false} RecordedFrom(events: seq<Event>, first: nat, hi: nat, id: MetricId)
    requires first < hi <= |events| && !events[first].Record?
    ensures Recorded(events, first, hi, id) == Recorded(events, first + 1, hi, id)
  {
    if hi > first + 1 {
      RecordedFrom(events, first, hi - 1, id);
    } else {
      assert Recorded(events, first, first, id) == [];
    }
  }

  // ------------------------------------------------------------------ the class

  class MetricsContext {
    const interval: nat
    var metrics: map<MetricId, Kind>
    var ongoingSamples: map<MetricId, Sampler>
    var invocationTime: int
    var armed: bool
    var reports: seq<Report>

    function Value(): State
      reads this
    {
      State(metrics, ongoingSamples, invocationTime, armed, reports)
    }

    constructor (initTime: nat, interval: nat)
      requires interval > 0
      ensures this.interval == interval && Value() == Start(initTime, interval)
    {
      this.interval := interval;
      metrics, ongoingSamples, reports := map[], map[], [];
      invocationTime, armed := initTime - initTime % interval, false;
    }

    method AddMetric(id: MetricId, kind: Kind) returns (added: bool)
      modifies this
      ensures Value() == Apply(old(Value()), interval, Add(id, kind))
      ensures added <==> id !in old(metrics)
    {
      if id in metrics {
        return false;
      }
      metrics := metrics[id := kind];
      return true;
    }

    method RecordValue(id: MetricId, value: real)
      modifies this
      ensures Value() == Apply(old(Value()), interval, Record(id, value))
    {
      if id in ongoingSamples {
        var sample := ongoingSamples[id];
        ongoingSamples := ongoingSamples[id := sample.(sum := sample.sum + value,
            recorded := sample.recorded + [value])];
      }
    }

    method ScheduleNext(now: int)
      modifies this
      ensures Value() == Apply(old(Value()), interval, Schedule(now))
    {
      invocationTime := invocationTime + interval;
      armed := now < invocationTime;
    }

    method OnTick()
      modifies this
      ensures Value() == Apply(old(Value()), interval, Tick)
    {
      var now := invocationTime;
      armed := false;
      if ongoingSamples != map[] {
        var values := map[];
        var todo := ongoingSamples.Keys;
        while todo != {}
          invariant todo <= ongoingSamples.Keys
          invariant values == map id | id in ongoingSamples && id !in todo
              && Aggregated(ongoingSamples[id], now).Some? :: Aggregated(ongoingSamples[id], now).value
        {
          var id :| id in todo;
          var value := Aggregated(ongoingSamples[id], now);
          if value.Some? {
            values := values[id := value.value];
          }
          todo := todo - {id};
        }
        assert values == ReportAt(ongoingSamples, now).values;
        reports := reports + [Report(now, values, ongoingSamples)];
        ongoingSamples := map[];
      }
      var unsampled := metrics.Keys;
      while unsampled != {}
        invariant unsampled <= metrics.Keys
        invariant ongoingSamples == map id | id in metrics && id !in unsampled :: Sampler(metrics[id], 0.0, now, [])
        modifies this`ongoingSamples
      {
        var id :| id in unsampled;
        ongoingSamples := ongoingSamples[id := Sampler(metrics[id], 0.0, now, [])];
        unsampled := unsampled - {id};
      }
      assert ongoingSamples == Fresh(metrics, now);
    }
  }
}
