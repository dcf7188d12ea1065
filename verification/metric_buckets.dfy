// Interval and usage counters: values gathered per interval, flushed into
// reports and built into messages. Nothing is lost and nothing counted twice.
module MetricBuckets {

  // Values are kept by key: the interval id, or for usage the source and the
  // usage type.
  datatype Report<!K> = Report(interval: int, values: map<K, nat>)

  // values is the current bucket. It is normally the one filed under the
  // current interval; a usage counter can lose the filing.
  datatype Counter<!K> = Counter(current: int, values: map<K, nat>, pending: map<int, map<K, nat>>)

  function At<K>(v: map<K, nat>, id: K): nat {
    if id in v then v[id] else 0
  }

  function Add<K>(v: map<K, nat>, id: K, x: nat): map<K, nat> {
    v[id := At(v, id) + x]
  }

  function NewCounter<K>(now: int): Counter<K> {
    Counter(now, map[], map[now := map[]])
  }

  /* ---- updates ---- */

  // A bucket for the interval: the current one, one already filed, or a new one.
  function Open<K>(c: Counter<K>, interval: int): Counter<K> {
    if interval == c.current || interval in c.pending then c
    else Counter(if interval > c.current then interval else c.current,
                 if interval > c.current then map[] else c.values,
                 c.pending[interval := map[]])
  }

  function BucketFor<K>(c: Counter<K>, interval: int): map<K, nat> {
    if interval == c.current then c.values else if interval in c.pending then c.pending[interval] else map[]
  }

  // The current bucket and the one filed under the current interval are one.
  function Put<K>(c: Counter<K>, interval: int, v: map<K, nat>): Counter<K> {
    Counter(c.current,
            if interval == c.current then v else c.values,
            if interval in c.pending then c.pending[interval := v] else c.pending)
  }

  function Update<K>(c: Counter<K>, interval: int, id: K, x: nat): Counter<K> {
    if x == 0 then c else Put(Open(c, interval), interval, Add(BucketFor(c, interval), id, x))
  }

  // The current bucket is filed under the current interval, and no later
  // interval has a bucket.
  ghost predicate Filed<K>(c: Counter<K>) {
    && c.current in c.pending && c.pending[c.current] == c.values
    && forall i :: i in c.pending ==> i <= c.current
  }

  function Held<K>(c: Counter<K>, i: int, id: K): nat {
    if i in c.pending then At(c.pending[i], id) else 0
  }

  lemma UpdateConserves<K>(c: Counter<K>, interval: int, id: K, x: nat)
    requires Filed(c)
    ensures Filed(Update(c, interval, id, x))
    ensures forall i, k :: Held(Update(c, interval, id, x), i, k) == Held(c, i, k) + if i == interval && k == id then x else 0
  {
  }

  // The current interval is the latest one given a value; nothing opens a
  // bucket but a value for it.
  lemma UpdateMovesOn<K>(c: Counter<K>, interval: int, id: K, x: nat)
    requires Filed(c)
    ensures var d := Update(c, interval, id, x);
            && d.current == (if x > 0 && interval > c.current then interval else c.current)
            && d.pending.Keys == c.pending.Keys + if x > 0 then {interval} else {}
  {
  }

  /* ---- flushes ---- */

  predicate Old<K>(c: Counter<K>, threshold: int, i: int) {
    i in c.pending && (i < c.current || i <= threshold)
  }

  predicate Due<K>(c: Counter<K>, threshold: int, i: int) {
    Old(c, threshold, i) && c.pending[i] != map[]
  }

  // The current bucket is empty and old enough to flush.
  predicate AgedOutEmpty<K>(c: Counter<K>, threshold: int) {
    c.current in c.pending && c.pending[c.current] == map[] && c.current <= threshold
  }

  // Reported buckets go, except that the current interval gets a fresh one; a
  // usage counter also drops old empty buckets.
  predicate Goes<K>(c: Counter<K>, threshold: int, dropsEmpty: bool, i: int) {
    Old(c, threshold, i) && if c.pending[i] == map[] then dropsEmpty else i != c.current
  }

  function Flush<K>(c: Counter<K>, threshold: int, dropsEmpty: bool): Counter<K> {
    Counter(c.current,
            if Due(c, threshold, c.current) then map[] else c.values,
            map i | i in c.pending && !Goes(c, threshold, dropsEmpty, i) :: if Due(c, threshold, i) then map[] else c.pending[i])
  }

  // Each due bucket is reported once, in whatever order the map yields them.
  ghost predicate Reports<K>(c: Counter<K>, threshold: int, rs: seq<Report<K>>) {
    && (forall a, b :: 0 <= a < b < |rs| ==> rs[a].interval != rs[b].interval)
    && (forall k :: 0 <= k < |rs| ==> Due(c, threshold, rs[k].interval) && rs[k].values == c.pending[rs[k].interval])
    && (forall i :: Due(c, threshold, i) ==> Reported(rs, i))
  }

  ghost predicate Reported<K>(rs: seq<Report<K>>, i: int) {
    exists k :: 0 <= k < |rs| && rs[k].interval == i
  }

  function SumOf<K>(rs: seq<Report<K>>, i: int, id: K): nat {
    if rs == [] then 0 else
      SumOf(rs[..|rs| - 1], i, id) + if rs[|rs| - 1].interval == i then At(rs[|rs| - 1].values, id) else 0
  }

  lemma {:induction false} SumOfAbsent<K>(rs: seq<Report<K>>, i: int, id: K)
    requires forall k :: 0 <= k < |rs| ==> rs[k].interval != i
    ensures SumOf(rs, i, id) == 0
  {
    if rs != [] {
      SumOfAbsent(rs[..|rs| - 1], i, id);
    }
  }

  lemma {:induction false} SumOfOne<K>(rs: seq<Report<K>>, k: nat, id: K)
    requires k < |rs| && forall a, b :: 0 <= a < b < |rs| ==> rs[a].interval != rs[b].interval
    ensures SumOf(rs, rs[k].interval, id) == At(rs[k].values, id)
  {
    if k == |rs| - 1 {
      SumOfAbsent(rs[..|rs| - 1], rs[k].interval, id);
    } else {
      SumOfOne(rs[..|rs| - 1], k, id);
    }
  }

  lemma ReportsSum<K>(c: Counter<K>, threshold: int, rs: seq<Report<K>>, i: int, id: K)
    requires Reports(c, threshold, rs)
    ensures SumOf(rs, i, id) == if Due(c, threshold, i) then At(c.pending[i], id) else 0
  {
    if Due(c, threshold, i) {
      assert Reported(rs, i);
      var k :| 0 <= k < |rs| && rs[k].interval == i;
      SumOfOne(rs, k, id);
    } else {
      SumOfAbsent(rs, i, id);
    }
  }

  // A flush moves values from buckets to reports and changes no total.
  lemma FlushConserves<K>(c: Counter<K>, threshold: int, dropsEmpty: bool, rs: seq<Report<K>>, i: int, id: K)
    requires Filed(c) && Reports(c, threshold, rs)
    ensures Held(Flush(c, threshold, dropsEmpty), i, id) + SumOf(rs, i, id) == Held(c, i, id)
  {
    ReportsSum(c, threshold, rs, i, id);
  }

  // A flush reports an interval exactly when it has values and is finished or
  // old enough, and with the values it had.
  lemma ReportedIff<K>(c: Counter<K>, threshold: int, rs: seq<Report<K>>, i: int)
    requires Filed(c) && Reports(c, threshold, rs)
    ensures (exists k :: 0 <= k < |rs| && rs[k].interval == i) <==>
            i in c.pending && c.pending[i] != map[] && (i < c.current || i <= threshold)
    ensures forall k :: 0 <= k < |rs| && rs[k].interval == i ==> i in c.pending && rs[k].values == c.pending[i]
    ensures forall j, k :: 0 <= j < k < |rs| ==> rs[j].interval != rs[k].interval
  {
    assert Reported(rs, i) <==> exists k :: 0 <= k < |rs| && rs[k].interval == i;
  }

  // What a flush leaves: values only in the current interval, and only while
  // that is younger than the threshold; and of the empty buckets those that are
  // current or not dropped.
  lemma FlushLeaves<K>(c: Counter<K>, threshold: int, dropsEmpty: bool, i: int)
    requires Filed(c)
    ensures var d := Flush(c, threshold, dropsEmpty);
            && d.current == c.current
            && (i in d.pending && d.pending[i] != map[] <==> i == c.current && c.pending[i] != map[] && threshold < i)
            && (i in d.pending && d.pending[i] != map[] ==> d.pending[i] == c.pending[i])
            && (i in d.pending && d.pending[i] == map[] <==>
                  || (i == c.current && i <= threshold && c.pending[i] != map[])
                  || (i == c.current && threshold < i && c.pending[i] == map[])
                  || (i in c.pending && c.pending[i] == map[] && !dropsEmpty))
            && d.values == if c.current <= threshold then map[] else c.values
  {
  }

  // A flush keeps the current bucket filed, except that a usage counter loses
  // the filing exactly when the current bucket is empty and aged out.
  lemma FlushKeepsFiledIff<K>(c: Counter<K>, threshold: int, dropsEmpty: bool)
    requires Filed(c)
    ensures Filed(Flush(c, threshold, dropsEmpty)) <==> !(dropsEmpty && AgedOutEmpty(c, threshold))
  {
  }

  /* ---- what follows from losing it ---- */

  datatype CounterStep<!K> = Give(interval: int, id: K, value: nat) | Take(threshold: int, reports: seq<Report<K>>)

  ghost predicate CounterNext<K>(drops: bool, c: Counter<K>, step: CounterStep<K>, d: Counter<K>) {
    match step
    case Give(interval, id, value) => d == Update(c, interval, id, value)
    case Take(threshold, rs) => Reports(c, threshold, rs) && d == Flush(c, threshold, drops)
  }

  ghost predicate CounterRun<K>(drops: bool, states: seq<Counter<K>>, steps: seq<CounterStep<K>>) {
    |states| == |steps| + 1 && forall k :: 0 <= k < |steps| ==> CounterNext(drops, states[k], steps[k], states[k + 1])
  }

  // What the flushes of a run reported for an interval and an id.
  function TakenBy<K>(steps: seq<CounterStep<K>>, i: int, id: K): nat {
    if steps == [] then 0 else
      TakenBy(steps[..|steps| - 1], i, id) +
      if steps[|steps| - 1].Take? then SumOf(steps[|steps| - 1].reports, i, id) else 0
  }

  // What was given for interval i once the counter had moved on from it.
  function GivenLate<K(==)>(states: seq<Counter<K>>, steps: seq<CounterStep<K>>, i: int, id: K): nat
    requires |states| == |steps| + 1
  {
    if steps == [] then 0 else
      var n, last := |steps| - 1, steps[|steps| - 1];
      GivenLate(states[..n + 1], steps[..n], i, id) +
      if last.Give? && last.interval == i && last.id == id && states[n].current != i then last.value else 0
  }

  // The counter is at interval i without a filed bucket for it, or past it.
  predicate UnfiledOrPast<K>(c: Counter<K>, i: int) {
    (c.current == i && i !in c.pending) || c.current > i
  }

  lemma UnfiledStep<K>(drops: bool, c: Counter<K>, step: CounterStep<K>, d: Counter<K>, i: int, id: K)
    requires UnfiledOrPast(c, i) && CounterNext(drops, c, step, d)
    ensures UnfiledOrPast(d, i)
    ensures Held(d, i, id) + (if step.Take? then SumOf(step.reports, i, id) else 0) ==
            Held(c, i, id) + if step.Give? && step.interval == i && step.id == id && c.current != i then step.value else 0
  {
    if step.Take? {
      ReportsSum(c, step.threshold, step.reports, i, id);
    }
  }

  lemma {:induction false} UnfiledRun<K>(drops: bool, states: seq<Counter<K>>, steps: seq<CounterStep<K>>, i: int, id: K)
    requires CounterRun(drops, states, steps) && UnfiledOrPast(states[0], i)
    ensures UnfiledOrPast(states[|steps|], i)
    ensures Held(states[|steps|], i, id) + TakenBy(steps, i, id) == Held(states[0], i, id) + GivenLate(states, steps, i, id)
  {
    if steps != [] {
      var n := |steps| - 1;
      var before := states[..n + 1];
      assert forall k :: 0 <= k < n ==> CounterNext(drops, before[k], steps[..n][k], before[k + 1]);
      UnfiledRun(drops, before, steps[..n], i, id);
      UnfiledStep(drops, states[n], steps[n], states[n + 1], i, id);
    }
  }

  // After a usage counter flushed its empty, aged-out current bucket, whatever
  // is given for that interval while it is still the current one is never
  // reported and never pending, however the run goes on.
  lemma UnfiledUpdateIsLost<K>(c: Counter<K>, threshold: int, states: seq<Counter<K>>, steps: seq<CounterStep<K>>, id: K)
    requires Filed(c) && AgedOutEmpty(c, threshold)
    requires CounterRun(true, states, steps) && states[0] == Flush(c, threshold, true)
    ensures Held(states[|steps|], c.current, id) + TakenBy(steps, c.current, id) == GivenLate(states, steps, c.current, id)
  {
    UnfiledRun(true, states, steps, c.current, id);
  }

  // The shortest such run: flush, update, and the next interval begins.
  lemma UnfiledUpdateExample<K>(now: int, later: int, id: K, x: nat, y: nat)
    requires now < later && x > 0 && y > 0
    ensures var c := NewCounter<K>(now);
            var emptied := Flush(c, now, true);
            var updated := Update(emptied, now, id, x);
            var moved := Update(updated, later, id, y);
            && AgedOutEmpty(c, now)
            && updated.values == map[id := x] && Held(updated, now, id) == 0
            && moved.current == later && Held(moved, now, id) == 0 && moved.values == map[id := y]
  {
    assert Flush(NewCounter<K>(now), now, true).pending == map[];
  }

  /* ---- messages ---- */

  datatype BucketEvent<!K> = BucketEvent(name: string, report: Report<K>)

  // The reports of one counter among the queued events.
  function EventsOf<K>(events: seq<BucketEvent<K>>, name: string): seq<Report<K>> {
    if events == [] then [] else
      EventsOf(events[..|events| - 1], name) + if events[|events| - 1].name == name then [events[|events| - 1].report] else []
  }

  function Buckets<K>(m: map<string, seq<Report<K>>>, name: string): seq<Report<K>> {
    if name in m then m[name] else []
  }

  ghost predicate GatheredFor<K>(builder: map<string, seq<Report<K>>>, events: seq<BucketEvent<K>>, m: map<string, seq<Report<K>>>, name: string) {
    && Buckets(m, name) == Buckets(builder, name) + EventsOf(events, name)
    && (name in m <==> name in builder || EventsOf(events, name) != [])
  }

  ghost predicate Gathered<K>(builder: map<string, seq<Report<K>>>, events: seq<BucketEvent<K>>, m: map<string, seq<Report<K>>>) {
    forall name :: GatheredFor(builder, events, m, name)
  }

  lemma EventsOfOneMore<K>(events: seq<BucketEvent<K>>, e: BucketEvent<K>, name: string)
    ensures EventsOf(events + [e], name) == if e.name == name then EventsOf(events, name) + [e.report] else EventsOf(events, name)
  {
    assert (events + [e])[..|events|] == events;
  }

  lemma GatherOne<K>(builder: map<string, seq<Report<K>>>, events: seq<BucketEvent<K>>, m: map<string, seq<Report<K>>>, e: BucketEvent<K>)
    requires Gathered(builder, events, m)
    ensures Gathered(builder, events + [e], m[e.name := Buckets(m, e.name) + [e.report]])
  {
    var next := m[e.name := Buckets(m, e.name) + [e.report]];
    forall name
      ensures GatheredFor(builder, events + [e], next, name)
    {
      assert GatheredFor(builder, events, m, name);
      EventsOfOneMore(events, e, name);
    }
  }

  // Events of one counter are gathered under its name, in order.
  method AddIntervalBucketEvents<K>(builder: map<string, seq<Report<K>>>, events: seq<BucketEvent<K>>)
    returns (m: map<string, seq<Report<K>>>)
    ensures Gathered(builder, events, m)
  {
    m := builder;
    for k := 0 to |events|
      invariant Gathered(builder, events[..k], m)
    {
      var e := events[k];
      GatherOne(builder, events[..k], m, e);
      assert events[..k + 1] == events[..k] + [e];
      if e.name !in m {
        assert [] + [e.report] == [e.report];
        m := m[e.name := [e.report]];
      } else {
        m := m[e.name := m[e.name] + [e.report]];
      }
    }
    assert events[..|events|] == events;
  }

  /* ---- the registry over whole runs ---- */

  datatype Registry<!K> = Registry(counters: map<string, Counter<K>>, sent: seq<map<string, seq<Report<K>>>>)

  datatype Step<!K> =
    | UpdateStep(name: string, interval: int, id: K, value: nat)
    | FlushStep(thresholds: map<string, int>, events: seq<BucketEvent<K>>, message: map<string, seq<Report<K>>>)

  predicate Carries<K(==)>(message: map<string, seq<Report<K>>>, events: seq<BucketEvent<K>>, name: string) {
    Buckets(message, name) == EventsOf(events, name)
  }

  // A message built from nothing carries the events it was built from.
  lemma BuiltCarries<K>(events: seq<BucketEvent<K>>, message: map<string, seq<Report<K>>>, name: string)
    requires Gathered(map[], events, message)
    ensures Carries(message, events, name)
  {
    assert GatheredFor(map[], events, message, name);
  }

  // A step of the event loop, for counters whose flush drops empty buckets or not.
  ghost predicate Next<K>(drops: bool, a: Registry<K>, step: Step<K>, b: Registry<K>) {
    match step
    case UpdateStep(name, interval, id, value) =>
      && name in a.counters
      && b == a.(counters := a.counters[name := Update(a.counters[name], interval, id, value)])
    case FlushStep(thresholds, events, message) =>
      && thresholds.Keys == a.counters.Keys == b.counters.Keys
      && (forall name :: name in a.counters ==>
            && Reports(a.counters[name], thresholds[name], EventsOf(events, name))
            && b.counters[name] == Flush(a.counters[name], thresholds[name], drops))
      && (forall name :: name !in a.counters ==> EventsOf(events, name) == [])
      && (forall name :: Carries(message, events, name))
      && b.sent == a.sent + [message]
  }

  // No flush meets an empty current bucket it would drop.
  ghost predicate Careful<K>(drops: bool, a: Registry<K>, step: Step<K>) {
    step.FlushStep? && drops ==>
      forall name :: name in a.counters && name in step.thresholds ==> !AgedOutEmpty(a.counters[name], step.thresholds[name])
  }

  function SumSent<K>(sent: seq<map<string, seq<Report<K>>>>, name: string, i: int, id: K): nat {
    if sent == [] then 0 else SumSent(sent[..|sent| - 1], name, i, id) + SumOf(Buckets(sent[|sent| - 1], name), i, id)
  }

  function Total<K>(r: Registry<K>, name: string, i: int, id: K): nat {
    (if name in r.counters then Held(r.counters[name], i, id) else 0) + SumSent(r.sent, name, i, id)
  }

  function GivenBy<K(==)>(step: Step<K>, name: string, i: int, id: K): nat {
    if step.UpdateStep? && step.name == name && step.interval == i && step.id == id then step.value else 0
  }

  ghost predicate AllFiled<K>(r: Registry<K>) {
    forall name :: name in r.counters ==> Filed(r.counters[name])
  }

  lemma StepConserves<K>(drops: bool, a: Registry<K>, step: Step<K>, b: Registry<K>, name: string, i: int, id: K)
    requires AllFiled(a) && Next(drops, a, step, b)
    ensures Total(b, name, i, id) == Total(a, name, i, id) + GivenBy(step, name, i, id)
    ensures Careful(drops, a, step) ==> AllFiled(b)
    ensures b.counters.Keys == a.counters.Keys
  {
    match step
    case UpdateStep(n, interval, k, value) => UpdateConserves(a.counters[n], interval, k, value);
    case FlushStep(thresholds, events, message) =>
      assert b.sent[..|b.sent| - 1] == a.sent;
      assert Carries(message, events, name);
      if name in a.counters {
        FlushConserves(a.counters[name], thresholds[name], drops, EventsOf(events, name), i, id);
      }
      forall n | n in a.counters && Careful(drops, a, step)
        ensures Filed(b.counters[n])
      {
        FlushKeepsFiledIff(a.counters[n], thresholds[n], drops);
      }
  }

  ghost predicate Run<K>(drops: bool, states: seq<Registry<K>>, steps: seq<Step<K>>) {
    && |states| == |steps| + 1
    && (forall k :: 0 <= k < |steps| ==> Next(drops, states[k], steps[k], states[k + 1]) && Careful(drops, states[k], steps[k]))
  }

  function Given<K(==)>(steps: seq<Step<K>>, name: string, i: int, id: K): nat {
    if steps == [] then 0 else Given(steps[..|steps| - 1], name, i, id) + GivenBy(steps[|steps| - 1], name, i, id)
  }

  // Over any run, the updates given for a counter, interval and id add up to
  // what the messages sent so far and the pending buckets hold.
  lemma {:induction false} MetricsConserved<K>(drops: bool, states: seq<Registry<K>>, steps: seq<Step<K>>, name: string, i: int, id: K)
    requires Run(drops, states, steps) && AllFiled(states[0])
    ensures AllFiled(states[|steps|])
    ensures Total(states[|steps|], name, i, id) == Total(states[0], name, i, id) + Given(steps, name, i, id)
  {
    if steps != [] {
      var n := |steps| - 1;
      MetricsConserved(drops, states[..n + 1], steps[..n], name, i, id);
      assert Next(drops, states[n], steps[n], states[n + 1]);
      StepConserves(drops, states[n], steps[n], states[n + 1], name, i, id);
    }
  }

  lemma {:induction false} FiledThroughout<K>(drops: bool, states: seq<Registry<K>>, steps: seq<Step<K>>, k: nat, id: K)
    requires Run(drops, states, steps) && AllFiled(states[0]) && k <= |steps|
    ensures AllFiled(states[k])
  {
    if k > 0 {
      FiledThroughout(drops, states, steps, k - 1, id);
      StepConserves(drops, states[k - 1], steps[k - 1], states[k], "", 0, id);
    }
  }

  lemma FlushedHoldsNone<K>(drops: bool, a: Registry<K>, step: Step<K>, b: Registry<K>, name: string, i: int, id: K)
    requires AllFiled(a) && Next(drops, a, step, b) && step.FlushStep? && name in b.counters && name in step.thresholds
    requires i < b.counters[name].current || i <= step.thresholds[name]
    ensures Total(b, name, i, id) == SumSent(b.sent, name, i, id)
  {
    FlushLeaves(a.counters[name], step.thresholds[name], drops, i);
  }

  // A flush sends everything there is for an interval that is finished or old
  // enough: what the messages carry for it is then all it was ever given.
  lemma FinishedIsSent<K>(drops: bool, states: seq<Registry<K>>, steps: seq<Step<K>>, name: string, i: int, id: K)
    requires Run(drops, states, steps) && AllFiled(states[0])
    requires steps != [] && steps[|steps| - 1].FlushStep? && name in states[|steps|].counters
    requires name in steps[|steps| - 1].thresholds
    requires i < states[|steps|].counters[name].current || i <= steps[|steps| - 1].thresholds[name]
    ensures SumSent(states[|steps|].sent, name, i, id) == Total(states[0], name, i, id) + Given(steps, name, i, id)
  {
    var n := |steps| - 1;
    MetricsConserved(drops, states, steps, name, i, id);
    FiledThroughout(drops, states, steps, n, id);
    FlushedHoldsNone(drops, states[n], steps[n], states[n + 1], name, i, id);
  }
}
