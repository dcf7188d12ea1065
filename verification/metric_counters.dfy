// The counters as objects: buckets are shared by reference between the current
// slot, the interval table and the reports built from them.
module MetricCounters {
  import opened MetricBuckets

  class Bucket<K(==)> {
    var values: map<K, nat>

    constructor ()
      ensures values == map[]
    {
      values := map[];
    }
  }

  // A report keeps the very bucket it reports.
  datatype BucketReport<K(==)> = BucketReport(interval: int, bucket: Bucket<K>)

  ghost function BucketsOf<K>(rs: seq<BucketReport<K>>): set<Bucket<K>> {
    set k | 0 <= k < |rs| :: rs[k].bucket
  }

  ghost function View<K>(rs: seq<BucketReport<K>>): (v: seq<Report<K>>)
    reads BucketsOf(rs)
    ensures |v| == |rs| && forall k :: 0 <= k < |rs| ==> v[k] == Report(rs[k].interval, rs[k].bucket.values)
  {
    seq(|rs|, k requires 0 <= k < |rs| reads BucketsOf(rs) => Report(rs[k].interval, rs[k].bucket.values))
  }

  lemma Appended<K>(a: seq<BucketReport<K>>, b: seq<BucketReport<K>>)
    ensures BucketsOf(a + b) == BucketsOf(a) + BucketsOf(b)
    ensures View(a + b) == View(a) + View(b)
  {
    BucketsAppended(a, b);
  }

  lemma BucketsAppended<K>(a: seq<BucketReport<K>>, b: seq<BucketReport<K>>)
    ensures BucketsOf(a + b) == BucketsOf(a) + BucketsOf(b)
  {
    var ab := a + b;
    assert forall k :: 0 <= k < |a| ==> ab[k] == a[k];
    assert forall k :: 0 <= k < |b| ==> ab[|a| + k] == b[k];
  }

  // The table without the intervals that went, the current one in its place.
  function Rebuilt<B>(table: map<int, B>, gone: set<int>, current: int, b: B): map<int, B> {
    map i | i in table && i !in gone :: if i == current then b else table[i]
  }

  // The interval counter keeps old empty buckets; the usage counter drops them.
  class BucketCounter<K(==)> {
    const dropsEmpty: bool
    var currentInterval: int
    var currentValues: Bucket<K>
    var intervalMap: map<int, Bucket<K>>

    ghost function Live(): set<Bucket<K>>
      reads this
    {
      intervalMap.Values + {currentValues}
    }

    ghost function State(): Counter<K>
      reads this, Live()
    {
      Counter(currentInterval, currentValues.values, map i | i in intervalMap :: intervalMap[i].values)
    }

    // No bucket is filed twice, and the current one nowhere but under the
    // current interval.
    ghost predicate Valid()
      reads this
    {
      && (forall i, j :: i in intervalMap && j in intervalMap && intervalMap[i] == intervalMap[j] ==> i == j)
      && (forall i :: i in intervalMap ==> i <= currentInterval && (intervalMap[i] == currentValues <==> i == currentInterval))
    }

    constructor (now: int, drops: bool)
      ensures Valid() && fresh(Live()) && State() == NewCounter(now) && dropsEmpty == drops
    {
      var b := new Bucket<K>();
      dropsEmpty := drops;
      currentInterval, currentValues, intervalMap := now, b, map[now := b];
    }

    method GetValueMapForInterval(interval: int) returns (b: Bucket<K>)
      requires Valid()
      modifies this
      ensures Valid() && State() == Open(old(State()), interval) && b.values == BucketFor(old(State()), interval)
      ensures if interval == currentInterval then b == currentValues else interval in intervalMap && b == intervalMap[interval]
      ensures b in Live() && fresh(Live() - old(Live()))
    {
      if interval == currentInterval {
        return currentValues;
      }
      if interval in intervalMap {
        b := intervalMap[interval];
        assert b in intervalMap.Values;
        return;
      }
      b := new Bucket<K>();
      Install(interval, b);
    }

    method Install(interval: int, b: Bucket<K>)
      requires Valid() && b !in Live() && b.values == map[] && interval != currentInterval && interval !in intervalMap
      modifies this
      ensures Valid() && State() == Open(old(State()), interval)
      ensures intervalMap == old(intervalMap)[interval := b] && (interval == currentInterval ==> currentValues == b)
      ensures Live() <= old(Live()) + {b} && b in Live()
    {
      assert forall i :: i in intervalMap ==> intervalMap[i] in intervalMap.Values;
      intervalMap := intervalMap[interval := b];
      assert intervalMap[interval] in intervalMap.Values;
      if interval > currentInterval {
        currentInterval, currentValues := interval, b;
      }
    }

    method Update(interval: int, id: K, value: nat)
      requires Valid()
      modifies this, Live()
      ensures Valid() && fresh(Live() - old(Live()))
      ensures State() == MetricBuckets.Update(old(State()), interval, id, value)
    {
      if value == 0 {
        return;
      }
      var b := GetValueMapForInterval(interval);
      AddTo(b, interval, Add(b.values, id, value));
    }

    // Writing through a bucket changes the one interval it stands for.
    method AddTo(b: Bucket<K>, interval: int, v: map<K, nat>)
      requires Valid()
      requires if interval == currentInterval then b == currentValues else interval in intervalMap && b == intervalMap[interval]
      modifies b
      ensures State() == Put(old(State()), interval, v)
    {
      assert forall i :: i in intervalMap && intervalMap[i] == b ==> i == interval;
      b.values := v;
    }

    // The buckets themselves are left alone: a report carries the one it was
    // given, and the counter no longer does.
    method FlushIntervals(threshold: int) returns (rs: seq<BucketReport<K>>)
      requires Valid()
      modifies this
      ensures Valid() && fresh(Live() - old(Live()))
      ensures State() == Flush(old(State()), threshold, dropsEmpty)
      ensures Reports(old(State()), threshold, View(rs))
      ensures forall k :: 0 <= k < |rs| ==> rs[k].bucket in old(Live()) && rs[k].bucket !in Live()
    {
      ghost var c, table, was := State(), intervalMap, currentValues;
      rs := Sweep(threshold, c);
      LeftOver(c, threshold, dropsEmpty, table, was, intervalMap, currentValues);
      ListedReports(c, threshold, table, rs);
    }

    method Sweep(threshold: int, ghost c: Counter<K>) returns (rs: seq<BucketReport<K>>)
      requires Valid() && currentInterval == c.current && Holds(intervalMap, c)
      modifies this
      ensures currentInterval == old(currentInterval)
      ensures intervalMap == Rebuilt(old(intervalMap), Going(c, threshold, dropsEmpty), c.current, currentValues)
      ensures if Due(c, threshold, c.current)
              then fresh(currentValues) && currentValues.values == map[]
              else currentValues == old(currentValues)
      ensures Listed(c, threshold, old(intervalMap), {}, rs)
    {
      ghost var table := intervalMap;
      rs := [];
      var todo := intervalMap.Keys;
      NothingGone(c, threshold, dropsEmpty, table, currentValues);
      while todo != {}
        invariant todo <= table.Keys && currentInterval == c.current
        invariant intervalMap == Rebuilt(table, Going(c, threshold, dropsEmpty) - todo, c.current, currentValues)
        invariant if c.current !in todo && Due(c, threshold, c.current)
                  then fresh(currentValues) && currentValues.values == map[]
                  else currentValues == old(currentValues)
        invariant Listed(c, threshold, table, todo, rs)
        decreases |todo|
      {
        var i :| i in todo;
        ghost var was := currentValues;
        assert intervalMap[i] == table[i];
        var r := SweepOne(i, threshold, c);
        RebuiltNext(c, threshold, dropsEmpty, table, todo, i, was, currentValues);
        ListNext(c, threshold, table, todo, rs, i);
        rs := rs + r;
        todo := todo - {i};
      }
      assert Going(c, threshold, dropsEmpty) - todo == Going(c, threshold, dropsEmpty);
    }

    method SweepOne(i: int, threshold: int, ghost c: Counter<K>) returns (r: seq<BucketReport<K>>)
      requires i in intervalMap && i in c.pending && currentInterval == c.current && intervalMap[i].values == c.pending[i]
      modifies this
      ensures currentInterval == old(currentInterval)
      ensures intervalMap == if Goes(c, threshold, dropsEmpty, i) then old(intervalMap) - {i}
                             else if Due(c, threshold, i) then old(intervalMap)[i := currentValues]
                             else old(intervalMap)
      ensures if i == c.current && Due(c, threshold, i)
              then fresh(currentValues) && currentValues.values == map[]
              else currentValues == old(currentValues)
      ensures r == if Due(c, threshold, i) then [BucketReport(i, old(intervalMap)[i])] else []
    {
      r := [];
      var b := intervalMap[i];
      if i < currentInterval || i <= threshold {
        if b.values != map[] {
          r := [BucketReport(i, b)];
          if i == currentInterval {
            currentValues := new Bucket<K>();
            intervalMap := intervalMap[i := currentValues];
          } else {
            intervalMap := intervalMap - {i};
          }
        } else if dropsEmpty {
          intervalMap := intervalMap - {i};
        }
      }
    }
  }

  // The table's buckets have the counter's pending values.
  ghost predicate Holds<K>(table: map<int, Bucket<K>>, c: Counter<K>)
    reads table.Values
  {
    table.Keys == c.pending.Keys && forall i :: i in table ==> table[i].values == c.pending[i]
  }

  function Going<K>(c: Counter<K>, threshold: int, dropsEmpty: bool): set<int> {
    set i | i in c.pending && Goes(c, threshold, dropsEmpty, i)
  }

  lemma NothingGone<K>(c: Counter<K>, threshold: int, dropsEmpty: bool, table: map<int, Bucket<K>>, b: Bucket<K>)
    requires table.Keys == c.pending.Keys && (c.current in table ==> table[c.current] == b)
    ensures Rebuilt(table, Going(c, threshold, dropsEmpty) - table.Keys, c.current, b) == table
  {
  }

  lemma RebuiltNext<K>(c: Counter<K>, threshold: int, dropsEmpty: bool, table: map<int, Bucket<K>>, todo: set<int>, i: int,
                       was: Bucket<K>, now: Bucket<K>)
    requires table.Keys == c.pending.Keys && i in todo && todo <= table.Keys
    requires i != c.current || !Due(c, threshold, i) ==> now == was
    ensures var before := Rebuilt(table, Going(c, threshold, dropsEmpty) - todo, c.current, was);
            Rebuilt(table, Going(c, threshold, dropsEmpty) - (todo - {i}), c.current, now) ==
            if Goes(c, threshold, dropsEmpty, i) then before - {i} else if Due(c, threshold, i) then before[i := now] else before
  {
  }

  lemma ListNext<K>(c: Counter<K>, threshold: int, table: map<int, Bucket<K>>, todo: set<int>, rs: seq<BucketReport<K>>, i: int)
    requires Listed(c, threshold, table, todo, rs) && i in todo && i in table
    ensures Listed(c, threshold, table, todo - {i}, rs + if Due(c, threshold, i) then [BucketReport(i, table[i])] else [])
  {
    if Due(c, threshold, i) {
      ListOne(c, threshold, table, todo, rs, i);
    } else {
      assert rs + [] == rs;
    }
  }

  // Reading the swept table gives the flushed counter.
  lemma LeftOver<K>(c: Counter<K>, threshold: int, dropsEmpty: bool, table: map<int, Bucket<K>>, was: Bucket<K>,
                    swept: map<int, Bucket<K>>, now: Bucket<K>)
    requires Holds(table, c)
    requires c.current in table ==> table[c.current] == was
    requires was.values == c.values
    requires swept == Rebuilt(table, Going(c, threshold, dropsEmpty), c.current, now)
    requires if Due(c, threshold, c.current) then now.values == map[] else now == was
    ensures Counter(c.current, now.values, map i | i in swept :: swept[i].values) == Flush(c, threshold, dropsEmpty)
  {
    var pending := map i | i in swept :: swept[i].values;
    forall i
      ensures i in pending <==> i in Flush(c, threshold, dropsEmpty).pending
      ensures i in pending ==> pending[i] == Flush(c, threshold, dropsEmpty).pending[i]
    {
    }
  }

  lemma ListedReports<K>(c: Counter<K>, threshold: int, table: map<int, Bucket<K>>, rs: seq<BucketReport<K>>)
    requires Holds(table, c)
    requires Listed(c, threshold, table, {}, rs)
    ensures Reports(c, threshold, View(rs))
  {
    var v := View(rs);
    forall i | Due(c, threshold, i)
      ensures Reported(v, i)
    {
      assert Lists(rs, i);
      var k :| 0 <= k < |rs| && rs[k].interval == i;
      assert v[k].interval == i;
    }
  }

  ghost predicate Lists<K>(rs: seq<BucketReport<K>>, i: int) {
    exists k :: 0 <= k < |rs| && rs[k].interval == i
  }

  ghost predicate DueBucket<K>(c: Counter<K>, threshold: int, table: map<int, Bucket<K>>, todo: set<int>, r: BucketReport<K>) {
    r.interval in table && r.interval !in todo && Due(c, threshold, r.interval) && r.bucket == table[r.interval]
  }

  // Every due bucket outside todo is listed once, as the table has it.
  ghost predicate Listed<K>(c: Counter<K>, threshold: int, table: map<int, Bucket<K>>, todo: set<int>, rs: seq<BucketReport<K>>) {
    && (forall a, b :: 0 <= a < b < |rs| ==> rs[a].interval != rs[b].interval)
    && (forall k :: 0 <= k < |rs| ==> DueBucket(c, threshold, table, todo, rs[k]))
    && (forall i :: Due(c, threshold, i) && i !in todo ==> Lists(rs, i))
  }

  lemma ListOne<K>(c: Counter<K>, threshold: int, table: map<int, Bucket<K>>, todo: set<int>, rs: seq<BucketReport<K>>, i: int)
    requires Listed(c, threshold, table, todo, rs) && i in todo && i in table && Due(c, threshold, i)
    ensures Listed(c, threshold, table, todo - {i}, rs + [BucketReport(i, table[i])])
  {
    var all := rs + [BucketReport(i, table[i])];
    assert all[|rs|].interval == i;
    forall j | Due(c, threshold, j) && j !in todo
      ensures Lists(all, j)
    {
      var k :| 0 <= k < |rs| && rs[k].interval == j;
      assert all[k].interval == j;
    }
  }

  // Reports handed out and the buckets still being filled never overlap, so a
  // report stays as it was when it was made.
  class Reporter<K(==)> {
    const counter: BucketCounter<K>
    var reported: seq<BucketReport<K>>

    ghost predicate Valid()
      reads this, counter
    {
      counter.Valid() && BucketsOf(reported) !! counter.Live()
    }

    constructor (c: BucketCounter<K>)
      requires c.Valid()
      ensures Valid() && counter == c && reported == []
    {
      counter := c;
      reported := [];
    }

    method Update(interval: int, id: K, value: nat)
      requires Valid()
      modifies counter, counter.Live()
      ensures Valid() && fresh(counter.Live() - old(counter.Live()))
      ensures counter.State() == MetricBuckets.Update(old(counter.State()), interval, id, value)
      ensures View(reported) == old(View(reported))
    {
      counter.Update(interval, id, value);
    }

    method Flush(threshold: int) returns (rs: seq<BucketReport<K>>)
      requires Valid()
      modifies this, counter
      ensures Valid() && fresh(counter.Live() - old(counter.Live()))
      ensures counter.State() == MetricBuckets.Flush(old(counter.State()), threshold, counter.dropsEmpty)
      ensures Reports(old(counter.State()), threshold, View(rs))
      ensures View(reported) == old(View(reported)) + View(rs)
    {
      ghost var was := reported;
      rs := counter.FlushIntervals(threshold);
      reported := reported + rs;
      Appended(was, rs);
    }
  }
}
