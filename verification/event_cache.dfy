// The ring buffer that holds the controller's recent change sets.
module EventCaches {
  import opened DataState
  import Spec = EventLog
  import opened EventLog

  /* ---- how the ring lays out the log ---- */

  // The log position a used slot holds: slots up to the head belong to the
  // current lap, those after it to the lap before.
  function PositionOf(c: Log, head: nat, i: nat): int {
    if i <= head then |c.stored| - head + i else |c.stored| - head + i - c.size
  }

  ghost predicate Ring(log: seq<nat>, head: nat, c: Log) {
    var n := |c.stored|;
    && |log| == c.size && head < c.size && head <= n
    && (n == head || n - head >= c.size)
    && forall i :: 0 <= i < c.size ==> log[i] == if PositionOf(c, head, i) >= 0 then IndexAt(c, PositionOf(c, head, i)) else 0
  }

  lemma NextSlot(head: nat, size: nat)
    requires head < size
    ensures (head + 1) % size == if head + 1 < size then head + 1 else 0
  {
    if head + 1 < size {
      assert (head + 1) % size == head + 1;
    } else {
      assert size % size == 0;
    }
  }

  // Storing one more moves the target slot to the newest position and leaves
  // what every other slot stands for.
  lemma PositionsMove(c: Log, d: Log, head: nat, t: nat, i: nat)
    requires head < c.size && i < c.size && d.size == c.size && |d.stored| == |c.stored| + 1
    requires t == if head + 1 < c.size then head + 1 else 0
    ensures PositionOf(d, t, i) == if i == t then |c.stored| + 1 else PositionOf(c, head, i)
    ensures PositionOf(c, head, t) == |c.stored| + 1 - c.size
  {
  }

  lemma RingStore(log: seq<nat>, head: nat, c: Log, cs: ChangeSet)
    requires Chained(c) && Ring(log, head, c) && Acceptable(c, cs)
    ensures var t := (head + 1) % c.size;
            log[t] == Evicted(c) && Ring(log[t := cs.index], t, Store(c, cs))
  {
    NextSlot(head, c.size);
    var t := (head + 1) % c.size;
    var d := Store(c, cs);
    PositionsMove(c, d, head, t, t);
    var next := log[t := cs.index];
    forall i | 0 <= i < c.size
      ensures next[i] == if PositionOf(d, t, i) >= 0 then IndexAt(d, PositionOf(d, t, i)) else 0
    {
      PositionsMove(c, d, head, t, i);
      if i != t && PositionOf(c, head, i) >= 0 {
        assert IndexAt(d, PositionOf(c, head, i)) == IndexAt(c, PositionOf(c, head, i));
      }
    }
  }

  /* ---- the events by index ---- */

  ghost predicate Files(events: map<nat, ChangeSet>, es: seq<ChangeSet>) {
    && (forall k :: 0 <= k < |es| ==> es[k].index in events && events[es[k].index] == es[k])
    && (forall x :: x in events ==> exists k :: 0 <= k < |es| && es[k].index == x)
  }

  lemma FilesAdd(events: map<nat, ChangeSet>, es: seq<ChangeSet>, e: ChangeSet)
    requires Files(events, es) && forall k :: 0 <= k < |es| ==> es[k].index < e.index
    ensures Files(events[e.index := e], es + [e])
  {
    var all, filed := es + [e], events[e.index := e];
    forall x | x in filed
      ensures exists k :: 0 <= k < |all| && all[k].index == x
    {
      if x == e.index {
        assert all[|es|].index == x;
      } else {
        var k :| 0 <= k < |es| && es[k].index == x;
        assert all[k].index == x;
      }
    }
  }

  lemma FilesDrop(events: map<nat, ChangeSet>, es: seq<ChangeSet>)
    requires Files(events, es) && Increasing(es) && es != []
    ensures Files(events - {es[0].index}, es[1..])
  {
    var rest := es[1..];
    forall x | x in events - {es[0].index}
      ensures exists k :: 0 <= k < |rest| && rest[k].index == x
    {
      var k :| 0 <= k < |es| && es[k].index == x;
      assert rest[k - 1].index == x;
    }
    assert forall k :: 0 <= k < |rest| ==> rest[k] == es[k + 1];
  }

  function Kept(events: map<nat, ChangeSet>, evicted: nat): map<nat, ChangeSet> {
    if evicted != 0 then events - {evicted} else events
  }

  function Remaining(c: Log): seq<ChangeSet> {
    if |c.stored| < c.size || Held(c) == [] then Held(c) else Held(c)[1..]
  }

  lemma FilesEvict(events: map<nat, ChangeSet>, c: Log)
    requires Chained(c) && Files(events, Held(c))
    ensures Files(Kept(events, Evicted(c)), Remaining(c))
  {
    if |c.stored| < c.size {
      if |c.stored| + 1 == c.size {
        BaseNotFiled(events, c);
        assert events - {c.base} == events;
      }
    } else {
      assert Evicted(c) == Held(c)[0].index;
      assert IndexAt(c, 0) < IndexAt(c, FirstHeld(c) + 1);
      ChainedIncreasing(c);
      FilesDrop(events, Held(c));
    }
  }

  lemma FilesStore(events: map<nat, ChangeSet>, c: Log, cs: ChangeSet)
    requires Chained(c) && Acceptable(c, cs) && Files(events, Held(c))
    ensures Files(Kept(events, Evicted(c))[cs.index := Linked(c, cs)], Held(Store(c, cs)))
  {
    assert Held(Store(c, cs)) == Remaining(c) + [Linked(c, cs)];
    var rest := Remaining(c);
    forall k | 0 <= k < |rest|
      ensures rest[k].index < cs.index
    {
      HeldUpToCurrent(c, rest[k].index);
    }
    assert Files(Kept(events, Evicted(c)), rest) by {
      FilesEvict(events, c);
    }
    FilesAdd(Kept(events, Evicted(c)), rest, Linked(c, cs));
  }

  lemma HeldUpToCurrent(c: Log, s: nat)
    requires Chained(c) && Holds(c, s)
    ensures s <= Current(c)
  {
    var k :| 0 <= k < |Held(c)| && Held(c)[k].index == s;
    var p := FirstHeld(c) + k + 1;
    assert IndexAt(c, p) == s;
    assert p < |c.stored| ==> IndexAt(c, p) < IndexAt(c, |c.stored|);
  }

  lemma BaseNotFiled(events: map<nat, ChangeSet>, c: Log)
    requires Chained(c) && Files(events, Held(c))
    ensures c.base !in events
  {
    if c.base in events {
      var k :| 0 <= k < |Held(c)| && Held(c)[k].index == c.base;
      HeldBeyondBase(c, c.base);
      assert false;
    }
  }

  /* ---- from a slot to the change sets it starts ---- */

  lemma SlotOfHeld(log: seq<nat>, head: nat, c: Log, s: nat)
    requires Chained(c) && Ring(log, head, c) && Holds(c, s)
    ensures exists i :: 0 <= i < |log| && log[i] == s
  {
    var k :| 0 <= k < |Held(c)| && Held(c)[k].index == s;
    var p := FirstHeld(c) + k + 1;
    assert IndexAt(c, p) == s;
    var n := |c.stored|;
    var i := if p >= n - head then p - (n - head) else p - (n - head) + c.size;
    assert PositionOf(c, head, i) == p;
    assert log[i] == s;
  }

  lemma OnePosition(c: Log, p: nat, q: nat)
    requires Chained(c) && p <= |c.stored| && q <= |c.stored|
    ensures IndexAt(c, p) == IndexAt(c, q) <==> p == q
  {
    if p < q {
      assert IndexAt(c, p) < IndexAt(c, q);
    } else if q < p {
      assert IndexAt(c, q) < IndexAt(c, p);
    }
  }

  // Only one slot holds the index, and the change sets from that index start
  // at the position it stands for.
  lemma SlotStartsReplay(log: seq<nat>, head: nat, c: Log, s: nat, i: nat)
    requires Chained(c) && Ring(log, head, c) && Holds(c, s) && i < |log| && log[i] == s
    ensures PositionOf(c, head, i) > FirstHeld(c)
    ensures From(Held(c), s) == c.stored[PositionOf(c, head, i) - 1..]
  {
    var k :| 0 <= k < |Held(c)| && Held(c)[k].index == s;
    var p, q := FirstHeld(c) + k + 1, PositionOf(c, head, i);
    HeldBeyondBase(c, s);
    OnePosition(c, p, q);
    assert From(Held(c), s) == Held(c)[k..] by {
      ChainedIncreasing(c);
      FromIsSuffix(Held(c), s, k);
    }
    assert Held(c)[k..] == c.stored[p - 1..];
  }

  lemma SlotIsFiled(log: seq<nat>, head: nat, c: Log, events: map<nat, ChangeSet>, j: nat)
    requires Chained(c) && Ring(log, head, c) && Files(events, Held(c))
    requires j < |log| && PositionOf(c, head, j) > FirstHeld(c)
    ensures log[j] in events && events[log[j]] == c.stored[PositionOf(c, head, j) - 1]
  {
    var q := PositionOf(c, head, j);
    assert log[j] == IndexAt(c, q);
    assert Held(c)[q - 1 - FirstHeld(c)] == c.stored[q - 1];
  }

  // The slots from i to the head, around the end if need be.
  function LapFrom(log: seq<nat>, head: nat, i: nat): seq<nat>
    requires i < |log| && head < |log|
  {
    if i <= head then log[i..head + 1] else log[i..] + log[..head + 1]
  }

  lemma LapPosition(log: seq<nat>, head: nat, c: Log, i: nat, k: nat)
    requires Ring(log, head, c) && i < |log| && PositionOf(c, head, i) >= 0 && k < |LapFrom(log, head, i)|
    ensures var j := if i + k < |log| then i + k else i + k - |log|;
            LapFrom(log, head, i)[k] == log[j] && PositionOf(c, head, j) == PositionOf(c, head, i) + k
  {
  }

  // The keys file the events from position `from` on, in order.
  ghost predicate FilesFrom(events: map<nat, ChangeSet>, keys: seq<nat>, es: seq<ChangeSet>, from: nat) {
    from + |keys| == |es| && forall k :: 0 <= k < |keys| ==> keys[k] in events && events[keys[k]] == es[from + k]
  }

  lemma SlotsFiled(log: seq<nat>, head: nat, c: Log, events: map<nat, ChangeSet>, i: nat)
    requires Chained(c) && Ring(log, head, c) && Files(events, Held(c))
    requires i < |log| && PositionOf(c, head, i) > FirstHeld(c)
    ensures FilesFrom(events, LapFrom(log, head, i), c.stored, PositionOf(c, head, i) - 1)
  {
    var keys := LapFrom(log, head, i);
    forall k | 0 <= k < |keys|
      ensures keys[k] in events && events[keys[k]] == c.stored[PositionOf(c, head, i) - 1 + k]
    {
      LapPosition(log, head, c, i, k);
      SlotIsFiled(log, head, c, events, if i + k < |log| then i + k else i + k - |log|);
    }
  }

  predicate AllFiled(events: map<nat, ChangeSet>, keys: seq<nat>) {
    forall k :: 0 <= k < |keys| ==> keys[k] in events
  }

  function Picked(events: map<nat, ChangeSet>, keys: seq<nat>): (r: seq<ChangeSet>)
    requires AllFiled(events, keys)
    ensures |r| == |keys| && forall k :: 0 <= k < |r| ==> r[k] == events[keys[k]]
  {
    if keys == [] then [] else Picked(events, keys[..|keys| - 1]) + [events[keys[|keys| - 1]]]
  }

  lemma LapIsStored(log: seq<nat>, head: nat, c: Log, events: map<nat, ChangeSet>, i: nat)
    requires Chained(c) && Ring(log, head, c) && Files(events, Held(c))
    requires i < |log| && PositionOf(c, head, i) > FirstHeld(c)
    ensures AllFiled(events, LapFrom(log, head, i))
    ensures Picked(events, LapFrom(log, head, i)) == c.stored[PositionOf(c, head, i) - 1..]
  {
    SlotsFiled(log, head, c, events, i);
    PickedAre(events, LapFrom(log, head, i), c.stored, PositionOf(c, head, i) - 1);
  }

  lemma PickedAre(events: map<nat, ChangeSet>, keys: seq<nat>, es: seq<ChangeSet>, from: nat)
    requires FilesFrom(events, keys, es, from)
    ensures AllFiled(events, keys) && Picked(events, keys) == es[from..]
  {
    var r := Picked(events, keys);
    forall k | 0 <= k < |r|
      ensures r[k] == es[from..][k]
    {
      assert events[keys[k]] == es[from + k];
    }
  }

  // Skipping indices that are not held does not change what is replayed.
  lemma SkipUnheld(c: Log, s: nat, t: nat)
    requires Chained(c) && s <= t && forall x :: s <= x < t ==> !Holds(c, x)
    ensures From(Held(c), s) == From(Held(c), t)
  {
    ChainedIncreasing(c);
    var k := Start(Held(c), s);
    if k < |Held(c)| && Held(c)[k].index < t {
      assert Holds(c, Held(c)[k].index);
    }
    FromIsSuffix(Held(c), s, k);
    FromIsSuffix(Held(c), t, k);
  }

  method AppendPicked(result: seq<ChangeSet>, events: map<nat, ChangeSet>, keys: seq<nat>) returns (r: seq<ChangeSet>)
    requires AllFiled(events, keys)
    ensures r == result + Picked(events, keys)
  {
    r := result;
    for k := 0 to |keys|
      invariant r == result + Picked(events, keys[..k])
    {
      assert keys[..k + 1][..k] == keys[..k];
      r := r + [events[keys[k]]];
    }
    assert keys[..|keys|] == keys;
  }

  lemma {:induction false} PickedConcat(events: map<nat, ChangeSet>, a: seq<nat>, b: seq<nat>)
    requires AllFiled(events, a) && AllFiled(events, b)
    ensures AllFiled(events, a + b)
    ensures Picked(events, a + b) == Picked(events, a) + Picked(events, b)
    decreases |b|
  {
    if b == [] {
      assert a + b == a;
    } else {
      var init := b[..|b| - 1];
      PickedConcat(events, a, init);
      assert (a + b)[..|a + b| - 1] == a + init;
    }
  }

  lemma FiledParts(events: map<nat, ChangeSet>, a: seq<nat>, b: seq<nat>)
    requires AllFiled(events, a + b)
    ensures AllFiled(events, a) && AllFiled(events, b)
  {
    forall k | 0 <= k < |b|
      ensures b[k] in events
    {
      assert (a + b)[|a| + k] == b[k];
    }
    forall k | 0 <= k < |a|
      ensures a[k] in events
    {
      assert (a + b)[k] == a[k];
    }
  }

  method ReadLap(log: seq<nat>, head: nat, i: nat, events: map<nat, ChangeSet>) returns (r: seq<ChangeSet>)
    requires i < |log| && head < |log| && AllFiled(events, LapFrom(log, head, i))
    ensures r == Picked(events, LapFrom(log, head, i))
  {
    if i <= head {
      r := AppendPicked([], events, log[i..head + 1]);
    } else {
      FiledParts(events, log[i..], log[..head + 1]);
      PickedConcat(events, log[i..], log[..head + 1]);
      r := AppendPicked([], events, log[i..]);
      r := AppendPicked(r, events, log[..head + 1]);
    }
  }

  ghost predicate Represents(log: seq<nat>, head: nat, events: map<nat, ChangeSet>, c: Log) {
    Chained(c) && Ring(log, head, c) && Files(events, Held(c))
  }

  lemma StoreRepresents(log: seq<nat>, head: nat, events: map<nat, ChangeSet>, c: Log, cs: ChangeSet)
    requires Represents(log, head, events, c) && Acceptable(c, cs)
    ensures var t := (head + 1) % c.size;
            && t < |log| && log[t] == Evicted(c)
            && Represents(log[t := cs.index], t, Kept(events, Evicted(c))[cs.index := Linked(c, cs)], Store(c, cs))
  {
    StoreKeepsChained(c, cs);
    RingStore(log, head, c, cs);
    FilesStore(events, c, cs);
  }

  class LoggingEventCache {
    const logSize: nat
    var head: nat
    var minEntry: nat
    var log: array<nat>
    var events: map<nat, ChangeSet>
    ghost var base: nat
    ghost var stored: seq<ChangeSet>

    ghost function State(): Log
      reads this
    {
      Log(logSize, base, stored, minEntry)
    }

    ghost predicate Valid()
      reads this, log
    {
      Represents(log[..], head, events, State())
    }

    constructor (size: nat)
      requires size > 0
      ensures Valid() && fresh(log) && State() == EmptyLog(size)
    {
      logSize := size;
      head, minEntry := 0, 0;
      log := new nat[size](_ => 0);
      events := map[];
      base, stored := 0, [];
    }

    method SetCurrentIndex(index: nat)
      requires Valid()
      modifies this
      ensures Valid() && fresh(log) && State() == Spec.SetCurrentIndex(old(State()), index)
    {
      head := 0;
      log := new nat[logSize](_ => 0);
      log[0] := index;
      events := map[];
      base, stored := index, [];
    }

    method CurrentIndex() returns (index: nat)
      requires Valid()
      ensures index == Current(State())
    {
      assert PositionOf(State(), head, head) == |stored|;
      index := log[..][head];
    }

    // The stored change set carries the index it follows; the caller sends on
    // that one.
    method Store(cs: ChangeSet) returns (accepted: bool, linked: ChangeSet)
      requires Valid()
      modifies this, log
      ensures Valid() && log == old(log) && State() == Spec.Store(old(State()), cs)
      ensures accepted <==> cs.isSynthetic || Acceptable(old(State()), cs)
      ensures linked == if Acceptable(old(State()), cs) then Linked(old(State()), cs) else cs
    {
      if cs.isSynthetic {
        return true, cs;
      }
      var current := CurrentIndex();
      if current >= cs.index {
        return false, cs;
      }
      linked := cs.(previousIndex := current);
      Insert(linked);
      accepted := true;
    }

    method Insert(linked: ChangeSet)
      requires Valid() && Acceptable(State(), linked) && linked == Linked(State(), linked)
      modifies this, log
      ensures Valid() && log == old(log) && State() == Spec.Store(old(State()), linked)
    {
      ghost var was, c := log[..], State();
      StoreRepresents(was, head, events, c, linked);
      var target := (head + 1) % logSize;
      var evicted := log[target];
      var floor := if evicted != 0 then evicted + 1 else minEntry;
      events := Kept(events, evicted)[linked.index := linked];
      log[target] := linked.index;
      head := target;
      minEntry := if floor == 0 then linked.index else floor;
      stored := stored + [linked];
      assert log[..] == was[target := linked.index];
    }

    method FindSlot(s: nat, tryStart: nat) returns (i: nat)
      requires Valid() && Holds(State(), s) && tryStart <= head
      ensures i < log.Length && log[i] == s
    {
      i := tryStart;
      while i < log.Length && log[i] != s
        invariant tryStart <= i <= log.Length
        invariant forall j :: tryStart <= j < i ==> log[j] != s
      {
        i := i + 1;
      }
      if i == log.Length {
        SlotOfHeld(log[..], head, State(), s);
        i := 0;
        while log[i] != s
          invariant i < tryStart && forall j :: 0 <= j < i ==> log[j] != s
          decreases log.Length - i
        {
          i := i + 1;
        }
      }
    }

    method ReadFrom(s: nat, i: nat) returns (r: seq<ChangeSet>)
      requires Valid() && Holds(State(), s) && i < log.Length && log[i] == s
      ensures r == From(Held(State()), s)
    {
      SlotStartsReplay(log[..], head, State(), s, i);
      LapIsStored(log[..], head, State(), events, i);
      r := ReadLap(log[..], head, i, events);
    }

    method ReplayFrom(startIndex: nat) returns (result: ReplayResult)
      requires Valid()
      ensures result == Spec.ReplayFrom(State(), startIndex)
    {
      ghost var c := State();
      var start := startIndex;
      var headIndex := CurrentIndex();
      while start !in events
        invariant start == startIndex || (c.minEntry <= startIndex < start <= headIndex)
        invariant forall x :: startIndex <= x < start ==> x !in events
        decreases headIndex - start
      {
        if c.stored != [] {
          HeadIsHeld(c);
        }
        if start > headIndex {
          return RequestFromFuture;
        }
        if start < minEntry {
          return FullSyncRequired;
        }
        start := start + 1;
        if start > headIndex {
          return FullSyncRequired;
        }
      }
      assert Holds(c, start);
      HeldUpToCurrent(c, start);
      SkipUnheld(c, startIndex, start);
      var tryStart := if head >= headIndex - start then head - (headIndex - start) else 0;
      var i := FindSlot(start, tryStart);
      var es := ReadFrom(start, i);
      result := Success(es);
    }
  }

  lemma HeadIsHeld(c: Log)
    requires Chained(c) && c.stored != []
    ensures Holds(c, Current(c))
  {
    assert Held(c)[|Held(c)| - 1].index == Current(c);
  }
}
