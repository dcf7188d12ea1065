// The asynchronous log handler: producers, a bounded queue, one drain, a
// synchronous bypass, drop counters and shutdown, as a step system.
module AsyncLog {

  const LEVEL_DEBUG := -4
  const LEVEL_INFO := 0
  const LEVEL_WARN := 4
  const LEVEL_ERROR := 8
  const LEVEL_FATAL := 12
  const LEVEL_PANIC := 16
  const COUNTERS := 7

  // Levels in between count with the canonical level they exceed.
  function DropIdx(level: int): nat {
    if level < LEVEL_DEBUG then 0
    else if level < LEVEL_INFO then 1
    else if level < LEVEL_WARN then 2
    else if level < LEVEL_ERROR then 3
    else if level < LEVEL_FATAL then 4
    else if level < LEVEL_PANIC then 5
    else 6
  }

  // The levels at which the counters after the first begin.
  const BOUNDS := [LEVEL_DEBUG, LEVEL_INFO, LEVEL_WARN, LEVEL_ERROR, LEVEL_FATAL, LEVEL_PANIC]

  // Each level counts in exactly one counter: the one of the last bound it reaches.
  lemma OneCounterPerLevel(level: int, i: nat)
    requires i < COUNTERS
    ensures DropIdx(level) < COUNTERS
    ensures DropIdx(level) == i <==> (i > 0 ==> BOUNDS[i - 1] <= level) && (i < |BOUNDS| ==> level < BOUNDS[i])
  {
  }

  // Every Handle call has a record of its own.
  type Rec = nat

  datatype Config = Config(queueSize: nat, blockThreshold: int, level: Rec -> int)

  datatype Option<T> = None | Some(value: T)

  // A Handle call: past the closed check; took effect and returned; returned
  // without effect because the handler is closing.
  datatype Call = Trying | Placed | Lost

  // The drain: its main loop, swapping drop counters (counter next, final or
  // not), the final flush, ended.
  datatype Drain = Main | Summing(next: nat, last: bool) | Flushing | Done

  datatype State = State(
    calls: map<Rec, Call>,
    queue: seq<Rec>,
    inflight: Option<Rec>,      // pulled by the drain, not yet written
    delivered: seq<Rec>,        // queued records written downstream, in order
    counts: seq<nat>,           // the live drop counters
    live: set<Rec>,             // dropped, in a live counter
    swapped: set<Rec>,          // dropped, in the summary being put together
    summarised: set<Rec>,       // dropped, in a summary that was written
    drain: Drain,
    closed: bool,
    notified: bool,
    early: set<Rec>,            // calls that had returned when the handler was closed
    emitting: Option<Rec>,      // the synchronous emit that holds the downstream lock
    budget: nat,                // how many more queued records it may flush
    backlog: seq<Rec>,          // what was queued when it took the lock
    ahead: nat,                 // how many of those still head the queue
    order: seq<Rec>,            // records in the order they were queued
    overtaken: set<(Rec, Rec)>) // in flight while the other was flushed by an emit

  const START := State(map[], [], None, [], [0, 0, 0, 0, 0, 0, 0], {}, {}, {}, Main, false, false, {}, None, 0, [], 0, [], {})

  datatype Step =
    | Begin(rec: Rec)
    | Put(rec: Rec)
    | Drop(rec: Rec)
    | Abort(rec: Rec)
    | Close
    | Notify
    | Pull
    | Deliver
    | Tick
    | Swap
    | Emit
    | StartFlush
    | EndFlush
    | SyncBegin(rec: Rec)
    | SyncFlush
    | SyncFinish

  predicate Enabled(cfg: Config, st: State, step: Step) {
    match step
    case Begin(r) => r !in st.calls
    case Put(r) => r in st.calls && st.calls[r].Trying? && |st.queue| < cfg.queueSize
    case Drop(r) => r in st.calls && st.calls[r].Trying? && cfg.level(r) < cfg.blockThreshold && |st.queue| >= cfg.queueSize
    case Abort(r) => r in st.calls && st.calls[r].Trying? && cfg.level(r) >= cfg.blockThreshold && st.notified
    case Close => !st.closed
    case Notify => st.closed && !st.notified
    case Pull => (st.drain.Main? || st.drain.Flushing?) && st.inflight.None? && st.queue != []
    case Deliver => st.inflight.Some? && st.emitting.None?
    case Tick => st.drain.Main? && st.inflight.None?
    case Swap => st.drain.Summing? && st.drain.next < COUNTERS
    case Emit => st.drain.Summing? && st.drain.next == COUNTERS && (st.swapped == {} || st.emitting.None?)
    case StartFlush => st.drain.Main? && st.inflight.None? && st.notified
    case EndFlush => st.drain.Flushing? && st.inflight.None? && st.queue == []
    case SyncBegin(r) => st.emitting.None?
    case SyncFlush => st.emitting.Some? && st.budget > 0 && st.queue != []
    case SyncFinish => st.emitting.Some? && (st.budget == 0 || st.queue == [])
  }

  function InCounter(cfg: Config, rs: set<Rec>, i: nat): set<Rec> {
    set r | r in rs && DropIdx(cfg.level(r)) == i
  }

  function Next(cfg: Config, st: State, step: Step): State
    requires Enabled(cfg, st, step) && |st.counts| == COUNTERS
  {
    match step
    case Begin(r) => st.(calls := st.calls[r := if st.closed then Lost else Trying])
    case Put(r) => st.(calls := st.calls[r := Placed], queue := st.queue + [r], order := st.order + [r])
    case Drop(r) =>
      var i := DropIdx(cfg.level(r));
      st.(calls := st.calls[r := Placed], counts := st.counts[i := st.counts[i] + 1], live := st.live + {r})
    case Abort(r) => st.(calls := st.calls[r := Lost])
    case Close => st.(closed := true, early := set r | r in st.calls && !st.calls[r].Trying?)
    case Notify => st.(notified := true)
    case Pull => st.(queue := st.queue[1..], inflight := Some(st.queue[0]), ahead := if st.ahead > 0 then st.ahead - 1 else 0)
    case Deliver => st.(inflight := None, delivered := st.delivered + [st.inflight.value])
    case Tick => st.(drain := Summing(0, false))
    case Swap =>
      var taken := InCounter(cfg, st.live, st.drain.next);
      st.(counts := st.counts[st.drain.next := 0], live := st.live - taken, swapped := st.swapped + taken,
          drain := Summing(st.drain.next + 1, st.drain.last))
    case Emit =>
      st.(swapped := {}, summarised := st.summarised + st.swapped, drain := if st.drain.last then Done else Main)
    case StartFlush => st.(drain := Flushing)
    case EndFlush => st.(drain := Summing(0, true))
    case SyncBegin(r) => st.(emitting := Some(r), budget := cfg.queueSize, backlog := st.queue, ahead := |st.queue|)
    case SyncFlush =>
      st.(queue := st.queue[1..], delivered := st.delivered + [st.queue[0]], budget := st.budget - 1,
          ahead := if st.ahead > 0 then st.ahead - 1 else 0,
          overtaken := if st.inflight.Some? then st.overtaken + {(st.inflight.value, st.queue[0])} else st.overtaken)
    case SyncFinish => st.(emitting := None)
  }

  /* ---- accounting ---- */

  predicate Distinct(rs: seq<Rec>) {
    forall a, b :: 0 <= a < b < |rs| ==> rs[a] != rs[b]
  }

  function Bit(b: bool): nat {
    if b then 1 else 0
  }

  // In how many places a record is accounted for.
  function Places(st: State, r: Rec): nat {
    Bit(r in st.queue) + Bit(st.inflight == Some(r)) + Bit(r in st.delivered) +
    Bit(r in st.live) + Bit(r in st.swapped) + Bit(r in st.summarised)
  }

  predicate WasDropped(st: State, r: Rec) {
    r in st.live || r in st.swapped || r in st.summarised
  }

  ghost predicate Accounted(st: State) {
    && Distinct(st.queue) && Distinct(st.delivered)
    && forall r :: Places(st, r) == if r in st.calls && st.calls[r].Placed? then 1 else 0
  }

  ghost predicate DropsAreLow(cfg: Config, st: State) {
    forall r :: WasDropped(st, r) ==> cfg.level(r) < cfg.blockThreshold
  }

  ghost predicate Counted(cfg: Config, st: State) {
    |st.counts| == COUNTERS && forall i :: 0 <= i < COUNTERS ==> st.counts[i] == |InCounter(cfg, st.live, i)|
  }

  // A call returns without effect only once the handler is closed.
  ghost predicate LossNeedsClose(st: State) {
    && (forall r :: r in st.calls && st.calls[r].Lost? ==> st.closed)
    && (st.notified ==> st.closed)
    && (forall r :: r in st.early ==> r in st.calls && st.calls[r].Placed?)
  }

  lemma StepKeepsAccounted(cfg: Config, st: State, step: Step)
    requires Enabled(cfg, st, step) && |st.counts| == COUNTERS && Accounted(st)
    ensures Accounted(Next(cfg, st, step))
  {
    var next := Next(cfg, st, step);
    match step
    case Begin(r) => assert Places(st, r) == 0;
    case Put(r) => assert Places(st, r) == 0; PutPlaces(cfg, st, r);
    case Drop(r) => assert Places(st, r) == 0;
    case Abort(r) => assert Places(st, r) == 0;
    case Close =>
    case Notify =>
    case Pull => PullPlaces(cfg, st);
    case Deliver => DeliverPlaces(cfg, st);
    case Tick =>
    case Swap =>
    case Emit =>
    case StartFlush =>
    case EndFlush =>
    case SyncBegin(r) =>
    case SyncFlush => SyncFlushPlaces(cfg, st);
    case SyncFinish =>
  }

  lemma PutPlaces(cfg: Config, st: State, r: Rec)
    requires Enabled(cfg, st, Put(r)) && |st.counts| == COUNTERS && Accounted(st)
    ensures Accounted(Next(cfg, st, Put(r)))
  {
    assert Places(st, r) == 0;
    var next := Next(cfg, st, Put(r));
    forall x
      ensures Places(next, x) == if x in next.calls && next.calls[x].Placed? then 1 else 0
    {
      assert x in next.queue <==> x in st.queue || x == r;
    }
  }

  lemma PopMembers(queue: seq<Rec>, x: Rec)
    requires queue != [] && Distinct(queue)
    ensures x in queue[1..] <==> x in queue && x != queue[0]
  {
  }

  lemma PullPlaces(cfg: Config, st: State)
    requires Enabled(cfg, st, Pull) && |st.counts| == COUNTERS && Accounted(st)
    ensures Accounted(Next(cfg, st, Pull))
  {
    var next := Next(cfg, st, Pull);
    forall x
      ensures Places(next, x) == Places(st, x)
    {
      PopMembers(st.queue, x);
    }
  }

  lemma DeliverPlaces(cfg: Config, st: State)
    requires Enabled(cfg, st, Deliver) && |st.counts| == COUNTERS && Accounted(st)
    ensures Accounted(Next(cfg, st, Deliver))
  {
    var next := Next(cfg, st, Deliver);
    assert Places(st, st.inflight.value) == 1;
    forall x
      ensures Places(next, x) == Places(st, x)
    {
      assert x in next.delivered <==> x in st.delivered || x == st.inflight.value;
    }
  }

  lemma SyncFlushPlaces(cfg: Config, st: State)
    requires Enabled(cfg, st, SyncFlush) && |st.counts| == COUNTERS && Accounted(st)
    ensures Accounted(Next(cfg, st, SyncFlush))
  {
    var next := Next(cfg, st, SyncFlush);
    assert Places(st, st.queue[0]) == 1;
    forall x
      ensures Places(next, x) == Places(st, x)
    {
      PopMembers(st.queue, x);
      assert x in next.delivered <==> x in st.delivered || x == st.queue[0];
    }
  }

  lemma AddToCounter(cfg: Config, live: set<Rec>, r: Rec, i: nat)
    requires r !in live
    ensures |InCounter(cfg, live + {r}, i)| == |InCounter(cfg, live, i)| + Bit(DropIdx(cfg.level(r)) == i)
  {
    if DropIdx(cfg.level(r)) == i {
      assert InCounter(cfg, live + {r}, i) == InCounter(cfg, live, i) + {r};
    } else {
      assert InCounter(cfg, live + {r}, i) == InCounter(cfg, live, i);
    }
  }

  lemma TakeCounter(cfg: Config, live: set<Rec>, taken: nat, i: nat)
    ensures InCounter(cfg, live - InCounter(cfg, live, taken), i) == if i == taken then {} else InCounter(cfg, live, i)
  {
  }

  lemma StepKeepsCounted(cfg: Config, st: State, step: Step)
    requires Enabled(cfg, st, step) && Accounted(st) && Counted(cfg, st)
    ensures Counted(cfg, Next(cfg, st, step))
  {
    if step.Drop? {
      assert Places(st, step.rec) == 0;
      forall i | 0 <= i < COUNTERS
        ensures Next(cfg, st, step).counts[i] == |InCounter(cfg, Next(cfg, st, step).live, i)|
      {
        AddToCounter(cfg, st.live, step.rec, i);
      }
    } else if step.Swap? {
      forall i | 0 <= i < COUNTERS
        ensures Next(cfg, st, step).counts[i] == |InCounter(cfg, Next(cfg, st, step).live, i)|
      {
        TakeCounter(cfg, st.live, st.drain.next, i);
      }
    }
  }

  lemma StepKeepsCalls(cfg: Config, st: State, step: Step)
    requires Enabled(cfg, st, step) && |st.counts| == COUNTERS && LossNeedsClose(st) && DropsAreLow(cfg, st)
    ensures LossNeedsClose(Next(cfg, st, step)) && DropsAreLow(cfg, Next(cfg, st, step))
  {
  }

  /* ---- order ---- */

  ghost predicate DeliveredBefore(delivered: seq<Rec>, a: Rec, b: Rec) {
    exists p, q :: 0 <= p < q < |delivered| && delivered[p] == a && delivered[q] == b
  }

  // The queue is the tail of what was ever queued; the rest is delivered, or
  // is the one record in flight.
  ghost predicate Ordered(st: State) {
    && Distinct(st.order) && Suffix(st.queue, st.order)
    && forall r :: r in st.order[..|st.order| - |st.queue|] <==> r in st.delivered || st.inflight == Some(r)
  }

  predicate Suffix(queue: seq<Rec>, order: seq<Rec>) {
    |queue| <= |order| && queue == order[|order| - |queue|..]
  }

  ghost predicate InOrder(st: State, i: int, j: int)
    requires 0 <= i < j < |st.order|
  {
    st.order[j] in st.delivered ==>
      DeliveredBefore(st.delivered, st.order[i], st.order[j]) || (st.order[i], st.order[j]) in st.overtaken
  }

  // Of two queued records the later one is delivered first only if the earlier
  // one was in flight while a synchronous emit flushed the later one.
  ghost predicate Fifo(st: State) {
    forall i, j :: 0 <= i < j < |st.order| ==> InOrder(st, i, j)
  }

  lemma LaterDelivery(delivered: seq<Rec>, x: Rec, a: Rec, b: Rec)
    ensures DeliveredBefore(delivered, a, b) ==> DeliveredBefore(delivered + [x], a, b)
    ensures a in delivered ==> DeliveredBefore(delivered + [x], a, x)
  {
    var all := delivered + [x];
    if DeliveredBefore(delivered, a, b) {
      var p, q :| 0 <= p < q < |delivered| && delivered[p] == a && delivered[q] == b;
      assert all[p] == a && all[q] == b;
    }
    if a in delivered {
      var p :| 0 <= p < |delivered| && delivered[p] == a;
      assert all[p] == a && all[|delivered|] == x;
    }
  }

  // Writing one more record downstream: everything queued before it has been
  // written, or is the one in flight that it overtakes.
  lemma DeliverKeepsFifo(st: State, next: State, x: Rec)
    requires Fifo(st) && next.order == st.order && next.delivered == st.delivered + [x] && st.overtaken <= next.overtaken
    requires x !in st.delivered
    requires forall i, j :: 0 <= i < j < |st.order| && st.order[j] == x ==>
      st.order[i] in st.delivered || (st.order[i], x) in next.overtaken
    ensures Fifo(next)
  {
    forall i, j | 0 <= i < j < |next.order|
      ensures InOrder(next, i, j)
    {
      assert InOrder(st, i, j);
      LaterDelivery(st.delivered, x, st.order[i], st.order[j]);
      assert next.order[j] in next.delivered ==> next.order[j] in st.delivered || next.order[j] == x;
    }
  }

  lemma EarlierIsOut(st: State, i: int, j: int)
    requires Ordered(st) && 0 <= i < j < |st.order|
    requires st.order[j] !in st.queue || (st.queue != [] && st.order[j] == st.queue[0])
    ensures st.order[i] in st.delivered || st.inflight == Some(st.order[i])
  {
    var k := |st.order| - |st.queue|;
    if j >= k {
      assert st.order[j] == st.queue[j - k];
    }
    assert i < k;
    assert st.order[..k][i] == st.order[i];
  }

  lemma PutKeepsFifo(cfg: Config, st: State, r: Rec)
    requires Enabled(cfg, st, Put(r)) && |st.counts| == COUNTERS && Accounted(st) && Ordered(st) && Fifo(st)
    ensures Ordered(Next(cfg, st, Put(r))) && Fifo(Next(cfg, st, Put(r)))
  {
    var next := Next(cfg, st, Put(r));
    assert Places(st, r) == 0;
    var k := |st.order| - |st.queue|;
    assert next.order[..k] == st.order[..k];
    forall i, j | 0 <= i < j < |next.order|
      ensures InOrder(next, i, j)
    {
      if j < |st.order| {
        assert InOrder(st, i, j);
      }
    }
    NewInOrder(st, r);
  }

  lemma NewInOrder(st: State, r: Rec)
    requires Ordered(st) && Places(st, r) == 0
    ensures r !in st.order && Distinct(st.order + [r])
  {
    var k := |st.order| - |st.queue|;
    assert st.order == st.order[..k] + st.order[k..];
  }

  lemma OutGrows(order: seq<Rec>, k: nat)
    requires k < |order|
    ensures order[..k + 1] == order[..k] + [order[k]]
  {
  }

  lemma PullKeepsFifo(cfg: Config, st: State)
    requires Enabled(cfg, st, Pull) && |st.counts| == COUNTERS && Ordered(st) && Fifo(st)
    ensures Ordered(Next(cfg, st, Pull)) && Fifo(Next(cfg, st, Pull))
  {
    var next := Next(cfg, st, Pull);
    var k := |st.order| - |st.queue|;
    OutGrows(st.order, k);
    assert st.order[k] == st.queue[0];
    forall i, j | 0 <= i < j < |next.order|
      ensures InOrder(next, i, j)
    {
      assert InOrder(st, i, j);
    }
  }

  lemma DrainKeepsFifo(cfg: Config, st: State)
    requires Enabled(cfg, st, Deliver) && |st.counts| == COUNTERS && Accounted(st) && Ordered(st) && Fifo(st)
    ensures Ordered(Next(cfg, st, Deliver)) && Fifo(Next(cfg, st, Deliver))
  {
    var next, x := Next(cfg, st, Deliver), st.inflight.value;
    assert Places(st, x) == 1;
    forall i, j | 0 <= i < j < |st.order| && st.order[j] == x
      ensures st.order[i] in st.delivered
    {
      EarlierIsOut(st, i, j);
    }
    DeliverKeepsFifo(st, next, x);
  }

  lemma FlushKeepsFifo(cfg: Config, st: State)
    requires Enabled(cfg, st, SyncFlush) && |st.counts| == COUNTERS && Accounted(st) && Ordered(st) && Fifo(st)
    ensures Ordered(Next(cfg, st, SyncFlush)) && Fifo(Next(cfg, st, SyncFlush))
  {
    FlushKeepsOrdered(cfg, st);
    var next, x := Next(cfg, st, SyncFlush), st.queue[0];
    assert Places(st, x) == 1;
    forall i, j | 0 <= i < j < |st.order| && st.order[j] == x
      ensures st.order[i] in st.delivered || (st.order[i], x) in next.overtaken
    {
      EarlierIsOut(st, i, j);
    }
    DeliverKeepsFifo(st, next, x);
  }

  lemma FlushKeepsOrdered(cfg: Config, st: State)
    requires Enabled(cfg, st, SyncFlush) && |st.counts| == COUNTERS && Ordered(st)
    ensures Ordered(Next(cfg, st, SyncFlush))
  {
    var k := |st.order| - |st.queue|;
    OutGrows(st.order, k);
    assert st.order[k] == st.queue[0];
  }

  lemma StepKeepsFifo(cfg: Config, st: State, step: Step)
    requires Enabled(cfg, st, step) && |st.counts| == COUNTERS && Accounted(st) && Ordered(st) && Fifo(st)
    ensures Ordered(Next(cfg, st, step)) && Fifo(Next(cfg, st, step))
  {
    match step
    case Put(r) => PutKeepsFifo(cfg, st, r);
    case Pull => PullKeepsFifo(cfg, st);
    case Deliver => DrainKeepsFifo(cfg, st);
    case SyncFlush => FlushKeepsFifo(cfg, st);
    case _ => SameOrder(st, Next(cfg, st, step));
  }

  lemma SameOrder(st: State, next: State)
    requires Ordered(st) && Fifo(st)
    requires next.order == st.order && next.queue == st.queue && next.inflight == st.inflight
    requires next.delivered == st.delivered && next.overtaken == st.overtaken
    ensures Ordered(next) && Fifo(next)
  {
    forall i, j | 0 <= i < j < |next.order|
      ensures InOrder(next, i, j)
    {
      assert InOrder(st, i, j);
    }
  }

  /* ---- shutdown ---- */

  predicate OutOfQueue(st: State, r: Rec) {
    r !in st.queue && st.inflight != Some(r)
  }

  // Once the final flush has found the queue empty, no early record waits in
  // it; once a counter has been swapped for the last time, none counts there.
  ghost predicate Ending(cfg: Config, st: State) {
    && (st.drain.Summing? ==> st.inflight.None?)
    && (!st.drain.Summing? ==> st.swapped == {})
    && (st.drain.Flushing? || st.drain.Done? || (st.drain.Summing? && st.drain.last) ==> st.closed)
    && (st.drain.Done? ==> st.inflight.None?)
    && (st.drain.Summing? && st.drain.last ==>
          forall r :: r in st.early ==> OutOfQueue(st, r) && (r in st.live ==> DropIdx(cfg.level(r)) >= st.drain.next))
    && (st.drain.Done? ==> forall r :: r in st.early ==> OutOfQueue(st, r) && r !in st.live)
    && (!st.closed ==> st.early == {})
    && (st.notified ==> st.closed)
  }

  lemma StepKeepsEnding(cfg: Config, st: State, step: Step)
    requires Enabled(cfg, st, step) && |st.counts| == COUNTERS && LossNeedsClose(st) && Ending(cfg, st)
    ensures Ending(cfg, Next(cfg, st, step))
  {
    match step
    case Begin(r) =>
    case Put(r) =>
    case Drop(r) =>
    case Abort(r) =>
    case Close =>
    case Notify =>
    case Pull =>
    case Deliver =>
    case Tick =>
    case Swap =>
    case Emit =>
    case StartFlush =>
    case EndFlush =>
    case SyncBegin(r) =>
    case SyncFlush =>
    case SyncFinish =>
  }

  /* ---- the synchronous emit ---- */

  // While an emit holds the lock, what is left of its backlog heads the queue
  // and fits its budget.
  ghost predicate Flushes(cfg: Config, st: State) {
    && |st.queue| <= cfg.queueSize
    && (st.emitting.Some? ==>
          && st.ahead <= st.budget && st.ahead <= |st.queue| && st.ahead <= |st.backlog|
          && st.queue[..st.ahead] == st.backlog[|st.backlog| - st.ahead..]
          && forall k :: 0 <= k < |st.backlog| - st.ahead ==> st.backlog[k] in st.delivered || st.inflight == Some(st.backlog[k]))
  }

  lemma PutKeepsFlushes(cfg: Config, st: State, r: Rec)
    requires Enabled(cfg, st, Put(r)) && |st.counts| == COUNTERS && Flushes(cfg, st)
    ensures Flushes(cfg, Next(cfg, st, Put(r)))
  {
    if st.emitting.Some? {
      assert (st.queue + [r])[..st.ahead] == st.queue[..st.ahead];
    }
  }

  // Taking the head of the queue moves it out of what is left of the backlog.
  lemma PopBacklog(queue: seq<Rec>, backlog: seq<Rec>, ahead: nat)
    requires 0 < ahead <= |queue| && ahead <= |backlog| && queue[..ahead] == backlog[|backlog| - ahead..]
    ensures queue[0] == backlog[|backlog| - ahead]
    ensures queue[1..][..ahead - 1] == backlog[|backlog| - (ahead - 1)..]
  {
    assert queue[0] == queue[..ahead][0];
    assert queue[1..][..ahead - 1] == queue[..ahead][1..];
    assert backlog[|backlog| - (ahead - 1)..] == backlog[|backlog| - ahead..][1..];
  }

  lemma PopKeepsFlushes(cfg: Config, st: State, step: Step)
    requires (step.Pull? || step.SyncFlush?) && Enabled(cfg, st, step) && |st.counts| == COUNTERS && Flushes(cfg, st)
    ensures Flushes(cfg, Next(cfg, st, step))
  {
    if st.emitting.Some? && st.ahead > 0 {
      PopBacklog(st.queue, st.backlog, st.ahead);
    }
  }

  lemma StepKeepsFlushes(cfg: Config, st: State, step: Step)
    requires Enabled(cfg, st, step) && |st.counts| == COUNTERS && Flushes(cfg, st)
    ensures Flushes(cfg, Next(cfg, st, step))
  {
    match step
    case Put(r) => PutKeepsFlushes(cfg, st, r);
    case Pull => PopKeepsFlushes(cfg, st, step);
    case SyncFlush => PopKeepsFlushes(cfg, st, step);
    case Deliver =>
    case SyncBegin(r) => assert st.queue[..|st.queue|] == st.queue;
    case _ =>
  }

  /* ---- overtaking ---- */

  // A record that was overtaken is written after the one that overtook it.
  ghost predicate Overtaken(st: State) {
    forall a, b :: (a, b) in st.overtaken ==> b in st.delivered && !DeliveredBefore(st.delivered, a, b)
  }

  lemma DeliverKeepsOvertaken(st: State, x: Rec, a: Rec, b: Rec)
    requires x !in st.delivered && (b == x ==> a !in st.delivered)
    requires b in st.delivered ==> !DeliveredBefore(st.delivered, a, b)
    ensures !DeliveredBefore(st.delivered + [x], a, b)
  {
    var all := st.delivered + [x];
    forall p, q | 0 <= p < q < |all|
      ensures !(all[p] == a && all[q] == b)
    {
      assert all[p] == st.delivered[p];
    }
  }

  lemma StepKeepsOvertaken(cfg: Config, st: State, step: Step)
    requires Enabled(cfg, st, step) && |st.counts| == COUNTERS && Accounted(st) && Overtaken(st)
    ensures Overtaken(Next(cfg, st, step))
  {
    var next := Next(cfg, st, step);
    if step.Deliver? || step.SyncFlush? {
      var x := if step.Deliver? then st.inflight.value else st.queue[0];
      assert Places(st, x) == 1 && (st.inflight.Some? ==> Places(st, st.inflight.value) == 1);
      forall a, b | (a, b) in next.overtaken
        ensures b in next.delivered && !DeliveredBefore(next.delivered, a, b)
      {
        assert (a, b) in st.overtaken || (step.SyncFlush? && b == x && st.inflight == Some(a));
        DeliverKeepsOvertaken(st, x, a, b);
      }
    }
  }

  /* ---- whole runs ---- */

  ghost predicate Inv(cfg: Config, st: State) {
    && Accounted(st) && Counted(cfg, st) && LossNeedsClose(st) && DropsAreLow(cfg, st)
    && Ordered(st) && Fifo(st) && Overtaken(st)
    && Ending(cfg, st)
    && Flushes(cfg, st)
  }

  lemma StartIsInv(cfg: Config)
    ensures Inv(cfg, START)
  {
    assert forall i :: InCounter(cfg, {}, i) == {};
    assert forall r :: Places(START, r) == 0;
  }

  lemma StepKeepsInv(cfg: Config, st: State, step: Step)
    requires Inv(cfg, st) && Enabled(cfg, st, step)
    ensures Inv(cfg, Next(cfg, st, step))
  {
    StepKeepsAccounted(cfg, st, step);
    StepKeepsCounted(cfg, st, step);
    StepKeepsCalls(cfg, st, step);
    StepKeepsFifo(cfg, st, step);
    StepKeepsOvertaken(cfg, st, step);
    StepKeepsEnding(cfg, st, step);
    StepKeepsFlushes(cfg, st, step);
  }

  ghost predicate Possible(cfg: Config, steps: seq<Step>) {
    steps != [] ==> Possible(cfg, steps[..|steps| - 1]) && Enabled(cfg, After(cfg, steps[..|steps| - 1]), steps[|steps| - 1])
  }

  ghost function After(cfg: Config, steps: seq<Step>): State {
    if steps == [] then START else
      var before := After(cfg, steps[..|steps| - 1]);
      if Enabled(cfg, before, steps[|steps| - 1]) && |before.counts| == COUNTERS then Next(cfg, before, steps[|steps| - 1]) else before
  }

  lemma {:induction false} ReachableIsInv(cfg: Config, steps: seq<Step>)
    requires Possible(cfg, steps)
    ensures Inv(cfg, After(cfg, steps))
  {
    if steps == [] {
      StartIsInv(cfg);
    } else {
      ReachableIsInv(cfg, steps[..|steps| - 1]);
      StepKeepsInv(cfg, After(cfg, steps[..|steps| - 1]), steps[|steps| - 1]);
    }
  }

  // Every record whose call returned before the handler was closed is in
  // exactly one place, and among the dropped ones only if it is below the
  // threshold at which calls block.
  lemma EveryRecordAccounted(cfg: Config, steps: seq<Step>, r: Rec)
    requires Possible(cfg, steps)
    requires var st := After(cfg, steps); r in st.early || (!st.closed && r in st.calls && !st.calls[r].Trying?)
    ensures var st := After(cfg, steps);
            Places(st, r) == 1 && (WasDropped(st, r) ==> cfg.level(r) < cfg.blockThreshold)
  {
    ReachableIsInv(cfg, steps);
  }

  // Each live counter is the number of dropped records of its levels that no
  // summary has taken.
  lemma CountersExact(cfg: Config, steps: seq<Step>, i: nat)
    requires Possible(cfg, steps) && i < COUNTERS
    ensures var st := After(cfg, steps); |st.counts| == COUNTERS && st.counts[i] == |InCounter(cfg, st.live, i)|
  {
    ReachableIsInv(cfg, steps);
  }

  // Delivery is first in, first out, except exactly that a record in flight is
  // overtaken by records a synchronous emit flushes.
  lemma DeliveredInOrder(cfg: Config, steps: seq<Step>, i: nat, j: nat)
    requires Possible(cfg, steps) && i < j < |After(cfg, steps).order|
    requires After(cfg, steps).order[j] in After(cfg, steps).delivered
    ensures var st := After(cfg, steps);
            DeliveredBefore(st.delivered, st.order[i], st.order[j]) <==> (st.order[i], st.order[j]) !in st.overtaken
  {
    ReachableIsInv(cfg, steps);
    assert InOrder(After(cfg, steps), i, j);
  }

  lemma Extend(cfg: Config, steps: seq<Step>, step: Step, st: State, next: State)
    requires Possible(cfg, steps) && After(cfg, steps) == st && |st.counts| == COUNTERS
    requires Enabled(cfg, st, step) && Next(cfg, st, step) == next
    ensures Possible(cfg, steps + [step]) && After(cfg, steps + [step]) == next
  {
    assert (steps + [step])[..|steps|] == steps;
  }

  // One record is pulled, another is queued, and a synchronous emit comes
  // before the first is written.
  const PULL_THEN_QUEUE: seq<Step> := [Begin(1), Put(1), Pull, Begin(2), Put(2)]

  const PULLED_AND_QUEUED := START.(calls := map[1 := Placed, 2 := Placed], queue := [2], inflight := Some(1), order := [1, 2])

  lemma PullsThenQueues(cfg: Config)
    requires cfg.queueSize > 0
    ensures Possible(cfg, PULL_THEN_QUEUE) && After(cfg, PULL_THEN_QUEUE) == PULLED_AND_QUEUED
  {
    var s0: seq<Step> := [];
    var t1 := START.(calls := map[1 := Trying]);
    Extend(cfg, s0, Begin(1), START, t1);
    var s1, t2 := s0 + [Begin(1)], START.(calls := map[1 := Placed], queue := [1], order := [1]);
    Extend(cfg, s1, Put(1), t1, t2);
    var s2, t3 := s1 + [Put(1)], t2.(queue := [], inflight := Some(1));
    Extend(cfg, s2, Pull, t2, t3);
    var s3, t4 := s2 + [Pull], t3.(calls := map[1 := Placed, 2 := Trying]);
    Extend(cfg, s3, Begin(2), t3, t4);
    Extend(cfg, s3 + [Begin(2)], Put(2), t4, PULLED_AND_QUEUED);
    assert s3 + [Begin(2)] + [Put(2)] == PULL_THEN_QUEUE;
  }

  function Flushed(cfg: Config): State
    requires cfg.queueSize > 0
  {
    PULLED_AND_QUEUED.(queue := [], delivered := [2], emitting := Some(3), budget := cfg.queueSize - 1, backlog := [2], overtaken := {(1, 2)})
  }

  lemma FlushesPast(cfg: Config)
    requires cfg.queueSize > 0
    ensures Possible(cfg, PULL_THEN_QUEUE + [SyncBegin(3), SyncFlush])
    ensures After(cfg, PULL_THEN_QUEUE + [SyncBegin(3), SyncFlush]) == Flushed(cfg)
  {
    PullsThenQueues(cfg);
    var s6 := PULL_THEN_QUEUE + [SyncBegin(3)];
    var t6 := PULLED_AND_QUEUED.(emitting := Some(3), budget := cfg.queueSize, backlog := [2], ahead := 1);
    Extend(cfg, PULL_THEN_QUEUE, SyncBegin(3), PULLED_AND_QUEUED, t6);
    Extend(cfg, s6, SyncFlush, t6, Flushed(cfg));
    assert s6 + [SyncFlush] == PULL_THEN_QUEUE + [SyncBegin(3), SyncFlush];
  }

  lemma OvertakingExample(cfg: Config)
    requires cfg.queueSize > 0
    ensures var steps := PULL_THEN_QUEUE + [SyncBegin(3), SyncFlush] + [SyncFinish] + [Deliver];
            Possible(cfg, steps) && After(cfg, steps).order == [1, 2] && After(cfg, steps).delivered == [2, 1]
  {
    FlushesPast(cfg);
    var s7, t8 := PULL_THEN_QUEUE + [SyncBegin(3), SyncFlush], Flushed(cfg).(emitting := None);
    Extend(cfg, s7, SyncFinish, Flushed(cfg), t8);
    Extend(cfg, s7 + [SyncFinish], Deliver, t8, t8.(inflight := None, delivered := [2, 1]));
  }

  // When the drain has ended, every record whose call returned before the
  // close has been delivered or is counted in a summary that was written.
  lemma NothingLeftBehind(cfg: Config, steps: seq<Step>, r: Rec)
    requires Possible(cfg, steps) && After(cfg, steps).drain.Done? && r in After(cfg, steps).early
    ensures r in After(cfg, steps).delivered || r in After(cfg, steps).summarised
  {
    ReachableIsInv(cfg, steps);
    assert Places(After(cfg, steps), r) == 1;
  }

  // A synchronous emit writes its own record only after everything that was
  // queued when it took the lock, save at most the one record in flight.
  lemma EmitFlushesFirst(cfg: Config, steps: seq<Step>, k: nat)
    requires Possible(cfg, steps) && Enabled(cfg, After(cfg, steps), SyncFinish) && k < |After(cfg, steps).backlog|
    ensures var st := After(cfg, steps); st.backlog[k] in st.delivered || st.inflight == Some(st.backlog[k])
  {
    ReachableIsInv(cfg, steps);
  }

  // A call below the threshold never waits: it queues its record where there
  // is room and drops it where there is none. Any other call waits for room,
  // until the close is announced.
  lemma CallReturnsIff(cfg: Config, st: State, r: Rec)
    requires r in st.calls && st.calls[r].Trying?
    ensures cfg.level(r) < cfg.blockThreshold ==> (Enabled(cfg, st, Put(r)) <==> !Enabled(cfg, st, Drop(r))) && !Enabled(cfg, st, Abort(r))
    ensures cfg.level(r) >= cfg.blockThreshold ==> !Enabled(cfg, st, Drop(r)) && (Enabled(cfg, st, Abort(r)) <==> st.notified)
    ensures Enabled(cfg, st, Put(r)) <==> |st.queue| < cfg.queueSize
  {
  }

  predicate IsLost(st: State, r: Rec) {
    r in st.calls && st.calls[r].Lost?
  }

  lemma LostStays(cfg: Config, st: State, step: Step, r: Rec)
    requires Enabled(cfg, st, step) && |st.counts| == COUNTERS && IsLost(st, r)
    ensures IsLost(Next(cfg, st, step), r)
  {
  }

  lemma {:induction false} LateCallIsLost(cfg: Config, steps: seq<Step>, k: nat)
    requires Possible(cfg, steps) && k < |steps| && steps[k].Begin? && After(cfg, steps[..k]).closed
    ensures IsLost(After(cfg, steps), steps[k].rec)
  {
    var init := steps[..|steps| - 1];
    ReachableIsInv(cfg, init);
    if k < |steps| - 1 {
      assert init[..k] == steps[..k];
      LateCallIsLost(cfg, init, k);
      LostStays(cfg, After(cfg, init), steps[|steps| - 1], steps[k].rec);
    }
  }

  // A call that begins once the handler is closed returns without effect, for good.
  lemma LateCallHasNoEffect(cfg: Config, steps: seq<Step>, k: nat)
    requires Possible(cfg, steps) && k < |steps| && steps[k].Begin? && After(cfg, steps[..k]).closed
    ensures IsLost(After(cfg, steps), steps[k].rec) && Places(After(cfg, steps), steps[k].rec) == 0
  {
    LateCallIsLost(cfg, steps, k);
    ReachableIsInv(cfg, steps);
  }

  // While a synchronous emit holds the downstream lock nobody else writes, and
  // nobody else ends it.
  lemma OneWriter(cfg: Config, st: State, step: Step)
    requires Enabled(cfg, st, step) && |st.counts| == COUNTERS && st.emitting.Some?
    ensures var n := Next(cfg, st, step);
            && (n.delivered != st.delivered || n.summarised != st.summarised ==> step.SyncFlush?)
            && (n.emitting != st.emitting <==> step.SyncFinish?)
  {
    if step.Emit? {
      assert st.summarised + {} == st.summarised;
    }
  }

  /* ---- summaries ---- */

  // Of the given drops, those no written summary has yet taken are in the one
  // being put together, or in a counter still to be swapped.
  ghost predicate Sweeping(cfg: Config, st: State, drops: set<Rec>) {
    forall r :: r in drops ==>
      r in st.summarised || r in st.swapped || (r in st.live && st.drain.Summing? && DropIdx(cfg.level(r)) >= st.drain.next)
  }

  lemma StepKeepsSweeping(cfg: Config, st: State, step: Step, drops: set<Rec>)
    requires Enabled(cfg, st, step) && |st.counts| == COUNTERS && Sweeping(cfg, st, drops)
    ensures Sweeping(cfg, Next(cfg, st, step), drops)
    ensures step.Emit? ==> drops <= Next(cfg, st, step).summarised
  {
    if step.Emit? {
      forall r | r in drops
        ensures r in Next(cfg, st, step).summarised
      {
        OneCounterPerLevel(cfg.level(r), 0);
      }
    }
  }

  lemma {:induction false} RunKeepsSweeping(cfg: Config, steps: seq<Step>, k: nat)
    requires Possible(cfg, steps) && k < |steps| && (steps[k].Tick? || steps[k].EndFlush?)
    ensures Sweeping(cfg, After(cfg, steps), After(cfg, steps[..k]).live)
  {
    var init := steps[..|steps| - 1];
    ReachableIsInv(cfg, init);
    if k < |steps| - 1 {
      assert init[..k] == steps[..k];
      RunKeepsSweeping(cfg, init, k);
      StepKeepsSweeping(cfg, After(cfg, init), steps[|steps| - 1], After(cfg, steps[..k]).live);
    } else {
      assert init == steps[..k];
    }
  }

  // A summary takes every drop counted when it was begun, of every level, and
  // so does the last one, once the queue has been flushed.
  lemma SummaryTakesAll(cfg: Config, steps: seq<Step>, k: nat)
    requires Possible(cfg, steps) && k + 1 < |steps| && (steps[k].Tick? || steps[k].EndFlush?) && steps[|steps| - 1].Emit?
    ensures After(cfg, steps[..k]).live <= After(cfg, steps).summarised
  {
    var init := steps[..|steps| - 1];
    ReachableIsInv(cfg, init);
    assert init[..k] == steps[..k];
    RunKeepsSweeping(cfg, init, k);
    StepKeepsSweeping(cfg, After(cfg, init), steps[|steps| - 1], After(cfg, steps[..k]).live);
  }

  /* ---- the drain ends ---- */

  // The close is announced, and no call and no synchronous emit is under way.
  ghost predicate Quiet(st: State) {
    st.notified && st.emitting.None? && forall r :: r in st.calls ==> !st.calls[r].Trying?
  }

  // What the drain does by itself, its ticker aside.
  predicate OfDrain(step: Step) {
    step.Pull? || step.Deliver? || step.Swap? || step.Emit? || step.StartFlush? || step.EndFlush?
  }

  function Waiting(st: State): nat {
    2 * |st.queue| + if st.inflight.Some? then 1 else 0
  }

  // How many steps the drain has left at most.
  function Rank(st: State): nat {
    match st.drain
    case Main => Waiting(st) + 2 * COUNTERS
    case Summing(next, last) =>
      Waiting(st) + (if next < COUNTERS then COUNTERS - next else 0) + 1 + (if last then 0 else 2 * COUNTERS)
    case Flushing => Waiting(st) + COUNTERS + 2
    case Done => 0
  }

  function DrainStep(st: State): Step {
    if st.inflight.Some? then Deliver
    else match st.drain
      case Main => StartFlush
      case Summing(next, last) => if next < COUNTERS then Swap else Emit
      case Flushing => if st.queue != [] then Pull else EndFlush
      case Done => Tick
  }

  predicate SumsUp(st: State) {
    st.drain.Summing? ==> st.drain.next <= COUNTERS
  }

  lemma StepSumsUp(cfg: Config, st: State, step: Step)
    requires Enabled(cfg, st, step) && |st.counts| == COUNTERS && SumsUp(st)
    ensures SumsUp(Next(cfg, st, step))
  {
  }

  lemma {:induction false} ReachableSumsUp(cfg: Config, steps: seq<Step>)
    requires Possible(cfg, steps)
    ensures SumsUp(After(cfg, steps))
  {
    if steps != [] {
      ReachableSumsUp(cfg, steps[..|steps| - 1]);
      ReachableIsInv(cfg, steps[..|steps| - 1]);
      StepSumsUp(cfg, After(cfg, steps[..|steps| - 1]), steps[|steps| - 1]);
    }
  }

  // Until it is done the drain always has a step to take, and every step it
  // takes brings the end nearer.
  lemma DrainMoves(cfg: Config, st: State, step: Step)
    requires Inv(cfg, st) && SumsUp(st) && Quiet(st) && !st.drain.Done?
    ensures OfDrain(DrainStep(st)) && Enabled(cfg, st, DrainStep(st))
    ensures OfDrain(step) && Enabled(cfg, st, step) ==> Quiet(Next(cfg, st, step)) && Rank(Next(cfg, st, step)) < Rank(st)
  {
  }

  predicate AllOfDrain(steps: seq<Step>) {
    forall k :: 0 <= k < |steps| ==> OfDrain(steps[k])
  }

  // The run is possible and leaves a quiet state from which the drain has at
  // most n steps left.
  ghost predicate QuietWithin(cfg: Config, steps: seq<Step>, n: nat) {
    Possible(cfg, steps) && Quiet(After(cfg, steps)) && Rank(After(cfg, steps)) <= n
  }

  ghost predicate Ends(cfg: Config, steps: seq<Step>) {
    Possible(cfg, steps) && After(cfg, steps).drain.Done?
  }

  lemma DrainOnce(cfg: Config, steps: seq<Step>, n: nat)
    requires QuietWithin(cfg, steps, n) && !Ends(cfg, steps)
    ensures n > 0 && OfDrain(DrainStep(After(cfg, steps)))
    ensures QuietWithin(cfg, steps + [DrainStep(After(cfg, steps))], n - 1)
  {
    var st := After(cfg, steps);
    ReachableIsInv(cfg, steps);
    ReachableSumsUp(cfg, steps);
    DrainMoves(cfg, st, DrainStep(st));
    Extend(cfg, steps, DrainStep(st), st, Next(cfg, st, DrainStep(st)));
  }

  // From every reachable quiet state the drain ends within its rank.
  lemma {:induction false} DrainEnds(cfg: Config, steps: seq<Step>, n: nat) returns (more: seq<Step>)
    requires QuietWithin(cfg, steps, n)
    ensures AllOfDrain(more) && |more| <= n && Ends(cfg, steps + more)
    decreases n, 0
  {
    if Ends(cfg, steps) {
      more := [];
      assert steps + more == steps;
    } else {
      var step := DrainStep(After(cfg, steps));
      DrainOnce(cfg, steps, n);
      more := DrainEndsAfter(cfg, steps, step, n - 1);
    }
  }

  lemma {:induction false} DrainEndsAfter(cfg: Config, steps: seq<Step>, step: Step, n: nat) returns (more: seq<Step>)
    requires OfDrain(step) && QuietWithin(cfg, steps + [step], n)
    ensures AllOfDrain(more) && |more| <= n + 1 && Ends(cfg, steps + more)
    decreases n, 1
  {
    var rest := DrainEnds(cfg, steps + [step], n);
    more := [step] + rest;
    assert steps + more == steps + [step] + rest;
  }
}
