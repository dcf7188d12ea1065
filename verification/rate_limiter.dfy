// The adaptive rate limiter: callers pass a window check, then hand their work
// to a bounded queue that one worker drains.
module RateLimiter {

  const DISCARD_MARGIN := 10

  type Caller = nat

  // What a caller is told: the worker's result, or that its work was discarded
  // because the window has shrunk far below its position, that the queue was
  // full, or that the limiter is shutting down.
  datatype Answer = Ran | Discarded | Bounced | CalledOff

  // Where a caller of RunRateLimited is.
  datatype Pc =
    | Checking(position: int)   // holds the lock, has added itself to the size
    | Admitted(position: int)   // passed the check, about to queue its work
    | Waiting(position: int)    // queued, waiting for a result
    | Leaving(position: int, answer: Answer) // still counted
    | Gone(position: int, answer: Answer)    // no longer counted
    | Refused

  // The queue holds the callers whose work waits there, in order.
  datatype State = State(
    window: int,
    size: int,
    successes: nat,
    lock: set<Caller>,
    callers: map<Caller, Pc>,
    queue: seq<Caller>,
    closed: bool)

  datatype Limits = Limits(minWindow: int, maxWindow: int)

  predicate ValidLimits(l: Limits) {
    1 <= l.minWindow <= l.maxWindow
  }

  function Start(l: Limits): State {
    State(l.maxWindow, 0, 0, {}, map[], [], false)
  }

  datatype Step =
    | Enter(caller: Caller)        // take the lock, count itself
    | Decide(caller: Caller)       // compare with the window, drop the lock
    | Offer(caller: Caller)        // the select on the queue
    | Work                         // the worker answers the oldest work
    | GiveUp(caller: Caller)       // the close notice ends the wait
    | Leave(caller: Caller)        // the deferred decrement
    | RaiseWindow                  // the locked part of success
    | LowerWindow(position: int)   // the locked part of backoff
    | Close

  // Of the cases of its select an offer takes the default only when no other is
  // ready, and the close notice, once out, always is.
  predicate Enabled(l: Limits, st: State, step: Step) {
    match step
    case Enter(c) => c !in st.callers && st.lock == {}
    case Decide(c) => c in st.callers && st.callers[c].Checking?
    case Offer(c) => c in st.callers && st.callers[c].Admitted? && (st.closed ==> HasQueueSpace(l, st))
    case Work => st.queue != []
    case GiveUp(c) => st.closed && c in st.callers && (st.callers[c].Admitted? || st.callers[c].Waiting?)
    case Leave(c) => c in st.callers && st.callers[c].Leaving?
    case RaiseWindow => st.lock == {}
    case LowerWindow(_) => st.lock == {}
    case Close => true
  }

  predicate HasQueueSpace(l: Limits, st: State) {
    |st.queue| < l.maxWindow
  }

  function Next(l: Limits, st: State, step: Step): State
    requires Enabled(l, st, step)
  {
    match step
    case Enter(c) => st.(lock := {c}, size := st.size + 1, callers := st.callers[c := Checking(st.size + 1)])
    case Decide(c) =>
      var position := st.callers[c].position;
      if position <= st.window then st.(lock := {}, callers := st.callers[c := Admitted(position)])
      else st.(lock := {}, size := st.size - 1, callers := st.callers[c := Refused])
    case Offer(c) =>
      var position := st.callers[c].position;
      if HasQueueSpace(l, st) then st.(queue := st.queue + [c], callers := st.callers[c := Waiting(position)])
      else st.(callers := st.callers[c := Leaving(position, Bounced)])
    case Work =>
      var c := st.queue[0];
      var rest := st.(queue := st.queue[1..]);
      if c in st.callers && st.callers[c].Waiting? then
        var position := st.callers[c].position;
        rest.(callers := st.callers[c := Leaving(position, if position > st.window + DISCARD_MARGIN then Discarded else Ran)])
      else rest
    case GiveUp(c) => st.(callers := st.callers[c := Leaving(st.callers[c].position, CalledOff)])
    case Leave(c) => st.(size := st.size - 1, callers := st.callers[c := Gone(st.callers[c].position, st.callers[c].answer)])
    case RaiseWindow =>
      var count := (st.successes + 1) % 0x1_0000_0000;
      var raised := if count % 10 == 0 then st.window + 1 else st.window;
      st.(successes := count, window := if raised > l.maxWindow then l.maxWindow else raised)
    case LowerWindow(position) =>
      var lowered := position - 10;
      if lowered < st.window then st.(window := if lowered < l.minWindow then l.minWindow else lowered) else st
    case Close => st.(closed := true)
  }

  /* ---- who is counted ---- */

  predicate Counted(pc: Pc) {
    pc.Checking? || pc.Admitted? || pc.Waiting? || pc.Leaving?
  }

  function Holders(st: State): set<Caller> {
    set c | c in st.callers && Counted(st.callers[c])
  }

  function Passed(st: State): set<Caller> {
    set c | c in st.callers && Counted(st.callers[c]) && !st.callers[c].Checking?
  }

  predicate DistinctCallers(cs: seq<Caller>) {
    forall a, b :: 0 <= a < b < |cs| ==> cs[a] != cs[b]
  }

  // Whoever is checking holds the lock, and was counted at its position.
  ghost predicate LockInv(st: State) {
    && (forall c :: c in st.callers && st.callers[c].Checking? ==> st.lock == {c} && st.size <= st.callers[c].position)
    && (forall c :: c in st.lock ==> c in st.callers && st.callers[c].Checking?)
  }

  ghost predicate QueueInv(st: State) {
    DistinctCallers(st.queue) && forall k :: 0 <= k < |st.queue| ==> Handed(st, st.queue[k])
  }

  ghost predicate Inv(l: Limits, st: State) {
    && l.minWindow <= st.window <= l.maxWindow
    && st.size == |Holders(st)|
    && |Passed(st)| <= l.maxWindow
    && LockInv(st)
    && QueueInv(st)
  }

  // The caller has handed in its work, and before shutdown still waits for it.
  predicate Handed(st: State, c: Caller) {
    && c in st.callers
    && (st.callers[c].Waiting? || (st.closed && (st.callers[c].Leaving? || st.callers[c].Gone?)))
  }

  lemma MoveCaller(st: State, c: Caller, pc: Pc)
    ensures var moved := st.(callers := st.callers[c := pc]);
            && Holders(moved) == (if Counted(pc) then Holders(st) + {c} else Holders(st) - {c})
            && Passed(moved) == (if Counted(pc) && !pc.Checking? then Passed(st) + {c} else Passed(st) - {c})
  {
  }

  lemma StepKeepsInv(l: Limits, st: State, step: Step)
    requires ValidLimits(l) && Inv(l, st) && Enabled(l, st, step)
    ensures Inv(l, Next(l, st, step))
  {
    match step
    case Enter(c) => EnterKeepsInv(l, st, c);
    case Decide(c) => if st.callers[c].position <= st.window { AdmitKeepsInv(l, st, c); } else { RefuseKeepsInv(l, st, c); }
    case Offer(c) => if HasQueueSpace(l, st) { QueueKeepsInv(l, st, c); } else { BounceKeepsInv(l, st, c); }
    case Work => WorkKeepsInv(l, st);
    case GiveUp(c) => GiveUpKeepsInv(l, st, c);
    case Leave(c) => LeaveKeepsInv(l, st, c);
    case RaiseWindow => SameCallersKeepInv(l, st, Next(l, st, step));
    case LowerWindow(_) => SameCallersKeepInv(l, st, Next(l, st, step));
    case Close => SameCallersKeepInv(l, st, Next(l, st, step));
  }

  lemma SameCallersKeepInv(l: Limits, st: State, next: State)
    requires Inv(l, st) && l.minWindow <= next.window <= l.maxWindow && (st.closed ==> next.closed)
    requires next == st.(window := next.window, successes := next.successes, closed := next.closed)
    ensures Inv(l, next)
  {
    assert Holders(next) == Holders(st) && Passed(next) == Passed(st);
    assert forall c :: Handed(st, c) ==> Handed(next, c);
  }

  lemma NewlyCounted(st: State, c: Caller, next: State)
    requires c !in st.callers && c in next.callers && next.callers[c].Checking?
    requires next.callers == st.callers[c := next.callers[c]]
    ensures |Holders(next)| == |Holders(st)| + 1 && Passed(next) == Passed(st)
  {
    assert Holders(next) == Holders(st) + {c};
    assert Passed(next) == Passed(st);
  }

  lemma OthersStayQueued(st: State, next: State, c: Caller)
    requires QueueInv(st) && c !in st.queue && next.queue == st.queue && next.closed == st.closed
    requires c in next.callers && next.callers == st.callers[c := next.callers[c]]
    ensures QueueInv(next)
  {
    forall k | 0 <= k < |next.queue|
      ensures Handed(next, next.queue[k])
    {
      assert Handed(st, st.queue[k]);
    }
  }

  lemma EnterLocks(st: State, c: Caller, next: State)
    requires LockInv(st) && st.lock == {} && c !in st.callers
    requires next.lock == {c} && next.size == st.size + 1 && next.callers == st.callers[c := Checking(next.size)]
    ensures LockInv(next)
  {
    assert forall d :: d in st.callers ==> !st.callers[d].Checking?;
  }

  lemma EnterKeepsInv(l: Limits, st: State, c: Caller)
    requires Inv(l, st) && Enabled(l, st, Enter(c))
    ensures Inv(l, Next(l, st, Enter(c)))
  {
    var next := Next(l, st, Enter(c));
    EnterLocks(st, c, next);
    OthersStayQueued(st, next, c);
    NewlyCounted(st, c, next);
  }

  lemma QueueKeepsInv(l: Limits, st: State, c: Caller)
    requires Inv(l, st) && Enabled(l, st, Offer(c)) && HasQueueSpace(l, st)
    ensures Inv(l, Next(l, st, Offer(c)))
  {
    MoveCaller(st, c, Waiting(st.callers[c].position));
    assert Holders(st) + {c} == Holders(st) && Passed(st) + {c} == Passed(st);
    assert c !in st.queue;
  }

  lemma BounceKeepsInv(l: Limits, st: State, c: Caller)
    requires Inv(l, st) && Enabled(l, st, Offer(c)) && !HasQueueSpace(l, st)
    ensures Inv(l, Next(l, st, Offer(c)))
  {
    MoveCaller(st, c, Leaving(st.callers[c].position, Bounced));
    assert Holders(st) + {c} == Holders(st) && Passed(st) + {c} == Passed(st);
    assert c !in st.queue;
  }

  lemma WorkKeepsInv(l: Limits, st: State)
    requires Inv(l, st) && Enabled(l, st, Work)
    ensures Inv(l, Next(l, st, Work))
  {
    var c := st.queue[0];
    assert Handed(st, c);
    if st.callers[c].Waiting? {
      MoveCaller(st, c, Next(l, st, Work).callers[c]);
      assert Holders(st) + {c} == Holders(st) && Passed(st) + {c} == Passed(st);
    }
    forall k | 0 <= k < |st.queue[1..]|
      ensures Handed(Next(l, st, Work), st.queue[1..][k])
    {
      assert Handed(st, st.queue[k + 1]) && st.queue[k + 1] != c;
    }
  }

  lemma GiveUpKeepsInv(l: Limits, st: State, c: Caller)
    requires Inv(l, st) && Enabled(l, st, GiveUp(c))
    ensures Inv(l, Next(l, st, GiveUp(c)))
  {
    MoveCaller(st, c, Leaving(st.callers[c].position, CalledOff));
    assert Holders(st) + {c} == Holders(st) && Passed(st) + {c} == Passed(st);
  }

  lemma LeaveKeepsInv(l: Limits, st: State, c: Caller)
    requires Inv(l, st) && Enabled(l, st, Leave(c))
    ensures Inv(l, Next(l, st, Leave(c)))
  {
    MoveCaller(st, c, Gone(st.callers[c].position, st.callers[c].answer));
    assert c in Holders(st) && c in Passed(st);
  }

  // With the lock held nobody else joins, so a position within the window
  // means few enough callers hold slots.
  lemma AdmitKeepsInv(l: Limits, st: State, c: Caller)
    requires Inv(l, st) && Enabled(l, st, Decide(c)) && st.callers[c].position <= st.window
    ensures Inv(l, Next(l, st, Decide(c)))
  {
    MoveCaller(st, c, Admitted(st.callers[c].position));
    assert Holders(st) + {c} == Holders(st);
    assert Passed(st) + {c} == Holders(st);
  }

  lemma RefuseKeepsInv(l: Limits, st: State, c: Caller)
    requires Inv(l, st) && Enabled(l, st, Decide(c)) && st.callers[c].position > st.window
    ensures Inv(l, Next(l, st, Decide(c)))
  {
    MoveCaller(st, c, Refused);
    assert c in Holders(st);
    assert Passed(st) - {c} == Passed(st);
  }

  ghost predicate Possible(l: Limits, steps: seq<Step>) {
    steps != [] ==> Possible(l, steps[..|steps| - 1]) && Enabled(l, After(l, steps[..|steps| - 1]), steps[|steps| - 1])
  }

  ghost function After(l: Limits, steps: seq<Step>): State {
    if steps == [] then Start(l) else
      var before := After(l, steps[..|steps| - 1]);
      if Enabled(l, before, steps[|steps| - 1]) then Next(l, before, steps[|steps| - 1]) else before
  }

  lemma {:induction false} ReachableIsInv(l: Limits, steps: seq<Step>)
    requires ValidLimits(l) && Possible(l, steps)
    ensures Inv(l, After(l, steps))
  {
    if steps == [] {
      assert Holders(Start(l)) == {} && Passed(Start(l)) == {};
    } else {
      ReachableIsInv(l, steps[..|steps| - 1]);
      StepKeepsInv(l, After(l, steps[..|steps| - 1]), steps[|steps| - 1]);
    }
  }

  function Elements(cs: seq<Caller>): set<Caller> {
    set c | c in cs
  }

  lemma {:induction false} DistinctSize(cs: seq<Caller>)
    requires DistinctCallers(cs)
    ensures |Elements(cs)| == |cs|
  {
    if cs != [] {
      DistinctSize(cs[1..]);
      assert Elements(cs) == Elements(cs[1..]) + {cs[0]};
    }
  }

  lemma SubsetSize(a: set<Caller>, b: set<Caller>)
    requires a <= b
    ensures |a| <= |b|
  {
    assert |b - a| == |b| - |a|;
  }

  // A caller that passed the window check finds room in the queue, or the close
  // notice is out: its work is queued or called off, never bounced.
  lemma NeverBounced(l: Limits, steps: seq<Step>, c: Caller)
    requires ValidLimits(l) && Possible(l, steps)
    requires c in After(l, steps).callers && After(l, steps).callers[c].Admitted?
    ensures HasQueueSpace(l, After(l, steps)) || Enabled(l, After(l, steps), GiveUp(c))
    ensures Enabled(l, After(l, steps), Offer(c)) ==> Next(l, After(l, steps), Offer(c)).callers[c].Waiting?
  {
    var st := After(l, steps);
    ReachableIsInv(l, steps);
    if !st.closed {
      DistinctSize(st.queue);
      SubsetSize(Elements(st.queue) + {c}, Passed(st));
      assert c !in Elements(st.queue);
    }
  }

  // Whenever the lock is free the window is within its bounds and the size is
  // the number of callers counted.
  lemma WindowWithinBounds(l: Limits, steps: seq<Step>)
    requires ValidLimits(l) && Possible(l, steps) && After(l, steps).lock == {}
    ensures l.minWindow <= After(l, steps).window <= l.maxWindow
    ensures 0 <= After(l, steps).size == |Passed(After(l, steps))| <= l.maxWindow
  {
    ReachableIsInv(l, steps);
    assert Passed(After(l, steps)) == Holders(After(l, steps));
  }

  lemma BouncesNobody(l: Limits, st: State, step: Step, c: Caller)
    requires Enabled(l, st, step) && !HasAnswer(st, c, Bounced)
    requires step == Offer(c) ==> HasQueueSpace(l, st)
    ensures !HasAnswer(Next(l, st, step), c, Bounced)
  {
  }

  predicate HasAnswer(st: State, c: Caller, answer: Answer) {
    c in st.callers && (st.callers[c].Leaving? || st.callers[c].Gone?) && st.callers[c].answer == answer
  }

  // So nobody is ever told that the queue was full.
  lemma {:induction false} NobodyBounced(l: Limits, steps: seq<Step>, c: Caller)
    requires ValidLimits(l) && Possible(l, steps)
    ensures !HasAnswer(After(l, steps), c, Bounced)
  {
    if steps != [] {
      var init, last := steps[..|steps| - 1], steps[|steps| - 1];
      NobodyBounced(l, init, c);
      if last == Offer(c) {
        NeverBounced(l, init, c);
      }
      BouncesNobody(l, After(l, init), last, c);
    }
  }

  /* ---- admission ---- */

  // How many callers were counted, c included, when c entered.
  ghost function CountedOnEntry(l: Limits, steps: seq<Step>, c: Caller): nat {
    if steps == [] then 0
    else if steps[|steps| - 1] == Enter(c) then |Holders(After(l, steps))|
    else CountedOnEntry(l, steps[..|steps| - 1], c)
  }

  lemma {:induction false} PositionIsCount(l: Limits, steps: seq<Step>, c: Caller)
    requires ValidLimits(l) && Possible(l, steps) && c in After(l, steps).callers && !After(l, steps).callers[c].Refused?
    ensures After(l, steps).callers[c].position == CountedOnEntry(l, steps, c)
  {
    if steps != [] {
      var init, last := steps[..|steps| - 1], steps[|steps| - 1];
      if last == Enter(c) {
        ReachableIsInv(l, steps);
      } else {
        PositionStays(l, After(l, init), last, c);
        PositionIsCount(l, init, c);
      }
    }
  }

  lemma PositionStays(l: Limits, st: State, step: Step, c: Caller)
    requires Enabled(l, st, step) && step != Enter(c) && c in Next(l, st, step).callers && !Next(l, st, step).callers[c].Refused?
    ensures c in st.callers && !st.callers[c].Refused? && Next(l, st, step).callers[c].position == st.callers[c].position
  {
  }

  // A caller is admitted exactly if the callers counted when it entered, itself
  // included, were no more than the window; refused, it is counted no longer.
  lemma AdmittedIff(l: Limits, steps: seq<Step>, c: Caller)
    requires ValidLimits(l) && Possible(l, steps) && Enabled(l, After(l, steps), Decide(c))
    ensures var st, next := After(l, steps), Next(l, After(l, steps), Decide(c));
            && (next.callers[c].Admitted? <==> CountedOnEntry(l, steps, c) <= st.window)
            && (!next.callers[c].Admitted? ==> next.callers[c].Refused? && Holders(next) == Holders(st) - {c})
            && next.lock == {} && next.window == st.window
  {
    PositionIsCount(l, steps, c);
  }

  /* ---- the queue ---- */

  // Who handed in work, in order, and how often the worker took some.
  function HandedIn(l: Limits, st: State, step: Step): seq<Caller> {
    if step.Offer? && HasQueueSpace(l, st) then [step.caller] else []
  }

  ghost function Offered(l: Limits, steps: seq<Step>): seq<Caller> {
    if steps == [] then [] else
      Offered(l, steps[..|steps| - 1]) + HandedIn(l, After(l, steps[..|steps| - 1]), steps[|steps| - 1])
  }

  function Worked(steps: seq<Step>): nat {
    if steps == [] then 0 else Worked(steps[..|steps| - 1]) + if steps[|steps| - 1].Work? then 1 else 0
  }

  lemma DropFirst(all: seq<Caller>, k: nat)
    requires k < |all|
    ensures all[k..][1..] == all[k + 1..] && all[k..][0] == all[k]
  {
  }

  lemma {:induction false} QueueIsFifo(l: Limits, steps: seq<Step>)
    requires Possible(l, steps)
    ensures Worked(steps) <= |Offered(l, steps)| && After(l, steps).queue == Offered(l, steps)[Worked(steps)..]
  {
    if steps != [] {
      var init, last := steps[..|steps| - 1], steps[|steps| - 1];
      QueueIsFifo(l, init);
      if last.Work? {
        DropFirst(Offered(l, init), Worked(init));
        assert Offered(l, steps) == Offered(l, init);
      } else if HandedIn(l, After(l, init), last) == [] {
        assert Offered(l, steps) == Offered(l, init);
      }
    }
  }

  // The worker takes the work handed in first of what it has not taken, and
  // runs it unless the window is by now too far below its position.
  lemma WorkAnswersOldest(l: Limits, steps: seq<Step>, c: Caller)
    requires ValidLimits(l) && Possible(l, steps) && Enabled(l, After(l, steps), Work)
    requires c in After(l, steps).callers && After(l, steps).callers[c].Waiting?
    ensures Worked(steps) < |Offered(l, steps)|
    ensures var st, next := After(l, steps), Next(l, After(l, steps), Work);
            if c == Offered(l, steps)[Worked(steps)]
            then HasAnswer(next, c, if CountedOnEntry(l, steps, c) > st.window + DISCARD_MARGIN then Discarded else Ran)
            else next.callers[c] == st.callers[c]
  {
    QueueIsFifo(l, steps);
    PositionIsCount(l, steps, c);
  }

  /* ---- when and how far the window moves ---- */

  function Raises(steps: seq<Step>): nat {
    if steps == [] then 0 else Raises(steps[..|steps| - 1]) + if steps[|steps| - 1].RaiseWindow? then 1 else 0
  }

  lemma {:induction false} SuccessesCounted(l: Limits, steps: seq<Step>)
    requires Possible(l, steps)
    ensures After(l, steps).successes == Raises(steps) % 0x1_0000_0000
  {
    if steps != [] {
      SuccessesCounted(l, steps[..|steps| - 1]);
    }
  }

  // The next success is a tenth one, as a 32-bit counter has it.
  predicate TenthNext(count: nat) {
    (count + 1) % 0x1_0000_0000 % 10 == 0
  }

  lemma RaiseMoves(l: Limits, st: State, count: nat)
    requires st.window <= l.maxWindow && st.lock == {} && st.successes == count % 0x1_0000_0000
    ensures Next(l, st, RaiseWindow).window == if TenthNext(count) && st.window < l.maxWindow then st.window + 1 else st.window
  {
  }

  // Every tenth success raises the window by one, up to its maximum.
  lemma RaisedIff(l: Limits, steps: seq<Step>)
    requires ValidLimits(l) && Possible(l, steps) && After(l, steps).lock == {}
    ensures var st, next := After(l, steps), Next(l, After(l, steps), RaiseWindow);
            next.window == if TenthNext(Raises(steps)) && st.window < l.maxWindow then st.window + 1 else st.window
  {
    ReachableIsInv(l, steps);
    SuccessesCounted(l, steps);
    RaiseMoves(l, After(l, steps), Raises(steps));
  }

  // A backoff lowers it to ten below the caller's position, down to its minimum.
  lemma LoweredTo(l: Limits, steps: seq<Step>, position: int)
    requires ValidLimits(l) && Possible(l, steps) && After(l, steps).lock == {}
    ensures var st, next := After(l, steps), Next(l, After(l, steps), LowerWindow(position));
            var floor := if position - 10 < l.minWindow then l.minWindow else position - 10;
            next.window == if floor < st.window then floor else st.window
  {
    ReachableIsInv(l, steps);
  }

  lemma OthersLeaveWindow(l: Limits, st: State, step: Step)
    requires Enabled(l, st, step) && !step.RaiseWindow? && !step.LowerWindow?
    ensures Next(l, st, step).window == st.window
  {
  }
}
