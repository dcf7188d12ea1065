// The adaptive rate limit tracker: a window of slots, work items that free
// their slot exactly once however they end, and a window that follows the
// success rate.
module RateTracker {

  const INT32_LIMIT := 0x8000_0000

  datatype Config = Config(
    minWindow: int,
    maxWindow: int,
    successThreshold: real,
    increaseFactor: real,
    decreaseFactor: real,
    increaseCheckInterval: nat,
    decreaseCheckInterval: nat)

  // What loading a configuration accepts, for sizes that fit 32 bits; a larger
  // maximum is accepted too and converted to a negative window.
  predicate ValidConfig(cfg: Config) {
    && 1 <= cfg.minWindow <= cfg.maxWindow < INT32_LIMIT
    && cfg.increaseFactor >= 1.0
    && 0.0 < cfg.decreaseFactor < 1.0
    && cfg.increaseCheckInterval >= 1 && cfg.decreaseCheckInterval >= 1
  }

  predicate Int32(x: int) {
    -INT32_LIMIT <= x < INT32_LIMIT
  }

  function Scaled(window: int, factor: real): real {
    window as real * factor
  }

  function Truncate(x: real): int {
    if x >= 0.0 then x.Floor else -((-x).Floor)
  }

  // Truncation to 32 bits. Out of range the result is whatever the platform
  // makes of it.
  function ToInt32(x: real, wild: int): int {
    if Int32(Truncate(x)) then Truncate(x) else wild
  }

  function Grow(cfg: Config, current: int, wild: int): int
    requires ValidConfig(cfg)
  {
    GrowFrom(cfg, current, ToInt32(Scaled(current, cfg.increaseFactor), wild))
  }

  function GrowFrom(cfg: Config, current: int, scaled: int): int {
    var next := if scaled == current then scaled + 1 else scaled;
    if next > cfg.maxWindow then cfg.maxWindow else next
  }

  function Shrink(cfg: Config, current: int, wild: int): int
    requires ValidConfig(cfg)
  {
    ShrinkFrom(cfg, current, ToInt32(Scaled(current, cfg.decreaseFactor), wild))
  }

  function ShrinkFrom(cfg: Config, current: int, scaled: int): int {
    var next := if scaled == current then scaled - 1 else scaled;
    if next < cfg.minWindow then cfg.minWindow else next
  }

  lemma ScaleUp(n: int, f: real)
    requires n >= 0 && f >= 1.0
    ensures Truncate(Scaled(n, f)) >= n
  {
    assert n as real * f >= n as real;
  }

  lemma ScaleDown(n: int, f: real)
    requires n > 0 && 0.0 < f < 1.0
    ensures Scaled(n, f) >= 0.0 && Truncate(Scaled(n, f)) < n
  {
    assert 0.0 < n as real * f < n as real;
  }

  lemma GrowFromRaisesIff(cfg: Config, current: int, x: real)
    requires ValidConfig(cfg) && cfg.minWindow <= current < cfg.maxWindow && Truncate(x) >= current
    ensures (forall wild :: Int32(wild) ==> current < GrowFrom(cfg, current, ToInt32(x, wild)) <= cfg.maxWindow) <==> Truncate(x) < INT32_LIMIT
  {
    if Truncate(x) >= INT32_LIMIT {
      assert ToInt32(x, -1) == -1;
      assert Int32(-1) && GrowFrom(cfg, current, ToInt32(x, -1)) == -1;
    }
  }

  // Growing raises the window, and stays within bounds, exactly when the scaled
  // window fits 32 bits: otherwise some platform result breaks it.
  lemma GrowRaisesIff(cfg: Config, current: int)
    requires ValidConfig(cfg) && cfg.minWindow <= current < cfg.maxWindow
    ensures (forall wild :: Int32(wild) ==> current < Grow(cfg, current, wild) <= cfg.maxWindow) <==>
            Truncate(Scaled(current, cfg.increaseFactor)) < INT32_LIMIT
  {
    ScaleUp(current, cfg.increaseFactor);
    GrowFromRaisesIff(cfg, current, Scaled(current, cfg.increaseFactor));
  }

  // Doubling a window of 0x6000_0000 leaves 32 bits; on a platform that then
  // yields the smallest integer the window falls below its minimum.
  lemma GrowOverflowExample(cfg: Config)
    requires ValidConfig(cfg) && cfg.maxWindow == INT32_LIMIT - 1 && cfg.increaseFactor == 2.0
    ensures Grow(cfg, 0x6000_0000, -INT32_LIMIT) == -INT32_LIMIT < cfg.minWindow
  {
    assert 0x6000_0000 as real * 2.0 == 0xC000_0000 as real;
    assert Truncate(0xC000_0000 as real) == 0xC000_0000;
  }

  // How far: to the scaled window, by one at least, and no further than the
  // bound.
  lemma GrowsTo(cfg: Config, current: int, wild: int)
    requires ValidConfig(cfg) && cfg.minWindow <= current < cfg.maxWindow
    requires Truncate(Scaled(current, cfg.increaseFactor)) < INT32_LIMIT
    ensures Grow(cfg, current, wild) == GrownTo(cfg, current)
  {
    ScaleUp(current, cfg.increaseFactor);
    GrowsFrom(cfg, current, Scaled(current, cfg.increaseFactor), wild);
  }

  lemma GrowsFrom(cfg: Config, current: int, x: real, wild: int)
    requires ValidConfig(cfg) && cfg.minWindow <= current < cfg.maxWindow && current <= Truncate(x) < INT32_LIMIT
    ensures GrowFrom(cfg, current, ToInt32(x, wild)) == AtMost(AtLeast(x.Floor, current + 1), cfg.maxWindow)
  {
    FloorOf(x, current);
  }

  lemma FloorOf(x: real, n: int)
    requires Truncate(x) >= n >= 1
    ensures Truncate(x) == x.Floor
  {
  }

  function GrownTo(cfg: Config, window: int): int {
    AtMost(AtLeast(Scaled(window, cfg.increaseFactor).Floor, window + 1), cfg.maxWindow)
  }

  function ShrunkTo(cfg: Config, window: int): int {
    AtLeast(Scaled(window, cfg.decreaseFactor).Floor, cfg.minWindow)
  }

  lemma ShrinksTo(cfg: Config, current: int, wild: int)
    requires ValidConfig(cfg) && cfg.minWindow < current <= cfg.maxWindow
    ensures Shrink(cfg, current, wild) == ShrunkTo(cfg, current)
  {
    ScaleDown(current, cfg.decreaseFactor);
    ShrinksFrom(cfg, current, Scaled(current, cfg.decreaseFactor), wild);
  }

  lemma ShrinksFrom(cfg: Config, current: int, x: real, wild: int)
    requires ValidConfig(cfg) && cfg.minWindow < current <= cfg.maxWindow && x >= 0.0 && Truncate(x) < current
    ensures ShrinkFrom(cfg, current, ToInt32(x, wild)) == AtLeast(x.Floor, cfg.minWindow)
    ensures cfg.minWindow <= ShrinkFrom(cfg, current, ToInt32(x, wild)) < current
  {
  }

  function AtMost(x: int, bound: int): int {
    if x > bound then bound else x
  }

  function AtLeast(x: int, bound: int): int {
    if x < bound then bound else x
  }

  lemma ShrinkLowers(cfg: Config, current: int, wild: int)
    requires ValidConfig(cfg) && cfg.minWindow < current <= cfg.maxWindow
    ensures cfg.minWindow <= Shrink(cfg, current, wild) < current
  {
    ScaleDown(current, cfg.decreaseFactor);
    ShrinksFrom(cfg, current, Scaled(current, cfg.decreaseFactor), wild);
  }

  /* ---- the tracker as a step system ---- */

  type Work = nat

  datatype Outcome = Success | Backoff | Failed

  // claimed: items some caller has won the right to complete. pending: won, but
  // the lock has not been taken yet. sweep: items the expiry sweep has listed
  // and not yet tried. freed: every time a slot was given back.
  datatype State = State(
    window: int,
    size: int,
    successes: nat,
    backoffs: nat,
    outstanding: set<Work>,
    created: set<Work>,
    claimed: set<Work>,
    pending: map<Work, Outcome>,
    sweep: seq<Work>,
    freed: multiset<Work>)

  function Start(cfg: Config): State {
    State(cfg.maxWindow, 0, 0, 0, {}, {}, {}, map[], [], multiset{})
  }

  // mean is what the success histogram then reports.
  datatype Step =
    | Acquire(work: Work)
    | Claim(work: Work, outcome: Outcome)
    | Finish(work: Work, mean: real, wild: int)
    | SweepList(expired: seq<Work>)
    | SweepNext

  predicate Enabled(st: State, step: Step) {
    match step
    case Acquire(w) => w !in st.created
    case Claim(w, _) => w in st.created
    case Finish(w, _, _) => w in st.pending
    case SweepList(expired) => st.sweep == [] && forall k :: 0 <= k < |expired| ==> expired[k] in st.outstanding
    case SweepNext => st.sweep != []
  }

  // A compare-and-swap: the first caller wins, the others do nothing.
  function TryClaim(st: State, w: Work, outcome: Outcome): State {
    if w in st.claimed then st else st.(claimed := st.claimed + {w}, pending := st.pending[w := outcome])
  }

  function Release(st: State, w: Work): State {
    st.(size := st.size - 1, outstanding := st.outstanding - {w}, pending := st.pending - {w}, freed := st.freed + multiset{w})
  }

  predicate Every(count: nat, interval: nat)
    requires interval >= 1
  {
    count % interval == 0
  }

  function Succeed(cfg: Config, st: State, mean: real, wild: int): State
    requires ValidConfig(cfg)
  {
    if st.window >= cfg.maxWindow then st
    else
      var count := (st.successes + 1) % 0x1_0000_0000;
      st.(successes := count,
          window := if Every(count, cfg.increaseCheckInterval) && mean > cfg.successThreshold then Grow(cfg, st.window, wild) else st.window)
  }

  function BackOff(cfg: Config, st: State, mean: real, wild: int): State
    requires ValidConfig(cfg)
  {
    if st.window <= cfg.minWindow then st
    else
      var count := (st.backoffs + 1) % 0x1_0000_0000;
      st.(backoffs := count,
          window := if Every(count, cfg.decreaseCheckInterval) && mean < cfg.successThreshold then Shrink(cfg, st.window, wild) else st.window)
  }

  function Next(cfg: Config, st: State, step: Step): State
    requires ValidConfig(cfg) && Enabled(st, step)
  {
    match step
    case Acquire(w) =>
      if st.size + 1 > st.window then st
      else st.(size := st.size + 1, outstanding := st.outstanding + {w}, created := st.created + {w})
    case Claim(w, outcome) => TryClaim(st, w, outcome)
    case Finish(w, mean, wild) =>
      var freed := Release(st, w);
      (match st.pending[w]
       case Success => Succeed(cfg, freed, mean, wild)
       case Backoff => BackOff(cfg, freed, mean, wild)
       case Failed => freed)
    case SweepList(expired) => st.(sweep := expired)
    case SweepNext => TryClaim(st.(sweep := st.sweep[1..]), st.sweep[0], Backoff)
  }

  // Scaling the window up never leaves 32 bits.
  predicate Fits(cfg: Config)
    requires ValidConfig(cfg)
  {
    cfg.minWindow < cfg.maxWindow ==> Truncate(Scaled(cfg.maxWindow - 1, cfg.increaseFactor)) < INT32_LIMIT
  }

  // Every slot is accounted for: the size is the number of outstanding items,
  // at most the largest window, and an item has given its slot back once if it
  // is done and never otherwise.
  ghost predicate SlotsKept(cfg: Config, st: State) {
    && st.size == |st.outstanding|
    && st.size <= cfg.maxWindow
    && st.window <= cfg.maxWindow
    && st.outstanding <= st.created
    && st.claimed <= st.created
    && st.pending.Keys <= st.outstanding
    && (forall w :: w in st.created ==> (w in st.claimed <==> w in st.pending || w !in st.outstanding))
    && (forall w :: st.freed[w] == if w in st.created && w !in st.outstanding then 1 else 0)
    && (forall k :: 0 <= k < |st.sweep| ==> st.sweep[k] in st.created)
  }

  predicate WindowKept(cfg: Config, st: State) {
    cfg.minWindow <= st.window <= cfg.maxWindow
  }

  lemma TimesMonotone(a: real, b: real, f: real)
    requires 0.0 <= a <= b && f >= 0.0
    ensures 0.0 <= a * f <= b * f
  {
    assert (b - a) * f >= 0.0;
  }

  lemma TruncateMonotone(a: real, b: real)
    requires 0.0 <= a <= b
    ensures Truncate(a) <= Truncate(b)
  {
  }

  lemma ScaleMonotone(n: int, m: int, f: real)
    requires 0 <= n <= m && f >= 0.0
    ensures Truncate(Scaled(n, f)) <= Truncate(Scaled(m, f))
  {
    TimesMonotone(n as real, m as real, f);
    TruncateMonotone(Scaled(n, f), Scaled(m, f));
  }

  lemma FitsBelow(cfg: Config, current: int)
    requires ValidConfig(cfg) && Fits(cfg) && cfg.minWindow <= current < cfg.maxWindow
    ensures Truncate(Scaled(current, cfg.increaseFactor)) < INT32_LIMIT
  {
    ScaleMonotone(current, cfg.maxWindow - 1, cfg.increaseFactor);
  }

  lemma GrowRaises(cfg: Config, current: int, wild: int)
    requires ValidConfig(cfg) && Fits(cfg) && Int32(wild) && cfg.minWindow <= current < cfg.maxWindow
    ensures current < Grow(cfg, current, wild) <= cfg.maxWindow
  {
    FitsBelow(cfg, current);
    GrowRaisesIff(cfg, current);
  }

  // Whatever the window and the platform, growing raises it: exactly when the
  // configuration fits.
  lemma FitsIff(cfg: Config)
    requires ValidConfig(cfg)
    ensures Fits(cfg) <==>
            forall current, wild :: cfg.minWindow <= current < cfg.maxWindow && Int32(wild) ==>
              current < Grow(cfg, current, wild) <= cfg.maxWindow
  {
    if Fits(cfg) {
      forall current, wild | cfg.minWindow <= current < cfg.maxWindow && Int32(wild)
        ensures current < Grow(cfg, current, wild) <= cfg.maxWindow
      {
        GrowRaises(cfg, current, wild);
      }
    } else {
      GrowRaisesIff(cfg, cfg.maxWindow - 1);
    }
  }

  lemma SucceedGrows(cfg: Config, st: State, mean: real, wild: int)
    requires ValidConfig(cfg) && Fits(cfg) && Int32(wild) && cfg.minWindow <= st.window <= cfg.maxWindow
    ensures var next := Succeed(cfg, st, mean, wild);
            && next == st.(window := next.window, successes := next.successes)
            && (next.window == st.window || st.window < next.window <= cfg.maxWindow)
  {
    if st.window < cfg.maxWindow {
      GrowRaises(cfg, st.window, wild);
    }
  }

  lemma BackOffShrinks(cfg: Config, st: State, mean: real, wild: int)
    requires ValidConfig(cfg) && cfg.minWindow <= st.window <= cfg.maxWindow
    ensures var next := BackOff(cfg, st, mean, wild);
            && next == st.(window := next.window, backoffs := next.backoffs)
            && (next.window == st.window || cfg.minWindow <= next.window < st.window)
  {
    if st.window > cfg.minWindow {
      ShrinkLowers(cfg, st.window, wild);
    }
  }

  ghost predicate Platform(step: Step) {
    step.Finish? ==> Int32(step.wild)
  }

  lemma ReleaseKeepsSlots(cfg: Config, st: State, w: Work)
    requires SlotsKept(cfg, st) && w in st.pending
    ensures SlotsKept(cfg, Release(st, w))
  {
  }

  lemma AcquireKeepsSlots(cfg: Config, st: State, w: Work)
    requires ValidConfig(cfg) && SlotsKept(cfg, st) && w !in st.created
    ensures SlotsKept(cfg, Next(cfg, st, Acquire(w)))
  {
  }

  lemma ClaimKeepsSlots(cfg: Config, st: State, w: Work, outcome: Outcome)
    requires SlotsKept(cfg, st) && w in st.created
    ensures SlotsKept(cfg, TryClaim(st, w, outcome))
  {
  }

  // Whatever the platform makes of an overflow, the window stays at or below
  // its maximum.
  lemma FinishKeepsSlots(cfg: Config, st: State, w: Work, mean: real, wild: int)
    requires ValidConfig(cfg) && SlotsKept(cfg, st) && w in st.pending
    ensures SlotsKept(cfg, Next(cfg, st, Finish(w, mean, wild)))
  {
    var freed := Release(st, w);
    ReleaseKeepsSlots(cfg, st, w);
    BackOffStaysBelow(cfg, freed, mean, wild);
  }

  lemma BackOffStaysBelow(cfg: Config, st: State, mean: real, wild: int)
    requires ValidConfig(cfg) && st.window <= cfg.maxWindow
    ensures BackOff(cfg, st, mean, wild).window <= cfg.maxWindow
  {
    if st.window > cfg.minWindow {
      ShrinkLowers(cfg, st.window, wild);
    }
  }

  lemma StepKeepsSlots(cfg: Config, st: State, step: Step)
    requires ValidConfig(cfg) && SlotsKept(cfg, st) && Enabled(st, step)
    ensures SlotsKept(cfg, Next(cfg, st, step))
  {
    match step
    case Acquire(w) => AcquireKeepsSlots(cfg, st, w);
    case Claim(w, outcome) => ClaimKeepsSlots(cfg, st, w, outcome);
    case Finish(w, mean, wild) => FinishKeepsSlots(cfg, st, w, mean, wild);
    case SweepList(expired) =>
    case SweepNext => ClaimKeepsSlots(cfg, st.(sweep := st.sweep[1..]), st.sweep[0], Backoff);
  }

  // Only finishing an item moves the window.
  lemma StepKeepsWindow(cfg: Config, st: State, step: Step)
    requires ValidConfig(cfg) && Fits(cfg) && WindowKept(cfg, st) && Enabled(st, step) && Platform(step)
    ensures var next := Next(cfg, st, step);
            && WindowKept(cfg, next)
            && (|| next.window == st.window
                || (step.Finish? && st.pending[step.work].Success? && st.window < next.window)
                || (step.Finish? && st.pending[step.work].Backoff? && next.window < st.window))
  {
    if step.Finish? {
      SucceedGrows(cfg, Release(st, step.work), step.mean, step.wild);
      BackOffShrinks(cfg, Release(st, step.work), step.mean, step.wild);
    }
  }

  ghost predicate Possible(cfg: Config, steps: seq<Step>)
    requires ValidConfig(cfg)
  {
    steps != [] ==>
      var init, last := steps[..|steps| - 1], steps[|steps| - 1];
      Possible(cfg, init) && Enabled(After(cfg, init), last) && Platform(last)
  }

  ghost function After(cfg: Config, steps: seq<Step>): State
    requires ValidConfig(cfg)
  {
    if steps == [] then Start(cfg) else
      var before := After(cfg, steps[..|steps| - 1]);
      if Enabled(before, steps[|steps| - 1]) then Next(cfg, before, steps[|steps| - 1]) else before
  }

  // Over every interleaving, and for every configuration that loads: the size
  // is the number of outstanding items and lies between 0 and the largest
  // window, and an item has freed its slot exactly once if it is done and
  // never otherwise.
  lemma {:induction false} SlotsConserved(cfg: Config, steps: seq<Step>)
    requires ValidConfig(cfg) && Possible(cfg, steps)
    ensures SlotsKept(cfg, After(cfg, steps))
  {
    if steps != [] {
      SlotsConserved(cfg, steps[..|steps| - 1]);
      StepKeepsSlots(cfg, After(cfg, steps[..|steps| - 1]), steps[|steps| - 1]);
    }
  }

  // Where scaling fits 32 bits the window stays in its bounds.
  lemma {:induction false} WindowStaysInBounds(cfg: Config, steps: seq<Step>)
    requires ValidConfig(cfg) && Fits(cfg) && Possible(cfg, steps)
    ensures WindowKept(cfg, After(cfg, steps))
  {
    if steps != [] {
      WindowStaysInBounds(cfg, steps[..|steps| - 1]);
      StepKeepsWindow(cfg, After(cfg, steps[..|steps| - 1]), steps[|steps| - 1]);
    }
  }

  // Each finish that moves the window moves it strictly: up on success, down
  // on backoff; nothing else moves it.
  lemma WindowMoves(cfg: Config, steps: seq<Step>, step: Step)
    requires ValidConfig(cfg) && Fits(cfg) && Possible(cfg, steps) && Enabled(After(cfg, steps), step) && Platform(step)
    ensures var st, next := After(cfg, steps), Next(cfg, After(cfg, steps), step);
            || next.window == st.window
            || (step.Finish? && st.pending[step.work].Success? && st.window < next.window <= cfg.maxWindow)
            || (step.Finish? && st.pending[step.work].Backoff? && cfg.minWindow <= next.window < st.window)
  {
    WindowStaysInBounds(cfg, steps);
    StepKeepsWindow(cfg, After(cfg, steps), step);
  }

  /* ---- admission ---- */

  predicate IsRateLimited(st: State) {
    st.size >= st.window
  }

  // An acquire gets a slot exactly while fewer items than the window are
  // outstanding; otherwise it leaves everything as it was.
  lemma AdmittedIff(cfg: Config, steps: seq<Step>, w: Work)
    requires ValidConfig(cfg) && Possible(cfg, steps) && w !in After(cfg, steps).created
    ensures var st, next := After(cfg, steps), Next(cfg, After(cfg, steps), Acquire(w));
            && (w in next.outstanding <==> |st.outstanding| < st.window)
            && (IsRateLimited(st) <==> |st.outstanding| >= st.window)
            && (w in next.outstanding ==> next.outstanding == st.outstanding + {w})
            && (w !in next.outstanding ==> next == st)
            && next.window == st.window && next.claimed == st.claimed && next.pending == st.pending
  {
    SlotsConserved(cfg, steps);
  }

  /* ---- who completes an item ---- */

  datatype Claimant = Nobody | By(outcome: Outcome)

  // The first completion or expiry of an item, read off the run.
  ghost function FirstClaim(cfg: Config, steps: seq<Step>, w: Work): Claimant
    requires ValidConfig(cfg)
  {
    if steps == [] then Nobody else
      var init, last := steps[..|steps| - 1], steps[|steps| - 1];
      var before := FirstClaim(cfg, init, w);
      if before.By? then before else ClaimIn(After(cfg, init), last, w)
  }

  // The claim stands, and the item is outstanding until its claimant finishes.
  predicate ClaimedBy(st: State, w: Work, first: Claimant) {
    && (w in st.claimed <==> first.By?)
    && (w in st.pending ==> By(st.pending[w]) == first)
    && (w in st.created ==> (w in st.outstanding <==> first.Nobody? || w in st.pending))
  }

  function ClaimIn(st: State, step: Step, w: Work): Claimant {
    if step.Claim? && step.work == w then By(step.outcome)
    else if step.SweepNext? && st.sweep != [] && st.sweep[0] == w then By(Backoff)
    else Nobody
  }

  lemma ClaimStep(cfg: Config, st: State, step: Step, w: Work, first: Claimant)
    requires ValidConfig(cfg) && Enabled(st, step) && SlotsKept(cfg, st) && ClaimedBy(st, w, first)
    ensures ClaimedBy(Next(cfg, st, step), w, if first.By? then first else ClaimIn(st, step, w))
  {
  }

  // Of all who complete an item the first decides its outcome; it is done once
  // that one has taken the lock.
  lemma {:induction false} FirstClaimWins(cfg: Config, steps: seq<Step>, w: Work)
    requires ValidConfig(cfg) && Possible(cfg, steps)
    ensures ClaimedBy(After(cfg, steps), w, FirstClaim(cfg, steps, w))
  {
    if steps != [] {
      var init, last := steps[..|steps| - 1], steps[|steps| - 1];
      SlotsConserved(cfg, init);
      FirstClaimWins(cfg, init, w);
      ClaimStep(cfg, After(cfg, init), last, w, FirstClaim(cfg, init, w));
    }
  }

  // The expiry sweep tries every item it listed.
  lemma SweepStep(cfg: Config, st: State, step: Step, w: Work)
    requires ValidConfig(cfg) && Enabled(st, step) && (w in st.sweep || w in st.claimed)
    ensures w in Next(cfg, st, step).sweep || w in Next(cfg, st, step).claimed
  {
    if step.SweepNext? && w in st.sweep && w != st.sweep[0] {
      assert st.sweep == [st.sweep[0]] + st.sweep[1..];
    }
  }

  lemma {:induction false} SweepReachesAll(cfg: Config, steps: seq<Step>, k: nat, w: Work)
    requires ValidConfig(cfg) && Possible(cfg, steps) && k < |steps| && steps[k].SweepList? && w in steps[k].expired
    ensures w in After(cfg, steps).sweep || w in After(cfg, steps).claimed
  {
    var n := |steps| - 1;
    if k < n {
      SweepReachesAll(cfg, steps[..n], k, w);
      SweepStep(cfg, After(cfg, steps[..n]), steps[n], w);
    }
  }

  /* ---- when and how far the window moves ---- */

  // How many successes finished while the window was below its maximum, and
  // backoffs while it was above its minimum.
  ghost function Counted(cfg: Config, steps: seq<Step>, outcome: Outcome): nat
    requires ValidConfig(cfg)
  {
    if steps == [] then 0 else
      Counted(cfg, steps[..|steps| - 1], outcome) + Counts(cfg, After(cfg, steps[..|steps| - 1]), steps[|steps| - 1], outcome)
  }

  function Counts(cfg: Config, st: State, step: Step, outcome: Outcome): nat {
    if step.Finish? && step.work in st.pending && st.pending[step.work] == outcome && MayMove(cfg, st.window, outcome) then 1 else 0
  }

  predicate MayMove(cfg: Config, window: int, outcome: Outcome) {
    match outcome
    case Success => window < cfg.maxWindow
    case Backoff => window > cfg.minWindow
    case Failed => false
  }

  lemma StepCounts(cfg: Config, st: State, step: Step)
    requires ValidConfig(cfg) && Enabled(st, step) && st.successes < 0x1_0000_0000 && st.backoffs < 0x1_0000_0000
    ensures Next(cfg, st, step).successes == (st.successes + Counts(cfg, st, step, Success)) % 0x1_0000_0000
    ensures Next(cfg, st, step).backoffs == (st.backoffs + Counts(cfg, st, step, Backoff)) % 0x1_0000_0000
  {
  }

  lemma Recounts(next: nat, was: nat, count: nat, more: nat)
    requires was == count % 0x1_0000_0000 && next == (was + more) % 0x1_0000_0000
    ensures next == (count + more) % 0x1_0000_0000
  {
  }

  ghost predicate CountsKept(cfg: Config, st: State, successes: nat, backoffs: nat) {
    st.successes == successes % 0x1_0000_0000 && st.backoffs == backoffs % 0x1_0000_0000
  }

  lemma {:induction false} CountersCount(cfg: Config, steps: seq<Step>)
    requires ValidConfig(cfg) && Possible(cfg, steps)
    ensures CountsKept(cfg, After(cfg, steps), Counted(cfg, steps, Success), Counted(cfg, steps, Backoff))
  {
    if steps != [] {
      var init, last := steps[..|steps| - 1], steps[|steps| - 1];
      CountersCount(cfg, init);
      CountsOn(cfg, After(cfg, init), last, Counted(cfg, init, Success), Counted(cfg, init, Backoff));
    }
  }

  lemma CountsOn(cfg: Config, st: State, step: Step, successes: nat, backoffs: nat)
    requires ValidConfig(cfg) && Enabled(st, step) && CountsKept(cfg, st, successes, backoffs)
    ensures CountsKept(cfg, Next(cfg, st, step), successes + Counts(cfg, st, step, Success), backoffs + Counts(cfg, st, step, Backoff))
  {
    StepCounts(cfg, st, step);
    Recounts(Next(cfg, st, step).successes, st.successes, successes, Counts(cfg, st, step, Success));
    Recounts(Next(cfg, st, step).backoffs, st.backoffs, backoffs, Counts(cfg, st, step, Backoff));
  }

  // Whether the next completion of that kind is one at which the success rate
  // is looked at.
  ghost predicate Looks(cfg: Config, steps: seq<Step>, outcome: Outcome)
    requires ValidConfig(cfg)
  {
    Every((Counted(cfg, steps, outcome) + 1) % 0x1_0000_0000, if outcome.Success? then cfg.increaseCheckInterval else cfg.decreaseCheckInterval)
  }

  lemma SucceedsTo(cfg: Config, st: State, mean: real, wild: int)
    requires ValidConfig(cfg) && Fits(cfg) && WindowKept(cfg, st)
    ensures Succeed(cfg, st, mean, wild).window ==
            if st.window < cfg.maxWindow && mean > cfg.successThreshold && Every((st.successes + 1) % 0x1_0000_0000, cfg.increaseCheckInterval)
            then GrownTo(cfg, st.window) else st.window
  {
    if st.window < cfg.maxWindow {
      FitsBelow(cfg, st.window);
      GrowsTo(cfg, st.window, wild);
    }
  }

  lemma BacksOffTo(cfg: Config, st: State, mean: real, wild: int)
    requires ValidConfig(cfg) && WindowKept(cfg, st)
    ensures BackOff(cfg, st, mean, wild).window ==
            if st.window > cfg.minWindow && mean < cfg.successThreshold && Every((st.backoffs + 1) % 0x1_0000_0000, cfg.decreaseCheckInterval)
            then ShrunkTo(cfg, st.window) else st.window
  {
    if st.window > cfg.minWindow {
      ShrinksTo(cfg, st.window, wild);
    }
  }

  // The window after one more completion, the looks at the success rate given.
  function WindowAfter(cfg: Config, window: int, outcome: Outcome, mean: real, looks: bool): int {
    match outcome
    case Success => if window < cfg.maxWindow && mean > cfg.successThreshold && looks then GrownTo(cfg, window) else window
    case Backoff => if window > cfg.minWindow && mean < cfg.successThreshold && looks then ShrunkTo(cfg, window) else window
    case Failed => window
  }

  predicate LooksNow(cfg: Config, st: State, outcome: Outcome, looks: bool)
    requires ValidConfig(cfg)
  {
    && (outcome.Success? ==> looks == Every((st.successes + 1) % 0x1_0000_0000, cfg.increaseCheckInterval))
    && (outcome.Backoff? ==> looks == Every((st.backoffs + 1) % 0x1_0000_0000, cfg.decreaseCheckInterval))
  }

  lemma FinishMoves(cfg: Config, st: State, w: Work, mean: real, wild: int, looks: bool)
    requires ValidConfig(cfg) && Fits(cfg) && WindowKept(cfg, st) && w in st.pending
    requires LooksNow(cfg, st, st.pending[w], looks)
    ensures Next(cfg, st, Finish(w, mean, wild)).window == WindowAfter(cfg, st.window, st.pending[w], mean, looks)
    ensures Next(cfg, st, Finish(w, mean, wild)).outstanding == st.outstanding - {w}
  {
    match st.pending[w]
    case Success => SucceedsTo(cfg, Release(st, w), mean, wild);
    case Backoff => BacksOffTo(cfg, Release(st, w), mean, wild);
    case Failed =>
  }

  lemma LooksIff(cfg: Config, steps: seq<Step>, st: State, outcome: Outcome)
    requires ValidConfig(cfg) && CountsKept(cfg, st, Counted(cfg, steps, Success), Counted(cfg, steps, Backoff))
    ensures LooksNow(cfg, st, outcome, Looks(cfg, steps, outcome))
  {
    Recounts((st.successes + 1) % 0x1_0000_0000, st.successes, Counted(cfg, steps, Success), 1);
    Recounts((st.backoffs + 1) % 0x1_0000_0000, st.backoffs, Counted(cfg, steps, Backoff), 1);
  }

  // What finishing an item does to the window: every so many successes it grows
  // if the success rate is above the threshold, every so many backoffs it
  // shrinks if it is below, and otherwise it stays.
  lemma WindowMovesIff(cfg: Config, steps: seq<Step>, w: Work, mean: real, wild: int)
    requires ValidConfig(cfg) && Fits(cfg) && Possible(cfg, steps) && w in After(cfg, steps).pending
    ensures var st, next := After(cfg, steps), Next(cfg, After(cfg, steps), Finish(w, mean, wild));
            && next.outstanding == st.outstanding - {w}
            && next.window == WindowAfter(cfg, st.window, st.pending[w], mean, Looks(cfg, steps, st.pending[w]))
  {
    var st := After(cfg, steps);
    WindowStaysInBounds(cfg, steps);
    CountersCount(cfg, steps);
    LooksIff(cfg, steps, st, st.pending[w]);
    FinishMoves(cfg, st, w, mean, wild, Looks(cfg, steps, st.pending[w]));
  }
}
