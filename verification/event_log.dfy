// The controller's log of recent change sets: what is kept, what a replay
// returns, and when a replay is trustworthy.
module EventLog {
  import opened DataState
  import opened ReceiverSpec
  import opened ReceiverStore

  // base is the index the log was last reset to; stored is everything accepted
  // since then, of which only the last `size` entries are still held.
  datatype Log = Log(size: nat, base: nat, stored: seq<ChangeSet>, minEntry: nat)

  datatype ReplayResult = Success(events: seq<ChangeSet>) | FullSyncRequired | RequestFromFuture

  // Position 0 is the base, position k + 1 the k-th stored change set.
  function IndexAt(c: Log, j: nat): nat
    requires j <= |c.stored|
  {
    if j == 0 then c.base else c.stored[j - 1].index
  }

  function Current(c: Log): nat {
    IndexAt(c, |c.stored|)
  }

  predicate Follows(c: Log, k: nat)
    requires k < |c.stored|
  {
    !c.stored[k].isSynthetic && c.stored[k].previousIndex == IndexAt(c, k)
  }

  // Indices increase and each change set names its predecessor.
  ghost predicate Chained(c: Log) {
    && c.size > 0
    && (forall k :: 0 <= k < |c.stored| ==> Follows(c, k))
    && (forall j, k :: 0 <= j < k <= |c.stored| ==> IndexAt(c, j) < IndexAt(c, k))
  }

  function FirstHeld(c: Log): nat {
    if |c.stored| > c.size then |c.stored| - c.size else 0
  }

  function Held(c: Log): seq<ChangeSet> {
    c.stored[FirstHeld(c)..]
  }

  // What the slot about to be written contains; an unused slot contains 0.
  function Evicted(c: Log): nat {
    if |c.stored| + 1 >= c.size > 0 then IndexAt(c, |c.stored| + 1 - c.size) else 0
  }

  predicate Acceptable(c: Log, cs: ChangeSet) {
    !cs.isSynthetic && Current(c) < cs.index
  }

  function Linked(c: Log, cs: ChangeSet): ChangeSet {
    cs.(previousIndex := Current(c))
  }

  function Store(c: Log, cs: ChangeSet): Log {
    if !Acceptable(c, cs) then c else
      var floor := if Evicted(c) != 0 then Evicted(c) + 1 else c.minEntry;
      c.(stored := c.stored + [Linked(c, cs)], minEntry := if floor == 0 then cs.index else floor)
  }

  function StoreAll(c: Log, offered: seq<ChangeSet>): Log {
    if offered == [] then c else Store(StoreAll(c, offered[..|offered| - 1]), offered[|offered| - 1])
  }

  // A reset forgets the events but leaves the smallest replayable index as it was.
  function SetCurrentIndex(c: Log, index: nat): Log {
    c.(base := index, stored := [])
  }

  // The stored change sets with index at least s.
  function From(es: seq<ChangeSet>, s: nat): seq<ChangeSet> {
    if es == [] then [] else (if es[0].index >= s then [es[0]] else []) + From(es[1..], s)
  }

  predicate Holds(c: Log, s: nat) {
    exists k :: 0 <= k < |Held(c)| && Held(c)[k].index == s
  }

  ghost function ReplayFrom(c: Log, s: nat): ReplayResult {
    if s > Current(c) then RequestFromFuture
    else if Holds(c, s) || (c.stored != [] && c.minEntry <= s) then Success(From(Held(c), s))
    else FullSyncRequired
  }

  /* ---- invariants of a log that is reset only before its first store ---- */

  // Where replays may start, worked out from the history since the reset and
  // the floor the reset left behind.
  function Floor(c: Log, left: nat): nat
    requires c.size > 0
  {
    if c.stored == [] then left
    else if |c.stored| >= c.size && IndexAt(c, |c.stored| - c.size) != 0 then IndexAt(c, |c.stored| - c.size) + 1
    else if left == 0 then c.stored[0].index
    else left
  }

  ghost predicate Floored(c: Log, left: nat) {
    Chained(c) && c.minEntry == Floor(c, left)
  }

  ghost predicate Fresh(c: Log) {
    Floored(c, 0)
  }

  function EmptyLog(size: nat): Log {
    Log(size, 0, [], 0)
  }

  // A change set is stored exactly when it is numbered and beyond the head;
  // it then is the head, and follows the one before.
  lemma StoredIff(c: Log, cs: ChangeSet)
    ensures var d := Store(c, cs);
            if !cs.isSynthetic && cs.index > Current(c)
            then d.stored == c.stored + [cs.(previousIndex := Current(c))] && Current(d) == cs.index && d.base == c.base && d.size == c.size
            else d == c
  {
  }

  // The head of a log is the largest index it was ever offered, or the one it
  // started with: nothing numbered and larger was passed over.
  lemma {:induction false} HeadIsLargest(c: Log, offered: seq<ChangeSet>)
    ensures var head := Current(StoreAll(c, offered));
            && head >= Current(c)
            && (forall k :: 0 <= k < |offered| && !offered[k].isSynthetic ==> offered[k].index <= head)
            && (head == Current(c) || exists k :: 0 <= k < |offered| && !offered[k].isSynthetic && offered[k].index == head)
  {
    if offered != [] {
      var init, last := offered[..|offered| - 1], offered[|offered| - 1];
      HeadIsLargest(c, init);
      StoredIff(StoreAll(c, init), last);
      var was := Current(StoreAll(c, init));
      if !last.isSynthetic && last.index > was {
        assert offered[|offered| - 1].index == Current(StoreAll(c, offered));
      } else if was != Current(c) {
        var k :| 0 <= k < |init| && !init[k].isSynthetic && init[k].index == was;
        assert offered[k] == init[k];
      }
    }
  }

  lemma StoreKeepsChained(c: Log, cs: ChangeSet)
    requires Chained(c)
    ensures Chained(Store(c, cs))
  {
    var d := Store(c, cs);
    if Acceptable(c, cs) {
      assert forall j: nat :: j <= |c.stored| ==> IndexAt(d, j) == IndexAt(c, j);
      assert forall k :: 0 <= k < |c.stored| && Follows(c, k) ==> Follows(d, k);
    }
  }

  lemma StoreKeepsFloor(c: Log, cs: ChangeSet, left: nat)
    requires Floored(c, left)
    ensures Floored(Store(c, cs), left)
  {
    StoreKeepsChained(c, cs);
    var n := |c.stored|;
    if n > 0 {
      assert IndexAt(c, 0) < IndexAt(c, 1);
      if n >= c.size {
        assert IndexAt(c, n - c.size) < IndexAt(c, n - c.size + 1);
      }
    }
  }

  lemma {:induction false} StoreAllKeepsFloor(c: Log, offered: seq<ChangeSet>, left: nat)
    requires Floored(c, left)
    ensures var d := StoreAll(c, offered); Floored(d, left) && d.size == c.size && d.base == c.base
  {
    if offered != [] {
      StoreAllKeepsFloor(c, offered[..|offered| - 1], left);
      StoreKeepsFloor(StoreAll(c, offered[..|offered| - 1]), offered[|offered| - 1], left);
    }
  }

  // Every log that was reset only while empty is fresh.
  lemma FreshRuns(size: nat, base: nat, offered: seq<ChangeSet>)
    requires size > 0
    ensures Fresh(StoreAll(SetCurrentIndex(EmptyLog(size), base), offered))
  {
    StoreAllKeepsFloor(SetCurrentIndex(EmptyLog(size), base), offered, 0);
  }

  /* ---- what a replay returns ---- */

  ghost predicate Increasing(es: seq<ChangeSet>) {
    forall a, b :: 0 <= a < b < |es| ==> es[a].index < es[b].index
  }

  // In an increasing list the change sets from s on are a suffix.
  lemma {:induction false} FromIsSuffix(es: seq<ChangeSet>, s: nat, k: nat)
    requires Increasing(es) && k <= |es|
    requires forall j :: 0 <= j < k ==> es[j].index < s
    requires k < |es| ==> es[k].index >= s
    ensures From(es, s) == es[k..]
  {
    if es != [] {
      FromIsSuffix(es[1..], s, if k > 0 then k - 1 else 0);
      if k == 0 {
        assert es == [es[0]] + es[1..];
      } else {
        assert es[1..][k - 1..] == es[k..];
      }
    }
  }

  // Where the change sets from s on begin.
  function Start(es: seq<ChangeSet>, s: nat): (k: nat)
    ensures k <= |es|
    ensures forall j :: 0 <= j < k ==> es[j].index < s
    ensures k < |es| ==> es[k].index >= s
  {
    if es == [] || es[0].index >= s then 0 else 1 + Start(es[1..], s)
  }

  lemma ChainedIncreasing(c: Log)
    requires Chained(c)
    ensures Increasing(c.stored) && Increasing(Held(c))
  {
    forall a, b | 0 <= a < b < |c.stored|
      ensures c.stored[a].index < c.stored[b].index
    {
      assert IndexAt(c, a + 1) < IndexAt(c, b + 1);
    }
  }

  // Dropping a prefix that lies before s loses nothing from s on.
  lemma {:induction false} FromSkips(es: seq<ChangeSet>, s: nat, k: nat)
    requires k <= |es| && forall j :: 0 <= j < k ==> es[j].index < s
    ensures From(es[k..], s) == From(es, s)
  {
    if k > 0 {
      FromSkips(es[1..], s, k - 1);
      assert es[1..][k - 1..] == es[k..];
    } else {
      assert es[0..] == es;
    }
  }

  lemma HeldSuffices(c: Log, s: nat)
    requires Chained(c) && (FirstHeld(c) > 0 ==> c.stored[FirstHeld(c) - 1].index < s)
    ensures From(Held(c), s) == From(c.stored, s)
  {
    ChainedIncreasing(c);
    FromSkips(c.stored, s, FirstHeld(c));
  }

  lemma NothingLost(c: Log, s: nat)
    requires Fresh(c) && ReplayFrom(c, s).Success? && FirstHeld(c) > 0
    ensures c.stored[FirstHeld(c) - 1].index < s
  {
    var f := FirstHeld(c);
    assert IndexAt(c, 0) < IndexAt(c, f);
    if Holds(c, s) {
      var k :| 0 <= k < |Held(c)| && Held(c)[k].index == s;
      assert IndexAt(c, f) < IndexAt(c, f + k + 1);
    }
  }

  lemma ReachesHead(c: Log, s: nat)
    requires Chained(c) && c.stored != [] && s <= Current(c)
    ensures From(c.stored, s) != []
  {
    ChainedIncreasing(c);
    FromIsSuffix(c.stored, s, Start(c.stored, s));
  }

  lemma OldestSuffices(c: Log, s: nat)
    requires Fresh(c) && c.stored != [] && Held(c)[0].index <= s
    ensures c.minEntry <= s
  {
    var n, f := |c.stored|, FirstHeld(c);
    assert Held(c)[0].index == IndexAt(c, f + 1);
    if n >= c.size {
      assert IndexAt(c, n - c.size) < IndexAt(c, n - c.size + 1);
      assert n > c.size ==> IndexAt(c, 0) < IndexAt(c, n - c.size);
    }
  }

  // A replay that succeeds returns every change set ever stored from s on, in
  // order and never none; it succeeds from the oldest held change set up to the
  // head; and it asks for the future exactly beyond the head.
  lemma ReplayIsExact(c: Log, s: nat)
    requires Fresh(c)
    ensures ReplayFrom(c, s).Success? ==> ReplayFrom(c, s).events == From(c.stored, s) != []
    ensures c.stored != [] && Held(c)[0].index <= s <= Current(c) ==> ReplayFrom(c, s).Success?
    ensures ReplayFrom(c, s).RequestFromFuture? <==> s > Current(c)
  {
    if ReplayFrom(c, s).Success? {
      if FirstHeld(c) > 0 {
        NothingLost(c, s);
      }
      HeldSuffices(c, s);
      ReachesHead(c, s);
    }
    if c.stored != [] && Held(c)[0].index <= s <= Current(c) {
      OldestSuffices(c, s);
    }
  }

  /* ---- replaying to a receiver ---- */

  lemma {:induction false} ChainAccepted(c: Log, k: nat, j: nat)
    requires Chained(c) && k <= j <= |c.stored| && IndexAt(c, k) > 0
    ensures Standing(IndexAt(c, k), c.stored[k..j]) == IndexAt(c, j)
  {
    if k < j {
      ChainAccepted(c, k, j - 1);
      assert c.stored[k..j][..j - 1 - k] == c.stored[k..j - 1];
      LinkAccepted(c, k, j - 1);
    } else {
      assert c.stored[k..j] == [];
    }
  }

  lemma LinkAccepted(c: Log, k: nat, j: nat)
    requires Chained(c) && k <= j < |c.stored| && IndexAt(c, k) > 0
    ensures Judge(IndexAt(c, j), c.stored[j]).Accepted? && NextIndex(IndexAt(c, j), c.stored[j]) == IndexAt(c, j + 1)
  {
    assert Follows(c, j);
    assert IndexAt(c, j) < IndexAt(c, j + 1);
    assert k < j ==> IndexAt(c, k) < IndexAt(c, j);
  }

  lemma RestIsSuffix(c: Log, k: nat)
    requires Chained(c) && k <= |c.stored|
    ensures From(c.stored, IndexAt(c, k) + 1) == c.stored[k..]
  {
    var r := IndexAt(c, k);
    forall j | 0 <= j < k
      ensures c.stored[j].index < r + 1
    {
      assert j + 1 < k ==> IndexAt(c, j + 1) < IndexAt(c, k);
    }
    if k < |c.stored| {
      assert IndexAt(c, k) < IndexAt(c, k + 1);
    }
    ChainedIncreasing(c);
    FromIsSuffix(c.stored, r + 1, k);
  }

  lemma RestAccepted(c: Log, k: nat, i: nat)
    requires Chained(c) && k + i < |c.stored| && IndexAt(c, k) > 0
    ensures Judge(Standing(IndexAt(c, k), c.stored[k..][..i]), c.stored[k..][i]).Accepted?
  {
    ChainAccepted(c, k, k + i);
    assert c.stored[k..k + i] == c.stored[k..][..i];
    LinkAccepted(c, k, k + i);
  }

  // What follows position k is all still held. At the base, where the next
  // index may be a gap, the log must also have filled up or start right there.
  predicate Retained(c: Log, k: nat) {
    && FirstHeld(c) <= k < |c.stored|
    && (k == 0 && |c.stored| < c.size ==> c.stored[0].index == c.base + 1)
  }

  lemma NoneBelow(c: Log, k: nat)
    requires Chained(c) && k < FirstHeld(c)
    ensures !Holds(c, IndexAt(c, k) + 1)
  {
    forall j | 0 <= j < |Held(c)|
      ensures Held(c)[j].index > IndexAt(c, k) + 1
    {
      assert IndexAt(c, k) < IndexAt(c, k + 1) && IndexAt(c, k + 1) < IndexAt(c, FirstHeld(c) + j + 1);
    }
  }

  lemma HeldNextToBase(c: Log)
    requires Chained(c) && c.stored != [] && FirstHeld(c) == 0
    ensures Holds(c, c.base + 1) <==> c.stored[0].index == c.base + 1
  {
    assert Held(c)[0] == c.stored[0];
    assert IndexAt(c, 0) < IndexAt(c, 1);
    if Holds(c, c.base + 1) {
      var j :| 0 <= j < |Held(c)| && Held(c)[j].index == c.base + 1;
      assert j > 0 ==> IndexAt(c, 1) < IndexAt(c, j + 1);
    }
  }

  // A receiver standing at a logged index is granted a replay from its next
  // index exactly when everything after it is retained.
  lemma ReplayGrantedIff(c: Log, k: nat)
    requires Fresh(c) && k <= |c.stored| && IndexAt(c, k) > 0
    ensures ReplayFrom(c, IndexAt(c, k) + 1).Success? <==> Retained(c, k)
  {
    var n, f := |c.stored|, FirstHeld(c);
    if k < n {
      assert IndexAt(c, k) < IndexAt(c, n);
      if k < f {
        NoneBelow(c, k);
        assert IndexAt(c, k) < IndexAt(c, f);
      } else {
        assert f < k ==> IndexAt(c, f) < IndexAt(c, k);
        assert 1 < k ==> IndexAt(c, 1) < IndexAt(c, k);
        if k == 0 {
          HeldNextToBase(c);
        }
      }
    }
  }

  // The receiver accepts all of es in turn and ends at the head.
  ghost predicate TakesAll(c: Log, r: Receiver, es: seq<ChangeSet>) {
    && ReceiveAll(r, es).index == Current(c)
    && forall i :: 0 <= i < |es| ==> Judge(ReceiveAll(r, es[..i]).index, es[i]).Accepted?
  }

  lemma TakesRest(c: Log, r: Receiver, k: nat)
    requires Chained(c) && k <= |c.stored| && r.index == IndexAt(c, k) > 0
    ensures TakesAll(c, r, c.stored[k..])
  {
    var es := c.stored[k..];
    forall i | 0 <= i < |es|
      ensures Judge(ReceiveAll(r, es[..i]).index, es[i]).Accepted?
    {
      RestAccepted(c, k, i);
      ReceiveStands(r, es[..i]);
    }
    ChainAccepted(c, k, |c.stored|);
    assert c.stored[k..|c.stored|] == es;
    ReceiveStands(r, es);
  }

  // Granted a replay from its next index, a receiver takes all of it.
  lemma ReplayCatchesUp(c: Log, r: Receiver, k: nat)
    requires Fresh(c) && Retained(c, k) && r.index == IndexAt(c, k) > 0
    ensures var replay := ReplayFrom(c, r.index + 1);
            replay.Success? && replay.events == c.stored[k..] && TakesAll(c, r, replay.events)
  {
    ReplayGrantedIff(c, k);
    ReplayIsExact(c, r.index + 1);
    RestIsSuffix(c, k);
    TakesRest(c, r, k);
  }

  // The change set at position k itself is held.
  lemma OwnIsHeldIff(c: Log, k: nat)
    requires Fresh(c) && k <= |c.stored| && IndexAt(c, k) > 0
    ensures ReplayFrom(c, IndexAt(c, k)).Success? <==> FirstHeld(c) < k
  {
    var n, f := |c.stored|, FirstHeld(c);
    assert k < n ==> IndexAt(c, k) < IndexAt(c, n);
    if f < k {
      assert Held(c)[k - 1 - f].index == IndexAt(c, k);
    } else {
      forall j | 0 <= j < |Held(c)|
        ensures Held(c)[j].index > IndexAt(c, k)
      {
        assert IndexAt(c, k) < IndexAt(c, f + j + 1);
      }
      assert k < f ==> IndexAt(c, k) < IndexAt(c, f);
      assert n > 0 ==> IndexAt(c, 0) < IndexAt(c, 1);
    }
  }

  lemma OwnReplay(c: Log, k: nat)
    requires Fresh(c) && FirstHeld(c) < k <= |c.stored| && IndexAt(c, k) > 0 && ReplayFrom(c, IndexAt(c, k)).Success?
    ensures ReplayFrom(c, IndexAt(c, k)).events == c.stored[k - 1..]
    ensures c.stored[k - 1..][0].index == IndexAt(c, k) && c.stored[k - 1..][1..] == c.stored[k..]
  {
    ReplayIsExact(c, IndexAt(c, k));
    ChainedIncreasing(c);
    FromIsSuffix(c.stored, IndexAt(c, k), k - 1);
  }

  // The sender replays from the router's own index and drops the first change
  // set of what it gets. For a router at any index the sender has held that
  // first one is the one the router has, and the rest is all it lacks.
  lemma RouterCatchesUp(c: Log, r: Receiver, k: nat)
    requires Fresh(c) && k <= |c.stored| && r.index == IndexAt(c, k) > 0
    ensures ReplayFrom(c, r.index).Success? <==> FirstHeld(c) < k
    ensures ReplayFrom(c, r.index).Success? ==>
      var es := ReplayFrom(c, r.index).events;
      && es == c.stored[k - 1..] && es[0].index == r.index
      && es[1..] == c.stored[k..] && TakesAll(c, r, es[1..])
  {
    OwnIsHeldIff(c, k);
    if FirstHeld(c) < k {
      OwnReplay(c, k);
      TakesRest(c, r, k);
    }
  }

  lemma HeldAtIff(c: Log, s: nat, p: nat)
    requires Increasing(c.stored) && FirstHeld(c) <= p < |c.stored| && c.stored[p].index >= s
    requires forall j :: 0 <= j < p ==> c.stored[j].index < s
    ensures Holds(c, s) <==> c.stored[p].index == s
  {
    var f := FirstHeld(c);
    assert Held(c)[p - f] == c.stored[p];
    if Holds(c, s) {
      var k :| 0 <= k < |Held(c)| && Held(c)[k].index == s;
      assert c.stored[f + k].index == s;
    }
  }

  lemma StartsHeld(c: Log, s: nat)
    requires Fresh(c) && ReplayFrom(c, s).Success?
    ensures FirstHeld(c) <= Start(c.stored, s) < |c.stored|
  {
    ReplayIsExact(c, s);
    ChainedIncreasing(c);
    FromIsSuffix(c.stored, s, Start(c.stored, s));
    if FirstHeld(c) > 0 {
      NothingLost(c, s);
    }
  }

  lemma StartsAtIff(c: Log, s: nat)
    requires Fresh(c) && ReplayFrom(c, s).Success?
    ensures var p := Start(c.stored, s);
            && p < |c.stored| && ReplayFrom(c, s).events == c.stored[p..]
            && (Holds(c, s) <==> c.stored[p].index == s)
  {
    StartsHeld(c, s);
    ReplayIsExact(c, s);
    ChainedIncreasing(c);
    FromIsSuffix(c.stored, s, Start(c.stored, s));
    HeldAtIff(c, s, Start(c.stored, s));
  }

  lemma FromNext(c: Log, s: nat, p: nat)
    requires Chained(c) && p < |c.stored| && c.stored[p].index >= s && forall j :: 0 <= j < p ==> c.stored[j].index < s
    ensures From(c.stored, s + 1) == if c.stored[p].index == s then c.stored[p + 1..] else c.stored[p..]
  {
    ChainedIncreasing(c);
    FromIsSuffix(c.stored, s + 1, if c.stored[p].index == s then p + 1 else p);
  }

  lemma TailDiffers(es: seq<ChangeSet>, p: nat)
    requires p < |es|
    ensures es[p..][1..] == es[p + 1..] != es[p..]
  {
    assert |es[p..]| == |es[p + 1..]| + 1;
  }

  // From an index that was never stored the same drop loses a change set.
  lemma BlindDropIff(c: Log, s: nat)
    requires Fresh(c) && ReplayFrom(c, s).Success?
    ensures ReplayFrom(c, s).events != []
    ensures ReplayFrom(c, s).events[1..] == From(c.stored, s + 1) <==> Holds(c, s)
  {
    var p := Start(c.stored, s);
    StartsAtIff(c, s);
    FromNext(c, s, p);
    TailDiffers(c.stored, p);
  }

  /* ---- a late reset ---- */

  // A reset after the first store keeps the old floor, so a replay can succeed
  // although the change set asked for was forgotten.
  lemma LateResetExample(a: ChangeSet, b: ChangeSet)
    requires !a.isSynthetic && !b.isSynthetic && a.index == 3 && b.index == 21
    ensures var c := Store(EmptyLog(4), a);
            var d := Store(SetCurrentIndex(c, 20), b);
            Holds(c, 3) && ReplayFrom(d, 3) == Success([b.(previousIndex := 20)])
  {
    var c := Store(EmptyLog(4), a);
    var d := Store(SetCurrentIndex(c, 20), b);
    assert Held(c)[0].index == 3;
    assert Held(d) == d.stored == [b.(previousIndex := 20)];
    assert From(d.stored[1..], 3) == [];
  }

  // Replays that reach behind a reset are refused exactly when the log had no
  // floor yet, or a floor beyond the reset index, or the reset has since been
  // pushed out of the log.
  lemma ResetIsSafeIff(c: Log, index: nat, offered: seq<ChangeSet>)
    requires c.size > 0 && StoreAll(SetCurrentIndex(c, index), offered).stored != []
    ensures var d := StoreAll(SetCurrentIndex(c, index), offered);
            (forall s: nat :: ReplayFrom(d, s).Success? ==> s > index) <==>
            (c.minEntry == 0 || c.minEntry > index || |d.stored| >= c.size)
  {
    var d := StoreAll(SetCurrentIndex(c, index), offered);
    StoreAllKeepsFloor(SetCurrentIndex(c, index), offered, c.minEntry);
    FloorBeyondBaseIff(d, c.minEntry);
    if d.minEntry > index {
      forall s: nat | ReplayFrom(d, s).Success?
        ensures s > index
      {
        if Holds(d, s) {
          HeldBeyondBase(d, s);
        }
      }
    } else {
      assert IndexAt(d, 0) < IndexAt(d, |d.stored|);
      assert ReplayFrom(d, index).Success?;
    }
  }

  lemma HeldBeyondBase(d: Log, s: nat)
    requires Chained(d) && Holds(d, s)
    ensures s > d.base
  {
    var k :| 0 <= k < |Held(d)| && Held(d)[k].index == s;
    assert IndexAt(d, 0) < IndexAt(d, FirstHeld(d) + k + 1);
  }

  lemma FloorBeyondBaseIff(d: Log, left: nat)
    requires Floored(d, left) && d.stored != []
    ensures d.minEntry > d.base <==> left == 0 || left > d.base || |d.stored| >= d.size
  {
    var n := |d.stored|;
    assert IndexAt(d, 0) < IndexAt(d, 1);
    if n > d.size {
      assert IndexAt(d, 0) < IndexAt(d, n - d.size);
    }
  }
}
