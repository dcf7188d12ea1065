// Replication end to end: whatever selection of the sender's change sets
// reaches a receiver, in whatever order and however often, the receiver holds
// the sender's content as of the receiver's own index.
module Replication {
  import opened DataState
  import opened RelationalView
  import opened ReceiverSpec
  import opened ReceiverStore
  import opened ReceiverInvariant
  import opened ReceiverSteps
  import opened ReceiverRuns
  import opened FullSync
  import opened EventLog
  import SenderSpec

  // The history applied without any check.
  ghost function Replayed(m: Model, es: seq<ChangeSet>): Model {
    if es == [] then m else
      var last := es[|es| - 1];
      HandleAll(Replayed(m, es[..|es| - 1]), last.index, last.changes)
  }

  // A receiver standing at position j of the history takes the next change set
  // of the history and no other.
  lemma OnlyNextAccepted(c: Log, j: nat, i: nat)
    requires Chained(c) && j <= |c.stored| && IndexAt(c, j) > 0 && i < |c.stored|
    ensures Judge(IndexAt(c, j), c.stored[i]).Accepted? <==> i == j
  {
    assert Follows(c, i);
    if i < j {
      assert i + 1 < j ==> IndexAt(c, i + 1) < IndexAt(c, j);
    } else {
      assert IndexAt(c, i) < IndexAt(c, i + 1);
      assert j < i ==> IndexAt(c, j) < IndexAt(c, i);
    }
  }

  // How far an offered selection takes a receiver that stands at position k.
  function Reached(c: Log, k: nat, offered: seq<ChangeSet>): (j: nat)
    requires k <= |c.stored|
    ensures k <= j <= |c.stored|
  {
    if offered == [] then k else
      var j := Reached(c, k, offered[..|offered| - 1]);
      if j < |c.stored| && offered[|offered| - 1] == c.stored[j] then j + 1 else j
  }

  // Dropped, duplicated or reordered, the offers accepted are a contiguous run
  // of the history from the receiver's position on.
  lemma {:induction false} ReplicationSafe(c: Log, r: Receiver, k: nat, offered: seq<ChangeSet>)
    requires Chained(c) && k <= |c.stored| && r.index == IndexAt(c, k) > 0
    requires forall i :: 0 <= i < |offered| ==> offered[i] in c.stored
    ensures var j := Reached(c, k, offered);
            ReceiveAll(r, offered) == Receiver(Replayed(r.model, c.stored[k..j]), IndexAt(c, j))
  {
    if offered == [] {
      assert c.stored[k..k] == [];
    } else {
      var init, last := offered[..|offered| - 1], offered[|offered| - 1];
      ReplicationSafe(c, r, k, init);
      var j := Reached(c, k, init);
      NoEarlier(c, k, j);
      OfferStep(c, j, last, k, r.model);
    }
  }

  lemma NoEarlier(c: Log, k: nat, j: nat)
    requires Chained(c) && k <= j <= |c.stored|
    ensures IndexAt(c, k) <= IndexAt(c, j)
  {
    assert k < j ==> IndexAt(c, k) < IndexAt(c, j);
  }

  lemma OfferStep(c: Log, j: nat, cs: ChangeSet, k: nat, m: Model)
    requires Chained(c) && k <= j <= |c.stored| && IndexAt(c, j) > 0 && cs in c.stored
    ensures var next := if j < |c.stored| && cs == c.stored[j] then j + 1 else j;
            Receive(Receiver(Replayed(m, c.stored[k..j]), IndexAt(c, j)), cs) ==
            Receiver(Replayed(m, c.stored[k..next]), IndexAt(c, next))
  {
    var i :| 0 <= i < |c.stored| && c.stored[i] == cs;
    OnlyNextAccepted(c, j, i);
    assert Follows(c, i);
    if j < |c.stored| && cs == c.stored[j] {
      OnlyNextAccepted(c, j, j);
      assert c.stored[k..j + 1][..j - k] == c.stored[k..j];
    }
  }

  /* ---- a receiver that has nothing yet ---- */

  // The offers a receiver takes, in order.
  function Taken(index: nat, offered: seq<ChangeSet>): seq<ChangeSet> {
    if offered == [] then [] else
      var init, last := offered[..|offered| - 1], offered[|offered| - 1];
      Taken(index, init) + IfAccepted(Standing(index, init), last)
  }

  function IfAccepted(index: nat, cs: ChangeSet): seq<ChangeSet> {
    if Judge(index, cs).Accepted? then [cs] else []
  }

  predicate Continues(index: nat, es: seq<ChangeSet>, k: nat)
    requires k < |es|
  {
    es[k].previousIndex == if k == 0 then index else es[k - 1].index
  }

  // Each change set follows the one before it, the first one the given index:
  // nothing that ever happened is left out.
  ghost predicate Gapless(index: nat, es: seq<ChangeSet>) {
    forall k :: 0 <= k < |es| ==> Continues(index, es, k)
  }

  lemma StandsAtReached(c: Log, k: nat, offered: seq<ChangeSet>)
    requires Chained(c) && k <= |c.stored| && IndexAt(c, k) > 0
    requires forall i :: 0 <= i < |offered| ==> offered[i] in c.stored
    ensures Standing(IndexAt(c, k), offered) == IndexAt(c, Reached(c, k, offered))
  {
    var r := Receiver(EmptyModel(""), IndexAt(c, k));
    ReplicationSafe(c, r, k, offered);
    ReceiveStands(r, offered);
  }

  lemma {:induction false} TakenIsHistory(c: Log, k: nat, offered: seq<ChangeSet>)
    requires Chained(c) && k <= |c.stored| && IndexAt(c, k) > 0
    requires forall i :: 0 <= i < |offered| ==> offered[i] in c.stored
    ensures Taken(IndexAt(c, k), offered) == c.stored[k..Reached(c, k, offered)]
  {
    if offered != [] {
      var init, last := offered[..|offered| - 1], offered[|offered| - 1];
      var j := Reached(c, k, init);
      TakenIsHistory(c, k, init);
      StandsAtReached(c, k, init);
      TakeStep(c, j, last, k);
      assert Taken(IndexAt(c, k), offered) == c.stored[k..j] + IfAccepted(IndexAt(c, j), last);
    }
  }

  lemma TakeStep(c: Log, j: nat, cs: ChangeSet, k: nat)
    requires Chained(c) && k <= j <= |c.stored| && IndexAt(c, k) > 0 && cs in c.stored
    ensures var next := if j < |c.stored| && cs == c.stored[j] then j + 1 else j;
            c.stored[k..j] + IfAccepted(IndexAt(c, j), cs) == c.stored[k..next]
  {
    NoEarlier(c, k, j);
    var i :| 0 <= i < |c.stored| && c.stored[i] == cs;
    OnlyNextAccepted(c, j, i);
    if j < |c.stored| && cs == c.stored[j] {
      OnlyNextAccepted(c, j, j);
      assert c.stored[k..j] + [c.stored[j]] == c.stored[k..j + 1];
    }
  }

  lemma {:induction false} FirstStands(index: nat, offered: seq<ChangeSet>)
    requires offered != []
    ensures Standing(index, offered) == Standing(NextIndex(index, offered[0]), offered[1..])
  {
    if |offered| == 1 {
      assert offered[..0] == [];
    } else {
      FirstStands(index, offered[..|offered| - 1]);
      assert offered[..|offered| - 1][1..] == offered[1..][..|offered| - 2];
    }
  }

  lemma {:induction false} FirstTaken(index: nat, offered: seq<ChangeSet>)
    requires offered != [] && Judge(index, offered[0]).Accepted?
    ensures Taken(index, offered) == [offered[0]] + Taken(NextIndex(index, offered[0]), offered[1..])
  {
    if |offered| == 1 {
      assert offered[..0] == [] && offered[1..] == [];
      assert Taken(index, offered) == Taken(index, []) + IfAccepted(index, offered[0]);
    } else {
      var init, last := offered[..|offered| - 1], offered[|offered| - 1];
      FirstTaken(index, init);
      FirstStands(index, init);
      var next, rest := NextIndex(index, offered[0]), offered[1..];
      assert rest[..|rest| - 1] == init[1..] && rest[|rest| - 1] == last;
      assert Taken(next, rest) == Taken(next, init[1..]) + IfAccepted(Standing(next, init[1..]), last);
      assert Taken(index, offered) == Taken(index, init) + IfAccepted(Standing(index, init), last);
    }
  }

  lemma {:induction false} FirstReceived(r: Receiver, offered: seq<ChangeSet>)
    requires offered != []
    ensures ReceiveAll(r, offered) == ReceiveAll(Receive(r, offered[0]), offered[1..])
  {
    if |offered| == 1 {
      assert offered[..0] == [];
      assert ReceiveAll(r, offered[..0]) == r;
    } else {
      FirstReceived(r, offered[..|offered| - 1]);
      assert offered[..|offered| - 1][1..] == offered[1..][..|offered| - 2];
    }
  }

  lemma EmptyTakes(c: Log, offered: seq<ChangeSet>, i: nat)
    requires Chained(c) && i < |c.stored| && offered != [] && offered[0] == c.stored[i]
    requires forall k :: 0 <= k < |offered| ==> offered[k] in c.stored
    ensures Taken(0, offered) == c.stored[i..Reached(c, i + 1, offered[1..])]
  {
    PositiveIndex(c, i);
    FirstTaken(0, offered);
    TakenIsHistory(c, i + 1, offered[1..]);
    SliceFirst(c.stored, i, Reached(c, i + 1, offered[1..]));
  }

  lemma SliceFirst(es: seq<ChangeSet>, i: nat, j: nat)
    requires i < j <= |es|
    ensures es[i..j] == [es[i]] + es[i + 1..j] && es[i..j][1..] == es[i + 1..j]
  {
  }

  lemma PositiveIndex(c: Log, i: nat)
    requires Chained(c) && i < |c.stored|
    ensures IndexAt(c, i + 1) > 0 && Judge(0, c.stored[i]).Accepted? && NextIndex(0, c.stored[i]) == IndexAt(c, i + 1)
  {
    assert Follows(c, i) && IndexAt(c, 0) < IndexAt(c, i + 1);
  }

  lemma EmptyReceives(c: Log, m: Model, offered: seq<ChangeSet>, i: nat)
    requires Chained(c) && i < |c.stored| && offered != [] && offered[0] == c.stored[i]
    ensures ReceiveAll(Receiver(m, 0), offered) ==
            ReceiveAll(Receiver(HandleAll(m, c.stored[i].index, c.stored[i].changes), IndexAt(c, i + 1)), offered[1..])
  {
    PositiveIndex(c, i);
    FirstReceived(Receiver(m, 0), offered);
  }

  lemma RestFollows(c: Log, m: Model, offered: seq<ChangeSet>, i: nat)
    requires Chained(c) && i < |c.stored| && offered != [] && forall k :: 0 <= k < |offered| ==> offered[k] in c.stored
    ensures var j := Reached(c, i + 1, offered[1..]);
            ReceiveAll(Receiver(m, IndexAt(c, i + 1)), offered[1..]) == Receiver(Replayed(m, c.stored[i + 1..j]), IndexAt(c, j))
  {
    PositiveIndex(c, i);
    ReplicationSafe(c, Receiver(m, IndexAt(c, i + 1)), i + 1, offered[1..]);
  }

  // At index 0 the first offer is taken whatever it is; from there on the
  // receiver follows the history without a gap.
  lemma EmptyReceiverFollows(c: Log, m: Model, offered: seq<ChangeSet>, i: nat)
    requires Chained(c) && i < |c.stored| && offered != [] && offered[0] == c.stored[i]
    requires forall k :: 0 <= k < |offered| ==> offered[k] in c.stored
    ensures var j := Reached(c, i + 1, offered[1..]);
            ReceiveAll(Receiver(m, 0), offered) == Receiver(Replayed(m, c.stored[i..j]), IndexAt(c, j))
  {
    EmptyReceives(c, m, offered, i);
    RestFollows(c, HandleAll(m, c.stored[i].index, c.stored[i].changes), offered, i);
    ReplayedSlice(m, c.stored, i, Reached(c, i + 1, offered[1..]));
  }

  lemma {:induction false} ReplayedFirst(m: Model, es: seq<ChangeSet>)
    requires es != []
    ensures Replayed(m, es) == Replayed(HandleAll(m, es[0].index, es[0].changes), es[1..])
  {
    if |es| == 1 {
      assert es[..0] == [] && es[1..] == [];
    } else {
      ReplayedFirst(m, es[..|es| - 1]);
      assert es[..|es| - 1][1..] == es[1..][..|es| - 2];
    }
  }

  lemma ReplayedSlice(m: Model, es: seq<ChangeSet>, i: nat, j: nat)
    requires i < j <= |es|
    ensures Replayed(m, es[i..j]) == Replayed(HandleAll(m, es[i].index, es[i].changes), es[i + 1..j])
  {
    SliceFirst(es, i, j);
    ReplayedFirst(m, es[i..j]);
  }

  lemma GaplessIff(c: Log, i: nat, j: nat)
    requires Chained(c) && i < j <= |c.stored|
    ensures Gapless(0, c.stored[i..j]) <==> IndexAt(c, i) == 0
  {
    var es := c.stored[i..j];
    forall k | 0 <= k < |es|
      ensures Continues(IndexAt(c, i), es, k)
    {
      assert Follows(c, i + k);
    }
    assert Continues(IndexAt(c, i), es, 0);
    if IndexAt(c, i) != 0 {
      assert !Continues(0, es, 0);
    }
  }

  lemma StartsAtZeroIff(c: Log, i: nat)
    requires Chained(c) && i < |c.stored|
    ensures IndexAt(c, i) == 0 <==> i == 0 && c.base == 0
    ensures c.stored[i] == c.stored[0] <==> i == 0
  {
    if i > 0 {
      assert IndexAt(c, 0) < IndexAt(c, i);
      assert IndexAt(c, 1) < IndexAt(c, i + 1);
    }
  }

  lemma GaplessTakenIff(c: Log, offered: seq<ChangeSet>)
    requires Chained(c) && offered != [] && forall k :: 0 <= k < |offered| ==> offered[k] in c.stored
    ensures |c.stored| > 0
    ensures Gapless(0, Taken(0, offered)) <==> c.base == 0 && offered[0] == c.stored[0]
  {
    assert offered[0] in c.stored;
    var i :| 0 <= i < |c.stored| && c.stored[i] == offered[0];
    EmptyTakes(c, offered, i);
    GaplessIff(c, i, Reached(c, i + 1, offered[1..]));
    StartsAtZeroIff(c, i);
  }

  lemma SliceFromZero(es: seq<ChangeSet>, j: nat)
    requires j <= |es|
    ensures es[0..j] == es[..j]
  {
  }

  lemma TakesFromFirst(c: Log, offered: seq<ChangeSet>)
    requires Chained(c) && |c.stored| > 0 && offered != [] && offered[0] == c.stored[0]
    requires forall k :: 0 <= k < |offered| ==> offered[k] in c.stored
    ensures Taken(0, offered) == c.stored[..Reached(c, 1, offered[1..])]
  {
    SliceFromZero(c.stored, Reached(c, 1, offered[1..]));
    EmptyTakes(c, offered, 0);
  }

  lemma FollowsFromFirst(c: Log, m: Model, offered: seq<ChangeSet>)
    requires Chained(c) && |c.stored| > 0 && offered != [] && offered[0] == c.stored[0]
    requires forall k :: 0 <= k < |offered| ==> offered[k] in c.stored
    ensures var j := Reached(c, 1, offered[1..]);
            ReceiveAll(Receiver(m, 0), offered) == Receiver(Replayed(m, c.stored[..j]), IndexAt(c, j))
  {
    SliceFromZero(c.stored, Reached(c, 1, offered[1..]));
    EmptyReceiverFollows(c, m, offered, 0);
  }

  // Without a snapshot there is nothing to compare with. What an empty receiver
  // takes leaves nothing out exactly when the log begins at index 0 and the
  // first offer is its first change set. Its state then is the whole history
  // folded up to its own index.
  lemma EmptyReceiverFollowsIff(c: Log, m: Model, offered: seq<ChangeSet>)
    requires Chained(c) && offered != [] && forall k :: 0 <= k < |offered| ==> offered[k] in c.stored
    ensures |c.stored| > 0
    ensures Gapless(0, Taken(0, offered)) <==> c.base == 0 && offered[0] == c.stored[0]
    ensures Gapless(0, Taken(0, offered)) ==>
      var j := Reached(c, 1, offered[1..]);
      Taken(0, offered) == c.stored[..j] && ReceiveAll(Receiver(m, 0), offered) == Receiver(Replayed(m, c.stored[..j]), IndexAt(c, j))
  {
    GaplessTakenIff(c, offered);
    if offered[0] == c.stored[0] {
      TakesFromFirst(c, offered);
      FollowsFromFirst(c, m, offered);
    }
  }

  lemma OneReceived(r: Receiver, cs: ChangeSet)
    ensures ReceiveAll(r, [cs]) == Receive(r, cs)
  {
    FirstReceived(r, [cs]);
  }

  // An empty receiver that is offered the second of two change sets before the
  // first refuses the first one and lacks for good what it created.
  lemma EmptyReceiverExample(a: ChangeSet, b: ChangeSet, d: IdentityData)
    requires !a.isSynthetic && a.index == 3 && a.previousIndex == 0 && a.changes == [IdentityEvent(Create, "i", d)]
    requires !b.isSynthetic && b.index == 5 && b.previousIndex == 3 && b.changes == []
    ensures var m := EmptyModel("");
            && ReceiveAll(Receiver(m, 0), [b, a]) == Receiver(m, 5)
            && ReceiveAll(Receiver(m, 0), [a, b]) == Receiver(UpsertIdentity(m, 3, "i", d), 5)
  {
    var m := EmptyModel("");
    var n := UpsertIdentity(m, 3, "i", d);
    assert a.changes[..0] == [];
    assert HandleAll(m, 3, a.changes) == Handle(HandleAll(m, 3, []), 3, a.changes[0]) == n;
    FirstReceived(Receiver(m, 0), [b, a]);
    assert Receive(Receiver(m, 0), b) == Receiver(m, 5);
    OneReceived(Receiver(m, 5), a);
    FirstReceived(Receiver(m, 0), [a, b]);
    assert Receive(Receiver(m, 0), a) == Receiver(n, 3);
    OneReceived(Receiver(n, 3), b);
  }

  /* ---- content ---- */

  function Changes(es: seq<ChangeSet>): seq<Event> {
    if es == [] then [] else Changes(es[..|es| - 1]) + es[|es| - 1].changes
  }

  // A receiver that knows its own router collects configs for itself; apart
  // from those it holds content v. One that does not holds exactly v.
  ghost predicate HoldsContent(m: Model, v: View) {
    && Inv(m)
    && SharedPart(ViewOf(m)) == SharedPart(v)
    && (m.selfId == "" ==> ViewOf(m) == v)
  }

  lemma SharedStep(v: View, w: View, e: Event)
    requires SharedPart(v) == SharedPart(w)
    ensures SharedPart(Step(v, e)) == SharedPart(Step(w, e))
    ensures WellFormed(v, e) == WellFormed(w, e)
    ensures Detaches(v, e) == Detaches(w, e)
  {
    assert w == v.(configs := w.configs);
    StepIgnoresConfigs(v, w.configs, e);
  }

  lemma HandleHoldsContent(m: Model, index: nat, e: Event, v: View)
    requires HoldsContent(m, v) && WellFormed(v, e) && Detaches(v, e)
    ensures HoldsContent(Handle(m, index, e), Step(v, e))
  {
    SharedStep(ViewOf(m), v, e);
    HandleKeepsInv(m, index, e);
    HandleRefines(m, index, e);
    HandleKeepsSelf(m, index, e);
  }

  lemma {:induction false} HandleAllHoldsContent(m: Model, index: nat, es: seq<Event>, v: View)
    requires HoldsContent(m, v) && WellFormedRun(v, es) && DetachingRun(v, es)
    ensures HoldsContent(HandleAll(m, index, es), Run(v, es))
  {
    if es != [] {
      HandleAllHoldsContent(m, index, es[..|es| - 1], v);
      HandleHoldsContent(HandleAll(m, index, es[..|es| - 1]), index, es[|es| - 1], Run(v, es[..|es| - 1]));
    }
  }

  lemma {:induction false} ReplayedHoldsContent(m: Model, es: seq<ChangeSet>, v: View)
    requires HoldsContent(m, v) && WellFormedRun(v, Changes(es)) && DetachingRun(v, Changes(es))
    ensures HoldsContent(Replayed(m, es), Run(v, Changes(es)))
  {
    if es != [] {
      var init, last := es[..|es| - 1], es[|es| - 1];
      RunConcat(v, Changes(init), last.changes);
      ReplayedHoldsContent(m, init, v);
      HandleAllHoldsContent(Replayed(m, init), last.index, last.changes, Run(v, Changes(init)));
    }
  }

  lemma {:induction false} ChangesConcat(a: seq<ChangeSet>, b: seq<ChangeSet>)
    ensures Changes(a + b) == Changes(a) + Changes(b)
    decreases |b|
  {
    if b == [] {
      assert a + b == a;
    } else {
      var init, last := b[..|b| - 1], b[|b| - 1];
      ChangesConcat(a, init);
      assert (a + b)[..|a + b| - 1] == a + init;
      assert Changes(a + b) == Changes(a + init) + last.changes;
    }
  }

  lemma ChangesSplit(es: seq<ChangeSet>, k: nat, j: nat)
    requires k <= j <= |es|
    ensures Changes(es[..j]) == Changes(es[..k]) + Changes(es[k..j])
  {
    assert es[..j] == es[..k] + es[k..j];
    ChangesConcat(es[..k], es[k..j]);
  }

  // The sender's model once it has stored the first j change sets. It starts
  // from whatever it held when the log was given its base index.
  function SenderAt(s0: SenderSpec.Sender, c: Log, j: nat): SenderSpec.Sender
    requires j <= |c.stored|
  {
    SenderSpec.HandleAll(s0, Changes(c.stored[..j]))
  }

  ghost predicate SoundHistory(s0: SenderSpec.Sender, c: Log) {
    && SenderSpec.Inv(s0) && Chained(c)
    && WellFormedRun(SenderSpec.ViewOf(s0), Changes(c.stored)) && DetachingRun(SenderSpec.ViewOf(s0), Changes(c.stored))
  }

  lemma SenderHoldsContent(s0: SenderSpec.Sender, c: Log, j: nat)
    requires SoundHistory(s0, c) && j <= |c.stored|
    ensures var v := SenderSpec.ViewOf(s0);
            && SenderSpec.ViewOf(SenderAt(s0, c, j)) == Run(v, Changes(c.stored[..j])) && SenderSpec.Inv(SenderAt(s0, c, j))
            && WellFormedRun(v, Changes(c.stored[..j])) && DetachingRun(v, Changes(c.stored[..j]))
  {
    var v := SenderSpec.ViewOf(s0);
    ChangesSplit(c.stored, j, |c.stored|);
    assert c.stored[..|c.stored|] == c.stored;
    RunConcat(v, Changes(c.stored[..j]), Changes(c.stored[j..|c.stored|]));
    SenderSpec.RunRefines(s0, Changes(c.stored[..j]));
  }

  lemma HistoryFrom(s0: SenderSpec.Sender, c: Log, k: nat, j: nat)
    requires SoundHistory(s0, c) && k <= j <= |c.stored|
    ensures var v, changes := SenderSpec.ViewOf(SenderAt(s0, c, k)), Changes(c.stored[k..j]);
            && WellFormedRun(v, changes) && DetachingRun(v, changes)
            && SenderSpec.ViewOf(SenderAt(s0, c, j)) == Run(v, changes)
  {
    SenderHoldsContent(s0, c, k);
    SenderHoldsContent(s0, c, j);
    ChangesSplit(c.stored, k, j);
    RunConcat(SenderSpec.ViewOf(s0), Changes(c.stored[..k]), Changes(c.stored[k..j]));
  }

  // A receiver loaded from the sender's snapshot at a positive index, offered
  // any selection of the sender's change sets, holds the sender's content at
  // the receiver's own index.
  lemma ReplicaAgrees(s0: SenderSpec.Sender, c: Log, selfId: Id, k: nat, es: seq<Event>, offered: seq<ChangeSet>)
    requires SoundHistory(s0, c) && k <= |c.stored| && IndexAt(c, k) > 0
    requires Describes(es, SenderSpec.ViewOf(SenderAt(s0, c, k)), SenderAt(s0, c, k).services) && Announces(es)
    requires forall i :: 0 <= i < |offered| ==> offered[i] in c.stored
    ensures var r := ReceiveAll(Receiver(Load(selfId, IndexAt(c, k), es), IndexAt(c, k)), offered);
            var j := Reached(c, k, offered);
            r.index == IndexAt(c, j) && HoldsContent(r.model, SenderSpec.ViewOf(SenderAt(s0, c, j)))
  {
    var r := Receiver(Load(selfId, IndexAt(c, k), es), IndexAt(c, k));
    var j := Reached(c, k, offered);
    ReplicationSafe(c, r, k, offered);
    var v := SenderSpec.ViewOf(SenderAt(s0, c, k));
    LoadGivesContent(selfId, IndexAt(c, k), es, v, SenderAt(s0, c, k).services);
    HistoryFrom(s0, c, k, j);
    ReplayedHoldsContent(r.model, c.stored[k..j], v);
  }
}
