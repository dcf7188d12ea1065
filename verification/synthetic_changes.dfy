// Synthetic change sets: no data store numbers them. A receiver takes each one
// whatever its index, and none of them disturbs the numbered history.
module SyntheticChanges {
  import opened DataState
  import opened RelationalView
  import opened ReceiverSpec
  import opened ReceiverStore
  import opened ReceiverInvariant
  import opened ReceiverSteps
  import opened FullSync
  import opened EventLog
  import opened Replication
  import ConfigFilter
  import SenderSpec

  // A receiver applies a synthetic change set to whatever it holds and stays at
  // its index. Its own router may also collect configs; those it keeps are
  // exactly the ones config and router events leave.
  lemma SyntheticApplied(r: Receiver, cs: ChangeSet)
    requires Inv(r.model) && cs.isSynthetic
    requires WellFormedRun(ViewOf(r.model), cs.changes) && DetachingRun(ViewOf(r.model), cs.changes)
    ensures var n, v := Receive(r, cs), Run(ViewOf(r.model), cs.changes);
            && n.index == r.index && Inv(n.model)
            && SharedPart(ViewOf(n.model)) == SharedPart(v)
            && (r.model.selfId == "" ==> ViewOf(n.model) == v)
            && ViewOf(n.model).configs == ConfigFilter.HeldRun(r.model.selfId, ConfigFilter.HeldOf(r.model), cs.changes).configs
  {
    HandleAllHoldsContent(r.model, cs.index, cs.changes, ViewOf(r.model));
    ConfigFilter.HandleAllHeld(r.model, cs.index, cs.changes);
  }

  /* ---- among numbered change sets ---- */

  function Numbered(offered: seq<ChangeSet>): seq<ChangeSet> {
    if offered == [] then [] else
      var init, last := offered[..|offered| - 1], offered[|offered| - 1];
      Numbered(init) + if last.isSynthetic then [] else [last]
  }

  function Synthetic(offered: seq<ChangeSet>): seq<ChangeSet> {
    if offered == [] then [] else
      var init, last := offered[..|offered| - 1], offered[|offered| - 1];
      Synthetic(init) + if last.isSynthetic then [last] else []
  }

  lemma NumberedMore(es: seq<ChangeSet>, cs: ChangeSet)
    ensures Numbered(es + [cs]) == if cs.isSynthetic then Numbered(es) else Numbered(es) + [cs]
    ensures Synthetic(es + [cs]) == if cs.isSynthetic then Synthetic(es) + [cs] else Synthetic(es)
  {
    assert (es + [cs])[..|es|] == es;
  }

  lemma TakenMore(index: nat, es: seq<ChangeSet>, cs: ChangeSet)
    ensures Taken(index, es + [cs]) == Taken(index, es) + IfAccepted(Standing(index, es), cs)
    ensures Standing(index, es + [cs]) == NextIndex(Standing(index, es), cs)
  {
    assert (es + [cs])[..|es|] == es;
  }

  // Every synthetic offer is taken, and which numbered ones are, and where the
  // receiver then stands, is as if the synthetic ones had not been offered.
  lemma {:induction false} SyntheticDisturbsNothing(index: nat, offered: seq<ChangeSet>)
    ensures Synthetic(Taken(index, offered)) == Synthetic(offered)
    ensures Numbered(Taken(index, offered)) == Taken(index, Numbered(offered))
    ensures Standing(index, offered) == Standing(index, Numbered(offered))
  {
    if offered != [] {
      var init, last := offered[..|offered| - 1], offered[|offered| - 1];
      SyntheticDisturbsNothing(index, init);
      NumberedMore(Taken(index, init), last);
      assert Taken(index, init) + [] == Taken(index, init) && Synthetic(init) + [] == Synthetic(init);
      assert Numbered(init) + [] == Numbered(init);
      TakenMore(index, Numbered(init), last);
      assert Taken(index, Numbered(init)) + [] == Taken(index, Numbered(init));
    }
  }

  lemma {:induction false} ReceivedIsTaken(r: Receiver, offered: seq<ChangeSet>)
    ensures ReceiveAll(r, offered).model == Replayed(r.model, Taken(r.index, offered))
  {
    if offered != [] {
      var init, last := offered[..|offered| - 1], offered[|offered| - 1];
      ReceivedIsTaken(r, init);
      ReceiveStands(r, init);
      ReplayedMore(r.model, Taken(r.index, init), Standing(r.index, init), last);
    }
  }

  lemma ReplayedMore(m: Model, taken: seq<ChangeSet>, index: nat, cs: ChangeSet)
    ensures Replayed(m, taken + IfAccepted(index, cs)) == Receive(Receiver(Replayed(m, taken), index), cs).model
  {
    if Judge(index, cs).Accepted? {
      assert (taken + [cs])[..|taken|] == taken;
    } else {
      assert taken + [] == taken;
    }
  }

  lemma {:induction false} NumberedAreStored(c: Log, offered: seq<ChangeSet>)
    requires forall i :: 0 <= i < |offered| ==> offered[i].isSynthetic || offered[i] in c.stored
    ensures forall i :: 0 <= i < |Numbered(offered)| ==> Numbered(offered)[i] in c.stored
  {
    if offered != [] {
      NumberedAreStored(c, offered[..|offered| - 1]);
    }
  }

  // Synthetic change sets in any number and at any place among the offers: the
  // receiver still follows the history without a gap, and what it holds is
  // everything it took, in order, folded onto what it had.
  lemma InterleavedFollows(c: Log, r: Receiver, k: nat, offered: seq<ChangeSet>)
    requires Chained(c) && k <= |c.stored| && r.index == IndexAt(c, k) > 0
    requires forall i :: 0 <= i < |offered| ==> offered[i].isSynthetic || offered[i] in c.stored
    ensures var n, j, taken := ReceiveAll(r, offered), Reached(c, k, Numbered(offered)), Taken(r.index, offered);
            && n == Receiver(Replayed(r.model, taken), IndexAt(c, j))
            && Numbered(taken) == c.stored[k..j] && Synthetic(taken) == Synthetic(offered)
  {
    NumberedAreStored(c, offered);
    SyntheticDisturbsNothing(r.index, offered);
    TakenIsHistory(c, k, Numbered(offered));
    StandsAtReached(c, k, Numbered(offered));
    ReceivedIsTaken(r, offered);
    ReceiveStands(r, offered);
  }

  lemma InterleavedContent(r: Receiver, offered: seq<ChangeSet>)
    requires Inv(r.model)
    requires WellFormedRun(ViewOf(r.model), Changes(Taken(r.index, offered)))
    requires DetachingRun(ViewOf(r.model), Changes(Taken(r.index, offered)))
    ensures HoldsContent(ReceiveAll(r, offered).model, Run(ViewOf(r.model), Changes(Taken(r.index, offered))))
  {
    ReceivedIsTaken(r, offered);
    ReplayedHoldsContent(r.model, Taken(r.index, offered), ViewOf(r.model));
  }

  /* ---- the signing keys a controller sends when a router connects ---- */

  predicate CreatesKeys(es: seq<Event>) {
    forall k :: 0 <= k < |es| ==> es[k].KeyEvent? && es[k].action.Create?
  }

  function KeysIn(es: seq<Event>): map<Id, KeyData>
    requires CreatesKeys(es)
  {
    if es == [] then map[] else KeysIn(es[..|es| - 1])[es[|es| - 1].id := es[|es| - 1].key]
  }

  lemma {:induction false} KeysRun(v: View, es: seq<Event>)
    requires CreatesKeys(es)
    ensures Run(v, es) == v.(keys := v.keys + KeysIn(es))
    ensures WellFormedRun(v, es) && DetachingRun(v, es)
  {
    if es == [] {
      assert v.keys + KeysIn(es) == v.keys;
    } else {
      KeysRun(v, es[..|es| - 1]);
      assert v.keys + KeysIn(es) == (v.keys + KeysIn(es[..|es| - 1]))[es[|es| - 1].id := es[|es| - 1].key];
    }
  }

  lemma {:induction false} KeysHandled(m: Model, index: nat, es: seq<Event>)
    requires CreatesKeys(es)
    ensures HandleAll(m, index, es) == m.(keys := m.keys + KeysIn(es))
  {
    if es == [] {
      assert m.keys + KeysIn(es) == m.keys;
    } else {
      KeysHandled(m, index, es[..|es| - 1]);
      assert m.keys + KeysIn(es) == (m.keys + KeysIn(es[..|es| - 1]))[es[|es| - 1].id := es[|es| - 1].key];
    }
  }

  // Whatever the receiver's state and index, it then has the keys sent and
  // nothing else has changed.
  lemma KeysArrive(r: Receiver, cs: ChangeSet)
    requires cs.isSynthetic && CreatesKeys(cs.changes)
    ensures Receive(r, cs) == r.(model := r.model.(keys := r.model.keys + KeysIn(cs.changes)))
  {
    KeysHandled(r.model, cs.index, cs.changes);
  }

  function WithoutKeys(v: View): View {
    v.(keys := map[])
  }

  lemma StepIgnoresKeys(v: View, w: View, e: Event)
    requires WithoutKeys(v) == WithoutKeys(w)
    ensures WithoutKeys(Step(v, e)) == WithoutKeys(Step(w, e))
    ensures WellFormed(v, e) == WellFormed(w, e) && Detaches(v, e) == Detaches(w, e)
  {
    assert w == v.(keys := w.keys);
    match e
    case ConfigTypeEvent(a, id, d) =>
    case ConfigEvent(a, id, d) =>
    case IdentityEvent(a, id, d) =>
    case ServiceEvent(a, id, d) =>
    case RouterEvent(a, id, d) =>
    case PolicyEvent(a, id, d) =>
    case CheckEvent(a, id, d) =>
    case KeyEvent(a, id, d) =>
    case RevocationEvent(a, id, d) =>
    case PolicyChangeEvent(c) =>
  }

  lemma {:induction false} RunIgnoresKeys(v: View, w: View, es: seq<Event>)
    requires WithoutKeys(v) == WithoutKeys(w)
    ensures WithoutKeys(Run(v, es)) == WithoutKeys(Run(w, es))
    ensures WellFormedRun(v, es) == WellFormedRun(w, es) && DetachingRun(v, es) == DetachingRun(w, es)
  {
    if es != [] {
      RunIgnoresKeys(v, w, es[..|es| - 1]);
      StepIgnoresKeys(Run(v, es[..|es| - 1]), Run(w, es[..|es| - 1]), es[|es| - 1]);
    }
  }

  predicate SyntheticKeysOnly(es: seq<ChangeSet>) {
    forall k :: 0 <= k < |es| && es[k].isSynthetic ==> CreatesKeys(es[k].changes)
  }

  lemma ChangesMore(es: seq<ChangeSet>, cs: ChangeSet)
    ensures Changes(es + [cs]) == Changes(es) + cs.changes
  {
    assert (es + [cs])[..|es|] == es;
  }

  lemma {:induction false} KeysRunBetween(v: View, es: seq<ChangeSet>)
    requires SyntheticKeysOnly(es)
    ensures WithoutKeys(Run(v, Changes(es))) == WithoutKeys(Run(v, Changes(Numbered(es))))
    ensures WellFormedRun(v, Changes(Numbered(es))) ==> WellFormedRun(v, Changes(es))
    ensures DetachingRun(v, Changes(Numbered(es))) ==> DetachingRun(v, Changes(es))
  {
    if es != [] {
      var init, last := es[..|es| - 1], es[|es| - 1];
      KeysRunBetween(v, init);
      RunConcat(v, Changes(init), last.changes);
      assert Numbered(init) + [] == Numbered(init);
      if last.isSynthetic {
        KeysRun(Run(v, Changes(init)), last.changes);
      } else {
        ChangesMore(Numbered(init), last);
        RunConcat(v, Changes(Numbered(init)), last.changes);
        RunIgnoresKeys(Run(v, Changes(init)), Run(v, Changes(Numbered(init))), last.changes);
      }
    }
  }

  lemma {:induction false} TakenKeysOnly(index: nat, offered: seq<ChangeSet>)
    requires SyntheticKeysOnly(offered)
    ensures SyntheticKeysOnly(Taken(index, offered))
  {
    if offered != [] {
      TakenKeysOnly(index, offered[..|offered| - 1]);
    }
  }

  // A receiver loaded from the sender's snapshot, offered any selection of the
  // sender's change sets with keys sent in between: keys aside it holds the
  // sender's content at the receiver's own index.
  lemma ReplicaAgreesBetweenKeys(s0: SenderSpec.Sender, c: Log, selfId: Id, k: nat, es: seq<Event>, offered: seq<ChangeSet>)
    requires SoundHistory(s0, c) && k <= |c.stored| && IndexAt(c, k) > 0
    requires Describes(es, SenderSpec.ViewOf(SenderAt(s0, c, k)), SenderAt(s0, c, k).services) && Announces(es)
    requires SyntheticKeysOnly(offered)
    requires forall i :: 0 <= i < |offered| ==> offered[i].isSynthetic || offered[i] in c.stored
    ensures var r := ReceiveAll(Receiver(Load(selfId, IndexAt(c, k), es), IndexAt(c, k)), offered);
            var j := Reached(c, k, Numbered(offered));
            && r.index == IndexAt(c, j) && Inv(r.model)
            && WithoutKeys(SharedPart(ViewOf(r.model))) == WithoutKeys(SharedPart(SenderSpec.ViewOf(SenderAt(s0, c, j))))
  {
    var r := Receiver(Load(selfId, IndexAt(c, k), es), IndexAt(c, k));
    var j, v, taken := Reached(c, k, Numbered(offered)), SenderSpec.ViewOf(SenderAt(s0, c, k)), Taken(r.index, offered);
    InterleavedFollows(c, r, k, offered);
    TakenKeysOnly(r.index, offered);
    HistoryFrom(s0, c, k, j);
    KeysRunBetween(v, taken);
    LoadGivesContent(selfId, IndexAt(c, k), es, v, SenderAt(s0, c, k).services);
    ReplayedHoldsContent(r.model, taken, v);
  }
}
