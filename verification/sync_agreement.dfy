// Full sync and incremental sync agree, for a receiver of any router: from the
// sender's whole data state and its deltas, and from what the sender filters
// for that router.
module SyncAgreement {
  import opened DataState
  import opened RelationalView
  import opened ReceiverSpec
  import opened ReceiverStore
  import opened ReceiverInvariant
  import opened ReceiverSteps
  import opened ReceiverRuns
  import opened FullSync
  import opened ConfigFilter
  import opened Replication
  import SenderSpec
  import opened EventLog

  /* ---- the configs a receiver loses to its own router ---- */

  function OwnList(selfId: Id, e: Event): set<Id> {
    if e.RouterEvent? && e.id == selfId && !e.action.Delete? then Elems(e.router.configs) else {}
  }

  // A receiver that handles an update of its own router drops the configs the
  // router no longer lists, and has one of them again once it is announced
  // again. A filtering sender resends the configs an own update lists.
  function LostStep(selfId: Id, resends: bool, h: Held, lost: set<Id>, e: Event): set<Id> {
    if e.ConfigEvent? then lost - {e.id}
    else if e.RouterEvent? then
      lost + Gone(selfId, h.routers, e.action, e.id, e.router) * h.configs.Keys - (if resends then OwnList(selfId, e) else {})
    else lost
  }

  // h and es are the sender's, lost is what the receiver lacked before.
  function LostRun(selfId: Id, resends: bool, h: Held, lost: set<Id>, es: seq<Event>): set<Id> {
    if es == [] then lost
    else
      var init := es[..|es| - 1];
      LostStep(selfId, resends, HeldRun("", h, init), LostRun(selfId, resends, h, lost, init), es[|es| - 1])
  }

  // Event k takes c off the router's own list while c is there.
  predicate Drops(selfId: Id, h: Held, es: seq<Event>, k: nat, c: Id)
    requires k < |es|
  {
    var before := HeldRun("", h, es[..k]);
    es[k].RouterEvent? && c in Gone(selfId, before.routers, es[k].action, es[k].id, es[k].router) && c in before.configs
  }

  predicate Restores(selfId: Id, resends: bool, e: Event, c: Id) {
    (e.ConfigEvent? && e.id == c) || (resends && c in OwnList(selfId, e))
  }

  ghost predicate Unrestored(selfId: Id, resends: bool, es: seq<Event>, k: nat, c: Id) {
    forall q :: k <= q < |es| ==> !Restores(selfId, resends, es[q], c)
  }

  // Lost are the configs that were dropped, then or before, and not restored since.
  lemma {:induction false} LostIff(selfId: Id, resends: bool, h: Held, lost: set<Id>, es: seq<Event>, c: Id)
    ensures c in LostRun(selfId, resends, h, lost, es) <==>
            || (c in lost && Unrestored(selfId, resends, es, 0, c))
            || exists k :: 0 <= k < |es| && Drops(selfId, h, es, k, c) && Unrestored(selfId, resends, es, k + 1, c)
  {
    if es != [] {
      var n, init := |es| - 1, es[..|es| - 1];
      LostIff(selfId, resends, h, lost, init, c);
      forall k | 0 <= k <= n
        ensures Unrestored(selfId, resends, es, k, c) <==> Unrestored(selfId, resends, init, k, c) && !Restores(selfId, resends, es[n], c)
        ensures k < n ==> (Drops(selfId, h, es, k, c) <==> Drops(selfId, h, init, k, c))
      {
        assert es[..k] == init[..k];
        assert forall q :: 0 <= q < n ==> es[q] == init[q];
      }
      assert Unrestored(selfId, resends, es, n + 1, c);
      assert c in LostRun(selfId, resends, h, lost, es) <==>
             Drops(selfId, h, es, n, c) || (c in LostRun(selfId, resends, h, lost, init) && !Restores(selfId, resends, es[n], c));
    }
  }

  lemma LostStepIsExact(selfId: Id, h: Held, r: Held, lost: set<Id>, e: Event)
    requires r == Held(h.configs - lost, h.routers) && lost <= h.configs.Keys
    ensures var next, gone := HeldStep("", h, e), LostStep(selfId, false, h, lost, e);
            HeldStep(selfId, r, e) == Held(next.configs - gone, next.routers) && gone <= next.configs.Keys
  {
    var next, gone, mine := HeldStep("", h, e), LostStep(selfId, false, h, lost, e), HeldStep(selfId, r, e);
    assert mine.configs.Keys == next.configs.Keys - gone;
    assert mine.configs == next.configs - gone;
  }

  lemma {:induction false} LostIsExact(selfId: Id, h: Held, es: seq<Event>)
    ensures var end, gone := HeldRun("", h, es), LostRun(selfId, false, h, {}, es);
            HeldRun(selfId, h, es) == Held(end.configs - gone, end.routers) && gone <= end.configs.Keys
  {
    if es == [] {
      assert h.configs - {} == h.configs;
    } else {
      var init := es[..|es| - 1];
      LostIsExact(selfId, h, init);
      LostStepIsExact(selfId, HeldRun("", h, init), HeldRun(selfId, h, init), LostRun(selfId, false, h, {}, init), es[|es| - 1]);
    }
  }

  /* ---- a run of deltas, with tracking toggled at will ---- */

  lemma PerformHeld(m: Model, op: Op)
    ensures Perform(m, op).selfId == m.selfId
    ensures HeldOf(Perform(m, op)) == if op.Apply? then HeldStep(m.selfId, HeldOf(m), op.event) else HeldOf(m)
  {
    match op
    case Apply(index, e) =>
      HandleHeld(m, index, e);
      HandleKeepsSelf(m, index, e);
    case Track(id) =>
    case Untrack(id) =>
  }

  lemma {:induction false} DeltasHeld(m: Model, ops: seq<Op>)
    ensures PerformAll(m, ops).selfId == m.selfId
    ensures HeldOf(PerformAll(m, ops)) == HeldRun(m.selfId, HeldOf(m), EventsOf(ops))
  {
    if ops != [] {
      var init, last := ops[..|ops| - 1], ops[|ops| - 1];
      DeltasHeld(m, init);
      PerformHeld(PerformAll(m, init), last);
      if last.Apply? {
        HeldConcat(m.selfId, HeldOf(m), EventsOf(init), [last.event]);
        HeldRunOne(m.selfId, HeldRun(m.selfId, HeldOf(m), EventsOf(init)), last.event);
      } else {
        assert EventsOf(ops) == EventsOf(init);
      }
    }
  }

  lemma PerformHoldsContent(m: Model, v: View, op: Op)
    requires HoldsContent(m, v) && (op.Apply? ==> WellFormed(v, op.event) && Detaches(v, op.event))
    ensures HoldsContent(Perform(m, op), if op.Apply? then Step(v, op.event) else v)
  {
    match op
    case Apply(index, e) => HandleHoldsContent(m, index, e, v);
    case Track(id) => TrackingKeepsInv(m, id);
    case Untrack(id) => TrackingKeepsInv(m, id);
  }

  lemma {:induction false} DeltasHoldContent(m: Model, v: View, ops: seq<Op>)
    requires HoldsContent(m, v) && WellFormedRun(v, EventsOf(ops)) && DetachingRun(v, EventsOf(ops))
    ensures HoldsContent(PerformAll(m, ops), Run(v, EventsOf(ops)))
  {
    if ops != [] {
      var init, last := ops[..|ops| - 1], ops[|ops| - 1];
      if last.Apply? {
        RunSplitsLast(v, EventsOf(init), last.event);
      } else {
        assert EventsOf(ops) == EventsOf(init);
      }
      DeltasHoldContent(m, v, init);
      PerformHoldsContent(PerformAll(m, init), Run(v, EventsOf(init)), last);
    }
  }

  lemma DeltasKeepConfigs(selfId: Id, s: SenderSpec.Sender, es0: seq<Event>, index0: nat, ops: seq<Op>)
    requires Describes(es0, SenderSpec.ViewOf(s), s.services) && Announces(es0)
    ensures var t := SenderSpec.HandleAll(s, EventsOf(ops));
            var lost := LostRun(selfId, false, HeldOfSender(s), {}, EventsOf(ops));
            ConfigDatas(PerformAll(Load(selfId, index0, es0), ops).configs) == t.configs - lost && lost <= t.configs.Keys
  {
    var m := Load(selfId, index0, es0);
    LoadGivesContent(selfId, index0, es0, SenderSpec.ViewOf(s), s.services);
    HandleAllHeld(EmptyModel(selfId), index0, es0);
    assert HeldOf(m) == HeldOfSender(s);
    DeltasHeld(m, ops);
    SenderHeld(s, EventsOf(ops));
    LostIsExact(selfId, HeldOfSender(s), EventsOf(ops));
  }

  // Full sync agrees with incremental sync. One receiver loads the sender's
  // data state and applies every delta since; the other loads the data state
  // the sender has by then. Entities, memberships and counts are the same. So
  // are the configs, save those the first one lost to its own router.
  lemma FullSyncAgrees(selfId: Id, s: SenderSpec.Sender, es0: seq<Event>, index0: nat, ops: seq<Op>, es: seq<Event>, index: nat)
    requires SenderSpec.Inv(s) && Describes(es0, SenderSpec.ViewOf(s), s.services) && Announces(es0)
    requires WellFormedRun(SenderSpec.ViewOf(s), EventsOf(ops)) && DetachingRun(SenderSpec.ViewOf(s), EventsOf(ops))
    requires var t := SenderSpec.HandleAll(s, EventsOf(ops));
             Describes(es, SenderSpec.ViewOf(t), t.services) && Announces(es)
    ensures var t := SenderSpec.HandleAll(s, EventsOf(ops));
            var a, b := PerformAll(Load(selfId, index0, es0), ops), Load(selfId, index, es);
            var lost := LostRun(selfId, false, HeldOfSender(s), {}, EventsOf(ops));
            && SharedPart(ViewOf(a)) == SharedPart(ViewOf(b)) == SharedPart(SenderSpec.ViewOf(t)) && SameMembers(a, b)
            && ConfigDatas(b.configs) == t.configs && ConfigDatas(a.configs) == t.configs - lost && lost <= t.configs.Keys
  {
    var v := SenderSpec.ViewOf(s);
    var t := SenderSpec.HandleAll(s, EventsOf(ops));
    var m := Load(selfId, index0, es0);
    LoadGivesContent(selfId, index0, es0, v, s.services);
    LoadGivesContent(selfId, index, es, SenderSpec.ViewOf(t), t.services);
    SenderSpec.RunRefines(s, EventsOf(ops));
    DeltasHoldContent(m, v, ops);
    ContentDeterminesCounts(PerformAll(m, ops), Load(selfId, index, es));
    DeltasKeepConfigs(selfId, s, es0, index0, ops);
  }

  // Some event dropped c and nothing restored it since.
  ghost predicate Unrepaired(selfId: Id, h: Held, es: seq<Event>, c: Id) {
    exists k :: 0 <= k < |es| && Drops(selfId, h, es, k, c) && Unrestored(selfId, false, es, k + 1, c)
  }

  lemma NothingLostIff(selfId: Id, h: Held, es: seq<Event>)
    ensures LostRun(selfId, false, h, {}, es) == {} <==> forall c :: !Unrepaired(selfId, h, es, c)
    ensures selfId == "" ==> LostRun(selfId, false, h, {}, es) == {}
  {
    var lost := LostRun(selfId, false, h, {}, es);
    forall c
      ensures c in lost <==> Unrepaired(selfId, h, es, c)
    {
      LostIff(selfId, false, h, {}, es, c);
    }
    if lost != {} {
      var c :| c in lost;
      assert Unrepaired(selfId, h, es, c);
    }
  }

  lemma SameViewIff(a: Model, b: Model)
    requires SharedPart(ViewOf(a)) == SharedPart(ViewOf(b))
    ensures ViewOf(a) == ViewOf(b) <==> ConfigDatas(a.configs) == ConfigDatas(b.configs)
  {
  }

  // Nothing is lost, so the two agree outright, exactly when every config an
  // own update dropped was announced again. It is so for a receiver that has
  // no router of its own.
  lemma FullSyncAgreesIff(selfId: Id, s: SenderSpec.Sender, es0: seq<Event>, index0: nat, ops: seq<Op>, es: seq<Event>, index: nat)
    requires SenderSpec.Inv(s) && Describes(es0, SenderSpec.ViewOf(s), s.services) && Announces(es0)
    requires WellFormedRun(SenderSpec.ViewOf(s), EventsOf(ops)) && DetachingRun(SenderSpec.ViewOf(s), EventsOf(ops))
    requires var t := SenderSpec.HandleAll(s, EventsOf(ops));
             Describes(es, SenderSpec.ViewOf(t), t.services) && Announces(es)
    ensures Agree(PerformAll(Load(selfId, index0, es0), ops), Load(selfId, index, es)) <==>
            forall c :: !Unrepaired(selfId, HeldOfSender(s), EventsOf(ops), c)
    ensures selfId == "" ==> Agree(PerformAll(Load(selfId, index0, es0), ops), Load(selfId, index, es))
  {
    FullSyncAgrees(selfId, s, es0, index0, ops, es, index);
    SameViewIff(PerformAll(Load(selfId, index0, es0), ops), Load(selfId, index, es));
    NothingMissing(SenderSpec.HandleAll(s, EventsOf(ops)).configs, LostRun(selfId, false, HeldOfSender(s), {}, EventsOf(ops)));
    NothingLostIff(selfId, HeldOfSender(s), EventsOf(ops));
  }

  lemma NothingMissing(configs: map<Id, ConfigData>, lost: set<Id>)
    requires lost <= configs.Keys
    ensures configs - lost == configs <==> lost == {}
  {
    assert (configs - lost).Keys == configs.Keys - lost;
    if lost != {} {
      var c :| c in lost;
      assert c in configs && c !in configs - lost;
    } else {
      assert configs - lost == configs;
    }
  }

  // A replica that follows the log lacks the same configs: those its own
  // router dropped over the change sets it took.
  lemma ReplicaLoses(s0: SenderSpec.Sender, c: Log, selfId: Id, k: nat, es: seq<Event>, offered: seq<ChangeSet>)
    requires SoundHistory(s0, c) && k <= |c.stored| && IndexAt(c, k) > 0
    requires Describes(es, SenderSpec.ViewOf(SenderAt(s0, c, k)), SenderAt(s0, c, k).services) && Announces(es)
    requires forall i :: 0 <= i < |offered| ==> offered[i] in c.stored
    ensures var r := ReceiveAll(Receiver(Load(selfId, IndexAt(c, k), es), IndexAt(c, k)), offered);
            var j := Reached(c, k, offered);
            var lost := LostRun(selfId, false, HeldOfSender(SenderAt(s0, c, k)), {}, Changes(c.stored[k..j]));
            ConfigDatas(r.model.configs) == SenderAt(s0, c, j).configs - lost && lost <= SenderAt(s0, c, j).configs.Keys
  {
    var r := Receiver(Load(selfId, IndexAt(c, k), es), IndexAt(c, k));
    var j := Reached(c, k, offered);
    var h := HeldOfSender(SenderAt(s0, c, k));
    ReplicationSafe(c, r, k, offered);
    LoadGivesContent(selfId, IndexAt(c, k), es, SenderSpec.ViewOf(SenderAt(s0, c, k)), SenderAt(s0, c, k).services);
    HandleAllHeld(EmptyModel(selfId), IndexAt(c, k), es);
    assert HeldOf(r.model) == h;
    ReplayedHeld(r.model, c.stored[k..j]);
    ChangesSplit(c.stored, k, j);
    SenderHeld(s0, Changes(c.stored[..k]));
    SenderHeld(s0, Changes(c.stored[..j]));
    HeldConcat("", HeldOfSender(s0), Changes(c.stored[..k]), Changes(c.stored[k..j]));
    LostIsExact(selfId, h, Changes(c.stored[k..j]));
  }

  lemma {:induction false} ReplayedHeld(m: Model, css: seq<ChangeSet>)
    ensures HeldOf(Replayed(m, css)) == HeldRun(m.selfId, HeldOf(m), Changes(css))
    ensures Replayed(m, css).selfId == m.selfId
  {
    if css != [] {
      var init, last := css[..|css| - 1], css[|css| - 1];
      ReplayedHeld(m, init);
      HandleAllHeld(Replayed(m, init), last.index, last.changes);
      HeldConcat(m.selfId, HeldOf(m), Changes(init), last.changes);
    }
  }

  /* ---- a router fed by the filter ---- */

  lemma {:induction false} HandleConcat(m: Model, index: nat, a: seq<Event>, b: seq<Event>)
    ensures HandleAll(m, index, a + b) == HandleAll(HandleAll(m, index, a), index, b)
  {
    if b == [] {
      assert a + b == a;
    } else {
      assert (a + b)[..|a + b| - 1] == a + b[..|b| - 1];
      HandleConcat(m, index, a, b[..|b| - 1]);
    }
  }

  lemma HandleOne(m: Model, index: nat, e: Event)
    ensures HandleAll(m, index, [e]) == Handle(m, index, e)
  {
    assert [e][..0] == [];
  }

  // Apart from configs, m holds content v.
  ghost predicate HoldsShared(m: Model, v: View) {
    Inv(m) && SharedPart(ViewOf(m)) == SharedPart(v)
  }

  lemma HandleHoldsShared(m: Model, index: nat, e: Event, v: View)
    requires HoldsShared(m, v) && WellFormed(v, e) && Detaches(v, e)
    ensures HoldsShared(Handle(m, index, e), Step(v, e))
  {
    SharedStep(ViewOf(m), v, e);
    HandleHoldsContent(m, index, e, ViewOf(m));
  }

  lemma ConfigIsNotShared(v: View, e: Event)
    requires e.ConfigEvent?
    ensures SharedPart(Step(v, e)) == SharedPart(v)
  {
  }

  lemma {:induction false} SynthesizedHoldsShared(m: Model, index: nat, configs: map<Id, ConfigData>, ids: seq<Id>, v: View)
    requires HoldsShared(m, v)
    ensures HoldsShared(HandleAll(m, index, Synthesize(configs, ids)), v)
  {
    if ids != [] {
      var init, id := ids[..|ids| - 1], ids[|ids| - 1];
      SynthesizedHoldsShared(m, index, configs, init, v);
      var n := HandleAll(m, index, Synthesize(configs, init));
      if id in configs {
        var e := ConfigEvent(Create, id, configs[id]);
        HandleConcat(m, index, Synthesize(configs, init), [e]);
        HandleOne(n, index, e);
        HandleHoldsShared(n, index, e, v);
        ConfigIsNotShared(v, e);
      } else {
        assert Synthesize(configs, ids) == Synthesize(configs, init);
      }
    }
  }

  lemma FilteredEventHoldsShared(sc: Scope, m: Model, index: nat, e: Event, v: View)
    requires HoldsShared(m, v) && WellFormed(v, e) && Detaches(v, e)
    ensures HoldsShared(HandleAll(m, index, FilterEvent(sc, true, e)), Step(v, e))
  {
    if Withheld(sc, e) {
      ConfigIsNotShared(v, e);
    } else if OwnUpdate(sc, e) {
      var resent := Synthesize(sc.configs, e.router.configs);
      SynthesizedHoldsShared(m, index, sc.configs, e.router.configs, v);
      HandleConcat(m, index, resent, [e]);
      HandleOne(HandleAll(m, index, resent), index, e);
      HandleHoldsShared(HandleAll(m, index, resent), index, e, v);
    } else {
      HandleOne(m, index, e);
      HandleHoldsShared(m, index, e, v);
    }
  }

  lemma {:induction false} FilteredHoldsShared(sc: Scope, m: Model, index: nat, es: seq<Event>, v: View)
    requires HoldsShared(m, v) && WellFormedRun(v, es) && DetachingRun(v, es)
    ensures HoldsShared(HandleAll(m, index, FilterAll(sc, true, es)), Run(v, es))
  {
    if es != [] {
      var init, e := es[..|es| - 1], es[|es| - 1];
      FilteredHoldsShared(sc, m, index, init, v);
      HandleConcat(m, index, FilterAll(sc, true, init), FilterEvent(sc, true, e));
      FilteredEventHoldsShared(sc, HandleAll(m, index, FilterAll(sc, true, init)), index, e, Run(v, init));
    }
  }

  lemma {:induction false} LockstepHoldsShared(selfId: Id, s: SenderSpec.Sender, m: Model, css: seq<ChangeSet>)
    requires SenderSpec.Inv(s) && HoldsShared(m, SenderSpec.ViewOf(s))
    requires WellFormedRun(SenderSpec.ViewOf(s), Changes(css)) && DetachingRun(SenderSpec.ViewOf(s), Changes(css))
    ensures SenderSpec.Inv(SenderAfter(s, css)) && SenderSpec.ViewOf(SenderAfter(s, css)) == Run(SenderSpec.ViewOf(s), Changes(css))
    ensures HoldsShared(RouterAfter(selfId, s, m, css), SenderSpec.ViewOf(SenderAfter(s, css)))
  {
    if css != [] {
      var v, init, last := SenderSpec.ViewOf(s), css[..|css| - 1], css[|css| - 1];
      RunConcat(v, Changes(init), last.changes);
      LockstepHoldsShared(selfId, s, m, init);
      SenderSpec.RunRefines(SenderAfter(s, init), last.changes);
      FilteredHoldsShared(ScopeOf(SenderAfter(s, css), selfId), RouterAfter(selfId, s, m, init), last.index, last.changes, Run(v, Changes(init)));
    }
  }

  /* ---- filtered change sets offered in any way ---- */

  // What the sender makes of a change set for one router, whatever it knew
  // when it filtered it.
  function Sift(sc: Scope, cs: ChangeSet): ChangeSet {
    cs.(changes := FilterAll(sc, true, cs.changes))
  }

  function Sifted(scopes: seq<Scope>, offered: seq<ChangeSet>): seq<ChangeSet>
    requires |scopes| == |offered|
  {
    if offered == [] then [] else
      var n := |offered| - 1;
      Sifted(scopes[..n], offered[..n]) + [Sift(scopes[n], offered[n])]
  }

  // The sender's content from one position of its history to the next.
  lemma ContentMovesOn(s0: SenderSpec.Sender, c: Log, j: nat)
    requires SoundHistory(s0, c) && j < |c.stored|
    ensures var v, es := SenderSpec.ViewOf(SenderAt(s0, c, j)), c.stored[j].changes;
            SenderSpec.ViewOf(SenderAt(s0, c, j + 1)) == Run(v, es) && WellFormedRun(v, es) && DetachingRun(v, es)
  {
    HistoryFrom(s0, c, j, j + 1);
    assert c.stored[j..j + 1] == [c.stored[j]];
    ChangesOfOne(c.stored[j]);
  }

  lemma ChangesOfOne(cs: ChangeSet)
    ensures Changes([cs]) == cs.changes
  {
    assert [cs][..0] == [];
  }

  lemma ReceiveOneMore(r: Receiver, offered: seq<ChangeSet>, cs: ChangeSet)
    ensures ReceiveAll(r, offered + [cs]) == Receive(ReceiveAll(r, offered), cs)
  {
    assert (offered + [cs])[..|offered|] == offered;
  }

  // The router stands at position j and holds the sender's content there.
  ghost predicate StandsAt(s0: SenderSpec.Sender, c: Log, r: Receiver, j: nat) {
    && SoundHistory(s0, c) && j <= |c.stored|
    && r.index == IndexAt(c, j) && HoldsShared(r.model, SenderSpec.ViewOf(SenderAt(s0, c, j)))
  }

  function NextPosition(c: Log, j: nat, cs: ChangeSet): nat {
    if j < |c.stored| && cs == c.stored[j] then j + 1 else j
  }

  // Filtering leaves what the order and gap check reads.
  lemma SiftedVerdict(c: Log, k: nat, j: nat, sc: Scope, cs: ChangeSet)
    requires Chained(c) && k <= j <= |c.stored| && IndexAt(c, k) > 0 && cs in c.stored
    ensures Judge(IndexAt(c, j), Sift(sc, cs)).Accepted? <==> j < |c.stored| && cs == c.stored[j]
    ensures NextIndex(IndexAt(c, j), Sift(sc, cs)) == IndexAt(c, NextPosition(c, j, cs))
  {
    NoEarlier(c, k, j);
    var i :| 0 <= i < |c.stored| && c.stored[i] == cs;
    OnlyNextAccepted(c, j, i);
    assert Follows(c, i) && Judge(IndexAt(c, j), Sift(sc, cs)) == Judge(IndexAt(c, j), cs);
    if j < |c.stored| && cs == c.stored[j] {
      OnlyNextAccepted(c, j, j);
    }
  }

  lemma SiftedOffer(s0: SenderSpec.Sender, c: Log, r: Receiver, k: nat, j: nat, sc: Scope, cs: ChangeSet)
    requires StandsAt(s0, c, r, j) && k <= j && IndexAt(c, k) > 0 && cs in c.stored
    ensures StandsAt(s0, c, Receive(r, Sift(sc, cs)), NextPosition(c, j, cs))
  {
    SiftedVerdict(c, k, j, sc, cs);
    if j < |c.stored| && cs == c.stored[j] {
      ContentMovesOn(s0, c, j);
      FilteredHoldsShared(sc, r.model, cs.index, cs.changes, SenderSpec.ViewOf(SenderAt(s0, c, j)));
    }
  }

  lemma SiftedStep(s0: SenderSpec.Sender, c: Log, r: Receiver, k: nat, offered: seq<ChangeSet>, scopes: seq<Scope>)
    requires |scopes| == |offered| > 0 && k <= |c.stored| && IndexAt(c, k) > 0 && offered[|offered| - 1] in c.stored
    requires var n := |offered| - 1; StandsAt(s0, c, ReceiveAll(r, Sifted(scopes[..n], offered[..n])), Reached(c, k, offered[..n]))
    ensures StandsAt(s0, c, ReceiveAll(r, Sifted(scopes, offered)), Reached(c, k, offered))
  {
    var n := |offered| - 1;
    var j := Reached(c, k, offered[..n]);
    SiftedOffer(s0, c, ReceiveAll(r, Sifted(scopes[..n], offered[..n])), k, j, scopes[n], offered[n]);
    ReceiveOneMore(r, Sifted(scopes[..n], offered[..n]), Sift(scopes[n], offered[n]));
    assert Reached(c, k, offered) == NextPosition(c, j, offered[n]);
  }

  // Dropped, duplicated or reordered, and each filtered for the router with
  // whatever the sender knew at the time: the router holds the sender's
  // content, configs aside, as of its own index.
  lemma {:induction false} FilteredReplicaAgrees(s0: SenderSpec.Sender, c: Log, r: Receiver, k: nat, offered: seq<ChangeSet>, scopes: seq<Scope>)
    requires StandsAt(s0, c, r, k) && r.index > 0
    requires |scopes| == |offered| && forall i :: 0 <= i < |offered| ==> offered[i] in c.stored
    ensures StandsAt(s0, c, ReceiveAll(r, Sifted(scopes, offered)), Reached(c, k, offered))
  {
    if offered != [] {
      FilteredReplicaAgrees(s0, c, r, k, offered[..|offered| - 1], scopes[..|offered| - 1]);
      SiftedStep(s0, c, r, k, offered, scopes);
    }
  }

  /* ---- configs of other types ---- */

  // The router has c exactly when the sender does and the router did not lose it.
  predicate SameUnlessLost(a: map<Id, ConfigData>, b: map<Id, ConfigData>, lost: set<Id>, c: Id) {
    (c in a <==> c in b && c !in lost) && (c in a ==> a[c] == b[c])
  }

  // The config is there, under a type that does not target routers.
  predicate IsOther(types: set<Id>, configs: map<Id, ConfigData>, c: Id) {
    c in configs && configs[c].typeId !in types
  }

  lemma OtherEvent(sc: Scope, changes: seq<Event>, p: nat, h: Held, r: Held, lost: set<Id>, c: Id)
    requires p < |changes| && sc.routerId != "" && r.routers == h.routers && IsOther(sc.types, sc.configs, c)
    requires Settled(changes, p, c) ==> SameUnlessLost(r.configs, sc.configs, lost, c) && (c in h.configs <==> c in sc.configs)
    requires LastWord(sc, changes, p, c) && Settled(changes, p + 1, c)
    ensures SameUnlessLost(HeldRun(sc.routerId, r, FilterEvent(sc, true, changes[p])).configs, sc.configs,
                           LostStep(sc.routerId, true, h, lost, changes[p]), c)
  {
    var e := changes[p];
    if e.ConfigEvent? && e.id == c {
      HeldRunOne(sc.routerId, r, e);
    } else {
      assert Settled(changes, p, c);
      if OwnUpdate(sc, e) {
        OwnUpdateHeld(sc, r, e);
      } else if !Withheld(sc, e) {
        HeldRunOne(sc.routerId, r, e);
      }
    }
  }

  lemma {:induction false} OtherConfig(sc: Scope, s: Held, r: Held, lost: set<Id>, changes: seq<Event>, p: nat, c: Id)
    requires p <= |changes| && sc.routerId != "" && Outcome(sc, s, changes) && r.routers == s.routers
    requires IsOther(sc.types, sc.configs, c) && Settled(changes, p, c)
    requires Settled(changes, 0, c) ==> SameUnlessLost(r.configs, s.configs, lost, c)
    ensures SameUnlessLost(HeldRun(sc.routerId, r, FilterAll(sc, true, changes[..p])).configs, sc.configs,
                           LostRun(sc.routerId, true, s, lost, changes[..p]), c)
  {
    SettledKeeps(s, changes, p, c);
    if p > 0 {
      var init := changes[..p - 1];
      assert changes[..p][..p - 1] == init;
      if Settled(changes, p - 1, c) {
        OtherConfig(sc, s, r, lost, changes, p - 1, c);
        SettledKeeps(s, changes, p - 1, c);
      }
      HeldConcat(sc.routerId, r, FilterAll(sc, true, init), FilterEvent(sc, true, changes[p - 1]));
      HasLastWord(sc, s, changes, p - 1, c);
      FilteredRouters(sc, s, r, init);
      OtherEvent(sc, changes, p - 1, HeldRun("", s, init), HeldRun(sc.routerId, r, FilterAll(sc, true, init)),
                 LostRun(sc.routerId, true, s, lost, init), c);
    }
  }

  function LostAfter(selfId: Id, s: SenderSpec.Sender, css: seq<ChangeSet>): set<Id> {
    if css == [] then {} else
      var init := css[..|css| - 1];
      LostRun(selfId, true, HeldOfSender(SenderAfter(s, init)), LostAfter(selfId, s, init), css[|css| - 1].changes)
  }

  // Whatever type c had before: the last event about it reached the router.
  lemma {:induction false} OtherConfigAfter(selfId: Id, s: SenderSpec.Sender, m: Model, css: seq<ChangeSet>, c: Id)
    requires selfId != "" && InStep(selfId, s, m) && Steady(selfId, s, css)
    requires IsOther(RouterTypes(s.configTypes), SenderAfter(s, css).configs, c)
    requires IsOther(RouterTypes(s.configTypes), s.configs, c) ==> SameUnlessLost(ConfigDatas(m.configs), s.configs, {}, c)
    ensures SameUnlessLost(ConfigDatas(RouterAfter(selfId, s, m, css).configs), SenderAfter(s, css).configs, LostAfter(selfId, s, css), c)
  {
    if css != [] {
      var init, last := css[..|css| - 1], css[|css| - 1];
      LockstepKeepsStep(selfId, s, m, init);
      var t, n := SenderAfter(s, init), RouterAfter(selfId, s, m, init);
      var sc := ScopeOf(SenderAfter(s, css), selfId);
      SenderHeld(t, last.changes);
      if Settled(last.changes, 0, c) {
        SettledKeeps(HeldOfSender(t), last.changes, 0, c);
        OtherConfigAfter(selfId, s, m, init, c);
      }
      HandleAllHeld(n, last.index, FilterAll(sc, true, last.changes));
      OtherConfig(sc, HeldOfSender(t), HeldOf(n), LostAfter(selfId, s, init), last.changes, |last.changes|, c);
      assert last.changes[..|last.changes|] == last.changes;
    }
  }

  /* ---- configs a fresh snapshot leaves out ---- */

  // What a router is sent over a run of change sets.
  function Sent(selfId: Id, s: SenderSpec.Sender, css: seq<ChangeSet>): seq<Event> {
    if css == [] then [] else
      Sent(selfId, s, css[..|css| - 1]) + FilterAll(ScopeOf(SenderAfter(s, css), selfId), true, css[|css| - 1].changes)
  }

  lemma {:induction false} RouterIsSent(selfId: Id, s: SenderSpec.Sender, m: Model, css: seq<ChangeSet>)
    requires m.selfId == selfId
    ensures RouterAfter(selfId, s, m, css).selfId == selfId
    ensures HeldOf(RouterAfter(selfId, s, m, css)) == HeldRun(selfId, HeldOf(m), Sent(selfId, s, css))
  {
    if css != [] {
      var init, last := css[..|css| - 1], css[|css| - 1];
      var es := FilterAll(ScopeOf(SenderAfter(s, css), selfId), true, last.changes);
      RouterIsSent(selfId, s, m, init);
      HandleAllHeld(RouterAfter(selfId, s, m, init), last.index, es);
      HeldConcat(selfId, HeldOf(m), Sent(selfId, s, init), es);
    }
  }

  predicate Brings(e: Event, c: Id) {
    e.ConfigEvent? && e.id == c && !e.action.Delete?
  }

  predicate Takes(selfId: Id, routers: map<Id, RouterData>, e: Event, c: Id) {
    (e.ConfigEvent? && e.id == c && e.action.Delete?) ||
    (e.RouterEvent? && c in Gone(selfId, routers, e.action, e.id, e.router))
  }

  ghost predicate NobodyTakes(selfId: Id, h: Held, es: seq<Event>, k: nat, c: Id) {
    forall q :: k <= q < |es| ==> !Takes(selfId, HeldRun(selfId, h, es[..q]).routers, es[q], c)
  }

  // It was there, or was brought, and nothing took it since.
  ghost predicate Remains(selfId: Id, h: Held, es: seq<Event>, c: Id) {
    || (c in h.configs && NobodyTakes(selfId, h, es, 0, c))
    || exists k :: 0 <= k < |es| && Brings(es[k], c) && NobodyTakes(selfId, h, es, k + 1, c)
  }

  lemma TakesOneMore(selfId: Id, h: Held, es: seq<Event>, k: nat, c: Id)
    requires es != [] && k < |es|
    ensures var n, init := |es| - 1, es[..|es| - 1];
            NobodyTakes(selfId, h, es, k, c) <==>
            NobodyTakes(selfId, h, init, k, c) && !Takes(selfId, HeldRun(selfId, h, init).routers, es[n], c)
  {
    var n, init := |es| - 1, es[..|es| - 1];
    assert forall q :: 0 <= q < n ==> es[..q] == init[..q] && es[q] == init[q];
  }

  lemma {:induction false} HeldIff(selfId: Id, h: Held, es: seq<Event>, c: Id)
    ensures c in HeldRun(selfId, h, es).configs <==> Remains(selfId, h, es, c)
  {
    if es == [] {
      assert NobodyTakes(selfId, h, es, 0, c);
    } else {
      var n, init, e := |es| - 1, es[..|es| - 1], es[|es| - 1];
      HeldIff(selfId, h, init, c);
      RemainsOneMore(selfId, h, es, c);
      var before := HeldRun(selfId, h, init);
      assert c in HeldStep(selfId, before, e).configs <==> Brings(e, c) || (c in before.configs && !Takes(selfId, before.routers, e, c));
    }
  }

  lemma RemainsOneMore(selfId: Id, h: Held, es: seq<Event>, c: Id)
    requires es != []
    ensures var init, e := es[..|es| - 1], es[|es| - 1];
            Remains(selfId, h, es, c) <==>
            Brings(e, c) || (Remains(selfId, h, init, c) && !Takes(selfId, HeldRun(selfId, h, init).routers, e, c))
  {
    var n, init := |es| - 1, es[..|es| - 1];
    forall k | 0 <= k <= n
      ensures NobodyTakes(selfId, h, es, k, c) <==>
              NobodyTakes(selfId, h, init, k, c) && !Takes(selfId, HeldRun(selfId, h, init).routers, es[n], c)
    {
      TakesOneMore(selfId, h, es, k, c);
    }
    assert NobodyTakes(selfId, h, es, n + 1, c);
    assert forall k :: 0 <= k < n ==> es[k] == init[k];
  }

  // A router loaded from its filtered snapshot and fed filtered change sets,
  // against one loaded from the filtered snapshot the sender builds at the
  // end: same entities, memberships and counts, and the same router-target
  // configs.
  lemma FilteredSyncAgrees(selfId: Id, s: SenderSpec.Sender, es0: seq<Event>, index0: nat, css: seq<ChangeSet>, es: seq<Event>, index: nat)
    requires selfId != "" && SenderSpec.Inv(s) && Steady(selfId, s, css)
    requires Describes(es0, SenderSpec.ViewOf(s), s.services) && Announces(es0)
    requires WellFormedRun(SenderSpec.ViewOf(s), Changes(css)) && DetachingRun(SenderSpec.ViewOf(s), Changes(css))
    requires Describes(es, SenderSpec.ViewOf(SenderAfter(s, css)), SenderAfter(s, css).services) && Announces(es)
    ensures var t := SenderAfter(s, css);
            var a := RouterAfter(selfId, s, Load(selfId, index0, FilterAll(ScopeOf(s, selfId), false, es0)), css);
            var b := Load(selfId, index, FilterAll(ScopeOf(t, selfId), false, es));
            && SharedPart(ViewOf(a)) == SharedPart(ViewOf(b)) == SharedPart(SenderSpec.ViewOf(t)) && SameMembers(a, b)
            && var types := RouterTypes(t.configTypes); OfTypes(ConfigDatas(a.configs), types) == OfTypes(ConfigDatas(b.configs), types)
  {
    var t := SenderAfter(s, css);
    var m := Load(selfId, index0, FilterAll(ScopeOf(s, selfId), false, es0));
    var a, b := RouterAfter(selfId, s, m, css), Load(selfId, index, FilterAll(ScopeOf(t, selfId), false, es));
    SnapshotInStep(selfId, s, index0, es0);
    SnapshotInStep(selfId, t, index, es);
    LockstepHoldsShared(selfId, s, m, css);
    LockstepKeepsStep(selfId, s, m, css);
    ContentDeterminesCounts(a, b);
    AlignedIsListed(RouterTypes(t.configTypes), selfId, HeldOfSender(t), HeldOf(a));
    AlignedIsListed(RouterTypes(t.configTypes), selfId, HeldOfSender(t), HeldOf(b));
  }

  // The config is in the snapshot the sender filters for the router.
  predicate Wanted(s: SenderSpec.Sender, selfId: Id, c: Id) {
    c in s.configs && (s.configs[c].typeId in RouterTypes(s.configTypes) ==> c in Listed(s.routers, selfId))
  }

  lemma LoadedIsWanted(selfId: Id, s: SenderSpec.Sender, index: nat, es: seq<Event>, c: Id)
    requires Describes(es, SenderSpec.ViewOf(s), s.services) && Announces(es)
    ensures var loaded := ConfigDatas(Load(selfId, index, FilterAll(ScopeOf(s, selfId), false, es)).configs);
            (c in loaded <==> Wanted(s, selfId, c)) && (c in loaded ==> loaded[c] == s.configs[c])
  {
    var sc, v := ScopeOf(s, selfId), SenderSpec.ViewOf(s);
    SnapshotFilters(sc, es);
    LoadGivesContent(selfId, index, FilterAll(sc, false, es), v.(configs := KeepConfigs(sc, s.configs)), s.services);
  }

  lemma WantedUnlessLost(selfId: Id, s: SenderSpec.Sender, es0: seq<Event>, index0: nat, css: seq<ChangeSet>, c: Id)
    requires selfId != "" && Steady(selfId, s, css)
    requires Describes(es0, SenderSpec.ViewOf(s), s.services) && Announces(es0) && Wanted(SenderAfter(s, css), selfId, c)
    ensures var t := SenderAfter(s, css);
            var a := RouterAfter(selfId, s, Load(selfId, index0, FilterAll(ScopeOf(s, selfId), false, es0)), css);
            var lost := if IsOther(RouterTypes(t.configTypes), t.configs, c) then LostAfter(selfId, s, css) else {};
            SameUnlessLost(ConfigDatas(a.configs), t.configs, lost, c)
  {
    var t, m := SenderAfter(s, css), Load(selfId, index0, FilterAll(ScopeOf(s, selfId), false, es0));
    SnapshotInStep(selfId, s, index0, es0);
    LockstepKeepsStep(selfId, s, m, css);
    if IsOther(RouterTypes(t.configTypes), t.configs, c) {
      LoadedIsWanted(selfId, s, index0, es0, c);
      OtherConfigAfter(selfId, s, m, css, c);
    } else {
      assert SameTarget(RouterTypes(t.configTypes), HeldOf(RouterAfter(selfId, s, m, css)).configs, t.configs, c);
    }
  }

  // Config by config: the two routers hold the same, and what the sender has,
  // exactly unless the first lost one of another type to its own router, or
  // still has one that is not in the snapshot any more.
  lemma FilteredAgreesIff(selfId: Id, s: SenderSpec.Sender, es0: seq<Event>, index0: nat, css: seq<ChangeSet>, es: seq<Event>, index: nat, c: Id)
    requires selfId != "" && Steady(selfId, s, css)
    requires Describes(es0, SenderSpec.ViewOf(s), s.services) && Announces(es0)
    requires Describes(es, SenderSpec.ViewOf(SenderAfter(s, css)), SenderAfter(s, css).services) && Announces(es)
    ensures var t := SenderAfter(s, css);
            var m := Load(selfId, index0, FilterAll(ScopeOf(s, selfId), false, es0));
            var a, b := RouterAfter(selfId, s, m, css), Load(selfId, index, FilterAll(ScopeOf(t, selfId), false, es));
            SameUnlessLost(ConfigDatas(a.configs), ConfigDatas(b.configs), {}, c) <==>
            if Wanted(t, selfId, c) then IsOther(RouterTypes(t.configTypes), t.configs, c) ==> c !in LostAfter(selfId, s, css)
            else !Remains(selfId, HeldOf(m), Sent(selfId, s, css), c)
  {
    var t, m := SenderAfter(s, css), Load(selfId, index0, FilterAll(ScopeOf(s, selfId), false, es0));
    LoadedIsWanted(selfId, t, index, es, c);
    if Wanted(t, selfId, c) {
      WantedUnlessLost(selfId, s, es0, index0, css, c);
    } else {
      SnapshotInStep(selfId, s, index0, es0);
      RouterIsSent(selfId, s, m, css);
      HeldIff(selfId, HeldOf(m), Sent(selfId, s, css), c);
    }
  }

  // A config whose type comes to target routers is withheld from a router that
  // does not list it, and the router keeps what it had.
  lemma RetypedExample(was: ConfigData, d: ConfigData, t: ConfigTypeData)
    requires was.typeId == "u" && d.typeId == "t" && t.target == ROUTER_TARGET
    ensures var s := SenderSpec.EMPTY_SENDER.(configTypes := map["t" := t], configs := map["c" := was]);
            var m := EmptyModel("r").(configs := map["c" := Config(was, {}, {}, 1)]);
            var e := ConfigEvent(Update, "c", d);
            var next := SenderSpec.Handle(s, e);
            && InStep("r", s, m) && Wanted(s, "r", "c")
            && HandleAll(m, 2, FilterAll(ScopeOf(next, "r"), true, [e])) == m && !Wanted(next, "r", "c")
  {
    var s := SenderSpec.EMPTY_SENDER.(configTypes := map["t" := t], configs := map["c" := was]);
    var e := ConfigEvent(Update, "c", d);
    var sc := ScopeOf(SenderSpec.Handle(s, e), "r");
    assert "t" in RouterTypes(map["t" := t]) && "u" !in RouterTypes(map["t" := t]);
    assert Withheld(sc, e);
    assert [e][..0] == [];
    assert FilterAll(sc, true, [e]) == FilterAll(sc, true, []) + [];
  }
}
