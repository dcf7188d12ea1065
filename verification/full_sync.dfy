// Snapshots. Loading one gives a receiver with the content it describes, so a
// full sync, an incremental sync and a save/restore all agree.
module FullSync {
  import opened DataState
  import opened RelationalView
  import opened ReceiverSpec
  import opened ReceiverCounts
  import opened ReceiverInvariant
  import opened ReceiverSteps
  import opened ReceiverRuns
  import opened DiffLists
  import SenderSpec

  // Configs, routers and services are announced at most once each.
  ghost predicate AnnouncedOnce(v: View, es: seq<Event>) {
    es != [] ==>
      var init, last := es[..|es| - 1], es[|es| - 1];
      && AnnouncedOnce(v, init)
      && (last.ConfigEvent? ==> last.id !in Run(v, init).configs)
      && (last.RouterEvent? ==> last.id !in Run(v, init).routers)
      && (last.ServiceEvent? ==> last.id !in Run(v, init).services)
  }

  // The service payloads a list of events announces, config order included.
  function ServiceTable(es: seq<Event>): map<Id, ServiceData> {
    if es == [] then map[] else
      var init, last := es[..|es| - 1], es[|es| - 1];
      if last.ServiceEvent? then
        if last.action.Delete? then ServiceTable(init) - {last.id} else ServiceTable(init)[last.id := last.service]
      else ServiceTable(init)
  }

  // A snapshot: a well-formed run of events that builds content v from nothing.
  ghost predicate Describes(es: seq<Event>, v: View, services: map<Id, ServiceData>) {
    && WellFormedRun(EMPTY_VIEW, es)
    && DetachingRun(EMPTY_VIEW, es)
    && AnnouncedOnce(EMPTY_VIEW, es)
    && Run(EMPTY_VIEW, es) == v
    && ServiceTable(es) == services
  }

  ghost function Load(selfId: Id, index: nat, es: seq<Event>): Model {
    HandleAll(EmptyModel(selfId), index, es)
  }

  lemma {:induction false} HandleAllRefines(m: Model, index: nat, es: seq<Event>)
    requires Inv(m) && WellFormedRun(ViewOf(m), es) && DetachingRun(ViewOf(m), es)
    requires m.selfId == "" || AnnouncedOnce(ViewOf(m), es)
    ensures Inv(HandleAll(m, index, es)) && HandleAll(m, index, es).selfId == m.selfId
    ensures ViewOf(HandleAll(m, index, es)) == Run(ViewOf(m), es)
  {
    if es != [] {
      var init, last := es[..|es| - 1], es[|es| - 1];
      HandleAllRefines(m, index, init);
      var n := HandleAll(m, index, init);
      assert last.RouterEvent? && m.selfId != "" ==> last.id !in ViewOf(n).routers;
      HandleKeepsInv(n, index, last);
      HandleRefines(n, index, last);
      HandleKeepsSelf(n, index, last);
    }
  }

  // Only the service events of a run touch service payloads.
  lemma PayloadStep(m: Model, index: nat, e: Event, id: Id)
    requires e.ServiceEvent? ==> !e.action.Delete? && e.id !in m.services
    ensures e.ServiceEvent? && e.id == id ==> id in Handle(m, index, e).services && Handle(m, index, e).services[id].data == e.service
    ensures !(e.ServiceEvent? && e.id == id) ==>
      && (id in Handle(m, index, e).services <==> id in m.services)
      && (id in m.services ==> Handle(m, index, e).services[id].data == m.services[id].data)
  {
    if e.RouterEvent? {
      assert HandleRouter(m, e.action, e.id, e.router).services == m.services;
    } else if e.ServiceEvent? {
      assert UpsertService(m, index, e.id, e.service).services == m.services[e.id := Service(e.service, {}, index)];
    } else {
      HandleFrame(m, index, e);
    }
  }

  // A snapshot announces entities and never deletes them.
  predicate Announces(es: seq<Event>) {
    forall k :: 0 <= k < |es| ==> es[k].PolicyChangeEvent? || !es[k].action.Delete?
  }

  lemma {:induction false} LoadKeepsPayloads(selfId: Id, index: nat, es: seq<Event>, id: Id)
    requires WellFormedRun(EMPTY_VIEW, es) && DetachingRun(EMPTY_VIEW, es) && AnnouncedOnce(EMPTY_VIEW, es) && Announces(es)
    ensures id in Load(selfId, index, es).services <==> id in ServiceTable(es)
    ensures id in ServiceTable(es) ==> Load(selfId, index, es).services[id].data == ServiceTable(es)[id]
  {
    if es != [] {
      var init, last := es[..|es| - 1], es[|es| - 1];
      LoadKeepsPayloads(selfId, index, init, id);
      EmptyIsInv(selfId);
      HandleAllRefines(EmptyModel(selfId), index, init);
      assert last.ServiceEvent? ==> last.id !in ViewOf(Load(selfId, index, init)).services;
      PayloadStep(Load(selfId, index, init), index, last, id);
    }
  }

  // Loading a snapshot reproduces what it describes, down to the order of the
  // services' config lists, and establishes the receiver's invariant.
  lemma LoadGivesContent(selfId: Id, index: nat, es: seq<Event>, v: View, services: map<Id, ServiceData>)
    requires Describes(es, v, services) && Announces(es)
    ensures Inv(Load(selfId, index, es)) && ViewOf(Load(selfId, index, es)) == v
    ensures forall s :: s in services ==> s in Load(selfId, index, es).services && Load(selfId, index, es).services[s].data == services[s]
  {
    EmptyIsInv(selfId);
    HandleAllRefines(EmptyModel(selfId), index, es);
    forall s | s in services
      ensures s in Load(selfId, index, es).services && Load(selfId, index, es).services[s].data == services[s]
    {
      LoadKeepsPayloads(selfId, index, es, s);
    }
  }

  /* ---- the content determines every derived table ---- */

  ghost predicate SameCounts(a: Identity, b: Identity) {
    && a.policies == b.policies
    && a.checks == b.checks
    && (a.tracking && b.tracking ==>
        && a.access.Keys == b.access.Keys
        && forall s :: s in a.access ==> a.access[s].dial == b.access[s].dial && a.access[s].bind == b.access[s].bind)
  }

  ghost predicate SameMembers(a: Model, b: Model) {
    && a.identities.Keys == b.identities.Keys
    && forall i :: i in a.identities ==> SameCounts(a.identities[i], b.identities[i])
  }

  ghost predicate Agree(a: Model, b: Model) {
    ViewOf(a) == ViewOf(b) && SameMembers(a, b)
  }

  lemma SameViewSamePolicies(a: Model, b: Model)
    requires SharedPart(ViewOf(a)) == SharedPart(ViewOf(b))
    ensures a.policies.Keys == b.policies.Keys
    ensures forall p :: p in a.policies ==> ViewOfPolicy(a.policies[p]) == ViewOfPolicy(b.policies[p])
    ensures a.identities.Keys == b.identities.Keys
  {
    assert PolicyViews(a.policies).Keys == PolicyViews(b.policies).Keys;
    assert IdentityDatas(a.identities).Keys == IdentityDatas(b.identities).Keys;
    forall p | p in a.policies
      ensures ViewOfPolicy(a.policies[p]) == ViewOfPolicy(b.policies[p])
    {
      assert PolicyViews(a.policies)[p] == PolicyViews(b.policies)[p];
    }
  }

  lemma ExactCountsAgree(ps: map<Id, Policy>, a: Identity, b: Identity)
    requires Exact(ps, a) && Exact(ps, b) && a.policies == b.policies
    ensures SameCounts(a, b)
  {
    forall c
      ensures c in a.checks <==> c in b.checks
      ensures c in a.checks ==> a.checks[c] == b.checks[c]
    {
      assert UsesAre(a.checks, c, |Demanding(ps, a.policies, c)|);
      assert UsesAre(b.checks, c, |Demanding(ps, b.policies, c)|);
    }
    if a.tracking && b.tracking {
      forall s
        ensures s in a.access <==> s in b.access
        ensures s in a.access ==> a.access[s].dial == b.access[s].dial && a.access[s].bind == b.access[s].bind
      {
        assert AccessIs(a.access, s, |Granting(ps, a.policies, DialPolicy, s)|, |Granting(ps, a.policies, BindPolicy, s)|);
        assert AccessIs(b.access, s, |Granting(ps, b.policies, DialPolicy, s)|, |Granting(ps, b.policies, BindPolicy, s)|);
      }
    }
  }

  lemma SameMemberships(a: Model, b: Model, i: Id)
    requires Mirrored(a.identities, a.policies) && Mirrored(b.identities, b.policies)
    requires a.policies.Keys == b.policies.Keys && forall p :: p in a.policies ==> ViewOfPolicy(a.policies[p]) == ViewOfPolicy(b.policies[p])
    requires i in a.identities && i in b.identities
    ensures a.identities[i].policies == b.identities[i].policies
  {
    forall p
      ensures p in a.identities[i].policies <==> p in b.identities[i].policies
    {
      if p in a.policies {
        assert ViewOfPolicy(a.policies[p]) == ViewOfPolicy(b.policies[p]);
      }
    }
  }

  // Configs play no part in memberships and counts.
  lemma ContentDeterminesCounts(a: Model, b: Model)
    requires Inv(a) && Inv(b) && SharedPart(ViewOf(a)) == SharedPart(ViewOf(b))
    ensures SameMembers(a, b)
  {
    SameViewSamePolicies(a, b);
    forall i | i in a.identities
      ensures SameCounts(a.identities[i], b.identities[i])
    {
      SameMemberships(a, b, i);
      assert Exact(b.policies, b.identities[i]);
      SameMembersSameExact(b.policies, a.policies, b.identities[i]);
      ExactCountsAgree(a.policies, a.identities[i], b.identities[i]);
    }
  }

  /* ---- runs of deltas ---- */

  function EventsOf(ops: seq<Op>): seq<Event> {
    if ops == [] then []
    else EventsOf(ops[..|ops| - 1]) + (if ops[|ops| - 1].Apply? then [ops[|ops| - 1].event] else [])
  }

  lemma RunSplitsLast(v: View, es: seq<Event>, e: Event)
    ensures Run(v, es + [e]) == Step(Run(v, es), e)
    ensures WellFormedRun(v, es + [e]) ==> WellFormedRun(v, es) && WellFormed(Run(v, es), e)
    ensures DetachingRun(v, es + [e]) ==> DetachingRun(v, es) && Detaches(Run(v, es), e)
  {
    assert (es + [e])[..|es + [e]| - 1] == es;
  }

  /* ---- save and restore ---- */

  function ServiceDatas(ss: map<Id, Service>): map<Id, ServiceData> {
    map s | s in ss :: ss[s].data
  }

  // Restoring a receiver from its own data state gives back the same content,
  // memberships and counts, and the same service payloads.
  lemma RestoreRoundTrip(selfId: Id, ops: seq<Op>, m: Model, es: seq<Event>, index: nat)
    requires Reaches(selfId, ops, m)
    requires Describes(es, ViewOf(m), ServiceDatas(m.services)) && Announces(es)
    ensures Agree(m, Load(selfId, index, es))
    ensures forall s :: s in m.services ==> s in Load(selfId, index, es).services && Load(selfId, index, es).services[s].data == m.services[s].data
  {
    ReachableIsInv(selfId, ops);
    LoadGivesContent(selfId, index, es, ViewOf(m), ServiceDatas(m.services));
    ContentDeterminesCounts(m, Load(selfId, index, es));
  }

  // The one payload an incremental receiver can hold differently: an update
  // stores the config list sorted. It keeps the sender's order exactly when
  // the update came sorted.
  lemma UpdatedOrderAgreesIff(m: Model, index: nat, id: Id, d: ServiceData, s: SenderSpec.Sender)
    requires id in m.services
    ensures (UpsertService(m, index, id, d).services[id].data == SenderSpec.Handle(s, ServiceEvent(Update, id, d)).services[id]) <==>
            Sorted(d.configs)
  {
    assert UpsertService(m, index, id, d).services[id].data == d.(configs := Sort(d.configs));
    assert SenderSpec.Handle(s, ServiceEvent(Update, id, d)).services[id] == d;
    assert d.(configs := Sort(d.configs)) == d <==> Sorted(d.configs) by {
      SortKeepsIff(d.configs);
    }
  }

  // Both ends take the same create and the same update, and differ.
  lemma UnsortedUpdateExample(d: ServiceData)
    requires d.configs == ["b", "a"]
    ensures var create, update := ServiceEvent(Create, "s", d), ServiceEvent(Update, "s", d);
            var m := Handle(Handle(EmptyModel(""), 1, create), 2, update);
            var s := SenderSpec.Handle(SenderSpec.Handle(SenderSpec.EMPTY_SENDER, create), update);
            m.services["s"].data.configs == ["a", "b"] && s.services["s"].configs == ["b", "a"]
  {
    assert Sort(["a"]) == ["a"];
    assert LessOrEqual("a", "b") && !LessOrEqual("b", "a");
    assert Insert("b", []) == ["b"];
    assert ["b", "a"][1..] == ["a"] && ["a"][1..] == [];
    assert Sort(["b", "a"]) == ["a", "b"];
  }

  lemma SenderKeepsOverrides(k: ConfigData, d: IdentityData)
    ensures var s := SenderSpec.Handle(SenderSpec.Handle(SenderSpec.Handle(SenderSpec.EMPTY_SENDER, ConfigEvent(Create, "c", k)),
                                                         IdentityEvent(Create, "i", d)), ConfigEvent(Delete, "c", k));
            "i" in SenderSpec.ViewOf(s).identities && SenderSpec.ViewOf(s).identities["i"] == d
  {
  }

  lemma OneOverrideClears(d: IdentityData)
    requires d.serviceConfigs == map["s" := map["t" := "c"]]
    ensures ClearConfig(d, "c").serviceConfigs == map[]
  {
    assert WithoutConfig(d.serviceConfigs["s"], "c") == map[];
  }

  lemma ReceiverClearsOverrides(m: Model, d: IdentityData)
    requires d.serviceConfigs == map["s" := map["t" := "c"]]
    requires "c" in m.configs && "i" in m.configs["c"].identities && "i" in m.identities && m.identities["i"].data == d
    ensures var n := DeleteConfig(m, 2, "c"); "i" in n.identities && n.identities["i"].data.serviceConfigs == map[]
  {
    OneOverrideClears(d);
    assert DeleteConfig(m, 2, "c").identities["i"].data == ClearConfig(d, "c");
  }

  // Deleting a config clears the overrides at the receiver; the sender keeps
  // announcing them.
  lemma ConfigDeleteExample(k: ConfigData, d: IdentityData)
    requires d.serviceConfigs == map["s" := map["t" := "c"]]
    ensures var create, identity, delete := ConfigEvent(Create, "c", k), IdentityEvent(Create, "i", d), ConfigEvent(Delete, "c", k);
            var m := Handle(Handle(Handle(EmptyModel(""), 1, create), 1, identity), 2, delete);
            var s := SenderSpec.Handle(SenderSpec.Handle(SenderSpec.Handle(SenderSpec.EMPTY_SENDER, create), identity), delete);
            && "i" in m.identities && m.identities["i"].data.serviceConfigs == map[]
            && "i" in SenderSpec.ViewOf(s).identities && SenderSpec.ViewOf(s).identities["i"] == d
  {
    SenderKeepsOverrides(k, d);
    var m := UpsertIdentity(UpsertConfig(EmptyModel(""), 1, "c", k), 1, "i", d);
    assert "c" in ReferencedConfigs(d) by {
      assert d.serviceConfigs["s"]["t"] == "c";
    }
    ReceiverClearsOverrides(m, d);
  }
}
