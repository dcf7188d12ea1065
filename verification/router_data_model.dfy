// The router-side data model as the object the router holds: tables updated in
// place under one lock by each event.
module RouterDataModels {
  import opened DataState
  import opened RelationalView
  import Spec = ReceiverSpec
  import opened ReceiverSpec
  import opened ReceiverCounts
  import opened ReceiverInvariant
  import opened ReceiverSteps
  import opened ReceiverRuns
  import opened ReceiverOrder
  import opened ReceiverLoops
  import opened ReceiverStore
  import opened DiffLists
  import opened FullSync
  import opened Snapshot

  // No step of applying c dereferences a missing access entry.
  ghost predicate NoNilAccess(m: Model, index: nat, c: PolicyChange) {
    c.policyId in m.policies ==>
      var p := m.policies[c.policyId];
      match c.relatedType
      case RelatedService =>
        var q := ServicesAmended(p, index, c.relatedIds, c.add);
        CrossesEmpty(p.services, q.services, c.add) ==>
          forall i :: i in m.identities && i in p.identities ==>
            Touchable(ServicesChanged(m.identities[i], c.policyId, p, c.relatedIds, index, c.add), q)
      case RelatedPostureCheck =>
        p.services != {} ==> forall i :: i in m.identities && i in p.identities ==> Touchable(m.identities[i], p)
      case _ => true
  }

  ghost predicate NoNil(m: Model, index: nat, e: Event) {
    match e
    case PolicyChangeEvent(c) => NoNilAccess(m, index, c)
    case CheckEvent(Delete, id, d) =>
      forall p :: p in PoliciesListingCheck(m, id) ==> NoNilAccess(m, index, PolicyChange(p, [id], RelatedPostureCheck, false))
    case _ => true
  }

  ghost predicate NoNilRun(m: Model, index: nat, es: seq<Event>) {
    es != [] ==>
      NoNilRun(m, index, es[..|es| - 1]) && NoNil(Spec.HandleAll(m, index, es[..|es| - 1]), index, es[|es| - 1])
  }

  // A well-formed stream never meets a missing entry.
  lemma WellFormedChangeHasNoNil(m: Model, index: nat, c: PolicyChange)
    requires Core(m) && CountsOnce(m.policies, c)
    ensures NoNilAccess(m, index, c)
  {
    if c.policyId in m.policies {
      var p := m.policies[c.policyId];
      match c.relatedType
      case RelatedService =>
        var n := Spec.HandlePolicyChange(m, index, c);
        ChangeKeepsCore(m, index, c);
        InvHasEntries(n, c.policyId);
        var q := ServicesAmended(p, index, c.relatedIds, c.add);
        forall i | i in m.identities && i in p.identities
          ensures CrossesEmpty(p.services, q.services, c.add) ==> Touchable(ServicesChanged(m.identities[i], c.policyId, p, c.relatedIds, index, c.add), q)
        {
          assert n.policies[c.policyId] == q && n.identities[i] == FollowServices(m.identities[i], c.policyId, p, q, c.relatedIds, index, c.add);
          assert i in q.identities;
          assert n.identities[i].tracking ==> forall s :: s in q.services ==> s in n.identities[i].access;
        }
      case RelatedPostureCheck => InvHasEntries(m, c.policyId);
      case _ =>
    }
  }

  lemma WellFormedHasNoNil(m: Model, index: nat, e: Event)
    requires Inv(m) && WellFormed(ViewOf(m), e)
    ensures NoNil(m, index, e)
  {
    match e
    case PolicyChangeEvent(c) => WellFormedCounts(m, c); WellFormedChangeHasNoNil(m, index, c);
    case CheckEvent(a, id, d) =>
      forall p | a.Delete? && p in PoliciesListingCheck(m, id)
        ensures NoNilAccess(m, index, PolicyChange(p, [id], RelatedPostureCheck, false))
      {
        WellFormedChangeHasNoNil(m, index, PolicyChange(p, [id], RelatedPostureCheck, false));
      }
    case _ =>
  }

  lemma {:induction false} NoNilNext(m: Model, index: nat, es: seq<Event>, k: nat)
    requires NoNilRun(m, index, es) && k < |es|
    ensures NoNil(Spec.HandleAll(m, index, es[..k]), index, es[k])
    ensures Spec.HandleAll(m, index, es[..k + 1]) == Spec.Handle(Spec.HandleAll(m, index, es[..k]), index, es[k])
  {
    assert es[..k + 1][..k] == es[..k];
    if k + 1 < |es| {
      NoNilNext(m, index, es[..|es| - 1], k);
      assert es[..|es| - 1][..k] == es[..k];
    }
  }

  lemma SurplusIsDifference(a: seq<Id>, b: seq<Id>, diff: seq<Id>)
    requires multiset(diff) == multiset(a) - multiset(b)
    ensures Elems(diff) == Surplus(a, b)
  {
    forall x
      ensures x in diff <==> x in Surplus(a, b)
    {
      assert x in diff <==> x in multiset(diff);
      assert x in a <==> x in multiset(a);
    }
  }

  method RelinkChanged(cs: map<Id, Config>, id: Id, before: seq<Id>, after: seq<Id>) returns (r: map<Id, Config>)
    ensures r == RelinkServices(cs, id, Surplus(before, after), Surplus(after, before))
  {
    var drop, add := DiffStringSlices(before, after);
    SurplusIsDifference(before, after, drop);
    SurplusIsDifference(after, before, add);
    RelinkServicesInTwo(cs, id, Elems(drop), Elems(add));
    r := DropServiceLinks(cs, id, drop);
    r := AddServiceLinks(r, id, add);
  }

  // The tables the data state is built from.
  function TablesOf(m: Model): Tables {
    Tables(ConfigTypeDatas(m.configTypes), ConfigDatas(m.configs), IdentityDatas(m.identities),
           map i | i in m.identities :: m.identities[i].policies,
           ServiceDatas(m.services), m.routers,
           map p | p in m.policies :: PolicyRow(m.policies[p].data, m.policies[p].services, m.policies[p].checks),
           CheckDatas(m.checks), m.keys, m.revocations)
  }

  lemma MembersFromEitherSide(m: Model)
    requires Inv(m)
    ensures RowViews(TablesOf(m).policies, TablesOf(m).memberships) == PolicyViews(m.policies)
  {
    var t := TablesOf(m);
    forall p | p in m.policies
      ensures RowViews(t.policies, t.memberships)[p] == PolicyViews(m.policies)[p]
    {
      assert m.policies[p].identities == set i | i in t.memberships && p in t.memberships[i];
    }
  }

  lemma TablesShowView(m: Model)
    requires Inv(m)
    ensures ViewOfTables(TablesOf(m)) == ViewOf(m)
    ensures Coherent(ViewOfTables(TablesOf(m)))
  {
    MembersFromEitherSide(m);
    assert ViewsOf(ServiceDatas(m.services)) == ServiceViews(m.services);
    InvIsCoherent(m);
  }

  // Losing one policy's check leaves the others' entries in place.
  lemma DetachCheckKeepsNoNil(m: Model, index: nat, id: Id, pid: Id, other: Id)
    requires pid != other
    requires NoNilAccess(m, index, PolicyChange(other, [id], RelatedPostureCheck, false))
    ensures NoNilAccess(Detach(RelatedPostureCheck, index, id)(pid, m), index, PolicyChange(other, [id], RelatedPostureCheck, false))
  {
    var n := Detach(RelatedPostureCheck, index, id)(pid, m);
    if other in m.policies && pid in m.policies {
      assert n.policies[other] == m.policies[other];
      forall i | i in n.identities && i in m.policies[other].identities && m.policies[other].services != {}
        ensures Touchable(n.identities[i], m.policies[other])
      {
        assert Touchable(m.identities[i], m.policies[other]);
        assert n.identities[i].tracking == m.identities[i].tracking && n.identities[i].access.Keys == m.identities[i].access.Keys;
      }
    }
  }

  // Taking a service or an identity out of a policy never meets a missing entry.
  lemma DetachHasNoNil(m: Model, index: nat, id: Id, pid: Id, kind: RelatedType)
    requires kind.RelatedService? || kind.RelatedIdentity?
    ensures NoNilAccess(m, index, PolicyChange(pid, [id], kind, false))
  {
  }

  lemma NobodyNotified(ss: map<Id, Service>, ps: map<Id, Policy>, index: nat)
    ensures RefreshServices(ss, {}, index) == ss
    ensures BumpServices(ps, PoliciesOfServices(ss, {}), index) == ps
  {
  }

  lemma NothingCleared(im: map<Id, Identity>, id: Id)
    ensures ClearConfigEach(im, {}, id) == im
  {
  }

  ghost predicate DetachesSafely(m: Model, kind: RelatedType, index: nat, id: Id, pids: set<Id>) {
    forall p :: p in pids ==> NoNilAccess(m, index, PolicyChange(p, [id], kind, false))
  }

  lemma DetachStaysSafe(m: Model, kind: RelatedType, index: nat, id: Id, pids: set<Id>, pid: Id)
    requires !kind.InvalidRelatedType?
    requires DetachesSafely(m, kind, index, id, pids)
    ensures DetachesSafely(Detach(kind, index, id)(pid, m), kind, index, id, pids - {pid})
  {
    forall q | q in pids - {pid}
      ensures NoNilAccess(Detach(kind, index, id)(pid, m), index, PolicyChange(q, [id], kind, false))
    {
      if kind.RelatedPostureCheck? {
        DetachCheckKeepsNoNil(m, index, id, pid, q);
      } else {
        DetachHasNoNil(Detach(kind, index, id)(pid, m), index, id, q, kind);
      }
    }
  }

  lemma DetachNext(m: Model, kind: RelatedType, index: nat, id: Id, pids: set<Id>, todo: set<Id>, pid: Id)
    requires pid in todo && todo <= pids
    ensures Fold(Detach(kind, index, id), pids - (todo - {pid}), m) ==
            HandlePolicyChange(Fold(Detach(kind, index, id), pids - todo, m), index, PolicyChange(pid, [id], kind, false))
  {
    DetachCommutes(kind, index, id);
    FoldNext(Detach(kind, index, id), pids, todo, m, pid);
    DetachIs(Fold(Detach(kind, index, id), pids - todo, m), kind, index, id, pid);
  }

  lemma DetachIs(m: Model, kind: RelatedType, index: nat, id: Id, pid: Id)
    ensures Detach(kind, index, id)(pid, m) == Spec.HandlePolicyChange(m, index, PolicyChange(pid, [id], kind, false))
  {
  }

  class RouterDataModel {
    var configTypes: map<Id, ConfigType>
    var configs: map<Id, Config>
    var identities: map<Id, Identity>
    var services: map<Id, Service>
    var routers: map<Id, RouterData>
    var policies: map<Id, Policy>
    var checks: map<Id, Check>
    var keys: map<Id, KeyData>
    var revocations: map<Id, RevocationData>
    var names: map<string, Id>
    var index: nat
    const selfId: Id

    function State(): Model
      reads this
    {
      Model(configTypes, configs, identities, services, routers, policies, checks, keys, revocations, names, selfId)
    }

    constructor (routerId: Id)
      ensures State() == EmptyModel(routerId) && index == 0
    {
      configTypes, configs, identities, services := map[], map[], map[], map[];
      routers, policies, checks, keys := map[], map[], map[], map[];
      revocations, names, index := map[], map[], 0;
      selfId := routerId;
    }

    method HandlePolicyChange(index: nat, c: PolicyChange)
      requires NoNilAccess(State(), index, c)
      modifies this
      ensures State() == Spec.HandlePolicyChange(old(State()), index, c)
      ensures this.index == old(this.index)
    {
      if c.policyId !in policies {
        return;
      }
      var p := policies[c.policyId];
      match c.relatedType
      case RelatedIdentity =>
        var members;
        identities, members := JoinListed(identities, p.identities, c.relatedIds, c.policyId, p, index, c.add);
        policies := policies[c.policyId := p.(identities := members)];
      case RelatedService =>
        var q := ServicesAmended(p, index, c.relatedIds, c.add);
        identities := FollowServiceMembers(identities, c.policyId, p, q, c.relatedIds, index, c.add);
        services := LinkServiceList(services, c.relatedIds, c.policyId, c.add);
        policies := policies[c.policyId := q];
      case RelatedPostureCheck =>
        identities := FollowCheckMembers(identities, c.policyId, p, c.relatedIds, index, c.add);
        checks := LinkCheckList(checks, c.relatedIds, c.policyId, c.add);
        policies := policies[c.policyId := p.(checks := Amend(p.checks, Elems(c.relatedIds), c.add), checksIndex := index)];
      case InvalidRelatedType =>
        policies := policies[c.policyId := p];
    }

    /* ---- identities ---- */

    method HandleIdentity(index: nat, a: Action, id: Id, d: IdentityData)
      modifies this
      ensures State() == Spec.Handle(old(State()), index, IdentityEvent(a, id, d))
      ensures this.index == old(this.index)
    {
      var drop: set<Id> := {};
      if id in identities {
        drop := ReferencedConfigSet(identities[id].data);
      }
      if a.Delete? {
        configs := DropIdentityLinks(configs, id, drop);
        DetachFrom(RelatedIdentity, index, id, PoliciesListingIdentity(State(), id));
        identities := identities - {id};
      } else {
        var add := ReferencedConfigSet(d);
        RelinkInTwo(configs, id, drop, add);
        configs := DropIdentityLinks(configs, id, drop);
        configs := AddIdentityLinks(configs, id, add);
        identities := identities[id :=
          if id in identities then identities[id].(data := d, index := index)
          else Identity(d, {}, map[], map[], index, false)];
      }
    }

    // The cleanup changes a delete makes for itself, in whatever order the
    // policies come up.
    method DetachFrom(kind: RelatedType, index: nat, id: Id, pids: set<Id>)
      requires !kind.InvalidRelatedType? && DetachesSafely(State(), kind, index, id, pids)
      modifies this
      ensures State() == Fold(Detach(kind, index, id), pids, old(State()))
      ensures this.index == old(this.index)
    {
      var todo := pids;
      assert pids - todo == {};
      while todo != {}
        invariant todo <= pids
        invariant State() == Fold(Detach(kind, index, id), pids - todo, old(State()))
        invariant DetachesSafely(State(), kind, index, id, todo)
        invariant this.index == old(this.index)
        decreases |todo|
      {
        var p :| p in todo;
        DetachNext(old(State()), kind, index, id, pids, todo, p);
        DetachStaysSafe(State(), kind, index, id, todo, p);
        HandlePolicyChange(index, PolicyChange(p, [id], kind, false));
        todo := todo - {p};
      }
      assert pids - todo == pids;
    }

    /* ---- services ---- */

    method HandleService(index: nat, a: Action, id: Id, d: ServiceData)
      modifies this
      ensures State() == Spec.Handle(old(State()), index, ServiceEvent(a, id, d))
      ensures this.index == old(this.index)
    {
      if a.Delete? {
        RemoveService(index, id);
      } else {
        SetService(index, id, d);
      }
    }

    method RemoveService(index: nat, id: Id)
      modifies this
      ensures State() == DeleteService(old(State()), index, id)
      ensures this.index == old(this.index)
    {
      if id in services {
        var s := services[id];
        var listing := PoliciesListingService(State(), id);
        configs := DropServiceLinks(configs, id, s.data.configs);
        services := services - {id};
        names := Unname(names, s.data.name, id);
        DetachFrom(RelatedService, index, id, listing);
      }
    }

    method SetService(index: nat, id: Id, d: ServiceData)
      modifies this
      ensures State() == UpsertService(old(State()), index, id, d)
      ensures this.index == old(this.index)
    {
      var listing := PoliciesOf(services, id);
      if id in services && services[id].data.name != d.name {
        names := Unname(names, services[id].data.name, id);
      }
      names := names[d.name := id];
      if id in services {
        configs := RelinkChanged(configs, id, services[id].data.configs, d.configs);
      } else {
        configs := AddServiceLinks(configs, id, d.configs);
      }
      services := services[id := NextService(services, index, id, d)];
      policies := BumpServiceIndex(policies, listing, index);
    }

    /* ---- configs and config types ---- */

    method HandleConfigType(index: nat, a: Action, id: Id, d: ConfigTypeData)
      modifies this
      ensures State() == Spec.HandleConfigType(old(State()), index, a, id, d)
      ensures this.index == old(this.index)
    {
      if a.Delete? {
        NobodyNotified(services, policies, index);
        configTypes := configTypes - {id};
      } else {
        configTypes := configTypes[id := ConfigType(d, index)];
        services, policies := NotifyConfigsOfType(configs, services, policies, id, index);
        assert ServicesOfTypeIn(configs, configs.Keys, id) == ServicesOfType(old(State()), id);
      }
    }

    method HandleConfig(index: nat, a: Action, id: Id, d: ConfigData)
      modifies this
      ensures State() == Spec.Handle(old(State()), index, ConfigEvent(a, id, d))
      ensures this.index == old(this.index)
    {
      if a.Delete? {
        RemoveConfig(index, id);
      } else {
        SetConfig(index, id, d);
      }
    }

    method RemoveConfig(index: nat, id: Id)
      modifies this
      ensures State() == DeleteConfig(old(State()), index, id)
      ensures this.index == old(this.index)
    {
      if id in configs {
        var c := configs[id];
        services, policies := NotifyServiceSet(services, policies, c.services, index);
        identities := ClearFromIdentities(identities, c.identities, id);
      } else {
        NobodyNotified(services, policies, index);
        NothingCleared(identities, id);
      }
      configs := configs - {id};
    }

    method SetConfig(index: nat, id: Id, d: ConfigData)
      modifies this
      ensures State() == UpsertConfig(old(State()), index, id, d)
      ensures this.index == old(this.index)
    {
      var was := configs;
      configs := configs[id := NextConfig(configs, index, id, d)];
      if id in was && was[id].data != d {
        services, policies := NotifyServiceSet(services, policies, was[id].services, index);
      } else {
        NobodyNotified(services, policies, index);
      }
    }

    /* ---- policies, posture checks, routers ---- */

    method HandlePolicy(index: nat, a: Action, id: Id, d: PolicyData)
      modifies this
      ensures State() == Spec.Handle(old(State()), index, PolicyEvent(a, id, d))
      ensures this.index == old(this.index)
    {
      if a.Delete? {
        if id in policies {
          identities := JoinMembers(identities, policies[id].identities, id, policies[id], index, false);
        }
        policies := policies - {id};
      } else {
        var q := NextPolicy(policies, index, id, d);
        if Flips(policies, id, d) {
          identities := FlipMembers(identities, id, policies[id], q, index);
        }
        policies := policies[id := q];
      }
    }

    method HandleCheck(index: nat, a: Action, id: Id, d: CheckData)
      requires NoNil(State(), index, CheckEvent(a, id, d))
      modifies this
      ensures State() == Spec.Handle(old(State()), index, CheckEvent(a, id, d))
      ensures this.index == old(this.index)
    {
      if a.Delete? {
        DetachFrom(RelatedPostureCheck, index, id, PoliciesListingCheck(State(), id));
        checks := checks - {id};
      } else {
        var linked := PoliciesOfCheck(checks, id);
        checks := checks[id := Check(d, linked, index)];
        policies := BumpCheckIndex(policies, linked, index);
      }
    }

    method HandleRouter(a: Action, id: Id, d: RouterData)
      modifies this
      ensures State() == Spec.HandleRouter(old(State()), a, id, d)
      ensures index == old(index)
    {
      assert configs - {} == configs;
      if a.Delete? {
        routers := routers - {id};
      } else {
        if selfId != "" && id == selfId && id in routers {
          configs := CollectConfigs(configs, routers[id].configs, d.configs);
        }
        routers := routers[id := d];
      }
    }

    /* ---- dispatch ---- */

    method Handle(index: nat, e: Event)
      requires NoNil(State(), index, e)
      modifies this
      ensures State() == Spec.Handle(old(State()), index, e)
      ensures this.index == old(this.index)
    {
      match e
      case ConfigTypeEvent(a, id, d) => HandleConfigType(index, a, id, d);
      case ConfigEvent(a, id, d) => HandleConfig(index, a, id, d);
      case IdentityEvent(a, id, d) => HandleIdentity(index, a, id, d);
      case ServiceEvent(a, id, d) => HandleService(index, a, id, d);
      case RouterEvent(a, id, d) => HandleRouter(a, id, d);
      case PolicyEvent(a, id, d) => HandlePolicy(index, a, id, d);
      case CheckEvent(a, id, d) => HandleCheck(index, a, id, d);
      case KeyEvent(a, id, d) => keys := if a.Delete? then keys - {id} else keys[id := d];
      case RevocationEvent(a, id, d) => revocations := if a.Delete? then revocations - {id} else revocations[id := d];
      case PolicyChangeEvent(c) => HandlePolicyChange(index, c);
    }

    method HandleEach(index: nat, es: seq<Event>)
      requires NoNilRun(State(), index, es)
      modifies this
      ensures State() == Spec.HandleAll(old(State()), index, es)
      ensures this.index == old(this.index)
    {
      for k := 0 to |es|
        invariant State() == Spec.HandleAll(old(State()), index, es[..k])
        invariant this.index == old(this.index)
      {
        NoNilNext(old(State()), index, es, k);
        Handle(index, es[k]);
      }
      assert es[..|es|] == es;
    }

    /* ---- change sets, tracking, data state ---- */

    method ApplyChangeSet(cs: ChangeSet) returns (verdict: Verdict)
      requires Judge(index, cs).Accepted? ==> NoNilRun(State(), cs.index, cs.changes)
      modifies this
      ensures verdict == Judge(old(index), cs)
      ensures Receiver(State(), index) == Receive(old(Receiver(State(), index)), cs)
    {
      if cs.isSynthetic {
        HandleEach(cs.index, cs.changes);
        return Accepted;
      }
      if index > 0 && index >= cs.index {
        return OutOfOrder;
      }
      if cs.previousIndex > 0 && index > 0 && cs.previousIndex != index {
        return GapDetected;
      }
      index := cs.index;
      HandleEach(cs.index, cs.changes);
      return Accepted;
    }

    method EnableServiceAccessTracking(id: Id)
      modifies this
      ensures State() == EnableTracking(old(State()), id) && index == old(index)
    {
      if id in identities && !identities[id].tracking {
        var access := RebuildAccess(policies, identities[id].policies);
        identities := identities[id := identities[id].(tracking := true, access := access)];
      }
    }

    method DisableServiceAccessTracking(id: Id)
      modifies this
      ensures State() == DisableTracking(old(State()), id) && index == old(index)
    {
      if id in identities && identities[id].tracking {
        identities := identities[id := identities[id].(tracking := false, access := map[])];
      }
    }

    constructor FromDataState(routerId: Id, es: seq<Event>, endIndex: nat)
      requires NoNilRun(EmptyModel(routerId), endIndex, es)
      ensures State() == Load(routerId, endIndex, es) && index == endIndex
    {
      configTypes, configs, identities, services := map[], map[], map[], map[];
      routers, policies, checks, keys := map[], map[], map[], map[];
      revocations, names, index := map[], map[], 0;
      selfId := routerId;
      new;
      HandleEach(endIndex, es);
      index := endIndex;
    }

    // The members of a policy's identity change come from the identities' own
    // policy sets, not from the policy.
    method GetDataState() returns (es: seq<Event>, endIndex: nat)
      ensures Inv(State()) ==> Describes(es, ViewOf(State()), ServiceDatas(services))
      ensures Announces(es) && ServiceTable(es) == ServiceDatas(services)
      ensures endIndex == index
    {
      endIndex := index;
      es := BuildDataState(TablesOf(State()));
      if Inv(State()) {
        TablesShowView(State());
      }
    }
  }
}
