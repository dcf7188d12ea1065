// The indices kept with services, checks, configs, config types and policies:
// exactly which events stamp which, and what an access list rebuilt from the
// policies' indices therefore shows.
module VersionStamps {
  import opened DataState
  import opened RelationalView
  import opened ReceiverSpec
  import opened ReceiverCounts
  import opened ReceiverInvariant
  import opened ReceiverSteps
  import opened ReceiverRuns
  import opened PolicyIndex
  import ServiceVersions

  /* ---- services, checks, configs and config types ---- */

  // The configs an event changes: their own data, or the type they are of.
  function ConfigsTouched(m: Model, e: Event): set<Id> {
    match e
    case ConfigEvent(a, id, d) => if id in m.configs && (a.Delete? || m.configs[id].data != d) then {id} else {}
    case ConfigTypeEvent(a, id, d) => if a.Delete? then {} else set c | c in m.configs && m.configs[c].data.typeId == id
    case _ => {}
  }

  // The event touches a config that lists service s.
  ghost predicate Refreshes(m: Model, e: Event, s: Id) {
    exists c :: c in ConfigsTouched(m, e) && c in m.configs && s in m.configs[c].services
  }

  ghost predicate ServiceStamped(m: Model, n: Model, index: nat, e: Event, s: Id) {
    if e.ServiceEvent? && e.id == s && !e.action.Delete? then
      && s in n.services && n.services[s].index == index
      && n.services[s].data == if s in m.services then e.service.(configs := Sort(e.service.configs)) else e.service
    else
      s in n.services ==>
        && s in m.services && n.services[s].data == m.services[s].data
        && n.services[s].index == if Refreshes(m, e, s) then Max(m.services[s].index, index) else m.services[s].index
  }

  predicate CheckStamped(m: Model, n: Model, index: nat, e: Event, c: Id) {
    if e.CheckEvent? && e.id == c && !e.action.Delete? then c in n.checks && n.checks[c].index == index && n.checks[c].data == e.check
    else c in n.checks ==> c in m.checks && n.checks[c].data == m.checks[c].data && n.checks[c].index == m.checks[c].index
  }

  predicate ConfigStamped(m: Model, n: Model, index: nat, e: Event, c: Id) {
    if e.ConfigEvent? && e.id == c && !e.action.Delete? then c in n.configs && n.configs[c].index == index && n.configs[c].data == e.config
    else c in n.configs ==> c in m.configs && n.configs[c].data == m.configs[c].data && n.configs[c].index == m.configs[c].index
  }

  predicate ConfigTypeStamped(m: Model, n: Model, index: nat, e: Event, t: Id) {
    if e.ConfigTypeEvent? && e.id == t then
      if e.action.Delete? then t !in n.configTypes else t in n.configTypes && n.configTypes[t] == ConfigType(e.configType, index)
    else (t in n.configTypes <==> t in m.configTypes) && (t in n.configTypes ==> n.configTypes[t] == m.configTypes[t])
  }

  // Payloads and indices of what is left are as they were.
  ghost predicate SameServices(ss: map<Id, Service>, tt: map<Id, Service>) {
    forall s :: s in tt ==> s in ss && tt[s].data == ss[s].data && tt[s].index == ss[s].index
  }

  ghost predicate SameChecks(cs: map<Id, Check>, ds: map<Id, Check>) {
    forall c :: c in ds ==> c in cs && ds[c].data == cs[c].data && ds[c].index == cs[c].index
  }

  ghost predicate SameConfigs(cs: map<Id, Config>, ds: map<Id, Config>) {
    forall c :: c in ds ==> c in cs && ds[c].data == cs[c].data && ds[c].index == cs[c].index
  }

  lemma LinksKeepStamps(m: Model, index: nat, c: PolicyChange)
    ensures var n := HandlePolicyChange(m, index, c); SameServices(m.services, n.services) && SameChecks(m.checks, n.checks)
  {
  }

  lemma DeletedCheckGone(m: Model, index: nat, id: Id)
    ensures var n := DeleteCheck(m, index, id); n.services == m.services && n.checks == m.checks - {id}
  {
    ServiceVersions.DetachMoves(RelatedPostureCheck, m, index, id, PoliciesListingCheck(m, id));
  }

  lemma OthersKeepServices(m: Model, index: nat, e: Event)
    requires !e.ConfigEvent? && !e.ConfigTypeEvent? && !(e.ServiceEvent? && !e.action.Delete?)
    ensures SameServices(m.services, Handle(m, index, e).services)
  {
    match e
    case IdentityEvent(a, id, d) => ServiceVersions.DeleteIdentityMovesNothing(m, index, id);
    case ServiceEvent(a, id, d) => ServiceVersions.DeleteServiceMovesNothing(m, index, id);
    case RouterEvent(a, id, d) =>
    case PolicyEvent(a, id, d) => ServiceVersions.OthersMoveNothing(m, index, e);
    case CheckEvent(a, id, d) => DeletedCheckGone(m, index, id);
    case KeyEvent(a, id, d) =>
    case RevocationEvent(a, id, d) =>
    case PolicyChangeEvent(c) => LinksKeepStamps(m, index, c);
  }

  lemma OthersLeaveChecks(m: Model, index: nat, e: Event)
    requires !e.CheckEvent? && !e.PolicyChangeEvent?
    ensures Handle(m, index, e).checks == m.checks
  {
    match e
    case ConfigTypeEvent(a, id, d) => assert HandleConfigType(m, index, a, id, d).checks == m.checks;
    case ConfigEvent(a, id, d) => assert DeleteConfig(m, index, id).checks == UpsertConfig(m, index, id, d).checks == m.checks;
    case IdentityEvent(a, id, d) =>
      ServiceVersions.DeleteIdentityMovesNothing(m, index, id);
      assert UpsertIdentity(m, index, id, d).checks == m.checks;
    case ServiceEvent(a, id, d) =>
      ServiceVersions.DeleteServiceMovesNothing(m, index, id);
      assert UpsertService(m, index, id, d).checks == m.checks;
    case RouterEvent(a, id, d) => assert HandleRouter(m, a, id, d).checks == m.checks;
    case PolicyEvent(a, id, d) => ServiceVersions.OthersMoveNothing(m, index, e);
    case KeyEvent(a, id, d) =>
    case RevocationEvent(a, id, d) =>
  }

  lemma OthersKeepChecks(m: Model, index: nat, e: Event)
    requires !(e.CheckEvent? && !e.action.Delete?)
    ensures SameChecks(m.checks, Handle(m, index, e).checks)
  {
    if e.CheckEvent? {
      DeletedCheckGone(m, index, e.id);
    } else if e.PolicyChangeEvent? {
      LinksKeepStamps(m, index, e.change);
    } else {
      OthersLeaveChecks(m, index, e);
    }
  }

  lemma RefreshStamps(m: Model, n: Model, hit: set<Id>, index: nat, e: Event, s: Id)
    requires n.services == RefreshServices(m.services, hit, index) && !e.ServiceEvent?
    requires s in hit <==> Refreshes(m, e, s)
    ensures ServiceStamped(m, n, index, e, s)
  {
  }

  lemma ConfigTypeStamps(m: Model, index: nat, a: Action, id: Id, d: ConfigTypeData, s: Id)
    ensures ServiceStamped(m, HandleConfigType(m, index, a, id, d), index, ConfigTypeEvent(a, id, d), s)
  {
    var e, hit := ConfigTypeEvent(a, id, d), if a.Delete? then {} else ServicesOfType(m, id);
    if Refreshes(m, e, s) {
      var c :| c in ConfigsTouched(m, e) && c in m.configs && s in m.configs[c].services;
      assert s in hit;
    }
    if s in hit {
      var c :| c in m.configs && m.configs[c].data.typeId == id && s in m.configs[c].services;
      assert c in ConfigsTouched(m, e);
    }
    RefreshStamps(m, HandleConfigType(m, index, a, id, d), hit, index, e, s);
  }

  lemma ConfigStamps(m: Model, index: nat, a: Action, id: Id, d: ConfigData, s: Id)
    ensures ServiceStamped(m, Handle(m, index, ConfigEvent(a, id, d)), index, ConfigEvent(a, id, d), s)
  {
    var e := ConfigEvent(a, id, d);
    var hit := if a.Delete? then ServicesUsing(m.configs, id) else ServicesChangedBy(m.configs, id, d);
    assert s in hit ==> id in ConfigsTouched(m, e);
    RefreshStamps(m, Handle(m, index, e), hit, index, e, s);
  }

  // Every service keeps payload and index, but for its own create or update
  // and for events that touch a config listing it.
  lemma HandleStampsService(m: Model, index: nat, e: Event, s: Id)
    ensures ServiceStamped(m, Handle(m, index, e), index, e, s)
  {
    if e.ConfigTypeEvent? {
      ConfigTypeStamps(m, index, e.action, e.id, e.configType, s);
    } else if e.ConfigEvent? {
      ConfigStamps(m, index, e.action, e.id, e.config, s);
    } else if e.ServiceEvent? && !e.action.Delete? {
      UpsertStampsService(m, index, e.action, e.id, e.service, s);
    } else {
      OthersKeepServices(m, index, e);
      assert ConfigsTouched(m, e) == {};
    }
  }

  lemma UpsertStampsService(m: Model, index: nat, a: Action, id: Id, d: ServiceData, s: Id)
    requires !a.Delete?
    ensures ServiceStamped(m, UpsertService(m, index, id, d), index, ServiceEvent(a, id, d), s)
  {
    assert ConfigsTouched(m, ServiceEvent(a, id, d)) == {};
  }

  lemma HandleStampsCheck(m: Model, index: nat, e: Event, c: Id)
    ensures CheckStamped(m, Handle(m, index, e), index, e, c)
  {
    if e.CheckEvent? && !e.action.Delete? {
      assert Handle(m, index, e) == UpsertCheck(m, index, e.id, e.check);
    } else {
      OthersKeepChecks(m, index, e);
    }
  }

  ghost predicate ConfigsStay(m: Model, n: Model) {
    SameConfigs(m.configs, n.configs) && n.configTypes == m.configTypes
  }

  lemma {:induction false} DetachKeepsConfigs(kind: RelatedType, m: Model, index: nat, id: Id, pids: set<Id>)
    ensures var n := Fold(Detach(kind, index, id), pids, m); n.configs == m.configs && n.configTypes == m.configTypes
    decreases |pids|
  {
    if pids != {} {
      var step := Detach(kind, index, id);
      var x :| x in pids && Fold(step, pids, m) == step(x, Fold(step, pids - {x}, m));
      DetachKeepsConfigs(kind, m, index, id, pids - {x});
    }
  }

  lemma RelinkKeepsStamps(cs: map<Id, Config>, id: Id, drop: set<Id>, add: set<Id>)
    ensures SameConfigs(cs, Relink(cs, id, drop, add)) && SameConfigs(cs, RelinkServices(cs, id, drop, add))
  {
  }

  lemma IdentityKeepsConfigs(m: Model, index: nat, id: Id, d: IdentityData)
    ensures ConfigsStay(m, UpsertIdentity(m, index, id, d)) && ConfigsStay(m, DeleteIdentity(m, index, id))
  {
    var n := m.(configs := Relink(m.configs, id, ConfigsOf(m, id), {}));
    RelinkKeepsStamps(m.configs, id, ConfigsOf(m, id), ReferencedConfigs(d));
    RelinkKeepsStamps(m.configs, id, ConfigsOf(m, id), {});
    DetachKeepsConfigs(RelatedIdentity, n, index, id, PoliciesListingIdentity(n, id));
  }

  lemma ServiceKeepsConfigs(m: Model, index: nat, id: Id, d: ServiceData)
    ensures ConfigsStay(m, UpsertService(m, index, id, d)) && ConfigsStay(m, DeleteService(m, index, id))
  {
    RelinkKeepsStamps(m.configs, id, DroppedConfigs(m.services, id, d), AddedConfigs(m.services, id, d));
    if id in m.services {
      var s := m.services[id];
      var n := m.(services := m.services - {id},
                  configs := RelinkServices(m.configs, id, Elems(s.data.configs), {}),
                  names := Unname(m.names, s.data.name, id));
      RelinkKeepsStamps(m.configs, id, Elems(s.data.configs), {});
      DetachKeepsConfigs(RelatedService, n, index, id, PoliciesListingService(m, id));
    }
  }

  predicate ConfigsUntouched(m: Model, n: Model) {
    n.configs == m.configs && n.configTypes == m.configTypes
  }

  lemma UntouchedStay(m: Model, n: Model)
    requires ConfigsUntouched(m, n)
    ensures ConfigsStay(m, n)
  {
  }

  lemma PlainEventsKeepConfigs(m: Model, index: nat, e: Event)
    requires e.PolicyEvent? || e.CheckEvent? || e.KeyEvent? || e.RevocationEvent? || e.PolicyChangeEvent?
    ensures ConfigsUntouched(m, Handle(m, index, e))
  {
    match e
    case PolicyEvent(a, id, d) =>
      assert ConfigsUntouched(m, UpsertPolicy(m, index, id, d)) && ConfigsUntouched(m, DeletePolicy(m, index, id));
    case CheckEvent(a, id, d) =>
      DetachKeepsConfigs(RelatedPostureCheck, m, index, id, PoliciesListingCheck(m, id));
      assert ConfigsUntouched(m, UpsertCheck(m, index, id, d));
    case KeyEvent(a, id, d) =>
    case RevocationEvent(a, id, d) =>
    case PolicyChangeEvent(c) => assert ConfigsUntouched(m, HandlePolicyChange(m, index, c));
  }

  lemma RouterKeepsConfigs(m: Model, a: Action, id: Id, d: RouterData)
    ensures ConfigsStay(m, HandleRouter(m, a, id, d))
  {
  }

  lemma OthersKeepConfigs(m: Model, index: nat, e: Event)
    requires !e.ConfigEvent? && !e.ConfigTypeEvent?
    ensures ConfigsStay(m, Handle(m, index, e))
  {
    if e.IdentityEvent? {
      IdentityKeepsConfigs(m, index, e.id, e.identity);
    } else if e.ServiceEvent? {
      ServiceKeepsConfigs(m, index, e.id, e.service);
    } else if e.RouterEvent? {
      RouterKeepsConfigs(m, e.action, e.id, e.router);
    } else {
      PlainEventsKeepConfigs(m, index, e);
      UntouchedStay(m, Handle(m, index, e));
    }
  }

  lemma ConfigEventStamps(m: Model, index: nat, a: Action, id: Id, d: ConfigData, c: Id)
    ensures ConfigStamped(m, Handle(m, index, ConfigEvent(a, id, d)), index, ConfigEvent(a, id, d), c)
    ensures ConfigTypeStamped(m, Handle(m, index, ConfigEvent(a, id, d)), index, ConfigEvent(a, id, d), c)
  {
  }

  lemma TypeEventStamps(m: Model, index: nat, a: Action, id: Id, d: ConfigTypeData, c: Id)
    ensures ConfigStamped(m, HandleConfigType(m, index, a, id, d), index, ConfigTypeEvent(a, id, d), c)
    ensures ConfigTypeStamped(m, HandleConfigType(m, index, a, id, d), index, ConfigTypeEvent(a, id, d), c)
  {
  }

  lemma HandleStampsConfig(m: Model, index: nat, e: Event, c: Id)
    ensures ConfigStamped(m, Handle(m, index, e), index, e, c)
    ensures ConfigTypeStamped(m, Handle(m, index, e), index, e, c)
  {
    if e.ConfigEvent? {
      ConfigEventStamps(m, index, e.action, e.id, e.config, c);
    } else if e.ConfigTypeEvent? {
      TypeEventStamps(m, index, e.action, e.id, e.configType, c);
    } else {
      OthersKeepConfigs(m, index, e);
    }
  }

  /* ---- policies ---- */

  // The event sets the policy's services, or is to the policy itself.
  predicate StampsServices(m: Model, e: Event, p: Id) {
    match e
    case PolicyEvent(a, id, d) => id == p && !a.Delete?
    case ServiceEvent(a, id, d) => a.Delete? && id in m.services && p in m.policies && id in m.policies[p].services
    case PolicyChangeEvent(c) => c.policyId == p && c.relatedType.RelatedService?
    case _ => false
  }

  // The event updates a service linked to the policy, or a config such a
  // service is listed by.
  ghost predicate RaisesServices(m: Model, e: Event, p: Id) {
    exists s :: s in m.services && p in m.services[s].policies &&
                (Refreshes(m, e, s) || (e.ServiceEvent? && e.id == s && !e.action.Delete?))
  }

  predicate StampsChecks(m: Model, e: Event, p: Id) {
    match e
    case CheckEvent(a, id, d) => a.Delete? && id in m.checks && p in m.policies && id in m.policies[p].checks
    case PolicyChangeEvent(c) => c.policyId == p && c.relatedType.RelatedPostureCheck?
    case _ => false
  }

  predicate RaisesChecks(m: Model, e: Event, p: Id) {
    e.CheckEvent? && !e.action.Delete? && e.id in m.checks && p in m.checks[e.id].policies
  }

  predicate Sets(e: Event, p: Id) {
    e.PolicyEvent? && e.id == p && !e.action.Delete?
  }

  function Moved(was: nat, index: nat, stamps: bool, raises: bool): nat {
    if stamps then index else if raises then Max(was, index) else was
  }

  ghost predicate PolicyStamped(m: Model, n: Model, index: nat, e: Event, p: Id) {
    if Sets(e, p) then p in n.policies && n.policies[p].servicesIndex == index && n.policies[p].checksIndex == 0
    else
      p in n.policies ==>
        && p in m.policies
        && n.policies[p].servicesIndex == Moved(m.policies[p].servicesIndex, index, StampsServices(m, e, p), RaisesServices(m, e, p))
        && n.policies[p].checksIndex == Moved(m.policies[p].checksIndex, index, StampsChecks(m, e, p), RaisesChecks(m, e, p))
  }

  predicate NoRaise(e: Event) {
    !e.ConfigEvent? && !e.ConfigTypeEvent? && !(e.ServiceEvent? && !e.action.Delete?)
  }

  lemma NothingRaised(m: Model, e: Event, p: Id)
    requires NoRaise(e)
    ensures !RaisesServices(m, e, p)
  {
    assert ConfigsTouched(m, e) == {};
  }

  lemma BumpStamps(m: Model, n: Model, hit: set<Id>, index: nat, e: Event, p: Id)
    requires n.policies == BumpServices(m.policies, hit, index) && (p in hit <==> RaisesServices(m, e, p))
    requires e.ConfigEvent? || e.ConfigTypeEvent? || (e.ServiceEvent? && !e.action.Delete?)
    ensures PolicyStamped(m, n, index, e, p)
  {
  }

  lemma UpsertServiceStamps(m: Model, index: nat, a: Action, id: Id, d: ServiceData, p: Id)
    requires !a.Delete?
    ensures PolicyStamped(m, UpsertService(m, index, id, d), index, ServiceEvent(a, id, d), p)
  {
    var e := ServiceEvent(a, id, d);
    assert ConfigsTouched(m, e) == {};
    if id in m.services && p in m.services[id].policies {
      assert RaisesServices(m, e, p);
    }
    BumpStamps(m, UpsertService(m, index, id, d), PoliciesOf(m.services, id), index, e, p);
  }

  lemma RefreshedPolicies(m: Model, e: Event, hit: set<Id>, p: Id)
    requires !e.ServiceEvent? && forall s :: s in hit <==> Refreshes(m, e, s)
    ensures p in PoliciesOfServices(m.services, hit) <==> RaisesServices(m, e, p)
  {
    if p in PoliciesOfServices(m.services, hit) {
      var s :| s in hit && s in m.services && p in m.services[s].policies;
      assert Refreshes(m, e, s);
    }
  }

  lemma TypeHits(m: Model, a: Action, id: Id, d: ConfigTypeData)
    ensures forall s :: s in (if a.Delete? then {} else ServicesOfType(m, id)) <==> Refreshes(m, ConfigTypeEvent(a, id, d), s)
  {
    var e := ConfigTypeEvent(a, id, d);
    forall s
      ensures s in (if a.Delete? then {} else ServicesOfType(m, id)) <==> Refreshes(m, e, s)
    {
      if !a.Delete? && s in ServicesOfType(m, id) {
        var c :| c in m.configs && m.configs[c].data.typeId == id && s in m.configs[c].services;
        assert c in ConfigsTouched(m, e);
      }
    }
  }

  lemma ConfigHits(m: Model, a: Action, id: Id, d: ConfigData)
    ensures forall s :: s in (if a.Delete? then ServicesUsing(m.configs, id) else ServicesChangedBy(m.configs, id, d)) <==>
                        Refreshes(m, ConfigEvent(a, id, d), s)
  {
    var e := ConfigEvent(a, id, d);
    forall s
      ensures s in (if a.Delete? then ServicesUsing(m.configs, id) else ServicesChangedBy(m.configs, id, d)) <==> Refreshes(m, e, s)
    {
      assert s in (if a.Delete? then ServicesUsing(m.configs, id) else ServicesChangedBy(m.configs, id, d)) ==> id in ConfigsTouched(m, e);
    }
  }

  lemma ConfigTypePolicies(m: Model, index: nat, a: Action, id: Id, d: ConfigTypeData, p: Id)
    ensures PolicyStamped(m, HandleConfigType(m, index, a, id, d), index, ConfigTypeEvent(a, id, d), p)
  {
    var e, hit := ConfigTypeEvent(a, id, d), if a.Delete? then {} else ServicesOfType(m, id);
    TypeHits(m, a, id, d);
    RefreshedPolicies(m, e, hit, p);
    BumpStamps(m, HandleConfigType(m, index, a, id, d), PoliciesOfServices(m.services, hit), index, e, p);
  }

  lemma ConfigPolicies(m: Model, index: nat, a: Action, id: Id, d: ConfigData, p: Id)
    ensures PolicyStamped(m, Handle(m, index, ConfigEvent(a, id, d)), index, ConfigEvent(a, id, d), p)
  {
    var e := ConfigEvent(a, id, d);
    var hit := if a.Delete? then ServicesUsing(m.configs, id) else ServicesChangedBy(m.configs, id, d);
    ConfigHits(m, a, id, d);
    RefreshedPolicies(m, e, hit, p);
    BumpStamps(m, Handle(m, index, e), PoliciesOfServices(m.services, hit), index, e, p);
  }

  // Deletes detach through the same changes a sender would make.
  lemma DetachStamps(kind: RelatedType, m: Model, n: Model, index: nat, id: Id, pids: set<Id>, e: Event, p: Id)
    requires DetachedPolicies(kind, m.policies, n.policies, index, id, pids) && NoRaise(e) && !e.PolicyEvent?
    requires p in m.policies ==> (StampsServices(m, e, p) <==> kind.RelatedService? && p in pids)
    requires p in m.policies ==> (StampsChecks(m, e, p) <==> kind.RelatedPostureCheck? && p in pids)
    requires !RaisesChecks(m, e, p)
    ensures PolicyStamped(m, n, index, e, p)
  {
    NothingRaised(m, e, p);
  }

  lemma DeleteServicePolicies(m: Model, index: nat, id: Id, d: ServiceData, p: Id)
    requires ServicesLinked(m.services, m.policies)
    ensures PolicyStamped(m, DeleteService(m, index, id), index, ServiceEvent(Delete, id, d), p)
  {
    var e := ServiceEvent(Delete, id, d);
    NothingRaised(m, e, p);
    if id in m.services {
      var s := m.services[id];
      var o := m.(services := m.services - {id},
                  configs := RelinkServices(m.configs, id, Elems(s.data.configs), {}),
                  names := Unname(m.names, s.data.name, id));
      var pids := PoliciesListingService(m, id);
      DetachAll(RelatedService, o, index, id, pids);
      DetachStamps(RelatedService, m, Fold(Detach(RelatedService, index, id), pids, o), index, id, pids, e, p);
    }
  }

  lemma DeleteCheckPolicies(m: Model, index: nat, id: Id, d: CheckData, p: Id)
    requires ChecksLinked(m.checks, m.policies)
    ensures PolicyStamped(m, DeleteCheck(m, index, id), index, CheckEvent(Delete, id, d), p)
  {
    var pids := PoliciesListingCheck(m, id);
    DetachAll(RelatedPostureCheck, m, index, id, pids);
    DetachStamps(RelatedPostureCheck, m, Fold(Detach(RelatedPostureCheck, index, id), pids, m), index, id, pids, CheckEvent(Delete, id, d), p);
  }

  lemma DeleteIdentityPolicies(m: Model, index: nat, id: Id, d: IdentityData, p: Id)
    ensures PolicyStamped(m, DeleteIdentity(m, index, id), index, IdentityEvent(Delete, id, d), p)
  {
    var n := m.(configs := Relink(m.configs, id, ConfigsOf(m, id), {}));
    var pids := PoliciesListingIdentity(n, id);
    NothingRaised(m, IdentityEvent(Delete, id, d), p);
    if id in m.identities {
      DetachAll(RelatedIdentity, n, index, id, pids);
      DetachStamps(RelatedIdentity, m, Fold(Detach(RelatedIdentity, index, id), pids, n), index, id, pids, IdentityEvent(Delete, id, d), p);
    }
  }

  lemma UpsertCheckPolicies(m: Model, index: nat, a: Action, id: Id, d: CheckData, p: Id)
    requires !a.Delete?
    ensures PolicyStamped(m, UpsertCheck(m, index, id, d), index, CheckEvent(a, id, d), p)
  {
    NothingRaised(m, CheckEvent(a, id, d), p);
  }

  lemma PolicyEventStamps(m: Model, index: nat, a: Action, id: Id, d: PolicyData, p: Id)
    ensures PolicyStamped(m, Handle(m, index, PolicyEvent(a, id, d)), index, PolicyEvent(a, id, d), p)
  {
    NothingRaised(m, PolicyEvent(a, id, d), p);
  }

  lemma ChangedPolicyIndices(p: Policy, live: set<Id>, index: nat, c: PolicyChange)
    ensures var q := ChangedPolicy(p, live, index, c);
            && q.servicesIndex == (if c.relatedType.RelatedService? then index else p.servicesIndex)
            && q.checksIndex == (if c.relatedType.RelatedPostureCheck? then index else p.checksIndex)
  {
  }

  lemma ChangeStamps(m: Model, index: nat, c: PolicyChange, p: Id)
    ensures PolicyStamped(m, HandlePolicyChange(m, index, c), index, PolicyChangeEvent(c), p)
  {
    NothingRaised(m, PolicyChangeEvent(c), p);
    if c.policyId in m.policies {
      ChangedPolicyIndices(m.policies[c.policyId], m.identities.Keys, index, c);
    }
  }

  lemma UntouchedPolicies(m: Model, index: nat, e: Event, p: Id)
    requires (e.IdentityEvent? && !e.action.Delete?) || e.RouterEvent? || e.KeyEvent? || e.RevocationEvent?
    ensures PolicyStamped(m, Handle(m, index, e), index, e, p)
  {
    NothingRaised(m, e, p);
    assert Handle(m, index, e).policies == m.policies;
  }

  // Which of a policy's two indices an event moves, and where to.
  lemma HandleStampsPolicy(m: Model, index: nat, e: Event, p: Id)
    requires ServicesLinked(m.services, m.policies) && ChecksLinked(m.checks, m.policies)
    ensures PolicyStamped(m, Handle(m, index, e), index, e, p)
  {
    match e
    case ConfigTypeEvent(a, id, d) => ConfigTypePolicies(m, index, a, id, d, p);
    case ConfigEvent(a, id, d) => ConfigPolicies(m, index, a, id, d, p);
    case IdentityEvent(a, id, d) => if a.Delete? { DeleteIdentityPolicies(m, index, id, d, p); } else { UntouchedPolicies(m, index, e, p); }
    case ServiceEvent(a, id, d) =>
      if a.Delete? { DeleteServicePolicies(m, index, id, d, p); } else { UpsertServiceStamps(m, index, a, id, d, p); }
    case CheckEvent(a, id, d) => if a.Delete? { DeleteCheckPolicies(m, index, id, d, p); } else { UpsertCheckPolicies(m, index, a, id, d, p); }
    case PolicyEvent(a, id, d) => PolicyEventStamps(m, index, a, id, d, p);
    case PolicyChangeEvent(c) => ChangeStamps(m, index, c, p);
    case _ => UntouchedPolicies(m, index, e, p);
  }

  /* ---- whole runs ---- */

  // The event is to the policy or its members, or to a service, a config or a
  // check it is linked to.
  ghost predicate Touches(m: Model, e: Event, p: Id) {
    Sets(e, p) || StampsServices(m, e, p) || RaisesServices(m, e, p) || StampsChecks(m, e, p) || RaisesChecks(m, e, p)
  }

  ghost predicate Touched(m: Model, ops: seq<Op>, p: Id) {
    ops != [] &&
      var init, last := ops[..|ops| - 1], ops[|ops| - 1];
      Touched(m, init, p) || (last.Apply? && Touches(PerformAll(m, init), last.event, p))
  }

  function Latest(p: Policy): nat {
    Max(p.checksIndex, p.servicesIndex)
  }

  ghost predicate LatestAfter(m: Model, n: Model, p: Id, touched: bool, b: nat) {
    p in n.policies ==> if touched then Latest(n.policies[p]) > b else p in m.policies && Latest(n.policies[p]) == Latest(m.policies[p])
  }

  ghost predicate OpStamped(m: Model, n: Model, op: Op, p: Id) {
    if op.Apply? then PolicyStamped(m, n, op.index, op.event, p) else n.policies == m.policies
  }

  lemma PerformStampsPolicy(m: Model, op: Op, p: Id)
    requires Inv(m)
    ensures OpStamped(m, Perform(m, op), op, p)
  {
    if op.Apply? {
      HandleStampsPolicy(m, op.index, op.event, p);
    }
  }

  lemma StampStep(m: Model, n: Model, o: Model, op: Op, p: Id, touched: bool, b: nat)
    requires OpStamped(n, o, op, p) && (op.Apply? ==> op.index > b) && LatestAfter(m, n, p, touched, b)
    ensures LatestAfter(m, o, p, touched || (op.Apply? && Touches(n, op.event, p)), b)
  {
  }

  // The later of a policy's two indices is beyond b exactly when some event of
  // the run touched it.
  lemma {:induction false} RunStampsPolicy(m: Model, ops: seq<Op>, p: Id, b: nat)
    requires Inv(m) && Sound(m, ops)
    requires forall k :: 0 <= k < |ops| && ops[k].Apply? ==> ops[k].index > b
    ensures LatestAfter(m, PerformAll(m, ops), p, Touched(m, ops, p), b)
  {
    if ops != [] {
      var init, last := ops[..|ops| - 1], ops[|ops| - 1];
      RunStampsPolicy(m, init, p, b);
      RunKeepsInv(m, init);
      PerformStampsPolicy(PerformAll(m, init), last, p);
      StampStep(m, PerformAll(m, init), PerformAll(m, ops), last, p, Touched(m, init, p), b);
    }
  }

  /* ---- access rebuilt from the policies ---- */

  // x is the latest index among the policies.
  ghost predicate IsLatestOf(ps: map<Id, Policy>, pids: set<Id>, x: nat) {
    && (forall p :: p in pids && p in ps ==> Latest(ps[p]) <= x)
    && (x == 0 || exists p :: p in pids && p in ps && Latest(ps[p]) == x)
  }

  lemma LatestOfMore(ps: map<Id, Policy>, pids: set<Id>, x: nat, p: Id)
    requires IsLatestOf(ps, pids, x) && p in ps
    ensures IsLatestOf(ps, pids + {p}, Max(x, Latest(ps[p])))
  {
    if Latest(ps[p]) > x {
      assert p in pids + {p};
    } else if x != 0 {
      var q :| q in pids && q in ps && Latest(ps[q]) == x;
      assert q in pids + {p};
    }
  }

  lemma GrantingMore(ps: map<Id, Policy>, mine: set<Id>, p: Id, t: PolicyType, s: Id)
    requires p in mine
    ensures Granting(ps, mine, t, s) ==
            if Grants(ps, p, t, s) then Granting(ps, mine - {p}, t, s) + {p} else Granting(ps, mine - {p}, t, s)
  {
  }

  // An entry rebuilt from scratch shows for each type the latest index of the
  // policies of that type that grant the service.
  lemma {:induction false} BuildShowsLatest(ps: map<Id, Policy>, mine: set<Id>, t: PolicyType, s: Id)
    requires !t.InvalidPolicy? && mine <= ps.Keys
    ensures IsLatestOf(ps, Granting(ps, mine, t, s), IndexOf(CurrentAccess(BuildAccess(ps, mine), s), t))
    decreases |mine|
  {
    if mine != {} {
      var p :| p in mine && BuildAccess(ps, mine) == Recorder(ps)(p, BuildAccess(ps, mine - {p}));
      var x := IndexOf(CurrentAccess(BuildAccess(ps, mine - {p}), s), t);
      BuildShowsLatest(ps, mine - {p}, t, s);
      GrantingMore(ps, mine, p, t, s);
      if Grants(ps, p, t, s) {
        LatestOfMore(ps, Granting(ps, mine - {p}, t, s), x, p);
      }
    }
  }

  lemma RebuiltShowsLatest(n: Model, i: Id, t: PolicyType, s: Id)
    requires Inv(n) && i in n.identities && !n.identities[i].tracking && !t.InvalidPolicy?
    ensures IsLatestOf(n.policies, Joining(n, i, t, s), IndexOf(CurrentAccess(EnableTracking(n, i).identities[i].access, s), t))
  {
    var mine := n.identities[i].policies;
    JoinIsGranting(n, i);
    assert mine <= n.policies.Keys;
    BuildShowsLatest(n.policies, mine, t, s);
  }

  // When tracking is turned on, an entry's index is beyond b exactly when a
  // policy that grants the service was touched since everything up to b.
  lemma RebuiltIndexIff(selfId: Id, before: seq<Op>, after: seq<Op>, i: Id, t: PolicyType, s: Id, b: nat, m: Model, n: Model)
    requires Sound(EmptyModel(selfId), before) && m == PerformAll(EmptyModel(selfId), before)
    requires Sound(m, after) && n == PerformAll(m, after)
    requires forall k :: 0 <= k < |before| && before[k].Apply? ==> before[k].index <= b
    requires forall k :: 0 <= k < |after| && after[k].Apply? ==> after[k].index > b
    requires i in n.identities && !n.identities[i].tracking && !t.InvalidPolicy?
    ensures var access := EnableTracking(n, i).identities[i].access;
            IndexOf(CurrentAccess(access, s), t) > b <==> exists p :: p in Joining(n, i, t, s) && Touched(m, after, p)
  {
    ReachableIsInv(selfId, before);
    RunKeepsInv(m, after);
    RunBounded(selfId, before, b);
    RebuiltShowsLatest(n, i, t, s);
    forall p
      ensures LatestAfter(m, n, p, Touched(m, after, p), b)
    {
      RunStampsPolicy(m, after, p, b);
    }
    LatestIsTouched(m, n, after, Joining(n, i, t, s), IndexOf(CurrentAccess(EnableTracking(n, i).identities[i].access, s), t), b);
  }

  lemma LatestIsTouched(m: Model, n: Model, after: seq<Op>, pids: set<Id>, x: nat, b: nat)
    requires IsLatestOf(n.policies, pids, x) && pids <= n.policies.Keys && PoliciesWithin(m.policies, b)
    requires forall p :: LatestAfter(m, n, p, Touched(m, after, p), b)
    ensures x > b <==> exists p :: p in pids && Touched(m, after, p)
  {
    if x > b {
      var p :| p in pids && p in n.policies && Latest(n.policies[p]) == x;
      assert LatestAfter(m, n, p, Touched(m, after, p), b);
    }
    if p :| p in pids && Touched(m, after, p) {
      assert LatestAfter(m, n, p, Touched(m, after, p), b);
    }
  }
}
