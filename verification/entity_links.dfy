// The references through which a change is passed on, from a config to the
// services that list it and the identities that override a service with it,
// and from a service or posture check to its policies: exactly which events
// make and end them.
module EntityLinks {
  import opened DataState
  import opened RelationalView
  import opened ReceiverSpec
  import opened ReceiverInvariant
  import opened ReceiverSteps
  import opened ReceiverRuns
  import opened VersionStamps
  import ServiceVersions

  predicate Linked(m: Model, c: Id, s: Id) {
    c in m.configs && s in m.configs[c].services
  }

  predicate LinkedTo(m: Model, c: Id, i: Id) {
    c in m.configs && i in m.configs[c].identities
  }

  function Count(ids: seq<Id>, c: Id): nat {
    multiset(ids)[c]
  }

  // A service is linked to the configs its list comes to name while they are
  // there, and until the list names them no more. Anything else leaves the link.
  predicate ServiceLinkMoves(m: Model, n: Model, e: Event, c: Id, s: Id) {
    c in n.configs ==>
      (s in n.configs[c].services <==>
         if !(e.ServiceEvent? && e.id == s) then Linked(m, c, s)
         else if e.action.Delete? then Linked(m, c, s) && !(s in m.services && c in m.services[s].data.configs)
         else if s !in m.services then Linked(m, c, s) || c in e.service.configs
         else
           var was, now := Count(m.services[s].data.configs, c), Count(e.service.configs, c);
           was < now || (was == now && Linked(m, c, s)))
  }

  // An identity is linked to the configs its payload names while they are there.
  predicate IdentityLinkMoves(m: Model, n: Model, e: Event, c: Id, i: Id) {
    c in n.configs ==>
      (i in n.configs[c].identities <==>
         if e.IdentityEvent? && e.id == i then !e.action.Delete? && c in ReferencedConfigs(e.identity) else LinkedTo(m, c, i))
  }

  lemma SurplusIff(a: seq<Id>, b: seq<Id>, c: Id)
    ensures c in Surplus(a, b) <==> Count(a, c) > Count(b, c)
  {
    assert c in a <==> multiset(a)[c] > 0;
  }

  lemma UpsertServiceLinks(m: Model, index: nat, a: Action, id: Id, d: ServiceData, c: Id, s: Id)
    requires !a.Delete?
    ensures ServiceLinkMoves(m, UpsertService(m, index, id, d), ServiceEvent(a, id, d), c, s)
  {
    if id in m.services {
      SurplusIff(m.services[id].data.configs, d.configs, c);
      SurplusIff(d.configs, m.services[id].data.configs, c);
    }
  }

  lemma DeleteServiceLinks(m: Model, index: nat, id: Id, d: ServiceData, c: Id, s: Id)
    ensures ServiceLinkMoves(m, DeleteService(m, index, id), ServiceEvent(Delete, id, d), c, s)
    ensures c in DeleteService(m, index, id).configs ==>
            c in m.configs && DeleteService(m, index, id).configs[c].identities == m.configs[c].identities
  {
    if id in m.services {
      var v := m.services[id];
      var n := m.(services := m.services - {id},
                  configs := RelinkServices(m.configs, id, Elems(v.data.configs), {}),
                  names := Unname(m.names, v.data.name, id));
      DetachKeepsConfigs(RelatedService, n, index, id, PoliciesListingService(m, id));
    }
  }

  lemma DeleteIdentityLinks(m: Model, index: nat, id: Id, d: IdentityData, c: Id, i: Id)
    requires ConfigsLinked(m.configs, m.identities)
    ensures IdentityLinkMoves(m, DeleteIdentity(m, index, id), IdentityEvent(Delete, id, d), c, i)
    ensures c in DeleteIdentity(m, index, id).configs ==>
            c in m.configs && DeleteIdentity(m, index, id).configs[c].services == m.configs[c].services
  {
    var n := m.(configs := Relink(m.configs, id, ConfigsOf(m, id), {}));
    DetachKeepsConfigs(RelatedIdentity, n, index, id, PoliciesListingIdentity(n, id));
  }

  lemma UpsertIdentityLinks(m: Model, index: nat, a: Action, id: Id, d: IdentityData, c: Id, i: Id)
    requires ConfigsLinked(m.configs, m.identities) && !a.Delete?
    ensures IdentityLinkMoves(m, UpsertIdentity(m, index, id, d), IdentityEvent(a, id, d), c, i)
  {
  }

  lemma ConfigEventLinks(m: Model, index: nat, a: Action, id: Id, d: ConfigData, c: Id, x: Id)
    ensures var e, n := ConfigEvent(a, id, d), Handle(m, index, ConfigEvent(a, id, d));
            ServiceLinkMoves(m, n, e, c, x) && IdentityLinkMoves(m, n, e, c, x)
  {
  }

  lemma OtherEventLinks(m: Model, index: nat, e: Event, c: Id, x: Id)
    requires !e.ConfigEvent? && !e.ServiceEvent? && !e.IdentityEvent?
    ensures ServiceLinkMoves(m, Handle(m, index, e), e, c, x) && IdentityLinkMoves(m, Handle(m, index, e), e, c, x)
  {
    match e
    case ConfigTypeEvent(a, id, d) => assert HandleConfigType(m, index, a, id, d).configs == m.configs;
    case RouterEvent(a, id, d) =>
    case _ => PlainEventsKeepConfigs(m, index, e);
  }

  // What each event does to the links of each config.
  lemma HandleMovesLinks(m: Model, index: nat, e: Event, c: Id, x: Id)
    requires ConfigsLinked(m.configs, m.identities)
    ensures ServiceLinkMoves(m, Handle(m, index, e), e, c, x) && IdentityLinkMoves(m, Handle(m, index, e), e, c, x)
  {
    match e
    case ConfigEvent(a, id, d) => ConfigEventLinks(m, index, a, id, d, c, x);
    case ServiceEvent(a, id, d) =>
      if a.Delete? { DeleteServiceLinks(m, index, id, d, c, x); } else { UpsertServiceLinks(m, index, a, id, d, c, x); }
    case IdentityEvent(a, id, d) =>
      if a.Delete? { DeleteIdentityLinks(m, index, id, d, c, x); } else { UpsertIdentityLinks(m, index, a, id, d, c, x); }
    case _ => OtherEventLinks(m, index, e, c, x);
  }

  /* ---- policies ---- */

  // A service knows the policies it was added to and not removed from since;
  // likewise a posture check.
  predicate PolicyLinkMoves(m: Model, n: Model, e: Event, s: Id, p: Id) {
    s in n.services ==>
      (p in n.services[s].policies <==>
         if e.PolicyChangeEvent? && e.change.relatedType.RelatedService? && e.change.policyId == p && p in m.policies && s in e.change.relatedIds
         then e.change.add else s in m.services && p in m.services[s].policies)
  }

  predicate CheckLinkMoves(m: Model, n: Model, e: Event, c: Id, p: Id) {
    c in n.checks ==>
      (p in n.checks[c].policies <==>
         if e.PolicyChangeEvent? && e.change.relatedType.RelatedPostureCheck? && e.change.policyId == p && p in m.policies && c in e.change.relatedIds
         then e.change.add else c in m.checks && p in m.checks[c].policies)
  }

  lemma LinkMoves(ss: map<Id, Service>, cs: map<Id, Check>, ids: seq<Id>, pid: Id, add: bool, x: Id, p: Id)
    ensures x in ss ==> (p in LinkServices(ss, Elems(ids), pid, add)[x].policies <==> if p == pid && x in ids then add else p in ss[x].policies)
    ensures x in cs ==> (p in LinkChecks(cs, Elems(ids), pid, add)[x].policies <==> if p == pid && x in ids then add else p in cs[x].policies)
  {
    assert x in Elems(ids) <==> x in ids;
  }

  lemma ChangeMovesServiceLinks(m: Model, index: nat, c: PolicyChange, x: Id, p: Id)
    ensures PolicyLinkMoves(m, HandlePolicyChange(m, index, c), PolicyChangeEvent(c), x, p)
  {
    LinkMoves(m.services, m.checks, c.relatedIds, c.policyId, c.add, x, p);
  }

  lemma ChangeMovesCheckLinks(m: Model, index: nat, c: PolicyChange, x: Id, p: Id)
    ensures CheckLinkMoves(m, HandlePolicyChange(m, index, c), PolicyChangeEvent(c), x, p)
  {
    LinkMoves(m.services, m.checks, c.relatedIds, c.policyId, c.add, x, p);
  }

  predicate SamePolicies(m: Model, n: Model, x: Id) {
    && (x in n.services ==> n.services[x].policies == if x in m.services then m.services[x].policies else {})
    && (x in n.checks ==> n.checks[x].policies == if x in m.checks then m.checks[x].policies else {})
  }

  lemma RefreshKeepsPolicies(m: Model, n: Model, hit: set<Id>, index: nat, x: Id)
    requires n.services == RefreshServices(m.services, hit, index) && n.checks == m.checks
    ensures SamePolicies(m, n, x)
  {
  }

  lemma ConfigTypeKeepsPolicies(m: Model, index: nat, a: Action, id: Id, d: ConfigTypeData, x: Id)
    ensures SamePolicies(m, HandleConfigType(m, index, a, id, d), x)
  {
    RefreshKeepsPolicies(m, HandleConfigType(m, index, a, id, d), if a.Delete? then {} else ServicesOfType(m, id), index, x);
  }

  lemma ConfigKeepsPolicies(m: Model, index: nat, a: Action, id: Id, d: ConfigData, x: Id)
    ensures SamePolicies(m, Handle(m, index, ConfigEvent(a, id, d)), x)
  {
    RefreshKeepsPolicies(m, DeleteConfig(m, index, id), ServicesUsing(m.configs, id), index, x);
    RefreshKeepsPolicies(m, UpsertConfig(m, index, id, d), ServicesChangedBy(m.configs, id, d), index, x);
  }

  lemma ServicesKeepPolicies(m: Model, index: nat, a: Action, id: Id, d: ServiceData, x: Id)
    ensures SamePolicies(m, Handle(m, index, ServiceEvent(a, id, d)), x)
  {
    ServiceVersions.DeleteServiceMovesNothing(m, index, id);
  }

  lemma ChecksKeepPolicies(m: Model, index: nat, a: Action, id: Id, d: CheckData, x: Id)
    ensures SamePolicies(m, Handle(m, index, CheckEvent(a, id, d)), x)
  {
    DeletedCheckGone(m, index, id);
  }

  lemma OthersKeepPolicies(m: Model, index: nat, e: Event, x: Id)
    requires e.IdentityEvent? || e.RouterEvent? || e.PolicyEvent? || e.KeyEvent? || e.RevocationEvent?
    ensures SamePolicies(m, Handle(m, index, e), x)
  {
    if e.IdentityEvent? && e.action.Delete? {
      ServiceVersions.DeleteIdentityMovesNothing(m, index, e.id);
    } else {
      ServiceVersions.OthersMoveNothing(m, index, e);
    }
  }

  lemma HandleMovesPolicyLinks(m: Model, index: nat, e: Event, x: Id, p: Id)
    ensures PolicyLinkMoves(m, Handle(m, index, e), e, x, p) && CheckLinkMoves(m, Handle(m, index, e), e, x, p)
  {
    match e
    case ConfigTypeEvent(a, id, d) => ConfigTypeKeepsPolicies(m, index, a, id, d, x);
    case ConfigEvent(a, id, d) => ConfigKeepsPolicies(m, index, a, id, d, x);
    case ServiceEvent(a, id, d) => ServicesKeepPolicies(m, index, a, id, d, x);
    case CheckEvent(a, id, d) => ChecksKeepPolicies(m, index, a, id, d, x);
    case PolicyChangeEvent(c) =>
      ChangeMovesServiceLinks(m, index, c, x, p);
      ChangeMovesCheckLinks(m, index, c, x, p);
    case _ => OthersKeepPolicies(m, index, e, x);
  }

  /* ---- whole runs ---- */

  lemma OthersKeepLive(m: Model, index: nat, e: Event)
    requires !e.ServiceEvent?
    ensures Handle(m, index, e).services.Keys == m.services.Keys
  {
    match e
    case ConfigTypeEvent(a, id, d) => assert HandleConfigType(m, index, a, id, d).services.Keys == m.services.Keys;
    case ConfigEvent(a, id, d) =>
      assert DeleteConfig(m, index, id).services.Keys == UpsertConfig(m, index, id, d).services.Keys == m.services.Keys;
    case IdentityEvent(a, id, d) =>
      ServiceVersions.DeleteIdentityMovesNothing(m, index, id);
      assert UpsertIdentity(m, index, id, d).services == m.services;
    case RouterEvent(a, id, d) => assert HandleRouter(m, a, id, d).services == m.services;
    case PolicyEvent(a, id, d) => ServiceVersions.OthersMoveNothing(m, index, e);
    case CheckEvent(a, id, d) =>
      DeletedCheckGone(m, index, id);
      assert UpsertCheck(m, index, id, d).services == m.services;
    case KeyEvent(a, id, d) =>
    case RevocationEvent(a, id, d) =>
    case PolicyChangeEvent(c) => assert HandlePolicyChange(m, index, c).services.Keys == m.services.Keys;
  }

  lemma ServiceLives(m: Model, index: nat, e: Event, s: Id)
    ensures s in Handle(m, index, e).services <==>
            if e.ServiceEvent? && e.id == s then !e.action.Delete? else s in m.services
  {
    if e.ServiceEvent? {
      ServiceVersions.DeleteServiceMovesNothing(m, index, e.id);
      assert UpsertService(m, index, e.id, e.service).services.Keys == m.services.Keys + {e.id};
    } else {
      OthersKeepLive(m, index, e);
    }
  }

  predicate ListedIn(m: Model, c: Id, s: Id) {
    s in m.services && c in m.services[s].data.configs
  }

  ghost predicate LinksListed(m: Model) {
    forall c, s :: Linked(m, c, s) ==> ListedIn(m, c, s)
  }

  lemma CountIff(ids: seq<Id>, c: Id)
    ensures Count(ids, c) > 0 <==> c in ids
  {
  }

  lemma LinkStaysListed(m: Model, n: Model, index: nat, e: Event, c: Id, s: Id)
    requires Linked(m, c, s) ==> ListedIn(m, c, s)
    requires ServiceLinkMoves(m, n, e, c, s) && ServiceStamped(m, n, index, e, s) && Linked(n, c, s)
    requires s in n.services <==> if e.ServiceEvent? && e.id == s then !e.action.Delete? else s in m.services
    ensures ListedIn(n, c, s)
  {
    if e.ServiceEvent? && e.id == s && !e.action.Delete? {
      CountIff(e.service.configs, c);
      CountIff(Sort(e.service.configs), c);
      if s in m.services {
        CountIff(m.services[s].data.configs, c);
      }
    }
  }

  lemma HandleKeepsListed(m: Model, index: nat, e: Event)
    requires ConfigsLinked(m.configs, m.identities) && LinksListed(m)
    ensures LinksListed(Handle(m, index, e))
  {
    forall c, s | Linked(Handle(m, index, e), c, s)
      ensures ListedIn(Handle(m, index, e), c, s)
    {
      HandleMovesLinks(m, index, e, c, s);
      HandleStampsService(m, index, e, s);
      ServiceLives(m, index, e, s);
      LinkStaysListed(m, Handle(m, index, e), index, e, c, s);
    }
  }

  lemma SameLinksListed(m: Model, n: Model)
    requires LinksListed(m) && n.configs == m.configs && n.services == m.services
    ensures LinksListed(n)
  {
    forall c, s | Linked(n, c, s)
      ensures ListedIn(n, c, s)
    {
      assert Linked(m, c, s);
    }
  }

  lemma PerformKeepsListed(m: Model, op: Op)
    requires ConfigsLinked(m.configs, m.identities) && LinksListed(m)
    ensures LinksListed(Perform(m, op))
  {
    match op
    case Apply(index, e) => HandleKeepsListed(m, index, e);
    case Track(id) => SameLinksListed(m, EnableTracking(m, id));
    case Untrack(id) => SameLinksListed(m, DisableTracking(m, id));
  }

  // In every reachable state a config is linked only to services that list it.
  lemma {:induction false} ReachableLinksListed(selfId: Id, ops: seq<Op>)
    requires Sound(EmptyModel(selfId), ops)
    ensures LinksListed(PerformAll(EmptyModel(selfId), ops))
  {
    if ops != [] {
      ReachableLinksListed(selfId, ops[..|ops| - 1]);
      assert ConfigsLinked(PerformAll(EmptyModel(selfId), ops[..|ops| - 1]).configs, PerformAll(EmptyModel(selfId), ops[..|ops| - 1]).identities) by {
        ReachableIsInv(selfId, ops[..|ops| - 1]);
      }
      PerformKeepsListed(PerformAll(EmptyModel(selfId), ops[..|ops| - 1]), ops[|ops| - 1]);
    }
  }
}
