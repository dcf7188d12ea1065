// The plain relational content of a router data model, with no indices, use
// counts or reverse references, and the reference meaning of each event on it.
// Both ends of the replication are proved to refine this.
module RelationalView {
  import opened DataState

  datatype PolicyView = PolicyView(data: PolicyData, services: set<Id>, checks: set<Id>, identities: set<Id>)

  // The receiver re-sorts a service's config list when it applies an update, so
  // only which configs are listed is common to both ends, not their order.
  datatype ServiceView = ServiceView(name: string, encryptionRequired: bool, configs: multiset<Id>)

  function ViewOfService(d: ServiceData): ServiceView {
    ServiceView(d.name, d.encryptionRequired, multiset(d.configs))
  }

  datatype View = View(
    configTypes: map<Id, ConfigTypeData>,
    configs: map<Id, ConfigData>,
    identities: map<Id, IdentityData>,
    services: map<Id, ServiceView>,
    routers: map<Id, RouterData>,
    policies: map<Id, PolicyView>,
    checks: map<Id, CheckData>,
    keys: map<Id, KeyData>,
    revocations: map<Id, RevocationData>)

  const EMPTY_VIEW := View(map[], map[], map[], map[], map[], map[], map[], map[], map[])

  // Entities exist before they are referenced; members are added once and
  // removed only while present. The receiver counts service and posture check
  // memberships blindly, so this is what it demands of its controller.
  predicate WellFormedChange(v: View, c: PolicyChange) {
    && c.policyId in v.policies
    && var p := v.policies[c.policyId];
       match c.relatedType
       case RelatedIdentity => Elems(c.relatedIds) <= v.identities.Keys
       case RelatedService =>
         && Distinct(c.relatedIds)
         && (if c.add then Elems(c.relatedIds) <= v.services.Keys && Elems(c.relatedIds) !! p.services
             else Elems(c.relatedIds) <= p.services)
       case RelatedPostureCheck =>
         && Distinct(c.relatedIds)
         && (if c.add then Elems(c.relatedIds) <= v.checks.Keys && Elems(c.relatedIds) !! p.checks
             else Elems(c.relatedIds) <= p.checks)
       case InvalidRelatedType => true
  }

  predicate WellFormed(v: View, e: Event) {
    match e
    case PolicyEvent(a, id, d) => a.Delete? || !d.policyType.InvalidPolicy?
    case PolicyChangeEvent(c) => WellFormedChange(v, c)
    case _ => true
  }

  // Memberships and config overrides are detached before the entity they hang
  // on is deleted, for the three kinds of entity the sender does not clean up after.
  predicate Detaches(v: View, e: Event) {
    match e
    case PolicyEvent(Delete, id, d) => id in v.policies ==> v.policies[id].identities == {}
    case CheckEvent(Delete, id, d) => forall p :: p in v.policies ==> id !in v.policies[p].checks
    case ConfigEvent(Delete, id, d) => forall i :: i in v.identities ==> id !in ReferencedConfigs(v.identities[i])
    case _ => true
  }

  function ChangePolicy(live: set<Id>, p: PolicyView, c: PolicyChange): PolicyView {
    var ids := Elems(c.relatedIds);
    match c.relatedType
    case RelatedIdentity =>
      p.(identities := if c.add then p.identities + ids * live else p.identities - ids)
    case RelatedService => p.(services := if c.add then p.services + ids else p.services - ids)
    case RelatedPostureCheck => p.(checks := if c.add then p.checks + ids else p.checks - ids)
    case InvalidRelatedType => p
  }

  function ChangePolicies(ps: map<Id, PolicyView>, live: set<Id>, c: PolicyChange): map<Id, PolicyView> {
    if c.policyId in ps then ps[c.policyId := ChangePolicy(live, ps[c.policyId], c)] else ps
  }

  function WithoutIdentity(ps: map<Id, PolicyView>, id: Id): (r: map<Id, PolicyView>)
    ensures r.Keys == ps.Keys
    ensures forall p :: p in r ==> r[p] == ps[p].(identities := ps[p].identities - {id})
  {
    map p | p in ps :: ps[p].(identities := ps[p].identities - {id})
  }

  function WithoutService(ps: map<Id, PolicyView>, id: Id): (r: map<Id, PolicyView>)
    ensures r.Keys == ps.Keys
    ensures forall p :: p in r ==> r[p] == ps[p].(services := ps[p].services - {id})
  {
    map p | p in ps :: ps[p].(services := ps[p].services - {id})
  }

  function WithoutCheck(ps: map<Id, PolicyView>, id: Id): (r: map<Id, PolicyView>)
    ensures r.Keys == ps.Keys
    ensures forall p :: p in r ==> r[p] == ps[p].(checks := ps[p].checks - {id})
  {
    map p | p in ps :: ps[p].(checks := ps[p].checks - {id})
  }

  // A policy keeps its members when its data changes.
  function SetPolicyData(ps: map<Id, PolicyView>, id: Id, d: PolicyData): map<Id, PolicyView> {
    if id in ps then ps[id := ps[id].(data := d)] else ps[id := PolicyView(d, {}, {}, {})]
  }

  function Step(v: View, e: Event): View {
    match e
    case ConfigTypeEvent(a, id, d) =>
      v.(configTypes := if a.Delete? then v.configTypes - {id} else v.configTypes[id := d])
    case ConfigEvent(a, id, d) =>
      v.(configs := if a.Delete? then v.configs - {id} else v.configs[id := d])
    case IdentityEvent(a, id, d) =>
      v.(identities := if a.Delete? then v.identities - {id} else v.identities[id := d],
         policies := if a.Delete? then WithoutIdentity(v.policies, id) else v.policies)
    case ServiceEvent(a, id, d) =>
      v.(services := if a.Delete? then v.services - {id} else v.services[id := ViewOfService(d)],
         policies := if a.Delete? then WithoutService(v.policies, id) else v.policies)
    case RouterEvent(a, id, d) =>
      v.(routers := if a.Delete? then v.routers - {id} else v.routers[id := d])
    case PolicyEvent(a, id, d) =>
      v.(policies := if a.Delete? then v.policies - {id} else SetPolicyData(v.policies, id, d))
    case CheckEvent(a, id, d) =>
      v.(checks := if a.Delete? then v.checks - {id} else v.checks[id := d],
         policies := if a.Delete? then WithoutCheck(v.policies, id) else v.policies)
    case KeyEvent(a, id, d) =>
      v.(keys := if a.Delete? then v.keys - {id} else v.keys[id := d])
    case RevocationEvent(a, id, d) =>
      v.(revocations := if a.Delete? then v.revocations - {id} else v.revocations[id := d])
    case PolicyChangeEvent(c) =>
      v.(policies := ChangePolicies(v.policies, v.identities.Keys, c))
  }

  function Run(v: View, es: seq<Event>): View {
    if es == [] then v else Step(Run(v, es[..|es| - 1]), es[|es| - 1])
  }

  predicate WellFormedRun(v: View, es: seq<Event>) {
    es != [] ==> WellFormedRun(v, es[..|es| - 1]) && WellFormed(Run(v, es[..|es| - 1]), es[|es| - 1])
  }

  predicate DetachingRun(v: View, es: seq<Event>) {
    es != [] ==> DetachingRun(v, es[..|es| - 1]) && Detaches(Run(v, es[..|es| - 1]), es[|es| - 1])
  }

  // Policies are dial or bind policies and their members are live entities.
  ghost predicate Coherent(v: View) {
    forall p :: p in v.policies ==> CoherentPolicy(v, v.policies[p])
  }

  ghost predicate CoherentPolicy(v: View, p: PolicyView) {
    && !p.data.policyType.InvalidPolicy?
    && p.services <= v.services.Keys
    && p.checks <= v.checks.Keys
    && p.identities <= v.identities.Keys
  }

  lemma ChangeKeepsCoherent(v: View, c: PolicyChange)
    requires Coherent(v) && WellFormedChange(v, c)
    ensures CoherentPolicy(v, ChangePolicy(v.identities.Keys, v.policies[c.policyId], c))
  {
    assert CoherentPolicy(v, v.policies[c.policyId]);
  }

  lemma StepKeepsCoherent(v: View, e: Event)
    requires Coherent(v) && WellFormed(v, e)
    ensures Coherent(Step(v, e))
  {
    var w := Step(v, e);
    match e
    case ConfigTypeEvent(a, id, d) =>
    case ConfigEvent(a, id, d) =>
    case IdentityEvent(a, id, d) =>
    case ServiceEvent(a, id, d) =>
    case RouterEvent(a, id, d) =>
    case PolicyEvent(a, id, d) =>
      if !a.Delete? && id in v.policies {
        assert CoherentPolicy(v, v.policies[id]);
      }
    case CheckEvent(a, id, d) =>
    case KeyEvent(a, id, d) =>
    case RevocationEvent(a, id, d) =>
    case PolicyChangeEvent(c) => ChangeKeepsCoherent(v, c);
  }

  // Nothing but config events looks at configs.
  lemma StepIgnoresConfigs(v: View, configs: map<Id, ConfigData>, e: Event)
    ensures WellFormed(v.(configs := configs), e) == WellFormed(v, e)
    ensures Detaches(v.(configs := configs), e) == Detaches(v, e)
    ensures Step(v.(configs := configs), e) == Step(v, e).(configs := Step(v.(configs := configs), e).configs)
    ensures !e.ConfigEvent? ==> Step(v.(configs := configs), e).configs == configs
  {
    match e
    case ConfigTypeEvent(a, id, d) =>
    case ConfigEvent(a, id, d) =>
    case IdentityEvent(a, id, d) =>
    case ServiceEvent(a, id, d) =>
    case RouterEvent(a, id, d) =>
    case PolicyEvent(a, id, d) =>
    case CheckEvent(a, id, d) =>
    case KeyEvent(a, id, d) =>
    case RevocationEvent(a, id, d) =>
    case PolicyChangeEvent(c) =>
  }

  lemma {:induction false} RunKeepsCoherent(v: View, es: seq<Event>)
    requires Coherent(v) && WellFormedRun(v, es)
    ensures Coherent(Run(v, es))
  {
    if es != [] {
      RunKeepsCoherent(v, es[..|es| - 1]);
      StepKeepsCoherent(Run(v, es[..|es| - 1]), es[|es| - 1]);
    }
  }

  lemma RunAppend(v: View, es: seq<Event>, e: Event)
    ensures Run(v, es + [e]) == Step(Run(v, es), e)
    ensures WellFormedRun(v, es) && WellFormed(Run(v, es), e) ==> WellFormedRun(v, es + [e])
    ensures DetachingRun(v, es) && Detaches(Run(v, es), e) ==> DetachingRun(v, es + [e])
  {
    assert (es + [e])[..|es + [e]| - 1] == es;
  }

  lemma {:induction false} RunConcat(v: View, a: seq<Event>, b: seq<Event>)
    ensures Run(v, a + b) == Run(Run(v, a), b)
    ensures WellFormedRun(v, a + b) == (WellFormedRun(v, a) && WellFormedRun(Run(v, a), b))
    ensures DetachingRun(v, a + b) == (DetachingRun(v, a) && DetachingRun(Run(v, a), b))
    decreases |b|
  {
    if b == [] {
      assert a + b == a;
    } else {
      assert (a + b)[..|a + b| - 1] == a + b[..|b| - 1];
      RunConcat(v, a, b[..|b| - 1]);
    }
  }
}
