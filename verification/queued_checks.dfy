// Exactly whom an event tells: the members of the policies that a change to
// something they are linked to passes through, and the identities a changed
// config overrides a service for.
module QueuedChecks {
  import opened DataState
  import opened ReceiverSpec
  import opened ReceiverInvariant
  import opened MissedChanges
  import opened VersionStamps

  // The event reaches the members of policy p: it is to its members or its
  // deletion, or to a service, config or check the policy is linked to. An
  // update of the policy itself reaches nobody.
  ghost predicate Passes(m: Model, e: Event, p: Id) {
    || RaisesServices(m, e, p) || StampsChecks(m, e, p) || RaisesChecks(m, e, p)
    || (e.ServiceEvent? && StampsServices(m, e, p))
    || (e.PolicyChangeEvent? && e.change.policyId == p)
    || (e.PolicyEvent? && e.action.Delete? && e.id == p)
    || (e.IdentityEvent? && e.action.Delete? && p in m.policies && e.id in m.policies[p].identities)
  }

  ghost predicate ReachedByPolicy(m: Model, e: Event, i: Id) {
    exists p :: p in m.policies && i in m.policies[p].identities && Passes(m, e, p)
  }

  ghost predicate Overridden(m: Model, e: Event, i: Id) {
    exists c :: c in ConfigsTouched(m, e) && c in m.configs && i in m.configs[c].identities
  }

  predicate OwnUpdate(e: Event, i: Id) {
    e.IdentityEvent? && e.action.Update? && e.id == i
  }

  predicate JoinsOrLeaves(m: Model, e: Event, i: Id) {
    && e.PolicyChangeEvent? && e.change.relatedType.RelatedIdentity? && e.change.policyId in m.policies
    && i in e.change.relatedIds && i in m.identities
  }

  ghost predicate Told(m: Model, e: Event, i: Id) {
    OwnUpdate(e, i) || JoinsOrLeaves(m, e, i) || ReachedByPolicy(m, e, i) || Overridden(m, e, i)
  }

  lemma MembersIff(m: Model, pids: set<Id>, e: Event, i: Id)
    requires forall p :: p in m.policies ==> (p in pids <==> Passes(m, e, p))
    ensures i in Members(m.policies, pids) <==> ReachedByPolicy(m, e, i)
  {
    if i in Members(m.policies, pids) {
      var p :| p in pids && p in m.policies && i in m.policies[p].identities;
      assert Passes(m, e, p);
    }
  }

  lemma NoneRefreshed(m: Model, e: Event)
    requires !e.ConfigEvent? && !e.ConfigTypeEvent?
    ensures forall s :: !Refreshes(m, e, s)
    ensures forall i :: !Overridden(m, e, i)
  {
    assert ConfigsTouched(m, e) == {};
  }

  lemma ConfigsPass(m: Model, e: Event, cs: set<Id>, i: Id)
    requires (e.ConfigEvent? || e.ConfigTypeEvent?) && forall c :: c in m.configs ==> (c in cs <==> c in ConfigsTouched(m, e))
    requires ConfigsLinked(m.configs, m.identities)
    ensures i in MissedChanges.Told(m, cs) <==> Told(m, e, i)
  {
    var pids := PoliciesOfServices(m.services, ServicesLinkedTo(m.configs, cs));
    forall p | p in m.policies
      ensures p in pids <==> Passes(m, e, p)
    {
      if p in pids {
        var s :| s in ServicesLinkedTo(m.configs, cs) && s in m.services && p in m.services[s].policies;
        var c :| c in cs && c in m.configs && s in m.configs[c].services;
        assert Refreshes(m, e, s);
      }
      if RaisesServices(m, e, p) {
        var s :| s in m.services && p in m.services[s].policies && Refreshes(m, e, s);
        var c :| c in ConfigsTouched(m, e) && c in m.configs && s in m.configs[c].services;
        assert s in ServicesLinkedTo(m.configs, cs);
      }
    }
    MembersIff(m, pids, e, i);
    if Overridden(m, e, i) {
      var c :| c in ConfigsTouched(m, e) && c in m.configs && i in m.configs[c].identities;
      assert c in cs;
    }
  }

  lemma ServiceEventTells(m: Model, e: Event, i: Id)
    requires Inv(m) && e.ServiceEvent?
    ensures i in QueuedUpdates(m, e) <==> Told(m, e, i)
  {
    NoneRefreshed(m, e);
    var pids := if e.action.Delete? then PoliciesListingService(m, e.id) else PoliciesOf(m.services, e.id);
    forall p | p in m.policies
      ensures p in pids <==> Passes(m, e, p)
    {
      if !e.action.Delete? && p in pids {
        assert RaisesServices(m, e, p);
      }
    }
    MembersIff(m, pids, e, i);
  }

  lemma CheckEventTells(m: Model, e: Event, i: Id)
    requires Inv(m) && e.CheckEvent?
    ensures i in QueuedUpdates(m, e) <==> Told(m, e, i)
  {
    NoneRefreshed(m, e);
    MembersIff(m, if e.action.Delete? then PoliciesListingCheck(m, e.id) else PoliciesOfCheck(m.checks, e.id), e, i);
  }

  lemma IdentityEventTells(m: Model, e: Event, i: Id)
    requires Inv(m) && e.IdentityEvent?
    ensures i in QueuedUpdates(m, e) <==> Told(m, e, i)
  {
    NoneRefreshed(m, e);
    MembersIff(m, if e.action.Delete? then PoliciesListingIdentity(m, e.id) else {}, e, i);
  }

  lemma PolicyEventsTell(m: Model, e: Event, i: Id)
    requires e.PolicyEvent? || e.PolicyChangeEvent? || e.RouterEvent? || e.KeyEvent? || e.RevocationEvent?
    ensures i in QueuedUpdates(m, e) <==> Told(m, e, i)
  {
    NoneRefreshed(m, e);
    var pids := if e.PolicyChangeEvent? then {e.change.policyId} else if e.PolicyEvent? && e.action.Delete? then {e.id} else {};
    MembersIff(m, pids, e, i);
  }

  // An update check is queued for exactly these identities.
  lemma QueuedIff(m: Model, e: Event, i: Id)
    requires Inv(m)
    ensures i in QueuedUpdates(m, e) <==> Told(m, e, i)
  {
    match e
    case ConfigTypeEvent(a, id, d) => ConfigsPass(m, e, if a.Delete? then {} else ConfigsOfType(m, id), i);
    case ConfigEvent(a, id, d) =>
      ConfigsPass(m, e, if !a.Delete? && id in m.configs && m.configs[id].data == d then {} else {id}, i);
    case IdentityEvent(a, id, d) => IdentityEventTells(m, e, i);
    case ServiceEvent(a, id, d) => ServiceEventTells(m, e, i);
    case CheckEvent(a, id, d) => CheckEventTells(m, e, i);
    case _ => PolicyEventsTell(m, e, i);
  }
}
