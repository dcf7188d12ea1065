// Which identities an event queues a check for, which identities it shows
// differently, and exactly when the second are not among the first.
module MissedChanges {
  import opened DataState
  import opened RelationalView
  import opened ReceiverSpec
  import opened ReceiverCounts
  import opened ReceiverInvariant
  import opened ReceiverSteps
  import opened ServiceLists
  import opened IdentityViews
  import ConfigFilter
  import ServiceVersions

  /* ---- the checks an event queues ---- */

  function Members(ps: map<Id, Policy>, pids: set<Id>): set<Id> {
    set p, i | p in pids && p in ps && i in ps[p].identities :: i
  }

  function ServicesLinkedTo(configs: map<Id, Config>, cs: set<Id>): set<Id> {
    set c, s | c in cs && c in configs && s in configs[c].services :: s
  }

  function IdentitiesLinkedTo(configs: map<Id, Config>, cs: set<Id>): set<Id> {
    set c, i | c in cs && c in configs && i in configs[c].identities :: i
  }

  // A config tells the members of the policies of its services, and the
  // identities that override a service with it.
  function Told(m: Model, cs: set<Id>): set<Id> {
    Members(m.policies, PoliciesOfServices(m.services, ServicesLinkedTo(m.configs, cs))) +
    IdentitiesLinkedTo(m.configs, cs) * m.identities.Keys
  }

  function ConfigsOfType(m: Model, typeId: Id): set<Id> {
    set c | c in m.configs && m.configs[c].data.typeId == typeId
  }

  // The identities an event queues an update check for.
  function QueuedUpdates(m: Model, e: Event): set<Id> {
    match e
    case ConfigTypeEvent(a, id, d) => if a.Delete? then {} else Told(m, ConfigsOfType(m, id))
    case ConfigEvent(a, id, d) => if !a.Delete? && id in m.configs && m.configs[id].data == d then {} else Told(m, {id})
    case IdentityEvent(a, id, d) =>
      if a.Delete? then Members(m.policies, PoliciesListingIdentity(m, id)) else if a.Update? then {id} else {}
    case ServiceEvent(a, id, d) =>
      Members(m.policies, if a.Delete? then PoliciesListingService(m, id) else PoliciesOf(m.services, id))
    case RouterEvent(a, id, d) => {}
    case PolicyEvent(a, id, d) => if a.Delete? then Members(m.policies, {id}) else {}
    case CheckEvent(a, id, d) =>
      Members(m.policies, if a.Delete? then PoliciesListingCheck(m, id) else PoliciesOfCheck(m.checks, id))
    case KeyEvent(a, id, d) => {}
    case RevocationEvent(a, id, d) => {}
    case PolicyChangeEvent(c) =>
      Members(m.policies, {c.policyId}) +
      (if c.relatedType.RelatedIdentity? && c.policyId in m.policies then Elems(c.relatedIds) * m.identities.Keys else {})
  }

  predicate Creates(e: Event, id: Id) {
    e.IdentityEvent? && e.action.Create? && e.id == id
  }

  predicate Removes(e: Event, id: Id) {
    e.IdentityEvent? && e.action.Delete? && e.id == id
  }

  // Some check is queued that looks at an identity that is there.
  predicate Checked(m: Model, e: Event, id: Id) {
    id in QueuedUpdates(m, e) || Creates(e, id)
  }

  /* ---- what escapes them ---- */

  // The event changes how config c resolves.
  predicate Reloads(m: Model, e: Event, c: Id) {
    match e
    case ConfigTypeEvent(a, id, d) =>
      && c in m.configs && m.configs[c].data.typeId == id
      && (if a.Delete? then id in m.configTypes else id in m.configTypes ==> m.configTypes[id].data.name != d.name)
    case ConfigEvent(a, id, d) =>
      && c == id
      && (if a.Delete? || d.typeId !in m.configTypes then c in LoadedConfigs(m)
          else c !in m.configs || m.configs[c].data.typeId != d.typeId || m.configs[c].data.dataJson != d.dataJson)
    case RouterEvent(a, id, d) => c in Collected(m, a, id, d) && c in LoadedConfigs(m)
    case _ => false
  }

  // Moving one policy from type t to the other shows in access a: it was the
  // last of its type, or is the first of the other, or the index is news.
  predicate FlipShows(a: Access, t: PolicyType, index: nat, indexed: bool) {
    || (if t.DialPolicy? then a.dial == 1 || a.bind == 0 else a.bind == 1 || a.dial == 0)
    || (indexed && (index > a.dialIndex || index > a.bindIndex))
  }

  ghost predicate FlipMissed(m: Model, index: nat, pid: Id, d: PolicyData, id: Id, indexed: bool)
    requires id in m.identities
  {
    && Flips(m.policies, pid, d) && id in m.policies[pid].identities
    && exists s :: s in m.policies[pid].services && s in m.identities[id].access &&
                   FlipShows(m.identities[id].access[s], m.policies[pid].data.policyType, index, indexed)
  }

  ghost predicate ConfigMissed(m: Model, e: Event, id: Id)
    requires id in m.identities
  {
    !Checked(m, e, id) && exists c :: Depends(m, m.identities[id], c) && Reloads(m, e, c)
  }

  ghost predicate Missed(m: Model, index: nat, e: Event, id: Id, indexed: bool)
    requires id in m.identities
  {
    || ConfigMissed(m, e, id)
    || (e.PolicyEvent? && !e.action.Delete? && FlipMissed(m, index, e.id, e.policy, id, indexed))
  }

  /* ---- an identity has what it has through its policies ---- */

  lemma GrantedThrough(m: Model, id: Id, s: Id) returns (p: Id)
    requires Inv(m) && id in m.identities && m.identities[id].tracking && s in m.identities[id].access
    ensures p in m.policies && id in m.policies[p].identities && s in m.policies[p].services
    ensures s in m.services && p in m.services[s].policies
  {
    var i := m.identities[id];
    assert Exact(m.policies, i);
    var dial, bind := Granting(m.policies, i.policies, DialPolicy, s), Granting(m.policies, i.policies, BindPolicy, s);
    assert AccessIs(i.access, s, |dial|, |bind|);
    if dial != {} {
      p :| p in dial;
    } else {
      p :| p in bind;
    }
    assert p in i.policies && Grants(m.policies, p, m.policies[p].data.policyType, s);
  }

  lemma DemandedThrough(m: Model, id: Id, c: Id) returns (p: Id)
    requires Inv(m) && id in m.identities && c in m.identities[id].checks
    ensures p in m.policies && id in m.policies[p].identities && c in m.policies[p].checks
    ensures c in m.checks && p in m.checks[c].policies
  {
    var i := m.identities[id];
    assert Exact(m.policies, i);
    var demanding := Demanding(m.policies, i.policies, c);
    assert UsesAre(i.checks, c, |demanding|);
    p :| p in demanding;
    assert p in i.policies && Demands(m.policies, p, c);
  }

  lemma MembersHear(m: Model, hit: set<Id>, id: Id, s: Id)
    requires Inv(m) && id in m.identities && m.identities[id].tracking && s in m.identities[id].access && s in hit
    ensures id in Members(m.policies, PoliciesOfServices(m.services, hit))
  {
    var p := GrantedThrough(m, id, s);
    assert p in PoliciesOfServices(m.services, hit);
  }

  lemma MembersListed(m: Model, id: Id, s: Id)
    requires Inv(m) && id in m.identities && m.identities[id].tracking && s in m.identities[id].access
    ensures id in Members(m.policies, PoliciesOf(m.services, s)) && id in Members(m.policies, PoliciesListingService(m, s))
  {
    var p := GrantedThrough(m, id, s);
    assert p in PoliciesListingService(m, s) && p in PoliciesOf(m.services, s);
  }

  lemma MembersTested(m: Model, id: Id, c: Id)
    requires Inv(m) && id in m.identities && c in m.identities[id].checks
    ensures id in Members(m.policies, PoliciesOfCheck(m.checks, c)) && id in Members(m.policies, PoliciesListingCheck(m, c))
  {
    var p := DemandedThrough(m, id, c);
    assert p in PoliciesListingCheck(m, c) && p in PoliciesOfCheck(m.checks, c);
  }

  /* ---- an unchecked identity is left alone ---- */

  lemma QuietRefresh(m: Model, n: Model, hit: set<Id>, index: nat, id: Id)
    requires Inv(m) && id in m.identities && m.identities[id].tracking
    requires id in n.identities && n.identities[id] == m.identities[id] && n.checks == m.checks
    requires n.services == RefreshServices(m.services, hit, index)
    requires id !in Members(m.policies, PoliciesOfServices(m.services, hit))
    ensures Quiet(m, n, id)
  {
    forall s | s in m.identities[id].access
      ensures SameService(m.services, n.services, s)
    {
      var p := GrantedThrough(m, id, s);
      if s in hit {
        MembersHear(m, hit, id, s);
      }
    }
  }

  lemma QuietConfigType(m: Model, index: nat, a: Action, tid: Id, d: ConfigTypeData, id: Id)
    requires Inv(m) && id in m.identities && m.identities[id].tracking
    requires id !in QueuedUpdates(m, ConfigTypeEvent(a, tid, d))
    ensures Quiet(m, HandleConfigType(m, index, a, tid, d), id)
  {
    var hit := if a.Delete? then {} else ServicesOfType(m, tid);
    assert !a.Delete? ==> ServicesLinkedTo(m.configs, ConfigsOfType(m, tid)) == hit;
    assert PoliciesOfServices(m.services, {}) == {};
    QuietRefresh(m, HandleConfigType(m, index, a, tid, d), hit, index, id);
  }

  lemma QuietConfig(m: Model, index: nat, a: Action, cid: Id, d: ConfigData, id: Id)
    requires Inv(m) && id in m.identities && m.identities[id].tracking
    requires id !in QueuedUpdates(m, ConfigEvent(a, cid, d))
    ensures Quiet(m, Handle(m, index, ConfigEvent(a, cid, d)), id)
  {
    assert ServicesLinkedTo(m.configs, {cid}) == ServicesUsing(m.configs, cid);
    assert IdentitiesLinkedTo(m.configs, {cid}) == IdentitiesUsing(m.configs, cid);
    assert PoliciesOfServices(m.services, {}) == {};
    if a.Delete? {
      QuietRefresh(m, DeleteConfig(m, index, cid), ServicesUsing(m.configs, cid), index, id);
    } else {
      QuietRefresh(m, UpsertConfig(m, index, cid, d), ServicesChangedBy(m.configs, cid, d), index, id);
    }
  }

  lemma ChangeSpares(im: map<Id, Identity>, p: Policy, index: nat, c: PolicyChange, id: Id)
    requires id in im && id !in p.identities && (c.relatedType.RelatedIdentity? ==> id !in Elems(c.relatedIds))
    ensures ChangedIdentities(im, p, index, c)[id] == im[id]
  {
    match c.relatedType
    case RelatedIdentity =>
    case RelatedService =>
    case RelatedPostureCheck =>
    case InvalidRelatedType =>
  }

  lemma QuietChange(m: Model, index: nat, c: PolicyChange, id: Id)
    requires id in m.identities && id !in QueuedUpdates(m, PolicyChangeEvent(c))
    ensures Quiet(m, HandlePolicyChange(m, index, c), id)
  {
    if c.policyId in m.policies {
      ChangeSpares(m.identities, m.policies[c.policyId], index, c, id);
      assert forall s :: SameService(m.services, LinkServices(m.services, Elems(c.relatedIds), c.policyId, c.add), s);
      assert forall k :: SameCheckAt(m.checks, LinkChecks(m.checks, Elems(c.relatedIds), c.policyId, c.add), k);
    }
  }

  // Detaching an entity from policies concerns their members only.
  lemma {:induction false} DetachSpares(kind: RelatedType, m: Model, index: nat, x: Id, pids: set<Id>, id: Id)
    requires kind.RelatedIdentity? ==> x in m.identities && x != id
    requires id in m.identities && (kind.RelatedIdentity? || id !in Members(m.policies, pids))
    ensures var n := Fold(Detach(kind, index, x), pids, m); id in n.identities && n.identities[id] == m.identities[id]
    decreases |pids|
  {
    if pids != {} {
      var step := Detach(kind, index, x);
      var p :| p in pids && Fold(step, pids, m) == step(p, Fold(step, pids - {p}, m));
      var n := Fold(step, pids - {p}, m);
      DetachSpares(kind, m, index, x, pids - {p}, id);
      DetachAll(kind, m, index, x, pids - {p});
      if p in m.policies && !kind.RelatedIdentity? {
        assert id !in m.policies[p].identities;
      }
      SparedByOne(kind, n, index, x, p, id);
    }
  }

  lemma SparedByOne(kind: RelatedType, m: Model, index: nat, x: Id, pid: Id, id: Id)
    requires id in m.identities
    requires if kind.RelatedIdentity? then x != id else pid in m.policies ==> id !in m.policies[pid].identities
    ensures var n := Detach(kind, index, x)(pid, m); id in n.identities && n.identities[id] == m.identities[id]
  {
    assert Elems([x]) == {x};
    if pid in m.policies {
      match kind
      case RelatedIdentity =>
      case RelatedService =>
      case RelatedPostureCheck =>
      case InvalidRelatedType =>
    }
  }

  lemma QuietDeleteIdentity(m: Model, index: nat, other: Id, id: Id)
    requires id in m.identities && other != id
    ensures Quiet(m, DeleteIdentity(m, index, other), id)
  {
    var n := m.(configs := Relink(m.configs, other, ConfigsOf(m, other), {}));
    if other in m.identities {
      DetachAll(RelatedIdentity, n, index, other, PoliciesListingIdentity(n, other));
      DetachSpares(RelatedIdentity, n, index, other, PoliciesListingIdentity(n, other), id);
    }
  }

  lemma QuietUpsertIdentity(m: Model, index: nat, other: Id, d: IdentityData, id: Id)
    requires id in m.identities && other != id
    ensures Quiet(m, UpsertIdentity(m, index, other, d), id)
  {
  }

  lemma QuietRouter(m: Model, a: Action, rid: Id, d: RouterData, id: Id)
    requires id in m.identities
    ensures Quiet(m, HandleRouter(m, a, rid, d), id)
  {
  }

  lemma QuietUpsertService(m: Model, index: nat, sid: Id, d: ServiceData, id: Id)
    requires Inv(m) && id in m.identities && m.identities[id].tracking
    requires id !in Members(m.policies, PoliciesOf(m.services, sid))
    ensures Quiet(m, UpsertService(m, index, sid, d), id)
  {
    if sid in m.identities[id].access {
      MembersListed(m, id, sid);
    }
  }

  lemma QuietDeleteService(m: Model, index: nat, sid: Id, id: Id)
    requires Inv(m) && id in m.identities && m.identities[id].tracking
    requires id !in Members(m.policies, PoliciesListingService(m, sid))
    ensures Quiet(m, DeleteService(m, index, sid), id)
  {
    if sid in m.services {
      var s := m.services[sid];
      var n := m.(services := m.services - {sid},
                  configs := RelinkServices(m.configs, sid, Elems(s.data.configs), {}),
                  names := Unname(m.names, s.data.name, sid));
      DetachSpares(RelatedService, n, index, sid, PoliciesListingService(m, sid), id);
      ServiceVersions.DeleteServiceMovesNothing(m, index, sid);
      if sid in m.identities[id].access {
        MembersListed(m, id, sid);
      }
    }
  }

  lemma QuietUpsertCheck(m: Model, index: nat, cid: Id, d: CheckData, id: Id)
    requires Inv(m) && id in m.identities && id !in Members(m.policies, PoliciesOfCheck(m.checks, cid))
    ensures Quiet(m, UpsertCheck(m, index, cid, d), id)
  {
    if cid in m.identities[id].checks {
      MembersTested(m, id, cid);
    }
  }

  lemma QuietDeleteCheck(m: Model, index: nat, cid: Id, id: Id)
    requires Inv(m) && id in m.identities && id !in Members(m.policies, PoliciesListingCheck(m, cid))
    ensures Quiet(m, DeleteCheck(m, index, cid), id)
  {
    DetachAll(RelatedPostureCheck, m, index, cid, PoliciesListingCheck(m, cid));
    DetachSpares(RelatedPostureCheck, m, index, cid, PoliciesListingCheck(m, cid), id);
    if cid in m.identities[id].checks {
      MembersTested(m, id, cid);
    }
  }

  lemma QuietPolicy(m: Model, index: nat, a: Action, pid: Id, d: PolicyData, id: Id)
    requires id in m.identities
    requires if a.Delete? then id !in Members(m.policies, {pid}) else Flips(m.policies, pid, d) ==> id !in m.policies[pid].identities
    ensures Quiet(m, Handle(m, index, PolicyEvent(a, pid, d)), id)
  {
    if a.Delete? {
      assert Quiet(m, DeletePolicy(m, index, pid), id);
    } else {
      assert Quiet(m, UpsertPolicy(m, index, pid, d), id);
    }
  }

  // Everything but the type flip of one of its policies.
  predicate FlipsFor(m: Model, e: Event, id: Id) {
    e.PolicyEvent? && !e.action.Delete? && Flips(m.policies, e.id, e.policy) && id in m.policies[e.id].identities
  }

  lemma UncheckedIsQuiet(m: Model, index: nat, e: Event, id: Id)
    requires Inv(m) && id in m.identities && m.identities[id].tracking
    requires !Checked(m, e, id) && !Removes(e, id) && !FlipsFor(m, e, id)
    ensures Quiet(m, Handle(m, index, e), id)
  {
    match e
    case ConfigTypeEvent(a, x, d) => QuietConfigType(m, index, a, x, d, id);
    case ConfigEvent(a, x, d) => QuietConfig(m, index, a, x, d, id);
    case IdentityEvent(a, x, d) => if a.Delete? { QuietDeleteIdentity(m, index, x, id); } else { QuietUpsertIdentity(m, index, x, d, id); }
    case ServiceEvent(a, x, d) => if a.Delete? { QuietDeleteService(m, index, x, id); } else { QuietUpsertService(m, index, x, d, id); }
    case RouterEvent(a, x, d) => QuietRouter(m, a, x, d, id);
    case PolicyEvent(a, x, d) => QuietPolicy(m, index, a, x, d, id);
    case CheckEvent(a, x, d) => if a.Delete? { QuietDeleteCheck(m, index, x, id); } else { QuietUpsertCheck(m, index, x, d, id); }
    case KeyEvent(a, x, d) =>
    case RevocationEvent(a, x, d) =>
    case PolicyChangeEvent(c) => QuietChange(m, index, c, id);
  }

  /* ---- the configs ---- */

  lemma ConfigKeepsTypes(m: Model, index: nat, id: Id, d: ConfigData)
    ensures DeleteConfig(m, index, id).configTypes == m.configTypes
    ensures UpsertConfig(m, index, id, d).configTypes == m.configTypes
  {
  }

  lemma IdentityKeepsTypes(m: Model, index: nat, id: Id, d: IdentityData)
    ensures DeleteIdentity(m, index, id).configTypes == m.configTypes
    ensures UpsertIdentity(m, index, id, d).configTypes == m.configTypes
  {
    var n := m.(configs := Relink(m.configs, id, ConfigsOf(m, id), {}));
    if id in m.identities {
      DetachAll(RelatedIdentity, n, index, id, PoliciesListingIdentity(n, id));
    }
  }

  lemma ServiceKeepsTypes(m: Model, index: nat, id: Id, d: ServiceData)
    ensures DeleteService(m, index, id).configTypes == m.configTypes
    ensures UpsertService(m, index, id, d).configTypes == m.configTypes
  {
    if id in m.services {
      var s := m.services[id];
      var n := m.(services := m.services - {id},
                  configs := RelinkServices(m.configs, id, Elems(s.data.configs), {}),
                  names := Unname(m.names, s.data.name, id));
      DetachAll(RelatedService, n, index, id, PoliciesListingService(m, id));
    }
  }

  lemma PolicyKeepsTypes(m: Model, index: nat, id: Id, d: PolicyData)
    ensures DeletePolicy(m, index, id).configTypes == m.configTypes
    ensures UpsertPolicy(m, index, id, d).configTypes == m.configTypes
  {
  }

  lemma CheckKeepsTypes(m: Model, index: nat, id: Id, d: CheckData)
    ensures DeleteCheck(m, index, id).configTypes == m.configTypes
    ensures UpsertCheck(m, index, id, d).configTypes == m.configTypes
  {
    DetachAll(RelatedPostureCheck, m, index, id, PoliciesListingCheck(m, id));
  }

  lemma HandleKeepsTypes(m: Model, index: nat, e: Event)
    requires !e.ConfigTypeEvent?
    ensures Handle(m, index, e).configTypes == m.configTypes
  {
    match e
    case ConfigEvent(a, x, d) => ConfigKeepsTypes(m, index, x, d);
    case IdentityEvent(a, x, d) => IdentityKeepsTypes(m, index, x, d);
    case ServiceEvent(a, x, d) => ServiceKeepsTypes(m, index, x, d);
    case RouterEvent(a, x, d) =>
    case PolicyEvent(a, x, d) => PolicyKeepsTypes(m, index, x, d);
    case CheckEvent(a, x, d) => CheckKeepsTypes(m, index, x, d);
    case KeyEvent(a, x, d) =>
    case RevocationEvent(a, x, d) =>
    case PolicyChangeEvent(c) => ChangeKeepsPayloads(m, index, c);
  }

  lemma TypeReloadsIff(m: Model, index: nat, a: Action, tid: Id, d: ConfigTypeData, c: Id)
    ensures Reloads(m, ConfigTypeEvent(a, tid, d), c) <==>
            !SameAt(LoadedConfigs(m), LoadedConfigs(HandleConfigType(m, index, a, tid, d)), c)
  {
  }

  lemma ReloadsIff(m: Model, index: nat, e: Event, c: Id)
    ensures Reloads(m, e, c) <==> !SameAt(LoadedConfigs(m), LoadedConfigs(Handle(m, index, e)), c)
  {
    if e.ConfigTypeEvent? {
      TypeReloadsIff(m, index, e.action, e.id, e.configType, c);
    } else {
      HandleKeepsTypes(m, index, e);
      ConfigFilter.HandleHeld(m, index, e);
      HeldReloadsIff(m, e, c);
    }
  }

  lemma HeldReloadsIff(m: Model, e: Event, c: Id)
    requires !e.ConfigTypeEvent?
    ensures Reloads(m, e, c) <==>
            !SameAt(LoadedConfigs(m), Loaded(m.configTypes, ConfigFilter.HeldStep(m.selfId, ConfigFilter.HeldOf(m), e).configs), c)
  {
    if e.RouterEvent? {
      assert Collected(m, e.action, e.id, e.router) == ConfigFilter.Gone(m.selfId, m.routers, e.action, e.id, e.router);
    }
  }

  /* ---- the type flip ---- */

  function Flipped(acc: map<Id, Access>, t: PolicyType, u: PolicyType, ids: set<Id>, index: nat): map<Id, Access> {
    UpdateEachService(UpdateEachService(acc, t, ids, index, false), u, ids, index, true)
  }

  // The policy leaves as one type and joins as the other.
  lemma FlippedAccess(acc: map<Id, Access>, t: PolicyType, u: PolicyType, ids: set<Id>, index: nat, s: Id)
    requires !t.InvalidPolicy? && !u.InvalidPolicy? && t != u
    requires s in ids ==> s in acc && acc[s].dial >= 0 && acc[s].bind >= 0 && (if t.DialPolicy? then acc[s].dial else acc[s].bind) >= 1
    ensures s in Flipped(acc, t, u, ids, index) <==> s in acc
    ensures s in acc && s !in ids ==> Flipped(acc, t, u, ids, index)[s] == acc[s]
    ensures s in ids ==>
      var a, b := acc[s], Flipped(acc, t, u, ids, index)[s];
      && (FlipShows(a, t, index, false) <==> !(a.dial > 0 <==> b.dial > 0) || !(a.bind > 0 <==> b.bind > 0))
      && (!FlipShows(a, t, index, false) ==> b.dialIndex == Max(a.dialIndex, index) && b.bindIndex == Max(a.bindIndex, index))
  {
  }

  lemma RecountedChecks(uses: map<Id, int>, ids: set<Id>)
    requires forall c :: c in ids ==> c in uses && uses[c] >= 1
    ensures CountEach(CountEach(uses, ids, false), ids, true) == uses
  {
  }

  lemma FlipKeepsChecks(ps: map<Id, Policy>, i: Identity, pid: Id)
    requires pid in ps && pid in i.policies && Exact(ps, i) && ps[pid].services != {}
    ensures CountEach(CountEach(i.checks, ps[pid].checks, false), ps[pid].checks, true) == i.checks
  {
    forall c | c in ps[pid].checks
      ensures c in i.checks && i.checks[c] >= 1
    {
      assert pid in Demanding(ps, i.policies, c);
      assert UsesAre(i.checks, c, |Demanding(ps, i.policies, c)|);
    }
    RecountedChecks(i.checks, ps[pid].checks);
  }

  lemma MemberIsGranted(ps: map<Id, Policy>, i: Identity, pid: Id, s: Id)
    requires pid in ps && pid in i.policies && Exact(ps, i) && i.tracking && s in ps[pid].services && !ps[pid].data.policyType.InvalidPolicy?
    ensures GrantedAs(i, ps[pid].data.policyType, s)
  {
    assert pid in Granting(ps, i.policies, ps[pid].data.policyType, s);
    assert AccessIs(i.access, s, |Granting(ps, i.policies, DialPolicy, s)|, |Granting(ps, i.policies, BindPolicy, s)|);
  }

  lemma FlipIdentity(ps: map<Id, Policy>, i: Identity, pid: Id, q: Policy, index: nat)
    requires pid in ps && pid in i.policies && Exact(ps, i) && i.tracking
    requires q == ps[pid].(data := q.data, servicesIndex := q.servicesIndex, checksIndex := q.checksIndex)
    ensures JoinPolicy(JoinPolicy(i, pid, ps[pid], index, false), pid, q, index, true) ==
            i.(access := Flipped(i.access, ps[pid].data.policyType, q.data.policyType, ps[pid].services, index))
  {
    if ps[pid].services != {} {
      FlipKeepsChecks(ps, i, pid);
    }
    assert i.policies - {pid} + {pid} == i.policies;
  }

  predicate GrantedAs(i: Identity, t: PolicyType, s: Id) {
    s in i.access && i.access[s].dial >= 0 && i.access[s].bind >= 0 &&
    (if t.DialPolicy? then i.access[s].dial else i.access[s].bind) >= 1
  }

  lemma FlippedServiceIff(m: Model, n: Model, i: Identity, j: Identity, t: PolicyType, u: PolicyType, ids: set<Id>, index: nat, s: Id, indexed: bool)
    requires n.services == m.services && n.configs == m.configs && n.configTypes == m.configTypes
    requires !t.InvalidPolicy? && !u.InvalidPolicy? && t != u && j == i.(access := Flipped(i.access, t, u, ids, index))
    requires s in i.access && s in m.services && (s in ids ==> GrantedAs(i, t, s))
    ensures s in j.access
    ensures ShowService(m, i, s, indexed) != ShowService(n, j, s, indexed) <==> s in ids && FlipShows(i.access[s], t, index, indexed)
  {
    FlippedAccess(i.access, t, u, ids, index, s);
    assert Inputs(n, j.data, s) == Inputs(m, i.data, s);
  }

  lemma FlipShownIff(m: Model, index: nat, pid: Id, d: PolicyData, id: Id, indexed: bool)
    requires Inv(m) && id in m.identities && m.identities[id].tracking && !d.policyType.InvalidPolicy?
    requires Flips(m.policies, pid, d) && id in m.policies[pid].identities
    ensures var n := UpsertPolicy(m, index, pid, d);
            ShownOf(m, m.identities[id], indexed) != ShownOf(n, n.identities[id], indexed) <==> FlipMissed(m, index, pid, d, id, indexed)
  {
    var n, p := UpsertPolicy(m, index, pid, d), m.policies[pid];
    var i, j := m.identities[id], n.identities[id];
    assert Exact(m.policies, i) && pid in i.policies;
    FlipIdentity(m.policies, i, pid, n.policies[pid], index);
    forall s | s in p.services
      ensures GrantedAs(i, p.data.policyType, s)
    {
      MemberIsGranted(m.policies, i, pid, s);
    }
    FlippedKeys(i.access, p.data.policyType, d.policyType, p.services, index);
    forall s | s in i.access
      ensures s in m.services && s in j.access
      ensures ShowService(m, i, s, indexed) != ShowService(n, j, s, indexed) <==>
              s in p.services && FlipShows(i.access[s], p.data.policyType, index, indexed)
    {
      var granting := GrantedThrough(m, id, s);
      assert s in p.services ==> GrantedAs(i, p.data.policyType, s);
      FlippedServiceIff(m, n, i, j, p.data.policyType, d.policyType, p.services, index, s, indexed);
    }
    DifferSomewhere(m, n, i, j, indexed);
  }

  // With the same checks and keys, what is shown differs where a service does.
  lemma DifferSomewhere(m: Model, n: Model, i: Identity, j: Identity, indexed: bool)
    requires n.services == m.services && n.checks == m.checks && j.access.Keys == i.access.Keys && i.access.Keys <= m.services.Keys
    requires j == i.(access := j.access)
    ensures ShownOf(m, i, indexed) != ShownOf(n, j, indexed) <==>
            exists s :: s in i.access && ShowService(m, i, s, indexed) != ShowService(n, j, s, indexed)
  {
    var a, b := ShownOf(m, i, indexed).services, ShownOf(n, j, indexed).services;
    assert a.Keys == b.Keys == i.access.Keys;
    assert forall s :: s in a ==> a[s] == ShowService(m, i, s, indexed) && b[s] == ShowService(n, j, s, indexed);
    if a != b {
      var s :| s in a && a[s] != b[s];
    }
  }

  lemma FlippedKeys(acc: map<Id, Access>, t: PolicyType, u: PolicyType, ids: set<Id>, index: nat)
    requires ids <= acc.Keys
    ensures Flipped(acc, t, u, ids, index).Keys <= acc.Keys
  {
  }

  /* ---- identities stay, and stay tracked ---- */

  ghost predicate SameTracking(im: map<Id, Identity>, jm: map<Id, Identity>) {
    jm.Keys == im.Keys && forall i :: i in im ==> jm[i].tracking == im[i].tracking
  }

  lemma ChangedKeepTracking(im: map<Id, Identity>, p: Policy, index: nat, c: PolicyChange)
    ensures SameTracking(im, ChangedIdentities(im, p, index, c))
  {
    match c.relatedType
    case RelatedIdentity =>
    case RelatedService =>
    case RelatedPostureCheck =>
    case InvalidRelatedType =>
  }

  lemma ChangeKeepsTracking(m: Model, index: nat, c: PolicyChange)
    ensures SameTracking(m.identities, HandlePolicyChange(m, index, c).identities)
  {
    if c.policyId in m.policies {
      ChangedKeepTracking(m.identities, m.policies[c.policyId], index, c);
    }
  }

  lemma {:induction false} DetachKeepsTracking(kind: RelatedType, m: Model, index: nat, x: Id, pids: set<Id>)
    ensures SameTracking(m.identities, Fold(Detach(kind, index, x), pids, m).identities)
    decreases |pids|
  {
    if pids != {} {
      var step := Detach(kind, index, x);
      var p :| p in pids && Fold(step, pids, m) == step(p, Fold(step, pids - {p}, m));
      DetachKeepsTracking(kind, m, index, x, pids - {p});
      ChangeKeepsTracking(Fold(step, pids - {p}, m), index, PolicyChange(p, [x], kind, false));
    }
  }

  lemma DeleteIdentityKeepsTracking(m: Model, index: nat, x: Id)
    ensures SameTracking(m.identities - {x}, DeleteIdentity(m, index, x).identities)
  {
    var n := m.(configs := Relink(m.configs, x, ConfigsOf(m, x), {}));
    DetachKeepsTracking(RelatedIdentity, n, index, x, PoliciesListingIdentity(n, x));
  }

  lemma ConfigKeepsTracking(m: Model, index: nat, x: Id, d: ConfigData)
    ensures SameTracking(m.identities, DeleteConfig(m, index, x).identities)
    ensures SameTracking(m.identities, UpsertConfig(m, index, x, d).identities)
  {
  }

  lemma ServiceKeepsTracking(m: Model, index: nat, x: Id, d: ServiceData)
    ensures SameTracking(m.identities, DeleteService(m, index, x).identities)
    ensures SameTracking(m.identities, UpsertService(m, index, x, d).identities)
  {
    if x in m.services {
      var s := m.services[x];
      var n := m.(services := m.services - {x},
                  configs := RelinkServices(m.configs, x, Elems(s.data.configs), {}),
                  names := Unname(m.names, s.data.name, x));
      DetachKeepsTracking(RelatedService, n, index, x, PoliciesListingService(m, x));
    }
  }

  lemma PolicyKeepsTracking(m: Model, index: nat, x: Id, d: PolicyData)
    ensures SameTracking(m.identities, DeletePolicy(m, index, x).identities)
    ensures SameTracking(m.identities, UpsertPolicy(m, index, x, d).identities)
  {
  }

  lemma CheckKeepsTracking(m: Model, index: nat, x: Id, d: CheckData)
    ensures SameTracking(m.identities, DeleteCheck(m, index, x).identities)
    ensures SameTracking(m.identities, UpsertCheck(m, index, x, d).identities)
  {
    DetachKeepsTracking(RelatedPostureCheck, m, index, x, PoliciesListingCheck(m, x));
  }

  lemma HandleKeepsTracking(m: Model, index: nat, e: Event)
    requires !e.IdentityEvent?
    ensures SameTracking(m.identities, Handle(m, index, e).identities)
  {
    match e
    case ConfigTypeEvent(a, x, d) =>
    case ConfigEvent(a, x, d) => ConfigKeepsTracking(m, index, x, d);
    case ServiceEvent(a, x, d) => ServiceKeepsTracking(m, index, x, d);
    case RouterEvent(a, x, d) =>
    case PolicyEvent(a, x, d) => PolicyKeepsTracking(m, index, x, d);
    case CheckEvent(a, x, d) => CheckKeepsTracking(m, index, x, d);
    case KeyEvent(a, x, d) =>
    case RevocationEvent(a, x, d) =>
    case PolicyChangeEvent(c) => ChangeKeepsTracking(m, index, c);
  }

  // Only its own events bring an identity in or take it away.
  lemma StaysTracked(m: Model, index: nat, e: Event, id: Id)
    ensures var im, jm := m.identities, Handle(m, index, e).identities;
            && (id in jm <==> !Removes(e, id) && (id in im || (e.IdentityEvent? && e.id == id)))
            && (id in im && id in jm ==> jm[id].tracking == im[id].tracking)
  {
    if e.IdentityEvent? {
      if e.action.Delete? {
        DeleteIdentityKeepsTracking(m, index, e.id);
      } else {
        assert Handle(m, index, e).identities == UpsertIdentity(m, index, e.id, e.identity).identities;
      }
    } else {
      HandleKeepsTracking(m, index, e);
    }
  }

  /* ---- the result ---- */

  // The event shows the identity differently.
  ghost predicate Changes(m: Model, index: nat, e: Event, id: Id, indexed: bool)
    requires id in m.identities
  {
    var n := Handle(m, index, e);
    id in n.identities && ShownOf(m, m.identities[id], indexed) != ShownOf(n, n.identities[id], indexed)
  }

  lemma QuietMissedIff(m: Model, index: nat, e: Event, id: Id, indexed: bool)
    requires Inv(m) && id in m.identities && m.identities[id].tracking
    requires !Checked(m, e, id) && !Removes(e, id) && !FlipsFor(m, e, id)
    ensures ConfigMissed(m, e, id) <==> Changes(m, index, e, id, indexed)
  {
    UncheckedIsQuiet(m, index, e, id);
    QuietShownIff(m, Handle(m, index, e), id, indexed);
    forall c
      ensures Reloads(m, e, c) <==> !SameAt(LoadedConfigs(m), LoadedConfigs(Handle(m, index, e)), c)
    {
      ReloadsIff(m, index, e, c);
    }
  }

  lemma FlipMissedIff(m: Model, index: nat, e: Event, id: Id, indexed: bool)
    requires Inv(m) && WellFormed(ViewOf(m), e) && id in m.identities && m.identities[id].tracking && FlipsFor(m, e, id)
    ensures FlipMissed(m, index, e.id, e.policy, id, indexed) <==> Changes(m, index, e, id, indexed)
    ensures !Checked(m, e, id)
  {
    FlipShownIff(m, index, e.id, e.policy, id, indexed);
    assert Handle(m, index, e) == UpsertPolicy(m, index, e.id, e.policy);
  }

  lemma MissedCases(m: Model, index: nat, e: Event, id: Id, indexed: bool)
    requires id in m.identities
    ensures Missed(m, index, e, id, indexed) <==>
            if FlipsFor(m, e, id) then FlipMissed(m, index, e.id, e.policy, id, indexed) else ConfigMissed(m, e, id)
  {
  }

  // An event shows a tracked identity differently and queues no check for it
  // exactly when it is Missed.
  lemma MissedIff(m: Model, index: nat, e: Event, id: Id, indexed: bool)
    requires Inv(m) && WellFormed(ViewOf(m), e) && !Removes(e, id)
    requires id in m.identities && m.identities[id].tracking
    ensures Missed(m, index, e, id, indexed) <==> Changes(m, index, e, id, indexed) && !Checked(m, e, id)
  {
    MissedCases(m, index, e, id, indexed);
    if FlipsFor(m, e, id) {
      FlipMissedIff(m, index, e, id, indexed);
    } else if !Checked(m, e, id) {
      QuietMissedIff(m, index, e, id, indexed);
    }
  }

  /* ---- what that comes to ---- */

  // An index no event had before is news to every service: the flip is missed
  // exactly when the policy has services.
  lemma NewFlipMissedIff(m: Model, index: nat, pid: Id, d: PolicyData, id: Id)
    requires Inv(m) && id in m.identities && m.identities[id].tracking
    requires Flips(m.policies, pid, d) && id in m.policies[pid].identities
    requires forall s :: s in m.identities[id].access ==> index > m.identities[id].access[s].dialIndex
    ensures FlipMissed(m, index, pid, d, id, true) <==> m.policies[pid].services != {}
  {
    if m.policies[pid].services != {} {
      var s :| s in m.policies[pid].services;
      assert Exact(m.policies, m.identities[id]) && pid in m.identities[id].policies;
      MemberIsGranted(m.policies, m.identities[id], pid, s);
    }
  }

  // The configs the identity depends on know the services and overrides that
  // name them.
  ghost predicate Linked(m: Model, id: Id)
    requires id in m.identities
  {
    forall s, c :: s in m.identities[id].access && c in m.configs ==> LinkedVia(m, id, s, c)
  }

  predicate LinkedVia(m: Model, id: Id, s: Id, c: Id)
    requires id in m.identities && c in m.configs
  {
    var d := m.identities[id].data;
    && (s in m.services && c in m.services[s].data.configs ==> s in m.configs[c].services)
    && (s in d.serviceConfigs && c in d.serviceConfigs[s].Values ==> id in m.configs[c].identities)
  }

  lemma LinkedIsTold(m: Model, id: Id, s: Id, c: Id, cs: set<Id>)
    requires Inv(m) && id in m.identities && m.identities[id].tracking && Linked(m, id)
    requires s in m.identities[id].access && s in m.services && c in Uses(m.identities[id].data, s, m.services[s].data)
    requires c in m.configs && c in cs
    ensures id in Told(m, cs)
  {
    assert LinkedVia(m, id, s, c);
    if c in m.services[s].data.configs {
      assert s in ServicesLinkedTo(m.configs, cs);
      MembersHear(m, ServicesLinkedTo(m.configs, cs), id, s);
    } else {
      assert id in IdentitiesLinkedTo(m.configs, cs);
    }
  }

  // A config type is deleted, the local router's list drops the config, or the
  // config comes after what names it.
  predicate UntoldReload(m: Model, e: Event, c: Id) {
    Reloads(m, e, c) && (e.RouterEvent? || (if e.ConfigTypeEvent? then e.action.Delete? else c !in m.configs))
  }

  lemma LinkedMissedIff(m: Model, e: Event, id: Id)
    requires Inv(m) && id in m.identities && m.identities[id].tracking && Linked(m, id)
    ensures ConfigMissed(m, e, id) <==> exists c :: Depends(m, m.identities[id], c) && UntoldReload(m, e, c)
  {
    forall c | Depends(m, m.identities[id], c) && Reloads(m, e, c)
      ensures !Checked(m, e, id) ==> UntoldReload(m, e, c)
    {
      var s :| s in m.identities[id].access && s in m.services && c in Uses(m.identities[id].data, s, m.services[s].data);
      if e.ConfigTypeEvent? && !e.action.Delete? {
        LinkedIsTold(m, id, s, c, ConfigsOfType(m, e.id));
      } else if e.ConfigEvent? && c in m.configs {
        LinkedIsTold(m, id, s, c, {e.id});
      }
    }
    forall c | Depends(m, m.identities[id], c) && UntoldReload(m, e, c)
      ensures !Checked(m, e, id)
    {
    }
  }
}
