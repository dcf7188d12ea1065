// Every event of a well-formed stream keeps the receiver's invariant and moves
// its relational content as the reference meaning says.
module ReceiverSteps {
  import opened DataState
  import opened RelationalView
  import opened ReceiverSpec
  import opened ReceiverCounts
  import opened ReceiverInvariant

  /* ---- updates that leave payloads and memberships alone ---- */

  lemma BumpKeepsViews(ps: map<Id, Policy>, hit: set<Id>, index: nat)
    ensures PolicyViews(BumpServices(ps, hit, index)) == PolicyViews(ps)
    ensures PolicyViews(BumpChecks(ps, hit, index)) == PolicyViews(ps)
  {
  }

  lemma RefreshKeepsViews(ss: map<Id, Service>, hit: set<Id>, index: nat)
    ensures ServiceViews(RefreshServices(ss, hit, index)) == ServiceViews(ss)
  {
  }

  lemma BumpKeepsLinks(ss: map<Id, Service>, cs: map<Id, Check>, ps: map<Id, Policy>, hit: set<Id>, bumped: set<Id>, index: nat)
    requires ServicesLinked(ss, ps) && ChecksLinked(cs, ps)
    ensures ServicesLinked(RefreshServices(ss, hit, index), BumpServices(ps, bumped, index)) && ChecksLinked(cs, BumpServices(ps, bumped, index))
  {
  }

  lemma BumpKeepsCore(im: map<Id, Identity>, ps: map<Id, Policy>, hit: set<Id>, index: nat)
    requires CoreOf(im, ps)
    ensures CoreOf(im, BumpServices(ps, hit, index)) && CoreOf(im, BumpChecks(ps, hit, index))
  {
    SameTablesKeepCore(im, ps, im, BumpServices(ps, hit, index));
    SameTablesKeepCore(im, ps, im, BumpChecks(ps, hit, index));
  }

  lemma RelinkKeepsDatas(cs: map<Id, Config>, id: Id, drop: set<Id>, add: set<Id>)
    ensures ConfigDatas(Relink(cs, id, drop, add)) == ConfigDatas(cs)
    ensures ConfigDatas(RelinkServices(cs, id, drop, add)) == ConfigDatas(cs)
  {
  }

  lemma SetService(ss: map<Id, Service>, id: Id, s: Service)
    ensures ServiceViews(ss[id := s]) == ServiceViews(ss)[id := ViewOfService(s.data)]
    ensures ServiceViews(ss - {id}) == ServiceViews(ss) - {id}
  {
  }

  lemma SetIdentity(im: map<Id, Identity>, id: Id, i: Identity)
    ensures IdentityDatas(im[id := i]) == IdentityDatas(im)[id := i.data]
    ensures IdentityDatas(im - {id}) == IdentityDatas(im) - {id}
  {
  }

  lemma SetPolicy(ps: map<Id, Policy>, id: Id, p: Policy)
    ensures PolicyViews(ps[id := p]) == PolicyViews(ps)[id := ViewOfPolicy(p)]
    ensures PolicyViews(ps - {id}) == PolicyViews(ps) - {id}
  {
  }

  lemma FewerMembersStayLinked(ss: map<Id, Service>, cs: map<Id, Check>, ps: map<Id, Policy>, qs: map<Id, Policy>)
    requires ServicesLinked(ss, ps) && ChecksLinked(cs, ps)
    requires forall p :: p in qs ==> p in ps && qs[p].services <= ps[p].services && qs[p].checks <= ps[p].checks
    ensures ServicesLinked(ss, qs) && ChecksLinked(cs, qs)
  {
  }

  lemma SamePayloadsStayLinked(cs: map<Id, Config>, im: map<Id, Identity>, im': map<Id, Identity>)
    requires ConfigsLinked(cs, im)
    requires im.Keys <= im'.Keys && forall i :: i in im ==> im'[i].data == im[i].data
    ensures ConfigsLinked(cs, im')
  {
  }

  /* ---- the cleanup a delete performs ---- */

  function Detached(kind: RelatedType, p: Policy, index: nat, id: Id): Policy {
    match kind
    case RelatedIdentity => p.(identities := p.identities - {id})
    case RelatedService => p.(services := p.services - {id}, servicesIndex := index)
    case RelatedPostureCheck => p.(checks := p.checks - {id}, checksIndex := index)
    case InvalidRelatedType => p
  }

  predicate Lists(kind: RelatedType, p: Policy, id: Id) {
    match kind
    case RelatedIdentity => id in p.identities
    case RelatedService => id in p.services
    case RelatedPostureCheck => id in p.checks
    case InvalidRelatedType => true
  }

  // m and n differ only in memberships, counts and links, and in links only for id.
  ghost predicate OnlyDetaches(m: Model, n: Model, id: Id) {
    && n == m.(identities := n.identities, services := n.services, checks := n.checks, policies := n.policies)
    && n.identities.Keys == m.identities.Keys
    && (forall i :: i in m.identities ==> n.identities[i].data == m.identities[i].data)
    && n.services.Keys == m.services.Keys
    && (forall s :: s in m.services && s != id ==> n.services[s] == m.services[s])
    && n.checks.Keys == m.checks.Keys
    && (forall c :: c in m.checks && c != id ==> n.checks[c] == m.checks[c])
    && n.policies.Keys == m.policies.Keys
  }

  ghost predicate DetachedPolicies(kind: RelatedType, ps: map<Id, Policy>, qs: map<Id, Policy>, index: nat, id: Id, pids: set<Id>) {
    qs.Keys == ps.Keys && forall p :: p in ps ==> qs[p] == if p in pids then Detached(kind, ps[p], index, id) else ps[p]
  }

  // n is m with id detached from the policies in pids.
  ghost predicate DetachedFrom(kind: RelatedType, m: Model, n: Model, index: nat, id: Id, pids: set<Id>) {
    && OnlyDetaches(m, n, id)
    && DetachedPolicies(kind, m.policies, n.policies, index, id, pids)
    && (!kind.RelatedService? ==> n.services == m.services)
    && (!kind.RelatedPostureCheck? ==> n.checks == m.checks)
  }

  lemma DetachOne(kind: RelatedType, m: Model, index: nat, id: Id, pid: Id)
    requires kind.RelatedIdentity? ==> id in m.identities
    ensures DetachedFrom(kind, m, Detach(kind, index, id)(pid, m), index, id, {pid})
  {
    var c := PolicyChange(pid, [id], kind, false);
    assert Elems([id]) == {id};
    ChangeKeepsPayloads(m, index, c);
    if pid in m.policies {
      match kind
      case RelatedIdentity => assert {id} * m.identities.Keys == {id};
      case RelatedService =>
      case RelatedPostureCheck =>
      case InvalidRelatedType =>
    }
  }

  lemma DetachOneMore(kind: RelatedType, ps: map<Id, Policy>, qs: map<Id, Policy>, rs: map<Id, Policy>, index: nat, id: Id, pids: set<Id>, x: Id)
    requires DetachedPolicies(kind, ps, qs, index, id, pids - {x}) && DetachedPolicies(kind, qs, rs, index, id, {x}) && x in pids
    ensures DetachedPolicies(kind, ps, rs, index, id, pids)
  {
    forall p | p in ps
      ensures rs[p] == if p in pids then Detached(kind, ps[p], index, id) else ps[p]
    {
      assert rs[p] == if p == x then Detached(kind, qs[p], index, id) else qs[p];
    }
  }

  lemma OnlyDetachesOn(m: Model, n: Model, o: Model, id: Id)
    requires OnlyDetaches(m, n, id) && OnlyDetaches(n, o, id)
    ensures OnlyDetaches(m, o, id)
  {
  }

  lemma {:induction false} DetachAll(kind: RelatedType, m: Model, index: nat, id: Id, pids: set<Id>)
    requires kind.RelatedIdentity? ==> id in m.identities
    ensures DetachedFrom(kind, m, Fold(Detach(kind, index, id), pids, m), index, id, pids)
    decreases |pids|
  {
    if pids != {} {
      var step := Detach(kind, index, id);
      var x :| x in pids && Fold(step, pids, m) == step(x, Fold(step, pids - {x}, m));
      DetachAll(kind, m, index, id, pids - {x});
      var n := Fold(step, pids - {x}, m);
      DetachOne(kind, n, index, id, x);
      OnlyDetachesOn(m, n, step(x, n), id);
      DetachOneMore(kind, m.policies, n.policies, step(x, n).policies, index, id, pids, x);
    }
  }

  // The cleanup changes the code emits for itself are well formed.
  lemma DetachCountsOnce(kind: RelatedType, m: Model, index: nat, id: Id, pids: set<Id>, x: Id)
    requires kind.RelatedIdentity? ==> id in m.identities
    requires x !in pids && x in m.policies && Lists(kind, m.policies[x], id)
    ensures CountsOnce(Fold(Detach(kind, index, id), pids, m).policies, PolicyChange(x, [id], kind, false))
  {
    DetachAll(kind, m, index, id, pids);
    assert Elems([id]) == {id};
  }

  lemma {:induction false} DetachAllKeepsCore(kind: RelatedType, m: Model, index: nat, id: Id, pids: set<Id>)
    requires kind.RelatedIdentity? ==> id in m.identities
    requires Core(m)
    requires forall p :: p in pids ==> p in m.policies && Lists(kind, m.policies[p], id)
    ensures Core(Fold(Detach(kind, index, id), pids, m))
    decreases |pids|
  {
    if pids != {} {
      var step := Detach(kind, index, id);
      var x :| x in pids && Fold(step, pids, m) == step(x, Fold(step, pids - {x}, m));
      DetachAllKeepsCore(kind, m, index, id, pids - {x});
      DetachCountsOnce(kind, m, index, id, pids - {x}, x);
      ChangeKeepsCore(Fold(step, pids - {x}, m), index, PolicyChange(x, [id], kind, false));
    }
  }

  // Detaching from every policy that lists id is dropping id from all of them.
  lemma DetachedEverywhere(kind: RelatedType, m: Model, index: nat, id: Id, pids: set<Id>)
    requires kind.RelatedIdentity? ==> id in m.identities
    requires forall p :: p in m.policies && Lists(kind, m.policies[p], id) ==> p in pids
    ensures var n := Fold(Detach(kind, index, id), pids, m);
            && n == m.(identities := n.identities, services := n.services, checks := n.checks, policies := n.policies)
            && IdentityDatas(n.identities) == IdentityDatas(m.identities)
            && (!kind.RelatedService? || id !in m.services ==> n.services == m.services)
            && (!kind.RelatedPostureCheck? ==> n.checks == m.checks)
            && n.checks - {id} == m.checks - {id}
    ensures var qs := PolicyViews(Fold(Detach(kind, index, id), pids, m).policies);
            && (kind.RelatedIdentity? ==> qs == WithoutIdentity(PolicyViews(m.policies), id))
            && (kind.RelatedService? ==> qs == WithoutService(PolicyViews(m.policies), id))
            && (kind.RelatedPostureCheck? ==> qs == WithoutCheck(PolicyViews(m.policies), id))
  {
    DetachAll(kind, m, index, id, pids);
    var n := Fold(Detach(kind, index, id), pids, m);
    SameTables(m, n, id);
    DropFromAll(kind, m.policies, n.policies, index, id, pids);
  }

  lemma SameTables(m: Model, n: Model, id: Id)
    requires OnlyDetaches(m, n, id)
    ensures IdentityDatas(n.identities) == IdentityDatas(m.identities)
    ensures id !in m.services ==> n.services == m.services
    ensures n.checks - {id} == m.checks - {id}
  {
  }

  lemma DropFromAll(kind: RelatedType, ps: map<Id, Policy>, qs: map<Id, Policy>, index: nat, id: Id, pids: set<Id>)
    requires DetachedPolicies(kind, ps, qs, index, id, pids)
    requires forall p :: p in ps && Lists(kind, ps[p], id) ==> p in pids
    ensures kind.RelatedIdentity? ==> PolicyViews(qs) == WithoutIdentity(PolicyViews(ps), id)
    ensures kind.RelatedService? ==> PolicyViews(qs) == WithoutService(PolicyViews(ps), id)
    ensures kind.RelatedPostureCheck? ==> PolicyViews(qs) == WithoutCheck(PolicyViews(ps), id)
  {
    forall p | p in ps
      ensures kind.RelatedIdentity? ==> ViewOfPolicy(qs[p]) == WithoutIdentity(PolicyViews(ps), id)[p]
      ensures kind.RelatedService? ==> ViewOfPolicy(qs[p]) == WithoutService(PolicyViews(ps), id)[p]
      ensures kind.RelatedPostureCheck? ==> ViewOfPolicy(qs[p]) == WithoutCheck(PolicyViews(ps), id)[p]
    {
      assert id !in ps[p].identities ==> ps[p].identities - {id} == ps[p].identities;
      assert id !in ps[p].services ==> ps[p].services - {id} == ps[p].services;
      assert id !in ps[p].checks ==> ps[p].checks - {id} == ps[p].checks;
    }
  }

  /* ---- identities ---- */

  lemma DeleteIdentityKeepsInv(m: Model, index: nat, id: Id)
    requires Inv(m)
    ensures Inv(DeleteIdentity(m, index, id))
  {
    var n := m.(configs := Relink(m.configs, id, ConfigsOf(m, id), {}));
    var pids := PoliciesListingIdentity(n, id);
    if id in m.identities {
      DetachAllKeepsCore(RelatedIdentity, n, index, id, pids);
      DetachAll(RelatedIdentity, n, index, id, pids);
      IdentityGone(m, n, Fold(Detach(RelatedIdentity, index, id), pids, n), index, id, pids);
    }
  }

  lemma IdentityGone(m: Model, n: Model, o: Model, index: nat, id: Id, pids: set<Id>)
    requires Inv(m) && id in m.identities && n == m.(configs := Relink(m.configs, id, ConfigsOf(m, id), {}))
    requires pids == PoliciesListingIdentity(m, id)
    requires DetachedFrom(RelatedIdentity, n, o, index, id, pids) && Core(o)
    ensures Inv(o.(identities := o.identities - {id}))
  {
    NoPolicyLists(m, o.policies, index, id);
    RemoveDetached(o, id);
    UnlinkIdentity(m, o, id);
    FewerMembersStayLinked(m.services, m.checks, m.policies, o.policies);
  }

  lemma NoPolicyLists(m: Model, qs: map<Id, Policy>, index: nat, id: Id)
    requires Mirrored(m.identities, m.policies) && id in m.identities
    requires DetachedPolicies(RelatedIdentity, m.policies, qs, index, id, PoliciesListingIdentity(m, id))
    ensures forall p :: p in qs ==> id !in qs[p].identities
  {
  }

  lemma RemoveDetached(o: Model, id: Id)
    requires Core(o)
    requires forall p :: p in o.policies ==> id !in o.policies[p].identities
    ensures Core(o.(identities := o.identities - {id}))
  {
  }

  lemma UnlinkIdentity(m: Model, o: Model, id: Id)
    requires ConfigsLinked(m.configs, m.identities)
    requires o.configs == Relink(m.configs, id, ConfigsOf(m, id), {})
    requires o.identities.Keys == m.identities.Keys
    requires forall i :: i in m.identities ==> o.identities[i].data == m.identities[i].data
    ensures ConfigsLinked(o.configs, o.identities - {id})
  {
  }

  lemma AllListingPolicies(m: Model, n: Model, id: Id)
    requires Mirrored(m.identities, m.policies) && id in m.identities
    requires n.identities == m.identities && n.policies == m.policies
    ensures forall p :: p in n.policies && Lists(RelatedIdentity, n.policies[p], id) ==> p in PoliciesListingIdentity(n, id)
  {
  }

  lemma DeleteLiveIdentityRefines(m: Model, index: nat, id: Id, d: IdentityData)
    requires Mirrored(m.identities, m.policies) && id in m.identities
    ensures ViewOf(DeleteIdentity(m, index, id)) == Step(ViewOf(m), IdentityEvent(Delete, id, d))
  {
    var n := m.(configs := Relink(m.configs, id, ConfigsOf(m, id), {}));
    var o := Fold(Detach(RelatedIdentity, index, id), PoliciesListingIdentity(n, id), n);
    AllListingPolicies(m, n, id);
    DetachedEverywhere(RelatedIdentity, n, index, id, PoliciesListingIdentity(n, id));
    IdentityGoneViews(m, o, id, d);
  }

  lemma IdentityGoneViews(m: Model, o: Model, id: Id, d: IdentityData)
    requires o == m.(configs := Relink(m.configs, id, ConfigsOf(m, id), {}), identities := o.identities, policies := o.policies)
    requires IdentityDatas(o.identities) == IdentityDatas(m.identities)
    requires PolicyViews(o.policies) == WithoutIdentity(PolicyViews(m.policies), id)
    ensures ViewOf(o.(identities := o.identities - {id})) == Step(ViewOf(m), IdentityEvent(Delete, id, d))
  {
    RelinkKeepsDatas(m.configs, id, ConfigsOf(m, id), {});
    assert IdentityDatas(o.identities - {id}) == IdentityDatas(o.identities) - {id};
  }

  lemma DeleteAbsentIdentityRefines(m: Model, index: nat, id: Id, d: IdentityData)
    requires Mirrored(m.identities, m.policies) && id !in m.identities
    ensures ViewOf(DeleteIdentity(m, index, id)) == Step(ViewOf(m), IdentityEvent(Delete, id, d))
  {
    assert m.identities - {id} == m.identities;
    assert DeleteIdentity(m, index, id) == m.(configs := Relink(m.configs, id, {}, {}));
    RelinkKeepsDatas(m.configs, id, {}, {});
    assert WithoutIdentity(PolicyViews(m.policies), id) == PolicyViews(m.policies) by {
      DropFromAll(RelatedIdentity, m.policies, m.policies, index, id, {});
    }
    assert IdentityDatas(m.identities) - {id} == IdentityDatas(m.identities);
  }

  lemma DeleteIdentityRefines(m: Model, index: nat, id: Id, d: IdentityData)
    requires Mirrored(m.identities, m.policies)
    ensures ViewOf(DeleteIdentity(m, index, id)) == Step(ViewOf(m), IdentityEvent(Delete, id, d))
  {
    if id in m.identities {
      DeleteLiveIdentityRefines(m, index, id, d);
    } else {
      DeleteAbsentIdentityRefines(m, index, id, d);
    }
  }

  lemma SetIdentityKeepsCore(im: map<Id, Identity>, ps: map<Id, Policy>, id: Id, j: Identity)
    requires CoreOf(im, ps)
    requires if id in im then j == im[id].(data := j.data, index := j.index) else j.policies == {} && j.access == map[] && j.checks == map[] && !j.tracking
    ensures CoreOf(im[id := j], ps)
  {
    var jm := im[id := j];
    forall i | i in jm
      ensures Exact(ps, jm[i])
    {
      if i in im {
        assert Exact(ps, im[i]);
      } else {
        EmptyIsExact(ps, j);
      }
    }
  }

  lemma EmptyIsExact(ps: map<Id, Policy>, j: Identity)
    requires j.policies == {} && j.access == map[] && j.checks == map[] && !j.tracking
    ensures Exact(ps, j)
  {
  }

  lemma RelinkKeepsConfigsLinked(cs: map<Id, Config>, im: map<Id, Identity>, id: Id, j: Identity)
    requires ConfigsLinked(cs, im)
    ensures ConfigsLinked(Relink(cs, id, if id in im then ReferencedConfigs(im[id].data) else {}, ReferencedConfigs(j.data)), im[id := j])
  {
  }

  lemma UpsertIdentityKeepsInv(m: Model, index: nat, id: Id, d: IdentityData)
    requires Inv(m)
    ensures Inv(UpsertIdentity(m, index, id, d))
  {
    var j := UpsertIdentity(m, index, id, d).identities[id];
    SetIdentityKeepsCore(m.identities, m.policies, id, j);
    RelinkKeepsConfigsLinked(m.configs, m.identities, id, j);
  }

  lemma UpsertIdentityRefines(m: Model, index: nat, a: Action, id: Id, d: IdentityData)
    requires !a.Delete?
    ensures ViewOf(UpsertIdentity(m, index, id, d)) == Step(ViewOf(m), IdentityEvent(a, id, d))
  {
    var i := if id in m.identities then m.identities[id].(data := d, index := index) else Identity(d, {}, map[], map[], index, false);
    RelinkKeepsDatas(m.configs, id, ConfigsOf(m, id), ReferencedConfigs(d));
    SetIdentity(m.identities, id, i);
  }

  /* ---- services ---- */

  lemma DeleteServiceKeepsInv(m: Model, index: nat, id: Id)
    requires Inv(m)
    ensures Inv(DeleteService(m, index, id))
  {
    if id in m.services {
      var n := m.(services := m.services - {id},
                  configs := RelinkServices(m.configs, id, Elems(m.services[id].data.configs), {}),
                  names := Unname(m.names, m.services[id].data.name, id));
      var pids := PoliciesListingService(m, id);
      DetachAllKeepsCore(RelatedService, n, index, id, pids);
      DetachAll(RelatedService, n, index, id, pids);
      ServiceGone(m, n, Fold(Detach(RelatedService, index, id), pids, n), index, id);
    }
  }

  lemma ServiceGone(m: Model, n: Model, o: Model, index: nat, id: Id)
    requires Inv(m) && id in m.services
    requires n.services == m.services - {id} && n.checks == m.checks && n.policies == m.policies && n.identities == m.identities
    requires n.configs == RelinkServices(m.configs, id, Elems(m.services[id].data.configs), {})
    requires DetachedFrom(RelatedService, n, o, index, id, PoliciesListingService(m, id)) && Core(o)
    ensures Inv(o)
  {
    UnlinkService(m, n, o, index, id);
    RelinkKeepsIdentities(m.configs, m.identities, id, Elems(m.services[id].data.configs));
    SamePayloadsStayLinked(n.configs, m.identities, o.identities);
  }

  lemma RelinkKeepsIdentities(cs: map<Id, Config>, im: map<Id, Identity>, id: Id, drop: set<Id>)
    requires ConfigsLinked(cs, im)
    ensures ConfigsLinked(RelinkServices(cs, id, drop, {}), im)
  {
  }

  lemma UnlinkService(m: Model, n: Model, o: Model, index: nat, id: Id)
    requires ServicesLinked(m.services, m.policies) && ChecksLinked(m.checks, m.policies)
    requires id in m.services && n.services == m.services - {id} && n.checks == m.checks && n.policies == m.policies
    requires DetachedFrom(RelatedService, n, o, index, id, PoliciesListingService(m, id))
    ensures ServicesLinked(o.services, o.policies) && ChecksLinked(o.checks, o.policies)
  {
    forall p, s | p in o.policies && s in o.policies[p].services
      ensures s in o.services && p in o.services[s].policies
    {
      assert s in m.policies[p].services;
    }
  }

  lemma DeleteServiceRefines(m: Model, index: nat, id: Id, d: ServiceData)
    requires ServicesLinked(m.services, m.policies)
    ensures ViewOf(DeleteService(m, index, id)) == Step(ViewOf(m), ServiceEvent(Delete, id, d))
  {
    if id in m.services {
      var s := m.services[id];
      var n := m.(services := m.services - {id},
                  configs := RelinkServices(m.configs, id, Elems(s.data.configs), {}),
                  names := Unname(m.names, s.data.name, id));
      DetachedEverywhere(RelatedService, n, index, id, PoliciesListingService(m, id));
      RelinkKeepsDatas(m.configs, id, Elems(s.data.configs), {});
      SetService(m.services, id, s);
    } else {
      assert ServiceViews(m.services) - {id} == ServiceViews(m.services);
      DropFromAll(RelatedService, m.policies, m.policies, index, id, {});
    }
  }

  lemma SetServiceKeepsLinks(ss: map<Id, Service>, ps: map<Id, Policy>, id: Id, s: Service)
    requires ServicesLinked(ss, ps) && (id in ss ==> s.policies == ss[id].policies)
    ensures ServicesLinked(ss[id := s], ps)
  {
  }

  lemma UpsertServiceKeepsInv(m: Model, index: nat, id: Id, d: ServiceData)
    requires Inv(m)
    ensures Inv(UpsertService(m, index, id, d))
  {
    var hit := PoliciesOf(m.services, id);
    BumpKeepsCore(m.identities, m.policies, hit, index);
    SetServiceKeepsLinks(m.services, BumpServices(m.policies, hit, index), id, NextService(m.services, index, id, d));
  }

  lemma UpsertServiceRefines(m: Model, index: nat, a: Action, id: Id, d: ServiceData)
    requires !a.Delete?
    ensures ViewOf(UpsertService(m, index, id, d)) == Step(ViewOf(m), ServiceEvent(a, id, d))
  {
    RelinkKeepsDatas(m.configs, id, DroppedConfigs(m.services, id, d), AddedConfigs(m.services, id, d));
    SetService(m.services, id, NextService(m.services, index, id, d));
    BumpKeepsViews(m.policies, PoliciesOf(m.services, id), index);
  }

  /* ---- posture checks ---- */

  lemma DeleteCheckKeepsInv(m: Model, index: nat, id: Id)
    requires Inv(m)
    ensures Inv(DeleteCheck(m, index, id))
  {
    var pids := PoliciesListingCheck(m, id);
    var n := Fold(Detach(RelatedPostureCheck, index, id), pids, m);
    DetachAllKeepsCore(RelatedPostureCheck, m, index, id, pids);
    DetachAll(RelatedPostureCheck, m, index, id, pids);
    UnlinkCheck(m, n, index, id);
    SamePayloadsStayLinked(m.configs, m.identities, n.identities);
  }

  lemma UnlinkCheck(m: Model, n: Model, index: nat, id: Id)
    requires ServicesLinked(m.services, m.policies) && ChecksLinked(m.checks, m.policies)
    requires DetachedFrom(RelatedPostureCheck, m, n, index, id, PoliciesListingCheck(m, id))
    ensures ServicesLinked(n.services, n.policies) && ChecksLinked(n.checks - {id}, n.policies)
  {
    forall p, c | p in n.policies && c in n.policies[p].checks
      ensures c in n.checks - {id} && p in n.checks[c].policies
    {
      assert c in m.policies[p].checks;
    }
  }

  lemma DeleteCheckRefines(m: Model, index: nat, id: Id, d: CheckData)
    requires ChecksLinked(m.checks, m.policies)
    ensures ViewOf(DeleteCheck(m, index, id)) == Step(ViewOf(m), CheckEvent(Delete, id, d))
  {
    DetachedEverywhere(RelatedPostureCheck, m, index, id, PoliciesListingCheck(m, id));
    assert CheckDatas(m.checks - {id}) == CheckDatas(m.checks) - {id};
  }

  lemma SetCheckKeepsLinks(cs: map<Id, Check>, ps: map<Id, Policy>, id: Id, c: Check)
    requires ChecksLinked(cs, ps) && (id in cs ==> c.policies == cs[id].policies)
    ensures ChecksLinked(cs[id := c], ps)
  {
  }

  lemma UpsertCheckKeepsInv(m: Model, index: nat, id: Id, d: CheckData)
    requires Inv(m)
    ensures Inv(UpsertCheck(m, index, id, d))
  {
    var n := UpsertCheck(m, index, id, d);
    BumpKeepsCore(m.identities, m.policies, n.checks[id].policies, index);
    SetCheckKeepsLinks(m.checks, n.policies, id, n.checks[id]);
  }

  lemma UpsertCheckRefines(m: Model, index: nat, a: Action, id: Id, d: CheckData)
    requires !a.Delete?
    ensures ViewOf(UpsertCheck(m, index, id, d)) == Step(ViewOf(m), CheckEvent(a, id, d))
  {
    var n := UpsertCheck(m, index, id, d);
    BumpKeepsViews(m.policies, n.checks[id].policies, index);
    assert CheckDatas(n.checks) == CheckDatas(m.checks)[id := d];
  }

  /* ---- policies ---- */

  lemma FlipKeepsDatas(im: map<Id, Identity>, pid: Id, p: Policy, q: Policy, hit: set<Id>, index: nat)
    ensures IdentityDatas(FlipEach(im, pid, p, q, index)) == IdentityDatas(im)
    ensures IdentityDatas(JoinEach(im, hit, pid, p, index, false)) == IdentityDatas(im)
  {
  }

  lemma SetPolicyKeepsLinks(ss: map<Id, Service>, cs: map<Id, Check>, ps: map<Id, Policy>, pid: Id, q: Policy)
    requires ServicesLinked(ss, ps) && ChecksLinked(cs, ps)
    requires if pid in ps then q.services == ps[pid].services && q.checks == ps[pid].checks else q.services == {} && q.checks == {}
    ensures ServicesLinked(ss, ps[pid := q]) && ChecksLinked(cs, ps[pid := q])
  {
  }

  lemma SameDatasStayLinked(cs: map<Id, Config>, im: map<Id, Identity>, jm: map<Id, Identity>)
    requires ConfigsLinked(cs, im) && IdentityDatas(jm) == IdentityDatas(im)
    ensures ConfigsLinked(cs, jm)
  {
    assert jm.Keys == im.Keys;
    assert forall i :: i in im ==> IdentityDatas(jm)[i] == IdentityDatas(im)[i];
  }

  lemma UpsertPolicyKeepsInv(m: Model, index: nat, id: Id, d: PolicyData)
    requires Inv(m) && !d.policyType.InvalidPolicy?
    ensures Inv(UpsertPolicy(m, index, id, d))
  {
    var n, q := UpsertPolicy(m, index, id, d), NextPolicy(m.policies, index, id, d);
    UpsertPolicyKeepsCore(m, index, id, d);
    SetPolicyKeepsLinks(m.services, m.checks, m.policies, id, q);
    if id in m.policies {
      FlipKeepsDatas(m.identities, id, m.policies[id], q, {}, index);
    }
    SameDatasStayLinked(m.configs, m.identities, n.identities);
  }

  lemma UpsertPolicyRefines(m: Model, index: nat, a: Action, id: Id, d: PolicyData)
    requires !a.Delete?
    ensures ViewOf(UpsertPolicy(m, index, id, d)) == Step(ViewOf(m), PolicyEvent(a, id, d))
  {
    var q := NextPolicy(m.policies, index, id, d);
    if id in m.policies {
      FlipKeepsDatas(m.identities, id, m.policies[id], q, {}, index);
    }
    SetPolicy(m.policies, id, q);
  }

  lemma DeletePolicyKeepsInv(m: Model, index: nat, id: Id)
    requires Inv(m)
    ensures Inv(DeletePolicy(m, index, id))
  {
    DeletePolicyKeepsCore(m, index, id);
    FewerMembersStayLinked(m.services, m.checks, m.policies, m.policies - {id});
    if id in m.policies {
      FlipKeepsDatas(m.identities, id, m.policies[id], m.policies[id], m.policies[id].identities, index);
    }
    SameDatasStayLinked(m.configs, m.identities, DeletePolicy(m, index, id).identities);
  }

  lemma DeletePolicyRefines(m: Model, index: nat, id: Id, d: PolicyData)
    ensures ViewOf(DeletePolicy(m, index, id)) == Step(ViewOf(m), PolicyEvent(Delete, id, d))
  {
    if id in m.policies {
      FlipKeepsDatas(m.identities, id, m.policies[id], m.policies[id], m.policies[id].identities, index);
    }
    assert PolicyViews(m.policies - {id}) == PolicyViews(m.policies) - {id};
  }

  lemma ChangedPolicyRefines(p: Policy, live: set<Id>, index: nat, c: PolicyChange)
    requires p.identities <= live
    ensures ViewOfPolicy(ChangedPolicy(p, live, index, c)) == ChangePolicy(live, ViewOfPolicy(p), c)
  {
    var ids := Elems(c.relatedIds);
    assert p.identities - ids * live == p.identities - ids;
  }

  lemma ChangeRefines(m: Model, index: nat, c: PolicyChange)
    requires Mirrored(m.identities, m.policies)
    ensures ViewOf(HandlePolicyChange(m, index, c)) == Step(ViewOf(m), PolicyChangeEvent(c))
  {
    if c.policyId in m.policies {
      var n, p := HandlePolicyChange(m, index, c), m.policies[c.policyId];
      ChangeKeepsPayloads(m, index, c);
      assert IdentityDatas(n.identities) == IdentityDatas(m.identities);
      assert ServiceViews(n.services) == ServiceViews(m.services);
      assert CheckDatas(n.checks) == CheckDatas(m.checks);
      assert p.identities <= m.identities.Keys;
      ChangedPolicyRefines(p, m.identities.Keys, index, c);
      SetPolicy(m.policies, c.policyId, ChangedPolicy(p, m.identities.Keys, index, c));
    }
  }

  /* ---- configs and config types ---- */

  lemma ClearConfigKeepsOthers(d: IdentityData, id: Id, c: Id)
    requires c != id && c in ReferencedConfigs(d)
    ensures c in ReferencedConfigs(ClearConfig(d, id))
  {
    var s, t :| s in d.serviceConfigs && t in d.serviceConfigs[s] && d.serviceConfigs[s][t] == c;
    assert t in WithoutConfig(d.serviceConfigs[s], id);
    assert s in ClearConfig(d, id).serviceConfigs;
  }

  lemma ClearKeepsConfigsLinked(cs: map<Id, Config>, im: map<Id, Identity>, id: Id)
    requires ConfigsLinked(cs, im)
    ensures ConfigsLinked(cs - {id}, ClearConfigEach(im, IdentitiesUsing(cs, id), id))
  {
    var jm := ClearConfigEach(im, IdentitiesUsing(cs, id), id);
    forall c, i | c in cs - {id} && i in cs[c].identities
      ensures i in jm && c in ReferencedConfigs(jm[i].data)
    {
      ClearConfigKeepsOthers(im[i].data, id, c);
    }
  }

  lemma SetConfigKeepsLinked(cs: map<Id, Config>, im: map<Id, Identity>, index: nat, id: Id, d: ConfigData)
    requires ConfigsLinked(cs, im)
    ensures ConfigsLinked(cs[id := NextConfig(cs, index, id, d)], im)
  {
  }

  lemma DeleteConfigKeepsInv(m: Model, index: nat, id: Id)
    requires Inv(m)
    ensures Inv(DeleteConfig(m, index, id))
  {
    var hit := ServicesUsing(m.configs, id);
    var bumped := PoliciesOfServices(m.services, hit);
    BumpKeepsLinks(m.services, m.checks, m.policies, hit, bumped, index);
    SameTablesKeepCore(m.identities, m.policies, ClearConfigEach(m.identities, IdentitiesUsing(m.configs, id), id),
                       BumpServices(m.policies, bumped, index));
    ClearKeepsConfigsLinked(m.configs, m.identities, id);
  }

  lemma UpsertConfigKeepsInv(m: Model, index: nat, id: Id, d: ConfigData)
    requires Inv(m)
    ensures Inv(UpsertConfig(m, index, id, d))
  {
    var hit := ServicesChangedBy(m.configs, id, d);
    var bumped := PoliciesOfServices(m.services, hit);
    BumpKeepsLinks(m.services, m.checks, m.policies, hit, bumped, index);
    BumpKeepsCore(m.identities, m.policies, bumped, index);
    SetConfigKeepsLinked(m.configs, m.identities, index, id, d);
  }

  lemma DeleteConfigViews(m: Model, index: nat, id: Id)
    ensures ViewOf(DeleteConfig(m, index, id)) ==
            ViewOf(m).(configs := ViewOf(m).configs - {id},
                       identities := IdentityDatas(ClearConfigEach(m.identities, IdentitiesUsing(m.configs, id), id)))
  {
    var hit := ServicesUsing(m.configs, id);
    RefreshKeepsViews(m.services, hit, index);
    BumpKeepsViews(m.policies, PoliciesOfServices(m.services, hit), index);
    assert ConfigDatas(m.configs - {id}) == ConfigDatas(m.configs) - {id};
  }

  lemma ClearedForgets(d: IdentityData, id: Id)
    ensures id !in ReferencedConfigs(ClearConfig(d, id))
  {
  }

  // Deleting a config clears the overrides of the identities the config lists,
  // which the sender does not: the content moves as the reference says exactly
  // when the config lists none.
  lemma DeleteConfigRefinesIff(m: Model, index: nat, id: Id, d: ConfigData)
    requires ConfigsLinked(m.configs, m.identities)
    ensures ViewOf(DeleteConfig(m, index, id)) == Step(ViewOf(m), ConfigEvent(Delete, id, d)) <==> IdentitiesUsing(m.configs, id) == {}
  {
    DeleteConfigViews(m, index, id);
    var using := IdentitiesUsing(m.configs, id);
    var jm := ClearConfigEach(m.identities, using, id);
    if using == {} {
      assert jm == m.identities;
    } else {
      var i :| i in using;
      ClearedForgets(m.identities[i].data, id);
      assert IdentityDatas(jm)[i] != IdentityDatas(m.identities)[i];
    }
  }

  lemma DeleteConfigRefines(m: Model, index: nat, id: Id, d: ConfigData)
    requires ConfigsLinked(m.configs, m.identities)
    requires Detaches(ViewOf(m), ConfigEvent(Delete, id, d))
    ensures ViewOf(DeleteConfig(m, index, id)) == Step(ViewOf(m), ConfigEvent(Delete, id, d))
  {
    DeleteConfigRefinesIff(m, index, id, d);
    NobodyUses(m, id, d);
  }

  lemma UpsertConfigRefines(m: Model, index: nat, a: Action, id: Id, d: ConfigData)
    requires !a.Delete?
    ensures ViewOf(UpsertConfig(m, index, id, d)) == Step(ViewOf(m), ConfigEvent(a, id, d))
  {
    var hit := ServicesChangedBy(m.configs, id, d);
    RefreshKeepsViews(m.services, hit, index);
    BumpKeepsViews(m.policies, PoliciesOfServices(m.services, hit), index);
    assert ConfigDatas(m.configs[id := NextConfig(m.configs, index, id, d)]) == ConfigDatas(m.configs)[id := d];
  }

  lemma NobodyUses(m: Model, id: Id, d: ConfigData)
    requires ConfigsLinked(m.configs, m.identities)
    requires Detaches(ViewOf(m), ConfigEvent(Delete, id, d))
    ensures IdentitiesUsing(m.configs, id) == {}
  {
    forall i | i in m.identities
      ensures i !in IdentitiesUsing(m.configs, id)
    {
      assert i in ViewOf(m).identities && id !in ReferencedConfigs(ViewOf(m).identities[i]);
    }
  }

  lemma HandleConfigTypeKeepsInv(m: Model, index: nat, a: Action, id: Id, d: ConfigTypeData)
    requires Inv(m)
    ensures Inv(HandleConfigType(m, index, a, id, d))
  {
    var hit := if a.Delete? then {} else ServicesOfType(m, id);
    var bumped := PoliciesOfServices(m.services, hit);
    BumpKeepsLinks(m.services, m.checks, m.policies, hit, bumped, index);
    BumpKeepsCore(m.identities, m.policies, bumped, index);
  }

  lemma HandleConfigTypeRefines(m: Model, index: nat, a: Action, id: Id, d: ConfigTypeData)
    ensures ViewOf(HandleConfigType(m, index, a, id, d)) == Step(ViewOf(m), ConfigTypeEvent(a, id, d))
  {
    var hit := if a.Delete? then {} else ServicesOfType(m, id);
    RefreshKeepsViews(m.services, hit, index);
    BumpKeepsViews(m.policies, PoliciesOfServices(m.services, hit), index);
    assert ConfigTypeDatas(m.configTypes - {id}) == ConfigTypeDatas(m.configTypes) - {id};
    assert ConfigTypeDatas(m.configTypes[id := ConfigType(d, index)]) == ConfigTypeDatas(m.configTypes)[id := d];
  }

  /* ---- routers ---- */

  // Everything but the configs, which a local router's shrinking list collects.
  function SharedPart(v: View): View {
    v.(configs := map[])
  }

  lemma HandleRouterKeepsInv(m: Model, a: Action, id: Id, d: RouterData)
    requires Inv(m)
    ensures Inv(HandleRouter(m, a, id, d))
  {
  }

  lemma HandleRouterRefines(m: Model, a: Action, id: Id, d: RouterData)
    ensures SharedPart(ViewOf(HandleRouter(m, a, id, d))) == SharedPart(Step(ViewOf(m), RouterEvent(a, id, d)))
    ensures m.selfId == "" || id !in m.routers ==> ViewOf(HandleRouter(m, a, id, d)) == Step(ViewOf(m), RouterEvent(a, id, d))
  {
    if m.selfId == "" || id !in m.routers {
      assert m.configs - Collected(m, a, id, d) == m.configs;
    }
  }

  /* ---- what events leave alone ---- */

  ghost predicate SamePayloads(ss: map<Id, Service>, tt: map<Id, Service>) {
    tt.Keys == ss.Keys && forall s :: s in ss ==> tt[s].data == ss[s].data
  }

  // The local router, its configs' payloads, the routers, the services'
  // payloads and their names.
  ghost predicate Frame(m: Model, n: Model) {
    && n.selfId == m.selfId && n.routers == m.routers && n.names == m.names
    && SamePayloads(m.services, n.services)
  }

  lemma ChangeFrame(m: Model, index: nat, c: PolicyChange)
    ensures Frame(m, HandlePolicyChange(m, index, c)) && HandlePolicyChange(m, index, c).configs == m.configs
  {
    ChangeKeepsPayloads(m, index, c);
  }

  lemma ConfigFrame(m: Model, index: nat, id: Id, d: ConfigData)
    ensures Frame(m, DeleteConfig(m, index, id)) && Frame(m, UpsertConfig(m, index, id, d))
  {
  }

  lemma ConfigTypeFrame(m: Model, index: nat, a: Action, id: Id, d: ConfigTypeData)
    ensures Frame(m, HandleConfigType(m, index, a, id, d))
  {
  }

  lemma DeleteIdentityFrame(m: Model, index: nat, id: Id)
    ensures var n := DeleteIdentity(m, index, id); Frame(m, n) && ConfigDatas(n.configs) == ConfigDatas(m.configs)
  {
    var n := m.(configs := Relink(m.configs, id, ConfigsOf(m, id), {}));
    RelinkKeepsDatas(m.configs, id, ConfigsOf(m, id), {});
    if id in m.identities {
      DetachAll(RelatedIdentity, n, index, id, PoliciesListingIdentity(n, id));
    }
  }

  lemma DeleteServiceFrame(m: Model, index: nat, id: Id)
    requires id in m.services
    ensures var n := DeleteService(m, index, id);
            && n.selfId == m.selfId && n.services == m.services - {id} && n.routers == m.routers
            && n.names == Unname(m.names, m.services[id].data.name, id)
            && ConfigDatas(n.configs) == ConfigDatas(m.configs)
  {
    var n := m.(services := m.services - {id},
                configs := RelinkServices(m.configs, id, Elems(m.services[id].data.configs), {}),
                names := Unname(m.names, m.services[id].data.name, id));
    var o := Fold(Detach(RelatedService, index, id), PoliciesListingService(m, id), n);
    RelinkKeepsDatas(m.configs, id, Elems(m.services[id].data.configs), {});
    DetachAll(RelatedService, n, index, id, PoliciesListingService(m, id));
    SameTables(n, o, id);
  }

  lemma DeleteCheckFrame(m: Model, index: nat, id: Id)
    ensures var n := DeleteCheck(m, index, id); Frame(m, n) && n.configs == m.configs
  {
    DetachAll(RelatedPostureCheck, m, index, id, PoliciesListingCheck(m, id));
  }

  // Events that are about neither services nor routers.
  lemma HandleFrame(m: Model, index: nat, e: Event)
    requires !e.ServiceEvent? && !e.RouterEvent?
    ensures Frame(m, Handle(m, index, e))
  {
    match e
    case ConfigTypeEvent(a, id, d) => ConfigTypeFrame(m, index, a, id, d);
    case ConfigEvent(a, id, d) => ConfigFrame(m, index, id, d);
    case IdentityEvent(a, id, d) => if a.Delete? { DeleteIdentityFrame(m, index, id); } else { assert Frame(m, UpsertIdentity(m, index, id, d)); }
    case PolicyEvent(a, id, d) => assert Frame(m, UpsertPolicy(m, index, id, d)) && Frame(m, DeletePolicy(m, index, id));
    case CheckEvent(a, id, d) => if a.Delete? { DeleteCheckFrame(m, index, id); } else { assert Frame(m, UpsertCheck(m, index, id, d)); }
    case KeyEvent(a, id, d) =>
    case RevocationEvent(a, id, d) =>
    case PolicyChangeEvent(c) => ChangeFrame(m, index, c);
  }

  lemma HandleKeepsSelf(m: Model, index: nat, e: Event)
    ensures Handle(m, index, e).selfId == m.selfId
  {
    if e.ServiceEvent? {
      if e.id in m.services {
        DeleteServiceFrame(m, index, e.id);
      }
    } else if e.RouterEvent? {
      assert HandleRouter(m, e.action, e.id, e.router).selfId == m.selfId;
    } else {
      HandleFrame(m, index, e);
    }
  }
}
