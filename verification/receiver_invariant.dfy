// What every event keeps true of the router-side data model, and that its
// relational content moves exactly as the reference meaning says.
module ReceiverInvariant {
  import opened DataState
  import opened RelationalView
  import opened ReceiverSpec
  import opened ReceiverCounts

  /* ---- the invariant ---- */

  // identity.policies and policy.identities are the same relation.
  ghost predicate Mirrored(im: map<Id, Identity>, ps: map<Id, Policy>) {
    && (forall i, p :: i in im && p in im[i].policies ==> p in ps && i in ps[p].identities)
    && (forall p, i :: p in ps && i in ps[p].identities ==> i in im && p in im[i].policies)
  }

  ghost predicate AllExact(im: map<Id, Identity>, ps: map<Id, Policy>) {
    forall i :: i in im ==> Exact(ps, im[i])
  }

  ghost predicate ValidTypes(ps: map<Id, Policy>) {
    forall p :: p in ps ==> !ps[p].data.policyType.InvalidPolicy?
  }

  // A service lists every policy that grants it, and possibly policies that no
  // longer exist; likewise a posture check.
  ghost predicate ServicesLinked(ss: map<Id, Service>, ps: map<Id, Policy>) {
    forall p, s :: p in ps && s in ps[p].services ==> s in ss && p in ss[s].policies
  }

  ghost predicate ChecksLinked(cs: map<Id, Check>, ps: map<Id, Policy>) {
    forall p, c :: p in ps && c in ps[p].checks ==> c in cs && p in cs[c].policies
  }

  // A config lists only identities that override some service with it.
  ghost predicate ConfigsLinked(cs: map<Id, Config>, im: map<Id, Identity>) {
    forall c, i :: c in cs && i in cs[c].identities ==> i in im && c in ReferencedConfigs(im[i].data)
  }

  ghost predicate CoreOf(im: map<Id, Identity>, ps: map<Id, Policy>) {
    Mirrored(im, ps) && AllExact(im, ps) && ValidTypes(ps)
  }

  ghost predicate Core(m: Model) {
    CoreOf(m.identities, m.policies)
  }

  ghost predicate Inv(m: Model) {
    && Core(m)
    && ServicesLinked(m.services, m.policies)
    && ChecksLinked(m.checks, m.policies)
    && ConfigsLinked(m.configs, m.identities)
  }

  /* ---- relational content ---- */

  function IdentityDatas(im: map<Id, Identity>): (r: map<Id, IdentityData>)
    ensures r.Keys == im.Keys && forall i :: i in r ==> r[i] == im[i].data
  {
    map i | i in im :: im[i].data
  }

  function ServiceViews(ss: map<Id, Service>): (r: map<Id, ServiceView>)
    ensures r.Keys == ss.Keys && forall s :: s in r ==> r[s] == ViewOfService(ss[s].data)
  {
    map s | s in ss :: ViewOfService(ss[s].data)
  }

  function ViewOfPolicy(p: Policy): PolicyView {
    PolicyView(p.data, p.services, p.checks, p.identities)
  }

  function PolicyViews(ps: map<Id, Policy>): (r: map<Id, PolicyView>)
    ensures r.Keys == ps.Keys && forall p :: p in r ==> r[p] == ViewOfPolicy(ps[p])
  {
    map p | p in ps :: ViewOfPolicy(ps[p])
  }

  function CheckDatas(cs: map<Id, Check>): (r: map<Id, CheckData>)
    ensures r.Keys == cs.Keys && forall c :: c in r ==> r[c] == cs[c].data
  {
    map c | c in cs :: cs[c].data
  }

  function ConfigDatas(cs: map<Id, Config>): (r: map<Id, ConfigData>)
    ensures r.Keys == cs.Keys && forall c :: c in r ==> r[c] == cs[c].data
  {
    map c | c in cs :: cs[c].data
  }

  function ConfigTypeDatas(ts: map<Id, ConfigType>): (r: map<Id, ConfigTypeData>)
    ensures r.Keys == ts.Keys && forall t :: t in r ==> r[t] == ts[t].data
  {
    map t | t in ts :: ts[t].data
  }

  function ViewOf(m: Model): View {
    View(ConfigTypeDatas(m.configTypes), ConfigDatas(m.configs), IdentityDatas(m.identities), ServiceViews(m.services),
         m.routers, PolicyViews(m.policies), CheckDatas(m.checks), m.keys, m.revocations)
  }

  lemma InvIsCoherent(m: Model)
    requires Inv(m)
    ensures Coherent(ViewOf(m))
  {
  }

  /* ---- service policy changes ---- */

  lemma SameRelation(im: map<Id, Identity>, ps: map<Id, Policy>, im': map<Id, Identity>, ps': map<Id, Policy>)
    requires Mirrored(im, ps)
    requires im.Keys == im'.Keys && forall i :: i in im ==> im'[i].policies == im[i].policies
    requires ps.Keys == ps'.Keys && forall p :: p in ps ==> ps'[p].identities == ps[p].identities
    ensures Mirrored(im', ps')
  {
  }

  lemma JoinEachKeepsExact(im: map<Id, Identity>, ps: map<Id, Policy>, hit: set<Id>, index: nat, pid: Id, q: Policy, add: bool)
    requires AllExact(im, ps) && ValidTypes(ps) && pid in ps && q == ps[pid].(identities := q.identities)
    ensures AllExact(JoinEach(im, hit, pid, ps[pid], index, add), ps[pid := q])
  {
    var jm := JoinEach(im, hit, pid, ps[pid], index, add);
    forall i | i in jm
      ensures Exact(ps[pid := q], jm[i])
    {
      JoinKeepsExact(ps, im[i], pid, index, add);
      SameMembersSameExact(ps, ps[pid := q], jm[i]);
    }
  }

  lemma JoinEachKeepsMirror(im: map<Id, Identity>, ps: map<Id, Policy>, hit: set<Id>, index: nat, pid: Id, add: bool)
    requires Mirrored(im, ps) && pid in ps && hit <= im.Keys
    ensures Mirrored(JoinEach(im, hit, pid, ps[pid], index, add), ps[pid := ps[pid].(identities := Amend(ps[pid].identities, hit, add))])
  {
    var jm := JoinEach(im, hit, pid, ps[pid], index, add);
    forall i | i in jm
      ensures jm[i].policies == if i in hit then Amend(im[i].policies, {pid}, add) else im[i].policies
    {
    }
  }

  lemma FollowServicesEachKeepsExact(im: map<Id, Identity>, ps: map<Id, Policy>, index: nat, pid: Id, ids: seq<Id>, add: bool)
    requires CoreOf(im, ps) && pid in ps && Distinct(ids)
    requires if add then Elems(ids) !! ps[pid].services else Elems(ids) <= ps[pid].services
    ensures var q := ServicesAmended(ps[pid], index, ids, add);
            AllExact(FollowServicesEach(im, pid, ps[pid], q, ids, index, add), ps[pid := q])
  {
    var q := ServicesAmended(ps[pid], index, ids, add);
    var jm := FollowServicesEach(im, pid, ps[pid], q, ids, index, add);
    forall i | i in jm
      ensures Exact(ps[pid := q], jm[i])
    {
      if i in ps[pid].identities {
        FollowServicesKeepsExact(ps, im[i], pid, ids, index, add);
      } else {
        SameMembersSameExact(ps, ps[pid := q], im[i]);
      }
    }
  }

  lemma FollowChecksEachKeepsExact(im: map<Id, Identity>, ps: map<Id, Policy>, index: nat, pid: Id, q: Policy, ids: seq<Id>, add: bool)
    requires CoreOf(im, ps) && pid in ps && Distinct(ids)
    requires if add then Elems(ids) !! ps[pid].checks else Elems(ids) <= ps[pid].checks
    requires q == ps[pid].(checks := Amend(ps[pid].checks, Elems(ids), add), checksIndex := index)
    ensures AllExact(FollowChecksEach(im, pid, ps[pid], ids, index, add), ps[pid := q])
  {
    var jm := FollowChecksEach(im, pid, ps[pid], ids, index, add);
    forall i | i in jm
      ensures Exact(ps[pid := q], jm[i])
    {
      if i in ps[pid].identities {
        FollowChecksKeepsExact(ps, im[i], pid, q, ids, index, add);
      } else {
        SameMembersSameExact(ps, ps[pid := q], im[i]);
      }
    }
  }

  // What the receiver needs of a change for its counts to stay exact.
  ghost predicate CountsOnce(ps: map<Id, Policy>, c: PolicyChange) {
    c.policyId in ps ==>
      var p := ps[c.policyId];
      match c.relatedType
      case RelatedService =>
        Distinct(c.relatedIds) && (if c.add then Elems(c.relatedIds) !! p.services else Elems(c.relatedIds) <= p.services)
      case RelatedPostureCheck =>
        Distinct(c.relatedIds) && (if c.add then Elems(c.relatedIds) !! p.checks else Elems(c.relatedIds) <= p.checks)
      case _ => true
  }

  lemma ChangedKeepsCore(im: map<Id, Identity>, ps: map<Id, Policy>, index: nat, c: PolicyChange)
    requires CoreOf(im, ps) && c.policyId in ps && CountsOnce(ps, c)
    ensures CoreOf(ChangedIdentities(im, ps[c.policyId], index, c), ps[c.policyId := ChangedPolicy(ps[c.policyId], im.Keys, index, c)])
  {
    var pid, p := c.policyId, ps[c.policyId];
    var jm, q := ChangedIdentities(im, p, index, c), ChangedPolicy(p, im.Keys, index, c);
    match c.relatedType
    case RelatedIdentity =>
      JoinEachKeepsExact(im, ps, Elems(c.relatedIds) * im.Keys, index, pid, q, c.add);
      JoinEachKeepsMirror(im, ps, Elems(c.relatedIds) * im.Keys, index, pid, c.add);
    case RelatedService =>
      FollowServicesEachKeepsExact(im, ps, index, pid, c.relatedIds, c.add);
      SameRelation(im, ps, jm, ps[pid := q]);
    case RelatedPostureCheck =>
      FollowChecksEachKeepsExact(im, ps, index, pid, q, c.relatedIds, c.add);
      SameRelation(im, ps, jm, ps[pid := q]);
    case InvalidRelatedType =>
      assert ps[pid := p] == ps;
  }

  lemma ChangeKeepsCore(m: Model, index: nat, c: PolicyChange)
    requires Core(m) && CountsOnce(m.policies, c)
    ensures Core(HandlePolicyChange(m, index, c))
  {
    if c.policyId in m.policies {
      ChangedKeepsCore(m.identities, m.policies, index, c);
    }
  }

  // The members a change adds are live.
  ghost predicate AddsLive(m: Model, c: PolicyChange) {
    c.add && c.policyId in m.policies ==>
      && (c.relatedType.RelatedService? ==> Elems(c.relatedIds) <= m.services.Keys)
      && (c.relatedType.RelatedPostureCheck? ==> Elems(c.relatedIds) <= m.checks.Keys)
  }

  lemma LinkKeepsServicesLinked(ss: map<Id, Service>, ps: map<Id, Policy>, pid: Id, q: Policy, ids: set<Id>, add: bool)
    requires ServicesLinked(ss, ps) && pid in ps && q.services == Amend(ps[pid].services, ids, add) && (add ==> ids <= ss.Keys)
    ensures ServicesLinked(LinkServices(ss, ids, pid, add), ps[pid := q])
  {
  }

  lemma LinkKeepsChecksLinked(cs: map<Id, Check>, ps: map<Id, Policy>, pid: Id, q: Policy, ids: set<Id>, add: bool)
    requires ChecksLinked(cs, ps) && pid in ps && q.checks == Amend(ps[pid].checks, ids, add) && (add ==> ids <= cs.Keys)
    ensures ChecksLinked(LinkChecks(cs, ids, pid, add), ps[pid := q])
  {
  }

  // The part of a change that concerns the links of services and checks.
  lemma ChangedKeepsLinks(ss: map<Id, Service>, cs: map<Id, Check>, ps: map<Id, Policy>, live: set<Id>, index: nat, c: PolicyChange)
    requires ServicesLinked(ss, ps) && ChecksLinked(cs, ps) && c.policyId in ps
    requires c.add && c.relatedType.RelatedService? ==> Elems(c.relatedIds) <= ss.Keys
    requires c.add && c.relatedType.RelatedPostureCheck? ==> Elems(c.relatedIds) <= cs.Keys
    ensures var qs := ps[c.policyId := ChangedPolicy(ps[c.policyId], live, index, c)];
            && ServicesLinked(if c.relatedType.RelatedService? then LinkServices(ss, Elems(c.relatedIds), c.policyId, c.add) else ss, qs)
            && ChecksLinked(if c.relatedType.RelatedPostureCheck? then LinkChecks(cs, Elems(c.relatedIds), c.policyId, c.add) else cs, qs)
  {
    var q := ChangedPolicy(ps[c.policyId], live, index, c);
    if c.relatedType.RelatedService? {
      LinkKeepsServicesLinked(ss, ps, c.policyId, q, Elems(c.relatedIds), c.add);
    } else if c.relatedType.RelatedPostureCheck? {
      LinkKeepsChecksLinked(cs, ps, c.policyId, q, Elems(c.relatedIds), c.add);
    }
  }

  lemma ChangeKeepsLinks(m: Model, index: nat, c: PolicyChange)
    requires ServicesLinked(m.services, m.policies) && ChecksLinked(m.checks, m.policies)
    requires AddsLive(m, c)
    ensures var n := HandlePolicyChange(m, index, c);
            ServicesLinked(n.services, n.policies) && ChecksLinked(n.checks, n.policies)
  {
    if c.policyId in m.policies {
      ChangedKeepsLinks(m.services, m.checks, m.policies, m.identities.Keys, index, c);
    }
  }

  lemma ChangedKeepsDatas(im: map<Id, Identity>, p: Policy, index: nat, c: PolicyChange)
    ensures forall i :: i in im ==> ChangedIdentities(im, p, index, c)[i].data == im[i].data
  {
    match c.relatedType
    case RelatedIdentity =>
    case RelatedService =>
    case RelatedPostureCheck =>
    case InvalidRelatedType =>
  }

  // Joining, leaving and counting never touch an identity's own payload.
  lemma ChangeKeepsPayloads(m: Model, index: nat, c: PolicyChange)
    ensures var n := HandlePolicyChange(m, index, c);
            && n.identities.Keys == m.identities.Keys
            && (forall i :: i in m.identities ==> n.identities[i].data == m.identities[i].data)
            && n.policies.Keys == m.policies.Keys
            && n.services.Keys == m.services.Keys
            && (forall s :: s in m.services ==> n.services[s].data == m.services[s].data)
            && n.checks.Keys == m.checks.Keys
            && (forall k :: k in m.checks ==> n.checks[k].data == m.checks[k].data)
            && n == m.(identities := n.identities, services := n.services, checks := n.checks, policies := n.policies)
  {
    if c.policyId in m.policies {
      ChangedKeepsDatas(m.identities, m.policies[c.policyId], index, c);
    }
  }

  lemma ChangeKeepsInv(m: Model, index: nat, c: PolicyChange)
    requires Inv(m) && CountsOnce(m.policies, c) && AddsLive(m, c)
    ensures Inv(HandlePolicyChange(m, index, c))
  {
    ChangeKeepsCore(m, index, c);
    ChangeKeepsLinks(m, index, c);
    ChangeKeepsPayloads(m, index, c);
  }

  /* ---- policies ---- */

  lemma FlipKeepsExact(im: map<Id, Identity>, ps: map<Id, Policy>, pid: Id, q: Policy, index: nat)
    requires CoreOf(im, ps) && pid in ps && !q.data.policyType.InvalidPolicy?
    requires q == ps[pid].(data := q.data, servicesIndex := q.servicesIndex, checksIndex := q.checksIndex)
    ensures AllExact(FlipEach(im, pid, ps[pid], q, index), ps[pid := q])
  {
    var jm, qs := FlipEach(im, pid, ps[pid], q, index), ps[pid := q];
    forall i | i in jm
      ensures Exact(qs, jm[i])
    {
      if i in ps[pid].identities {
        var out := JoinPolicy(im[i], pid, ps[pid], index, false);
        JoinKeepsExact(ps, im[i], pid, index, false);
        SameMembersSameExact(ps, qs, out);
        JoinKeepsExact(qs, out, pid, index, true);
      } else {
        SameMembersSameExact(ps, qs, im[i]);
      }
    }
  }

  lemma SetKeepsExact(im: map<Id, Identity>, ps: map<Id, Policy>, pid: Id, q: Policy)
    requires AllExact(im, ps) && Mirrored(im, ps)
    requires if pid in ps then ViewOfPolicy(q).(data := ps[pid].data) == ViewOfPolicy(ps[pid]) && q.data.policyType == ps[pid].data.policyType
             else q.identities == {}
    ensures AllExact(im, ps[pid := q])
  {
    forall i | i in im
      ensures Exact(ps[pid := q], im[i])
    {
      SameMembersSameExact(ps, ps[pid := q], im[i]);
    }
  }

  lemma UpsertPolicyKeepsCore(m: Model, index: nat, pid: Id, d: PolicyData)
    requires Core(m) && !d.policyType.InvalidPolicy?
    ensures Core(UpsertPolicy(m, index, pid, d))
  {
    var n := UpsertPolicy(m, index, pid, d);
    var q := NextPolicy(m.policies, index, pid, d);
    if Flips(m.policies, pid, d) {
      FlipKeepsExact(m.identities, m.policies, pid, q, index);
    } else {
      SetKeepsExact(m.identities, m.policies, pid, q);
    }
    assert forall i :: i in m.identities ==> n.identities[i].policies == m.identities[i].policies;
  }

  lemma DeletePolicyKeepsCore(m: Model, index: nat, pid: Id)
    requires Core(m)
    ensures Core(DeletePolicy(m, index, pid))
  {
    var n := DeletePolicy(m, index, pid);
    if pid in m.policies {
      forall i | i in n.identities
        ensures Exact(n.policies, n.identities[i])
      {
        JoinKeepsExact(m.policies, m.identities[i], pid, index, false);
        SameMembersSameExact(m.policies, n.policies, n.identities[i]);
      }
    } else {
      assert n.policies == m.policies;
    }
  }

  lemma SameTablesKeepCore(im: map<Id, Identity>, ps: map<Id, Policy>, jm: map<Id, Identity>, qs: map<Id, Policy>)
    requires CoreOf(im, ps)
    requires im.Keys == jm.Keys && ps.Keys == qs.Keys
    requires forall i :: i in im ==> jm[i] == im[i].(data := jm[i].data, index := jm[i].index)
    requires forall p :: p in ps ==> ViewOfPolicy(qs[p]) == ViewOfPolicy(ps[p])
    ensures CoreOf(jm, qs)
  {
    forall i | i in jm
      ensures Exact(qs, jm[i])
    {
      assert Exact(ps, jm[i]);
      SameMembersSameExact(ps, qs, jm[i]);
    }
  }
}
