// The order in which a delete visits the policies it detaches from does not
// matter: detaching from two policies commutes.
module ReceiverOrder {
  import opened DataState
  import opened ReceiverSpec
  import opened ReceiverInvariant
  import opened ReceiverSteps

  lemma DropsCommute(acc: map<Id, Access>, t: PolicyType, a: set<Id>, u: PolicyType, b: set<Id>, index: nat)
    ensures UpdateEachService(UpdateEachService(acc, t, a, index, false), u, b, index, false) ==
            UpdateEachService(UpdateEachService(acc, u, b, index, false), t, a, index, false)
  {
    var l := UpdateEachService(UpdateEachService(acc, t, a, index, false), u, b, index, false);
    var r := UpdateEachService(UpdateEachService(acc, u, b, index, false), t, a, index, false);
    forall s
      ensures s in l <==> s in r
      ensures s in l ==> l[s] == r[s]
    {
      DropsCommuteAt(acc, t, a, u, b, index, s);
    }
  }

  lemma DropsCommuteAt(acc: map<Id, Access>, t: PolicyType, a: set<Id>, u: PolicyType, b: set<Id>, index: nat, s: Id)
    ensures var l := UpdateEachService(UpdateEachService(acc, t, a, index, false), u, b, index, false);
            var r := UpdateEachService(UpdateEachService(acc, u, b, index, false), t, a, index, false);
            (s in l <==> s in r) && (s in l ==> l[s] == r[s])
  {
    var x, y := UpdateEachService(acc, t, a, index, false), UpdateEachService(acc, u, b, index, false);
    if s in a && s in b {
      assert CurrentAccess(x, s) == Dropped(CurrentAccess(acc, s), t, index);
      assert CurrentAccess(y, s) == Dropped(CurrentAccess(acc, s), u, index);
      DropTwice(CurrentAccess(acc, s), t, u, index);
    } else if s in a {
      assert CurrentAccess(y, s) == CurrentAccess(acc, s);
    } else if s in b {
      assert CurrentAccess(x, s) == CurrentAccess(acc, s);
    }
  }

  function Dropped(a: Access, t: PolicyType, index: nat): Access {
    if a.UpdatePolicies(t, index, false).HasAccess() then a.UpdatePolicies(t, index, false) else NO_ACCESS
  }

  lemma DropTwice(a: Access, t: PolicyType, u: PolicyType, index: nat)
    ensures var l := Dropped(a, t, index).UpdatePolicies(u, index, false);
            var r := Dropped(a, u, index).UpdatePolicies(t, index, false);
            (l.HasAccess() <==> r.HasAccess()) && (l.HasAccess() ==> l == r)
  {
  }

  // Counts only go down, so an entry that disappears on the way would have
  // disappeared in the end.
  lemma OneDropCommutes(acc: map<Id, Access>, t: PolicyType, u: PolicyType, s: Id, index: nat)
    ensures UpdateServiceCount(UpdateServiceCount(acc, t, s, index, false), u, s, index, false) ==
            UpdateServiceCount(UpdateServiceCount(acc, u, s, index, false), t, s, index, false)
  {
  }

  lemma UncountsCommute(uses: map<Id, int>, a: set<Id>, b: set<Id>)
    ensures CountEach(CountEach(uses, a, false), b, false) == CountEach(CountEach(uses, b, false), a, false)
  {
  }

  lemma TouchesCommute(acc: map<Id, Access>, t: PolicyType, a: set<Id>, u: PolicyType, b: set<Id>, index: nat)
    ensures TouchEach(TouchEach(acc, t, a, index), u, b, index) == TouchEach(TouchEach(acc, u, b, index), t, a, index)
  {
  }

  /* ---- one identity ---- */

  lemma LeavesCommute(i: Identity, x: Id, p: Policy, y: Id, q: Policy, index: nat)
    requires x != y
    ensures JoinPolicy(JoinPolicy(i, x, p, index, false), y, q, index, false) ==
            JoinPolicy(JoinPolicy(i, y, q, index, false), x, p, index, false)
  {
    if x in i.policies && y in i.policies {
      assert i.policies - {x} - {y} == i.policies - {y} - {x};
      DropsCommute(i.access, p.data.policyType, p.services, q.data.policyType, q.services, index);
      UncountsCommute(i.checks, p.checks, q.checks);
    }
  }

  lemma FollowsCommute(i: Identity, x: Id, p: Policy, y: Id, q: Policy, id: Id, index: nat)
    ensures var p', q' := ServicesAmended(p, index, [id], false), ServicesAmended(q, index, [id], false);
            FollowServices(FollowServices(i, x, p, p', [id], index, false), y, q, q', [id], index, false) ==
            FollowServices(FollowServices(i, y, q, q', [id], index, false), x, p, p', [id], index, false)
  {
    LosesCommute(i, x, p, y, q, id, index);
    UncountsCommute(i.checks, p.checks, q.checks);
    var p', q' := ServicesAmended(p, index, [id], false), ServicesAmended(q, index, [id], false);
    FollowSplits(i, x, p, p', id, index);
    FollowSplits(i, y, q, q', id, index);
    FollowSplits(FollowServices(i, x, p, p', [id], index, false), y, q, q', id, index);
    FollowSplits(FollowServices(i, y, q, q', [id], index, false), x, p, p', id, index);
  }

  // Losing a service touches the access entry of that service, and the posture
  // checks when it was the policy's last.
  lemma FollowSplits(i: Identity, x: Id, p: Policy, p': Policy, id: Id, index: nat)
    requires p' == ServicesAmended(p, index, [id], false)
    ensures FollowServices(i, x, p, p', [id], index, false) ==
            i.(access := if i.tracking && x in i.policies then UpdateServiceCount(i.access, p.data.policyType, id, index, false) else i.access,
               checks := if x in i.policies && CrossesEmpty(p.services, p'.services, false) then CountEach(i.checks, p.checks, false) else i.checks)
  {
    assert [id][..0] == [];
    assert UpdateServiceCounts(i.access, p.data.policyType, [id], index, false) == UpdateServiceCount(i.access, p.data.policyType, id, index, false);
    var j := ServicesChanged(i, x, p, [id], index, false);
    if p'.services == {} {
      assert TouchEach(j.access, p'.data.policyType, {}, index) == j.access;
    }
  }

  lemma LosesCommute(i: Identity, x: Id, p: Policy, y: Id, q: Policy, id: Id, index: nat)
    ensures UpdateServiceCount(UpdateServiceCount(i.access, p.data.policyType, id, index, false), q.data.policyType, id, index, false) ==
            UpdateServiceCount(UpdateServiceCount(i.access, q.data.policyType, id, index, false), p.data.policyType, id, index, false)
  {
    OneDropCommutes(i.access, p.data.policyType, q.data.policyType, id, index);
  }

  lemma CheckLossesCommute(i: Identity, x: Id, p: Policy, y: Id, q: Policy, id: Id, index: nat)
    ensures ChecksChanged(ChecksChanged(i, x, p, [id], index, false), y, q, [id], index, false) ==
            ChecksChanged(ChecksChanged(i, y, q, [id], index, false), x, p, [id], index, false)
  {
    assert [id][..0] == [];
    TouchesCommute(i.access, p.data.policyType, p.services, q.data.policyType, q.services, index);
  }

  /* ---- the whole model ---- */

  lemma JoinEachCommutes(im: map<Id, Identity>, hit: set<Id>, x: Id, p: Policy, y: Id, q: Policy, index: nat)
    requires x != y
    ensures JoinEach(JoinEach(im, hit, x, p, index, false), hit, y, q, index, false) ==
            JoinEach(JoinEach(im, hit, y, q, index, false), hit, x, p, index, false)
  {
    forall i | i in im && i in hit
      ensures JoinPolicy(JoinPolicy(im[i], x, p, index, false), y, q, index, false) ==
              JoinPolicy(JoinPolicy(im[i], y, q, index, false), x, p, index, false)
    {
      LeavesCommute(im[i], x, p, y, q, index);
    }
  }

  lemma DetachIdentityCommutes(index: nat, id: Id, x: Id, y: Id, m: Model)
    requires x != y && x in m.policies && y in m.policies
    ensures var step := Detach(RelatedIdentity, index, id);
            step(x, step(y, m)) == step(y, step(x, m))
  {
    var hit := Elems([id]) * m.identities.Keys;
    var p, q := m.policies[x], m.policies[y];
    JoinEachCommutes(m.identities, hit, x, p, y, q, index);
    SetsCommute(m.policies, x, p.(identities := p.identities - hit), y, q.(identities := q.identities - hit));
  }

  lemma SetsCommute<V>(t: map<Id, V>, x: Id, a: V, y: Id, b: V)
    requires x != y
    ensures t[x := a][y := b] == t[y := b][x := a]
  {
  }

  lemma FollowServicesEachCommutes(im: map<Id, Identity>, x: Id, p: Policy, y: Id, q: Policy, id: Id, index: nat)
    ensures var p', q' := ServicesAmended(p, index, [id], false), ServicesAmended(q, index, [id], false);
            FollowServicesEach(FollowServicesEach(im, x, p, p', [id], index, false), y, q, q', [id], index, false) ==
            FollowServicesEach(FollowServicesEach(im, y, q, q', [id], index, false), x, p, p', [id], index, false)
  {
    forall i | i in im
      ensures var p', q' := ServicesAmended(p, index, [id], false), ServicesAmended(q, index, [id], false);
              FollowServices(FollowServices(im[i], x, p, p', [id], index, false), y, q, q', [id], index, false) ==
              FollowServices(FollowServices(im[i], y, q, q', [id], index, false), x, p, p', [id], index, false)
    {
      FollowsCommute(im[i], x, p, y, q, id, index);
    }
  }

  lemma UnlinksCommute(ss: map<Id, Service>, cs: map<Id, Check>, ids: set<Id>, x: Id, y: Id)
    ensures LinkServices(LinkServices(ss, ids, x, false), ids, y, false) == LinkServices(LinkServices(ss, ids, y, false), ids, x, false)
    ensures LinkChecks(LinkChecks(cs, ids, x, false), ids, y, false) == LinkChecks(LinkChecks(cs, ids, y, false), ids, x, false)
  {
    forall s | s in ss
      ensures ss[s].policies - {x} - {y} == ss[s].policies - {y} - {x}
    {
    }
    forall c | c in cs
      ensures cs[c].policies - {x} - {y} == cs[c].policies - {y} - {x}
    {
    }
  }

  lemma DetachServiceCommutes(index: nat, id: Id, x: Id, y: Id, m: Model)
    requires x != y && x in m.policies && y in m.policies
    ensures var step := Detach(RelatedService, index, id);
            step(x, step(y, m)) == step(y, step(x, m))
  {
    var p, q := m.policies[x], m.policies[y];
    FollowServicesEachCommutes(m.identities, x, p, y, q, id, index);
    UnlinksCommute(m.services, m.checks, Elems([id]), x, y);
    SetsCommute(m.policies, x, ServicesAmended(p, index, [id], false), y, ServicesAmended(q, index, [id], false));
  }

  lemma FollowChecksEachCommutes(im: map<Id, Identity>, x: Id, p: Policy, y: Id, q: Policy, id: Id, index: nat)
    ensures FollowChecksEach(FollowChecksEach(im, x, p, [id], index, false), y, q, [id], index, false) ==
            FollowChecksEach(FollowChecksEach(im, y, q, [id], index, false), x, p, [id], index, false)
  {
    forall i | i in im
      ensures ChecksChanged(ChecksChanged(im[i], x, p, [id], index, false), y, q, [id], index, false) ==
              ChecksChanged(ChecksChanged(im[i], y, q, [id], index, false), x, p, [id], index, false)
    {
      CheckLossesCommute(im[i], x, p, y, q, id, index);
    }
  }

  lemma DetachCheckCommutes(index: nat, id: Id, x: Id, y: Id, m: Model)
    requires x != y && x in m.policies && y in m.policies
    ensures var step := Detach(RelatedPostureCheck, index, id);
            step(x, step(y, m)) == step(y, step(x, m))
  {
    var p, q := m.policies[x], m.policies[y];
    FollowChecksEachCommutes(m.identities, x, p, y, q, id, index);
    UnlinksCommute(m.services, m.checks, Elems([id]), x, y);
    SetsCommute(m.policies, x, p.(checks := p.checks - Elems([id]), checksIndex := index),
                y, q.(checks := q.checks - Elems([id]), checksIndex := index));
  }

  lemma DetachCommutes(kind: RelatedType, index: nat, id: Id)
    ensures Commutes(Detach(kind, index, id))
  {
    var step := Detach(kind, index, id);
    forall x, y, m: Model
      ensures step(x, step(y, m)) == step(y, step(x, m))
    {
      ChangeKeepsPayloads(m, index, PolicyChange(x, [id], kind, false));
      ChangeKeepsPayloads(m, index, PolicyChange(y, [id], kind, false));
      if x != y && x in m.policies && y in m.policies {
        match kind
        case RelatedIdentity => DetachIdentityCommutes(index, id, x, y, m);
        case RelatedService => DetachServiceCommutes(index, id, x, y, m);
        case RelatedPostureCheck => DetachCheckCommutes(index, id, x, y, m);
        case InvalidRelatedType =>
      }
    }
  }
}
