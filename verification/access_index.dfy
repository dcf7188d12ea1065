// Exactly which events move the policy index kept with an access entry: those
// that change which policies of that type grant the service, or the posture
// checks one of them demands. A subscription therefore misses no such change.
module AccessIndex {
  import opened DataState
  import opened RelationalView
  import opened ReceiverSpec
  import opened ReceiverCounts
  import opened ReceiverInvariant
  import opened ReceiverSteps
  import opened ReceiverRuns
  import opened ServiceLists
  import opened Notifications
  import opened PolicyIndex

  /* ---- one service policy change ---- */

  // The change adds or removes what joins i to s through a type t policy, or
  // it is to the posture checks of a policy that does.
  predicate Concerns(ps: map<Id, PolicyView>, c: PolicyChange, i: Id, t: PolicyType, s: Id) {
    c.policyId in ps && ps[c.policyId].data.policyType == t &&
    var p, ids := ps[c.policyId], Elems(c.relatedIds);
    match c.relatedType
    case RelatedIdentity => i in ids && s in p.services && (i in p.identities) != c.add
    case RelatedService => i in p.identities && s in ids
    case RelatedPostureCheck => i in p.identities && s in p.services
    case InvalidRelatedType => false
  }

  // The type t index of s is as it was, or raised to index where hit.
  predicate IndexMoved(a: map<Id, Access>, b: map<Id, Access>, s: Id, t: PolicyType, hit: bool, index: nat) {
    s in b ==>
      IndexOf(b[s], t) == if hit then Max(IndexOf(CurrentAccess(a, s), t), index) else IndexOf(CurrentAccess(a, s), t)
  }

  lemma UpdateMovesIndex(a: map<Id, Access>, u: PolicyType, ids: set<Id>, index: nat, add: bool, s: Id, t: PolicyType)
    requires !t.InvalidPolicy?
    ensures IndexMoved(a, UpdateEachService(a, u, ids, index, add), s, t, u == t && s in ids, index)
  {
  }

  lemma JoinMovesIndex(i: Identity, pid: Id, p: Policy, index: nat, join: bool, s: Id, t: PolicyType)
    requires i.tracking && !t.InvalidPolicy?
    ensures IndexMoved(i.access, JoinPolicy(i, pid, p, index, join).access, s, t,
                       p.data.policyType == t && s in p.services && (pid in i.policies) != join, index)
  {
    UpdateMovesIndex(i.access, p.data.policyType, p.services, index, join, s, t);
  }

  lemma ServicesMoveIndex(i: Identity, pid: Id, p: Policy, ids: seq<Id>, index: nat, add: bool, s: Id, t: PolicyType)
    requires i.tracking && pid in i.policies && !t.InvalidPolicy? && Distinct(ids)
    requires add ==> Elems(ids) !! p.services
    ensures IndexMoved(i.access, FollowServices(i, pid, p, ServicesAmended(p, index, ids, add), ids, index, add).access, s, t,
                       p.data.policyType == t && s in Elems(ids), index)
  {
    ListedIsEachService(i.access, p.data.policyType, ids, index, add);
    UpdateMovesIndex(i.access, p.data.policyType, Elems(ids), index, add, s, t);
  }

  lemma ChecksMoveIndex(i: Identity, pid: Id, p: Policy, ids: seq<Id>, index: nat, add: bool, s: Id, t: PolicyType)
    requires i.tracking && !t.InvalidPolicy?
    ensures IndexMoved(i.access, ChecksChanged(i, pid, p, ids, index, add).access, s, t,
                       p.data.policyType == t && s in p.services, index)
  {
  }

  // Ids are listed once and the services added are new.
  predicate ListsOnce(p: Policy, c: PolicyChange) {
    c.relatedType.RelatedService? ==> Distinct(c.relatedIds) && (c.add ==> Elems(c.relatedIds) !! p.services)
  }

  lemma ChangedMovesIndex(im: map<Id, Identity>, ps: map<Id, Policy>, index: nat, c: PolicyChange, i: Id, t: PolicyType, s: Id)
    requires c.policyId in ps && ListsOnce(ps[c.policyId], c) && i in im && im[i].tracking && !t.InvalidPolicy?
    requires i in ps[c.policyId].identities <==> c.policyId in im[i].policies
    ensures var j := ChangedIdentities(im, ps[c.policyId], index, c)[i];
            j.tracking && IndexMoved(im[i].access, j.access, s, t, Concerns(PolicyViews(ps), c, i, t, s), index)
  {
    var p, j := ps[c.policyId], im[i];
    match c.relatedType
    case RelatedIdentity =>
      if i in Elems(c.relatedIds) {
        JoinMovesIndex(j, c.policyId, p, index, c.add, s, t);
      }
    case RelatedService =>
      if i in p.identities {
        ServicesMoveIndex(j, c.policyId, p, c.relatedIds, index, c.add, s, t);
      }
    case RelatedPostureCheck =>
      if i in p.identities {
        ChecksMoveIndex(j, c.policyId, p, c.relatedIds, index, c.add, s, t);
      }
    case InvalidRelatedType =>
  }

  // For every tracked identity and every service: a change raises the index of
  // its policy's type exactly where it concerns the two, and no other index.
  lemma ChangeMovesIndex(m: Model, index: nat, c: PolicyChange, i: Id, t: PolicyType, s: Id)
    requires Inv(m) && WellFormedChange(ViewOf(m), c) && Tracked(m, i) && !t.InvalidPolicy?
    ensures var n := HandlePolicyChange(m, index, c);
            && Tracked(n, i)
            && IndexMoved(m.identities[i].access, n.identities[i].access, s, t, Concerns(PolicyViews(m.policies), c, i, t, s), index)
  {
    ChangedMovesIndex(m.identities, m.policies, index, c, i, t, s);
  }

  // From a to b the counts stay, and of the two indices only the one of
  // type t is raised.
  predicate Raised(a: Access, b: Access, t: PolicyType, index: nat) {
    && b.dial == a.dial && b.bind == a.bind
    && b.dialIndex == (if t.DialPolicy? then Max(a.dialIndex, index) else a.dialIndex)
    && b.bindIndex == (if t.BindPolicy? then Max(a.bindIndex, index) else a.bindIndex)
  }

  // One more policy of type t, seen at index.
  predicate Counted(a: Access, b: Access, t: PolicyType, index: nat) {
    && b.dial == a.dial + Bit(t.DialPolicy?) && b.bind == a.bind + Bit(t.BindPolicy?)
    && b.dialIndex == (if t.DialPolicy? then Max(a.dialIndex, index) else a.dialIndex)
    && b.bindIndex == (if t.BindPolicy? then Max(a.bindIndex, index) else a.bindIndex)
  }

  lemma PosturesRaise(im: map<Id, Identity>, p: Policy, index: nat, c: PolicyChange, i: Id, s: Id)
    requires c.relatedType.RelatedPostureCheck? && i in im && im[i].tracking && s in im[i].access && i in p.identities && s in p.services
    ensures var j := ChangedIdentities(im, p, index, c)[i];
            j.tracking && s in j.access && Raised(im[i].access[s], j.access[s], p.data.policyType, index)
  {
  }

  // A change to the posture checks of a policy, for each tracked member and
  // each service it grants.
  lemma PostureChangeMoves(m: Model, index: nat, c: PolicyChange, i: Id, s: Id)
    requires Inv(m) && WellFormedChange(ViewOf(m), c) && c.relatedType.RelatedPostureCheck? && Tracked(m, i)
    requires i in m.policies[c.policyId].identities && s in m.policies[c.policyId].services
    ensures var n := Handle(m, index, PolicyChangeEvent(c));
            && Tracked(n, i) && s in m.identities[i].access && s in n.identities[i].access
            && Raised(m.identities[i].access[s], n.identities[i].access[s], m.policies[c.policyId].data.policyType, index)
  {
    InvHasEntries(m, c.policyId);
    PosturesRaise(m.identities, m.policies[c.policyId], index, c, i, s);
  }

  lemma ServicesCount(i: Identity, pid: Id, p: Policy, ids: seq<Id>, index: nat, s: Id)
    requires i.tracking && pid in i.policies && Distinct(ids) && Elems(ids) !! p.services && s in ids
    requires CurrentAccess(i.access, s).dial >= 0 && CurrentAccess(i.access, s).bind >= 0 && !p.data.policyType.InvalidPolicy?
    ensures var j := FollowServices(i, pid, p, ServicesAmended(p, index, ids, true), ids, index, true);
            j.tracking && s in j.access && Counted(CurrentAccess(i.access, s), j.access[s], p.data.policyType, index)
  {
    ListedIsEachService(i.access, p.data.policyType, ids, index, true);
    assert s in Elems(ids);
  }

  lemma CountsAreNatural(m: Model, i: Id, s: Id)
    requires Inv(m) && Tracked(m, i)
    ensures CurrentAccess(m.identities[i].access, s).dial >= 0 && CurrentAccess(m.identities[i].access, s).bind >= 0
  {
    var j := m.identities[i];
    assert Exact(m.policies, j);
    assert AccessIs(j.access, s, |Granting(m.policies, j.policies, DialPolicy, s)|, |Granting(m.policies, j.policies, BindPolicy, s)|);
  }

  // Services added to a policy, which may be its first: then it starts to
  // demand its posture checks.
  lemma AddedServicesMove(m: Model, index: nat, c: PolicyChange, i: Id, s: Id)
    requires Inv(m) && WellFormedChange(ViewOf(m), c) && c.relatedType.RelatedService? && c.add && Tracked(m, i)
    requires i in m.policies[c.policyId].identities && s in c.relatedIds
    ensures var n := Handle(m, index, PolicyChangeEvent(c));
            && Tracked(n, i) && s in n.identities[i].access
            && Counted(CurrentAccess(m.identities[i].access, s), n.identities[i].access[s], m.policies[c.policyId].data.policyType, index)
  {
    CountsAreNatural(m, i, s);
    ServicesCount(m.identities[i], c.policyId, m.policies[c.policyId], c.relatedIds, index, s);
  }

  /* ---- what policies impose ---- */

  // The type t policies that grant i the service, with the posture checks each demands.
  function ImposedIn(ps: map<Id, PolicyView>, i: Id, t: PolicyType, s: Id): map<Id, set<Id>> {
    map p | p in ps && i in ps[p].identities && ps[p].data.policyType == t && s in ps[p].services :: ps[p].checks
  }

  function Imposed(m: Model, i: Id, t: PolicyType, s: Id): map<Id, set<Id>> {
    ImposedIn(PolicyViews(m.policies), i, t, s)
  }

  lemma ImposedJoins(m: Model, i: Id, t: PolicyType, s: Id)
    ensures Imposed(m, i, t, s).Keys == Joining(m, i, t, s)
  {
  }

  predicate SameImposedAt(ps: map<Id, PolicyView>, qs: map<Id, PolicyView>, i: Id, t: PolicyType, s: Id, p: Id) {
    var a, b := ImposedIn(ps, i, t, s), ImposedIn(qs, i, t, s);
    (p in a <==> p in b) && (p in a ==> a[p] == b[p])
  }

  lemma OnePolicyImposes(ps: map<Id, PolicyView>, qs: map<Id, PolicyView>, pid: Id, i: Id, t: PolicyType, s: Id)
    requires forall p :: p != pid ==> (p in ps <==> p in qs) && (p in ps ==> ps[p] == qs[p])
    ensures ImposedIn(ps, i, t, s) == ImposedIn(qs, i, t, s) <==> SameImposedAt(ps, qs, i, t, s, pid)
  {
    var a, b := ImposedIn(ps, i, t, s), ImposedIn(qs, i, t, s);
    if SameImposedAt(ps, qs, i, t, s, pid) {
      assert forall p :: (p in a <==> p in b) && (p in a ==> a[p] == b[p]);
    }
  }

  // A posture check change that lists no check.
  predicate ListsNone(c: PolicyChange) {
    c.relatedType.RelatedPostureCheck? && c.relatedIds == []
  }

  // A change that concerns i and s changes what is imposed, unless it lists nothing.
  lemma ConcernsIff(v: View, c: PolicyChange, i: Id, t: PolicyType, s: Id)
    requires WellFormedChange(v, c) && i in v.identities
    ensures ImposedIn(ChangePolicies(v.policies, v.identities.Keys, c), i, t, s) != ImposedIn(v.policies, i, t, s) <==>
            Concerns(v.policies, c, i, t, s) && !ListsNone(c)
  {
    var qs := ChangePolicies(v.policies, v.identities.Keys, c);
    OnePolicyImposes(v.policies, qs, c.policyId, i, t, s);
    if c.relatedType.RelatedPostureCheck? && c.relatedIds != [] {
      assert c.relatedIds[0] in Elems(c.relatedIds);
    }
  }

  /* ---- one event ---- */

  // While the type t count is positive: its index is as it was, or has reached
  // index where hit, and is not beyond what was there.
  predicate IndexLaw(a: map<Id, Access>, b: map<Id, Access>, s: Id, t: PolicyType, hit: bool, index: nat) {
    s in b && CountOf(b[s], t) > 0 ==>
      var was, now := IndexOf(CurrentAccess(a, s), t), IndexOf(b[s], t);
      if hit then index <= now <= Max(index, was) else now == was
  }

  lemma MovedIsLaw(a: map<Id, Access>, b: map<Id, Access>, s: Id, t: PolicyType, hit: bool, index: nat)
    requires IndexMoved(a, b, s, t, hit, index)
    ensures IndexLaw(a, b, s, t, hit, index)
  {
  }

  predicate SameEntry(a: map<Id, Access>, b: map<Id, Access>, s: Id) {
    (s in a <==> s in b) && (s in a ==> a[s] == b[s])
  }

  ghost predicate EntryStays(m: Model, n: Model, i: Id, s: Id) {
    i in m.identities && i in n.identities && SameEntry(m.identities[i].access, n.identities[i].access, s)
  }

  ghost predicate EntryMoves(m: Model, n: Model, i: Id, t: PolicyType, s: Id, hit: bool, index: nat) {
    i in m.identities && i in n.identities && IndexLaw(m.identities[i].access, n.identities[i].access, s, t, hit, index)
  }

  lemma ChangeHits(m: Model, index: nat, c: PolicyChange, i: Id, t: PolicyType, s: Id)
    requires Inv(m) && WellFormedChange(ViewOf(m), c) && Tracked(m, i) && !t.InvalidPolicy?
    ensures EntryMoves(m, HandlePolicyChange(m, index, c), i, t, s, Concerns(PolicyViews(m.policies), c, i, t, s), index)
  {
    ChangeMovesIndex(m, index, c, i, t, s);
    MovedIsLaw(m.identities[i].access, HandlePolicyChange(m, index, c).identities[i].access, s, t,
               Concerns(PolicyViews(m.policies), c, i, t, s), index);
  }

  lemma ChangeImposes(m: Model, index: nat, c: PolicyChange, i: Id, t: PolicyType, s: Id)
    requires Inv(m) && WellFormedChange(ViewOf(m), c) && i in m.identities
    ensures Imposed(HandlePolicyChange(m, index, c), i, t, s) != Imposed(m, i, t, s) <==>
            Concerns(PolicyViews(m.policies), c, i, t, s) && !ListsNone(c)
  {
    ChangedViews(m, index, c);
    ConcernsIff(ViewOf(m), c, i, t, s);
  }

  lemma ChangedViews(m: Model, index: nat, c: PolicyChange)
    requires Inv(m) && WellFormedChange(ViewOf(m), c)
    ensures PolicyViews(HandlePolicyChange(m, index, c).policies) == ChangePolicies(PolicyViews(m.policies), m.identities.Keys, c)
  {
    ChangeRefines(m, index, c);
  }

  lemma FlipMovesIndex(i: Identity, pid: Id, p: Policy, q: Policy, index: nat, s: Id, t: PolicyType)
    requires i.tracking && pid in i.policies && !t.InvalidPolicy? && q.services == p.services
    requires p.data.policyType != q.data.policyType && !p.data.policyType.InvalidPolicy? && !q.data.policyType.InvalidPolicy?
    ensures IndexLaw(i.access, JoinPolicy(JoinPolicy(i, pid, p, index, false), pid, q, index, true).access, s, t, s in p.services, index)
  {
    var j := JoinPolicy(i, pid, p, index, false);
    assert j.access == UpdateEachService(i.access, p.data.policyType, p.services, index, false);
    assert JoinPolicy(j, pid, q, index, true).access == UpdateEachService(j.access, q.data.policyType, q.services, index, true);
  }

  predicate Joins(ps: map<Id, Policy>, p: Id, i: Id, t: PolicyType, s: Id) {
    p in ps && i in ps[p].identities && ps[p].data.policyType == t && s in ps[p].services
  }

  // A policy that keeps its members: what it imposes changes with its type alone.
  lemma SetPolicyImposes(ps: map<Id, Policy>, pid: Id, q: Policy, i: Id, t: PolicyType, s: Id)
    requires if pid in ps then q.services == ps[pid].services && q.identities == ps[pid].identities && q.checks == ps[pid].checks
             else q.identities == {}
    ensures ImposedIn(PolicyViews(ps[pid := q]), i, t, s) != ImposedIn(PolicyViews(ps), i, t, s) <==>
            pid in ps && i in q.identities && s in q.services && (t == ps[pid].data.policyType) != (t == q.data.policyType)
  {
    OnePolicyImposes(PolicyViews(ps), PolicyViews(ps[pid := q]), pid, i, t, s);
  }

  lemma MembersAgree(m: Model, pid: Id, i: Id)
    requires Inv(m) && i in m.identities && pid in m.policies
    ensures i in m.policies[pid].identities <==> pid in m.identities[i].policies
    ensures !m.policies[pid].data.policyType.InvalidPolicy?
  {
  }

  lemma FlipEachMovesIndex(im: map<Id, Identity>, pid: Id, p: Policy, q: Policy, index: nat, i: Id, s: Id, t: PolicyType)
    requires i in im && im[i].tracking && (i in p.identities <==> pid in im[i].policies)
    requires !t.InvalidPolicy? && q.services == p.services
    requires p.data.policyType != q.data.policyType && !p.data.policyType.InvalidPolicy? && !q.data.policyType.InvalidPolicy?
    ensures IndexLaw(im[i].access, FlipEach(im, pid, p, q, index)[i].access, s, t, i in p.identities && s in p.services, index)
  {
    if i in p.identities {
      FlipMovesIndex(im[i], pid, p, q, index, s, t);
    }
  }

  lemma LeaveEachMovesIndex(im: map<Id, Identity>, ps: map<Id, Policy>, pid: Id, index: nat, i: Id, s: Id, t: PolicyType)
    requires pid in ps && i in im && im[i].tracking && (i in ps[pid].identities <==> pid in im[i].policies) && !t.InvalidPolicy?
    ensures IndexLaw(im[i].access, JoinEach(im, ps[pid].identities, pid, ps[pid], index, false)[i].access, s, t, Joins(ps, pid, i, t, s), index)
  {
    if i in ps[pid].identities {
      JoinMovesIndex(im[i], pid, ps[pid], index, false, s, t);
    }
  }

  lemma FlipHits(m: Model, index: nat, pid: Id, d: PolicyData, i: Id, t: PolicyType, s: Id)
    requires Inv(m) && !d.policyType.InvalidPolicy? && Tracked(m, i) && !t.InvalidPolicy? && Flips(m.policies, pid, d)
    ensures IndexLaw(m.identities[i].access, UpsertPolicy(m, index, pid, d).identities[i].access, s, t,
                     i in m.policies[pid].identities && s in m.policies[pid].services, index)
  {
    MembersAgree(m, pid, i);
    FlipEachMovesIndex(m.identities, pid, m.policies[pid], NextPolicy(m.policies, index, pid, d), index, i, s, t);
  }

  predicate TypeMatters(ps: map<Id, Policy>, pid: Id, d: PolicyData, i: Id, s: Id) {
    Flips(ps, pid, d) && i in ps[pid].identities && s in ps[pid].services
  }

  lemma UpsertImposes(m: Model, index: nat, pid: Id, d: PolicyData, i: Id, t: PolicyType, s: Id)
    requires Inv(m) && !d.policyType.InvalidPolicy? && !t.InvalidPolicy? && i in m.identities
    ensures Imposed(UpsertPolicy(m, index, pid, d), i, t, s) != Imposed(m, i, t, s) <==> TypeMatters(m.policies, pid, d, i, s)
  {
    SetPolicyImposes(m.policies, pid, NextPolicy(m.policies, index, pid, d), i, t, s);
    if pid in m.policies {
      MembersAgree(m, pid, i);
    }
  }

  lemma UpsertPolicyHits(m: Model, index: nat, pid: Id, d: PolicyData, i: Id, t: PolicyType, s: Id)
    requires Inv(m) && !d.policyType.InvalidPolicy? && Tracked(m, i) && !t.InvalidPolicy?
    ensures EntryMoves(m, UpsertPolicy(m, index, pid, d), i, t, s, TypeMatters(m.policies, pid, d, i, s), index)
  {
    if Flips(m.policies, pid, d) {
      FlipHits(m, index, pid, d, i, t, s);
    }
  }

  lemma DropPolicyImposes(ps: map<Id, Policy>, pid: Id, i: Id, t: PolicyType, s: Id)
    ensures ImposedIn(PolicyViews(ps - {pid}), i, t, s) != ImposedIn(PolicyViews(ps), i, t, s) <==> Joins(ps, pid, i, t, s)
  {
    OnePolicyImposes(PolicyViews(ps), PolicyViews(ps - {pid}), pid, i, t, s);
  }

  lemma DeleteLivePolicyHits(m: Model, index: nat, pid: Id, i: Id, t: PolicyType, s: Id)
    requires pid in m.policies && Tracked(m, i) && !t.InvalidPolicy?
    requires i in m.policies[pid].identities <==> pid in m.identities[i].policies
    ensures EntryMoves(m, DeletePolicy(m, index, pid), i, t, s, Joins(m.policies, pid, i, t, s), index)
  {
    LeaveEachMovesIndex(m.identities, m.policies, pid, index, i, s, t);
  }

  lemma DeletePolicyHits(m: Model, index: nat, pid: Id, i: Id, t: PolicyType, s: Id)
    requires Inv(m) && Tracked(m, i) && !t.InvalidPolicy?
    ensures EntryMoves(m, DeletePolicy(m, index, pid), i, t, s, Joins(m.policies, pid, i, t, s), index)
  {
    if pid in m.policies {
      MembersAgree(m, pid, i);
      DeleteLivePolicyHits(m, index, pid, i, t, s);
    }
  }

  /* ---- the cleanup a delete performs ---- */

  // Detaching another identity or another service leaves the entry alone.
  lemma DetachOneLeavesEntry(kind: RelatedType, m: Model, index: nat, id: Id, x: Id, i: Id, s: Id)
    requires i in m.identities && ((kind.RelatedIdentity? && i != id) || (kind.RelatedService? && s != id))
    ensures var n := HandlePolicyChange(m, index, PolicyChange(x, [id], kind, false));
            i in n.identities && SameEntry(m.identities[i].access, n.identities[i].access, s)
  {
    assert Elems([id]) == {id};
    if x in m.policies && kind.RelatedService? {
      ServiceLeavesEntry(m.identities[i], x, m.policies[x], id, index, s);
    }
  }

  lemma ServiceLeavesEntry(i: Identity, pid: Id, p: Policy, id: Id, index: nat, s: Id)
    requires s != id
    ensures SameEntry(i.access, FollowServices(i, pid, p, ServicesAmended(p, index, [id], false), [id], index, false).access, s)
  {
    assert [id][..0] == [];
    assert UpdateServiceCounts(i.access, p.data.policyType, [id][..0], index, false) == i.access;
  }

  lemma {:induction false} DetachLeavesEntry(kind: RelatedType, m: Model, index: nat, id: Id, pids: set<Id>, i: Id, s: Id)
    requires i in m.identities && ((kind.RelatedIdentity? && i != id) || (kind.RelatedService? && s != id))
    ensures var n := Fold(Detach(kind, index, id), pids, m);
            i in n.identities && SameEntry(m.identities[i].access, n.identities[i].access, s)
    decreases |pids|
  {
    if pids != {} {
      var step := Detach(kind, index, id);
      var x :| x in pids && Fold(step, pids, m) == step(x, Fold(step, pids - {x}, m));
      DetachLeavesEntry(kind, m, index, id, pids - {x}, i, s);
      DetachOneLeavesEntry(kind, Fold(step, pids - {x}, m), index, id, x, i, s);
    }
  }

  ghost predicate AnyJoins(ps: map<Id, Policy>, pids: set<Id>, i: Id, t: PolicyType, s: Id) {
    exists p :: p in pids && Joins(ps, p, i, t, s)
  }

  // The entries are the same but for their indices.
  ghost predicate PostureMoved(im: map<Id, Identity>, jm: map<Id, Identity>, i: Id, t: PolicyType, s: Id, hit: bool, index: nat) {
    && i in im && i in jm && jm[i].tracking == im[i].tracking && jm[i].access.Keys == im[i].access.Keys
    && IndexMoved(im[i].access, jm[i].access, s, t, hit, index)
  }

  lemma DetachCheckMoves(im: map<Id, Identity>, p: Policy, index: nat, c: PolicyChange, i: Id, t: PolicyType, s: Id)
    requires c.relatedType.RelatedPostureCheck? && i in im && im[i].tracking && !t.InvalidPolicy?
    ensures PostureMoved(im, ChangedIdentities(im, p, index, c), i, t, s,
                         i in p.identities && p.data.policyType == t && s in p.services, index)
  {
    if i in p.identities {
      ChecksMoveIndex(im[i], c.policyId, p, c.relatedIds, index, c.add, s, t);
    }
  }

  lemma {:induction false} DetachChecksMove(m: Model, index: nat, id: Id, pids: set<Id>, i: Id, t: PolicyType, s: Id)
    requires Tracked(m, i) && !t.InvalidPolicy?
    ensures PostureMoved(m.identities, Fold(Detach(RelatedPostureCheck, index, id), pids, m).identities, i, t, s,
                         AnyJoins(m.policies, pids, i, t, s), index)
    decreases |pids|
  {
    if pids != {} {
      var step := Detach(RelatedPostureCheck, index, id);
      var x :| x in pids && Fold(step, pids, m) == step(x, Fold(step, pids - {x}, m));
      var n := Fold(step, pids - {x}, m);
      DetachChecksMove(m, index, id, pids - {x}, i, t, s);
      DetachAll(RelatedPostureCheck, m, index, id, pids - {x});
      OneCheckMoves(m, n, index, id, x, i, t, s);
      PostureMovesOn(m.identities, n.identities, step(x, n).identities, i, t, s,
                     AnyJoins(m.policies, pids - {x}, i, t, s), Joins(m.policies, x, i, t, s), index);
      AnyJoinsMore(m.policies, pids, x, i, t, s);
    }
  }

  lemma PostureMovesOn(im: map<Id, Identity>, jm: map<Id, Identity>, km: map<Id, Identity>, i: Id, t: PolicyType, s: Id,
                       first: bool, second: bool, index: nat)
    requires PostureMoved(im, jm, i, t, s, first, index) && PostureMoved(jm, km, i, t, s, second, index)
    ensures PostureMoved(im, km, i, t, s, first || second, index)
  {
  }

  lemma OneCheckMoves(m: Model, n: Model, index: nat, id: Id, x: Id, i: Id, t: PolicyType, s: Id)
    requires Tracked(n, i) && !t.InvalidPolicy? && (x in m.policies <==> x in n.policies) && (x in m.policies ==> n.policies[x] == m.policies[x])
    ensures PostureMoved(n.identities, Detach(RelatedPostureCheck, index, id)(x, n).identities, i, t, s, Joins(m.policies, x, i, t, s), index)
  {
    if x in m.policies {
      DetachCheckMoves(n.identities, n.policies[x], index, PolicyChange(x, [id], RelatedPostureCheck, false), i, t, s);
    }
  }

  lemma AnyJoinsMore(ps: map<Id, Policy>, pids: set<Id>, x: Id, i: Id, t: PolicyType, s: Id)
    requires x in pids
    ensures AnyJoins(ps, pids, i, t, s) <==> AnyJoins(ps, pids - {x}, i, t, s) || Joins(ps, x, i, t, s)
  {
    if AnyJoins(ps, pids - {x}, i, t, s) {
      var p :| p in pids - {x} && Joins(ps, p, i, t, s);
      assert p in pids;
    }
  }

  // Dropping a check everywhere changes what is imposed exactly where a
  // granting policy demanded it.
  lemma WithoutCheckImposes(m: Model, id: Id, i: Id, t: PolicyType, s: Id)
    requires ChecksLinked(m.checks, m.policies)
    ensures ImposedIn(WithoutCheck(PolicyViews(m.policies), id), i, t, s) != Imposed(m, i, t, s) <==>
            AnyJoins(m.policies, PoliciesListingCheck(m, id), i, t, s)
  {
    var a, b := Imposed(m, i, t, s), ImposedIn(WithoutCheck(PolicyViews(m.policies), id), i, t, s);
    assert a.Keys == b.Keys;
    if AnyJoins(m.policies, PoliciesListingCheck(m, id), i, t, s) {
      var p :| p in PoliciesListingCheck(m, id) && Joins(m.policies, p, i, t, s);
      assert id in a[p] && id !in b[p];
    } else {
      forall p | p in a
        ensures a[p] == b[p]
      {
        assert Joins(m.policies, p, i, t, s);
        assert p !in PoliciesListingCheck(m, id);
      }
    }
  }

  lemma DeleteCheckHits(m: Model, index: nat, id: Id, i: Id, t: PolicyType, s: Id)
    requires Tracked(m, i) && !t.InvalidPolicy?
    ensures EntryMoves(m, DeleteCheck(m, index, id), i, t, s, AnyJoins(m.policies, PoliciesListingCheck(m, id), i, t, s), index)
  {
    var o := Fold(Detach(RelatedPostureCheck, index, id), PoliciesListingCheck(m, id), m);
    DetachChecksMove(m, index, id, PoliciesListingCheck(m, id), i, t, s);
    MovedIsLaw(m.identities[i].access, o.identities[i].access, s, t, AnyJoins(m.policies, PoliciesListingCheck(m, id), i, t, s), index);
  }

  lemma DeleteCheckImposes(m: Model, index: nat, id: Id, d: CheckData, i: Id, t: PolicyType, s: Id)
    requires Inv(m)
    ensures Imposed(DeleteCheck(m, index, id), i, t, s) != Imposed(m, i, t, s) <==>
            AnyJoins(m.policies, PoliciesListingCheck(m, id), i, t, s)
  {
    WithoutCheckImposes(m, id, i, t, s);
    DeleteCheckRefines(m, index, id, d);
  }

  lemma DeletesLeaveEntry(m: Model, index: nat, id: Id, i: Id, s: Id)
    requires i in m.identities
    ensures i != id ==> EntryStays(m, DeleteIdentity(m, index, id), i, s)
    ensures s != id ==> EntryStays(m, DeleteService(m, index, id), i, s)
  {
    if i != id {
      var n := m.(configs := Relink(m.configs, id, ConfigsOf(m, id), {}));
      DetachLeavesEntry(RelatedIdentity, n, index, id, PoliciesListingIdentity(n, id), i, s);
    }
    if s != id && id in m.services {
      var v := m.services[id];
      var n := m.(services := m.services - {id},
                  configs := RelinkServices(m.configs, id, Elems(v.data.configs), {}),
                  names := Unname(m.names, v.data.name, id));
      DetachLeavesEntry(RelatedService, n, index, id, PoliciesListingService(m, id), i, s);
    }
  }

  /* ---- any event ---- */

  // The event concerns how type t policies grant s to i, or what they demand.
  ghost predicate Hits(m: Model, e: Event, i: Id, t: PolicyType, s: Id) {
    match e
    case PolicyEvent(a, id, d) => if a.Delete? then Joins(m.policies, id, i, t, s) else TypeMatters(m.policies, id, d, i, s)
    case CheckEvent(a, id, d) => a.Delete? && AnyJoins(m.policies, PoliciesListingCheck(m, id), i, t, s)
    case PolicyChangeEvent(c) => Concerns(PolicyViews(m.policies), c, i, t, s)
    case _ => false
  }

  // Not the end of the identity or of the service.
  predicate Spares(e: Event, i: Id, s: Id) {
    && !(e.IdentityEvent? && e.action.Delete? && e.id == i)
    && !(e.ServiceEvent? && e.action.Delete? && e.id == s)
  }

  lemma UpsertsKeepEntries(m: Model, index: nat, id: Id, i: Id, s: Id, d: IdentityData, v: ServiceData, k: CheckData)
    requires i in m.identities
    ensures EntryStays(m, UpsertIdentity(m, index, id, d), i, s)
    ensures EntryStays(m, UpsertService(m, index, id, v), i, s)
    ensures EntryStays(m, UpsertCheck(m, index, id, k), i, s)
  {
  }

  lemma SameIdentitiesKeepEntries(m: Model, n: Model, i: Id, s: Id)
    requires i in m.identities && n.identities == m.identities
    ensures EntryStays(m, n, i, s)
  {
  }

  lemma ConfigsKeepEntries(m: Model, index: nat, a: Action, id: Id, i: Id, s: Id, d: ConfigData, t: ConfigTypeData)
    requires i in m.identities
    ensures EntryStays(m, HandleConfigType(m, index, a, id, t), i, s)
    ensures EntryStays(m, DeleteConfig(m, index, id), i, s) && EntryStays(m, UpsertConfig(m, index, id, d), i, s)
  {
    SameIdentitiesKeepEntries(m, HandleConfigType(m, index, a, id, t), i, s);
    SameIdentitiesKeepEntries(m, UpsertConfig(m, index, id, d), i, s);
    assert DeleteConfig(m, index, id).identities == ClearConfigEach(m.identities, IdentitiesUsing(m.configs, id), id);
  }

  lemma OthersKeepEntries(m: Model, index: nat, e: Event, i: Id, s: Id)
    requires i in m.identities && Spares(e, i, s) && !e.PolicyEvent? && !(e.CheckEvent? && e.action.Delete?) && !e.PolicyChangeEvent?
    ensures EntryStays(m, Handle(m, index, e), i, s)
  {
    match e
    case ConfigTypeEvent(a, id, d) => ConfigsKeepEntries(m, index, a, id, i, s, ConfigData("", "", ""), d);
    case ConfigEvent(a, id, d) => ConfigsKeepEntries(m, index, a, id, i, s, d, ConfigTypeData("", ""));
    case IdentityEvent(a, id, d) =>
      DeletesLeaveEntry(m, index, id, i, s);
      UpsertsKeepEntries(m, index, id, i, s, d, ServiceData("", false, []), CheckData("", "", ""));
    case ServiceEvent(a, id, d) =>
      DeletesLeaveEntry(m, index, id, i, s);
      UpsertsKeepEntries(m, index, id, i, s, m.identities[i].data, d, CheckData("", "", ""));
    case RouterEvent(a, id, d) =>
    case CheckEvent(a, id, d) => UpsertsKeepEntries(m, index, id, i, s, m.identities[i].data, ServiceData("", false, []), d);
    case KeyEvent(a, id, d) =>
    case RevocationEvent(a, id, d) =>
  }

  lemma StayIsMove(m: Model, n: Model, i: Id, t: PolicyType, s: Id, index: nat)
    requires EntryStays(m, n, i, s)
    ensures EntryMoves(m, n, i, t, s, false, index)
  {
  }

  lemma PolicyEventMoves(m: Model, index: nat, a: Action, id: Id, d: PolicyData, i: Id, t: PolicyType, s: Id)
    requires Inv(m) && (a.Delete? || !d.policyType.InvalidPolicy?) && Tracked(m, i) && !t.InvalidPolicy?
    ensures EntryMoves(m, Handle(m, index, PolicyEvent(a, id, d)), i, t, s, Hits(m, PolicyEvent(a, id, d), i, t, s), index)
  {
    if a.Delete? {
      DeletePolicyHits(m, index, id, i, t, s);
    } else {
      UpsertPolicyHits(m, index, id, d, i, t, s);
    }
  }

  // While a type t policy grants s, its index moves to the event's exactly
  // where the event hits, and stays otherwise.
  lemma EventMovesIndex(m: Model, index: nat, e: Event, i: Id, t: PolicyType, s: Id)
    requires Inv(m) && WellFormed(ViewOf(m), e) && Tracked(m, i) && !t.InvalidPolicy? && Spares(e, i, s)
    ensures EntryMoves(m, Handle(m, index, e), i, t, s, Hits(m, e, i, t, s), index)
  {
    if e.PolicyEvent? {
      PolicyEventMoves(m, index, e.action, e.id, e.policy, i, t, s);
    } else if e.CheckEvent? && e.action.Delete? {
      DeleteCheckHits(m, index, e.id, i, t, s);
    } else if e.PolicyChangeEvent? {
      ChangeHits(m, index, e.change, i, t, s);
    } else {
      OthersKeepEntries(m, index, e, i, s);
      StayIsMove(m, Handle(m, index, e), i, t, s, index);
    }
  }

  lemma WithoutImposes(ps: map<Id, PolicyView>, id: Id, i: Id, t: PolicyType, s: Id)
    ensures i != id ==> ImposedIn(WithoutIdentity(ps, id), i, t, s) == ImposedIn(ps, i, t, s)
    ensures s != id ==> ImposedIn(WithoutService(ps, id), i, t, s) == ImposedIn(ps, i, t, s)
  {
  }

  lemma OtherViews(m: Model, index: nat, e: Event)
    requires Inv(m) && WellFormed(ViewOf(m), e)
    requires !e.PolicyEvent? && !(e.CheckEvent? && e.action.Delete?) && !e.PolicyChangeEvent?
    ensures PolicyViews(Handle(m, index, e).policies) ==
            if e.IdentityEvent? && e.action.Delete? then WithoutIdentity(PolicyViews(m.policies), e.id)
            else if e.ServiceEvent? && e.action.Delete? then WithoutService(PolicyViews(m.policies), e.id)
            else PolicyViews(m.policies)
  {
    if e.ConfigEvent? {
      ConfigKeepsPolicyViews(m, index, e.action, e.id, e.config);
    } else {
      HandleRefines(m, index, e);
      assert PolicyViews(Handle(m, index, e).policies) == Step(ViewOf(m), e).policies;
    }
  }

  lemma OthersImposeSame(m: Model, index: nat, e: Event, i: Id, t: PolicyType, s: Id)
    requires Inv(m) && WellFormed(ViewOf(m), e) && Spares(e, i, s)
    requires !e.PolicyEvent? && !(e.CheckEvent? && e.action.Delete?) && !e.PolicyChangeEvent?
    ensures Imposed(Handle(m, index, e), i, t, s) == Imposed(m, i, t, s)
  {
    OtherViews(m, index, e);
    if e.IdentityEvent? || e.ServiceEvent? {
      WithoutImposes(PolicyViews(m.policies), e.id, i, t, s);
    }
  }

  lemma PolicyEventImposes(m: Model, index: nat, a: Action, id: Id, d: PolicyData, i: Id, t: PolicyType, s: Id)
    requires Inv(m) && (a.Delete? || !d.policyType.InvalidPolicy?) && i in m.identities && !t.InvalidPolicy?
    ensures Imposed(Handle(m, index, PolicyEvent(a, id, d)), i, t, s) != Imposed(m, i, t, s) <==> Hits(m, PolicyEvent(a, id, d), i, t, s)
  {
    if a.Delete? {
      DropPolicyImposes(m.policies, id, i, t, s);
    } else {
      UpsertImposes(m, index, id, d, i, t, s);
    }
  }

  predicate NamesNoCheck(e: Event) {
    e.PolicyChangeEvent? && ListsNone(e.change)
  }

  // The events that hit are those that change what is imposed, and changes to
  // the posture checks of a granting policy that name none.
  lemma HitsIff(m: Model, index: nat, e: Event, i: Id, t: PolicyType, s: Id)
    requires Inv(m) && WellFormed(ViewOf(m), e) && i in m.identities && !t.InvalidPolicy? && Spares(e, i, s)
    ensures Imposed(Handle(m, index, e), i, t, s) != Imposed(m, i, t, s) <==> Hits(m, e, i, t, s) && !NamesNoCheck(e)
  {
    if e.PolicyEvent? {
      PolicyEventImposes(m, index, e.action, e.id, e.policy, i, t, s);
    } else if e.CheckEvent? && e.action.Delete? {
      DeleteCheckImposes(m, index, e.id, e.check, i, t, s);
    } else if e.PolicyChangeEvent? {
      ChangeImposes(m, index, e.change, i, t, s);
    } else {
      OthersImposeSame(m, index, e, i, t, s);
    }
  }

  /* ---- whole runs ---- */

  // Some event of the run hits.
  ghost predicate Stirred(m: Model, ops: seq<Op>, i: Id, t: PolicyType, s: Id) {
    ops != [] &&
      var init, last := ops[..|ops| - 1], ops[|ops| - 1];
      Stirred(m, init, i, t, s) || (last.Apply? && Hits(PerformAll(m, init), last.event, i, t, s))
  }

  // The index the run leaves with s: the one it found, or one beyond b.
  ghost predicate IndexAfter(m: Model, n: Model, i: Id, t: PolicyType, s: Id, stirred: bool, b: nat) {
    && Tracked(m, i) && Tracked(n, i) && s in n.identities[i].access
    && if stirred then IndexOf(n.identities[i].access[s], t) > b
       else s in m.identities[i].access && IndexOf(n.identities[i].access[s], t) == IndexOf(m.identities[i].access[s], t)
  }

  lemma StaysJoined(m: Model, index: nat, e: Event, i: Id, t: PolicyType, s: Id)
    requires Inv(m) && WellFormed(ViewOf(m), e) && i in m.identities && !t.InvalidPolicy?
    requires i in Handle(m, index, e).identities && Joining(Handle(m, index, e), i, t, s) != {}
    ensures Spares(e, i, s)
    ensures !Hits(m, e, i, t, s) ==> Joining(m, i, t, s) == Joining(Handle(m, index, e), i, t, s)
  {
    var n := Handle(m, index, e);
    if e.IdentityEvent? && e.action.Delete? && e.id == i {
      assert false;
    }
    if e.ServiceEvent? && e.action.Delete? && e.id == s {
      DeletedServiceJoinsNone(m, index, s, e.service, i, t);
      assert false;
    }
    if !Hits(m, e, i, t, s) {
      HitsIff(m, index, e, i, t, s);
      ImposedJoins(m, i, t, s);
      ImposedJoins(n, i, t, s);
    }
  }

  lemma DeletedServiceJoinsNone(m: Model, index: nat, s: Id, d: ServiceData, i: Id, t: PolicyType)
    requires Inv(m)
    ensures Joining(Handle(m, index, ServiceEvent(Delete, s, d)), i, t, s) == {}
  {
    DeleteServiceRefines(m, index, s, d);
    JoiningIsView(Handle(m, index, ServiceEvent(Delete, s, d)), i, t, s);
  }

  lemma EventStep(m: Model, n: Model, o: Model, i: Id, t: PolicyType, s: Id, stirred: bool, hit: bool, index: nat, b: nat)
    requires Tracked(m, i) && Tracked(o, i) && s in o.identities[i].access && CountOf(o.identities[i].access[s], t) > 0 && index > b
    requires !hit ==> IndexAfter(m, n, i, t, s, stirred, b)
    requires EntryMoves(n, o, i, t, s, hit, index)
    ensures IndexAfter(m, o, i, t, s, stirred || hit, b)
  {
  }

  lemma ApplyStep(m: Model, n: Model, index: nat, e: Event, i: Id, t: PolicyType, s: Id, stirred: bool, b: nat)
    requires Inv(n) && WellFormed(ViewOf(n), e) && !t.InvalidPolicy? && index > b && Inv(Handle(n, index, e))
    requires Tracked(m, i) && Tracked(n, i) && Tracked(Handle(n, index, e), i)
    requires Joining(n, i, t, s) != {} ==> IndexAfter(m, n, i, t, s, stirred, b)
    requires Joining(Handle(n, index, e), i, t, s) != {}
    ensures IndexAfter(m, Handle(n, index, e), i, t, s, stirred || Hits(n, e, i, t, s), b)
  {
    CountIsJoin(Handle(n, index, e), i, t, s);
    StaysJoined(n, index, e, i, t, s);
    EventMovesIndex(n, index, e, i, t, s);
    EventStep(m, n, Handle(n, index, e), i, t, s, stirred, Hits(n, e, i, t, s), index, b);
  }

  lemma {:induction false} TrackedFromStart(m: Model, ops: seq<Op>, i: Id)
    requires StaysTracked(m, ops, i)
    ensures Tracked(m, i)
  {
    if ops != [] {
      TrackedFromStart(m, ops[..|ops| - 1], i);
    }
  }

  lemma TrackingStep(m: Model, n: Model, op: Op, i: Id, t: PolicyType, s: Id, stirred: bool, b: nat)
    requires !op.Apply? && op != Untrack(i) && Tracked(n, i) && IndexAfter(m, n, i, t, s, stirred, b)
    ensures IndexAfter(m, Perform(n, op), i, t, s, stirred, b)
  {
  }

  lemma TrackingJoinsSame(n: Model, op: Op, i: Id, t: PolicyType, s: Id)
    requires !op.Apply?
    ensures Joining(Perform(n, op), i, t, s) == Joining(n, i, t, s)
  {
  }

  // Over any run with tracking on and every event beyond b, an index that
  // counts at the end is the one found at the start, or beyond b where some
  // event of the run hit.
  lemma {:induction false} RunMovesIndex(m: Model, ops: seq<Op>, i: Id, t: PolicyType, s: Id, b: nat)
    requires Inv(m) && Sound(m, ops) && StaysTracked(m, ops, i) && !t.InvalidPolicy?
    requires forall k :: 0 <= k < |ops| && ops[k].Apply? ==> ops[k].index > b
    ensures Joining(PerformAll(m, ops), i, t, s) != {} ==> IndexAfter(m, PerformAll(m, ops), i, t, s, Stirred(m, ops, i, t, s), b)
  {
    if ops == [] {
      if Joining(m, i, t, s) != {} {
        CountIsJoin(m, i, t, s);
      }
    } else {
      var init, last := ops[..|ops| - 1], ops[|ops| - 1];
      var n := PerformAll(m, init);
      RunMovesIndex(m, init, i, t, s, b);
      RunKeepsInv(m, init);
      if last.Apply? {
        HandleKeepsInv(n, last.index, last.event);
        TrackedFromStart(m, ops, i);
        if Joining(Handle(n, last.index, last.event), i, t, s) != {} {
          ApplyStep(m, n, last.index, last.event, i, t, s, Stirred(m, init, i, t, s), b);
        }
      } else {
        TrackingJoinsSame(n, last, i, t, s);
        if Joining(n, i, t, s) != {} {
          TrackingStep(m, n, last, i, t, s, Stirred(m, init, i, t, s), b);
        }
      }
    }
  }

  /* ---- no missed change, and no other notice ---- */

  // A change to what is imposed on a service that is still allowed.
  lemma {:induction false} ChangedIsStirred(m: Model, ops: seq<Op>, i: Id, t: PolicyType, s: Id)
    requires Inv(m) && Sound(m, ops) && StaysTracked(m, ops, i) && !t.InvalidPolicy?
    requires Joining(PerformAll(m, ops), i, t, s) != {} && Imposed(PerformAll(m, ops), i, t, s) != Imposed(m, i, t, s)
    ensures Stirred(m, ops, i, t, s)
  {
    var init, last := ops[..|ops| - 1], ops[|ops| - 1];
    var n := PerformAll(m, init);
    RunKeepsInv(m, init);
    if last.Apply? && !Hits(n, last.event, i, t, s) {
      StaysJoined(n, last.index, last.event, i, t, s);
      HitsIff(n, last.index, last.event, i, t, s);
      ChangedIsStirred(m, init, i, t, s);
    } else if !last.Apply? {
      TrackingJoinsSame(n, last, i, t, s);
      assert Perform(n, last).policies == n.policies;
      ChangedIsStirred(m, init, i, t, s);
    }
  }

  // Two syncs of identity i, at m and at n: everything before the first is
  // applied at or below b, everything after it above, with tracking on.
  ghost predicate TwoSyncs(selfId: Id, before: seq<Op>, after: seq<Op>, i: Id, b: nat, m: Model, n: Model) {
    && Sound(EmptyModel(selfId), before) && m == PerformAll(EmptyModel(selfId), before)
    && Sound(m, after) && n == PerformAll(m, after) && StaysTracked(m, after, i)
    && (forall k :: 0 <= k < |before| && before[k].Apply? ==> before[k].index <= b)
    && (forall k :: 0 <= k < |after| && after[k].Apply? ==> after[k].index > b)
  }

  // A list the first sync can have recorded: the fast one or the plain one.
  ghost predicate Recorded(m: Model, i: Id, s: Id, resolve: Resolve, services: map<Id, IdentityService>) {
    && i in m.identities && s in services
    && (services == FastServices(m, m.identities[i], resolve) || Entry(m, resolve, m.identities[i].policies, services, s))
  }

  // If the type t policies granting a still allowed service, or the posture
  // checks one of them demands, differ between two syncs, then the second
  // sync's index is larger than the one the first recorded.
  lemma NoMissedPolicyChange(selfId: Id, before: seq<Op>, after: seq<Op>, i: Id, s: Id, t: PolicyType, b: nat, m: Model, n: Model,
                             resolve: Resolve, services: map<Id, IdentityService>)
    requires TwoSyncs(selfId, before, after, i, b, m, n) && Recorded(m, i, s, resolve, services) && !t.InvalidPolicy?
    requires Joining(n, i, t, s) != {} && Imposed(n, i, t, s) != Imposed(m, i, t, s)
    ensures i in n.identities && s in n.identities[i].access && IndexOf(n.identities[i].access[s], t) > ListIndex(services[s], t)
  {
    ReachableIsInv(selfId, before);
    RunBounded(selfId, before, b);
    ListedWithin(m, b, i, s, t, resolve, services);
    ChangedIsStirred(m, after, i, t, s);
    RunMovesIndex(m, after, i, t, s, b);
  }

  function PoliciesChanged(t: PolicyType): ServiceChange {
    if t.DialPolicy? then DialPoliciesChanged else BindPoliciesChanged
  }

  // The notice itself: a pass that compares the two syncs reports the change.
  lemma PolicyChangeIsAnnounced(selfId: Id, before: seq<Op>, after: seq<Op>, i: Id, s: Id, t: PolicyType, b: nat, m: Model, n: Model,
                                resolve: Resolve, services: map<Id, IdentityService>, later: Resolve)
    requires TwoSyncs(selfId, before, after, i, b, m, n) && Recorded(m, i, s, resolve, services) && !t.InvalidPolicy?
    requires Joining(n, i, t, s) != {} && Imposed(n, i, t, s) != Imposed(m, i, t, s)
    ensures i in n.identities
    ensures var now := FastServices(n, n.identities[i], later);
            s in now && ServiceNotice(s, PoliciesChanged(t), Some(services[s]), now[s]) in ServiceNotices(services, now, s)
  {
    NoMissedPolicyChange(selfId, before, after, i, s, t, b, m, n, resolve, services);
    ReachableIsInv(selfId, before);
    RunKeepsInv(m, after);
    JoinedServiceIsLive(n, i, t, s);
    CountIsJoin(n, i, t, s);
    MoveIsAnnounced(n, n.identities[i], s, t, services, later);
  }

  lemma UnmovedIsSilent(s: Id, t: PolicyType, was: map<Id, IdentityService>, now: map<Id, IdentityService>)
    requires !t.InvalidPolicy? && s in was && s in now && ListIndex(was[s], t) == ListIndex(now[s], t)
    ensures ServiceNotice(s, PoliciesChanged(t), Some(was[s]), now[s]) !in ServiceNotices(was, now, s)
  {
  }

  // Between two syncs that both list from the counts, a policies-changed
  // notice for a still allowed service is sent exactly when some event between
  // them hit it.
  lemma PolicyNoticeIff(selfId: Id, before: seq<Op>, after: seq<Op>, i: Id, s: Id, t: PolicyType, b: nat, m: Model, n: Model,
                        resolve: Resolve, later: Resolve)
    requires TwoSyncs(selfId, before, after, i, b, m, n) && !t.InvalidPolicy? && i in m.identities && i in n.identities
    requires s in FastServices(m, m.identities[i], resolve) && Joining(n, i, t, s) != {}
    ensures var was, now := FastServices(m, m.identities[i], resolve), FastServices(n, n.identities[i], later);
            && s in now
            && (ServiceNotice(s, PoliciesChanged(t), Some(was[s]), now[s]) in ServiceNotices(was, now, s) <==> Stirred(m, after, i, t, s))
  {
    var was, now := FastServices(m, m.identities[i], resolve), FastServices(n, n.identities[i], later);
    ReachableIsInv(selfId, before);
    RunKeepsInv(m, after);
    JoinedServiceIsLive(n, i, t, s);
    CountIsJoin(n, i, t, s);
    RunMovesIndex(m, after, i, t, s, b);
    if Stirred(m, after, i, t, s) {
      RunBounded(selfId, before, b);
      ListedWithin(m, b, i, s, t, resolve, was);
      MoveIsAnnounced(n, n.identities[i], s, t, was, later);
    } else {
      UnmovedIsSilent(s, t, was, now);
    }
  }
}
