// The policy indices kept with policies and with a tracked identity's access
// entries: how each event moves them, and that none is beyond what was applied.
module PolicyIndex {
  import opened DataState
  import opened RelationalView
  import opened ReceiverSpec
  import opened ReceiverCounts
  import opened ReceiverInvariant
  import opened ReceiverSteps
  import opened ReceiverRuns
  import opened ServiceLists
  import opened Notifications

  function CountOf(a: Access, t: PolicyType): int {
    match t
    case DialPolicy => a.dial
    case BindPolicy => a.bind
    case InvalidPolicy => 0
  }

  function IndexOf(a: Access, t: PolicyType): nat {
    match t
    case DialPolicy => a.dialIndex
    case BindPolicy => a.bindIndex
    case InvalidPolicy => 0
  }

  /* ---- how access entries move ---- */

  // From a to b, at index: a policy index never jumps beyond `index`; where the
  // count is positive, it has reached `index` if the count changed, and has not
  // fallen otherwise.
  predicate MovesAt(a: map<Id, Access>, b: map<Id, Access>, index: nat, s: Id, t: PolicyType) {
    s in b ==>
      && IndexOf(b[s], t) <= Max(index, IndexOf(CurrentAccess(a, s), t))
      && (CountOf(b[s], t) > 0 ==>
            || IndexOf(b[s], t) >= index
            || (s in a && CountOf(a[s], t) == CountOf(b[s], t) && IndexOf(b[s], t) >= IndexOf(a[s], t)))
  }

  ghost predicate Moves(a: map<Id, Access>, b: map<Id, Access>, index: nat) {
    forall s, t :: MovesAt(a, b, index, s, t)
  }

  lemma MovesOn(a: map<Id, Access>, b: map<Id, Access>, c: map<Id, Access>, index: nat)
    requires Moves(a, b, index) && Moves(b, c, index)
    ensures Moves(a, c, index)
  {
    forall s, t
      ensures MovesAt(a, c, index, s, t)
    {
      assert MovesAt(a, b, index, s, t) && MovesAt(b, c, index, s, t);
    }
  }

  lemma UpdateMoves(acc: map<Id, Access>, t: PolicyType, ids: set<Id>, index: nat, add: bool)
    ensures Moves(acc, UpdateEachService(acc, t, ids, index, add), index)
  {
  }

  lemma {:induction false} UpdatesMove(acc: map<Id, Access>, t: PolicyType, ids: seq<Id>, index: nat, add: bool)
    ensures Moves(acc, UpdateServiceCounts(acc, t, ids, index, add), index)
  {
    if ids != [] {
      var b := UpdateServiceCounts(acc, t, ids[..|ids| - 1], index, add);
      UpdatesMove(acc, t, ids[..|ids| - 1], index, add);
      UpdateMoves(b, t, {ids[|ids| - 1]}, index, add);
      assert UpdateServiceCount(b, t, ids[|ids| - 1], index, add) == UpdateEachService(b, t, {ids[|ids| - 1]}, index, add);
      MovesOn(acc, b, UpdateServiceCounts(acc, t, ids, index, add), index);
    }
  }

  lemma TouchMoves(acc: map<Id, Access>, t: PolicyType, ids: set<Id>, index: nat)
    ensures Moves(acc, TouchEach(acc, t, ids, index), index)
  {
  }

  // One identity through one event.
  ghost predicate Follows(i: Identity, j: Identity, index: nat) {
    j.tracking == i.tracking && Moves(i.access, j.access, index)
  }

  lemma JoinFollows(i: Identity, pid: Id, p: Policy, index: nat, join: bool)
    ensures Follows(i, JoinPolicy(i, pid, p, index, join), index)
  {
    UpdateMoves(i.access, p.data.policyType, p.services, index, join);
  }

  lemma FlipFollows(i: Identity, pid: Id, p: Policy, q: Policy, index: nat)
    ensures Follows(i, JoinPolicy(JoinPolicy(i, pid, p, index, false), pid, q, index, true), index)
  {
    var j := JoinPolicy(i, pid, p, index, false);
    JoinFollows(i, pid, p, index, false);
    JoinFollows(j, pid, q, index, true);
    MovesOn(i.access, j.access, JoinPolicy(j, pid, q, index, true).access, index);
  }

  lemma ServicesFollow(i: Identity, pid: Id, p: Policy, q: Policy, ids: seq<Id>, index: nat, add: bool)
    ensures Follows(i, FollowServices(i, pid, p, q, ids, index, add), index)
  {
    var j := ServicesChanged(i, pid, p, ids, index, add);
    UpdatesMove(i.access, p.data.policyType, ids, index, add);
    TouchMoves(j.access, q.data.policyType, q.services, index);
    MovesOn(i.access, j.access, TouchEach(j.access, q.data.policyType, q.services, index), index);
  }

  lemma ChecksFollow(i: Identity, pid: Id, p: Policy, ids: seq<Id>, index: nat, add: bool)
    ensures Follows(i, ChecksChanged(i, pid, p, ids, index, add), index)
  {
    TouchMoves(i.access, p.data.policyType, p.services, index);
  }

  /* ---- every identity, every policy ---- */

  // An identity just created has no access entries.
  ghost predicate AllFollow(im: map<Id, Identity>, jm: map<Id, Identity>, index: nat) {
    forall i :: i in jm ==> if i in im then Follows(im[i], jm[i], index) else jm[i].access == map[]
  }

  // A policy index stays, falls to 0, or moves to `index` or the larger.
  ghost predicate PoliciesMove(ps: map<Id, Policy>, qs: map<Id, Policy>, index: nat) {
    forall p :: p in qs ==>
      if p in ps then
        && qs[p].servicesIndex <= Max(index, ps[p].servicesIndex)
        && qs[p].checksIndex <= Max(index, ps[p].checksIndex)
      else qs[p].servicesIndex <= index && qs[p].checksIndex <= index
  }

  ghost predicate StepMoves(m: Model, n: Model, index: nat) {
    AllFollow(m.identities, n.identities, index) && PoliciesMove(m.policies, n.policies, index)
  }

  lemma StepMovesOn(m: Model, n: Model, o: Model, index: nat)
    requires StepMoves(m, n, index) && StepMoves(n, o, index)
    requires n.identities.Keys == m.identities.Keys && n.policies.Keys == m.policies.Keys
    ensures StepMoves(m, o, index)
  {
    forall i | i in m.identities && i in o.identities
      ensures Follows(m.identities[i], o.identities[i], index)
    {
      assert Follows(m.identities[i], n.identities[i], index) && Follows(n.identities[i], o.identities[i], index);
      MovesOn(m.identities[i].access, n.identities[i].access, o.identities[i].access, index);
    }
  }

  lemma JoinEachFollows(im: map<Id, Identity>, hit: set<Id>, pid: Id, p: Policy, index: nat, join: bool)
    ensures AllFollow(im, JoinEach(im, hit, pid, p, index, join), index)
  {
    forall i | i in im
      ensures Follows(im[i], JoinEach(im, hit, pid, p, index, join)[i], index)
    {
      JoinFollows(im[i], pid, p, index, join);
    }
  }

  lemma FlipEachFollows(im: map<Id, Identity>, pid: Id, p: Policy, q: Policy, index: nat)
    ensures AllFollow(im, FlipEach(im, pid, p, q, index), index)
  {
    forall i | i in im
      ensures Follows(im[i], FlipEach(im, pid, p, q, index)[i], index)
    {
      FlipFollows(im[i], pid, p, q, index);
    }
  }

  lemma ServicesEachFollow(im: map<Id, Identity>, pid: Id, p: Policy, q: Policy, ids: seq<Id>, index: nat, add: bool)
    ensures AllFollow(im, FollowServicesEach(im, pid, p, q, ids, index, add), index)
  {
    forall i | i in im
      ensures Follows(im[i], FollowServicesEach(im, pid, p, q, ids, index, add)[i], index)
    {
      ServicesFollow(im[i], pid, p, q, ids, index, add);
    }
  }

  lemma ChecksEachFollow(im: map<Id, Identity>, pid: Id, p: Policy, ids: seq<Id>, index: nat, add: bool)
    ensures AllFollow(im, FollowChecksEach(im, pid, p, ids, index, add), index)
  {
    forall i | i in im
      ensures Follows(im[i], FollowChecksEach(im, pid, p, ids, index, add)[i], index)
    {
      ChecksFollow(im[i], pid, p, ids, index, add);
    }
  }

  lemma SameFollows(im: map<Id, Identity>, jm: map<Id, Identity>, index: nat)
    requires forall i :: i in jm ==> if i in im then jm[i].access == im[i].access && jm[i].tracking == im[i].tracking else jm[i].access == map[]
    ensures AllFollow(im, jm, index)
  {
  }

  lemma SetPolicyMoves(ps: map<Id, Policy>, pid: Id, q: Policy, index: nat)
    requires q.servicesIndex <= Max(index, if pid in ps then ps[pid].servicesIndex else 0)
    requires q.checksIndex <= Max(index, if pid in ps then ps[pid].checksIndex else 0)
    ensures PoliciesMove(ps, ps[pid := q], index)
  {
  }

  lemma BumpMoves(ps: map<Id, Policy>, hit: set<Id>, index: nat)
    ensures PoliciesMove(ps, BumpServices(ps, hit, index), index)
  {
  }

  lemma BumpChecksMoves(ps: map<Id, Policy>, hit: set<Id>, index: nat)
    ensures PoliciesMove(ps, BumpChecks(ps, hit, index), index)
  {
  }

  lemma ChangedFollow(im: map<Id, Identity>, p: Policy, index: nat, c: PolicyChange)
    ensures AllFollow(im, ChangedIdentities(im, p, index, c), index)
  {
    match c.relatedType
    case RelatedIdentity => JoinEachFollows(im, Elems(c.relatedIds) * im.Keys, c.policyId, p, index, c.add);
    case RelatedService =>
      ServicesEachFollow(im, c.policyId, p, ServicesAmended(p, index, c.relatedIds, c.add), c.relatedIds, index, c.add);
    case RelatedPostureCheck => ChecksEachFollow(im, c.policyId, p, c.relatedIds, index, c.add);
    case InvalidRelatedType => SameFollows(im, im, index);
  }

  lemma ChangeMoves(m: Model, index: nat, c: PolicyChange)
    ensures StepMoves(m, HandlePolicyChange(m, index, c), index)
  {
    if c.policyId in m.policies {
      var p := m.policies[c.policyId];
      ChangedFollow(m.identities, p, index, c);
      SetPolicyMoves(m.policies, c.policyId, ChangedPolicy(p, m.identities.Keys, index, c), index);
    } else {
      SameFollows(m.identities, m.identities, index);
    }
  }

  lemma {:induction false} DetachesMove(kind: RelatedType, m: Model, index: nat, id: Id, pids: set<Id>)
    ensures var n := Fold(Detach(kind, index, id), pids, m);
            StepMoves(m, n, index) && n.identities.Keys == m.identities.Keys && n.policies.Keys == m.policies.Keys
    decreases |pids|
  {
    if pids != {} {
      var step := Detach(kind, index, id);
      var x :| x in pids && Fold(step, pids, m) == step(x, Fold(step, pids - {x}, m));
      DetachesMove(kind, m, index, id, pids - {x});
      var n := Fold(step, pids - {x}, m);
      var c := PolicyChange(x, [id], kind, false);
      ChangeMoves(n, index, c);
      ChangeKeepsPayloads(n, index, c);
      StepMovesOn(m, n, step(x, n), index);
    }
  }

  lemma DeleteIdentityMoves(m: Model, index: nat, id: Id)
    ensures StepMoves(m, DeleteIdentity(m, index, id), index)
  {
    var n := m.(configs := Relink(m.configs, id, ConfigsOf(m, id), {}));
    DetachesMove(RelatedIdentity, n, index, id, PoliciesListingIdentity(n, id));
  }

  lemma DeleteServiceMoves(m: Model, index: nat, id: Id)
    requires id in m.services
    ensures StepMoves(m, DeleteService(m, index, id), index)
  {
    var s := m.services[id];
    var n := m.(services := m.services - {id},
                configs := RelinkServices(m.configs, id, Elems(s.data.configs), {}),
                names := Unname(m.names, s.data.name, id));
    DetachesMove(RelatedService, n, index, id, PoliciesListingService(m, id));
  }

  lemma UpsertIdentityMoves(m: Model, index: nat, id: Id, d: IdentityData)
    ensures StepMoves(m, UpsertIdentity(m, index, id, d), index)
  {
    SameFollows(m.identities, UpsertIdentity(m, index, id, d).identities, index);
  }

  lemma UpsertPolicyMoves(m: Model, index: nat, id: Id, d: PolicyData)
    ensures StepMoves(m, UpsertPolicy(m, index, id, d), index)
  {
    var q := NextPolicy(m.policies, index, id, d);
    SetPolicyMoves(m.policies, id, q, index);
    if Flips(m.policies, id, d) {
      FlipEachFollows(m.identities, id, m.policies[id], q, index);
    } else {
      SameFollows(m.identities, m.identities, index);
    }
  }

  lemma DropMoves(ps: map<Id, Policy>, pid: Id, index: nat)
    ensures PoliciesMove(ps, ps - {pid}, index)
  {
  }

  lemma DeletePolicyMoves(m: Model, index: nat, id: Id)
    ensures StepMoves(m, DeletePolicy(m, index, id), index)
  {
    DropMoves(m.policies, id, index);
    if id in m.policies {
      JoinEachFollows(m.identities, m.policies[id].identities, id, m.policies[id], index, false);
    } else {
      SameFollows(m.identities, m.identities, index);
    }
  }

  lemma DeleteConfigMoves(m: Model, index: nat, id: Id)
    ensures StepMoves(m, DeleteConfig(m, index, id), index)
  {
    SameFollows(m.identities, ClearConfigEach(m.identities, IdentitiesUsing(m.configs, id), id), index);
    BumpMoves(m.policies, PoliciesOfServices(m.services, ServicesUsing(m.configs, id)), index);
  }

  lemma UpsertConfigMoves(m: Model, index: nat, id: Id, d: ConfigData)
    ensures StepMoves(m, UpsertConfig(m, index, id, d), index)
  {
    SameFollows(m.identities, m.identities, index);
    BumpMoves(m.policies, PoliciesOfServices(m.services, ServicesChangedBy(m.configs, id, d)), index);
  }

  lemma ConfigTypeMoves(m: Model, index: nat, a: Action, id: Id, d: ConfigTypeData)
    ensures StepMoves(m, HandleConfigType(m, index, a, id, d), index)
  {
    SameFollows(m.identities, m.identities, index);
    BumpMoves(m.policies, PoliciesOfServices(m.services, if a.Delete? then {} else ServicesOfType(m, id)), index);
  }

  lemma UpsertServiceMoves(m: Model, index: nat, id: Id, d: ServiceData)
    ensures StepMoves(m, UpsertService(m, index, id, d), index)
  {
    SameFollows(m.identities, m.identities, index);
    BumpMoves(m.policies, PoliciesOf(m.services, id), index);
  }

  lemma UpsertCheckMoves(m: Model, index: nat, id: Id, d: CheckData)
    ensures StepMoves(m, UpsertCheck(m, index, id, d), index)
  {
    SameFollows(m.identities, m.identities, index);
    BumpChecksMoves(m.policies, PoliciesOfCheck(m.checks, id), index);
  }

  lemma HandleMoves(m: Model, index: nat, e: Event)
    ensures StepMoves(m, Handle(m, index, e), index)
  {
    match e
    case ConfigTypeEvent(a, id, d) => ConfigTypeMoves(m, index, a, id, d);
    case ConfigEvent(a, id, d) => if a.Delete? { DeleteConfigMoves(m, index, id); } else { UpsertConfigMoves(m, index, id, d); }
    case IdentityEvent(a, id, d) => if a.Delete? { DeleteIdentityMoves(m, index, id); } else { UpsertIdentityMoves(m, index, id, d); }
    case ServiceEvent(a, id, d) =>
      if !a.Delete? {
        UpsertServiceMoves(m, index, id, d);
      } else if id in m.services {
        DeleteServiceMoves(m, index, id);
      } else {
        SameFollows(m.identities, m.identities, index);
      }
    case RouterEvent(a, id, d) => SameFollows(m.identities, m.identities, index);
    case PolicyEvent(a, id, d) => if a.Delete? { DeletePolicyMoves(m, index, id); } else { UpsertPolicyMoves(m, index, id, d); }
    case CheckEvent(a, id, d) =>
      if a.Delete? {
        DetachesMove(RelatedPostureCheck, m, index, id, PoliciesListingCheck(m, id));
      } else {
        UpsertCheckMoves(m, index, id, d);
      }
    case KeyEvent(a, id, d) => SameFollows(m.identities, m.identities, index);
    case RevocationEvent(a, id, d) => SameFollows(m.identities, m.identities, index);
    case PolicyChangeEvent(c) => ChangeMoves(m, index, c);
  }

  /* ---- indices stay within what has been applied ---- */

  ghost predicate Within(acc: map<Id, Access>, b: nat) {
    forall s :: s in acc ==> acc[s].dialIndex <= b && acc[s].bindIndex <= b
  }

  ghost predicate PoliciesWithin(ps: map<Id, Policy>, b: nat) {
    forall p :: p in ps ==> ps[p].servicesIndex <= b && ps[p].checksIndex <= b
  }

  // No index is beyond b.
  ghost predicate Bounded(m: Model, b: nat) {
    PoliciesWithin(m.policies, b) && forall i :: i in m.identities ==> Within(m.identities[i].access, b)
  }

  lemma MovesWithin(a: map<Id, Access>, c: map<Id, Access>, index: nat, b: nat)
    requires Moves(a, c, index) && Within(a, b) && index <= b
    ensures Within(c, b)
  {
    forall s | s in c
      ensures c[s].dialIndex <= b && c[s].bindIndex <= b
    {
      assert MovesAt(a, c, index, s, DialPolicy) && MovesAt(a, c, index, s, BindPolicy);
    }
  }

  lemma HandleBounded(m: Model, index: nat, e: Event, b: nat)
    requires Bounded(m, b) && index <= b
    ensures Bounded(Handle(m, index, e), b)
  {
    var n := Handle(m, index, e);
    HandleMoves(m, index, e);
    forall i | i in n.identities
      ensures Within(n.identities[i].access, b)
    {
      if i in m.identities {
        assert Follows(m.identities[i], n.identities[i], index);
        MovesWithin(m.identities[i].access, n.identities[i].access, index, b);
      }
    }
  }

  lemma RecordWithin(acc: map<Id, Access>, p: Policy, b: nat)
    requires Within(acc, b) && p.servicesIndex <= b && p.checksIndex <= b
    ensures Within(RecordPolicy(acc, p), b)
  {
  }

  lemma {:induction false} BuildWithin(ps: map<Id, Policy>, mine: set<Id>, b: nat)
    requires PoliciesWithin(ps, b)
    ensures Within(BuildAccess(ps, mine), b)
    decreases |mine|
  {
    if mine != {} {
      var p :| p in mine && BuildAccess(ps, mine) == Recorder(ps)(p, BuildAccess(ps, mine - {p}));
      BuildWithin(ps, mine - {p}, b);
      if p in ps {
        RecordWithin(BuildAccess(ps, mine - {p}), ps[p], b);
      }
    }
  }

  lemma {:induction false} RunBounded(selfId: Id, ops: seq<Op>, b: nat)
    requires forall k :: 0 <= k < |ops| && ops[k].Apply? ==> ops[k].index <= b
    ensures Bounded(PerformAll(EmptyModel(selfId), ops), b)
  {
    if ops != [] {
      var init, last := ops[..|ops| - 1], ops[|ops| - 1];
      var m := PerformAll(EmptyModel(selfId), init);
      RunBounded(selfId, init, b);
      match last
      case Apply(index, e) => HandleBounded(m, index, e, b);
      case Track(id) =>
        if id in m.identities {
          BuildWithin(m.policies, m.identities[id].policies, b);
        }
      case Untrack(id) =>
    }
  }

  /* ---- the join an entry counts ---- */

  function JoiningIn(ps: map<Id, PolicyView>, i: Id, t: PolicyType, s: Id): set<Id> {
    set p | p in ps && i in ps[p].identities && ps[p].data.policyType == t && s in ps[p].services
  }

  lemma ConfigKeepsPolicyViews(m: Model, index: nat, a: Action, id: Id, d: ConfigData)
    ensures PolicyViews(Handle(m, index, ConfigEvent(a, id, d)).policies) == PolicyViews(m.policies)
  {
    BumpKeepsViews(m.policies, PoliciesOfServices(m.services, ServicesUsing(m.configs, id)), index);
    BumpKeepsViews(m.policies, PoliciesOfServices(m.services, ServicesChangedBy(m.configs, id, d)), index);
  }

  lemma JoiningIsView(m: Model, i: Id, t: PolicyType, s: Id)
    ensures Joining(m, i, t, s) == JoiningIn(PolicyViews(m.policies), i, t, s)
  {
  }

  ghost predicate Tracked(m: Model, i: Id) {
    i in m.identities && m.identities[i].tracking
  }

  lemma CountIsJoin(m: Model, i: Id, t: PolicyType, s: Id)
    requires Inv(m) && Tracked(m, i) && !t.InvalidPolicy? && Joining(m, i, t, s) != {}
    ensures s in m.identities[i].access && CountOf(m.identities[i].access[s], t) == |Joining(m, i, t, s)|
  {
    JoinIsGranting(m, i);
    assert Exact(m.policies, m.identities[i]);
    assert AccessIs(m.identities[i].access, s, |Granting(m.policies, m.identities[i].policies, DialPolicy, s)|,
                    |Granting(m.policies, m.identities[i].policies, BindPolicy, s)|);
  }

  // Tracking of i is never interrupted.
  ghost predicate StaysTracked(m: Model, ops: seq<Op>, i: Id) {
    Tracked(PerformAll(m, ops), i) && (ops != [] ==> StaysTracked(m, ops[..|ops| - 1], i) && ops[|ops| - 1] != Untrack(i))
  }

  // The index a list shows for type t.
  function ListIndex(e: IdentityService, t: PolicyType): nat {
    if t.DialPolicy? then e.dialIndex else e.bindIndex
  }

  // An index recorded when everything up to b had been applied is at most b,
  // whichever of the two lists it came from.
  lemma ListedWithin(m: Model, b: nat, i: Id, s: Id, t: PolicyType, resolve: Resolve, services: map<Id, IdentityService>)
    requires Bounded(m, b) && i in m.identities && s in services
    requires services == FastServices(m, m.identities[i], resolve) || Entry(m, resolve, m.identities[i].policies, services, s)
    ensures ListIndex(services[s], t) <= b
  {
    if services == FastServices(m, m.identities[i], resolve) {
      assert Within(m.identities[i].access, b);
    }
  }

  lemma JoinedServiceIsLive(m: Model, i: Id, t: PolicyType, s: Id)
    requires Inv(m) && Joining(m, i, t, s) != {}
    ensures s in m.services
  {
    InvIsCoherent(m);
    var p :| p in Joining(m, i, t, s);
    assert CoherentPolicy(ViewOf(m), ViewOf(m).policies[p]);
  }

  // A list that shows a later index for an allowed service announces it.
  lemma MoveIsAnnounced(n: Model, i: Identity, s: Id, t: PolicyType, services: map<Id, IdentityService>, later: Resolve)
    requires !t.InvalidPolicy? && s in n.services && s in i.access && CountOf(i.access[s], t) > 0
    requires s in services && IndexOf(i.access[s], t) > ListIndex(services[s], t)
    ensures var now := FastServices(n, i, later);
            s in now &&
            ServiceNotice(s, if t.DialPolicy? then DialPoliciesChanged else BindPoliciesChanged, Some(services[s]), now[s])
              in ServiceNotices(services, now, s)
  {
    var now := FastServices(n, i, later);
    var notice := ServiceNotice(s, if t.DialPolicy? then DialPoliciesChanged else BindPoliciesChanged, Some(services[s]), now[s]);
    assert notice in PolicyNotices(s, services[s], now[s]);
  }
}
