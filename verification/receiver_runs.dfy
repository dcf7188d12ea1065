// Whole runs of the receiver: what holds in every state reachable by a
// well-formed stream of events, with access tracking switched on and off at will.
module ReceiverRuns {
  import opened DataState
  import opened RelationalView
  import opened ReceiverSpec
  import opened ReceiverCounts
  import opened ReceiverInvariant
  import opened ReceiverSteps

  lemma HandleKeepsInv(m: Model, index: nat, e: Event)
    requires Inv(m) && WellFormed(ViewOf(m), e)
    ensures Inv(Handle(m, index, e))
  {
    match e
    case ConfigTypeEvent(a, id, d) => HandleConfigTypeKeepsInv(m, index, a, id, d);
    case ConfigEvent(a, id, d) =>
      if a.Delete? { DeleteConfigKeepsInv(m, index, id); } else { UpsertConfigKeepsInv(m, index, id, d); }
    case IdentityEvent(a, id, d) =>
      if a.Delete? { DeleteIdentityKeepsInv(m, index, id); } else { UpsertIdentityKeepsInv(m, index, id, d); }
    case ServiceEvent(a, id, d) =>
      if a.Delete? { DeleteServiceKeepsInv(m, index, id); } else { UpsertServiceKeepsInv(m, index, id, d); }
    case RouterEvent(a, id, d) => HandleRouterKeepsInv(m, a, id, d);
    case PolicyEvent(a, id, d) =>
      if a.Delete? { DeletePolicyKeepsInv(m, index, id); } else { UpsertPolicyKeepsInv(m, index, id, d); }
    case CheckEvent(a, id, d) =>
      if a.Delete? { DeleteCheckKeepsInv(m, index, id); } else { UpsertCheckKeepsInv(m, index, id, d); }
    case KeyEvent(a, id, d) =>
    case RevocationEvent(a, id, d) =>
    case PolicyChangeEvent(c) => WellFormedCounts(m, c); ChangeKeepsInv(m, index, c);
  }

  lemma WellFormedCounts(m: Model, c: PolicyChange)
    requires WellFormedChange(ViewOf(m), c)
    ensures CountsOnce(m.policies, c) && AddsLive(m, c)
  {
  }

  // The receiver refines the reference meaning of every event. Deleting a
  // config clears the overrides that name it, so there it must be detached;
  // the local router's config collection is outside the reference.
  lemma HandleRefines(m: Model, index: nat, e: Event)
    requires Inv(m) && WellFormed(ViewOf(m), e)
    requires e.ConfigEvent? ==> Detaches(ViewOf(m), e)
    ensures SharedPart(ViewOf(Handle(m, index, e))) == SharedPart(Step(ViewOf(m), e))
    ensures (e.RouterEvent? ==> m.selfId == "" || e.id !in m.routers) ==> ViewOf(Handle(m, index, e)) == Step(ViewOf(m), e)
  {
    match e
    case ConfigTypeEvent(a, id, d) => HandleConfigTypeRefines(m, index, a, id, d);
    case ConfigEvent(a, id, d) =>
      if a.Delete? { DeleteConfigRefines(m, index, id, d); } else { UpsertConfigRefines(m, index, a, id, d); }
    case IdentityEvent(a, id, d) =>
      if a.Delete? { DeleteIdentityRefines(m, index, id, d); } else { UpsertIdentityRefines(m, index, a, id, d); }
    case ServiceEvent(a, id, d) =>
      if a.Delete? { DeleteServiceRefines(m, index, id, d); } else { UpsertServiceRefines(m, index, a, id, d); }
    case RouterEvent(a, id, d) => HandleRouterRefines(m, a, id, d);
    case PolicyEvent(a, id, d) =>
      if a.Delete? { DeletePolicyRefines(m, index, id, d); } else { UpsertPolicyRefines(m, index, a, id, d); }
    case CheckEvent(a, id, d) =>
      if a.Delete? { DeleteCheckRefines(m, index, id, d); } else { UpsertCheckRefines(m, index, a, id, d); }
    case KeyEvent(a, id, d) =>
    case RevocationEvent(a, id, d) =>
    case PolicyChangeEvent(c) => ChangeRefines(m, index, c);
  }

  /* ---- tracking ---- */

  lemma RecorderCommutes(ps: map<Id, Policy>)
    ensures Commutes(Recorder(ps))
  {
    forall p, q, acc
      ensures Recorder(ps)(p, Recorder(ps)(q, acc)) == Recorder(ps)(q, Recorder(ps)(p, acc))
    {
      if p in ps && q in ps {
        RecordsCommute(acc, ps[p], ps[q]);
      }
    }
  }

  lemma RecordsCommute(acc: map<Id, Access>, p: Policy, q: Policy)
    ensures RecordPolicy(RecordPolicy(acc, p), q) == RecordPolicy(RecordPolicy(acc, q), p)
  {
    var a, b := RecordPolicy(RecordPolicy(acc, p), q), RecordPolicy(RecordPolicy(acc, q), p);
    assert a.Keys == b.Keys;
    forall s | s in a
      ensures a[s] == b[s]
    {
      UpdatesCommute(CurrentAccess(acc, s), p.data.policyType, Max(p.checksIndex, p.servicesIndex),
                     q.data.policyType, Max(q.checksIndex, q.servicesIndex));
    }
  }

  lemma UpdatesCommute(a: Access, t: PolicyType, x: nat, u: PolicyType, y: nat)
    ensures a.UpdatePolicies(t, x, true).UpdatePolicies(u, y, true) == a.UpdatePolicies(u, y, true).UpdatePolicies(t, x, true)
  {
  }

  // Rebuilding access from scratch gives exact counts, whatever order the
  // policies are visited in.
  lemma {:induction false} BuildIsExact(ps: map<Id, Policy>, mine: set<Id>)
    requires ValidTypes(ps) && mine <= ps.Keys
    ensures ExactAccess(ps, mine, BuildAccess(ps, mine))
    decreases |mine|
  {
    if mine != {} {
      var step := Recorder(ps);
      var x :| x in mine && Fold(step, mine, map[]) == step(x, Fold(step, mine - {x}, map[]));
      BuildIsExact(ps, mine - {x});
      JoinShifts(ps, mine - {x}, x);
      assert mine - {x} + {x} == mine;
      RecordIsUpdate(BuildAccess(ps, mine - {x}), ps[x], ps, mine - {x});
      ShiftAccess(ps, mine - {x}, ps, mine, BuildAccess(ps, mine - {x}), ps[x].data.policyType, ps[x].services,
                  Max(ps[x].checksIndex, ps[x].servicesIndex), true);
    }
  }

  lemma RecordIsUpdate(acc: map<Id, Access>, p: Policy, ps: map<Id, Policy>, mine: set<Id>)
    requires ExactAccess(ps, mine, acc) && !p.data.policyType.InvalidPolicy?
    ensures RecordPolicy(acc, p) == UpdateEachService(acc, p.data.policyType, p.services, Max(p.checksIndex, p.servicesIndex), true)
  {
    forall s | s in p.services
      ensures CurrentAccess(acc, s).UpdatePolicies(p.data.policyType, Max(p.checksIndex, p.servicesIndex), true).HasAccess()
    {
      assert AccessIs(acc, s, |Granting(ps, mine, DialPolicy, s)|, |Granting(ps, mine, BindPolicy, s)|);
    }
  }

  // Counts may be replaced by any others that are exact.
  lemma ReplaceKeepsCore(im: map<Id, Identity>, ps: map<Id, Policy>, id: Id, j: Identity)
    requires CoreOf(im, ps) && id in im && Exact(ps, j)
    requires j.policies == im[id].policies
    ensures CoreOf(im[id := j], ps)
  {
    SameRelation(im, ps, im[id := j], ps);
  }

  lemma ReplaceKeepsDatas(im: map<Id, Identity>, cs: map<Id, Config>, id: Id, j: Identity)
    requires id in im && j.data == im[id].data && ConfigsLinked(cs, im)
    ensures IdentityDatas(im[id := j]) == IdentityDatas(im) && ConfigsLinked(cs, im[id := j])
  {
  }

  lemma ReplaceCounts(m: Model, id: Id, j: Identity)
    requires Inv(m) && id in m.identities
    requires j.data == m.identities[id].data && j.policies == m.identities[id].policies && Exact(m.policies, j)
    ensures Inv(m.(identities := m.identities[id := j]))
    ensures ViewOf(m.(identities := m.identities[id := j])) == ViewOf(m)
  {
    ReplaceKeepsCore(m.identities, m.policies, id, j);
    ReplaceKeepsDatas(m.identities, m.configs, id, j);
  }

  lemma TrackingIsExact(ps: map<Id, Policy>, i: Identity)
    requires Exact(ps, i) && ValidTypes(ps) && i.policies <= ps.Keys
    ensures Exact(ps, Tracking(i, ps)) && Exact(ps, Untracked(i))
  {
    if !i.tracking {
      BuildIsExact(ps, i.policies);
    }
  }

  lemma TrackingKeepsInv(m: Model, id: Id)
    requires Inv(m)
    ensures Inv(EnableTracking(m, id)) && ViewOf(EnableTracking(m, id)) == ViewOf(m)
    ensures Inv(DisableTracking(m, id)) && ViewOf(DisableTracking(m, id)) == ViewOf(m)
  {
    if id in m.identities {
      var i := m.identities[id];
      assert i.policies <= m.policies.Keys;
      TrackingIsExact(m.policies, i);
      ReplaceCounts(m, id, Tracking(i, m.policies));
      ReplaceCounts(m, id, Untracked(i));
    }
  }

  /* ---- reachable states ---- */

  datatype Op = Apply(index: nat, event: Event) | Track(id: Id) | Untrack(id: Id)

  ghost function Perform(m: Model, op: Op): Model {
    match op
    case Apply(index, e) => Handle(m, index, e)
    case Track(id) => EnableTracking(m, id)
    case Untrack(id) => DisableTracking(m, id)
  }

  ghost function PerformAll(m: Model, ops: seq<Op>): Model {
    if ops == [] then m else Perform(PerformAll(m, ops[..|ops| - 1]), ops[|ops| - 1])
  }

  // Each event is well formed for the content the receiver then has.
  ghost predicate Sound(m: Model, ops: seq<Op>) {
    ops != [] ==>
      var init, last := ops[..|ops| - 1], ops[|ops| - 1];
      Sound(m, init) && (last.Apply? ==> WellFormed(ViewOf(PerformAll(m, init)), last.event))
  }

  ghost predicate Reaches(selfId: Id, ops: seq<Op>, m: Model) {
    Sound(EmptyModel(selfId), ops) && PerformAll(EmptyModel(selfId), ops) == m
  }

  lemma EmptyIsInv(selfId: Id)
    ensures Inv(EmptyModel(selfId)) && ViewOf(EmptyModel(selfId)) == EMPTY_VIEW
  {
  }

  lemma {:induction false} RunKeepsInv(m: Model, ops: seq<Op>)
    requires Inv(m) && Sound(m, ops)
    ensures Inv(PerformAll(m, ops))
  {
    if ops != [] {
      var init, last := ops[..|ops| - 1], ops[|ops| - 1];
      RunKeepsInv(m, init);
      match last
      case Apply(index, e) => HandleKeepsInv(PerformAll(m, init), index, e);
      case Track(id) => TrackingKeepsInv(PerformAll(m, init), id);
      case Untrack(id) => TrackingKeepsInv(PerformAll(m, init), id);
    }
  }

  lemma ReachableIsInv(selfId: Id, ops: seq<Op>)
    requires Sound(EmptyModel(selfId), ops)
    ensures Inv(PerformAll(EmptyModel(selfId), ops))
  {
    EmptyIsInv(selfId);
    RunKeepsInv(EmptyModel(selfId), ops);
  }

  /* ---- the materialised counts against the plain join ---- */

  // The policies joining identity i to service s, read off the policy table alone.
  function Joining(m: Model, i: Id, t: PolicyType, s: Id): set<Id> {
    set p | p in m.policies && i in m.policies[p].identities && m.policies[p].data.policyType == t && s in m.policies[p].services
  }

  // The policies imposing check c on identity i: they list both, and grant something.
  function Imposing(m: Model, i: Id, c: Id): set<Id> {
    set p | p in m.policies && i in m.policies[p].identities && c in m.policies[p].checks && m.policies[p].services != {}
  }

  lemma JoinIsGranting(m: Model, i: Id)
    requires Mirrored(m.identities, m.policies) && i in m.identities
    ensures forall t, s :: Joining(m, i, t, s) == Granting(m.policies, m.identities[i].policies, t, s)
    ensures forall c :: Imposing(m, i, c) == Demanding(m.policies, m.identities[i].policies, c)
  {
  }

  // In every reachable state a tracked identity's dial and bind counts are the
  // sizes of the plain join, and it has an entry for exactly the services some
  // policy grants it.
  lemma AccessCountsExact(selfId: Id, ops: seq<Op>, m: Model, i: Id, s: Id)
    requires Reaches(selfId, ops, m)
    requires i in m.identities && m.identities[i].tracking
    ensures var dial, bind := Joining(m, i, DialPolicy, s), Joining(m, i, BindPolicy, s);
            && (s in m.identities[i].access <==> dial != {} || bind != {})
            && (s in m.identities[i].access ==>
                m.identities[i].access[s].dial == |dial| && m.identities[i].access[s].bind == |bind|)
  {
    ReachableIsInv(selfId, ops);
    JoinIsGranting(m, i);
    assert Exact(m.policies, m.identities[i]);
    assert AccessIs(m.identities[i].access, s, |Granting(m.policies, m.identities[i].policies, DialPolicy, s)|,
                    |Granting(m.policies, m.identities[i].policies, BindPolicy, s)|);
  }

  // Posture check use counts are exact for every identity, tracked or not.
  lemma CheckCountsExact(selfId: Id, ops: seq<Op>, m: Model, i: Id, c: Id)
    requires Reaches(selfId, ops, m)
    requires i in m.identities
    ensures var imposing := Imposing(m, i, c);
            && (c in m.identities[i].checks <==> imposing != {})
            && (c in m.identities[i].checks ==> m.identities[i].checks[c] == |imposing|)
  {
    ReachableIsInv(selfId, ops);
    JoinIsGranting(m, i);
    assert Exact(m.policies, m.identities[i]);
    assert UsesAre(m.identities[i].checks, c, |Demanding(m.policies, m.identities[i].policies, c)|);
  }

  // Wherever the code dereferences an access entry while moving posture
  // indices, the entry exists: for every tracked member of a policy, every
  // service of that policy.
  ghost predicate EntriesPresent(m: Model, pid: Id) {
    pid in m.policies ==>
      forall i, s :: i in m.policies[pid].identities && i in m.identities && m.identities[i].tracking && s in m.policies[pid].services
        ==> s in m.identities[i].access
  }

  lemma InvHasEntries(m: Model, pid: Id)
    requires Core(m)
    ensures EntriesPresent(m, pid)
  {
    if pid in m.policies {
      forall i, s | i in m.policies[pid].identities && i in m.identities && m.identities[i].tracking && s in m.policies[pid].services
        ensures s in m.identities[i].access
      {
        assert Exact(m.policies, m.identities[i]);
        var t := m.policies[pid].data.policyType;
        assert pid in Granting(m.policies, m.identities[i].policies, t, s);
        assert AccessIs(m.identities[i].access, s, |Granting(m.policies, m.identities[i].policies, DialPolicy, s)|,
                        |Granting(m.policies, m.identities[i].policies, BindPolicy, s)|);
      }
    }
  }
}
