// The index kept with an identity: it moves with every create and update and
// with nothing else, so comparing indices finds every change of payload but
// the one that deleting a config makes.
module IdentityVersions {
  import opened DataState
  import opened ReceiverSpec
  import opened ReceiverInvariant
  import opened ReceiverSteps
  import opened ReceiverRuns
  import opened Notifications

  /* ---- one event ---- */

  predicate Upserts(e: Event, i: Id) {
    e.IdentityEvent? && e.id == i && !e.action.Delete?
  }

  // The event deletes a config that is known to override something for i.
  predicate Clears(m: Model, e: Event, i: Id) {
    e.ConfigEvent? && e.action.Delete? && e.id in m.configs && i in m.configs[e.id].identities
  }

  // A create or update stamps the identity with its index and payload; any
  // other event leaves the index, and the payload but for a deleted config.
  predicate IdentityMoves(m: Model, n: Model, index: nat, e: Event, i: Id) {
    if Upserts(e, i) then i in n.identities && n.identities[i].index == index && n.identities[i].data == e.identity
    else
      i in n.identities ==>
        && i in m.identities && n.identities[i].index == m.identities[i].index
        && n.identities[i].data == if Clears(m, e, i) then ClearConfig(m.identities[i].data, e.id) else m.identities[i].data
  }

  // Whatever held the identities before, these payloads and indices are kept.
  ghost predicate SameVersions(im: map<Id, Identity>, jm: map<Id, Identity>) {
    forall i :: i in jm ==> i in im && jm[i].index == im[i].index && jm[i].data == im[i].data
  }

  lemma ChangedKeepVersions(im: map<Id, Identity>, p: Policy, index: nat, c: PolicyChange)
    ensures SameVersions(im, ChangedIdentities(im, p, index, c))
  {
    match c.relatedType
    case RelatedIdentity => JoiningKeepsVersions(im, Elems(c.relatedIds) * im.Keys, c.policyId, p, index, c.add);
    case RelatedService =>
      ServicesKeepVersions(im, c.policyId, p, ServicesAmended(p, index, c.relatedIds, c.add), c.relatedIds, index, c.add);
    case RelatedPostureCheck =>
    case InvalidRelatedType =>
  }

  lemma JoiningKeepsVersions(im: map<Id, Identity>, hit: set<Id>, pid: Id, p: Policy, index: nat, join: bool)
    ensures SameVersions(im, JoinEach(im, hit, pid, p, index, join))
  {
  }

  lemma ServicesKeepVersions(im: map<Id, Identity>, pid: Id, p: Policy, q: Policy, ids: seq<Id>, index: nat, add: bool)
    ensures SameVersions(im, FollowServicesEach(im, pid, p, q, ids, index, add))
  {
  }

  lemma ChangeKeepsVersions(m: Model, index: nat, c: PolicyChange)
    ensures SameVersions(m.identities, HandlePolicyChange(m, index, c).identities)
  {
    if c.policyId in m.policies {
      ChangedKeepVersions(m.identities, m.policies[c.policyId], index, c);
    }
  }

  lemma {:induction false} DetachKeepsVersions(kind: RelatedType, m: Model, index: nat, id: Id, pids: set<Id>)
    ensures SameVersions(m.identities, Fold(Detach(kind, index, id), pids, m).identities)
    decreases |pids|
  {
    if pids != {} {
      var step := Detach(kind, index, id);
      var x :| x in pids && Fold(step, pids, m) == step(x, Fold(step, pids - {x}, m));
      DetachKeepsVersions(kind, m, index, id, pids - {x});
      ChangeKeepsVersions(Fold(step, pids - {x}, m), index, PolicyChange(x, [id], kind, false));
    }
  }

  lemma DeletesKeepVersions(m: Model, index: nat, id: Id)
    ensures SameVersions(m.identities, DeleteIdentity(m, index, id).identities)
    ensures id !in DeleteIdentity(m, index, id).identities
    ensures SameVersions(m.identities, DeleteService(m, index, id).identities)
    ensures SameVersions(m.identities, DeleteCheck(m, index, id).identities)
  {
    var n := m.(configs := Relink(m.configs, id, ConfigsOf(m, id), {}));
    DetachKeepsVersions(RelatedIdentity, n, index, id, PoliciesListingIdentity(n, id));
    DetachKeepsVersions(RelatedPostureCheck, m, index, id, PoliciesListingCheck(m, id));
    if id in m.services {
      var s := m.services[id];
      var o := m.(services := m.services - {id},
                  configs := RelinkServices(m.configs, id, Elems(s.data.configs), {}),
                  names := Unname(m.names, s.data.name, id));
      DetachKeepsVersions(RelatedService, o, index, id, PoliciesListingService(m, id));
    }
  }

  lemma FlippingKeepsVersions(im: map<Id, Identity>, pid: Id, p: Policy, q: Policy, index: nat)
    ensures SameVersions(im, FlipEach(im, pid, p, q, index))
  {
  }

  lemma PoliciesKeepVersions(m: Model, index: nat, id: Id, d: PolicyData)
    ensures SameVersions(m.identities, UpsertPolicy(m, index, id, d).identities)
    ensures SameVersions(m.identities, DeletePolicy(m, index, id).identities)
  {
    if id in m.policies {
      FlippingKeepsVersions(m.identities, id, m.policies[id], NextPolicy(m.policies, index, id, d), index);
      JoiningKeepsVersions(m.identities, m.policies[id].identities, id, m.policies[id], index, false);
    }
  }

  lemma OthersKeepVersions(m: Model, index: nat, e: Event)
    requires !e.ConfigEvent? && !e.IdentityEvent?
    ensures SameVersions(m.identities, Handle(m, index, e).identities)
  {
    match e
    case ConfigTypeEvent(a, id, d) =>
    case ServiceEvent(a, id, d) => DeletesKeepVersions(m, index, id);
    case RouterEvent(a, id, d) =>
    case PolicyEvent(a, id, d) => PoliciesKeepVersions(m, index, id, d);
    case CheckEvent(a, id, d) => DeletesKeepVersions(m, index, id);
    case KeyEvent(a, id, d) =>
    case RevocationEvent(a, id, d) =>
    case PolicyChangeEvent(c) => ChangeKeepsVersions(m, index, c);
  }

  lemma ConfigsMoveIdentity(m: Model, index: nat, a: Action, id: Id, d: ConfigData, i: Id)
    ensures IdentityMoves(m, Handle(m, index, ConfigEvent(a, id, d)), index, ConfigEvent(a, id, d), i)
  {
  }

  lemma UpsertMovesIdentity(m: Model, index: nat, a: Action, id: Id, d: IdentityData, i: Id)
    requires !a.Delete?
    ensures IdentityMoves(m, UpsertIdentity(m, index, id, d), index, IdentityEvent(a, id, d), i)
  {
  }

  lemma SameVersionsMove(m: Model, n: Model, index: nat, e: Event, i: Id)
    requires SameVersions(m.identities, n.identities) && !e.ConfigEvent? && !Upserts(e, i)
    ensures IdentityMoves(m, n, index, e, i)
  {
  }

  lemma HandleMovesIdentity(m: Model, index: nat, e: Event, i: Id)
    ensures IdentityMoves(m, Handle(m, index, e), index, e, i)
  {
    if e.ConfigEvent? {
      ConfigsMoveIdentity(m, index, e.action, e.id, e.config, i);
    } else if e.IdentityEvent? && !e.action.Delete? {
      UpsertMovesIdentity(m, index, e.action, e.id, e.identity, i);
    } else if e.IdentityEvent? {
      DeletesKeepVersions(m, index, e.id);
      SameVersionsMove(m, DeleteIdentity(m, index, e.id), index, e, i);
    } else {
      OthersKeepVersions(m, index, e);
      SameVersionsMove(m, Handle(m, index, e), index, e, i);
    }
  }

  predicate Overrides(d: IdentityData, s: Id, t: Id) {
    s in d.serviceConfigs && t in d.serviceConfigs[s]
  }

  // Clearing a config takes exactly the overrides that name it, and leaves no
  // service with none.
  lemma ClearedOverrides(d: IdentityData, c: Id)
    ensures var r := ClearConfig(d, c);
            && r == d.(serviceConfigs := r.serviceConfigs)
            && (forall s :: s in r.serviceConfigs ==> r.serviceConfigs[s] != map[])
            && (forall s, t :: Overrides(r, s, t) <==> Overrides(d, s, t) && d.serviceConfigs[s][t] != c)
            && (forall s, t :: Overrides(r, s, t) ==> r.serviceConfigs[s][t] == d.serviceConfigs[s][t])
  {
    var r := ClearConfig(d, c).serviceConfigs;
    forall s, t | Overrides(d, s, t) && d.serviceConfigs[s][t] != c
      ensures s in r
    {
      assert t in WithoutConfig(d.serviceConfigs[s], c);
    }
  }

  /* ---- whole runs ---- */

  predicate Upserted(ops: seq<Op>, i: Id) {
    ops != [] && (Upserted(ops[..|ops| - 1], i) || (ops[|ops| - 1].Apply? && Upserts(ops[|ops| - 1].event, i)))
  }

  ghost predicate IndicesWithin(m: Model, b: nat) {
    forall i :: i in m.identities ==> m.identities[i].index <= b
  }

  lemma {:induction false} RunIndicesWithin(selfId: Id, ops: seq<Op>, b: nat)
    requires forall k :: 0 <= k < |ops| && ops[k].Apply? ==> ops[k].index <= b
    ensures IndicesWithin(PerformAll(EmptyModel(selfId), ops), b)
  {
    if ops != [] {
      var init, last := ops[..|ops| - 1], ops[|ops| - 1];
      RunIndicesWithin(selfId, init, b);
      if last.Apply? {
        var m := PerformAll(EmptyModel(selfId), init);
        forall i | i in Perform(m, last).identities
          ensures Perform(m, last).identities[i].index <= b
        {
          HandleMovesIdentity(m, last.index, last.event, i);
        }
      }
    }
  }

  // The payload i had at m once the configs deleted by a run that neither
  // creates nor updates it have been cleared from it.
  ghost function Cleared(m: Model, ops: seq<Op>, i: Id): IdentityData
    requires i in m.identities
  {
    if ops == [] then m.identities[i].data else
      var init, last := ops[..|ops| - 1], ops[|ops| - 1];
      if last.Apply? && Clears(PerformAll(m, init), last.event, i) then ClearConfig(Cleared(m, init, i), last.event.id)
      else Cleared(m, init, i)
  }

  ghost predicate IdentityStands(m: Model, ops: seq<Op>, i: Id, b: nat, j: Identity) {
    if Upserted(ops, i) then j.index > b
    else i in m.identities && j.index == m.identities[i].index && j.data == Cleared(m, ops, i)
  }

  ghost predicate OpMoves(m: Model, n: Model, op: Op, i: Id) {
    if op.Apply? then IdentityMoves(m, n, op.index, op.event, i) else SameVersions(m.identities, n.identities)
  }

  lemma PerformMovesIdentity(m: Model, op: Op, i: Id)
    ensures OpMoves(m, Perform(m, op), op, i)
  {
    if op.Apply? {
      HandleMovesIdentity(m, op.index, op.event, i);
    }
  }

  lemma StandsOn(m: Model, ops: seq<Op>, i: Id, b: nat, n: Model, o: Model)
    requires ops != [] && (ops[|ops| - 1].Apply? ==> ops[|ops| - 1].index > b) && n == PerformAll(m, ops[..|ops| - 1])
    requires i in n.identities ==> IdentityStands(m, ops[..|ops| - 1], i, b, n.identities[i])
    requires OpMoves(n, o, ops[|ops| - 1], i) && i in o.identities
    ensures IdentityStands(m, ops, i, b, o.identities[i])
  {
  }

  // An identity that is still there was created or updated, and its index is
  // beyond b, or it was there before and only deleted configs touched it.
  lemma {:induction false} RunMovesIdentity(m: Model, ops: seq<Op>, i: Id, b: nat)
    requires forall k :: 0 <= k < |ops| && ops[k].Apply? ==> ops[k].index > b
    requires i in PerformAll(m, ops).identities
    ensures IdentityStands(m, ops, i, b, PerformAll(m, ops).identities[i])
  {
    if ops != [] {
      var init, last := ops[..|ops| - 1], ops[|ops| - 1];
      var n := PerformAll(m, init);
      if i in n.identities {
        RunMovesIdentity(m, init, i, b);
      }
      PerformMovesIdentity(n, last, i);
      StandsOn(m, ops, i, b, n, PerformAll(m, ops));
    }
  }

  /* ---- what the passes of a subscription report ---- */

  ghost predicate Announces(ns: seq<Notice>, kind: IdentityChange) {
    exists k :: 0 <= k < |ns| && ns[k].IdentityNotice? && ns[k].kind == kind
  }

  lemma {:induction false} AboutIdentityIsTold(ns: seq<Notice>, n: Notice)
    requires n in AboutIdentity(ns)
    ensures exists k :: 0 <= k < |ns| && ns[k] == n
  {
    if n in AboutIdentity(ns[..|ns| - 1]) {
      AboutIdentityIsTold(ns[..|ns| - 1], n);
      var k :| 0 <= k < |ns| - 1 && ns[..|ns| - 1][k] == n;
      assert ns[k] == n;
    } else {
      assert ns[|ns| - 1] == n;
    }
  }

  lemma UpdateTold(before: Sub, after: Sub, ns: seq<Notice>)
    requires Reports(before, after, ns) && before.identity.Some? && after.identity.Some?
    ensures Announces(ns, IdentityUpdated) <==>
            before.identity.value.index < after.identity.value.index && before.identity.value.data != after.identity.value.data
  {
    var notice := IdentityNotice(IdentityUpdated, after.services, after.checks, map[]);
    if before.identity.value.index < after.identity.value.index && before.identity.value.data != after.identity.value.data {
      assert AboutIdentity(ns)[0] == notice;
      AboutIdentityIsTold(ns, notice);
    } else if Announces(ns, IdentityUpdated) {
      var k :| 0 <= k < |ns| && ns[k].IdentityNotice? && ns[k].kind == IdentityUpdated;
      AboutIdentityHasAll(ns, k);
      assert false;
    }
  }

  // Two passes between change sets, the second one at what `after` makes of m.
  ghost predicate TwoPasses(selfId: Id, before: seq<Op>, after: seq<Op>, i: Id, b: nat, m: Model, n: Model) {
    && (forall k :: 0 <= k < |before| && before[k].Apply? ==> before[k].index <= b)
    && (forall k :: 0 <= k < |after| && after[k].Apply? ==> after[k].index > b)
    && m == PerformAll(EmptyModel(selfId), before) && n == PerformAll(m, after)
    && i in m.identities && i in n.identities
  }

  // With the identity seen at the first pass, the second one reports an update
  // exactly when the identity was created or updated since and shows another
  // payload.
  lemma UpdateReportedIff(selfId: Id, before: seq<Op>, after: seq<Op>, i: Id, b: nat, m: Model, n: Model,
                          first: Sub, second: Sub, ns: seq<Notice>)
    requires TwoPasses(selfId, before, after, i, b, m, n)
    requires first.identity.Some? && first.identity.value.index == m.identities[i].index
    requires second.identity == Some(n.identities[i]) && Reports(first, second, ns)
    ensures Announces(ns, IdentityUpdated) <==> Upserted(after, i) && first.identity.value.data != n.identities[i].data
  {
    RunIndicesWithin(selfId, before, b);
    RunMovesIdentity(m, after, i, b);
    UpdateTold(first, second, ns);
  }

  /* ---- the object a subscription holds ---- */

  predicate Replaces(op: Op, i: Id) {
    op.Apply? && op.event.IdentityEvent? && op.event.id == i
  }

  predicate Replaced(ops: seq<Op>, i: Id) {
    ops != [] && (Replaced(ops[..|ops| - 1], i) || Replaces(ops[|ops| - 1], i))
  }

  // The subscription points at the identity object the model had at the first
  // pass. Until an event replaces that object, changes to it are seen through
  // that reference; from then on it stays as it was.
  ghost function HeldObject(m: Model, ops: seq<Op>, i: Id): Identity
    requires i in m.identities
  {
    if ops == [] then m.identities[i]
    else if Replaced(ops, i) || i !in PerformAll(m, ops).identities then HeldObject(m, ops[..|ops| - 1], i)
    else PerformAll(m, ops).identities[i]
  }

  lemma {:induction false} HeldKeepsIndex(m: Model, ops: seq<Op>, i: Id, b: nat)
    requires i in m.identities
    requires forall k :: 0 <= k < |ops| && ops[k].Apply? ==> ops[k].index > b
    ensures HeldObject(m, ops, i).index == m.identities[i].index
    ensures !Replaced(ops, i) ==> !Upserted(ops, i)
  {
    if ops != [] {
      HeldKeepsIndex(m, ops[..|ops| - 1], i, b);
      if !Replaced(ops, i) && i in PerformAll(m, ops).identities {
        RunMovesIdentity(m, ops, i, b);
      }
    }
  }

  // A deleted identity is there again only once it has been created.
  lemma {:induction false} BackOnlyWhenUpserted(m: Model, ops: seq<Op>, i: Id)
    requires i in PerformAll(m, ops).identities && Replaced(ops, i)
    ensures Upserted(ops, i)
  {
    var init, last := ops[..|ops| - 1], ops[|ops| - 1];
    if last.Apply? {
      HandleMovesIdentity(PerformAll(m, init), last.index, last.event, i);
      if last.event.IdentityEvent? && last.event.id == i && last.event.action.Delete? {
        DeletesKeepVersions(PerformAll(m, init), last.index, i);
        assert false;
      } else if !Upserts(last.event, i) {
        BackOnlyWhenUpserted(m, init, i);
      }
    } else {
      BackOnlyWhenUpserted(m, init, i);
    }
  }

  // No missed change: as the source holds it, the second pass reports an
  // update exactly when the payload it sees differs from the one it holds.
  lemma NoMissedIdentityChange(selfId: Id, before: seq<Op>, after: seq<Op>, i: Id, b: nat, m: Model, n: Model,
                               first: Sub, second: Sub, ns: seq<Notice>)
    requires TwoPasses(selfId, before, after, i, b, m, n)
    requires first.identity == Some(HeldObject(m, after, i))
    requires second.identity == Some(n.identities[i]) && Reports(first, second, ns)
    ensures Announces(ns, IdentityUpdated) <==> HeldObject(m, after, i).data != n.identities[i].data
  {
    HeldKeepsIndex(m, after, i, b);
    UpdateReportedIff(selfId, before, after, i, b, m, n, first, second, ns);
    if Replaced(after, i) {
      BackOnlyWhenUpserted(m, after, i);
    } else if after != [] {
      assert HeldObject(m, after, i) == n.identities[i];
    }
  }

  // Whoever kept the payload of the first pass is not told of a change that
  // deleting configs made. That happens exactly when the identity was neither
  // created nor updated since and one of the deleted configs was an override.
  lemma ClearingUnreportedIff(selfId: Id, before: seq<Op>, after: seq<Op>, i: Id, b: nat, m: Model, n: Model,
                              first: Sub, second: Sub, ns: seq<Notice>)
    requires TwoPasses(selfId, before, after, i, b, m, n)
    requires first.identity == Some(m.identities[i])
    requires second.identity == Some(n.identities[i]) && Reports(first, second, ns)
    ensures n.identities[i].data != m.identities[i].data && !Announces(ns, IdentityUpdated) <==>
            !Upserted(after, i) && Cleared(m, after, i) != m.identities[i].data
  {
    UpdateReportedIff(selfId, before, after, i, b, m, n, first, second, ns);
    RunMovesIdentity(m, after, i, b);
  }

  lemma ClearingStep(m: Model, c: ConfigData, d: IdentityData)
    requires d.serviceConfigs == map["s" := map["t" := "c"]] && "c" in m.configs && "i" in m.configs["c"].identities
    requires "i" in m.identities && m.identities["i"].data == d
    ensures var after := [Apply(3, ConfigEvent(Delete, "c", c))];
            "i" in PerformAll(m, after).identities && !Upserted(after, "i") && Cleared(m, after, "i") != d
  {
    OneOp(m, Apply(3, ConfigEvent(Delete, "c", c)));
    assert [Apply(3, ConfigEvent(Delete, "c", c))][..0] == [];
    assert ClearConfig(d, "c") != d by {
      ClearedOverrides(d, "c");
      assert Overrides(d, "s", "t") && !Overrides(ClearConfig(d, "c"), "s", "t");
    }
  }

  lemma TwoOps(m: Model, a: Op, b: Op)
    ensures PerformAll(m, [a, b]) == Perform(Perform(m, a), b)
  {
    OneOp(m, a);
    assert [a, b][..1] == [a];
  }

  lemma OneOp(m: Model, op: Op)
    ensures PerformAll(m, [op]) == Perform(m, op)
  {
    assert [op][..0] == [];
  }

  lemma OverrideIsLinked(c: ConfigData, d: IdentityData)
    requires d.serviceConfigs == map["s" := map["t" := "c"]]
    ensures var m := PerformAll(EmptyModel(""), [Apply(1, ConfigEvent(Create, "c", c)), Apply(2, IdentityEvent(Create, "i", d))]);
            && "c" in m.configs && "i" in m.configs["c"].identities
            && "i" in m.identities && m.identities["i"].data == d
  {
    TwoOps(EmptyModel(""), Apply(1, ConfigEvent(Create, "c", c)), Apply(2, IdentityEvent(Create, "i", d)));
    assert "c" in ReferencedConfigs(d) by {
      assert d.serviceConfigs["s"]["t"] == "c";
    }
  }

  // The shortest such run: an override, and its config is deleted.
  lemma ClearingExample(c: ConfigData, d: IdentityData)
    requires d.serviceConfigs == map["s" := map["t" := "c"]]
    ensures var before := [Apply(1, ConfigEvent(Create, "c", c)), Apply(2, IdentityEvent(Create, "i", d))];
            var after := [Apply(3, ConfigEvent(Delete, "c", c))];
            var m := PerformAll(EmptyModel(""), before);
            && TwoPasses("", before, after, "i", 2, m, PerformAll(m, after))
            && !Upserted(after, "i") && Cleared(m, after, "i") != m.identities["i"].data
  {
    OverrideIsLinked(c, d);
    ClearingStep(PerformAll(EmptyModel(""), [Apply(1, ConfigEvent(Create, "c", c)), Apply(2, IdentityEvent(Create, "i", d))]), c, d);
  }
}
