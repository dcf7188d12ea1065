// The index kept with a service or a posture check is a version number: while
// it stays the same, so does the payload.
module ServiceVersions {
  import opened DataState
  import opened ReceiverSpec
  import opened ReceiverInvariant
  import opened ReceiverSteps
  import opened ReceiverRuns
  import opened ServiceLists
  import opened Notifications

  /* ---- one event ---- */

  // Either the event stamped the service with its index, or payload and index
  // are as they were.
  predicate ServiceMoves(ss: map<Id, Service>, tt: map<Id, Service>, index: nat, s: Id) {
    s in tt ==> tt[s].index == index || (s in ss && tt[s].index == ss[s].index && tt[s].data == ss[s].data)
  }

  predicate CheckMoves(cs: map<Id, Check>, ds: map<Id, Check>, index: nat, c: Id) {
    c in ds ==> ds[c].index == index || (c in cs && ds[c].index == cs[c].index && ds[c].data == cs[c].data)
  }

  ghost predicate ServicesMove(ss: map<Id, Service>, tt: map<Id, Service>, index: nat) {
    forall s :: ServiceMoves(ss, tt, index, s)
  }

  ghost predicate ChecksMove(cs: map<Id, Check>, ds: map<Id, Check>, index: nat) {
    forall c :: CheckMoves(cs, ds, index, c)
  }

  ghost predicate VersionsMove(m: Model, n: Model, index: nat) {
    ServicesMove(m.services, n.services, index) && ChecksMove(m.checks, n.checks, index)
  }

  predicate SameEntities(m: Model, n: Model) {
    n.services == m.services && n.checks == m.checks
  }

  lemma SameMoves(m: Model, n: Model, index: nat)
    requires SameEntities(m, n)
    ensures VersionsMove(m, n, index)
  {
  }

  lemma RefreshMoves(m: Model, n: Model, hit: set<Id>, index: nat)
    requires n.services == RefreshServices(m.services, hit, index) && n.checks == m.checks
    ensures VersionsMove(m, n, index)
  {
  }

  lemma SetMoves(ss: map<Id, Service>, cs: map<Id, Check>, id: Id, s: Service, c: Check, index: nat)
    requires s.index == c.index == index
    ensures ServicesMove(ss, ss, index) && ServicesMove(ss, ss[id := s], index)
    ensures ChecksMove(cs, cs, index) && ChecksMove(cs, cs[id := c], index)
  {
  }

  lemma DropMoves(m: Model, n: Model, id: Id, index: nat)
    requires n.services == m.services || n.services == m.services - {id}
    requires n.checks == m.checks || n.checks == m.checks - {id}
    ensures VersionsMove(m, n, index)
  {
  }

  lemma DetachMoves(kind: RelatedType, m: Model, index: nat, id: Id, pids: set<Id>)
    requires kind.RelatedIdentity? ==> id in m.identities
    requires id !in m.services || !kind.RelatedService?
    ensures var n := Fold(Detach(kind, index, id), pids, m);
            && n.services == m.services
            && n.checks - {id} == m.checks - {id}
            && (!kind.RelatedPostureCheck? ==> n.checks == m.checks)
  {
    DetachAll(kind, m, index, id, pids);
    SameTables(m, Fold(Detach(kind, index, id), pids, m), id);
  }

  lemma DeleteIdentityMovesNothing(m: Model, index: nat, id: Id)
    ensures var n := DeleteIdentity(m, index, id); n.services == m.services && n.checks == m.checks
  {
    var n := m.(configs := Relink(m.configs, id, ConfigsOf(m, id), {}));
    if id in m.identities {
      DetachMoves(RelatedIdentity, n, index, id, PoliciesListingIdentity(n, id));
    }
  }

  lemma DeleteServiceMovesNothing(m: Model, index: nat, id: Id)
    ensures var n := DeleteService(m, index, id); n.services == m.services - {id} && n.checks == m.checks
  {
    if id in m.services {
      var s := m.services[id];
      var n := m.(services := m.services - {id},
                  configs := RelinkServices(m.configs, id, Elems(s.data.configs), {}),
                  names := Unname(m.names, s.data.name, id));
      DetachMoves(RelatedService, n, index, id, PoliciesListingService(m, id));
    }
  }

  lemma ChangeMovesNothing(m: Model, index: nat, c: PolicyChange)
    ensures VersionsMove(m, HandlePolicyChange(m, index, c), index)
  {
    LinkMoves(m.services, m.checks, Elems(c.relatedIds), c.policyId, c.add, index);
    SameMoves(m, m, index);
  }

  lemma LinkMoves(ss: map<Id, Service>, cs: map<Id, Check>, ids: set<Id>, pid: Id, add: bool, index: nat)
    ensures ServicesMove(ss, LinkServices(ss, ids, pid, add), index)
    ensures ChecksMove(cs, LinkChecks(cs, ids, pid, add), index)
  {
  }

  lemma ConfigsMoveVersions(m: Model, index: nat, a: Action, id: Id, d: ConfigData, t: ConfigTypeData)
    ensures VersionsMove(m, HandleConfigType(m, index, a, id, t), index)
    ensures VersionsMove(m, DeleteConfig(m, index, id), index)
    ensures VersionsMove(m, UpsertConfig(m, index, id, d), index)
  {
    RefreshMoves(m, HandleConfigType(m, index, a, id, t), if a.Delete? then {} else ServicesOfType(m, id), index);
    RefreshMoves(m, DeleteConfig(m, index, id), ServicesUsing(m.configs, id), index);
    RefreshMoves(m, UpsertConfig(m, index, id, d), ServicesChangedBy(m.configs, id, d), index);
  }

  lemma DeletesMoveVersions(m: Model, index: nat, id: Id)
    ensures VersionsMove(m, DeleteIdentity(m, index, id), index)
    ensures VersionsMove(m, DeleteService(m, index, id), index)
    ensures VersionsMove(m, DeleteCheck(m, index, id), index)
  {
    DeleteIdentityMovesNothing(m, index, id);
    DropMoves(m, DeleteIdentity(m, index, id), id, index);
    DeleteServiceMovesNothing(m, index, id);
    DropMoves(m, DeleteService(m, index, id), id, index);
    DetachMoves(RelatedPostureCheck, m, index, id, PoliciesListingCheck(m, id));
    DropMoves(m, DeleteCheck(m, index, id), id, index);
  }

  lemma UpsertsMoveVersions(m: Model, index: nat, id: Id, d: ServiceData, k: CheckData)
    ensures VersionsMove(m, UpsertService(m, index, id, d), index)
    ensures VersionsMove(m, UpsertCheck(m, index, id, k), index)
  {
    SetMoves(m.services, m.checks, id, NextService(m.services, index, id, d), Check(k, PoliciesOfCheck(m.checks, id), index), index);
  }

  lemma OthersMoveNothing(m: Model, index: nat, e: Event)
    requires e.RouterEvent? || e.PolicyEvent? || e.KeyEvent? || e.RevocationEvent? || (e.IdentityEvent? && !e.action.Delete?)
    ensures SameEntities(m, Handle(m, index, e))
  {
    match e
    case RouterEvent(a, id, d) => assert SameEntities(m, HandleRouter(m, a, id, d));
    case PolicyEvent(a, id, d) => assert SameEntities(m, UpsertPolicy(m, index, id, d)) && SameEntities(m, DeletePolicy(m, index, id));
    case IdentityEvent(a, id, d) => assert SameEntities(m, UpsertIdentity(m, index, id, d));
    case KeyEvent(a, id, d) =>
    case RevocationEvent(a, id, d) =>
  }

  lemma HandleMovesVersions(m: Model, index: nat, e: Event)
    ensures VersionsMove(m, Handle(m, index, e), index)
  {
    match e
    case ConfigTypeEvent(a, id, d) => ConfigsMoveVersions(m, index, a, id, ConfigData("", "", ""), d);
    case ConfigEvent(a, id, d) => ConfigsMoveVersions(m, index, a, id, d, ConfigTypeData("", ""));
    case IdentityEvent(a, id, d) =>
      if a.Delete? {
        DeletesMoveVersions(m, index, id);
      } else {
        OthersMoveNothing(m, index, e);
        SameMoves(m, Handle(m, index, e), index);
      }
    case ServiceEvent(a, id, d) =>
      if a.Delete? { DeletesMoveVersions(m, index, id); } else { UpsertsMoveVersions(m, index, id, d, CheckData("", "", "")); }
    case CheckEvent(a, id, d) =>
      if a.Delete? { DeletesMoveVersions(m, index, id); } else { UpsertsMoveVersions(m, index, id, ServiceData("", false, []), d); }
    case PolicyChangeEvent(c) => ChangeMovesNothing(m, index, c);
    case _ =>
      OthersMoveNothing(m, index, e);
      SameMoves(m, Handle(m, index, e), index);
  }

  lemma TrackingMovesNothing(m: Model, op: Op)
    requires !op.Apply?
    ensures Perform(m, op).services == m.services && Perform(m, op).checks == m.checks
  {
  }

  /* ---- whole runs ---- */

  // No version is beyond b.
  ghost predicate VersionsWithin(m: Model, b: nat) {
    && (forall s :: s in m.services ==> m.services[s].index <= b)
    && (forall c :: c in m.checks ==> m.checks[c].index <= b)
  }

  lemma {:induction false} RunVersionsWithin(selfId: Id, ops: seq<Op>, b: nat)
    requires forall k :: 0 <= k < |ops| && ops[k].Apply? ==> ops[k].index <= b
    ensures VersionsWithin(PerformAll(EmptyModel(selfId), ops), b)
  {
    if ops != [] {
      var init, last := ops[..|ops| - 1], ops[|ops| - 1];
      var m := PerformAll(EmptyModel(selfId), init);
      RunVersionsWithin(selfId, init, b);
      if last.Apply? {
        HandleMovesVersions(m, last.index, last.event);
        StepWithin(m, Perform(m, last), last.index, b);
      } else {
        TrackingMovesNothing(m, last);
      }
    }
  }

  lemma StepWithin(m: Model, n: Model, index: nat, b: nat)
    requires VersionsMove(m, n, index) && VersionsWithin(m, b) && index <= b
    ensures VersionsWithin(n, b)
  {
    forall s | s in n.services
      ensures n.services[s].index <= b
    {
      assert ServiceMoves(m.services, n.services, index, s);
    }
    forall c | c in n.checks
      ensures n.checks[c].index <= b
    {
      assert CheckMoves(m.checks, n.checks, index, c);
    }
  }

  // What still shows a version up to b is what was there then.
  ghost predicate OldVersionsStand(m: Model, n: Model, b: nat) {
    && (forall s :: s in n.services && n.services[s].index <= b ==>
          s in m.services && n.services[s].index == m.services[s].index && n.services[s].data == m.services[s].data)
    && (forall c :: c in n.checks && n.checks[c].index <= b ==>
          c in m.checks && n.checks[c].index == m.checks[c].index && n.checks[c].data == m.checks[c].data)
  }

  lemma StepLetsStand(m: Model, n: Model, o: Model, index: nat, b: nat)
    requires OldVersionsStand(m, n, b) && VersionsMove(n, o, index) && index > b
    ensures OldVersionsStand(m, o, b)
  {
    forall s | s in o.services && o.services[s].index <= b
      ensures s in m.services && o.services[s].index == m.services[s].index && o.services[s].data == m.services[s].data
    {
      assert ServiceMoves(n.services, o.services, index, s);
    }
    forall c | c in o.checks && o.checks[c].index <= b
      ensures c in m.checks && o.checks[c].index == m.checks[c].index && o.checks[c].data == m.checks[c].data
    {
      assert CheckMoves(n.checks, o.checks, index, c);
    }
  }

  lemma {:induction false} RunLetsStand(m: Model, ops: seq<Op>, b: nat)
    requires forall k :: 0 <= k < |ops| && ops[k].Apply? ==> ops[k].index > b
    ensures OldVersionsStand(m, PerformAll(m, ops), b)
  {
    if ops != [] {
      var init, last := ops[..|ops| - 1], ops[|ops| - 1];
      RunLetsStand(m, init, b);
      var n := PerformAll(m, init);
      if last.Apply? {
        HandleMovesVersions(n, last.index, last.event);
        StepLetsStand(m, n, Perform(n, last), last.index, b);
      } else {
        TrackingMovesNothing(n, last);
      }
    }
  }

  /* ---- what subscriptions rely on ---- */

  // A list that takes its services from the model.
  ghost predicate ListsFrom(m: Model, services: map<Id, IdentityService>) {
    forall s :: s in services ==> s in m.services && services[s].service == m.services[s]
  }

  lemma BothListsTakeTheirs(m: Model, i: Identity, resolve: Resolve, services: map<Id, IdentityService>, checks: map<Id, Check>)
    ensures ListsFrom(m, FastServices(m, i, resolve))
    ensures PlainList(m, i, resolve, services, checks) ==> ListsFrom(m, services)
  {
    if PlainList(m, i, resolve, services, checks) {
      forall s | s in services
        ensures s in m.services && services[s].service == m.services[s]
      {
        assert Entry(m, resolve, i.policies, services, s);
      }
    }
  }

  // Two lists taken at a boundary b and after it show one version of a service
  // per index, and two sets of checks one version of a check per index: a
  // comparison by index misses nothing.
  lemma OneVersionPerIndex(selfId: Id, before: seq<Op>, after: seq<Op>, b: nat,
                           was: map<Id, IdentityService>, now: map<Id, IdentityService>)
    requires forall k :: 0 <= k < |before| && before[k].Apply? ==> before[k].index <= b
    requires forall k :: 0 <= k < |after| && after[k].Apply? ==> after[k].index > b
    requires var m := PerformAll(EmptyModel(selfId), before);
             ListsFrom(m, was) && ListsFrom(PerformAll(m, after), now)
    ensures OneVersion(was, now)
    ensures var m := PerformAll(EmptyModel(selfId), before);
            var n := PerformAll(m, after);
            forall c :: c in m.checks && c in n.checks && m.checks[c].index == n.checks[c].index ==> m.checks[c].data == n.checks[c].data
  {
    RunVersionsWithin(selfId, before, b);
    RunLetsStand(PerformAll(EmptyModel(selfId), before), after, b);
  }

  /* ---- the mirror of a run ---- */

  // A view a subscription can have of m: none, or one of the two lists.
  ghost predicate Looks(m: Model, sub: Sub) {
    if sub.identity.None? then sub.services == map[]
    else exists resolve: Resolve :: LooksWith(m, sub, resolve)
  }

  ghost predicate LooksWith(m: Model, sub: Sub, resolve: Resolve)
    requires sub.identity.Some?
  {
    || sub.services == FastServices(m, sub.identity.value, resolve)
    || PlainList(m, sub.identity.value, resolve, sub.services, sub.checks)
  }

  lemma LooksTakeTheirs(m: Model, sub: Sub)
    requires Looks(m, sub)
    ensures ListsFrom(m, sub.services)
  {
    if sub.identity.Some? {
      var resolve: Resolve :| LooksWith(m, sub, resolve);
      BothListsTakeTheirs(m, sub.identity.value, resolve, sub.services, sub.checks);
    }
  }

  // Everything before the cut is applied at or below b, everything after it above.
  ghost predicate Splits(ops: seq<Op>, cut: nat, b: nat) {
    forall k :: 0 <= k < |ops| && ops[k].Apply? ==> if k < cut then ops[k].index <= b else ops[k].index > b
  }

  // The passes of a subscription over one run: each looks at the state at its
  // cut, the cuts lie between change sets, and the notices tell the difference.
  ghost predicate PassesOver(selfId: Id, ops: seq<Op>, cuts: seq<nat>, first: Sub, passes: seq<Pass>) {
    && |cuts| == |passes| + 1
    && cuts[|passes|] <= |ops|
    && Looks(PerformAll(EmptyModel(selfId), ops[..cuts[|passes|]]), LastView(first, passes))
    && (passes != [] ==>
          var n := |passes| - 1;
          && PassesOver(selfId, ops, cuts[..n + 1], first, passes[..n])
          && cuts[n] <= cuts[n + 1] && (exists b: nat :: Splits(ops, cuts[n], b))
          && Reports(LastView(first, passes[..n]), passes[n].after, passes[n].notices))
  }

  lemma {:induction false} PerformConcat(m: Model, a: seq<Op>, b: seq<Op>)
    ensures PerformAll(m, a + b) == PerformAll(PerformAll(m, a), b)
    decreases |b|
  {
    if b == [] {
      assert a + b == a;
    } else {
      PerformConcat(m, a, b[..|b| - 1]);
      assert (a + b)[..|a + b| - 1] == a + b[..|b| - 1];
    }
  }

  lemma SplitSlices(ops: seq<Op>, cut: nat, next: nat, b: nat)
    requires cut <= next <= |ops| && Splits(ops, cut, b)
    ensures ops[..cut] + ops[cut..next] == ops[..next]
    ensures forall k :: 0 <= k < cut && ops[..cut][k].Apply? ==> ops[..cut][k].index <= b
    ensures forall k :: 0 <= k < next - cut && ops[cut..next][k].Apply? ==> ops[cut..next][k].index > b
  {
    assert forall k :: 0 <= k < next - cut ==> ops[cut..next][k] == ops[cut + k];
  }

  lemma LaterLookHasOneVersion(selfId: Id, ops: seq<Op>, cut: nat, next: nat, b: nat, was: Sub, now: Sub)
    requires cut <= next <= |ops| && Splits(ops, cut, b)
    requires Looks(PerformAll(EmptyModel(selfId), ops[..cut]), was) && Looks(PerformAll(EmptyModel(selfId), ops[..next]), now)
    ensures OneVersion(was.services, now.services)
  {
    var before, after := ops[..cut], ops[cut..next];
    var m := PerformAll(EmptyModel(selfId), before);
    SplitSlices(ops, cut, next, b);
    PerformConcat(EmptyModel(selfId), before, after);
    LooksTakeTheirs(m, was);
    LooksTakeTheirs(PerformAll(m, after), now);
    OneVersionPerIndex(selfId, before, after, b, was.services, now.services);
  }

  lemma {:induction false} RunIsLifetime(selfId: Id, ops: seq<Op>, cuts: seq<nat>, first: Sub, passes: seq<Pass>)
    requires PassesOver(selfId, ops, cuts, first, passes)
    ensures Lifetime(first, passes)
  {
    if passes != [] {
      var n := |passes| - 1;
      RunIsLifetime(selfId, ops, cuts[..n + 1], first, passes[..n]);
      var b: nat :| Splits(ops, cuts[n], b);
      LaterLookHasOneVersion(selfId, ops, cuts[n], cuts[n + 1], b, LastView(first, passes[..n]), passes[n].after);
    }
  }

  // A listener that starts from a subscription's first view and applies every
  // notice of its passes over a run, taken between change sets, always holds
  // the services the subscription holds.
  lemma MirrorFollowsRun(policies: bool, selfId: Id, ops: seq<Op>, cuts: seq<nat>, first: Sub, passes: seq<Pass>)
    requires PassesOver(selfId, ops, cuts, first, passes)
    ensures Mirrors(policies, Mirror(policies, first.services, Delivered(passes)), LastView(first, passes).services)
  {
    RunIsLifetime(selfId, ops, cuts, first, passes);
    MirrorStaysTrue(policies, first, passes);
  }
}
