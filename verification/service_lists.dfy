// The two ways of listing what an identity may use: from the materialised
// access counts, and from the plain join over its policies.
module ServiceLists {
  import opened DataState
  import opened ReceiverSpec
  import opened ReceiverCounts
  import opened ReceiverInvariant
  import opened ReceiverRuns

  datatype IdentityConfig = IdentityConfig(typeId: Id, typeName: string, dataJson: string)

  // A service as one identity sees it.
  datatype IdentityService = IdentityService(
    service: Service,
    configs: map<string, IdentityConfig>,
    dialAllowed: bool,
    bindAllowed: bool,
    dialIndex: nat,
    bindIndex: nat)

  // How the configs of a service resolve for the identity; both builders ask
  // the same way.
  type Resolve = Id -> map<string, IdentityConfig>

  /* ---- from the materialised counts ---- */

  function FastService(m: Model, s: Id, a: Access, resolve: Resolve): IdentityService
    requires s in m.services
  {
    IdentityService(m.services[s], resolve(s), a.dial > 0, a.bind > 0, a.dialIndex, a.bindIndex)
  }

  function FastServices(m: Model, i: Identity, resolve: Resolve): map<Id, IdentityService> {
    map s | s in i.access && s in m.services :: FastService(m, s, i.access[s], resolve)
  }

  function FastChecks(m: Model, i: Identity): map<Id, Check> {
    map c | c in i.checks && c in m.checks :: m.checks[c]
  }

  method ListAccess(m: Model, i: Identity, resolve: Resolve) returns (services: map<Id, IdentityService>)
    ensures services == FastServices(m, i, resolve)
  {
    services := map[];
    var todo := i.access.Keys;
    while todo != {}
      invariant todo <= i.access.Keys
      invariant services == map s | s in i.access && s in m.services && s !in todo :: FastService(m, s, i.access[s], resolve)
      decreases |todo|
    {
      var s :| s in todo;
      if s in m.services {
        services := services[s := FastService(m, s, i.access[s], resolve)];
      }
      todo := todo - {s};
    }
  }

  method ListChecks(m: Model, i: Identity) returns (checks: map<Id, Check>)
    ensures checks == FastChecks(m, i)
  {
    checks := map[];
    var todo := i.checks.Keys;
    while todo != {}
      invariant todo <= i.checks.Keys
      invariant checks == map c | c in i.checks && c in m.checks && c !in todo :: m.checks[c]
      decreases |todo|
    {
      var c :| c in todo;
      if c in m.checks {
        checks := checks[c := m.checks[c]];
      }
      todo := todo - {c};
    }
  }

  method BuildServiceListUsingDenormalizedData(m: Model, i: Identity, resolve: Resolve)
    returns (services: map<Id, IdentityService>, checks: map<Id, Check>)
    ensures services == FastServices(m, i, resolve) && checks == FastChecks(m, i)
  {
    services := ListAccess(m, i, resolve);
    checks := ListChecks(m, i);
  }

  /* ---- from the plain join ---- */

  // x is the latest posture index among the type t policies that offer s.
  ghost predicate IsLatest(ps: map<Id, Policy>, mine: set<Id>, t: PolicyType, s: Id, x: nat) {
    && (forall p :: p in mine && Grants(ps, p, t, s) ==> ps[p].checksIndex <= x)
    && (x == 0 || exists p :: p in mine && Grants(ps, p, t, s) && ps[p].checksIndex == x)
  }

  ghost predicate Allowed(ps: map<Id, Policy>, mine: set<Id>, t: PolicyType, s: Id) {
    exists p :: p in mine && Grants(ps, p, t, s)
  }

  ghost predicate Joined(ps: map<Id, Policy>, mine: set<Id>, s: Id) {
    exists p :: p in mine && p in ps && s in ps[p].services
  }

  // The entry for s is right once the policies in mine have been visited.
  ghost predicate Entry(m: Model, resolve: Resolve, mine: set<Id>, services: map<Id, IdentityService>, s: Id) {
    && (s in services <==> s in m.services && Joined(m.policies, mine, s))
    && (s in services ==>
         var e := services[s];
         && e.service == m.services[s] && e.configs == resolve(s)
         && (e.dialAllowed <==> Allowed(m.policies, mine, DialPolicy, s))
         && (e.bindAllowed <==> Allowed(m.policies, mine, BindPolicy, s))
         && IsLatest(m.policies, mine, DialPolicy, s, e.dialIndex)
         && IsLatest(m.policies, mine, BindPolicy, s, e.bindIndex))
  }

  ghost predicate Demanded(ps: map<Id, Policy>, mine: set<Id>, c: Id) {
    exists p :: p in mine && p in ps && ps[p].services != {} && c in ps[p].checks
  }

  ghost predicate PlainList(m: Model, i: Identity, resolve: Resolve, services: map<Id, IdentityService>, checks: map<Id, Check>) {
    && (forall s :: Entry(m, resolve, i.policies, services, s))
    && (forall c :: c in checks <==> c in m.checks && Demanded(m.policies, i.policies, c))
    && (forall c :: c in checks ==> checks[c] == m.checks[c])
  }

  function WithPolicy(e: IdentityService, p: Policy): IdentityService {
    match p.data.policyType
    case DialPolicy => e.(dialAllowed := true, dialIndex := Max(e.dialIndex, p.checksIndex))
    case BindPolicy => e.(bindAllowed := true, bindIndex := Max(e.bindIndex, p.checksIndex))
    case InvalidPolicy => e
  }

  lemma LatestGrows(ps: map<Id, Policy>, mine: set<Id>, t: PolicyType, s: Id, x: nat, p: Id)
    requires IsLatest(ps, mine, t, s, x)
    ensures IsLatest(ps, mine + {p}, t, s, if Grants(ps, p, t, s) then Max(x, ps[p].checksIndex) else x)
    ensures Allowed(ps, mine + {p}, t, s) <==> Allowed(ps, mine, t, s) || Grants(ps, p, t, s)
  {
    if Grants(ps, p, t, s) && ps[p].checksIndex > x {
      assert p in mine + {p};
    } else if x != 0 {
      var q :| q in mine && Grants(ps, q, t, s) && ps[q].checksIndex == x;
      assert q in mine + {p};
    }
    assert Grants(ps, p, t, s) ==> p in mine + {p};
    if Allowed(ps, mine, t, s) {
      var q :| q in mine && Grants(ps, q, t, s);
      assert q in mine + {p};
    }
  }

  lemma JoinedGrows(ps: map<Id, Policy>, mine: set<Id>, s: Id, p: Id)
    ensures Joined(ps, mine + {p}, s) <==> Joined(ps, mine, s) || (p in ps && s in ps[p].services)
  {
    if Joined(ps, mine, s) {
      var q :| q in mine && q in ps && s in ps[q].services;
      assert q in mine + {p};
    }
    assert p in mine + {p};
  }

  lemma EntryGrows(m: Model, resolve: Resolve, mine: set<Id>, before: map<Id, IdentityService>, after: map<Id, IdentityService>, s: Id, p: Id)
    requires Entry(m, resolve, mine, before, s)
    requires if p in m.policies && s in m.policies[p].services && s in m.services
             then s in after && after[s] == WithPolicy(Current(m, resolve, before, s), m.policies[p])
             else (s in after <==> s in before) && (s in after ==> after[s] == before[s])
    ensures Entry(m, resolve, mine + {p}, after, s)
  {
    JoinedGrows(m.policies, mine, s, p);
    if s in m.services {
      var e := Current(m, resolve, before, s);
      if s !in before {
        NotJoined(m, mine, s);
      }
      LatestGrows(m.policies, mine, DialPolicy, s, e.dialIndex, p);
      LatestGrows(m.policies, mine, BindPolicy, s, e.bindIndex, p);
    }
  }

  lemma NotJoined(m: Model, mine: set<Id>, s: Id)
    requires !Joined(m.policies, mine, s)
    ensures forall t :: !Allowed(m.policies, mine, t, s) && IsLatest(m.policies, mine, t, s, 0)
  {
  }

  function Current(m: Model, resolve: Resolve, services: map<Id, IdentityService>, s: Id): IdentityService
    requires s in m.services
  {
    if s in services then services[s] else IdentityService(m.services[s], resolve(s), false, false, 0, 0)
  }

  method ListPolicyServices(m: Model, resolve: Resolve, before: map<Id, IdentityService>, pid: Id, ghost mine: set<Id>)
    returns (services: map<Id, IdentityService>)
    requires forall s :: Entry(m, resolve, mine, before, s)
    ensures forall s :: Entry(m, resolve, mine + {pid}, services, s)
  {
    services := before;
    if pid in m.policies {
      var p := m.policies[pid];
      var todo := p.services;
      while todo != {}
        invariant todo <= p.services
        invariant forall s :: s in p.services && s !in todo && s in m.services ==>
          s in services && services[s] == WithPolicy(Current(m, resolve, before, s), p)
        invariant forall s :: s !in p.services || s in todo || s !in m.services ==>
          (s in services <==> s in before) && (s in services ==> services[s] == before[s])
        decreases |todo|
      {
        var s :| s in todo;
        if s in m.services {
          services := services[s := WithPolicy(Current(m, resolve, services, s), p)];
        }
        todo := todo - {s};
      }
    }
    forall s
      ensures Entry(m, resolve, mine + {pid}, services, s)
    {
      EntryGrows(m, resolve, mine, before, services, s, pid);
    }
  }

  ghost predicate ChecksSoFar(m: Model, mine: set<Id>, checks: map<Id, Check>) {
    && (forall c :: c in checks <==> c in m.checks && Demanded(m.policies, mine, c))
    && (forall c :: c in checks ==> checks[c] == m.checks[c])
  }

  lemma DemandedGrows(ps: map<Id, Policy>, mine: set<Id>, c: Id, p: Id)
    ensures Demanded(ps, mine + {p}, c) <==> Demanded(ps, mine, c) || (p in ps && ps[p].services != {} && c in ps[p].checks)
  {
    if Demanded(ps, mine, c) {
      var q :| q in mine && q in ps && ps[q].services != {} && c in ps[q].checks;
      assert q in mine + {p};
    }
    assert p in mine + {p};
  }

  method LoadServicePostureChecks(m: Model, before: map<Id, Check>, pid: Id, ghost mine: set<Id>) returns (checks: map<Id, Check>)
    requires ChecksSoFar(m, mine, before)
    ensures ChecksSoFar(m, mine + {pid}, checks)
  {
    checks := before;
    if pid in m.policies && m.policies[pid].services != {} {
      var todo := m.policies[pid].checks;
      while todo != {}
        invariant todo <= m.policies[pid].checks
        invariant forall c :: c in checks <==> c in before || (c in m.policies[pid].checks && c !in todo && c in m.checks)
        invariant forall c :: c in checks ==> checks[c] == m.checks[c]
        decreases |todo|
      {
        var c :| c in todo;
        if c !in checks && c in m.checks {
          checks := checks[c := m.checks[c]];
        }
        todo := todo - {c};
      }
    }
    forall c
      ensures c in checks <==> c in m.checks && Demanded(m.policies, mine + {pid}, c)
    {
      DemandedGrows(m.policies, mine, c, pid);
    }
  }

  method BuildServiceList(m: Model, i: Identity, resolve: Resolve)
    returns (services: map<Id, IdentityService>, checks: map<Id, Check>)
    ensures PlainList(m, i, resolve, services, checks)
  {
    services, checks := map[], map[];
    var todo := i.policies;
    assert i.policies - todo == {};
    while todo != {}
      invariant todo <= i.policies
      invariant forall s :: Entry(m, resolve, i.policies - todo, services, s)
      invariant ChecksSoFar(m, i.policies - todo, checks)
      decreases |todo|
    {
      var p :| p in todo;
      ghost var done := i.policies - todo;
      assert i.policies - (todo - {p}) == done + {p};
      services := ListPolicyServices(m, resolve, services, p, done);
      checks := LoadServicePostureChecks(m, checks, p, done);
      todo := todo - {p};
    }
    assert i.policies - todo == i.policies;
  }

  /* ---- the fast list refines the plain one ---- */

  lemma CountsShowAccess(ps: map<Id, Policy>, i: Identity, t: PolicyType, s: Id)
    requires !t.InvalidPolicy?
    ensures |Granting(ps, i.policies, t, s)| > 0 <==> Allowed(ps, i.policies, t, s)
  {
    var g := Granting(ps, i.policies, t, s);
    if Allowed(ps, i.policies, t, s) {
      var p :| p in i.policies && Grants(ps, p, t, s);
      assert p in g;
    }
    if g != {} {
      var p :| p in g;
      assert Grants(ps, p, t, s);
    }
  }

  lemma AllowedIsJoined(m: Model, i: Identity, s: Id)
    requires ValidTypes(m.policies)
    ensures Joined(m.policies, i.policies, s) <==>
            Allowed(m.policies, i.policies, DialPolicy, s) || Allowed(m.policies, i.policies, BindPolicy, s)
  {
    if Joined(m.policies, i.policies, s) {
      var p :| p in i.policies && p in m.policies && s in m.policies[p].services;
      assert Grants(m.policies, p, m.policies[p].data.policyType, s);
    }
  }

  // For a tracked identity both lists name the same services with the same
  // configs and the same dial and bind permissions, and the same checks.
  lemma FastListRefinesPlain(selfId: Id, ops: seq<Op>, m: Model, id: Id, resolve: Resolve, services: map<Id, IdentityService>, checks: map<Id, Check>)
    requires Reaches(selfId, ops, m) && id in m.identities && m.identities[id].tracking
    requires PlainList(m, m.identities[id], resolve, services, checks)
    ensures var fast := FastServices(m, m.identities[id], resolve);
            && fast.Keys == services.Keys
            && (forall s :: s in fast ==> fast[s].(dialIndex := 0, bindIndex := 0) == services[s].(dialIndex := 0, bindIndex := 0))
            && FastChecks(m, m.identities[id]) == checks
  {
    ReachableIsInv(selfId, ops);
    var i := m.identities[id];
    assert Exact(m.policies, i);
    forall s
      ensures s in FastServices(m, i, resolve) <==> s in services
      ensures s in services ==> FastServices(m, i, resolve)[s].(dialIndex := 0, bindIndex := 0) == services[s].(dialIndex := 0, bindIndex := 0)
    {
      SameEntry(m, i, resolve, services, s);
    }
    forall c
      ensures c in FastChecks(m, i) <==> c in checks
    {
      SameCheck(m, i, c);
    }
  }

  lemma SameEntry(m: Model, i: Identity, resolve: Resolve, services: map<Id, IdentityService>, s: Id)
    requires ValidTypes(m.policies) && Exact(m.policies, i) && i.tracking && Entry(m, resolve, i.policies, services, s)
    ensures s in FastServices(m, i, resolve) <==> s in services
    ensures s in services ==> FastServices(m, i, resolve)[s].(dialIndex := 0, bindIndex := 0) == services[s].(dialIndex := 0, bindIndex := 0)
  {
    CountsShowAccess(m.policies, i, DialPolicy, s);
    CountsShowAccess(m.policies, i, BindPolicy, s);
    AllowedIsJoined(m, i, s);
    assert AccessIs(i.access, s, |Granting(m.policies, i.policies, DialPolicy, s)|, |Granting(m.policies, i.policies, BindPolicy, s)|);
  }

  lemma SameCheck(m: Model, i: Identity, c: Id)
    requires Exact(m.policies, i)
    ensures c in i.checks <==> Demanded(m.policies, i.policies, c)
  {
    var d := Demanding(m.policies, i.policies, c);
    assert UsesAre(i.checks, c, |d|);
    if Demanded(m.policies, i.policies, c) {
      var p :| p in i.policies && p in m.policies && m.policies[p].services != {} && c in m.policies[p].checks;
      assert p in d;
    }
    if d != {} {
      var p :| p in d;
      assert Demanded(m.policies, i.policies, c);
    }
  }
}
