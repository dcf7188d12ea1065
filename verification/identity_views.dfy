// What a subscription shows of one identity: its payload, the services it may
// use with their resolved configs, and its posture checks. References from
// services and checks back to policies are not part of it.
module IdentityViews {
  import opened DataState
  import opened ReceiverSpec
  import opened ReceiverCounts
  import opened ReceiverInvariant
  import opened ServiceLists

  // A config resolves only while its type is known.
  function Loaded(types: map<Id, ConfigType>, configs: map<Id, ConfigData>): map<Id, IdentityConfig> {
    map c | c in configs && configs[c].typeId in types ::
      IdentityConfig(configs[c].typeId, types[configs[c].typeId].data.name, configs[c].dataJson)
  }

  function LoadedConfigs(m: Model): map<Id, IdentityConfig> {
    Loaded(m.configTypes, ConfigDatas(m.configs))
  }

  // The configs that decide how service s resolves: its own and the overrides.
  function Uses(d: IdentityData, s: Id, service: ServiceData): set<Id> {
    Elems(service.configs) + (if s in d.serviceConfigs then d.serviceConfigs[s].Values else {})
  }

  function Only(loaded: map<Id, IdentityConfig>, ids: set<Id>): map<Id, IdentityConfig> {
    map c | c in loaded && c in ids :: loaded[c]
  }

  function Inputs(m: Model, d: IdentityData, s: Id): map<Id, IdentityConfig> {
    if s in m.services then Only(LoadedConfigs(m), Uses(d, s, m.services[s].data)) else map[]
  }

  datatype Shown = Shown(data: IdentityData, services: map<Id, IdentityService>, checks: map<Id, Check>)

  function ShowService(m: Model, i: Identity, s: Id, indexed: bool): IdentityService
    requires s in i.access && s in m.services
  {
    var a := i.access[s];
    IdentityService(m.services[s].(policies := {}), Inputs(m, i.data, s), a.dial > 0, a.bind > 0,
                    if indexed then a.dialIndex else 0, if indexed then a.bindIndex else 0)
  }

  // The first list a subscription takes carries other policy indices than the
  // later ones; indexed says whether they count.
  function ShownOf(m: Model, i: Identity, indexed: bool): Shown {
    Shown(i.data,
          map s | s in i.access && s in m.services :: ShowService(m, i, s, indexed),
          map c | c in i.checks && c in m.checks :: m.checks[c].(policies := {}))
  }

  /* ---- comparing two models ---- */

  predicate SameAt<V(==)>(a: map<Id, V>, b: map<Id, V>, k: Id) {
    (k in a <==> k in b) && (k in a ==> a[k] == b[k])
  }

  predicate SameService(a: map<Id, Service>, b: map<Id, Service>, s: Id) {
    (s in a <==> s in b) && (s in a ==> a[s].data == b[s].data && a[s].index == b[s].index)
  }

  predicate SameCheckAt(a: map<Id, Check>, b: map<Id, Check>, c: Id) {
    (c in a <==> c in b) && (c in a ==> a[c].data == b[c].data && a[c].index == b[c].index)
  }

  // Config c decides how some service resolves that the identity may use.
  ghost predicate Depends(m: Model, i: Identity, c: Id) {
    exists s :: s in i.access && s in m.services && c in Uses(i.data, s, m.services[s].data)
  }

  // The identity is the same in both, and so are the services and checks it has.
  ghost predicate Quiet(m: Model, n: Model, id: Id) {
    && id in m.identities && id in n.identities && n.identities[id] == m.identities[id]
    && (forall s :: s in m.identities[id].access ==> SameService(m.services, n.services, s))
    && (forall c :: c in m.identities[id].checks ==> SameCheckAt(m.checks, n.checks, c))
  }

  lemma OnlySameIff(a: map<Id, IdentityConfig>, b: map<Id, IdentityConfig>, ids: set<Id>)
    ensures Only(a, ids) == Only(b, ids) <==> forall c :: c in ids ==> SameAt(a, b, c)
  {
    forall c | Only(a, ids) == Only(b, ids) && c in ids
      ensures SameAt(a, b, c)
    {
      assert c in a <==> c in Only(a, ids);
      assert c in b <==> c in Only(b, ids);
    }
    forall c | (forall k :: k in ids ==> SameAt(a, b, k)) && c in ids
      ensures SameAt(Only(a, ids), Only(b, ids), c)
    {
    }
  }

  // Then what is shown changes exactly with the configs it depends on.
  lemma QuietShownIff(m: Model, n: Model, id: Id, indexed: bool)
    requires Quiet(m, n, id)
    ensures ShownOf(m, m.identities[id], indexed) == ShownOf(n, n.identities[id], indexed) <==>
            forall c :: Depends(m, m.identities[id], c) ==> SameAt(LoadedConfigs(m), LoadedConfigs(n), c)
  {
    var i := m.identities[id];
    var a, b := ShownOf(m, i, indexed), ShownOf(n, i, indexed);
    assert a.checks == b.checks;
    assert a.services.Keys == b.services.Keys;
    forall s | s in a.services
      ensures a.services[s] == b.services[s] <==>
              forall c :: c in Uses(i.data, s, m.services[s].data) ==> SameAt(LoadedConfigs(m), LoadedConfigs(n), c)
    {
      assert SameService(m.services, n.services, s);
      OnlySameIff(LoadedConfigs(m), LoadedConfigs(n), Uses(i.data, s, m.services[s].data));
    }
    QuietConfigs(m, n, i, a.services, b.services);
  }

  lemma QuietConfigs(m: Model, n: Model, i: Identity, a: map<Id, IdentityService>, b: map<Id, IdentityService>)
    requires forall s :: s in a <==> s in i.access && s in m.services
    requires a.Keys == b.Keys
    requires forall s :: s in a ==>
      (a[s] == b[s] <==> forall c :: c in Uses(i.data, s, m.services[s].data) ==> SameAt(LoadedConfigs(m), LoadedConfigs(n), c))
    ensures a == b <==> forall c :: Depends(m, i, c) ==> SameAt(LoadedConfigs(m), LoadedConfigs(n), c)
  {
    if a == b {
      forall c | Depends(m, i, c)
        ensures SameAt(LoadedConfigs(m), LoadedConfigs(n), c)
      {
        var s :| s in i.access && s in m.services && c in Uses(i.data, s, m.services[s].data);
        assert s in a;
      }
    } else {
      var s :| s in a && a[s] != b[s];
      var c :| c in Uses(i.data, s, m.services[s].data) && !SameAt(LoadedConfigs(m), LoadedConfigs(n), c);
      assert Depends(m, i, c);
    }
  }

  /* ---- against the lists ---- */

  function Unlinked(services: map<Id, IdentityService>): map<Id, IdentityService> {
    map s | s in services :: services[s].(service := services[s].service.(policies := {}))
  }

  function UnlinkedChecks(checks: map<Id, Check>): map<Id, Check> {
    map c | c in checks :: checks[c].(policies := {})
  }

  function Unindexed(services: map<Id, IdentityService>): map<Id, IdentityService> {
    map s | s in services :: services[s].(dialIndex := 0, bindIndex := 0)
  }

  // Any way of resolving the configs of a service that reads the service, the
  // identity's payload and the configs the two name.
  type Resolver = (Id, ServiceData, IdentityData, map<Id, IdentityConfig>) -> map<string, IdentityConfig>

  function Resolving(f: Resolver, m: Model, d: IdentityData): Resolve {
    s => if s in m.services then f(s, m.services[s].data, d, Inputs(m, d, s)) else map[]
  }

  lemma ShownResolvesSame(m: Model, i: Identity, n: Model, j: Identity, f: Resolver, s: Id)
    requires ShownOf(m, i, true) == ShownOf(n, j, true) && s in i.access && s in m.services
    ensures s in j.access && s in n.services
    ensures Resolving(f, m, i.data)(s) == Resolving(f, n, j.data)(s)
    ensures ShowService(m, i, s, true) == ShowService(n, j, s, true)
  {
    var a, b := ShownOf(m, i, true).services, ShownOf(n, j, true).services;
    assert s in a && a[s] == b[s];
  }

  lemma SameServiceKeys(m: Model, i: Identity, n: Model, j: Identity)
    requires ShownOf(m, i, true) == ShownOf(n, j, true)
    ensures forall s :: s in i.access && s in m.services <==> s in j.access && s in n.services
  {
    var a, b := ShownOf(m, i, true).services, ShownOf(n, j, true).services;
    assert forall s :: s in a <==> s in i.access && s in m.services;
    assert forall s :: s in b <==> s in j.access && s in n.services;
  }

  // Where the same is shown, the fast lists are the same, however configs resolve.
  lemma ShownDecidesLists(m: Model, i: Identity, n: Model, j: Identity, f: Resolver)
    requires ShownOf(m, i, true) == ShownOf(n, j, true)
    ensures Unlinked(FastServices(m, i, Resolving(f, m, i.data))) == Unlinked(FastServices(n, j, Resolving(f, n, j.data)))
    ensures UnlinkedChecks(FastChecks(m, i)) == UnlinkedChecks(FastChecks(n, j))
  {
    var x, y := Unlinked(FastServices(m, i, Resolving(f, m, i.data))), Unlinked(FastServices(n, j, Resolving(f, n, j.data)));
    SameServiceKeys(m, i, n, j);
    assert x.Keys == y.Keys;
    forall s | s in x
      ensures x[s] == y[s]
    {
      ShownResolvesSame(m, i, n, j, f, s);
      assert ShowService(m, i, s, true) == ShowService(n, j, s, true);
    }
    assert UnlinkedChecks(FastChecks(m, i)) == ShownOf(m, i, true).checks;
    assert UnlinkedChecks(FastChecks(n, j)) == ShownOf(n, j, true).checks;
  }

  // The list a subscription starts from shows the same, its indices aside.
  lemma PlainListShows(m: Model, id: Id, services: map<Id, IdentityService>, checks: map<Id, Check>)
    requires Inv(m) && id in m.identities && m.identities[id].tracking
    requires PlainList(m, m.identities[id], s => Inputs(m, m.identities[id].data, s), services, checks)
    ensures ShownOf(m, m.identities[id], false) == Shown(m.identities[id].data, Unindexed(Unlinked(services)), UnlinkedChecks(checks))
  {
    var i := m.identities[id];
    var resolve: Resolve := s => Inputs(m, i.data, s);
    var shown, listed := ShownOf(m, i, false), Unindexed(Unlinked(services));
    assert Exact(m.policies, i);
    forall s
      ensures s in shown.services <==> s in listed
      ensures s in listed ==> shown.services[s] == listed[s]
    {
      SameEntry(m, i, resolve, services, s);
    }
    forall c
      ensures c in shown.checks <==> c in UnlinkedChecks(checks)
    {
      SameCheck(m, i, c);
    }
    assert shown.services == listed;
    assert shown.checks == UnlinkedChecks(checks);
  }
}
