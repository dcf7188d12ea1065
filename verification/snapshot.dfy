// Building a full data state: a list of create events, then each policy with
// its members, that rebuilds the described content from nothing.
module Snapshot {
  import opened DataState
  import opened RelationalView
  import opened FullSync

  // The events so far build content v; when ok they are well-formed too.
  ghost predicate Builds(ok: bool, es: seq<Event>, v: View, services: map<Id, ServiceData>) {
    && (ok ==> WellFormedRun(EMPTY_VIEW, es))
    && DetachingRun(EMPTY_VIEW, es)
    && AnnouncedOnce(EMPTY_VIEW, es)
    && Run(EMPTY_VIEW, es) == v
    && ServiceTable(es) == services
    && Announces(es)
  }

  // What a list of announcements has built so far.
  datatype Content = Content(view: View, services: map<Id, ServiceData>)

  function Grow(c: Content, e: Event): Content {
    Content(Step(c.view, e), if e.ServiceEvent? then c.services[e.id := e.service] else c.services)
  }

  ghost predicate Appendable(ok: bool, v: View, e: Event) {
    && (ok ==> WellFormed(v, e))
    && (e.PolicyChangeEvent? || !e.action.Delete?)
    && (e.ConfigEvent? ==> e.id !in v.configs)
    && (e.RouterEvent? ==> e.id !in v.routers)
    && (e.ServiceEvent? ==> e.id !in v.services)
  }

  // A property of announcements that every further announcement keeps.
  ghost predicate Kept(ok: bool, built: (seq<Event>, Content) -> bool) {
    forall es, c, e :: built(es, c) && Appendable(ok, c.view, e) ==> built(es + [e], Grow(c, e))
  }

  lemma Append(ok: bool, es: seq<Event>, c: Content, e: Event)
    requires Builds(ok, es, c.view, c.services) && Appendable(ok, c.view, e)
    ensures Builds(ok, es + [e], Grow(c, e).view, Grow(c, e).services)
  {
    RunAppend(EMPTY_VIEW, es, e);
    assert Detaches(c.view, e);
    assert (es + [e])[..|es + [e]| - 1] == es;
  }

  ghost function Building(ok: bool): (seq<Event>, Content) -> bool {
    (es, c: Content) => Builds(ok, es, c.view, c.services)
  }

  lemma BuildingKept(ok: bool)
    ensures Kept(ok, Building(ok))
  {
    forall es, c, e | Building(ok)(es, c) && Appendable(ok, c.view, e)
      ensures Building(ok)(es + [e], Grow(c, e))
    {
      Append(ok, es, c, e);
    }
  }

  // While a table is being announced, todo are the keys still to come.
  lemma LessTodo<T>(table: map<Id, T>, todo: set<Id>, k: Id)
    requires k in todo && k in table
    ensures (table - todo)[k := table[k]] == table - (todo - {k})
  {
  }

  lemma AllOrNothing<T>(table: map<Id, T>)
    ensures table - table.Keys == map[] && table - {} == table
  {
  }

  // Announcing an entity that is not there yet moves place(part) along.
  ghost predicate Places<T(!new)>(ok: bool, table: map<Id, T>, event: (Id, T) -> Event, place: map<Id, T> -> Content) {
    forall k, part :: k in table && k !in part ==>
      Appendable(ok, place(part).view, event(k, table[k])) && Grow(place(part), event(k, table[k])) == place(part[k := table[k]])
  }

  lemma PlaceNext<T(!new)>(ok: bool, built: (seq<Event>, Content) -> bool, es: seq<Event>, table: map<Id, T>,
                           event: (Id, T) -> Event, place: map<Id, T> -> Content, todo: set<Id>, k: Id)
    requires Kept(ok, built) && Places(ok, table, event, place) && k in table && k in todo
    requires built(es, place(table - todo))
    ensures built(es + [event(k, table[k])], place(table - (todo - {k})))
  {
    var part := table - todo;
    assert k !in part;
    assert Appendable(ok, place(part).view, event(k, table[k]));
    assert built(es + [event(k, table[k])], Grow(place(part), event(k, table[k])));
    LessTodo(table, todo, k);
  }

  // Announce every entity of one table, in whatever order the map yields them.
  // place(part) is the content once the part of the table has been announced.
  method Announce<T(!new)>(es0: seq<Event>, table: map<Id, T>, event: (Id, T) -> Event,
                           ghost ok: bool, ghost built: (seq<Event>, Content) -> bool, ghost place: map<Id, T> -> Content)
    returns (es: seq<Event>)
    requires Kept(ok, built) && built(es0, place(map[])) && Places(ok, table, event, place)
    ensures built(es, place(table))
  {
    es := es0;
    var todo := table.Keys;
    AllOrNothing(table);
    while todo != {}
      invariant todo <= table.Keys && built(es, place(table - todo))
      decreases |todo|
    {
      var k :| k in todo;
      PlaceNext(ok, built, es, table, event, place, todo, k);
      es := es + [event(k, table[k])];
      todo := todo - {k};
    }
  }

  function ViewsOf(table: map<Id, ServiceData>): (r: map<Id, ServiceView>)
    ensures r.Keys == table.Keys && forall s :: s in r ==> r[s] == ViewOfService(table[s])
  {
    map s | s in table :: ViewOfService(table[s])
  }

  /* ---- memberships, collected per policy while the identities go by ---- */

  // The members of p among the identities that have gone by.
  function MembersSeen(memberships: map<Id, set<Id>>, todo: set<Id>, p: Id): set<Id> {
    set i | i in memberships && i !in todo && p in memberships[i]
  }

  ghost predicate Groups(joined: map<Id, seq<Id>>, p: Id, members: set<Id>) {
    && (p in joined <==> members != {})
    && (p in joined ==> Distinct(joined[p]) && Elems(joined[p]) == members)
  }

  ghost predicate Grouped(joined: map<Id, seq<Id>>, memberships: map<Id, set<Id>>, todo: set<Id>) {
    forall p :: Groups(joined, p, MembersSeen(memberships, todo, p))
  }

  lemma GroupsGrow(joined: map<Id, seq<Id>>, p: Id, i: Id, members: set<Id>)
    requires Groups(joined, p, members) && i !in members
    ensures Groups(joined[p := (if p in joined then joined[p] else []) + [i]], p, members + {i})
  {
    var listed := if p in joined then joined[p] else [];
    assert Elems(listed) == members;
    assert Elems(listed + [i]) == members + {i};
  }

  lemma OneMoreMember(memberships: map<Id, set<Id>>, todo: set<Id>, i: Id, p: Id)
    requires i in memberships && i in todo
    ensures MembersSeen(memberships, todo - {i}, p) ==
            if p in memberships[i] then MembersSeen(memberships, todo, p) + {i} else MembersSeen(memberships, todo, p)
  {
  }

  function Listed(joined: map<Id, seq<Id>>, p: Id): seq<Id> {
    if p in joined then joined[p] else []
  }

  function Enlist(joined: map<Id, seq<Id>>, ps: set<Id>, i: Id): (r: map<Id, seq<Id>>)
    ensures r.Keys == joined.Keys + ps
    ensures forall p :: p in r ==> r[p] == if p in ps then Listed(joined, p) + [i] else joined[p]
  {
    map p | p in joined.Keys + ps :: if p in ps then Listed(joined, p) + [i] else joined[p]
  }

  lemma EnlistGroups(joined: map<Id, seq<Id>>, i: Id, memberships: map<Id, set<Id>>, todo: set<Id>)
    requires Grouped(joined, memberships, todo) && i in todo && i in memberships
    ensures Grouped(Enlist(joined, memberships[i], i), memberships, todo - {i})
  {
    var more := Enlist(joined, memberships[i], i);
    forall p
      ensures Groups(more, p, MembersSeen(memberships, todo - {i}, p))
    {
      var members := MembersSeen(memberships, todo, p);
      assert Groups(joined, p, members);
      OneMoreMember(memberships, todo, i, p);
      if p in memberships[i] {
        GroupsGrow(joined, p, i, members);
      }
    }
  }

  method JoinOne(joined0: map<Id, seq<Id>>, i: Id, mine: set<Id>) returns (joined: map<Id, seq<Id>>)
    ensures joined == Enlist(joined0, mine, i)
  {
    joined := joined0;
    var todo := mine;
    while todo != {}
      invariant todo <= mine
      invariant joined == Enlist(joined0, mine - todo, i)
      decreases |todo|
    {
      var p :| p in todo;
      joined := joined[p := Listed(joined, p) + [i]];
      todo := todo - {p};
    }
    assert mine - todo == mine;
  }

  lemma NoneGrouped(memberships: map<Id, set<Id>>)
    ensures Grouped(map[], memberships, memberships.Keys)
  {
  }

  method EnlistNext(joined0: map<Id, seq<Id>>, i: Id, mine: set<Id>, ghost memberships: map<Id, set<Id>>, ghost todo: set<Id>)
    returns (joined: map<Id, seq<Id>>)
    requires Grouped(joined0, memberships, todo) && i in todo && i in memberships && memberships[i] == mine
    ensures Grouped(joined, memberships, todo - {i})
  {
    joined := JoinOne(joined0, i, mine);
    EnlistGroups(joined0, i, memberships, todo);
  }

  // The identities go by one after another, and each enlists in its policies.
  method AnnounceIdentities(es0: seq<Event>, table: map<Id, IdentityData>, memberships: map<Id, set<Id>>, event: (Id, IdentityData) -> Event,
                            ghost ok: bool, ghost built: (seq<Event>, Content) -> bool, ghost place: map<Id, IdentityData> -> Content)
    returns (es: seq<Event>, joined: map<Id, seq<Id>>)
    requires memberships.Keys == table.Keys
    requires Kept(ok, built) && built(es0, place(map[])) && Places(ok, table, event, place)
    ensures built(es, place(table))
    ensures Grouped(joined, memberships, {})
  {
    es, joined := es0, map[];
    var todo := table.Keys;
    NoneGrouped(memberships);
    AllOrNothing(table);
    while todo != {}
      invariant todo <= table.Keys && built(es, place(table - todo))
      invariant Grouped(joined, memberships, todo)
      decreases |todo|
    {
      var k :| k in todo;
      PlaceNext(ok, built, es, table, event, place, todo, k);
      es := es + [event(k, table[k])];
      joined := EnlistNext(joined, k, memberships[k], memberships, todo);
      todo := todo - {k};
    }
  }

  /* ---- policies ---- */

  datatype PolicyRow = PolicyRow(data: PolicyData, services: set<Id>, checks: set<Id>)

  method Enumerate(ids: set<Id>) returns (r: seq<Id>)
    ensures Distinct(r) && Elems(r) == ids
  {
    r := [];
    var todo := ids;
    while todo != {}
      invariant todo <= ids
      invariant Distinct(r) && Elems(r) == ids - todo
      decreases |todo|
    {
      var x :| x in todo;
      assert Elems(r + [x]) == Elems(r) + {x};
      r := r + [x];
      todo := todo - {x};
    }
  }

  function RowView(row: PolicyRow, members: set<Id>): PolicyView {
    PolicyView(row.data, row.services, row.checks, members)
  }

  function Placing(c: Content, p: Id, q: PolicyView): Content {
    c.(view := c.view.(policies := c.view.policies[p := q]))
  }

  lemma CreatePolicySteps(ok: bool, c: Content, p: Id, d: PolicyData)
    requires p !in c.view.policies && (ok ==> !d.policyType.InvalidPolicy?)
    ensures Appendable(ok, c.view, PolicyEvent(Create, p, d))
    ensures Grow(c, PolicyEvent(Create, p, d)) == Placing(c, p, PolicyView(d, {}, {}, {}))
  {
  }

  function Filled(q: PolicyView, kind: RelatedType, ids: set<Id>): PolicyView {
    match kind
    case RelatedService => q.(services := ids)
    case RelatedPostureCheck => q.(checks := ids)
    case RelatedIdentity => q.(identities := ids)
    case InvalidRelatedType => q
  }

  predicate Fillable(ok: bool, v: View, q: PolicyView, kind: RelatedType, ids: seq<Id>) {
    && Distinct(ids)
    && match kind
       case RelatedService => q.services == {} && (ok ==> Elems(ids) <= v.services.Keys)
       case RelatedPostureCheck => q.checks == {} && (ok ==> Elems(ids) <= v.checks.Keys)
       case RelatedIdentity => q.identities == {} && Elems(ids) <= v.identities.Keys
       case InvalidRelatedType => false
  }

  // Adding members of one kind to a policy that has none of that kind yet.
  lemma FillSteps(ok: bool, c: Content, p: Id, q: PolicyView, kind: RelatedType, ids: seq<Id>)
    requires Fillable(ok, c.view, q, kind, ids)
    ensures var e := PolicyChangeEvent(PolicyChange(p, ids, kind, true));
            && Appendable(ok, Placing(c, p, q).view, e)
            && Grow(Placing(c, p, q), e) == Placing(c, p, Filled(q, kind, Elems(ids)))
  {
    var v := c.view;
    assert v.policies[p := q][p := Filled(q, kind, Elems(ids))] == v.policies[p := Filled(q, kind, Elems(ids))];
    match kind
    case RelatedService => assert {} + Elems(ids) == Elems(ids);
    case RelatedPostureCheck => assert {} + Elems(ids) == Elems(ids);
    case RelatedIdentity => assert {} + Elems(ids) * v.identities.Keys == Elems(ids);
  }

  // One policy: the policy itself, its services, its posture checks, and its
  // identities when it has any.
  method AnnouncePolicy(es0: seq<Event>, p: Id, row: PolicyRow, joined: map<Id, seq<Id>>,
                        ghost members: set<Id>, ghost ok: bool, ghost built: (seq<Event>, Content) -> bool, ghost c: Content)
    returns (es: seq<Event>)
    requires Kept(ok, built) && built(es0, c)
    requires p !in c.view.policies && Groups(joined, p, members) && members <= c.view.identities.Keys
    requires ok ==> CoherentPolicy(c.view, RowView(row, members))
    ensures built(es, Placing(c, p, RowView(row, members)))
  {
    CreatePolicySteps(ok, c, p, row.data);
    es := es0 + [PolicyEvent(Create, p, row.data)];
    var ss := Enumerate(row.services);
    FillSteps(ok, c, p, PolicyView(row.data, {}, {}, {}), RelatedService, ss);
    es := es + [PolicyChangeEvent(PolicyChange(p, ss, RelatedService, true))];
    var cs := Enumerate(row.checks);
    FillSteps(ok, c, p, PolicyView(row.data, row.services, {}, {}), RelatedPostureCheck, cs);
    es := es + [PolicyChangeEvent(PolicyChange(p, cs, RelatedPostureCheck, true))];
    if p in joined {
      FillSteps(ok, c, p, PolicyView(row.data, row.services, row.checks, {}), RelatedIdentity, joined[p]);
      es := es + [PolicyChangeEvent(PolicyChange(p, joined[p], RelatedIdentity, true))];
    }
  }

  function RowViews(rows: map<Id, PolicyRow>, memberships: map<Id, set<Id>>): (r: map<Id, PolicyView>)
    ensures r.Keys == rows.Keys
    ensures forall p :: p in r ==> r[p] == RowView(rows[p], MembersSeen(memberships, {}, p))
  {
    map p | p in rows :: RowView(rows[p], MembersSeen(memberships, {}, p))
  }

  function WithPolicies(c: Content, ps: map<Id, PolicyView>): Content {
    c.(view := c.view.(policies := ps))
  }

  lemma PlacingNext(c: Content, views: map<Id, PolicyView>, todo: set<Id>, k: Id)
    requires k in views && k in todo
    ensures Placing(WithPolicies(c, views - todo), k, views[k]) == WithPolicies(c, views - (todo - {k}))
  {
    LessTodo(views, todo, k);
  }

  method AnnouncePolicies(es0: seq<Event>, rows: map<Id, PolicyRow>, joined: map<Id, seq<Id>>, ghost memberships: map<Id, set<Id>>,
                          ghost ok: bool, ghost built: (seq<Event>, Content) -> bool, ghost c: Content)
    returns (es: seq<Event>)
    requires Kept(ok, built) && built(es0, c) && c.view.policies == map[]
    requires Grouped(joined, memberships, {})
    requires memberships.Keys <= c.view.identities.Keys
    requires ok ==> forall p :: p in rows ==> CoherentPolicy(c.view, RowViews(rows, memberships)[p])
    ensures built(es, WithPolicies(c, RowViews(rows, memberships)))
  {
    es := es0;
    var todo := rows.Keys;
    ghost var views := RowViews(rows, memberships);
    AllOrNothing(views);
    assert WithPolicies(c, map[]) == c;
    while todo != {}
      invariant todo <= rows.Keys && built(es, WithPolicies(c, views - todo))
      decreases |todo|
    {
      var k :| k in todo;
      PlacingNext(c, views, todo, k);
      ghost var members := MembersSeen(memberships, {}, k);
      assert Groups(joined, k, members);
      assert ok ==> CoherentPolicy(c.view, views[k]);
      es := AnnouncePolicy(es, k, rows[k], joined, members, ok, built, WithPolicies(c, views - todo));
      todo := todo - {k};
    }
  }

  /* ---- the whole data state ---- */

  datatype Tables = Tables(
    configTypes: map<Id, ConfigTypeData>,
    configs: map<Id, ConfigData>,
    identities: map<Id, IdentityData>,
    memberships: map<Id, set<Id>>, // identity -> its policies
    services: map<Id, ServiceData>,
    routers: map<Id, RouterData>,
    policies: map<Id, PolicyRow>,
    checks: map<Id, CheckData>,
    keys: map<Id, KeyData>,
    revocations: map<Id, RevocationData>)

  function ViewOfTables(t: Tables): View {
    View(t.configTypes, t.configs, t.identities, ViewsOf(t.services), t.routers,
         RowViews(t.policies, t.memberships), t.checks, t.keys, t.revocations)
  }

  method AnnounceConfigTypes(es0: seq<Event>, table: map<Id, ConfigTypeData>, ghost ok: bool, ghost built: (seq<Event>, Content) -> bool, ghost c: Content)
    returns (es: seq<Event>)
    requires Kept(ok, built) && built(es0, c) && c.view.configTypes == map[]
    ensures built(es, c.(view := c.view.(configTypes := table)))
  {
    assert c == c.(view := c.view.(configTypes := map[]));
    es := Announce(es0, table, (k, d) => ConfigTypeEvent(Create, k, d), ok, built, part => c.(view := c.view.(configTypes := part)));
  }

  method AnnounceConfigs(es0: seq<Event>, table: map<Id, ConfigData>, ghost ok: bool, ghost built: (seq<Event>, Content) -> bool, ghost c: Content)
    returns (es: seq<Event>)
    requires Kept(ok, built) && built(es0, c) && c.view.configs == map[]
    ensures built(es, c.(view := c.view.(configs := table)))
  {
    assert c == c.(view := c.view.(configs := map[]));
    es := Announce(es0, table, (k, d) => ConfigEvent(Create, k, d), ok, built, part => c.(view := c.view.(configs := part)));
  }

  method AnnounceMembers(es0: seq<Event>, table: map<Id, IdentityData>, memberships: map<Id, set<Id>>,
                         ghost ok: bool, ghost built: (seq<Event>, Content) -> bool, ghost c: Content)
    returns (es: seq<Event>, joined: map<Id, seq<Id>>)
    requires Kept(ok, built) && built(es0, c) && c.view.identities == map[] && memberships.Keys == table.Keys
    ensures built(es, c.(view := c.view.(identities := table))) && Grouped(joined, memberships, {})
  {
    assert c == c.(view := c.view.(identities := map[]));
    es, joined := AnnounceIdentities(es0, table, memberships, (k, d) => IdentityEvent(Create, k, d), ok, built,
                                     part => c.(view := c.view.(identities := part)));
  }

  lemma ViewsGrow(table: map<Id, ServiceData>, k: Id, d: ServiceData)
    ensures ViewsOf(table)[k := ViewOfService(d)] == ViewsOf(table[k := d])
  {
  }

  function ServicesOn(v: View, part: map<Id, ServiceData>): Content {
    Content(v.(services := ViewsOf(part)), part)
  }

  lemma ServicePlaced(ok: bool, v: View, part: map<Id, ServiceData>, k: Id, d: ServiceData)
    requires k !in part
    ensures Appendable(ok, ServicesOn(v, part).view, ServiceEvent(Create, k, d))
    ensures Grow(ServicesOn(v, part), ServiceEvent(Create, k, d)) == ServicesOn(v, part[k := d])
  {
    ViewsGrow(part, k, d);
  }

  lemma ServicesPlaced(ok: bool, table: map<Id, ServiceData>, event: (Id, ServiceData) -> Event, v: View, place: map<Id, ServiceData> -> Content)
    requires forall k, d :: event(k, d) == ServiceEvent(Create, k, d)
    requires forall part :: place(part) == ServicesOn(v, part)
    ensures Places(ok, table, event, place)
  {
    forall k, part: map<Id, ServiceData> | k in table && k !in part
      ensures Appendable(ok, place(part).view, event(k, table[k]))
      ensures Grow(place(part), event(k, table[k])) == place(part[k := table[k]])
    {
      ServicePlaced(ok, v, part, k, table[k]);
    }
  }

  method AnnounceServices(es0: seq<Event>, table: map<Id, ServiceData>, ghost ok: bool, ghost built: (seq<Event>, Content) -> bool, ghost v: View)
    returns (es: seq<Event>)
    requires Kept(ok, built) && built(es0, Content(v, map[])) && v.services == map[]
    ensures built(es, Content(v.(services := ViewsOf(table)), table))
  {
    assert v == v.(services := ViewsOf(map[]));
    var event := (k, d) => ServiceEvent(Create, k, d);
    ghost var place := part => ServicesOn(v, part);
    ServicesPlaced(ok, table, event, v, place);
    es := Announce(es0, table, event, ok, built, place);
  }

  method AnnounceRouters(es0: seq<Event>, table: map<Id, RouterData>, ghost ok: bool, ghost built: (seq<Event>, Content) -> bool, ghost c: Content)
    returns (es: seq<Event>)
    requires Kept(ok, built) && built(es0, c) && c.view.routers == map[]
    ensures built(es, c.(view := c.view.(routers := table)))
  {
    assert c == c.(view := c.view.(routers := map[]));
    es := Announce(es0, table, (k, d) => RouterEvent(Create, k, d), ok, built, part => c.(view := c.view.(routers := part)));
  }

  method AnnounceChecks(es0: seq<Event>, table: map<Id, CheckData>, ghost ok: bool, ghost built: (seq<Event>, Content) -> bool, ghost c: Content)
    returns (es: seq<Event>)
    requires Kept(ok, built) && built(es0, c) && c.view.checks == map[]
    ensures built(es, c.(view := c.view.(checks := table)))
  {
    assert c == c.(view := c.view.(checks := map[]));
    es := Announce(es0, table, (k, d) => CheckEvent(Create, k, d), ok, built, part => c.(view := c.view.(checks := part)));
  }

  method AnnounceKeys(es0: seq<Event>, table: map<Id, KeyData>, ghost ok: bool, ghost built: (seq<Event>, Content) -> bool, ghost c: Content)
    returns (es: seq<Event>)
    requires Kept(ok, built) && built(es0, c) && c.view.keys == map[]
    ensures built(es, c.(view := c.view.(keys := table)))
  {
    assert c == c.(view := c.view.(keys := map[]));
    es := Announce(es0, table, (k, d) => KeyEvent(Create, k, d), ok, built, part => c.(view := c.view.(keys := part)));
  }

  method AnnounceRevocations(es0: seq<Event>, table: map<Id, RevocationData>, ghost ok: bool, ghost built: (seq<Event>, Content) -> bool, ghost c: Content)
    returns (es: seq<Event>)
    requires Kept(ok, built) && built(es0, c) && c.view.revocations == map[]
    ensures built(es, c.(view := c.view.(revocations := table)))
  {
    assert c == c.(view := c.view.(revocations := map[]));
    es := Announce(es0, table, (k, d) => RevocationEvent(Create, k, d), ok, built, part => c.(view := c.view.(revocations := part)));
  }

  // Each table once, policies after everything they refer to.
  method AnnounceTables(t: Tables, ghost ok: bool, ghost built: (seq<Event>, Content) -> bool) returns (es: seq<Event>)
    requires t.memberships.Keys == t.identities.Keys
    requires Kept(ok, built) && built([], Content(EMPTY_VIEW, map[])) && (ok ==> Coherent(ViewOfTables(t)))
    ensures built(es, Content(ViewOfTables(t), t.services))
  {
    ghost var v := EMPTY_VIEW;
    es := AnnounceConfigTypes([], t.configTypes, ok, built, Content(v, map[]));
    v := v.(configTypes := t.configTypes);
    es := AnnounceConfigs(es, t.configs, ok, built, Content(v, map[]));
    v := v.(configs := t.configs);
    var joined;
    es, joined := AnnounceMembers(es, t.identities, t.memberships, ok, built, Content(v, map[]));
    v := v.(identities := t.identities);
    es := AnnounceServices(es, t.services, ok, built, v);
    v := v.(services := ViewsOf(t.services));
    es := AnnounceRouters(es, t.routers, ok, built, Content(v, t.services));
    v := v.(routers := t.routers);
    es := AnnounceChecks(es, t.checks, ok, built, Content(v, t.services));
    v := v.(checks := t.checks);
    if ok {
      LiveMembers(t, v);
    }
    es := AnnouncePolicies(es, t.policies, joined, t.memberships, ok, built, Content(v, t.services));
    v := v.(policies := RowViews(t.policies, t.memberships));
    es := AnnounceKeys(es, t.keys, ok, built, Content(v, t.services));
    v := v.(keys := t.keys);
    es := AnnounceRevocations(es, t.revocations, ok, built, Content(v, t.services));
  }

  method BuildDataState(t: Tables) returns (es: seq<Event>)
    requires t.memberships.Keys == t.identities.Keys
    ensures Builds(Coherent(ViewOfTables(t)), es, ViewOfTables(t), t.services)
  {
    ghost var ok := Coherent(ViewOfTables(t));
    BuildingKept(ok);
    es := AnnounceTables(t, ok, Building(ok));
  }

  lemma LiveMembers(t: Tables, v: View)
    requires Coherent(ViewOfTables(t))
    requires v.services == ViewsOf(t.services) && v.checks == t.checks && v.identities == t.identities
    ensures forall p :: p in t.policies ==> CoherentPolicy(v, RowViews(t.policies, t.memberships)[p])
  {
    forall p | p in t.policies
      ensures CoherentPolicy(v, RowViews(t.policies, t.memberships)[p])
    {
      assert p in ViewOfTables(t).policies;
    }
  }
}
