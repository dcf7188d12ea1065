// What each event does to the router-side data model, including the
// denormalised use counts, reverse references, indices and the name index.
// The class in router_data_model.dfy is proved against these functions.
module ReceiverSpec {
  import opened DataState

  // How many dial and bind policies grant an identity a service, and the index
  // of the latest change to either kind.
  datatype Access = Access(dial: int, bind: int, dialIndex: nat, bindIndex: nat) {
    predicate HasAccess() {
      dial > 0 || bind > 0
    }

    function UpdatePolicies(t: PolicyType, index: nat, add: bool): Access {
      match t
      case DialPolicy => this.(dial := if add then dial + 1 else dial - 1, dialIndex := Max(dialIndex, index))
      case BindPolicy => this.(bind := if add then bind + 1 else bind - 1, bindIndex := Max(bindIndex, index))
      case InvalidPolicy => this
    }

    function Touch(t: PolicyType, index: nat): Access {
      match t
      case DialPolicy => this.(dialIndex := Max(dialIndex, index))
      case BindPolicy => this.(bindIndex := Max(bindIndex, index))
      case InvalidPolicy => this
    }
  }

  const NO_ACCESS := Access(0, 0, 0, 0)

  datatype Identity = Identity(
    data: IdentityData,
    policies: set<Id>,
    access: map<Id, Access>,
    checks: map<Id, int>,
    index: nat,
    tracking: bool)

  datatype Service = Service(data: ServiceData, policies: set<Id>, index: nat)

  datatype Policy = Policy(
    data: PolicyData,
    services: set<Id>,
    checks: set<Id>,
    identities: set<Id>,
    servicesIndex: nat,
    checksIndex: nat)

  datatype Check = Check(data: CheckData, policies: set<Id>, index: nat)

  datatype Config = Config(data: ConfigData, services: set<Id>, identities: set<Id>, index: nat)

  datatype ConfigType = ConfigType(data: ConfigTypeData, index: nat)

  datatype Model = Model(
    configTypes: map<Id, ConfigType>,
    configs: map<Id, Config>,
    identities: map<Id, Identity>,
    services: map<Id, Service>,
    routers: map<Id, RouterData>,
    policies: map<Id, Policy>,
    checks: map<Id, Check>,
    keys: map<Id, KeyData>,
    revocations: map<Id, RevocationData>,
    names: map<string, Id>, // service name -> service id
    selfId: Id)             // the local router, or "" for a view that has none

  function EmptyModel(selfId: Id): Model {
    Model(map[], map[], map[], map[], map[], map[], map[], map[], map[], map[], selfId)
  }

  /* ---- use counts of one identity ---- */

  function CurrentAccess(acc: map<Id, Access>, s: Id): Access {
    if s in acc then acc[s] else NO_ACCESS
  }

  function UpdateServiceCount(acc: map<Id, Access>, t: PolicyType, s: Id, index: nat, add: bool): map<Id, Access> {
    var next := CurrentAccess(acc, s).UpdatePolicies(t, index, add);
    if next.HasAccess() then acc[s := next] else acc - {s}
  }

  // One count update per listed id, in order; a repeated id counts again.
  function UpdateServiceCounts(acc: map<Id, Access>, t: PolicyType, ids: seq<Id>, index: nat, add: bool): map<Id, Access> {
    if ids == [] then acc
    else UpdateServiceCount(UpdateServiceCounts(acc, t, ids[..|ids| - 1], index, add), t, ids[|ids| - 1], index, add)
  }

  // One count update for each member of a set.
  function UpdateEachService(acc: map<Id, Access>, t: PolicyType, ids: set<Id>, index: nat, add: bool): (r: map<Id, Access>)
    ensures forall s :: s in ids ==>
      (s in r <==> CurrentAccess(acc, s).UpdatePolicies(t, index, add).HasAccess()) &&
      (s in r ==> r[s] == CurrentAccess(acc, s).UpdatePolicies(t, index, add))
    ensures forall s :: s !in ids ==> (s in r <==> s in acc) && (s in r ==> r[s] == acc[s])
  {
    map s | s in acc.Keys + ids && (s in ids ==> CurrentAccess(acc, s).UpdatePolicies(t, index, add).HasAccess())
      :: if s in ids then CurrentAccess(acc, s).UpdatePolicies(t, index, add) else acc[s]
  }

  function TouchEach(acc: map<Id, Access>, t: PolicyType, ids: set<Id>, index: nat): (r: map<Id, Access>)
    ensures r.Keys == acc.Keys
    ensures forall s :: s in r ==> r[s] == if s in ids then acc[s].Touch(t, index) else acc[s]
  {
    map s | s in acc :: if s in ids then acc[s].Touch(t, index) else acc[s]
  }

  function UseCount(m: map<Id, int>, c: Id): int {
    if c in m then m[c] else 0
  }

  function CountUse(m: map<Id, int>, c: Id, add: bool): map<Id, int> {
    if add then m[c := UseCount(m, c) + 1]
    else if c !in m then m
    else if m[c] - 1 < 1 then m - {c}
    else m[c := m[c] - 1]
  }

  function CountUses(m: map<Id, int>, ids: seq<Id>, add: bool): map<Id, int> {
    if ids == [] then m else CountUse(CountUses(m, ids[..|ids| - 1], add), ids[|ids| - 1], add)
  }

  function CountEach(m: map<Id, int>, ids: set<Id>, add: bool): (r: map<Id, int>)
    ensures forall c :: c in ids && add ==> c in r && r[c] == UseCount(m, c) + 1
    ensures forall c :: c in ids && !add ==> (c in r <==> c in m && m[c] - 1 >= 1) && (c in r ==> r[c] == m[c] - 1)
    ensures forall c :: c !in ids ==> (c in r <==> c in m) && (c in r ==> r[c] == m[c])
  {
    map c | c in m.Keys + (if add then ids else {}) && (c in ids && !add ==> m[c] - 1 >= 1)
      :: if c !in ids then m[c] else if add then UseCount(m, c) + 1 else m[c] - 1
  }

  /* ---- how one identity follows a change to policy p, filed under pid ---- */

  function JoinPolicy(i: Identity, pid: Id, p: Policy, index: nat, join: bool): Identity {
    if (pid in i.policies) == join then i
    else i.(
      policies := if join then i.policies + {pid} else i.policies - {pid},
      access := if i.tracking then UpdateEachService(i.access, p.data.policyType, p.services, index, join) else i.access,
      checks := if p.services != {} then CountEach(i.checks, p.checks, join) else i.checks)
  }

  function ServicesChanged(i: Identity, pid: Id, p: Policy, ids: seq<Id>, index: nat, add: bool): Identity {
    if i.tracking && pid in i.policies
    then i.(access := UpdateServiceCounts(i.access, p.data.policyType, ids, index, add))
    else i
  }

  function TouchServices(i: Identity, p: Policy, index: nat): Identity {
    if i.tracking then i.(access := TouchEach(i.access, p.data.policyType, p.services, index)) else i
  }

  function ChecksChanged(i: Identity, pid: Id, p: Policy, ids: seq<Id>, index: nat, add: bool): Identity {
    TouchServices(if pid in i.policies then i.(checks := CountUses(i.checks, ids, add)) else i, p, index)
  }

  function AllChecksChanged(i: Identity, pid: Id, p: Policy, index: nat, add: bool): Identity {
    TouchServices(if pid in i.policies then i.(checks := CountEach(i.checks, p.checks, add)) else i, p, index)
  }

  /* ---- service policy changes ---- */

  function Amend(members: set<Id>, ids: set<Id>, add: bool): set<Id> {
    if add then members + ids else members - ids
  }

  function JoinEach(im: map<Id, Identity>, hit: set<Id>, pid: Id, p: Policy, index: nat, join: bool): (r: map<Id, Identity>)
    ensures r.Keys == im.Keys
    ensures forall i :: i in r ==> r[i] == if i in hit then JoinPolicy(im[i], pid, p, index, join) else im[i]
  {
    map i | i in im :: if i in hit then JoinPolicy(im[i], pid, p, index, join) else im[i]
  }

  // A policy that gains its first service starts to demand its posture checks;
  // one that loses its last service stops.
  predicate CrossesEmpty(before: set<Id>, after: set<Id>, add: bool) {
    if add then before == {} && after != {} else before != {} && after == {}
  }

  function FollowServices(i: Identity, pid: Id, p: Policy, q: Policy, ids: seq<Id>, index: nat, add: bool): Identity {
    var j := ServicesChanged(i, pid, p, ids, index, add);
    if CrossesEmpty(p.services, q.services, add) then AllChecksChanged(j, pid, q, index, add) else j
  }

  function FollowServicesEach(im: map<Id, Identity>, pid: Id, p: Policy, q: Policy, ids: seq<Id>, index: nat, add: bool): (r: map<Id, Identity>)
    ensures r.Keys == im.Keys
    ensures forall i :: i in r ==> r[i] == if i in p.identities then FollowServices(im[i], pid, p, q, ids, index, add) else im[i]
  {
    map i | i in im :: if i in p.identities then FollowServices(im[i], pid, p, q, ids, index, add) else im[i]
  }

  function LinkServices(ss: map<Id, Service>, ids: set<Id>, pid: Id, add: bool): (r: map<Id, Service>)
    ensures r.Keys == ss.Keys
    ensures forall s :: s in r ==> r[s] == if s in ids then ss[s].(policies := Amend(ss[s].policies, {pid}, add)) else ss[s]
  {
    map s | s in ss :: if s in ids then ss[s].(policies := Amend(ss[s].policies, {pid}, add)) else ss[s]
  }

  function ServicesAmended(p: Policy, index: nat, ids: seq<Id>, add: bool): Policy {
    p.(services := Amend(p.services, Elems(ids), add), servicesIndex := index)
  }

  function FollowChecksEach(im: map<Id, Identity>, pid: Id, p: Policy, ids: seq<Id>, index: nat, add: bool): (r: map<Id, Identity>)
    ensures r.Keys == im.Keys
    ensures forall i :: i in r ==>
      r[i] == if p.services != {} && i in p.identities then ChecksChanged(im[i], pid, p, ids, index, add) else im[i]
  {
    map i | i in im :: if p.services != {} && i in p.identities then ChecksChanged(im[i], pid, p, ids, index, add) else im[i]
  }

  function LinkChecks(cs: map<Id, Check>, ids: set<Id>, pid: Id, add: bool): (r: map<Id, Check>)
    ensures r.Keys == cs.Keys
    ensures forall c :: c in r ==> r[c] == if c in ids then cs[c].(policies := Amend(cs[c].policies, {pid}, add)) else cs[c]
  {
    map c | c in cs :: if c in ids then cs[c].(policies := Amend(cs[c].policies, {pid}, add)) else cs[c]
  }

  // The policy's own side of a change. Identities that are not known are
  // passed over.
  function ChangedPolicy(p: Policy, live: set<Id>, index: nat, c: PolicyChange): Policy {
    match c.relatedType
    case RelatedIdentity => p.(identities := Amend(p.identities, Elems(c.relatedIds) * live, c.add))
    case RelatedService => ServicesAmended(p, index, c.relatedIds, c.add)
    case RelatedPostureCheck => p.(checks := Amend(p.checks, Elems(c.relatedIds), c.add), checksIndex := index)
    case InvalidRelatedType => p
  }

  // The identities' side: their memberships and use counts.
  function ChangedIdentities(im: map<Id, Identity>, p: Policy, index: nat, c: PolicyChange): (r: map<Id, Identity>)
    ensures r.Keys == im.Keys
  {
    match c.relatedType
    case RelatedIdentity => JoinEach(im, Elems(c.relatedIds) * im.Keys, c.policyId, p, index, c.add)
    case RelatedService =>
      FollowServicesEach(im, c.policyId, p, ServicesAmended(p, index, c.relatedIds, c.add), c.relatedIds, index, c.add)
    case RelatedPostureCheck => FollowChecksEach(im, c.policyId, p, c.relatedIds, index, c.add)
    case InvalidRelatedType => im
  }

  function HandlePolicyChange(m: Model, index: nat, c: PolicyChange): Model {
    if c.policyId !in m.policies then m
    else
      var p := m.policies[c.policyId];
      m.(identities := ChangedIdentities(m.identities, p, index, c),
         services := if c.relatedType.RelatedService? then LinkServices(m.services, Elems(c.relatedIds), c.policyId, c.add) else m.services,
         checks := if c.relatedType.RelatedPostureCheck? then LinkChecks(m.checks, Elems(c.relatedIds), c.policyId, c.add) else m.checks,
         policies := m.policies[c.policyId := ChangedPolicy(p, m.identities.Keys, index, c)])
  }

  /* ---- service policies ---- */

  function FlipEach(im: map<Id, Identity>, pid: Id, p: Policy, q: Policy, index: nat): (r: map<Id, Identity>)
    ensures r.Keys == im.Keys
    ensures forall i :: i in r ==>
      r[i] == if i in p.identities then JoinPolicy(JoinPolicy(im[i], pid, p, index, false), pid, q, index, true) else im[i]
  {
    map i | i in im :: if i in p.identities then JoinPolicy(JoinPolicy(im[i], pid, p, index, false), pid, q, index, true) else im[i]
  }

  // A policy keeps its members when its data changes, but not the index of
  // its last posture check change.
  function NextPolicy(ps: map<Id, Policy>, index: nat, pid: Id, d: PolicyData): Policy {
    if pid in ps then ps[pid].(data := d, servicesIndex := index, checksIndex := 0) else Policy(d, {}, {}, {}, index, 0)
  }

  predicate Flips(ps: map<Id, Policy>, pid: Id, d: PolicyData) {
    pid in ps && ps[pid].data.policyType != d.policyType
  }

  function UpsertPolicy(m: Model, index: nat, pid: Id, d: PolicyData): Model {
    m.(policies := m.policies[pid := NextPolicy(m.policies, index, pid, d)],
       identities := if Flips(m.policies, pid, d)
                     then FlipEach(m.identities, pid, m.policies[pid], NextPolicy(m.policies, index, pid, d), index)
                     else m.identities)
  }

  function DeletePolicy(m: Model, index: nat, pid: Id): Model {
    m.(policies := m.policies - {pid},
       identities := if pid in m.policies
                     then JoinEach(m.identities, m.policies[pid].identities, pid, m.policies[pid], index, false)
                     else m.identities)
  }

  /* ---- identities ---- */

  function Relink(cs: map<Id, Config>, id: Id, drop: set<Id>, add: set<Id>): (r: map<Id, Config>)
    ensures r.Keys == cs.Keys
    ensures forall c :: c in r ==>
      r[c] == cs[c].(identities := if c in add then cs[c].identities + {id}
                                   else if c in drop then cs[c].identities - {id}
                                   else cs[c].identities)
  {
    map c | c in cs :: cs[c].(identities := if c in add then cs[c].identities + {id}
                                            else if c in drop then cs[c].identities - {id}
                                            else cs[c].identities)
  }

  function ConfigsOf(m: Model, id: Id): set<Id> {
    if id in m.identities then ReferencedConfigs(m.identities[id].data) else {}
  }

  function UpsertIdentity(m: Model, index: nat, id: Id, d: IdentityData): Model {
    m.(configs := Relink(m.configs, id, ConfigsOf(m, id), ReferencedConfigs(d)),
       identities := m.identities[id :=
         if id in m.identities then m.identities[id].(data := d, index := index)
         else Identity(d, {}, map[], map[], index, false)])
  }

  // Deletes first detach the entity from every policy that still lists it, one
  // service policy change each.
  function Detach(kind: RelatedType, index: nat, id: Id): (Id, Model) -> Model {
    (pid, m) => HandlePolicyChange(m, index, PolicyChange(pid, [id], kind, false))
  }

  function PoliciesListingIdentity(m: Model, id: Id): set<Id> {
    if id !in m.identities then {}
    else set p | p in m.identities[id].policies && p in m.policies && id in m.policies[p].identities
  }

  ghost function DeleteIdentity(m: Model, index: nat, id: Id): Model {
    var n := m.(configs := Relink(m.configs, id, ConfigsOf(m, id), {}));
    var o := Fold(Detach(RelatedIdentity, index, id), PoliciesListingIdentity(n, id), n);
    o.(identities := o.identities - {id})
  }

  /* ---- services ---- */

  function PoliciesListingService(m: Model, id: Id): set<Id> {
    if id !in m.services then {}
    else set p | p in m.services[id].policies && p in m.policies && id in m.policies[p].services
  }

  // Only the entry that still points at the service is dropped.
  function Unname(names: map<string, Id>, name: string, id: Id): map<string, Id> {
    if name != "" && name in names && names[name] == id then names - {name} else names
  }

  function RelinkServices(cs: map<Id, Config>, id: Id, drop: set<Id>, add: set<Id>): (r: map<Id, Config>)
    ensures r.Keys == cs.Keys
    ensures forall c :: c in r ==>
      r[c] == cs[c].(services := if c in add then cs[c].services + {id}
                                 else if c in drop then cs[c].services - {id}
                                 else cs[c].services)
  {
    map c | c in cs :: cs[c].(services := if c in add then cs[c].services + {id}
                                          else if c in drop then cs[c].services - {id}
                                          else cs[c].services)
  }

  ghost function DeleteService(m: Model, index: nat, id: Id): Model {
    if id !in m.services then m
    else
      var s := m.services[id];
      var n := m.(services := m.services - {id},
                  configs := RelinkServices(m.configs, id, Elems(s.data.configs), {}),
                  names := Unname(m.names, s.data.name, id));
      Fold(Detach(RelatedService, index, id), PoliciesListingService(m, id), n)
  }

  function BumpServices(ps: map<Id, Policy>, hit: set<Id>, index: nat): (r: map<Id, Policy>)
    ensures r.Keys == ps.Keys
    ensures forall p :: p in r ==> r[p] == if p in hit then ps[p].(servicesIndex := Max(ps[p].servicesIndex, index)) else ps[p]
  {
    map p | p in ps :: if p in hit then ps[p].(servicesIndex := Max(ps[p].servicesIndex, index)) else ps[p]
  }

  function Surplus(a: seq<Id>, b: seq<Id>): set<Id> {
    set x | x in a && multiset(a)[x] > multiset(b)[x]
  }

  // An update sorts the config list in place; a create keeps the order it came in.
  function NextService(ss: map<Id, Service>, index: nat, id: Id, d: ServiceData): Service {
    if id in ss then Service(d.(configs := Sort(d.configs)), ss[id].policies, index) else Service(d, {}, index)
  }

  function DroppedConfigs(ss: map<Id, Service>, id: Id, d: ServiceData): set<Id> {
    if id in ss then Surplus(ss[id].data.configs, d.configs) else {}
  }

  function AddedConfigs(ss: map<Id, Service>, id: Id, d: ServiceData): set<Id> {
    if id in ss then Surplus(d.configs, ss[id].data.configs) else Elems(d.configs)
  }

  function Rename(names: map<string, Id>, ss: map<Id, Service>, id: Id, name: string): map<string, Id> {
    (if id in ss && ss[id].data.name != name then Unname(names, ss[id].data.name, id) else names)[name := id]
  }

  function PoliciesOf(ss: map<Id, Service>, id: Id): set<Id> {
    if id in ss then ss[id].policies else {}
  }

  function UpsertService(m: Model, index: nat, id: Id, d: ServiceData): Model {
    m.(services := m.services[id := NextService(m.services, index, id, d)],
       configs := RelinkServices(m.configs, id, DroppedConfigs(m.services, id, d), AddedConfigs(m.services, id, d)),
       names := Rename(m.names, m.services, id, d.name),
       policies := BumpServices(m.policies, PoliciesOf(m.services, id), index))
  }

  /* ---- configs and config types ---- */

  function RefreshServices(ss: map<Id, Service>, hit: set<Id>, index: nat): (r: map<Id, Service>)
    ensures r.Keys == ss.Keys
    ensures forall s :: s in r ==> r[s] == if s in hit then ss[s].(index := Max(ss[s].index, index)) else ss[s]
  {
    map s | s in ss :: if s in hit then ss[s].(index := Max(ss[s].index, index)) else ss[s]
  }

  function PoliciesOfServices(ss: map<Id, Service>, hit: set<Id>): set<Id> {
    set s, p | s in hit && s in ss && p in ss[s].policies :: p
  }

  function ServicesOfType(m: Model, typeId: Id): set<Id> {
    set c, s | c in m.configs && m.configs[c].data.typeId == typeId && s in m.configs[c].services :: s
  }

  // Deleting a config type notifies nobody.
  function HandleConfigType(m: Model, index: nat, a: Action, id: Id, d: ConfigTypeData): Model {
    var hit := if a.Delete? then {} else ServicesOfType(m, id);
    m.(configTypes := if a.Delete? then m.configTypes - {id} else m.configTypes[id := ConfigType(d, index)],
       services := RefreshServices(m.services, hit, index),
       policies := BumpServices(m.policies, PoliciesOfServices(m.services, hit), index))
  }

  function WithoutConfig(configs: map<Id, Id>, id: Id): map<Id, Id> {
    map t | t in configs && configs[t] != id :: configs[t]
  }

  // The overrides that named the config go, and with them any service left
  // with no override.
  function ClearConfig(d: IdentityData, id: Id): IdentityData {
    d.(serviceConfigs := map s | s in d.serviceConfigs && WithoutConfig(d.serviceConfigs[s], id) != map[]
                           :: WithoutConfig(d.serviceConfigs[s], id))
  }

  function ClearConfigEach(im: map<Id, Identity>, hit: set<Id>, id: Id): (r: map<Id, Identity>)
    ensures r.Keys == im.Keys
    ensures forall i :: i in r ==> r[i] == if i in hit then im[i].(data := ClearConfig(im[i].data, id)) else im[i]
  {
    map i | i in im :: if i in hit then im[i].(data := ClearConfig(im[i].data, id)) else im[i]
  }

  // A changed config keeps what refers to it.
  function NextConfig(cs: map<Id, Config>, index: nat, id: Id, d: ConfigData): Config {
    if id in cs then cs[id].(data := d, index := index) else Config(d, {}, {}, index)
  }

  function ServicesUsing(cs: map<Id, Config>, id: Id): set<Id> {
    if id in cs then cs[id].services else {}
  }

  function IdentitiesUsing(cs: map<Id, Config>, id: Id): set<Id> {
    if id in cs then cs[id].identities else {}
  }

  function DeleteConfig(m: Model, index: nat, id: Id): Model {
    var hit := ServicesUsing(m.configs, id);
    m.(configs := m.configs - {id},
       services := RefreshServices(m.services, hit, index),
       policies := BumpServices(m.policies, PoliciesOfServices(m.services, hit), index),
       identities := ClearConfigEach(m.identities, IdentitiesUsing(m.configs, id), id))
  }

  // Only a config that really changed concerns its services.
  function ServicesChangedBy(cs: map<Id, Config>, id: Id, d: ConfigData): set<Id> {
    if id in cs && cs[id].data != d then cs[id].services else {}
  }

  function UpsertConfig(m: Model, index: nat, id: Id, d: ConfigData): Model {
    var hit := ServicesChangedBy(m.configs, id, d);
    m.(configs := m.configs[id := NextConfig(m.configs, index, id, d)],
       services := RefreshServices(m.services, hit, index),
       policies := BumpServices(m.policies, PoliciesOfServices(m.services, hit), index))
  }

  /* ---- posture checks ---- */

  function PoliciesListingCheck(m: Model, id: Id): set<Id> {
    if id !in m.checks then {}
    else set p | p in m.checks[id].policies && p in m.policies && id in m.policies[p].checks
  }

  ghost function DeleteCheck(m: Model, index: nat, id: Id): Model {
    var n := Fold(Detach(RelatedPostureCheck, index, id), PoliciesListingCheck(m, id), m);
    n.(checks := n.checks - {id})
  }

  function BumpChecks(ps: map<Id, Policy>, hit: set<Id>, index: nat): (r: map<Id, Policy>)
    ensures r.Keys == ps.Keys
    ensures forall p :: p in r ==> r[p] == if p in hit then ps[p].(checksIndex := Max(ps[p].checksIndex, index)) else ps[p]
  {
    map p | p in ps :: if p in hit then ps[p].(checksIndex := Max(ps[p].checksIndex, index)) else ps[p]
  }

  function PoliciesOfCheck(cs: map<Id, Check>, id: Id): set<Id> {
    if id in cs then cs[id].policies else {}
  }

  function UpsertCheck(m: Model, index: nat, id: Id, d: CheckData): Model {
    m.(checks := m.checks[id := Check(d, PoliciesOfCheck(m.checks, id), index)],
       policies := BumpChecks(m.policies, PoliciesOfCheck(m.checks, id), index))
  }

  /* ---- routers ---- */

  // When the local router's config list shrinks, the configs it no longer
  // names are collected. Deleting the local router collects nothing.
  function Collected(m: Model, a: Action, id: Id, d: RouterData): set<Id> {
    if !a.Delete? && m.selfId != "" && id == m.selfId && id in m.routers
    then Elems(m.routers[id].configs) - Elems(d.configs) else {}
  }

  function HandleRouter(m: Model, a: Action, id: Id, d: RouterData): Model {
    m.(routers := if a.Delete? then m.routers - {id} else m.routers[id := d],
       configs := m.configs - Collected(m, a, id, d))
  }

  /* ---- service access tracking ---- */

  // One policy's contribution when access is rebuilt from scratch.
  function RecordPolicy(acc: map<Id, Access>, p: Policy): (r: map<Id, Access>)
    ensures r.Keys == acc.Keys + p.services
    ensures forall s :: s in r ==>
      r[s] == if s in p.services
              then CurrentAccess(acc, s).UpdatePolicies(p.data.policyType, Max(p.checksIndex, p.servicesIndex), true)
              else acc[s]
  {
    map s | s in acc.Keys + p.services ::
      if s in p.services
      then CurrentAccess(acc, s).UpdatePolicies(p.data.policyType, Max(p.checksIndex, p.servicesIndex), true)
      else acc[s]
  }

  function Recorder(ps: map<Id, Policy>): (Id, map<Id, Access>) -> map<Id, Access> {
    (p, acc) => if p in ps then RecordPolicy(acc, ps[p]) else acc
  }

  ghost function BuildAccess(ps: map<Id, Policy>, mine: set<Id>): map<Id, Access> {
    Fold(Recorder(ps), mine, map[])
  }

  ghost function Tracking(i: Identity, ps: map<Id, Policy>): Identity {
    if i.tracking then i else i.(tracking := true, access := BuildAccess(ps, i.policies))
  }

  ghost function EnableTracking(m: Model, id: Id): Model {
    m.(identities := if id in m.identities then m.identities[id := Tracking(m.identities[id], m.policies)] else m.identities)
  }

  function Untracked(i: Identity): Identity {
    if i.tracking then i.(tracking := false, access := map[]) else i
  }

  function DisableTracking(m: Model, id: Id): Model {
    m.(identities := if id in m.identities then m.identities[id := Untracked(m.identities[id])] else m.identities)
  }

  /* ---- dispatch ---- */

  ghost function Handle(m: Model, index: nat, e: Event): Model {
    match e
    case ConfigTypeEvent(a, id, d) => HandleConfigType(m, index, a, id, d)
    case ConfigEvent(a, id, d) => if a.Delete? then DeleteConfig(m, index, id) else UpsertConfig(m, index, id, d)
    case IdentityEvent(a, id, d) => if a.Delete? then DeleteIdentity(m, index, id) else UpsertIdentity(m, index, id, d)
    case ServiceEvent(a, id, d) => if a.Delete? then DeleteService(m, index, id) else UpsertService(m, index, id, d)
    case RouterEvent(a, id, d) => HandleRouter(m, a, id, d)
    case PolicyEvent(a, id, d) => if a.Delete? then DeletePolicy(m, index, id) else UpsertPolicy(m, index, id, d)
    case CheckEvent(a, id, d) => if a.Delete? then DeleteCheck(m, index, id) else UpsertCheck(m, index, id, d)
    case KeyEvent(a, id, d) => m.(keys := if a.Delete? then m.keys - {id} else m.keys[id := d])
    case RevocationEvent(a, id, d) => m.(revocations := if a.Delete? then m.revocations - {id} else m.revocations[id := d])
    case PolicyChangeEvent(c) => HandlePolicyChange(m, index, c)
  }

  ghost function HandleAll(m: Model, index: nat, es: seq<Event>): Model {
    if es == [] then m else Handle(HandleAll(m, index, es[..|es| - 1]), index, es[|es| - 1])
  }
}
