// The controller-side data model: what each event does to it, and that on
// streams that detach before deleting it agrees with the reference meaning.
module SenderSpec {
  import opened DataState
  import opened RelationalView

  // A map entry can hold no identity at all: a membership change for an
  // unknown identity files an empty entry.
  datatype SenderEntry = NoIdentity | SenderIdentity(data: IdentityData, policies: set<Id>)

  datatype SenderPolicy = SenderPolicy(data: PolicyData, services: set<Id>, checks: set<Id>)

  datatype Sender = Sender(
    configTypes: map<Id, ConfigTypeData>,
    configs: map<Id, ConfigData>,
    identities: map<Id, SenderEntry>,
    services: map<Id, ServiceData>,
    routers: map<Id, RouterData>,
    policies: map<Id, SenderPolicy>,
    checks: map<Id, CheckData>,
    keys: map<Id, KeyData>,
    revocations: map<Id, RevocationData>)

  const EMPTY_SENDER := Sender(map[], map[], map[], map[], map[], map[], map[], map[], map[])

  function Amend(members: set<Id>, ids: set<Id>, add: bool): set<Id> {
    if add then members + ids else members - ids
  }

  function Upserted(entries: map<Id, SenderEntry>, id: Id, d: IdentityData): SenderEntry {
    if id in entries && entries[id].SenderIdentity? then entries[id].(data := d) else SenderIdentity(d, {})
  }

  function EntryAfter(entries: map<Id, SenderEntry>, i: Id, pid: Id, add: bool): SenderEntry {
    if i in entries && entries[i].SenderIdentity?
    then entries[i].(policies := Amend(entries[i].policies, {pid}, add))
    else NoIdentity
  }

  function ChangeEntries(entries: map<Id, SenderEntry>, ids: set<Id>, pid: Id, add: bool): (r: map<Id, SenderEntry>)
    ensures r.Keys == entries.Keys + ids
    ensures forall i :: i in r ==> r[i] == if i in ids then EntryAfter(entries, i, pid, add) else entries[i]
  {
    map i | i in entries.Keys + ids :: if i in ids then EntryAfter(entries, i, pid, add) else entries[i]
  }

  function ChangedEntries(entries: map<Id, SenderEntry>, c: PolicyChange): map<Id, SenderEntry> {
    if c.relatedType.RelatedIdentity? then ChangeEntries(entries, Elems(c.relatedIds), c.policyId, c.add) else entries
  }

  function ChangedPolicy(p: SenderPolicy, c: PolicyChange): SenderPolicy {
    match c.relatedType
    case RelatedService => p.(services := Amend(p.services, Elems(c.relatedIds), c.add))
    case RelatedPostureCheck => p.(checks := Amend(p.checks, Elems(c.relatedIds), c.add))
    case _ => p
  }

  function ChangedPolicies(ps: map<Id, SenderPolicy>, c: PolicyChange): map<Id, SenderPolicy> {
    if c.policyId in ps then ps[c.policyId := ChangedPolicy(ps[c.policyId], c)] else ps
  }

  function HandleChange(s: Sender, c: PolicyChange): Sender {
    s.(identities := ChangedEntries(s.identities, c), policies := ChangedPolicies(s.policies, c))
  }

  function DropService(ps: map<Id, SenderPolicy>, id: Id): (r: map<Id, SenderPolicy>)
    ensures r.Keys == ps.Keys
    ensures forall p :: p in r ==> r[p] == ps[p].(services := ps[p].services - {id})
  {
    map p | p in ps :: ps[p].(services := ps[p].services - {id})
  }

  function Handle(s: Sender, e: Event): Sender {
    match e
    case ConfigTypeEvent(a, id, d) =>
      s.(configTypes := if a.Delete? then s.configTypes - {id} else s.configTypes[id := d])
    case ConfigEvent(a, id, d) =>
      s.(configs := if a.Delete? then s.configs - {id} else s.configs[id := d])
    case IdentityEvent(a, id, d) =>
      s.(identities := if a.Delete? then s.identities - {id} else s.identities[id := Upserted(s.identities, id, d)])
    case ServiceEvent(a, id, d) =>
      s.(services := if a.Delete? then s.services - {id} else s.services[id := d],
         policies := if a.Delete? then DropService(s.policies, id) else s.policies)
    case RouterEvent(a, id, d) =>
      s.(routers := if a.Delete? then s.routers - {id} else s.routers[id := d])
    case PolicyEvent(a, id, d) =>
      s.(policies := if a.Delete? then s.policies - {id}
                     else s.policies[id := if id in s.policies then s.policies[id].(data := d) else SenderPolicy(d, {}, {})])
    case CheckEvent(a, id, d) =>
      s.(checks := if a.Delete? then s.checks - {id} else s.checks[id := d])
    case KeyEvent(a, id, d) =>
      s.(keys := if a.Delete? then s.keys - {id} else s.keys[id := d])
    case RevocationEvent(a, id, d) =>
      s.(revocations := if a.Delete? then s.revocations - {id} else s.revocations[id := d])
    case PolicyChangeEvent(c) => HandleChange(s, c)
  }

  function HandleAll(s: Sender, es: seq<Event>): Sender {
    if es == [] then s else Handle(HandleAll(s, es[..|es| - 1]), es[|es| - 1])
  }

  /* ---- relational content ---- */

  function IdentityDatas(entries: map<Id, SenderEntry>): (r: map<Id, IdentityData>)
    ensures forall i :: i in r <==> i in entries && entries[i].SenderIdentity?
    ensures forall i :: i in r ==> r[i] == entries[i].data
  {
    map i | i in entries && entries[i].SenderIdentity? :: entries[i].data
  }

  function ServiceViews(ss: map<Id, ServiceData>): (r: map<Id, ServiceView>)
    ensures r.Keys == ss.Keys && forall s :: s in r ==> r[s] == ViewOfService(ss[s])
  {
    map s | s in ss :: ViewOfService(ss[s])
  }

  function MembersOf(entries: map<Id, SenderEntry>, pid: Id): set<Id> {
    set i | i in entries && entries[i].SenderIdentity? && pid in entries[i].policies
  }

  function PolicyViews(ps: map<Id, SenderPolicy>, entries: map<Id, SenderEntry>): (r: map<Id, PolicyView>)
    ensures r.Keys == ps.Keys
    ensures forall p :: p in r ==> r[p] == PolicyView(ps[p].data, ps[p].services, ps[p].checks, MembersOf(entries, p))
  {
    map p | p in ps :: PolicyView(ps[p].data, ps[p].services, ps[p].checks, MembersOf(entries, p))
  }

  function ViewOf(s: Sender): View {
    View(s.configTypes, s.configs, IdentityDatas(s.identities), ServiceViews(s.services), s.routers,
         PolicyViews(s.policies, s.identities), s.checks, s.keys, s.revocations)
  }

  predicate LiveEntry(ps: map<Id, SenderPolicy>, entry: SenderEntry) {
    entry.SenderIdentity? && forall p :: p in entry.policies ==> p in ps
  }

  ghost predicate AllLive(entries: map<Id, SenderEntry>, ps: map<Id, SenderPolicy>) {
    forall i :: i in entries ==> LiveEntry(ps, entries[i])
  }

  // No empty entries, and identities are members of live policies only.
  ghost predicate Inv(s: Sender) {
    AllLive(s.identities, s.policies)
  }

  lemma HandleKeepsInv(s: Sender, e: Event)
    requires Inv(s) && WellFormed(ViewOf(s), e) && Detaches(ViewOf(s), e)
    ensures Inv(Handle(s, e))
  {
    match e
    case ConfigTypeEvent(a, id, d) =>
    case ConfigEvent(a, id, d) =>
    case IdentityEvent(a, id, d) => IdentityKeepsInv(s, a, id, d);
    case ServiceEvent(a, id, d) => assert Handle(s, e).policies.Keys == s.policies.Keys;
    case RouterEvent(a, id, d) =>
    case PolicyEvent(a, id, d) => PolicyKeepsInv(s, a, id, d);
    case CheckEvent(a, id, d) =>
    case KeyEvent(a, id, d) =>
    case RevocationEvent(a, id, d) =>
    case PolicyChangeEvent(c) => ChangeKeepsInv(s, c);
  }

  lemma IdentityKeepsInv(s: Sender, a: Action, id: Id, d: IdentityData)
    requires Inv(s)
    ensures Inv(Handle(s, IdentityEvent(a, id, d)))
  {
    assert LiveEntry(s.policies, Upserted(s.identities, id, d));
  }

  lemma PolicyKeepsInv(s: Sender, a: Action, id: Id, d: PolicyData)
    requires Inv(s) && Detaches(ViewOf(s), PolicyEvent(a, id, d))
    ensures Inv(Handle(s, PolicyEvent(a, id, d)))
  {
    if a.Delete? && id in s.policies {
      assert ViewOf(s).policies[id].identities == {};
      NoMembersNoPolicy(s.identities, id);
    }
  }

  lemma NoMembersNoPolicy(entries: map<Id, SenderEntry>, pid: Id)
    requires MembersOf(entries, pid) == {}
    ensures forall i :: i in entries && entries[i].SenderIdentity? ==> pid !in entries[i].policies
  {
    forall i | i in entries && entries[i].SenderIdentity?
      ensures pid !in entries[i].policies
    {
      assert i !in MembersOf(entries, pid);
    }
  }

  lemma ChangeKeepsLive(entries: map<Id, SenderEntry>, ps: map<Id, SenderPolicy>, ids: set<Id>, pid: Id, add: bool)
    requires AllLive(entries, ps) && ids <= entries.Keys && pid in ps
    ensures AllLive(ChangeEntries(entries, ids, pid, add), ps)
  {
    forall i | i in entries
      ensures LiveEntry(ps, ChangeEntries(entries, ids, pid, add)[i])
    {
      assert LiveEntry(ps, entries[i]);
    }
  }

  lemma SamePoliciesSameLive(entries: map<Id, SenderEntry>, ps: map<Id, SenderPolicy>, qs: map<Id, SenderPolicy>)
    requires AllLive(entries, ps) && ps.Keys == qs.Keys
    ensures AllLive(entries, qs)
  {
    forall i | i in entries
      ensures LiveEntry(qs, entries[i])
    {
      assert LiveEntry(ps, entries[i]);
    }
  }

  lemma ChangeKeepsInv(s: Sender, c: PolicyChange)
    requires Inv(s) && WellFormedChange(ViewOf(s), c)
    ensures Inv(HandleChange(s, c))
  {
    if c.relatedType.RelatedIdentity? {
      AllKnown(s.identities, s.policies);
      ChangeKeepsLive(s.identities, s.policies, Elems(c.relatedIds), c.policyId, c.add);
    }
    SamePoliciesSameLive(ChangedEntries(s.identities, c), s.policies, ChangedPolicies(s.policies, c));
  }

  lemma AllKnown(entries: map<Id, SenderEntry>, ps: map<Id, SenderPolicy>)
    requires AllLive(entries, ps)
    ensures IdentityDatas(entries).Keys == entries.Keys
  {
    forall i | i in entries
      ensures i in IdentityDatas(entries)
    {
      assert LiveEntry(ps, entries[i]);
    }
  }

  lemma ChangeEntriesViews(entries: map<Id, SenderEntry>, ids: set<Id>, pid: Id, add: bool)
    requires ids <= entries.Keys
    requires forall i :: i in entries ==> entries[i].SenderIdentity?
    ensures IdentityDatas(ChangeEntries(entries, ids, pid, add)) == IdentityDatas(entries)
    ensures MembersOf(ChangeEntries(entries, ids, pid, add), pid) == Amend(MembersOf(entries, pid), ids, add)
    ensures forall p :: p != pid ==> MembersOf(ChangeEntries(entries, ids, pid, add), p) == MembersOf(entries, p)
  {
  }

  lemma MembershipRefines(s: Sender, c: PolicyChange)
    requires Inv(s) && WellFormedChange(ViewOf(s), c) && c.relatedType.RelatedIdentity?
    ensures ViewOf(HandleChange(s, c)) == Step(ViewOf(s), PolicyChangeEvent(c))
  {
    var ids := Elems(c.relatedIds);
    var t := ChangeEntries(s.identities, ids, c.policyId, c.add);
    AllKnown(s.identities, s.policies);
    assert ids * s.identities.Keys == ids;
    ChangeEntriesViews(s.identities, ids, c.policyId, c.add);
    SetMembers(s.policies, s.identities, t, c.policyId);
    assert ChangedPolicies(s.policies, c) == s.policies;
  }

  lemma SetMembers(ps: map<Id, SenderPolicy>, entries: map<Id, SenderEntry>, t: map<Id, SenderEntry>, pid: Id)
    requires pid in ps
    requires forall p :: p != pid ==> MembersOf(t, p) == MembersOf(entries, p)
    ensures PolicyViews(ps, t) == PolicyViews(ps, entries)[pid := PolicyViews(ps, entries)[pid].(identities := MembersOf(t, pid))]
  {
  }

  lemma SetPolicyView(ps: map<Id, SenderPolicy>, entries: map<Id, SenderEntry>, pid: Id, p: SenderPolicy)
    ensures PolicyViews(ps[pid := p], entries) ==
            PolicyViews(ps, entries)[pid := PolicyView(p.data, p.services, p.checks, MembersOf(entries, pid))]
    ensures PolicyViews(ps - {pid}, entries) == PolicyViews(ps, entries) - {pid}
  {
  }

  lemma ChangeRefines(s: Sender, c: PolicyChange)
    requires Inv(s) && WellFormedChange(ViewOf(s), c)
    ensures ViewOf(HandleChange(s, c)) == Step(ViewOf(s), PolicyChangeEvent(c))
  {
    if c.relatedType.RelatedIdentity? {
      MembershipRefines(s, c);
    } else {
      SetPolicyView(s.policies, s.identities, c.policyId, ChangedPolicy(s.policies[c.policyId], c));
    }
  }

  lemma SetEntryViews(entries: map<Id, SenderEntry>, id: Id, d: IdentityData)
    ensures var next := Upserted(entries, id, d);
            && IdentityDatas(entries[id := next]) == IdentityDatas(entries)[id := d]
            && forall p :: MembersOf(entries[id := next], p) == MembersOf(entries, p)
    ensures IdentityDatas(entries - {id}) == IdentityDatas(entries) - {id}
    ensures forall p :: MembersOf(entries - {id}, p) == MembersOf(entries, p) - {id}
  {
  }

  lemma IdentityRefines(s: Sender, a: Action, id: Id, d: IdentityData)
    ensures ViewOf(Handle(s, IdentityEvent(a, id, d))) == Step(ViewOf(s), IdentityEvent(a, id, d))
  {
    SetEntryViews(s.identities, id, d);
    var t := Handle(s, IdentityEvent(a, id, d));
    if a.Delete? {
      assert PolicyViews(s.policies, t.identities) == WithoutIdentity(PolicyViews(s.policies, s.identities), id);
    } else {
      assert PolicyViews(s.policies, t.identities) == PolicyViews(s.policies, s.identities);
    }
  }

  lemma PolicyRefines(s: Sender, a: Action, id: Id, d: PolicyData)
    requires Inv(s)
    ensures ViewOf(Handle(s, PolicyEvent(a, id, d))) == Step(ViewOf(s), PolicyEvent(a, id, d))
  {
    if id !in s.policies {
      assert MembersOf(s.identities, id) == {};
    }
    SetPolicyView(s.policies, s.identities, id, if id in s.policies then s.policies[id].(data := d) else SenderPolicy(d, {}, {}));
  }

  lemma DropServiceViews(s: Sender, id: Id)
    ensures ServiceViews(s.services - {id}) == ServiceViews(s.services) - {id}
    ensures PolicyViews(DropService(s.policies, id), s.identities) == WithoutService(PolicyViews(s.policies, s.identities), id)
  {
  }

  lemma ServiceRefines(s: Sender, a: Action, id: Id, d: ServiceData)
    ensures ViewOf(Handle(s, ServiceEvent(a, id, d))) == Step(ViewOf(s), ServiceEvent(a, id, d))
  {
    if a.Delete? {
      DropServiceViews(s, id);
    } else {
      assert ServiceViews(s.services[id := d]) == ServiceViews(s.services)[id := ViewOfService(d)];
    }
  }

  lemma CheckRefines(s: Sender, a: Action, id: Id, d: CheckData)
    requires Detaches(ViewOf(s), CheckEvent(a, id, d))
    ensures ViewOf(Handle(s, CheckEvent(a, id, d))) == Step(ViewOf(s), CheckEvent(a, id, d))
  {
    var e := CheckEvent(a, id, d);
    forall p | a.Delete? && p in s.policies
      ensures s.policies[p].checks - {id} == s.policies[p].checks
    {
      assert p in ViewOf(s).policies;
    }
    assert ViewOf(Handle(s, e)).policies == Step(ViewOf(s), e).policies;
  }

  lemma HandleRefines(s: Sender, e: Event)
    requires Inv(s) && WellFormed(ViewOf(s), e) && Detaches(ViewOf(s), e)
    ensures ViewOf(Handle(s, e)) == Step(ViewOf(s), e)
  {
    match e
    case ConfigTypeEvent(a, id, d) =>
    case ConfigEvent(a, id, d) =>
    case IdentityEvent(a, id, d) => IdentityRefines(s, a, id, d);
    case ServiceEvent(a, id, d) => ServiceRefines(s, a, id, d);
    case RouterEvent(a, id, d) =>
    case PolicyEvent(a, id, d) => PolicyRefines(s, a, id, d);
    case CheckEvent(a, id, d) => CheckRefines(s, a, id, d);
    case KeyEvent(a, id, d) =>
    case RevocationEvent(a, id, d) =>
    case PolicyChangeEvent(c) => ChangeRefines(s, c);
  }

  lemma {:induction false} RunRefines(s: Sender, es: seq<Event>)
    requires Inv(s) && WellFormedRun(ViewOf(s), es) && DetachingRun(ViewOf(s), es)
    ensures Inv(HandleAll(s, es)) && ViewOf(HandleAll(s, es)) == Run(ViewOf(s), es)
  {
    if es != [] {
      var init, last := es[..|es| - 1], es[|es| - 1];
      RunRefines(s, init);
      HandleKeepsInv(HandleAll(s, init), last);
      HandleRefines(HandleAll(s, init), last);
    }
  }

  /* ---- what happens without detaching ---- */

  lemma ReusedPolicyViews(s: Sender, pid: Id, d: PolicyData)
    ensures var t := Handle(Handle(s, PolicyEvent(Delete, pid, d)), PolicyEvent(Create, pid, d));
            ViewOf(t) == ViewOf(s).(policies := (ViewOf(s).policies - {pid})[pid := PolicyView(d, {}, {}, MembersOf(s.identities, pid))])
  {
    SetPolicyView(s.policies, s.identities, pid, SenderPolicy(d, {}, {}));
    SetPolicyView(s.policies - {pid}, s.identities, pid, SenderPolicy(d, {}, {}));
  }

  // Deleting a policy leaves memberships behind on the sender; they come back
  // to life if the policy id is reused. They are gone for good exactly when
  // the policy had no identities.
  lemma PolicyReuseAgreesIff(s: Sender, pid: Id, d: PolicyData)
    requires Inv(s) && pid in s.policies
    ensures var del, create := PolicyEvent(Delete, pid, d), PolicyEvent(Create, pid, d);
            (ViewOf(Handle(Handle(s, del), create)) == Step(Step(ViewOf(s), del), create)) <==>
            (ViewOf(s).policies[pid].identities == {})
  {
    var v := ViewOf(s);
    ReusedPolicyViews(s, pid, d);
    var stale, clean := PolicyView(d, {}, {}, MembersOf(s.identities, pid)), PolicyView(d, {}, {}, {});
    assert (v.policies - {pid})[pid := stale][pid] == stale && (v.policies - {pid})[pid := clean][pid] == clean;
  }

  lemma PolicyReuseExample(d: PolicyData, i: IdentityData)
    ensures var s := EMPTY_SENDER.(policies := map["p" := SenderPolicy(d, {}, {})], identities := map["i" := SenderIdentity(i, {"p"})]);
            var del, create := PolicyEvent(Delete, "p", d), PolicyEvent(Create, "p", d);
            && Inv(s)
            && ViewOf(Handle(Handle(s, del), create)).policies["p"].identities == {"i"}
            && Step(Step(ViewOf(s), del), create).policies["p"].identities == {}
  {
    assert MembersOf(map["i" := SenderIdentity(i, {"p"})], "p") == {"i"};
  }

  lemma CheckDeleteExample(d: PolicyData, k: CheckData)
    ensures var s := EMPTY_SENDER.(policies := map["p" := SenderPolicy(d, {}, {"c"})], checks := map["c" := k]);
            var del := CheckEvent(Delete, "c", k);
            && "c" in ViewOf(Handle(s, del)).policies["p"].checks
            && "c" !in Step(ViewOf(s), del).policies["p"].checks
  {
  }

  // Deleting a posture check leaves it listed on the sender's policies, so the
  // sender follows the reference exactly when no policy lists it.
  lemma CheckDeleteAgreesIff(s: Sender, id: Id, d: CheckData)
    ensures (ViewOf(Handle(s, CheckEvent(Delete, id, d))) == Step(ViewOf(s), CheckEvent(Delete, id, d))) <==>
            Detaches(ViewOf(s), CheckEvent(Delete, id, d))
  {
    var e := CheckEvent(Delete, id, d);
    if Detaches(ViewOf(s), e) {
      CheckRefines(s, Delete, id, d);
    } else {
      var p :| p in ViewOf(s).policies && id in ViewOf(s).policies[p].checks;
      assert id in ViewOf(Handle(s, e)).policies[p].checks;
      assert id !in Step(ViewOf(s), e).policies[p].checks;
    }
  }

  // A membership change for an identity the sender does not know files an
  // empty entry, which the snapshot builder would dereference. That happens
  // exactly when some changed id is unknown.
  lemma EmptyEntryIff(s: Sender, c: PolicyChange)
    requires Inv(s) && c.relatedType.RelatedIdentity?
    ensures (exists i :: i in HandleChange(s, c).identities && HandleChange(s, c).identities[i].NoIdentity?) <==>
            !(Elems(c.relatedIds) <= s.identities.Keys)
  {
    var t := HandleChange(s, c);
    if !(Elems(c.relatedIds) <= s.identities.Keys) {
      var i :| i in Elems(c.relatedIds) && i !in s.identities;
      assert t.identities[i].NoIdentity?;
    }
  }

  lemma EmptyEntryExample()
    ensures HandleChange(EMPTY_SENDER, PolicyChange("p", ["i"], RelatedIdentity, true)).identities == map["i" := NoIdentity]
  {
  }
}
