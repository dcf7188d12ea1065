// The controller-side data model as the object the controller holds.
module SenderModels {
  import opened DataState
  import opened RelationalView
  import Spec = SenderSpec
  import opened SenderSpec
  import EventLog
  import opened EventCaches
  import opened FullSync
  import opened Snapshot
  import opened ConfigFilter
  import ReceiverRuns
  import opened SyncAgreement
  import ReceiverInvariant
  import ReceiverSteps

  // The tables the data state is built from.
  function TablesOf(s: Sender): Tables {
    Tables(s.configTypes, s.configs, Spec.IdentityDatas(s.identities),
           map i | i in s.identities && s.identities[i].SenderIdentity? :: s.identities[i].policies,
           s.services, s.routers,
           map p | p in s.policies :: PolicyRow(s.policies[p].data, s.policies[p].services, s.policies[p].checks),
           s.checks, s.keys, s.revocations)
  }

  lemma TablesShowView(s: Sender)
    ensures ViewOfTables(TablesOf(s)) == Spec.ViewOf(s)
  {
    var t := TablesOf(s);
    forall p | p in s.policies
      ensures RowViews(t.policies, t.memberships)[p] == Spec.PolicyViews(s.policies, s.identities)[p]
    {
      assert MembersSeen(t.memberships, {}, p) == MembersOf(s.identities, p);
    }
    assert RowViews(t.policies, t.memberships) == Spec.PolicyViews(s.policies, s.identities);
    assert ViewsOf(s.services) == Spec.ServiceViews(s.services);
  }

  // After a well-formed stream the data state the sender builds describes its
  // content: the policies' members are all live.
  lemma SnapshotDescribes(s: Sender, es: seq<Event>, snapshot: seq<Event>)
    requires Spec.Inv(s) && Coherent(Spec.ViewOf(s)) && WellFormedRun(Spec.ViewOf(s), es) && DetachingRun(Spec.ViewOf(s), es)
    requires var t := Spec.HandleAll(s, es); Builds(Coherent(Spec.ViewOf(t)), snapshot, Spec.ViewOf(t), t.services)
    ensures var t := Spec.HandleAll(s, es); Describes(snapshot, Spec.ViewOf(t), t.services) && Announces(snapshot)
  {
    RunRefines(s, es);
    RunKeepsCoherent(Spec.ViewOf(s), es);
  }

  // A receiver that loads what the sender builds agrees with one that loaded
  // what the sender built before and applied every delta since, up to the
  // configs its own router lost it.
  lemma SnapshotAgreesWithDeltas(selfId: Id, s: Sender, first: seq<Event>, index0: nat,
                                 ops: seq<ReceiverRuns.Op>, snapshot: seq<Event>, index: nat)
    requires Spec.Inv(s) && Coherent(Spec.ViewOf(s)) && Builds(true, first, Spec.ViewOf(s), s.services)
    requires WellFormedRun(Spec.ViewOf(s), EventsOf(ops)) && DetachingRun(Spec.ViewOf(s), EventsOf(ops))
    requires var t := Spec.HandleAll(s, EventsOf(ops)); Builds(Coherent(Spec.ViewOf(t)), snapshot, Spec.ViewOf(t), t.services)
    ensures var a, b := ReceiverRuns.PerformAll(Load(selfId, index0, first), ops), Load(selfId, index, snapshot);
            var lost := LostRun(selfId, false, HeldOfSender(s), {}, EventsOf(ops));
            && ReceiverSteps.SharedPart(ReceiverInvariant.ViewOf(a)) == ReceiverSteps.SharedPart(ReceiverInvariant.ViewOf(b)) && SameMembers(a, b)
            && ReceiverInvariant.ConfigDatas(a.configs) == ReceiverInvariant.ConfigDatas(b.configs) - lost
    ensures selfId == "" ==> Agree(ReceiverRuns.PerformAll(Load(selfId, index0, first), ops), Load(selfId, index, snapshot))
  {
    SnapshotDescribes(s, [], first);
    SnapshotDescribes(s, EventsOf(ops), snapshot);
    FullSyncAgrees(selfId, s, first, index0, ops, snapshot, index);
    FullSyncAgreesIff(selfId, s, first, index0, ops, snapshot, index);
  }

  lemma OneMoreEntry(entries: map<Id, SenderEntry>, ids: set<Id>, i: Id, pid: Id, add: bool)
    ensures var r := ChangeEntries(entries, ids, pid, add);
            ChangeEntries(entries, ids + {i}, pid, add) == r[i := EntryAfter(r, i, pid, add)]
  {
    var r := ChangeEntries(entries, ids, pid, add);
    if i in ids && i in entries && entries[i].SenderIdentity? {
      assert Amend(Amend(entries[i].policies, {pid}, add), {pid}, add) == Amend(entries[i].policies, {pid}, add);
    }
  }

  method ChangeEntryList(entries: map<Id, SenderEntry>, ids: seq<Id>, pid: Id, add: bool) returns (r: map<Id, SenderEntry>)
    ensures r == ChangeEntries(entries, Elems(ids), pid, add)
  {
    r := entries;
    for k := 0 to |ids|
      invariant r == ChangeEntries(entries, Elems(ids[..k]), pid, add)
    {
      var i := ids[k];
      assert Elems(ids[..k + 1]) == Elems(ids[..k]) + {i};
      OneMoreEntry(entries, Elems(ids[..k]), i, pid, add);
      r := r[i := EntryAfter(r, i, pid, add)];
    }
    assert ids[..|ids|] == ids;
  }

  method AmendList(members: set<Id>, ids: seq<Id>, add: bool) returns (r: set<Id>)
    ensures r == Amend(members, Elems(ids), add)
  {
    r := members;
    for k := 0 to |ids|
      invariant r == Amend(members, Elems(ids[..k]), add)
    {
      assert Elems(ids[..k + 1]) == Elems(ids[..k]) + {ids[k]};
      r := if add then r + {ids[k]} else r - {ids[k]};
    }
    assert ids[..|ids|] == ids;
  }

  method DropFromPolicies(ps: map<Id, SenderPolicy>, id: Id) returns (r: map<Id, SenderPolicy>)
    ensures r == DropService(ps, id)
  {
    r := ps;
    var todo := ps.Keys;
    while todo != {}
      invariant todo <= ps.Keys && r.Keys == ps.Keys
      invariant forall p :: p in ps ==> r[p] == if p in todo then ps[p] else ps[p].(services := ps[p].services - {id})
      decreases |todo|
    {
      var p :| p in todo;
      r := r[p := r[p].(services := r[p].services - {id})];
      todo := todo - {p};
    }
  }

  method SynthesizeConfigs(configs: map<Id, ConfigData>, ids: seq<Id>) returns (es: seq<Event>)
    ensures es == Synthesize(configs, ids)
  {
    es := [];
    for k := 0 to |ids|
      invariant es == Synthesize(configs, ids[..k])
    {
      assert ids[..k + 1][..k] == ids[..k];
      if ids[k] in configs {
        es := es + [ConfigEvent(Create, ids[k], configs[ids[k]])];
      }
    }
    assert ids[..|ids|] == ids;
  }

  class RouterDataModelSender {
    var configTypes: map<Id, ConfigTypeData>
    var configs: map<Id, ConfigData>
    var identities: map<Id, SenderEntry>
    var services: map<Id, ServiceData>
    var routers: map<Id, RouterData>
    var policies: map<Id, SenderPolicy>
    var checks: map<Id, CheckData>
    var keys: map<Id, KeyData>
    var revocations: map<Id, RevocationData>
    const cache: LoggingEventCache

    function State(): Sender
      reads this
    {
      Sender(configTypes, configs, identities, services, routers, policies, checks, keys, revocations)
    }

    constructor (logSize: nat)
      requires logSize > 0
      ensures State() == EMPTY_SENDER && fresh(cache) && fresh(cache.log)
      ensures cache.Valid() && cache.State() == EventLog.EmptyLog(logSize)
    {
      configTypes, configs, identities, services := map[], map[], map[], map[];
      routers, policies, checks, keys, revocations := map[], map[], map[], map[], map[];
      cache := new LoggingEventCache(logSize);
    }

    method HandleServicePolicyChange(c: PolicyChange)
      modifies this
      ensures State() == HandleChange(old(State()), c)
    {
      if c.relatedType.RelatedIdentity? {
        identities := ChangeEntryList(identities, c.relatedIds, c.policyId, c.add);
        return;
      }
      if c.policyId !in policies {
        return;
      }
      var p := policies[c.policyId];
      match c.relatedType
      case RelatedService =>
        var members := AmendList(p.services, c.relatedIds, c.add);
        policies := policies[c.policyId := p.(services := members)];
      case RelatedPostureCheck =>
        var members := AmendList(p.checks, c.relatedIds, c.add);
        policies := policies[c.policyId := p.(checks := members)];
      case _ =>
    }

    method HandleIdentity(a: Action, id: Id, d: IdentityData)
      modifies this
      ensures State() == Spec.Handle(old(State()), IdentityEvent(a, id, d))
    {
      if a.Delete? {
        identities := identities - {id};
      } else {
        identities := identities[id := Upserted(identities, id, d)];
      }
    }

    method HandleService(a: Action, id: Id, d: ServiceData)
      modifies this
      ensures State() == Spec.Handle(old(State()), ServiceEvent(a, id, d))
    {
      if a.Delete? {
        services := services - {id};
        policies := DropFromPolicies(policies, id);
      } else {
        services := services[id := d];
      }
    }

    method HandleServicePolicy(a: Action, id: Id, d: PolicyData)
      modifies this
      ensures State() == Spec.Handle(old(State()), PolicyEvent(a, id, d))
    {
      if a.Delete? {
        policies := policies - {id};
      } else if id in policies {
        policies := policies[id := policies[id].(data := d)];
      } else {
        policies := policies[id := SenderPolicy(d, {}, {})];
      }
    }

    method Handle(e: Event)
      modifies this
      ensures State() == Spec.Handle(old(State()), e)
    {
      match e
      case ConfigTypeEvent(a, id, d) => configTypes := if a.Delete? then configTypes - {id} else configTypes[id := d];
      case ConfigEvent(a, id, d) => configs := if a.Delete? then configs - {id} else configs[id := d];
      case IdentityEvent(a, id, d) => HandleIdentity(a, id, d);
      case ServiceEvent(a, id, d) => HandleService(a, id, d);
      case RouterEvent(a, id, d) => routers := if a.Delete? then routers - {id} else routers[id := d];
      case PolicyEvent(a, id, d) => HandleServicePolicy(a, id, d);
      case CheckEvent(a, id, d) => checks := if a.Delete? then checks - {id} else checks[id := d];
      case KeyEvent(a, id, d) => keys := if a.Delete? then keys - {id} else keys[id := d];
      case RevocationEvent(a, id, d) => revocations := if a.Delete? then revocations - {id} else revocations[id := d];
      case PolicyChangeEvent(c) => HandleServicePolicyChange(c);
    }

    // The change set that goes out to listeners carries its previous index.
    method ApplyChangeSet(cs: ChangeSet) returns (accepted: bool, sent: ChangeSet)
      requires cache.Valid()
      modifies this, cache, cache.log
      ensures cache.Valid() && cache.log == old(cache.log)
      ensures cache.State() == EventLog.Store(old(cache.State()), cs)
      ensures accepted <==> cs.isSynthetic || EventLog.Acceptable(old(cache.State()), cs)
      ensures State() == if accepted then Spec.HandleAll(old(State()), cs.changes) else old(State())
      ensures sent == if EventLog.Acceptable(old(cache.State()), cs) then EventLog.Linked(old(cache.State()), cs) else cs
    {
      accepted, sent := cache.Store(cs);
      if accepted {
        HandleEach(cs.changes);
      }
    }

    method HandleEach(es: seq<Event>)
      modifies this
      ensures State() == Spec.HandleAll(old(State()), es)
    {
      for k := 0 to |es|
        invariant State() == Spec.HandleAll(old(State()), es[..k])
      {
        assert es[..k + 1][..k] == es[..k];
        Handle(es[k]);
      }
      assert es[..|es|] == es;
    }

    // An entry that holds no identity would be dereferenced.
    method GetDataState() returns (es: seq<Event>, endIndex: nat)
      requires cache.Valid()
      requires forall i :: i in identities ==> identities[i].SenderIdentity?
      ensures endIndex == EventLog.Current(cache.State())
      ensures Builds(Coherent(Spec.ViewOf(State())), es, Spec.ViewOf(State()), services)
    {
      endIndex := cache.CurrentIndex();
      TablesShowView(State());
      es := BuildDataState(TablesOf(State()));
    }

    method FilterEventsForRouter(routerId: Id, es: seq<Event>, synthesize: bool) returns (out: seq<Event>, changed: bool)
      ensures out == FilterAll(ScopeOf(State(), routerId), synthesize, es)
      ensures !changed ==> out == es
    {
      var sc := ScopeOf(State(), routerId);
      var k := 0;
      while k < |es| && !NeedsRebuild(sc, synthesize, es[k])
        invariant 0 <= k <= |es| && forall j :: 0 <= j < k ==> !NeedsRebuild(sc, synthesize, es[j])
      {
        k := k + 1;
      }
      if k == |es| {
        FastPath(sc, synthesize, es);
        return es, false;
      }
      out, changed := [], true;
      for i := 0 to |es|
        invariant out == FilterAll(sc, synthesize, es[..i])
      {
        assert es[..i + 1][..i] == es[..i];
        var e := es[i];
        if OwnUpdate(sc, e) && synthesize {
          var extra := SynthesizeConfigs(configs, e.router.configs);
          out := out + (extra + [e]);
        } else if !Withheld(sc, e) {
          out := out + [e];
        }
      }
      assert es[..|es|] == es;
    }

    method GetDataStateForRouter(routerId: Id) returns (es: seq<Event>, endIndex: nat)
      requires cache.Valid()
      requires forall i :: i in identities ==> identities[i].SenderIdentity?
      ensures endIndex == EventLog.Current(cache.State())
      ensures Coherent(Spec.ViewOf(State())) ==>
        exists full :: Describes(full, Spec.ViewOf(State()), services) && Announces(full) &&
                       es == FilterAll(ScopeOf(State(), routerId), false, full)
    {
      var full;
      full, endIndex := GetDataState();
      var changed;
      es, changed := FilterEventsForRouter(routerId, full, false);
    }
  }
}
