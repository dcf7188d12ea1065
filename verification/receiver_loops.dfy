// The receiver's loops over services, posture checks, identities and policies,
// each proved to compute its one-step specification in any iteration order.
module ReceiverLoops {
  import opened DataState
  import opened ReceiverSpec
  import opened ReceiverCounts
  import opened ReceiverRuns

  /* ---- use counts of one identity ---- */

  lemma UpdateEnds(acc: map<Id, Access>, t: PolicyType, services: set<Id>, index: nat, add: bool)
    ensures UpdateEachService(acc, t, services - services, index, add) == acc
    ensures UpdateEachService(acc, t, services - {}, index, add) == UpdateEachService(acc, t, services, index, add)
  {
    assert services - {} == services;
  }

  lemma UpdateNext(acc: map<Id, Access>, t: PolicyType, services: set<Id>, todo: set<Id>, s: Id, index: nat, add: bool)
    requires s in todo && todo <= services
    ensures UpdateEachService(acc, t, services - (todo - {s}), index, add) ==
            UpdateServiceCount(UpdateEachService(acc, t, services - todo, index, add), t, s, index, add)
  {
    OneMoreService(acc, t, services - todo, s, index, add);
    assert services - (todo - {s}) == services - todo + {s};
  }

  method UpdateServiceSet(acc: map<Id, Access>, t: PolicyType, services: set<Id>, index: nat, add: bool) returns (r: map<Id, Access>)
    ensures r == UpdateEachService(acc, t, services, index, add)
  {
    r := acc;
    var todo := services;
    UpdateEnds(acc, t, services, index, add);
    while todo != {}
      invariant todo <= services && r == UpdateEachService(acc, t, services - todo, index, add)
      decreases |todo|
    {
      var s :| s in todo;
      UpdateNext(acc, t, services, todo, s, index, add);
      r := UpdateServiceCount(r, t, s, index, add);
      todo := todo - {s};
    }
  }

  method UpdateServiceList(acc: map<Id, Access>, t: PolicyType, ids: seq<Id>, index: nat, add: bool) returns (r: map<Id, Access>)
    ensures r == UpdateServiceCounts(acc, t, ids, index, add)
  {
    r := acc;
    for k := 0 to |ids|
      invariant r == UpdateServiceCounts(acc, t, ids[..k], index, add)
    {
      assert ids[..k + 1][..k] == ids[..k];
      r := UpdateServiceCount(r, t, ids[k], index, add);
    }
    assert ids[..|ids|] == ids;
  }

  lemma CountEnds(uses: map<Id, int>, checks: set<Id>, add: bool)
    ensures CountEach(uses, checks - checks, add) == uses
    ensures CountEach(uses, checks - {}, add) == CountEach(uses, checks, add)
  {
    CountNone(uses, add);
    assert checks - checks == {} && checks - {} == checks;
  }

  lemma CountNext(uses: map<Id, int>, checks: set<Id>, todo: set<Id>, c: Id, add: bool)
    requires c in todo && todo <= checks
    ensures CountEach(uses, checks - (todo - {c}), add) == CountUse(CountEach(uses, checks - todo, add), c, add)
  {
    OneMoreUse(uses, checks - todo, c, add);
    assert checks - (todo - {c}) == checks - todo + {c};
  }

  method CountUseSet(uses: map<Id, int>, checks: set<Id>, add: bool) returns (r: map<Id, int>)
    ensures r == CountEach(uses, checks, add)
  {
    r := uses;
    var todo := checks;
    CountEnds(uses, checks, add);
    while todo != {}
      invariant todo <= checks && r == CountEach(uses, checks - todo, add)
      decreases |todo|
    {
      var c :| c in todo;
      CountNext(uses, checks, todo, c, add);
      r := CountUse(r, c, add);
      todo := todo - {c};
    }
  }

  method CountUseList(uses: map<Id, int>, ids: seq<Id>, add: bool) returns (r: map<Id, int>)
    ensures r == CountUses(uses, ids, add)
  {
    r := uses;
    for k := 0 to |ids|
      invariant r == CountUses(uses, ids[..k], add)
    {
      assert ids[..k + 1][..k] == ids[..k];
      r := CountUse(r, ids[k], add);
    }
    assert ids[..|ids|] == ids;
  }

  // Moves the policy index of every service's access entry. A missing entry
  // would be a nil dereference.
  method TouchServiceSet(acc: map<Id, Access>, t: PolicyType, services: set<Id>, index: nat) returns (r: map<Id, Access>)
    requires t.InvalidPolicy? || services <= acc.Keys
    ensures r == TouchEach(acc, t, services, index)
  {
    r := acc;
    var todo := services;
    while todo != {}
      invariant todo <= services
      invariant r == TouchEach(acc, t, services - todo, index)
      decreases |todo|
    {
      var s :| s in todo;
      if !t.InvalidPolicy? {
        r := r[s := r[s].Touch(t, index)];
      }
      todo := todo - {s};
    }
    assert services - todo == services;
  }

  /* ---- one identity ---- */

  method Join(i: Identity, pid: Id, p: Policy, index: nat, join: bool) returns (j: Identity)
    ensures j == JoinPolicy(i, pid, p, index, join)
  {
    j := i;
    if (pid in i.policies) != join {
      var access, checks := i.access, i.checks;
      if i.tracking {
        access := UpdateServiceSet(i.access, p.data.policyType, p.services, index, join);
      }
      if p.services != {} {
        checks := CountUseSet(i.checks, p.checks, join);
      }
      j := i.(policies := if join then i.policies + {pid} else i.policies - {pid}, access := access, checks := checks);
    }
  }

  method Touch(i: Identity, p: Policy, index: nat) returns (j: Identity)
    requires i.tracking && !p.data.policyType.InvalidPolicy? ==> p.services <= i.access.Keys
    ensures j == TouchServices(i, p, index)
  {
    j := i;
    if i.tracking {
      var access := TouchServiceSet(i.access, p.data.policyType, p.services, index);
      j := i.(access := access);
    }
  }

  /* ---- every identity of a policy ---- */

  lemma OneMoreJoins(im: map<Id, Identity>, hit: set<Id>, i: Id, pid: Id, p: Policy, index: nat, join: bool)
    requires i in im
    ensures var r := JoinEach(im, hit, pid, p, index, join);
            JoinEach(im, hit + {i}, pid, p, index, join) == r[i := JoinPolicy(r[i], pid, p, index, join)]
  {
    var r := JoinEach(im, hit, pid, p, index, join);
    assert i in hit ==> JoinPolicy(r[i], pid, p, index, join) == r[i];
  }

  // A repeated id joins once.
  method JoinListed(im: map<Id, Identity>, members: set<Id>, ids: seq<Id>, pid: Id, p: Policy, index: nat, join: bool)
    returns (r: map<Id, Identity>, amended: set<Id>)
    ensures r == JoinEach(im, Elems(ids) * im.Keys, pid, p, index, join)
    ensures amended == Amend(members, Elems(ids) * im.Keys, join)
  {
    r, amended := im, members;
    for k := 0 to |ids|
      invariant r == JoinEach(im, Elems(ids[..k]) * im.Keys, pid, p, index, join)
      invariant amended == Amend(members, Elems(ids[..k]) * im.Keys, join)
    {
      var i := ids[k];
      ghost var hit := Elems(ids[..k]) * im.Keys;
      assert Elems(ids[..k + 1]) == Elems(ids[..k]) + {i};
      if i in r {
        assert Elems(ids[..k + 1]) * im.Keys == hit + {i};
        OneMoreJoins(im, hit, i, pid, p, index, join);
        amended := Amend(amended, {i}, join);
        var j := Join(r[i], pid, p, index, join);
        r := r[i := j];
      } else {
        assert Elems(ids[..k + 1]) * im.Keys == hit;
      }
    }
    assert ids[..|ids|] == ids;
  }

  method JoinMembers(im: map<Id, Identity>, hit: set<Id>, pid: Id, p: Policy, index: nat, join: bool) returns (r: map<Id, Identity>)
    ensures r == JoinEach(im, hit, pid, p, index, join)
  {
    r := im;
    var todo := hit;
    while todo != {}
      invariant todo <= hit
      invariant r == JoinEach(im, hit - todo, pid, p, index, join)
      decreases |todo|
    {
      var i :| i in todo;
      if i in r {
        var j := Join(r[i], pid, p, index, join);
        r := r[i := j];
      }
      todo := todo - {i};
    }
    assert hit - todo == hit;
  }

  method FlipMembers(im: map<Id, Identity>, pid: Id, p: Policy, q: Policy, index: nat) returns (r: map<Id, Identity>)
    ensures r == FlipEach(im, pid, p, q, index)
  {
    r := im;
    var todo := p.identities;
    while todo != {}
      invariant todo <= p.identities
      invariant r.Keys == im.Keys
      invariant forall i :: i in im ==>
        r[i] == if i in p.identities && i !in todo then JoinPolicy(JoinPolicy(im[i], pid, p, index, false), pid, q, index, true) else im[i]
      decreases |todo|
    {
      var i :| i in todo;
      if i in r {
        var out := Join(r[i], pid, p, index, false);
        var back := Join(out, pid, q, index, true);
        r := r[i := back];
      }
      todo := todo - {i};
    }
  }

  // The posture indices of a policy's services can be moved for each of its
  // tracked identities without meeting a missing access entry.
  ghost predicate Touchable(i: Identity, p: Policy) {
    i.tracking && !p.data.policyType.InvalidPolicy? ==> p.services <= i.access.Keys
  }

  method CountServiceMembers(im: map<Id, Identity>, pid: Id, p: Policy, ids: seq<Id>, index: nat, add: bool) returns (r: map<Id, Identity>)
    ensures r.Keys == im.Keys
    ensures forall i :: i in im ==> r[i] == if i in p.identities then ServicesChanged(im[i], pid, p, ids, index, add) else im[i]
  {
    r := im;
    var todo := p.identities;
    while todo != {}
      invariant todo <= p.identities
      invariant r.Keys == im.Keys
      invariant forall i :: i in im ==>
        r[i] == if i in p.identities && i !in todo then ServicesChanged(im[i], pid, p, ids, index, add) else im[i]
      decreases |todo|
    {
      var i :| i in todo;
      if i in r && r[i].tracking && pid in r[i].policies {
        var access := UpdateServiceList(r[i].access, p.data.policyType, ids, index, add);
        r := r[i := r[i].(access := access)];
      }
      todo := todo - {i};
    }
  }

  method FollowServiceMembers(im: map<Id, Identity>, pid: Id, p: Policy, q: Policy, ids: seq<Id>, index: nat, add: bool)
    returns (r: map<Id, Identity>)
    requires CrossesEmpty(p.services, q.services, add) ==>
      forall i :: i in im && i in p.identities ==> Touchable(ServicesChanged(im[i], pid, p, ids, index, add), q)
    ensures r == FollowServicesEach(im, pid, p, q, ids, index, add)
  {
    r := CountServiceMembers(im, pid, p, ids, index, add);
    if CrossesEmpty(p.services, q.services, add) {
      r := AllChecksMembers(r, p.identities, pid, q, index, add);
    }
  }

  method AllChecksMembers(im: map<Id, Identity>, hit: set<Id>, pid: Id, q: Policy, index: nat, add: bool) returns (r: map<Id, Identity>)
    requires forall i :: i in im && i in hit ==> Touchable(im[i], q)
    ensures r.Keys == im.Keys
    ensures forall i :: i in im ==> r[i] == if i in hit then AllChecksChanged(im[i], pid, q, index, add) else im[i]
  {
    r := im;
    var todo := hit;
    while todo != {}
      invariant todo <= hit
      invariant r.Keys == im.Keys
      invariant forall i :: i in im ==> r[i] == if i in hit && i !in todo then AllChecksChanged(im[i], pid, q, index, add) else im[i]
      decreases |todo|
    {
      var i :| i in todo;
      if i in r {
        var j := r[i];
        if pid in j.policies {
          var checks := CountUseSet(j.checks, q.checks, add);
          j := j.(checks := checks);
        }
        j := Touch(j, q, index);
        r := r[i := j];
      }
      todo := todo - {i};
    }
  }

  method FollowCheckMembers(im: map<Id, Identity>, pid: Id, p: Policy, ids: seq<Id>, index: nat, add: bool) returns (r: map<Id, Identity>)
    requires p.services != {} ==> forall i :: i in im && i in p.identities ==> Touchable(im[i], p)
    ensures r == FollowChecksEach(im, pid, p, ids, index, add)
  {
    r := im;
    if p.services != {} {
      var todo := p.identities;
      while todo != {}
        invariant todo <= p.identities
        invariant r.Keys == im.Keys
        invariant forall i :: i in im ==> r[i] == if i in p.identities && i !in todo then ChecksChanged(im[i], pid, p, ids, index, add) else im[i]
        decreases |todo|
      {
        var i :| i in todo;
        if i in r {
          var j := r[i];
          if pid in j.policies {
            var checks := CountUseList(j.checks, ids, add);
            j := j.(checks := checks);
          }
          j := Touch(j, p, index);
          r := r[i := j];
        }
        todo := todo - {i};
      }
    }
  }

  method LinkServiceList(ss: map<Id, Service>, ids: seq<Id>, pid: Id, add: bool) returns (r: map<Id, Service>)
    ensures r == LinkServices(ss, Elems(ids), pid, add)
  {
    r := ss;
    for k := 0 to |ids|
      invariant r == LinkServices(ss, Elems(ids[..k]), pid, add)
    {
      var s := ids[k];
      assert Elems(ids[..k + 1]) == Elems(ids[..k]) + {s};
      if s in r {
        assert Amend(Amend(ss[s].policies, {pid}, add), {pid}, add) == Amend(ss[s].policies, {pid}, add);
        r := r[s := r[s].(policies := Amend(r[s].policies, {pid}, add))];
      }
    }
    assert ids[..|ids|] == ids;
  }

  method LinkCheckList(cs: map<Id, Check>, ids: seq<Id>, pid: Id, add: bool) returns (r: map<Id, Check>)
    ensures r == LinkChecks(cs, Elems(ids), pid, add)
  {
    r := cs;
    for k := 0 to |ids|
      invariant r == LinkChecks(cs, Elems(ids[..k]), pid, add)
    {
      var c := ids[k];
      assert Elems(ids[..k + 1]) == Elems(ids[..k]) + {c};
      if c in r {
        assert Amend(Amend(cs[c].policies, {pid}, add), {pid}, add) == Amend(cs[c].policies, {pid}, add);
        r := r[c := r[c].(policies := Amend(r[c].policies, {pid}, add))];
      }
    }
    assert ids[..|ids|] == ids;
  }

  /* ---- rebuilding access when tracking is switched on ---- */

  method RecordServices(acc: map<Id, Access>, p: Policy) returns (r: map<Id, Access>)
    ensures r == RecordPolicy(acc, p)
  {
    r := acc;
    var todo := p.services;
    while todo != {}
      invariant todo <= p.services
      invariant r == RecordPolicy(acc, p.(services := p.services - todo))
      decreases |todo|
    {
      var s :| s in todo;
      var access := if s in r then r[s] else NO_ACCESS;
      r := r[s := access.UpdatePolicies(p.data.policyType, Max(p.checksIndex, p.servicesIndex), true)];
      todo := todo - {s};
    }
    assert p.services - todo == p.services;
  }

  method RebuildAccess(ps: map<Id, Policy>, mine: set<Id>) returns (acc: map<Id, Access>)
    ensures acc == BuildAccess(ps, mine)
  {
    acc := map[];
    var todo := mine;
    ghost var step := Recorder(ps);
    RecorderCommutes(ps);
    while todo != {}
      invariant todo <= mine
      invariant acc == Fold(step, mine - todo, map[])
      decreases |todo|
    {
      var p :| p in todo;
      ghost var done := mine - todo;
      FoldAnyOrder(step, done + {p}, map[], p);
      assert done + {p} - {p} == done;
      assert mine - (todo - {p}) == done + {p};
      if p in ps {
        acc := RecordServices(acc, ps[p]);
      }
      todo := todo - {p};
    }
    assert mine - todo == mine;
  }

  /* ---- reverse references of configs ---- */

  method ReferencedConfigSet(d: IdentityData) returns (r: set<Id>)
    ensures r == ReferencedConfigs(d)
  {
    r := {};
    var services := d.serviceConfigs.Keys;
    while services != {}
      invariant services <= d.serviceConfigs.Keys
      invariant r == set s, t | s in d.serviceConfigs.Keys - services && t in d.serviceConfigs[s] :: d.serviceConfigs[s][t]
      decreases |services|
    {
      var s :| s in services;
      r := r + d.serviceConfigs[s].Values;
      services := services - {s};
    }
  }

  method DropIdentityLinks(cs: map<Id, Config>, id: Id, drop: set<Id>) returns (r: map<Id, Config>)
    ensures r == Relink(cs, id, drop, {})
  {
    r := cs;
    var todo := drop;
    while todo != {}
      invariant todo <= drop
      invariant r == Relink(cs, id, drop - todo, {})
      decreases |todo|
    {
      var c :| c in todo;
      if c in r {
        r := r[c := r[c].(identities := r[c].identities - {id})];
      }
      todo := todo - {c};
    }
    assert drop - todo == drop;
  }

  method AddIdentityLinks(cs: map<Id, Config>, id: Id, add: set<Id>) returns (r: map<Id, Config>)
    ensures r == Relink(cs, id, {}, add)
  {
    r := cs;
    var todo := add;
    while todo != {}
      invariant todo <= add
      invariant r == Relink(cs, id, {}, add - todo)
      decreases |todo|
    {
      var c :| c in todo;
      if c in r {
        r := r[c := r[c].(identities := r[c].identities + {id})];
      }
      todo := todo - {c};
    }
    assert add - todo == add;
  }

  lemma RelinkInTwo(cs: map<Id, Config>, id: Id, drop: set<Id>, add: set<Id>)
    ensures Relink(Relink(cs, id, drop, {}), id, {}, add) == Relink(cs, id, drop, add)
  {
    assert forall x: set<Id> :: x - {id} + {id} == x + {id};
  }

  method DropServiceLinks(cs: map<Id, Config>, id: Id, drop: seq<Id>) returns (r: map<Id, Config>)
    ensures r == RelinkServices(cs, id, Elems(drop), {})
  {
    r := cs;
    for k := 0 to |drop|
      invariant r == RelinkServices(cs, id, Elems(drop[..k]), {})
    {
      var c := drop[k];
      assert Elems(drop[..k + 1]) == Elems(drop[..k]) + {c};
      if c in r {
        assert cs[c].services - {id} - {id} == cs[c].services - {id};
        r := r[c := r[c].(services := r[c].services - {id})];
      }
    }
    assert drop[..|drop|] == drop;
  }

  method AddServiceLinks(cs: map<Id, Config>, id: Id, add: seq<Id>) returns (r: map<Id, Config>)
    ensures r == RelinkServices(cs, id, {}, Elems(add))
  {
    r := cs;
    for k := 0 to |add|
      invariant r == RelinkServices(cs, id, {}, Elems(add[..k]))
    {
      var c := add[k];
      assert Elems(add[..k + 1]) == Elems(add[..k]) + {c};
      if c in r {
        assert cs[c].services + {id} + {id} == cs[c].services + {id};
        r := r[c := r[c].(services := r[c].services + {id})];
      }
    }
    assert add[..|add|] == add;
  }

  lemma RelinkServicesInTwo(cs: map<Id, Config>, id: Id, drop: set<Id>, add: set<Id>)
    ensures RelinkServices(RelinkServices(cs, id, drop, {}), id, {}, add) == RelinkServices(cs, id, drop, add)
  {
    assert forall x: set<Id> :: x - {id} + {id} == x + {id};
  }

  /* ---- indices of services and policies ---- */

  method BumpServiceIndex(ps: map<Id, Policy>, hit: set<Id>, index: nat) returns (r: map<Id, Policy>)
    ensures r == BumpServices(ps, hit, index)
  {
    r := ps;
    var todo := hit;
    while todo != {}
      invariant todo <= hit
      invariant r == BumpServices(ps, hit - todo, index)
      decreases |todo|
    {
      var p :| p in todo;
      if p in r {
        r := r[p := r[p].(servicesIndex := Max(r[p].servicesIndex, index))];
      }
      todo := todo - {p};
    }
    assert hit - todo == hit;
  }

  method BumpCheckIndex(ps: map<Id, Policy>, hit: set<Id>, index: nat) returns (r: map<Id, Policy>)
    ensures r == BumpChecks(ps, hit, index)
  {
    r := ps;
    var todo := hit;
    while todo != {}
      invariant todo <= hit
      invariant r == BumpChecks(ps, hit - todo, index)
      decreases |todo|
    {
      var p :| p in todo;
      if p in r {
        r := r[p := r[p].(checksIndex := Max(r[p].checksIndex, index))];
      }
      todo := todo - {p};
    }
    assert hit - todo == hit;
  }

  lemma BumpTwice(ps: map<Id, Policy>, a: set<Id>, b: set<Id>, index: nat)
    ensures BumpServices(BumpServices(ps, a, index), b, index) == BumpServices(ps, a + b, index)
  {
  }

  // Each service of a changed config, and each policy of each such service.
  method NotifyServiceSet(ss: map<Id, Service>, ps: map<Id, Policy>, hit: set<Id>, index: nat)
    returns (r: map<Id, Service>, q: map<Id, Policy>)
    ensures r == RefreshServices(ss, hit, index)
    ensures q == BumpServices(ps, PoliciesOfServices(ss, hit), index)
  {
    r, q := ss, ps;
    var todo := hit;
    assert PoliciesOfServices(ss, {}) == {};
    while todo != {}
      invariant todo <= hit
      invariant r == RefreshServices(ss, hit - todo, index)
      invariant q == BumpServices(ps, PoliciesOfServices(ss, hit - todo), index)
      decreases |todo|
    {
      var s :| s in todo;
      ghost var done := hit - todo;
      assert hit - (todo - {s}) == done + {s};
      if s in r {
        BumpTwice(ps, PoliciesOfServices(ss, done), ss[s].policies, index);
        assert PoliciesOfServices(ss, done + {s}) == PoliciesOfServices(ss, done) + ss[s].policies;
        q := BumpServiceIndex(q, r[s].policies, index);
        r := r[s := r[s].(index := Max(r[s].index, index))];
      } else {
        assert PoliciesOfServices(ss, done + {s}) == PoliciesOfServices(ss, done);
      }
      todo := todo - {s};
    }
    assert hit - todo == hit;
  }

  lemma RefreshTwice(ss: map<Id, Service>, a: set<Id>, b: set<Id>, index: nat)
    ensures RefreshServices(RefreshServices(ss, a, index), b, index) == RefreshServices(ss, a + b, index)
    ensures PoliciesOfServices(RefreshServices(ss, a, index), b) == PoliciesOfServices(ss, b)
    ensures PoliciesOfServices(ss, a + b) == PoliciesOfServices(ss, a) + PoliciesOfServices(ss, b)
  {
  }

  ghost function ServicesOfTypeIn(cs: map<Id, Config>, among: set<Id>, typeId: Id): set<Id> {
    set c, s | c in among && c in cs && cs[c].data.typeId == typeId && s in cs[c].services :: s
  }

  // Every service of every config of a type.
  method NotifyConfigsOfType(cs: map<Id, Config>, ss: map<Id, Service>, ps: map<Id, Policy>, typeId: Id, index: nat)
    returns (r: map<Id, Service>, q: map<Id, Policy>)
    ensures r == RefreshServices(ss, ServicesOfTypeIn(cs, cs.Keys, typeId), index)
    ensures q == BumpServices(ps, PoliciesOfServices(ss, ServicesOfTypeIn(cs, cs.Keys, typeId)), index)
  {
    r, q := ss, ps;
    var todo := cs.Keys;
    assert ServicesOfTypeIn(cs, {}, typeId) == {} && PoliciesOfServices(ss, {}) == {};
    while todo != {}
      invariant todo <= cs.Keys
      invariant r == RefreshServices(ss, ServicesOfTypeIn(cs, cs.Keys - todo, typeId), index)
      invariant q == BumpServices(ps, PoliciesOfServices(ss, ServicesOfTypeIn(cs, cs.Keys - todo, typeId)), index)
      decreases |todo|
    {
      var c :| c in todo;
      ghost var done := cs.Keys - todo;
      ghost var hit := ServicesOfTypeIn(cs, done, typeId);
      assert cs.Keys - (todo - {c}) == done + {c};
      if cs[c].data.typeId == typeId {
        assert ServicesOfTypeIn(cs, done + {c}, typeId) == hit + cs[c].services;
        RefreshTwice(ss, hit, cs[c].services, index);
        BumpTwice(ps, PoliciesOfServices(ss, hit), PoliciesOfServices(ss, cs[c].services), index);
        r, q := NotifyServiceSet(r, q, cs[c].services, index);
      } else {
        assert ServicesOfTypeIn(cs, done + {c}, typeId) == hit;
      }
      todo := todo - {c};
    }
    assert cs.Keys - todo == cs.Keys;
  }

  /* ---- overrides of a deleted config ---- */

  method ClearFromService(configs: map<Id, Id>, id: Id) returns (r: map<Id, Id>)
    ensures r == WithoutConfig(configs, id)
  {
    r := configs;
    var todo := configs.Keys;
    while todo != {}
      invariant todo <= configs.Keys
      invariant r == map t | t in configs && (t in todo || configs[t] != id) :: configs[t]
      decreases |todo|
    {
      var t :| t in todo;
      if configs[t] == id {
        r := r - {t};
      }
      todo := todo - {t};
    }
  }

  method ClearFromIdentity(d: IdentityData, id: Id) returns (r: IdentityData)
    ensures r == ClearConfig(d, id)
  {
    var all := d.serviceConfigs;
    var kept := all;
    var todo := all.Keys;
    while todo != {}
      invariant todo <= all.Keys
      invariant kept == map s | s in all && (s in todo || WithoutConfig(all[s], id) != map[])
                          :: if s in todo then all[s] else WithoutConfig(all[s], id)
      decreases |todo|
    {
      var s :| s in todo;
      var rest := ClearFromService(all[s], id);
      kept := if rest == map[] then kept - {s} else kept[s := rest];
      todo := todo - {s};
    }
    r := d.(serviceConfigs := kept);
  }

  method ClearFromIdentities(im: map<Id, Identity>, hit: set<Id>, id: Id) returns (r: map<Id, Identity>)
    ensures r == ClearConfigEach(im, hit, id)
  {
    r := im;
    var todo := hit;
    while todo != {}
      invariant todo <= hit
      invariant r == ClearConfigEach(im, hit - todo, id)
      decreases |todo|
    {
      var i :| i in todo;
      if i in r {
        var d := ClearFromIdentity(r[i].data, id);
        r := r[i := r[i].(data := d)];
      }
      todo := todo - {i};
    }
    assert hit - todo == hit;
  }

  /* ---- configs the local router no longer lists ---- */

  method CollectConfigs(cs: map<Id, Config>, before: seq<Id>, after: seq<Id>) returns (r: map<Id, Config>)
    ensures r == cs - (Elems(before) - Elems(after))
  {
    var keep := Elems(after);
    r := cs;
    for k := 0 to |before|
      invariant r == cs - (Elems(before[..k]) - Elems(after))
    {
      assert Elems(before[..k + 1]) == Elems(before[..k]) + {before[k]};
      if before[k] !in keep {
        r := r - {before[k]};
      }
    }
    assert before[..|before|] == before;
  }
}
