// The materialised use counts of one identity against the plain join over its
// policies, and how each kind of update keeps the two equal.
module ReceiverCounts {
  import opened DataState
  import opened ReceiverSpec

  predicate Grants(ps: map<Id, Policy>, p: Id, t: PolicyType, s: Id) {
    p in ps && ps[p].data.policyType == t && s in ps[p].services
  }

  // The policies of one type that grant service s, out of those an identity is in.
  function Granting(ps: map<Id, Policy>, mine: set<Id>, t: PolicyType, s: Id): set<Id> {
    set p | p in mine && Grants(ps, p, t, s)
  }

  predicate Demands(ps: map<Id, Policy>, p: Id, c: Id) {
    p in ps && c in ps[p].checks && ps[p].services != {}
  }

  // The policies that demand posture check c: they list it and grant something.
  function Demanding(ps: map<Id, Policy>, mine: set<Id>, c: Id): set<Id> {
    set p | p in mine && Demands(ps, p, c)
  }

  predicate AccessIs(acc: map<Id, Access>, s: Id, dial: nat, bind: nat) {
    && (s in acc <==> dial + bind > 0)
    && (s in acc ==> acc[s].dial == dial && acc[s].bind == bind)
  }

  predicate UsesAre(m: map<Id, int>, c: Id, n: nat) {
    && (c in m <==> n > 0)
    && (c in m ==> m[c] == n)
  }

  ghost predicate ExactAccess(ps: map<Id, Policy>, mine: set<Id>, acc: map<Id, Access>) {
    forall s :: AccessIs(acc, s, |Granting(ps, mine, DialPolicy, s)|, |Granting(ps, mine, BindPolicy, s)|)
  }

  ghost predicate ExactChecks(ps: map<Id, Policy>, mine: set<Id>, uses: map<Id, int>) {
    forall c :: UsesAre(uses, c, |Demanding(ps, mine, c)|)
  }

  ghost predicate Exact(ps: map<Id, Policy>, i: Identity) {
    && (i.tracking ==> ExactAccess(ps, i.policies, i.access))
    && (!i.tracking ==> i.access == map[])
    && ExactChecks(ps, i.policies, i.checks)
  }

  /* ---- counting ---- */

  function Bit(b: bool): nat {
    if b then 1 else 0
  }

  lemma SplitGranting(ps: map<Id, Policy>, mine: set<Id>, p: Id, t: PolicyType, s: Id)
    requires p in mine
    ensures |Granting(ps, mine, t, s)| == |Granting(ps, mine - {p}, t, s)| + Bit(Grants(ps, p, t, s))
  {
    var rest := Granting(ps, mine - {p}, t, s);
    assert Granting(ps, mine, t, s) == if Grants(ps, p, t, s) then rest + {p} else rest;
  }

  lemma SplitDemanding(ps: map<Id, Policy>, mine: set<Id>, p: Id, c: Id)
    requires p in mine
    ensures |Demanding(ps, mine, c)| == |Demanding(ps, mine - {p}, c)| + Bit(Demands(ps, p, c))
  {
    var rest := Demanding(ps, mine - {p}, c);
    assert Demanding(ps, mine, c) == if Demands(ps, p, c) then rest + {p} else rest;
  }

  // Two policy tables that agree on what the policies in `mine` grant and demand.
  ghost predicate SameMembers(ps: map<Id, Policy>, qs: map<Id, Policy>, mine: set<Id>) {
    forall p :: p in mine ==>
      && (p in ps <==> p in qs)
      && (p in ps ==>
          && ps[p].data.policyType == qs[p].data.policyType
          && ps[p].services == qs[p].services
          && ps[p].checks == qs[p].checks)
  }

  lemma SameMembersSameCounts(ps: map<Id, Policy>, qs: map<Id, Policy>, mine: set<Id>)
    requires SameMembers(ps, qs, mine)
    ensures forall t, s :: Granting(ps, mine, t, s) == Granting(qs, mine, t, s)
    ensures forall c :: Demanding(ps, mine, c) == Demanding(qs, mine, c)
  {
  }

  lemma SameMembersSameExact(ps: map<Id, Policy>, qs: map<Id, Policy>, i: Identity)
    requires SameMembers(ps, qs, i.policies)
    requires Exact(ps, i)
    ensures Exact(qs, i)
  {
    SameMembersSameCounts(ps, qs, i.policies);
  }

  /* ---- count updates ---- */

  // The counts move by one for the services in `hit`, for policies of type t.
  ghost predicate Shifted(ps: map<Id, Policy>, mine: set<Id>, qs: map<Id, Policy>, mine': set<Id>,
                          t: PolicyType, hit: set<Id>, add: bool)
  {
    forall u, s :: |Granting(qs, mine', u, s)| ==
      |Granting(ps, mine, u, s)| + (if u == t && s in hit then (if add then 1 else -1) else 0)
  }

  ghost predicate ShiftedChecks(ps: map<Id, Policy>, mine: set<Id>, qs: map<Id, Policy>, mine': set<Id>,
                                hit: set<Id>, add: bool)
  {
    forall c :: |Demanding(qs, mine', c)| ==
      |Demanding(ps, mine, c)| + (if c in hit then (if add then 1 else -1) else 0)
  }

  lemma ShiftAccess(ps: map<Id, Policy>, mine: set<Id>, qs: map<Id, Policy>, mine': set<Id>,
                    acc: map<Id, Access>, t: PolicyType, hit: set<Id>, index: nat, add: bool)
    requires ExactAccess(ps, mine, acc)
    requires !t.InvalidPolicy?
    requires Shifted(ps, mine, qs, mine', t, hit, add)
    ensures ExactAccess(qs, mine', UpdateEachService(acc, t, hit, index, add))
  {
    var r := UpdateEachService(acc, t, hit, index, add);
    forall s
      ensures AccessIs(r, s, |Granting(qs, mine', DialPolicy, s)|, |Granting(qs, mine', BindPolicy, s)|)
    {
      assert AccessIs(acc, s, |Granting(ps, mine, DialPolicy, s)|, |Granting(ps, mine, BindPolicy, s)|);
    }
  }

  lemma ShiftChecks(ps: map<Id, Policy>, mine: set<Id>, qs: map<Id, Policy>, mine': set<Id>,
                    uses: map<Id, int>, hit: set<Id>, add: bool)
    requires ExactChecks(ps, mine, uses)
    requires ShiftedChecks(ps, mine, qs, mine', hit, add)
    ensures ExactChecks(qs, mine', CountEach(uses, hit, add))
  {
    var r := CountEach(uses, hit, add);
    forall c
      ensures UsesAre(r, c, |Demanding(qs, mine', c)|)
    {
      assert UsesAre(uses, c, |Demanding(ps, mine, c)|);
    }
  }

  lemma OneMoreService(acc: map<Id, Access>, t: PolicyType, done: set<Id>, s: Id, index: nat, add: bool)
    requires s !in done
    ensures UpdateEachService(acc, t, done + {s}, index, add) ==
            UpdateServiceCount(UpdateEachService(acc, t, done, index, add), t, s, index, add)
  {
    var a := UpdateEachService(acc, t, done + {s}, index, add);
    var b := UpdateServiceCount(UpdateEachService(acc, t, done, index, add), t, s, index, add);
    forall x
      ensures x in a <==> x in b
      ensures x in a ==> a[x] == b[x]
    {
      assert x in done + {s} <==> x in done || x == s;
    }
  }

  lemma OneMoreUse(uses: map<Id, int>, done: set<Id>, c: Id, add: bool)
    requires c !in done
    ensures CountEach(uses, done + {c}, add) == CountUse(CountEach(uses, done, add), c, add)
  {
    var a, b := CountEach(uses, done + {c}, add), CountUse(CountEach(uses, done, add), c, add);
    forall x
      ensures x in a <==> x in b
      ensures x in a ==> a[x] == b[x]
    {
      assert x in done + {c} <==> x in done || x == c;
    }
  }

  // With distinct ids, updating in list order is updating each member once.
  lemma {:induction false} ListedIsEachService(acc: map<Id, Access>, t: PolicyType, ids: seq<Id>, index: nat, add: bool)
    requires Distinct(ids)
    ensures UpdateServiceCounts(acc, t, ids, index, add) == UpdateEachService(acc, t, Elems(ids), index, add)
  {
    if ids != [] {
      var init, last := ids[..|ids| - 1], ids[|ids| - 1];
      ListedIsEachService(acc, t, init, index, add);
      assert Elems(ids) == Elems(init) + {last};
      OneMoreService(acc, t, Elems(init), last, index, add);
    }
  }

  lemma {:induction false} ListedIsEachUse(uses: map<Id, int>, ids: seq<Id>, add: bool)
    requires Distinct(ids)
    ensures CountUses(uses, ids, add) == CountEach(uses, Elems(ids), add)
  {
    if ids != [] {
      var init, last := ids[..|ids| - 1], ids[|ids| - 1];
      ListedIsEachUse(uses, init, add);
      assert Elems(ids) == Elems(init) + {last};
      OneMoreUse(uses, Elems(init), last, add);
    }
  }

  lemma TouchKeepsExact(ps: map<Id, Policy>, mine: set<Id>, acc: map<Id, Access>, t: PolicyType, hit: set<Id>, index: nat)
    requires ExactAccess(ps, mine, acc)
    ensures ExactAccess(ps, mine, TouchEach(acc, t, hit, index))
  {
    var r := TouchEach(acc, t, hit, index);
    forall s
      ensures AccessIs(r, s, |Granting(ps, mine, DialPolicy, s)|, |Granting(ps, mine, BindPolicy, s)|)
    {
      assert AccessIs(acc, s, |Granting(ps, mine, DialPolicy, s)|, |Granting(ps, mine, BindPolicy, s)|);
    }
  }

  /* ---- joining and leaving a policy ---- */

  lemma JoinShifts(ps: map<Id, Policy>, mine: set<Id>, pid: Id)
    requires pid in ps && pid !in mine
    ensures Shifted(ps, mine, ps, mine + {pid}, ps[pid].data.policyType, ps[pid].services, true)
    ensures Shifted(ps, mine + {pid}, ps, mine, ps[pid].data.policyType, ps[pid].services, false)
    ensures ShiftedChecks(ps, mine, ps, mine + {pid}, if ps[pid].services != {} then ps[pid].checks else {}, true)
    ensures ShiftedChecks(ps, mine + {pid}, ps, mine, if ps[pid].services != {} then ps[pid].checks else {}, false)
  {
    assert mine + {pid} - {pid} == mine;
    forall t, s
      ensures |Granting(ps, mine + {pid}, t, s)| == |Granting(ps, mine, t, s)| + Bit(Grants(ps, pid, t, s))
    {
      SplitGranting(ps, mine + {pid}, pid, t, s);
    }
    forall c
      ensures |Demanding(ps, mine + {pid}, c)| == |Demanding(ps, mine, c)| + Bit(Demands(ps, pid, c))
    {
      SplitDemanding(ps, mine + {pid}, pid, c);
    }
  }

  lemma CountNone(uses: map<Id, int>, add: bool)
    ensures CountEach(uses, {}, add) == uses
  {
  }

  lemma JoinKeepsExact(ps: map<Id, Policy>, i: Identity, pid: Id, index: nat, join: bool)
    requires pid in ps && !ps[pid].data.policyType.InvalidPolicy?
    requires Exact(ps, i)
    ensures Exact(ps, JoinPolicy(i, pid, ps[pid], index, join))
  {
    if (pid in i.policies) != join {
      var p, j := ps[pid], JoinPolicy(i, pid, ps[pid], index, join);
      var base := i.policies - {pid};
      assert join ==> base == i.policies;
      assert base + {pid} == if join then j.policies else i.policies;
      assert j.policies == if join then base + {pid} else base;
      JoinShifts(ps, base, pid);
      if i.tracking {
        ShiftAccess(ps, i.policies, ps, j.policies, i.access, p.data.policyType, p.services, index, join);
      }
      CountNone(i.checks, join);
      ShiftChecks(ps, i.policies, ps, j.policies, i.checks, if p.services != {} then p.checks else {}, join);
    }
  }

  /* ---- changing a policy the identity is in ---- */

  lemma ReplaceShifts(ps: map<Id, Policy>, mine: set<Id>, pid: Id, q: Policy, hit: set<Id>, checkHit: set<Id>, add: bool)
    requires pid in ps && pid in mine
    requires q.data == ps[pid].data
    requires forall s :: (s in q.services) == (if s in hit then add else s in ps[pid].services)
    requires forall s :: s in hit ==> (s in ps[pid].services) == !add
    requires forall c :: Demands(ps[pid := q], pid, c) == (if c in checkHit then add else Demands(ps, pid, c))
    requires forall c :: c in checkHit ==> Demands(ps, pid, c) == !add
    ensures Shifted(ps, mine, ps[pid := q], mine, q.data.policyType, hit, add)
    ensures ShiftedChecks(ps, mine, ps[pid := q], mine, checkHit, add)
  {
    var qs := ps[pid := q];
    SameMembersSameCounts(ps, qs, mine - {pid});
    forall t, s
      ensures |Granting(qs, mine, t, s)| ==
              |Granting(ps, mine, t, s)| + (if t == q.data.policyType && s in hit then (if add then 1 else -1) else 0)
    {
      SplitGranting(ps, mine, pid, t, s);
      SplitGranting(qs, mine, pid, t, s);
    }
    forall c
      ensures |Demanding(qs, mine, c)| == |Demanding(ps, mine, c)| + (if c in checkHit then (if add then 1 else -1) else 0)
    {
      SplitDemanding(ps, mine, pid, c);
      SplitDemanding(qs, mine, pid, c);
    }
  }

  lemma FollowServicesKeepsExact(ps: map<Id, Policy>, i: Identity, pid: Id, ids: seq<Id>, index: nat, add: bool)
    requires pid in ps && pid in i.policies && !ps[pid].data.policyType.InvalidPolicy?
    requires Distinct(ids)
    requires if add then Elems(ids) !! ps[pid].services else Elems(ids) <= ps[pid].services
    requires Exact(ps, i)
    ensures var q := ServicesAmended(ps[pid], index, ids, add);
            Exact(ps[pid := q], FollowServices(i, pid, ps[pid], q, ids, index, add))
  {
    var p := ps[pid];
    var q := ServicesAmended(p, index, ids, add);
    var hit := if CrossesEmpty(p.services, q.services, add) then p.checks else {};
    ReplaceShifts(ps, i.policies, pid, q, Elems(ids), hit, add);
    ListedIsEachService(i.access, p.data.policyType, ids, index, add);
    if i.tracking {
      ShiftAccess(ps, i.policies, ps[pid := q], i.policies, i.access, p.data.policyType, Elems(ids), index, add);
      TouchKeepsExact(ps[pid := q], i.policies, UpdateEachService(i.access, p.data.policyType, Elems(ids), index, add),
                      p.data.policyType, q.services, index);
    }
    CountNone(i.checks, add);
    ShiftChecks(ps, i.policies, ps[pid := q], i.policies, i.checks, hit, add);
  }

  lemma FollowChecksKeepsExact(ps: map<Id, Policy>, i: Identity, pid: Id, q: Policy, ids: seq<Id>, index: nat, add: bool)
    requires pid in ps && pid in i.policies
    requires q.data == ps[pid].data && q.services == ps[pid].services && q.checks == Amend(ps[pid].checks, Elems(ids), add)
    requires Distinct(ids)
    requires if add then Elems(ids) !! ps[pid].checks else Elems(ids) <= ps[pid].checks
    requires Exact(ps, i)
    ensures Exact(ps[pid := q], if q.services != {} then ChecksChanged(i, pid, ps[pid], ids, index, add) else i)
  {
    var p := ps[pid];
    ReplaceShifts(ps, i.policies, pid, q, {}, if q.services != {} then Elems(ids) else {}, add);
    SameGrants(ps, i.policies, ps[pid := q]);
    if i.tracking {
      TouchKeepsExact(ps[pid := q], i.policies, i.access, p.data.policyType, p.services, index);
    }
    ListedIsEachUse(i.checks, ids, add);
    CountNone(i.checks, add);
    ShiftChecks(ps, i.policies, ps[pid := q], i.policies, i.checks, if q.services != {} then Elems(ids) else {}, add);
  }

  lemma SameGrants(ps: map<Id, Policy>, mine: set<Id>, qs: map<Id, Policy>)
    requires forall p, t, s :: p in mine ==> Grants(ps, p, t, s) == Grants(qs, p, t, s)
    ensures forall t, s :: Granting(ps, mine, t, s) == Granting(qs, mine, t, s)
    ensures forall acc :: ExactAccess(ps, mine, acc) ==> ExactAccess(qs, mine, acc)
  {
  }
}
