// The subscription object: it keeps the last view of one identity and tells
// its listeners how the next view differs.
module Subscriptions {
  import opened DataState
  import opened ReceiverSpec
  import opened ServiceLists
  import opened Notifications
  import opened RouterDataModels

  lemma AboutOne(n: Notice, s: Id)
    ensures About([n], s) == if n.ServiceNotice? && n.id == s then [n] else []
    ensures AboutIdentity([n]) == if n.IdentityNotice? then [n] else []
  {
    assert [n][..0] == [];
  }

  // Notices that follow the ones in ns: exactly what Due says of each service.
  ghost predicate Tells(ns: seq<Notice>, due: Id -> seq<Notice>) {
    AboutIdentity(ns) == [] && forall s :: About(ns, s) == due(s)
  }

  lemma TellsOne(ns: seq<Notice>, due: Id -> seq<Notice>, extra: seq<Notice>, s: Id, next: Id -> seq<Notice>)
    requires Tells(ns, due)
    requires forall k :: 0 <= k < |extra| ==> extra[k].ServiceNotice? && extra[k].id == s
    requires forall r :: next(r) == if r == s then due(r) + extra else due(r)
    ensures Tells(ns + extra, next)
  {
    forall r
      ensures About(ns + extra, r) == next(r)
    {
      AboutConcat(ns, extra, r);
      AboutAll(extra, s, r);
    }
    AboutConcat(ns, extra, s);
    AboutAll(extra, s, s);
  }

  lemma {:induction false} AboutAll(ns: seq<Notice>, s: Id, r: Id)
    requires forall k :: 0 <= k < |ns| ==> ns[k].ServiceNotice? && ns[k].id == s
    ensures About(ns, r) == if r == s then ns else []
    ensures AboutIdentity(ns) == []
  {
    if ns != [] {
      AboutAll(ns[..|ns| - 1], s, r);
    }
  }

  function LossOrEdit(was: map<Id, IdentityService>, now: map<Id, IdentityService>, s: Id): seq<Notice> {
    if s !in was then []
    else if s !in now then [ServiceNotice(s, Lost, Some(was[s]), was[s])]
    else EditNotices(s, was[s], now[s])
  }

  function Gain(was: map<Id, IdentityService>, now: map<Id, IdentityService>, s: Id): seq<Notice> {
    if s in now && s !in was then [ServiceNotice(s, Gained, None, now[s])] else []
  }

  function PolicyPart(was: map<Id, IdentityService>, now: map<Id, IdentityService>, s: Id): seq<Notice> {
    if s in now && s in was then PolicyNotices(s, was[s], now[s]) else []
  }

  method TellLossesAndEdits(was: map<Id, IdentityService>, now: map<Id, IdentityService>) returns (ns: seq<Notice>)
    ensures Tells(ns, s => LossOrEdit(was, now, s))
  {
    ns := [];
    var todo := was.Keys;
    while todo != {}
      invariant todo <= was.Keys
      invariant Tells(ns, s => if s in todo then [] else LossOrEdit(was, now, s))
      decreases |todo|
    {
      var s :| s in todo;
      var extra: seq<Notice> := [];
      if s !in now {
        extra := [ServiceNotice(s, Lost, Some(was[s]), was[s])];
      } else {
        var equal := Equals(was[s], now[s]);
        if !equal {
          extra := [ServiceNotice(s, Updated, Some(was[s]), now[s])];
        }
      }
      ghost var rest := todo - {s};
      TellsOne(ns, r => if r in todo then [] else LossOrEdit(was, now, r), extra, s,
               r => if r in rest then [] else LossOrEdit(was, now, r));
      ns := ns + extra;
      todo := todo - {s};
    }
  }

  method TellGains(was: map<Id, IdentityService>, now: map<Id, IdentityService>) returns (ns: seq<Notice>)
    ensures Tells(ns, s => Gain(was, now, s))
  {
    ns := [];
    var todo := now.Keys;
    while todo != {}
      invariant todo <= now.Keys
      invariant Tells(ns, s => if s in todo then [] else Gain(was, now, s))
      decreases |todo|
    {
      var s :| s in todo;
      var extra := if s !in was then [ServiceNotice(s, Gained, None, now[s])] else [];
      ghost var rest := todo - {s};
      TellsOne(ns, r => if r in todo then [] else Gain(was, now, r), extra, s,
               r => if r in rest then [] else Gain(was, now, r));
      ns := ns + extra;
      todo := todo - {s};
    }
  }

  method TellPolicies(was: map<Id, IdentityService>, now: map<Id, IdentityService>) returns (ns: seq<Notice>)
    ensures Tells(ns, s => PolicyPart(was, now, s))
  {
    ns := [];
    var todo := now.Keys;
    while todo != {}
      invariant todo <= now.Keys
      invariant Tells(ns, s => if s in todo then [] else PolicyPart(was, now, s))
      decreases |todo|
    {
      var s :| s in todo;
      var extra := if s in was then PolicyNotices(s, was[s], now[s]) else [];
      assert forall k :: 0 <= k < |extra| ==> extra[k].ServiceNotice? && extra[k].id == s;
      ghost var rest := todo - {s};
      TellsOne(ns, r => if r in todo then [] else PolicyPart(was, now, r), extra, s,
               r => if r in rest then [] else PolicyPart(was, now, r));
      ns := ns + extra;
      todo := todo - {s};
    }
  }

  method StaleChecks(was: map<Id, Check>, now: map<Id, Check>) returns (changed: map<Id, CheckChange>)
    ensures forall c :: c in changed <==> c in was && (c !in now || was[c].index != now[c].index)
    ensures forall c :: c in changed ==> changed[c] == if c !in now then CheckRemoved else CheckUpdated
  {
    changed := map[];
    var todo := was.Keys;
    while todo != {}
      invariant todo <= was.Keys
      invariant forall c :: c in changed <==> c in was && c !in todo && (c !in now || was[c].index != now[c].index)
      invariant forall c :: c in changed ==> changed[c] == if c !in now then CheckRemoved else CheckUpdated
      decreases |todo|
    {
      var c :| c in todo;
      if c !in now {
        changed := changed[c := CheckRemoved];
      } else if was[c].index != now[c].index {
        changed := changed[c := CheckUpdated];
      }
      todo := todo - {c};
    }
  }

  lemma StaleAndNew(was: map<Id, Check>, now: map<Id, Check>, stale: map<Id, CheckChange>, changed: map<Id, CheckChange>)
    requires forall c :: c in stale <==> c in was && (c !in now || was[c].index != now[c].index)
    requires forall c :: c in stale ==> stale[c] == if c !in now then CheckRemoved else CheckUpdated
    requires forall c :: c in changed <==> c in stale || (c in now && c !in was)
    requires forall c :: c in changed ==> changed[c] == if c in stale then stale[c] else CheckAdded
    ensures changed == CheckDelta(was, now)
  {
  }

  method ChangedChecks(was: map<Id, Check>, now: map<Id, Check>) returns (changed: map<Id, CheckChange>)
    ensures changed == CheckDelta(was, now)
  {
    changed := StaleChecks(was, now);
    ghost var stale := changed;
    var todo := now.Keys;
    while todo != {}
      invariant todo <= now.Keys
      invariant forall c :: c in changed <==> c in stale || (c in now && c !in todo && c !in was)
      invariant forall c :: c in changed ==> changed[c] == if c in stale then stale[c] else CheckAdded
      decreases |todo|
    {
      var c :| c in todo;
      if c !in was {
        changed := changed[c := CheckAdded];
      }
      todo := todo - {c};
    }
    StaleAndNew(was, now, stale, changed);
  }

  lemma JoinParts(a: seq<Notice>, b: seq<Notice>, c: seq<Notice>, d: seq<Notice>, e: seq<Notice>, s: Id)
    ensures About(a + b + c + d + e, s) == About(a, s) + About(b, s) + About(c, s) + About(d, s) + About(e, s)
    ensures AboutIdentity(a + b + c + d + e) == AboutIdentity(a) + AboutIdentity(b) + AboutIdentity(c) + AboutIdentity(d) + AboutIdentity(e)
  {
    AboutConcat(a, b, s);
    AboutConcat(a + b, c, s);
    AboutConcat(a + b + c, d, s);
    AboutConcat(a + b + c + d, e, s);
  }

  predicate AtMostOneOfIdentity(ns: seq<Notice>) {
    ns == [] || (|ns| == 1 && ns[0].IdentityNotice?)
  }

  lemma IdentityPart(ns: seq<Notice>, s: Id)
    requires AtMostOneOfIdentity(ns)
    ensures About(ns, s) == [] && AboutIdentity(ns) == ns
  {
    if ns != [] {
      AboutOne(ns[0], s);
      assert ns == [ns[0]];
    }
  }

  lemma PartsAbout(was: map<Id, IdentityService>, now: map<Id, IdentityService>,
                   head: seq<Notice>, edits: seq<Notice>, gains: seq<Notice>, policies: seq<Notice>, tail: seq<Notice>, s: Id)
    requires AtMostOneOfIdentity(head) && AtMostOneOfIdentity(tail)
    requires About(edits, s) == LossOrEdit(was, now, s) && AboutIdentity(edits) == []
    requires About(gains, s) == Gain(was, now, s) && AboutIdentity(gains) == []
    requires About(policies, s) == PolicyPart(was, now, s) && AboutIdentity(policies) == []
    ensures About(head + edits + gains + policies + tail, s) == ServiceNotices(was, now, s)
    ensures AboutIdentity(head + edits + gains + policies + tail) == head + tail
  {
    JoinParts(head, edits, gains, policies, tail, s);
    IdentityPart(head, s);
    IdentityPart(tail, s);
    PartsMakeNotices(was, now, s);
    Unpadded(LossOrEdit(was, now, s), Gain(was, now, s), PolicyPart(was, now, s));
  }

  lemma Unpadded(a: seq<Notice>, b: seq<Notice>, c: seq<Notice>)
    ensures [] + a + b + c + [] == a + b + c
  {
  }

  lemma PartsMakeNotices(was: map<Id, IdentityService>, now: map<Id, IdentityService>, s: Id)
    ensures LossOrEdit(was, now, s) + Gain(was, now, s) + PolicyPart(was, now, s) == ServiceNotices(was, now, s)
  {
    if s in was && s in now {
      assert EditNotices(s, was[s], now[s]) + [] == EditNotices(s, was[s], now[s]);
    }
  }

  // All the notices of a pass over an identity that was there and still is.
  method TellChanges(before: Sub, after: Sub) returns (ns: seq<Notice>)
    requires before.identity.Some? && after.identity.Some?
    ensures Reports(before, after, ns)
  {
    var was, now := before.identity.value, after.identity.value;
    var changed := ChangedChecks(before.checks, after.checks);
    var head := if was.index < now.index && was.data != now.data
                then [IdentityNotice(IdentityUpdated, after.services, after.checks, map[])] else [];
    var tail := if changed != map[]
                then [IdentityNotice(PostureChecksUpdated, after.services, after.checks, changed)] else [];
    var edits := TellLossesAndEdits(before.services, after.services);
    var gains := TellGains(before.services, after.services);
    var policies := TellPolicies(before.services, after.services);
    ns := head + edits + gains + policies + tail;
    forall s
      ensures About(ns, s) == ServiceNotices(before.services, after.services, s)
    {
      PartsAbout(before.services, after.services, head, edits, gains, policies, tail, s);
    }
    PartsAbout(before.services, after.services, head, edits, gains, policies, tail, "");
  }

  class IdentitySubscription {
    const identityId: Id
    var identity: Option<Identity>
    var services: map<Id, IdentityService>
    var checks: map<Id, Check>

    function View(): Sub
      reads this
    {
      Sub(identity, services, checks)
    }

    // Without an identity there is no list.
    predicate Valid()
      reads this
    {
      identity.None? ==> services == map[] && checks == map[]
    }

    constructor (id: Id)
      ensures Valid() && View() == NO_VIEW && identityId == id
    {
      identityId := id;
      identity, services, checks := None, map[], map[];
    }

    // Compare with the model as it is now. An identity seen for the first time
    // has its access tracked from here on.
    method CheckForChanges(rdm: RouterDataModel, resolve: Resolve) returns (ns: seq<Notice>)
      requires Valid()
      modifies this, rdm
      ensures Valid()
      ensures rdm.State() == if old(identity).None? then EnableTracking(old(rdm.State()), identityId) else old(rdm.State())
      ensures var m := rdm.State();
              View() == if identityId in m.identities
                        then var i := m.identities[identityId]; Sub(Some(i), FastServices(m, i, resolve), FastChecks(m, i))
                        else NO_VIEW
      ensures Reports(old(View()), View(), ns)
    {
      var before := View();
      if identityId !in rdm.identities {
        identity, services, checks := None, map[], map[];
        return if before.identity.Some? then [IdentityNotice(IdentityDeleted, map[], map[], map[])] else [];
      }
      if before.identity.None? {
        rdm.EnableServiceAccessTracking(identityId);
      }
      var i := rdm.identities[identityId];
      identity := Some(i);
      services, checks := BuildServiceListUsingDenormalizedData(rdm.State(), i, resolve);
      if before.identity.None? {
        ns := [IdentityNotice(FullState, services, checks, map[])];
      } else {
        ns := TellChanges(before, View());
      }
    }

    // The first view comes from the plain join; a later call leaves it alone.
    method Initialize(rdm: RouterDataModel, resolve: Resolve) returns (state: Sub, wasInitialized: bool)
      requires Valid() && identityId in rdm.identities
      modifies this, rdm
      ensures Valid() && state == View()
      ensures rdm.State() == EnableTracking(old(rdm.State()), identityId)
      ensures wasInitialized == old(identity).Some?
      ensures wasInitialized ==> View() == old(View())
      ensures !wasInitialized ==>
        && identity == Some(old(rdm.State()).identities[identityId])
        && PlainList(rdm.State(), identity.value, resolve, services, checks)
    {
      var i := rdm.identities[identityId];
      if !i.tracking {
        rdm.EnableServiceAccessTracking(identityId);
      }
      wasInitialized := identity.Some?;
      if !wasInitialized {
        identity := Some(i);
        services, checks := BuildServiceList(rdm.State(), i, resolve);
      }
      state := View();
    }

    method IdentityRemoved() returns (ns: seq<Notice>)
      requires Valid()
      modifies this
      ensures Valid() && View() == NO_VIEW
      ensures Reports(old(View()), View(), ns)
    {
      ns := if identity.Some? then [IdentityNotice(IdentityDeleted, map[], map[], map[])] else [];
      identity, services, checks := None, map[], map[];
    }
  }
}
