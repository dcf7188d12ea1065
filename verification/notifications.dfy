// What a subscription tells its listeners when its view of an identity
// changes, and why a listener that applies it holds the same view.
module Notifications {
  import opened DataState
  import opened ReceiverSpec
  import opened ServiceLists

  datatype Option<T> = None | Some(value: T)

  datatype ServiceChange = Gained | Lost | Updated | DialPoliciesChanged | BindPoliciesChanged

  datatype CheckChange = CheckAdded | CheckUpdated | CheckRemoved

  datatype IdentityChange = FullState | IdentityUpdated | PostureChecksUpdated | IdentityDeleted

  datatype Notice =
    | ServiceNotice(id: Id, change: ServiceChange, previous: Option<IdentityService>, service: IdentityService)
    | IdentityNotice(kind: IdentityChange, services: map<Id, IdentityService>, checks: map<Id, Check>, changed: map<Id, CheckChange>)

  // A subscription's view: no identity, or the identity with what it may use.
  datatype Sub = Sub(identity: Option<Identity>, services: map<Id, IdentityService>, checks: map<Id, Check>)

  const NO_VIEW := Sub(None, map[], map[])

  /* ---- comparing services ---- */

  // Services with the same index are taken to be the same version.
  predicate Same(a: IdentityService, b: IdentityService) {
    && (a.service.index == b.service.index || a.service.data == b.service.data)
    && a.dialAllowed == b.dialAllowed
    && a.bindAllowed == b.bindAllowed
    && a.configs == b.configs
  }

  lemma SubmapOfSameSize(a: map<string, IdentityConfig>, b: map<string, IdentityConfig>)
    requires |a| == |b| && forall k :: k in a ==> k in b && a[k] == b[k]
    ensures a == b
  {
    assert a.Keys <= b.Keys;
    assert |b.Keys - a.Keys| == |b.Keys| - |a.Keys|;
    assert b.Keys - a.Keys == {};
  }

  method ConfigsEqual(a: map<string, IdentityConfig>, b: map<string, IdentityConfig>) returns (equal: bool)
    ensures equal <==> a == b
  {
    if |a| != |b| {
      return false;
    }
    var todo := a.Keys;
    while todo != {}
      invariant todo <= a.Keys && forall k :: k in a && k !in todo ==> k in b && a[k] == b[k]
      decreases |todo|
    {
      var k :| k in todo;
      if k !in b || a[k] != b[k] {
        return false;
      }
      todo := todo - {k};
    }
    SubmapOfSameSize(a, b);
    return true;
  }

  method ListsEqual(a: seq<Id>, b: seq<Id>) returns (equal: bool)
    ensures equal <==> a == b
  {
    if |a| != |b| {
      return false;
    }
    for k := 0 to |a|
      invariant a[..k] == b[..k]
    {
      if a[k] != b[k] {
        return false;
      }
    }
    return true;
  }

  method Equals(a: IdentityService, b: IdentityService) returns (equal: bool)
    ensures equal <==> Same(a, b)
  {
    if a.service.index != b.service.index {
      if a.service.data.name != b.service.data.name || a.service.data.encryptionRequired != b.service.data.encryptionRequired {
        return false;
      }
      var same := ListsEqual(a.service.data.configs, b.service.data.configs);
      if !same {
        return false;
      }
    }
    if a.dialAllowed != b.dialAllowed || a.bindAllowed != b.bindAllowed {
      return false;
    }
    equal := ConfigsEqual(a.configs, b.configs);
  }

  /* ---- which notices a change of view calls for ---- */

  function EditNotices(s: Id, was: IdentityService, now: IdentityService): seq<Notice> {
    if Same(was, now) then [] else [ServiceNotice(s, Updated, Some(was), now)]
  }

  function PolicyNotices(s: Id, was: IdentityService, now: IdentityService): seq<Notice> {
    (if now.dialAllowed && was.dialIndex != now.dialIndex then [ServiceNotice(s, DialPoliciesChanged, Some(was), now)] else []) +
    (if now.bindAllowed && was.bindIndex != now.bindIndex then [ServiceNotice(s, BindPoliciesChanged, Some(was), now)] else [])
  }

  function ServiceNotices(was: map<Id, IdentityService>, now: map<Id, IdentityService>, s: Id): seq<Notice> {
    if s in was && s in now then EditNotices(s, was[s], now[s]) + PolicyNotices(s, was[s], now[s])
    else if s in was then [ServiceNotice(s, Lost, Some(was[s]), was[s])]
    else if s in now then [ServiceNotice(s, Gained, None, now[s])]
    else []
  }

  function CheckDelta(was: map<Id, Check>, now: map<Id, Check>): (r: map<Id, CheckChange>)
    ensures forall c :: c in r <==> (c in was && (c !in now || was[c].index != now[c].index)) || (c in now && c !in was)
    ensures forall c :: c in r ==> r[c] == if c !in now then CheckRemoved else if c in was then CheckUpdated else CheckAdded
  {
    map c | c in was.Keys + now.Keys && (c !in now || c !in was || was[c].index != now[c].index)
      :: if c !in now then CheckRemoved else if c in was then CheckUpdated else CheckAdded
  }

  // Applying the delta to the old check ids gives the new ones.
  lemma CheckDeltaApplies(was: map<Id, Check>, now: map<Id, Check>)
    ensures var d := CheckDelta(was, now);
            now.Keys == (set c | c in was && (c in d ==> d[c] != CheckRemoved)) + (set c | c in d && d[c] == CheckAdded)
  {
    var d := CheckDelta(was, now);
    forall c
      ensures c in now <==> (c in was && (c in d ==> d[c] != CheckRemoved)) || (c in d && d[c] == CheckAdded)
    {
    }
  }

  function About(ns: seq<Notice>, s: Id): seq<Notice> {
    if ns == [] then [] else
      var last := ns[|ns| - 1];
      About(ns[..|ns| - 1], s) + if last.ServiceNotice? && last.id == s then [last] else []
  }

  function AboutIdentity(ns: seq<Notice>): seq<Notice> {
    if ns == [] then [] else
      var last := ns[|ns| - 1];
      AboutIdentity(ns[..|ns| - 1]) + if last.IdentityNotice? then [last] else []
  }

  lemma {:induction false} AboutConcat(a: seq<Notice>, b: seq<Notice>, s: Id)
    ensures About(a + b, s) == About(a, s) + About(b, s)
    ensures AboutIdentity(a + b) == AboutIdentity(a) + AboutIdentity(b)
    decreases |b|
  {
    if b == [] {
      assert a + b == a;
    } else {
      assert (a + b)[..|a + b| - 1] == a + b[..|b| - 1];
      AboutConcat(a, b[..|b| - 1], s);
    }
  }

  // The notices that report a change from one view to the next, in any
  // order across services but in this order for each service.
  ghost predicate Reports(before: Sub, after: Sub, ns: seq<Notice>) {
    if after.identity.None? then
      ns == if before.identity.Some? then [IdentityNotice(IdentityDeleted, map[], map[], map[])] else []
    else if before.identity.None? then
      ns == [IdentityNotice(FullState, after.services, after.checks, map[])]
    else
      var was, now := before.identity.value, after.identity.value;
      var delta := CheckDelta(before.checks, after.checks);
      && (forall s :: About(ns, s) == ServiceNotices(before.services, after.services, s))
      && AboutIdentity(ns) ==
         (if was.index < now.index && was.data != now.data then [IdentityNotice(IdentityUpdated, after.services, after.checks, map[])] else []) +
         (if delta != map[] then [IdentityNotice(PostureChecksUpdated, after.services, after.checks, delta)] else [])
  }

  /* ---- the listener's mirror ---- */

  // A listener that follows gained, lost and updated, and, if it cares for
  // policies, the policy notices too.
  function MirrorStep(policies: bool, mirror: map<Id, IdentityService>, n: Notice): map<Id, IdentityService> {
    match n
    case ServiceNotice(s, change, _, service) =>
      (match change
       case Lost => mirror - {s}
       case Gained => mirror[s := service]
       case Updated => mirror[s := service]
       case DialPoliciesChanged => if policies then mirror[s := service] else mirror
       case BindPoliciesChanged => if policies then mirror[s := service] else mirror)
    case IdentityNotice(kind, services, _, _) =>
      (match kind
       case FullState => services
       case IdentityDeleted => map[]
       case IdentityUpdated => mirror
       case PostureChecksUpdated => mirror)
  }

  function Mirror(policies: bool, mirror: map<Id, IdentityService>, ns: seq<Notice>): map<Id, IdentityService> {
    if ns == [] then mirror else MirrorStep(policies, Mirror(policies, mirror, ns[..|ns| - 1]), ns[|ns| - 1])
  }

  predicate SameAt(a: map<Id, IdentityService>, b: map<Id, IdentityService>, s: Id) {
    (s in a <==> s in b) && (s in a ==> a[s] == b[s])
  }

  // Resets replace the whole mirror.
  predicate Resets(n: Notice) {
    n.IdentityNotice? && (n.kind.FullState? || n.kind.IdentityDeleted?)
  }

  lemma StepElsewhere(policies: bool, mirror: map<Id, IdentityService>, n: Notice, s: Id)
    requires !Resets(n) && !(n.ServiceNotice? && n.id == s)
    ensures SameAt(MirrorStep(policies, mirror, n), mirror, s)
  {
  }

  lemma StepHere(policies: bool, a: map<Id, IdentityService>, b: map<Id, IdentityService>, n: Notice, s: Id)
    requires SameAt(a, b, s) && n.ServiceNotice? && n.id == s
    ensures SameAt(MirrorStep(policies, a, n), MirrorStep(policies, b, n), s)
  {
  }

  lemma {:induction false} MirrorFollowsAbout(policies: bool, mirror: map<Id, IdentityService>, ns: seq<Notice>, s: Id)
    requires forall k :: 0 <= k < |ns| ==> !Resets(ns[k])
    ensures SameAt(Mirror(policies, mirror, ns), Mirror(policies, mirror, About(ns, s)), s)
  {
    if ns != [] {
      var init, last := ns[..|ns| - 1], ns[|ns| - 1];
      MirrorFollowsAbout(policies, mirror, init, s);
      var a, b := Mirror(policies, mirror, init), Mirror(policies, mirror, About(init, s));
      if last.ServiceNotice? && last.id == s {
        StepHere(policies, a, b, last, s);
        MirrorConcat(policies, mirror, About(init, s), [last]);
        MirrorOne(policies, b, last);
      } else {
        StepElsewhere(policies, a, last, s);
        assert About(ns, s) == About(init, s);
      }
    }
  }

  // The mirrored service is the one held: equal payload, permissions and
  // configs, and equal policy indices where they matter.
  predicate Agrees(policies: bool, a: IdentityService, b: IdentityService) {
    && a.service.data == b.service.data
    && a.dialAllowed == b.dialAllowed
    && a.bindAllowed == b.bindAllowed
    && a.configs == b.configs
    && (policies && b.dialAllowed ==> a.dialIndex == b.dialIndex)
    && (policies && b.bindAllowed ==> a.bindIndex == b.bindIndex)
  }

  ghost predicate Mirrors(policies: bool, mirror: map<Id, IdentityService>, services: map<Id, IdentityService>) {
    mirror.Keys == services.Keys && forall s :: s in services ==> Agrees(policies, mirror[s], services[s])
  }

  // One version of a service per index.
  ghost predicate OneVersion(was: map<Id, IdentityService>, now: map<Id, IdentityService>) {
    forall s :: s in was && s in now && was[s].service.index == now[s].service.index ==> was[s].service.data == now[s].service.data
  }

  lemma MirrorOne(policies: bool, mirror: map<Id, IdentityService>, n: Notice)
    ensures Mirror(policies, mirror, [n]) == MirrorStep(policies, mirror, n)
  {
    assert [n][..0] == [];
  }

  lemma {:induction false} MirrorConcat(policies: bool, mirror: map<Id, IdentityService>, a: seq<Notice>, b: seq<Notice>)
    ensures Mirror(policies, mirror, a + b) == Mirror(policies, Mirror(policies, mirror, a), b)
    decreases |b|
  {
    if b == [] {
      assert a + b == a;
    } else {
      assert (a + b)[..|a + b| - 1] == a + b[..|b| - 1];
      MirrorConcat(policies, mirror, a, b[..|b| - 1]);
    }
  }

  // The policy notices of one service leave it as it is now, or untouched.
  lemma PolicyNoticesMirror(policies: bool, mirror: map<Id, IdentityService>, s: Id, was: IdentityService, now: IdentityService)
    ensures var ns := PolicyNotices(s, was, now);
            Mirror(policies, mirror, ns) == if policies && ns != [] then mirror[s := now] else mirror
  {
    var dial, bind := ServiceNotice(s, DialPoliciesChanged, Some(was), now), ServiceNotice(s, BindPoliciesChanged, Some(was), now);
    var a := if now.dialAllowed && was.dialIndex != now.dialIndex then [dial] else [];
    var b := if now.bindAllowed && was.bindIndex != now.bindIndex then [bind] else [];
    MirrorOne(policies, mirror, dial);
    MirrorOne(policies, Mirror(policies, mirror, a), bind);
    MirrorConcat(policies, mirror, a, b);
    assert mirror[s := now][s := now] == mirror[s := now];
  }

  lemma ServiceMirrored(policies: bool, mirror: map<Id, IdentityService>, was: map<Id, IdentityService>, now: map<Id, IdentityService>, s: Id)
    requires Mirrors(policies, mirror, was) && OneVersion(was, now)
    ensures var r := Mirror(policies, mirror, ServiceNotices(was, now, s));
            (s in r <==> s in now) && (s in now ==> Agrees(policies, r[s], now[s]))
  {
    if s in was && s in now {
      var edit := EditNotices(s, was[s], now[s]);
      var mid := Mirror(policies, mirror, edit);
      MirrorConcat(policies, mirror, edit, PolicyNotices(s, was[s], now[s]));
      PolicyNoticesMirror(policies, mid, s, was[s], now[s]);
      MirrorOne(policies, mirror, ServiceNotice(s, Updated, Some(was[s]), now[s]));
      assert Agrees(policies, mirror[s], was[s]);
    } else if s in was {
      MirrorOne(policies, mirror, ServiceNotice(s, Lost, Some(was[s]), was[s]));
    } else if s in now {
      MirrorOne(policies, mirror, ServiceNotice(s, Gained, None, now[s]));
    }
  }

  lemma {:induction false} AboutIdentityHasAll(ns: seq<Notice>, k: nat)
    requires k < |ns| && ns[k].IdentityNotice?
    ensures ns[k] in AboutIdentity(ns)
  {
    if k < |ns| - 1 {
      AboutIdentityHasAll(ns[..|ns| - 1], k);
    }
  }

  lemma {:induction false} AboutHasAll(ns: seq<Notice>, k: nat)
    requires k < |ns| && ns[k].ServiceNotice?
    ensures ns[k] in About(ns, ns[k].id)
  {
    if k < |ns| - 1 {
      AboutHasAll(ns[..|ns| - 1], k);
    }
  }

  // What a service notice says: the service as it was in the view before, if
  // it was there, and as it is now, or was if it is lost; and why it is sent.
  lemma NoticeCarries(before: Sub, after: Sub, ns: seq<Notice>, k: nat)
    requires Reports(before, after, ns) && before.identity.Some? && after.identity.Some? && k < |ns| && ns[k].ServiceNotice?
    ensures var n, was, now := ns[k], before.services, after.services;
            && (n.id in was || n.id in now)
            && n.previous == (if n.id in was then Some(was[n.id]) else None)
            && n.service == (if n.id in now then now[n.id] else was[n.id])
            && (n.change.Gained? <==> n.id !in was) && (n.change.Lost? <==> n.id !in now)
            && (n.change.Updated? ==> !Same(was[n.id], now[n.id]))
            && (n.change.DialPoliciesChanged? ==> now[n.id].dialAllowed && was[n.id].dialIndex != now[n.id].dialIndex)
            && (n.change.BindPoliciesChanged? ==> now[n.id].bindAllowed && was[n.id].bindIndex != now[n.id].bindIndex)
  {
    AboutHasAll(ns, k);
    assert ns[k] in ServiceNotices(before.services, after.services, ns[k].id);
  }

  // Whatever changes between two views, a listener that mirrored the first
  // and applies the notices mirrors the second.
  lemma ReportsKeepMirror(policies: bool, mirror: map<Id, IdentityService>, before: Sub, after: Sub, ns: seq<Notice>)
    requires Reports(before, after, ns) && OneVersion(before.services, after.services)
    requires after.identity.None? ==> after.services == map[]
    requires before.identity.None? ==> before.services == map[]
    requires Mirrors(policies, mirror, before.services)
    ensures Mirrors(policies, Mirror(policies, mirror, ns), after.services)
  {
    if after.identity.None? {
      if before.identity.Some? {
        MirrorOne(policies, mirror, IdentityNotice(IdentityDeleted, map[], map[], map[]));
      }
    } else if before.identity.None? {
      MirrorOne(policies, mirror, IdentityNotice(FullState, after.services, after.checks, map[]));
    } else {
      forall k | 0 <= k < |ns|
        ensures !Resets(ns[k])
      {
        if ns[k].IdentityNotice? {
          AboutIdentityHasAll(ns, k);
        }
      }
      var r := Mirror(policies, mirror, ns);
      forall s
        ensures s in r <==> s in after.services
        ensures s in after.services ==> Agrees(policies, r[s], after.services[s])
      {
        MirrorFollowsAbout(policies, mirror, ns, s);
        ServiceMirrored(policies, mirror, before.services, after.services, s);
      }
    }
  }

  /* ---- the whole life of a listener ---- */

  datatype Pass = Pass(after: Sub, notices: seq<Notice>)

  function LastView(first: Sub, passes: seq<Pass>): Sub {
    if passes == [] then first else passes[|passes| - 1].after
  }

  function Delivered(passes: seq<Pass>): seq<Notice> {
    if passes == [] then [] else Delivered(passes[..|passes| - 1]) + passes[|passes| - 1].notices
  }

  // Each pass reports the step from the view before it.
  ghost predicate Lifetime(first: Sub, passes: seq<Pass>) {
    if passes == [] then first.identity.None? ==> first.services == map[]
    else
      var init, last := passes[..|passes| - 1], passes[|passes| - 1];
      && Lifetime(first, init)
      && Reports(LastView(first, init), last.after, last.notices)
      && OneVersion(LastView(first, init).services, last.after.services)
      && (last.after.identity.None? ==> last.after.services == map[])
  }

  // A listener that starts from the full state and applies every notice
  // delivered since always mirrors the subscription.
  lemma {:induction false} MirrorStaysTrue(policies: bool, first: Sub, passes: seq<Pass>)
    requires Lifetime(first, passes)
    ensures Mirrors(policies, Mirror(policies, first.services, Delivered(passes)), LastView(first, passes).services)
    ensures LastView(first, passes).identity.None? ==> LastView(first, passes).services == map[]
  {
    if passes != [] {
      var init, last := passes[..|passes| - 1], passes[|passes| - 1];
      MirrorStaysTrue(policies, first, init);
      var mirror := Mirror(policies, first.services, Delivered(init));
      MirrorConcat(policies, first.services, Delivered(init), last.notices);
      ReportsKeepMirror(policies, mirror, LastView(first, init), last.after, last.notices);
    }
  }

  // The mirrored services compare equal to those held.
  lemma MirrorsCompareEqual(policies: bool, mirror: map<Id, IdentityService>, services: map<Id, IdentityService>, s: Id)
    requires Mirrors(policies, mirror, services) && s in services
    ensures s in mirror && Same(mirror[s], services[s])
  {
    assert Agrees(policies, mirror[s], services[s]);
  }
}
