// Per-router filtering of router-target configs, and its convergence: the
// router ends up with exactly the router-target configs its own entity lists.
module ConfigFilter {
  import opened DataState
  import opened RelationalView
  import opened ReceiverSpec
  import opened ReceiverInvariant
  import opened ReceiverSteps
  import opened FullSync
  import opened Snapshot
  import SenderSpec

  const ROUTER_TARGET := "router"

  // An unknown config type counts as one that does not target routers.
  function RouterTypes(types: map<Id, ConfigTypeData>): set<Id> {
    set t | t in types && types[t].target == ROUTER_TARGET
  }

  function Listed(routers: map<Id, RouterData>, id: Id): set<Id> {
    if id in routers then Elems(routers[id].configs) else {}
  }

  // What the sender knows when it filters for one router.
  datatype Scope = Scope(routerId: Id, types: set<Id>, listed: set<Id>, configs: map<Id, ConfigData>)

  function ScopeOf(s: SenderSpec.Sender, routerId: Id): Scope {
    Scope(routerId, RouterTypes(s.configTypes), Listed(s.routers, routerId), s.configs)
  }

  function Synthesize(configs: map<Id, ConfigData>, ids: seq<Id>): seq<Event> {
    if ids == [] then [] else
      var id := ids[|ids| - 1];
      Synthesize(configs, ids[..|ids| - 1]) + if id in configs then [ConfigEvent(Create, id, configs[id])] else []
  }

  predicate Withheld(sc: Scope, e: Event) {
    e.ConfigEvent? && e.config.typeId in sc.types && e.id !in sc.listed
  }

  predicate OwnUpdate(sc: Scope, e: Event) {
    e.RouterEvent? && e.id == sc.routerId && !e.action.Delete?
  }

  function FilterEvent(sc: Scope, synthesize: bool, e: Event): seq<Event> {
    if Withheld(sc, e) then []
    else if synthesize && OwnUpdate(sc, e) then Synthesize(sc.configs, e.router.configs) + [e]
    else [e]
  }

  function FilterAll(sc: Scope, synthesize: bool, es: seq<Event>): seq<Event> {
    if es == [] then [] else FilterAll(sc, synthesize, es[..|es| - 1]) + FilterEvent(sc, synthesize, es[|es| - 1])
  }

  predicate NeedsRebuild(sc: Scope, synthesize: bool, e: Event) {
    Withheld(sc, e) || (synthesize && OwnUpdate(sc, e) && e.router.configs != [])
  }

  // When the scan finds nothing to do, rebuilding would change nothing.
  lemma {:induction false} FastPath(sc: Scope, synthesize: bool, es: seq<Event>)
    requires forall k :: 0 <= k < |es| ==> !NeedsRebuild(sc, synthesize, es[k])
    ensures FilterAll(sc, synthesize, es) == es
  {
    if es != [] {
      FastPath(sc, synthesize, es[..|es| - 1]);
      assert FilterEvent(sc, synthesize, es[|es| - 1]) == [es[|es| - 1]];
    }
  }

  /* ---- what a router is sent for each event ---- */

  // The ids the sender has a config for, in the order they are listed.
  function Present(configs: map<Id, ConfigData>, ids: seq<Id>): seq<Id> {
    if ids == [] then [] else (if ids[0] in configs then [ids[0]] else []) + Present(configs, ids[1..])
  }

  lemma {:induction false} PresentMore(configs: map<Id, ConfigData>, ids: seq<Id>, id: Id)
    ensures Present(configs, ids + [id]) == Present(configs, ids) + if id in configs then [id] else []
  {
    if ids == [] {
      assert ids + [id] == [id] && [id][1..] == [];
    } else {
      assert (ids + [id])[1..] == ids[1..] + [id];
      PresentMore(configs, ids[1..], id);
    }
  }

  // Each listed config the sender has is announced as it is there, in order.
  lemma {:induction false} SynthesizedAre(configs: map<Id, ConfigData>, ids: seq<Id>)
    ensures var r, p := Synthesize(configs, ids), Present(configs, ids);
            |r| == |p| && forall k :: 0 <= k < |r| ==> p[k] in configs && r[k] == ConfigEvent(Create, p[k], configs[p[k]])
  {
    if ids != [] {
      var init, id := ids[..|ids| - 1], ids[|ids| - 1];
      assert ids == init + [id];
      SynthesizedAre(configs, init);
      PresentMore(configs, init, id);
    }
  }

  // e is sent as out.
  ghost predicate SentAs(sc: Scope, synthesize: bool, e: Event, out: seq<Event>) {
    if e.ConfigEvent? && e.config.typeId in sc.types && e.id !in sc.listed then out == []
    else if synthesize && e.RouterEvent? && e.id == sc.routerId && !e.action.Delete? then
      var p := Present(sc.configs, e.router.configs);
      && |out| == |p| + 1 && out[|p|] == e
      && forall k :: 0 <= k < |p| ==> p[k] in sc.configs && out[k] == ConfigEvent(Create, p[k], sc.configs[p[k]])
    else out == [e]
  }

  lemma FilterSends(sc: Scope, synthesize: bool, e: Event)
    ensures SentAs(sc, synthesize, e, FilterEvent(sc, synthesize, e))
  {
    if synthesize && OwnUpdate(sc, e) {
      SynthesizedAre(sc.configs, e.router.configs);
    }
  }

  lemma {:induction false} FilterGrows(sc: Scope, synthesize: bool, es: seq<Event>, k: nat)
    requires k <= |es|
    ensures |FilterAll(sc, synthesize, es[..k])| <= |FilterAll(sc, synthesize, es)|
    ensures FilterAll(sc, synthesize, es)[..|FilterAll(sc, synthesize, es[..k])|] == FilterAll(sc, synthesize, es[..k])
  {
    if k == |es| {
      assert es[..k] == es;
    } else {
      FilterGrows(sc, synthesize, es[..|es| - 1], k);
      assert es[..|es| - 1][..k] == es[..k];
    }
  }

  // Event after event, and nothing in between: the part of the output between
  // what the first k and the first k + 1 events give is what es[k] is sent as.
  lemma EachSentInTurn(sc: Scope, synthesize: bool, es: seq<Event>, k: nat)
    requires k < |es|
    ensures var from, to := |FilterAll(sc, synthesize, es[..k])|, |FilterAll(sc, synthesize, es[..k + 1])|;
            from <= to <= |FilterAll(sc, synthesize, es)| && SentAs(sc, synthesize, es[k], FilterAll(sc, synthesize, es)[from..to])
    ensures es[..0] == [] && FilterAll(sc, synthesize, es[..0]) == [] && es[..|es|] == es
  {
    var all, part, more := FilterAll(sc, synthesize, es), FilterAll(sc, synthesize, es[..k]), FilterAll(sc, synthesize, es[..k + 1]);
    assert es[..k + 1][..k] == es[..k];
    FilterGrows(sc, synthesize, es, k + 1);
    FilterSends(sc, synthesize, es[k]);
    assert all[|part|..|more|] == all[..|more|][|part|..] == FilterEvent(sc, synthesize, es[k]);
  }

  /* ---- what filtering acts on ---- */

  datatype Held = Held(configs: map<Id, ConfigData>, routers: map<Id, RouterData>)

  // The local router's shrinking list collects configs; a model that has no
  // local router, such as the sender's, collects nothing.
  function Gone(selfId: Id, routers: map<Id, RouterData>, a: Action, id: Id, d: RouterData): set<Id> {
    if !a.Delete? && selfId != "" && id == selfId then Listed(routers, id) - Elems(d.configs) else {}
  }

  function HeldStep(selfId: Id, h: Held, e: Event): Held {
    if e.ConfigEvent? then
      h.(configs := if e.action.Delete? then h.configs - {e.id} else h.configs[e.id := e.config])
    else if e.RouterEvent? then
      Held(h.configs - Gone(selfId, h.routers, e.action, e.id, e.router),
           if e.action.Delete? then h.routers - {e.id} else h.routers[e.id := e.router])
    else h
  }

  function HeldRun(selfId: Id, h: Held, es: seq<Event>): Held {
    if es == [] then h else HeldStep(selfId, HeldRun(selfId, h, es[..|es| - 1]), es[|es| - 1])
  }

  lemma {:induction false} HeldConcat(selfId: Id, h: Held, a: seq<Event>, b: seq<Event>)
    ensures HeldRun(selfId, h, a + b) == HeldRun(selfId, HeldRun(selfId, h, a), b)
  {
    if b == [] {
      assert a + b == a;
    } else {
      assert (a + b)[..|a + b| - 1] == a + b[..|b| - 1];
      HeldConcat(selfId, h, a, b[..|b| - 1]);
    }
  }

  function HeldOf(m: Model): Held {
    Held(ConfigDatas(m.configs), m.routers)
  }

  lemma HandleHeld(m: Model, index: nat, e: Event)
    ensures HeldOf(Handle(m, index, e)) == HeldStep(m.selfId, HeldOf(m), e)
  {
    if e.ConfigEvent? {
      ConfigHeld(m, index, e.action, e.id, e.config);
    } else if e.RouterEvent? {
      RouterHeld(m, e.action, e.id, e.router);
    } else if e.ServiceEvent? {
      ServiceHeld(m, index, e.action, e.id, e.service);
    } else {
      HandleFrame(m, index, e);
      OtherConfigs(m, index, e);
    }
  }

  lemma OtherConfigs(m: Model, index: nat, e: Event)
    requires !e.ConfigEvent? && !e.RouterEvent? && !e.ServiceEvent?
    ensures ConfigDatas(Handle(m, index, e).configs) == ConfigDatas(m.configs)
  {
    match e
    case ConfigTypeEvent(a, id, d) => assert HandleConfigType(m, index, a, id, d).configs == m.configs;
    case IdentityEvent(a, id, d) => IdentityHeld(m, index, a, id, d);
    case PolicyEvent(a, id, d) => assert UpsertPolicy(m, index, id, d).configs == m.configs && DeletePolicy(m, index, id).configs == m.configs;
    case CheckEvent(a, id, d) => if a.Delete? { DeleteCheckFrame(m, index, id); } else { assert UpsertCheck(m, index, id, d).configs == m.configs; }
    case KeyEvent(a, id, d) =>
    case RevocationEvent(a, id, d) =>
    case PolicyChangeEvent(c) => ChangeFrame(m, index, c);
  }

  lemma ConfigHeld(m: Model, index: nat, a: Action, id: Id, d: ConfigData)
    ensures HeldOf(Handle(m, index, ConfigEvent(a, id, d))) == HeldStep(m.selfId, HeldOf(m), ConfigEvent(a, id, d))
  {
    assert ConfigDatas(m.configs - {id}) == ConfigDatas(m.configs) - {id};
    assert ConfigDatas(m.configs[id := NextConfig(m.configs, index, id, d)]) == ConfigDatas(m.configs)[id := d];
  }

  lemma IdentityHeld(m: Model, index: nat, a: Action, id: Id, d: IdentityData)
    ensures HeldOf(Handle(m, index, IdentityEvent(a, id, d))) == HeldOf(m)
  {
    if a.Delete? {
      DeleteIdentityFrame(m, index, id);
    } else {
      RelinkKeepsDatas(m.configs, id, ConfigsOf(m, id), ReferencedConfigs(d));
      assert HeldOf(UpsertIdentity(m, index, id, d)) == HeldOf(m);
    }
  }

  lemma ServiceHeld(m: Model, index: nat, a: Action, id: Id, d: ServiceData)
    ensures HeldOf(Handle(m, index, ServiceEvent(a, id, d))) == HeldOf(m)
  {
    if a.Delete? {
      if id in m.services {
        DeleteServiceFrame(m, index, id);
      }
    } else {
      RelinkKeepsDatas(m.configs, id, DroppedConfigs(m.services, id, d), AddedConfigs(m.services, id, d));
    }
  }

  lemma RouterHeld(m: Model, a: Action, id: Id, d: RouterData)
    ensures HeldOf(HandleRouter(m, a, id, d)) == HeldStep(m.selfId, HeldOf(m), RouterEvent(a, id, d))
  {
    DropDatas(m.configs, Collected(m, a, id, d));
    assert Collected(m, a, id, d) == Gone(m.selfId, m.routers, a, id, d);
  }

  lemma DropDatas(cs: map<Id, Config>, gone: set<Id>)
    ensures ConfigDatas(cs - gone) == ConfigDatas(cs) - gone
  {
  }

  lemma {:induction false} HandleAllHeld(m: Model, index: nat, es: seq<Event>)
    ensures HeldOf(HandleAll(m, index, es)) == HeldRun(m.selfId, HeldOf(m), es)
    ensures HandleAll(m, index, es).selfId == m.selfId
  {
    if es != [] {
      HandleAllHeld(m, index, es[..|es| - 1]);
      HandleHeld(HandleAll(m, index, es[..|es| - 1]), index, es[|es| - 1]);
      HandleKeepsSelf(HandleAll(m, index, es[..|es| - 1]), index, es[|es| - 1]);
    }
  }

  function HeldOfSender(s: SenderSpec.Sender): Held {
    Held(s.configs, s.routers)
  }

  lemma SenderStepHeld(s: SenderSpec.Sender, e: Event)
    ensures HeldOfSender(SenderSpec.Handle(s, e)) == HeldStep("", HeldOfSender(s), e)
  {
    match e
    case ConfigTypeEvent(a, id, d) =>
    case ConfigEvent(a, id, d) =>
    case IdentityEvent(a, id, d) =>
    case ServiceEvent(a, id, d) =>
    case RouterEvent(a, id, d) =>
    case PolicyEvent(a, id, d) =>
    case CheckEvent(a, id, d) =>
    case KeyEvent(a, id, d) =>
    case RevocationEvent(a, id, d) =>
    case PolicyChangeEvent(c) =>
  }

  lemma {:induction false} SenderHeld(s: SenderSpec.Sender, es: seq<Event>)
    ensures HeldOfSender(SenderSpec.HandleAll(s, es)) == HeldRun("", HeldOfSender(s), es)
  {
    if es != [] {
      SenderHeld(s, es[..|es| - 1]);
      SenderStepHeld(SenderSpec.HandleAll(s, es[..|es| - 1]), es[|es| - 1]);
    }
  }

  /* ---- one change set ---- */

  predicate Targets(types: set<Id>, configs: map<Id, ConfigData>, c: Id) {
    c in configs && configs[c].typeId in types
  }

  // The two sides agree on c as far as router-target configs go.
  predicate SameTarget(types: set<Id>, a: map<Id, ConfigData>, b: map<Id, ConfigData>, c: Id) {
    Targets(types, a, c) || Targets(types, b, c) ==> c in a && c in b && a[c] == b[c]
  }

  // Router-target configs at the router: those listed, as the sender has them.
  ghost predicate Aligned(types: set<Id>, selfId: Id, s: Held, r: Held) {
    && r.routers == s.routers
    && (forall c :: c in Listed(s.routers, selfId) ==> SameTarget(types, r.configs, s.configs, c))
    && (forall c :: Targets(types, r.configs, c) ==> c in Listed(s.routers, selfId))
  }

  ghost predicate Settled(changes: seq<Event>, p: nat, c: Id) {
    forall q :: p <= q < |changes| && changes[q].ConfigEvent? ==> changes[q].id != c
  }

  predicate KeepsOwn(changes: seq<Event>, selfId: Id) {
    forall q :: 0 <= q < |changes| ==> !(changes[q].RouterEvent? && changes[q].id == selfId && changes[q].action.Delete?)
  }

  // Part-way through a change set whose outcome is known to sc: a config that
  // ends up listed is right as soon as nothing more is said about it and it is
  // listed; one that does not can only be there while it is listed.
  ghost predicate OnTrack(sc: Scope, changes: seq<Event>, p: nat, r: Held, c: Id) {
    if c in sc.listed then
      Settled(changes, p, c) ==>
        if c in Listed(r.routers, sc.routerId) then SameTarget(sc.types, r.configs, sc.configs, c)
        else Targets(sc.types, r.configs, c) ==> c in sc.configs && r.configs[c] == sc.configs[c]
    else Targets(sc.types, r.configs, c) ==> c in Listed(r.routers, sc.routerId)
  }

  function Overlay(configs: map<Id, ConfigData>, from: map<Id, ConfigData>, ids: set<Id>): (r: map<Id, ConfigData>)
    ensures forall c :: c in r <==> c in configs || (c in from && c in ids)
    ensures forall c :: c in r ==> r[c] == if c in from && c in ids then from[c] else configs[c]
  {
    map c | c in configs.Keys + (from.Keys * ids) :: if c in from && c in ids then from[c] else configs[c]
  }

  lemma HeldRunOne(selfId: Id, h: Held, e: Event)
    ensures HeldRun(selfId, h, [e]) == HeldStep(selfId, h, e)
  {
    assert [e][..0] == [];
  }

  lemma OverlayNext(configs: map<Id, ConfigData>, from: map<Id, ConfigData>, ids: set<Id>, id: Id)
    ensures Overlay(configs, from, ids + {id}) ==
            if id in from then Overlay(configs, from, ids)[id := from[id]] else Overlay(configs, from, ids)
  {
  }

  lemma {:induction false} SynthesizedHeld(selfId: Id, h: Held, configs: map<Id, ConfigData>, ids: seq<Id>)
    ensures HeldRun(selfId, h, Synthesize(configs, ids)) == h.(configs := Overlay(h.configs, configs, Elems(ids)))
  {
    if ids == [] {
      assert Overlay(h.configs, configs, {}) == h.configs;
    } else {
      var init, id := ids[..|ids| - 1], ids[|ids| - 1];
      SynthesizedHeld(selfId, h, configs, init);
      assert Elems(ids) == Elems(init) + {id};
      OverlayNext(h.configs, configs, Elems(init), id);
      if id in configs {
        var e := ConfigEvent(Create, id, configs[id]);
        HeldConcat(selfId, h, Synthesize(configs, init), [e]);
        HeldRunOne(selfId, HeldRun(selfId, h, Synthesize(configs, init)), e);
      } else {
        assert Synthesize(configs, ids) == Synthesize(configs, init);
      }
    }
  }

  lemma OwnUpdateHeld(sc: Scope, r: Held, e: Event)
    requires OwnUpdate(sc, e) && sc.routerId != ""
    ensures HeldRun(sc.routerId, r, FilterEvent(sc, true, e)) ==
            Held(Overlay(r.configs, sc.configs, Elems(e.router.configs)) - (Listed(r.routers, e.id) - Elems(e.router.configs)),
                 r.routers[e.id := e.router])
  {
    SynthesizedHeld(sc.routerId, r, sc.configs, e.router.configs);
    HeldConcat(sc.routerId, r, Synthesize(sc.configs, e.router.configs), [e]);
    HeldRunOne(sc.routerId, HeldRun(sc.routerId, r, Synthesize(sc.configs, e.router.configs)), e);
  }

  // The last thing a change set says about a config is what the sender is left with.
  ghost predicate LastWord(sc: Scope, changes: seq<Event>, p: nat, c: Id)
    requires p < |changes|
  {
    changes[p].ConfigEvent? && changes[p].id == c && Settled(changes, p + 1, c) ==>
      && (c in sc.configs <==> !changes[p].action.Delete?)
      && (c in sc.configs ==> sc.configs[c] == changes[p].config)
  }

  lemma EventStaysOnTrack(sc: Scope, changes: seq<Event>, p: nat, r: Held, c: Id)
    requires p < |changes| && sc.routerId != "" && KeepsOwn(changes, sc.routerId)
    requires OnTrack(sc, changes, p, r, c) && LastWord(sc, changes, p, c)
    ensures OnTrack(sc, changes, p + 1, HeldRun(sc.routerId, r, FilterEvent(sc, true, changes[p])), c)
  {
    var e := changes[p];
    if e.ConfigEvent? && e.id == c {
      HeldRunOne(sc.routerId, r, e);
    } else {
      assert Settled(changes, p + 1, c) ==> Settled(changes, p, c);
      if OwnUpdate(sc, e) {
        OwnUpdateHeld(sc, r, e);
      } else if !Withheld(sc, e) {
        HeldRunOne(sc.routerId, r, e);
      }
    }
  }

  /* ---- a whole change set ---- */

  lemma {:induction false} SettledKeeps(s: Held, changes: seq<Event>, p: nat, c: Id)
    requires p <= |changes| && Settled(changes, p, c)
    ensures var now, end := HeldRun("", s, changes[..p]).configs, HeldRun("", s, changes).configs;
            (c in now <==> c in end) && (c in now ==> now[c] == end[c])
    decreases |changes| - p
  {
    if p == |changes| {
      assert changes[..p] == changes;
    } else {
      assert changes[..p + 1][..p] == changes[..p];
      SettledKeeps(s, changes, p + 1, c);
    }
  }

  lemma HasLastWord(sc: Scope, s: Held, changes: seq<Event>, p: nat, c: Id)
    requires p < |changes| && sc.configs == HeldRun("", s, changes).configs
    ensures LastWord(sc, changes, p, c)
  {
    if changes[p].ConfigEvent? && changes[p].id == c && Settled(changes, p + 1, c) {
      SettledKeeps(s, changes, p + 1, c);
      assert changes[..p + 1][..p] == changes[..p];
    }
  }

  // The scope of a filter applied once the sender is past the change set.
  ghost predicate Outcome(sc: Scope, s: Held, changes: seq<Event>) {
    var end := HeldRun("", s, changes);
    sc.configs == end.configs && sc.listed == Listed(end.routers, sc.routerId)
  }

  lemma StartsOnTrack(sc: Scope, s: Held, r: Held, changes: seq<Event>, c: Id)
    requires Outcome(sc, s, changes) && Aligned(sc.types, sc.routerId, s, r)
    ensures OnTrack(sc, changes, 0, r, c)
  {
    if Settled(changes, 0, c) {
      SettledKeeps(s, changes, 0, c);
    }
  }

  lemma {:induction false} FilteredRouters(sc: Scope, s: Held, r: Held, changes: seq<Event>)
    requires r.routers == s.routers && sc.routerId != ""
    ensures HeldRun(sc.routerId, r, FilterAll(sc, true, changes)).routers == HeldRun("", s, changes).routers
  {
    if changes != [] {
      var init, e := changes[..|changes| - 1], changes[|changes| - 1];
      FilteredRouters(sc, s, r, init);
      var h := HeldRun(sc.routerId, r, FilterAll(sc, true, init));
      HeldConcat(sc.routerId, r, FilterAll(sc, true, init), FilterEvent(sc, true, e));
      if OwnUpdate(sc, e) {
        OwnUpdateHeld(sc, h, e);
      } else if !Withheld(sc, e) {
        HeldRunOne(sc.routerId, h, e);
      }
    }
  }

  lemma {:induction false} StaysOnTrack(sc: Scope, s: Held, r: Held, changes: seq<Event>, p: nat, c: Id)
    requires p <= |changes| && sc.routerId != "" && KeepsOwn(changes, sc.routerId)
    requires Outcome(sc, s, changes) && Aligned(sc.types, sc.routerId, s, r)
    ensures OnTrack(sc, changes, p, HeldRun(sc.routerId, r, FilterAll(sc, true, changes[..p])), c)
  {
    if p == 0 {
      StartsOnTrack(sc, s, r, changes, c);
    } else {
      StaysOnTrack(sc, s, r, changes, p - 1, c);
      assert changes[..p][..p - 1] == changes[..p - 1];
      HeldConcat(sc.routerId, r, FilterAll(sc, true, changes[..p - 1]), FilterEvent(sc, true, changes[p - 1]));
      HasLastWord(sc, s, changes, p - 1, c);
      EventStaysOnTrack(sc, changes, p - 1, HeldRun(sc.routerId, r, FilterAll(sc, true, changes[..p - 1])), c);
    }
  }

  lemma FilteredStaysAligned(sc: Scope, s: Held, r: Held, changes: seq<Event>)
    requires sc.routerId != "" && KeepsOwn(changes, sc.routerId)
    requires Outcome(sc, s, changes) && Aligned(sc.types, sc.routerId, s, r)
    ensures Aligned(sc.types, sc.routerId, HeldRun("", s, changes), HeldRun(sc.routerId, r, FilterAll(sc, true, changes)))
  {
    var h := HeldRun(sc.routerId, r, FilterAll(sc, true, changes));
    FilteredRouters(sc, s, r, changes);
    forall c
      ensures OnTrack(sc, changes, |changes|, h, c)
    {
      StaysOnTrack(sc, s, r, changes, |changes|, c);
      assert changes[..|changes|] == changes;
    }
    forall c | c in sc.listed
      ensures SameTarget(sc.types, h.configs, sc.configs, c)
    {
      assert OnTrack(sc, changes, |changes|, h, c);
    }
    forall c | Targets(sc.types, h.configs, c)
      ensures c in sc.listed
    {
      assert OnTrack(sc, changes, |changes|, h, c);
    }
  }

  /* ---- lockstep ---- */

  ghost predicate InStep(selfId: Id, s: SenderSpec.Sender, m: Model) {
    m.selfId == selfId && Aligned(RouterTypes(s.configTypes), selfId, HeldOfSender(s), HeldOf(m))
  }

  function SenderAfter(s: SenderSpec.Sender, css: seq<ChangeSet>): SenderSpec.Sender {
    if css == [] then s else SenderSpec.HandleAll(SenderAfter(s, css[..|css| - 1]), css[|css| - 1].changes)
  }

  // The router applies each change set as the sender filters it right after
  // applying it itself.
  ghost function RouterAfter(selfId: Id, s: SenderSpec.Sender, m: Model, css: seq<ChangeSet>): Model {
    if css == [] then m else
      var last := css[|css| - 1];
      HandleAll(RouterAfter(selfId, s, m, css[..|css| - 1]), last.index,
                FilterAll(ScopeOf(SenderAfter(s, css), selfId), true, last.changes))
  }

  // The set of router-target types never changes and the router's own entity
  // is never deleted.
  ghost predicate Steady(selfId: Id, s: SenderSpec.Sender, css: seq<ChangeSet>) {
    css != [] ==>
      && Steady(selfId, s, css[..|css| - 1])
      && KeepsOwn(css[|css| - 1].changes, selfId)
      && RouterTypes(SenderAfter(s, css).configTypes) == RouterTypes(s.configTypes)
  }

  lemma {:induction false} LockstepKeepsStep(selfId: Id, s: SenderSpec.Sender, m: Model, css: seq<ChangeSet>)
    requires selfId != "" && InStep(selfId, s, m) && Steady(selfId, s, css)
    ensures InStep(selfId, SenderAfter(s, css), RouterAfter(selfId, s, m, css))
    ensures RouterTypes(SenderAfter(s, css).configTypes) == RouterTypes(s.configTypes)
  {
    if css != [] {
      var init, last := css[..|css| - 1], css[|css| - 1];
      LockstepKeepsStep(selfId, s, m, init);
      var t, n, u := SenderAfter(s, init), RouterAfter(selfId, s, m, init), SenderAfter(s, css);
      var sc := ScopeOf(u, selfId);
      SenderHeld(t, last.changes);
      HandleAllHeld(n, last.index, FilterAll(sc, true, last.changes));
      FilteredStaysAligned(sc, HeldOfSender(t), HeldOf(n), last.changes);
    }
  }

  /* ---- the filtered snapshot ---- */

  function KeepConfigs(sc: Scope, configs: map<Id, ConfigData>): map<Id, ConfigData> {
    map c | c in configs && !(configs[c].typeId in sc.types && c !in sc.listed) :: configs[c]
  }

  // What a filtered snapshot announces, event by event.
  ghost predicate Filtered(sc: Scope, es: seq<Event>) {
    var fs, v := FilterAll(sc, false, es), Run(EMPTY_VIEW, es);
    Builds(true, fs, v.(configs := KeepConfigs(sc, v.configs)), ServiceTable(es))
  }

  lemma {:induction false} SnapshotFilters(sc: Scope, es: seq<Event>)
    requires WellFormedRun(EMPTY_VIEW, es) && AnnouncedOnce(EMPTY_VIEW, es) && Announces(es)
    ensures Filtered(sc, es)
  {
    if es == [] {
      assert KeepConfigs(sc, map[]) == map[];
    } else {
      var init, e := es[..|es| - 1], es[|es| - 1];
      SnapshotFilters(sc, init);
      FilterOneMore(sc, init, e);
      assert init + [e] == es;
    }
  }

  lemma KeepOneMore(sc: Scope, v: View, e: Event)
    requires e.ConfigEvent? ==> !e.action.Delete? && e.id !in v.configs
    ensures KeepConfigs(sc, Step(v, e).configs) ==
            if e.ConfigEvent? && !Withheld(sc, e) then KeepConfigs(sc, v.configs)[e.id := e.config] else KeepConfigs(sc, v.configs)
  {
    match e
    case ConfigTypeEvent(a, id, d) =>
    case ConfigEvent(a, id, d) =>
    case IdentityEvent(a, id, d) =>
    case ServiceEvent(a, id, d) =>
    case RouterEvent(a, id, d) =>
    case PolicyEvent(a, id, d) =>
    case CheckEvent(a, id, d) =>
    case KeyEvent(a, id, d) =>
    case RevocationEvent(a, id, d) =>
    case PolicyChangeEvent(c) =>
  }

  lemma FilterOneMore(sc: Scope, init: seq<Event>, e: Event)
    requires Filtered(sc, init) && Appendable(true, Run(EMPTY_VIEW, init), e)
    ensures Filtered(sc, init + [e])
  {
    var v, fs := Run(EMPTY_VIEW, init), FilterAll(sc, false, init);
    var w := v.(configs := KeepConfigs(sc, v.configs));
    assert (init + [e])[..|init|] == init;
    KeepOneMore(sc, v, e);
    StepIgnoresConfigs(v, w.configs, e);
    if Withheld(sc, e) {
      assert FilterAll(sc, false, init + [e]) == fs;
    } else {
      assert FilterAll(sc, false, init + [e]) == fs + [e];
      Append(true, fs, Content(w, ServiceTable(init)), e);
    }
  }

  lemma KeptIsAligned(sc: Scope, s: Held)
    requires sc.listed == Listed(s.routers, sc.routerId)
    ensures Aligned(sc.types, sc.routerId, s, s.(configs := KeepConfigs(sc, s.configs)))
  {
  }

  // A router loaded from its filtered snapshot is in step with the sender.
  lemma SnapshotInStep(selfId: Id, s: SenderSpec.Sender, index: nat, es: seq<Event>)
    requires Describes(es, SenderSpec.ViewOf(s), s.services) && Announces(es)
    ensures var m := Load(selfId, index, FilterAll(ScopeOf(s, selfId), false, es));
            Inv(m) && InStep(selfId, s, m) && SharedPart(ViewOf(m)) == SharedPart(SenderSpec.ViewOf(s))
  {
    var sc, v := ScopeOf(s, selfId), SenderSpec.ViewOf(s);
    SnapshotFilters(sc, es);
    var fs := FilterAll(sc, false, es);
    var kept := KeepConfigs(sc, s.configs);
    LoadGivesContent(selfId, index, fs, v.(configs := kept), s.services);
    assert HeldOf(Load(selfId, index, fs)) == HeldOfSender(s).(configs := kept);
    KeptIsAligned(sc, HeldOfSender(s));
    HandleAllHeld(EmptyModel(selfId), index, fs);
  }

  function OfTypes(configs: map<Id, ConfigData>, types: set<Id>): map<Id, ConfigData> {
    map c | c in configs && configs[c].typeId in types :: configs[c]
  }

  function Restrict(configs: map<Id, ConfigData>, ids: set<Id>): map<Id, ConfigData> {
    map c | c in configs && c in ids :: configs[c]
  }

  lemma AlignedIsListed(types: set<Id>, selfId: Id, s: Held, r: Held)
    requires Aligned(types, selfId, s, r)
    ensures OfTypes(r.configs, types) == OfTypes(Restrict(s.configs, Listed(s.routers, selfId)), types)
  {
    var a, b := OfTypes(r.configs, types), OfTypes(Restrict(s.configs, Listed(s.routers, selfId)), types);
    forall c
      ensures c in a <==> c in b
      ensures c in a ==> a[c] == b[c]
    {
      assert c in a ==> Targets(types, r.configs, c);
      assert c in b ==> Targets(types, s.configs, c);
      assert c in Listed(s.routers, selfId) ==> SameTarget(types, r.configs, s.configs, c);
    }
  }

  // Convergence: the router's router-target configs are exactly the sender's
  // configs that the router's entity lists.
  lemma ConfigsConverge(selfId: Id, s: SenderSpec.Sender, index: nat, es: seq<Event>, css: seq<ChangeSet>)
    requires selfId != "" && Describes(es, SenderSpec.ViewOf(s), s.services) && Announces(es) && Steady(selfId, s, css)
    ensures var t := SenderAfter(s, css);
            var m := RouterAfter(selfId, s, Load(selfId, index, FilterAll(ScopeOf(s, selfId), false, es)), css);
            var types := RouterTypes(t.configTypes);
            OfTypes(ConfigDatas(m.configs), types) == OfTypes(Restrict(t.configs, Listed(t.routers, selfId)), types)
  {
    var m := Load(selfId, index, FilterAll(ScopeOf(s, selfId), false, es));
    SnapshotInStep(selfId, s, index, es);
    LockstepKeepsStep(selfId, s, m, css);
    var t, n := SenderAfter(s, css), RouterAfter(selfId, s, m, css);
    AlignedIsListed(RouterTypes(t.configTypes), selfId, HeldOfSender(t), HeldOf(n));
  }

  // Deleting the router's own entity collects nothing, so the two stay in step
  // exactly when the router had no router-target configs to lose.
  lemma OwnDeleteInStepIff(selfId: Id, s: SenderSpec.Sender, m: Model, index: nat, d: RouterData)
    requires selfId != "" && InStep(selfId, s, m)
    ensures InStep(selfId, SenderSpec.Handle(s, RouterEvent(Delete, selfId, d)), Handle(m, index, RouterEvent(Delete, selfId, d))) <==>
            forall c :: c in Listed(s.routers, selfId) && c in s.configs ==> s.configs[c].typeId !in RouterTypes(s.configTypes)
  {
    var e := RouterEvent(Delete, selfId, d);
    var t, n := SenderSpec.Handle(s, e), Handle(m, index, e);
    var types := RouterTypes(s.configTypes);
    assert HeldOf(n).configs == HeldOf(m).configs && Listed(t.routers, selfId) == {};
    forall c
      ensures Targets(types, HeldOf(m).configs, c) <==> c in Listed(s.routers, selfId) && Targets(types, s.configs, c)
    {
      assert c in Listed(s.routers, selfId) ==> SameTarget(types, HeldOf(m).configs, s.configs, c);
    }
    if InStep(selfId, t, n) {
      forall c | c in Listed(s.routers, selfId) && c in s.configs
        ensures s.configs[c].typeId !in types
      {
        assert !Targets(types, HeldOf(n).configs, c);
      }
    } else {
      var c :| Targets(types, HeldOf(n).configs, c);
      assert c in Listed(s.routers, selfId) && Targets(types, s.configs, c);
    }
  }

  // A router with one config of its own keeps it when its entity is deleted.
  lemma OwnDeleteExample(r: RouterData, c: ConfigData, t: ConfigTypeData)
    requires r.configs == ["c"] && c.typeId == "t" && RouterTypes(map["t" := t]) == {"t"}
    ensures var s := SenderSpec.EMPTY_SENDER.(configTypes := map["t" := t], configs := map["c" := c], routers := map["r" := r]);
            var m := EmptyModel("r").(configs := map["c" := Config(c, {}, {}, 1)], routers := map["r" := r]);
            var del := RouterEvent(Delete, "r", r);
            InStep("r", s, m) && !InStep("r", SenderSpec.Handle(s, del), Handle(m, 2, del))
  {
    var s := SenderSpec.EMPTY_SENDER.(configTypes := map["t" := t], configs := map["c" := c], routers := map["r" := r]);
    var m := EmptyModel("r").(configs := map["c" := Config(c, {}, {}, 1)], routers := map["r" := r]);
    assert Listed(s.routers, "r") == {"c"} by {
      assert "c" in Elems(r.configs);
    }
    assert InStep("r", s, m);
    OwnDeleteInStepIff("r", s, m, 2, r);
  }
}
