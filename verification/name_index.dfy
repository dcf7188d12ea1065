// The index from service names to service ids.
module NameIndex {
  import opened DataState
  import opened ReceiverSpec
  import opened ReceiverInvariant
  import opened ReceiverSteps
  import opened ReceiverRuns
  import opened FullSync

  // What the index is kept against: the names of the live services.
  function NamesOf(ss: map<Id, Service>): (r: map<Id, string>)
    ensures r.Keys == ss.Keys && forall s :: s in r ==> r[s] == ss[s].data.name
  {
    map s | s in ss :: ss[s].data.name
  }

  // Every entry points at a live service that bears the name.
  ghost predicate PointsRight(names: map<string, Id>, live: map<Id, string>) {
    forall n :: n in names ==> names[n] in live && live[names[n]] == n
  }

  // Every live service is found under its name.
  ghost predicate FindsAll(names: map<string, Id>, live: map<Id, string>) {
    forall s :: s in live ==> live[s] in names && names[live[s]] == s
  }

  function NamesAfterDelete(names: map<string, Id>, live: map<Id, string>, id: Id): map<string, Id> {
    if id in live then Unname(names, live[id], id) else names
  }

  function NamesAfterUpsert(names: map<string, Id>, live: map<Id, string>, id: Id, name: string): map<string, Id> {
    (if id in live && live[id] != name then Unname(names, live[id], id) else names)[name := id]
  }

  lemma UpsertPointsRight(names: map<string, Id>, live: map<Id, string>, id: Id, name: string)
    requires PointsRight(names, live) && forall s :: s in live ==> live[s] != ""
    ensures PointsRight(NamesAfterUpsert(names, live, id, name), live[id := name])
  {
  }

  lemma DeletePointsRight(names: map<string, Id>, live: map<Id, string>, id: Id)
    requires PointsRight(names, live) && forall s :: s in live ==> live[s] != ""
    ensures PointsRight(NamesAfterDelete(names, live, id), live - {id})
  {
  }

  lemma UpsertFindsAll(names: map<string, Id>, live: map<Id, string>, id: Id, name: string)
    requires FindsAll(names, live) && forall s :: s in live && s != id ==> live[s] != name
    ensures FindsAll(NamesAfterUpsert(names, live, id, name), live[id := name])
  {
  }

  lemma DeleteFindsAll(names: map<string, Id>, live: map<Id, string>, id: Id)
    requires FindsAll(names, live)
    ensures FindsAll(NamesAfterDelete(names, live, id), live - {id})
  {
  }

  /* ---- what each event does to names ---- */

  lemma NonServiceKeepsNames(m: Model, index: nat, e: Event)
    requires !e.ServiceEvent?
    ensures Handle(m, index, e).names == m.names && NamesOf(Handle(m, index, e).services) == NamesOf(m.services)
  {
    if e.RouterEvent? {
      assert HandleRouter(m, e.action, e.id, e.router).services == m.services;
    } else {
      HandleFrame(m, index, e);
    }
  }

  lemma DeleteNames(m: Model, index: nat, id: Id)
    ensures var n := DeleteService(m, index, id);
            && n.names == NamesAfterDelete(m.names, NamesOf(m.services), id)
            && NamesOf(n.services) == NamesOf(m.services) - {id}
  {
    if id in m.services {
      DeleteServiceFrame(m, index, id);
      assert NamesOf(m.services - {id}) == NamesOf(m.services) - {id};
    }
  }

  lemma UpsertNames(m: Model, index: nat, id: Id, d: ServiceData)
    ensures var n := UpsertService(m, index, id, d);
            && n.names == NamesAfterUpsert(m.names, NamesOf(m.services), id, d.name)
            && NamesOf(n.services) == NamesOf(m.services)[id := d.name]
  {
    var s := NextService(m.services, index, id, d);
    assert NamesOf(m.services[id := s]) == NamesOf(m.services)[id := s.data.name];
  }

  lemma TrackingKeepsNames(m: Model, op: Op)
    requires !op.Apply?
    ensures Perform(m, op).names == m.names && Perform(m, op).services == m.services
  {
  }

  /* ---- whole runs ---- */

  ghost predicate Named(m: Model) {
    && PointsRight(m.names, NamesOf(m.services))
    && forall s :: s in m.services ==> m.services[s].data.name != ""
  }

  lemma HandleNamed(m: Model, index: nat, e: Event)
    requires Named(m) && (e.ServiceEvent? && !e.action.Delete? ==> e.service.name != "")
    ensures Named(Handle(m, index, e))
  {
    var n, live := Handle(m, index, e), NamesOf(m.services);
    if e.ServiceEvent? {
      if e.action.Delete? {
        DeleteNames(m, index, e.id);
        DeletePointsRight(m.names, live, e.id);
      } else {
        UpsertNames(m, index, e.id, e.service);
        UpsertPointsRight(m.names, live, e.id, e.service.name);
      }
    } else {
      NonServiceKeepsNames(m, index, e);
    }
    assert forall s :: s in NamesOf(n.services) ==> NamesOf(n.services)[s] != "";
  }

  // With non-empty names every entry points at a live service of that name,
  // after any mix of events.
  lemma {:induction false} NameIndexSound(selfId: Id, ops: seq<Op>)
    requires forall k :: 0 <= k < |ops| && ops[k].Apply? && ops[k].event.ServiceEvent? && !ops[k].event.action.Delete? ==>
      ops[k].event.service.name != ""
    ensures Named(PerformAll(EmptyModel(selfId), ops))
  {
    if ops != [] {
      var init, last := ops[..|ops| - 1], ops[|ops| - 1];
      NameIndexSound(selfId, init);
      var m := PerformAll(EmptyModel(selfId), init);
      if last.Apply? {
        HandleNamed(m, last.index, last.event);
      } else {
        TrackingKeepsNames(m, last);
      }
    }
  }

  // No two live services ever bear the same name.
  ghost predicate UniqueNames(m: Model, ops: seq<Op>) {
    ops != [] ==>
      var init, last := ops[..|ops| - 1], ops[|ops| - 1];
      && UniqueNames(m, init)
      && (last.Apply? && last.event.ServiceEvent? && !last.event.action.Delete? ==>
            forall s :: s in PerformAll(m, init).services && s != last.event.id ==>
              PerformAll(m, init).services[s].data.name != last.event.service.name)
  }

  lemma HandleFindsAll(m: Model, index: nat, e: Event)
    requires FindsAll(m.names, NamesOf(m.services))
    requires e.ServiceEvent? && !e.action.Delete? ==>
      forall s :: s in m.services && s != e.id ==> m.services[s].data.name != e.service.name
    ensures FindsAll(Handle(m, index, e).names, NamesOf(Handle(m, index, e).services))
  {
    if e.ServiceEvent? {
      if e.action.Delete? {
        DeleteNames(m, index, e.id);
        DeleteFindsAll(m.names, NamesOf(m.services), e.id);
      } else {
        UpsertNames(m, index, e.id, e.service);
        UpsertFindsAll(m.names, NamesOf(m.services), e.id, e.service.name);
      }
    } else {
      NonServiceKeepsNames(m, index, e);
    }
  }

  // On streams that keep names unique every live service is found under its
  // name; with non-empty names the index is then a bijection.
  lemma {:induction false} NameIndexComplete(selfId: Id, ops: seq<Op>)
    requires UniqueNames(EmptyModel(selfId), ops)
    ensures var m := PerformAll(EmptyModel(selfId), ops); FindsAll(m.names, NamesOf(m.services))
  {
    if ops != [] {
      var init, last := ops[..|ops| - 1], ops[|ops| - 1];
      NameIndexComplete(selfId, init);
      var m := PerformAll(EmptyModel(selfId), init);
      if last.Apply? {
        HandleFindsAll(m, last.index, last.event);
      } else {
        TrackingKeepsNames(m, last);
      }
    }
  }

  /* ---- services without a name ---- */

  // Deleting a nameless service leaves its entry behind.
  lemma DeletePointsRightIff(m: Model, index: nat, id: Id)
    requires PointsRight(m.names, NamesOf(m.services)) && id in m.services
    ensures PointsRight(DeleteService(m, index, id).names, NamesOf(DeleteService(m, index, id).services)) <==>
            !(m.services[id].data.name == "" && "" in m.names && m.names[""] == id)
  {
    DeleteNames(m, index, id);
    var n := DeleteService(m, index, id);
    if m.services[id].data.name == "" && "" in m.names && m.names[""] == id {
      assert n.names[""] == id && id !in NamesOf(n.services);
    }
  }

  // So does giving a nameless service a name.
  lemma RenamePointsRightIff(m: Model, index: nat, id: Id, d: ServiceData)
    requires PointsRight(m.names, NamesOf(m.services)) && id in m.services
    ensures PointsRight(UpsertService(m, index, id, d).names, NamesOf(UpsertService(m, index, id, d).services)) <==>
            !(m.services[id].data.name == "" && d.name != "" && "" in m.names && m.names[""] == id)
  {
    UpsertNames(m, index, id, d);
    var n := UpsertService(m, index, id, d);
    if m.services[id].data.name == "" && d.name != "" && "" in m.names && m.names[""] == id {
      assert n.names[""] == id && NamesOf(n.services)[id] != "";
    }
  }

  lemma NamelessExample(d: ServiceData, e: ServiceData)
    requires d.name == "" && e.name == "n"
    ensures var m := UpsertService(EmptyModel(""), 1, "s", d);
            && PointsRight(m.names, NamesOf(m.services))
            && DeleteService(m, 2, "s").services == map[] && DeleteService(m, 2, "s").names == map["" := "s"]
            && UpsertService(m, 2, "s", e).names == map["" := "s", "n" := "s"]
  {
    var m := UpsertService(EmptyModel(""), 1, "s", d);
    DeleteServiceFrame(m, 2, "s");
  }
}
