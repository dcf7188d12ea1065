// What a step may do to a subscription's view and to the tracking of its
// identity: views move only where a step handles them, to what the model then
// shows, and identities are tracked while somebody is subscribed.
module SyncViews {
  import opened DataState
  import opened ReceiverSpec
  import opened IdentityViews
  import opened SyncChecks
  import opened MissedChanges

  /* ---- views ---- */

  // The step handles a check or a sync of this subscription, or begins or ends it.
  predicate Handles(st: State, step: Step, id: Id)
    requires Enabled(st, step)
  {
    match step
    case Apply(index, e, checks) => false
    case QueueSyncAll => false
    case ProcessNext => st.queue[0].SyncAll? || st.queue[0].id == id
    case Scan => BitsOf(st, id) != {}
    case Subscribe(other, isRouter) => other == id && (id in st.subs ==> st.subs[id].look.NoLook?)
    case Unsubscribe(other) => other == id
  }

  lemma ProcessSpares(st: State, kind: Kind, other: Id, id: Id)
    requires other != id && id in st.subs
    ensures id in ProcessCheck(st, kind, other).subs && ProcessCheck(st, kind, other).subs[id] == st.subs[id]
  {
  }

  lemma AppliedSubs(st: State, index: nat, e: Event, checks: seq<Item>)
    requires Enabled(st, Apply(index, e, checks))
    ensures var n := Next(st, Apply(index, e, checks)); n.subs == st.subs && n.model == Handle(st.model, index, e)
  {
    QueueEachMarks(st.(model := Handle(st.model, index, e)), checks, "", Updated);
  }

  // Any other step leaves the subscription and its view alone. In particular a
  // second subscriber does not disturb what the first has seen.
  lemma ViewStays(st: State, step: Step, id: Id)
    requires Enabled(st, step) && id in st.subs && !Handles(st, step, id)
    ensures id in Next(st, step).subs && Next(st, step).subs[id] == st.subs[id]
  {
    match step
    case Apply(index, e, checks) => AppliedSubs(st, index, e, checks);
    case QueueSyncAll =>
    case ProcessNext => ProcessSpares(st.(queue := st.queue[1..]), st.queue[0].kind, st.queue[0].id, id);
    case Scan =>
    case Subscribe(other, isRouter) =>
    case Unsubscribe(other) =>
  }

  predicate Blind(st: State, id: Id) {
    id in st.subs ==> st.subs[id].look.NoLook?
  }

  // A subscription that has seen nothing takes the plain list when it begins
  // and when it learns that the identity was created; every other look is
  // taken from the counts.
  predicate TakesPlain(st: State, step: Step, id: Id)
    requires Enabled(st, step)
  {
    Blind(st, id) &&
    match step
    case Subscribe(other, isRouter) => other == id
    case ProcessNext => st.queue[0] == CheckOf(Added, id)
    case Scan => Updated !in BitsOf(st, id)
    case _ => false
  }

  ghost predicate LooksNow(st: State, n: State, plain: bool, id: Id) {
    id in n.subs && n.subs[id].look.Look? && (id in st.subs ==> n.subs[id].look != st.subs[id].look) ==>
      n.subs[id].look == LookAt(n.model, id, !plain)
  }

  lemma ProcessLooks(st: State, kind: Kind, id: Id, other: Id)
    ensures LooksNow(st, ProcessCheck(st, kind, other), Blind(st, id) && other == id && kind.Added?, id)
  {
    if other != id && id in st.subs {
      ProcessSpares(st, kind, other, id);
    }
  }

  lemma ScanLooks(st: State, id: Id)
    ensures LooksNow(st, ScanAll(st), Blind(st, id) && Updated !in BitsOf(st, id), id)
  {
  }

  lemma SubscribeLooks(st: State, other: Id, isRouter: bool, id: Id)
    ensures LooksNow(st, SubscribeTo(st, other, isRouter), Blind(st, id) && other == id, id)
  {
  }

  // A view that changes is what the model shows after the step.
  lemma ViewIsTaken(st: State, step: Step, id: Id)
    requires Enabled(st, step)
    ensures LooksNow(st, Next(st, step), TakesPlain(st, step, id), id)
  {
    match step
    case Apply(index, e, checks) => AppliedSubs(st, index, e, checks);
    case QueueSyncAll =>
    case ProcessNext =>
      if st.queue[0].CheckOf? {
        ProcessLooks(st.(queue := st.queue[1..]), st.queue[0].kind, id, st.queue[0].id);
      }
    case Scan => ScanLooks(st, id);
    case Subscribe(other, isRouter) => SubscribeLooks(st, other, isRouter, id);
    case Unsubscribe(other) =>
  }

  /* ---- tracking ---- */

  predicate Orphan(st: State, id: Id) {
    Tracked(st.model, id) && id !in st.subs
  }

  // A delete is handled once the identity is back and tracked, and ends the
  // subscription.
  predicate OrphansRecreated(st: State, step: Step, id: Id)
    requires Enabled(st, step)
  {
    && id in st.subs && !st.subs[id].isRouter && Tracked(st.model, id)
    && ((step.ProcessNext? && st.queue[0] == CheckOf(Deleted, id)) || (step.Scan? && Deleted in BitsOf(st, id)))
  }

  lemma HandleKeepsTracking(m: Model, index: nat, e: Event, i: Id)
    ensures Tracked(Handle(m, index, e), i) ==> Tracked(m, i)
  {
    StaysTracked(m, index, e, i);
    if i !in m.identities && i in Handle(m, index, e).identities {
      NewIsUntracked(m, index, e, i);
    }
  }

  lemma NewIsUntracked(m: Model, index: nat, e: Event, i: Id)
    requires i !in m.identities && i in Handle(m, index, e).identities
    ensures !Handle(m, index, e).identities[i].tracking
  {
    StaysTracked(m, index, e, i);
    assert Handle(m, index, e) == UpsertIdentity(m, index, i, e.identity);
  }

  lemma ProcessOrphansIff(st: State, kind: Kind, other: Id, id: Id)
    requires !Orphan(st, id)
    ensures Orphan(ProcessCheck(st, kind, other), id) <==>
            other == id && kind.Deleted? && id in st.subs && !st.subs[id].isRouter && Tracked(st.model, id)
  {
    TrackAllSpares(st.model, {other}, id);
  }

  lemma SyncOrphansNobody(st: State, id: Id)
    requires !Orphan(st, id)
    ensures !Orphan(SyncEvery(st), id)
  {
    TrackAllSpares(st.model, (set i | i in st.subs && st.subs[i].look.NoLook?), id);
  }

  lemma ScanOrphansIff(st: State, id: Id)
    requires !Orphan(st, id)
    ensures Orphan(ScanAll(st), id) <==>
            Deleted in BitsOf(st, id) && id in st.subs && !st.subs[id].isRouter && Tracked(st.model, id)
  {
    TrackAllSpares(st.model, ScanTracks(st), id);
  }

  // An identity is tracked only while somebody is subscribed to it, except
  // exactly when a delete is handled late.
  lemma OrphansIff(st: State, step: Step, id: Id)
    requires Enabled(st, step) && !Orphan(st, id)
    ensures Orphan(Next(st, step), id) <==> OrphansRecreated(st, step, id)
  {
    match step
    case Apply(index, e, checks) =>
      AppliedSubs(st, index, e, checks);
      HandleKeepsTracking(st.model, index, e, id);
    case QueueSyncAll =>
    case ProcessNext =>
      var rest := st.(queue := st.queue[1..]);
      if st.queue[0].CheckOf? {
        ProcessOrphansIff(rest, st.queue[0].kind, st.queue[0].id, id);
      } else {
        SyncOrphansNobody(rest, id);
      }
    case Scan => ScanOrphansIff(st, id);
    case Subscribe(other, isRouter) => TrackAllSpares(st.model, {other}, id);
    case Unsubscribe(other) =>
  }

  ghost predicate NeverOrphans(st: State, steps: seq<Step>, id: Id) {
    steps != [] ==>
      var init, last := steps[..|steps| - 1], steps[|steps| - 1];
      NeverOrphans(st, init, id) && !(Enabled(After(st, init), last) && OrphansRecreated(After(st, init), last, id))
  }

  lemma {:induction false} TrackedIsSubscribed(selfId: Id, steps: seq<Step>, id: Id)
    requires Possible(Start(selfId), steps) && NeverOrphans(Start(selfId), steps, id)
    ensures Tracked(After(Start(selfId), steps).model, id) ==> id in After(Start(selfId), steps).subs
  {
    if steps != [] {
      TrackedIsSubscribed(selfId, steps[..|steps| - 1], id);
      OrphansIff(After(Start(selfId), steps[..|steps| - 1]), steps[|steps| - 1], id);
    }
  }
}
