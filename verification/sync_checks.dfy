// How subscriptions learn that their identity changed: a check bit per kind of
// change, a bounded queue of events, and a scan token for when the queue is full.
module SyncChecks {
  import opened DataState
  import RelationalView
  import opened ReceiverSpec
  import ReceiverCounts
  import opened ReceiverInvariant
  import ReceiverRuns
  import opened IdentityViews
  import opened MissedChanges

  const QUEUE_CAPACITY := 250

  datatype Kind = Added | Updated | Deleted

  datatype Item = CheckOf(kind: Kind, id: Id) | SyncAll

  // What a subscription last saw of its identity, and whether with the policy
  // indices of the fast list.
  datatype Look = NoLook | Look(indexed: bool, shown: Shown)

  // A router's own identity may be deleted and recreated, so its subscription
  // outlives a delete.
  datatype Subscription = Subscription(isRouter: bool, look: Look)

  datatype State = State(model: Model, bits: map<Id, set<Kind>>, queue: seq<Item>, scan: bool, subs: map<Id, Subscription>)

  function Start(selfId: Id): State {
    State(EmptyModel(selfId), map[], [], false, map[])
  }

  function BitsOf(st: State, id: Id): set<Kind> {
    if id in st.bits then st.bits[id] else {}
  }

  // An entry whose last bit is cleared is removed.
  function Clear(bits: map<Id, set<Kind>>, id: Id, kind: Kind): map<Id, set<Kind>> {
    if id !in bits then bits
    else if bits[id] - {kind} == {} then bits - {id}
    else bits[id := bits[id] - {kind}]
  }

  /* ---- queueing ---- */

  // Marking and queueing, with the scan token as the fallback.
  function Queue(st: State, item: Item): State {
    if item.SyncAll? || item.id !in st.subs then st
    else
      var marked := st.(bits := st.bits[item.id := BitsOf(st, item.id) + {item.kind}]);
      if |st.queue| < QUEUE_CAPACITY then marked.(queue := st.queue + [item]) else marked.(scan := true)
  }

  function QueueEach(st: State, items: seq<Item>): State {
    if items == [] then st else Queue(QueueEach(st, items[..|items| - 1]), items[|items| - 1])
  }

  function ChecksOf(m: Model, e: Event): set<Item> {
    (set i | i in QueuedUpdates(m, e) :: CheckOf(Updated, i)) +
    (if e.IdentityEvent? && e.action.Create? then {CheckOf(Added, e.id)}
     else if e.IdentityEvent? && e.action.Delete? then {CheckOf(Deleted, e.id)} else {})
  }

  /* ---- looking ---- */

  function LookAt(m: Model, id: Id, indexed: bool): Look {
    if id in m.identities then Look(indexed, ShownOf(m, m.identities[id], indexed)) else NoLook
  }

  ghost function TrackAll(m: Model, ids: set<Id>): Model {
    m.(identities := map i | i in m.identities :: if i in ids then Tracking(m.identities[i], m.policies) else m.identities[i])
  }

  // Tracking is turned on only for a subscription that saw nothing so far.
  ghost function CheckForChanges(st: State, id: Id): State {
    if id !in st.subs then st
    else
      var m := if st.subs[id].look.NoLook? then TrackAll(st.model, {id}) else st.model;
      st.(model := m, subs := st.subs[id := st.subs[id].(look := LookAt(m, id, true))])
  }

  // A new subscription, or one still waiting, takes the plain list if the
  // identity is there.
  ghost function Initialize(st: State, id: Id): State
    requires id in st.subs
  {
    var m := TrackAll(st.model, {id});
    st.(model := m, subs := if st.subs[id].look.NoLook? then st.subs[id := st.subs[id].(look := LookAt(m, id, false))] else st.subs)
  }

  ghost function CheckNew(st: State, id: Id): State {
    if id !in st.subs || id !in st.model.identities then st
    else if st.subs[id].look.NoLook? then Initialize(st, id)
    else CheckForChanges(Initialize(st, id), id)
  }

  function CheckDeleted(st: State, id: Id): State {
    if id !in st.subs then st
    else if st.subs[id].isRouter then st.(subs := st.subs[id := st.subs[id].(look := NoLook)])
    else st.(subs := st.subs - {id})
  }

  ghost function ProcessCheck(st: State, kind: Kind, id: Id): State {
    match kind
    case Updated =>
      if id !in st.subs then st
      else
        var cleared := st.(bits := Clear(st.bits, id, Updated));
        if Updated in BitsOf(st, id) then CheckForChanges(cleared, id) else cleared
    case Added =>
      var cleared := st.(bits := Clear(st.bits, id, Added));
      if Added in BitsOf(st, id) then CheckNew(cleared, id) else cleared
    case Deleted => CheckDeleted(st.(bits := Clear(st.bits, id, Deleted)), id)
  }

  // What a full sync does to one subscription, for all of them.
  ghost function SyncEvery(st: State): State {
    var m := TrackAll(st.model, set id | id in st.subs && st.subs[id].look.NoLook?);
    st.(model := m,
        bits := map id | id in st.bits && !(id in st.subs && st.bits[id] - {Updated} == {})
                  :: if id in st.subs then st.bits[id] - {Updated} else st.bits[id],
        subs := map id | id in st.subs :: st.subs[id].(look := LookAt(m, id, true)))
  }

  function ScanTracks(st: State): set<Id> {
    set id | id in st.subs && id in st.model.identities && Deleted !in BitsOf(st, id) &&
             (Added in BitsOf(st, id) || (Updated in BitsOf(st, id) && st.subs[id].look.NoLook?))
  }

  // Whether the scan keeps the subscription of id, and what it makes of it.
  function ScanLook(st: State, m: Model, id: Id): Look
    requires id in st.subs
  {
    var b, look := BitsOf(st, id), st.subs[id].look;
    if Deleted in b then NoLook
    else if Updated in b then LookAt(m, id, true)
    else if Added in b && id in m.identities then LookAt(m, id, look.Look?)
    else look
  }

  // Every marked identity is checked and its bits dropped. A set Deleted bit
  // ends the matter for that identity, whatever other bits it has.
  ghost function ScanAll(st: State): State {
    var m := TrackAll(st.model, ScanTracks(st));
    st.(model := m,
        bits := map[],
        scan := false,
        subs := map id | id in st.subs && !(Deleted in BitsOf(st, id) && !st.subs[id].isRouter)
                  :: st.subs[id].(look := ScanLook(st, m, id)))
  }

  /* ---- steps ---- */

  // An event queues its checks in whatever order, one more than once.
  datatype Step =
    | Apply(index: nat, event: Event, checks: seq<Item>)
    | QueueSyncAll
    | ProcessNext
    | Scan
    | Subscribe(id: Id, isRouter: bool)
    | Unsubscribe(id: Id)

  predicate Enabled(st: State, step: Step) {
    match step
    case Apply(index, e, checks) => RelationalView.WellFormed(ViewOf(st.model), e) && (set x | x in checks) == ChecksOf(st.model, e)
    case QueueSyncAll => |st.queue| < QUEUE_CAPACITY
    case ProcessNext => st.queue != []
    case Scan => st.scan
    case _ => true
  }

  ghost function Process(st: State): State
    requires st.queue != []
  {
    var rest := st.(queue := st.queue[1..]);
    match st.queue[0]
    case CheckOf(kind, id) => ProcessCheck(rest, kind, id)
    case SyncAll => SyncEvery(rest)
  }

  ghost function SubscribeTo(st: State, id: Id, isRouter: bool): State {
    Initialize(if id in st.subs then st else st.(subs := st.subs[id := Subscription(isRouter, NoLook)]), id)
  }

  function UnsubscribeFrom(st: State, id: Id): State {
    if id in st.subs then st.(subs := st.subs - {id}, model := DisableTracking(st.model, id)) else st
  }

  ghost function Next(st: State, step: Step): State
    requires Enabled(st, step)
  {
    match step
    case Apply(index, e, checks) => QueueEach(st.(model := Handle(st.model, index, e)), checks)
    case QueueSyncAll => st.(queue := st.queue + [SyncAll])
    case ProcessNext => Process(st)
    case Scan => ScanAll(st)
    case Subscribe(id, isRouter) => SubscribeTo(st, id, isRouter)
    case Unsubscribe(id) => UnsubscribeFrom(st, id)
  }

  ghost predicate Possible(st: State, steps: seq<Step>) {
    steps != [] ==>
      Possible(st, steps[..|steps| - 1]) && Enabled(After(st, steps[..|steps| - 1]), steps[|steps| - 1])
  }

  ghost function After(st: State, steps: seq<Step>): State {
    if steps == [] then st else
      var before := After(st, steps[..|steps| - 1]);
      if Enabled(before, steps[|steps| - 1]) then Next(before, steps[|steps| - 1]) else before
  }

  /* ---- backed bits ---- */

  predicate Backing(st: State, id: Id, kind: Kind) {
    st.scan || CheckOf(kind, id) in st.queue
  }

  // The bit is set, and its event is queued or a scan will find it.
  predicate Due(st: State, id: Id, kind: Kind) {
    kind in BitsOf(st, id) && Backing(st, id, kind)
  }

  // The bit is set and nothing will come to look at it.
  predicate Stranded(st: State, id: Id, kind: Kind) {
    kind in BitsOf(st, id) && !Backing(st, id, kind)
  }

  lemma PopKeepsOthers(queue: seq<Item>, q: Item)
    requires queue != [] && q != queue[0]
    ensures q in queue <==> q in queue[1..]
  {
    assert queue == [queue[0]] + queue[1..];
  }

  lemma {:induction false} QueueEachMarks(st: State, items: seq<Item>, id: Id, kind: Kind)
    ensures var n := QueueEach(st, items);
            && n.model == st.model && n.subs == st.subs
            && (kind in BitsOf(n, id) <==> kind in BitsOf(st, id) || (id in st.subs && CheckOf(kind, id) in items))
            && (Backing(st, id, kind) ==> Backing(n, id, kind))
            && (id in st.subs && CheckOf(kind, id) in items ==> Backing(n, id, kind))
  {
    if items != [] {
      QueueEachMarks(st, items[..|items| - 1], id, kind);
    }
  }

  lemma ClearBits(st: State, id: Id, kind: Kind, other: Id)
    ensures BitsOf(st.(bits := Clear(st.bits, id, kind)), other) == if other == id then BitsOf(st, id) - {kind} else BitsOf(st, other)
  {
  }

  // A check clears the bit it stands for, except that an update check looks
  // for a subscription first.
  lemma ProcessCheckBits(st: State, kind: Kind, id: Id, other: Id)
    ensures var n := ProcessCheck(st, kind, id);
            && n.queue == st.queue && n.scan == st.scan
            && BitsOf(n, other) ==
               if other == id && (!kind.Updated? || id in st.subs) then BitsOf(st, id) - {kind} else BitsOf(st, other)
  {
    ClearBits(st, id, kind, other);
  }

  lemma SyncEveryBits(st: State, id: Id)
    ensures BitsOf(SyncEvery(st), id) == if id in st.subs then BitsOf(st, id) - {Updated} else BitsOf(st, id)
  {
  }

  // The last queued update check of a marked identity is handled while nobody
  // is subscribed to it.
  predicate StrandsUpdate(st: State, step: Step, id: Id)
    requires Enabled(st, step)
  {
    && step.ProcessNext? && st.queue[0] == CheckOf(Updated, id) && id !in st.subs
    && Updated in BitsOf(st, id) && !st.scan && CheckOf(Updated, id) !in st.queue[1..]
  }

  lemma ProcessStrandsIff(st: State, id: Id, kind: Kind)
    requires st.queue != [] && !Stranded(st, id, kind)
    ensures Stranded(Process(st), id, kind) <==> kind.Updated? && StrandsUpdate(st, ProcessNext, id)
  {
    var rest := st.(queue := st.queue[1..]);
    if st.queue[0] != CheckOf(kind, id) {
      PopKeepsOthers(st.queue, CheckOf(kind, id));
    }
    if st.queue[0].CheckOf? {
      ProcessCheckBits(rest, st.queue[0].kind, st.queue[0].id, id);
    } else {
      SyncEveryBits(rest, id);
    }
  }

  // That is the one way a bit can lose what backs it.
  lemma StrandsIff(st: State, step: Step, id: Id, kind: Kind)
    requires Enabled(st, step) && !Stranded(st, id, kind)
    ensures Stranded(Next(st, step), id, kind) <==> kind.Updated? && StrandsUpdate(st, step, id)
  {
    match step
    case Apply(index, e, checks) => QueueEachMarks(st.(model := Handle(st.model, index, e)), checks, id, kind);
    case QueueSyncAll =>
    case ProcessNext => ProcessStrandsIff(st, id, kind);
    case Scan =>
    case Subscribe(other, isRouter) =>
    case Unsubscribe(other) =>
  }

  // So marks of creations and deletions are backed in every reachable state.
  lemma {:induction false} OnlyUpdatesStrand(selfId: Id, steps: seq<Step>, id: Id, kind: Kind)
    requires Possible(Start(selfId), steps) && !kind.Updated?
    ensures !Stranded(After(Start(selfId), steps), id, kind)
  {
    if steps != [] {
      OnlyUpdatesStrand(selfId, steps[..|steps| - 1], id, kind);
      StrandsIff(After(Start(selfId), steps[..|steps| - 1]), steps[|steps| - 1], id, kind);
    }
  }

  ghost predicate StaysSubscribed(st: State, steps: seq<Step>, id: Id) {
    id in After(st, steps).subs && (steps != [] ==> StaysSubscribed(st, steps[..|steps| - 1], id))
  }

  // No lost sync check: however full the queue gets, every set bit of an
  // identity that stays subscribed has its event queued or a scan pending,
  // unless it was stranded before.
  lemma {:induction false} NoLostCheck(st: State, steps: seq<Step>, id: Id, kind: Kind)
    requires Possible(st, steps) && StaysSubscribed(st, steps, id) && kind in BitsOf(After(st, steps), id)
    ensures Backing(After(st, steps), id, kind) || Stranded(st, id, kind)
  {
    if steps != [] && !Stranded(st, id, kind) {
      var init := steps[..|steps| - 1];
      if kind in BitsOf(After(st, init), id) {
        NoLostCheck(st, init, id, kind);
      }
      StrandsIff(After(st, init), steps[|steps| - 1], id, kind);
    }
  }

  /* ---- every difference is marked ---- */

  predicate Tracked(m: Model, id: Id) {
    id in m.identities && m.identities[id].tracking
  }

  // The subscription shows the identity as the model has it.
  predicate CurrentLook(m: Model, look: Look, id: Id) {
    if id in m.identities then Tracked(m, id) && look.Look? && look == LookAt(m, id, look.indexed) else look.NoLook?
  }

  predicate Current(st: State, id: Id)
    requires id in st.subs
  {
    CurrentLook(st.model, st.subs[id].look, id)
  }

  // It does, or a bit is due whose check will see to it.
  predicate Caught(st: State, id: Id)
    requires id in st.subs
  {
    || Current(st, id)
    || Due(st, id, Updated) || Due(st, id, Deleted) || (Due(st, id, Added) && id in st.model.identities)
  }

  // A subscription looks at a tracked identity, or a delete is due.
  predicate Watched(st: State, id: Id)
    requires id in st.subs
  {
    st.subs[id].look.Look? ==> Tracked(st.model, id) || Due(st, id, Deleted)
  }

  // A delete is handled after the identity has come back, and nothing else is
  // due that would bring it in again.
  predicate LosesRecreated(st: State, step: Step, id: Id)
    requires Enabled(st, step)
  {
    id in st.model.identities &&
    ((step.ProcessNext? && st.queue[0] == CheckOf(Deleted, id) && !Due(st, id, Added) && !Due(st, id, Updated)) ||
     (step.Scan? && Deleted in BitsOf(st, id)))
  }

  predicate NothingDue(st: State, id: Id) {
    !Due(st, id, Added) && !Due(st, id, Updated) && !Due(st, id, Deleted)
  }

  // An event changes what is shown and queues no check for it, and once its
  // other checks are queued nothing is due either.
  ghost predicate LosesChange(st: State, step: Step, id: Id)
    requires id in st.subs
  {
    && step.Apply? && id in st.model.identities && st.subs[id].look.Look?
    && !Removes(step.event, id) && Missed(st.model, step.index, step.event, id, st.subs[id].look.indexed)
    && NothingDue(QueueEach(st, step.checks), id)
  }

  // The two differ in other identities only.
  predicate OnlyOthers(m: Model, n: Model, id: Id) {
    n == m.(identities := n.identities) && SameAt(m.identities, n.identities, id)
  }

  lemma SameLooks(m: Model, n: Model, id: Id)
    requires OnlyOthers(m, n, id)
    ensures Tracked(n, id) <==> Tracked(m, id)
    ensures forall indexed :: LookAt(n, id, indexed) == LookAt(m, id, indexed)
  {
    forall indexed | id in m.identities
      ensures ShownOf(n, n.identities[id], indexed) == ShownOf(m, m.identities[id], indexed)
    {
      var a, b := ShownOf(m, m.identities[id], indexed), ShownOf(n, n.identities[id], indexed);
      assert a.services == b.services && a.checks == b.checks;
    }
  }

  lemma TrackAllSpares(m: Model, ids: set<Id>, id: Id)
    ensures TrackAll(m, ids).identities.Keys == m.identities.Keys
    ensures id in ids && id in m.identities ==> Tracked(TrackAll(m, ids), id)
    ensures Tracked(m, id) ==> Tracked(TrackAll(m, ids), id)
    ensures id !in ids || Tracked(m, id) ==> OnlyOthers(m, TrackAll(m, ids), id)
    ensures id !in ids || Tracked(m, id) ==> forall indexed :: LookAt(TrackAll(m, ids), id, indexed) == LookAt(m, id, indexed)
  {
    if id !in ids || Tracked(m, id) {
      SameLooks(m, TrackAll(m, ids), id);
    }
  }

  /* ---- events ---- */

  lemma CheckedIsQueued(m: Model, e: Event, id: Id)
    ensures CheckOf(Updated, id) in ChecksOf(m, e) <==> id in QueuedUpdates(m, e)
    ensures CheckOf(Added, id) in ChecksOf(m, e) <==> Creates(e, id)
    ensures CheckOf(Deleted, id) in ChecksOf(m, e) <==> Removes(e, id)
  {
  }

  lemma AppliedBits(st: State, index: nat, e: Event, checks: seq<Item>, id: Id, kind: Kind)
    requires Enabled(st, Apply(index, e, checks)) && id in st.subs
    ensures var n := Next(st, Apply(index, e, checks));
            && n.model == Handle(st.model, index, e) && n.subs == st.subs
            && (Due(st, id, kind) ==> Due(n, id, kind))
            && (CheckOf(kind, id) in ChecksOf(st.model, e) ==> Due(n, id, kind))
            && (Due(n, id, kind) <==> Due(QueueEach(st, checks), id, kind))
  {
    QueueEachMarks(st.(model := Handle(st.model, index, e)), checks, id, kind);
    QueueIgnoresModel(st, Handle(st.model, index, e), checks);
    assert CheckOf(kind, id) in checks <==> CheckOf(kind, id) in ChecksOf(st.model, e);
  }

  lemma {:induction false} QueueIgnoresModel(st: State, m: Model, items: seq<Item>)
    ensures QueueEach(st.(model := m), items) == QueueEach(st, items).(model := m)
  {
    if items != [] {
      QueueIgnoresModel(st, m, items[..|items| - 1]);
    }
  }

  lemma SameLookIff(m: Model, n: Model, look: Look, id: Id)
    requires id in m.identities && CurrentLook(m, look, id) && Tracked(n, id)
    ensures CurrentLook(n, look, id) <==> ShownOf(m, m.identities[id], look.indexed) == ShownOf(n, n.identities[id], look.indexed)
  {
  }

  // What an event does to a look that was right.
  lemma AppliedLookIff(m: Model, index: nat, e: Event, look: Look, id: Id)
    requires Inv(m) && RelationalView.WellFormed(ViewOf(m), e) && !Removes(e, id)
    requires id in m.identities && CurrentLook(m, look, id)
    ensures Missed(m, index, e, id, look.indexed) <==> !CurrentLook(Handle(m, index, e), look, id) && !Checked(m, e, id)
  {
    MissedIff(m, index, e, id, look.indexed);
    StaysTracked(m, index, e, id);
    SameLookIff(m, Handle(m, index, e), look, id);
  }

  // What an event leaves due: what was, and the checks it queues.
  predicate AppliedDue(st: State, n: State, e: Event, id: Id) {
    && (Due(st, id, Added) || Creates(e, id) ==> Due(n, id, Added))
    && (Due(st, id, Updated) || id in QueuedUpdates(st.model, e) ==> Due(n, id, Updated))
    && (Due(st, id, Deleted) || Removes(e, id) ==> Due(n, id, Deleted))
  }

  lemma AppliedWatched(st: State, n: State, index: nat, e: Event, id: Id)
    requires id in st.subs && Watched(st, id) && n.model == Handle(st.model, index, e) && n.subs == st.subs && AppliedDue(st, n, e, id)
    ensures Watched(n, id)
    ensures Caught(st, id) && (Removes(e, id) || id !in st.model.identities || !Current(st, id)) ==> Caught(n, id)
  {
    StaysTracked(st.model, index, e, id);
  }

  lemma ApplyCaughtIff(st: State, step: Step, id: Id)
    requires step.Apply? && Enabled(st, step) && Inv(st.model) && id in st.subs && Caught(st, id) && Watched(st, id)
    ensures id in Next(st, step).subs && Watched(Next(st, step), id)
    ensures Caught(Next(st, step), id) <==> !LosesChange(st, step, id)
  {
    var n, look := Next(st, step), st.subs[id].look;
    NextIsApplied(st, step, id);
    AppliedWatched(st, n, step.index, step.event, id);
    if !Removes(step.event, id) && id in st.model.identities && Current(st, id) {
      AppliedLookIff(st.model, step.index, step.event, look, id);
      StaysTracked(st.model, step.index, step.event, id);
    }
  }

  lemma NextIsApplied(st: State, step: Step, id: Id)
    requires step.Apply? && Enabled(st, step) && id in st.subs
    ensures var n := Next(st, step);
            && n.model == Handle(st.model, step.index, step.event) && n.subs == st.subs && AppliedDue(st, n, step.event, id)
            && (NothingDue(n, id) <==> NothingDue(QueueEach(st, step.checks), id))
  {
    AppliedBits(st, step.index, step.event, step.checks, id, Added);
    AppliedBits(st, step.index, step.event, step.checks, id, Updated);
    AppliedBits(st, step.index, step.event, step.checks, id, Deleted);
    CheckedIsQueued(st.model, step.event, id);
  }

  /* ---- the worker ---- */

  lemma LookIsCurrent(m: Model, id: Id, indexed: bool)
    requires id in m.identities ==> Tracked(m, id)
    ensures CurrentLook(m, LookAt(m, id, indexed), id)
  {
  }

  // It comes out right, unless the identity is one it never turned tracking on for.
  lemma CheckForChangesLooks(st: State, id: Id)
    requires id in st.subs
    ensures var n := CheckForChanges(st, id);
            && n.bits == st.bits && n.subs.Keys == st.subs.Keys && n.queue == st.queue && n.scan == st.scan
            && n.model.identities.Keys == st.model.identities.Keys
            && (st.subs[id].look.NoLook? || Tracked(st.model, id) || id !in st.model.identities ==> Current(n, id))
  {
    TrackAllSpares(st.model, {id}, id);
    var m := CheckForChanges(st, id).model;
    if id !in m.identities || Tracked(m, id) {
      LookIsCurrent(m, id, true);
    }
  }

  lemma CheckNewCatches(st: State, id: Id)
    requires id in st.subs && id in st.model.identities
    ensures var n := CheckNew(st, id);
            && n.bits == st.bits && n.subs.Keys == st.subs.Keys && n.queue == st.queue && n.scan == st.scan
            && n.model.identities.Keys == st.model.identities.Keys && Current(n, id)
  {
    TrackAllSpares(st.model, {id}, id);
    LookIsCurrent(TrackAll(st.model, {id}), id, true);
    LookIsCurrent(TrackAll(st.model, {id}), id, false);
  }

  // Looking on behalf of another subscription.
  lemma OtherLook(st: State, n: State, id: Id)
    requires id in st.subs && id in n.subs && n.subs[id] == st.subs[id] && OnlyOthers(st.model, n.model, id)
    requires SameDue(st, n, id, {})
    ensures Caught(n, id) <==> Caught(st, id)
    ensures Watched(n, id) <==> Watched(st, id)
  {
    SameLooks(st.model, n.model, id);
    assert Due(n, id, Added) == Due(st, id, Added);
    assert Due(n, id, Updated) == Due(st, id, Updated) && Due(n, id, Deleted) == Due(st, id, Deleted);
  }

  // What is due stays due, except for the kinds that were handled.
  ghost predicate SameDue(st: State, n: State, id: Id, handled: set<Kind>) {
    forall kind :: Due(n, id, kind) <==> Due(st, id, kind) && kind !in handled
  }

  lemma ProcessDue(st: State, id: Id)
    requires st.queue != [] && id in st.subs
    ensures SameDue(st, Process(st), id,
                    if st.queue[0].SyncAll? then {Updated} else if st.queue[0].id == id then {st.queue[0].kind} else {})
  {
    var rest := st.(queue := st.queue[1..]);
    forall kind
      ensures Due(Process(st), id, kind) <==>
              Due(st, id, kind) && !(if st.queue[0].SyncAll? then kind.Updated? else st.queue[0] == CheckOf(kind, id))
    {
      if st.queue[0] != CheckOf(kind, id) {
        PopKeepsOthers(st.queue, CheckOf(kind, id));
      }
      if st.queue[0].CheckOf? {
        ProcessCheckBits(rest, st.queue[0].kind, st.queue[0].id, id);
      } else {
        SyncEveryBits(rest, id);
      }
    }
  }

  lemma ProcessCheckLooks(st: State, kind: Kind, id: Id)
    requires id in st.subs && id in ProcessCheck(st, kind, id).subs
    ensures var n := ProcessCheck(st, kind, id);
            && n.model.identities.Keys == st.model.identities.Keys
            && (kind.Deleted? ==> n.model == st.model && n.subs[id].look.NoLook?)
            && (kind.Added? && kind in BitsOf(st, id) && id in st.model.identities ==> Current(n, id))
            && (kind.Updated? && kind in BitsOf(st, id) ==>
                 Current(n, id) || (st.subs[id].look.Look? && !Tracked(st.model, id) && id in st.model.identities))
            && (!kind.Deleted? && (kind !in BitsOf(st, id) || (kind.Added? && id !in st.model.identities)) ==>
                 n.model == st.model && n.subs == st.subs)
  {
    var cleared := st.(bits := Clear(st.bits, id, kind));
    CheckForChangesLooks(cleared, id);
    if id in st.model.identities {
      CheckNewCatches(cleared, id);
    }
  }

  lemma ProcessCheckCaughtIff(st: State, id: Id)
    requires st.queue != [] && st.queue[0].CheckOf? && st.queue[0].id == id && id in st.subs && id in Process(st).subs
    requires Caught(st, id) && Watched(st, id)
    ensures Watched(Process(st), id)
    ensures Caught(Process(st), id) <==> !LosesRecreated(st, ProcessNext, id)
  {
    var rest, kind := st.(queue := st.queue[1..]), st.queue[0].kind;
    ProcessDue(st, id);
    assert Due(st, id, kind) <==> kind in BitsOf(st, id);
    var n := Process(st);
    assert Due(n, id, Added) <==> Due(st, id, Added) && kind != Added;
    assert Due(n, id, Updated) <==> Due(st, id, Updated) && kind != Updated;
    assert Due(n, id, Deleted) <==> Due(st, id, Deleted) && kind != Deleted;
    ProcessCheckLooks(rest, kind, id);
  }

  lemma TrackTwice(m: Model, ids: set<Id>)
    ensures TrackAll(TrackAll(m, ids), ids) == TrackAll(m, ids)
  {
  }

  lemma CheckNewTracks(st: State, id: Id)
    ensures CheckNew(st, id).model == st.model || CheckNew(st, id).model == TrackAll(st.model, {id})
  {
    TrackTwice(st.model, {id});
  }

  lemma ProcessTracks(st: State, kind: Kind, id: Id)
    ensures ProcessCheck(st, kind, id).model == st.model || ProcessCheck(st, kind, id).model == TrackAll(st.model, {id})
  {
    var cleared := st.(bits := Clear(st.bits, id, kind));
    if kind.Added? {
      CheckNewTracks(cleared, id);
    } else if kind.Updated? {
      assert CheckForChanges(cleared, id).model == st.model || CheckForChanges(cleared, id).model == TrackAll(st.model, {id});
    }
  }

  lemma ProcessOther(st: State, id: Id)
    requires st.queue != [] && st.queue[0].CheckOf? && st.queue[0].id != id && id in st.subs
    ensures var n := Process(st);
            id in n.subs && (Caught(n, id) <==> Caught(st, id)) && (Watched(n, id) <==> Watched(st, id))
  {
    var other := st.queue[0].id;
    ProcessDue(st, id);
    ProcessTracks(st.(queue := st.queue[1..]), st.queue[0].kind, other);
    TrackAllSpares(st.model, {other}, id);
    OtherLook(st, Process(st), id);
  }

  lemma SyncEveryLooks(st: State, id: Id)
    requires id in st.subs
    ensures var n := SyncEvery(st);
            && id in n.subs && (n.subs[id].look.Look? ==> id in st.model.identities)
            && (st.subs[id].look.NoLook? || Tracked(st.model, id) || id !in st.model.identities ==> Current(n, id))
  {
    var ids := set i | i in st.subs && st.subs[i].look.NoLook?;
    TrackAllSpares(st.model, ids, id);
    var m := TrackAll(st.model, ids);
    if id !in m.identities || Tracked(m, id) {
      LookIsCurrent(m, id, true);
    }
  }

  lemma SyncAllCatches(st: State, id: Id)
    requires st.queue != [] && st.queue[0].SyncAll? && id in st.subs && Watched(st, id)
    ensures id in Process(st).subs && Watched(Process(st), id) && Caught(Process(st), id)
  {
    ProcessDue(st, id);
    SyncEveryLooks(st.(queue := st.queue[1..]), id);
    assert Due(Process(st), id, Deleted) <==> Due(st, id, Deleted);
  }

  lemma ProcessCaughtIff(st: State, id: Id)
    requires st.queue != [] && id in st.subs && id in Process(st).subs && Caught(st, id) && Watched(st, id)
    ensures Watched(Process(st), id)
    ensures Caught(Process(st), id) <==> !LosesRecreated(st, ProcessNext, id)
  {
    if st.queue[0].SyncAll? {
      SyncAllCatches(st, id);
    } else if st.queue[0].id == id {
      ProcessCheckCaughtIff(st, id);
    } else {
      ProcessOther(st, id);
    }
  }

  lemma ScanCaughtIff(st: State, id: Id)
    requires st.scan && id in st.subs && id in ScanAll(st).subs && Caught(st, id) && Watched(st, id)
    ensures Watched(ScanAll(st), id)
    ensures Caught(ScanAll(st), id) <==> !LosesRecreated(st, Scan, id)
  {
    var m := TrackAll(st.model, ScanTracks(st));
    TrackAllSpares(st.model, ScanTracks(st), id);
    if id !in m.identities || Tracked(m, id) {
      LookIsCurrent(m, id, true);
      LookIsCurrent(m, id, false);
    }
  }

  lemma SubscribeCaught(st: State, id: Id, isRouter: bool)
    requires id in st.subs ==> Caught(st, id) && Watched(st, id)
    ensures var n := SubscribeTo(st, id, isRouter);
            id in n.subs && Caught(n, id) && Watched(n, id) && (id !in st.subs ==> Current(n, id))
  {
    var n := SubscribeTo(st, id, isRouter);
    TrackAllSpares(st.model, {id}, id);
    LookIsCurrent(TrackAll(st.model, {id}), id, false);
    assert forall kind :: Due(n, id, kind) == Due(st, id, kind);
  }

  lemma SubscribeOther(st: State, other: Id, isRouter: bool, id: Id)
    requires id in st.subs && other != id
    ensures var n := SubscribeTo(st, other, isRouter);
            id in n.subs && (Caught(n, id) <==> Caught(st, id)) && (Watched(n, id) <==> Watched(st, id))
  {
    var n := SubscribeTo(st, other, isRouter);
    assert n.model == TrackAll(st.model, {other}) && n.bits == st.bits && n.subs[id] == st.subs[id];
    TrackAllSpares(st.model, {other}, id);
    OtherLook(st, n, id);
  }

  lemma UnsubscribeOther(st: State, other: Id, id: Id)
    requires id in st.subs && other != id
    ensures var n := UnsubscribeFrom(st, other);
            id in n.subs && (Caught(n, id) <==> Caught(st, id)) && (Watched(n, id) <==> Watched(st, id))
  {
    OtherLook(st, UnsubscribeFrom(st, other), id);
  }

  /* ---- whole runs ---- */

  ghost predicate Loses(st: State, step: Step, id: Id)
    requires Enabled(st, step) && id in st.subs
  {
    LosesRecreated(st, step, id) || LosesChange(st, step, id)
  }

  // Every difference stays marked, except exactly when a step handles a delete
  // of an identity that is back, or an event is missed.
  lemma CaughtIff(st: State, step: Step, id: Id)
    requires Enabled(st, step) && Inv(st.model) && id in st.subs && id in Next(st, step).subs
    requires Caught(st, id) && Watched(st, id)
    ensures Watched(Next(st, step), id)
    ensures Caught(Next(st, step), id) <==> !Loses(st, step, id)
  {
    match step
    case Apply(index, e, checks) => ApplyCaughtIff(st, step, id);
    case QueueSyncAll =>
    case ProcessNext => ProcessCaughtIff(st, id);
    case Scan => ScanCaughtIff(st, id);
    case Subscribe(other, isRouter) =>
      if other == id {
        SubscribeCaught(st, id, isRouter);
      } else {
        SubscribeOther(st, other, isRouter, id);
      }
    case Unsubscribe(other) => UnsubscribeOther(st, other, id);
  }

  lemma TrackAllKeepsInv(m: Model, ids: set<Id>)
    requires Inv(m)
    ensures Inv(TrackAll(m, ids))
  {
    var n := TrackAll(m, ids);
    SameRelation(m.identities, m.policies, n.identities, m.policies);
    forall i | i in m.identities
      ensures ReceiverCounts.Exact(m.policies, n.identities[i])
    {
      assert ReceiverCounts.Exact(m.policies, m.identities[i]) && m.identities[i].policies <= m.policies.Keys;
      ReceiverRuns.TrackingIsExact(m.policies, m.identities[i]);
    }
  }

  lemma ProcessKeepsInv(st: State)
    requires st.queue != [] && Inv(st.model)
    ensures Inv(Process(st).model)
  {
    if st.queue[0].CheckOf? {
      ProcessTracks(st.(queue := st.queue[1..]), st.queue[0].kind, st.queue[0].id);
      TrackAllKeepsInv(st.model, {st.queue[0].id});
    } else {
      TrackAllKeepsInv(st.model, set id | id in st.subs && st.subs[id].look.NoLook?);
    }
  }

  lemma StepKeepsInv(st: State, step: Step)
    requires Enabled(st, step) && Inv(st.model)
    ensures Inv(Next(st, step).model)
  {
    match step
    case Apply(index, e, checks) =>
      QueueEachMarks(st.(model := Handle(st.model, index, e)), checks, "", Updated);
      ReceiverRuns.HandleKeepsInv(st.model, index, e);
    case QueueSyncAll =>
    case ProcessNext => ProcessKeepsInv(st);
    case Scan => TrackAllKeepsInv(st.model, ScanTracks(st));
    case Subscribe(id, isRouter) => TrackAllKeepsInv(st.model, {id});
    case Unsubscribe(id) => ReceiverRuns.TrackingKeepsInv(st.model, id);
  }

  lemma {:induction false} RunKeepsInv(st: State, steps: seq<Step>)
    requires Possible(st, steps) && Inv(st.model)
    ensures Inv(After(st, steps).model)
  {
    if steps != [] {
      RunKeepsInv(st, steps[..|steps| - 1]);
      StepKeepsInv(After(st, steps[..|steps| - 1]), steps[|steps| - 1]);
    }
  }

  ghost predicate NeverLoses(st: State, steps: seq<Step>, id: Id) {
    steps != [] ==>
      var init := steps[..|steps| - 1];
      && NeverLoses(st, init, id)
      && (Enabled(After(st, init), steps[|steps| - 1]) && id in After(st, init).subs ==> !Loses(After(st, init), steps[|steps| - 1], id))
  }

  lemma {:induction false} StaysCaught(st: State, steps: seq<Step>, id: Id)
    requires Possible(st, steps) && StaysSubscribed(st, steps, id) && NeverLoses(st, steps, id)
    requires Inv(st.model) && id in st.subs && Caught(st, id) && Watched(st, id)
    ensures Caught(After(st, steps), id) && Watched(After(st, steps), id)
  {
    if steps != [] {
      var init := steps[..|steps| - 1];
      StaysCaught(st, init, id);
      RunKeepsInv(st, init);
      CaughtIff(After(st, init), steps[|steps| - 1], id);
    }
  }

  // Once the queue is drained and no scan is pending, a subscription that lost
  // no recreated identity and missed no event shows the model as it is.
  lemma IdleIsCurrent(st: State, steps: seq<Step>, id: Id)
    requires Possible(st, steps) && StaysSubscribed(st, steps, id) && NeverLoses(st, steps, id)
    requires Inv(st.model) && id in st.subs && Caught(st, id) && Watched(st, id)
    requires After(st, steps).queue == [] && !After(st, steps).scan
    ensures Current(After(st, steps), id)
  {
    StaysCaught(st, steps, id);
  }

  // That is how every subscription starts, whatever marks were left behind.
  lemma FreshIsCaught(st: State, id: Id, isRouter: bool)
    requires id !in st.subs
    ensures var n := Next(st, Subscribe(id, isRouter));
            id in n.subs && Current(n, id) && Caught(n, id) && Watched(n, id)
  {
    SubscribeCaught(st, id, isRouter);
  }

  // So from an empty model on, whatever happened before it subscribed.
  lemma SubscribedIsCurrent(selfId: Id, before: seq<Step>, id: Id, isRouter: bool, steps: seq<Step>)
    requires Possible(Start(selfId), before)
    requires id !in After(Start(selfId), before).subs
    requires var n := Next(After(Start(selfId), before), Subscribe(id, isRouter));
             && Possible(n, steps) && StaysSubscribed(n, steps, id) && NeverLoses(n, steps, id)
             && After(n, steps).queue == [] && !After(n, steps).scan
    ensures Current(After(Next(After(Start(selfId), before), Subscribe(id, isRouter)), steps), id)
  {
    var st := After(Start(selfId), before);
    ReceiverRuns.ReachableIsInv(selfId, []);
    RunKeepsInv(Start(selfId), before);
    FreshIsCaught(st, id, isRouter);
    StepKeepsInv(st, Subscribe(id, isRouter));
    IdleIsCurrent(Next(st, Subscribe(id, isRouter)), steps, id);
  }
}
