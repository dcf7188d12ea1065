// Runs that end with nothing queued, nothing marked and a subscription that
// does not show the model.
module SyncCheckExamples {
  import opened DataState
  import RelationalView
  import opened ReceiverSpec
  import ReceiverCounts
  import ReceiverRuns
  import opened ReceiverInvariant
  import opened IdentityViews
  import opened MissedChanges
  import opened SyncChecks

  // A plan says what holds after each number of steps.
  type Plan = (State, nat) -> bool

  ghost predicate Carries(steps: seq<Step>, plan: Plan) {
    forall n, k :: 1 <= k < |steps| && plan(n, k) ==> Enabled(n, steps[k]) && plan(Next(n, steps[k]), k + 1)
  }

  lemma LastStep(st: State, steps: seq<Step>, k: nat)
    requires k < |steps| && Possible(st, steps[..k]) && Enabled(After(st, steps[..k]), steps[k])
    ensures Possible(st, steps[..k + 1]) && After(st, steps[..k + 1]) == Next(After(st, steps[..k]), steps[k])
  {
    assert steps[..k + 1][..k] == steps[..k];
  }

  lemma {:induction false} PlanHolds(st: State, steps: seq<Step>, plan: Plan, k: nat)
    requires 1 <= k <= |steps| && Enabled(st, steps[0]) && plan(Next(st, steps[0]), 1) && Carries(steps, plan)
    ensures Possible(st, steps[..k]) && plan(After(st, steps[..k]), k)
  {
    if k == 1 {
      LastStep(st, steps, 0);
    } else {
      PlanHolds(st, steps, plan, k - 1);
      LastStep(st, steps, k - 1);
    }
  }

  lemma PlanEnds(st: State, steps: seq<Step>, plan: Plan)
    requires steps != [] && Enabled(st, steps[0]) && plan(Next(st, steps[0]), 1) && Carries(steps, plan)
    ensures Possible(st, steps) && plan(After(st, steps), |steps|)
  {
    PlanHolds(st, steps, plan, |steps|);
    assert steps[..|steps|] == steps;
  }

  // Nothing is left to do, and the subscription does not show the identity.
  predicate IdleAndWrong(st: State, id: Id) {
    st.queue == [] && !st.scan && id in st.model.identities && id in st.subs && BitsOf(st, id) == {} && !Current(st, id)
  }

  /* ---- an identity in no policy ---- */

  // The checks of one subscribed identity, and the whole queue.
  ghost predicate At(st: State, id: Id, router: bool, bits: set<Kind>, queue: seq<Item>, scan: bool) {
    && id in st.subs && st.subs[id].isRouter == router && BitsOf(st, id) == bits && st.queue == queue && st.scan == scan
    && (id in st.model.identities ==> st.model.identities[id].policies == {})
  }

  function CreateIt(index: nat, id: Id, d: IdentityData): Step {
    Apply(index, IdentityEvent(Create, id, d), [CheckOf(Added, id)])
  }

  function UpdateIt(index: nat, id: Id, d: IdentityData): Step {
    Apply(index, IdentityEvent(Update, id, d), [CheckOf(Updated, id)])
  }

  function DeleteIt(index: nat, id: Id, d: IdentityData): Step {
    Apply(index, IdentityEvent(Delete, id, d), [CheckOf(Deleted, id)])
  }

  lemma QueueOne(st: State, item: Item)
    ensures QueueEach(st, [item]) == Queue(st, item)
  {
    assert [item][..0] == [];
  }

  lemma QueueAt(st: State, id: Id, router: bool, bits: set<Kind>, queue: seq<Item>, scan: bool, kind: Kind)
    requires At(st, id, router, bits, queue, scan)
    ensures var n, room := Queue(st, CheckOf(kind, id)), |queue| < QUEUE_CAPACITY;
            n.model == st.model && n.subs == st.subs &&
            At(n, id, router, bits + {kind}, if room then queue + [CheckOf(kind, id)] else queue, if room then scan else true)
  {
  }

  lemma CreateAt(st: State, id: Id, router: bool, bits: set<Kind>, queue: seq<Item>, scan: bool, index: nat, d: IdentityData)
    requires At(st, id, router, bits, queue, scan)
    ensures Enabled(st, CreateIt(index, id, d))
    ensures var n, room := Next(st, CreateIt(index, id, d)), |queue| < QUEUE_CAPACITY;
            id in n.model.identities && n.subs == st.subs &&
            At(n, id, router, bits + {Added}, if room then queue + [CheckOf(Added, id)] else queue, if room then scan else true)
  {
    var e := IdentityEvent(Create, id, d);
    assert ChecksOf(st.model, e) == {CheckOf(Added, id)};
    var n := st.(model := UpsertIdentity(st.model, index, id, d));
    assert At(n, id, router, bits, queue, scan);
    QueueOne(n, CheckOf(Added, id));
    QueueAt(n, id, router, bits, queue, scan, Added);
  }

  lemma UpdateAt(st: State, id: Id, router: bool, bits: set<Kind>, queue: seq<Item>, scan: bool, index: nat, d: IdentityData)
    requires At(st, id, router, bits, queue, scan)
    ensures Enabled(st, UpdateIt(index, id, d))
    ensures var n, room := Next(st, UpdateIt(index, id, d)), |queue| < QUEUE_CAPACITY;
            id in n.model.identities && n.subs == st.subs &&
            At(n, id, router, bits + {Updated}, if room then queue + [CheckOf(Updated, id)] else queue, if room then scan else true)
  {
    var e := IdentityEvent(Update, id, d);
    assert ChecksOf(st.model, e) == {CheckOf(Updated, id)};
    var n := st.(model := UpsertIdentity(st.model, index, id, d));
    assert At(n, id, router, bits, queue, scan);
    QueueOne(n, CheckOf(Updated, id));
    QueueAt(n, id, router, bits, queue, scan, Updated);
  }

  lemma DeleteAt(st: State, id: Id, router: bool, bits: set<Kind>, queue: seq<Item>, scan: bool, index: nat, d: IdentityData)
    requires At(st, id, router, bits, queue, scan)
    ensures Enabled(st, DeleteIt(index, id, d))
    ensures var n, room := Next(st, DeleteIt(index, id, d)), |queue| < QUEUE_CAPACITY;
            id !in n.model.identities && n.subs == st.subs &&
            At(n, id, router, bits + {Deleted}, if room then queue + [CheckOf(Deleted, id)] else queue, if room then scan else true)
  {
    var e := IdentityEvent(Delete, id, d);
    assert PoliciesListingIdentity(st.model, id) == {};
    assert QueuedUpdates(st.model, e) == {};
    assert ChecksOf(st.model, e) == {CheckOf(Deleted, id)};
    StaysTracked(st.model, index, e, id);
    var n := st.(model := Handle(st.model, index, e));
    assert At(n, id, router, bits, queue, scan);
    QueueOne(n, CheckOf(Deleted, id));
    QueueAt(n, id, router, bits, queue, scan, Deleted);
  }

  lemma AddedAt(st: State, id: Id, router: bool, bits: set<Kind>, rest: seq<Item>, scan: bool)
    requires At(st, id, router, bits, [CheckOf(Added, id)] + rest, scan) && id in st.model.identities && Added in bits
    ensures At(Process(st), id, router, bits - {Added}, rest, scan) && Tracked(Process(st).model, id)
  {
    var cleared := st.(queue := rest, bits := Clear(st.bits, id, Added));
    assert st.queue[1..] == rest;
    ClearBits(st, id, Added, id);
    CheckNewCatches(cleared, id);
    ProcessTracks(st.(queue := rest), Added, id);
  }

  lemma DeletedAt(st: State, id: Id, bits: set<Kind>, rest: seq<Item>, scan: bool)
    requires At(st, id, true, bits, [CheckOf(Deleted, id)] + rest, scan)
    ensures var n := Process(st); At(n, id, true, bits - {Deleted}, rest, scan) && n.model == st.model && n.subs[id].look.NoLook?
  {
    assert st.queue[1..] == rest;
    ClearBits(st.(queue := rest), id, Deleted, id);
  }

  // A check whose bit is spent does nothing.
  lemma SpentAt(st: State, id: Id, router: bool, kind: Kind, bits: set<Kind>, rest: seq<Item>, scan: bool)
    requires At(st, id, router, bits, [CheckOf(kind, id)] + rest, scan) && kind !in bits && !kind.Deleted?
    ensures var n := Process(st); At(n, id, router, bits, rest, scan) && n.model == st.model && n.subs == st.subs
  {
    assert st.queue[1..] == rest;
    ClearBits(st.(queue := rest), id, kind, id);
    assert bits - {kind} == bits;
  }

  lemma ScanAt(st: State, id: Id, bits: set<Kind>, queue: seq<Item>)
    requires At(st, id, true, bits, queue, true) && Deleted in bits
    ensures var n := ScanAll(st);
            At(n, id, true, {}, queue, false) && n.subs[id].look.NoLook? && (id in n.model.identities <==> id in st.model.identities)
  {
    TrackAllSpares(st.model, ScanTracks(st), id);
  }

  /* ---- recreated in the queue ---- */

  function RecreateSteps(id: Id, d: IdentityData): seq<Step> {
    [Subscribe(id, true), CreateIt(1, id, d), DeleteIt(2, id, d), CreateIt(3, id, d), ProcessNext, ProcessNext, ProcessNext]
  }

  // Nothing is queued, and id is neither known nor subscribed to.
  predicate Untouched(st: State, id: Id) {
    st.queue == [] && !st.scan && id !in st.subs && id !in st.model.identities && BitsOf(st, id) == {}
  }

  lemma SubscribeAt(st: State, id: Id, router: bool)
    requires Untouched(st, id)
    ensures var n := Next(st, Subscribe(id, router)); At(n, id, router, {}, [], false) && id !in n.model.identities
  {
  }

  // The bits and the queue after k steps.
  function RecreateBits(k: nat): set<Kind> {
    match k
    case 2 => {Added}
    case 3 => {Added, Deleted}
    case 4 => {Added, Deleted}
    case 5 => {Deleted}
    case _ => {}
  }

  function RecreateQueue(id: Id, k: nat): seq<Item> {
    match k
    case 2 => [CheckOf(Added, id)]
    case 3 => [CheckOf(Added, id), CheckOf(Deleted, id)]
    case 4 => [CheckOf(Added, id), CheckOf(Deleted, id), CheckOf(Added, id)]
    case 5 => [CheckOf(Deleted, id), CheckOf(Added, id)]
    case 6 => [CheckOf(Added, id)]
    case _ => []
  }

  ghost predicate RecreateAt(st: State, id: Id, router: bool, k: nat) {
    && At(st, id, router, RecreateBits(k), RecreateQueue(id, k), false)
    && (id in st.model.identities <==> k != 1 && k != 3) && (k >= 6 ==> st.subs[id].look.NoLook?)
  }

  lemma RecreateCreates(st: State, id: Id, router: bool, d: IdentityData, k: nat)
    requires (k == 1 || k == 3) && RecreateAt(st, id, router, k)
    ensures Enabled(st, CreateIt(k, id, d)) && RecreateAt(Next(st, CreateIt(k, id, d)), id, router, k + 1)
  {
    CreateAt(st, id, router, RecreateBits(k), RecreateQueue(id, k), false, k, d);
    assert RecreateBits(k) + {Added} == RecreateBits(k + 1);
    assert RecreateQueue(id, k) + [CheckOf(Added, id)] == RecreateQueue(id, k + 1);
  }

  lemma RecreateDeletes(st: State, id: Id, router: bool, d: IdentityData)
    requires RecreateAt(st, id, router, 2)
    ensures Enabled(st, DeleteIt(2, id, d)) && RecreateAt(Next(st, DeleteIt(2, id, d)), id, router, 3)
  {
    DeleteAt(st, id, router, RecreateBits(2), RecreateQueue(id, 2), false, 2, d);
    assert RecreateBits(2) + {Deleted} == RecreateBits(3);
    assert RecreateQueue(id, 2) + [CheckOf(Deleted, id)] == RecreateQueue(id, 3);
  }

  lemma RecreateProcesses(st: State, id: Id, k: nat)
    requires 4 <= k < 7 && RecreateAt(st, id, true, k)
    ensures st.queue != [] && RecreateAt(Process(st), id, true, k + 1)
  {
    var bits := RecreateBits(k);
    match k
    case 4 => AddedAt(st, id, true, bits, RecreateQueue(id, 5), false);
    case 5 => DeletedAt(st, id, bits, RecreateQueue(id, 6), false);
    case _ => SpentAt(st, id, true, Added, bits, [], false);
  }

  ghost function RecreatePlan(id: Id): Plan {
    (n: State, k: nat) => RecreateAt(n, id, true, k)
  }

  lemma RecreateCarries(id: Id, d: IdentityData)
    ensures Carries(RecreateSteps(id, d), RecreatePlan(id))
  {
    var steps, plan := RecreateSteps(id, d), RecreatePlan(id);
    forall n, k | 1 <= k < |steps| && plan(n, k)
      ensures Enabled(n, steps[k]) && plan(Next(n, steps[k]), k + 1)
    {
      if k == 2 {
        RecreateDeletes(n, id, true, d);
      } else if k < 4 {
        RecreateCreates(n, id, true, d, k);
      } else {
        RecreateProcesses(n, id, k);
      }
    }
  }

  // Created, deleted and created again before the first creation is handled:
  // the second Added event finds its bit spent on the first.
  lemma RecreatedInQueue(st: State, id: Id, d: IdentityData)
    requires Untouched(st, id)
    ensures Possible(st, RecreateSteps(id, d)) && IdleAndWrong(After(st, RecreateSteps(id, d)), id)
  {
    SubscribeAt(st, id, true);
    RecreateCarries(id, d);
    PlanEnds(st, RecreateSteps(id, d), RecreatePlan(id));
  }

  /* ---- recreated, and tracked for nobody ---- */

  function OrphanSteps(id: Id, d: IdentityData): seq<Step> {
    [Subscribe(id, false), CreateIt(1, id, d), DeleteIt(2, id, d), CreateIt(3, id, d), ProcessNext, ProcessNext]
  }

  ghost predicate OrphanAt(st: State, id: Id, k: nat) {
    if k <= 5 then RecreateAt(st, id, false, k) && (k == 5 ==> Tracked(st.model, id)) else Tracked(st.model, id) && id !in st.subs
  }

  lemma OrphanNext(st: State, id: Id, d: IdentityData, k: nat)
    requires 1 <= k < 6 && OrphanAt(st, id, k)
    ensures Enabled(st, OrphanSteps(id, d)[k]) && OrphanAt(Next(st, OrphanSteps(id, d)[k]), id, k + 1)
  {
    match k
    case 2 => RecreateDeletes(st, id, false, d);
    case 4 => AddedAt(st, id, false, RecreateBits(4), RecreateQueue(id, 5), false);
    case 5 =>
    case _ => RecreateCreates(st, id, false, d, k);
  }

  // An identity that is no router's is deleted and created again; the check of
  // the creation turns tracking on, and the check of the delete then ends the
  // subscription and leaves it on.
  lemma TrackedForNobody(st: State, id: Id, d: IdentityData)
    requires Untouched(st, id)
    ensures Possible(st, OrphanSteps(id, d))
    ensures var n := After(st, OrphanSteps(id, d)); Tracked(n.model, id) && id !in n.subs
  {
    SubscribeAt(st, id, false);
    var plan: Plan := (n: State, k: nat) => OrphanAt(n, id, k);
    forall n, k | 1 <= k < 6 && plan(n, k)
      ensures Enabled(n, OrphanSteps(id, d)[k]) && plan(Next(n, OrphanSteps(id, d)[k]), k + 1)
    {
      OrphanNext(n, id, d, k);
    }
    PlanEnds(st, OrphanSteps(id, d), plan);
  }

  /* ---- recreated behind a full queue ---- */

  // A created identity is updated until the queue is full, then deleted and
  // created again; the scan comes first, and then the queue is drained.
  function BurstStep(id: Id, d: IdentityData, k: nat): Step {
    if k == 0 then Subscribe(id, true)
    else if k == 1 then CreateIt(1, id, d)
    else if k <= QUEUE_CAPACITY then UpdateIt(1, id, d)
    else if k == QUEUE_CAPACITY + 1 then DeleteIt(2, id, d)
    else if k == QUEUE_CAPACITY + 2 then CreateIt(3, id, d)
    else if k == QUEUE_CAPACITY + 3 then Scan
    else ProcessNext
  }

  const BURST := 2 * QUEUE_CAPACITY + 4

  function BurstSteps(id: Id, d: IdentityData): seq<Step> {
    seq(BURST, k requires 0 <= k => BurstStep(id, d, k))
  }

  function BurstQueue(id: Id): seq<Item> {
    seq(QUEUE_CAPACITY, k => CheckOf(if k == 0 then Added else Updated, id))
  }

  ghost predicate BurstAt(st: State, id: Id, k: nat) {
    if k <= QUEUE_CAPACITY + 1 then
      && 1 <= k && At(st, id, true, if k == 1 then {} else if k == 2 then {Added} else {Added, Updated}, BurstQueue(id)[..k - 1], false)
      && (id in st.model.identities <==> k >= 2)
    else if k <= QUEUE_CAPACITY + 3 then
      && At(st, id, true, {Added, Updated, Deleted}, BurstQueue(id), true)
      && (id in st.model.identities <==> k == QUEUE_CAPACITY + 3)
    else
      && k <= BURST && At(st, id, true, {}, BurstQueue(id)[k - QUEUE_CAPACITY - 4..], false)
      && id in st.model.identities && st.subs[id].look.NoLook?
  }

  lemma BurstFills(st: State, id: Id, d: IdentityData, k: nat)
    requires 1 <= k <= QUEUE_CAPACITY && BurstAt(st, id, k)
    ensures Enabled(st, BurstStep(id, d, k)) && BurstAt(Next(st, BurstStep(id, d, k)), id, k + 1)
  {
    var bits, queue := if k == 1 then {} else if k == 2 then {Added} else {Added, Updated}, BurstQueue(id)[..k - 1];
    assert BurstQueue(id)[..k] == queue + [BurstQueue(id)[k - 1]];
    if k == 1 {
      CreateAt(st, id, true, bits, queue, false, 1, d);
    } else {
      UpdateAt(st, id, true, bits, queue, false, 1, d);
      assert bits + {Updated} == {Added, Updated};
    }
  }

  lemma WholeBurst(id: Id)
    ensures BurstQueue(id)[..QUEUE_CAPACITY] == BurstQueue(id) == BurstQueue(id)[0..]
  {
  }

  lemma BurstLoses(st: State, id: Id, d: IdentityData, k: nat)
    requires QUEUE_CAPACITY < k <= QUEUE_CAPACITY + 3 && BurstAt(st, id, k)
    ensures Enabled(st, BurstStep(id, d, k)) && BurstAt(Next(st, BurstStep(id, d, k)), id, k + 1)
  {
    WholeBurst(id);
    if k == QUEUE_CAPACITY + 1 {
      DeleteAt(st, id, true, {Added, Updated}, BurstQueue(id), false, 2, d);
      assert {Added, Updated} + {Deleted} == {Added, Updated, Deleted};
    } else if k == QUEUE_CAPACITY + 2 {
      CreateAt(st, id, true, {Added, Updated, Deleted}, BurstQueue(id), true, 3, d);
      assert {Added, Updated, Deleted} + {Added} == {Added, Updated, Deleted};
    } else {
      ScanAt(st, id, {Added, Updated, Deleted}, BurstQueue(id));
    }
  }

  lemma BurstDrains(st: State, id: Id, k: nat)
    requires QUEUE_CAPACITY + 4 <= k < BURST && BurstAt(st, id, k)
    ensures st.queue != [] && BurstAt(Process(st), id, k + 1)
  {
    var j := k - QUEUE_CAPACITY - 4;
    assert BurstQueue(id)[j..] == [BurstQueue(id)[j]] + BurstQueue(id)[j + 1..];
    SpentAt(st, id, true, BurstQueue(id)[j].kind, {}, BurstQueue(id)[j + 1..], false);
  }

  // The scan handles the delete and drops the mark of the recreation; the
  // queued updates find no bit.
  lemma RecreatedBehindFullQueue(st: State, id: Id, d: IdentityData)
    requires Untouched(st, id)
    ensures Possible(st, BurstSteps(id, d)) && IdleAndWrong(After(st, BurstSteps(id, d)), id)
  {
    var steps, plan: Plan := BurstSteps(id, d), (n: State, k: nat) => BurstAt(n, id, k);
    SubscribeAt(st, id, true);
    forall n, k | 1 <= k < |steps| && plan(n, k)
      ensures Enabled(n, steps[k]) && plan(Next(n, steps[k]), k + 1)
    {
      if k <= QUEUE_CAPACITY {
        BurstFills(n, id, d, k);
      } else if k <= QUEUE_CAPACITY + 3 {
        BurstLoses(n, id, d, k);
      } else {
        BurstDrains(n, id, k);
      }
    }
    PlanEnds(st, steps, plan);
    assert BurstQueue(id)[QUEUE_CAPACITY..] == [];
  }

  /* ---- a missed type flip ---- */

  // A dial policy p offers s to id, and no other policy lists id.
  ghost predicate DialsOnly(m: Model, id: Id, s: Id, p: Id) {
    && Inv(m) && id in m.identities && p in m.policies
    && m.policies[p].data.policyType == DialPolicy && s in m.policies[p].services && id in m.policies[p].identities
    && (forall q :: q in m.policies && id in m.policies[q].identities ==> q == p)
  }

  // Its one grant of s was a dial grant, so the flip takes that and brings a
  // first bind grant.
  lemma FlipIsMissed(m: Model, index: nat, id: Id, s: Id, p: Id, d: PolicyData, indexed: bool)
    requires DialsOnly(m, id, s, p) && m.identities[id].tracking && d.policyType == BindPolicy
    ensures Missed(m, index, PolicyEvent(Update, p, d), id, indexed)
  {
    var i := m.identities[id];
    assert ReceiverCounts.Exact(m.policies, i) && p in i.policies;
    MemberIsGranted(m.policies, i, p, s);
    forall q | q in i.policies
      ensures q == p
    {
      assert q in m.policies && id in m.policies[q].identities;
    }
    assert ReceiverCounts.Granting(m.policies, i.policies, BindPolicy, s) == {};
    assert ReceiverCounts.AccessIs(i.access, s, |ReceiverCounts.Granting(m.policies, i.policies, DialPolicy, s)|, 0);
  }

  datatype Cast = Cast(id: Id, identity: IdentityData, s: Id, service: ServiceData, p: Id, name: string)

  // Five events lead to such a policy.
  function SetupEvent(c: Cast, k: nat): Event {
    match k
    case 0 => ServiceEvent(Create, c.s, c.service)
    case 1 => IdentityEvent(Create, c.id, c.identity)
    case 2 => PolicyEvent(Create, c.p, PolicyData(c.name, DialPolicy))
    case 3 => PolicyChangeEvent(PolicyChange(c.p, [c.s], RelatedService, true))
    case _ => PolicyChangeEvent(PolicyChange(c.p, [c.id], RelatedIdentity, true))
  }

  function SetupChecks(c: Cast, k: nat): seq<Item> {
    if k == 1 then [CheckOf(Added, c.id)] else if k == 4 then [CheckOf(Updated, c.id)] else []
  }

  ghost predicate SetUp(m: Model, c: Cast, k: nat) {
    if k == 5 then DialsOnly(m, c.id, c.s, c.p)
    else
      && Inv(m) && (c.s in m.services <==> k >= 1) && (c.id in m.identities <==> k >= 2) && (c.p in m.policies <==> k >= 3)
      && (k >= 3 ==> m.policies[c.p].data.policyType == DialPolicy && m.policies[c.p].identities == {})
      && (k >= 3 ==> m.policies[c.p].services == (if k >= 4 then {c.s} else {}))
      && (forall q :: q in m.policies ==> c.id !in m.policies[q].identities)
  }

  // The controller may send the event, and these are the checks it queues.
  ghost predicate Sendable(m: Model, e: Event, checks: seq<Item>) {
    RelationalView.WellFormed(ViewOf(m), e) && (set x | x in checks) == ChecksOf(m, e)
  }

  lemma ServiceMade(m: Model, c: Cast)
    requires SetUp(m, c, 0)
    ensures SetUp(Handle(m, 1, SetupEvent(c, 0)), c, 1) && Sendable(m, SetupEvent(c, 0), [])
  {
    ReceiverRuns.HandleKeepsInv(m, 1, SetupEvent(c, 0));
    assert Handle(m, 1, SetupEvent(c, 0)) == UpsertService(m, 1, c.s, c.service);
    assert ChecksOf(m, SetupEvent(c, 0)) == {};
  }

  lemma IdentityMade(m: Model, c: Cast)
    requires SetUp(m, c, 1)
    ensures SetUp(Handle(m, 1, SetupEvent(c, 1)), c, 2) && Sendable(m, SetupEvent(c, 1), [CheckOf(Added, c.id)])
  {
    ReceiverRuns.HandleKeepsInv(m, 1, SetupEvent(c, 1));
    assert Handle(m, 1, SetupEvent(c, 1)) == UpsertIdentity(m, 1, c.id, c.identity);
    assert ChecksOf(m, SetupEvent(c, 1)) == {CheckOf(Added, c.id)};
  }

  lemma PolicyMade(m: Model, c: Cast)
    requires SetUp(m, c, 2)
    ensures SetUp(Handle(m, 1, SetupEvent(c, 2)), c, 3) && Sendable(m, SetupEvent(c, 2), [])
  {
    ReceiverRuns.HandleKeepsInv(m, 1, SetupEvent(c, 2));
    assert Handle(m, 1, SetupEvent(c, 2)) == UpsertPolicy(m, 1, c.p, PolicyData(c.name, DialPolicy));
    assert ChecksOf(m, SetupEvent(c, 2)) == {};
  }

  // A change to a policy without identities queues checks for nobody else.
  lemma ChangeChecks(m: Model, c: PolicyChange, ids: set<Id>)
    requires c.policyId in m.policies && m.policies[c.policyId].identities == {}
    requires ids == if c.relatedType.RelatedIdentity? then Elems(c.relatedIds) * m.identities.Keys else {}
    ensures ChecksOf(m, PolicyChangeEvent(c)) == set i | i in ids :: CheckOf(Updated, i)
  {
    assert Members(m.policies, {c.policyId}) == {};
    assert QueuedUpdates(m, PolicyChangeEvent(c)) == ids;
  }

  lemma OfferIsWellFormed(m: Model, c: Cast)
    requires SetUp(m, c, 3)
    ensures RelationalView.WellFormed(ViewOf(m), SetupEvent(c, 3))
  {
    assert Elems([c.s]) == {c.s};
  }

  lemma OfferIsSendable(m: Model, c: Cast)
    requires SetUp(m, c, 3)
    ensures Sendable(m, SetupEvent(c, 3), []) && Inv(Handle(m, 1, SetupEvent(c, 3)))
  {
    OfferIsWellFormed(m, c);
    ReceiverRuns.HandleKeepsInv(m, 1, SetupEvent(c, 3));
    ChangeChecks(m, SetupEvent(c, 3).change, {});
  }

  lemma OfferedPolicies(m: Model, c: Cast)
    requires SetUp(m, c, 3)
    ensures var n := Handle(m, 1, SetupEvent(c, 3));
            && n.identities.Keys == m.identities.Keys && n.services.Keys == m.services.Keys
            && n.policies == m.policies[c.p := m.policies[c.p].(services := {c.s}, servicesIndex := 1)]
  {
    assert Elems([c.s]) == {c.s} && {} + {c.s} == {c.s};
  }

  lemma ServiceOffered(m: Model, c: Cast)
    requires SetUp(m, c, 3)
    ensures SetUp(Handle(m, 1, SetupEvent(c, 3)), c, 4) && Sendable(m, SetupEvent(c, 3), [])
  {
    OfferIsSendable(m, c);
    OfferedPolicies(m, c);
  }

  lemma JoinIsWellFormed(m: Model, c: Cast)
    requires SetUp(m, c, 4)
    ensures RelationalView.WellFormed(ViewOf(m), SetupEvent(c, 4))
  {
    assert Elems([c.id]) == {c.id};
  }

  lemma JoinChecks(m: Model, c: Cast)
    requires SetUp(m, c, 4)
    ensures ChecksOf(m, SetupEvent(c, 4)) == {CheckOf(Updated, c.id)}
  {
    assert Elems([c.id]) * m.identities.Keys == {c.id};
    ChangeChecks(m, PolicyChange(c.p, [c.id], RelatedIdentity, true), {c.id});
  }

  lemma JoinIsSendable(m: Model, c: Cast)
    requires SetUp(m, c, 4)
    ensures Sendable(m, SetupEvent(c, 4), [CheckOf(Updated, c.id)]) && Inv(Handle(m, 1, SetupEvent(c, 4)))
  {
    JoinIsWellFormed(m, c);
    JoinChecks(m, c);
    ReceiverRuns.HandleKeepsInv(m, 1, SetupEvent(c, 4));
  }

  lemma JoinedPolicies(m: Model, c: Cast)
    requires SetUp(m, c, 4)
    ensures var n := Handle(m, 1, SetupEvent(c, 4));
            n.identities.Keys == m.identities.Keys && n.policies == m.policies[c.p := m.policies[c.p].(identities := {c.id})]
  {
    assert Elems([c.id]) == {c.id} && {c.id} * m.identities.Keys == {c.id} && {} + {c.id} == {c.id};
  }

  lemma IdentityJoined(m: Model, c: Cast)
    requires SetUp(m, c, 4)
    ensures SetUp(Handle(m, 1, SetupEvent(c, 4)), c, 5) && Sendable(m, SetupEvent(c, 4), [CheckOf(Updated, c.id)])
  {
    JoinIsSendable(m, c);
    JoinedPolicies(m, c);
  }

  lemma SetsUp(m: Model, c: Cast, k: nat)
    requires k < 5 && SetUp(m, c, k)
    ensures SetUp(Handle(m, 1, SetupEvent(c, k)), c, k + 1) && Sendable(m, SetupEvent(c, k), SetupChecks(c, k))
  {
    match k
    case 0 => ServiceMade(m, c);
    case 1 => IdentityMade(m, c);
    case 2 => PolicyMade(m, c);
    case 3 => ServiceOffered(m, c);
    case _ => IdentityJoined(m, c);
  }

  // Nothing is queued or marked, and the subscription is right.
  ghost predicate IdleAndRight(st: State, id: Id) {
    st.queue == [] && !st.scan && id in st.subs && BitsOf(st, id) == {} && Current(st, id)
  }

  function FlipStep(c: Cast, k: nat): Step {
    if k < 5 then Apply(1, SetupEvent(c, k), SetupChecks(c, k))
    else if k == 5 then Subscribe(c.id, false)
    else Apply(2, PolicyEvent(Update, c.p, PolicyData(c.name, BindPolicy)), [])
  }

  function FlipSteps(c: Cast): seq<Step> {
    seq(7, k requires 0 <= k => FlipStep(c, k))
  }

  ghost predicate FlipAt(st: State, c: Cast, k: nat) {
    if k <= 5 then SetUp(st.model, c, k) && st.queue == [] && !st.scan && c.id !in st.subs && BitsOf(st, c.id) == {}
    else if k == 6 then DialsOnly(st.model, c.id, c.s, c.p) && IdleAndRight(st, c.id)
    else IdleAndWrong(st, c.id)
  }

  // Before anyone subscribes to id its checks go nowhere.
  lemma FlipSetsUp(st: State, c: Cast, k: nat)
    requires k < 5 && FlipAt(st, c, k)
    ensures Enabled(st, FlipStep(c, k)) && FlipAt(Next(st, FlipStep(c, k)), c, k + 1)
  {
    SetsUp(st.model, c, k);
    QueueNothing(st.(model := Handle(st.model, 1, SetupEvent(c, k))), SetupChecks(c, k));
  }

  lemma QueueNothing(st: State, items: seq<Item>)
    requires forall x :: x in items ==> x.SyncAll? || x.id !in st.subs
    ensures QueueEach(st, items) == st
  {
    if items != [] {
      QueueNothing(st, items[..|items| - 1]);
    }
  }

  lemma FlipSubscribes(st: State, c: Cast)
    requires FlipAt(st, c, 5)
    ensures FlipAt(Next(st, Subscribe(c.id, false)), c, 6)
  {
    FreshIsCaught(st, c.id, false);
    StepKeepsInv(st, Subscribe(c.id, false));
  }

  // The type changes with nothing queued.
  lemma FlipFlips(st: State, c: Cast)
    requires FlipAt(st, c, 6)
    ensures Enabled(st, FlipStep(c, 6)) && IdleAndWrong(Next(st, FlipStep(c, 6)), c.id)
  {
    var e := PolicyEvent(Update, c.p, PolicyData(c.name, BindPolicy));
    assert ChecksOf(st.model, e) == {};
    FlipIsMissed(st.model, 2, c.id, c.s, c.p, e.policy, st.subs[c.id].look.indexed);
    QueueNothing(st, []);
    QueueNothing(st.(model := Handle(st.model, 2, e)), []);
    ApplyCaughtIff(st, FlipStep(c, 6), c.id);
    StaysTracked(st.model, 2, e, c.id);
  }

  lemma FlipOne(st: State, c: Cast, k: nat)
    requires k < 7 && FlipAt(st, c, k)
    ensures Enabled(st, FlipStep(c, k)) && FlipAt(Next(st, FlipStep(c, k)), c, k + 1)
  {
    if k < 5 {
      FlipSetsUp(st, c, k);
    } else if k == 5 {
      FlipSubscribes(st, c);
    } else {
      FlipFlips(st, c);
    }
  }

  lemma FlipStarts(st: State, c: Cast)
    requires Untouched(st, c.id) && Inv(st.model) && c.s !in st.model.services && c.p !in st.model.policies
    ensures FlipAt(st, c, 0)
  {
  }

  ghost function FlipPlan(c: Cast): Plan {
    (n: State, k: nat) => FlipAt(n, c, k)
  }

  lemma FlipCarries(c: Cast)
    ensures Carries(FlipSteps(c), FlipPlan(c))
  {
    var steps, plan := FlipSteps(c), FlipPlan(c);
    forall n, k | 1 <= k < |steps| && plan(n, k)
      ensures Enabled(n, steps[k]) && plan(Next(n, steps[k]), k + 1)
    {
      FlipOne(n, c, k);
    }
  }

  // From any state where identity, service and policy are new: the policy's
  // type changes and the subscription still shows the service as it was, with
  // nothing queued to correct it.
  lemma FlipGoesUnseen(st: State, c: Cast)
    requires Untouched(st, c.id) && Inv(st.model) && c.s !in st.model.services && c.p !in st.model.policies
    ensures Possible(st, FlipSteps(c)) && IdleAndWrong(After(st, FlipSteps(c)), c.id)
  {
    FlipStarts(st, c);
    FlipOne(st, c, 0);
    FlipCarries(c);
    PlanEnds(st, FlipSteps(c), FlipPlan(c));
  }

  /* ---- a mark left behind ---- */

  // Updated, unsubscribed from, checked, and subscribed to again.
  function LeaveSteps(id: Id, d: IdentityData): seq<Step> {
    [Subscribe(id, true), UpdateIt(1, id, d), Unsubscribe(id), ProcessNext, Subscribe(id, true)]
  }

  ghost predicate LeaveAt(st: State, id: Id, k: nat) {
    && (id in st.subs <==> k <= 2 || k == 5) && (id in st.model.identities <==> k >= 2) && !st.scan
    && st.queue == (if k == 2 || k == 3 then [CheckOf(Updated, id)] else [])
    && BitsOf(st, id) == (if k == 1 then {} else {Updated})
    && (k == 1 ==> At(st, id, true, {}, [], false))
  }

  lemma LeaveUpdates(st: State, id: Id, d: IdentityData)
    requires LeaveAt(st, id, 1)
    ensures Enabled(st, UpdateIt(1, id, d)) && LeaveAt(Next(st, UpdateIt(1, id, d)), id, 2)
  {
    UpdateAt(st, id, true, {}, [], false, 1, d);
    assert {} + {Updated} == {Updated} && [] + [CheckOf(Updated, id)] == [CheckOf(Updated, id)];
  }

  ghost predicate LeaveHolds(st: State, id: Id, k: nat) {
    LeaveAt(st, id, k) && (k == 5 ==> Current(st, id))
  }

  lemma LeaveNext(st: State, id: Id, d: IdentityData, k: nat)
    requires 1 <= k < 5 && LeaveHolds(st, id, k)
    ensures Enabled(st, LeaveSteps(id, d)[k]) && LeaveHolds(Next(st, LeaveSteps(id, d)[k]), id, k + 1)
  {
    match k
    case 1 => LeaveUpdates(st, id, d);
    case 2 => assert LeaveAt(UnsubscribeFrom(st, id), id, 3);
    case 3 => assert LeaveAt(Process(st), id, 4);
    case _ => FreshIsCaught(st, id, true);
  }

  // Nothing is queued, no scan is pending, and the mark stays.
  lemma UpdateLeftMarked(st: State, id: Id, d: IdentityData)
    requires Untouched(st, id)
    ensures var n := After(st, LeaveSteps(id, d));
            && Possible(st, LeaveSteps(id, d)) && n.queue == [] && !n.scan && id in n.subs
            && Stranded(n, id, Updated) && Current(n, id)
  {
    var plan: Plan := (n: State, k: nat) => LeaveHolds(n, id, k);
    SubscribeAt(st, id, true);
    forall n, k | 1 <= k < 5 && plan(n, k)
      ensures Enabled(n, LeaveSteps(id, d)[k]) && plan(Next(n, LeaveSteps(id, d)[k]), k + 1)
    {
      LeaveNext(n, id, d, k);
    }
    PlanEnds(st, LeaveSteps(id, d), plan);
  }
}
