// What a subscription reports about posture checks: exactly those that came,
// went, or were created or updated between two of its passes.
module CheckNotices {
  import opened DataState
  import opened ReceiverSpec
  import opened ReceiverRuns
  import opened ServiceLists
  import opened Notifications
  import opened VersionStamps
  import IdentityVersions
  import ServiceVersions

  predicate UpsertsCheck(op: Op, c: Id) {
    op.Apply? && op.event.CheckEvent? && op.event.id == c && !op.event.action.Delete?
  }

  predicate CheckUpserted(ops: seq<Op>, c: Id) {
    ops != [] && (CheckUpserted(ops[..|ops| - 1], c) || UpsertsCheck(ops[|ops| - 1], c))
  }

  ghost predicate CheckStands(m: Model, n: Model, c: Id, upserted: bool, b: nat) {
    c in n.checks ==>
      if upserted then n.checks[c].index > b
      else c in m.checks && n.checks[c].index == m.checks[c].index && n.checks[c].data == m.checks[c].data
  }

  ghost predicate OpStampsCheck(m: Model, n: Model, op: Op, c: Id) {
    if op.Apply? then CheckStamped(m, n, op.index, op.event, c) else n.checks == m.checks
  }

  lemma PerformStampsCheck(m: Model, op: Op, c: Id)
    ensures OpStampsCheck(m, Perform(m, op), op, c)
  {
    if op.Apply? {
      HandleStampsCheck(m, op.index, op.event, c);
    }
  }

  lemma CheckStep(m: Model, n: Model, o: Model, op: Op, c: Id, upserted: bool, b: nat)
    requires CheckStands(m, n, c, upserted, b) && OpStampsCheck(n, o, op, c) && (op.Apply? ==> op.index > b)
    ensures CheckStands(m, o, c, upserted || UpsertsCheck(op, c), b)
  {
  }

  // A check that is there after a run was created or updated by it, and its
  // index is beyond b, or is as it was before.
  lemma {:induction false} RunStampsCheck(m: Model, ops: seq<Op>, c: Id, b: nat)
    requires forall k :: 0 <= k < |ops| && ops[k].Apply? ==> ops[k].index > b
    ensures CheckStands(m, PerformAll(m, ops), c, CheckUpserted(ops, c), b)
  {
    if ops != [] {
      var init, last := ops[..|ops| - 1], ops[|ops| - 1];
      RunStampsCheck(m, init, c, b);
      PerformStampsCheck(PerformAll(m, init), last, c);
      CheckStep(m, PerformAll(m, init), PerformAll(m, ops), last, c, CheckUpserted(init, c), b);
    }
  }

  // A list that takes its checks from the model, as both lists do.
  ghost predicate ChecksFrom(m: Model, checks: map<Id, Check>) {
    forall c :: c in checks ==> c in m.checks && checks[c] == m.checks[c]
  }

  lemma BothListsTakeChecks(m: Model, i: Identity, resolve: Resolve, services: map<Id, IdentityService>, checks: map<Id, Check>)
    ensures ChecksFrom(m, FastChecks(m, i))
    ensures PlainList(m, i, resolve, services, checks) ==> ChecksFrom(m, checks)
  {
  }

  ghost predicate TwoLists(selfId: Id, before: seq<Op>, after: seq<Op>, b: nat, was: map<Id, Check>, now: map<Id, Check>) {
    && (forall k :: 0 <= k < |before| && before[k].Apply? ==> before[k].index <= b)
    && (forall k :: 0 <= k < |after| && after[k].Apply? ==> after[k].index > b)
    && var m := PerformAll(EmptyModel(selfId), before);
       ChecksFrom(m, was) && ChecksFrom(PerformAll(m, after), now)
  }

  lemma IndexDiffersIff(selfId: Id, before: seq<Op>, after: seq<Op>, b: nat, was: map<Id, Check>, now: map<Id, Check>, c: Id)
    requires TwoLists(selfId, before, after, b, was, now) && c in was && c in now
    ensures was[c].index != now[c].index <==> CheckUpserted(after, c)
    ensures was[c].data != now[c].data ==> CheckUpserted(after, c)
  {
    ServiceVersions.RunVersionsWithin(selfId, before, b);
    RunStampsCheck(PerformAll(EmptyModel(selfId), before), after, c, b);
  }

  // What is reported of each check: that it came, that it went, or that it was
  // created or updated since; and nothing of any other.
  lemma DeltaIs(selfId: Id, before: seq<Op>, after: seq<Op>, b: nat, was: map<Id, Check>, now: map<Id, Check>, c: Id)
    requires TwoLists(selfId, before, after, b, was, now)
    ensures var d := CheckDelta(was, now);
            && (c in d && d[c] == CheckAdded <==> c in now && c !in was)
            && (c in d && d[c] == CheckRemoved <==> c in was && c !in now)
            && (c in d && d[c] == CheckUpdated <==> c in was && c in now && CheckUpserted(after, c))
  {
    if c in was && c in now {
      IndexDiffersIff(selfId, before, after, b, was, now, c);
    }
  }

  lemma PostureTold(before: Sub, after: Sub, ns: seq<Notice>)
    requires Reports(before, after, ns) && before.identity.Some? && after.identity.Some?
    ensures IdentityVersions.Announces(ns, PostureChecksUpdated) <==> CheckDelta(before.checks, after.checks) != map[]
    ensures forall k :: 0 <= k < |ns| && ns[k].IdentityNotice? && ns[k].kind == PostureChecksUpdated ==>
              ns[k].changed == CheckDelta(before.checks, after.checks) && ns[k].checks == after.checks
  {
    var delta := CheckDelta(before.checks, after.checks);
    var notice := IdentityNotice(PostureChecksUpdated, after.services, after.checks, delta);
    if delta != map[] {
      var told := AboutIdentity(ns);
      assert told[|told| - 1] == notice;
      IdentityVersions.AboutIdentityIsTold(ns, notice);
    }
    forall k | 0 <= k < |ns| && ns[k].IdentityNotice? && ns[k].kind == PostureChecksUpdated
      ensures ns[k] == notice && delta != map[]
    {
      AboutIdentityHasAll(ns, k);
    }
  }

  predicate ComesOrGoes(was: map<Id, Check>, now: map<Id, Check>, c: Id) {
    (c in was) != (c in now)
  }

  // The second of two passes reports on posture checks exactly when one of
  // them came or went, or one it still has was created or updated in between.
  lemma PostureNoticeIff(selfId: Id, before: seq<Op>, after: seq<Op>, b: nat, first: Sub, second: Sub, ns: seq<Notice>)
    requires TwoLists(selfId, before, after, b, first.checks, second.checks)
    requires Reports(first, second, ns) && first.identity.Some? && second.identity.Some?
    ensures IdentityVersions.Announces(ns, PostureChecksUpdated) <==>
            exists c :: c in first.checks.Keys + second.checks.Keys &&
                        (ComesOrGoes(first.checks, second.checks, c) || CheckUpserted(after, c))
  {
    var was, now := first.checks, second.checks;
    var d := CheckDelta(was, now);
    PostureTold(first, second, ns);
    forall c | c in was.Keys + now.Keys
      ensures c in d <==> ComesOrGoes(was, now, c) || CheckUpserted(after, c)
    {
      DeltaIs(selfId, before, after, b, was, now, c);
    }
    if d != map[] {
      var c :| c in d;
      assert c in was.Keys + now.Keys;
    }
  }
}
