// The wire vocabulary shared by the controller-side sender and the router-side
// receiver: entity payloads, events and raft-indexed change sets.
module DataState {

  type Id = string

  datatype Action = Create | Update | Delete

  datatype PolicyType = InvalidPolicy | DialPolicy | BindPolicy

  datatype RelatedType = InvalidRelatedType | RelatedService | RelatedIdentity | RelatedPostureCheck

  // Payloads do not repeat the id their entity is filed under; events carry it.
  datatype ConfigTypeData = ConfigTypeData(name: string, target: string)

  datatype ConfigData = ConfigData(typeId: Id, name: string, dataJson: string)

  datatype IdentityData = IdentityData(
    name: string,
    defaultHostingPrecedence: int,
    defaultHostingCost: nat,
    serviceHostingPrecedences: map<Id, int>,
    serviceHostingCosts: map<Id, nat>,
    appDataJson: string,
    serviceConfigs: map<Id, map<Id, Id>>, // service id -> config type id -> config id
    disabled: bool)

  datatype ServiceData = ServiceData(name: string, encryptionRequired: bool, configs: seq<Id>)

  datatype RouterData = RouterData(name: string, fingerprint: string, configs: seq<Id>, disabled: bool)

  datatype PolicyData = PolicyData(name: string, policyType: PolicyType)

  datatype CheckData = CheckData(name: string, typeId: Id, subtype: string)

  datatype KeyData = KeyData(data: string)

  datatype RevocationData = RevocationData(kind: string, detail: string)

  datatype PolicyChange = PolicyChange(policyId: Id, relatedIds: seq<Id>, relatedType: RelatedType, add: bool)

  datatype Event =
    | ConfigTypeEvent(action: Action, id: Id, configType: ConfigTypeData)
    | ConfigEvent(action: Action, id: Id, config: ConfigData)
    | IdentityEvent(action: Action, id: Id, identity: IdentityData)
    | ServiceEvent(action: Action, id: Id, service: ServiceData)
    | RouterEvent(action: Action, id: Id, router: RouterData)
    | PolicyEvent(action: Action, id: Id, policy: PolicyData)
    | CheckEvent(action: Action, id: Id, check: CheckData)
    | KeyEvent(action: Action, id: Id, key: KeyData)
    | RevocationEvent(action: Action, id: Id, revocation: RevocationData)
    | PolicyChangeEvent(change: PolicyChange)

  datatype ChangeSet = ChangeSet(index: nat, isSynthetic: bool, changes: seq<Event>, previousIndex: nat)

  function Elems(ids: seq<Id>): set<Id> {
    set x | x in ids
  }

  predicate Distinct(ids: seq<Id>) {
    forall a, b :: 0 <= a < b < |ids| ==> ids[a] != ids[b]
  }

  function Max(a: nat, b: nat): nat {
    if a < b then b else a
  }

  // The configs an identity overrides its services with.
  function ReferencedConfigs(d: IdentityData): set<Id> {
    set s, t | s in d.serviceConfigs && t in d.serviceConfigs[s] :: d.serviceConfigs[s][t]
  }

  // Byte-wise string order, as used to sort config lists.
  predicate LessOrEqual(a: Id, b: Id) {
    a == [] || (b != [] && (a[0] < b[0] || (a[0] == b[0] && LessOrEqual(a[1..], b[1..]))))
  }

  function Insert(x: Id, ids: seq<Id>): (r: seq<Id>)
    ensures multiset(r) == multiset(ids) + multiset{x}
  {
    if ids == [] then [x]
    else if LessOrEqual(x, ids[0]) then [x] + ids
    else
      assert ids == [ids[0]] + ids[1..];
      [ids[0]] + Insert(x, ids[1..])
  }

  function Sort(ids: seq<Id>): (r: seq<Id>)
    ensures multiset(r) == multiset(ids)
  {
    if ids == [] then [] else
      assert ids == [ids[0]] + ids[1..];
      Insert(ids[0], Sort(ids[1..]))
  }

  // Folding a commutative step over a set gives the same result whatever order
  // the elements are visited in; Go map iteration promises no order.
  ghost function Fold<A>(step: (Id, A) -> A, ids: set<Id>, start: A): A {
    if ids == {} then start else
      var x :| x in ids;
      step(x, Fold(step, ids - {x}, start))
  }

  ghost predicate Commutes<A(!new)>(step: (Id, A) -> A) {
    forall x, y, a :: step(x, step(y, a)) == step(y, step(x, a))
  }

  lemma {:induction false} FoldAnyOrder<A(!new)>(step: (Id, A) -> A, ids: set<Id>, start: A, y: Id)
    requires Commutes(step)
    requires y in ids
    ensures Fold(step, ids, start) == step(y, Fold(step, ids - {y}, start))
    decreases |ids|
  {
    var x :| x in ids && Fold(step, ids, start) == step(x, Fold(step, ids - {x}, start));
    if x != y {
      FoldAnyOrder(step, ids - {x}, start, y);
      FoldAnyOrder(step, ids - {y}, start, x);
      assert ids - {x} - {y} == ids - {y} - {x};
    }
  }

  // Visiting one more of ids after all but those in todo.
  lemma FoldNext<A(!new)>(step: (Id, A) -> A, ids: set<Id>, todo: set<Id>, start: A, y: Id)
    requires Commutes(step) && y in todo && todo <= ids
    ensures Fold(step, ids - (todo - {y}), start) == step(y, Fold(step, ids - todo, start))
  {
    FoldAnyOrder(step, ids - (todo - {y}), start, y);
    assert ids - (todo - {y}) - {y} == ids - todo;
  }
}
