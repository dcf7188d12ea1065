// The sorted merge that splits two config lists into what only the first and
// only the second contains.
module DiffLists {
  import opened DataState

  predicate Sorted(ids: seq<Id>) {
    forall a, b :: 0 <= a < b < |ids| ==> LessOrEqual(ids[a], ids[b])
  }

  predicate Less(a: Id, b: Id) {
    LessOrEqual(a, b) && a != b
  }

  lemma {:induction false} Total(a: Id, b: Id)
    ensures LessOrEqual(a, b) || LessOrEqual(b, a)
    ensures LessOrEqual(a, b) && LessOrEqual(b, a) ==> a == b
  {
    if a != [] && b != [] && a[0] == b[0] {
      Total(a[1..], b[1..]);
      assert a == [a[0]] + a[1..] && b == [b[0]] + b[1..];
    }
  }

  lemma {:induction false} Transitive(a: Id, b: Id, c: Id)
    requires LessOrEqual(a, b) && LessOrEqual(b, c)
    ensures LessOrEqual(a, c)
  {
    if a != [] && a[0] == b[0] && b[0] == c[0] {
      Transitive(a[1..], b[1..], c[1..]);
    }
  }

  lemma LessTransitive(a: Id, b: Id, c: Id)
    requires (Less(a, b) && LessOrEqual(b, c)) || (LessOrEqual(a, b) && Less(b, c))
    ensures Less(a, c)
  {
    Transitive(a, b, c);
    Total(a, b);
    Total(b, c);
  }

  lemma Prepend(x: Id, ids: seq<Id>)
    requires Sorted(ids) && forall y :: y in ids ==> LessOrEqual(x, y)
    ensures Sorted([x] + ids)
  {
  }

  lemma {:induction false} InsertSorts(x: Id, ids: seq<Id>)
    requires Sorted(ids)
    ensures Sorted(Insert(x, ids))
  {
    if ids != [] {
      Total(x, ids[0]);
      if LessOrEqual(x, ids[0]) {
        forall y | y in ids
          ensures LessOrEqual(x, y)
        {
          var k :| 0 <= k < |ids| && ids[k] == y;
          if k > 0 {
            Transitive(x, ids[0], y);
          }
        }
        Prepend(x, ids);
      } else {
        InsertSorts(x, ids[1..]);
        forall y | y in Insert(x, ids[1..])
          ensures LessOrEqual(ids[0], y)
        {
          assert y in multiset(Insert(x, ids[1..]));
          assert y == x || y in ids[1..];
        }
        Prepend(ids[0], Insert(x, ids[1..]));
      }
    }
  }

  lemma {:induction false} SortSorts(ids: seq<Id>)
    ensures Sorted(Sort(ids))
  {
    if ids != [] {
      SortSorts(ids[1..]);
      InsertSorts(ids[0], Sort(ids[1..]));
    }
  }

  lemma {:induction false} SortedStays(ids: seq<Id>)
    requires Sorted(ids)
    ensures Sort(ids) == ids
  {
    if ids != [] {
      SortedStays(ids[1..]);
      assert ids == [ids[0]] + ids[1..];
    }
  }

  // Sorting leaves exactly the sorted lists alone.
  lemma SortKeepsIff(ids: seq<Id>)
    ensures Sort(ids) == ids <==> Sorted(ids)
  {
    SortSorts(ids);
    if Sorted(ids) {
      SortedStays(ids);
    }
  }

  // All of a lies strictly below all of b.
  ghost predicate Below(a: seq<Id>, b: seq<Id>) {
    forall x, y :: x in a && y in b ==> Less(x, y)
  }

  lemma BelowRest(x: Id, b: seq<Id>, j: nat)
    requires Sorted(b) && j < |b| && Less(x, b[j])
    ensures Below([x], b[j..])
  {
    forall y | y in b[j..]
      ensures Less(x, y)
    {
      var k :| 0 <= k < |b[j..]| && b[j..][k] == y;
      if k > 0 {
        LessTransitive(x, b[j], b[j + k]);
      }
    }
  }

  // i and j elements of the two lists are accounted for: some on one side
  // only, the rest common to both.
  ghost predicate Merged(a: seq<Id>, i: nat, b: seq<Id>, j: nat, first: seq<Id>, second: seq<Id>, common: multiset<Id>) {
    && i <= |a| && j <= |b|
    && multiset(a[..i]) == multiset(first) + common
    && multiset(b[..j]) == multiset(second) + common
    && (forall x :: x in first ==> x !in second)
    && Below(first, b[j..]) && Below(second, a[i..])
  }

  lemma TakeFirst(a: seq<Id>, i: nat, b: seq<Id>, j: nat, first: seq<Id>, second: seq<Id>, common: multiset<Id>)
    requires Sorted(b) && Merged(a, i, b, j, first, second, common) && i < |a| && j < |b| && Less(a[i], b[j])
    ensures Merged(a, i + 1, b, j, first + [a[i]], second, common)
  {
    BelowRest(a[i], b, j);
    assert a[..i + 1] == a[..i] + [a[i]];
    assert a[i..] == [a[i]] + a[i + 1..];
    assert a[i] in a[i..] && a[i] in [a[i]];
  }

  lemma TakeSecond(a: seq<Id>, i: nat, b: seq<Id>, j: nat, first: seq<Id>, second: seq<Id>, common: multiset<Id>)
    requires Sorted(a) && Merged(a, i, b, j, first, second, common) && i < |a| && j < |b| && Less(b[j], a[i])
    ensures Merged(a, i, b, j + 1, first, second + [b[j]], common)
  {
    BelowRest(b[j], a, i);
    assert b[..j + 1] == b[..j] + [b[j]];
    assert b[j..] == [b[j]] + b[j + 1..];
    assert b[j] in b[j..] && b[j] in [b[j]];
  }

  lemma TakeBoth(a: seq<Id>, i: nat, b: seq<Id>, j: nat, first: seq<Id>, second: seq<Id>, common: multiset<Id>)
    requires Merged(a, i, b, j, first, second, common) && i < |a| && j < |b| && a[i] == b[j]
    ensures Merged(a, i + 1, b, j + 1, first, second, common + multiset{a[i]})
  {
    assert a[..i + 1] == a[..i] + [a[i]] && b[..j + 1] == b[..j] + [b[j]];
    assert a[i..] == [a[i]] + a[i + 1..] && b[j..] == [b[j]] + b[j + 1..];
  }

  lemma TakeRest(a: seq<Id>, i: nat, b: seq<Id>, j: nat, first: seq<Id>, second: seq<Id>, common: multiset<Id>)
    requires Merged(a, i, b, j, first, second, common) && (i == |a| || j == |b|)
    ensures multiset(a) == multiset(first + a[i..]) + common
    ensures multiset(b) == multiset(second + b[j..]) + common
    ensures forall x :: x in first + a[i..] ==> x !in second + b[j..]
  {
    assert a == a[..i] + a[i..] && b == b[..j] + b[j..];
  }

  lemma DisjointParts(a: multiset<Id>, b: multiset<Id>, first: seq<Id>, second: seq<Id>, common: multiset<Id>)
    requires a == multiset(first) + common && b == multiset(second) + common
    requires forall x :: x in first ==> x !in second
    ensures a - b == multiset(first) && b - a == multiset(second)
  {
    assert forall x :: x in multiset(first) ==> x in first;
    assert forall x :: x in multiset(second) ==> x in second;
  }

  lemma MergeEnds(a: seq<Id>, i: nat, b: seq<Id>, j: nat, first: seq<Id>, second: seq<Id>, common: multiset<Id>)
    requires Merged(a, i, b, j, first, second, common) && (i == |a| || j == |b|)
    ensures multiset(first + a[i..]) == multiset(a) - multiset(b)
    ensures multiset(second + b[j..]) == multiset(b) - multiset(a)
  {
    TakeRest(a, i, b, j, first, second, common);
    DisjointParts(multiset(a), multiset(b), first + a[i..], second + b[j..], common);
  }

  method MergeSorted(a: seq<Id>, b: seq<Id>) returns (onlyInFirst: seq<Id>, onlyInSecond: seq<Id>)
    requires Sorted(a) && Sorted(b)
    ensures multiset(onlyInFirst) == multiset(a) - multiset(b)
    ensures multiset(onlyInSecond) == multiset(b) - multiset(a)
  {
    var i, j := 0, 0;
    onlyInFirst, onlyInSecond := [], [];
    ghost var common: multiset<Id> := multiset{};
    while i < |a| && j < |b|
      invariant Merged(a, i, b, j, onlyInFirst, onlyInSecond, common)
      decreases |a| - i + |b| - j
    {
      Total(a[i], b[j]);
      if Less(a[i], b[j]) {
        TakeFirst(a, i, b, j, onlyInFirst, onlyInSecond, common);
        onlyInFirst := onlyInFirst + [a[i]];
        i := i + 1;
      } else if Less(b[j], a[i]) {
        TakeSecond(a, i, b, j, onlyInFirst, onlyInSecond, common);
        onlyInSecond := onlyInSecond + [b[j]];
        j := j + 1;
      } else {
        TakeBoth(a, i, b, j, onlyInFirst, onlyInSecond, common);
        common := common + multiset{a[i]};
        i, j := i + 1, j + 1;
      }
    }
    MergeEnds(a, i, b, j, onlyInFirst, onlyInSecond, common);
    onlyInFirst, onlyInSecond := onlyInFirst + a[i..], onlyInSecond + b[j..];
  }

  method DiffStringSlices(first: seq<Id>, second: seq<Id>) returns (onlyInFirst: seq<Id>, onlyInSecond: seq<Id>)
    ensures multiset(onlyInFirst) == multiset(first) - multiset(second)
    ensures multiset(onlyInSecond) == multiset(second) - multiset(first)
  {
    SortSorts(first);
    SortSorts(second);
    onlyInFirst, onlyInSecond := MergeSorted(Sort(first), Sort(second));
  }
}
