/**
 * The array operations the journal code leans on: `firstIndex(where:)` on an
 * identifier, the index assignment that replaces that element,
 * `removeAll(where:)` on an identifier, and `sorted(by: >)` on an integer key.
 * Each is generic over the element type; `idOf` and `key` are the Swift
 * closures' projections (`$0.id`, `$0.date`, `$0.value`).
 */
module Lists {
  import opened Wrappers

  /** `firstIndex(where: { idOf($0) == id })` */
  function FirstIndexWithId<T, Id(==)>(xs: seq<T>, idOf: T -> Id, id: Id): (r: Option<nat>)
    ensures r.Some? ==> r.value < |xs| && idOf(xs[r.value]) == id
    ensures r.Some? ==> forall j :: 0 <= j < r.value ==> idOf(xs[j]) != id
    ensures r.None? <==> forall j :: 0 <= j < |xs| ==> idOf(xs[j]) != id
  {
    if xs == [] then None
    else if idOf(xs[0]) == id then Some(0)
    else match FirstIndexWithId(xs[1..], idOf, id)
      case Some(i) => Some(i + 1)
      case None => None
  }

  /** `if let index = xs.firstIndex(where: { $0.id == x.id }) { xs[index] = x }` */
  function ReplaceFirstWithId<T, Id(==)>(xs: seq<T>, idOf: T -> Id, x: T): (r: seq<T>)
    ensures |r| == |xs|
  {
    match FirstIndexWithId(xs, idOf, idOf(x))
    case Some(i) => xs[i := x]
    case None => xs
  }

  /** The replacement lands on the first element carrying `x`'s identifier,
      every other position keeps its element, and without such an element
      nothing changes. */
  lemma ReplaceFirstWithIdSpec<T, Id>(xs: seq<T>, idOf: T -> Id, x: T)
    ensures var r := ReplaceFirstWithId(xs, idOf, x);
      (exists i :: 0 <= i < |xs| && idOf(xs[i]) == idOf(x) && r[i] == x
         && (forall j :: 0 <= j < i ==> idOf(xs[j]) != idOf(x))
         && (forall k :: 0 <= k < |xs| && k != i ==> r[k] == xs[k]))
      || ((forall j :: 0 <= j < |xs| ==> idOf(xs[j]) != idOf(x)) && r == xs)
  {
    match FirstIndexWithId(xs, idOf, idOf(x))
    case Some(i) =>
      var r := ReplaceFirstWithId(xs, idOf, x);
      assert idOf(xs[i]) == idOf(x) && r[i] == x;
    case None =>
  }

  /** Replacing twice with the same element is replacing once. */
  lemma ReplaceFirstWithIdIdempotent<T, Id>(xs: seq<T>, idOf: T -> Id, x: T)
    ensures ReplaceFirstWithId(ReplaceFirstWithId(xs, idOf, x), idOf, x) == ReplaceFirstWithId(xs, idOf, x)
  {
    match FirstIndexWithId(xs, idOf, idOf(x))
    case Some(i) =>
      var r := xs[i := x];
      assert FirstIndexWithId(r, idOf, idOf(x)) == Some(i) by {
        var f := FirstIndexWithId(r, idOf, idOf(x));
        assert idOf(r[i]) == idOf(x);
        assert f.Some?;
        assert f.value <= i;
      }
    case None =>
  }

  /** `removeAll(where: { idOf($0) == id })` */
  function RemoveWithId<T, Id(==)>(xs: seq<T>, idOf: T -> Id, id: Id): (r: seq<T>)
    ensures |r| <= |xs|
    ensures forall i :: 0 <= i < |r| ==> r[i] in xs && idOf(r[i]) != id
    ensures forall i :: 0 <= i < |xs| && idOf(xs[i]) != id ==> xs[i] in r
  {
    if xs == [] then []
    else if idOf(xs[0]) == id then RemoveWithId(xs[1..], idOf, id)
    else [xs[0]] + RemoveWithId(xs[1..], idOf, id)
  }

  /** Removal works piece by piece, so the survivors keep their order. */
  lemma {:induction false} RemoveWithIdDistributes<T, Id>(a: seq<T>, b: seq<T>, idOf: T -> Id, id: Id)
    ensures RemoveWithId(a + b, idOf, id) == RemoveWithId(a, idOf, id) + RemoveWithId(b, idOf, id)
  {
    if a != [] {
      assert (a + b)[0] == a[0];
      assert (a + b)[1..] == a[1..] + b;
      RemoveWithIdDistributes(a[1..], b, idOf, id);
    } else {
      assert a + b == b;
    }
  }

  /** A list with no element carrying `id` is left as it is. */
  lemma {:induction false} RemoveWithIdAbsent<T, Id>(xs: seq<T>, idOf: T -> Id, id: Id)
    requires forall i :: 0 <= i < |xs| ==> idOf(xs[i]) != id
    ensures RemoveWithId(xs, idOf, id) == xs
  {
    if xs != [] {
      RemoveWithIdAbsent(xs[1..], idOf, id);
    }
  }

  /** Every element is at least as large as the next: the order `sorted { key($0) > key($1) }` produces. */
  predicate SortedDesc<T>(xs: seq<T>, key: T -> int) {
    forall i, j :: 0 <= i < j < |xs| ==> key(xs[i]) >= key(xs[j])
  }

  /** Puts `x` in front of the first element with a smaller key. */
  function InsertDesc<T>(x: T, ys: seq<T>, key: T -> int): (r: seq<T>)
    requires SortedDesc(ys, key)
    ensures SortedDesc(r, key)
    ensures multiset(r) == multiset(ys) + multiset{x}
  {
    if ys == [] || key(x) >= key(ys[0]) then [x] + ys
    else
      var rest := InsertDesc(x, ys[1..], key);
      assert ys == [ys[0]] + ys[1..];
      HeadBoundsPermutation(x, ys, rest, key);
      [ys[0]] + rest
  }

  /** The head of a sorted list bounds every element of a permutation of its
      tail with a smaller `x` added. */
  lemma HeadBoundsPermutation<T>(x: T, ys: seq<T>, rest: seq<T>, key: T -> int)
    requires SortedDesc(ys, key) && ys != [] && key(x) < key(ys[0])
    requires multiset(rest) == multiset(ys[1..]) + multiset{x}
    ensures forall k :: 0 <= k < |rest| ==> key(rest[k]) <= key(ys[0])
  {
    forall k | 0 <= k < |rest|
      ensures key(rest[k]) <= key(ys[0])
    {
      assert rest[k] in multiset(rest);
      if rest[k] != x {
        assert rest[k] in multiset(ys[1..]);
        var m :| 0 <= m < |ys[1..]| && ys[1..][m] == rest[k];
        assert ys[m + 1] == rest[k];
      }
    }
  }

  /** `sorted { key($0) > key($1) }`: a permutation in non-increasing key order.
      The order among equal keys is one valid choice; Swift does not fix it. */
  function SortDesc<T>(xs: seq<T>, key: T -> int): (r: seq<T>)
    ensures SortedDesc(r, key)
    ensures multiset(r) == multiset(xs)
  {
    if xs == [] then []
    else
      assert xs == [xs[0]] + xs[1..];
      InsertDesc(xs[0], SortDesc(xs[1..], key), key)
  }

  /** `reduce(0) { $0 + f($1) }` */
  function SumOf<T>(xs: seq<T>, f: T -> int): int {
    if xs == [] then 0 else f(xs[0]) + SumOf(xs[1..], f)
  }

  lemma {:induction false} SumOfAppend<T>(a: seq<T>, b: seq<T>, f: T -> int)
    ensures SumOf(a + b, f) == SumOf(a, f) + SumOf(b, f)
  {
    if a == [] {
      assert a + b == b;
    } else {
      assert (a + b)[0] == a[0] && (a + b)[1..] == a[1..] + b;
      SumOfAppend(a[1..], b, f);
    }
  }

  lemma {:induction false} SumOfInsertDesc<T>(x: T, ys: seq<T>, key: T -> int, f: T -> int)
    requires SortedDesc(ys, key)
    ensures SumOf(InsertDesc(x, ys, key), f) == f(x) + SumOf(ys, f)
  {
    if ys != [] && key(x) < key(ys[0]) {
      SumOfInsertDesc(x, ys[1..], key, f);
    }
  }

  /** Sorting does not change a sum. */
  lemma {:induction false} SumOfSortDesc<T>(xs: seq<T>, key: T -> int, f: T -> int)
    ensures SumOf(SortDesc(xs, key), f) == SumOf(xs, f)
  {
    if xs != [] {
      SumOfSortDesc(xs[1..], key, f);
      SumOfInsertDesc(xs[0], SortDesc(xs[1..], key), key, f);
    }
  }
}

