/** `sorted` with a strict order, as the projector and the allocator use it. */
module Sorting {

  function Insert<T>(less: (T, T) -> bool, x: T, s: seq<T>): (r: seq<T>)
    ensures multiset(r) == multiset(s) + multiset{x}
  {
    if s == [] || less(x, s[0]) then
      [x] + s
    else
      assert s == [s[0]] + s[1..];
      [s[0]] + Insert(less, x, s[1..])
  }

  function Sort<T>(less: (T, T) -> bool, s: seq<T>): (r: seq<T>)
    ensures multiset(r) == multiset(s)
  {
    if s == [] then []
    else
      assert s == [s[0]] + s[1..];
      Insert(less, s[0], Sort(less, s[1..]))
  }

  /** On these elements the order is transitive and tells any two apart. */
  ghost predicate OrdersAll<T>(less: (T, T) -> bool, s: seq<T>) {
    && (forall a, b | a in s && b in s && a != b :: less(a, b) || less(b, a))
    && (forall a, b, c | a in s && b in s && c in s && less(a, b) && less(b, c) :: less(a, c))
  }

  ghost predicate Distinct<T>(s: seq<T>) {
    forall i, j | 0 <= i < j < |s| :: s[i] != s[j]
  }

  ghost predicate Sorted<T>(less: (T, T) -> bool, s: seq<T>) {
    forall i, j | 0 <= i < j < |s| :: less(s[i], s[j])
  }

  lemma InMultiset<T>(s: seq<T>, x: T)
    ensures x in s <==> x in multiset(s)
  {
  }

  lemma {:induction false} InsertSorted<T>(less: (T, T) -> bool, x: T, s: seq<T>)
    requires OrdersAll(less, [x] + s) && Sorted(less, s) && x !in s
    ensures Sorted(less, Insert(less, x, s))
  {
    if s != [] && !less(x, s[0]) {
      var rest := Insert(less, x, s[1..]);
      assert forall a | a in [x] + s[1..] :: a in [x] + s;
      assert s == [s[0]] + s[1..];
      InsertSorted(less, x, s[1..]);
      forall j | 0 <= j < |rest| ensures less(s[0], rest[j]) {
        InMultiset(rest, rest[j]);
        assert rest[j] == x || rest[j] in s[1..];
        assert s[0] in [x] + s && x in [x] + s;
      }
    } else if s != [] {
      forall j | 0 <= j < |s| ensures less(x, s[j]) {
        assert x in [x] + s && s[0] in [x] + s && s[j] in [x] + s;
      }
    }
  }

  lemma {:induction false} SortSorted<T>(less: (T, T) -> bool, s: seq<T>)
    requires OrdersAll(less, s) && Distinct(s)
    ensures Sorted(less, Sort(less, s))
  {
    if s != [] {
      var tail := Sort(less, s[1..]);
      assert forall a | a in s[1..] :: a in s;
      SortSorted(less, s[1..]);
      forall a | a in [s[0]] + tail ensures a in s {
        InMultiset(tail, a);
      }
      InMultiset(tail, s[0]);
      assert forall j | 0 <= j < |s[1..]| :: s[1..][j] == s[j + 1] != s[0];
      assert s[0] !in s[1..];
      InsertSorted(less, s[0], tail);
    }
  }

  ghost predicate Asymmetric<T>(less: (T, T) -> bool, s: seq<T>) {
    forall x, y | x in s && y in s && less(x, y) :: !less(y, x)
  }

  lemma SameHead<T>(less: (T, T) -> bool, a: seq<T>, b: seq<T>)
    requires a != [] && b != [] && Sorted(less, a) && Sorted(less, b) && multiset(a) == multiset(b)
    requires Asymmetric(less, a)
    ensures a[0] == b[0]
  {
    assert forall k | 0 < k < |a| :: less(a[0], a[k]);
    assert forall k | 0 < k < |b| :: less(b[0], b[k]);
    InMultiset(b, a[0]);
    InMultiset(a, b[0]);
    assert a[0] in multiset(a) && b[0] in multiset(b);
    var i :| 0 <= i < |b| && b[i] == a[0];
    var j :| 0 <= j < |a| && a[j] == b[0];
  }

  lemma TailOf<T>(a: seq<T>)
    requires a != []
    ensures multiset(a[1..]) == multiset(a) - multiset{a[0]}
  {
    assert a == [a[0]] + a[1..];
  }

  /** A strictly sorted list is determined by its elements. */
  lemma {:induction false} SortedUnique<T>(less: (T, T) -> bool, a: seq<T>, b: seq<T>)
    requires Sorted(less, a) && Sorted(less, b) && multiset(a) == multiset(b) && Asymmetric(less, a)
    ensures a == b
  {
    assert |multiset(a)| == |a| && |multiset(b)| == |b|;
    if a != [] {
      SameHead(less, a, b);
      TailOf(a);
      TailOf(b);
      assert Asymmetric(less, a[1..]) by { assert forall x | x in a[1..] :: x in a; }
      SortedUnique(less, a[1..], b[1..]);
      assert a == [a[0]] + a[1..] && b == [b[0]] + b[1..];
    }
  }

  /** Being without duplicates depends on the elements alone. */
  lemma DistinctCount<T>(s: seq<T>, x: T)
    requires Distinct(s)
    ensures multiset(s)[x] <= 1
  {
    if s != [] {
      assert s == [s[0]] + s[1..];
      DistinctCount(s[1..], x);
      assert forall j | 0 <= j < |s[1..]| :: s[1..][j] == s[j + 1];
    }
  }

  lemma WithoutAt<T>(s: seq<T>, i: nat)
    requires i < |s|
    ensures multiset(s[..i] + s[i + 1..]) == multiset(s) - multiset{s[i]}
  {
    assert s == s[..i] + [s[i]] + s[i + 1..];
  }
}
