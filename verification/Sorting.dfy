/** Python's stable `sorted` on a list, as insertion sort over a caller's ordering. */
module Sorting {

  ghost predicate TotalOn<T>(le: (T, T) -> bool, s: seq<T>) {
    forall x, y | x in s && y in s :: le(x, y) || le(y, x)
  }

  ghost predicate TransitiveOn<T>(le: (T, T) -> bool, s: seq<T>) {
    forall x, y, z | x in s && y in s && z in s && le(x, y) && le(y, z) :: le(x, z)
  }

  ghost predicate AntisymmetricOn<T>(le: (T, T) -> bool, s: seq<T>) {
    forall x, y | x in s && y in s && le(x, y) && le(y, x) :: x == y
  }

  ghost predicate Sorted<T>(le: (T, T) -> bool, s: seq<T>) {
    forall i, j | 0 <= i < j < |s| :: le(s[i], s[j])
  }

  function Insert<T>(le: (T, T) -> bool, x: T, s: seq<T>): (r: seq<T>)
    ensures multiset(r) == multiset(s) + multiset{x}
    ensures |r| == |s| + 1
  {
    if s == [] || le(x, s[0]) then
      [x] + s
    else
      assert s == [s[0]] + s[1..];
      [s[0]] + Insert(le, x, s[1..])
  }

  /** Inserting each element before those it does not exceed keeps equal elements in their order. */
  function Sort<T>(le: (T, T) -> bool, s: seq<T>): (r: seq<T>)
    ensures multiset(r) == multiset(s)
    ensures |r| == |s|
  {
    if s == [] then
      []
    else
      assert s == [s[0]] + s[1..];
      Insert(le, s[0], Sort(le, s[1..]))
  }

  lemma SameElements<T>(a: seq<T>, b: seq<T>)
    requires multiset(a) == multiset(b)
    ensures |a| == |b| && forall x :: x in a <==> x in b
  {
    assert |a| == |multiset(a)| == |multiset(b)| == |b|;
    assert forall x :: x in a <==> x in multiset(a);
    assert forall x :: x in b <==> x in multiset(b);
  }

  lemma PutFirst<T>(le: (T, T) -> bool, x: T, s: seq<T>)
    requires TransitiveOn(le, [x] + s) && Sorted(le, s) && s != [] && le(x, s[0])
    ensures Sorted(le, [x] + s)
  {
    forall i, j | 0 <= i < j < |s| + 1 ensures le(([x] + s)[i], ([x] + s)[j]) {
      if i == 0 && j > 1 {
        assert le(s[0], s[j - 1]);
        assert x in [x] + s && s[0] in [x] + s && s[j - 1] in [x] + s;
      }
    }
  }

  lemma {:induction false} InsertSorted<T>(le: (T, T) -> bool, x: T, s: seq<T>)
    requires TotalOn(le, [x] + s) && TransitiveOn(le, [x] + s) && Sorted(le, s)
    ensures Sorted(le, Insert(le, x, s))
  {
    if s == [] {
    } else if le(x, s[0]) {
      PutFirst(le, x, s);
    } else {
      assert forall y | y in [x] + s[1..] :: y in [x] + s;
      InsertSorted(le, x, s[1..]);
      var r := Insert(le, x, s[1..]);
      SameElements(r, s[1..] + [x]);
      forall j | 0 <= j < |r| ensures le(s[0], r[j]) {
        assert r[j] in multiset(r) && multiset(r) == multiset(s[1..]) + multiset{x};
        assert x in [x] + s && s[0] in [x] + s;
      }
    }
  }

  lemma {:induction false} SortSorts<T>(le: (T, T) -> bool, s: seq<T>)
    requires TotalOn(le, s) && TransitiveOn(le, s)
    ensures Sorted(le, Sort(le, s))
  {
    if s != [] {
      assert forall y | y in s[1..] :: y in s;
      SortSorts(le, s[1..]);
      var r := Sort(le, s[1..]);
      SameElements(r, s[1..]);
      forall y | y in [s[0]] + r ensures y in s {
        assert y == s[0] || y in multiset(r);
      }
      InsertSorted(le, s[0], Sort(le, s[1..]));
    }
  }

  lemma HeadIsLeast<T>(le: (T, T) -> bool, s: seq<T>, x: T)
    requires Sorted(le, s) && x in s && x != s[0]
    ensures le(s[0], x)
  {
    var i :| 0 <= i < |s| && s[i] == x;
  }

  /** A sorted arrangement is unique once only equal elements tie. */
  lemma {:induction false} SortedUnique<T>(le: (T, T) -> bool, a: seq<T>, b: seq<T>)
    requires multiset(a) == multiset(b)
    requires AntisymmetricOn(le, a) && Sorted(le, a) && Sorted(le, b)
    ensures a == b
    decreases |a|
  {
    SameElements(a, b);
    if a != [] {
      var x, y := a[0], b[0];
      assert x in a && y in b;
      if x != y {
        HeadIsLeast(le, a, y);
        HeadIsLeast(le, b, x);
        assert false;
      }
      TailMultiset(a);
      TailMultiset(b);
      assert forall z | z in a[1..] :: z in a;
      SortedUnique(le, a[1..], b[1..]);
      assert a == [x] + a[1..] && b == [x] + b[1..];
    }
  }

  lemma TailMultiset<T>(s: seq<T>)
    requires s != []
    ensures multiset(s[1..]) == multiset(s) - multiset{s[0]}
  {
    assert s == [s[0]] + s[1..];
  }

  /** Sorting what is already sorted changes nothing. */
  lemma {:induction false} SortOfSorted<T>(le: (T, T) -> bool, s: seq<T>)
    requires Sorted(le, s)
    ensures Sort(le, s) == s
  {
    if |s| > 0 {
      SortOfSorted(le, s[1..]);
      assert s == [s[0]] + s[1..];
      assert |s| > 1 ==> le(s[0], s[1]);
    }
  }
}
