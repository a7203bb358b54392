/** Dictionaries built from lists: the last entry of a key stays, entries without a key are skipped. */
module Indexing {
  import opened Outcomes

  function IndexBy<T>(key: T -> Option<string>, items: seq<T>): map<string, T> {
    if items == [] then map[]
    else
      var last := items[|items| - 1];
      var front := IndexBy(key, items[..|items| - 1]);
      match key(last) case None => front case Some(k) => front[k := last]
  }

  ghost predicate Distinct<T>(key: T -> Option<string>, items: seq<T>) {
    forall i, j | 0 <= i < j < |items| && key(items[i]).Some? :: key(items[i]) != key(items[j])
  }

  lemma FrontMembers<T>(items: seq<T>)
    requires items != []
    ensures forall x :: x in items <==> x in items[..|items| - 1] || x == items[|items| - 1]
  {
    assert items == items[..|items| - 1] + [items[|items| - 1]];
  }

  /** The index holds listed entries under their own key ... */
  lemma {:induction false} IndexSound<T>(key: T -> Option<string>, items: seq<T>)
    ensures forall k | k in IndexBy(key, items) ::
      IndexBy(key, items)[k] in items && key(IndexBy(key, items)[k]) == Some(k)
  {
    if items != [] {
      IndexSound(key, items[..|items| - 1]);
      FrontMembers(items);
    }
  }

  /** ... and has an entry for every key that occurs. */
  lemma {:induction false} IndexComplete<T>(key: T -> Option<string>, items: seq<T>)
    ensures forall x | x in items && key(x).Some? :: key(x).value in IndexBy(key, items)
  {
    if items != [] {
      IndexComplete(key, items[..|items| - 1]);
      FrontMembers(items);
    }
  }

  lemma DistinctFront<T>(key: T -> Option<string>, items: seq<T>)
    requires Distinct(key, items) && items != []
    ensures Distinct(key, items[..|items| - 1])
    ensures forall x | x in items[..|items| - 1] && key(x).Some? :: key(x) != key(items[|items| - 1])
  {
    var front := items[..|items| - 1];
    assert forall i | 0 <= i < |front| :: front[i] == items[i];
  }

  lemma DistinctSnoc<T>(key: T -> Option<string>, items: seq<T>, x: T)
    requires Distinct(key, items) && forall y | y in items && key(y).Some? :: key(y) != key(x)
    ensures Distinct(key, items + [x])
  {
    assert forall i | 0 <= i < |items| :: items[i] in items;
  }

  /** Under distinct keys every listed entry is the one found under its key. */
  lemma {:induction false} IndexFinds<T>(key: T -> Option<string>, items: seq<T>)
    requires Distinct(key, items)
    ensures forall x | x in items && key(x).Some? ::
      key(x).value in IndexBy(key, items) && IndexBy(key, items)[key(x).value] == x
  {
    if items != [] {
      DistinctFront(key, items);
      IndexFinds(key, items[..|items| - 1]);
      FrontMembers(items);
    }
  }

  lemma DistinctSnocIff<T>(key: T -> Option<string>, items: seq<T>)
    requires items != []
    ensures var front, last := items[..|items| - 1], items[|items| - 1];
      Distinct(key, items) <==> Distinct(key, front) && forall y | y in front && key(y).Some? :: key(y) != key(last)
  {
    var front, last := items[..|items| - 1], items[|items| - 1];
    assert items == front + [last];
    if Distinct(key, items) {
      DistinctFront(key, items);
    }
    if Distinct(key, front) && forall y | y in front && key(y).Some? :: key(y) != key(last) {
      DistinctSnoc(key, front, last);
    }
  }

  /** The index has as many entries as the list exactly when all keys exist and differ. */
  lemma {:induction false} IndexSize<T>(key: T -> Option<string>, items: seq<T>)
    requires forall x | x in items :: key(x).Some?
    ensures |IndexBy(key, items)| <= |items|
    ensures |IndexBy(key, items)| == |items| <==> Distinct(key, items)
  {
    hide Distinct;
    if items == [] {
      NothingDistinct(key);
    } else {
      var n := |items| - 1;
      var front := items[..n];
      FrontMembers(items);
      IndexSize(key, front);
      IndexComplete(key, front);
      IndexSound(key, front);
      DistinctSnocIff(key, items);
      var k := key(items[n]).value;
      if k in IndexBy(key, front) {
        assert IndexBy(key, front)[k] in front;
      }
    }
  }

  lemma NothingDistinct<T>(key: T -> Option<string>)
    ensures Distinct(key, [])
  {
  }
}
