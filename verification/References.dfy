/** Placeholders inside JSON values: what resolving does to a value with and without them. */
module References {
  import opened Outcomes
  import opened Sorting
  import opened JsonValues
  import opened Executor

  /** No dictionary anywhere in the value is read as a placeholder. */
  ghost predicate RefFree(j: Json) {
    !IsReference(j) &&
    match j
    case List(xs) => forall i | 0 <= i < |xs| :: RefFree(xs[i])
    case Obj(fs) => forall i | 0 <= i < |fs| :: RefFree(fs[i].1)
    case _ => true
  }

  lemma {:induction false} RefFreeResolves(j: Json, ids: Ids)
    requires RefFree(j)
    ensures Resolve(j, ids) == Success(j)
    decreases j, 1
  {
    match j
    case List(xs) =>
      RefFreeItems(j, |xs|, ids);
      assert xs[..|xs|] == xs;
    case Obj(fs) =>
      RefFreeFields(j, |fs|, ids);
      assert fs[..|fs|] == fs;
    case _ =>
  }

  lemma {:induction false} RefFreeItems(j: Json, n: nat, ids: Ids)
    requires j.List? && n <= |j.items| && RefFree(j)
    ensures ResolveItems(j, n, ids) == Success(j.items[..n])
    decreases j, 0, n
  {
    if n > 0 {
      RefFreeItems(j, n - 1, ids);
      RefFreeResolves(j.items[n - 1], ids);
      assert j.items[..n] == j.items[..n - 1] + [j.items[n - 1]];
    }
  }

  lemma {:induction false} RefFreeFields(j: Json, n: nat, ids: Ids)
    requires j.Obj? && n <= |j.fields| && RefFree(j)
    ensures ResolveFields(j, n, ids) == Success(j.fields[..n])
    decreases j, 0, n
  {
    if n > 0 {
      RefFreeFields(j, n - 1, ids);
      RefFreeResolves(j.fields[n - 1].1, ids);
      assert j.fields[..n] == j.fields[..n - 1] + [j.fields[n - 1]];
    }
  }

  // ---- the number of nodes tells a resolved value from the original ---------------------------

  function Nodes(j: Json): nat
    decreases j, 1
  {
    match j
    case List(xs) => 1 + ItemNodes(j, |xs|)
    case Obj(fs) => 1 + FieldNodes(j, |fs|)
    case _ => 1
  }

  function ItemNodes(j: Json, n: nat): nat
    requires j.List? && n <= |j.items|
    decreases j, 0, n
  {
    if n == 0 then 0 else ItemNodes(j, n - 1) + Nodes(j.items[n - 1])
  }

  function FieldNodes(j: Json, n: nat): nat
    requires j.Obj? && n <= |j.fields|
    decreases j, 0, n
  {
    if n == 0 then 0 else FieldNodes(j, n - 1) + Nodes(j.fields[n - 1].1)
  }

  /** The same sums over free-standing lists, by their front element. */
  function SumItems(xs: seq<Json>): nat {
    if xs == [] then 0 else Nodes(xs[0]) + SumItems(xs[1..])
  }

  function SumFields(fs: seq<(string, Json)>): nat {
    if fs == [] then 0 else Nodes(fs[0].1) + SumFields(fs[1..])
  }

  lemma {:induction false} SumItemsSnoc(xs: seq<Json>, x: Json)
    ensures SumItems(xs + [x]) == SumItems(xs) + Nodes(x)
  {
    if xs != [] {
      assert (xs + [x])[1..] == xs[1..] + [x];
      SumItemsSnoc(xs[1..], x);
    }
  }

  lemma {:induction false} SumFieldsSnoc(fs: seq<(string, Json)>, f: (string, Json))
    ensures SumFields(fs + [f]) == SumFields(fs) + Nodes(f.1)
  {
    if fs != [] {
      assert (fs + [f])[1..] == fs[1..] + [f];
      SumFieldsSnoc(fs[1..], f);
    }
  }

  lemma {:induction false} ItemNodesSum(j: Json, n: nat)
    requires j.List? && n <= |j.items|
    ensures ItemNodes(j, n) == SumItems(j.items[..n])
  {
    if n > 0 {
      ItemNodesSum(j, n - 1);
      SumItemsSnoc(j.items[..n - 1], j.items[n - 1]);
      assert j.items[..n] == j.items[..n - 1] + [j.items[n - 1]];
    }
  }

  lemma {:induction false} FieldNodesSum(j: Json, n: nat)
    requires j.Obj? && n <= |j.fields|
    ensures FieldNodes(j, n) == SumFields(j.fields[..n])
  {
    if n > 0 {
      FieldNodesSum(j, n - 1);
      SumFieldsSnoc(j.fields[..n - 1], j.fields[n - 1]);
      assert j.fields[..n] == j.fields[..n - 1] + [j.fields[n - 1]];
    }
  }

  lemma NodesBySum(j: Json)
    ensures j.List? ==> Nodes(j) == 1 + SumItems(j.items)
    ensures j.Obj? ==> Nodes(j) == 1 + SumFields(j.fields)
  {
    if j.List? {
      ItemNodesSum(j, |j.items|);
      assert j.items[..|j.items|] == j.items;
    }
    if j.Obj? {
      FieldNodesSum(j, |j.fields|);
      assert j.fields[..|j.fields|] == j.fields;
    }
  }

  lemma {:induction false} InsertKeepsItems(x: Json, s: seq<Json>)
    ensures SumItems(Insert(ScalarLe, x, s)) == Nodes(x) + SumItems(s)
  {
    if s != [] && !ScalarLe(x, s[0]) {
      InsertKeepsItems(x, s[1..]);
    } else {
      assert ([x] + s)[1..] == s;
    }
  }

  lemma {:induction false} SortKeepsItems(s: seq<Json>)
    ensures SumItems(Sort(ScalarLe, s)) == SumItems(s)
  {
    if s != [] {
      SortKeepsItems(s[1..]);
      InsertKeepsItems(s[0], Sort(ScalarLe, s[1..]));
    }
  }

  lemma {:induction false} InsertKeepsFields(x: (string, Json), s: seq<(string, Json)>)
    ensures SumFields(Insert(FieldLe, x, s)) == Nodes(x.1) + SumFields(s)
  {
    if s != [] && !FieldLe(x, s[0]) {
      InsertKeepsFields(x, s[1..]);
    } else {
      assert ([x] + s)[1..] == s;
    }
  }

  lemma {:induction false} SortKeepsFields(s: seq<(string, Json)>)
    ensures SumFields(Sort(FieldLe, s)) == SumFields(s)
  {
    if s != [] {
      SortKeepsFields(s[1..]);
      InsertKeepsFields(s[0], Sort(FieldLe, s[1..]));
    }
  }

  lemma {:induction false} SumItemsPointwise(a: seq<Json>, b: seq<Json>)
    requires |a| == |b| && forall i | 0 <= i < |a| :: Nodes(a[i]) == Nodes(b[i])
    ensures SumItems(a) == SumItems(b)
  {
    if a != [] {
      SumItemsPointwise(a[1..], b[1..]);
    }
  }

  lemma {:induction false} SumFieldsPointwise(a: seq<(string, Json)>, b: seq<(string, Json)>)
    requires |a| == |b| && forall i | 0 <= i < |a| :: Nodes(a[i].1) == Nodes(b[i].1)
    ensures SumFields(a) == SumFields(b)
  {
    if a != [] {
      SumFieldsPointwise(a[1..], b[1..]);
    }
  }

  /** The canonical form has as many nodes as the value. */
  lemma {:induction false} CanonicalKeepsNodes(j: Json)
    ensures Nodes(Canonical(j)) == Nodes(j)
  {
    NodesBySum(j);
    NodesBySum(Canonical(j));
    match j
    case List(xs) =>
      forall i | 0 <= i < |xs| ensures Nodes(CanonicalItems(j)[i]) == Nodes(xs[i]) {
        CanonicalKeepsNodes(xs[i]);
      }
      SumItemsPointwise(CanonicalItems(j), xs);
      SortKeepsItems(CanonicalItems(j));
    case Obj(fs) =>
      forall i | 0 <= i < |fs| ensures Nodes(CanonicalFields(j)[i].1) == Nodes(fs[i].1) {
        CanonicalKeepsNodes(fs[i].1);
      }
      SumFieldsPointwise(CanonicalFields(j), fs);
      SortKeepsFields(CanonicalFields(j));
    case _ =>
  }

  /** A resolved placeholder is a single node in place of several. */
  lemma {:induction false} ResolveNodes(j: Json, ids: Ids)
    requires Resolve(j, ids).Success?
    ensures Nodes(Resolve(j, ids).value) <= Nodes(j)
    ensures !RefFree(j) ==> Nodes(Resolve(j, ids).value) < Nodes(j)
    decreases j, 1
  {
    if IsReference(j) {
      assert FieldNodes(j, 1) == FieldNodes(j, 0) + Nodes(j.fields[0].1);
    } else {
      match j
      case List(xs) =>
        ResolveItemNodes(j, |xs|, ids);
        NodesBySum(Resolve(j, ids).value);
      case Obj(fs) =>
        ResolveFieldNodes(j, |fs|, ids);
        NodesBySum(Resolve(j, ids).value);
      case _ =>
    }
  }

  lemma {:induction false} ResolveItemNodes(j: Json, n: nat, ids: Ids)
    requires j.List? && n <= |j.items| && ResolveItems(j, n, ids).Success?
    ensures SumItems(ResolveItems(j, n, ids).value) <= ItemNodes(j, n)
    ensures (exists i | 0 <= i < n :: !RefFree(j.items[i])) ==>
      SumItems(ResolveItems(j, n, ids).value) < ItemNodes(j, n)
    decreases j, 0, n
  {
    if n > 0 {
      ResolveItemNodes(j, n - 1, ids);
      ResolveNodes(j.items[n - 1], ids);
      SumItemsSnoc(ResolveItems(j, n - 1, ids).value, Resolve(j.items[n - 1], ids).value);
    }
  }

  lemma {:induction false} ResolveFieldNodes(j: Json, n: nat, ids: Ids)
    requires j.Obj? && n <= |j.fields| && ResolveFields(j, n, ids).Success?
    ensures SumFields(ResolveFields(j, n, ids).value) <= FieldNodes(j, n)
    ensures (exists i | 0 <= i < n :: !RefFree(j.fields[i].1)) ==>
      SumFields(ResolveFields(j, n, ids).value) < FieldNodes(j, n)
    decreases j, 0, n
  {
    if n > 0 {
      ResolveFieldNodes(j, n - 1, ids);
      ResolveNodes(j.fields[n - 1].1, ids);
      SumFieldsSnoc(ResolveFields(j, n - 1, ids).value, (j.fields[n - 1].0, Resolve(j.fields[n - 1].1, ids).value));
    }
  }

  /** Resolving leaves the canonical form of a value alone exactly when the value holds no placeholder. */
  lemma ResolveKeepsCanonicalIff(j: Json, ids: Ids)
    requires Resolve(j, ids).Success?
    ensures Canonical(Resolve(j, ids).value) == Canonical(j) <==> RefFree(j)
  {
    if RefFree(j) {
      RefFreeResolves(j, ids);
    } else {
      ResolveNodes(j, ids);
      CanonicalKeepsNodes(j);
      CanonicalKeepsNodes(Resolve(j, ids).value);
    }
  }
}
