/** JSON values as Python's `json` module builds them, and the canonical form the planner compares and hashes. */
module JsonValues {
  import opened Text
  import opened Sorting

  /** `Float` carries Python's `repr` of the number; `Obj` keeps the insertion order of its keys. */
  datatype Json =
    | Null
    | Bool(b: bool)
    | Int(i: int)
    | Float(repr: string)
    | Str(s: string)
    | List(items: seq<Json>)
    | Obj(fields: seq<(string, Json)>)

  /** A row, an item or a body: a dictionary that the program only reads by key. */
  type Dict = map<string, Json>

  function Get(d: Dict, key: string): Json {
    if key in d then d[key] else Null
  }

  /** Python truthiness. */
  predicate Truthy(j: Json) {
    match j
    case Null => false
    case Bool(b) => b
    case Int(i) => i != 0
    case Float(r) => r != "0.0" && r != "-0.0"
    case Str(s) => s != ""
    case List(xs) => xs != []
    case Obj(fs) => fs != []
  }

  /** Python's `str()`; the text of a container is never used as anything but an opaque name. */
  function PyStr(j: Json): string {
    match j
    case Null => "None"
    case Bool(b) => if b then "True" else "False"
    case Int(i) => IntText(i)
    case Float(r) => r
    case Str(s) => s
    case List(_) => "[...]"
    case Obj(_) => "{...}"
  }

  predicate Scalar(j: Json) {
    !j.List? && !j.Obj?
  }

  predicate AllScalar(xs: seq<Json>) {
    forall i | 0 <= i < |xs| :: Scalar(xs[i])
  }

  /** Position of the type's name in "NoneType" < "bool" < "float" < "int" < "str". */
  function TypeRank(j: Json): nat {
    match j
    case Null => 0
    case Bool(_) => 1
    case Float(_) => 2
    case Int(_) => 3
    case Str(_) => 4
    case List(_) => 5
    case Obj(_) => 6
  }

  predicate ScalarLe(x: Json, y: Json) {
    TypeRank(x) < TypeRank(y) || (TypeRank(x) == TypeRank(y) && StrLe(PyStr(x), PyStr(y)))
  }

  predicate FieldLe(x: (string, Json), y: (string, Json)) {
    StrLe(x.0, y.0)
  }

  /** `_canonical`: keys sorted everywhere, lists of scalars sorted, other lists left in order. */
  function Canonical(j: Json): Json {
    match j
    case List(xs) =>
      var normalized := CanonicalItems(j);
      if AllScalar(normalized) then List(Sort(ScalarLe, normalized)) else List(normalized)
    case Obj(fs) => Obj(Sort(FieldLe, CanonicalFields(j)))
    case _ => j
  }

  function CanonicalItems(j: Json): seq<Json>
    requires j.List?
    decreases j, 0
  {
    seq(|j.items|, i requires 0 <= i < |j.items| => Canonical(j.items[i]))
  }

  function CanonicalFields(j: Json): seq<(string, Json)>
    requires j.Obj?
    decreases j, 0
  {
    seq(|j.fields|, i requires 0 <= i < |j.fields| => (j.fields[i].0, Canonical(j.fields[i].1)))
  }

  ghost predicate DistinctKeys(fs: seq<(string, Json)>) {
    forall i, j | 0 <= i < j < |fs| :: fs[i].0 != fs[j].0
  }

  /** What `json` guarantees of a dictionary: no key occurs twice, at any depth. */
  ghost predicate WellFormed(j: Json) {
    match j
    case List(xs) => forall i | 0 <= i < |xs| :: WellFormed(xs[i])
    case Obj(fs) => DistinctKeys(fs) && forall i | 0 <= i < |fs| :: WellFormed(fs[i].1)
    case _ => true
  }

  /** Equal up to the order of keys and of all-scalar lists, at any depth. */
  ghost predicate SameUpToOrder(a: Json, b: Json)
    decreases a, 1
  {
    match a
    case List(xs) =>
      b.List? &&
      if AllScalar(xs) then multiset(xs) == multiset(b.items)
      else |xs| == |b.items| && forall i | 0 <= i < |xs| :: SameUpToOrder(xs[i], b.items[i])
    case Obj(fs) => b.Obj? && |fs| == |b.fields| && forall i | 0 <= i < |fs| :: MatchedIn(a, i, b.fields)
    case _ => a == b
  }

  ghost predicate MatchedIn(a: Json, i: nat, gs: seq<(string, Json)>)
    requires a.Obj? && i < |a.fields|
    decreases a, 0
  {
    exists j | 0 <= j < |gs| :: gs[j].0 == a.fields[i].0 && SameUpToOrder(a.fields[i].1, gs[j].1)
  }

  // ---- the two orderings ---------------------------------------------------------------------

  lemma ScalarOrder(s: seq<Json>)
    requires AllScalar(s)
    ensures TotalOn(ScalarLe, s) && TransitiveOn(ScalarLe, s) && AntisymmetricOn(ScalarLe, s)
  {
    forall x, y | x in s && y in s ensures ScalarLe(x, y) || ScalarLe(y, x) {
      StrLeTotal(PyStr(x), PyStr(y));
    }
    forall x, y, z | x in s && y in s && z in s && ScalarLe(x, y) && ScalarLe(y, z) ensures ScalarLe(x, z) {
      if TypeRank(x) == TypeRank(y) == TypeRank(z) {
        StrLeTransitive(PyStr(x), PyStr(y), PyStr(z));
      }
    }
    forall x, y | x in s && y in s && ScalarLe(x, y) && ScalarLe(y, x) ensures x == y {
      StrLeAntisymmetric(PyStr(x), PyStr(y));
      if x.Int? {
        IntTextInjective(x.i, y.i);
      }
    }
  }

  lemma FieldOrder(s: seq<(string, Json)>)
    ensures TotalOn(FieldLe, s) && TransitiveOn(FieldLe, s)
    ensures DistinctKeys(s) ==> AntisymmetricOn(FieldLe, s)
  {
    forall x, y | x in s && y in s ensures FieldLe(x, y) || FieldLe(y, x) {
      StrLeTotal(x.0, y.0);
    }
    forall x, y, z | x in s && y in s && z in s && FieldLe(x, y) && FieldLe(y, z) ensures FieldLe(x, z) {
      StrLeTransitive(x.0, y.0, z.0);
    }
    if DistinctKeys(s) {
      forall x, y | x in s && y in s && FieldLe(x, y) && FieldLe(y, x) ensures x == y {
        StrLeAntisymmetric(x.0, y.0);
      }
    }
  }

  // ---- the canonical form is a normal form ---------------------------------------------------

  lemma CanonicalScalar(j: Json)
    ensures Scalar(Canonical(j)) <==> Scalar(j)
    ensures Scalar(j) ==> Canonical(j) == j
  {
  }

  lemma CanonicalItemsOfScalars(j: Json)
    requires j.List?
    ensures AllScalar(CanonicalItems(j)) <==> AllScalar(j.items)
    ensures AllScalar(j.items) ==> CanonicalItems(j) == j.items
  {
    var n := CanonicalItems(j);
    forall i | 0 <= i < |n| ensures (Scalar(n[i]) <==> Scalar(j.items[i])) && (Scalar(n[i]) ==> n[i] == j.items[i]) {
      CanonicalScalar(j.items[i]);
    }
  }

  lemma AllScalarSameElements(a: seq<Json>, b: seq<Json>)
    requires multiset(a) == multiset(b) && AllScalar(a)
    ensures AllScalar(b)
  {
    SameElements(a, b);
    forall i | 0 <= i < |b| ensures Scalar(b[i]) {
      assert b[i] in a;
    }
  }

  lemma CanonicalScalarList(j: Json)
    requires j.List? && AllScalar(CanonicalItems(j))
    ensures Canonical(Canonical(j)) == Canonical(j)
  {
    var n := CanonicalItems(j);
    ScalarOrder(n);
    SortSorts(ScalarLe, n);
    var s := Sort(ScalarLe, n);
    AllScalarSameElements(n, s);
    CanonicalItemsOfScalars(List(s));
    SortOfSorted(ScalarLe, s);
  }

  lemma SortedFieldsCanonical(s: seq<(string, Json)>)
    requires Sorted(FieldLe, s) && forall i | 0 <= i < |s| :: Canonical(s[i].1) == s[i].1
    ensures Canonical(Obj(s)) == Obj(s)
  {
    assert CanonicalFields(Obj(s)) == s;
    SortOfSorted(FieldLe, s);
  }

  lemma SortedItem(n: seq<(string, Json)>, i: nat) returns (k: nat)
    requires i < |n|
    ensures k < |n| && n[k] == Sort(FieldLe, n)[i]
  {
    SameElements(Sort(FieldLe, n), n);
    assert Sort(FieldLe, n)[i] in Sort(FieldLe, n);
    k :| 0 <= k < |n| && n[k] == Sort(FieldLe, n)[i];
  }

  /** Canonicalising twice is canonicalising once. */
  lemma {:induction false} CanonicalIdempotent(j: Json)
    ensures Canonical(Canonical(j)) == Canonical(j)
  {
    match j
    case List(xs) =>
      var n := CanonicalItems(j);
      if AllScalar(n) {
        CanonicalScalarList(j);
      } else {
        forall i | 0 <= i < |n| ensures CanonicalItems(List(n))[i] == n[i] {
          CanonicalIdempotent(xs[i]);
        }
        assert CanonicalItems(List(n)) == n;
      }
    case Obj(fs) =>
      var n := CanonicalFields(j);
      FieldOrder(n);
      SortSorts(FieldLe, n);
      forall i | 0 <= i < |n| ensures Canonical(Sort(FieldLe, n)[i].1) == Sort(FieldLe, n)[i].1 {
        var k := SortedItem(n, i);
        CanonicalIdempotent(fs[k].1);
      }
      SortedFieldsCanonical(Sort(FieldLe, n));
    case _ =>
  }

  lemma RemovedField(b: seq<(string, Json)>, j: nat, x: (string, Json))
    requires j < |b| && x in b && x != b[j]
    ensures x in b[..j] + b[j + 1..]
  {
    var c := b[..j] + b[j + 1..];
    var k :| 0 <= k < |b| && b[k] == x;
    assert x == if k < j then c[k] else c[k - 1];
  }

  /** A distinct-keyed dictionary that maps into another of its size holds the same fields. */
  lemma {:induction false} SameFieldMultiset(a: seq<(string, Json)>, b: seq<(string, Json)>)
    requires |a| == |b| && DistinctKeys(a)
    requires forall x | x in a :: x in b
    ensures multiset(a) == multiset(b)
    decreases |a|
  {
    if a != [] {
      assert a[0] in a;
      var j :| 0 <= j < |b| && b[j] == a[0];
      var c := b[..j] + b[j + 1..];
      forall x | x in a[1..] ensures x in c {
        var i :| 0 <= i < |a[1..]| && a[1..][i] == x;
        assert x == a[i + 1];
        assert x in a;
        RemovedField(b, j, x);
      }
      SameFieldMultiset(a[1..], c);
      assert b == b[..j] + [b[j]] + b[j + 1..];
      assert a == [a[0]] + a[1..];
    }
  }

  /** Values that differ only in the two permitted orders have one canonical form ... */
  lemma {:induction false} SameGivesEqualCanonical(a: Json, b: Json)
    requires WellFormed(a) && WellFormed(b) && SameUpToOrder(a, b)
    ensures Canonical(a) == Canonical(b)
  {
    match a
    case List(xs) =>
      CanonicalItemsOfScalars(a);
      CanonicalItemsOfScalars(b);
      if AllScalar(xs) {
        AllScalarSameElements(xs, b.items);
        AllScalarSameElements(xs, Sort(ScalarLe, xs));
        ScalarOrder(xs);
        ScalarOrder(b.items);
        SortSorts(ScalarLe, xs);
        SortSorts(ScalarLe, b.items);
        ScalarOrder(Sort(ScalarLe, xs));
        SortedUnique(ScalarLe, Sort(ScalarLe, xs), Sort(ScalarLe, b.items));
      } else {
        forall i | 0 <= i < |xs| ensures Canonical(xs[i]) == Canonical(b.items[i]) {
          SameGivesEqualCanonical(xs[i], b.items[i]);
        }
        assert CanonicalItems(a) == CanonicalItems(b);
      }
    case Obj(fs) =>
      var m, n := CanonicalFields(a), CanonicalFields(b);
      forall x | x in m ensures x in n {
        var i :| 0 <= i < |m| && m[i] == x;
        assert MatchedIn(a, i, b.fields);
        var j :| 0 <= j < |n| && b.fields[j].0 == fs[i].0 && SameUpToOrder(fs[i].1, b.fields[j].1);
        SameGivesEqualCanonical(fs[i].1, b.fields[j].1);
        assert n[j] == x;
      }
      SameFieldMultiset(m, n);
      SortedFieldsUnique(m, n);
    case _ =>
  }

  lemma SortedFieldsUnique(m: seq<(string, Json)>, n: seq<(string, Json)>)
    requires DistinctKeys(m) && multiset(m) == multiset(n)
    ensures Sort(FieldLe, m) == Sort(FieldLe, n)
  {
    FieldOrder(m);
    FieldOrder(n);
    SortSorts(FieldLe, m);
    SortSorts(FieldLe, n);
    SameElements(Sort(FieldLe, m), m);
    SortedUnique(FieldLe, Sort(FieldLe, m), Sort(FieldLe, n));
  }

  lemma CanonicalItemsMultiset(j: Json)
    requires j.List?
    ensures Canonical(j).List? && multiset(Canonical(j).items) == multiset(CanonicalItems(j))
    ensures !AllScalar(CanonicalItems(j)) ==> Canonical(j).items == CanonicalItems(j)
  {
  }

  lemma EqualCanonicalLists(a: Json, b: Json)
    requires a.List? && b.List? && Canonical(a) == Canonical(b)
    ensures if AllScalar(a.items) then multiset(a.items) == multiset(b.items)
            else CanonicalItems(a) == CanonicalItems(b)
  {
    var m, n := CanonicalItems(a), CanonicalItems(b);
    CanonicalItemsMultiset(a);
    CanonicalItemsMultiset(b);
    CanonicalItemsOfScalars(a);
    CanonicalItemsOfScalars(b);
    if AllScalar(m) {
      AllScalarSameElements(m, n);
    } else if AllScalar(n) {
      AllScalarSameElements(n, m);
    }
  }

  lemma EqualCanonicalField(a: Json, b: Json, i: nat) returns (j: nat)
    requires a.Obj? && b.Obj? && Canonical(a) == Canonical(b) && i < |a.fields|
    ensures |a.fields| == |b.fields| && j < |b.fields| && b.fields[j].0 == a.fields[i].0
    ensures Canonical(a.fields[i].1) == Canonical(b.fields[j].1)
  {
    var m, n := CanonicalFields(a), CanonicalFields(b);
    assert multiset(m) == multiset(n);
    SameElements(m, n);
    assert m[i] in m;
    j :| 0 <= j < |n| && n[j] == m[i];
  }

  /** ... and nothing else does. */
  lemma {:induction false} EqualCanonicalGivesSame(a: Json, b: Json)
    requires WellFormed(a) && WellFormed(b) && Canonical(a) == Canonical(b)
    ensures SameUpToOrder(a, b)
  {
    match a
    case List(xs) =>
      EqualCanonicalLists(a, b);
      if !AllScalar(xs) {
        assert |CanonicalItems(a)| == |CanonicalItems(b)|;
        forall i | 0 <= i < |xs| ensures SameUpToOrder(xs[i], b.items[i]) {
          assert CanonicalItems(a)[i] == CanonicalItems(b)[i];
          EqualCanonicalGivesSame(xs[i], b.items[i]);
        }
      }
    case Obj(fs) =>
      assert b.Obj?;
      assert |Canonical(a).fields| == |Canonical(b).fields|;
      forall i | 0 <= i < |fs| ensures MatchedIn(a, i, b.fields) {
        var j := EqualCanonicalField(a, b, i);
        EqualCanonicalGivesSame(fs[i].1, b.fields[j].1);
      }
    case _ =>
  }

  lemma CanonicalCharacterised(a: Json, b: Json)
    requires WellFormed(a) && WellFormed(b)
    ensures Canonical(a) == Canonical(b) <==> SameUpToOrder(a, b)
  {
    if SameUpToOrder(a, b) {
      SameGivesEqualCanonical(a, b);
    }
    if Canonical(a) == Canonical(b) {
      EqualCanonicalGivesSame(a, b);
    }
  }
}
