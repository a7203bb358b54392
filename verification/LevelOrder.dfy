/** Listing the nodes of a parent forest level by level, and recognising links that are no forest. */
module LevelOrder {
  import opened Outcomes
  import opened Text
  import opened ParentForest

  function Roots(p: Parents): set<string> {
    set k | k in p && p[k] == None
  }

  /** The links that remain among the other nodes once the roots are taken out. */
  function Prune(p: Parents): Parents {
    map k | k in p && k !in Roots(p) :: if p[k].value in Roots(p) then None else p[k]
  }

  /** Round after round the sorted roots; `None` when a round finds none. */
  function Levels(p: Parents): Option<seq<string>>
    decreases p.Keys
  {
    if p == map[] then Some([])
    else if Roots(p) == {} then None
    else
      assert Prune(p).Keys == p.Keys - Roots(p);
      match Levels(Prune(p))
      case None => None
      case Some(rest) => Some(SortedKeys(Roots(p)) + rest)
  }

  /** Every link leads to a listed node. */
  ghost predicate Closed(p: Parents) {
    forall k | k in p && p[k].Some? :: p[k].value in p
  }

  lemma PruneClosed(p: Parents)
    requires Closed(p)
    ensures Closed(Prune(p)) && Prune(p).Keys == p.Keys - Roots(p)
  {
  }

  ghost predicate ListsKeys(p: Parents, keys: seq<string>) {
    && (forall k <- keys :: k in p)
    && (forall k <- p.Keys :: k in keys)
    && (forall i, j | 0 <= i < j < |keys| :: keys[i] != keys[j])
  }

  lemma {:induction false} LevelsListKeys(p: Parents)
    requires Levels(p).Some?
    ensures ListsKeys(p, Levels(p).value)
    decreases p.Keys
  {
    if p != map[] {
      assert Prune(p).Keys == p.Keys - Roots(p);
      LevelsListKeys(Prune(p));
      var first, rest := SortedKeys(Roots(p)), Levels(Prune(p)).value;
      forall i, j | 0 <= i < j < |first + rest| ensures (first + rest)[i] != (first + rest)[j] {
        if i < |first| <= j {
          assert first[i] in first && rest[j - |first|] in rest;
        }
      }
    }
  }

  // ---- depth through the rounds ---------------------------------------------------------------

  lemma {:induction false} PrunedDepth(p: Parents, k: string, n: nat)
    requires Closed(p) && k in p && k !in Roots(p)
    ensures HasDepth(Prune(p), k, n) <==> HasDepth(p, k, n + 1)
    decreases n
  {
    var q := p[k].value;
    if q !in Roots(p) && n > 0 {
      PrunedDepth(p, q, n - 1);
    }
  }

  lemma PrunedRooted(p: Parents, k: string)
    requires Closed(p) && k in p && k !in Roots(p)
    ensures Rooted(Prune(p), k) <==> Rooted(p, k)
  {
    if Rooted(p, k) {
      var n: nat :| HasDepth(p, k, n);
      PrunedDepth(p, k, n - 1);
    }
    if Rooted(Prune(p), k) {
      var n: nat :| HasDepth(Prune(p), k, n);
      PrunedDepth(p, k, n);
    }
  }

  lemma {:induction false} NoRootsNoDepth(p: Parents, k: string, n: nat)
    requires Closed(p) && Roots(p) == {} && k in p
    ensures !HasDepth(p, k, n)
    decreases n
  {
    assert k !in Roots(p);
    if n > 0 {
      NoRootsNoDepth(p, p[k].value, n - 1);
    }
  }

  ghost predicate AllRooted(p: Parents) {
    forall k | k in p :: Rooted(p, k)
  }

  /** The rounds get stuck exactly when some node has no depth. */
  lemma {:induction false} LevelsFailIffUnrooted(p: Parents)
    requires Closed(p)
    ensures Levels(p).Some? <==> AllRooted(p)
    decreases p.Keys
  {
    if p == map[] {
    } else if Roots(p) == {} {
      var k :| k in p;
      forall n: nat ensures !HasDepth(p, k, n) {
        NoRootsNoDepth(p, k, n);
      }
      assert !Rooted(p, k);
    } else {
      PruneClosed(p);
      LevelsFailIffUnrooted(Prune(p));
      forall k | k in p ensures k in Roots(p) ==> Rooted(p, k) {
        if k in Roots(p) {
          assert HasDepth(p, k, 0);
        }
      }
      forall k | k in Prune(p) ensures Rooted(Prune(p), k) <==> Rooted(p, k) {
        PrunedRooted(p, k);
      }
    }
  }

  /** Following links from `k` comes back to a node already visited. */
  ghost predicate Revisits(p: Parents, k: string, i: nat, j: nat) {
    k in p && i < j && Climb(p, k, i).Some? && Climb(p, k, i) == Climb(p, k, j)
  }

  lemma RevisitsNotRooted(p: Parents, k: string, i: nat, j: nat)
    requires Revisits(p, k, i, j)
    ensures !Rooted(p, k)
  {
    if Rooted(p, k) {
      var n: nat :| HasDepth(p, k, n);
      DepthAfterClimb(p, k, n, i);
      DepthAfterClimb(p, k, n, j);
      DepthUnique(p, Climb(p, k, i).value, n - i, n - j);
    }
  }

  lemma LevelsFailIffRevisits(p: Parents)
    requires Closed(p)
    ensures Levels(p) == None <==> exists k, i: nat, j: nat :: Revisits(p, k, i, j)
  {
    LevelsFailIffUnrooted(p);
    if k :| k in p && !Rooted(p, k) {
      UnrootedGivesCycle(p, k);
      var i: nat, j: nat :| i < j && Climb(p, k, i) == Climb(p, k, j) && Climb(p, k, i).Some?;
      assert Revisits(p, k, i, j);
    }
    if k, i: nat, j: nat :| Revisits(p, k, i, j) {
      RevisitsNotRooted(p, k, i, j);
    }
  }

  // ---- the canonical order --------------------------------------------------------------------

  /** `a` has fewer ancestors than `b`, or as many and the smaller name. */
  ghost predicate Before(p: Parents, a: string, b: string) {
    exists m: nat, n: nat :: Earlier(p, a, m, b, n)
  }

  ghost predicate Earlier(p: Parents, a: string, m: nat, b: string, n: nat) {
    HasDepth(p, a, m) && HasDepth(p, b, n) && (m < n || (m == n && a != b && StrLe(a, b)))
  }

  ghost predicate InCanonicalOrder(p: Parents, keys: seq<string>) {
    forall i, j | 0 <= i < j < |keys| :: Before(p, keys[i], keys[j])
  }

  lemma LiftBefore(p: Parents, a: string, b: string)
    requires Closed(p) && a in Prune(p) && b in Prune(p) && Before(Prune(p), a, b)
    ensures Before(p, a, b)
  {
    var m: nat, n: nat :| Earlier(Prune(p), a, m, b, n);
    PrunedDepth(p, a, m);
    PrunedDepth(p, b, n);
    assert Earlier(p, a, m + 1, b, n + 1);
  }

  lemma RootBefore(p: Parents, a: string, b: string)
    requires Closed(p) && a in Roots(p) && b in Prune(p) && Rooted(Prune(p), b)
    ensures Before(p, a, b)
  {
    var n: nat :| HasDepth(Prune(p), b, n);
    PrunedDepth(p, b, n);
    assert Earlier(p, a, 0, b, n + 1);
  }

  lemma ConcatInOrder(p: Parents, first: seq<string>, rest: seq<string>)
    requires InCanonicalOrder(p, first) && InCanonicalOrder(p, rest)
    requires forall i, j | 0 <= i < |first| && 0 <= j < |rest| :: Before(p, first[i], rest[j])
    ensures InCanonicalOrder(p, first + rest)
  {
  }

  lemma {:induction false} LevelsInOrder(p: Parents)
    requires Closed(p) && Levels(p).Some?
    ensures InCanonicalOrder(p, Levels(p).value)
    decreases p.Keys
  {
    if p != map[] {
      PruneClosed(p);
      var first, rest := SortedKeys(Roots(p)), Levels(Prune(p)).value;
      LevelsInOrder(Prune(p));
      LevelsListKeys(Prune(p));
      LevelsFailIffUnrooted(Prune(p));
      forall i, j | 0 <= i < j < |first| ensures Before(p, first[i], first[j]) {
        assert first[i] in first && first[j] in first;
        assert Earlier(p, first[i], 0, first[j], 0);
      }
      forall i, j | 0 <= i < j < |rest| ensures Before(p, rest[i], rest[j]) {
        assert rest[i] in rest && rest[j] in rest;
        LiftBefore(p, rest[i], rest[j]);
      }
      forall i, j | 0 <= i < |first| && 0 <= j < |rest| ensures Before(p, first[i], rest[j]) {
        assert first[i] in first && rest[j] in rest;
        RootBefore(p, first[i], rest[j]);
      }
      ConcatInOrder(p, first, rest);
    }
  }

  lemma BeforeAsymmetric(p: Parents, a: string, b: string)
    requires Before(p, a, b)
    ensures a != b && !Before(p, b, a)
  {
    var m: nat, n: nat :| Earlier(p, a, m, b, n);
    if a == b {
      DepthUnique(p, a, m, n);
    } else if Before(p, b, a) {
      var n': nat, m': nat :| Earlier(p, b, n', a, m');
      DepthUnique(p, a, m, m');
      DepthUnique(p, b, n, n');
      StrLeAntisymmetric(a, b);
    }
  }

  lemma TailInOrder(p: Parents, a: seq<string>)
    requires InCanonicalOrder(p, a) && a != []
    ensures InCanonicalOrder(p, a[1..])
    ensures forall k :: k in a[1..] <==> k in a && k != a[0]
  {
    assert a == [a[0]] + a[1..];
    forall i | 0 < i < |a| ensures a[i] != a[0] {
      BeforeAsymmetric(p, a[0], a[i]);
    }
  }

  lemma HeadsAgree(p: Parents, a: seq<string>, b: seq<string>)
    requires InCanonicalOrder(p, a) && InCanonicalOrder(p, b) && a != [] && b != []
    requires b[0] in a && a[0] in b
    ensures a[0] == b[0]
  {
    var i :| 0 <= i < |a| && a[i] == b[0];
    var j :| 0 <= j < |b| && b[j] == a[0];
    if i > 0 {
      BeforeAsymmetric(p, a[0], a[i]);
    }
  }

  /** One arrangement of a set of keys is in canonical order. */
  lemma {:induction false} CanonicalOrderUnique(p: Parents, a: seq<string>, b: seq<string>)
    requires InCanonicalOrder(p, a) && InCanonicalOrder(p, b)
    requires forall k :: k in a <==> k in b
    ensures a == b
    decreases |a|
  {
    assert (a != [] ==> a[0] in a) && (b != [] ==> b[0] in b);
    if a != [] && b != [] {
      HeadsAgree(p, a, b);
      TailInOrder(p, a);
      TailInOrder(p, b);
      CanonicalOrderUnique(p, a[1..], b[1..]);
      assert a == [a[0]] + a[1..] && b == [b[0]] + b[1..];
    }
  }

  /** The rounds produce `keys` exactly when `keys` lists all nodes in canonical order. */
  lemma LevelsExact(p: Parents, keys: seq<string>)
    requires Closed(p) && Levels(p).Some?
    ensures Levels(p) == Some(keys) <==> InCanonicalOrder(p, keys) && (forall k :: k in keys <==> k in p)
  {
    LevelsInOrder(p);
    LevelsListKeys(p);
    if InCanonicalOrder(p, keys) && forall k :: k in keys <==> k in p {
      CanonicalOrderUnique(p, Levels(p).value, keys);
    }
  }

  /** A parent stands before its child. */
  lemma ParentFirst(p: Parents, keys: seq<string>, j: nat) returns (i: nat)
    requires Closed(p) && Levels(p) == Some(keys) && j < |keys| && Parent(p, keys[j]).Some?
    ensures i < j && Some(keys[i]) == Parent(p, keys[j])
  {
    LevelsListKeys(p);
    LevelsInOrder(p);
    LevelsFailIffUnrooted(p);
    var q := p[keys[j]].value;
    i :| 0 <= i < |keys| && keys[i] == q;
    assert keys[j] in keys && Rooted(p, keys[j]);
    var n: nat :| HasDepth(p, keys[j], n);
    assert Earlier(p, q, n - 1, keys[j], n);
    assert i > j ==> Before(p, keys[j], keys[i]);
    BeforeAsymmetric(p, q, keys[j]);
  }
}
