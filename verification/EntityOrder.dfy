/** `_topological_entities`: parents before children, or the news that declared parents run in a circle. */
module EntityOrder {
  import opened Outcomes
  import opened Text
  import opened JsonValues
  import opened Manifests
  import opened Indexing
  import opened ParentForest
  import opened LevelOrder
  import Validation

  /** The key an item's `parent` is looked up under. */
  function ParentKey(item: Dict): Option<string> {
    if Truthy(Get(item, "parent")) then Some(Fold(PyStr(Get(item, "parent")))) else None
  }

  function Pending(items: seq<Dict>): map<string, Dict> {
    IndexBy(Keyed(Entities), items)
  }

  /** The parent links among pending entities. */
  function DeclaredParents(pending: map<string, Dict>): Parents {
    map k | k in pending ::
      if ParentKey(pending[k]).Some? && ParentKey(pending[k]).value in pending then ParentKey(pending[k]) else None
  }

  function Fetch(pending: map<string, Dict>, keys: seq<string>): seq<Dict>
    requires forall k <- keys :: k in pending
  {
    seq(|keys|, i requires 0 <= i < |keys| => pending[keys[i]])
  }

  /** The ordered entities; `None` stands for the cycle error. */
  function TopologicalOrder(items: seq<Dict>): Option<seq<Dict>> {
    var pending := Pending(items);
    match Levels(DeclaredParents(pending))
    case None => None
    case Some(keys) =>
      LevelsListKeys(DeclaredParents(pending));
      Some(Fetch(pending, keys))
  }

  lemma RoundLeaves(pending: map<string, Dict>)
    ensures Closed(DeclaredParents(pending))
    ensures DeclaredParents(pending - Roots(DeclaredParents(pending))) == Prune(DeclaredParents(pending))
  {
  }

  /** The list comprehension that selects the keys to pop next. */
  function ReadyKeys(pending: map<string, Dict>, resolved: set<string>): set<string> {
    set k | k in pending &&
      (!Truthy(Get(pending[k], "parent"))
       || Fold(PyStr(Get(pending[k], "parent"))) !in pending
       || Fold(PyStr(Get(pending[k], "parent"))) in resolved)
  }

  lemma ReadyAreRoots(pending: map<string, Dict>, resolved: set<string>)
    requires resolved !! pending.Keys
    ensures ReadyKeys(pending, resolved) == Roots(DeclaredParents(pending))
  {
  }

  /** What is left to order, put behind what is done, is the whole order. */
  ghost predicate Continues(whole: Option<seq<string>>, done: seq<string>, left: Option<seq<string>>) {
    && (whole.Some? <==> left.Some?)
    && (whole.Some? ==> whole.value == done + left.value)
  }

  lemma ContinueRound(whole: Option<seq<string>>, done: seq<string>, p: Parents)
    requires Continues(whole, done, Levels(p)) && p != map[]
    ensures Roots(p) == {} ==> whole == None
    ensures Roots(p) != {} ==> Continues(whole, done + SortedKeys(Roots(p)), Levels(Prune(p)))
  {
    if Roots(p) != {} && Levels(p).Some? {
      Associate(done, SortedKeys(Roots(p)), Levels(Prune(p)).value);
    }
  }

  lemma Associate(a: seq<string>, b: seq<string>, c: seq<string>)
    ensures a + (b + c) == (a + b) + c
  {
  }

  lemma SortedKeysAreSet(s: set<string>)
    ensures (set k | k in SortedKeys(s)) == s
  {
  }

  ghost predicate Progress(all: map<string, Dict>, pending: map<string, Dict>, resolved: set<string>,
                           ordered: seq<Dict>, done: seq<string>) {
    && pending == all - resolved
    && (forall k <- done :: k in all)
    && ordered == Fetch(all, done)
  }

  lemma ProgressRound(all: map<string, Dict>, pending: map<string, Dict>, resolved: set<string>,
                      ordered: seq<Dict>, done: seq<string>, keys: seq<string>)
    requires Progress(all, pending, resolved, ordered, done) && forall k <- keys :: k in pending
    ensures var popped := set k | k in keys;
      Progress(all, pending - popped, resolved + popped, ordered + Fetch(pending, keys), done + keys)
  {
    assert forall i | 0 <= i < |keys| :: keys[i] in keys;
    assert Fetch(all, done + keys) == Fetch(all, done) + Fetch(pending, keys);
  }

  /** The inner loop: pop every ready key in sorted order. */
  method PopReady(before: map<string, Dict>, resolvedBefore: set<string>, orderedBefore: seq<Dict>, keys: seq<string>)
    returns (pending: map<string, Dict>, resolved: set<string>, ordered: seq<Dict>)
    requires (forall k <- keys :: k in before) && forall i, j | 0 <= i < j < |keys| :: keys[i] != keys[j]
    ensures pending == before - (set k | k in keys)
    ensures resolved == resolvedBefore + set k | k in keys
    ensures ordered == orderedBefore + Fetch(before, keys)
  {
    pending, resolved, ordered := before, resolvedBefore, orderedBefore;
    ghost var gone: set<string> := {};
    for i := 0 to |keys|
      invariant forall k :: k in gone <==> k in keys[..i]
      invariant pending == before - gone
      invariant resolved == resolvedBefore + gone
      invariant |ordered| == |orderedBefore| + i && ordered[..|orderedBefore|] == orderedBefore
      invariant forall j | 0 <= j < i :: ordered[|orderedBefore| + j] == before[keys[j]]
    {
      var key := keys[i];
      assert key !in keys[..i] && keys[..i + 1] == keys[..i] + [key];
      ordered := ordered + [pending[key]];
      pending := pending - {key};
      resolved := resolved + {key};
      gone := gone + {key};
    }
    assert keys[..|keys|] == keys;
    assert gone == set k | k in keys;
  }

  lemma Finished(items: seq<Dict>, pending: map<string, Dict>, resolved: set<string>, ordered: seq<Dict>,
                 done: seq<string>)
    requires pending == map[] && Progress(Pending(items), pending, resolved, ordered, done)
    requires Continues(Levels(DeclaredParents(Pending(items))), done, Levels(DeclaredParents(pending)))
    ensures TopologicalOrder(items) == Some(ordered)
  {
    assert DeclaredParents(pending) == map[];
    assert done + [] == done;
  }

  /** One pass of the outer loop: pop what is ready, unless nothing is. */
  method Round(ghost all: map<string, Dict>, before: map<string, Dict>, resolvedBefore: set<string>,
               orderedBefore: seq<Dict>, ghost done: seq<string>)
    returns (stuck: bool, pending: map<string, Dict>, resolved: set<string>, ordered: seq<Dict>,
      ghost popped: seq<string>)
    requires before != map[] && Progress(all, before, resolvedBefore, orderedBefore, done)
    requires Continues(Levels(DeclaredParents(all)), done, Levels(DeclaredParents(before)))
    ensures stuck ==> Levels(DeclaredParents(all)) == None
    ensures !stuck ==> Progress(all, pending, resolved, ordered, popped) && pending.Keys < before.Keys
    ensures !stuck ==> Continues(Levels(DeclaredParents(all)), popped, Levels(DeclaredParents(pending)))
  {
    var ready := ReadyKeys(before, resolvedBefore);
    ReadyAreRoots(before, resolvedBefore);
    ContinueRound(Levels(DeclaredParents(all)), done, DeclaredParents(before));
    stuck, pending, resolved, ordered, popped := true, before, resolvedBefore, orderedBefore, done;
    if ready != {} {
      var keys := SortedKeys(ready);
      RoundLeaves(before);
      SortedKeysAreSet(ready);
      ProgressRound(all, before, resolvedBefore, orderedBefore, done, keys);
      pending, resolved, ordered := PopReady(before, resolvedBefore, orderedBefore, keys);
      stuck, popped := false, done + keys;
    }
  }

  /** The loop of the source. */
  method TopologicalEntities(items: seq<Dict>) returns (r: Option<seq<Dict>>)
    ensures r == TopologicalOrder(items)
  {
    var pending := Pending(items);
    var ordered: seq<Dict> := [];
    var resolved: set<string> := {};
    ghost var all, done: seq<string> := pending, [];
    assert Levels(DeclaredParents(all)).Some? ==>
      done + Levels(DeclaredParents(all)).value == Levels(DeclaredParents(all)).value;
    while pending != map[]
      invariant Progress(all, pending, resolved, ordered, done)
      invariant Continues(Levels(DeclaredParents(all)), done, Levels(DeclaredParents(pending)))
      decreases pending.Keys
    {
      var stuck;
      stuck, pending, resolved, ordered, done := Round(all, pending, resolved, ordered, done);
      if stuck {
        return None;
      }
    }
    Finished(items, pending, resolved, ordered, done);
    r := Some(ordered);
  }

  // ---- main results ---------------------------------------------------------------------------

  /** The cycle error is raised exactly when following declared parents from some declared entity comes back to an
      entity already visited. */
  lemma CycleErrorExact(items: seq<Dict>)
    ensures TopologicalOrder(items) == None <==>
      exists k, i: nat, j: nat :: Revisits(DeclaredParents(Pending(items)), k, i, j)
  {
    RoundLeaves(Pending(items));
    LevelsFailIffRevisits(DeclaredParents(Pending(items)));
  }

  function KeysOf(items: seq<Dict>): seq<string> {
    seq(|items|, i requires 0 <= i < |items| =>
      match FoldedIdentity(Entities, items[i]) case Some(k) => k case None => "")
  }

  lemma PendingKeys(items: seq<Dict>)
    ensures forall k | k in Pending(items) :: FoldedIdentity(Entities, Pending(items)[k]) == Some(k)
  {
    IndexSound(Keyed(Entities), items);
  }

  lemma KeysOfFetch(pending: map<string, Dict>, keys: seq<string>)
    requires forall k | k in pending :: FoldedIdentity(Entities, pending[k]) == Some(k)
    requires forall k <- keys :: k in pending
    ensures KeysOf(Fetch(pending, keys)) == keys
  {
  }

  lemma FetchKeysOf(pending: map<string, Dict>, out: seq<Dict>)
    requires forall k | k in pending :: FoldedIdentity(Entities, pending[k]) == Some(k)
    requires forall x <- out :: x in pending.Values
    ensures (forall k <- KeysOf(out) :: k in pending) && Fetch(pending, KeysOf(out)) == out
  {
    forall i | 0 <= i < |out| ensures KeysOf(out)[i] in pending && pending[KeysOf(out)[i]] == out[i] {
      assert out[i] in pending.Values;
      var k :| k in pending && pending[k] == out[i];
    }
  }

  /** The pending items, each once, in the one canonical order: number of declared ancestors first, casefolded slug
      second. */
  ghost predicate CanonicalListing(pending: map<string, Dict>, out: seq<Dict>) {
    && InCanonicalOrder(DeclaredParents(pending), KeysOf(out))
    && (forall k :: k in KeysOf(out) <==> k in pending)
    && (forall x <- out :: x in pending.Values)
  }

  lemma FetchIsListing(pending: map<string, Dict>, keys: seq<string>)
    requires forall k | k in pending :: FoldedIdentity(Entities, pending[k]) == Some(k)
    requires Levels(DeclaredParents(pending)) == Some(keys)
    ensures (forall k <- keys :: k in pending) && CanonicalListing(pending, Fetch(pending, keys))
  {
    hide Levels, ParentKey;
    RoundLeaves(pending);
    LevelsListKeys(DeclaredParents(pending));
    LevelsInOrder(DeclaredParents(pending));
    KeysOfFetch(pending, keys);
    assert forall i | 0 <= i < |keys| :: keys[i] in keys;
  }

  lemma ListingIsFetch(pending: map<string, Dict>, out: seq<Dict>)
    requires forall k | k in pending :: FoldedIdentity(Entities, pending[k]) == Some(k)
    requires Levels(DeclaredParents(pending)).Some? && CanonicalListing(pending, out)
    ensures Levels(DeclaredParents(pending)) == Some(KeysOf(out))
    ensures (forall k <- KeysOf(out) :: k in pending) && Fetch(pending, KeysOf(out)) == out
  {
    hide Levels, ParentKey;
    RoundLeaves(pending);
    LevelsExact(DeclaredParents(pending), KeysOf(out));
    FetchKeysOf(pending, out);
  }

  lemma OutputIsCanonical(items: seq<Dict>, out: seq<Dict>)
    ensures TopologicalOrder(items).Some? ==>
      (TopologicalOrder(items) == Some(out) <==> CanonicalListing(Pending(items), out))
  {
    if TopologicalOrder(items).Some? {
      PendingKeys(items);
      FetchIsListing(Pending(items), Levels(DeclaredParents(Pending(items))).value);
      if CanonicalListing(Pending(items), out) {
        ListingIsFetch(Pending(items), out);
      }
    }
  }

  lemma {:induction false} MultisetOfDistinct<T>(s: seq<T>)
    requires forall i, j | 0 <= i < j < |s| :: s[i] != s[j]
    ensures forall x :: multiset(s)[x] == if x in s then 1 else 0
  {
    if s != [] {
      var n := |s| - 1;
      MultisetOfDistinct(s[..n]);
      assert s == s[..n] + [s[n]];
      assert s[n] !in s[..n];
    }
  }

  lemma DistinctMultisets<T>(a: seq<T>, b: seq<T>)
    requires forall i, j | 0 <= i < j < |a| :: a[i] != a[j]
    requires forall i, j | 0 <= i < j < |b| :: b[i] != b[j]
    requires forall x :: x in a <==> x in b
    ensures multiset(a) == multiset(b)
  {
    MultisetOfDistinct(a);
    MultisetOfDistinct(b);
  }

  lemma FetchMembers(pending: map<string, Dict>, keys: seq<string>)
    requires forall k | k in pending :: FoldedIdentity(Entities, pending[k]) == Some(k)
    requires (forall k <- keys :: k in pending) && (forall k <- pending.Keys :: k in keys)
    requires forall i, j | 0 <= i < j < |keys| :: keys[i] != keys[j]
    ensures var out := Fetch(pending, keys);
      && |out| == |pending|
      && (forall x :: x in out <==> x in pending.Values)
      && (forall i, j | 0 <= i < j < |out| :: out[i] != out[j])
  {
    var out := Fetch(pending, keys);
    MultisetOfDistinct(keys);
    assert multiset(keys) == multiset(pending.Keys);
    assert |multiset(keys)| == |keys| && |multiset(pending.Keys)| == |pending.Keys|;
    forall x | x in pending.Values ensures x in out {
      var k :| k in pending && pending[k] == x;
      assert k in pending.Keys && k in keys;
      var i :| 0 <= i < |keys| && keys[i] == k;
      assert out[i] == x;
    }
    forall i | 0 <= i < |out| ensures out[i] in pending.Values && FoldedIdentity(Entities, out[i]) == Some(keys[i]) {
      assert keys[i] in keys;
    }
  }

  lemma OutputMembers(items: seq<Dict>)
    requires TopologicalOrder(items).Some?
    ensures var out := TopologicalOrder(items).value;
      && |out| == |Pending(items)|
      && (forall x :: x in out <==> x in Pending(items).Values)
      && (forall i, j | 0 <= i < j < |out| :: out[i] != out[j])
  {
    hide Levels, ParentKey;
    var p := DeclaredParents(Pending(items));
    LevelsListKeys(p);
    PendingKeys(items);
    FetchMembers(Pending(items), Levels(p).value);
  }

  /** The output rearranges the input exactly when no two slugs differ only in case; otherwise an item has silently
      been dropped. */
  lemma OutputIsPermutationIff(items: seq<Dict>)
    requires forall x | x in items :: ValidItem(Entities, x)
    ensures TopologicalOrder(items).Some? ==>
      (multiset(TopologicalOrder(items).value) == multiset(items) <==> Distinct(Keyed(Entities), items))
  {
    hide TopologicalOrder, ValidItem;
    if TopologicalOrder(items).Some? {
      OutputMultiset(items);
    }
  }

  function Slugged(slug: string): Dict {
    map["slug" := Str(slug), "state" := Str("present")]
  }

  lemma SameKeyReplaces<T>(key: T -> Option<string>, x: T, y: T, k: string)
    requires key(x) == key(y) == Some(k)
    ensures IndexBy(key, [x, y]) == map[k := y]
  {
    assert [x, y][..1] == [x] && [x][..0] == [];
    assert IndexBy(key, [x]) == map[k := x];
  }

  lemma OneRoot(item: Dict, k: string)
    requires ParentKey(item) == None
    ensures Levels(DeclaredParents(map[k := item])) == Some([k])
  {
    var p := DeclaredParents(map[k := item]);
    assert p == map[k := None] && Roots(p) == {k} && Prune(p) == map[];
    assert SortedKeys({k})[0] in SortedKeys({k});
    assert SortedKeys({k}) == [k];
  }

  lemma SluggedIsValid(slug: string)
    requires slug != ""
    ensures ValidItem(Entities, Slugged(slug)) && Validation.WithState(Slugged(slug)) == Slugged(slug)
    ensures NameOf(Entities, Slugged(slug)) == slug && FoldedIdentity(Entities, Slugged(slug)) == Some(Fold(slug))
    ensures ParentKey(Slugged(slug)) == None
  {
  }

  /** A loss: of the two slugs "a" and "A", which validation accepts, only the second one is ordered. */
  lemma CaseCollisionDropsItem()
    ensures var items := [Slugged("a"), Slugged("A")];
      && items[0] != items[1]
      && Validation.AcceptedGroup(Entities,
        Validation.Entries([Validation.Object(items[0]), Validation.Object(items[1])]))
      && TopologicalOrder(items) == Some([items[1]])
  {
    hide Levels, DeclaredParents, Slugged, ValidItem, NameOf, FoldedIdentity, ParentKey, Validation.WithState;
    var a, b := Slugged("a"), Slugged("A");
    SluggedIsValid("a");
    SluggedIsValid("A");
    var g := Validation.Entries([Validation.Object(a), Validation.Object(b)]);
    assert Validation.Normalized(g.entries) == [a, b];
    assert "a"[0] != "A"[0] && Fold("a") == "a" && Fold("A") == "a";
    SameKeyReplaces(Keyed(Entities), a, b, "a");
    OneRoot(b, "a");
    assert Fetch(map["a" := b], ["a"]) == [b];
  }

  lemma OutputMultiset(items: seq<Dict>)
    requires forall x | x in items :: ValidItem(Entities, x)
    requires TopologicalOrder(items).Some?
    ensures multiset(TopologicalOrder(items).value) == multiset(items) <==> Distinct(Keyed(Entities), items)
  {
    hide TopologicalOrder;
    var key := Keyed(Entities);
    var out := TopologicalOrder(items).value;
    forall x | x in items ensures key(x).Some? {
      ValidItemIdentity(Entities, x);
    }
    IndexSize(key, items);
    IndexSound(key, items);
    OutputMembers(items);
    assert |multiset(out)| == |out| && |multiset(items)| == |items|;
    if Distinct(key, items) {
      IndexFinds(key, items);
      forall i, j | 0 <= i < j < |items| ensures items[i] != items[j] {
        assert items[i] in items && key(items[i]) != key(items[j]);
      }
      DistinctMultisets(out, items);
    }
  }

  /** The order of the manifest's entries has no influence. */
  lemma OrderIgnoresInputOrder(items: seq<Dict>, others: seq<Dict>)
    requires multiset(items) == multiset(others)
    requires Distinct(Keyed(Entities), items) && Distinct(Keyed(Entities), others)
    ensures TopologicalOrder(items) == TopologicalOrder(others)
  {
    hide Levels, ParentKey;
    var key := Keyed(Entities);
    assert forall x :: x in items <==> x in multiset(items);
    assert forall x :: x in others <==> x in multiset(others);
    IndexSound(key, items);
    IndexSound(key, others);
    IndexFinds(key, items);
    IndexFinds(key, others);
    assert Pending(items) == Pending(others);
  }

  /** A declared parent stands before its child. */
  lemma ParentBeforeChild(items: seq<Dict>, j: nat) returns (i: nat)
    requires TopologicalOrder(items).Some? && j < |TopologicalOrder(items).value|
    requires var parent := ParentKey(TopologicalOrder(items).value[j]); parent.Some? && parent.value in Pending(items)
    ensures i < j
    ensures FoldedIdentity(Entities, TopologicalOrder(items).value[i]) == ParentKey(TopologicalOrder(items).value[j])
  {
    var pending := Pending(items);
    var p := DeclaredParents(pending);
    var keys := Levels(p).value;
    RoundLeaves(pending);
    LevelsListKeys(p);
    IndexSound(Keyed(Entities), items);
    assert keys[j] in keys;
    i := ParentFirst(p, keys, j);
    assert keys[i] in keys;
  }
}
