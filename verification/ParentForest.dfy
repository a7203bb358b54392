/** Parent links between named nodes: climbing them, and when they run in a circle. */
module ParentForest {
  import opened Outcomes

  /** A node that is not a key has no parent. */
  type Parents = map<string, Option<string>>

  function Parent(p: Parents, k: string): Option<string> {
    if k in p then p[k] else None
  }

  /** The node `n` parent links above `k`, if there is one. */
  ghost function Climb(p: Parents, k: string, n: nat): Option<string> {
    if n == 0 then Some(k)
    else match Climb(p, k, n - 1) case None => None case Some(q) => Parent(p, q)
  }

  ghost predicate OnCycle(p: Parents, k: string, n: nat) {
    n > 0 && Climb(p, k, n) == Some(k)
  }

  ghost predicate Cyclic(p: Parents) {
    exists k, n: nat :: OnCycle(p, k, n)
  }

  /** `k` has exactly `n` ancestors. */
  ghost predicate HasDepth(p: Parents, k: string, n: nat)
    decreases n
  {
    match Parent(p, k)
    case None => n == 0
    case Some(q) => n > 0 && HasDepth(p, q, n - 1)
  }

  ghost predicate Rooted(p: Parents, k: string) {
    exists n: nat :: HasDepth(p, k, n)
  }

  lemma {:induction false} ClimbAdd(p: Parents, k: string, i: nat, q: string, j: nat)
    requires Climb(p, k, i) == Some(q)
    ensures Climb(p, k, i + j) == Climb(p, q, j)
  {
    if j > 0 {
      ClimbAdd(p, k, i, q, j - 1);
    }
  }

  lemma {:induction false} DepthUnique(p: Parents, k: string, m: nat, n: nat)
    requires HasDepth(p, k, m) && HasDepth(p, k, n)
    ensures m == n
    decreases m
  {
    if m > 0 && n > 0 {
      DepthUnique(p, p[k].value, m - 1, n - 1);
    }
  }

  /** Climbing `m` links from a node of depth `n` stops above the root or lands at depth `n - m`. */
  lemma {:induction false} DepthAfterClimb(p: Parents, k: string, n: nat, m: nat)
    requires HasDepth(p, k, n)
    ensures m <= n ==> Climb(p, k, m).Some? && HasDepth(p, Climb(p, k, m).value, n - m)
    ensures m > n ==> Climb(p, k, m) == None
  {
    if m > 0 {
      DepthAfterClimb(p, k, n, m - 1);
    }
  }

  lemma RootedNotOnCycle(p: Parents, k: string, m: nat)
    requires Rooted(p, k)
    ensures !OnCycle(p, k, m)
  {
    var n: nat :| HasDepth(p, k, n);
    DepthAfterClimb(p, k, n, m);
    if OnCycle(p, k, m) {
      DepthUnique(p, k, n, n - m);
    }
  }

  lemma RootedParent(p: Parents, k: string)
    requires Parent(p, k).Some?
    ensures Rooted(p, k) <==> Rooted(p, Parent(p, k).value)
  {
    var q := Parent(p, k).value;
    if Rooted(p, q) {
      var n: nat :| HasDepth(p, q, n);
      assert HasDepth(p, k, n + 1);
    }
    if Rooted(p, k) {
      var n: nat :| HasDepth(p, k, n);
      assert HasDepth(p, q, n - 1);
    }
  }

  lemma {:induction false} UnrootedClimbs(p: Parents, k: string, m: nat)
    requires !Rooted(p, k)
    ensures Climb(p, k, m).Some? && !Rooted(p, Climb(p, k, m).value) && Climb(p, k, m).value in p
  {
    if m > 0 {
      UnrootedClimbs(p, k, m - 1);
      var q := Climb(p, k, m - 1).value;
      assert Parent(p, q) == None ==> HasDepth(p, q, 0);
      RootedParent(p, q);
    }
    var q := Climb(p, k, m).value;
    assert Parent(p, q) == None ==> HasDepth(p, q, 0);
  }

  lemma {:induction false} Pigeonhole(s: seq<string>, holes: set<string>) returns (i: nat, j: nat)
    requires |s| > |holes| && forall x | x in s :: x in holes
    ensures i < j < |s| && s[i] == s[j]
    decreases |s|
  {
    var last := |s| - 1;
    if s[last] in s[..last] {
      i :| 0 <= i < last && s[i] == s[last];
      j := last;
    } else {
      assert s[last] in s && s[last] in holes;
      forall x | x in s[..last] ensures x in holes - {s[last]} {
        assert x in s;
      }
      i, j := Pigeonhole(s[..last], holes - {s[last]});
    }
  }

  /** A node without a depth leads into a circle: among |p| + 1 climbs two must agree. */
  lemma UnrootedGivesCycle(p: Parents, k: string)
    requires !Rooted(p, k)
    ensures exists i: nat, j: nat :: i < j && Climb(p, k, i) == Climb(p, k, j) && Climb(p, k, i).Some?
    ensures Cyclic(p)
  {
    forall m: nat ensures Climb(p, k, m).Some? && Climb(p, k, m).value in p {
      UnrootedClimbs(p, k, m);
    }
    var s := seq(|p| + 1, m requires 0 <= m => Climb(p, k, m).value);
    var i, j := Pigeonhole(s, p.Keys);
    assert Climb(p, k, i) == Some(s[i]) && Climb(p, k, j) == Some(s[j]);
    ClimbAdd(p, k, i, s[i], j - i);
    assert OnCycle(p, s[i], j - i);
  }

  /** Links run in no circle exactly when every node has a depth. */
  lemma AcyclicIffRooted(p: Parents)
    ensures !Cyclic(p) <==> forall k :: Rooted(p, k)
  {
    if !Cyclic(p) {
      forall k ensures Rooted(p, k) {
        if !Rooted(p, k) {
          UnrootedGivesCycle(p, k);
        }
      }
    }
    if forall k :: Rooted(p, k) {
      forall k, n: nat ensures !OnCycle(p, k, n) {
        RootedNotOnCycle(p, k, n);
      }
    }
  }

  // ---- changing one link ----------------------------------------------------------------------

  lemma {:induction false} NothingAbove(p: Parents, k: string, i: nat, j: nat)
    requires Climb(p, k, i) == None
    ensures Climb(p, k, i + j) == None
  {
    if j > 0 {
      NothingAbove(p, k, i, j - 1);
    }
  }

  /** The two differ at most in the link of `k`. */
  ghost predicate SameBut(p: Parents, q: Parents, k: string) {
    forall x | x != k :: Parent(p, x) == Parent(q, x)
  }

  /** As long as a climb does not come upon the changed node it is the same in both. */
  lemma {:induction false} SameClimb(p: Parents, q: Parents, k: string, x: string, n: nat)
    requires SameBut(p, q, k) && forall t: nat | t < n :: Climb(p, x, t) != Some(k)
    ensures Climb(q, x, n) == Climb(p, x, n)
  {
    if n > 0 {
      SameClimb(p, q, k, x, n - 1);
    }
  }

  lemma {:induction false} FirstMeeting(p: Parents, x: string, k: string, n: nat) returns (m: nat)
    requires Climb(p, x, n) == Some(k)
    ensures m <= n && Climb(p, x, m) == Some(k) && forall t: nat | t < m :: Climb(p, x, t) != Some(k)
  {
    if t: nat :| t < n && Climb(p, x, t) == Some(k) {
      m := FirstMeeting(p, x, k, t);
    } else {
      m := n;
    }
  }

  /** A circle that the change of one link closes runs through that link. */
  lemma ClosedThroughLink(p: Parents, q: Parents, k: string, x: string, n: nat) returns (m: nat)
    requires SameBut(p, q, k) && !Cyclic(p) && OnCycle(q, x, n)
    ensures Parent(q, k).Some? && Climb(p, Parent(q, k).value, m) == Some(k)
  {
    if forall t: nat | t < n :: Climb(q, x, t) != Some(k) {
      SameClimb(q, p, k, x, n);
      assert OnCycle(p, x, n);
    }
    var t: nat :| t < n && Climb(q, x, t) == Some(k);
    ClimbAdd(q, x, t, k, n);
    ClimbAdd(q, x, n, x, t);
    assert Climb(q, k, n) == Some(k);
    if Parent(q, k).None? {
      assert Climb(q, k, 0) == Some(k) && Climb(q, k, 1) == None;
      NothingAbove(q, k, 1, n - 1);
    }
    var v := Parent(q, k).value;
    assert Climb(q, k, 0) == Some(k) && Climb(q, k, 1) == Some(v);
    ClimbAdd(q, k, 1, v, n - 1);
    m := FirstMeeting(q, v, k, n - 1);
    SameClimb(q, p, k, v, m);
  }

  /** Climbing from one node comes to the other. */
  ghost predicate Reaches(p: Parents, from: string, to: string) {
    exists n: nat :: Climb(p, from, n) == Some(to)
  }

  /** Giving `k` the parent `v` in a forest closes a circle exactly when climbing from `v` reaches `k`. */
  lemma RelinkCyclicIff(p: Parents, k: string, v: Option<string>)
    requires !Cyclic(p)
    ensures Cyclic(p[k := v]) <==> v.Some? && Reaches(p, v.value, k)
  {
    var q := p[k := v];
    if Cyclic(q) {
      var x, n: nat :| OnCycle(q, x, n);
      var m := ClosedThroughLink(p, q, k, x, n);
    }
    if v.Some? {
      if n: nat :| Climb(p, v.value, n) == Some(k) {
        var m := FirstMeeting(p, v.value, k, n);
        SameClimb(p, q, k, v.value, m);
        assert Climb(q, k, 0) == Some(k) && Climb(q, k, 1) == Some(v.value);
        ClimbAdd(q, k, 1, v.value, m);
        assert OnCycle(q, k, 1 + m);
      }
    }
  }

  // ---- the same links under other names -------------------------------------------------------

  /** `g` has the links of `p` with each node renamed; links that lead out of `p` count as none. */
  ghost predicate Mirrors(p: Parents, g: Parents, name: map<string, string>) {
    && name.Keys == p.Keys
    && (forall a, b | a in name && b in name && name[a] == name[b] :: a == b)
    && (forall a | a in p :: Parent(g, name[a]) == NamedNode(p, name, p[a]))
    && (forall k | Parent(g, k).Some? :: exists a :: a in name && name[a] == k)
  }

  function NamedNode(p: Parents, name: map<string, string>, node: Option<string>): Option<string> {
    if node.Some? && node.value in p && node.value in name then Some(name[node.value]) else None
  }

  lemma {:induction false} MirroredClimb(p: Parents, g: Parents, name: map<string, string>, a: string, n: nat)
    requires Mirrors(p, g, name) && a in p
    ensures Climb(g, name[a], n) == NamedNode(p, name, Climb(p, a, n))
  {
    if n > 0 {
      MirroredClimb(p, g, name, a, n - 1);
    }
  }

  lemma MirrorsCyclicIff(p: Parents, g: Parents, name: map<string, string>)
    requires Mirrors(p, g, name)
    ensures Cyclic(p) <==> Cyclic(g)
  {
    if a, n: nat :| OnCycle(p, a, n) {
      OnCycleListed(p, a, n);
      MirroredClimb(p, g, name, a, n);
      assert OnCycle(g, name[a], n);
    }
    if k, n: nat :| OnCycle(g, k, n) {
      OnCycleListed(g, k, n);
      var a :| a in name && name[a] == k;
      MirroredClimb(p, g, name, a, n);
      assert OnCycle(p, a, n);
    }
  }

  lemma OnCycleListed(p: Parents, k: string, n: nat)
    requires OnCycle(p, k, n)
    ensures Parent(p, k).Some?
  {
    if Parent(p, k).None? {
      assert Climb(p, k, 0) == Some(k) && Climb(p, k, 1) == None;
      NothingAbove(p, k, 1, n - 1);
    }
  }

  // ---- cutting links --------------------------------------------------------------------------

  lemma {:induction false} CutClimb(before: Parents, after: Parents, k: string, n: nat)
    requires forall x :: Parent(after, x) in {None, Parent(before, x)}
    ensures Climb(after, k, n).Some? ==> Climb(before, k, n) == Climb(after, k, n)
  {
    if n > 0 {
      CutClimb(before, after, k, n - 1);
    }
  }

  /** Cutting links closes no circle. */
  lemma CutKeepsAcyclic(before: Parents, after: Parents)
    requires !Cyclic(before) && forall x :: Parent(after, x) in {None, Parent(before, x)}
    ensures !Cyclic(after)
  {
    forall k, n: nat ensures !OnCycle(after, k, n) {
      CutClimb(before, after, k, n);
      assert !OnCycle(before, k, n);
    }
  }
}
