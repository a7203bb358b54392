/** `entity_depth`: how far an entity lies below its root in the snapshot, safe on circular data. */
module DeleteDepth {
  import opened Outcomes
  import opened JsonValues
  import opened Indexing
  import opened ParentForest

  function ParentText(row: Dict): Option<string> {
    var parent := Get(row, "parent_entity_id");
    if Truthy(parent) then Some(PyStr(parent)) else None
  }

  function IdText(row: Dict): Option<string> {
    Some(PyStr(Get(row, "id")))
  }

  /** `parent_by_id`. */
  function LinksOf(rows: seq<Dict>): Parents {
    var byId := IndexBy(IdText, rows);
    map id | id in byId :: ParentText(byId[id])
  }

  /** The links still to follow once `visited` has been passed. */
  function DepthFrom(p: Parents, start: Option<string>, visited: set<string>): nat
    decreases p.Keys - visited, if start.Some? then 1 else 0
  {
    match start
    case None => 0
    case Some(q) => if q in visited then 0 else 1 + DepthFrom(p, Parent(p, q), visited + {q})
  }

  function DepthOf(p: Parents, before: Option<Dict>): nat {
    match before case None => 0 case Some(row) => DepthFrom(p, ParentText(row), {})
  }

  /** The loop of the source; it ends because an unvisited id with a parent is a key of `p`. */
  method EntityDepth(p: Parents, before: Option<Dict>) returns (depth: nat)
    ensures depth == DepthOf(p, before)
  {
    var parent := match before case None => None case Some(row) => ParentText(row);
    depth := 0;
    var visited: set<string> := {};
    while parent.Some? && parent.value !in visited
      invariant DepthOf(p, before) == depth + DepthFrom(p, parent, visited)
      decreases p.Keys - visited, if parent.Some? then 1 else 0
    {
      visited := visited + {parent.value};
      depth := depth + 1;
      parent := Parent(p, parent.value);
    }
  }

  /** From a node with `n` ancestors, none of the visited ones among them, `n + 1` links are counted. */
  lemma {:induction false} DepthOfRooted(p: Parents, q: string, n: nat, visited: set<string>)
    requires HasDepth(p, q, n)
    requires forall v, m: nat | v in visited && HasDepth(p, v, m) :: m > n
    ensures DepthFrom(p, Some(q), visited) == n + 1
    decreases n
  {
    if n > 0 {
      forall v, m: nat | v in visited + {q} && HasDepth(p, v, m) ensures m > n - 1 {
        if v == q {
          DepthUnique(p, q, m, n);
        }
      }
      DepthOfRooted(p, Parent(p, q).value, n - 1, visited + {q});
    }
  }

  /** On links without a circle the counted depth is the number of ancestors. */
  lemma DepthIsAncestorCount(p: Parents, id: string, n: nat)
    requires id in p && HasDepth(p, id, n)
    ensures DepthFrom(p, p[id], {}) == n
  {
    if n > 0 {
      DepthOfRooted(p, p[id].value, n - 1, {});
    }
  }

  /** Hence it strictly grows along every chain of parents. */
  lemma DescendantIsDeeper(p: Parents, id: string, k: nat, ancestor: string)
    requires !Cyclic(p) && id in p && ancestor in p && k > 0 && Climb(p, id, k) == Some(ancestor)
    ensures DepthFrom(p, p[id], {}) == DepthFrom(p, p[ancestor], {}) + k
  {
    AcyclicIffRooted(p);
    assert Rooted(p, id);
    var n: nat :| HasDepth(p, id, n);
    DepthAfterClimb(p, id, n, k);
    DepthIsAncestorCount(p, id, n);
    DepthIsAncestorCount(p, ancestor, n - k);
  }
}
