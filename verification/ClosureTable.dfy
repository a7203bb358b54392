/** `create_closure_for_entity`: an ancestor index kept by copying the parent's rows. */
module ClosureTable {
  import opened Outcomes
  import opened ParentForest
  import opened LevelOrder

  datatype Row = Row(ancestor: string, descendant: string, depth: nat)

  function RowsOf(rows: seq<Row>, descendant: string): seq<Row> {
    if rows == [] then []
    else
      var last := rows[|rows| - 1];
      RowsOf(rows[..|rows| - 1], descendant) + if last.descendant == descendant then [last] else []
  }

  function Copied(closures: seq<Row>, entity: string): seq<Row> {
    seq(|closures|, i requires 0 <= i < |closures| => Row(closures[i].ancestor, entity, closures[i].depth + 1))
  }

  /** The table after an entity has been added below `parent`, or as a root. */
  function Inserted(rows: seq<Row>, entity: string, parent: Option<string>): seq<Row> {
    var own := rows + [Row(entity, entity, 0)];
    match parent case None => own case Some(p) => own + Copied(RowsOf(own, p), entity)
  }

  class Closures {
    var rows: seq<Row>

    constructor ()
      ensures rows == []
    {
      rows := [];
    }

    method Select(descendant: string) returns (found: seq<Row>)
      ensures found == RowsOf(rows, descendant)
    {
      found := [];
      for i := 0 to |rows|
        invariant found == RowsOf(rows[..i], descendant)
      {
        assert rows[..i + 1][..i] == rows[..i];
        if rows[i].descendant == descendant {
          found := found + [rows[i]];
        }
      }
      assert rows[..|rows|] == rows;
    }

    method CreateClosure(entity: string, parent: Option<string>)
      modifies this
      ensures rows == Inserted(old(rows), entity, parent)
    {
      rows := rows + [Row(entity, entity, 0)];
      if parent.Some? {
        var closures := Select(parent.value);
        ghost var own := rows;
        for i := 0 to |closures|
          invariant rows == own + Copied(closures[..i], entity)
        {
          rows := rows + [Row(closures[i].ancestor, entity, closures[i].depth + 1)];
          assert Copied(closures[..i + 1], entity) == Copied(closures[..i], entity) + [rows[|rows| - 1]];
        }
        assert closures[..|closures|] == closures;
      }
    }
  }

  // ---- what the table means -------------------------------------------------------------------

  /** A row for every climb, and only for climbs. */
  ghost predicate Exact(rows: seq<Row>, parents: Parents) {
    forall a, d, k: nat :: Row(a, d, k) in rows <==> d in parents && Climb(parents, d, k) == Some(a)
  }

  /** No pair has two rows. */
  ghost predicate OncePerPair(rows: seq<Row>) {
    forall i, j | 0 <= i < j < |rows| ::
      (rows[i].ancestor, rows[i].descendant) != (rows[j].ancestor, rows[j].descendant)
  }

  ghost predicate Indexes(rows: seq<Row>, parents: Parents) {
    Closed(parents) && Exact(rows, parents) && OncePerPair(rows)
  }

  lemma {:induction false} ClimbStays(parents: Parents, d: string, k: nat)
    requires Closed(parents) && d in parents
    ensures Climb(parents, d, k).Some? ==> Climb(parents, d, k).value in parents
  {
    if k > 0 {
      ClimbStays(parents, d, k - 1);
    }
  }

  lemma {:induction false} OldClimbs(parents: Parents, entity: string, parent: Option<string>, d: string, k: nat)
    requires Closed(parents) && d in parents && entity !in parents
    ensures Climb(parents[entity := parent], d, k) == Climb(parents, d, k)
  {
    if k > 0 {
      OldClimbs(parents, entity, parent, d, k - 1);
      ClimbStays(parents, d, k - 1);
    }
  }

  lemma NewClimbs(parents: Parents, entity: string, parent: Option<string>, k: nat)
    requires Closed(parents) && entity !in parents && (parent.Some? ==> parent.value in parents)
    ensures Climb(parents[entity := parent], entity, k) ==
      if k == 0 then Some(entity) else if parent.None? then None else Climb(parents, parent.value, k - 1)
  {
    var after := parents[entity := parent];
    assert Climb(after, entity, 0) == Some(entity);
    if parent.Some? && k > 0 {
      assert Climb(after, entity, 1) == parent;
      ClimbAdd(after, entity, 1, parent.value, k - 1);
      OldClimbs(parents, entity, parent, parent.value, k - 1);
    }
    if parent.None? && k > 0 {
      NoClimb(after, entity, k);
    }
  }

  lemma {:induction false} NoClimb(p: Parents, k: string, n: nat)
    requires Parent(p, k) == None && n > 0
    ensures Climb(p, k, n) == None
  {
    if n == 1 {
      assert Climb(p, k, 0) == Some(k);
    } else {
      NoClimb(p, k, n - 1);
    }
  }

  lemma {:induction false} RowsOfAre(rows: seq<Row>, descendant: string)
    ensures forall r :: r in RowsOf(rows, descendant) <==> r in rows && r.descendant == descendant
    ensures OncePerPair(rows) ==> OncePerPair(RowsOf(rows, descendant))
  {
    if rows != [] {
      var n := |rows| - 1;
      RowsOfAre(rows[..n], descendant);
      assert rows == rows[..n] + [rows[n]];
      if OncePerPair(rows) {
        var found := RowsOf(rows[..n], descendant);
        forall i | 0 <= i < |found| && rows[n].descendant == descendant ensures found[i].ancestor != rows[n].ancestor {
          assert found[i] in found;
        }
      }
    }
  }

  lemma CopiedRows(closures: seq<Row>, entity: string, a: string, d: string, k: nat)
    ensures Row(a, d, k) in Copied(closures, entity) <==>
      d == entity && k > 0 && exists c :: c in closures && c.ancestor == a && c.depth == k - 1
  {
    var copies := Copied(closures, entity);
    if Row(a, d, k) in copies {
      var i :| 0 <= i < |copies| && copies[i] == Row(a, d, k);
      assert closures[i] in closures;
    }
    if c :| d == entity && k > 0 && c in closures && c.ancestor == a && c.depth == k - 1 {
      var i :| 0 <= i < |closures| && closures[i] == c;
      assert copies[i] == Row(a, d, k);
    }
  }

  lemma ParentRows(rows: seq<Row>, parents: Parents, entity: string, p: string)
    requires Indexes(rows, parents) && entity !in parents && p in parents
    ensures var own := rows + [Row(entity, entity, 0)];
      && RowsOf(own, p) == RowsOf(rows, p)
      && OncePerPair(RowsOf(rows, p))
      && (forall c | c in RowsOf(rows, p) :: c.descendant == p && c.ancestor in parents)
      && (forall a, k: nat :: Row(a, p, k) in RowsOf(rows, p) <==> Climb(parents, p, k) == Some(a))
  {
    var own := rows + [Row(entity, entity, 0)];
    assert own[..|own| - 1] == rows;
    RowsOfAre(rows, p);
    forall c | c in RowsOf(rows, p) ensures c.descendant == p && c.ancestor in parents {
      assert Row(c.ancestor, c.descendant, c.depth) in rows;
      ClimbStays(parents, p, c.depth);
    }
  }

  lemma InsertedExact(rows: seq<Row>, parents: Parents, entity: string, parent: Option<string>, a: string, d: string,
                      k: nat)
    requires Indexes(rows, parents) && entity !in parents && (parent.Some? ==> parent.value in parents)
    ensures var after := parents[entity := parent];
      Row(a, d, k) in Inserted(rows, entity, parent) <==> d in after && Climb(after, d, k) == Some(a)
  {
    NewClimbs(parents, entity, parent, k);
    if d in parents {
      OldClimbs(parents, entity, parent, d, k);
    }
    if parent.Some? {
      var p := parent.value;
      var closures := RowsOf(rows, p);
      ParentRows(rows, parents, entity, p);
      CopiedRows(closures, entity, a, d, k);
      if k > 0 && Climb(parents, p, k - 1) == Some(a) {
        assert Row(a, p, k - 1) in closures;
      }
      if c :| c in closures && c.ancestor == a && c.depth == k - 1 {
        assert Row(a, p, k - 1) in closures;
      }
    }
  }

  lemma CopiedOnce(closures: seq<Row>, parents: Parents, entity: string, p: string)
    requires OncePerPair(closures) && entity !in parents && forall c | c in closures ::
      c.descendant == p && c.ancestor in parents
    ensures OncePerPair(Copied(closures, entity))
    ensures forall i | 0 <= i < |closures| ::
      Copied(closures, entity)[i].ancestor != entity && Copied(closures, entity)[i].descendant == entity
  {
    assert forall i | 0 <= i < |closures| :: closures[i] in closures;
  }

  lemma OwnRow(rows: seq<Row>, parents: Parents, entity: string)
    requires Indexes(rows, parents) && entity !in parents
    ensures OncePerPair(rows + [Row(entity, entity, 0)]) && forall i | 0 <= i < |rows| :: rows[i].descendant != entity
  {
    forall i | 0 <= i < |rows| ensures rows[i].descendant != entity {
      assert Row(rows[i].ancestor, rows[i].descendant, rows[i].depth) in rows;
    }
  }

  /** Adding an entity below an existing one, or as a root, keeps the index exact, one row for each related pair. */
  lemma InsertKeepsIndex(rows: seq<Row>, parents: Parents, entity: string, parent: Option<string>)
    requires Indexes(rows, parents) && entity !in parents && (parent.Some? ==> parent.value in parents)
    ensures Indexes(Inserted(rows, entity, parent), parents[entity := parent])
  {
    var after := Inserted(rows, entity, parent);
    forall a, d, k: nat ensures Row(a, d, k) in after <==>
      d in parents[entity := parent] && Climb(parents[entity := parent], d, k) == Some(a)
    {
      InsertedExact(rows, parents, entity, parent, a, d, k);
    }
    OwnRow(rows, parents, entity);
    if parent.Some? {
      ParentRows(rows, parents, entity, parent.value);
      CopiedOnce(RowsOf(rows, parent.value), parents, entity, parent.value);
    }
  }

  // ---- whole histories ------------------------------------------------------------------------

  type Insertion = (string, Option<string>)

  function ParentsAfter(history: seq<Insertion>): Parents {
    if history == [] then map[]
    else ParentsAfter(history[..|history| - 1])[history[|history| - 1].0 := history[|history| - 1].1]
  }

  function RowsAfter(history: seq<Insertion>): seq<Row> {
    if history == [] then []
    else Inserted(RowsAfter(history[..|history| - 1]), history[|history| - 1].0, history[|history| - 1].1)
  }

  /** Every entity is new when it is added, and its parent, if it has one, was added before. */
  ghost predicate Proper(history: seq<Insertion>) {
    forall i | 0 <= i < |history| ::
      && history[i].0 !in ParentsAfter(history[..i])
      && (history[i].1.Some? ==> history[i].1.value in ParentsAfter(history[..i]))
  }

  /** After any proper history a row (a, d, k) exists exactly when k parent links lead from d to a, and no pair has
      two. */
  lemma {:induction false} ClosureIsReachability(history: seq<Insertion>)
    requires Proper(history)
    ensures Exact(RowsAfter(history), ParentsAfter(history)) && OncePerPair(RowsAfter(history))
    ensures Closed(ParentsAfter(history))
  {
    if history != [] {
      var n := |history| - 1;
      var front := history[..n];
      assert forall i | 0 <= i < n :: front[i] == history[i] && front[..i] == history[..i];
      ClosureIsReachability(front);
      InsertKeepsIndex(RowsAfter(front), ParentsAfter(front), history[n].0, history[n].1);
    }
  }

  /** So parents never run in a circle, and the recorded depth of a pair is the only distance between the two. */
  lemma PairDistanceUnique(history: seq<Insertion>, a: string, d: string, k: nat, l: nat)
    requires Proper(history) && d in ParentsAfter(history)
    requires Climb(ParentsAfter(history), d, k) == Some(a) && Climb(ParentsAfter(history), d, l) == Some(a)
    ensures k == l
  {
    ClosureIsReachability(history);
    var rows := RowsAfter(history);
    assert Row(a, d, k) in rows && Row(a, d, l) in rows;
    var i :| 0 <= i < |rows| && rows[i] == Row(a, d, k);
    var j :| 0 <= j < |rows| && rows[j] == Row(a, d, l);
    assert i == j;
  }

  /** The loop of insertions over one table. */
  method BuildClosures(history: seq<Insertion>) returns (table: Closures)
    ensures fresh(table) && table.rows == RowsAfter(history)
  {
    table := new Closures();
    for i := 0 to |history|
      invariant table.rows == RowsAfter(history[..i])
    {
      assert history[..i + 1][..i] == history[..i];
      table.CreateClosure(history[i].0, history[i].1);
    }
    assert history[..|history|] == history;
  }
}
