/** Replacement lineages: src/store/childLineage.ts and replacementRootRunId of
    src/store/receipts.ts. */
module Lineage {
  import opened Prelude
  import opened RunStates
  import opened Tables
  import opened Kernel
  import opened Admissions
  import opened Children
  import opened RowInvariants

  /** A replacement stands one generation above the failed run it replaces and
      inherits exactly that run's unspent budget. */
  ghost predicate ReplacementOk(cfg: Config, runs: seq<Run>, r: RunId)
    requires r < |runs|
  {
    match runs[r].predecessor
    case None => runs[r].generation == 0
    case Some(p) =>
      && p < r
      && runs[r].parent.Some? && runs[r].parent == runs[p].parent
      && runs[r].tenant == runs[p].tenant
      && runs[r].generation == runs[p].generation + 1 <= cfg.maxChildReplacements
      && runs[p].status == Failed
      && (runs[p].tokenBudget.Some? ==>
            runs[p].tokensUsed <= runs[p].tokenBudget.value
            && runs[r].tokenBudget == Some(runs[p].tokenBudget.value - runs[p].tokensUsed))
  }

  ghost predicate LineageOk(db: Db)
  {
    && (forall r :: 0 <= r < |db.runs| ==> ReplacementOk(db.cfg, db.runs, r))
    && (forall q, r :: 0 <= q < r < |db.runs| && db.runs[q].predecessor.Some? ==>
          db.runs[q].predecessor != db.runs[r].predecessor)
  }

  /** The first run of a replacement lineage. */
  function RootOf(runs: seq<Run>, r: RunId): (root: RunId)
    requires r < |runs|
    ensures root <= r
    decreases r
  {
    if runs[r].predecessor.Some? && runs[r].predecessor.value < r
    then RootOf(runs, runs[r].predecessor.value)
    else r
  }

  /** Tokens spent by a run and everything it replaced. */
  function ChainSpent(runs: seq<Run>, r: RunId): nat
    requires r < |runs|
    decreases r
  {
    runs[r].tokensUsed
    + (if runs[r].predecessor.Some? && runs[r].predecessor.value < r
       then ChainSpent(runs, runs[r].predecessor.value) else 0)
  }

  // -------------------------------------------------------------- preservation

  /** Row updates keep lineages when identity columns stay and failed rows are frozen. */
  lemma LineageRow(db: Db, db': Db, r: RunId)
    requires LineageOk(db) && r < |db.runs|
    requires db'.cfg == db.cfg
    requires |db'.runs| == |db.runs| && db'.runs == db.runs[r := db'.runs[r]]
    requires SameIdentity(db.runs[r], db'.runs[r])
    requires db.runs[r].status == Failed ==>
               db'.runs[r].status == Failed && db'.runs[r].tokensUsed == db.runs[r].tokensUsed
    ensures LineageOk(db')
  {
    forall q | 0 <= q < |db'.runs|
      ensures ReplacementOk(db'.cfg, db'.runs, q)
    {
      assert ReplacementOk(db.cfg, db.runs, q);
    }
  }

  lemma LineageNewRun(db: Db, db': Db)
    requires LineageOk(db) && db'.cfg == db.cfg
    requires |db'.runs| == |db.runs| + 1 && db'.runs[..|db.runs|] == db.runs
    requires ReplacementOk(db'.cfg, db'.runs, |db.runs|)
    requires db'.runs[|db.runs|].predecessor.Some? ==> !Superseded(db, db'.runs[|db.runs|].predecessor.value)
    ensures LineageOk(db')
  {
    var n := |db.runs|;
    assert forall i :: 0 <= i < n ==> db'.runs[i] == db'.runs[..n][i] == db.runs[i];
    forall q | 0 <= q < |db'.runs|
      ensures ReplacementOk(db'.cfg, db'.runs, q)
    {
      if q < n {
        assert ReplacementOk(db.cfg, db.runs, q);
      }
    }
  }

  // ------------------------------------------------------------------ theorems

  /** A run's root is an original: it replaces nothing and has generation 0. */
  lemma {:induction false} RootIsOriginal(db: Db, r: RunId)
    requires LineageOk(db) && r < |db.runs|
    ensures db.runs[RootOf(db.runs, r)].predecessor.None?
    ensures db.runs[RootOf(db.runs, r)].parent == db.runs[r].parent
    ensures RootOf(db.runs, RootOf(db.runs, r)) == RootOf(db.runs, r)
    decreases r
  {
    assert ReplacementOk(db.cfg, db.runs, r);
    if db.runs[r].predecessor.Some? {
      RootIsOriginal(db, db.runs[r].predecessor.value);
    }
  }

  /** Steps from a run back to its root. */
  function Distance(runs: seq<Run>, r: RunId): nat
    requires r < |runs|
    decreases r
  {
    if runs[r].predecessor.Some? && runs[r].predecessor.value < r
    then 1 + Distance(runs, runs[r].predecessor.value)
    else 0
  }

  /** The generation is the distance from the root, so a lineage has at most
      maxChildReplacements + 1 runs. */
  lemma {:induction false} GenerationIsDistance(db: Db, r: RunId)
    requires LineageOk(db) && r < |db.runs|
    ensures db.runs[r].generation == Distance(db.runs, r) <= db.cfg.maxChildReplacements
    decreases r
  {
    assert ReplacementOk(db.cfg, db.runs, r);
    if db.runs[r].predecessor.Some? {
      GenerationIsDistance(db, db.runs[r].predecessor.value);
    }
  }

  /** Inherited budgets conserve the first child's: what remains plus what was spent before is constant. */
  lemma {:induction false} BudgetConserved(db: Db, r: RunId)
    requires LineageOk(db) && r < |db.runs|
    requires db.runs[RootOf(db.runs, r)].tokenBudget.Some?
    ensures db.runs[r].tokenBudget.Some?
    ensures db.runs[r].tokenBudget.value + ChainSpent(db.runs, r) - db.runs[r].tokensUsed
            == db.runs[RootOf(db.runs, r)].tokenBudget.value
    decreases r
  {
    assert ReplacementOk(db.cfg, db.runs, r);
    if db.runs[r].predecessor.Some? {
      BudgetConserved(db, db.runs[r].predecessor.value);
    }
  }

  /** Total tokens spent along a lineage stay within the first run's budget. */
  lemma ChainWithinBudget(db: Db, r: RunId)
    requires LineageOk(db) && r < |db.runs| && WithinBudget(db.runs[r])
    requires db.runs[RootOf(db.runs, r)].tokenBudget.Some?
    ensures ChainSpent(db.runs, r) <= db.runs[RootOf(db.runs, r)].tokenBudget.value
  {
    BudgetConserved(db, r);
  }

  /** Lineages are chains: of two runs with one root, the older has been replaced. */
  lemma {:induction false} OlderIsSuperseded(db: Db, q: RunId, r: RunId)
    requires LineageOk(db) && q < r < |db.runs|
    requires RootOf(db.runs, q) == RootOf(db.runs, r)
    ensures Superseded(db, q)
    ensures db.runs[q].status == Failed
    ensures db.runs[q].generation < db.runs[r].generation
    decreases r
  {
    assert ReplacementOk(db.cfg, db.runs, r);
    assert db.runs[r].predecessor.Some?;
    var p := db.runs[r].predecessor.value;
    if p < q {
      OlderIsSuperseded(db, p, q);
      SameChild(db, p, q, r);
    } else if q < p {
      OlderIsSuperseded(db, q, p);
    }
  }

  /** A run replaced by r has no other descendants older than r. */
  lemma {:induction false} SameChild(db: Db, p: RunId, q: RunId, r: RunId)
    requires LineageOk(db) && p < q < r < |db.runs|
    requires db.runs[r].predecessor == Some(p)
    requires RootOf(db.runs, p) == RootOf(db.runs, q)
    ensures false
    decreases q
  {
    assert ReplacementOk(db.cfg, db.runs, q);
    RootIsOriginal(db, p);
    assert db.runs[q].predecessor.Some?;
    var o := db.runs[q].predecessor.value;
    assert o != p;
    if p < o {
      SameChild(db, p, o, r);
    } else {
      OlderIsSuperseded(db, o, p);
      SameChild(db, o, p, q);
    }
  }

  /** A live run is the newest of its lineage. */
  lemma LiveIsNewest(db: Db, q: RunId, r: RunId)
    requires LineageOk(db) && q < |db.runs| && r < |db.runs|
    requires RootOf(db.runs, q) == RootOf(db.runs, r)
    requires !IsTerminal(db.runs[r].status)
    ensures q <= r
  {
    if r < q {
      OlderIsSuperseded(db, r, q);
    }
  }

  /** The run that currently stands for the subtask first given to c. */
  lemma {:induction false} TipExists(db: Db, c: RunId) returns (tip: RunId)
    requires LineageOk(db) && c < |db.runs|
    ensures c <= tip < |db.runs| && !Superseded(db, tip)
    ensures RootOf(db.runs, tip) == RootOf(db.runs, c) && db.runs[tip].parent == db.runs[c].parent
    decreases |db.runs| - c
  {
    if Superseded(db, c) {
      var r :| 0 <= r < |db.runs| && db.runs[r].predecessor == Some(c);
      assert ReplacementOk(db.cfg, db.runs, r);
      tip := TipExists(db, r);
    } else {
      tip := c;
    }
  }

  /** Child s is selected for the subtask first given to c. */
  ghost predicate StandsFor(db: Db, parent: RunId, s: RunId, c: RunId)
  {
    IsChild(db, parent, s) && !Superseded(db, s) && RootOf(db.runs, s) == c
  }

  /** Exactly one selected child per originally spawned subtask. */
  lemma SelectedOncePerSubtask(db: Db, parent: RunId, c: RunId)
    requires LineageOk(db)
    requires IsChild(db, parent, c) && db.runs[c].predecessor.None?
    ensures exists s :: StandsFor(db, parent, s, c)
    ensures forall s, t :: StandsFor(db, parent, s, c) && StandsFor(db, parent, t, c) ==> s == t
  {
    var tip := TipExists(db, c);
    assert StandsFor(db, parent, tip, c);
    forall s, t | StandsFor(db, parent, s, c) && StandsFor(db, parent, t, c)
      ensures s == t
    {
      if s < t {
        OlderIsSuperseded(db, s, t);
      } else if t < s {
        OlderIsSuperseded(db, t, s);
      }
    }
  }

  // --------------------------------------------------------- the projection

  datatype LineageError = Cycle(at: RunId) | PredecessorMissing(at: RunId)

  datatype ChildResult = ChildResult(run: RunId, root: RunId, selected: bool)

  /** The rows of one parent's children, as the projection reads them. */
  ghost predicate ReadsChildren(rows: map<RunId, Option<RunId>>, db: Db)
  {
    && (forall c :: c in rows ==> c < |db.runs| && rows[c] == db.runs[c].predecessor)
    && (forall c :: c in rows && rows[c].Some? ==> rows[c].value in rows)
  }

  /** Walk back from a row to its lineage's root, guarding against cycles and gaps. On
      sound lineages neither guard fires. */
  method WalkToRoot(rows: map<RunId, Option<RunId>>, row: RunId, ghost db: Db)
    returns (root: Result<RunId, LineageError>)
    requires row in rows
    ensures root.Ok? ==> root.value in rows && rows[root.value].None?
    ensures LineageOk(db) && ReadsChildren(rows, db) ==> root == Ok(RootOf(db.runs, row))
  {
    ghost var sound := LineageOk(db) && ReadsChildren(rows, db);
    var cursor := row;
    var visited: set<RunId> := {};
    while rows[cursor].Some?
      invariant cursor in rows && visited <= rows.Keys
      invariant sound ==> cursor <= row && forall v :: v in visited ==> cursor < v
      invariant sound ==> RootOf(db.runs, cursor) == RootOf(db.runs, row)
      decreases rows.Keys - visited
    {
      if cursor in visited {
        return Err(Cycle(cursor));
      }
      visited := visited + {cursor};
      assert sound ==> ReplacementOk(db.cfg, db.runs, cursor);
      if rows[cursor].value !in rows {
        return Err(PredecessorMissing(cursor));
      }
      cursor := rows[cursor].value;
    }
    return Ok(cursor);
  }

  /** Exactly the parent's children, each with its predecessor. */
  ghost predicate ChildRows(db: Db, parent: RunId, rows: map<RunId, Option<RunId>>)
  {
    && (forall q: nat :: q in rows <==> IsChild(db, parent, q))
    && (forall q: nat :: q in rows ==> q < |db.runs| && rows[q] == db.runs[q].predecessor)
  }

  /** What a correct projection of the first n runs looks like, when lineages are sound. */
  ghost predicate Projected(db: Db, parent: RunId, out: seq<ChildResult>, n: nat)
  {
    LineageOk(db) ==> ProjectionSound(db, parent, out) && ProjectionCovers(db, parent, out, n)
  }

  ghost predicate ProjectionSound(db: Db, parent: RunId, out: seq<ChildResult>)
  {
    forall k :: 0 <= k < |out| ==>
      && IsChild(db, parent, out[k].run)
      && out[k].root == RootOf(db.runs, out[k].run)
      && (out[k].selected <==> !Superseded(db, out[k].run))
  }

  ghost predicate ProjectionCovers(db: Db, parent: RunId, out: seq<ChildResult>, n: nat)
  {
    forall c :: 0 <= c < n && IsChild(db, parent, c) ==> exists k :: 0 <= k < |out| && out[k].run == c
  }

  /** The children of a parent keyed by id, and the ids some child replaces. */
  method ReadChildren(db: Db, parent: RunId) returns (rows: map<RunId, Option<RunId>>, superseded: set<RunId>)
    ensures ChildRows(db, parent, rows)
    ensures forall p :: p in superseded <==> exists q :: q in rows && rows[q] == Some(p)
  {
    rows, superseded := map[], {};
    for c := 0 to |db.runs|
      invariant forall q :: q in rows <==> 0 <= q < c && db.runs[q].parent == Some(parent)
      invariant forall q :: q in rows ==> rows[q] == db.runs[q].predecessor
      invariant forall p :: p in superseded ==> exists q :: q in rows && rows[q] == Some(p)
      invariant forall q :: q in rows && rows[q].Some? ==> rows[q].value in superseded
    {
      if db.runs[c].parent == Some(parent) {
        ghost var before := rows;
        rows := rows[c := db.runs[c].predecessor];
        if db.runs[c].predecessor.Some? {
          superseded := superseded + {db.runs[c].predecessor.value};
        }
        forall p | p in superseded
          ensures exists q :: q in rows && rows[q] == Some(p)
        {
          if rows[c] != Some(p) {
            var q :| q in before && before[q] == Some(p);
            assert rows[q] == Some(p);
          }
        }
      }
    }
  }

  /** The child lineage projection: every child of the parent with its root and whether it
      is selected. */
  method ProjectChildren(db: Db, parent: RunId) returns (children: Result<seq<ChildResult>, LineageError>)
    ensures LineageOk(db) ==>
              && children.Ok?
              && ProjectionSound(db, parent, children.value)
              && ProjectionCovers(db, parent, children.value, |db.runs|)
  {
    var rows, superseded := ReadChildren(db, parent);
    var out: seq<ChildResult> := [];
    for c := 0 to |db.runs|
      invariant Projected(db, parent, out, c)
    {
      if c in rows {
        var root := WalkToRoot(rows, c, db);
        ChildrenReadSoundly(db, parent, rows);
        if root.Err? {
          return Err(root.error);
        }
        var row := ChildResult(c, root.value, c !in superseded);
        ProjectionStep(db, parent, rows, superseded, out, row);
        out := out + [row];
      } else {
        assert !IsChild(db, parent, c);
      }
    }
    return Ok(out);
  }

  lemma ChildrenReadSoundly(db: Db, parent: RunId, rows: map<RunId, Option<RunId>>)
    requires ChildRows(db, parent, rows)
    ensures LineageOk(db) ==> ReadsChildren(rows, db)
  {
    if LineageOk(db) {
      forall c | c in rows && rows[c].Some?
        ensures rows[c].value in rows
      {
        assert ReplacementOk(db.cfg, db.runs, c);
      }
    }
  }

  lemma ProjectionStep(db: Db, parent: RunId, rows: map<RunId, Option<RunId>>, superseded: set<RunId>,
                       out: seq<ChildResult>, row: ChildResult)
    requires ChildRows(db, parent, rows) && row.run in rows
    requires forall p :: p in superseded <==> exists q :: q in rows && rows[q] == Some(p)
    requires Projected(db, parent, out, row.run)
    requires LineageOk(db) ==> row.root == RootOf(db.runs, row.run)
    requires row.selected <==> row.run !in superseded
    ensures Projected(db, parent, out + [row], row.run + 1)
  {
    if LineageOk(db) {
      SupersededIsSibling(db, parent, row.run);
      assert row.run in superseded <==> Superseded(db, row.run) by {
        if Superseded(db, row.run) {
          var q :| 0 <= q < |db.runs| && db.runs[q].parent == Some(parent) && db.runs[q].predecessor == Some(row.run);
          assert q in rows && rows[q] == Some(row.run);
        }
      }
      ProjectionGrows(db, parent, out, row.run, row);
    }
  }

  lemma ProjectionGrows(db: Db, parent: RunId, out: seq<ChildResult>, c: RunId, row: ChildResult)
    requires ProjectionSound(db, parent, out) && ProjectionCovers(db, parent, out, c)
    requires IsChild(db, parent, c) && row.run == c && row.root == RootOf(db.runs, c)
    requires row.selected <==> !Superseded(db, c)
    ensures ProjectionSound(db, parent, out + [row]) && ProjectionCovers(db, parent, out + [row], c + 1)
  {
    forall q | 0 <= q < c + 1 && IsChild(db, parent, q)
      ensures exists k :: 0 <= k < |out + [row]| && (out + [row])[k].run == q
    {
      if q == c {
        assert (out + [row])[|out|].run == q;
      } else {
        var k :| 0 <= k < |out| && out[k].run == q;
        assert (out + [row])[k].run == q;
      }
    }
  }

  /** Only a sibling can replace a child. */
  lemma SupersededIsSibling(db: Db, parent: RunId, c: RunId)
    requires LineageOk(db) && IsChild(db, parent, c)
    ensures Superseded(db, c) <==>
            exists q :: 0 <= q < |db.runs| && db.runs[q].parent == Some(parent) && db.runs[q].predecessor == Some(c)
  {
    if Superseded(db, c) {
      var q :| 0 <= q < |db.runs| && db.runs[q].predecessor == Some(c);
      assert ReplacementOk(db.cfg, db.runs, q);
    }
  }
}
