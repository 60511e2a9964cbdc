/** The run table as a forest, and the two recursive walks the budget queries make over it. */
module Hierarchy {
  import opened Wrappers

  type Id = string
  type Instant = int

  datatype RunStatus = Active | Closed

  /**
   * One row of the runs table. `row` is the position at which the row was inserted; the foreign key
   * on parent_run_id makes a parent's position smaller than its children's.
   */
  datatype Run = Run(principal: Id, parent: Option<Id>, budget: nat, status: RunStatus, row: nat)

  type Runs = map<Id, Run>

  ghost predicate Forest(runs: Runs) {
    forall id :: id in runs ==>
      && runs[id].row < |runs|
      && (runs[id].parent.Some? ==> ParentOk(runs, id, runs[id].parent.value))
  }

  ghost predicate ParentOk(runs: Runs, id: Id, parent: Id)
    requires id in runs
  {
    parent in runs && runs[parent].row < runs[id].row && runs[parent].principal == runs[id].principal
  }

  /** The run and its ancestors, nearest first: the upward recursive query, ordered by depth. */
  function Chain(runs: Runs, id: Id): (chain: seq<Id>)
    requires Forest(runs) && id in runs
    ensures |chain| > 0 && chain[0] == id
    ensures forall k :: 0 <= k < |chain| ==> chain[k] in runs && runs[chain[k]].principal == runs[id].principal
    decreases runs[id].row
  {
    match runs[id].parent
    case None => [id]
    case Some(parent) => [id] + Chain(runs, parent)
  }

  /** The run and all its descendants: the downward recursive query. */
  function Subtree(runs: Runs, id: Id): (tree: set<Id>)
    requires Forest(runs) && id in runs
    ensures id in tree
    decreases |runs| - runs[id].row
  {
    {id} + set child, r | child in runs && runs[child].parent == Some(id) && r in Subtree(runs, child) :: r
  }

  lemma ChainStep(runs: Runs, id: Id, parent: Id)
    requires Forest(runs) && id in runs && runs[id].parent == Some(parent)
    ensures parent in runs && Chain(runs, id) == [id] + Chain(runs, parent)
  {
    assert ParentOk(runs, id, parent);
  }

  /** A chain that passes through a run passes through that run's parent. */
  lemma {:induction false} ChainClosedUpward(runs: Runs, id: Id, mid: Id, parent: Id)
    requires Forest(runs) && id in runs && mid in Chain(runs, id) && runs[mid].parent == Some(parent)
    ensures parent in Chain(runs, id)
    decreases runs[id].row
  {
    assert ParentOk(runs, mid, parent);
    if mid == id {
      ChainStep(runs, id, parent);
      assert Chain(runs, id)[1] == parent;
    } else {
      ChainStep(runs, id, runs[id].parent.value);
      ChainClosedUpward(runs, runs[id].parent.value, mid, parent);
    }
  }

  /** A subtree that contains a run contains that run's children. */
  lemma {:induction false} SubtreeClosedDownward(runs: Runs, top: Id, mid: Id, child: Id)
    requires Forest(runs) && top in runs && mid in Subtree(runs, top)
    requires child in runs && runs[child].parent == Some(mid)
    ensures child in Subtree(runs, top)
    decreases |runs| - runs[top].row
  {
    assert ParentOk(runs, child, mid);
    if mid == top {
      assert child in Subtree(runs, child);
    } else {
      var c :| c in runs && runs[c].parent == Some(top) && mid in Subtree(runs, c);
      SubtreeClosedDownward(runs, c, mid, child);
    }
  }

  lemma {:induction false} SubtreeImpliesChain(runs: Runs, top: Id, id: Id)
    requires Forest(runs) && top in runs && id in Subtree(runs, top)
    ensures id in runs && top in Chain(runs, id)
    decreases |runs| - runs[top].row
  {
    if id != top {
      var c :| c in runs && runs[c].parent == Some(top) && id in Subtree(runs, c);
      SubtreeImpliesChain(runs, c, id);
      ChainClosedUpward(runs, id, c, top);
    }
  }

  lemma {:induction false} ChainImpliesSubtree(runs: Runs, top: Id, id: Id)
    requires Forest(runs) && id in runs && top in Chain(runs, id)
    ensures top in runs && id in Subtree(runs, top)
    decreases runs[id].row
  {
    if id != top {
      var parent := runs[id].parent.value;
      ChainStep(runs, id, parent);
      ChainImpliesSubtree(runs, top, parent);
      SubtreeClosedDownward(runs, top, parent, id);
    }
  }

  /** Duality of the two walks: n is on r's upward walk exactly when r is on n's downward walk. */
  lemma WalksAreDual(runs: Runs, top: Id, id: Id)
    requires Forest(runs) && top in runs && id in runs
    ensures id in Subtree(runs, top) <==> top in Chain(runs, id)
  {
    if id in Subtree(runs, top) {
      SubtreeImpliesChain(runs, top, id);
    }
    if top in Chain(runs, id) {
      ChainImpliesSubtree(runs, top, id);
    }
  }

  /** `later` keeps every run of `runs`; only statuses change and rows are added. */
  ghost predicate Extends(runs: Runs, later: Runs) {
    forall id :: id in runs ==>
      && id in later
      && later[id].parent == runs[id].parent && later[id].budget == runs[id].budget
      && later[id].principal == runs[id].principal && later[id].row == runs[id].row
      && (runs[id].status == Closed ==> later[id].status == Closed)
  }

  lemma {:induction false} ChainIsStable(runs: Runs, later: Runs, id: Id)
    requires Forest(runs) && Forest(later) && Extends(runs, later) && id in runs
    ensures Chain(later, id) == Chain(runs, id)
    decreases runs[id].row
  {
    match runs[id].parent
    case None =>
    case Some(parent) =>
      assert ParentOk(runs, id, parent);
      ChainIsStable(runs, later, parent);
  }

  /** An existing run belongs to the same subtrees before and after. */
  lemma SubtreeIsStable(runs: Runs, later: Runs, top: Id, id: Id)
    requires Forest(runs) && Forest(later) && Extends(runs, later) && top in runs && id in runs
    ensures id in Subtree(later, top) <==> id in Subtree(runs, top)
  {
    ChainIsStable(runs, later, id);
    WalksAreDual(runs, top, id);
    WalksAreDual(later, top, id);
  }
}
