/**
 When a task's delegated children count as finished, and what a revision anywhere below
 undoes (src/delegation.rs `child_completion` and `invalidate_acceptance`; the acceptance
 rows are written by src/federation.rs `integrate_child` and `child_verified`).
 */
module Acceptance {
  import opened Options
  import opened TaskTree
  import opened Delegation

  /** (parent, child) to the parent context version the child was accepted at. */
  type Rows = map<(nat, nat), nat>

  datatype Board = Board(nodes: seq<Node>, versions: seq<nat>, status: seq<Status>, rows: Rows)

  predicate Fits(b: Board) {
    |b.versions| == |b.status| == |b.nodes|
  }

  /** Acceptance is recorded only for real children. */
  ghost predicate KeysReal(b: Board) {
    forall e :: e in b.rows ==> e.1 < |b.nodes| && b.nodes[e.1].parent == Some(e.0)
  }

  ghost function Children(nodes: seq<Node>, p: nat): set<nat> {
    set k | 0 <= k < |nodes| && nodes[k].parent == Some(p)
  }

  /** Every child succeeded and is accepted at the parent's current version. */
  ghost predicate AllAccepted(b: Board, p: nat)
    requires Fits(b) && p < |b.nodes|
  {
    forall k :: 0 <= k < |b.nodes| && b.nodes[k].parent == Some(p) ==>
      b.status[k].Succeeded? && (p, k) in b.rows && b.rows[(p, k)] == b.versions[p]
  }

  // ---------------------------------------------------------------- counting is enough

  ghost function AcceptedRows(rows: Rows, p: nat, version: nat): set<(nat, nat)> {
    set e | e in rows && e.0 == p && rows[e] == version
  }

  lemma {:induction false} PairCount(p: nat, keys: set<nat>, pairs: set<(nat, nat)>)
    requires forall e :: e in pairs <==> e.0 == p && e.1 in keys
    ensures |pairs| == |keys|
    decreases keys
  {
    if keys == {} {
      assert pairs == {};
    } else {
      var k :| k in keys;
      PairCount(p, keys - {k}, pairs - {(p, k)});
    }
  }

  lemma MissingOneIsFewer(a: set<nat>, b: set<nat>, k: nat)
    requires a <= b && k in b && k !in a
    ensures |a| < |b|
  {
    assert b == a + (b - a);
    assert k in b - a;
  }

  /** Comparing two counts decides whether every child is accepted, because the accepted
      rows are among the children. */
  lemma CountsDecide(b: Board, p: nat)
    requires Fits(b) && p < |b.nodes| && KeysReal(b)
    ensures |AcceptedRows(b.rows, p, b.versions[p])| == |Children(b.nodes, p)| <==>
            forall k :: k in Children(b.nodes, p) ==> (p, k) in b.rows && b.rows[(p, k)] == b.versions[p]
  {
    var pairs := AcceptedRows(b.rows, p, b.versions[p]);
    var accepted := set k | k in Children(b.nodes, p) && (p, k) in pairs;
    forall e ensures e in pairs <==> e.0 == p && e.1 in accepted {}
    PairCount(p, accepted, pairs);
    assert accepted <= Children(b.nodes, p);
    if forall k :: k in Children(b.nodes, p) ==> (p, k) in b.rows && b.rows[(p, k)] == b.versions[p] {
      assert accepted == Children(b.nodes, p);
    } else {
      var k :| k in Children(b.nodes, p) && !((p, k) in b.rows && b.rows[(p, k)] == b.versions[p]);
      MissingOneIsFewer(accepted, Children(b.nodes, p), k);
    }
  }

  // ---------------------------------------------------------------- invalidation

  ghost predicate OnChain(nodes: seq<Node>, a: nat, task: nat) {
    a == task || Above(nodes, a, task)
  }

  /** What a revision of `task` leaves: nobody on the way up is accepted or succeeded. */
  ghost predicate Invalidated(b: Board, task: nat, after: Board)
    requires Fits(b)
  {
    && after.nodes == b.nodes && after.versions == b.versions && |after.status| == |b.status|
    && (forall e :: e in after.rows <==> e in b.rows && !OnChain(b.nodes, e.1, task))
    && (forall e :: e in after.rows ==> after.rows[e] == b.rows[e])
    && (forall k :: 0 <= k < |b.status| ==>
          after.status[k] == if OnChain(b.nodes, k, task) && b.status[k].Succeeded? then Running else b.status[k])
  }

  /**
   No ancestor-or-self is succeeded after a revision, and no strict ancestor is complete.
   The second part survives the revised task being marked succeeded again, as importing a
   foreign child does, because the acceptance rows are gone.
   */
  lemma RevisionReopensAncestors(b: Board, task: nat, after: Board, a: nat, again: seq<Status>)
    requires Fits(b) && Rooted(b.nodes) && task < |b.nodes| && Invalidated(b, task, after)
    requires OnChain(b.nodes, a, task)
    requires |again| == |after.status|
    ensures a < |b.nodes| && !after.status[a].Succeeded?
    ensures a != task ==> !AllAccepted(after, a) && !AllAccepted(after.(status := again), a)
  {
    if a != task {
      AboveIsOlder(b.nodes, a, task);
      BranchIsOnTheWay(b.nodes, task, a);
      var branch := Branch(b.nodes, task, a).value;
      assert (a, branch) !in after.rows;
    }
  }

  // ---------------------------------------------------------------- runs

  datatype Action =
    | Adopt(node: Node)
    | Accept(parent: nat, child: nat, version: nat)
    | Revise(task: nat)
    | Report(task: nat, status: Status)
    | Bump(root: nat)

  ghost predicate Step(b: Board, a: Action, after: Board)
    requires Fits(b)
  {
    Fits(after) &&
    match a
    case Adopt(node) =>
      && node.parent.Some? && node.parent.value < |b.nodes|
      && after == Board(b.nodes + [node], b.versions + [b.versions[node.parent.value]], b.status + [Running], b.rows)
    case Accept(p, c, version) =>
      if c < |b.nodes| && b.nodes[c].parent == Some(p) && b.status[c].Succeeded?
         && p < |b.nodes| && b.versions[p] == version
      then after == b.(rows := b.rows[(p, c) := version])
      else after == b
    case Revise(task) => task < |b.nodes| && Invalidated(b, task, after)
    case Report(task, status) => task < |b.nodes| && after == b.(status := b.status[task := status])
    case Bump(root) =>
      root < |b.nodes| && after == b.(versions := SetVersions(b.nodes, b.versions, root, b.versions[root] + 1))
  }

  /** The rows' keys name real children in every state of every run. */
  lemma {:induction false} KeysStayReal(run: seq<Board>, actions: seq<Action>)
    requires |run| == |actions| + 1 && Fits(run[0]) && KeysReal(run[0])
    requires forall i :: 0 <= i < |actions| ==> Fits(run[i]) && Step(run[i], actions[i], run[i + 1])
    ensures KeysReal(run[|actions|])
  {
    if actions == [] {
    } else {
      KeysStayReal(run[..|actions|], actions[..|actions| - 1]);
    }
  }

  // ---------------------------------------------------------------- the queries

  class Table {
    var board: Board

    constructor (b: Board)
      ensures board == b
    {
      board := b;
    }

    /** The caller verified a child's result at a version of the parent's context. */
    method ChildVerified(p: nat, child: nat, version: nat) returns (ok: bool)
      requires Fits(board) && KeysReal(board)
      modifies this
      ensures Step(old(board), Accept(p, child, version), board) && KeysReal(board)
      ensures ok <==>
                && child < |board.nodes| && board.nodes[child].parent == Some(p) && board.status[child] == Succeeded
                && p < |board.nodes| && board.versions[p] == version
      ensures board == old(board).(rows := if ok then old(board).rows[(p, child) := version] else old(board).rows)
    {
      if child >= |board.nodes| || board.nodes[child].parent != Some(p) { return false; }
      if !board.status[child].Succeeded? || p >= |board.nodes| || board.versions[p] != version { return false; }
      board := board.(rows := board.rows[(p, child) := version]);
      ok := true;
    }

    /** The completion test: one scan of the children, one count of the accepted rows. */
    method ChildCompletion(p: nat) returns (complete: bool)
      requires Fits(board) && KeysReal(board) && p < |board.nodes|
      ensures complete <==> AllAccepted(board, p)
    {
      var children, succeeded := 0, true;
      ghost var seen: set<nat> := {};
      for k := 0 to |board.nodes|
        invariant seen == set j | 0 <= j < k && board.nodes[j].parent == Some(p)
        invariant children == |seen|
        invariant succeeded <==> forall j :: j in seen ==> board.status[j].Succeeded?
      {
        if board.nodes[k].parent == Some(p) {
          assert k !in seen;
          children := children + 1;
          seen := seen + {k};
          if !board.status[k].Succeeded? { succeeded := false; }
        }
      }
      assert seen == Children(board.nodes, p);
      var accepted := |set e | e in board.rows && e.0 == p && board.rows[e] == board.versions[p]|;
      CountsDecide(board, p);
      assert forall k :: 0 <= k < |board.nodes| && board.nodes[k].parent == Some(p) ==> k in seen;
      complete := succeeded && accepted == children;
    }

    /** Climb to the root collecting ids, then rewrite the two tables. */
    method InvalidateAcceptance(task: nat)
      requires Fits(board) && Rooted(board.nodes) && task < |board.nodes|
      modifies this
      ensures Fits(board) && Invalidated(old(board), task, board)
      ensures forall a: nat :: OnChain(board.nodes, a, task) ==> a < |board.nodes| && !board.status[a].Succeeded?
      ensures forall a: nat :: Above(board.nodes, a, task) ==> a < |board.nodes| && !AllAccepted(board, a)
    {
      var nodes, status := board.nodes, board.status;
      var at: Option<nat>, ids: set<nat> := Some(task), {};
      while at.Some?
        invariant board == old(board)
        invariant at.Some? ==> at.value < |nodes| && OnChain(nodes, at.value, task)
        invariant forall a: nat :: OnChain(nodes, a, task) <==> a in ids || (at.Some? && OnChain(nodes, a, at.value))
        decreases if at.Some? then at.value + 1 else 0
      {
        ids := ids + {at.value};
        ghost var here := at.value;
        at := nodes[at.value].parent;
        if at.Some? && here != task { AboveTransitive(nodes, at.value, here, task); }
      }
      var reopened := seq(|nodes|, k requires 0 <= k < |status| =>
        if k in ids && status[k].Succeeded? then Running else status[k]);
      board := board.(rows := map e | e in board.rows && e.1 !in ids :: board.rows[e], status := reopened);
      assert Invalidated(old(board), task, board);
      forall a: nat | Above(nodes, a, task) ensures a < |nodes| && !AllAccepted(board, a) {
        AboveIsOlder(nodes, a, task);
        RevisionReopensAncestors(old(board), task, board, a, board.status);
      }
    }
  }
}
