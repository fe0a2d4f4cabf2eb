/**
 The immutable part of a task tree: who delegated to whom, how deep, under which limits
 (src/delegation.rs, table task_tree). Rows are kept in insertion order and a task is
 named by its row number, which is all that a fresh identifier promises: a parent's row
 is older than its child's.
 */
module TaskTree {
  import opened Options

  datatype Status = Running | Waiting | Remote | Blocked | Succeeded | Failed | Cancelled

  datatype Limits = Limits(children: nat, depth: nat)

  datatype Request = Request(id: string, hash: string)

  datatype Node = Node(root: nat, parent: Option<nat>, worker: Option<string>, depth: nat,
                       request: Option<Request>, limits: Limits)

  /** `a` is a strict ancestor of `k`. */
  ghost predicate Above(nodes: seq<Node>, a: nat, k: nat)
    decreases k
  {
    && k < |nodes|
    && nodes[k].parent.Some?
    && nodes[k].parent.value < k
    && (nodes[k].parent.value == a || Above(nodes, a, nodes[k].parent.value))
  }

  /** Parents are older than children and belong to the same tree. */
  ghost predicate Rooted(nodes: seq<Node>) {
    forall k :: 0 <= k < |nodes| ==>
      match nodes[k].parent
      case None => nodes[k].root == k
      case Some(p) => p < k && nodes[k].root == nodes[p].root
  }

  /** How many rows belong to the tree of `root`. */
  function Members(nodes: seq<Node>, root: nat): nat {
    if nodes == [] then 0
    else Members(nodes[..|nodes| - 1], root) + if nodes[|nodes| - 1].root == root then 1 else 0
  }

  lemma {:induction false} MembersCounted(nodes: seq<Node>, root: nat, tree: set<int>)
    requires forall k :: k in tree <==> 0 <= k < |nodes| && nodes[k].root == root
    ensures Members(nodes, root) == |tree|
  {
    if nodes == [] {
      assert forall k :: k !in tree;
    } else {
      var n := |nodes| - 1;
      assert forall k :: 0 <= k < n ==> nodes[..n][k] == nodes[k];
      MembersCounted(nodes[..n], root, tree - {n});
    }
  }

  /** The count is the number of rows that name the tree's root. */
  lemma MembersIsCount(nodes: seq<Node>, root: nat)
    ensures Members(nodes, root) == |set k | 0 <= k < |nodes| && nodes[k].root == root|
  {
    MembersCounted(nodes, root, set k | 0 <= k < |nodes| && nodes[k].root == root);
  }

  /** What delegation guarantees of every node it adds. */
  ghost predicate Grown(nodes: seq<Node>) {
    && Rooted(nodes)
    && forall k :: 0 <= k < |nodes| ==>
         && nodes[k].limits.children <= 256 && nodes[k].limits.depth <= 8
         && nodes[k].depth <= nodes[k].limits.depth
         && Members(nodes, nodes[k].root) - 1 <= nodes[k].limits.children
         && match nodes[k].parent
            case None => nodes[k].depth == 0
            case Some(p) => nodes[k].depth == nodes[p].depth + 1 && nodes[k].limits == nodes[p].limits
  }

  lemma {:induction false} RootIsRoot(nodes: seq<Node>, k: nat)
    requires Rooted(nodes) && k < |nodes|
    ensures nodes[k].root <= k && nodes[nodes[k].root].parent == None && nodes[nodes[k].root].root == nodes[k].root
    ensures nodes[k].parent.Some? ==> Above(nodes, nodes[k].root, k)
    decreases k
  {
    if nodes[k].parent.None? {
    } else {
      RootIsRoot(nodes, nodes[k].parent.value);
    }
  }

  lemma {:induction false} AboveIsOlder(nodes: seq<Node>, a: nat, k: nat)
    requires Above(nodes, a, k)
    ensures a < k < |nodes|
    ensures Rooted(nodes) ==> nodes[a].root == nodes[k].root
    decreases k
  {
    if nodes[k].parent.value == a {
    } else {
      AboveIsOlder(nodes, a, nodes[k].parent.value);
    }
  }

  lemma {:induction false} AboveTransitive(nodes: seq<Node>, a: nat, b: nat, k: nat)
    requires Above(nodes, a, b) && Above(nodes, b, k)
    ensures Above(nodes, a, k)
    decreases k
  {
    if nodes[k].parent.value == b {
    } else {
      AboveTransitive(nodes, a, b, nodes[k].parent.value);
    }
  }

  /** The strict ancestors of a node form a chain. */
  lemma {:induction false} AboveIsChain(nodes: seq<Node>, a: nat, b: nat, k: nat)
    requires Above(nodes, a, k) && Above(nodes, b, k)
    ensures a == b || Above(nodes, a, b) || Above(nodes, b, a)
    decreases k
  {
    var p := nodes[k].parent.value;
    if a != p && b != p { AboveIsChain(nodes, a, b, p); }
  }

  /** Being above is being at the end of a path of parents. */
  lemma {:induction false} AboveIsPath(nodes: seq<Node>, path: seq<nat>)
    requires Rooted(nodes) && |path| >= 2 && forall i :: 0 <= i < |path| ==> path[i] < |nodes|
    requires forall i :: 0 <= i < |path| - 1 ==> nodes[path[i]].parent == Some(path[i + 1])
    ensures Above(nodes, path[|path| - 1], path[0])
    decreases |path|
  {
    assert nodes[path[0]].parent == Some(path[1]);
    if |path| == 2 {
    } else {
      AboveIsPath(nodes, path[1..]);
    }
  }

  /** And there is such a path up from every task to everything above it. */
  lemma {:induction false} PathToAbove(nodes: seq<Node>, a: nat, k: nat) returns (path: seq<nat>)
    requires Above(nodes, a, k)
    ensures |path| >= 2 && path[0] == k && path[|path| - 1] == a
    ensures forall i :: 0 <= i < |path| - 1 ==> path[i] < |nodes| && nodes[path[i]].parent == Some(path[i + 1])
    decreases k
  {
    var p := nodes[k].parent.value;
    if p == a {
      path := [k, a];
    } else {
      var rest := PathToAbove(nodes, a, p);
      path := [k] + rest;
    }
  }

  /** Adding rows never changes who is above whom among the old ones. */
  lemma {:induction false} AboveIsStable(nodes: seq<Node>, more: seq<Node>, a: nat, k: nat)
    requires |nodes| <= |more| && more[..|nodes|] == nodes && k < |nodes|
    ensures Above(more, a, k) <==> Above(nodes, a, k)
    decreases k
  {
    assert more[k] == nodes[k];
    if nodes[k].parent.Some? && nodes[k].parent.value < k {
      AboveIsStable(nodes, more, a, nodes[k].parent.value);
    }
  }

  lemma {:induction false} MembersOfStranger(nodes: seq<Node>, root: nat)
    requires forall k :: 0 <= k < |nodes| ==> nodes[k].root != root
    ensures Members(nodes, root) == 0
  {
    if nodes == [] {
    } else {
      MembersOfStranger(nodes[..|nodes| - 1], root);
    }
  }

  /** A new root starts a tree of its own. */
  lemma RootKeepsGrown(nodes: seq<Node>, row: Node)
    requires Grown(nodes)
    requires row.root == |nodes| && row.parent == None && row.depth == 0
    requires row.limits.children <= 256 && row.limits.depth <= 8
    ensures Grown(nodes + [row])
  {
    assert (nodes + [row])[..|nodes|] == nodes;
    forall k | 0 <= k < |nodes| ensures nodes[k].root <= k { RootIsRoot(nodes, k); }
    MembersOfStranger(nodes, |nodes|);
  }

  lemma {:induction false} OneSetOfLimits(nodes: seq<Node>, k: nat)
    requires Grown(nodes) && k < |nodes|
    ensures nodes[k].root <= k && nodes[k].limits == nodes[nodes[k].root].limits
    decreases k
  {
    RootIsRoot(nodes, k);
    if nodes[k].parent.None? {
    } else {
      OneSetOfLimits(nodes, nodes[k].parent.value);
    }
  }

  /** A child admitted under the limits keeps every limit. */
  lemma ChildKeepsGrown(nodes: seq<Node>, p: nat, row: Node)
    requires Grown(nodes) && p < |nodes|
    requires row.parent == Some(p) && row.root == nodes[p].root && row.limits == nodes[p].limits
    requires row.depth == nodes[p].depth + 1
    requires |set k | 0 <= k < |nodes| && nodes[k].root == row.root| - 1 < row.limits.children
    requires nodes[p].depth < row.limits.depth
    ensures Grown(nodes + [row])
    ensures var more := nodes + [row];
            |set k | 0 <= k < |more| && more[k].root == row.root| - 1 <= row.limits.children
  {
    assert (nodes + [row])[..|nodes|] == nodes;
    MembersIsCount(nodes, row.root);
    MembersIsCount(nodes + [row], row.root);
    forall k | 0 <= k < |nodes| && nodes[k].root == row.root ensures nodes[k].limits == row.limits {
      OneSetOfLimits(nodes, k);
      OneSetOfLimits(nodes, p);
    }
  }
}
