// The memory stress program built on a binary search tree that is walked without recursion
// (apps/arvore_binaria/memory_stress.py). The program keeps every node in the list
// `all_nodes`; the model uses that list as the node store, and a link to a child is the
// child's position in it. Nodes are appended in order of creation and a new node is always
// attached below an existing one, so every link points forward.
module IterativeTree {
  import opened Wrappers
  import opened SearchTree

  /** `Node`: a value, the positions of its children, and the length of its payload. */
  datatype NodeRec = NodeRec(value: int, left: Option<nat>, right: Option<nat>, dataSize: nat)

  /** A link names a node after position `j` and inside the store of `n` nodes. */
  predicate LinkAfter(c: Option<nat>, j: int, n: int)
  {
    c.Some? ==> j < c.value < n
  }

  /** Every link points forward, to a node created later. */
  ghost predicate Forward(nodes: seq<NodeRec>)
  {
    forall j :: 0 <= j < |nodes| ==>
      LinkAfter(nodes[j].left, j, |nodes|) && LinkAfter(nodes[j].right, j, |nodes|)
  }

  /** A link that can be followed in the store. */
  predicate InStore(nodes: seq<NodeRec>, c: Option<nat>)
  {
    c.Some? ==> c.value < |nodes|
  }

  /** The tree reached through link `c`. */
  ghost function TreeAt(nodes: seq<NodeRec>, c: Option<nat>): Tree
    requires Forward(nodes) && InStore(nodes, c)
    decreases if c.Some? then |nodes| - c.value else 0
  {
    if c.None? then Leaf
    else
      var nd := nodes[c.value];
      Node(TreeAt(nodes, nd.left), nd.value, TreeAt(nodes, nd.right))
  }

  /** The positions of the nodes reached through link `c`. */
  ghost function Desc(nodes: seq<NodeRec>, c: Option<nat>): set<nat>
    requires Forward(nodes) && InStore(nodes, c)
    decreases if c.Some? then |nodes| - c.value else 0
  {
    if c.None? then {}
    else
      var nd := nodes[c.value];
      {c.value} + Desc(nodes, nd.left) + Desc(nodes, nd.right)
  }

  /** No node is reached through both children of a node: the store holds a tree. */
  ghost predicate Disjoint(nodes: seq<NodeRec>)
    requires Forward(nodes)
  {
    forall j :: 0 <= j < |nodes| ==> Desc(nodes, nodes[j].left) !! Desc(nodes, nodes[j].right)
  }

  /** The nodes below `c` sit at or after it. */
  lemma {:induction false} DescAfter(nodes: seq<NodeRec>, c: Option<nat>)
    requires Forward(nodes) && InStore(nodes, c)
    ensures forall x :: x in Desc(nodes, c) ==> c.Some? && c.value <= x < |nodes|
    decreases if c.Some? then |nodes| - c.value else 0
  {
    if c.Some? {
      DescAfter(nodes, nodes[c.value].left);
      DescAfter(nodes, nodes[c.value].right);
    }
  }

  /** Where the walk of `insert_iterative` for `v` starting at node `c` stops: the node whose
      child on `v`'s side is missing. */
  ghost function AttachPoint(nodes: seq<NodeRec>, c: nat, v: int): (r: nat)
    requires Forward(nodes) && c < |nodes|
    ensures c <= r < |nodes|
    ensures (if v < nodes[r].value then nodes[r].left else nodes[r].right).None?
    decreases |nodes| - c
  {
    var nd := nodes[c];
    var next := if v < nd.value then nd.left else nd.right;
    if next.None? then c else AttachPoint(nodes, next.value, v)
  }

  /** A leaf for `v` with a payload of `size` bytes. */
  function NewLeaf(v: int, size: nat): NodeRec
  {
    NodeRec(v, None, None, size)
  }

  /** The node store after `insert_iterative(v)`: the new leaf is appended and, unless it is
      the first node, linked below the node where the walk from the root stops. */
  ghost function Attached(nodes: seq<NodeRec>, v: int, size: nat): seq<NodeRec>
    requires Forward(nodes)
  {
    var n := |nodes|;
    if n == 0 then [NewLeaf(v, size)]
    else
      var p := AttachPoint(nodes, 0, v);
      var nd := nodes[p];
      (nodes + [NewLeaf(v, size)])[p := if v < nd.value then nd.(left := Some(n)) else nd.(right := Some(n))]
  }

  /** The attached store keeps links forward. */
  lemma AttachedForward(nodes: seq<NodeRec>, v: int, size: nat)
    requires Forward(nodes)
    ensures Forward(Attached(nodes, v, size))
  {
  }

  /** `insert_iterative` changes no existing link: it appends the leaf, and at most one
      missing link, at the node where the walk stops, now names the leaf. */
  lemma AttachedLinks(nodes: seq<NodeRec>, v: int, size: nat)
    requires Forward(nodes)
    ensures var after := Attached(nodes, v, size);
      |after| == |nodes| + 1 && after[|nodes|] == NewLeaf(v, size) &&
      (forall j :: 0 <= j < |nodes| ==>
         after[j].value == nodes[j].value && after[j].dataSize == nodes[j].dataSize &&
         (after[j].left == nodes[j].left || (nodes[j].left.None? && after[j].left == Some(|nodes|))) &&
         (after[j].right == nodes[j].right || (nodes[j].right.None? && after[j].right == Some(|nodes|)))) &&
      (|nodes| > 0 ==> forall j :: 0 <= j < |nodes| && j != AttachPoint(nodes, 0, v) ==> after[j] == nodes[j])
  {
  }

  /** The walk from `c` stops at a node below `c`. */
  lemma {:induction false} AttachPointBelow(nodes: seq<NodeRec>, c: nat, v: int)
    requires Forward(nodes) && c < |nodes|
    ensures AttachPoint(nodes, c, v) in Desc(nodes, Some(c))
    decreases |nodes| - c
  {
    var nd := nodes[c];
    var next := if v < nd.value then nd.left else nd.right;
    if next.Some? {
      AttachPointBelow(nodes, next.value, v);
    }
  }

  /** Below each old node, the attached store reaches the same nodes, plus the new leaf
      when the walk's stopping point is among them. */
  lemma {:induction false} DescGrows(nodes: seq<NodeRec>, after: seq<NodeRec>, v: int, size: nat, c: Option<nat>)
    requires Forward(nodes) && |nodes| > 0 && InStore(nodes, c)
    requires after == Attached(nodes, v, size) && Forward(after)
    ensures Desc(after, c) ==
      Desc(nodes, c) + (if AttachPoint(nodes, 0, v) in Desc(nodes, c) then {|nodes|} else {})
    decreases if c.Some? then |nodes| - c.value else 0
  {
    if c.Some? {
      var p := AttachPoint(nodes, 0, v);
      var j := c.value;
      var nd := nodes[j];
      DescGrows(nodes, after, v, size, nd.left);
      DescGrows(nodes, after, v, size, nd.right);
      assert Desc(after, Some(|nodes|)) == {|nodes|};
      if j == p {
        DescAfter(nodes, nd.left);
        DescAfter(nodes, nd.right);
      }
    }
  }

  /** A part of the tree that does not hold the walk's stopping point is unchanged. */
  lemma {:induction false} TreeUnchanged(nodes: seq<NodeRec>, after: seq<NodeRec>, v: int, size: nat, c: Option<nat>)
    requires Forward(nodes) && |nodes| > 0 && InStore(nodes, c)
    requires after == Attached(nodes, v, size) && Forward(after)
    requires AttachPoint(nodes, 0, v) !in Desc(nodes, c)
    ensures TreeAt(after, c) == TreeAt(nodes, c)
    decreases if c.Some? then |nodes| - c.value else 0
  {
    if c.Some? {
      TreeUnchanged(nodes, after, v, size, nodes[c.value].left);
      TreeUnchanged(nodes, after, v, size, nodes[c.value].right);
    }
  }

  /** Along the walk, the attached store denotes the inserted tree. */
  lemma {:induction false} TreeAlongWalk(nodes: seq<NodeRec>, after: seq<NodeRec>, v: int, size: nat, j: nat)
    requires Forward(nodes) && Disjoint(nodes) && j < |nodes|
    requires after == Attached(nodes, v, size) && Forward(after)
    requires AttachPoint(nodes, j, v) == AttachPoint(nodes, 0, v)
    ensures TreeAt(after, Some(j)) == Inserted(TreeAt(nodes, Some(j)), v)
    decreases |nodes| - j
  {
    var p := AttachPoint(nodes, 0, v);
    var nd := nodes[j];
    if j == p {
      DescAfter(nodes, nd.left);
      DescAfter(nodes, nd.right);
      assert TreeAt(after, Some(|nodes|)) == Node(Leaf, v, Leaf);
      if v < nd.value {
        TreeUnchanged(nodes, after, v, size, nd.right);
      } else {
        TreeUnchanged(nodes, after, v, size, nd.left);
      }
    } else {
      assert after[j] == nd;
      if v < nd.value {
        AttachPointBelow(nodes, nd.left.value, v);
        TreeAlongWalk(nodes, after, v, size, nd.left.value);
        TreeUnchanged(nodes, after, v, size, nd.right);
      } else {
        AttachPointBelow(nodes, nd.right.value, v);
        TreeAlongWalk(nodes, after, v, size, nd.right.value);
        TreeUnchanged(nodes, after, v, size, nd.left);
      }
    }
  }

  /** The attached store still holds a tree. */
  lemma AttachedDisjoint(nodes: seq<NodeRec>, after: seq<NodeRec>, v: int, size: nat)
    requires Forward(nodes) && Disjoint(nodes)
    requires after == Attached(nodes, v, size) && Forward(after)
    ensures Disjoint(after)
  {
    if |nodes| > 0 {
      var p := AttachPoint(nodes, 0, v);
      forall j | 0 <= j < |after|
        ensures Desc(after, after[j].left) !! Desc(after, after[j].right)
      {
        if j < |nodes| {
          var nd := nodes[j];
          DescAfter(nodes, nd.left);
          DescAfter(nodes, nd.right);
          if j == p {
            assert Desc(after, Some(|nodes|)) == {|nodes|};
            if v < nd.value {
              DescGrows(nodes, after, v, size, nd.right);
            } else {
              DescGrows(nodes, after, v, size, nd.left);
            }
          } else {
            DescGrows(nodes, after, v, size, nd.left);
            DescGrows(nodes, after, v, size, nd.right);
          }
        }
      }
    }
  }

  /** The store after `insert_iterative(v)` denotes the tree with `v` inserted. */
  lemma AttachedTree(nodes: seq<NodeRec>, v: int, size: nat)
    requires Forward(nodes) && Disjoint(nodes)
    ensures Forward(Attached(nodes, v, size)) && Disjoint(Attached(nodes, v, size))
    ensures TreeAt(Attached(nodes, v, size), Some(0)) ==
      Inserted(TreeAt(nodes, if |nodes| == 0 then None else Some(0)), v)
  {
    var after := Attached(nodes, v, size);
    AttachedForward(nodes, v, size);
    AttachedDisjoint(nodes, after, v, size);
    if |nodes| == 0 {
      assert TreeAt(after, Some(0)) == Node(Leaf, v, Leaf);
    } else {
      TreeAlongWalk(nodes, after, v, size, 0);
    }
  }

  /** The store steps of `insert_iterative`: append the leaf; unless it is the first node,
      walk from the root and link it where the child on its side is missing. */
  method AttachLeaf(nodes: seq<NodeRec>, v: int, size: nat) returns (after: seq<NodeRec>)
    requires Forward(nodes)
    ensures after == Attached(nodes, v, size)
  {
    var n := |nodes|;
    after := nodes + [NewLeaf(v, size)];
    if n == 0 {
      return;
    }
    AttachPointPrefix(nodes, v, size, 0);
    var p := WalkToParent(after, v);
    var nd := after[p];
    if v < nd.value {
      after := after[p := nd.(left := Some(n))];
    } else {
      after := after[p := nd.(right := Some(n))];
    }
  }

  /** The store after `insert_iterative(v)` meets every condition of the class invariant
      that the store before it met. */
  lemma AttachedValid(nodes: seq<NodeRec>, v: int, size: nat)
    requires Forward(nodes) && Disjoint(nodes)
    requires var t := TreeAt(nodes, if nodes == [] then None else Some(0)); Size(t) == |nodes| && Ordered(t)
    requires forall j :: 0 <= j < |nodes| ==> nodes[j].dataSize == size
    ensures var after, t := Attached(nodes, v, size), TreeAt(nodes, if nodes == [] then None else Some(0));
      Forward(after) && Disjoint(after) && |after| == |nodes| + 1 &&
      TreeAt(after, Some(0)) == Inserted(t, v) &&
      Size(TreeAt(after, Some(0))) == |after| && Ordered(TreeAt(after, Some(0))) &&
      forall j :: 0 <= j < |after| ==> after[j].dataSize == size
  {
    var t := TreeAt(nodes, if nodes == [] then None else Some(0));
    AttachedTree(nodes, v, size);
    AttachedLinks(nodes, v, size);
    InsertedSize(t, v);
    InsertedOrdered(t, v);
  }

  /** The number of nodes in the trees reached from the links on a stack. */
  ghost function StackSize(nodes: seq<NodeRec>, stack: seq<nat>): nat
    requires Forward(nodes) && Stacked(nodes, stack)
  {
    if stack == [] then 0
    else StackSize(nodes, stack[..|stack| - 1]) + Size(TreeAt(nodes, Some(stack[|stack| - 1])))
  }

  /** `range(n)`: the values `0, 1, ..., n - 1`, none when `n` is not positive. */
  function Range(n: int): (r: seq<int>)
    ensures |r| == if n > 0 then n else 0
    ensures forall k :: 0 <= k < |r| ==> r[k] == k
    decreases if n > 0 then n else 0
  {
    if n <= 0 then [] else Range(n - 1) + [n - 1]
  }

  /** The tree after inserting `values` in order. */
  function InsertedAll(t: Tree, values: seq<int>): Tree
    decreases |values|
  {
    if values == [] then t else InsertedAll(Inserted(t, values[0]), values[1..])
  }

  /** Inserting a list of values adds each of them once. */
  lemma {:induction false} InsertedAllElements(t: Tree, values: seq<int>)
    ensures Elements(InsertedAll(t, values)) == Elements(t) + multiset(values)
    decreases |values|
  {
    if values != [] {
      InsertedElements(t, values[0]);
      InsertedAllElements(Inserted(t, values[0]), values[1..]);
      MultisetOfFirst(values);
    }
  }

  lemma MultisetOfFirst(values: seq<int>)
    requires values != []
    ensures multiset(values) == multiset{values[0]} + multiset(values[1..])
  {
    assert values == [values[0]] + values[1..];
  }

  /** Inserting a list of values adds one node per value. */
  lemma {:induction false} InsertedAllSize(t: Tree, values: seq<int>)
    ensures Size(InsertedAll(t, values)) == Size(t) + |values|
    decreases |values|
  {
    if values != [] {
      InsertedSize(t, values[0]);
      InsertedAllSize(Inserted(t, values[0]), values[1..]);
    }
  }

  /** Each of `0, ..., n - 1` occurs in `range(n)` exactly once, and nothing else does. */
  lemma {:induction false} RangeOnce(n: int, x: int)
    ensures multiset(Range(n))[x] == if 0 <= x < n then 1 else 0
    decreases if n > 0 then n else 0
  {
    if n > 0 {
      RangeOnce(n - 1, x);
    }
  }

  /** `BinaryTreeMemoryStress`: the target, the node size, the root, the counter and the list
      of every node created. */
  class BinaryTreeMemoryStress {
    var targetMb: int
    var nodeSizeBytes: nat
    var durationSeconds: int
    var root: Option<nat>
    var nodeCount: nat
    var allNodes: seq<NodeRec>

    /** The counter counts the list, the first node is the root, links point forward and form
        a tree reaching every node in search order, and every payload has the node size. */
    ghost predicate Valid()
      reads this
    {
      nodeCount == |allNodes| &&
      root == (if allNodes == [] then None else Some(0)) &&
      Forward(allNodes) && Disjoint(allNodes) &&
      Size(TreeAt(allNodes, root)) == nodeCount &&
      Ordered(TreeAt(allNodes, root)) &&
      forall j :: 0 <= j < |allNodes| ==> allNodes[j].dataSize == nodeSizeBytes
    }

    /** The tree the store denotes. */
    ghost function Model(): Tree
      reads this
      requires Valid()
    {
      TreeAt(allNodes, root)
    }

    /** `BinaryTreeMemoryStress(target_mb, node_size_kb, duration_seconds)`: an empty tree. */
    constructor (targetMb: int, nodeSizeKb: nat, durationSeconds: int)
      ensures Valid()
      ensures this.targetMb == targetMb && nodeSizeBytes == nodeSizeKb * 1024 &&
              this.durationSeconds == durationSeconds
      ensures root == None && nodeCount == 0 && allNodes == []
    {
      this.targetMb := targetMb;
      nodeSizeBytes := nodeSizeKb * 1024;
      this.durationSeconds := durationSeconds;
      root := None;
      nodeCount := 0;
      allNodes := [];
    }

    /** `insert_iterative`: append the node and count it, then walk down from the root,
        smaller values to the left and equal or greater ones to the right, and link the node
        where the child on its side is missing. */
    method InsertIterative(v: int)
      requires Valid()
      modifies this
      ensures Valid()
      ensures allNodes == Attached(old(allNodes), v, nodeSizeBytes)
      ensures Model() == Inserted(old(Model()), v)
      ensures targetMb == old(targetMb) && nodeSizeBytes == old(nodeSizeBytes) &&
              durationSeconds == old(durationSeconds)
    {
      AttachedValid(allNodes, v, nodeSizeBytes);
      var store := AttachLeaf(allNodes, v, nodeSizeBytes);
      allNodes := store;
      nodeCount := nodeCount + 1;
      if root.None? {
        root := Some(0);
      }
    }

    /** `calculate_nodes_needed`: how many whole nodes fit in the target; the division
        fails when the node size is zero. */
    function CalculateNodesNeeded(): (r: Result<int, string>)
      reads this
      ensures r.Ok? <==> nodeSizeBytes > 0
      ensures r.Ok? ==> r.value * nodeSizeBytes <= targetMb * 1048576 < (r.value + 1) * nodeSizeBytes
    {
      if nodeSizeBytes == 0 then Err("ZeroDivisionError")
      else Ok(targetMb * 1024 * 1024 / nodeSizeBytes)
    }

    /** `build_tree`: insert every value of `range(nodes_needed)` once, in the shuffled
        order `shuffled`; nothing happens when the division fails. */
    method BuildTree(shuffled: seq<int>) returns (ok: bool)
      requires Valid()
      requires CalculateNodesNeeded().Ok? ==> multiset(shuffled) == multiset(Range(CalculateNodesNeeded().value))
      modifies this
      ensures Valid()
      ensures ok <==> old(nodeSizeBytes) > 0
      ensures !ok ==> allNodes == old(allNodes)
      ensures ok ==> Model() == InsertedAll(old(Model()), shuffled)
      ensures ok ==> nodeCount == old(nodeCount) + |shuffled|
      ensures ok ==> Elements(Model()) == old(Elements(Model())) + multiset(shuffled)
      ensures targetMb == old(targetMb) && nodeSizeBytes == old(nodeSizeBytes)
      ensures ok && old(allNodes) == [] ==>
        forall x :: Elements(Model())[x] == if 0 <= x < CalculateNodesNeeded().value then 1 else 0
    {
      var needed := CalculateNodesNeeded();
      if needed.Err? {
        return false;
      }
      ghost var start := Model();
      for i := 0 to |shuffled|
        invariant Valid()
        invariant targetMb == old(targetMb) && nodeSizeBytes == old(nodeSizeBytes)
        invariant Model() == InsertedAll(start, shuffled[..i])
      {
        InsertIterative(shuffled[i]);
        InsertedAllStep(start, shuffled, i);
      }
      assert shuffled[..|shuffled|] == shuffled;
      InsertedAllElements(start, shuffled);
      InsertedAllSize(start, shuffled);
      forall x | old(allNodes) == []
        ensures Elements(Model())[x] == if 0 <= x < needed.value then 1 else 0
      {
        RangeOnce(needed.value, x);
      }
      return true;
    }

    /** `traverse_tree_iterative`: pop a node, count it, push its right and then its left
        child; the count is the number of nodes in the tree, which is the node counter. */
    method TraverseTreeIterative() returns (count: nat)
      requires Valid()
      ensures count == Size(Model()) && count == nodeCount
    {
      if root.None? {
        return 0;
      }
      count := CountFrom(allNodes, root.value);
    }

    /** `access_random_nodes`: of the nodes sampled (`sample` holds their positions, as
        drawn by `random.sample`), count those whose payload is longer than 10 bytes. */
    method AccessRandomNodes(sampleSize: nat, sample: seq<nat>) returns (accessed: nat)
      requires Valid()
      requires allNodes != [] ==> |sample| == Min(sampleSize, |allNodes|)
      requires forall k :: 0 <= k < |sample| ==> sample[k] < |allNodes|
      ensures allNodes == [] ==> accessed == 0
      ensures accessed <= Min(sampleSize, |allNodes|)
      ensures accessed == (if nodeSizeBytes > 10 && allNodes != [] then Min(sampleSize, |allNodes|) else 0)
    {
      if |allNodes| == 0 {
        return 0;
      }
      accessed := 0;
      for i := 0 to |sample|
        invariant accessed == (if nodeSizeBytes > 10 then i else 0)
      {
        if allNodes[sample[i]].dataSize > 10 {
          accessed := accessed + 1;
        }
      }
    }
  }

  /** The stack walk of `traverse_tree_iterative` from node `start`: pop a node, count it,
      push its right and then its left child. */
  method CountFrom(nodes: seq<NodeRec>, start: nat) returns (count: nat)
    requires Forward(nodes) && start < |nodes|
    ensures count == Size(TreeAt(nodes, Some(start)))
  {
    count := 0;
    var stack: seq<nat> := [start];
    assert StackSize(nodes, stack) == StackSize(nodes, []) + Size(TreeAt(nodes, Some(start)));
    while stack != []
      invariant Stacked(nodes, stack)
      invariant count + StackSize(nodes, stack) == Size(TreeAt(nodes, Some(start)))
      decreases StackSize(nodes, stack)
    {
      stack := Visit(nodes, stack);
      count := count + 1;
    }
  }

  /** Every position on the stack is in the store. */
  predicate Stacked(nodes: seq<NodeRec>, stack: seq<nat>)
  {
    forall k :: 0 <= k < |stack| ==> stack[k] < |nodes|
  }

  /** One round of the walk: pop the top node and push its right and then its left child. */
  method Visit(nodes: seq<NodeRec>, stack: seq<nat>) returns (next: seq<nat>)
    requires Forward(nodes) && Stacked(nodes, stack) && stack != []
    ensures Stacked(nodes, next) && StackSize(nodes, next) + 1 == StackSize(nodes, stack)
  {
    var top := stack[|stack| - 1];
    next := stack[..|stack| - 1];
    var nd := nodes[top];
    SizeAtNode(nodes, top);
    assert StackSize(nodes, stack) == StackSize(nodes, next) + 1 +
      Size(TreeAt(nodes, nd.left)) + Size(TreeAt(nodes, nd.right));
    if nd.right.Some? {
      StackPush(nodes, next, nd.right.value);
      next := next + [nd.right.value];
    }
    if nd.left.Some? {
      StackPush(nodes, next, nd.left.value);
      next := next + [nd.left.value];
    }
  }

  /** The walk of `insert_iterative` from the root: go left for a smaller value and right
      otherwise, until the child on that side is missing. */
  method WalkToParent(nodes: seq<NodeRec>, v: int) returns (current: nat)
    requires Forward(nodes) && nodes != []
    ensures current == AttachPoint(nodes, 0, v)
  {
    current := 0;
    while true
      invariant current < |nodes|
      invariant AttachPoint(nodes, current, v) == AttachPoint(nodes, 0, v)
      decreases |nodes| - current
    {
      var nd := nodes[current];
      if v < nd.value {
        if nd.left.None? {
          return;
        }
        current := nd.left.value;
      } else {
        if nd.right.None? {
          return;
        }
        current := nd.right.value;
      }
    }
  }

  /** The appended leaf is not yet linked, so the walk stops where it did before. */
  lemma {:induction false} AttachPointPrefix(nodes: seq<NodeRec>, v: int, size: nat, c: nat)
    requires Forward(nodes) && c < |nodes|
    ensures Forward(nodes + [NewLeaf(v, size)])
    ensures AttachPoint(nodes + [NewLeaf(v, size)], c, v) == AttachPoint(nodes, c, v)
    decreases |nodes| - c
  {
    var longer := nodes + [NewLeaf(v, size)];
    assert forall j :: 0 <= j < |nodes| ==> longer[j] == nodes[j];
    var nd := nodes[c];
    var next := if v < nd.value then nd.left else nd.right;
    if next.Some? {
      AttachPointPrefix(nodes, v, size, next.value);
    }
  }

  function Min(a: int, b: int): int
  {
    if a <= b then a else b
  }

  lemma InsertedAllStep(t: Tree, values: seq<int>, i: nat)
    requires i < |values|
    ensures InsertedAll(t, values[..i + 1]) == Inserted(InsertedAll(t, values[..i]), values[i])
  {
    InsertedAllSnoc(t, values[..i], values[i]);
    assert values[..i + 1] == values[..i] + [values[i]];
  }

  lemma {:induction false} InsertedAllSnoc(t: Tree, values: seq<int>, v: int)
    ensures InsertedAll(t, values + [v]) == Inserted(InsertedAll(t, values), v)
    decreases |values|
  {
    if values == [] {
      assert [v][1..] == [];
    } else {
      assert (values + [v])[1..] == values[1..] + [v];
      InsertedAllSnoc(Inserted(t, values[0]), values[1..], v);
    }
  }

  lemma SizeAtNode(nodes: seq<NodeRec>, j: nat)
    requires Forward(nodes) && j < |nodes|
    ensures Size(TreeAt(nodes, Some(j))) == 1 + Size(TreeAt(nodes, nodes[j].left)) + Size(TreeAt(nodes, nodes[j].right))
  {
  }

  lemma StackPush(nodes: seq<NodeRec>, stack: seq<nat>, c: nat)
    requires Forward(nodes) && c < |nodes| && forall k :: 0 <= k < |stack| ==> stack[k] < |nodes|
    ensures StackSize(nodes, stack + [c]) == StackSize(nodes, stack) + Size(TreeAt(nodes, Some(c)))
  {
    assert (stack + [c])[..|stack|] == stack;
  }
}
