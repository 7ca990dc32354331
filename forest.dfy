/**
  The shape of a permission tree as plain values: the map from node id to node,
  the map from child id to parent id, and the queries and structural updates that
  `Tree` in src/lib.rs performs on them.  Node ids are the source's `u32`.
 */
module Forest {

  /** A node id: the source keys every map by `u32`. */
  type NodeId = x: int | 0 <= x < 0x1_0000_0000

  datatype Permission = Public | Private

  /** One entry of `Tree::nodes`: its own id, its permission and the ids of its direct children. */
  datatype TreeNode = TreeNode(id: NodeId, permission: Permission, children: set<NodeId>)

  type Nodes = map<NodeId, TreeNode>
  type Parents = map<NodeId, NodeId>

  /** A ghost height for every node: a parent always ranks strictly above each of its children. */
  type Ranks = map<NodeId, nat>

  /** Every node is stored under its own id, every child id names a node, and the child
      sets and the parent map record the same edges, each in one direction. */
  ghost predicate Linked(nodes: Nodes, parents: Parents) {
    && (forall k {:trigger nodes[k]} :: k in nodes ==> nodes[k].id == k)
    && (forall p, c {:trigger c in nodes[p].children} :: p in nodes && c in nodes[p].children ==> c in nodes && c in parents && parents[c] == p)
    && (forall c {:trigger parents[c]} :: c in parents ==> c in nodes && parents[c] in nodes && c in nodes[parents[c]].children)
  }

  /** `rank` witnesses that following child sets always terminates: the edges are acyclic. */
  ghost predicate Ranked(nodes: Nodes, rank: Ranks) {
    && (forall k :: k in nodes ==> k in rank)
    && (forall p, c {:trigger c in nodes[p].children} :: p in nodes && c in nodes[p].children ==> p in rank && c in rank && rank[c] < rank[p])
  }

  /** `is_descendant(a, b)`: `b` is a child of `a`, or a descendant of one of `a`'s children.
      The search order over the child set is irrelevant, so it is an existential here. */
  function IsDescendant(nodes: Nodes, ghost rank: Ranks, a: NodeId, b: NodeId): bool
    requires Ranked(nodes, rank)
    decreases if a in rank then rank[a] else 0
  {
    a in nodes &&
    (b in nodes[a].children || exists c :: c in nodes[a].children && IsDescendant(nodes, rank, c, b))
  }

  /** `z` is `a` itself or lies below it: the subtree that `move_subtree(a, _)` carries along. */
  ghost predicate InSubtree(nodes: Nodes, rank: Ranks, a: NodeId, z: NodeId)
    requires Ranked(nodes, rank)
  {
    z == a || IsDescendant(nodes, rank, a, z)
  }

  /** `a` is the `k`-th ancestor of `b`, following `parent_map` upward `k` times. */
  ghost predicate AncestorAt(parents: Parents, a: NodeId, b: NodeId, k: nat)
    decreases k
  {
    if k == 0 then a == b else b in parents && AncestorAt(parents, a, parents[b], k - 1)
  }

  /** `parent_id`'s child set after `children.insert(child_id)`; a missing parent is left alone. */
  function Attach(nodes: Nodes, parent: NodeId, child: NodeId): (r: Nodes)
    ensures r.Keys == nodes.Keys
    ensures forall k :: k in nodes ==> r[k].id == nodes[k].id && r[k].permission == nodes[k].permission
    ensures forall k :: k in nodes ==> r[k].children == if k == parent then nodes[k].children + {child} else nodes[k].children
  {
    if parent in nodes then nodes[parent := nodes[parent].(children := nodes[parent].children + {child})] else nodes
  }

  /** The removal of `node` from its current parent's child set, if it has a parent. */
  function Detach(nodes: Nodes, parents: Parents, node: NodeId): (r: Nodes)
    ensures r.Keys == nodes.Keys
    ensures forall k :: k in nodes ==> r[k].id == nodes[k].id && r[k].permission == nodes[k].permission
    ensures forall k :: k in nodes ==>
      r[k].children == if node in parents && k == parents[node] then nodes[k].children - {node} else nodes[k].children
  {
    if node in parents && parents[node] in nodes then
      var q := parents[node];
      nodes[q := nodes[q].(children := nodes[q].children - {node})]
    else nodes
  }

  /** The child sets after a successful `move_subtree(node, newParent)`. */
  function Relinked(nodes: Nodes, parents: Parents, node: NodeId, newParent: NodeId): Nodes {
    Attach(Detach(nodes, parents, node), newParent, node)
  }

  /** Why `connect_nodes` declines, in the order it tests: the first three are the guards of
      src/lib.rs, the last one the check that guard set lacks. */
  datatype ConnectOutcome = Connected | MissingNode | SelfParent | AlreadyParented | WouldCycle

  /** The guards of `connect_nodes` in src/lib.rs as written, first failing one wins. */
  function ConnectGuards(nodes: Nodes, parents: Parents, parent: NodeId, child: NodeId): (r: ConnectOutcome)
    ensures r == MissingNode <==> parent !in nodes || child !in nodes
    ensures r == SelfParent <==> parent in nodes && child in nodes && parent == child
    ensures r == AlreadyParented <==> parent in nodes && child in nodes && parent != child && child in parents
    ensures r == Connected <==> parent in nodes && child in nodes && parent != child && child !in parents
    ensures r != WouldCycle
  {
    if parent !in nodes || child !in nodes then MissingNode
    else if parent == child then SelfParent
    else if child in parents then AlreadyParented
    else Connected
  }

  /** The guards of `connect_nodes` with the missing one added: a parentless child may not
      be linked under a node of its own subtree. */
  function ConnectCheck(nodes: Nodes, parents: Parents, ghost rank: Ranks, parent: NodeId, child: NodeId): (r: ConnectOutcome)
    requires Ranked(nodes, rank)
    ensures r == WouldCycle <==> ConnectGuards(nodes, parents, parent, child) == Connected && IsDescendant(nodes, rank, child, parent)
    ensures r == Connected <==> ConnectGuards(nodes, parents, parent, child) == Connected && !IsDescendant(nodes, rank, child, parent)
    ensures r != WouldCycle ==> r == ConnectGuards(nodes, parents, parent, child)
  {
    var guards := ConnectGuards(nodes, parents, parent, child);
    if guards != Connected then guards
    else if IsDescendant(nodes, rank, child, parent) then WouldCycle
    else Connected
  }

  /** Why `move_subtree` declines, in the order the source tests it. */
  datatype MoveOutcome = Moved | MissingEndpoint | IntoOwnSubtree

  /** The guards of `move_subtree` as written: both ids must exist and the new parent must
      not lie strictly below the node. */
  function MoveGuards(nodes: Nodes, ghost rank: Ranks, node: NodeId, newParent: NodeId): (r: MoveOutcome)
    requires Ranked(nodes, rank)
    ensures r == MissingEndpoint <==> node !in nodes || newParent !in nodes
    ensures r == IntoOwnSubtree <==> node in nodes && newParent in nodes && IsDescendant(nodes, rank, node, newParent)
    ensures r == Moved <==> node in nodes && newParent in nodes && !IsDescendant(nodes, rank, node, newParent)
  {
    if node !in nodes || newParent !in nodes then MissingEndpoint
    else if IsDescendant(nodes, rank, node, newParent) then IntoOwnSubtree
    else Moved
  }

  /** The guards of `move_subtree` with the subtree of the node taken to include the node
      itself, so that a node is never moved under itself. */
  function MoveCheck(nodes: Nodes, ghost rank: Ranks, node: NodeId, newParent: NodeId): (r: MoveOutcome)
    requires Ranked(nodes, rank)
    ensures r == MissingEndpoint <==> node !in nodes || newParent !in nodes
    ensures r == IntoOwnSubtree <==> node in nodes && newParent in nodes && InSubtree(nodes, rank, node, newParent)
    ensures r == Moved <==> node in nodes && newParent in nodes && !InSubtree(nodes, rank, node, newParent)
    ensures r != Moved ==> MoveGuards(nodes, rank, node, newParent) != Moved || node == newParent
  {
    var guards := MoveGuards(nodes, rank, node, newParent);
    if guards == Moved && node == newParent then IntoOwnSubtree else guards
  }

  /** A ranking of the relinked tree: the moved subtree keeps its ranks and everything
      else is lifted above it, so the new edge `newParent -> node` points downward. */
  ghost function Rerank(nodes: Nodes, rank: Ranks, node: NodeId): (r: Ranks)
    requires Ranked(nodes, rank) && node in nodes
    ensures r.Keys == rank.Keys
  {
    map z | z in rank :: if InSubtree(nodes, rank, node, z) then rank[z] else rank[z] + rank[node] + 1
  }

  // ---------------------------------------------------------------------------
  // Facts about `is_descendant`

  /** Ranks strictly decrease along every descendant chain. */
  lemma {:induction false} DescendantRanksBelow(nodes: Nodes, rank: Ranks, a: NodeId, b: NodeId)
    requires Ranked(nodes, rank)
    requires IsDescendant(nodes, rank, a, b)
    ensures a in rank && b in rank && rank[b] < rank[a]
    decreases rank[a]
  {
    if b !in nodes[a].children {
      var c :| c in nodes[a].children && IsDescendant(nodes, rank, c, b);
      DescendantRanksBelow(nodes, rank, c, b);
    }
  }

  /** In a ranked tree no node is its own descendant, so `is_descendant(x, x)` is false. */
  lemma NotOwnDescendant(nodes: Nodes, rank: Ranks, a: NodeId)
    requires Ranked(nodes, rank)
    ensures !IsDescendant(nodes, rank, a, a)
  {
    if IsDescendant(nodes, rank, a, a) {
      DescendantRanksBelow(nodes, rank, a, a);
    }
  }

  /** A child of a descendant is a descendant. */
  lemma {:induction false} DescendantThrough(nodes: Nodes, rank: Ranks, a: NodeId, p: NodeId, c: NodeId)
    requires Ranked(nodes, rank)
    requires IsDescendant(nodes, rank, a, p) && p in nodes && c in nodes[p].children
    ensures IsDescendant(nodes, rank, a, c)
    decreases rank[a]
  {
    if p in nodes[a].children {
      assert IsDescendant(nodes, rank, p, c);
    } else {
      var d :| d in nodes[a].children && IsDescendant(nodes, rank, d, p);
      DescendantThrough(nodes, rank, d, p, c);
    }
  }

  /** Every descendant of `a` hangs, through `parent_map`, either from `a` or from another descendant of `a`. */
  lemma {:induction false} DescendantParentStep(nodes: Nodes, parents: Parents, rank: Ranks, a: NodeId, b: NodeId)
    requires Linked(nodes, parents) && Ranked(nodes, rank)
    requires IsDescendant(nodes, rank, a, b)
    ensures b in parents && (parents[b] == a || IsDescendant(nodes, rank, a, parents[b]))
    decreases rank[a]
  {
    if b !in nodes[a].children {
      var c :| c in nodes[a].children && IsDescendant(nodes, rank, c, b);
      DescendantParentStep(nodes, parents, rank, c, b);
      if parents[b] != c {
        assert IsDescendant(nodes, rank, a, parents[b]);
      }
    }
  }

  /** `is_descendant(a, b)` searches child sets downward; it holds exactly when `a` is
      reached from `b` by walking `parent_map` upward one or more times. */
  lemma DescendantIffAncestor(nodes: Nodes, parents: Parents, rank: Ranks, a: NodeId, b: NodeId)
    requires Linked(nodes, parents) && Ranked(nodes, rank)
    ensures IsDescendant(nodes, rank, a, b) <==> exists k: nat :: 1 <= k && AncestorAt(parents, a, b, k)
  {
    if IsDescendant(nodes, rank, a, b) {
      var k := DescendantHasAncestorPath(nodes, parents, rank, a, b);
      assert 1 <= k && AncestorAt(parents, a, b, k);
      assert exists j: nat :: 1 <= j && AncestorAt(parents, a, b, j);
    } else {
      forall k: nat | 1 <= k && AncestorAt(parents, a, b, k)
        ensures false
      {
        AncestorPathIsDescendant(nodes, parents, rank, a, b, k);
      }
    }
  }

  lemma {:induction false} DescendantHasAncestorPath(nodes: Nodes, parents: Parents, rank: Ranks, a: NodeId, b: NodeId)
    returns (k: nat)
    requires Linked(nodes, parents) && Ranked(nodes, rank)
    requires IsDescendant(nodes, rank, a, b)
    ensures 1 <= k && AncestorAt(parents, a, b, k)
    decreases if a in rank && b in rank && rank[b] < rank[a] then rank[a] - rank[b] else 0
  {
    DescendantParentStep(nodes, parents, rank, a, b);
    DescendantRanksBelow(nodes, rank, a, b);
    if parents[b] == a {
      k := 1;
    } else {
      DescendantRanksBelow(nodes, rank, a, parents[b]);
      var j := DescendantHasAncestorPath(nodes, parents, rank, a, parents[b]);
      k := j + 1;
    }
  }

  lemma {:induction false} AncestorPathIsDescendant(nodes: Nodes, parents: Parents, rank: Ranks, a: NodeId, b: NodeId, k: nat)
    requires Linked(nodes, parents) && Ranked(nodes, rank)
    requires 1 <= k && AncestorAt(parents, a, b, k)
    ensures IsDescendant(nodes, rank, a, b)
    decreases k
  {
    if k == 1 {
      assert b in nodes[a].children;
    } else {
      AncestorPathIsDescendant(nodes, parents, rank, a, parents[b], k - 1);
      DescendantThrough(nodes, rank, a, parents[b], b);
    }
  }

  /** The subtree of a node is closed under taking children. */
  lemma SubtreeClosed(nodes: Nodes, rank: Ranks, a: NodeId, p: NodeId, c: NodeId)
    requires Ranked(nodes, rank)
    requires InSubtree(nodes, rank, a, p) && p in nodes && c in nodes[p].children
    ensures InSubtree(nodes, rank, a, c)
  {
    if p == a {
      assert IsDescendant(nodes, rank, a, c);
    } else {
      DescendantThrough(nodes, rank, a, p, c);
    }
  }

  /** Apart from its root, a subtree contains the parent of each of its nodes. */
  lemma SubtreeHoldsParent(nodes: Nodes, parents: Parents, rank: Ranks, a: NodeId, z: NodeId)
    requires Linked(nodes, parents) && Ranked(nodes, rank)
    requires InSubtree(nodes, rank, a, z) && z != a
    ensures z in parents && InSubtree(nodes, rank, a, parents[z])
  {
    DescendantParentStep(nodes, parents, rank, a, z);
  }

  /** A node never lies in the subtree of one of its own children. */
  lemma ParentOutsideChildSubtree(nodes: Nodes, rank: Ranks, n: NodeId, c: NodeId)
    requires Ranked(nodes, rank)
    requires n in nodes && c in nodes[n].children
    ensures !InSubtree(nodes, rank, c, n)
  {
    if IsDescendant(nodes, rank, c, n) {
      DescendantRanksBelow(nodes, rank, c, n);
    }
  }

  /** The subtrees of two different children of one node share no node. */
  lemma {:induction false} SiblingSubtreesDisjoint(nodes: Nodes, parents: Parents, rank: Ranks, n: NodeId, c1: NodeId, c2: NodeId, z: NodeId)
    requires Linked(nodes, parents) && Ranked(nodes, rank)
    requires n in nodes && c1 in nodes[n].children && c2 in nodes[n].children && c1 != c2
    ensures !(InSubtree(nodes, rank, c1, z) && InSubtree(nodes, rank, c2, z))
    decreases if c1 in rank && z in rank && rank[z] <= rank[c1] then rank[c1] - rank[z] else 0
  {
    if InSubtree(nodes, rank, c1, z) && InSubtree(nodes, rank, c2, z) {
      if z == c1 || z == c2 {
        var top, low := if z == c1 then c2 else c1, z;
        // `low` is a child of `n` lying strictly below its sibling `top`, so `n` lies below `top` as well.
        DescendantParentStep(nodes, parents, rank, top, low);
        if parents[low] == top {
          assert false;
        } else {
          DescendantRanksBelow(nodes, rank, top, n);
          assert false;
        }
      } else {
        SubtreeHoldsParent(nodes, parents, rank, c1, z);
        SubtreeHoldsParent(nodes, parents, rank, c2, z);
        DescendantRanksBelow(nodes, rank, c1, z);
        if parents[z] != c1 {
          DescendantRanksBelow(nodes, rank, c1, parents[z]);
        }
        SiblingSubtreesDisjoint(nodes, parents, rank, n, c1, c2, parents[z]);
      }
    }
  }

  // ---------------------------------------------------------------------------
  // Structural updates keep the forest

  /** The edges of the relinked tree: the one edge into `node` comes from `newParent`,
      and every other edge was already there. */
  lemma RelinkedEdge(nodes: Nodes, parents: Parents, node: NodeId, newParent: NodeId, p: NodeId, c: NodeId)
    requires Linked(nodes, parents) && node in nodes && newParent in nodes
    requires p in nodes && c in Relinked(nodes, parents, node, newParent)[p].children
    ensures c == node ==> p == newParent
    ensures c != node ==> c in nodes[p].children
    ensures c in nodes && parents[node := newParent][c] == p
  {
  }

  /** A successful `move_subtree(node, newParent)` keeps child sets and `parent_map` in agreement. */
  lemma MoveKeepsLinked(nodes: Nodes, parents: Parents, node: NodeId, newParent: NodeId)
    requires Linked(nodes, parents)
    requires node in nodes && newParent in nodes
    ensures Linked(Relinked(nodes, parents, node, newParent), parents[node := newParent])
  {
    var n' := Relinked(nodes, parents, node, newParent);
    var p' := parents[node := newParent];
    forall p, c {:trigger c in n'[p].children} | p in n' && c in n'[p].children
      ensures c in n' && c in p' && p'[c] == p
    {
      RelinkedEdge(nodes, parents, node, newParent, p, c);
    }
    forall c | c in p'
      ensures c in n' && p'[c] in n' && c in n'[p'[c]].children
    {
      RelinkedKeepsParentEdge(nodes, parents, node, newParent, c);
    }
  }

  /** Every parent entry of the moved tree is backed by a child-set entry. */
  lemma RelinkedKeepsParentEdge(nodes: Nodes, parents: Parents, node: NodeId, newParent: NodeId, c: NodeId)
    requires Linked(nodes, parents)
    requires node in nodes && newParent in nodes && c in parents[node := newParent]
    ensures var n' := Relinked(nodes, parents, node, newParent);
      c in n' && parents[node := newParent][c] in n' && c in n'[parents[node := newParent][c]].children
  {
    if c != node {
      var q := parents[c];
      assert c in nodes[q].children;
      assert c in Detach(nodes, parents, node)[q].children;
    }
  }

  /** A successful `move_subtree(node, newParent)` with `node != newParent` leaves the tree
      acyclic: `Rerank` ranks the result. */
  lemma MoveKeepsRanked(nodes: Nodes, parents: Parents, rank: Ranks, node: NodeId, newParent: NodeId)
    requires Linked(nodes, parents) && Ranked(nodes, rank)
    requires node in nodes && newParent in nodes && node != newParent
    requires !IsDescendant(nodes, rank, node, newParent)
    ensures Ranked(Relinked(nodes, parents, node, newParent), Rerank(nodes, rank, node))
  {
    var n' := Relinked(nodes, parents, node, newParent);
    var r' := Rerank(nodes, rank, node);
    assert forall k :: k in n' ==> k in r';
    forall p, c {:trigger c in n'[p].children} | p in n' && c in n'[p].children
      ensures p in r' && c in r' && r'[c] < r'[p]
    {
      RerankedEdge(nodes, parents, rank, node, newParent, p, c);
    }
  }

  /** One edge of the moved tree points downward in `Rerank`. */
  lemma RerankedEdge(nodes: Nodes, parents: Parents, rank: Ranks, node: NodeId, newParent: NodeId, p: NodeId, c: NodeId)
    requires Linked(nodes, parents) && Ranked(nodes, rank)
    requires node in nodes && newParent in nodes && node != newParent
    requires !IsDescendant(nodes, rank, node, newParent)
    requires p in nodes && c in Relinked(nodes, parents, node, newParent)[p].children
    ensures var r' := Rerank(nodes, rank, node); p in r' && c in r' && r'[c] < r'[p]
  {
    RelinkedEdge(nodes, parents, node, newParent, p, c);
    if c == node {
      assert !InSubtree(nodes, rank, node, newParent);
    } else if InSubtree(nodes, rank, node, p) {
      SubtreeClosed(nodes, rank, node, p, c);
    } else if InSubtree(nodes, rank, node, c) {
      SubtreeHoldsParent(nodes, parents, rank, node, c);
      assert false;
    }
  }

  /** Both halves together: a move that passes `MoveCheck` keeps the forest. */
  lemma MoveKeepsForest(nodes: Nodes, parents: Parents, rank: Ranks, node: NodeId, newParent: NodeId)
    requires Linked(nodes, parents) && Ranked(nodes, rank)
    requires MoveCheck(nodes, rank, node, newParent) == Moved
    ensures Linked(Relinked(nodes, parents, node, newParent), parents[node := newParent])
    ensures Ranked(Relinked(nodes, parents, node, newParent), Rerank(nodes, rank, node))
  {
    MoveKeepsLinked(nodes, parents, node, newParent);
    MoveKeepsRanked(nodes, parents, rank, node, newParent);
  }

  /** A successful `connect_nodes(parent, child)` on a parentless child is the same
      relinking as a move, so it keeps the forest whenever it closes no cycle. */
  lemma ConnectKeepsForest(nodes: Nodes, parents: Parents, rank: Ranks, parent: NodeId, child: NodeId)
    requires Linked(nodes, parents) && Ranked(nodes, rank)
    requires ConnectGuards(nodes, parents, parent, child) == Connected
    requires !IsDescendant(nodes, rank, child, parent)
    ensures Attach(nodes, parent, child) == Relinked(nodes, parents, child, parent)
    ensures Linked(Attach(nodes, parent, child), parents[child := parent])
    ensures Ranked(Attach(nodes, parent, child), Rerank(nodes, rank, child))
  {
    assert Detach(nodes, parents, child) == nodes;
    MoveKeepsForest(nodes, parents, rank, child, parent);
  }

  // ---------------------------------------------------------------------------
  // The two guard gaps of the source, as written

  /** `move_subtree(x, x)` passes both guards of the source and then makes `x` its own
      child, a self-loop that no ranking admits. */
  lemma SelfMoveLoops(nodes: Nodes, parents: Parents, rank: Ranks, x: NodeId)
    requires Linked(nodes, parents) && Ranked(nodes, rank) && x in nodes
    ensures MoveGuards(nodes, rank, x, x) == Moved
    ensures x in Relinked(nodes, parents, x, x)[x].children
    ensures forall r :: !Ranked(Relinked(nodes, parents, x, x), r)
  {
    NotOwnDescendant(nodes, rank, x);
  }

  /** `connect_nodes(p, c)` passes every guard of src/lib.rs when `c` is a root above `p`,
      and the new edge then closes a cycle that no ranking admits. */
  lemma ConnectMayCloseCycle(nodes: Nodes, parents: Parents, rank: Ranks, parent: NodeId, child: NodeId)
    requires Linked(nodes, parents) && Ranked(nodes, rank)
    requires parent in nodes && child !in parents && IsDescendant(nodes, rank, child, parent)
    ensures ConnectGuards(nodes, parents, parent, child) == Connected
    ensures forall r :: !Ranked(Attach(nodes, parent, child), r)
  {
    NotOwnDescendant(nodes, rank, child);
    forall r | Ranked(Attach(nodes, parent, child), r)
      ensures false
    {
      DescendantRanksIn(nodes, rank, Attach(nodes, parent, child), r, child, parent);
    }
  }

  /** A descendant in `nodes` ranks below its ancestor in any ranking of a tree with more edges. */
  lemma {:induction false} DescendantRanksIn(nodes: Nodes, rank: Ranks, bigger: Nodes, r: Ranks, a: NodeId, b: NodeId)
    requires Ranked(nodes, rank) && Ranked(bigger, r)
    requires forall k :: k in nodes ==> k in bigger && nodes[k].children <= bigger[k].children
    requires IsDescendant(nodes, rank, a, b)
    ensures a in r && b in r && r[b] < r[a]
    decreases rank[a]
  {
    if b !in nodes[a].children {
      var c :| c in nodes[a].children && IsDescendant(nodes, rank, c, b);
      DescendantRanksIn(nodes, rank, bigger, r, c, b);
    }
  }
}
