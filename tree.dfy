/**
  The mutable `Tree` of src/lib.rs: its two hash maps become two map-valued fields
  that the methods reassign, with a ghost ranking that witnesses acyclicity.
 */
module PermissionTree {
  import opened Forest
  import opened Propagation

  /** Moving one element from `pending` to `done` keeps them a partition of `kids`. */
  lemma TakeOne(done: set<NodeId>, pending: set<NodeId>, kids: set<NodeId>, c: NodeId)
    requires done + pending == kids && done !! pending && c in pending
    ensures (done + {c}) + (pending - {c}) == kids && (done + {c}) !! (pending - {c})
  {
  }

  class Tree {
    /** `Tree::nodes`: node id to node. */
    var nodes: Nodes
    /** `Tree::parent_map`: child id to parent id. */
    var parentMap: Parents
    /** A height for every node, strictly decreasing along child edges. */
    ghost var rank: Ranks

    /** The two maps describe an acyclic forest, in both directions. */
    ghost predicate Shaped()
      reads this
    {
      Linked(nodes, parentMap) && Ranked(nodes, rank)
    }

    /** The invariant the public operations keep: a forest in which every child of a
        Private node is Private. */
    ghost predicate Valid()
      reads this
    {
      Shaped() && Inherited(nodes)
    }

    /** `Tree::new`. */
    constructor ()
      ensures Valid()
      ensures nodes == map[] && parentMap == map[]
    {
      nodes := map[];
      parentMap := map[];
      rank := map[];
    }

    /** `add_node`: an existing id is left alone; otherwise a childless, parentless node appears. */
    method AddNode(id: NodeId, permission: Permission)
      requires Valid()
      modifies this
      ensures Valid()
      ensures nodes == if id in old(nodes) then old(nodes) else old(nodes)[id := TreeNode(id, permission, {})]
      ensures parentMap == old(parentMap)
    {
      if id in nodes {
        return;
      }
      nodes := nodes[id := TreeNode(id, permission, {})];
      rank := rank[id := 0];
    }

    /** `is_descendant`: `b` lies strictly below `a`, that is, `a` is an ancestor of `b`
        through `parent_map`; in particular no node is its own descendant. */
    function IsDescendantOf(a: NodeId, b: NodeId): (r: bool)
      reads this
      requires Shaped()
      ensures r <==> exists k: nat :: 1 <= k && AncestorAt(parentMap, a, b, k)
      ensures r ==> a != b
    {
      DescendantIffAncestor(nodes, parentMap, rank, a, b);
      NotOwnDescendant(nodes, rank, a);
      IsDescendant(nodes, rank, a, b)
    }

    /** `update_permission(n)`: returns at once if `n` is Private; otherwise copies Private
        from `n`'s parent and recurses into a snapshot of `n`'s children, in any order. */
    method UpdatePermission(n: NodeId)
      requires Shaped()
      modifies this`nodes
      ensures Shaped()
      ensures nodes == Propagated(old(nodes), parentMap, rank, n)
      decreases if n in rank then rank[n] else 0, 1
    {
      if n in nodes && nodes[n].permission == Private {
        return;
      }
      ghost var start := nodes;
      if n in parentMap && parentMap[n] in nodes && nodes[parentMap[n]].permission == Private {
        if n in nodes {
          nodes := nodes[n := nodes[n].(permission := Private)];
        }
      }
      if n in nodes {
        PartialStart(start, parentMap, rank, n);
        UpdateChildren(n, start);
        SameShapeKeepsForest(start, nodes, parentMap, rank);
      }
    }

    /** The loop of `update_permission(n)` over the snapshot of `n`'s children, after `n`
        itself has been handled: each child's call adds that child's share. */
    method UpdateChildren(n: NodeId, ghost start: Nodes)
      requires Linked(start, parentMap) && Ranked(start, rank)
      requires n in start && start[n].permission == Public
      requires nodes == Partial(start, parentMap, rank, n, {})
      modifies this`nodes
      ensures nodes == Propagated(start, parentMap, rank, n)
      decreases if n in rank then rank[n] else 0, 0
    {
      var kids := nodes[n].children;
      assert kids == start[n].children;
      var pending := kids;
      ghost var done: set<NodeId> := {};
      while pending != {}
        invariant done + pending == kids && done !! pending
        invariant nodes == Partial(start, parentMap, rank, n, done)
        decreases |pending|
      {
        var c :| c in pending;
        PartialStep(start, parentMap, rank, n, done, c);
        SameShapeKeepsForest(start, nodes, parentMap, rank);
        TakeOne(done, pending, kids, c);
        UpdatePermission(c);
        done := done + {c};
        pending := pending - {c};
      }
      assert done == kids;
      PartialComplete(start, parentMap, rank, n);
    }

    /** `connect_nodes` of src/lib.rs: rejected, with nothing changed, when an id is missing,
        when a node would be its own parent, or when the child already has a parent
        (tested in that order), and also when the parent lies below the child, which the
        source does not test; otherwise the edge is recorded in both maps and the child's
        subtree inherits Private from the parent. */
    method ConnectNodes(parentId: NodeId, childId: NodeId) returns (status: ConnectOutcome)
      requires Valid()
      modifies this
      ensures Valid()
      ensures status == ConnectCheck(old(nodes), old(parentMap), old(rank), parentId, childId)
      ensures status != Connected ==> nodes == old(nodes) && parentMap == old(parentMap)
      ensures status == Connected ==> parentMap == old(parentMap)[childId := parentId]
      ensures status == Connected ==> Ranked(Attach(old(nodes), parentId, childId), rank)
      ensures status == Connected ==> nodes == Propagated(Attach(old(nodes), parentId, childId), parentMap, rank, childId)
    {
      status := ConnectCheck(nodes, parentMap, rank, parentId, childId);
      if status != Connected {
        return;
      }
      Attached(parentId, childId);
    }

    /** `connect_nodes` of src/main.rs: only a missing id is rejected.  The source then
        records the edge whatever the child's current parent; keeping the forest needs a
        parentless child other than the parent that does not lie above it. */
    method ConnectNodesLegacy(parentId: NodeId, childId: NodeId) returns (connected: bool)
      requires Valid()
      requires parentId in nodes && childId in nodes ==>
        parentId != childId && childId !in parentMap && !IsDescendant(nodes, rank, childId, parentId)
      modifies this
      ensures Valid()
      ensures connected <==> parentId in old(nodes) && childId in old(nodes)
      ensures !connected ==> nodes == old(nodes) && parentMap == old(parentMap)
      ensures connected ==> parentMap == old(parentMap)[childId := parentId]
      ensures connected ==> Ranked(Attach(old(nodes), parentId, childId), rank)
      ensures connected ==> nodes == Propagated(Attach(old(nodes), parentId, childId), parentMap, rank, childId)
    {
      connected := parentId in nodes && childId in nodes;
      if !connected {
        return;
      }
      Attached(parentId, childId);
    }

    /** The effect shared by both versions of `connect_nodes` once the guards have passed. */
    method Attached(parentId: NodeId, childId: NodeId)
      requires Valid()
      requires ConnectGuards(nodes, parentMap, parentId, childId) == Connected
      requires !IsDescendant(nodes, rank, childId, parentId)
      modifies this
      ensures Valid()
      ensures parentMap == old(parentMap)[childId := parentId]
      ensures Ranked(Attach(old(nodes), parentId, childId), rank)
      ensures nodes == Propagated(Attach(old(nodes), parentId, childId), parentMap, rank, childId)
    {
      ConnectKeepsForest(nodes, parentMap, rank, parentId, childId);
      RelinkedInheritsExceptMoved(nodes, parentMap, childId, parentId);
      rank := Rerank(nodes, rank, childId);
      nodes := nodes[parentId := nodes[parentId].(children := nodes[parentId].children + {childId})];
      parentMap := parentMap[childId := parentId];
      ghost var linked := nodes;
      PropagationRestoresInheritance(linked, parentMap, rank, childId);
      UpdatePermission(childId);
    }

    /** `move_subtree(x, y)`: rejected, with nothing changed, when an id is missing or `y`
        lies in `x`'s subtree, `x` itself included, which the source does not test;
        otherwise `x` leaves its old parent's child set, joins `y`'s, and its subtree
        inherits Private from `y`. */
    method MoveSubtree(x: NodeId, y: NodeId) returns (status: MoveOutcome)
      requires Valid()
      modifies this
      ensures Valid()
      ensures status == MoveCheck(old(nodes), old(rank), x, y)
      ensures status != Moved ==> nodes == old(nodes) && parentMap == old(parentMap)
      ensures status == Moved ==> parentMap == old(parentMap)[x := y]
      ensures status == Moved ==> Ranked(Relinked(old(nodes), old(parentMap), x, y), rank)
      ensures status == Moved ==> nodes == Propagated(Relinked(old(nodes), old(parentMap), x, y), parentMap, rank, x)
    {
      status := MoveCheck(nodes, rank, x, y);
      if status != Moved {
        return;
      }
      MoveKeepsForest(nodes, parentMap, rank, x, y);
      RelinkedInheritsExceptMoved(nodes, parentMap, x, y);
      rank := Rerank(nodes, rank, x);
      nodes := Detach(nodes, parentMap, x);
      nodes := Attach(nodes, y, x);
      parentMap := parentMap[x := y];
      PropagationRestoresInheritance(nodes, parentMap, rank, x);
      UpdatePermission(x);
    }
  }
}
