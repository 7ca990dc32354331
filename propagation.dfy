/**
  What `update_permission(n)` in src/lib.rs does to the permissions of a tree, stated
  in closed form: when `n` is Public under a Private parent, every node that `n`
  reaches through Public nodes only becomes Private, and nothing else changes.
  The recursion of the source is related to this closed form step by step.
 */
module Propagation {
  import opened Forest

  /** Two node maps that differ at most in permissions. */
  ghost predicate SameShape(nodes: Nodes, other: Nodes) {
    && nodes.Keys == other.Keys
    && forall k :: k in nodes ==> other[k].id == nodes[k].id && other[k].children == nodes[k].children
  }

  /** Permissions do not take part in the forest invariants. */
  lemma SameShapeKeepsForest(nodes: Nodes, other: Nodes, parents: Parents, rank: Ranks)
    requires SameShape(nodes, other)
    ensures Linked(nodes, parents) ==> Linked(other, parents)
    ensures Ranked(nodes, rank) ==> Ranked(other, rank)
  {
  }

  /** Every edge leaving a Private node ends in a Private node. */
  ghost predicate Inherited(nodes: Nodes) {
    forall p, c {:trigger c in nodes[p].children} ::
      p in nodes && c in nodes[p].children && nodes[p].permission == Private ==> c in nodes && nodes[c].permission == Private
  }

  /** In an inheriting tree the whole subtree of a Private node is Private, which is why
      `update_permission` may stop at a Private node. */
  lemma {:induction false} PrivateSubtree(nodes: Nodes, rank: Ranks, a: NodeId, b: NodeId)
    requires Ranked(nodes, rank) && Inherited(nodes)
    requires a in nodes && nodes[a].permission == Private && IsDescendant(nodes, rank, a, b)
    ensures b in nodes && nodes[b].permission == Private
    decreases rank[a]
  {
    if b !in nodes[a].children {
      var c :| c in nodes[a].children && IsDescendant(nodes, rank, c, b);
      DescendantRanksBelow(nodes, rank, a, c);
      PrivateSubtree(nodes, rank, c, b);
    }
  }

  /** `Inherited`, except perhaps for the edge that ends in `n`. */
  ghost predicate InheritedExceptInto(nodes: Nodes, n: NodeId) {
    forall p, c {:trigger c in nodes[p].children} ::
      p in nodes && c in nodes[p].children && c != n && nodes[p].permission == Private ==> c in nodes && nodes[c].permission == Private
  }

  /** `z` is reached from `x` along child edges through Public nodes only, both ends included. */
  ghost predicate PublicPath(nodes: Nodes, rank: Ranks, x: NodeId, z: NodeId)
    requires Ranked(nodes, rank)
    decreases if x in rank then rank[x] else 0
  {
    x in nodes && nodes[x].permission == Public &&
    (z == x || exists c :: c in nodes[x].children && PublicPath(nodes, rank, c, z))
  }

  /** The nodes reached from some node of `roots` through Public nodes only. */
  ghost function Covered(nodes: Nodes, rank: Ranks, roots: set<NodeId>): set<NodeId>
    requires Ranked(nodes, rank)
  {
    set z | z in nodes && exists c :: c in roots && PublicPath(nodes, rank, c, z)
  }

  /** Every node of `s` turned Private. */
  ghost function MarkPrivate(nodes: Nodes, s: set<NodeId>): Nodes {
    map k | k in nodes :: if k in s then nodes[k].(permission := Private) else nodes[k]
  }

  /** `update_permission(n)` writes `n` only when `n` is Public and its parent is Private. */
  predicate Triggers(nodes: Nodes, parents: Parents, n: NodeId) {
    && n in nodes && nodes[n].permission == Public
    && n in parents && parents[n] in nodes && nodes[parents[n]].permission == Private
  }

  /** The permissions after `update_permission(n)`. */
  ghost function Propagated(nodes: Nodes, parents: Parents, rank: Ranks, n: NodeId): (r: Nodes)
    requires Ranked(nodes, rank)
    ensures SameShape(nodes, r)
    ensures forall k :: k in nodes && r[k] != nodes[k] ==>
      nodes[k].permission == Public && r[k] == nodes[k].(permission := Private)
    ensures n in nodes && nodes[n].permission == Private ==> r == nodes
  {
    if Triggers(nodes, parents, n) then MarkPrivate(nodes, Covered(nodes, rank, {n})) else nodes
  }

  // ---------------------------------------------------------------------------
  // Facts about Public paths

  /** A Public path stays inside the subtree it starts from. */
  lemma {:induction false} PublicPathInSubtree(nodes: Nodes, rank: Ranks, x: NodeId, z: NodeId)
    requires Ranked(nodes, rank)
    requires PublicPath(nodes, rank, x, z)
    ensures InSubtree(nodes, rank, x, z)
    decreases rank[x]
  {
    if z != x {
      var c :| c in nodes[x].children && PublicPath(nodes, rank, c, z);
      PublicPathInSubtree(nodes, rank, c, z);
      if c != z {
        assert IsDescendant(nodes, rank, x, z);
      }
    }
  }

  /** A Public path extends by any Public child of its last node. */
  lemma {:induction false} PublicPathExtends(nodes: Nodes, rank: Ranks, x: NodeId, p: NodeId, c: NodeId)
    requires Ranked(nodes, rank)
    requires PublicPath(nodes, rank, x, p) && p in nodes && c in nodes[p].children
    requires c in nodes && nodes[c].permission == Public
    ensures PublicPath(nodes, rank, x, c)
    decreases rank[x]
  {
    if p == x {
      assert PublicPath(nodes, rank, c, c);
    } else {
      var d :| d in nodes[x].children && PublicPath(nodes, rank, d, p);
      PublicPathExtends(nodes, rank, d, p, c);
    }
  }

  /** Public paths from `x` depend only on the permissions inside `x`'s subtree. */
  lemma {:induction false} PublicPathFrame(nodes: Nodes, other: Nodes, rank: Ranks, x: NodeId, z: NodeId)
    requires Ranked(nodes, rank) && SameShape(nodes, other)
    requires forall k :: k in nodes && InSubtree(nodes, rank, x, k) ==> other[k].permission == nodes[k].permission
    ensures Ranked(other, rank)
    ensures PublicPath(nodes, rank, x, z) == PublicPath(other, rank, x, z)
    decreases if x in rank then rank[x] else 0
  {
    SameShapeKeepsForest(nodes, other, map[], rank);
    if x in nodes {
      forall c | c in nodes[x].children
        ensures PublicPath(nodes, rank, c, z) == PublicPath(other, rank, c, z)
      {
        forall k | k in nodes && InSubtree(nodes, rank, c, k)
          ensures InSubtree(nodes, rank, x, k)
        {
          if k == c {
            assert IsDescendant(nodes, rank, x, k);
          } else {
            DescendantOfChild(nodes, rank, x, c, k);
          }
        }
        PublicPathFrame(nodes, other, rank, c, z);
      }
    }
  }

  /** A descendant of a child is a descendant. */
  lemma DescendantOfChild(nodes: Nodes, rank: Ranks, x: NodeId, c: NodeId, k: NodeId)
    requires Ranked(nodes, rank)
    requires x in nodes && c in nodes[x].children && IsDescendant(nodes, rank, c, k)
    ensures IsDescendant(nodes, rank, x, k)
  {
  }

  // ---------------------------------------------------------------------------
  // What `update_permission` promises

  /** `update_permission(n)` changes only nodes of `n`'s subtree. */
  lemma PropagatedWithinSubtree(nodes: Nodes, parents: Parents, rank: Ranks, n: NodeId)
    requires Ranked(nodes, rank)
    ensures forall k :: k in nodes && Propagated(nodes, parents, rank, n)[k] != nodes[k] ==> InSubtree(nodes, rank, n, k)
  {
    forall k | k in nodes && Propagated(nodes, parents, rank, n)[k] != nodes[k]
      ensures InSubtree(nodes, rank, n, k)
    {
      assert PublicPath(nodes, rank, n, k);
      PublicPathInSubtree(nodes, rank, n, k);
    }
  }

  /** When the only edge that may break "Private parent, Private child" is the one into `n`,
      `update_permission(n)` repairs it, and the whole tree inherits again. */
  lemma PropagationRestoresInheritance(nodes: Nodes, parents: Parents, rank: Ranks, n: NodeId)
    requires Linked(nodes, parents) && Ranked(nodes, rank)
    requires InheritedExceptInto(nodes, n)
    ensures Inherited(Propagated(nodes, parents, rank, n))
  {
    var r := Propagated(nodes, parents, rank, n);
    forall p, c {:trigger c in r[p].children} | p in r && c in r[p].children && r[p].permission == Private
      ensures c in r && r[c].permission == Private
    {
      assert c in nodes[p].children;
      if c == n {
        assert parents[n] == p;
      } else if nodes[p].permission == Public {
        // `p` was turned Private, so it lies on a Public path from `n`.
        assert PublicPath(nodes, rank, n, p);
        if nodes[c].permission == Public {
          PublicPathExtends(nodes, rank, n, p, c);
        }
      }
    }
  }

  // ---------------------------------------------------------------------------
  // The recursion of `update_permission`, one child at a time

  /** The permissions once `n` has been handled and so have the children in `done`. */
  ghost function Partial(nodes: Nodes, parents: Parents, rank: Ranks, n: NodeId, done: set<NodeId>): Nodes
    requires Ranked(nodes, rank)
  {
    if Triggers(nodes, parents, n) then MarkPrivate(nodes, {n} + Covered(nodes, rank, done)) else nodes
  }

  /** Marking twice is marking the union. */
  lemma MarkPrivateTwice(nodes: Nodes, a: set<NodeId>, b: set<NodeId>)
    ensures MarkPrivate(MarkPrivate(nodes, a), b) == MarkPrivate(nodes, a + b)
  {
  }

  /** Handling `n` itself and none of its children yet: the one write of the source. */
  lemma PartialStart(nodes: Nodes, parents: Parents, rank: Ranks, n: NodeId)
    requires Ranked(nodes, rank) && n in nodes && nodes[n].permission == Public
    ensures Partial(nodes, parents, rank, n, {}) ==
      if Triggers(nodes, parents, n) then nodes[n := nodes[n].(permission := Private)] else nodes
  {
    assert Covered(nodes, rank, {}) == {};
  }

  /** Handling every child of `n` gives the closed form. */
  lemma PartialComplete(nodes: Nodes, parents: Parents, rank: Ranks, n: NodeId)
    requires Ranked(nodes, rank) && n in nodes && nodes[n].permission == Public
    ensures Partial(nodes, parents, rank, n, nodes[n].children) == Propagated(nodes, parents, rank, n)
  {
    assert {n} + Covered(nodes, rank, nodes[n].children) == Covered(nodes, rank, {n});
  }

  /** Before `update_permission(c)` runs, nothing in `c`'s subtree has been written. */
  lemma PartialUntouched(nodes: Nodes, parents: Parents, rank: Ranks, n: NodeId, done: set<NodeId>, c: NodeId, k: NodeId)
    requires Linked(nodes, parents) && Ranked(nodes, rank)
    requires n in nodes && done <= nodes[n].children && c in nodes[n].children && c !in done
    requires InSubtree(nodes, rank, c, k)
    ensures k != n && k !in Covered(nodes, rank, done)
  {
    ParentOutsideChildSubtree(nodes, rank, n, c);
    if k in Covered(nodes, rank, done) {
      var d :| d in done && PublicPath(nodes, rank, d, k);
      PublicPathInSubtree(nodes, rank, d, k);
      SiblingSubtreesDisjoint(nodes, parents, rank, n, c, d, k);
    }
  }

  /** `update_permission(c)` on the next child `c` of `n` extends the partial result by `c`'s share. */
  lemma PartialStep(nodes: Nodes, parents: Parents, rank: Ranks, n: NodeId, done: set<NodeId>, c: NodeId)
    requires Linked(nodes, parents) && Ranked(nodes, rank)
    requires n in nodes && nodes[n].permission == Public
    requires done <= nodes[n].children && c in nodes[n].children && c !in done
    ensures SameShape(nodes, Partial(nodes, parents, rank, n, done))
    ensures Ranked(Partial(nodes, parents, rank, n, done), rank)
    ensures Propagated(Partial(nodes, parents, rank, n, done), parents, rank, c) == Partial(nodes, parents, rank, n, done + {c})
  {
    var cur := Partial(nodes, parents, rank, n, done);
    SameShapeKeepsForest(nodes, cur, parents, rank);
    if Triggers(nodes, parents, n) {
      forall k | k in nodes && InSubtree(nodes, rank, c, k)
        ensures cur[k].permission == nodes[k].permission
      {
        PartialUntouched(nodes, parents, rank, n, done, c, k);
      }
      forall z ensures PublicPath(cur, rank, c, z) == PublicPath(nodes, rank, c, z) {
        PublicPathFrame(nodes, cur, rank, c, z);
      }
      CoveredFrame(nodes, cur, rank, c);
      PartialStepTriggered(nodes, parents, rank, n, done, c);
    }
  }

  /** The step when `n` has just been made Private: `c`'s share is its own Public region. */
  lemma PartialStepTriggered(nodes: Nodes, parents: Parents, rank: Ranks, n: NodeId, done: set<NodeId>, c: NodeId)
    requires Ranked(nodes, rank) && Triggers(nodes, parents, n)
    requires c in nodes && c in parents && parents[c] == n
    requires Ranked(Partial(nodes, parents, rank, n, done), rank)
    requires Covered(Partial(nodes, parents, rank, n, done), rank, {c}) == Covered(nodes, rank, {c})
    requires Partial(nodes, parents, rank, n, done)[c] == nodes[c]
    ensures Propagated(Partial(nodes, parents, rank, n, done), parents, rank, c) == Partial(nodes, parents, rank, n, done + {c})
  {
    var cur := Partial(nodes, parents, rank, n, done);
    var marked := {n} + Covered(nodes, rank, done);
    CoveredUnion(nodes, rank, done, {c});
    assert {n} + Covered(nodes, rank, done + {c}) == marked + Covered(nodes, rank, {c});
    if nodes[c].permission == Public {
      assert cur[n].permission == Private;
      StepMarks(nodes, cur, parents, rank, marked, c);
    } else {
      assert Covered(nodes, rank, {c}) == {};
      assert marked + Covered(nodes, rank, {c}) == marked;
    }
  }

  /** `update_permission(c)` on an already marked map adds `c`'s region to the marks. */
  lemma StepMarks(nodes: Nodes, cur: Nodes, parents: Parents, rank: Ranks, marked: set<NodeId>, c: NodeId)
    requires Ranked(nodes, rank) && Ranked(cur, rank)
    requires cur == MarkPrivate(nodes, marked) && Triggers(cur, parents, c)
    requires Covered(cur, rank, {c}) == Covered(nodes, rank, {c})
    ensures Propagated(cur, parents, rank, c) == MarkPrivate(nodes, marked + Covered(nodes, rank, {c}))
  {
    MarkPrivateTwice(nodes, marked, Covered(nodes, rank, {c}));
  }

  /** Covering from a union of roots covers the union. */
  lemma CoveredUnion(nodes: Nodes, rank: Ranks, a: set<NodeId>, b: set<NodeId>)
    requires Ranked(nodes, rank)
    ensures Covered(nodes, rank, a + b) == Covered(nodes, rank, a) + Covered(nodes, rank, b)
  {
  }

  /** Equal Public paths from `c` give equal regions. */
  lemma CoveredFrame(nodes: Nodes, other: Nodes, rank: Ranks, c: NodeId)
    requires Ranked(nodes, rank) && Ranked(other, rank) && SameShape(nodes, other)
    requires forall z :: PublicPath(other, rank, c, z) == PublicPath(nodes, rank, c, z)
    ensures Covered(other, rank, {c}) == Covered(nodes, rank, {c})
  {
  }

  // ---------------------------------------------------------------------------
  // Relinking breaks inheritance at most on the new edge

  /** Moving `x` under `y` keeps every edge of an inheriting tree inheriting, except the one into `x`. */
  lemma RelinkedInheritsExceptMoved(nodes: Nodes, parents: Parents, x: NodeId, y: NodeId)
    requires Linked(nodes, parents) && Inherited(nodes)
    requires x in nodes && y in nodes
    ensures InheritedExceptInto(Relinked(nodes, parents, x, y), x)
  {
    var r := Relinked(nodes, parents, x, y);
    forall p, c {:trigger c in r[p].children} | p in r && c in r[p].children && c != x && r[p].permission == Private
      ensures c in r && r[c].permission == Private
    {
      RelinkedEdge(nodes, parents, x, y, p, c);
    }
  }
}
