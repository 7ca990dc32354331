# Permission tree

A model of the `Tree` of the permission-tree crate. A `Tree` is a forest of nodes, each with a
`u32` id, a `Public` or `Private` permission and a set of child ids. Beside the nodes it keeps a
map from each child id to its parent id.

The operations are:
- `add_node` inserts a parentless, childless node.
- `connect_nodes` links a parentless child under a parent.
- `move_subtree` re-hangs a node, with everything below it, under a new parent.
- `is_descendant` asks whether one node lies below another.
- `update_permission` pushes `Private` down after each link. Every Public node reachable from the
  relinked node through Public nodes turns Private when the node's new parent is Private.

The invariant all of this maintains has two parts:
- the child sets and the parent map describe the same acyclic forest;
- every child of a Private node is Private.

The model has four modules:

- `Forest` (forest.dfy) holds the values: ids, permissions, nodes, the two maps and a ghost
  ranking that witnesses acyclicity. It defines `is_descendant` and the three child-set edits.
  It also has the guards of `connect_nodes` and `move_subtree`, both as written and corrected,
  and the facts that a link or a move keeps the forest.
- `Propagation` (propagation.dfy) gives the closed form of `update_permission`. It proves the
  closed form equal to what the recursive walk writes, child by child in any order. It also
  proves that propagation only changes the relinked subtree and restores the inheritance
  invariant.
- `PermissionTree` (tree.dfy) holds the mutable `Tree` class. Its `nodes` and `parentMap` fields
  are replaced by each method, as the source's hash maps are updated in place. `AddNode`,
  `ConnectNodes`, `ConnectNodesLegacy`, `Attached` and `MoveSubtree` keep `Valid()`;
  `UpdatePermission` keeps `Shaped()`, the forest half of it; every method states its new state.
  - `update_permission` and its loop over a snapshot of the child set are two mutually
    recursive methods.
  - `connect_nodes` of src/main.rs, an older copy without the self-parent and already-parented
    guards, is a second method.
- `Scenarios` (scenarios.dfy) replays each unit test of tests/tree_tests.rs and the `main` of
  src/main.rs on a fresh `Tree`. Each assertion of the Rust tests, and each outcome that the comments of `main` expect, becomes a postcondition.

Rejections are returned as status values (`ConnectOutcome`, `MoveOutcome`) instead of the
source's console messages. A rejected call leaves the tree unchanged.

## Model

| member | source | states |
|---|---|---|
| Forest.IsDescendant | src/lib.rs:76-88 | `is_descendant(a, b)`: `a` exists and `b` is one of its children or a descendant of one; the search order over the child set does not matter. What it means is stated by `DescendantIffAncestor` and `IsDescendantOf` |
| Forest.Relinked | src/lib.rs:103-114 | the child sets after a successful `move_subtree`: `Detach` then `Attach`. What it keeps is stated by `MoveKeepsForest` and `MoveSubtree` |
| Forest.Attach | src/lib.rs:112-114 | the new parent's child set gains the node; every other child set, every id and every permission is unchanged |
| Forest.Detach | src/lib.rs:104-109 | the node leaves the child set of its current parent, if it has one; nothing else changes |
| Forest.ConnectGuards | src/lib.rs:48-64 | the guards as written, in their order: a missing id, then parent equal to child, then a child that already has a parent; it connects exactly when all three pass |
| Forest.ConnectCheck | src/lib.rs:48-64 | the corrected guards: those of `ConnectGuards`, plus a refusal exactly when the parent lies below the child; it connects exactly when both allow it |
| Forest.MoveGuards | src/lib.rs:91-101 | the guards as written: a missing id, then a new parent strictly below the node; it moves exactly when both pass |
| Forest.MoveCheck | src/lib.rs:91-101 | the corrected guards: a move is refused exactly when an id is missing or the new parent lies in the node's subtree, the node itself included; otherwise it agrees with `MoveGuards` |
| Forest.DescendantRanksBelow | src/lib.rs:76-88 | a descendant ranks strictly below its ancestor |
| Forest.NotOwnDescendant | src/lib.rs:76-88 | in an acyclic tree `is_descendant(x, x)` is false |
| Forest.DescendantThrough | src/lib.rs:76-88 | a child of a descendant is a descendant |
| Forest.DescendantParentStep | src/lib.rs:76-88 | the parent of a descendant of `a` is `a` or another descendant of `a` |
| Forest.DescendantIffAncestor | src/lib.rs:76-88 | `is_descendant(a, b)` holds if and only if `a` is reached from `b` by following `parent_map` upward one or more times |
| Forest.DescendantHasAncestorPath | src/lib.rs:76-88 | a descendant has a parent chain of length at least one to its ancestor |
| Forest.AncestorPathIsDescendant | src/lib.rs:76-88 | a parent chain of length at least one makes the lower end a descendant |
| Forest.SubtreeClosed | src/lib.rs:148-152 | the subtree the children loop walks is closed under taking children |
| Forest.SubtreeHoldsParent | src/lib.rs:136-145 | every node of a subtree except its root has its parent in the subtree |
| Forest.ParentOutsideChildSubtree | src/lib.rs:148-152 | a node never lies in the subtree of one of its children |
| Forest.SiblingSubtreesDisjoint | src/lib.rs:148-152 | the subtrees of two different children of one node share no node, so the children loop may visit them in any order |
| Forest.RelinkedEdge | src/lib.rs:103-115 | after a move, each child-set edge is the new edge or an old one, and the updated parent map points back along it |
| Forest.MoveKeepsLinked | src/lib.rs:103-115 | a move between two existing ids keeps child sets and parent map in agreement |
| Forest.MoveKeepsRanked | src/lib.rs:91-115 | a move to an existing node outside the moved node's subtree keeps the tree acyclic: the moved subtree keeps its ranks and everything else is lifted above it |
| Forest.MoveKeepsForest | src/lib.rs:91-115 | a move that `MoveCheck` accepts keeps both the agreement of the two maps and acyclicity |
| Forest.ConnectKeepsForest | src/lib.rs:66-70 | a link that the written guards accept, and that closes no cycle, is a move of a parentless node, so it keeps the forest |
| Forest.SelfMoveLoops | src/lib.rs:91-115 | `move_subtree(x, x)` passes the written guards and makes `x` its own child, and no ranking admits the result |
| Forest.ConnectMayCloseCycle | src/lib.rs:48-70 | linking a root under a node of its own subtree passes the written guards and leaves a tree no ranking admits |
| Propagation.Propagated | src/lib.rs:127-153 | `update_permission(n)` changes no id or child set; every change turns a Public node into Private; a Private `n` changes nothing |
| Propagation.PrivateSubtree | src/lib.rs:129-132 | in a tree where every child of a Private node is Private, every descendant of a Private node is Private, so the early return loses nothing |
| Propagation.PropagatedWithinSubtree | src/lib.rs:127-153 | `update_permission(n)` changes only nodes of `n`'s subtree |
| Propagation.PropagationRestoresInheritance | src/lib.rs:72-73 | if only the edge into `n` can break "Private parent, Private child", then after `update_permission(n)` no edge breaks it |
| Propagation.SameShapeKeepsForest | src/lib.rs:127-153 | writing permissions keeps the forest invariants |
| Propagation.PublicPathInSubtree | src/lib.rs:148-152 | the recursion reaches only nodes of the subtree it starts from |
| Propagation.PublicPathFrame | src/lib.rs:148-152 | what one child's recursive call writes depends only on permissions in that child's subtree |
| Propagation.PartialStart | src/lib.rs:128-145 | before the children loop, the only write is `n` copying Private from a Private parent, and only when `n` is Public |
| Propagation.PartialStep | src/lib.rs:148-152 | the recursive call on the next child adds exactly that child's share to what the loop has written |
| Propagation.PartialComplete | src/lib.rs:148-152 | once every child is handled, the loop has written the closed form |
| Propagation.RelinkedInheritsExceptMoved | src/lib.rs:103-115 | relinking an inheriting tree can break inheritance only on the edge into the moved node |
| PermissionTree.Tree.constructor | src/lib.rs:23-28 | a new tree has no nodes and no parents, and is valid |
| PermissionTree.Tree.AddNode | src/lib.rs:31-45 | an existing id changes nothing; otherwise exactly one node appears, with the given permission, no children and no parent; validity is kept |
| PermissionTree.Tree.IsDescendantOf | src/lib.rs:76-88 | the result, `Forest.IsDescendant` on the current maps, is true if and only if `a` is a strict ancestor of `b` through `parent_map`; so it is false for `a == b` |
| PermissionTree.Tree.UpdatePermission | src/lib.rs:127-153 | the new nodes are `Propagated` of the old ones; the parent map is untouched and the forest kept |
| PermissionTree.Tree.UpdateChildren | src/lib.rs:148-152 | the loop over the snapshot of `n`'s children, taken in any order, ends with the closed form of `update_permission(n)` |
| PermissionTree.Tree.ConnectNodes | src/lib.rs:48-74 | status is `ConnectCheck`; nothing changes on a refusal; on success the parent map gains `child -> parent`, the parent's child set gains the child, the child's subtree inherits Private, and validity is kept |
| PermissionTree.Tree.ConnectNodesLegacy | src/main.rs:48-62 | connects if and only if both ids exist; otherwise nothing changes; on success the same new state as `ConnectNodes` |
| PermissionTree.Tree.Attached | src/lib.rs:66-73 | the shared tail of both `connect_nodes`: the edge in both maps, then `update_permission(child)`, keeping validity |
| PermissionTree.Tree.MoveSubtree | src/lib.rs:91-124 | status is `MoveCheck`; nothing changes on a refusal; on success the child sets are `Forest.Relinked` of the old ones (the node leaves its old parent's child set and joins the new parent's), the parent map points to the new parent, the subtree inherits Private, and validity is kept for every input |
| Scenarios.AddNodeScenario | tests/tree_tests.rs:4-11 | after `add_node(1, Public)`, node 1 exists and is Public |
| Scenarios.ConnectNodesScenario | tests/tree_tests.rs:14-38 | 2 and 3 become children of 1; `connect_nodes(1, 1)` is refused as a self-parent; `connect_nodes(2, 3)` is refused because 3 has a parent; 3's parent stays 1 |
| Scenarios.PermissionInheritanceScenario | tests/tree_tests.rs:41-67 | 4 and 5 are Public under Public 2; connecting 2 under Private 3 makes 2, 4 and 5 Private |
| Scenarios.IsDescendantScenario | tests/tree_tests.rs:70-91 | in the chain 1, 2, 3, 4, node 1 has 4, 3 and 2 as descendants |
| Scenarios.MoveSubtreeScenario | tests/tree_tests.rs:94-117 | moving 2 (with 4 and 5) under Private 3 makes 2, 4 and 5 Private; 2 leaves 1's children and joins 3's |
| Scenarios.MoveSubtreeInvalidScenario | tests/tree_tests.rs:120-140 | moving 3 under its child 4 is refused; 3 stays a child of 2 and is not a child of 4 |
| Scenarios.MainScenario | src/main.rs:159-191 | linking 6 under Private 3 makes 6 Private; moving 2 under 3 makes 2, 4 and 5 Private and keeps 3 under 1; `move_subtree(3, 6)` is refused |

## Left out

- `println!` diagnostics: each rejection is a returned status instead, and rejected calls leave the tree unchanged.
- The returned statuses are an addition; the source's methods return nothing.
- `print_tree` (src/lib.rs:155-171, src/main.rs:143-156): it only formats text and carries no invariant.
- The printing in `main`: only its sequence of calls is modelled.
- Hash order: `HashMap`/`HashSet` become `map`/`set`.
  - `is_descendant`'s search over a child set is an existential.
  - `update_permission`'s loop picks the next child arbitrarily; the result is proved independent of the order.
- Rust ownership and cloning: the `children.clone()` at src/lib.rs:149 is a snapshot read before the loop.
- `u32` ids are a subset type of `int`. No arithmetic is done on ids, so wrap-around does not arise.
- The functions of src/main.rs other than `connect_nodes`, `print_tree` and `main` are the same as those of src/lib.rs, apart from `pub`, and are modelled once.
- The crate has no tag attribute: the only propagated attribute is the permission.
- Stack depth: the model does not bound recursion depth at all. The recursion of `is_descendant` and `update_permission` (src/lib.rs:82, src/lib.rs:150) can overflow the stack on a long enough acyclic chain, and that overflow is not modelled. In the model the recursion is bounded only by the ranking. The two source gaps below, which would recurse without end, are shown instead as a cycle no ranking admits.
- PermissionTree.Tree.ConnectNodesLegacy: requires, when both ids exist, a child that has no parent, differs from the parent and does not lie above it.
  - Without the first condition, src/main.rs overwrites `parent_map[child]` and leaves the child in its old parent's child set.
  - The other two rule out a cycle.
- PermissionTree.Tree.ConnectNodes: follows the corrected guards of the second finding below, not the source's. It also refuses a link whose parent lies below the child, which src/lib.rs:48-74 performs.
- PermissionTree.Tree.MoveSubtree: follows the corrected guards of the first finding below, not the source's. It also refuses `move_subtree(x, x)`, which src/lib.rs:91-124 performs.
- Scenarios: each test links or moves only subtrees whose children are leaves. The scenario lemmas are specialised to that shape. The general case is what `ConnectNodes` and `MoveSubtree` state.

## Findings

| source | as written | input that shows it | evidently intended | confidence | as-written member | corrected member |
|---|---|---|---|---|---|---|
| src/lib.rs:91-115 | `move_subtree` refuses only a new parent strictly below the node, so `move_subtree(x, x)` goes through and makes `x` its own child and parent | `add_node(1, Public); move_subtree(1, 1)`: then `update_permission(1)` recurses into 1 forever | a node is never moved under itself: its own subtree includes it | not executed | Forest.SelfMoveLoops | PermissionTree.Tree.MoveSubtree |
| src/lib.rs:48-74 | `connect_nodes` does not check that the parent lies outside the child's subtree, so linking a root under its own descendant closes a cycle | `add_node(1, Public); add_node(2, Public); connect_nodes(1, 2); connect_nodes(2, 1)`: all three guards pass, and `update_permission(1)` then recurses around the cycle | a link that would close a cycle is refused, as `move_subtree` refuses one | not executed | Forest.ConnectMayCloseCycle | PermissionTree.Tree.ConnectNodes |
