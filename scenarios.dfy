/**
  The unit tests of tests/tree_tests.rs and the `main` walk-through of src/main.rs,
  each replayed on a fresh `Tree`.  A test looks at a tree through its ids, child sets,
  permissions and parents; a `View` records exactly that.  Each call below returns the
  view the tree shows afterwards; for every state a scenario passes through, a predicate
  lists what the view holds at each id, and a lemma shows that one call takes each
  state to the next.  Every assertion of the Rust tests becomes a postcondition about
  the tree the scenario returns.
 */
module Scenarios {
  import opened Forest
  import opened Propagation
  import opened PermissionTree

  type Kids = map<NodeId, set<NodeId>>
  type Perms = map<NodeId, Permission>

  /** What a test can see of a tree: child sets, permissions and parents by id. */
  datatype View = View(kids: Kids, perms: Perms, parents: Parents)

  /** The view of `Tree::new()`. */
  const Empty := View(map[], map[], map[])

  /** `nodes` holds exactly the ids of `kids`, with those child sets and permissions. */
  ghost predicate Shows(nodes: Nodes, kids: Kids, perms: Perms) {
    && nodes.Keys == kids.Keys && perms.Keys == kids.Keys
    && (forall k {:trigger kids[k]} :: k in kids ==> nodes[k].children == kids[k] && nodes[k].permission == perms[k])
  }

  /** `t` shows the view `v`. */
  ghost predicate Looks(t: Tree, v: View)
    reads t
  {
    Shows(t.nodes, v.kids, v.perms) && t.parentMap == v.parents
  }

  /** The child sets once `c` leaves its parent, if it has one, and joins `p`. */
  function Rewire(kids: Kids, parents: Parents, p: NodeId, c: NodeId): (r: Kids)
    requires p in kids
    ensures r.Keys == kids.Keys
  {
    var k' := if c in parents && parents[c] in kids then kids[parents[c] := kids[parents[c]] - {c}] else kids;
    k'[p := k'[p] + {c}]
  }

  /** The permissions once `c`, whose children are leaves, joins `p`: below a Private `p`
      the whole of `c`'s subtree is Private, below a Public one nothing changes. */
  function Inherit(perms: Perms, kids: Kids, p: NodeId, c: NodeId): (r: Perms)
    requires p in perms && c in kids
    ensures r.Keys == perms.Keys
  {
    if perms[p] == Private then map k | k in perms :: if k == c || k in kids[c] then Private else perms[k] else perms
  }

  /** The view after `add_node(id, permission)` of a new id. */
  function AfterAdd(v: View, id: NodeId, permission: Permission): View {
    v.(kids := v.kids[id := {}], perms := v.perms[id := permission])
  }

  /** `c` and `p` are distinct ids of `v`, `p` is not a child of `c`, and `c`'s children are
      leaves: the shape of every subtree the tests link or move. */
  ghost predicate ShallowIn(v: View, c: NodeId, p: NodeId) {
    && p in v.kids && p in v.perms && c in v.kids && p != c && p !in v.kids[c]
    && forall g :: g in v.kids[c] ==> g in v.kids && v.kids[g] == {}
  }

  /** The view after `c` is linked under `p`; a view without both ids is left alone. */
  function AfterLink(v: View, p: NodeId, c: NodeId): View {
    if p in v.kids && p in v.perms && c in v.kids then
      View(Rewire(v.kids, v.parents, p, c), Inherit(v.perms, v.kids, p, c), v.parents[c := p])
    else v
  }

  // ---------------------------------------------------------------------------
  // Linking a shallow subtree, seen through a view

  ghost predicate Shallow(nodes: Nodes, c: NodeId, p: NodeId) {
    && c in nodes && p != c && p !in nodes[c].children
    && forall g :: g in nodes[c].children ==> g in nodes && nodes[g].children == {}
  }

  lemma ShallowNotAbove(nodes: Nodes, rank: Ranks, c: NodeId, p: NodeId)
    requires Ranked(nodes, rank) && Shallow(nodes, c, p)
    ensures !IsDescendant(nodes, rank, c, p)
  {
    forall g | g in nodes[c].children
      ensures !IsDescendant(nodes, rank, g, p)
    {
      assert nodes[g].children == {};
    }
  }

  lemma ShallowSubtree(before: Nodes, parents: Parents, rank: Ranks, p: NodeId, c: NodeId, k: NodeId)
    requires Shallow(before, c, p)
    requires Ranked(Relinked(before, parents, c, p), rank)
    requires InSubtree(Relinked(before, parents, c, p), rank, c, k)
    ensures k == c || k in before[c].children
  {
    var r := Relinked(before, parents, c, p);
    if k != c {
      assert r[c].children <= before[c].children;
      forall g | g in r[c].children
        ensures !IsDescendant(r, rank, g, k)
      {
        assert r[g].children == {};
      }
    }
  }

  /** The child sets of `Relinked`, seen through `kids`. */
  lemma SeeRewire(before: Nodes, parents: Parents, kids: Kids, p: NodeId, c: NodeId, k: NodeId)
    requires before.Keys == kids.Keys && (forall j :: j in kids ==> before[j].children == kids[j])
    requires p in kids && k in kids
    ensures Relinked(before, parents, c, p)[k].children == Rewire(kids, parents, p, c)[k]
  {
  }

  /** The permissions after linking a shallow `c` under `p`, seen through `perms`. */
  lemma SeeInherit(before: Nodes, after: Nodes, kids: Kids, perms: Perms, p: NodeId, c: NodeId, k: NodeId)
    requires Shows(before, kids, perms) && after.Keys == before.Keys
    requires p in kids && c in kids && k in kids && c in after[p].children && (forall g :: g in kids[c] ==> g in after[c].children)
    requires Inherited(after)
    requires perms[p] == Private ==> after[p].permission == Private
    requires after[k].permission != before[k].permission ==> after[k].permission == Private
    requires k != c && k !in kids[c] ==> after[k].permission == before[k].permission
    requires perms[p] == Public ==> after[k].permission == before[k].permission
    ensures after[k].permission == Inherit(perms, kids, p, c)[k]
  {
  }

  /** The permission of one id after linking a shallow `c` under `p`. */
  lemma SeeLinkAt(before: Nodes, parents: Parents, newParents: Parents, rank: Ranks, kids: Kids, perms: Perms, p: NodeId, c: NodeId, k: NodeId)
    requires Shows(before, kids, perms)
    requires p in kids && c in kids && p != c && p !in kids[c]
    requires forall g :: g in kids[c] ==> g in kids && kids[g] == {}
    requires c in parents ==> parents[c] != c
    requires Ranked(Relinked(before, parents, c, p), rank)
    requires c in newParents && newParents[c] == p
    requires Inherited(Propagated(Relinked(before, parents, c, p), newParents, rank, c))
    requires k in kids
    ensures Propagated(Relinked(before, parents, c, p), newParents, rank, c)[k].permission == Inherit(perms, kids, p, c)[k]
  {
    var r := Relinked(before, parents, c, p);
    var after := Propagated(r, newParents, rank, c);
    PropagatedWithinSubtree(r, newParents, rank, c);
    SeeRewire(before, parents, kids, p, c, p);
    SeeRewire(before, parents, kids, p, c, c);
    assert c in after[p].children;
    assert after[c].children == r[c].children;
    assert perms[p] == Private ==> after[p].permission == Private;
    if k != c && k !in kids[c] && after[k] != r[k] {
      ShallowSubtree(before, parents, rank, p, c, k);
    }
    assert after[k].permission != before[k].permission ==> after[k].permission == Private;
    assert k != c && k !in kids[c] ==> after[k].permission == before[k].permission;
    assert perms[p] == Public ==> after[k].permission == before[k].permission;
    SeeInherit(before, after, kids, perms, p, c, k);
  }

  /** Linking a shallow `c` under `p`, seen through the child sets and permissions. */
  lemma SeeLink(before: Nodes, parents: Parents, newParents: Parents, rank: Ranks, kids: Kids, perms: Perms, p: NodeId, c: NodeId)
    requires Shows(before, kids, perms)
    requires p in kids && c in kids && p != c && p !in kids[c]
    requires forall g :: g in kids[c] ==> g in kids && kids[g] == {}
    requires c in parents ==> parents[c] != c
    requires Ranked(Relinked(before, parents, c, p), rank)
    requires c in newParents && newParents[c] == p
    requires Inherited(Propagated(Relinked(before, parents, c, p), newParents, rank, c))
    ensures Shows(Propagated(Relinked(before, parents, c, p), newParents, rank, c), Rewire(kids, parents, p, c), Inherit(perms, kids, p, c))
  {
    var r := Relinked(before, parents, c, p);
    var after := Propagated(r, newParents, rank, c);
    forall k | k in kids
      ensures after[k].children == Rewire(kids, parents, p, c)[k]
      ensures after[k].permission == Inherit(perms, kids, p, c)[k]
    {
      SeeRewire(before, parents, kids, p, c, k);
      SeeLinkAt(before, parents, newParents, rank, kids, perms, p, c, k);
    }
  }

  /** `add_node` of a new id, seen through the child sets and permissions. */
  lemma SeeAdd(before: Nodes, kids: Kids, perms: Perms, id: NodeId, permission: Permission)
    requires Shows(before, kids, perms) && id !in kids
    ensures Shows(before[id := TreeNode(id, permission, {})], kids[id := {}], perms[id := permission])
  {
    var after := before[id := TreeNode(id, permission, {})];
    forall k {:trigger kids[id := {}][k]} | k in kids[id := {}]
      ensures after[k].children == kids[id := {}][k] && after[k].permission == perms[id := permission][k]
    {
      if k != id {
        assert k in kids;
      }
    }
  }

  // ---------------------------------------------------------------------------
  // The calls the scenarios make, one view to the next

  /** `add_node` of a new id. */
  method Add(t: Tree, id: NodeId, permission: Permission, ghost v: View) returns (ghost w: View)
    requires t.Valid() && Looks(t, v) && id !in v.kids
    modifies t
    ensures t.Valid() && w == AfterAdd(v, id, permission) && Looks(t, w)
  {
    SeeAdd(t.nodes, v.kids, v.perms, id, permission);
    t.AddNode(id, permission);
    w := AfterAdd(v, id, permission);
  }

  /** `connect_nodes` of src/lib.rs linking a parentless, shallow `c` under `p`. */
  method Connect(t: Tree, p: NodeId, c: NodeId, ghost v: View) returns (ghost w: View)
    requires t.Valid() && Looks(t, v) && ShallowIn(v, c, p) && c !in v.parents
    modifies t
    ensures t.Valid() && w == AfterLink(v, p, c) && Looks(t, w)
  {
    ghost var before := t.nodes;
    assert Shallow(before, c, p);
    ShallowNotAbove(t.nodes, t.rank, c, p);
    var s := t.ConnectNodes(p, c);
    ConnectKeepsForest(before, v.parents, old(t.rank), p, c);
    SeeLink(before, v.parents, t.parentMap, t.rank, v.kids, v.perms, p, c);
    w := AfterLink(v, p, c);
  }

  /** `connect_nodes` of src/main.rs linking a parentless, shallow `c` under `p`. */
  method ConnectLegacy(t: Tree, p: NodeId, c: NodeId, ghost v: View) returns (ghost w: View)
    requires t.Valid() && Looks(t, v) && ShallowIn(v, c, p) && c !in v.parents
    modifies t
    ensures t.Valid() && w == AfterLink(v, p, c) && Looks(t, w)
  {
    ghost var before := t.nodes;
    assert Shallow(before, c, p);
    ShallowNotAbove(t.nodes, t.rank, c, p);
    var connected := t.ConnectNodesLegacy(p, c);
    ConnectKeepsForest(before, v.parents, old(t.rank), p, c);
    SeeLink(before, v.parents, t.parentMap, t.rank, v.kids, v.perms, p, c);
    w := AfterLink(v, p, c);
  }

  /** `connect_nodes` of src/lib.rs refusing a node as its own parent or a second parent. */
  method ConnectRefused(t: Tree, p: NodeId, c: NodeId, ghost v: View) returns (s: ConnectOutcome)
    requires t.Valid() && Looks(t, v) && p in v.kids && c in v.kids && (p == c || c in v.parents)
    modifies t
    ensures t.Valid() && Looks(t, v)
    ensures s == if p == c then SelfParent else AlreadyParented
  {
    s := t.ConnectNodes(p, c);
  }

  /** `move_subtree(x, y)` carrying a shallow subtree. */
  method Move(t: Tree, x: NodeId, y: NodeId, ghost v: View) returns (ghost w: View)
    requires t.Valid() && Looks(t, v) && ShallowIn(v, x, y)
    modifies t
    ensures t.Valid() && w == AfterLink(v, y, x) && Looks(t, w)
  {
    ghost var before := t.nodes;
    assert Shallow(before, x, y);
    ShallowNotAbove(t.nodes, t.rank, x, y);
    assert x in v.parents ==> v.parents[x] != x by {
      if x in v.parents {
        assert x in before[v.parents[x]].children;
      }
    }
    var s := t.MoveSubtree(x, y);
    SeeLink(before, v.parents, t.parentMap, t.rank, v.kids, v.perms, y, x);
    w := AfterLink(v, y, x);
  }

  /** `move_subtree(x, y)` refused because `y` is a child of `x`. */
  method MoveRefused(t: Tree, x: NodeId, y: NodeId, ghost v: View) returns (s: MoveOutcome)
    requires t.Valid() && Looks(t, v) && x in v.kids && y in v.kids[x]
    modifies t
    ensures t.Valid() && Looks(t, v)
    ensures s == IntoOwnSubtree
  {
    assert y in t.nodes;
    s := t.MoveSubtree(x, y);
  }

  // ---------------------------------------------------------------------------
  // What a view holds at one id

  /** `v` has the id `j`, with child set `kids` and permission `perm`. */
  ghost predicate Holds(v: View, j: NodeId, kids: set<NodeId>, perm: Permission) {
    j in v.kids && j in v.perms && v.kids[j] == kids && v.perms[j] == perm
  }

  /** `v` records `p` as the parent of `j`. */
  ghost predicate ParentIs(v: View, j: NodeId, p: NodeId) {
    j in v.parents && v.parents[j] == p
  }

  // ---------------------------------------------------------------------------
  // The unlinked nodes the scenarios start from

  /** Nodes 1 to `n` of the sequence most scenarios add: 1 and 2 Public, 3 Private, 4, 5
      and 6 Public. */
  ghost function Base1(): View { AfterAdd(Empty, 1, Public) }
  ghost function Base2(): View { AfterAdd(Base1(), 2, Public) }
  ghost function Base3(): View { AfterAdd(Base2(), 3, Private) }
  ghost function Base4(): View { AfterAdd(Base3(), 4, Public) }
  ghost function Base5(): View { AfterAdd(Base4(), 5, Public) }
  ghost function Base6(): View { AfterAdd(Base5(), 6, Public) }

  /** The Public nodes 1 to 4 of `test_is_descendant`. */
  ghost function PublicBase3(): View { AfterAdd(Base2(), 3, Public) }
  ghost function PublicBase4(): View { AfterAdd(PublicBase3(), 4, Public) }

  /** The nodes of `test_connect_nodes`, where 2 is Private. */
  ghost function ConnectBase2(): View { AfterAdd(Base1(), 2, Private) }
  ghost function ConnectBase3(): View { AfterAdd(ConnectBase2(), 3, Public) }

  /** Each id is new when it is added. */
  lemma BaseViews()
    ensures 1 !in Empty.kids && 2 !in Base1().kids && 3 !in Base2().kids
    ensures 4 !in Base3().kids && 5 !in Base4().kids && 6 !in Base5().kids
    ensures 4 !in PublicBase3().kids && 3 !in ConnectBase2().kids
  {
  }

  /** Nodes 1 to 4, unlinked, with 3 Private. */
  ghost predicate Unlinked4(v: View) {
    && Holds(v, 1, {}, Public) && Holds(v, 2, {}, Public) && Holds(v, 3, {}, Private)
    && Holds(v, 4, {}, Public) && 1 !in v.parents && 2 !in v.parents && 3 !in v.parents
    && 4 !in v.parents
  }

  /** Nodes 1 to 5, unlinked, with 3 Private. */
  ghost predicate Unlinked5(v: View) {
    && Holds(v, 1, {}, Public) && Holds(v, 2, {}, Public) && Holds(v, 3, {}, Private)
    && Holds(v, 4, {}, Public) && Holds(v, 5, {}, Public) && 1 !in v.parents
    && 2 !in v.parents && 3 !in v.parents && 4 !in v.parents && 5 !in v.parents
  }

  /** Nodes 1 to 6, unlinked, with 3 Private. */
  ghost predicate Unlinked6(v: View) {
    && Holds(v, 1, {}, Public) && Holds(v, 2, {}, Public) && Holds(v, 3, {}, Private)
    && Holds(v, 4, {}, Public) && Holds(v, 5, {}, Public) && Holds(v, 6, {}, Public)
    && 1 !in v.parents && 2 !in v.parents && 3 !in v.parents && 4 !in v.parents
    && 5 !in v.parents && 6 !in v.parents
  }

  /** Nodes 1 to 4, unlinked and Public. */
  ghost predicate PublicUnlinked4(v: View) {
    && Holds(v, 1, {}, Public) && Holds(v, 2, {}, Public) && Holds(v, 3, {}, Public)
    && Holds(v, 4, {}, Public) && 1 !in v.parents && 2 !in v.parents && 3 !in v.parents
    && 4 !in v.parents
  }

  /** Nodes 1 to 3, unlinked, with 2 Private. */
  ghost predicate ConnectUnlinked3(v: View) {
    && Holds(v, 1, {}, Public) && Holds(v, 2, {}, Private) && Holds(v, 3, {}, Public)
    && 1 !in v.parents && 2 !in v.parents && 3 !in v.parents
  }

  /** What the unlinked views hold. */
  lemma UnlinkedViews()
    ensures Unlinked4(Base4())
    ensures Unlinked5(Base5())
    ensures Unlinked6(Base6())
    ensures PublicUnlinked4(PublicBase4())
    ensures ConnectUnlinked3(ConnectBase3())
  {
  }

  /** The first four nodes of the base sequence, added to a fresh tree. */
  method FreshBase4() returns (t: Tree)
    ensures fresh(t) && t.Valid() && Looks(t, Base4())
  {
    BaseViews();
    t := new Tree();
    ghost var v := Add(t, 1, Public, Empty);
    v := Add(t, 2, Public, v);
    v := Add(t, 3, Private, v);
    v := Add(t, 4, Public, v);
  }

  /** The first five nodes of the base sequence, added to a fresh tree. */
  method FreshBase5() returns (t: Tree)
    ensures fresh(t) && t.Valid() && Looks(t, Base5())
  {
    BaseViews();
    t := FreshBase4();
    ghost var v := Add(t, 5, Public, Base4());
  }

  /** All six nodes of the base sequence, added to a fresh tree. */
  method FreshBase6() returns (t: Tree)
    ensures fresh(t) && t.Valid() && Looks(t, Base6())
  {
    BaseViews();
    t := FreshBase5();
    ghost var v := Add(t, 6, Public, Base5());
  }

  // ---------------------------------------------------------------------------
  // `test_add_node`

  /** `test_add_node`. */
  method AddNodeScenario() returns (t: Tree)
    ensures t.Valid()
    ensures 1 in t.nodes && t.nodes[1].permission == Public
  {
    t := new Tree();
    ghost var v := Add(t, 1, Public, Empty);
  }

  // ---------------------------------------------------------------------------
  // `test_connect_nodes`

  /** The view after `connect_nodes(1, 2)`. */
  ghost predicate ConnectingLinked1(v: View) {
    && Holds(v, 1, {2}, Public) && Holds(v, 2, {}, Private) && Holds(v, 3, {}, Public)
    && 1 !in v.parents && ParentIs(v, 2, 1) && 3 !in v.parents
  }

  lemma ConnectingLink1(v: View)
    requires ConnectUnlinked3(v)
    ensures ShallowIn(v, 2, 1) && 2 !in v.parents && ConnectingLinked1(AfterLink(v, 1, 2))
  {
  }

  /** The view after `connect_nodes(1, 3)`. */
  ghost predicate ConnectingLinked2(v: View) {
    && Holds(v, 1, {2, 3}, Public) && Holds(v, 2, {}, Private) && Holds(v, 3, {}, Public)
    && 1 !in v.parents && ParentIs(v, 2, 1) && ParentIs(v, 3, 1)
  }

  lemma ConnectingLink2(v: View)
    requires ConnectingLinked1(v)
    ensures ShallowIn(v, 3, 1) && 3 !in v.parents && ConnectingLinked2(AfterLink(v, 1, 3))
  {
  }

  /** `test_connect_nodes`: two children of 1; a self-connection and a second parent for 3
      are refused and change nothing. */
  method ConnectNodesScenario() returns (t: Tree, self: ConnectOutcome, second: ConnectOutcome)
    ensures t.Valid()
    ensures 1 in t.nodes && 2 in t.nodes
    ensures 2 in t.nodes[1].children && 3 in t.nodes[1].children
    ensures self == SelfParent && 1 !in t.nodes[1].children
    ensures second == AlreadyParented && 3 !in t.nodes[2].children
    ensures 3 in t.parentMap && t.parentMap[3] == 1
  {
    BaseViews();
    UnlinkedViews();
    t := new Tree();
    ghost var v := Add(t, 1, Public, Empty);
    v := Add(t, 2, Private, v);
    v := Add(t, 3, Public, v);
    ConnectingLink1(v);
    v := Connect(t, 1, 2, v);
    ConnectingLink2(v);
    v := Connect(t, 1, 3, v);
    self := ConnectRefused(t, 1, 1, v);
    second := ConnectRefused(t, 2, 3, v);
  }

  // ---------------------------------------------------------------------------
  // `test_permission_inheritance`

  /** The view after `connect_nodes(1, 3)`. */
  ghost predicate InheritanceLinked1(v: View) {
    && Holds(v, 1, {3}, Public) && Holds(v, 2, {}, Public) && Holds(v, 3, {}, Private)
    && Holds(v, 4, {}, Public) && Holds(v, 5, {}, Public) && 1 !in v.parents
    && 2 !in v.parents && ParentIs(v, 3, 1) && 4 !in v.parents && 5 !in v.parents
  }

  lemma InheritanceLink1(v: View)
    requires Unlinked5(v)
    ensures ShallowIn(v, 3, 1) && 3 !in v.parents && InheritanceLinked1(AfterLink(v, 1, 3))
  {
  }

  /** The view after `connect_nodes(2, 4)`. */
  ghost predicate InheritanceLinked2(v: View) {
    && Holds(v, 1, {3}, Public) && Holds(v, 2, {4}, Public) && Holds(v, 3, {}, Private)
    && Holds(v, 4, {}, Public) && Holds(v, 5, {}, Public) && 1 !in v.parents
    && 2 !in v.parents && ParentIs(v, 3, 1) && ParentIs(v, 4, 2) && 5 !in v.parents
  }

  lemma InheritanceLink2(v: View)
    requires InheritanceLinked1(v)
    ensures ShallowIn(v, 4, 2) && 4 !in v.parents && InheritanceLinked2(AfterLink(v, 2, 4))
  {
  }

  /** The view after `connect_nodes(2, 5)`. */
  ghost predicate InheritanceLinked3(v: View) {
    && Holds(v, 1, {3}, Public) && Holds(v, 2, {4, 5}, Public) && Holds(v, 3, {}, Private)
    && Holds(v, 4, {}, Public) && Holds(v, 5, {}, Public) && 1 !in v.parents
    && 2 !in v.parents && ParentIs(v, 3, 1) && ParentIs(v, 4, 2) && ParentIs(v, 5, 2)
  }

  lemma InheritanceLink3(v: View)
    requires InheritanceLinked2(v)
    ensures ShallowIn(v, 5, 2) && 5 !in v.parents && InheritanceLinked3(AfterLink(v, 2, 5))
  {
  }

  /** The view after `connect_nodes(3, 2)`. */
  ghost predicate InheritanceLinked4(v: View) {
    && Holds(v, 1, {3}, Public) && Holds(v, 2, {4, 5}, Private)
    && Holds(v, 3, {2}, Private) && Holds(v, 4, {}, Private) && Holds(v, 5, {}, Private)
    && 1 !in v.parents && ParentIs(v, 2, 3) && ParentIs(v, 3, 1) && ParentIs(v, 4, 2)
    && ParentIs(v, 5, 2)
  }

  lemma InheritanceLink4(v: View)
    requires InheritanceLinked3(v)
    ensures ShallowIn(v, 2, 3) && 2 !in v.parents && InheritanceLinked4(AfterLink(v, 3, 2))
  {
  }

  /** `test_permission_inheritance`: 4 and 5 are Public under Public 2, and all three turn
      Private once 2 is connected under Private 3. */
  method PermissionInheritanceScenario() returns (t: Tree, before4: Permission, before5: Permission)
    ensures t.Valid()
    ensures before4 == Public && before5 == Public
    ensures 2 in t.nodes && t.nodes[2].permission == Private
    ensures 4 in t.nodes && t.nodes[4].permission == Private
    ensures 5 in t.nodes && t.nodes[5].permission == Private
  {
    UnlinkedViews();
    t := FreshBase5();
    ghost var v := Base5();
    InheritanceLink1(v);
    v := Connect(t, 1, 3, v);
    InheritanceLink2(v);
    v := Connect(t, 2, 4, v);
    InheritanceLink3(v);
    v := Connect(t, 2, 5, v);
    before4, before5 := t.nodes[4].permission, t.nodes[5].permission;
    InheritanceLink4(v);
    v := Connect(t, 3, 2, v);
  }

  // ---------------------------------------------------------------------------
  // `test_is_descendant`

  /** The view after `connect_nodes(1, 2)`. */
  ghost predicate DescendantLinked1(v: View) {
    && Holds(v, 1, {2}, Public) && Holds(v, 2, {}, Public) && Holds(v, 3, {}, Public)
    && Holds(v, 4, {}, Public) && 1 !in v.parents && ParentIs(v, 2, 1) && 3 !in v.parents
    && 4 !in v.parents
  }

  lemma DescendantLink1(v: View)
    requires PublicUnlinked4(v)
    ensures ShallowIn(v, 2, 1) && 2 !in v.parents && DescendantLinked1(AfterLink(v, 1, 2))
  {
  }

  /** The view after `connect_nodes(2, 3)`. */
  ghost predicate DescendantLinked2(v: View) {
    && Holds(v, 1, {2}, Public) && Holds(v, 2, {3}, Public) && Holds(v, 3, {}, Public)
    && Holds(v, 4, {}, Public) && 1 !in v.parents && ParentIs(v, 2, 1) && ParentIs(v, 3, 2)
    && 4 !in v.parents
  }

  lemma DescendantLink2(v: View)
    requires DescendantLinked1(v)
    ensures ShallowIn(v, 3, 2) && 3 !in v.parents && DescendantLinked2(AfterLink(v, 2, 3))
  {
  }

  /** The view after `connect_nodes(3, 4)`. */
  ghost predicate DescendantLinked3(v: View) {
    && Holds(v, 1, {2}, Public) && Holds(v, 2, {3}, Public) && Holds(v, 3, {4}, Public)
    && Holds(v, 4, {}, Public) && 1 !in v.parents && ParentIs(v, 2, 1) && ParentIs(v, 3, 2)
    && ParentIs(v, 4, 3)
  }

  lemma DescendantLink3(v: View)
    requires DescendantLinked2(v)
    ensures ShallowIn(v, 4, 3) && 4 !in v.parents && DescendantLinked3(AfterLink(v, 3, 4))
  {
  }

  /** `test_is_descendant`: on the chain 1 -> 2 -> 3 -> 4, node 1 is above 4, 3 and 2. */
  method IsDescendantScenario() returns (t: Tree, d4: bool, d3: bool, d2: bool)
    ensures t.Valid()
    ensures d4 && d3 && d2
  {
    BaseViews();
    UnlinkedViews();
    t := new Tree();
    ghost var v := Add(t, 1, Public, Empty);
    v := Add(t, 2, Public, v);
    v := Add(t, 3, Public, v);
    v := Add(t, 4, Public, v);
    DescendantLink1(v);
    v := Connect(t, 1, 2, v);
    DescendantLink2(v);
    v := Connect(t, 2, 3, v);
    DescendantLink3(v);
    v := Connect(t, 3, 4, v);
    assert IsDescendant(t.nodes, t.rank, 1, 2);
    DescendantThrough(t.nodes, t.rank, 1, 2, 3);
    DescendantThrough(t.nodes, t.rank, 1, 3, 4);
    d4 := t.IsDescendantOf(1, 4);
    d3 := t.IsDescendantOf(1, 3);
    d2 := t.IsDescendantOf(1, 2);
  }

  // ---------------------------------------------------------------------------
  // `test_move_subtree_invalid`

  /** The view after `connect_nodes(1, 2)`. */
  ghost predicate InvalidMoveLinked1(v: View) {
    && Holds(v, 1, {2}, Public) && Holds(v, 2, {}, Public) && Holds(v, 3, {}, Private)
    && Holds(v, 4, {}, Public) && 1 !in v.parents && ParentIs(v, 2, 1) && 3 !in v.parents
    && 4 !in v.parents
  }

  lemma InvalidMoveLink1(v: View)
    requires Unlinked4(v)
    ensures ShallowIn(v, 2, 1) && 2 !in v.parents && InvalidMoveLinked1(AfterLink(v, 1, 2))
  {
  }

  /** The view after `connect_nodes(2, 3)`. */
  ghost predicate InvalidMoveLinked2(v: View) {
    && Holds(v, 1, {2}, Public) && Holds(v, 2, {3}, Public) && Holds(v, 3, {}, Private)
    && Holds(v, 4, {}, Public) && 1 !in v.parents && ParentIs(v, 2, 1) && ParentIs(v, 3, 2)
    && 4 !in v.parents
  }

  lemma InvalidMoveLink2(v: View)
    requires InvalidMoveLinked1(v)
    ensures ShallowIn(v, 3, 2) && 3 !in v.parents && InvalidMoveLinked2(AfterLink(v, 2, 3))
  {
  }

  /** The view after `connect_nodes(3, 4)`. */
  ghost predicate InvalidMoveLinked3(v: View) {
    && Holds(v, 1, {2}, Public) && Holds(v, 2, {3}, Public) && Holds(v, 3, {4}, Private)
    && Holds(v, 4, {}, Private) && 1 !in v.parents && ParentIs(v, 2, 1)
    && ParentIs(v, 3, 2) && ParentIs(v, 4, 3)
  }

  lemma InvalidMoveLink3(v: View)
    requires InvalidMoveLinked2(v)
    ensures ShallowIn(v, 4, 3) && 4 !in v.parents && InvalidMoveLinked3(AfterLink(v, 3, 4))
  {
  }

  /** `test_move_subtree_invalid`: on the chain 1 -> 2 -> 3 -> 4, moving 3 under its child 4 is
      refused and 3 stays under 2. */
  method MoveSubtreeInvalidScenario() returns (t: Tree, s: MoveOutcome)
    ensures t.Valid()
    ensures s == IntoOwnSubtree
    ensures 2 in t.nodes && 3 in t.nodes[2].children
    ensures 4 in t.nodes && 3 !in t.nodes[4].children
  {
    UnlinkedViews();
    t := FreshBase4();
    ghost var v := Base4();
    InvalidMoveLink1(v);
    v := Connect(t, 1, 2, v);
    InvalidMoveLink2(v);
    v := Connect(t, 2, 3, v);
    InvalidMoveLink3(v);
    v := Connect(t, 3, 4, v);
    s := MoveRefused(t, 3, 4, v);
  }

  // ---------------------------------------------------------------------------
  // `test_move_subtree`

  /** The view after `connect_nodes(1, 2)`. */
  ghost predicate MoveSubtreeLinked1(v: View) {
    && Holds(v, 1, {2}, Public) && Holds(v, 2, {}, Public) && Holds(v, 3, {}, Private)
    && Holds(v, 4, {}, Public) && Holds(v, 5, {}, Public) && 1 !in v.parents
    && ParentIs(v, 2, 1) && 3 !in v.parents && 4 !in v.parents && 5 !in v.parents
  }

  lemma MoveSubtreeLink1(v: View)
    requires Unlinked5(v)
    ensures ShallowIn(v, 2, 1) && 2 !in v.parents && MoveSubtreeLinked1(AfterLink(v, 1, 2))
  {
  }

  /** The view after `connect_nodes(1, 3)`. */
  ghost predicate MoveSubtreeLinked2(v: View) {
    && Holds(v, 1, {2, 3}, Public) && Holds(v, 2, {}, Public) && Holds(v, 3, {}, Private)
    && Holds(v, 4, {}, Public) && Holds(v, 5, {}, Public) && 1 !in v.parents
    && ParentIs(v, 2, 1) && ParentIs(v, 3, 1) && 4 !in v.parents && 5 !in v.parents
  }

  lemma MoveSubtreeLink2(v: View)
    requires MoveSubtreeLinked1(v)
    ensures ShallowIn(v, 3, 1) && 3 !in v.parents && MoveSubtreeLinked2(AfterLink(v, 1, 3))
  {
  }

  /** The view after `connect_nodes(2, 4)`. */
  ghost predicate MoveSubtreeLinked3(v: View) {
    && Holds(v, 1, {2, 3}, Public) && Holds(v, 2, {4}, Public) && Holds(v, 3, {}, Private)
    && Holds(v, 4, {}, Public) && Holds(v, 5, {}, Public) && 1 !in v.parents
    && ParentIs(v, 2, 1) && ParentIs(v, 3, 1) && ParentIs(v, 4, 2) && 5 !in v.parents
  }

  lemma MoveSubtreeLink3(v: View)
    requires MoveSubtreeLinked2(v)
    ensures ShallowIn(v, 4, 2) && 4 !in v.parents && MoveSubtreeLinked3(AfterLink(v, 2, 4))
  {
  }

  /** The view after `connect_nodes(2, 5)`. */
  ghost predicate MoveSubtreeLinked4(v: View) {
    && Holds(v, 1, {2, 3}, Public) && Holds(v, 2, {4, 5}, Public)
    && Holds(v, 3, {}, Private) && Holds(v, 4, {}, Public) && Holds(v, 5, {}, Public)
    && 1 !in v.parents && ParentIs(v, 2, 1) && ParentIs(v, 3, 1) && ParentIs(v, 4, 2)
    && ParentIs(v, 5, 2)
  }

  lemma MoveSubtreeLink4(v: View)
    requires MoveSubtreeLinked3(v)
    ensures ShallowIn(v, 5, 2) && 5 !in v.parents && MoveSubtreeLinked4(AfterLink(v, 2, 5))
  {
  }

  /** The view after `move_subtree(2, 3)`. */
  ghost predicate MoveSubtreeMoved(v: View) {
    && Holds(v, 1, {3}, Public) && Holds(v, 2, {4, 5}, Private)
    && Holds(v, 3, {2}, Private) && Holds(v, 4, {}, Private) && Holds(v, 5, {}, Private)
    && 1 !in v.parents && ParentIs(v, 2, 3) && ParentIs(v, 3, 1) && ParentIs(v, 4, 2)
    && ParentIs(v, 5, 2)
  }

  lemma MoveSubtreeMove(v: View)
    requires MoveSubtreeLinked4(v)
    ensures ShallowIn(v, 2, 3) && MoveSubtreeMoved(AfterLink(v, 3, 2))
  {
  }

  /** `test_move_subtree`: moving Public 2, with its children 4 and 5, from 1 to Private 3
      makes all three Private. */
  method MoveSubtreeScenario() returns (t: Tree)
    ensures t.Valid()
    ensures 2 in t.nodes && t.nodes[2].permission == Private
    ensures 4 in t.nodes && t.nodes[4].permission == Private
    ensures 5 in t.nodes && t.nodes[5].permission == Private
    ensures 1 in t.nodes && 3 in t.nodes && 2 in t.nodes[3].children && 2 !in t.nodes[1].children
  {
    UnlinkedViews();
    t := FreshBase5();
    ghost var v := Base5();
    MoveSubtreeLink1(v);
    v := Connect(t, 1, 2, v);
    MoveSubtreeLink2(v);
    v := Connect(t, 1, 3, v);
    MoveSubtreeLink3(v);
    v := Connect(t, 2, 4, v);
    MoveSubtreeLink4(v);
    v := Connect(t, 2, 5, v);
    MoveSubtreeMove(v);
    v := Move(t, 2, 3, v);
  }

  // ---------------------------------------------------------------------------
  // `main` of src/main.rs

  /** The view after `connect_nodes(1, 2)`. */
  ghost predicate MainLinked1(v: View) {
    && Holds(v, 1, {2}, Public) && Holds(v, 2, {}, Public) && Holds(v, 3, {}, Private)
    && Holds(v, 4, {}, Public) && Holds(v, 5, {}, Public) && Holds(v, 6, {}, Public)
    && 1 !in v.parents && ParentIs(v, 2, 1) && 3 !in v.parents && 4 !in v.parents
    && 5 !in v.parents && 6 !in v.parents
  }

  lemma MainLink1(v: View)
    requires Unlinked6(v)
    ensures ShallowIn(v, 2, 1) && 2 !in v.parents && MainLinked1(AfterLink(v, 1, 2))
  {
  }

  /** The view after `connect_nodes(1, 3)`. */
  ghost predicate MainLinked2(v: View) {
    && Holds(v, 1, {2, 3}, Public) && Holds(v, 2, {}, Public) && Holds(v, 3, {}, Private)
    && Holds(v, 4, {}, Public) && Holds(v, 5, {}, Public) && Holds(v, 6, {}, Public)
    && 1 !in v.parents && ParentIs(v, 2, 1) && ParentIs(v, 3, 1) && 4 !in v.parents
    && 5 !in v.parents && 6 !in v.parents
  }

  lemma MainLink2(v: View)
    requires MainLinked1(v)
    ensures ShallowIn(v, 3, 1) && 3 !in v.parents && MainLinked2(AfterLink(v, 1, 3))
  {
  }

  /** The view after `connect_nodes(2, 4)`. */
  ghost predicate MainLinked3(v: View) {
    && Holds(v, 1, {2, 3}, Public) && Holds(v, 2, {4}, Public) && Holds(v, 3, {}, Private)
    && Holds(v, 4, {}, Public) && Holds(v, 5, {}, Public) && Holds(v, 6, {}, Public)
    && 1 !in v.parents && ParentIs(v, 2, 1) && ParentIs(v, 3, 1) && ParentIs(v, 4, 2)
    && 5 !in v.parents && 6 !in v.parents
  }

  lemma MainLink3(v: View)
    requires MainLinked2(v)
    ensures ShallowIn(v, 4, 2) && 4 !in v.parents && MainLinked3(AfterLink(v, 2, 4))
  {
  }

  /** The view after `connect_nodes(2, 5)`. */
  ghost predicate MainLinked4(v: View) {
    && Holds(v, 1, {2, 3}, Public) && Holds(v, 2, {4, 5}, Public)
    && Holds(v, 3, {}, Private) && Holds(v, 4, {}, Public) && Holds(v, 5, {}, Public)
    && Holds(v, 6, {}, Public) && 1 !in v.parents && ParentIs(v, 2, 1) && ParentIs(v, 3, 1)
    && ParentIs(v, 4, 2) && ParentIs(v, 5, 2) && 6 !in v.parents
  }

  lemma MainLink4(v: View)
    requires MainLinked3(v)
    ensures ShallowIn(v, 5, 2) && 5 !in v.parents && MainLinked4(AfterLink(v, 2, 5))
  {
  }

  /** The view after `connect_nodes(3, 6)`. */
  ghost predicate MainLinked5(v: View) {
    && Holds(v, 1, {2, 3}, Public) && Holds(v, 2, {4, 5}, Public)
    && Holds(v, 3, {6}, Private) && Holds(v, 4, {}, Public) && Holds(v, 5, {}, Public)
    && Holds(v, 6, {}, Private) && 1 !in v.parents && ParentIs(v, 2, 1)
    && ParentIs(v, 3, 1) && ParentIs(v, 4, 2) && ParentIs(v, 5, 2) && ParentIs(v, 6, 3)
  }

  lemma MainLink5(v: View)
    requires MainLinked4(v)
    ensures ShallowIn(v, 6, 3) && 6 !in v.parents && MainLinked5(AfterLink(v, 3, 6))
  {
  }

  /** The view after `move_subtree(2, 3)`. */
  ghost predicate MainMoved(v: View) {
    && Holds(v, 1, {3}, Public) && Holds(v, 2, {4, 5}, Private)
    && Holds(v, 3, {2, 6}, Private) && Holds(v, 4, {}, Private) && Holds(v, 5, {}, Private)
    && Holds(v, 6, {}, Private) && 1 !in v.parents && ParentIs(v, 2, 3)
    && ParentIs(v, 3, 1) && ParentIs(v, 4, 2) && ParentIs(v, 5, 2) && ParentIs(v, 6, 3)
  }

  lemma MainMove(v: View)
    requires MainLinked5(v)
    ensures ShallowIn(v, 2, 3) && MainMoved(AfterLink(v, 3, 2))
  {
  }

  /** `main` of src/main.rs, with its own `connect_nodes`: 6 inherits Private from 3; moving 2
      under 3 makes 2, 4 and 5 Private and leaves 3 under 1; moving 3 under its child 6 is
      refused. */
  method MainScenario() returns (t: Tree, refused: MoveOutcome)
    ensures t.Valid()
    ensures refused == IntoOwnSubtree
    ensures 6 in t.nodes && t.nodes[6].permission == Private
    ensures 2 in t.nodes && t.nodes[2].permission == Private
    ensures 4 in t.nodes && t.nodes[4].permission == Private
    ensures 5 in t.nodes && t.nodes[5].permission == Private
    ensures 3 in t.parentMap && t.parentMap[3] == 1
    ensures 2 in t.parentMap && t.parentMap[2] == 3
  {
    UnlinkedViews();
    t := FreshBase6();
    ghost var v := Base6();
    MainLink1(v);
    v := ConnectLegacy(t, 1, 2, v);
    MainLink2(v);
    v := ConnectLegacy(t, 1, 3, v);
    MainLink3(v);
    v := ConnectLegacy(t, 2, 4, v);
    MainLink4(v);
    v := ConnectLegacy(t, 2, 5, v);
    MainLink5(v);
    v := ConnectLegacy(t, 3, 6, v);
    MainMove(v);
    v := Move(t, 2, 3, v);
    refused := MoveRefused(t, 3, 6, v);
  }
}
