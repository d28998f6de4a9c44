/**
 The component tree as linked nodes: building it from the flat list and reading the effective status
 off it (backend/internal/domain/tree.go).
 */
module ComponentTree {
  import opened Base
  import opened Statuses
  import opened SiblingOrder
  import opened ComponentForest

  class ComponentNode {
    const component: Component
    var children: seq<ComponentNode>

    constructor (component: Component)
      ensures this.component == component && children == []
    {
      this.component, children := component, [];
    }
  }

  function ComponentsOf(ns: seq<ComponentNode>): seq<Component> {
    seq(|ns|, i requires 0 <= i < |ns| => ns[i].component)
  }

  /** The nodes of the list, by id: one for each component. */
  type Nodes = map<Id, ComponentNode>

  ghost predicate OneEach(cs: seq<Component>, nodes: Nodes) {
    && nodes.Keys == IdsOf(cs)
    && forall i {:trigger cs[i]} :: 0 <= i < |cs| ==> nodes[cs[i].id].component == cs[i]
  }

  /** A list of nodes shows exactly these components, through the node that stands for each. */
  ghost predicate Shows(nodes: Nodes, ns: seq<ComponentNode>, ks: seq<Component>) {
    && ComponentsOf(ns) == ks
    && forall n :: n in ns ==> n.component.id in nodes && nodes[n.component.id] == n
  }

  lemma ShowsOneMore(nodes: Nodes, ns: seq<ComponentNode>, ks: seq<Component>, n: ComponentNode)
    requires Shows(nodes, ns, ks) && n.component.id in nodes && nodes[n.component.id] == n
    ensures Shows(nodes, ns + [n], ks + [n.component])
  {
  }

  /** sortNodes: siblings by (Position, Name), stably. */
  method SortNodes(ns: seq<ComponentNode>) returns (sorted: seq<ComponentNode>)
    ensures ComponentsOf(sorted) == Sort(ComponentsOf(ns))
    ensures forall n :: n in sorted ==> n in ns
  {
    sorted := [];
    for i := 0 to |ns|
      invariant ComponentsOf(sorted) == Sort(ComponentsOf(ns)[..i])
      invariant forall n :: n in sorted ==> n in ns
    {
      SortOneMore(ComponentsOf(ns), i);
      var p := InsertPosition(ns[i].component, ComponentsOf(sorted));
      PutIn(sorted, p, ns[i]);
      sorted := sorted[..p] + [ns[i]] + sorted[p..];
    }
    assert ComponentsOf(ns)[..|ns|] == ComponentsOf(ns);
  }

  lemma PutIn(ns: seq<ComponentNode>, p: nat, n: ComponentNode)
    requires p <= |ns|
    ensures ComponentsOf(ns[..p] + [n] + ns[p..]) == ComponentsOf(ns)[..p] + [n.component] + ComponentsOf(ns)[p..]
    ensures forall m :: m in ns[..p] + [n] + ns[p..] ==> m in ns || m == n
  {
  }

  lemma SortOneMore(cs: seq<Component>, i: nat)
    requires i < |cs|
    ensures Sort(cs[..i + 1]) == Insert(cs[i], Sort(cs[..i]))
  {
    assert cs[..i + 1][..i] == cs[..i];
  }

  ghost predicate Stands(nodes: Nodes, links: Links, c: Component)
    reads nodes.Values
  {
    c.id in nodes && c in links && Shows(nodes, nodes[c.id].children, links[c])
  }

  /** Every node's children are the given ones. */
  ghost predicate Tree(cs: seq<Component>, nodes: Nodes, links: Links)
    reads nodes.Values
  {
    && OneEach(cs, nodes)
    && (forall c :: c in cs ==> c in links)
    && forall c {:trigger Stands(nodes, links, c)} :: c in cs ==> Stands(nodes, links, c)
  }

  /**
   BuildComponentTree: the nodes it links are new, each stands for one component, its children are the
   sorted children of that component, and the returned roots are the sorted roots.
   */
  method BuildComponentTree(cs: seq<Component>) returns (roots: seq<ComponentNode>, ghost nodes: Nodes)
    requires DistinctIds(cs)
    ensures fresh(nodes.Values)
    ensures Tree(cs, nodes, LinksOf(cs)) && Shows(nodes, roots, Roots(cs))
  {
    var index := MakeNodes(cs);
    nodes := index;
    roots := Link(cs, index);
    roots := SortNodes(roots);
    SortAll(cs, index, Unsorted(cs, cs), LinksOf(cs));
  }

  method MakeNodes(cs: seq<Component>) returns (index: Nodes)
    requires DistinctIds(cs)
    ensures OneEach(cs, index) && fresh(index.Values)
    ensures forall n :: n in index.Values ==> n.children == []
  {
    index := map[];
    for i := 0 to |cs|
      invariant OneEach(cs[..i], index)
      invariant fresh(index.Values)
      invariant forall n :: n in index.Values ==> n.children == []
    {
      var node := new ComponentNode(cs[i]);
      assert IdsOf(cs[..i + 1]) == IdsOf(cs[..i]) + {cs[i].id};
      assert index[cs[i].id := node].Values <= index.Values + {node};
      index := index[cs[i].id := node];
    }
    assert cs[..|cs|] == cs;
  }

  /** The children in list order, as far as the list has been read. */
  function Unsorted(cs: seq<Component>, read: seq<Component>): Links {
    map c | c in cs :: ChildrenOf(cs, read, c.id)
  }

  /** The children of `of` once c has been placed. */
  function Adopted(cs: seq<Component>, c: Component, of: Component, kids: seq<Component>): seq<Component> {
    if HasParent(cs, c) && c.parentId.value == of.id then kids + [c] else kids
  }

  /** The links and roots after one more component. */
  lemma ReadOneMore(cs: seq<Component>, i: nat)
    requires i < |cs|
    ensures HasParent(cs, cs[i]) ==> RootsOf(cs, cs[..i + 1]) == RootsOf(cs, cs[..i])
    ensures !HasParent(cs, cs[i]) ==> RootsOf(cs, cs[..i + 1]) == RootsOf(cs, cs[..i]) + [cs[i]]
    ensures forall c :: c in cs ==>
              Unsorted(cs, cs[..i + 1])[c] == Adopted(cs, cs[i], c, Unsorted(cs, cs[..i])[c])
  {
    assert cs[..i + 1][..i] == cs[..i] && cs[..i + 1][i] == cs[i];
  }

  /** The second pass: a component goes below its listed parent, or among the roots. */
  method Link(cs: seq<Component>, index: Nodes) returns (roots: seq<ComponentNode>)
    requires DistinctIds(cs) && OneEach(cs, index)
    requires forall n :: n in index.Values ==> n.children == []
    modifies index.Values
    ensures Shows(index, roots, RootsOf(cs, cs)) && Tree(cs, index, Unsorted(cs, cs))
  {
    roots := [];
    for i := 0 to |cs|
      invariant Shows(index, roots, RootsOf(cs, cs[..i])) && Tree(cs, index, Unsorted(cs, cs[..i]))
    {
      ReadOneMore(cs, i);
      roots := LinkOne(cs, index, i, roots, Unsorted(cs, cs[..i]), Unsorted(cs, cs[..i + 1]));
    }
    assert cs[..|cs|] == cs;
  }

  method LinkOne(
    cs: seq<Component>, index: Nodes, i: nat, roots: seq<ComponentNode>, ghost before: Links, ghost after: Links)
    returns (longer: seq<ComponentNode>)
    requires i < |cs| && DistinctIds(cs) && OneEach(cs, index) && Tree(cs, index, before)
    requires forall c :: c in cs ==> c in after && after[c] == Adopted(cs, cs[i], c, before[c])
    requires forall n :: n in roots ==> n.component.id in index && index[n.component.id] == n
    modifies index.Values
    ensures Tree(cs, index, after)
    ensures ComponentsOf(longer) == if HasParent(cs, cs[i]) then ComponentsOf(roots) else ComponentsOf(roots) + [cs[i]]
    ensures forall n :: n in longer ==> n.component.id in index && index[n.component.id] == n
  {
    var c := cs[i];
    var node := index[c.id];
    if c.parentId.Some? && c.parentId.value in index && index[c.parentId.value] != node {
      var parent := index[c.parentId.value];
      TreeAt(cs, index, before, c.parentId.value);
      ShowsOneMore(index, parent.children, before[parent.component], node);
      SetChildren(cs, index, c.parentId.value, parent.children + [node], before, after);
      longer := roots;
    } else {
      assert !HasParent(cs, c);
      longer := roots + [node];
      SameTree(cs, index, before, after);
    }
  }

  /** Giving one node another list of children changes the links of its component alone. */
  method SetChildren(
    cs: seq<Component>, index: Nodes, id: Id, ns: seq<ComponentNode>, ghost before: Links, ghost after: Links)
    requires DistinctIds(cs) && Tree(cs, index, before) && id in index
    requires forall c :: c in cs ==> c in after
    requires forall c :: c in cs ==> if c.id == id then Shows(index, ns, after[c]) else after[c] == before[c]
    modifies index[id]
    ensures Tree(cs, index, after)
  {
    var node := index[id];
    assert node.component.id == id;
    node.children := ns;
    forall c | c in cs ensures Stands(index, after, c) {
      assert old(Stands(index, before, c));
    }
  }

  lemma TreeAt(cs: seq<Component>, index: Nodes, links: Links, id: Id)
    requires DistinctIds(cs) && Tree(cs, index, links) && id in index
    ensures index[id].component in cs && index[id].component.id == id && index[id].component in links
    ensures Shows(index, index[id].children, links[index[id].component])
    ensures forall c :: c in cs && c.id == id ==> c == index[id].component
  {
    var c :| c in cs && c.id == id;
    assert Stands(index, links, c);
  }

  lemma SameTree(cs: seq<Component>, index: Nodes, before: Links, after: Links)
    requires Tree(cs, index, before)
    requires forall c :: c in cs ==> c in after && after[c] == before[c]
    ensures Tree(cs, index, after)
  {
    forall c | c in cs ensures Stands(index, after, c) {
      assert Stands(index, before, c);
    }
  }

  ghost predicate SortedLinks(cs: seq<Component>, before: Links, after: Links) {
    forall c :: c in cs ==> c in before && c in after && after[c] == Sort(before[c])
  }

  /** The links while the lists of the ids in `todo` are still unsorted. */
  ghost function Half(cs: seq<Component>, todo: set<Id>, before: Links, after: Links): Links
    requires SortedLinks(cs, before, after)
  {
    map c | c in cs :: if c.id in todo then before[c] else after[c]
  }

  method SortAll(cs: seq<Component>, index: Nodes, ghost before: Links, ghost after: Links)
    requires DistinctIds(cs) && Tree(cs, index, before) && SortedLinks(cs, before, after)
    modifies index.Values
    ensures Tree(cs, index, after)
  {
    var todo := index.Keys;
    AllIsHalf(cs, index, before, after);
    while todo != {}
      invariant todo <= index.Keys && Tree(cs, index, Half(cs, todo, before, after))
      decreases |todo|
    {
      Inhabited(todo);
      var id :| id in todo;
      SortNext(cs, index, id, todo, before, after);
      todo := todo - {id};
    }
    NoneIsHalf(cs, index, before, after);
  }

  lemma AllIsHalf(cs: seq<Component>, index: Nodes, before: Links, after: Links)
    requires Tree(cs, index, before) && SortedLinks(cs, before, after)
    ensures Tree(cs, index, Half(cs, index.Keys, before, after))
  {
    SameTree(cs, index, before, Half(cs, index.Keys, before, after));
  }

  lemma NoneIsHalf(cs: seq<Component>, index: Nodes, before: Links, after: Links)
    requires SortedLinks(cs, before, after) && Tree(cs, index, Half(cs, {}, before, after))
    ensures Tree(cs, index, after)
  {
    SameTree(cs, index, Half(cs, {}, before, after), after);
  }

  method SortNext(
    cs: seq<Component>, index: Nodes, id: Id, ghost todo: set<Id>, ghost before: Links, ghost after: Links)
    requires DistinctIds(cs) && SortedLinks(cs, before, after) && id in todo && id in index
    requires Tree(cs, index, Half(cs, todo, before, after))
    modifies index[id]
    ensures Tree(cs, index, Half(cs, todo - {id}, before, after))
  {
    HalfNext(cs, id, todo, before, after);
    SortOne(cs, index, id, Half(cs, todo, before, after), Half(cs, todo - {id}, before, after));
  }

  lemma HalfNext(cs: seq<Component>, id: Id, todo: set<Id>, before: Links, after: Links)
    requires SortedLinks(cs, before, after) && id in todo
    ensures forall c :: c in cs ==> c in Half(cs, todo, before, after) && c in Half(cs, todo - {id}, before, after)
    ensures forall c :: c in cs ==>
              (Half(cs, todo - {id}, before, after)[c] ==
               if c.id == id then Sort(Half(cs, todo, before, after)[c]) else Half(cs, todo, before, after)[c])
  {
  }

  method SortOne(cs: seq<Component>, index: Nodes, id: Id, ghost before: Links, ghost after: Links)
    requires DistinctIds(cs) && Tree(cs, index, before) && id in index
    requires forall c :: c in cs ==> c in after
    requires forall c :: c in cs ==> after[c] == if c.id == id then Sort(before[c]) else before[c]
    modifies index[id]
    ensures Tree(cs, index, after)
  {
    TreeAt(cs, index, before, id);
    var sorted := SortNodes(index[id].children);
    SetChildren(cs, index, id, sorted, before, after);
  }

  lemma FoldOneMore(cs: seq<Component>, links: Links, own: ComponentStatus, kids: seq<Component>, n: nat, i: nat)
    requires Linked(cs, links) && Level(cs, kids, n) && 0 < n <= |cs| && i < |kids|
    ensures EffectiveFold(cs, links, own, kids[..i + 1], n)
         == WorstIn({EffectiveFold(cs, links, own, kids[..i], n), Effective(cs, links, kids[i], n)})
  {
    assert kids[..i + 1][..i] == kids[..i];
  }

  lemma NodeStands(cs: seq<Component>, nodes: Nodes, links: Links, node: ComponentNode, n: nat)
    requires Linked(cs, links) && Tree(cs, nodes, links)
    requires AtDepth(cs, node.component, n) && nodes[node.component.id] == node
    ensures node.component in links && |node.children| == |links[node.component]|
    ensures Level(cs, links[node.component], n + 1) && n < |cs|
  {
    assert Stands(nodes, links, node.component);
    KidsAreALevel(cs, links, node.component, n);
  }

  lemma ChildStands(cs: seq<Component>, nodes: Nodes, links: Links, node: ComponentNode, n: nat, i: nat)
    requires Linked(cs, links) && Tree(cs, nodes, links)
    requires AtDepth(cs, node.component, n) && nodes[node.component.id] == node && i < |node.children|
    ensures node.component in links && |node.children| == |links[node.component]|
    ensures node.children[i].component == links[node.component][i]
    ensures AtDepth(cs, node.children[i].component, n + 1)
    ensures nodes[node.children[i].component.id] == node.children[i]
  {
    assert Stands(nodes, links, node.component);
    KidsAreALevel(cs, links, node.component, n);
    assert node.children[i].component == ComponentsOf(node.children)[i];
  }

  /** A node of the built tree at depth n. */
  ghost predicate Placed(cs: seq<Component>, nodes: Nodes, links: Links, node: ComponentNode, n: nat)
    reads nodes.Values
  {
    && Linked(cs, links) && Tree(cs, nodes, links)
    && AtDepth(cs, node.component, n) && nodes[node.component.id] == node
  }

  /**
   EffectiveStatus on a node of the built tree: it terminates although nodes are linked in the heap, and
   answers the worst status of the subtree, but for a leaf with a status outside the five.
   */
  method EffectiveStatus(
    node: ComponentNode, ghost cs: seq<Component>, ghost nodes: Nodes, ghost links: Links, ghost n: nat)
    returns (worst: ComponentStatus)
    requires Placed(cs, nodes, links, node, n)
    ensures worst == Effective(cs, links, node.component, n)
    decreases |cs| - n, 1
  {
    ghost var c := node.component;
    NodeStands(cs, nodes, links, node, n);
    worst := node.component.status;
    for i := 0 to |node.children|
      invariant worst == EffectiveFold(cs, links, c.status, links[c][..i], n + 1)
    {
      worst := WorseOf(worst, node, i, cs, nodes, links, n);
    }
    assert links[c][..|links[c]|] == links[c];
  }

  method WorseOf(
    worst: ComponentStatus, node: ComponentNode, i: nat, ghost cs: seq<Component>, ghost nodes: Nodes,
    ghost links: Links, ghost n: nat)
    returns (worse: ComponentStatus)
    requires Placed(cs, nodes, links, node, n) && i < |node.children|
    requires node.component in links && |node.children| == |links[node.component]|
    requires n < |cs| && Level(cs, links[node.component], n + 1)
    requires worst == EffectiveFold(cs, links, node.component.status, links[node.component][..i], n + 1)
    ensures worse == EffectiveFold(cs, links, node.component.status, links[node.component][..i + 1], n + 1)
    decreases |cs| - n, 0
  {
    ChildStands(cs, nodes, links, node, n, i);
    var sub := EffectiveStatus(node.children[i], cs, nodes, links, n + 1);
    var pair := [worst, sub];
    worse := WorstStatus(pair);
    assert Members(pair) == {pair[0], pair[1]};
    FoldOneMore(cs, links, node.component.status, links[node.component], n + 1, i);
  }

  /**
   A status of a root is the worst status of its subtree, exactly unless the root is a leaf with a status
   outside the five, which it shows unchanged.
   */
  ghost predicate WorstBelow(cs: seq<Component>, links: Links, root: Component, status: ComponentStatus) {
    && Linked(cs, links) && Level(cs, [root], 0) && root in links
    && (status == WorstIn(StatusesOf(Flatten(cs, links, [root], 0))) <==> Settled(root, links[root]))
    && WorstIn({status}) == WorstIn(StatusesOf(Flatten(cs, links, [root], 0)))
  }

  ghost predicate AllWorstBelow(
    cs: seq<Component>, links: Links, roots: seq<Component>, statuses: seq<ComponentStatus>) {
    |statuses| == |roots| && forall i :: 0 <= i < |roots| ==> WorstBelow(cs, links, roots[i], statuses[i])
  }

  lemma OneMoreBelow(
    cs: seq<Component>, links: Links, roots: seq<Component>, i: nat, statuses: seq<ComponentStatus>,
    status: ComponentStatus)
    requires i < |roots| && AllWorstBelow(cs, links, roots[..i], statuses) && WorstBelow(cs, links, roots[i], status)
    ensures AllWorstBelow(cs, links, roots[..i + 1], statuses + [status])
  {
    forall k | 0 <= k < i ensures WorstBelow(cs, links, roots[k], statuses[k]) {
      assert roots[..i][k] == roots[k];
    }
  }

  /** The nodes stand for components without a listed parent. */
  ghost predicate RootNodes(
    cs: seq<Component>, nodes: Nodes, links: Links, roots: seq<ComponentNode>, shown: seq<Component>)
    reads nodes.Values
  {
    Linked(cs, links) && Tree(cs, nodes, links) && Level(cs, shown, 0) && Shows(nodes, roots, shown)
  }

  method RootStatus(
    roots: seq<ComponentNode>, i: nat,
    ghost cs: seq<Component>, ghost nodes: Nodes, ghost links: Links, ghost shown: seq<Component>)
    returns (status: ComponentStatus)
    requires RootNodes(cs, nodes, links, roots, shown) && i < |roots|
    ensures i < |shown| && WorstBelow(cs, links, shown[i], status)
  {
    assert roots[i].component == ComponentsOf(roots)[i] && roots[i] in roots;
    status := EffectiveStatus(roots[i], cs, nodes, links, 0);
    EffectiveIsWorstOfSubtree(cs, links, shown[i], 0);
  }

  method StatusesOfRoots(
    roots: seq<ComponentNode>, ghost cs: seq<Component>, ghost nodes: Nodes, ghost links: Links,
    ghost shown: seq<Component>)
    returns (statuses: seq<ComponentStatus>)
    requires RootNodes(cs, nodes, links, roots, shown)
    ensures AllWorstBelow(cs, links, shown, statuses)
  {
    statuses := [];
    assert |shown| == |ComponentsOf(roots)|;
    for i := 0 to |roots|
      invariant AllWorstBelow(cs, links, shown[..i], statuses)
    {
      var status := RootStatus(roots, i, cs, nodes, links, shown);
      OneMoreBelow(cs, links, shown, i, statuses, status);
      statuses := statuses + [status];
    }
    assert shown[..|roots|] == shown;
  }

  /** Build the tree, and read the status of every root off it. */
  method RootStatuses(cs: seq<Component>) returns (roots: seq<ComponentNode>, statuses: seq<ComponentStatus>)
    requires DistinctIds(cs)
    ensures ComponentsOf(roots) == Roots(cs) && AllWorstBelow(cs, LinksOf(cs), Roots(cs), statuses)
  {
    ghost var nodes;
    roots, nodes := BuildComponentTree(cs);
    LinksOfLinks(cs);
    RootsAreALevel(cs);
    statuses := StatusesOfRoots(roots, cs, nodes, LinksOf(cs), Roots(cs));
  }
}
