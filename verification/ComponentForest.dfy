/**
 The forest that parent ids describe, as values: which components are roots, whose children
 they are, in which order, and what hangs below them (backend/internal/domain/tree.go).
 */
module ComponentForest {
  import opened Base
  import opened Statuses
  import opened SiblingOrder

  // ----- Parents -----

  function IdsOf(cs: seq<Component>): set<Id> {
    set c | c in cs :: c.id
  }

  /** The parent id names another component of the list. */
  predicate HasParent(cs: seq<Component>, c: Component) {
    c.parentId.Some? && c.parentId.value in IdsOf(cs) && c.parentId.value != c.id
  }

  /** The listed components that hang below the id, in list order. */
  function ChildrenOf(all: seq<Component>, cs: seq<Component>, id: Id): seq<Component> {
    if cs == [] then []
    else
      var front, last := cs[..|cs| - 1], cs[|cs| - 1];
      ChildrenOf(all, front, id) + if HasParent(all, last) && last.parentId.value == id then [last] else []
  }

  function RootsOf(all: seq<Component>, cs: seq<Component>): seq<Component> {
    if cs == [] then []
    else
      var front, last := cs[..|cs| - 1], cs[|cs| - 1];
      RootsOf(all, front) + if HasParent(all, last) then [] else [last]
  }

  function Kids(cs: seq<Component>, c: Component): seq<Component> {
    Sort(ChildrenOf(cs, cs, c.id))
  }

  function Roots(cs: seq<Component>): seq<Component> {
    Sort(RootsOf(cs, cs))
  }

  lemma {:induction false} FilterMembers(all: seq<Component>, cs: seq<Component>, id: Id)
    ensures forall c :: c in ChildrenOf(all, cs, id) <==> c in cs && HasParent(all, c) && c.parentId.value == id
    ensures forall c :: c in RootsOf(all, cs) <==> c in cs && !HasParent(all, c)
  {
    if cs != [] {
      var front, last := cs[..|cs| - 1], cs[|cs| - 1];
      assert cs == front + [last];
      FilterMembers(all, front, id);
    }
  }

  predicate NoRepeats(cs: seq<Component>) {
    forall i, j :: 0 <= i < j < |cs| ==> cs[i] != cs[j]
  }

  lemma {:induction false} FiltersKeepNoRepeats(all: seq<Component>, cs: seq<Component>, id: Id)
    requires NoRepeats(cs)
    ensures NoRepeats(ChildrenOf(all, cs, id)) && NoRepeats(RootsOf(all, cs))
  {
    if cs != [] {
      var front, last := cs[..|cs| - 1], cs[|cs| - 1];
      FiltersKeepNoRepeats(all, front, id);
      FilterMembers(all, front, id);
      assert last !in front;
    }
  }

  lemma {:induction false} NoRepeatsCount(cs: seq<Component>)
    ensures NoRepeats(cs) <==> forall c :: multiset(cs)[c] <= 1
  {
    if cs != [] {
      var front, last := cs[..|cs| - 1], cs[|cs| - 1];
      assert cs == front + [last];
      NoRepeatsCount(front);
      if forall c :: multiset(cs)[c] <= 1 {
        forall c ensures multiset(front)[c] <= 1 {
          assert multiset(front)[c] <= multiset(cs)[c];
        }
        assert multiset(cs)[last] <= 1;
        assert last !in multiset(front);
        assert last !in front;
        forall i, j | 0 <= i < j < |cs| ensures cs[i] != cs[j] {
          if j == |front| {
            assert front[i] in front;
          } else {
            assert front[i] != front[j];
          }
        }
      }
      if NoRepeats(cs) {
        assert last !in front;
        forall c ensures multiset(cs)[c] <= 1 {
          assert multiset(front)[c] <= 1;
        }
      }
    }
  }

  /** Sorted children and roots have the right members, once each. */
  lemma KidsAndRoots(cs: seq<Component>, c: Component)
    requires DistinctIds(cs)
    ensures forall k :: k in Kids(cs, c) <==> k in cs && HasParent(cs, k) && k.parentId.value == c.id
    ensures forall r :: r in Roots(cs) <==> r in cs && !HasParent(cs, r)
    ensures NoRepeats(Kids(cs, c)) && NoRepeats(Roots(cs))
    ensures Sorted(Kids(cs, c)) && Sorted(Roots(cs))
  {
    assert NoRepeats(cs);
    var kids, roots := ChildrenOf(cs, cs, c.id), RootsOf(cs, cs);
    FiltersKeepNoRepeats(cs, cs, c.id);
    FilterMembers(cs, cs, c.id);
    SortSorts(kids);
    SortSorts(roots);
    NoRepeatsCount(kids);
    NoRepeatsCount(roots);
    NoRepeatsCount(Sort(kids));
    NoRepeatsCount(Sort(roots));
    forall k ensures k in Kids(cs, c) <==> k in kids {
      assert k in multiset(Kids(cs, c)) <==> k in multiset(kids);
    }
    forall r ensures r in Roots(cs) <==> r in roots {
      assert r in multiset(Roots(cs)) <==> r in multiset(roots);
    }
  }

  /** Below a component are those that name it as parent; roots name nobody listed, or themselves. */
  lemma KidsNameTheirParent(cs: seq<Component>, c: Component, k: Component)
    requires DistinctIds(cs) && c in cs
    ensures k in Kids(cs, c) <==> k in cs && k.parentId == Some(c.id) && k.id != c.id
    ensures k in Roots(cs) <==>
            k in cs && (k.parentId == Some(k.id) || forall p :: p in cs ==> k.parentId != Some(p.id))
  {
    KidsAndRoots(cs, c);
    assert c.id in IdsOf(cs);
    if HasParent(cs, k) {
      var p :| p in cs && p.id == k.parentId.value;
    }
    if p :| p in cs && k.parentId == Some(p.id) {
      assert p.id in IdsOf(cs);
    }
  }

  // ----- Parent chains -----

  ghost function ParentOf(cs: seq<Component>, c: Component): (p: Component)
    requires HasParent(cs, c)
    ensures p in cs && p.id == c.parentId.value
  {
    var p :| p in cs && p.id == c.parentId.value;
    p
  }

  lemma IdDecides(cs: seq<Component>, a: Component, b: Component)
    requires DistinctIds(cs) && a in cs && b in cs && a.id == b.id
    ensures a == b
  {
    var i :| 0 <= i < |cs| && cs[i] == a;
    var j :| 0 <= j < |cs| && cs[j] == b;
    assert i == j;
  }

  /** The parent chain of c ends in a root after n steps. */
  ghost predicate EndsIn(cs: seq<Component>, c: Component, n: nat)
    decreases n
  {
    if n == 0 then !HasParent(cs, c) else HasParent(cs, c) && EndsIn(cs, ParentOf(cs, c), n - 1)
  }

  /** The parent chain of c ends, that is, c is neither on nor below a parent cycle. */
  ghost predicate Grounded(cs: seq<Component>, c: Component) {
    exists n: nat :: EndsIn(cs, c, n)
  }

  lemma {:induction false} DepthIsUnique(cs: seq<Component>, c: Component, m: nat, n: nat)
    requires EndsIn(cs, c, m) && EndsIn(cs, c, n)
    ensures m == n
    decreases m
  {
    if m > 0 && n > 0 {
      DepthIsUnique(cs, ParentOf(cs, c), m - 1, n - 1);
    }
  }

  /** The components on the chain from c to its root. */
  ghost function Chain(cs: seq<Component>, c: Component, n: nat): set<Component>
    requires EndsIn(cs, c, n)
    decreases n
  {
    if n == 0 then {c} else {c} + Chain(cs, ParentOf(cs, c), n - 1)
  }

  lemma {:induction false} ChainDepth(cs: seq<Component>, c: Component, n: nat, x: Component) returns (k: nat)
    requires EndsIn(cs, c, n) && x in Chain(cs, c, n)
    ensures k <= n && EndsIn(cs, x, k)
    decreases n
  {
    if x == c {
      k := n;
    } else {
      k := ChainDepth(cs, ParentOf(cs, c), n - 1, x);
    }
  }

  lemma {:induction false} ChainSize(cs: seq<Component>, c: Component, n: nat)
    requires EndsIn(cs, c, n) && c in cs
    ensures |Chain(cs, c, n)| == n + 1 && Chain(cs, c, n) <= set x | x in cs
    decreases n
  {
    if n > 0 {
      ChainSize(cs, ParentOf(cs, c), n - 1);
      if c in Chain(cs, ParentOf(cs, c), n - 1) {
        var k := ChainDepth(cs, ParentOf(cs, c), n - 1, c);
        DepthIsUnique(cs, c, k, n);
      }
    }
  }

  lemma {:induction false} MembersAtMost(cs: seq<Component>)
    ensures |set x | x in cs| <= |cs|
  {
    if cs != [] {
      var front, last := cs[..|cs| - 1], cs[|cs| - 1];
      MembersAtMost(front);
      assert cs == front + [last];
      assert (set x | x in cs) == (set x | x in front) + {last};
    }
  }

  lemma {:induction false} ComponentSubsetSize(a: set<Component>, b: set<Component>)
    requires a <= b
    ensures |a| <= |b|
  {
    if a != {} {
      assert |a| != 0;
      var x :| x in a;
      ComponentSubsetSize(a - {x}, b - {x});
    }
  }

  /** Chains are shorter than the list, which bounds every walk down the forest. */
  lemma DepthIsBounded(cs: seq<Component>, c: Component, n: nat)
    requires EndsIn(cs, c, n) && c in cs
    ensures n < |cs|
  {
    ChainSize(cs, c, n);
    MembersAtMost(cs);
    ComponentSubsetSize(Chain(cs, c, n), set x | x in cs);
  }

  // ----- Reading the forest -----

  ghost predicate AtDepth(cs: seq<Component>, c: Component, n: nat) {
    c in cs && EndsIn(cs, c, n)
  }

  /** A list of components of one depth. */
  ghost predicate Level(cs: seq<Component>, forest: seq<Component>, n: nat) {
    DistinctIds(cs) && forall i :: 0 <= i < |forest| ==> AtDepth(cs, forest[i], n)
  }

  lemma RootsAreALevel(cs: seq<Component>)
    requires DistinctIds(cs)
    ensures Level(cs, Roots(cs), 0) && NoRepeats(Roots(cs))
  {
    if cs != [] {
      KidsAndRoots(cs, cs[0]);
    }
  }

  /** The children lists of all nodes. */
  type Links = map<Component, seq<Component>>

  ghost predicate Below(cs: seq<Component>, c: Component, kids: seq<Component>) {
    NoRepeats(kids) && forall k :: k in kids <==> k in cs && HasParent(cs, k) && k.parentId.value == c.id
  }

  ghost predicate Fits(cs: seq<Component>, links: Links, c: Component) {
    c in links && Below(cs, c, links[c])
  }

  ghost predicate Linked(cs: seq<Component>, links: Links) {
    && DistinctIds(cs)
    && (forall c :: c in cs ==> c in links)
    && forall c {:trigger Fits(cs, links, c)} :: c in cs ==> Fits(cs, links, c)
  }

  /** The links that BuildComponentTree makes. */
  function LinksOf(cs: seq<Component>): Links {
    map c | c in cs :: Kids(cs, c)
  }

  lemma LinksOfLinks(cs: seq<Component>)
    requires DistinctIds(cs)
    ensures Linked(cs, LinksOf(cs))
  {
    forall c | c in cs ensures Fits(cs, LinksOf(cs), c) {
      KidsAndRoots(cs, c);
    }
  }

  lemma ChildIsDeeper(cs: seq<Component>, links: Links, c: Component, kid: Component, n: nat)
    requires Linked(cs, links) && c in cs && EndsIn(cs, c, n) && kid in links[c]
    ensures kid in cs && EndsIn(cs, kid, n + 1) && ParentOf(cs, kid) == c
  {
    assert Fits(cs, links, c);
    IdDecides(cs, ParentOf(cs, kid), c);
  }

  lemma KidsAreALevel(cs: seq<Component>, links: Links, c: Component, n: nat)
    requires Linked(cs, links) && AtDepth(cs, c, n)
    ensures Level(cs, links[c], n + 1) && NoRepeats(links[c]) && n < |cs|
  {
    assert Fits(cs, links, c);
    forall i | 0 <= i < |links[c]| ensures AtDepth(cs, links[c][i], n + 1) {
      ChildIsDeeper(cs, links, c, links[c][i], n);
    }
    DepthIsBounded(cs, c, n);
  }

  /** Every component reached from the listed ones, depth first. */
  ghost function Flatten(cs: seq<Component>, links: Links, forest: seq<Component>, n: nat): seq<Component>
    requires Linked(cs, links) && Level(cs, forest, n)
    decreases |cs| - n, |forest|
  {
    if forest == [] then []
    else
      KidsAreALevel(cs, links, forest[0], n);
      [forest[0]] + Flatten(cs, links, links[forest[0]], n + 1) + Flatten(cs, links, forest[1..], n)
  }

  /** The ancestor of x at depth n. */
  ghost function Ancestor(cs: seq<Component>, x: Component, d: nat, n: nat): (a: Component)
    requires EndsIn(cs, x, d) && n <= d
    ensures EndsIn(cs, a, n)
    ensures x in cs ==> a in cs
    decreases d
  {
    if d == n then x else Ancestor(cs, ParentOf(cs, x), d - 1, n)
  }

  lemma {:induction false} AncestorStep(cs: seq<Component>, x: Component, d: nat, n: nat)
    requires EndsIn(cs, x, d) && n < d
    ensures HasParent(cs, Ancestor(cs, x, d, n + 1))
    ensures ParentOf(cs, Ancestor(cs, x, d, n + 1)) == Ancestor(cs, x, d, n)
    decreases d
  {
    if d > n + 1 {
      AncestorStep(cs, ParentOf(cs, x), d - 1, n);
    }
  }

  /** The ancestor of x at depth n is listed. */
  ghost predicate Under(cs: seq<Component>, x: Component, d: nat, forest: seq<Component>, n: nat)
    requires EndsIn(cs, x, d)
  {
    n <= d && Ancestor(cs, x, d, n) in forest
  }

  /** A component hangs under a node exactly if it is the node or hangs under one of its children. */
  lemma UnderOne(cs: seq<Component>, links: Links, x: Component, d: nat, f: Component, n: nat)
    requires Linked(cs, links) && AtDepth(cs, f, n) && AtDepth(cs, x, d)
    ensures Under(cs, x, d, [f], n) <==> x == f || Under(cs, x, d, links[f], n + 1)
    ensures !(x == f && Under(cs, x, d, links[f], n + 1))
  {
    assert Fits(cs, links, f);
    if x == f {
      DepthIsUnique(cs, x, d, n);
    } else if n < d {
      AncestorStep(cs, x, d, n);
      var up := Ancestor(cs, x, d, n + 1);
      if up in links[f] {
        ChildIsDeeper(cs, links, f, up, n);
      }
    }
  }

  lemma UnderParts(
    cs: seq<Component>, x: Component, d: nat, f: Component, rest: seq<Component>, forest: seq<Component>, n: nat)
    requires EndsIn(cs, x, d) && forest != [] && f == forest[0] && rest == forest[1..] && NoRepeats(forest)
    ensures NoRepeats(rest)
    ensures Count(Under(cs, x, d, forest, n)) == Count(Under(cs, x, d, [f], n)) + Count(Under(cs, x, d, rest, n))
  {
    assert forest == [f] + rest;
  }

  function Count(once: bool): nat {
    if once then 1 else 0
  }

  lemma CountParts(f: Component, below: seq<Component>, behind: seq<Component>, x: Component)
    ensures multiset([f] + below + behind)[x] == Count(f == x) + multiset(below)[x] + multiset(behind)[x]
  {
  }

  /** How often x is reached from a list, by its first node, that node's children and the rest. */
  lemma FlattenParts(
    cs: seq<Component>, links: Links, forest: seq<Component>, n: nat, x: Component, f: Component, rest: seq<Component>)
    requires Linked(cs, links) && Level(cs, forest, n)
    requires forest != [] && f == forest[0] && rest == forest[1..]
    ensures f in links && n < |cs| && Level(cs, rest, n) && Level(cs, links[f], n + 1) && NoRepeats(links[f])
    ensures multiset(Flatten(cs, links, forest, n))[x]
         == Count(f == x) + multiset(Flatten(cs, links, links[f], n + 1))[x] + multiset(Flatten(cs, links, rest, n))[x]
  {
    KidsAreALevel(cs, links, f, n);
    CountParts(f, Flatten(cs, links, links[f], n + 1), Flatten(cs, links, rest, n), x);
  }

  lemma UnderSplit(
    cs: seq<Component>, links: Links, x: Component, d: nat, forest: seq<Component>, n: nat, f: Component,
    rest: seq<Component>)
    requires Linked(cs, links) && AtDepth(cs, x, d) && Level(cs, forest, n) && NoRepeats(forest)
    requires forest != [] && f == forest[0] && rest == forest[1..]
    ensures f in links && NoRepeats(rest)
    ensures Count(Under(cs, x, d, forest, n))
         == Count(f == x) + Count(Under(cs, x, d, links[f], n + 1)) + Count(Under(cs, x, d, rest, n))
  {
    UnderParts(cs, x, d, f, rest, forest, n);
    UnderOne(cs, links, x, d, f, n);
  }

  /** x is reached from the list once if its ancestor of that depth is listed, and never otherwise. */
  lemma {:induction false} FlattenCounts(
    cs: seq<Component>, links: Links, forest: seq<Component>, n: nat, x: Component, d: nat)
    requires Linked(cs, links) && Level(cs, forest, n) && NoRepeats(forest) && AtDepth(cs, x, d)
    ensures multiset(Flatten(cs, links, forest, n))[x] == Count(Under(cs, x, d, forest, n))
    decreases |cs| - n, |forest|
  {
    if forest == [] {
      assert Flatten(cs, links, forest, n) == [];
      assert !Under(cs, x, d, forest, n);
    } else {
      var f, rest := forest[0], forest[1..];
      FlattenParts(cs, links, forest, n, x, f, rest);
      UnderSplit(cs, links, x, d, forest, n, f, rest);
      FlattenCounts(cs, links, links[f], n + 1, x, d);
      FlattenCounts(cs, links, rest, n, x, d);
    }
  }

  lemma {:induction false} FlattenIsGrounded(
    cs: seq<Component>, links: Links, forest: seq<Component>, n: nat, x: Component)
    requires Linked(cs, links) && Level(cs, forest, n) && x in Flatten(cs, links, forest, n)
    ensures x in cs && Grounded(cs, x)
    decreases |cs| - n, |forest|
  {
    var f, rest := forest[0], forest[1..];
    KidsAreALevel(cs, links, f, n);
    if x in Flatten(cs, links, links[f], n + 1) {
      FlattenIsGrounded(cs, links, links[f], n + 1, x);
    } else if x in Flatten(cs, links, rest, n) {
      FlattenIsGrounded(cs, links, rest, n, x);
    }
  }

  /** The forest that BuildComponentTree's roots reach. */
  ghost function Forest(cs: seq<Component>): seq<Component>
    requires DistinctIds(cs)
  {
    LinksOfLinks(cs);
    RootsAreALevel(cs);
    Flatten(cs, LinksOf(cs), Roots(cs), 0)
  }

  lemma RootIsListed(cs: seq<Component>, root: Component)
    requires DistinctIds(cs)
    ensures root in Roots(cs) <==> AtDepth(cs, root, 0)
  {
    KidsAndRoots(cs, root);
  }

  /**
   Main result: the forest holds each component whose parent chain ends exactly once, and no
   component on or below a parent cycle.
   */
  lemma ForestHoldsGroundedOnce(cs: seq<Component>, x: Component)
    requires DistinctIds(cs) && x in cs
    ensures multiset(Forest(cs))[x] == Count(Grounded(cs, x))
  {
    LinksOfLinks(cs);
    RootsAreALevel(cs);
    if Grounded(cs, x) {
      var d: nat :| EndsIn(cs, x, d);
      FlattenCounts(cs, LinksOf(cs), Roots(cs), 0, x, d);
      RootIsListed(cs, Ancestor(cs, x, d, 0));
    } else if x in Forest(cs) {
      FlattenIsGrounded(cs, LinksOf(cs), Roots(cs), 0, x);
    }
  }

  // ----- Effective status -----

  /** What EffectiveStatus answers: the children's effective statuses folded into the node's own. */
  ghost function Effective(cs: seq<Component>, links: Links, c: Component, n: nat): ComponentStatus
    requires Linked(cs, links) && AtDepth(cs, c, n)
    decreases |cs| - n, 0
  {
    KidsAreALevel(cs, links, c, n);
    EffectiveFold(cs, links, c.status, links[c], n + 1)
  }

  ghost function EffectiveFold(
    cs: seq<Component>, links: Links, own: ComponentStatus, kids: seq<Component>, n: nat): ComponentStatus
    requires Linked(cs, links) && Level(cs, kids, n) && 0 < n <= |cs|
    decreases |cs| - n, |kids| + 1
  {
    if kids == [] then own
    else
      KidsAreALevel(cs, links, kids[|kids| - 1], n);
      WorstIn({EffectiveFold(cs, links, own, kids[..|kids| - 1], n), Effective(cs, links, kids[|kids| - 1], n)})
  }

  function StatusesOf(cs: seq<Component>): set<ComponentStatus> {
    set c | c in cs :: c.status
  }

  /** A status that IsValid rejects survives only on a node without children. */
  predicate Settled(c: Component, kids: seq<Component>) {
    IsValid(c.status) || kids != []
  }

  /**
   Main result: the effective status is the worst status over the whole subtree, except that a leaf
   shows a status outside the five unchanged.
   */
  lemma {:induction false} EffectiveIsWorstOfSubtree(cs: seq<Component>, links: Links, c: Component, n: nat)
    requires Linked(cs, links) && AtDepth(cs, c, n)
    ensures Level(cs, [c], n)
    ensures Effective(cs, links, c, n) == WorstIn(StatusesOf(Flatten(cs, links, [c], n))) <==> Settled(c, links[c])
    ensures WorstIn({Effective(cs, links, c, n)}) == WorstIn(StatusesOf(Flatten(cs, links, [c], n)))
    decreases |cs| - n, 0
  {
    KidsAreALevel(cs, links, c, n);
    var below := Flatten(cs, links, links[c], n + 1);
    assert [c][1..] == [];
    assert Flatten(cs, links, [c], n) == [c] + below;
    assert StatusesOf([c] + below) == {c.status} + StatusesOf(below);
    FoldIsWorst(cs, links, c.status, links[c], n + 1);
  }

  lemma {:induction false} FoldIsWorst(
    cs: seq<Component>, links: Links, own: ComponentStatus, kids: seq<Component>, n: nat)
    requires Linked(cs, links) && Level(cs, kids, n) && 0 < n <= |cs|
    ensures WorstIn({EffectiveFold(cs, links, own, kids, n)}) ==
            WorstIn({own} + StatusesOf(Flatten(cs, links, kids, n)))
    ensures kids != [] ==> IsValid(EffectiveFold(cs, links, own, kids, n))
    decreases |cs| - n, |kids| + 1
  {
    if kids != [] {
      var front, last := kids[..|kids| - 1], kids[|kids| - 1];
      KidsAreALevel(cs, links, last, n);
      FoldIsWorst(cs, links, own, front, n);
      EffectiveIsWorstOfSubtree(cs, links, last, n);
      assert Flatten(cs, links, kids, n) == Flatten(cs, links, front, n) + Flatten(cs, links, [last], n) by {
        assert kids == front + [last];
        FlattenLast(cs, links, front, last, n);
      }
      WorstOfParts(own, Flatten(cs, links, front, n), Flatten(cs, links, [last], n), Flatten(cs, links, kids, n),
        EffectiveFold(cs, links, own, front, n), Effective(cs, links, last, n));
    }
  }

  lemma WorstOfParts(
    own: ComponentStatus, front: seq<Component>, last: seq<Component>, both: seq<Component>, x: ComponentStatus,
    y: ComponentStatus)
    requires both == front + last
    requires WorstIn({x}) == WorstIn({own} + StatusesOf(front)) && WorstIn({y}) == WorstIn(StatusesOf(last))
    ensures WorstIn({x, y}) == WorstIn({own} + StatusesOf(both))
    ensures WorstIn({WorstIn({x, y})}) == WorstIn({x, y})
  {
    var a, b := StatusesOf(front), StatusesOf(last);
    assert StatusesOf(both) == a + b;
    assert {own} + (a + b) == ({own} + a) + b;
    WorstInUnion({own} + a, b);
    WorstInUnion({x}, {y});
    assert {x} + {y} == {x, y};
  }

  lemma {:induction false} FlattenLast(cs: seq<Component>, links: Links, front: seq<Component>, last: Component, n: nat)
    requires Linked(cs, links) && Level(cs, front, n) && AtDepth(cs, last, n)
    ensures Level(cs, front + [last], n) && Level(cs, [last], n)
    ensures Flatten(cs, links, front + [last], n) == Flatten(cs, links, front, n) + Flatten(cs, links, [last], n)
    decreases |front|
  {
    if front == [] {
      assert front + [last] == [last];
    } else {
      KidsAreALevel(cs, links, front[0], n);
      assert (front + [last])[1..] == front[1..] + [last];
      FlattenLast(cs, links, front[1..], last, n);
    }
  }
}
