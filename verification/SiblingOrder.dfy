/**
 Components of a page and the order siblings are shown in (sortNodes, backend/internal/domain/tree.go).
 */
module SiblingOrder {
  import opened Base
  import opened Statuses

  datatype Component = Component(id: Id, parentId: Option<Id>, position: int, name: string, status: ComponentStatus)

  /** Ids are primary keys. */
  predicate DistinctIds(cs: seq<Component>) {
    forall i, j :: 0 <= i < j < |cs| ==> cs[i].id != cs[j].id
  }

  /** Byte order of Go strings. */
  predicate LexLess(a: string, b: string) {
    b != "" && (a == "" || a[0] < b[0] || (a[0] == b[0] && LexLess(a[1..], b[1..])))
  }

  predicate Less(a: Component, b: Component) {
    if a.position != b.position then a.position < b.position else LexLess(a.name, b.name)
  }

  lemma {:induction false} LexOrder(a: string, b: string, c: string)
    ensures !(LexLess(a, b) && LexLess(b, a))
    ensures !LexLess(b, a) && !LexLess(c, b) ==> !LexLess(c, a)
  {
    if a != "" && b != "" && c != "" {
      LexOrder(a[1..], b[1..], c[1..]);
    } else if a != "" && b != "" {
      LexOrder(a[1..], b[1..], "");
    }
  }

  lemma LessOrder(a: Component, b: Component, c: Component)
    ensures !(Less(a, b) && Less(b, a))
    ensures !Less(b, a) && !Less(c, b) ==> !Less(c, a)
  {
    LexOrder(a.name, b.name, c.name);
  }

  /** Where insertion from the right stops: after everything that is not greater. */
  function InsertPosition(x: Component, sorted: seq<Component>): (p: nat)
    ensures p <= |sorted|
  {
    if sorted == [] || !Less(x, sorted[|sorted| - 1]) then |sorted|
    else InsertPosition(x, sorted[..|sorted| - 1])
  }

  lemma {:induction false} InsertPositionFits(x: Component, sorted: seq<Component>, p: nat)
    requires p == InsertPosition(x, sorted)
    ensures p > 0 ==> !Less(x, sorted[p - 1])
    ensures forall i :: p <= i < |sorted| ==> Less(x, sorted[i])
  {
    if sorted != [] && Less(x, sorted[|sorted| - 1]) {
      InsertPositionFits(x, sorted[..|sorted| - 1], p);
    }
  }

  function Insert(x: Component, sorted: seq<Component>): seq<Component> {
    var p := InsertPosition(x, sorted);
    sorted[..p] + [x] + sorted[p..]
  }

  /** A stable sort by (Position, Name). */
  function Sort(cs: seq<Component>): seq<Component> {
    if cs == [] then [] else Insert(cs[|cs| - 1], Sort(cs[..|cs| - 1]))
  }

  ghost predicate Sorted(cs: seq<Component>) {
    forall i, j :: 0 <= i < j < |cs| ==> !Less(cs[j], cs[i])
  }

  lemma InsertSorts(x: Component, sorted: seq<Component>)
    requires Sorted(sorted)
    ensures Sorted(Insert(x, sorted))
  {
    var p := InsertPosition(x, sorted);
    InsertPositionFits(x, sorted, p);
    SortedAround(sorted[..p], x, sorted[p..], sorted);
  }

  lemma SortedAround(low: seq<Component>, x: Component, high: seq<Component>, both: seq<Component>)
    requires Sorted(both) && both == low + high
    requires low != [] ==> !Less(x, low[|low| - 1])
    requires forall i :: 0 <= i < |high| ==> Less(x, high[i])
    ensures Sorted(low + [x] + high)
  {
    var r, p := low + [x] + high, |low|;
    forall i, j | 0 <= i < j < |r| ensures !Less(r[j], r[i]) {
      if i < p && j != p {
        assert r[i] == both[i] && r[j] == both[if j < p then j else j - 1];
      } else if i < p {
        LessOrder(both[i], low[p - 1], x);
        assert i < p - 1 ==> !Less(both[p - 1], both[i]);
      } else if i == p {
        LessOrder(x, high[j - p - 1], x);
      } else {
        assert r[i] == both[i - 1] && r[j] == both[j - 1];
      }
    }
  }

  lemma InsertKeeps(x: Component, sorted: seq<Component>)
    ensures multiset(Insert(x, sorted)) == multiset(sorted) + multiset{x}
  {
    var p := InsertPosition(x, sorted);
    assert sorted == sorted[..p] + sorted[p..];
  }

  lemma SortStep(front: seq<Component>, x: Component, sorted: seq<Component>, cs: seq<Component>)
    requires cs == front + [x] && Sorted(sorted) && multiset(sorted) == multiset(front) && |sorted| == |front|
    ensures Sorted(Insert(x, sorted)) && multiset(Insert(x, sorted)) == multiset(cs) && |Insert(x, sorted)| == |cs|
  {
    InsertSorts(x, sorted);
    InsertKeeps(x, sorted);
  }

  /** Siblings come out ordered, and none is lost or repeated. */
  lemma {:induction false} SortSorts(cs: seq<Component>)
    ensures Sorted(Sort(cs)) && multiset(Sort(cs)) == multiset(cs) && |Sort(cs)| == |cs|
  {
    if cs != [] {
      SortSorts(cs[..|cs| - 1]);
      SortStep(cs[..|cs| - 1], cs[|cs| - 1], Sort(cs[..|cs| - 1]), cs);
    }
  }

  /** The components that tie with `key`, in order. */
  function Ties(cs: seq<Component>, key: Component): seq<Component> {
    if cs == [] then []
    else
      var last := cs[|cs| - 1];
      Ties(cs[..|cs| - 1], key) + if !Less(last, key) && !Less(key, last) then [last] else []
  }

  lemma {:induction false} TiesConcat(a: seq<Component>, b: seq<Component>, key: Component)
    ensures Ties(a + b, key) == Ties(a, key) + Ties(b, key)
  {
    if b == [] {
      assert a + b == a;
    } else {
      assert (a + b)[..|a + b| - 1] == a + b[..|b| - 1];
      TiesConcat(a, b[..|b| - 1], key);
    }
  }

  lemma {:induction false} NoTies(cs: seq<Component>, key: Component)
    requires forall i :: 0 <= i < |cs| ==> Less(key, cs[i])
    ensures Ties(cs, key) == []
  {
    if cs != [] {
      NoTies(cs[..|cs| - 1], key);
    }
  }

  /** A component put before greater ones comes last among its ties. */
  lemma TiesAround(low: seq<Component>, x: Component, high: seq<Component>, key: Component)
    requires forall i :: 0 <= i < |high| ==> Less(x, high[i])
    ensures Ties(low + [x] + high, key) == Ties(low + high, key) + Ties([x], key)
  {
    TiesConcat(low, high, key);
    TiesConcat(low + [x], high, key);
    TiesConcat(low, [x], key);
    OneSideIsFree(x, high, key);
    SwapWithNothing(Ties(low, key), Ties([x], key), Ties(high, key));
  }

  lemma OneSideIsFree(x: Component, high: seq<Component>, key: Component)
    requires forall i :: 0 <= i < |high| ==> Less(x, high[i])
    ensures Ties([x], key) == [] || Ties(high, key) == []
  {
    if Less(x, key) || Less(key, x) {
      assert Ties([x][..0], key) == [];
    } else {
      forall i | 0 <= i < |high| ensures Less(key, high[i]) {
        LessOrder(high[i], key, x);
      }
      NoTies(high, key);
    }
  }

  lemma SwapWithNothing(a: seq<Component>, b: seq<Component>, c: seq<Component>)
    requires b == [] || c == []
    ensures a + b + c == a + c + b
  {
  }

  /** Insertion puts a component behind everything it ties with. */
  lemma InsertTies(x: Component, s: seq<Component>, key: Component)
    ensures Ties(Insert(x, s), key) == Ties(s, key) + Ties([x], key)
  {
    var p := InsertPosition(x, s);
    var low, high := s[..p], s[p..];
    assert s == low + high;
    InsertPositionFits(x, s, p);
    forall i | 0 <= i < |high| ensures Less(x, high[i]) {
      assert high[i] == s[p + i];
    }
    TiesAround(low, x, high, key);
  }

  lemma TiesLast(front: seq<Component>, x: Component, cs: seq<Component>, key: Component)
    requires cs == front + [x]
    ensures Ties(cs, key) == Ties(front, key) + Ties([x], key)
  {
    TiesConcat(front, [x], key);
  }

  /** The sort is stable: components that tie keep the order of the list. */
  lemma {:induction false} SortIsStable(cs: seq<Component>, key: Component)
    ensures Ties(Sort(cs), key) == Ties(cs, key)
  {
    if cs != [] {
      var front, x := cs[..|cs| - 1], cs[|cs| - 1];
      SortIsStable(front, key);
      InsertTies(x, Sort(front), key);
      assert Sort(cs) == Insert(x, Sort(front));
      TiesLast(front, x, cs, key);
    }
  }

  // ----- The order itself -----

  /** Names in byte order: at the first difference the smaller byte, or the end of the shorter name, comes first. */
  lemma {:induction false} NamesInByteOrder(a: string, b: string)
    ensures LexLess(a, b) <==>
            exists k :: 0 <= k <= |a| && k < |b| && a[..k] == b[..k] && (k == |a| || a[k] < b[k])
  {
    forall k | 0 < k <= |a| && k <= |b| && a[..k] == b[..k] ensures a[0] == b[0] {
      SameStart(a, b, k);
    }
    if a != "" && b != "" && a[0] == b[0] {
      NamesInByteOrder(a[1..], b[1..]);
      if k :| 0 <= k <= |a[1..]| && k < |b[1..]| && a[1..][..k] == b[1..][..k]
              && (k == |a[1..]| || a[1..][k] < b[1..][k]) {
        LongerPrefix(a, b, k);
        assert k + 1 == |a| || a[k + 1] < b[k + 1];
      }
      if k :| 0 <= k <= |a| && k < |b| && a[..k] == b[..k] && (k == |a| || a[k] < b[k]) {
        assert k > 0;
        assert a[1..][..k - 1] == a[..k][1..] && b[1..][..k - 1] == b[..k][1..];
      }
    } else if b != "" && (a == "" || a[0] < b[0]) {
      assert a[..0] == b[..0];
    }
  }

  lemma SameStart(a: string, b: string, k: nat)
    requires 0 < k <= |a| && k <= |b| && a[..k] == b[..k]
    ensures a[0] == b[0]
  {
    assert a[..k][0] == a[0] && b[..k][0] == b[0];
  }

  lemma LongerPrefix(a: string, b: string, k: nat)
    requires a != "" && b != "" && a[0] == b[0] && k <= |a[1..]| && k <= |b[1..]| && a[1..][..k] == b[1..][..k]
    ensures a[..k + 1] == b[..k + 1]
  {
    assert a[..k + 1] == [a[0]] + a[1..][..k] && b[..k + 1] == [b[0]] + b[1..][..k];
  }

  /** Siblings are shown by position, and by name where positions are equal. */
  lemma SiblingsInOrder(cs: seq<Component>, i: nat, j: nat)
    requires i < j < |cs|
    ensures |Sort(cs)| == |cs|
    ensures var a, b := Sort(cs)[i], Sort(cs)[j];
            a.position < b.position || (a.position == b.position && !LexLess(b.name, a.name))
  {
    SortSorts(cs);
  }
}
