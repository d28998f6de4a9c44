/**
 When the fetch loop ends at all: exactly if it never comes to a state with a trap, a set of unseen ids
 that lead to each other and that no answer still to come will carry.
 */
module ServiceLoops {
  import opened Base
  import opened ServiceClosure

  // ----- Where the loop can go -----

  /** Every id that can come up is collected or answered. */
  ghost predicate Within(remote: Graph, w: Work, area: iset<int>) {
    && (forall i :: 0 <= i < |w.queue| ==> w.queue[i] in area)
    && forall x :: x in area ==> Covered(remote, w.all.Keys, area, x)
  }

  ghost predicate Covered(remote: Graph, seen: set<int>, area: iset<int>, x: int) {
    x in seen || (x in remote && forall child :: child in remote[x].childrenIds ==> child in area)
  }

  lemma TurnStaysWithin(remote: Graph, w: Work, area: iset<int>)
    requires Within(remote, w, area) && w.queue != []
    ensures Turn(remote, w).Some? && Within(remote, Turn(remote, w).value, area)
    ensures w.all.Keys <= Turn(remote, w).value.all.Keys <= w.all.Keys + Carried(remote)
  {
    var x := w.queue[0];
    assert x in area && Covered(remote, w.all.Keys, area, x);
    var u := Turn(remote, w).value;
    if x !in w.all {
      assert remote[x].id in Carried(remote);
    }
    var rest := w.queue[1..];
    forall i | 0 <= i < |rest| ensures rest[i] in area {
      assert rest[i] == w.queue[i + 1];
    }
    if x !in w.all {
      assert u.queue == rest + remote[x].childrenIds;
      CoveredChildren(remote, w.all.Keys, area, x);
    }
    forall y | y in area ensures Covered(remote, u.all.Keys, area, y) {
      assert Covered(remote, w.all.Keys, area, y);
    }
  }

  lemma CoveredChildren(remote: Graph, seen: set<int>, area: iset<int>, x: int)
    requires Covered(remote, seen, area, x) && x !in seen
    ensures forall i :: 0 <= i < |remote[x].childrenIds| ==> remote[x].childrenIds[i] in area
  {
    forall i | 0 <= i < |remote[x].childrenIds| ensures remote[x].childrenIds[i] in area {
      var child := remote[x].childrenIds[i];
      assert child in remote[x].childrenIds;
      assert child in area;
    }
  }

  /** The ids that answers carry. */
  function Carried(remote: Graph): set<int> {
    set x | x in remote :: remote[x].id
  }

  lemma {:induction false} Later(remote: Graph, w: Work, n: nat, u: Work, m: nat, v: Work)
    requires After(remote, w, n) == Some(u) && After(remote, u, m) == Some(v)
    ensures After(remote, w, n + m) == Some(v)
    decreases n
  {
    if n > 0 && w.queue != [] {
      Later(remote, Turn(remote, w).value, n - 1, u, m, v);
    } else if w.queue == [] {
      EndedStays(remote, w, m);
      EndedStays(remote, w, n + m);
    }
  }

  lemma EndedStays(remote: Graph, w: Work, n: nat)
    requires w.queue == []
    ensures After(remote, w, n) == Some(w)
  {
  }

  /** A path of unseen answered ids from the queue. */
  ghost predicate Walk(remote: Graph, w: Work, path: seq<int>) {
    && path != [] && path[0] in w.queue && Chain(remote, w.all.Keys, path)
  }

  ghost predicate Chain(remote: Graph, seen: set<int>, path: seq<int>) {
    path == [] ||
    (&& path[0] in remote && path[0] !in seen
     && (|path| > 1 ==> path[1] in remote[path[0]].childrenIds)
     && Chain(remote, seen, path[1..]))
  }

  // ----- Traps -----

  /** Unseen ids, one of them queued, each with a child among them, that no walk will see. */
  ghost predicate Traps(remote: Graph, w: Work, trap: set<int>) {
    && (exists x :: x in trap && x in w.queue)
    && (forall x :: x in trap ==> x !in w.all && x in remote && HasChildIn(remote, x, trap))
    && forall path :: Walk(remote, w, path) ==> !Sees(remote, path, trap)
  }

  /** The answer at the end of the path carries one of the ids. */
  ghost predicate Sees(remote: Graph, path: seq<int>, ids: set<int>)
    requires path != []
  {
    Last(path) in remote && remote[Last(path)].id in ids
  }

  ghost predicate HasChildIn(remote: Graph, x: int, trap: set<int>)
    requires x in remote
  {
    exists child :: child in remote[x].childrenIds && child in trap
  }

  function Last(path: seq<int>): int
    requires path != []
  {
    path[|path| - 1]
  }

  ghost predicate Trapped(remote: Graph, w: Work) {
    exists trap: set<int> :: Traps(remote, w, trap)
  }

  lemma {:induction false} ChainShrinks(remote: Graph, seen: set<int>, more: set<int>, path: seq<int>)
    requires seen <= more && Chain(remote, more, path)
    ensures Chain(remote, seen, path)
    ensures path != [] ==> Last(path) in remote
    decreases |path|
  {
    if path != [] {
      ChainShrinks(remote, seen, more, path[1..]);
    }
  }

  /** A walk after a turn is a walk before it, perhaps from the id that was fetched. */
  lemma WalkBefore(remote: Graph, w: Work, path: seq<int>) returns (before: seq<int>)
    requires w.queue != [] && Turn(remote, w).Some? && Walk(remote, Turn(remote, w).value, path)
    ensures Walk(remote, w, before) && Last(before) == Last(path)
  {
    var u, x := Turn(remote, w).value, w.queue[0];
    ChainShrinks(remote, w.all.Keys, u.all.Keys, path);
    assert forall y :: y in w.queue[1..] ==> y in w.queue;
    if path[0] in w.queue {
      before := path;
    } else {
      before := [x] + path;
      assert before[1..] == path;
    }
  }

  /** A fetched id is itself a walk. */
  lemma FetchedIsWalk(remote: Graph, w: Work)
    requires w.queue != [] && w.queue[0] in remote && w.queue[0] !in w.all
    ensures Walk(remote, w, [w.queue[0]])
  {
    assert [w.queue[0]][1..] == [];
  }

  /** A trap in the queue is still there after a turn. */
  lemma TrapStaysQueued(remote: Graph, w: Work, trap: set<int>, y: int) returns (z: int)
    requires y in trap && y in w.queue && Turn(remote, w).Some?
    requires y !in w.all && y in remote && HasChildIn(remote, y, trap)
    ensures z in trap && z in Turn(remote, w).value.queue
  {
    if y == w.queue[0] {
      z :| z in remote[y].childrenIds && z in trap;
    } else {
      z := y;
      assert y in w.queue[1..];
    }
  }

  lemma TrapStays(remote: Graph, w: Work, trap: set<int>)
    requires Traps(remote, w, trap) && w.queue != [] && Turn(remote, w).Some?
    ensures Traps(remote, Turn(remote, w).value, trap)
  {
    var u, x := Turn(remote, w).value, w.queue[0];
    var y :| y in trap && y in w.queue;
    var z := TrapStaysQueued(remote, w, trap, y);
    if x !in w.all {
      FetchedIsWalk(remote, w);
      assert !Sees(remote, [x], trap);
    }
    forall path | Walk(remote, u, path) ensures !Sees(remote, path, trap) {
      var before := WalkBefore(remote, w, path);
    }
  }

  /** Trapped by these ids, and no request can fail. */
  ghost predicate Stuck(remote: Graph, w: Work, trap: set<int>, area: iset<int>) {
    Traps(remote, w, trap) && Within(remote, w, area)
  }

  lemma TurnStaysStuck(remote: Graph, w: Work, trap: set<int>, area: iset<int>)
    requires Stuck(remote, w, trap, area)
    ensures w.queue != [] && Turn(remote, w).Some? && Stuck(remote, Turn(remote, w).value, trap, area)
  {
    TurnStaysWithin(remote, w, area);
    TrapStays(remote, w, trap);
  }

  /** From a trap on there is always an id left to look at, unless a request fails. */
  lemma {:induction false} TrappedForever(remote: Graph, w: Work, trap: set<int>, area: iset<int>, n: nat)
    requires Stuck(remote, w, trap, area)
    ensures After(remote, w, n).Some? && After(remote, w, n).value.queue != []
    decreases n
  {
    TurnStaysStuck(remote, w, trap, area);
    if n > 0 {
      AfterTurn(remote, w, n - 1);
      TrappedForever(remote, Turn(remote, w).value, trap, area, n - 1);
    }
  }

  // ----- Without a trap the loop ends -----

  /** From x no path of k unseen ids. */
  ghost predicate Safe(remote: Graph, seen: set<int>, x: int, k: nat)
    decreases k
  {
    || x in seen
    || (k > 0 && x in remote && forall child :: child in remote[x].childrenIds ==> Safe(remote, seen, child, k - 1))
  }

  lemma {:induction false} SafeLonger(remote: Graph, seen: set<int>, x: int, k: nat, m: nat)
    requires Safe(remote, seen, x, k) && k <= m
    ensures Safe(remote, seen, x, m)
    decreases k
  {
    if x !in seen {
      forall child | child in remote[x].childrenIds ensures Safe(remote, seen, child, m - 1) {
        SafeLonger(remote, seen, child, k - 1, m - 1);
      }
    }
  }

  ghost predicate EverSafe(remote: Graph, seen: set<int>, x: int) {
    exists k: nat :: Safe(remote, seen, x, k)
  }

  ghost predicate AllSafe(remote: Graph, seen: set<int>, xs: seq<int>, k: nat) {
    forall i :: 0 <= i < |xs| ==> Safe(remote, seen, xs[i], k)
  }

  /** Finitely many safe ids are safe together. */
  lemma {:induction false} SafeTogether(remote: Graph, seen: set<int>, xs: seq<int>) returns (k: nat)
    requires forall i :: 0 <= i < |xs| ==> EverSafe(remote, seen, xs[i])
    ensures AllSafe(remote, seen, xs, k)
  {
    if xs == [] {
      k := 0;
    } else {
      var front, last := xs[..|xs| - 1], xs[|xs| - 1];
      var m := SafeTogether(remote, seen, front);
      var l: nat :| Safe(remote, seen, last, l);
      k := m + l;
      forall i | 0 <= i < |xs| ensures Safe(remote, seen, xs[i], k) {
        if i < |front| {
          assert front[i] == xs[i];
          SafeLonger(remote, seen, xs[i], m, k);
        } else {
          SafeLonger(remote, seen, xs[i], l, k);
        }
      }
    }
  }

  /** An unsafe id has an unsafe child. */
  lemma UnsafeHasUnsafeChild(remote: Graph, seen: set<int>, x: int) returns (child: int)
    requires x in remote && !EverSafe(remote, seen, x)
    ensures child in remote[x].childrenIds && !EverSafe(remote, seen, child)
  {
    if forall i :: 0 <= i < |remote[x].childrenIds| ==> EverSafe(remote, seen, remote[x].childrenIds[i]) {
      var k := SafeTogether(remote, seen, remote[x].childrenIds);
      assert Safe(remote, seen, x, k + 1);
      assert false;
    }
    var i :| 0 <= i < |remote[x].childrenIds| && !EverSafe(remote, seen, remote[x].childrenIds[i]);
    child := remote[x].childrenIds[i];
  }

  /** The loop has ended, or has collected something new. */
  ghost predicate Moved(w: Work, u: Work) {
    u.queue == [] || w.all.Keys < u.all.Keys
  }

  /** Safe queues run empty, generation by generation, unless something new is collected. */
  lemma {:induction false} SafeQueueMoves(
    remote: Graph, w: Work, area: iset<int>, front: seq<int>, back: seq<int>, k: nat)
    returns (n: nat, u: Work)
    requires Within(remote, w, area) && w.queue == front + back
    requires AllSafe(remote, w.all.Keys, front, k)
    requires if k == 0 then back == [] else AllSafe(remote, w.all.Keys, back, k - 1)
    ensures After(remote, w, n) == Some(u) && Within(remote, u, area) && Moved(w, u)
    ensures u.all.Keys <= w.all.Keys + Carried(remote)
    decreases k, |front|
  {
    if w.queue == [] {
      n, u := 0, w;
    } else if front == [] {
      n, u := SafeQueueMoves(remote, w, area, back, [], k - 1);
    } else {
      TurnStaysWithin(remote, w, area);
      var next, x := Turn(remote, w).value, w.queue[0];
      assert x == front[0] && w.queue[1..] == front[1..] + back;
      if w.all.Keys < next.all.Keys {
        n, u := 1, next;
      } else {
        assert next.all.Keys == w.all.Keys;
        var more := if x in w.all then back else back + remote[x].childrenIds;
        assert next.queue == front[1..] + more;
        assert Safe(remote, w.all.Keys, front[0], k);
        assert k == 0 ==> more == [];
        forall i | 0 <= i < |more| && k > 0 ensures Safe(remote, w.all.Keys, more[i], k - 1) {
          if i >= |back| {
            assert more[i] in remote[x].childrenIds;
          }
        }
        n, u := SafeQueueMoves(remote, next, area, front[1..], more, k);
        n := n + 1;
      }
    }
  }

  /** An answer with a new id at the end of a walk will be seen, unless another one comes first. */
  lemma {:induction false} WalkMoves(remote: Graph, w: Work, area: iset<int>, path: seq<int>, at: nat)
    returns (n: nat, u: Work)
    requires Within(remote, w, area) && at < |w.queue| && path != [] && w.queue[at] == path[0]
    requires Chain(remote, w.all.Keys, path) && Last(path) in remote && remote[Last(path)].id !in w.all
    ensures After(remote, w, n) == Some(u) && Within(remote, u, area) && w.all.Keys < u.all.Keys
    ensures u.all.Keys <= w.all.Keys + Carried(remote)
    decreases |path|, at
  {
    TurnStaysWithin(remote, w, area);
    var next, x := Turn(remote, w).value, w.queue[0];
    if w.all.Keys < next.all.Keys {
      n, u := 1, next;
    } else {
      assert next.all.Keys == w.all.Keys;
      if at > 0 {
        assert next.queue[at - 1] == w.queue[at];
        n, u := WalkMoves(remote, next, area, path, at - 1);
      } else {
        assert |path| > 1;
        var i :| 0 <= i < |remote[x].childrenIds| && remote[x].childrenIds[i] == path[1];
        assert next.queue[|w.queue| - 1 + i] == path[1];
        n, u := WalkMoves(remote, next, area, path[1..], |w.queue| - 1 + i);
      }
      n := n + 1;
    }
  }

  /** Ids that are not safe are a trap, if no walk sees one of them. */
  lemma UnsafeTraps(remote: Graph, w: Work, area: iset<int>, x: int) returns (trap: set<int>)
    requires Within(remote, w, area) && x in w.queue && !EverSafe(remote, w.all.Keys, x)
    ensures Traps(remote, w, trap)
         || exists path :: Walk(remote, w, path) && Last(path) in remote && remote[Last(path)].id !in w.all
  {
    trap := set y | y in remote && y in area && !EverSafe(remote, w.all.Keys, y);
    assert Safe(remote, w.all.Keys, x, 0) <==> x in w.all;
    assert x in area && Covered(remote, w.all.Keys, area, x);
    forall y | y in trap ensures y !in w.all && HasChildIn(remote, y, trap) {
      assert Safe(remote, w.all.Keys, y, 0) <==> y in w.all;
      var child := UnsafeHasUnsafeChild(remote, w.all.Keys, y);
      assert Covered(remote, w.all.Keys, area, y);
      assert child in area && Covered(remote, w.all.Keys, area, child);
      assert Safe(remote, w.all.Keys, child, 0) <==> child in w.all;
      assert child in trap;
    }
    if !Traps(remote, w, trap) {
      var path :| Walk(remote, w, path) && Sees(remote, path, trap);
    }
  }

  /** Something new is collected sooner or later, unless the loop ends or is trapped. */
  lemma MovesOrTrapped(remote: Graph, w: Work, area: iset<int>)
    returns (n: nat, u: Work, moved: bool, trap: set<int>)
    requires Within(remote, w, area)
    ensures After(remote, w, n) == Some(u) && Within(remote, u, area)
    ensures if moved then w.all.Keys < u.all.Keys else Over(remote, u, trap)
    ensures u.all.Keys <= w.all.Keys + Carried(remote)
  {
    if forall i :: 0 <= i < |w.queue| ==> EverSafe(remote, w.all.Keys, w.queue[i]) {
      var k := SafeTogether(remote, w.all.Keys, w.queue);
      assert AllSafe(remote, w.all.Keys, [], 0);
      n, u := SafeQueueMoves(remote, w, area, w.queue, [], k);
      moved, trap := u.queue != [], {};
    } else {
      var i :| 0 <= i < |w.queue| && !EverSafe(remote, w.all.Keys, w.queue[i]);
      trap := UnsafeTraps(remote, w, area, w.queue[i]);
      if Traps(remote, w, trap) {
        n, u, moved := 0, w, false;
      } else {
        var path :| Walk(remote, w, path) && Last(path) in remote && remote[Last(path)].id !in w.all;
        var at :| 0 <= at < |w.queue| && w.queue[at] == path[0];
        n, u := WalkMoves(remote, w, area, path, at);
        moved := true;
      }
    }
  }

  /** The loop has ended, or is trapped by these ids. */
  ghost predicate Over(remote: Graph, w: Work, trap: set<int>) {
    w.queue == [] || Traps(remote, w, trap)
  }

  lemma {:induction false} EndsOrTrapped(remote: Graph, w: Work, area: iset<int>)
    returns (n: nat, u: Work, trap: set<int>)
    requires Within(remote, w, area)
    ensures After(remote, w, n) == Some(u) && Over(remote, u, trap)
    decreases |Carried(remote) - w.all.Keys|
  {
    var moved;
    n, u, moved, trap := MovesOrTrapped(remote, w, area);
    if moved {
      Shrinks(Carried(remote), w.all.Keys, u.all.Keys);
      var m, v;
      m, v, trap := EndsOrTrapped(remote, u, area);
      n := Joined(remote, w, n, u, m, v);
      u := v;
    }
  }

  lemma Joined(remote: Graph, w: Work, n: nat, u: Work, m: nat, v: Work) returns (k: nat)
    requires After(remote, w, n) == Some(u) && After(remote, u, m) == Some(v)
    ensures After(remote, w, k) == Some(v)
  {
    Later(remote, w, n, u, m, v);
    k := n + m;
  }

  lemma Shrinks(carried: set<int>, seen: set<int>, more: set<int>)
    requires seen < more <= seen + carried
    ensures |carried - more| < |carried - seen|
  {
    Inhabited(more - seen);
    var x :| x in more - seen;
    assert x in carried - seen && carried - more <= carried - seen - {x};
    SubsetSize(carried - more, carried - seen - {x});
  }

  // ----- The exact condition -----

  ghost predicate Ends(remote: Graph, w: Work) {
    exists n: nat {:trigger After(remote, w, n)} :: After(remote, w, n).Some? && After(remote, w, n).value.queue == []
  }

  /** Some state on the way has a trap. */
  ghost predicate MeetsTrap(remote: Graph, w: Work) {
    exists n: nat {:trigger After(remote, w, n)} ::
      After(remote, w, n).Some? && Trapped(remote, After(remote, w, n).value)
  }

  lemma {:induction false} AfterStaysWithin(remote: Graph, w: Work, area: iset<int>, n: nat)
    requires Within(remote, w, area)
    ensures After(remote, w, n).Some? && Within(remote, After(remote, w, n).value, area)
    decreases n
  {
    if n > 0 && w.queue != [] {
      TurnStaysWithin(remote, w, area);
      AfterStaysWithin(remote, Turn(remote, w).value, area, n - 1);
    }
  }

  lemma EndsIff(remote: Graph, w: Work, area: iset<int>)
    requires Within(remote, w, area)
    ensures Ends(remote, w) <==> !MeetsTrap(remote, w)
  {
    if Ends(remote, w) && MeetsTrap(remote, w) {
      var n: nat :| After(remote, w, n).Some? && After(remote, w, n).value.queue == [];
      var m: nat :| After(remote, w, m).Some? && Trapped(remote, After(remote, w, m).value);
      var u := After(remote, w, m).value;
      var trap :| Traps(remote, u, trap);
      AfterStaysWithin(remote, w, area, m);
      TrappedForever(remote, u, trap, area, n);
      Later(remote, w, m, u, n, After(remote, u, n).value);
      EndedStays(remote, After(remote, w, n).value, m);
      Later(remote, w, n, After(remote, w, n).value, m, After(remote, w, n).value);
      assert false;
    }
    if !MeetsTrap(remote, w) {
      var n, u, trap := EndsOrTrapped(remote, w, area);
      assert After(remote, w, n) == Some(u);
    }
  }

  /**
   Main result: when every reachable service is answered, whatever ids the answers carry, the loop ends if
   and only if no state on its way has a trap.
   */
  lemma FetchEndsIff(roots: seq<Service>, remote: Graph)
    requires Answered(roots, remote)
    ensures Ends(remote, Begin(roots)) <==> !MeetsTrap(remote, Begin(roots))
    ensures Stops(remote, Begin(roots)) <==> !MeetsTrap(remote, Begin(roots))
  {
    var area := iset id | Reachable(roots, remote, id);
    var w := Begin(roots);
    BeginHoldsRoots(roots);
    BeginProgresses(roots, remote);
    forall x | x in area ensures Covered(remote, w.all.Keys, area, x) {
      if x !in w.all {
        forall child | child in remote[x].childrenIds ensures child in area {
          ChildIsReachable(roots, remote, x, child);
        }
      }
    }
    EndsIff(remote, w, area);
    StopsMeansEnds(remote, w, area);
  }

  lemma StopsMeansEnds(remote: Graph, w: Work, area: iset<int>)
    requires Within(remote, w, area)
    ensures Stops(remote, w) <==> Ends(remote, w)
  {
    if n: nat :| StopsWithin(remote, w, n) {
      AfterStaysWithin(remote, w, area, n);
    }
    if n: nat :| After(remote, w, n).Some? && After(remote, w, n).value.queue == [] {
      assert StopsWithin(remote, w, n);
    }
  }
}
