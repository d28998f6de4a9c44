/**
 Fetching the whole service tree from a source that lists only its roots
 (FetchComponents, backend/internal/importer/statuspal.go).

 GET /services/{id} answers with a service or fails. Where the answers that the walk can meet carry the
 id that was asked for, the source is a finite graph; ServiceAnswers says what happens elsewhere.
 */
module ServiceClosure {
  import opened Base
  import opened Statuses
  import opened Decimal
  import opened Imported

  datatype Service = Service(
    id: int,
    name: string,
    description: string,
    parentId: Option<int>,
    isPrivate: bool,
    incidentType: string,
    childrenIds: seq<int>)

  type Graph = map<int, Service>

  function ServiceStatus(incidentType: string): ComponentStatus {
    if incidentType == "major" then MajorOutage
    else if incidentType == "minor" then PartialOutage
    else if incidentType == "scheduled" then UnderMaintenance
    else if incidentType == "degraded" then DegradedPerformance
    else Operational
  }

  function Converted(sv: Service): ImportedComponent {
    ImportedComponent(
      FormatInt(sv.id), sv.name, sv.description, ServiceStatus(sv.incidentType),
      if sv.parentId.Some? then FormatInt(sv.parentId.value) else "", "", sv.isPrivate)
  }

  // ----- The graph -----

  ghost predicate IsRoot(roots: seq<Service>, id: int) {
    exists i :: 0 <= i < |roots| && roots[i].id == id
  }

  /** The service known under an id: the last root listed with it, or what the source answers. */
  ghost predicate Known(roots: seq<Service>, remote: Graph, id: int, sv: Service) {
    if IsRoot(roots, id) then LastRoot(roots, id, sv) else id in remote && sv == remote[id]
  }

  ghost predicate LastRoot(roots: seq<Service>, id: int, sv: Service) {
    exists i :: 0 <= i < |roots| && roots[i] == sv && sv.id == id && forall j :: i < j < |roots| ==> roots[j].id != id
  }

  /** `to` is a child of `from`: every root record of an id counts, and answers only for other ids. */
  ghost predicate Edge(roots: seq<Service>, remote: Graph, from: int, to: int) {
    if IsRoot(roots, from) then exists i :: 0 <= i < |roots| && roots[i].id == from && to in roots[i].childrenIds
    else from in remote && to in remote[from].childrenIds
  }

  ghost predicate IsPath(roots: seq<Service>, remote: Graph, path: seq<int>) {
    var n := |path|;
    n > 0 &&
    if n == 1 then IsRoot(roots, path[0])
    else IsPath(roots, remote, path[..n - 1]) && Edge(roots, remote, path[n - 2], path[n - 1])
  }

  /** Reachable from the roots through children ids. */
  ghost predicate Reachable(roots: seq<Service>, remote: Graph, id: int) {
    exists path :: IsPath(roots, remote, path) && path[|path| - 1] == id
  }

  /** Every answer the walk can meet carries the id that was asked for. */
  ghost predicate Honest(roots: seq<Service>, remote: Graph) {
    forall id {:trigger Reachable(roots, remote, id)} ::
      Reachable(roots, remote, id) && !IsRoot(roots, id) && id in remote ==> remote[id].id == id
  }

  lemma RootIsReachable(roots: seq<Service>, remote: Graph, id: int)
    requires IsRoot(roots, id)
    ensures Reachable(roots, remote, id)
  {
    assert IsPath(roots, remote, [id]);
  }

  lemma ChildIsReachable(roots: seq<Service>, remote: Graph, id: int, child: int)
    requires Reachable(roots, remote, id) && Edge(roots, remote, id, child)
    ensures Reachable(roots, remote, child)
  {
    var path :| IsPath(roots, remote, path) && path[|path| - 1] == id;
    assert (path + [child])[..|path|] == path;
    assert IsPath(roots, remote, path + [child]);
  }

  /** A set with the roots that is closed under children holds everything reachable. */
  lemma {:induction false} ClosedHoldsPath(roots: seq<Service>, remote: Graph, closed: set<int>, path: seq<int>)
    requires forall id :: IsRoot(roots, id) ==> id in closed
    requires forall id, child :: id in closed && Edge(roots, remote, id, child) ==> child in closed
    requires IsPath(roots, remote, path)
    ensures path[|path| - 1] in closed
  {
    if |path| > 1 {
      ClosedHoldsPath(roots, remote, closed, path[..|path| - 1]);
    }
  }

  lemma ClosedHoldsReachable(roots: seq<Service>, remote: Graph, closed: set<int>)
    requires forall id :: IsRoot(roots, id) ==> id in closed
    requires forall id, child :: id in closed && Edge(roots, remote, id, child) ==> child in closed
    ensures forall id :: Reachable(roots, remote, id) ==> id in closed
  {
    forall id | Reachable(roots, remote, id) ensures id in closed {
      var path :| IsPath(roots, remote, path) && path[|path| - 1] == id;
      ClosedHoldsPath(roots, remote, closed, path);
    }
  }

  // ----- The worklist -----

  /** What is collected is reachable and right. */
  ghost predicate Collected(roots: seq<Service>, remote: Graph, all: Graph) {
    && (forall id {:trigger IsRoot(roots, id)} :: IsRoot(roots, id) ==> id in all)
    && forall id {:trigger all[id]} :: id in all ==> Reachable(roots, remote, id) && Known(roots, remote, id, all[id])
  }

  ghost predicate Queued(roots: seq<Service>, remote: Graph, queue: seq<int>) {
    forall i :: 0 <= i < |queue| ==> Reachable(roots, remote, queue[i])
  }

  /** Children of collected services are not lost. */
  ghost predicate Closing(roots: seq<Service>, remote: Graph, all: Graph, queue: seq<int>) {
    forall id, child {:trigger Edge(roots, remote, id, child)} :: id in all && Edge(roots, remote, id, child) ==>
      child in all || child in queue
  }

  /** Nothing reachable is missing. */
  ghost predicate Complete(roots: seq<Service>, remote: Graph, all: Graph) {
    forall id {:trigger Reachable(roots, remote, id)} :: Reachable(roots, remote, id) ==> id in all
  }

  ghost predicate Progress(roots: seq<Service>, remote: Graph, all: Graph, queue: seq<int>) {
    Collected(roots, remote, all) && Queued(roots, remote, queue) && Closing(roots, remote, all, queue)
  }

  predicate NoRepeats(fetched: seq<int>) {
    forall i, j :: 0 <= i < j < |fetched| ==> fetched[i] != fetched[j]
  }

  /** The collected services that are no roots have been requested, and nothing else. */
  ghost predicate Requested(roots: seq<Service>, all: Graph, fetched: seq<int>) {
    forall id {:trigger id in fetched} {:trigger IsRoot(roots, id)} :: id in fetched <==>
      id in all && !IsRoot(roots, id)
  }

  // ----- The loop, turn by turn -----

  /** The collected services by the id they carry, and the ids still to look at. */
  datatype Work = Work(all: Graph, queue: seq<int>)

  function Begin(roots: seq<Service>): Work {
    if roots == [] then Work(map[], [])
    else
      var before, last := Begin(roots[..|roots| - 1]), roots[|roots| - 1];
      Work(before.all[last.id := last], before.queue + last.childrenIds)
  }

  /** One turn: a seen id is dropped, another one is requested; None if the request fails. */
  function Turn(remote: Graph, w: Work): Option<Work>
    requires w.queue != []
  {
    var id := w.queue[0];
    if id in w.all then Some(w.(queue := w.queue[1..]))
    else if id !in remote then None
    else Some(Work(w.all[remote[id].id := remote[id]], w.queue[1..] + remote[id].childrenIds))
  }

  /** The state after n turns, or the last one; None if a request has failed. */
  function After(remote: Graph, w: Work, n: nat): Option<Work>
    decreases n
  {
    if n == 0 || w.queue == [] then Some(w)
    else
      match Turn(remote, w)
      case None => None
      case Some(u) => After(remote, u, n - 1)
  }

  lemma AfterTurn(remote: Graph, w: Work, n: nat)
    requires w.queue != [] && Turn(remote, w).Some?
    ensures After(remote, w, n + 1) == After(remote, Turn(remote, w).value, n)
  {
  }

  lemma {:induction false} OneMoreTurn(remote: Graph, w: Work, n: nat, u: Work)
    requires After(remote, w, n) == Some(u) && u.queue != []
    ensures After(remote, w, n + 1) == Turn(remote, u)
    decreases n
  {
    if n == 0 {
      assert Turn(remote, w).Some? ==> After(remote, Turn(remote, w).value, 0) == Turn(remote, w);
    } else if w.queue != [] {
      OneMoreTurn(remote, Turn(remote, w).value, n - 1, u);
    }
  }

  /** After n turns nothing is left to look at, or a request has failed. */
  ghost predicate StopsWithin(remote: Graph, w: Work, n: nat) {
    After(remote, w, n).Some? ==> After(remote, w, n).value.queue == []
  }

  ghost predicate Stops(remote: Graph, w: Work) {
    exists n: nat :: StopsWithin(remote, w, n)
  }

  lemma {:induction false} StoppedStays(remote: Graph, w: Work, n: nat, m: nat)
    requires StopsWithin(remote, w, n) && n <= m
    ensures StopsWithin(remote, w, m)
    decreases n
  {
    if n > 0 && w.queue != [] && Turn(remote, w).Some? {
      StoppedStays(remote, Turn(remote, w).value, n - 1, m - 1);
    }
  }

  method Start(roots: seq<Service>, ghost remote: Graph) returns (all: Graph, queue: seq<int>)
    ensures Work(all, queue) == Begin(roots)
    ensures Progress(roots, remote, all, queue)
    ensures Requested(roots, all, [])
  {
    all, queue := map[], [];
    for i := 0 to |roots|
      invariant Work(all, queue) == Begin(roots[..i])
    {
      assert roots[..i + 1][..i] == roots[..i];
      all := all[roots[i].id := roots[i]];
      queue := queue + roots[i].childrenIds;
    }
    assert roots[..|roots|] == roots;
    BeginHoldsRoots(roots);
    BeginProgresses(roots, remote);
  }

  lemma RootIdsAppend(front: seq<Service>, last: Service, id: int)
    ensures IsRoot(front + [last], id) <==> IsRoot(front, id) || id == last.id
  {
    var roots := front + [last];
    assert roots[|front|] == last;
    if i :| 0 <= i < |front| && front[i].id == id {
      assert roots[i].id == id;
    }
  }

  lemma LastRootAppend(front: seq<Service>, last: Service, id: int, sv: Service)
    requires if id == last.id then sv == last else LastRoot(front, id, sv)
    ensures LastRoot(front + [last], id, sv)
  {
    var roots := front + [last];
    if id == last.id {
      assert roots[|front|] == last;
    } else {
      var i :| 0 <= i < |front| && front[i] == sv && front[i].id == id
        && forall j :: i < j < |front| ==> front[j].id != id;
      assert roots[i] == front[i];
    }
  }

  predicate IsRootChild(roots: seq<Service>, child: int) {
    exists k :: 0 <= k < |roots| && child in roots[k].childrenIds
  }

  lemma RootChildAppend(front: seq<Service>, last: Service, child: int)
    ensures IsRootChild(front + [last], child) <==> IsRootChild(front, child) || child in last.childrenIds
  {
    var roots := front + [last];
    assert roots[|front|] == last;
    if k :| 0 <= k < |front| && child in front[k].childrenIds {
      assert child in roots[k].childrenIds;
    }
  }

  /** The roots collect the last service of each id and queue the children of all. */
  lemma {:induction false} BeginHoldsRoots(roots: seq<Service>)
    ensures forall id :: id in Begin(roots).all <==> IsRoot(roots, id)
    ensures forall id :: id in Begin(roots).all ==> LastRoot(roots, id, Begin(roots).all[id])
    ensures forall child :: child in Begin(roots).queue <==> IsRootChild(roots, child)
  {
    if roots != [] {
      var front, last := roots[..|roots| - 1], roots[|roots| - 1];
      BeginHoldsRoots(front);
      assert roots == front + [last];
      forall id ensures id in Begin(roots).all <==> IsRoot(roots, id) {
        RootIdsAppend(front, last, id);
      }
      forall id | id in Begin(roots).all ensures LastRoot(roots, id, Begin(roots).all[id]) {
        if id != last.id {
          assert id in Begin(front).all && Begin(roots).all[id] == Begin(front).all[id];
        }
        LastRootAppend(front, last, id, Begin(roots).all[id]);
      }
      forall child ensures child in Begin(roots).queue <==> IsRootChild(roots, child) {
        RootChildAppend(front, last, child);
      }
    }
  }

  lemma BeginProgresses(roots: seq<Service>, remote: Graph)
    ensures Progress(roots, remote, Begin(roots).all, Begin(roots).queue) && Requested(roots, Begin(roots).all, [])
  {
    BeginHoldsRoots(roots);
    var all, queue := Begin(roots).all, Begin(roots).queue;
    forall id | id in all ensures Reachable(roots, remote, id) && Known(roots, remote, id, all[id]) {
      RootIsReachable(roots, remote, id);
    }
    forall k | 0 <= k < |queue| ensures Reachable(roots, remote, queue[k]) {
      var child := queue[k];
      assert child in queue;
      var i :| 0 <= i < |roots| && child in roots[i].childrenIds;
      RootIsReachable(roots, remote, roots[i].id);
      ChildIsReachable(roots, remote, roots[i].id, child);
    }
  }

  lemma SkipSeen(roots: seq<Service>, remote: Graph, all: Graph, queue: seq<int>)
    requires queue != [] && Progress(roots, remote, all, queue) && queue[0] in all
    ensures Progress(roots, remote, all, queue[1..])
  {
    var rest := queue[1..];
    forall id, child | id in all && Edge(roots, remote, id, child) ensures child in all || child in rest {
      assert child in all || child in [queue[0]] + rest;
    }
    forall i | 0 <= i < |rest| ensures Reachable(roots, remote, rest[i]) {
      assert rest[i] == queue[i + 1];
    }
  }

  lemma AddFetched(roots: seq<Service>, remote: Graph, all: Graph, queue: seq<int>, child: Service)
    requires queue != [] && Progress(roots, remote, all, queue) && queue[0] !in all
    requires queue[0] in remote && child == remote[queue[0]]
    ensures Progress(roots, remote, all[queue[0] := child], queue[1..] + child.childrenIds)
  {
    var id, rest := queue[0], queue[1..];
    var later := rest + child.childrenIds;
    assert Reachable(roots, remote, queue[0]);
    forall i | 0 <= i < |later| ensures Reachable(roots, remote, later[i]) {
      if i < |rest| {
        assert later[i] == queue[i + 1];
      } else {
        assert later[i] in child.childrenIds;
        ChildIsReachable(roots, remote, id, later[i]);
      }
    }
    forall from, to | from in all[id := child] && Edge(roots, remote, from, to)
      ensures to in all[id := child] || to in later
    {
      if from != id {
        assert to in all || to in [id] + rest;
      }
    }
  }

  datatype FetchError = Unlisted | Unanswered(id: int)

  /** What right answers keep: progress, no request made twice, and all requests collected. */
  ghost predicate Right(roots: seq<Service>, remote: Graph, all: Graph, queue: seq<int>, fetched: seq<int>) {
    Progress(roots, remote, all, queue) && NoRepeats(fetched) && Requested(roots, all, fetched)
  }

  ghost predicate RootsSeen(roots: seq<Service>, all: Graph) {
    forall id {:trigger IsRoot(roots, id)} :: IsRoot(roots, id) ==> id in all
  }

  /** What every turn keeps. */
  ghost predicate Going(roots: seq<Service>, remote: Graph, all: Graph, queue: seq<int>, fetched: seq<int>) {
    && RootsSeen(roots, all) && Queued(roots, remote, queue)
    && (Honest(roots, remote) ==> Right(roots, remote, all, queue, fetched))
  }

  /** What the loop has to show at its end. */
  ghost predicate Fetched(roots: seq<Service>, remote: Graph, all: Graph, fetched: seq<int>) {
    Collected(roots, remote, all) && Complete(roots, remote, all) && Requested(roots, all, fetched)
  }

  lemma SeenIsSkipped(roots: seq<Service>, remote: Graph, all: Graph, queue: seq<int>, fetched: seq<int>)
    requires queue != [] && queue[0] in all && Going(roots, remote, all, queue, fetched)
    ensures Going(roots, remote, all, queue[1..], fetched)
  {
    assert forall i :: 0 <= i < |queue[1..]| ==> queue[1..][i] == queue[i + 1];
    if Honest(roots, remote) {
      SkipSeen(roots, remote, all, queue);
    }
  }

  lemma EndIsFetched(roots: seq<Service>, remote: Graph, all: Graph, fetched: seq<int>)
    requires Going(roots, remote, all, [], fetched) && Honest(roots, remote)
    ensures NoRepeats(fetched) && Fetched(roots, remote, all, fetched)
  {
    NothingIsMissing(roots, remote, all);
  }

  /**
   The worklist loop, given that it stops. A failing request is for a reachable service. With right answers
   no service is requested twice, and without a failure exactly the reachable ones are collected.
   */
  method FetchAll(roots: seq<Service>, remote: Graph)
    returns (all: Graph, failed: Option<int>, ghost fetched: seq<int>, ghost turns: nat)
    requires Stops(remote, Begin(roots))
    ensures After(remote, Begin(roots), turns) == if failed.None? then Some(Work(all, [])) else None
    ensures failed.Some? ==>
              failed.value !in remote && !IsRoot(roots, failed.value) && Reachable(roots, remote, failed.value)
    ensures Honest(roots, remote) ==> NoRepeats(fetched)
    ensures Honest(roots, remote) && failed.None? ==> Fetched(roots, remote, all, fetched)
  {
    ghost var bound: nat :| StopsWithin(remote, Begin(roots), bound);
    fetched, failed, turns := [], None, 0;
    var queue: seq<int>;
    all, queue := Start(roots, remote);
    while queue != []
      invariant failed.None? && Going(roots, remote, all, queue, fetched)
      invariant After(remote, Begin(roots), turns) == Some(Work(all, queue))
      decreases bound - turns
    {
      if bound <= turns {
        StoppedStays(remote, Begin(roots), bound, turns);
        assert false;
      }
      OneMoreTurn(remote, Begin(roots), turns, Work(all, queue));
      turns := turns + 1;
      var id := queue[0];
      if id in all {
        SeenIsSkipped(roots, remote, all, queue, fetched);
        queue := queue[1..];
      } else {
        all, queue, failed, fetched := FetchNext(roots, remote, all, queue, fetched);
        if failed.Some? {
          return;
        }
      }
    }
    if Honest(roots, remote) {
      EndIsFetched(roots, remote, all, fetched);
    }
  }

  method FetchNext(roots: seq<Service>, remote: Graph, all: Graph, queue: seq<int>, ghost fetched: seq<int>)
    returns (wider: Graph, later: seq<int>, failed: Option<int>, ghost more: seq<int>)
    requires queue != [] && queue[0] !in all && Going(roots, remote, all, queue, fetched)
    ensures more == fetched + [queue[0]]
    ensures failed == if queue[0] in remote then None else Some(queue[0])
    ensures Turn(remote, Work(all, queue)) == if failed.None? then Some(Work(wider, later)) else None
    ensures !IsRoot(roots, queue[0]) && Reachable(roots, remote, queue[0])
    ensures failed.None? ==> Going(roots, remote, wider, later, more)
    ensures Honest(roots, remote) ==> NoRepeats(more)
  {
    var id := queue[0];
    wider, later, failed, more := all, queue, None, fetched + [id];
    if Honest(roots, remote) {
      NextIsRight(roots, remote, all, queue, fetched);
    }
    if id !in remote {
      failed := Some(id);
    } else {
      var child := remote[id];
      NextIsQueued(roots, remote, queue, child.childrenIds);
      wider := all[child.id := child];
      later := queue[1..] + child.childrenIds;
    }
  }

  lemma NextIsQueued(roots: seq<Service>, remote: Graph, queue: seq<int>, children: seq<int>)
    requires queue != [] && Queued(roots, remote, queue) && !IsRoot(roots, queue[0])
    requires queue[0] in remote && children == remote[queue[0]].childrenIds
    ensures Queued(roots, remote, queue[1..] + children)
  {
    var later := queue[1..] + children;
    forall i | 0 <= i < |later| ensures Reachable(roots, remote, later[i]) {
      if i < |queue| - 1 {
        assert later[i] == queue[i + 1];
      } else {
        assert later[i] in children;
        ChildIsReachable(roots, remote, queue[0], later[i]);
      }
    }
  }

  lemma NextIsRight(roots: seq<Service>, remote: Graph, all: Graph, queue: seq<int>, fetched: seq<int>)
    requires Honest(roots, remote) && queue != [] && queue[0] !in all && Right(roots, remote, all, queue, fetched)
    ensures NoRepeats(fetched + [queue[0]])
    ensures queue[0] in remote ==>
              var child := remote[queue[0]];
              Right(roots, remote, all[child.id := child], queue[1..] + child.childrenIds, fetched + [queue[0]])
  {
    var id := queue[0];
    var answer := if id in remote then remote[id] else Service(id, "", "", None, false, "", []);
    NotYetRequested(roots, remote, all, queue, fetched, answer);
    if id in remote {
      assert Reachable(roots, remote, id) && answer.id == id;
      AddFetched(roots, remote, all, queue, answer);
    }
  }

  lemma NotYetRequested(
    roots: seq<Service>, remote: Graph, all: Graph, queue: seq<int>, fetched: seq<int>, child: Service)
    requires Progress(roots, remote, all, queue) && NoRepeats(fetched) && Requested(roots, all, fetched)
    requires queue != [] && queue[0] !in all
    ensures !IsRoot(roots, queue[0]) && Reachable(roots, remote, queue[0])
    ensures NoRepeats(fetched + [queue[0]])
    ensures Requested(roots, all[queue[0] := child], fetched + [queue[0]])
  {
  }

  lemma NothingIsMissing(roots: seq<Service>, remote: Graph, all: Graph)
    requires Progress(roots, remote, all, [])
    ensures Collected(roots, remote, all) && Complete(roots, remote, all)
  {
    ClosedHoldsReachable(roots, remote, all.Keys);
  }

  /** The services of the graph that are not collected yet. */
  function Left(remote: Graph, all: Graph): nat {
    |remote.Keys - all.Keys|
  }

  lemma Shrinks(remote: Graph, all: Graph, id: int, child: Service)
    requires id in remote && id !in all
    ensures Left(remote, all[id := child]) < Left(remote, all)
  {
    assert all[id := child].Keys == all.Keys + {id};
    assert remote.Keys - all.Keys == (remote.Keys - (all.Keys + {id})) + {id};
  }

  /**
   Main result. The result is what the loop collects, in strictly increasing order of the ids; there is none
   exactly if the roots are not listed or a request fails. With right answers it succeeds exactly if the
   roots are listed and every reachable service that is no root is answered, and then holds exactly the
   reachable services, each under its own id.
   */
  method FetchComponents(listed: Option<seq<Service>>, remote: Graph)
    returns (r: Result<seq<ImportedComponent>, FetchError>, ghost ids: seq<int>)
    requires listed.Some? ==> Stops(remote, Begin(listed.value))
    ensures r.Success? ==> listed.Some? && Ascending(ids) && Collects(listed.value, remote, ids, r.value)
    ensures r.Failure? ==> if listed.None? then r.error == Unlisted else Fails(listed.value, remote, r.error)
    ensures listed.Some? && Honest(listed.value, remote) ==>
              && (r.Success? <==> Answered(listed.value, remote))
              && (r.Success? ==> ExactlyReachable(listed.value, remote, ids))
              && (r.Success? ==> AllDelivered(listed.value, remote, ids, r.value))
  {
    ids := [];
    if listed.None? {
      return Failure(Unlisted), ids;
    }
    ghost var fetched, turns;
    var all, failed;
    all, failed, fetched, turns := FetchAll(listed.value, remote);
    if failed.Some? {
      return Failure(Unanswered(failed.value)), ids;
    }
    var sorted := SortedIds(all.Keys);
    ids := sorted;
    assert forall i :: 0 <= i < |sorted| ==> sorted[i] in sorted;
    var out := Convert(all, sorted);
    if Honest(listed.value, remote) {
      CollectedIsAnswered(listed.value, remote, all);
      ConvertedIsDelivered(listed.value, remote, all, sorted, out);
    }
    r := Success(out);
    assert CollectsAll(listed.value, remote, ids, out, all, turns);
  }

  /** The loop ends, and the components show what it has collected under the ids. */
  ghost predicate Collects(roots: seq<Service>, remote: Graph, ids: seq<int>, out: seq<ImportedComponent>) {
    exists all, n :: CollectsAll(roots, remote, ids, out, all, n)
  }

  ghost predicate CollectsAll(
    roots: seq<Service>, remote: Graph, ids: seq<int>, out: seq<ImportedComponent>, all: Graph, n: nat) {
    && After(remote, Begin(roots), n) == Some(Work(all, []))
    && (forall id :: id in ids <==> id in all)
    && |out| == |ids| && forall i :: 0 <= i < |ids| ==> ids[i] in all && out[i] == Converted(all[ids[i]])
  }

  /** A request on the way fails, for a reachable service. */
  ghost predicate Fails(roots: seq<Service>, remote: Graph, error: FetchError) {
    && (exists n: nat :: After(remote, Begin(roots), n) == None)
    && error.Unanswered? && error.id !in remote && Reachable(roots, remote, error.id)
  }

  /** Every reachable service that is no root is answered. */
  ghost predicate Answered(roots: seq<Service>, remote: Graph) {
    forall id :: Reachable(roots, remote, id) && !IsRoot(roots, id) ==> id in remote
  }

  ghost predicate ExactlyReachable(roots: seq<Service>, remote: Graph, ids: seq<int>) {
    forall id :: id in ids <==> Reachable(roots, remote, id)
  }

  /** The components show the services of the ids, one each and in order. */
  ghost predicate AllDelivered(roots: seq<Service>, remote: Graph, ids: seq<int>, out: seq<ImportedComponent>) {
    |out| == |ids| && forall i :: 0 <= i < |ids| ==> Delivered(roots, remote, ids[i], out[i])
  }

  lemma CollectedIsAnswered(roots: seq<Service>, remote: Graph, all: Graph)
    requires Collected(roots, remote, all) && Complete(roots, remote, all)
    ensures Answered(roots, remote)
    ensures forall id :: id in all <==> Reachable(roots, remote, id)
  {
    forall id | Reachable(roots, remote, id) && !IsRoot(roots, id) ensures id in remote {
      assert Known(roots, remote, id, all[id]);
    }
    forall id ensures id in all <==> Reachable(roots, remote, id) {
      if id in all {
        assert Known(roots, remote, id, all[id]);
      }
    }
  }

  method Convert(all: Graph, ids: seq<int>) returns (out: seq<ImportedComponent>)
    requires forall i :: 0 <= i < |ids| ==> ids[i] in all
    ensures |out| == |ids| && forall i :: 0 <= i < |ids| ==> out[i] == Converted(all[ids[i]])
  {
    out := [];
    for i := 0 to |ids|
      invariant |out| == i && forall k :: 0 <= k < i ==> out[k] == Converted(all[ids[k]])
    {
      out := out + [Converted(all[ids[i]])];
    }
  }

  lemma ConvertedIsDelivered(roots: seq<Service>, remote: Graph, all: Graph, ids: seq<int>, out: seq<ImportedComponent>)
    requires Honest(roots, remote) && Collected(roots, remote, all) && forall i :: 0 <= i < |ids| ==> ids[i] in all
    requires |out| == |ids| && forall i :: 0 <= i < |ids| ==> out[i] == Converted(all[ids[i]])
    ensures AllDelivered(roots, remote, ids, out)
  {
    forall i | 0 <= i < |ids| ensures Delivered(roots, remote, ids[i], out[i]) {
      DeliveredOne(roots, remote, all, ids[i]);
    }
  }

  lemma DeliveredOne(roots: seq<Service>, remote: Graph, all: Graph, id: int)
    requires Honest(roots, remote) && Collected(roots, remote, all) && id in all
    ensures Delivered(roots, remote, id, Converted(all[id]))
  {
    assert Known(roots, remote, id, all[id]);
  }

  ghost predicate Ascending(ids: seq<int>) {
    forall i, j :: 0 <= i < j < |ids| ==> ids[i] < ids[j]
  }

  /** The component shows the service known under the id. */
  ghost predicate Delivered(roots: seq<Service>, remote: Graph, id: int, c: ImportedComponent) {
    exists sv :: Known(roots, remote, id, sv) && sv.id == id && c == Converted(sv)
  }

  /** The keys of a map in increasing order. */
  method SortedIds(keys: set<int>) returns (ids: seq<int>)
    ensures Ascending(ids)
    ensures forall id :: id in ids <==> id in keys
  {
    ids := [];
    var rest := keys;
    while rest != {}
      invariant Ascending(ids)
      invariant forall id :: id in keys <==> id in ids || id in rest
      invariant forall i, id :: 0 <= i < |ids| && id in rest ==> ids[i] < id
      decreases |rest|
    {
      var least := Least(rest);
      ids, rest := ids + [least], rest - {least};
    }
  }

  method Least(s: set<int>) returns (least: int)
    requires s != {}
    ensures least in s && forall x :: x in s ==> least <= x
  {
    Inhabited(s);
    least :| least in s;
    var rest := s - {least};
    while rest != {}
      invariant rest <= s && least in s
      invariant forall x :: x in s ==> least <= x || x in rest
      decreases |rest|
    {
      Inhabited(rest);
      var x :| x in rest;
      if x < least {
        least := x;
      }
      rest := rest - {x};
    }
  }

  /** External ids of the result are pairwise distinct. */
  lemma ExternalIdsDiffer(a: Service, b: Service)
    requires a.id != b.id
    ensures Converted(a).externalId != Converted(b).externalId
  {
    if FormatInt(a.id) == FormatInt(b.id) {
      FormatIsInjective(a.id, b.id);
    }
  }
}
