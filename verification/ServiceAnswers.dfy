/** What the fetch loop does with answers that carry another id than the one asked for. */
module ServiceAnswers {
  import opened Base
  import opened ServiceClosure

  /** The loop comes to its end and has collected exactly the reachable services, each as answered. */
  ghost predicate FetchesExactly(roots: seq<Service>, remote: Graph) {
    exists n: nat, all: Graph :: After(remote, Begin(roots), n) == Some(Work(all, []))
      && Collected(roots, remote, all) && Complete(roots, remote, all)
  }

  // ----- Right answers are enough -----

  lemma TurnProgresses(roots: seq<Service>, remote: Graph, w: Work)
    requires Honest(roots, remote) && Progress(roots, remote, w.all, w.queue)
    requires w.queue != [] && Turn(remote, w).Some?
    ensures var u := Turn(remote, w).value;
            && Progress(roots, remote, u.all, u.queue)
            && (Left(remote, u.all) < Left(remote, w.all)
                || (Left(remote, u.all) == Left(remote, w.all) && |u.queue| < |w.queue|))
  {
    var id := w.queue[0];
    if id in w.all {
      SkipSeen(roots, remote, w.all, w.queue);
    } else {
      assert Reachable(roots, remote, id) && !IsRoot(roots, id);
      AddFetched(roots, remote, w.all, w.queue, remote[id]);
      Shrinks(remote, w.all, id, remote[id]);
    }
  }

  /** The loop has ended with all services it should collect, or a request has failed. */
  ghost predicate Done(roots: seq<Service>, remote: Graph, o: Option<Work>) {
    if o.None? then !Answered(roots, remote)
    else o.value.queue == [] && Collected(roots, remote, o.value.all) && Complete(roots, remote, o.value.all)
  }

  lemma FailedTurn(roots: seq<Service>, remote: Graph, w: Work)
    requires Progress(roots, remote, w.all, w.queue) && w.queue != [] && Turn(remote, w).None?
    ensures After(remote, w, 1) == None && Done(roots, remote, None)
  {
    assert Reachable(roots, remote, w.queue[0]) && !IsRoot(roots, w.queue[0]);
  }

  lemma EndIsDone(roots: seq<Service>, remote: Graph, w: Work)
    requires Progress(roots, remote, w.all, w.queue) && w.queue == []
    ensures Done(roots, remote, Some(w))
  {
    NothingIsMissing(roots, remote, w.all);
  }

  lemma {:induction false} RightAnswersStop(roots: seq<Service>, remote: Graph, w: Work)
    returns (n: nat, o: Option<Work>)
    requires Honest(roots, remote) && Progress(roots, remote, w.all, w.queue)
    ensures After(remote, w, n) == o && Done(roots, remote, o)
    decreases Left(remote, w.all), |w.queue|
  {
    if w.queue == [] {
      EndIsDone(roots, remote, w);
      n, o := 0, Some(w);
    } else if Turn(remote, w).None? {
      FailedTurn(roots, remote, w);
      n, o := 1, None;
    } else {
      TurnProgresses(roots, remote, w);
      n, o := RightAnswersStop(roots, remote, Turn(remote, w).value);
      AfterTurn(remote, w, n);
      n := n + 1;
    }
  }

  /** Main result: where answers carry the id asked for, the loop stops, whichever requests fail. */
  lemma HonestStops(roots: seq<Service>, remote: Graph)
    requires Honest(roots, remote)
    ensures Stops(remote, Begin(roots))
  {
    BeginProgresses(roots, remote);
    var n, o := RightAnswersStop(roots, remote, Begin(roots));
    assert StopsWithin(remote, Begin(roots), n);
  }

  // ----- Right answers are needed -----

  /** Services are collected under the id they carry. */
  ghost predicate Carried(all: Graph) {
    forall id :: id in all ==> all[id].id == id
  }

  lemma {:induction false} AfterIsCarried(remote: Graph, w: Work, n: nat)
    requires Carried(w.all) && After(remote, w, n).Some?
    ensures Carried(After(remote, w, n).value.all)
    decreases n
  {
    if n > 0 && w.queue != [] {
      AfterIsCarried(remote, Turn(remote, w).value, n - 1);
    }
  }

  lemma BeginIsCarried(roots: seq<Service>)
    ensures Carried(Begin(roots).all)
  {
    BeginHoldsRoots(roots);
  }

  lemma ExactMeansHonest(roots: seq<Service>, remote: Graph)
    requires FetchesExactly(roots, remote)
    ensures Honest(roots, remote)
  {
    var n: nat, all: Graph :| After(remote, Begin(roots), n) == Some(Work(all, []))
      && Collected(roots, remote, all) && Complete(roots, remote, all);
    BeginIsCarried(roots);
    AfterIsCarried(remote, Begin(roots), n);
    forall id | Reachable(roots, remote, id) && !IsRoot(roots, id) && id in remote ensures remote[id].id == id {
      assert id in all && Known(roots, remote, id, all[id]);
    }
  }

  /**
   Main result: when every reachable service is answered, the loop ends with exactly the reachable
   services if and only if every such answer carries the id that was asked for.
   */
  lemma FetchesExactlyIff(roots: seq<Service>, remote: Graph)
    requires Answered(roots, remote)
    ensures FetchesExactly(roots, remote) <==> Honest(roots, remote)
  {
    if FetchesExactly(roots, remote) {
      ExactMeansHonest(roots, remote);
    }
    if Honest(roots, remote) {
      BeginProgresses(roots, remote);
      var n, o := RightAnswersStop(roots, remote, Begin(roots));
      assert After(remote, Begin(roots), n) == Some(Work(o.value.all, []));
    }
  }

  // ----- A loop without end -----

  /** The only queued id is answered again and again by a service that is collected, and leads to the id itself. */
  ghost predicate Circles(remote: Graph, w: Work, id: int) {
    && w.queue == [id] && id !in w.all && id in remote && remote[id].childrenIds == [id]
    && remote[id].id in w.all && w.all[remote[id].id] == remote[id]
  }

  lemma {:induction false} CirclesForever(remote: Graph, w: Work, id: int, n: nat)
    requires Circles(remote, w, id)
    ensures After(remote, w, n) == Some(w)
    decreases n
  {
    if n > 0 {
      assert w.all[remote[id].id := remote[id]] == w.all;
      assert w.queue[1..] == [] && w.queue[1..] + remote[id].childrenIds == w.queue;
      assert Turn(remote, w) == Some(w);
      CirclesForever(remote, w, id, n - 1);
    }
  }

  /** However many turns, an id is left to look at. */
  ghost predicate NeverEnds(roots: seq<Service>, remote: Graph) {
    forall n: nat {:trigger After(remote, Begin(roots), n)} ::
      After(remote, Begin(roots), n).Some? && After(remote, Begin(roots), n).value.queue != []
  }

  /** A root 0 whose child 1 is answered by a service 2 that names 1 as its child. */
  lemma WrongAnswersLoop()
    ensures exists roots, remote :: NeverEnds(roots, remote)
  {
    var root := Service(0, "", "", None, false, "", [1]);
    var wrong := Service(2, "", "", None, false, "", [1]);
    var roots, remote := [root], map[1 := wrong];
    assert roots[..|roots| - 1] == [] && Begin([]) == Work(map[], []);
    var first := Begin(roots);
    assert first.queue == [] + [1] && first.all == map[][0 := root];
    assert first == Work(map[0 := root], [1]);
    var second := Turn(remote, first).value;
    assert Circles(remote, second, 1);
    forall n: nat ensures After(remote, first, n).Some? && After(remote, first, n).value.queue != [] {
      if n > 0 {
        CirclesForever(remote, second, 1, n - 1);
      }
    }
    assert NeverEnds(roots, remote);
  }
}
