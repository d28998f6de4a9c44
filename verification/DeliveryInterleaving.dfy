/**
 Workers interleaved call by call: several may hold copies of one notification at once, the broker may
 redeliver anything, and every store or broker call may fail.
 */
module DeliveryInterleaving {
  import opened Base
  import opened Delivery

  /** Where a worker stands inside Process and Retry. */
  datatype Place =
    | Loading
    | Sending
    | Marking
    | Counting
    | Scheduling(attempt: nat)
    | GivingUp

  datatype Worker = Worker(message: Message, place: Place)

  /** One publication through the delayed exchange. */
  datatype Publication = Publication(nid: Id, attempt: nat, delay: int)

  /**
   `journal` holds all ids ever journalled, and `published` every message the delayed exchange took, in
   order.
   */
  datatype Machine = Machine(
    rows: map<Id, Row>, workers: map<int, Worker>, published: seq<Publication>, journal: set<Id>)

  /**
   A step of one worker; `ok` tells whether the call succeeds. A failing call ends the run with a
   requeue, so the worker becomes free and the message may be taken again.
   */
  datatype Action =
    | Create(nid: Id)
    | Delete(nid: Id)
    | Take(w: int, m: Message)
    | Load(w: int, ok: bool)
    | Send(w: int, sent: SendResult)
    | Mark(w: int, ok: bool)
    | Count(w: int, ok: bool)
    | Schedule(w: int, result: PublishResult)
    | GiveUp(w: int, ok: bool)

  ghost predicate Enabled(s: Machine, a: Action) {
    match a
    case Create(nid) => nid !in s.journal && nid !in s.rows
    case Delete(_) => true
    case Take(w, m) => w !in s.workers
    case Load(w, _) => w in s.workers && s.workers[w].place == Loading
    case Send(w, _) => w in s.workers && s.workers[w].place == Sending
    case Mark(w, _) => w in s.workers && s.workers[w].place == Marking
    case Count(w, _) => w in s.workers && s.workers[w].place == Counting
    case Schedule(w, _) => w in s.workers && s.workers[w].place.Scheduling?
    case GiveUp(w, _) => w in s.workers && s.workers[w].place == GivingUp
  }

  function Goto(s: Machine, w: int, place: Place): Machine
    requires w in s.workers
  {
    s.(workers := s.workers[w := s.workers[w].(place := place)])
  }

  function Free(s: Machine, w: int): Machine {
    s.(workers := s.workers - {w})
  }

  ghost function Next(s: Machine, a: Action): Machine
    requires Enabled(s, a)
  {
    match a
    case Create(nid) => s.(rows := s.rows[nid := Row(RowPending, 0)], journal := s.journal + {nid})
    case Delete(nid) => s.(rows := s.rows - {nid})
    case Take(w, m) => s.(workers := s.workers[w := Worker(m, Loading)])
    case Load(w, ok) =>
      var nid := s.workers[w].message.nid;
      if !ok || nid !in s.rows || s.rows[nid].status == RowSent then Free(s, w) else Goto(s, w, Sending)
    case Send(w, sent) =>
      if sent == Delivered then Goto(s, w, Marking)
      else if sent == PermanentError && s.workers[w].message.channel != Email then Free(s, w)
      else Goto(s, w, Counting)
    case Mark(w, ok) =>
      var nid := s.workers[w].message.nid;
      Free(if ok && nid in s.rows then s.(rows := s.rows[nid := s.rows[nid].(status := RowSent)]) else s, w)
    case Count(w, ok) =>
      var nid := s.workers[w].message.nid;
      if !ok || nid !in s.rows then Free(s, w)
      else
        var attempt := s.rows[nid].attempts + 1;
        var counted := s.(rows := s.rows[nid := s.rows[nid].(attempts := attempt)]);
        if RetryBackoff(attempt).Some? then Goto(counted, w, Scheduling(attempt)) else Goto(counted, w, GivingUp)
    case Schedule(w, result) =>
      var nid, attempt := s.workers[w].message.nid, s.workers[w].place.attempt;
      var delay := RetryBackoff(attempt);
      Free(if result == Refused || delay.None? then s
           else s.(published := s.published + [Publication(nid, attempt, delay.value)]), w)
    case GiveUp(w, ok) =>
      var nid := s.workers[w].message.nid;
      Free(if ok && nid in s.rows then s.(rows := s.rows[nid := s.rows[nid].(status := RowFailed)]) else s, w)
  }

  // ----- Invariant -----

  /** The worker has drawn this attempt number and not yet published it. */
  ghost predicate Holds(s: Machine, w: int, nid: Id, attempt: nat) {
    w in s.workers && s.workers[w] == Worker(s.workers[w].message, Scheduling(attempt))
      && s.workers[w].message.nid == nid
  }

  ghost predicate PublicationOk(s: Machine, p: Publication) {
    Drawn(s, p.nid, p.attempt) && RetryBackoff(p.attempt) == Some(p.delay)
  }

  /** The attempt number has been counted, if the row is still there to tell. */
  ghost predicate Drawn(s: Machine, nid: Id, attempt: int) {
    nid in s.journal && 1 <= attempt && (nid in s.rows ==> attempt <= s.rows[nid].attempts)
  }

  /** Attempt numbers are handed out once: to a publication or to one worker. */
  ghost predicate Inv(s: Machine) {
    && s.rows.Keys <= s.journal
    && (forall i :: 0 <= i < |s.published| ==> PublicationOk(s, s.published[i]))
    && (forall i, j :: 0 <= i < j < |s.published| ==>
          s.published[i].nid != s.published[j].nid || s.published[i].attempt != s.published[j].attempt)
    && (forall w, nid, a: nat :: Holds(s, w, nid, a) ==> Drawn(s, nid, a) && RetryBackoff(a).Some?)
    && (forall w, nid, a: nat, i :: Holds(s, w, nid, a) && 0 <= i < |s.published| ==>
          s.published[i].nid != nid || s.published[i].attempt != a)
    && (forall w, v, nid, a: nat :: Holds(s, w, nid, a) && Holds(s, v, nid, a) ==> w == v)
  }

  /** A worker elsewhere than in Scheduling holds nothing; the others hold what they held. */
  lemma HoldsAfter(s: Machine, t: Machine, w: int)
    requires forall v :: v != w ==>
              (v in s.workers <==> v in t.workers) && (v in s.workers ==> t.workers[v] == s.workers[v])
    ensures forall v, nid, a: nat :: v != w ==> (Holds(t, v, nid, a) <==> Holds(s, v, nid, a))
  {
  }

  lemma CountKeepsInv(s: Machine, w: int, ok: bool)
    requires Inv(s) && Enabled(s, Count(w, ok))
    ensures Inv(Next(s, Count(w, ok)))
  {
    var t := Next(s, Count(w, ok));
    HoldsAfter(s, t, w);
    forall v, nid, a: nat | Holds(t, v, nid, a)
      ensures Drawn(t, nid, a) && RetryBackoff(a).Some?
    {
      assert v != w ==> Holds(s, v, nid, a);
    }
    forall i | 0 <= i < |t.published| ensures PublicationOk(t, t.published[i]) {
      assert PublicationOk(s, s.published[i]);
    }
  }

  lemma ScheduleKeepsInv(s: Machine, w: int, result: PublishResult)
    requires Inv(s) && Enabled(s, Schedule(w, result))
    ensures Inv(Next(s, Schedule(w, result)))
  {
    var t := Next(s, Schedule(w, result));
    HoldsAfter(s, t, w);
    assert Holds(s, w, s.workers[w].message.nid, s.workers[w].place.attempt);
    forall v, nid, a: nat | Holds(t, v, nid, a) ensures v != w && Holds(s, v, nid, a) {
    }
    forall i | 0 <= i < |t.published| ensures PublicationOk(t, t.published[i]) {
      if i < |s.published| {
        assert PublicationOk(s, s.published[i]);
      }
    }
  }

  /** The other steps draw no attempt number and publish nothing. */
  lemma QuietStepKeepsInv(s: Machine, a: Action)
    requires Inv(s) && Enabled(s, a) && !a.Count? && !a.Schedule?
    ensures Inv(Next(s, a))
  {
    var t := Next(s, a);
    forall v, nid, n: nat | Holds(t, v, nid, n) ensures Holds(s, v, nid, n) {
    }
    forall i | 0 <= i < |t.published| ensures PublicationOk(t, t.published[i]) {
      assert PublicationOk(s, s.published[i]);
    }
  }

  ghost predicate EnabledRun(s: Machine, run: seq<Action>)
    decreases |run|
  {
    run == [] || (Enabled(s, run[0]) && EnabledRun(Next(s, run[0]), run[1..]))
  }

  ghost function Run(s: Machine, run: seq<Action>): Machine
    requires EnabledRun(s, run)
    decreases |run|
  {
    if run == [] then s else Run(Next(s, run[0]), run[1..])
  }

  lemma {:induction false} RunKeepsInv(s: Machine, run: seq<Action>)
    requires Inv(s) && EnabledRun(s, run)
    ensures Inv(Run(s, run))
    decreases |run|
  {
    if run != [] {
      if run[0].Count? {
        CountKeepsInv(s, run[0].w, run[0].ok);
      } else if run[0].Schedule? {
        ScheduleKeepsInv(s, run[0].w, run[0].result);
      } else {
        QuietStepKeepsInv(s, run[0]);
      }
      RunKeepsInv(Next(s, run[0]), run[1..]);
    }
  }

  // ----- At most three delayed publications -----

  ghost function PublicationsOf(published: seq<Publication>, nid: Id): seq<Publication> {
    if published == [] then []
    else
      var last := published[|published| - 1];
      PublicationsOf(published[..|published| - 1], nid) + if last.nid == nid then [last] else []
  }

  lemma {:induction false} PublicationsAreDistinct(published: seq<Publication>, nid: Id)
    requires forall i, j :: 0 <= i < j < |published| ==>
      published[i].nid != published[j].nid || published[i].attempt != published[j].attempt
    ensures var ps := PublicationsOf(published, nid);
            && (forall p :: p in ps ==> p in published && p.nid == nid)
            && (forall i, j :: 0 <= i < j < |ps| ==> ps[i].attempt != ps[j].attempt)
  {
    if published != [] {
      var front, last := published[..|published| - 1], published[|published| - 1];
      PublicationsAreDistinct(front, nid);
      var qs := PublicationsOf(front, nid);
      forall i | 0 <= i < |qs| && last.nid == nid ensures qs[i].attempt != last.attempt {
        assert qs[i] in front;
        var k :| 0 <= k < |front| && front[k] == qs[i];
        assert published[k] == qs[i];
      }
    }
  }

  function AttemptsOf(ps: seq<Publication>): set<int> {
    set p | p in ps :: p.attempt
  }

  lemma {:induction false} DistinctAttemptsCount(ps: seq<Publication>)
    requires forall i, j :: 0 <= i < j < |ps| ==> ps[i].attempt != ps[j].attempt
    ensures |AttemptsOf(ps)| == |ps|
  {
    if ps == [] {
      assert AttemptsOf(ps) == {};
    } else {
      var front, last := ps[..|ps| - 1], ps[|ps| - 1];
      DistinctAttemptsCount(front);
      assert ps == front + [last];
      assert AttemptsOf(ps) == AttemptsOf(front) + {last.attempt};
      assert last.attempt !in AttemptsOf(front);
    }
  }

  const START := Machine(map[], map[], [], {})

  /**
   Main result: in every interleaving a notification gets at most three delayed publications, each
   with its own attempt number 1, 2 or 3 and that attempt's delay of 1, 5 or 30 minutes.
   */
  lemma AtMostThreeDelayedPublications(run: seq<Action>, nid: Id)
    requires EnabledRun(START, run)
    ensures var ps := PublicationsOf(Run(START, run).published, nid);
            && |ps| <= 3
            && (forall i, j :: 0 <= i < j < |ps| ==> ps[i].attempt != ps[j].attempt)
            && (forall p :: p in ps ==>
                  || (p.attempt == 1 && p.delay == 1 * MINUTE)
                  || (p.attempt == 2 && p.delay == 5 * MINUTE)
                  || (p.attempt == 3 && p.delay == 30 * MINUTE))
  {
    RunKeepsInv(START, run);
    var s := Run(START, run);
    PublicationsAreDistinct(s.published, nid);
    var ps := PublicationsOf(s.published, nid);
    forall p | p in ps ensures 1 <= p.attempt <= 3 && p.delay == RETRY_SCHEDULE[p.attempt - 1] {
      PublishedIsScheduled(s, p);
    }
    AtMostThree(ps);
  }

  lemma PublishedIsScheduled(s: Machine, p: Publication)
    requires Inv(s) && p in s.published
    ensures 1 <= p.attempt <= 3 && p.delay == RETRY_SCHEDULE[p.attempt - 1]
  {
    var i :| 0 <= i < |s.published| && s.published[i] == p;
    assert PublicationOk(s, s.published[i]);
  }

  lemma AtMostThree(ps: seq<Publication>)
    requires forall i, j :: 0 <= i < j < |ps| ==> ps[i].attempt != ps[j].attempt
    requires forall p :: p in ps ==> 1 <= p.attempt <= 3
    ensures |ps| <= 3
  {
    DistinctAttemptsCount(ps);
    SubsetSize(AttemptsOf(ps), {1, 2, 3});
  }

  /** MaxAttempts + 1 - attempts: never grows while the row exists, and each counted failure lowers it. */
  function RetriesLeft(s: Machine, nid: Id): int {
    if nid in s.rows then MAX_ATTEMPTS + 1 - s.rows[nid].attempts else MAX_ATTEMPTS + 1
  }

  lemma CountingLowersTheMeasure(s: Machine, a: Action, nid: Id)
    requires Enabled(s, a) && a != Delete(nid)
    ensures RetriesLeft(Next(s, a), nid) <= RetriesLeft(s, nid)
    ensures RetriesLeft(Next(s, a), nid) < RetriesLeft(s, nid) <==>
            a.Count? && a.ok && s.workers[a.w].message.nid == nid && nid in s.rows
    ensures a.Schedule? && Next(s, a).published != s.published && Inv(s) && s.workers[a.w].message.nid in s.rows ==>
              RetriesLeft(s, s.workers[a.w].message.nid) <= MAX_ATTEMPTS
  {
    if a.Schedule? && Inv(s) {
      assert Holds(s, a.w, s.workers[a.w].message.nid, s.workers[a.w].place.attempt);
    }
  }

  // ----- Sent is not final between the calls -----

  ghost predicate Reachable(s: Machine) {
    exists run :: EnabledRun(START, run) && Run(START, run) == s
  }

  lemma {:induction false} AppendAction(s: Machine, run: seq<Action>, a: Action)
    requires EnabledRun(s, run) && Enabled(Run(s, run), a)
    ensures EnabledRun(s, run + [a]) && Run(s, run + [a]) == Next(Run(s, run), a)
    decreases |run|
  {
    var longer := run + [a];
    if run == [] {
      assert longer[1..] == [];
      assert EnabledRun(Next(s, a), []);
    } else {
      assert longer[0] == run[0] && longer[1..] == run[1..] + [a];
      AppendAction(Next(s, run[0]), run[1..], a);
    }
  }

  lemma StepReaches(s: Machine, a: Action)
    requires Reachable(s) && Enabled(s, a)
    ensures Reachable(Next(s, a))
  {
    var run :| EnabledRun(START, run) && Run(START, run) == s;
    AppendAction(START, run, a);
  }

  /** A worker whose send fails draws the next attempt number. */
  lemma FailingWorker(s: Machine, m: Message, w: int) returns (t: Machine)
    requires Reachable(s) && w !in s.workers
    requires m.nid in s.rows && s.rows[m.nid].status != RowSent
    ensures Reachable(t)
    ensures t.rows == s.rows[m.nid := s.rows[m.nid].(attempts := s.rows[m.nid].attempts + 1)]
    ensures var place := if RetryBackoff(s.rows[m.nid].attempts + 1).Some?
                         then Scheduling(s.rows[m.nid].attempts + 1) else GivingUp;
            t.workers == s.workers[w := Worker(m, place)]
  {
    var sending := SecondCopy(s, m, w);
    t := FailingSend(sending, m, w);
    assert s.workers[w := Worker(m, Sending)][w := t.workers[w]] == s.workers[w := t.workers[w]];
  }

  lemma FailingSend(s: Machine, m: Message, w: int) returns (t: Machine)
    requires Reachable(s) && w in s.workers && s.workers[w] == Worker(m, Sending) && m.nid in s.rows
    ensures Reachable(t)
    ensures t.rows == s.rows[m.nid := s.rows[m.nid].(attempts := s.rows[m.nid].attempts + 1)]
    ensures var place := if RetryBackoff(s.rows[m.nid].attempts + 1).Some?
                         then Scheduling(s.rows[m.nid].attempts + 1) else GivingUp;
            t.workers == s.workers[w := Worker(m, place)]
  {
    var sent := Next(s, Send(w, TransientError));
    StepReaches(s, Send(w, TransientError));
    assert sent.workers == s.workers[w := Worker(m, Counting)];
    StepReaches(sent, Count(w, true));
    t := Next(sent, Count(w, true));
  }

  /** Three failures, a copy about to be sent by worker 5, and a fourth failure of worker 4. */
  lemma FourthFailure(m: Message) returns (t: Machine)
    ensures Reachable(t) && m.nid in t.rows && t.rows[m.nid] == Row(RowPending, 4)
    ensures 4 in t.workers && t.workers[4] == Worker(m, GivingUp)
    ensures 5 in t.workers && t.workers[5] == Worker(m, Sending)
    ensures 6 !in t.workers
  {
    t := ThreeFailures(m);
    t := SecondCopy(t, m, 5);
    t := FailingWorker(t, m, 4);
  }

  lemma ThreeFailures(m: Message) returns (t: Machine)
    ensures Reachable(t) && m.nid in t.rows && t.rows[m.nid] == Row(RowPending, 3)
    ensures t.workers.Keys == {1, 2, 3}
  {
    assert EnabledRun(START, []) && Run(START, []) == START;
    StepReaches(START, Create(m.nid));
    t := Next(START, Create(m.nid));
    t := FailingWorker(t, m, 1);
    t := FailingWorker(t, m, 2);
    t := FailingWorker(t, m, 3);
  }

  /** Another worker takes a redelivered copy and gets past the journal check. */
  lemma SecondCopy(s: Machine, m: Message, w: int) returns (t: Machine)
    requires Reachable(s) && w !in s.workers
    requires m.nid in s.rows && s.rows[m.nid].status != RowSent
    ensures Reachable(t) && t.rows == s.rows && t.workers == s.workers[w := Worker(m, Sending)]
  {
    StepReaches(s, Take(w, m));
    t := Next(s, Take(w, m));
    StepReaches(t, Load(w, true));
    t := Next(t, Load(w, true));
  }

  /**
   With Process split into its calls, a worker that exhausts the retries can overwrite the sent row of
   another worker's successful delivery, and a later copy of the message is sent again.
   */
  lemma SentCanBeOverwritten(m: Message)
    ensures exists before: Machine, w: int, v: int ::
      && Reachable(before) && m.nid in before.rows && before.rows[m.nid].status == RowSent
      && Enabled(before, GiveUp(w, true))
      && var after := Next(before, GiveUp(w, true));
         after.rows[m.nid].status == RowFailed && Enabled(after, Take(v, m)) &&
         var taken := Next(after, Take(v, m));
         Enabled(taken, Load(v, true)) && Next(taken, Load(v, true)).workers[v] == Worker(m, Sending)
  {
    var t := FourthFailure(m);
    StepReaches(t, Send(5, Delivered));
    t := Next(t, Send(5, Delivered));
    StepReaches(t, Mark(5, true));
    t := Next(t, Mark(5, true));
    assert t.rows[m.nid].status == RowSent && Enabled(t, GiveUp(4, true));
    var after := Next(t, GiveUp(4, true));
    var taken := Next(after, Take(6, m));
    assert Next(taken, Load(6, true)).workers[6] == Worker(m, Sending);
  }
}
