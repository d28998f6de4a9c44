/**
 How one delivery ends, case by case, and what a dispatch puts into which queue
 (backend/internal/webhookout/worker.go, backend/internal/email/worker.go, backend/internal/notify/engine.go).
 */
module DeliveryOutcomes {
  import opened Base
  import opened Topology
  import opened Delivery
  import opened DeliveryRuns
  import opened DeliveryRetries

  // ----- One delivery with successful store and broker calls -----

  /** The row is there and not sent, and the message can be rendered and addressed. */
  ghost predicate ReachesSender(st: State, m: Message, env: Env) {
    m.nid in st.rows && st.rows[m.nid].status != RowSent && env.build && Addressed(m)
  }

  /** Only messages and bookkeeping of the notification may differ; its row is as given, its sender called so often. */
  ghost predicate Leaves(st: State, u: State, nid: Id, row: Option<Row>, calls: nat) {
    && OnlyTouches(st, u, nid) && u.journal == st.journal
    && (if row.Some? then nid in u.rows && u.rows[nid] == row.value else nid !in u.rows)
    && Calls(u, nid) == calls
  }

  function RowOf(st: State, nid: Id): Option<Row> {
    if nid in st.rows then Some(st.rows[nid]) else None
  }

  /** Nothing to do: a missing or sent row settles the message without a call. */
  lemma NothingToSend(st: State, r: Routed, env: Env)
    requires Inv(st) && r in st.work && Smooth(DeliverStep(r, env))
    requires r.message.nid !in st.rows || st.rows[r.message.nid].status == RowSent
    ensures var u, nid := Deliver(st, r, env), r.message.nid;
            Leaves(st, u, nid, RowOf(st, nid), Calls(st, nid)) && Settled(u, nid)
  {
    DeliverTouches(st, r, env);
    DeliveredIsQueued(st, r);
  }

  /** A message that cannot be rendered or addressed goes to the dead-letter queue without a call. */
  lemma UnusableIsDeadLettered(st: State, r: Routed, env: Env)
    requires Inv(st) && r in st.work && Smooth(DeliverStep(r, env))
    requires r.message.nid in st.rows && st.rows[r.message.nid].status != RowSent
    requires !env.build || ((r.message.channel == Webhook || r.message.channel == Slack) && r.message.address == "")
    ensures var u, nid := Deliver(st, r, env), r.message.nid;
            Leaves(st, u, nid, RowOf(st, nid), Calls(st, nid)) && DeadLettered(u, nid)
  {
    DeliverTouches(st, r, env);
    DeliverKeepsInv(st, r, env);
    DeliveredIsQueued(st, r);
    RejectedGoesToDlq(st.names, r.message);
    OneAdded(st.dead, Routed(DlqQueue(DeadChannel(st.names, r.message.channel)), r.message));
  }

  /** A successful send is one call and marks the row as sent, attempts unchanged. */
  lemma DeliveredIsSent(st: State, r: Routed, env: Env)
    requires Inv(st) && r in st.work && Smooth(DeliverStep(r, env))
    requires ReachesSender(st, r.message, env) && env.send == Delivered
    ensures var u, nid := Deliver(st, r, env), r.message.nid;
            && Leaves(st, u, nid, Some(Row(RowSent, st.rows[nid].attempts)), Calls(st, nid) + 1)
            && Settled(u, nid) && u.dropped == st.dropped
  {
    DeliverTouches(st, r, env);
    DeliveredIsQueued(st, r);
  }

  /** On every channel but email a permanent error is one call after which the message is dropped. */
  lemma PermanentErrorDrops(st: State, r: Routed, env: Env)
    requires Inv(st) && r in st.work && Smooth(DeliverStep(r, env))
    requires ReachesSender(st, r.message, env) && env.send == PermanentError && r.message.channel != Email
    ensures var u, nid := Deliver(st, r, env), r.message.nid;
            && Leaves(st, u, nid, RowOf(st, nid), Calls(st, nid) + 1)
            && u.delayed == st.delayed && u.dead == st.dead && nid in u.dropped && Settled(u, nid)
  {
    DeliverTouches(st, r, env);
    DeliveredIsQueued(st, r);
  }

  /** Minutes to wait before the attempt after this one. */
  function MinutesAfter(attempt: nat): Option<int> {
    if attempt == 1 then Some(1) else if attempt == 2 then Some(5) else if attempt == 3 then Some(30) else None
  }

  /** One more call and attempt; then a delayed copy with its wait, or the dead-letter queue and the failed mark. */
  ghost predicate Retried(st: State, u: State, r: Routed)
    requires r.message.nid in st.rows
  {
    var nid := r.message.nid;
    var n := st.rows[nid].attempts + 1;
    match MinutesAfter(n)
    case Some(minutes) =>
      && Leaves(st, u, nid, Some(Row(st.rows[nid].status, n)), Calls(st, nid) + 1) && Waiting(u, nid)
      && u.delayed == st.delayed + multiset{Delayed(r.message.(attempt := n), 60 * minutes)}
    case None =>
      && Leaves(st, u, nid, Some(Row(RowFailed, n)), Calls(st, nid) + 1) && DeadLettered(u, nid)
      && u.delayed == st.delayed
  }

  /**
   Any other failure, and by email a permanent one too, is one call and one more attempt: the first three
   wait 1, 5 and 30 minutes in the delayed exchange, a further one is dead-lettered and marked failed.
   */
  lemma FailureIsRetried(st: State, r: Routed, env: Env)
    requires Inv(st) && r in st.work && Smooth(DeliverStep(r, env))
    requires ReachesSender(st, r.message, env)
    requires env.send == TransientError || (env.send == PermanentError && r.message.channel == Email)
    ensures Retried(st, Deliver(st, r, env), r)
  {
    var taken := st.(work := st.work - multiset{r});
    DeliverTouches(st, r, env);
    FailedProcess(taken, r.message, env);
    RetriedPlace(st, r, env, Process(taken, r.message, env));
    FailedDelivery(st, r, Process(taken, r.message, env));
    RetriedFrom(st, Deliver(st, r, env), r);
  }

  lemma RetriedPlace(st: State, r: Routed, env: Env, o: Outcome)
    requires Inv(st) && r in st.work && Smooth(DeliverStep(r, env)) && r.message.nid in st.rows
    requires FailedOnce(st.(work := st.work - multiset{r}), r.message, o)
    requires Deliver(st, r, env) == Disposed(st.names, r, o)
    ensures if st.rows[r.message.nid].attempts + 1 <= 3 then Waiting(Deliver(st, r, env), r.message.nid)
            else DeadLettered(Deliver(st, r, env), r.message.nid)
  {
    var nid, n := r.message.nid, st.rows[r.message.nid].attempts + 1;
    DeliverKeepsInv(st, r, env);
    DeliveredIsQueued(st, r);
    FailedDelivery(st, r, o);
    if n <= 3 {
      DelayedIsWaiting(Deliver(st, r, env), nid, Delayed(r.message.(attempt := n), 60 * MinutesAfter(n).value));
    } else {
      RestIsDead(st, Deliver(st, r, env), r);
    }
  }

  lemma RetriedFrom(st: State, u: State, r: Routed)
    requires r.message.nid in st.rows && OnlyTouches(st, u, r.message.nid) && FailedAfter(st, u, r)
    requires if st.rows[r.message.nid].attempts + 1 <= 3 then Waiting(u, r.message.nid)
             else DeadLettered(u, r.message.nid)
    ensures Retried(st, u, r)
  {
  }

  lemma DelayedIsWaiting(u: State, nid: Id, d: Delayed)
    requires Inv(u) && nid in u.journal && d in u.delayed && d.message.nid == nid
    ensures Waiting(u, nid)
  {
    assert Conserved(u, nid);
  }

  lemma RestIsDead(st: State, u: State, r: Routed)
    requires Inv(st) && r in st.work && Inv(u) && r.message.nid in u.journal
    requires u.work == st.work - multiset{r} && u.delayed == st.delayed && u.consumed == st.consumed
    ensures DeadLettered(u, r.message.nid)
  {
    DeliveredIsQueued(st, r);
    assert Conserved(u, r.message.nid);
  }

  /** The outcome of a failing send, before the broker applies it. */
  ghost predicate FailedOnce(st: State, m: Message, o: Outcome)
    requires m.nid in st.rows
  {
    var n := st.rows[m.nid].attempts + 1;
    && o.state.names == st.names && o.state.work == st.work && o.state.dead == st.dead
    && o.state.journal == st.journal && o.state.consumed == st.consumed
    && Calls(o.state, m.nid) == Calls(st, m.nid) + 1
    && (if n <= 3 then
          && o.disposition == Ack && o.state.rows == st.rows[m.nid := Row(st.rows[m.nid].status, n)]
          && o.state.delayed == st.delayed + multiset{Delayed(m.(attempt := n), 60 * MinutesAfter(n).value)}
        else
          && o.disposition == Reject && o.state.rows == st.rows[m.nid := Row(RowFailed, n)]
          && o.state.delayed == st.delayed)
  }

  lemma FailedProcess(st: State, m: Message, env: Env)
    requires Smooth(DeliverStep(Routed("", m), env)) && ReachesSender(st, m, env)
    requires env.send == TransientError || (env.send == PermanentError && m.channel == Email)
    ensures FailedOnce(st, m, Process(st, m, env))
  {
  }

  /** The same after the broker has applied it, dead letters aside. */
  ghost predicate FailedAfter(st: State, u: State, r: Routed)
    requires r.message.nid in st.rows
  {
    var nid, n := r.message.nid, st.rows[r.message.nid].attempts + 1;
    && u.work == st.work - multiset{r} && u.journal == st.journal && u.consumed == st.consumed
    && Calls(u, nid) == Calls(st, nid) + 1
    && (if n <= 3 then
          && u.rows == st.rows[nid := Row(st.rows[nid].status, n)]
          && u.delayed == st.delayed + multiset{Delayed(r.message.(attempt := n), 60 * MinutesAfter(n).value)}
        else
          u.rows == st.rows[nid := Row(RowFailed, n)] && u.delayed == st.delayed)
  }

  lemma FailedDelivery(st: State, r: Routed, o: Outcome)
    requires r.message.nid in st.rows && FailedOnce(st.(work := st.work - multiset{r}), r.message, o)
    ensures FailedAfter(st, Disposed(st.names, r, o), r)
  {
  }

  // ----- Settled is for good -----

  lemma StepKeepsSettled(st: State, step: Step, nid: Id)
    requires Inv(st) && Enabled(st, step) && Smooth(step) && nid in st.journal && Settled(st, nid)
    ensures Settled(Next(st, step), nid) && Calls(Next(st, step), nid) == Calls(st, nid)
    ensures nid in Next(st, step).journal
  {
    StepTouches(st, step);
    if Touched(step) != nid {
      OthersKeepTheirPlace(st, Next(st, step), Touched(step), nid);
    }
  }

  /** Main result: once settled, no smooth run makes another copy or another call. */
  lemma {:induction false} SettledIsForGood(st: State, run: seq<Step>, nid: Id)
    requires Inv(st) && EnabledRun(st, run) && forall s :: s in run ==> Smooth(s)
    requires nid in st.journal && Settled(st, nid)
    ensures Settled(Run(st, run), nid) && Calls(Run(st, run), nid) == Calls(st, nid)
    decreases |run|
  {
    if run != [] {
      assert run[0] in run;
      StepKeepsSettled(st, run[0], nid);
      StepTouches(st, run[0]);
      SettledIsForGood(Next(st, run[0]), run[1..], nid);
    }
  }

  /**
   Main result: on every channel but email, a delivery that reaches the sender and ends in a permanent error
   is the last one: attempts stay, no copy is left or made, and the sender is never called for it again.
   */
  lemma PermanentErrorIsFinal(st: State, r: Routed, env: Env, run: seq<Step>)
    requires Inv(st) && r in st.work && Smooth(DeliverStep(r, env))
    requires ReachesSender(st, r.message, env) && env.send == PermanentError && r.message.channel != Email
    requires EnabledRun(Deliver(st, r, env), run) && forall s :: s in run ==> Smooth(s)
    ensures var u, nid := Deliver(st, r, env), r.message.nid;
            && u.rows == st.rows && u.delayed == st.delayed && u.dead == st.dead
            && Settled(Run(u, run), nid) && Calls(Run(u, run), nid) == Calls(st, nid) + 1
  {
    PermanentErrorDrops(st, r, env);
    DeliverKeepsInv(st, r, env);
    DeliveredIsQueued(st, r);
    SettledIsForGood(Deliver(st, r, env), run, r.message.nid);
  }

  // ----- Failing store and broker calls -----

  /** The message is back in its queue, and of the rest at most the row's attempts and a delayed copy changed. */
  ghost predicate Requeued(st: State, u: State, r: Routed, calls: nat, attempts: nat, copies: multiset<Delayed>) {
    && u.work == st.work && u.dead == st.dead && u.delayed == st.delayed + copies
    && u.journal == st.journal && u.consumed == st.consumed && u.dropped == st.dropped && u.names == st.names
    && u.rows.Keys == st.rows.Keys && Calls(u, r.message.nid) == Calls(st, r.message.nid) + calls
    && forall n :: n in st.rows ==>
         u.rows[n] == if n == r.message.nid then Row(st.rows[n].status, st.rows[n].attempts + attempts) else st.rows[n]
  }

  lemma RequeuedFrom(st: State, r: Routed, o: Outcome, calls: nat, attempts: nat, copies: multiset<Delayed>)
    requires r in st.work && o.disposition == Requeue
    requires Requeued(st.(work := st.work - multiset{r}), o.state, r, calls, attempts, copies)
    ensures Requeued(st, Disposed(st.names, r, o), r, calls, attempts, copies)
  {
    assert st.work - multiset{r} + multiset{r} == st.work;
  }

  /** A row that cannot be read is left for later, and so is a send that cannot be recorded. */
  lemma UnrecordedRequeues(st: State, r: Routed, env: Env)
    requires r in st.work
    ensures !env.load ==> Requeued(st, Deliver(st, r, env), r, 0, 0, multiset{})
    ensures env.load && ReachesSender(st, r.message, env) && env.send == Delivered && !env.markSent ==>
              Requeued(st, Deliver(st, r, env), r, 1, 0, multiset{})
  {
    var taken := st.(work := st.work - multiset{r});
    var o := Process(taken, r.message, env);
    if !env.load {
      RequeuedFrom(st, r, o, 0, 0, multiset{});
    } else if ReachesSender(st, r.message, env) && env.send == Delivered && !env.markSent {
      RequeuedFrom(st, r, o, 1, 0, multiset{});
    }
  }

  /** How many attempts and copies a failing retry has counted and scheduled when its message is requeued. */
  ghost predicate RetryTrouble(st: State, m: Message, env: Env, attempts: nat, copies: multiset<Delayed>)
    requires m.nid in st.rows
  {
    var n := st.rows[m.nid].attempts + 1;
    || (!env.increment && attempts == 0 && copies == multiset{})
    || (env.increment && n <= 3 && env.publish == Refused && attempts == 1 && copies == multiset{})
    || (env.increment && n <= 3 && env.publish == Unconfirmed && attempts == 1
        && copies == multiset{Delayed(m.(attempt := n), 60 * MinutesAfter(n).value)})
    || (env.increment && n > 3 && !env.markFailed && attempts == 1 && copies == multiset{})
  }

  lemma TroubledProcess(st: State, r: Routed, env: Env, attempts: nat, copies: multiset<Delayed>)
    requires env.load && ReachesSender(st, r.message, env) && FailsForNow(r.message, env)
    requires RetryTrouble(st, r.message, env, attempts, copies)
    ensures Process(st, r.message, env).disposition == Requeue
    ensures Requeued(st, Process(st, r.message, env).state, r, 1, attempts, copies)
  {
  }

  /** What each failing call of a retry leaves: the message in its queue, and what was done before that call. */
  lemma TroubleRequeues(st: State, r: Routed, env: Env, attempts: nat, copies: multiset<Delayed>)
    requires r in st.work && env.load && ReachesSender(st, r.message, env) && FailsForNow(r.message, env)
    requires RetryTrouble(st, r.message, env, attempts, copies)
    ensures Requeued(st, Deliver(st, r, env), r, 1, attempts, copies)
  {
    var taken := st.(work := st.work - multiset{r});
    TroubledProcess(taken, r, env, attempts, copies);
    RequeuedFrom(st, r, Process(taken, r.message, env), 1, attempts, copies);
  }

  // ----- Dispatch -----

  /** The message of the subscriber: its channel and address, the event, no attempt yet; in its channel's queue. */
  ghost predicate MeantFor(n: Names, r: Routed, nid: Id, s: Subscriber, event: string) {
    && r.message.nid == nid && r.message.channel == s.channel && r.message.event == event
    && r.message.address == s.address && r.message.attempt == 0
    && r.queue == (if s.channel == Webhook then n.webhookQueue else WorkQueue(ChannelName(s.channel)))
  }

  /** Page subscribers want every event, component subscribers those that name one of their components. */
  ghost predicate Interested(s: Subscriber, affected: seq<Id>) {
    && s.channel != Rss && s.channel != ICal
    && (s.scope == PageScope || exists k :: 0 <= k < |affected| && affected[k] in s.componentIds)
  }

  lemma InterestedIsChosen(s: Subscriber, affected: seq<Id>)
    ensures Interested(s, affected) <==> Chosen(s, affected)
  {
    if Chosen(s, affected) && s.scope != PageScope {
      var c :| c in affected && c in s.componentIds;
      var k :| 0 <= k < |affected| && affected[k] == c;
      assert affected[k] in s.componentIds;
    }
    if Interested(s, affected) && s.scope != PageScope {
      var k :| 0 <= k < |affected| && affected[k] in s.componentIds;
      var c := affected[k];
      assert c in affected && c in s.componentIds;
    }
  }

  /** Subscriber i is interested, its row was created and its message published. */
  ghost predicate Publishes(subs: seq<Subscriber>, affected: seq<Id>, fs: seq<FanOut>, i: int)
    requires |fs| == |subs|
  {
    0 <= i < |subs| && Interested(subs[i], affected) && fs[i].created && fs[i].publish != Refused
  }

  /** One message more: of subscriber k, if it publishes. */
  lemma DispatchOneAdds(st: State, s: Subscriber, affected: seq<Id>, event: string, f: FanOut, r: Routed)
    requires Covers(st.names) && DottedText.DotFree(event)
    ensures var u := DispatchOne(st, s, affected, event, f);
            && u.names == st.names && u.delayed == st.delayed && u.dead == st.dead
            && u.work[r] == st.work[r] +
                 if Interested(s, affected) && f.created && f.publish != Refused
                    && MeantFor(st.names, r, f.nid, s, event)
                 then 1 else 0
  {
    InterestedIsChosen(s, affected);
    if Chosen(s, affected) && f.created {
      var m := MessageFor(s, event, f.nid);
      BothRoutesAgree(st.names, m);
      assert MeantFor(st.names, r, f.nid, s, event) <==> r == Routed(QueueOf(st.names, m.channel), m);
    }
  }

  /** The subscribers whose published message this is. */
  ghost function Senders(
    n: Names, subs: seq<Subscriber>, affected: seq<Id>, event: string, fs: seq<FanOut>, r: Routed): set<int>
    requires |fs| == |subs|
  {
    set i | 0 <= i < |subs| && Publishes(subs, affected, fs, i) && MeantFor(n, r, fs[i].nid, subs[i], event)
  }

  /**
   Main result: a dispatch puts exactly one copy for each subscriber that publishes into the queue of the
   subscriber's channel, with the subscriber's channel and address and the event, and no other.
   */
  lemma {:induction false} DispatchDelivers(
    st: State, subs: seq<Subscriber>, affected: seq<Id>, event: string, fs: seq<FanOut>, r: Routed)
    requires |fs| == |subs| && Covers(st.names) && DottedText.DotFree(event)
    ensures var u := Dispatch(st, subs, affected, event, fs);
            && u.names == st.names && u.delayed == st.delayed && u.dead == st.dead
            && u.work[r] == st.work[r] + |Senders(st.names, subs, affected, event, fs, r)|
    decreases |subs|
  {
    if subs == [] {
      assert Senders(st.names, subs, affected, event, fs, r) == {};
    } else {
      var k := |subs| - 1;
      DispatchDelivers(st, subs[..k], affected, event, fs[..k], r);
      DispatchOneAdds(Dispatch(st, subs[..k], affected, event, fs[..k]), subs[k], affected, event, fs[k], r);
      SendersStep(st.names, subs, affected, event, fs, r);
    }
  }

  lemma SendersStep(
    n: Names, subs: seq<Subscriber>, affected: seq<Id>, event: string, fs: seq<FanOut>, r: Routed)
    requires |fs| == |subs| && subs != []
    ensures var k := |subs| - 1;
            var front := Senders(n, subs[..k], affected, event, fs[..k], r);
            k !in front && Senders(n, subs, affected, event, fs, r) ==
              if Publishes(subs, affected, fs, k) && MeantFor(n, r, fs[k].nid, subs[k], event)
              then front + {k} else front
  {
    var k := |subs| - 1;
    var all, front := Senders(n, subs, affected, event, fs, r), Senders(n, subs[..k], affected, event, fs[..k], r);
    forall i | 0 <= i < k ensures i in all <==> i in front {
      assert subs[..k][i] == subs[i] && fs[..k][i] == fs[i];
    }
  }

  // ----- What a message says -----

  /** Channel, event and address; the attempt number alone may differ. */
  predicate SaysTheSame(a: Message, b: Message) {
    a.nid == b.nid && a.channel == b.channel && a.event == b.event && a.address == b.address
  }

  ghost predicate AllSay(st: State, m: Message) {
    && (forall r :: r in st.work && r.message.nid == m.nid ==> SaysTheSame(r.message, m))
    && (forall d :: d in st.delayed && d.message.nid == m.nid ==> SaysTheSame(d.message, m))
    && forall r :: r in st.dead && r.message.nid == m.nid ==> SaysTheSame(r.message, m)
  }

  /** What a broker redelivers is what it was given. */
  ghost predicate Genuine(step: Step, m: Message) {
    step.RedeliverStep? && step.r.message.nid == m.nid ==> SaysTheSame(step.r.message, m)
  }

  lemma ProcessSaysTheSame(st: State, m: Message, env: Env)
    ensures var u := Process(st, m, env).state;
            && u.work == st.work && u.dead == st.dead && u.names == st.names && u.journal == st.journal
            && forall d :: d in u.delayed && d !in st.delayed ==> SaysTheSame(d.message, m)
  {
  }

  lemma CopiesSayTheSame(queues: set<string>, m: Message)
    ensures forall r :: r in Copies(queues, m) ==> r.message == m
  {
  }

  lemma DeliverSaysTheSame(st: State, r: Routed, env: Env, m: Message)
    requires AllSay(st, m) && r in st.work
    ensures AllSay(Deliver(st, r, env), m)
  {
    var taken := st.(work := st.work - multiset{r});
    ProcessSaysTheSame(taken, r.message, env);
    CopiesSayTheSame(DeadRoute(st.names, r.queue), r.message);
    DisposedSaysTheSame(st, r, Process(taken, r.message, env), m);
  }

  lemma DisposedSaysTheSame(st: State, r: Routed, o: Outcome, m: Message)
    requires AllSay(st, m) && r in st.work
    requires o.state.work == st.work - multiset{r} && o.state.dead == st.dead
    requires forall d :: d in o.state.delayed && d !in st.delayed ==> SaysTheSame(d.message, r.message)
    requires forall c :: c in Copies(DeadRoute(st.names, r.queue), r.message) ==> c.message == r.message
    ensures AllSay(Disposed(st.names, r, o), m)
  {
  }

  lemma JournalSaysTheSame(st: State, o: Message, publish: PublishResult, m: Message)
    requires AllSay(st, m) && o.nid != m.nid
    ensures AllSay(Journal(st, o, publish), m) && st.journal <= Journal(st, o, publish).journal
  {
    CopiesSayTheSame(FirstRoute(st.names, o), o);
  }

  lemma ExpireSaysTheSame(st: State, d: Delayed, m: Message)
    requires AllSay(st, m) && d in st.delayed
    ensures AllSay(Expire(st, d), m) && Expire(st, d).journal == st.journal
  {
    CopiesSayTheSame(RetryRoute(st.names, d.message), d.message);
  }

  lemma DeliverKeepsJournal(st: State, r: Routed, env: Env)
    ensures Deliver(st, r, env).journal == st.journal
  {
    ProcessSaysTheSame(st.(work := st.work - multiset{r}), r.message, env);
  }

  lemma StepSaysTheSame(st: State, step: Step, m: Message)
    requires AllSay(st, m) && Enabled(st, step) && Genuine(step, m) && m.nid in st.journal
    ensures AllSay(Next(st, step), m) && m.nid in Next(st, step).journal
  {
    match step
    case JournalStep(o, publish) => JournalSaysTheSame(st, o, publish, m);
    case DeliverStep(r, env) =>
      DeliverSaysTheSame(st, r, env, m);
      DeliverKeepsJournal(st, r, env);
    case ExpireStep(d) => ExpireSaysTheSame(st, d, m);
    case DeleteStep(_) =>
    case RedeliverStep(_) =>
  }

  /**
   Main result: over every run, calls failing anywhere, all copies of a notification, first or retried, queued,
   waiting or dead, say what was published: its channel, event and address.
   */
  lemma {:induction false} CopiesSayWhatWasPublished(st: State, run: seq<Step>, m: Message)
    requires AllSay(st, m) && m.nid in st.journal && EnabledRun(st, run)
    requires forall s :: s in run ==> Genuine(s, m)
    ensures AllSay(Run(st, run), m)
    decreases |run|
  {
    if run != [] {
      assert run[0] in run;
      StepSaysTheSame(st, run[0], m);
      CopiesSayWhatWasPublished(Next(st, run[0]), run[1..], m);
    }
  }
}
