/** A sender that always fails: how often it is called, in runs where anything else may happen too. */
module DeliveryRetries {
  import opened Base
  import opened Topology
  import opened Delivery
  import opened DeliveryRuns

  /** The worker does not refuse the message before sending. */
  predicate Addressed(m: Message) {
    m.channel == Webhook || m.channel == Slack ==> m.address != ""
  }

  /** A failing send that the worker takes to be worth a retry. */
  predicate FailsForNow(m: Message, env: Env) {
    env.build && (env.send == TransientError || (env.send == PermanentError && m.channel == Email))
  }

  /** Every delivery of the notification fails, and its row is not deleted; the rest of the step is free. */
  predicate Failing(step: Step, nid: Id) {
    match step
    case JournalStep(m, _) => m.nid == nid ==> Addressed(m)
    case DeliverStep(r, env) => r.message.nid == nid ==> FailsForNow(r.message, env)
    case ExpireStep(_) => true
    case DeleteStep(n) => n != nid
    case RedeliverStep(_) => true
  }

  ghost predicate AllAddressed(st: State, nid: Id) {
    && (forall r :: r in st.work && r.message.nid == nid ==> Addressed(r.message))
    && forall d :: d in st.delayed && d.message.nid == nid ==> Addressed(d.message)
  }

  /** As many attempts as calls; pending and on its way up to the limit, failed and dead-lettered beyond. */
  ghost predicate Tried(st: State, nid: Id) {
    && nid in st.rows && st.rows[nid].attempts == Calls(st, nid) <= MAX_ATTEMPTS + 1
    && (Calls(st, nid) <= MAX_ATTEMPTS ==> st.rows[nid].status == RowPending && (Queued(st, nid) || Waiting(st, nid)))
    && (Calls(st, nid) == MAX_ATTEMPTS + 1 ==> st.rows[nid].status == RowFailed && DeadLettered(st, nid))
  }

  ghost predicate Trying(st: State, nid: Id) {
    if nid in st.journal then Tried(st, nid) && AllAddressed(st, nid) else Calls(st, nid) == 0
  }

  // ----- One step -----

  function Touched(step: Step): Id {
    match step
    case JournalStep(m, _) => m.nid
    case DeliverStep(r, _) => r.message.nid
    case ExpireStep(d) => d.message.nid
    case DeleteStep(nid) => nid
    case RedeliverStep(r) => r.message.nid
  }

  lemma DeliverTouches(st: State, r: Routed, env: Env)
    requires Inv(st) && r in st.work && Smooth(DeliverStep(r, env))
    ensures OnlyTouches(st, Deliver(st, r, env), r.message.nid)
  {
    DeliveredIsQueued(st, r);
    var taken := st.(work := st.work - multiset{r});
    var o := Process(taken, r.message, env);
    SmoothProcess(taken, r.message, env);
    ProcessTouchesOne(taken, r.message, env);
    FrameTouches(st, r, o.state);
    RejectedGoesToDlq(st.names, r.message);
  }

  lemma StepTouches(st: State, step: Step)
    requires Inv(st) && Enabled(st, step) && Smooth(step)
    ensures OnlyTouches(st, Next(st, step), Touched(step)) && Inv(Next(st, step))
  {
    match step
    case JournalStep(m, _) =>
      JournalTouches(st, m);
      JournalKeepsInv(st, m);
    case DeliverStep(r, env) =>
      DeliverTouches(st, r, env);
      DeliverKeepsInv(st, r, env);
    case ExpireStep(d) =>
      ExpireTouches(st, d);
      ExpireKeepsInv(st, d);
    case DeleteStep(nid) =>
      DeleteKeepsInv(st, nid);
  }

  lemma JournalTouches(st: State, m: Message)
    requires Covers(st.names) && Routable(m)
    ensures OnlyTouches(st, Journal(st, m, Accepted), m.nid)
  {
    BothRoutesAgree(st.names, m);
  }

  lemma ExpireTouches(st: State, d: Delayed)
    requires Inv(st) && d in st.delayed
    ensures OnlyTouches(st, Expire(st, d), d.message.nid)
  {
    WaitingIsAlone(st, d);
    BothRoutesAgree(st.names, d.message);
  }

  lemma OthersKeepTrying(st: State, u: State, touched: Id, nid: Id)
    requires OnlyTouches(st, u, touched) && touched != nid && Trying(st, nid)
    ensures Trying(u, nid)
  {
    OthersKeepTheirPlace(st, u, touched, nid);
    if nid in st.journal {
      forall r | r in u.work && r.message.nid == nid ensures Addressed(r.message) {
        assert r in st.work;
      }
      forall d | d in u.delayed && d.message.nid == nid ensures Addressed(d.message) {
        assert d in st.delayed;
      }
    }
  }

  /** The failing send itself: one more call and one more attempt, then the next copy or the end. */
  lemma FailingProcess(st: State, m: Message, env: Env)
    requires Smooth(DeliverStep(Routed(QueueOf(st.names, m.channel), m), env)) && FailsForNow(m, env) && Addressed(m)
    requires m.nid in st.rows && st.rows[m.nid] == Row(RowPending, Calls(st, m.nid)) && Calls(st, m.nid) <= MAX_ATTEMPTS
    ensures var o := Process(st, m, env);
            var a := Calls(st, m.nid) + 1;
            && Calls(o.state, m.nid) == a && m.nid in o.state.rows
            && o.state.work == st.work && o.state.dead == st.dead
            && o.state.journal == st.journal && o.state.names == st.names
            && (a <= MAX_ATTEMPTS ==>
                  && o.disposition == Ack && o.state.rows[m.nid] == Row(RowPending, a)
                  && o.state.delayed == st.delayed + multiset{Delayed(m.(attempt := a), RETRY_SCHEDULE[a - 1])})
            && (a == MAX_ATTEMPTS + 1 ==>
                  && o.disposition == Reject && o.state.rows[m.nid] == Row(RowFailed, a)
                  && o.state.delayed == st.delayed)
  {
  }

  /** What a failing delivery of r, the a-th call, leaves of the notification. */
  ghost predicate FailedOnce(st: State, r: Routed, u: State, a: nat)
    requires 1 <= a
  {
    var nid := r.message.nid;
    && nid in u.journal && nid in u.rows && Calls(u, nid) == a
    && NoneIn(u.work, nid) && NoneDelayed(st.delayed, nid)
    && (a <= MAX_ATTEMPTS ==>
          && u.rows[nid] == Row(RowPending, a)
          && u.delayed == st.delayed + multiset{Delayed(r.message.(attempt := a), RETRY_SCHEDULE[a - 1])})
    && (a == MAX_ATTEMPTS + 1 ==>
          && u.rows[nid] == Row(RowFailed, a)
          && Routed(DlqQueue(DeadChannel(u.names, r.message.channel)), r.message) in u.dead)
  }

  lemma FailingDelivery(st: State, r: Routed, env: Env)
    requires Inv(st) && r in st.work && Smooth(DeliverStep(r, env)) && FailsForNow(r.message, env)
    requires Trying(st, r.message.nid)
    ensures Calls(st, r.message.nid) <= MAX_ATTEMPTS && Addressed(r.message)
    ensures FailedOnce(st, r, Deliver(st, r, env), Calls(st, r.message.nid) + 1)
  {
    DeliveredIsQueued(st, r);
    var taken := st.(work := st.work - multiset{r});
    FailingProcess(taken, r.message, env);
    VerdictApplies(st, r, env);
  }

  /** What the broker makes of the verdict. */
  lemma VerdictApplies(st: State, r: Routed, env: Env)
    requires Covers(st.names) && Deliverable(r.message.channel) && r.queue == QueueOf(st.names, r.message.channel)
    ensures var o := Process(st.(work := st.work - multiset{r}), r.message, env);
            var dead := Routed(DlqQueue(DeadChannel(st.names, r.message.channel)), r.message);
            && (o.disposition == Ack ==> Deliver(st, r, env) == o.state)
            && (o.disposition == Reject ==> Deliver(st, r, env) == o.state.(dead := o.state.dead + multiset{dead}))
  {
    RejectedGoesToDlq(st.names, r.message);
  }

  lemma DeliverKeepsTrying(st: State, r: Routed, env: Env)
    requires Inv(st) && r in st.work && Smooth(DeliverStep(r, env)) && FailsForNow(r.message, env)
    requires Trying(st, r.message.nid)
    ensures Trying(Deliver(st, r, env), r.message.nid)
    ensures Calls(Deliver(st, r, env), r.message.nid) == Calls(st, r.message.nid) + 1
  {
    FailingDelivery(st, r, env);
    DeliverKeepsInv(st, r, env);
    FailedIsTried(st, r, Deliver(st, r, env), Calls(st, r.message.nid) + 1);
  }

  /** The counter tells the two states apart. */
  lemma FailedIsTried(st: State, r: Routed, u: State, a: nat)
    requires Inv(u) && Addressed(r.message) && 1 <= a <= MAX_ATTEMPTS + 1 && FailedOnce(st, r, u, a)
    ensures Trying(u, r.message.nid)
  {
    var nid := r.message.nid;
    assert Conserved(u, nid);
    if a <= MAX_ATTEMPTS {
      assert Delayed(r.message.(attempt := a), RETRY_SCHEDULE[a - 1]) in u.delayed;
      assert Waiting(u, nid);
    } else {
      assert DeadLettered(u, nid);
    }
  }

  lemma ExpireKeepsTrying(st: State, d: Delayed)
    requires Inv(st) && d in st.delayed && Trying(st, d.message.nid)
    ensures Trying(Expire(st, d), d.message.nid)
  {
    WaitingIsAlone(st, d);
    BothRoutesAgree(st.names, d.message);
    ExpiryQueues(st, d);
  }

  lemma JournalStartsTrying(st: State, m: Message)
    requires Inv(st) && m.nid !in st.journal && Routable(m) && Addressed(m) && Trying(st, m.nid)
    ensures Trying(Journal(st, m, Accepted), m.nid)
  {
    var u := Journal(st, m, Accepted);
    assert Absent(st, m.nid);
    BothRoutesAgree(st.names, m);
    JournalKeepsInv(st, m);
    assert Conserved(u, m.nid);
    assert Routed(QueueOf(st.names, m.channel), m) in u.work;
    assert Queued(u, m.nid);
  }

  lemma StepKeepsTrying(st: State, step: Step, nid: Id)
    requires Inv(st) && Trying(st, nid) && Enabled(st, step) && Smooth(step) && Failing(step, nid)
    ensures Trying(Next(st, step), nid) && Inv(Next(st, step))
    ensures Calls(Next(st, step), nid) ==
            Calls(st, nid) + if step.DeliverStep? && step.r.message.nid == nid then 1 else 0
  {
    StepTouches(st, step);
    if Touched(step) != nid {
      OthersKeepTrying(st, Next(st, step), Touched(step), nid);
    } else {
      match step
      case JournalStep(m, _) => JournalStartsTrying(st, m);
      case DeliverStep(r, env) => DeliverKeepsTrying(st, r, env);
      case ExpireStep(d) => ExpireKeepsTrying(st, d);
    }
  }

  lemma {:induction false} RunKeepsTrying(st: State, run: seq<Step>, nid: Id)
    requires Inv(st) && Trying(st, nid) && EnabledRun(st, run)
    requires forall s :: s in run ==> Smooth(s) && Failing(s, nid)
    ensures Inv(Run(st, run)) && Trying(Run(st, run), nid)
    decreases |run|
  {
    if run != [] {
      assert run[0] in run;
      StepKeepsTrying(st, run[0], nid);
      RunKeepsTrying(Next(st, run[0]), run[1..], nid);
    }
  }

  /**
   Main result: in every run in which store and broker calls succeed and every delivery of the
   notification fails, whatever happens to others in between, the sender has been called as often as
   attempts are counted, at most four times; before the fourth the row is pending and the message
   queued or waiting, after it the row is failed and the message dead-lettered.
   */
  lemma AlwaysFailingSender(run: seq<Step>, nid: Id)
    requires EnabledRun(Initial(NAMES), run)
    requires forall s :: s in run ==> Smooth(s) && Failing(s, nid)
    requires nid in Run(Initial(NAMES), run).journal
    ensures Tried(Run(Initial(NAMES), run), nid)
  {
    StandardNamesCover();
    assert Inv(Initial(NAMES));
    RunKeepsTrying(Initial(NAMES), run, nid);
  }

  const FAILING := Env(true, true, TransientError, true, true, true, Accepted)

  /** Before the fourth call the next failing delivery is at most one expiry away, so the end is reached. */
  lemma NextFailureComes(st: State, nid: Id) returns (run: seq<Step>)
    requires Inv(st) && Trying(st, nid) && nid in st.journal && Calls(st, nid) <= MAX_ATTEMPTS
    ensures EnabledRun(st, run) && forall s :: s in run ==> Smooth(s) && Failing(s, nid)
    ensures Calls(Run(st, run), nid) == Calls(st, nid) + 1
  {
    if Queued(st, nid) {
      run := DeliveryComes(st, nid);
    } else {
      var d :| OneDelayed(st.delayed, nid, d) && Routable(d.message)
        && RetryBackoff(d.message.attempt) == Some(d.delay);
      StepKeepsTrying(st, ExpireStep(d), nid);
      ExpiryQueues(st, d);
      var rest := DeliveryComes(Expire(st, d), nid);
      run := [ExpireStep(d)] + rest;
      assert run[0] == ExpireStep(d) && run[1..] == rest;
    }
  }

  lemma ExpiryQueues(st: State, d: Delayed)
    requires Inv(st) && d in st.delayed
    ensures Queued(Expire(st, d), d.message.nid)
  {
    var u := Expire(st, d);
    WaitingIsAlone(st, d);
    BothRoutesAgree(st.names, d.message);
    ExpireKeepsInv(st, d);
    assert Conserved(u, d.message.nid);
    assert Routed(QueueOf(st.names, d.message.channel), d.message) in u.work;
  }

  lemma DeliveryComes(st: State, nid: Id) returns (run: seq<Step>)
    requires Inv(st) && Trying(st, nid) && nid in st.journal && Queued(st, nid)
    ensures EnabledRun(st, run) && forall s :: s in run ==> Smooth(s) && Failing(s, nid)
    ensures Calls(Run(st, run), nid) == Calls(st, nid) + 1
  {
    var r :| OneIn(st.work, nid, r) && Routable(r.message) && r.queue == QueueOf(st.names, r.message.channel);
    run := [DeliverStep(r, FAILING)];
    StepKeepsTrying(st, run[0], nid);
    assert run[1..] == [] && EnabledRun(Next(st, run[0]), []);
  }
}
