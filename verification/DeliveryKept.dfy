/** At least once: a published notification is never lost, whatever fails or is redelivered. */
module DeliveryKept {
  import opened Base
  import opened DottedText
  import opened Topology
  import opened Delivery
  import opened DeliveryRuns

  /** A copy of the message in the work queue of its channel. */
  ghost predicate Holds(n: Names, r: Routed, nid: Id) {
    r.message.nid == nid && Routable(r.message) && r.queue == QueueOf(n, r.message.channel)
  }

  ghost predicate InQueue(st: State, nid: Id) {
    exists r :: r in st.work && Holds(st.names, r, nid)
  }

  ghost predicate InDelay(st: State, nid: Id) {
    exists d :: d in st.delayed && d.message.nid == nid && Routable(d.message)
  }

  ghost predicate InDead(st: State, nid: Id) {
    exists r :: r in st.dead && r.message.nid == nid
  }

  /** Acknowledged for good: the row is sent or missing, or the receiver refused. */
  ghost predicate Done(st: State, nid: Id) {
    nid in st.consumed && (SentOrGone(st, nid) || nid in st.dropped)
  }

  /** A copy of the message is somewhere, or none is needed any more. */
  ghost predicate Kept(st: State, nid: Id) {
    Covers(st.names) && nid in st.journal && (InQueue(st, nid) || InDelay(st, nid) || InDead(st, nid) || Done(st, nid))
  }

  // ----- One step, with any calls failing -----

  /** Nothing is taken away but the given message, and nothing is taken back. */
  ghost predicate OnlyTakes(st: State, u: State, r: Routed) {
    && u.names == st.names && st.journal <= u.journal && st.consumed <= u.consumed && st.dropped <= u.dropped
    && (forall o :: o in st.work && o != r ==> o in u.work)
    && st.delayed <= u.delayed && st.dead <= u.dead
  }

  /** The verdict on one message leaves a copy of it, or settles it. */
  lemma ProcessKeeps(st: State, m: Message, env: Env)
    requires Routable(m)
    ensures var o := Process(st, m, env);
            o.disposition == Ack ==>
              || Done(o.state, m.nid)
              || exists d :: d in o.state.delayed && d.message.nid == m.nid && Routable(d.message)
  {
    var o := Process(st, m, env);
    if o.disposition == Ack && m.nid !in o.state.consumed {
      var attempt := st.rows[m.nid].attempts + 1;
      assert Delayed(m.(attempt := attempt), RetryBackoff(attempt).value) in o.state.delayed;
    } else if o.disposition == Ack && !Done(o.state, m.nid) {
      AckedUnsettled(st, m, env);
    }
  }

  /** An acknowledgement that settles nothing has scheduled a delayed copy. */
  lemma AckedUnsettled(st: State, m: Message, env: Env)
    requires Process(st, m, env).disposition == Ack && !Done(Process(st, m, env).state, m.nid)
    ensures m.nid in st.rows
    ensures var attempt := st.rows[m.nid].attempts + 1;
            && RetryBackoff(attempt).Some?
            && Delayed(m.(attempt := attempt), RetryBackoff(attempt).value) in Process(st, m, env).state.delayed
  {
  }

  /** Processing leaves the queues alone, and takes nothing back. */
  ghost predicate OnlyAdds(st: State, u: State) {
    && u.names == st.names && u.journal == st.journal && u.work == st.work && u.dead == st.dead
    && st.consumed <= u.consumed && st.dropped <= u.dropped && st.delayed <= u.delayed
  }

  lemma ProcessOnlyAdds(st: State, m: Message, env: Env)
    ensures OnlyAdds(st, Process(st, m, env).state)
  {
  }

  lemma DisposedOnlyTakes(st: State, r: Routed, o: Outcome)
    requires OnlyAdds(st.(work := st.work - multiset{r}), o.state)
    ensures OnlyTakes(st, Disposed(st.names, r, o), r)
  {
  }

  lemma DeliverOnlyTakes(st: State, r: Routed, env: Env)
    ensures OnlyTakes(st, Deliver(st, r, env), r)
  {
    var taken := st.(work := st.work - multiset{r});
    ProcessOnlyAdds(taken, r.message, env);
    DisposedOnlyTakes(st, r, Process(taken, r.message, env));
  }

  lemma TakenIsKept(st: State, r: Routed, env: Env)
    requires Covers(st.names) && r in st.work && Routable(r.message) && r.queue == QueueOf(st.names, r.message.channel)
    requires r.message.nid in st.journal
    ensures Kept(Deliver(st, r, env), r.message.nid)
  {
    var taken := st.(work := st.work - multiset{r});
    var o, u := Process(taken, r.message, env), Deliver(st, r, env);
    ProcessOnlyAdds(taken, r.message, env);
    ProcessKeeps(taken, r.message, env);
    match o.disposition
    case Ack =>
      assert u == o.state;
    case Requeue =>
      assert r in u.work;
    case Reject =>
      RejectedGoesToDlq(st.names, r.message);
      assert Routed(DlqQueue(DeadChannel(st.names, r.message.channel)), r.message) in u.dead;
  }

  /** Done is for good. */
  lemma DoneStays(st: State, step: Step, nid: Id)
    requires nid in st.journal && Done(st, nid) && Enabled(st, step)
    ensures Done(Next(st, step), nid)
  {
    if step.DeliverStep? {
      DeliverOnlyTakes(st, step.r, step.env);
    }
    if SentOrGone(st, nid) {
      StepSkipsSent(st, step, nid);
    }
  }

  lemma DeliverKeeps(st: State, r: Routed, env: Env, nid: Id)
    requires Kept(st, nid) && r in st.work && !Done(st, nid)
    ensures Kept(Deliver(st, r, env), nid)
  {
    var u := Deliver(st, r, env);
    DeliverOnlyTakes(st, r, env);
    if o :| o in st.work && Holds(st.names, o, nid) {
      if o == r {
        TakenIsKept(st, r, env);
      } else {
        assert o in u.work;
      }
    }
  }

  lemma ExpireKeeps(st: State, d: Delayed, nid: Id)
    requires Kept(st, nid) && d in st.delayed && !Done(st, nid)
    ensures Kept(Expire(st, d), nid)
  {
    var u := Expire(st, d);
    if o :| o in st.delayed && o.message.nid == nid && Routable(o.message) {
      if o == d {
        BothRoutesAgree(st.names, d.message);
        assert Routed(QueueOf(st.names, d.message.channel), d.message) in u.work;
      } else {
        assert o in u.delayed;
      }
    }
    if InQueue(st, nid) {
      var r :| r in st.work && Holds(st.names, r, nid);
      assert r in u.work;
    }
  }

  lemma StepKeeps(st: State, step: Step, nid: Id)
    requires Kept(st, nid) && Enabled(st, step)
    ensures Kept(Next(st, step), nid)
  {
    if Done(st, nid) {
      DoneStays(st, step, nid);
      if step.DeliverStep? {
        DeliverOnlyTakes(st, step.r, step.env);
      }
    } else {
      match step
      case JournalStep(m, publish) => JournalKeepsOthers(st, m, publish, nid);
      case DeliverStep(r, env) => DeliverKeeps(st, r, env, nid);
      case ExpireStep(d) => ExpireKeeps(st, d, nid);
      case DeleteStep(_) =>
      case RedeliverStep(r) => RedeliverKeeps(st, r, nid);
    }
  }

  lemma JournalKeepsOthers(st: State, m: Message, publish: PublishResult, nid: Id)
    requires Kept(st, nid) && !Done(st, nid)
    ensures Kept(Journal(st, m, publish), nid)
  {
    var u := Journal(st, m, publish);
    if r :| r in st.work && Holds(st.names, r, nid) {
      assert r in u.work;
    }
  }

  lemma RedeliverKeeps(st: State, r: Routed, nid: Id)
    requires Kept(st, nid) && !Done(st, nid)
    ensures Kept(Redeliver(st, r), nid)
  {
    var u := Redeliver(st, r);
    if o :| o in st.work && Holds(st.names, o, nid) {
      assert o in u.work;
    }
  }

  // ----- Runs -----

  lemma {:induction false} NeverLost(st: State, run: seq<Step>, nid: Id)
    requires Kept(st, nid) && EnabledRun(st, run)
    ensures Kept(Run(st, run), nid)
    decreases |run|
  {
    if run != [] {
      StepKeeps(st, run[0], nid);
      NeverLost(Next(st, run[0]), run[1..], nid);
    }
  }

  lemma PublishedIsKept(st: State, m: Message, publish: PublishResult)
    requires Covers(st.names) && Routable(m) && publish != Refused
    ensures Kept(Journal(st, m, publish), m.nid)
  {
    BothRoutesAgree(st.names, m);
    assert Routed(QueueOf(st.names, m.channel), m) in Journal(st, m, publish).work;
  }

  lemma {:induction false} NamesStay(st: State, run: seq<Step>)
    requires EnabledRun(st, run)
    ensures Run(st, run).names == st.names
    decreases |run|
  {
    if run != [] {
      if run[0].DeliverStep? {
        DeliverOnlyTakes(st, run[0].r, run[0].env);
      }
      NamesStay(Next(st, run[0]), run[1..]);
    }
  }

  lemma {:induction false} RunSplits(st: State, before: seq<Step>, after: seq<Step>)
    requires EnabledRun(st, before + after)
    ensures EnabledRun(st, before) && EnabledRun(Run(st, before), after)
    ensures Run(st, before + after) == Run(Run(st, before), after)
    decreases |before|
  {
    if before == [] {
      assert before + after == after;
    } else {
      assert (before + after)[0] == before[0] && (before + after)[1..] == before[1..] + after;
      RunSplits(Next(st, before[0]), before[1..], after);
    }
  }

  /**
   Main result: in every run, with store and broker calls failing, publications unconfirmed and messages
   redelivered, a notification whose first publication the broker took is always in its work queue, in
   the delayed exchange, dead-lettered, or consumed with its row sent or gone or after a permanent error.
   */
  lemma PublishedIsNeverLost(before: seq<Step>, m: Message, publish: PublishResult, after: seq<Step>)
    requires EnabledRun(Initial(NAMES), before + ([JournalStep(m, publish)] + after)) && publish != Refused
    ensures Kept(Run(Initial(NAMES), before + ([JournalStep(m, publish)] + after)), m.nid)
  {
    var rest := [JournalStep(m, publish)] + after;
    RunSplits(Initial(NAMES), before, rest);
    var st := Run(Initial(NAMES), before);
    NamesStay(Initial(NAMES), before);
    StandardNamesCover();
    assert rest[0] == JournalStep(m, publish) && rest[1..] == after;
    PublishedIsKept(st, m, publish);
    NeverLost(Journal(st, m, publish), after, m.nid);
  }
}
