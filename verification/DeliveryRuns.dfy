/** Conservation, retries and idempotence over runs of whole delivery steps. */
module DeliveryRuns {
  import opened Base
  import opened DottedText
  import opened Topology
  import opened Delivery

  // ----- Routing of messages -----

  function QueueOf(n: Names, c: Channel): string {
    if c == Webhook then n.webhookQueue else WorkQueue(ChannelName(c))
  }

  function DeadChannel(n: Names, c: Channel): string {
    if c == Webhook then n.webhookDead else ChannelName(c)
  }

  /** Every deliverable channel has its queue, and no channel queue is the webhook queue. */
  ghost predicate Covers(n: Names) {
    && NamesOk(n)
    && n.webhookChannel == ChannelName(Webhook)
    && (forall c: Channel :: IsPush(c) ==> ChannelName(c) in n.channels)
    && forall name :: name in n.channels ==> WorkQueue(name) != n.webhookQueue
  }

  lemma StandardNamesCover()
    ensures Covers(NAMES)
  {
    StandardNamesOk();
    assert |NAMES.webhookQueue| == 13;
    forall name | name in NAMES.channels ensures |WorkQueue(name)| <= 10 {
    }
  }

  predicate Routable(m: Message) {
    Deliverable(m.channel) && DotFree(m.event)
  }

  lemma CopiesOfOne(queue: string, m: Message)
    ensures Copies({queue}, m) == multiset{Routed(queue, m)}
  {
    assert (set q | q in {queue} :: Routed(q, m)) == {Routed(queue, m)};
  }

  /** First publication and every retry end in the one work queue of the channel. */
  lemma BothRoutesAgree(n: Names, m: Message)
    requires Covers(n) && Routable(m)
    ensures FirstRoute(n, m) == {QueueOf(n, m.channel)} && RetryRoute(n, m) == {QueueOf(n, m.channel)}
    ensures Copies(FirstRoute(n, m), m) == multiset{Routed(QueueOf(n, m.channel), m)}
    ensures Copies(RetryRoute(n, m), m) == multiset{Routed(QueueOf(n, m.channel), m)}
  {
    if m.channel == Webhook {
      WebhookRoutes(n, m.event);
    } else {
      ChannelRoutes(n, ChannelName(m.channel), m.event);
    }
    CopiesOfOne(QueueOf(n, m.channel), m);
  }

  /** The queue of a channel was declared with the dead-letter key of that channel. */
  lemma DeclaredDeadKey(n: Names, c: Channel)
    requires Covers(n) && Deliverable(c)
    ensures DeadKey(n, QueueOf(n, c)) == DlqKey(DeadChannel(n, c))
  {
    var work := DeclaredQueues(n);
    forall i | 0 <= i < |n.channels|
      ensures work[i] == WorkDecl(WorkQueue(n.channels[i]), DlqKey(n.channels[i]))
      ensures work[i].queue[2..] == n.channels[i]
    {
    }
    if c == Webhook {
      var k := |n.channels|;
      forall j | 0 <= j < k ensures work[j].queue != work[k].queue {
        assert n.channels[j] in n.channels;
      }
      DeadKeyIs(work, k);
    } else {
      var k :| 0 <= k < |n.channels| && n.channels[k] == ChannelName(c);
      DeadKeyIs(work, k);
    }
  }

  /** A rejected message ends in the one dead-letter queue of its channel. */
  lemma RejectedGoesToDlq(n: Names, m: Message)
    requires Covers(n) && Deliverable(m.channel)
    ensures Copies(DeadRoute(n, QueueOf(n, m.channel)), m) == multiset{Routed(DlqQueue(DeadChannel(n, m.channel)), m)}
  {
    var c := m.channel;
    DeclaredDeadKey(n, c);
    DeadLetterRoutes(n, DeadChannel(n, c));
    CopiesOfOne(DlqQueue(DeadChannel(n, c)), m);
  }

  // ----- Where the one message of a notification is -----

  ghost predicate NoneIn(ms: multiset<Routed>, nid: Id) {
    forall r :: r in ms ==> r.message.nid != nid
  }

  ghost predicate OneIn(ms: multiset<Routed>, nid: Id, r: Routed) {
    r in ms && ms[r] == 1 && r.message.nid == nid && forall o :: o in ms && o.message.nid == nid ==> o == r
  }

  ghost predicate NoneDelayed(ds: multiset<Delayed>, nid: Id) {
    forall d :: d in ds ==> d.message.nid != nid
  }

  ghost predicate OneDelayed(ds: multiset<Delayed>, nid: Id, d: Delayed) {
    d in ds && ds[d] == 1 && d.message.nid == nid && forall o :: o in ds && o.message.nid == nid ==> o == d
  }

  /** In its channel's work queue, and nowhere else. */
  ghost predicate Queued(st: State, nid: Id) {
    && (exists r :: OneIn(st.work, nid, r) && Routable(r.message) && r.queue == QueueOf(st.names, r.message.channel))
    && NoneDelayed(st.delayed, nid) && NoneIn(st.dead, nid) && nid !in st.consumed
  }

  /** In the delayed exchange, with the delay of its attempt, and nowhere else. */
  ghost predicate Waiting(st: State, nid: Id) {
    && NoneIn(st.work, nid) && NoneIn(st.dead, nid) && nid !in st.consumed
    && exists d ::
         OneDelayed(st.delayed, nid, d) && Routable(d.message) && RetryBackoff(d.message.attempt) == Some(d.delay)
  }

  /** In its channel's dead-letter queue, and nowhere else. */
  ghost predicate DeadLettered(st: State, nid: Id) {
    && NoneIn(st.work, nid) && NoneDelayed(st.delayed, nid) && nid !in st.consumed
    && exists r :: OneIn(st.dead, nid, r) && r.queue == DlqQueue(DeadChannel(st.names, r.message.channel))
  }

  /** Gone: the row is sent or missing, or the receiver refused for good. */
  ghost predicate Settled(st: State, nid: Id) {
    && NoneIn(st.work, nid) && NoneDelayed(st.delayed, nid) && NoneIn(st.dead, nid) && nid in st.consumed
    && (nid !in st.rows || st.rows[nid].status == RowSent || nid in st.dropped)
  }

  /** Exactly one place; the four predicates exclude each other. */
  ghost predicate Conserved(st: State, nid: Id) {
    Queued(st, nid) || Waiting(st, nid) || DeadLettered(st, nid) || Settled(st, nid)
  }

  lemma PlacesExcludeEachOther(st: State, nid: Id)
    ensures !(Queued(st, nid) && (Waiting(st, nid) || DeadLettered(st, nid) || Settled(st, nid)))
    ensures !(Waiting(st, nid) && (DeadLettered(st, nid) || Settled(st, nid)))
    ensures !(DeadLettered(st, nid) && Settled(st, nid))
  {
  }

  ghost predicate Absent(st: State, nid: Id) {
    NoneIn(st.work, nid) && NoneDelayed(st.delayed, nid) && NoneIn(st.dead, nid) && nid !in st.consumed
      && nid !in st.rows
  }

  ghost predicate Inv(st: State) {
    Covers(st.names) && forall nid :: if nid in st.journal then Conserved(st, nid) else Absent(st, nid)
  }

  // ----- Steps with successful store and broker calls -----

  datatype Step =
    | JournalStep(m: Message, publish: PublishResult)
    | DeliverStep(r: Routed, env: Env)
    | ExpireStep(d: Delayed)
    | DeleteStep(nid: Id)
    | RedeliverStep(r: Routed)

  ghost predicate Enabled(st: State, step: Step) {
    match step
    case JournalStep(m, _) => m.nid !in st.journal && Routable(m)
    case DeliverStep(r, _) => r in st.work
    case ExpireStep(d) => d in st.delayed
    case DeleteStep(_) => true
    case RedeliverStep(_) => true
  }

  function Next(st: State, step: Step): State {
    match step
    case JournalStep(m, publish) => Journal(st, m, publish)
    case DeliverStep(r, env) => Deliver(st, r, env)
    case ExpireStep(d) => Expire(st, d)
    case DeleteStep(nid) => DeleteRow(st, nid)
    case RedeliverStep(r) => Redeliver(st, r)
  }

  /** Sending and rendering may fail; store and broker calls succeed and nothing is repeated. */
  predicate Smooth(step: Step) {
    match step
    case JournalStep(_, publish) => publish == Accepted
    case DeliverStep(_, env) => env.load && env.markSent && env.increment && env.markFailed && env.publish == Accepted
    case ExpireStep(_) => true
    case DeleteStep(_) => true
    case RedeliverStep(_) => false
  }

  /** Everything about the other notifications is as before. */
  ghost predicate OnlyTouches(st: State, u: State, nid: Id) {
    && u.names == st.names
    && SameQueues(st.work, u.work, nid) && SameQueues(st.dead, u.dead, nid)
    && (forall d: Delayed :: d.message.nid != nid ==> st.delayed[d] == u.delayed[d])
    && SameBooks(st, u, nid)
  }

  ghost predicate SameQueues(a: multiset<Routed>, b: multiset<Routed>, nid: Id) {
    forall r: Routed :: r.message.nid != nid ==> a[r] == b[r]
  }

  ghost predicate SameBooks(st: State, u: State, nid: Id) {
    forall n :: n != nid ==>
      && (n in st.consumed <==> n in u.consumed) && (n in st.dropped <==> n in u.dropped)
      && (n in st.rows <==> n in u.rows) && (n in st.rows ==> u.rows[n] == st.rows[n])
      && (n in st.journal <==> n in u.journal) && Calls(u, n) == Calls(st, n)
  }

  lemma OthersKeepTheirPlace(st: State, u: State, nid: Id, n: Id)
    requires OnlyTouches(st, u, nid) && n != nid
    ensures Queued(st, n) ==> Queued(u, n)
    ensures Waiting(st, n) ==> Waiting(u, n)
    ensures DeadLettered(st, n) ==> DeadLettered(u, n)
    ensures Settled(st, n) ==> Settled(u, n)
    ensures Absent(st, n) ==> Absent(u, n)
  {
    assert NoneIn(st.work, n) ==> NoneIn(u.work, n);
    assert NoneIn(st.dead, n) ==> NoneIn(u.dead, n);
    assert NoneDelayed(st.delayed, n) ==> NoneDelayed(u.delayed, n);
    forall r | OneIn(st.work, n, r) ensures OneIn(u.work, n, r) {
    }
    forall r | OneIn(st.dead, n, r) ensures OneIn(u.dead, n, r) {
    }
    forall d | OneDelayed(st.delayed, n, d) ensures OneDelayed(u.delayed, n, d) {
    }
  }

  lemma OnePlaceAtATime(st: State, u: State, nid: Id)
    requires Inv(st) && OnlyTouches(st, u, nid)
    requires if nid in u.journal then Conserved(u, nid) else Absent(u, nid)
    ensures Inv(u)
  {
    forall n ensures if n in u.journal then Conserved(u, n) else Absent(u, n) {
      if n != nid {
        assert if n in st.journal then Conserved(st, n) else Absent(st, n);
        OthersKeepTheirPlace(st, u, nid, n);
      }
    }
  }

  /** A message in a work queue is the only trace of its notification. */
  lemma DeliveredIsQueued(st: State, r: Routed)
    requires Inv(st) && r in st.work
    ensures r.message.nid in st.journal && r.message.nid !in st.consumed
    ensures OneIn(st.work, r.message.nid, r) && Routable(r.message) && r.queue == QueueOf(st.names, r.message.channel)
    ensures NoneDelayed(st.delayed, r.message.nid) && NoneIn(st.dead, r.message.nid)
    ensures NoneIn(st.work - multiset{r}, r.message.nid)
  {
    var nid := r.message.nid;
    assert if nid in st.journal then Conserved(st, nid) else Absent(st, nid);
    assert Queued(st, nid);
    var o :| OneIn(st.work, nid, o) && Routable(o.message) && o.queue == QueueOf(st.names, o.message.channel);
    assert o == r;
  }

  /** Process itself only counts, settles or schedules the message it was given. */
  ghost predicate ProcessFrame(st: State, u: State, nid: Id) {
    && u.names == st.names && u.work == st.work && u.dead == st.dead && u.journal == st.journal
    && (u.delayed == st.delayed || exists d: Delayed :: d.message.nid == nid && u.delayed == st.delayed + multiset{d})
    && SameBooks(st, u, nid)
  }

  lemma RetryTouchesOne(st: State, m: Message, env: Env)
    ensures ProcessFrame(st, Retry(st, m, env).state, m.nid)
  {
  }

  lemma FrameTransitive(st: State, mid: State, u: State, nid: Id)
    requires SameBooks(st, mid, nid) && ProcessFrame(mid, u, nid)
    requires mid == st.(calls := mid.calls)
    ensures ProcessFrame(st, u, nid)
  {
  }

  lemma SettlingTouchesOne(st: State, nid: Id, row: Row, env: Env)
    requires nid in st.rows
    ensures ProcessFrame(st, Consume(SetRow(st, nid, row), nid), nid)
    ensures ProcessFrame(st, Consume(st, nid), nid)
    ensures ProcessFrame(st, Consume(st.(dropped := st.dropped + {nid}), nid), nid)
  {
  }

  lemma ProcessTouchesOne(st: State, m: Message, env: Env)
    ensures ProcessFrame(st, Process(st, m, env).state, m.nid)
  {
    var u := Process(st, m, env).state;
    if !env.load {
    } else if m.nid !in st.rows || st.rows[m.nid].status == RowSent {
    } else if ((m.channel == Webhook || m.channel == Slack) && m.address == "") || !env.build {
    } else {
      var called := st.(calls := st.calls[m.nid := Calls(st, m.nid) + 1]);
      assert SameBooks(st, called, m.nid);
      if env.send == Delivered {
        SettlingTouchesOne(called, m.nid, st.rows[m.nid].(status := RowSent), env);
      } else if env.send == PermanentError && m.channel != Email {
        SettlingTouchesOne(called, m.nid, st.rows[m.nid], env);
      } else {
        RetryTouchesOne(called, m, env);
      }
      FrameTransitive(st, called, u, m.nid);
    }
  }

  lemma SmoothProcess(st: State, m: Message, env: Env)
    requires Smooth(DeliverStep(Routed(QueueOf(st.names, m.channel), m), env))
    requires Routable(m) && m.nid !in st.consumed && NoneDelayed(st.delayed, m.nid)
    ensures var o := Process(st, m, env);
            && o.disposition != Requeue
            && (o.disposition == Reject ==> o.state.delayed == st.delayed && o.state.consumed == st.consumed)
            && (o.disposition == Ack && m.nid in o.state.consumed ==>
                  && o.state.delayed == st.delayed
                  && (m.nid !in o.state.rows || o.state.rows[m.nid].status == RowSent || m.nid in o.state.dropped))
            && (o.disposition == Ack && m.nid !in o.state.consumed ==>
                  exists d :: OneDelayed(o.state.delayed, m.nid, d) && Routable(d.message) &&
                              RetryBackoff(d.message.attempt) == Some(d.delay))
  {
    var o := Process(st, m, env);
    if o.disposition == Ack && m.nid !in o.state.consumed {
      var attempt := st.rows[m.nid].attempts + 1;
      var d := Delayed(m.(attempt := attempt), RetryBackoff(attempt).value);
      assert o.state.delayed == st.delayed + multiset{d};
      assert OneDelayed(o.state.delayed, m.nid, d);
    }
  }

  /** A multiset that had no message of the notification gets one. */
  lemma OneAdded(ms: multiset<Routed>, r: Routed)
    requires NoneIn(ms, r.message.nid)
    ensures OneIn(ms + multiset{r}, r.message.nid, r)
    ensures SameQueues(ms, ms + multiset{r}, r.message.nid)
  {
    assert r !in ms;
  }

  lemma FrameTouches(st: State, r: Routed, u: State)
    requires ProcessFrame(st.(work := st.work - multiset{r}), u, r.message.nid)
    ensures OnlyTouches(st, u, r.message.nid)
  {
    if u.delayed != st.delayed {
      var d: Delayed :| d.message.nid == r.message.nid && u.delayed == st.delayed + multiset{d};
    }
  }

  /** The message was rejected: it moves to the dead-letter queue. */
  lemma RejectedKeepsInv(st: State, r: Routed, p: State, u: State)
    requires Inv(st) && r in st.work
    requires ProcessFrame(st.(work := st.work - multiset{r}), p, r.message.nid)
    requires p.delayed == st.delayed && p.consumed == st.consumed
    requires u == p.(dead := p.dead + multiset{Routed(DlqQueue(DeadChannel(st.names, r.message.channel)), r.message)})
    ensures Inv(u)
  {
    DeliveredIsQueued(st, r);
    FrameTouches(st, r, p);
    var dl := Routed(DlqQueue(DeadChannel(st.names, r.message.channel)), r.message);
    OneAdded(p.dead, dl);
    assert DeadLettered(u, r.message.nid);
    OnePlaceAtATime(st, u, r.message.nid);
  }

  /** The message was acknowledged: it is settled or waits in the delayed exchange. */
  lemma AckedKeepsInv(st: State, r: Routed, u: State)
    requires Inv(st) && r in st.work
    requires ProcessFrame(st.(work := st.work - multiset{r}), u, r.message.nid)
    requires var nid := r.message.nid;
             if nid in u.consumed then
               u.delayed == st.delayed && (nid !in u.rows || u.rows[nid].status == RowSent || nid in u.dropped)
             else
               exists d ::
                 && OneDelayed(u.delayed, nid, d) && Routable(d.message)
                 && RetryBackoff(d.message.attempt) == Some(d.delay)
    ensures Inv(u)
  {
    DeliveredIsQueued(st, r);
    FrameTouches(st, r, u);
    assert Settled(u, r.message.nid) || Waiting(u, r.message.nid);
    OnePlaceAtATime(st, u, r.message.nid);
  }

  lemma DeliverKeepsInv(st: State, r: Routed, env: Env)
    requires Inv(st) && r in st.work && Smooth(DeliverStep(r, env))
    ensures Inv(Deliver(st, r, env))
  {
    DeliveredIsQueued(st, r);
    var taken := st.(work := st.work - multiset{r});
    var o := Process(taken, r.message, env);
    SmoothProcess(taken, r.message, env);
    ProcessTouchesOne(taken, r.message, env);
    if o.disposition == Reject {
      RejectedGoesToDlq(st.names, r.message);
      RejectedKeepsInv(st, r, o.state, Deliver(st, r, env));
    } else {
      AckedKeepsInv(st, r, o.state);
    }
  }

  /** The one message of the notification enters its work queue. */
  lemma EnqueuedKeepsInv(st: State, m: Message, u: State)
    requires Inv(st) && OnlyTouches(st, u.(work := st.work), m.nid)
    requires u.work == st.work + multiset{Routed(QueueOf(st.names, m.channel), m)}
    requires Routable(m) && NoneIn(st.work, m.nid) && NoneIn(u.dead, m.nid) && NoneDelayed(u.delayed, m.nid)
    requires m.nid in u.journal && m.nid !in u.consumed
    ensures Inv(u)
  {
    var r := Routed(QueueOf(st.names, m.channel), m);
    OneAdded(st.work, r);
    assert Queued(u, m.nid);
    OnePlaceAtATime(st, u, m.nid);
  }

  lemma ExpireKeepsInv(st: State, d: Delayed)
    requires Inv(st) && d in st.delayed
    ensures Inv(Expire(st, d))
  {
    WaitingIsAlone(st, d);
    BothRoutesAgree(st.names, d.message);
    EnqueuedKeepsInv(st, d.message, Expire(st, d));
  }

  lemma WaitingIsAlone(st: State, d: Delayed)
    requires Inv(st) && d in st.delayed
    ensures Routable(d.message) && d.message.nid in st.journal && d.message.nid !in st.consumed
    ensures NoneIn(st.work, d.message.nid) && NoneIn(st.dead, d.message.nid)
    ensures NoneDelayed(st.delayed - multiset{d}, d.message.nid)
  {
    var nid := d.message.nid;
    assert if nid in st.journal then Conserved(st, nid) else Absent(st, nid);
    assert Waiting(st, nid);
    var o :| OneDelayed(st.delayed, nid, o) && Routable(o.message) && RetryBackoff(o.message.attempt) == Some(o.delay);
    assert o == d;
  }

  lemma JournalKeepsInv(st: State, m: Message)
    requires Inv(st) && m.nid !in st.journal && Routable(m)
    ensures Inv(Journal(st, m, Accepted))
  {
    assert Absent(st, m.nid);
    BothRoutesAgree(st.names, m);
    EnqueuedKeepsInv(st, m, Journal(st, m, Accepted));
  }

  lemma DeleteKeepsInv(st: State, nid: Id)
    requires Inv(st)
    ensures Inv(DeleteRow(st, nid))
  {
    assert if nid in st.journal then Conserved(st, nid) else Absent(st, nid);
    var u := DeleteRow(st, nid);
    assert Queued(st, nid) ==> Queued(u, nid);
    assert Waiting(st, nid) ==> Waiting(u, nid);
    assert DeadLettered(st, nid) ==> DeadLettered(u, nid);
    OnePlaceAtATime(st, u, nid);
  }

  ghost predicate EnabledRun(st: State, run: seq<Step>)
    decreases |run|
  {
    run == [] || (Enabled(st, run[0]) && EnabledRun(Next(st, run[0]), run[1..]))
  }

  function Run(st: State, run: seq<Step>): State
    decreases |run|
  {
    if run == [] then st else Run(Next(st, run[0]), run[1..])
  }

  /** Main result: over every smooth run each journalled message is in exactly one place. */
  lemma {:induction false} RunConserves(st: State, run: seq<Step>)
    requires Inv(st) && EnabledRun(st, run) && forall s :: s in run ==> Smooth(s)
    ensures Inv(Run(st, run))
    decreases |run|
  {
    if run != [] {
      assert run[0] in run;
      match run[0] {
        case JournalStep(m, _) => JournalKeepsInv(st, m);
        case DeliverStep(r, env) => DeliverKeepsInv(st, r, env);
        case ExpireStep(d) => ExpireKeepsInv(st, d);
        case DeleteStep(nid) => DeleteKeepsInv(st, nid);
      }
      RunConserves(Next(st, run[0]), run[1..]);
    }
  }

  /** From the start: journalled messages are conserved. */
  lemma EveryMessageIsSomewhere(run: seq<Step>, nid: Id)
    requires EnabledRun(Initial(NAMES), run) && forall s :: s in run ==> Smooth(s)
    requires nid in Run(Initial(NAMES), run).journal
    ensures Conserved(Run(Initial(NAMES), run), nid)
  {
    StandardNamesCover();
    assert Inv(Initial(NAMES));
    RunConserves(Initial(NAMES), run);
  }

  // ----- A sent notification is never sent again -----

  ghost predicate SentOrGone(st: State, nid: Id) {
    nid !in st.rows || st.rows[nid].status == RowSent
  }

  lemma ProcessSkipsSent(st: State, m: Message, env: Env)
    requires SentOrGone(st, m.nid)
    ensures Process(st, m, env).state.rows == st.rows && Process(st, m, env).state.journal == st.journal
    ensures Process(st, m, env).state.calls == st.calls
  {
  }

  lemma DeliverSkipsSent(st: State, r: Routed, env: Env, nid: Id)
    requires SentOrGone(st, nid) && nid in st.journal
    ensures SentOrGone(Deliver(st, r, env), nid) && nid in Deliver(st, r, env).journal
    ensures Calls(Deliver(st, r, env), nid) == Calls(st, nid)
  {
    var taken := st.(work := st.work - multiset{r});
    ProcessCallsNothing(taken, r.message, env, nid);
    VerdictKeepsBooks(st.names, r, Process(taken, r.message, env));
  }

  lemma VerdictKeepsBooks(names: Names, r: Routed, o: Outcome)
    ensures var u := Disposed(names, r, o);
            u.rows == o.state.rows && u.journal == o.state.journal && u.calls == o.state.calls
  {
  }

  lemma ProcessCallsNothing(st: State, m: Message, env: Env, nid: Id)
    requires SentOrGone(st, nid) && nid in st.journal
    ensures var u := Process(st, m, env).state;
            SentOrGone(u, nid) && nid in u.journal && Calls(u, nid) == Calls(st, nid)
  {
    if m.nid == nid {
      ProcessSkipsSent(st, m, env);
    } else {
      ProcessTouchesOne(st, m, env);
    }
  }

  /** No step calls the sender for a notification whose row is sent, whatever is redelivered. */
  lemma StepSkipsSent(st: State, step: Step, nid: Id)
    requires SentOrGone(st, nid) && nid in st.journal && Enabled(st, step)
    ensures SentOrGone(Next(st, step), nid) && nid in Next(st, step).journal
    ensures Calls(Next(st, step), nid) == Calls(st, nid)
  {
    if step.DeliverStep? {
      DeliverSkipsSent(st, step.r, step.env, nid);
    }
  }

  /** Main result: with Process as one step, failures and repeated deliveries included. */
  lemma {:induction false} SentIsNeverSentAgain(st: State, run: seq<Step>, nid: Id)
    requires SentOrGone(st, nid) && nid in st.journal && EnabledRun(st, run)
    ensures Calls(Run(st, run), nid) == Calls(st, nid)
    ensures SentOrGone(Run(st, run), nid)
    decreases |run|
  {
    if run != [] {
      StepSkipsSent(st, run[0], nid);
      SentIsNeverSentAgain(Next(st, run[0]), run[1..], nid);
    }
  }
}
