/**
 Notification delivery: journal rows, work queues, the delayed exchange, dead letters and the
 channel workers (backend/internal/notify/engine.go, backend/internal/email/worker.go,
 backend/internal/webhookout/worker.go).

 Every store or broker call may fail; `Env` says how each call of one Process run ends.
 */
module Delivery {
  import opened Base
  import opened Topology

  // ----- Subscribers -----

  datatype Channel = Email | Telegram | Rss | ICal | Webhook | Max | Slack

  function ChannelName(c: Channel): string {
    match c
    case Email => "email"
    case Telegram => "telegram"
    case Rss => "rss"
    case ICal => "ical"
    case Webhook => "webhook"
    case Max => "max"
    case Slack => "slack"
  }

  predicate IsPush(c: Channel) {
    c == Email || c == Telegram || c == Max || c == Slack
  }

  predicate Deliverable(c: Channel) {
    IsPush(c) || c == Webhook
  }

  datatype Scope = PageScope | ComponentScope

  datatype Subscriber = Subscriber(channel: Channel, address: string, scope: Scope, componentIds: seq<Id>)

  /** A page subscriber wants everything, a component subscriber what touches its components. */
  ghost predicate Wants(s: Subscriber, affected: seq<Id>) {
    s.scope == PageScope || exists c :: c in affected && c in s.componentIds
  }

  method WantsEvent(s: Subscriber, affected: seq<Id>) returns (b: bool)
    ensures b <==> Wants(s, affected)
  {
    if s.scope == PageScope {
      return true;
    }
    if |affected| == 0 {
      return false;
    }
    var want: set<Id> := {};
    for k := 0 to |s.componentIds|
      invariant forall c :: c in want <==> c in s.componentIds[..k]
    {
      want := want + {s.componentIds[k]};
    }
    assert s.componentIds[..|s.componentIds|] == s.componentIds;
    for k := 0 to |affected|
      invariant forall c :: c in affected[..k] ==> c !in s.componentIds
    {
      var c := affected[k];
      if c in want {
        assert c in s.componentIds;
        assert c in affected;
        return true;
      }
    }
    return false;
  }

  // ----- Backoff -----

  const MINUTE: int := 60

  const RETRY_SCHEDULE: seq<int> := [1 * MINUTE, 5 * MINUTE, 30 * MINUTE]

  const MAX_ATTEMPTS: nat := 3

  function RetryBackoff(attempt: int): Option<int> {
    if attempt < 1 || attempt > |RETRY_SCHEDULE| then None else Some(RETRY_SCHEDULE[attempt - 1])
  }

  // ----- State -----

  datatype RowStatus = RowPending | RowSent | RowFailed

  datatype Row = Row(status: RowStatus, attempts: nat)

  datatype Message = Message(nid: Id, channel: Channel, event: string, address: string, attempt: nat)

  /** A message in a queue. */
  datatype Routed = Routed(queue: string, message: Message)

  /** A message waiting in the delayed exchange. */
  datatype Delayed = Delayed(message: Message, delay: int)

  /**
   `names` is the declared topology. The last four fields are proof bookkeeping: all ids ever journalled,
   how often the sender was called per id, the ids settled by an Ack, and those dropped after a
   permanent error.
   */
  datatype State = State(
    names: Names,
    rows: map<Id, Row>,
    work: multiset<Routed>,
    delayed: multiset<Delayed>,
    dead: multiset<Routed>,
    journal: set<Id>,
    calls: map<Id, nat>,
    consumed: set<Id>,
    dropped: set<Id>)

  function Initial(names: Names): State {
    State(names, map[], multiset{}, multiset{}, multiset{}, {}, map[], {}, {})
  }

  function Calls(st: State, nid: Id): nat {
    if nid in st.calls then st.calls[nid] else 0
  }

  // ----- Broker -----

  /** One copy per queue the message is routed to. */
  function Copies(queues: set<string>, m: Message): multiset<Routed> {
    multiset(set q | q in queues :: Routed(q, m))
  }

  /** Where a first publication goes: webhooks.out for webhooks, notifications for the rest. */
  function FirstRoute(n: Names, m: Message): set<string> {
    if m.channel == Webhook then Route(Declared(n), WebhooksOut, n.webhookKey)
    else Route(Declared(n), Notifications, NotifyKey(ChannelName(m.channel), m.event))
  }

  /** Where a delayed message goes once its delay is over. */
  function RetryRoute(n: Names, m: Message): set<string> {
    Route(Declared(n), DelayedEvents, NotifyKey(ChannelName(m.channel), m.event))
  }

  /** x-dead-letter-routing-key of a work queue. */
  function DeadKey(n: Names, queue: string): string {
    DeadKeyOf(DeclaredQueues(n), queue)
  }

  function DeadRoute(n: Names, queue: string): set<string> {
    Route(Declared(n), Dlx, DeadKey(n, queue))
  }

  // ----- One Process run -----

  datatype SendResult = Delivered | TransientError | PermanentError

  /** Unconfirmed: the broker took the message but the publisher saw an error. */
  datatype PublishResult = Accepted | Refused | Unconfirmed

  datatype Env = Env(
    load: bool, build: bool, send: SendResult, markSent: bool, increment: bool, markFailed: bool,
    publish: PublishResult)

  datatype Disposition = Ack | Reject | Requeue

  datatype Outcome = Outcome(state: State, disposition: Disposition)

  function Consume(st: State, nid: Id): State {
    st.(consumed := st.consumed + {nid})
  }

  function SetRow(st: State, nid: Id, row: Row): State {
    st.(rows := st.rows[nid := row])
  }

  /** Engine.Retry and handleSendFailure: count, then schedule a delayed copy or give up. */
  function Retry(st: State, m: Message, env: Env): Outcome {
    if !env.increment || m.nid !in st.rows then Outcome(st, Requeue)
    else
      var attempt := st.rows[m.nid].attempts + 1;
      var counted := SetRow(st, m.nid, st.rows[m.nid].(attempts := attempt));
      match RetryBackoff(attempt)
      case None =>
        if env.markFailed then Outcome(SetRow(counted, m.nid, Row(RowFailed, attempt)), Reject)
        else Outcome(counted, Requeue)
      case Some(delay) =>
        var scheduled := counted.(delayed := counted.delayed + multiset{Delayed(m.(attempt := attempt), delay)});
        match env.publish
        case Accepted => Outcome(scheduled, Ack)
        case Refused => Outcome(counted, Requeue)
        case Unconfirmed => Outcome(scheduled, Requeue)
  }

  /** Process of a channel worker; only email has no permanent errors. */
  function Process(st: State, m: Message, env: Env): Outcome {
    if !env.load then Outcome(st, Requeue)
    else if m.nid !in st.rows then Outcome(Consume(st, m.nid), Ack)
    else if st.rows[m.nid].status == RowSent then Outcome(Consume(st, m.nid), Ack)
    else if ((m.channel == Webhook || m.channel == Slack) && m.address == "") || !env.build then Outcome(st, Reject)
    else
      var called := st.(calls := st.calls[m.nid := Calls(st, m.nid) + 1]);
      match env.send
      case Delivered =>
        if env.markSent then Outcome(Consume(SetRow(called, m.nid, st.rows[m.nid].(status := RowSent)), m.nid), Ack)
        else Outcome(called, Requeue)
      case TransientError => Retry(called, m, env)
      case PermanentError =>
        if m.channel == Email then Retry(called, m, env)
        else Outcome(Consume(called.(dropped := called.dropped + {m.nid}), m.nid), Ack)
  }

  // ----- Steps -----

  /** A worker takes a message off its queue, processes it, and the broker applies the verdict. */
  function Deliver(st: State, r: Routed, env: Env): State {
    Disposed(st.names, r, Process(st.(work := st.work - multiset{r}), r.message, env))
  }

  /** The broker's verdict moves the message and nothing else. */
  function Disposed(names: Names, r: Routed, o: Outcome): State {
    match o.disposition
    case Ack => o.state
    case Requeue => o.state.(work := o.state.work + multiset{r})
    case Reject => o.state.(dead := o.state.dead + Copies(DeadRoute(names, r.queue), r.message))
  }

  function Expire(st: State, d: Delayed): State {
    st.(delayed := st.delayed - multiset{d}, work := st.work + Copies(RetryRoute(st.names, d.message), d.message))
  }

  /** CreateNotification and the first publication. */
  function Journal(st: State, m: Message, publish: PublishResult): State {
    var s := SetRow(st, m.nid, Row(RowPending, 0)).(journal := st.journal + {m.nid});
    if publish == Refused then s else s.(work := s.work + Copies(FirstRoute(st.names, m), m))
  }

  /** An unsubscribe deletes the subscriber's journal rows with it. */
  function DeleteRow(st: State, nid: Id): State {
    st.(rows := st.rows - {nid})
  }

  /** The broker delivers a message once more. */
  function Redeliver(st: State, r: Routed): State {
    st.(work := st.work + multiset{r})
  }

  // ----- Fan-out -----

  /** How the calls for one subscriber end: the drawn row id, and whether it could be created. */
  datatype FanOut = FanOut(nid: Id, created: bool, publish: PublishResult)

  function MessageFor(s: Subscriber, event: string, nid: Id): Message {
    Message(nid, s.channel, event, s.address, 0)
  }

  ghost predicate Chosen(s: Subscriber, affected: seq<Id>) {
    Deliverable(s.channel) && Wants(s, affected)
  }

  /** The row could not be created, or the publication was not confirmed. */
  ghost predicate Trouble(s: Subscriber, affected: seq<Id>, f: FanOut) {
    Chosen(s, affected) && !(f.created && f.publish == Accepted)
  }

  /** The chosen subscribers among the first n for whom an error is collected. */
  ghost function Troubled(subs: seq<Subscriber>, affected: seq<Id>, fs: seq<FanOut>, n: nat): set<int>
    requires |fs| == |subs| && n <= |subs|
  {
    set k | 0 <= k < n && Trouble(subs[k], affected, fs[k])
  }

  ghost function DispatchOne(st: State, s: Subscriber, affected: seq<Id>, event: string, f: FanOut): State {
    if Chosen(s, affected) && f.created then Journal(st, MessageFor(s, event, f.nid), f.publish) else st
  }

  /** dispatch: one row and one publication per chosen subscriber; errors do not stop the loop. */
  ghost function Dispatch(st: State, subs: seq<Subscriber>, affected: seq<Id>, event: string, fs: seq<FanOut>): State
    requires |fs| == |subs|
  {
    if subs == [] then st
    else
      var k := |subs| - 1;
      DispatchOne(Dispatch(st, subs[..k], affected, event, fs[..k]), subs[k], affected, event, fs[k])
  }

  /** Exactly the chosen subscribers whose row could be created are journalled, pending. */
  lemma {:induction false} DispatchJournalsChosen(
    st: State, subs: seq<Subscriber>, affected: seq<Id>, event: string, fs: seq<FanOut>, nid: Id)
    requires |fs| == |subs|
    requires nid !in st.rows
    ensures nid in Dispatch(st, subs, affected, event, fs).rows <==>
            exists i :: 0 <= i < |subs| && fs[i].nid == nid && fs[i].created && Chosen(subs[i], affected)
    ensures nid in Dispatch(st, subs, affected, event, fs).rows ==>
              Dispatch(st, subs, affected, event, fs).rows[nid] == Row(RowPending, 0)
  {
    if subs != [] {
      var k := |subs| - 1;
      DispatchJournalsChosen(st, subs[..k], affected, event, fs[..k], nid);
      assert forall i :: 0 <= i < k ==> subs[..k][i] == subs[i] && fs[..k][i] == fs[i];
      if nid in Dispatch(st, subs[..k], affected, event, fs[..k]).rows {
        var i :| 0 <= i < k && fs[..k][i].nid == nid && fs[..k][i].created && Chosen(subs[..k][i], affected);
        assert fs[i].nid == nid && fs[i].created && Chosen(subs[i], affected);
      }
    }
  }

  // ----- The engine and a worker, call by call -----

  class Engine {
    const names: Names
    var rows: map<Id, Row>
    var work: multiset<Routed>
    var delayed: multiset<Delayed>
    var dead: multiset<Routed>
    ghost var journal: set<Id>
    ghost var calls: map<Id, nat>
    ghost var consumed: set<Id>
    ghost var dropped: set<Id>

    constructor (names: Names)
      ensures View() == Initial(names)
    {
      this.names := names;
      rows, work, delayed, dead := map[], multiset{}, multiset{}, multiset{};
      journal, calls, consumed, dropped := {}, map[], {}, {};
    }

    ghost function View(): State
      reads this
    {
      State(names, rows, work, delayed, dead, journal, calls, consumed, dropped)
    }

    method CreateNotification(nid: Id)
      modifies this`rows, this`journal
      ensures rows == old(rows)[nid := Row(RowPending, 0)] && journal == old(journal) + {nid}
    {
      rows, journal := rows[nid := Row(RowPending, 0)], journal + {nid};
    }

    /** publish: webhooks go to webhooks.out, the other channels to notifications. */
    method Publish(m: Message, result: PublishResult) returns (ok: bool)
      modifies this`work
      ensures ok <==> result == Accepted
      ensures work == if result == Refused then old(work) else old(work) + Copies(FirstRoute(names, m), m)
    {
      if result != Refused {
        var queues;
        if m.channel == Webhook {
          queues := Route(Declared(names), WebhooksOut, names.webhookKey);
        } else {
          queues := Route(Declared(names), Notifications, NotifyKey(ChannelName(m.channel), m.event));
        }
        work := work + Copies(queues, m);
      }
      ok := result == Accepted;
    }

    /** One turn of the dispatch loop; false if an error was collected. */
    method DoDispatchOne(s: Subscriber, affected: seq<Id>, event: string, f: FanOut) returns (ok: bool)
      modifies this
      ensures View() == DispatchOne(old(View()), s, affected, event, f)
      ensures ok <==> (Chosen(s, affected) ==> f.created && f.publish == Accepted)
    {
      if !Deliverable(s.channel) {
        return true;
      }
      var wants := WantsEvent(s, affected);
      if !wants {
        return true;
      }
      if !f.created {
        return false;
      }
      CreateNotification(f.nid);
      ok := Publish(MessageFor(s, event, f.nid), f.publish);
    }

    method DoDispatch(subs: seq<Subscriber>, affected: seq<Id>, event: string, fs: seq<FanOut>) returns (errors: nat)
      requires |fs| == |subs|
      modifies this
      ensures View() == Dispatch(old(View()), subs, affected, event, fs)
      ensures errors == |Troubled(subs, affected, fs, |subs|)|
    {
      errors := 0;
      assert Troubled(subs, affected, fs, 0) == {};
      for k := 0 to |subs|
        invariant View() == Dispatch(old(View()), subs[..k], affected, event, fs[..k])
        invariant errors == |Troubled(subs, affected, fs, k)|
      {
        assert subs[..k + 1][..k] == subs[..k] && fs[..k + 1][..k] == fs[..k];
        assert Troubled(subs, affected, fs, k + 1) ==
               Troubled(subs, affected, fs, k) + if Trouble(subs[k], affected, fs[k]) then {k} else {};
        var ok := DoDispatchOne(subs[k], affected, event, fs[k]);
        if !ok {
          errors := errors + 1;
        }
      }
      assert subs[..|subs|] == subs && fs[..|fs|] == fs;
    }

    /** Engine.Retry: (scheduled, err). */
    method DoRetry(m: Message, env: Env) returns (scheduled: bool, err: bool)
      modifies this`rows, this`delayed
      ensures Outcome(View(), if err then Requeue else if scheduled then Ack else Reject) == Retry(old(View()), m, env)
    {
      if !env.increment || m.nid !in rows {
        return false, true;
      }
      var attempt := rows[m.nid].attempts + 1;
      rows := rows[m.nid := rows[m.nid].(attempts := attempt)];
      var backoff := RetryBackoff(attempt);
      if backoff.None? {
        if !env.markFailed {
          return false, true;
        }
        rows := rows[m.nid := rows[m.nid].(status := RowFailed)];
        return false, false;
      }
      if env.publish != Refused {
        delayed := delayed + multiset{Delayed(m.(attempt := attempt), backoff.value)};
      }
      if env.publish != Accepted {
        return false, true;
      }
      return true, false;
    }

    method HandleSendFailure(m: Message, env: Env) returns (d: Disposition)
      modifies this`rows, this`delayed
      ensures Outcome(View(), d) == Retry(old(View()), m, env)
    {
      var scheduled, err := DoRetry(m, env);
      if err {
        return Requeue;
      }
      if scheduled {
        return Ack;
      }
      return Reject;
    }

    method DoProcess(m: Message, env: Env) returns (d: Disposition)
      modifies this
      ensures Outcome(View(), d) == Process(old(View()), m, env)
    {
      if !env.load {
        return Requeue;
      }
      if m.nid !in rows || rows[m.nid].status == RowSent {
        consumed := consumed + {m.nid};
        return Ack;
      }
      if (m.channel == Webhook || m.channel == Slack) && m.address == "" {
        return Reject;
      }
      if !env.build {
        return Reject;
      }
      calls := calls[m.nid := Calls(View(), m.nid) + 1];
      if env.send != Delivered {
        if env.send == PermanentError && m.channel != Email {
          consumed, dropped := consumed + {m.nid}, dropped + {m.nid};
          return Ack;
        }
        d := HandleSendFailure(m, env);
        return;
      }
      if !env.markSent {
        return Requeue;
      }
      rows := rows[m.nid := rows[m.nid].(status := RowSent)];
      consumed := consumed + {m.nid};
      return Ack;
    }
  }
}
