/**
 The broker topology (backend/internal/queue/topology.go) and where messages go under topic and
 direct routing (AMQP 0-9-1, sections 3.1.3.1 and 3.1.3.3).
 */
module Topology {
  import opened DottedText

  /** notifications, webhooks.out, delayed.events and dlx. */
  datatype Exchange = Notifications | WebhooksOut | DelayedEvents | Dlx

  /**
   The names the topology is built from: the notification channels, and the queue, direct key,
   retry channel and dead-letter channel of outgoing webhooks.
   */
  datatype Names = Names(
    channels: seq<string>, webhookQueue: string, webhookKey: string, webhookChannel: string, webhookDead: string)

  const NAMES := Names(["email", "telegram", "max", "slack"], "q.webhook.out", "webhook.out", "webhook", "webhook.out")

  function WorkQueue(channel: string): string { "q." + channel }

  function DlqQueue(channel: string): string { "q.dlq." + channel }

  function DlqKey(channel: string): string { "dlq." + channel }

  function NotifyKey(channel: string, event: string): string { "notify." + channel + "." + event }

  function NotifyBindingKey(channel: string): string { "notify." + channel + ".*" }

  datatype Binding = Binding(queue: string, key: string, exchange: Exchange)

  /** A work queue and the routing key its rejected messages get. */
  datatype WorkDecl = WorkDecl(queue: string, deadKey: string)

  // ----- Topic matching -----

  /** `*` stands for one word, `#` for any number of words. */
  predicate TopicMatches(pattern: seq<string>, key: seq<string>)
    decreases |pattern| + |key|
  {
    if pattern == [] then key == []
    else if pattern[0] == "#" then
      TopicMatches(pattern[1..], key) || (key != [] && TopicMatches(pattern, key[1..]))
    else key != [] && (pattern[0] == "*" || pattern[0] == key[0]) && TopicMatches(pattern[1..], key[1..])
  }

  /** webhooks.out is a direct exchange; the others are topic exchanges. */
  predicate Selects(exchange: Exchange, bindingKey: string, key: string) {
    if exchange == WebhooksOut then bindingKey == key else TopicMatches(Words(bindingKey), Words(key))
  }

  /** The queues that receive a message published with the given key. */
  function Route(bindings: set<Binding>, exchange: Exchange, key: string): set<string> {
    set b | b in bindings && b.exchange == exchange && Selects(exchange, b.key, key) :: b.queue
  }

  // ----- Declared bindings -----

  function ChannelBindings(channel: string): set<Binding> {
    {Binding(DlqQueue(channel), DlqKey(channel), Dlx),
     Binding(WorkQueue(channel), NotifyBindingKey(channel), Notifications),
     Binding(WorkQueue(channel), NotifyBindingKey(channel), DelayedEvents)}
  }

  function WebhookBindings(n: Names): set<Binding> {
    {Binding(DlqQueue(n.webhookDead), DlqKey(n.webhookDead), Dlx),
     Binding(n.webhookQueue, n.webhookKey, WebhooksOut),
     Binding(n.webhookQueue, NotifyBindingKey(n.webhookChannel), DelayedEvents)}
  }

  function BindingsOf(channels: seq<string>): set<Binding> {
    if channels == [] then {}
    else BindingsOf(channels[..|channels| - 1]) + ChannelBindings(channels[|channels| - 1])
  }

  lemma {:induction false} BindingOwner(channels: seq<string>, b: Binding) returns (c: string)
    requires b in BindingsOf(channels)
    ensures c in channels && b in ChannelBindings(c)
  {
    if b in ChannelBindings(channels[|channels| - 1]) {
      c := channels[|channels| - 1];
    } else {
      c := BindingOwner(channels[..|channels| - 1], b);
    }
  }

  lemma {:induction false} ChannelIsBound(channels: seq<string>, c: string)
    requires c in channels
    ensures ChannelBindings(c) <= BindingsOf(channels)
  {
    if c != channels[|channels| - 1] {
      assert channels == channels[..|channels| - 1] + [channels[|channels| - 1]];
      ChannelIsBound(channels[..|channels| - 1], c);
    }
  }

  function Declared(n: Names): set<Binding> {
    BindingsOf(n.channels) + WebhookBindings(n)
  }

  /** The work queues of the channels, each with the key its rejected messages get. */
  function ChannelQueues(channels: seq<string>): seq<WorkDecl> {
    seq(|channels|, k requires 0 <= k < |channels| => WorkDecl(WorkQueue(channels[k]), DlqKey(channels[k])))
  }

  function DeclaredQueues(n: Names): seq<WorkDecl> {
    ChannelQueues(n.channels) + [WorkDecl(n.webhookQueue, DlqKey(n.webhookDead))]
  }

  /** x-dead-letter-routing-key of a queue, as it was declared. */
  function DeadKeyOf(work: seq<WorkDecl>, queue: string): string {
    if work == [] then ""
    else if work[0].queue == queue then work[0].deadKey
    else DeadKeyOf(work[1..], queue)
  }

  lemma {:induction false} DeadKeyIs(work: seq<WorkDecl>, k: nat)
    requires k < |work|
    requires forall j :: 0 <= j < k ==> work[j].queue != work[k].queue || work[j].deadKey == work[k].deadKey
    ensures DeadKeyOf(work, work[k].queue) == work[k].deadKey
  {
    if k > 0 && work[0].queue != work[k].queue {
      assert work[1..][k - 1] == work[k];
      DeadKeyIs(work[1..], k - 1);
    }
  }

  /** The loop over the notification channels. */
  method DeclareChannels(channels: seq<string>) returns (bindings: set<Binding>, work: seq<WorkDecl>)
    ensures bindings == BindingsOf(channels)
    ensures work == ChannelQueues(channels)
  {
    bindings, work := {}, [];
    for k := 0 to |channels|
      invariant bindings == BindingsOf(channels[..k])
      invariant work == ChannelQueues(channels)[..k]
    {
      var channel := channels[k];
      assert channels[..k + 1][..k] == channels[..k];
      work := work + [WorkDecl(WorkQueue(channel), DlqKey(channel))];
      bindings := bindings + ChannelBindings(channel);
    }
    assert channels[..|channels|] == channels;
  }

  method DeclareTopology(n: Names) returns (bindings: set<Binding>, work: seq<WorkDecl>)
    ensures bindings == Declared(n) && work == DeclaredQueues(n)
    ensures |work| == |n.channels| + 1 && work[|n.channels|] == WorkDecl(n.webhookQueue, DlqKey(n.webhookDead))
    ensures forall k :: 0 <= k < |n.channels| ==> work[k] == WorkDecl(WorkQueue(n.channels[k]), DlqKey(n.channels[k]))
  {
    bindings, work := DeclareChannels(n.channels);
    work := work + [WorkDecl(n.webhookQueue, DlqKey(n.webhookDead))];
    bindings := bindings + WebhookBindings(n);
  }

  // ----- Words of the keys -----

  lemma NotifyWords(channel: string, event: string)
    requires DotFree(channel) && DotFree(event)
    ensures Words(NotifyKey(channel, event)) == ["notify", channel, event]
  {
    assert NotifyKey(channel, event) == "notify" + "." + (channel + "." + event);
    WordsOfPath("notify", channel + "." + event);
    WordsOfPath(channel, event);
    WordsOfDotFree(event);
  }

  /** A channel's binding selects exactly that channel's notify keys. */
  lemma NotifyBindingSelects(bound: string, channel: string, event: string)
    requires DotFree(bound) && DotFree(channel) && DotFree(event) && bound != "*" && bound != "#"
    ensures TopicMatches(Words(NotifyBindingKey(bound)), Words(NotifyKey(channel, event))) <==> bound == channel
  {
    assert NotifyBindingKey(bound) == NotifyKey(bound, "*");
    NotifyWords(bound, "*");
    NotifyWords(channel, event);
    var p, k := ["notify", bound, "*"], ["notify", channel, event];
    assert p[1..] == [bound, "*"] && k[1..] == [channel, event];
    assert p[1..][1..] == ["*"] && k[1..][1..] == [event];
    assert p[1..][1..][1..] == [] && k[1..][1..][1..] == [];
    assert TopicMatches(["*"], [event]);
    assert TopicMatches([bound, "*"], [channel, event]) <==> bound == channel;
  }

  lemma {:induction false} LiteralPatternMatchesItself(pattern: seq<string>, key: seq<string>)
    requires forall i :: 0 <= i < |pattern| ==> pattern[i] != "*" && pattern[i] != "#"
    ensures TopicMatches(pattern, key) <==> pattern == key
  {
    if pattern != [] {
      assert pattern[0] != "#" && pattern[0] != "*";
      assert forall i :: 0 <= i < |pattern[1..]| ==> pattern[1..][i] == pattern[i + 1];
      if key != [] {
        LiteralPatternMatchesItself(pattern[1..], key[1..]);
        assert [pattern[0]] + pattern[1..] == pattern && [key[0]] + key[1..] == key;
      }
    }
  }

  function Join(words: seq<string>): string
    requires words != []
  {
    if |words| == 1 then words[0] else words[0] + "." + Join(words[1..])
  }

  /** Splitting loses nothing, so different keys have different words. */
  lemma {:induction false} JoinWords(s: string)
    ensures Join(Words(s)) == s
  {
    if s != "" {
      var rest := Words(s[1..]);
      JoinWords(s[1..]);
      if s[0] == '.' {
        assert Words(s)[1..] == rest;
        assert s == "" + "." + s[1..];
      } else {
        assert Words(s)[0] == [s[0]] + rest[0] && Words(s)[1..] == rest[1..];
        assert s == [s[0]] + s[1..];
      }
    }
  }

  // ----- Where messages go -----

  /** The one selected binding decides the route. */
  lemma RouteIs(bindings: set<Binding>, exchange: Exchange, key: string, b: Binding)
    requires b in bindings && b.exchange == exchange && Selects(exchange, b.key, key)
    requires forall d :: d in bindings && d.exchange == exchange && Selects(exchange, d.key, key) ==> d.queue == b.queue
    ensures Route(bindings, exchange, key) == {b.queue}
  {
  }

  /** A name that is one literal word of a routing key. */
  predicate Plain(name: string) {
    DotFree(name) && name != "*" && name != "#"
  }

  /** Channel names are plain words, and the webhook names do not clash with them. */
  ghost predicate NamesOk(n: Names) {
    && (forall c :: c in n.channels ==> Plain(c) && c != n.webhookChannel && c != n.webhookDead)
    && Plain(n.webhookChannel)
    && NoWildcard(n.webhookDead)
  }

  ghost predicate NoWildcard(s: string) {
    forall w :: w in Words(s) ==> w != "*" && w != "#"
  }

  lemma StandardNamesOk()
    ensures NamesOk(NAMES)
    ensures "rss" !in NAMES.channels && "ical" !in NAMES.channels
  {
    PlainNames();
    WebhookOutWords();
  }

  lemma PlainNames()
    ensures Plain("email") && Plain("telegram") && Plain("max") && Plain("slack") && Plain("webhook")
    ensures forall c :: c in ["email", "telegram", "max", "slack"] ==> c !in ["webhook", "webhook.out", "rss", "ical"]
  {
    assert |"email"| == 5 && |"telegram"| == 8 && |"max"| == 3 && |"slack"| == 5;
    assert |"webhook"| == 7 && |"webhook.out"| == 11 && |"rss"| == 3 && |"ical"| == 4 && "rss"[0] == 'r'
           && "max"[0] == 'm';
  }

  lemma TwoPlainWords(w: string, o: string)
    requires Plain(w) && Plain(o)
    ensures NoWildcard(w + "." + o)
  {
    WordsOfPath(w, o);
    WordsOfDotFree(o);
  }

  lemma WebhookOutWords()
    ensures NoWildcard("webhook.out")
  {
    assert |"webhook"| == 7 && |"out"| == 3;
    TwoPlainWords("webhook", "out");
    assert "webhook" + "." + "out" == "webhook.out";
  }

  /** A selected notify binding belongs to the key's own channel. */
  lemma NotifySelected(n: Names, b: Binding, channel: string, event: string)
    requires NamesOk(n) && b in Declared(n) && (b.exchange == Notifications || b.exchange == DelayedEvents)
    requires DotFree(channel) && DotFree(event) && Selects(b.exchange, b.key, NotifyKey(channel, event))
    ensures if channel == n.webhookChannel then b.queue == n.webhookQueue && b.exchange == DelayedEvents
            else channel in n.channels && b.queue == WorkQueue(channel)
  {
    if b in WebhookBindings(n) {
      NotifyBindingSelects(n.webhookChannel, channel, event);
    } else {
      var c := BindingOwner(n.channels, b);
      NotifyBindingSelects(c, channel, event);
    }
  }

  /** First publications and delayed retries of a channel reach its work queue and no other. */
  lemma ChannelRoutes(n: Names, channel: string, event: string)
    requires NamesOk(n) && channel in n.channels && DotFree(event)
    ensures Route(Declared(n), Notifications, NotifyKey(channel, event)) == {WorkQueue(channel)}
    ensures Route(Declared(n), DelayedEvents, NotifyKey(channel, event)) == {WorkQueue(channel)}
  {
    NotifyBindingSelects(channel, channel, event);
    forall b | b in Declared(n) && (b.exchange == Notifications || b.exchange == DelayedEvents) &&
               Selects(b.exchange, b.key, NotifyKey(channel, event))
      ensures b.queue == WorkQueue(channel)
    {
      NotifySelected(n, b, channel, event);
    }
    var now := Binding(WorkQueue(channel), NotifyBindingKey(channel), Notifications);
    var later := Binding(WorkQueue(channel), NotifyBindingKey(channel), DelayedEvents);
    ChannelIsBound(n.channels, channel);
    RouteIs(Declared(n), Notifications, NotifyKey(channel, event), now);
    RouteIs(Declared(n), DelayedEvents, NotifyKey(channel, event), later);
  }

  /** Outgoing webhooks: the direct exchange and the delayed exchange agree on one queue. */
  lemma WebhookRoutes(n: Names, event: string)
    requires NamesOk(n) && DotFree(event)
    ensures Route(Declared(n), WebhooksOut, n.webhookKey) == {n.webhookQueue}
    ensures Route(Declared(n), DelayedEvents, NotifyKey(n.webhookChannel, event)) == {n.webhookQueue}
  {
    NotifyBindingSelects(n.webhookChannel, n.webhookChannel, event);
    var key := NotifyKey(n.webhookChannel, event);
    forall b | b in Declared(n) && b.exchange == DelayedEvents && Selects(DelayedEvents, b.key, key)
      ensures b.queue == n.webhookQueue
    {
      NotifySelected(n, b, n.webhookChannel, event);
    }
    RouteIs(Declared(n), DelayedEvents, key,
      Binding(n.webhookQueue, NotifyBindingKey(n.webhookChannel), DelayedEvents));
    forall b | b in Declared(n) && b.exchange == WebhooksOut ensures b.queue == n.webhookQueue {
      if b !in WebhookBindings(n) {
        var c := BindingOwner(n.channels, b);
        assert false;
      }
    }
    RouteIs(Declared(n), WebhooksOut, n.webhookKey, Binding(n.webhookQueue, n.webhookKey, WebhooksOut));
  }

  /** A name outside the list, such as the pull channels rss and ical, has no queue at all. */
  lemma OtherChannelsRouteNowhere(n: Names, channel: string, event: string)
    requires NamesOk(n) && channel !in n.channels && channel != n.webhookChannel
    requires DotFree(channel) && DotFree(event)
    ensures Route(Declared(n), Notifications, NotifyKey(channel, event)) == {}
    ensures Route(Declared(n), DelayedEvents, NotifyKey(channel, event)) == {}
  {
    forall b | b in Declared(n) && (b.exchange == Notifications || b.exchange == DelayedEvents)
      ensures !Selects(b.exchange, b.key, NotifyKey(channel, event))
    {
      if Selects(b.exchange, b.key, NotifyKey(channel, event)) {
        NotifySelected(n, b, channel, event);
        assert false;
      }
    }
  }

  /** A dead-letter key reaches exactly the dead-letter queue of its channel. */
  lemma DeadLetterRoutes(n: Names, channel: string)
    requires NamesOk(n) && (channel in n.channels || channel == n.webhookDead)
    ensures Route(Declared(n), Dlx, DlqKey(channel)) == {DlqQueue(channel)}
  {
    forall b | b in Declared(n) && b.exchange == Dlx && Selects(Dlx, b.key, DlqKey(channel))
      ensures b.queue == DlqQueue(channel)
    {
      DeadLetterSelected(n, b, channel);
    }
    var b := Binding(DlqQueue(channel), DlqKey(channel), Dlx);
    if channel in n.channels {
      ChannelIsBound(n.channels, channel);
      WordsOfDotFree(channel);
    }
    DlqWords(channel);
    LiteralPatternMatchesItself(Words(DlqKey(channel)), Words(DlqKey(channel)));
    RouteIs(Declared(n), Dlx, DlqKey(channel), b);
  }

  lemma DeadLetterSelected(n: Names, b: Binding, channel: string)
    requires NamesOk(n) && b in Declared(n) && b.exchange == Dlx
    requires Selects(Dlx, b.key, DlqKey(channel))
    ensures b.queue == DlqQueue(channel)
  {
    if b in WebhookBindings(n) {
      SameDlqKey(n.webhookDead, channel);
    } else {
      var c := BindingOwner(n.channels, b);
      WordsOfDotFree(c);
      SameDlqKey(c, channel);
    }
  }

  lemma SameDlqKey(c: string, channel: string)
    requires NoWildcard(c)
    requires Selects(Dlx, DlqKey(c), DlqKey(channel))
    ensures c == channel
  {
    DlqWords(c);
    LiteralPatternMatchesItself(Words(DlqKey(c)), Words(DlqKey(channel)));
    JoinWords(DlqKey(c));
    JoinWords(DlqKey(channel));
    assert DlqKey(c)[4..] == c && DlqKey(channel)[4..] == channel;
  }

  lemma DlqWords(channel: string)
    requires NoWildcard(channel)
    ensures forall i :: 0 <= i < |Words(DlqKey(channel))| ==>
      Words(DlqKey(channel))[i] != "*" && Words(DlqKey(channel))[i] != "#"
  {
    assert DlqKey(channel) == "dlq" + "." + channel;
    WordsOfPath("dlq", channel);
    var words := Words(DlqKey(channel));
    forall i | 0 <= i < |words| ensures words[i] != "*" && words[i] != "#" {
      if i == 0 {
        assert |words[0]| == 3;
      } else {
        assert words[i] == Words(channel)[i - 1] && words[i] in Words(channel);
      }
    }
  }
}
