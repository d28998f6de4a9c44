/** The billing service (backend/internal/billing/service.go). */
module Billing {
  import opened Base
  import opened Ledger

  /** `advance` is the calendar step of BillingPeriod.Advance. */
  datatype Config = Config(maxDunning: int, retryInterval: int, advance: (BillingPeriod, Time) -> Time)

  const DEFAULT_MAX_DUNNING := 3
  const DEFAULT_RETRY_INTERVAL := 72 * 3600 * 1_000_000_000

  /** NewService replaces non-positive settings by defaults. */
  function NewConfig(maxDunning: int, retryInterval: int, advance: (BillingPeriod, Time) -> Time): Config {
    Config(if maxDunning <= 0 then DEFAULT_MAX_DUNNING else maxDunning,
           if retryInterval <= 0 then DEFAULT_RETRY_INTERVAL else retryInterval,
           advance)
  }

  ghost predicate ValidConfig(c: Config) {
    c.maxDunning > 0 && c.retryInterval > 0 && forall p, t :: c.advance(p, t) > t
  }

  datatype Event = Event(providerId: string, status: PayStatus, token: string, receipt: string)

  datatype Charge = ChargeError | Charged(status: PayStatus, providerId: string, receipt: string)

  /** What the environment contributes to one renewal: clock, new payment id, provider's answer. */
  datatype Renewal = Renewal(now: Time, paymentId: Id, charge: Charge)

  function NonEmpty(s: string): Option<string> {
    if s != "" then Some(s) else None
  }

  function PeriodOr(p: Option<BillingPeriod>): BillingPeriod {
    if p.Some? then p.value else Monthly
  }

  function NewPayment(account: Id, period: BillingPeriod): Payment {
    Payment(account, PayPending, Some(period), None, None, None)
  }

  // ----- Checkout -----

  /** `created` is the provider's answer: its payment id, or None if the provider call failed. */
  ghost function Checkout(
    r: Ran, account: Id, plan: Plan, period: BillingPeriod, paymentId: Id, created: Option<string>): Ran {
    if plan != Premium then r.(ok := false)
    else
      var r1 := Ensure(r, account);
      if !r1.ok then r1
      else
        var r2 := InsertPayment(r1, paymentId, NewPayment(account, period));
        var s := r1.books.subs[account].(status := Pending, period := Some(period));
        AwaitPayment(r2, account, s, paymentId, created)
  }

  /** After the provider's answer: remember its payment id, move the subscription to pending. */
  ghost function AwaitPayment(r: Ran, account: Id, s: Subscription, paymentId: Id, created: Option<string>): Ran {
    if !r.ok || created.None? then r.(ok := false)
    else WriteSub(SetPayment(r, paymentId, PayPending, created, None, None), account, s)
  }

  // ----- Webhooks -----

  ghost function FindPayment(b: Books, providerId: string): Option<Id> {
    if p :| p in b.payments && b.payments[p].providerId == Some(providerId) then Some(p) else None
  }

  /** The unique index on provider_payment_id. */
  ghost predicate ProviderUnique(b: Books) {
    forall p, q :: p in b.payments && q in b.payments && p != q && b.payments[p].providerId.Some?
      ==> b.payments[p].providerId != b.payments[q].providerId
  }

  function Activated(c: Config, s: Subscription, pay: Payment, ev: Event, now: Time): Subscription {
    var period := PeriodOr(pay.period);
    s.(plan := Premium, status := Active, period := Some(period),
       periodStart := Some(now), periodEnd := Some(c.advance(period, now)),
       cancelAtPeriodEnd := false, dunning := 0,
       token := if ev.token != "" then Some(ev.token) else s.token)
  }

  ghost function Activate(c: Config, r: Ran, paymentId: Id, ev: Event, now: Time): Ran
    requires paymentId in r.books.payments
  {
    var pay := r.books.payments[paymentId];
    var r1 := SetPayment(r, paymentId, PaySucceeded, None, NonEmpty(ev.receipt), Some(now));
    var r2 := Spend(r1, pay.account !in r1.books.subs);
    if !r2.ok then r2
    else
      var r3 := GrantSub(r2, pay.account, Activated(c, r2.books.subs[pay.account], pay, ev, now), paymentId);
      SetPlan(r3, pay.account, Premium)
  }

  ghost function HandleWebhook(c: Config, r: Ran, ev: Event, now: Time): Ran {
    var found := FindPayment(r.books, ev.providerId);
    var r1 := Spend(r, found.None?);
    if !r1.ok then r1.(ok := r.ok)
    else
      var pay := r.books.payments[found.value];
      if pay.status == ev.status || pay.status == PaySucceeded then r1
      else
        match ev.status
        case PaySucceeded => Activate(c, r1, found.value, ev, now)
        case PayFailed => SetPayment(r1, found.value, PayFailed, None, None, Some(now))
        case PayRefunded => SetPayment(r1, found.value, PayRefunded, None, None, Some(now))
        case PayPending => r1
  }

  // ----- Cancel, downgrade, renewal -----

  function Cancel(r: Ran, account: Id): Ran {
    var r1 := Ensure(r, account);
    if !r1.ok then r1
    else WriteSub(r1, account, r1.books.subs[account].(cancelAtPeriodEnd := true))
  }

  function Downgraded(s: Subscription): Subscription {
    s.(status := Canceled, plan := Free)
  }

  function Downgrade(r: Ran, account: Id, s: Subscription): Ran {
    SetPlan(WriteSub(r, account, Downgraded(s)), account, Free)
  }

  function Renewed(c: Config, s: Subscription, now: Time): Subscription {
    s.(status := Active, periodStart := Some(now), periodEnd := Some(c.advance(PeriodOr(s.period), now)), dunning := 0)
  }

  predicate ChargeSucceeds(s: Subscription, charge: Charge) {
    s.token.Some? && s.token.value != "" && charge.Charged? && charge.status == PaySucceeded
  }

  /** The subscription after one more failed charge: grace until the limit, then free. */
  function Dunned(c: Config, s: Subscription, now: Time): Subscription {
    var t := s.(dunning := s.dunning + 1);
    if t.dunning >= c.maxDunning then Downgraded(t)
    else t.(status := PastDue, periodEnd := Some(now + c.retryInterval))
  }

  ghost function RenewOne(c: Config, r: Ran, account: Id, s: Subscription, n: Renewal): Ran {
    if s.cancelAtPeriodEnd then Downgrade(r, account, s)
    else
      var r1 := InsertPayment(r, n.paymentId, NewPayment(account, PeriodOr(s.period)));
      if !r1.ok then r1
      else if ChargeSucceeds(s, n.charge) then Paid(c, r1, account, s, n)
      else Failed(c, r1, account, s, n)
  }

  /** The charge went through: mark the payment, write the next period, keep the account premium. */
  ghost function Paid(c: Config, r: Ran, account: Id, s: Subscription, n: Renewal): Ran
    requires n.charge.Charged?
  {
    var r1 := SetPayment(
      r, n.paymentId, PaySucceeded, Some(n.charge.providerId), NonEmpty(n.charge.receipt), Some(n.now));
    SetPlan(GrantSub(r1, account, Renewed(c, s, n.now), n.paymentId), account, Premium)
  }

  /** The charge failed: mark the payment, count the attempt, downgrade at the limit. */
  ghost function Failed(c: Config, r: Ran, account: Id, s: Subscription, n: Renewal): Ran {
    var r1 := SetPayment(r, n.paymentId, PayFailed, None, None, Some(n.now));
    var r2 := DunSub(r1, account, Dunned(c, s, n.now), n.now);
    if s.dunning + 1 >= c.maxDunning then SetPlan(r2, account, Free) else r2
  }

  // ----- The due sweep -----

  datatype Due = Due(account: Id, sub: Subscription)

  /** ORDER BY current_period_end ASC LIMIT: any such listing, ties in any order. */
  ghost predicate IsDueListing(b: Books, now: Time, limit: nat, due: seq<Due>) {
    && (forall i :: 0 <= i < |due| ==> due[i].account in DueSet(b, now) && due[i].sub == b.subs[due[i].account])
    && (forall i, j :: 0 <= i < j < |due| ==>
          due[i].account != due[j].account && PeriodEnd(due[i].sub) <= PeriodEnd(due[j].sub))
    && |due| == (if limit < |DueSet(b, now)| then limit else |DueSet(b, now)|)
    && (forall i, a :: 0 <= i < |due| && a in DueSet(b, now) && a !in Accounts(due) ==>
          PeriodEnd(due[i].sub) <= PeriodEnd(b.subs[a]))
  }

  function Accounts(due: seq<Due>): set<Id> {
    set i | 0 <= i < |due| :: due[i].account
  }

  /** The loop of ProcessDue: renew one after another, stop at the first error. */
  ghost function Sweep(c: Config, r: Ran, due: seq<Due>, ns: seq<Renewal>): Ran
    requires |ns| == |due|
  {
    if due == [] then r
    else
      var k := |due| - 1;
      var r1 := Sweep(c, r, due[..k], ns[..k]);
      if !r1.ok then r1 else RenewOne(c, r1, due[k].account, due[k].sub, ns[k])
  }

  /** A subscription of `todo` whose period ends first. */
  method EarliestEnding(subs: map<Id, Subscription>, todo: set<Id>) returns (best: Id)
    requires todo != {} && todo <= subs.Keys
    ensures best in todo
    ensures forall a :: a in todo ==> PeriodEnd(subs[best]) <= PeriodEnd(subs[a])
  {
    Inhabited(todo);
    best :| best in todo;
    var rest := todo - {best};
    while rest != {}
      invariant rest <= todo && best in todo
      invariant forall a :: a in todo && a !in rest ==> PeriodEnd(subs[best]) <= PeriodEnd(subs[a])
      decreases |rest|
    {
      Inhabited(rest);
      var a :| a in rest;
      rest := rest - {a};
      if PeriodEnd(subs[a]) < PeriodEnd(subs[best]) {
        best := a;
      }
    }
  }

  /** `due` lists, in order, the part of `all` outside `todo`, and everything in `todo` ends later. */
  ghost predicate ListedSoFar(subs: map<Id, Subscription>, all: set<Id>, todo: set<Id>, due: seq<Due>) {
    ListsPart(subs, all, todo, due) && EarliestFirst(subs, todo, due)
  }

  ghost predicate ListsPart(subs: map<Id, Subscription>, all: set<Id>, todo: set<Id>, due: seq<Due>) {
    && todo <= all <= subs.Keys
    && Accounts(due) == all - todo
    && |due| + |todo| == |all|
    && (forall i :: 0 <= i < |due| ==> due[i].account in all - todo && due[i].sub == subs[due[i].account])
    && (forall i, j :: 0 <= i < j < |due| ==> due[i].account != due[j].account)
  }

  ghost predicate EarliestFirst(subs: map<Id, Subscription>, todo: set<Id>, due: seq<Due>) {
    && todo <= subs.Keys
    && (forall i, j :: 0 <= i < j < |due| ==> PeriodEnd(due[i].sub) <= PeriodEnd(due[j].sub))
    && (forall i, a :: 0 <= i < |due| && a in todo ==> PeriodEnd(due[i].sub) <= PeriodEnd(subs[a]))
  }

  lemma ListsOneMore(subs: map<Id, Subscription>, all: set<Id>, todo: set<Id>, due: seq<Due>, a: Id)
    requires ListsPart(subs, all, todo, due) && a in todo
    ensures ListsPart(subs, all, todo - {a}, due + [Due(a, subs[a])])
  {
    AccountsAppend(due, Due(a, subs[a]));
    assert all - (todo - {a}) == (all - todo) + {a};
  }

  lemma NextEarliest(subs: map<Id, Subscription>, todo: set<Id>, due: seq<Due>, a: Id)
    requires EarliestFirst(subs, todo, due)
    requires a in todo && forall x :: x in todo ==> PeriodEnd(subs[a]) <= PeriodEnd(subs[x])
    ensures EarliestFirst(subs, todo - {a}, due + [Due(a, subs[a])])
  {
  }

  lemma ListOneMore(subs: map<Id, Subscription>, all: set<Id>, todo: set<Id>, due: seq<Due>, a: Id)
    requires ListedSoFar(subs, all, todo, due)
    requires a in todo && forall x :: x in todo ==> PeriodEnd(subs[a]) <= PeriodEnd(subs[x])
    ensures ListedSoFar(subs, all, todo - {a}, due + [Due(a, subs[a])])
  {
    ListsOneMore(subs, all, todo, due, a);
    NextEarliest(subs, todo, due, a);
  }

  method FirstDue(ghost b: Books, subs: map<Id, Subscription>, now: Time, limit: nat) returns (due: seq<Due>)
    requires b.subs == subs
    ensures IsDueListing(b, now, limit, due)
  {
    due := [];
    var all := set a | a in subs && DueSub(subs[a], now);
    var todo := all;
    while |due| < limit && todo != {}
      invariant ListedSoFar(subs, all, todo, due) && |due| <= limit
      decreases |todo|
    {
      var a := EarliestEnding(subs, todo);
      ListOneMore(subs, all, todo, due, a);
      due := due + [Due(a, subs[a])];
      todo := todo - {a};
    }
    assert DueSet(b, now) == all;
  }

  lemma AccountsAppend(due: seq<Due>, d: Due)
    ensures Accounts(due + [d]) == Accounts(due) + {d.account}
  {
    var next := due + [d];
    assert next[|due|] == d;
    assert forall i :: 0 <= i < |due| ==> next[i] == due[i];
    forall x | x in Accounts(due) + {d.account} ensures x in Accounts(next) {
      if x in Accounts(due) {
        var i :| 0 <= i < |due| && due[i].account == x;
        assert next[i].account == x;
      } else {
        assert next[|due|].account == x;
      }
    }
  }

  // ----- The service, statement by statement -----

  class Service {
    const cfg: Config
    var subs: map<Id, Subscription>
    var payments: map<Id, Payment>
    var plans: map<Id, Plan>
    ghost var granted: seq<Id>
    ghost var failures: map<Id, seq<Time>>

    /** How many more repository calls succeed. */
    var budget: nat

    constructor (maxDunning: int, retryInterval: int, advance: (BillingPeriod, Time) -> Time, budget: nat)
      ensures cfg == NewConfig(maxDunning, retryInterval, advance)
      ensures Now(true) == Ran(Books(map[], map[], map[], [], map[]), budget, true)
    {
      cfg := NewConfig(maxDunning, retryInterval, advance);
      subs, payments, plans, granted, failures := map[], map[], map[], [], map[];
      this.budget := budget;
    }

    ghost function Now(ok: bool): Ran
      reads this
    {
      Ran(Books(subs, payments, plans, granted, failures), budget, ok)
    }

    // Repository calls

    method Call() returns (ok: bool)
      modifies this`budget
      ensures Now(ok) == Spend(old(Now(true)), false)
    {
      ok := budget > 0;
      if ok {
        budget := budget - 1;
      }
    }

    method EnsureSubscription(account: Id) returns (ok: bool, s: Subscription)
      modifies this
      ensures Now(ok) == Ensure(old(Now(true)), account)
      ensures ok ==> account in subs && s == subs[account]
    {
      ok := Call();
      s := DEFAULT_SUBSCRIPTION;
      if ok {
        if account !in subs {
          subs := subs[account := DEFAULT_SUBSCRIPTION];
        }
        s := subs[account];
      }
    }

    method CreatePayment(id: Id, p: Payment) returns (ok: bool)
      modifies this
      ensures Now(ok) == InsertPayment(old(Now(true)), id, p)
    {
      ok := Call();
      if ok {
        if id in payments {
          return false;
        }
        payments := payments[id := p];
      }
    }

    method UpdatePaymentResult(
      id: Id, status: PayStatus, providerId: Option<string>, receipt: Option<string>, paidAt: Option<Time>)
      returns (ok: bool)
      modifies this
      ensures Now(ok) == SetPayment(old(Now(true)), id, status, providerId, receipt, paidAt)
    {
      ok := Call();
      if !ok {
        return;
      }
      if id !in payments {
        return false;
      }
      var p := payments[id];
      var q := p.(status := status, providerId := Coalesce(providerId, p.providerId),
                  receipt := Coalesce(receipt, p.receipt), paidAt := paidAt);
      if q.providerId.Some? && exists o | o in payments :: o != id && payments[o].providerId == q.providerId {
        return false;
      }
      payments := payments[id := q];
    }

    method UpdateSubscription(account: Id, s: Subscription) returns (ok: bool)
      modifies this
      ensures Now(ok) == WriteSub(old(Now(true)), account, s)
    {
      ok := Call();
      if ok {
        if account !in subs {
          return false;
        }
        subs := subs[account := s];
      }
    }

    method SetAccountPlan(account: Id, plan: Plan) returns (ok: bool)
      modifies this
      ensures Now(ok) == SetPlan(old(Now(true)), account, plan)
    {
      ok := Call();
      if ok {
        plans := plans[account := plan];
      }
    }

    /** A scan of the unique index on provider_payment_id; any error reads as "not found". */
    method PaymentByProviderID(providerId: string) returns (found: Option<Id>)
      requires ProviderUnique(Now(true).books)
      modifies this`budget
      ensures found == if old(budget) > 0 then FindPayment(old(Now(true)).books, providerId) else None
      ensures budget == if old(budget) > 0 then old(budget) - 1 else 0
      ensures found.Some? ==> found.value in payments
    {
      found := None;
      var ok := Call();
      if !ok {
        return;
      }
      if p :| p in payments && payments[p].providerId == Some(providerId) {
        found := Some(p);
      }
    }

    method ListDueSubscriptions(now: Time, limit: nat) returns (ok: bool, due: seq<Due>)
      modifies this`budget
      ensures Now(ok) == Spend(old(Now(true)), false)
      ensures ok ==> IsDueListing(old(Now(true)).books, now, limit, due)
    {
      due := [];
      ok := Call();
      if ok {
        due := FirstDue(Now(true).books, subs, now, limit);
      }
    }

    // Service methods

    method DoCheckout(account: Id, plan: Plan, period: BillingPeriod, paymentId: Id, created: Option<string>)
      returns (ok: bool)
      modifies this
      ensures Now(ok) == Checkout(old(Now(true)), account, plan, period, paymentId, created)
    {
      if plan != Premium {
        return false;
      }
      var s;
      ok, s := EnsureSubscription(account);
      if !ok {
        return;
      }
      ok := CreatePayment(paymentId, NewPayment(account, period));
      if !ok || created.None? {
        return false;
      }
      ok := UpdatePaymentResult(paymentId, PayPending, created, None, None);
      if !ok {
        return;
      }
      ok := UpdateSubscription(account, s.(status := Pending, period := Some(period)));
    }

    method DoActivate(paymentId: Id, ev: Event, now: Time) returns (ok: bool)
      requires paymentId in payments
      modifies this
      ensures Now(ok) == Activate(cfg, old(Now(true)), paymentId, ev, now)
    {
      var pay := payments[paymentId];
      ok := UpdatePaymentResult(paymentId, PaySucceeded, None, NonEmpty(ev.receipt), Some(now));
      if !ok {
        return;
      }
      ok := Call();
      if !ok {
        return;
      }
      if pay.account !in subs {
        return false;
      }
      var s := subs[pay.account];
      var period := PeriodOr(pay.period);
      s := s.(plan := Premium, status := Active, period := Some(period));
      s := s.(periodStart := Some(now), periodEnd := Some(cfg.advance(period, now)));
      s := s.(cancelAtPeriodEnd := false, dunning := 0);
      if ev.token != "" {
        s := s.(token := Some(ev.token));
      }
      ok := UpdateSubscription(pay.account, s);
      if !ok {
        return;
      }
      granted, failures := granted + [paymentId], failures[pay.account := []];
      ok := SetAccountPlan(pay.account, Premium);
    }

    method DoWebhook(ev: Event, now: Time) returns (ok: bool)
      requires ProviderUnique(Now(true).books)
      modifies this
      ensures Now(ok) == HandleWebhook(cfg, old(Now(true)), ev, now)
    {
      var found := PaymentByProviderID(ev.providerId);
      if found.None? {
        return true;
      }
      var pay := payments[found.value];
      if pay.status == ev.status || pay.status == PaySucceeded {
        return true;
      }
      match ev.status {
        case PaySucceeded =>
          ok := DoActivate(found.value, ev, now);
        case PayFailed =>
          ok := UpdatePaymentResult(found.value, PayFailed, None, None, Some(now));
        case PayRefunded =>
          ok := UpdatePaymentResult(found.value, PayRefunded, None, None, Some(now));
        case PayPending =>
          ok := true;
      }
    }

    method DoCancel(account: Id) returns (ok: bool)
      modifies this
      ensures Now(ok) == Cancel(old(Now(true)), account)
    {
      var s;
      ok, s := EnsureSubscription(account);
      if !ok {
        return;
      }
      ok := UpdateSubscription(account, s.(cancelAtPeriodEnd := true));
    }

    method DoDowngrade(account: Id, s: Subscription) returns (ok: bool)
      modifies this
      ensures Now(ok) == Downgrade(old(Now(true)), account, s)
    {
      ok := UpdateSubscription(account, s.(status := Canceled, plan := Free));
      if !ok {
        return;
      }
      ok := SetAccountPlan(account, Free);
    }

    method DoRenewOne(account: Id, s: Subscription, n: Renewal) returns (ok: bool)
      modifies this
      ensures Now(ok) == RenewOne(cfg, old(Now(true)), account, s, n)
    {
      if s.cancelAtPeriodEnd {
        ok := DoDowngrade(account, s);
        return;
      }
      var period := PeriodOr(s.period);
      ok := CreatePayment(n.paymentId, NewPayment(account, period));
      if !ok {
        return;
      }
      var token := if s.token.Some? then s.token.value else "";
      var charge := if token == "" then ChargeError else n.charge;
      if charge.Charged? && charge.status == PaySucceeded {
        ok := UpdatePaymentResult(
          n.paymentId, PaySucceeded, Some(charge.providerId), NonEmpty(charge.receipt), Some(n.now));
        if !ok {
          return;
        }
        ok := UpdateSubscription(account, s.(status := Active, periodStart := Some(n.now),
                                             periodEnd := Some(cfg.advance(period, n.now)), dunning := 0));
        if !ok {
          return;
        }
        granted, failures := granted + [n.paymentId], failures[account := []];
        ok := SetAccountPlan(account, Premium);
        return;
      }
      ok := UpdatePaymentResult(n.paymentId, PayFailed, None, None, Some(n.now));
      if !ok {
        return;
      }
      ok := DunOne(account, s, n.now);
    }

    /** The tail of renewOne after a failed charge. */
    method DunOne(account: Id, s: Subscription, now: Time) returns (ok: bool)
      modifies this
      ensures Now(ok) ==
              var r := DunSub(old(Now(true)), account, Dunned(cfg, s, now), now);
              if s.dunning + 1 >= cfg.maxDunning then SetPlan(r, account, Free) else r
    {
      var t := s.(dunning := s.dunning + 1);
      ghost var f := FailuresOf(Now(true).books, account) + [now];
      if t.dunning >= cfg.maxDunning {
        ok := UpdateSubscription(account, t.(status := Canceled, plan := Free));
        if !ok {
          return;
        }
        failures := failures[account := f];
        ok := SetAccountPlan(account, Free);
        return;
      }
      ok := UpdateSubscription(account, t.(status := PastDue, periodEnd := Some(now + cfg.retryInterval)));
      if ok {
        failures := failures[account := f];
      }
    }

    /** The loop over the listed rows. */
    method RenewAll(rows: seq<Due>, environment: seq<Renewal>) returns (ok: bool)
      requires |environment| == |rows|
      modifies this
      ensures Now(ok) == Sweep(cfg, old(Now(true)), rows, environment)
    {
      ok := true;
      ghost var start := Now(true);
      for k := 0 to |rows|
        invariant ok && Now(true) == Sweep(cfg, start, rows[..k], environment[..k])
      {
        SweepOneMore(cfg, start, rows, environment, k);
        ok := DoRenewOne(rows[k].account, rows[k].sub, environment[k]);
        if !ok {
          SweepStops(cfg, start, rows, environment, k + 1);
          return;
        }
      }
      assert rows[..|rows|] == rows && environment[..|rows|] == environment;
    }

    method ProcessDue(now: Time, limit: nat, environment: seq<Renewal>)
      returns (ok: bool, ghost due: seq<Due>, count: nat)
      requires limit <= |environment|
      modifies this
      ensures old(budget) == 0 ==> !ok && Now(ok) == Spend(old(Now(true)), false)
      ensures old(budget) > 0 ==>
                && IsDueListing(old(Now(true)).books, now, limit, due) && |due| <= limit
                && Now(ok) == Sweep(cfg, Spend(old(Now(true)), false), due, environment[..|due|])
      ensures ok ==> count == |due|
    {
      count := 0;
      var rows;
      ok, rows := ListDueSubscriptions(now, limit);
      due := rows;
      if !ok {
        return;
      }
      ok := RenewAll(rows, environment[..|rows|]);
      count := |rows|;
    }
  }

  lemma SweepOneMore(c: Config, r: Ran, due: seq<Due>, ns: seq<Renewal>, k: nat)
    requires |ns| == |due| && k < |due|
    ensures var r1 := Sweep(c, r, due[..k], ns[..k]);
            Sweep(c, r, due[..k + 1], ns[..k + 1]) ==
            if !r1.ok then r1 else RenewOne(c, r1, due[k].account, due[k].sub, ns[k])
  {
    assert due[..k + 1][..k] == due[..k] && ns[..k + 1][..k] == ns[..k];
  }

  /** After an error the remaining subscriptions are left alone. */
  lemma {:induction false} SweepStops(c: Config, r: Ran, due: seq<Due>, ns: seq<Renewal>, k: nat)
    requires |ns| == |due| && k <= |due|
    requires !Sweep(c, r, due[..k], ns[..k]).ok
    ensures Sweep(c, r, due, ns) == Sweep(c, r, due[..k], ns[..k])
    decreases |due| - k
  {
    if k == |due| {
      assert due[..k] == due && ns[..k] == ns;
    } else {
      assert due[..k + 1][..k] == due[..k] && ns[..k + 1][..k] == ns[..k];
      SweepStops(c, r, due, ns, k + 1);
    }
  }
}
