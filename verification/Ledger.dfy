/**
 Subscriptions, payments and account plans, and the repository calls of the billing service
 (backend/internal/domain/billing.go, backend/internal/store/db/billing.sql.go).

 A call can fail. `Ran` threads the tables through a sequence of calls: `budget` calls succeed, the
 next one fails, and after a failure nothing more is written.
 */
module Ledger {
  import opened Base

  datatype Plan = Free | Premium

  datatype SubStatus = Pending | Active | PastDue | Canceled

  datatype PayStatus = PayPending | PaySucceeded | PayFailed | PayRefunded

  datatype BillingPeriod = Monthly | Yearly

  datatype Subscription = Subscription(
    plan: Plan,
    status: SubStatus,
    period: Option<BillingPeriod>,
    token: Option<string>,
    periodStart: Option<Time>,
    periodEnd: Option<Time>,
    cancelAtPeriodEnd: bool,
    dunning: int)

  datatype Payment = Payment(
    account: Id,
    status: PayStatus,
    period: Option<BillingPeriod>,
    providerId: Option<string>,
    receipt: Option<string>,
    paidAt: Option<Time>)

  /**
   `granted` and `failures` are proof bookkeeping: the payments for which a paid period was started,
   in order, and the times of failed charges since the account's last paid period.
   */
  datatype Books = Books(
    subs: map<Id, Subscription>,
    payments: map<Id, Payment>,
    plans: map<Id, Plan>,
    granted: seq<Id>,
    failures: map<Id, seq<Time>>)

  const DEFAULT_SUBSCRIPTION := Subscription(Free, Active, None, None, None, None, false, 0)

  function PlanOf(b: Books, account: Id): Plan {
    if account in b.plans then b.plans[account] else Free
  }

  function FailuresOf(b: Books, account: Id): seq<Time> {
    if account in b.failures then b.failures[account] else []
  }

  /** GrantsPremium: premium and not canceled or pending. */
  predicate GrantsPremium(s: Subscription) {
    s.plan == Premium && (s.status == Active || s.status == PastDue)
  }

  /** The predicate of ListDueSubscriptions. */
  predicate DueSub(s: Subscription, now: Time) {
    && s.plan == Premium
    && (s.status == Active || s.status == PastDue)
    && s.periodEnd.Some?
    && s.periodEnd.value <= now
  }

  /** The sort key of ListDueSubscriptions, which only sees rows that have one. */
  function PeriodEnd(s: Subscription): Time {
    if s.periodEnd.Some? then s.periodEnd.value else 0
  }

  function DueSet(b: Books, now: Time): set<Id> {
    set a | a in b.subs && DueSub(b.subs[a], now)
  }

  // ----- Calls -----

  datatype Ran = Ran(books: Books, budget: nat, ok: bool)

  /** Spend one call; `f` says whether a constraint refuses the statement. */
  function Spend(r: Ran, refused: bool): Ran {
    if !r.ok then r
    else if r.budget == 0 then r.(ok := false)
    else r.(budget := r.budget - 1, ok := !refused)
  }

  function Write(r: Ran, refused: bool, books: Books): Ran {
    var s := Spend(r, refused);
    if s.ok then s.(books := books) else s
  }

  function Ensure(r: Ran, account: Id): Ran {
    Write(r, false,
          if account in r.books.subs then r.books
          else r.books.(subs := r.books.subs[account := DEFAULT_SUBSCRIPTION]))
  }

  function InsertPayment(r: Ran, id: Id, p: Payment): Ran {
    Write(r, id in r.books.payments, r.books.(payments := r.books.payments[id := p]))
  }

  /** Another payment already carries the provider's payment id. */
  ghost predicate ProviderIdTaken(b: Books, id: Id, providerId: Option<string>) {
    providerId.Some? && exists q :: q in b.payments && q != id && b.payments[q].providerId == providerId
  }

  function Coalesce<T>(x: Option<T>, y: Option<T>): Option<T> {
    if x.Some? then x else y
  }

  /** UpdatePaymentResult, with COALESCE on the provider id and the receipt. */
  ghost function SetPayment(
    r: Ran, id: Id, status: PayStatus, providerId: Option<string>, receipt: Option<string>, paidAt: Option<Time>): Ran
  {
    if id !in r.books.payments then Spend(r, true)
    else
      var p := r.books.payments[id];
      var q := p.(status := status, providerId := Coalesce(providerId, p.providerId),
                  receipt := Coalesce(receipt, p.receipt), paidAt := paidAt);
      Write(r, ProviderIdTaken(r.books, id, q.providerId), r.books.(payments := r.books.payments[id := q]))
  }

  function WriteSub(r: Ran, account: Id, s: Subscription): Ran {
    Write(r, account !in r.books.subs, r.books.(subs := r.books.subs[account := s]))
  }

  /** Writing a subscription whose new period was paid by `payment`. */
  function GrantSub(r: Ran, account: Id, s: Subscription, payment: Id): Ran {
    Write(r, account !in r.books.subs,
          r.books.(subs := r.books.subs[account := s],
                   granted := r.books.granted + [payment],
                   failures := r.books.failures[account := []]))
  }

  /** Writing a subscription after a failed charge. */
  function DunSub(r: Ran, account: Id, s: Subscription, now: Time): Ran {
    Write(r, account !in r.books.subs,
          r.books.(subs := r.books.subs[account := s],
                   failures := r.books.failures[account := FailuresOf(r.books, account) + [now]]))
  }

  function SetPlan(r: Ran, account: Id, plan: Plan): Ran {
    Write(r, false, r.books.(plans := r.books.plans[account := plan]))
  }
}
