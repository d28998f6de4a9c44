/** What is bought is what is granted: the terms of a payment from the checkout to the paid period and its renewals. */
module BillingTerms {
  import opened Base
  import opened Ledger
  import opened Billing
  import opened BillingRuns
  import opened BillingLifecycle
  import opened BillingSwept

  // ----- Checkout -----

  /** Only the account's subscription and the payment `id` may differ. */
  ghost predicate OnlyOrder(b: Books, d: Books, account: Id, id: Id) {
    && d.plans == b.plans && d.granted == b.granted && d.failures == b.failures
    && d.subs.Keys == b.subs.Keys + {account} && d.payments.Keys == b.payments.Keys + {id}
    && (forall a :: a in b.subs && a != account ==> d.subs[a] == b.subs[a])
    && forall p :: p in b.payments && p != id ==> d.payments[p] == b.payments[p]
  }

  /** The account's subscription, or the one it starts with. */
  function SubOf(b: Books, account: Id): Subscription {
    if account in b.subs then b.subs[account]
    else Subscription(Free, Active, None, None, None, None, false, 0)
  }

  ghost predicate Taken(b: Books, providerId: string) {
    exists p :: p in b.payments && b.payments[p].providerId == Some(providerId)
  }

  /**
   A checkout completes exactly for premium, with a fresh payment id, an answering provider whose payment id is
   new, and four successful calls; it records a pending payment for the period and waits for it.
   */
  lemma CheckoutOffers(
    c: Config, b: Books, account: Id, plan: Plan, period: BillingPeriod, id: Id, created: Option<string>, budget: nat)
    ensures var u := Do(c, b, CheckoutStep(account, plan, period, id, created), budget);
            && (u.ok <==>
                  && plan == Premium && id !in b.payments && created.Some? && !Taken(b, created.value) && budget >= 4)
            && (u.ok ==>
                  && OnlyOrder(b, u.books, account, id)
                  && u.books.payments[id] == Payment(account, PayPending, Some(period), created, None, None)
                  && u.books.subs[account] == SubOf(b, account).(status := Pending, period := Some(period)))
  {
    var s := SubOf(b, account);
    var b1 := b.(subs := b.subs[account := s]);
    assert account in b.subs ==> b1 == b;
    if plan == Premium && budget >= 1 {
      assert Ensure(Ran(b, budget, true), account) == Ran(b1, budget - 1, true);
      OrderOffers(Ran(b1, budget - 1, true), account, period, id, created);
      assert created.Some? ==> (Taken(b1, created.value) <==> Taken(b, created.value));
    }
  }

  /** The rest of a checkout, once the account has a subscription. */
  lemma OrderOffers(r: Ran, account: Id, period: BillingPeriod, id: Id, created: Option<string>)
    requires account in r.books.subs && r.ok
    ensures var b, s := r.books, r.books.subs[account].(status := Pending, period := Some(period));
            var u := AwaitPayment(InsertPayment(r, id, NewPayment(account, period)), account, s, id, created);
            && (u.ok <==> id !in b.payments && created.Some? && !Taken(b, created.value) && r.budget >= 3)
            && (u.ok ==>
                  && OnlyOrder(b, u.books, account, id)
                  && u.books.payments[id] == Payment(account, PayPending, Some(period), created, None, None)
                  && u.books.subs[account] == s)
  {
    if id !in r.books.payments && created.Some? {
      TakenStays(r.books, id, NewPayment(account, period), created);
    }
  }

  lemma TakenStays(b: Books, id: Id, p: Payment, created: Option<string>)
    requires id !in b.payments && created.Some?
    ensures Taken(b, created.value) <==> ProviderIdTaken(b.(payments := b.payments[id := p]), id, created)
  {
    var d := b.(payments := b.payments[id := p]);
    if q :| q in b.payments && b.payments[q].providerId == created {
      assert q in d.payments && q != id && d.payments[q].providerId == created;
    }
  }

  // ----- What a webhook does -----

  /** Only the payment's row and its account's subscription, plan, grants and failures may differ. */
  ghost predicate OnlyPayment(b: Books, d: Books, id: Id) {
    && id in b.payments && d.payments.Keys == b.payments.Keys
    && forall p :: p in b.payments && p != id ==> d.payments[p] == b.payments[p]
  }

  /** The payment with its outcome; a receipt, if given, is kept with it. */
  ghost predicate Marked(p: Payment, q: Payment, status: PayStatus, receipt: string, at: Time) {
    && q.status == status && q.paidAt == Some(at) && q.account == p.account && q.period == p.period
    && q.providerId == p.providerId && q.receipt == (if receipt != "" then Some(receipt) else p.receipt)
  }

  /** The account has the plan, paid from now on for the bought period, by the given card if one came with it. */
  ghost predicate Granted(c: Config, s: Subscription, t: Subscription, period: BillingPeriod, token: string, at: Time) {
    && t.plan == Premium && t.status == Active && t.period == Some(period)
    && t.periodStart == Some(at) && t.periodEnd == Some(c.advance(period, at))
    && !t.cancelAtPeriodEnd && t.dunning == 0
    && t.token == (if token != "" then Some(token) else s.token)
  }

  /**
   The first success of a payment is granted exactly with five successful calls: the payment is marked, the
   account gets the bought period, monthly if none is on record, and is premium. A lookup that fails is answered
   like success, although nothing is recorded.
   */
  lemma SuccessActivates(c: Config, b: Books, id: Id, ev: Event, now: Time, budget: nat)
    requires Backed(b) && id in b.payments && b.payments[id].providerId == Some(ev.providerId)
    requires b.payments[id].status != PaySucceeded && ev.status == PaySucceeded
    ensures var u, pay := Do(c, b, WebhookStep(ev, now), budget), b.payments[id];
            && (u.ok <==> budget == 0 || budget >= 5) && (budget == 0 ==> u.books == b)
            && (budget >= 5 ==>
                  && OnlyPayment(b, u.books, id)
                  && Marked(pay, u.books.payments[id], PaySucceeded, ev.receipt, now)
                  && OnlyAccount(b, u.books, pay.account) && pay.account in u.books.subs
                  && Granted(c, b.subs[pay.account], u.books.subs[pay.account],
                             if pay.period.Some? then pay.period.value else Monthly, ev.token, now)
                  && PlanOf(u.books, pay.account) == Premium
                  && u.books.granted == b.granted + [id] && FailuresOf(u.books, pay.account) == [])
  {
    FindsIt(b, id, ev.providerId);
    assert !ProviderIdTaken(b, id, b.payments[id].providerId);
    ActivationGrants(c, Spend(Ran(b, budget, true), false), id, ev, now);
  }

  lemma FindsIt(b: Books, id: Id, providerId: string)
    requires ProviderUnique(b) && id in b.payments && b.payments[id].providerId == Some(providerId)
    ensures FindPayment(b, providerId) == Some(id)
  {
  }

  lemma ActivationGrants(c: Config, r: Ran, id: Id, ev: Event, now: Time)
    requires id in r.books.payments && r.books.payments[id].account in r.books.subs
    requires !ProviderIdTaken(r.books, id, r.books.payments[id].providerId)
    ensures var u, pay := Activate(c, r, id, ev, now), r.books.payments[id];
            && (u.ok <==> r.ok && r.budget >= 4)
            && (u.ok ==>
                  && OnlyPayment(r.books, u.books, id)
                  && Marked(pay, u.books.payments[id], PaySucceeded, ev.receipt, now)
                  && OnlyAccount(r.books, u.books, pay.account) && pay.account in u.books.subs
                  && Granted(c, r.books.subs[pay.account], u.books.subs[pay.account],
                             if pay.period.Some? then pay.period.value else Monthly, ev.token, now)
                  && PlanOf(u.books, pay.account) == Premium
                  && u.books.granted == r.books.granted + [id] && FailuresOf(u.books, pay.account) == [])
  {
    ActivateTouchesOneAccount(c, r, id, ev, now);
  }

  /** Unknown payments are ignored, and so are repeated and late events. */
  lemma IgnoredEvents(c: Config, b: Books, ev: Event, now: Time, budget: nat)
    requires Backed(b)
    requires forall id :: id in b.payments && b.payments[id].providerId == Some(ev.providerId) ==>
               b.payments[id].status == PaySucceeded || b.payments[id].status == ev.status || ev.status == PayPending
    ensures Do(c, b, WebhookStep(ev, now), budget).ok && Do(c, b, WebhookStep(ev, now), budget).books == b
  {
  }

  /** A failure or refund of a payment that has not succeeded is recorded with its time, and nothing else happens. */
  lemma RefusalIsRecorded(c: Config, b: Books, id: Id, ev: Event, now: Time, budget: nat)
    requires Backed(b) && id in b.payments && b.payments[id].providerId == Some(ev.providerId)
    requires b.payments[id].status != PaySucceeded && b.payments[id].status != ev.status
    requires ev.status == PayFailed || ev.status == PayRefunded
    ensures var u := Do(c, b, WebhookStep(ev, now), budget);
            && (u.ok <==> budget != 1) && (budget < 2 ==> u.books == b)
            && (budget >= 2 ==>
                  && OnlyPayment(b, u.books, id) && Marked(b.payments[id], u.books.payments[id], ev.status, "", now)
                  && u.books == b.(payments := u.books.payments))
  {
    FindsIt(b, id, ev.providerId);
    assert !ProviderIdTaken(b, id, b.payments[id].providerId);
  }

  // ----- Terms stay -----

  /** The account, period and provider id a payment was made with never change. */
  ghost predicate KeepsTerms(b: Books, d: Books, id: Id) {
    && id in b.payments && id in d.payments
    && d.payments[id].account == b.payments[id].account && d.payments[id].period == b.payments[id].period
    && d.payments[id].providerId == b.payments[id].providerId
  }

  lemma RenewalKeepsTerms(c: Config, r: Ran, account: Id, s: Subscription, n: Renewal, id: Id)
    requires id in r.books.payments
    ensures KeepsTerms(r.books, RenewOne(c, r, account, s, n).books, id)
  {
    if !s.cancelAtPeriodEnd && n.paymentId !in r.books.payments {
      var r1 := InsertPayment(r, n.paymentId, NewPayment(account, PeriodOr(s.period)));
      if r1.ok && ChargeSucceeds(s, n.charge) {
        PaidKeepsTerms(c, r1, account, s, n, id);
      } else if r1.ok {
        FailedKeepsTerms(c, r1, account, s, n, id);
      }
    }
  }

  lemma PaidKeepsTerms(c: Config, r: Ran, account: Id, s: Subscription, n: Renewal, id: Id)
    requires n.charge.Charged? && id in r.books.payments && id != n.paymentId
    ensures KeepsTerms(r.books, Paid(c, r, account, s, n).books, id)
  {
  }

  lemma FailedKeepsTerms(c: Config, r: Ran, account: Id, s: Subscription, n: Renewal, id: Id)
    requires id in r.books.payments && id != n.paymentId
    ensures KeepsTerms(r.books, Failed(c, r, account, s, n).books, id)
  {
  }

  lemma {:induction false} SweepKeepsTerms(c: Config, r: Ran, due: seq<Due>, ns: seq<Renewal>, id: Id)
    requires |ns| == |due| && id in r.books.payments
    ensures KeepsTerms(r.books, Sweep(c, r, due, ns).books, id)
  {
    if due != [] {
      var k := |due| - 1;
      SweepKeepsTerms(c, r, due[..k], ns[..k], id);
      RenewalKeepsTerms(c, Sweep(c, r, due[..k], ns[..k]), due[k].account, due[k].sub, ns[k], id);
    }
  }

  lemma CheckoutKeepsTermsOf(
    r: Ran, account: Id, plan: Plan, period: BillingPeriod, paymentId: Id, created: Option<string>, id: Id)
    requires id in r.books.payments
    ensures KeepsTerms(r.books, Checkout(r, account, plan, period, paymentId, created).books, id)
  {
  }

  lemma WebhookKeepsTerms(c: Config, r: Ran, ev: Event, now: Time, id: Id)
    requires id in r.books.payments
    ensures KeepsTerms(r.books, HandleWebhook(c, r, ev, now).books, id)
  {
    var found := FindPayment(r.books, ev.providerId);
    var r1 := Spend(r, found.None?);
    if r1.ok && found.Some? {
      ActivateKeepsTerms(c, r1, found.value, ev, now, id);
      MarkingKeepsTerms(r1, found.value, ev.status, now, id);
    }
  }

  lemma MarkingKeepsTerms(r: Ran, p: Id, status: PayStatus, now: Time, id: Id)
    requires id in r.books.payments
    ensures KeepsTerms(r.books, SetPayment(r, p, status, None, None, Some(now)).books, id)
  {
  }

  lemma ActivateKeepsTerms(c: Config, r: Ran, p: Id, ev: Event, now: Time, id: Id)
    requires id in r.books.payments && p in r.books.payments
    ensures KeepsTerms(r.books, Activate(c, r, p, ev, now).books, id)
  {
  }

  lemma StepKeepsTerms(c: Config, b: Books, step: Step, budget: nat, id: Id)
    requires Enabled(b, step) && id in b.payments
    ensures KeepsTerms(b, Do(c, b, step, budget).books, id)
  {
    var r := Ran(b, budget, true);
    match step
    case CheckoutStep(account, plan, period, paymentId, created) =>
      CheckoutKeepsTermsOf(r, account, plan, period, paymentId, created, id);
    case WebhookStep(ev, now) => WebhookKeepsTerms(c, r, ev, now, id);
    case CancelStep(account) =>
    case SweepStep(_, _, due, ns) =>
      if budget > 0 {
        SweepKeepsTerms(c, Spend(r, false), due, ns, id);
      }
  }

  /** Main result: over every run, calls failing anywhere, a payment keeps its account, period and provider id. */
  lemma {:induction false} RunKeepsTerms(c: Config, b: Books, run: seq<Timed>, id: Id)
    requires EnabledRun(c, b, run) && id in b.payments
    ensures KeepsTerms(b, Run(c, b, run), id)
    decreases |run|
  {
    if run != [] {
      StepKeepsTerms(c, b, run[0].step, run[0].budget, id);
      RunKeepsTerms(c, Do(c, b, run[0].step, run[0].budget).books, run[1..], id);
    }
  }

  /**
   Main result: whatever happens between a completed checkout and the first success of its payment, the success,
   with five successful calls, grants the account exactly the period that was bought, from the success on.
   */
  lemma BoughtIsGranted(
    c: Config, b: Books, account: Id, period: BillingPeriod, id: Id, providerId: string, budget: nat,
    between: seq<Timed>, ev: Event, now: Time, budget2: nat)
    requires Backed(b) && ev.providerId == providerId && ev.status == PaySucceeded && budget2 >= 5
    requires Do(c, b, CheckoutStep(account, Premium, period, id, Some(providerId)), budget).ok
    requires var d := Do(c, b, CheckoutStep(account, Premium, period, id, Some(providerId)), budget).books;
             EnabledRun(c, d, between) && id in Run(c, d, between).payments
             && Run(c, d, between).payments[id].status != PaySucceeded
    ensures var d := Do(c, b, CheckoutStep(account, Premium, period, id, Some(providerId)), budget).books;
            var e := Run(c, d, between);
            var u := Do(c, e, WebhookStep(ev, now), budget2);
            && u.ok && account in e.subs && account in u.books.subs
            && Granted(c, e.subs[account], u.books.subs[account], period, ev.token, now)
            && PlanOf(u.books, account) == Premium && u.books.payments[id].status == PaySucceeded
  {
    var step := CheckoutStep(account, Premium, period, id, Some(providerId));
    CheckoutOffers(c, b, account, Premium, period, id, Some(providerId), budget);
    StepIsSafe(c, b, step, budget);
    var d := Do(c, b, step, budget).books;
    RunIsSafe(c, d, between);
    RunKeepsTerms(c, d, between, id);
    SuccessActivates(c, Run(c, d, between), id, ev, now, budget2);
  }

  // ----- Renewals -----

  /** The payment a renewal records. */
  ghost predicate Recorded(
    b: Books, d: Books, id: Id, account: Id, period: BillingPeriod, status: PayStatus, at: Time)
  {
    && id !in b.payments && d.payments.Keys == b.payments.Keys + {id}
    && (forall p :: p in b.payments ==> d.payments[p] == b.payments[p])
    && d.payments[id].account == account && d.payments[id].period == Some(period)
    && d.payments[id].status == status && d.payments[id].paidAt == Some(at)
  }

  /** The saved card is there and the charge went through. */
  ghost predicate Succeeds(s: Subscription, charge: Charge) {
    s.token.Some? && |s.token.value| > 0 && charge.Charged? && charge.status == PaySucceeded
  }

  /** A completed renewal that is paid: one more succeeded payment, and the next period from now on. */
  lemma PaidRenewal(c: Config, r: Ran, account: Id, s: Subscription, n: Renewal)
    requires account in r.books.subs && r.books.subs[account] == s && !s.cancelAtPeriodEnd && Succeeds(s, n.charge)
    requires RenewOne(c, r, account, s, n).ok
    ensures var d := RenewOne(c, r, account, s, n).books;
            var period := if s.period.Some? then s.period.value else Monthly;
            && Recorded(r.books, d, n.paymentId, account, period, PaySucceeded, n.now)
            && d.payments[n.paymentId].providerId == Some(n.charge.providerId)
            && d.payments[n.paymentId].receipt == (if n.charge.receipt != "" then Some(n.charge.receipt) else None)
            && account in d.subs
            && d.subs[account] ==
               s.(status := Active, periodStart := Some(n.now), periodEnd := Some(c.advance(period, n.now)),
                  dunning := 0)
            && PlanOf(d, account) == Premium
            && d.granted == r.books.granted + [n.paymentId] && FailuresOf(d, account) == []
  {
  }

  /** One that is not: one more failed payment and dunning attempt; a grace period, or at the limit the free plan. */
  lemma UnpaidRenewal(c: Config, r: Ran, account: Id, s: Subscription, n: Renewal)
    requires account in r.books.subs && r.books.subs[account] == s && !s.cancelAtPeriodEnd && !Succeeds(s, n.charge)
    requires RenewOne(c, r, account, s, n).ok
    ensures var d := RenewOne(c, r, account, s, n).books;
            var period := if s.period.Some? then s.period.value else Monthly;
            && Recorded(r.books, d, n.paymentId, account, period, PayFailed, n.now)
            && d.granted == r.books.granted && FailuresOf(d, account) == FailuresOf(r.books, account) + [n.now]
            && account in d.subs
            && (if s.dunning + 1 < c.maxDunning then
                  && d.subs[account] ==
                     s.(status := PastDue, dunning := s.dunning + 1, periodEnd := Some(n.now + c.retryInterval))
                  && PlanOf(d, account) == PlanOf(r.books, account)
                else
                  && d.subs[account] == s.(status := Canceled, plan := Free, dunning := s.dunning + 1)
                  && PlanOf(d, account) == Free)
  {
  }

  /** A renewal of a cancelled row: no payment, canceled and free. */
  lemma CancelledRenewal(c: Config, r: Ran, account: Id, s: Subscription, n: Renewal)
    requires account in r.books.subs && r.books.subs[account] == s && s.cancelAtPeriodEnd
    ensures var u := RenewOne(c, r, account, s, n);
            && (u.ok <==> r.ok && r.budget >= 2)
            && u.books.payments == r.books.payments && u.books.granted == r.books.granted
            && (u.ok ==>
                  && account in u.books.subs && u.books.subs[account] == s.(status := Canceled, plan := Free)
                  && PlanOf(u.books, account) == Free)
  {
  }

  // ----- What is due, and the settings -----

  /** While checkouts start from free only, due is every premium subscription whose period has ended. */
  lemma DueIffEnded(b: Books, a: Id, now: Time)
    requires Swept(b)
    ensures a in DueSet(b, now) <==>
            a in b.subs && b.subs[a].plan == Premium && b.subs[a].periodEnd.Some? && b.subs[a].periodEnd.value <= now
  {
  }

  /** Settings that are not positive become three attempts and three days, in nanoseconds. */
  lemma SettingsAreValid(maxDunning: int, retryInterval: int, advance: (BillingPeriod, Time) -> Time)
    requires forall p, t :: advance(p, t) > t
    ensures var c := NewConfig(maxDunning, retryInterval, advance);
            && ValidConfig(c) && c.advance == advance
            && c.maxDunning == (if maxDunning > 0 then maxDunning else 3)
            && c.retryInterval == (if retryInterval > 0 then retryInterval else 3 * 24 * 3600 * 1_000_000_000)
  {
  }
}
