/** Which subscriptions the due sweep can see, and how a Checkout on premium hides one. */
module BillingSwept {
  import opened Base
  import opened Ledger
  import opened Billing
  import opened BillingRuns
  import opened BillingLifecycle

  /** Every premium subscription has a period end and a status that the sweep selects. */
  ghost predicate Swept(b: Books) {
    forall a :: a in b.subs && b.subs[a].plan == Premium ==>
      GrantsPremium(b.subs[a]) && b.subs[a].periodEnd.Some?
  }

  /** A completed Checkout keeps that exactly when it starts from free. */
  lemma CheckoutKeepsSweptIff(
    c: Config, b: Books, account: Id, plan: Plan, period: BillingPeriod, paymentId: Id, created: Option<string>,
    budget: nat)
    requires Swept(b)
    requires Do(c, b, CheckoutStep(account, plan, period, paymentId, created), budget).ok
    ensures Swept(Do(c, b, CheckoutStep(account, plan, period, paymentId, created), budget).books) <==>
            account !in b.subs || b.subs[account].plan == Free
  {
    var d := Do(c, b, CheckoutStep(account, plan, period, paymentId, created), budget).books;
    assert account in d.subs && d.subs[account].status == Pending;
    assert forall x :: x != account && x in d.subs ==> x in b.subs && d.subs[x] == b.subs[x];
  }

  /** No call of a Checkout from free can break it, whichever fails. */
  lemma CheckoutFromFree(r: Ran, account: Id, plan: Plan, period: BillingPeriod, paymentId: Id, created: Option<string>)
    requires Swept(r.books) && (account in r.books.subs ==> r.books.subs[account].plan == Free)
    ensures Swept(Checkout(r, account, plan, period, paymentId, created).books)
  {
  }

  lemma WebhookKeepsSwept(c: Config, r: Ran, ev: Event, now: Time)
    requires Swept(r.books)
    ensures Swept(HandleWebhook(c, r, ev, now).books)
  {
  }

  /** Every step other than a Checkout on premium keeps it, cut short after any number of calls. */
  lemma StepKeepsSwept(c: Config, b: Books, step: Step, budget: nat)
    requires Swept(b) && Enabled(b, step)
    requires step.CheckoutStep? ==> step.account !in b.subs || b.subs[step.account].plan == Free
    ensures Swept(Do(c, b, step, budget).books)
  {
    var r := Ran(b, budget, true);
    match step
    case CheckoutStep(account, plan, period, paymentId, created) =>
      CheckoutFromFree(r, account, plan, period, paymentId, created);
    case WebhookStep(ev, now) => WebhookKeepsSwept(c, r, ev, now);
    case CancelStep(account) =>
    case SweepStep(now, limit, due, ns) =>
      assert forall i :: 0 <= i < |due| ==> due[i].account in DueSet(b, now);
      if budget > 0 {
        SweepKeepsSwept(c, Spend(r, false), due, ns);
      }
  }

  lemma {:induction false} SweepKeepsSwept(c: Config, r: Ran, due: seq<Due>, ns: seq<Renewal>)
    requires Swept(r.books) && |ns| == |due|
    requires forall i :: 0 <= i < |due| ==> due[i].sub.plan == Premium && due[i].sub.periodEnd.Some?
    ensures Swept(Sweep(c, r, due, ns).books)
  {
    if due != [] {
      var k := |due| - 1;
      SweepKeepsSwept(c, r, due[..k], ns[..k]);
      RenewalKeepsSwept(c, Sweep(c, r, due[..k], ns[..k]), due[k].account, due[k].sub, ns[k]);
    }
  }

  /** The row a renewal leaves: untouched by a failing call, or its outcome. */
  ghost predicate RowIs(r: Ran, d: Books, account: Id, s: Subscription) {
    && d.subs.Keys == r.books.subs.Keys
    && (account in d.subs ==> d.subs[account] == r.books.subs[account] || d.subs[account] == s)
  }

  lemma PaidRow(c: Config, r: Ran, account: Id, s: Subscription, n: Renewal)
    requires n.charge.Charged?
    ensures RowIs(r, Paid(c, r, account, s, n).books, account, Renewed(c, s, n.now))
  {
  }

  lemma FailedRow(c: Config, r: Ran, account: Id, s: Subscription, n: Renewal)
    ensures RowIs(r, Failed(c, r, account, s, n).books, account, Dunned(c, s, n.now))
  {
  }

  lemma RenewalRow(c: Config, r: Ran, account: Id, s: Subscription, n: Renewal)
    ensures var t := if s.cancelAtPeriodEnd then Downgraded(s)
                     else if ChargeSucceeds(s, n.charge) then Renewed(c, s, n.now)
                     else Dunned(c, s, n.now);
            RowIs(r, RenewOne(c, r, account, s, n).books, account, t)
  {
    var r1 := InsertPayment(r, n.paymentId, NewPayment(account, PeriodOr(s.period)));
    if ChargeSucceeds(s, n.charge) {
      PaidRow(c, r1, account, s, n);
    } else {
      FailedRow(c, r1, account, s, n);
    }
  }

  lemma RenewalKeepsSwept(c: Config, r: Ran, account: Id, s: Subscription, n: Renewal)
    requires Swept(r.books) && s.plan == Premium && s.periodEnd.Some?
    ensures Swept(RenewOne(c, r, account, s, n).books)
  {
    RenewalTouchesOneAccount(c, r, account, s, n);
    RenewalRow(c, r, account, s, n);
    SweptFrame(r.books, RenewOne(c, r, account, s, n).books, account);
  }

  lemma SweptFrame(b: Books, d: Books, account: Id)
    requires Swept(b) && OnlyAccount(b, d, account)
    requires account in d.subs && d.subs[account].plan == Premium ==>
      GrantsPremium(d.subs[account]) && d.subs[account].periodEnd.Some?
    ensures Swept(d)
  {
  }

  /** Runs that check out only from free. */
  ghost predicate FromFree(c: Config, b: Books, run: seq<Timed>)
    requires EnabledRun(c, b, run)
    decreases |run|
  {
    run == [] ||
    (&& (run[0].step.CheckoutStep? ==>
           run[0].step.account !in b.subs || b.subs[run[0].step.account].plan == Free)
     && FromFree(c, Do(c, b, run[0].step, run[0].budget).books, run[1..]))
  }

  /** Main result: with checkouts from free only, over every run, with calls failing anywhere. */
  lemma {:induction false} RunKeepsSwept(c: Config, b: Books, run: seq<Timed>)
    requires Swept(b) && EnabledRun(c, b, run) && FromFree(c, b, run)
    ensures Swept(Run(c, b, run))
    decreases |run|
  {
    if run != [] {
      StepKeepsSwept(c, b, run[0].step, run[0].budget);
      RunKeepsSwept(c, Do(c, b, run[0].step, run[0].budget).books, run[1..]);
    }
  }

  /** The state a Checkout on a premium subscription leaves: premium, pending. */
  ghost predicate Stuck(b: Books, account: Id) {
    account in b.subs && b.subs[account].plan == Premium && b.subs[account].status == Pending
  }

  /** The step reports the success of one of the account's payments. */
  ghost predicate Pays(b: Books, step: Step, account: Id) {
    && step.WebhookStep?
    && step.ev.status == PaySucceeded
    && FindPayment(b, step.ev.providerId).Some?
    && b.payments[FindPayment(b, step.ev.providerId).value].account == account
  }

  lemma StuckStaysStuck(c: Config, b: Books, step: Step, budget: nat, account: Id)
    requires Stuck(b, account) && Enabled(b, step) && !Pays(b, step, account)
    ensures Stuck(Do(c, b, step, budget).books, account)
    ensures PlanOf(Do(c, b, step, budget).books, account) == PlanOf(b, account)
  {
    var r := Ran(b, budget, true);
    match step
    case CheckoutStep(a, plan, period, paymentId, created) =>
      CheckoutLeavesPlan(r, a, plan, period, paymentId, created, account);
    case WebhookStep(ev, now) => WebhookLeavesOthers(c, r, ev, now, account);
    case CancelStep(_) =>
    case SweepStep(now, limit, due, ns) =>
      assert forall i :: 0 <= i < |due| ==> due[i].account in DueSet(b, now);
      if budget > 0 {
        SweepSkipsOthers(c, Spend(r, false), due, ns, account);
      }
  }

  lemma CheckoutLeavesPlan(
    r: Ran, a: Id, plan: Plan, period: BillingPeriod, paymentId: Id, created: Option<string>, account: Id)
    requires Stuck(r.books, account)
    ensures var d := Checkout(r, a, plan, period, paymentId, created).books;
            Stuck(d, account) && d.plans == r.books.plans
  {
  }

  lemma WebhookLeavesOthers(c: Config, r: Ran, ev: Event, now: Time, account: Id)
    requires account in r.books.subs && !Pays(r.books, WebhookStep(ev, now), account)
    ensures OnlyOthers(r.books, HandleWebhook(c, r, ev, now).books, account)
  {
  }

  lemma {:induction false} SweepSkipsOthers(c: Config, r: Ran, due: seq<Due>, ns: seq<Renewal>, account: Id)
    requires |ns| == |due| && forall i :: 0 <= i < |due| ==> due[i].account != account
    ensures OnlyOthers(r.books, Sweep(c, r, due, ns).books, account)
  {
    if due != [] {
      var k := |due| - 1;
      SweepSkipsOthers(c, r, due[..k], ns[..k], account);
      RenewalTouchesOneAccount(c, Sweep(c, r, due[..k], ns[..k]), due[k].account, due[k].sub, ns[k]);
    }
  }

  ghost predicate OnlyOthers(b: Books, d: Books, account: Id) {
    && (account in b.subs <==> account in d.subs)
    && (account in b.subs ==> d.subs[account] == b.subs[account])
    && PlanOf(d, account) == PlanOf(b, account)
  }

  /** The run contains no success webhook for the account. */
  ghost predicate Unpaid(c: Config, b: Books, run: seq<Timed>, account: Id)
    requires EnabledRun(c, b, run)
    decreases |run|
  {
    run == [] ||
    (&& !Pays(b, run[0].step, account)
     && Unpaid(c, Do(c, b, run[0].step, run[0].budget).books, run[1..], account))
  }

  /**
   After a Checkout on a premium subscription and until one of the account's payments succeeds, no
   sweep ever selects it, however late, and the account keeps the plan it has.
   */
  lemma {:induction false} StuckIsNeverDue(c: Config, b: Books, run: seq<Timed>, account: Id, now: Time)
    requires Stuck(b, account) && EnabledRun(c, b, run) && Unpaid(c, b, run, account)
    ensures Stuck(Run(c, b, run), account)
    ensures account !in DueSet(Run(c, b, run), now)
    ensures PlanOf(Run(c, b, run), account) == PlanOf(b, account)
    decreases |run|
  {
    if run != [] {
      StuckStaysStuck(c, b, run[0].step, run[0].budget, account);
      StuckIsNeverDue(c, Do(c, b, run[0].step, run[0].budget).books, run[1..], account, now);
    }
  }

  /** Such a Checkout is possible: it completes from any active premium subscription. */
  lemma CheckoutFromPremiumSticks(
    c: Config, b: Books, account: Id, period: BillingPeriod, paymentId: Id, providerId: string, budget: nat)
    requires account in b.subs && b.subs[account].plan == Premium
    requires paymentId !in b.payments && budget >= 4
    requires forall p :: p in b.payments ==> b.payments[p].providerId != Some(providerId)
    ensures var u := Do(c, b, CheckoutStep(account, Premium, period, paymentId, Some(providerId)), budget);
            u.ok && Stuck(u.books, account)
  {
  }
}
