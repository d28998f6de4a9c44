/** When account and subscription plan agree, and which failing repository call parts them. */
module BillingPlans {
  import opened Base
  import opened Ledger
  import opened Billing
  import opened BillingRuns
  import opened BillingLifecycle

  function SubPlan(b: Books, a: Id): Plan {
    if a in b.subs then b.subs[a].plan else Free
  }

  ghost predicate PlansAgree(b: Books) {
    forall a :: PlanOf(b, a) == SubPlan(b, a)
  }

  lemma CheckoutKeepsPlans(
    r: Ran, account: Id, plan: Plan, period: BillingPeriod, paymentId: Id, created: Option<string>)
    requires PlansAgree(r.books)
    ensures PlansAgree(Checkout(r, account, plan, period, paymentId, created).books)
  {
    CheckoutTouchesOneAccount(r, account, plan, period, paymentId, created);
    CheckoutLeavesItsPlan(r, account, plan, period, paymentId, created);
    OneAccountParts(r.books, Checkout(r, account, plan, period, paymentId, created).books, account);
  }

  lemma CheckoutLeavesItsPlan(
    r: Ran, account: Id, plan: Plan, period: BillingPeriod, paymentId: Id, created: Option<string>)
    ensures var d := Checkout(r, account, plan, period, paymentId, created).books;
            d.plans == r.books.plans && SubPlan(d, account) == SubPlan(r.books, account)
  {
    var r1 := Ensure(r, account);
    if plan == Premium && r1.ok {
      var s := r1.books.subs[account].(status := Pending, period := Some(period));
      AwaitingLeavesPlan(InsertPayment(r1, paymentId, NewPayment(account, period)), account, s, paymentId, created);
    }
  }

  lemma AwaitingLeavesPlan(r: Ran, account: Id, s: Subscription, paymentId: Id, created: Option<string>)
    requires account in r.books.subs && s.plan == r.books.subs[account].plan
    ensures var d := AwaitPayment(r, account, s, paymentId, created).books;
            d.plans == r.books.plans && SubPlan(d, account) == s.plan
  {
  }

  /** The fifth call of the webhook sets the account's plan. */
  lemma WebhookPartsIff(c: Config, b: Books, ev: Event, now: Time, budget: nat)
    requires Backed(b) && PlansAgree(b)
    ensures PlansAgree(Do(c, b, WebhookStep(ev, now), budget).books) <==>
            !(FirstSuccess(b, ev) && budget == 4 &&
              PlanOf(b, b.payments[FindPayment(b, ev.providerId).value].account) != Premium)
  {
    var found := FindPayment(b, ev.providerId);
    var r1 := Spend(Ran(b, budget, true), found.None?);
    if r1.ok && FirstSuccess(b, ev) {
      ActivationPartsIff(c, r1, found.value, ev, now);
    } else {
      var d := Do(c, b, WebhookStep(ev, now), budget).books;
      assert d.subs == b.subs && d.plans == b.plans;
      forall a ensures PlanOf(d, a) == SubPlan(d, a) {
        assert PlanOf(b, a) == SubPlan(b, a);
      }
    }
  }

  lemma ActivationPartsIff(c: Config, r: Ran, id: Id, ev: Event, now: Time)
    requires r.ok && Backed(r.books) && PlansAgree(r.books)
    requires id in r.books.payments && r.books.payments[id].status != PaySucceeded
    ensures PlansAgree(Activate(c, r, id, ev, now).books) <==>
            !(r.budget == 3 && PlanOf(r.books, r.books.payments[id].account) != Premium)
  {
    var account, d := r.books.payments[id].account, Activate(c, r, id, ev, now).books;
    assert PlanOf(r.books, account) == SubPlan(r.books, account);
    assert !ProviderIdTaken(r.books, id, r.books.payments[id].providerId);
    ActivateTouchesOneAccount(c, r, id, ev, now);
    OneAccountParts(r.books, d, account);
  }

  /** With one account touched, plans agree if they agree on it. */
  lemma OneAccountParts(b: Books, d: Books, account: Id)
    requires PlansAgree(b) && OnlyAccount(b, d, account)
    ensures PlansAgree(d) <==> PlanOf(d, account) == SubPlan(d, account)
  {
    if PlanOf(d, account) == SubPlan(d, account) {
      forall a ensures PlanOf(d, a) == SubPlan(d, a) {
        assert PlanOf(b, a) == SubPlan(b, a);
      }
    }
  }

  /** The calls between writing the subscription and writing the account of a renewal. */
  ghost predicate PartsRenewal(c: Config, r: Ran, s: Subscription, n: Renewal) {
    if s.cancelAtPeriodEnd then r.budget == 1
    else
      && n.paymentId !in r.books.payments && !ChargeSucceeds(s, n.charge)
      && s.dunning + 1 >= c.maxDunning && r.budget == 3
  }

  lemma RenewalPartsIff(c: Config, r: Ran, account: Id, s: Subscription, n: Renewal)
    requires r.ok && PlansAgree(r.books) && account in r.books.subs && s == r.books.subs[account] && s.plan == Premium
    ensures PlansAgree(RenewOne(c, r, account, s, n).books) <==> !PartsRenewal(c, r, s, n)
  {
    var d := RenewOne(c, r, account, s, n).books;
    assert PlanOf(r.books, account) == Premium;
    RenewalTouchesOneAccount(c, r, account, s, n);
    OneAccountParts(r.books, d, account);
    if !s.cancelAtPeriodEnd {
      var r1 := InsertPayment(r, n.paymentId, NewPayment(account, PeriodOr(s.period)));
      if r1.ok && ChargeSucceeds(s, n.charge) {
        PaidKeepsPlan(c, r1, account, s, n);
      } else if r1.ok {
        FailedParts(c, r1, account, s, n);
      }
    }
  }

  lemma PaidKeepsPlan(c: Config, r: Ran, account: Id, s: Subscription, n: Renewal)
    requires account in r.books.subs && s == r.books.subs[account] && s.plan == Premium
    requires PlanOf(r.books, account) == Premium
    requires n.charge.Charged?
    ensures var d := Paid(c, r, account, s, n).books;
            account in d.subs && PlanOf(d, account) == d.subs[account].plan
  {
  }

  lemma FailedParts(c: Config, r: Ran, account: Id, s: Subscription, n: Renewal)
    requires r.ok && n.paymentId in r.books.payments && r.books.payments[n.paymentId].providerId == None
    requires account in r.books.subs && s == r.books.subs[account] && s.plan == Premium
    requires PlanOf(r.books, account) == Premium
    ensures var d := Failed(c, r, account, s, n).books;
            account in d.subs && (PlanOf(d, account) == d.subs[account].plan <==>
              !(s.dunning + 1 >= c.maxDunning && r.budget == 2))
  {
  }

  /** The k-th renewal of the sweep is cut between its two plan writes. */
  ghost predicate PartsAt(c: Config, r: Ran, due: seq<Due>, ns: seq<Renewal>, k: nat)
    requires |ns| == |due| && k < |due|
  {
    var r1 := Sweep(c, r, due[..k], ns[..k]);
    r1.ok && PartsRenewal(c, r1, due[k].sub, ns[k])
  }

  ghost predicate NoneParts(c: Config, r: Ran, due: seq<Due>, ns: seq<Renewal>)
    requires |ns| == |due|
  {
    forall k :: 0 <= k < |due| ==> !PartsAt(c, r, due, ns, k)
  }

  lemma NonePartsStep(c: Config, r: Ran, due: seq<Due>, ns: seq<Renewal>, m: nat)
    requires |ns| == |due| && |due| == m + 1
    ensures NoneParts(c, r, due, ns) <==> NoneParts(c, r, due[..m], ns[..m]) && !PartsAt(c, r, due, ns, m)
  {
    forall k | 0 <= k < m ensures PartsAt(c, r, due[..m], ns[..m], k) <==> PartsAt(c, r, due, ns, k) {
      assert due[..m][..k] == due[..k] && ns[..m][..k] == ns[..k];
    }
  }

  /** The due rows of a listing: premium, read from the books, one each. */
  ghost predicate Listed(b: Books, due: seq<Due>) {
    && (forall i :: 0 <= i < |due| ==>
      due[i].account in b.subs && due[i].sub == b.subs[due[i].account] && due[i].sub.plan == Premium)
    && forall i, j :: 0 <= i < j < |due| ==> due[i].account != due[j].account
  }

  lemma {:induction false} SweepPartsIff(c: Config, r: Ran, due: seq<Due>, ns: seq<Renewal>)
    requires r.ok && PlansAgree(r.books) && |ns| == |due| && Listed(r.books, due)
    ensures PlansAgree(Sweep(c, r, due, ns).books) <==> NoneParts(c, r, due, ns)
    ensures Sweep(c, r, due, ns).ok ==> PlansAgree(Sweep(c, r, due, ns).books)
  {
    if due != [] {
      var m := |due| - 1;
      assert Listed(r.books, due[..m]);
      SweepPartsIff(c, r, due[..m], ns[..m]);
      NonePartsStep(c, r, due, ns, m);
      var r1 := Sweep(c, r, due[..m], ns[..m]);
      if r1.ok {
        SweepSkipsAccount(c, r, due[..m], ns[..m], due[m].account);
        RenewalPartsIff(c, r1, due[m].account, due[m].sub, ns[m]);
        CutRenewalFails(c, r1, due[m].account, due[m].sub, ns[m]);
      }
    }
  }

  lemma CutRenewalFails(c: Config, r: Ran, account: Id, s: Subscription, n: Renewal)
    requires r.ok
    ensures PartsRenewal(c, r, s, n) ==> !RenewOne(c, r, account, s, n).ok
  {
  }

  /** The step is cut between its two plan writes, and they differ. */
  ghost predicate Parts(c: Config, b: Books, step: Step, budget: nat)
    requires Enabled(b, step)
  {
    match step
    case CheckoutStep(_, _, _, _, _) => false
    case WebhookStep(ev, _) =>
      FirstSuccess(b, ev) && budget == 4
        && PlanOf(b, b.payments[FindPayment(b, ev.providerId).value].account) != Premium
    case CancelStep(_) => false
    case SweepStep(_, _, due, ns) => budget > 0 && !NoneParts(c, Spend(Ran(b, budget, true), false), due, ns)
  }

  /** Main result: account and subscription plan keep agreeing, exactly unless the step parts them. */
  lemma StepPartsIff(c: Config, b: Books, step: Step, budget: nat)
    requires Backed(b) && PlansAgree(b) && Enabled(b, step)
    ensures PlansAgree(Do(c, b, step, budget).books) <==> !Parts(c, b, step, budget)
  {
    var r := Ran(b, budget, true);
    match step
    case CheckoutStep(account, plan, period, paymentId, created) =>
      CheckoutKeepsPlans(r, account, plan, period, paymentId, created);
    case WebhookStep(ev, now) => WebhookPartsIff(c, b, ev, now, budget);
    case CancelStep(account) => CancelKeepsPlans(r, account);
    case SweepStep(now, limit, due, ns) =>
      assert forall i :: 0 <= i < |due| ==> due[i].account in DueSet(b, now);
      if budget > 0 {
        SweepPartsIff(c, Spend(r, false), due, ns);
      }
  }

  lemma CancelKeepsPlans(r: Ran, account: Id)
    requires PlansAgree(r.books)
    ensures PlansAgree(Cancel(r, account).books)
  {
    var d := Cancel(r, account).books;
    forall a ensures PlanOf(d, a) == SubPlan(d, a) {
      assert PlanOf(r.books, a) == SubPlan(r.books, a);
    }
  }

  // ----- Completed steps -----

  lemma CompletedWebhookKeepsPlans(c: Config, r: Ran, ev: Event, now: Time)
    requires PlansAgree(r.books) && HandleWebhook(c, r, ev, now).ok
    ensures PlansAgree(HandleWebhook(c, r, ev, now).books)
  {
    var found, d := FindPayment(r.books, ev.providerId), HandleWebhook(c, r, ev, now).books;
    var r1 := Spend(r, found.None?);
    if r1.ok && FirstSuccess(r.books, ev) {
      ActivateTouchesOneAccount(c, r1, found.value, ev, now);
      OneAccountParts(r.books, d, r.books.payments[found.value].account);
    } else {
      assert d.subs == r.books.subs && d.plans == r.books.plans;
      forall a ensures PlanOf(d, a) == SubPlan(d, a) {
        assert PlanOf(r.books, a) == SubPlan(r.books, a);
      }
    }
  }

  /** A step without a failing call keeps the plans in agreement. */
  lemma CompletedKeepsPlans(c: Config, b: Books, step: Step, budget: nat)
    requires PlansAgree(b) && Enabled(b, step) && Do(c, b, step, budget).ok
    ensures PlansAgree(Do(c, b, step, budget).books)
  {
    var r := Ran(b, budget, true);
    match step
    case CheckoutStep(account, plan, period, paymentId, created) =>
      CheckoutKeepsPlans(r, account, plan, period, paymentId, created);
    case WebhookStep(ev, now) => CompletedWebhookKeepsPlans(c, r, ev, now);
    case CancelStep(account) => CancelKeepsPlans(r, account);
    case SweepStep(now, limit, due, ns) =>
      EnabledSweepIsSweepable(b, step);
      SweepPartsIff(c, Spend(r, false), due, ns);
  }
}
