/** A cancelled subscription is never charged again: it runs to its period end and becomes free. */
module BillingCancel {
  import opened Base
  import opened Ledger
  import opened Billing
  import opened BillingRuns
  import opened BillingLifecycle
  import opened BillingSwept

  ghost predicate Cancelled(b: Books, account: Id) {
    account in b.subs && b.subs[account].cancelAtPeriodEnd
  }

  // ----- The cancellation itself -----

  /** Payments, plans, grants and failures are as before, and so are all subscriptions but one. */
  ghost predicate OnlySub(b: Books, d: Books, account: Id) {
    && d.payments == b.payments && d.plans == b.plans && d.granted == b.granted && d.failures == b.failures
    && d.subs.Keys == b.subs.Keys + {account}
    && forall a :: a in b.subs && a != account ==> d.subs[a] == b.subs[a]
  }

  /** A cancellation takes two calls, and marks the row or the default one; nothing else changes. */
  lemma CancelMarks(c: Config, b: Books, account: Id, budget: nat)
    ensures var u := Do(c, b, CancelStep(account), budget);
            && (u.ok <==> budget >= 2)
            && (u.ok ==>
                  && OnlySub(b, u.books, account)
                  && u.books.subs[account] ==
                     (if account in b.subs then b.subs[account] else DEFAULT_SUBSCRIPTION).(cancelAtPeriodEnd := true))
            && (!u.ok ==>
                  u.books == b || (account !in b.subs && OnlySub(b, u.books, account)
                                   && u.books.subs[account] == DEFAULT_SUBSCRIPTION))
  {
  }

  // ----- No charge -----

  /** The account's payments are the same. */
  ghost predicate SamePayments(b: Books, d: Books, account: Id) {
    && b.payments.Keys <= d.payments.Keys
    && (forall p :: p in b.payments && b.payments[p].account == account ==> d.payments[p] == b.payments[p])
    && forall p :: p in d.payments && d.payments[p].account == account ==>
         p in b.payments && b.payments[p].account == account
  }

  /** A renewal touches the payments of its own account only, and none at all if the row is cancelled. */
  lemma RenewalCharges(c: Config, r: Ran, account: Id, s: Subscription, n: Renewal, other: Id)
    requires account == other ==> s.cancelAtPeriodEnd
    ensures SamePayments(r.books, RenewOne(c, r, account, s, n).books, other)
  {
    if !s.cancelAtPeriodEnd {
      var r1 := InsertPayment(r, n.paymentId, NewPayment(account, PeriodOr(s.period)));
      if r1.ok && ChargeSucceeds(s, n.charge) {
        PaidCharges(c, r1, account, s, n, other);
      } else if r1.ok {
        FailedCharges(c, r1, account, s, n, other);
      }
    }
  }

  lemma PaidCharges(c: Config, r: Ran, account: Id, s: Subscription, n: Renewal, other: Id)
    requires n.charge.Charged? && n.paymentId in r.books.payments && r.books.payments[n.paymentId].account == account
    requires account != other
    ensures SamePayments(r.books, Paid(c, r, account, s, n).books, other)
  {
  }

  lemma FailedCharges(c: Config, r: Ran, account: Id, s: Subscription, n: Renewal, other: Id)
    requires n.paymentId in r.books.payments && r.books.payments[n.paymentId].account == account && account != other
    ensures SamePayments(r.books, Failed(c, r, account, s, n).books, other)
  {
  }

  lemma {:induction false} SweepCharges(c: Config, r: Ran, due: seq<Due>, ns: seq<Renewal>, account: Id)
    requires |ns| == |due|
    requires forall i :: 0 <= i < |due| && due[i].account == account ==> due[i].sub.cancelAtPeriodEnd
    ensures SamePayments(r.books, Sweep(c, r, due, ns).books, account)
  {
    if due != [] {
      var k := |due| - 1;
      SweepCharges(c, r, due[..k], ns[..k], account);
      RenewalCharges(c, Sweep(c, r, due[..k], ns[..k]), due[k].account, due[k].sub, ns[k], account);
    }
  }

  // ----- The last sweep -----

  ghost predicate IsFree(b: Books, account: Id) {
    account in b.subs && b.subs[account].plan == Free && PlanOf(b, account) == Free
  }

  /** A sweep that lists the cancelled row leaves it cancelled, and free if it completes. */
  lemma {:induction false} SweepEnds(c: Config, r: Ran, due: seq<Due>, ns: seq<Renewal>, i: nat)
    requires |ns| == |due| && i < |due| && due[i].account in r.books.subs && due[i].sub.cancelAtPeriodEnd
    requires r.books.subs[due[i].account].cancelAtPeriodEnd
    requires forall j, k :: 0 <= j < k < |due| ==> due[j].account != due[k].account
    ensures Cancelled(Sweep(c, r, due, ns).books, due[i].account)
    ensures Sweep(c, r, due, ns).ok ==> IsFree(Sweep(c, r, due, ns).books, due[i].account)
  {
    var k := |due| - 1;
    var r1 := Sweep(c, r, due[..k], ns[..k]);
    if i < k {
      assert due[..k][i] == due[i];
      SweepEnds(c, r, due[..k], ns[..k], i);
      OtherRenewalKeeps(c, r1, due[k].account, due[k].sub, ns[k], due[i].account);
    } else {
      SweepSkipsAccount(c, r, due[..k], ns[..k], due[i].account);
      RenewalEnds(c, r1, due[k].account, due[k].sub, ns[k]);
    }
    LastOfSweep(c, r, due, ns, due[i].account);
  }

  /** The last renewal of a sweep happens if the others went through. */
  lemma LastOfSweep(c: Config, r: Ran, due: seq<Due>, ns: seq<Renewal>, account: Id)
    requires |ns| == |due| > 0
    ensures var k := |due| - 1;
            var r1 := Sweep(c, r, due[..k], ns[..k]);
            Sweep(c, r, due, ns) == if r1.ok then RenewOne(c, r1, due[k].account, due[k].sub, ns[k]) else r1
  {
  }

  lemma RenewalEnds(c: Config, r: Ran, account: Id, s: Subscription, n: Renewal)
    requires Cancelled(r.books, account) && s.cancelAtPeriodEnd
    ensures Cancelled(RenewOne(c, r, account, s, n).books, account)
    ensures RenewOne(c, r, account, s, n).ok ==> IsFree(RenewOne(c, r, account, s, n).books, account)
  {
  }

  lemma OtherRenewalKeeps(c: Config, r: Ran, account: Id, s: Subscription, n: Renewal, other: Id)
    requires account != other
    ensures var d := RenewOne(c, r, account, s, n).books;
            && (Cancelled(r.books, other) ==> Cancelled(d, other)) && (IsFree(r.books, other) ==> IsFree(d, other))
    ensures RenewOne(c, r, account, s, n).ok ==> r.ok
  {
    RenewalTouchesOneAccount(c, r, account, s, n);
  }

  /** The sweep lists the account. */
  ghost predicate Lists(step: Step, account: Id) {
    step.SweepStep? && account in Accounts(step.due)
  }

  ghost predicate SameTerms(b: Books, d: Books, account: Id) {
    && account in b.subs && account in d.subs
    && d.subs[account].plan == b.subs[account].plan && d.subs[account].periodEnd == b.subs[account].periodEnd
    && PlanOf(d, account) == PlanOf(b, account)
  }

  /** No sweep lists it before its period end. */
  lemma NotListedBefore(b: Books, step: Step, account: Id)
    requires Enabled(b, step) && Lists(step, account)
    ensures account in b.subs && b.subs[account].periodEnd.Some?
    ensures b.subs[account].plan == Premium && b.subs[account].periodEnd.value <= step.sweepNow
  {
    var i :| 0 <= i < |step.due| && step.due[i].account == account;
    assert step.due[i].account in DueSet(b, step.sweepNow);
  }

  lemma CheckoutKeepsTerms(
    r: Ran, a: Id, plan: Plan, period: BillingPeriod, paymentId: Id, created: Option<string>, account: Id)
    requires account in r.books.subs
    ensures var d := Checkout(r, a, plan, period, paymentId, created).books;
            SameTerms(r.books, d, account) && (Cancelled(r.books, account) ==> Cancelled(d, account))
  {
  }

  /** One step that does not pay for the account. */
  lemma StepKeepsCancelled(c: Config, b: Books, step: Step, budget: nat, account: Id)
    requires Enabled(b, step) && Cancelled(b, account) && !Pays(b, step, account)
    ensures var u := Do(c, b, step, budget);
            && Cancelled(u.books, account)
            && (!Lists(step, account) ==> SameTerms(b, u.books, account))
            && (step.SweepStep? ==> SamePayments(b, u.books, account))
            && (Lists(step, account) && u.ok ==> IsFree(u.books, account))
  {
    var r := Ran(b, budget, true);
    match step
    case CheckoutStep(a, plan, period, paymentId, created) =>
      CheckoutKeepsTerms(r, a, plan, period, paymentId, created, account);
    case WebhookStep(ev, now) => WebhookLeavesOthers(c, r, ev, now, account);
    case CancelStep(a) => CancelMarks(c, b, a, budget);
    case SweepStep(now, limit, due, ns) =>
      assert forall i :: 0 <= i < |due| ==> due[i].sub == b.subs[due[i].account];
      if budget > 0 {
        SweepCharges(c, Spend(r, false), due, ns, account);
        if account in Accounts(due) {
          var i :| 0 <= i < |due| && due[i].account == account;
          SweepEnds(c, Spend(r, false), due, ns, i);
        } else {
          SweepSkipsOthers(c, Spend(r, false), due, ns, account);
        }
      }
  }

  /** Free stays free while no payment of the account succeeds: nothing else makes it premium. */
  lemma StepKeepsFree(c: Config, b: Books, step: Step, budget: nat, account: Id)
    requires Enabled(b, step) && IsFree(b, account) && !Pays(b, step, account)
    ensures IsFree(Do(c, b, step, budget).books, account)
  {
    var r := Ran(b, budget, true);
    match step
    case CheckoutStep(a, plan, period, paymentId, created) =>
      CheckoutKeepsTerms(r, a, plan, period, paymentId, created, account);
    case WebhookStep(ev, now) => WebhookLeavesOthers(c, r, ev, now, account);
    case CancelStep(a) => CancelMarks(c, b, a, budget);
    case SweepStep(now, limit, due, ns) =>
      assert forall i :: 0 <= i < |due| ==> due[i].account in DueSet(b, now);
      if budget > 0 {
        SweepSkipsOthers(c, Spend(r, false), due, ns, account);
      }
  }

  // ----- Runs -----

  /** No sweep of the run creates or changes a payment of the account. */
  ghost predicate Uncharged(c: Config, b: Books, run: seq<Timed>, account: Id)
    requires EnabledRun(c, b, run)
    decreases |run|
  {
    run == [] ||
    (var d := Do(c, b, run[0].step, run[0].budget).books;
     && (run[0].step.SweepStep? ==> SamePayments(b, d, account)) && Uncharged(c, d, run[1..], account))
  }

  ghost predicate Unlisted(run: seq<Timed>, account: Id) {
    forall k :: 0 <= k < |run| ==> !Lists(run[k].step, account)
  }

  /**
   Main result: from a cancelled subscription on, calls failing anywhere, and until a payment of the account
   succeeds, no sweep charges it; and until a sweep lists it its plan and period end stay.
   */
  lemma {:induction false} CancelledIsNeverCharged(c: Config, b: Books, run: seq<Timed>, account: Id)
    requires Cancelled(b, account) && EnabledRun(c, b, run) && Unpaid(c, b, run, account)
    ensures Cancelled(Run(c, b, run), account) && Uncharged(c, b, run, account)
    ensures Unlisted(run, account) ==> SameTerms(b, Run(c, b, run), account)
    decreases |run|
  {
    if run != [] {
      StepKeepsCancelled(c, b, run[0].step, run[0].budget, account);
      CancelledIsNeverCharged(c, Do(c, b, run[0].step, run[0].budget).books, run[1..], account);
      if Unlisted(run, account) {
        assert !Lists(run[0].step, account);
        forall k | 0 <= k < |run[1..]| ensures !Lists(run[1..][k].step, account) {
          assert run[1..][k] == run[k + 1];
        }
      }
    }
  }

  lemma {:induction false} RunKeepsFree(c: Config, b: Books, run: seq<Timed>, account: Id)
    requires IsFree(b, account) && EnabledRun(c, b, run) && Unpaid(c, b, run, account)
    ensures IsFree(Run(c, b, run), account)
    decreases |run|
  {
    if run != [] {
      StepKeepsFree(c, b, run[0].step, run[0].budget, account);
      RunKeepsFree(c, Do(c, b, run[0].step, run[0].budget).books, run[1..], account);
    }
  }

  /**
   Main result, over runs: Cancel, then any steps until a completed sweep lists the account, then any steps,
   no payment of the account succeeding: plan and period end stay up to that sweep, which happens at or after
   the period end and leaves subscription and account free; free they stay, and no sweep charges the account.
   */
  lemma CancelRunsOut(
    c: Config, b: Books, account: Id, budget: nat, before: seq<Timed>, last: Timed, after: seq<Timed>)
    requires Do(c, b, CancelStep(account), budget).ok
    requires var d := Do(c, b, CancelStep(account), budget).books;
             EnabledRun(c, d, before) && Unpaid(c, d, before, account) && Unlisted(before, account)
    requires var e := Run(c, Do(c, b, CancelStep(account), budget).books, before);
             && Enabled(e, last.step) && Lists(last.step, account) && Do(c, e, last.step, last.budget).ok
             && EnabledRun(c, Do(c, e, last.step, last.budget).books, after)
             && Unpaid(c, Do(c, e, last.step, last.budget).books, after, account)
    ensures var d := Do(c, b, CancelStep(account), budget).books;
            var e := Run(c, d, before);
            var f := Do(c, e, last.step, last.budget).books;
            && SameTerms(d, e, account) && Uncharged(c, d, before, account)
            && e.subs[account].periodEnd.Some? && e.subs[account].periodEnd.value <= last.step.sweepNow
            && SamePayments(e, f, account) && IsFree(f, account)
            && IsFree(Run(c, f, after), account) && Uncharged(c, f, after, account)
  {
    CancelMarks(c, b, account, budget);
    var d := Do(c, b, CancelStep(account), budget).books;
    CancelledIsNeverCharged(c, d, before, account);
    var e := Run(c, d, before);
    NotListedBefore(e, last.step, account);
    StepKeepsCancelled(c, e, last.step, last.budget, account);
    var f := Do(c, e, last.step, last.budget).books;
    RunKeepsFree(c, f, after, account);
    CancelledIsNeverCharged(c, f, after, account);
  }
}
