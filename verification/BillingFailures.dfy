/** Failed renewals over runs: what each leaves, and that the last one allowed ends in free. */
module BillingFailures {
  import opened Base
  import opened Ledger
  import opened Billing
  import opened BillingRuns
  import opened BillingLifecycle
  import opened BillingPlans
  import opened BillingDunning
  import opened BillingSwept

  /**
   In every run with checkouts from free, calls failing anywhere, as many counted failures since the last
   paid period as the limit allows mean a free subscription, and without failing calls a free account.
   */
  lemma LimitMeansFree(c: Config, run: seq<Timed>, a: Id)
    requires ValidConfig(c) && EnabledRun(c, NEW, run) && FromFree(c, NEW, run)
    ensures var b := Run(c, NEW, run);
            && |FailuresOf(b, a)| <= c.maxDunning
            && (|FailuresOf(b, a)| == c.maxDunning ==> SubPlan(b, a) == Free)
            && (|FailuresOf(b, a)| == c.maxDunning && Undisturbed(c, NEW, run) ==> PlanOf(b, a) == Free)
  {
    ReachableIsConsistent(c, run, a);
    assert Swept(NEW);
    RunKeepsSwept(c, NEW, run);
  }

  // ----- The account of one sweep -----

  /** A sweep leaves a listed subscription as its failed renewal does. */
  lemma {:induction false} SweepDunsListed(c: Config, r: Ran, due: seq<Due>, ns: seq<Renewal>, i: nat)
    requires |ns| == |due| && i < |due| && Sweep(c, r, due, ns).ok
    requires forall j, k :: 0 <= j < k < |due| ==> due[j].account != due[k].account
    requires due[i].account in r.books.subs
    requires !due[i].sub.cancelAtPeriodEnd && !ChargeSucceeds(due[i].sub, ns[i].charge)
    ensures var d := Sweep(c, r, due, ns).books;
            due[i].account in d.subs && d.subs[due[i].account] == Dunned(c, due[i].sub, ns[i].now)
  {
    var k := |due| - 1;
    var r1 := Sweep(c, r, due[..k], ns[..k]);
    if i == k {
      SweepSkipsOthers(c, r, due[..k], ns[..k], due[i].account);
      RenewalOutcome(c, r1, due[k].account, due[k].sub, ns[k]);
    } else {
      SweepDunsListed(c, r, due[..k], ns[..k], i);
      RenewalTouchesOneAccount(c, r1, due[k].account, due[k].sub, ns[k]);
    }
  }

  // ----- Runs in which an account's charges fail -----

  /** The step neither pays for the account nor is one of its own requests, and its charge, if any, fails. */
  ghost predicate FailsFor(b: Books, step: Step, account: Id) {
    match step
    case CheckoutStep(a, _, _, _, _) => a != account
    case WebhookStep(_, _) => !Pays(b, step, account)
    case CancelStep(a) => a != account
    case SweepStep(_, _, due, ns) =>
      |ns| == |due| && forall i :: 0 <= i < |due| && due[i].account == account ==>
        !ChargeSucceeds(due[i].sub, ns[i].charge)
  }

  ghost predicate KeepsFailing(c: Config, b: Books, run: seq<Timed>, account: Id)
    requires EnabledRun(c, b, run)
    decreases |run|
  {
    run == [] ||
    (FailsFor(b, run[0].step, account)
      && KeepsFailing(c, Do(c, b, run[0].step, run[0].budget).books, run[1..], account))
  }

  predicate Lists(step: Step, account: Id) {
    step.SweepStep? && account in Accounts(step.due)
  }

  /** How many sweeps of the run list the account. */
  function SweepsOf(run: seq<Timed>, account: Id): nat {
    if run == [] then 0 else (if Lists(run[0].step, account) then 1 else 0) + SweepsOf(run[1..], account)
  }

  /** After n failures: active, in grace, or canceled and free. */
  ghost predicate AfterFailures(c: Config, b: Books, account: Id, n: nat) {
    && account in b.subs && !b.subs[account].cancelAtPeriodEnd
    && b.subs[account].dunning == n <= c.maxDunning
    && (n == 0 ==> b.subs[account].status == Active)
    && (0 < n < c.maxDunning ==> b.subs[account].status == PastDue)
    && (if n < c.maxDunning then b.subs[account].plan == Premium && PlanOf(b, account) == Premium
        else b.subs[account].plan == Free && b.subs[account].status == Canceled && PlanOf(b, account) == Free)
  }

  lemma OthersLeaveFailures(c: Config, b: Books, step: Step, budget: nat, account: Id)
    requires Enabled(b, step) && FailsFor(b, step, account) && account in b.subs && !Lists(step, account)
    ensures OnlyOthers(b, Do(c, b, step, budget).books, account)
  {
    var r := Ran(b, budget, true);
    match step
    case CheckoutStep(a, plan, period, paymentId, created) =>
      CheckoutTouchesOneAccount(r, a, plan, period, paymentId, created);
    case WebhookStep(ev, now) => WebhookLeavesOthers(c, r, ev, now, account);
    case CancelStep(_) =>
    case SweepStep(now, limit, due, ns) =>
      forall i | 0 <= i < |due| ensures due[i].account != account {
        assert due[i].account in Accounts(due);
      }
      if budget > 0 {
        SweepSkipsOthers(c, Spend(r, false), due, ns, account);
      }
  }

  /** A completed sweep that lists the account counts one more failure. */
  lemma ListedFailsOnce(c: Config, b: Books, step: Step, budget: nat, account: Id, n: nat)
    requires ValidConfig(c) && Consistent(c, b) && Enabled(b, step) && FailsFor(b, step, account)
    requires Lists(step, account)
    requires Do(c, b, step, budget).ok && AfterFailures(c, b, account, n)
    ensures n < c.maxDunning && AfterFailures(c, Do(c, b, step, budget).books, account, n + 1)
  {
    var i :| 0 <= i < |step.due| && step.due[i].account == account;
    assert step.due[i].account in DueSet(b, step.sweepNow);
    SweepDunsListed(c, Spend(Ran(b, budget, true), false), step.due, step.renewals, i);
    StepKeepsConsistent(c, b, step, budget);
    assert AccountOk(c, Do(c, b, step, budget).books, account);
  }

  lemma {:induction false} FailingRun(c: Config, b: Books, run: seq<Timed>, account: Id, n: nat)
    requires ValidConfig(c) && Consistent(c, b) && AfterFailures(c, b, account, n)
    requires EnabledRun(c, b, run) && Undisturbed(c, b, run) && KeepsFailing(c, b, run, account)
    ensures AfterFailures(c, Run(c, b, run), account, n + SweepsOf(run, account))
    decreases |run|
  {
    if run != [] {
      var step, budget := run[0].step, run[0].budget;
      var d := Do(c, b, step, budget).books;
      StepKeepsConsistent(c, b, step, budget);
      if Lists(step, account) {
        ListedFailsOnce(c, b, step, budget, account, n);
        FailingRun(c, d, run[1..], account, n + 1);
      } else {
        OthersLeaveFailures(c, b, step, budget, account);
        FailingRun(c, d, run[1..], account, n);
      }
    }
  }

  /**
   Main result: in every run of completed steps, whatever other accounts do, in which all charges of an
   active premium account fail, at most maxDunning sweeps list it; before that many it is premium and in
   grace, and the last of them leaves it canceled and the account free.
   */
  lemma DunningEndsInFree(c: Config, b: Books, run: seq<Timed>, account: Id)
    requires ValidConfig(c) && Consistent(c, b) && account in b.subs
    requires b.subs[account].plan == Premium && b.subs[account].status == Active && !b.subs[account].cancelAtPeriodEnd
    requires EnabledRun(c, b, run) && Undisturbed(c, b, run) && KeepsFailing(c, b, run, account)
    ensures SweepsOf(run, account) <= c.maxDunning && AfterFailures(c, Run(c, b, run), account, SweepsOf(run, account))
  {
    assert AccountOk(c, b, account);
    FailingRun(c, b, run, account, 0);
  }
}
