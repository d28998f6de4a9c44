/**
 Status, counter and pace of dunning over every run of the billing service, whichever repository calls
 fail: each of these fields is written together with the others in a single call.
 */
module BillingLifecycle {
  import opened Base
  import opened Ledger
  import opened Billing
  import opened BillingRuns

  // ----- What is kept -----

  /** The lifecycle fields of a subscription agree with each other. */
  ghost predicate ConsistentSub(c: Config, s: Subscription) {
    && (s.status == Active ==> s.dunning == 0)
    && (s.status == PastDue ==> s.plan == Premium && 1 <= s.dunning < c.maxDunning)
    && (s.status == Canceled ==> s.plan == Free)
  }

  ghost predicate Spaced(times: seq<Time>, gap: int) {
    forall i :: 0 <= i < |times| - 1 ==> times[i + 1] - times[i] >= gap
  }

  /** The counter counts the failed charges since the last paid period, which keep their distance. */
  ghost predicate PacedSub(c: Config, failures: seq<Time>, s: Subscription) {
    && s.dunning == |failures| <= c.maxDunning
    && Spaced(failures, c.retryInterval)
    && (s.status == PastDue ==> failures != [] && s.periodEnd == Some(failures[|failures| - 1] + c.retryInterval))
  }

  ghost predicate SubOk(c: Config, b: Books, a: Id) {
    if a in b.subs then ConsistentSub(c, b.subs[a]) && PacedSub(c, FailuresOf(b, a), b.subs[a])
    else FailuresOf(b, a) == []
  }

  ghost predicate AllSubsOk(c: Config, b: Books) {
    forall a :: SubOk(c, b, a)
  }

  /** Nothing about the other accounts has changed. */
  ghost predicate OnlyAccount(b: Books, d: Books, a: Id) {
    forall x :: x != a ==>
      && (x in b.subs <==> x in d.subs)
      && (x in b.subs ==> d.subs[x] == b.subs[x])
      && PlanOf(d, x) == PlanOf(b, x)
      && FailuresOf(d, x) == FailuresOf(b, x)
  }

  lemma OneSubAtATime(c: Config, b: Books, d: Books, a: Id)
    requires AllSubsOk(c, b) && OnlyAccount(b, d, a) && SubOk(c, d, a)
    ensures AllSubsOk(c, d)
  {
    forall x ensures SubOk(c, d, x) {
      assert SubOk(c, b, x);
    }
  }

  // ----- One step, cut short anywhere -----

  lemma CheckoutTouchesOneAccount(
    r: Ran, a: Id, plan: Plan, period: BillingPeriod, paymentId: Id, created: Option<string>)
    ensures OnlyAccount(r.books, Checkout(r, a, plan, period, paymentId, created).books, a)
  {
  }

  lemma CheckoutKeepsSubs(
    c: Config, r: Ran, account: Id, plan: Plan, period: BillingPeriod, paymentId: Id, created: Option<string>)
    requires ValidConfig(c) && AllSubsOk(c, r.books)
    ensures AllSubsOk(c, Checkout(r, account, plan, period, paymentId, created).books)
  {
    var d := Checkout(r, account, plan, period, paymentId, created).books;
    CheckoutTouchesOneAccount(r, account, plan, period, paymentId, created);
    CheckoutKeepsCounter(r, account, plan, period, paymentId, created);
    assert SubOk(c, r.books, account);
    OneSubAtATime(c, r.books, d, account);
  }

  /** A Checkout leaves the row as it was, creates the default one, or makes it pending. */
  lemma CheckoutKeepsCounter(
    r: Ran, account: Id, plan: Plan, period: BillingPeriod, paymentId: Id, created: Option<string>)
    ensures var d := Checkout(r, account, plan, period, paymentId, created).books;
            && FailuresOf(d, account) == FailuresOf(r.books, account)
            && (account in d.subs ==>
                  var s := if account in r.books.subs then r.books.subs[account] else DEFAULT_SUBSCRIPTION;
                  d.subs[account] == s || d.subs[account] == s.(status := Pending, period := Some(period)))
            && (account in r.books.subs ==> account in d.subs)
  {
  }

  lemma CancelKeepsSubs(c: Config, r: Ran, account: Id)
    requires ValidConfig(c) && AllSubsOk(c, r.books)
    ensures AllSubsOk(c, Cancel(r, account).books)
  {
    assert SubOk(c, r.books, account);
    OneSubAtATime(c, r.books, Cancel(r, account).books, account);
  }

  /** The webhook reports the first success of a known payment. */
  ghost predicate FirstSuccess(b: Books, ev: Event) {
    var found := FindPayment(b, ev.providerId);
    found.Some? && b.payments[found.value].status != PaySucceeded && ev.status == PaySucceeded
  }

  lemma WebhookKeepsSubs(c: Config, r: Ran, ev: Event, now: Time)
    requires ValidConfig(c) && AllSubsOk(c, r.books)
    ensures AllSubsOk(c, HandleWebhook(c, r, ev, now).books)
  {
    var found := FindPayment(r.books, ev.providerId);
    var r1 := Spend(r, found.None?);
    if r1.ok && FirstSuccess(r.books, ev) {
      ActivateKeepsSubs(c, r1, found.value, ev, now);
    } else {
      var d := HandleWebhook(c, r, ev, now).books;
      assert d.subs == r.books.subs && d.failures == r.books.failures;
      forall x ensures SubOk(c, d, x) {
        assert SubOk(c, r.books, x);
      }
    }
  }

  lemma ActivateTouchesOneAccount(c: Config, r: Ran, pid: Id, ev: Event, now: Time)
    requires pid in r.books.payments
    ensures OnlyAccount(r.books, Activate(c, r, pid, ev, now).books, r.books.payments[pid].account)
  {
  }

  lemma ActivateKeepsSubs(c: Config, r: Ran, pid: Id, ev: Event, now: Time)
    requires ValidConfig(c) && AllSubsOk(c, r.books) && pid in r.books.payments
    ensures AllSubsOk(c, Activate(c, r, pid, ev, now).books)
  {
    var account := r.books.payments[pid].account;
    assert SubOk(c, r.books, account);
    ActivateTouchesOneAccount(c, r, pid, ev, now);
    OneSubAtATime(c, r.books, Activate(c, r, pid, ev, now).books, account);
  }

  lemma RenewalTouchesOneAccount(c: Config, r: Ran, account: Id, s: Subscription, n: Renewal)
    ensures OnlyAccount(r.books, RenewOne(c, r, account, s, n).books, account)
  {
    if !s.cancelAtPeriodEnd {
      var r1 := InsertPayment(r, n.paymentId, NewPayment(account, PeriodOr(s.period)));
      if r1.ok && ChargeSucceeds(s, n.charge) {
        PaidTouchesOneAccount(c, r1, account, s, n);
      } else if r1.ok {
        FailedTouchesOneAccount(c, r1, account, s, n);
      }
    }
  }

  lemma PaidTouchesOneAccount(c: Config, r: Ran, account: Id, s: Subscription, n: Renewal)
    requires n.charge.Charged?
    ensures OnlyAccount(r.books, Paid(c, r, account, s, n).books, account)
  {
  }

  lemma FailedTouchesOneAccount(c: Config, r: Ran, account: Id, s: Subscription, n: Renewal)
    ensures OnlyAccount(r.books, Failed(c, r, account, s, n).books, account)
  {
  }

  // ----- Renewals -----

  /** The row a completed renewal writes. */
  function RowAfter(c: Config, s: Subscription, n: Renewal): Subscription {
    if s.cancelAtPeriodEnd then Downgraded(s)
    else if ChargeSucceeds(s, n.charge) then Renewed(c, s, n.now)
    else Dunned(c, s, n.now)
  }

  /** The failed charges since the last paid period, after a completed renewal. */
  function FailuresAfter(failures: seq<Time>, s: Subscription, n: Renewal): seq<Time> {
    if s.cancelAtPeriodEnd then failures
    else if ChargeSucceeds(s, n.charge) then []
    else failures + [n.now]
  }

  /** The row and its failures are both as before, or both as after the completed renewal. */
  ghost predicate AllOrNothing(c: Config, b: Books, d: Books, account: Id, s: Subscription, n: Renewal) {
    && (account in b.subs <==> account in d.subs)
    && (account in d.subs ==>
          || (d.subs[account] == b.subs[account] && FailuresOf(d, account) == FailuresOf(b, account))
          || (&& d.subs[account] == RowAfter(c, s, n)
              && FailuresOf(d, account) == FailuresAfter(FailuresOf(b, account), s, n)))
  }

  lemma PaidAllOrNothing(c: Config, r: Ran, account: Id, s: Subscription, n: Renewal)
    requires !s.cancelAtPeriodEnd && ChargeSucceeds(s, n.charge)
    ensures AllOrNothing(c, r.books, Paid(c, r, account, s, n).books, account, s, n)
  {
  }

  lemma FailedAllOrNothing(c: Config, r: Ran, account: Id, s: Subscription, n: Renewal)
    requires !s.cancelAtPeriodEnd && !ChargeSucceeds(s, n.charge)
    ensures AllOrNothing(c, r.books, Failed(c, r, account, s, n).books, account, s, n)
  {
  }

  lemma RenewalAllOrNothing(c: Config, r: Ran, account: Id, s: Subscription, n: Renewal)
    ensures AllOrNothing(c, r.books, RenewOne(c, r, account, s, n).books, account, s, n)
  {
    if !s.cancelAtPeriodEnd {
      var r1 := InsertPayment(r, n.paymentId, NewPayment(account, PeriodOr(s.period)));
      if ChargeSucceeds(s, n.charge) {
        PaidAllOrNothing(c, r1, account, s, n);
      } else {
        FailedAllOrNothing(c, r1, account, s, n);
      }
    }
  }

  lemma FailureKeepsDistance(c: Config, failures: seq<Time>, s: Subscription, sweepNow: Time, now: Time)
    requires PacedSub(c, failures, s) && DueSub(s, sweepNow) && sweepNow <= now
    requires s.status == Active ==> s.dunning == 0
    ensures Spaced(failures + [now], c.retryInterval)
  {
    var next := failures + [now];
    forall i | 0 <= i < |next| - 1 ensures next[i + 1] - next[i] >= c.retryInterval {
      if i < |failures| - 1 {
        assert next[i + 1] == failures[i + 1] && next[i] == failures[i];
      }
    }
  }

  /** What a completed renewal writes is consistent and paced, if the row was and is due. */
  lemma RowAfterIsOk(c: Config, failures: seq<Time>, s: Subscription, sweepNow: Time, n: Renewal)
    requires ValidConfig(c) && ConsistentSub(c, s) && PacedSub(c, failures, s)
    requires DueSub(s, sweepNow) && sweepNow <= n.now
    ensures ConsistentSub(c, RowAfter(c, s, n)) && PacedSub(c, FailuresAfter(failures, s, n), RowAfter(c, s, n))
  {
    FailureKeepsDistance(c, failures, s, sweepNow, n.now);
  }

  lemma RenewalKeepsSubs(c: Config, r: Ran, account: Id, s: Subscription, sweepNow: Time, n: Renewal)
    requires ValidConfig(c) && AllSubsOk(c, r.books)
    requires account in r.books.subs && s == r.books.subs[account] && DueSub(s, sweepNow) && sweepNow <= n.now
    ensures AllSubsOk(c, RenewOne(c, r, account, s, n).books)
  {
    assert SubOk(c, r.books, account);
    RenewalTouchesOneAccount(c, r, account, s, n);
    RenewalAllOrNothing(c, r, account, s, n);
    RowAfterIsOk(c, FailuresOf(r.books, account), s, sweepNow, n);
    OneSubAtATime(c, r.books, RenewOne(c, r, account, s, n).books, account);
  }

  /** The due rows of a listing that a sweep can work through. */
  ghost predicate Sweepable(b: Books, sweepNow: Time, due: seq<Due>, ns: seq<Renewal>) {
    && |ns| == |due|
    && (forall i :: 0 <= i < |due| ==>
          due[i].account in b.subs && due[i].sub == b.subs[due[i].account] && DueSub(due[i].sub, sweepNow) &&
          sweepNow <= ns[i].now)
    && (forall i, j :: 0 <= i < j < |due| ==> due[i].account != due[j].account)
  }

  lemma EnabledSweepIsSweepable(b: Books, step: Step)
    requires step.SweepStep? && Enabled(b, step)
    ensures Sweepable(b, step.sweepNow, step.due, step.renewals)
  {
    assert forall i :: 0 <= i < |step.due| ==> step.due[i].account in DueSet(b, step.sweepNow);
  }

  lemma {:induction false} SweepSkipsAccount(c: Config, r: Ran, due: seq<Due>, ns: seq<Renewal>, a: Id)
    requires |ns| == |due| && forall i :: 0 <= i < |due| ==> due[i].account != a
    ensures var d := Sweep(c, r, due, ns).books;
            && (a in r.books.subs <==> a in d.subs) && (a in r.books.subs ==> d.subs[a] == r.books.subs[a])
            && PlanOf(d, a) == PlanOf(r.books, a) && FailuresOf(d, a) == FailuresOf(r.books, a)
  {
    if due != [] {
      var k := |due| - 1;
      SweepSkipsAccount(c, r, due[..k], ns[..k], a);
      RenewalTouchesOneAccount(c, Sweep(c, r, due[..k], ns[..k]), due[k].account, due[k].sub, ns[k]);
    }
  }

  lemma {:induction false} SweepKeepsSubs(c: Config, r: Ran, sweepNow: Time, due: seq<Due>, ns: seq<Renewal>)
    requires ValidConfig(c) && AllSubsOk(c, r.books) && Sweepable(r.books, sweepNow, due, ns)
    ensures AllSubsOk(c, Sweep(c, r, due, ns).books)
  {
    if due != [] {
      var k := |due| - 1;
      var r1 := Sweep(c, r, due[..k], ns[..k]);
      SweepKeepsSubs(c, r, sweepNow, due[..k], ns[..k]);
      if r1.ok {
        SweepSkipsAccount(c, r, due[..k], ns[..k], due[k].account);
        RenewalKeepsSubs(c, r1, due[k].account, due[k].sub, sweepNow, ns[k]);
      }
    }
  }

  // ----- Runs -----

  lemma StepKeepsSubs(c: Config, b: Books, step: Step, budget: nat)
    requires ValidConfig(c) && AllSubsOk(c, b) && Enabled(b, step)
    ensures AllSubsOk(c, Do(c, b, step, budget).books)
  {
    var r := Ran(b, budget, true);
    match step
    case CheckoutStep(account, plan, period, paymentId, created) =>
      CheckoutKeepsSubs(c, r, account, plan, period, paymentId, created);
    case WebhookStep(ev, now) => WebhookKeepsSubs(c, r, ev, now);
    case CancelStep(account) => CancelKeepsSubs(c, r, account);
    case SweepStep(now, limit, due, ns) =>
      EnabledSweepIsSweepable(b, step);
      if budget > 0 {
        SweepKeepsSubs(c, Spend(r, false), now, due, ns);
      }
  }

  lemma {:induction false} RunKeepsSubs(c: Config, b: Books, run: seq<Timed>)
    requires ValidConfig(c) && AllSubsOk(c, b) && EnabledRun(c, b, run)
    ensures AllSubsOk(c, Run(c, b, run))
    decreases |run|
  {
    if run != [] {
      StepKeepsSubs(c, b, run[0].step, run[0].budget);
      RunKeepsSubs(c, Do(c, b, run[0].step, run[0].budget).books, run[1..]);
    }
  }

  /**
   Main result: in every run, calls failing anywhere, active means no failed attempt, past due means
   premium within the limit, canceled means free, the counter is the number of counted failures and at
   most the limit, and these are at least the retry interval apart.
   */
  lemma ReachableSubIsOk(c: Config, run: seq<Timed>, a: Id)
    requires ValidConfig(c) && EnabledRun(c, NEW, run)
    ensures SubOk(c, Run(c, NEW, run), a)
  {
    assert AllSubsOk(c, NEW);
    RunKeepsSubs(c, NEW, run);
  }
}
