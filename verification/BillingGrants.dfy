/** What the recorded grants mean for the fields: premium was paid for, and period ends move for a cause. */
module BillingGrants {
  import opened Base
  import opened Ledger
  import opened Billing
  import opened BillingRuns
  import opened BillingLifecycle
  import opened BillingPlans

  // ----- Premium was paid for -----

  /** A period has been granted for one of the account's payments. */
  ghost predicate HasGrant(b: Books, a: Id) {
    exists p :: p in b.granted && p in b.payments && b.payments[p].account == a
  }

  predicate IsPremium(b: Books, a: Id) {
    SubPlan(b, a) == Premium || PlanOf(b, a) == Premium
  }

  /** Neither a subscription nor an account is premium without a granted payment. */
  ghost predicate PaidFor(b: Books) {
    forall a :: IsPremium(b, a) ==> HasGrant(b, a)
  }

  lemma GrantsStay(b: Books, d: Books, a: Id)
    requires Extends(b, d) && HasGrant(b, a)
    ensures HasGrant(d, a)
  {
    var p :| p in b.granted && p in b.payments && b.payments[p].account == a;
    assert p in d.granted;
  }

  /** Who is premium afterwards was premium before, or has been granted a period. */
  ghost predicate GainsByGrant(b: Books, d: Books) {
    forall a :: IsPremium(d, a) ==> IsPremium(b, a) || HasGrant(d, a)
  }

  lemma OnlyOneGains(b: Books, d: Books, account: Id)
    requires OnlyAccount(b, d, account)
    requires IsPremium(d, account) ==> IsPremium(b, account) || HasGrant(d, account)
    ensures GainsByGrant(b, d)
  {
    forall a | IsPremium(d, a) ensures IsPremium(b, a) || HasGrant(d, a) {
    }
  }

  lemma ActivationGains(c: Config, r: Ran, id: Id, ev: Event, now: Time)
    requires Backed(r.books) && id in r.books.payments && r.books.payments[id].status != PaySucceeded
    ensures GainsByGrant(r.books, Activate(c, r, id, ev, now).books)
  {
    var account, d := r.books.payments[id].account, Activate(c, r, id, ev, now).books;
    ActivateTouchesOneAccount(c, r, id, ev, now);
    ActivateIsSafe(c, r, id, ev, now);
    if IsPremium(d, account) && !IsPremium(r.books, account) {
      assert id in d.granted && id in d.payments && d.payments[id].account == account;
    }
    OnlyOneGains(r.books, d, account);
  }

  lemma WebhookGains(c: Config, r: Ran, ev: Event, now: Time)
    requires Backed(r.books)
    ensures GainsByGrant(r.books, HandleWebhook(c, r, ev, now).books)
  {
    var found := FindPayment(r.books, ev.providerId);
    var r1 := Spend(r, found.None?);
    if r1.ok && FirstSuccess(r.books, ev) {
      ActivationGains(c, r1, found.value, ev, now);
    } else {
      var d := HandleWebhook(c, r, ev, now).books;
      assert d.subs == r.books.subs && d.plans == r.books.plans;
      forall a | IsPremium(d, a) ensures IsPremium(r.books, a) {
      }
    }
  }

  lemma CheckoutGains(r: Ran, account: Id, plan: Plan, period: BillingPeriod, paymentId: Id, created: Option<string>)
    ensures GainsByGrant(r.books, Checkout(r, account, plan, period, paymentId, created).books)
  {
    CheckoutTouchesOneAccount(r, account, plan, period, paymentId, created);
    CheckoutLeavesItsPlan(r, account, plan, period, paymentId, created);
    OnlyOneGains(r.books, Checkout(r, account, plan, period, paymentId, created).books, account);
  }

  lemma CancelGains(r: Ran, account: Id)
    ensures GainsByGrant(r.books, Cancel(r, account).books)
  {
    forall a | IsPremium(Cancel(r, account).books, a) ensures IsPremium(r.books, a) {
    }
  }

  /** A sweep makes nobody premium who was not: it only renews premium subscriptions. */
  lemma {:induction false} SweepGains(c: Config, r: Ran, due: seq<Due>, ns: seq<Renewal>)
    requires |ns| == |due|
    requires forall i :: 0 <= i < |due| ==> IsPremium(r.books, due[i].account)
    ensures forall a :: IsPremium(Sweep(c, r, due, ns).books, a) ==> IsPremium(r.books, a)
  {
    if due != [] {
      var k := |due| - 1;
      SweepGains(c, r, due[..k], ns[..k]);
      var r1 := Sweep(c, r, due[..k], ns[..k]);
      if r1.ok {
        RenewalTouchesOneAccount(c, r1, due[k].account, due[k].sub, ns[k]);
        var d := RenewOne(c, r1, due[k].account, due[k].sub, ns[k]).books;
        forall a | IsPremium(d, a) ensures IsPremium(r.books, a) {
          assert a != due[k].account ==> IsPremium(r1.books, a);
        }
      }
    }
  }

  lemma StepKeepsPaidFor(c: Config, b: Books, step: Step, budget: nat)
    requires Backed(b) && PaidFor(b) && Enabled(b, step)
    ensures PaidFor(Do(c, b, step, budget).books)
  {
    var r, d := Ran(b, budget, true), Do(c, b, step, budget).books;
    assert GainsByGrant(b, d) by {
      match step
      case CheckoutStep(account, plan, period, paymentId, created) =>
        CheckoutGains(r, account, plan, period, paymentId, created);
      case WebhookStep(ev, now) => WebhookGains(c, r, ev, now);
      case CancelStep(account) => CancelGains(r, account);
      case SweepStep(now, limit, due, ns) =>
        forall i | 0 <= i < |due| ensures IsPremium(b, due[i].account) {
          assert due[i].account in DueSet(b, now);
        }
        if budget > 0 {
          SweepGains(c, Spend(r, false), due, ns);
        }
    }
    StepIsSafe(c, b, step, budget);
    forall a | IsPremium(d, a) ensures HasGrant(d, a) {
      if !HasGrant(d, a) {
        GrantsStay(b, d, a);
      }
    }
  }

  lemma {:induction false} RunKeepsPaidFor(c: Config, b: Books, run: seq<Timed>)
    requires Backed(b) && PaidFor(b) && EnabledRun(c, b, run)
    ensures PaidFor(Run(c, b, run))
    decreases |run|
  {
    if run != [] {
      StepKeepsPaidFor(c, b, run[0].step, run[0].budget);
      StepIsSafe(c, b, run[0].step, run[0].budget);
      RunKeepsPaidFor(c, Do(c, b, run[0].step, run[0].budget).books, run[1..]);
    }
  }

  /** Main result: in every run, calls failing anywhere, premium means that a succeeded payment was granted. */
  lemma PremiumIsPaidFor(c: Config, run: seq<Timed>, a: Id)
    requires EnabledRun(c, NEW, run) && IsPremium(Run(c, NEW, run), a)
    ensures exists p :: p in SucceededOf(Run(c, NEW, run), a) && p in Run(c, NEW, run).granted
  {
    assert Backed(NEW) && PaidFor(NEW);
    RunKeepsPaidFor(c, NEW, run);
    RunIsSafe(c, NEW, run);
    var b := Run(c, NEW, run);
    var p :| p in b.granted && p in b.payments && b.payments[p].account == a;
    assert p in SucceededOf(b, a);
  }

  // ----- Period ends move for a cause -----

  ghost predicate NewGrant(b: Books, d: Books, a: Id) {
    exists p :: p in d.granted && p !in b.granted && p in d.payments && d.payments[p].account == a
  }

  /** The period end is as before, or a period was granted, or one more failure was counted. */
  ghost predicate MovesForCause(b: Books, d: Books, a: Id) {
    a in b.subs ==>
      && a in d.subs
      && (d.subs[a].periodEnd == b.subs[a].periodEnd || NewGrant(b, d, a)
        || |FailuresOf(d, a)| == |FailuresOf(b, a)| + 1)
  }

  lemma WebhookMoves(c: Config, r: Ran, ev: Event, now: Time, a: Id)
    requires Backed(r.books)
    ensures MovesForCause(r.books, HandleWebhook(c, r, ev, now).books, a)
  {
    var found, d := FindPayment(r.books, ev.providerId), HandleWebhook(c, r, ev, now).books;
    var r1 := Spend(r, found.None?);
    if r1.ok && FirstSuccess(r.books, ev) {
      ActivationMoves(c, r1, found.value, ev, now, a);
    } else {
      assert d.subs == r.books.subs;
    }
  }

  lemma ActivationMoves(c: Config, r: Ran, id: Id, ev: Event, now: Time, a: Id)
    requires Backed(r.books) && id in r.books.payments && r.books.payments[id].status != PaySucceeded
    ensures MovesForCause(r.books, Activate(c, r, id, ev, now).books, a)
  {
    var account, d := r.books.payments[id].account, Activate(c, r, id, ev, now).books;
    ActivateTouchesOneAccount(c, r, id, ev, now);
    assert id !in r.books.granted;
    if a == account && a in r.books.subs && d.subs[a] != r.books.subs[a] {
      assert id in d.granted && id in d.payments && d.payments[id].account == a;
    }
  }

  lemma CheckoutMoves(
    r: Ran, account: Id, plan: Plan, period: BillingPeriod, paymentId: Id, created: Option<string>, a: Id)
    ensures MovesForCause(r.books, Checkout(r, account, plan, period, paymentId, created).books, a)
  {
    CheckoutTouchesOneAccount(r, account, plan, period, paymentId, created);
  }

  lemma RenewalMoves(c: Config, r: Ran, account: Id, s: Subscription, n: Renewal)
    requires Backed(r.books) && account in r.books.subs && s == r.books.subs[account]
    ensures MovesForCause(r.books, RenewOne(c, r, account, s, n).books, account)
  {
    if !s.cancelAtPeriodEnd {
      var r1 := InsertPayment(r, n.paymentId, NewPayment(account, PeriodOr(s.period)));
      if r1.ok && ChargeSucceeds(s, n.charge) {
        PaidMoves(c, r1, account, s, n);
        var d := Paid(c, r1, account, s, n).books;
        if NewGrant(r1.books, d, account) {
          assert NewGrant(r.books, d, account);
        }
      } else if r1.ok {
        FailedMoves(c, r1, account, s, n);
      }
    }
  }

  lemma PaidMoves(c: Config, r: Ran, account: Id, s: Subscription, n: Renewal)
    requires n.charge.Charged? && account in r.books.subs && s == r.books.subs[account]
    requires n.paymentId in r.books.payments && n.paymentId !in r.books.granted
    requires r.books.payments[n.paymentId].account == account
    ensures MovesForCause(r.books, Paid(c, r, account, s, n).books, account)
  {
    var d := Paid(c, r, account, s, n).books;
    if d.subs[account] != s {
      assert n.paymentId in d.granted && d.payments[n.paymentId].account == account;
    }
  }

  lemma FailedMoves(c: Config, r: Ran, account: Id, s: Subscription, n: Renewal)
    requires account in r.books.subs && s == r.books.subs[account]
    ensures MovesForCause(r.books, Failed(c, r, account, s, n).books, account)
  {
  }

  /** The two books say the same about one account. */
  ghost predicate SameFor(b: Books, d: Books, a: Id) {
    (a in b.subs <==> a in d.subs) && (a in b.subs ==> d.subs[a] == b.subs[a]) && FailuresOf(d, a) == FailuresOf(b, a)
  }

  lemma {:induction false} SweepKeepsSame(c: Config, r: Ran, due: seq<Due>, ns: seq<Renewal>, a: Id)
    requires |ns| == |due| && forall i :: 0 <= i < |due| ==> due[i].account != a
    ensures SameFor(r.books, Sweep(c, r, due, ns).books, a)
  {
    if due != [] {
      var k := |due| - 1;
      SweepKeepsSame(c, r, due[..k], ns[..k], a);
      RenewalTouchesOneAccount(c, Sweep(c, r, due[..k], ns[..k]), due[k].account, due[k].sub, ns[k]);
    }
  }

  lemma MovesAfterSame(b: Books, m: Books, d: Books, a: Id)
    requires SameFor(b, m, a) && MovesForCause(m, d, a) && b.granted <= m.granted
    ensures MovesForCause(b, d, a)
  {
    if NewGrant(m, d, a) {
      assert NewGrant(b, d, a);
    }
  }

  lemma MovesThenSame(b: Books, m: Books, d: Books, a: Id)
    requires MovesForCause(b, m, a) && SameFor(m, d, a) && Extends(m, d)
    ensures MovesForCause(b, d, a)
  {
    if NewGrant(b, m, a) {
      var p :| p in m.granted && p !in b.granted && p in m.payments && m.payments[p].account == a;
      assert p in d.granted && p in d.payments;
      assert NewGrant(b, d, a);
    }
  }

  lemma {:induction false} SweepMoves(c: Config, r: Ran, due: seq<Due>, ns: seq<Renewal>, a: Id)
    requires Backed(r.books) && |ns| == |due| && Listed(r.books, due)
    ensures MovesForCause(r.books, Sweep(c, r, due, ns).books, a)
  {
    if due != [] {
      var k := |due| - 1;
      var r1 := Sweep(c, r, due[..k], ns[..k]);
      assert Listed(r.books, due[..k]);
      SweepIsSafe(c, r, due[..k], ns[..k]);
      SweepMoves(c, r, due[..k], ns[..k], a);
      if r1.ok {
        var d := RenewOne(c, r1, due[k].account, due[k].sub, ns[k]).books;
        if due[k].account == a {
          SweepKeepsSame(c, r, due[..k], ns[..k], a);
          RenewalMoves(c, r1, a, due[k].sub, ns[k]);
          MovesAfterSame(r.books, r1.books, d, a);
        } else {
          RenewalTouchesOneAccount(c, r1, due[k].account, due[k].sub, ns[k]);
          RenewOneIsSafe(c, r1, due[k].account, due[k].sub, ns[k]);
          MovesThenSame(r.books, r1.books, d, a);
        }
      }
    }
  }

  /** Main result: no step, cut short anywhere, moves a period end without a grant or a counted failure. */
  lemma StepMovesForCause(c: Config, b: Books, step: Step, budget: nat, a: Id)
    requires Backed(b) && Enabled(b, step)
    ensures MovesForCause(b, Do(c, b, step, budget).books, a)
  {
    var r := Ran(b, budget, true);
    match step
    case CheckoutStep(account, plan, period, paymentId, created) =>
      CheckoutMoves(r, account, plan, period, paymentId, created, a);
    case WebhookStep(ev, now) => WebhookMoves(c, r, ev, now, a);
    case CancelStep(account) =>
    case SweepStep(now, limit, due, ns) =>
      assert forall i :: 0 <= i < |due| ==> due[i].account in DueSet(b, now);
      if budget > 0 {
        SweepMoves(c, Spend(r, false), due, ns, a);
      }
  }
}
