/** Money, dunning and the sweep over every run of the billing service. */
module BillingRuns {
  import opened Base
  import opened Ledger
  import opened Billing

  datatype Step =
    | CheckoutStep(account: Id, plan: Plan, period: BillingPeriod, paymentId: Id, created: Option<string>)
    | WebhookStep(ev: Event, now: Time)
    | CancelStep(account: Id)
    | SweepStep(sweepNow: Time, limit: nat, due: seq<Due>, renewals: seq<Renewal>)

  /** One request or sweep; `budget` repository calls succeed and the next one fails. */
  ghost function Do(c: Config, b: Books, step: Step, budget: nat): Ran
    requires Enabled(b, step)
  {
    var r := Ran(b, budget, true);
    match step
    case CheckoutStep(account, plan, period, paymentId, created) =>
      Checkout(r, account, plan, period, paymentId, created)
    case WebhookStep(ev, now) => HandleWebhook(c, r, ev, now)
    case CancelStep(account) => Cancel(r, account)
    case SweepStep(_, _, due, renewals) =>
      if budget == 0 then r.(ok := false) else Sweep(c, Spend(r, false), due, renewals)
  }

  /** A sweep works on some listing of the due rows, and its clock does not go back. */
  ghost predicate Enabled(b: Books, step: Step) {
    step.SweepStep? ==>
      && IsDueListing(b, step.sweepNow, step.limit, step.due)
      && |step.renewals| == |step.due|
      && forall i :: 0 <= i < |step.renewals| ==> step.renewals[i].now >= step.sweepNow
  }

  // ----- Grants are backed by payments -----

  ghost predicate Backed(b: Books) {
    && ProviderUnique(b)
    && (forall p :: p in b.payments ==> b.payments[p].account in b.subs)
    && (forall p :: p in b.granted ==> p in b.payments && b.payments[p].status == PaySucceeded)
    && (forall i, j :: 0 <= i < j < |b.granted| ==> b.granted[i] != b.granted[j])
  }

  /** Every succeeded payment has been turned into a paid period. */
  ghost predicate AllGranted(b: Books) {
    forall p :: p in b.payments && b.payments[p].status == PaySucceeded ==> p in b.granted
  }

  /** What a step may do to money: succeeded payments stay, grants are only added. */
  ghost predicate Extends(b: Books, d: Books) {
    && b.granted <= d.granted
    && b.subs.Keys <= d.subs.Keys
    && (forall p :: p in b.payments ==> p in d.payments && d.payments[p].account == b.payments[p].account)
    && (forall p :: p in b.payments && b.payments[p].status == PaySucceeded ==> d.payments[p].status == PaySucceeded)
    && (forall p :: p in b.payments && b.payments[p].status == PaySucceeded && p in d.granted ==> p in b.granted)
  }

  lemma ExtendsTransitive(a: Books, b: Books, d: Books)
    requires Extends(a, b) && Extends(b, d)
    ensures Extends(a, d)
  {
  }

  lemma InsertPaymentIsSafe(r: Ran, id: Id, p: Payment)
    requires Backed(r.books) && p.account in r.books.subs && p.status == PayPending && p.providerId == None
    ensures var s := InsertPayment(r, id, p);
            Backed(s.books) && Extends(r.books, s.books)
              && (s.ok ==> id !in r.books.payments && s.books.payments[id] == p)
  {
  }

  lemma SetPaymentIsSafe(
    r: Ran, id: Id, status: PayStatus, providerId: Option<string>, receipt: Option<string>, paidAt: Option<Time>)
    requires Backed(r.books)
    requires id in r.books.payments && r.books.payments[id].status != PaySucceeded
    ensures var s := SetPayment(r, id, status, providerId, receipt, paidAt);
            && Backed(s.books) && Extends(r.books, s.books)
            && s.books.granted == r.books.granted && s.books.subs == r.books.subs
            && s.books.payments.Keys == r.books.payments.Keys
            && (forall p :: p in r.books.payments && p != id ==> s.books.payments[p] == r.books.payments[p])
            && (s.ok ==> s.books.payments[id].status == status)
            && s.books.payments[id].account == r.books.payments[id].account
  {
    var s := SetPayment(r, id, status, providerId, receipt, paidAt);
    if s.books != r.books {
      var q := s.books.payments[id];
      forall p, o | p in s.books.payments && o in s.books.payments && p != o && s.books.payments[p].providerId.Some?
        ensures s.books.payments[p].providerId != s.books.payments[o].providerId
      {
        assert !ProviderIdTaken(r.books, id, q.providerId);
      }
    }
  }

  lemma GrantSubIsSafe(r: Ran, account: Id, s: Subscription, payment: Id)
    requires Backed(r.books) && payment !in r.books.granted
    requires r.ok ==> payment in r.books.payments && r.books.payments[payment].status == PaySucceeded
    ensures var g := GrantSub(r, account, s, payment);
            && Backed(g.books)
            && g.books.payments == r.books.payments && r.books.subs.Keys <= g.books.subs.Keys
            && (g.books.granted == r.books.granted || g.books.granted == r.books.granted + [payment])
            && (g.ok ==> payment in g.books.granted)
  {
  }

  /** Books that differ only outside payments and grants are as safe as before. */
  lemma MoneyFrame(b: Books, d: Books)
    requires d.payments == b.payments && d.granted == b.granted && b.subs.Keys <= d.subs.Keys
    ensures Backed(b) ==> Backed(d)
    ensures Extends(b, d)
    ensures AllGranted(b) ==> AllGranted(d)
  {
  }

  lemma ExtendsSame(b: Books, d: Books, e: Books)
    requires Extends(b, d)
    requires e.payments == d.payments && e.granted == d.granted && d.subs.Keys <= e.subs.Keys
    ensures Extends(b, e)
  {
  }

  lemma AwaitPaymentIsSafe(r: Ran, account: Id, s: Subscription, paymentId: Id, created: Option<string>)
    requires Backed(r.books)
    requires r.ok ==> paymentId in r.books.payments && r.books.payments[paymentId].status == PayPending
    ensures var u := AwaitPayment(r, account, s, paymentId, created);
            Backed(u.books) && Extends(r.books, u.books) && (AllGranted(r.books) ==> AllGranted(u.books))
  {
    if r.ok && created.Some? {
      var r1 := SetPayment(r, paymentId, PayPending, created, None, None);
      SetPaymentIsSafe(r, paymentId, PayPending, created, None, None);
      MoneyFrame(r1.books, WriteSub(r1, account, s).books);
      ExtendsSame(r.books, r1.books, WriteSub(r1, account, s).books);
    }
  }

  lemma CheckoutIsSafe(r: Ran, account: Id, plan: Plan, period: BillingPeriod, paymentId: Id, created: Option<string>)
    requires Backed(r.books)
    ensures var u := Checkout(r, account, plan, period, paymentId, created);
            Backed(u.books) && Extends(r.books, u.books) && (AllGranted(r.books) ==> AllGranted(u.books))
  {
    var r1 := Ensure(r, account);
    MoneyFrame(r.books, r1.books);
    if plan == Premium && r1.ok {
      var r2 := InsertPayment(r1, paymentId, NewPayment(account, period));
      var s := r1.books.subs[account].(status := Pending, period := Some(period));
      InsertPaymentIsSafe(r1, paymentId, NewPayment(account, period));
      ExtendsTransitive(r.books, r1.books, r2.books);
      AwaitPaymentIsSafe(r2, account, s, paymentId, created);
      ExtendsTransitive(r.books, r2.books, AwaitPayment(r2, account, s, paymentId, created).books);
    }
  }

  lemma ActivateIsSafe(c: Config, r: Ran, id: Id, ev: Event, now: Time)
    requires Backed(r.books) && id in r.books.payments && r.books.payments[id].status != PaySucceeded
    ensures var s := Activate(c, r, id, ev, now);
            Backed(s.books) && Extends(r.books, s.books) && (AllGranted(r.books) && s.ok ==> AllGranted(s.books))
  {
    var pay := r.books.payments[id];
    SetPaymentIsSafe(r, id, PaySucceeded, None, NonEmpty(ev.receipt), Some(now));
    var r1 := SetPayment(r, id, PaySucceeded, None, NonEmpty(ev.receipt), Some(now));
    var r2 := Spend(r1, pay.account !in r1.books.subs);
    if r2.ok {
      GrantSubIsSafe(r2, pay.account, Activated(c, r2.books.subs[pay.account], pay, ev, now), id);
    }
  }

  lemma WebhookIsSafe(c: Config, r: Ran, ev: Event, now: Time)
    requires Backed(r.books)
    ensures var s := HandleWebhook(c, r, ev, now);
            Backed(s.books) && Extends(r.books, s.books) && (AllGranted(r.books) && s.ok ==> AllGranted(s.books))
  {
    var found := FindPayment(r.books, ev.providerId);
    var r1 := Spend(r, found.None?);
    if r1.ok {
      var pay := r.books.payments[found.value];
      if pay.status != ev.status && pay.status != PaySucceeded {
        match ev.status
        case PaySucceeded => ActivateIsSafe(c, r1, found.value, ev, now);
        case PayFailed => SetPaymentIsSafe(r1, found.value, PayFailed, None, None, Some(now));
        case PayRefunded => SetPaymentIsSafe(r1, found.value, PayRefunded, None, None, Some(now));
        case PayPending =>
      }
    }
  }

  lemma PaidIsSafe(c: Config, r: Ran, account: Id, s: Subscription, n: Renewal)
    requires Backed(r.books) && n.charge.Charged?
    requires n.paymentId in r.books.payments && r.books.payments[n.paymentId].status != PaySucceeded
    ensures var u := Paid(c, r, account, s, n);
            Backed(u.books) && Extends(r.books, u.books) && (AllGranted(r.books) && u.ok ==> AllGranted(u.books))
  {
    var r1 := SetPayment(
      r, n.paymentId, PaySucceeded, Some(n.charge.providerId), NonEmpty(n.charge.receipt), Some(n.now));
    SetPaymentIsSafe(r, n.paymentId, PaySucceeded, Some(n.charge.providerId), NonEmpty(n.charge.receipt), Some(n.now));
    var r2 := GrantSub(r1, account, Renewed(c, s, n.now), n.paymentId);
    GrantSubIsSafe(r1, account, Renewed(c, s, n.now), n.paymentId);
    assert Extends(r.books, r2.books);
    MoneyFrame(r2.books, SetPlan(r2, account, Premium).books);
    ExtendsSame(r.books, r2.books, SetPlan(r2, account, Premium).books);
  }

  lemma FailedIsSafe(c: Config, r: Ran, account: Id, s: Subscription, n: Renewal)
    requires Backed(r.books)
    requires n.paymentId in r.books.payments && r.books.payments[n.paymentId].status != PaySucceeded
    ensures var u := Failed(c, r, account, s, n);
            Backed(u.books) && Extends(r.books, u.books) && (AllGranted(r.books) ==> AllGranted(u.books))
  {
    var r1 := SetPayment(r, n.paymentId, PayFailed, None, None, Some(n.now));
    SetPaymentIsSafe(r, n.paymentId, PayFailed, None, None, Some(n.now));
    var u := Failed(c, r, account, s, n);
    assert u.books.payments == r1.books.payments && u.books.granted == r1.books.granted;
    MoneyFrame(r1.books, u.books);
    ExtendsSame(r.books, r1.books, u.books);
  }

  lemma RenewOneIsSafe(c: Config, r: Ran, account: Id, s: Subscription, n: Renewal)
    requires Backed(r.books) && account in r.books.subs
    ensures var u := RenewOne(c, r, account, s, n);
            Backed(u.books) && Extends(r.books, u.books) && (AllGranted(r.books) && u.ok ==> AllGranted(u.books))
  {
    if s.cancelAtPeriodEnd {
      var r1 := WriteSub(r, account, Downgraded(s));
      MoneyFrame(r.books, SetPlan(r1, account, Free).books);
    } else {
      var p := NewPayment(account, PeriodOr(s.period));
      var r1 := InsertPayment(r, n.paymentId, p);
      InsertPaymentIsSafe(r, n.paymentId, p);
      if r1.ok && ChargeSucceeds(s, n.charge) {
        PaidIsSafe(c, r1, account, s, n);
        ExtendsTransitive(r.books, r1.books, Paid(c, r1, account, s, n).books);
      } else if r1.ok {
        FailedIsSafe(c, r1, account, s, n);
        ExtendsTransitive(r.books, r1.books, Failed(c, r1, account, s, n).books);
      }
    }
  }

  lemma {:induction false} SweepIsSafe(c: Config, r: Ran, due: seq<Due>, ns: seq<Renewal>)
    requires Backed(r.books) && |ns| == |due|
    requires forall i :: 0 <= i < |due| ==> due[i].account in r.books.subs
    ensures var u := Sweep(c, r, due, ns);
            Backed(u.books) && Extends(r.books, u.books) && (AllGranted(r.books) && u.ok ==> AllGranted(u.books))
  {
    if due != [] {
      var k := |due| - 1;
      SweepIsSafe(c, r, due[..k], ns[..k]);
      var r1 := Sweep(c, r, due[..k], ns[..k]);
      if r1.ok {
        RenewOneIsSafe(c, r1, due[k].account, due[k].sub, ns[k]);
        ExtendsTransitive(r.books, r1.books, RenewOne(c, r1, due[k].account, due[k].sub, ns[k]).books);
      }
    }
  }

  /** Any step, cut short after any number of calls. */
  lemma StepIsSafe(c: Config, b: Books, step: Step, budget: nat)
    requires Backed(b) && Enabled(b, step)
    ensures var u := Do(c, b, step, budget);
            Backed(u.books) && Extends(b, u.books) && (AllGranted(b) && u.ok ==> AllGranted(u.books))
  {
    var r := Ran(b, budget, true);
    match step
    case CheckoutStep(account, plan, period, paymentId, created) =>
      CheckoutIsSafe(r, account, plan, period, paymentId, created);
    case WebhookStep(ev, now) => WebhookIsSafe(c, r, ev, now);
    case CancelStep(account) => MoneyFrame(b, Cancel(r, account).books);
    case SweepStep(_, _, due, renewals) =>
      if budget > 0 {
        SweepIsSafe(c, Spend(r, false), due, renewals);
      }
  }

  // ----- Runs -----

  datatype Timed = Timed(step: Step, budget: nat)

  ghost predicate EnabledRun(c: Config, b: Books, run: seq<Timed>)
    decreases |run|
  {
    run == [] || (Enabled(b, run[0].step) && EnabledRun(c, Do(c, b, run[0].step, run[0].budget).books, run[1..]))
  }

  ghost function Run(c: Config, b: Books, run: seq<Timed>): Books
    requires EnabledRun(c, b, run)
    decreases |run|
  {
    if run == [] then b else Run(c, Do(c, b, run[0].step, run[0].budget).books, run[1..])
  }

  /** No step of the run met a failing call. */
  ghost predicate Undisturbed(c: Config, b: Books, run: seq<Timed>)
    requires EnabledRun(c, b, run)
    decreases |run|
  {
    run == [] ||
    (&& Do(c, b, run[0].step, run[0].budget).ok
     && Undisturbed(c, Do(c, b, run[0].step, run[0].budget).books, run[1..]))
  }

  const NEW := Books(map[], map[], map[], [], map[])

  /**
   Main result: over any run with calls failing anywhere, grants stay distinct and backed by
   succeeded payments, and succeeded is absorbing.
   */
  lemma {:induction false} RunIsSafe(c: Config, b: Books, run: seq<Timed>)
    requires Backed(b) && EnabledRun(c, b, run)
    ensures Backed(Run(c, b, run)) && Extends(b, Run(c, b, run))
    ensures AllGranted(b) && Undisturbed(c, b, run) ==> AllGranted(Run(c, b, run))
    decreases |run|
  {
    if run != [] {
      StepIsSafe(c, b, run[0].step, run[0].budget);
      var d := Do(c, b, run[0].step, run[0].budget).books;
      RunIsSafe(c, d, run[1..]);
      ExtendsTransitive(b, d, Run(c, d, run[1..]));
    }
  }

  // ----- Counting -----

  /** How many entries of a grant list belong to the account. */
  ghost function GrantsTo(b: Books, granted: seq<Id>, account: Id): nat {
    if granted == [] then 0
    else
      var last := granted[|granted| - 1];
      GrantsTo(b, granted[..|granted| - 1], account) +
      if last in b.payments && b.payments[last].account == account then 1 else 0
  }

  ghost function SucceededOf(b: Books, account: Id): set<Id> {
    set p | p in b.payments && b.payments[p].account == account && b.payments[p].status == PaySucceeded
  }

  lemma {:induction false} GrantsAreASet(b: Books, granted: seq<Id>, account: Id)
    requires forall p :: p in granted ==> p in b.payments
    requires forall i, j :: 0 <= i < j < |granted| ==> granted[i] != granted[j]
    ensures GrantsTo(b, granted, account) == |set p | p in granted && b.payments[p].account == account|
  {
    var all := set p | p in granted && b.payments[p].account == account;
    if granted == [] {
      assert all == {};
    } else {
      var front, last := granted[..|granted| - 1], granted[|granted| - 1];
      assert forall p :: p in front ==> p in granted;
      GrantsAreASet(b, front, account);
      OneMoreGrant(b, front, last, granted, account);
    }
  }

  lemma OneMoreGrant(b: Books, front: seq<Id>, last: Id, granted: seq<Id>, account: Id)
    requires granted == front + [last] && last !in front && forall p :: p in granted ==> p in b.payments
    ensures |set p | p in granted && b.payments[p].account == account| ==
            |set p | p in front && b.payments[p].account == account| +
            if b.payments[last].account == account then 1 else 0
  {
    var all := set p | p in granted && b.payments[p].account == account;
    var some := set p | p in front && b.payments[p].account == account;
    assert all == if b.payments[last].account == account then some + {last} else some;
  }

  /** An account never has more paid periods than succeeded payments; without failures, as many. */
  lemma GrantsNeverExceedPayments(c: Config, run: seq<Timed>, account: Id)
    requires EnabledRun(c, NEW, run)
    ensures var b := Run(c, NEW, run);
            && GrantsTo(b, b.granted, account) <= |SucceededOf(b, account)|
            && (Undisturbed(c, NEW, run) ==> GrantsTo(b, b.granted, account) == |SucceededOf(b, account)|)
  {
    RunIsSafe(c, NEW, run);
    var b := Run(c, NEW, run);
    GrantsAreASet(b, b.granted, account);
    var paid := set p | p in b.granted && b.payments[p].account == account;
    assert paid <= SucceededOf(b, account);
    SubsetSize(paid, SucceededOf(b, account));
    if Undisturbed(c, NEW, run) {
      assert AllGranted(NEW) && AllGranted(b);
      forall p | p in SucceededOf(b, account) ensures p in paid {
      }
      assert paid == SucceededOf(b, account);
    }
  }

  // ----- Where a failing call loses an activation -----

  /**
   A webhook that reports a payment's success loses the period exactly when the repository fails on
   the third or fourth call, between marking the payment and writing the subscription.
   */
  lemma ActivationLostIff(c: Config, b: Books, ev: Event, now: Time, budget: nat)
    requires Backed(b) && AllGranted(b)
    requires FindPayment(b, ev.providerId).Some?
    requires b.payments[FindPayment(b, ev.providerId).value].status != PaySucceeded && ev.status == PaySucceeded
    ensures AllGranted(Do(c, b, WebhookStep(ev, now), budget).books) <==> budget < 2 || budget >= 4
  {
    var id := FindPayment(b, ev.providerId).value;
    var r1 := Spend(Ran(b, budget, true), false);
    if budget > 0 {
      var pay := b.payments[id];
      var q := pay.(status := PaySucceeded, receipt := Coalesce(NonEmpty(ev.receipt), pay.receipt),
        paidAt := Some(now));
      assert !ProviderIdTaken(b, id, q.providerId);
      SetPaymentIsSafe(r1, id, PaySucceeded, None, NonEmpty(ev.receipt), Some(now));
      assert id !in b.granted;
    }
  }

  /** A period lost that way is never made up, by no redelivery and no other step. */
  lemma LostActivationStaysLost(c: Config, b: Books, run: seq<Timed>, p: Id)
    requires Backed(b) && EnabledRun(c, b, run)
    requires p in b.payments && b.payments[p].status == PaySucceeded && p !in b.granted
    ensures p !in Run(c, b, run).granted
  {
    RunIsSafe(c, b, run);
  }
}
