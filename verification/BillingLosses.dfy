/** Which failing repository call loses a paid period, or a failed charge that should count. */
module BillingLosses {
  import opened Base
  import opened Ledger
  import opened Billing
  import opened BillingRuns
  import opened BillingLifecycle

  // ----- Paid periods -----

  /** A successful charge that the payment row can record. */
  ghost predicate RecordsSuccess(b: Books, s: Subscription, n: Renewal) {
    && !s.cancelAtPeriodEnd && ChargeSucceeds(s, n.charge)
    && n.paymentId !in b.payments && !ProviderIdTaken(b, n.paymentId, Some(n.charge.providerId))
  }

  /** The period is lost when the third or fourth call of the webhook fails. */
  lemma WebhookLosesIff(c: Config, b: Books, ev: Event, now: Time, budget: nat)
    requires Backed(b) && AllGranted(b)
    ensures AllGranted(Do(c, b, WebhookStep(ev, now), budget).books) <==> !(FirstSuccess(b, ev) && 2 <= budget < 4)
  {
    if FirstSuccess(b, ev) {
      ActivationLostIff(c, b, ev, now, budget);
    } else {
      var found := FindPayment(b, ev.providerId);
      if found.Some? {
        var r1 := Spend(Ran(b, budget, true), false);
        if ev.status == PayFailed || ev.status == PayRefunded {
          MarkingKeepsGranted(r1, found.value, ev.status, now);
        }
      }
    }
  }

  lemma MarkingKeepsGranted(r: Ran, id: Id, status: PayStatus, now: Time)
    requires AllGranted(r.books) && status != PaySucceeded
    ensures AllGranted(SetPayment(r, id, status, None, None, Some(now)).books)
  {
  }

  /**
   A renewal marks the payment with its second call and writes the period with its third. When the
   third fails the customer has paid, the period is lost, and the subscription is as due as before.
   */
  lemma RenewalLosesIff(c: Config, r: Ran, account: Id, s: Subscription, n: Renewal)
    requires r.ok && Backed(r.books) && AllGranted(r.books) && account in r.books.subs
    ensures AllGranted(RenewOne(c, r, account, s, n).books) <==> !(RecordsSuccess(r.books, s, n) && r.budget == 2)
    ensures RecordsSuccess(r.books, s, n) && r.budget == 2 ==> RenewOne(c, r, account, s, n).books.subs == r.books.subs
  {
    if s.cancelAtPeriodEnd {
      var r1 := WriteSub(r, account, Downgraded(s));
      MoneyFrame(r.books, SetPlan(r1, account, Free).books);
    } else {
      var p := NewPayment(account, PeriodOr(s.period));
      var r1 := InsertPayment(r, n.paymentId, p);
      InsertPaymentIsSafe(r, n.paymentId, p);
      if r1.ok && ChargeSucceeds(s, n.charge) {
        PaidLosesIff(c, r1, account, s, n);
      } else if r1.ok {
        FailedIsSafe(c, r1, account, s, n);
      }
    }
  }

  lemma PaidLosesIff(c: Config, r: Ran, account: Id, s: Subscription, n: Renewal)
    requires r.ok && Backed(r.books) && AllGranted(r.books) && account in r.books.subs && n.charge.Charged?
    requires n.paymentId in r.books.payments
    requires r.books.payments[n.paymentId].status == PayPending && r.books.payments[n.paymentId].providerId == None
    ensures AllGranted(Paid(c, r, account, s, n).books) <==>
            !(r.budget == 1 && !ProviderIdTaken(r.books, n.paymentId, Some(n.charge.providerId)))
    ensures r.budget == 1 ==> Paid(c, r, account, s, n).books.subs == r.books.subs
  {
    assert n.paymentId !in r.books.granted;
  }

  /** The k-th renewal of the sweep is reached with two calls left and records a success. */
  ghost predicate LosesAt(c: Config, r: Ran, due: seq<Due>, ns: seq<Renewal>, k: nat)
    requires |ns| == |due| && k < |due|
  {
    var r1 := Sweep(c, r, due[..k], ns[..k]);
    r1.ok && r1.budget == 2 && RecordsSuccess(r1.books, due[k].sub, ns[k])
  }

  lemma PrefixLoses(c: Config, r: Ran, due: seq<Due>, ns: seq<Renewal>, m: nat, k: nat)
    requires |ns| == |due| && k < m <= |due|
    ensures LosesAt(c, r, due[..m], ns[..m], k) <==> LosesAt(c, r, due, ns, k)
  {
    assert due[..m][..k] == due[..k] && ns[..m][..k] == ns[..k];
  }

  lemma {:induction false} SweepLosesIff(c: Config, r: Ran, due: seq<Due>, ns: seq<Renewal>)
    requires r.ok && Backed(r.books) && AllGranted(r.books) && |ns| == |due|
    requires forall i :: 0 <= i < |due| ==> due[i].account in r.books.subs
    ensures AllGranted(Sweep(c, r, due, ns).books) <==> NoLoss(c, r, due, ns)
  {
    if due != [] {
      var m := |due| - 1;
      SweepLosesIff(c, r, due[..m], ns[..m]);
      SweepIsSafe(c, r, due[..m], ns[..m]);
      NoLossStep(c, r, due, ns, m);
      var r1 := Sweep(c, r, due[..m], ns[..m]);
      if r1.ok {
        RenewalLosesIff(c, r1, due[m].account, due[m].sub, ns[m]);
      }
    }
  }

  ghost predicate NoLoss(c: Config, r: Ran, due: seq<Due>, ns: seq<Renewal>)
    requires |ns| == |due|
  {
    forall k :: 0 <= k < |due| ==> !LosesAt(c, r, due, ns, k)
  }

  lemma NoLossStep(c: Config, r: Ran, due: seq<Due>, ns: seq<Renewal>, m: nat)
    requires |ns| == |due| && |due| == m + 1
    ensures NoLoss(c, r, due, ns) <==> NoLoss(c, r, due[..m], ns[..m]) && !LosesAt(c, r, due, ns, m)
  {
    forall k | 0 <= k < m ensures LosesAt(c, r, due[..m], ns[..m], k) <==> LosesAt(c, r, due, ns, k) {
      PrefixLoses(c, r, due, ns, m, k);
    }
  }

  /** The step loses a paid period. */
  ghost predicate Loses(c: Config, b: Books, step: Step, budget: nat)
    requires Enabled(b, step)
  {
    match step
    case CheckoutStep(_, _, _, _, _) => false
    case WebhookStep(ev, _) => FirstSuccess(b, ev) && 2 <= budget < 4
    case CancelStep(_) => false
    case SweepStep(_, _, due, ns) =>
      budget > 0 && !NoLoss(c, Spend(Ran(b, budget, true), false), due, ns)
  }

  /** Main result: every succeeded payment keeps its period, exactly unless the step loses one. */
  lemma StepLosesIff(c: Config, b: Books, step: Step, budget: nat)
    requires Backed(b) && AllGranted(b) && Enabled(b, step)
    ensures AllGranted(Do(c, b, step, budget).books) <==> !Loses(c, b, step, budget)
  {
    var r := Ran(b, budget, true);
    match step
    case CheckoutStep(account, plan, period, paymentId, created) =>
      CheckoutIsSafe(r, account, plan, period, paymentId, created);
    case WebhookStep(ev, now) => WebhookLosesIff(c, b, ev, now, budget);
    case CancelStep(account) => MoneyFrame(b, Cancel(r, account).books);
    case SweepStep(now, limit, due, ns) =>
      assert forall i :: 0 <= i < |due| ==> due[i].account in DueSet(b, now);
      if budget > 0 {
        SweepLosesIff(c, Spend(r, false), due, ns);
      }
  }

  // ----- Failed charges -----

  ghost predicate FailureCounted(b: Books, d: Books, account: Id, at: Time) {
    FailuresOf(d, account) == FailuresOf(b, account) + [at]
  }

  /** The renewal gets to its charge, and the charge fails. */
  ghost predicate ChargeFails(r: Ran, s: Subscription, n: Renewal) {
    r.ok && r.budget >= 1 && !s.cancelAtPeriodEnd && n.paymentId !in r.books.payments && !ChargeSucceeds(s, n.charge)
  }

  /**
   A failed charge is counted exactly if the renewal has three calls: the payment row, its failure and
   the subscription. With fewer the row and its failures are as before, so it is due again at once.
   */
  lemma RenewalCountsIff(c: Config, r: Ran, account: Id, s: Subscription, n: Renewal)
    requires ChargeFails(r, s, n) && account in r.books.subs
    ensures var d := RenewOne(c, r, account, s, n).books;
            && (FailureCounted(r.books, d, account, n.now) <==> r.budget >= 3)
            && (r.budget < 3 ==> d.subs == r.books.subs && d.failures == r.books.failures)
  {
    FailedCountsIff(c, InsertPayment(r, n.paymentId, NewPayment(account, PeriodOr(s.period))), account, s, n);
  }

  lemma FailedCountsIff(c: Config, r: Ran, account: Id, s: Subscription, n: Renewal)
    requires r.ok && account in r.books.subs
    requires n.paymentId in r.books.payments && r.books.payments[n.paymentId].providerId == None
    ensures var d := Failed(c, r, account, s, n).books;
            && (FailureCounted(r.books, d, account, n.now) <==> r.budget >= 2)
            && (r.budget < 2 ==> d.subs == r.books.subs && d.failures == r.books.failures)
  {
  }

  /** The i-th renewal of the sweep gets to its charge, and the charge fails. */
  ghost predicate FailsAt(c: Config, r: Ran, due: seq<Due>, ns: seq<Renewal>, i: nat)
    requires |ns| == |due| && i < |due|
  {
    ChargeFails(Sweep(c, r, due[..i], ns[..i]), due[i].sub, ns[i])
  }

  /** Its failure goes uncounted: one of the two calls after the charge fails. */
  ghost predicate MissesAt(c: Config, r: Ran, due: seq<Due>, ns: seq<Renewal>, i: nat)
    requires |ns| == |due| && i < |due|
  {
    FailsAt(c, r, due, ns, i) && Sweep(c, r, due[..i], ns[..i]).budget < 3
  }

  /** A failure at `at` that is counted unless missed; a missed one leaves the row and its failures. */
  ghost predicate Verdict(b: Books, d: Books, a: Id, at: Time, missed: bool) {
    && (FailureCounted(b, d, a, at) <==> !missed)
    && (missed ==> SameRow(b, d, a))
  }

  ghost predicate SameRow(b: Books, d: Books, a: Id) {
    && (a in b.subs <==> a in d.subs) && (a in b.subs ==> d.subs[a] == b.subs[a])
    && FailuresOf(d, a) == FailuresOf(b, a)
  }

  lemma VerdictMoves(b: Books, m: Books, d: Books, e: Books, a: Id, at: Time, missed: bool)
    requires SameRow(b, m, a) && Verdict(m, d, a, at, missed) && SameRow(d, e, a)
    ensures Verdict(b, e, a, at, missed)
  {
  }

  lemma PrefixFails(c: Config, r: Ran, due: seq<Due>, ns: seq<Renewal>, m: nat, i: nat)
    requires |ns| == |due| && i < m <= |due|
    ensures FailsAt(c, r, due[..m], ns[..m], i) <==> FailsAt(c, r, due, ns, i)
    ensures MissesAt(c, r, due[..m], ns[..m], i) <==> MissesAt(c, r, due, ns, i)
  {
    assert due[..m][..i] == due[..i] && ns[..m][..i] == ns[..i];
  }

  lemma {:induction false} SweepCountsAt(c: Config, r: Ran, due: seq<Due>, ns: seq<Renewal>, i: nat)
    requires |ns| == |due| && i < |due| && FailsAt(c, r, due, ns, i) && due[i].account in r.books.subs
    requires forall j, k :: 0 <= j < k < |due| ==> due[j].account != due[k].account
    ensures Verdict(r.books, Sweep(c, r, due, ns).books, due[i].account, ns[i].now, MissesAt(c, r, due, ns, i))
  {
    var m := |due| - 1;
    if i == m {
      LastCounts(c, r, due, ns);
    } else {
      PrefixFails(c, r, due, ns, m, i);
      SweepCountsAt(c, r, due[..m], ns[..m], i);
      var r1 := Sweep(c, r, due[..m], ns[..m]);
      RenewalTouchesOneAccount(c, r1, due[m].account, due[m].sub, ns[m]);
      VerdictMoves(r.books, r.books, r1.books, Sweep(c, r, due, ns).books, due[i].account, ns[i].now,
                   MissesAt(c, r, due, ns, i));
    }
  }

  lemma LastCounts(c: Config, r: Ran, due: seq<Due>, ns: seq<Renewal>)
    requires |ns| == |due| > 0 && due[|due| - 1].account in r.books.subs && FailsAt(c, r, due, ns, |due| - 1)
    requires forall j :: 0 <= j < |due| - 1 ==> due[j].account != due[|due| - 1].account
    ensures var m := |due| - 1;
            Verdict(r.books, Sweep(c, r, due, ns).books, due[m].account, ns[m].now, MissesAt(c, r, due, ns, m))
  {
    var m := |due| - 1;
    var r1 := Sweep(c, r, due[..m], ns[..m]);
    SweepSkipsAccount(c, r, due[..m], ns[..m], due[m].account);
    RenewalCountsIff(c, r1, due[m].account, due[m].sub, ns[m]);
    var d := Sweep(c, r, due, ns).books;
    VerdictMoves(r.books, r1.books, d, d, due[m].account, ns[m].now, MissesAt(c, r, due, ns, m));
  }

  /** Every charge of the step that was tried and failed is counted. */
  ghost predicate AllCounted(c: Config, b: Books, step: Step, budget: nat)
    requires Enabled(b, step)
  {
    step.SweepStep? && budget > 0 ==>
      forall i :: 0 <= i < |step.due| && FailsAt(c, Spend(Ran(b, budget, true), false), step.due, step.renewals, i) ==>
        FailureCounted(b, Do(c, b, step, budget).books, step.due[i].account, step.renewals[i].now)
  }

  ghost predicate Misses(c: Config, b: Books, step: Step, budget: nat)
    requires Enabled(b, step)
  {
    && step.SweepStep? && budget > 0
    && exists i :: 0 <= i < |step.due| && MissesAt(c, Spend(Ran(b, budget, true), false), step.due, step.renewals, i)
  }

  /**
   Main result: every failed charge of a step is counted, exactly unless one of the two calls after a
   charge fails; and then that subscription is left as due as it was, with no retry interval before it.
   */
  lemma StepCountsIff(c: Config, b: Books, step: Step, budget: nat)
    requires Enabled(b, step)
    ensures AllCounted(c, b, step, budget) <==> !Misses(c, b, step, budget)
    ensures step.SweepStep? && budget > 0 ==>
              var r := Spend(Ran(b, budget, true), false);
              forall i | 0 <= i < |step.due| && MissesAt(c, r, step.due, step.renewals, i) ::
                DueAsBefore(b, Do(c, b, step, budget).books, step.due[i].account, step.sweepNow)
  {
    if step.SweepStep? && budget > 0 {
      var r := Spend(Ran(b, budget, true), false);
      EnabledSweepIsSweepable(b, step);
      forall i | 0 <= i < |step.due| && FailsAt(c, r, step.due, step.renewals, i)
        ensures FailureCounted(b, Do(c, b, step, budget).books, step.due[i].account, step.renewals[i].now) <==>
                !MissesAt(c, r, step.due, step.renewals, i)
        ensures MissesAt(c, r, step.due, step.renewals, i) ==>
                  DueAsBefore(b, Do(c, b, step, budget).books, step.due[i].account, step.sweepNow)
      {
        SweepCountsAt(c, r, step.due, step.renewals, i);
      }
    }
  }

  /** The sweep of the same clock would take the subscription again, and no failure is on record. */
  ghost predicate DueAsBefore(b: Books, d: Books, a: Id, sweepNow: Time) {
    && a in DueSet(b, sweepNow) && a in DueSet(d, sweepNow)
    && d.subs[a] == b.subs[a] && FailuresOf(d, a) == FailuresOf(b, a)
  }
}
