/** The due sweep drains, and plans, statuses and failed charges fit together in completed runs. */
module BillingDunning {
  import opened Base
  import opened Ledger
  import opened Billing
  import opened BillingRuns
  import opened BillingLifecycle
  import opened BillingPlans

  // ----- The sweep drains -----

  /** What a completed renewal leaves behind. */
  lemma RenewalOutcome(c: Config, r: Ran, account: Id, s: Subscription, n: Renewal)
    requires account in r.books.subs && RenewOne(c, r, account, s, n).ok
    ensures var d := RenewOne(c, r, account, s, n).books;
            && account in d.subs
            && d.subs[account] == RowAfter(c, s, n)
            && FailuresOf(d, account) == FailuresAfter(FailuresOf(r.books, account), s, n)
            && PlanOf(d, account) == (if s.cancelAtPeriodEnd then Free
                                      else if ChargeSucceeds(s, n.charge) then Premium
                                      else if s.dunning + 1 >= c.maxDunning then Free
                                      else PlanOf(r.books, account))
  {
  }

  /** A renewed row is not due any more at the clock of its sweep. */
  lemma RenewedIsNotDue(c: Config, s: Subscription, sweepNow: Time, n: Renewal)
    requires ValidConfig(c) && sweepNow <= n.now
    ensures !DueSub(RowAfter(c, s, n), sweepNow)
  {
  }

  lemma AccountsPrefix(due: seq<Due>, k: nat)
    requires k < |due|
    ensures Accounts(due[..k + 1]) == Accounts(due[..k]) + {due[k].account}
  {
    assert due[..k + 1] == due[..k] + [due[k]];
    AccountsAppend(due[..k], due[k]);
  }

  /** The accounts in `done` are no longer due, the others are as they were. */
  ghost predicate Drained(b: Books, d: Books, sweepNow: Time, done: set<Id>) {
    && d.subs.Keys == b.subs.Keys
    && (forall a :: a in b.subs && a !in done ==> d.subs[a] == b.subs[a])
    && (forall a :: a in done ==> a in d.subs && !DueSub(d.subs[a], sweepNow))
  }

  lemma DrainOneMore(b: Books, mid: Books, d: Books, sweepNow: Time, done: set<Id>, a: Id)
    requires Drained(b, mid, sweepNow, done) && a in b.subs
    requires OnlyAccount(mid, d, a) && a in d.subs && !DueSub(d.subs[a], sweepNow)
    ensures Drained(b, d, sweepNow, done + {a})
  {
    forall x ensures x in d.subs <==> x in b.subs {
      assert x in mid.subs <==> x in b.subs;
    }
  }

  lemma {:induction false} SweepOutcome(c: Config, r: Ran, sweepNow: Time, due: seq<Due>, ns: seq<Renewal>)
    requires ValidConfig(c) && Sweepable(r.books, sweepNow, due, ns) && Sweep(c, r, due, ns).ok
    ensures Drained(r.books, Sweep(c, r, due, ns).books, sweepNow, Accounts(due))
  {
    if due != [] {
      var k := |due| - 1;
      var r1 := Sweep(c, r, due[..k], ns[..k]);
      SweepOutcome(c, r, sweepNow, due[..k], ns[..k]);
      assert due[..k + 1] == due;
      AccountsPrefix(due, k);
      RenewalDrains(c, r.books, r1, due[k].account, due[k].sub, sweepNow, ns[k], Accounts(due[..k]));
    }
  }

  lemma RenewalDrains(
    c: Config, b: Books, r: Ran, account: Id, s: Subscription, sweepNow: Time, n: Renewal, done: set<Id>)
    requires ValidConfig(c) && Drained(b, r.books, sweepNow, done)
    requires account in b.subs && sweepNow <= n.now && RenewOne(c, r, account, s, n).ok
    ensures Drained(b, RenewOne(c, r, account, s, n).books, sweepNow, done + {account})
  {
    RenewalOutcome(c, r, account, s, n);
    RenewedIsNotDue(c, s, sweepNow, n);
    RenewalTouchesOneAccount(c, r, account, s, n);
    DrainOneMore(b, r.books, RenewOne(c, r, account, s, n).books, sweepNow, done, account);
  }

  lemma {:induction false} AccountsCount(due: seq<Due>)
    requires forall i, j :: 0 <= i < j < |due| ==> due[i].account != due[j].account
    ensures |Accounts(due)| == |due|
  {
    if due == [] {
      assert Accounts(due) == {};
    } else {
      var k := |due| - 1;
      assert due[..k + 1] == due;
      AccountsCount(due[..k]);
      AccountsPrefix(due, k);
      assert due[k].account !in Accounts(due[..k]);
    }
  }

  /**
   Main result: on any books, whatever failed before, an error-free ProcessDue removes exactly the listed
   subscriptions from the due set of its clock, so the set shrinks by min(limit, due).
   */
  lemma SweepDrains(c: Config, b: Books, sweepNow: Time, limit: nat, due: seq<Due>, ns: seq<Renewal>, budget: nat)
    requires ValidConfig(c) && Enabled(b, SweepStep(sweepNow, limit, due, ns))
    requires Do(c, b, SweepStep(sweepNow, limit, due, ns), budget).ok
    ensures var d := Do(c, b, SweepStep(sweepNow, limit, due, ns), budget).books;
            && DueSet(d, sweepNow) == DueSet(b, sweepNow) - Accounts(due)
            && |DueSet(d, sweepNow)| == |DueSet(b, sweepNow)| -
                 (if limit < |DueSet(b, sweepNow)| then limit else |DueSet(b, sweepNow)|)
  {
    EnabledSweepIsSweepable(b, SweepStep(sweepNow, limit, due, ns));
    SweepOutcome(c, Spend(Ran(b, budget, true), false), sweepNow, due, ns);
    DrainedDueSet(b, Do(c, b, SweepStep(sweepNow, limit, due, ns), budget).books, sweepNow, Accounts(due));
    AccountsCount(due);
    SplitSize(DueSet(b, sweepNow), Accounts(due));
  }

  lemma DrainedDueSet(b: Books, d: Books, sweepNow: Time, done: set<Id>)
    requires Drained(b, d, sweepNow, done)
    ensures DueSet(d, sweepNow) == DueSet(b, sweepNow) - done
  {
    forall a ensures a in DueSet(d, sweepNow) <==> a in DueSet(b, sweepNow) - done {
    }
  }

  lemma SplitSize(s: set<Id>, part: set<Id>)
    requires part <= s
    ensures |s - part| == |s| - |part|
  {
    assert (s - part) + part == s;
  }

  // ----- Completed runs -----

  /** The subscription is in order, and the account has its plan. */
  ghost predicate AccountOk(c: Config, b: Books, a: Id) {
    SubOk(c, b, a) && PlanOf(b, a) == SubPlan(b, a)
  }

  ghost predicate Consistent(c: Config, b: Books) {
    AllSubsOk(c, b) && PlansAgree(b)
  }

  /** Main result: every completed step keeps the lifecycle, the pace of dunning and the plan. */
  lemma StepKeepsConsistent(c: Config, b: Books, step: Step, budget: nat)
    requires ValidConfig(c) && Consistent(c, b) && Enabled(b, step) && Do(c, b, step, budget).ok
    ensures Consistent(c, Do(c, b, step, budget).books)
  {
    StepKeepsSubs(c, b, step, budget);
    CompletedKeepsPlans(c, b, step, budget);
  }

  lemma {:induction false} RunKeepsConsistent(c: Config, b: Books, run: seq<Timed>)
    requires ValidConfig(c) && Consistent(c, b) && EnabledRun(c, b, run) && Undisturbed(c, b, run)
    ensures Consistent(c, Run(c, b, run))
    decreases |run|
  {
    if run != [] {
      StepKeepsConsistent(c, b, run[0].step, run[0].budget);
      RunKeepsConsistent(c, Do(c, b, run[0].step, run[0].budget).books, run[1..]);
    }
  }

  lemma NewIsConsistent(c: Config)
    ensures Consistent(c, NEW) && Backed(NEW) && AllGranted(NEW)
  {
  }

  /**
   Main result: from the empty books every subscription is in order in every run, calls failing
   anywhere, and in runs without a failing call every account also has the plan of its subscription.
   */
  lemma ReachableIsConsistent(c: Config, run: seq<Timed>, a: Id)
    requires ValidConfig(c) && EnabledRun(c, NEW, run)
    ensures SubOk(c, Run(c, NEW, run), a)
    ensures Undisturbed(c, NEW, run) ==> AccountOk(c, Run(c, NEW, run), a)
  {
    NewIsConsistent(c);
    ReachableSubIsOk(c, run, a);
    if Undisturbed(c, NEW, run) {
      RunKeepsConsistent(c, NEW, run);
    }
  }
}
