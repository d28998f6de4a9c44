/** What an uptime report means, instant by instant, and why the store's histories make it sound. */
module UptimeProofs {
  import opened Base
  import opened Statuses
  import opened StatusTables
  import opened StatusRuns
  import opened StatusHistories
  import opened Uptime

  // ----- Pointwise reading of a history -----

  ghost predicate Covers(p: Period, now: Time, x: Time) {
    p.startedAt <= x < EndOf(p, now)
  }

  /** The status a history shows at an instant; None before its first period. */
  ghost function StatusAt(periods: seq<Period>, now: Time, x: Time): Option<ComponentStatus> {
    if periods == [] then None
    else if Covers(periods[|periods| - 1], now, x) then Some(periods[|periods| - 1].status)
    else StatusAt(periods[..|periods| - 1], now, x)
  }

  ghost predicate At(periods: seq<Period>, kind: Kind, now: Time, x: Time) {
    StatusAt(periods, now, x).Some? && Counts(kind, StatusAt(periods, now, x).value)
  }

  /** How many instants of [lo, hi) show a status of the given kind. */
  ghost function Instants(periods: seq<Period>, kind: Kind, now: Time, lo: Time, hi: Time): nat
    decreases hi - lo
  {
    if lo >= hi then 0
    else Instants(periods, kind, now, lo, hi - 1) + if At(periods, kind, now, hi - 1) then 1 else 0
  }

  /** No instant belongs to two periods. */
  ghost predicate Disjoint(periods: seq<Period>, now: Time) {
    forall i, j :: 0 <= i < j < |periods| ==>
      EndOf(periods[i], now) <= periods[j].startedAt || EndOf(periods[j], now) <= periods[i].startedAt ||
      EndOf(periods[i], now) <= periods[i].startedAt || EndOf(periods[j], now) <= periods[j].startedAt
  }

  lemma {:induction false} StatusAtNone(periods: seq<Period>, now: Time, x: Time)
    requires forall p :: p in periods ==> !Covers(p, now, x)
    ensures StatusAt(periods, now, x) == None
  {
    if periods != [] {
      StatusAtNone(periods[..|periods| - 1], now, x);
    }
  }

  lemma {:induction false} AppendAddsOverlap(front: seq<Period>, p: Period, kind: Kind, now: Time, lo: Time, hi: Time)
    requires Disjoint(front + [p], now)
    ensures Instants(front + [p], kind, now, lo, hi) ==
            Instants(front, kind, now, lo, hi) +
            if Counts(kind, p.status) then Overlap(lo, hi, p.startedAt, EndOf(p, now)) else 0
    decreases hi - lo
  {
    if lo < hi {
      AppendAddsOverlap(front, p, kind, now, lo, hi - 1);
      var periods := front + [p];
      assert periods[..|periods| - 1] == front;
      if Covers(p, now, hi - 1) {
        forall q | q in front ensures !Covers(q, now, hi - 1) {
          var i :| 0 <= i < |front| && front[i] == q;
          assert periods[i] == q && periods[|front|] == p;
        }
        StatusAtNone(front, now, hi - 1);
      }
    }
  }

  /** Summing overlaps counts instants, as long as periods do not overlap. */
  lemma {:induction false} TimeInCountsInstants(periods: seq<Period>, kind: Kind, lo: Time, hi: Time, now: Time)
    requires Disjoint(periods, now)
    ensures TimeIn(periods, kind, lo, hi, now) == Instants(periods, kind, now, lo, hi)
  {
    if periods == [] {
      NothingToCount(kind, now, lo, hi);
    } else {
      var front, p := periods[..|periods| - 1], periods[|periods| - 1];
      assert front + [p] == periods;
      assert Disjoint(front, now) by {
        assert forall i :: 0 <= i < |front| ==> front[i] == periods[i];
      }
      TimeInCountsInstants(front, kind, lo, hi, now);
      AppendAddsOverlap(front, p, kind, now, lo, hi);
    }
  }

  lemma {:induction false} NothingToCount(kind: Kind, now: Time, lo: Time, hi: Time)
    ensures Instants([], kind, now, lo, hi) == 0
    decreases hi - lo
  {
    if lo < hi {
      NothingToCount(kind, now, lo, hi - 1);
    }
  }

  lemma {:induction false} InstantsSplit(periods: seq<Period>, kind: Kind, now: Time, lo: Time, mid: Time, hi: Time)
    requires lo <= mid <= hi
    ensures Instants(periods, kind, now, lo, hi) ==
            Instants(periods, kind, now, lo, mid) + Instants(periods, kind, now, mid, hi)
    decreases hi - mid
  {
    if mid < hi {
      InstantsSplit(periods, kind, now, lo, mid, hi - 1);
    }
  }

  /** An instant is under maintenance or down, not both, so the two never exceed the interval. */
  lemma {:induction false} KindsShareTheInterval(periods: seq<Period>, now: Time, lo: Time, hi: Time)
    requires lo <= hi
    ensures Instants(periods, Maintenance, now, lo, hi) + Instants(periods, Down, now, lo, hi) <= hi - lo
    decreases hi - lo
  {
    if lo < hi {
      KindsShareTheInterval(periods, now, lo, hi - 1);
    }
  }

  // ----- The days add up to the window -----

  /** The part of the window before day n begins, cut at now. */
  ghost function Cut(createdAt: Time, now: Time, days: int, n: nat): Time {
    MaxTime(WindowLo(createdAt, now, days), MinTime(WindowStart(now, days) + n * DAY, now))
  }

  ghost function WindowLo(createdAt: Time, now: Time, days: int): Time {
    MaxTime(WindowStart(now, days), createdAt)
  }

  /** One day counts exactly the instants between two neighbouring cuts. */
  lemma DayIsBetweenCuts(createdAt: Time, now: Time, days: int, d: nat)
    requires d < Days(days)
    ensures var w := DayWindow(createdAt, now, days, d);
            var a, b := Cut(createdAt, now, days, d), Cut(createdAt, now, days, d + 1);
            && (w.hi > w.lo ==> a == w.lo && b == w.hi)
            && (w.hi <= w.lo ==> a == b)
            && WindowLo(createdAt, now, days) <= a <= b
  {
    assert (d + 1) * DAY == d * DAY + DAY;
    assert WindowStart(now, days) <= WindowStart(now, days) + d * DAY;
  }

  lemma CutEnds(createdAt: Time, now: Time, days: int)
    ensures Cut(createdAt, now, days, 0) == WindowLo(createdAt, now, days)
    ensures Cut(createdAt, now, days, Days(days)) == MaxTime(WindowLo(createdAt, now, days), now)
  {
    var n := Days(days);
    assert WindowStart(now, days) + n * DAY == now - now % DAY + DAY;
    assert 0 <= now % DAY < DAY;
    assert WindowStart(now, days) <= now;
  }

  lemma {:induction false} SumsUpToACut(periods: seq<Period>, createdAt: Time, now: Time, days: int, n: nat)
    requires Disjoint(periods, now) && n <= Days(days)
    ensures var lo, cut := WindowLo(createdAt, now, days), Cut(createdAt, now, days, n);
            && lo <= cut
            && DownUpTo(periods, createdAt, now, days, n) == Instants(periods, Down, now, lo, cut)
            && EffectiveUpTo(periods, createdAt, now, days, n) ==
               cut - lo - Instants(periods, Maintenance, now, lo, cut)
  {
    if n == 0 {
      CutEnds(createdAt, now, days);
    } else {
      SumsUpToACut(periods, createdAt, now, days, n - 1);
      DayCounts(periods, Down, createdAt, now, days, n - 1);
      DayCounts(periods, Maintenance, createdAt, now, days, n - 1);
    }
  }

  /** One more day of a kind: the instants between its two cuts. */
  lemma DayCounts(periods: seq<Period>, kind: Kind, createdAt: Time, now: Time, days: int, d: nat)
    requires Disjoint(periods, now) && d < Days(days)
    ensures Cut(createdAt, now, days, d + 1) - Cut(createdAt, now, days, d) ==
            LengthOf(DayWindow(createdAt, now, days, d))
    ensures WindowLo(createdAt, now, days) <= Cut(createdAt, now, days, d + 1)
    ensures var lo := WindowLo(createdAt, now, days);
            var a, b := Cut(createdAt, now, days, d), Cut(createdAt, now, days, d + 1);
            Instants(periods, kind, now, lo, b) ==
            Instants(periods, kind, now, lo, a) + KindOn(periods, kind, DayWindow(createdAt, now, days, d), now)
  {
    var lo, w := WindowLo(createdAt, now, days), DayWindow(createdAt, now, days, d);
    DayIsBetweenCuts(createdAt, now, days, d);
    TimeInCountsInstants(periods, kind, w.lo, w.hi, now);
    InstantsSplit(periods, kind, now, lo, Cut(createdAt, now, days, d), Cut(createdAt, now, days, d + 1));
  }

  /**
   Main result: the report is the ratio of instants of [max(windowStart, createdAt), now) that are
   neither under maintenance nor down to those that are not under maintenance.
   */
  lemma ReportIsPointwise(periods: seq<Period>, createdAt: Time, now: Time, days: int)
    requires Disjoint(periods, now)
    ensures var lo := MaxTime(WindowStart(now, days), createdAt);
            var total := MaxTime(now - lo, 0);
            Report(periods, createdAt, now, days).uptimePercent ==
            Percent(total - Instants(periods, Maintenance, now, lo, now), Instants(periods, Down, now, lo, now))
  {
    CutEnds(createdAt, now, days);
    SumsUpToACut(periods, createdAt, now, days, Days(days));
  }

  lemma DailyIsPointwise(periods: seq<Period>, createdAt: Time, now: Time, days: int, d: nat)
    requires Disjoint(periods, now) && d < Days(days)
    ensures var w := DayWindow(createdAt, now, days, d);
            Report(periods, createdAt, now, days).daily[d].percent ==
            Percent(MaxTime(w.hi - w.lo, 0) - Instants(periods, Maintenance, now, w.lo, w.hi),
                    Instants(periods, Down, now, w.lo, w.hi))
  {
    var w := DayWindow(createdAt, now, days, d);
    TimeInCountsInstants(periods, Down, w.lo, w.hi, now);
    TimeInCountsInstants(periods, Maintenance, w.lo, w.hi, now);
  }

  // ----- Percentages -----

  lemma PercentInRange(effective: int, down: int)
    requires 0 <= down <= effective
    ensures 0.0 <= Percent(effective, down) <= 100.0
  {
    if effective > 0 {
      var ratio := (effective - down) as real / effective as real;
      RatioInRange((effective - down) as real, effective as real);
      Round2InRange(ratio * 100.0);
    }
  }

  lemma RatioInRange(a: real, b: real)
    requires 0.0 <= a <= b && 0.0 < b
    ensures 0.0 <= a / b <= 1.0
  {
  }

  lemma Round2InRange(v: real)
    requires 0.0 <= v <= 100.0
    ensures 0.0 <= Round2(v) <= 100.0
  {
    assert 0 <= (v * 100.0 + 0.5).Floor <= 10000;
  }

  /** Truncation rounds correctly from -0.005 up; below that only at ties. */
  lemma RoundingErrorIff(v: real)
    ensures -0.005 <= Round2(v) - v <= 0.005 <==>
            v >= -0.005 || (v * 100.0 + 0.5).Floor as real == v * 100.0 + 0.5
  {
    var x := v * 100.0 + 0.5;
    assert Round2(v) * 100.0 == Trunc(x) as real;
    if x < 0.0 {
      var k := (-x).Floor;
      assert k as real <= -x < k as real + 1.0;
      if k as real == -x {
        assert x.Floor == -k;
      }
    }
  }

  /** Every daily percentage and the overall one lie between 0 and 100. */
  lemma ReportInRange(periods: seq<Period>, createdAt: Time, now: Time, days: int)
    requires Disjoint(periods, now)
    ensures 0.0 <= Report(periods, createdAt, now, days).uptimePercent <= 100.0
    ensures forall d :: 0 <= d < Days(days) ==> 0.0 <= Report(periods, createdAt, now, days).daily[d].percent <= 100.0
  {
    var lo := MaxTime(WindowStart(now, days), createdAt);
    ReportIsPointwise(periods, createdAt, now, days);
    if lo <= now {
      KindsShareTheInterval(periods, now, lo, now);
    }
    PercentInRange(MaxTime(now - lo, 0) - Instants(periods, Maintenance, now, lo, now),
      Instants(periods, Down, now, lo, now));
    forall d | 0 <= d < Days(days)
      ensures 0.0 <= Report(periods, createdAt, now, days).daily[d].percent <= 100.0
    {
      var w := DayWindow(createdAt, now, days, d);
      DailyIsPointwise(periods, createdAt, now, days, d);
      if w.lo <= w.hi {
        KindsShareTheInterval(periods, now, w.lo, w.hi);
      }
      PercentInRange(MaxTime(w.hi - w.lo, 0) - Instants(periods, Maintenance, now, w.lo, w.hi),
                     Instants(periods, Down, now, w.lo, w.hi));
    }
  }

  // ----- The slice read from the store is enough -----

  lemma TimeInAppend(front: seq<Period>, p: Period, kind: Kind, lo: Time, hi: Time, now: Time)
    ensures TimeIn(front + [p], kind, lo, hi, now) ==
            TimeIn(front, kind, lo, hi, now) +
            if Counts(kind, p.status) then Overlap(lo, hi, p.startedAt, EndOf(p, now)) else 0
  {
    assert (front + [p])[..|front|] == front;
  }

  lemma {:induction false} SliceKeepsTimeIn(
    periods: seq<Period>, since: Time, kind: Kind, lo: Time, hi: Time, now: Time)
    requires since <= lo
    ensures TimeIn(Since(periods, since), kind, lo, hi, now) == TimeIn(periods, kind, lo, hi, now)
  {
    if periods != [] {
      var front, p := periods[..|periods| - 1], periods[|periods| - 1];
      SliceKeepsTimeIn(front, since, kind, lo, hi, now);
      assert front + [p] == periods;
      TimeInAppend(front, p, kind, lo, hi, now);
      if p.endedAt.None? || p.endedAt.value >= since {
        TimeInAppend(Since(front, since), p, kind, lo, hi, now);
      } else {
        assert Since(periods, since) == Since(front, since);
        assert Overlap(lo, hi, p.startedAt, EndOf(p, now)) == 0;
      }
    }
  }

  lemma {:induction false} SliceKeepsSums(periods: seq<Period>, createdAt: Time, now: Time, days: int, n: nat)
    requires n <= Days(days)
    ensures var slice := Since(periods, WindowStart(now, days));
            && EffectiveUpTo(slice, createdAt, now, days, n) == EffectiveUpTo(periods, createdAt, now, days, n)
            && DownUpTo(slice, createdAt, now, days, n) == DownUpTo(periods, createdAt, now, days, n)
  {
    if n > 0 {
      SliceKeepsSums(periods, createdAt, now, days, n - 1);
      SliceKeepsDay(periods, createdAt, now, days, n - 1);
    }
  }

  lemma SliceKeepsDay(periods: seq<Period>, createdAt: Time, now: Time, days: int, d: nat)
    ensures var slice := Since(periods, WindowStart(now, days));
            var w := DayWindow(createdAt, now, days, d);
            && KindOn(slice, Maintenance, w, now) == KindOn(periods, Maintenance, w, now)
            && KindOn(slice, Down, w, now) == KindOn(periods, Down, w, now)
  {
    var since, w := WindowStart(now, days), DayWindow(createdAt, now, days, d);
    assert since <= w.lo;
    SliceKeepsTimeIn(periods, since, Maintenance, w.lo, w.hi, now);
    SliceKeepsTimeIn(periods, since, Down, w.lo, w.hi, now);
  }

  /** The handler's slice [windowStart, now] gives the same report as the whole history. */
  lemma SliceIsEnough(periods: seq<Period>, createdAt: Time, now: Time, days: int)
    ensures Report(Since(periods, WindowStart(now, days)), createdAt, now, days) ==
            Report(periods, createdAt, now, days)
  {
    var slice := Since(periods, WindowStart(now, days));
    SliceKeepsSums(periods, createdAt, now, days, Days(days));
    var a, b := Report(slice, createdAt, now, days), Report(periods, createdAt, now, days);
    forall d: nat | d < Days(days) ensures a.daily[d] == b.daily[d] {
      SliceKeepsDay(periods, createdAt, now, days, d);
    }
    assert a.daily == b.daily;
  }

  // ----- Histories of the store -----

  lemma {:induction false} StartsAscend(periods: seq<Period>, status: ComponentStatus, clock: Time, i: nat, j: nat)
    requires Timeline(periods, status, clock) && i <= j < |periods|
    ensures periods[i].startedAt <= periods[j].startedAt
    decreases j - i
  {
    if i < j {
      StartsAscend(periods, status, clock, i, j - 1);
      assert periods[j - 1].endedAt == Some(periods[j - 1 + 1].startedAt);
    }
  }

  lemma TimelineIsDisjoint(periods: seq<Period>, status: ComponentStatus, clock: Time, now: Time)
    requires Timeline(periods, status, clock)
    ensures Disjoint(periods, now)
  {
    forall i, j | 0 <= i < j < |periods| ensures EndOf(periods[i], now) <= periods[j].startedAt {
      assert periods[i].endedAt == Some(periods[i + 1].startedAt);
      StartsAscend(periods, status, clock, i + 1, j);
    }
  }

  /** After every run, page-checked or not, the report over the fetched slice is pointwise exact and in range. */
  lemma ReachableUptime(clock: Time, run: seq<Timed>, c: Id, now: Time, days: int)
    requires ClockedRun(clock, run)
    requires c in Run(EMPTY, clock, run).0.components
    ensures c in Run(EMPTY, clock, run).0.history
    ensures var t := Run(EMPTY, clock, run).0;
            var createdAt := t.components[c].createdAt;
            var lo := MaxTime(WindowStart(now, days), createdAt);
            var report := Report(Since(t.history[c], WindowStart(now, days)), createdAt, now, days);
            && report.uptimePercent ==
               Percent(MaxTime(now - lo, 0) - Instants(t.history[c], Maintenance, now, lo, now),
                       Instants(t.history[c], Down, now, lo, now))
            && 0.0 <= report.uptimePercent <= 100.0
            && forall d :: 0 <= d < |report.daily| ==> 0.0 <= report.daily[d].percent <= 100.0
  {
    RunKeepsHistories(EMPTY, clock, run);
    var (t, end) := Run(EMPTY, clock, run);
    var createdAt := t.components[c].createdAt;
    TimelineIsDisjoint(t.history[c], t.components[c].status, end, now);
    SliceIsEnough(t.history[c], createdAt, now, days);
    ReportIsPointwise(t.history[c], createdAt, now, days);
    ReportInRange(t.history[c], createdAt, now, days);
  }

  // ----- Histories remember -----

  /** Closing the open period and appending a new one rewrites no earlier instant. */
  lemma SwitchKeepsThePast(
    periods: seq<Period>, old_: ComponentStatus, clock: Time, status: ComponentStatus, source: Source,
    now: Time, later: Time, x: Time)
    requires Timeline(periods, old_, clock) && x < now <= later
    ensures StatusAt(Switch(periods, status, source, now), later, x) == StatusAt(periods, now, x)
  {
    var next := Switch(periods, status, source, now);
    assert next[..|next| - 1] == CloseOpen(periods, now);
    CloseOpenKeepsThePast(periods, now, later, x);
  }

  lemma {:induction false} CloseOpenKeepsThePast(periods: seq<Period>, now: Time, later: Time, x: Time)
    ensures StatusAt(CloseOpen(periods, now), later, x) == StatusAt(periods, now, x)
  {
    if periods != [] {
      var front := periods[..|periods| - 1];
      CloseOpenKeepsThePast(front, now, later, x);
      assert CloseOpen(periods, now)[..|periods| - 1] == CloseOpen(front, now);
    }
  }

  /** Reading an open history later does not change what it says about the past. */
  lemma {:induction false} LaterReading(periods: seq<Period>, now: Time, later: Time, x: Time)
    requires x < now <= later
    ensures StatusAt(periods, later, x) == StatusAt(periods, now, x)
  {
    if periods != [] {
      LaterReading(periods[..|periods| - 1], now, later, x);
    }
  }

  /** What one transaction can do to one history. */
  lemma ApplySwitchesOrKeeps(t: Tables, op: Op, now: Time, c: Id)
    requires t.history.Keys == t.components.Keys && c in t.components
    ensures var u := Apply(t, op, now);
            && c in u.components && c in u.history
            && u.components[c].createdAt == t.components[c].createdAt
            && (u.history[c] == t.history[c]
              || exists s, source :: u.history[c] == Switch(t.history[c], s, source, now))
  {
    if op.CreateIncidentOp? || op.UpdateIncidentOp? || op.AddUpdateOp? || op.DeleteIncidentOp? {
      IncidentOpSwitches(t, op, now, c);
    } else if op.CreateMaintenanceOp? || op.UpdateMaintenanceOp? || op.DeleteMaintenanceOp? {
      MaintenanceOpSwitches(t, op, now, c);
    }
  }

  /** The component's history is as before, or has been switched. */
  ghost predicate SwitchedAt(t: Tables, u: Tables, now: Time, c: Id) {
    && c in t.components && c in t.history && c in u.components && c in u.history
    && u.components[c].createdAt == t.components[c].createdAt
    && (u.history[c] == t.history[c] || exists s, source :: u.history[c] == Switch(t.history[c], s, source, now))
  }

  lemma RecomputeSwitches(t: Tables, u: Tables, page: Id, ids: set<Id>, now: Time, c: Id)
    requires t.history.Keys == t.components.Keys && c in t.components
    requires u.components == t.components && u.history == t.history
    ensures SwitchedAt(t, Recomputed(u, page, ids, now), now, c)
  {
    RecomputedAt(u, page, ids, now, c);
  }

  lemma IncidentOpSwitches(t: Tables, op: Op, now: Time, c: Id)
    requires t.history.Keys == t.components.Keys && c in t.components
    requires op.CreateIncidentOp? || op.UpdateIncidentOp? || op.AddUpdateOp? || op.DeleteIncidentOp?
    ensures SwitchedAt(t, Apply(t, op, now), now, c)
  {
    forall u: Tables, page, ids: set<Id> | u.components == t.components && u.history == t.history
      ensures SwitchedAt(t, Recomputed(u, page, ids, now), now, c)
    {
      RecomputeSwitches(t, u, page, ids, now, c);
    }
  }

  lemma MaintenanceOpSwitches(t: Tables, op: Op, now: Time, c: Id)
    requires t.history.Keys == t.components.Keys && c in t.components
    requires op.CreateMaintenanceOp? || op.UpdateMaintenanceOp? || op.DeleteMaintenanceOp?
    ensures SwitchedAt(t, Apply(t, op, now), now, c)
  {
    forall u: Tables, page, ids: set<Id> | u.components == t.components && u.history == t.history
      ensures SwitchedAt(t, Recomputed(u, page, ids, now), now, c)
    {
      RecomputeSwitches(t, u, page, ids, now, c);
    }
  }

  /** Every later run leaves the recorded past of a component as it was. */
  lemma {:induction false} RunKeepsThePast(
    t: Tables, clock: Time, run: seq<Timed>, c: Id, x: Time, at: Time, later: Time)
    requires HistoryInv(t, clock) && ClockedRun(clock, run) && c in t.components
    requires x < at <= later && Run(t, clock, run).1 <= later
    requires run == [] || x < run[0].now
    ensures c in Run(t, clock, run).0.history
    ensures StatusAt(Run(t, clock, run).0.history[c], later, x) == StatusAt(t.history[c], at, x)
    decreases |run|
  {
    if run == [] {
      LaterReading(t.history[c], at, later, x);
    } else {
      var now := run[0].now;
      var u := Apply(t, run[0].op, now);
      ApplyKeepsHistories(t, run[0].op, clock, now);
      ApplySwitchesOrKeeps(t, run[0].op, now, c);
      RunKeepsHistories(u, now, run[1..]);
      RunKeepsThePast(u, now, run[1..], c, x, MaxTime(now, x + 1), later);
      StepKeepsThePast(t.history[c], u.history[c], t.components[c].status, clock, now, x, at);
    }
  }

  lemma StepKeepsThePast(
    before: seq<Period>, after: seq<Period>, status: ComponentStatus, clock: Time, now: Time, x: Time, at: Time)
    requires before == [] || Timeline(before, status, clock)
    requires after == before || exists s, source :: after == Switch(before, s, source, now)
    requires clock <= now && x < now && x < at
    ensures StatusAt(after, MaxTime(now, x + 1), x) == StatusAt(before, at, x)
  {
    LaterReading(before, x + 1, now, x);
    LaterReading(before, x + 1, at, x);
    LaterReading(after, x + 1, MaxTime(now, x + 1), x);
    if after != before {
      var s, source :| after == Switch(before, s, source, now);
      SwitchKeepsThePast(before, status, clock, s, source, now, now, x);
      LaterReading(after, x + 1, now, x);
    }
  }

  /**
   Main result: long after, the history still shows for every instant the status the component had
   at that instant, provided a change had been recorded by then.
   */
  lemma HistoryRemembers(t: Tables, clock: Time, run: seq<Timed>, c: Id, x: Time, later: Time)
    requires HistoryInv(t, clock) && ClockedRun(clock, run) && c in t.components
    requires clock <= x < later && Run(t, clock, run).1 <= later
    requires run == [] || x < run[0].now
    ensures c in Run(t, clock, run).0.history
    ensures StatusAt(Run(t, clock, run).0.history[c], later, x) ==
            if t.history[c] == [] then None else Some(t.components[c].status)
  {
    RunKeepsThePast(t, clock, run, c, x, later, later);
  }
}
