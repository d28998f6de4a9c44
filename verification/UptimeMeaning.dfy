/** What an uptime report says: which share of the time not under maintenance a component was not down. */
module UptimeMeaning {
  import opened Base
  import opened Statuses
  import opened StatusTables
  import opened StatusRuns
  import opened StatusHistories
  import opened Uptime
  import opened UptimeProofs

  // ----- Counting instants by what the history shows -----

  ghost predicate InService(periods: seq<Period>, now: Time, x: Time) {
    StatusAt(periods, now, x) != Some(UnderMaintenance)
  }

  ghost predicate IsUp(periods: seq<Period>, now: Time, x: Time) {
    && InService(periods, now, x)
    && StatusAt(periods, now, x) != Some(PartialOutage) && StatusAt(periods, now, x) != Some(MajorOutage)
  }

  /** How many instants of [lo, hi) are not under maintenance. */
  ghost function ServiceTime(periods: seq<Period>, now: Time, lo: Time, hi: Time): nat
    decreases hi - lo
  {
    if lo >= hi then 0
    else ServiceTime(periods, now, lo, hi - 1) + if InService(periods, now, hi - 1) then 1 else 0
  }

  /** How many of them are neither under maintenance nor down. */
  ghost function UpTime(periods: seq<Period>, now: Time, lo: Time, hi: Time): nat
    decreases hi - lo
  {
    if lo >= hi then 0
    else UpTime(periods, now, lo, hi - 1) + if IsUp(periods, now, hi - 1) then 1 else 0
  }

  lemma {:induction false} ServiceAndUp(periods: seq<Period>, now: Time, lo: Time, hi: Time)
    ensures ServiceTime(periods, now, lo, hi) == MaxTime(hi - lo, 0) - Instants(periods, Maintenance, now, lo, hi)
    ensures UpTime(periods, now, lo, hi) ==
            ServiceTime(periods, now, lo, hi) - Instants(periods, Down, now, lo, hi)
    decreases hi - lo
  {
    if lo < hi {
      ServiceAndUp(periods, now, lo, hi - 1);
    }
  }

  lemma {:induction false} UpIsInService(periods: seq<Period>, now: Time, lo: Time, hi: Time)
    ensures UpTime(periods, now, lo, hi) <= ServiceTime(periods, now, lo, hi)
    decreases hi - lo
  {
    if lo < hi {
      UpIsInService(periods, now, lo, hi - 1);
    }
  }

  // ----- Percentages -----

  /** p is `up` of `service` in percent, to two places; nothing to serve counts as full uptime. */
  ghost predicate IsShare(p: real, up: nat, service: nat) {
    if service == 0 then p == 100.0
    else -0.005 <= p - up as real / service as real * 100.0 <= 0.005 && OnGrid(p)
  }

  /** A multiple of a hundredth. */
  ghost predicate OnGrid(p: real) {
    (p * 100.0).Floor as real == p * 100.0
  }

  lemma PercentIsShare(up: nat, service: nat)
    requires up <= service
    ensures IsShare(Percent(service, service - up), up, service)
  {
    if service > 0 {
      var v := up as real / service as real * 100.0;
      RatioInRange(up as real, service as real);
      RoundingErrorIff(v);
      assert Round2(v) * 100.0 == Trunc(v * 100.0 + 0.5) as real;
    }
  }

  /** Midnight UTC at the start of the instant's day. */
  function Midnight(x: Time): Time {
    x - x % DAY
  }

  /** The first instant of the window of max(days, 1) days that ends with today. */
  function FirstMidnight(now: Time, days: int): Time {
    if days > 1 then Midnight(now) - (days - 1) * DAY else Midnight(now)
  }

  /** All percentages of the report are shares of service time: of the window, and of each of its days. */
  ghost predicate TellsShares(report: UptimeReport, periods: seq<Period>, createdAt: Time, now: Time, days: int) {
    var first := FirstMidnight(now, days);
    && report.days == |report.daily| == (if days > 1 then days else 1)
    && IsShare(report.uptimePercent,
               UpTime(periods, now, MaxTime(first, createdAt), now),
               ServiceTime(periods, now, MaxTime(first, createdAt), now))
    && forall d :: 0 <= d < |report.daily| ==> TellsDay(report.daily[d], periods, createdAt, now, first + d * DAY)
  }

  /** The entry of the day that begins at `start`, as far as it is past and the component existed. */
  ghost predicate TellsDay(day: DailyUptime, periods: seq<Period>, createdAt: Time, now: Time, start: Time) {
    && day.date == start
    && IsShare(day.percent,
               UpTime(periods, now, MaxTime(start, createdAt), MinTime(start + DAY, now)),
               ServiceTime(periods, now, MaxTime(start, createdAt), MinTime(start + DAY, now)))
  }

  lemma ShareOf(periods: seq<Period>, now: Time, lo: Time, hi: Time)
    ensures IsShare(Percent(MaxTime(hi - lo, 0) - Instants(periods, Maintenance, now, lo, hi),
                            Instants(periods, Down, now, lo, hi)),
                    UpTime(periods, now, lo, hi), ServiceTime(periods, now, lo, hi))
  {
    ServiceAndUp(periods, now, lo, hi);
    UpIsInService(periods, now, lo, hi);
    PercentIsShare(UpTime(periods, now, lo, hi), ServiceTime(periods, now, lo, hi));
  }

  /** Main result: on a history without overlapping periods the report tells the shares of its window and days. */
  lemma ReportTellsShares(periods: seq<Period>, createdAt: Time, now: Time, days: int)
    requires Disjoint(periods, now)
    ensures TellsShares(Report(periods, createdAt, now, days), periods, createdAt, now, days)
  {
    var report, first := Report(periods, createdAt, now, days), FirstMidnight(now, days);
    assert first == WindowStart(now, days);
    ReportIsPointwise(periods, createdAt, now, days);
    ShareOf(periods, now, MaxTime(first, createdAt), now);
    forall d | 0 <= d < |report.daily|
      ensures TellsDay(report.daily[d], periods, createdAt, now, first + d * DAY)
    {
      DayTellsShare(periods, createdAt, now, days, d, first + d * DAY);
    }
  }

  lemma DayTellsShare(periods: seq<Period>, createdAt: Time, now: Time, days: int, d: nat, start: Time)
    requires Disjoint(periods, now) && d < Days(days) && start == WindowStart(now, days) + d * DAY
    ensures TellsDay(Report(periods, createdAt, now, days).daily[d], periods, createdAt, now, start)
  {
    DailyIsPointwise(periods, createdAt, now, days, d);
    ShareOf(periods, now, MaxTime(start, createdAt), MinTime(start + DAY, now));
  }

  /**
   Main result: in every state that any run of store operations reaches, the report computed from the rows
   since the first midnight of the window tells the shares of service time that the whole history shows.
   */
  lemma ReachableReportTellsShares(clock: Time, run: seq<Timed>, c: Id, now: Time, days: int)
    requires ClockedRun(clock, run)
    requires c in Run(EMPTY, clock, run).0.components
    ensures c in Run(EMPTY, clock, run).0.history
    ensures var t := Run(EMPTY, clock, run).0;
            TellsShares(Report(Since(t.history[c], FirstMidnight(now, days)), t.components[c].createdAt, now, days),
                        t.history[c], t.components[c].createdAt, now, days)
  {
    RunKeepsHistories(EMPTY, clock, run);
    var (t, end) := Run(EMPTY, clock, run);
    TimelineIsDisjoint(t.history[c], t.components[c].status, end, now);
    assert FirstMidnight(now, days) == WindowStart(now, days);
    SliceIsEnough(t.history[c], t.components[c].createdAt, now, days);
    ReportTellsShares(t.history[c], t.components[c].createdAt, now, days);
  }
}
