/**
 Uptime reports (backend/internal/domain/uptime.go), over integer instants and real percentages.
 */
module Uptime {
  import opened Base
  import opened Statuses
  import opened StatusTables

  /** 24 hours in nanosecond ticks; in UTC every calendar day has this length. */
  const DAY: int := 86_400_000_000_000

  datatype DailyUptime = DailyUptime(date: Time, percent: real)

  datatype UptimeReport = UptimeReport(days: int, uptimePercent: real, daily: seq<DailyUptime>)

  function MaxTime(a: Time, b: Time): Time {
    if a > b then a else b
  }

  function MinTime(a: Time, b: Time): Time {
    if a < b then a else b
  }

  /** Length of [a1, a2) ∩ [b1, b2). */
  function Overlap(a1: Time, a2: Time, b1: Time, b2: Time): int {
    var lo, hi := MaxTime(a1, b1), MinTime(a2, b2);
    if hi > lo then hi - lo else 0
  }

  // ----- What is counted -----

  datatype Kind = Maintenance | Down

  predicate Counts(kind: Kind, s: ComponentStatus) {
    match kind
    case Maintenance => s == UnderMaintenance
    case Down => s == PartialOutage || s == MajorOutage
  }

  function EndOf(p: Period, now: Time): Time {
    if p.endedAt.None? then now else p.endedAt.value
  }

  /** Time of one kind within [lo, hi), as the sum of the overlaps of the periods. */
  function TimeIn(periods: seq<Period>, kind: Kind, lo: Time, hi: Time, now: Time): int {
    if periods == [] then 0
    else
      var p := periods[|periods| - 1];
      TimeIn(periods[..|periods| - 1], kind, lo, hi, now) +
      if Counts(kind, p.status) then Overlap(lo, hi, p.startedAt, EndOf(p, now)) else 0
  }

  // ----- The report -----

  /** Go's conversion to int64 truncates toward zero. */
  function Trunc(x: real): int {
    if x >= 0.0 then x.Floor else -((-x).Floor)
  }

  function Round2(v: real): real {
    Trunc(v * 100.0 + 0.5) as real / 100.0
  }

  function Percent(effective: int, down: int): real {
    if effective > 0 then Round2((effective - down) as real / effective as real * 100.0) else 100.0
  }

  function Days(days: int): int {
    if days < 1 then 1 else days
  }

  /** Start of the window: midnight UTC, days - 1 days before today. */
  function WindowStart(now: Time, days: int): Time {
    now - now % DAY - (Days(days) - 1) * DAY
  }

  datatype Window = Window(lo: Time, hi: Time)

  /** Day `d` of the window, clipped by the component's creation and by now. */
  function DayWindow(createdAt: Time, now: Time, days: int, d: int): Window {
    var dayStart := WindowStart(now, days) + d * DAY;
    Window(MaxTime(dayStart, createdAt), MinTime(dayStart + DAY, now))
  }

  function LengthOf(w: Window): int {
    if w.hi > w.lo then w.hi - w.lo else 0
  }

  function KindOn(periods: seq<Period>, kind: Kind, w: Window, now: Time): int {
    if w.hi > w.lo then TimeIn(periods, kind, w.lo, w.hi, now) else 0
  }

  function EffectiveOn(periods: seq<Period>, w: Window, now: Time): int {
    LengthOf(w) - KindOn(periods, Maintenance, w, now)
  }

  function EffectiveUpTo(periods: seq<Period>, createdAt: Time, now: Time, days: int, n: nat): int {
    if n == 0 then 0
    else EffectiveUpTo(periods, createdAt, now, days, n - 1) +
         EffectiveOn(periods, DayWindow(createdAt, now, days, n - 1), now)
  }

  function DownUpTo(periods: seq<Period>, createdAt: Time, now: Time, days: int, n: nat): int {
    if n == 0 then 0
    else DownUpTo(periods, createdAt, now, days, n - 1) +
         KindOn(periods, Down, DayWindow(createdAt, now, days, n - 1), now)
  }

  function DayReport(periods: seq<Period>, createdAt: Time, now: Time, days: int, d: int): DailyUptime {
    var w := DayWindow(createdAt, now, days, d);
    DailyUptime(WindowStart(now, days) + d * DAY, Percent(EffectiveOn(periods, w, now), KindOn(periods, Down, w, now)))
  }

  /** The report as sums of overlaps; `UptimeProofs` shows what it means instant by instant. */
  function Report(periods: seq<Period>, createdAt: Time, now: Time, days: int): UptimeReport {
    UptimeReport(
      Days(days),
      Percent(EffectiveUpTo(periods, createdAt, now, days, Days(days)),
        DownUpTo(periods, createdAt, now, days, Days(days))),
      seq(Days(days), d => DayReport(periods, createdAt, now, days, d)))
  }

  /** The inner loop: time under maintenance and time down within one clipped day. */
  method TallyDay(periods: seq<Period>, lo: Time, hi: Time, now: Time) returns (dayMaint: int, dayDown: int)
    ensures dayMaint == TimeIn(periods, Maintenance, lo, hi, now)
    ensures dayDown == TimeIn(periods, Down, lo, hi, now)
  {
    dayMaint, dayDown := 0, 0;
    for i := 0 to |periods|
      invariant dayMaint == TimeIn(periods[..i], Maintenance, lo, hi, now)
      invariant dayDown == TimeIn(periods[..i], Down, lo, hi, now)
    {
      var p := periods[i];
      assert periods[..i + 1][..i] == periods[..i];
      var pe := now;
      if p.endedAt.Some? {
        pe := p.endedAt.value;
      }
      var ov := Overlap(lo, hi, p.startedAt, pe);
      if ov <= 0 {
        continue;
      }
      match p.status {
        case UnderMaintenance =>
          dayMaint := dayMaint + ov;
        case PartialOutage | MajorOutage =>
          dayDown := dayDown + ov;
        case _ =>
      }
    }
    assert periods[..|periods|] == periods;
  }

  /** The percentage of a day, or of the whole window. */
  method PercentOf(effective: int, down: int) returns (percent: real)
    ensures percent == Percent(effective, down)
  {
    var raw := 100.0;
    if effective > 0 {
      raw := (effective - down) as real / effective as real * 100.0;
    }
    assert Round2(100.0) == 100.0;
    percent := Round2(raw);
  }

  method ComputeUptime(periods: seq<Period>, createdAt: Time, now: Time, days: int) returns (report: UptimeReport)
    ensures report == Report(periods, createdAt, now, days)
  {
    var n := days;
    if n < 1 {
      n := 1;
    }
    var todayStart := now - now % DAY;
    var windowStart := todayStart - (n - 1) * DAY;

    var daily: seq<DailyUptime> := [];
    var totalEffective, totalDown := 0, 0;
    for d := 0 to n
      invariant totalEffective == EffectiveUpTo(periods, createdAt, now, days, d)
      invariant totalDown == DownUpTo(periods, createdAt, now, days, d)
      invariant |daily| == d && forall k :: 0 <= k < d ==> daily[k] == DayReport(periods, createdAt, now, days, k)
    {
      var dayStart := windowStart + d * DAY;
      var dayEnd := dayStart + DAY;
      var lo := MaxTime(dayStart, createdAt);
      var hi := MinTime(dayEnd, now);
      assert DayWindow(createdAt, now, days, d) == Window(lo, hi);
      var dayTotal, dayMaint, dayDown := 0, 0, 0;
      if hi > lo {
        dayTotal := hi - lo;
        dayMaint, dayDown := TallyDay(periods, lo, hi, now);
      }
      var effective := dayTotal - dayMaint;
      var dayPercent := PercentOf(effective, dayDown);
      daily := daily + [DailyUptime(dayStart, dayPercent)];
      totalEffective := totalEffective + effective;
      totalDown := totalDown + dayDown;
    }

    var uptimePercent := PercentOf(totalEffective, totalDown);
    report := UptimeReport(n, uptimePercent, daily);
  }
}
