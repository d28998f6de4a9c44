/**
 Component statuses and their aggregation (backend/internal/domain/status.go).

 A Go ComponentStatus is a string; the five normative values are constructors and every other
 string is `Other`.
 */
module Statuses {
  datatype ComponentStatus =
    | Operational
    | DegradedPerformance
    | PartialOutage
    | MajorOutage
    | UnderMaintenance
    | Other(code: string)

  predicate IsValid(s: ComponentStatus) {
    !s.Other?
  }

  /** Display priority: maintenance hides degradation, real outages hide maintenance. */
  function DisplaySeverity(s: ComponentStatus): int {
    match s
    case Operational => 0
    case DegradedPerformance => 1
    case UnderMaintenance => 2
    case PartialOutage => 3
    case MajorOutage => 4
    case Other(_) => -1
  }

  /** The ladder of display: operational, degraded, maintenance, partial outage, major outage; unknown is below all. */
  lemma LadderOfDisplay(code: string)
    ensures DisplaySeverity(Other(code)) < DisplaySeverity(Operational) < DisplaySeverity(DegradedPerformance)
    ensures DisplaySeverity(DegradedPerformance) < DisplaySeverity(UnderMaintenance)
    ensures DisplaySeverity(UnderMaintenance) < DisplaySeverity(PartialOutage) < DisplaySeverity(MajorOutage)
    ensures WorstIn({UnderMaintenance, DegradedPerformance}) == UnderMaintenance
    ensures WorstIn({UnderMaintenance, PartialOutage}) == PartialOutage
    ensures WorstIn({PartialOutage, MajorOutage}) == MajorOutage && WorstIn({}) == Operational
    ensures WorstIn({Operational, DegradedPerformance}) == DegradedPerformance
  {
  }

  /**
   The worst status of a set, read off the display ladder from the top. It is the reference for
   the running-maximum loop of `WorstStatus` and does not mention severities.
   */
  function WorstIn(seen: set<ComponentStatus>): (worst: ComponentStatus)
    ensures worst in seen || worst == Operational
    ensures IsValid(worst)
    ensures forall s :: s in seen ==> DisplaySeverity(s) <= DisplaySeverity(worst)
  {
    if MajorOutage in seen then MajorOutage
    else if PartialOutage in seen then PartialOutage
    else if UnderMaintenance in seen then UnderMaintenance
    else if DegradedPerformance in seen then DegradedPerformance
    else Operational
  }

  /** The contract of `WorstIn` leaves no other answer. */
  lemma WorstInIsUnique(seen: set<ComponentStatus>, w: ComponentStatus)
    requires w in seen || w == Operational
    requires IsValid(w)
    requires forall s :: s in seen ==> DisplaySeverity(s) <= DisplaySeverity(w)
    ensures w == WorstIn(seen)
  {
    var v := WorstIn(seen);
    assert DisplaySeverity(v) <= DisplaySeverity(w) && DisplaySeverity(w) <= DisplaySeverity(v);
  }

  /** Aggregating in two stages gives the same answer as aggregating once. */
  lemma WorstInUnion(a: set<ComponentStatus>, b: set<ComponentStatus>)
    ensures WorstIn(a + b) == WorstIn({WorstIn(a), WorstIn(b)})
  {
    WorstInIsUnique({WorstIn(a), WorstIn(b)}, WorstIn(a + b));
  }

  function Members(statuses: seq<ComponentStatus>): set<ComponentStatus> {
    set s | s in statuses
  }

  /** The loop of WorstStatus: strictly greater severity replaces the running worst. */
  method WorstStatus(statuses: seq<ComponentStatus>) returns (worst: ComponentStatus)
    ensures worst == WorstIn(Members(statuses))
  {
    worst := Operational;
    var worstSev := 0;
    for i := 0 to |statuses|
      invariant worst == WorstIn(Members(statuses[..i]))
      invariant worstSev == DisplaySeverity(worst)
    {
      assert Members(statuses[..i + 1]) == Members(statuses[..i]) + {statuses[i]};
      var sev := DisplaySeverity(statuses[i]);
      if sev > worstSev {
        worst, worstSev := statuses[i], sev;
      }
    }
    assert statuses[..|statuses|] == statuses;
  }
}
