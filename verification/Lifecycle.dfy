/**
 Lifecycles of incidents and maintenances (backend/internal/domain/incident.go and
 backend/internal/domain/maintenance.go): the status changes and the timestamps they keep.
 */
module Lifecycle {
  import opened Base

  datatype IncidentStatus =
    | Investigating
    | Identified
    | Monitoring
    | Resolved
    | UnknownIncident(code: string)

  datatype MaintenanceStatus =
    | Scheduled
    | InProgress
    | Completed
    | UnknownMaintenance(code: string)

  datatype Impact = NoImpact | Minor | Major | Critical

  datatype LifecycleError =
    | InvalidIncidentStatus
    | InvalidMaintenanceStatus
    | PostmortemBeforeResolved

  // ----- Incidents -----

  datatype IncidentLife = IncidentLife(status: IncidentStatus, resolvedAt: Option<Time>)

  datatype IncidentChange = IncidentChange(status: IncidentStatus, at: Time)

  /** One status change. A status outside the enum is refused and changes nothing. */
  function ChangeIncident(life: IncidentLife, c: IncidentChange): IncidentLife {
    if c.status.UnknownIncident? then life
    else if c.status == Resolved then
      IncidentLife(Resolved, if life.resolvedAt.None? then Some(c.at) else life.resolvedAt)
    else IncidentLife(c.status, None)
  }

  function RunIncident(life: IncidentLife, changes: seq<IncidentChange>): IncidentLife {
    if changes == [] then life
    else ChangeIncident(RunIncident(life, changes[..|changes| - 1]), changes[|changes| - 1])
  }

  /** The changes that are not refused, in order. */
  function AcceptedIncident(changes: seq<IncidentChange>): (r: seq<IncidentChange>)
    ensures forall c :: c in r ==> !c.status.UnknownIncident?
  {
    if changes == [] then []
    else
      var last := changes[|changes| - 1];
      AcceptedIncident(changes[..|changes| - 1]) + if last.status.UnknownIncident? then [] else [last]
  }

  lemma {:induction false} RefusedChangesAreInvisible(life: IncidentLife, changes: seq<IncidentChange>)
    ensures RunIncident(life, changes) == RunIncident(life, AcceptedIncident(changes))
  {
    if changes != [] {
      var front, last := changes[..|changes| - 1], changes[|changes| - 1];
      RefusedChangesAreInvisible(life, front);
      if !last.status.UnknownIncident? {
        var kept := AcceptedIncident(front) + [last];
        assert AcceptedIncident(changes) == kept && kept[..|kept| - 1] == AcceptedIncident(front);
      } else {
        assert AcceptedIncident(changes) == AcceptedIncident(front);
      }
    }
  }

  /** `start` opens the run of Resolved changes that ends the list; it is |changes| if there is none. */
  ghost predicate TrailingResolved(changes: seq<IncidentChange>, start: nat) {
    && start <= |changes|
    && (forall j :: start <= j < |changes| ==> changes[j].status == Resolved)
    && (start > 0 ==> changes[start - 1].status != Resolved)
  }

  lemma TrailingResolvedExists(changes: seq<IncidentChange>) returns (start: nat)
    ensures TrailingResolved(changes, start)
  {
    start := |changes|;
    while start > 0 && changes[start - 1].status == Resolved
      invariant start <= |changes|
      invariant forall j :: start <= j < |changes| ==> changes[j].status == Resolved
    {
      start := start - 1;
    }
  }

  /** ResolvedAt of a new incident is the time of the first change of the trailing Resolved run. */
  lemma {:induction false} ResolvedAtIsStartOfTrailingRun(
    life: IncidentLife, changes: seq<IncidentChange>, start: nat)
    requires life.resolvedAt == None
    requires forall c :: c in changes ==> !c.status.UnknownIncident?
    requires TrailingResolved(changes, start)
    ensures RunIncident(life, changes).resolvedAt ==
            if start < |changes| then Some(changes[start].at) else None
    ensures changes != [] ==> RunIncident(life, changes).status == changes[|changes| - 1].status
  {
    if changes != [] {
      var front, last := changes[..|changes| - 1], changes[|changes| - 1];
      assert last in changes;
      assert forall c :: c in front ==> c in changes;
      if last.status == Resolved {
        ResolvedAtIsStartOfTrailingRun(life, front, start);
      }
    }
  }

  /** Whatever changes are asked for, refused ones among them, the accepted ones have such a trailing run. */
  lemma ResolvedAtAfterAnyChanges(life: IncidentLife, changes: seq<IncidentChange>) returns (start: nat)
    requires life.resolvedAt == None
    ensures var kept := AcceptedIncident(changes);
            && TrailingResolved(kept, start)
            && RunIncident(life, changes).resolvedAt == if start < |kept| then Some(kept[start].at) else None
  {
    var kept := AcceptedIncident(changes);
    start := TrailingResolvedExists(kept);
    RefusedChangesAreInvisible(life, changes);
    ResolvedAtIsStartOfTrailingRun(life, kept, start);
  }

  /** An incident is open exactly while it carries no resolution time. */
  predicate IncidentConsistent(life: IncidentLife) {
    life.resolvedAt.Some? <==> life.status == Resolved
  }

  lemma {:induction false} IncidentStaysConsistent(life: IncidentLife, changes: seq<IncidentChange>)
    requires IncidentConsistent(life)
    ensures IncidentConsistent(RunIncident(life, changes))
  {
    if changes != [] {
      IncidentStaysConsistent(life, changes[..|changes| - 1]);
    }
  }

  class Incident {
    var currentStatus: IncidentStatus
    var resolvedAt: Option<Time>
    var postmortem: Option<string>

    constructor (life: IncidentLife)
      ensures Life() == life && postmortem == None
    {
      currentStatus, resolvedAt, postmortem := life.status, life.resolvedAt, None;
    }

    function Life(): IncidentLife
      reads this
    {
      IncidentLife(currentStatus, resolvedAt)
    }

    method ApplyStatusChange(status: IncidentStatus, at: Time) returns (err: Option<LifecycleError>)
      modifies this`currentStatus, this`resolvedAt
      ensures Life() == ChangeIncident(old(Life()), IncidentChange(status, at))
      ensures err == if status.UnknownIncident? then Some(InvalidIncidentStatus) else None
    {
      if status.UnknownIncident? {
        return Some(InvalidIncidentStatus);
      }
      currentStatus := status;
      if status == Resolved {
        if resolvedAt.None? {
          resolvedAt := Some(at);
        }
        return None;
      }
      resolvedAt := None;
      return None;
    }

    method SetPostmortem(text: string) returns (err: Option<LifecycleError>)
      modifies this`postmortem
      ensures currentStatus != Resolved ==> err == Some(PostmortemBeforeResolved) && postmortem == old(postmortem)
      ensures currentStatus == Resolved ==> err == None && postmortem == if text == "" then None else Some(text)
    {
      if currentStatus != Resolved {
        return Some(PostmortemBeforeResolved);
      }
      postmortem := if text == "" then None else Some(text);
      return None;
    }
  }

  // ----- Maintenances -----

  datatype MaintenanceLife =
    MaintenanceLife(status: MaintenanceStatus, startedAt: Option<Time>, completedAt: Option<Time>)

  datatype MaintenanceChange = MaintenanceChange(status: MaintenanceStatus, at: Time)

  function Stamp(t: Option<Time>, at: Time): Option<Time> {
    if t.None? then Some(at) else t
  }

  function ChangeMaintenance(life: MaintenanceLife, c: MaintenanceChange): MaintenanceLife {
    match c.status
    case UnknownMaintenance(_) => life
    case Scheduled => MaintenanceLife(Scheduled, None, None)
    case InProgress => MaintenanceLife(InProgress, Stamp(life.startedAt, c.at), None)
    case Completed => MaintenanceLife(Completed, life.startedAt, Stamp(life.completedAt, c.at))
  }

  function RunMaintenance(life: MaintenanceLife, changes: seq<MaintenanceChange>): MaintenanceLife {
    if changes == [] then life
    else ChangeMaintenance(RunMaintenance(life, changes[..|changes| - 1]), changes[|changes| - 1])
  }

  function AcceptedMaintenance(changes: seq<MaintenanceChange>): (r: seq<MaintenanceChange>)
    ensures AllAccepted(r)
  {
    if changes == [] then []
    else
      var last := changes[|changes| - 1];
      AcceptedMaintenance(changes[..|changes| - 1]) + if last.status.UnknownMaintenance? then [] else [last]
  }

  lemma {:induction false} RefusedMaintenanceChangesAreInvisible(
    life: MaintenanceLife, changes: seq<MaintenanceChange>)
    ensures RunMaintenance(life, changes) == RunMaintenance(life, AcceptedMaintenance(changes))
  {
    if changes != [] {
      var front, last := changes[..|changes| - 1], changes[|changes| - 1];
      RefusedMaintenanceChangesAreInvisible(life, front);
      if !last.status.UnknownMaintenance? {
        var kept := AcceptedMaintenance(front) + [last];
        assert AcceptedMaintenance(changes) == kept && kept[..|kept| - 1] == AcceptedMaintenance(front);
      } else {
        assert AcceptedMaintenance(changes) == AcceptedMaintenance(front);
      }
    }
  }

  ghost predicate AllAccepted(changes: seq<MaintenanceChange>) {
    forall c :: c in changes ==> !c.status.UnknownMaintenance?
  }

  /** `from` starts the part of the list after the last Scheduled change. */
  ghost predicate AfterLastScheduled(changes: seq<MaintenanceChange>, from: nat) {
    && from <= |changes|
    && (forall j :: from <= j < |changes| ==> changes[j].status != Scheduled)
    && (from > 0 ==> changes[from - 1].status == Scheduled)
  }

  /** `first` is the first InProgress change at or after `from`; it is |changes| if there is none. */
  ghost predicate FirstInProgress(changes: seq<MaintenanceChange>, from: nat, first: nat) {
    && from <= first <= |changes|
    && (forall j :: from <= j < first ==> changes[j].status != InProgress)
    && (first < |changes| ==> changes[first].status == InProgress)
  }

  /** StartedAt of a new maintenance is its first InProgress change since the last Scheduled one. */
  lemma {:induction false} StartedAtIsFirstSinceScheduled(
    life: MaintenanceLife, changes: seq<MaintenanceChange>, from: nat, first: nat)
    requires life.startedAt == None
    requires AllAccepted(changes)
    requires AfterLastScheduled(changes, from) && FirstInProgress(changes, from, first)
    ensures RunMaintenance(life, changes).startedAt ==
            if first < |changes| then Some(changes[first].at) else None
  {
    if changes != [] {
      var front, last := changes[..|changes| - 1], changes[|changes| - 1];
      assert last in changes;
      assert forall c :: c in front ==> c in changes;
      if last.status != Scheduled {
        StartedAtIsFirstSinceScheduled(life, front, from, if first < |changes| then first else first - 1);
      }
    }
  }

  /** `start` opens the run of Completed changes that ends the list; it is |changes| if there is none. */
  ghost predicate TrailingCompleted(changes: seq<MaintenanceChange>, start: nat) {
    && start <= |changes|
    && (forall j :: start <= j < |changes| ==> changes[j].status == Completed)
    && (start > 0 ==> changes[start - 1].status != Completed)
  }

  /** CompletedAt of a new maintenance is the first change of the trailing Completed run. */
  lemma {:induction false} CompletedAtIsStartOfTrailingRun(
    life: MaintenanceLife, changes: seq<MaintenanceChange>, start: nat)
    requires life.completedAt == None
    requires AllAccepted(changes)
    requires TrailingCompleted(changes, start)
    ensures RunMaintenance(life, changes).completedAt ==
            if start < |changes| then Some(changes[start].at) else None
  {
    if changes != [] {
      var front, last := changes[..|changes| - 1], changes[|changes| - 1];
      assert last in changes;
      assert forall c :: c in front ==> c in changes;
      if last.status == Completed {
        CompletedAtIsStartOfTrailingRun(life, front, start);
      }
    }
  }

  class Maintenance {
    var status: MaintenanceStatus
    var startedAt: Option<Time>
    var completedAt: Option<Time>

    constructor (life: MaintenanceLife)
      ensures Life() == life
    {
      status, startedAt, completedAt := life.status, life.startedAt, life.completedAt;
    }

    function Life(): MaintenanceLife
      reads this
    {
      MaintenanceLife(status, startedAt, completedAt)
    }

    method ApplyStatusChange(newStatus: MaintenanceStatus, at: Time) returns (err: Option<LifecycleError>)
      modifies this
      ensures Life() == ChangeMaintenance(old(Life()), MaintenanceChange(newStatus, at))
      ensures err == if newStatus.UnknownMaintenance? then Some(InvalidMaintenanceStatus) else None
    {
      if newStatus.UnknownMaintenance? {
        return Some(InvalidMaintenanceStatus);
      }
      status := newStatus;
      match newStatus {
        case Scheduled =>
          startedAt, completedAt := None, None;
        case InProgress =>
          if startedAt.None? {
            startedAt := Some(at);
          }
          completedAt := None;
        case Completed =>
          if completedAt.None? {
            completedAt := Some(at);
          }
      }
      return None;
    }
  }
}
