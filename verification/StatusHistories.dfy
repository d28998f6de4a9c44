/**
 What every run of store transactions keeps, page-checked or not: histories are timelines, and at most
 one incident is open per page and dedup key.
 */
module StatusHistories {
  import opened Base
  import opened Statuses
  import opened Lifecycle
  import opened Derivation
  import opened StatusTables
  import opened StatusRuns

  ghost predicate HistoryInv(t: Tables, clock: Time) {
    t.history.Keys == t.components.Keys && Timelines(t, clock) && OpenUnique(t)
  }

  // ----- One transaction -----

  /** After rows were written to u, recomputing any components keeps the histories. */
  lemma RecomputedKeepsHistories(t: Tables, u: Tables, page: Id, ids: set<Id>, clock: Time, now: Time)
    requires HistoryInv(t, clock) && clock <= now && u.components == t.components && u.history == t.history
    requires OpenUnique(u)
    ensures HistoryInv(Recomputed(u, page, ids, now), now)
    ensures AllDistinct(t) ==> AllDistinct(Recomputed(u, page, ids, now))
  {
    RecomputeKeepsTimelines(u, page, ids, clock, now);
  }

  lemma IncidentOpKeepsHistories(t: Tables, op: Op, clock: Time, now: Time)
    requires op.CreateIncidentOp? || op.UpdateIncidentOp? || op.AddUpdateOp? || op.DeleteIncidentOp?
    requires HistoryInv(t, clock) && clock <= now
    ensures HistoryInv(Apply(t, op, now), now)
    ensures AllDistinct(t) ==> AllDistinct(Apply(t, op, now))
  {
    ClockAdvances(t, clock, now);
    if Apply(t, op, now) == t {
      return;
    }
    match op
    case CreateIncidentOp(id, inc) =>
      WrittenKeepsHistories(t, id, inc.(deletedAt := None), ComponentIdsOf(inc.components), clock, now);
    case UpdateIncidentOp(id, life, comps, replace) =>
      var prev := t.incidents[id];
      var row := prev.(life := life, components := if replace then comps else prev.components);
      WrittenKeepsHistories(t, id, row, ComponentIdsOf(prev.components) + ComponentIdsOf(row.components), clock, now);
    case AddUpdateOp(id, status, at) =>
      var row := t.incidents[id].(life := ChangeIncident(t.incidents[id].life, IncidentChange(status, at)));
      WrittenKeepsHistories(t, id, row, ComponentIdsOf(row.components), clock, now);
    case DeleteIncidentOp(id) =>
      var row := t.incidents[id].(deletedAt := Some(now));
      WrittenKeepsHistories(t, id, row, ComponentIdsOf(row.components), clock, now);
  }

  lemma WrittenKeepsHistories(t: Tables, id: Id, row: IncidentRow, ids: set<Id>, clock: Time, now: Time)
    requires HistoryInv(t, clock) && clock <= now && !Collides(t, id, row)
    ensures HistoryInv(Recomputed(WithIncident(t, id, row), row.page, ids, now), now)
    ensures AllDistinct(t) ==> AllDistinct(Recomputed(WithIncident(t, id, row), row.page, ids, now))
  {
    WritingIncidentKeepsOpenUnique(t, id, row);
    RecomputedKeepsHistories(t, WithIncident(t, id, row), row.page, ids, clock, now);
  }

  lemma MaintenanceOpKeepsHistories(t: Tables, op: Op, clock: Time, now: Time)
    requires op.CreateMaintenanceOp? || op.UpdateMaintenanceOp? || op.DeleteMaintenanceOp?
    requires HistoryInv(t, clock) && clock <= now
    ensures HistoryInv(Apply(t, op, now), now)
    ensures AllDistinct(t) ==> AllDistinct(Apply(t, op, now))
  {
    ClockAdvances(t, clock, now);
    if Apply(t, op, now) == t {
      return;
    }
    match op
    case CreateMaintenanceOp(id, m) =>
      var row := m.(deletedAt := None);
      RecomputedKeepsHistories(t, WithMaintenance(t, id, row), row.page, IdSet(row.componentIds), clock, now);
    case UpdateMaintenanceOp(id, life, ids, replace) =>
      var prev := t.maintenances[id];
      var row := prev.(life := life, componentIds := if replace then ids else prev.componentIds);
      RecomputedKeepsHistories(t, WithMaintenance(t, id, row), row.page,
                               IdSet(prev.componentIds) + IdSet(row.componentIds), clock, now);
    case DeleteMaintenanceOp(id) =>
      var row := t.maintenances[id].(deletedAt := Some(now));
      RecomputedKeepsHistories(t, WithMaintenance(t, id, row), row.page, IdSet(row.componentIds), clock, now);
  }

  lemma ComponentOpKeepsHistories(t: Tables, op: Op, clock: Time, now: Time)
    requires op.CreateComponentOp? || op.DeleteComponentOp? || op.ChangeStatusOp?
    requires HistoryInv(t, clock) && clock <= now
    ensures HistoryInv(Apply(t, op, now), now)
    ensures AllDistinct(t) && ChangeChecked(t, op) ==> AllDistinct(Apply(t, op, now))
  {
    ClockAdvances(t, clock, now);
    if op.ChangeStatusOp? && Live(t, op.id) {
      SwitchKeepsTimeline(t.history[op.id], t.components[op.id].status, clock, op.status, op.source, now);
    }
  }

  lemma ApplyKeepsHistories(t: Tables, op: Op, clock: Time, now: Time)
    requires HistoryInv(t, clock) && clock <= now
    ensures HistoryInv(Apply(t, op, now), now)
    ensures AllDistinct(t) && ChangeChecked(t, op) ==> AllDistinct(Apply(t, op, now))
  {
    if op.CreateComponentOp? || op.DeleteComponentOp? || op.ChangeStatusOp? {
      ComponentOpKeepsHistories(t, op, clock, now);
    } else if op.CreateMaintenanceOp? || op.UpdateMaintenanceOp? || op.DeleteMaintenanceOp? {
      MaintenanceOpKeepsHistories(t, op, clock, now);
    } else {
      IncidentOpKeepsHistories(t, op, clock, now);
    }
  }

  // ----- Every run -----

  /**
   Main result: every run, whatever pages its rows name, keeps timelines and open-incident uniqueness, and
   with callers that check for a real change neighbouring periods differ.
   */
  lemma {:induction false} RunKeepsHistories(t: Tables, clock: Time, run: seq<Timed>)
    requires HistoryInv(t, clock) && ClockedRun(clock, run)
    ensures var (u, end) := Run(t, clock, run); HistoryInv(u, end) && clock <= end
    ensures AllDistinct(t) && ChangeCheckedRun(t, run) ==> AllDistinct(Run(t, clock, run).0)
    decreases |run|
  {
    if run != [] {
      ApplyKeepsHistories(t, run[0].op, clock, run[0].now);
      RunKeepsHistories(Apply(t, run[0].op, run[0].now), run[0].now, run[1..]);
    }
  }

  // ----- Lives of incidents -----

  /** What the callers do with a life: create a consistent one, and change it by ApplyStatusChange only. */
  ghost predicate LifeChecked(t: Tables, op: Op) {
    match op
    case CreateIncidentOp(_, inc) => IncidentConsistent(inc.life)
    case UpdateIncidentOp(id, life, _, _) =>
      id in t.incidents ==> exists changes :: life == RunIncident(t.incidents[id].life, changes)
    case _ => true
  }

  ghost predicate LivesConsistent(t: Tables) {
    forall i :: i in t.incidents ==> IncidentConsistent(t.incidents[i].life)
  }

  ghost predicate LifeCheckedRun(t: Tables, run: seq<Timed>)
    decreases |run|
  {
    run == [] || (LifeChecked(t, run[0].op) && LifeCheckedRun(Apply(t, run[0].op, run[0].now), run[1..]))
  }

  lemma ApplyKeepsLives(t: Tables, op: Op, now: Time)
    requires LivesConsistent(t) && LifeChecked(t, op)
    ensures LivesConsistent(Apply(t, op, now))
  {
    if op.UpdateIncidentOp? && op.id in t.incidents {
      var changes :| op.incidentLife == RunIncident(t.incidents[op.id].life, changes);
      IncidentStaysConsistent(t.incidents[op.id].life, changes);
    }
  }

  lemma {:induction false} RunKeepsLives(t: Tables, clock: Time, run: seq<Timed>)
    requires LivesConsistent(t) && LifeCheckedRun(t, run)
    ensures LivesConsistent(Run(t, clock, run).0)
    decreases |run|
  {
    if run != [] {
      ApplyKeepsLives(t, run[0].op, run[0].now);
      RunKeepsLives(Apply(t, run[0].op, run[0].now), run[0].now, run[1..]);
    }
  }

  /**
   Main result: in every run whose callers change lives by ApplyStatusChange, an incident of a page and
   key is open for deduplication exactly while it is active, that is, while it imposes statuses.
   */
  lemma OpenIsActive(clock: Time, run: seq<Timed>, i: Id, page: Id, key: string)
    requires LifeCheckedRun(EMPTY, run) && i in Run(EMPTY, clock, run).0.incidents
    ensures var inc := Run(EMPTY, clock, run).0.incidents[i];
            OpenFor(inc, page, key) <==> inc.page == page && inc.dedupKey == Some(key) && IsActive(inc)
  {
    RunKeepsLives(EMPTY, clock, run);
  }
}
