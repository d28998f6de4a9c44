/**
 What each transaction writes, field by field, and what no later transaction changes
 (backend/internal/store/incidents.go, maintenances.go and components.go).
 */
module StatusWrites {
  import opened Base
  import opened Statuses
  import opened Lifecycle
  import opened Derivation
  import opened StatusTables
  import opened StatusRuns

  // ----- Components after a recomputation -----

  /** The history of one component after its status has become `status`: what was open ends, one period begins. */
  ghost predicate Switched(before: seq<Period>, after: seq<Period>, status: ComponentStatus, now: Time) {
    && |after| == |before| + 1
    && (forall k :: 0 <= k < |before| ==>
          && after[k].status == before[k].status && after[k].startedAt == before[k].startedAt
          && after[k].source == before[k].source
          && after[k].endedAt == (if before[k].endedAt.None? then Some(now) else before[k].endedAt))
    && after[|before|].status == status && after[|before|].startedAt == now && after[|before|].endedAt == None
  }

  /** The component's status is the worst that the page's rows in u impose; a change is on record. */
  ghost predicate FollowsRows(t: Tables, u: Tables, page: Id, now: Time, c: Id) {
    && c in t.components && c in u.components && c in t.history && c in u.history
    && u.components[c] == t.components[c].(status := u.components[c].status)
    && u.components[c].status == WorstIn(Imposed(u, page, c))
    && (if u.components[c].status == t.components[c].status then u.history[c] == t.history[c]
        else
          && Switched(t.history[c], u.history[c], u.components[c].status, now)
          && (u.history[c][|t.history[c]|].source == ByMaintenance <==> u.components[c].status == UnderMaintenance)
          && (u.history[c][|t.history[c]|].source == ByIncident <==> u.components[c].status != UnderMaintenance))
  }

  ghost predicate SameComponent(t: Tables, u: Tables, c: Id) {
    && c in t.components && c in u.components && u.components[c] == t.components[c]
    && c in t.history && c in u.history && u.history[c] == t.history[c]
    && (c in u.manual <==> c in t.manual) && (c in t.manual ==> u.manual[c] == t.manual[c])
  }

  /** Exactly the listed live components follow the rows; the others are as they were. */
  ghost predicate OnlyFollow(t: Tables, u: Tables, page: Id, ids: set<Id>, now: Time) {
    && u.components.Keys == t.components.Keys
    && forall c :: c in t.components ==>
         if c in ids && Live(t, c) then FollowsRows(t, u, page, now, c) && c !in u.manual else SameComponent(t, u, c)
  }

  lemma RecomputedOnlyFollows(t: Tables, w: Tables, page: Id, ids: set<Id>, now: Time)
    requires t.history.Keys == t.components.Keys
    requires w.components == t.components && w.history == t.history && w.manual == t.manual
    ensures OnlyFollow(t, Recomputed(w, page, ids, now), page, ids, now)
  {
    var u := Recomputed(w, page, ids, now);
    forall c | c in t.components
      ensures if c in ids && Live(t, c) then FollowsRows(t, u, page, now, c) && c !in u.manual
              else SameComponent(t, u, c)
    {
      RecomputedAt(w, page, ids, now, c);
      ImposedFrame(w, u, page, c);
    }
  }

  // ----- Incidents -----

  /** Of all incidents and maintenances only this incident is written. */
  ghost predicate OnlyIncident(t: Tables, u: Tables, id: Id) {
    && u.maintenances == t.maintenances && u.incidents.Keys == t.incidents.Keys + {id}
    && forall i :: i in t.incidents && i != id ==> u.incidents[i] == t.incidents[i]
  }

  /** Another incident of the page is open for the key. */
  ghost predicate OpenElsewhere(t: Tables, id: Id, page: Id, key: Option<string>) {
    exists j ::
      && j in t.incidents && j != id && t.incidents[j].page == page && key.Some? && t.incidents[j].dedupKey == key
      && t.incidents[j].life.resolvedAt.None? && t.incidents[j].deletedAt.None?
  }

  /** Existing components, each once, with a status of the enum. */
  ghost predicate Reportable(t: Tables, comps: seq<Affected>) {
    && (forall k :: 0 <= k < |comps| ==> comps[k].componentId in t.components && IsValid(comps[k].status))
    && forall j, k :: 0 <= j < k < |comps| ==> comps[j].componentId != comps[k].componentId
  }

  function Named(comps: seq<Affected>): set<Id> {
    set k | 0 <= k < |comps| :: comps[k].componentId
  }

  lemma NamedAreThese(comps: seq<Affected>)
    ensures ComponentIdsOf(comps) == Named(comps)
  {
    forall c ensures c in ComponentIdsOf(comps) <==> c in Named(comps) {
      if c in Named(comps) {
        var k :| 0 <= k < |comps| && comps[k].componentId == c;
        assert comps[k] in comps;
      }
    }
  }

  lemma CollidesIff(t: Tables, id: Id, row: IncidentRow)
    ensures Collides(t, id, row) <==>
            row.life.resolvedAt.None? && row.deletedAt.None? && OpenElsewhere(t, id, row.page, row.dedupKey)
  {
    if Collides(t, id, row) {
      var j :| j in t.incidents && j != id && OpenFor(t.incidents[j], row.page, row.dedupKey.value);
      assert t.incidents[j].dedupKey == row.dedupKey;
    }
  }

  lemma InsertableIff(t: Tables, comps: seq<Affected>)
    ensures AffectedInsertable(t, comps) <==> Reportable(t, comps)
  {
    assert forall k :: 0 <= k < |comps| ==> comps[k] in comps;
  }

  lemma IncidentCreated(t: Tables, id: Id, inc: IncidentRow, now: Time)
    requires t.history.Keys == t.components.Keys
    ensures var r := CreateIncident(t, id, inc, now);
            && (r.Success? <==>
                  && id !in t.incidents && !inc.life.status.UnknownIncident? && Reportable(t, inc.components)
                  && !(inc.life.resolvedAt.None? && OpenElsewhere(t, id, inc.page, inc.dedupKey)))
            && (r == Failure(DedupConflict) <==>
                  && id !in t.incidents && !inc.life.status.UnknownIncident?
                  && inc.life.resolvedAt.None? && OpenElsewhere(t, id, inc.page, inc.dedupKey))
            && (r.Failure? ==> r.error == DedupConflict || r.error == Constraint)
            && (r.Success? ==>
                  && OnlyIncident(t, r.value, id) && r.value.incidents[id].deletedAt == None
                  && r.value.incidents[id].page == inc.page && r.value.incidents[id].dedupKey == inc.dedupKey
                  && r.value.incidents[id].life == inc.life && r.value.incidents[id].components == inc.components
                  && OnlyFollow(t, r.value, inc.page, Named(inc.components), now))
  {
    var row := inc.(deletedAt := None);
    CollidesIff(t, id, row);
    InsertableIff(t, inc.components);
    NamedAreThese(inc.components);
    RecomputedOnlyFollows(t, WithIncident(t, id, row), inc.page, Named(inc.components), now);
  }

  /** Main result: an update gives the row the life, replaces its components if asked to, and leaves its key alone. */
  lemma IncidentUpdated(t: Tables, id: Id, life: IncidentLife, comps: seq<Affected>, replace: bool, now: Time)
    requires t.history.Keys == t.components.Keys
    ensures var r := UpdateIncident(t, id, life, comps, replace, now);
            && (r.Success? <==>
                  && id in t.incidents && t.incidents[id].deletedAt.None?
                  && !life.status.UnknownIncident? && (replace ==> Reportable(t, comps))
                  && !(life.resolvedAt.None? && OpenElsewhere(t, id, t.incidents[id].page, t.incidents[id].dedupKey)))
            && (r == Failure(NotFound) <==> id !in t.incidents || t.incidents[id].deletedAt.Some?)
            && (r.Failure? ==> r.error == NotFound || r.error == Constraint)
            && (r.Success? ==>
                  var before, after := t.incidents[id], r.value.incidents[id];
                  && OnlyIncident(t, r.value, id)
                  && after.page == before.page && after.dedupKey == before.dedupKey && after.deletedAt == None
                  && after.life == life && after.components == (if replace then comps else before.components)
                  && OnlyFollow(t, r.value, before.page, Named(before.components) + Named(after.components), now))
  {
    if id in t.incidents {
      var prev := t.incidents[id];
      var row := prev.(life := life, components := if replace then comps else prev.components);
      CollidesIff(t, id, row);
      InsertableIff(t, comps);
      NamedAreThese(prev.components);
      NamedAreThese(row.components);
      RecomputedOnlyFollows(t, WithIncident(t, id, row), row.page, Named(prev.components) + Named(row.components), now);
    }
  }

  lemma UpdateAdded(t: Tables, id: Id, status: IncidentStatus, at: Time, now: Time)
    requires t.history.Keys == t.components.Keys
    ensures var r := AddIncidentUpdate(t, id, status, at, now);
            && (r.Success? <==>
                  && id in t.incidents && t.incidents[id].deletedAt.None? && !status.UnknownIncident?
                  && !(status != Resolved && OpenElsewhere(t, id, t.incidents[id].page, t.incidents[id].dedupKey)))
            && (r == Failure(NotFound) <==> id !in t.incidents || t.incidents[id].deletedAt.Some?)
            && (r == Failure(InvalidStatus) <==>
                  id in t.incidents && t.incidents[id].deletedAt.None? && status.UnknownIncident?)
            && (r.Failure? ==> r.error == NotFound || r.error == InvalidStatus || r.error == Constraint)
            && (r.Success? ==>
                  var before, after := t.incidents[id], r.value.incidents[id];
                  && OnlyIncident(t, r.value, id)
                  && after.page == before.page && after.dedupKey == before.dedupKey && after.deletedAt == None
                  && after.components == before.components && after.life.status == status
                  && after.life.resolvedAt == (if status != Resolved then None
                                            else if before.life.resolvedAt.Some? then before.life.resolvedAt
                                            else Some(at))
                  && OnlyFollow(t, r.value, before.page, Named(before.components), now))
  {
    if id in t.incidents {
      var prev := t.incidents[id];
      var row := prev.(life := ChangeIncident(prev.life, IncidentChange(status, at)));
      CollidesIff(t, id, row);
      NamedAreThese(row.components);
      RecomputedOnlyFollows(t, WithIncident(t, id, row), row.page, Named(row.components), now);
    }
  }

  lemma IncidentDeleted(t: Tables, id: Id, now: Time)
    requires t.history.Keys == t.components.Keys
    ensures var r := SoftDeleteIncident(t, id, now);
            && (r.Success? <==> id in t.incidents && t.incidents[id].deletedAt.None?)
            && (r.Success? ==>
                  var before, after := t.incidents[id], r.value.incidents[id];
                  && OnlyIncident(t, r.value, id) && after == before.(deletedAt := Some(now))
                  && OnlyFollow(t, r.value, before.page, Named(before.components), now))
  {
    if id in t.incidents {
      var row := t.incidents[id].(deletedAt := Some(now));
      NamedAreThese(row.components);
      RecomputedOnlyFollows(t, WithIncident(t, id, row), row.page, Named(row.components), now);
    }
  }

  // ----- Maintenances -----

  ghost predicate OnlyMaintenance(t: Tables, u: Tables, id: Id) {
    && u.incidents == t.incidents && u.maintenances.Keys == t.maintenances.Keys + {id}
    && forall m :: m in t.maintenances && m != id ==> u.maintenances[m] == t.maintenances[m]
  }

  ghost predicate Plannable(t: Tables, ids: seq<Id>) {
    && (forall k :: 0 <= k < |ids| ==> ids[k] in t.components)
    && forall j, k :: 0 <= j < k < |ids| ==> ids[j] != ids[k]
  }

  lemma MaintenanceCreated(t: Tables, id: Id, m: MaintenanceRow, now: Time)
    requires t.history.Keys == t.components.Keys
    ensures var r := CreateMaintenance(t, id, m, now);
            && (r.Success? <==>
                  id !in t.maintenances && !m.life.status.UnknownMaintenance? && Plannable(t, m.componentIds))
            && (r.Success? ==>
                  var after := r.value.maintenances[id];
                  && OnlyMaintenance(t, r.value, id) && after.deletedAt == None
                  && after.page == m.page && after.life == m.life && after.componentIds == m.componentIds
                  && OnlyFollow(t, r.value, m.page, IdSet(m.componentIds), now))
  {
    assert forall k :: 0 <= k < |m.componentIds| ==> m.componentIds[k] in m.componentIds;
    RecomputedOnlyFollows(
      t, WithMaintenance(t, id, m.(deletedAt := None)), m.page, IdSet(m.componentIds), now);
  }

  lemma MaintenanceUpdated(t: Tables, id: Id, life: MaintenanceLife, ids: seq<Id>, replace: bool, now: Time)
    requires t.history.Keys == t.components.Keys
    ensures var r := UpdateMaintenance(t, id, life, ids, replace, now);
            && (r.Success? <==>
                  && id in t.maintenances && t.maintenances[id].deletedAt.None?
                  && !life.status.UnknownMaintenance? && (replace ==> Plannable(t, ids)))
            && (r == Failure(NotFound) <==> id !in t.maintenances || t.maintenances[id].deletedAt.Some?)
            && (r.Success? ==>
                  var before, after := t.maintenances[id], r.value.maintenances[id];
                  && OnlyMaintenance(t, r.value, id)
                  && after.page == before.page && after.deletedAt == None
                  && after.life == life && after.componentIds == (if replace then ids else before.componentIds)
                  && OnlyFollow(t, r.value, before.page, IdSet(before.componentIds) + IdSet(after.componentIds), now))
  {
    assert forall k :: 0 <= k < |ids| ==> ids[k] in ids;
    if id in t.maintenances {
      var prev := t.maintenances[id];
      var row := prev.(life := life, componentIds := if replace then ids else prev.componentIds);
      RecomputedOnlyFollows(
        t, WithMaintenance(t, id, row), row.page, IdSet(prev.componentIds) + IdSet(row.componentIds), now);
    }
  }

  lemma MaintenanceDeleted(t: Tables, id: Id, now: Time)
    requires t.history.Keys == t.components.Keys
    ensures var r := SoftDeleteMaintenance(t, id, now);
            && (r.Success? <==> id in t.maintenances && t.maintenances[id].deletedAt.None?)
            && (r.Success? ==>
                  var before, after := t.maintenances[id], r.value.maintenances[id];
                  && OnlyMaintenance(t, r.value, id) && after == before.(deletedAt := Some(now))
                  && OnlyFollow(t, r.value, before.page, IdSet(before.componentIds), now))
  {
    if id in t.maintenances {
      var row := t.maintenances[id].(deletedAt := Some(now));
      RecomputedOnlyFollows(t, WithMaintenance(t, id, row), row.page, IdSet(row.componentIds), now);
    }
  }

  // ----- Components -----

  /** Nothing but this component is written. */
  ghost predicate OnlyComponent(t: Tables, u: Tables, id: Id) {
    && u.incidents == t.incidents && u.maintenances == t.maintenances
    && u.components.Keys == t.components.Keys + {id}
    && forall c :: c in t.components && c != id && c in t.history ==> SameComponent(t, u, c)
  }

  /** The page, the time of creation and the deletion mark of a component, and its history, after each operation. */
  lemma ComponentWritten(t: Tables, op: Op, now: Time)
    requires t.history.Keys == t.components.Keys
    requires op.CreateComponentOp? || op.DeleteComponentOp? || op.ChangeStatusOp?
    ensures var u := Apply(t, op, now);
            match op
            case CreateComponentOp(id, page, status) =>
              if id in t.components || (status.Other? && status.code != "") then u == t
              else
                && OnlyComponent(t, u, id) && !u.components[id].deleted
                && u.components[id].page == page && u.components[id].createdAt == now && u.history[id] == []
                && u.components[id].status == (if status.Other? then Operational else status)
            case DeleteComponentOp(id) =>
              if id !in t.components then u == t
              else
                && OnlyComponent(t, u, id) && u.components[id] == t.components[id].(deleted := true)
                && u.history == t.history
            case ChangeStatusOp(id, status, source) =>
              if !Live(t, id) || status.Other? then u == t
              else
                && OnlyComponent(t, u, id) && u.components[id] == t.components[id].(status := status)
                && Switched(t.history[id], u.history[id], status, now)
                && u.history[id][|t.history[id]|].source == source
            case _ => true
  {
  }

  // ----- What rows impose, and what a listing since a time holds -----

  /** A status is imposed by an incident that is neither deleted nor resolved, or by a maintenance in progress. */
  lemma ImposedIff(t: Tables, page: Id, c: Id, s: ComponentStatus)
    ensures s in Imposed(t, page, c) <==>
            || (exists i, k ::
                  i in t.incidents && 0 <= k < |t.incidents[i].components| && Reports(t.incidents[i], page, k, c, s))
            || (s == UnderMaintenance && exists m :: m in t.maintenances && Stops(t.maintenances[m], page, c))
  {
    if i, a :| i in t.incidents && t.incidents[i].page == page && IsActive(t.incidents[i]) &&
               a in t.incidents[i].components && a.componentId == c && a.status == s {
      var k :| 0 <= k < |t.incidents[i].components| && t.incidents[i].components[k] == a;
      assert Reports(t.incidents[i], page, k, c, s);
    }
    if i, k :| i in t.incidents && 0 <= k < |t.incidents[i].components| && Reports(t.incidents[i], page, k, c, s) {
      assert t.incidents[i].components[k] in t.incidents[i].components;
    }
    if m :| m in t.maintenances && t.maintenances[m].page == page && IsRunning(t.maintenances[m]) &&
            c in t.maintenances[m].componentIds && s == UnderMaintenance {
      assert Stops(t.maintenances[m], page, c);
    }
  }

  /** The incident's k-th component is c, with status s, and the incident is going on. */
  ghost predicate Reports(inc: IncidentRow, page: Id, k: nat, c: Id, s: ComponentStatus)
    requires k < |inc.components|
  {
    && inc.page == page && inc.deletedAt == None && inc.life.status != Resolved
    && inc.components[k] == Affected(c, s)
  }

  ghost predicate Stops(m: MaintenanceRow, page: Id, c: Id) {
    m.page == page && m.deletedAt == None && m.life.status == InProgress && c in m.componentIds
  }

  /** The listing goes through the periods one by one and takes those that are open or ended then or later. */
  lemma {:induction false} SinceSplit(a: seq<Period>, b: seq<Period>, p: Period, since: Time)
    ensures Since(a + b, since) == Since(a, since) + Since(b, since)
    ensures Since([p], since) == if p.endedAt.Some? && p.endedAt.value < since then [] else [p]
  {
    assert [p][..0] == [];
    if b == [] {
      assert a + b == a;
    } else {
      SinceSplit(a, b[..|b| - 1], p, since);
      assert (a + b)[..|a + b| - 1] == a + b[..|b| - 1];
    }
  }
}
