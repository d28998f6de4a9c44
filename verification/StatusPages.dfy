/**
 What the page check of the callers is for: exactly when a write that names components of another page
 keeps the stored statuses in agreement with the derivation.
 */
module StatusPages {
  import opened Base
  import opened Statuses
  import opened Lifecycle
  import opened Derivation
  import opened StatusTables
  import opened StatusRuns

  /** On every listed component of another page the written page's verdict is the component's own. */
  ghost predicate ForeignAgrees(t: Tables, u: Tables, page: Id, ids: set<Id>) {
    forall c :: c in ids && Live(t, c) && t.components[c].page != page ==> WorstIn(Imposed(u, page, c)) == Derived(t, c)
  }

  /** For any change of rows that matters to the listed components only. */
  lemma RecomputeAgreesIff(t: Tables, u: Tables, page: Id, ids: set<Id>, now: Time)
    requires StatusesAgree(t) && u.components == t.components && u.manual == t.manual
    requires forall c :: Live(t, c) && c !in ids ==> Derived(u, c) == Derived(t, c)
    ensures StatusesAgree(Recomputed(u, page, ids, now)) <==>
            forall c :: c in ids && Live(u, c) ==> WorstIn(Imposed(u, page, c)) == Derived(u, c)
  {
    var v := Recomputed(u, page, ids, now);
    forall c | Live(u, c)
      ensures Live(v, c) && Derived(v, c) == Derived(u, c)
      ensures c in ids ==> c !in v.manual && v.components[c].status == WorstIn(Imposed(u, page, c))
      ensures c !in ids ==> (c in v.manual <==> c in t.manual) && v.components[c] == t.components[c]
    {
      ImposedFrame(u, v, u.components[c].page, c);
    }
    if StatusesAgree(v) {
      forall c | c in ids && Live(u, c) ensures WorstIn(Imposed(u, page, c)) == Derived(u, c) {
        assert Live(v, c);
      }
    }
    if forall c :: c in ids && Live(u, c) ==> WorstIn(Imposed(u, page, c)) == Derived(u, c) {
      forall c | Live(v, c) ensures v.components[c].status == if c in v.manual then v.manual[c] else Derived(v, c) {
        assert Live(u, c);
        if c !in ids {
          assert Live(t, c);
        }
      }
    }
  }

  // ----- Writing one row -----

  /** Rows of one page impose nothing on the others. */
  lemma IncidentOfOtherPage(t: Tables, id: Id, row: IncidentRow, page: Id, c: Id)
    requires page != row.page && (id in t.incidents ==> t.incidents[id].page == row.page)
    ensures Imposed(WithIncident(t, id, row), page, c) == Imposed(t, page, c)
  {
    var u := WithIncident(t, id, row);
    forall s | s in Imposed(t, page, c) ensures s in Imposed(u, page, c) {
      if i, a :| i in t.incidents && t.incidents[i].page == page && IsActive(t.incidents[i]) &&
                 a in t.incidents[i].components && a.componentId == c && a.status == s {
        assert i in u.incidents && u.incidents[i] == t.incidents[i];
      }
    }
    forall s | s in Imposed(u, page, c) ensures s in Imposed(t, page, c) {
    }
  }

  lemma MaintenanceOfOtherPage(t: Tables, id: Id, row: MaintenanceRow, page: Id, c: Id)
    requires page != row.page && (id in t.maintenances ==> t.maintenances[id].page == row.page)
    ensures Imposed(WithMaintenance(t, id, row), page, c) == Imposed(t, page, c)
  {
    var u := WithMaintenance(t, id, row);
    forall s | s in Imposed(t, page, c) ensures s in Imposed(u, page, c) {
      if m :| m in t.maintenances && t.maintenances[m].page == page && IsRunning(t.maintenances[m]) &&
              c in t.maintenances[m].componentIds && s == UnderMaintenance {
        assert m in u.maintenances && u.maintenances[m] == t.maintenances[m];
      }
    }
    forall s | s in Imposed(u, page, c) ensures s in Imposed(t, page, c) {
    }
  }

  /** The written page decides for its own components; for the others their page's verdict is unchanged. */
  lemma OwnPageAlwaysAgrees(t: Tables, u: Tables, page: Id, ids: set<Id>)
    requires u.components == t.components
    requires forall c :: Live(t, c) && t.components[c].page != page ==> Derived(u, c) == Derived(t, c)
    ensures (forall c :: c in ids && Live(u, c) ==> WorstIn(Imposed(u, page, c)) == Derived(u, c)) <==>
              ForeignAgrees(t, u, page, ids)
  {
    forall c | Live(t, c) && t.components[c].page == page ensures WorstIn(Imposed(u, page, c)) == Derived(u, c) {
    }
    if forall c :: c in ids && Live(u, c) ==> WorstIn(Imposed(u, page, c)) == Derived(u, c) {
      forall c | c in ids && Live(t, c) && t.components[c].page != page
        ensures WorstIn(Imposed(u, page, c)) == Derived(t, c)
      {
        assert Live(u, c);
      }
    }
    if ForeignAgrees(t, u, page, ids) {
      forall c | c in ids && Live(u, c) ensures WorstIn(Imposed(u, page, c)) == Derived(u, c) {
        assert Live(t, c);
      }
    }
  }

  lemma WritingIncidentAgreesIff(t: Tables, id: Id, row: IncidentRow, ids: set<Id>, now: Time)
    requires StatusesAgree(t) && (id in t.incidents ==> t.incidents[id].page == row.page)
    requires ids == ComponentIdsOf(row.components) +
                    if id in t.incidents then ComponentIdsOf(t.incidents[id].components) else {}
    ensures StatusesAgree(Recomputed(WithIncident(t, id, row), row.page, ids, now)) <==>
            ForeignAgrees(t, WithIncident(t, id, row), row.page, ids)
  {
    var u := WithIncident(t, id, row);
    forall c | Live(t, c) && c !in ids ensures Derived(u, c) == Derived(t, c) {
      UntouchedByIncident(t, id, row, t.components[c].page, c);
    }
    forall c | Live(t, c) && t.components[c].page != row.page ensures Derived(u, c) == Derived(t, c) {
      IncidentOfOtherPage(t, id, row, t.components[c].page, c);
    }
    RecomputeAgreesIff(t, u, row.page, ids, now);
    OwnPageAlwaysAgrees(t, u, row.page, ids);
  }

  lemma WritingMaintenanceAgreesIff(t: Tables, id: Id, row: MaintenanceRow, ids: set<Id>, now: Time)
    requires StatusesAgree(t) && (id in t.maintenances ==> t.maintenances[id].page == row.page)
    requires ids == IdSet(row.componentIds) +
                    if id in t.maintenances then IdSet(t.maintenances[id].componentIds) else {}
    ensures StatusesAgree(Recomputed(WithMaintenance(t, id, row), row.page, ids, now)) <==>
            ForeignAgrees(t, WithMaintenance(t, id, row), row.page, ids)
  {
    var u := WithMaintenance(t, id, row);
    forall c | Live(t, c) && c !in ids ensures Derived(u, c) == Derived(t, c) {
      UntouchedByMaintenance(t, id, row, t.components[c].page, c);
    }
    forall c | Live(t, c) && t.components[c].page != row.page ensures Derived(u, c) == Derived(t, c) {
      MaintenanceOfOtherPage(t, id, row, t.components[c].page, c);
    }
    RecomputeAgreesIff(t, u, row.page, ids, now);
    OwnPageAlwaysAgrees(t, u, row.page, ids);
  }

  // ----- The transactions -----

  /** What a new incident adds to its page's verdict on a component. */
  lemma NewIncidentImposes(t: Tables, id: Id, row: IncidentRow, c: Id)
    requires id !in t.incidents
    ensures Imposed(WithIncident(t, id, row), row.page, c) ==
            Imposed(t, row.page, c) + if IsActive(row) then Reported(c, row.components) else {}
  {
    var u := WithIncident(t, id, row);
    var more := if IsActive(row) then Reported(c, row.components) else {};
    forall s | s in Imposed(u, row.page, c) ensures s in Imposed(t, row.page, c) + more {
    }
    forall s | s in Imposed(t, row.page, c) + more ensures s in Imposed(u, row.page, c) {
      if i, a :| i in t.incidents && t.incidents[i].page == row.page && IsActive(t.incidents[i]) &&
                 a in t.incidents[i].components && a.componentId == c && a.status == s {
        assert i in u.incidents && u.incidents[i] == t.incidents[i];
      } else if s in more {
        assert u.incidents[id] == row;
      }
    }
  }

  lemma NewMaintenanceImposes(t: Tables, id: Id, row: MaintenanceRow, c: Id)
    requires id !in t.maintenances
    ensures Imposed(WithMaintenance(t, id, row), row.page, c) ==
            Imposed(t, row.page, c) + if IsRunning(row) && c in row.componentIds then {UnderMaintenance} else {}
  {
    var u := WithMaintenance(t, id, row);
    var more := if IsRunning(row) && c in row.componentIds then {UnderMaintenance} else {};
    forall s | s in Imposed(u, row.page, c) ensures s in Imposed(t, row.page, c) + more {
    }
    forall s | s in Imposed(t, row.page, c) + more ensures s in Imposed(u, row.page, c) {
      if m :| m in t.maintenances && t.maintenances[m].page == row.page && IsRunning(t.maintenances[m]) &&
              c in t.maintenances[m].componentIds && s == UnderMaintenance {
        assert m in u.maintenances && u.maintenances[m] == t.maintenances[m];
      } else if s in more {
        assert u.maintenances[id] == row;
      }
    }
  }

  predicate WritesRow(op: Op) {
    !op.CreateComponentOp? && !op.DeleteComponentOp? && !op.ChangeStatusOp?
  }

  /** The operation is accepted by the store. */
  ghost predicate Accepted(t: Tables, op: Op, now: Time)
    requires WritesRow(op)
  {
    match op
    case CreateIncidentOp(id, inc) => CreateIncident(t, id, inc, now).Success?
    case UpdateIncidentOp(id, life, comps, replace) => UpdateIncident(t, id, life, comps, replace, now).Success?
    case AddUpdateOp(id, status, at) => AddIncidentUpdate(t, id, status, at, now).Success?
    case DeleteIncidentOp(id) => SoftDeleteIncident(t, id, now).Success?
    case CreateMaintenanceOp(id, m) => CreateMaintenance(t, id, m, now).Success?
    case UpdateMaintenanceOp(id, life, ids, replace) => UpdateMaintenance(t, id, life, ids, replace, now).Success?
    case DeleteMaintenanceOp(id) => SoftDeleteMaintenance(t, id, now).Success?
  }

  /** The row that an accepted operation on an incident writes. */
  ghost function IncidentAfter(t: Tables, op: Op, now: Time): IncidentRow
    requires op.CreateIncidentOp?
             || ((op.UpdateIncidentOp? || op.AddUpdateOp? || op.DeleteIncidentOp?) && op.id in t.incidents)
  {
    match op
    case CreateIncidentOp(_, inc) => inc.(deletedAt := None)
    case UpdateIncidentOp(id, life, comps, replace) =>
      t.incidents[id].(life := life, components := if replace then comps else t.incidents[id].components)
    case AddUpdateOp(id, status, at) =>
      t.incidents[id].(life := ChangeIncident(t.incidents[id].life, IncidentChange(status, at)))
    case DeleteIncidentOp(id) => t.incidents[id].(deletedAt := Some(now))
  }

  /** The row that an accepted operation on a maintenance writes. */
  ghost function MaintenanceAfter(t: Tables, op: Op, now: Time): MaintenanceRow
    requires op.CreateMaintenanceOp?
             || ((op.UpdateMaintenanceOp? || op.DeleteMaintenanceOp?) && op.id in t.maintenances)
  {
    match op
    case CreateMaintenanceOp(_, m) => m.(deletedAt := None)
    case UpdateMaintenanceOp(id, life, ids, replace) =>
      t.maintenances[id].(life := life, componentIds := if replace then ids else t.maintenances[id].componentIds)
    case DeleteMaintenanceOp(id) => t.maintenances[id].(deletedAt := Some(now))
  }

  ghost function IdsBefore(t: Tables, id: Id, incident: bool): set<Id> {
    if incident then (if id in t.incidents then ComponentIdsOf(t.incidents[id].components) else {})
    else if id in t.maintenances then IdSet(t.maintenances[id].componentIds) else {}
  }

  /** Main result, incidents: no page is checked, and statuses keep agreeing exactly under the condition. */
  lemma IncidentOpAgreesIff(t: Tables, op: Op, now: Time)
    requires StatusesAgree(t)
    requires op.CreateIncidentOp? || op.UpdateIncidentOp? || op.AddUpdateOp? || op.DeleteIncidentOp?
    requires Accepted(t, op, now)
    ensures var row := IncidentAfter(t, op, now);
            StatusesAgree(Apply(t, op, now)) <==>
            ForeignAgrees(t, WithIncident(t, op.id, row), row.page,
                          ComponentIdsOf(row.components) + IdsBefore(t, op.id, true))
  {
    var row := IncidentAfter(t, op, now);
    var ids := ComponentIdsOf(row.components) + IdsBefore(t, op.id, true);
    assert op.UpdateIncidentOp? ==>
              ids == ComponentIdsOf(t.incidents[op.id].components) + ComponentIdsOf(row.components);
    assert !op.UpdateIncidentOp? ==> ids == ComponentIdsOf(row.components);
    WritingIncidentAgreesIff(t, op.id, row, ids, now);
  }

  /** Main result, maintenances. */
  lemma MaintenanceOpAgreesIff(t: Tables, op: Op, now: Time)
    requires StatusesAgree(t) && (op.CreateMaintenanceOp? || op.UpdateMaintenanceOp? || op.DeleteMaintenanceOp?)
    requires Accepted(t, op, now)
    ensures var row := MaintenanceAfter(t, op, now);
            StatusesAgree(Apply(t, op, now)) <==>
            ForeignAgrees(t, WithMaintenance(t, op.id, row), row.page,
                          IdSet(row.componentIds) + IdsBefore(t, op.id, false))
  {
    var row := MaintenanceAfter(t, op, now);
    var ids := IdSet(row.componentIds) + IdsBefore(t, op.id, false);
    assert op.UpdateMaintenanceOp? ==> ids == IdSet(t.maintenances[op.id].componentIds) + IdSet(row.componentIds);
    assert !op.UpdateMaintenanceOp? ==> ids == IdSet(row.componentIds);
    WritingMaintenanceAgreesIff(t, op.id, row, ids, now);
  }

  /** For a new incident the condition speaks of the tables before the call. */
  lemma CreateIncidentAgreesIff(t: Tables, id: Id, inc: IncidentRow, now: Time)
    requires StatusesAgree(t) && CreateIncident(t, id, inc, now).Success?
    ensures StatusesAgree(CreateIncident(t, id, inc, now).value) <==>
            forall c :: c in ComponentIdsOf(inc.components) && Live(t, c) && t.components[c].page != inc.page ==>
              WorstIn(Imposed(t, inc.page, c) +
                      if inc.life.status != Resolved then Reported(c, inc.components) else {}) == Derived(t, c)
  {
    var row := inc.(deletedAt := None);
    IncidentOpAgreesIff(t, CreateIncidentOp(id, inc), now);
    assert ComponentIdsOf(row.components) + IdsBefore(t, id, true) == ComponentIdsOf(inc.components);
    forall c ensures Imposed(WithIncident(t, id, row), row.page, c) ==
                     Imposed(t, inc.page, c) + if inc.life.status != Resolved then Reported(c, inc.components) else {} {
      NewIncidentImposes(t, id, row, c);
    }
  }

  /** And for a new maintenance. */
  lemma CreateMaintenanceAgreesIff(t: Tables, id: Id, m: MaintenanceRow, now: Time)
    requires StatusesAgree(t) && CreateMaintenance(t, id, m, now).Success?
    ensures StatusesAgree(CreateMaintenance(t, id, m, now).value) <==>
            forall c :: c in IdSet(m.componentIds) && Live(t, c) && t.components[c].page != m.page ==>
              WorstIn(Imposed(t, m.page, c) +
                      if m.life.status == InProgress then {UnderMaintenance} else {}) == Derived(t, c)
  {
    var row := m.(deletedAt := None);
    MaintenanceOpAgreesIff(t, CreateMaintenanceOp(id, m), now);
    assert IdSet(row.componentIds) + IdsBefore(t, id, false) == IdSet(m.componentIds);
    forall c | c in IdSet(m.componentIds)
      ensures Imposed(WithMaintenance(t, id, row), row.page, c) ==
              Imposed(t, m.page, c) + if m.life.status == InProgress then {UnderMaintenance} else {}
    {
      NewMaintenanceImposes(t, id, row, c);
    }
  }
}
