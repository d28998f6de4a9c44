/**
 The store transactions, statement by statement (backend/internal/store/incidents.go,
 maintenances.go, components.go). A failing statement rolls the transaction back.
 */
module StatusStore {
  import opened Base
  import opened Statuses
  import opened Lifecycle
  import opened Derivation
  import T = StatusTables

  /** The merged rows read by the recomputation impose exactly what the page's rows impose. */
  lemma MergedImposesTheSame(t: T.Tables, page: Id, c: Id, rows: seq<Affected>, ids: seq<Id>)
    requires forall a :: a in rows <==> exists i ::
      i in t.incidents && t.incidents[i].page == page && IsActive(t.incidents[i]) && a in t.incidents[i].components
    requires forall d :: d in ids <==> exists m ::
      m in t.maintenances && t.maintenances[m].page == page && IsRunning(t.maintenances[m]) &&
      d in t.maintenances[m].componentIds
    ensures ImposedBy(c, [MergedIncident(rows)], [MergedMaintenance(ids)]) == T.Imposed(t, page, c)
  {
    var merged, stored := ImposedBy(c, [MergedIncident(rows)], [MergedMaintenance(ids)]), T.Imposed(t, page, c);
    assert MergedIncident(rows) in [MergedIncident(rows)] && MergedMaintenance(ids) in [MergedMaintenance(ids)];
    forall s | s in merged ensures s in stored {
      if a :| a in rows && a.componentId == c && a.status == s {
        var i :| i in t.incidents && t.incidents[i].page == page && IsActive(t.incidents[i])
          && a in t.incidents[i].components;
      }
    }
    forall s | s in stored ensures s in merged {
      if i, a :| i in t.incidents && t.incidents[i].page == page && IsActive(t.incidents[i]) &&
                 a in t.incidents[i].components && a.componentId == c && a.status == s {
        assert a in rows;
      }
    }
  }

  function MergedIncident(rows: seq<Affected>): IncidentRow {
    IncidentRow(0, IncidentLife(Investigating, None), None, None, rows)
  }

  function MergedMaintenance(ids: seq<Id>): MaintenanceRow {
    MaintenanceRow(0, MaintenanceLife(InProgress, None, None), None, ids)
  }

  /** Recomputing a single component: nothing, or one status change. */
  lemma RecomputeSingle(t: T.Tables, page: Id, c: Id, now: Time)
    requires t.history.Keys == t.components.Keys
    ensures T.Recomputed(t, page, {c}, now) ==
            if !T.Live(t, c) then t
            else
              var s := WorstIn(T.Imposed(t, page, c));
              if t.components[c].status == s then t.(manual := t.manual - {c})
              else t.(components := t.components[c := t.components[c].(status := s)],
                      history := t.history[c := T.Switch(t.history[c], s, T.SourceOf(s), now)],
                      manual := t.manual - {c})
  {
    var u := T.Recomputed(t, page, {c}, now);
    assert u.manual == if T.Live(t, c) then t.manual - {c} else t.manual;
    if T.Changes(t, page, {c}, c) {
      var s := WorstIn(T.Imposed(t, page, c));
      assert u.components == t.components[c := t.components[c].(status := s)];
      assert u.history == t.history[c := T.Switch(t.history[c], s, T.SourceOf(s), now)];
    } else {
      assert u.components == t.components && u.history == t.history;
    }
  }

  class Store {
    var components: map<Id, T.Component>
    var incidents: map<Id, IncidentRow>
    var maintenances: map<Id, MaintenanceRow>
    var history: map<Id, seq<T.Period>>
    ghost var manual: map<Id, ComponentStatus>

    constructor ()
      ensures View() == T.EMPTY
    {
      components, incidents, maintenances, history, manual := map[], map[], map[], map[], map[];
    }

    ghost function View(): T.Tables
      reads this
    {
      T.Tables(components, incidents, maintenances, history, manual)
    }

    // ----- Statements -----

    method CloseOpenStatusPeriod(componentId: Id, now: Time)
      modifies this`history
      ensures history == if componentId in old(history)
                         then old(history)[componentId := T.CloseOpen(old(history)[componentId], now)]
                         else old(history)
    {
      if componentId in history {
        history := history[componentId := T.CloseOpen(history[componentId], now)];
      }
    }

    /** close period, set status, open period. */
    method ChangeComponentStatusTx(componentId: Id, status: ComponentStatus, source: T.Source, now: Time)
      requires T.Live(View(), componentId) && componentId in history
      modifies this`components, this`history
      ensures components == old(components)[componentId := old(components)[componentId].(status := status)]
      ensures history == old(history)[componentId := T.Switch(old(history)[componentId], status, source, now)]
    {
      CloseOpenStatusPeriod(componentId, now);
      components := components[componentId := components[componentId].(status := status)];
      history := history[componentId := history[componentId] + [T.Period(status, now, None, source)]];
    }

    /** The rows come back in no particular order. */
    method ListActiveIncidentComponentStatuses(page: Id) returns (rows: seq<Affected>)
      ensures forall a :: a in rows <==> exists i ::
        i in incidents && incidents[i].page == page && IsActive(incidents[i]) && a in incidents[i].components
    {
      rows := [];
      var todo := incidents.Keys;
      while todo != {}
        invariant todo <= incidents.Keys
        invariant forall a :: a in rows <==> exists i ::
          i in incidents && i !in todo && incidents[i].page == page && IsActive(incidents[i])
            && a in incidents[i].components
        decreases |todo|
      {
        Inhabited(todo);
        var i :| i in todo;
        todo := todo - {i};
        if incidents[i].page == page && IsActive(incidents[i]) {
          rows := rows + incidents[i].components;
        }
      }
    }

    method ListActiveMaintenanceComponentIDs(page: Id) returns (ids: seq<Id>)
      ensures forall d :: d in ids <==> exists m ::
        m in maintenances && maintenances[m].page == page && IsRunning(maintenances[m])
          && d in maintenances[m].componentIds
    {
      ids := [];
      var todo := maintenances.Keys;
      while todo != {}
        invariant todo <= maintenances.Keys
        invariant forall d :: d in ids <==> exists m ::
          m in maintenances && m !in todo && maintenances[m].page == page && IsRunning(maintenances[m]) &&
          d in maintenances[m].componentIds
        decreases |todo|
      {
        Inhabited(todo);
        var m :| m in todo;
        todo := todo - {m};
        if maintenances[m].page == page && IsRunning(maintenances[m]) {
          ids := ids + maintenances[m].componentIds;
        }
      }
    }

    /** One turn of the recomputation loop, on the merged incident and maintenance. */
    method RecomputeOne(ghost page: Id, c: Id, rows: seq<Affected>, ids: seq<Id>, now: Time)
      requires history.Keys == components.Keys
      requires ImposedBy(c, [MergedIncident(rows)], [MergedMaintenance(ids)]) == T.Imposed(View(), page, c)
      modifies this`components, this`history, this`manual
      ensures View() == T.Recomputed(old(View()), page, {c}, now)
    {
      RecomputeSingle(View(), page, c, now);
      if c !in components || components[c].deleted {
        return;
      }
      var derived, _ := DerivedComponentStatus(c, [MergedIncident(rows)], [MergedMaintenance(ids)]);
      manual := manual - {c};
      if components[c].status == derived {
        return;
      }
      var source := T.ByIncident;
      if derived == UnderMaintenance {
        source := T.ByMaintenance;
      }
      ChangeComponentStatusTx(c, derived, source, now);
    }

    /** Recompute the listed components from one merged incident and one merged maintenance. */
    method RecomputeComponentStatusesTx(page: Id, componentIds: seq<Id>, now: Time)
      requires history.Keys == components.Keys
      modifies this`components, this`history, this`manual
      ensures View() == T.Recomputed(old(View()), page, T.IdSet(componentIds), now)
    {
      ghost var start := View();
      T.RecomputeNothing(start, page, now);
      if |componentIds| == 0 {
        assert T.IdSet(componentIds) == {};
        return;
      }
      var rows := ListActiveIncidentComponentStatuses(page);
      var ids := ListActiveMaintenanceComponentIDs(page);

      for k := 0 to |componentIds|
        invariant history.Keys == components.Keys
        invariant View() == T.Recomputed(start, page, T.IdSet(componentIds[..k]), now)
      {
        var c := componentIds[k];
        MergedImposesTheSame(start, page, c, rows, ids);
        T.ImposedFrame(start, View(), page, c);
        T.RecomputeInBatches(start, page, T.IdSet(componentIds[..k]), {c}, now);
        assert T.IdSet(componentIds[..k + 1]) == T.IdSet(componentIds[..k]) + {c};
        RecomputeOne(page, c, rows, ids, now);
      }
      assert componentIds[..|componentIds|] == componentIds;
    }

    // ----- Transactions -----

    /** Undo the statements of a failed transaction. */
    method Rollback(
      cs: map<Id, T.Component>, ins: map<Id, IncidentRow>, ms: map<Id, MaintenanceRow>,
      hs: map<Id, seq<T.Period>>, ghost man: map<Id, ComponentStatus>)
      modifies this
      ensures View() == T.Tables(cs, ins, ms, hs, man)
    {
      components, incidents, maintenances, history, manual := cs, ins, ms, hs, man;
    }

    method CreateComponent(id: Id, page: Id, status: ComponentStatus, now: Time) returns (r: Result<(), T.StoreError>)
      modifies this
      ensures Committed(r, T.CreateComponent(old(View()), id, page, status, now), old(View()))
    {
      var s := status;
      if s == Other("") {
        s := Operational;
      }
      if id in components || !IsValid(s) {
        return Failure(T.Constraint);
      }
      components := components[id := T.Component(page, s, now, false)];
      history := history[id := []];
      manual := if s == Operational then manual - {id} else manual[id := s];
      return Success(());
    }

    method SoftDeleteComponent(id: Id)
      modifies this`components
      ensures View() == T.SoftDeleteComponent(old(View()), id)
    {
      if id in components {
        components := components[id := components[id].(deleted := true)];
      }
    }

    method ChangeComponentStatus(id: Id, status: ComponentStatus, source: T.Source, now: Time)
      returns (r: Result<(), T.StoreError>)
      requires history.Keys == components.Keys
      modifies this
      ensures Committed(r, T.ChangeComponentStatus(old(View()), id, status, source, now), old(View()))
    {
      if id !in components || components[id].deleted {
        return Failure(T.NotFound);
      }
      if !IsValid(status) {
        return Failure(T.Constraint);
      }
      ChangeComponentStatusTx(id, status, source, now);
      manual := manual[id := status];
      return Success(());
    }

    /** The outcome and the new tables are those of the transaction; a failure changes nothing. */
    ghost predicate Committed(r: Result<(), T.StoreError>, expected: T.Outcome, before: T.Tables)
      reads this
    {
      && (r.Success? <==> expected.Success?)
      && (expected.Success? ==> View() == expected.value)
      && (expected.Failure? ==> r == Failure(expected.error) && View() == before)
    }

    /** The scan behind the partial unique index. */
    method IndexCollides(id: Id, row: IncidentRow) returns (b: bool)
      ensures b <==> T.Collides(View(), id, row)
    {
      if row.dedupKey.None? || !T.OpenFor(row, row.page, row.dedupKey.value) {
        return false;
      }
      var todo := incidents.Keys - {id};
      while todo != {}
        invariant todo <= incidents.Keys - {id}
        invariant forall j :: j in incidents && j != id && j !in todo ==>
          !T.OpenFor(incidents[j], row.page, row.dedupKey.value)
        decreases |todo|
      {
        Inhabited(todo);
        var j :| j in todo;
        todo := todo - {j};
        if T.OpenFor(incidents[j], row.page, row.dedupKey.value) {
          return true;
        }
      }
      return false;
    }

    /** INSERT INTO incident_components, one row at a time; false at the first violated constraint. */
    method AddIncidentComponents(id: Id, affected: seq<Affected>) returns (ok: bool)
      requires id in incidents && incidents[id].components == []
      modifies this`incidents
      ensures ok <==> T.AffectedInsertable(View(), affected)
      ensures ok ==> incidents == old(incidents)[id := old(incidents)[id].(components := affected)]
    {
      assert incidents == incidents[id := incidents[id].(components := [])];
      for k := 0 to |affected|
        invariant T.AffectedInsertable(View(), affected[..k])
        invariant id in incidents && incidents == old(incidents)[id := old(incidents)[id].(components := affected[..k])]
      {
        var a := affected[k];
        if a.componentId !in components || !IsValid(a.status) {
          return false;
        }
        if exists b | b in incidents[id].components :: b.componentId == a.componentId {
          assert !T.AffectedInsertable(View(), affected) by {
            var b :| b in affected[..k] && b.componentId == a.componentId;
            var j :| 0 <= j < k && affected[j] == b;
            assert affected[j].componentId == affected[k].componentId;
          }
          return false;
        }
        var row := incidents[id];
        incidents := incidents[id := row.(components := row.components + [a])];
        assert affected[..k + 1] == affected[..k] + [a];
        assert forall i :: 0 <= i < k ==> affected[i] in affected[..k];
      }
      assert affected[..|affected|] == affected;
      return true;
    }

    method CreateIncident(id: Id, inc: IncidentRow, now: Time) returns (r: Result<(), T.StoreError>)
      requires history.Keys == components.Keys
      modifies this
      ensures Committed(r, T.CreateIncident(old(View()), id, inc, now), old(View()))
    {
      var cs, ins, ms, hs := components, incidents, maintenances, history;
      ghost var man := manual;
      if id in incidents || inc.life.status.UnknownIncident? {
        return Failure(T.Constraint);
      }
      var conflict := IndexCollides(id, inc.(deletedAt := None));
      if conflict {
        return Failure(T.DedupConflict);
      }
      incidents := incidents[id := inc.(deletedAt := None, components := [])];
      var ok := AddIncidentComponents(id, inc.components);
      if !ok {
        Rollback(cs, ins, ms, hs, man);
        return Failure(T.Constraint);
      }
      assert View() == T.WithIncident(old(View()), id, inc.(deletedAt := None));
      RecomputeComponentStatusesTx(inc.page, ComponentIdList(inc.components), now);
      return Success(());
    }

    method UpdateIncident(id: Id, life: IncidentLife, affected: seq<Affected>, replace: bool, now: Time)
      returns (r: Result<(), T.StoreError>)
      requires history.Keys == components.Keys
      modifies this
      ensures Committed(r, T.UpdateIncident(old(View()), id, life, affected, replace, now), old(View()))
    {
      var cs, ins, ms, hs := components, incidents, maintenances, history;
      ghost var man := manual;
      if id !in incidents || incidents[id].deletedAt.Some? {
        return Failure(T.NotFound);
      }
      var prev := incidents[id];
      var conflict := IndexCollides(id,
        prev.(life := life, components := if replace then affected else prev.components));
      if life.status.UnknownIncident? || conflict {
        return Failure(T.Constraint);
      }
      incidents := incidents[id := prev.(life := life)];
      var touched := ComponentIdList(prev.components);
      if replace {
        incidents := incidents[id := prev.(life := life, components := [])];
        var ok := AddIncidentComponents(id, affected);
        if !ok {
          Rollback(cs, ins, ms, hs, man);
          return Failure(T.Constraint);
        }
        touched := touched + ComponentIdList(affected);
      }
      ghost var row := prev.(life := life, components := if replace then affected else prev.components);
      assert View() == T.WithIncident(old(View()), id, row);
      assert T.IdSet(touched) == T.ComponentIdsOf(prev.components) + T.ComponentIdsOf(row.components);
      RecomputeComponentStatusesTx(prev.page, touched, now);
      return Success(());
    }

    method AddIncidentUpdate(id: Id, status: IncidentStatus, at: Time, now: Time) returns (r: Result<(), T.StoreError>)
      requires history.Keys == components.Keys
      modifies this
      ensures Committed(r, T.AddIncidentUpdate(old(View()), id, status, at, now), old(View()))
    {
      if id !in incidents || incidents[id].deletedAt.Some? {
        return Failure(T.NotFound);
      }
      var row := incidents[id];
      var inc := new Incident(row.life);
      var err := inc.ApplyStatusChange(status, at);
      if err.Some? {
        return Failure(T.InvalidStatus);
      }
      row := row.(life := inc.Life());
      var conflict := IndexCollides(id, row);
      if conflict {
        return Failure(T.Constraint);
      }
      incidents := incidents[id := row];
      RecomputeComponentStatusesTx(row.page, ComponentIdList(row.components), now);
      return Success(());
    }

    method SoftDeleteIncident(id: Id, now: Time) returns (r: Result<(), T.StoreError>)
      requires history.Keys == components.Keys
      modifies this
      ensures Committed(r, T.SoftDeleteIncident(old(View()), id, now), old(View()))
    {
      if id !in incidents || incidents[id].deletedAt.Some? {
        return Failure(T.NotFound);
      }
      var row := incidents[id];
      incidents := incidents[id := row.(deletedAt := Some(now))];
      RecomputeComponentStatusesTx(row.page, ComponentIdList(row.components), now);
      return Success(());
    }

    /** INSERT INTO maintenance_components, one row at a time. */
    method AddMaintenanceComponents(id: Id, ids: seq<Id>) returns (ok: bool)
      requires id in maintenances && maintenances[id].componentIds == []
      modifies this`maintenances
      ensures ok <==> T.IdsInsertable(View(), ids)
      ensures ok ==> maintenances == old(maintenances)[id := old(maintenances)[id].(componentIds := ids)]
    {
      assert maintenances == maintenances[id := maintenances[id].(componentIds := [])];
      for k := 0 to |ids|
        invariant T.IdsInsertable(View(), ids[..k])
        invariant id in maintenances
        invariant maintenances == old(maintenances)[id := old(maintenances)[id].(componentIds := ids[..k])]
      {
        if ids[k] !in components {
          assert ids[k] in ids;
          return false;
        }
        if ids[k] in maintenances[id].componentIds {
          var j :| 0 <= j < k && ids[..k][j] == ids[k];
          assert ids[j] == ids[k];
          return false;
        }
        var row := maintenances[id];
        maintenances := maintenances[id := row.(componentIds := row.componentIds + [ids[k]])];
        assert ids[..k + 1] == ids[..k] + [ids[k]];
        assert forall i :: 0 <= i < k ==> ids[i] in ids[..k];
      }
      assert ids[..|ids|] == ids;
      return true;
    }

    method CreateMaintenance(id: Id, m: MaintenanceRow, now: Time) returns (r: Result<(), T.StoreError>)
      requires history.Keys == components.Keys
      modifies this
      ensures Committed(r, T.CreateMaintenance(old(View()), id, m, now), old(View()))
    {
      var cs, ins, ms, hs := components, incidents, maintenances, history;
      ghost var man := manual;
      if id in maintenances || m.life.status.UnknownMaintenance? {
        return Failure(T.Constraint);
      }
      maintenances := maintenances[id := m.(deletedAt := None, componentIds := [])];
      var ok := AddMaintenanceComponents(id, m.componentIds);
      if !ok {
        Rollback(cs, ins, ms, hs, man);
        return Failure(T.Constraint);
      }
      assert View() == T.WithMaintenance(old(View()), id, m.(deletedAt := None));
      RecomputeComponentStatusesTx(m.page, m.componentIds, now);
      return Success(());
    }

    method UpdateMaintenance(id: Id, life: MaintenanceLife, ids: seq<Id>, replace: bool, now: Time)
      returns (r: Result<(), T.StoreError>)
      requires history.Keys == components.Keys
      modifies this
      ensures Committed(r, T.UpdateMaintenance(old(View()), id, life, ids, replace, now), old(View()))
    {
      var cs, ins, ms, hs := components, incidents, maintenances, history;
      ghost var man := manual;
      if id !in maintenances || maintenances[id].deletedAt.Some? {
        return Failure(T.NotFound);
      }
      if life.status.UnknownMaintenance? {
        return Failure(T.Constraint);
      }
      var prev := maintenances[id];
      maintenances := maintenances[id := prev.(life := life)];
      var touched := prev.componentIds;
      if replace {
        maintenances := maintenances[id := prev.(life := life, componentIds := [])];
        var ok := AddMaintenanceComponents(id, ids);
        if !ok {
          Rollback(cs, ins, ms, hs, man);
          return Failure(T.Constraint);
        }
        touched := touched + ids;
      }
      ghost var row := prev.(life := life, componentIds := if replace then ids else prev.componentIds);
      assert View() == T.WithMaintenance(old(View()), id, row);
      assert T.IdSet(touched) == T.IdSet(prev.componentIds) + T.IdSet(row.componentIds);
      RecomputeComponentStatusesTx(prev.page, touched, now);
      return Success(());
    }

    method SoftDeleteMaintenance(id: Id, now: Time) returns (r: Result<(), T.StoreError>)
      requires history.Keys == components.Keys
      modifies this
      ensures Committed(r, T.SoftDeleteMaintenance(old(View()), id, now), old(View()))
    {
      if id !in maintenances || maintenances[id].deletedAt.Some? {
        return Failure(T.NotFound);
      }
      var row := maintenances[id];
      maintenances := maintenances[id := row.(deletedAt := Some(now))];
      RecomputeComponentStatusesTx(row.page, row.componentIds, now);
      return Success(());
    }

    /** The periods that meet the window [since, now]. */
    method StatusHistorySince(componentId: Id, since: Time) returns (rows: seq<T.Period>)
      ensures rows == if componentId in history then T.Since(history[componentId], since) else []
    {
      rows := [];
      if componentId !in history {
        return;
      }
      var all := history[componentId];
      for k := 0 to |all|
        invariant rows == T.Since(all[..k], since)
      {
        assert all[..k + 1][..k] == all[..k];
        if all[k].endedAt.None? || all[k].endedAt.value >= since {
          rows := rows + [all[k]];
        }
      }
      assert all[..|all|] == all;
    }
  }

  /** incidentComponentIDs: the component of every row, in order. */
  function ComponentIdList(affected: seq<Affected>): (ids: seq<Id>)
    ensures T.IdSet(ids) == T.ComponentIdsOf(affected)
  {
    if affected == [] then []
    else
      var ids := [affected[0].componentId] + ComponentIdList(affected[1..]);
      assert affected == [affected[0]] + affected[1..];
      assert forall c :: c in T.IdSet(ids) <==> c == affected[0].componentId || c in T.ComponentIdsOf(affected[1..]);
      ids
  }
}
