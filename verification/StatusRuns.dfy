/**
 What every run of store transactions keeps: the stored component status is the from-scratch
 derivation, histories are timelines, and open incidents are unique per dedup key.
 */
module StatusRuns {
  import opened Base
  import opened Statuses
  import opened Lifecycle
  import opened Derivation
  import opened StatusTables

  // ----- Invariants -----

  /** Rows point at existing components of their own page; histories exist for all components. */
  ghost predicate References(t: Tables) {
    && t.history.Keys == t.components.Keys
    && t.manual.Keys <= t.components.Keys
    && (forall i :: i in t.incidents ==> OnPage(t, t.incidents[i].page, ComponentIdsOf(t.incidents[i].components)))
    && (forall m :: m in t.maintenances ==> OnPage(t, t.maintenances[m].page, IdSet(t.maintenances[m].componentIds)))
  }

  ghost predicate OnPage(t: Tables, page: Id, ids: set<Id>) {
    forall c :: c in ids ==> c in t.components && t.components[c].page == page
  }

  /** The stored status is the operator's pending choice, or else the derivation from scratch. */
  ghost predicate StatusesAgree(t: Tables) {
    forall c :: Live(t, c) ==>
      t.components[c].status == if c in t.manual then t.manual[c] else Derived(t, c)
  }

  /** A gap-free chain of periods whose last one is open and carries the status. */
  ghost predicate Timeline(periods: seq<Period>, status: ComponentStatus, clock: Time) {
    && (forall i :: 0 <= i < |periods| ==> periods[i].startedAt <= clock)
    && (forall i :: 0 <= i < |periods| - 1 ==>
          periods[i].endedAt == Some(periods[i + 1].startedAt) && periods[i].startedAt <= periods[i + 1].startedAt)
    && (periods != [] ==> periods[|periods| - 1].endedAt == None && periods[|periods| - 1].status == status)
  }

  ghost predicate Timelines(t: Tables, clock: Time) {
    forall c :: c in t.components && c in t.history ==> Timeline(t.history[c], t.components[c].status, clock)
  }

  ghost predicate DistinctNeighbours(periods: seq<Period>) {
    forall i :: 0 <= i < |periods| - 1 ==> periods[i].status != periods[i + 1].status
  }

  ghost predicate AllDistinct(t: Tables) {
    forall c :: c in t.history ==> DistinctNeighbours(t.history[c])
  }

  /** At most one open incident per page and dedup key. */
  ghost predicate OpenUnique(t: Tables) {
    forall i, j, page, key ::
      i in t.incidents && j in t.incidents && OpenFor(t.incidents[i], page, key) && OpenFor(t.incidents[j], page, key)
      ==> i == j
  }

  ghost predicate Inv(t: Tables, clock: Time) {
    References(t) && StatusesAgree(t) && Timelines(t, clock) && OpenUnique(t)
  }

  // ----- Runs -----

  datatype Op =
    | CreateComponentOp(id: Id, page: Id, status: ComponentStatus)
    | DeleteComponentOp(id: Id)
    | ChangeStatusOp(id: Id, status: ComponentStatus, source: Source)
    | CreateIncidentOp(id: Id, incident: IncidentRow)
    | UpdateIncidentOp(id: Id, incidentLife: IncidentLife, affected: seq<Affected>, replace: bool)
    | AddUpdateOp(id: Id, incidentStatus: IncidentStatus, at: Time)
    | DeleteIncidentOp(id: Id)
    | CreateMaintenanceOp(id: Id, maintenance: MaintenanceRow)
    | UpdateMaintenanceOp(id: Id, maintenanceLife: MaintenanceLife, ids: seq<Id>, replace: bool)
    | DeleteMaintenanceOp(id: Id)

  datatype Timed = Timed(op: Op, now: Time)

  /** A failed transaction is rolled back. */
  ghost function Kept(t: Tables, r: Outcome): Tables {
    if r.Success? then r.value else t
  }

  ghost function Apply(t: Tables, op: Op, now: Time): Tables {
    match op
    case CreateComponentOp(id, page, status) => Kept(t, CreateComponent(t, id, page, status, now))
    case DeleteComponentOp(id) => SoftDeleteComponent(t, id)
    case ChangeStatusOp(id, status, source) => Kept(t, ChangeComponentStatus(t, id, status, source, now))
    case CreateIncidentOp(id, inc) => Kept(t, CreateIncident(t, id, inc, now))
    case UpdateIncidentOp(id, life, comps, replace) => Kept(t, UpdateIncident(t, id, life, comps, replace, now))
    case AddUpdateOp(id, status, at) => Kept(t, AddIncidentUpdate(t, id, status, at, now))
    case DeleteIncidentOp(id) => Kept(t, SoftDeleteIncident(t, id, now))
    case CreateMaintenanceOp(id, m) => Kept(t, CreateMaintenance(t, id, m, now))
    case UpdateMaintenanceOp(id, life, ids, replace) => Kept(t, UpdateMaintenance(t, id, life, ids, replace, now))
    case DeleteMaintenanceOp(id) => Kept(t, SoftDeleteMaintenance(t, id, now))
  }

  /**
   What the API checks before it calls the store: the affected components belong to the page of the
   incident or maintenance (parseIncidentComponents, parseMaintenanceComponents).
   */
  ghost predicate PageChecked(t: Tables, op: Op) {
    match op
    case CreateIncidentOp(_, inc) => OnPage(t, inc.page, ComponentIdsOf(inc.components))
    case UpdateIncidentOp(id, _, comps, replace) =>
      replace && id in t.incidents ==> OnPage(t, t.incidents[id].page, ComponentIdsOf(comps))
    case CreateMaintenanceOp(_, m) => OnPage(t, m.page, IdSet(m.componentIds))
    case UpdateMaintenanceOp(id, _, ids, replace) =>
      replace && id in t.maintenances ==> OnPage(t, t.maintenances[id].page, IdSet(ids))
    case _ => true
  }

  /** handlePatchComponent changes a status only to a different one. */
  ghost predicate ChangeChecked(t: Tables, op: Op) {
    op.ChangeStatusOp? && Live(t, op.id) ==> op.status != t.components[op.id].status
  }

  /** The clock never goes back; nothing else is asked of the run. */
  predicate ClockedRun(clock: Time, run: seq<Timed>)
    decreases |run|
  {
    run == [] || (clock <= run[0].now && ClockedRun(run[0].now, run[1..]))
  }

  /** Every operation of the run is page-checked where it happens, and the clock never goes back. */
  ghost predicate CheckedRun(t: Tables, clock: Time, run: seq<Timed>)
    decreases |run|
  {
    run == [] ||
    (&& clock <= run[0].now
     && PageChecked(t, run[0].op)
     && CheckedRun(Apply(t, run[0].op, run[0].now), run[0].now, run[1..]))
  }

  ghost predicate ChangeCheckedRun(t: Tables, run: seq<Timed>)
    decreases |run|
  {
    run == [] ||
    (&& ChangeChecked(t, run[0].op)
     && ChangeCheckedRun(Apply(t, run[0].op, run[0].now), run[1..]))
  }

  ghost function Run(t: Tables, clock: Time, run: seq<Timed>): (Tables, Time)
    decreases |run|
  {
    if run == [] then (t, clock)
    else Run(Apply(t, run[0].op, run[0].now), run[0].now, run[1..])
  }

  // ----- Recomputing the touched components is enough -----

  /** A row that mentions the component neither before nor after imposes nothing new on it. */
  lemma UntouchedByIncident(t: Tables, id: Id, row: IncidentRow, page: Id, c: Id)
    requires c !in ComponentIdsOf(row.components)
    requires id in t.incidents ==> c !in ComponentIdsOf(t.incidents[id].components)
    ensures Imposed(WithIncident(t, id, row), page, c) == Imposed(t, page, c)
  {
    var u := WithIncident(t, id, row);
    forall s | s in Imposed(u, page, c) ensures s in Imposed(t, page, c) {
    }
    forall s | s in Imposed(t, page, c) ensures s in Imposed(u, page, c) {
      if i, a :| i in t.incidents && t.incidents[i].page == page && IsActive(t.incidents[i]) &&
                 a in t.incidents[i].components && a.componentId == c && a.status == s {
        assert i in u.incidents && u.incidents[i] == t.incidents[i];
      }
    }
  }

  lemma UntouchedByMaintenance(t: Tables, id: Id, row: MaintenanceRow, page: Id, c: Id)
    requires c !in IdSet(row.componentIds)
    requires id in t.maintenances ==> c !in IdSet(t.maintenances[id].componentIds)
    ensures Imposed(WithMaintenance(t, id, row), page, c) == Imposed(t, page, c)
  {
    var u := WithMaintenance(t, id, row);
    forall s | s in Imposed(t, page, c) ensures s in Imposed(u, page, c) {
      if m :| m in t.maintenances && t.maintenances[m].page == page && IsRunning(t.maintenances[m]) &&
              c in t.maintenances[m].componentIds && s == UnderMaintenance {
        assert m in u.maintenances && u.maintenances[m] == t.maintenances[m];
      }
    }
    forall s | s in Imposed(u, page, c) ensures s in Imposed(t, page, c) {
    }
  }

  /**
   If statuses agreed before the rows changed, and no component outside `ids` feels the change, then
   recomputing only `ids` makes them agree again.
   */
  lemma RecomputeRestoresAgreement(t: Tables, u: Tables, page: Id, ids: set<Id>, now: Time)
    requires StatusesAgree(t)
    requires u.components == t.components && u.manual == t.manual
    requires OnPage(t, page, ids)
    requires forall c :: Live(t, c) && c !in ids ==> Derived(u, c) == Derived(t, c)
    ensures StatusesAgree(Recomputed(u, page, ids, now))
  {
    var v := Recomputed(u, page, ids, now);
    forall c | Live(v, c)
      ensures v.components[c].status == if c in v.manual then v.manual[c] else Derived(v, c)
    {
      assert Live(t, c) && v.components[c].page == u.components[c].page;
      ImposedFrame(u, v, u.components[c].page, c);
    }
  }

  lemma SwitchKeepsTimeline(periods: seq<Period>, old_: ComponentStatus, clock: Time,
                            status: ComponentStatus, source: Source, now: Time)
    requires Timeline(periods, old_, clock) && clock <= now
    ensures Timeline(Switch(periods, status, source, now), status, now)
    ensures DistinctNeighbours(Switch(periods, status, source, now)) <==>
            DistinctNeighbours(periods) && (periods == [] || old_ != status)
  {
    var next := Switch(periods, status, source, now);
    assert |next| == |periods| + 1 && next[|periods|].startedAt == now;
    forall i | 0 <= i < |periods|
      ensures next[i].startedAt == periods[i].startedAt && next[i].status == periods[i].status
      ensures i < |periods| - 1 ==> next[i].endedAt == periods[i].endedAt
      ensures i == |periods| - 1 ==> next[i].endedAt == Some(now)
    {
      assert i < |periods| - 1 ==> periods[i].endedAt == Some(periods[i + 1].startedAt);
    }
    if DistinctNeighbours(next) {
      forall i | 0 <= i < |periods| - 1 ensures periods[i].status != periods[i + 1].status {
        assert next[i].status != next[i + 1].status;
      }
      if periods != [] {
        assert next[|periods| - 1].status != next[|periods| - 1 + 1].status;
      }
    }
  }

  lemma LaterTimeline(periods: seq<Period>, status: ComponentStatus, clock: Time, now: Time)
    requires Timeline(periods, status, clock) && clock <= now
    ensures Timeline(periods, status, now)
  {
  }

  lemma RecomputeKeepsTimelines(t: Tables, page: Id, ids: set<Id>, clock: Time, now: Time)
    requires t.history.Keys == t.components.Keys && Timelines(t, clock) && clock <= now
    ensures Timelines(Recomputed(t, page, ids, now), now)
    ensures AllDistinct(t) ==> AllDistinct(Recomputed(t, page, ids, now))
  {
    var v := Recomputed(t, page, ids, now);
    forall c | c in t.components
      ensures Timeline(v.history[c], v.components[c].status, now)
      ensures DistinctNeighbours(t.history[c]) ==> DistinctNeighbours(v.history[c])
    {
      if Changes(t, page, ids, c) {
        var s := WorstIn(Imposed(t, page, c));
        SwitchKeepsTimeline(t.history[c], t.components[c].status, clock, s, SourceOf(s), now);
      } else {
        LaterTimeline(t.history[c], t.components[c].status, clock, now);
      }
    }
  }

  // ----- One transaction -----

  lemma WritingIncidentKeepsOpenUnique(t: Tables, id: Id, row: IncidentRow)
    requires OpenUnique(t) && !Collides(t, id, row)
    ensures OpenUnique(WithIncident(t, id, row))
  {
    var u := WithIncident(t, id, row);
    forall i, j, page, key |
      i in u.incidents && j in u.incidents && OpenFor(u.incidents[i], page, key) && OpenFor(u.incidents[j], page, key)
      ensures i == j
    {
    }
  }

  /** The four parts of the invariant after rows were written to u and the listed components recomputed. */
  lemma RecomputedKeepsInv(t: Tables, u: Tables, page: Id, ids: set<Id>, clock: Time, now: Time)
    requires Inv(t, clock) && clock <= now
    requires u.components == t.components && u.history == t.history && u.manual == t.manual
    requires References(u) && OpenUnique(u) && OnPage(t, page, ids)
    requires forall c :: Live(t, c) && c !in ids ==> Derived(u, c) == Derived(t, c)
    ensures Inv(Recomputed(u, page, ids, now), now)
    ensures AllDistinct(t) ==> AllDistinct(Recomputed(u, page, ids, now))
  {
    RecomputeRestoresAgreement(t, u, page, ids, now);
    RecomputeKeepsTimelines(u, page, ids, clock, now);
    RecomputedKeepsReferences(u, page, ids, now);
  }

  lemma RecomputedKeepsReferences(u: Tables, page: Id, ids: set<Id>, now: Time)
    requires References(u)
    ensures References(Recomputed(u, page, ids, now))
    ensures OpenUnique(u) ==> OpenUnique(Recomputed(u, page, ids, now))
  {
  }

  /** The common core of the four incident transactions. */
  lemma WritingIncidentKeepsInv(t: Tables, id: Id, row: IncidentRow, ids: set<Id>, clock: Time, now: Time)
    requires Inv(t, clock) && clock <= now
    requires !Collides(t, id, row)
    requires OnPage(t, row.page, ComponentIdsOf(row.components))
    requires id in t.incidents ==> t.incidents[id].page == row.page
    requires ids == ComponentIdsOf(row.components) +
                    if id in t.incidents then ComponentIdsOf(t.incidents[id].components) else {}
    ensures Inv(Recomputed(WithIncident(t, id, row), row.page, ids, now), now)
    ensures AllDistinct(t) ==> AllDistinct(Recomputed(WithIncident(t, id, row), row.page, ids, now))
  {
    var u := WithIncident(t, id, row);
    IncidentReferences(t, id, row, ids);
    forall c | Live(t, c) && c !in ids ensures Derived(u, c) == Derived(t, c) {
      UntouchedByIncident(t, id, row, t.components[c].page, c);
    }
    WritingIncidentKeepsOpenUnique(t, id, row);
    RecomputedKeepsInv(t, u, row.page, ids, clock, now);
  }

  lemma IncidentReferences(t: Tables, id: Id, row: IncidentRow, ids: set<Id>)
    requires References(t)
    requires OnPage(t, row.page, ComponentIdsOf(row.components))
    requires id in t.incidents ==> t.incidents[id].page == row.page
    requires ids == ComponentIdsOf(row.components) +
                    if id in t.incidents then ComponentIdsOf(t.incidents[id].components) else {}
    ensures OnPage(t, row.page, ids) && References(WithIncident(t, id, row))
  {
  }

  lemma MaintenanceReferences(t: Tables, id: Id, row: MaintenanceRow, ids: set<Id>)
    requires References(t)
    requires OnPage(t, row.page, IdSet(row.componentIds))
    requires id in t.maintenances ==> t.maintenances[id].page == row.page
    requires ids == IdSet(row.componentIds) +
                    if id in t.maintenances then IdSet(t.maintenances[id].componentIds) else {}
    ensures OnPage(t, row.page, ids) && References(WithMaintenance(t, id, row))
  {
  }

  /** The common core of the three maintenance transactions. */
  lemma WritingMaintenanceKeepsInv(t: Tables, id: Id, row: MaintenanceRow, ids: set<Id>, clock: Time, now: Time)
    requires Inv(t, clock) && clock <= now
    requires OnPage(t, row.page, IdSet(row.componentIds))
    requires id in t.maintenances ==> t.maintenances[id].page == row.page
    requires ids == IdSet(row.componentIds) +
                    if id in t.maintenances then IdSet(t.maintenances[id].componentIds) else {}
    ensures Inv(Recomputed(WithMaintenance(t, id, row), row.page, ids, now), now)
    ensures AllDistinct(t) ==> AllDistinct(Recomputed(WithMaintenance(t, id, row), row.page, ids, now))
  {
    var u := WithMaintenance(t, id, row);
    MaintenanceReferences(t, id, row, ids);
    forall c | Live(t, c) && c !in ids ensures Derived(u, c) == Derived(t, c) {
      UntouchedByMaintenance(t, id, row, t.components[c].page, c);
    }
    RecomputedKeepsInv(t, u, row.page, ids, clock, now);
  }

  lemma IncidentOpKeepsInv(t: Tables, op: Op, clock: Time, now: Time)
    requires op.CreateIncidentOp? || op.UpdateIncidentOp? || op.AddUpdateOp? || op.DeleteIncidentOp?
    requires Inv(t, clock) && clock <= now && PageChecked(t, op)
    ensures Inv(Apply(t, op, now), now)
    ensures AllDistinct(t) ==> AllDistinct(Apply(t, op, now))
  {
    ClockAdvances(t, clock, now);
    if Apply(t, op, now) == t {
      return;
    }
    var id := op.id;
    match op
    case CreateIncidentOp(_, inc) =>
      var row := inc.(deletedAt := None);
      assert ComponentIdsOf(row.components) + {} == ComponentIdsOf(row.components);
      WritingIncidentKeepsInv(t, id, row, ComponentIdsOf(row.components), clock, now);
    case UpdateIncidentOp(_, life, comps, replace) =>
      var prev := t.incidents[id];
      var row := prev.(life := life, components := if replace then comps else prev.components);
      WritingIncidentKeepsInv(t, id, row, ComponentIdsOf(prev.components) + ComponentIdsOf(row.components), clock, now);
    case AddUpdateOp(_, status, at) =>
      var row := t.incidents[id].(life := ChangeIncident(t.incidents[id].life, IncidentChange(status, at)));
      WritingIncidentKeepsInv(t, id, row, ComponentIdsOf(row.components), clock, now);
    case DeleteIncidentOp(_) =>
      var row := t.incidents[id].(deletedAt := Some(now));
      WritingIncidentKeepsInv(t, id, row, ComponentIdsOf(row.components), clock, now);
  }

  lemma MaintenanceOpKeepsInv(t: Tables, op: Op, clock: Time, now: Time)
    requires op.CreateMaintenanceOp? || op.UpdateMaintenanceOp? || op.DeleteMaintenanceOp?
    requires Inv(t, clock) && clock <= now && PageChecked(t, op)
    ensures Inv(Apply(t, op, now), now)
    ensures AllDistinct(t) ==> AllDistinct(Apply(t, op, now))
  {
    ClockAdvances(t, clock, now);
    if Apply(t, op, now) == t {
      return;
    }
    var id := op.id;
    match op
    case CreateMaintenanceOp(_, m) =>
      var row := m.(deletedAt := None);
      assert IdSet(row.componentIds) + {} == IdSet(row.componentIds);
      WritingMaintenanceKeepsInv(t, id, row, IdSet(row.componentIds), clock, now);
    case UpdateMaintenanceOp(_, life, ids, replace) =>
      var prev := t.maintenances[id];
      var row := prev.(life := life, componentIds := if replace then ids else prev.componentIds);
      WritingMaintenanceKeepsInv(t, id, row, IdSet(prev.componentIds) + IdSet(row.componentIds), clock, now);
    case DeleteMaintenanceOp(_) =>
      var row := t.maintenances[id].(deletedAt := Some(now));
      WritingMaintenanceKeepsInv(t, id, row, IdSet(row.componentIds), clock, now);
  }

  lemma ClockAdvances(t: Tables, clock: Time, now: Time)
    requires Timelines(t, clock) && clock <= now
    ensures Timelines(t, now)
  {
    forall c | c in t.components && c in t.history ensures Timeline(t.history[c], t.components[c].status, now) {
      LaterTimeline(t.history[c], t.components[c].status, clock, now);
    }
  }

  /** Derivation depends on component rows only through the page. */
  lemma DerivedFrame(t: Tables, u: Tables, c: Id)
    requires c in t.components && c in u.components && u.components[c].page == t.components[c].page
    requires u.incidents == t.incidents && u.maintenances == t.maintenances
    ensures Derived(u, c) == Derived(t, c)
  {
    ImposedFrame(t, u, t.components[c].page, c);
  }

  lemma NothingImposedOnUnknown(t: Tables, page: Id, c: Id)
    requires References(t) && c !in t.components
    ensures Imposed(t, page, c) == {}
  {
    forall i, a | i in t.incidents && a in t.incidents[i].components ensures a.componentId in t.components {
      assert a.componentId in ComponentIdsOf(t.incidents[i].components);
    }
    forall m, d | m in t.maintenances && d in t.maintenances[m].componentIds ensures d in t.components {
      assert d in IdSet(t.maintenances[m].componentIds);
    }
  }

  lemma CreateComponentKeepsInv(t: Tables, id: Id, page: Id, status: ComponentStatus, clock: Time, now: Time)
    requires Inv(t, clock) && clock <= now
    requires CreateComponent(t, id, page, status, now).Success?
    ensures Inv(CreateComponent(t, id, page, status, now).value, now)
    ensures AllDistinct(t) ==> AllDistinct(CreateComponent(t, id, page, status, now).value)
  {
    var u := CreateComponent(t, id, page, status, now).value;
    ClockAdvances(t, clock, now);
    NothingImposedOnUnknown(t, page, id);
    ImposedFrame(t, u, page, id);
    forall c | Live(u, c) && c != id ensures Derived(u, c) == Derived(t, c) {
      DerivedFrame(t, u, c);
    }
  }

  lemma DeleteComponentKeepsInv(t: Tables, id: Id, clock: Time, now: Time)
    requires Inv(t, clock) && clock <= now
    ensures Inv(SoftDeleteComponent(t, id), now)
    ensures AllDistinct(t) ==> AllDistinct(SoftDeleteComponent(t, id))
  {
    ClockAdvances(t, clock, now);
    DeletionKeepsAgreement(t, id);
    DeletionKeepsReferences(t, id);
  }

  lemma DeletionKeepsAgreement(t: Tables, id: Id)
    requires StatusesAgree(t)
    ensures StatusesAgree(SoftDeleteComponent(t, id))
  {
    var u := SoftDeleteComponent(t, id);
    forall c | Live(u, c) ensures u.components[c].status == if c in u.manual then u.manual[c] else Derived(u, c) {
      assert Live(t, c);
      DerivedFrame(t, u, c);
    }
  }

  lemma DeletionKeepsReferences(t: Tables, id: Id)
    requires References(t)
    ensures References(SoftDeleteComponent(t, id))
  {
  }

  lemma ChangeStatusKeepsInv(t: Tables, id: Id, status: ComponentStatus, source: Source, clock: Time, now: Time)
    requires Inv(t, clock) && clock <= now
    requires ChangeComponentStatus(t, id, status, source, now).Success?
    ensures Inv(ChangeComponentStatus(t, id, status, source, now).value, now)
    ensures AllDistinct(t) && status != t.components[id].status ==>
              AllDistinct(ChangeComponentStatus(t, id, status, source, now).value)
  {
    ChangeStatusKeepsTimelines(t, id, status, source, clock, now);
    ChangeStatusKeepsAgreement(t, id, status, source, now);
  }

  lemma ChangeStatusKeepsTimelines(
    t: Tables, id: Id, status: ComponentStatus, source: Source, clock: Time, now: Time)
    requires t.history.Keys == t.components.Keys && Timelines(t, clock) && clock <= now
    requires ChangeComponentStatus(t, id, status, source, now).Success?
    ensures Timelines(ChangeComponentStatus(t, id, status, source, now).value, now)
    ensures AllDistinct(t) && status != t.components[id].status ==>
              AllDistinct(ChangeComponentStatus(t, id, status, source, now).value)
  {
    ClockAdvances(t, clock, now);
    SwitchKeepsTimeline(t.history[id], t.components[id].status, clock, status, source, now);
  }

  lemma ChangeStatusKeepsAgreement(t: Tables, id: Id, status: ComponentStatus, source: Source, now: Time)
    requires References(t) && StatusesAgree(t) && OpenUnique(t)
    requires ChangeComponentStatus(t, id, status, source, now).Success?
    ensures var u := ChangeComponentStatus(t, id, status, source, now).value;
            References(u) && StatusesAgree(u) && OpenUnique(u)
  {
    var u := ChangeComponentStatus(t, id, status, source, now).value;
    forall c | Live(u, c) && c != id ensures Live(t, c) && Derived(u, c) == Derived(t, c) {
      DerivedFrame(t, u, c);
    }
  }

  /**
   The store method itself does not compare: on a gap-free history without repeats, a manual change
   keeps neighbouring periods different exactly when it is a change, or the first one.
   */
  lemma ManualChangeKeepsDistinctIff(
    t: Tables, id: Id, status: ComponentStatus, source: Source, clock: Time, now: Time)
    requires Inv(t, clock) && clock <= now && AllDistinct(t)
    requires ChangeComponentStatus(t, id, status, source, now).Success?
    ensures AllDistinct(ChangeComponentStatus(t, id, status, source, now).value) <==>
            t.history[id] == [] || status != t.components[id].status
  {
    var u := ChangeComponentStatus(t, id, status, source, now).value;
    assert id in u.history && u.history[id] == Switch(t.history[id], status, source, now);
    assert DistinctNeighbours(t.history[id]);
    SwitchKeepsTimeline(t.history[id], t.components[id].status, clock, status, source, now);
  }

  lemma ApplyKeepsInv(t: Tables, op: Op, clock: Time, now: Time)
    requires Inv(t, clock) && clock <= now && PageChecked(t, op)
    ensures Inv(Apply(t, op, now), now)
    ensures AllDistinct(t) && ChangeChecked(t, op) ==> AllDistinct(Apply(t, op, now))
  {
    if op.CreateComponentOp? || op.DeleteComponentOp? || op.ChangeStatusOp? {
      ClockAdvances(t, clock, now);
      match op
      case CreateComponentOp(id, page, status) =>
        if CreateComponent(t, id, page, status, now).Success? {
          CreateComponentKeepsInv(t, id, page, status, clock, now);
        }
      case DeleteComponentOp(id) =>
        DeleteComponentKeepsInv(t, id, clock, now);
      case ChangeStatusOp(id, status, source) =>
        if ChangeComponentStatus(t, id, status, source, now).Success? {
          ChangeStatusKeepsInv(t, id, status, source, clock, now);
        }
    } else if op.CreateMaintenanceOp? || op.UpdateMaintenanceOp? || op.DeleteMaintenanceOp? {
      MaintenanceOpKeepsInv(t, op, clock, now);
    } else {
      IncidentOpKeepsInv(t, op, clock, now);
    }
  }

  // ----- Every run -----

  lemma EmptyIsFine(clock: Time)
    ensures Inv(EMPTY, clock) && AllDistinct(EMPTY)
  {
  }

  /** Main result: every page-checked run keeps the invariant, from any state that has it. */
  lemma {:induction false} RunKeepsInv(t: Tables, clock: Time, run: seq<Timed>)
    requires Inv(t, clock) && CheckedRun(t, clock, run)
    ensures var (u, end) := Run(t, clock, run); Inv(u, end) && clock <= end
    ensures AllDistinct(t) && ChangeCheckedRun(t, run) ==> AllDistinct(Run(t, clock, run).0)
    decreases |run|
  {
    if run != [] {
      var step := run[0];
      ApplyKeepsInv(t, step.op, clock, step.now);
      RunKeepsInv(Apply(t, step.op, step.now), step.now, run[1..]);
    }
  }

  /** `rows` lists exactly the rows of the page, in any order and with any repetition. */
  ghost predicate ListsIncidents(t: Tables, page: Id, rows: seq<IncidentRow>) {
    forall row :: row in rows <==> exists i :: i in t.incidents && t.incidents[i].page == page && t.incidents[i] == row
  }

  ghost predicate ListsMaintenances(t: Tables, page: Id, rows: seq<MaintenanceRow>) {
    forall row :: row in rows <==>
      exists m :: m in t.maintenances && t.maintenances[m].page == page && t.maintenances[m] == row
  }

  lemma ListedImposed(t: Tables, page: Id, c: Id, incidents: seq<IncidentRow>, maintenances: seq<MaintenanceRow>)
    requires ListsIncidents(t, page, incidents) && ListsMaintenances(t, page, maintenances)
    ensures ImposedBy(c, incidents, maintenances) == Imposed(t, page, c)
  {
    var listed, stored := ImposedBy(c, incidents, maintenances), Imposed(t, page, c);
    forall s | s in stored ensures s in listed {
      if i, a :| i in t.incidents && t.incidents[i].page == page && IsActive(t.incidents[i]) &&
                 a in t.incidents[i].components && a.componentId == c && a.status == s {
        assert t.incidents[i] in incidents;
      } else {
        var m :| m in t.maintenances && t.maintenances[m].page == page && IsRunning(t.maintenances[m]) &&
                 c in t.maintenances[m].componentIds && s == UnderMaintenance;
        assert t.maintenances[m] in maintenances;
      }
    }
    forall s | s in listed ensures s in stored {
      if row, a :| row in incidents && IsActive(row) && a in row.components && a.componentId == c && a.status == s {
        var i :| i in t.incidents && t.incidents[i].page == page && t.incidents[i] == row;
        assert a in t.incidents[i].components;
      } else {
        var row :| row in maintenances && IsRunning(row) && c in row.componentIds && s == UnderMaintenance;
        var m :| m in t.maintenances && t.maintenances[m].page == page && t.maintenances[m] == row;
        assert c in t.maintenances[m].componentIds;
      }
    }
  }

  /**
   In every reachable state, calling the domain derivation on complete listings of the page's
   incidents and maintenances gives back the stored status of every live component that no operator
   has overridden since it was last touched.
   */
  lemma StoredStatusIsDerivedFromScratch(
    clock: Time, run: seq<Timed>, c: Id, incidents: seq<IncidentRow>, maintenances: seq<MaintenanceRow>)
    requires CheckedRun(EMPTY, clock, run)
    requires var t := Run(EMPTY, clock, run).0;
             && Live(t, c) && c !in t.manual
             && ListsIncidents(t, t.components[c].page, incidents)
             && ListsMaintenances(t, t.components[c].page, maintenances)
    ensures Run(EMPTY, clock, run).0.components[c].status == WorstIn(ImposedBy(c, incidents, maintenances))
  {
    EmptyIsFine(clock);
    RunKeepsInv(EMPTY, clock, run);
    var t := Run(EMPTY, clock, run).0;
    ListedImposed(t, t.components[c].page, c, incidents, maintenances);
  }

  /** The page check matters: an incident of page 2 can set the status of a component of page 1. */
  lemma ForeignPageBreaksAgreement()
    ensures exists t, op, clock: Time ::
      Inv(t, clock) && !PageChecked(t, op) && !StatusesAgree(Apply(t, op, clock))
  {
    OneComponentIsFine();
    ForeignIncidentSetsStatus();
    assert !PageChecked(ONE_COMPONENT, CreateIncidentOp(5, FOREIGN)) by {
      assert 7 in ComponentIdsOf(FOREIGN.components);
    }
  }

  const ONE_COMPONENT: Tables :=
    EMPTY.(components := map[7 := Component(1, Operational, 0, false)], history := map[7 := []])

  const FOREIGN: IncidentRow :=
    IncidentRow(2, IncidentLife(Investigating, None), None, None, [Affected(7, MajorOutage)])

  lemma OneComponentIsFine()
    ensures Inv(ONE_COMPONENT, 0)
  {
    assert Imposed(ONE_COMPONENT, 1, 7) == {};
  }

  lemma ForeignIncidentSetsStatus()
    ensures !StatusesAgree(Apply(ONE_COMPONENT, CreateIncidentOp(5, FOREIGN), 0))
  {
    var u := Apply(ONE_COMPONENT, CreateIncidentOp(5, FOREIGN), 0);
    assert 7 in ComponentIdsOf(FOREIGN.components);
    assert u.incidents == map[5 := FOREIGN];
    assert Affected(7, MajorOutage) in FOREIGN.components;
    assert MajorOutage in Imposed(WithIncident(ONE_COMPONENT, 5, FOREIGN), 2, 7);
    assert u.components[7].status == MajorOutage;
    assert Imposed(u, 1, 7) == {};
    assert Live(u, 7);
  }
}
