/**
 The status that active incidents and running maintenances impose on a component
 (backend/internal/domain/derive.go).
 */
module Derivation {
  import opened Base
  import opened Statuses
  import opened Lifecycle

  datatype Affected = Affected(componentId: Id, status: ComponentStatus)

  datatype IncidentRow = IncidentRow(
    page: Id,
    life: IncidentLife,
    dedupKey: Option<string>,
    deletedAt: Option<Time>,
    components: seq<Affected>)

  datatype MaintenanceRow = MaintenanceRow(
    page: Id,
    life: MaintenanceLife,
    deletedAt: Option<Time>,
    componentIds: seq<Id>)

  predicate IsActive(inc: IncidentRow) {
    inc.deletedAt.None? && inc.life.status != Resolved
  }

  predicate IsRunning(m: MaintenanceRow) {
    m.deletedAt.None? && m.life.status == InProgress
  }

  /** ImposedComponentStatus: a maintenance imposes under_maintenance while it is in progress. */
  function ImposedComponentStatus(m: MaintenanceRow): Option<ComponentStatus> {
    if m.life.status == InProgress then Some(UnderMaintenance) else None
  }

  /** The statuses a list of affected components reports for one component. */
  ghost function Reported(componentId: Id, components: seq<Affected>): set<ComponentStatus> {
    set a | a in components && a.componentId == componentId :: a.status
  }

  /** Everything the given incidents and maintenances impose on the component. */
  ghost function ImposedBy(
    componentId: Id, incidents: seq<IncidentRow>, maintenances: seq<MaintenanceRow>): set<ComponentStatus>
  {
    (set inc, a | inc in incidents && IsActive(inc) && a in inc.components
      && a.componentId == componentId :: a.status) +
    (set m | m in maintenances && IsRunning(m) && componentId in m.componentIds :: UnderMaintenance)
  }

  lemma MembersAppend(statuses: seq<ComponentStatus>, s: ComponentStatus)
    ensures Members(statuses + [s]) == Members(statuses) + {s}
  {
  }

  lemma ReportedAppend(componentId: Id, components: seq<Affected>, a: Affected)
    ensures Reported(componentId, components + [a]) ==
            Reported(componentId, components) + if a.componentId == componentId then {a.status} else {}
  {
  }

  lemma ImposedByAppendIncident(componentId: Id, incidents: seq<IncidentRow>, inc: IncidentRow)
    ensures ImposedBy(componentId, incidents + [inc], []) ==
            ImposedBy(componentId, incidents, []) + if IsActive(inc) then Reported(componentId, inc.components) else {}
  {
  }

  lemma ImposedByAppendMaintenance(
    componentId: Id, incidents: seq<IncidentRow>, maintenances: seq<MaintenanceRow>, m: MaintenanceRow)
    ensures ImposedBy(componentId, incidents, maintenances + [m]) ==
            ImposedBy(componentId, incidents, maintenances) +
            if IsRunning(m) && componentId in m.componentIds then {UnderMaintenance} else {}
  {
    var before := ImposedBy(componentId, incidents, maintenances);
    var after := ImposedBy(componentId, incidents, maintenances + [m]);
    assert forall s :: s in after ==>
              s in before || (s == UnderMaintenance && IsRunning(m) && componentId in m.componentIds);
    if IsRunning(m) && componentId in m.componentIds {
      assert m in maintenances + [m];
      assert UnderMaintenance in after;
    }
    forall s | s in before ensures s in after {
    }
  }

  /** The two collecting loops of DerivedComponentStatus, with its `continue` and `break`. */
  method DerivedComponentStatus(
    componentId: Id, incidents: seq<IncidentRow>, maintenances: seq<MaintenanceRow>)
    returns (status: ComponentStatus, driven: bool)
    ensures status == WorstIn(ImposedBy(componentId, incidents, maintenances))
    ensures driven <==> ImposedBy(componentId, incidents, maintenances) != {}
  {
    var imposed: seq<ComponentStatus> := [];

    for i := 0 to |incidents|
      invariant Members(imposed) == ImposedBy(componentId, incidents[..i], [])
    {
      var inc := incidents[i];
      ghost var before := Members(imposed);
      assert incidents[..i + 1] == incidents[..i] + [inc];
      ImposedByAppendIncident(componentId, incidents[..i], inc);
      if inc.deletedAt.Some? || inc.life.status == Resolved {
        continue;
      }
      for k := 0 to |inc.components|
        invariant Members(imposed) == before + Reported(componentId, inc.components[..k])
      {
        var a := inc.components[k];
        assert inc.components[..k + 1] == inc.components[..k] + [a];
        ReportedAppend(componentId, inc.components[..k], a);
        if a.componentId == componentId {
          MembersAppend(imposed, a.status);
          imposed := imposed + [a.status];
        }
      }
      assert inc.components[..|inc.components|] == inc.components;
    }
    assert incidents[..|incidents|] == incidents;

    for j := 0 to |maintenances|
      invariant Members(imposed) == ImposedBy(componentId, incidents, maintenances[..j])
    {
      var m := maintenances[j];
      assert maintenances[..j + 1] == maintenances[..j] + [m];
      ImposedByAppendMaintenance(componentId, incidents, maintenances[..j], m);
      if m.deletedAt.Some? {
        continue;
      }
      var ms := ImposedComponentStatus(m);
      if ms.None? {
        continue;
      }
      ghost var before := imposed;
      for k := 0 to |m.componentIds|
        invariant componentId !in m.componentIds[..k]
        invariant imposed == before
      {
        if m.componentIds[k] == componentId {
          MembersAppend(imposed, ms.value);
          imposed := imposed + [ms.value];
          break;
        }
      }
    }
    assert maintenances[..|maintenances|] == maintenances;

    if |imposed| == 0 {
      return Operational, false;
    }
    assert imposed[0] in Members(imposed);
    status := WorstStatus(imposed);
    driven := true;
  }
}
