/** What an import writes of what the source delivered, and how services become components. */
module ImportedContent {
  import opened Base
  import opened Statuses
  import opened Lifecycle
  import opened Decimal
  import opened Imported
  import opened ImportStore
  import opened Importer
  import opened ServiceClosure

  // ----- Links to components -----

  /** Known external ids become our ids, in order and with their repetitions; unknown ones are dropped. */
  lemma {:induction false} KnownIdsSplit(a: seq<string>, b: seq<string>, e: string, compMap: ComponentMap)
    ensures KnownIds(a + b, compMap) == KnownIds(a, compMap) + KnownIds(b, compMap)
    ensures KnownIds([e], compMap) == if e in compMap then [compMap[e]] else []
  {
    assert [e][..0] == [];
    if b == [] {
      assert a + b == a;
    } else {
      KnownIdsSplit(a, b[..|b| - 1], e, compMap);
      assert (a + b)[..|a + b| - 1] == a + b[..|b| - 1];
    }
  }

  /** Where all are known, the k-th is the k-th. */
  lemma {:induction false} AllKnownIds(externals: seq<string>, compMap: ComponentMap, k: nat)
    requires forall j :: 0 <= j < |externals| ==> externals[j] in compMap
    requires k < |externals|
    ensures |KnownIds(externals, compMap)| == |externals| && KnownIds(externals, compMap)[k] == compMap[externals[k]]
  {
    var n := |externals| - 1;
    if n > 0 {
      AllKnownIds(externals[..n], compMap, if k < n then k else 0);
    }
  }

  // ----- Incidents -----

  /** The component status that an incident of this impact shows. */
  ghost predicate ShowsImpact(impact: Impact, s: ComponentStatus) {
    && (impact == Critical || impact == Major <==> s == MajorOutage)
    && (impact == Minor <==> s == PartialOutage) && (impact == NoImpact <==> s == DegradedPerformance)
  }

  /** The written row is the source's incident, with the first update as its text, on the known components. */
  ghost predicate SaysIncident(w: Write, id: Id, si: ImportedIncident, compMap: ComponentMap) {
    && w.IncidentCreated? && w.id == id && w.title == si.title && w.impact == si.impact
    && w.incidentStatus == si.status && w.startedAt == si.startedAt && w.resolvedAt == si.resolvedAt
    && w.body == (if |si.updates| > 0 then si.updates[0].body else "")
    && |w.affected| == |KnownIds(si.components, compMap)|
    && forall k :: 0 <= k < |w.affected| ==>
         w.affected[k].0 == KnownIds(si.components, compMap)[k] && ShowsImpact(si.impact, w.affected[k].1)
  }

  /** Main result: an import writes the incident, each further update once and in order, and the mapping. */
  lemma IncidentWritesSay(id: Id, si: ImportedIncident, compMap: ComponentMap)
    ensures var ws := IncidentWrites(id, si, compMap);
            var further := if |si.updates| > 0 then |si.updates| - 1 else 0;
            && |ws| == further + 2 && SaysIncident(ws[0], id, si, compMap)
            && (forall k :: 1 <= k <= further ==>
                  ws[k] == UpdateAdded(id, si.updates[k].status, si.updates[k].body, si.updates[k].createdAt))
            && ws[further + 1] == MappingSet(Key(IncidentEntity, si.externalId), id)
  {
    IncidentRowSays(id, si, compMap);
    assert IncidentWrites(id, si, compMap)[0] == NewIncident(id, si, compMap);
  }

  lemma IncidentRowSays(id: Id, si: ImportedIncident, compMap: ComponentMap)
    ensures SaysIncident(NewIncident(id, si, compMap), id, si, compMap)
  {
    var w := NewIncident(id, si, compMap);
    forall k | 0 <= k < |w.affected|
      ensures w.affected[k].0 == KnownIds(si.components, compMap)[k] && ShowsImpact(si.impact, w.affected[k].1)
    {
      assert w.affected[k] == (KnownIds(si.components, compMap)[k], Importer.ComponentStatusForImpact(si.impact));
    }
  }

  lemma MaintenanceWritesSay(id: Id, sm: ImportedMaintenance, compMap: ComponentMap)
    ensures var ws := MaintenanceWrites(id, sm, compMap);
            && |ws| == 2 && ws[1] == MappingSet(Key(MaintenanceEntity, sm.externalId), id)
            && ws[0].MaintenanceCreated? && ws[0].id == id
            && ws[0].title == sm.title && ws[0].description == sm.description && ws[0].maintenanceStatus == sm.status
            && ws[0].from == sm.startAt && ws[0].until == sm.endAt
            && ws[0].componentIds == KnownIds(sm.components, compMap)
  {
  }

  lemma SubscriberWritesSay(id: Id, ss: ImportedSubscriber)
    ensures var ws := SubscriberWrites(id, ss);
            && |ws| == 2 && ws[0].SubscriberCreated? && ws[0].id == id && ws[0].email == ss.email
            && ws[1] == MappingSet(Key(SubscriberEntity, ss.externalId), id)
  {
  }

  // ----- Services -----

  /** The ids of a component read back as those of its service, and a root has no parent. */
  lemma ConvertedReadsBack(sv: Service)
    ensures var c := Converted(sv);
            && c.name == sv.name && c.description == sv.description && c.isPrivate == sv.isPrivate && c.groupName == ""
            && ParseInt(c.externalId) == (if IsInt64(sv.id) then Some(sv.id) else None)
            && (c.parentExternalId == "" <==> sv.parentId.None?)
            && (sv.parentId.Some? ==>
                  ParseInt(c.parentExternalId) == if IsInt64(sv.parentId.value) then sv.parentId else None)
    ensures var s := Converted(sv).status;
            && (sv.incidentType == "major" <==> s == MajorOutage)
            && (sv.incidentType == "minor" <==> s == PartialOutage)
            && (sv.incidentType == "scheduled" <==> s == UnderMaintenance)
            && (sv.incidentType == "degraded" <==> s == DegradedPerformance)
  {
    FormatThenParse(sv.id);
    if sv.parentId.Some? {
      FormatThenParse(sv.parentId.value);
      FormatAlphabet(sv.parentId.value);
    }
  }

  /** A service below another one becomes a component whose parent is that service's component. */
  lemma ParentsCorrespond(child: Service, parent: Service)
    ensures child.parentId == Some(parent.id) <==> Converted(child).parentExternalId == Converted(parent).externalId
  {
    FormatAlphabet(parent.id);
    if child.parentId.Some? && FormatInt(child.parentId.value) == FormatInt(parent.id) {
      FormatIsInjective(child.parentId.value, parent.id);
    }
  }
}
