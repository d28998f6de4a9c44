/**
 The tables behind component statuses and the effect of every store transaction on them
 (backend/internal/store/incidents.go, maintenances.go and components.go).

 Each function describes one whole transaction; `StatusStore` carries it out statement by statement
 and `StatusRuns` proves what every run of transactions keeps. `now` is the transaction's timestamp,
 which the database uses for both ended_at and the started_at default.
 */
module StatusTables {
  import opened Base
  import opened Statuses
  import opened Lifecycle
  import opened Derivation

  datatype Component = Component(page: Id, status: ComponentStatus, createdAt: Time, deleted: bool)

  datatype Source = Manual | ByIncident | ByMaintenance | ByApi

  datatype Period = Period(status: ComponentStatus, startedAt: Time, endedAt: Option<Time>, source: Source)

  /**
   `manual` is proof bookkeeping: the status an operator last chose for a component that has not
   been recomputed since.
   */
  datatype Tables = Tables(
    components: map<Id, Component>,
    incidents: map<Id, IncidentRow>,
    maintenances: map<Id, MaintenanceRow>,
    history: map<Id, seq<Period>>,
    manual: map<Id, ComponentStatus>)

  const EMPTY := Tables(map[], map[], map[], map[], map[])

  datatype StoreError = NotFound | DedupConflict | Constraint | InvalidStatus

  type Outcome = Result<Tables, StoreError>

  ghost predicate Live(t: Tables, c: Id) {
    c in t.components && !t.components[c].deleted
  }

  // ----- Derivation over the tables -----

  /** What the page's active incidents and running maintenances impose on a component. */
  ghost function Imposed(t: Tables, page: Id, c: Id): set<ComponentStatus> {
    (set i, a | i in t.incidents && t.incidents[i].page == page && IsActive(t.incidents[i]) &&
                a in t.incidents[i].components && a.componentId == c :: a.status) +
    (set m | m in t.maintenances && t.maintenances[m].page == page && IsRunning(t.maintenances[m]) &&
             c in t.maintenances[m].componentIds :: UnderMaintenance)
  }

  /** The derived status of a component, from scratch over its own page. */
  ghost function Derived(t: Tables, c: Id): ComponentStatus
    requires c in t.components
  {
    WorstIn(Imposed(t, t.components[c].page, c))
  }

  // ----- Status history -----

  /** UPDATE ... SET ended_at = now() WHERE ended_at IS NULL. */
  function CloseOpen(periods: seq<Period>, now: Time): seq<Period> {
    seq(|periods|, i requires 0 <= i < |periods| =>
      if periods[i].endedAt.None? then periods[i].(endedAt := Some(now)) else periods[i])
  }

  function Switch(periods: seq<Period>, status: ComponentStatus, source: Source, now: Time): seq<Period> {
    CloseOpen(periods, now) + [Period(status, now, None, source)]
  }

  /** ListStatusHistorySince: the periods still open or ended at or after `since`. */
  function Since(periods: seq<Period>, since: Time): seq<Period> {
    if periods == [] then []
    else
      var last := periods[|periods| - 1];
      Since(periods[..|periods| - 1], since) +
      if last.endedAt.None? || last.endedAt.value >= since then [last] else []
  }

  // ----- Recomputation of the touched components -----

  ghost predicate Changes(t: Tables, page: Id, ids: set<Id>, c: Id) {
    c in ids && Live(t, c) && t.components[c].status != WorstIn(Imposed(t, page, c))
  }

  function SourceOf(status: ComponentStatus): Source {
    if status == UnderMaintenance then ByMaintenance else ByIncident
  }

  /** recomputeComponentStatusesTx: the listed live components follow the derivation again. */
  ghost function Recomputed(t: Tables, page: Id, ids: set<Id>, now: Time): Tables {
    t.(components := map c | c in t.components ::
         if Changes(t, page, ids, c)
         then t.components[c].(status := WorstIn(Imposed(t, page, c)))
         else t.components[c],
       history := map c | c in t.history ::
         if Changes(t, page, ids, c)
         then Switch(t.history[c], WorstIn(Imposed(t, page, c)), SourceOf(WorstIn(Imposed(t, page, c))), now)
         else t.history[c],
       manual := map c | c in t.manual && !(c in ids && Live(t, c)) :: t.manual[c])
  }

  /** Imposed statuses read only the incident and maintenance rows. */
  lemma ImposedFrame(t: Tables, u: Tables, page: Id, c: Id)
    requires t.incidents == u.incidents && t.maintenances == u.maintenances
    ensures Imposed(t, page, c) == Imposed(u, page, c)
  {
  }

  lemma RecomputeNothing(t: Tables, page: Id, now: Time)
    ensures Recomputed(t, page, {}, now) == t
  {
    var u := Recomputed(t, page, {}, now);
    assert u.components == t.components && u.history == t.history && u.manual == t.manual;
  }

  /** Recomputing in two batches is recomputing once: order and repetition do not matter. */
  lemma RecomputeInBatches(t: Tables, page: Id, a: set<Id>, b: set<Id>, now: Time)
    requires t.history.Keys == t.components.Keys
    ensures Recomputed(Recomputed(t, page, a, now), page, b, now) == Recomputed(t, page, a + b, now)
  {
    var v, w := Recomputed(Recomputed(t, page, a, now), page, b, now), Recomputed(t, page, a + b, now);
    forall c | c in t.components ensures v.components[c] == w.components[c] && v.history[c] == w.history[c] {
      BatchesAt(t, page, a, b, now, c);
    }
    assert v.components.Keys == w.components.Keys && v.history.Keys == w.history.Keys;
    ManualInBatches(t, page, a, b, now);
  }

  lemma ManualInBatches(t: Tables, page: Id, a: set<Id>, b: set<Id>, now: Time)
    ensures Recomputed(Recomputed(t, page, a, now), page, b, now).manual == Recomputed(t, page, a + b, now).manual
  {
  }

  /** What a recomputation does to one component. */
  lemma RecomputedAt(t: Tables, page: Id, ids: set<Id>, now: Time, c: Id)
    requires t.history.Keys == t.components.Keys && c in t.components
    ensures c in Recomputed(t, page, ids, now).components && c in Recomputed(t, page, ids, now).history
    ensures Changes(t, page, ids, c) ==>
              && Recomputed(t, page, ids, now).components[c] == t.components[c].(status := WorstIn(Imposed(t, page, c)))
              && Recomputed(t, page, ids, now).history[c]
                 == Switch(t.history[c], WorstIn(Imposed(t, page, c)), SourceOf(WorstIn(Imposed(t, page, c))), now)
    ensures !Changes(t, page, ids, c) ==>
              && Recomputed(t, page, ids, now).components[c] == t.components[c]
              && Recomputed(t, page, ids, now).history[c] == t.history[c]
  {
  }

  lemma BatchesAt(t: Tables, page: Id, a: set<Id>, b: set<Id>, now: Time, c: Id)
    requires t.history.Keys == t.components.Keys && c in t.components
    ensures Recomputed(Recomputed(t, page, a, now), page, b, now).components[c] ==
            Recomputed(t, page, a + b, now).components[c]
    ensures Recomputed(Recomputed(t, page, a, now), page, b, now).history[c] ==
            Recomputed(t, page, a + b, now).history[c]
  {
    var u := Recomputed(t, page, a, now);
    RecomputedAt(t, page, a, now, c);
    RecomputedAt(t, page, a + b, now, c);
    RecomputedAt(u, page, b, now, c);
    ImposedFrame(t, u, page, c);
  }

  function ComponentIdsOf(components: seq<Affected>): set<Id> {
    set a | a in components :: a.componentId
  }

  function IdSet(ids: seq<Id>): set<Id> {
    set c | c in ids
  }

  // ----- Constraints -----

  /** The rows of the partial unique index on (page, dedup key). */
  predicate OpenFor(inc: IncidentRow, page: Id, key: string) {
    inc.page == page && inc.dedupKey == Some(key) && inc.life.resolvedAt.None? && inc.deletedAt.None?
  }

  /** Writing `row` under `id` would put a second row into the partial unique index. */
  ghost predicate Collides(t: Tables, id: Id, row: IncidentRow) {
    && row.dedupKey.Some?
    && OpenFor(row, row.page, row.dedupKey.value)
    && exists j :: j in t.incidents && j != id && OpenFor(t.incidents[j], row.page, row.dedupKey.value)
  }

  /** Foreign key, enum and unique (incident, component) constraints of the inserted rows. */
  ghost predicate AffectedInsertable(t: Tables, components: seq<Affected>) {
    && (forall a :: a in components ==> a.componentId in t.components && IsValid(a.status))
    && (forall i, j :: 0 <= i < j < |components| ==> components[i].componentId != components[j].componentId)
  }

  ghost predicate IdsInsertable(t: Tables, ids: seq<Id>) {
    && (forall c :: c in ids ==> c in t.components)
    && (forall i, j :: 0 <= i < j < |ids| ==> ids[i] != ids[j])
  }

  // ----- Transactions on components -----

  function CreatedStatus(status: ComponentStatus): ComponentStatus {
    if status == Other("") then Operational else status
  }

  function CreateComponent(t: Tables, id: Id, page: Id, status: ComponentStatus, now: Time): Outcome {
    var s := CreatedStatus(status);
    if id in t.components || !IsValid(s) then Failure(Constraint)
    else Success(t.(
      components := t.components[id := Component(page, s, now, false)],
      history := t.history[id := []],
      manual := if s == Operational then t.manual - {id} else t.manual[id := s]))
  }

  function SoftDeleteComponent(t: Tables, id: Id): Tables {
    if id in t.components then t.(components := t.components[id := t.components[id].(deleted := true)]) else t
  }

  function PeriodsOf(t: Tables, id: Id): seq<Period> {
    if id in t.history then t.history[id] else []
  }

  ghost function ChangeComponentStatus(t: Tables, id: Id, status: ComponentStatus, source: Source, now: Time): Outcome {
    if !Live(t, id) then Failure(NotFound)
    else if !IsValid(status) then Failure(Constraint)
    else Success(t.(
      components := t.components[id := t.components[id].(status := status)],
      history := t.history[id := Switch(PeriodsOf(t, id), status, source, now)],
      manual := t.manual[id := status]))
  }

  // ----- Transactions on incidents -----

  ghost function WithIncident(t: Tables, id: Id, row: IncidentRow): Tables {
    t.(incidents := t.incidents[id := row])
  }

  ghost function CreateIncident(t: Tables, id: Id, inc: IncidentRow, now: Time): Outcome {
    var row := inc.(deletedAt := None);
    if id in t.incidents || row.life.status.UnknownIncident? then Failure(Constraint)
    else if Collides(t, id, row) then Failure(DedupConflict)
    else if !AffectedInsertable(t, row.components) then Failure(Constraint)
    else Success(Recomputed(WithIncident(t, id, row), row.page, ComponentIdsOf(row.components), now))
  }

  /** A row that UPDATE and SELECT see: present and not soft-deleted. */
  ghost predicate IncidentVisible(t: Tables, id: Id) {
    id in t.incidents && t.incidents[id].deletedAt.None?
  }

  ghost function UpdateIncident(
    t: Tables, id: Id, life: IncidentLife, components: seq<Affected>, replace: bool, now: Time): Outcome
  {
    if !IncidentVisible(t, id) then Failure(NotFound)
    else
      var prev := t.incidents[id];
      var row := prev.(life := life, components := if replace then components else prev.components);
      if life.status.UnknownIncident? || Collides(t, id, row) then Failure(Constraint)
      else if replace && !AffectedInsertable(t, components) then Failure(Constraint)
      else Success(Recomputed(WithIncident(t, id, row), row.page,
                              ComponentIdsOf(prev.components) + ComponentIdsOf(row.components), now))
  }

  ghost function AddIncidentUpdate(t: Tables, id: Id, status: IncidentStatus, at: Time, now: Time): Outcome {
    if !IncidentVisible(t, id) then Failure(NotFound)
    else if status.UnknownIncident? then Failure(InvalidStatus)
    else
      var prev := t.incidents[id];
      var row := prev.(life := ChangeIncident(prev.life, IncidentChange(status, at)));
      if Collides(t, id, row) then Failure(Constraint)
      else Success(Recomputed(WithIncident(t, id, row), row.page, ComponentIdsOf(row.components), now))
  }

  ghost function SoftDeleteIncident(t: Tables, id: Id, now: Time): Outcome {
    if !IncidentVisible(t, id) then Failure(NotFound)
    else
      var row := t.incidents[id].(deletedAt := Some(now));
      Success(Recomputed(WithIncident(t, id, row), row.page, ComponentIdsOf(row.components), now))
  }

  // ----- Transactions on maintenances -----

  ghost function WithMaintenance(t: Tables, id: Id, row: MaintenanceRow): Tables {
    t.(maintenances := t.maintenances[id := row])
  }

  ghost function CreateMaintenance(t: Tables, id: Id, m: MaintenanceRow, now: Time): Outcome {
    var row := m.(deletedAt := None);
    if id in t.maintenances || row.life.status.UnknownMaintenance? then Failure(Constraint)
    else if !IdsInsertable(t, row.componentIds) then Failure(Constraint)
    else Success(Recomputed(WithMaintenance(t, id, row), row.page, IdSet(row.componentIds), now))
  }

  ghost predicate MaintenanceVisible(t: Tables, id: Id) {
    id in t.maintenances && t.maintenances[id].deletedAt.None?
  }

  ghost function UpdateMaintenance(
    t: Tables, id: Id, life: MaintenanceLife, ids: seq<Id>, replace: bool, now: Time): Outcome
  {
    if !MaintenanceVisible(t, id) then Failure(NotFound)
    else if life.status.UnknownMaintenance? then Failure(Constraint)
    else if replace && !IdsInsertable(t, ids) then Failure(Constraint)
    else
      var prev := t.maintenances[id];
      var row := prev.(life := life, componentIds := if replace then ids else prev.componentIds);
      Success(Recomputed(WithMaintenance(t, id, row), row.page,
                         IdSet(prev.componentIds) + IdSet(row.componentIds), now))
  }

  ghost function SoftDeleteMaintenance(t: Tables, id: Id, now: Time): Outcome {
    if !MaintenanceVisible(t, id) then Failure(NotFound)
    else
      var row := t.maintenances[id].(deletedAt := Some(now));
      Success(Recomputed(WithMaintenance(t, id, row), row.page, IdSet(row.componentIds), now))
  }
}
