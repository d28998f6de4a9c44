/**
 Alert ingestion keyed by dedup key (backend/internal/api/integrations.go): look up the open
 incident, then create or resolve one.
 */
module Alerts {
  import opened Base
  import opened Statuses
  import opened Lifecycle
  import opened Derivation
  import T = StatusTables
  import opened StatusStore
  import R = StatusRuns
  import H = StatusHistories

  /** `mapped` is Mapping.Resolve(alert): component ids in order, without duplicates. */
  datatype Alert = Alert(dedupKey: string, firing: bool, mapped: seq<Id>, impact: Impact)

  predicate DistinctIds(ids: seq<Id>) {
    forall i, j :: 0 <= i < j < |ids| ==> ids[i] != ids[j]
  }

  function ComponentStatusForImpact(impact: Impact): ComponentStatus {
    match impact
    case Critical => MajorOutage
    case Major => PartialOutage
    case _ => DegradedPerformance
  }

  /** The mapped components that belong to the page. */
  function AffectedOn(pageComponents: set<Id>, ids: seq<Id>, status: ComponentStatus): (r: seq<Affected>)
    ensures forall a :: a in r ==> a.componentId in pageComponents && a.componentId in ids && a.status == status
  {
    if ids == [] then []
    else
      AffectedOn(pageComponents, ids[..|ids| - 1], status) +
      if ids[|ids| - 1] in pageComponents then [Affected(ids[|ids| - 1], status)] else []
  }

  function WebhookIncident(page: Id, pageComponents: set<Id>, a: Alert, now: Time): IncidentRow {
    IncidentRow(page, IncidentLife(Investigating, None), Some(a.dedupKey), None,
                AffectedOn(pageComponents, a.mapped, ComponentStatusForImpact(a.impact)))
  }

  // ----- The open set -----

  ghost predicate IsOpen(t: T.Tables, page: Id, key: string) {
    exists i :: i in t.incidents && T.OpenFor(t.incidents[i], page, key)
  }

  ghost function FindOpen(t: T.Tables, page: Id, key: string): Option<Id> {
    if i :| i in t.incidents && T.OpenFor(t.incidents[i], page, key) then Some(i) else None
  }

  // ----- One alert -----

  /** The second half of ingestAlert, once the lookup has answered. */
  ghost function Act(
    t: T.Tables, page: Id, pageComponents: set<Id>, a: Alert, found: Option<Id>, id: Id, now: Time): T.Outcome
  {
    match found
    case Some(existing) =>
      if a.firing then Success(t) else T.AddIncidentUpdate(t, existing, Resolved, now, now)
    case None =>
      if !a.firing then Success(t)
      else
        var r := T.CreateIncident(t, id, WebhookIncident(page, pageComponents, a, now), now);
        if r == Failure(T.DedupConflict) then Success(t) else r
  }

  ghost function Ingest(t: T.Tables, page: Id, pageComponents: set<Id>, a: Alert, id: Id, now: Time): T.Outcome {
    if a.dedupKey == "" then Success(t)
    else Act(t, page, pageComponents, a, FindOpen(t, page, a.dedupKey), id, now)
  }

  /** SELECT through the partial unique index, which holds at most one row per page and key. */
  method OpenIncidentByDedup(store: Store, page: Id, key: string) returns (found: Option<Id>)
    requires R.OpenUnique(store.View())
    ensures found == FindOpen(store.View(), page, key)
  {
    var todo := store.incidents.Keys;
    while todo != {}
      invariant todo <= store.incidents.Keys
      invariant forall j :: j in store.incidents && j !in todo ==> !T.OpenFor(store.incidents[j], page, key)
      decreases |todo|
    {
      Inhabited(todo);
      var j :| j in todo;
      todo := todo - {j};
      if T.OpenFor(store.incidents[j], page, key) {
        return Some(j);
      }
    }
    return None;
  }

  /** createWebhookIncident: filter the mapping by the page, insert, and forgive a lost race. */
  method CreateWebhookIncident(store: Store, page: Id, pageComponents: set<Id>, a: Alert, id: Id, now: Time)
    returns (r: Result<(), T.StoreError>)
    requires store.history.Keys == store.components.Keys
    modifies store
    ensures store.Committed(
              r, Act(old(store.View()), page, pageComponents, a.(firing := true), None, id, now), old(store.View()))
  {
    var status := ComponentStatusForImpact(a.impact);
    var comps: seq<Affected> := [];
    for k := 0 to |a.mapped|
      invariant comps == AffectedOn(pageComponents, a.mapped[..k], status)
    {
      assert a.mapped[..k + 1][..k] == a.mapped[..k];
      if a.mapped[k] in pageComponents {
        comps := comps + [Affected(a.mapped[k], status)];
      }
    }
    assert a.mapped[..|a.mapped|] == a.mapped;
    var inc := new Incident(IncidentLife(UnknownIncident(""), None));
    var _ := inc.ApplyStatusChange(Investigating, now);
    r := store.CreateIncident(id, IncidentRow(page, inc.Life(), Some(a.dedupKey), None, comps), now);
    if r == Failure(T.DedupConflict) {
      r := Success(());
    }
  }

  method IngestAlert(store: Store, page: Id, pageComponents: set<Id>, a: Alert, id: Id, now: Time)
    returns (r: Result<(), T.StoreError>)
    requires store.history.Keys == store.components.Keys && R.OpenUnique(store.View())
    modifies store
    ensures store.Committed(r, Ingest(old(store.View()), page, pageComponents, a, id, now), old(store.View()))
  {
    if a.dedupKey == "" {
      return Success(());
    }
    var existing := OpenIncidentByDedup(store, page, a.dedupKey);
    if existing.Some? {
      if a.firing {
        return Success(());
      }
      r := store.AddIncidentUpdate(existing.value, Resolved, now, now);
      return;
    }
    if !a.firing {
      return Success(());
    }
    assert a.(firing := true) == a;
    r := CreateWebhookIncident(store, page, pageComponents, a, id, now);
  }

  // ----- Last alert wins -----

  /** Ids are unused and the mapping is clean, so no insert can fail. */
  ghost predicate Insertable(t: T.Tables, page: Id, pageComponents: set<Id>, a: Alert, id: Id) {
    id !in t.incidents && DistinctIds(a.mapped) && R.OnPage(t, page, pageComponents)
  }

  lemma {:induction false} AffectedOnInsertable(
    t: T.Tables, pageComponents: set<Id>, ids: seq<Id>, status: ComponentStatus)
    requires DistinctIds(ids) && pageComponents <= t.components.Keys && IsValid(status)
    ensures T.AffectedInsertable(t, AffectedOn(pageComponents, ids, status))
  {
    if ids != [] {
      var front, last := ids[..|ids| - 1], ids[|ids| - 1];
      AffectedOnInsertable(t, pageComponents, front, status);
      assert forall i :: 0 <= i < |front| ==> front[i] == ids[i];
      assert last !in front;
      forall a | a in AffectedOn(pageComponents, front, status) ensures a.componentId != last {
        assert a.componentId in front;
      }
    }
  }

  /** After one alert its key is open exactly if it fires; every other key is as before. */
  lemma IngestSetsKey(t: T.Tables, page: Id, pageComponents: set<Id>, a: Alert, id: Id, now: Time)
    requires R.OpenUnique(t) && Insertable(t, page, pageComponents, a, id)
    ensures var r := Ingest(t, page, pageComponents, a, id, now);
            && r.Success?
            && r.value.incidents.Keys <= t.incidents.Keys + {id}
            && (forall p, key :: IsOpen(r.value, p, key) <==>
                  if a.dedupKey != "" && p == page && key == a.dedupKey then a.firing else IsOpen(t, p, key))
  {
    if a.dedupKey == "" {
      return;
    }
    var found := FindOpen(t, page, a.dedupKey);
    if found.None? && a.firing {
      FiringCreates(t, page, pageComponents, a, id, now);
    } else if found.Some? && !a.firing {
      ResolvedCloses(t, page, a.dedupKey, found.value, now);
    }
  }

  lemma FiringCreates(t: T.Tables, page: Id, pageComponents: set<Id>, a: Alert, id: Id, now: Time)
    requires Insertable(t, page, pageComponents, a, id)
    requires !IsOpen(t, page, a.dedupKey)
    ensures var r := T.CreateIncident(t, id, WebhookIncident(page, pageComponents, a, now), now);
            && r.Success?
            && r.value.incidents == t.incidents[id := WebhookIncident(page, pageComponents, a, now)]
            && (forall p, key :: IsOpen(r.value, p, key) <==> IsOpen(t, p, key) || (p == page && key == a.dedupKey))
  {
    var row := WebhookIncident(page, pageComponents, a, now);
    assert forall c :: c in pageComponents ==> c in t.components;
    AffectedOnInsertable(t, pageComponents, a.mapped, ComponentStatusForImpact(a.impact));
    assert !T.Collides(t, id, row);
    var u := T.CreateIncident(t, id, row, now).value;
    assert u.incidents == t.incidents[id := row];
    forall p, key ensures IsOpen(u, p, key) <==> IsOpen(t, p, key) || (p == page && key == a.dedupKey) {
      assert T.OpenFor(u.incidents[id], p, key) <==> p == page && key == a.dedupKey;
      if i :| i in t.incidents && T.OpenFor(t.incidents[i], p, key) {
        assert i in u.incidents && T.OpenFor(u.incidents[i], p, key);
      }
    }
  }

  lemma ResolvedCloses(t: T.Tables, page: Id, key: string, existing: Id, now: Time)
    requires R.OpenUnique(t)
    requires existing in t.incidents && T.OpenFor(t.incidents[existing], page, key)
    ensures var r := T.AddIncidentUpdate(t, existing, Resolved, now, now);
            && r.Success?
            && r.value.incidents.Keys == t.incidents.Keys
            && (forall p, k :: IsOpen(r.value, p, k) <==> IsOpen(t, p, k) && !(p == page && k == key))
  {
    var u := T.AddIncidentUpdate(t, existing, Resolved, now, now).value;
    forall p, k ensures IsOpen(u, p, k) <==> IsOpen(t, p, k) && !(p == page && k == key) {
      if i :| i in u.incidents && T.OpenFor(u.incidents[i], p, k) {
        assert i != existing && T.OpenFor(t.incidents[i], p, k);
      }
      if i :| i in t.incidents && T.OpenFor(t.incidents[i], p, k) && !(p == page && k == key) {
        assert i in u.incidents && T.OpenFor(u.incidents[i], p, k);
      }
    }
  }

  datatype Delivery = Delivery(alert: Alert, id: Id, now: Time)

  ghost function IngestAll(t: T.Tables, page: Id, pageComponents: set<Id>, ds: seq<Delivery>): T.Tables
    decreases |ds|
  {
    if ds == [] then t
    else
      var u := R.Kept(t, Ingest(t, page, pageComponents, ds[0].alert, ds[0].id, ds[0].now));
      IngestAll(u, page, pageComponents, ds[1..])
  }

  /** The verdict of the last alert carrying the key. */
  function LastVerdict(ds: seq<Delivery>, key: string): Option<bool> {
    if ds == [] then None
    else if ds[|ds| - 1].alert.dedupKey == key then Some(ds[|ds| - 1].alert.firing)
    else LastVerdict(ds[..|ds| - 1], key)
  }

  /** Ids drawn for the deliveries are unused and pairwise different. */
  ghost predicate FreshIds(t: T.Tables, ds: seq<Delivery>) {
    && (forall i :: 0 <= i < |ds| ==> ds[i].id !in t.incidents)
    && (forall i, j :: 0 <= i < j < |ds| ==> ds[i].id != ds[j].id)
  }

  lemma {:induction false} LastVerdictFromFront(ds: seq<Delivery>, key: string)
    requires ds != []
    ensures LastVerdict(ds, key) ==
            if LastVerdict(ds[1..], key).Some? then LastVerdict(ds[1..], key)
            else if ds[0].alert.dedupKey == key then Some(ds[0].alert.firing) else None
  {
    if |ds| > 1 {
      var front := ds[..|ds| - 1];
      LastVerdictFromFront(front, key);
      assert ds[1..][..|ds| - 2] == front[1..];
    }
  }

  lemma ActKeepsInv(
    t: T.Tables, page: Id, pageComponents: set<Id>, a: Alert, found: Option<Id>, id: Id, clock: Time, now: Time)
    requires R.Inv(t, clock) && clock <= now && R.OnPage(t, page, pageComponents)
    ensures var u := R.Kept(t, Act(t, page, pageComponents, a, found, id, now));
            R.Inv(u, now) && R.OnPage(u, page, pageComponents)
  {
    R.ClockAdvances(t, clock, now);
    ActIsAnOp(t, page, pageComponents, a, found, id, now);
    if found.Some? && !a.firing {
      ResolveKeepsInv(t, page, pageComponents, found.value, clock, now);
    } else if found.None? && a.firing {
      CreateKeepsInv(t, page, pageComponents, a, id, clock, now);
    }
  }

  lemma ResolveKeepsInv(
    t: T.Tables, page: Id, pageComponents: set<Id>, incident: Id, clock: Time, now: Time)
    requires R.Inv(t, clock) && clock <= now && R.OnPage(t, page, pageComponents)
    ensures var u := R.Apply(t, R.AddUpdateOp(incident, Resolved, now), now);
            R.Inv(u, now) && R.OnPage(u, page, pageComponents)
  {
    R.ApplyKeepsInv(t, R.AddUpdateOp(incident, Resolved, now), clock, now);
  }

  lemma CreateKeepsInv(
    t: T.Tables, page: Id, pageComponents: set<Id>, a: Alert, id: Id, clock: Time, now: Time)
    requires R.Inv(t, clock) && clock <= now && R.OnPage(t, page, pageComponents)
    ensures var u := R.Apply(t, R.CreateIncidentOp(id, WebhookIncident(page, pageComponents, a, now)), now);
            R.Inv(u, now) && R.OnPage(u, page, pageComponents)
  {
    var row := WebhookIncident(page, pageComponents, a, now);
    assert R.OnPage(t, page, T.ComponentIdsOf(row.components));
    R.ApplyKeepsInv(t, R.CreateIncidentOp(id, row), clock, now);
  }

  lemma ActKeepsHistories(
    t: T.Tables, page: Id, pageComponents: set<Id>, a: Alert, found: Option<Id>, id: Id, clock: Time, now: Time)
    requires H.HistoryInv(t, clock) && clock <= now
    ensures H.HistoryInv(R.Kept(t, Act(t, page, pageComponents, a, found, id, now)), now)
  {
    R.ClockAdvances(t, clock, now);
    ActIsAnOp(t, page, pageComponents, a, found, id, now);
    if found.Some? && !a.firing {
      H.ApplyKeepsHistories(t, R.AddUpdateOp(found.value, Resolved, now), clock, now);
    } else if found.None? && a.firing {
      H.ApplyKeepsHistories(t, R.CreateIncidentOp(id, WebhookIncident(page, pageComponents, a, now)), clock, now);
    }
  }

  /** What the second half leaves is what one store operation leaves, or nothing new. */
  lemma ActIsAnOp(
    t: T.Tables, page: Id, pageComponents: set<Id>, a: Alert, found: Option<Id>, id: Id, now: Time)
    ensures var u := R.Kept(t, Act(t, page, pageComponents, a, found, id, now));
            u == (if found.Some? && !a.firing then R.Apply(t, R.AddUpdateOp(found.value, Resolved, now), now)
                  else if found.None? && a.firing
                  then R.Apply(t, R.CreateIncidentOp(id, WebhookIncident(page, pageComponents, a, now)), now)
                  else t)
  {
  }

  lemma IngestKeepsHistories(
    t: T.Tables, page: Id, pageComponents: set<Id>, a: Alert, id: Id, clock: Time, now: Time)
    requires H.HistoryInv(t, clock) && clock <= now && R.OnPage(t, page, pageComponents)
    ensures var u := R.Kept(t, Ingest(t, page, pageComponents, a, id, now));
            H.HistoryInv(u, now) && R.OnPage(u, page, pageComponents)
  {
    R.ClockAdvances(t, clock, now);
    ActKeepsHistories(t, page, pageComponents, a, FindOpen(t, page, a.dedupKey), id, clock, now);
    ActKeepsPages(t, page, pageComponents, a, FindOpen(t, page, a.dedupKey), id, now, page, pageComponents);
  }

  /**
   Main result: after any list of alerts a key is open exactly if the last alert for it fires, or if
   no alert carried it and it was open before.
   */
  lemma {:induction false} LastAlertWins(
    t: T.Tables, page: Id, pageComponents: set<Id>, ds: seq<Delivery>, clock: Time, key: string)
    requires H.HistoryInv(t, clock) && R.OnPage(t, page, pageComponents)
    requires FreshIds(t, ds)
    requires forall i :: 0 <= i < |ds| ==> DistinctIds(ds[i].alert.mapped)
    requires forall i :: 0 <= i < |ds| ==> clock <= ds[i].now
    requires forall i, j :: 0 <= i < j < |ds| ==> ds[i].now <= ds[j].now
    requires key != ""
    ensures IsOpen(IngestAll(t, page, pageComponents, ds), page, key) <==>
            match LastVerdict(ds, key)
            case Some(firing) => firing
            case None => IsOpen(t, page, key)
    decreases |ds|
  {
    if ds != [] {
      var d := ds[0];
      var u := R.Kept(t, Ingest(t, page, pageComponents, d.alert, d.id, d.now));
      IngestSetsKey(t, page, pageComponents, d.alert, d.id, d.now);
      IngestKeepsHistories(t, page, pageComponents, d.alert, d.id, clock, d.now);
      LastAlertWins(u, page, pageComponents, ds[1..], d.now, key);
      LastVerdictFromFront(ds, key);
    }
  }

  /** An immediate repeat of an alert changes nothing at all, whatever id and time it comes with. */
  lemma RepeatIsNoop(t: T.Tables, page: Id, pageComponents: set<Id>, a: Alert, id: Id, now: Time, id2: Id, now2: Time)
    requires R.OpenUnique(t) && Insertable(t, page, pageComponents, a, id)
    ensures var u := Ingest(t, page, pageComponents, a, id, now);
            u.Success? && Ingest(u.value, page, pageComponents, a, id2, now2) == u
  {
    IngestSetsKey(t, page, pageComponents, a, id, now);
    var u := Ingest(t, page, pageComponents, a, id, now).value;
    assert a.dedupKey != "" ==> (IsOpen(u, page, a.dedupKey) <==> a.firing);
  }

  // ----- Concurrent deliveries -----

  datatype Thread = Thread(page: Id, pageComponents: set<Id>, alert: Alert, found: Option<Id>)

  datatype System = System(tables: T.Tables, clock: Time, threads: map<int, Thread>)

  /**
   A lookup and the action that follows it are separate steps; between them other deliveries and any
   store operation may run.
   */
  datatype Step =
    | LookupStep(tid: int, page: Id, pageComponents: set<Id>, alert: Alert)
    | ActStep(tid: int, id: Id, now: Time)
    | OtherStep(op: R.Op, now: Time)

  ghost predicate Enabled(s: System, step: Step) {
    match step
    case LookupStep(tid, page, pcs, a) =>
      tid !in s.threads && a.dedupKey != "" && R.OnPage(s.tables, page, pcs)
    case ActStep(tid, _, now) => tid in s.threads && s.clock <= now
    case OtherStep(_, now) => s.clock <= now
  }

  ghost predicate PageChecked(s: System, step: Step) {
    step.OtherStep? ==> R.PageChecked(s.tables, step.op)
  }

  ghost function Next(s: System, step: Step): System
    requires Enabled(s, step)
  {
    match step
    case LookupStep(tid, page, pcs, a) =>
      s.(threads := s.threads[tid := Thread(page, pcs, a, FindOpen(s.tables, page, a.dedupKey))])
    case ActStep(tid, id, now) =>
      var th := s.threads[tid];
      System(R.Kept(s.tables, Act(s.tables, th.page, th.pageComponents, th.alert, th.found, id, now)),
             now, s.threads - {tid})
    case OtherStep(op, now) => System(R.Apply(s.tables, op, now), now, s.threads)
  }

  ghost predicate SystemInv(s: System) {
    && R.Inv(s.tables, s.clock)
    && forall tid :: tid in s.threads ==> R.OnPage(s.tables, s.threads[tid].page, s.threads[tid].pageComponents)
  }

  lemma ApplyKeepsPages(t: T.Tables, op: R.Op, now: Time, page: Id, ids: set<Id>)
    requires R.OnPage(t, page, ids)
    ensures R.OnPage(R.Apply(t, op, now), page, ids)
  {
  }

  lemma ActKeepsPages(
    t: T.Tables, page: Id, pcs: set<Id>, a: Alert, found: Option<Id>, id: Id, now: Time, page2: Id, ids: set<Id>)
    requires R.OnPage(t, page2, ids)
    ensures R.OnPage(R.Kept(t, Act(t, page, pcs, a, found, id, now)), page2, ids)
  {
  }

  lemma StepKeepsSystemInv(s: System, step: Step)
    requires SystemInv(s) && Enabled(s, step) && PageChecked(s, step)
    ensures SystemInv(Next(s, step))
  {
    match step
    case LookupStep(_, _, _, _) =>
    case ActStep(tid, id, now) =>
      var th := s.threads[tid];
      ActKeepsInv(s.tables, th.page, th.pageComponents, th.alert, th.found, id, s.clock, now);
      forall o | o in s.threads
        ensures R.OnPage(Next(s, step).tables, s.threads[o].page, s.threads[o].pageComponents)
      {
        ActKeepsPages(s.tables, th.page, th.pageComponents, th.alert, th.found, id, now,
                      s.threads[o].page, s.threads[o].pageComponents);
      }
    case OtherStep(op, now) =>
      R.ApplyKeepsInv(s.tables, op, s.clock, now);
      forall o | o in s.threads
        ensures R.OnPage(Next(s, step).tables, s.threads[o].page, s.threads[o].pageComponents)
      {
        ApplyKeepsPages(s.tables, op, now, s.threads[o].page, s.threads[o].pageComponents);
      }
  }

  ghost predicate EnabledRun(s: System, steps: seq<Step>)
    decreases |steps|
  {
    steps == [] || (Enabled(s, steps[0]) && EnabledRun(Next(s, steps[0]), steps[1..]))
  }

  ghost function RunSteps(s: System, steps: seq<Step>): System
    requires EnabledRun(s, steps)
    decreases |steps|
  {
    if steps == [] then s else RunSteps(Next(s, steps[0]), steps[1..])
  }

  lemma StepKeepsHistories(s: System, step: Step)
    requires H.HistoryInv(s.tables, s.clock) && Enabled(s, step)
    ensures H.HistoryInv(Next(s, step).tables, Next(s, step).clock)
  {
    match step
    case LookupStep(_, _, _, _) =>
    case ActStep(tid, id, now) =>
      var th := s.threads[tid];
      ActKeepsHistories(s.tables, th.page, th.pageComponents, th.alert, th.found, id, s.clock, now);
    case OtherStep(op, now) => H.ApplyKeepsHistories(s.tables, op, s.clock, now);
  }

  /** Main result: no interleaving, with any store operations in between, opens a second incident for a page and key. */
  lemma {:induction false} InterleavingsKeepOneOpen(s: System, steps: seq<Step>)
    requires H.HistoryInv(s.tables, s.clock) && EnabledRun(s, steps)
    ensures R.OpenUnique(RunSteps(s, steps).tables)
    ensures H.HistoryInv(RunSteps(s, steps).tables, RunSteps(s, steps).clock)
    decreases |steps|
  {
    if steps != [] {
      StepKeepsHistories(s, steps[0]);
      InterleavingsKeepOneOpen(Next(s, steps[0]), steps[1..]);
    }
  }

  ghost predicate PageCheckedRun(s: System, steps: seq<Step>)
    requires EnabledRun(s, steps)
    decreases |steps|
  {
    steps == [] || (PageChecked(s, steps[0]) && PageCheckedRun(Next(s, steps[0]), steps[1..]))
  }

  /** With page-checked operations in between, the interleavings keep the whole invariant, agreement included. */
  lemma {:induction false} InterleavingsKeepInv(s: System, steps: seq<Step>)
    requires SystemInv(s) && EnabledRun(s, steps) && PageCheckedRun(s, steps)
    ensures SystemInv(RunSteps(s, steps))
    decreases |steps|
  {
    if steps != [] {
      StepKeepsSystemInv(s, steps[0]);
      InterleavingsKeepInv(Next(s, steps[0]), steps[1..]);
    }
  }

  /**
   A firing alert that saw nothing open leaves its key open even when it lost the race: the index
   conflict can only mean that another delivery has opened the key meanwhile.
   */
  lemma FiringLeavesKeyOpen(s: System, tid: int, id: Id, now: Time)
    requires tid in s.threads && s.clock <= now
    requires var th := s.threads[tid]; th.alert.firing && th.found.None?
    requires Insertable(s.tables, s.threads[tid].page, s.threads[tid].pageComponents, s.threads[tid].alert, id)
    ensures var th := s.threads[tid];
            IsOpen(Next(s, ActStep(tid, id, now)).tables, th.page, th.alert.dedupKey)
  {
    var th := s.threads[tid];
    if !IsOpen(s.tables, th.page, th.alert.dedupKey) {
      FiringCreates(s.tables, th.page, th.pageComponents, th.alert, id, now);
    } else {
      var j :| j in s.tables.incidents && T.OpenFor(s.tables.incidents[j], th.page, th.alert.dedupKey);
      assert T.Collides(s.tables, id, WebhookIncident(th.page, th.pageComponents, th.alert, now));
    }
  }
}
