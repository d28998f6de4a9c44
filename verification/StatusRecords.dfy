/** What whole runs do to single rows: identities stay, creation and deletion are on record, keys open and close. */
module StatusRecords {
  import opened Base
  import opened Statuses
  import opened Lifecycle
  import opened Derivation
  import opened StatusTables
  import opened StatusRuns
  import opened StatusHistories
  import opened StatusWrites

  // ----- Identities -----

  /** Page and creation time of a component; page, key and deletion time of an incident; page and so on. */
  ghost predicate KeepsIdentities(t: Tables, u: Tables) {
    KeepsComponents(t, u) && KeepsIncidents(t, u) && KeepsMaintenances(t, u)
  }

  ghost predicate KeepsComponents(t: Tables, u: Tables) {
    && t.components.Keys <= u.components.Keys
    && forall c :: c in t.components ==>
         && u.components[c].page == t.components[c].page && u.components[c].createdAt == t.components[c].createdAt
         && (t.components[c].deleted ==> u.components[c].deleted)
  }

  ghost predicate KeepsIncidents(t: Tables, u: Tables) {
    && t.incidents.Keys <= u.incidents.Keys
    && forall i :: i in t.incidents ==>
         && u.incidents[i].page == t.incidents[i].page && u.incidents[i].dedupKey == t.incidents[i].dedupKey
         && (t.incidents[i].deletedAt.Some? ==> u.incidents[i] == t.incidents[i])
  }

  ghost predicate KeepsMaintenances(t: Tables, u: Tables) {
    && t.maintenances.Keys <= u.maintenances.Keys
    && forall m :: m in t.maintenances ==>
         && u.maintenances[m].page == t.maintenances[m].page
         && (t.maintenances[m].deletedAt.Some? ==> u.maintenances[m] == t.maintenances[m])
  }

  lemma FollowingKeepsComponents(t: Tables, u: Tables, page: Id, ids: set<Id>, now: Time)
    requires OnlyFollow(t, u, page, ids, now)
    ensures KeepsComponents(t, u)
  {
    forall c | c in t.components
      ensures u.components[c].page == t.components[c].page && u.components[c].createdAt == t.components[c].createdAt
      ensures t.components[c].deleted ==> u.components[c].deleted
    {
      if c in ids && Live(t, c) {
        assert FollowsRows(t, u, page, now, c);
      } else {
        assert SameComponent(t, u, c);
      }
    }
  }

  lemma OpKeepsKeys(t: Tables, op: Op, now: Time)
    requires t.history.Keys == t.components.Keys
    ensures Apply(t, op, now).history.Keys == Apply(t, op, now).components.Keys
  {
  }

  lemma IncidentOpKeepsIdentities(t: Tables, op: Op, now: Time)
    requires op.CreateIncidentOp? || op.UpdateIncidentOp? || op.AddUpdateOp? || op.DeleteIncidentOp?
    requires t.history.Keys == t.components.Keys
    ensures KeepsIdentities(t, Apply(t, op, now))
  {
    var u := Apply(t, op, now);
    if u != t {
      match op
      case CreateIncidentOp(id, inc) =>
        IncidentCreated(t, id, inc, now);
        FollowingKeepsComponents(t, u, inc.page, Named(inc.components), now);
      case UpdateIncidentOp(id, life, comps, replace) =>
        IncidentUpdated(t, id, life, comps, replace, now);
        FollowingKeepsComponents(t, u, t.incidents[id].page,
          Named(t.incidents[id].components) + Named(u.incidents[id].components), now);
      case AddUpdateOp(id, status, at) =>
        UpdateAdded(t, id, status, at, now);
        FollowingKeepsComponents(t, u, t.incidents[id].page, Named(t.incidents[id].components), now);
      case DeleteIncidentOp(id) =>
        IncidentDeleted(t, id, now);
        FollowingKeepsComponents(t, u, t.incidents[id].page, Named(t.incidents[id].components), now);
    }
  }

  lemma MaintenanceOpKeepsIdentities(t: Tables, op: Op, now: Time)
    requires op.CreateMaintenanceOp? || op.UpdateMaintenanceOp? || op.DeleteMaintenanceOp?
    requires t.history.Keys == t.components.Keys
    ensures KeepsIdentities(t, Apply(t, op, now))
  {
    var u := Apply(t, op, now);
    if u != t {
      match op
      case CreateMaintenanceOp(id, m) =>
        MaintenanceCreated(t, id, m, now);
        FollowingKeepsComponents(t, u, m.page, IdSet(m.componentIds), now);
      case UpdateMaintenanceOp(id, life, ids, replace) =>
        MaintenanceUpdated(t, id, life, ids, replace, now);
        FollowingKeepsComponents(t, u, t.maintenances[id].page,
          IdSet(t.maintenances[id].componentIds) + IdSet(u.maintenances[id].componentIds), now);
      case DeleteMaintenanceOp(id) =>
        MaintenanceDeleted(t, id, now);
        FollowingKeepsComponents(t, u, t.maintenances[id].page, IdSet(t.maintenances[id].componentIds), now);
    }
  }

  lemma OpKeepsIdentities(t: Tables, op: Op, now: Time)
    requires t.history.Keys == t.components.Keys
    ensures KeepsIdentities(t, Apply(t, op, now))
    ensures Apply(t, op, now).history.Keys == Apply(t, op, now).components.Keys
  {
    OpKeepsKeys(t, op, now);
    match op
    case CreateComponentOp(_, _, _) => ComponentWritten(t, op, now);
    case DeleteComponentOp(_) => ComponentWritten(t, op, now);
    case ChangeStatusOp(_, _, _) => ComponentWritten(t, op, now);
    case CreateMaintenanceOp(_, _) => MaintenanceOpKeepsIdentities(t, op, now);
    case UpdateMaintenanceOp(_, _, _, _) => MaintenanceOpKeepsIdentities(t, op, now);
    case DeleteMaintenanceOp(_) => MaintenanceOpKeepsIdentities(t, op, now);
    case _ => IncidentOpKeepsIdentities(t, op, now);
  }

  /** Main result: no run moves a row to another page or key, dates a component anew, or revives what is deleted. */
  lemma {:induction false} RunKeepsIdentities(t: Tables, clock: Time, run: seq<Timed>)
    requires t.history.Keys == t.components.Keys
    ensures KeepsIdentities(t, Run(t, clock, run).0)
    decreases |run|
  {
    if run != [] {
      var u := Apply(t, run[0].op, run[0].now);
      OpKeepsIdentities(t, run[0].op, run[0].now);
      RunKeepsIdentities(u, run[0].now, run[1..]);
    }
  }

  // ----- Creation and deletion of components -----

  /** Operation k of the run creates the component. */
  ghost predicate CreatesAt(run: seq<Timed>, k: int, c: Id, page: Id, at: Time) {
    0 <= k < |run| && run[k].op.CreateComponentOp? && run[k].op.id == c && run[k].op.page == page && run[k].now == at
  }

  /** Some operation from the k-th on deletes the component. */
  ghost predicate DeletesFrom(run: seq<Timed>, k: int, c: Id) {
    exists j :: 0 <= k <= j < |run| && run[j].op == DeleteComponentOp(c)
  }

  lemma DeletesLater(run: seq<Timed>, k: nat, c: Id)
    requires run != []
    ensures DeletesFrom(run, k + 1, c) <==> DeletesFrom(run[1..], k, c)
    ensures DeletesFrom(run, 0, c) <==> run[0].op == DeleteComponentOp(c) || DeletesFrom(run[1..], 0, c)
  {
    if j :| k + 1 <= j < |run| && run[j].op == DeleteComponentOp(c) {
      assert run[1..][j - 1] == run[j];
    }
    if j :| 0 <= j < |run| && run[j].op == DeleteComponentOp(c) {
      assert j > 0 ==> run[1..][j - 1] == run[j];
    }
    if j :| k <= j < |run[1..]| && run[1..][j].op == DeleteComponentOp(c) {
      assert run[j + 1].op == DeleteComponentOp(c);
    }
    if j :| 0 <= j < |run[1..]| && run[1..][j].op == DeleteComponentOp(c) {
      assert run[j + 1].op == DeleteComponentOp(c);
    }
  }

  /** What one operation does to the birth and the end of a component. */
  lemma OpOnComponent(t: Tables, op: Op, now: Time, c: Id)
    requires t.history.Keys == t.components.Keys
    ensures var u := Apply(t, op, now);
            && (c in t.components ==>
                  && c in u.components
                  && (u.components[c].deleted <==> t.components[c].deleted || op == DeleteComponentOp(c)))
            && (c !in t.components && c in u.components ==>
                  && op.CreateComponentOp? && op.id == c && u.components[c].page == op.page
                  && u.components[c].createdAt == now && !u.components[c].deleted)
  {
    if op.CreateComponentOp? || op.DeleteComponentOp? || op.ChangeStatusOp? {
      ComponentWritten(t, op, now);
    }
  }

  lemma {:induction false} DeletedIff(t: Tables, clock: Time, run: seq<Timed>, c: Id)
    requires t.history.Keys == t.components.Keys && c in t.components
    ensures c in Run(t, clock, run).0.components
    ensures Run(t, clock, run).0.components[c].deleted <==> t.components[c].deleted || DeletesFrom(run, 0, c)
    decreases |run|
  {
    if run != [] {
      OpOnComponent(t, run[0].op, run[0].now, c);
      OpKeepsIdentities(t, run[0].op, run[0].now);
      DeletedIff(Apply(t, run[0].op, run[0].now), run[0].now, run[1..], c);
      DeletesLater(run, 0, c);
    }
  }

  /**
   Main result: a component dates from the operation that created it, and is deleted if and only if a later
   operation says so.
   */
  lemma {:induction false} ComponentsAreOnRecord(t: Tables, clock: Time, run: seq<Timed>, c: Id) returns (k: nat)
    requires t.history.Keys == t.components.Keys
    requires c !in t.components && c in Run(t, clock, run).0.components
    ensures var made := Run(t, clock, run).0.components[c];
            CreatesAt(run, k, c, made.page, made.createdAt) && (made.deleted <==> DeletesFrom(run, k + 1, c))
    decreases |run|
  {
    var u := Apply(t, run[0].op, run[0].now);
    OpOnComponent(t, run[0].op, run[0].now, c);
    OpKeepsIdentities(t, run[0].op, run[0].now);
    if c in u.components {
      k := 0;
      DeletedIff(u, run[0].now, run[1..], c);
      RunKeepsIdentities(u, run[0].now, run[1..]);
      DeletesLater(run, 0, c);
    } else {
      var j := ComponentsAreOnRecord(u, run[0].now, run[1..], c);
      k := j + 1;
      DeletesLater(run, j + 1, c);
      assert run[1..][j] == run[k];
    }
  }

  // ----- No period before the creation -----

  ghost predicate StartsAfterCreation(t: Tables, clock: Time) {
    forall c :: c in t.components && c in t.history ==>
      t.components[c].createdAt <= clock && SinceCreation(t.history[c], t.components[c].createdAt)
  }

  ghost predicate SinceCreation(periods: seq<Period>, createdAt: Time) {
    forall k :: 0 <= k < |periods| ==> createdAt <= periods[k].startedAt
  }

  lemma FollowedStartsAfter(t: Tables, u: Tables, page: Id, ids: set<Id>, clock: Time, now: Time)
    requires StartsAfterCreation(t, clock) && clock <= now && OnlyFollow(t, u, page, ids, now)
    requires t.history.Keys == t.components.Keys
    ensures StartsAfterCreation(u, now)
  {
    forall c | c in u.components && c in u.history
      ensures u.components[c].createdAt <= now && SinceCreation(u.history[c], u.components[c].createdAt)
    {
      assert t.components[c].createdAt <= clock;
      if c in ids && Live(t, c) {
        assert FollowsRows(t, u, page, now, c);
      } else {
        assert SameComponent(t, u, c);
      }
    }
  }

  lemma IncidentOpStartsAfter(t: Tables, op: Op, clock: Time, now: Time)
    requires op.CreateIncidentOp? || op.UpdateIncidentOp? || op.AddUpdateOp? || op.DeleteIncidentOp?
    requires StartsAfterCreation(t, clock) && clock <= now && t.history.Keys == t.components.Keys
    ensures StartsAfterCreation(Apply(t, op, now), now)
  {
    var u := Apply(t, op, now);
    if u != t {
      match op
      case CreateIncidentOp(id, inc) =>
        IncidentCreated(t, id, inc, now);
        FollowedStartsAfter(t, u, inc.page, Named(inc.components), clock, now);
      case UpdateIncidentOp(id, life, comps, replace) =>
        IncidentUpdated(t, id, life, comps, replace, now);
        FollowedStartsAfter(t, u, t.incidents[id].page,
          Named(t.incidents[id].components) + Named(u.incidents[id].components), clock, now);
      case AddUpdateOp(id, status, at) =>
        UpdateAdded(t, id, status, at, now);
        FollowedStartsAfter(t, u, t.incidents[id].page, Named(t.incidents[id].components), clock, now);
      case DeleteIncidentOp(id) =>
        IncidentDeleted(t, id, now);
        FollowedStartsAfter(t, u, t.incidents[id].page, Named(t.incidents[id].components), clock, now);
    }
  }

  lemma MaintenanceOpStartsAfter(t: Tables, op: Op, clock: Time, now: Time)
    requires op.CreateMaintenanceOp? || op.UpdateMaintenanceOp? || op.DeleteMaintenanceOp?
    requires StartsAfterCreation(t, clock) && clock <= now && t.history.Keys == t.components.Keys
    ensures StartsAfterCreation(Apply(t, op, now), now)
  {
    var u := Apply(t, op, now);
    if u != t {
      match op
      case CreateMaintenanceOp(id, m) =>
        MaintenanceCreated(t, id, m, now);
        FollowedStartsAfter(t, u, m.page, IdSet(m.componentIds), clock, now);
      case UpdateMaintenanceOp(id, life, ids, replace) =>
        MaintenanceUpdated(t, id, life, ids, replace, now);
        FollowedStartsAfter(t, u, t.maintenances[id].page,
          IdSet(t.maintenances[id].componentIds) + IdSet(u.maintenances[id].componentIds), clock, now);
      case DeleteMaintenanceOp(id) =>
        MaintenanceDeleted(t, id, now);
        FollowedStartsAfter(t, u, t.maintenances[id].page, IdSet(t.maintenances[id].componentIds), clock, now);
    }
  }

  lemma OpStartsAfter(t: Tables, op: Op, clock: Time, now: Time)
    requires StartsAfterCreation(t, clock) && clock <= now && t.history.Keys == t.components.Keys
    ensures StartsAfterCreation(Apply(t, op, now), now)
  {
    match op
    case CreateComponentOp(_, _, _) => ComponentOpStartsAfter(t, op, clock, now);
    case DeleteComponentOp(_) => ComponentOpStartsAfter(t, op, clock, now);
    case ChangeStatusOp(_, _, _) => ComponentOpStartsAfter(t, op, clock, now);
    case CreateMaintenanceOp(_, _) => MaintenanceOpStartsAfter(t, op, clock, now);
    case UpdateMaintenanceOp(_, _, _, _) => MaintenanceOpStartsAfter(t, op, clock, now);
    case DeleteMaintenanceOp(_) => MaintenanceOpStartsAfter(t, op, clock, now);
    case _ => IncidentOpStartsAfter(t, op, clock, now);
  }

  lemma ComponentOpStartsAfter(t: Tables, op: Op, clock: Time, now: Time)
    requires op.CreateComponentOp? || op.DeleteComponentOp? || op.ChangeStatusOp?
    requires StartsAfterCreation(t, clock) && clock <= now && t.history.Keys == t.components.Keys
    ensures StartsAfterCreation(Apply(t, op, now), now)
  {
    ComponentWritten(t, op, now);
    var u := Apply(t, op, now);
    forall c | c in u.components && c in u.history
      ensures u.components[c].createdAt <= now && SinceCreation(u.history[c], u.components[c].createdAt)
    {
      if c in t.components {
        assert t.components[c].createdAt <= clock && SinceCreation(t.history[c], t.components[c].createdAt);
      }
    }
  }

  /** Main result: no run puts a period before the creation of its component, where uptime starts to count. */
  lemma {:induction false} RunStartsAfterCreation(t: Tables, clock: Time, run: seq<Timed>)
    requires StartsAfterCreation(t, clock) && t.history.Keys == t.components.Keys && ClockedRun(clock, run)
    ensures StartsAfterCreation(Run(t, clock, run).0, Run(t, clock, run).1)
    decreases |run|
  {
    if run != [] {
      OpStartsAfter(t, run[0].op, clock, run[0].now);
      OpKeepsIdentities(t, run[0].op, run[0].now);
      RunStartsAfterCreation(Apply(t, run[0].op, run[0].now), run[0].now, run[1..]);
    }
  }
}
