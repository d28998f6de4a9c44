/**
 What an alert does to the components of its page, and that edits between alerts do not disturb the open
 keys (backend/internal/api/integrations.go).
 */
module AlertEffects {
  import opened Base
  import opened Statuses
  import opened Lifecycle
  import opened Derivation
  import opened StatusTables
  import R = StatusRuns
  import H = StatusHistories
  import opened StatusWrites
  import opened Alerts

  // ----- A firing alert -----

  /** The incident reports exactly the mapped components of the page, all with this status. */
  ghost predicate ReportsMapped(comps: seq<Affected>, pageComponents: set<Id>, mapped: seq<Id>, s: ComponentStatus) {
    && (forall k :: 0 <= k < |comps| ==>
          comps[k].status == s && comps[k].componentId in pageComponents && comps[k].componentId in mapped)
    && forall c :: c in mapped && c in pageComponents ==> Affected(c, s) in comps
  }

  lemma {:induction false} AffectedAreMapped(pageComponents: set<Id>, ids: seq<Id>, s: ComponentStatus)
    ensures ReportsMapped(AffectedOn(pageComponents, ids, s), pageComponents, ids, s)
  {
    if ids != [] {
      var front, last := ids[..|ids| - 1], ids[|ids| - 1];
      AffectedAreMapped(pageComponents, front, s);
      assert ids == front + [last];
      var comps := AffectedOn(pageComponents, ids, s);
      forall k | 0 <= k < |comps|
        ensures comps[k].status == s && comps[k].componentId in pageComponents && comps[k].componentId in ids
      {
        assert comps[k] in comps;
      }
      forall c | c in ids && c in pageComponents ensures Affected(c, s) in comps {
        if c == last {
          assert comps[|comps| - 1] == Affected(c, s);
        } else {
          assert c in front && Affected(c, s) in AffectedOn(pageComponents, front, s);
        }
      }
    }
  }

  /** The status by which an alert of this impact marks a component. */
  ghost predicate Marks(impact: Impact, s: ComponentStatus) {
    && (impact == Critical <==> s == MajorOutage)
    && (impact == Major <==> s == PartialOutage)
    && (impact == Minor || impact == NoImpact <==> s == DegradedPerformance)
  }

  /** One more incident that names the component adds its status to what is imposed. */
  lemma ImposedGrows(t: Tables, id: Id, row: IncidentRow, c: Id, s: ComponentStatus)
    requires id !in t.incidents && IsActive(row) && Affected(c, s) in row.components
    requires forall a :: a in row.components ==> a.status == s
    ensures Imposed(WithIncident(t, id, row), row.page, c) == Imposed(t, row.page, c) + {s}
  {
    var u := WithIncident(t, id, row);
    forall x ensures x in Imposed(u, row.page, c) <==> x in Imposed(t, row.page, c) + {s} {
      if i, a :| i in t.incidents && t.incidents[i].page == row.page && IsActive(t.incidents[i]) &&
                 a in t.incidents[i].components && a.componentId == c && a.status == x {
        assert i in u.incidents && u.incidents[i] == t.incidents[i];
      }
      if x == s {
        assert id in u.incidents && u.incidents[id] == row && Affected(c, s) in row.components;
      }
    }
  }

  /** Rows alone decide what is imposed. */
  lemma SameRowsImposeTheSame(t: Tables, u: Tables, page: Id, c: Id)
    requires u.incidents == t.incidents && u.maintenances == t.maintenances
    ensures Imposed(u, page, c) == Imposed(t, page, c)
  {
    ImposedFrame(t, u, page, c);
  }

  /** What the created row is. */
  ghost predicate Announces(row: IncidentRow, page: Id, pageComponents: set<Id>, a: Alert, s: ComponentStatus) {
    && row.page == page && row.dedupKey == Some(a.dedupKey) && row.deletedAt == None
    && row.life.status == Investigating && row.life.resolvedAt == None
    && ReportsMapped(row.components, pageComponents, a.mapped, s)
  }

  /** The mapped component shows the worst of what it showed and the status of the alert. */
  ghost predicate Raised(t: Tables, u: Tables, page: Id, c: Id, s: ComponentStatus) {
    && c in t.components && c in u.components
    && u.components[c].status == WorstIn(Imposed(t, page, c) + {s})
    && DisplaySeverity(u.components[c].status) >= DisplaySeverity(s)
  }

  /**
   Main result: an alert that fires while its key is not open creates one incident, after which every
   mapped live component of the page shows at least the status of the alert's impact, and the worst of it
   and of what was imposed before; all other components are as they were.
   */
  lemma FiringRaises(t: Tables, page: Id, pageComponents: set<Id>, a: Alert, id: Id, now: Time)
    returns (s: ComponentStatus)
    requires t.history.Keys == t.components.Keys && Insertable(t, page, pageComponents, a, id)
    requires a.firing && a.dedupKey != "" && !IsOpen(t, page, a.dedupKey)
    ensures Marks(a.impact, s)
    ensures var r := Ingest(t, page, pageComponents, a, id, now);
            && r.Success? && OnlyIncident(t, r.value, id) && id in r.value.incidents
            && Announces(r.value.incidents[id], page, pageComponents, a, s)
            && (forall c :: c in a.mapped && c in pageComponents && Live(t, c) ==> Raised(t, r.value, page, c, s))
            && (forall c :: c in t.components && !(c in a.mapped && c in pageComponents && Live(t, c)) ==>
                  SameComponent(t, r.value, c))
  {
    s := ComponentStatusForImpact(a.impact);
    FiringCreates(t, page, pageComponents, a, id, now);
    AffectedAreMapped(pageComponents, a.mapped, s);
    var row := WebhookIncident(page, pageComponents, a, now);
    IncidentCreated(t, id, row, now);
    var u := Ingest(t, page, pageComponents, a, id, now).value;
    assert u == CreateIncident(t, id, row, now).value;
    forall c | c in t.components
      ensures if c in a.mapped && c in pageComponents && Live(t, c) then Raised(t, u, page, c, s)
              else SameComponent(t, u, c)
    {
      NamedIffMapped(row.components, pageComponents, a.mapped, s, c);
      if c in a.mapped && c in pageComponents && Live(t, c) {
        assert FollowsRows(t, u, page, now, c);
        ImposedGrows(t, id, row, c, s);
        SameRowsImposeTheSame(WithIncident(t, id, row), u, page, c);
      }
    }
  }

  lemma NamedIffMapped(comps: seq<Affected>, pageComponents: set<Id>, mapped: seq<Id>, s: ComponentStatus, c: Id)
    requires ReportsMapped(comps, pageComponents, mapped, s)
    ensures c in Named(comps) <==> c in mapped && c in pageComponents
    ensures forall a :: a in comps ==> a.status == s
  {
    if c in mapped && c in pageComponents {
      var k :| 0 <= k < |comps| && comps[k] == Affected(c, s);
      assert comps[k].componentId == c;
    }
  }

  // ----- An alert that changes nothing, and one that resolves -----

  /** An alert without a key, or one that says what is known already, changes nothing. */
  lemma OldNewsIsNoop(t: Tables, page: Id, pageComponents: set<Id>, a: Alert, id: Id, now: Time)
    requires a.dedupKey == "" || (a.firing <==> IsOpen(t, page, a.dedupKey))
    ensures Ingest(t, page, pageComponents, a, id, now) == Success(t)
  {
  }

  /** A firing alert that saw nothing open and finds its key open by now succeeds, and changes nothing. */
  lemma LostRaceIsForgiven(t: Tables, page: Id, pageComponents: set<Id>, a: Alert, id: Id, now: Time)
    requires id !in t.incidents && a.firing && IsOpen(t, page, a.dedupKey)
    ensures Act(t, page, pageComponents, a, None, id, now) == Success(t)
  {
    var j :| j in t.incidents && OpenFor(t.incidents[j], page, a.dedupKey);
    assert Collides(t, id, WebhookIncident(page, pageComponents, a, now));
  }

  /** Main result: a resolving alert closes the open incident of its key now, and its components follow the rest. */
  lemma ResolvingCloses(t: Tables, page: Id, pageComponents: set<Id>, a: Alert, id: Id, now: Time) returns (open: Id)
    requires t.history.Keys == t.components.Keys && R.OpenUnique(t)
    requires !a.firing && a.dedupKey != "" && IsOpen(t, page, a.dedupKey)
    ensures open in t.incidents && OpenFor(t.incidents[open], page, a.dedupKey)
    ensures var r := Ingest(t, page, pageComponents, a, id, now);
            && r.Success? && OnlyIncident(t, r.value, open)
            && r.value.incidents[open] == t.incidents[open].(life := IncidentLife(Resolved, Some(now)))
            && OnlyFollow(t, r.value, page, Named(t.incidents[open].components), now)
  {
    open := FindOpen(t, page, a.dedupKey).value;
    UpdateAdded(t, open, Resolved, now, now);
    ResolvedCloses(t, page, a.dedupKey, open, now);
  }

  /**
   Main result: once the alert has fired and resolved, every component shows what it would show without
   either: the derivation over the rows that were there before.
   */
  lemma FireThenResolve(
    t: Tables, page: Id, pageComponents: set<Id>, fires: Alert, resolves: Alert, id: Id, now: Time, id2: Id,
    later: Time)
    requires t.history.Keys == t.components.Keys && Insertable(t, page, pageComponents, fires, id) && R.OpenUnique(t)
    requires fires.firing && fires.dedupKey != "" && !IsOpen(t, page, fires.dedupKey)
    requires !resolves.firing && resolves.dedupKey == fires.dedupKey
    ensures var u := R.Kept(t, Ingest(t, page, pageComponents, fires, id, now));
            var v := R.Kept(u, Ingest(u, page, pageComponents, resolves, id2, later));
            && v.components.Keys == t.components.Keys
            && (forall i :: i in t.incidents ==> i in v.incidents && v.incidents[i] == t.incidents[i])
            && forall c :: c in t.components ==>
                 Returned(t, v, page, c, c in fires.mapped && c in pageComponents && Live(t, c))
  {
    var s := FiringRaises(t, page, pageComponents, fires, id, now);
    var u := Ingest(t, page, pageComponents, fires, id, now).value;
    FiringKeepsUnique(t, page, pageComponents, fires, id, now);
    assert OpenFor(u.incidents[id], page, fires.dedupKey);
    var open := ResolvingCloses(u, page, pageComponents, resolves, id2, later);
    assert open == id;
    var v := Ingest(u, page, pageComponents, resolves, id2, later).value;
    AllReturn(t, u, v, page, pageComponents, fires.mapped, id, s, later);
  }

  lemma AllReturn(
    t: Tables, u: Tables, v: Tables, page: Id, pageComponents: set<Id>, mapped: seq<Id>, id: Id, s: ComponentStatus,
    later: Time)
    requires OnlyIncident(t, u, id) && OnlyIncident(u, v, id) && id !in t.incidents && id in v.incidents
    requires ReportsMapped(u.incidents[id].components, pageComponents, mapped, s) && !IsActive(v.incidents[id])
    requires OnlyFollow(u, v, page, Named(u.incidents[id].components), later)
    requires forall c :: c in mapped && c in pageComponents && Live(t, c) ==> Raised(t, u, page, c, s)
    requires forall c :: c in t.components && !(c in mapped && c in pageComponents && Live(t, c)) ==>
               SameComponent(t, u, c)
    requires forall c :: Live(t, c) ==> Live(u, c)
    ensures forall c :: c in t.components ==>
              Returned(t, v, page, c, c in mapped && c in pageComponents && Live(t, c))
  {
    forall c | c in t.components ensures Returned(t, v, page, c, c in mapped && c in pageComponents && Live(t, c)) {
      NamedIffMapped(u.incidents[id].components, pageComponents, mapped, s, c);
      ComponentReturns(
        t, u, v, page, id, c, Named(u.incidents[id].components), later,
        c in mapped && c in pageComponents && Live(t, c));
    }
  }

  ghost predicate Returned(t: Tables, v: Tables, page: Id, c: Id, raised: bool) {
    && c in t.components && c in v.components
    && v.components[c].status == if raised then WorstIn(Imposed(t, page, c)) else t.components[c].status
  }

  lemma ComponentReturns(
    t: Tables, u: Tables, v: Tables, page: Id, id: Id, c: Id, named: set<Id>, later: Time, raised: bool)
    requires c in t.components && (if raised then Live(u, c) && c in named else SameComponent(t, u, c))
    requires !raised ==> !(c in named && Live(u, c))
    requires OnlyFollow(u, v, page, named, later) && c in u.components
    requires OnlyIncident(t, u, id) && OnlyIncident(u, v, id) && id !in t.incidents && id in v.incidents
    requires !IsActive(v.incidents[id])
    ensures Returned(t, v, page, c, raised)
  {
    if raised {
      assert FollowsRows(u, v, page, later, c);
      ResolvedImposesNothing(t, v, id, page, c);
    } else {
      assert SameComponent(u, v, c);
    }
  }

  lemma FiringKeepsUnique(t: Tables, page: Id, pageComponents: set<Id>, a: Alert, id: Id, now: Time)
    requires R.OpenUnique(t) && Insertable(t, page, pageComponents, a, id)
    requires a.firing && a.dedupKey != "" && !IsOpen(t, page, a.dedupKey)
    ensures R.OpenUnique(R.Kept(t, Ingest(t, page, pageComponents, a, id, now)))
  {
    FiringCreates(t, page, pageComponents, a, id, now);
    R.WritingIncidentKeepsOpenUnique(t, id, WebhookIncident(page, pageComponents, a, now));
  }

  /** A row that is resolved counts for nothing. */
  lemma ResolvedImposesNothing(t: Tables, v: Tables, id: Id, page: Id, c: Id)
    requires id !in t.incidents && v.incidents.Keys == t.incidents.Keys + {id} && v.maintenances == t.maintenances
    requires forall i :: i in t.incidents ==> v.incidents[i] == t.incidents[i]
    requires !IsActive(v.incidents[id])
    ensures Imposed(v, page, c) == Imposed(t, page, c)
  {
    forall x ensures x in Imposed(v, page, c) <==> x in Imposed(t, page, c) {
      if i, a :| i in t.incidents && t.incidents[i].page == page && IsActive(t.incidents[i]) &&
                 a in t.incidents[i].components && a.componentId == c && a.status == x {
        assert i in v.incidents && v.incidents[i] == t.incidents[i];
      }
    }
  }

  // ----- Edits between alerts -----

  /** The operation resolves, reopens, creates or deletes no incident that has a key. */
  ghost predicate Quiet(t: Tables, op: R.Op) {
    match op
    case CreateIncidentOp(_, inc) => inc.dedupKey.None? || inc.life.resolvedAt.Some?
    case UpdateIncidentOp(id, life, _, _) =>
      id in t.incidents ==> (life.resolvedAt.None? <==> t.incidents[id].life.resolvedAt.None?)
    case AddUpdateOp(id, status, _) =>
      id in t.incidents ==> (status != Resolved <==> t.incidents[id].life.resolvedAt.None?)
    case DeleteIncidentOp(id) =>
      id in t.incidents ==> t.incidents[id].dedupKey.None? || t.incidents[id].life.resolvedAt.Some?
    case _ => true
  }

  ghost predicate SameOpen(t: Tables, u: Tables) {
    forall p, k :: IsOpen(u, p, k) <==> IsOpen(t, p, k)
  }

  /** Writing one row keeps the open set if that row is open for the same keys as before. */
  lemma RowKeepsOpen(t: Tables, u: Tables, id: Id)
    requires OnlyIncident(t, u, id) && id in u.incidents
    requires forall p, k :: OpenFor(u.incidents[id], p, k) <==> id in t.incidents && OpenFor(t.incidents[id], p, k)
    ensures SameOpen(t, u)
  {
    forall p, k ensures IsOpen(u, p, k) <==> IsOpen(t, p, k) {
      if i :| i in t.incidents && OpenFor(t.incidents[i], p, k) {
        assert i in u.incidents && OpenFor(u.incidents[i], p, k);
      }
      if i :| i in u.incidents && OpenFor(u.incidents[i], p, k) {
        assert i in t.incidents && OpenFor(t.incidents[i], p, k);
      }
    }
  }

  lemma QuietKeepsOpen(t: Tables, op: R.Op, now: Time)
    requires t.history.Keys == t.components.Keys && Quiet(t, op)
    ensures SameOpen(t, R.Apply(t, op, now))
  {
    var u := R.Apply(t, op, now);
    if u.incidents != t.incidents {
      match op {
        case CreateIncidentOp(id, inc) =>
          IncidentCreated(t, id, inc, now);
          RowKeepsOpen(t, u, id);
        case UpdateIncidentOp(id, life, comps, replace) =>
          IncidentUpdated(t, id, life, comps, replace, now);
          RowKeepsOpen(t, u, id);
        case AddUpdateOp(id, status, at) =>
          UpdateAdded(t, id, status, at, now);
          RowKeepsOpen(t, u, id);
        case DeleteIncidentOp(id) =>
          IncidentDeleted(t, id, now);
          RowKeepsOpen(t, u, id);
        case _ => assert false;
      }
    }
  }

  datatype Event = Alerted(delivery: Delivery) | Edited(op: R.Op, now: Time)

  function At(e: Event): Time {
    if e.Alerted? then e.delivery.now else e.now
  }

  ghost function After(t: Tables, page: Id, pageComponents: set<Id>, e: Event): Tables {
    match e
    case Alerted(d) => R.Kept(t, Ingest(t, page, pageComponents, d.alert, d.id, d.now))
    case Edited(op, now) => R.Apply(t, op, now)
  }

  ghost function AfterAll(t: Tables, page: Id, pageComponents: set<Id>, es: seq<Event>): Tables
    decreases |es|
  {
    if es == [] then t else AfterAll(After(t, page, pageComponents, es[0]), page, pageComponents, es[1..])
  }

  /** Alerts draw fresh ids, edits are quiet where they happen, and the clock does not go back. */
  ghost predicate Plain(t: Tables, page: Id, pageComponents: set<Id>, es: seq<Event>, clock: Time)
    decreases |es|
  {
    es == [] ||
    (&& clock <= At(es[0])
     && (match es[0]
         case Alerted(d) => d.id !in t.incidents && DistinctIds(d.alert.mapped)
         case Edited(op, _) => Quiet(t, op))
     && Plain(After(t, page, pageComponents, es[0]), page, pageComponents, es[1..], At(es[0])))
  }

  /** The alerts among the events, in order. */
  function Deliveries(es: seq<Event>): seq<Delivery> {
    if es == [] then []
    else if es[0].Alerted? then [es[0].delivery] + Deliveries(es[1..])
    else Deliveries(es[1..])
  }

  /**
   Main result: whatever quiet operations happen between the alerts, edits of the open incidents included,
   a key is open exactly as its last alert says, or as before.
   */
  lemma {:induction false} LastAlertWinsAmongEdits(
    t: Tables, page: Id, pageComponents: set<Id>, es: seq<Event>, clock: Time, key: string)
    requires H.HistoryInv(t, clock) && R.OnPage(t, page, pageComponents)
    requires Plain(t, page, pageComponents, es, clock) && key != ""
    ensures IsOpen(AfterAll(t, page, pageComponents, es), page, key) <==>
            match LastVerdict(Deliveries(es), key)
            case Some(firing) => firing
            case None => IsOpen(t, page, key)
    decreases |es|
  {
    if es != [] {
      var u := After(t, page, pageComponents, es[0]);
      match es[0] {
        case Alerted(d) =>
          IngestSetsKey(t, page, pageComponents, d.alert, d.id, d.now);
          IngestKeepsHistories(t, page, pageComponents, d.alert, d.id, clock, d.now);
          LastVerdictFromFront(Deliveries(es), key);
        case Edited(op, now) =>
          QuietKeepsOpen(t, op, now);
          H.ApplyKeepsHistories(t, op, clock, now);
          ApplyKeepsPages(t, op, now, page, pageComponents);
      }
      LastAlertWinsAmongEdits(u, page, pageComponents, es[1..], At(es[0]), key);
    }
  }
}
