/**
 The store calls an import makes (backend/internal/store/import.go and the create and update calls it
 shares with the rest of the backend).

 Kept are the tables an import reads back, external_id_map and the parents of components, and a log of
 all writes with their arguments; what an incident write does to statuses is the subject of StatusStore.
 A failing call leaves everything as it was.
 */
module ImportStore {
  import opened Base
  import opened Statuses
  import opened Lifecycle

  datatype Entity = ComponentEntity | IncidentEntity | MaintenanceEntity | SubscriberEntity

  /** The unique key of external_id_map within one page and source. */
  datatype Key = Key(entity: Entity, externalId: string)

  datatype Write =
    | GroupCreated(id: Id, name: string)
    | ComponentCreated(
        id: Id, group: Option<Id>, name: string, description: string, status: ComponentStatus, isPrivate: bool)
    | ParentSet(child: Id, parent: Id)
    | IncidentCreated(
        id: Id, title: string, impact: Impact, incidentStatus: IncidentStatus, startedAt: Time,
        resolvedAt: Option<Time>,
        affected: seq<(Id, ComponentStatus)>, body: string)
    | UpdateAdded(incident: Id, updateStatus: IncidentStatus, body: string, at: Time)
    | MaintenanceCreated(
        id: Id, title: string, description: string, maintenanceStatus: MaintenanceStatus, from: Time, until: Time,
        componentIds: seq<Id>)
    | SubscriberCreated(id: Id, email: string)
    | MappingSet(key: Key, id: Id)

  datatype Tables = Tables(
    mapping: map<Key, Id>,
    parents: map<Id, Option<Id>>,
    next: Id,
    log: seq<Write>)

  /** Ids handed out so far are below `next`, and components are mapped one to one. */
  ghost predicate Sound(t: Tables) {
    && (forall k :: k in t.mapping ==> t.mapping[k] < t.next)
    && (forall id :: id in t.parents ==> id < t.next)
    && forall a, b | a in t.mapping && b in t.mapping && a.entity.ComponentEntity? && b.entity.ComponentEntity? ::
         a != b ==> t.mapping[a] != t.mapping[b]
  }

  /** b comes from a by writes; without a write nothing has changed. */
  ghost predicate Later(a: Tables, b: Tables) {
    && |a.log| <= |b.log| && b.log[..|a.log|] == a.log
    && (|a.log| == |b.log| ==> a == b)
    && a.mapping.Keys <= b.mapping.Keys
  }

  lemma LaterTransitive(a: Tables, b: Tables, c: Tables)
    requires Later(a, b) && Later(b, c)
    ensures Later(a, c)
  {
    assert c.log[..|a.log|] == c.log[..|b.log|][..|a.log|];
  }

  /** Components and their external ids are the same. */
  ghost predicate SameComponents(a: Tables, b: Tables) {
    && a.parents == b.parents
    && forall k: Key :: k.entity.ComponentEntity? ==>
      (k in a.mapping <==> k in b.mapping) && (k in a.mapping ==> a.mapping[k] == b.mapping[k])
  }

  class Store {
    /** Which calls, by number, fail. */
    const fails: nat -> bool
    var calls: nat
    var tables: Tables

    /** No call from the given one on has failed. */
    ghost predicate Clean(from: nat)
      reads this
    {
      forall n {:trigger fails(n)} :: from <= n < calls ==> !fails(n)
    }

    constructor (fails: nat -> bool, tables: Tables)
      ensures this.fails == fails && this.tables == tables && calls == 0
    {
      this.fails, this.tables, calls := fails, tables, 0;
    }

    method Call() returns (ok: bool)
      modifies this`calls
      ensures ok == !fails(old(calls)) && calls == old(calls) + 1
    {
      ok := !fails(calls);
      calls := calls + 1;
    }

    method ExternalMapping(key: Key) returns (ok: bool, id: Option<Id>)
      modifies this`calls
      ensures ok == !fails(old(calls)) && calls == old(calls) + 1
      ensures id == if ok && key in tables.mapping then Some(tables.mapping[key]) else None
    {
      ok := Call();
      id := if ok && key in tables.mapping then Some(tables.mapping[key]) else None;
    }

    method SetExternalMapping(key: Key, id: Id) returns (ok: bool)
      modifies this
      ensures ok == !fails(old(calls)) && calls == old(calls) + 1
      ensures tables == if ok then Mapped(old(tables), key, id) else old(tables)
    {
      ok := Call();
      if ok {
        tables := Mapped(tables, key, id);
      }
    }

    /** Any create call: it draws a fresh id and writes a row. */
    method Create(write: Id -> Write) returns (ok: bool, id: Id)
      modifies this
      ensures ok == !fails(old(calls)) && calls == old(calls) + 1 && id == old(tables).next
      ensures tables == if ok then Created(old(tables), write(id)) else old(tables)
    {
      ok := Call();
      id := tables.next;
      if ok {
        tables := Created(tables, write(id));
      }
    }

    method AddIncidentUpdate(incident: Id, status: IncidentStatus, body: string, at: Time) returns (ok: bool)
      modifies this
      ensures ok == !fails(old(calls)) && calls == old(calls) + 1
      ensures tables == if ok then Logged(old(tables), UpdateAdded(incident, status, body, at)) else old(tables)
    {
      ok := Call();
      if ok {
        tables := Logged(tables, UpdateAdded(incident, status, body, at));
      }
    }

    /** ComponentByID: a deleted component is not found. */
    method ComponentParent(id: Id) returns (ok: bool, parent: Option<Id>)
      modifies this`calls
      ensures calls == old(calls) + 1
      ensures ok == (!fails(old(calls)) && id in tables.parents)
      ensures ok ==> parent == tables.parents[id]
    {
      ok := Call();
      ok := ok && id in tables.parents;
      parent := if ok then tables.parents[id] else None;
    }

    method SetParent(child: Id, parent: Id) returns (ok: bool)
      requires child in tables.parents
      modifies this
      ensures ok == !fails(old(calls)) && calls == old(calls) + 1
      ensures tables == if ok then Reparented(old(tables), child, parent) else old(tables)
    {
      ok := Call();
      if ok {
        tables := Reparented(tables, child, parent);
      }
    }
  }

  // ----- What one successful write makes of the tables -----

  function Logged(t: Tables, w: Write): Tables {
    t.(log := t.log + [w])
  }

  function Mapped(t: Tables, key: Key, id: Id): Tables {
    Logged(t.(mapping := t.mapping[key := id]), MappingSet(key, id))
  }

  function Created(t: Tables, w: Write): Tables {
    var parents := if w.ComponentCreated? then t.parents[w.id := None] else t.parents;
    Logged(t.(next := t.next + 1, parents := parents), w)
  }

  function Reparented(t: Tables, child: Id, parent: Id): Tables {
    Logged(t.(parents := t.parents[child := Some(parent)]), ParentSet(child, parent))
  }

  /** Existing components keep their parent. */
  ghost predicate ParentsKept(a: Tables, b: Tables) {
    forall id :: id in a.parents ==> id in b.parents && b.parents[id] == a.parents[id]
  }

  lemma CreateIsFine(t: Tables, w: Write)
    requires Sound(t) && (w.ComponentCreated? ==> w.id == t.next)
    ensures Sound(Created(t, w)) && Later(t, Created(t, w)) && ParentsKept(t, Created(t, w))
    ensures !w.ComponentCreated? ==> SameComponents(t, Created(t, w))
    ensures forall k :: k in t.mapping ==> t.mapping[k] < t.next
  {
  }

  lemma MappingIsFine(t: Tables, key: Key, id: Id)
    requires Sound(t) && id < t.next
    requires key.entity.ComponentEntity? ==> forall k :: k in t.mapping ==> t.mapping[k] < id
    ensures Sound(Mapped(t, key, id)) && Later(t, Mapped(t, key, id)) && ParentsKept(t, Mapped(t, key, id))
    ensures !key.entity.ComponentEntity? ==> SameComponents(t, Mapped(t, key, id))
  {
  }

  lemma ReparentIsFine(t: Tables, child: Id, parent: Id)
    requires Sound(t) && child in t.parents
    ensures Sound(Reparented(t, child, parent)) && Later(t, Reparented(t, child, parent))
  {
  }
}
