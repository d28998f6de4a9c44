/**
 The import engine (backend/internal/importer/importer.go): components in two passes, then incidents,
 maintenances and subscribers, made repeatable by external_id_map.
 */
module Importer {
  import opened Base
  import opened Statuses
  import opened Lifecycle
  import opened Imported
  import opened ImportStore

  datatype Mode = SkipExisting | UpdateExisting

  /** Everything the adapter of the source answers. */
  datatype Source = Source(
    components: Fetched<ImportedComponent>,
    incidents: Fetched<ImportedIncident>,
    maintenances: Fetched<ImportedMaintenance>,
    subscribers: Fetched<ImportedSubscriber>)

  /** Counters of one kind of entity. */
  datatype Tally = Tally(created: nat, skipped: nat, errors: seq<string>) {
    function Total(): nat {
      created + skipped + |errors|
    }
  }

  datatype Report = Report(
    components: Tally, incidents: Tally, maintenances: Tally, subscribers: Tally, fetchErrors: nat)

  /** External component id to our id, for the links of incidents and maintenances. */
  type ComponentMap = map<string, Id>

  function ComponentKey(externalId: string): Key { Key(ComponentEntity, externalId) }
  function IncidentKey(externalId: string): Key { Key(IncidentEntity, externalId) }
  function MaintenanceKey(externalId: string): Key { Key(MaintenanceEntity, externalId) }
  function SubscriberKey(externalId: string): Key { Key(SubscriberEntity, externalId) }

  // ----- Components, first pass -----

  ghost predicate AllMapped(t: Tables, comps: seq<ImportedComponent>) {
    forall i :: 0 <= i < |comps| ==> ComponentKey(comps[i].externalId) in t.mapping
  }

  /** The map agrees with external_id_map. */
  ghost predicate Agrees(t: Tables, compMap: ComponentMap) {
    forall e :: e in compMap ==> ComponentKey(e) in t.mapping && t.mapping[ComponentKey(e)] == compMap[e]
  }

  function Externals(comps: seq<ImportedComponent>): set<string> {
    set c | c in comps :: c.externalId
  }

  /** One group per name and run. */
  method ResolveGroup(s: Store, name: string, cache: map<string, Id>)
    returns (ok: bool, group: Option<Id>, later: map<string, Id>)
    requires Sound(s.tables)
    modifies s
    ensures Sound(s.tables) && Later(old(s.tables), s.tables) && SameComponents(old(s.tables), s.tables)
    ensures old(s.calls) <= s.calls && (!ok ==> !s.Clean(old(s.calls)))
    ensures name == "" ==> ok && group == None && s.tables == old(s.tables) && later == cache
    ensures name != "" && name in cache ==>
              ok && group == Some(cache[name]) && s.tables == old(s.tables) && later == cache
    ensures name != "" && name !in cache && ok ==>
              group.Some? && later == cache[name := group.value]
                && s.tables.log == old(s.tables).log + [GroupCreated(group.value, name)]
    ensures !ok ==> later == cache && s.tables == old(s.tables)
    ensures s.tables.mapping == old(s.tables).mapping
  {
    if name == "" {
      return true, None, cache;
    }
    if name in cache {
      return true, Some(cache[name]), cache;
    }
    var id;
    ok, id := s.Create((id: Id) => GroupCreated(id, name));
    if !ok {
      assert s.fails(old(s.calls));
      return false, None, cache;
    }
    return true, Some(id), cache[name := id];
  }

  datatype Outcome = CreatedNow | SkippedNow | FailedNow | Aborted

  /** The body of the first loop, for one component. */
  method ImportComponent(s: Store, c: ImportedComponent, mode: Mode, compMap: ComponentMap, cache: map<string, Id>)
    returns (outcome: Outcome, wider: ComponentMap, later: map<string, Id>)
    requires Sound(s.tables) && Agrees(s.tables, compMap) && GroupsLogged(s.tables, cache)
    modifies s
    ensures Sound(s.tables) && Later(old(s.tables), s.tables) && ParentsKept(old(s.tables), s.tables)
    ensures GroupsLogged(s.tables, later) && MoreGroups(cache, later, c.groupName)
    ensures old(s.calls) <= s.calls && (outcome == Aborted || outcome == FailedNow ==> !s.Clean(old(s.calls)))
    ensures outcome != Aborted ==>
              Agrees(s.tables, wider) && compMap.Keys <= wider.Keys <= compMap.Keys + {c.externalId}
    ensures outcome == CreatedNow || outcome == SkippedNow ==> c.externalId in wider
    ensures mode == SkipExisting && ComponentKey(c.externalId) in old(s.tables).mapping ==>
              s.tables == old(s.tables) && outcome == if s.fails(old(s.calls)) then Aborted else SkippedNow
    ensures outcome == SkippedNow ==> mode == SkipExisting && ComponentKey(c.externalId) in old(s.tables).mapping
    ensures outcome == CreatedNow ==> WroteRow(old(s.tables), s.tables, c, wider[c.externalId], later)
    ensures outcome != Aborted ==>
              MapsAtMost(old(s.tables), s.tables, ComponentKey(c.externalId), outcome == CreatedNow)
  {
    wider, later := compMap, cache;
    var ok, internal := s.ExternalMapping(ComponentKey(c.externalId));
    if !ok {
      assert s.fails(old(s.calls));
      return Aborted, wider, later;
    }
    if internal.Some? {
      wider := wider[c.externalId := internal.value];
      if mode == SkipExisting {
        return SkippedNow, wider, later;
      }
    }
    outcome, wider, later := CreateComponent(s, c, wider, later);
  }

  /** The row is the component's, in the group of its name, with an unknown status replaced by operational. */
  ghost predicate CreatedRow(w: Write, c: ImportedComponent, id: Id, groups: map<string, Id>) {
    && w.ComponentCreated? && w.id == id && w.name == c.name && w.description == c.description
      && w.isPrivate == c.isPrivate
    && w.status == (if IsValid(c.status) then c.status else Operational)
    && InGroup(c, w.group, groups)
  }

  ghost predicate InGroup(c: ImportedComponent, group: Option<Id>, groups: map<string, Id>) {
    if c.groupName == "" then group.None? else c.groupName in groups && group == Some(groups[c.groupName])
  }

  /** The last two writes are the component's row and its mapping. */
  ghost predicate WroteRow(a: Tables, b: Tables, c: ImportedComponent, id: Id, groups: map<string, Id>) {
    var n := |b.log|;
    && n >= |a.log| + 2 && CreatedRow(b.log[n - 2], c, id, groups)
    && b.log[n - 1] == MappingSet(ComponentKey(c.externalId), id)
  }

  /** The key is mapped, if so told, and no other key is new. */
  ghost predicate MapsAtMost(a: Tables, b: Tables, key: Key, maps: bool) {
    b.mapping.Keys == if maps then a.mapping.Keys + {key} else a.mapping.Keys
  }

  /** As many entities were created as keys were mapped. */
  ghost predicate Sized(t0: Tables, t: Tables, tally: Tally) {
    |t.mapping.Keys| == |t0.mapping.Keys| + tally.created
  }

  lemma SizedStep(t0: Tables, before: Tables, after: Tables, key: Key, tally: Tally, outcome: Outcome, error: string)
    requires Sized(t0, before, tally) && MapsAtMost(before, after, key, outcome == CreatedNow) && outcome != Aborted
    requires outcome == CreatedNow ==> key !in before.mapping
    ensures Sized(t0, after, Counted(tally, outcome, error))
  {
  }

  /** Every group of the run stands under the name it was created with. */
  ghost predicate GroupsLogged(t: Tables, groups: map<string, Id>) {
    forall name :: name in groups ==> GroupCreated(groups[name], name) in t.log
  }

  ghost predicate MoreGroups(was: map<string, Id>, now: map<string, Id>, name: string) {
    was.Keys <= now.Keys <= was.Keys + {name} && forall n :: n in was ==> now[n] == was[n]
  }

  method CreateComponent(s: Store, c: ImportedComponent, compMap: ComponentMap, cache: map<string, Id>)
    returns (outcome: Outcome, wider: ComponentMap, later: map<string, Id>)
    requires Sound(s.tables) && Agrees(s.tables, compMap) && GroupsLogged(s.tables, cache)
    modifies s
    ensures Sound(s.tables) && Later(old(s.tables), s.tables) && ParentsKept(old(s.tables), s.tables)
    ensures GroupsLogged(s.tables, later) && MoreGroups(cache, later, c.groupName)
    ensures old(s.calls) <= s.calls && outcome != SkippedNow && (outcome != CreatedNow ==> !s.Clean(old(s.calls)))
    ensures outcome == FailedNow ==> wider == compMap && Agrees(s.tables, wider)
    ensures outcome == CreatedNow ==> Agrees(s.tables, wider) && wider.Keys == compMap.Keys + {c.externalId}
    ensures outcome == CreatedNow ==> WroteRow(old(s.tables), s.tables, c, wider[c.externalId], later)
    ensures outcome != Aborted ==>
              MapsAtMost(old(s.tables), s.tables, ComponentKey(c.externalId), outcome == CreatedNow)
  {
    wider := compMap;
    var ok, group;
    ok, group, later := ResolveGroup(s, c.groupName, cache);
    if !ok {
      return FailedNow, wider, later;
    }
    ghost var grouped, at := s.tables, s.calls;
    GroupedAgrees(old(s.tables), grouped, compMap);
    GroupResolved(old(s.tables), grouped, c, group, cache, later);
    outcome, wider := InsertComponent(s, c, group, compMap, later);
    ThenLater(old(s.tables), grouped, s.tables);
    GroupsStayLogged(grouped, s.tables, later);
    assert outcome != CreatedNow ==> !s.Clean(at);
  }

  /** The group found or made is the one of the name. */
  lemma GroupResolved(
    a: Tables, b: Tables, c: ImportedComponent, group: Option<Id>, cache: map<string, Id>, later: map<string, Id>)
    requires GroupsLogged(a, cache)
    requires c.groupName == "" ==> group.None? && later == cache && b == a
    requires c.groupName != "" && c.groupName in cache ==> group == Some(cache[c.groupName]) && later == cache && b == a
    requires c.groupName != "" && c.groupName !in cache ==>
               group.Some? && later == cache[c.groupName := group.value]
               && b.log == a.log + [GroupCreated(group.value, c.groupName)]
    ensures GroupsLogged(b, later) && MoreGroups(cache, later, c.groupName) && InGroup(c, group, later)
  {
    if c.groupName != "" && c.groupName !in cache {
      assert b.log[|a.log|] == GroupCreated(group.value, c.groupName);
      forall n | n in cache ensures GroupCreated(later[n], n) in b.log {
        assert GroupCreated(cache[n], n) in a.log;
      }
    }
  }

  lemma GroupsStayLogged(a: Tables, b: Tables, groups: map<string, Id>)
    requires GroupsLogged(a, groups) && Later(a, b)
    ensures GroupsLogged(b, groups)
  {
    forall n | n in groups ensures GroupCreated(groups[n], n) in b.log {
      var k :| 0 <= k < |a.log| && a.log[k] == GroupCreated(groups[n], n);
      assert b.log[..|a.log|][k] == b.log[k];
    }
  }

  lemma GroupedAgrees(a: Tables, b: Tables, compMap: ComponentMap)
    requires SameComponents(a, b) && Agrees(a, compMap)
    ensures Agrees(b, compMap)
  {
  }

  lemma ThenLater(a: Tables, b: Tables, c: Tables)
    requires Later(a, b) && SameComponents(a, b) && Later(b, c) && ParentsKept(b, c)
    ensures Later(a, c) && ParentsKept(a, c) && |a.log| <= |b.log|
  {
    LaterTransitive(a, b, c);
  }

  method InsertComponent(
    s: Store, c: ImportedComponent, group: Option<Id>, compMap: ComponentMap, ghost groups: map<string, Id>)
    returns (outcome: Outcome, wider: ComponentMap)
    requires Sound(s.tables) && Agrees(s.tables, compMap) && InGroup(c, group, groups)
    modifies s
    ensures Sound(s.tables) && Later(old(s.tables), s.tables) && ParentsKept(old(s.tables), s.tables)
    ensures old(s.calls) < s.calls && outcome != SkippedNow && (outcome != CreatedNow ==> !s.Clean(old(s.calls)))
    ensures outcome == FailedNow ==> wider == compMap && s.tables == old(s.tables)
    ensures outcome == CreatedNow ==> wider == compMap[c.externalId := old(s.tables).next]
    ensures outcome == CreatedNow ==> Agrees(s.tables, wider)
    ensures outcome == CreatedNow ==> WroteRow(old(s.tables), s.tables, c, wider[c.externalId], groups)
    ensures outcome != Aborted ==>
              MapsAtMost(old(s.tables), s.tables, ComponentKey(c.externalId), outcome == CreatedNow)
  {
    wider := compMap;
    var status := if IsValid(c.status) then c.status else Operational;
    var ok, id := s.Create((id: Id) => ComponentCreated(id, group, c.name, c.description, status, c.isPrivate));
    if !ok {
      assert s.fails(old(s.calls));
      return FailedNow, wider;
    }
    ghost var created := s.tables;
    CreateIsFine(old(s.tables), ComponentCreated(id, group, c.name, c.description, status, c.isPrivate));
    MappingIsFine(created, ComponentKey(c.externalId), id);
    ok := s.SetExternalMapping(ComponentKey(c.externalId), id);
    LaterTransitive(old(s.tables), created, s.tables);
    if !ok {
      assert s.fails(old(s.calls) + 1);
      return Aborted, wider;
    }
    return CreatedNow, wider[c.externalId := id];
  }

  /** What holds after the first pass over `comps`, which found the tables as t0 and left them as t. */
  ghost predicate Passed(
    t0: Tables, t: Tables, comps: seq<ImportedComponent>, mode: Mode,
    compMap: ComponentMap, pending: seq<ImportedComponent>, tally: Tally)
  {
    && Sound(t) && Later(t0, t) && ParentsKept(t0, t)
    && tally.Total() == |comps| && Agrees(t, compMap) && Pending(comps, pending, compMap)
    && (tally.errors == [] ==> pending == comps)
    && (mode == SkipExisting && AllMapped(t0, comps) ==> t == t0 && tally.created == 0 && tally.errors == [])
  }

  function Counted(tally: Tally, outcome: Outcome, error: string): Tally {
    match outcome
    case CreatedNow => tally.(created := tally.created + 1)
    case SkippedNow => tally.(skipped := tally.skipped + 1)
    case FailedNow => tally.(errors := tally.errors + [error])
    case Aborted => tally
  }

  /**
   The first pass. Every component is counted exactly once; without a failing call all of them are
   mapped; and where all were mapped before, skip mode writes nothing.
   */
  method ImportComponents(s: Store, comps: seq<ImportedComponent>, mode: Mode)
    returns (done: bool, compMap: ComponentMap, pending: seq<ImportedComponent>, tally: Tally)
    requires Sound(s.tables)
    modifies s
    ensures Sound(s.tables) && Later(old(s.tables), s.tables) && ParentsKept(old(s.tables), s.tables)
    ensures old(s.calls) <= s.calls && (s.Clean(old(s.calls)) ==> done && tally.errors == [])
    ensures done ==> Passed(old(s.tables), s.tables, comps, mode, compMap, pending, tally)
    ensures done && mode == SkipExisting ==> Sized(old(s.tables), s.tables, tally)
    ensures mode == SkipExisting && AllMapped(old(s.tables), comps) ==> s.tables == old(s.tables)
  {
    var cache: map<string, Id> := map[];
    compMap, pending, tally, done := map[], [], Tally(0, 0, []), true;
    PassStarts(s.tables, comps, mode);
    for i := 0 to |comps|
      invariant PassAt(old(s.tables), s.tables, comps, i, mode, compMap, pending, tally, cache)
      invariant old(s.calls) <= s.calls && (s.Clean(old(s.calls)) ==> tally.errors == [])
    {
      done, compMap, pending, tally, cache := PassOne(s, comps, i, mode, compMap, pending, tally, cache, old(s.tables));
      if !done {
        return;
      }
    }
    PassEnds(old(s.tables), s.tables, comps, mode, compMap, pending, tally, cache);
  }

  /** What holds after the first i components of the first pass. */
  ghost predicate PassAt(
    t0: Tables, t: Tables, comps: seq<ImportedComponent>, i: nat, mode: Mode,
    compMap: ComponentMap, pending: seq<ImportedComponent>, tally: Tally, cache: map<string, Id>)
  {
    && i <= |comps| && Passed(t0, t, comps[..i], mode, compMap, pending, tally)
    && GroupsLogged(t, cache) && (mode == SkipExisting ==> Sized(t0, t, tally))
  }

  lemma PassStarts(t: Tables, comps: seq<ImportedComponent>, mode: Mode)
    requires Sound(t)
    ensures PassAt(t, t, comps, 0, mode, map[], [], Tally(0, 0, []), map[])
  {
  }

  lemma PassEnds(
    t0: Tables, t: Tables, comps: seq<ImportedComponent>, mode: Mode,
    compMap: ComponentMap, pending: seq<ImportedComponent>, tally: Tally, cache: map<string, Id>)
    requires PassAt(t0, t, comps, |comps|, mode, compMap, pending, tally, cache)
    ensures Passed(t0, t, comps, mode, compMap, pending, tally)
    ensures mode == SkipExisting ==> Sized(t0, t, tally)
    ensures Sound(t) && Later(t0, t) && ParentsKept(t0, t)
    ensures mode == SkipExisting && AllMapped(t0, comps) ==> t == t0
  {
    assert comps[..|comps|] == comps;
  }

  method PassOne(
    s: Store, comps: seq<ImportedComponent>, i: nat, mode: Mode,
    compMap: ComponentMap, pending: seq<ImportedComponent>, tally: Tally, cache: map<string, Id>, ghost t0: Tables)
    returns (done: bool, wider: ComponentMap, longer: seq<ImportedComponent>, counted: Tally, later: map<string, Id>)
    requires i < |comps| && PassAt(t0, s.tables, comps, i, mode, compMap, pending, tally, cache)
    modifies s
    ensures GroupsLogged(s.tables, later) && MoreGroups(cache, later, comps[i].groupName)
    ensures Sound(s.tables) && Later(t0, s.tables) && ParentsKept(t0, s.tables)
    ensures old(s.calls) <= s.calls && (s.Clean(old(s.calls)) ==> done && counted.errors == tally.errors)
    ensures mode == SkipExisting && AllMapped(t0, comps) ==> s.tables == t0
    ensures done ==> PassAt(t0, s.tables, comps, i + 1, mode, wider, longer, counted, later)
  {
    ghost var before := s.tables;
    var outcome;
    outcome, wider, later := ImportComponent(s, comps[i], mode, compMap, cache);
    done := outcome != Aborted;
    longer := if outcome == CreatedNow || outcome == SkippedNow then pending + [comps[i]] else pending;
    counted := Counted(tally, outcome, "component " + comps[i].name);
    LaterTransitive(t0, before, s.tables);
    MappedPrefix(t0, comps, i);
    if done {
      PassStep(
        t0, before, s.tables, comps, i, mode, compMap, wider, pending, longer, tally, outcome,
        "component " + comps[i].name);
      if mode == SkipExisting {
        SizedStep(
          t0, before, s.tables, ComponentKey(comps[i].externalId), tally, outcome, "component " + comps[i].name);
      }
    }
  }

  lemma PassStep(
    t0: Tables, before: Tables, after: Tables, comps: seq<ImportedComponent>, i: nat, mode: Mode,
    compMap: ComponentMap, wider: ComponentMap, pending: seq<ImportedComponent>, longer: seq<ImportedComponent>,
    tally: Tally, outcome: Outcome, error: string)
    requires i < |comps| && Passed(t0, before, comps[..i], mode, compMap, pending, tally) && outcome != Aborted
    requires Sound(after) && Later(t0, after) && Later(before, after) && ParentsKept(before, after)
    requires Agrees(after, wider) && compMap.Keys <= wider.Keys <= compMap.Keys + {comps[i].externalId}
    requires outcome == CreatedNow || outcome == SkippedNow ==> comps[i].externalId in wider
    requires longer == if outcome == CreatedNow || outcome == SkippedNow then pending + [comps[i]] else pending
    requires mode == SkipExisting && ComponentKey(comps[i].externalId) in before.mapping ==>
               after == before && outcome == SkippedNow
    ensures Passed(t0, after, comps[..i + 1], mode, wider, longer, Counted(tally, outcome, error))
  {
    assert comps[..i + 1] == comps[..i] + [comps[i]];
    MappedPrefix(t0, comps, i);
    PendingStep(comps, i, pending, longer, compMap, wider);
  }

  lemma MappedPrefix(t: Tables, comps: seq<ImportedComponent>, i: nat)
    requires i < |comps|
    ensures AllMapped(t, comps) ==> AllMapped(t, comps[..i + 1])
    ensures AllMapped(t, comps[..i + 1]) <==> AllMapped(t, comps[..i]) && ComponentKey(comps[i].externalId) in t.mapping
  {
    var longer := comps[..i + 1];
    assert longer[i] == comps[i] && longer[..i] == comps[..i];
    if AllMapped(t, comps[..i]) && ComponentKey(comps[i].externalId) in t.mapping {
      forall k | 0 <= k < |longer| ensures ComponentKey(longer[k].externalId) in t.mapping {
        assert k < i ==> longer[k] == comps[..i][k];
      }
    }
    if AllMapped(t, longer) {
      forall k | 0 <= k < i ensures ComponentKey(comps[..i][k].externalId) in t.mapping {
        assert comps[..i][k] == longer[k];
      }
    }
  }

  /** The second pass gets components of the list, all of them in the map, and the map nothing else. */
  ghost predicate Pending(comps: seq<ImportedComponent>, pending: seq<ImportedComponent>, compMap: ComponentMap) {
    && compMap.Keys <= Externals(comps)
    && forall i :: 0 <= i < |pending| ==> pending[i] in comps && pending[i].externalId in compMap
  }

  lemma PendingStep(
    comps: seq<ImportedComponent>, i: nat, was: seq<ImportedComponent>, now: seq<ImportedComponent>,
    earlier: ComponentMap, compMap: ComponentMap)
    requires i < |comps| && Pending(comps[..i], was, earlier)
    requires earlier.Keys <= compMap.Keys <= earlier.Keys + {comps[i].externalId}
    requires now == was || (now == was + [comps[i]] && comps[i].externalId in compMap)
    ensures Pending(comps[..i + 1], now, compMap)
  {
    assert comps[..i + 1] == comps[..i] + [comps[i]];
    assert Externals(comps[..i + 1]) == Externals(comps[..i]) + {comps[i].externalId};
  }

  // ----- Components, second pass -----

  /** Nothing is left to do for the component's parent. */
  ghost predicate Linked(t: Tables, compMap: ComponentMap, c: ImportedComponent) {
    c.parentExternalId != "" && c.externalId in compMap && c.parentExternalId in compMap
      && compMap[c.externalId] in t.parents
    ==> t.parents[compMap[c.externalId]] == Some(compMap[c.parentExternalId])
  }

  ghost predicate AllLinked(t: Tables, compMap: ComponentMap, comps: seq<ImportedComponent>) {
    forall i :: 0 <= i < |comps| ==> Linked(t, compMap, comps[i])
  }

  /** The body of the second loop, for one component. */
  method LinkOne(s: Store, c: ImportedComponent, compMap: ComponentMap)
    requires Sound(s.tables)
    modifies s
    ensures Sound(s.tables) && Later(old(s.tables), s.tables) && old(s.calls) <= s.calls
    ensures Linked(old(s.tables), compMap, c) ==> s.tables == old(s.tables)
    ensures s.Clean(old(s.calls)) ==> Linked(s.tables, compMap, c)
    ensures s.tables == old(s.tables)
            || (&& c.externalId in compMap && c.parentExternalId in compMap
              && compMap[c.externalId] in old(s.tables).parents
                && s.tables == Reparented(old(s.tables), compMap[c.externalId], compMap[c.parentExternalId]))
  {
    if c.parentExternalId == "" || c.externalId !in compMap || c.parentExternalId !in compMap {
      return;
    }
    var childId, parentId := compMap[c.externalId], compMap[c.parentExternalId];
    var ok, parent := s.ComponentParent(childId);
    if !ok {
      assert childId in s.tables.parents ==> s.fails(old(s.calls));
      return;
    }
    if parent == Some(parentId) {
      return;
    }
    ReparentIsFine(s.tables, childId, parentId);
    var saved := s.SetParent(childId, parentId);
    assert !saved ==> s.fails(old(s.calls) + 1);
  }

  predicate DistinctExternals(comps: seq<ImportedComponent>) {
    forall i, j :: 0 <= i < j < |comps| ==> comps[i].externalId != comps[j].externalId
  }

  predicate OneToOne(compMap: ComponentMap) {
    forall a, b :: a in compMap && b in compMap && a != b ==> compMap[a] != compMap[b]
  }

  lemma AgreeingIsOneToOne(t: Tables, compMap: ComponentMap)
    requires Sound(t) && Agrees(t, compMap)
    ensures OneToOne(compMap)
  {
  }

  /** Reparenting one component does not unlink another one. */
  lemma LinkingKeepsLinked(t: Tables, compMap: ComponentMap, c: ImportedComponent, d: ImportedComponent)
    requires OneToOne(compMap) && c.externalId in compMap && c.parentExternalId in compMap
    requires c.externalId != d.externalId && Linked(t, compMap, d) && compMap[c.externalId] in t.parents
    ensures Linked(Reparented(t, compMap[c.externalId], compMap[c.parentExternalId]), compMap, d)
  {
  }

  /**
   The second pass: whatever the order of the list, with distinct external ids and no failing call each
   component ends below its mapped parent. Where that was so before, nothing is written.
   */
  method LinkParents(s: Store, pending: seq<ImportedComponent>, compMap: ComponentMap)
    requires Sound(s.tables) && OneToOne(compMap)
    modifies s
    ensures Sound(s.tables) && Later(old(s.tables), s.tables) && s.tables.mapping == old(s.tables).mapping
    ensures old(s.calls) <= s.calls
    ensures AllLinked(old(s.tables), compMap, pending) ==> s.tables == old(s.tables)
    ensures DistinctExternals(pending) && s.Clean(old(s.calls)) ==> AllLinked(s.tables, compMap, pending)
  {
    for i := 0 to |pending|
      invariant Sound(s.tables) && Later(old(s.tables), s.tables) && s.tables.mapping == old(s.tables).mapping
      invariant old(s.calls) <= s.calls
      invariant AllLinked(old(s.tables), compMap, pending) ==> s.tables == old(s.tables)
      invariant DistinctExternals(pending) && s.Clean(old(s.calls)) ==> AllLinked(s.tables, compMap, pending[..i])
    {
      ghost var before, from := s.tables, s.calls;
      LinkOne(s, pending[i], compMap);
      LaterTransitive(old(s.tables), before, s.tables);
      if DistinctExternals(pending) && s.Clean(old(s.calls)) {
        assert s.Clean(from);
        LinkedStep(before, s.tables, compMap, pending, i);
      }
    }
    assert pending[..|pending|] == pending;
  }

  lemma LinkedStep(before: Tables, after: Tables, compMap: ComponentMap, pending: seq<ImportedComponent>, i: nat)
    requires i < |pending| && DistinctExternals(pending) && OneToOne(compMap)
    requires AllLinked(before, compMap, pending[..i]) && Linked(after, compMap, pending[i])
    requires after == before
             || (&& pending[i].externalId in compMap && pending[i].parentExternalId in compMap
               && compMap[pending[i].externalId] in before.parents
                 && after == Reparented(before, compMap[pending[i].externalId], compMap[pending[i].parentExternalId]))
    ensures AllLinked(after, compMap, pending[..i + 1])
  {
    var longer := pending[..i + 1];
    forall k | 0 <= k < |longer| ensures Linked(after, compMap, longer[k]) {
      assert longer[k] == pending[k];
      if k < i {
        assert pending[..i][k] == pending[k];
        if after != before {
          LinkingKeepsLinked(before, compMap, pending[i], pending[k]);
        }
      }
    }
  }

  // ----- Incidents, maintenances and subscribers -----

  /** Our ids of the external ids that are known, in order. */
  function KnownIds(externals: seq<string>, compMap: ComponentMap): seq<Id> {
    if externals == [] then []
    else
      var front, last := externals[..|externals| - 1], externals[|externals| - 1];
      KnownIds(front, compMap) + if last in compMap then [compMap[last]] else []
  }

  method CollectIds(externals: seq<string>, compMap: ComponentMap) returns (ids: seq<Id>)
    ensures ids == KnownIds(externals, compMap)
  {
    ids := [];
    for i := 0 to |externals|
      invariant ids == KnownIds(externals[..i], compMap)
    {
      assert externals[..i + 1][..i] == externals[..i];
      if externals[i] in compMap {
        ids := ids + [compMap[externals[i]]];
      }
    }
    assert externals[..|externals|] == externals;
  }

  function ComponentStatusForImpact(impact: Impact): ComponentStatus {
    match impact
    case Critical => MajorOutage
    case Major => MajorOutage
    case Minor => PartialOutage
    case NoImpact => DegradedPerformance
  }

  /** What importing one incident writes: the incident with its first body, the later updates, the mapping. */
  function IncidentWrites(id: Id, si: ImportedIncident, compMap: ComponentMap): seq<Write> {
    [NewIncident(id, si, compMap)] + UpdateWrites(id, LaterUpdates(si)) + [MappingSet(IncidentKey(si.externalId), id)]
  }

  function LaterUpdates(si: ImportedIncident): seq<ImportedUpdate> {
    if si.updates == [] then [] else si.updates[1..]
  }

  function NewIncident(id: Id, si: ImportedIncident, compMap: ComponentMap): Write {
    var ids := KnownIds(si.components, compMap);
    IncidentCreated(
      id, si.title, si.impact, si.status, si.startedAt, si.resolvedAt,
      seq(|ids|, i requires 0 <= i < |ids| => (ids[i], ComponentStatusForImpact(si.impact))),
      if si.updates == [] then "" else si.updates[0].body)
  }

  function UpdateWrites(id: Id, updates: seq<ImportedUpdate>): seq<Write> {
    seq(|updates|, i requires 0 <= i < |updates| =>
      UpdateAdded(id, updates[i].status, updates[i].body, updates[i].createdAt))
  }

  /** A step that leaves components alone and maps nothing but `key`, and that only on success. */
  ghost predicate ImportedOne(before: Tables, after: Tables, key: Key, ok: bool) {
    && Sound(after) && Later(before, after) && SameComponents(before, after)
    && after.mapping.Keys == (if ok then before.mapping.Keys + {key} else before.mapping.Keys)
  }

  lemma MappedIsImported(before: Tables, written: Tables, after: Tables, key: Key, id: Id, ok: bool)
    requires Sound(written) && Later(before, written) && SameComponents(before, written)
    requires written.mapping == before.mapping && id < written.next && !key.entity.ComponentEntity?
    requires after == if ok then Mapped(written, key, id) else written
    ensures ImportedOne(before, after, key, ok)
    ensures ok ==> after.log == written.log + [MappingSet(key, id)]
  {
    MappingIsFine(written, key, id);
    LaterTransitive(before, written, after);
  }

  method ImportIncident(s: Store, si: ImportedIncident, compMap: ComponentMap) returns (ok: bool)
    requires Sound(s.tables)
    modifies s
    ensures ImportedOne(old(s.tables), s.tables, IncidentKey(si.externalId), ok)
    ensures old(s.calls) <= s.calls && (s.Clean(old(s.calls)) ==> ok)
    ensures ok ==> s.tables.log == old(s.tables).log + IncidentWrites(old(s.tables).next, si, compMap)
  {
    var id;
    ok, id := WriteIncident(s, si, compMap);
    if !ok {
      return;
    }
    ghost var written, at := s.tables, s.calls;
    ok := s.SetExternalMapping(IncidentKey(si.externalId), id);
    MappedIsImported(old(s.tables), written, s.tables, IncidentKey(si.externalId), id, ok);
    assert !ok ==> s.fails(at);
  }

  /** The incident with its first body, and the rest of its chronicle. */
  method WriteIncident(s: Store, si: ImportedIncident, compMap: ComponentMap) returns (ok: bool, id: Id)
    requires Sound(s.tables)
    modifies s
    ensures Sound(s.tables) && Later(old(s.tables), s.tables) && SameComponents(old(s.tables), s.tables)
    ensures s.tables.mapping == old(s.tables).mapping
    ensures id == old(s.tables).next && (ok ==> id < s.tables.next)
    ensures old(s.calls) <= s.calls && (!ok ==> !s.Clean(old(s.calls)))
    ensures ok ==> s.tables.log ==
                   old(s.tables).log + ([NewIncident(id, si, compMap)] + UpdateWrites(id, LaterUpdates(si)))
  {
    ok, id := OpenIncident(s, si, compMap);
    if !ok {
      return;
    }
    ghost var begun := s.tables;
    ok := AddUpdates(s, id, LaterUpdates(si));
    LaterTransitive(old(s.tables), begun, s.tables);
  }

  method OpenIncident(s: Store, si: ImportedIncident, compMap: ComponentMap) returns (ok: bool, id: Id)
    requires Sound(s.tables)
    modifies s
    ensures Sound(s.tables) && Later(old(s.tables), s.tables) && SameComponents(old(s.tables), s.tables)
    ensures s.tables.mapping == old(s.tables).mapping
    ensures id == old(s.tables).next && (ok ==> id < s.tables.next)
    ensures old(s.calls) <= s.calls && (!ok ==> !s.Clean(old(s.calls)))
    ensures ok ==> s.tables.log == old(s.tables).log + [NewIncident(id, si, compMap)]
  {
    var ids := CollectIds(si.components, compMap);
    var compStatus := ComponentStatusForImpact(si.impact);
    var affected := seq(|ids|, i requires 0 <= i < |ids| => (ids[i], compStatus));
    var initialBody := if |si.updates| > 0 then si.updates[0].body else "";
    ok, id := s.Create((id: Id) =>
      IncidentCreated(id, si.title, si.impact, si.status, si.startedAt, si.resolvedAt, affected, initialBody));
    assert NewIncident(id, si, compMap).affected == affected;
    CreateIsFine(old(s.tables), NewIncident(id, si, compMap));
    assert !ok ==> s.fails(old(s.calls));
  }

  method AddUpdates(s: Store, id: Id, updates: seq<ImportedUpdate>) returns (ok: bool)
    requires Sound(s.tables)
    modifies s
    ensures Sound(s.tables) && Later(old(s.tables), s.tables) && SameComponents(old(s.tables), s.tables)
    ensures s.tables.mapping == old(s.tables).mapping && s.tables.next == old(s.tables).next
    ensures old(s.calls) <= s.calls && (!ok ==> !s.Clean(old(s.calls)))
    ensures ok ==> s.tables.log == old(s.tables).log + UpdateWrites(id, updates)
  {
    for i := 0 to |updates|
      invariant s.tables == old(s.tables).(log := old(s.tables).log + UpdateWrites(id, updates[..i]))
      invariant old(s.calls) <= s.calls
    {
      var u := updates[i];
      assert UpdateWrites(id, updates[..i + 1]) ==
             UpdateWrites(id, updates[..i]) + [UpdateAdded(id, u.status, u.body, u.createdAt)];
      ghost var at := s.calls;
      ok := s.AddIncidentUpdate(id, u.status, u.body, u.createdAt);
      if !ok {
        assert s.fails(at);
        return;
      }
    }
    assert updates[..|updates|] == updates;
    ok := true;
  }

  method ImportMaintenance(s: Store, sm: ImportedMaintenance, compMap: ComponentMap) returns (ok: bool)
    requires Sound(s.tables)
    modifies s
    ensures ImportedOne(old(s.tables), s.tables, MaintenanceKey(sm.externalId), ok)
    ensures old(s.calls) <= s.calls && (s.Clean(old(s.calls)) ==> ok)
    ensures ok ==> s.tables.log == old(s.tables).log + MaintenanceWrites(old(s.tables).next, sm, compMap)
  {
    var ids := CollectIds(sm.components, compMap);
    var id;
    ok, id := s.Create((id: Id) =>
      MaintenanceCreated(id, sm.title, sm.description, sm.status, sm.startAt, sm.endAt, ids));
    if !ok {
      assert s.fails(old(s.calls));
      return;
    }
    ghost var created, at := s.tables, s.calls;
    CreateIsFine(old(s.tables), MaintenanceCreated(id, sm.title, sm.description, sm.status, sm.startAt, sm.endAt, ids));
    ok := s.SetExternalMapping(MaintenanceKey(sm.externalId), id);
    MappedIsImported(old(s.tables), created, s.tables, MaintenanceKey(sm.externalId), id, ok);
    assert !ok ==> s.fails(at);
  }

  function MaintenanceWrites(id: Id, sm: ImportedMaintenance, compMap: ComponentMap): seq<Write> {
    [ MaintenanceCreated(
        id, sm.title, sm.description, sm.status, sm.startAt, sm.endAt, KnownIds(sm.components, compMap)),
      MappingSet(MaintenanceKey(sm.externalId), id) ]
  }

  // ----- Their loops -----

  ghost predicate AllIn(t: Tables, keys: seq<Key>) {
    forall i :: 0 <= i < |keys| ==> keys[i] in t.mapping
  }

  /** What holds after a loop over entities with these keys. */
  ghost predicate LoopDone(t0: Tables, t: Tables, keys: seq<Key>, tally: Tally) {
    && Sound(t) && Later(t0, t) && SameComponents(t0, t)
    && tally.Total() == |keys|
    && (tally.errors == [] ==> AllIn(t, keys))
    && (AllIn(t0, keys) ==> t == t0 && tally.created == 0 && tally.errors == [])
  }

  lemma LoopStep(
    t0: Tables, before: Tables, after: Tables, keys: seq<Key>, i: nat, tally: Tally, outcome: Outcome, error: string)
    requires i < |keys| && LoopDone(t0, before, keys[..i], tally) && outcome != Aborted
    requires if outcome == SkippedNow then keys[i] in before.mapping && after == before
             else keys[i] !in before.mapping && ImportedOne(before, after, keys[i], outcome == CreatedNow)
    ensures LoopDone(t0, after, keys[..i + 1], Counted(tally, outcome, error))
  {
    var front, longer := keys[..i], keys[..i + 1];
    assert longer == front + [keys[i]];
    LaterTransitive(t0, before, after);
    if AllIn(t0, longer) {
      forall k | 0 <= k < i ensures front[k] in t0.mapping {
        assert front[k] == longer[k];
      }
      assert longer[i] in t0.mapping;
    }
    if Counted(tally, outcome, error).errors == [] {
      forall k | 0 <= k < |longer| ensures longer[k] in after.mapping {
        assert k < i ==> longer[k] == front[k];
      }
    }
  }

  function IncidentKeys(items: seq<ImportedIncident>): seq<Key> {
    seq(|items|, i requires 0 <= i < |items| => IncidentKey(items[i].externalId))
  }

  /** What holds after the first i entities of a loop. */
  ghost predicate LoopAt(t0: Tables, t: Tables, keys: seq<Key>, i: nat, tally: Tally) {
    && i <= |keys| && LoopDone(t0, t, keys[..i], tally) && Sized(t0, t, tally)
    && (AllIn(t0, keys) ==> t == t0)
  }

  lemma LoopStarts(t: Tables, keys: seq<Key>)
    requires Sound(t)
    ensures LoopAt(t, t, keys, 0, Tally(0, 0, []))
  {
  }

  lemma LoopEnds(t0: Tables, t: Tables, keys: seq<Key>, tally: Tally)
    requires LoopAt(t0, t, keys, |keys|, tally)
    ensures LoopDone(t0, t, keys, tally) && Sized(t0, t, tally)
  {
    assert keys[..|keys|] == keys;
  }

  lemma LoopKeeps(t0: Tables, t: Tables, keys: seq<Key>, i: nat, tally: Tally)
    requires LoopAt(t0, t, keys, i, tally)
    ensures Sound(t) && Later(t0, t) && SameComponents(t0, t) && (AllIn(t0, keys) ==> t == t0)
  {
  }

  lemma LoopGoesOn(
    t0: Tables, before: Tables, after: Tables, keys: seq<Key>, i: nat, tally: Tally, outcome: Outcome, error: string)
    requires i < |keys| && LoopAt(t0, before, keys, i, tally) && outcome != Aborted
    requires if outcome == SkippedNow then keys[i] in before.mapping && after == before
             else keys[i] !in before.mapping && ImportedOne(before, after, keys[i], outcome == CreatedNow)
    ensures LoopAt(t0, after, keys, i + 1, Counted(tally, outcome, error))
  {
    PrefixIn(t0, keys, i + 1);
    LoopStep(t0, before, after, keys, i, tally, outcome, error);
    SizedStep(t0, before, after, keys[i], tally, outcome, error);
  }

  /** The body of the loop, for one incident. */
  method NextIncident(
    s: Store, items: seq<ImportedIncident>, i: nat, compMap: ComponentMap, tally: Tally, ghost t0: Tables)
    returns (done: bool, counted: Tally)
    requires i < |items| && LoopAt(t0, s.tables, IncidentKeys(items), i, tally)
    modifies s
    ensures Sound(s.tables) && Later(t0, s.tables) && SameComponents(t0, s.tables)
    ensures done ==> LoopAt(t0, s.tables, IncidentKeys(items), i + 1, counted)
    ensures !done ==> s.tables == old(s.tables)
    ensures old(s.calls) <= s.calls && (s.Clean(old(s.calls)) ==> done && counted.errors == tally.errors)
  {
    ghost var keys := IncidentKeys(items);
    var ok, found := s.ExternalMapping(IncidentKey(items[i].externalId));
    if !ok {
      assert s.fails(old(s.calls));
      return false, tally;
    }
    var outcome := SkippedNow;
    if found.None? {
      ok := ImportIncident(s, items[i], compMap);
      outcome := if ok then CreatedNow else FailedNow;
    }
    LoopGoesOn(t0, old(s.tables), s.tables, keys, i, tally, outcome, "incident " + items[i].title);
    return true, Counted(tally, outcome, "incident " + items[i].title);
  }

  method ImportIncidents(s: Store, items: seq<ImportedIncident>, compMap: ComponentMap)
    returns (done: bool, tally: Tally)
    requires Sound(s.tables)
    modifies s
    ensures Sound(s.tables) && Later(old(s.tables), s.tables) && SameComponents(old(s.tables), s.tables)
    ensures done ==> LoopDone(old(s.tables), s.tables, IncidentKeys(items), tally)
    ensures done ==> Sized(old(s.tables), s.tables, tally)
    ensures AllIn(old(s.tables), IncidentKeys(items)) ==> s.tables == old(s.tables)
    ensures old(s.calls) <= s.calls && (s.Clean(old(s.calls)) ==> done && tally.errors == [])
  {
    tally, done := Tally(0, 0, []), true;
    ghost var keys := IncidentKeys(items);
    LoopStarts(s.tables, keys);
    for i := 0 to |items|
      invariant LoopAt(old(s.tables), s.tables, keys, i, tally)
      invariant old(s.calls) <= s.calls && (s.Clean(old(s.calls)) ==> tally.errors == [])
    {
      LoopKeeps(old(s.tables), s.tables, keys, i, tally);
      done, tally := NextIncident(s, items, i, compMap, tally, old(s.tables));
      if !done {
        return;
      }
    }
    LoopKeeps(old(s.tables), s.tables, keys, |items|, tally);
    LoopEnds(old(s.tables), s.tables, keys, tally);
  }

  lemma PrefixIn(t: Tables, keys: seq<Key>, i: nat)
    requires i <= |keys|
    ensures AllIn(t, keys) ==> AllIn(t, keys[..i])
  {
  }

  function MaintenanceKeys(items: seq<ImportedMaintenance>): seq<Key> {
    seq(|items|, i requires 0 <= i < |items| => MaintenanceKey(items[i].externalId))
  }

  /** The body of the loop, for one maintenance. */
  method NextMaintenance(
    s: Store, items: seq<ImportedMaintenance>, i: nat, compMap: ComponentMap, tally: Tally, ghost t0: Tables)
    returns (done: bool, counted: Tally)
    requires i < |items| && LoopAt(t0, s.tables, MaintenanceKeys(items), i, tally)
    modifies s
    ensures Sound(s.tables) && Later(t0, s.tables) && SameComponents(t0, s.tables)
    ensures done ==> LoopAt(t0, s.tables, MaintenanceKeys(items), i + 1, counted)
    ensures !done ==> s.tables == old(s.tables)
    ensures old(s.calls) <= s.calls && (s.Clean(old(s.calls)) ==> done && counted.errors == tally.errors)
  {
    ghost var keys := MaintenanceKeys(items);
    var ok, found := s.ExternalMapping(MaintenanceKey(items[i].externalId));
    if !ok {
      assert s.fails(old(s.calls));
      return false, tally;
    }
    var outcome := SkippedNow;
    if found.None? {
      ok := ImportMaintenance(s, items[i], compMap);
      outcome := if ok then CreatedNow else FailedNow;
    }
    LoopGoesOn(t0, old(s.tables), s.tables, keys, i, tally, outcome, "maintenance " + items[i].title);
    return true, Counted(tally, outcome, "maintenance " + items[i].title);
  }

  method ImportMaintenances(s: Store, items: seq<ImportedMaintenance>, compMap: ComponentMap)
    returns (done: bool, tally: Tally)
    requires Sound(s.tables)
    modifies s
    ensures Sound(s.tables) && Later(old(s.tables), s.tables) && SameComponents(old(s.tables), s.tables)
    ensures done ==> LoopDone(old(s.tables), s.tables, MaintenanceKeys(items), tally)
    ensures done ==> Sized(old(s.tables), s.tables, tally)
    ensures AllIn(old(s.tables), MaintenanceKeys(items)) ==> s.tables == old(s.tables)
    ensures old(s.calls) <= s.calls && (s.Clean(old(s.calls)) ==> done && tally.errors == [])
  {
    tally, done := Tally(0, 0, []), true;
    ghost var keys := MaintenanceKeys(items);
    LoopStarts(s.tables, keys);
    for i := 0 to |items|
      invariant LoopAt(old(s.tables), s.tables, keys, i, tally)
      invariant old(s.calls) <= s.calls && (s.Clean(old(s.calls)) ==> tally.errors == [])
    {
      LoopKeeps(old(s.tables), s.tables, keys, i, tally);
      done, tally := NextMaintenance(s, items, i, compMap, tally, old(s.tables));
      if !done {
        return;
      }
    }
    LoopKeeps(old(s.tables), s.tables, keys, |items|, tally);
    LoopEnds(old(s.tables), s.tables, keys, tally);
  }

  /** Subscribers without an address are never imported. */
  ghost predicate SubscribersIn(t: Tables, items: seq<ImportedSubscriber>) {
    forall i :: 0 <= i < |items| ==> items[i].email == "" || SubscriberKey(items[i].externalId) in t.mapping
  }

  function SubscriberWrites(id: Id, ss: ImportedSubscriber): seq<Write> {
    [SubscriberCreated(id, ss.email), MappingSet(SubscriberKey(ss.externalId), id)]
  }

  /** The body of the last loop: a refused subscriber counts as skipped. */
  method ImportSubscriber(s: Store, ss: ImportedSubscriber) returns (outcome: Outcome)
    requires Sound(s.tables)
    modifies s
    ensures Sound(s.tables) && Later(old(s.tables), s.tables) && SameComponents(old(s.tables), s.tables)
    ensures old(s.calls) <= s.calls && outcome != FailedNow
    ensures SubscribersIn(old(s.tables), [ss]) ==> s.tables == old(s.tables) && outcome != CreatedNow
    ensures s.Clean(old(s.calls)) ==> outcome != Aborted && SubscribersIn(s.tables, [ss])
    ensures outcome == CreatedNow ==> s.tables.log == old(s.tables).log + SubscriberWrites(old(s.tables).next, ss)
    ensures outcome == CreatedNow ==> SubscriberKey(ss.externalId) !in old(s.tables).mapping
    ensures outcome != Aborted ==>
              MapsAtMost(old(s.tables), s.tables, SubscriberKey(ss.externalId), outcome == CreatedNow)
  {
    if ss.email == "" {
      return SkippedNow;
    }
    var ok, found := s.ExternalMapping(SubscriberKey(ss.externalId));
    if !ok {
      assert s.fails(old(s.calls));
      return Aborted;
    }
    assert [ss][0] == ss;
    if found.Some? {
      return SkippedNow;
    }
    outcome := InsertSubscriber(s, ss);
  }

  method InsertSubscriber(s: Store, ss: ImportedSubscriber) returns (outcome: Outcome)
    requires Sound(s.tables) && SubscriberKey(ss.externalId) !in s.tables.mapping
    modifies s
    ensures Sound(s.tables) && Later(old(s.tables), s.tables) && SameComponents(old(s.tables), s.tables)
    ensures old(s.calls) <= s.calls && outcome != FailedNow
    ensures outcome == CreatedNow ==> SubscriberKey(ss.externalId) in s.tables.mapping
    ensures s.Clean(old(s.calls)) ==> outcome == CreatedNow
    ensures outcome == CreatedNow ==> s.tables.log == old(s.tables).log + SubscriberWrites(old(s.tables).next, ss)
    ensures outcome == CreatedNow ==> SubscriberKey(ss.externalId) !in old(s.tables).mapping
    ensures outcome != Aborted ==>
              MapsAtMost(old(s.tables), s.tables, SubscriberKey(ss.externalId), outcome == CreatedNow)
  {
    var ok, id := s.Create((id: Id) => SubscriberCreated(id, ss.email));
    if !ok {
      assert s.fails(old(s.calls));
      return SkippedNow;
    }
    ghost var created, at := s.tables, s.calls;
    CreateIsFine(old(s.tables), SubscriberCreated(id, ss.email));
    MappingIsFine(created, SubscriberKey(ss.externalId), id);
    ok := s.SetExternalMapping(SubscriberKey(ss.externalId), id);
    LaterTransitive(old(s.tables), created, s.tables);
    if !ok {
      assert s.fails(at);
      return Aborted;
    }
    return CreatedNow;
  }

  /** What holds after the first i subscribers. */
  ghost predicate SubscribersAt(t0: Tables, t: Tables, items: seq<ImportedSubscriber>, i: nat, tally: Tally) {
    && i <= |items| && Sound(t) && Later(t0, t) && SameComponents(t0, t)
    && tally.Total() == i && tally.errors == [] && Sized(t0, t, tally)
    && (SubscribersIn(t0, items) ==> t == t0)
  }

  /** The body of the last loop. */
  method NextSubscriber(s: Store, items: seq<ImportedSubscriber>, i: nat, tally: Tally, ghost t0: Tables)
    returns (done: bool, counted: Tally)
    requires i < |items| && SubscribersAt(t0, s.tables, items, i, tally)
    modifies s
    ensures Sound(s.tables) && Later(t0, s.tables) && SameComponents(t0, s.tables) && Later(old(s.tables), s.tables)
    ensures SubscribersIn(t0, items) ==> s.tables == t0
    ensures done ==> SubscribersAt(t0, s.tables, items, i + 1, counted)
    ensures old(s.calls) <= s.calls && (s.Clean(old(s.calls)) ==> done && SubscribersIn(s.tables, [items[i]]))
  {
    var outcome := ImportSubscriber(s, items[i]);
    SubscriberGoesOn(t0, old(s.tables), s.tables, items, i, tally, outcome);
    if outcome == Aborted {
      return false, tally;
    }
    return true, Counted(tally, outcome, "");
  }

  lemma SameTransitive(a: Tables, b: Tables, c: Tables)
    requires SameComponents(a, b) && SameComponents(b, c)
    ensures SameComponents(a, c)
  {
  }

  lemma OneOfSubscribers(t: Tables, items: seq<ImportedSubscriber>, i: nat)
    requires i < |items|
    ensures SubscribersIn(t, items) ==> SubscribersIn(t, [items[i]])
  {
  }

  lemma SubscriberGoesOn(
    t0: Tables, before: Tables, after: Tables, items: seq<ImportedSubscriber>, i: nat, tally: Tally, outcome: Outcome)
    requires i < |items| && SubscribersAt(t0, before, items, i, tally) && outcome != FailedNow
    requires Sound(after) && Later(before, after) && SameComponents(before, after)
    requires SubscribersIn(before, [items[i]]) ==> after == before
    requires outcome == CreatedNow ==> SubscriberKey(items[i].externalId) !in before.mapping
    requires outcome != Aborted ==>
               MapsAtMost(before, after, SubscriberKey(items[i].externalId), outcome == CreatedNow)
    ensures Later(t0, after) && SameComponents(t0, after)
    ensures SubscribersIn(t0, items) ==> after == t0
    ensures outcome != Aborted ==> SubscribersAt(t0, after, items, i + 1, Counted(tally, outcome, ""))
  {
    LaterTransitive(t0, before, after);
    SameTransitive(t0, before, after);
    OneOfSubscribers(t0, items, i);
    if outcome != Aborted {
      SizedStep(t0, before, after, SubscriberKey(items[i].externalId), tally, outcome, "");
    }
  }

  method ImportSubscribers(s: Store, items: seq<ImportedSubscriber>) returns (done: bool, tally: Tally)
    requires Sound(s.tables)
    modifies s
    ensures Sound(s.tables) && Later(old(s.tables), s.tables) && SameComponents(old(s.tables), s.tables)
    ensures done ==> tally.Total() == |items| && tally.errors == [] && Sized(old(s.tables), s.tables, tally)
    ensures SubscribersIn(old(s.tables), items) ==> s.tables == old(s.tables)
    ensures old(s.calls) <= s.calls && (s.Clean(old(s.calls)) ==> done && SubscribersIn(s.tables, items))
  {
    tally, done := Tally(0, 0, []), true;
    for i := 0 to |items|
      invariant SubscribersAt(old(s.tables), s.tables, items, i, tally)
      invariant old(s.calls) <= s.calls && (s.Clean(old(s.calls)) ==> SubscribersIn(s.tables, items[..i]))
    {
      ghost var before, from := s.tables, s.calls;
      done, tally := NextSubscriber(s, items, i, tally, old(s.tables));
      if !done {
        return;
      }
      assert items[..i + 1] == items[..i] + [items[i]];
      assert s.Clean(old(s.calls)) ==> s.Clean(from);
      SubscribersStep(before, s.tables, items[..i], items[i]);
    }
    assert items[..|items|] == items;
  }

  lemma SubscribersStep(before: Tables, after: Tables, front: seq<ImportedSubscriber>, last: ImportedSubscriber)
    requires Later(before, after)
    ensures SubscribersIn(before, front) && SubscribersIn(after, [last]) ==> SubscribersIn(after, front + [last])
  {
    assert [last][0] == last;
  }

  // ----- The run -----

  /** The component map of a source whose components are all mapped. */
  ghost function FullMap(t: Tables, comps: seq<ImportedComponent>): ComponentMap
    requires AllMapped(t, comps)
  {
    map e | e in Externals(comps) :: MappedTo(t, comps, e)
  }

  ghost function MappedTo(t: Tables, comps: seq<ImportedComponent>, e: string): Id
    requires AllMapped(t, comps) && e in Externals(comps)
  {
    var c :| c in comps && c.externalId == e;
    t.mapping[ComponentKey(e)]
  }

  /** Everything the source lists is mapped, and every listed component hangs below its listed parent. */
  ghost predicate Settled(t: Tables, src: Source) {
    ComponentsSettled(t, src.components.items) && RestSettled(t, src)
  }

  lemma PassedIsFull(t: Tables, comps: seq<ImportedComponent>, compMap: ComponentMap, pending: seq<ImportedComponent>)
    requires Agrees(t, compMap) && Pending(comps, pending, compMap) && pending == comps && AllMapped(t, comps)
    ensures compMap == FullMap(t, comps)
  {
    forall e ensures e in compMap <==> e in Externals(comps) {
      if e in Externals(comps) {
        var c :| c in comps && c.externalId == e;
        var k :| 0 <= k < |comps| && comps[k] == c;
        assert pending[k].externalId in compMap;
      }
    }
  }

  /** Both passes over the components. */
  method RunComponents(s: Store, comps: seq<ImportedComponent>, mode: Mode)
    returns (done: bool, compMap: ComponentMap, tally: Tally)
    requires Sound(s.tables)
    modifies s
    ensures Sound(s.tables) && Later(old(s.tables), s.tables) && old(s.calls) <= s.calls
    ensures done ==> tally.Total() == |comps|
    ensures done && mode == SkipExisting ==> Sized(old(s.tables), s.tables, tally)
    ensures mode == SkipExisting && ComponentsSettled(old(s.tables), comps) ==>
              s.tables == old(s.tables) && (done ==> tally.created == 0)
    ensures s.Clean(old(s.calls)) ==> done
    ensures s.Clean(old(s.calls)) && DistinctExternals(comps) ==> ComponentsSettled(s.tables, comps)
  {
    var pending;
    done, compMap, pending, tally := ImportComponents(s, comps, mode);
    if !done {
      return;
    }
    ghost var passed, at := s.tables, s.calls;
    if tally.errors == [] {
      PassedIsFull(passed, comps, compMap, pending);
    }
    AgreeingIsOneToOne(passed, compMap);
    LinkParents(s, pending, compMap);
    LaterTransitive(old(s.tables), passed, s.tables);
    if s.Clean(old(s.calls)) {
      assert s.Clean(at);
      SameMappingSameMap(passed, s.tables, comps);
    }
  }

  ghost predicate ComponentsSettled(t: Tables, comps: seq<ImportedComponent>) {
    AllMapped(t, comps) && AllLinked(t, FullMap(t, comps), comps)
  }

  lemma SameMappingSameMap(a: Tables, b: Tables, comps: seq<ImportedComponent>)
    requires AllMapped(a, comps)
    requires forall k: Key :: k.entity.ComponentEntity? ==>
              (k in a.mapping <==> k in b.mapping) && (k in a.mapping ==> a.mapping[k] == b.mapping[k])
    ensures AllMapped(b, comps) && FullMap(a, comps) == FullMap(b, comps)
  {
  }

  lemma SettledStays(a: Tables, b: Tables, comps: seq<ImportedComponent>)
    requires ComponentsSettled(a, comps) && SameComponents(a, b)
    ensures ComponentsSettled(b, comps)
  {
    SameMappingSameMap(a, b, comps);
    forall i | 0 <= i < |comps| ensures Linked(b, FullMap(b, comps), comps[i]) {
      assert Linked(a, FullMap(a, comps), comps[i]);
    }
  }

  /** The three loops after the components. */
  method RunRest(s: Store, src: Source, compMap: ComponentMap)
    returns (done: bool, incidents: Tally, maintenances: Tally, subscribers: Tally)
    requires Sound(s.tables)
    modifies s
    ensures Sound(s.tables) && Later(old(s.tables), s.tables) && SameComponents(old(s.tables), s.tables)
    ensures old(s.calls) <= s.calls
    ensures done ==> incidents.Total() == |src.incidents.items| && maintenances.Total() == |src.maintenances.items|
    ensures done ==> subscribers.Total() == |src.subscribers.items|
    ensures done ==> |s.tables.mapping.Keys| ==
                     |old(s.tables).mapping.Keys| + incidents.created + maintenances.created + subscribers.created
    ensures RestSettled(old(s.tables), src) ==> s.tables == old(s.tables)
    ensures s.Clean(old(s.calls)) ==> done && RestSettled(s.tables, src)
  {
    incidents, maintenances, subscribers := Tally(0, 0, []), Tally(0, 0, []), Tally(0, 0, []);
    done, incidents := ImportIncidents(s, src.incidents.items, compMap);
    ghost var first, at1 := s.tables, s.calls;
    if !done {
      return;
    }
    done, maintenances := ImportMaintenances(s, src.maintenances.items, compMap);
    ghost var second, at2 := s.tables, s.calls;
    LaterTransitive(old(s.tables), first, second);
    if !done {
      return;
    }
    done, subscribers := ImportSubscribers(s, src.subscribers.items);
    LaterTransitive(old(s.tables), second, s.tables);
    LaterTransitive(first, second, s.tables);
    if s.Clean(old(s.calls)) {
      assert s.Clean(at1) && s.Clean(at2);
      KeysStay(first, s.tables, IncidentKeys(src.incidents.items));
      KeysStay(second, s.tables, MaintenanceKeys(src.maintenances.items));
    }
  }

  lemma KeysStay(a: Tables, b: Tables, keys: seq<Key>)
    requires Later(a, b)
    ensures AllIn(a, keys) ==> AllIn(b, keys)
  {
    if AllIn(a, keys) {
      forall i | 0 <= i < |keys| ensures keys[i] in b.mapping {
        assert keys[i] in a.mapping.Keys;
      }
    }
  }

  ghost predicate RestSettled(t: Tables, src: Source) {
    && AllIn(t, IncidentKeys(src.incidents.items))
    && AllIn(t, MaintenanceKeys(src.maintenances.items))
    && SubscribersIn(t, src.subscribers.items)
  }

  /**
   Main result. In a completed run every fetched entity is counted exactly once. A skip-mode run on a
   settled source writes nothing, whichever calls fail. With distinct external component ids, a run of
   either mode in which no call fails settles the source, and in skip mode such a run writes nothing
   exactly if the source was settled before.
   */
  method Run(s: Store, src: Source, mode: Mode) returns (done: bool, report: Report)
    requires Sound(s.tables)
    modifies s
    ensures Sound(s.tables) && Later(old(s.tables), s.tables) && old(s.calls) <= s.calls
    ensures done ==> report.components.Total() == |src.components.items|
    ensures done ==> report.incidents.Total() == |src.incidents.items|
    ensures done ==> report.maintenances.Total() == |src.maintenances.items|
    ensures done ==> report.subscribers.Total() == |src.subscribers.items|
    ensures done && mode == SkipExisting ==>
              |s.tables.mapping.Keys| == |old(s.tables).mapping.Keys| + report.components.created
                + report.incidents.created + report.maintenances.created + report.subscribers.created
    ensures mode == SkipExisting && Settled(old(s.tables), src) ==> s.tables == old(s.tables)
    ensures s.Clean(old(s.calls)) && !src.components.failed ==> done
    ensures s.Clean(old(s.calls)) && !src.components.failed && DistinctExternals(src.components.items) ==>
              Settled(s.tables, src)
    ensures s.Clean(old(s.calls)) && !src.components.failed && DistinctExternals(src.components.items)
            && mode == SkipExisting ==>
              (s.tables == old(s.tables) <==> Settled(old(s.tables), src))
  {
    var none := Tally(0, 0, []);
    report := Report(none, none, none, none, 0);
    if src.components.failed {
      return false, report;
    }
    var compMap, components;
    done, compMap, components := RunComponents(s, src.components.items, mode);
    if !done {
      return;
    }
    ghost var first, at := s.tables, s.calls;
    var incidents, maintenances, subscribers;
    done, incidents, maintenances, subscribers := RunRest(s, src, compMap);
    LaterTransitive(old(s.tables), first, s.tables);
    var fetchErrors: nat :=
      (if src.incidents.failed then 1 else 0) + (if src.maintenances.failed then 1 else 0) +
      (if src.subscribers.failed then 1 else 0);
    report := Report(components, incidents, maintenances, subscribers, fetchErrors);
    if s.Clean(old(s.calls)) && DistinctExternals(src.components.items) {
      assert s.Clean(at);
      SettledStays(first, s.tables, src.components.items);
    }
  }

  /**
   Repeating an import changes nothing: after a run of either mode without a failing call (the calls up
   to `mid`), a skip-mode run on the same source leaves the tables as they are, whichever of its own
   calls fail.
   */
  method RunTwice(s: Store, src: Source, first: Mode) returns (ghost mid: nat, ghost once: Tables)
    requires Sound(s.tables) && !src.components.failed && DistinctExternals(src.components.items)
    modifies s
    ensures old(s.calls) <= mid <= s.calls
    ensures (forall n :: old(s.calls) <= n < mid ==> !s.fails(n)) ==> Settled(once, src) && s.tables == once
  {
    var done, report := Run(s, src, first);
    mid, once := s.calls, s.tables;
    assert (forall n :: old(s.calls) <= n < mid ==> !s.fails(n)) ==> s.Clean(old(s.calls));
    done, report := Run(s, src, SkipExisting);
  }
}
