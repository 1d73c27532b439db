/** The registry as an object: its maps are updated in place under one lock, and every method
    is proved to make exactly the step of `PaneRegistry` and to keep the invariant. */
module PaneRegistryService {
  import opened Basics
  import opened PaneRegistry
  import opened PaneRegistryInvariant
  import opened PaneRegistryRows
  import opened PaneRegistryOperations
  import opened PaneRegistryRuns
  import opened PaneRegistrySaves

  // ---------- What the restart's loops have done so far ----------

  ghost predicate SessionsLoaded(r: Registry, rows: Rows, seen: set<string>) {
    && (forall s :: s in r.sessions <==> s in seen)
    && (forall s :: s in seen ==>
          s in rows.sessions && s != "" && rows.sessions[s].id == s && r.sessions[s] == Session(s, map[], rows.sessions[s].createdAt))
  }

  ghost predicate TabLoaded(r: Registry, rows: Rows, seen: set<string>, s: SessionId, t: TabId) {
    && (HasTab(r, s, t) <==> TabStorageId(s, t) in seen)
    && (HasTab(r, s, t) ==>
          && TabStorageId(s, t) in rows.tabs && t != ""
          && r.sessions[s].tabs[t].panes == map[] && RowOfTab(s, r.sessions[s].tabs[t]) == rows.tabs[TabStorageId(s, t)]
          && r.sessions[s].tabs[t].id == t)
  }

  ghost predicate TabRowOk(rows: Rows, k: string) {
    k in rows.tabs && rows.tabs[k].parent in rows.sessions && rows.tabs[k].id != ""
    && TabStorageId(rows.tabs[k].parent, rows.tabs[k].id) == k
  }

  ghost predicate TabsLoaded(r: Registry, rows: Rows, seen: set<string>) {
    && SessionRowsOk(rows) && SessionsMirrored(rows, r) && (forall s :: s in r.sessions ==> r.sessions[s].id == s)
    && (forall s, t :: TabLoaded(r, rows, seen, s, t))
    && (forall k :: k in seen ==> TabRowOk(rows, k))
  }

  /** The panes read so far, in the tree and in the index. */
  ghost predicate PanesLoaded(r: Registry, rows: Rows, seen: set<string>, panes: map<PaneId, Pane>) {
    && Represents(r, panes) && LiveUnique(panes)
    && (forall p :: p in panes <==> p in seen)
    && (forall p :: p in seen ==> p in rows.panes && PaneRowOk(rows, p) && panes[p] == Stored(rows.panes[p].pane))
    && (forall p :: p in panes ==> panes[p].generation <= r.nextGeneration)
    && (r.nextGeneration == 0 || exists p :: p in panes && panes[p].generation == r.nextGeneration)
  }

  lemma SessionsAllLoaded(r: Registry, rows: Rows)
    requires SessionsLoaded(r, rows, rows.sessions.Keys)
    ensures TabsLoaded(r, rows, {})
  {
    hide TabStorageId;
    forall s, t ensures TabLoaded(r, rows, {}, s, t) {
    }
  }

  lemma TabLoads(r: Registry, rows: Rows, seen: set<string>, k: string)
    requires TabsLoaded(r, rows, seen) && k in rows.tabs && TabRowOk(rows, k)
    ensures var row := rows.tabs[k];
      && row.parent in r.sessions
      && TabsLoaded(SetTab(r, row.parent, row.id, Tab(row.id, row.name, map[], row.createdAt)), rows, seen + {k})
  {
    hide TabStorageId;
    var row := rows.tabs[k];
    var r1 := SetTab(r, row.parent, row.id, Tab(row.id, row.name, map[], row.createdAt));
    forall s, t ensures TabLoaded(r1, rows, seen + {k}, s, t) {
      assert TabLoaded(r, rows, seen, s, t);
      if TabStorageId(s, t) == k {
        TabStorageIdInjective(s, t, row.parent, row.id);
      }
    }
  }

  lemma TabsAllLoaded(r: Registry, rows: Rows)
    requires TabsLoaded(r, rows, rows.tabs.Keys) && r.locations == map[] && r.nextGeneration == 0
    ensures TabRowsOk(rows) && TabsMirrored(rows, r) && PanesLoaded(r, rows, {}, map[])
  {
    hide TabStorageId;
    forall s, t ensures TabMirrored(rows, r, s, t) && (HasTab(r, s, t) ==> t != "" && r.sessions[s].tabs[t].id == t && r.sessions[s].tabs[t].panes == map[]) {
      assert TabLoaded(r, rows, rows.tabs.Keys, s, t);
    }
    forall key ensures TabKeyOk(rows, key) {
    }
  }

  /** A pane of an acceptable row enters the tree and the index. */
  function Filled(r: Registry, pane: Pane): Registry
    requires HasTab(r, pane.session, pane.tab)
  {
    SetPane(r, Location(pane.session, pane.tab), pane.id, pane).(
      locations := r.locations[pane.id := Location(pane.session, pane.tab)],
      nextGeneration := if pane.generation > r.nextGeneration then pane.generation else r.nextGeneration)
  }

  lemma SameRepresents(r: Registry, r1: Registry, panes: map<PaneId, Pane>)
    requires Represents(r, panes) && r1.sessions == r.sessions && r1.locations == r.locations
    ensures Represents(r1, panes)
  {
    SameTree(r, r1, panes);
  }

  ghost predicate FreeFor(panes: map<PaneId, Pane>, pane: Pane) {
    pane.zellij == "" || IsTerminal(pane.status) ||
    forall p :: p in panes && panes[p].session == pane.session && panes[p].zellij == pane.zellij ==> IsTerminal(panes[p].status)
  }

  lemma PaneLoads(r: Registry, rows: Rows, seen: set<string>, panes: map<PaneId, Pane>, k: string)
    requires PanesLoaded(r, rows, seen, panes) && SessionsMirrored(rows, r) && TabsMirrored(rows, r)
    requires SessionRowsOk(rows) && TabRowsOk(rows)
    requires k in rows.panes && k !in seen && PaneRowOk(rows, k) && FreeFor(panes, rows.panes[k].pane)
    ensures var pane := Stored(rows.panes[k].pane);
      HasTab(r, pane.session, pane.tab) && PanesLoaded(Filled(r, pane), rows, seen + {k}, panes[k := pane])
  {
    hide TabStorageId, Represents, LiveUnique, FreeFor, Filled, TabsMirrored, Clash;
    var pane := Stored(rows.panes[k].pane);
    RowHasTab(rows, r, k);
    FreeStored(panes, rows.panes[k].pane);
    FilledTree(r, panes, pane);
    FilledUnique(panes, pane);
    FilledCounter(r, panes, pane);
  }

  lemma RowHasTab(rows: Rows, r: Registry, k: string)
    requires TabsMirrored(rows, r) && k in rows.panes && PaneRowOk(rows, k)
    ensures HasTab(r, rows.panes[k].pane.session, rows.panes[k].pane.tab)
  {
    hide TabStorageId;
    assert TabMirrored(rows, r, rows.panes[k].pane.session, rows.panes[k].pane.tab);
  }

  lemma FreeStored(panes: map<PaneId, Pane>, pane: Pane)
    requires FreeFor(panes, pane)
    ensures FreeFor(panes, Stored(pane))
  {
  }

  lemma FilledTree(r: Registry, panes: map<PaneId, Pane>, pane: Pane)
    requires Represents(r, panes) && HasTab(r, pane.session, pane.tab) && pane.id !in panes && pane.id != ""
    ensures Represents(Filled(r, pane), panes[pane.id := pane])
  {
    NotEmpty(r, pane.session, pane.tab);
    AdmitKeeps(r, panes, pane);
    SameRepresents(Admit(r, pane), Filled(r, pane), panes[pane.id := pane]);
  }

  lemma NotEmpty(r: Registry, s: SessionId, t: TabId)
    requires NamesOk(r) && HasTab(r, s, t)
    ensures s != "" && t != ""
  {
  }

  lemma FilledUnique(panes: map<PaneId, Pane>, pane: Pane)
    requires LiveUnique(panes) && FreeFor(panes, pane) && pane.id !in panes
    ensures LiveUnique(panes[pane.id := pane])
  {
    var panes1 := panes[pane.id := pane];
    forall p, q | p in panes1 && q in panes1 && Clash(panes1[p], panes1[q]) ensures p == q {
      if p != pane.id && q != pane.id {
        assert Clash(panes[p], panes[q]);
      }
    }
  }

  lemma FilledCounter(r: Registry, panes: map<PaneId, Pane>, pane: Pane)
    requires HasTab(r, pane.session, pane.tab) && pane.id !in panes
    requires forall p :: p in panes ==> panes[p].generation <= r.nextGeneration
    requires r.nextGeneration == 0 || exists p :: p in panes && panes[p].generation == r.nextGeneration
    ensures var r1, panes1 := Filled(r, pane), panes[pane.id := pane];
      && (forall p :: p in panes1 ==> panes1[p].generation <= r1.nextGeneration)
      && (r1.nextGeneration == 0 || exists p :: p in panes1 && panes1[p].generation == r1.nextGeneration)
  {
    var panes1 := panes[pane.id := pane];
    if pane.generation > r.nextGeneration {
      assert panes1[pane.id].generation == pane.generation;
    } else if r.nextGeneration != 0 {
      var p :| p in panes && panes[p].generation == r.nextGeneration;
      assert panes1[p].generation == r.nextGeneration;
    }
  }

  /** The newest pane with each Zellij pane ID among those seen so far. */
  ghost predicate LatestOfSeen(panes: map<PaneId, Pane>, latest: map<ZellijId, PaneId>, seen: set<PaneId>) {
    && (forall z :: z in latest ==> z != "" && latest[z] in seen && latest[z] in panes && panes[latest[z]].zellij == z)
    && (forall p :: p in seen && p in panes && panes[p].zellij != "" ==>
          panes[p].zellij in latest && latest[panes[p].zellij] in panes && panes[p].generation <= panes[latest[panes[p].zellij]].generation)
  }

  lemma NotFreeClashes(rows: Rows, panes: map<PaneId, Pane>, seen: set<string>, k: string)
    requires k in rows.panes && k !in seen && !FreeFor(panes, rows.panes[k].pane)
    requires forall p :: p in panes <==> p in seen
    requires forall p :: p in seen ==> p in rows.panes && panes[p] == Stored(rows.panes[p].pane)
    ensures !RowsOk(rows)
  {
    var pane := rows.panes[k].pane;
    var p :| p in panes && panes[p].session == pane.session && panes[p].zellij == pane.zellij && !IsTerminal(panes[p].status);
    assert Clash(rows.panes[p].pane, rows.panes[k].pane);
  }

  lemma FreeIff(r: Registry, panes: map<PaneId, Pane>, pane: Pane)
    requires Represents(r, panes)
    ensures FreeFor(panes, pane) <==> pane.zellij == "" || IsTerminal(pane.status) || !IsHeld(r, pane.session, pane.zellij)
  {
    PanesAreRepresented(r, panes);
    HeldIff(r, pane.session, pane.zellij);
  }

  lemma SessionsKnown(r: Registry, rows: Rows, seen: set<string>, s: SessionId)
    requires TabsLoaded(r, rows, seen)
    ensures (s in r.sessions <==> s in rows.sessions) && (s in r.sessions ==> r.sessions[s].id == s)
  {
  }

  lemma TabsAccepted(r: Registry, rows: Rows)
    requires TabsLoaded(r, rows, rows.tabs.Keys)
    ensures TabRowsOk(rows)
  {
    hide TabStorageId;
  }

  lemma TabsLoadedFacts(r: Registry, rows: Rows)
    requires TabsLoaded(r, rows, rows.tabs.Keys)
    ensures SessionRowsOk(rows) && SessionsMirrored(rows, r)
  {
  }

  lemma TabKnown(rows: Rows, r: Registry, s: SessionId, t: TabId)
    requires TabsMirrored(rows, r) && SessionsMirrored(rows, r)
    ensures (s in rows.sessions && TabStorageId(s, t) in rows.tabs) <==> HasTab(r, s, t)
  {
    assert TabMirrored(rows, r, s, t);
  }

  lemma RefusedRow(rows: Rows, k: string)
    requires k in rows.panes && !PaneRowOk(rows, k)
    ensures !RowsOk(rows)
  {
  }

  lemma FreeAmongSeen(r: Registry, rows: Rows, seen: set<string>, panes: map<PaneId, Pane>, pane: Pane)
    requires PanesLoaded(r, rows, seen, panes)
    ensures FreeFor(panes, pane) <==> pane.zellij == "" || IsTerminal(pane.status) || !IsHeld(r, pane.session, pane.zellij)
  {
    FreeIff(r, panes, pane);
  }

  lemma ClashAmongSeen(r: Registry, rows: Rows, seen: set<string>, panes: map<PaneId, Pane>, k: string)
    requires PanesLoaded(r, rows, seen, panes) && k in rows.panes && k !in seen && !FreeFor(panes, rows.panes[k].pane)
    ensures !RowsOk(rows)
  {
    NotFreeClashes(rows, panes, seen, k);
  }

  lemma FilledMirrors(rows: Rows, r: Registry, pane: Pane)
    requires SessionsMirrored(rows, r) && TabsMirrored(rows, r) && HasTab(r, pane.session, pane.tab)
    ensures SessionsMirrored(rows, Filled(r, pane)) && TabsMirrored(rows, Filled(r, pane))
  {
    PaneTouched(rows, rows, r, Location(pane.session, pane.tab), pane.id, pane, Filled(r, pane));
  }

  lemma PanesAccepted(r: Registry, rows: Rows, panes: map<PaneId, Pane>)
    requires PanesLoaded(r, rows, rows.panes.Keys, panes) && SessionRowsOk(rows) && TabRowsOk(rows)
    ensures RowsOk(rows)
  {
    hide TabStorageId, Represents, PaneRowOk;
    assert forall k, l :: k in panes && l in panes ==> (Clash(rows.panes[k].pane, rows.panes[l].pane) <==> Clash(panes[k], panes[l]));
  }

  lemma ResolvesLoaded(r: Registry, rows: Rows, panes: map<PaneId, Pane>, p: PaneId)
    requires PanesLoaded(r, rows, rows.panes.Keys, panes) && p in r.locations
    ensures p in panes && Resolve(r, p) == Some(panes[p])
  {
    PanesAreRepresented(r, panes);
    ResolvesAll(r, p);
  }

  ghost predicate FindsAll(r: Registry, panes: map<PaneId, Pane>) {
    forall p :: p in panes ==> Resolve(r, p) == Some(panes[p])
  }

  lemma AllFound(r: Registry, rows: Rows, panes: map<PaneId, Pane>, r1: Registry)
    requires PanesLoaded(r, rows, rows.panes.Keys, panes) && r1.sessions == r.sessions && r1.locations == r.locations
    ensures FindsAll(r1, panes)
  {
    hide TabStorageId, LiveUnique, PaneRowOk;
    SameRepresents(r, r1, panes);
    PanesAreRepresented(r1, panes);
    forall p | p in panes ensures Resolve(r1, p) == Some(panes[p]) {
      ResolvesAll(r1, p);
    }
  }

  lemma NothingSeen(panes: map<PaneId, Pane>)
    ensures LatestOfSeen(panes, map[], {})
  {
  }

  lemma SeenAll(r: Registry, rows: Rows, panes: map<PaneId, Pane>, latest: map<ZellijId, PaneId>)
    requires PanesLoaded(r, rows, rows.panes.Keys, panes) && LatestOfSeen(panes, latest, r.locations.Keys)
    ensures LatestRebuilt(panes, latest)
  {
    forall z | z in latest ensures IsNewest(panes, latest[z]) {
    }
  }

  lemma LatestIsExtra(r: Registry, rows: Rows, panes: map<PaneId, Pane>, latest: map<ZellijId, PaneId>)
    requires PanesLoaded(r, rows, rows.panes.Keys, panes) && SessionsMirrored(rows, r) && TabsMirrored(rows, r)
    ensures var r1 := r.(latest := latest);
      PanesLoaded(r1, rows, rows.panes.Keys, panes) && SessionsMirrored(rows, r1) && TabsMirrored(rows, r1)
  {
    hide TabStorageId, LiveUnique, PaneRowOk;
    SameRepresents(r, r.(latest := latest), panes);
    SameMirrors(rows, r, r.(latest := latest));
  }

  lemma SameMirrors(rows: Rows, r: Registry, r1: Registry)
    requires SessionsMirrored(rows, r) && TabsMirrored(rows, r) && r1.sessions == r.sessions
    ensures SessionsMirrored(rows, r1) && TabsMirrored(rows, r1)
  {
    hide TabStorageId;
    forall s, t ensures TabMirrored(rows, r1, s, t) {
      assert TabMirrored(rows, r, s, t);
    }
  }

  lemma LoadedIsLoaded(r: Registry, rows: Rows, panes: map<PaneId, Pane>, r1: Registry)
    requires PanesLoaded(r, rows, rows.panes.Keys, panes) && SessionsMirrored(rows, r) && TabsMirrored(rows, r)
    requires LatestRebuilt(panes, r.latest)
    requires r1 == r.(nextGeneration := if StoredGeneration(rows) > r.nextGeneration then StoredGeneration(rows) else r.nextGeneration)
    ensures IsLoaded(rows, r1)
  {
    hide TabStorageId, LiveUnique, LatestRebuilt, PaneRowOk, Represents;
    SameRepresents(r, r1, panes);
    SameMirrors(rows, r, r1);
    PanesAreRepresented(r1, panes);
    assert GenerationMirrored(rows, panes, r1.nextGeneration);
  }

  class PaneTable {
    var sessions: map<SessionId, Session>
    var locations: map<PaneId, Location>
    var latest: map<ZellijId, PaneId>
    var nextGeneration: nat
    /** Every change that was handed to the writer. */
    var log: seq<Change>

    ghost function State(): Registry
      reads this
    {
      Registry(sessions, locations, latest, nextGeneration)
    }

    constructor ()
      ensures State() == EMPTY && log == [] && Inv(State())
    {
      EmptyRegistry();
      sessions, locations, latest, nextGeneration, log := map[], map[], map[], 0, [];
    }

    /** The fields and the log moved from `before` as the operation's result says. */
    twostate predicate Did(result: Result)
      reads this
    {
      State() == result.registry && log == old(log) + result.saves
    }

    method Save(at: Location, pane: Pane, deleted: bool)
      requires HasTab(State(), at.session, at.tab)
      modifies this`log
      ensures log == old(log) + Saves(State(), at, pane, deleted)
    {
      var session := sessions[at.session];
      var tab := session.tabs[at.tab];
      log := log + [
        PutSession(session.id, session.createdAt),
        PutTab(TabStorageId(session.id, tab.id), session.id, tab.id, tab.name, tab.createdAt),
        if deleted then DropPane(pane.id) else PutPane(pane.id, TabStorageId(session.id, tab.id), Stored(pane)),
        PutGeneration(nextGeneration)];
    }

    method Find(id: PaneId) returns (pane: Option<Pane>)
      ensures pane == Resolve(State(), id)
    {
      if id !in locations {
        return None;
      }
      var at := locations[id];
      if at.session !in sessions || at.tab !in sessions[at.session].tabs || id !in sessions[at.session].tabs[at.tab].panes {
        return None;
      }
      return Some(sessions[at.session].tabs[at.tab].panes[id]);
    }

    method WritePane(id: PaneId, pane: Pane)
      requires Resolve(State(), id).Some?
      modifies this`sessions
      ensures State() == SetPane(old(State()), old(locations[id]), id, pane)
    {
      var at := locations[id];
      var session := sessions[at.session];
      var tab := session.tabs[at.tab];
      tab := tab.(panes := tab.panes[id := pane]);
      session := session.(tabs := session.tabs[at.tab := tab]);
      sessions := sessions[at.session := session];
    }

    /** A live pane of the tab has this Zellij pane ID. */
    method HeldInTab(s: SessionId, t: TabId, z: ZellijId) returns (held: bool)
      requires HasTab(State(), s, t)
      ensures held <==> exists p :: p in sessions[s].tabs[t].panes && sessions[s].tabs[t].panes[p].zellij == z && !IsTerminal(sessions[s].tabs[t].panes[p].status)
    {
      var panes := sessions[s].tabs[t].panes;
      var ids := panes.Keys;
      while ids != {}
        invariant ids <= panes.Keys
        invariant forall p :: p in panes && p !in ids ==> panes[p].zellij != z || IsTerminal(panes[p].status)
        decreases |ids|
      {
        var p :| p in ids;
        if panes[p].zellij == z && !IsTerminal(panes[p].status) {
          return true;
        }
        ids := ids - {p};
      }
      return false;
    }

    method Held(s: SessionId, z: ZellijId) returns (held: bool)
      ensures held <==> IsHeld(State(), s, z)
    {
      if s !in sessions {
        return false;
      }
      var ids := sessions[s].tabs.Keys;
      while ids != {}
        invariant ids <= sessions[s].tabs.Keys
        invariant forall t, p :: InTree(State(), s, t, p) && t !in ids ==>
          PaneAt(State(), s, t, p).zellij != z || IsTerminal(PaneAt(State(), s, t, p).status)
        decreases |ids|
      {
        var t :| t in ids;
        assert HasTab(State(), s, t);
        var inTab := HeldInTab(s, t, z);
        if inTab {
          var p :| p in sessions[s].tabs[t].panes && sessions[s].tabs[t].panes[p].zellij == z && !IsTerminal(sessions[s].tabs[t].panes[p].status);
          assert InTree(State(), s, t, p);
          return true;
        }
        ids := ids - {t};
      }
      return false;
    }

    method RegisterPane(q: Request, now: int) returns (outcome: Outcome)
      requires Inv(State())
      modifies this
      ensures Did(Register(old(State()), q, now)) && outcome == Register(old(State()), q, now).outcome && Inv(State())
    {
      hide Inv, IsHeld, MakeRoom, Admit, Saves, WithDefaults;
      RegisterKeeps(State(), q, now);
      if !IsValid(q) {
        return InvalidRequest;
      }
      var pane := NewPane(q, nextGeneration + 1, now);
      if pane.id in locations {
        return AlreadyExists;
      }
      if pane.zellij != "" {
        var held := Held(pane.session, pane.zellij);
        if held {
          return ZellijTaken;
        }
      }
      Enter(pane, now);
      outcome := Done(pane, true);
    }

    /** The checks are passed: the pane takes its generation and enters the tree and the indexes. */
    method Enter(pane: Pane, now: int)
      requires pane.generation == nextGeneration + 1
      modifies this
      ensures HasTab(MakeRoom(old(State()), pane, now), pane.session, pane.tab)
      ensures State() == Admit(MakeRoom(old(State()), pane, now), pane)
      ensures HasTab(State(), pane.session, pane.tab)
      ensures log == old(log) + Saves(State(), Location(pane.session, pane.tab), pane, false)
    {
      hide MakeRoom, SetPane, TabStorageId, Stored;
      RoomKeepsIndexes(State(), pane, now);
      nextGeneration := nextGeneration + 1;
      SameCounter(old(State()), pane, now);
      Insert(pane, now);
      locations := locations[pane.id := Location(pane.session, pane.tab)];
      if pane.zellij != "" {
        latest := latest[pane.zellij := pane.id];
      }
      Save(Location(pane.session, pane.tab), pane, false);
    }

    method Insert(pane: Pane, now: int)
      modifies this`sessions
      ensures HasTab(MakeRoom(old(State()), pane, now), pane.session, pane.tab)
      ensures sessions == Admit(MakeRoom(old(State()), pane, now), pane).sessions
      ensures HasTab(State(), pane.session, pane.tab)
    {
      var session := if pane.session in sessions then sessions[pane.session] else Session(pane.session, map[], now);
      var tab: Tab;
      if pane.tab in session.tabs {
        tab := session.tabs[pane.tab];
        if tab.name == "" && pane.tabName != "" {
          tab := tab.(name := pane.tabName);
        }
      } else {
        tab := Tab(pane.tab, pane.tabName, map[], now);
      }
      tab := tab.(panes := tab.panes[pane.id := pane]);
      session := session.(tabs := session.tabs[pane.tab := tab]);
      sessions := sessions[pane.session := session];
      SameRoom(old(State()), pane, now, tab);
    }

    method WriteAndSave(id: PaneId, pane: Pane)
      requires Resolve(State(), id).Some?
      modifies this
      ensures forall flag :: Did(Replace(old(State()), id, pane, flag))
    {
      WritePane(id, pane);
      Save(locations[id], pane, false);
    }

    method SetStatus(id: PaneId, generation: nat, status: Status, message: string) returns (outcome: Outcome)
      modifies this
      ensures Did(UpdateStatus(old(State()), id, generation, status, message))
      ensures outcome == UpdateStatus(old(State()), id, generation, status, message).outcome
    {
      var found := Find(id);
      if found.None? {
        return NotFound;
      }
      var pane := found.value;
      if generation != 0 && pane.generation != generation {
        return Stale;
      }
      pane := pane.(status := status);
      pane := pane.(message := message);
      WriteAndSave(id, pane);
      outcome := Done(pane, true);
    }

    method SetActiveStatus(id: PaneId, generation: nat, status: Status, message: string) returns (outcome: Outcome)
      modifies this
      ensures Did(UpdateActiveStatus(old(State()), id, generation, status, message))
      ensures outcome == UpdateActiveStatus(old(State()), id, generation, status, message).outcome
    {
      var found := Find(id);
      if found.None? {
        return NotFound;
      }
      var pane := found.value;
      if generation != 0 && pane.generation != generation {
        return Stale;
      }
      if IsTerminal(pane.status) {
        return Done(pane, false);
      }
      pane := pane.(status := status);
      pane := pane.(message := message);
      WriteAndSave(id, pane);
      outcome := Done(pane, true);
    }

    method Claim(id: PaneId, generation: nat, status: Status, message: string) returns (outcome: Outcome)
      modifies this
      ensures Did(ClaimClosure(old(State()), id, generation, status, message))
      ensures outcome == ClaimClosure(old(State()), id, generation, status, message).outcome
    {
      var found := Find(id);
      if found.None? {
        return NotFound;
      }
      var pane := found.value;
      if generation != 0 && pane.generation != generation {
        return Stale;
      }
      if !IsTerminal(pane.status) {
        pane := pane.(status := status);
        pane := pane.(message := message);
      }
      var claimed := !pane.claimed;
      pane := pane.(claimed := true);
      WriteAndSave(id, pane);
      outcome := Done(pane, claimed);
    }

    method Instruct(id: PaneId, generation: nat, text: string) returns (outcome: Outcome)
      modifies this
      ensures Did(RecordInstruction(old(State()), id, generation, text))
      ensures outcome == RecordInstruction(old(State()), id, generation, text).outcome
    {
      var found := Find(id);
      if found.None? {
        return NotFound;
      }
      var pane := found.value;
      if pane.generation != generation {
        return Stale;
      }
      pane := pane.(lastInstruction := text);
      WriteAndSave(id, pane);
      outcome := Done(pane, true);
    }

    method SetOutput(id: PaneId, generation: nat, output: string, activeOnly: bool) returns (outcome: Outcome)
      modifies this
      ensures Did(UpdateOutput(old(State()), id, generation, output, activeOnly))
      ensures outcome == UpdateOutput(old(State()), id, generation, output, activeOnly).outcome
    {
      var found := Find(id);
      if found.None? {
        return NotFound;
      }
      var pane := found.value;
      if generation != 0 && pane.generation != generation {
        return Stale;
      }
      if activeOnly && IsTerminal(pane.status) {
        return Done(pane, false);
      }
      pane := pane.(lastOutput := output);
      WritePane(id, pane);
      outcome := Done(pane, true);
    }

    method RemovePane(id: PaneId, generation: nat, claiming: bool) returns (outcome: Outcome)
      modifies this
      ensures Did(Remove(old(State()), id, generation, claiming))
      ensures outcome == Remove(old(State()), id, generation, claiming).outcome
    {
      var found := Find(id);
      if found.None? {
        return NotFound;
      }
      var pane := found.value;
      if generation != 0 && pane.generation != generation {
        return Stale;
      }
      var at := locations[id];
      var session := sessions[at.session];
      var tab := session.tabs[at.tab];
      tab := tab.(panes := tab.panes - {pane.id});
      session := session.(tabs := session.tabs[at.tab := tab]);
      sessions := sessions[at.session := session];
      assert sessions == DeletePane(old(State()), at, pane.id).sessions;
      Save(at, pane, true);
      locations := locations - {pane.id};
      if pane.zellij != "" && pane.zellij in latest && latest[pane.zellij] == pane.id {
        latest := latest - {pane.zellij};
      }
      outcome := Done(pane.(claimed := pane.claimed || claiming), claiming && !pane.claimed);
    }

    // ---------- Restart ----------

    method LoadSessions(rows: Rows) returns (ok: bool)
      requires State() == EMPTY
      modifies this`sessions
      ensures ok <==> SessionRowsOk(rows)
      ensures ok ==> SessionsLoaded(State(), rows, rows.sessions.Keys)
    {
      var left := rows.sessions.Keys;
      while left != {}
        invariant left <= rows.sessions.Keys
        invariant SessionsLoaded(State(), rows, rows.sessions.Keys - left)
        decreases |left|
      {
        var k :| k in left;
        var row := rows.sessions[k];
        if row.id == "" || row.id != k {
          return false;
        }
        sessions := sessions[row.id := Session(row.id, map[], row.createdAt)];
        left := left - {k};
      }
      assert rows.sessions.Keys - left == rows.sessions.Keys;
      return true;
    }

    method LoadTabs(rows: Rows) returns (ok: bool)
      requires TabsLoaded(State(), rows, {})
      modifies this`sessions
      ensures ok <==> TabRowsOk(rows)
      ensures ok ==> TabsLoaded(State(), rows, rows.tabs.Keys)
    {
      hide TabStorageId, TabsLoaded;
      var left := rows.tabs.Keys;
      assert rows.tabs.Keys - left == {};
      while left != {}
        invariant left <= rows.tabs.Keys
        invariant TabsLoaded(State(), rows, rows.tabs.Keys - left)
        decreases |left|
      {
        var k :| k in left;
        var row := rows.tabs[k];
        SessionsKnown(State(), rows, rows.tabs.Keys - left, row.parent);
        if row.parent !in sessions || row.id == "" || TabStorageId(sessions[row.parent].id, row.id) != k {
          return false;
        }
        TabLoads(State(), rows, rows.tabs.Keys - left, k);
        var session := sessions[row.parent];
        session := session.(tabs := session.tabs[row.id := Tab(row.id, row.name, map[], row.createdAt)]);
        sessions := sessions[row.parent := session];
        assert rows.tabs.Keys - left + {k} == rows.tabs.Keys - (left - {k});
        left := left - {k};
      }
      assert rows.tabs.Keys - left == rows.tabs.Keys;
      TabsAccepted(State(), rows);
      return true;
    }

    method LoadPanes(rows: Rows) returns (ok: bool, ghost panes: map<PaneId, Pane>)
      requires PanesLoaded(State(), rows, {}, map[])
      requires SessionRowsOk(rows) && TabRowsOk(rows) && SessionsMirrored(rows, State()) && TabsMirrored(rows, State())
      modifies this`sessions, this`locations, this`nextGeneration
      ensures ok <==> RowsOk(rows)
      ensures ok ==> PanesLoaded(State(), rows, rows.panes.Keys, panes) && SessionsMirrored(rows, State()) && TabsMirrored(rows, State())
    {
      hide TabStorageId, PanesLoaded, TabsMirrored, SessionsMirrored, FreeFor, IsHeld, Filled, PaneRowOk, RowsOk, SessionRowsOk, TabRowsOk;
      var left := rows.panes.Keys;
      panes := map[];
      assert rows.panes.Keys - left == {};
      while left != {}
        invariant left <= rows.panes.Keys
        invariant PanesLoaded(State(), rows, rows.panes.Keys - left, panes)
        invariant SessionsMirrored(rows, State()) && TabsMirrored(rows, State())
        decreases |left|
      {
        ghost var seen := rows.panes.Keys - left;
        var k :| k in left;
        var pane := rows.panes[k].pane;
        var fits := RowFits(rows, k);
        if !fits {
          RefusedRow(rows, k);
          return false, panes;
        }
        var held := false;
        if pane.zellij != "" {
          held := Held(pane.session, pane.zellij);
        }
        FreeAmongSeen(State(), rows, seen, panes, pane);
        if held && !IsTerminal(pane.status) {
          ClashAmongSeen(State(), rows, seen, panes, k);
          return false, panes;
        }
        PaneLoads(State(), rows, seen, panes, k);
        FilledMirrors(rows, State(), Stored(pane));
        Fill(Stored(pane));
        panes := panes[k := Stored(pane)];
        assert seen + {k} == rows.panes.Keys - (left - {k});
        left := left - {k};
      }
      assert rows.panes.Keys - left == rows.panes.Keys;
      PanesAccepted(State(), rows, panes);
      return true, panes;
    }

    /** The row names a loaded tab and itself. */
    method RowFits(rows: Rows, k: string) returns (ok: bool)
      requires k in rows.panes && SessionsMirrored(rows, State()) && TabsMirrored(rows, State())
      ensures ok <==> PaneRowOk(rows, k)
    {
      hide TabStorageId, TabsMirrored;
      var row := rows.panes[k];
      var pane := row.pane;
      TabKnown(rows, State(), pane.session, pane.tab);
      if pane.session !in sessions || pane.tab !in sessions[pane.session].tabs {
        return false;
      }
      return pane.id != "" && pane.id == k && pane.generation != 0 && row.parent == TabStorageId(pane.session, pane.tab);
    }

    method Fill(pane: Pane)
      requires HasTab(State(), pane.session, pane.tab)
      modifies this`sessions, this`locations, this`nextGeneration
      ensures State() == Filled(old(State()), pane)
    {
      var session := sessions[pane.session];
      var tab := session.tabs[pane.tab];
      tab := tab.(panes := tab.panes[pane.id := pane]);
      session := session.(tabs := session.tabs[pane.tab := tab]);
      sessions := sessions[pane.session := session];
      locations := locations[pane.id := Location(pane.session, pane.tab)];
      if pane.generation > nextGeneration {
        nextGeneration := pane.generation;
      }
    }

    /** The pane takes the index entry unless that has a pane at least as new. */
    method IndexPane(p: PaneId, ghost panes: map<PaneId, Pane>, ghost seen: set<PaneId>)
      requires FindsAll(State(), panes) && p in panes && LatestOfSeen(panes, latest, seen)
      modifies this`latest
      ensures LatestOfSeen(panes, latest, seen + {p})
    {
      var found := Find(p);
      var pane := found.value;
      if pane.zellij == "" {
        return;
      }
      if pane.zellij !in latest {
        latest := latest[pane.zellij := p];
        return;
      }
      var previous := Find(latest[pane.zellij]);
      if previous.None? || previous.value.generation < pane.generation {
        latest := latest[pane.zellij := p];
      }
    }

    /** The index of Zellij panes, built from all panes in some order. */
    method RebuildLatest(rows: Rows, ghost panes: map<PaneId, Pane>)
      requires PanesLoaded(State(), rows, rows.panes.Keys, panes) && latest == map[]
      modifies this`latest
      ensures LatestRebuilt(panes, latest)
    {
      hide PanesLoaded, LatestOfSeen, FindsAll, LatestRebuilt;
      ghost var before := State();
      var left := locations.Keys;
      assert locations.Keys - left == {};
      NothingSeen(panes);
      while left != {}
        invariant left <= locations.Keys
        invariant LatestOfSeen(panes, latest, locations.Keys - left)
        decreases |left|
      {
        var p :| p in left;
        ResolvesLoaded(before, rows, panes, p);
        AllFound(before, rows, panes, State());
        IndexPane(p, panes, locations.Keys - left);
        assert locations.Keys - left + {p} == locations.Keys - (left - {p});
        left := left - {p};
      }
      assert locations.Keys - left == locations.Keys;
      SeenAll(before, rows, panes, latest);
    }

    /** The whole restart: it succeeds exactly on acceptable rows. */
    method Load(rows: Rows) returns (ok: bool)
      requires State() == EMPTY
      modifies this
      ensures ok <==> RowsOk(rows)
      ensures ok ==> IsLoaded(rows, State())
    {
      hide TabStorageId, PanesLoaded, TabsLoaded, SessionsLoaded, TabsMirrored, SessionsMirrored, TabRowsOk, SessionRowsOk, IsLoaded, LatestRebuilt;
      ok := LoadSessions(rows);
      if !ok {
        return;
      }
      SessionsAllLoaded(State(), rows);
      ok := LoadTabs(rows);
      if !ok {
        return;
      }
      TabsAllLoaded(State(), rows);
      TabsLoadedFacts(State(), rows);
      ghost var panes;
      ok, panes := LoadPanes(rows);
      if !ok {
        return;
      }
      RebuildLatest(rows, panes);
      LatestIsExtra(State().(latest := map[]), rows, panes, latest);
      ghost var before := State();
      if rows.generation.Some? && rows.generation.value > nextGeneration {
        nextGeneration := rows.generation.value;
      }
      LoadedIsLoaded(before, rows, panes, State());
    }
  }

  lemma SameCounter(r: Registry, pane: Pane, now: int)
    ensures var r1 := r.(nextGeneration := r.nextGeneration + 1);
      && MakeRoom(r1, pane, now).sessions == MakeRoom(r, pane, now).sessions
      && (HasTab(MakeRoom(r, pane, now), pane.session, pane.tab) <==> HasTab(MakeRoom(r1, pane, now), pane.session, pane.tab))
      && (HasTab(MakeRoom(r, pane, now), pane.session, pane.tab) ==>
            Admit(MakeRoom(r1, pane, now), pane).sessions == Admit(MakeRoom(r, pane, now), pane).sessions)
  {
  }

  /** The tab and the session as the registration writes them. */
  lemma SameRoom(r: Registry, pane: Pane, now: int, tab: Tab)
    requires tab == (
      var before := if HasTab(r, pane.session, pane.tab) then r.sessions[pane.session].tabs[pane.tab] else Tab(pane.tab, pane.tabName, map[], now);
      before.(name := if before.name == "" && pane.tabName != "" then pane.tabName else before.name,
              panes := before.panes[pane.id := pane]))
    ensures HasTab(MakeRoom(r, pane, now), pane.session, pane.tab)
    ensures var session := if pane.session in r.sessions then r.sessions[pane.session] else Session(pane.session, map[], now);
      Admit(MakeRoom(r, pane, now), pane).sessions == r.sessions[pane.session := session.(tabs := session.tabs[pane.tab := tab])]
  {
    var session := if pane.session in r.sessions then r.sessions[pane.session] else Session(pane.session, map[], now);
    var written := Admit(MakeRoom(r, pane, now), pane).sessions;
    assert EnsureSession(r, pane.session, now).sessions[pane.session] == session;
    assert written[pane.session].tabs[pane.tab] == tab;
    assert written[pane.session].tabs == session.tabs[pane.tab := tab];
    assert written[pane.session] == session.(tabs := session.tabs[pane.tab := tab]);
  }
}
