/** What every operation of the registry keeps: the indexes match the tree, generations are
    distinct, and live panes of one session have different Zellij pane IDs. */
module PaneRegistryInvariant {
  import opened PaneRegistry

  /** Every session and tab is filed under its own, non-empty name. */
  ghost predicate NamesOk(r: Registry) {
    && (forall s :: s in r.sessions ==> s != "" && r.sessions[s].id == s)
    && (forall s, t :: HasTab(r, s, t) ==> t != "" && r.sessions[s].tabs[t].id == t)
  }

  /** The tree holds exactly these panes, each in the session and the tab that it names. */
  ghost predicate Holds(r: Registry, panes: map<PaneId, Pane>) {
    forall s, t, p ::
      && (InTree(r, s, t, p) <==> p in panes && panes[p].session == s && panes[p].tab == t)
      && (InTree(r, s, t, p) ==> PaneAt(r, s, t, p) == panes[p])
  }

  ghost predicate IdsOk(panes: map<PaneId, Pane>) {
    forall p :: p in panes ==> p != "" && panes[p].id == p && panes[p].session != "" && panes[p].tab != ""
  }

  /** The location index is exactly the index of these panes. */
  ghost predicate Indexes(locations: map<PaneId, Location>, panes: map<PaneId, Pane>) {
    && (forall p :: p in locations <==> p in panes)
    && (forall p :: p in panes ==> locations[p] == Location(panes[p].session, panes[p].tab))
  }

  /** The tree holds exactly these panes, and the location index is exactly its index. */
  ghost predicate Represents(r: Registry, panes: map<PaneId, Pane>) {
    NamesOk(r) && Holds(r, panes) && IdsOk(panes) && Indexes(r.locations, panes)
  }

  /** All panes of the tree by ID. */
  ghost function Panes(r: Registry): map<PaneId, Pane> {
    if exists panes :: Represents(r, panes) then (var panes :| Represents(r, panes); panes) else map[]
  }

  lemma PanesAreRepresented(r: Registry, panes: map<PaneId, Pane>)
    requires Represents(r, panes)
    ensures Panes(r) == panes
  {
    SamePanes(r, Panes(r), panes);
  }

  lemma SamePanes(r: Registry, a: map<PaneId, Pane>, b: map<PaneId, Pane>)
    requires Represents(r, a) && Represents(r, b)
    ensures a == b
  {
    forall p | p in r.locations ensures a[p] == b[p] {
      assert InTree(r, r.locations[p].session, r.locations[p].tab, p);
    }
  }

  ghost predicate GenerationsOk(panes: map<PaneId, Pane>, next: nat) {
    && (forall p :: p in panes ==> 0 < panes[p].generation <= next)
    && (forall p, q :: p in panes && q in panes && panes[p].generation == panes[q].generation ==> p == q)
  }

  /** Both are alive and are the same Zellij pane. */
  predicate Clash(a: Pane, b: Pane) {
    && a.session == b.session && a.zellij == b.zellij != ""
    && !IsTerminal(a.status) && !IsTerminal(b.status)
  }

  ghost predicate LiveUnique(panes: map<PaneId, Pane>) {
    forall p, q :: p in panes && q in panes && Clash(panes[p], panes[q]) ==> p == q
  }

  /** The pane has the highest generation of all with its Zellij pane ID. */
  ghost predicate IsNewest(panes: map<PaneId, Pane>, p: PaneId) {
    p in panes && forall q :: q in panes && panes[q].zellij == panes[p].zellij ==> panes[q].generation <= panes[p].generation
  }

  ghost predicate LatestOk(panes: map<PaneId, Pane>, latest: map<ZellijId, PaneId>) {
    forall z :: z in latest ==> z != "" && IsNewest(panes, latest[z]) && panes[latest[z]].zellij == z
  }

  /** All but the uniqueness of live panes. */
  ghost predicate Sound(r: Registry) {
    && Represents(r, Panes(r))
    && GenerationsOk(Panes(r), r.nextGeneration)
    && LatestOk(Panes(r), r.latest)
  }

  ghost predicate Inv(r: Registry) {
    Sound(r) && LiveUnique(Panes(r))
  }

  // ---------- What the parts of an operation do to the tree ----------

  lemma EnsureSessionKeeps(r: Registry, panes: map<PaneId, Pane>, s: SessionId, now: int)
    requires NamesOk(r) && Holds(r, panes) && s != ""
    ensures var r1 := EnsureSession(r, s, now);
      NamesOk(r1) && Holds(r1, panes)
  {
    var r1 := EnsureSession(r, s, now);
    forall x, t ensures HasTab(r1, x, t) == HasTab(r, x, t) {
    }
    forall x, t, p ensures InTree(r1, x, t, p) == InTree(r, x, t, p) {
    }
  }

  /** Writing a tab with the panes that it has, or a new one without panes. */
  lemma SetTabKeeps(r: Registry, panes: map<PaneId, Pane>, s: SessionId, t: TabId, tab: Tab)
    requires NamesOk(r) && Holds(r, panes) && s in r.sessions && t != "" && tab.id == t
    requires tab.panes == if HasTab(r, s, t) then r.sessions[s].tabs[t].panes else map[]
    ensures var r1 := SetTab(r, s, t, tab);
      NamesOk(r1) && Holds(r1, panes) && HasTab(r1, s, t)
  {
    var r1 := SetTab(r, s, t, tab);
    forall x, y ensures HasTab(r1, x, y) == (HasTab(r, x, y) || (x == s && y == t)) {
    }
    forall x, y, p
      ensures InTree(r1, x, y, p) == InTree(r, x, y, p)
      ensures InTree(r1, x, y, p) ==> PaneAt(r1, x, y, p) == PaneAt(r, x, y, p)
    {
    }
  }

  lemma NameOf(r: Registry, s: SessionId, t: TabId)
    requires NamesOk(r) && HasTab(r, s, t)
    ensures r.sessions[s].id == s && r.sessions[s].tabs[t].id == t
  {
  }

  lemma IdOf(panes: map<PaneId, Pane>, id: PaneId)
    requires IdsOk(panes) && id in panes
    ensures panes[id].id == id
  {
  }

  lemma EnsureTabKeeps(r: Registry, panes: map<PaneId, Pane>, s: SessionId, t: TabId, name: string, now: int)
    requires NamesOk(r) && Holds(r, panes) && s in r.sessions && t != ""
    ensures var r1 := EnsureTab(r, s, t, name, now);
      NamesOk(r1) && Holds(r1, panes) && HasTab(r1, s, t)
  {
    hide NamesOk, Holds;
    if t in r.sessions[s].tabs {
      assert HasTab(r, s, t);
      NameOf(r, s, t);
      var tab := r.sessions[s].tabs[t];
      SetTabKeeps(r, panes, s, t, if tab.name == "" && name != "" then tab.(name := name) else tab);
    } else {
      SetTabKeeps(r, panes, s, t, Tab(t, name, map[], now));
    }
  }

  lemma MakeRoomKeeps(r: Registry, panes: map<PaneId, Pane>, pane: Pane, now: int)
    requires NamesOk(r) && Holds(r, panes) && pane.session != "" && pane.tab != ""
    ensures var r1 := MakeRoom(r, pane, now);
      NamesOk(r1) && Holds(r1, panes) && HasTab(r1, pane.session, pane.tab)
  {
    hide NamesOk, Holds;
    EnsureSessionKeeps(r, panes, pane.session, now);
    EnsureTabKeeps(EnsureSession(r, pane.session, now), panes, pane.session, pane.tab, pane.tabName, now);
  }

  lemma SetPaneNames(r: Registry, at: Location, id: PaneId, pane: Pane)
    requires NamesOk(r) && HasTab(r, at.session, at.tab)
    ensures NamesOk(SetPane(r, at, id, pane))
  {
    var r1 := SetPane(r, at, id, pane);
    forall s, t | HasTab(r1, s, t) ensures t != "" && r1.sessions[s].tabs[t].id == t {
      assert HasTab(r, s, t);
    }
  }

  lemma SetPaneHolds(r: Registry, panes: map<PaneId, Pane>, id: PaneId, pane: Pane)
    requires Holds(r, panes) && HasTab(r, pane.session, pane.tab)
    requires id in panes ==> panes[id].session == pane.session && panes[id].tab == pane.tab
    ensures Holds(SetPane(r, Location(pane.session, pane.tab), id, pane), panes[id := pane])
  {
    var r1 := SetPane(r, Location(pane.session, pane.tab), id, pane);
    forall s, t, p
      ensures InTree(r1, s, t, p) <==> InTree(r, s, t, p) || (s == pane.session && t == pane.tab && p == id)
      ensures InTree(r1, s, t, p) ==> PaneAt(r1, s, t, p) == if s == pane.session && t == pane.tab && p == id then pane else PaneAt(r, s, t, p)
    {
    }
  }

  lemma AdmitKeeps(r: Registry, panes: map<PaneId, Pane>, pane: Pane)
    requires Represents(r, panes) && HasTab(r, pane.session, pane.tab)
    requires pane.id !in panes && pane.id != "" && pane.session != "" && pane.tab != ""
    ensures Represents(Admit(r, pane), panes[pane.id := pane])
  {
    var at := Location(pane.session, pane.tab);
    SetPaneNames(r, at, pane.id, pane);
    SetPaneHolds(r, panes, pane.id, pane);
    SameTree(SetPane(r, at, pane.id, pane), Admit(r, pane), panes[pane.id := pane]);
  }

  lemma SameTree(r: Registry, r1: Registry, panes: map<PaneId, Pane>)
    requires NamesOk(r) && Holds(r, panes) && r1.sessions == r.sessions
    ensures NamesOk(r1) && Holds(r1, panes)
  {
    forall s, t ensures HasTab(r1, s, t) == HasTab(r, s, t) {
    }
    forall s, t, p ensures InTree(r1, s, t, p) == InTree(r, s, t, p) {
    }
  }

  lemma ReplaceKeeps(r: Registry, panes: map<PaneId, Pane>, id: PaneId, pane: Pane)
    requires Represents(r, panes) && id in panes && pane.id == id
    requires pane.session == panes[id].session && pane.tab == panes[id].tab
    ensures HasTab(r, pane.session, pane.tab)
    ensures Represents(SetPane(r, r.locations[id], id, pane), panes[id := pane])
  {
    assert InTree(r, pane.session, pane.tab, id);
    SetPaneNames(r, r.locations[id], id, pane);
    SetPaneHolds(r, panes, id, pane);
  }

  lemma DeleteKeeps(r: Registry, panes: map<PaneId, Pane>, id: PaneId, latest: map<ZellijId, PaneId>)
    requires Represents(r, panes) && id in panes
    ensures HasTab(r, r.locations[id].session, r.locations[id].tab)
    ensures Represents(DeletePane(r, r.locations[id], id).(locations := r.locations - {id}, latest := latest), panes - {id})
  {
    var at := r.locations[id];
    assert InTree(r, at.session, at.tab, id);
    var r1 := DeletePane(r, at, id).(locations := r.locations - {id}, latest := latest);
    forall s, t ensures HasTab(r1, s, t) == HasTab(r, s, t) {
    }
    forall s, t, p
      ensures InTree(r1, s, t, p) <==> InTree(r, s, t, p) && p != id
      ensures InTree(r1, s, t, p) ==> PaneAt(r1, s, t, p) == PaneAt(r, s, t, p)
    {
    }
  }
}
