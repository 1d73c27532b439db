/** The registry's rows in the database, and what a restart makes of them. */
module PaneRegistryRows {
  import opened Basics
  import opened PaneRegistry
  import opened PaneRegistryInvariant

  datatype SessionRow = SessionRow(id: SessionId, createdAt: int)

  datatype TabRow = TabRow(parent: SessionId, id: TabId, name: string, createdAt: int)

  datatype PaneRow = PaneRow(parent: string, pane: Pane)

  datatype Rows = Rows(
    sessions: map<string, SessionRow>,
    tabs: map<string, TabRow>,
    panes: map<string, PaneRow>,
    generation: Option<nat>)

  const NO_ROWS := Rows(map[], map[], map[], None)

  function WriteRow(rows: Rows, c: Change): Rows {
    match c
    case PutSession(id, createdAt) => rows.(sessions := rows.sessions[id := SessionRow(id, createdAt)])
    case PutTab(key, parent, id, name, createdAt) => rows.(tabs := rows.tabs[key := TabRow(parent, id, name, createdAt)])
    case PutPane(id, parent, pane) => rows.(panes := rows.panes[id := PaneRow(parent, pane)])
    case DropPane(id) => rows.(panes := rows.panes - {id})
    case PutGeneration(generation) => rows.(generation := Some(generation))
  }

  function WriteRows(rows: Rows, cs: seq<Change>): Rows {
    if cs == [] then rows else WriteRow(WriteRows(rows, cs[..|cs| - 1]), cs[|cs| - 1])
  }

  // ---------- Keys of tab rows ----------

  /** No two tabs share a key, whatever characters their names have. */
  lemma TabStorageIdInjective(s: SessionId, t: TabId, s': SessionId, t': TabId)
    requires TabStorageId(s, t) == TabStorageId(s', t')
    ensures s == s' && t == t'
  {
    var key := TabStorageId(s, t);
    var a, b := Decimal(|s|), Decimal(|s'|);
    DecimalDigits(|s|);
    DecimalDigits(|s'|);
    assert key[|a|] == ':' && key[|b|] == ':';
    assert forall i :: 0 <= i < |a| ==> key[i] == a[i];
    assert forall i :: 0 <= i < |b| ==> key[i] == b[i];
    assert |a| == |b|;
    assert a == key[..|a|] == b;
    DecimalInjective(|s|, |s'|);
    assert s == key[|a| + 1..][..|s|] == s';
    assert t == key[|a| + 1..][|s|..] == t';
  }

  // ---------- Rows that mirror a registry ----------

  ghost predicate SessionsMirrored(rows: Rows, r: Registry) {
    && (forall s :: s in rows.sessions <==> s in r.sessions)
    && (forall s :: s in r.sessions ==> rows.sessions[s] == SessionRow(s, r.sessions[s].createdAt))
  }

  function RowOfTab(s: SessionId, tab: Tab): TabRow {
    TabRow(s, tab.id, tab.name, tab.createdAt)
  }

  ghost predicate TabMirrored(rows: Rows, r: Registry, s: SessionId, t: TabId) {
    && (HasTab(r, s, t) <==> TabStorageId(s, t) in rows.tabs)
    && (HasTab(r, s, t) ==> rows.tabs[TabStorageId(s, t)] == RowOfTab(s, r.sessions[s].tabs[t]))
  }

  predicate TabKeyOk(rows: Rows, key: string) {
    key in rows.tabs ==> key == TabStorageId(rows.tabs[key].parent, rows.tabs[key].id)
  }

  ghost predicate TabsMirrored(rows: Rows, r: Registry) {
    (forall s, t :: TabMirrored(rows, r, s, t)) && (forall key :: TabKeyOk(rows, key))
  }

  function RowOfPane(pane: Pane): PaneRow {
    PaneRow(TabStorageId(pane.session, pane.tab), Stored(pane))
  }

  ghost predicate PanesMirrored(rows: Rows, panes: map<PaneId, Pane>) {
    && (forall p :: p in rows.panes <==> p in panes)
    && (forall p :: p in panes ==> rows.panes[p] == RowOfPane(panes[p]))
  }

  function StoredGeneration(rows: Rows): nat {
    if rows.generation.Some? then rows.generation.value else 0
  }

  /** The stored counter may lag behind the newest pane's row. */
  ghost predicate GenerationMirrored(rows: Rows, panes: map<PaneId, Pane>, next: nat) {
    && StoredGeneration(rows) <= next
    && (StoredGeneration(rows) == next || exists p :: p in panes && panes[p].generation == next)
  }

  ghost predicate Mirrors(rows: Rows, r: Registry) {
    && SessionsMirrored(rows, r) && TabsMirrored(rows, r) && PanesMirrored(rows, Panes(r))
    && GenerationMirrored(rows, Panes(r), r.nextGeneration)
  }

  // ---------- The four changes of a save ----------

  lemma SessionWritten(rows: Rows, r: Registry, s: SessionId, now: int)
    requires SessionsMirrored(rows, r) && TabsMirrored(rows, r)
    ensures var r1 := EnsureSession(r, s, now);
      var rows1 := WriteRow(rows, PutSession(s, r1.sessions[s].createdAt));
      SessionsMirrored(rows1, r1) && TabsMirrored(rows1, r1)
  {
    hide TabStorageId;
    var r1 := EnsureSession(r, s, now);
    var rows1 := WriteRow(rows, PutSession(s, r1.sessions[s].createdAt));
    forall x, t ensures TabMirrored(rows1, r1, x, t) {
      assert TabMirrored(rows, r, x, t);
    }
    forall key ensures TabKeyOk(rows1, key) {
      assert TabKeyOk(rows, key);
    }
  }

  lemma TabWritten(rows: Rows, r: Registry, s: SessionId, t: TabId, tab: Tab)
    requires SessionsMirrored(rows, r) && TabsMirrored(rows, r) && s in r.sessions && tab.id == t
    ensures var r1 := SetTab(r, s, t, tab);
      var rows1 := WriteRow(rows, PutTab(TabStorageId(s, t), s, t, tab.name, tab.createdAt));
      SessionsMirrored(rows1, r1) && TabsMirrored(rows1, r1)
  {
    hide TabStorageId;
    var r1 := SetTab(r, s, t, tab);
    var rows1 := WriteRow(rows, PutTab(TabStorageId(s, t), s, t, tab.name, tab.createdAt));
    forall x, y ensures TabMirrored(rows1, r1, x, y) {
      assert TabMirrored(rows, r, x, y);
      if TabStorageId(x, y) == TabStorageId(s, t) {
        TabStorageIdInjective(x, y, s, t);
      }
    }
    forall key ensures TabKeyOk(rows1, key) {
      assert TabKeyOk(rows, key);
    }
  }

  lemma PaneWritten(rows: Rows, panes: map<PaneId, Pane>, pane: Pane)
    requires PanesMirrored(rows, panes)
    ensures PanesMirrored(WriteRow(rows, PutPane(pane.id, TabStorageId(pane.session, pane.tab), Stored(pane))), panes[pane.id := pane])
    ensures PanesMirrored(WriteRow(rows, DropPane(pane.id)), panes - {pane.id})
  {
  }

  // ---------- Restart ----------

  /** The panes of the rows. */
  ghost predicate AreLoaded(rows: Rows, panes: map<PaneId, Pane>) {
    && (forall p :: p in rows.panes <==> p in panes)
    && (forall p :: p in panes ==> panes[p] == Stored(rows.panes[p].pane))
  }

  /** The same panes without what is not stored. */
  ghost predicate AreStored(panes: map<PaneId, Pane>, stored: map<PaneId, Pane>) {
    && (forall p :: p in panes <==> p in stored)
    && (forall p :: p in panes ==> stored[p] == Stored(panes[p]))
  }

  ghost predicate SessionRowsOk(rows: Rows) {
    forall k :: k in rows.sessions ==> k != "" && rows.sessions[k].id == k
  }

  ghost predicate TabRowsOk(rows: Rows) {
    forall k :: k in rows.tabs ==>
      rows.tabs[k].parent in rows.sessions && rows.tabs[k].id != "" && TabStorageId(rows.tabs[k].parent, rows.tabs[k].id) == k
  }

  predicate PaneRowOk(rows: Rows, k: string)
    requires k in rows.panes
  {
    var pane := rows.panes[k].pane;
    && pane.session in rows.sessions && TabStorageId(pane.session, pane.tab) in rows.tabs
    && pane.id != "" && pane.id == k && pane.generation != 0
    && rows.panes[k].parent == TabStorageId(pane.session, pane.tab)
  }

  /** What the restart checks before it accepts the rows. */
  ghost predicate RowsOk(rows: Rows) {
    && SessionRowsOk(rows) && TabRowsOk(rows)
    && (forall k :: k in rows.panes ==> PaneRowOk(rows, k))
    && (forall k, l :: k in rows.panes && l in rows.panes && Clash(rows.panes[k].pane, rows.panes[l].pane) ==> k == l)
  }

  /** The rebuilt index knows every Zellij pane ID and prefers the highest generation. */
  ghost predicate LatestRebuilt(panes: map<PaneId, Pane>, latest: map<ZellijId, PaneId>) {
    && LatestOk(panes, latest)
    && (forall p :: p in panes && panes[p].zellij != "" ==> panes[p].zellij in latest)
  }

  /** `r` is what a restart makes of acceptable rows. */
  ghost predicate IsLoaded(rows: Rows, r: Registry) {
    && Represents(r, Panes(r)) && AreLoaded(rows, Panes(r))
    && SessionsMirrored(rows, r) && TabsMirrored(rows, r)
    && LatestRebuilt(Panes(r), r.latest)
    && GenerationMirrored(rows, Panes(r), r.nextGeneration)
    && (forall p :: p in Panes(r) ==> Panes(r)[p].generation <= r.nextGeneration)
  }

  lemma MirroredPanes(rows: Rows, panes: map<PaneId, Pane>, loaded: map<PaneId, Pane>)
    requires PanesMirrored(rows, panes) && AreLoaded(rows, loaded)
    ensures AreStored(panes, loaded)
  {
  }

  lemma SameClashes(panes: map<PaneId, Pane>, stored: map<PaneId, Pane>)
    requires AreStored(panes, stored)
    ensures LiveUnique(stored) <==> LiveUnique(panes)
  {
    if LiveUnique(stored) {
      forall p, q | p in panes && q in panes && Clash(panes[p], panes[q]) ensures p == q {
        assert Clash(stored[p], stored[q]);
      }
    }
    if LiveUnique(panes) {
      forall p, q | p in stored && q in stored && Clash(stored[p], stored[q]) ensures p == q {
        assert Clash(panes[p], panes[q]);
      }
    }
  }

  lemma TabRowsAccepted(rows: Rows, r: Registry)
    requires NamesOk(r) && SessionsMirrored(rows, r) && TabsMirrored(rows, r)
    ensures SessionRowsOk(rows) && TabRowsOk(rows)
  {
    hide TabStorageId;
    forall k | k in rows.tabs
      ensures rows.tabs[k].parent in rows.sessions && rows.tabs[k].id != "" && TabKeyOk(rows, k)
    {
      assert TabKeyOk(rows, k) && TabMirrored(rows, r, rows.tabs[k].parent, rows.tabs[k].id);
    }
  }

  lemma PaneRowsAccepted(rows: Rows, r: Registry, k: PaneId)
    requires Sound(r) && Mirrors(rows, r) && k in rows.panes
    ensures PaneRowOk(rows, k)
  {
    hide TabStorageId, LatestOk, GenerationMirrored;
    var pane := Panes(r)[k];
    assert InTree(r, pane.session, pane.tab, k);
    assert TabMirrored(rows, r, pane.session, pane.tab);
  }

  /** A restart accepts the rows of a sound registry exactly when its live panes are unique. */
  lemma RestartSucceedsIff(rows: Rows, r: Registry)
    requires Sound(r) && Mirrors(rows, r)
    ensures RowsOk(rows) <==> LiveUnique(Panes(r))
  {
    hide NamesOk, Holds, Panes, SessionsMirrored, TabsMirrored, GenerationMirrored, PaneRowOk;
    TabRowsAccepted(rows, r);
    forall k | k in rows.panes ensures PaneRowOk(rows, k) {
      PaneRowsAccepted(rows, r, k);
    }
    var panes := Panes(r);
    assert forall k, l :: k in panes && l in panes ==> (Clash(rows.panes[k].pane, rows.panes[l].pane) <==> Clash(panes[k], panes[l]));
  }

  // ---------- The round trip ----------

  ghost predicate StoredTab(tab: Tab, tab': Tab) {
    tab'.id == tab.id && tab'.name == tab.name && tab'.createdAt == tab.createdAt && AreStored(tab.panes, tab'.panes)
  }

  ghost predicate StoredSession(session: Session, session': Session) {
    && session'.id == session.id && session'.createdAt == session.createdAt
    && (forall t :: t in session.tabs <==> t in session'.tabs)
    && (forall t :: t in session.tabs ==> StoredTab(session.tabs[t], session'.tabs[t]))
  }

  /** The tree without what is not stored. */
  ghost predicate StoredTree(sessions: map<SessionId, Session>, sessions': map<SessionId, Session>) {
    && (forall s :: s in sessions <==> s in sessions')
    && (forall s :: s in sessions ==> StoredSession(sessions[s], sessions'[s]))
  }

  lemma TabsAgree(rows: Rows, r: Registry, r': Registry, s: SessionId, t: TabId)
    requires NamesOk(r) && NamesOk(r') && TabsMirrored(rows, r) && TabsMirrored(rows, r')
    requires Holds(r, Panes(r)) && Holds(r', Panes(r')) && AreStored(Panes(r), Panes(r'))
    ensures HasTab(r', s, t) <==> HasTab(r, s, t)
    ensures HasTab(r, s, t) ==> StoredTab(r.sessions[s].tabs[t], r'.sessions[s].tabs[t])
  {
    hide TabStorageId;
    assert TabMirrored(rows, r, s, t) && TabMirrored(rows, r', s, t);
    if HasTab(r, s, t) {
      var a, b := r.sessions[s].tabs[t], r'.sessions[s].tabs[t];
      assert RowOfTab(s, a) == RowOfTab(s, b);
      forall p
        ensures p in b.panes <==> p in a.panes
        ensures p in b.panes ==> b.panes[p] == Stored(a.panes[p])
      {
        assert InTree(r, s, t, p) <==> p in a.panes;
        assert InTree(r', s, t, p) <==> p in b.panes;
      }
    }
  }

  lemma TreesAgree(rows: Rows, r: Registry, r': Registry)
    requires NamesOk(r) && NamesOk(r') && TabsMirrored(rows, r) && TabsMirrored(rows, r')
    requires Holds(r, Panes(r)) && Holds(r', Panes(r')) && AreStored(Panes(r), Panes(r'))
    requires SessionsMirrored(rows, r) && SessionsMirrored(rows, r')
    ensures StoredTree(r.sessions, r'.sessions)
  {
    hide TabStorageId, TabsMirrored, Holds, StoredTab;
    forall s | s in r.sessions ensures s in r'.sessions && StoredSession(r.sessions[s], r'.sessions[s]) {
      assert s in rows.sessions && rows.sessions[s] == SessionRow(s, r.sessions[s].createdAt);
      assert s in r'.sessions && rows.sessions[s] == SessionRow(s, r'.sessions[s].createdAt);
      forall t: TabId
        ensures t in r'.sessions[s].tabs <==> t in r.sessions[s].tabs
        ensures t in r.sessions[s].tabs ==> StoredTab(r.sessions[s].tabs[t], r'.sessions[s].tabs[t])
      {
        TabsAgree(rows, r, r', s, t);
        assert HasTab(r, s, t) <==> t in r.sessions[s].tabs;
        assert HasTab(r', s, t) <==> t in r'.sessions[s].tabs;
      }
    }
  }

  lemma GenerationsBound(panes: map<PaneId, Pane>, next: nat)
    requires GenerationsOk(panes, next)
    ensures forall p :: p in panes ==> panes[p].generation <= next
  {
  }

  lemma CounterAgrees(rows: Rows, panes: map<PaneId, Pane>, stored: map<PaneId, Pane>, next: nat, next': nat)
    requires AreStored(panes, stored)
    requires GenerationMirrored(rows, panes, next) && GenerationMirrored(rows, stored, next')
    requires forall p :: p in panes ==> panes[p].generation <= next
    requires forall p :: p in stored ==> stored[p].generation <= next'
    ensures next' == next
  {
    if StoredGeneration(rows) != next {
      var p :| p in panes && panes[p].generation == next;
      assert p in stored && stored[p].generation == next;
    }
    if StoredGeneration(rows) != next' {
      var q :| q in stored && stored[q].generation == next';
      assert q in panes && panes[q].generation == next';
    }
  }

  /** The rebuilt index agrees with the old one. */
  lemma LatestAgrees(panes: map<PaneId, Pane>, stored: map<PaneId, Pane>, next: nat, latest: map<ZellijId, PaneId>, latest': map<ZellijId, PaneId>)
    requires AreStored(panes, stored)
    requires GenerationsOk(panes, next) && LatestOk(panes, latest) && LatestRebuilt(stored, latest')
    ensures forall z :: z in latest ==> z in latest' && latest'[z] == latest[z]
  {
    forall z | z in latest ensures z in latest' && latest'[z] == latest[z] {
      var p := latest[z];
      assert p in stored && stored[p].zellij == z;
      var q := latest'[z];
      assert stored[q].generation >= stored[p].generation && panes[p].generation >= panes[q].generation;
    }
  }

  lemma StoredPanesFit(rows: Rows, panes: map<PaneId, Pane>, loaded: map<PaneId, Pane>, next: nat)
    requires PanesMirrored(rows, panes) && GenerationsOk(panes, next) && AreLoaded(rows, loaded)
    ensures GenerationsOk(loaded, next) && PanesMirrored(rows, loaded)
  {
    hide TabStorageId;
  }

  lemma SameLocations(a: map<PaneId, Location>, panes: map<PaneId, Pane>, b: map<PaneId, Location>, stored: map<PaneId, Pane>)
    requires Indexes(a, panes) && Indexes(b, stored) && AreStored(panes, stored)
    ensures a == b
  {
  }

  /** A restart rebuilds the registry that the rows mirror: the same tree but for what is not
      stored, the same location index and generation counter, and an index of Zellij panes
      that agrees with the old one wherever that had an entry. */
  lemma RoundTrip(rows: Rows, r: Registry, r': Registry)
    requires Inv(r) && Mirrors(rows, r) && IsLoaded(rows, r')
    ensures StoredTree(r.sessions, r'.sessions)
    ensures r'.locations == r.locations
    ensures r'.nextGeneration == r.nextGeneration
    ensures forall z :: z in r.latest ==> z in r'.latest && r'.latest[z] == r.latest[z]
    ensures AreStored(Panes(r), Panes(r'))
    ensures Inv(r') && Mirrors(rows, r')
  {
    hide TabsMirrored, SessionsMirrored, Holds, NamesOk, IdsOk, StoredTree, Panes, PanesMirrored, GenerationMirrored, LatestOk, GenerationsOk, LiveUnique, AreStored, AreLoaded, Indexes;
    MirroredPanes(rows, Panes(r), Panes(r'));
    TreesAgree(rows, r, r');
    SameLocations(r.locations, Panes(r), r'.locations, Panes(r'));
    SameClashes(Panes(r), Panes(r'));
    GenerationsBound(Panes(r), r.nextGeneration);
    CounterAgrees(rows, Panes(r), Panes(r'), r.nextGeneration, r'.nextGeneration);
    LatestAgrees(Panes(r), Panes(r'), r.nextGeneration, r.latest, r'.latest);
    StoredPanesFit(rows, Panes(r), Panes(r'), r.nextGeneration);
  }
}
