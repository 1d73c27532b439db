/** A save consists of four changes, and a crash may separate them: at every point between
    them the rows mirror some registry that keeps the invariant. */
module PaneRegistrySaves {
  import opened Basics
  import opened PaneRegistry
  import opened PaneRegistryInvariant
  import opened PaneRegistryRows
  import opened PaneRegistryOperations

  lemma FourWrites(rows: Rows, cs: seq<Change>)
    requires |cs| == 4
    ensures WriteRows(rows, cs[..0]) == rows
    ensures WriteRows(rows, cs[..1]) == WriteRow(rows, cs[0])
    ensures WriteRows(rows, cs[..2]) == WriteRow(WriteRow(rows, cs[0]), cs[1])
    ensures WriteRows(rows, cs[..3]) == WriteRow(WriteRow(WriteRow(rows, cs[0]), cs[1]), cs[2])
    ensures WriteRows(rows, cs[..4]) == WriteRow(WriteRow(WriteRow(WriteRow(rows, cs[0]), cs[1]), cs[2]), cs[3])
  {
    assert cs[..1][..0] == cs[..0];
    assert cs[..2][..1] == cs[..1];
    assert cs[..3][..2] == cs[..2];
    assert cs[..4][..3] == cs[..3];
  }

  ghost predicate TreeMirrored(rows: Rows, r: Registry) {
    SessionsMirrored(rows, r) && TabsMirrored(rows, r)
  }

  lemma PaneTouched(rows: Rows, rows1: Rows, r: Registry, at: Location, id: PaneId, pane: Pane, r1: Registry)
    requires TreeMirrored(rows, r) && HasTab(r, at.session, at.tab)
    requires rows1.sessions == rows.sessions && rows1.tabs == rows.tabs
    requires r1.sessions == SetPane(r, at, id, pane).sessions || r1.sessions == DeletePane(r, at, id).sessions
    ensures TreeMirrored(rows1, r1)
  {
    hide TabStorageId;
    forall s, t ensures TabMirrored(rows1, r1, s, t) {
      assert TabMirrored(rows, r, s, t);
    }
    forall key ensures TabKeyOk(rows1, key) {
      assert TabKeyOk(rows, key);
    }
  }

  lemma SameTabs(r: Registry, at: Location, id: PaneId, pane: Pane)
    requires HasTab(r, at.session, at.tab)
    ensures HasTab(SetPane(r, at, id, pane), at.session, at.tab) && HasTab(DeletePane(r, at, id), at.session, at.tab)
  {
  }

  /** Writing a session row and a tab row that are stored already changes nothing. */
  lemma RewrittenTree(rows: Rows, r: Registry, s: SessionId, t: TabId)
    requires TreeMirrored(rows, r) && HasTab(r, s, t)
    ensures var session := r.sessions[s];
      && WriteRow(rows, PutSession(s, session.createdAt)) == rows
      && WriteRow(rows, PutTab(TabStorageId(s, t), s, session.tabs[t].id, session.tabs[t].name, session.tabs[t].createdAt)) == rows
  {
    hide TabStorageId;
    assert TabMirrored(rows, r, s, t);
  }

  /** For a pane of a stored tab only the last two changes matter. */
  lemma StoredTabSave(rows: Rows, r: Registry, at: Location, pane: Pane, deleted: bool)
    requires TreeMirrored(rows, r) && HasTab(r, at.session, at.tab) && NamesOk(r)
    ensures var cs := Saves(r, at, pane, deleted);
      && (forall n :: 0 <= n <= 2 ==> WriteRows(rows, cs[..n]) == rows)
      && WriteRows(rows, cs[..3]) == WriteRow(rows, cs[2])
      && WriteRows(rows, cs[..4]) == WriteRow(WriteRow(rows, cs[2]), cs[3])
  {
    hide TreeMirrored, NamesOk, TabStorageId;
    FourWrites(rows, Saves(r, at, pane, deleted));
    NameOf(r, at.session, at.tab);
    RewrittenTree(rows, r, at.session, at.tab);
  }

  /** `r1` is what a restart finds after some changes of a save that takes `r` to `r'`. */
  ghost predicate Between(rows: Rows, r: Registry, r1: Registry, r': Registry) {
    Inv(r1) && Mirrors(rows, r1) && (Panes(r1) == Panes(r) || Panes(r1) == Panes(r'))
  }

  ghost predicate PrefixOk(rows: Rows, r: Registry, r': Registry, saves: seq<Change>, n: nat)
    requires n <= |saves|
  {
    exists r1 :: Between(WriteRows(rows, saves[..n]), r, r1, r')
  }

  /** A crash after any number of the changes leaves rows of a registry that is as before the
      operation or as after it, up to empty sessions and tabs. */
  ghost predicate SavedOk(rows: Rows, r: Registry, result: Result) {
    && (forall n | 0 <= n <= |result.saves| :: PrefixOk(rows, r, result.registry, result.saves, n))
    && Mirrors(WriteRows(rows, result.saves), result.registry)
  }

  lemma FourPrefixes(rows: Rows, r: Registry, r': Registry, saves: seq<Change>, r1: Registry, r2: Registry, r3: Registry)
    requires |saves| == 4
    requires Between(rows, r, r, r') && Between(WriteRows(rows, saves[..1]), r, r1, r')
    requires Between(WriteRows(rows, saves[..2]), r, r2, r') && Between(WriteRows(rows, saves[..3]), r, r3, r')
    requires Between(WriteRows(rows, saves[..4]), r, r', r')
    ensures forall n | 0 <= n <= 4 :: PrefixOk(rows, r, r', saves, n)
    ensures Mirrors(WriteRows(rows, saves), r')
  {
    hide Mirrors, Inv;
    assert saves[..4] == saves;
    assert WriteRows(rows, saves[..0]) == rows;
    forall n | 0 <= n <= 4 ensures PrefixOk(rows, r, r', saves, n) {
    }
  }

  lemma UnsavedOk(rows: Rows, r: Registry, outcome: Outcome)
    requires Inv(r) && Mirrors(rows, r)
    ensures SavedOk(rows, r, Refuse(r, outcome))
  {
    hide Inv, Mirrors;
    var none: seq<Change> := [];
    assert WriteRows(rows, none[..0]) == rows;
    assert Between(rows, r, r, r);
    forall n | 0 <= n <= 0 ensures PrefixOk(rows, r, r, [], n) {
    }
  }

  lemma GenerationStays(rows: Rows, panes: map<PaneId, Pane>, id: PaneId, pane: Pane, next: nat)
    requires GenerationMirrored(rows, panes, next) && id in panes && pane.generation == panes[id].generation
    ensures GenerationMirrored(rows, panes[id := pane], next)
  {
    if p :| p in panes && panes[p].generation == next {
      assert panes[id := pane][p].generation == next;
    }
  }

  lemma ReplaceSaved(rows: Rows, r: Registry, id: PaneId, pane: Pane, flag: bool)
    requires Inv(r) && Mirrors(rows, r) && id in Panes(r) && SameIdentity(pane, Panes(r)[id])
    requires RevivesNothing(Panes(r), id, pane.status) && Resolve(r, id).Some?
    ensures SavedOk(rows, r, Replace(r, id, pane, flag))
  {
    hide Inv, Represents, Mirrors, Resolve, Panes, RevivesNothing, PrefixOk, WriteRows;
    var r', saves := Replace(r, id, pane, flag).registry, Replace(r, id, pane, flag).saves;
    ReplaceInv(r, id, pane, flag);
    ReplaceWritten(rows, r, id, pane, flag);
    FourPrefixes(rows, r, r', saves, r, r, r');
  }

  /** The rows after each change of the save. */
  lemma ReplaceWritten(rows: Rows, r: Registry, id: PaneId, pane: Pane, flag: bool)
    requires Inv(r) && Mirrors(rows, r) && id in Panes(r) && SameIdentity(pane, Panes(r)[id])
    requires Resolve(r, id).Some?
    ensures var r' := Replace(r, id, pane, flag);
      && |r'.saves| == 4
      && (forall n :: 0 <= n <= 2 ==> WriteRows(rows, r'.saves[..n]) == rows)
      && Mirrors(WriteRows(rows, r'.saves[..3]), r'.registry) && Mirrors(WriteRows(rows, r'.saves[..4]), r'.registry)
  {
    hide NamesOk, Holds, IdsOk, GenerationsOk, LatestOk, TabsMirrored, SessionsMirrored, Panes, PanesMirrored, GenerationMirrored, TabStorageId, Stored, SetPane, Resolve, WriteRows;
    var r' := Replace(r, id, pane, flag).registry;
    var at := r.locations[id];
    IdOf(Panes(r), id);
    ReplaceSound(r, id, pane);
    PaneTouched(rows, rows, r, at, id, pane, r');
    SameTabs(r, at, id, pane);
    StoredTabSave(rows, r', at, pane, false);
    NameOf(r', at.session, at.tab);
    var rows3 := WriteRow(rows, PutPane(id, TabStorageId(at.session, at.tab), Stored(pane)));
    var rows4 := WriteRow(rows3, PutGeneration(r.nextGeneration));
    PaneWritten(rows, Panes(r), pane);
    SamePanesMirrored(rows3, rows4, Panes(r'));
    ReplaceMirrors(rows, r, at, id, pane, r', rows3);
    ReplaceMirrors(rows, r, at, id, pane, r', rows4);
  }

  lemma SamePanesMirrored(rows: Rows, rows1: Rows, panes: map<PaneId, Pane>)
    requires PanesMirrored(rows, panes) && rows1.panes == rows.panes
    ensures PanesMirrored(rows1, panes)
  {
  }

  lemma ReplaceMirrors(rows: Rows, r: Registry, at: Location, id: PaneId, pane: Pane, r': Registry, rows1: Rows)
    requires Mirrors(rows, r) && HasTab(r, at.session, at.tab) && r'.sessions == SetPane(r, at, id, pane).sessions
    requires r'.nextGeneration == r.nextGeneration && Panes(r') == Panes(r)[id := pane]
    requires id in Panes(r) && pane.generation == Panes(r)[id].generation
    requires PanesMirrored(rows1, Panes(r')) && rows1.sessions == rows.sessions && rows1.tabs == rows.tabs
    requires rows1.generation == rows.generation || rows1.generation == Some(r.nextGeneration)
    ensures Mirrors(rows1, r')
  {
    hide TabsMirrored, SessionsMirrored, Panes, SetPane, PanesMirrored;
    PaneTouched(rows, rows1, r, at, id, pane, r');
    GenerationStays(rows, Panes(r), id, pane, r.nextGeneration);
  }

  lemma {:induction false} NewestPane(panes: map<PaneId, Pane>) returns (p: PaneId)
    requires panes != map[]
    ensures p in panes && forall q :: q in panes ==> panes[q].generation <= panes[p].generation
    decreases |panes|
  {
    p :| p in panes;
    var rest := panes - {p};
    if rest != map[] {
      var q := NewestPane(rest);
      if panes[q].generation > panes[p].generation {
        p := q;
      }
    }
    assert forall q :: q in panes ==> q == p || q in rest || panes[q].generation <= panes[p].generation;
  }

  /** The counter that a restart computes from the rows and the panes. */
  lemma CounterFor(rows: Rows, panes: map<PaneId, Pane>, next: nat) returns (counter: nat)
    requires GenerationsOk(panes, next) && StoredGeneration(rows) <= next
    ensures GenerationsOk(panes, counter) && GenerationMirrored(rows, panes, counter) && counter <= next
  {
    counter := StoredGeneration(rows);
    if panes != map[] {
      var p := NewestPane(panes);
      if panes[p].generation > counter {
        counter := panes[p].generation;
      }
    }
  }

  lemma CounterFree(r: Registry, counter: nat)
    requires Inv(r) && GenerationsOk(Panes(r), counter)
    ensures var r1 := r.(nextGeneration := counter);
      Inv(r1) && Panes(r1) == Panes(r) && NamesOk(r1)
  {
    var r1 := r.(nextGeneration := counter);
    SameTree(r, r1, Panes(r));
    PanesAreRepresented(r1, Panes(r));
  }

  lemma RemoveSaved(rows: Rows, r: Registry, id: PaneId, generation: nat, claiming: bool)
    requires Inv(r) && Mirrors(rows, r) && id in Panes(r) && Names(Panes(r)[id], generation)
    ensures SavedOk(rows, r, Remove(r, id, generation, claiming))
  {
    hide Inv, Represents, Mirrors, Resolve, Panes, RevivesNothing, PrefixOk, WriteRows, DeletePane;
    var result := Remove(r, id, generation, claiming);
    RemoveInv(r, id, generation, claiming);
    var r3 := RemoveWritten(rows, r, id, generation, claiming);
    FourPrefixes(rows, r, result.registry, result.saves, r, r, r3);
  }

  lemma RemoveWritten(rows: Rows, r: Registry, id: PaneId, generation: nat, claiming: bool) returns (r3: Registry)
    requires Inv(r) && Mirrors(rows, r) && id in Panes(r) && Names(Panes(r)[id], generation)
    ensures var r' := Remove(r, id, generation, claiming);
      && |r'.saves| == 4
      && (forall n :: 0 <= n <= 2 ==> WriteRows(rows, r'.saves[..n]) == rows)
      && Inv(r3) && Panes(r3) == Panes(r'.registry)
      && Mirrors(WriteRows(rows, r'.saves[..3]), r3) && Mirrors(WriteRows(rows, r'.saves[..4]), r'.registry)
  {
    hide NamesOk, Holds, IdsOk, GenerationsOk, LatestOk, TabsMirrored, SessionsMirrored, Panes, PanesMirrored, TabStorageId, Stored, Resolve, WriteRows, DeletePane;
    var r' := Remove(r, id, generation, claiming).registry;
    var pane := Panes(r)[id];
    ResolvesIn(r, id);
    IdOf(Panes(r), id);
    RemoveInv(r, id, generation, claiming);
    LocationOf(r, id);
    var at := r.locations[id];
    PaneTouched(rows, rows, r, at, id, pane, r');
    DeleteKeepsTab(r, id, r');
    StoredTabSave(rows, r', at, pane, true);
    var rows3 := WriteRow(rows, DropPane(id));
    var rows4 := WriteRow(rows3, PutGeneration(r.nextGeneration));
    PaneWritten(rows, Panes(r), pane);
    SamePanesMirrored(rows3, rows4, Panes(r'));
    var counter := CounterFor(rows3, Panes(r'), r.nextGeneration);
    CounterFree(r', counter);
    r3 := r'.(nextGeneration := counter);
    PaneTouched(rows, rows3, r, at, id, pane, r3);
    PaneTouched(rows, rows4, r, at, id, pane, r');
  }

  lemma LocationOf(r: Registry, id: PaneId)
    requires Represents(r, Panes(r)) && id in Panes(r)
    ensures id in r.locations && HasTab(r, r.locations[id].session, r.locations[id].tab)
    ensures r.locations[id] == Location(Panes(r)[id].session, Panes(r)[id].tab)
  {
    assert InTree(r, Panes(r)[id].session, Panes(r)[id].tab, id);
  }

  lemma DeleteKeepsTab(r: Registry, id: PaneId, r1: Registry)
    requires id in r.locations && HasTab(r, r.locations[id].session, r.locations[id].tab)
    requires r1.sessions == DeletePane(r, r.locations[id], id).sessions
    ensures HasTab(r1, r.locations[id].session, r.locations[id].tab)
  {
  }

  // ---------- Registration ----------

  lemma SameIndexes(r: Registry, r1: Registry)
    requires Inv(r) && NamesOk(r1) && Holds(r1, Panes(r)) && r1 == r.(sessions := r1.sessions)
    ensures Inv(r1) && Panes(r1) == Panes(r)
  {
    PanesAreRepresented(r1, Panes(r));
  }

  lemma SessionStep(rows: Rows, r: Registry, s: SessionId, now: int)
    requires Inv(r) && Mirrors(rows, r) && s != ""
    ensures var r1 := EnsureSession(r, s, now);
      Inv(r1) && Panes(r1) == Panes(r) && Mirrors(WriteRow(rows, PutSession(s, r1.sessions[s].createdAt)), r1)
  {
    hide NamesOk, Holds, Panes, TabsMirrored, SessionsMirrored, GenerationsOk, LatestOk, LiveUnique;
    EnsureSessionKeeps(r, Panes(r), s, now);
    SameIndexes(r, EnsureSession(r, s, now));
    SessionWritten(rows, r, s, now);
  }

  lemma TabStep(rows: Rows, r: Registry, s: SessionId, t: TabId, name: string, now: int)
    requires Inv(r) && Mirrors(rows, r) && s in r.sessions && t != ""
    ensures var r1 := EnsureTab(r, s, t, name, now);
      && Inv(r1) && Panes(r1) == Panes(r) && HasTab(r1, s, t)
      && var tab := r1.sessions[s].tabs[t];
        tab.id == t && Mirrors(WriteRow(rows, PutTab(TabStorageId(s, t), s, t, tab.name, tab.createdAt)), r1)
  {
    hide NamesOk, Holds, Panes, TabsMirrored, SessionsMirrored, GenerationsOk, LatestOk, LiveUnique, TabStorageId;
    var r1 := EnsureTab(r, s, t, name, now);
    EnsureTabKeeps(r, Panes(r), s, t, name, now);
    SameIndexes(r, r1);
    NameOf(r1, s, t);
    TabWritten(rows, r, s, t, r1.sessions[s].tabs[t]);
  }

  lemma AdmitWritten(rows: Rows, r: Registry, pane: Pane, generation: Option<nat>)
    requires Mirrors(rows, r) && HasTab(r, pane.session, pane.tab) && pane.id !in Panes(r)
    requires pane.generation == r.nextGeneration + 1 && Panes(Admit(r, pane)) == Panes(r)[pane.id := pane]
    requires generation == rows.generation || generation == Some(pane.generation)
    ensures var rows1 := WriteRow(rows, PutPane(pane.id, TabStorageId(pane.session, pane.tab), Stored(pane)));
      Mirrors(rows1.(generation := generation), Admit(r, pane))
  {
    hide TabsMirrored, SessionsMirrored, PanesMirrored, TabStorageId, SetPane, Panes;
    var rows1 := WriteRow(rows, PutPane(pane.id, TabStorageId(pane.session, pane.tab), Stored(pane)));
    var r1 := Admit(r, pane);
    PaneWritten(rows, Panes(r), pane);
    SamePanesMirrored(rows1, rows1.(generation := generation), Panes(r1));
    PaneTouched(rows, rows1.(generation := generation), r, Location(pane.session, pane.tab), pane.id, pane, r1);
    assert Panes(r1)[pane.id].generation == r1.nextGeneration;
  }

  lemma RegisterSaved(rows: Rows, r: Registry, q: Request, now: int)
    requires Inv(r) && Mirrors(rows, r) && Register(r, q, now).outcome.Done?
    ensures SavedOk(rows, r, Register(r, q, now))
  {
    hide Inv, Mirrors, Panes, SavedOk, Represents, IsHeld, TabStorageId, Stored, Decimal;
    var pane := NewPane(q, r.nextGeneration + 1, now);
    RegisterInv(r, q, now);
    AdmittedSaved(rows, r, pane, now, Admit(MakeRoom(r, pane, now), pane));
  }

  lemma AdmittedSaved(rows: Rows, r: Registry, pane: Pane, now: int, r': Registry)
    requires Inv(r) && Mirrors(rows, r) && MayEnter(Panes(r), pane, r.nextGeneration)
    requires HasTab(MakeRoom(r, pane, now), pane.session, pane.tab) && r' == Admit(MakeRoom(r, pane, now), pane)
    requires Inv(r') && Panes(r') == Panes(r)[pane.id := pane] && HasTab(r', pane.session, pane.tab)
    ensures SavedOk(rows, r, Result(r', Done(pane, true), Saves(r', Location(pane.session, pane.tab), pane, false)))
  {
    hide Inv, Mirrors, Panes, TabStorageId, EnsureTab, SetPane, WriteRows, PrefixOk;
    var s, t := pane.session, pane.tab;
    var saves := Saves(r', Location(s, t), pane, false);
    var ra := EnsureSession(r, s, now);
    var rb := MakeRoom(r, pane, now);
    SessionStep(rows, r, s, now);
    var rows1 := WriteRow(rows, PutSession(s, ra.sessions[s].createdAt));
    TabStep(rows1, ra, s, t, pane.tabName, now);
    var tab := rb.sessions[s].tabs[t];
    var rows2 := WriteRow(rows1, PutTab(TabStorageId(s, t), s, t, tab.name, tab.createdAt));
    RoomKeepsIndexes(r, pane, now);
    AdmitWritten(rows2, rb, pane, rows2.generation);
    AdmitWritten(rows2, rb, pane, Some(pane.generation));
    AdmittedTab(r, pane, now);
    FourWrites(rows, saves);
    FourPrefixes(rows, r, r', saves, ra, rb, r');
  }

  /** The session and tab rows of the save are those of the room that was made. */
  lemma AdmittedTab(r: Registry, pane: Pane, now: int)
    requires Inv(r) && pane.session != "" && pane.tab != ""
    requires HasTab(MakeRoom(r, pane, now), pane.session, pane.tab)
    ensures var ra := EnsureSession(r, pane.session, now);
      var rb := MakeRoom(r, pane, now);
      var r' := Admit(rb, pane);
      && HasTab(r', pane.session, pane.tab) && pane.session in ra.sessions
      && r'.sessions[pane.session].id == pane.session
      && r'.sessions[pane.session].createdAt == ra.sessions[pane.session].createdAt
      && var tab, tab' := rb.sessions[pane.session].tabs[pane.tab], r'.sessions[pane.session].tabs[pane.tab];
        tab'.id == tab.id && tab'.name == tab.name && tab'.createdAt == tab.createdAt
  {
  }

  // ---------- All operations ----------

  lemma PrintedMirrored(rows: Rows, panes: map<PaneId, Pane>, id: PaneId, pane: Pane)
    requires PanesMirrored(rows, panes) && id in panes && pane == panes[id].(lastOutput := pane.lastOutput)
    ensures PanesMirrored(rows, panes[id := pane])
  {
    hide TabStorageId;
  }

  lemma PrintedSaved(rows: Rows, r: Registry, id: PaneId, pane: Pane)
    requires Inv(r) && Mirrors(rows, r) && id in Panes(r) && Resolve(r, id).Some?
    requires pane == Panes(r)[id].(lastOutput := pane.lastOutput)
    ensures SavedOk(rows, r, Replace(r, id, pane, true).(saves := []))
  {
    hide NamesOk, Holds, IdsOk, Indexes, Panes, TabsMirrored, SessionsMirrored, PanesMirrored, GenerationMirrored, SetPane, Resolve, LatestOk, GenerationsOk, LiveUnique;
    var r' := Replace(r, id, pane, true).registry;
    ReplaceSound(r, id, pane);
    PaneTouched(rows, rows, r, r.locations[id], id, pane, r');
    GenerationStays(rows, Panes(r), id, pane, r.nextGeneration);
    PrintedMirrored(rows, Panes(r), id, pane);
    var none: seq<Change> := [];
    assert WriteRows(rows, none[..0]) == rows;
    assert Between(rows, r, r, r');
    forall n | 0 <= n <= 0 ensures PrefixOk(rows, r, r', none, n) {
    }
  }

  lemma RegisteringSaved(rows: Rows, r: Registry, q: Request, now: int)
    requires Inv(r) && Mirrors(rows, r)
    ensures SavedOk(rows, r, Register(r, q, now))
  {
    hide Inv, Mirrors, SavedOk;
    if Register(r, q, now).outcome.Done? {
      RegisterSaved(rows, r, q, now);
    } else {
      UnsavedOk(rows, r, Register(r, q, now).outcome);
    }
  }

  /** Every operation keeps the invariant, and its save may be cut short anywhere. */
  lemma DoSaved(rows: Rows, r: Registry, op: Op)
    requires Inv(r) && Mirrors(rows, r) && Allowed(r, op)
    ensures SavedOk(rows, r, Do(r, op))
  {
    hide Inv, Mirrors, SavedOk, Panes, Register, Replace, RevivesNothing, Resolve, Remove;
    if op.Registering? {
      RegisteringSaved(rows, r, op.request, op.now);
    } else if op.id in Panes(r) {
      ResolvesIn(r, op.id);
      KnownSaved(rows, r, op);
    } else {
      InvRepresents(r);
      ResolvesAll(r, op.id);
      RemoveUnknown(r, op.id);
      UnsavedOk(rows, r, NotFound);
    }
  }

  lemma RemoveUnknown(r: Registry, id: PaneId)
    requires Resolve(r, id).None?
    ensures forall g, claiming :: Remove(r, id, g, claiming) == Refuse(r, NotFound)
  {
  }

  lemma KnownSaved(rows: Rows, r: Registry, op: Op)
    requires Inv(r) && Mirrors(rows, r) && Allowed(r, op) && !op.Registering? && op.id in Panes(r)
    requires Resolve(r, op.id) == Some(Panes(r)[op.id])
    ensures SavedOk(rows, r, Do(r, op))
  {
    hide Inv, Mirrors, SavedOk, Panes, Register, Replace, RevivesNothing, Resolve;
    var pane := Panes(r)[op.id];
    var named := if op.Instructing? then pane.generation == op.generation else Names(pane, op.generation);
    if !named {
      UnsavedOk(rows, r, Stale);
    } else {
      UnsavedOk(rows, r, Done(pane, false));
      match op
      case SettingStatus(id, g, status, message) =>
        ReplaceSaved(rows, r, id, pane.(status := status, message := message), true);
      case SettingActiveStatus(id, g, status, message) =>
        if !IsTerminal(pane.status) {
          AliveRevives(r, id, status);
          ReplaceSaved(rows, r, id, pane.(status := status, message := message), true);
        }
      case ClaimingClosure(id, g, status, message) =>
        AliveRevives(r, id, if IsTerminal(pane.status) then pane.status else status);
        var closed := if IsTerminal(pane.status) then pane else pane.(status := status, message := message);
        ReplaceSaved(rows, r, id, closed.(claimed := true), !pane.claimed);
      case Instructing(id, g, text) =>
        AliveRevives(r, id, pane.status);
        ReplaceSaved(rows, r, id, pane.(lastInstruction := text), true);
      case Printing(id, g, output, activeOnly) =>
        PrintedSaved(rows, r, id, pane.(lastOutput := output));
      case Removing(id, g, claiming) =>
        RemoveSaved(rows, r, id, g, claiming);
    }
  }

  lemma AliveRevives(r: Registry, id: PaneId, status: Status)
    requires id in Panes(r) && (!IsTerminal(Panes(r)[id].status) || IsTerminal(status))
    ensures RevivesNothing(Panes(r), id, status)
  {
  }
}
