/** Whole runs of the registry: operations, saves that reach the database change by change,
    and restarts from any prefix of the changes. */
module PaneRegistryRuns {
  import opened Basics
  import opened PaneRegistry
  import opened PaneRegistryInvariant
  import opened PaneRegistryRows
  import opened PaneRegistryOperations
  import opened PaneRegistrySaves

  /** `base` are the rows that the daemon started from, `log` the changes enqueued since;
      `past` are the registry's states since then, and `granted` the generations whose close
      notification was granted. */
  datatype World = World(registry: Registry, base: Rows, log: seq<Change>, past: seq<Registry>, granted: seq<nat>)

  datatype Event =
    | Did(op: Op)
    | Restarted(kept: nat, registry: Registry)

  const START := World(EMPTY, NO_ROWS, [], [EMPTY], [])

  /** The close notification that the operation hands to its caller. */
  ghost function Grant(r: Registry, op: Op): seq<nat> {
    var out := Do(r, op).outcome;
    if (op.ClaimingClosure? || (op.Removing? && op.claiming)) && out.Done? && out.flag then [out.pane.generation] else []
  }

  /** A restart finds the first `kept` changes, and accepts them. */
  ghost predicate CanHappen(w: World, ev: Event) {
    match ev
    case Did(op) => Allowed(w.registry, op)
    case Restarted(kept, registry) =>
      kept <= |w.log| && RowsOk(WriteRows(w.base, w.log[..kept])) && IsLoaded(WriteRows(w.base, w.log[..kept]), registry)
  }

  ghost function Next(w: World, ev: Event): World
    requires CanHappen(w, ev)
  {
    match ev
    case Did(op) =>
      var r := Do(w.registry, op);
      World(r.registry, w.base, w.log + r.saves, w.past + [r.registry], w.granted + Grant(w.registry, op))
    case Restarted(kept, registry) =>
      World(registry, WriteRows(w.base, w.log[..kept]), [], [registry], [])
  }

  ghost predicate IsRun(worlds: seq<World>, evs: seq<Event>) {
    && |worlds| == |evs| + 1 && worlds[0] == START
    && forall k :: 0 <= k < |evs| ==> CanHappen(worlds[k], evs[k]) && worlds[k + 1] == Next(worlds[k], evs[k])
  }

  // ---------- Restarts ----------

  /** The rows are those of a registry `r` that keeps the invariant and has the panes that
      the daemon had after some earlier operation. */
  ghost predicate IsMoment(rows: Rows, past: seq<Registry>, r: Registry, k: nat) {
    Inv(r) && Mirrors(rows, r) && k < |past| && Panes(r) == Panes(past[k])
  }

  ghost predicate Recoverable(w: World, n: nat)
    requires n <= |w.log|
  {
    exists r, k :: IsMoment(WriteRows(w.base, w.log[..n]), w.past, r, k)
  }

  ghost predicate WorldInv(w: World) {
    && Inv(w.registry) && Mirrors(WriteRows(w.base, w.log), w.registry)
    && w.past != [] && w.past[|w.past| - 1] == w.registry
    && (forall n | 0 <= n <= |w.log| :: Recoverable(w, n))
  }

  lemma StartInv()
    ensures WorldInv(START)
  {
    assert Represents(EMPTY, map[]);
    PanesAreRepresented(EMPTY, map[]);
    var none: seq<Change> := [];
    assert IsMoment(WriteRows(NO_ROWS, none[..0]), [EMPTY], EMPTY, 0);
    forall n | 0 <= n <= |START.log| ensures Recoverable(START, n) {
    }
  }

  lemma {:induction false} WriteRowsConcat(rows: Rows, a: seq<Change>, b: seq<Change>)
    ensures WriteRows(rows, a + b) == WriteRows(WriteRows(rows, a), b)
    decreases |b|
  {
    if b == [] {
      assert a + b == a;
    } else {
      WriteRowsConcat(rows, a, b[..|b| - 1]);
      assert (a + b)[..|a + b| - 1] == a + b[..|b| - 1];
    }
  }

  lemma DidKeeps(w: World, op: Op)
    requires WorldInv(w) && Allowed(w.registry, op)
    ensures WorldInv(Next(w, Did(op)))
  {
    hide Do, Inv, Mirrors, Panes, Allowed, WriteRows, Grant;
    var result := Do(w.registry, op);
    var rows := WriteRows(w.base, w.log);
    var w' := Next(w, Did(op));
    DoKeeps(w.registry, op);
    DoSaved(rows, w.registry, op);
    WriteRowsConcat(w.base, w.log, result.saves);
    forall n | 0 <= n <= |w'.log| ensures Recoverable(w', n) {
      if n <= |w.log| {
        assert w'.log[..n] == w.log[..n];
        assert Recoverable(w, n);
        var r, k :| IsMoment(WriteRows(w.base, w.log[..n]), w.past, r, k);
        assert IsMoment(WriteRows(w.base, w'.log[..n]), w'.past, r, k);
      } else {
        SavedMoment(w, op, n - |w.log|);
      }
    }
  }

  lemma SavedMoment(w: World, op: Op, m: nat)
    requires WorldInv(w) && Allowed(w.registry, op)
    requires SavedOk(WriteRows(w.base, w.log), w.registry, Do(w.registry, op)) && m <= |Do(w.registry, op).saves|
    ensures Recoverable(Next(w, Did(op)), |w.log| + m)
  {
    hide Do, Inv, Mirrors, Panes, Allowed, WriteRows, Grant;
    var result := Do(w.registry, op);
    var rows := WriteRows(w.base, w.log);
    var w' := Next(w, Did(op));
    assert PrefixOk(rows, w.registry, result.registry, result.saves, m);
    var r1 :| Between(WriteRows(rows, result.saves[..m]), w.registry, r1, result.registry);
    assert w'.log[..|w.log| + m] == w.log + result.saves[..m];
    WriteRowsConcat(w.base, w.log, result.saves[..m]);
    var rows1 := WriteRows(w.base, w'.log[..|w.log| + m]);
    if Panes(r1) == Panes(w.registry) {
      assert IsMoment(rows1, w'.past, r1, |w.past| - 1);
    } else {
      assert IsMoment(rows1, w'.past, r1, |w.past|);
    }
  }

  lemma RestartKeeps(w: World, kept: nat, registry: Registry)
    requires WorldInv(w) && CanHappen(w, Restarted(kept, registry))
    ensures WorldInv(Next(w, Restarted(kept, registry)))
  {
    hide Inv, Mirrors, Panes, WriteRows, IsLoaded, RowsOk;
    var rows := WriteRows(w.base, w.log[..kept]);
    assert Recoverable(w, kept);
    var r, k :| IsMoment(rows, w.past, r, k);
    RoundTrip(rows, r, registry);
    var w' := Next(w, Restarted(kept, registry));
    NoWrites(rows);
    forall n | 0 <= n <= |w'.log| ensures Recoverable(w', n) {
      assert IsMoment(WriteRows(w'.base, w'.log[..n]), w'.past, registry, 0);
    }
  }

  lemma NoWrites(rows: Rows)
    ensures WriteRows(rows, []) == rows
    ensures forall cs: seq<Change> :: cs == [] ==> WriteRows(rows, cs) == rows && cs[..0] == cs
  {
  }

  lemma {:induction false} RunKeeps(worlds: seq<World>, evs: seq<Event>, k: nat)
    requires IsRun(worlds, evs) && k < |worlds|
    ensures WorldInv(worlds[k])
  {
    if k == 0 {
      StartInv();
    } else {
      RunKeeps(worlds, evs, k - 1);
      hide WorldInv, CanHappen, Next;
      var w, ev := worlds[k - 1], evs[k - 1];
      assert CanHappen(w, ev) && worlds[k] == Next(w, ev);
      StepKeeps(w, ev);
    }
  }

  lemma StepKeeps(w: World, ev: Event)
    requires WorldInv(w) && CanHappen(w, ev)
    ensures WorldInv(Next(w, ev))
  {
    hide WorldInv, RowsOk, IsLoaded, Allowed;
    match ev
    case Did(op) => DidKeeps(w, op);
    case Restarted(kept, registry) => RestartKeeps(w, kept, registry);
  }

  /** At every moment of every run the location index is exactly the index of the tree,
      generations are distinct, live Zellij panes are unique in their session, and an entry
      of the Zellij index names the newest pane. */
  lemma RegistryStaysCoherent(worlds: seq<World>, evs: seq<Event>, k: nat)
    requires IsRun(worlds, evs) && k < |worlds|
    ensures var r := worlds[k].registry;
      && Represents(r, Panes(r)) && GenerationsOk(Panes(r), r.nextGeneration)
      && LiveUnique(Panes(r)) && LatestOk(Panes(r), r.latest)
  {
    RunKeeps(worlds, evs, k);
  }

  /** However many of the enqueued changes reached the database, a restart accepts them, and
      any registry it may build has the panes of some earlier moment, but for what is not
      stored. */
  lemma EveryRestartSucceeds(worlds: seq<World>, evs: seq<Event>, k: nat, n: nat, r': Registry) returns (earlier: nat)
    requires IsRun(worlds, evs) && k < |worlds| && n <= |worlds[k].log|
    ensures RowsOk(WriteRows(worlds[k].base, worlds[k].log[..n]))
    ensures earlier < |worlds[k].past|
    ensures IsLoaded(WriteRows(worlds[k].base, worlds[k].log[..n]), r') ==>
              var panes := Panes(worlds[k].past[earlier]);
              Inv(r') && AreStored(panes, Panes(r'))
  {
    hide Inv, Mirrors, Panes, WriteRows, IsLoaded, RowsOk, IsRun;
    var w := worlds[k];
    RunKeeps(worlds, evs, k);
    assert Recoverable(w, n);
    var rows := WriteRows(w.base, w.log[..n]);
    var r, i :| IsMoment(rows, w.past, r, i);
    earlier := i;
    RecoveredAt(rows, r, r');
  }

  lemma RecoveredAt(rows: Rows, r: Registry, r': Registry)
    requires Inv(r) && Mirrors(rows, r)
    ensures RowsOk(rows)
    ensures IsLoaded(rows, r') ==> Inv(r') && AreStored(Panes(r), Panes(r'))
  {
    hide Panes, RowsOk, Represents;
    RestartSucceedsIff(rows, r);
    if IsLoaded(rows, r') {
      RoundTrip(rows, r, r');
    }
  }

  // ---------- One close notification per generation ----------

  ghost predicate GrantsOk(w: World) {
    && (forall i, j :: 0 <= i < j < |w.granted| ==> w.granted[i] != w.granted[j])
    && (forall i :: 0 <= i < |w.granted| ==> GrantSpent(w.registry, w.granted[i]))
  }

  /** The generation is taken, and its pane, if it is still there, cannot be claimed again. */
  ghost predicate GrantSpent(r: Registry, generation: nat) {
    && generation <= r.nextGeneration
    && forall p :: p in Panes(r) && Panes(r)[p].generation == generation ==> Panes(r)[p].claimed
  }

  /** One operation in terms of the panes alone. */
  ghost predicate PaneStep(r: Registry, op: Op, r': Registry) {
    var panes, panes' := Panes(r), Panes(r');
    && r.nextGeneration <= r'.nextGeneration
    && (forall p :: p in panes' ==>
          || panes'[p].generation == r.nextGeneration + 1
          || (&& p in panes && panes'[p].generation == panes[p].generation
              && (panes[p].claimed ==> panes'[p].claimed)
              && (IsTerminal(panes[p].status) && !op.SettingStatus? ==> panes'[p].status == panes[p].status)))
    && (forall g :: Grant(r, op) == [g] ==>
          && (exists p :: p in panes && panes[p].generation == g && !panes[p].claimed)
          && (forall p :: p in panes' && panes'[p].generation == g ==> panes'[p].claimed))
  }

  lemma OpSteps(r: Registry, op: Op)
    requires Inv(r) && Allowed(r, op)
    ensures PaneStep(r, op, Do(r, op).registry)
  {
    hide Inv, Panes, Register, Replace, RevivesNothing, Resolve, Remove, Represents;
    if op.Registering? {
      if Register(r, op.request, op.now).outcome.Done? {
        RegisterInv(r, op.request, op.now);
      } else {
        RefusedRegister(r, op.request, op.now);
      }
    } else if op.id in Panes(r) {
      ResolvesIn(r, op.id);
      KnownSteps(r, op);
    } else {
      InvRepresents(r);
      ResolvesAll(r, op.id);
      RemoveUnknown(r, op.id);
    }
  }

  lemma RefusedRegister(r: Registry, q: Request, now: int)
    requires !Register(r, q, now).outcome.Done?
    ensures Register(r, q, now).registry == r
  {
  }

  lemma ReplaceSteps(r: Registry, op: Op, pane: Pane, flag: bool)
    requires Inv(r) && !op.Registering? && op.id in Panes(r) && SameIdentity(pane, Panes(r)[op.id])
    requires Resolve(r, op.id).Some? && Do(r, op).registry == Replace(r, op.id, pane, flag).registry
    requires RevivesNothing(Panes(r), op.id, pane.status)
    requires Panes(r)[op.id].claimed ==> pane.claimed
    requires IsTerminal(Panes(r)[op.id].status) && !op.SettingStatus? ==> pane.status == Panes(r)[op.id].status
    requires forall g :: Grant(r, op) == [g] ==> g == pane.generation && pane.claimed && !Panes(r)[op.id].claimed
    ensures PaneStep(r, op, Do(r, op).registry)
  {
    hide Panes, Do, Replace, Resolve, RevivesNothing, Represents, LatestOk;
    ReplaceInv(r, op.id, pane, flag);
  }

  lemma KnownSteps(r: Registry, op: Op)
    requires Inv(r) && Allowed(r, op) && !op.Registering? && op.id in Panes(r)
    requires Resolve(r, op.id) == Some(Panes(r)[op.id])
    ensures PaneStep(r, op, Do(r, op).registry)
  {
    hide Inv, Panes, Register, SetPane, Saves, RevivesNothing, Resolve, PaneStep;
    var pane := Panes(r)[op.id];
    var named := if op.Instructing? then pane.generation == op.generation else Names(pane, op.generation);
    UnchangedSteps(r, op);
    if named {
      match op
      case SettingStatus(id, g, status, message) =>
        ReplaceSteps(r, op, pane.(status := status, message := message), true);
      case SettingActiveStatus(id, g, status, message) =>
        if !IsTerminal(pane.status) {
          AliveRevives(r, id, status);
          ReplaceSteps(r, op, pane.(status := status, message := message), true);
        }
      case ClaimingClosure(id, g, status, message) =>
        AliveRevives(r, id, if IsTerminal(pane.status) then pane.status else status);
        var closed := if IsTerminal(pane.status) then pane else pane.(status := status, message := message);
        ReplaceSteps(r, op, closed.(claimed := true), !pane.claimed);
      case Instructing(id, g, text) =>
        AliveRevives(r, id, pane.status);
        ReplaceSteps(r, op, pane.(lastInstruction := text), true);
      case Printing(id, g, output, activeOnly) =>
        AliveRevives(r, id, pane.status);
        if !(activeOnly && IsTerminal(pane.status)) {
          ReplaceSteps(r, op, pane.(lastOutput := output), true);
        }
      case Removing(id, g, claiming) =>
        RemoveSteps(r, op);
    }
  }

  lemma UnchangedSteps(r: Registry, op: Op)
    ensures Do(r, op).registry == r && Grant(r, op) == [] ==> PaneStep(r, op, Do(r, op).registry)
  {
    hide Do, Grant, Panes;
  }

  lemma RemoveSteps(r: Registry, op: Op)
    requires Inv(r) && op.Removing? && op.id in Panes(r) && Names(Panes(r)[op.id], op.generation)
    ensures PaneStep(r, op, Do(r, op).registry)
  {
    hide Panes, Resolve, RevivesNothing, Represents, LatestOk;
    ResolvesIn(r, op.id);
    RemoveInv(r, op.id, op.generation, op.claiming);
  }

  lemma GrantSpentKeeps(r: Registry, op: Op, r': Registry, g: nat)
    requires PaneStep(r, op, r') && GrantSpent(r, g)
    ensures GrantSpent(r', g)
  {
  }

  lemma GrantsKeep(w: World, op: Op)
    requires Inv(w.registry) && Allowed(w.registry, op) && GrantsOk(w)
    ensures GrantsOk(Next(w, Did(op)))
  {
    hide Inv, Do, Allowed, Panes, Grant;
    var r, r' := w.registry, Do(w.registry, op).registry;
    OpSteps(r, op);
    GrantShape(r, op);
    var w' := Next(w, Did(op));
    forall i | 0 <= i < |w.granted| ensures GrantSpent(r', w.granted[i]) {
      GrantSpentKeeps(r, op, r', w.granted[i]);
    }
    if Grant(r, op) != [] {
      var g := Grant(r, op)[0];
      assert Grant(r, op) == [g];
      var p :| p in Panes(r) && Panes(r)[p].generation == g && !Panes(r)[p].claimed;
      GenerationsOf(r, p);
      assert GrantSpent(r', g);
    }
  }

  lemma GenerationsOf(r: Registry, p: PaneId)
    requires Inv(r) && p in Panes(r)
    ensures 0 < Panes(r)[p].generation <= r.nextGeneration
  {
  }

  lemma GrantShape(r: Registry, op: Op)
    ensures |Grant(r, op)| <= 1
  {
  }

  lemma {:induction false} GrantsStayOk(worlds: seq<World>, evs: seq<Event>, k: nat)
    requires IsRun(worlds, evs) && k < |worlds|
    ensures GrantsOk(worlds[k])
  {
    hide WorldInv, Allowed, RowsOk, IsLoaded, Do;
    if k > 0 {
      GrantsStayOk(worlds, evs, k - 1);
      var w, ev := worlds[k - 1], evs[k - 1];
      assert CanHappen(w, ev) && worlds[k] == Next(w, ev);
      if ev.Did? {
        RegistryInv(worlds, evs, k - 1);
        GrantsKeep(w, ev.op);
      }
    }
  }

  lemma RegistryInv(worlds: seq<World>, evs: seq<Event>, k: nat)
    requires IsRun(worlds, evs) && k < |worlds|
    ensures Inv(worlds[k].registry)
  {
    RunKeeps(worlds, evs, k);
  }

  /** Within one daemon lifetime no generation's close notification is granted twice. */
  lemma OneCloseNotification(worlds: seq<World>, evs: seq<Event>, k: nat, i: nat, j: nat)
    requires IsRun(worlds, evs) && k < |worlds| && i < j < |worlds[k].granted|
    ensures worlds[k].granted[i] != worlds[k].granted[j]
  {
    GrantsStayOk(worlds, evs, k);
  }

  // ---------- Terminal is final ----------

  /** From `i` to `j` nothing but operations that respect terminal states. */
  ghost predicate OnlyGuarded(evs: seq<Event>, i: nat, j: nat) {
    forall k :: i <= k < j && k < |evs| ==> evs[k].Did? && !evs[k].op.SettingStatus?
  }

  /** While only guarded operations run, a terminal pane keeps its status as long as the
      registry has it, and its generation never comes back. */
  lemma {:induction false} TerminalIsFinal(worlds: seq<World>, evs: seq<Event>, i: nat, j: nat, p: PaneId, q: PaneId)
    requires IsRun(worlds, evs) && i <= j < |worlds| && OnlyGuarded(evs, i, j)
    requires p in Panes(worlds[i].registry) && IsTerminal(Panes(worlds[i].registry)[p].status)
    ensures worlds[j].registry.nextGeneration >= Panes(worlds[i].registry)[p].generation
    ensures q in Panes(worlds[j].registry) && Panes(worlds[j].registry)[q].generation == Panes(worlds[i].registry)[p].generation ==>
              q == p && Panes(worlds[j].registry)[q].status == Panes(worlds[i].registry)[p].status
    decreases j
  {
    hide WorldInv, Allowed, RowsOk, IsLoaded, Do, Panes, Inv, Grant;
    if i == j {
      RegistryInv(worlds, evs, i);
      GenerationsOf(worlds[i].registry, p);
      if q in Panes(worlds[j].registry) && Panes(worlds[j].registry)[q].generation == Panes(worlds[i].registry)[p].generation {
        SameGeneration(worlds[i].registry, p, q);
      }
    } else {
      TerminalIsFinal(worlds, evs, i, j - 1, p, q);
      RegistryInv(worlds, evs, j - 1);
      assert CanHappen(worlds[j - 1], evs[j - 1]) && worlds[j] == Next(worlds[j - 1], evs[j - 1]);
      OpSteps(worlds[j - 1].registry, evs[j - 1].op);
    }
  }

  lemma SameGeneration(r: Registry, p: PaneId, q: PaneId)
    requires Inv(r) && p in Panes(r) && q in Panes(r) && Panes(r)[p].generation == Panes(r)[q].generation
    ensures p == q
  {
  }

  // ---------- The update without a guard ----------

  /** An unguarded update that revives a pane beside a live one leaves rows that every later
      restart refuses. */
  lemma RevivalStopsRestarts(rows: Rows, r: Registry, id: PaneId, generation: nat, status: Status, message: string)
    requires Inv(r) && Mirrors(rows, r) && id in Panes(r) && Names(Panes(r)[id], generation)
    requires !RevivesNothing(Panes(r), id, status)
    ensures !RowsOk(WriteRows(rows, UpdateStatus(r, id, generation, status, message).saves))
  {
    hide Panes, Mirrors, RevivesNothing, LiveUnique, WriteRows, Represents, LatestOk, GenerationsOk, RowsOk, SetPane, Resolve;
    var pane := Panes(r)[id].(status := status, message := message);
    ResolvesIn(r, id);
    StatusUpdateKeepsIff(r, id, generation, status, message);
    ReplaceWritten(rows, r, id, pane, true);
    var result := Replace(r, id, pane, true);
    assert result.saves[..4] == result.saves;
    RestartSucceedsIff(WriteRows(rows, result.saves), result.registry);
  }

  const FIRST := Request("a", "s", "t", "z", None, "", Details("", "", "", "", "", [], ""), None)

  lemma EmptyRegistry()
    ensures Inv(EMPTY) && Panes(EMPTY) == map[]
  {
    assert Represents(EMPTY, map[]);
    PanesAreRepresented(EMPTY, map[]);
  }

  lemma FirstPaneEnters() returns (r: Registry)
    ensures r == Register(EMPTY, FIRST, 0).registry
    ensures Inv(r) && Panes(r) == map["a" := NewPane(FIRST, 1, 0)] && r.nextGeneration == 1
  {
    EmptyRegistry();
    HeldIff(EMPTY, "s", "z");
    hide Panes, Inv, MakeRoom, Admit, IsHeld;
    RegisterInv(EMPTY, FIRST, 0);
    r := Register(EMPTY, FIRST, 0).registry;
  }

  lemma FirstPaneCloses(r1: Registry) returns (r: Registry)
    requires Inv(r1) && Panes(r1) == map["a" := NewPane(FIRST, 1, 0)] && r1.nextGeneration == 1
    ensures r == ClaimClosure(r1, "a", 0, Closed, "").registry
    ensures Inv(r) && Panes(r) == map["a" := NewPane(FIRST, 1, 0).(status := Closed, claimed := true)] && r.nextGeneration == 1
  {
    hide Panes, Inv, SetPane;
    ResolvesIn(r1, "a");
    AliveRevives(r1, "a", Closed);
    ReplaceInv(r1, "a", NewPane(FIRST, 1, 0).(status := Closed, claimed := true), true);
    r := ClaimClosure(r1, "a", 0, Closed, "").registry;
  }

  lemma SecondPaneEnters(r2: Registry) returns (r: Registry)
    requires Inv(r2) && Panes(r2) == map["a" := NewPane(FIRST, 1, 0).(status := Closed, claimed := true)] && r2.nextGeneration == 1
    ensures r == Register(r2, FIRST.(id := "b"), 0).registry
    ensures Inv(r) && Panes(r) == Panes(r2)["b" := NewPane(FIRST.(id := "b"), 2, 0)]
  {
    hide Panes, Inv, MakeRoom, Admit, IsHeld;
    InvRepresents(r2);
    ResolvesAll(r2, "b");
    HeldIff(r2, "s", "z");
    RegisterInv(r2, FIRST.(id := "b"), 0);
    r := Register(r2, FIRST.(id := "b"), 0).registry;
  }

  /** It does happen: a Zellij pane ID is used again after its first pane was closed, and then
      a failed call on the first pane records an error there. */
  lemma RevivalHappens() returns (r1: Registry, r2: Registry, r3: Registry)
    ensures r1 == Register(EMPTY, FIRST, 0).registry && r2 == ClaimClosure(r1, "a", 0, Closed, "").registry
    ensures r3 == Register(r2, FIRST.(id := "b"), 0).registry && Inv(r3)
    ensures !Inv(UpdateStatus(r3, "a", 1, Error, "send failed").registry)
  {
    hide Panes, Inv, Register, ClaimClosure, UpdateStatus;
    r1 := FirstPaneEnters();
    r2 := FirstPaneCloses(r1);
    r3 := SecondPaneEnters(r2);
    StatusUpdateKeepsIff(r3, "a", 1, Error, "send failed");
    assert "b" in Panes(r3) && IsTaken(Panes(r3), "a");
  }
}
