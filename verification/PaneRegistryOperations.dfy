/** Every operation of the registry keeps its invariant; the one update without a guard does
    so under an exact condition. */
module PaneRegistryOperations {
  import opened Basics
  import opened PaneRegistry
  import opened PaneRegistryInvariant

  datatype Op =
    | Registering(request: Request, now: int)
    | SettingStatus(id: PaneId, generation: nat, status: Status, message: string)
    | SettingActiveStatus(id: PaneId, generation: nat, status: Status, message: string)
    | ClaimingClosure(id: PaneId, generation: nat, status: Status, message: string)
    | Instructing(id: PaneId, generation: nat, text: string)
    | Printing(id: PaneId, generation: nat, output: string, activeOnly: bool)
    | Removing(id: PaneId, generation: nat, claiming: bool)

  ghost function Do(r: Registry, op: Op): Result {
    match op
    case Registering(q, now) => Register(r, q, now)
    case SettingStatus(id, g, status, message) => UpdateStatus(r, id, g, status, message)
    case SettingActiveStatus(id, g, status, message) => UpdateActiveStatus(r, id, g, status, message)
    case ClaimingClosure(id, g, status, message) => ClaimClosure(r, id, g, status, message)
    case Instructing(id, g, text) => RecordInstruction(r, id, g, text)
    case Printing(id, g, output, activeOnly) => UpdateOutput(r, id, g, output, activeOnly)
    case Removing(id, g, claiming) => Remove(r, id, g, claiming)
  }

  // ---------- One operation keeps the invariant ----------

  /** Another live pane of the same session is this Zellij pane. */
  ghost predicate IsTaken(panes: map<PaneId, Pane>, id: PaneId)
    requires id in panes
  {
    exists q :: q in panes && q != id && panes[q].session == panes[id].session && panes[q].zellij == panes[id].zellij
      && !IsTerminal(panes[q].status)
  }

  /** A status update without a guard brings no terminal pane back beside a live one. */
  ghost predicate RevivesNothing(panes: map<PaneId, Pane>, id: PaneId, status: Status)
    requires id in panes
  {
    IsTerminal(status) || !IsTerminal(panes[id].status) || panes[id].zellij == "" || !IsTaken(panes, id)
  }

  lemma ResolvesAll(r: Registry, id: PaneId)
    requires Represents(r, Panes(r))
    ensures Resolve(r, id) == if id in Panes(r) then Some(Panes(r)[id]) else None
    ensures id in r.locations <==> id in Panes(r)
  {
  }

  /** The new pane differs from the one that it replaces only in what changes over its life. */
  predicate SameIdentity(a: Pane, b: Pane) {
    a.id == b.id && a.generation == b.generation && a.session == b.session && a.tab == b.tab && a.zellij == b.zellij
  }

  lemma ReplaceFlat(panes: map<PaneId, Pane>, id: PaneId, pane: Pane, next: nat, latest: map<ZellijId, PaneId>)
    requires GenerationsOk(panes, next) && LatestOk(panes, latest) && id in panes && SameIdentity(pane, panes[id])
    ensures GenerationsOk(panes[id := pane], next) && LatestOk(panes[id := pane], latest)
  {
    forall z | z in latest ensures IsNewest(panes[id := pane], latest[z]) {
      assert IsNewest(panes, latest[z]);
    }
  }

  lemma ReplaceSound(r: Registry, id: PaneId, pane: Pane)
    requires Sound(r) && id in Panes(r) && SameIdentity(pane, Panes(r)[id])
    ensures HasTab(r, pane.session, pane.tab) && id in r.locations && r.locations[id] == Location(pane.session, pane.tab)
    ensures var r1 := SetPane(r, r.locations[id], id, pane);
      && Sound(r1) && Panes(r1) == Panes(r)[id := pane]
      && r1.nextGeneration == r.nextGeneration && r1.latest == r.latest && r1.locations == r.locations
  {
    hide NamesOk, Holds, IdsOk, Panes, GenerationsOk, LatestOk;
    IdOf(Panes(r), id);
    ReplaceKeeps(r, Panes(r), id, pane);
    PanesAreRepresented(SetPane(r, r.locations[id], id, pane), Panes(r)[id := pane]);
    ReplaceFlat(Panes(r), id, pane, r.nextGeneration, r.latest);
  }

  /** An unguarded status update keeps live panes unique exactly when it revives nothing. */
  lemma StatusUpdateKeepsIff(r: Registry, id: PaneId, generation: nat, status: Status, message: string)
    requires Inv(r) && id in Panes(r) && Names(Panes(r)[id], generation)
    ensures Sound(UpdateStatus(r, id, generation, status, message).registry)
    ensures Inv(UpdateStatus(r, id, generation, status, message).registry) <==> RevivesNothing(Panes(r), id, status)
  {
    hide NamesOk, Holds, IdsOk, Panes, GenerationsOk, LatestOk, LiveUnique, RevivesNothing;
    var pane := Panes(r)[id].(status := status, message := message);
    ResolvesAll(r, id);
    ReplaceSound(r, id, pane);
    if RevivesNothing(Panes(r), id, status) {
      ReplaceUnique(Panes(r), id, pane);
    } else {
      ReplaceClashes(Panes(r), id, pane);
    }
  }

  lemma ReplaceClashes(panes: map<PaneId, Pane>, id: PaneId, pane: Pane)
    requires id in panes && SameIdentity(pane, panes[id]) && !RevivesNothing(panes, id, pane.status)
    ensures !LiveUnique(panes[id := pane])
  {
    var q :| q in panes && q != id && panes[q].session == panes[id].session && panes[q].zellij == panes[id].zellij
      && !IsTerminal(panes[q].status);
    assert Clash(panes[id := pane][q], panes[id := pane][id]);
  }

  lemma ReplaceUnique(panes: map<PaneId, Pane>, id: PaneId, pane: Pane)
    requires LiveUnique(panes) && id in panes && SameIdentity(pane, panes[id])
    requires RevivesNothing(panes, id, pane.status)
    ensures LiveUnique(panes[id := pane])
  {
    var panes1 := panes[id := pane];
    forall p, q | p in panes1 && q in panes1 && Clash(panes1[p], panes1[q]) ensures p == q {
      if p != q {
        if !IsTerminal(panes[id].status) {
          assert Clash(panes[p], panes[q]);
        }
      }
    }
  }

  lemma ReplaceInv(r: Registry, id: PaneId, pane: Pane, flag: bool)
    requires Inv(r) && id in Panes(r) && SameIdentity(pane, Panes(r)[id])
    requires RevivesNothing(Panes(r), id, pane.status)
    ensures Resolve(r, id).Some?
    ensures var r1 := Replace(r, id, pane, flag).registry;
      Inv(r1) && Panes(r1) == Panes(r)[id := pane] && r1.nextGeneration == r.nextGeneration && r1.latest == r.latest
  {
    ResolvesAll(r, id);
    ReplaceSound(r, id, pane);
    ReplaceUnique(Panes(r), id, pane);
  }

  lemma RemoveFlat(panes: map<PaneId, Pane>, id: PaneId, next: nat, latest: map<ZellijId, PaneId>)
    requires GenerationsOk(panes, next) && LatestOk(panes, latest) && LiveUnique(panes) && id in panes
    ensures var z := panes[id].zellij;
      var latest1 := if z != "" && z in latest && latest[z] == id then latest - {z} else latest;
      GenerationsOk(panes - {id}, next) && LatestOk(panes - {id}, latest1) && LiveUnique(panes - {id})
  {
    forall z | z in latest && latest[z] != id ensures IsNewest(panes - {id}, latest[z]) {
      assert IsNewest(panes, latest[z]);
    }
    assert forall z :: z in latest && latest[z] == id ==> panes[id].zellij == z;
  }

  lemma RemoveInv(r: Registry, id: PaneId, generation: nat, claiming: bool)
    requires Inv(r) && id in Panes(r) && Names(Panes(r)[id], generation)
    ensures var r1 := Remove(r, id, generation, claiming).registry;
      Inv(r1) && Panes(r1) == Panes(r) - {id} && r1.nextGeneration == r.nextGeneration
  {
    hide NamesOk, Holds, IdsOk, Panes, GenerationsOk, LatestOk, LiveUnique;
    var r1 := Remove(r, id, generation, claiming).registry;
    ResolvesAll(r, id);
    IdOf(Panes(r), id);
    DeleteKeeps(r, Panes(r), id, r1.latest);
    PanesAreRepresented(r1, Panes(r) - {id});
    RemoveFlat(Panes(r), id, r.nextGeneration, r.latest);
  }

  lemma HeldIff(r: Registry, s: SessionId, z: ZellijId)
    requires Represents(r, Panes(r))
    ensures IsHeld(r, s, z) <==> exists p :: p in Panes(r) && Panes(r)[p].session == s && Panes(r)[p].zellij == z && !IsTerminal(Panes(r)[p].status)
  {
    if p :| p in Panes(r) && Panes(r)[p].session == s && Panes(r)[p].zellij == z && !IsTerminal(Panes(r)[p].status) {
      assert InTree(r, s, Panes(r)[p].tab, p);
    }
  }

  /** A new pane has the next generation, and its Zellij pane is free in its session. */
  ghost predicate MayEnter(panes: map<PaneId, Pane>, pane: Pane, next: nat) {
    && pane.id !in panes && pane.id != "" && pane.session != "" && pane.tab != "" && pane.generation == next + 1
    && (pane.zellij != "" ==>
          forall p :: p in panes && panes[p].session == pane.session && panes[p].zellij == pane.zellij ==> IsTerminal(panes[p].status))
  }

  lemma EnterFlat(panes: map<PaneId, Pane>, pane: Pane, next: nat, latest: map<ZellijId, PaneId>)
    requires GenerationsOk(panes, next) && LatestOk(panes, latest) && LiveUnique(panes) && MayEnter(panes, pane, next)
    ensures var panes1 := panes[pane.id := pane];
      && GenerationsOk(panes1, pane.generation) && LiveUnique(panes1)
      && LatestOk(panes1, if pane.zellij != "" then latest[pane.zellij := pane.id] else latest)
  {
    var panes1 := panes[pane.id := pane];
    var latest1 := if pane.zellij != "" then latest[pane.zellij := pane.id] else latest;
    forall z | z in latest1 ensures z != "" && IsNewest(panes1, latest1[z]) && panes1[latest1[z]].zellij == z {
      if z != pane.zellij {
        assert IsNewest(panes, latest[z]);
      }
    }
    forall p, q | p in panes1 && q in panes1 && Clash(panes1[p], panes1[q]) ensures p == q {
      if p != pane.id && q != pane.id {
        assert Clash(panes[p], panes[q]);
      }
    }
  }

  lemma RegisterInv(r: Registry, q: Request, now: int)
    requires Inv(r) && Register(r, q, now).outcome.Done?
    ensures IsValid(q)
    ensures var pane := NewPane(q, r.nextGeneration + 1, now);
      var r1 := Register(r, q, now).registry;
      && MayEnter(Panes(r), pane, r.nextGeneration)
      && Inv(r1) && Panes(r1) == Panes(r)[pane.id := pane] && r1.nextGeneration == r.nextGeneration + 1
  {
    var panes := Panes(r);
    var pane := NewPane(q, r.nextGeneration + 1, now);
    if q.zellijTab.Some? {
      DecimalNotEmpty(q.zellijTab.value);
    }
    HeldIff(r, pane.session, pane.zellij);
    ResolvesAll(r, pane.id);
    EnterFlat(panes, pane, r.nextGeneration, r.latest);
    hide NamesOk, Holds, MayEnter, GenerationsOk, LatestOk, LiveUnique;
    assert pane.session != "" && pane.tab != "";
    MakeRoomKeeps(r, panes, pane, now);
    var room := MakeRoom(r, pane, now);
    RoomKeepsIndexes(r, pane, now);
    AdmitKeeps(room, panes, pane);
    PanesAreRepresented(Admit(room, pane), panes[pane.id := pane]);
  }

  lemma RoomKeepsIndexes(r: Registry, pane: Pane, now: int)
    ensures var r1 := MakeRoom(r, pane, now);
      r1.locations == r.locations && r1.latest == r.latest && r1.nextGeneration == r.nextGeneration
  {
  }

  /** Every operation but an unguarded status update that revives a pane beside a live one. */
  ghost predicate Allowed(r: Registry, op: Op) {
    op.SettingStatus? && op.id in Panes(r) && Names(Panes(r)[op.id], op.generation) ==>
      RevivesNothing(Panes(r), op.id, op.status)
  }

  ghost predicate Applies(r: Registry, op: Op) {
    Do(r, op).registry != r || Do(r, op).saves != []
  }

  lemma InvRepresents(r: Registry)
    requires Inv(r)
    ensures Represents(r, Panes(r))
  {
  }

  lemma RegisterKeeps(r: Registry, q: Request, now: int)
    requires Inv(r)
    ensures Inv(Register(r, q, now).registry)
  {
    hide Inv;
    if Register(r, q, now).outcome.Done? {
      RegisterInv(r, q, now);
    }
  }

  lemma DoKeeps(r: Registry, op: Op)
    requires Inv(r) && Allowed(r, op)
    ensures Inv(Do(r, op).registry)
  {
    hide Inv, Register, Replace, Names, RevivesNothing;
    if op.Registering? {
      RegisterKeeps(r, op.request, op.now);
    } else {
      InvRepresents(r);
      ResolvesAll(r, op.id);
      if op.id in Panes(r) {
        ExistingKeeps(r, op);
      }
    }
  }

  lemma ExistingKeeps(r: Registry, op: Op)
    requires Inv(r) && Allowed(r, op) && !op.Registering? && op.id in Panes(r)
    ensures Inv(Do(r, op).registry)
  {
    hide Inv, Register, UpdateStatus, UpdateActiveStatus, ClaimClosure, RecordInstruction, UpdateOutput, Panes, RevivesNothing, Names;
    match op
    case SettingStatus(id, g, status, message) => StatusKeeps(r, id, g, status, message);
    case SettingActiveStatus(id, g, status, message) => ActiveStatusKeeps(r, id, g, status, message);
    case ClaimingClosure(id, g, status, message) => ClaimKeeps(r, id, g, status, message);
    case Instructing(id, g, text) => InstructionKeeps(r, id, g, text);
    case Printing(id, g, output, activeOnly) => OutputKeeps(r, id, g, output, activeOnly);
    case Removing(id, g, claiming) => RemoveKeeps(r, id, g, claiming);
  }

  lemma StatusKeeps(r: Registry, id: PaneId, generation: nat, status: Status, message: string)
    requires Inv(r) && id in Panes(r) && (Names(Panes(r)[id], generation) ==> RevivesNothing(Panes(r), id, status))
    ensures Inv(UpdateStatus(r, id, generation, status, message).registry)
  {
    hide Inv, Replace, Panes, RevivesNothing, Resolve, IsTerminal;
    ResolvesIn(r, id);
    var pane := Panes(r)[id];
    if Names(pane, generation) {
      ReplaceInv(r, id, pane.(status := status, message := message), true);
    }
  }

  lemma ActiveStatusKeeps(r: Registry, id: PaneId, generation: nat, status: Status, message: string)
    requires Inv(r) && id in Panes(r)
    ensures Inv(UpdateActiveStatus(r, id, generation, status, message).registry)
  {
    hide Inv, Replace, Panes, Resolve, IsTerminal;
    ResolvesIn(r, id);
    var pane := Panes(r)[id];
    if Names(pane, generation) && !IsTerminal(pane.status) {
      ReplaceInv(r, id, pane.(status := status, message := message), true);
    }
  }

  lemma ClaimKeeps(r: Registry, id: PaneId, generation: nat, status: Status, message: string)
    requires Inv(r) && id in Panes(r)
    ensures Inv(ClaimClosure(r, id, generation, status, message).registry)
  {
    hide Inv, Replace, Panes, Resolve, IsTerminal;
    ResolvesIn(r, id);
    var pane := Panes(r)[id];
    if Names(pane, generation) {
      var closed := if IsTerminal(pane.status) then pane else pane.(status := status, message := message);
      ReplaceInv(r, id, closed.(claimed := true), !pane.claimed);
    }
  }

  lemma InstructionKeeps(r: Registry, id: PaneId, generation: nat, text: string)
    requires Inv(r) && id in Panes(r)
    ensures Inv(RecordInstruction(r, id, generation, text).registry)
  {
    hide Inv, Replace, Panes, Resolve, IsTerminal;
    ResolvesIn(r, id);
    var pane := Panes(r)[id];
    if pane.generation == generation {
      ReplaceInv(r, id, pane.(lastInstruction := text), true);
    }
  }

  lemma OutputKeeps(r: Registry, id: PaneId, generation: nat, output: string, activeOnly: bool)
    requires Inv(r) && id in Panes(r)
    ensures Inv(UpdateOutput(r, id, generation, output, activeOnly).registry)
  {
    hide Inv, Replace, Panes, Resolve, IsTerminal;
    ResolvesIn(r, id);
    var pane := Panes(r)[id];
    if Names(pane, generation) && !(activeOnly && IsTerminal(pane.status)) {
      ReplaceInv(r, id, pane.(lastOutput := output), true);
    }
  }

  lemma RemoveKeeps(r: Registry, id: PaneId, generation: nat, claiming: bool)
    requires Inv(r) && id in Panes(r)
    ensures Inv(Remove(r, id, generation, claiming).registry)
  {
    hide Inv, Panes, Resolve, IsTerminal;
    ResolvesIn(r, id);
    if Names(Panes(r)[id], generation) {
      RemoveInv(r, id, generation, claiming);
    }
  }

  lemma ResolvesIn(r: Registry, id: PaneId)
    requires Inv(r) && id in Panes(r)
    ensures Resolve(r, id) == Some(Panes(r)[id])
  {
    ResolvesAll(r, id);
  }
}
