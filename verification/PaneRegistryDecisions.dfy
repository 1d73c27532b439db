/** What every operation of the registry answers and what it makes of the panes, in terms of the
    request and the panes alone. */
module PaneRegistryDecisions {
  import opened Basics
  import opened PaneRegistry
  import opened PaneRegistryInvariant
  import opened PaneRegistryOperations

  predicate HasEnded(pane: Pane) {
    pane.status == Closed || pane.status == Exited || pane.status == Lost
  }

  // ---------- Registration ----------

  predicate IsMalformed(q: Request) {
    q.id == "" || (q.zellijTab.Some? && q.zellijTab.value < 0)
  }

  function SessionOf(q: Request): SessionId {
    if q.session != "" then q.session else "default"
  }

  /** The pane is what the request asks for, with the defaults for what it leaves open. */
  predicate IsAsked(q: Request, pane: Pane) {
    && pane.id == q.id && pane.zellij == q.zellij && pane.zellijTab == q.zellijTab && pane.tabName == q.tabName
    && pane.details == q.details
    && pane.session == SessionOf(q)
    && (q.tab != "" ==> pane.tab == q.tab)
    && (q.tab == "" && q.zellijTab.Some? && q.zellijTab.value >= 0 ==> pane.tab == Decimal(q.zellijTab.value))
    && (q.tab == "" && q.zellijTab.None? ==> pane.tab == if q.tabName != "" then q.tabName else "default")
    && pane.status == (if q.status.Some? then q.status.value else Starting)
    && pane.message == "" && pane.lastOutput == "" && pane.lastInstruction == "" && !pane.claimed
  }

  /** A live pane of the session that the request names is the same Zellij pane. */
  ghost predicate IsInUse(panes: map<PaneId, Pane>, q: Request) {
    && q.zellij != ""
    && exists p :: p in panes && panes[p].zellij == q.zellij && !HasEnded(panes[p]) && panes[p].session == SessionOf(q)
  }

  /** Session and tab are there, with the time and the name that they had or now get. */
  ghost predicate IsFiled(r: Registry, r1: Registry, pane: Pane, now: int) {
    && HasTab(r1, pane.session, pane.tab)
    && r1.sessions[pane.session].createdAt == (if pane.session in r.sessions then r.sessions[pane.session].createdAt else now)
    && var tab := r1.sessions[pane.session].tabs[pane.tab];
      if HasTab(r, pane.session, pane.tab) then
        var old_ := r.sessions[pane.session].tabs[pane.tab];
        tab.createdAt == old_.createdAt && tab.name == if old_.name != "" then old_.name else pane.tabName
      else tab.createdAt == now && tab.name == pane.tabName
  }

  /** A registration is refused exactly for a malformed request, a known ID or a Zellij pane in
      use; otherwise the pane asked for joins the others with the next generation. */
  lemma RegistrationDecides(r: Registry, q: Request, now: int)
    requires Inv(r)
    ensures var res, panes := Do(r, Registering(q, now)), Panes(r);
      if IsMalformed(q) then res == Result(r, InvalidRequest, [])
      else if q.id in panes then res == Result(r, AlreadyExists, [])
      else if IsInUse(panes, q) then res == Result(r, ZellijTaken, [])
      else
        && res.outcome.Done? && res.outcome.flag
        && var pane := res.outcome.pane;
          && IsAsked(q, pane) && pane.createdAt == now && pane.generation == r.nextGeneration + 1
          && Panes(res.registry) == panes[q.id := pane] && res.registry.nextGeneration == pane.generation
          && res.registry.latest == (if q.zellij != "" then r.latest[q.zellij := q.id] else r.latest)
          && IsFiled(r, res.registry, pane, now)
  {
    if !IsMalformed(q) {
      var pane := NewPane(q, r.nextGeneration + 1, now);
      NewIsAsked(q, r.nextGeneration + 1, now);
      InUseIff(r, q);
      ResolvesAll(r, q.id);
      hide Sound, LiveUnique, NewPane, IsAsked, IsInUse, IsHeld, Panes;
      if Register(r, q, now).outcome.Done? {
        RegisterInv(r, q, now);
        AdmittedIsFiled(r, pane, now);
      }
      hide IsFiled, Admit, MakeRoom, Inv;
    }
  }

  lemma NewIsAsked(q: Request, generation: nat, now: int)
    requires !IsMalformed(q)
    ensures IsValid(q) && IsAsked(q, NewPane(q, generation, now))
    ensures NewPane(q, generation, now).createdAt == now && NewPane(q, generation, now).generation == generation
  {
  }

  lemma InUseIff(r: Registry, q: Request)
    requires Represents(r, Panes(r))
    ensures IsInUse(Panes(r), q) <==> q.zellij != "" && IsHeld(r, SessionOf(q), q.zellij)
  {
    HeldIff(r, SessionOf(q), q.zellij);
    hide Represents, IsHeld, Panes;
  }

  lemma AdmittedIsFiled(r: Registry, pane: Pane, now: int)
    ensures HasTab(MakeRoom(r, pane, now), pane.session, pane.tab)
    ensures var r1 := Admit(MakeRoom(r, pane, now), pane);
      && IsFiled(r, r1, pane, now) && r1.nextGeneration == pane.generation
      && r1.latest == if pane.zellij != "" then r.latest[pane.zellij := pane.id] else r.latest
  {
  }

  // ---------- Operations on a pane ----------

  /** The operation names this generation of the pane; an instruction must name it exactly. */
  predicate IsMeant(op: Op, pane: Pane)
    requires !op.Registering?
  {
    op.generation == pane.generation || (op.generation == 0 && !op.Instructing?)
  }

  /** The answer to an operation that is not refused. */
  ghost predicate Answers(r: Registry, op: Op, pane: Pane, flag: bool) {
    Do(r, op).outcome == Done(pane, flag)
  }

  /** Exactly this pane becomes `pane`; with `saved` that is handed over for saving. */
  ghost predicate Becomes(r: Registry, op: Op, pane: Pane, saved: bool) {
    var res := Do(r, op);
    && Panes(res.registry) == Panes(r)[pane.id := pane]
    && res.registry.nextGeneration == r.nextGeneration && res.registry.latest == r.latest
    && (res.saves != [] <==> saved)
  }

  ghost predicate Stays(r: Registry, op: Op) {
    Do(r, op).registry == r && Do(r, op).saves == []
  }

  /** Unknown panes and other generations are refused, and nothing changes. */
  lemma RefusalsDecide(r: Registry, op: Op)
    requires Inv(r) && !op.Registering?
    ensures op.id !in Panes(r) ==> Do(r, op) == Result(r, NotFound, [])
    ensures op.id in Panes(r) && !IsMeant(op, Panes(r)[op.id]) ==> Do(r, op) == Result(r, Stale, [])
  {
    ResolvesAll(r, op.id);
    hide Represents, GenerationsOk, LatestOk, LiveUnique;
  }

  lemma ReplaceBecomes(r: Registry, id: PaneId, pane: Pane, flag: bool)
    requires Inv(r) && id in Panes(r) && SameIdentity(pane, Panes(r)[id])
    ensures Resolve(r, id).Some?
    ensures var res := Replace(r, id, pane, flag);
      && res.outcome == Done(pane, flag) && res.saves != []
      && Panes(res.registry) == Panes(r)[id := pane]
      && res.registry.nextGeneration == r.nextGeneration && res.registry.latest == r.latest
  {
    ResolvesAll(r, id);
    ReplaceSound(r, id, pane);
  }

  /** A plain status update writes over any status, the others over a live one alone. */
  lemma StatusDecides(r: Registry, op: Op)
    requires Inv(r) && (op.SettingStatus? || op.SettingActiveStatus?)
    requires op.id in Panes(r) && IsMeant(op, Panes(r)[op.id])
    ensures var pane := Panes(r)[op.id];
      var updated := pane.(status := op.status, message := op.message);
      if op.SettingActiveStatus? && HasEnded(pane) then Answers(r, op, pane, false) && Stays(r, op)
      else Answers(r, op, updated, true) && Becomes(r, op, updated, true)
  {
    var pane := Panes(r)[op.id];
    ResolvesAll(r, op.id);
    IdOf(Panes(r), op.id);
    ReplaceBecomes(r, op.id, pane.(status := op.status, message := op.message), true);
    hide Represents, GenerationsOk, LatestOk, LiveUnique, Replace;
  }

  /** A claim ends a live pane and keeps the status of an ended one; the first caller gets it. */
  lemma ClaimDecides(r: Registry, op: Op)
    requires Inv(r) && op.ClaimingClosure? && op.id in Panes(r) && IsMeant(op, Panes(r)[op.id])
    ensures var pane := Panes(r)[op.id];
      var claimed := if HasEnded(pane) then pane.(claimed := true)
        else pane.(status := op.status, message := op.message, claimed := true);
      Answers(r, op, claimed, !pane.claimed) && Becomes(r, op, claimed, true)
  {
    var pane := Panes(r)[op.id];
    ResolvesAll(r, op.id);
    IdOf(Panes(r), op.id);
    var claimed := if HasEnded(pane) then pane.(claimed := true)
      else pane.(status := op.status, message := op.message, claimed := true);
    ReplaceBecomes(r, op.id, claimed, !pane.claimed);
    hide Represents, GenerationsOk, LatestOk, LiveUnique, Replace;
  }

  /** An instruction is noted and saved; output is noted, and saved never. */
  lemma NotesDecide(r: Registry, op: Op)
    requires Inv(r) && (op.Instructing? || op.Printing?) && op.id in Panes(r) && IsMeant(op, Panes(r)[op.id])
    ensures var pane := Panes(r)[op.id];
      if op.Instructing? then
        var noted := pane.(lastInstruction := op.text);
        Answers(r, op, noted, true) && Becomes(r, op, noted, true)
      else if op.activeOnly && HasEnded(pane) then Answers(r, op, pane, false) && Stays(r, op)
      else
        var noted := pane.(lastOutput := op.output);
        Answers(r, op, noted, true) && Becomes(r, op, noted, false)
  {
    var pane := Panes(r)[op.id];
    ResolvesAll(r, op.id);
    IdOf(Panes(r), op.id);
    if op.Instructing? {
      ReplaceBecomes(r, op.id, pane.(lastInstruction := op.text), true);
    } else {
      ReplaceBecomes(r, op.id, pane.(lastOutput := op.output), true);
    }
    hide Represents, GenerationsOk, LatestOk, LiveUnique, Replace;
  }

  /** A removal takes exactly that pane away, also as the latest of its Zellij pane, and may
      claim its notification. */
  lemma RemovalDecides(r: Registry, op: Op)
    requires Inv(r) && op.Removing? && op.id in Panes(r) && IsMeant(op, Panes(r)[op.id])
    ensures var pane, res := Panes(r)[op.id], Do(r, op);
      && Answers(r, op, pane.(claimed := pane.claimed || op.claiming), op.claiming && !pane.claimed)
      && Panes(res.registry) == Panes(r) - {op.id} && res.registry.nextGeneration == r.nextGeneration
      && LosesLatest(r.latest, op.id, res.registry.latest) && res.saves != []
  {
    var pane := Panes(r)[op.id];
    ResolvesAll(r, op.id);
    IdOf(Panes(r), op.id);
    RemoveInv(r, op.id, op.generation, op.claiming);
    LatestOf(r, pane);
    hide Inv, Panes, Resolve, DeletePane, Saves, LosesLatest;
  }

  /** The pane is the latest of no Zellij pane any more; the other entries are as before. */
  ghost predicate LosesLatest(before: map<ZellijId, PaneId>, id: PaneId, after: map<ZellijId, PaneId>) {
    && (forall z :: z in after <==> z in before && before[z] != id)
    && (forall z :: z in after ==> after[z] == before[z])
  }

  lemma LatestOf(r: Registry, pane: Pane)
    requires LatestOk(Panes(r), r.latest) && pane.id in Panes(r) && Panes(r)[pane.id] == pane
    ensures LosesLatest(r.latest, pane.id,
      if pane.zellij != "" && pane.zellij in r.latest && r.latest[pane.zellij] == pane.id then r.latest - {pane.zellij} else r.latest)
  {
    hide Panes, IsNewest;
  }
}
