/** The manager's loop over its array of slots. Each call lets the world move on first; the
    account of panes and of tickets holds before and after every call. `log` is the list of all
    calls with their answers, and what every part of the loop does is stated in terms of it. */
module TicketManagerLoop {
  import opened Basics
  import opened TicketSlots
  import opened TicketManager
  import opened TicketCalls

  class Manager {
    const manager: string
    const task: string
    const session: string
    const announces: bool
    const slots: array<Slot>
    var connected: bool
    ghost var world: World
    ghost var log: seq<Call>
    ghost var released: seq<Release>
    /** Tickets that a release left to nobody. */
    ghost var lost: set<TicketId>
    /** Tickets that a claim took without telling so. */
    ghost var unseen: set<TicketId>
    /** Tickets of completed slots that were claimed again since: those still held, and all ever. */
    ghost var reclaimed: set<TicketId>
    ghost var doubles: set<TicketId>

    function Who(): Owner {
      Owner(manager, task, session, announces)
    }

    ghost predicate Valid()
      reads this, slots
    {
      && SlotsOk(slots[..], manager)
      && PanesAccounted(slots[..], world)
      && TicketsOk(slots[..], world, lost + unseen, reclaimed)
      && LogOk(released, lost, reclaimed, doubles)
    }

    /** Between two steps of the loop no slot is just being started. */
    ghost predicate AtRest()
      reads slots
    {
      forall i :: 0 <= i < slots.Length ==> slots[i].state != Starting
    }

    constructor (manager: string, task: string, session: string, announces: bool, workers: nat, ghost tickets: map<TicketId, Status>)
      ensures Valid() && AtRest() && fresh(slots) && slots.Length == workers && this.manager == manager
      ensures Who() == Owner(manager, task, session, announces) && !connected
      ensures forall i :: 0 <= i < workers ==> slots[i] == EMPTY_SLOT
      ensures log == [] && released == [] && lost == unseen == reclaimed == doubles == {}
    {
      this.manager, this.task, this.session, this.announces := manager, task, session, announces;
      slots := new Slot[workers](_ => EMPTY_SLOT);
      connected, world, log, released := false, World(tickets, {}, map[]), [], [];
      lost, unseen, reclaimed, doubles := {}, {}, {}, {};
    }

    /** A ticket is lost exactly when its completed slot was released after the ticket had been
        claimed again, while that claim stood. */
    lemma LostIffReclaimed(t: TicketId)
      requires Valid()
      ensures t in lost <==>
        exists k :: 0 <= k < |released| && released[k].ticket == t && released[k].done && released[k].again && released[k].standing
      ensures t in lost ==> t in doubles
      ensures t in doubles <==> t in reclaimed || WasAgain(released, t)
    {
    }

    /** At every moment of the manager's life. */
    lemma Capacity(panes: set<PaneId>)
      requires Valid() && forall p :: p in panes ==> MayBeAlive(TruthOf(world, p))
      ensures |panes| <= slots.Length
    {
      CapacityIsNeverExceeded(slots[..], world, panes);
    }

    // ---------- Calls ----------
    // The contract of a call admits every answer and everything that others may do until it
    // returns; its body shows that the contract can be met, and nothing relies on it.

    method CreatePane(i: nat) returns (out: CreateOutcome)
      requires Valid() && i < slots.Length && (slots[i].state == Starting || slots[i].uncertain) && slots[i].state != Empty
      modifies this`world, this`log
      ensures Valid() && CreateStep(old(world), slots[i].pane, out, world)
      ensures log == old(log) + [Create(slots[i].pane, out)]
    {
      out := *;
      log := log + [Create(slots[i].pane, out)];
      var truth := if out == Created then Alive else if out == SafeFailure then Absent else InFlight;
      world := world.(panes := world.panes[slots[i].pane := truth]);
      CreateKeepsPanes(slots[..], old(world), world, i, out);
      DriftKeepsTickets(slots[..], old(world), world, lost + unseen, reclaimed);
    }

    method Inspect() returns (infos: seq<Info>, ok: bool)
      requires Valid()
      modifies this`world, this`log
      ensures Valid() && Drift(old(world), world)
      ensures ok ==> Honest(infos, world, manager, task, session)
      ensures log == old(log) + [List(if ok then Some(infos) else None)]
    {
      infos, ok := [], false;
      log := log + [List(None)];
    }

    method ClosePane(i: nat) returns (ok: bool)
      requires Valid() && i < slots.Length && slots[i].created
      modifies this`world, this`log
      ensures Valid() && CloseStep(old(world), slots[i].pane, ok, world)
      ensures log == old(log) + [TicketCalls.Close(slots[i].pane, ok)]
    {
      ok := false;
      log := log + [TicketCalls.Close(slots[i].pane, ok)];
    }

    /** The claimed ticket says whether a prompt can be made of it and whether it wants a worktree. */
    method ReadTicket() returns (valid: bool, worktree: bool)
      requires Valid()
      modifies this`log
      ensures Valid() && log == old(log) + [Read(valid, worktree)]
    {
      valid, worktree := *, *;
      log := log + [Read(valid, worktree)];
    }

    method PrepareWorktree() returns (ok: bool)
      requires Valid()
      modifies this`world, this`log
      ensures Valid() && Drift(old(world), world) && log == old(log) + [Prepare(ok)]
    {
      ok := *;
      log := log + [Prepare(ok)];
    }

    method Notify()
      requires Valid()
      modifies this`world, this`log
      ensures Valid() && Drift(old(world), world) && log == old(log) + [Tell]
    {
      log := log + [Tell];
    }

    method OpenStream() returns (ok: bool)
      requires Valid()
      modifies this`world, this`log
      ensures Valid() && Drift(old(world), world) && log == old(log) + [TicketCalls.Connect(ok)]
    {
      ok := *;
      log := log + [TicketCalls.Connect(ok)];
    }

    method IsCanceled() returns (canceled: bool)
      requires Valid()
      modifies this`log
      ensures Valid() && log == old(log) + [Check(canceled)]
    {
      canceled := *;
      log := log + [Check(canceled)];
    }

    method ReadScreen(i: nat) returns (screen: Screen)
      requires Valid() && i < slots.Length
      modifies this`world, this`log
      ensures Valid() && Drift(old(world), world) && log == old(log) + [Snapshot(slots[i].pane, screen)]
    {
      screen := *;
      log := log + [Snapshot(slots[i].pane, screen)];
    }

    method MoveTicket(i: nat, target: Status) returns (out: StoreOutcome)
      requires Valid() && i < slots.Length && slots[i].state != Empty && !slots[i].done && target in {Ready, Done}
      modifies this`world, this`log
      ensures Valid() && MoveStep(old(world), slots[i].ticket, target, out, world)
      ensures log == old(log) + [Move(slots[i].ticket, target, out)]
    {
      var t := slots[i].ticket;
      out := Failed;
      ghost var w := world;
      if * {
        out := Accepted;
        world := world.(tickets := world.tickets[t := target]);
      }
      log := log + [Move(t, target, out)];
      DriftKeepsPanes(slots[..], w, world);
      DriftKeepsTickets(slots[..], w, world, lost + unseen, reclaimed);
    }

    method GetStatus(i: nat) returns (status: Status, ok: bool)
      requires Valid() && i < slots.Length
      modifies this`world, this`log
      ensures Valid() && Drift(old(world), world)
      ensures ok ==> status == StatusOf(world, slots[i].ticket)
      ensures log == old(log) + [Look(slots[i].ticket, if ok then Some(status) else None)]
    {
      status, ok := *, false;
      log := log + [Look(slots[i].ticket, None)];
    }

    /** A claim may take a ticket also where it answers an error. */
    method Next() returns (claim: Claim, ghost taken: set<TicketId>)
      requires Valid()
      modifies this`world, this`log
      ensures ClaimStep(old(world), claim, taken, world) && log == old(log) + [Ask(claim)]
    {
      claim, taken := NoTicket, {};
      log := log + [Ask(claim)];
    }

    // ---------- Rewriting one slot ----------

    method Release(i: nat)
      requires Valid() && i < slots.Length && slots[i].state != Empty
      requires !MayBeAlive(TruthOf(world, slots[i].pane))
      requires slots[i].done || !Standing(world, slots[i].ticket)
      modifies this`released, this`lost, this`reclaimed, slots
      ensures Valid() && slots[..] == old(slots[..])[i := EMPTY_SLOT]
      ensures released == old(released) + [ReleaseOf(old(slots[i]), world, old(reclaimed))]
      ensures lost == old(lost) + if Standing(world, old(slots[i].ticket)) then {old(slots[i].ticket)} else {}
    {
      hide LogOk;
      ReleaseKeeps(slots[..], world, manager, i);
      ReleaseKeepsTickets(slots[..], world, manager, i, lost + unseen, reclaimed);
      ghost var before, t := slots[..], slots[i].ticket;
      ghost var more := if Standing(world, t) then {t} else {};
      ghost var r := ReleaseOf(slots[i], world, reclaimed);
      released, lost, reclaimed := released + [r], lost + more, reclaimed - {t};
      slots[i] := EMPTY_SLOT;
      assert slots[..] == before[i := EMPTY_SLOT];
      assert lost + unseen == old(lost) + unseen + more;
      LogGrows(old(released), r, old(lost), old(reclaimed), doubles);
    }

    method Rewrite(i: nat, s: Slot)
      requires Valid() && i < slots.Length && slots[i].state != Empty
      requires s.state != Empty && s.ticket == slots[i].ticket && s.pane == slots[i].pane && SlotOk(s, manager)
      requires MayBeAlive(TruthOf(world, s.pane)) && Accounts(slots[i], TruthOf(world, s.pane)) ==> Accounts(s, TruthOf(world, s.pane))
      requires (slots[i].done ==> s.done) && (s.done && !slots[i].done ==> !Standing(world, s.ticket))
      modifies slots
      ensures Valid() && slots[..] == old(slots[..])[i := s]
    {
      RewriteKeeps(slots[..], world, manager, i, s);
      RewriteKeepsTickets(slots[..], world, manager, i, s, lost + unseen, reclaimed);
      ghost var before := slots[..];
      slots[i] := s;
      assert slots[..] == before[i := s];
    }

    // ---------- Starting ----------

    method TicketAssignedElsewhere(i: nat, t: TicketId) returns (yes: bool)
      requires i < slots.Length && slots[i].state == Empty
      ensures yes <==> HoldsTicket(slots[..], t)
    {
      for j := 0 to slots.Length
        invariant forall k :: 0 <= k < j ==> slots[k].state == Empty || slots[k].ticket != t
      {
        if j != i && slots[j].state != Empty && slots[j].ticket == t {
          assert slots[..][j] == slots[j];
          return true;
        }
      }
      return false;
    }

    /** The ticket was given back and the slot freed, or both are left for a cleanup. */
    twostate predicate Requeued(i: nat)
      requires i < slots.Length && old(slots[i].state) != Empty
      reads this, slots
    {
      var t := old(slots[i].ticket);
      if slots[i].state == Empty then StatusOf(world, t) == Ready
      else slots[i] == EMPTY_SLOT.(state := CleanupFailed, ticket := t, pane := old(slots[i].pane))
    }

    method RequeueWithoutPane(i: nat) returns (ghost calls: seq<Call>)
      requires Valid() && i < slots.Length && slots[i].state == Starting
      requires !MayBeAlive(TruthOf(world, slots[i].pane))
      modifies this`world, this`log, this`released, this`lost, this`reclaimed, slots
      ensures Valid() && Requeued(i) && OthersKept(i) && lost == old(lost)
      ensures !MayBeAlive(TruthOf(world, old(slots[i].pane)))
      ensures log == old(log) + calls && RequeuedBy(old(slots[i]), calls, slots[i])
    {
      var out := MoveTicket(i, Ready);
      calls := [Move(slots[i].ticket, Ready, out)];
      DriftKeepsDead(old(world), world, slots[i].pane);
      if out == Accepted {
        Release(i);
      } else {
        Rewrite(i, slots[i].(state := CleanupFailed));
      }
    }

    /** Only slot `i` was rewritten. */
    twostate predicate OthersKept(i: nat)
      reads slots
    {
      forall j :: 0 <= j < slots.Length && j != i ==> slots[j] == old(slots[j])
    }

    /** A claim is noted: what it took without telling, and whether it took the ticket of a
        completed slot once more. */
    ghost method Note(claim: Claim, taken: set<TicketId>, before: World)
      requires SlotsOk(slots[..], manager) && PanesAccounted(slots[..], before) && LogOk(released, lost, reclaimed, doubles)
      requires TicketsOk(slots[..], before, lost + unseen, reclaimed) && ClaimStep(before, claim, taken, world)
      modifies this`unseen, this`reclaimed, this`doubles
      ensures SlotsOk(slots[..], manager) && PanesAccounted(slots[..], world) && LogOk(released, lost, reclaimed, doubles)
      ensures TicketsOk(slots[..], world, lost + unseen + (if claim.Claimed? then {claim.ticket} else {}), reclaimed)
      ensures unseen == old(unseen) + if claim == ClaimFailed then taken else {}
      ensures forall t :: t in doubles <==> t in old(doubles) || (t in taken && HoldsDone(slots[..], t))
      ensures claim.Claimed? ==> taken == {claim.ticket}
      ensures !claim.Claimed? ==> TicketsOk(slots[..], world, lost + unseen, reclaimed)
    {
      DriftKeepsPanes(slots[..], before, world);
      ClaimKeepsTickets(slots[..], before, world, claim, taken, lost + unseen, reclaimed);
      var again := set t | t in taken && HoldsDone(slots[..], t);
      unseen := unseen + if claim == ClaimFailed then taken else {};
      reclaimed, doubles := reclaimed + again, doubles + again;
      assert lost + unseen + (if claim.Claimed? then {claim.ticket} else {}) == lost + old(unseen) + taken;
      assert !claim.Claimed? ==> lost + unseen == lost + old(unseen) + taken;
    }

    /** Claims the next ticket and notes that; the slots are as before. */
    method ClaimTicket() returns (claim: Claim)
      requires Valid()
      modifies this`world, this`log, this`unseen, this`reclaimed, this`doubles
      ensures SlotsOk(slots[..], manager) && PanesAccounted(slots[..], world) && LogOk(released, lost, reclaimed, doubles)
      ensures TicketsOk(slots[..], world, lost + unseen + (if claim.Claimed? then {claim.ticket} else {}), reclaimed)
      ensures claim.Claimed? ==> doubles == old(doubles) + if HoldsDone(slots[..], claim.ticket) then {claim.ticket} else {}
      ensures claim == NoTicket ==> doubles == old(doubles)
      ensures claim != ClaimFailed ==> unseen == old(unseen)
      ensures !claim.Claimed? ==> Valid() && doubles <= old(doubles) + unseen
      ensures log == old(log) + [Ask(claim)]
    {
      hide LogOk, SlotsOk, PanesAccounted, TicketsOk, HoldsDone;
      ghost var taken: set<TicketId>;
      claim, taken := Next();
      Note(claim, taken, old(world));
    }

    /** How a start ended. Nothing was claimed; the ticket is held elsewhere already and claimed
        once more if it was completed there; or the slot took it, and it works or was given back. */
    twostate predicate Started(i: nat, claim: Claim, stop: bool)
      requires i < slots.Length
      reads this, slots
    {
      match claim
      case Claimed(t) =>
        if HoldsTicket(old(slots[..]), t) then
          && !stop && slots[..] == old(slots[..])
          && doubles == old(doubles) + if HoldsDone(slots[..], t) then {t} else {}
        else
          && doubles == old(doubles) && Launched(i, t, stop)
      case _ => stop && slots[..] == old(slots[..]) && doubles <= old(doubles) + unseen && (claim == NoTicket ==> doubles == old(doubles))
    }

    ghost predicate Launched(i: nat, t: TicketId, stop: bool)
      requires i < slots.Length
      reads this, slots
    {
      && slots[i].state in {Empty, Working, CleanupFailed} && (stop <==> slots[i].state != Working)
      && (if slots[i].state == Empty then StatusOf(world, t) == Ready
          else slots[i].ticket == t && slots[i].pane == PaneName(manager, t))
      && (slots[i].state == Working ==> TruthOf(world, slots[i].pane) == Alive)
      && (slots[i].state != Working && !slots[i].uncertain ==> !MayBeAlive(TruthOf(world, PaneName(manager, t))))
    }

    method Take(i: nat, t: TicketId)
      requires SlotsOk(slots[..], manager) && PanesAccounted(slots[..], world) && LogOk(released, lost, reclaimed, doubles)
      requires TicketsOk(slots[..], world, lost + unseen + {t}, reclaimed)
      requires i < slots.Length && slots[i].state == Empty && !HoldsTicket(slots[..], t)
      modifies slots
      ensures Valid() && slots[i] == EMPTY_SLOT.(state := Starting, ticket := t, pane := PaneName(manager, t))
      ensures OthersKept(i) && !MayBeAlive(TruthOf(world, slots[i].pane))
    {
      hide LogOk;
      ghost var before := slots[..];
      var taking := EMPTY_SLOT.(state := Starting, ticket := t, pane := PaneName(manager, t));
      TakeKeeps(before, world, manager, i, t);
      TakeKeepsTickets(before, world, i, taking, lost + unseen, reclaimed);
      slots[i] := taking;
      assert slots[..] == before[i := taking];
    }

    method TakeAndLaunch(i: nat, t: TicketId) returns (stop: bool, ghost calls: seq<Call>)
      requires SlotsOk(slots[..], manager) && PanesAccounted(slots[..], world) && LogOk(released, lost, reclaimed, doubles)
      requires TicketsOk(slots[..], world, lost + unseen + {t}, reclaimed)
      requires i < slots.Length && slots[i].state == Empty && !HoldsTicket(slots[..], t)
      modifies this`world, this`log, this`released, this`lost, this`reclaimed, slots
      ensures Valid() && OthersKept(i) && lost == old(lost) && Launched(i, t, stop) && (stop <==> slots[i].state != Working)
      ensures log == old(log) + calls && LaunchedBy(Taking(Who(), t), calls, slots[i])
    {
      hide LogOk, TicketsOk, PanesAccounted, SlotsOk, LaunchedBy;
      Take(i, t);
      stop, calls := Launch(i);
    }

    method StartSlot(i: nat) returns (stop: bool, ghost claim: Claim, ghost calls: seq<Call>)
      requires Valid() && i < slots.Length && slots[i].state == Empty
      modifies this`world, this`log, this`released, this`lost, this`unseen, this`reclaimed, this`doubles, slots
      ensures Valid() && OthersKept(i) && Started(i, claim, stop) && lost == old(lost)
      ensures claim != ClaimFailed ==> unseen == old(unseen)
      ensures log == old(log) + calls && calls != [] && calls[0] == Ask(claim)
      ensures StartedBy(Who(), claim.Claimed? && HoldsTicket(old(slots[..]), claim.ticket), calls, slots[i], stop)
    {
      hide LogOk, SlotsOk, PanesAccounted, TicketsOk, HoldsDone;
      EmptyIs(i);
      var got := ClaimTicket();
      claim, calls := got, [Ask(got)];
      if !got.Claimed? {
        return true, claim, calls;
      }
      var t := got.ticket;
      var elsewhere := TicketAssignedElsewhere(i, t);
      if elsewhere {
        HeldIsNotMissing(slots[..], world, lost + unseen, t, reclaimed);
        return false, claim, calls;
      }
      DoneIsHeld(slots[..], manager, t);
      hide LaunchedBy, Launched;
      ghost var launching;
      stop, launching := TakeAndLaunch(i, t);
      StartIs(Who(), t, launching, slots[i], stop);
      calls := calls + launching;
    }

    lemma EmptyIs(i: nat)
      requires Valid() && i < slots.Length && slots[i].state == Empty
      ensures slots[i] == EMPTY_SLOT
    {
      assert SlotOk(slots[..][i], manager);
    }

    /** The prompt is rendered, and the worktree prepared if one is wanted. */
    method PrepareLaunch() returns (ready: bool, ghost calls: seq<Call>)
      requires Valid()
      modifies this`world, this`log
      ensures Valid() && Drift(old(world), world) && log == old(log) + calls && PreparedBy(calls, ready)
    {
      var valid, worktree := ReadTicket();
      calls := [Read(valid, worktree)];
      if !valid || !worktree {
        return valid, calls;
      }
      ready := PrepareWorktree();
      calls := calls + [Prepare(ready)];
    }

    method Launch(i: nat) returns (stop: bool, ghost calls: seq<Call>)
      requires Valid() && i < slots.Length && slots[i].state == Starting
      requires !MayBeAlive(TruthOf(world, slots[i].pane))
      modifies this`world, this`log, this`released, this`lost, this`reclaimed, slots
      ensures Valid() && OthersKept(i) && lost == old(lost) && Launched(i, old(slots[i].ticket), stop)
      ensures log == old(log) + calls && LaunchedBy(old(slots[i]), calls, slots[i])
    {
      hide LogOk, TicketsOk, PanesAccounted, RequeuedBy, LaunchedBy, PreparedBy;
      ghost var giving, before := [], slots[i];
      var ready;
      ready, calls := PrepareLaunch();
      DriftKeepsDead(old(world), world, slots[i].pane);
      if !ready {
        giving := RequeueWithoutPane(i);
        LaunchIs(before, calls, giving, slots[i], false);
        return true, calls + giving;
      }
      stop, giving := MakePane(i);
      LaunchIs(before, calls, giving, slots[i], true);
      calls := calls + giving;
    }

    method MakePane(i: nat) returns (stop: bool, ghost calls: seq<Call>)
      requires Valid() && i < slots.Length && slots[i].state == Starting
      requires !MayBeAlive(TruthOf(world, slots[i].pane))
      modifies this`world, this`log, this`released, this`lost, this`reclaimed, slots
      ensures Valid() && OthersKept(i) && lost == old(lost) && Launched(i, old(slots[i].ticket), stop)
      ensures log == old(log) + calls && MadeBy(old(slots[i]), calls, slots[i])
    {
      hide LogOk, TicketsOk, PanesAccounted, RequeuedBy;
      var out := CreatePane(i);
      calls := [Create(slots[i].pane, out)];
      match out
      case SafeFailure =>
        ghost var giving := RequeueWithoutPane(i);
        stop, calls := true, calls + giving;
      case UnsafeFailure =>
        Rewrite(i, slots[i].(state := CleanupFailed, uncertain := true));
        stop := true;
      case Created =>
        Rewrite(i, slots[i].(state := Working, created := true));
        stop := false;
    }

    method VisitSlot(i: nat) returns (stop: bool, ghost calls: seq<Call>)
      requires Valid() && i < slots.Length && slots[i].state != Starting
      modifies this`world, this`log, this`released, this`lost, this`unseen, this`reclaimed, this`doubles, slots
      ensures Valid() && OthersKept(i) && lost == old(lost) && slots[i].state != Starting
      ensures log == old(log) + calls && VisitedBy(Who(), old(slots[..]), i, calls, slots[i], stop)
    {
      hide LogOk, TicketsOk, PanesAccounted, SlotsOk, StartedBy;
      var canceled := IsCanceled();
      calls := [Check(canceled)];
      if canceled || slots[i].state != Empty {
        return canceled, calls;
      }
      ghost var claim, starting;
      stop, claim, starting := StartSlot(i);
      calls := calls + starting;
      assert calls[1..] == starting;
    }

    /** Only empty slots are filled, in order, until a visit says to stop. */
    method FillEmptySlots() returns (ghost did: seq<seq<Call>>)
      requires Valid() && AtRest()
      modifies this`world, this`log, this`released, this`lost, this`unseen, this`reclaimed, this`doubles, slots
      ensures Valid() && AtRest() && lost == old(lost)
      ensures forall j :: 0 <= j < slots.Length ==> IsFill(old(slots[j]), slots[j])
      ensures log == old(log) + Flat(did) && FilledBy(Who(), connected, old(slots[..]), did, slots[..])
    {
      hide FilledBy, FilledAt, IsFill;
      did := [];
      if !connected {
        FilledNone(Who(), slots[..]);
      } else {
        did := VisitSlots();
      }
      FillIsFill(Who(), connected, old(slots[..]), did, slots[..]);
    }

    method VisitSlots() returns (ghost did: seq<seq<Call>>)
      requires Valid() && AtRest() && connected
      modifies this`world, this`log, this`released, this`lost, this`unseen, this`reclaimed, this`doubles, slots
      ensures Valid() && AtRest() && lost == old(lost)
      ensures log == old(log) + Flat(did) && FilledBy(Who(), true, old(slots[..]), did, slots[..])
    {
      hide LogOk, TicketsOk, PanesAccounted, SlotsOk, VisitedBy, FilledAt;
      did := [];
      for i := 0 to slots.Length
        invariant Valid() && AtRest() && lost == old(lost) && |did| == i && log == old(log) + Flat(did)
        invariant slots[..][i..] == old(slots[..])[i..]
        invariant forall j :: 0 <= j < i ==> FilledAt(Who(), old(slots[..]), j, did[j], slots[..], false)
      {
        ghost var before := slots[..];
        var stop, calls := VisitSlot(i);
        FlatPush(did, calls);
        assert before == before[..i] + old(slots[..])[i..];
        assert slots[..] == before[i := slots[i]];
        FilledOn(Who(), old(slots[..]), before, i, did, calls, slots[..], stop);
        did := did + [calls];
        if stop {
          return;
        }
      }
    }

    // ---------- Closing and cleaning up ----------

    /** The pane of this name takes up room: it is listed and has not ended. */
    method PaneConsumesCapacity(infos: seq<Info>, i: nat) returns (yes: bool)
      requires Valid() && Honest(infos, world, manager, task, session)
      requires i < slots.Length && slots[i].created && slots[i].state != Empty
      ensures !yes ==> !MayBeAlive(TruthOf(world, slots[i].pane))
      ensures yes <==> TakesRoom(Who(), infos, slots[i].pane)
    {
      ghost var s := slots[i];
      if MayBeAlive(TruthOf(world, s.pane)) {
        OnlyOwner(slots[..], world, manager, i);
      }
      for k := 0 to |infos|
        invariant forall m :: 0 <= m < k ==> infos[m].id != slots[i].pane
      {
        if infos[k].id == slots[i].pane {
          ListedIsReal(infos, world, manager, task, session, s, k);
        }
        if infos[k].id != slots[i].pane || infos[k].task != task || infos[k].session != session {
          continue;
        }
        return !infos[k].terminal;
      }
      UnlistedIsAbsent(infos, world, manager, task, session, s);
      return false;
    }

    method CloseOrAbsent(i: nat) returns (closed: bool, ghost calls: seq<Call>)
      requires Valid() && i < slots.Length && slots[i].created && slots[i].state != Empty
      modifies this`world, this`log
      ensures Valid() && Drift(old(world), world)
      ensures closed ==> !MayBeAlive(TruthOf(world, slots[i].pane))
      ensures log == old(log) + calls && ClosedBy(Who(), slots[i].pane, calls, closed)
    {
      var ok := ClosePane(i);
      calls := [TicketCalls.Close(slots[i].pane, ok)];
      ghost var middle := world;
      if ok {
        return true, calls;
      }
      var infos, inspected := Inspect();
      calls := calls + [List(if inspected then Some(infos) else None)];
      DriftTwice(old(world), middle, world);
      if !inspected {
        return false, calls;
      }
      var consumes := PaneConsumesCapacity(infos, i);
      return !consumes, calls;
    }

    method FindsWorker(infos: seq<Info>, i: nat) returns (found: bool)
      requires Valid() && Honest(infos, world, manager, task, session)
      requires i < slots.Length && slots[i].state != Empty
      ensures found <==> TruthOf(world, slots[i].pane) in {Alive, Terminal}
      ensures found <==> ListsWorker(Who(), infos, slots[i].pane)
    {
      ghost var s := slots[i];
      for k := 0 to |infos|
        invariant forall m :: 0 <= m < k ==> infos[m].id != slots[i].pane
      {
        if infos[k].id == slots[i].pane {
          ListedIsReal(infos, world, manager, task, session, s, k);
        }
        if IsWorker(infos[k], slots[i], task, session) {
          return true;
        }
      }
      UnlistedIsAbsent(infos, world, manager, task, session, s);
      return false;
    }

    /** Asks the runtime, and failing that creates the pane again under the same name. */
    method ResolveUncertainCreation(i: nat) returns (resolved: bool, ghost calls: seq<Call>)
      requires Valid() && i < slots.Length && slots[i].state != Empty && slots[i].uncertain
      modifies this`world, this`log, slots
      ensures Valid() && OthersKept(i)
      ensures slots[i] == old(slots[i]).(uncertain := slots[i].uncertain, created := slots[i].created)
      ensures slots[i].uncertain == !resolved
      ensures !slots[i].created && resolved ==> !MayBeAlive(TruthOf(world, slots[i].pane))
      ensures log == old(log) + calls && ResolvedBy(Who(), old(slots[i]), calls, slots[i])
    {
      hide LogOk, TicketsOk, PanesAccounted, ListsWorker;
      var infos, ok := Inspect();
      calls := [List(if ok then Some(infos) else None)];
      if !ok {
        return false, calls;
      }
      var found := FindsWorker(infos, i);
      if found {
        Rewrite(i, slots[i].(uncertain := false, created := true));
        return true, calls;
      }
      var out := CreatePane(i);
      calls := calls + [Create(slots[i].pane, out)];
      match out
      case Created =>
        Rewrite(i, slots[i].(uncertain := false, created := true));
        return true, calls;
      case SafeFailure =>
        Rewrite(i, slots[i].(uncertain := false));
        return true, calls;
      case UnsafeFailure =>
        infos, ok := Inspect();
        calls := calls + [List(if ok then Some(infos) else None)];
        if !ok {
          return false, calls;
        }
        found := FindsWorker(infos, i);
        if found {
          Rewrite(i, slots[i].(uncertain := false, created := true));
          return true, calls;
        }
        return false, calls;
    }

    /** What a slot may become: empty, or in one of these states with the ticket and the pane
        that it had. */
    static predicate IsStep(before: Slot, after: Slot, states: set<SlotState>) {
      after == EMPTY_SLOT || (after.state in states && after.ticket == before.ticket && after.pane == before.pane)
    }

    /** If the slot was emptied its pane cannot be alive, and its ticket is lost if it is in
        progress for the manager again. */
    twostate predicate Freed(i: nat, before: Slot)
      requires i < slots.Length
      reads this, slots
    {
      if slots[i] != EMPTY_SLOT then lost == old(lost)
      else
        && !MayBeAlive(TruthOf(world, before.pane))
        && lost == old(lost) + if Standing(world, before.ticket) then {before.ticket} else {}
    }

    /** Settles whether there is a pane, and closes it if there is. */
    method ClearPane(i: nat) returns (gone: bool, ghost c: Cleanup)
      requires Valid() && i < slots.Length && slots[i].state != Empty && slots[i].state != Starting
      modifies this`world, this`log, slots
      ensures Valid() && OthersKept(i)
      ensures slots[i] == old(slots[i]).(uncertain := slots[i].uncertain, created := slots[i].created)
      ensures gone ==> !MayBeAlive(TruthOf(world, slots[i].pane))
      ensures log == old(log) + CallsOfCleanup(c) && c.middle == slots[i] && c.ending == []
      ensures PaneHandled(Who(), old(slots[i]), c) && gone == PaneIsGone(Who(), c)
    {
      hide LogOk, TicketsOk, PanesAccounted, ResolvedBy, ClosedBy;
      c := Cleanup([], slots[i], [], []);
      if slots[i].uncertain {
        var resolved, resolving := ResolveUncertainCreation(i);
        c := Cleanup(resolving, slots[i], [], []);
        if !resolved {
          return false, c;
        }
      } else {
        NothingToResolve(Who(), slots[i]);
      }
      gone := true;
      if slots[i].created {
        ghost var closing;
        gone, closing := CloseOrAbsent(i);
        c := c.(closing := closing);
        ClosedOnce(Who(), slots[i].pane, closing);
      } else if MayBeAlive(TruthOf(world, slots[i].pane)) {
        OnlyOwner(slots[..], world, manager, i);
      }
    }

    method RetryCleanup(i: nat) returns (ghost calls: seq<Call>)
      requires Valid() && i < slots.Length && slots[i].state == CleanupFailed
      modifies this`world, this`log, this`released, this`lost, this`reclaimed, slots
      ensures Valid() && OthersKept(i) && IsStep(old(slots[i]), slots[i], {CleanupFailed}) && lost == old(lost)
      ensures slots[i].state == Empty ==>
        !MayBeAlive(TruthOf(world, old(slots[i].pane))) && StatusOf(world, old(slots[i].ticket)) != InProgress
      ensures log == old(log) + calls && CleansUp(Who(), old(slots[i]), calls, slots[i])
    {
      hide LogOk, TicketsOk, PanesAccounted, PaneHandled, PaneIsGone;
      var gone;
      ghost var c;
      gone, c := ClearPane(i);
      calls := CallsOfCleanup(c);
      if gone {
        if slots[i].created {
          Rewrite(i, slots[i].(created := false));
        }
        ghost var before := world;
        var out := MoveTicket(i, Ready);
        PaneHandledAnyway(Who(), old(slots[i]), c, [Move(slots[i].ticket, Ready, out)]);
        c := c.(ending := [Move(slots[i].ticket, Ready, out)]);
        calls := calls + c.ending;
        DriftKeepsDead(before, world, slots[i].pane);
        if out != Failed {
          Release(i);
        }
      }
      assert CleanedUp(Who(), old(slots[i]), c, slots[i]);
    }

    method RetryClose(i: nat) returns (ghost closing: seq<Call>, ghost telling: seq<Call>)
      requires Valid() && i < slots.Length && slots[i].state == Closing
      modifies this`world, this`log, this`released, this`lost, this`reclaimed, slots
      ensures Valid() && OthersKept(i) && (slots[i] == EMPTY_SLOT || slots[i] == old(slots[i]))
      ensures slots[i] == EMPTY_SLOT <==> |released| == |old(released)| + 1
      ensures Freed(i, old(slots[i]))
      ensures log == old(log) + closing + telling && FinishedBy(Who(), old(slots[i]), closing, telling, slots[i])
    {
      telling := [];
      var closed;
      closed, closing := CloseOrAbsent(i);
      ClosedOnce(Who(), slots[i].pane, closing);
      if closed {
        telling := FinalizeCompletedSlot(i);
      }
    }

    /** The completion is announced if that is wanted, which takes time; then the slot is free. */
    method FinalizeCompletedSlot(i: nat) returns (ghost telling: seq<Call>)
      requires Valid() && i < slots.Length && slots[i].state == Closing
      requires !MayBeAlive(TruthOf(world, slots[i].pane))
      modifies this`world, this`log, this`released, this`lost, this`reclaimed, slots
      ensures Valid() && OthersKept(i) && slots[i] == EMPTY_SLOT && |released| == |old(released)| + 1
      ensures Freed(i, old(slots[i]))
      ensures log == old(log) + telling && telling == Telling(Who())
    {
      telling := [];
      if announces {
        Notify();
        telling := [Tell];
        DriftKeepsDead(old(world), world, slots[i].pane);
      }
      Release(i);
    }

    /** Moves the ticket to Done; where that is refused it may be there already. */
    method MoveToDone(i: nat) returns (done: bool, ghost moving: seq<Call>)
      requires Valid() && i < slots.Length && slots[i].state == Completing
      modifies this`world, this`log
      ensures Valid() && log == old(log) + moving && done == IsCompleted(slots[i], moving) && IsMoving(slots[i], moving)
      ensures done ==> StatusOf(world, slots[i].ticket) == Done
    {
      var out := MoveTicket(i, Done);
      moving := [Move(slots[i].ticket, Done, out)];
      if out == InvalidTransition {
        var status, ok := GetStatus(i);
        moving := moving + [Look(slots[i].ticket, if ok then Some(status) else None)];
        return ok && status == Done, moving;
      }
      done := out == Accepted;
    }

    method RetryComplete(i: nat) returns (ghost calls: seq<Call>)
      requires Valid() && i < slots.Length && slots[i].state == Completing
      modifies this`world, this`log, this`released, this`lost, this`reclaimed, slots
      ensures Valid() && OthersKept(i) && IsStep(old(slots[i]), slots[i], {Completing, Closing})
      ensures slots[i].state == Completing ==> slots[i] == old(slots[i])
      ensures Freed(i, old(slots[i]))
      ensures log == old(log) + calls && Completes(Who(), old(slots[i]), calls, slots[i])
    {
      hide LogOk, TicketsOk, PanesAccounted, FinishedBy, IsCompleted, IsMoving;
      ghost var c := Completion([], [], []);
      var done;
      ghost var moving;
      done, moving := MoveToDone(i);
      c := c.(moving := moving);
      if done {
        Rewrite(i, slots[i].(done := true, state := Closing));
        ghost var closing, telling := RetryClose(i);
        c := c.(closing := closing, telling := telling);
      }
      calls := CallsOf(c);
      assert CompletedBy(Who(), old(slots[i]), c, slots[i]);
    }

    method CompleteSlot(i: nat) returns (ghost calls: seq<Call>)
      requires Valid() && i < slots.Length && slots[i].state == Working
      modifies this`world, this`log, this`released, this`lost, this`reclaimed, slots
      ensures Valid() && OthersKept(i) && IsStep(old(slots[i]), slots[i], {Completing, Closing})
      ensures Freed(i, old(slots[i]))
      ensures log == old(log) + calls && Completes(Who(), old(slots[i]).(state := Completing), calls, slots[i])
    {
      hide Completes;
      Rewrite(i, slots[i].(state := Completing));
      calls := RetryComplete(i);
    }

    method RetrySlot(i: nat) returns (ghost calls: seq<Call>)
      requires Valid() && i < slots.Length && slots[i].state != Starting
      modifies this`world, this`log, this`released, this`lost, this`reclaimed, slots
      ensures Valid() && OthersKept(i) && slots[i].state != Starting
      ensures log == old(log) + calls && RetriedBy(Who(), old(slots[i]), calls, slots[i])
    {
      hide LogOk, TicketsOk, PanesAccounted, SlotsOk, Completes, CleansUp, FinishedBy;
      calls := [];
      match slots[i].state
      case Completing =>
        calls := RetryComplete(i);
      case Closing =>
        ghost var closing, telling := RetryClose(i);
        calls := CallsOf(Completion([], closing, telling));
      case CleanupFailed =>
        calls := RetryCleanup(i);
      case _ =>
    }

    /** Slots with something to retry get one step further or stay; the others are untouched. */
    method RetrySlots() returns (ghost did: seq<seq<Call>>)
      requires Valid() && AtRest()
      modifies this`world, this`log, this`released, this`lost, this`reclaimed, slots
      ensures Valid() && AtRest()
      ensures log == old(log) + Flat(did) && AllRetried(Who(), old(slots[..]), did, slots[..])
    {
      hide LogOk, TicketsOk, PanesAccounted, SlotsOk, RetriedBy;
      did := [];
      for i := 0 to slots.Length
        invariant Valid() && AtRest() && |did| == i && log == old(log) + Flat(did)
        invariant forall j :: 0 <= j < i ==> RetriedBy(Who(), old(slots[j]), did[j], slots[j])
        invariant forall j :: i <= j < slots.Length ==> slots[j] == old(slots[j])
      {
        ghost var calls := RetrySlot(i);
        FlatPush(did, calls);
        did := did + [calls];
      }
    }

    method RecoverSlot(i: nat) returns (ghost calls: seq<Call>)
      requires Valid() && i < slots.Length && slots[i].state != Starting
      modifies this`world, this`log, this`released, this`lost, this`reclaimed, slots
      ensures Valid() && OthersKept(i) && slots[i].state != Starting
      ensures log == old(log) + calls && RecoveredBy(Who(), old(slots[i]), calls, slots[i])
    {
      hide LogOk, TicketsOk, PanesAccounted, Completes, CleansUp;
      calls := [];
      if slots[i].state != Working {
        return;
      }
      ghost var more: seq<Call> := [];
      var screen := ReadScreen(i);
      calls := [Snapshot(slots[i].pane, screen)];
      match screen {
        case NoAnswer =>
        case PaneUnknown =>
          Rewrite(i, slots[i].(state := CleanupFailed));
          more := RetryCleanup(i);
        case Screen(active, completed) =>
          if active && completed {
            more := CompleteSlot(i);
          }
      }
      assert (calls + more)[1..] == more;
      calls := calls + more;
    }

    /** A worker's screen may show that it has finished, or that its pane is unknown. */
    method RecoverSnapshots() returns (ghost did: seq<seq<Call>>)
      requires Valid() && AtRest()
      modifies this`world, this`log, this`released, this`lost, this`reclaimed, slots
      ensures Valid() && AtRest()
      ensures log == old(log) + Flat(did) && AllRecovered(Who(), old(slots[..]), did, slots[..])
    {
      hide LogOk, TicketsOk, PanesAccounted, SlotsOk, RecoveredBy;
      did := [];
      for i := 0 to slots.Length
        invariant Valid() && AtRest() && |did| == i && log == old(log) + Flat(did)
        invariant forall j :: 0 <= j < i ==> RecoveredBy(Who(), old(slots[j]), did[j], slots[j])
        invariant forall j :: i <= j < slots.Length ==> slots[j] == old(slots[j])
      {
        ghost var calls := RecoverSlot(i);
        FlatPush(did, calls);
        did := did + [calls];
      }
    }

    method WorkerExists(i: nat) returns (found: bool, ghost call: Call)
      requires Valid() && i < slots.Length && slots[i].state != Empty
      modifies this`world, this`log
      ensures Valid() && (found ==> TruthOf(world, slots[i].pane) in {Alive, Terminal})
      ensures log == old(log) + [call] && call.List? && (found <==> FindsIt(Who(), call, slots[i].pane))
    {
      var infos, ok := Inspect();
      call := List(if ok then Some(infos) else None);
      if !ok {
        return false, call;
      }
      found := FindsWorker(infos, i);
    }

    /** Output of a worker's pane: `completed` says that it contains the completion marker,
        `summarized` that the summary came with it. */
    method HandleOutput(pane: PaneId, completed: bool, summarized: bool) returns (ghost calls: seq<Call>)
      requires Valid() && AtRest()
      modifies this`world, this`log, this`released, this`lost, this`reclaimed, slots
      ensures Valid() && AtRest()
      ensures log == old(log) + calls
      ensures OutputBy(Who(), pane, completed, summarized, old(slots[..]), calls, slots[..])
    {
      hide LogOk, TicketsOk, PanesAccounted, SlotsOk, HandledBy;
      calls := [];
      for i := 0 to slots.Length
        invariant Valid() && AtRest() && calls == [] && log == old(log) && slots[..] == old(slots[..])
        invariant forall j :: 0 <= j < i ==> !(slots[j].state == Working && slots[j].pane == pane)
      {
        if slots[i].state == Working && slots[i].pane == pane {
          assert WorksIn(old(slots[..]), pane, i);
          calls := HandleMarker(i, completed, summarized);
          return;
        }
      }
    }

    /** Output of the pane in which slot `i` works. */
    method HandleMarker(i: nat, completed: bool, summarized: bool) returns (ghost calls: seq<Call>)
      requires Valid() && i < slots.Length && slots[i].state == Working
      modifies this`world, this`log, this`released, this`lost, this`reclaimed, slots
      ensures Valid() && OthersKept(i) && slots[i].state != Starting
      ensures log == old(log) + calls && HandledBy(Who(), old(slots[i]), completed, summarized, calls, slots[i])
    {
      hide LogOk, TicketsOk, PanesAccounted, Completes;
      calls := [];
      if !completed {
        return;
      }
      var screen := NoAnswer;
      if !summarized {
        screen := ReadScreen(i);
        calls := [Snapshot(slots[i].pane, screen)];
      }
      if screen.Screen? {
        if !screen.active {
          return;
        }
      } else {
        var found, asked := WorkerExists(i);
        calls := calls + [asked];
        if !found {
          return;
        }
      }
      ghost var more := CompleteSlot(i);
      assert (calls + more)[|calls|..] == more;
      calls := calls + more;
    }

    // ---------- The loop and its end ----------

    method Connect() returns (ghost call: Call)
      requires Valid()
      modifies this`world, this`log, this`connected
      ensures Valid() && log == old(log) + [call] && call == TicketCalls.Connect(connected)
    {
      connected := OpenStream();
      call := TicketCalls.Connect(connected);
    }

    /** Returns whether every slot could be given up. */
    method Shutdown() returns (clean: bool, ghost did: seq<seq<Call>>)
      requires Valid() && AtRest()
      modifies this`world, this`log, this`released, this`lost, this`reclaimed, this`connected, slots
      ensures Valid() && AtRest() && !connected
      ensures clean <==> forall i :: 0 <= i < slots.Length ==> slots[i].state == Empty
      ensures clean ==> forall p :: !MayBeAlive(TruthOf(world, p))
      ensures clean ==> Conserved()
      ensures log == old(log) + Flat(did) && AllGivenUp(Who(), old(slots[..]), did, slots[..])
    {
      hide LogOk, TicketsOk, PanesAccounted, SlotsOk, GivesUp, Conserved;
      connected := false;
      clean, did := true, [];
      for i := 0 to slots.Length
        invariant Valid() && AtRest() && |did| == i && log == old(log) + Flat(did)
        invariant !connected && (clean <==> forall j :: 0 <= j < i ==> slots[j].state == Empty)
        invariant forall j :: 0 <= j < i ==> GivesUp(Who(), old(slots[j]), did[j], slots[j])
        invariant forall j :: i <= j < slots.Length ==> slots[j] == old(slots[j])
      {
        var given, calls := GiveUp(i);
        clean := clean && given;
        FlatPush(did, calls);
        did := did + [calls];
      }
      if clean {
        NothingHeld();
      }
    }

    lemma NothingHeld()
      requires Valid() && forall i :: 0 <= i < slots.Length ==> slots[i].state == Empty
      ensures forall p :: !MayBeAlive(TruthOf(world, p))
      ensures Conserved()
    {
      forall p ensures !MayBeAlive(TruthOf(world, p)) {
        assert !AccountsFor(slots[..], p, TruthOf(world, p));
      }
      forall t ensures !HoldsTicket(slots[..], t) && !HoldsDone(slots[..], t) {
      }
      forall i | 0 <= i < slots.Length ensures !slots[i].done {
        assert SlotOk(slots[..][i], manager);
      }
      forall t {
        LostIffReclaimed(t);
      }
    }

    /** What the manager leaves behind. A claim that it made and that nobody has moved since stands
        only if the claim itself failed without telling, or if the ticket was claimed again while
        a slot held it completed, and that claim still stood when the slot was released. A ticket
        that was claimed so is lost or was moved by others before the release; without such
        claims nothing is lost. */
    ghost predicate Conserved()
      reads this
    {
      && (forall t :: Standing(world, t) ==> t in unseen || t in lost)
      && (forall t :: t in lost <==>
            exists k :: 0 <= k < |released| && released[k].ticket == t && released[k].done && released[k].again && released[k].standing)
      && (forall t :: t in doubles <==> WasAgain(released, t))
      && (doubles == {} && unseen == {} ==> forall t :: !Standing(world, t))
    }

    /** One slot of the shutdown. */
    method GiveUp(i: nat) returns (given: bool, ghost calls: seq<Call>)
      requires Valid() && i < slots.Length && slots[i].state != Starting
      modifies this`world, this`log, this`released, this`lost, this`reclaimed, slots
      ensures Valid() && OthersKept(i) && given == (slots[i].state == Empty) && slots[i].state != Starting
      ensures !given ==> slots[i].ticket == old(slots[i].ticket) && slots[i].state == old(slots[i].state)
      ensures log == old(log) + calls && GivesUp(Who(), old(slots[i]), calls, slots[i])
    {
      hide LogOk, TicketsOk, PanesAccounted, PaneHandled, PaneIsGone;
      ghost var c := Cleanup([], slots[i], [], []);
      calls := CallsOfCleanup(c);
      if slots[i].state == Empty {
        assert GivenUpBy(Who(), old(slots[i]), c, slots[i]);
        return true, calls;
      }
      var gone;
      gone, c := ClearPane(i);
      calls := CallsOfCleanup(c);
      given := false;
      if gone {
        if slots[i].done {
          ghost var telling := FinalizeCompletedSlot(i);
          PaneHandledAnyway(Who(), old(slots[i]), c, telling);
          c := c.(ending := telling);
          given := true;
        } else {
          ghost var before := world;
          var out := MoveTicket(i, Ready);
          PaneHandledAnyway(Who(), old(slots[i]), c, [Move(slots[i].ticket, Ready, out)]);
          c := c.(ending := [Move(slots[i].ticket, Ready, out)]);
          DriftKeepsDead(before, world, slots[i].pane);
          if out == Accepted {
            Release(i);
            given := true;
          }
        }
        calls := CallsOfCleanup(c);
      }
      assert GivenUpBy(Who(), old(slots[i]), c, slots[i]);
    }

    method OnTick() returns (ghost t: Ticking)
      requires Valid() && AtRest()
      modifies this, slots
      ensures Valid() && AtRest()
      ensures log == old(log) + CallsOfTick(t)
      ensures TickedBy(Who(), old(Moment(slots[..], connected)), t, Moment(slots[..], connected))
    {
      hide LogOk, TicketsOk, PanesAccounted, SlotsOk, AllRetried, AllRecovered, FilledBy;
      ghost var retries := RetrySlots();
      t := Ticking(retries, slots[..], [], [], slots[..], []);
      if !connected {
        ghost var call := Connect();
        t := t.(connecting := [call]);
      }
      if connected {
        ghost var recoveries, recovered, fills := CatchUp();
        t := t.(recoveries := recoveries, recovered := recovered, fills := fills);
      }
    }

    method CatchUp() returns (ghost recoveries: seq<seq<Call>>, ghost recovered: seq<Slot>, ghost fills: seq<seq<Call>>)
      requires Valid() && AtRest() && connected
      modifies this, slots
      ensures Valid() && AtRest() && connected
      ensures log == old(log) + Flat(recoveries) + Flat(fills)
      ensures AllRecovered(Who(), old(slots[..]), recoveries, recovered) && FilledBy(Who(), true, recovered, fills, slots[..])
    {
      hide LogOk, TicketsOk, PanesAccounted, SlotsOk, AllRecovered, FilledBy;
      recoveries := RecoverSnapshots();
      recovered := slots[..];
      fills := FillEmptySlots();
    }

    /** One turn of the loop. */
    method React(signal: Signal) returns (ghost calls: seq<Call>)
      requires Valid() && AtRest()
      modifies this, slots
      ensures Valid() && AtRest()
      ensures log == old(log) + calls
      ensures Reacts(Who(), old(Moment(slots[..], connected)), signal, calls, Moment(slots[..], connected))
    {
      hide TickedBy, OutputBy;
      match signal
      case Tick =>
        ghost var t := OnTick();
        calls := CallsOfTick(t);
      case Output(pane, completed, summarized) =>
        calls := HandleOutput(pane, completed, summarized);
      case StreamEnded =>
        calls := [];
        connected := false;
    }

    /** The whole life of the manager after its anchor is ready, for any signals. */
    method Run(signals: seq<Signal>)
        returns (clean: bool, ghost fills: seq<seq<Call>>, ghost moments: seq<Moment>, ghost did: seq<seq<Call>>, ghost ends: seq<seq<Call>>)
      requires Valid() && AtRest()
      modifies this
      modifies slots
      ensures Valid() && AtRest()
      ensures clean ==> forall p :: !MayBeAlive(TruthOf(world, p))
      ensures clean ==> Conserved()
      ensures |log| > |old(log)| && old(log) <= log && log[|old(log)|].Connect?
      ensures !log[|old(log)|].ok ==> !clean && slots[..] == old(slots[..]) && log == old(log) + [TicketCalls.Connect(false)]
      ensures log[|old(log)|].ok ==>
        && log == old(log) + [TicketCalls.Connect(true)] + Flat(fills) + Flat(did) + Flat(ends)
        && LivedThrough(Who(), signals, moments, did)
        && moments[0].connected && FilledBy(Who(), true, old(slots[..]), fills, moments[0].slots)
        && AllGivenUp(Who(), moments[|signals|].slots, ends, slots[..])
    {
      hide LogOk, TicketsOk, PanesAccounted, SlotsOk, Reacts, FilledBy, AllGivenUp, Conserved;
      clean, fills, moments, did, ends := false, [], [], [], [];
      ghost var call := Connect();
      if !connected {
        return;
      }
      fills := FillEmptySlots();
      moments := [Moment(slots[..], connected)];
      for k := 0 to |signals|
        invariant Valid() && AtRest() && |did| == k && |moments| == k + 1 && moments[k] == Moment(slots[..], connected)
        invariant log == old(log) + [TicketCalls.Connect(true)] + Flat(fills) + Flat(did)
        invariant moments[0].connected && FilledBy(Who(), true, old(slots[..]), fills, moments[0].slots)
        invariant forall m :: 0 <= m < k ==> Reacts(Who(), moments[m], signals[m], did[m], moments[m + 1])
      {
        ghost var calls := React(signals[k]);
        FlatPush(did, calls);
        did := did + [calls];
        moments := moments + [Moment(slots[..], connected)];
      }
      clean, ends := Shutdown();
    }
  }
}
