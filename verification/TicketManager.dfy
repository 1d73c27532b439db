/** The ticket manager: a fixed array of slots that its loop rewrites in place. Between any two
    calls to the store or the runtime others may act, so everything that must always hold is
    required by and kept by each call. */
module TicketManager {
  import opened Basics
  import opened TicketSlots

  /** A slot that keeps its pane in the account. */
  predicate Accounts(s: Slot, t: Truth) {
    s.state != Empty && (s.state == Starting || s.uncertain || (s.created && t != InFlight))
  }

  predicate SlotOk(s: Slot, manager: string) {
    if s.state == Empty then s == EMPTY_SLOT
    else
      && s.pane == PaneName(manager, s.ticket)
      && (s.state == Starting ==> !s.created && !s.uncertain)
      && (s.state in {Working, Completing, Closing} ==> s.created && !s.uncertain)
      && (s.done <==> s.state == Closing)
      && !(s.created && s.uncertain)
  }

  ghost predicate HoldsTicket(slots: seq<Slot>, t: TicketId) {
    exists i :: 0 <= i < |slots| && slots[i].state != Empty && slots[i].ticket == t
  }

  ghost predicate AccountsFor(slots: seq<Slot>, p: PaneId, t: Truth) {
    exists i :: 0 <= i < |slots| && slots[i].pane == p && Accounts(slots[i], t)
  }

  ghost predicate SlotsOk(slots: seq<Slot>, manager: string) {
    && (forall i :: 0 <= i < |slots| ==> SlotOk(slots[i], manager))
    && (forall i, j :: 0 <= i < j < |slots| && slots[i].state != Empty && slots[j].state != Empty ==> slots[i].ticket != slots[j].ticket)
  }

  /** Every pane that may be alive is in the account of a slot. */
  ghost predicate PanesAccounted(slots: seq<Slot>, w: World) {
    forall p :: MayBeAlive(TruthOf(w, p)) ==> AccountsFor(slots, p, TruthOf(w, p))
  }

  ghost predicate HoldsDone(slots: seq<Slot>, t: TicketId) {
    exists i :: 0 <= i < |slots| && slots[i].done && slots[i].ticket == t
  }

  /** Every claim that stands is held by a slot, but for the `missing` ones. */
  ghost predicate TicketsHeld(slots: seq<Slot>, w: World, missing: set<TicketId>) {
    forall t :: Standing(w, t) ==> HoldsTicket(slots, t) || t in missing
  }

  /** `reclaimed` are tickets of completed slots that were claimed again since their slot was
      completed; no claim of another completed slot's ticket stands. */
  ghost predicate CompletedOk(slots: seq<Slot>, w: World, reclaimed: set<TicketId>) {
    && (forall i :: 0 <= i < |slots| && slots[i].done && Standing(w, slots[i].ticket) ==> slots[i].ticket in reclaimed)
    && (forall t :: t in reclaimed ==> HoldsDone(slots, t))
  }

  ghost predicate TicketsOk(slots: seq<Slot>, w: World, missing: set<TicketId>, reclaimed: set<TicketId>) {
    TicketsHeld(slots, w, missing) && CompletedOk(slots, w, reclaimed)
  }

  /** What a slot was released with: the truth about its pane, whether its ticket was completed,
      whether that was claimed again since, and whether that claim stood. */
  datatype Release = Release(ticket: TicketId, truth: Truth, done: bool, again: bool, standing: bool)

  function ReleaseOf(s: Slot, w: World, reclaimed: set<TicketId>): Release {
    Release(s.ticket, TruthOf(w, s.pane), s.done, s.ticket in reclaimed, Standing(w, s.ticket))
  }

  /** A released slot's pane could not be alive. Its claim stood only if the slot was completed
      and its ticket claimed again since; those tickets are the lost ones. Every ticket that was
      claimed again is still held or was released as such. */
  ghost predicate LogOk(released: seq<Release>, lost: set<TicketId>, reclaimed: set<TicketId>, doubles: set<TicketId>) {
    && (forall k :: 0 <= k < |released| ==> IsFair(released[k]) && (released[k].again ==> released[k].ticket in doubles))
    && (forall t :: t in lost <==> WasLost(released, t))
    && reclaimed <= doubles && (forall t :: t in doubles - reclaimed ==> WasAgain(released, t))
  }

  predicate IsFair(r: Release) {
    !MayBeAlive(r.truth) && (r.standing ==> r.done && r.again)
  }

  ghost predicate WasLost(released: seq<Release>, t: TicketId) {
    exists k :: 0 <= k < |released| && released[k].ticket == t && released[k].standing
  }

  ghost predicate WasAgain(released: seq<Release>, t: TicketId) {
    exists k :: 0 <= k < |released| && released[k].ticket == t && released[k].again
  }

  lemma LogGrows(before: seq<Release>, r: Release, lost: set<TicketId>, reclaimed: set<TicketId>, doubles: set<TicketId>)
    requires LogOk(before, lost, reclaimed, doubles) && IsFair(r) && (r.again <==> r.ticket in reclaimed)
    ensures LogOk(before + [r], lost + (if r.standing then {r.ticket} else {}), reclaimed - {r.ticket}, doubles)
  {
    var released := before + [r];
    assert released[|before|] == r;
    forall t ensures WasLost(released, t) <==> WasLost(before, t) || (t == r.ticket && r.standing) {
      if k :| 0 <= k < |before| && before[k].ticket == t && before[k].standing {
        assert released[k] == before[k];
      }
    }
    forall t ensures WasAgain(released, t) <==> WasAgain(before, t) || (t == r.ticket && r.again) {
      if k :| 0 <= k < |before| && before[k].ticket == t && before[k].again {
        assert released[k] == before[k];
      }
    }
  }

  // ---------- The account bounds the panes ----------

  ghost predicate HasPane(slots: seq<Slot>, p: PaneId) {
    exists i :: 0 <= i < |slots| && slots[i].pane == p
  }

  lemma {:induction false} AtMostOnePaneEach(slots: seq<Slot>, panes: set<PaneId>)
    requires forall p :: p in panes ==> HasPane(slots, p)
    ensures |panes| <= |slots|
    decreases |slots|
  {
    if |slots| == 0 {
      assert forall p :: p !in panes;
      assert panes == {};
    } else {
      var last, others := slots[|slots| - 1], slots[..|slots| - 1];
      var rest := panes - {last.pane};
      forall p | p in rest ensures HasPane(others, p) {
        var i :| 0 <= i < |slots| && slots[i].pane == p;
        assert others[i] == slots[i];
      }
      AtMostOnePaneEach(others, rest);
      assert panes <= rest + {last.pane};
      SubsetSize(panes, rest + {last.pane});
    }
  }

  /** However the world came about, no set of panes that may be alive outnumbers the slots. */
  lemma CapacityIsNeverExceeded(slots: seq<Slot>, w: World, panes: set<PaneId>)
    requires PanesAccounted(slots, w)
    requires forall p :: p in panes ==> MayBeAlive(TruthOf(w, p))
    ensures |panes| <= |slots|
  {
    forall p | p in panes ensures HasPane(slots, p) {
      assert AccountsFor(slots, p, TruthOf(w, p));
    }
    AtMostOnePaneEach(slots, panes);
  }

  // ---------- Others' actions and the calls' effects keep the account ----------

  lemma DriftKeepsPanes(slots: seq<Slot>, a: World, b: World)
    requires PanesAccounted(slots, a) && PanesDrift(a, b)
    ensures PanesAccounted(slots, b)
  {
    forall p | MayBeAlive(TruthOf(b, p)) ensures AccountsFor(slots, p, TruthOf(b, p)) {
      assert PaneDrift(TruthOf(a, p), TruthOf(b, p));
      assert AccountsFor(slots, p, TruthOf(a, p));
      var i :| 0 <= i < |slots| && slots[i].pane == p && Accounts(slots[i], TruthOf(a, p));
      assert Accounts(slots[i], TruthOf(b, p));
    }
  }

  lemma DriftKeepsTickets(slots: seq<Slot>, a: World, b: World, missing: set<TicketId>, reclaimed: set<TicketId>)
    requires TicketsOk(slots, a, missing, reclaimed) && TicketsDrift(a, b)
    ensures TicketsOk(slots, b, missing, reclaimed)
  {
  }

  /** What a claim took may be missing from now on, or be a completed slot's ticket. */
  lemma ClaimKeepsTickets(
    slots: seq<Slot>, a: World, b: World, out: Claim, taken: set<TicketId>, missing: set<TicketId>, reclaimed: set<TicketId>)
    requires TicketsOk(slots, a, missing, reclaimed) && ClaimStep(a, out, taken, b)
    ensures TicketsOk(slots, b, missing + taken, reclaimed + set t | t in taken && HoldsDone(slots, t))
  {
    var b0 := b.(claimed := b.claimed - taken);
    DriftKeepsTickets(slots, a, b0, missing, reclaimed);
    forall t | Standing(b, t) && t !in taken ensures Standing(b0, t) {
    }
    forall i | 0 <= i < |slots| && slots[i].done ensures HoldsDone(slots, slots[i].ticket) {
    }
  }

  lemma DoneIsHeld(slots: seq<Slot>, manager: string, t: TicketId)
    requires SlotsOk(slots, manager)
    ensures HoldsDone(slots, t) ==> HoldsTicket(slots, t)
  {
  }

  lemma HeldIsNotMissing(slots: seq<Slot>, w: World, missing: set<TicketId>, t: TicketId, reclaimed: set<TicketId>)
    requires TicketsOk(slots, w, missing + {t}, reclaimed) && HoldsTicket(slots, t)
    ensures TicketsOk(slots, w, missing, reclaimed)
  {
  }

  /** The slot of a pane that may be alive is the one that holds its ticket. */
  lemma OnlyOwner(slots: seq<Slot>, w: World, manager: string, i: nat)
    requires SlotsOk(slots, manager) && PanesAccounted(slots, w) && i < |slots| && slots[i].state != Empty
    requires MayBeAlive(TruthOf(w, slots[i].pane))
    ensures Accounts(slots[i], TruthOf(w, slots[i].pane))
  {
    var p := slots[i].pane;
    assert AccountsFor(slots, p, TruthOf(w, p));
    var j :| 0 <= j < |slots| && slots[j].pane == p && Accounts(slots[j], TruthOf(w, p));
    PaneNamesDiffer(manager, slots[i].ticket, slots[j].ticket);
  }

  lemma CreateKeepsPanes(slots: seq<Slot>, a: World, b: World, i: nat, out: CreateOutcome)
    requires PanesAccounted(slots, a) && i < |slots| && slots[i].state != Empty && (slots[i].state == Starting || slots[i].uncertain)
    requires CreateStep(a, slots[i].pane, out, b)
    ensures PanesAccounted(slots, b)
  {
    forall p | MayBeAlive(TruthOf(b, p)) ensures AccountsFor(slots, p, TruthOf(b, p)) {
      if p != slots[i].pane {
        assert PaneDrift(TruthOf(a, p), TruthOf(b, p));
        assert AccountsFor(slots, p, TruthOf(a, p));
        var j :| 0 <= j < |slots| && slots[j].pane == p && Accounts(slots[j], TruthOf(a, p));
        assert Accounts(slots[j], TruthOf(b, p));
      } else {
        assert Accounts(slots[i], TruthOf(b, p));
      }
    }
  }

  /** A slot may be emptied when its pane cannot be alive. */
  lemma ReleaseKeeps(slots: seq<Slot>, w: World, manager: string, i: nat)
    requires SlotsOk(slots, manager) && PanesAccounted(slots, w) && i < |slots| && slots[i].state != Empty
    requires !MayBeAlive(TruthOf(w, slots[i].pane))
    ensures SlotsOk(slots[i := EMPTY_SLOT], manager) && PanesAccounted(slots[i := EMPTY_SLOT], w)
  {
    var slots1 := slots[i := EMPTY_SLOT];
    forall p | MayBeAlive(TruthOf(w, p)) ensures AccountsFor(slots1, p, TruthOf(w, p)) {
      assert AccountsFor(slots, p, TruthOf(w, p));
      var j :| 0 <= j < |slots| && slots[j].pane == p && Accounts(slots[j], TruthOf(w, p));
      assert slots1[j] == slots[j];
    }
  }

  lemma OthersStillHeld(slots: seq<Slot>, i: nat, t: TicketId)
    requires i < |slots| && t != slots[i].ticket
    ensures HoldsTicket(slots, t) ==> HoldsTicket(slots[i := EMPTY_SLOT], t)
    ensures HoldsDone(slots, t) ==> HoldsDone(slots[i := EMPTY_SLOT], t)
  {
    var slots1 := slots[i := EMPTY_SLOT];
    if j :| 0 <= j < |slots| && slots[j].state != Empty && slots[j].ticket == t {
      assert slots1[j] == slots[j];
    }
    if j :| 0 <= j < |slots| && slots[j].done && slots[j].ticket == t {
      assert slots1[j] == slots[j];
    }
  }

  /** Releasing a slot loses its ticket exactly when the claim of that still stands. */
  lemma ReleaseLosesTicketIff(slots: seq<Slot>, w: World, manager: string, i: nat, missing: set<TicketId>)
    requires SlotsOk(slots, manager) && i < |slots| && slots[i].state != Empty && TicketsHeld(slots, w, missing)
    ensures TicketsHeld(slots[i := EMPTY_SLOT], w, missing) <==> (Standing(w, slots[i].ticket) ==> slots[i].ticket in missing)
    ensures TicketsHeld(slots[i := EMPTY_SLOT], w, missing + {slots[i].ticket})
  {
    var slots1, u := slots[i := EMPTY_SLOT], slots[i].ticket;
    assert !HoldsTicket(slots1, u);
    forall t | t != u && HoldsTicket(slots, t) ensures HoldsTicket(slots1, t) {
      OthersStillHeld(slots, i, t);
    }
  }

  /** So at every release: what is lost is the ticket of a completed slot that was claimed again. */
  lemma ReleaseKeepsTickets(slots: seq<Slot>, w: World, manager: string, i: nat, missing: set<TicketId>, reclaimed: set<TicketId>)
    requires SlotsOk(slots, manager) && i < |slots| && slots[i].state != Empty && TicketsOk(slots, w, missing, reclaimed)
    requires slots[i].done || !Standing(w, slots[i].ticket)
    ensures var t := slots[i].ticket;
      && (Standing(w, t) ==> slots[i].done && t in reclaimed)
      && TicketsOk(slots[i := EMPTY_SLOT], w, missing + (if Standing(w, t) then {t} else {}), reclaimed - {t})
  {
    var slots1, u := slots[i := EMPTY_SLOT], slots[i].ticket;
    ReleaseLosesTicketIff(slots, w, manager, i, missing);
    forall t | t in reclaimed - {u} ensures HoldsDone(slots1, t) {
      OthersStillHeld(slots, i, t);
    }
    forall j | 0 <= j < |slots1| && slots1[j].done ensures slots1[j] == slots[j] && slots[j].ticket != u {
    }
  }

  /** A slot that keeps its ticket and still accounts for its pane may be rewritten. */
  lemma RewriteKeeps(slots: seq<Slot>, w: World, manager: string, i: nat, s: Slot)
    requires SlotsOk(slots, manager) && PanesAccounted(slots, w) && i < |slots| && slots[i].state != Empty
    requires s.state != Empty && s.ticket == slots[i].ticket && s.pane == slots[i].pane && SlotOk(s, manager)
    requires MayBeAlive(TruthOf(w, s.pane)) && Accounts(slots[i], TruthOf(w, s.pane)) ==> Accounts(s, TruthOf(w, s.pane))
    ensures SlotsOk(slots[i := s], manager) && PanesAccounted(slots[i := s], w)
  {
    var slots1 := slots[i := s];
    forall p | MayBeAlive(TruthOf(w, p)) ensures AccountsFor(slots1, p, TruthOf(w, p)) {
      assert AccountsFor(slots, p, TruthOf(w, p));
      var j :| 0 <= j < |slots| && slots[j].pane == p && Accounts(slots[j], TruthOf(w, p));
      if j != i {
        assert slots1[j] == slots[j];
      } else {
        assert slots1[i] == s;
      }
    }
  }

  /** A slot becomes completed when its ticket is not in progress, and stays so. */
  lemma RewriteKeepsTickets(slots: seq<Slot>, w: World, manager: string, i: nat, s: Slot, missing: set<TicketId>, reclaimed: set<TicketId>)
    requires SlotsOk(slots, manager) && i < |slots| && slots[i].state != Empty && TicketsOk(slots, w, missing, reclaimed)
    requires s.state != Empty && s.ticket == slots[i].ticket && (slots[i].done ==> s.done)
    requires s.done && !slots[i].done ==> !Standing(w, s.ticket)
    ensures TicketsOk(slots[i := s], w, missing, reclaimed)
  {
    var slots1 := slots[i := s];
    forall t | HoldsTicket(slots, t) ensures HoldsTicket(slots1, t) {
      var j :| 0 <= j < |slots| && slots[j].state != Empty && slots[j].ticket == t;
      assert slots1[j].state != Empty && slots1[j].ticket == t;
    }
    forall t | t in reclaimed ensures HoldsDone(slots1, t) {
      var j :| 0 <= j < |slots| && slots[j].done && slots[j].ticket == t;
      assert slots1[j].done && slots1[j].ticket == t;
    }
    forall j | 0 <= j < |slots1| && slots1[j].done && Standing(w, slots1[j].ticket) ensures slots1[j].ticket in reclaimed {
      assert slots[j].done;
    }
  }

  /** An empty slot takes a claimed ticket that no slot holds. */
  lemma TakeKeeps(slots: seq<Slot>, w: World, manager: string, i: nat, t: TicketId)
    requires SlotsOk(slots, manager) && PanesAccounted(slots, w) && i < |slots| && slots[i].state == Empty
    requires !HoldsTicket(slots, t)
    ensures var s := EMPTY_SLOT.(state := Starting, ticket := t, pane := PaneName(manager, t));
      SlotsOk(slots[i := s], manager) && PanesAccounted(slots[i := s], w) && !MayBeAlive(TruthOf(w, s.pane))
  {
    var s := EMPTY_SLOT.(state := Starting, ticket := t, pane := PaneName(manager, t));
    var slots1 := slots[i := s];
    assert slots1[i] == s;
    forall p | MayBeAlive(TruthOf(w, p)) ensures AccountsFor(slots1, p, TruthOf(w, p)) && p != s.pane {
      assert AccountsFor(slots, p, TruthOf(w, p));
      var j :| 0 <= j < |slots| && slots[j].pane == p && Accounts(slots[j], TruthOf(w, p));
      assert slots1[j] == slots[j];
      if p == s.pane {
        PaneNamesDiffer(manager, t, slots[j].ticket);
      }
    }
  }

  lemma TakeKeepsTickets(slots: seq<Slot>, w: World, i: nat, s: Slot, missing: set<TicketId>, reclaimed: set<TicketId>)
    requires i < |slots| && slots[i] == EMPTY_SLOT && s.state != Empty && !s.done
    requires TicketsOk(slots, w, missing + {s.ticket}, reclaimed)
    ensures TicketsOk(slots[i := s], w, missing, reclaimed)
  {
    var slots1 := slots[i := s];
    assert slots1[i] == s;
    forall t | HoldsTicket(slots, t) ensures HoldsTicket(slots1, t) {
      var j :| 0 <= j < |slots| && slots[j].state != Empty && slots[j].ticket == t;
      assert slots1[j] == slots[j];
    }
    forall t | t in reclaimed ensures HoldsDone(slots1, t) {
      var j :| 0 <= j < |slots| && slots[j].done && slots[j].ticket == t;
      assert slots1[j] == slots[j];
    }
    forall j | 0 <= j < |slots1| && slots1[j].done ensures slots1[j] == slots[j] {
    }
  }

  /** A pane that cannot be alive stays so while the manager does not create it. */
  lemma DriftKeepsDead(a: World, b: World, p: PaneId)
    requires PanesDrift(a, b) && !MayBeAlive(TruthOf(a, p))
    ensures !MayBeAlive(TruthOf(b, p))
  {
    assert PaneDrift(TruthOf(a, p), TruthOf(b, p));
  }

  predicate IsWorker(x: Info, s: Slot, task: string, session: string) {
    x.id == s.pane && x.task == task && x.session == session && x.role == "coding-agent"
  }

  /** The runtime's answer settles whether the pane of a created or uncertain slot exists. */
  lemma ListedIsReal(infos: seq<Info>, w: World, manager: string, task: string, session: string, s: Slot, i: nat)
    requires Honest(infos, w, manager, task, session) && s.state != Empty && SlotOk(s, manager)
    requires i < |infos| && infos[i].id == s.pane
    ensures IsWorker(infos[i], s, task, session) && TruthOf(w, s.pane) == if infos[i].terminal then Terminal else Alive
  {
    assert IsOurs(manager, s.pane);
  }

  lemma UnlistedIsAbsent(infos: seq<Info>, w: World, manager: string, task: string, session: string, s: Slot)
    requires Honest(infos, w, manager, task, session) && s.state != Empty && SlotOk(s, manager)
    requires !Lists(infos, s.pane)
    ensures TruthOf(w, s.pane) == Absent || TruthOf(w, s.pane) == InFlight
  {
    assert IsOurs(manager, s.pane);
  }

  lemma DriftTwice(a: World, b: World, c: World)
    requires Drift(a, b) && Drift(b, c)
    ensures Drift(a, c)
  {
    forall p ensures PaneDrift(TruthOf(a, p), TruthOf(c, p)) {
      assert PaneDrift(TruthOf(a, p), TruthOf(b, p)) && PaneDrift(TruthOf(b, p), TruthOf(c, p));
    }
  }

  // ---------- A ticket can be lost ----------

  function TwoSlots(manager: string, state: SlotState): seq<Slot> {
    [Slot(state, 1, PaneName(manager, 1), state != Starting, false, state == Closing), EMPTY_SLOT]
  }

  /** What two slots and ticket 1 go through. */
  datatype Story = Story(
    start: World, claimed: World, created: World, completed: World, reopened: World, claimedAgain: World, closed: World)

  /** Two empty slots. The first claims the ticket, makes its pane and completes the ticket, but
      the close of the pane fails; somebody reopens the ticket; the second slot's claim takes it
      again and ignores it as held elsewhere; then the pane is closed. */
  ghost predicate IsStory(manager: string, s: Story) {
    var pane := PaneName(manager, 1);
    && s.start == World(map[1 := Ready], {}, map[])
    && ClaimStep(s.start, Claimed(1), {1}, s.claimed) && !HoldsTicket([EMPTY_SLOT, EMPTY_SLOT], 1)
    && IsAt(TwoSlots(manager, Starting), s.claimed, manager) && CreateStep(s.claimed, pane, Created, s.created)
    && IsAt(TwoSlots(manager, Working), s.created, manager) && IsAt(TwoSlots(manager, Completing), s.created, manager)
    && MoveStep(s.created, 1, Done, Accepted, s.completed)
    && IsAt(TwoSlots(manager, Closing), s.completed, manager)
    && CloseStep(s.completed, pane, false, s.reopened) && StatusOf(s.reopened, 1) == Ready
    && ClaimStep(s.reopened, Claimed(1), {1}, s.claimedAgain) && HoldsTicket(TwoSlots(manager, Closing), 1)
    && CloseStep(s.claimedAgain, pane, true, s.closed)
    && IsAt(TwoSlots(manager, Closing), s.closed, manager)
  }

  ghost predicate IsAt(slots: seq<Slot>, w: World, manager: string) {
    SlotsOk(slots, manager) && PanesAccounted(slots, w)
  }

  /** In the end the ticket is in progress for the manager, its slot may be released, and then no
      slot holds it. */
  lemma ReopenedTicketIsLost(manager: string) returns (s: Story)
    ensures IsStory(manager, s)
    ensures !MayBeAlive(TruthOf(s.closed, PaneName(manager, 1))) && Standing(s.closed, 1)
    ensures !HoldsTicket(TwoSlots(manager, Closing)[0 := EMPTY_SLOT], 1)
  {
    var pane := PaneName(manager, 1);
    var alive, ended: map<PaneId, Truth> := map[pane := Alive], map[pane := Terminal];
    s := Story(
      World(map[1 := Ready], {}, map[]), World(map[1 := InProgress], {1}, map[]), World(map[1 := InProgress], {1}, alive),
      World(map[1 := Done], {1}, alive), World(map[1 := Ready], {1}, alive), World(map[1 := InProgress], {1}, alive),
      World(map[1 := InProgress], {1}, ended));
    TwoSlotsFit(manager, Starting, s.claimed);
    TwoSlotsFit(manager, Working, s.created);
    TwoSlotsFit(manager, Completing, s.created);
    TwoSlotsFit(manager, Closing, s.completed);
    TwoSlotsFit(manager, Closing, s.closed);
    assert TwoSlots(manager, Closing)[0].ticket == 1;
    hide IsAt, PaneName;
  }

  lemma TwoSlotsFit(manager: string, state: SlotState, w: World)
    requires state in {Starting, Working, Completing, Closing}
    requires forall p :: MayBeAlive(TruthOf(w, p)) ==> p == PaneName(manager, 1) && TruthOf(w, p) == Alive
    ensures IsAt(TwoSlots(manager, state), w, manager)
  {
    var slots := TwoSlots(manager, state);
    forall p | MayBeAlive(TruthOf(w, p)) ensures AccountsFor(slots, p, TruthOf(w, p)) {
      assert Accounts(slots[0], TruthOf(w, p));
    }
  }
}
