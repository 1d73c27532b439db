/** The ticket manager's slots and the world around them: the ticket table that others change
    too, and the worker panes, whose real condition the manager only learns from answers. */
module TicketSlots {
  import opened Basics

  type TicketId = nat
  type PaneId = string

  datatype Status = Ready | InProgress | Done | Cancelled

  datatype SlotState = Empty | Starting | Working | Completing | Closing | CleanupFailed

  datatype Slot = Slot(
    state: SlotState,
    ticket: TicketId,
    pane: PaneId,
    created: bool,
    uncertain: bool,
    done: bool)

  const EMPTY_SLOT := Slot(Empty, 0, "", false, false, false)

  /** What is really the case for a pane ID. `InFlight`: a create call was made and may still
      take effect. */
  datatype Truth = Absent | InFlight | Alive | Terminal

  /** `claimed` are the tickets that the manager was the last to move to InProgress. */
  datatype World = World(tickets: map<TicketId, Status>, claimed: set<TicketId>, panes: map<PaneId, Truth>)

  /** A pane as the runtime lists it. */
  datatype Info = Info(id: PaneId, task: string, session: string, role: string, terminal: bool)

  datatype CreateOutcome = Created | SafeFailure | UnsafeFailure

  datatype StoreOutcome = Accepted | InvalidTransition | Failed

  datatype Claim = Claimed(ticket: TicketId) | NoTicket | ClaimFailed

  function PaneName(manager: string, ticket: TicketId): PaneId {
    "ticket-coding-" + manager + "-" + Decimal(ticket)
  }

  lemma PaneNamesDiffer(manager: string, a: TicketId, b: TicketId)
    requires PaneName(manager, a) == PaneName(manager, b)
    ensures a == b
  {
    var prefix := "ticket-coding-" + manager + "-";
    assert PaneName(manager, a)[|prefix|..] == Decimal(a);
    assert PaneName(manager, b)[|prefix|..] == Decimal(b);
    DecimalInjective(a, b);
  }

  function TruthOf(w: World, p: PaneId): Truth {
    if p in w.panes then w.panes[p] else Absent
  }

  function StatusOf(w: World, t: TicketId): Status {
    if t in w.tickets then w.tickets[t] else Ready
  }

  predicate MayBeAlive(t: Truth) {
    t == InFlight || t == Alive
  }

  // ---------- What others do at any time ----------

  /** Panes end and disappear by themselves, and an unanswered create call takes effect or
      not; nobody but the manager creates panes under its names. */
  predicate PaneDrift(a: Truth, b: Truth) {
    a == b || a == InFlight || (a == Alive && b != InFlight) || (a == Terminal && b == Absent)
  }

  ghost predicate PanesDrift(a: World, b: World) {
    forall p :: PaneDrift(TruthOf(a, p), TruthOf(b, p))
  }

  /** The manager's claim of the ticket stands: nobody has moved the ticket since. */
  predicate Standing(w: World, t: TicketId) {
    t in w.claimed && StatusOf(w, t) == InProgress
  }

  /** Others change tickets as they like, but only the manager's own claims are the manager's. */
  ghost predicate TicketsDrift(a: World, b: World) {
    b.claimed <= a.claimed && forall t :: Standing(b, t) ==> Standing(a, t)
  }

  ghost predicate Drift(a: World, b: World) {
    PanesDrift(a, b) && TicketsDrift(a, b)
  }

  // ---------- Calls: others act first, then the call takes effect ----------

  /** A safe failure means that there is no pane and none is under way. */
  ghost predicate CreateStep(a: World, p: PaneId, out: CreateOutcome, b: World) {
    && TicketsDrift(a, b)
    && (forall q :: q != p ==> PaneDrift(TruthOf(a, q), TruthOf(b, q)))
    && (out == Created ==> TruthOf(b, p) == Alive)
    && (out == SafeFailure ==> TruthOf(b, p) == Absent)
  }

  ghost predicate CloseStep(a: World, p: PaneId, ok: bool, b: World) {
    Drift(a, b) && (ok ==> !MayBeAlive(TruthOf(b, p)))
  }

  predicate Lists(infos: seq<Info>, p: PaneId) {
    exists i :: 0 <= i < |infos| && infos[i].id == p
  }

  ghost predicate IsOurs(manager: string, p: PaneId) {
    exists t: TicketId :: p == PaneName(manager, t)
  }

  /** Of the panes under the manager's names the runtime lists exactly those that exist, and
      they carry the manager's task, session and role. */
  ghost predicate Honest(infos: seq<Info>, w: World, manager: string, task: string, session: string) {
    && (forall i :: 0 <= i < |infos| && IsOurs(manager, infos[i].id) ==>
          && infos[i].task == task && infos[i].session == session && infos[i].role == "coding-agent"
          && TruthOf(w, infos[i].id) == (if infos[i].terminal then Terminal else Alive))
    && (forall p :: IsOurs(manager, p) && TruthOf(w, p) in {Alive, Terminal} ==> Lists(infos, p))
  }

  /** The outcome of moving a ticket that is in progress. A failed call may have moved it. */
  ghost predicate MoveStep(a: World, t: TicketId, target: Status, out: StoreOutcome, b: World) {
    && Drift(a, b) && a.panes == b.panes
    && (out == Accepted ==> StatusOf(b, t) == target)
    && (out == InvalidTransition ==> StatusOf(b, t) != InProgress)
  }

  /** A claim takes a ready ticket. Of a failed claim the manager does not learn whether it
      took one; `taken` are the tickets that the claim really took, at most one. */
  ghost predicate ClaimStep(a: World, out: Claim, taken: set<TicketId>, b: World) {
    && PanesDrift(a, b) && TicketsDrift(a, b.(claimed := b.claimed - taken))
    && (forall t :: t in taken ==> Standing(b, t))
    && (match out
        case Claimed(t) => taken == {t}
        case NoTicket => taken == {}
        case ClaimFailed => |taken| <= 1)
  }
}
