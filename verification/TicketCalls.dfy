/** What each part of the ticket manager's loop makes of a slot, by the calls that it makes and
    the answers that it gets. */
module TicketCalls {
  import opened Basics
  import opened TicketSlots
  import opened TicketManager

  /** What a worker's screen says, as far as it was read. */
  datatype Screen = NoAnswer | PaneUnknown | Screen(active: bool, completed: bool)

  /** One call to the outside, with its answer. `Read` is the claimed ticket itself: whether a
      prompt can be made of it, and whether it wants a worktree. */
  datatype Call =
    | Ask(claim: Claim)
    | Read(valid: bool, worktree: bool)
    | Prepare(ok: bool)
    | Create(pane: PaneId, out: CreateOutcome)
    | List(infos: Option<seq<Info>>)
    | Close(pane: PaneId, ok: bool)
    | Snapshot(pane: PaneId, screen: Screen)
    | Move(ticket: TicketId, target: Status, moved: StoreOutcome)
    | Look(ticket: TicketId, status: Option<Status>)
    | Tell
    | Connect(ok: bool)
    | Check(canceled: bool)

  /** Whose panes they are, and whether completions are announced. */
  datatype Owner = Owner(manager: string, task: string, session: string, announces: bool)

  predicate IsNamed(who: Owner, x: Info, pane: PaneId) {
    x.id == pane && x.task == who.task && x.session == who.session
  }

  /** The first pane listed under the name takes up room: it has not ended. */
  predicate TakesRoom(who: Owner, infos: seq<Info>, pane: PaneId) {
    exists k :: 0 <= k < |infos| && IsNamed(who, infos[k], pane) && !infos[k].terminal
      && forall m :: 0 <= m < k ==> !IsNamed(who, infos[m], pane)
  }

  predicate ListsWorker(who: Owner, infos: seq<Info>, pane: PaneId) {
    exists k :: 0 <= k < |infos| && IsNamed(who, infos[k], pane) && infos[k].role == "coding-agent"
  }

  predicate FindsIt(who: Owner, c: Call, pane: PaneId) {
    c.List? && c.infos.Some? && ListsWorker(who, c.infos.value, pane)
  }

  // ---------- Closing, completing and cleaning up ----------

  /** The pane is closed, or the runtime is asked and does not list it as taking up room. */
  predicate ClosedBy(who: Owner, pane: PaneId, calls: seq<Call>, closed: bool) {
    if |calls| == 1 then closed && calls[0] == Close(pane, true)
    else
      && |calls| == 2 && calls[0] == Close(pane, false) && calls[1].List?
      && (closed <==> calls[1].infos.Some? && !TakesRoom(who, calls[1].infos.value, pane))
  }

  lemma ClosedOnce(who: Owner, pane: PaneId, calls: seq<Call>)
    ensures !(ClosedBy(who, pane, calls, true) && ClosedBy(who, pane, calls, false))
  {}

  function Telling(who: Owner): seq<Call> {
    if who.announces then [Tell] else []
  }

  /** A slot whose ticket is completed is emptied as soon as its pane is closed. */
  predicate FinishedBy(who: Owner, before: Slot, closing: seq<Call>, telling: seq<Call>, after: Slot) {
    if ClosedBy(who, before.pane, closing, true) then telling == Telling(who) && after == EMPTY_SLOT
    else ClosedBy(who, before.pane, closing, false) && telling == [] && after == before
  }

  datatype Completion = Completion(moving: seq<Call>, closing: seq<Call>, telling: seq<Call>)

  function CallsOf(c: Completion): seq<Call> { c.moving + c.closing + c.telling }

  /** The store accepted the completion, or the ticket is completed already. */
  predicate IsCompleted(before: Slot, moving: seq<Call>) {
    && moving != [] && moving[0].Move?
    && (moving[0].moved == Accepted
        || (moving[0].moved == InvalidTransition && |moving| == 2 && moving[1] == Look(before.ticket, Some(Done))))
  }

  /** The ticket is moved to Done, and looked up where that is refused. */
  predicate IsMoving(before: Slot, moving: seq<Call>) {
    && moving != [] && moving[0].Move? && moving[0].ticket == before.ticket && moving[0].target == Done
    && |moving| == (if moving[0].moved == InvalidTransition then 2 else 1)
    && (|moving| == 2 ==> moving[1].Look? && moving[1].ticket == before.ticket)
  }

  /** Once the ticket is Done the slot waits for its pane to close; otherwise it stays as it was. */
  predicate CompletedBy(who: Owner, before: Slot, c: Completion, after: Slot) {
    && IsMoving(before, c.moving)
    && if IsCompleted(before, c.moving) then FinishedBy(who, before.(done := true, state := Closing), c.closing, c.telling, after)
       else c.closing == [] && c.telling == [] && after == before
  }

  ghost predicate Completes(who: Owner, before: Slot, calls: seq<Call>, after: Slot) {
    exists c :: CompletedBy(who, before, c, after) && calls == CallsOf(c)
  }

  /** Whether an uncertain pane exists: it is listed, or created again, or then listed. */
  predicate ResolvedBy(who: Owner, before: Slot, calls: seq<Call>, after: Slot) {
    var made := before.(uncertain := false, created := true);
    if !before.uncertain then calls == [] && after == before
    else
      && calls != [] && calls[0].List?
      && if calls[0].infos.None? then |calls| == 1 && after == before
         else if FindsIt(who, calls[0], before.pane) then |calls| == 1 && after == made
         else
           && |calls| >= 2 && calls[1].Create? && calls[1].pane == before.pane
           && match calls[1].out
              case Created => |calls| == 2 && after == made
              case SafeFailure => |calls| == 2 && after == before.(uncertain := false)
              case UnsafeFailure =>
                |calls| == 3 && calls[2].List? && after == if FindsIt(who, calls[2], before.pane) then made else before
  }

  lemma NothingToResolve(who: Owner, s: Slot)
    requires !s.uncertain
    ensures ResolvedBy(who, s, [], s)
  {}

  /** `middle` is the slot once it is settled whether there is a pane. */
  datatype Cleanup = Cleanup(resolving: seq<Call>, middle: Slot, closing: seq<Call>, ending: seq<Call>)

  function CallsOfCleanup(c: Cleanup): seq<Call> { c.resolving + c.closing + c.ending }

  /** The way to the ticket is free: there is no pane, or it was closed. */
  predicate PaneIsGone(who: Owner, c: Cleanup) {
    !c.middle.uncertain && (c.middle.created ==> ClosedBy(who, c.middle.pane, c.closing, true))
  }

  /** As far as the pane: settled whether there is one, and closed if so. */
  predicate PaneHandled(who: Owner, before: Slot, c: Cleanup) {
    && ResolvedBy(who, before, c.resolving, c.middle)
    && (if c.middle.uncertain || !c.middle.created then c.closing == []
        else ClosedBy(who, c.middle.pane, c.closing, true) || ClosedBy(who, c.middle.pane, c.closing, false))
  }

  lemma PaneHandledAnyway(who: Owner, before: Slot, c: Cleanup, ending: seq<Call>)
    ensures PaneHandled(who, before, c) <==> PaneHandled(who, before, c.(ending := ending))
    ensures PaneIsGone(who, c) <==> PaneIsGone(who, c.(ending := ending))
  {}

  /** A slot to clean up gives its ticket back once its pane is gone, and is emptied unless that
      fails; a ticket that is no longer in progress needs no giving back. */
  predicate CleanedUp(who: Owner, before: Slot, c: Cleanup, after: Slot) {
    && PaneHandled(who, before, c)
    && if !PaneIsGone(who, c) then c.ending == [] && after == c.middle
       else
         && |c.ending| == 1 && c.ending[0].Move? && c.ending[0].ticket == before.ticket && c.ending[0].target == Ready
         && after == if c.ending[0].moved == Failed then c.middle.(created := false) else EMPTY_SLOT
  }

  ghost predicate CleansUp(who: Owner, before: Slot, calls: seq<Call>, after: Slot) {
    exists c :: CleanedUp(who, before, c, after) && calls == CallsOfCleanup(c)
  }

  /** At the end every slot is given up so: a completed one with its pane, another one if its
      ticket can be given back. */
  predicate GivenUpBy(who: Owner, before: Slot, c: Cleanup, after: Slot) {
    if before.state == Empty then CallsOfCleanup(c) == [] && after == before
    else
      && PaneHandled(who, before, c)
      && if !PaneIsGone(who, c) then c.ending == [] && after == c.middle
         else if c.middle.done then c.ending == Telling(who) && after == EMPTY_SLOT
         else
           && |c.ending| == 1 && c.ending[0].Move? && c.ending[0].ticket == before.ticket && c.ending[0].target == Ready
           && after == if c.ending[0].moved == Accepted then EMPTY_SLOT else c.middle
  }

  ghost predicate GivesUp(who: Owner, before: Slot, calls: seq<Call>, after: Slot) {
    exists c :: GivenUpBy(who, before, c, after) && calls == CallsOfCleanup(c)
  }

  // ---------- Starting ----------

  /** The ticket goes back and the slot is free, or it is left for a cleanup. */
  predicate RequeuedBy(before: Slot, calls: seq<Call>, after: Slot) {
    && |calls| == 1 && calls[0].Move? && calls[0].ticket == before.ticket && calls[0].target == Ready
    && after == if calls[0].moved == Accepted then EMPTY_SLOT else before.(state := CleanupFailed)
  }

  /** The prompt is made, and the worktree prepared if one is wanted. */
  predicate PreparedBy(calls: seq<Call>, ready: bool) {
    && calls != [] && calls[0].Read?
    && if calls[0].valid && calls[0].worktree then |calls| == 2 && calls[1].Prepare? && ready == calls[1].ok
       else |calls| == 1 && ready == calls[0].valid
  }

  /** The pane is created, or the ticket goes back, or it is uncertain whether there is a pane. */
  predicate MadeBy(before: Slot, calls: seq<Call>, after: Slot) {
    && calls != [] && calls[0].Create? && calls[0].pane == before.pane
    && match calls[0].out
       case Created => |calls| == 1 && after == before.(state := Working, created := true)
       case SafeFailure => RequeuedBy(before, calls[1..], after)
       case UnsafeFailure => |calls| == 1 && after == before.(state := CleanupFailed, uncertain := true)
  }

  /** A slot that took a ticket works on it exactly when the prompt could be made, the worktree
      prepared if one is wanted, and the pane created. */
  predicate LaunchedBy(before: Slot, calls: seq<Call>, after: Slot) {
    && calls != [] && calls[0].Read?
    && var n := if calls[0].valid && calls[0].worktree then 2 else 1;
      && |calls| > n
      && ((PreparedBy(calls[..n], true) && MadeBy(before, calls[n..], after))
          || (PreparedBy(calls[..n], false) && RequeuedBy(before, calls[n..], after)))
  }

  lemma LaunchIs(before: Slot, preparing: seq<Call>, rest: seq<Call>, after: Slot, ready: bool)
    requires PreparedBy(preparing, ready) && if ready then MadeBy(before, rest, after) else RequeuedBy(before, rest, after)
    ensures LaunchedBy(before, preparing + rest, after)
  {
    var calls := preparing + rest;
    assert calls[..|preparing|] == preparing && calls[|preparing|..] == rest;
  }

  /** The slot that takes the ticket. */
  function Taking(who: Owner, t: TicketId): Slot {
    Slot(Starting, t, PaneName(who.manager, t), false, false, false)
  }

  /** An empty slot stays empty without a ticket or with one that another slot holds, and takes
      it otherwise; further slots are filled unless there was no ticket or its launch failed. */
  predicate StartedBy(who: Owner, elsewhere: bool, calls: seq<Call>, after: Slot, stop: bool) {
    && calls != [] && calls[0].Ask?
    && match calls[0].claim
       case Claimed(t) =>
         if elsewhere then |calls| == 1 && after == EMPTY_SLOT && !stop
         else LaunchedBy(Taking(who, t), calls[1..], after) && (stop <==> after.state != Working)
       case NoTicket => |calls| == 1 && after == EMPTY_SLOT && stop
       case ClaimFailed => |calls| == 1 && after == EMPTY_SLOT && stop
  }

  lemma StartIs(who: Owner, t: TicketId, launching: seq<Call>, after: Slot, stop: bool)
    requires LaunchedBy(Taking(who, t), launching, after) && (stop <==> after.state != Working)
    ensures StartedBy(who, false, [Ask(Claimed(t))] + launching, after, stop)
  {
    assert ([Ask(Claimed(t))] + launching)[1..] == launching;
  }

  // ---------- The parts of the loop, slot by slot ----------

  /** A retry takes a slot with something left to do one step further. */
  ghost predicate RetriedBy(who: Owner, before: Slot, calls: seq<Call>, after: Slot) {
    match before.state
    case Completing => Completes(who, before, calls, after)
    case Closing => exists c: Completion :: c.moving == [] && FinishedBy(who, before, c.closing, c.telling, after) && calls == CallsOf(c)
    case CleanupFailed => CleansUp(who, before, calls, after)
    case _ => calls == [] && after == before
  }

  /** A working slot's screen is read: unknown panes are cleaned up, and exactly an active one
      with the completion marker completes the ticket. */
  ghost predicate RecoveredBy(who: Owner, before: Slot, calls: seq<Call>, after: Slot) {
    if before.state != Working then calls == [] && after == before
    else
      && calls != [] && calls[0].Snapshot? && calls[0].pane == before.pane
      && match calls[0].screen
         case PaneUnknown => CleansUp(who, before.(state := CleanupFailed), calls[1..], after)
         case Screen(active, completed) =>
           if active && completed then Completes(who, before.(state := Completing), calls[1..], after)
           else |calls| == 1 && after == before
         case NoAnswer => |calls| == 1 && after == before
  }

  /** Output with the completion marker completes the ticket if the worker is confirmed: by an
      active screen where the summary is missing, and else by the list of panes. */
  ghost predicate HandledBy(who: Owner, before: Slot, completed: bool, summarized: bool, calls: seq<Call>, after: Slot) {
    if !completed then calls == [] && after == before
    else if !summarized && calls != [] && calls[0].Snapshot? && calls[0].screen.Screen? then
      && calls[0].pane == before.pane
      && if calls[0].screen.active then Completes(who, before.(state := Completing), calls[1..], after)
         else |calls| == 1 && after == before
    else
      var n := if summarized then 0 else 1;
      && |calls| > n && (!summarized ==> calls[0].Snapshot? && calls[0].pane == before.pane) && calls[n].List?
      && if FindsIt(who, calls[n], before.pane) then Completes(who, before.(state := Completing), calls[n + 1..], after)
         else |calls| == n + 1 && after == before
  }

  /** All calls, slot after slot. */
  function Flat(parts: seq<seq<Call>>): seq<Call> {
    if parts == [] then [] else Flat(parts[..|parts| - 1]) + parts[|parts| - 1]
  }

  lemma FlatPush(parts: seq<seq<Call>>, calls: seq<Call>)
    ensures Flat(parts + [calls]) == Flat(parts) + calls
  {
    assert (parts + [calls])[..|parts|] == parts;
  }

  // ---------- The parts of the loop, over all slots ----------

  /** The visit of slot `j` of these slots while empty ones are filled: nothing once canceled,
      and else a start if it is empty. */
  predicate VisitedBy(who: Owner, slots: seq<Slot>, j: nat, calls: seq<Call>, after: Slot, stop: bool)
    requires j < |slots|
  {
    && calls != [] && calls[0].Check?
    && if calls[0].canceled then |calls| == 1 && after == slots[j] && stop
       else if slots[j].state != Empty then |calls| == 1 && after == slots[j] && !stop
       else
         var elsewhere := |calls| > 1 && calls[1].Ask? && calls[1].claim.Claimed? && Holds(slots, calls[1].claim.ticket);
         StartedBy(who, elsewhere, calls[1..], after, stop)
  }

  /** Slot `j` was visited when those before it had been. */
  predicate FilledAt(who: Owner, before: seq<Slot>, j: nat, calls: seq<Call>, after: seq<Slot>, stop: bool)
    requires j < |before| == |after|
  {
    VisitedBy(who, after[..j] + before[j..], j, calls, after[j], stop)
  }

  /** One more visit; `slots` are the slots before it. */
  lemma FilledOn(who: Owner, before: seq<Slot>, slots: seq<Slot>, i: nat, did: seq<seq<Call>>, calls: seq<Call>, after: seq<Slot>, stop: bool)
    requires |before| == |slots| == |after| && i < |before| && |did| == i
    requires slots == slots[..i] + before[i..] && after == slots[i := after[i]]
    requires forall j :: 0 <= j < i ==> FilledAt(who, before, j, did[j], slots, false)
    requires VisitedBy(who, slots, i, calls, after[i], stop)
    ensures forall j :: 0 <= j < i ==> FilledAt(who, before, j, did[j], after, false)
    ensures FilledAt(who, before, i, calls, after, stop)
  {
    hide VisitedBy;
    assert after[..i] == slots[..i];
    forall j | 0 <= j < i ensures FilledAt(who, before, j, did[j], after, false) {
      assert FilledAt(who, before, j, did[j], slots, false);
      assert after[..j] == slots[..j];
    }
  }

  predicate Holds(slots: seq<Slot>, t: TicketId) {
    exists i :: 0 <= i < |slots| && slots[i].state != Empty && slots[i].ticket == t
  }

  /** Slots are visited in order until one visit says to stop; nothing without a stream. */
  ghost predicate FilledBy(who: Owner, connected: bool, before: seq<Slot>, did: seq<seq<Call>>, after: seq<Slot>) {
    && |after| == |before| && |did| <= |before|
    && (forall j :: 0 <= j < |did| - 1 ==> FilledAt(who, before, j, did[j], after, false))
    && (forall j :: |did| <= j < |before| ==> after[j] == before[j])
    && (!connected ==> did == [])
    && (connected && did == [] ==> before == [])
    && (did != [] ==> FilledAt(who, before, |did| - 1, did[|did| - 1], after, true)
                      || (|did| == |before| && FilledAt(who, before, |did| - 1, did[|did| - 1], after, false)))
  }

  lemma FilledNone(who: Owner, slots: seq<Slot>)
    ensures FilledBy(who, false, slots, [], slots)
  {}

  /** What filling makes of a slot, in short. */
  predicate IsFill(before: Slot, after: Slot) {
    if before.state == Empty then after.state in {Empty, Working, CleanupFailed} else after == before
  }

  /** Only empty slots change; each stays empty, works on a ticket or failed to. */
  lemma FillIsFill(who: Owner, connected: bool, before: seq<Slot>, did: seq<seq<Call>>, after: seq<Slot>)
    requires FilledBy(who, connected, before, did, after)
    ensures forall j :: 0 <= j < |before| ==> IsFill(before[j], after[j])
  {
    hide StartedBy;
    forall j | 0 <= j < |did| ensures IsFill(before[j], after[j]) {
      var stop := !FilledAt(who, before, j, did[j], after, false);
      var slots := after[..j] + before[j..];
      assert VisitedBy(who, slots, j, did[j], after[j], stop) && slots[j] == before[j];
      if before[j].state == Empty && !did[j][0].canceled {
        StartIsFill(who, |did[j]| > 1 && did[j][1].Ask? && did[j][1].claim.Claimed? && Holds(slots, did[j][1].claim.ticket),
                    did[j][1..], after[j], stop);
      }
    }
  }

  lemma StartIsFill(who: Owner, elsewhere: bool, calls: seq<Call>, after: Slot, stop: bool)
    requires StartedBy(who, elsewhere, calls, after, stop)
    ensures after.state in {Empty, Working, CleanupFailed}
  {}

  ghost predicate AllRetried(who: Owner, before: seq<Slot>, did: seq<seq<Call>>, after: seq<Slot>) {
    |before| == |did| == |after| && forall j :: 0 <= j < |before| ==> RetriedBy(who, before[j], did[j], after[j])
  }

  ghost predicate AllRecovered(who: Owner, before: seq<Slot>, did: seq<seq<Call>>, after: seq<Slot>) {
    |before| == |did| == |after| && forall j :: 0 <= j < |before| ==> RecoveredBy(who, before[j], did[j], after[j])
  }

  ghost predicate AllGivenUp(who: Owner, before: seq<Slot>, did: seq<seq<Call>>, after: seq<Slot>) {
    |before| == |did| == |after| && forall j :: 0 <= j < |before| ==> GivesUp(who, before[j], did[j], after[j])
  }

  /** The first slot that works in the pane. */
  predicate WorksIn(slots: seq<Slot>, pane: PaneId, k: nat) {
    && k < |slots| && slots[k].state == Working && slots[k].pane == pane
    && forall j :: 0 <= j < k ==> !(slots[j].state == Working && slots[j].pane == pane)
  }

  /** Output concerns the slot that works in its pane, and no other. */
  ghost predicate OutputBy(who: Owner, pane: PaneId, completed: bool, summarized: bool, before: seq<Slot>, calls: seq<Call>, after: seq<Slot>) {
    && |before| == |after|
    && (forall j :: 0 <= j < |before| ==> after[j] == before[j] || WorksIn(before, pane, j))
    && ((forall j :: 0 <= j < |before| ==> !WorksIn(before, pane, j)) ==> calls == [])
    && (forall j :: 0 <= j < |before| && WorksIn(before, pane, j) ==> HandledBy(who, before[j], completed, summarized, calls, after[j]))
  }

  /** What wakes the loop; output may contain the completion marker, and the summary with it. */
  datatype Signal = Tick | Output(pane: PaneId, completed: bool, summarized: bool) | StreamEnded

  datatype Moment = Moment(slots: seq<Slot>, connected: bool)

  datatype Ticking = Ticking(
    retries: seq<seq<Call>>, retried: seq<Slot>, connecting: seq<Call>,
    recoveries: seq<seq<Call>>, recovered: seq<Slot>, fills: seq<seq<Call>>)

  function CallsOfTick(t: Ticking): seq<Call> {
    Flat(t.retries) + t.connecting + Flat(t.recoveries) + Flat(t.fills)
  }

  /** A tick retries what is left over, reconnects a lost stream, and with a stream catches up
      with the workers' screens and then fills the empty slots. */
  ghost predicate TickedBy(who: Owner, before: Moment, t: Ticking, after: Moment) {
    && AllRetried(who, before.slots, t.retries, t.retried)
    && (if before.connected then t.connecting == [] && after.connected else t.connecting == [Connect(after.connected)])
    && if after.connected then
         AllRecovered(who, t.retried, t.recoveries, t.recovered) && FilledBy(who, true, t.recovered, t.fills, after.slots)
       else t.recoveries == [] && t.fills == [] && after.slots == t.retried
  }

  ghost predicate Reacts(who: Owner, before: Moment, signal: Signal, calls: seq<Call>, after: Moment) {
    match signal
    case Tick => exists t :: TickedBy(who, before, t, after) && calls == CallsOfTick(t)
    case Output(pane, completed, summarized) =>
      OutputBy(who, pane, completed, summarized, before.slots, calls, after.slots) && after.connected == before.connected
    case StreamEnded => calls == [] && after == before.(connected := false)
  }

  /** The life between the first fill and the shutdown, signal by signal. */
  ghost predicate LivedThrough(who: Owner, signals: seq<Signal>, moments: seq<Moment>, did: seq<seq<Call>>) {
    && |moments| == |signals| + 1 && |did| == |signals|
    && forall k :: 0 <= k < |signals| ==> Reacts(who, moments[k], signals[k], did[k], moments[k + 1])
  }
}
