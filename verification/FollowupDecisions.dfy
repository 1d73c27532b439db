/** What a scan decides, case by case: whether the agent is sent anything and what
    becomes of the queue, in terms of the answers from the outside alone. */
module FollowupDecisions {
  import opened Basics
  import opened FollowupQueue

  // ---------- When a scan sends ----------

  /** The scan gets as far as looking at the agent: unsaved changes are committed first, and
      there is something to do. */
  predicate LooksAtAgent(e: Entry, s: Scan) {
    && (e.dirty ==> s.flush == Committed)
    && e.queue.phase != Attention && (PendingCount(e.queue.items) > 0 || e.queue.active != "")
  }

  /** The agent is there, in the pane and with the owner of the queue. */
  predicate SeesTarget(e: Entry, s: Scan) {
    LooksAtAgent(e, s) && s.first.Some? && s.first.value.running && s.first.value.target == e.queue.target
  }

  /** Work on the active delivery was seen before, or is seen now. */
  predicate HasWorked(q: Queue, o: Observation) {
    q.phase == Working || (o.revision > q.baseline && o.lastWorkingAt >= q.attemptedAt)
  }

  predicate OutOfTime(q: Queue, o: Observation, s: Scan) {
    q.phase == AwaitingWork && !HasWorked(q, o) && s.checkedAt - q.attemptedAt >= s.timeout
  }

  /** The active delivery is over: its work was seen, and then a newer ready prompt. */
  predicate IsFinished(q: Queue, o: Observation) {
    o.epoch == q.epoch && HasWorked(q, o) && o.ready && o.observedAt > o.lastWorkingAt
  }

  /** Where work is seen for the first time that is committed before anything else. */
  predicate ProgressSaved(q: Queue, s: Scan) {
    q.phase == Working || s.progress == Committed
  }

  /** The way to the next item is free: nothing was active, or that is over and saved. */
  predicate IsFree(e: Entry, s: Scan) {
    && SeesTarget(e, s)
    && (e.queue.active != "" ==> IsFinished(e.queue, s.first.value) && ProgressSaved(e.queue, s) && s.settle == Committed)
  }

  /** The scan claims the first queued item. */
  predicate Claims(e: Entry, s: Scan) {
    IsFree(e, s) && !e.queue.paused && s.first.value.ready && FirstQueued(e.queue.items) >= 0
  }

  /** The second look found the agent as ready as the first. */
  predicate SeenAgain(q: Queue, s: Scan) {
    && s.first.Some? && s.recheck.Some? && s.recheck.value.running && s.recheck.value.ready
    && s.recheck.value.target == q.target
    && s.recheck.value.epoch == s.first.value.epoch && s.recheck.value.revision == s.first.value.revision
  }

  predicate Sends(e: Entry, s: Scan) {
    Claims(e, s) && s.claim == Committed && SeenAgain(e.queue, s)
  }

  function SendsOf(calls: seq<Event>): seq<Event> {
    if calls == [] then []
    else (if calls[0].Send? then [calls[0]] else []) + SendsOf(calls[1..])
  }

  lemma {:induction false} SendsOfConcat(a: seq<Event>, b: seq<Event>)
    ensures SendsOf(a + b) == SendsOf(a) + SendsOf(b)
    decreases |a|
  {
    if a == [] {
      assert a + b == b;
    } else {
      SendsOfConcat(a[1..], b);
      var first := if a[0].Send? then [a[0]] else [];
      assert (a + b)[1..] == a[1..] + b && (a + b)[0] == a[0];
      assert first + (SendsOf(a[1..]) + SendsOf(b)) == (first + SendsOf(a[1..])) + SendsOf(b);
    }
  }

  lemma {:induction false} NoSendsOf(a: seq<Event>)
    requires forall n :: 0 <= n < |a| ==> !a[n].Send?
    ensures SendsOf(a) == []
    decreases |a|
  {
    if a != [] {
      NoSendsOf(a[1..]);
    }
  }

  /** The entry as a scan finds it once its unsaved changes are committed. */
  function Clean(e: Entry): Entry {
    e.(dirty := false)
  }

  /** The queue once the active delivery, if any, is over. */
  function Freed(q: Queue): Queue {
    if q.active == "" then q else q.(active := "", phase := Ready, reason := NoReason)
  }

  // ---------- What a scan leaves ----------

  /** The calls of saving `q` with that outcome. */
  function SavedAs(q: Queue, out: SaveOutcome): seq<Event> {
    if out == Committed then [Saved(q), Acknowledged] else if out == Uncertain then [Saved(q)] else []
  }

  /** What a scan calls before it decides: the save of unsaved changes, and the observation. */
  function Opening(e: Entry, s: Scan): seq<Event> {
    (if e.dirty then SavedAs(e.queue, s.flush) else [])
    + if LooksAtAgent(e, s) && s.first.Some? then [Observed(s.first.value)] else []
  }

  /** The save of the first evidence of work. */
  function ProgressCalls(q: Queue, s: Scan): seq<Event> {
    if s.first.Some? && q.phase != Working && HasWorked(q, s.first.value)
    then SavedAs(q.(phase := Working), s.progress) else []
  }

  /** The saves by which a finished delivery makes way. */
  function FreeingCalls(q: Queue, s: Scan): seq<Event> {
    if q.active == "" then [] else ProgressCalls(q, s) + SavedAs(Freed(q), s.settle)
  }

  /** `q` on hold: paused, its active item and no other marked with the reason. */
  ghost predicate OnHold(q: Queue, reason: Reason, held: Queue) {
    && held == q.(phase := Attention, paused := true, reason := reason, items := held.items)
    && |held.items| == |q.items|
    && forall i :: 0 <= i < |q.items| ==>
      held.items[i] ==
        if q.items[i].id == q.active then q.items[i].(state := NeedsAttention, error := reason) else q.items[i]
  }

  /** The scan leaves `q`, and after its opening makes `calls`. */
  ghost predicate Leaves(e: Entry, s: Scan, q: Queue, dirty: bool, calls: seq<Event>) {
    Step(e, s).entry == Entry(q, dirty) && Step(e, s).calls == Opening(e, s) + calls
  }

  /** The scan puts `q` on hold and saves that, after `calls`. */
  ghost predicate Holds(e: Entry, s: Scan, q: Queue, reason: Reason, out: SaveOutcome) {
    var held := Step(e, s).entry.queue;
    OnHold(q, reason, held) && Leaves(e, s, held, out != Committed, SavedAs(held, out))
  }

  lemma AttendHolds(q: Queue, reason: Reason)
    ensures OnHold(q, reason, Attend(q, reason))
  {}

  /** Unsaved changes that cannot be committed stop the scan, and so does an idle or held queue. */
  lemma ScanRests(e: Entry, s: Scan)
    requires !LooksAtAgent(e, s)
    ensures Leaves(e, s, e.queue, e.dirty && s.flush != Committed, [])
  {}

  /** Without the agent in its pane an idle queue only says so; an active one is put on hold. */
  lemma ScanWithoutTarget(e: Entry, s: Scan)
    requires LooksAtAgent(e, s) && !SeesTarget(e, s)
    ensures e.queue.active == "" ==> Leaves(e, s, e.queue.(reason := TargetUnavailable), false, [])
    ensures e.queue.active != "" ==> Holds(e, s, e.queue, TargetUnavailable, s.settle)
  {
    AttendHolds(e.queue.(reason := TargetUnavailable), TargetUnavailable);
    hide Attend, PendingCount;
  }

  /** With the agent there, the scan goes on with what it observed. */
  lemma Looks(e: Entry, s: Scan)
    requires SeesTarget(e, s)
    ensures var p := StepObserved(Clean(e), s.first.value, s);
      Leaves(e, s, p.entry.queue, p.entry.dirty, p.calls)
  {
    hide StepObserved, PendingCount;
    var p := StepObserved(Clean(e), s.first.value, s);
    assert Step(e, s).calls == Opening(e, s) + p.calls;
  }

  /** What an active delivery that is not over comes to. */
  lemma ScanWhileActive(e: Entry, s: Scan)
    requires SeesTarget(e, s) && e.queue.active != ""
    ensures var q, o := e.queue, s.first.value;
      && (o.epoch != q.epoch ==> Holds(e, s, q, MonitorRestarted, s.settle))
      && (o.epoch == q.epoch && HasWorked(q, o) && !ProgressSaved(q, s) ==>
            Leaves(e, s, q.(phase := Working), true, ProgressCalls(q, s)))
      && (o.epoch == q.epoch && OutOfTime(q, o, s) ==> Holds(e, s, q, WorkNotStarted, s.settle))
      && (o.epoch == q.epoch && HasWorked(q, o) && ProgressSaved(q, s) && !IsFinished(q, o) ==>
            Leaves(e, s, q.(phase := Working), false, ProgressCalls(q, s)))
      && (o.epoch == q.epoch && !HasWorked(q, o) && !OutOfTime(q, o, s) ==> Leaves(e, s, q, false, []))
      && (IsFinished(q, o) && ProgressSaved(q, s) && s.settle != Committed ==>
            Leaves(e, s, Freed(q), true, FreeingCalls(q, s)))
  {
    Looks(e, s);
    AttendHolds(e.queue, MonitorRestarted);
    AttendHolds(e.queue, WorkNotStarted);
    hide Attend, Step, Opening, Dispatch;
  }

  /** Once nothing is active the scan dispatches. */
  lemma Frees(e: Entry, s: Scan)
    requires IsFree(e, s)
    ensures var p := Dispatch(Entry(Freed(e.queue), false), s.first.value, s);
      Leaves(e, s, p.entry.queue, p.entry.dirty, FreeingCalls(e.queue, s) + p.calls)
  {
    Looks(e, s);
    hide Step, Opening, Dispatch;
    var p := Dispatch(Entry(Freed(e.queue), false), s.first.value, s);
    assert StepObserved(Clean(e), s.first.value, s).calls == FreeingCalls(e.queue, s) + p.calls;
  }

  /** What a free queue comes to that has nothing to send, or may not send it. */
  lemma ScanWithoutClaim(e: Entry, s: Scan)
    requires IsFree(e, s) && !Claims(e, s)
    ensures var q, o := Freed(e.queue), s.first.value;
      var reason := if q.paused then q.reason
        else if o.ready then NoReason
        else if o.reason != "" then DraftInPrompt(o.reason) else WaitingForReady;
      Leaves(e, s, q.(reason := reason), false, FreeingCalls(e.queue, s))
  {
    Frees(e, s);
    hide Step, Opening, FreeingCalls;
  }

  /** The claim of item `i`. */
  function ClaimOf(q: Queue, i: nat, s: Scan): Queue
    requires i < |q.items| && s.first.Some?
  {
    q.(active := q.items[i].id, phase := Delivering, reason := DeliveryInProgress,
       items := q.items[i := q.items[i].(state := Sending)],
       attemptedAt := s.claimedAt, baseline := s.first.value.revision, epoch := s.first.value.epoch)
  }

  /** The record of the delivery of item `i`. */
  function RecordOf(q: Queue, i: nat, s: Scan): Queue
    requires i < |q.items| && s.first.Some?
  {
    ClaimOf(q, i, s).(attemptedAt := s.sentAt, phase := AwaitingWork, reason := ConfirmingWorkStart,
                      items := q.items[i := q.items[i].(state := Sent)])
  }

  /** What the claimed queue comes to, by the answers to the claim, the second look and the send. */
  ghost predicate Ends(q: Queue, i: nat, s: Scan, end: Entry)
    requires i < |q.items| && s.first.Some?
  {
    var claim := ClaimOf(q, i, s);
    var sent := claim.(attemptedAt := s.sentAt);
    if s.claim != Committed then OnHold(claim, ClaimNotSaved, end.queue) && end.dirty
    else if !SeenAgain(q, s) then
      && end.queue == claim.(active := "", phase := Ready, reason := InputChanged, items := q.items[i := q.items[i].(state := Queued)])
      && end.dirty == (s.result != Committed)
    else match s.sending
      case NotReady =>
        && end.queue == sent.(active := "", phase := Ready, reason := InputChanged, items := q.items[i := q.items[i].(state := Queued)])
        && end.dirty == (s.result != Committed)
      case Failed => OnHold(sent, DeliveryUncertain, end.queue) && end.dirty == (s.result != Committed)
      case Delivered =>
        if s.result == Committed then end == Entry(RecordOf(q, i, s), false)
        else OnHold(RecordOf(q, i, s), ResultNotSaved, end.queue) && end.dirty
  }

  /** The calls behind the claim's save. */
  function CallsAfterClaim(q: Queue, i: nat, s: Scan, end: Queue): seq<Event>
    requires i < |q.items| && s.first.Some?
  {
    if s.claim != Committed then []
    else
      var looked := if s.recheck.Some? then [Observed(s.recheck.value)] else [];
      var sent := if !SeenAgain(q, s) then []
        else [Send(i, q.items[i].id, q.items[i].text, s.sentAt, s.recheck.value, s.sending)];
      looked + sent + SavedAs(if SeenAgain(q, s) && s.sending == Delivered then RecordOf(q, i, s) else end, s.result)
  }

  /** A claim and what follows it: exactly one send if and only if the second look agrees with
      the first, of the first queued item and its text, and the state that its outcome calls for. */
  lemma ScanClaims(e: Entry, s: Scan)
    requires Claims(e, s)
    ensures var q, i := Freed(e.queue), FirstQueued(e.queue.items);
      var end := Step(e, s).entry;
      && Ends(q, i, s, end)
      && Step(e, s).calls == Opening(e, s) + (FreeingCalls(e.queue, s) + (SavedAs(ClaimOf(q, i, s), s.claim) + CallsAfterClaim(q, i, s, end.queue)))
  {
    Frees(e, s);
    ClaimEnds(Entry(Freed(e.queue), false), FirstQueued(e.queue.items), s);
    hide Step, Opening, FreeingCalls, ClaimOf, Ends, CallsAfterClaim, Claim;
  }

  lemma ClaimEnds(e: Entry, i: nat, s: Scan)
    requires i < |e.queue.items| && s.first.Some?
    ensures var p := Claim(e, i, s.first.value, s);
      Ends(e.queue, i, s, p.entry) && p.calls == SavedAs(ClaimOf(e.queue, i, s), s.claim) + CallsAfterClaim(e.queue, i, s, p.entry.queue)
  {
    var q, o := e.queue, s.first.value;
    var claim := ClaimOf(q, i, s);
    AttendHolds(claim, ClaimNotSaved);
    assert claim.items[i := claim.items[i].(state := Queued)] == q.items[i := q.items[i].(state := Queued)];
    if s.claim == Committed {
      if SeenAgain(q, s) {
        DeliverEnds(e, i, s);
        hide Attend, OnHold, Deliver, SeenAgain, Ends, CallsAfterClaim;
        var d := Deliver(Entry(claim, false), i, s.recheck.value, s);
        assert Claim(e, i, o, s).calls == SavedAs(claim, Committed) + ([Observed(s.recheck.value)] + d.calls);
      } else {
        hide Attend, OnHold, Deliver;
      }
    } else {
      hide Attend, OnHold, Recheck;
    }
  }

  lemma DeliverEnds(e: Entry, i: nat, s: Scan)
    requires i < |e.queue.items| && s.first.Some? && s.claim == Committed && SeenAgain(e.queue, s)
    ensures var p := Deliver(Entry(ClaimOf(e.queue, i, s), false), i, s.recheck.value, s);
      Ends(e.queue, i, s, p.entry) && [Observed(s.recheck.value)] + p.calls == CallsAfterClaim(e.queue, i, s, p.entry.queue)
  {
    var q := e.queue;
    var claim := ClaimOf(q, i, s);
    var sent := claim.(attemptedAt := s.sentAt);
    AttendHolds(sent, DeliveryUncertain);
    AttendHolds(RecordOf(q, i, s), ResultNotSaved);
    assert claim.items[i := claim.items[i].(state := Queued)] == q.items[i := q.items[i].(state := Queued)];
    assert claim.items[i := claim.items[i].(state := Sent)] == q.items[i := q.items[i].(state := Sent)];
    hide Attend, OnHold, SeenAgain;
  }

  /** A scan sends if and only if it claims, the claim is committed and the second look agrees;
      and then once, the first queued item with its text. */
  lemma ScanSends(e: Entry, s: Scan)
    ensures var i := FirstQueued(e.queue.items);
      SendsOf(Step(e, s).calls) ==
        if Sends(e, s) then [Send(i, e.queue.items[i].id, e.queue.items[i].text, s.sentAt, s.recheck.value, s.sending)] else []
  {
    hide Step, SendsOf, IsFree, SeenAgain;
    if Claims(e, s) {
      ClaimSends(e, s);
    } else {
      NoClaimNoSend(e, s);
      NoSendsOf(Step(e, s).calls);
    }
  }

  lemma ClaimSends(e: Entry, s: Scan)
    requires Claims(e, s)
    ensures var i := FirstQueued(e.queue.items);
      SendsOf(Step(e, s).calls) ==
        if s.claim == Committed && SeenAgain(e.queue, s)
        then [Send(i, e.queue.items[i].id, e.queue.items[i].text, s.sentAt, s.recheck.value, s.sending)] else []
  {
    var q, i := Freed(e.queue), FirstQueued(e.queue.items);
    FreedKeeps(e, s);
    hide *;
    ScanClaims(e, s);
    SendAmong(q, i, s, Step(e, s).entry.queue);
    SavesSendNothing(e, i, s);
    var opening, freeing, claiming, tail := Opening(e, s), FreeingCalls(e.queue, s), SavedAs(ClaimOf(q, i, s), s.claim),
      CallsAfterClaim(q, i, s, Step(e, s).entry.queue);
    Regroup(opening, freeing, claiming, tail);
    SendsOfConcat(opening + (freeing + claiming), tail);
  }

  lemma Regroup(a: seq<Event>, b: seq<Event>, c: seq<Event>, d: seq<Event>)
    ensures a + (b + (c + d)) == (a + (b + c)) + d
  {}

  lemma FreedKeeps(e: Entry, s: Scan)
    requires Claims(e, s)
    ensures var q := Freed(e.queue);
      q.items == e.queue.items && (SeenAgain(q, s) <==> SeenAgain(e.queue, s)) && 0 <= FirstQueued(q.items) < |q.items| && s.first.Some?
  {
    hide LooksAtAgent, IsFinished, ProgressSaved;
  }

  lemma SavesSendNothing(e: Entry, i: nat, s: Scan)
    requires i < |e.queue.items| && s.first.Some?
    ensures SendsOf(Opening(e, s) + (FreeingCalls(e.queue, s) + SavedAs(ClaimOf(Freed(e.queue), i, s), s.claim))) == []
  {
    hide LooksAtAgent, HasWorked, ClaimOf, SendsOf;
    NoSendsOf(Opening(e, s) + (FreeingCalls(e.queue, s) + SavedAs(ClaimOf(Freed(e.queue), i, s), s.claim)));
  }

  lemma NoClaimNoSend(e: Entry, s: Scan)
    requires !Claims(e, s)
    ensures forall n :: 0 <= n < |Step(e, s).calls| ==> !Step(e, s).calls[n].Send?
  {
    hide Step, OnHold;
    if IsFree(e, s) {
      ScanWithoutClaim(e, s);
    } else if SeesTarget(e, s) {
      ScanWhileActive(e, s);
    } else if LooksAtAgent(e, s) {
      ScanWithoutTarget(e, s);
    } else {
      ScanRests(e, s);
    }
  }

  lemma SendAmong(q: Queue, i: nat, s: Scan, end: Queue)
    requires i < |q.items| && s.first.Some?
    ensures SendsOf(CallsAfterClaim(q, i, s, end)) ==
      if s.claim == Committed && SeenAgain(q, s)
      then [Send(i, q.items[i].id, q.items[i].text, s.sentAt, s.recheck.value, s.sending)] else []
  {
    if s.claim == Committed {
      var looked := if s.recheck.Some? then [Observed(s.recheck.value)] else [];
      var sent := if !SeenAgain(q, s) then []
        else [Send(i, q.items[i].id, q.items[i].text, s.sentAt, s.recheck.value, s.sending)];
      var saved := SavedAs(if SeenAgain(q, s) && s.sending == Delivered then RecordOf(q, i, s) else end, s.result);
      NoSendsOf(looked);
      NoSendsOf(saved);
      assert sent != [] ==> sent[1..] == [];
      assert SendsOf(sent) == sent;
      hide SavedAs, RecordOf, SeenAgain;
      SendsOfConcat(looked, sent);
      SendsOfConcat(looked + sent, saved);
    }
  }

  /** A restart puts exactly the queues with an outstanding delivery on hold, saves that, and
      fails if the save does. */
  lemma LoadHolds(q: Queue, out: SaveOutcome)
    ensures var p := Load(q, out);
      if q.active != "" || q.phase == Delivering || q.phase == AwaitingWork || q.phase == Working then
        && OnHold(q, DaemonRestarted, p.entry.queue) && p.calls == SavedAs(p.entry.queue, out)
        && p.entry.dirty == (out != Committed) && (p.goesOn <==> out == Committed)
      else p == Piece(Entry(q, false), [], true)
  {
    AttendHolds(q, DaemonRestarted);
    hide Attend;
  }
}
