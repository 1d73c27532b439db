/** The service's queue entry: fields updated in place under the entry's lock, each
    operation proved equal to its description in `FollowupQueue`. */
module FollowupService {
  import opened Basics
  import opened FollowupQueue

  class QueueEntry {
    var queue: Queue
    var dirty: bool
    /** Every call made to the repository, the runtime and the operator's decisions. */
    var calls: seq<Event>

    function State(): Entry
      reads this
    {
      Entry(queue, dirty)
    }

    constructor (q: Queue)
      ensures State() == Entry(q, false) && calls == []
    {
      queue, dirty, calls := q, false, [];
    }

    /** The entry and its calls moved from `before` by the piece `p`. */
    twostate predicate Did(p: Piece)
      reads this
    {
      State() == p.entry && calls == old(calls) + p.calls
    }

    method SaveQueue(out: SaveOutcome) returns (ok: bool)
      modifies this
      ensures Did(Save(old(State()), out)) && ok == Save(old(State()), out).goesOn
      ensures queue == old(queue)
    {
      dirty := true;
      if out != Rejected {
        calls := calls + [Saved(queue)];
      }
      if out != Committed {
        return false;
      }
      calls := calls + [Acknowledged];
      dirty := false;
      ok := true;
    }

    method Hold(reason: Reason)
      modifies this`queue
      ensures queue == Attend(old(queue), reason)
    {
      queue := queue.(phase := Attention, paused := true, reason := reason);
      var i := 0;
      while i < |queue.items|
        invariant 0 <= i <= |queue.items| == |old(queue).items|
        invariant queue == old(queue).(phase := Attention, paused := true, reason := reason, items := queue.items)
        invariant forall k :: 0 <= k < i ==> queue.items[k] == MarkActive(old(queue).items, old(queue).active, reason)[k]
        invariant forall k :: i <= k < |queue.items| ==> queue.items[k] == old(queue).items[k]
      {
        if queue.items[i].id == queue.active {
          queue := queue.(items := queue.items[i := queue.items[i].(state := NeedsAttention, error := reason)]);
        }
        i := i + 1;
      }
      assert queue.items == MarkActive(old(queue).items, old(queue).active, reason);
    }

    method Pending() returns (n: nat)
      ensures n == PendingCount(queue.items)
    {
      n := 0;
      for i := 0 to |queue.items|
        invariant n == PendingCount(queue.items[..i])
      {
        assert queue.items[..i + 1][..i] == queue.items[..i];
        if IsPending(queue.items[i].state) {
          n := n + 1;
        }
      }
      assert queue.items[..|queue.items|] == queue.items;
    }

    /** The position of the first item that satisfies `p`, or -1. */
    method Find(p: Item -> bool) returns (index: int)
      ensures -1 <= index < |queue.items|
      ensures index >= 0 ==> p(queue.items[index])
      ensures forall i :: 0 <= i < (if index < 0 then |queue.items| else index) ==> !p(queue.items[i])
    {
      for i := 0 to |queue.items|
        invariant forall k :: 0 <= k < i ==> !p(queue.items[k])
      {
        if p(queue.items[i]) {
          return i;
        }
      }
      return -1;
    }

    method SetItem(i: nat, x: Item)
      requires i < |queue.items|
      modifies this`queue
      ensures queue == old(queue).(items := old(queue).items[i := x])
    {
      queue := queue.(items := queue.items[i := x]);
    }

    // ---------- One scan ----------

    method Scan(s: Scan)
      modifies this
      ensures Did(Step(old(State()), s))
    {
      hide StepObserved, LoseTarget, Attend, PendingCount;
      if dirty {
        var ok := SaveQueue(s.flush);
        if !ok {
          return;
        }
      }
      var pending := Pending();
      if queue.phase == Attention || (pending == 0 && queue.active == "") {
        return;
      }
      if s.first.Some? {
        calls := calls + [Observed(s.first.value)];
      }
      if s.first.None? || !s.first.value.running || s.first.value.target != queue.target {
        GiveUpTarget(s);
        return;
      }
      ScanObserved(s.first.value, s);
    }

    method GiveUpTarget(s: Scan)
      modifies this
      ensures Did(LoseTarget(old(State()), s))
    {
      queue := queue.(reason := TargetUnavailable);
      if queue.active != "" {
        Hold(TargetUnavailable);
        var _ := SaveQueue(s.settle);
      }
    }

    method ScanObserved(o: Observation, s: Scan)
      modifies this
      ensures Did(StepObserved(old(State()), o, s))
    {
      hide SettleActive, Dispatch;
      if queue.active != "" {
        var released := Release(o, s);
        if !released {
          return;
        }
      }
      DispatchNext(o, s);
    }

    /** Whether the active delivery is over. */
    method Release(o: Observation, s: Scan) returns (released: bool)
      modifies this
      ensures Did(SettleActive(old(State()), o, s)) && released == SettleActive(old(State()), o, s).goesOn
    {
      hide Attend;
      if o.epoch != queue.epoch {
        Hold(MonitorRestarted);
        var _ := SaveQueue(s.settle);
        return false;
      }
      if o.revision > queue.baseline && o.lastWorkingAt >= queue.attemptedAt {
        if queue.phase != Working {
          queue := queue.(phase := Working);
          var ok := SaveQueue(s.progress);
          if !ok {
            return false;
          }
        }
      }
      if queue.phase == AwaitingWork && s.checkedAt - queue.attemptedAt >= s.timeout {
        Hold(WorkNotStarted);
        var _ := SaveQueue(s.settle);
        return false;
      }
      if queue.phase != Working || !o.ready || !(o.observedAt > o.lastWorkingAt) {
        return false;
      }
      queue := queue.(active := "", phase := Ready, reason := NoReason);
      released := SaveQueue(s.settle);
    }

    method DispatchNext(o: Observation, s: Scan)
      modifies this
      ensures Did(Dispatch(old(State()), o, s))
    {
      if queue.paused {
        return;
      }
      if !o.ready {
        queue := queue.(reason := WaitingForReady);
        if o.reason != "" {
          queue := queue.(reason := DraftInPrompt(o.reason));
        }
        return;
      }
      var index := Find((i: Item) => i.state == Queued);
      if index < 0 {
        queue := queue.(reason := NoReason);
        return;
      }
      ClaimAndSend(index, o, s);
    }

    method ClaimAndSend(index: nat, o: Observation, s: Scan)
      requires index < |queue.items|
      modifies this
      ensures Did(Claim(old(State()), index, o, s))
    {
      hide Recheck, Attend;
      queue := queue.(active := queue.items[index].id, phase := Delivering);
      SetItem(index, queue.items[index].(state := Sending));
      queue := queue.(attemptedAt := s.claimedAt, baseline := o.revision, epoch := o.epoch);
      queue := queue.(reason := DeliveryInProgress);
      var ok := SaveQueue(s.claim);
      if !ok {
        Hold(ClaimNotSaved);
        dirty := true;
        return;
      }
      LookAgain(index, o, s);
    }

    method LookAgain(index: nat, o: Observation, s: Scan)
      requires index < |queue.items|
      modifies this
      ensures Did(Recheck(old(State()), index, o, s))
    {
      hide Deliver, Unclaim, Attend;
      if s.recheck.Some? {
        calls := calls + [Observed(s.recheck.value)];
      }
      if s.recheck.None? || !StillReady(queue, o, s.recheck.value) {
        Requeue(index, s);
        return;
      }
      SendItem(index, s.recheck.value, s);
    }

    method Requeue(index: nat, s: Scan)
      requires index < |queue.items|
      modifies this
      ensures Did(Unclaim(old(State()), index, s))
    {
      SetItem(index, queue.items[index].(state := Queued));
      queue := queue.(active := "", phase := Ready, reason := InputChanged);
      var _ := SaveQueue(s.result);
    }

    method SendItem(index: nat, later: Observation, s: Scan)
      requires index < |queue.items|
      modifies this
      ensures Did(Deliver(old(State()), index, later, s))
    {
      hide Unclaim, Attend;
      queue := queue.(attemptedAt := s.sentAt);
      calls := calls + [Send(index, queue.items[index].id, queue.items[index].text, s.sentAt, later, s.sending)];
      if s.sending == NotReady {
        Requeue(index, s);
        return;
      }
      if s.sending == Failed {
        Hold(DeliveryUncertain);
        var _ := SaveQueue(s.result);
        return;
      }
      SetItem(index, queue.items[index].(state := Sent));
      queue := queue.(phase := AwaitingWork, reason := ConfirmingWorkStart);
      var ok := SaveQueue(s.result);
      if !ok {
        Hold(ResultNotSaved);
        dirty := true;
      }
    }

    // ---------- One edit ----------

    /** The reaction `r` is what happened to the entry. */
    twostate predicate Reacted(r: Reaction, reply: Reply)
      reads this
    {
      r.entry == Some(State()) && calls == old(calls) + r.calls && reply == r.reply
    }

    method SaveEdit(out: SaveOutcome) returns (reply: Reply)
      modifies this
      ensures Did(Save(old(State()), out)) && reply == if Save(old(State()), out).goesOn then Accepted else NotSaved
    {
      var saved := SaveQueue(out);
      reply := if saved then Accepted else NotSaved;
    }

    method Edit(req: Request, input: EditInput) returns (reply: Reply)
      modifies this
      ensures Reacted(UpdateEntry(old(State()), req, input), reply)
    {
      var index := Find((i: Item) => i.id == req.itemId);
      hide PendingCount, ValidText;
      match req.action {
        case Add => reply := AddNew(req, input);
        case Edit => reply := Amend(index, req, input);
        case Cancel =>
          if index >= 0 && queue.items[index].state == NeedsAttention && queue.active == queue.items[index].id {
            reply := Settle(index, Canceled, DeliveryExcluded, input);
          } else {
            reply := Amend(index, req, input);
          }
        case Resolve =>
          if index < 0 {
            return NotFound;
          }
          if queue.items[index].state != NeedsAttention || queue.active != queue.items[index].id {
            return Conflict;
          }
          reply := Settle(index, Sent, DeliveryConfirmed, input);
        case Pause =>
          queue := queue.(paused := true);
          reply := SaveEdit(input.save);
        case Resume =>
          if queue.phase == Attention {
            return Conflict;
          }
          queue := queue.(paused := false, reason := NoReason);
          calls := calls + [Resumed];
          reply := SaveEdit(input.save);
        case Unknown => return Invalid;
      }
    }

    /** Adds an item once per request ID. */
    method AddNew(req: Request, input: EditInput) returns (reply: Reply)
      modifies this
      ensures Reacted(AddItem(old(State()), req, input), reply)
    {
      if req.requestId != "" {
        var known := Find((i: Item) => i.requestId == req.requestId);
        if known >= 0 {
          assert known == IndexOfRequest(queue.items, req.requestId);
          if queue.items[known].text != req.text {
            return Conflict;
          }
          if dirty {
            reply := SaveEdit(input.save);
            return;
          }
          return Accepted;
        }
      }
      var pending := Pending();
      if !ValidText(req.text) || pending >= MAX_PENDING {
        return Invalid;
      }
      queue := queue.(items := queue.items + [Item(input.newId, req.requestId, req.text, Queued, NoReason)]);
      reply := SaveEdit(input.save);
    }

    /** Rewords or cancels a queued item. */
    method Amend(index: int, req: Request, input: EditInput) returns (reply: Reply)
      requires index == IndexOf(queue.items, req.itemId)
      modifies this
      ensures Reacted(EditItem(old(State()), req, input), reply)
    {
      if index < 0 {
        return NotFound;
      }
      if queue.items[index].state != Queued {
        return Conflict;
      }
      if req.action == Action.Edit {
        if !ValidText(req.text) {
          return Invalid;
        }
        SetItem(index, queue.items[index].(text := req.text));
      } else {
        SetItem(index, queue.items[index].(state := Canceled));
      }
      reply := SaveEdit(input.save);
    }

    method Settle(index: nat, state: ItemState, reason: Reason, input: EditInput) returns (reply: Reply)
      requires index < |queue.items|
      modifies this
      ensures Reacted(Close(old(State()), index, state, reason, input), reply)
    {
      calls := calls + [Settled(queue.items[index].id)];
      SetItem(index, queue.items[index].(state := state, error := NoReason));
      queue := queue.(active := "", phase := Ready, reason := reason, paused := true);
      reply := SaveEdit(input.save);
    }
  }

  /** Restores one stored queue; `ok` is whether the daemon may start. */
  method LoadEntry(q: Queue, out: SaveOutcome) returns (e: QueueEntry, ok: bool)
    ensures fresh(e)
    ensures e.State() == Load(q, out).entry && e.calls == Load(q, out).calls && ok == Load(q, out).goesOn
  {
    e := new QueueEntry(q);
    ok := true;
    if q.active != "" || q.phase == AwaitingWork || q.phase == Working || q.phase == Delivering {
      e.Hold(DaemonRestarted);
      ok := e.SaveQueue(out);
    }
  }
}
