/** What every send rests on, and what a queue never loses. */
module FollowupHistory {
  import opened Basics
  import opened FollowupQueue
  import opened FollowupCoherence
  import opened FollowupDelivery
  import opened FollowupSteps
  import opened FollowupRuns

  // ---------- A durable claim before each send ----------

  /** The send at `n` comes right after a saved claim of that item with that text, the
      claim's acknowledgement, and a fresh observation of the claim's own target that is
      ready and equal to the claim in epoch and working revision. */
  ghost predicate Grounded(tr: seq<Event>, n: nat)
    requires n < |tr| && tr[n].Send?
  {
    && n >= 3 && tr[n - 3].Saved? && tr[n - 2] == Acknowledged && tr[n - 1] == Observed(tr[n].basis)
    && var q := tr[n - 3].queue; var o := tr[n].basis;
      && q.phase == Delivering && q.active == tr[n].id && !q.paused
      && tr[n].index < |q.items| && q.items[tr[n].index].id == tr[n].id
      && q.items[tr[n].index].text == tr[n].text && q.items[tr[n].index].state == Sending
      && o.running && o.ready && o.target == q.target && o.epoch == q.epoch && o.revision == q.baseline
  }

  ghost predicate AllGrounded(tr: seq<Event>) {
    forall n :: 0 <= n < |tr| && tr[n].Send? ==> Grounded(tr, n)
  }

  predicate NoSends(calls: seq<Event>) {
    forall n :: 0 <= n < |calls| ==> !calls[n].Send?
  }

  lemma GroundedConcat(a: seq<Event>, b: seq<Event>)
    requires AllGrounded(a) && AllGrounded(b)
    ensures AllGrounded(a + b)
  {
    forall n | 0 <= n < |a + b| && (a + b)[n].Send? ensures Grounded(a + b, n) {
      if n < |a| {
        assert Grounded(a, n);
      } else {
        assert Grounded(b, n - |a|);
      }
    }
  }

  lemma GroundedPrefix(a: seq<Event>, n: nat)
    requires AllGrounded(a) && n <= |a|
    ensures AllGrounded(a[..n])
  {
    forall m | 0 <= m < n && a[m].Send? ensures Grounded(a[..n], m) {
      assert Grounded(a, m);
    }
  }

  /** The queue's items, by ID and place, and its owner. */
  ghost predicate SameItems(q: Queue, q': Queue) {
    Ids(q.items) == Ids(q'.items) && q.target == q'.target
  }

  /** A piece that sends nothing and keeps the items. */
  ghost predicate Quiet(q: Queue, p: Piece) {
    NoSends(p.calls) && SameItems(q, p.entry.queue)
  }

  /** A piece that sends only on durable claims and keeps the items. */
  ghost predicate Lasting(q: Queue, p: Piece) {
    AllGrounded(p.calls) && SameItems(q, p.entry.queue)
  }

  lemma QuietAfter(q: Queue, calls: seq<Event>, p: Piece)
    requires NoSends(calls) && Quiet(q, p)
    ensures Quiet(q, After(calls, p))
  {}

  lemma LastingAfter(q: Queue, calls: seq<Event>, p: Piece)
    requires NoSends(calls) && Lasting(q, p)
    ensures Lasting(q, After(calls, p))
  {
    GroundedConcat(calls, p.calls);
  }

  lemma SaveQuiet(e: Entry, out: SaveOutcome)
    ensures Quiet(e.queue, Save(e, out)) && Save(e, out).entry.queue == e.queue
  {}

  lemma AttendQuiet(e: Entry, reason: Reason, out: SaveOutcome)
    ensures Quiet(e.queue, AttendAndSave(e, reason, out)) && SameItems(e.queue, Attend(e.queue, reason))
  {
    assert SameItems(e.queue, Attend(e.queue, reason));
    SaveQuiet(e.(queue := Attend(e.queue, reason)), out);
  }

  lemma LoseTargetQuiet(e: Entry, s: Scan)
    ensures Quiet(e.queue, LoseTarget(e, s))
  {
    AttendQuiet(e.(queue := e.queue.(reason := TargetUnavailable)), TargetUnavailable, s.settle);
  }

  lemma ReleaseFinishedQuiet(e: Entry, o: Observation, s: Scan)
    ensures Quiet(e.queue, ReleaseFinished(e, o, s))
  {
    AttendQuiet(e, WorkNotStarted, s.settle);
    SaveQuiet(e.(queue := e.queue.(active := "", phase := Ready, reason := NoReason)), s.settle);
  }

  lemma SettleActiveQuiet(e: Entry, o: Observation, s: Scan)
    ensures Quiet(e.queue, SettleActive(e, o, s))
  {
    AttendQuiet(e, MonitorRestarted, s.settle);
    ReleaseFinishedQuiet(e, o, s);
    var e1 := e.(queue := e.queue.(phase := Working));
    var p := Save(e1, s.progress);
    SaveQuiet(e1, s.progress);
    ReleaseFinishedQuiet(p.entry, o, s);
    hide ReleaseFinished, Save;
    QuietAfter(e.queue, p.calls, ReleaseFinished(p.entry, o, s));
  }

  lemma UnclaimQuiet(e: Entry, index: nat, s: Scan)
    requires index < |e.queue.items|
    ensures Quiet(e.queue, Unclaim(e, index, s))
  {
    var items := e.queue.items[index := e.queue.items[index].(state := Queued)];
    assert Ids(items) == Ids(e.queue.items);
    hide Ids;
  }

  lemma RecordQuiet(e: Entry, index: nat, s: Scan)
    requires index < |e.queue.items|
    ensures Quiet(e.queue, Record(e, index, s))
  {
    var items := e.queue.items[index := e.queue.items[index].(state := Sent)];
    assert Ids(items) == Ids(e.queue.items);
    var e1 := e.(queue := e.queue.(items := items, phase := AwaitingWork, reason := ConfirmingWorkStart));
    SaveQuiet(e1, s.result);
    AttendQuiet(e1, ResultNotSaved, s.result);
    hide Ids, Attend;
  }

  /** What follows the send. */
  lemma DeliverQuiet(e: Entry, index: nat, later: Observation, s: Scan)
    requires index < |e.queue.items|
    ensures var p := Deliver(e, index, later, s);
      && p.calls != [] && p.calls[0] == SendCall(e, index, later, s)
      && NoSends(p.calls[1..]) && SameItems(e.queue, p.entry.queue)
  {
    var e1 := e.(queue := e.queue.(attemptedAt := s.sentAt));
    UnclaimQuiet(e1, index, s);
    AttendQuiet(e1, DeliveryUncertain, s.result);
    RecordQuiet(e1, index, s);
    hide Unclaim, AttendAndSave, Record, Ids;
    var rest := match s.sending
      case NotReady => Unclaim(e1, index, s)
      case Failed => AttendAndSave(e1, DeliveryUncertain, s.result)
      case Delivered => Record(e1, index, s);
    assert ([SendCall(e, index, later, s)] + rest.calls)[1..] == rest.calls;
  }

  lemma ClaimLasting(e: Entry, index: nat, o: Observation, s: Scan)
    requires index < |e.queue.items| && !e.queue.paused
    ensures Lasting(e.queue, Claim(e, index, o, s))
  {
    var q := ClaimedQueue(e.queue, index, o, s.claimedAt);
    assert SameItems(e.queue, q);
    var p := Save(e.(queue := q), s.claim);
    SaveQuiet(e.(queue := q), s.claim);
    AttendQuiet(p.entry, ClaimNotSaved, s.claim);
    UnclaimQuiet(p.entry, index, s);
    var calls := Claim(e, index, o, s).calls;
    if p.goesOn && s.recheck.Some? && StillReady(p.entry.queue, o, s.recheck.value) {
      var later := s.recheck.value;
      DeliverQuiet(p.entry, index, later, s);
      hide Deliver, Ids, Attend, Unclaim;
      var d := Deliver(p.entry, index, later, s);
      assert calls == p.calls + ([Observed(later)] + d.calls);
      SendGrounded(calls, q, later, d.calls);
    } else {
      hide Ids, Attend, Unclaim;
      assert NoSends(calls);
    }
  }

  lemma SendGrounded(calls: seq<Event>, q: Queue, later: Observation, sent: seq<Event>)
    requires calls == [Saved(q), Acknowledged] + ([Observed(later)] + sent)
    requires sent != [] && sent[0].Send? && NoSends(sent[1..]) && sent[0].basis == later
    requires q.phase == Delivering && q.active == sent[0].id && !q.paused
    requires sent[0].index < |q.items| && q.items[sent[0].index].id == sent[0].id
    requires q.items[sent[0].index].text == sent[0].text && q.items[sent[0].index].state == Sending
    requires later.running && later.ready && later.target == q.target && later.epoch == q.epoch
    requires later.revision == q.baseline
    ensures AllGrounded(calls)
  {
    assert calls[3] == sent[0];
    assert forall n :: 4 <= n < |calls| ==> calls[n] == sent[1..][n - 4];
    assert Grounded(calls, 3);
  }

  /** The claim's only send is that of the claimed item, right after the second look. */
  lemma ClaimSendsOnce(e: Entry, index: nat, o: Observation, s: Scan)
    requires index < |e.queue.items|
    ensures var calls := Claim(e, index, o, s).calls;
      forall n :: 0 <= n < |calls| && calls[n].Send? ==>
        n == 3 && calls[n].index == index && calls[n].id == e.queue.items[index].id && calls[n].text == e.queue.items[index].text
  {
    var q := ClaimedQueue(e.queue, index, o, s.claimedAt);
    var p := Save(e.(queue := q), s.claim);
    SaveQuiet(e.(queue := q), s.claim);
    UnclaimQuiet(p.entry, index, s);
    var calls := Claim(e, index, o, s).calls;
    if p.goesOn && s.recheck.Some? && StillReady(p.entry.queue, o, s.recheck.value) {
      var later := s.recheck.value;
      DeliverQuiet(p.entry, index, later, s);
      hide Deliver, Ids, Attend, Unclaim;
      var d := Deliver(p.entry, index, later, s);
      assert calls == p.calls + ([Observed(later)] + d.calls);
      assert forall n :: 4 <= n < |calls| ==> calls[n] == d.calls[1..][n - 4];
    } else {
      hide Ids, Attend, Unclaim;
      assert NoSends(calls);
    }
  }

  /** Dispatching sends at most once, and then the first queued item of a queue that is not
      paused, on a ready observation. */
  lemma DispatchLasting(e: Entry, o: Observation, s: Scan)
    ensures Lasting(e.queue, Dispatch(e, o, s))
    ensures var calls, index := Dispatch(e, o, s).calls, FirstQueued(e.queue.items);
      forall n :: 0 <= n < |calls| && calls[n].Send? ==>
        && n == 3 && index >= 0 && !e.queue.paused && o.ready
        && calls[n].index == index && calls[n].id == e.queue.items[index].id && calls[n].text == e.queue.items[index].text
  {
    var index := FirstQueued(e.queue.items);
    if !e.queue.paused && o.ready && index >= 0 {
      hide Claim;
      ClaimLasting(e, index, o, s);
      ClaimSendsOnce(e, index, o, s);
    }
  }

  lemma QuietIsLasting(q: Queue, p: Piece)
    requires Quiet(q, p)
    ensures Lasting(q, p)
  {}

  lemma StepObservedLasting(e: Entry, o: Observation, s: Scan)
    ensures Lasting(e.queue, StepObserved(e, o, s))
  {
    var p := SettleActive(e, o, s);
    SettleActiveQuiet(e, o, s);
    DispatchLasting(e, o, s);
    DispatchLasting(p.entry, o, s);
    hide SettleActive, Dispatch, Ids;
    QuietIsLasting(e.queue, p);
    LastingAfter(e.queue, p.calls, Dispatch(p.entry, o, s));
  }

  /** A scan sends only on durable claims. It neither adds, drops nor reorders items, and it
      never changes the queue's owner. */
  lemma StepLasting(e: Entry, s: Scan)
    ensures Lasting(e.queue, Step(e, s))
  {
    var flush := Save(e, s.flush);
    var e0 := if e.dirty then flush.entry else e;
    SaveQuiet(e, s.flush);
    LoseTargetQuiet(e0, s);
    hide LoseTarget, StepObserved, Ids;
    QuietIsLasting(e0.queue, LoseTarget(e0, s));
    if s.first.Some? {
      StepObservedLasting(e0, s.first.value, s);
      LastingAfter(e0.queue, [Observed(s.first.value)], StepObserved(e0, s.first.value, s));
      LastingAfter(e0.queue, [Observed(s.first.value)], LoseTarget(e0, s));
    }
    LastingAfter(e.queue, flush.calls, StepClean(e0, s));
  }

  /** An edit sends nothing and keeps all items in place; at most it appends one. */
  ghost predicate EditLasting(q: Queue, newId: Id, r: Reaction) {
    && NoSends(r.calls) && r.entry.Some? && r.entry.value.queue.target == q.target
    && (Ids(r.entry.value.queue.items) == Ids(q.items) || Ids(r.entry.value.queue.items) == Ids(q.items) + [newId])
  }

  lemma FinishLasting(q: Queue, newId: Id, e: Entry, before: seq<Event>, out: SaveOutcome)
    requires NoSends(before) && e.queue.target == q.target
    requires Ids(e.queue.items) == Ids(q.items) || Ids(e.queue.items) == Ids(q.items) + [newId]
    ensures EditLasting(q, newId, Finish(e, before, out))
  {
    hide Ids;
    SaveQuiet(e, out);
  }

  lemma CloseLasting(e: Entry, i: nat, state: ItemState, reason: Reason, input: EditInput)
    requires i < |e.queue.items|
    ensures EditLasting(e.queue, input.newId, Close(e, i, state, reason, input))
  {
    var items := e.queue.items[i := e.queue.items[i].(state := state, error := NoReason)];
    assert Ids(items) == Ids(e.queue.items);
    hide Ids;
    FinishLasting(e.queue, input.newId,
      e.(queue := e.queue.(items := items, active := "", phase := Ready, reason := reason, paused := true)),
      [Settled(e.queue.items[i].id)], input.save);
  }

  lemma EditItemLasting(e: Entry, req: Request, input: EditInput)
    ensures EditLasting(e.queue, input.newId, EditItem(e, req, input))
  {
    var i := IndexOf(e.queue.items, req.itemId);
    if i >= 0 {
      var x := if req.action == Edit then e.queue.items[i].(text := req.text) else e.queue.items[i].(state := Canceled);
      var items := e.queue.items[i := x];
      assert Ids(items) == Ids(e.queue.items);
      hide Ids, IndexOf, Finish, ValidText;
      FinishLasting(e.queue, input.newId, e.(queue := e.queue.(items := items)), [], input.save);
    }
  }

  lemma AddItemLasting(e: Entry, req: Request, input: EditInput)
    ensures EditLasting(e.queue, input.newId, AddItem(e, req, input))
  {
    var items := e.queue.items + [Item(input.newId, req.requestId, req.text, Queued, NoReason)];
    assert Ids(items) == Ids(e.queue.items) + [input.newId];
    hide Ids, Finish, ValidText, PendingCount, IndexOfRequest;
    FinishLasting(e.queue, input.newId, e.(queue := e.queue.(items := items)), [], input.save);
    FinishLasting(e.queue, input.newId, e, [], input.save);
  }

  lemma UpdateEntryLasting(e: Entry, req: Request, input: EditInput)
    ensures EditLasting(e.queue, input.newId, UpdateEntry(e, req, input))
  {
    var i := IndexOf(e.queue.items, req.itemId);
    AddItemLasting(e, req, input);
    EditItemLasting(e, req, input);
    if i >= 0 {
      CloseLasting(e, i, Canceled, DeliveryExcluded, input);
      CloseLasting(e, i, Sent, DeliveryConfirmed, input);
    }
    FinishLasting(e.queue, input.newId, e.(queue := e.queue.(paused := true)), [], input.save);
    FinishLasting(e.queue, input.newId, e.(queue := e.queue.(paused := false, reason := NoReason)), [Resumed], input.save);
    hide Ids, AddItem, EditItem, Close, Finish, IndexOf;
  }

  lemma UpdateGrounded(mem: Option<Entry>, agent: Id, req: Request, input: EditInput)
    ensures AllGrounded(Update(mem, agent, req, input).calls)
  {
    if mem.Some? {
      UpdateEntryLasting(mem.value, req, input);
    } else if input.observed.Some? {
      UpdateEntryLasting(Entry(NewQueue(input.observed.value.target), false), req, input);
    }
    hide UpdateEntry;
    assert NoSends(Update(mem, agent, req, input).calls);
  }

  lemma PerformGrounded(s: State, agent: Id, op: Op)
    ensures AllGrounded(Perform(s, agent, op).calls)
    decreases op
  {
    match op {
      case Scanning(scan) =>
        if s.process.Up? && s.process.entry.Some? {
          StepLasting(s.process.entry.value, scan);
        }
      case Editing(request, input) =>
        if s.process.Up? {
          UpdateGrounded(s.process.entry, agent, request, input);
        }
      case Restarting(_, _) => assert NoSends(Perform(s, agent, op).calls);
      case Dying(inner, cut) =>
        PerformGrounded(s, agent, inner);
        var calls := Perform(s, agent, inner).calls;
        if cut <= |calls| {
          GroundedPrefix(calls, cut);
        }
    }
  }

  lemma {:induction false} RunGrounded(s: State, agent: Id, ops: seq<Op>)
    requires AllGrounded(s.trace)
    ensures AllGrounded(Run(s, agent, ops).trace)
    decreases |ops|
  {
    if ops != [] {
      PerformGrounded(s, agent, ops[0]);
      GroundedConcat(s.trace, Perform(s, agent, ops[0]).calls);
      RunGrounded(Next(s, agent, ops[0]), agent, ops[1..]);
    }
  }

  /** In every run, every send rests on a claim that is already in the database. */
  lemma SendsAreGrounded(s: State, agent: Id, n: nat)
    requires Reachable(s, agent) && n < |s.trace| && s.trace[n].Send?
    ensures Grounded(s.trace, n)
  {
    var ops :| LegalRun(START, agent, ops) && s == Run(START, agent, ops);
    RunGrounded(START, agent, ops);
  }

  // ---------- Coherence and lasting items ----------

  /** Memory, and every queue that a restart may load, is coherent in every reachable state. */
  lemma EveryQueueIsCoherent(s: State, agent: Id)
    requires Reachable(s, agent)
    ensures s.process.Up? && s.process.entry.Some? ==>
      var q := s.process.entry.value.queue;
      Coherent(q) && q.phase != Delivering && PendingCount(q.items) <= MAX_PENDING + 1
    ensures forall k :: s.world.acked <= k + 1 && 0 <= k < |s.world.log| ==>
      var q := Recover(s.world.log[k]);
      Coherent(q) && (q.phase == Ready || q.phase == Attention) && PendingCount(q.items) <= MAX_PENDING + 1
  {
    ReachableOk(s, agent);
    forall k | s.world.acked <= k + 1 && 0 <= k < |s.world.log|
      ensures var q := Recover(s.world.log[k]);
        Coherent(q) && (q.phase == Ready || q.phase == Attention) && PendingCount(q.items) <= MAX_PENDING + 1
    {
      RecoverKeeps(s.world.log[k]);
    }
  }

  /** A crash loses no item that an acknowledged save holds, adds none, and reorders none. */
  lemma RestartKeepsItems(s: State, agent: Id, k: nat)
    requires Reachable(s, agent) && 0 < s.world.acked <= k <= |s.world.log|
    ensures IsExtension(s.world.log[s.world.acked - 1], Recover(s.world.log[k - 1]))
    ensures s.process.Up? && s.process.entry.Some? ==>
      IsExtension(Recover(s.world.log[k - 1]), s.process.entry.value.queue)
  {
    ReachableOk(s, agent);
    assert Ids(Recover(s.world.log[k - 1]).items) == Ids(s.world.log[k - 1].items);
    assert IsExtension(s.world.log[s.world.acked - 1], s.world.log[k - 1]);
    if s.process.Up? && s.process.entry.Some? {
      assert IsExtension(s.world.log[k - 1], s.process.entry.value.queue);
    }
  }
}
