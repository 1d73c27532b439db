/** Every operation on a queue is safe at each of its outside calls and leaves a queue
    that the next operation may start from. */
module FollowupSteps {
  import opened Basics
  import opened FollowupQueue
  import opened FollowupCoherence
  import opened FollowupDelivery

  // ---------- Pieces of a scan ----------

  lemma AttendAndSaveGood(e: Entry, reason: Reason, out: SaveOutcome, w: World)
    requires WorldOk(w) && Coherent(e.queue) && e.queue.active != ""
    requires DeliveredOk(e.queue, w.deliveries) && OnlyActive(e.queue, w.work) && Extends(e.queue, w.log)
    ensures Good(w, AttendAndSave(e, reason, out))
  {
    AttendAtRest(e, reason, w);
    SaveAtRest(e.(queue := Attend(e.queue, reason)), out, w);
  }

  lemma OnlyActiveAtRest(e: Entry, w: World)
    requires RestOk(e, w) && e.queue.active != ""
    ensures OnlyActive(e.queue, w.work)
  {}

  lemma LoseTargetGood(e: Entry, s: Scan, w: World)
    requires WorldOk(w) && Coherent(e.queue) && DeliveredOk(e.queue, w.deliveries) && Extends(e.queue, w.log)
    requires if e.queue.active != "" then OnlyActive(e.queue, w.work) else WorkOk(e.queue, w.work)
    ensures Good(w, LoseTarget(e, s))
  {
    var q1 := e.queue.(reason := TargetUnavailable);
    assert CoherentAt(q1, ActiveAt(e.queue));
    if e.queue.active != "" {
      AttendAndSaveGood(e.(queue := q1), TargetUnavailable, s.settle, w);
    }
  }

  /** The accounting has taken in the observation `o`: with it, finished work is over. */
  ghost predicate Seen(q: Queue, o: Observation, work: Work) {
    q.phase == Working && o.ready && o.observedAt > o.lastWorkingAt ==> work.Free?
  }

  lemma FinishAtRest(e: Entry, w: World)
    requires RestOk(e, w) && e.queue.phase == Working && w.work.Free?
    ensures RestOk(e.(queue := e.queue.(active := "", phase := Ready, reason := NoReason)), w)
  {
    FinishKeeps(e.queue, ActiveAt(e.queue), NoReason);
    hide CoherentAt, WorldOk;
  }

  lemma ReleaseFinishedGood(e: Entry, o: Observation, s: Scan, w: World)
    requires RestOk(e, w) && e.queue.active != "" && e.queue.phase != Attention && Seen(e.queue, o, w.work)
    ensures var p := ReleaseFinished(e, o, s);
      && Good(w, p)
      && (p.goesOn ==> p.entry.queue.active == "" && p.entry.queue.phase == Ready)
  {
    OnlyActiveAtRest(e, w);
    var q := e.queue;
    if q.phase == AwaitingWork && s.checkedAt - q.attemptedAt >= s.timeout {
      AttendAndSaveGood(e, WorkNotStarted, s.settle, w);
    } else if q.phase == Working && o.ready && o.observedAt > o.lastWorkingAt {
      FinishAtRest(e, w);
      hide RestOk, AllOk, ApplyAll;
      SaveAtRest(e.(queue := q.(active := "", phase := Ready, reason := NoReason)), s.settle, w);
    } else {
      hide RestOk, WorldOk;
      assert Good(w, Piece(e, [], false));
    }
  }

  lemma ProgressWork(q: Queue, o: Observation, work: Work)
    requires WorkOk(q, work) && (q.phase == AwaitingWork || q.phase == Working)
    requires o.running && o.target == q.target && o.epoch == q.epoch
    ensures var q1 := if ShowsWork(q, o) then q.(phase := Working) else q;
      var work1 := SeeReady(SeeWork(work, o), o);
      WorkOk(q1, work1) && Seen(q1, o, work1)
  {}

  /** With the observation taken in, the queue rests in the phase that the observation calls for. */
  lemma ProgressAtRest(e: Entry, o: Observation, w0: World, w: World)
    requires RestOk(e, w0) && e.queue.active != "" && e.queue.phase != Attention
    requires o.running && o.target == e.queue.target && o.epoch == e.queue.epoch
    requires w == Apply(w0, Observed(o)) && WorldOk(w)
    ensures var q := if ShowsWork(e.queue, o) then e.queue.(phase := Working) else e.queue;
      RestOk(e.(queue := q), w) && Seen(q, o, w.work)
  {
    var a := ActiveAt(e.queue);
    assert (e.queue.phase == AwaitingWork || e.queue.phase == Working) && a >= 0;
    hide CoherentAt, WorldOk, CandidateOk;
    WorkingKeeps(e.queue, a);
    ProgressWork(e.queue, o, w0.work);
    assert w.deliveries == w0.deliveries && w.log == w0.log;
  }

  /** Saving the progress, then releasing the finished delivery. */
  lemma ProgressGood(e: Entry, o: Observation, s: Scan, w: World)
    requires RestOk(e, w) && e.queue.active != "" && e.queue.phase == Working && Seen(e.queue, o, w.work)
    ensures var p := Save(e, s.progress);
      var all := if p.goesOn then After(p.calls, ReleaseFinished(p.entry, o, s)) else p;
      && Good(w, all)
      && (all.goesOn ==> all.entry.queue.active == "" && all.entry.queue.phase == Ready)
  {
    SaveAtRest(e, s.progress, w);
    SaveKeepsWork(e, s.progress, w);
    var p := Save(e, s.progress);
    assert p.entry.queue == e.queue;
    hide RestOk, AllOk, ApplyAll, Save;
    if p.goesOn {
      ReleaseFinishedGood(p.entry, o, s, ApplyAll(w, p.calls));
      GoodAfter(w, p.calls, ReleaseFinished(p.entry, o, s));
    }
  }

  /** `o` comes from the queue's own target, and `w` has just taken it in. */
  lemma SettleActiveGood(e: Entry, o: Observation, s: Scan, w0: World, w: World)
    requires RestOk(e, w0) && e.queue.active != "" && e.queue.phase != Attention
    requires o.running && o.target == e.queue.target
    requires w == Apply(w0, Observed(o)) && WorldOk(w)
    ensures var p := SettleActive(e, o, s);
      && Good(w, p)
      && (p.goesOn ==> p.entry.queue.active == "" && p.entry.queue.phase == Ready)
  {
    var q := e.queue;
    if o.epoch != q.epoch {
      OnlyActiveAtRest(e, w0);
      AttendAndSaveGood(e, MonitorRestarted, s.settle, w);
    } else {
      ProgressAtRest(e, o, w0, w);
      hide RestOk, AllOk, ApplyAll, Save, Good, WorldOk, Apply, ReleaseFinished;
      if ShowsWork(q, o) && q.phase != Working {
        ProgressGood(e.(queue := q.(phase := Working)), o, s, w);
      } else {
        assert (if ShowsWork(q, o) then q.(phase := Working) else q) == q && e.(queue := q) == e;
        ReleaseFinishedGood(e, o, s, w);
      }
    }
  }

  lemma SaveKeepsWork(e: Entry, out: SaveOutcome, w: World)
    requires RestOk(e, w)
    ensures ApplyAll(w, Save(e, out).calls).work == w.work
  {
    RestIsCandidate(e, w);
    SaveKeeps(e, out, w);
  }

  // ---------- Claim and delivery ----------

  /** The item at `index` is claimed, and the database holds exactly this claim. */
  ghost predicate ClaimHeld(e: Entry, index: nat, o: Observation, w: World) {
    && WorldOk(w) && w.work.Free? && w.acked == |w.log| > 0 && w.log[w.acked - 1] == e.queue
    && CoherentAt(e.queue, index) && e.queue.phase == Delivering && Extends(e.queue, w.log)
    && DeliveredOk(e.queue, w.deliveries) && (forall d :: d in w.deliveries ==> d.index < index)
    && e.queue.baseline == o.revision && e.queue.epoch == o.epoch
  }

  lemma UnclaimGood(e: Entry, index: nat, s: Scan, w: World)
    requires WorldOk(w) && w.work.Free? && Extends(e.queue, w.log)
    requires CoherentAt(e.queue, index) && e.queue.phase == Delivering
    requires DeliveredOk(e.queue, w.deliveries) && forall d :: d in w.deliveries ==> d.index < index
    ensures Good(w, Unclaim(e, index, s))
  {
    var q := e.queue;
    var x := q.items[index].(state := Queued);
    CloseKeeps(q, index, x, InputChanged, q.paused);
    var e1 := e.(queue := q.(items := q.items[index := x], active := "", phase := Ready, reason := InputChanged));
    assert CoherentAt(e1.queue, -1);
    assert Ids(e1.queue.items) == Ids(q.items);
    SaveAtRest(e1, s.result, w);
  }

  lemma SendKeeps(e: Entry, index: nat, o: Observation, later: Observation, s: Scan, w: World)
    requires ClaimHeld(e, index, o, w) && StillReady(e.queue, o, later)
    ensures var ev := SendCall(e, index, later, s); var w1 := Apply(w, ev);
      && Respects(w, ev) && WorldOk(w1) && DeliveredOk(e.queue, w1.deliveries) && w1.log == w.log
  {
    var ev := SendCall(e, index, later, s);
    var w1 := Apply(w, ev);
    var q := e.queue;
    if PossibleDelivery(ev) {
      assert forall d :: d in w1.deliveries ==> d in w.deliveries || d == Delivery(index, q.items[index].id);
      assert DeliveredOk(q, w1.deliveries);
      assert CandidateOk(q, w1) by { RecoverKeeps(q); }
      assert w1.deliveries != [] && w1.log == w.log && w1.acked == w.acked;
      hide CandidateOk, Ordered;
      assert CandidatesOk(w1);
    }
  }

  /** The entry waits for the work of the delivery that `w` accounts for. */
  ghost predicate AwaitsBusy(q: Queue, work: Work) {
    && work.Busy? && work.id == q.active && work.at == q.attemptedAt
    && work.basis.target == q.target && work.basis.epoch == q.epoch && work.basis.revision == q.baseline
  }

  lemma SentAtRest(e: Entry, index: nat, w: World)
    requires WorldOk(w) && Extends(e.queue, w.log) && DeliveredOk(e.queue, w.deliveries)
    requires CoherentAt(e.queue, index) && e.queue.phase == Delivering && AwaitsBusy(e.queue, w.work)
    ensures var q := e.queue.(items := e.queue.items[index := e.queue.items[index].(state := Sent)],
                              phase := AwaitingWork, reason := ConfirmingWorkStart);
      RestOk(e.(queue := q), w)
  {
    var q := e.queue;
    SentKeeps(q, index, ConfirmingWorkStart);
    var items := q.items[index := q.items[index].(state := Sent)];
    assert Ids(items) == Ids(q.items);
    hide CoherentAt, WorldOk;
  }

  lemma RecordGood(e: Entry, index: nat, s: Scan, w: World)
    requires WorldOk(w) && Extends(e.queue, w.log) && DeliveredOk(e.queue, w.deliveries)
    requires CoherentAt(e.queue, index) && e.queue.phase == Delivering && AwaitsBusy(e.queue, w.work)
    ensures Good(w, Record(e, index, s))
  {
    SentAtRest(e, index, w);
    var q := e.queue.(items := e.queue.items[index := e.queue.items[index].(state := Sent)],
                      phase := AwaitingWork, reason := ConfirmingWorkStart);
    var e1 := e.(queue := q);
    var p := Save(e1, s.result);
    assert q.active != "";
    hide AllOk, ApplyAll, CoherentAt, Extends, DeliveredOk, WorldOk;
    SaveAtRest(e1, s.result, w);
    if !p.goesOn {
      HoldAtRest(p.entry, ResultNotSaved, ApplyAll(w, p.calls));
    }
  }

  lemma HoldAtRest(e: Entry, reason: Reason, w: World)
    requires RestOk(e, w) && e.queue.active != ""
    ensures RestOk(Entry(Attend(e.queue, reason), true), w)
  {
    OnlyActiveAtRest(e, w);
    hide Coherent, WorldOk;
    AttendAtRest(e, reason, w);
  }

  lemma DeliverGood(e: Entry, index: nat, o: Observation, later: Observation, s: Scan, w: World)
    requires ClaimHeld(e, index, o, w) && StillReady(e.queue, o, later)
    ensures Good(w, Deliver(e, index, later, s))
  {
    var ev := SendCall(e, index, later, s);
    SendKeeps(e, index, o, later, s, w);
    var w1 := Apply(w, ev);
    var e1 := e.(queue := e.queue.(attemptedAt := s.sentAt));
    assert CoherentAt(e1.queue, index);
    assert Extends(e1.queue, w1.log);
    match s.sending {
      case NotReady => UnclaimGood(e1, index, s, w1);
      case Failed => AttendAndSaveGood(e1, DeliveryUncertain, s.result, w1);
      case Delivered => RecordGood(e1, index, s, w1);
    }
    One(w, ev);
    var rest := match s.sending
      case NotReady => Unclaim(e1, index, s)
      case Failed => AttendAndSave(e1, DeliveryUncertain, s.result)
      case Delivered => Record(e1, index, s);
    GoodAfter(w, [ev], rest);
  }

  lemma RecheckGood(e: Entry, index: nat, o: Observation, s: Scan, w: World)
    requires ClaimHeld(e, index, o, w)
    ensures Good(w, Recheck(e, index, o, s))
  {
    if s.recheck.None? {
      UnclaimGood(e, index, s, w);
    } else {
      var later := s.recheck.value;
      PassiveKeeps(w, Observed(later));
      var w1 := Apply(w, Observed(later));
      assert w1 == w;
      One(w, Observed(later));
      if StillReady(e.queue, o, later) {
        DeliverGood(e, index, o, later, s, w1);
        GoodAfter(w, [Observed(later)], Deliver(e, index, later, s));
      } else {
        UnclaimGood(e, index, s, w1);
        GoodAfter(w, [Observed(later)], Unclaim(e, index, s));
      }
    }
  }

  /** A queued item comes after everything that was delivered; claiming it disturbs nothing. */
  lemma ClaimAfterDeliveries(q: Queue, index: nat, o: Observation, at: int, ds: seq<Delivery>)
    requires DeliveredOk(q, ds) && index < |q.items| && q.items[index].state == Queued
    ensures forall d :: d in ds ==> d.index < index
    ensures DeliveredOk(ClaimedQueue(q, index, o, at), ds)
    ensures Ids(ClaimedQueue(q, index, o, at).items) == Ids(q.items)
  {}

  lemma ClaimIsCandidate(e: Entry, index: nat, o: Observation, at: int, w: World)
    requires RestOk(e, w) && e.queue.phase == Ready && !e.queue.paused && index == FirstQueued(e.queue.items)
    ensures var q := ClaimedQueue(e.queue, index, o, at);
      && CandidateOk(q, w) && Extends(q, w.log) && CoherentAt(q, index) && DeliveredOk(q, w.deliveries)
    ensures w.work.Free? && forall d :: d in w.deliveries ==> d.index < index
  {
    var q := e.queue;
    assert CoherentAt(q, -1) by { assert CoherentAt(q, ActiveAt(q)); }
    ClaimKeeps(q, index, o, at);
    ClaimAfterDeliveries(q, index, o, at, w.deliveries);
    var q1 := ClaimedQueue(q, index, o, at);
    hide CoherentAt, DeliveredOk, WorldOk;
    assert Coherent(q1);
    RecoverKeeps(q1);
    assert Extends(q1, w.log);
    hide Extends, Recover, Coherent;
    assert WorkOk(Recover(q1), w.work);
  }

  /** The claim is saved. Only an acknowledged claim goes on to the send. */
  lemma ClaimSaved(e: Entry, index: nat, o: Observation, s: Scan, w: World)
    requires RestOk(e, w) && e.queue.phase == Ready && !e.queue.paused && index == FirstQueued(e.queue.items)
    ensures var q := ClaimedQueue(e.queue, index, o, s.claimedAt);
      var p := Save(e.(queue := q), s.claim);
      var w1 := ApplyAll(w, p.calls);
      && AllOk(w, p.calls) && WorldOk(w1) && Coherent(q) && q.active != "" && p.entry.queue == q
      && DeliveredOk(q, w1.deliveries) && OnlyActive(q, w1.work) && Extends(q, w1.log)
      && (p.goesOn ==> ClaimHeld(p.entry, index, o, w1))
  {
    ClaimIsCandidate(e, index, o, s.claimedAt, w);
    var e1 := e.(queue := ClaimedQueue(e.queue, index, o, s.claimedAt));
    assert Coherent(e1.queue) && e1.queue.active != "";
    assert WorldOk(w);
    hide CoherentAt, DeliveredOk, WorldOk, CandidateOk, Extends, AllOk, ApplyAll, RestOk, Coherent, WorkOk, FirstQueued;
    SaveKeeps(e1, s.claim, w);
  }

  lemma ClaimGood(e: Entry, index: nat, o: Observation, s: Scan, w: World)
    requires RestOk(e, w) && e.queue.phase == Ready && !e.queue.paused && index == FirstQueued(e.queue.items)
    ensures Good(w, Claim(e, index, o, s))
  {
    ClaimSaved(e, index, o, s, w);
    var p := Save(e.(queue := ClaimedQueue(e.queue, index, o, s.claimedAt)), s.claim);
    var w1 := ApplyAll(w, p.calls);
    hide AllOk, ApplyAll, ClaimHeld, Recheck, Save, RestOk, WorldOk, DeliveredOk, Extends, Coherent, OnlyActive;
    if p.goesOn {
      RecheckGood(p.entry, index, o, s, w1);
      GoodAfter(w, p.calls, Recheck(p.entry, index, o, s));
    } else {
      AttendAtRest(p.entry, ClaimNotSaved, w1);
    }
  }

  lemma DispatchGood(e: Entry, o: Observation, s: Scan, w: World)
    requires RestOk(e, w) && e.queue.phase == Ready
    ensures Good(w, Dispatch(e, o, s))
  {
    var index := FirstQueued(e.queue.items);
    if !e.queue.paused && o.ready && index >= 0 {
      ClaimGood(e, index, o, s, w);
    } else {
      ReasonChangeKeeps(e, Dispatch(e, o, s).entry.queue.reason, w);
    }
  }

  lemma ReasonChangeKeeps(e: Entry, reason: Reason, w: World)
    requires RestOk(e, w)
    ensures RestOk(e.(queue := e.queue.(reason := reason)), w)
  {
    assert CoherentAt(e.queue.(reason := reason), ActiveAt(e.queue));
  }

  // ---------- One whole scan ----------

  lemma StepObservedGood(e: Entry, o: Observation, s: Scan, w0: World, w: World)
    requires RestOk(e, w0) && e.queue.phase != Attention
    requires o.running && o.target == e.queue.target
    requires w == Apply(w0, Observed(o)) && WorldOk(w)
    ensures Good(w, StepObserved(e, o, s))
  {
    if e.queue.active == "" {
      DispatchGood(e, o, s, w);
    } else {
      SettleActiveGood(e, o, s, w0, w);
      var p := SettleActive(e, o, s);
      if p.goesOn {
        DispatchGood(p.entry, o, s, ApplyAll(w, p.calls));
        GoodAfter(w, p.calls, Dispatch(p.entry, o, s));
      }
    }
  }

  lemma StepCleanGood(e: Entry, s: Scan, w: World)
    requires RestOk(e, w)
    ensures Good(w, StepClean(e, s))
  {
    if e.queue.phase == Attention || (PendingCount(e.queue.items) == 0 && e.queue.active == "") {
    } else if s.first.None? {
      LoseTargetGood(e, s, w);
    } else {
      var o := s.first.value;
      PassiveKeeps(w, Observed(o));
      One(w, Observed(o));
      var w1 := Apply(w, Observed(o));
      if !o.running || o.target != e.queue.target {
        LoseTargetGood(e, s, w1);
        GoodAfter(w, [Observed(o)], LoseTarget(e, s));
      } else {
        StepObservedGood(e, o, s, w, w1);
        GoodAfter(w, [Observed(o)], StepObserved(e, o, s));
      }
    }
  }

  /** A scan is safe at each of its outside calls, whatever the outside answers. */
  lemma StepGood(e: Entry, s: Scan, w: World)
    requires RestOk(e, w)
    ensures Good(w, Step(e, s))
  {
    if e.dirty {
      SaveAtRest(e, s.flush, w);
      var p := Save(e, s.flush);
      if p.goesOn {
        StepCleanGood(p.entry, s, ApplyAll(w, p.calls));
        GoodAfter(w, p.calls, StepClean(p.entry, s));
      }
    } else {
      StepCleanGood(e, s, w);
    }
  }

  // ---------- Edits ----------

  ghost predicate GoodReaction(w: World, r: Reaction) {
    && AllOk(w, r.calls)
    && var w1 := ApplyAll(w, r.calls);
       match r.entry
       case None => w1.log == []
       case Some(e) => RestOk(e, w1)
  }

  /** New item IDs are not empty and not in use in this queue. */
  ghost predicate FreshId(mem: Option<Entry>, id: Id) {
    id != "" && (mem.Some? ==> forall i :: 0 <= i < |mem.value.queue.items| ==> mem.value.queue.items[i].id != id)
  }

  lemma FinishGood(e: Entry, before: seq<Event>, out: SaveOutcome, w: World)
    requires AllOk(w, before) && RestOk(e, ApplyAll(w, before))
    ensures GoodReaction(w, Finish(e, before, out))
  {
    hide RestOk, AllOk, ApplyAll, Save;
    SaveAtRest(e, out, ApplyAll(w, before));
    GoodAfter(w, before, Save(e, out));
  }

  lemma RefuseGood(e: Entry, reply: Reply, w: World)
    requires RestOk(e, w)
    ensures GoodReaction(w, Refuse(e, reply))
  {}

  lemma PlainFinishGood(e: Entry, out: SaveOutcome, w: World)
    requires RestOk(e, w)
    ensures GoodReaction(w, Finish(e, [], out))
  {
    FinishGood(e, [], out, w);
  }

  lemma AddAtRest(e: Entry, x: Item, w: World)
    requires RestOk(e, w) && x.state == Queued && x.id != "" && PendingCount(e.queue.items) < MAX_PENDING
    requires forall i :: 0 <= i < |e.queue.items| ==> e.queue.items[i].id != x.id
    requires x.requestId != "" ==> forall i :: 0 <= i < |e.queue.items| ==> e.queue.items[i].requestId != x.requestId
    ensures RestOk(e.(queue := e.queue.(items := e.queue.items + [x])), w)
  {
    AddKeeps(e.queue, ActiveAt(e.queue), x);
    var q1 := e.queue.(items := e.queue.items + [x]);
    assert DeliveredOk(q1, w.deliveries);
    assert Ids(q1.items) == Ids(e.queue.items) + [x.id];
    hide CoherentAt, WorldOk, DeliveredOk;
  }

  lemma EditAtRest(e: Entry, i: nat, x: Item, w: World)
    requires RestOk(e, w) && i < |e.queue.items| && e.queue.items[i].state == Queued
    requires x.id == e.queue.items[i].id && x.requestId == e.queue.items[i].requestId && x.state in {Queued, Canceled}
    ensures RestOk(e.(queue := e.queue.(items := e.queue.items[i := x])), w)
  {
    EditKeeps(e.queue, ActiveAt(e.queue), i, x);
    var q1 := e.queue.(items := e.queue.items[i := x]);
    assert DeliveredOk(q1, w.deliveries);
    assert Ids(q1.items) == Ids(e.queue.items);
    hide CoherentAt, WorldOk, DeliveredOk;
  }

  lemma AddItemGood(e: Entry, req: Request, input: EditInput, w: World)
    requires RestOk(e, w) && FreshId(Some(e), input.newId)
    ensures GoodReaction(w, AddItem(e, req, input))
  {
    var known := if req.requestId == "" then -1 else IndexOfRequest(e.queue.items, req.requestId);
    if known >= 0 {
      PlainFinishGood(e, input.save, w);
      RefuseGood(e, AddItem(e, req, input).reply, w);
    } else if !ValidText(req.text) || PendingCount(e.queue.items) >= MAX_PENDING {
      RefuseGood(e, Invalid, w);
    } else {
      var x := Item(input.newId, req.requestId, req.text, Queued, NoReason);
      AddAtRest(e, x, w);
      PlainFinishGood(e.(queue := e.queue.(items := e.queue.items + [x])), input.save, w);
    }
  }

  lemma EditItemGood(e: Entry, req: Request, input: EditInput, w: World)
    requires RestOk(e, w)
    ensures GoodReaction(w, EditItem(e, req, input))
  {
    var i := IndexOf(e.queue.items, req.itemId);
    if i < 0 || e.queue.items[i].state != Queued || (req.action == Edit && !ValidText(req.text)) {
      RefuseGood(e, EditItem(e, req, input).reply, w);
    } else {
      var x := if req.action == Edit then e.queue.items[i].(text := req.text) else e.queue.items[i].(state := Canceled);
      EditAtRest(e, i, x, w);
      PlainFinishGood(e.(queue := e.queue.(items := e.queue.items[i := x])), input.save, w);
    }
  }

  lemma CloseAtRest(e: Entry, i: nat, state: ItemState, reason: Reason, w: World)
    requires RestOk(e, w) && i < |e.queue.items| && e.queue.items[i].state == NeedsAttention && state in {Sent, Canceled}
    ensures var w1 := Apply(w, Settled(e.queue.items[i].id));
      var q := e.queue.(items := e.queue.items[i := e.queue.items[i].(state := state, error := NoReason)],
                        active := "", phase := Ready, reason := reason, paused := true);
      RestOk(e.(queue := q), w1) && AllOk(w, [Settled(e.queue.items[i].id)])
  {
    var ev := Settled(e.queue.items[i].id);
    PassiveKeeps(w, ev);
    var x := e.queue.items[i].(state := state, error := NoReason);
    assert i == ActiveAt(e.queue);
    CloseKeeps(e.queue, i, x, reason, true);
    var items := e.queue.items[i := x];
    assert Ids(items) == Ids(e.queue.items);
    assert DeliveredOk(e.queue.(items := items), w.deliveries);
    hide CoherentAt, WorldOk;
  }

  lemma CloseGood(e: Entry, i: nat, state: ItemState, reason: Reason, input: EditInput, w: World)
    requires RestOk(e, w) && i < |e.queue.items| && e.queue.items[i].state == NeedsAttention && state in {Sent, Canceled}
    ensures GoodReaction(w, Close(e, i, state, reason, input))
  {
    CloseAtRest(e, i, state, reason, w);
    var ev := Settled(e.queue.items[i].id);
    One(w, ev);
    var q := e.queue.(items := e.queue.items[i := e.queue.items[i].(state := state, error := NoReason)],
                      active := "", phase := Ready, reason := reason, paused := true);
    hide RestOk, AllOk, ApplyAll, Finish;
    FinishGood(e.(queue := q), [ev], input.save, w);
  }

  lemma PauseAtRest(e: Entry, w: World)
    requires RestOk(e, w)
    ensures RestOk(e.(queue := e.queue.(paused := true)), w)
  {
    assert CoherentAt(e.queue.(paused := true), ActiveAt(e.queue));
    hide WorldOk;
  }

  lemma ResumeAtRest(e: Entry, w: World)
    requires RestOk(e, w) && e.queue.phase != Attention
    ensures RestOk(e.(queue := e.queue.(paused := false, reason := NoReason)), Apply(w, Resumed)) && AllOk(w, [Resumed])
  {
    PassiveKeeps(w, Resumed);
    assert CoherentAt(e.queue.(paused := false, reason := NoReason), ActiveAt(e.queue));
    hide WorldOk, CoherentAt;
  }

  lemma UpdateEntryGood(e: Entry, req: Request, input: EditInput, w: World)
    requires RestOk(e, w) && FreshId(Some(e), input.newId)
    ensures GoodReaction(w, UpdateEntry(e, req, input))
  {
    hide RestOk, AddItem, EditItem, Close, GoodReaction;
    var i := IndexOf(e.queue.items, req.itemId);
    match req.action {
      case Add => AddItemGood(e, req, input, w);
      case Edit => EditItemGood(e, req, input, w);
      case Cancel =>
        if i >= 0 && e.queue.items[i].state == NeedsAttention && e.queue.active == e.queue.items[i].id {
          CloseGood(e, i, Canceled, DeliveryExcluded, input, w);
        } else {
          EditItemGood(e, req, input, w);
        }
      case Resolve =>
        if i < 0 || e.queue.items[i].state != NeedsAttention || e.queue.active != e.queue.items[i].id {
          RefuseGood(e, UpdateEntry(e, req, input).reply, w);
        } else {
          CloseGood(e, i, Sent, DeliveryConfirmed, input, w);
        }
      case Pause =>
        PauseAtRest(e, w);
        PlainFinishGood(e.(queue := e.queue.(paused := true)), input.save, w);
      case Resume =>
        if e.queue.phase == Attention {
          RefuseGood(e, Conflict, w);
        } else {
          ResumeAtRest(e, w);
          One(w, Resumed);
          FinishGood(e.(queue := e.queue.(paused := false, reason := NoReason)), [Resumed], input.save, w);
        }
      case Unknown => RefuseGood(e, Invalid, w);
    }
  }

  lemma NewQueueAtRest(t: Target, w: World)
    requires WorldOk(w) && w.log == []
    ensures RestOk(Entry(NewQueue(t), false), w)
  {
    assert CoherentAt(NewQueue(t), -1);
  }

  /** An edit is safe at each of its outside calls, also when it creates the queue. */
  lemma UpdateGood(mem: Option<Entry>, agent: Id, req: Request, input: EditInput, w: World)
    requires WorldOk(w) && FreshId(mem, input.newId)
    requires if mem.Some? then RestOk(mem.value, w) else w.log == []
    ensures GoodReaction(w, Update(mem, agent, req, input))
  {
    if mem.Some? {
      UpdateEntryGood(mem.value, req, input, w);
    } else if input.observed.Some? {
      var o := input.observed.value;
      var w1 := Apply(w, Observed(o));
      PassiveKeeps(w, Observed(o));
      One(w, Observed(o));
      var e := Entry(NewQueue(o.target), false);
      NewQueueAtRest(o.target, w1);
      UpdateEntryGood(e, req, input, w1);
      var r := UpdateEntry(e, req, input);
      hide RestOk, UpdateEntry, WorldOk, AllOk, Apply;
      OkConcat(w, [Observed(o)], r.calls);
      ApplyConcat(w, [Observed(o)], r.calls);
    }
  }

  // ---------- Restart ----------

  /** Every queue that a restart may find is loaded safely. */
  lemma LoadGood(q: Queue, out: SaveOutcome, w: World)
    requires WorldOk(w) && CandidateOk(q, w) && w.acked == |w.log| > 0 && w.log[w.acked - 1] == q
    ensures Good(w, Load(q, out))
  {
    RecoverKeeps(q);
    var e := Entry(Recover(q), false);
    assert Ids(e.queue.items) == Ids(q.items);
    assert Extends(q, w.log);
    assert RestOk(e, w) by { hide Recover, Coherent; }
    hide RestOk, AllOk;
    SaveAtRest(e, out, w);
  }

  lemma ReloadKeeps(w: World, k: nat)
    requires WorldOk(w) && w.acked <= k <= |w.log|
    ensures WorldOk(Apply(w, Reloaded(k))) && AllOk(w, [Reloaded(k)])
    ensures k > 0 ==> CandidateOk(w.log[k - 1], Apply(w, Reloaded(k)))
  {
    var w1 := Apply(w, Reloaded(k));
    forall c | CandidateOk(c, w) ensures CandidateOk(c, w1) {}
    hide CandidateOk;
    assert CandidatesOk(w1);
    assert Ordered(w1.log) by { hide IsExtension; }
    hide CandidatesOk, Ordered;
    One(w, Reloaded(k));
  }
}
