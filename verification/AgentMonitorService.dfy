/** The monitor as an object whose methods change the entries step by step. Every method is one
    section under the lock and is proved to make exactly the step that the model gives. */
module AgentMonitorService {
  import opened Basics
  import opened AgentMonitor
  import opened AgentMonitorSafety

  class Monitor {
    const detector: Detector
    var store: map<Id, Record>
    var nextToken: nat
    var monitoring: map<Id, Entry>
    var timers: map<TimerId, Callback>
    var nextTimer: TimerId

    function State(): System
      reads this
    {
      System(store, nextToken, monitoring, timers, nextTimer)
    }

    constructor (detector: Detector)
      ensures State() == EMPTY && this.detector == detector
      ensures Inv(State(), detector)
    {
      this.detector := detector;
      store, nextToken, monitoring, timers, nextTimer := map[], 0, map[], map[], 0;
    }

    /** Arms a callback and returns the handle to it. */
    method AfterFunc(callback: Callback) returns (timer: TimerId)
      modifies this`timers, this`nextTimer
      ensures timer == old(nextTimer) && State() == Arm(old(State()), callback)
    {
      timer := nextTimer;
      timers := timers[timer := callback];
      nextTimer := nextTimer + 1;
    }

    method CancelIdleCandidate(id: Id)
      requires id in monitoring
      modifies this`monitoring
      ensures State() == Put(old(State()), id, CancelIdle(old(monitoring[id])))
    {
      var entry := monitoring[id];
      entry := entry.(idleToken := entry.idleToken + 1);
      if entry.idleTimer.Some? {
        entry := entry.(idleTimer := None);
      }
      if entry.deadline.Some? {
        entry := entry.(deadline := None);
      }
      monitoring := monitoring[id := entry.(confirmations := 0)];
    }

    method StopAllTimers(id: Id)
      requires id in monitoring
      modifies this`monitoring
      ensures State() == Put(old(State()), id, StopTimers(old(monitoring[id])))
    {
      if monitoring[id].grace.Some? {
        monitoring := monitoring[id := monitoring[id].(grace := None)];
      }
      CancelIdleCandidate(id);
    }

    method UpdateAgentState(id: Id, state: AgentState, reason: string, rule: string, now: int)
      requires id in monitoring
      modifies this`monitoring, this`store
      ensures State() == UpdateState(old(State()), id, state, reason, rule, now)
    {
      if id in store {
        var previous := store[id];
        var current := previous.(state := state, reason := reason, rule := rule);
        store := store[id := current];
        var entry := monitoring[id].(record := current);
        if previous.state != Working && current.state == Working {
          entry := entry.(revision := entry.revision + 1);
          entry := entry.(lastWorkingAt := now);
        }
        monitoring := monitoring[id := entry];
      }
    }

    method StartIdleCandidate(id: Id)
      requires id in monitoring
      modifies this`monitoring, this`timers, this`nextTimer
      ensures State() == StartCandidate(old(State()), id)
    {
      var entry := monitoring[id];
      if entry.idleTimer.Some? || entry.deadline.Some? {
        return;
      }
      entry := entry.(confirmations := 0);
      entry := entry.(idleToken := entry.idleToken + 1);
      var tick := AfterFunc(Confirm(id, entry.token, entry.idleToken));
      entry := entry.(idleTimer := Some(tick));
      var limit := AfterFunc(Deadline(id, entry.token, entry.idleToken));
      entry := entry.(deadline := Some(limit));
      monitoring := monitoring[id := entry];
    }

    method EvaluateEntry(id: Id, now: int)
      requires id in monitoring
      modifies this
      ensures State() == Evaluate(old(State()), detector, id, now)
    {
      var entry := monitoring[id];
      var found := detector.detect(entry.record.kind, entry.input);
      if found.NotDetected? || found.skip {
        CancelIdleCandidate(id);
        return;
      }
      if entry.record.state == Working && found.state == Idle && !found.visibleIdle {
        StartIdleCandidate(id);
        return;
      }
      GiveUpAndApply(id, found, now);
    }

    method Begin(stored: Record)
      requires Inv(State(), detector)
      modifies this
      ensures State() == Start(old(State()), stored) && Inv(State(), detector)
    {
      StartKeeps(State(), detector, stored);
      if stored.id in monitoring {
        StopAllTimers(stored.id);
      }
      nextToken := nextToken + 1;
      monitoring := monitoring[stored.id :=
        Entry(stored, nextToken, 0, NO_INPUT, false, 0, 0, 0, None, 0, 0, None, None)];
    }

    method End(id: Id)
      requires Inv(State(), detector)
      modifies this
      ensures State() == Stop(old(State()), id) && Inv(State(), detector)
    {
      StopKeeps(State(), detector, id);
      if id in monitoring {
        StopAllTimers(id);
      }
      monitoring := monitoring - {id};
    }

    method OnPaneOpened(record: Record, generation: nat)
      requires Inv(State(), detector)
      modifies this
      ensures State() == PaneOpened(old(State()), record, generation) && Inv(State(), detector)
    {
      OpenedKeeps(State(), detector, record, generation);
      if generation == 0 || record.id !in monitoring || !SameRecord(monitoring[record.id], record)
         || generation <= monitoring[record.id].generation {
        return;
      }
      StopAllTimers(record.id);
      var entry := monitoring[record.id].(input := NO_INPUT, hasInput := false, observedAt := 0);
      entry := entry.(revision := 0, lastWorkingAt := 0);
      nextToken := nextToken + 1;
      entry := entry.(token := nextToken, generation := generation);
      var timer := AfterFunc(GraceOver(record.id, nextToken));
      monitoring := monitoring[record.id := entry.(grace := Some(timer))];
    }

    method OnPaneOutput(record: Record, generation: nat, text: string, now: int)
      requires Inv(State(), detector)
      modifies this
      ensures State() == PaneOutput(old(State()), detector, record, generation, text, now) && Inv(State(), detector)
    {
      OutputKeeps(State(), detector, record, generation, text, now);
      if !Observes(State(), record, generation) {
        return;
      }
      var entry := monitoring[record.id];
      entry := entry.(input := entry.input.(screen := text));
      entry := entry.(hasInput := true);
      entry := entry.(observedAt := now);
      monitoring := monitoring[record.id := entry];
      if entry.grace.Some? {
        return;
      }
      EvaluateEntry(record.id, now);
    }

    method OnPaneMetadata(record: Record, generation: nat, title: Option<string>, now: int)
      requires Inv(State(), detector)
      modifies this
      ensures State() == PaneMetadata(old(State()), detector, record, generation, title, now) && Inv(State(), detector)
    {
      MetadataKeeps(State(), detector, record, generation, title, now);
      if !Observes(State(), record, generation) {
        return;
      }
      var entry := monitoring[record.id];
      entry := entry.(input := entry.input.(title := ""));
      if title.Some? {
        if detector.isActiveTitle(record.kind, title.value) {
          entry := entry.(input := entry.input.(title := title.value));
        }
        if entry.input.title != "" {
          entry := entry.(hasInput := true);
        }
      }
      monitoring := monitoring[record.id := entry];
      if entry.grace.None? && entry.hasInput {
        EvaluateEntry(record.id, now);
      }
    }

    method OnPaneClosed(record: Record, generation: nat)
      requires Inv(State(), detector)
      modifies this
      ensures State() == PaneClosed(old(State()), record, generation) && Inv(State(), detector)
    {
      if !Observes(State(), record, generation) {
        return;
      }
      End(record.id);
    }

    method OnPaneError(record: Record, generation: nat, reason: string, now: int)
      requires Inv(State(), detector)
      modifies this
      ensures State() == PaneError(old(State()), record, generation, reason, now) && Inv(State(), detector)
    {
      ErrorKeeps(State(), detector, record, generation, reason, now);
      if !Observes(State(), record, generation) {
        return;
      }
      StopAllTimers(record.id);
      var entry := monitoring[record.id].(input := NO_INPUT, hasInput := false, observedAt := 0);
      entry := entry.(revision := 0, lastWorkingAt := 0);
      nextToken := nextToken + 1;
      monitoring := monitoring[record.id := entry.(token := nextToken)];
      UpdateAgentState(record.id, Unknown, reason, "", now);
    }

    method OnGraceOver(id: Id, token: nat, now: int)
      modifies this
      ensures State() == FinishGrace(old(State()), detector, id, token, now)
    {
      if id !in monitoring || monitoring[id].token != token {
        return;
      }
      monitoring := monitoring[id := monitoring[id].(grace := None)];
      if monitoring[id].hasInput {
        EvaluateEntry(id, now);
      }
    }

    method GiveUpAndApply(id: Id, found: Detection, now: int)
      requires id in monitoring && found.Detection?
      modifies this`monitoring, this`store
      ensures State() == ApplyDetection(Put(old(State()), id, CancelIdle(old(monitoring[id]))), id, found, now)
    {
      CancelIdleCandidate(id);
      UpdateAgentState(id, found.state, found.reason, found.rule, now);
    }

    /** One more confirmation: the third applies the detection, others wait for the next tick. */
    method CountTick(id: Id, found: Detection, now: int)
      requires id in monitoring && found.Detection?
      modifies this
      ensures var e := old(monitoring[id]).(confirmations := old(monitoring[id]).confirmations + 1);
        State() == if e.confirmations >= IDLE_CONFIRMATIONS
          then ApplyDetection(Put(old(State()), id, CancelIdle(e)), id, found, now)
          else Put(Arm(old(State()), Confirm(id, e.token, e.idleToken)), id, e.(idleTimer := Some(old(nextTimer))))
    {
      hide UpdateState;
      var entry := monitoring[id].(confirmations := monitoring[id].confirmations + 1);
      monitoring := monitoring[id := entry];
      assert forall e :: Put(State(), id, e) == Put(old(State()), id, e);
      if entry.confirmations >= IDLE_CONFIRMATIONS {
        GiveUpAndApply(id, found, now);
        return;
      }
      var timer := AfterFunc(Confirm(id, entry.token, entry.idleToken));
      monitoring := monitoring[id := entry.(idleTimer := Some(timer))];
    }

    method OnConfirm(id: Id, token: nat, idleToken: nat, now: int)
      modifies this
      ensures State() == ConfirmIdle(old(State()), detector, id, token, idleToken, now)
    {
      hide UpdateState;
      if id !in monitoring || monitoring[id].token != token || monitoring[id].idleToken != idleToken
         || monitoring[id].idleTimer.None? {
        return;
      }
      var entry := monitoring[id].(idleTimer := None);
      monitoring := monitoring[id := entry];
      assert forall e :: Put(State(), id, e) == Put(old(State()), id, e);
      var found := detector.detect(entry.record.kind, entry.input);
      if found.NotDetected? || found.skip {
        CancelIdleCandidate(id);
        return;
      }
      if found.state != Idle || found.visibleIdle {
        GiveUpAndApply(id, found, now);
        return;
      }
      CountTick(id, found, now);
    }

    method OnDeadline(id: Id, token: nat, idleToken: nat, now: int)
      modifies this
      ensures State() == FinishDeadline(old(State()), detector, id, token, idleToken, now)
    {
      hide UpdateState;
      if id !in monitoring || monitoring[id].token != token || monitoring[id].idleToken != idleToken
         || monitoring[id].deadline.None? {
        return;
      }
      var entry := monitoring[id].(deadline := None);
      monitoring := monitoring[id := entry];
      assert forall e :: Put(State(), id, e) == Put(old(State()), id, e);
      var found := detector.detect(entry.record.kind, entry.input);
      if found.NotDetected? || found.skip {
        CancelIdleCandidate(id);
        return;
      }
      GiveUpAndApply(id, found, now);
    }

    /** The runtime runs one armed callback, stopped or not. */
    method Run(timer: TimerId, now: int)
      requires Inv(State(), detector) && timer in timers
      modifies this
      ensures State() == Fire(old(State()), detector, timer, now) && Inv(State(), detector)
      ensures old(IsStale(State(), timer)) ==> monitoring == old(monitoring) && store == old(store)
    {
      FireKeeps(State(), detector, timer, now);
      ghost var before := State();
      if IsStale(before, timer) {
        StaleCallbackDoesNothing(before, detector, timer, now);
      }
      var callback := timers[timer];
      timers := timers - {timer};
      match callback
      case GraceOver(id, token) => OnGraceOver(id, token, now);
      case Confirm(id, token, idleToken) => OnConfirm(id, token, idleToken, now);
      case Deadline(id, token, idleToken) => OnDeadline(id, token, idleToken, now);
    }

    /** Stops the timers of all entries, in any order, and forgets the entries. */
    method StopEverything()
      modifies this`monitoring
      ensures monitoring == map[]
    {
      var ids := monitoring.Keys;
      while ids != {}
        invariant ids <= monitoring.Keys
        decreases |ids|
      {
        var id :| id in ids;
        StopAllTimers(id);
        ids := ids - {id};
      }
      monitoring := map[];
    }

    method Shutdown()
      requires Inv(State(), detector)
      modifies this
      ensures State() == AgentMonitor.Close(old(State())) && Inv(State(), detector)
    {
      StoreChangeKeeps(State(), detector, AgentMonitor.Close(State()));
      StopEverything();
    }
  }
}
