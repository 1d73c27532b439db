/** Late timers are harmless, and Working gives way to plain Idle only after confirmation. */
module AgentMonitorSafety {
  import opened Basics
  import opened AgentMonitor

  // ---------- The invariant ----------

  /** The entry's handles name armed callbacks with the entry's present tokens, and a
      candidate has both of its timers. */
  ghost predicate HandlesOk(s: System, id: Id) {
    id in s.monitoring ==>
      var e := s.monitoring[id];
      && e.record.id == id && e.token <= s.nextToken
      && (e.grace.Some? ==> e.grace.value in s.timers && s.timers[e.grace.value] == GraceOver(id, e.token))
      && (e.idleTimer.Some? ==> e.idleTimer.value in s.timers && s.timers[e.idleTimer.value] == Confirm(id, e.token, e.idleToken))
      && (e.deadline.Some? ==> e.deadline.value in s.timers && s.timers[e.deadline.value] == Deadline(id, e.token, e.idleToken))
      && e.confirmations < IDLE_CONFIRMATIONS
      && (IsPending(e) ==> e.idleTimer.Some? && e.deadline.Some? && e.grace.None? && e.hasInput && e.record.state == Working)
      && (!IsPending(e) ==> e.confirmations == 0)
  }

  /** A pending candidate is a working agent whose input still says plain idle. */
  ghost predicate CandidateOk(s: System, d: Detector, id: Id) {
    id in s.monitoring && IsPending(s.monitoring[id]) ==>
      IsPlainIdle(d.detect(s.monitoring[id].record.kind, s.monitoring[id].input))
  }

  /** A callback with the entry's present tokens is the one that the entry has a handle to. */
  ghost predicate TimerOk(s: System, t: TimerId) {
    t in s.timers ==>
      && t < s.nextTimer && s.timers[t].token <= s.nextToken
      && var cb := s.timers[t];
        cb.id in s.monitoring && s.monitoring[cb.id].token == cb.token ==>
          var e := s.monitoring[cb.id];
          match cb
          case GraceOver(_, _) => e.grace == Some(t)
          case Confirm(_, _, idleToken) => idleToken <= e.idleToken && (idleToken == e.idleToken ==> e.idleTimer == Some(t))
          case Deadline(_, _, idleToken) => idleToken <= e.idleToken && (idleToken == e.idleToken ==> e.deadline == Some(t))
  }

  ghost predicate StoreOk(s: System) {
    forall id :: id in s.store ==> s.store[id].id == id
  }

  ghost predicate Inv(s: System, d: Detector) {
    && StoreOk(s)
    && (forall id :: HandlesOk(s, id) && CandidateOk(s, d, id))
    && (forall t :: TimerOk(s, t))
  }

  /** No entry has a handle to the callback any more. */
  ghost predicate IsStale(s: System, t: TimerId) {
    forall id :: id in s.monitoring ==>
      s.monitoring[id].grace != Some(t) && s.monitoring[id].idleTimer != Some(t) && s.monitoring[id].deadline != Some(t)
  }

  /** A callback that was stopped or replaced, however late it runs, changes nothing. */
  lemma StaleCallbackDoesNothing(s: System, d: Detector, t: TimerId, at: int)
    requires Inv(s, d) && t in s.timers && IsStale(s, t)
    ensures Fire(s, d, t, at) == s.(timers := s.timers - {t})
  {
    assert TimerOk(s, t);
  }

  // ---------- Every section keeps the invariant ----------

  ghost predicate TimersPast(s: System) {
    forall t :: t in s.timers ==> t < s.nextTimer
  }

  /** What the invariant says about one agent, but for its candidate's input. */
  ghost predicate LocalOk(s: System, id: Id) {
    && StoreOk(s) && HandlesOk(s, id) && TimersPast(s)
    && (forall t :: t in s.timers && s.timers[t].id == id ==> TimerOk(s, t))
  }

  /** Sections change the entry of one agent, drop its callbacks and arm new ones for it. */
  ghost predicate Touches(s: System, s': System, id: Id) {
    && (forall x :: x != id ==> (x in s'.monitoring <==> x in s.monitoring))
    && (forall x :: x != id && x in s.monitoring ==> s'.monitoring[x] == s.monitoring[x])
    && s.nextToken <= s'.nextToken && s.nextTimer <= s'.nextTimer
    && (forall t :: t in s.timers && s.timers[t].id != id ==> t in s'.timers && s'.timers[t] == s.timers[t])
    && (forall t :: t in s'.timers ==> (t in s.timers && s'.timers[t] == s.timers[t]) || (s.nextTimer <= t < s'.nextTimer && s'.timers[t].id == id))
  }

  lemma TouchKeeps(s: System, s': System, d: Detector, id: Id)
    requires Inv(s, d) && Touches(s, s', id)
    requires LocalOk(s', id) && CandidateOk(s', d, id)
    ensures Inv(s', d)
  {
    forall x ensures HandlesOk(s', x) && CandidateOk(s', d, x) {
      assert HandlesOk(s, x) && CandidateOk(s, d, x);
    }
    forall t ensures TimerOk(s', t) {
      assert TimerOk(s, t);
    }
  }

  /** What giving up a candidate needs: the grace handle, and no callback from the future. */
  ghost predicate HandlesFree(s: System, id: Id, e: Entry) {
    && e.record.id == id && e.token <= s.nextToken
    && (e.grace.Some? ==> e.grace.value in s.timers && s.timers[e.grace.value] == GraceOver(id, e.token))
    && forall t :: t in s.timers && s.timers[t].id == id ==> TimerFree(s, t, e)
  }

  ghost predicate TimerFree(s: System, t: TimerId, e: Entry)
    requires t in s.timers
  {
    && t < s.nextTimer && s.timers[t].token <= s.nextToken
    && (s.timers[t].token == e.token ==>
          match s.timers[t]
          case GraceOver(_, _) => e.grace == Some(t)
          case Confirm(_, _, idleToken) => idleToken <= e.idleToken
          case Deadline(_, _, idleToken) => idleToken <= e.idleToken)
  }

  ghost predicate Quiet(s: System, id: Id) {
    id in s.monitoring && !IsPending(s.monitoring[id])
  }

  lemma CancelKeeps(s: System, id: Id, e: Entry)
    requires StoreOk(s) && TimersPast(s) && HandlesFree(s, id, e)
    ensures var s1 := Put(s, id, CancelIdle(e));
      Touches(s, s1, id) && LocalOk(s1, id) && Quiet(s1, id)
  {
    forall t | t in s.timers && s.timers[t].id == id ensures TimerOk(Put(s, id, CancelIdle(e)), t) {
      assert TimerFree(s, t, e);
    }
  }

  lemma UpdateKeeps(s: System, id: Id, state: AgentState, reason: string, rule: string, at: int)
    requires LocalOk(s, id) && Quiet(s, id)
    ensures var s1 := UpdateState(s, id, state, reason, rule, at);
      Touches(s, s1, id) && LocalOk(s1, id) && Quiet(s1, id)
  {
    var s1 := UpdateState(s, id, state, reason, rule, at);
    forall t | t in s1.timers && s1.timers[t].id == id ensures TimerOk(s1, t) {
      assert TimerOk(s, t);
    }
  }

  lemma ApplyKeeps(s: System, id: Id, e: Entry, found: Detection, at: int)
    requires StoreOk(s) && TimersPast(s) && HandlesFree(s, id, e) && found.Detection?
    ensures var s1 := ApplyDetection(Put(s, id, CancelIdle(e)), id, found, at);
      Touches(s, s1, id) && LocalOk(s1, id) && Quiet(s1, id)
  {
    CancelKeeps(s, id, e);
    var s1 := Put(s, id, CancelIdle(e));
    UpdateKeeps(s1, id, found.state, found.reason, found.rule, at);
    TouchesTwice(s, s1, ApplyDetection(s1, id, found, at), id);
  }

  lemma TouchesTwice(s: System, s1: System, s2: System, id: Id)
    requires Touches(s, s1, id) && Touches(s1, s2, id)
    ensures Touches(s, s2, id)
  {
  }

  lemma CandidateKeeps(s: System, id: Id)
    requires LocalOk(s, id) && id in s.monitoring
    requires s.monitoring[id].grace.None? && s.monitoring[id].hasInput && s.monitoring[id].record.state == Working
    ensures var s1 := StartCandidate(s, id);
      && Touches(s, s1, id) && LocalOk(s1, id) && id in s1.monitoring
      && s1.monitoring[id].record == s.monitoring[id].record && s1.monitoring[id].input == s.monitoring[id].input
  {
    var s1 := StartCandidate(s, id);
    forall t | t in s1.timers && s1.timers[t].id == id ensures TimerOk(s1, t) {
      if t in s.timers {
        assert TimerOk(s, t);
      }
    }
  }

  lemma LocalIsFree(s: System, id: Id)
    requires LocalOk(s, id) && id in s.monitoring
    ensures HandlesFree(s, id, s.monitoring[id]) && StoreOk(s) && TimersPast(s)
  {
    forall t | t in s.timers && s.timers[t].id == id ensures TimerFree(s, t, s.monitoring[id]) {
      assert TimerOk(s, t);
    }
  }

  lemma EvaluateKeeps(s: System, d: Detector, id: Id, at: int)
    requires LocalOk(s, id) && id in s.monitoring
    requires s.monitoring[id].grace.None? && s.monitoring[id].hasInput
    ensures var s1 := Evaluate(s, d, id, at);
      Touches(s, s1, id) && LocalOk(s1, id) && CandidateOk(s1, d, id)
    ensures var e, e1, found := s.monitoring[id], Evaluate(s, d, id, at).monitoring[id], d.detect(s.monitoring[id].record.kind, s.monitoring[id].input);
      if found.Detection? && !found.skip && e.record.state == Working && IsPlainIdle(found)
      then IsPending(e1) && e1.record == e.record && (IsPending(e) ==> e1 == e)
      else !IsPending(e1)
  {
    hide LocalOk, Touches, HandlesFree;
    var e := s.monitoring[id];
    var found := d.detect(e.record.kind, e.input);
    LocalIsFree(s, id);
    assert StoreOk(s) && TimersPast(s);
    CancelKeeps(s, id, e);
    if found.Detection? && !found.skip {
      if e.record.state == Working && IsPlainIdle(found) {
        CandidateKeeps(s, id);
      } else {
        ApplyKeeps(s, id, e, found, at);
      }
    }
  }

  /** An observation changes the entry's input and, unless the agent is starting, is evaluated. */
  lemma ObservedKeeps(s: System, d: Detector, id: Id, e: Entry)
    requires Inv(s, d) && id in s.monitoring
    requires e == s.monitoring[id].(input := e.input, hasInput := e.hasInput, observedAt := e.observedAt)
    requires s.monitoring[id].hasInput ==> e.hasInput
    ensures Touches(s, Put(s, id, e), id) && LocalOk(Put(s, id, e), id)
  {
    assert HandlesOk(s, id);
    forall t | t in s.timers ensures t < s.nextTimer && (s.timers[t].id == id ==> TimerOk(Put(s, id, e), t)) {
      assert TimerOk(s, t);
    }
  }

  lemma PastOfInv(s: System, d: Detector)
    requires Inv(s, d)
    ensures TimersPast(s) && forall t :: t in s.timers ==> s.timers[t].token <= s.nextToken
  {
    forall t | t in s.timers ensures t < s.nextTimer && s.timers[t].token <= s.nextToken {
      assert TimerOk(s, t);
    }
  }

  lemma OutputKeeps(s: System, d: Detector, r: Record, generation: nat, text: string, at: int)
    requires Inv(s, d)
    ensures Inv(PaneOutput(s, d, r, generation, text, at), d)
  {
    if Observes(s, r, generation) {
      var e := s.monitoring[r.id].(input := s.monitoring[r.id].input.(screen := text), hasInput := true, observedAt := at);
      ObservedThenEvaluated(s, d, r.id, e, at);
    }
  }

  lemma MetadataKeeps(s: System, d: Detector, r: Record, generation: nat, title: Option<string>, at: int)
    requires Inv(s, d)
    ensures Inv(PaneMetadata(s, d, r, generation, title, at), d)
  {
    if Observes(s, r, generation) {
      var active := if title.Some? && d.isActiveTitle(r.kind, title.value) then title.value else "";
      var e := s.monitoring[r.id];
      ObservedThenEvaluated(s, d, r.id, e.(input := e.input.(title := active), hasInput := e.hasInput || active != ""), at);
    }
  }

  lemma ObservedThenEvaluated(s: System, d: Detector, id: Id, e: Entry, at: int)
    requires Inv(s, d) && id in s.monitoring
    requires e == s.monitoring[id].(input := e.input, hasInput := e.hasInput, observedAt := e.observedAt)
    requires s.monitoring[id].hasInput ==> e.hasInput
    ensures Inv(if e.grace.None? && e.hasInput then Evaluate(Put(s, id, e), d, id, at) else Put(s, id, e), d)
  {
    hide Touches, LocalOk, Evaluate;
    ObservedKeeps(s, d, id, e);
    var s1 := Put(s, id, e);
    if e.grace.None? && e.hasInput {
      EvaluateKeeps(s1, d, id, at);
      TouchesTwice(s, s1, Evaluate(s1, d, id, at), id);
      TouchKeeps(s, Evaluate(s1, d, id, at), d, id);
    } else {
      assert HandlesOk(s, id);
      TouchKeeps(s, s1, d, id);
    }
  }

  lemma OpenedKeeps(s: System, d: Detector, r: Record, generation: nat)
    requires Inv(s, d)
    ensures Inv(PaneOpened(s, r, generation), d)
  {
    var s1 := PaneOpened(s, r, generation);
    if r.id in s.monitoring && s1 != s {
      assert HandlesOk(s, r.id);
      PastOfInv(s, d);
      TouchKeeps(s, s1, d, r.id);
    }
  }

  lemma StartKeeps(s: System, d: Detector, stored: Record)
    requires Inv(s, d)
    ensures Inv(Start(s, stored), d)
  {
    var s1 := Start(s, stored);
    PastOfInv(s, d);
    TouchKeeps(s, s1, d, stored.id);
  }

  lemma StopKeeps(s: System, d: Detector, id: Id)
    requires Inv(s, d)
    ensures Inv(Stop(s, id), d)
  {
    PastOfInv(s, d);
    TouchKeeps(s, Stop(s, id), d, id);
  }

  lemma ErrorKeeps(s: System, d: Detector, r: Record, generation: nat, reason: string, at: int)
    requires Inv(s, d)
    ensures Inv(PaneError(s, r, generation, reason, at), d)
  {
    if Observes(s, r, generation) {
      var e := ForgetObservations(StopTimers(s.monitoring[r.id])).(token := s.nextToken + 1);
      var s1 := Put(s.(nextToken := s.nextToken + 1), r.id, e);
      assert HandlesOk(s, r.id);
      PastOfInv(s, d);
      assert Touches(s, s1, r.id) && LocalOk(s1, r.id) && Quiet(s1, r.id);
      UpdateKeeps(s1, r.id, Unknown, reason, "", at);
      var s2 := UpdateState(s1, r.id, Unknown, reason, "", at);
      TouchesTwice(s, s1, s2, r.id);
      TouchKeeps(s, s2, d, r.id);
    }
  }

  // ---------- Callbacks keep the invariant ----------

  function Drop(s: System, t: TimerId): System {
    s.(timers := s.timers - {t})
  }

  lemma DropKeeps(s: System, d: Detector, t: TimerId)
    requires Inv(s, d) && IsStale(s, t)
    ensures Inv(Drop(s, t), d)
  {
    forall x ensures HandlesOk(Drop(s, t), x) && CandidateOk(Drop(s, t), d, x) {
      assert HandlesOk(s, x) && CandidateOk(s, d, x);
    }
    forall u ensures TimerOk(Drop(s, t), u) {
      assert TimerOk(s, u);
    }
  }

  /** Only the entry that armed a callback, and in the same epoch, can still have a handle to it. */
  lemma HandleHolder(s: System, d: Detector, t: TimerId)
    requires Inv(s, d) && t in s.timers && !IsStale(s, t)
    ensures var cb := s.timers[t];
      && cb.id in s.monitoring && s.monitoring[cb.id].token == cb.token
      && var e := s.monitoring[cb.id];
        match cb
        case GraceOver(_, _) => e.grace == Some(t)
        case Confirm(_, _, idleToken) => e.idleToken == idleToken && e.idleTimer == Some(t)
        case Deadline(_, _, idleToken) => e.idleToken == idleToken && e.deadline == Some(t)
  {
    var x :| x in s.monitoring &&
      (s.monitoring[x].grace == Some(t) || s.monitoring[x].idleTimer == Some(t) || s.monitoring[x].deadline == Some(t));
    assert HandlesOk(s, x);
  }

  /** The callback's entry, with the handle to it cleared, can give up its candidate. */
  lemma FiredIsFree(s: System, d: Detector, t: TimerId, id: Id, e: Entry)
    requires Inv(s, d) && t in s.timers && s.timers[t].id == id && id in s.monitoring
    requires var was := s.monitoring[id];
      && e == was.(grace := e.grace, idleTimer := e.idleTimer, deadline := e.deadline, confirmations := e.confirmations)
      && e.grace == (if was.grace == Some(t) then None else was.grace)
    ensures HandlesFree(Drop(s, t), id, e) && StoreOk(Drop(s, t)) && TimersPast(Drop(s, t))
    ensures Touches(s, Drop(s, t), id)
  {
    assert HandlesOk(s, id);
    PastOfInv(s, d);
    forall u | u in Drop(s, t).timers && Drop(s, t).timers[u].id == id ensures TimerFree(Drop(s, t), u, e) {
      assert TimerOk(s, u);
    }
  }

  lemma GraceKeeps(s: System, d: Detector, t: TimerId, at: int)
    requires Inv(s, d) && t in s.timers && s.timers[t].GraceOver? && !IsStale(s, t)
    ensures Inv(Fire(s, d, t, at), d)
  {
    hide Touches, LocalOk, Evaluate;
    HandleHolder(s, d, t);
    var id := s.timers[t].id;
    assert HandlesOk(s, id);
    var e := s.monitoring[id].(grace := None);
    var s1 := Put(Drop(s, t), id, e);
    GraceCleared(s, d, t, id);
    if e.hasInput {
      EvaluateKeeps(s1, d, id, at);
      TouchesTwice(s, s1, Evaluate(s1, d, id, at), id);
      TouchKeeps(s, Evaluate(s1, d, id, at), d, id);
    } else {
      TouchKeeps(s, s1, d, id);
    }
  }

  lemma GraceCleared(s: System, d: Detector, t: TimerId, id: Id)
    requires Inv(s, d) && id in s.monitoring && s.monitoring[id].grace == Some(t)
    ensures var s1 := Put(Drop(s, t), id, s.monitoring[id].(grace := None));
      Touches(s, s1, id) && LocalOk(s1, id) && Quiet(s1, id)
  {
    var s1 := Put(Drop(s, t), id, s.monitoring[id].(grace := None));
    assert HandlesOk(s, id);
    PastOfInv(s, d);
    forall u | u in s1.timers && s1.timers[u].id == id ensures TimerOk(s1, u) {
      assert TimerOk(s, u);
    }
  }

  lemma TickKeeps(s: System, d: Detector, t: TimerId, at: int)
    requires Inv(s, d) && t in s.timers && s.timers[t].Confirm? && !IsStale(s, t)
    ensures Inv(Fire(s, d, t, at), d)
  {
    hide Touches, LocalOk, HandlesFree, UpdateState, TimerOk;
    HandleHolder(s, d, t);
    var id := s.timers[t].id;
    assert HandlesOk(s, id) && CandidateOk(s, d, id);
    var e := s.monitoring[id].(idleTimer := None, confirmations := s.monitoring[id].confirmations + 1);
    var found := d.detect(e.record.kind, e.input);
    FiredIsFree(s, d, t, id, e);
    if e.confirmations >= IDLE_CONFIRMATIONS {
      ApplyKeeps(Drop(s, t), id, e, found, at);
    } else {
      Rearmed(s, d, t, id);
    }
    TouchesTwice(s, Drop(s, t), Fire(s, d, t, at), id);
    TouchKeeps(s, Fire(s, d, t, at), d, id);
  }

  lemma Rearmed(s: System, d: Detector, t: TimerId, id: Id)
    requires Inv(s, d) && id in s.monitoring && s.monitoring[id].idleTimer == Some(t)
    requires s.monitoring[id].confirmations + 1 < IDLE_CONFIRMATIONS
    ensures var e := s.monitoring[id];
      var s1 := Put(Arm(Drop(s, t), Confirm(id, e.token, e.idleToken)), id,
                    e.(confirmations := e.confirmations + 1, idleTimer := Some(s.nextTimer)));
      Touches(Drop(s, t), s1, id) && LocalOk(s1, id) && CandidateOk(s1, d, id)
  {
    var e := s.monitoring[id];
    var s1 := Put(Arm(Drop(s, t), Confirm(id, e.token, e.idleToken)), id,
                  e.(confirmations := e.confirmations + 1, idleTimer := Some(s.nextTimer)));
    assert HandlesOk(s, id) && CandidateOk(s, d, id);
    PastOfInv(s, d);
    forall u | u in s1.timers && s1.timers[u].id == id ensures TimerOk(s1, u) {
      assert TimerOk(s, u);
    }
  }

  lemma DeadlineKeeps(s: System, d: Detector, t: TimerId, at: int)
    requires Inv(s, d) && t in s.timers && s.timers[t].Deadline? && !IsStale(s, t)
    ensures Inv(Fire(s, d, t, at), d)
  {
    hide Touches, LocalOk, HandlesFree;
    HandleHolder(s, d, t);
    var id := s.timers[t].id;
    assert HandlesOk(s, id) && CandidateOk(s, d, id);
    var e := s.monitoring[id].(deadline := None);
    FiredIsFree(s, d, t, id, e);
    ApplyKeeps(Drop(s, t), id, e, d.detect(e.record.kind, e.input), at);
    TouchesTwice(s, Drop(s, t), Fire(s, d, t, at), id);
    TouchKeeps(s, Fire(s, d, t, at), d, id);
  }

  lemma FireKeeps(s: System, d: Detector, t: TimerId, at: int)
    requires Inv(s, d) && t in s.timers
    ensures Inv(Fire(s, d, t, at), d)
  {
    hide Fire, Inv;
    if IsStale(s, t) {
      StaleCallbackDoesNothing(s, d, t, at);
      DropKeeps(s, d, t);
    } else {
      match s.timers[t]
      case GraceOver(_, _) => GraceKeeps(s, d, t, at);
      case Confirm(_, _, _) => TickKeeps(s, d, t, at);
      case Deadline(_, _, _) => DeadlineKeeps(s, d, t, at);
    }
  }

  // ---------- Runs ----------

  lemma NextKeeps(s: System, d: Detector, ev: Event)
    requires Inv(s, d) && CanHappen(s, ev)
    ensures Inv(Next(s, d, ev), d)
  {
    hide PaneOpened, PaneOutput, PaneMetadata, PaneError, Fire;
    match ev
    case Started(stored) => StartKeeps(s, d, stored);
    case Stopped(id) => StopKeeps(s, d, id);
    case Opened(r, g) => OpenedKeeps(s, d, r, g);
    case Output(r, g, text, at) => OutputKeeps(s, d, r, g, text, at);
    case Metadata(r, g, title, at) => MetadataKeeps(s, d, r, g, title, at);
    case Closed(r, g) => StopKeeps(s, d, r.id);
    case Failed(r, g, reason, at) => ErrorKeeps(s, d, r, g, reason, at);
    case Fired(t, at) => FireKeeps(s, d, t, at);
    case Shutdown => StoreChangeKeeps(s, d, Close(s));
    case RecordCreated(r) => StoreChangeKeeps(s, d, Next(s, d, ev));
    case RecordDeleted(id) => StoreChangeKeeps(s, d, Next(s, d, ev));
  }

  lemma StoreChangeKeeps(s: System, d: Detector, s': System)
    requires Inv(s, d) && StoreOk(s')
    requires s' == s.(store := s'.store, monitoring := s'.monitoring)
    requires s'.monitoring == s.monitoring || s'.monitoring == map[]
    ensures Inv(s', d)
  {
    forall x ensures HandlesOk(s', x) && CandidateOk(s', d, x) {
      assert HandlesOk(s, x) && CandidateOk(s, d, x);
    }
    forall t ensures TimerOk(s', t) {
      assert TimerOk(s, t);
    }
  }

  /** Every state of every run. */
  lemma {:induction false} RunKeeps(d: Detector, states: seq<System>, evs: seq<Event>, k: nat)
    requires IsRun(d, states, evs) && k < |states|
    ensures Inv(states[k], d)
  {
    if k > 0 {
      RunKeeps(d, states, evs, k - 1);
      NextKeeps(states[k - 1], d, evs[k - 1]);
    }
  }
}
