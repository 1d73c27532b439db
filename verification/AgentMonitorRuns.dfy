/** What holds over whole runs of the monitor: the idle debounce and the observation epochs. */
module AgentMonitorRuns {
  import opened Basics
  import opened AgentMonitor
  import opened AgentMonitorSafety

  // ---------- The idle debounce ----------

  /** In `s` the agent's idle candidate with these tokens is pending on plain idle input. */
  ghost predicate Waits(s: System, d: Detector, id: Id, token: nat, idleToken: nat) {
    && id in s.monitoring && IsPending(s.monitoring[id])
    && s.monitoring[id].token == token && s.monitoring[id].idleToken == idleToken
    && s.monitoring[id].record.state == Working
    && IsPlainIdle(d.detect(s.monitoring[id].record.kind, s.monitoring[id].input))
  }

  ghost predicate IsPendingAt(s: System, id: Id) {
    id in s.monitoring && IsPending(s.monitoring[id])
  }

  /** The event is a confirmation tick of the candidate with these tokens. */
  predicate IsTick(s: System, ev: Event, id: Id, token: nat, idleToken: nat) {
    ev.Fired? && ev.timer in s.timers && s.timers[ev.timer] == Confirm(id, token, idleToken)
  }

  predicate IsDeadline(s: System, ev: Event, id: Id, token: nat, idleToken: nat) {
    ev.Fired? && ev.timer in s.timers && s.timers[ev.timer] == Deadline(id, token, idleToken)
  }

  /** One step onto a pending candidate: it waits on, is ticked, or is new. */
  ghost predicate CandidateStep(s: System, s': System, ev: Event, id: Id) {
    IsPendingAt(s', id) ==>
      var e' := s'.monitoring[id];
      if IsPendingAt(s, id) && s.monitoring[id].token == e'.token && s.monitoring[id].idleToken == e'.idleToken then
        || e'.confirmations == s.monitoring[id].confirmations
        || (e'.confirmations == s.monitoring[id].confirmations + 1 && IsTick(s, ev, id, e'.token, e'.idleToken))
      else e'.confirmations == 0 && !IsPendingAt(s, id)
  }

  lemma EvaluateSteps(s: System, d: Detector, id: Id, e: Entry, at: int, ev: Event)
    requires id in s.monitoring && e == s.monitoring[id].(input := e.input, hasInput := e.hasInput, observedAt := e.observedAt, grace := e.grace)
    ensures CandidateStep(s, Evaluate(Put(s, id, e), d, id, at), ev, id)
  {
  }

  lemma HandlesOf(s: System, d: Detector, id: Id)
    requires Inv(s, d)
    ensures HandlesOk(s, id)
  {
  }

  lemma FireSteps(s: System, d: Detector, t: TimerId, at: int, id: Id)
    requires Inv(s, d) && t in s.timers
    ensures CandidateStep(s, Fire(s, d, t, at), Fired(t, at), id)
  {
    hide Evaluate, Inv;
    var cb := s.timers[t];
    HandlesOf(s, d, id);
    if cb.id == id && cb.GraceOver? && id in s.monitoring && s.monitoring[id].token == cb.token {
      EvaluateSteps(Drop(s, t), d, id, s.monitoring[id].(grace := None), at, Fired(t, at));
    } else if cb.id != id && cb.id in s.monitoring {
      EvaluateElsewhere(Put(Drop(s, t), cb.id, s.monitoring[cb.id].(grace := None)), d, cb.id, at, id);
    }
  }

  lemma EvaluateElsewhere(s: System, d: Detector, id: Id, at: int, other: Id)
    requires id in s.monitoring && other != id
    ensures var s1 := Evaluate(s, d, id, at);
      (other in s1.monitoring <==> other in s.monitoring) && (other in s.monitoring ==> s1.monitoring[other] == s.monitoring[other])
  {
  }

  lemma NextSteps(s: System, d: Detector, ev: Event, id: Id)
    requires Inv(s, d) && CanHappen(s, ev)
    ensures CandidateStep(s, Next(s, d, ev), ev, id)
  {
    hide Evaluate, Fire, Inv;
    match ev
    case Output(r, g, text, at) =>
      if Observes(s, r, g) {
        var e := s.monitoring[r.id].(input := s.monitoring[r.id].input.(screen := text), hasInput := true, observedAt := at);
        EvaluateAt(s, d, r.id, e, at, ev, id);
      }
    case Metadata(r, g, title, at) =>
      if Observes(s, r, g) {
        var active := if title.Some? && d.isActiveTitle(r.kind, title.value) then title.value else "";
        var e := s.monitoring[r.id];
        EvaluateAt(s, d, r.id, e.(input := e.input.(title := active), hasInput := e.hasInput || active != ""), at, ev, id);
      }
    case Fired(t, at) => FireSteps(s, d, t, at, id);
    case _ =>
  }

  lemma EvaluateAt(s: System, d: Detector, id: Id, e: Entry, at: int, ev: Event, x: Id)
    requires id in s.monitoring && e == s.monitoring[id].(input := e.input, hasInput := e.hasInput, observedAt := e.observedAt)
    ensures CandidateStep(s, Evaluate(Put(s, id, e), d, id, at), ev, x)
    ensures CandidateStep(s, Put(s, id, e), ev, x)
  {
    hide Evaluate;
    if x == id {
      EvaluateSteps(s, d, id, e, at, ev);
    } else {
      EvaluateElsewhere(Put(s, id, e), d, id, at, x);
    }
  }

  /** The candidate that is pending in state `n` was started at event `start` and has since
      been ticked at the events `ticks`, with nothing in between that cancelled it. */
  ghost predicate CandidateSince(d: Detector, states: seq<System>, evs: seq<Event>, id: Id, start: nat, ticks: seq<nat>, n: nat)
    requires |states| == |evs| + 1 && n < |states| && id in states[n].monitoring
  {
    var token, idleToken := states[n].monitoring[id].token, states[n].monitoring[id].idleToken;
    && start < n && !IsPendingAt(states[start], id)
    && (forall k :: start < k <= n ==> Waits(states[k], d, id, token, idleToken))
    && (forall i :: 0 <= i < |ticks| ==> start < ticks[i] < n && IsTick(states[ticks[i]], evs[ticks[i]], id, token, idleToken))
    && (forall i, j :: 0 <= i < j < |ticks| ==> ticks[i] < ticks[j])
  }

  lemma {:induction false} CandidateHistory(d: Detector, states: seq<System>, evs: seq<Event>, n: nat, id: Id)
      returns (start: nat, ticks: seq<nat>)
    requires IsRun(d, states, evs) && n < |states| && IsPendingAt(states[n], id)
    ensures CandidateSince(d, states, evs, id, start, ticks, n)
    ensures |ticks| == states[n].monitoring[id].confirmations
  {
    hide Next, Inv;
    RunKeeps(d, states, evs, n);
    PendingWaits(states[n], d, id);
    assert n > 0;
    var s, s', ev := states[n - 1], states[n], evs[n - 1];
    assert CanHappen(s, ev) && s' == Next(s, d, ev);
    RunKeeps(d, states, evs, n - 1);
    NextSteps(s, d, ev, id);
    var e' := s'.monitoring[id];
    if IsPendingAt(s, id) {
      start, ticks := CandidateHistory(d, states, evs, n - 1, id);
      if e'.confirmations != s.monitoring[id].confirmations {
        ticks := ticks + [n - 1];
      }
    } else {
      start, ticks := n - 1, [];
    }
  }

  /** A pending candidate means a working agent past its startup grace, with both timers set. */
  lemma PendingWaits(s: System, d: Detector, id: Id)
    requires Inv(s, d) && IsPendingAt(s, id)
    ensures Waits(s, d, id, s.monitoring[id].token, s.monitoring[id].idleToken)
    ensures var e := s.monitoring[id];
      && e.grace.None? && e.hasInput && e.record.state == Working
      && e.idleTimer.Some? && e.idleTimer.value in s.timers && s.timers[e.idleTimer.value] == Confirm(id, e.token, e.idleToken)
      && e.deadline.Some? && e.deadline.value in s.timers && s.timers[e.deadline.value] == Deadline(id, e.token, e.idleToken)
  {
    assert HandlesOk(s, id) && CandidateOk(s, d, id);
  }

  /** The step takes the agent from Working to Idle in one epoch, on input without an idle marker. */
  ghost predicate TurnsIdle(s: System, s': System, d: Detector, id: Id) {
    && id in s.monitoring && id in s'.monitoring && s'.monitoring[id].token == s.monitoring[id].token
    && s.monitoring[id].record.state == Working && s'.monitoring[id].record.state == Idle
    && IsPlainIdle(d.detect(s.monitoring[id].record.kind, s'.monitoring[id].input))
  }

  /** The last tick of the candidate, or its deadline. */
  ghost predicate Concludes(s: System, ev: Event, id: Id) {
    && IsPendingAt(s, id)
    && var e := s.monitoring[id];
      || (IsTick(s, ev, id, e.token, e.idleToken) && e.confirmations == IDLE_CONFIRMATIONS - 1)
      || IsDeadline(s, ev, id, e.token, e.idleToken)
  }

  lemma EvaluateWaits(s: System, d: Detector, id: Id, at: int)
    requires id in s.monitoring && s.monitoring[id].record.state == Working
    requires IsPlainIdle(d.detect(s.monitoring[id].record.kind, s.monitoring[id].input))
    ensures var s1 := Evaluate(s, d, id, at);
      id in s1.monitoring && s1.monitoring[id].record == s.monitoring[id].record
  {
  }

  lemma EvaluateKeepsInput(s: System, d: Detector, id: Id, at: int)
    requires id in s.monitoring
    ensures var s1 := Evaluate(s, d, id, at);
      id in s1.monitoring && s1.monitoring[id].input == s.monitoring[id].input
  {
  }

  /** An observation or the end of the startup grace never turns a working agent plainly idle. */
  lemma EvaluateNeverIdles(s: System, d: Detector, id: Id, e: Entry, at: int, x: Id)
    requires id in s.monitoring && e.record == s.monitoring[id].record && e.token == s.monitoring[id].token
    ensures !TurnsIdle(s, Evaluate(Put(s, id, e), d, id, at), d, x)
    ensures !TurnsIdle(s, Put(s, id, e), d, x)
  {
    hide Evaluate;
    EvaluateKeepsInput(Put(s, id, e), d, id, at);
    if x == id && e.record.state == Working && IsPlainIdle(d.detect(e.record.kind, e.input)) {
      EvaluateWaits(Put(s, id, e), d, id, at);
    } else if x != id {
      EvaluateElsewhere(Put(s, id, e), d, id, at, x);
    }
  }

  lemma FireIdles(s: System, d: Detector, t: TimerId, at: int, id: Id)
    requires Inv(s, d) && t in s.timers && TurnsIdle(s, Fire(s, d, t, at), d, id)
    ensures Concludes(s, Fired(t, at), id)
  {
    hide Evaluate, Inv;
    var cb := s.timers[t];
    HandlesOf(s, d, id);
    if cb.GraceOver? && cb.id in s.monitoring {
      EvaluateNeverIdles(Drop(s, t), d, cb.id, s.monitoring[cb.id].(grace := None), at, id);
    }
  }

  lemma NextIdles(s: System, d: Detector, ev: Event, id: Id)
    requires Inv(s, d) && CanHappen(s, ev) && TurnsIdle(s, Next(s, d, ev), d, id)
    ensures Concludes(s, ev, id)
  {
    hide Evaluate, Fire, Inv;
    TokenBound(s, d, id);
    match ev
    case Output(r, g, text, at) =>
      if Observes(s, r, g) {
        var e := s.monitoring[r.id].(input := s.monitoring[r.id].input.(screen := text), hasInput := true, observedAt := at);
        EvaluateNeverIdles(s, d, r.id, e, at, id);
      }
    case Metadata(r, g, title, at) =>
      if Observes(s, r, g) {
        var active := if title.Some? && d.isActiveTitle(r.kind, title.value) then title.value else "";
        var e := s.monitoring[r.id];
        EvaluateNeverIdles(s, d, r.id, e.(input := e.input.(title := active), hasInput := e.hasInput || active != ""), at, id);
      }
    case Fired(t, at) => FireIdles(s, d, t, at, id);
    case _ =>
  }

  /** Working becomes plainly Idle only at the deadline of a candidate, or at its third tick, and
      from the candidate's start on every state had plainly idle input in the same epoch. */
  lemma IdleIsDebounced(d: Detector, states: seq<System>, evs: seq<Event>, n: nat, id: Id)
      returns (start: nat, ticks: seq<nat>)
    requires IsRun(d, states, evs) && n < |evs| && TurnsIdle(states[n], states[n + 1], d, id)
    ensures CandidateSince(d, states, evs, id, start, ticks, n)
    ensures var e := states[n].monitoring[id];
      || IsDeadline(states[n], evs[n], id, e.token, e.idleToken)
      || (IsTick(states[n], evs[n], id, e.token, e.idleToken) && |ticks| == 2)
  {
    hide Next, Inv, CandidateSince, TurnsIdle;
    RunKeeps(d, states, evs, n);
    assert CanHappen(states[n], evs[n]) && states[n + 1] == Next(states[n], d, evs[n]);
    NextIdles(states[n], d, evs[n], id);
    start, ticks := CandidateHistory(d, states, evs, n, id);
    assert id in states[n].monitoring;
  }

  // ---------- Observation epochs ----------

  /** The store takes the agent into Working. */
  predicate StartsWorking(s: System, s': System, id: Id) {
    id in s.store && s.store[id].state != Working && id in s'.store && s'.store[id].state == Working
  }

  /** How often it did between the states `i` and `j`. */
  function WorkStarts(states: seq<System>, id: Id, i: nat, j: nat): nat
    requires i <= j < |states|
  {
    if i == j then 0
    else WorkStarts(states, id, i, j - 1) + if StartsWorking(states[j - 1], states[j], id) then 1 else 0
  }

  /** One step stays in the epoch and counts exactly the starts of work, or opens a later epoch. */
  ghost predicate EpochStep(s: System, s': System, id: Id) {
    && s.nextToken <= s'.nextToken
    && (id in s'.monitoring ==>
          || (&& id in s.monitoring && s'.monitoring[id].token == s.monitoring[id].token
              && s'.monitoring[id].revision == s.monitoring[id].revision + if StartsWorking(s, s', id) then 1 else 0)
          || s'.monitoring[id].token > s.nextToken)
  }

  lemma EvaluateEpoch(s: System, d: Detector, id: Id, at: int, x: Id)
    requires id in s.monitoring
    ensures EpochStep(s, Evaluate(s, d, id, at), x)
  {
  }

  lemma FireEpoch(s: System, d: Detector, t: TimerId, at: int, x: Id)
    requires t in s.timers
    ensures EpochStep(s, Fire(s, d, t, at), x)
  {
    hide Evaluate;
    var cb := s.timers[t];
    if cb.GraceOver? && cb.id in s.monitoring {
      EvaluateEpoch(Put(Drop(s, t), cb.id, s.monitoring[cb.id].(grace := None)), d, cb.id, at, x);
    }
  }

  lemma NextEpoch(s: System, d: Detector, ev: Event, id: Id)
    requires CanHappen(s, ev)
    ensures EpochStep(s, Next(s, d, ev), id)
  {
    hide Evaluate, Fire;
    match ev
    case Output(r, g, text, at) =>
      if Observes(s, r, g) {
        var e := s.monitoring[r.id].(input := s.monitoring[r.id].input.(screen := text), hasInput := true, observedAt := at);
        EvaluateEpoch(Put(s, r.id, e), d, r.id, at, id);
      }
    case Metadata(r, g, title, at) =>
      if Observes(s, r, g) {
        var active := if title.Some? && d.isActiveTitle(r.kind, title.value) then title.value else "";
        var e := s.monitoring[r.id];
        EvaluateEpoch(Put(s, r.id, e.(input := e.input.(title := active), hasInput := e.hasInput || active != "")), d, r.id, at, id);
      }
    case Fired(t, at) => FireEpoch(s, d, t, at, id);
    case _ =>
  }

  /** Epochs of an agent only grow. Within one epoch the agent is monitored throughout and its
      revision counts exactly the transitions of the stored state into Working. */
  lemma {:induction false} EvidenceOnlyGrows(d: Detector, states: seq<System>, evs: seq<Event>, id: Id, i: nat, j: nat)
    requires IsRun(d, states, evs) && i <= j < |states|
    requires id in states[i].monitoring && id in states[j].monitoring
    ensures var e, e' := states[i].monitoring[id], states[j].monitoring[id];
      && e.token <= e'.token
      && (e.token == e'.token ==>
            && e'.revision == e.revision + WorkStarts(states, id, i, j)
            && forall k :: i <= k <= j ==> id in states[k].monitoring && states[k].monitoring[id].token == e.token)
    decreases j
  {
    hide Next, Inv;
    if i < j {
      assert CanHappen(states[j - 1], evs[j - 1]) && states[j] == Next(states[j - 1], d, evs[j - 1]);
      NextEpoch(states[j - 1], d, evs[j - 1], id);
      TokensGrow(d, states, evs, id, i, j - 1);
      if id in states[j - 1].monitoring && states[j].monitoring[id].token == states[j - 1].monitoring[id].token {
        RunKeeps(d, states, evs, j - 1);
        TokenBound(states[j - 1], d, id);
        EvidenceOnlyGrows(d, states, evs, id, i, j - 1);
      }
    }
  }

  lemma TokenBound(s: System, d: Detector, id: Id)
    requires Inv(s, d) && id in s.monitoring
    ensures s.monitoring[id].token <= s.nextToken
  {
    assert HandlesOk(s, id);
  }

  lemma {:induction false} TokensGrow(d: Detector, states: seq<System>, evs: seq<Event>, id: Id, i: nat, j: nat)
    requires IsRun(d, states, evs) && i <= j < |states| && id in states[i].monitoring
    ensures states[i].monitoring[id].token <= states[j].nextToken
    decreases j
  {
    hide Next, Inv;
    RunKeeps(d, states, evs, i);
    TokenBound(states[i], d, id);
    if i < j {
      assert CanHappen(states[j - 1], evs[j - 1]) && states[j] == Next(states[j - 1], d, evs[j - 1]);
      NextEpoch(states[j - 1], d, evs[j - 1], id);
      TokensGrow(d, states, evs, id, i, j - 1);
    }
  }

  lemma EvaluateKeepsTokens(s: System, d: Detector, id: Id, at: int, x: Id)
    requires id in s.monitoring
    ensures var s1 := Evaluate(s, d, id, at);
      x in s1.monitoring ==> x in s.monitoring && s1.monitoring[x].token == s.monitoring[x].token
  {
  }

  /** The agent to which the event may give a new token. */
  function Renewed(ev: Event): Option<Id> {
    match ev
    case Started(r) => Some(r.id)
    case Opened(r, _) => Some(r.id)
    case Failed(r, _, _, _) => Some(r.id)
    case _ => None
  }

  lemma OthersKeepTokens(s: System, d: Detector, ev: Event, x: Id)
    requires CanHappen(s, ev) && Renewed(ev) != Some(x)
    ensures var s1 := Next(s, d, ev);
      x in s1.monitoring ==> x in s.monitoring && s1.monitoring[x].token == s.monitoring[x].token
  {
    hide Evaluate;
    match ev
    case Output(r, g, text, at) =>
      if Observes(s, r, g) {
        var e := s.monitoring[r.id].(input := s.monitoring[r.id].input.(screen := text), hasInput := true, observedAt := at);
        EvaluateKeepsTokens(Put(s, r.id, e), d, r.id, at, x);
      }
    case Metadata(r, g, title, at) =>
      if Observes(s, r, g) {
        var active := if title.Some? && d.isActiveTitle(r.kind, title.value) then title.value else "";
        var e := s.monitoring[r.id];
        EvaluateKeepsTokens(Put(s, r.id, e.(input := e.input.(title := active), hasInput := e.hasInput || active != "")), d, r.id, at, x);
      }
    case Fired(t, at) =>
      var cb := s.timers[t];
      if cb.GraceOver? && cb.id in s.monitoring {
        EvaluateKeepsTokens(Put(Drop(s, t), cb.id, s.monitoring[cb.id].(grace := None)), d, cb.id, at, x);
      }
    case _ =>
  }

  /** At no moment do two agents have the same token. */
  lemma {:induction false} TokensDiffer(d: Detector, states: seq<System>, evs: seq<Event>, j: nat, x: Id, y: Id)
    requires IsRun(d, states, evs) && j < |states| && x in states[j].monitoring && y in states[j].monitoring
    requires states[j].monitoring[x].token == states[j].monitoring[y].token
    ensures x == y
    decreases j
  {
    hide Next, Inv;
    if j > 0 && x != y {
      var s, ev := states[j - 1], evs[j - 1];
      assert CanHappen(s, ev) && states[j] == Next(s, d, ev);
      RunKeeps(d, states, evs, j - 1);
      NextEpoch(s, d, ev, x);
      NextEpoch(s, d, ev, y);
      if Renewed(ev) != Some(x) {
        OthersKeepTokens(s, d, ev, x);
        TokenBound(s, d, x);
      }
      if Renewed(ev) != Some(y) {
        OthersKeepTokens(s, d, ev, y);
        TokenBound(s, d, y);
      }
      TokensDiffer(d, states, evs, j - 1, x, y);
    }
  }

  /** A lifecycle token is never given out again: whoever has it later is the agent that had it. */
  lemma {:induction false} TokenIsNeverReused(d: Detector, states: seq<System>, evs: seq<Event>, id: Id, x: Id, i: nat, j: nat)
    requires IsRun(d, states, evs) && i <= j < |states| && id in states[i].monitoring && x in states[j].monitoring
    requires states[j].monitoring[x].token == states[i].monitoring[id].token
    ensures x == id
    ensures forall k :: i <= k <= j ==> id in states[k].monitoring && states[k].monitoring[id].token == states[i].monitoring[id].token
    decreases j
  {
    hide Next, Inv;
    if i == j {
      TokensDiffer(d, states, evs, j, id, x);
    } else {
      TokensGrow(d, states, evs, id, i, j - 1);
      assert CanHappen(states[j - 1], evs[j - 1]) && states[j] == Next(states[j - 1], d, evs[j - 1]);
      NextEpoch(states[j - 1], d, evs[j - 1], x);
      TokenIsNeverReused(d, states, evs, id, x, i, j - 1);
    }
  }

  /** Where a later observation of the same epoch has a higher revision, work started in between. */
  lemma RevisionIsEvidence(d: Detector, states: seq<System>, evs: seq<Event>, id: Id, i: nat, j: nat) returns (k: nat)
    requires IsRun(d, states, evs) && i <= j < |states|
    requires id in states[i].monitoring && id in states[j].monitoring
    requires states[i].monitoring[id].token == states[j].monitoring[id].token
    requires states[i].monitoring[id].revision < states[j].monitoring[id].revision
    ensures i <= k < j && StartsWorking(states[k], states[k + 1], id)
  {
    EvidenceOnlyGrows(d, states, evs, id, i, j);
    k := SomeStart(states, id, i, j);
  }

  lemma {:induction false} SomeStart(states: seq<System>, id: Id, i: nat, j: nat) returns (k: nat)
    requires i <= j < |states| && WorkStarts(states, id, i, j) > 0
    ensures i <= k < j && StartsWorking(states[k], states[k + 1], id)
    decreases j
  {
    if StartsWorking(states[j - 1], states[j], id) {
      k := j - 1;
    } else {
      k := SomeStart(states, id, i, j - 1);
    }
  }
}
