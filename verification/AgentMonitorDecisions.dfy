/** What the monitor makes of every event, in terms of what detection answers: which state is
    stored, when nothing is, and when work is counted as started. */
module AgentMonitorDecisions {
  import opened Basics
  import opened AgentMonitor
  import opened AgentMonitorSafety
  import opened AgentMonitorRuns

  /** The observation is of the very pane generation that the entry is bound to. */
  ghost predicate BelongsTo(s: System, r: Record, generation: nat) {
    && generation > 0 && r.id in s.monitoring
    && var e := s.monitoring[r.id];
      e.generation == generation && e.record.id == r.id && e.record.kind == r.kind && e.record.pane == r.pane
  }

  ghost function With(s: System, id: Id, e: Entry): System {
    s.(monitoring := s.monitoring[id := e])
  }

  /** The idle candidate is given up, and its timers are stopped. */
  ghost function Settled(e: Entry): Entry {
    e.(confirmations := 0, idleToken := e.idleToken + 1, idleTimer := None, deadline := None)
  }

  /** The entry as after a new epoch began: nothing seen and no timer armed. */
  ghost function Renew(e: Entry, token: nat): Entry {
    Settled(e).(grace := None, token := token, input := NO_INPUT, hasInput := false, observedAt := 0, revision := 0, lastWorkingAt := 0)
  }

  /** The store takes over exactly that state, reason and rule; a change into Working is counted
      and timed. A removed record is left alone. */
  ghost function Stored(s: System, id: Id, e: Entry, state: AgentState, reason: string, rule: string, at: int): System {
    if id !in s.store then With(s, id, e)
    else
      var r := s.store[id].(state := state, reason := reason, rule := rule);
      var counts := state == Working && s.store[id].state != Working;
      With(s.(store := s.store[id := r]), id,
           if counts then e.(record := r, revision := e.revision + 1, lastWorkingAt := at) else e.(record := r))
  }

  /** What an evaluation of the entry makes of the answer of detection. */
  ghost function Evaluated(s: System, id: Id, e: Entry, found: Detection, at: int): System {
    if found.NotDetected? || found.skip then With(s, id, Settled(e))
    else if !(e.record.state == Working && found.state == Idle && !found.visibleIdle) then
      Stored(s, id, Settled(e), found.state, found.reason, found.rule, at)
    else if e.idleTimer.Some? || e.deadline.Some? then With(s, id, e)
    else
      var t, k := s.nextTimer, e.idleToken + 1;
      With(s.(timers := s.timers[t := Confirm(id, e.token, k)][t + 1 := Deadline(id, e.token, k)], nextTimer := t + 2), id,
           e.(confirmations := 0, idleToken := k, idleTimer := Some(t), deadline := Some(t + 1)))
  }

  // ---------- Event by event ----------

  lemma ApplyStores(s: System, id: Id, e: Entry, e1: Entry, found: Detection, at: int)
    requires found.Detection?
    ensures ApplyDetection(Put(Put(s, id, e), id, e1), id, found, at) == Stored(s, id, e1, found.state, found.reason, found.rule, at)
  {
    assert Put(Put(s, id, e), id, e1) == Put(s, id, e1);
  }

  lemma CandidateStarts(s: System, id: Id, e: Entry)
    requires e.idleTimer.None? && e.deadline.None?
    ensures var t, k := s.nextTimer, e.idleToken + 1;
      StartCandidate(Put(s, id, e), id) ==
        With(s.(timers := s.timers[t := Confirm(id, e.token, k)][t + 1 := Deadline(id, e.token, k)], nextTimer := t + 2), id,
             e.(confirmations := 0, idleToken := k, idleTimer := Some(t), deadline := Some(t + 1)))
  {
    var t, k := s.nextTimer, e.idleToken + 1;
    var e1 := e.(confirmations := 0, idleToken := k, idleTimer := Some(t), deadline := Some(t + 1));
    assert s.monitoring[id := e][id := e1] == s.monitoring[id := e1];
  }

  lemma EvaluateDecides(s: System, d: Detector, id: Id, e: Entry, at: int)
    ensures Evaluate(Put(s, id, e), d, id, at) == Evaluated(s, id, e, d.detect(e.record.kind, e.input), at)
  {
    var found := d.detect(e.record.kind, e.input);
    if found.NotDetected? || found.skip {
      assert Put(Put(s, id, e), id, CancelIdle(e)) == With(s, id, Settled(e));
    } else {
      ApplyStores(s, id, e, CancelIdle(e), found, at);
      if e.idleTimer.None? && e.deadline.None? {
        CandidateStarts(s, id, e);
      }
    }
    hide Stored, UpdateState;
  }

  /** Output of the own pane is noted, and evaluated once the startup grace is over. */
  lemma OutputDecides(s: System, d: Detector, r: Record, generation: nat, text: string, at: int)
    ensures var s' := Next(s, d, Output(r, generation, text, at));
      if !BelongsTo(s, r, generation) then s' == s
      else
        var e := s.monitoring[r.id].(input := Input(text, s.monitoring[r.id].input.title), hasInput := true, observedAt := at);
        s' == if e.grace.Some? then With(s, r.id, e) else Evaluated(s, r.id, e, d.detect(e.record.kind, e.input), at)
  {
    if BelongsTo(s, r, generation) {
      EvaluateDecides(s, d, r.id,
        s.monitoring[r.id].(input := s.monitoring[r.id].input.(screen := text), hasInput := true, observedAt := at), at);
    }
    hide Evaluate;
  }

  /** A title is evidence only if it is an active one, and then enough to evaluate. */
  lemma MetadataDecides(s: System, d: Detector, r: Record, generation: nat, title: Option<string>, at: int)
    ensures var s' := Next(s, d, Metadata(r, generation, title, at));
      if !BelongsTo(s, r, generation) then s' == s
      else
        var active := title.Some? && d.isActiveTitle(r.kind, title.value) && title.value != "";
        var e := s.monitoring[r.id].(input := Input(s.monitoring[r.id].input.screen, if active then title.value else ""),
                                     hasInput := s.monitoring[r.id].hasInput || active);
        s' == if e.grace.Some? || !e.hasInput then With(s, r.id, e)
              else Evaluated(s, r.id, e, d.detect(e.record.kind, e.input), at)
  {
    if BelongsTo(s, r, generation) {
      var active := if title.Some? && d.isActiveTitle(r.kind, title.value) then title.value else "";
      var e := s.monitoring[r.id];
      EvaluateDecides(s, d, r.id, e.(input := e.input.(title := active), hasInput := e.hasInput || active != ""), at);
    }
    hide Evaluate;
  }

  /** The end of the grace evaluates what was seen in it. */
  lemma GraceDecides(s: System, d: Detector, t: TimerId, at: int)
    requires t in s.timers && s.timers[t].GraceOver?
    ensures var s', id, s1 := Next(s, d, Fired(t, at)), s.timers[t].id, s.(timers := s.timers - {t});
      if id !in s.monitoring || s.monitoring[id].token != s.timers[t].token then s' == s1
      else
        var e := s.monitoring[id].(grace := None);
        s' == if e.hasInput then Evaluated(s1, id, e, d.detect(e.record.kind, e.input), at) else With(s1, id, e)
  {
    var id := s.timers[t].id;
    if id in s.monitoring {
      EvaluateDecides(s.(timers := s.timers - {t}), d, id, s.monitoring[id].(grace := None), at);
    }
    hide Evaluate;
  }

  /** The callback is of the candidate that is still pending. */
  ghost predicate IsOfCandidate(s: System, cb: Callback) {
    && !cb.GraceOver? && cb.id in s.monitoring
    && s.monitoring[cb.id].token == cb.token && s.monitoring[cb.id].idleToken == cb.idleToken
    && (if cb.Confirm? then s.monitoring[cb.id].idleTimer.Some? else s.monitoring[cb.id].deadline.Some?)
  }

  /** A confirmation tick: no answer ends the candidate, another answer than plain idle is
      stored, and so is plain idle at the third tick; earlier ones wait for the next. */
  lemma TickDecides(s: System, d: Detector, t: TimerId, at: int)
    requires t in s.timers && s.timers[t].Confirm?
    ensures var s', cb, s1 := Next(s, d, Fired(t, at)), s.timers[t], s.(timers := s.timers - {t});
      if !IsOfCandidate(s, cb) then s' == s1
      else
        var e := s.monitoring[cb.id];
        var found := d.detect(e.record.kind, e.input);
        s' == if found.NotDetected? || found.skip then With(s1, cb.id, Settled(e))
              else if found.state != Idle || found.visibleIdle || e.confirmations >= 2
                then Stored(s1, cb.id, Settled(e), found.state, found.reason, found.rule, at)
              else
                With(s1.(timers := s1.timers[s.nextTimer := cb], nextTimer := s.nextTimer + 1), cb.id,
                     e.(confirmations := e.confirmations + 1, idleTimer := Some(s.nextTimer)))
  {
  }

  /** The deadline concludes whatever was found, unless nothing was. */
  lemma DeadlineDecides(s: System, d: Detector, t: TimerId, at: int)
    requires t in s.timers && s.timers[t].Deadline?
    ensures var s', cb, s1 := Next(s, d, Fired(t, at)), s.timers[t], s.(timers := s.timers - {t});
      if !IsOfCandidate(s, cb) then s' == s1
      else
        var e := s.monitoring[cb.id];
        var found := d.detect(e.record.kind, e.input);
        s' == if found.NotDetected? || found.skip then With(s1, cb.id, Settled(e))
              else Stored(s1, cb.id, Settled(e), found.state, found.reason, found.rule, at)
  {
  }

  /** A newer generation of the pane begins an epoch with a startup grace. */
  lemma OpeningDecides(s: System, d: Detector, r: Record, generation: nat)
    ensures var s' := Next(s, d, Opened(r, generation));
      if r.id in s.monitoring && SameRecord(s.monitoring[r.id], r) && generation > s.monitoring[r.id].generation then
        s' == With(s.(nextToken := s.nextToken + 1, timers := s.timers[s.nextTimer := GraceOver(r.id, s.nextToken + 1)],
                      nextTimer := s.nextTimer + 1), r.id,
                   Renew(s.monitoring[r.id], s.nextToken + 1).(generation := generation, grace := Some(s.nextTimer)))
      else s' == s
  {
  }

  /** An error of the own pane begins an epoch and makes the agent's state unknown. */
  lemma ErrorDecides(s: System, d: Detector, r: Record, generation: nat, reason: string, at: int)
    ensures var s' := Next(s, d, Failed(r, generation, reason, at));
      if !BelongsTo(s, r, generation) then s' == s
      else s' == Stored(s.(nextToken := s.nextToken + 1), r.id, Renew(s.monitoring[r.id], s.nextToken + 1), Unknown, reason, "", at)
  {
  }

  /** Starting and stopping to monitor, by request and with the pane. */
  lemma MonitoringDecides(s: System, d: Detector, r: Record, generation: nat)
    ensures Next(s, d, Closed(r, generation)) ==
      if BelongsTo(s, r, generation) then s.(monitoring := s.monitoring - {r.id}) else s
    ensures Next(s, d, Stopped(r.id)) == s.(monitoring := s.monitoring - {r.id})
    ensures Next(s, d, Started(r)) == With(s.(nextToken := s.nextToken + 1), r.id,
      Entry(r, s.nextToken + 1, 0, NO_INPUT, false, 0, 0, 0, None, 0, 0, None, None))
    ensures Next(s, d, Shutdown) == s.(monitoring := map[])
    ensures r.id !in s.store ==> Next(s, d, RecordCreated(r)) == s.(store := s.store[r.id := r])
    ensures Next(s, d, RecordDeleted(r.id)) == s.(store := s.store - {r.id})
  {
  }

  // ---------- What is stored ----------

  /** The record has exactly the state, reason and rule that detection answers to the agent's
      latest input, and that answer counts. */
  ghost predicate HasAnswer(s: System, s': System, d: Detector, id: Id)
    requires id in s.monitoring && id in s'.monitoring && id in s.store && id in s'.store
  {
    var found := d.detect(s.monitoring[id].record.kind, s'.monitoring[id].input);
    found.Detection? && !found.skip
    && s'.store[id] == s.store[id].(state := found.state, reason := found.reason, rule := found.rule)
  }

  /** A section of the monitor changes the record of no agent but one it monitors, and what it
      stores there is the answer of detection, or Unknown after a pane error. */
  lemma StoresAnswers(s: System, d: Detector, ev: Event, id: Id)
    requires CanHappen(s, ev) && !ev.RecordCreated? && !ev.RecordDeleted?
    ensures var s' := Next(s, d, ev);
      && s'.store.Keys == s.store.Keys
      && (id in s.store && s'.store[id] != s.store[id] ==>
            && id in s.monitoring && id in s'.monitoring
            && (HasAnswer(s, s', d, id)
                || (ev.Failed? && ev.record.id == id && s'.store[id] == s.store[id].(state := Unknown, reason := ev.reason, rule := ""))))
  {
    hide Next;
    match ev
    case Output(r, g, text, at) => OutputDecides(s, d, r, g, text, at);
    case Metadata(r, g, title, at) => MetadataDecides(s, d, r, g, title, at);
    case Fired(t, at) =>
      match s.timers[t] {
        case GraceOver(_, _) => GraceDecides(s, d, t, at);
        case Confirm(_, _, _) => TickDecides(s, d, t, at);
        case Deadline(_, _, _) => DeadlineDecides(s, d, t, at);
      }
    case Opened(r, g) => OpeningDecides(s, d, r, g);
    case Failed(r, g, reason, at) => ErrorDecides(s, d, r, g, reason, at);
    case Started(r) => MonitoringDecides(s, d, r, 0);
    case Stopped(x) => MonitoringDecides(s, d, Record(x, "", "", Idle, "", ""), 0);
    case Closed(r, g) => MonitoringDecides(s, d, r, g);
    case Shutdown => MonitoringDecides(s, d, Record("", "", "", Idle, "", ""), 0);
  }

  // ---------- When work was last started ----------

  function TimeOf(ev: Event): int {
    match ev
    case Output(_, _, _, at) => at
    case Metadata(_, _, _, at) => at
    case Failed(_, _, _, at) => at
    case Fired(_, at) => at
    case _ => 0
  }

  /** The step stays in the epoch and times a start of work if there is one, or begins an epoch
      without any. */
  ghost predicate TimesStarts(s: System, s': System, ev: Event, id: Id) {
    id in s'.monitoring ==>
      var e' := s'.monitoring[id];
      || (e'.revision == 0 && e'.lastWorkingAt == 0 && e'.token > s.nextToken)
      || (&& id in s.monitoring && e'.token == s.monitoring[id].token
          && e'.revision == s.monitoring[id].revision + (if StartsWorking(s, s', id) then 1 else 0)
          && e'.lastWorkingAt == if StartsWorking(s, s', id) then TimeOf(ev) else s.monitoring[id].lastWorkingAt)
  }

  lemma NextTimesStarts(s: System, d: Detector, ev: Event, id: Id)
    requires CanHappen(s, ev)
    ensures TimesStarts(s, Next(s, d, ev), ev, id)
  {
    hide Next;
    match ev
    case Output(r, g, text, at) => OutputTimesStarts(s, d, r, g, text, at, id);
    case Metadata(r, g, title, at) => MetadataTimesStarts(s, d, r, g, title, at, id);
    case Fired(t, at) => FireTimesStarts(s, d, t, at, id);
    case Opened(r, g) => OpeningDecides(s, d, r, g);
    case Failed(r, g, reason, at) => ErrorDecides(s, d, r, g, reason, at);
    case Started(r) => MonitoringDecides(s, d, r, 0);
    case Stopped(x) => MonitoringDecides(s, d, Record(x, "", "", Idle, "", ""), 0);
    case Closed(r, g) => MonitoringDecides(s, d, r, g);
    case Shutdown => MonitoringDecides(s, d, Record("", "", "", Idle, "", ""), 0);
    case RecordCreated(r) => MonitoringDecides(s, d, r, 0);
    case RecordDeleted(x) => MonitoringDecides(s, d, Record(x, "", "", Idle, "", ""), 0);
  }

  lemma OutputTimesStarts(s: System, d: Detector, r: Record, generation: nat, text: string, at: int, id: Id)
    ensures TimesStarts(s, Next(s, d, Output(r, generation, text, at)), Output(r, generation, text, at), id)
  {
    hide Next;
    OutputDecides(s, d, r, generation, text, at);
  }

  lemma MetadataTimesStarts(s: System, d: Detector, r: Record, generation: nat, title: Option<string>, at: int, id: Id)
    ensures TimesStarts(s, Next(s, d, Metadata(r, generation, title, at)), Metadata(r, generation, title, at), id)
  {
    hide Next;
    MetadataDecides(s, d, r, generation, title, at);
  }

  lemma FireTimesStarts(s: System, d: Detector, t: TimerId, at: int, id: Id)
    requires t in s.timers
    ensures TimesStarts(s, Next(s, d, Fired(t, at)), Fired(t, at), id)
  {
    hide Next;
    match s.timers[t]
    case GraceOver(_, _) => GraceDecides(s, d, t, at);
    case Confirm(_, _, _) => TickDecides(s, d, t, at);
    case Deadline(_, _, _) => DeadlineDecides(s, d, t, at);
  }

  /** The step `k` is the last start of work before the state `n`, in the same epoch and at the
      time that the entry notes. */
  ghost predicate IsLastStart(states: seq<System>, evs: seq<Event>, id: Id, k: nat, n: nat)
    requires |states| == |evs| + 1 && n < |states| && id in states[n].monitoring
  {
    var e := states[n].monitoring[id];
    && k < n && StartsWorking(states[k], states[k + 1], id) && e.lastWorkingAt == TimeOf(evs[k])
    && (forall j :: k < j <= n ==> id in states[j].monitoring && states[j].monitoring[id].token == e.token)
    && (forall j :: k < j < n ==> !StartsWorking(states[j], states[j + 1], id))
  }

  /** In every run, an agent that was seen to start working in this epoch has the time of its
      last start on record; before any start there is none. */
  lemma {:induction false} LastWorkingIsLastStart(d: Detector, states: seq<System>, evs: seq<Event>, id: Id, n: nat)
      returns (k: nat)
    requires IsRun(d, states, evs) && n < |states| && id in states[n].monitoring
    ensures states[n].monitoring[id].revision == 0 ==> states[n].monitoring[id].lastWorkingAt == 0
    ensures states[n].monitoring[id].revision > 0 ==> IsLastStart(states, evs, id, k, n)
    decreases n
  {
    hide Next;
    k := 0;
    if n > 0 {
      assert CanHappen(states[n - 1], evs[n - 1]) && states[n] == Next(states[n - 1], d, evs[n - 1]);
      NextTimesStarts(states[n - 1], d, evs[n - 1], id);
      if id in states[n - 1].monitoring {
        k := LastWorkingIsLastStart(d, states, evs, id, n - 1);
      }
      if StartsWorking(states[n - 1], states[n], id) {
        k := n - 1;
      }
    }
  }
}
