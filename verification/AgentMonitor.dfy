/** The monitor that turns pane observations into agent states. Each function is one
    section under the monitor's lock. Timers are one-shot callbacks that may still run after
    they were stopped: stopping a timer only drops the entry's handle to it. */
module AgentMonitor {
  import opened Basics

  type Id = string

  datatype AgentState = Idle | Working | Blocked | Unknown

  datatype Record = Record(id: Id, kind: string, pane: string, state: AgentState, reason: string, rule: string)

  /** What detection works on: the last rendered screen and an active pane title. */
  datatype Input = Input(screen: string, title: string)

  const NO_INPUT := Input("", "")

  datatype Detection =
    | NotDetected
    | Detection(state: AgentState, reason: string, rule: string, visibleIdle: bool, skip: bool)

  /** The rule sets of all agent kinds: they answer by kind and input alone. */
  datatype Detector = Detector(detect: (string, Input) -> Detection, isActiveTitle: (string, string) -> bool)

  type TimerId = nat

  datatype Callback =
    | GraceOver(id: Id, token: nat)
    | Confirm(id: Id, token: nat, idleToken: nat)
    | Deadline(id: Id, token: nat, idleToken: nat)

  /** `token` is the observation epoch; `revision` counts the transitions to Working in it. */
  datatype Entry = Entry(
    record: Record,
    token: nat,
    generation: nat,
    input: Input,
    hasInput: bool,
    observedAt: int,
    revision: nat,
    lastWorkingAt: int,
    grace: Option<TimerId>,
    confirmations: nat,
    idleToken: nat,
    idleTimer: Option<TimerId>,
    deadline: Option<TimerId>)

  /** The agent store, the monitor, and the callbacks that have not run yet. */
  datatype System = System(
    store: map<Id, Record>,
    nextToken: nat,
    monitoring: map<Id, Entry>,
    timers: map<TimerId, Callback>,
    nextTimer: TimerId)

  const EMPTY := System(map[], 0, map[], map[], 0)

  const IDLE_CONFIRMATIONS := 3

  // ---------- Parts of a section ----------

  function Put(s: System, id: Id, e: Entry): System {
    s.(monitoring := s.monitoring[id := e])
  }

  function Arm(s: System, cb: Callback): System {
    s.(timers := s.timers[s.nextTimer := cb], nextTimer := s.nextTimer + 1)
  }

  function CancelIdle(e: Entry): Entry {
    e.(idleToken := e.idleToken + 1, idleTimer := None, deadline := None, confirmations := 0)
  }

  function StopTimers(e: Entry): Entry {
    CancelIdle(e.(grace := None))
  }

  function ForgetObservations(e: Entry): Entry {
    e.(input := NO_INPUT, hasInput := false, observedAt := 0, revision := 0, lastWorkingAt := 0)
  }

  predicate SameRecord(e: Entry, r: Record) {
    e.record.id == r.id && e.record.kind == r.kind && e.record.pane == r.pane
  }

  /** The entry that an observation of this pane generation belongs to. */
  predicate Observes(s: System, r: Record, generation: nat) {
    && r.id in s.monitoring && SameRecord(s.monitoring[r.id], r)
    && s.monitoring[r.id].generation != 0 && s.monitoring[r.id].generation == generation
  }

  /** The store's state update, taken over into the entry. */
  function UpdateState(s: System, id: Id, state: AgentState, reason: string, rule: string, at: int): System
    requires id in s.monitoring
  {
    var e := s.monitoring[id];
    if id !in s.store then s
    else
      var previous := s.store[id];
      var current := previous.(state := state, reason := reason, rule := rule);
      var starts := previous.state != Working && current.state == Working;
      s.(store := s.store[id := current],
         monitoring := s.monitoring[id := e.(
           record := current,
           revision := if starts then e.revision + 1 else e.revision,
           lastWorkingAt := if starts then at else e.lastWorkingAt)])
  }

  function ApplyDetection(s: System, id: Id, d: Detection, at: int): System
    requires id in s.monitoring && d.Detection?
  {
    UpdateState(s, id, d.state, d.reason, d.rule, at)
  }

  predicate IsPending(e: Entry) {
    e.idleTimer.Some? || e.deadline.Some?
  }

  /** Idle without a visible idle marker: it must be confirmed when it follows Working. */
  predicate IsPlainIdle(d: Detection) {
    d.Detection? && !d.skip && d.state == Idle && !d.visibleIdle
  }

  function StartCandidate(s: System, id: Id): System
    requires id in s.monitoring
  {
    var e := s.monitoring[id];
    if IsPending(e) then s
    else
      var e1 := e.(confirmations := 0, idleToken := e.idleToken + 1,
                   idleTimer := Some(s.nextTimer), deadline := Some(s.nextTimer + 1));
      Put(Arm(Arm(s, Confirm(id, e.token, e.idleToken + 1)), Deadline(id, e.token, e.idleToken + 1)), id, e1)
  }

  function Evaluate(s: System, d: Detector, id: Id, at: int): System
    requires id in s.monitoring
  {
    var e := s.monitoring[id];
    var found := d.detect(e.record.kind, e.input);
    if found.NotDetected? || found.skip then Put(s, id, CancelIdle(e))
    else if e.record.state == Working && IsPlainIdle(found) then StartCandidate(s, id)
    else ApplyDetection(Put(s, id, CancelIdle(e)), id, found, at)
  }

  // ---------- The sections ----------

  /** `stored` is the record that the store had for this agent. */
  function Start(s: System, stored: Record): System {
    s.(nextToken := s.nextToken + 1,
       monitoring := s.monitoring[stored.id :=
         Entry(stored, s.nextToken + 1, 0, NO_INPUT, false, 0, 0, 0, None, 0, 0, None, None)])
  }

  function Stop(s: System, id: Id): System {
    s.(monitoring := s.monitoring - {id})
  }

  function PaneOpened(s: System, r: Record, generation: nat): System {
    if generation == 0 || r.id !in s.monitoring || !SameRecord(s.monitoring[r.id], r)
       || generation <= s.monitoring[r.id].generation then s
    else
      var e := ForgetObservations(StopTimers(s.monitoring[r.id])).(
        token := s.nextToken + 1, generation := generation, grace := Some(s.nextTimer));
      Put(Arm(s.(nextToken := s.nextToken + 1), GraceOver(r.id, e.token)), r.id, e)
  }

  function PaneOutput(s: System, d: Detector, r: Record, generation: nat, text: string, at: int): System {
    if !Observes(s, r, generation) then s
    else
      var e := s.monitoring[r.id];
      var e1 := e.(input := e.input.(screen := text), hasInput := true, observedAt := at);
      var s1 := Put(s, r.id, e1);
      if e1.grace.Some? then s1 else Evaluate(s1, d, r.id, at)
  }

  function PaneMetadata(s: System, d: Detector, r: Record, generation: nat, title: Option<string>, at: int): System {
    if !Observes(s, r, generation) then s
    else
      var e := s.monitoring[r.id];
      var active := if title.Some? && d.isActiveTitle(r.kind, title.value) then title.value else "";
      var e1 := e.(input := e.input.(title := active), hasInput := e.hasInput || active != "");
      var s1 := Put(s, r.id, e1);
      if e1.grace.None? && e1.hasInput then Evaluate(s1, d, r.id, at) else s1
  }

  function PaneClosed(s: System, r: Record, generation: nat): System {
    if !Observes(s, r, generation) then s else Stop(s, r.id)
  }

  function PaneError(s: System, r: Record, generation: nat, reason: string, at: int): System {
    if !Observes(s, r, generation) then s
    else
      var e := ForgetObservations(StopTimers(s.monitoring[r.id])).(token := s.nextToken + 1);
      UpdateState(Put(s.(nextToken := s.nextToken + 1), r.id, e), r.id, Unknown, reason, "", at)
  }

  function Close(s: System): System {
    s.(monitoring := map[])
  }

  // ---------- Callbacks ----------

  function FinishGrace(s: System, d: Detector, id: Id, token: nat, at: int): System {
    if id !in s.monitoring || s.monitoring[id].token != token then s
    else
      var s1 := Put(s, id, s.monitoring[id].(grace := None));
      if s.monitoring[id].hasInput then Evaluate(s1, d, id, at) else s1
  }

  function ConfirmIdle(s: System, d: Detector, id: Id, token: nat, idleToken: nat, at: int): System {
    if id !in s.monitoring || s.monitoring[id].token != token || s.monitoring[id].idleToken != idleToken
       || s.monitoring[id].idleTimer.None? then s
    else
      var e := s.monitoring[id].(idleTimer := None);
      var found := d.detect(e.record.kind, e.input);
      if found.NotDetected? || found.skip then Put(s, id, CancelIdle(e))
      else if found.state != Idle || found.visibleIdle then ApplyDetection(Put(s, id, CancelIdle(e)), id, found, at)
      else
        var e1 := e.(confirmations := e.confirmations + 1);
        if e1.confirmations >= IDLE_CONFIRMATIONS then ApplyDetection(Put(s, id, CancelIdle(e1)), id, found, at)
        else Put(Arm(s, Confirm(id, token, idleToken)), id, e1.(idleTimer := Some(s.nextTimer)))
  }

  function FinishDeadline(s: System, d: Detector, id: Id, token: nat, idleToken: nat, at: int): System {
    if id !in s.monitoring || s.monitoring[id].token != token || s.monitoring[id].idleToken != idleToken
       || s.monitoring[id].deadline.None? then s
    else
      var e := s.monitoring[id].(deadline := None);
      var found := d.detect(e.record.kind, e.input);
      if found.NotDetected? || found.skip then Put(s, id, CancelIdle(e))
      else ApplyDetection(Put(s, id, CancelIdle(e)), id, found, at)
  }

  /** One armed callback runs, once, whether or not it was stopped. */
  function Fire(s: System, d: Detector, t: TimerId, at: int): System
    requires t in s.timers
  {
    var s1 := s.(timers := s.timers - {t});
    match s.timers[t]
    case GraceOver(id, token) => FinishGrace(s1, d, id, token, at)
    case Confirm(id, token, idleToken) => ConfirmIdle(s1, d, id, token, idleToken, at)
    case Deadline(id, token, idleToken) => FinishDeadline(s1, d, id, token, idleToken, at)
  }

  // ---------- Runs ----------

  /** A record is looked up before the lock is taken, so it may be outdated; `RecordCreated`
      and `RecordDeleted` are other users of the store. */
  datatype Event =
    | Started(stored: Record)
    | Stopped(id: Id)
    | Opened(record: Record, generation: nat)
    | Output(record: Record, generation: nat, text: string, at: int)
    | Metadata(record: Record, generation: nat, title: Option<string>, at: int)
    | Closed(record: Record, generation: nat)
    | Failed(record: Record, generation: nat, reason: string, at: int)
    | Fired(timer: TimerId, at: int)
    | Shutdown
    | RecordCreated(record: Record)
    | RecordDeleted(id: Id)

  predicate CanHappen(s: System, ev: Event) {
    match ev
    case Fired(t, _) => t in s.timers
    case RecordCreated(r) => r.id !in s.store
    case _ => true
  }

  function Next(s: System, d: Detector, ev: Event): System
    requires CanHappen(s, ev)
  {
    match ev
    case Started(stored) => Start(s, stored)
    case Stopped(id) => Stop(s, id)
    case Opened(r, g) => PaneOpened(s, r, g)
    case Output(r, g, text, at) => PaneOutput(s, d, r, g, text, at)
    case Metadata(r, g, title, at) => PaneMetadata(s, d, r, g, title, at)
    case Closed(r, g) => PaneClosed(s, r, g)
    case Failed(r, g, reason, at) => PaneError(s, r, g, reason, at)
    case Fired(t, at) => Fire(s, d, t, at)
    case Shutdown => Close(s)
    case RecordCreated(r) => s.(store := s.store[r.id := r])
    case RecordDeleted(id) => s.(store := s.store - {id})
  }

  /** `states` are the states of a run that starts empty and makes the events `evs`. */
  ghost predicate IsRun(d: Detector, states: seq<System>, evs: seq<Event>) {
    && |states| == |evs| + 1 && states[0] == EMPTY
    && forall k :: 0 <= k < |evs| ==> CanHappen(states[k], evs[k]) && states[k + 1] == Next(states[k], d, evs[k])
  }
}
