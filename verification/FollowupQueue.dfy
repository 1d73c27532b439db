/** One agent's durable queue of follow-up instructions: its state, the calls it
    makes to the outside, and what every operation does to both.

    An operation holds the queue's lock from start to end, but the daemon may die
    between any two of its outside calls. So each operation is described by a `Piece`:
    the state it leaves and the list of its outside calls, in order. */
module FollowupQueue {
  import opened Basics

  type Id = string

  datatype ItemState = Queued | Sending | Sent | NeedsAttention | Canceled

  datatype Phase = Ready | Delivering | AwaitingWork | Working | Attention

  /** Why a queue is held; the original shows these as text. */
  datatype Reason =
    | NoReason
    | DaemonRestarted
    | TargetUnavailable
    | MonitorRestarted
    | WorkNotStarted
    | WaitingForReady
    | DraftInPrompt(text: string)
    | DeliveryInProgress
    | ClaimNotSaved
    | InputChanged
    | DeliveryUncertain
    | ConfirmingWorkStart
    | ResultNotSaved
    | DeliveryConfirmed
    | DeliveryExcluded

  datatype Item = Item(id: Id, requestId: string, text: string, state: ItemState, error: Reason)

  /** The agent, pane and ownership token that a queue belongs to. */
  datatype Target = Target(agent: Id, pane: string, token: string)

  datatype Queue = Queue(
    target: Target,
    paused: bool,
    reason: Reason,
    phase: Phase,
    active: Id,
    items: seq<Item>,
    attemptedAt: int,
    baseline: nat,
    epoch: nat)

  /** What the agent monitor and the runtime report about the agent. */
  datatype Observation = Observation(
    target: Target,
    running: bool,
    ready: bool,
    reason: string,
    epoch: nat,
    revision: nat,
    observedAt: int,
    lastWorkingAt: int)

  /** `Committed`: the save was acknowledged. `Uncertain`: it joined the writer's FIFO
      but the wait failed, so it may commit later. `Rejected`: it never joined. */
  datatype SaveOutcome = Committed | Uncertain | Rejected

  /** `NotReady` is the adapter's promise that no external input was attempted. */
  datatype SendOutcome = Delivered | NotReady | Failed

  /** The calls to the outside. `Reloaded(k)` is a restart that finds the first `k` of
      the saves in the database. `Settled` and `Resumed` are accepted operator decisions. */
  datatype Event =
    | Saved(queue: Queue)
    | Acknowledged
    | Observed(observation: Observation)
    | Send(index: nat, id: Id, text: string, at: int, basis: Observation, outcome: SendOutcome)
    | Settled(id: Id)
    | Resumed
    | Reloaded(k: nat)

  /** The in-memory entry: its queue, and whether that still has to be saved. */
  datatype Entry = Entry(queue: Queue, dirty: bool)

  /** A stretch of an operation: the entry it leaves, its outside calls, and whether the
      operation goes on after it. */
  datatype Piece = Piece(entry: Entry, calls: seq<Event>, goesOn: bool)

  function After(calls: seq<Event>, p: Piece): Piece {
    Piece(p.entry, calls + p.calls, p.goesOn)
  }

  // ---------- Items ----------

  predicate IsPending(s: ItemState) {
    s == Queued || s == Sending || s == NeedsAttention
  }

  function PendingCount(items: seq<Item>): nat {
    if items == [] then 0
    else PendingCount(items[..|items| - 1]) + if IsPending(items[|items| - 1].state) then 1 else 0
  }

  /** The first position from `from` on that satisfies `p`, or -1. */
  function FirstFrom(items: seq<Item>, p: Item -> bool, from: nat): (r: int)
    requires from <= |items|
    ensures -1 <= r < |items|
    ensures r >= 0 ==> from <= r && p(items[r]) && forall i :: from <= i < r ==> !p(items[i])
    ensures r < 0 ==> forall i :: from <= i < |items| ==> !p(items[i])
    decreases |items| - from
  {
    if from == |items| then -1 else if p(items[from]) then from else FirstFrom(items, p, from + 1)
  }

  function IndexOf(items: seq<Item>, id: Id): (r: int)
    ensures -1 <= r < |items|
    ensures r >= 0 ==> items[r].id == id
    ensures forall i :: 0 <= i < (if r < 0 then |items| else r) ==> items[i].id != id
  {
    FirstFrom(items, (i: Item) => i.id == id, 0)
  }

  function FirstQueued(items: seq<Item>): (r: int)
    ensures -1 <= r < |items|
    ensures r >= 0 ==> items[r].state == Queued
    ensures forall i :: 0 <= i < (if r < 0 then |items| else r) ==> items[i].state != Queued
  {
    FirstFrom(items, (i: Item) => i.state == Queued, 0)
  }

  function Ids(items: seq<Item>): seq<Id> {
    seq(|items|, i requires 0 <= i < |items| => items[i].id)
  }

  function MarkActive(items: seq<Item>, active: Id, reason: Reason): seq<Item> {
    seq(|items|, i requires 0 <= i < |items| =>
      if items[i].id == active then items[i].(state := NeedsAttention, error := reason) else items[i])
  }

  predicate IsSpace(c: char) {
    || '\t' <= c <= '\r' || c == ' ' || c == '\U{85}' || c == '\U{A0}' || c == '\U{1680}'
    || '\U{2000}' <= c <= '\U{200A}' || c == '\U{2028}' || c == '\U{2029}' || c == '\U{202F}'
    || c == '\U{205F}' || c == '\U{3000}'
  }

  function Utf8Length(text: string): nat {
    if text == "" then 0
    else (if text[0] < '\U{80}' then 1 else if text[0] < '\U{800}' then 2
          else if text[0] < '\U{10000}' then 3 else 4) + Utf8Length(text[1..])
  }

  predicate ValidText(text: string) {
    (exists i :: 0 <= i < |text| && !IsSpace(text[i])) && Utf8Length(text) <= 64 * 1024
  }

  // ---------- Saving and holding ----------

  function Save(e: Entry, out: SaveOutcome): Piece {
    match out
    case Committed => Piece(e.(dirty := false), [Saved(e.queue), Acknowledged], true)
    case Uncertain => Piece(e.(dirty := true), [Saved(e.queue)], false)
    case Rejected => Piece(e.(dirty := true), [], false)
  }

  function Attend(q: Queue, reason: Reason): Queue {
    q.(phase := Attention, paused := true, reason := reason, items := MarkActive(q.items, q.active, reason))
  }

  function AttendAndSave(e: Entry, reason: Reason, out: SaveOutcome): Piece {
    Save(e.(queue := Attend(e.queue, reason)), out).(goesOn := false)
  }

  predicate NeedsRecovery(q: Queue) {
    q.active != "" || q.phase == AwaitingWork || q.phase == Working || q.phase == Delivering
  }

  /** What a restart makes of a stored queue. */
  function Recover(q: Queue): Queue {
    if NeedsRecovery(q) then Attend(q, DaemonRestarted) else q
  }

  /** Loading one stored queue: an outstanding delivery is put on hold, and that decision
      is saved. The start fails, `goesOn == false`, when this save does. */
  function Load(q: Queue, out: SaveOutcome): Piece {
    var e := Entry(Recover(q), false);
    if NeedsRecovery(q) then Save(e, out) else Piece(e, [], true)
  }

  // ---------- One scan of the queue ----------

  /** All that one scan gets from the outside: the clock, the observations, the outcomes
      of its saves and of its send. Each run uses only the fields it reaches. */
  datatype Scan = Scan(
    flush: SaveOutcome,
    first: Option<Observation>,
    timeout: int,
    checkedAt: int,
    progress: SaveOutcome,
    settle: SaveOutcome,
    claimedAt: int,
    claim: SaveOutcome,
    recheck: Option<Observation>,
    sentAt: int,
    sending: SendOutcome,
    result: SaveOutcome)

  function Step(e: Entry, s: Scan): Piece {
    if e.dirty then
      var p := Save(e, s.flush);
      if p.goesOn then After(p.calls, StepClean(p.entry, s)) else p
    else StepClean(e, s)
  }

  function StepClean(e: Entry, s: Scan): Piece {
    if e.queue.phase == Attention || (PendingCount(e.queue.items) == 0 && e.queue.active == "") then
      Piece(e, [], false)
    else match s.first
      case None => LoseTarget(e, s)
      case Some(o) =>
        After([Observed(o)],
              if !o.running || o.target != e.queue.target then LoseTarget(e, s) else StepObserved(e, o, s))
  }

  function LoseTarget(e: Entry, s: Scan): Piece {
    var e1 := e.(queue := e.queue.(reason := TargetUnavailable));
    if e.queue.active != "" then AttendAndSave(e1, TargetUnavailable, s.settle) else Piece(e1, [], false)
  }

  function StepObserved(e: Entry, o: Observation, s: Scan): Piece {
    if e.queue.active == "" then Dispatch(e, o, s)
    else
      var p := SettleActive(e, o, s);
      if p.goesOn then After(p.calls, Dispatch(p.entry, o, s)) else p
  }

  /** Working evidence: counted after the baseline and not before the attempt. */
  predicate ShowsWork(q: Queue, o: Observation) {
    o.revision > q.baseline && o.lastWorkingAt >= q.attemptedAt
  }

  function SettleActive(e: Entry, o: Observation, s: Scan): Piece {
    if o.epoch != e.queue.epoch then AttendAndSave(e, MonitorRestarted, s.settle)
    else if ShowsWork(e.queue, o) && e.queue.phase != Working then
      var p := Save(e.(queue := e.queue.(phase := Working)), s.progress);
      if p.goesOn then After(p.calls, ReleaseFinished(p.entry, o, s)) else p
    else ReleaseFinished(e, o, s)
  }

  function ReleaseFinished(e: Entry, o: Observation, s: Scan): Piece {
    if e.queue.phase == AwaitingWork && s.checkedAt - e.queue.attemptedAt >= s.timeout then
      AttendAndSave(e, WorkNotStarted, s.settle)
    else if e.queue.phase != Working || !o.ready || !(o.observedAt > o.lastWorkingAt) then
      Piece(e, [], false)
    else
      Save(e.(queue := e.queue.(active := "", phase := Ready, reason := NoReason)), s.settle)
  }

  function Dispatch(e: Entry, o: Observation, s: Scan): Piece {
    if e.queue.paused then Piece(e, [], false)
    else if !o.ready then
      Piece(e.(queue := e.queue.(reason := if o.reason != "" then DraftInPrompt(o.reason) else WaitingForReady)),
            [], false)
    else
      var index := FirstQueued(e.queue.items);
      if index < 0 then Piece(e.(queue := e.queue.(reason := NoReason)), [], false)
      else Claim(e, index, o, s)
  }

  function ClaimedQueue(q: Queue, index: nat, o: Observation, at: int): Queue
    requires index < |q.items|
  {
    q.(active := q.items[index].id, phase := Delivering,
       items := q.items[index := q.items[index].(state := Sending)],
       attemptedAt := at, baseline := o.revision, epoch := o.epoch, reason := DeliveryInProgress)
  }

  function Claim(e: Entry, index: nat, o: Observation, s: Scan): Piece
    requires index < |e.queue.items|
  {
    var p := Save(e.(queue := ClaimedQueue(e.queue, index, o, s.claimedAt)), s.claim);
    if p.goesOn then After(p.calls, Recheck(p.entry, index, o, s))
    else Piece(Entry(Attend(p.entry.queue, ClaimNotSaved), true), p.calls, false)
  }

  predicate StillReady(q: Queue, o: Observation, later: Observation) {
    later.ready && later.running && later.target == q.target && later.epoch == o.epoch && later.revision == o.revision
  }

  function Recheck(e: Entry, index: nat, o: Observation, s: Scan): Piece
    requires index < |e.queue.items|
  {
    match s.recheck
    case None => Unclaim(e, index, s)
    case Some(later) =>
      After([Observed(later)],
            if StillReady(e.queue, o, later) then Deliver(e, index, later, s) else Unclaim(e, index, s))
  }

  function Unclaim(e: Entry, index: nat, s: Scan): Piece
    requires index < |e.queue.items|
  {
    Save(e.(queue := e.queue.(items := e.queue.items[index := e.queue.items[index].(state := Queued)],
                              active := "", phase := Ready, reason := InputChanged)), s.result).(goesOn := false)
  }

  function SendCall(e: Entry, index: nat, later: Observation, s: Scan): Event
    requires index < |e.queue.items|
  {
    Send(index, e.queue.items[index].id, e.queue.items[index].text, s.sentAt, later, s.sending)
  }

  function Deliver(e: Entry, index: nat, later: Observation, s: Scan): Piece
    requires index < |e.queue.items|
  {
    var e1 := e.(queue := e.queue.(attemptedAt := s.sentAt));
    After([SendCall(e, index, later, s)],
          match s.sending
          case NotReady => Unclaim(e1, index, s)
          case Failed => AttendAndSave(e1, DeliveryUncertain, s.result)
          case Delivered => Record(e1, index, s))
  }

  function Record(e: Entry, index: nat, s: Scan): Piece
    requires index < |e.queue.items|
  {
    var p := Save(e.(queue := e.queue.(items := e.queue.items[index := e.queue.items[index].(state := Sent)],
                                       phase := AwaitingWork, reason := ConfirmingWorkStart)), s.result);
    if p.goesOn then p.(goesOn := false)
    else Piece(Entry(Attend(p.entry.queue, ResultNotSaved), true), p.calls, false)
  }

  // ---------- Edits by the operator ----------

  datatype Action = Add | Edit | Cancel | Resolve | Pause | Resume | Unknown

  datatype Request = Request(action: Action, itemId: Id, text: string, requestId: string)

  /** What one edit gets from the outside: an observation of the agent when there is no
      queue yet, a new item ID, and the outcome of its save. */
  datatype EditInput = EditInput(observed: Option<Observation>, newId: Id, save: SaveOutcome)

  datatype Reply = Accepted | Invalid | NotFound | Conflict | Unobservable | NotSaved

  datatype Reaction = Reaction(entry: Option<Entry>, calls: seq<Event>, reply: Reply)

  const MAX_PENDING := 100

  function NewQueue(t: Target): Queue {
    Queue(t, false, NoReason, Ready, "", [], 0, 0, 0)
  }

  function Update(mem: Option<Entry>, agent: Id, req: Request, input: EditInput): Reaction {
    match mem
    case Some(e) => UpdateEntry(e, req, input)
    case None =>
      if req.action != Add && req.action != Pause && req.action != Resume then Reaction(None, [], NotFound)
      else match input.observed
        case None => Reaction(None, [], Unobservable)
        case Some(o) =>
          if !o.running || o.target.agent != agent || o.target.pane == "" || o.target.token == "" then
            Reaction(None, [Observed(o)], Conflict)
          else
            var r := UpdateEntry(Entry(NewQueue(o.target), false), req, input);
            r.(calls := [Observed(o)] + r.calls)
  }

  function Finish(e: Entry, before: seq<Event>, out: SaveOutcome): Reaction {
    var p := Save(e, out);
    Reaction(Some(p.entry), before + p.calls, if p.goesOn then Accepted else NotSaved)
  }

  function Refuse(e: Entry, reply: Reply): Reaction {
    Reaction(Some(e), [], reply)
  }

  /** The first item added under a request ID, or -1. */
  function IndexOfRequest(items: seq<Item>, requestId: string): (r: int)
    ensures -1 <= r < |items|
    ensures r >= 0 ==> items[r].requestId == requestId
    ensures forall i :: 0 <= i < (if r < 0 then |items| else r) ==> items[i].requestId != requestId
  {
    FirstFrom(items, (i: Item) => i.requestId == requestId, 0)
  }

  function UpdateEntry(e: Entry, req: Request, input: EditInput): Reaction {
    match req.action
    case Add => AddItem(e, req, input)
    case Edit => EditItem(e, req, input)
    case Cancel =>
      var i := IndexOf(e.queue.items, req.itemId);
      if i >= 0 && e.queue.items[i].state == NeedsAttention && e.queue.active == e.queue.items[i].id then
        Close(e, i, Canceled, DeliveryExcluded, input)
      else EditItem(e, req, input)
    case Resolve =>
      var i := IndexOf(e.queue.items, req.itemId);
      if i < 0 then Refuse(e, NotFound)
      else if e.queue.items[i].state != NeedsAttention || e.queue.active != e.queue.items[i].id then
        Refuse(e, Conflict)
      else Close(e, i, Sent, DeliveryConfirmed, input)
    case Pause => Finish(e.(queue := e.queue.(paused := true)), [], input.save)
    case Resume =>
      if e.queue.phase == Attention then Refuse(e, Conflict)
      else Finish(e.(queue := e.queue.(paused := false, reason := NoReason)), [Resumed], input.save)
    case Unknown => Refuse(e, Invalid)
  }

  function AddItem(e: Entry, req: Request, input: EditInput): Reaction {
    var known := if req.requestId == "" then -1 else IndexOfRequest(e.queue.items, req.requestId);
    if known >= 0 then
      if e.queue.items[known].text != req.text then Refuse(e, Conflict)
      else if e.dirty then Finish(e, [], input.save)
      else Refuse(e, Accepted)
    else if !ValidText(req.text) || PendingCount(e.queue.items) >= MAX_PENDING then Refuse(e, Invalid)
    else
      Finish(e.(queue := e.queue.(items :=
        e.queue.items + [Item(input.newId, req.requestId, req.text, Queued, NoReason)])), [], input.save)
  }

  /** Edits or cancels an item that is still queued. */
  function EditItem(e: Entry, req: Request, input: EditInput): Reaction {
    var i := IndexOf(e.queue.items, req.itemId);
    if i < 0 then Refuse(e, NotFound)
    else if e.queue.items[i].state != Queued then Refuse(e, Conflict)
    else if req.action == Edit then
      if !ValidText(req.text) then Refuse(e, Invalid)
      else Finish(e.(queue := e.queue.(items :=
        e.queue.items[i := e.queue.items[i].(text := req.text)])), [], input.save)
    else Finish(e.(queue := e.queue.(items :=
      e.queue.items[i := e.queue.items[i].(state := Canceled)])), [], input.save)
  }

  /** The operator settles the uncertain delivery; the queue stays paused. */
  function Close(e: Entry, i: nat, state: ItemState, reason: Reason, input: EditInput): Reaction
    requires i < |e.queue.items|
  {
    Finish(e.(queue := e.queue.(items := e.queue.items[i := e.queue.items[i].(state := state, error := NoReason)],
                                active := "", phase := Ready, reason := reason, paused := true)),
           [Settled(e.queue.items[i].id)], input.save)
  }
}
