/** What the operator asked for is what the agent is sent, in every run. */
module FollowupTexts {
  import opened Basics
  import opened FollowupQueue
  import opened FollowupCoherence
  import opened FollowupDelivery
  import opened FollowupSteps
  import opened FollowupRuns
  import opened FollowupDecisions
  import opened FollowupEdits

  /** The operator's words by item ID: those in force now, and those that each save put away. */
  datatype Asked = Asked(now: map<Id, string>, saved: seq<map<Id, string>>)

  const NOTHING_ASKED := Asked(map[], [])

  /** The request adds an item. */
  ghost predicate Adds(mem: Option<Entry>, agent: Id, req: Request, input: EditInput) {
    && req.action == Add && ValidText(req.text)
    && (mem.None? ==> MaySetUp(agent, req, input))
    && (mem.Some? ==> NewRequest(mem.value.queue.items, req.requestId) && PendingCount(mem.value.queue.items) < 100)
  }

  /** The request rewords a queued item. */
  ghost predicate Rewords(mem: Option<Entry>, req: Request) {
    && req.action == Edit && ValidText(req.text) && mem.Some?
    && exists i: nat :: IsFirst(mem.value.queue.items, req.itemId, i) && mem.value.queue.items[i].state == Queued
  }

  ghost function Word(now: map<Id, string>, mem: Option<Entry>, agent: Id, req: Request, input: EditInput): map<Id, string> {
    if Adds(mem, agent, req, input) then now[input.newId := req.text]
    else if Rewords(mem, req) then now[req.itemId := req.text]
    else now
  }

  /** The words in force once the operation has changed its queue in memory. */
  ghost function WordBy(now: map<Id, string>, s: State, agent: Id, op: Op): map<Id, string>
    decreases op
  {
    match op
    case Editing(req, input) => if s.process.Up? then Word(now, s.process.entry, agent, req, input) else now
    case Dying(inner, _) => WordBy(now, s, agent, inner)
    case Scanning(_) => now
    case Restarting(_, _) => now
  }

  /** A save puts the words in force away, and a restart brings those of its save back. */
  ghost function Follow(a: Asked, ev: Event): Asked {
    match ev
    case Saved(_) => a.(saved := a.saved + [a.now])
    case Reloaded(k) => if k > |a.saved| then a else Asked(if k == 0 then map[] else a.saved[k - 1], a.saved[..k])
    case Acknowledged => a
    case Observed(_) => a
    case Send(_, _, _, _, _, _) => a
    case Settled(_) => a
    case Resumed => a
  }

  ghost function FollowAll(a: Asked, evs: seq<Event>): Asked
    decreases |evs|
  {
    if evs == [] then a else FollowAll(Follow(a, evs[0]), evs[1..])
  }

  ghost function Ask(a: Asked, s: State, agent: Id, op: Op): Asked {
    FollowAll(a.(now := WordBy(a.now, s, agent, op)), Perform(s, agent, op).calls)
  }

  /** What is asked for after a run: by item, the text of the last Add or Edit that took effect
      and was not lost in a restart. */
  ghost function AskedBy(a: Asked, s: State, agent: Id, ops: seq<Op>): Asked
    decreases |ops|
  {
    if ops == [] then a else AskedBy(Ask(a, s, agent, ops[0]), Next(s, agent, ops[0]), agent, ops[1..])
  }

  // ---------- The invariant ----------

  /** Every item has the text asked for. */
  ghost predicate Matches(q: Queue, now: map<Id, string>) {
    forall i :: 0 <= i < |q.items| ==> q.items[i].id in now && now[q.items[i].id] == q.items[i].text
  }

  ghost predicate LogMatches(log: seq<Queue>, a: Asked) {
    |a.saved| == |log| && forall k :: 0 <= k < |log| ==> Matches(log[k], a.saved[k])
  }

  ghost predicate TextsMatch(s: State, a: Asked) {
    && LogMatches(s.world.log, a)
    && (s.process.Up? && s.process.entry.Some? ==> Matches(s.process.entry.value.queue, a.now))
  }

  /** Every save among the calls has the texts asked for at its time. */
  ghost predicate CallsMatch(a: Asked, evs: seq<Event>)
    decreases |evs|
  {
    evs != [] ==> (evs[0].Saved? ==> Matches(evs[0].queue, a.now)) && CallsMatch(Follow(a, evs[0]), evs[1..])
  }

  lemma {:induction false} CallsKeep(a: Asked, w: World, evs: seq<Event>)
    requires CallsMatch(a, evs) && LogMatches(w.log, a)
    ensures LogMatches(ApplyAll(w, evs).log, FollowAll(a, evs))
    decreases |evs|
  {
    if evs != [] {
      CallsKeep(Follow(a, evs[0]), Apply(w, evs[0]), evs[1..]);
    }
  }

  lemma {:induction false} PrefixMatches(a: Asked, evs: seq<Event>, n: nat)
    requires CallsMatch(a, evs) && n <= |evs|
    ensures CallsMatch(a, evs[..n])
    decreases |evs|
  {
    if n > 0 {
      PrefixMatches(Follow(a, evs[0]), evs[1..], n - 1);
      assert evs[..n][1..] == evs[1..][..n - 1];
    }
  }

  /** Without a restart the words in force stay, and each save need only match them. */
  lemma {:induction false} PlainCalls(a: Asked, evs: seq<Event>)
    requires forall n :: 0 <= n < |evs| ==> !evs[n].Reloaded? && (evs[n].Saved? ==> Matches(evs[n].queue, a.now))
    ensures CallsMatch(a, evs) && FollowAll(a, evs).now == a.now
    decreases |evs|
  {
    if evs != [] {
      PlainCalls(Follow(a, evs[0]), evs[1..]);
    }
  }

  // ---------- Scans ----------

  /** The same items by ID and text. */
  ghost predicate SameTexts(q: Queue, q': Queue) {
    && |q'.items| == |q.items|
    && forall i :: 0 <= i < |q.items| ==> q'.items[i].id == q.items[i].id && q'.items[i].text == q.items[i].text
  }

  /** Every save among the calls has the texts of `q`. */
  ghost predicate KeepTexts(q: Queue, calls: seq<Event>) {
    forall n :: 0 <= n < |calls| ==> !calls[n].Reloaded? && (calls[n].Saved? ==> SameTexts(q, calls[n].queue))
  }

  lemma BeforeKeeps(e: Entry, s: Scan)
    ensures KeepTexts(e.queue, Opening(e, s)) && KeepTexts(e.queue, ProgressCalls(e.queue, s)) && KeepTexts(e.queue, FreeingCalls(e.queue, s))
  {
    hide LooksAtAgent, HasWorked;
  }

  lemma HoldKeeps(e: Entry, s: Scan, reason: Reason, out: SaveOutcome)
    requires Holds(e, s, e.queue, reason, out)
    ensures SameTexts(e.queue, Step(e, s).entry.queue) && KeepTexts(e.queue, Step(e, s).calls)
  {
    BeforeKeeps(e, s);
    hide Step, Opening;
  }

  /** A scan changes no text. */
  lemma ScanKeepsTexts(e: Entry, s: Scan)
    ensures SameTexts(e.queue, Step(e, s).entry.queue) && KeepTexts(e.queue, Step(e, s).calls)
  {
    BeforeKeeps(e, s);
    hide Step, Opening, LooksAtAgent, FreeingCalls, ProgressCalls, HasWorked;
    if Claims(e, s) {
      ScanClaims(e, s);
      ClaimKeepsTexts(Freed(e.queue), FirstQueued(e.queue.items), s, Step(e, s).entry);
      hide Ends, CallsAfterClaim, ClaimOf;
    } else if IsFree(e, s) {
      ScanWithoutClaim(e, s);
    } else if SeesTarget(e, s) {
      ScanWhileActive(e, s);
      ActiveKeeps(e, s);
    } else if LooksAtAgent(e, s) {
      ScanWithoutTarget(e, s);
      if e.queue.active != "" {
        HoldKeeps(e, s, TargetUnavailable, s.settle);
      }
    } else {
      ScanRests(e, s);
    }
  }

  lemma ActiveKeeps(e: Entry, s: Scan)
    requires SeesTarget(e, s) && e.queue.active != "" && !IsFree(e, s)
    ensures SameTexts(e.queue, Step(e, s).entry.queue) && KeepTexts(e.queue, Step(e, s).calls)
  {
    BeforeKeeps(e, s);
    ScanWhileActive(e, s);
    var q, o := e.queue, s.first.value;
    hide Step, Opening, LooksAtAgent, FreeingCalls, ProgressCalls, Holds;
    if o.epoch != q.epoch {
      HoldKeeps(e, s, MonitorRestarted, s.settle);
    } else if OutOfTime(q, o, s) {
      HoldKeeps(e, s, WorkNotStarted, s.settle);
    }
  }

  lemma ClaimKeepsTexts(q: Queue, i: nat, s: Scan, end: Entry)
    requires i < |q.items| && s.first.Some? && Ends(q, i, s, end)
    ensures SameTexts(q, end.queue) && KeepTexts(q, SavedAs(ClaimOf(q, i, s), s.claim))
    ensures KeepTexts(q, CallsAfterClaim(q, i, s, end.queue))
  {
    hide SeenAgain;
  }

  lemma {:induction false} InSendsOf(calls: seq<Event>, n: nat)
    requires n < |calls| && calls[n].Send?
    ensures calls[n] in SendsOf(calls)
    decreases n
  {
    if n > 0 {
      InSendsOf(calls[1..], n - 1);
    }
  }

  // ---------- Edits ----------

  ghost predicate SavesMatch(calls: seq<Event>, now: map<Id, string>) {
    forall n :: 0 <= n < |calls| ==>
      !calls[n].Reloaded? && !calls[n].Send? && (calls[n].Saved? ==> Matches(calls[n].queue, now))
  }

  lemma MakesMatch(mem: Option<Entry>, agent: Id, req: Request, input: EditInput, q: Queue, decision: seq<Event>, now: map<Id, string>)
    requires Makes(mem, agent, req, input, q, decision) && Matches(q, now) && SavesMatch(decision, now)
    ensures var r := Update(mem, agent, req, input);
      r.entry.Some? && Matches(r.entry.value.queue, now) && SavesMatch(r.calls, now)
  {
    hide Update, Matches;
  }

  lemma DeclinesMatch(mem: Option<Entry>, agent: Id, req: Request, input: EditInput, e: Entry, reply: Reply, now: map<Id, string>)
    requires Declines(mem, agent, req, input, e, reply) && Matches(e.queue, now)
    ensures var r := Update(mem, agent, req, input);
      r.entry.Some? && Matches(r.entry.value.queue, now) && SavesMatch(r.calls, now)
  {
    hide Update, Matches;
  }

  lemma EditMatches(e: Entry, agent: Id, req: Request, input: EditInput, mem: Option<Entry>, now: map<Id, string>)
    requires WorksOn(mem, agent, req, input, e) && UniqueIds(e.queue.items) && Matches(e.queue, now)
    requires forall i :: 0 <= i < |e.queue.items| ==> e.queue.items[i].id != input.newId
    ensures var r, now' := Update(mem, agent, req, input), Word(now, mem, agent, req, input);
      r.entry.Some? && Matches(r.entry.value.queue, now') && SavesMatch(r.calls, now')
  {
    hide Update, Makes, Declines, ValidText, PendingCount, NewRequest;
    match req.action {
      case Add => AddMatches(e, agent, req, input, mem, now);
      case Edit => RewordMatches(e, agent, req, input, now);
      case Cancel => SettleMatches(e, agent, req, input, now);
      case Resolve => SettleMatches(e, agent, req, input, now);
      case Pause =>
        Pausing(mem, agent, req, input, e);
        MakesMatch(mem, agent, req, input, e.queue.(paused := true), [], now);
      case Resume =>
        Pausing(mem, agent, req, input, e);
        if e.queue.phase == Attention {
          DeclinesMatch(mem, agent, req, input, e, Conflict, now);
        } else {
          MakesMatch(mem, agent, req, input, e.queue.(paused := false, reason := NoReason), [Resumed], now);
        }
      case Unknown =>
        Pausing(mem, agent, req, input, e);
        DeclinesMatch(mem, agent, req, input, e, Invalid, now);
    }
  }

  lemma AddMatches(e: Entry, agent: Id, req: Request, input: EditInput, mem: Option<Entry>, now: map<Id, string>)
    requires WorksOn(mem, agent, req, input, e) && Matches(e.queue, now) && req.action == Add
    requires forall i :: 0 <= i < |e.queue.items| ==> e.queue.items[i].id != input.newId
    ensures var r, now' := Update(mem, agent, req, input), Word(now, mem, agent, req, input);
      r.entry.Some? && Matches(r.entry.value.queue, now') && SavesMatch(r.calls, now')
  {
    var q, now' := e.queue, Word(now, mem, agent, req, input);
    Adding(mem, agent, req, input, e);
    assert Adds(mem, agent, req, input) <==> NewRequest(q.items, req.requestId) && ValidText(req.text) && PendingCount(q.items) < 100;
    hide Update, ValidText, PendingCount, Makes, Declines, WorksOn, Adds;
    if NewRequest(q.items, req.requestId) {
      if Adds(mem, agent, req, input) {
        MakesMatch(mem, agent, req, input, q.(items := q.items + [Item(input.newId, req.requestId, req.text, Queued, NoReason)]), [], now');
      } else {
        DeclinesMatch(mem, agent, req, input, e, Invalid, now');
      }
    } else {
      var i := IndexOfRequest(q.items, req.requestId);
      assert KnownRequest(q.items, req.requestId, i);
      if q.items[i].text != req.text {
        DeclinesMatch(mem, agent, req, input, e, Conflict, now');
      } else if e.dirty {
        MakesMatch(mem, agent, req, input, q, [], now');
      } else {
        DeclinesMatch(mem, agent, req, input, e, Accepted, now');
      }
    }
  }

  lemma RewordMatches(e: Entry, agent: Id, req: Request, input: EditInput, now: map<Id, string>)
    requires UniqueIds(e.queue.items) && Matches(e.queue, now) && req.action == Edit
    ensures var r, now' := Update(Some(e), agent, req, input), Word(now, Some(e), agent, req, input);
      r.entry.Some? && Matches(r.entry.value.queue, now') && SavesMatch(r.calls, now')
  {
    var q, now' := e.queue, Word(now, Some(e), agent, req, input);
    Rewording(Some(e), agent, req, input, e);
    FoundFirst(q.items, req.itemId);
    var i := IndexOf(q.items, req.itemId);
    hide Update, ValidText, Makes, Declines, IndexOf;
    if i < 0 {
      DeclinesMatch(Some(e), agent, req, input, e, NotFound, now');
    } else if q.items[i].state != Queued {
      DeclinesMatch(Some(e), agent, req, input, e, Conflict, now');
    } else if !ValidText(req.text) {
      DeclinesMatch(Some(e), agent, req, input, e, Invalid, now');
    } else {
      MakesMatch(Some(e), agent, req, input, q.(items := q.items[i := q.items[i].(text := req.text)]), [], now');
    }
  }

  lemma SettleMatches(e: Entry, agent: Id, req: Request, input: EditInput, now: map<Id, string>)
    requires Matches(e.queue, now) && (req.action == Cancel || req.action == Resolve)
    ensures var r := Update(Some(e), agent, req, input);
      r.entry.Some? && Matches(r.entry.value.queue, now) && SavesMatch(r.calls, now)
  {
    var q := e.queue;
    FoundFirst(q.items, req.itemId);
    var i := IndexOf(q.items, req.itemId);
    if req.action == Cancel {
      Canceling(Some(e), agent, req, input, e);
    } else {
      Resolving(Some(e), agent, req, input, e);
    }
    hide Update, Makes, Declines, IndexOf;
    if i < 0 {
      DeclinesMatch(Some(e), agent, req, input, e, NotFound, now);
    } else if IsHeld(q, i) {
      var state := if req.action == Cancel then Canceled else Sent;
      var reason := if req.action == Cancel then DeliveryExcluded else DeliveryConfirmed;
      MakesMatch(Some(e), agent, req, input,
        q.(items := q.items[i := q.items[i].(state := state, error := NoReason)],
           active := "", phase := Ready, reason := reason, paused := true), [Settled(req.itemId)], now);
    } else if req.action == Resolve || q.items[i].state != Queued {
      DeclinesMatch(Some(e), agent, req, input, e, Conflict, now);
    } else {
      MakesMatch(Some(e), agent, req, input, q.(items := q.items[i := q.items[i].(state := Canceled)]), [], now);
    }
  }

  // ---------- Runs ----------

  lemma ScanFollows(s: State, agent: Id, scan: Scan, a: Asked)
    requires TextsMatch(s, a)
    ensures CallsMatch(a, Perform(s, agent, Scanning(scan)).calls)
    ensures var p := Perform(s, agent, Scanning(scan)).process;
      p.Up? && p.entry.Some? ==> Matches(p.entry.value.queue, Ask(a, s, agent, Scanning(scan)).now)
  {
    var calls := Perform(s, agent, Scanning(scan)).calls;
    if s.process.Up? && s.process.entry.Some? {
      ScanKeepsTexts(s.process.entry.value, scan);
    }
    PlainCalls(a, calls);
  }

  lemma EditFollows(s: State, agent: Id, req: Request, input: EditInput, a: Asked)
    requires Inv(s) && Legal(s, agent, Editing(req, input)) && TextsMatch(s, a)
    ensures CallsMatch(a.(now := WordBy(a.now, s, agent, Editing(req, input))), Perform(s, agent, Editing(req, input)).calls)
    ensures var p := Perform(s, agent, Editing(req, input)).process;
      p.Up? && p.entry.Some? ==> Matches(p.entry.value.queue, Ask(a, s, agent, Editing(req, input)).now)
    ensures forall n :: 0 <= n < |Perform(s, agent, Editing(req, input)).calls| ==>
      !Perform(s, agent, Editing(req, input)).calls[n].Send?
  {
    var calls := Perform(s, agent, Editing(req, input)).calls;
    var now' := WordBy(a.now, s, agent, Editing(req, input));
    if s.process.Up? {
      if s.process.entry.Some? {
        EditMatches(s.process.entry.value, agent, req, input, s.process.entry, a.now);
      } else if MaySetUp(agent, req, input) {
        EditMatches(Entry(NewQueue(input.observed.value.target), false), agent, req, input, None, a.now);
      } else {
        CannotSetUp(agent, req, input);
      }
    }
    PlainCalls(a.(now := now'), calls);
  }

  lemma RestartFollows(s: State, agent: Id, k: nat, save: SaveOutcome, a: Asked)
    requires Legal(s, agent, Restarting(k, save)) && TextsMatch(s, a)
    ensures CallsMatch(a, Perform(s, agent, Restarting(k, save)).calls)
    ensures var p := Perform(s, agent, Restarting(k, save)).process;
      p.Up? && p.entry.Some? ==> Matches(p.entry.value.queue, Ask(a, s, agent, Restarting(k, save)).now)
  {
    var calls := Perform(s, agent, Restarting(k, save)).calls;
    if k > 0 {
      PlainCalls(Follow(a, Reloaded(k)), calls[1..]);
    }
  }

  lemma PerformFollows(s: State, agent: Id, op: Op, a: Asked)
    requires Inv(s) && Legal(s, agent, op) && TextsMatch(s, a)
    ensures CallsMatch(a.(now := WordBy(a.now, s, agent, op)), Perform(s, agent, op).calls)
    ensures var p := Perform(s, agent, op).process;
      p.Up? && p.entry.Some? ==> Matches(p.entry.value.queue, Ask(a, s, agent, op).now)
    decreases op
  {
    match op {
      case Scanning(scan) => ScanFollows(s, agent, scan, a);
      case Editing(req, input) => EditFollows(s, agent, req, input, a);
      case Restarting(k, save) => RestartFollows(s, agent, k, save, a);
      case Dying(inner, cut) =>
        PerformFollows(s, agent, inner, a);
        PrefixMatches(a.(now := WordBy(a.now, s, agent, inner)), Perform(s, agent, inner).calls, cut);
    }
  }

  lemma NextFollows(s: State, agent: Id, op: Op, a: Asked)
    requires Inv(s) && Legal(s, agent, op) && TextsMatch(s, a)
    ensures TextsMatch(Next(s, agent, op), Ask(a, s, agent, op))
  {
    PerformFollows(s, agent, op, a);
    CallsKeep(a.(now := WordBy(a.now, s, agent, op)), s.world, Perform(s, agent, op).calls);
  }

  lemma {:induction false} RunFollows(s: State, agent: Id, ops: seq<Op>, a: Asked)
    requires Inv(s) && LegalRun(s, agent, ops) && TextsMatch(s, a)
    ensures TextsMatch(Run(s, agent, ops), AskedBy(a, s, agent, ops))
    decreases |ops|
  {
    if ops != [] {
      NextFollows(s, agent, ops[0], a);
      NextKeeps(s, agent, ops[0]);
      RunFollows(Next(s, agent, ops[0]), agent, ops[1..], Ask(a, s, agent, ops[0]));
    }
  }

  lemma SentWords(s: State, agent: Id, op: Op, a: Asked, n: nat)
    requires Inv(s) && Legal(s, agent, op) && TextsMatch(s, a)
    requires n < |Perform(s, agent, op).calls| && Perform(s, agent, op).calls[n].Send?
    ensures var ev := Perform(s, agent, op).calls[n];
      ev.id in a.now && ev.text == a.now[ev.id]
    decreases op
  {
    match op {
      case Scanning(scan) =>
        var e := s.process.entry.value;
        ScanSends(e, scan);
        InSendsOf(Step(e, scan).calls, n);
      case Editing(req, input) =>
        EditFollows(s, agent, req, input, a);
      case Restarting(k, save) =>
      case Dying(inner, cut) => SentWords(s, agent, inner, a, n);
    }
  }

  /** In every run, what the agent is sent as an item is the text of the last Add or Edit of
      that item that took effect and that no restart has lost. */
  lemma SentAsAsked(agent: Id, ops: seq<Op>, op: Op, n: nat)
    requires LegalRun(START, agent, ops) && Legal(Run(START, agent, ops), agent, op)
    requires n < |Perform(Run(START, agent, ops), agent, op).calls|
    requires Perform(Run(START, agent, ops), agent, op).calls[n].Send?
    ensures var ev, now := Perform(Run(START, agent, ops), agent, op).calls[n], AskedBy(NOTHING_ASKED, START, agent, ops).now;
      ev.id in now && ev.text == now[ev.id]
  {
    StartOk();
    RunFollows(START, agent, ops, NOTHING_ASKED);
    RunKeeps(START, agent, ops);
    SentWords(Run(START, agent, ops), agent, op, AskedBy(NOTHING_ASKED, START, agent, ops), n);
  }
}
