/** What an edit by the operator does to the queue, case by case, and the reply it gets. */
module FollowupEdits {
  import opened Basics
  import opened FollowupQueue
  import opened FollowupDecisions

  /** A new queue may be set up: the operator adds, pauses or resumes, and the agent runs in a
      pane under an ownership token. */
  predicate MaySetUp(agent: Id, req: Request, input: EditInput) {
    && (req.action == Add || req.action == Pause || req.action == Resume)
    && input.observed.Some? && input.observed.value.running
    && input.observed.value.target.agent == agent
    && input.observed.value.target.pane != "" && input.observed.value.target.token != ""
  }

  /** `e` is the entry that the edit works on: the one in memory, or a new and empty one. */
  ghost predicate WorksOn(mem: Option<Entry>, agent: Id, req: Request, input: EditInput, e: Entry) {
    || mem == Some(e)
    || (mem.None? && MaySetUp(agent, req, input) && !e.dirty && IsNew(input.observed.value.target, e.queue))
  }

  ghost predicate IsNew(t: Target, q: Queue) {
    q.target == t && q.items == [] && q.active == "" && q.phase == Ready && !q.paused && q.reason == NoReason
    && q.attemptedAt == 0 && q.baseline == 0 && q.epoch == 0
  }

  /** The observation that sets up a new queue. */
  function SetUpCalls(mem: Option<Entry>, input: EditInput): seq<Event> {
    if mem.None? && input.observed.Some? then [Observed(input.observed.value)] else []
  }

  /** `i` is the first item with the ID. */
  ghost predicate IsFirst(items: seq<Item>, id: Id, i: nat) {
    i < |items| && items[i].id == id && forall k :: 0 <= k < i ==> items[k].id != id
  }

  ghost predicate NoItem(items: seq<Item>, id: Id) {
    forall k :: 0 <= k < |items| ==> items[k].id != id
  }

  /** No item was added under this request ID before; an empty one is always new. */
  ghost predicate NewRequest(items: seq<Item>, requestId: string) {
    requestId != "" ==> forall k :: 0 <= k < |items| ==> items[k].requestId != requestId
  }

  /** The item `i` is the first that was added under the request ID. */
  ghost predicate KnownRequest(items: seq<Item>, requestId: string, i: nat) {
    && requestId != "" && i < |items| && items[i].requestId == requestId
    && forall k :: 0 <= k < i ==> items[k].requestId != requestId
  }

  /** The delivery of item `i` is uncertain and waits for the operator. */
  predicate IsHeld(q: Queue, i: nat)
    requires i < |q.items|
  {
    q.items[i].state == NeedsAttention && q.active == q.items[i].id
  }

  // ---------- The two kinds of outcome ----------

  /** The edit makes `q` of the queue, after the operator's decision if there is one, and
      saves it; the reply says whether that is committed. */
  ghost predicate Makes(mem: Option<Entry>, agent: Id, req: Request, input: EditInput, q: Queue, decision: seq<Event>) {
    var r := Update(mem, agent, req, input);
    && r.entry == Some(Entry(q, input.save != Committed))
    && r.calls == SetUpCalls(mem, input) + decision + SavedAs(q, input.save)
    && r.reply == if input.save == Committed then Accepted else NotSaved
  }

  /** The edit changes and saves nothing. */
  ghost predicate Declines(mem: Option<Entry>, agent: Id, req: Request, input: EditInput, e: Entry, reply: Reply) {
    Update(mem, agent, req, input) == Reaction(Some(e), SetUpCalls(mem, input), reply)
  }

  lemma FinishMakes(mem: Option<Entry>, agent: Id, req: Request, input: EditInput, e: Entry, decision: seq<Event>)
    requires var r := Finish(e, decision, input.save);
      Update(mem, agent, req, input) == r.(calls := SetUpCalls(mem, input) + r.calls)
    ensures Makes(mem, agent, req, input, e.queue, decision)
  {
    hide Update, SetUpCalls;
    var r := Finish(e, decision, input.save);
    assert SetUpCalls(mem, input) + r.calls == SetUpCalls(mem, input) + decision + SavedAs(e.queue, input.save);
  }

  lemma Works(mem: Option<Entry>, agent: Id, req: Request, input: EditInput, e: Entry)
    requires WorksOn(mem, agent, req, input, e)
    ensures var r := UpdateEntry(e, req, input);
      Update(mem, agent, req, input) == r.(calls := SetUpCalls(mem, input) + r.calls)
  {
    hide UpdateEntry;
    if mem.Some? {
      assert [] + UpdateEntry(e, req, input).calls == UpdateEntry(e, req, input).calls;
    }
  }

  /** Without a queue, and without what it takes to set one up, an edit is refused. */
  lemma CannotSetUp(agent: Id, req: Request, input: EditInput)
    requires !MaySetUp(agent, req, input)
    ensures var r := Update(None, agent, req, input);
      && r.entry.None?
      && r.reply == (if req.action != Add && req.action != Pause && req.action != Resume then NotFound
                     else if input.observed.None? then Unobservable else Conflict)
      && (forall n :: 0 <= n < |r.calls| ==> r.calls[n].Observed?)
  {}

  /** An Add under a new request ID appends one queued item with the request's text and ID, if
      the text is valid and there is room; the same request again adds nothing, and another text
      under its ID is refused. */
  lemma Adding(mem: Option<Entry>, agent: Id, req: Request, input: EditInput, e: Entry)
    requires WorksOn(mem, agent, req, input, e) && req.action == Add
    ensures var q := e.queue;
      && (NewRequest(q.items, req.requestId) ==>
            if ValidText(req.text) && PendingCount(q.items) < 100
            then Makes(mem, agent, req, input,
                       q.(items := q.items + [Item(input.newId, req.requestId, req.text, Queued, NoReason)]), [])
            else Declines(mem, agent, req, input, e, Invalid))
      && (forall i: nat :: KnownRequest(q.items, req.requestId, i) ==>
            if q.items[i].text != req.text then Declines(mem, agent, req, input, e, Conflict)
            else if e.dirty then Makes(mem, agent, req, input, q, [])
            else Declines(mem, agent, req, input, e, Accepted))
  {
    Works(mem, agent, req, input, e);
    hide Update, ValidText, PendingCount, Makes, Finish, Save;
    var q := e.queue;
    var known := if req.requestId == "" then -1 else IndexOfRequest(q.items, req.requestId);
    assert forall i: nat :: KnownRequest(q.items, req.requestId, i) ==> i == known;
    assert known >= 0 ==> KnownRequest(q.items, req.requestId, known);
    if known < 0 && ValidText(req.text) && PendingCount(q.items) < 100 {
      FinishMakes(mem, agent, req, input,
        e.(queue := q.(items := q.items + [Item(input.newId, req.requestId, req.text, Queued, NoReason)])), []);
    } else if known >= 0 && q.items[known].text == req.text && e.dirty {
      FinishMakes(mem, agent, req, input, e, []);
    }
  }

  lemma FoundFirst(items: seq<Item>, id: Id)
    ensures var i := IndexOf(items, id);
      if i < 0 then NoItem(items, id) else IsFirst(items, id, i) && forall k: nat :: IsFirst(items, id, k) ==> k == i
  {}

  /** An Edit gives the first item with the ID the request's text, if it is still queued and the
      text is valid. */
  lemma Rewording(mem: Option<Entry>, agent: Id, req: Request, input: EditInput, e: Entry)
    requires mem == Some(e) && req.action == Edit
    ensures var q := e.queue;
      && (NoItem(q.items, req.itemId) ==> Declines(mem, agent, req, input, e, NotFound))
      && (forall i: nat :: IsFirst(q.items, req.itemId, i) ==>
            if q.items[i].state != Queued then Declines(mem, agent, req, input, e, Conflict)
            else if !ValidText(req.text) then Declines(mem, agent, req, input, e, Invalid)
            else Makes(mem, agent, req, input, q.(items := q.items[i := q.items[i].(text := req.text)]), []))
  {
    Works(mem, agent, req, input, e);
    FoundFirst(e.queue.items, req.itemId);
    hide Update, ValidText, IndexOf;
  }

  /** A Cancel takes a queued item out, and settles an uncertain delivery as not made; the
      latter frees the queue and leaves it paused. */
  lemma Canceling(mem: Option<Entry>, agent: Id, req: Request, input: EditInput, e: Entry)
    requires mem == Some(e) && req.action == Cancel
    ensures var q := e.queue;
      && (NoItem(q.items, req.itemId) ==> Declines(mem, agent, req, input, e, NotFound))
      && (forall i: nat :: IsFirst(q.items, req.itemId, i) ==>
            if IsHeld(q, i) then
              Makes(mem, agent, req, input,
                    q.(items := q.items[i := q.items[i].(state := Canceled, error := NoReason)],
                       active := "", phase := Ready, reason := DeliveryExcluded, paused := true), [Settled(req.itemId)])
            else if q.items[i].state != Queued then Declines(mem, agent, req, input, e, Conflict)
            else Makes(mem, agent, req, input, q.(items := q.items[i := q.items[i].(state := Canceled)]), []))
  {
    Works(mem, agent, req, input, e);
    FoundFirst(e.queue.items, req.itemId);
    hide Update, ValidText, IndexOf, IsFirst, NoItem, AddItem, PendingCount, Makes, Finish, Save;
    var q, i := e.queue, IndexOf(e.queue.items, req.itemId);
    if i >= 0 && IsHeld(q, i) {
      assert IsFirst(q.items, req.itemId, i) && q.items[i].id == req.itemId;
      FinishMakes(mem, agent, req, input,
        e.(queue := q.(items := q.items[i := q.items[i].(state := Canceled, error := NoReason)],
                       active := "", phase := Ready, reason := DeliveryExcluded, paused := true)), [Settled(req.itemId)]);
    } else if i >= 0 && q.items[i].state == Queued {
      FinishMakes(mem, agent, req, input, e.(queue := q.(items := q.items[i := q.items[i].(state := Canceled)])), []);
    }
  }

  /** A Resolve settles the uncertain delivery as made, and no other item. */
  lemma Resolving(mem: Option<Entry>, agent: Id, req: Request, input: EditInput, e: Entry)
    requires mem == Some(e) && req.action == Resolve
    ensures var q := e.queue;
      && (NoItem(q.items, req.itemId) ==> Declines(mem, agent, req, input, e, NotFound))
      && (forall i: nat :: IsFirst(q.items, req.itemId, i) ==>
            if !IsHeld(q, i) then Declines(mem, agent, req, input, e, Conflict)
            else
              Makes(mem, agent, req, input,
                    q.(items := q.items[i := q.items[i].(state := Sent, error := NoReason)],
                       active := "", phase := Ready, reason := DeliveryConfirmed, paused := true), [Settled(req.itemId)]))
  {
    Works(mem, agent, req, input, e);
    FoundFirst(e.queue.items, req.itemId);
    hide Update, ValidText, IndexOf, IsFirst, NoItem, IndexOf, AddItem, EditItem, PendingCount, Makes, Finish, Save;
    var q, i := e.queue, IndexOf(e.queue.items, req.itemId);
    if i >= 0 && IsHeld(q, i) {
      assert IsFirst(q.items, req.itemId, i) && q.items[i].id == req.itemId;
      FinishMakes(mem, agent, req, input,
        e.(queue := q.(items := q.items[i := q.items[i].(state := Sent, error := NoReason)],
                       active := "", phase := Ready, reason := DeliveryConfirmed, paused := true)), [Settled(req.itemId)]);
    }
  }

  /** Pause and Resume set the mark, and a queue on hold cannot be resumed. */
  lemma Pausing(mem: Option<Entry>, agent: Id, req: Request, input: EditInput, e: Entry)
    requires WorksOn(mem, agent, req, input, e)
    ensures req.action == Pause ==> Makes(mem, agent, req, input, e.queue.(paused := true), [])
    ensures req.action == Resume && e.queue.phase != Attention ==>
      Makes(mem, agent, req, input, e.queue.(paused := false, reason := NoReason), [Resumed])
    ensures req.action == Resume && e.queue.phase == Attention ==> Declines(mem, agent, req, input, e, Conflict)
    ensures req.action == Unknown ==> Declines(mem, agent, req, input, e, Invalid)
  {
    Works(mem, agent, req, input, e);
    hide Update, AddItem, EditItem, Close, IndexOf, PendingCount, ValidText, Makes, Finish, Save;
    if req.action == Pause {
      FinishMakes(mem, agent, req, input, e.(queue := e.queue.(paused := true)), []);
    } else if req.action == Resume && e.queue.phase != Attention {
      FinishMakes(mem, agent, req, input, e.(queue := e.queue.(paused := false, reason := NoReason)), [Resumed]);
    }
  }

  ghost function PendingAt(items: seq<Item>): set<nat> {
    set i: nat | i < |items| && (items[i].state == Queued || items[i].state == Sending || items[i].state == NeedsAttention)
  }

  /** What counts against the limit: the queued items, and one on its way or in doubt. */
  lemma {:induction false} PendingAre(items: seq<Item>)
    ensures PendingCount(items) == |PendingAt(items)|
    decreases |items|
  {
    if items == [] {
      assert PendingAt(items) == {};
    } else {
      var n := |items| - 1;
      PendingAre(items[..n]);
      assert PendingAt(items[..n]) == PendingAt(items) - {n};
    }
  }

  predicate IsAscii(text: string) {
    forall i :: 0 <= i < |text| ==> text[i] < '\U{80}'
  }

  lemma {:induction false} Utf8Bounds(text: string)
    ensures |text| <= Utf8Length(text) <= 4 * |text|
    ensures IsAscii(text) ==> Utf8Length(text) == |text|
    decreases |text|
  {
    if text != "" {
      Utf8Bounds(text[1..]);
    }
  }

  /** A text is valid if something in it is visible and it has at most 65536 bytes; of ASCII text
      these are its characters, of other text they may be up to four each. */
  lemma TextLimits(text: string)
    ensures ValidText(text) ==> |text| <= 65536 && exists i :: 0 <= i < |text| && !IsSpace(text[i])
    ensures (IsAscii(text) || |text| <= 16384) && |text| <= 65536 && (exists i :: 0 <= i < |text| && !IsSpace(text[i])) ==> ValidText(text)
    ensures forall i :: 0 <= i < |text| && IsAscii(text) ==> (IsSpace(text[i]) <==> text[i] == ' ' || 9 <= text[i] as int <= 13)
  {
    Utf8Bounds(text);
    hide Utf8Length;
  }
}
