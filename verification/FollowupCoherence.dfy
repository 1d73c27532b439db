/** What a queue looks like between any two operations, and why every change keeps it so. */
module FollowupCoherence {
  import opened FollowupQueue

  predicate IsDispatched(s: ItemState) {
    s == Sending || s == Sent || s == NeedsAttention
  }

  predicate IsDone(s: ItemState) {
    s == Sent || s == Canceled
  }

  /** The state that the active item has in each phase. */
  predicate MatchesPhase(phase: Phase, s: ItemState) {
    match phase
    case Ready => false
    case Delivering => s == Sending
    case AwaitingWork => s == Sent
    case Working => s == Sent
    case Attention => s == NeedsAttention
  }

  ghost predicate UniqueIds(items: seq<Item>) {
    && (forall i :: 0 <= i < |items| ==> items[i].id != "")
    && (forall i, j :: 0 <= i < j < |items| ==> items[i].id != items[j].id)
    && (forall i, j :: 0 <= i < j < |items| && items[i].requestId != "" ==> items[i].requestId != items[j].requestId)
  }

  /** `a` is the position of the active item, or -1 when there is none. */
  ghost predicate CoherentAt(q: Queue, a: int) {
    && UniqueIds(q.items)
    && -1 <= a < |q.items|
    && q.active == (if a < 0 then "" else q.items[a].id)
    && (a < 0 <==> q.phase == Ready)
    && (a >= 0 ==> MatchesPhase(q.phase, q.items[a].state))
    && (forall i :: 0 <= i < |q.items| && i != a ==> q.items[i].state in {Queued, Sent, Canceled})
    && (forall i :: 0 <= a < i < |q.items| ==> !IsDispatched(q.items[i].state))
    && (forall i, j :: 0 <= i < j < |q.items| && IsDispatched(q.items[j].state) ==> IsDone(q.items[i].state))
    && (q.phase == Attention ==> q.paused)
    && PendingCount(q.items) <= MAX_PENDING + (if q.phase == Attention then 1 else 0)
  }

  ghost predicate Coherent(q: Queue) {
    exists a :: CoherentAt(q, a)
  }

  /** Where the active item is; meaningful for coherent queues. */
  ghost function ActiveAt(q: Queue): int
    requires Coherent(q)
    ensures CoherentAt(q, ActiveAt(q))
  {
    var a :| CoherentAt(q, a);
    a
  }

  // ---------- Small facts about items ----------

  function Weight(s: ItemState): nat { if IsPending(s) then 1 else 0 }

  lemma {:induction false} PendingAfterUpdate(items: seq<Item>, i: nat, x: Item)
    requires i < |items|
    ensures PendingCount(items[i := x]) == PendingCount(items) - Weight(items[i].state) + Weight(x.state)
  {
    var n := |items| - 1;
    if i < n {
      assert items[i := x][..n] == items[..n][i := x];
      PendingAfterUpdate(items[..n], i, x);
    } else {
      assert items[i := x][..n] == items[..n];
    }
  }

  lemma PendingAfterAdd(items: seq<Item>, x: Item)
    ensures PendingCount(items + [x]) == PendingCount(items) + Weight(x.state)
  {
    assert (items + [x])[..|items|] == items;
  }

  lemma IndexOfUnique(items: seq<Item>, a: nat)
    requires UniqueIds(items) && a < |items|
    ensures IndexOf(items, items[a].id) == a
  {}

  /** Marking the active item touches that item alone. */
  lemma MarkOne(items: seq<Item>, a: nat, reason: Reason)
    requires UniqueIds(items) && a < |items|
    ensures MarkActive(items, items[a].id, reason) == items[a := items[a].(state := NeedsAttention, error := reason)]
  {}

  // ---------- Changes that keep a queue coherent ----------

  lemma AttendKeeps(q: Queue, reason: Reason, a: nat)
    requires CoherentAt(q, a)
    ensures CoherentAt(Attend(q, reason), a)
    ensures Attend(q, reason).items == q.items[a := q.items[a].(state := NeedsAttention, error := reason)]
  {
    MarkOne(q.items, a, reason);
    PendingAfterUpdate(q.items, a, q.items[a].(state := NeedsAttention, error := reason));
  }

  /** Finishing or closing the active item: it becomes `s`, and the queue is ready. */
  lemma CloseKeeps(q: Queue, a: nat, x: Item, reason: Reason, paused: bool)
    requires CoherentAt(q, a)
    requires x.id == q.items[a].id && x.requestId == q.items[a].requestId && x.state in {Queued, Sent, Canceled}
    requires x.state == Queued ==> q.phase == Delivering
    ensures CoherentAt(q.(items := q.items[a := x], active := "", phase := Ready, reason := reason, paused := paused), -1)
  {
    PendingAfterUpdate(q.items, a, x);
  }

  lemma FinishKeeps(q: Queue, a: nat, reason: Reason)
    requires CoherentAt(q, a) && (q.phase == Working || q.phase == AwaitingWork)
    ensures CoherentAt(q.(active := "", phase := Ready, reason := reason), -1)
  {
    assert q.items[a := q.items[a]] == q.items;
    CloseKeeps(q, a, q.items[a], reason, q.paused);
  }

  lemma ClaimKeeps(q: Queue, index: nat, o: Observation, at: int)
    requires CoherentAt(q, -1) && index == FirstQueued(q.items)
    ensures CoherentAt(ClaimedQueue(q, index, o, at), index)
  {
    PendingAfterUpdate(q.items, index, q.items[index].(state := Sending));
  }

  lemma SentKeeps(q: Queue, a: nat, reason: Reason)
    requires CoherentAt(q, a) && q.phase == Delivering
    ensures CoherentAt(q.(items := q.items[a := q.items[a].(state := Sent)], phase := AwaitingWork, reason := reason), a)
  {
    PendingAfterUpdate(q.items, a, q.items[a].(state := Sent));
  }

  /** Seeing the agent at work only moves the phase. */
  lemma WorkingKeeps(q: Queue, a: nat)
    requires CoherentAt(q, a) && (q.phase == AwaitingWork || q.phase == Working)
    ensures CoherentAt(q.(phase := Working), a)
  {}

  lemma AddKeepsUnique(items: seq<Item>, x: Item)
    requires UniqueIds(items) && x.id != ""
    requires forall i :: 0 <= i < |items| ==> items[i].id != x.id
    requires x.requestId != "" ==> forall i :: 0 <= i < |items| ==> items[i].requestId != x.requestId
    ensures UniqueIds(items + [x])
  {
    var more := items + [x];
    assert forall i :: 0 <= i < |more| ==> more[i] == if i < |items| then items[i] else x;
  }

  lemma AddKeeps(q: Queue, a: int, x: Item)
    requires CoherentAt(q, a) && x.state == Queued && x.id != "" && PendingCount(q.items) < MAX_PENDING
    requires forall i :: 0 <= i < |q.items| ==> q.items[i].id != x.id
    requires x.requestId != "" ==> forall i :: 0 <= i < |q.items| ==> q.items[i].requestId != x.requestId
    ensures CoherentAt(q.(items := q.items + [x]), a)
  {
    AddKeepsUnique(q.items, x);
    PendingAfterAdd(q.items, x);
    var more := q.items + [x];
    assert forall i :: 0 <= i < |more| ==> more[i] == if i < |q.items| then q.items[i] else x;
  }

  /** Rewording or canceling a queued item. */
  lemma EditKeeps(q: Queue, a: int, i: nat, x: Item)
    requires CoherentAt(q, a) && i < |q.items| && q.items[i].state == Queued
    requires x.id == q.items[i].id && x.requestId == q.items[i].requestId && x.state in {Queued, Canceled}
    ensures CoherentAt(q.(items := q.items[i := x]), a)
  {
    PendingAfterUpdate(q.items, i, x);
  }

  lemma RecoverKeeps(q: Queue)
    requires Coherent(q)
    ensures Coherent(Recover(q))
    ensures Recover(q).phase == Ready || Recover(q).phase == Attention
    ensures Ids(Recover(q).items) == Ids(q.items) && Recover(q).active == q.active
    ensures Recover(q).phase == Ready ==> Recover(q) == q
    ensures forall i :: 0 <= i < |q.items| && q.items[i].state != Queued ==> Recover(q).items[i].state != Queued
  {
    var a := ActiveAt(q);
    if a >= 0 {
      AttendKeeps(q, DaemonRestarted, a);
    }
  }
}
