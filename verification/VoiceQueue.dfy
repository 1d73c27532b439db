/** The voice notification queue with its window of recent request IDs, which keeps a request
    from being spoken twice. Each function is one section under the queue's lock. */
module VoiceQueue {
  import opened Basics

  type Id = string

  /** `speaking` is the request that was taken and is not finished; `finished` records the
      finished requests of an open queue in their order, for the statements below. */
  datatype Voice = Voice(
    capacity: nat,
    recentLimit: nat,
    queue: seq<Id>,
    active: set<Id>,
    recent: set<Id>,
    recentOrder: seq<Id>,
    speaking: Option<Id>,
    closed: bool,
    finished: seq<Id>)

  datatype Answer = Queued | Duplicate | QueueFull | IsClosed

  const DEFAULT_CAPACITY := 256
  const DEFAULT_RECENT_LIMIT := 1024

  /** Zero stands for the default; room for one item in flight beside a full queue is required. */
  function New(capacity: int, recentLimit: int): Option<Voice> {
    if capacity < 0 || capacity > DEFAULT_CAPACITY || recentLimit < 0 || recentLimit > DEFAULT_RECENT_LIMIT then None
    else
      var c := if capacity == 0 then DEFAULT_CAPACITY else capacity;
      var l := if recentLimit == 0 then DEFAULT_RECENT_LIMIT else recentLimit;
      if c + 1 > l then None else Some(Voice(c, l, [], {}, {}, [], None, false, []))
  }

  function Evict(v: Voice): Voice
    requires v.recentOrder != []
  {
    v.(recentOrder := v.recentOrder[1..], recent := v.recent - {v.recentOrder[0]})
  }

  /** Evicts the oldest IDs until fewer than `limit` are known. */
  function EvictTo(v: Voice, limit: nat): Voice
    decreases |v.recentOrder|
  {
    if |v.active| + |v.recent| < limit || v.recentOrder == [] then v else EvictTo(Evict(v), limit)
  }

  function Enqueue(v: Voice, id: Id): (Voice, Answer) {
    if v.closed then (v, IsClosed)
    else if id in v.active || id in v.recent then (v, Duplicate)
    else if |v.queue| >= v.capacity then (v, QueueFull)
    else
      var v1 := EvictTo(v, v.recentLimit);
      (v1.(queue := v1.queue + [id], active := v1.active + {id}), Queued)
  }

  function Take(v: Voice): Voice
    requires !v.closed && v.queue != [] && v.speaking == None
  {
    v.(queue := v.queue[1..], speaking := Some(v.queue[0]))
  }

  function Finish(v: Voice): Voice
    requires v.speaking.Some?
  {
    var id := v.speaking.value;
    var v1 := v.(active := v.active - {id}, speaking := None);
    if v.closed then v1
    else
      EvictTo(v1.(recent := v1.recent + {id}, recentOrder := v1.recentOrder + [id], finished := v1.finished + [id]), v.recentLimit + 1)
  }

  function Close(v: Voice): Voice {
    v.(closed := true, queue := [], active := {})
  }

  // ---------- The invariant ----------

  function Speaking(v: Voice): set<Id> {
    if v.speaking.Some? then {v.speaking.value} else {}
  }

  /** What was finished last is recent, in that order; nothing recent is active. */
  ghost predicate RecentOk(v: Voice) {
    && v.recent == Items(v.recentOrder) && Distinct(v.recentOrder) && v.active !! v.recent
    && |v.recentOrder| <= |v.finished| && v.recentOrder == v.finished[|v.finished| - |v.recentOrder|..]
  }

  /** The active requests are those that wait and the one that is spoken. */
  ghost predicate ActiveOk(v: Voice) {
    !v.closed ==> v.active == Items(v.queue) + Speaking(v) && Distinct(v.queue) && Items(v.queue) !! Speaking(v)
  }

  /** Where something was evicted the window is still long enough. */
  ghost predicate SizesOk(v: Voice) {
    && v.capacity + 1 <= v.recentLimit && |v.queue| <= v.capacity && |v.active| + |v.recent| <= v.recentLimit
    && (|v.recentOrder| < |v.finished| ==> |v.recentOrder| >= v.recentLimit - v.capacity - 1)
  }

  ghost predicate Inv(v: Voice) {
    RecentOk(v) && ActiveOk(v) && SizesOk(v)
  }

  lemma ItemsTail(s: seq<Id>)
    requires s != [] && Distinct(s)
    ensures Distinct(s[1..]) && Items(s[1..]) == Items(s) - {s[0]} && |Items(s[1..])| == |Items(s)| - 1
  {
    var t := s[1..];
    assert forall i :: 0 <= i < |t| ==> t[i] == s[i + 1];
    assert forall x :: x in s && x != s[0] ==> x in t;
    assert s[0] !in t;
    assert Items(s) == Items(t) + {s[0]};
  }

  lemma SuffixTail(t: seq<Id>, s: seq<Id>)
    requires s != [] && |s| <= |t| && s == t[|t| - |s|..]
    ensures s[1..] == t[|t| - |s[1..]|..]
  {
  }

  lemma EvictKeeps(v: Voice)
    requires RecentOk(v) && v.recentOrder != []
    ensures RecentOk(Evict(v)) && |Evict(v).recent| == |v.recent| - 1
  {
    hide Distinct, Items;
    ItemsTail(v.recentOrder);
    SuffixTail(v.finished, v.recentOrder);
  }

  /** Eviction always finds an ID to evict, and stops as soon as there is room. */
  lemma {:induction false} EvictToKeeps(v: Voice, limit: nat)
    requires RecentOk(v) && |v.active| < limit
    ensures var v1 := EvictTo(v, limit);
      && RecentOk(v1) && |v1.active| + |v1.recent| < limit
      && v1 == v.(recent := v1.recent, recentOrder := v1.recentOrder)
      && |v1.recentOrder| <= |v.recentOrder| && v1.recent <= v.recent
      && (|v1.recentOrder| < |v.recentOrder| ==> |v1.recentOrder| >= limit - |v.active| - 1)
    decreases |v.recentOrder|
  {
    ItemsSize(v.recentOrder);
    if |v.active| + |v.recent| >= limit {
      EvictKeeps(v);
      EvictToKeeps(Evict(v), limit);
      ItemsSize(EvictTo(v, limit).recentOrder);
    }
  }

  lemma UnionSize(a: set<Id>, b: set<Id>)
    ensures |a + b| <= |a| + |b|
  {
    assert |a + b| == |a| + |b| - |a * b|;
  }

  lemma ActiveSize(v: Voice)
    requires ActiveOk(v) && !v.closed
    ensures |v.active| <= |v.queue| + 1
  {
    ItemsSize(v.queue);
    UnionSize(Items(v.queue), Speaking(v));
  }

  lemma EnqueueKeeps(v: Voice, id: Id)
    requires Inv(v)
    ensures Inv(Enqueue(v, id).0)
  {
    hide ActiveOk, RecentOk, EvictTo;
    if !v.closed && id !in v.active && id !in v.recent && |v.queue| < v.capacity {
      ActiveSize(v);
      EvictToKeeps(v, v.recentLimit);
      var v1 := EvictTo(v, v.recentLimit);
      assert v1.active == v.active && v1.queue == v.queue;
      SameActive(v, v1);
      ActiveGrows(v1, id);
      RecentSpared(v1, id);
    }
  }

  lemma SameActive(v: Voice, v1: Voice)
    requires ActiveOk(v) && v1.active == v.active && v1.queue == v.queue && v1.speaking == v.speaking && v1.closed == v.closed
    ensures ActiveOk(v1)
  {
  }

  lemma ActiveGrows(v: Voice, id: Id)
    requires ActiveOk(v) && id !in v.active && !v.closed
    ensures ActiveOk(v.(queue := v.queue + [id], active := v.active + {id}))
  {
    hide Distinct;
    assert id in v.queue ==> id in Items(v.queue);
    QueueGrows(v.queue, id);
  }

  lemma RecentSpared(v: Voice, id: Id)
    requires RecentOk(v) && id !in v.recent
    ensures RecentOk(v.(queue := v.queue + [id], active := v.active + {id}))
  {
    hide Distinct, Items;
  }

  lemma QueueGrows(s: seq<Id>, x: Id)
    requires Distinct(s) && x !in s
    ensures Distinct(s + [x]) && Items(s + [x]) == Items(s) + {x}
  {
  }

  lemma FirstIsItem(s: seq<Id>)
    requires s != []
    ensures s[0] in Items(s)
  {
  }

  lemma TakeKeeps(v: Voice)
    requires Inv(v) && !v.closed && v.queue != [] && v.speaking == None
    ensures Inv(Take(v))
  {
    TakenActive(v);
    TakenRecent(v);
  }

  lemma TakenActive(v: Voice)
    requires ActiveOk(v) && !v.closed && v.queue != [] && v.speaking == None
    ensures ActiveOk(Take(v))
  {
    hide Distinct, Items;
    ItemsTail(v.queue);
    FirstIsItem(v.queue);
  }

  lemma TakenRecent(v: Voice)
    requires RecentOk(v) && !v.closed && v.queue != [] && v.speaking == None
    ensures RecentOk(Take(v))
  {
    hide Distinct, Items;
  }

  lemma FinishKeeps(v: Voice)
    requires Inv(v) && v.speaking.Some?
    ensures Inv(Finish(v))
  {
    hide Distinct, Items, RecentOk, ActiveOk;
    FinishedActive(v);
    if v.closed {
      FinishedClosed(v);
    } else {
      var id := v.speaking.value;
      var v1 := v.(active := v.active - {id}, speaking := None,
                   recent := v.recent + {id}, recentOrder := v.recentOrder + [id], finished := v.finished + [id]);
      FinishedRecent(v, id);
      assert Finish(v) == v1;
      SameActive(v.(active := v.active - {id}, speaking := None), v1);
    }
  }

  lemma FinishedClosed(v: Voice)
    requires RecentOk(v) && v.closed && v.speaking.Some?
    ensures RecentOk(Finish(v)) && |Finish(v).active| <= |v.active|
  {
    hide Distinct, Items;
  }

  lemma FinishedActive(v: Voice)
    requires ActiveOk(v) && v.speaking.Some?
    ensures ActiveOk(v.(active := v.active - {v.speaking.value}, speaking := None))
    ensures !v.closed ==> v.speaking.value in v.active
  {
    hide Distinct, Items;
  }

  lemma FinishedRecent(v: Voice, id: Id)
    requires RecentOk(v) && id in v.active
    ensures RecentOk(v.(active := v.active - {id}, speaking := None,
                        recent := v.recent + {id}, recentOrder := v.recentOrder + [id], finished := v.finished + [id]))
    ensures |v.active - {id}| + |v.recent + {id}| == |v.active| + |v.recent|
  {
    hide Distinct, Items;
    NotItem(v.recentOrder, id);
    QueueGrows(v.recentOrder, id);
    SuffixGrows(v.finished, v.recentOrder, id);
  }

  lemma SuffixGrows(t: seq<Id>, s: seq<Id>, x: Id)
    requires |s| <= |t| && s == t[|t| - |s|..]
    ensures s + [x] == (t + [x])[|t + [x]| - |s + [x]|..]
  {
  }

  lemma NotItem(s: seq<Id>, x: Id)
    requires x !in Items(s)
    ensures x !in s
  {
  }

  lemma CloseKeeps(v: Voice)
    requires Inv(v)
    ensures Inv(Close(v))
  {
  }

  // ---------- Runs ----------

  datatype Event = Enqueues(id: Id) | Takes | Finishes | Closes

  predicate CanHappen(v: Voice, ev: Event) {
    match ev
    case Enqueues(_) => true
    case Takes => !v.closed && v.queue != [] && v.speaking == None
    case Finishes => v.speaking.Some?
    case Closes => true
  }

  function Next(v: Voice, ev: Event): Voice
    requires CanHappen(v, ev)
  {
    match ev
    case Enqueues(id) => Enqueue(v, id).0
    case Takes => Take(v)
    case Finishes => Finish(v)
    case Closes => Close(v)
  }

  ghost predicate IsRun(states: seq<Voice>, evs: seq<Event>, capacity: int, recentLimit: int) {
    && |states| == |evs| + 1 && New(capacity, recentLimit) == Some(states[0])
    && forall k :: 0 <= k < |evs| ==> CanHappen(states[k], evs[k]) && states[k + 1] == Next(states[k], evs[k])
  }

  lemma NewKeeps(capacity: int, recentLimit: int)
    ensures New(capacity, recentLimit).Some? ==> Inv(New(capacity, recentLimit).value)
  {
  }

  lemma {:induction false} RunKeeps(states: seq<Voice>, evs: seq<Event>, capacity: int, recentLimit: int, k: nat)
    requires IsRun(states, evs, capacity, recentLimit) && k < |states|
    ensures Inv(states[k])
  {
    hide Enqueue, Take, Finish, Close, Inv, New;
    if k == 0 {
      NewKeeps(capacity, recentLimit);
    } else {
      RunKeeps(states, evs, capacity, recentLimit, k - 1);
      var v, ev := states[k - 1], evs[k - 1];
      assert CanHappen(v, ev) && states[k] == Next(v, ev);
      match ev
      case Enqueues(id) => EnqueueKeeps(v, id);
      case Takes => TakeKeeps(v);
      case Finishes => FinishKeeps(v);
      case Closes => CloseKeeps(v);
    }
  }

  /** The queue stays within its capacity and the known IDs within their limit; an eviction
      always finds an ID to evict. */
  lemma BoundsHold(states: seq<Voice>, evs: seq<Event>, capacity: int, recentLimit: int, k: nat)
    requires IsRun(states, evs, capacity, recentLimit) && k < |states|
    ensures var v := states[k];
      && |v.queue| <= v.capacity && |v.active| + |v.recent| <= v.recentLimit
      && v.recent == Items(v.recentOrder) && Distinct(v.recentOrder) && v.active !! v.recent
      && (!v.closed && |v.queue| < v.capacity && |v.active| + |v.recent| >= v.recentLimit ==> v.recentOrder != [])
  {
    RunKeeps(states, evs, capacity, recentLimit, k);
    var v := states[k];
    ItemsSize(v.recentOrder);
    if !v.closed {
      ActiveSize(v);
    }
  }

  /** A request that was finished at position `i` is accepted again only when at least
      `recentLimit - capacity - 1` different others were finished after it. */
  lemma AcceptedAgainOnlyLater(states: seq<Voice>, evs: seq<Event>, capacity: int, recentLimit: int, k: nat, id: Id, i: nat) returns (others: seq<Id>)
    requires IsRun(states, evs, capacity, recentLimit) && k < |states|
    requires Enqueue(states[k], id).1 == Queued
    requires i < |states[k].finished| && states[k].finished[i] == id
    ensures var v := states[k];
      && |others| >= v.recentLimit - v.capacity - 1 && Distinct(others) && id !in others
      && |others| < |v.finished| - i && others == v.finished[|v.finished| - |others|..]
  {
    RunKeeps(states, evs, capacity, recentLimit, k);
    var v := states[k];
    others := v.recentOrder;
    NotItem(v.recentOrder, id);
    var start := |v.finished| - |v.recentOrder|;
    assert forall j :: start <= j < |v.finished| ==> v.finished[j] == v.recentOrder[j - start];
  }

  // ---------- What is accepted, and what is spoken ----------

  /** A request is refused exactly when the queue is closed, knows it already or is full;
      otherwise it waits behind the others, and only the oldest known IDs are forgotten. */
  lemma EnqueueDecides(v: Voice, id: Id)
    requires Inv(v)
    ensures var (v1, answer) := Enqueue(v, id);
      if v.closed then v1 == v && answer == IsClosed
      else if id in v.active || id in v.recent then v1 == v && answer == Duplicate
      else if |v.queue| >= v.capacity then v1 == v && answer == QueueFull
      else
        && answer == Queued && v1.queue == v.queue + [id] && v1.active == v.active + {id}
        && v1.speaking == v.speaking && v1.finished == v.finished && v1.closed == v.closed
        && |v1.recentOrder| <= |v.recentOrder| && v1.recentOrder == v.recentOrder[|v.recentOrder| - |v1.recentOrder|..]
        && (|v1.recentOrder| < |v.recentOrder| ==> |v1.active| + |v1.recent| == v.recentLimit)
  {
    hide RecentOk, ActiveOk, EvictTo, Items, Distinct;
    if !v.closed && id !in v.active && id !in v.recent && |v.queue| < v.capacity {
      ActiveSize(v);
      EvictToKeeps(v, v.recentLimit);
      EvictionIsSuffix(v, v.recentLimit);
      RecentSize(EvictTo(v, v.recentLimit));
    }
  }

  lemma RecentSize(v: Voice)
    requires RecentOk(v)
    ensures |v.recent| == |v.recentOrder|
  {
    ItemsSize(v.recentOrder);
  }

  lemma {:induction false} EvictionIsSuffix(v: Voice, limit: nat)
    ensures var kept := EvictTo(v, limit).recentOrder;
      |kept| <= |v.recentOrder| && kept == v.recentOrder[|v.recentOrder| - |kept|..]
    decreases |v.recentOrder|
  {
    if v.recentOrder != [] {
      EvictionIsSuffix(Evict(v), limit);
    }
  }

  /** The front of the queue is spoken, and when it is finished it becomes the latest known ID. */
  lemma SpeakingDecides(v: Voice)
    requires Inv(v)
    ensures CanHappen(v, Takes) ==> Next(v, Takes) == v.(queue := v.queue[1..], speaking := Some(v.queue[0]))
    ensures CanHappen(v, Finishes) && !v.closed ==>
      var v1, id := Next(v, Finishes), v.speaking.value;
      v1 == v.(active := v.active - {id}, recent := v.recent + {id}, recentOrder := v.recentOrder + [id], speaking := None,
               finished := v.finished + [id])
    ensures CanHappen(v, Finishes) && v.closed ==> Next(v, Finishes) == v.(active := v.active - {v.speaking.value}, speaking := None)
    ensures var v1 := Next(v, Closes); v1.closed && v1.queue == [] && v1.speaking == v.speaking && v1.recent == v.recent
  {
    if v.speaking.Some? && !v.closed {
      FinishedActive(v);
      FinishedRecent(v, v.speaking.value);
    }
    hide RecentOk, ActiveOk, Items, Distinct;
  }

  /** The request that the event gets accepted, and the one whose speaking it begins. */
  ghost function Gains(v: Voice, ev: Event): seq<Id> {
    if ev.Enqueues? && Enqueue(v, ev.id).1 == Queued then [ev.id] else []
  }

  ghost function Begins(v: Voice, ev: Event): seq<Id>
    requires CanHappen(v, ev)
  {
    if ev.Takes? && Next(v, ev).speaking.Some? then [Next(v, ev).speaking.value] else []
  }

  lemma QueueMoves(v: Voice, ev: Event)
    requires Inv(v) && CanHappen(v, ev)
    ensures var v1 := Next(v, ev);
      && (v.closed ==> v1.closed && Gains(v, ev) == [] && Begins(v, ev) == [])
      && (!v.closed && v1.closed ==> Gains(v, ev) == [] && Begins(v, ev) == [])
      && (!v1.closed ==> v.queue + Gains(v, ev) == Begins(v, ev) + v1.queue)
  {
    match ev
    case Enqueues(id) => EnqueueDecides(v, id);
    case Takes => SpeakingDecides(v);
    case Finishes => SpeakingDecides(v);
    case Closes =>
  }

  /** The requests accepted in the first `k` events, and those that were begun to be spoken. */
  ghost function Accepted(states: seq<Voice>, evs: seq<Event>, k: nat): seq<Id>
    requires k <= |evs| && |states| == |evs| + 1
  {
    if k == 0 then [] else Accepted(states, evs, k - 1) + Gains(states[k - 1], evs[k - 1])
  }

  ghost function Spoken(states: seq<Voice>, evs: seq<Event>, k: nat): seq<Id>
    requires k <= |evs| && |states| == |evs| + 1 && forall j :: 0 <= j < |evs| ==> CanHappen(states[j], evs[j])
  {
    if k == 0 then [] else Spoken(states, evs, k - 1) + Begins(states[k - 1], evs[k - 1])
  }

  lemma Regroup(a: seq<Id>, b: seq<Id>, c: seq<Id>, d: seq<Id>, e: seq<Id>)
    requires b + c == d + e
    ensures a + b + c == a + d + e
  {
    assert a + b + c == a + (b + c) == a + (d + e);
  }

  /** Accepted requests are spoken in their order, each once; those that are not yet spoken wait
      in that order, until the queue is closed. */
  lemma {:induction false} SpokenInOrder(states: seq<Voice>, evs: seq<Event>, capacity: int, recentLimit: int, k: nat)
    requires IsRun(states, evs, capacity, recentLimit) && k < |states|
    ensures Spoken(states, evs, k) <= Accepted(states, evs, k)
    ensures !states[k].closed ==> Accepted(states, evs, k) == Spoken(states, evs, k) + states[k].queue
  {
    hide Inv, Next, CanHappen, Gains, Begins;
    if k > 0 {
      SpokenInOrder(states, evs, capacity, recentLimit, k - 1);
      RunKeeps(states, evs, capacity, recentLimit, k - 1);
      var v, ev := states[k - 1], evs[k - 1];
      assert CanHappen(v, ev) && states[k] == Next(v, ev);
      QueueMoves(v, ev);
      var spoken := Spoken(states, evs, k - 1);
      if !states[k].closed {
        Regroup(spoken, v.queue, Gains(v, ev), Begins(v, ev), states[k].queue);
      }
    }
  }
}
