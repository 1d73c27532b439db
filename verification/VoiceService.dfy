/** The voice notification service: its queue, sets and window are fields that its sections
    update in place. */
module VoiceService {
  import opened Basics
  import opened VoiceQueue

  class Notifier {
    const capacity: nat
    const recentLimit: nat
    var queue: seq<Id>
    var active: set<Id>
    var recent: set<Id>
    var recentOrder: seq<Id>
    var speaking: Option<Id>
    var closed: bool
    ghost var finished: seq<Id>

    ghost function State(): Voice
      reads this
    {
      Voice(capacity, recentLimit, queue, active, recent, recentOrder, speaking, closed, finished)
    }

    constructor (capacity: int, recentLimit: int)
      requires New(capacity, recentLimit).Some?
      ensures New(capacity, recentLimit) == Some(State()) && Inv(State())
    {
      this.capacity := if capacity == 0 then DEFAULT_CAPACITY else capacity;
      this.recentLimit := if recentLimit == 0 then DEFAULT_RECENT_LIMIT else recentLimit;
      queue, active, recent, recentOrder, speaking, closed, finished := [], {}, {}, [], None, false, [];
    }

    method EvictOldest()
      requires recentOrder != []
      modifies this`recent, this`recentOrder
      ensures State() == Evict(old(State()))
    {
      var oldest := recentOrder[0];
      recentOrder := recentOrder[1..];
      recent := recent - {oldest};
    }

    /** The window always has an ID to evict while there is no room. */
    method MakeRoom(limit: nat)
      requires RecentOk(State()) && |active| < limit
      modifies this`recent, this`recentOrder
      ensures State() == EvictTo(old(State()), limit)
    {
      hide RecentOk;
      while |active| + |recent| >= limit
        invariant RecentOk(State()) && EvictTo(State(), limit) == EvictTo(old(State()), limit)
        invariant State() == old(State()).(recent := recent, recentOrder := recentOrder)
        decreases |recentOrder|
      {
        SomethingRecent(State());
        EvictKeeps(State());
        EvictOldest();
      }
    }

    lemma SomethingRecent(v: Voice)
      requires RecentOk(v)
      ensures |v.recent| > 0 ==> v.recentOrder != []
    {
      ItemsSize(v.recentOrder);
    }

    method Submit(id: Id) returns (answer: Answer)
      requires Inv(State())
      modifies this
      ensures Inv(State()) && (State(), answer) == Enqueue(old(State()), id)
    {
      hide Inv, RecentOk, EvictTo;
      EnqueueKeeps(State(), id);
      if closed {
        return IsClosed;
      }
      if id in active {
        return Duplicate;
      }
      if id in recent {
        return Duplicate;
      }
      if |queue| >= capacity {
        return QueueFull;
      }
      RoomFor(State());
      MakeRoom(recentLimit);
      queue := queue + [id];
      active := active + {id};
      return Queued;
    }

    lemma RoomFor(v: Voice)
      requires Inv(v) && !v.closed && |v.queue| < v.capacity
      ensures RecentOk(v) && |v.active| < v.recentLimit
    {
      ActiveSize(v);
    }

    method TakeNext() returns (id: Id)
      requires Inv(State()) && !closed && queue != [] && speaking == None
      modifies this
      ensures Inv(State()) && State() == Take(old(State())) && speaking == Some(id)
    {
      hide Inv;
      TakeKeeps(State());
      id := queue[0];
      queue := queue[1..];
      speaking := Some(id);
    }

    method FinishSpoken()
      requires Inv(State()) && speaking.Some?
      modifies this
      ensures Inv(State()) && State() == Finish(old(State()))
    {
      hide Inv, RecentOk, EvictTo;
      FinishKeeps(State());
      var id := speaking.value;
      speaking := None;
      active := active - {id};
      if closed {
        return;
      }
      recent := recent + {id};
      recentOrder := recentOrder + [id];
      finished := finished + [id];
      StillRecent(old(State()));
      MakeRoom(recentLimit + 1);
    }

    lemma StillRecent(v: Voice)
      requires Inv(v) && v.speaking.Some? && !v.closed
      ensures var id := v.speaking.value;
        var v1 := v.(active := v.active - {id}, speaking := None,
                     recent := v.recent + {id}, recentOrder := v.recentOrder + [id], finished := v.finished + [id]);
        RecentOk(v1) && |v1.active| < v.recentLimit + 1
    {
      FinishedActive(v);
      FinishedRecent(v, v.speaking.value);
    }

    method Shut()
      requires Inv(State())
      modifies this
      ensures Inv(State()) && (!old(closed) ==> State() == VoiceQueue.Close(old(State())))
    {
      hide Inv;
      CloseKeeps(State());
      if !closed {
        closed := true;
        queue := [];
        active := {};
      }
    }
  }
}
