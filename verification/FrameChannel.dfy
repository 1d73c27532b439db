/** The one-slot channel between the reader of a subscription and its handler. One producer
    and one consumer interleave freely; every select statement is one step. */
module FrameChannel {
  import opened Basics

  /** A viewport update may be replaced by a later one; a close or an error may not. */
  datatype Frame = Update(text: string) | Control(note: string)

  /** Where the producer is while it offers the frame at a position. */
  datatype Producer =
    | Idle
    | Sending(frame: nat)
    | Stealing(frame: nat)
    | Returning(frame: nat, pending: nat)
    | Waiting(frame: nat)

  /** Frames are known by their positions in the subscription's output. */
  datatype Channel = Channel(frames: seq<Frame>, offered: nat, producer: Producer, slot: Option<nat>, delivered: seq<nat>)

  datatype Step = Offer | Send | Steal | Return | Unblock | Receive

  function Started(frames: seq<Frame>): Channel {
    Channel(frames, 0, Idle, None, [])
  }

  predicate IsControlAt(frames: seq<Frame>, k: nat) {
    k < |frames| && frames[k].Control?
  }

  predicate IsControl(c: Channel, k: nat) {
    IsControlAt(c.frames, k)
  }

  predicate Enabled(c: Channel, step: Step) {
    match step
    case Offer => c.producer == Idle && c.offered < |c.frames|
    case Send => c.producer.Sending?
    case Steal => c.producer.Stealing?
    case Return => c.producer.Returning? && c.slot == None
    case Unblock => c.producer.Waiting? && c.slot == None
    case Receive => c.slot.Some?
  }

  function Next(c: Channel, step: Step): Channel
    requires Enabled(c, step)
  {
    match step
    case Offer => c.(producer := Sending(c.offered), offered := c.offered + 1)
    case Send =>
      if c.slot == None then c.(slot := Some(c.producer.frame), producer := Idle)
      else c.(producer := Stealing(c.producer.frame))
    case Steal =>
      if c.slot == None then c.(producer := Sending(c.producer.frame))
      else if IsControl(c, c.slot.value) then c.(slot := None, producer := Returning(c.producer.frame, c.slot.value))
      else c.(slot := None, producer := Sending(c.producer.frame))
    case Return =>
      c.(slot := Some(c.producer.pending),
         producer := if IsControl(c, c.producer.frame) then Waiting(c.producer.frame) else Idle)
    case Unblock => c.(slot := Some(c.producer.frame), producer := Idle)
    case Receive => c.(slot := None, delivered := c.delivered + [c.slot.value])
  }

  /** `states` is a run from an empty channel. */
  ghost predicate IsRun(states: seq<Channel>, steps: seq<Step>) {
    && |states| == |steps| + 1 && states[0] == Started(states[0].frames)
    && forall k :: 0 <= k < |steps| ==> Enabled(states[k], steps[k]) && states[k + 1] == Next(states[k], steps[k])
  }

  // ---------- What is on its way ----------

  /** The frames that are neither delivered nor dropped, in the order of their delivery. */
  function Pending(c: Channel): seq<nat> {
    (if c.slot.Some? then [c.slot.value] else []) +
    match c.producer
    case Idle => []
    case Sending(f) => [f]
    case Stealing(f) => [f]
    case Returning(f, p) => [p, f]
    case Waiting(f) => [f]
  }

  /** Delivered so far, or still to be delivered. */
  function Kept(c: Channel): seq<nat> {
    c.delivered + Pending(c)
  }

  predicate Increasing(s: seq<nat>) {
    forall i, j :: 0 <= i < j < |s| ==> s[i] < s[j]
  }

  ghost predicate NoControl(frames: seq<Frame>, offered: nat) {
    forall k: nat :: k < offered ==> !IsControlAt(frames, k)
  }

  /** Of the first `offered` frames `kept` has some, in order, among them every control frame
      and, if there is none of those, the last one. */
  ghost predicate KeptOk(kept: seq<nat>, frames: seq<Frame>, offered: nat) {
    && Increasing(kept)
    && (forall i :: 0 <= i < |kept| ==> kept[i] < offered)
    && (forall k: nat :: k < offered && IsControlAt(frames, k) ==> k in kept)
    && (NoControl(frames, offered) && offered > 0 ==> kept != [] && kept[|kept| - 1] == offered - 1)
  }

  ghost predicate Inv(c: Channel) {
    && c.offered <= |c.frames| && KeptOk(Kept(c), c.frames, c.offered)
    && (c.producer.Returning? ==> c.slot == None && IsControl(c, c.producer.pending))
    && (c.producer.Waiting? ==> IsControl(c, c.producer.frame))
    && (c.producer != Idle ==> c.producer.frame == c.offered - 1)
  }

  lemma Appended(kept: seq<nat>, frames: seq<Frame>, n: nat)
    requires KeptOk(kept, frames, n) && n < |frames|
    ensures KeptOk(kept + [n], frames, n + 1)
  {
    forall k: nat | k < n + 1 && IsControlAt(frames, k) ensures k in kept + [n] {
      if k == n {
        assert (kept + [n])[|kept|] == k;
      }
    }
  }

  /** A waiting update gives way to a newer frame. */
  lemma StaleDropped(delivered: seq<nat>, stale: nat, newer: nat, frames: seq<Frame>, n: nat)
    requires KeptOk(delivered + [stale, newer], frames, n) && !IsControlAt(frames, stale)
    ensures KeptOk(delivered + [newer], frames, n)
  {
    var a, b := delivered + [stale, newer], delivered + [newer];
    assert forall i :: 0 <= i < |delivered| ==> a[i] == b[i] == delivered[i];
    assert a[|delivered|] == stale && a[|delivered| + 1] == newer && b[|delivered|] == newer;
    forall k: nat | k in a && k != stale ensures k in b {
    }
  }

  /** A newer update gives way to a waiting control frame. */
  lemma NewerDropped(delivered: seq<nat>, control: nat, newer: nat, frames: seq<Frame>, n: nat)
    requires KeptOk(delivered + [control, newer], frames, n)
    requires IsControlAt(frames, control) && !IsControlAt(frames, newer)
    ensures KeptOk(delivered + [control], frames, n)
  {
    var a, b := delivered + [control, newer], delivered + [control];
    assert forall i :: 0 <= i < |b| ==> a[i] == b[i];
    assert a[|delivered|] == control;
    forall k: nat | k in a && k != newer ensures k in b {
      var i :| 0 <= i < |a| && a[i] == k;
      assert b[i] == k;
    }
  }

  lemma NextKeeps(c: Channel, step: Step)
    requires Inv(c) && Enabled(c, step)
    ensures Inv(Next(c, step))
  {
    hide KeptOk;
    var c' := Next(c, step);
    match step
    case Offer =>
      assert Kept(c') == Kept(c) + [c.offered];
      Appended(Kept(c), c.frames, c.offered);
    case Send => assert Kept(c') == Kept(c);
    case Steal => StealKeeps(c);
    case Return => ReturnKeeps(c);
    case Unblock => assert Kept(c') == Kept(c);
    case Receive => assert Kept(c') == Kept(c);
  }

  lemma StealKeeps(c: Channel)
    requires Inv(c) && Enabled(c, Steal)
    ensures Inv(Next(c, Steal))
  {
    hide KeptOk;
    var c' := Next(c, Steal);
    if c.slot.Some? && !IsControl(c, c.slot.value) {
      assert Kept(c) == c.delivered + [c.slot.value, c.producer.frame];
      assert Kept(c') == c.delivered + [c.producer.frame];
      StaleDropped(c.delivered, c.slot.value, c.producer.frame, c.frames, c.offered);
    } else {
      assert Kept(c') == Kept(c);
    }
  }

  lemma ReturnKeeps(c: Channel)
    requires Inv(c) && Enabled(c, Return)
    ensures Inv(Next(c, Return))
  {
    hide KeptOk;
    var c' := Next(c, Return);
    if IsControl(c, c.producer.frame) {
      assert Kept(c') == Kept(c);
    } else {
      assert Kept(c) == c.delivered + [c.producer.pending, c.producer.frame];
      assert Kept(c') == c.delivered + [c.producer.pending];
      NewerDropped(c.delivered, c.producer.pending, c.producer.frame, c.frames, c.offered);
    }
  }

  lemma {:induction false} RunKeeps(states: seq<Channel>, steps: seq<Step>, k: nat)
    requires IsRun(states, steps) && k < |states|
    ensures Inv(states[k]) && states[k].frames == states[0].frames
  {
    if k > 0 {
      RunKeeps(states, steps, k - 1);
      NextKeeps(states[k - 1], steps[k - 1]);
    }
  }

  // ---------- What the consumer sees ----------

  /** Everything was offered and taken. */
  predicate IsOver(c: Channel) {
    c.offered == |c.frames| && c.producer == Idle && c.slot == None
  }

  /** At every moment the delivered frames are some of the offered ones in their order, and
      the control frames among the offered ones are delivered or on their way. */
  lemma DeliveredInOrder(states: seq<Channel>, steps: seq<Step>, k: nat)
    requires IsRun(states, steps) && k < |states|
    ensures var c := states[k];
      && Increasing(c.delivered) && (forall i :: 0 <= i < |c.delivered| ==> c.delivered[i] < c.offered)
      && (forall x: nat :: x < c.offered && IsControl(c, x) ==> x in c.delivered || x in Pending(c))
  {
    var c := states[k];
    RunKeeps(states, steps, k);
    assert forall i :: 0 <= i < |c.delivered| ==> Kept(c)[i] == c.delivered[i];
    forall x: nat | x < c.offered && IsControl(c, x) ensures x in c.delivered || x in Pending(c) {
      assert x in Kept(c);
    }
  }

  /** In the end every control frame was delivered, and if there was none the last update. */
  lemma NothingImportantIsLost(states: seq<Channel>, steps: seq<Step>, k: nat)
    requires IsRun(states, steps) && k < |states| && IsOver(states[k])
    ensures var c := states[k];
      && (forall x: nat :: IsControl(c, x) ==> x in c.delivered)
      && (NoControl(c.frames, |c.frames|) && c.frames != [] ==>
            c.delivered != [] && c.delivered[|c.delivered| - 1] == |c.frames| - 1)
  {
    var c := states[k];
    RunKeeps(states, steps, k);
    assert Kept(c) == c.delivered;
  }

  /** In this state the update `x` may give way: a newer frame finds it waiting, or it finds a
      control frame waiting. */
  predicate MayGiveWay(c: Channel, x: nat) {
    && !IsControl(c, x)
    && ((c.producer.Stealing? && c.slot == Some(x) && x < c.producer.frame)
        || (c.producer.Returning? && c.producer.frame == x && IsControl(c, c.producer.pending) && c.producer.pending < x))
  }

  /** The update at place `i` of the kept frames gives way, and no other. */
  predicate GivesWay(c: Channel, kept: seq<nat>, i: nat, kept': seq<nat>) {
    i < |kept| && MayGiveWay(c, kept[i]) && kept' == kept[..i] + kept[i + 1..]
  }

  lemma StealGivesWay(c: Channel)
    requires Inv(c) && Enabled(c, Steal) && c.slot.Some? && !IsControl(c, c.slot.value)
    ensures GivesWay(c, Kept(c), |c.delivered|, Kept(Next(c, Steal)))
  {
    var n, kept := |c.delivered|, c.delivered + [c.slot.value, c.producer.frame];
    assert Kept(c) == kept && kept[n] == c.slot.value && kept[n + 1] == c.producer.frame;
    assert kept[..n] + kept[n + 1..] == c.delivered + [c.producer.frame] == Kept(Next(c, Steal));
  }

  lemma ReturnGivesWay(c: Channel)
    requires Inv(c) && Enabled(c, Return) && !IsControl(c, c.producer.frame)
    ensures GivesWay(c, Kept(c), |c.delivered| + 1, Kept(Next(c, Return)))
  {
    var n, kept := |c.delivered|, c.delivered + [c.producer.pending, c.producer.frame];
    assert Kept(c) == kept && kept[n] == c.producer.pending && kept[n + 1] == c.producer.frame;
    assert kept[..n + 1] + kept[n + 1 + 1..] == c.delivered + [c.producer.pending] == Kept(Next(c, Return));
  }

  lemma KeepsAll(c: Channel, step: Step)
    requires Inv(c) && Enabled(c, step)
    requires step == Steal ==> c.slot.None? || IsControl(c, c.slot.value)
    requires step == Return ==> IsControl(c, c.producer.frame)
    ensures Kept(Next(c, step)) == Kept(c) + if step == Offer then [c.offered] else []
  {
    hide KeptOk;
  }

  /** A step takes the next frame up, or lets one update give way; otherwise all that was
      delivered or on its way still is, in the same order. */
  lemma StepKeepsOrGivesWay(c: Channel, step: Step) returns (i: nat)
    requires Inv(c) && Enabled(c, step)
    ensures var kept, kept' := Kept(c), Kept(Next(c, step));
      kept' == kept + (if step == Offer then [c.offered] else []) || GivesWay(c, kept, i, kept')
  {
    hide KeptOk, Kept, GivesWay;
    i := 0;
    if step == Steal && c.slot.Some? && !IsControl(c, c.slot.value) {
      StealGivesWay(c);
      i := |c.delivered|;
    } else if step == Return && !IsControl(c, c.producer.frame) {
      ReturnGivesWay(c);
      i := |c.delivered| + 1;
    } else {
      KeepsAll(c, step);
    }
  }

  lemma OnlyOneGivesWay(c: Channel, kept: seq<nat>, i: nat, kept': seq<nat>, x: nat)
    requires GivesWay(c, kept, i, kept') && x in kept && x !in kept'
    ensures MayGiveWay(c, x)
  {
    hide MayGiveWay;
    assert forall m :: 0 <= m < i ==> kept'[m] == kept[m];
    assert forall m :: i <= m < |kept'| ==> kept'[m] == kept[m + 1];
    assert forall m :: i < m < |kept| ==> kept[m] == kept'[m - 1];
  }

  lemma OfferedNext(c: Channel, step: Step)
    requires Enabled(c, step)
    ensures Next(c, step).offered == if step == Offer then c.offered + 1 else c.offered
  {
  }

  /** A frame that was offered and is neither delivered nor on its way gave way at some moment. */
  lemma {:induction false} LostGaveWay(states: seq<Channel>, steps: seq<Step>, k: nat, x: nat) returns (j: nat)
    requires IsRun(states, steps) && k < |states| && x < states[k].offered && x !in Kept(states[k])
    ensures j < k && MayGiveWay(states[j], x)
    decreases k
  {
    assert k > 0;
    RunKeeps(states, steps, k - 1);
    var c, c', step := states[k - 1], states[k], steps[k - 1];
    assert Enabled(c, step) && c' == Next(c, step);
    OfferedNext(c, step);
    hide KeptOk, Kept, MayGiveWay, GivesWay, Inv, Next, Enabled;
    var i := StepKeepsOrGivesWay(c, step);
    if x < c.offered && x !in Kept(c) {
      j := LostGaveWay(states, steps, k - 1, x);
    } else {
      j := k - 1;
      assert Kept(c') == Kept(c) + (if step == Offer then [c.offered] else []) ==> x in Kept(c');
      OnlyOneGivesWay(c, Kept(c), i, Kept(c'), x);
    }
  }

  /** A control frame that was put back never waits for the consumer, and only a control frame
      behind another one does. */
  lemma OnlyControlFramesBlock(states: seq<Channel>, steps: seq<Step>, k: nat)
    requires IsRun(states, steps) && k < |states|
    ensures var c := states[k];
      && (c.producer.Returning? ==> Enabled(c, Return))
      && (IsOver(c) || exists step :: Enabled(c, step))
      && (!IsOver(c) && c.slot == None ==> exists step :: step != Receive && Enabled(c, step))
      && (c.slot.Some? && (forall step :: Enabled(c, step) ==> step == Receive) ==>
            c.producer.Waiting? || (c.producer == Idle && c.offered == |c.frames|))
  {
    var c := states[k];
    RunKeeps(states, steps, k);
    var step := match c.producer
      case Idle => if c.offered < |c.frames| then Offer else Receive
      case Sending(_) => Send
      case Stealing(_) => Steal
      case Returning(_, _) => Return
      case Waiting(_) => if c.slot == None then Unblock else Receive;
    assert IsOver(c) || Enabled(c, step);
  }

  // ---------- The offering loop ----------

  /** The same frames were offered, and no fewer were delivered. */
  predicate IsLater(before: Channel, after: Channel) {
    after.frames == before.frames && after.offered == before.offered && before.delivered <= after.delivered
  }

  /** The producer waits with a control frame behind another one. */
  predicate IsBlocked(c: Channel) {
    c.producer.Waiting? && IsControl(c, c.producer.frame) && c.slot.Some? && IsControl(c, c.slot.value)
  }

  class Subscription {
    var channel: Channel

    constructor (frames: seq<Frame>)
      ensures channel == Started(frames) && Inv(channel)
    {
      channel := Started(frames);
      assert Kept(Started(frames)) == [];
    }

    /** The consumer may take the waiting frame. */
    method MaybeReceive()
      requires Inv(channel)
      modifies this
      ensures Inv(channel)
      ensures channel == old(channel) || (old(channel).slot.Some? && channel == Next(old(channel), Receive))
    {
      if channel.slot.Some? {
        if * {
          Take(Receive);
        }
      }
    }

    method Take(step: Step)
      requires Inv(channel) && Enabled(channel, step)
      modifies this
      ensures Inv(channel) && channel == Next(old(channel), step)
    {
      NextKeeps(channel, step);
      channel := Next(channel, step);
    }

    /** One round of the loop. It ends the loop unless the producer took an update from the slot or
        the consumer took the frame there; then the slot is empty. */
    method Round() returns (blocked: bool)
      requires Inv(channel) && channel.producer.Sending?
      modifies this
      ensures Inv(channel) && IsLater(old(channel), channel)
      ensures !blocked ==> channel.producer == Idle || (channel.producer == old(channel).producer && channel.slot == None)
      ensures old(channel).slot == None ==> channel.producer == Idle
      ensures blocked ==> IsBlocked(channel) && channel.producer.frame == old(channel).producer.frame
    {
      hide KeptOk, Pending, Kept;
      blocked := false;
      MaybeReceive();
      Take(Send);
      if channel.producer == Idle {
        return;
      }
      MaybeReceive();
      Take(Steal);
      if channel.producer.Returning? {
        Take(Return);
        if channel.producer.Waiting? {
          MaybeReceive();
          if channel.slot.Some? {
            return true;
          }
          Take(Unblock);
        }
      }
    }

    /** Offering one frame takes at most two rounds, whatever the consumer takes between any two
        steps: the producer never spins. `blocked`: it stopped behind a waiting control frame
        with a control frame of its own, until the consumer takes the other one. */
    method OfferFrame() returns (blocked: bool, ghost rounds: nat)
      requires Inv(channel) && channel.producer == Idle && channel.offered < |channel.frames|
      modifies this
      ensures Inv(channel) && 1 <= rounds <= 2
      ensures channel.frames == old(channel).frames && channel.offered == old(channel).offered + 1
      ensures old(channel).delivered <= channel.delivered
      ensures !blocked ==> channel.producer == Idle
      ensures blocked ==> IsBlocked(channel) && channel.producer.frame == old(channel).offered
    {
      hide KeptOk, Pending, Kept;
      Take(Offer);
      blocked, rounds := false, 0;
      while channel.producer != Idle && !blocked
        invariant Inv(channel) && IsLater(old(channel).(offered := old(channel).offered + 1), channel)
        invariant if blocked then IsBlocked(channel) && channel.producer.frame == old(channel).offered
                  else channel.producer == Idle || channel.producer == Sending(old(channel).offered)
        invariant rounds <= 2 && (rounds == 0 ==> channel.producer != Idle && !blocked)
        invariant rounds > 0 && channel.producer != Idle && !blocked ==> rounds == 1 && channel.slot == None
        decreases 2 - rounds
      {
        rounds := rounds + 1;
        blocked := Round();
      }
    }

    /** The blocked producer goes on once the consumer has taken the waiting frame. */
    method Resume()
      requires Inv(channel) && channel.producer.Waiting? && channel.slot == None
      modifies this
      ensures Inv(channel) && channel == old(channel).(slot := Some(old(channel).producer.frame), producer := Idle)
    {
      Take(Unblock);
    }
  }
}
