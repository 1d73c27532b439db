/** Delivery safety of one operation, at every point where the daemon may die in it.

    A `World` is what survives the entry: the saves that may be in the database and,
    for the statement only, the possible deliveries so far and how far the last one has
    been accounted for. */
module FollowupDelivery {
  import opened FollowupQueue
  import opened FollowupCoherence

  datatype Delivery = Delivery(index: nat, id: Id)

  /** Accounting for the last possible delivery. `Busy`: nothing known yet. `Worked`: the
      agent was seen working on it. `Released`: the operator settled it and has not
      resumed. `Free`: it is over. */
  datatype Work =
    | Free
    | Busy(id: Id, at: int, basis: Observation)
    | Worked(id: Id, basis: Observation)
    | Released

  /** `log`: the saves that joined the FIFO, in order; the first `acked` are committed for
      sure, and the rest may be. */
  datatype World = World(log: seq<Queue>, acked: nat, deliveries: seq<Delivery>, work: Work)

  const NOTHING_YET := World([], 0, [], Free)

  predicate SameMonitor(basis: Observation, o: Observation) {
    o.running && o.target == basis.target && o.epoch == basis.epoch
  }

  /** A working transition counted after the delivery's baseline, not before the attempt. */
  predicate WorkEvidence(basis: Observation, at: int, o: Observation) {
    SameMonitor(basis, o) && o.revision > basis.revision && o.lastWorkingAt >= at
  }

  /** A ready observation newer than the last work. */
  predicate ReadyEvidence(basis: Observation, o: Observation) {
    SameMonitor(basis, o) && o.ready && o.observedAt > o.lastWorkingAt
  }

  function SeeWork(work: Work, o: Observation): Work {
    if work.Busy? && WorkEvidence(work.basis, work.at, o) then Worked(work.id, work.basis) else work
  }

  function SeeReady(work: Work, o: Observation): Work {
    if work.Worked? && ReadyEvidence(work.basis, o) then Free else work
  }

  predicate PossibleDelivery(ev: Event) {
    ev.Send? && ev.outcome != NotReady
  }

  function Apply(w: World, ev: Event): World {
    match ev
    case Saved(q) => w.(log := w.log + [q])
    case Acknowledged => w.(acked := |w.log|)
    case Observed(o) => w.(work := SeeReady(SeeWork(w.work, o), o))
    case Send(index, id, _, at, basis, _) =>
      if !PossibleDelivery(ev) then w
      else w.(deliveries := w.deliveries + [Delivery(index, id)], work := Busy(id, at, basis))
    case Settled(id) =>
      if (w.work.Busy? || w.work.Worked?) && w.work.id == id then w.(work := Released) else w
    case Resumed => if w.work.Released? then w.(work := Free) else w
    case Reloaded(k) => if k <= |w.log| then w.(log := w.log[..k], acked := k) else w
  }

  function ApplyAll(w: World, evs: seq<Event>): World
    decreases |evs|
  {
    if evs == [] then w else ApplyAll(Apply(w, evs[0]), evs[1..])
  }

  /** What every outside call has to respect: a send finds the previous delivery over and
      comes later in the queue than all earlier deliveries, and a restart reads some
      committed prefix of the saves. */
  predicate Respects(w: World, ev: Event) {
    && (PossibleDelivery(ev) ==>
          w.work.Free? && forall d :: d in w.deliveries ==> d.index < ev.index && d.id != ev.id)
    && (ev.Reloaded? ==> w.acked <= ev.k <= |w.log|)
  }

  // ---------- What holds at every point ----------

  /** A delivered item and all items before it have left the `Queued` state for good. */
  ghost predicate DeliveredOk(q: Queue, ds: seq<Delivery>) {
    forall d :: d in ds ==>
      && d.index < |q.items| && q.items[d.index].id == d.id
      && forall j :: 0 <= j <= d.index ==> q.items[j].state != Queued
  }

  ghost predicate OnlyActive(q: Queue, work: Work) {
    work.Busy? || work.Worked? ==> work.id == q.active
  }

  /** How a queue's phase bounds the accounting. */
  ghost predicate WorkOk(q: Queue, work: Work) {
    match q.phase
    case Ready => work.Free? || (q.paused && work.Released?)
    case Delivering => false
    case AwaitingWork =>
      && work.Busy? && work.id == q.active && work.at == q.attemptedAt
      && work.basis.target == q.target && work.basis.epoch == q.epoch && work.basis.revision == q.baseline
    case Working =>
      || work.Free?
      || (work.Worked? && work.id == q.active && work.basis.target == q.target && work.basis.epoch == q.epoch)
    case Attention => OnlyActive(q, work)
  }

  /** A stored queue that a restart may find. */
  ghost predicate CandidateOk(q: Queue, w: World) {
    Coherent(q) && DeliveredOk(q, w.deliveries) && WorkOk(Recover(q), w.work)
  }

  ghost predicate IsExtension(older: Queue, newer: Queue) {
    Ids(older.items) <= Ids(newer.items)
  }

  /** A restart may find any save from the last one acknowledged on. */
  ghost predicate CandidatesOk(w: World) {
    forall k :: w.acked <= k + 1 && 0 <= k < |w.log| ==> CandidateOk(w.log[k], w)
  }

  /** Later saves have the items of earlier ones, in the same places. */
  ghost predicate Ordered(log: seq<Queue>) {
    forall i, j :: 0 <= i <= j < |log| ==> IsExtension(log[i], log[j])
  }

  ghost predicate WorldOk(w: World) {
    && w.acked <= |w.log|
    && (w.acked == 0 ==> w.deliveries == [] && w.work.Free?)
    && CandidatesOk(w)
    && Ordered(w.log)
  }

  ghost predicate Extends(q: Queue, log: seq<Queue>) {
    forall i :: 0 <= i < |log| ==> IsExtension(log[i], q)
  }

  /** An entry between operations. */
  ghost predicate RestOk(e: Entry, w: World) {
    && WorldOk(w) && Coherent(e.queue) && DeliveredOk(e.queue, w.deliveries)
    && WorkOk(e.queue, w.work) && Extends(e.queue, w.log)
  }

  /** Every call is respected, and every point between two calls is one to die at safely. */
  ghost predicate AllOk(w: World, evs: seq<Event>)
    decreases |evs|
  {
    WorldOk(w) && (evs != [] ==> Respects(w, evs[0]) && AllOk(Apply(w, evs[0]), evs[1..]))
  }

  ghost predicate Good(w: World, p: Piece) {
    AllOk(w, p.calls) && RestOk(p.entry, ApplyAll(w, p.calls))
  }

  // ---------- Sequences of calls ----------

  lemma {:induction false} ApplyConcat(w: World, a: seq<Event>, b: seq<Event>)
    ensures ApplyAll(w, a + b) == ApplyAll(ApplyAll(w, a), b)
    decreases |a|
  {
    if a == [] {
      assert a + b == b;
    } else {
      assert (a + b)[1..] == a[1..] + b;
      ApplyConcat(Apply(w, a[0]), a[1..], b);
    }
  }

  lemma {:induction false} OkConcat(w: World, a: seq<Event>, b: seq<Event>)
    requires AllOk(w, a) && AllOk(ApplyAll(w, a), b)
    ensures AllOk(w, a + b)
    decreases |a|
  {
    hide WorldOk, Respects, Apply;
    if a == [] {
      assert a + b == b;
    } else {
      assert (a + b)[1..] == a[1..] + b;
      OkConcat(Apply(w, a[0]), a[1..], b);
    }
  }

  lemma {:induction false} OkAtEveryPoint(w: World, evs: seq<Event>, n: nat)
    requires AllOk(w, evs) && n <= |evs|
    ensures AllOk(w, evs[..n]) && WorldOk(ApplyAll(w, evs[..n]))
    ensures n < |evs| ==> Respects(ApplyAll(w, evs[..n]), evs[n])
    decreases n
  {
    hide WorldOk, Respects, Apply;
    if n > 0 {
      assert evs[..n][1..] == evs[1..][..n - 1];
      OkAtEveryPoint(Apply(w, evs[0]), evs[1..], n - 1);
    }
  }

  lemma GoodAfter(w: World, calls: seq<Event>, p: Piece)
    requires AllOk(w, calls) && Good(ApplyAll(w, calls), p)
    ensures Good(w, After(calls, p))
  {
    OkConcat(w, calls, p.calls);
    ApplyConcat(w, calls, p.calls);
  }

  lemma One(w: World, ev: Event)
    ensures ApplyAll(w, [ev]) == Apply(w, ev)
    ensures WorldOk(w) && Respects(w, ev) && WorldOk(Apply(w, ev)) ==> AllOk(w, [ev])
  {
    assert [ev][1..] == [];
    assert ApplyAll(Apply(w, ev), []) == Apply(w, ev);
    assert WorldOk(Apply(w, ev)) ==> AllOk(Apply(w, ev), []);
  }

  lemma Two(w: World, ev: Event, ev': Event)
    ensures ApplyAll(w, [ev, ev']) == Apply(Apply(w, ev), ev')
    ensures AllOk(w, [ev]) && AllOk(Apply(w, ev), [ev']) ==> AllOk(w, [ev, ev'])
  {
    assert [ev, ev'] == [ev] + [ev'];
    ApplyConcat(w, [ev], [ev']);
    One(w, ev);
    One(Apply(w, ev), ev');
    if AllOk(w, [ev]) && AllOk(Apply(w, ev), [ev']) {
      OkConcat(w, [ev], [ev']);
    }
  }

  // ---------- Single calls ----------

  predicate IsPassive(ev: Event) {
    ev.Observed? || ev.Settled? || ev.Resumed?
  }

  /** Observations and operator decisions never put a settled delivery back in doubt. */
  lemma CandidateStays(q: Queue, w: World, ev: Event)
    requires CandidateOk(q, w) && IsPassive(ev)
    ensures CandidateOk(q, Apply(w, ev))
  {
    RecoverKeeps(q);
    assert Apply(w, ev).deliveries == w.deliveries;
  }

  lemma PassiveKeeps(w: World, ev: Event)
    requires WorldOk(w) && IsPassive(ev)
    ensures WorldOk(Apply(w, ev)) && AllOk(w, [ev])
    ensures Apply(w, ev) == w.(work := Apply(w, ev).work)
  {
    var w1 := Apply(w, ev);
    assert w1 == w.(work := w1.work);
    hide CandidateOk, Ordered;
    assert CandidatesOk(w1) by {
      forall k | w1.acked <= k + 1 && 0 <= k < |w1.log| ensures CandidateOk(w1.log[k], w1) {
        CandidateStays(w.log[k], w, ev);
      }
    }
    assert w.acked == 0 ==> w1.work.Free?;
    hide CandidatesOk;
    One(w, ev);
  }

  lemma OrderedAppend(log: seq<Queue>, q: Queue)
    requires Ordered(log) && Extends(q, log)
    ensures Ordered(log + [q]) && Extends(q, log + [q])
  {
    assert IsExtension(q, q);
    hide IsExtension;
  }

  lemma SavedKeeps(w: World, q: Queue)
    requires WorldOk(w) && CandidateOk(q, w) && Extends(q, w.log)
    ensures WorldOk(Apply(w, Saved(q))) && Extends(q, Apply(w, Saved(q)).log)
  {
    var w1 := Apply(w, Saved(q));
    OrderedAppend(w.log, q);
    hide Ordered, Extends;
    forall c | CandidateOk(c, w) ensures CandidateOk(c, w1) {}
    hide CandidateOk;
    assert CandidatesOk(w1);
  }

  /** Saving a queue that may be found by a restart. */
  lemma SaveKeeps(e: Entry, out: SaveOutcome, w: World)
    requires WorldOk(w) && CandidateOk(e.queue, w) && Extends(e.queue, w.log)
    ensures AllOk(w, Save(e, out).calls)
    ensures var w1 := ApplyAll(w, Save(e, out).calls);
      && WorldOk(w1) && Extends(e.queue, w1.log)
      && w1.work == w.work && w1.deliveries == w.deliveries
      && (Save(e, out).goesOn ==> w1.acked == |w1.log| > 0 && w1.log[w1.acked - 1] == e.queue)
  {
    SavedKeeps(w, e.queue);
    var w1 := Apply(w, Saved(e.queue));
    var w2 := Apply(w1, Acknowledged);
    assert CandidateOk(e.queue, w2);
    hide CandidateOk, Ordered;
    assert CandidatesOk(w2);
    hide CandidatesOk;
    One(w, Saved(e.queue));
    One(w1, Acknowledged);
    Two(w, Saved(e.queue), Acknowledged);
  }

  /** What holds between operations may also be stored. */
  lemma RestIsCandidate(e: Entry, w: World)
    requires RestOk(e, w)
    ensures CandidateOk(e.queue, w)
  {
    RecoverKeeps(e.queue);
  }

  lemma SaveAtRest(e: Entry, out: SaveOutcome, w: World)
    requires RestOk(e, w)
    ensures Good(w, Save(e, out))
  {
    RestIsCandidate(e, w);
    SaveKeeps(e, out, w);
  }

  /** Putting the active delivery on hold is safe in every phase. */
  lemma AttendAtRest(e: Entry, reason: Reason, w: World)
    requires WorldOk(w) && Coherent(e.queue) && e.queue.active != ""
    requires DeliveredOk(e.queue, w.deliveries) && OnlyActive(e.queue, w.work) && Extends(e.queue, w.log)
    ensures RestOk(e.(queue := Attend(e.queue, reason)), w)
    ensures forall dirty :: RestOk(Entry(Attend(e.queue, reason), dirty), w)
  {
    AttendKeeps(e.queue, reason, ActiveAt(e.queue));
    assert Ids(Attend(e.queue, reason).items) == Ids(e.queue.items);
  }
}
