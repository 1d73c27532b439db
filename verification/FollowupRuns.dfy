/** Whole runs of the follow-up queue of one agent: scans, operator edits, deaths at any
    point of them, and restarts from any committed prefix of the saves. */
module FollowupRuns {
  import opened Basics
  import opened FollowupQueue
  import opened FollowupCoherence
  import opened FollowupDelivery
  import opened FollowupSteps

  datatype Process = Down | Up(entry: Option<Entry>)

  datatype State = State(process: Process, world: World, trace: seq<Event>)

  const START := State(Up(None), NOTHING_YET, [])

  /** `Dying(op, cut)`: the daemon dies in `op`, after `cut` of its outside calls. */
  datatype Op =
    | Scanning(scan: Scan)
    | Editing(request: Request, input: EditInput)
    | Restarting(k: nat, save: SaveOutcome)
    | Dying(op: Op, cut: nat)

  /** The outside calls of an operation, and the process after it. */
  datatype Effect = Effect(process: Process, calls: seq<Event>)

  function Perform(s: State, agent: Id, op: Op): Effect
    decreases op
  {
    match op
    case Scanning(scan) =>
      if s.process.Up? && s.process.entry.Some? then
        var p := Step(s.process.entry.value, scan);
        Effect(Up(Some(p.entry)), p.calls)
      else Effect(s.process, [])
    case Editing(request, input) =>
      if s.process.Up? then
        var r := Update(s.process.entry, agent, request, input);
        Effect(Up(r.entry), r.calls)
      else Effect(s.process, [])
    case Restarting(k, save) =>
      if k == 0 || k > |s.world.log| then Effect(Up(None), [Reloaded(k)])
      else
        var p := Load(s.world.log[k - 1], save);
        Effect(if p.goesOn then Up(Some(p.entry)) else Down, [Reloaded(k)] + p.calls)
    case Dying(inner, cut) =>
      var calls := Perform(s, agent, inner).calls;
      Effect(Down, if cut <= |calls| then calls[..cut] else calls)
  }

  /** New item IDs are fresh, and a restart of a dead daemon reads a committed prefix. */
  ghost predicate Legal(s: State, agent: Id, op: Op)
    decreases op
  {
    match op
    case Scanning(_) => true
    case Editing(_, input) => s.process.Up? ==> FreshId(s.process.entry, input.newId)
    case Restarting(k, _) => s.process.Down? && s.world.acked <= k <= |s.world.log|
    case Dying(inner, cut) => Legal(s, agent, inner) && cut <= |Perform(s, agent, inner).calls|
  }

  function Next(s: State, agent: Id, op: Op): State {
    var f := Perform(s, agent, op);
    State(f.process, ApplyAll(s.world, f.calls), s.trace + f.calls)
  }

  function Run(s: State, agent: Id, ops: seq<Op>): State
    decreases |ops|
  {
    if ops == [] then s else Run(Next(s, agent, ops[0]), agent, ops[1..])
  }

  ghost predicate LegalRun(s: State, agent: Id, ops: seq<Op>)
    decreases |ops|
  {
    ops != [] ==> Legal(s, agent, ops[0]) && LegalRun(Next(s, agent, ops[0]), agent, ops[1..])
  }

  // ---------- The invariant ----------

  ghost predicate ProcessOk(p: Process, w: World) {
    && WorldOk(w)
    && (p.Up? ==> if p.entry.Some? then RestOk(p.entry.value, w) else w.log == [])
  }

  ghost predicate Inv(s: State) {
    && ProcessOk(s.process, s.world)
    && AllOk(NOTHING_YET, s.trace) && s.world == ApplyAll(NOTHING_YET, s.trace)
  }

  lemma StartOk()
    ensures Inv(START)
  {}

  lemma ReloadThenLoad(w: World, k: nat, save: SaveOutcome)
    requires WorldOk(w) && w.acked <= k <= |w.log| && k > 0
    ensures Good(w, After([Reloaded(k)], Load(w.log[k - 1], save)))
  {
    var w1 := Apply(w, Reloaded(k));
    ReloadKeeps(w, k);
    One(w, Reloaded(k));
    assert w1.log[w1.acked - 1] == w.log[k - 1] && w1.acked == |w1.log| > 0;
    hide CandidateOk, WorldOk, RestOk, Load, AllOk, ApplyAll, Apply;
    LoadGood(w.log[k - 1], save, w1);
    GoodAfter(w, [Reloaded(k)], Load(w.log[k - 1], save));
  }

  lemma ReloadNothing(w: World)
    requires WorldOk(w) && w.acked == 0
    ensures var w1 := ApplyAll(w, [Reloaded(0)]);
      AllOk(w, [Reloaded(0)]) && WorldOk(w1) && w1.log == []
  {
    ReloadKeeps(w, 0);
    One(w, Reloaded(0));
  }

  lemma RestartKeeps(s: State, agent: Id, k: nat, save: SaveOutcome)
    requires WorldOk(s.world) && s.world.acked <= k <= |s.world.log|
    ensures var f := Perform(s, agent, Restarting(k, save));
      AllOk(s.world, f.calls) && ProcessOk(f.process, ApplyAll(s.world, f.calls))
  {
    hide WorldOk, Load, AllOk, ApplyAll, CandidateOk;
    if k > 0 {
      ReloadThenLoad(s.world, k, save);
    } else {
      ReloadNothing(s.world);
    }
  }

  lemma PerformKeeps(s: State, agent: Id, op: Op)
    requires ProcessOk(s.process, s.world) && Legal(s, agent, op)
    ensures var f := Perform(s, agent, op);
      AllOk(s.world, f.calls) && ProcessOk(f.process, ApplyAll(s.world, f.calls))
    decreases op
  {
    match op {
      case Scanning(scan) =>
        if s.process.Up? && s.process.entry.Some? {
          StepGood(s.process.entry.value, scan, s.world);
        }
      case Editing(request, input) =>
        if s.process.Up? {
          UpdateGood(s.process.entry, agent, request, input, s.world);
        }
      case Restarting(k, save) => RestartKeeps(s, agent, k, save);
      case Dying(inner, cut) =>
        PerformKeeps(s, agent, inner);
        OkAtEveryPoint(s.world, Perform(s, agent, inner).calls, cut);
    }
  }

  lemma NextKeeps(s: State, agent: Id, op: Op)
    requires Inv(s) && Legal(s, agent, op)
    ensures Inv(Next(s, agent, op))
  {
    PerformKeeps(s, agent, op);
    var calls := Perform(s, agent, op).calls;
    OkConcat(NOTHING_YET, s.trace, calls);
    ApplyConcat(NOTHING_YET, s.trace, calls);
  }

  /** Every reachable state satisfies the invariant, however the daemon dies and restarts. */
  lemma {:induction false} RunKeeps(s: State, agent: Id, ops: seq<Op>)
    requires Inv(s) && LegalRun(s, agent, ops)
    ensures Inv(Run(s, agent, ops))
    decreases |ops|
  {
    if ops != [] {
      NextKeeps(s, agent, ops[0]);
      RunKeeps(Next(s, agent, ops[0]), agent, ops[1..]);
    }
  }

  ghost predicate Reachable(s: State, agent: Id) {
    exists ops :: LegalRun(START, agent, ops) && s == Run(START, agent, ops)
  }

  lemma ReachableOk(s: State, agent: Id)
    requires Reachable(s, agent)
    ensures Inv(s)
  {
    var ops :| LegalRun(START, agent, ops) && s == Run(START, agent, ops);
    StartOk();
    RunKeeps(START, agent, ops);
  }

  // ---------- At most once, in order ----------

  lemma {:induction false} DeliveryRemembered(tr: seq<Event>, i: nat, n: nat)
    requires i < n <= |tr| && PossibleDelivery(tr[i])
    ensures Delivery(tr[i].index, tr[i].id) in ApplyAll(NOTHING_YET, tr[..n]).deliveries
    decreases n
  {
    PrefixStep(tr, n);
    var w := ApplyAll(NOTHING_YET, tr[..n - 1]);
    if i < n - 1 {
      DeliveryRemembered(tr, i, n - 1);
    }
    assert ApplyAll(NOTHING_YET, tr[..n]) == Apply(w, tr[n - 1]);
    if PossibleDelivery(tr[n - 1]) {
      assert Apply(w, tr[n - 1]).deliveries == w.deliveries + [Delivery(tr[n - 1].index, tr[n - 1].id)];
    } else {
      assert Apply(w, tr[n - 1]).deliveries == w.deliveries;
    }
  }

  lemma PrefixStep(tr: seq<Event>, n: nat)
    requires 0 < n <= |tr|
    ensures ApplyAll(NOTHING_YET, tr[..n]) == Apply(ApplyAll(NOTHING_YET, tr[..n - 1]), tr[n - 1])
  {
    assert tr[..n] == tr[..n - 1] + [tr[n - 1]];
    ApplyConcat(NOTHING_YET, tr[..n - 1], [tr[n - 1]]);
    One(ApplyAll(NOTHING_YET, tr[..n - 1]), tr[n - 1]);
  }

  /** Over every run, any two possible deliveries are of two different items, the later one
      further down the queue. So no item is delivered twice. */
  lemma AtMostOnceInOrder(s: State, agent: Id, i: nat, j: nat)
    requires Reachable(s, agent) && i < j < |s.trace|
    requires PossibleDelivery(s.trace[i]) && PossibleDelivery(s.trace[j])
    ensures s.trace[i].id != s.trace[j].id && s.trace[i].index < s.trace[j].index
  {
    ReachableOk(s, agent);
    hide Inv, WorldOk, ProcessOk;
    DeliveryRemembered(s.trace, i, j);
    OkAtEveryPoint(NOTHING_YET, s.trace, j);
  }

  /** `q` holds the item of a possible delivery in its place, and not as queued. */
  ghost predicate NotQueuedIn(q: Queue, ev: Event)
    requires ev.Send?
  {
    ev.index < |q.items| && q.items[ev.index].id == ev.id && q.items[ev.index].state != Queued
  }

  /** After a possible delivery the item is never queued again: not in memory, and not in
      any queue that a restart may find. */
  lemma NeverRequeued(s: State, agent: Id, i: nat, k: nat)
    requires Reachable(s, agent) && i < |s.trace| && PossibleDelivery(s.trace[i])
    requires s.world.acked <= k <= |s.world.log|
    ensures s.process.Up? ==> s.process.entry.Some? && NotQueuedIn(s.process.entry.value.queue, s.trace[i])
    ensures k > 0 && NotQueuedIn(s.world.log[k - 1], s.trace[i])
    ensures NotQueuedIn(Recover(s.world.log[k - 1]), s.trace[i])
  {
    ReachableOk(s, agent);
    DeliveryRemembered(s.trace, i, |s.trace|);
    assert s.trace[..|s.trace|] == s.trace;
    assert Delivery(s.trace[i].index, s.trace[i].id) in s.world.deliveries;
    var stored := s.world.log[k - 1];
    assert CandidateOk(stored, s.world);
    RecoverKeeps(stored);
    assert Ids(Recover(stored).items)[s.trace[i].index] == Ids(stored.items)[s.trace[i].index];
  }

  // ---------- No overlapping work ----------

  /** The delivery at `i` is followed by counted work and then by a newer ready prompt. */
  ghost predicate WorkedBetween(tr: seq<Event>, i: nat, n: nat)
    requires i < n <= |tr| && tr[i].Send?
  {
    exists m, r ::
      && i < m <= r < n && tr[m].Observed? && tr[r].Observed?
      && WorkEvidence(tr[i].basis, tr[i].at, tr[m].observation) && ReadyEvidence(tr[i].basis, tr[r].observation)
  }

  /** The operator settles the delivery at `i` and later resumes the queue. */
  ghost predicate DecidedBetween(tr: seq<Event>, i: nat, n: nat)
    requires i < n <= |tr| && tr[i].Send?
  {
    exists m, r :: i < m < r < n && tr[m] == Settled(tr[i].id) && tr[r] == Resumed
  }

  ghost predicate IsOver(tr: seq<Event>, i: nat, n: nat)
    requires i < n <= |tr| && tr[i].Send?
  {
    WorkedBetween(tr, i, n) || DecidedBetween(tr, i, n)
  }

  ghost predicate AllOverBut(tr: seq<Event>, last: int, n: nat)
    requires n <= |tr|
  {
    forall i :: 0 <= i < n && i != last && PossibleDelivery(tr[i]) ==> IsOver(tr, i, n)
  }

  /** What the accounting stands for, in terms of the events; `i` is the delivery in doubt. */
  ghost predicate Means(tr: seq<Event>, n: nat, work: Work, i: int)
    requires n <= |tr|
  {
    && AllOverBut(tr, i, n)
    && (work.Free? ==> i == -1)
    && (!work.Free? ==> 0 <= i < n && PossibleDelivery(tr[i]))
    && (work.Busy? ==> work == Busy(tr[i].id, tr[i].at, tr[i].basis))
    && (work.Worked? ==> work == Worked(tr[i].id, tr[i].basis))
    && (work.Worked? ==>
          exists m :: i < m < n && tr[m].Observed? && WorkEvidence(tr[i].basis, tr[i].at, tr[m].observation))
    && (work.Released? ==> exists m :: i < m < n && tr[m] == Settled(tr[i].id))
  }

  lemma OverStays(tr: seq<Event>, last: int, n: nat)
    requires 0 < n <= |tr| && AllOverBut(tr, last, n - 1)
    ensures forall i :: 0 <= i < n - 1 && i != last && PossibleDelivery(tr[i]) ==> IsOver(tr, i, n)
  {
    forall i | 0 <= i < n - 1 && i != last && PossibleDelivery(tr[i]) ensures IsOver(tr, i, n) {
      assert IsOver(tr, i, n - 1);
    }
  }

  /** One more event: the accounting still means what it says. */
  lemma MeaningStep(tr: seq<Event>, n: nat, work: Work, i: int) returns (i': int)
    requires 0 < n <= |tr| && Means(tr, n - 1, work, i)
    requires PossibleDelivery(tr[n - 1]) ==> work.Free?
    ensures Means(tr, n, Apply(NOTHING_YET.(work := work), tr[n - 1]).work, i')
  {
    var ev := tr[n - 1];
    var work' := Apply(NOTHING_YET.(work := work), ev).work;
    OverStays(tr, i, n);
    i' := if PossibleDelivery(ev) then n - 1 else if work'.Free? then -1 else i;
    if work.Worked? {
      var m :| i < m < n - 1 && tr[m].Observed? && WorkEvidence(tr[i].basis, tr[i].at, tr[m].observation);
      if ev.Observed? && work'.Free? {
        assert WorkedBetween(tr, i, n) by { assert i < m <= n - 1 < n; }
      }
      assert i < m < n;
    }
    if work.Busy? && ev.Observed? && SeeWork(work, ev.observation).Worked? {
      assert i < n - 1 < n && WorkEvidence(tr[i].basis, tr[i].at, tr[n - 1].observation);
      if work'.Free? {
        assert WorkedBetween(tr, i, n) by { assert i < n - 1 <= n - 1 < n; }
      }
    }
    if work.Released? {
      var m :| i < m < n - 1 && tr[m] == Settled(tr[i].id);
      if ev.Resumed? {
        assert DecidedBetween(tr, i, n) by { assert i < m < n - 1 < n; }
      }
      assert i < m < n;
    }
    if work'.Released? && ev.Settled? && !work.Released? {
      assert i < n - 1 < n && tr[n - 1] == Settled(tr[i].id);
    }
  }

  lemma {:induction false} Meaning(tr: seq<Event>, n: nat) returns (i: int)
    requires AllOk(NOTHING_YET, tr) && n <= |tr|
    ensures Means(tr, n, ApplyAll(NOTHING_YET, tr[..n]).work, i)
    decreases n
  {
    if n == 0 {
      i := -1;
    } else {
      i := Meaning(tr, n - 1);
      var w := ApplyAll(NOTHING_YET, tr[..n - 1]);
      OkAtEveryPoint(NOTHING_YET, tr, n - 1);
      PrefixStep(tr, n);
      assert Apply(w, tr[n - 1]).work == Apply(NOTHING_YET.(work := w.work), tr[n - 1]).work;
      hide WorldOk, AllOk, Means;
      i := MeaningStep(tr, n, w.work, i);
    }
  }

  /** Over every run, between two possible deliveries the first one's work was seen and then
      a newer ready prompt, or the operator settled it and then resumed the queue. */
  lemma NoOverlap(s: State, agent: Id, i: nat, j: nat)
    requires Reachable(s, agent) && i < j < |s.trace|
    requires PossibleDelivery(s.trace[i]) && PossibleDelivery(s.trace[j])
    ensures WorkedBetween(s.trace, i, j) || DecidedBetween(s.trace, i, j)
  {
    ReachableOk(s, agent);
    OkAtEveryPoint(NOTHING_YET, s.trace, j);
    var last := Meaning(s.trace, j);
    assert IsOver(s.trace, i, j);
  }
}
