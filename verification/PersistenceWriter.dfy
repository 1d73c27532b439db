/** The single-goroutine writer behind all daemon stores: a FIFO of row changes that is
    committed in batches. Every function below is one section under the writer's lock, or
    one database commit; any interleaving of them is a run. */
module PersistenceWriter {
  import opened Basics

  datatype Key = Key(table: string, id: string)

  /** `None` deletes the row. */
  datatype Change<+V> = Change(key: Key, row: Option<V>)

  /** `waits`: somebody waits for this change's acknowledgement. */
  datatype Queued<+V> = Queued(change: Change<V>, waits: bool)

  /** The result handed to the waiter of the `position`-th change. */
  datatype Ack = Ack(position: nat, ok: bool)

  datatype Runner = Top | Waiting | Committing | Retrying | Ending | Ended

  /** `base`, `enqueued`, `done`, `lost` and `acks` record the history: the database at the
      start, all changes enqueued since, those whose commit succeeded, those given up, and the answers. The other fields are the
      writer's own, and `disk` is the database. */
  datatype Writer<V> = Writer(
    pending: seq<Queued<V>>,
    batch: seq<Queued<V>>,
    closing: bool,
    canceled: bool,
    wake: bool,
    runner: Runner,
    base: map<Key, V>,
    disk: map<Key, V>,
    enqueued: seq<Queued<V>>,
    done: seq<Queued<V>>,
    lost: seq<Queued<V>>,
    acks: seq<Ack>)

  const BATCH_LIMIT := 256

  function Opened<V>(base: map<Key, V>): Writer<V> {
    Writer([], [], false, false, false, Top, base, base, [], [], [], [])
  }

  // ---------- Tables ----------

  function Write<V>(t: map<Key, V>, c: Change<V>): map<Key, V> {
    match c.row
    case None => t - {c.key}
    case Some(v) => t[c.key := v]
  }

  function WriteAll<V>(t: map<Key, V>, qs: seq<Queued<V>>): map<Key, V> {
    if qs == [] then t else Write(WriteAll(t, qs[..|qs| - 1]), qs[|qs| - 1].change)
  }

  function Row<V>(t: map<Key, V>, key: Key): Option<V> {
    if key in t then Some(t[key]) else None
  }

  // ---------- The sections ----------

  function Append<V>(w: Writer<V>, qs: seq<Queued<V>>): Writer<V> {
    w.(pending := w.pending + qs, enqueued := w.enqueued + qs, wake := true)
  }

  /** Producers must have stopped before `Close`; the original panics otherwise. */
  function AfterEnqueue<V>(w: Writer<V>, changes: seq<Change<V>>): Writer<V>
    requires !w.closing
  {
    Append(w, seq(|changes|, i requires 0 <= i < |changes| => Queued(changes[i], false)))
  }

  /** `expired`: the caller's context is already over. The result is whether it may wait. */
  function AfterEnqueueAndWait<V>(w: Writer<V>, change: Change<V>, expired: bool): (Writer<V>, bool) {
    if expired || w.closing || w.canceled then (w, false) else (Append(w, [Queued(change, true)]), true)
  }

  function Min(a: nat, b: nat): nat { if a < b then a else b }

  /** The head of the run loop: take the next batch if the last one is finished. */
  function TakeBatch<V>(w: Writer<V>): Writer<V>
    requires w.runner == Top
  {
    if w.batch != [] then w.(runner := Committing)
    else
      var n := Min(|w.pending|, BATCH_LIMIT);
      var w1 := w.(batch := w.pending[..n], pending := w.pending[n..]);
      w1.(runner := if w1.batch != [] then Committing else if w.closing then Ending else Waiting)
  }

  /** The waiting loop leaves on a wake-up, or on cancellation. */
  function StopWaiting<V>(w: Writer<V>, onCancel: bool): Writer<V>
    requires w.runner == Waiting && if onCancel then w.canceled else w.wake
  {
    if onCancel then w.(runner := Ending) else w.(runner := Top, wake := false)
  }

  /** `Ambiguous`: the database reports an error but has the batch. */
  datatype CommitOutcome = Done | Failed | Ambiguous

  function Acknowledge<V>(qs: seq<Queued<V>>, from: nat, ok: bool): seq<Ack>
    decreases |qs|
  {
    if qs == [] then []
    else (if qs[0].waits then [Ack(from, ok)] else []) + Acknowledge(qs[1..], from + 1, ok)
  }

  function Commit<V>(w: Writer<V>, out: CommitOutcome): Writer<V>
    requires w.runner == Committing
  {
    var written := WriteAll(w.disk, w.batch);
    match out
    case Failed => w.(runner := Retrying)
    case Ambiguous => w.(runner := Retrying, disk := written)
    case Done => w.(runner := Top, disk := written, batch := [], done := w.done + w.batch,
                    acks := w.acks + Acknowledge(w.batch, |w.done|, true))
  }

  function StopRetrying<V>(w: Writer<V>, onCancel: bool): Writer<V>
    requires w.runner == Retrying && (onCancel ==> w.canceled)
  {
    w.(runner := if onCancel then Ending else Top)
  }

  /** The run loop's last section: everything uncommitted is refused. */
  function End<V>(w: Writer<V>): Writer<V>
    requires w.runner == Ending
  {
    w.(closing := true, batch := [], pending := [], runner := Ended, lost := w.batch + w.pending,
       acks := w.acks + (Acknowledge(w.batch, |w.done|, false)
             + Acknowledge(w.pending, |w.done| + |w.batch|, false)))
  }

  function BeginClose<V>(w: Writer<V>): Writer<V> { w.(closing := true) }

  function SignalClose<V>(w: Writer<V>): Writer<V> { w.(wake := true) }

  /** The context is canceled only by `Close`, after it has set `closing`. */
  function Cancel<V>(w: Writer<V>): Writer<V>
    requires w.closing
  {
    w.(canceled := true)
  }

  // ---------- Runs ----------

  datatype Step<+V> =
    | Enqueuing(changes: seq<Change<V>>)
    | EnqueuingAndWaiting(change: Change<V>, expired: bool)
    | Taking
    | Waking(onCancel: bool)
    | CommittingBatch(out: CommitOutcome)
    | LeavingRetry(onCancel: bool)
    | Finishing
    | Closing
    | Signalling
    | Canceling

  predicate Enabled<V>(w: Writer<V>, step: Step<V>) {
    match step
    case Enqueuing(_) => !w.closing
    case EnqueuingAndWaiting(_, _) => true
    case Taking => w.runner == Top
    case Waking(onCancel) => w.runner == Waiting && if onCancel then w.canceled else w.wake
    case CommittingBatch(_) => w.runner == Committing
    case LeavingRetry(onCancel) => w.runner == Retrying && (onCancel ==> w.canceled)
    case Finishing => w.runner == Ending
    case Closing => true
    case Signalling => w.closing
    case Canceling => w.closing
  }

  function Next<V>(w: Writer<V>, step: Step<V>): Writer<V>
    requires Enabled(w, step)
  {
    match step
    case Enqueuing(changes) => AfterEnqueue(w, changes)
    case EnqueuingAndWaiting(change, expired) => AfterEnqueueAndWait(w, change, expired).0
    case Taking => TakeBatch(w)
    case Waking(onCancel) => StopWaiting(w, onCancel)
    case CommittingBatch(out) => Commit(w, out)
    case LeavingRetry(onCancel) => StopRetrying(w, onCancel)
    case Finishing => End(w)
    case Closing => BeginClose(w)
    case Signalling => SignalClose(w)
    case Canceling => Cancel(w)
  }

  ghost predicate Reaches<V(!new)>(w: Writer<V>, steps: seq<Step<V>>, w': Writer<V>)
    decreases |steps|
  {
    if steps == [] then w == w' else Enabled(w, steps[0]) && Reaches(Next(w, steps[0]), steps[1..], w')
  }

  // ---------- What was handed to the writer ----------

  /** All changes accepted in a run, in order, by the calls alone: each enqueued one, and the one
      of a waiting caller whose context was not over and who came before the close. */
  ghost function Submitted<V>(steps: seq<Step<V>>, closed: bool): seq<Queued<V>>
    decreases |steps|
  {
    if steps == [] then []
    else match steps[0]
      case Enqueuing(changes) => Plain(changes) + Submitted(steps[1..], closed)
      case EnqueuingAndWaiting(change, expired) =>
        (if expired || closed then [] else [Queued(change, true)]) + Submitted(steps[1..], closed)
      case Closing => Submitted(steps[1..], true)
      case Finishing => Submitted(steps[1..], true)
      case Taking => Submitted(steps[1..], closed)
      case Waking(_) => Submitted(steps[1..], closed)
      case CommittingBatch(_) => Submitted(steps[1..], closed)
      case LeavingRetry(_) => Submitted(steps[1..], closed)
      case Signalling => Submitted(steps[1..], closed)
      case Canceling => Submitted(steps[1..], closed)
  }

  /** The changes without waiters. */
  ghost function Plain<V>(changes: seq<Change<V>>): seq<Queued<V>> {
    if changes == [] then [] else [Queued(changes[0], false)] + Plain(changes[1..])
  }

  lemma {:induction false} PlainAre<V>(changes: seq<Change<V>>)
    ensures |Plain(changes)| == |changes|
    ensures forall i :: 0 <= i < |changes| ==> Plain(changes)[i] == Queued(changes[i], false)
    decreases |changes|
  {
    if changes != [] {
      PlainAre(changes[1..]);
    }
  }

  /** One section accepts what its caller submits. */
  lemma NextAccepts<V>(w: Writer<V>, step: Step<V>)
    requires Enabled(w, step) && (w.canceled ==> w.closing)
    ensures var w1 := Next(w, step);
      && w1.enqueued == w.enqueued + Submitted([step], w.closing)
      && (w1.closing <==> w.closing || step.Closing? || step.Finishing?) && (w1.canceled ==> w1.closing)
      && w1.base == w.base
  {
    if step.Enqueuing? {
      PlainAre(step.changes);
      assert Plain(step.changes) == seq(|step.changes|, i requires 0 <= i < |step.changes| => Queued(step.changes[i], false));
    }
    assert [step][1..] == [];
  }

  lemma SubmittedFirst<V>(steps: seq<Step<V>>, closed: bool)
    requires steps != []
    ensures Submitted(steps, closed) ==
      Submitted([steps[0]], closed) + Submitted(steps[1..], closed || steps[0].Closing? || steps[0].Finishing?)
  {
    assert [steps[0]][1..] == [];
    hide Plain;
  }

  /** The history that the writer works on is what was submitted. */
  lemma {:induction false} HistoryIsSubmitted<V(!new)>(w: Writer<V>, steps: seq<Step<V>>, w': Writer<V>)
    requires Reaches(w, steps, w') && (w.canceled ==> w.closing)
    ensures w'.enqueued == w.enqueued + Submitted(steps, w.closing) && w'.base == w.base
    decreases |steps|
  {
    if steps != [] {
      var w1 := Next(w, steps[0]);
      NextAccepts(w, steps[0]);
      SubmittedFirst(steps, w.closing);
      hide Next, Enabled, Submitted;
      HistoryIsSubmitted(w1, steps[1..], w');
    }
  }

  // ---------- What the tables hold ----------

  /** The last write to `key` in `qs`, if any. */
  function LastWrite<V>(qs: seq<Queued<V>>, key: Key): Option<Change<V>> {
    if qs == [] then None
    else if qs[|qs| - 1].change.key == key then Some(qs[|qs| - 1].change)
    else LastWrite(qs[..|qs| - 1], key)
  }

  lemma {:induction false} RowAfter<V>(t: map<Key, V>, qs: seq<Queued<V>>, key: Key)
    ensures Row(WriteAll(t, qs), key) == match LastWrite(qs, key) case None => Row(t, key) case Some(c) => c.row
  {
    if qs != [] {
      RowAfter(t, qs[..|qs| - 1], key);
    }
  }

  lemma {:induction false} WriteAllConcat<V>(t: map<Key, V>, a: seq<Queued<V>>, b: seq<Queued<V>>)
    ensures WriteAll(t, a + b) == WriteAll(WriteAll(t, a), b)
  {
    if b == [] {
      assert a + b == a;
    } else {
      assert (a + b)[..|a + b| - 1] == a + b[..|b| - 1];
      WriteAllConcat(t, a, b[..|b| - 1]);
    }
  }

  /** Committing a batch again, after an ambiguous commit, changes nothing. */
  lemma ReplayIsHarmless<V>(t: map<Key, V>, batch: seq<Queued<V>>)
    ensures WriteAll(WriteAll(t, batch), batch) == WriteAll(t, batch)
  {
    var once := WriteAll(t, batch);
    var twice := WriteAll(once, batch);
    forall key ensures Row(twice, key) == Row(once, key) {
      RowAfter(t, batch, key);
      RowAfter(once, batch, key);
    }
    assert forall key :: key in twice <==> Row(twice, key).Some?;
    assert forall key :: key in once <==> Row(once, key).Some?;
    assert forall key | key in once :: Row(twice, key) == Some(twice[key]) && Row(once, key) == Some(once[key]);
  }

  // ---------- The invariant ----------

  ghost predicate HistoryOk<V>(w: Writer<V>) {
    && w.enqueued == w.done + (w.batch + (w.pending + w.lost))
    && (w.runner != Ended ==> w.lost == [])
    && (w.runner == Ended ==> w.batch == [] && w.pending == [] && w.closing)
  }

  /** The tables are those of the first `n` changes made to `base`. */
  ghost predicate HoldsFirst<V>(base: map<Key, V>, disk: map<Key, V>, enqueued: seq<Queued<V>>, n: nat) {
    n <= |enqueued| && disk == WriteAll(base, enqueued[..n])
  }

  /** The database holds the committed changes, or those and the whole current batch. */
  ghost predicate DiskOk<V>(w: Writer<V>) {
    if w.runner == Ended then exists n :: |w.done| <= n && HoldsFirst(w.base, w.disk, w.enqueued, n)
    else w.disk == WriteAll(w.base, w.done) || w.disk == WriteAll(w.base, w.done + w.batch)
  }

  ghost predicate AcksOk<V>(w: Writer<V>) {
    if w.runner == Ended then w.acks == Acknowledge(w.done, 0, true) + Acknowledge(w.lost, |w.done|, false)
    else w.acks == Acknowledge(w.done, 0, true)
  }

  /** No wake-up is lost: a sleeping runner has nothing to do, or is about to be woken. */
  ghost predicate WakeOk<V>(w: Writer<V>) {
    && (w.runner == Waiting ==> w.batch == [] && (w.pending == [] || w.wake))
    && (w.runner == Committing || w.runner == Retrying ==> w.batch != [])
    && (w.runner == Ending && !w.canceled ==> w.batch == [] && w.pending == [] && w.closing)
    && (w.canceled ==> w.closing)
  }

  ghost predicate Inv<V>(w: Writer<V>) {
    HistoryOk(w) && DiskOk(w) && AcksOk(w) && WakeOk(w)
  }

  lemma Associates<T>(a: seq<T>, b: seq<T>, c: seq<T>)
    ensures a + (b + c) == (a + b) + c
  {}

  lemma {:induction false} AcknowledgeConcat<V>(a: seq<Queued<V>>, b: seq<Queued<V>>, from: nat, ok: bool)
    ensures Acknowledge(a + b, from, ok) == Acknowledge(a, from, ok) + Acknowledge(b, from + |a|, ok)
    decreases |a|
  {
    if a == [] {
      assert a + b == b;
    } else {
      AcknowledgeConcat(a[1..], b, from + 1, ok);
      var first := if a[0].waits then [Ack(from, ok)] else [];
      Associates(first, Acknowledge(a[1..], from + 1, ok), Acknowledge(b, from + |a|, ok));
      assert (a + b)[1..] == a[1..] + b && (a + b)[0] == a[0];
    }
  }

  lemma AppendKeeps<V>(w: Writer<V>, qs: seq<Queued<V>>)
    requires Inv(w) && !w.closing
    ensures Inv(Append(w, qs))
  {
    hide WriteAll, Acknowledge;
    assert w.pending + w.lost == w.pending;
    assert (w.pending + qs) + w.lost == w.pending + qs;
    assert w.done + (w.batch + w.pending) + qs == w.done + (w.batch + (w.pending + qs));
  }

  lemma TakeKeeps<V>(w: Writer<V>)
    requires Inv(w) && w.runner == Top
    ensures Inv(TakeBatch(w))
    ensures var w1 := TakeBatch(w);
      if w.batch != [] then w1.batch == w.batch && w1.pending == w.pending
      else |w1.batch| <= BATCH_LIMIT && w.pending == w1.batch + w1.pending && (w1.batch == [] ==> w.pending == [])
  {
    hide WriteAll, Acknowledge;
    if w.batch == [] {
      var w1 := TakeBatch(w);
      assert w.pending == w1.batch + w1.pending;
      assert w.done + w.batch == w.done;
      assert w1.batch + (w1.pending + w1.lost) == w.batch + (w.pending + w.lost);
    }
  }

  /** Once the batch is written, the database holds it after the committed changes. */
  lemma WrittenDisk<V>(w: Writer<V>)
    requires Inv(w) && w.runner == Committing
    ensures WriteAll(w.disk, w.batch) == WriteAll(w.base, w.done + w.batch)
  {
    WriteAllConcat(w.base, w.done, w.batch);
    ReplayIsHarmless(WriteAll(w.base, w.done), w.batch);
  }

  lemma CommittedKeeps<V>(w: Writer<V>, later: seq<Queued<V>>)
    requires Inv(w) && w.runner == Committing && later == w.pending
    requires WriteAll(w.disk, w.batch) == WriteAll(w.base, w.done + w.batch)
    requires Acknowledge(w.done + w.batch, 0, true) == w.acks + Acknowledge(w.batch, |w.done|, true)
    requires w.done + (w.batch + later) == (w.done + w.batch) + later
    ensures Inv(Commit(w, Done))
  {
    hide WriteAll, Acknowledge;
    assert w.pending + [] == later && [] + later == later;
  }

  lemma CommitKeeps<V>(w: Writer<V>, out: CommitOutcome)
    requires Inv(w) && w.runner == Committing
    ensures Inv(Commit(w, out))
  {
    WrittenDisk(w);
    AcknowledgeConcat(w.done, w.batch, 0, true);
    hide WriteAll, Acknowledge;
    if out == Done {
      Associates(w.done, w.batch, w.pending);
      CommittedKeeps(w, w.pending);
    }
  }

  lemma EndKeeps<V>(w: Writer<V>)
    requires Inv(w) && w.runner == Ending
    ensures Inv(End(w))
  {
    AcknowledgeConcat(w.batch, w.pending, |w.done|, false);
    hide WriteAll, Acknowledge;
    var w1 := End(w);
    var rest := w.batch + w.pending;
    assert w.pending + [] == w.pending && [] + rest == rest;
    EndedDisk(w);
    hide HoldsFirst;
  }

  lemma EndedDisk<V>(w: Writer<V>)
    requires Inv(w) && w.runner == Ending
    ensures exists n :: |w.done| <= n && HoldsFirst(w.base, w.disk, w.enqueued, n)
  {
    hide WriteAll, Acknowledge;
    Associates(w.done, w.batch, w.pending + w.lost);
    assert w.enqueued[..|w.done|] == w.done && w.enqueued[..|w.done| + |w.batch|] == w.done + w.batch;
    assert HoldsFirst(w.base, w.disk, w.enqueued, |w.done|) || HoldsFirst(w.base, w.disk, w.enqueued, |w.done| + |w.batch|);
  }

  /** The sections that only move the runner or set a flag. */
  lemma FlagsKeep<V>(w: Writer<V>, step: Step<V>)
    requires Inv(w) && Enabled(w, step)
    requires step.Waking? || step.LeavingRetry? || step.Closing? || step.Signalling? || step.Canceling?
    ensures Inv(Next(w, step)) && Next(w, step).base == w.base
  {
    hide WriteAll, Acknowledge, HoldsFirst;
    assert Next(w, step).(runner := w.runner, wake := w.wake, closing := w.closing, canceled := w.canceled) == w;
  }

  lemma StepKeeps<V>(w: Writer<V>, step: Step<V>)
    requires Inv(w) && Enabled(w, step)
    ensures Inv(Next(w, step)) && Next(w, step).base == w.base
  {
    hide HistoryOk, DiskOk, AcksOk, WakeOk, WriteAll, Acknowledge;
    match step {
      case Enqueuing(changes) =>
        AppendKeeps(w, seq(|changes|, i requires 0 <= i < |changes| => Queued(changes[i], false)));
      case EnqueuingAndWaiting(change, expired) =>
        if !expired && !w.closing && !w.canceled {
          AppendKeeps(w, [Queued(change, true)]);
        }
      case Taking => TakeKeeps(w);
      case CommittingBatch(out) => CommitKeeps(w, out);
      case Finishing => EndKeeps(w);
      case _ => FlagsKeep(w, step);
    }
  }

  /** Every run, with any failures and any interleaving of producers, keeps the invariant. */
  lemma {:induction false} RunKeeps<V(!new)>(w: Writer<V>, steps: seq<Step<V>>, w': Writer<V>)
    requires Inv(w) && Reaches(w, steps, w')
    ensures Inv(w') && w'.base == w.base
    decreases |steps|
  {
    if steps != [] {
      StepKeeps(w, steps[0]);
      hide Inv, Next;
      RunKeeps(Next(w, steps[0]), steps[1..], w');
    }
  }

  lemma OpenedOk<V>(base: map<Key, V>)
    ensures Inv(Opened(base))
  {}

  // ---------- What callers get ----------

  lemma {:induction false} AcknowledgeExact<V>(qs: seq<Queued<V>>, from: nat, ok: bool)
    ensures forall a :: a in Acknowledge(qs, from, ok) <==>
      from <= a.position < from + |qs| && qs[a.position - from].waits && a.ok == ok
    decreases |qs|
  {
    if qs != [] {
      AcknowledgeExact(qs[1..], from + 1, ok);
      var rest := Acknowledge(qs[1..], from + 1, ok);
      var first := if qs[0].waits then [Ack(from, ok)] else [];
      forall a ensures a in Acknowledge(qs, from, ok) <==>
        from <= a.position < from + |qs| && qs[a.position - from].waits && a.ok == ok
      {
        assert a in first + rest <==> a in first || a in rest;
        if from < a.position < from + |qs| {
          assert qs[1..][a.position - (from + 1)] == qs[a.position - from];
        }
      }
    }
  }

  /** The answers go to different waiters, all from positions `from` to `to`. */
  ghost predicate AnswersBetween(acks: seq<Ack>, from: nat, to: nat) {
    && (forall i :: 0 <= i < |acks| ==> from <= acks[i].position < to)
    && (forall i, j :: 0 <= i < j < |acks| ==> acks[i].position != acks[j].position)
  }

  lemma AnswersConcat(a: seq<Ack>, b: seq<Ack>, from: nat, mid: nat, to: nat)
    requires AnswersBetween(a, from, mid) && AnswersBetween(b, mid, to) && from <= mid <= to
    ensures AnswersBetween(a + b, from, to)
  {}

  lemma AnswersWiden(a: seq<Ack>, to: nat, to': nat, n: nat)
    requires AnswersBetween(a, 0, to) || AnswersBetween(a, 0, to')
    requires to <= n && to' <= n
    ensures AnswersBetween(a, 0, n)
  {}

  lemma {:induction false} AcknowledgeOnce<V>(qs: seq<Queued<V>>, from: nat, ok: bool)
    ensures AnswersBetween(Acknowledge(qs, from, ok), from, from + |qs|)
    decreases |qs|
  {
    if qs != [] {
      AcknowledgeOnce(qs[1..], from + 1, ok);
      var first := if qs[0].waits then [Ack(from, ok)] else [];
      AnswersConcat(first, Acknowledge(qs[1..], from + 1, ok), from, from + 1, from + |qs|);
    }
  }

  /** The invariant, about what was submitted. */
  lemma RunOk<V(!new)>(base: map<Key, V>, steps: seq<Step<V>>, w: Writer<V>)
    requires Reaches(Opened(base), steps, w)
    ensures Inv(w) && w.base == base && w.enqueued == Submitted(steps, false)
  {
    OpenedOk(base);
    RunKeeps(Opened(base), steps, w);
    HistoryIsSubmitted(Opened(base), steps, w);
    hide Inv, Reaches, Submitted;
  }

  lemma AnswersDiffer<V>(w: Writer<V>)
    requires Inv(w)
    ensures AnswersBetween(w.acks, 0, |w.enqueued|)
  {
    AcknowledgeOnce(w.done, 0, true);
    AcknowledgeOnce(w.lost, |w.done|, false);
    hide DiskOk, WakeOk, AnswersBetween, Acknowledge;
    AnswersConcat(Acknowledge(w.done, 0, true), Acknowledge(w.lost, |w.done|, false), 0, |w.done|, |w.done| + |w.lost|);
    AnswersWiden(w.acks, |w.done|, |w.done| + |w.lost|, |w.enqueued|);
  }

  lemma AnswersGoToWaiters<V>(w: Writer<V>, a: Ack)
    requires Inv(w) && a in w.acks
    ensures a.position < |w.enqueued| && w.enqueued[a.position].waits && (a.ok ==> a.position < |w.done|)
  {
    AcknowledgeExact(w.done, 0, true);
    AcknowledgeExact(w.lost, |w.done|, false);
    hide DiskOk, WakeOk, Acknowledge;
  }

  /** Nobody is answered twice, only those are answered who wait, and `nil` is told only for
      committed changes. */
  lemma AnsweredOnce<V(!new)>(base: map<Key, V>, steps: seq<Step<V>>, w: Writer<V>)
    requires Reaches(Opened(base), steps, w)
    ensures AnswersBetween(w.acks, 0, |Submitted(steps, false)|) && w.done <= Submitted(steps, false)
    ensures forall a :: a in w.acks ==>
      && a.position < |Submitted(steps, false)| && Submitted(steps, false)[a.position].waits
      && (a.ok ==> a.position < |w.done|)
  {
    RunOk(base, steps, w);
    assert w.done <= w.enqueued;
    hide Inv, Submitted, Reaches, AnswersBetween;
    AnswersDiffer(w);
    forall a | a in w.acks
      ensures a.position < |w.enqueued| && w.enqueued[a.position].waits && (a.ok ==> a.position < |w.done|)
    {
      AnswersGoToWaiters(w, a);
    }
  }

  /** Every committed waiter is told `nil`; once the writer has ended, every other waiter has
      been told that its change was not committed. */
  lemma EveryWaiterAnswered<V(!new)>(base: map<Key, V>, steps: seq<Step<V>>, w: Writer<V>, p: nat)
    requires Reaches(Opened(base), steps, w) && p < |Submitted(steps, false)| && Submitted(steps, false)[p].waits
    ensures p < |w.done| ==> Ack(p, true) in w.acks
    ensures p >= |w.done| && w.runner == Ended ==> Ack(p, false) in w.acks
  {
    RunOk(base, steps, w);
    AcknowledgeExact(w.done, 0, true);
    AcknowledgeExact(w.lost, |w.done|, false);
    hide Acknowledge, WriteAll, DiskOk, Submitted;
  }

  /** At every moment the tables are those of the first `n` changes submitted, for some `n`
      that covers everything acknowledged. */
  lemma TablesArePrefix<V(!new)>(base: map<Key, V>, steps: seq<Step<V>>, w: Writer<V>) returns (n: nat)
    requires Reaches(Opened(base), steps, w)
    ensures HoldsFirst(base, w.disk, Submitted(steps, false), n) && |w.done| <= n
    ensures forall a :: a in w.acks && a.ok ==> a.position < n
  {
    RunOk(base, steps, w);
    AnsweredOnce(base, steps, w);
    hide WriteAll, Acknowledge, Submitted;
    if w.runner == Ended {
      n :| |w.done| <= n && HoldsFirst(w.base, w.disk, w.enqueued, n);
    } else if w.disk == WriteAll(w.base, w.done) {
      n := |w.done|;
      assert w.enqueued[..n] == w.done;
    } else {
      n := |w.done| + |w.batch|;
      assert w.enqueued[..n] == w.done + w.batch;
    }
  }

  /** A sleeping writer has no change left unless its wake-up is already on the way. */
  lemma NoLostWakeup<V(!new)>(base: map<Key, V>, steps: seq<Step<V>>, w: Writer<V>)
    requires Reaches(Opened(base), steps, w) && w.runner == Waiting && !w.wake
    ensures Submitted(steps, false) == w.done && w.disk == WriteAll(base, Submitted(steps, false))
  {
    RunOk(base, steps, w);
    assert w.done + [] == w.done;
  }

  /** A writer that was closed without cancellation has committed everything. */
  lemma CloseDrains<V(!new)>(base: map<Key, V>, steps: seq<Step<V>>, w: Writer<V>)
    requires Reaches(Opened(base), steps, w) && w.runner == Ending && !w.canceled
    ensures Submitted(steps, false) == w.done && w.disk == WriteAll(base, Submitted(steps, false))
  {
    RunOk(base, steps, w);
    assert w.done + [] == w.done;
  }

  /** What the run loop does while the database accepts. */
  predicate IsServing<V>(step: Step<V>) {
    step.Taking? || step == Waking(false) || step == CommittingBatch(Done) || step == LeavingRetry(false)
  }

  /** The run loop has come to rest: it sleeps, or it is about to end. */
  predicate AtRest<V>(w: Writer<V>) {
    w.runner == Ending || (w.runner == Waiting && !w.wake)
  }

  /** From every reachable state, a run loop whose database accepts commits all that was
      submitted, and then ends if the writer is closing or sleeps if it is not. */
  lemma {:induction false} ServedWriterDrains<V(!new)>(w: Writer<V>) returns (steps: seq<Step<V>>, w': Writer<V>)
    requires Inv(w) && !w.canceled && w.runner != Ended
    ensures Reaches(w, steps, w') && (forall step :: step in steps ==> IsServing(step))
    ensures w'.enqueued == w.enqueued && w'.done == w.enqueued && w'.disk == WriteAll(w.base, w.enqueued)
    ensures AtRest(w') && w'.closing == w.closing && (!w.closing ==> w'.runner == Waiting)
    ensures w.closing && (w.runner != Waiting || w.wake) ==> w'.runner == Ending
    decreases |w.pending| + |w.batch|, if w.wake then 1 else 0,
      if w.runner == Retrying then 3 else if w.runner == Top then 2 else if w.runner == Committing then 1 else 0
  {
    if AtRest(w) {
      steps, w' := [], w;
      assert w.done + [] == w.done;
    } else {
      var step: Step<V> := match w.runner
        case Top => Taking
        case Committing => CommittingBatch(Done)
        case Retrying => LeavingRetry(false)
        case Waiting => Waking(false);
      StepKeeps(w, step);
      hide WriteAll, Acknowledge, HistoryOk, DiskOk, AcksOk;
      var rest;
      rest, w' := ServedWriterDrains(Next(w, step));
      steps := [step] + rest;
      assert steps[1..] == rest;
    }
  }

  // ---------- The writer itself ----------

  /** The writer's fields, changed section by section; `StepKeeps` says what every section keeps. */
  class WriterProcess<V> {
    var pending: seq<Queued<V>>
    var batch: seq<Queued<V>>
    var closing: bool
    var canceled: bool
    var wake: bool
    var runner: Runner
    var disk: map<Key, V>
    ghost var base: map<Key, V>
    ghost var enqueued: seq<Queued<V>>
    ghost var done: seq<Queued<V>>
    ghost var lost: seq<Queued<V>>
    /** The answers sent on the waiters' channels, in order. */
    var acks: seq<Ack>
    /** How many changes have been committed; numbers the answers. */
    var count: nat

    ghost function State(): Writer<V>
      reads this
    {
      Writer(pending, batch, closing, canceled, wake, runner, base, disk, enqueued, done, lost, acks)
    }

    ghost predicate Valid()
      reads this
    {
      count == |done|
    }

    constructor (base: map<Key, V>)
      ensures Valid() && State() == Opened(base)
    {
      pending, batch, acks, count := [], [], [], 0;
      closing, canceled, wake, runner := false, false, false, Top;
      this.base, disk := base, base;
      enqueued, done, lost := [], [], [];
    }

    method AppendQueued(qs: seq<Queued<V>>)
      requires Valid() && !closing
      modifies this
      ensures Valid() && State() == Append(old(State()), qs)
    {
      pending := pending + qs;
      enqueued := enqueued + qs;
      wake := true;
    }

    method Enqueue(changes: seq<Change<V>>)
      requires Valid() && !closing
      modifies this
      ensures Valid() && State() == AfterEnqueue(old(State()), changes)
    {
      AppendQueued(seq(|changes|, i requires 0 <= i < |changes| => Queued(changes[i], false)));
    }

    method EnqueueAndWait(change: Change<V>, expired: bool) returns (waits: bool)
      requires Valid()
      modifies this
      ensures Valid() && (State(), waits) == AfterEnqueueAndWait(old(State()), change, expired)
      ensures waits <==> !expired && !old(closing) && !old(canceled)
    {
      if expired || closing || canceled {
        return false;
      }
      AppendQueued([Queued(change, true)]);
      waits := true;
    }

    method Take()
      requires Valid() && runner == Top
      modifies this
      ensures Valid() && State() == TakeBatch(old(State()))
    {
      if batch == [] {
        var n := if |pending| < BATCH_LIMIT then |pending| else BATCH_LIMIT;
        batch := pending[..n];
        pending := pending[n..];
        if batch == [] {
          runner := if closing then Ending else Waiting;
          return;
        }
      }
      runner := Committing;
    }

    /** Hands `ok` to every waiter of `qs`, numbered from `from`. */
    method Answer(qs: seq<Queued<V>>, from: nat, ok: bool)
      modifies this`acks
      ensures acks == old(acks) + Acknowledge(qs, from, ok)
    {
      var i := 0;
      while i < |qs|
        invariant 0 <= i <= |qs|
        invariant acks + Acknowledge(qs[i..], from + i, ok) == old(acks) + Acknowledge(qs, from, ok)
      {
        assert qs[i..][1..] == qs[i + 1..];
        Associates(acks, if qs[i].waits then [Ack(from + i, ok)] else [], Acknowledge(qs[i + 1..], from + i + 1, ok));
        if qs[i].waits {
          acks := acks + [Ack(from + i, ok)];
        } else {
          assert acks + [] == acks;
        }
        i := i + 1;
      }
      assert acks + [] == acks;
    }

    /** One try at the current batch, with the database's outcome. */
    method TryCommit(out: CommitOutcome)
      requires Valid() && runner == Committing
      modifies this
      ensures State() == Commit(old(State()), out)
      ensures Valid()
    {
      hide Acknowledge, WriteAll;
      var written := WriteAll(disk, batch);
      if out == Failed {
        runner := Retrying;
        return;
      }
      disk := written;
      if out == Ambiguous {
        runner := Retrying;
        return;
      }
      Answer(batch, count, true);
      count := count + |batch|;
      done := done + batch;
      batch := [];
      runner := Top;
    }

    method Finish()
      requires Valid() && runner == Ending
      modifies this
      ensures State() == End(old(State()))
      ensures Valid()
    {
      hide Acknowledge, WriteAll;
      closing := true;
      var waiting := pending;
      pending := [];
      Answer(batch, count, false);
      Answer(waiting, count + |batch|, false);
      Associates(old(acks), Acknowledge(batch, count, false), Acknowledge(waiting, count + |batch|, false));
      lost := batch + waiting;
      batch := [];
      runner := Ended;
    }
  }
}
