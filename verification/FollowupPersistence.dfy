/** Why a restart of the follow-up service finds a prefix of one queue's saves that covers
    every acknowledged one: the queues share the writer's FIFO with all other tables. */
module FollowupPersistence {
  import opened Basics
  import opened FollowupQueue
  import P = PersistenceWriter

  datatype Payload = QueueRow(queue: Queue) | OtherRow(data: string)

  type Change = P.Queued<Payload>

  function QueueKey(agent: Id): P.Key { P.Key("followup_queues", agent) }

  /** What `Save` puts into the FIFO. */
  function SaveChange(q: Queue): P.Change<Payload> {
    P.Change(QueueKey(q.target.agent), Some(QueueRow(q)))
  }

  predicate IsSave(c: Change, agent: Id) {
    c.change.key == QueueKey(agent) && c.change.row.Some? && c.change.row.value.QueueRow?
  }

  /** The saves of one queue among all changes, in order. */
  function SavesOf(cs: seq<Change>, agent: Id): seq<Queue> {
    if cs == [] then []
    else
      var last := cs[|cs| - 1];
      SavesOf(cs[..|cs| - 1], agent) + if IsSave(last, agent) then [last.change.row.value.queue] else []
  }

  /** Only saves write this queue's row; rows of removed agents are kept. */
  ghost predicate OnlySaves(cs: seq<Change>, agent: Id) {
    forall i :: 0 <= i < |cs| && cs[i].change.key == QueueKey(agent) ==> IsSave(cs[i], agent)
  }

  lemma {:induction false} SavesOfPrefix(cs: seq<Change>, agent: Id, n: nat)
    requires n <= |cs|
    ensures SavesOf(cs[..n], agent) <= SavesOf(cs, agent)
    decreases |cs|
  {
    if n < |cs| {
      assert cs[..|cs| - 1][..n] == cs[..n];
      SavesOfPrefix(cs[..|cs| - 1], agent, n);
    } else {
      assert cs[..n] == cs;
    }
  }

  lemma {:induction false} RowIsLastSave(base: map<P.Key, Payload>, cs: seq<Change>, agent: Id)
    requires OnlySaves(cs, agent)
    ensures P.Row(P.WriteAll(base, cs), QueueKey(agent)) ==
      var saves := SavesOf(cs, agent);
      if saves == [] then P.Row(base, QueueKey(agent)) else Some(QueueRow(saves[|saves| - 1]))
    decreases |cs|
  {
    if cs != [] {
      RowIsLastSave(base, cs[..|cs| - 1], agent);
    }
  }

  /** `p` is the position of the queue's last acknowledged save. At every reachable moment
      the stored row is one of that save and the later ones: a restart reads the first `k`
      saves, for some `k` that covers the acknowledged ones. */
  lemma RestartReadsCommittedPrefix(base: map<P.Key, Payload>, steps: seq<P.Step<Payload>>,
                                    w: P.Writer<Payload>, agent: Id, p: nat)
      returns (k: nat)
    requires P.Reaches(P.Opened(base), steps, w) && OnlySaves(P.Submitted(steps, false), agent)
    requires P.Ack(p, true) in w.acks && p < |P.Submitted(steps, false)| && IsSave(P.Submitted(steps, false)[p], agent)
    ensures 0 < |SavesOf(P.Submitted(steps, false)[..p + 1], agent)| <= k <= |SavesOf(P.Submitted(steps, false), agent)|
    ensures P.Row(w.disk, QueueKey(agent)) == Some(QueueRow(SavesOf(P.Submitted(steps, false), agent)[k - 1]))
  {
    var n := P.TablesArePrefix(base, steps, w);
    P.AnsweredOnce(base, steps, w);
    hide P.Reaches, P.WriteAll, P.Row, P.Submitted;
    var seen := P.Submitted(steps, false)[..n];
    assert OnlySaves(seen, agent);
    RowIsLastSave(base, seen, agent);
    SavesOfPrefix(P.Submitted(steps, false), agent, n);
    assert seen[..p + 1] == P.Submitted(steps, false)[..p + 1];
    SavesOfPrefix(seen, agent, p + 1);
    assert P.Submitted(steps, false)[..p + 1][p] == P.Submitted(steps, false)[p];
    k := |SavesOf(seen, agent)|;
  }

  /** Before any acknowledgement the row may also be the one from before the start. */
  lemma RestartReadsSomePrefix(base: map<P.Key, Payload>, steps: seq<P.Step<Payload>>,
                                    w: P.Writer<Payload>, agent: Id) returns (k: nat)
    requires P.Reaches(P.Opened(base), steps, w) && OnlySaves(P.Submitted(steps, false), agent)
    ensures k <= |SavesOf(P.Submitted(steps, false), agent)|
    ensures P.Row(w.disk, QueueKey(agent)) ==
      if k == 0 then P.Row(base, QueueKey(agent)) else Some(QueueRow(SavesOf(P.Submitted(steps, false), agent)[k - 1]))
  {
    var n := P.TablesArePrefix(base, steps, w);
    assert OnlySaves(P.Submitted(steps, false)[..n], agent);
    RowIsLastSave(base, P.Submitted(steps, false)[..n], agent);
    SavesOfPrefix(P.Submitted(steps, false), agent, n);
    k := |SavesOf(P.Submitted(steps, false)[..n], agent)|;
  }
}
