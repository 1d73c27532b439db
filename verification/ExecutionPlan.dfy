/** Applying an execution plan: all of its panes, or none unless a cleanup failed. The panes of
    a tab after the first are created concurrently and finish in any order. */
module ExecutionPlan {
  import opened Basics

  type PaneId = string

  /** A pane that the plan obtained. */
  datatype Created = Created(id: PaneId, generation: nat)

  /** How one creation ended. A partial failure may leave the pane registered. */
  datatype Outcome = Ok(created: Created) | Failed(partial: bool)

  datatype Finished = Finished(index: nat, outcome: Outcome)

  datatype Response = Applied(tabs: seq<seq<Created>>) | NotApplied(partial: bool) | Invalid

  /** One call to the outside, with its answer. A create call that does not lead joins another's;
      a leading one registers its pane and initializes it, or closes it again. */
  datatype Call =
    | Lead(leads: bool)
    | Joined(outcome: Outcome)
    | Registered(got: Option<Created>, partial: bool)
    | Initialized(ok: bool)
    | FoundTab(found: bool)
    | Closed(pane: Created, ok: bool)

  // ---------- Collecting concurrent results ----------

  /** One result for each of `n` creations, in the order in which they finished. */
  ghost predicate IsComplete(results: seq<Finished>, n: nat) {
    && |results| == n
    && (forall k :: 0 <= k < n ==> results[k].index < n)
    && (forall j, k :: 0 <= j < k < n ==> results[j].index != results[k].index)
  }

  predicate HasFailure(results: seq<Finished>) {
    exists k :: 0 <= k < |results| && results[k].outcome.Failed?
  }

  predicate HasPartial(results: seq<Finished>) {
    exists k :: 0 <= k < |results| && results[k].outcome.Failed? && results[k].outcome.partial
  }

  /** The panes that were created, in the order in which they finished. */
  function Obtained(results: seq<Finished>): seq<Created> {
    if results == [] then []
    else
      var last := results[|results| - 1].outcome;
      Obtained(results[..|results| - 1]) + if last.Ok? then [last.created] else []
  }

  /** The indexes of the first `m` results. */
  function Indexes(results: seq<Finished>, m: nat): (s: set<nat>)
    requires m <= |results|
    ensures forall i :: i in s ==> exists k :: 0 <= k < m && results[k].index == i
    ensures forall k :: 0 <= k < m ==> results[k].index in s
  {
    if m == 0 then {} else Indexes(results, m - 1) + {results[m - 1].index}
  }

  lemma {:induction false} DistinctIndexes(results: seq<Finished>, m: nat)
    requires m <= |results| && forall j, k :: 0 <= j < k < |results| ==> results[j].index != results[k].index
    ensures |Indexes(results, m)| == m
  {
    if m > 0 {
      DistinctIndexes(results, m - 1);
    }
  }

  /** Where the results are complete every index has one. */
  lemma EveryIndexFinished(results: seq<Finished>, n: nat, i: nat) returns (k: nat)
    requires IsComplete(results, n) && i < n
    ensures k < n && results[k].index == i
  {
    DistinctIndexes(results, n);
    if i !in Indexes(results, n) {
      assert Indexes(results, n) <= FirstMany(n) - {i};
      SubsetSize(Indexes(results, n), FirstMany(n) - {i});
    }
    k :| 0 <= k < n && results[k].index == i;
  }

  /** On success one pane per index, in index order; otherwise the panes that were created. */
  method Collect(n: nat, results: seq<Finished>) returns (panes: seq<Created>, failed: bool, partial: bool)
    requires IsComplete(results, n)
    ensures failed == HasFailure(results) && partial == HasPartial(results)
    ensures failed ==> panes == Obtained(results)
    ensures !failed ==> |panes| == n && forall k :: 0 <= k < n ==> results[k].outcome.Ok? && panes[results[k].index] == results[k].outcome.created
  {
    var slots := new Created[n](_ => Created("", 0));
    var created: seq<Created> := [];
    failed, partial := false, false;
    for k := 0 to |results|
      invariant failed == HasFailure(results[..k]) && partial == HasPartial(results[..k])
      invariant created == Obtained(results[..k])
      invariant forall j :: 0 <= j < k && results[j].outcome.Ok? ==> slots[results[j].index] == results[j].outcome.created
    {
      var result := results[k];
      assert results[..k + 1][..k] == results[..k];
      assert results[..k + 1][k] == result;
      if result.outcome.Ok? {
        slots[result.index] := result.outcome.created;
        created := created + [result.outcome.created];
      } else {
        failed := true;
        partial := partial || result.outcome.partial;
      }
      assert forall j :: 0 <= j < k ==> results[..k + 1][j] == results[..k][j];
    }
    assert results[..|results|] == results;
    panes := if failed then created else slots[..];
  }

  // ---------- The plan ----------

  /** At least one tab, panes in each, and no pane ID twice or empty. */
  ghost predicate PlanOk(tabs: seq<seq<PaneId>>) {
    && tabs != []
    && (forall t :: 0 <= t < |tabs| ==> tabs[t] != [])
    && (forall t, i :: 0 <= t < |tabs| && 0 <= i < |tabs[t]| ==> tabs[t][i] != "")
    && (forall t, i, u, j :: 0 <= t < |tabs| && 0 <= i < |tabs[t]| && 0 <= u < |tabs| && 0 <= j < |tabs[u]| && (t != u || i != j) ==>
          tabs[t][i] != tabs[u][j])
  }

  /** One pane per specification, in the order of the specifications. */
  predicate Answers(panes: seq<Created>, ids: seq<PaneId>) {
    |panes| == |ids| && forall i :: 0 <= i < |ids| ==> panes[i].id == ids[i]
  }

  // ---------- What an application makes of the answers ----------

  /** One creation: the joined outcome, or the pane that was registered and initialized. */
  predicate CreatedBy(calls: seq<Call>, outcome: Outcome) {
    if |calls| == 2 && calls[0] == Lead(false) then calls[1] == Joined(outcome)
    else
      && |calls| >= 2 && calls[0] == Lead(true) && calls[1].Registered?
      && match calls[1].got
         case None => |calls| == 2 && outcome == Failed(calls[1].partial)
         case Some(c) =>
           if |calls| == 3 then calls[2] == Initialized(true) && outcome == Ok(c)
           else
             && |calls| == 4 && calls[2] == Initialized(false) && calls[3].Closed? && calls[3].pane == c
             && outcome == Failed(!calls[3].ok)
  }

  function Flat(parts: seq<seq<Call>>): seq<Call> {
    if parts == [] then [] else Flat(parts[..|parts| - 1]) + parts[|parts| - 1]
  }

  lemma FlatPush(parts: seq<seq<Call>>, calls: seq<Call>)
    ensures Flat(parts + [calls]) == Flat(parts) + calls
  {
    assert (parts + [calls])[..|parts|] == parts;
  }

  /** Each of `n` creations made its calls, which are listed in the order in which they finished. */
  ghost predicate AllBy(n: nat, finished: seq<Finished>, parts: seq<seq<Call>>) {
    && IsComplete(finished, n) && |parts| == n
    && forall k :: 0 <= k < n ==> CreatedBy(parts[k], finished[k].outcome)
  }

  /** The panes in the order of their specifications, or on a failure those that there are. */
  ghost predicate IsCollected(n: nat, finished: seq<Finished>, panes: seq<Created>) {
    if HasFailure(finished) then panes == Obtained(finished)
    else
      && |panes| == n && |finished| == n
      && forall k :: 0 <= k < n ==>
        finished[k].outcome.Ok? && finished[k].index < n && panes[finished[k].index] == finished[k].outcome.created
  }

  /** One tab: its first pane, the tab looked up for the others, and the others at once. */
  datatype TabRun = TabRun(
    first: seq<Call>, outcome: Outcome, looking: seq<Call>, finished: seq<Finished>, parts: seq<seq<Call>>,
    panes: seq<Created>, failed: bool, partial: bool)

  function CallsOf(t: TabRun): seq<Call> {
    t.first + t.looking + Flat(t.parts)
  }

  ghost predicate TabBy(n: nat, t: TabRun) {
    && CreatedBy(t.first, t.outcome)
    && match t.outcome
       case Failed(partial) => t.looking == [] && t.parts == [] && t.panes == [] && t.failed && t.partial == partial
       case Ok(c) =>
         if n == 1 then t.looking == [] && t.parts == [] && t.panes == [c] && !t.failed && !t.partial
         else if t.looking == [FoundTab(false)] then t.parts == [] && t.panes == [c] && t.failed && !t.partial
         else
           && t.looking == [FoundTab(true)] && n > 1 && AllBy(n - 1, t.finished, t.parts)
           && t.failed == HasFailure(t.finished) && t.partial == HasPartial(t.finished)
           && t.panes != [] && t.panes[0] == c && IsCollected(n - 1, t.finished, t.panes[1..])
  }

  /** A tab whose first pane, or whose backend tab, could not be had, or that has no other panes. */
  lemma ShortTab(n: nat, first: seq<Call>, outcome: Outcome) returns (failing: TabRun, single: TabRun, lost: TabRun)
    requires CreatedBy(first, outcome)
    ensures outcome.Failed? ==> TabBy(n, failing) && CallsOf(failing) == first
    ensures outcome.Failed? ==> failing.panes == [] && failing.failed && failing.partial == outcome.partial
    ensures outcome.Ok? && n == 1 ==> TabBy(n, single) && CallsOf(single) == first
    ensures outcome.Ok? && n == 1 ==> single.panes == [outcome.created] && !single.failed && !single.partial
    ensures outcome.Ok? && n > 1 ==> TabBy(n, lost) && CallsOf(lost) == first + [FoundTab(false)]
    ensures outcome.Ok? && n > 1 ==> lost.panes == [outcome.created] && lost.failed && !lost.partial
  {
    hide CreatedBy;
    failing := TabRun(first, outcome, [], [], [], [], true, outcome.Failed? && outcome.partial);
    single, lost := failing, failing;
    if outcome.Ok? {
      single := TabRun(first, outcome, [], [], [], [outcome.created], false, false);
      lost := single.(looking := [FoundTab(false)], failed := true);
    }
  }

  lemma LongTab(n: nat, first: seq<Call>, c: Created, finished: seq<Finished>, parts: seq<seq<Call>>, rest: seq<Created>) returns (run: TabRun)
    requires n > 1 && CreatedBy(first, Ok(c)) && AllBy(n - 1, finished, parts) && IsCollected(n - 1, finished, rest)
    ensures TabBy(n, run) && CallsOf(run) == first + [FoundTab(true)] + Flat(parts)
    ensures run.panes == [c] + rest && run.failed == HasFailure(finished) && run.partial == HasPartial(finished)
  {
    hide CreatedBy, AllBy, IsCollected, HasFailure, HasPartial, Flat;
    run := TabRun(first, Ok(c), [FoundTab(true)], finished, parts, [c] + rest, HasFailure(finished), HasPartial(finished));
    assert run.panes[1..] == rest;
  }

  function AllPanes(runs: seq<TabRun>): seq<Created> {
    if runs == [] then [] else AllPanes(runs[..|runs| - 1]) + runs[|runs| - 1].panes
  }

  function AllCalls(runs: seq<TabRun>): seq<Call> {
    if runs == [] then [] else AllCalls(runs[..|runs| - 1]) + CallsOf(runs[|runs| - 1])
  }

  lemma RunsPush(runs: seq<TabRun>, t: TabRun)
    ensures AllPanes(runs + [t]) == AllPanes(runs) + t.panes && AllCalls(runs + [t]) == AllCalls(runs) + CallsOf(t)
  {
    assert (runs + [t])[..|runs|] == runs;
  }

  /** Every pane is closed, in order; `ok` says that all of them were. */
  predicate ClosedBy(panes: seq<Created>, calls: seq<Call>, ok: bool) {
    && |calls| == |panes| && (forall k :: 0 <= k < |panes| ==> calls[k].Closed? && calls[k].pane == panes[k])
    && (ok <==> forall k :: 0 <= k < |panes| ==> calls[k].ok)
  }

  /** The plan fails exactly if a tab does; then the tabs behind it are not begun, and every pane
      obtained so far is closed again. */
  ghost predicate AppliedBy(tabs: seq<seq<PaneId>>, runs: seq<TabRun>, closing: seq<Call>, r: Response) {
    && |runs| <= |tabs|
    && (forall t :: 0 <= t < |runs| ==> TabBy(|tabs[t]|, runs[t]))
    && (forall t :: 0 <= t < |runs| - 1 ==> !runs[t].failed)
    && if runs != [] && runs[|runs| - 1].failed then
         exists ok :: ClosedBy(AllPanes(runs), closing, ok) && r == NotApplied(runs[|runs| - 1].partial || !ok)
       else
         && |runs| == |tabs| && closing == [] && r.Applied? && |r.tabs| == |tabs|
         && forall t :: 0 <= t < |tabs| ==> r.tabs[t] == runs[t].panes
  }

  lemma NoRuns()
    ensures AllPanes([]) == [] && AllCalls([]) == []
  {}

  lemma PlanFails(tabs: seq<seq<PaneId>>, runs: seq<TabRun>, closing: seq<Call>, ok: bool, r: Response)
    requires 0 < |runs| <= |tabs| && forall t :: 0 <= t < |runs| ==> TabBy(|tabs[t]|, runs[t])
    requires forall t :: 0 <= t < |runs| ==> (runs[t].failed <==> t == |runs| - 1)
    requires ClosedBy(AllPanes(runs), closing, ok) && r == NotApplied(runs[|runs| - 1].partial || !ok)
    ensures AppliedBy(tabs, runs, closing, r)
  {
    hide TabBy, ClosedBy, AllPanes;
  }

  lemma PlanSucceeds(tabs: seq<seq<PaneId>>, runs: seq<TabRun>, r: Response)
    requires |runs| == |tabs| && forall t :: 0 <= t < |runs| ==> TabBy(|tabs[t]|, runs[t]) && !runs[t].failed
    requires r.Applied? && |r.tabs| == |tabs| && forall t :: 0 <= t < |tabs| ==> r.tabs[t] == runs[t].panes
    ensures AppliedBy(tabs, runs, [], r)
  {
    hide TabBy, ClosedBy, AllPanes;
  }

  class PlanRunner {
    /** The registered panes with their generations; others change it too. */
    var registry: map<PaneId, nat>
    var nextGeneration: nat
    /** Every pane that a creation of a plan registered, whether it returned it or failed later,
        or returned for a creation of somebody else that it joined. */
    ghost var made: set<Created>
    /** All calls with their answers. */
    ghost var log: seq<Call>

    ghost predicate Valid()
      reads this
    {
      && (forall id :: id in registry ==> registry[id] <= nextGeneration)
      && (forall c :: c in made ==> c.generation <= nextGeneration)
    }

    /** Others remove panes and register new ones under new generations. */
    twostate predicate Drift()
      reads this
    {
      && old(nextGeneration) <= nextGeneration
      && (forall id :: id in registry ==> (id in old(registry) && registry[id] == old(registry)[id]) || registry[id] > old(nextGeneration))
    }

    /** The pane is not registered at that generation, and never will be again. */
    ghost predicate Gone(c: Created)
      reads this
    {
      c.generation <= nextGeneration && !(c.id in registry && registry[c.id] == c.generation)
    }

    /** Of what was made since `base` nothing is left but these panes, unless a cleanup was partial. */
    ghost predicate Settled(base: set<Created>, panes: seq<Created>, partial: bool)
      reads this
    {
      base <= made && forall c :: c in made - base ==> c in panes || partial || Gone(c)
    }

    constructor ()
      ensures Valid() && registry == map[] && made == {} && log == []
    {
      registry, nextGeneration, made, log := map[], 0, {}, [];
    }

    /** The backend's create and the registration. On failure nothing of it is registered. */
    method Register(id: PaneId) returns (c: Option<Created>, partial: bool)
      requires Valid()
      modifies this
      ensures Valid() && Drift() && (c.Some? ==> c.value.id == id && c.value.generation <= nextGeneration && !partial)
      ensures made == old(made) + (if c.Some? then {c.value} else {}) && log == old(log) + [Registered(c, partial)]
    {
      var succeeds: bool := *;
      partial := *;
      if !succeeds || id in registry {
        log := log + [Registered(None, partial)];
        return None, partial;
      }
      nextGeneration := nextGeneration + 1;
      registry := registry[id := nextGeneration];
      made := made + {Created(id, nextGeneration)};
      log := log + [Registered(Some(Created(id, nextGeneration)), false)];
      return Some(Created(id, nextGeneration)), false;
    }

    /** Joins a creation of the same pane by somebody else and takes its result. */
    method Join(id: PaneId) returns (outcome: Outcome)
      requires Valid()
      modifies this
      ensures Valid() && Drift()
      ensures outcome.Ok? ==> outcome.created.id == id && outcome.created.generation <= nextGeneration
      ensures made == old(made) + (if outcome.Ok? then {outcome.created} else {}) && log == old(log) + [Joined(outcome)]
    {
      var partial: bool := *;
      if id !in registry {
        log := log + [Joined(Failed(partial))];
        return Failed(partial);
      }
      made := made + {Created(id, registry[id])};
      log := log + [Joined(Ok(Created(id, registry[id])))];
      return Ok(Created(id, registry[id]));
    }

    /** Whether this create call leads, by the table of create calls. */
    method BeginCreate(id: PaneId) returns (leads: bool)
      requires Valid()
      modifies this
      ensures Valid() && Drift() && made == old(made) && log == old(log) + [Lead(leads)]
    {
      leads := *;
      log := log + [Lead(leads)];
    }

    method Initialize(c: Created) returns (ok: bool)
      requires Valid()
      modifies this
      ensures Valid() && Drift() && made == old(made) && log == old(log) + [Initialized(ok)]
    {
      ok := *;
      log := log + [Initialized(ok)];
    }

    /** Whether the backend told the tab of the pane. */
    method FindTab(c: Created) returns (found: bool)
      requires Valid()
      modifies this`log
      ensures Valid() && log == old(log) + [FoundTab(found)]
    {
      found := *;
      log := log + [FoundTab(found)];
    }

    /** Whatever others do meanwhile. A pane that cannot be initialized is cleaned up again. */
    method CreatePane(id: PaneId) returns (outcome: Outcome, ghost calls: seq<Call>)
      requires Valid()
      modifies this
      ensures Valid() && Drift()
      ensures outcome.Ok? ==> outcome.created.id == id && outcome.created.generation <= nextGeneration
      ensures Settled(old(made), if outcome.Ok? then [outcome.created] else [], outcome.Failed? && outcome.partial)
      ensures outcome.Ok? ==> outcome.created in made
      ensures log == old(log) + calls && CreatedBy(calls, outcome)
    {
      var leads := BeginCreate(id);
      calls := [Lead(leads)];
      if !leads {
        outcome := Join(id);
        calls := calls + [Joined(outcome)];
        return;
      }
      var c, partial := Register(id);
      calls := calls + [Registered(c, partial)];
      if c.None? {
        return Failed(partial), calls;
      }
      var initialized := Initialize(c.value);
      calls := calls + [Initialized(initialized)];
      if initialized {
        return Ok(c.value), calls;
      }
      var cleaned := CleanupCreated(c.value);
      return Failed(!cleaned), calls + [Closed(c.value, cleaned)];
    }

    method CleanupCreated(c: Created) returns (ok: bool)
      requires Valid() && c.generation <= nextGeneration
      modifies this
      ensures Valid() && Drift() && (ok ==> Gone(c)) && made == old(made) && log == old(log) + [Closed(c, ok)]
    {
      ok := *;
      log := log + [Closed(c, ok)];
      if ok && c.id in registry && registry[c.id] == c.generation {
        registry := registry - {c.id};
      }
    }

    method Rollback(created: seq<Created>) returns (ok: bool, ghost calls: seq<Call>)
      requires Valid() && forall k :: 0 <= k < |created| ==> created[k].generation <= nextGeneration
      modifies this
      ensures Valid() && Drift() && made == old(made)
      ensures ok ==> forall k :: 0 <= k < |created| ==> Gone(created[k])
      ensures log == old(log) + calls && ClosedBy(created, calls, ok)
    {
      ok, calls := true, [];
      for k := 0 to |created|
        invariant Valid() && Drift() && made == old(made)
        invariant ok ==> forall j :: 0 <= j < k ==> Gone(created[j])
        invariant log == old(log) + calls && ClosedBy(created[..k], calls, ok)
      {
        var cleaned := CleanupCreated(created[k]);
        calls := calls + [Closed(created[k], cleaned)];
        ok := ok && cleaned;
      }
      assert created[..|created|] == created;
    }

    /** Closes all panes that a failed plan obtained. */
    method Undo(created: seq<Created>, ghost base: set<Created>, ghost partial: bool) returns (ok: bool, ghost calls: seq<Call>)
      requires Valid() && Settled(base, created, partial) && forall k :: 0 <= k < |created| ==> created[k].generation <= nextGeneration
      modifies this
      ensures Valid() && Drift() && made == old(made)
      ensures ok && !partial ==> forall c :: c in made - base ==> Gone(c)
      ensures log == old(log) + calls && ClosedBy(created, calls, ok)
    {
      hide ClosedBy;
      ok, calls := Rollback(created);
      forall c | ok && !partial && c in made - base ensures Gone(c) {
        if c in created {
          var k :| 0 <= k < |created| && created[k] == c;
        }
      }
    }

    /** The creations finish in any order. */
    method CreateAll(ids: seq<PaneId>) returns (finished: seq<Finished>, ghost parts: seq<seq<Call>>)
      requires Valid()
      modifies this
      ensures Valid() && Drift() && Settled(old(made), Obtained(finished), HasPartial(finished))
      ensures AllBy(|ids|, finished, parts) && ResultsFit(finished, ids, nextGeneration)
      ensures log == old(log) + Flat(parts)
    {
      hide Obtained, HasPartial, IsUnderway, ResultsFit, IsComplete, CreatedBy;
      var left: set<nat> := FirstMany(|ids|);
      finished, parts := [], [];
      NothingFinished(ids, nextGeneration);
      while left != {}
        invariant Valid() && Drift() && Settled(old(made), Obtained(finished), HasPartial(finished))
        invariant IsUnderway(finished, left, |ids|) && ResultsFit(finished, ids, nextGeneration)
        invariant |parts| == |finished| && log == old(log) + Flat(parts)
        invariant forall k :: 0 <= k < |finished| ==> CreatedBy(parts[k], finished[k].outcome)
        decreases |left|
      {
        var i :| i in left;
        LeftIsBelow(finished, left, |ids|, i);
        ghost var before := nextGeneration;
        var outcome, calls := CreatePane(ids[i]);
        OneMore(finished, left, ids, i, outcome, before, nextGeneration);
        FlatPush(parts, calls);
        finished, parts := finished + [Finished(i, outcome)], parts + [calls];
        left := left - {i};
      }
      AllFinished(finished, |ids|);
    }

    method CreateRemaining(ids: seq<PaneId>)
        returns (panes: seq<Created>, failed: bool, partial: bool, ghost finished: seq<Finished>, ghost parts: seq<seq<Call>>)
      requires Valid()
      modifies this
      ensures Valid() && Drift() && Settled(old(made), panes, partial)
      ensures forall k :: 0 <= k < |panes| ==> panes[k].generation <= nextGeneration
      ensures (!failed ==> Answers(panes, ids)) && (partial ==> failed)
      ensures log == old(log) + Flat(parts) && AllBy(|ids|, finished, parts)
      ensures failed == HasFailure(finished) && partial == HasPartial(finished) && IsCollected(|ids|, finished, panes)
    {
      hide CreatedBy;
      var results, calls := CreateAll(ids);
      finished, parts := results, calls;
      panes, failed, partial := Collect(|ids|, results);
      ObtainedFits(results, nextGeneration);
      if !failed {
        CollectedAll(results, |ids|, panes);
        forall i | 0 <= i < |ids| ensures panes[i].id == ids[i] && panes[i].generation <= nextGeneration {
          var k := EveryIndexFinished(results, |ids|, i);
          assert panes[results[k].index] == results[k].outcome.created;
        }
      }
    }

    /** One tab: its first pane, then the others. On failure `panes` are those that it got. */
    method CreateTab(ids: seq<PaneId>) returns (panes: seq<Created>, failed: bool, partial: bool, ghost run: TabRun)
      requires Valid() && ids != []
      modifies this
      ensures Valid() && Drift() && Settled(old(made), panes, partial)
      ensures forall k :: 0 <= k < |panes| ==> panes[k].generation <= nextGeneration
      ensures (!failed ==> Answers(panes, ids)) && (partial ==> failed)
      ensures log == old(log) + CallsOf(run) && TabBy(|ids|, run)
      ensures run.panes == panes && run.failed == failed && run.partial == partial
    {
      hide CreatedBy, AllBy, IsCollected, TabBy, CallsOf, Flat, HasFailure, HasPartial;
      var first, calls := CreatePane(ids[0]);
      ghost var failing, single, lost := ShortTab(|ids|, calls, first);
      if first.Failed? {
        panes, failed, partial, run := [], true, first.partial, failing;
        return;
      }
      panes, failed, partial, run := [first.created], false, false, single;
      if |ids| > 1 {
        var hasTab := FindTab(first.created);
        if !hasTab {
          failed, run := true, lost;
          return;
        }
        ghost var parts;
        panes, failed, partial, run, parts := CreateOthers(ids, first.created, calls);
      }
    }

    /** The other panes of a tab, whose first pane and backend tab are there. */
    method CreateOthers(ids: seq<PaneId>, first: Created, ghost calls: seq<Call>)
        returns (panes: seq<Created>, failed: bool, partial: bool, ghost run: TabRun, ghost parts: seq<seq<Call>>)
      requires Valid() && |ids| > 1 && first.id == ids[0] && first.generation <= nextGeneration && CreatedBy(calls, Ok(first))
      modifies this
      ensures Valid() && Drift() && Settled(old(made), panes, partial) && first in panes
      ensures forall k :: 0 <= k < |panes| ==> panes[k].generation <= nextGeneration
      ensures (!failed ==> Answers(panes, ids)) && (partial ==> failed)
      ensures log == old(log) + Flat(parts) && CallsOf(run) == calls + [FoundTab(true)] + Flat(parts) && TabBy(|ids|, run)
      ensures run.panes == panes && run.failed == failed && run.partial == partial
    {
      hide CreatedBy, AllBy, IsCollected, TabBy, CallsOf, Flat, HasFailure, HasPartial;
      var rest;
      ghost var finished;
      rest, failed, partial, finished, parts := CreateRemaining(ids[1..]);
      panes := [first] + rest;
      run := LongTab(|ids|, calls, first, finished, parts, rest);
    }

    /** One more tab, after panes of which nothing else is left. */
    method CreateNextTab(ids: seq<PaneId>, all: seq<Created>, ghost base: set<Created>)
        returns (panes: seq<Created>, failed: bool, partial: bool, ghost run: TabRun)
      requires Valid() && ids != [] && Settled(base, all, false)
      requires forall k :: 0 <= k < |all| ==> all[k].generation <= nextGeneration
      modifies this
      ensures Valid() && Drift() && Settled(base, all + panes, partial)
      ensures forall k :: 0 <= k < |all + panes| ==> (all + panes)[k].generation <= nextGeneration
      ensures (!failed ==> Answers(panes, ids) && !partial)
      ensures log == old(log) + CallsOf(run) && TabBy(|ids|, run)
      ensures run.panes == panes && run.failed == failed && run.partial == partial
    {
      hide CallsOf, TabBy, Answers;
      panes, failed, partial, run := CreateTab(ids);
    }

    /** All panes of the plan in order, or none of those that its creations returned or registered
        before they failed, unless the answer says that a cleanup was partial. */
    method Apply(tabs: seq<seq<PaneId>>) returns (r: Response, ghost runs: seq<TabRun>, ghost closing: seq<Call>)
      requires Valid()
      modifies this
      ensures Valid() && Drift()
      ensures r.Invalid? <==> !PlanOk(tabs)
      ensures r.Applied? ==> |r.tabs| == |tabs| && forall t :: 0 <= t < |tabs| ==> Answers(r.tabs[t], tabs[t])
      ensures r == NotApplied(false) ==> forall c :: c in made - old(made) ==> Gone(c)
      ensures log == old(log) + AllCalls(runs) + closing
      ensures if r.Invalid? then runs == [] && closing == [] else AppliedBy(tabs, runs, closing, r)
    {
      runs, closing := [], [];
      var valid := Validate(tabs);
      if !valid {
        r := Invalid;
        return;
      }
      hide AppliedBy, Answers, AllCalls;
      r, runs, closing := ApplyTabs(tabs);
    }

    /** The tabs one after the other, until one fails. */
    method ApplyTabs(tabs: seq<seq<PaneId>>) returns (r: Response, ghost runs: seq<TabRun>, ghost closing: seq<Call>)
      requires Valid() && forall t :: 0 <= t < |tabs| ==> tabs[t] != []
      modifies this
      ensures Valid() && Drift() && !r.Invalid?
      ensures r.Applied? ==> |r.tabs| == |tabs| && forall t :: 0 <= t < |tabs| ==> Answers(r.tabs[t], tabs[t])
      ensures r == NotApplied(false) ==> forall c :: c in made - old(made) ==> Gone(c)
      ensures log == old(log) + AllCalls(runs) + closing && AppliedBy(tabs, runs, closing, r)
    {
      hide TabBy, ClosedBy, CallsOf, AllPanes, AllCalls, AppliedBy, Answers;
      var done: seq<seq<Created>> := [];
      var all: seq<Created> := [];
      runs, closing := [], [];
      NoRuns();
      for t := 0 to |tabs|
        invariant Valid() && Drift() && Settled(old(made), all, false)
        invariant forall k :: 0 <= k < |all| ==> all[k].generation <= nextGeneration
        invariant |done| == t && |runs| == t && log == old(log) + AllCalls(runs) && all == AllPanes(runs)
        invariant forall u :: 0 <= u < t ==> IsDone(tabs[u], runs[u], done[u])
      {
        var panes, failed, partial, run := CreateNextTab(tabs[t], all, old(made));
        RunsPush(runs, run);
        all, runs := all + panes, runs + [run];
        if failed {
          var ok;
          ok, closing := Undo(all, old(made), partial);
          r := NotApplied(partial || !ok);
          PlanFails(tabs, runs, closing, ok, r);
          return;
        }
        done := done + [panes];
      }
      r := Applied(done);
      PlanSucceeds(tabs, runs, r);
    }
  }

  /** The tab has its panes in order. */
  ghost predicate IsDone(ids: seq<PaneId>, run: TabRun, panes: seq<Created>) {
    TabBy(|ids|, run) && !run.failed && run.panes == panes && Answers(panes, ids)
  }

  /** The creations whose index is in `left` have not finished. */
  ghost predicate IsUnderway(finished: seq<Finished>, left: set<nat>, n: nat) {
    && left <= FirstMany(n) && |finished| + |left| == n
    && (forall k :: 0 <= k < |finished| ==> finished[k].index < n && finished[k].index !in left)
    && (forall j, k :: 0 <= j < k < |finished| ==> finished[j].index != finished[k].index)
  }

  /** The panes so far have the IDs that were asked for. */
  ghost predicate ResultsFit(finished: seq<Finished>, ids: seq<PaneId>, next: nat) {
    forall k :: 0 <= k < |finished| ==>
      && finished[k].index < |ids|
      && (finished[k].outcome.Ok? ==>
            finished[k].outcome.created.id == ids[finished[k].index] && finished[k].outcome.created.generation <= next)
  }

  lemma NothingFinished(ids: seq<PaneId>, next: nat)
    ensures Obtained([]) == [] && !HasPartial([]) && IsUnderway([], FirstMany(|ids|), |ids|) && ResultsFit([], ids, next)
  {
  }

  lemma LeftIsBelow(finished: seq<Finished>, left: set<nat>, n: nat, i: nat)
    requires IsUnderway(finished, left, n) && i in left
    ensures i < n
  {
  }

  lemma AllFinished(finished: seq<Finished>, n: nat)
    requires IsUnderway(finished, {}, n)
    ensures IsComplete(finished, n)
  {
  }

  lemma OneMore(finished: seq<Finished>, left: set<nat>, ids: seq<PaneId>, i: nat, outcome: Outcome, before: nat, next: nat)
    requires IsUnderway(finished, left, |ids|) && ResultsFit(finished, ids, before) && before <= next && i in left && i < |ids|
    requires outcome.Ok? ==> outcome.created.id == ids[i] && outcome.created.generation <= next
    ensures var more := finished + [Finished(i, outcome)];
      && IsUnderway(more, left - {i}, |ids|) && ResultsFit(more, ids, next)
      && Obtained(more) == Obtained(finished) + (if outcome.Ok? then [outcome.created] else [])
      && HasPartial(more) == (HasPartial(finished) || (outcome.Failed? && outcome.partial))
  {
    var more := finished + [Finished(i, outcome)];
    assert more[..|finished|] == finished && more[|finished|] == Finished(i, outcome);
    if k :| 0 <= k < |finished| && finished[k].outcome.Failed? && finished[k].outcome.partial {
      assert more[k] == finished[k];
    }
  }

  /** Without a failure the collected panes are exactly those that were created. */
  lemma CollectedAll(results: seq<Finished>, n: nat, panes: seq<Created>)
    requires IsComplete(results, n) && |panes| == n
    requires forall k :: 0 <= k < n ==> results[k].outcome.Ok? && panes[results[k].index] == results[k].outcome.created
    ensures forall c :: c in panes <==> c in Obtained(results)
  {
    ObtainedIffOk(results);
    forall c | c in panes ensures c in Obtained(results) {
      var i :| 0 <= i < n && panes[i] == c;
      var k := EveryIndexFinished(results, n, i);
    }
  }

  lemma {:induction false} ObtainedIffOk(results: seq<Finished>)
    ensures forall c :: c in Obtained(results) <==> exists k :: 0 <= k < |results| && results[k].outcome == Ok(c)
    decreases |results|
  {
    if results != [] {
      var before := results[..|results| - 1];
      ObtainedIffOk(before);
      forall c ensures c in Obtained(results) <==> exists k :: 0 <= k < |results| && results[k].outcome == Ok(c) {
        if k :| 0 <= k < |results| && results[k].outcome == Ok(c) {
          if k < |before| {
            assert before[k] == results[k];
          }
        }
        if c in Obtained(before) {
          var k :| 0 <= k < |before| && before[k].outcome == Ok(c);
          assert results[k] == before[k];
        }
      }
    }
  }

  lemma {:induction false} ObtainedFits(results: seq<Finished>, next: nat)
    requires forall k :: 0 <= k < |results| && results[k].outcome.Ok? ==> results[k].outcome.created.generation <= next
    ensures forall k :: 0 <= k < |Obtained(results)| ==> Obtained(results)[k].generation <= next
    ensures forall k :: 0 <= k < |results| && results[k].outcome.Ok? ==> results[k].outcome.created in Obtained(results)
    decreases |results|
  {
    if results != [] {
      var before := results[..|results| - 1];
      ObtainedFits(before, next);
      forall k | 0 <= k < |results| && results[k].outcome.Ok? ensures results[k].outcome.created in Obtained(results) {
        if k < |before| {
          assert before[k] == results[k];
        }
      }
    }
  }

  method Validate(tabs: seq<seq<PaneId>>) returns (ok: bool)
    ensures ok <==> PlanOk(tabs)
  {
    if tabs == [] {
      return false;
    }
    var seen: set<PaneId> := {};
    for t := 0 to |tabs|
      invariant NoneTwice(tabs, t, 0, seen)
    {
      if tabs[t] == [] {
        return false;
      }
      ok, seen := ValidateTab(tabs, t, seen);
      if !ok {
        return;
      }
    }
    return true;
  }

  method ValidateTab(tabs: seq<seq<PaneId>>, t: nat, before: set<PaneId>) returns (ok: bool, seen: set<PaneId>)
    requires t < |tabs| && tabs[t] != [] && NoneTwice(tabs, t, 0, before)
    ensures ok ==> NoneTwice(tabs, t + 1, 0, seen)
    ensures !ok ==> !PlanOk(tabs)
  {
    seen := before;
    for i := 0 to |tabs[t]|
      invariant NoneTwice(tabs, t, i, seen)
    {
      if tabs[t][i] == "" || tabs[t][i] in seen {
        return false, seen;
      }
      seen := seen + {tabs[t][i]};
    }
    ok := true;
  }

  predicate IsBefore(t: nat, i: nat, u: nat, j: nat) {
    t < u || (t == u && i < j)
  }

  /** `seen` are the IDs before place `u`, `j`, and they are as they should be. */
  ghost predicate NoneTwice(tabs: seq<seq<PaneId>>, u: nat, j: nat, seen: set<PaneId>) {
    && (forall t :: 0 <= t < u && t < |tabs| ==> tabs[t] != [])
    && (forall t, i :: 0 <= t < |tabs| && 0 <= i < |tabs[t]| && IsBefore(t, i, u, j) ==> tabs[t][i] != "" && tabs[t][i] in seen)
    && (forall p :: p in seen ==> exists t, i :: 0 <= t < |tabs| && 0 <= i < |tabs[t]| && IsBefore(t, i, u, j) && tabs[t][i] == p)
    && (forall t, i, v, k ::
          0 <= t < |tabs| && 0 <= i < |tabs[t]| && 0 <= v < |tabs| && 0 <= k < |tabs[v]| && IsBefore(t, i, v, k) && IsBefore(v, k, u, j) ==>
            tabs[t][i] != tabs[v][k])
  }
}
