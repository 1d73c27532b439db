/** Creating panes under caller-chosen IDs: for one ID one caller leads and the others wait for
    its result. Every function is one section under the lock of the creation calls. */
module PaneCreation {
  import opened Basics
  import opened PaneRegistry

  type PaneId = string

  datatype Pane = Pane(generation: nat, zellij: string, status: Status)

  /** What a call has come to. `Partial`: it failed, and so did the cleanup of its pane. */
  datatype Progress = Underway | Succeeded | Failed | Partial

  /** `created` is the pane that the call registered, if it got that far. */
  datatype Call = Call(id: PaneId, request: string, progress: Progress, created: Option<Pane>)

  /** `calls` are all leading calls so far; `current` is the one recorded for an ID. */
  datatype Creations = Creations(calls: seq<Call>, current: map<PaneId, nat>, registry: map<PaneId, Pane>)

  const NONE := Creations([], map[], map[])

  datatype Begun = Leads(call: nat) | Follows(call: nat) | Refused

  predicate IsLive(c: Creations, id: PaneId) {
    id in c.registry && (c.registry[id].status == Starting || c.registry[id].status == Running)
  }

  predicate SameGeneration(want: Option<Pane>, got: Pane) {
    want.Some? && want.value.generation == got.generation && want.value.zellij == got.zellij
  }

  /** The recorded call is over and its pane no longer stands in the way of a new one. */
  predicate IsSpent(c: Creations, call: Call) {
    match call.progress
    case Underway => false
    case Succeeded => !IsLive(c, call.id)
    case Failed => false
    case Partial => call.id in c.registry && SameGeneration(call.created, c.registry[call.id]) && IsTerminal(c.registry[call.id].status)
  }

  predicate HasCurrent(c: Creations, id: PaneId) {
    id in c.current && c.current[id] < |c.calls|
  }

  /** Forgets a spent call; the terminal pane of a partial cleanup is removed with it. */
  function Forget(c: Creations, id: PaneId): Creations {
    if HasCurrent(c, id) && IsSpent(c, c.calls[c.current[id]]) then
      c.(current := c.current - {id},
         registry := if c.calls[c.current[id]].progress == Partial then c.registry - {id} else c.registry)
    else c
  }

  function Begin(c: Creations, id: PaneId, request: string): (Creations, Begun) {
    var c1 := Forget(c, id);
    if HasCurrent(c1, id) then
      if c1.calls[c1.current[id]].request != request then (c1, Refused)
      else (c1, Follows(c1.current[id]))
    else
      (c1.(calls := c1.calls + [Call(id, request, Underway, None)], current := c1.current[id := |c1.calls|]), Leads(|c1.calls|))
  }

  /** The leader's backend pane is registered; this fails if the ID is taken meanwhile. */
  function Register(c: Creations, call: nat, pane: Pane): Creations
    requires call < |c.calls|
  {
    var id := c.calls[call].id;
    if id in c.registry then c
    else c.(registry := c.registry[id := pane], calls := c.calls[call := c.calls[call].(created := Some(pane))])
  }

  /** A failed call without a partial cleanup leaves no record. */
  function Finish(c: Creations, call: nat, progress: Progress): Creations
    requires call < |c.calls|
  {
    c.(calls := c.calls[call := c.calls[call].(progress := progress)],
       current := if progress == Failed then c.current - {c.calls[call].id} else c.current)
  }

  // ---------- Runs ----------

  datatype Event =
    | Begins(id: PaneId, request: string)
    | Registers(call: nat, pane: Pane)
    | Finishes(call: nat, progress: Progress)
    | RegistryChanges(registry: map<PaneId, Pane>)

  predicate CanHappen(c: Creations, ev: Event) {
    match ev
    case Registers(call, _) => call < |c.calls| && c.calls[call].progress == Underway
    case Finishes(call, progress) => call < |c.calls| && c.calls[call].progress == Underway && progress != Underway
    case _ => true
  }

  function Next(c: Creations, ev: Event): Creations
    requires CanHappen(c, ev)
  {
    match ev
    case Begins(id, request) => Begin(c, id, request).0
    case Registers(call, pane) => Register(c, call, pane)
    case Finishes(call, progress) => Finish(c, call, progress)
    case RegistryChanges(registry) => c.(registry := registry)
  }

  ghost predicate IsRun(states: seq<Creations>, evs: seq<Event>) {
    && |states| == |evs| + 1 && states[0] == NONE
    && forall k :: 0 <= k < |evs| ==> CanHappen(states[k], evs[k]) && states[k + 1] == Next(states[k], evs[k])
  }

  /** A call that is under way, or whose cleanup is partial, is the recorded one of its ID, and
      failed calls are not recorded. */
  ghost predicate Inv(c: Creations) {
    && (forall id :: id in c.current ==>
          c.current[id] < |c.calls| && c.calls[c.current[id]].id == id && c.calls[c.current[id]].progress != Failed)
    && (forall i :: 0 <= i < |c.calls| && c.calls[i].progress == Underway ==> c.calls[i].id in c.current && c.current[c.calls[i].id] == i)
  }

  lemma ForgetKeeps(c: Creations, id: PaneId)
    requires Inv(c)
    ensures var c1 := Forget(c, id);
      Inv(c1) && c1.calls == c.calls && (id in c1.current <==> HasCurrent(c1, id))
  {
  }

  lemma BeginKeeps(c: Creations, id: PaneId, request: string)
    requires Inv(c)
    ensures Inv(Begin(c, id, request).0)
  {
    ForgetKeeps(c, id);
    hide Forget;
  }

  lemma NextKeeps(c: Creations, ev: Event)
    requires Inv(c) && CanHappen(c, ev)
    ensures Inv(Next(c, ev))
  {
    hide Begin;
    if ev.Begins? {
      BeginKeeps(c, ev.id, ev.request);
    }
  }

  lemma {:induction false} RunKeeps(states: seq<Creations>, evs: seq<Event>, k: nat)
    requires IsRun(states, evs) && k < |states|
    ensures Inv(states[k])
  {
    if k > 0 {
      RunKeeps(states, evs, k - 1);
      NextKeeps(states[k - 1], evs[k - 1]);
    }
  }

  /** For one pane ID at most one caller creates at any time. */
  lemma OneCreatorPerId(states: seq<Creations>, evs: seq<Event>, k: nat, i: nat, j: nat)
    requires IsRun(states, evs) && k < |states|
    requires i < |states[k].calls| && j < |states[k].calls|
    requires states[k].calls[i].progress == Underway && states[k].calls[j].progress == Underway
    requires states[k].calls[i].id == states[k].calls[j].id
    ensures i == j
  {
    RunKeeps(states, evs, k);
  }

  /** A call leads exactly when no call is recorded or the recorded one is spent; otherwise it
      waits for the recorded call if the requests agree and is refused if they differ. */
  lemma LeadsIff(c: Creations, id: PaneId, request: string)
    requires Inv(c)
    ensures var begun := Begin(c, id, request).1;
      && (begun.Leads? <==> id !in c.current || IsSpent(c, c.calls[c.current[id]]))
      && (begun.Follows? ==> begun.call == c.current[id] && c.calls[begun.call].request == request)
      && (begun.Refused? ==> c.calls[c.current[id]].request != request)
      && (begun.Leads? ==> begun.call == |c.calls| && Begin(c, id, request).0.calls == c.calls + [Call(id, request, Underway, None)])
  {
  }

  /** A call that leads becomes the recorded one, and the ended pane of a partial cleanup makes
      way for it; nothing else changes, and nothing at all where a call does not lead. */
  lemma BeginChanges(c: Creations, id: PaneId, request: string)
    requires Inv(c)
    ensures var (c1, begun) := Begin(c, id, request);
      if !begun.Leads? then c1 == c
      else
        && c1.current == c.current[id := |c.calls|]
        && c1.registry == if id in c.current && c.calls[c.current[id]].progress == Partial then c.registry - {id} else c.registry
  {
    if id in c.current && IsSpent(c, c.calls[c.current[id]]) {
      assert (c.current - {id})[id := |c.calls|] == c.current[id := |c.calls|];
    }
  }

  /** The end of a call is recorded as it was; a plain failure alone leaves the ID free, and a
      pane is registered exactly if its ID is. */
  lemma EndsAreRecorded(c: Creations, call: nat, progress: Progress, pane: Pane)
    requires Inv(c) && CanHappen(c, Finishes(call, progress))
    ensures var c1, id := Next(c, Finishes(call, progress)), c.calls[call].id;
      && |c1.calls| == |c.calls| && c1.calls[call] == c.calls[call].(progress := progress)
      && (forall k :: 0 <= k < |c.calls| && k != call ==> c1.calls[k] == c.calls[k])
      && (forall x :: x in c1.current <==> x in c.current && !(x == id && progress == Failed))
      && (forall x :: x in c1.current ==> c1.current[x] == c.current[x]) && c1.registry == c.registry
    ensures var c1, id := Next(c, Registers(call, pane)), c.calls[call].id;
      if id in c.registry then c1 == c
      else
        && c1.registry == c.registry[id := pane] && c1.current == c.current
        && |c1.calls| == |c.calls| && c1.calls[call] == c.calls[call].(created := Some(pane))
        && (forall k :: 0 <= k < |c.calls| && k != call ==> c1.calls[k] == c.calls[k])
  {
  }

  /** While a call is under way, or its pane is starting or running, or its cleanup is partial
      and the pane not yet terminal, no further call for the ID leads. */
  lemma NoSecondCreate(states: seq<Creations>, evs: seq<Event>, k: nat, id: PaneId, request: string)
    requires IsRun(states, evs) && k < |states| && HasCurrent(states[k], id)
    requires var c := states[k];
      var call := c.calls[c.current[id]];
      || call.progress == Underway
      || (call.progress == Succeeded && IsLive(c, id))
      || (call.progress == Partial && (id in c.registry ==> !IsTerminal(c.registry[id].status)))
    ensures !Begin(states[k], id, request).1.Leads?
  {
    RunKeeps(states, evs, k);
  }

  /** When a call begins to lead, every earlier call for its ID is over, and the recorded one
      has failed, or its pane is gone or no longer live. */
  lemma CreatesAreSeparated(states: seq<Creations>, evs: seq<Event>, k: nat, i: nat)
    requires IsRun(states, evs) && k < |evs| && evs[k].Begins?
    requires Begin(states[k], evs[k].id, evs[k].request).1.Leads?
    requires i < |states[k].calls| && states[k].calls[i].id == evs[k].id
    ensures states[k].calls[i].progress != Underway
    ensures evs[k].id in states[k].current && states[k].current[evs[k].id] == i ==> !IsLive(states[k], evs[k].id)
  {
    RunKeeps(states, evs, k);
    LeadsIff(states[k], evs[k].id, evs[k].request);
  }

  // ---------- The table of calls ----------

  class CreateTable {
    var calls: seq<Call>
    var current: map<PaneId, nat>
    var registry: map<PaneId, Pane>

    ghost function State(): Creations
      reads this
    {
      Creations(calls, current, registry)
    }

    constructor ()
      ensures State() == NONE && Inv(State())
    {
      calls, current, registry := [], map[], map[];
    }

    /** A spent call is forgotten, with the terminal pane of a partial cleanup. */
    method ForgetSpent(id: PaneId)
      requires Inv(State())
      modifies this`current, this`registry
      ensures State() == Forget(old(State()), id)
    {
      if id in current {
        var existing := calls[current[id]];
        match existing.progress {
          case Succeeded =>
            if id !in registry || (registry[id].status != Starting && registry[id].status != Running) {
              current := current - {id};
            }
          case Partial =>
            if id in registry && SameGeneration(existing.created, registry[id]) && IsTerminal(registry[id].status) {
              registry := registry - {id};
              current := current - {id};
            }
          case _ =>
        }
      }
    }

    method BeginCreate(id: PaneId, request: string) returns (begun: Begun)
      requires Inv(State())
      modifies this
      ensures Inv(State()) && (State(), begun) == Begin(old(State()), id, request)
    {
      BeginKeeps(State(), id, request);
      ForgetKeeps(State(), id);
      hide Inv, Forget;
      ForgetSpent(id);
      if id in current {
        if calls[current[id]].request != request {
          return Refused;
        }
        return Follows(current[id]);
      }
      calls := calls + [Call(id, request, Underway, None)];
      current := current[id := |calls| - 1];
      return Leads(|calls| - 1);
    }

    method FinishCreate(call: nat, progress: Progress)
      requires Inv(State()) && call < |calls| && calls[call].progress == Underway && progress != Underway
      modifies this`calls, this`current
      ensures Inv(State()) && State() == Finish(old(State()), call, progress)
    {
      NextKeeps(State(), Finishes(call, progress));
      calls := calls[call := calls[call].(progress := progress)];
      if progress == Failed {
        current := current - {calls[call].id};
      }
    }
  }
}
