/** How a follow-up reaches its pane: what the observation of an agent needs to call it ready, and
    the input call that asks once more, under the pane's input lock, before it types anything. */
module PaneInput {
  import opened Basics
  import opened FollowupQueue

  /** What the agent monitor's rules saw on the screen. */
  datatype Detection = Detection(idle: bool, visibleIdle: bool, fallback: bool, skipsUpdate: bool, interrupted: bool)

  datatype Explanation = Explanation(
    agent: Id, pane: string, supported: bool, idle: bool, available: bool, startupGrace: bool, pendingIdle: bool,
    detection: Option<Detection>, epoch: nat, revision: nat, observedAt: int, lastWorkingAt: int)

  datatype Pane = Pane(token: string, running: bool, place: string)

  /** The answers to an observation's calls, in their order; `None` is a failed call. The screen
      answers whether its prompt is empty. */
  datatype Answers = Answers(
    before: Option<Explanation>, pane: Option<Pane>, promptEmpty: Option<bool>, after: Option<Explanation>)

  ghost predicate SeenIdle(e: Explanation) {
    && e.idle && e.available && !e.startupGrace && !e.pendingIdle && e.detection.Some?
    && e.detection.value == Detection(true, true, false, false, false)
  }

  /** Ready is what a fresh screen with an empty prompt shows, explained after it was taken. */
  ghost predicate IsReady(id: Id, a: Answers) {
    && a.before.Some? && a.before.value.supported && a.pane.Some? && a.pane.value.running
    && a.promptEmpty == Some(true) && a.after.Some? && SeenIdle(a.after.value)
    && a.after.value.agent == id && a.before.value.pane == a.after.value.pane
  }

  method Observe(id: Id, a: Answers) returns (r: Option<Observation>)
    ensures r.Some? <==>
      && a.before.Some? && a.before.value.supported && a.pane.Some?
      && (a.pane.value.running ==>
            a.promptEmpty.Some? && a.after.Some? && a.after.value.agent == id && a.after.value.pane == a.before.value.pane)
    ensures r.Some? ==> (r.value.reason != "" <==> r.value.running && a.after.Some? && SeenIdle(a.after.value) && a.promptEmpty == Some(false))
    ensures r.Some? && r.value.ready ==> IsReady(id, a)
    ensures IsReady(id, a) ==> r.Some? && r.value.ready
    ensures r.Some? ==>
      && a.before.Some? && a.pane.Some? && r.value.running == a.pane.value.running
      && r.value.target == Target(a.before.value.agent, a.before.value.pane, a.pane.value.token)
    ensures r.Some? && r.value.running ==>
      && a.after.Some? && r.value.epoch == a.after.value.epoch && r.value.revision == a.after.value.revision
      && r.value.observedAt == a.after.value.observedAt && r.value.lastWorkingAt == a.after.value.lastWorkingAt
  {
    if a.before.None? || !a.before.value.supported {
      return None;
    }
    var first := a.before.value;
    if a.pane.None? {
      return None;
    }
    var o := Observation(Target(first.agent, first.pane, a.pane.value.token), a.pane.value.running, false, "", 0, 0, 0, 0);
    if !o.running {
      return Some(o);
    }
    if a.promptEmpty.None? || a.after.None? {
      return None;
    }
    var e := a.after.value;
    if e.pane != o.target.pane || e.agent != id {
      return None;
    }
    o := o.(epoch := e.epoch, revision := e.revision, observedAt := e.observedAt, lastWorkingAt := e.lastWorkingAt);
    if e.detection.Some? {
      var d := e.detection.value;
      o := o.(ready := e.idle && e.available && !e.startupGrace && !e.pendingIdle && d.idle && d.visibleIdle
        && !d.fallback && !d.skipsUpdate && !d.interrupted);
    }
    if o.ready && !a.promptEmpty.value {
      o := o.(ready := false, reason := "the prompt holds a draft or cannot be read");
    }
    return Some(o);
  }

  // ---------- The input call ----------

  /** `WasNotReady` is the guard's refusal; `NotRecorded` means delivered, but not noted as the
      pane's last instruction. */
  datatype InputError =
    | NoError | NoPaneId | IsCanceled | UnknownPane | OwnershipChanged | NotRunning | WasNotReady | SendFailed | NotRecorded

  datatype Submission = Submission(place: string, text: string)

  /** The answers to one input call, in their order; `guard` are those of the observation it asks for. */
  datatype InputAnswers = InputAnswers(
    canceledFirst: bool, firstPane: Option<Pane>, guard: Answers, secondPane: Option<Pane>, canceledThen: bool,
    typed: bool, noted: bool)

  function TargetError(token: string, pane: Option<Pane>): (e: InputError)
    ensures e != NoError ==> e == UnknownPane || e == OwnershipChanged || e == NotRunning
    ensures e == UnknownPane <==> pane.None?
    ensures e == OwnershipChanged <==> pane.Some? && token != "" && token != pane.value.token
    ensures e == NoError <==> pane.Some? && (token == "" || (token == pane.value.token && pane.value.running))
  {
    if pane.None? then UnknownPane
    else if token == "" then NoError
    else if token != pane.value.token then OwnershipChanged
    else if !pane.value.running then NotRunning
    else NoError
  }

  function TrimNewlines(text: string): (r: string)
    ensures r <= text && (r == "" || r[|r| - 1] != '\n')
    ensures forall i :: |r| <= i < |text| ==> text[i] == '\n'
  {
    if text == "" || text[|text| - 1] != '\n' then text else TrimNewlines(text[..|text| - 1])
  }

  /** The observation still stands: same pane, owner, monitor epoch and count of working spells. */
  predicate Unchanged(o: Observation, again: Option<Observation>) {
    && again.Some? && again.value.running && again.value.ready && again.value.target == o.target
    && again.value.epoch == o.epoch && again.value.revision == o.revision
  }

  /** What was observed holds once more. */
  ghost predicate StandsAgain(o: Observation, a: Answers) {
    && IsReady(o.target.agent, a) && a.before.value.agent == o.target.agent && a.before.value.pane == o.target.pane
    && a.pane.value.token == o.target.token
    && a.after.value.epoch == o.epoch && a.after.value.revision == o.revision
  }

  method Guard(o: Observation, a: Answers) returns (error: InputError)
    ensures error == NoError || error == WasNotReady
    ensures error == NoError <==> StandsAgain(o, a)
    ensures error == NoError ==>
      && IsReady(o.target.agent, a) && a.after.value.epoch == o.epoch && a.after.value.revision == o.revision
      && a.pane.value.token == o.target.token && a.after.value.pane == o.target.pane
  {
    var again := Observe(o.target.agent, a);
    error := if Unchanged(o, again) then NoError else WasNotReady;
  }

  /** The call gets as far as the guard: nothing speaks against the pane. */
  predicate MayAsk(paneId: string, token: string, a: InputAnswers) {
    paneId != "" && !a.canceledFirst && TargetError(token, a.firstPane) == NoError
  }

  /** The call types: the guard passes where there is one, and the pane found then is right. */
  ghost predicate MayType(paneId: string, token: string, basis: Option<Observation>, a: InputAnswers) {
    && MayAsk(paneId, token, a) && !a.canceledThen
    && (basis.Some? ==> StandsAgain(basis.value, a.guard) && TargetError(token, a.secondPane) == NoError)
  }

  /** A line with something visible in it, which is noted as the pane's last instruction. */
  predicate IsInstruction(text: string) {
    text != "" && text[|text| - 1] == '\n' && exists i :: 0 <= i < |text| && !IsSpace(text[i])
  }

  /** An input call; with an observation the guard stands before it. The pane is looked up again
      after the guard, so that no other owner gets what the guard allowed. */
  method SendInput(paneId: string, token: string, text: string, basis: Option<Observation>, a: InputAnswers)
    returns (error: InputError, sent: seq<Submission>)
    ensures sent != [] <==> error == NoError || error == SendFailed || error == NotRecorded
    ensures sent != [] ==>
      var pane := if basis.Some? then a.secondPane else a.firstPane;
      && TargetError(token, pane) == NoError && sent == [Submission(pane.value.place, text)]
      && paneId != "" && !a.canceledFirst && !a.canceledThen && TargetError(token, a.firstPane) == NoError
    ensures sent != [] && basis.Some? ==>
      var o := basis.value;
      && IsReady(o.target.agent, a.guard) && a.guard.after.value.epoch == o.epoch && a.guard.after.value.revision == o.revision
      && a.guard.pane.value.token == o.target.token && a.guard.after.value.pane == o.target.pane
    ensures error == NoError ==> a.typed
    ensures sent != [] <==> MayType(paneId, token, basis, a)
    ensures sent != [] ==> error == if !a.typed then SendFailed else if IsInstruction(text) && !a.noted then NotRecorded else NoError
    ensures error == WasNotReady <==> MayAsk(paneId, token, a) && basis.Some? && !StandsAgain(basis.value, a.guard)
  {
    sent := [];
    if paneId == "" {
      return NoPaneId, sent;
    }
    if a.canceledFirst {
      return IsCanceled, sent;
    }
    var pane := a.firstPane;
    error := TargetError(token, pane);
    if error != NoError {
      return;
    }
    if basis.Some? {
      error := Guard(basis.value, a.guard);
      if error != NoError {
        return;
      }
      pane := a.secondPane;
      error := TargetError(token, pane);
      if error != NoError {
        return;
      }
    }
    if a.canceledThen {
      return IsCanceled, sent;
    }
    sent := [Submission(pane.value.place, text)];
    if !a.typed {
      return SendFailed, sent;
    }
    if text != "" && text[|text| - 1] == '\n' && (exists i :: 0 <= i < |text| - 1 && !IsSpace(text[i])) && !a.noted {
      assert IsInstruction(text);
      return NotRecorded, sent;
    }
    return NoError, sent;
  }

  lemma InstructionIff(text: string)
    ensures IsInstruction(TrimNewlines(text) + "\n") <==> exists i :: 0 <= i < |text| && !IsSpace(text[i])
  {
    var trimmed := TrimNewlines(text);
    var line := trimmed + "\n";
    assert IsSpace('\n') && line[|line| - 1] == '\n';
    assert forall i :: 0 <= i < |trimmed| ==> line[i] == trimmed[i] == text[i];
    if i :| 0 <= i < |text| && !IsSpace(text[i]) {
      assert i < |trimmed| && line[i] == text[i];
    }
  }

  /** The send of a follow-up. Not ready means that nothing was typed; and whatever was typed was
      typed once, into the pane and for the owner that the observation saw ready, and no working
      spell had been counted since. */
  method Send(o: Observation, text: string, a: InputAnswers) returns (outcome: SendOutcome, sent: seq<Submission>)
    ensures outcome == NotReady ==> sent == []
    ensures outcome == Delivered ==> |sent| == 1 && a.typed
    ensures sent != [] ==>
      && |sent| == 1 && a.secondPane.Some? && sent[0] == Submission(a.secondPane.value.place, TrimNewlines(text) + "\n")
      && (o.target.token != "" ==> a.secondPane.value.token == o.target.token && a.secondPane.value.running)
      && IsReady(o.target.agent, a.guard) && a.guard.after.value.epoch == o.epoch && a.guard.after.value.revision == o.revision
    ensures sent != [] <==> MayType(o.target.pane, o.target.token, Some(o), a)
    ensures outcome == Delivered <==> sent != [] && a.typed && (a.noted || forall i :: 0 <= i < |text| ==> IsSpace(text[i]))
    ensures outcome == NotReady <==> MayAsk(o.target.pane, o.target.token, a) && !StandsAgain(o, a.guard)
  {
    InstructionIff(text);
    var error;
    error, sent := SendInput(o.target.pane, o.target.token, TrimNewlines(text) + "\n", Some(o), a);
    outcome := if error == NoError then Delivered else if error == WasNotReady then NotReady else Failed;
  }
}
