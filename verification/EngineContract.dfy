/** The engine meets the contract the runner checks, and what that means for one slice. */
module EngineContract {
  import opened Domain
  import opened ReplayContext
  import opened ReactLoop
  import opened Transcript
  import opened EngineLaws
  import opened Commands

  predicate Settled(status: RunStatus) {
    status == Suspended || status == Completed || status == Failed || status == Cancelled || status == MaxStepsExceeded
  }

  lemma EndedAppends(handed: RunState, input: Input, m: Slice, lag: nat, o: Outcome)
    requires Ended(Enter(handed, input).state, m, lag, o)
    ensures o.state.messages == m.state.messages
    ensures |handed.messages| <= |m.state.messages| && m.state.messages[..|handed.messages|] == handed.messages
    ensures |Enter(handed, input).state.messages| <= |m.state.messages|
    ensures m.state.messages[..|Enter(handed, input).state.messages|] == Enter(handed, input).state.messages
  {
  }

  lemma EvidenceIsProvenance(handed: RunState, input: Input, m: Slice, requirement: PendingRequirement)
    requires Evidence(Enter(handed, input).state, m, requirement)
    requires |handed.messages| <= |m.state.messages|
    requires requirement.origin == ToolOrigin ==> requirement.toolCallID != ""
    ensures |m.state.messages| > |handed.messages|
    ensures requirement.origin == ModelOrigin ==>
      HasAssistantRequirement(m.state.messages[|handed.messages|..], requirement)
    ensures requirement.origin == ToolOrigin ==>
      && HasObservation(m.state.messages[|handed.messages|..], requirement.toolCallID)
      && HasCall(m.state.messages, requirement.toolCallID)
  {
    var messages := m.state.messages;
    var additions := messages[|handed.messages|..];
    if requirement.origin == ModelOrigin {
      assert additions[|additions| - 1] == messages[|messages| - 1];
    } else {
      var call, a, n :| Blocks(Enter(handed, input).state, m, call, a, n) && call.id == requirement.toolCallID;
      assert messages[a + n + 1].role == Tool && messages[a + n + 1].toolCallID == call.id;
      assert additions[|additions| - 1] == messages[|messages| - 1];
      assert Declares(messages[a], call.id);
    }
  }

  lemma EndedState(entry: RunState, m: Slice, lag: nat, o: Outcome)
    requires Ended(entry, m, lag, o)
    ensures o.state.id == entry.id && o.state.version == entry.version && o.state.step >= entry.step
    ensures Settled(o.state.status)
    ensures ValidateRunState(o.state) == {}
    ensures o.state.status == Suspended ==>
      && o.state.pendingRequirement.Some?
      && ValidatePendingRequirement(o.state.pendingRequirement) == {}
      && Evidence(entry, m, o.state.pendingRequirement.value)
  {
    hide Healthy, CutOnlyAtEnd, RequestsExact, EventsFit, OverrideOnlyFirst, Mirror, Evidence, AssistantCount;
  }

  /** Every slice of ReactLoop passes the runner's checks and leaves a state the store accepts. */
  lemma ContractHolds(handed: RunState, input: Input, m: Slice, lag: nat, o: Outcome)
    requires Ended(Enter(handed, input).state, m, lag, o)
    ensures ValidateEngineOutput(handed, o.state) == {}
    ensures ValidateRunState(o.state) == {}
    ensures o.state.id == handed.id && o.state.version == handed.version
    ensures Settled(o.state.status)
  {
    EndedAppends(handed, input, m, lag, o);
    EndedState(Enter(handed, input).state, m, lag, o);
    hide Ended, Evidence;
    if o.state.status == Suspended {
      EvidenceIsProvenance(handed, input, m, o.state.pendingRequirement.value);
    }
  }

  /** From every state the runner can hand it, Execute keeps ID and version, ends in a settled
      status and passes validateEngineOutput, the provenance check and ValidateRunState. */
  lemma ReactLoopMeetsContract(env: Oracles, ctx: Context, handed: RunState, input: Input)
    requires SpeaksAsAssistant(env) && Handed(handed) && NamedTarget(ctx, handed, input)
    ensures var o := Execution(env, ctx, handed, input);
      && ValidateEngineOutput(handed, o.state) == {}
      && ValidateRunState(o.state) == {}
      && o.state.id == handed.id && o.state.version == handed.version
      && Settled(o.state.status)
  {
    var m, lag := ExecutionLaw(env, ctx, handed, input);
    ContractHolds(handed, input, m, lag, Execution(env, ctx, handed, input));
  }

  // ---------------------------------------------------------------- the event stream

  predicate IsClosing(obs: Obs) {
    obs.Published? && (obs.event.kind == RunCompleted || obs.event.kind == RunFailed || obs.event.kind == RunCancelled)
  }

  /** The kinds of event an engine slice publishes. */
  predicate OfSlice(kind: EventType) {
    || kind == AssistantMessage || kind == ToolObservation
    || kind == RunCompleted || kind == RunFailed || kind == RunCancelled
  }

  /** The events of a slice are the transcript it wrote: read back, they give every message it
      appended after the resolution, in order; their steps never decrease; and a closing event is
      published exactly when the slice does not suspend, once, as the last thing done. */
  lemma EventsMirrorTranscript(env: Oracles, ctx: Context, handed: RunState, input: Input)
    requires SpeaksAsAssistant(env) && Handed(handed) && NamedTarget(ctx, handed, input)
    ensures var o := Execution(env, ctx, handed, input);
      && o.state.messages == handed.messages + ResolutionMessages(input.resolution) + Mirror(o.trace)
      && StepsOrdered(o.trace)
      && (forall k | 0 <= k < |o.trace| && IsClosing(o.trace[k]) :: k == |o.trace| - 1)
      && (o.state.status == Suspended <==> o.trace == [] || !IsClosing(o.trace[|o.trace| - 1]))
      && (forall k | 0 <= k < |o.trace| && o.trace[k].Published? ::
            ValidateEvent(o.trace[k].event) == {} && o.trace[k].event.runID == handed.id
            && OfSlice(o.trace[k].event.kind))
  {
    var m, lag := ExecutionLaw(env, ctx, handed, input);
    var o := Execution(env, ctx, handed, input);
    CloseTrace(Enter(handed, input).state, m, lag, o);
  }

  lemma CloseTrace(entry: RunState, m: Slice, lag: nat, o: Outcome)
    requires Ended(entry, m, lag, o)
    ensures o.state.messages == entry.messages + Mirror(o.trace)
    ensures ModelCalls(o.trace) == ModelCalls(m.trace)
    ensures StepsOrdered(o.trace)
    ensures forall k | 0 <= k < |o.trace| && IsClosing(o.trace[k]) :: k == |o.trace| - 1
    ensures o.state.status == Suspended <==> o.trace == [] || !IsClosing(o.trace[|o.trace| - 1])
    ensures forall k | 0 <= k < |o.trace| && o.trace[k].Published? ::
      ValidateEvent(o.trace[k].event) == {} && o.trace[k].event.runID == entry.id
      && OfSlice(o.trace[k].event.kind)
  {
    hide Healthy, CutOnlyAtEnd, RequestsExact, OverrideOnlyFirst, EventsFit, Evidence, ValidateEvent, Mirror,
      ModelCalls, Fits, AssistantCount, ValidatePendingRequirement;
    LoopEventsDoNotClose(entry, m.state.step, m.trace);
    if o.state.status != Suspended {
      var closing := Published(m.clock, PlainEvent(entry.id, m.state.step, ClosingEvent(o.state.status)));
      assert o.trace == m.trace + [closing];
      TraceAppend(m.trace, closing);
      assert Mirror(m.trace) + [] == Mirror(m.trace);
      assert ValidateEvent(closing.event) == {} by {
        PlainEventValid(entry.id, m.state.step, ClosingEvent(o.state.status));
      }
    }
  }

  lemma PlainEventValid(runID: RunID, step: int, kind: EventType)
    requires runID != "" && step >= 0 && !kind.OtherType?
    requires kind != CommandApplied && kind != AssistantMessage && kind != ToolObservation
    ensures ValidateEvent(PlainEvent(runID, step, kind)) == {}
  {
  }

  lemma LoopEventsDoNotClose(entry: RunState, step: int, trace: seq<Obs>)
    requires EventsFit(entry, step, trace)
    ensures StepsOrdered(trace)
    ensures forall k | 0 <= k < |trace| :: !IsClosing(trace[k])
    ensures forall k | 0 <= k < |trace| && trace[k].Published? ::
      && ValidateEvent(trace[k].event) == {} && trace[k].event.runID == entry.id
      && entry.step <= trace[k].event.step <= step
      && OfSlice(trace[k].event.kind)
  {
    assert forall k | 0 <= k < |trace| :: Fits(entry, step, trace[k]);
  }

  // ---------------------------------------------------------------- model calls and the budget

  lemma EndedSteps(entry: RunState, m: Slice, lag: nat, o: Outcome)
    requires Ended(entry, m, lag, o)
    ensures o.state.step == entry.step + ModelCalls(m.trace)
  {
    hide Healthy, CutOnlyAtEnd, RequestsExact, EventsFit, OverrideOnlyFirst, Mirror, Evidence, AssistantCount;
  }

  function StepsLeft(input: Input, step: int): int {
    if Limit(input) > step then Limit(input) - step else 0
  }

  /** A slice calls the model exactly as often as it steps, and never beyond its budget. */
  lemma ModelCallsWithinBudget(env: Oracles, ctx: Context, handed: RunState, input: Input)
    requires SpeaksAsAssistant(env) && Handed(handed) && NamedTarget(ctx, handed, input)
    ensures var o := Execution(env, ctx, handed, input);
      && ModelCalls(o.trace) == o.state.step - handed.step
      && ModelCalls(o.trace) <= StepsLeft(input, handed.step)
  {
    hide Ended, Handed, NamedTarget, SpeaksAsAssistant, ModelCalls, StepsOrdered, Mirror;
    var m, lag := ExecutionLaw(env, ctx, handed, input);
    var o := Execution(env, ctx, handed, input);
    CloseTrace(Enter(handed, input).state, m, lag, o);
    EndedSteps(Enter(handed, input).state, m, lag, o);
  }
}
