/** What every slice of execution guarantees, whatever model, tools, sink and cancellation do.

    `Tracks` ties a running slice to the state it entered with: the transcript is the entry
    transcript plus exactly the messages of the published events, the step count is the number of
    model calls, and every model call was handed the transcript of that moment. `Ended` says how a
    slice closes. `ExecutionLaw` proves both for every execution.
  */
module EngineLaws {
  import opened Domain
  import opened ReplayContext
  import opened ReactLoop
  import opened Transcript

  /** The model answers with the role assistant, or with none. */
  ghost predicate SpeaksAsAssistant(env: Oracles) {
    forall n: nat, messages: seq<Message> ::
      env.model(n, messages).message.role == NoRole || env.model(n, messages).message.role == Assistant
  }

  // ---------------------------------------------------------------- reading a trace

  /** The message a published event stands for. */
  function MessageOf(event: Event): seq<Message> {
    if event.kind == AssistantMessage && event.message.Some? then [event.message.value]
    else if event.kind == ToolObservation && event.toolResult.Some? then [ToolResultMessage(event.toolResult.value)]
    else []
  }

  function MirrorOf(obs: Obs): seq<Message> {
    if obs.Published? then MessageOf(obs.event) else []
  }

  /** The transcript an observer of the events would write down. */
  function Mirror(trace: seq<Obs>): seq<Message> {
    if trace == [] then [] else Mirror(trace[..|trace| - 1]) + MirrorOf(trace[|trace| - 1])
  }

  function ModelCalls(trace: seq<Obs>): nat {
    if trace == [] then 0
    else ModelCalls(trace[..|trace| - 1]) + if trace[|trace| - 1].ModelCalled? then 1 else 0
  }

  lemma TraceAppend(trace: seq<Obs>, obs: Obs)
    ensures Mirror(trace + [obs]) == Mirror(trace) + MirrorOf(obs)
    ensures ModelCalls(trace + [obs]) == ModelCalls(trace) + if obs.ModelCalled? then 1 else 0
  {
    assert (trace + [obs])[..|trace|] == trace;
  }

  // ---------------------------------------------------------------- a running slice

  ghost predicate Runnable(entry: RunState) {
    entry.id != "" && entry.step >= 0 && entry.version >= 0 && entry.status == Running && entry.pendingRequirement.None?
  }

  /** A published event of the loop is valid and belongs to this run and slice. */
  ghost predicate Fits(entry: RunState, step: int, obs: Obs) {
    obs.Published? ==>
      && ValidateEvent(obs.event) == {}
      && obs.event.runID == entry.id
      && entry.step <= obs.event.step <= step
      && (obs.event.kind == AssistantMessage || obs.event.kind == ToolObservation)
  }

  ghost predicate StepsOrdered(trace: seq<Obs>) {
    forall i, j | 0 <= i < j < |trace| && trace[i].Published? && trace[j].Published? ::
      trace[i].event.step <= trace[j].event.step
  }

  ghost predicate EventsFit(entry: RunState, step: int, trace: seq<Obs>) {
    StepsOrdered(trace) && forall k | 0 <= k < |trace| :: Fits(entry, step, trace[k])
  }

  /** Every model call was handed the entry transcript plus what was published so far. */
  ghost predicate RequestsExact(entry: RunState, trace: seq<Obs>) {
    forall k | 0 <= k < |trace| && trace[k].ModelCalled? ::
      trace[k].messages == entry.messages + Mirror(trace[..k])
  }

  /** Only the first observation, the replay of an approved call, may carry an override. */
  ghost predicate OverrideOnlyFirst(trace: seq<Obs>) {
    forall k | 0 < k < |trace| && trace[k].ToolCalled? :: OverrideOf(trace[k].ctx).None?
  }

  /** `lag` is 1 between the model call and its message, 0 otherwise. */
  ghost predicate Tracks(entry: RunState, m: Slice, lag: nat) {
    && Runnable(entry)
    && m.state == entry.(step := m.state.step, messages := m.state.messages)
    && m.state.step == entry.step + ModelCalls(m.trace)
    && m.state.messages == entry.messages + Mirror(m.trace)
    && AssistantCount(m.state.messages) + lag == AssistantCount(entry.messages) + ModelCalls(m.trace)
    && EventsFit(entry, m.state.step, m.trace)
    && RequestsExact(entry, m.trace)
    && OverrideOnlyFirst(m.trace)
  }

  /** Between two model steps: all calls of this slice are answered. */
  ghost predicate Steady(entry: RunState, m: Slice) {
    && Tracks(entry, m, 0)
    && Healthy(m.state.messages)
    && AllAnswered(m.state.messages, |entry.messages|, |m.state.messages|)
  }

  /** Inside a turn: the assistant message at `a` has its first `n` calls answered. */
  ghost predicate Answering(entry: RunState, m: Slice, a: int, n: int, calls: seq<ToolCall>) {
    && Tracks(entry, m, 0)
    && Healthy(m.state.messages)
    && AllAnswered(m.state.messages, |entry.messages|, a)
    && |entry.messages| <= a
    && AnsweredUpTo(m.state.messages, a, n)
    && a + n + 1 == |m.state.messages|
    && m.state.messages[a].toolCalls == calls
  }

  // ---------------------------------------------------------------- the end of a slice

  ghost predicate MayCut(status: RunStatus) {
    status == Suspended || status == Failed || status == Cancelled
  }

  ghost predicate CutOnlyAtEnd(messages: seq<Message>, from: int, status: RunStatus) {
    forall i | from <= i < |messages| && 0 <= i && messages[i].role == Assistant ::
      Answered(messages, i) || (MayCut(status) && CutAt(messages, i, |messages|))
  }

  /** The call a tool suspension blocks: the last one handed to a tool, in a context without
      override, and the last one answered on the transcript. */
  ghost predicate Blocks(entry: RunState, m: Slice, call: ToolCall, a: int, n: int) {
    && |entry.messages| <= a && 0 <= n
    && AnsweredUpTo(m.state.messages, a, n + 1)
    && a + n + 2 == |m.state.messages|
    && WellShaped(m.state.messages[a].toolCalls)
    && m.state.messages[a].toolCalls[n] == call
    && |m.trace| >= 3
    && m.trace[|m.trace| - 2].ToolCalled?
    && m.trace[|m.trace| - 2].call == call
    && OverrideOf(m.trace[|m.trace| - 2].ctx).None?
  }

  /** Why a slice may be suspended on `requirement`. */
  ghost predicate Evidence(entry: RunState, m: Slice, requirement: PendingRequirement) {
    match requirement.origin
    case ModelOrigin =>
      && |m.state.messages| > |entry.messages|
      && m.state.messages[|m.state.messages| - 1].role == Assistant
      && m.state.messages[|m.state.messages| - 1].requirement == Some(requirement)
    case ToolOrigin =>
      exists call, a, n :: Blocks(entry, m, call, a, n) && call.id == requirement.toolCallID
    case _ => false
  }

  function ClosingEvent(status: RunStatus): EventType {
    match status
    case Completed => RunCompleted
    case Cancelled => RunCancelled
    case _ => RunFailed
  }

  /** A suspended slice publishes nothing more; any other end publishes exactly one closing event. */
  ghost predicate Closes(entry: RunState, m: Slice, o: Outcome) {
    match o.state.status
    case Suspended =>
      && o.trace == m.trace
      && o.err == m.eventErr
      && o.state.pendingRequirement.Some?
      && o.state == m.state.(status := Suspended, pendingRequirement := o.state.pendingRequirement)
      && ValidatePendingRequirement(o.state.pendingRequirement) == {}
      && Evidence(entry, m, o.state.pendingRequirement.value)
    case Completed =>
      && o.trace == m.trace + [Published(m.clock, PlainEvent(entry.id, m.state.step, RunCompleted))]
      && |m.state.messages| > |entry.messages|
      && o.state == m.state.(status := Completed, output := m.state.messages[|m.state.messages| - 1].content)
    case _ =>
      && (o.state.status == Failed || o.state.status == Cancelled || o.state.status == MaxStepsExceeded)
      && o.trace == m.trace + [Published(m.clock, PlainEvent(entry.id, m.state.step, ClosingEvent(o.state.status)))]
      && o.state == m.state.(status := o.state.status, error := o.state.error)
      && o.state.error != {} && o.state.error <= o.err
  }

  ghost predicate Ended(entry: RunState, m: Slice, lag: nat, o: Outcome) {
    && lag <= 1
    && Tracks(entry, m, lag)
    && (lag == 1 ==> o.state.status == Failed || o.state.status == Cancelled)
    && Healthy(m.state.messages)
    && CutOnlyAtEnd(m.state.messages, |entry.messages|, o.state.status)
    && Closes(entry, m, o)
  }

  // ---------------------------------------------------------------- single steps

  lemma EventsAppend(entry: RunState, step: int, trace: seq<Obs>, step': int, obs: Obs)
    requires EventsFit(entry, step, trace) && step <= step'
    requires Fits(entry, step', obs)
    requires obs.Published? ==> obs.event.step == step'
    ensures EventsFit(entry, step', trace + [obs])
  {
    var all := trace + [obs];
    forall k | 0 <= k < |all|
      ensures Fits(entry, step', all[k])
    {
      if k < |trace| {
        assert Fits(entry, step, trace[k]);
      }
    }
    forall i, j | 0 <= i < j < |all| && all[i].Published? && all[j].Published?
      ensures all[i].event.step <= all[j].event.step
    {
      assert Fits(entry, step, trace[i]);
    }
  }

  lemma RequestsAppend(entry: RunState, trace: seq<Obs>, obs: Obs)
    requires RequestsExact(entry, trace)
    requires obs.ModelCalled? ==> obs.messages == entry.messages + Mirror(trace)
    ensures RequestsExact(entry, trace + [obs])
  {
    var all := trace + [obs];
    assert all[..|trace|] == trace;
    assert forall k | 0 <= k <= |trace| :: all[..k] == trace[..k];
    assert trace[..|trace|] == trace;
  }

  lemma OverrideAppend(trace: seq<Obs>, obs: Obs)
    requires OverrideOnlyFirst(trace)
    requires obs.ToolCalled? ==> trace == [] || OverrideOf(obs.ctx).None?
    ensures OverrideOnlyFirst(trace + [obs])
  {
  }

  /** A message enters the transcript together with the event that carries it. */
  lemma SpokenTracks(env: Oracles, entry: RunState, m: Slice, message: Message, event: Event, lag: nat)
    requires Tracks(entry, m, lag)
    requires MessageOf(event) == [message]
    requires ValidateEvent(event) == {} && event.runID == entry.id && event.step == m.state.step
    requires lag == if message.role == Assistant then 1 else 0
    ensures Tracks(entry, Publish(env, Append(m, message), event), 0)
  {
    hide EventsFit, RequestsExact, OverrideOnlyFirst, Mirror, ModelCalls, AssistantCount;
    var obs := Published(m.clock, event);
    TraceAppend(m.trace, obs);
    CountAppend(m.state.messages, message);
    OverrideAppend(m.trace, obs);
    assert Fits(entry, m.state.step, obs);
    EventsAppend(entry, m.state.step, m.trace, m.state.step, obs);
    RequestsAppend(entry, m.trace, obs);
    assert entry.messages + (Mirror(m.trace) + [message]) == entry.messages + Mirror(m.trace) + [message];
  }

  lemma RecordTracks(env: Oracles, entry: RunState, m: Slice, result: ToolResult)
    requires Tracks(entry, m, 0) && result.callID != "" && result.name != ""
    ensures Tracks(entry, Record(env, m, result), 0)
  {
    var event := Event(m.state.id, m.state.step, ToolObservation, None, None, Some(result));
    SpokenTracks(env, entry, m, ToolResultMessage(result), event, 0);
  }

  lemma ToolCallTracks(entry: RunState, m: Slice, ctx: Context, call: ToolCall, clock: nat)
    requires Tracks(entry, m, 0)
    requires m.trace == [] || OverrideOf(ctx).None?
    ensures Tracks(entry, m.(clock := clock, trace := m.trace + [ToolCalled(m.clock, ctx, call)]), 0)
  {
    hide EventsFit, RequestsExact, OverrideOnlyFirst, Mirror, ModelCalls, AssistantCount;
    var obs := ToolCalled(m.clock, ctx, call);
    TraceAppend(m.trace, obs);
    OverrideAppend(m.trace, obs);
    EventsAppend(entry, m.state.step, m.trace, m.state.step, obs);
    RequestsAppend(entry, m.trace, obs);
    assert Mirror(m.trace) + [] == Mirror(m.trace);
  }

  lemma AskTracks(entry: RunState, m: Slice)
    requires Tracks(entry, m, 0)
    ensures Tracks(entry, AskModel(m), 1)
  {
    hide EventsFit, RequestsExact, OverrideOnlyFirst, Mirror, ModelCalls, AssistantCount;
    var obs := ModelCalled(m.clock, m.state.messages);
    TraceAppend(m.trace, obs);
    OverrideAppend(m.trace, obs);
    EventsAppend(entry, m.state.step, m.trace, m.state.step + 1, obs);
    RequestsAppend(entry, m.trace, obs);
    assert Mirror(m.trace) + [] == Mirror(m.trace);
  }

  lemma HearTracks(env: Oracles, entry: RunState, m: Slice, assistant: Message)
    requires Tracks(entry, m, 1) && assistant.role == Assistant
    ensures Tracks(entry, Hear(env, m, assistant), 0)
  {
    var event := Event(m.state.id, m.state.step, AssistantMessage, None, Some(assistant), None);
    SpokenTracks(env, entry, m, assistant, event, 1);
  }

  // ---------------------------------------------------------------- ends

  lemma EndRunCloses(env: Oracles, entry: RunState, m: Slice, lag: nat, to: RunStatus, err: Errors)
    requires Tracks(entry, m, lag) && err != {}
    requires to == Failed || to == Cancelled || to == MaxStepsExceeded
    ensures Closes(entry, m, EndRun(env, m, to, err, ClosingEvent(to)))
    ensures EndRun(env, m, to, err, ClosingEvent(to)).state.status == to
  {
  }

  /** Any transcript that is healthy up to an open turn may end there. */
  lemma OpenTurnMayEnd(entry: RunState, m: Slice, a: int, n: int, calls: seq<ToolCall>, status: RunStatus)
    requires Answering(entry, m, a, n, calls)
    requires MayCut(status) || n == |calls|
    ensures CutOnlyAtEnd(m.state.messages, |entry.messages|, status)
  {
    var messages := m.state.messages;
    forall i | |entry.messages| <= i < |messages| && 0 <= i && messages[i].role == Assistant
      ensures Answered(messages, i) || (MayCut(status) && CutAt(messages, i, |messages|))
    {
      if i < a {
        assert Answered(messages, i);
      } else {
        assert i == a;
        if n == |calls| {
          assert Answered(messages, a);
        } else {
          assert CutAt(messages, a, |messages|);
        }
      }
    }
  }

  lemma StopInTurn(env: Oracles, entry: RunState, m: Slice, a: int, n: int, calls: seq<ToolCall>,
                   to: RunStatus, err: Errors)
    requires Answering(entry, m, a, n, calls) && err != {}
    requires to == Failed || to == Cancelled
    ensures Ended(entry, m, 0, EndRun(env, m, to, err, ClosingEvent(to)))
  {
    EndRunCloses(env, entry, m, 0, to, err);
    OpenTurnMayEnd(entry, m, a, n, calls, to);
  }

  lemma TickSteady(entry: RunState, m: Slice)
    requires Steady(entry, m)
    ensures Steady(entry, Tick(m))
  {
  }

  lemma SteadyEnds(env: Oracles, entry: RunState, m: Slice, to: RunStatus, err: Errors)
    requires Steady(entry, m) && err != {}
    requires to == Failed || to == Cancelled || to == MaxStepsExceeded
    ensures Ended(entry, m, 0, EndRun(env, m, to, err, ClosingEvent(to)))
  {
    EndRunCloses(env, entry, m, 0, to, err);
  }

  lemma SuspendCloses(env: Oracles, entry: RunState, m: Slice, requirement: PendingRequirement)
    requires Tracks(entry, m, 0)
    requires ValidatePendingRequirement(Some(requirement)) == {}
    requires Evidence(entry, m, requirement)
    ensures Closes(entry, m, Suspend(env, m, requirement))
    ensures Suspend(env, m, requirement).state.status == Suspended
  {
  }

  // ---------------------------------------------------------------- one tool call

  /** Recording the answer to the next call of the open turn. */
  lemma RecordAnswers(env: Oracles, entry: RunState, m: Slice, a: int, n: int, calls: seq<ToolCall>, result: ToolResult)
    requires Answering(entry, m, a, n, calls) && n < |calls|
    requires calls[n].id != "" && calls[n].name != ""
    requires result.callID == calls[n].id && result.name == calls[n].name
    ensures Answering(entry, Record(env, m, result), a, n + 1, calls)
  {
    RecordTracks(env, entry, m, result);
    AppendAnswer(m.state.messages, a, n, ToolResultMessage(result));
    AnsweredGrows(m.state.messages, [ToolResultMessage(result)], |entry.messages|, a);
  }

  lemma ObserveKeeps(env: Oracles, entry: RunState, input: Input, ctx: Context, m: Slice, a: int, n: int,
                     calls: seq<ToolCall>)
    requires Answering(entry, m, a, n, calls) && 0 <= n < |calls| && OverrideOf(ctx).None?
    ensures Answering(entry, Observe(env, input, ctx, calls[n], m).0, a, n, calls)
  {
    hide Tracks, Healthy, AllAnswered, AnsweredUpTo;
    var asked := Observe(env, input, ctx, calls[n], m).0;
    if asked != m {
      assert asked == m.(clock := asked.clock, trace := m.trace + [ToolCalled(m.clock, ctx, calls[n])]);
      ToolCallTracks(entry, m, ctx, calls[n], asked.clock);
    }
  }

  /** What an observation says about the call it was made for. */
  lemma ObserveFacts(env: Oracles, input: Input, ctx: Context, call: ToolCall, m: Slice)
    requires call.id != "" && m.state.id != "" && m.state.step >= 0 && m.state.version >= 0
    ensures var (asked, observation) := Observe(env, input, ctx, call, m);
      match observation
      case Interrupted(err) => err != {}
      case Observed(result, verdict) =>
        && FillIdentity(call, result).callID == call.id
        && FillIdentity(call, result).name == call.name
        && match verdict
           case Proceed => true
           case BadSuspend(err) => err != {}
           case SuspendOn(requirement) =>
             && asked.trace == m.trace + [ToolCalled(m.clock, ctx, call)]
             && requirement.toolCallID == call.id
             && requirement.origin == ToolOrigin
             && ValidatePendingRequirement(Some(requirement)) == {}
  {
  }

  /** The last tool call of the trace; its observation was published after it. */
  predicate CalledLast(trace: seq<Obs>, ctx: Context, call: ToolCall) {
    && |trace| >= 2
    && var last := trace[|trace| - 2];
       last.ToolCalled? && last.ctx == ctx && last.call == call
  }

  lemma SuspendInTurn(env: Oracles, entry: RunState, m: Slice, a: int, n: int, calls: seq<ToolCall>,
                      ctx: Context, requirement: PendingRequirement)
    requires Answering(entry, m, a, n + 1, calls) && 0 <= n < |calls| && WellShaped(calls)
    requires OverrideOf(ctx).None?
    requires |m.trace| >= 3 && CalledLast(m.trace, ctx, calls[n])
    requires requirement.origin == ToolOrigin && requirement.toolCallID == calls[n].id
    requires ValidatePendingRequirement(Some(requirement)) == {}
    ensures Ended(entry, m, 0, Suspend(env, m, requirement))
  {
    assert Blocks(entry, m, calls[n], a, n);
    SuspendCloses(env, entry, m, requirement);
    OpenTurnMayEnd(entry, m, a, n + 1, calls, Suspended);
  }

  lemma EntryIsRunnable(entry: RunState, m: Slice, a: int, n: int, calls: seq<ToolCall>)
    requires Answering(entry, m, a, n, calls)
    ensures m.state.id != "" && m.state.step >= 0 && m.state.version >= 0
  {
  }

  /** An open turn has published its assistant message and asked the model before that. */
  lemma TurnLeavesTrace(entry: RunState, m: Slice, a: int, n: int, calls: seq<ToolCall>)
    requires Answering(entry, m, a, n, calls)
    ensures |m.trace| >= 1
  {
  }

  lemma ActOnVerdict(env: Oracles, entry: RunState, ctx: Context, m: Slice, a: int, n: int, calls: seq<ToolCall>,
                     verdict: Verdict)
    requires Answering(entry, m, a, n + 1, calls) && 0 <= n < |calls| && WellShaped(calls) && OverrideOf(ctx).None?
    requires verdict.BadSuspend? ==> verdict.err != {}
    requires verdict.SuspendOn? ==>
      && |m.trace| >= 3 && CalledLast(m.trace, ctx, calls[n])
      && verdict.requirement.origin == ToolOrigin && verdict.requirement.toolCallID == calls[n].id
      && ValidatePendingRequirement(Some(verdict.requirement)) == {}
    ensures verdict.BadSuspend? ==> Ended(entry, m, 0, FailRun(env, m, verdict.err))
    ensures verdict.SuspendOn? ==> Ended(entry, m, 0, Suspend(env, m, verdict.requirement))
  {
    match verdict {
      case Proceed =>
      case BadSuspend(err) => StopInTurn(env, entry, m, a, n + 1, calls, Failed, err);
      case SuspendOn(requirement) => SuspendInTurn(env, entry, m, a, n, calls, ctx, requirement);
    }
  }

  lemma TickAnswering(entry: RunState, m: Slice, a: int, n: int, calls: seq<ToolCall>)
    requires Answering(entry, m, a, n, calls)
    ensures Answering(entry, Tick(m), a, n, calls)
  {
  }

  lemma CallStepLaw(env: Oracles, entry: RunState, input: Input, ctx: Context, m: Slice, a: int, n: int,
                    calls: seq<ToolCall>)
    returns (last: Slice)
    requires Answering(entry, m, a, n, calls) && 0 <= n < |calls| && WellShaped(calls) && OverrideOf(ctx).None?
    ensures var p := CallStep(env, input, ctx, calls[n], m);
      if p.Go? then Answering(entry, p.slice, a, n + 1, calls) else Ended(entry, last, 0, p.outcome)
  {
    TickAnswering(entry, m, a, n, calls);
    TurnLeavesTrace(entry, m, a, n, calls);
    EntryIsRunnable(entry, m, a, n, calls);
    hide Answering, Ended, Observe, EndRun, Suspend;
    last := Tick(m);
    if env.ctxErr(m.clock) != {} {
      StopInTurn(env, entry, last, a, n, calls, Cancelled, env.ctxErr(m.clock));
    } else {
      var (asked, observation) := Observe(env, input, ctx, calls[n], last);
      ObserveKeeps(env, entry, input, ctx, last, a, n, calls);
      ObserveFacts(env, input, ctx, calls[n], last);
      if observation.Interrupted? {
        StopInTurn(env, entry, asked, a, n, calls, Cancelled, observation.err);
        last := asked;
      } else {
        var result := FillIdentity(calls[n], observation.result);
        RecordAnswers(env, entry, asked, a, n, calls, result);
        last := Record(env, asked, result);
        ActOnVerdict(env, entry, ctx, last, a, n, calls, observation.verdict);
      }
    }
  }

  lemma {:induction false} CallLoopLaw(env: Oracles, entry: RunState, input: Input, ctx: Context, m: Slice, a: int,
                                       n: nat, calls: seq<ToolCall>)
    returns (last: Slice)
    requires Answering(entry, m, a, n, calls) && n <= |calls| && WellShaped(calls) && OverrideOf(ctx).None?
    ensures var p := CallLoop(env, input, ctx, calls, n, m);
      if p.Go? then Answering(entry, p.slice, a, |calls|, calls) else Ended(entry, last, 0, p.outcome)
    decreases |calls| - n
  {
    hide Answering, Ended, CallStep, WellShaped;
    if n == |calls| {
      last := m;
    } else {
      last := CallStepLaw(env, entry, input, ctx, m, a, n, calls);
      var p := CallStep(env, input, ctx, calls[n], m);
      if p.Go? {
        last := CallLoopLaw(env, entry, input, ctx, p.slice, a, n + 1, calls);
        assert CallLoop(env, input, ctx, calls, n, m) == CallLoop(env, input, ctx, calls, n + 1, p.slice);
      } else {
        assert CallLoop(env, input, ctx, calls, n, m) == p;
      }
    }
  }

  // ---------------------------------------------------------------- one model step

  lemma ShapeOK(calls: seq<ToolCall>, i: nat)
    requires i <= |calls| && ShapeErr(calls, i) == {} && WellShaped(calls[..i])
    ensures WellShaped(calls)
    decreases |calls| - i
  {
    if i == |calls| {
      assert calls[..i] == calls;
    } else {
      assert forall k | 0 <= k < i :: calls[..i + 1][k] == calls[..i][k];
      assert calls[..i + 1][i] == calls[i];
      ShapeOK(calls, i + 1);
    }
  }

  /** A heard assistant message opens a turn with no answers yet. */
  lemma TurnOpens(env: Oracles, entry: RunState, m: Slice, assistant: Message)
    requires Steady(entry, m) && assistant.role == Assistant
    ensures Answering(entry, Hear(env, AskModel(m), assistant), |m.state.messages|, 0, assistant.toolCalls)
  {
    AskTracks(entry, m);
    HearTracks(env, entry, AskModel(m), assistant);
    AppendSpeech(m.state.messages, assistant);
    AnsweredGrows(m.state.messages, [assistant], |entry.messages|, |m.state.messages|);
  }

  lemma CompleteLaw(env: Oracles, entry: RunState, m: Slice, a: int)
    requires Answering(entry, m, a, 0, []) && a == |m.state.messages| - 1
    ensures Ended(entry, m, 0, Complete(env, m, m.state.messages[a].content))
  {
    OpenTurnMayEnd(entry, m, a, 0, [], Completed);
  }

  lemma ActLaw(env: Oracles, entry: RunState, input: Input, ctx: Context, assistant: Message, m: Slice, a: int)
    returns (last: Slice)
    requires Answering(entry, m, a, 0, assistant.toolCalls) && OverrideOf(ctx).None?
    requires a == |m.state.messages| - 1 && m.state.messages[a] == assistant
    ensures var p := Act(env, input, ctx, assistant, m);
      if p.Go? then Answering(entry, p.slice, a, |assistant.toolCalls|, assistant.toolCalls)
      else Ended(entry, last, 0, p.outcome)
  {
    last := m;
    var calls := assistant.toolCalls;
    if assistant.requirement.Some? {
      if |calls| > 0 {
        StopInTurn(env, entry, m, a, 0, calls, Failed, {ErrOther});
      } else {
        var err := ValidateModelRequirement(m.state, assistant.requirement.value);
        if err != {} {
          StopInTurn(env, entry, m, a, 0, calls, Failed, err);
        } else {
          SuspendCloses(env, entry, m, assistant.requirement.value);
          OpenTurnMayEnd(entry, m, a, 0, calls, Suspended);
        }
      }
    } else if |calls| == 0 {
      assert calls == [];
      CompleteLaw(env, entry, m, a);
    } else if ShapeErr(calls, 0) != {} {
      StopInTurn(env, entry, m, a, 0, calls, Failed, ShapeErr(calls, 0));
    } else {
      ShapeOK(calls, 0);
      last := CallLoopLaw(env, entry, input, ctx, m, a, 0, calls);
    }
  }

  lemma CancelOrFailLaw(env: Oracles, entry: RunState, m: Slice, lag: nat, err: Errors)
    returns (last: Slice)
    requires Tracks(entry, m, lag) && lag <= 1 && err != {} && Healthy(m.state.messages)
    requires AllAnswered(m.state.messages, |entry.messages|, |m.state.messages|)
    ensures Ended(entry, last, lag, CancelOrFail(env, m, err))
    ensures last.state == m.state && last.trace == m.trace
  {
    last := Tick(m);
    var cancelled := CancellationError(env, m.clock, err);
    if cancelled != {} {
      EndRunCloses(env, entry, last, lag, Cancelled, cancelled);
    } else {
      EndRunCloses(env, entry, last, lag, Failed, err);
    }
  }

  lemma ClosedTurnIsSteady(entry: RunState, m: Slice, a: int, calls: seq<ToolCall>)
    requires Answering(entry, m, a, |calls|, calls)
    ensures Steady(entry, m)
  {
    hide Tracks, InOrder, Declared;
    forall i | |entry.messages| <= i < |m.state.messages| && 0 <= i && m.state.messages[i].role == Assistant
      ensures Answered(m.state.messages, i)
    {
      if i < a {
        assert Answered(m.state.messages, i);
      } else {
        assert i == a;
      }
    }
  }

  lemma TurnLaw(env: Oracles, entry: RunState, input: Input, ctx: Context, m: Slice)
    returns (last: Slice, lag: nat)
    requires SpeaksAsAssistant(env) && Steady(entry, m) && OverrideOf(ctx).None?
    ensures var p := Turn(env, input, ctx, m);
      if p.Go? then Steady(entry, p.slice) else Ended(entry, last, lag, p.outcome)
  {
    var reply := env.model(m.clock, m.state.messages);
    if reply.err != {} {
      AskTracks(entry, m);
      last := CancelOrFailLaw(env, entry, AskModel(m), 1, reply.err);
      lag := 1;
    } else {
      var assistant := Spoken(reply.message);
      assert assistant.role == Assistant;
      TurnOpens(env, entry, m, assistant);
      var heard := Hear(env, AskModel(m), assistant);
      var a := |m.state.messages|;
      last := ActLaw(env, entry, input, ctx, assistant, heard, a);
      lag := 0;
      var p := Act(env, input, ctx, assistant, heard);
      if p.Go? {
        ClosedTurnIsSteady(entry, p.slice, a, assistant.toolCalls);
      }
    }
  }

  lemma {:induction false} LoopLaw(env: Oracles, entry: RunState, input: Input, limit: int, ctx: Context, m: Slice)
    returns (last: Slice, lag: nat)
    requires SpeaksAsAssistant(env) && Steady(entry, m) && OverrideOf(ctx).None?
    ensures Ended(entry, last, lag, Loop(env, input, limit, ctx, m))
    decreases limit - m.state.step
  {
    hide Steady, Ended, Turn, EndRun;
    last, lag := m, 0;
    if m.state.step >= limit {
      SteadyEnds(env, entry, m, MaxStepsExceeded, {ErrMaxStepsExceeded});
    } else {
      last := Tick(m);
      TickSteady(entry, m);
      if env.ctxErr(m.clock) != {} {
        SteadyEnds(env, entry, last, Cancelled, env.ctxErr(m.clock));
      } else {
        last, lag := TurnLaw(env, entry, input, ctx, Tick(m));
        var p := Turn(env, input, ctx, Tick(m));
        if p.Go? {
          last, lag := LoopLaw(env, entry, input, limit, ctx, p.slice);
        }
      }
    }
  }

  // ---------------------------------------------------------------- replay and whole slices

  lemma {:induction false} FoundInCalls(calls: seq<ToolCall>, id: string)
    ensures FindInCalls(calls, id).Some? <==> exists k | 0 <= k < |calls| :: calls[k].id == id
    ensures var found := FindInCalls(calls, id);
      found.Some? ==> found.value.id == id && found.value in calls
  {
    if calls != [] {
      var init := calls[..|calls| - 1];
      FoundInCalls(init, id);
      assert calls == init + [calls[|calls| - 1]];
    }
  }

  /** A found call carries the identifier and stands in an assistant message; nothing declared is missed. */
  lemma {:induction false} FoundCall(messages: seq<Message>, id: string)
    ensures FindCall(messages, id).Some? <==> id != "" && DeclaredBefore(messages, |messages|, id)
    ensures FindCall(messages, id).Some? ==> FindCall(messages, id).value.id == id
  {
    if messages != [] {
      var init := messages[..|messages| - 1];
      var last := messages[|messages| - 1];
      FoundCall(init, id);
      FoundInCalls(last.toolCalls, id);
      if DeclaredBefore(init, |init|, id) {
        var i :| 0 <= i < |init| && Declares(init[i], id);
        assert Declares(messages[i], id);
      } else if last.role == Assistant && FindInCalls(last.toolCalls, id).Some? {
        assert Declares(last, id);
      } else {
        assert forall i | 0 <= i < |messages| :: i < |init| ==> messages[i] == init[i];
      }
    }
  }

  lemma EnterSteady(state: RunState, input: Input)
    requires Runnable(state.(status := Running)) && Healthy(state.messages)
    ensures Steady(Enter(state, input).state, Enter(state, input))
  {
    var m := Enter(state, input);
    if input.resolution.Some? {
      AppendSpeech(state.messages, ResolutionMessages(input.resolution)[0]);
    } else {
      assert state.messages + [] == state.messages;
    }
    assert m.state.messages + [] == m.state.messages;
  }

  lemma ReplayRecords(env: Oracles, entry: RunState, m: Slice, result: ToolResult)
    requires Steady(entry, m) && m.state == entry
    requires result.callID != "" && result.name != ""
    requires DeclaredBefore(entry.messages, |entry.messages|, result.callID)
    requires entry.messages != [] && entry.messages[|entry.messages| - 1].role == User
    ensures Steady(entry, Record(env, m, result))
  {
    RecordTracks(env, entry, m, result);
    AppendReplay(entry.messages, ToolResultMessage(result));
  }

  lemma ReplayLaw(env: Oracles, ctx: Context, call: ToolCall, entry: RunState, m: Slice)
    returns (last: Slice)
    requires Steady(entry, m) && m.trace == [] && entry == m.state
    requires call.id != "" && call.name != "" && DeclaredBefore(entry.messages, |entry.messages|, call.id)
    requires entry.messages != [] && entry.messages[|entry.messages| - 1].role == User
    ensures var p := ReplayStep(env, ctx, call, m);
      if p.Go? then Steady(entry, p.slice) else Ended(entry, last, 0, p.outcome)
  {
    var reply := env.tool(m.clock, ctx, call);
    var asked := Tick(m).(trace := m.trace + [ToolCalled(m.clock, ctx, call)]);
    last := if reply.err == {} then asked else Tick(asked);
    ToolCallTracks(entry, m, ctx, call, last.clock);
    assert Steady(entry, last);
    if reply.err == {} {
      var kept := if IdentityOK(call, reply.result) then reply.result else ErrorResult(call, ExecutorError);
      ReplayRecords(env, entry, last, FillIdentity(call, kept));
    } else {
      var cancelled := CancellationError(env, asked.clock, reply.err);
      if cancelled != {} || reply.suspend.Some? {
        last := CancelOrFailLaw(env, entry, last, 0, if cancelled != {} then cancelled else {ErrRunStateInvalid});
      } else {
        ReplayRecords(env, entry, last, ErrorResult(call, ExecutorError));
      }
    }
  }

  /** The state can be handed to the engine. */
  ghost predicate Handed(state: RunState) {
    && ValidateRunState(state) == {}
    && (state.status == Pending || state.status == Running || state.status == MaxStepsExceeded)
    && Healthy(state.messages)
  }

  /** The replay target, if there is one, is a call with a name. */
  ghost predicate NamedTarget(ctx: Context, handed: RunState, input: Input) {
    var target := ReplayTarget(ctx, Enter(handed, input).state, input);
    target.Replay? ==> target.call.name != ""
  }

  lemma TargetIsDeclared(ctx: Context, state: RunState, input: Input)
    ensures var target := ReplayTarget(ctx, state, input);
      target.Replay? ==>
        && input.resolution.Some? && input.resolvedRequirement.Some?
        && target.call.id == input.resolvedRequirement.value.toolCallID != ""
        && DeclaredBefore(state.messages, |state.messages|, target.call.id)
  {
    if input.resolvedRequirement.Some? {
      FoundCall(state.messages, input.resolvedRequirement.value.toolCallID);
    }
  }

  lemma ReplayedSliceLaw(env: Oracles, ctx: Context, call: ToolCall, input: Input, m: Slice)
    returns (last: Slice, lag: nat)
    requires SpeaksAsAssistant(env) && Steady(m.state, m) && m.trace == []
    requires ReplayTarget(ctx, m.state, input) == Replay(call) && call.name != ""
    requires m.state.messages != [] && m.state.messages[|m.state.messages| - 1].role == User
    ensures var p := ReplayStep(env, ctx, call, m);
      Ended(m.state, last, lag,
            if p.Stop? then p.outcome else Loop(env, input, Limit(input), WithoutOverride(ctx), p.slice))
  {
    hide Steady, Ended, ReplayStep, Loop, DeclaredBefore, ReplayTarget;
    TargetIsDeclared(ctx, m.state, input);
    last := ReplayLaw(env, ctx, call, m.state, m);
    lag := 0;
    var p := ReplayStep(env, ctx, call, m);
    if p.Go? {
      last, lag := LoopLaw(env, m.state, input, Limit(input), WithoutOverride(ctx), p.slice);
    }
  }

  lemma RefusalHasCause(ctx: Context, state: RunState, input: Input)
    ensures ReplayTarget(ctx, state, input).ReplayRefused? ==> ReplayTarget(ctx, state, input).err != {}
  {
  }

  lemma ExecutionLaw(env: Oracles, ctx: Context, state: RunState, input: Input)
    returns (last: Slice, lag: nat)
    requires SpeaksAsAssistant(env) && Handed(state) && NamedTarget(ctx, state, input)
    ensures Execution(env, ctx, state, input) == Slices(env, ctx, state, input)
    ensures Ended(Enter(state, input).state, last, lag, Execution(env, ctx, state, input))
  {
    hide Steady, Ended, ReplayStep, Loop, ReplayTarget, Healthy, EndRun, SpeaksAsAssistant;
    var m := Enter(state, input);
    EnterSteady(state, input);
    TargetIsDeclared(ctx, m.state, input);
    RefusalHasCause(ctx, m.state, input);
    last, lag := m, 0;
    match ReplayTarget(ctx, m.state, input) {
      case ReplayRefused(err) =>
        SteadyEnds(env, m.state, m, Failed, err);
      case NoReplay =>
        last, lag := LoopLaw(env, m.state, input, Limit(input), WithoutOverride(ctx), m);
      case Replay(call) =>
        last, lag := ReplayedSliceLaw(env, ctx, call, input, m);
    }
  }
}
