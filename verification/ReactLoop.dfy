/** The ReAct engine: model step, tool calls, tool observations, and again, with a replay of an
    approved tool call before the loop.

    The functions are the meaning of one slice of execution; the method `Execute` runs it with the
    nested loops of the source and is proved equal to them. What the engine asks of its
    surroundings is answered by an `Oracles` value, indexed by a clock that ticks at every
    question, so a statement for all oracles covers every behaviour of model, tools, event sink
    and cancellation.
  */
module ReactLoop {
  import opened Domain
  import opened ReplayContext

  const DEFAULT_MAX_STEPS := 8

  datatype ModelReply = ModelReply(message: Message, err: Errors)

  /** A tool error may carry a suspend request, whose requirement may be missing. */
  datatype SuspendRequest = SuspendRequest(requirement: Option<PendingRequirement>)

  datatype ToolReply = ToolReply(result: ToolResult, err: Errors, suspend: Option<SuspendRequest>)

  datatype Oracles = Oracles(
    ctxErr: nat -> Errors,
    model: (nat, seq<Message>) -> ModelReply,
    tool: (nat, Context, ToolCall) -> ToolReply,
    sink: (nat, Event) -> Errors,
    argumentErr: (ToolCall, ToolDefinition) -> Errors)

  /** What the engine did, in order and at which clock: model calls with the transcript handed over, tool
      calls with the context handed over, and publish attempts. */
  datatype Obs =
    | ModelCalled(clock: nat, messages: seq<Message>)
    | ToolCalled(clock: nat, ctx: Context, call: ToolCall)
    | Published(clock: nat, event: Event)

  datatype Input = Input(
    maxSteps: int, tools: seq<ToolDefinition>,
    resolution: Option<Resolution>, resolvedRequirement: Option<PendingRequirement>)

  /** The variables of a running slice. */
  datatype Slice = Slice(state: RunState, clock: nat, eventErr: Errors, trace: seq<Obs>)

  datatype Outcome = Outcome(state: RunState, err: Errors, trace: seq<Obs>)

  /** Either the slice goes on, or Execute returns. */
  datatype Progress = Go(slice: Slice) | Stop(outcome: Outcome) {
    function Step(): int {
      match this
      case Go(slice) => slice.state.step
      case Stop(outcome) => outcome.state.step
    }
  }

  // ---------------------------------------------------------------- primitive steps

  function Tick(m: Slice): Slice {
    m.(clock := m.clock + 1)
  }

  function PublishErr(env: Oracles, clock: nat, event: Event): Errors {
    if ValidateEvent(event) != {} then ValidateEvent(event)
    else if env.sink(clock, event) != {} then {ErrEventPublish} + env.sink(clock, event)
    else {}
  }

  function Publish(env: Oracles, m: Slice, event: Event): Slice {
    Slice(m.state, m.clock + 1, m.eventErr + PublishErr(env, m.clock, event), m.trace + [Published(m.clock, event)])
  }

  function Append(m: Slice, message: Message): Slice {
    m.(state := m.state.(messages := m.state.messages + [message]))
  }

  /** failRun, cancelRun and the exhausted budget end alike: a transition, an error and an event. */
  function EndRun(env: Oracles, m: Slice, to: RunStatus, runErr: Errors, kind: EventType): (o: Outcome)
    ensures o.state.step == m.state.step
  {
    var (moved, transitionErr) := Transition(m.state, to);
    if transitionErr != {} then Outcome(moved, runErr + transitionErr + m.eventErr, m.trace)
    else
      var ended := Publish(env, m.(state := moved.(error := runErr)), PlainEvent(moved.id, moved.step, kind));
      Outcome(ended.state, runErr + ended.eventErr, ended.trace)
  }

  function FailRun(env: Oracles, m: Slice, runErr: Errors): (o: Outcome)
    ensures o.state.step == m.state.step
  {
    EndRun(env, m, Failed, if runErr == {} then {ErrOther} else runErr, RunFailed)
  }

  function CancelRun(env: Oracles, m: Slice, runErr: Errors): (o: Outcome)
    ensures o.state.step == m.state.step
  {
    EndRun(env, m, Cancelled, if runErr == {} then {ErrCanceled} else runErr, RunCancelled)
  }

  function ExhaustRun(env: Oracles, m: Slice): Outcome {
    EndRun(env, m, MaxStepsExceeded, {ErrMaxStepsExceeded}, RunFailed)
  }

  /** contextCancellationError: empty when the error is no cancellation. */
  function CancellationError(env: Oracles, clock: nat, err: Errors): Errors {
    if env.ctxErr(clock) != {} then env.ctxErr(clock)
    else if ErrCanceled in err then {ErrCanceled}
    else if ErrDeadlineExceeded in err then {ErrDeadlineExceeded}
    else {}
  }

  /** The common end of a failed model call or replay. */
  function CancelOrFail(env: Oracles, m: Slice, err: Errors): (o: Outcome)
    ensures o.state.step == m.state.step
  {
    var cancelled := CancellationError(env, m.clock, err);
    if cancelled != {} then CancelRun(env, Tick(m), cancelled) else FailRun(env, Tick(m), err)
  }

  function ResolutionMessages(resolution: Option<Resolution>): seq<Message> {
    match resolution
    case None => []
    case Some(r) =>
      [TextMessage(User, "[resolution] requirement_id=" + Quoted(r.requirementID)
                         + " kind=" + KindText(r.kind) + " outcome=" + OutcomeText(r.outcome)
                         + (if r.value != "" then " value=" + Quoted(r.value) else ""))]
  }

  /** What stands for a character between quotes. */
  function Escaped(c: char): string {
    match c
    case '"' => "\\\""
    case '\\' => "\\\\"
    case '\n' => "\\n"
    case '\r' => "\\r"
    case '\t' => "\\t"
    case _ => [c]
  }

  function EscapedText(text: string): string {
    if text == "" then "" else Escaped(text[0]) + EscapedText(text[1..])
  }

  function Quoted(text: string): string {
    "\"" + EscapedText(text) + "\""
  }

  function KindText(kind: RequirementKind): string {
    match kind
    case Approval => "approval"
    case UserInput => "user_input"
    case ExternalExecution => "external_execution"
    case OtherKind(name) => name
  }

  function OutcomeText(outcome: ResolutionOutcome): string {
    match outcome
    case Approved => "approved"
    case Rejected => "rejected"
    case Provided => "provided"
    case Fulfilled => "completed"
    case OtherOutcome(name) => name
  }

  // ---------------------------------------------------------------- checks

  function ReasonText(reason: FailureReason): string {
    match reason
    case NoFailure => ""
    case UnknownTool => "unknown_tool"
    case InvalidArguments => "invalid_arguments"
    case ExecutorError => "executor_error"
    case SuspendedByTool => "suspended"
  }

  function ErrorResult(call: ToolCall, reason: FailureReason): ToolResult {
    ToolResult(call.id, call.name, ReasonText(reason), true, reason)
  }

  predicate IdentityOK(call: ToolCall, result: ToolResult) {
    (result.callID == "" || result.callID == call.id) && (result.name == "" || result.name == call.name)
  }

  function FillIdentity(call: ToolCall, result: ToolResult): ToolResult {
    result.(callID := if result.callID == "" then call.id else result.callID,
            name := if result.name == "" then call.name else result.name)
  }

  function ValidateRequirementContract(state: RunState, requirement: PendingRequirement): Errors {
    ValidateRunState(
      RunState(state.id, state.version, state.step, Suspended, Some(requirement), "", {}, []))
  }

  function ValidateModelRequirement(state: RunState, requirement: PendingRequirement): Errors {
    if requirement.origin != ModelOrigin then {ErrRunStateInvalid}
    else ValidateRequirementContract(state, requirement)
  }

  /** The requirement to suspend on, or the reason why the request is invalid. */
  function ValidateSuspendRequest(state: RunState, call: ToolCall, request: SuspendRequest)
    : (Option<PendingRequirement>, Errors)
  {
    if request.requirement.None? then (None, {ErrRunStateInvalid})
    else
      var r := request.requirement.value;
      if r.origin != ToolOrigin then (None, {ErrRunStateInvalid})
      else if r.toolCallID != "" && r.toolCallID != call.id then (None, {ErrRunStateInvalid})
      else
        var linked := r.(toolCallID := call.id);
        var err := ValidateRequirementContract(state, linked);
        if err != {} then (None, err) else (Some(linked), {})
  }

  /** Every call has an identifier and a name, and no identifier occurs twice. */
  ghost predicate WellShaped(calls: seq<ToolCall>) {
    && (forall i | 0 <= i < |calls| :: calls[i].id != "" && calls[i].name != "")
    && (forall i, j | 0 <= i < j < |calls| :: calls[i].id != calls[j].id)
  }

  function CallIDs(calls: seq<ToolCall>): set<string> {
    set i | 0 <= i < |calls| :: calls[i].id
  }

  /** What validateToolCallShape reports for the calls from position `i` on. */
  function ShapeErr(calls: seq<ToolCall>, i: nat): Errors
    requires i <= |calls|
    decreases |calls| - i
  {
    if i == |calls| then {}
    else if calls[i].id == "" || calls[i].name == "" || calls[i].id in CallIDs(calls[..i]) then {ErrToolCallInvalid}
    else ShapeErr(calls, i + 1)
  }

  /** The definition a name is bound to: a later one replaces an earlier one. */
  function LookupTool(tools: seq<ToolDefinition>, name: string): Option<ToolDefinition> {
    if tools == [] then None
    else if tools[|tools| - 1].name == name then Some(tools[|tools| - 1])
    else LookupTool(tools[..|tools| - 1], name)
  }

  function FindInCalls(calls: seq<ToolCall>, id: string): Option<ToolCall> {
    if calls == [] then None
    else if calls[|calls| - 1].id == id then Some(calls[|calls| - 1])
    else FindInCalls(calls[..|calls| - 1], id)
  }

  /** findToolCallByID: the latest call with the identifier. */
  function FindCall(messages: seq<Message>, id: string): Option<ToolCall> {
    if id == "" || messages == [] then None
    else
      var last := messages[|messages| - 1];
      if last.role == Assistant && FindInCalls(last.toolCalls, id).Some? then FindInCalls(last.toolCalls, id)
      else FindCall(messages[..|messages| - 1], id)
  }

  // ---------------------------------------------------------------- replay

  datatype ReplayDecision = NoReplay | Replay(call: ToolCall) | ReplayRefused(err: Errors)

  function ReplayTarget(ctx: Context, state: RunState, input: Input): ReplayDecision {
    if input.resolvedRequirement.None? || input.resolution.None? then NoReplay
    else
      var requirement := input.resolvedRequirement.value;
      var resolution := input.resolution.value;
      if requirement.origin != ToolOrigin then NoReplay
      else if resolution.kind != Approval || resolution.outcome != Approved then NoReplay
      else if requirement.kind != Approval then ReplayRefused({ErrRunStateInvalid})
      else if ValidateRequirementContract(state, requirement) != {}
      then ReplayRefused(ValidateRequirementContract(state, requirement))
      else if resolution.requirementID != requirement.id then ReplayRefused({ErrRunStateInvalid})
      else
        var found := FindCall(state.messages, requirement.toolCallID);
        var override := OverrideOf(ctx);
        if found.None? then ReplayRefused({ErrRunStateInvalid})
        else if override.None? then ReplayRefused({ErrRunStateInvalid})
        else if override.value.toolCallID != requirement.toolCallID then ReplayRefused({ErrRunStateInvalid})
        else if override.value.fingerprint != requirement.fingerprint then ReplayRefused({ErrRunStateInvalid})
        else Replay(found.value)
  }

  /** executeApprovedToolReplay followed by the recording of its result. */
  function ReplayStep(env: Oracles, ctx: Context, call: ToolCall, m: Slice): (p: Progress)
    ensures p.Step() == m.state.step
  {
    var reply := env.tool(m.clock, ctx, call);
    var asked := Tick(m).(trace := m.trace + [ToolCalled(m.clock, ctx, call)]);
    if reply.err == {} then
      Go(Record(env, asked, FillIdentity(call, if IdentityOK(call, reply.result) then reply.result
                                               else ErrorResult(call, ExecutorError))))
    else
      var cancelled := CancellationError(env, asked.clock, reply.err);
      if cancelled != {} then Stop(CancelOrFail(env, Tick(asked), cancelled))
      else if reply.suspend.Some? then Stop(CancelOrFail(env, Tick(asked), {ErrRunStateInvalid}))
      else Go(Record(env, Tick(asked), ErrorResult(call, ExecutorError)))
  }

  /** A tool result becomes a tool message and an event. */
  function Record(env: Oracles, m: Slice, result: ToolResult): Slice {
    Publish(env, Append(m, ToolResultMessage(result)),
            Event(m.state.id, m.state.step, ToolObservation, None, None, Some(result)))
  }

  // ---------------------------------------------------------------- one tool call

  datatype Verdict = Proceed | SuspendOn(requirement: PendingRequirement) | BadSuspend(err: Errors)

  datatype Observation = Interrupted(err: Errors) | Observed(result: ToolResult, verdict: Verdict)

  /** The result the loop records for a call, or the cancellation that interrupts it. */
  function Observe(env: Oracles, input: Input, ctx: Context, call: ToolCall, m: Slice): (Slice, Observation) {
    var definition := LookupTool(input.tools, call.name);
    if definition.None? then (m, Observed(ErrorResult(call, UnknownTool), Proceed))
    else if env.argumentErr(call, definition.value) != {}
    then (m, Observed(ErrorResult(call, InvalidArguments), Proceed))
    else
      var reply := env.tool(m.clock, ctx, call);
      var asked := Tick(m).(trace := m.trace + [ToolCalled(m.clock, ctx, call)]);
      if reply.err == {} then
        (asked, Observed(if IdentityOK(call, reply.result) then reply.result else ErrorResult(call, ExecutorError),
                         Proceed))
      else
        var cancelled := CancellationError(env, asked.clock, reply.err);
        if cancelled != {} then (Tick(asked), Interrupted(cancelled))
        else if reply.suspend.None? then (Tick(asked), Observed(ErrorResult(call, ExecutorError), Proceed))
        else
          var (requirement, invalid) := ValidateSuspendRequest(m.state, call, reply.suspend.value);
          if requirement.None? then (Tick(asked), Observed(ErrorResult(call, ExecutorError), BadSuspend(invalid)))
          else (Tick(asked), Observed(ErrorResult(call, SuspendedByTool), SuspendOn(requirement.value)))
  }

  function Suspend(env: Oracles, m: Slice, requirement: PendingRequirement): (o: Outcome)
    ensures o.state.step == m.state.step
  {
    var (moved, err) := Transition(m.state.(pendingRequirement := Some(requirement)), Suspended);
    if err != {} then FailRun(env, m.(state := m.state.(pendingRequirement := None)), err)
    else Outcome(moved, m.eventErr, m.trace)
  }

  function CallStep(env: Oracles, input: Input, ctx: Context, call: ToolCall, m: Slice): (p: Progress)
    ensures p.Step() == m.state.step
  {
    if env.ctxErr(m.clock) != {} then Stop(CancelRun(env, Tick(m), env.ctxErr(m.clock)))
    else
      var (asked, observation) := Observe(env, input, ctx, call, Tick(m));
      match observation
      case Interrupted(err) => Stop(CancelRun(env, asked, err))
      case Observed(result, verdict) =>
        var recorded := Record(env, asked, FillIdentity(call, result));
        match verdict
        case Proceed => Go(recorded)
        case BadSuspend(err) => Stop(FailRun(env, recorded, err))
        case SuspendOn(requirement) => Stop(Suspend(env, recorded, requirement))
  }

  function CallLoop(env: Oracles, input: Input, ctx: Context, calls: seq<ToolCall>, i: nat, m: Slice): (p: Progress)
    requires i <= |calls|
    ensures p.Step() == m.state.step
    decreases |calls| - i
  {
    if i == |calls| then Go(m)
    else
      var p := CallStep(env, input, ctx, calls[i], m);
      if p.Stop? then p else CallLoop(env, input, ctx, calls, i + 1, p.slice)
  }

  // ---------------------------------------------------------------- one model step

  function Spoken(message: Message): Message {
    if message.role == NoRole then message.(role := Assistant) else message
  }

  function Complete(env: Oracles, m: Slice, output: string): (o: Outcome)
    ensures o.state.step == m.state.step
  {
    var (moved, err) := Transition(m.state, Completed);
    if err != {} then Outcome(moved, err + m.eventErr, m.trace)
    else
      var ended := Publish(env, m.(state := moved.(output := output)), PlainEvent(moved.id, moved.step, RunCompleted));
      Outcome(ended.state, ended.eventErr, ended.trace)
  }

  /** What follows the recording of the assistant message. */
  function Act(env: Oracles, input: Input, ctx: Context, assistant: Message, m: Slice): (p: Progress)
    ensures p.Step() == m.state.step
  {
    if assistant.requirement.Some? then
      if |assistant.toolCalls| > 0 then Stop(FailRun(env, m, {ErrOther}))
      else
        var err := ValidateModelRequirement(m.state, assistant.requirement.value);
        if err != {} then Stop(FailRun(env, m, err)) else Stop(Suspend(env, m, assistant.requirement.value))
    else if |assistant.toolCalls| == 0 then Stop(Complete(env, m, assistant.content))
    else if ShapeErr(assistant.toolCalls, 0) != {} then Stop(FailRun(env, m, ShapeErr(assistant.toolCalls, 0)))
    else CallLoop(env, input, ctx, assistant.toolCalls, 0, m)
  }

  function AskModel(m: Slice): Slice {
    Tick(m).(state := m.state.(step := m.state.step + 1), trace := m.trace + [ModelCalled(m.clock, m.state.messages)])
  }

  function Hear(env: Oracles, m: Slice, assistant: Message): Slice {
    Publish(env, Append(m, assistant),
            Event(m.state.id, m.state.step, AssistantMessage, None, Some(assistant), None))
  }

  function Turn(env: Oracles, input: Input, ctx: Context, m: Slice): (p: Progress)
    ensures p.Step() == m.state.step + 1
  {
    var reply := env.model(m.clock, m.state.messages);
    var asked := AskModel(m);
    if reply.err != {} then Stop(CancelOrFail(env, asked, reply.err))
    else Act(env, input, ctx, Spoken(reply.message), Hear(env, asked, Spoken(reply.message)))
  }

  function Loop(env: Oracles, input: Input, limit: int, ctx: Context, m: Slice): (o: Outcome)
    ensures o.state.step <= if m.state.step > limit then m.state.step else limit
    decreases limit - m.state.step
  {
    if m.state.step >= limit then ExhaustRun(env, m)
    else if env.ctxErr(m.clock) != {} then CancelRun(env, Tick(m), env.ctxErr(m.clock))
    else
      match Turn(env, input, ctx, Tick(m))
      case Stop(outcome) => outcome
      case Go(next) => Loop(env, input, limit, ctx, next)
  }

  // ---------------------------------------------------------------- Execute

  function Limit(input: Input): int {
    if input.maxSteps <= 0 then DEFAULT_MAX_STEPS else input.maxSteps
  }

  /** The slice when the status is running and the resolution is on the transcript. */
  function Enter(state: RunState, input: Input): Slice {
    Slice(state.(status := Running, messages := state.messages + ResolutionMessages(input.resolution)), 0, {}, [])
  }

  function Slices(env: Oracles, ctx: Context, state: RunState, input: Input): (o: Outcome)
    ensures o.state.step <= if state.step > Limit(input) then state.step else Limit(input)
  {
    var m := Enter(state, input);
    match ReplayTarget(ctx, m.state, input)
    case ReplayRefused(err) => FailRun(env, m, err)
    case NoReplay => Loop(env, input, Limit(input), WithoutOverride(ctx), m)
    case Replay(call) =>
      match ReplayStep(env, ctx, call, m)
      case Stop(outcome) => outcome
      case Go(next) => Loop(env, input, Limit(input), WithoutOverride(ctx), next)
  }

  /** One slice. Whatever happens, it never steps past its budget. */
  function Execution(env: Oracles, ctx: Context, state: RunState, input: Input): (o: Outcome)
    ensures o.state.step <= if state.step > Limit(input) then state.step else Limit(input)
  {
    if ValidateRunState(state) != {} then Outcome(state, ValidateRunState(state), [])
    else if state.status == Suspended then Outcome(state, {ErrResolutionRequired}, [])
    else if Transition(state, Running).1 != {} then Outcome(state, Transition(state, Running).1, [])
    else Slices(env, ctx, state, input)
  }

  // ---------------------------------------------------------------- the loops of the source

  /** validateToolCallShape, with its map of identifiers seen so far. */
  method ValidateToolCallShape(calls: seq<ToolCall>) returns (err: Errors)
    ensures err == ShapeErr(calls, 0)
    ensures err == {} <==> WellShaped(calls)
  {
    var seen: map<string, int> := map[];
    for i := 0 to |calls|
      invariant seen.Keys == CallIDs(calls[..i])
      invariant ShapeErr(calls, i) == ShapeErr(calls, 0)
      invariant WellShaped(calls[..i])
    {
      var call := calls[i];
      if call.id == "" {
        return {ErrToolCallInvalid};
      }
      if call.name == "" {
        return {ErrToolCallInvalid};
      }
      if call.id in seen {
        return {ErrToolCallInvalid};
      }
      seen := seen[call.id := i];
      assert forall k | 0 <= k < i :: calls[..i + 1][k] == calls[..i][k];
      assert calls[..i + 1][i] == call;
    }
    assert calls[..|calls|] == calls;
    err := {};
  }

  /** findToolCallByID: both searches run backwards. */
  method FindToolCallByID(messages: seq<Message>, id: string) returns (found: Option<ToolCall>)
    ensures found == FindCall(messages, id)
  {
    if id == "" {
      return None;
    }
    var i := |messages|;
    assert messages[..|messages|] == messages;
    while i > 0
      invariant 0 <= i <= |messages|
      invariant FindCall(messages[..i], id) == FindCall(messages, id)
    {
      i := i - 1;
      var message := messages[i];
      assert messages[..i + 1][..i] == messages[..i];
      if message.role == Assistant {
        var j := |message.toolCalls|;
        assert message.toolCalls[..j] == message.toolCalls;
        while j > 0
          invariant 0 <= j <= |message.toolCalls|
          invariant FindInCalls(message.toolCalls[..j], id) == FindInCalls(message.toolCalls, id)
        {
          j := j - 1;
          assert message.toolCalls[..j + 1][..j] == message.toolCalls[..j];
          if message.toolCalls[j].id == id {
            return Some(message.toolCalls[j]);
          }
        }
      }
    }
    found := None;
  }

  method IndexToolDefinitions(tools: seq<ToolDefinition>) returns (index: map<string, ToolDefinition>)
    ensures forall name :: LookupTool(tools, name) == if name in index then Some(index[name]) else None
  {
    index := map[];
    for i := 0 to |tools|
      invariant forall name ::
        LookupTool(tools[..i], name) == if name in index then Some(index[name]) else None
    {
      index := index[tools[i].name := tools[i]];
      assert tools[..i + 1][..i] == tools[..i];
    }
    assert tools[..|tools|] == tools;
  }

  /** The body of the loop over tool calls. */
  method RunToolCall(env: Oracles, input: Input, definitions: map<string, ToolDefinition>, ctx: Context,
                     call: ToolCall, before: Slice)
    returns (p: Progress)
    requires forall name ::
      LookupTool(input.tools, name) == if name in definitions then Some(definitions[name]) else None
    ensures p == CallStep(env, input, ctx, call, before)
  {
    var m := Tick(before);
    if env.ctxErr(before.clock) != {} {
      return Stop(CancelRun(env, m, env.ctxErr(before.clock)));
    }
    var result;
    var verdict := Proceed;
    if call.name !in definitions {
      result := ErrorResult(call, UnknownTool);
    } else if env.argumentErr(call, definitions[call.name]) != {} {
      result := ErrorResult(call, InvalidArguments);
    } else {
      var executed := env.tool(m.clock, ctx, call);
      m := Tick(m).(trace := m.trace + [ToolCalled(m.clock, ctx, call)]);
      if executed.err != {} {
        var cancelled := CancellationError(env, m.clock, executed.err);
        m := Tick(m);
        if cancelled != {} {
          return Stop(CancelRun(env, m, cancelled));
        }
        result := ErrorResult(call, ExecutorError);
        if executed.suspend.Some? {
          var (requirement, invalid) := ValidateSuspendRequest(m.state, call, executed.suspend.value);
          if requirement.None? {
            verdict := BadSuspend(invalid);
          } else {
            result := ErrorResult(call, SuspendedByTool);
            verdict := SuspendOn(requirement.value);
          }
        }
      } else if IdentityOK(call, executed.result) {
        result := executed.result;
      } else {
        result := ErrorResult(call, ExecutorError);
      }
    }
    result := FillIdentity(call, result);
    m := Record(env, m, result);
    match verdict {
      case BadSuspend(err) => p := Stop(FailRun(env, m, err));
      case SuspendOn(requirement) => p := Stop(Suspend(env, m, requirement));
      case Proceed => p := Go(m);
    }
  }

  /** ReactLoop.Execute as the source runs it. */
  method Execute(env: Oracles, ctx: Context, state: RunState, input: Input) returns (outcome: Outcome)
    ensures outcome == Execution(env, ctx, state, input)
  {
    if ValidateRunState(state) != {} {
      return Outcome(state, ValidateRunState(state), []);
    }
    if state.status == Suspended {
      return Outcome(state, {ErrResolutionRequired}, []);
    }
    var definitions := IndexToolDefinitions(input.tools);
    var (running, startErr) := Transition(state, Running);
    if startErr != {} {
      return Outcome(state, startErr, []);
    }
    var m := Slice(running, 0, {}, []);
    m := m.(state := m.state.(messages := m.state.messages + ResolutionMessages(input.resolution)));
    match ReplayTarget(ctx, m.state, input) {
      case ReplayRefused(err) =>
        return FailRun(env, m, err);
      case NoReplay =>
      case Replay(call) =>
        var replayed := ReplayStep(env, ctx, call, m);
        if replayed.Stop? {
          return replayed.outcome;
        }
        m := replayed.slice;
    }
    outcome := RunLoop(env, input, definitions, WithoutOverride(ctx), m);
  }

  /** The loop over model steps. */
  method RunLoop(env: Oracles, input: Input, definitions: map<string, ToolDefinition>, ctx: Context, start: Slice)
    returns (outcome: Outcome)
    requires forall name ::
      LookupTool(input.tools, name) == if name in definitions then Some(definitions[name]) else None
    ensures outcome == Loop(env, input, Limit(input), ctx, start)
  {
    var limit := input.maxSteps;
    if limit <= 0 {
      limit := DEFAULT_MAX_STEPS;
    }
    var m := start;
    while m.state.step < limit
      invariant Loop(env, input, limit, ctx, m) == Loop(env, input, limit, ctx, start)
      decreases limit - m.state.step
    {
      var ctxErr := env.ctxErr(m.clock);
      m := Tick(m);
      if ctxErr != {} {
        return CancelRun(env, m, ctxErr);
      }
      var p := RunTurn(env, input, definitions, ctx, m);
      if p.Stop? {
        return p.outcome;
      }
      m := p.slice;
    }
    outcome := ExhaustRun(env, m);
  }

  /** The body of the loop over model steps. */
  method RunTurn(env: Oracles, input: Input, definitions: map<string, ToolDefinition>, ctx: Context, before: Slice)
    returns (p: Progress)
    requires forall name ::
      LookupTool(input.tools, name) == if name in definitions then Some(definitions[name]) else None
    ensures p == Turn(env, input, ctx, before)
  {
    var reply := env.model(before.clock, before.state.messages);
    var m := AskModel(before);
    if reply.err != {} {
      return Stop(CancelOrFail(env, m, reply.err));
    }
    var assistant := reply.message;
    if assistant.role == NoRole {
      assistant := assistant.(role := Assistant);
    }
    m := Hear(env, m, assistant);
    if assistant.requirement.Some? {
      if |assistant.toolCalls| > 0 {
        return Stop(FailRun(env, m, {ErrOther}));
      }
      var err := ValidateModelRequirement(m.state, assistant.requirement.value);
      if err != {} {
        return Stop(FailRun(env, m, err));
      }
      return Stop(Suspend(env, m, assistant.requirement.value));
    }
    if |assistant.toolCalls| == 0 {
      return Stop(Complete(env, m, assistant.content));
    }
    var shapeErr := ValidateToolCallShape(assistant.toolCalls);
    if shapeErr != {} {
      return Stop(FailRun(env, m, shapeErr));
    }
    p := RunToolCalls(env, input, definitions, ctx, assistant.toolCalls, m);
  }

  /** The loop over the tool calls of one assistant message. */
  method RunToolCalls(env: Oracles, input: Input, definitions: map<string, ToolDefinition>, ctx: Context,
                      calls: seq<ToolCall>, heard: Slice)
    returns (p: Progress)
    requires forall name ::
      LookupTool(input.tools, name) == if name in definitions then Some(definitions[name]) else None
    ensures p == CallLoop(env, input, ctx, calls, 0, heard)
  {
    var m := heard;
    var i := 0;
    while i < |calls|
      invariant 0 <= i <= |calls|
      invariant CallLoop(env, input, ctx, calls, i, m) == CallLoop(env, input, ctx, calls, 0, heard)
    {
      p := RunToolCall(env, input, definitions, ctx, calls[i], m);
      if p.Stop? {
        return p;
      }
      m := p.slice;
      i := i + 1;
    }
    p := Go(m);
  }
}
