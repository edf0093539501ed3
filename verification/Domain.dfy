/** The vocabulary of the agent runtime: runs, messages, tool calls, requirements, events and
    errors, with the checks every other module shares.

    Go errors are finite sets of sentinel tags: the empty set is `nil` and `errors.Join` is union.
    Enumerations that Go keeps as strings get one constructor for every other string.
  */
module Domain {

  datatype Option<+T> = None | Some(value: T)

  type RunID = string

  datatype RunStatus =
    | Unset | Pending | Running | Suspended | Cancelled | Completed | Failed | MaxStepsExceeded
    | OtherStatus(statusName: string)

  datatype RequirementKind = Approval | UserInput | ExternalExecution | OtherKind(kindName: string)

  datatype RequirementOrigin = ModelOrigin | ToolOrigin | OtherOrigin(originName: string)

  /** `Fulfilled` is the outcome "completed" of an external execution. */
  datatype ResolutionOutcome = Approved | Rejected | Provided | Fulfilled | OtherOutcome(outcomeName: string)

  datatype Role = NoRole | System | User | Assistant | Tool | OtherRole(roleName: string)

  datatype PendingRequirement = PendingRequirement(
    id: string, kind: RequirementKind, origin: RequirementOrigin,
    toolCallID: string, fingerprint: string, prompt: string)

  datatype Resolution = Resolution(
    requirementID: string, kind: RequirementKind, outcome: ResolutionOutcome, value: string)

  datatype Json =
    | JsonNull | JsonBool(truth: bool) | JsonNumber(number: real) | JsonString(text: string)
    | JsonArray(items: seq<Json>) | JsonObject(fields: map<string, Json>)

  datatype ToolCall = ToolCall(id: string, name: string, arguments: map<string, Json>)

  datatype ToolDefinition = ToolDefinition(name: string, description: string, schema: map<string, Json>)

  datatype FailureReason = NoFailure | UnknownTool | InvalidArguments | ExecutorError | SuspendedByTool

  datatype ToolResult = ToolResult(
    callID: string, name: string, content: string, isError: bool, reason: FailureReason)

  datatype Message = Message(
    role: Role, content: string, name: string, toolCallID: string,
    toolCalls: seq<ToolCall>, requirement: Option<PendingRequirement>)

  datatype RunState = RunState(
    id: RunID, version: int, step: int, status: RunStatus,
    pendingRequirement: Option<PendingRequirement>,
    output: string, error: Errors, messages: seq<Message>)

  datatype CommandKind = StartKind | ContinueKind | CancelKind | SteerKind | FollowUpKind

  datatype EventType =
    | CommandApplied | RunStarted | AssistantMessage | ToolObservation | RunCompleted | RunFailed
    | RunSuspended | RunCancelled | RunCheckpoint | OtherType(typeName: string)

  datatype Event = Event(
    runID: RunID, step: int, kind: EventType, commandKind: Option<CommandKind>,
    message: Option<Message>, toolResult: Option<ToolResult>)

  // ---------------------------------------------------------------- errors

  datatype ErrorTag =
    | ErrMaxStepsExceeded | ErrRunNotFound | ErrRunVersionConflict | ErrInvalidRunStateTransition
    | ErrRunStateInvalid | ErrRunNotContinuable | ErrRunNotCancellable | ErrResolutionRequired
    | ErrResolutionInvalid | ErrResolutionUnexpected | ErrCommandConflict | ErrInvalidRunID
    | ErrEventPublish | ErrEventInvalid | ErrEngineOutputContractViolation
    | ErrToolDefinitionsInvalid | ErrToolCallInvalid | ErrBashCommandDenied | ErrBashCommandEmpty
    | ErrBashReplayMismatch | ErrArgumentInvalid | ErrCanceled | ErrDeadlineExceeded | ErrOther

  type Errors = set<ErrorTag>

  // ---------------------------------------------------------------- text

  /** Go's unicode.IsSpace. */
  predicate IsSpace(c: char) {
    || c == ' ' || '\t' <= c <= '\r'
    || c == '\U{0085}' || c == '\U{00A0}' || c == '\U{1680}' || '\U{2000}' <= c <= '\U{200A}'
    || c == '\U{2028}' || c == '\U{2029}' || c == '\U{202F}' || c == '\U{205F}' || c == '\U{3000}'
  }

  function TrimLeft(s: string): string {
    if |s| > 0 && IsSpace(s[0]) then TrimLeft(s[1..]) else s
  }

  function TrimRight(s: string): string {
    if |s| > 0 && IsSpace(s[|s| - 1]) then TrimRight(s[..|s| - 1]) else s
  }

  function Trim(s: string): string {
    TrimRight(TrimLeft(s))
  }

  // ---------------------------------------------------------------- lifecycle

  predicate IsTerminal(status: RunStatus) {
    status == Completed || status == Failed || status == Cancelled
  }

  predicate KnownStatus(status: RunStatus) {
    !status.Unset? && !status.OtherStatus?
  }

  function ValidatePendingRequirement(requirement: Option<PendingRequirement>): Errors {
    match requirement
    case None => {ErrRunStateInvalid}
    case Some(r) =>
      if r.id == "" || r.kind.OtherKind? || r.origin.OtherOrigin? then {ErrRunStateInvalid}
      else if r.origin == ToolOrigin && (r.toolCallID == "" || r.fingerprint == "") then {ErrRunStateInvalid}
      else {}
  }

  function ValidateSuspension(state: RunState): Errors {
    if state.status == Suspended then ValidatePendingRequirement(state.pendingRequirement)
    else if state.pendingRequirement.Some? then {ErrRunStateInvalid}
    else {}
  }

  function ValidateRunState(state: RunState): Errors {
    if state.id == "" then {ErrRunStateInvalid, ErrInvalidRunID}
    else if state.step < 0 || state.version < 0 || !KnownStatus(state.status) then {ErrRunStateInvalid}
    else ValidateSuspension(state)
  }

  function ValidateResolution(resolution: Option<Resolution>): Errors {
    match resolution
    case None => {ErrResolutionInvalid}
    case Some(r) =>
      if r.requirementID == "" || r.kind.OtherKind? || r.outcome.OtherOutcome? then {ErrResolutionInvalid}
      else if r.kind == Approval && r.outcome != Approved && r.outcome != Rejected then {ErrResolutionInvalid}
      else if r.kind == UserInput && r.outcome != Provided then {ErrResolutionInvalid}
      else if r.kind == ExternalExecution && r.outcome != Fulfilled then {ErrResolutionInvalid}
      else {}
  }

  function ValidateResolutionFor(resolution: Option<Resolution>, requirement: Option<PendingRequirement>): Errors {
    if ValidateResolution(resolution) != {} then ValidateResolution(resolution)
    else if requirement.None? then {ErrResolutionInvalid}
    else if ValidatePendingRequirement(requirement) != {} then ValidatePendingRequirement(requirement)
    else if resolution.value.requirementID != requirement.value.id then {ErrResolutionInvalid}
    else if resolution.value.kind != requirement.value.kind then {ErrResolutionInvalid}
    else {}
  }

  /** The transition table. */
  predicate AllowedEdge(from: RunStatus, to: RunStatus) {
    match from
    case Unset => to == Pending
    case Pending => to == Running || to == Cancelled
    case Running => to == Suspended || to == Cancelled || to == Completed || to == Failed || to == MaxStepsExceeded
    case Suspended => to == Running || to == Cancelled
    case MaxStepsExceeded => to == Running || to == Cancelled
    case _ => false
  }

  function ValidateTransition(from: RunStatus, to: RunStatus): Errors {
    if from == to || AllowedEdge(from, to) then {} else {ErrInvalidRunStateTransition}
  }

  /** TransitionRunStatus: the state after the call (rolled back on error) and the error. */
  function Transition(state: RunState, to: RunStatus): (RunState, Errors) {
    if ValidateTransition(state.status, to) != {} then (state, ValidateTransition(state.status, to))
    else
      var moved := state.(status := to);
      if ValidateSuspension(moved) != {} then (state, ValidateSuspension(moved)) else (moved, {})
  }

  // ---------------------------------------------------------------- events

  function ValidateEvent(event: Event): Errors {
    if event.runID == "" || event.step < 0 || event.kind.OtherType? then {ErrEventInvalid}
    else
      match event.kind
      case CommandApplied =>
        if event.commandKind.None? || event.message.Some? || event.toolResult.Some? then {ErrEventInvalid} else {}
      case AssistantMessage =>
        if event.message.None? || event.commandKind.Some? || event.toolResult.Some? then {ErrEventInvalid} else {}
      case ToolObservation =>
        if event.commandKind.Some? || event.message.Some? || event.toolResult.None? then {ErrEventInvalid}
        else if event.toolResult.value.callID == "" || event.toolResult.value.name == "" then {ErrEventInvalid}
        else {}
      case _ =>
        if event.commandKind.Some? || event.message.Some? || event.toolResult.Some? then {ErrEventInvalid} else {}
  }

  function PlainEvent(runID: RunID, step: int, kind: EventType): Event {
    Event(runID, step, kind, None, None, None)
  }

  // ---------------------------------------------------------------- messages

  function TextMessage(role: Role, content: string): Message {
    Message(role, content, "", "", [], None)
  }

  function ToolResultMessage(result: ToolResult): Message {
    Message(Tool, result.content, result.name, result.callID, [], None)
  }

  /** Some call of `message` carries the identifier `id`. */
  predicate Declares(message: Message, id: string) {
    message.role == Assistant && exists k | 0 <= k < |message.toolCalls| :: message.toolCalls[k].id == id
  }
}
