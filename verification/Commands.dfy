/** What one command does to one run: admission, engine contract, and the state it proposes to
    save. No concurrency here: `Propose` is a function of the loaded state.
  */
module Commands {
  import opened Domain
  import opened ReplayContext
  import opened ReactLoop

  datatype RunInput = RunInput(
    runID: RunID, systemPrompt: string, userPrompt: string, maxSteps: int, tools: seq<ToolDefinition>)

  datatype Command =
    | Start(input: RunInput)
    | Continue(runID: RunID, commandID: string, maxSteps: int, tools: seq<ToolDefinition>,
               resolution: Option<Resolution>)
    | Cancel(runID: RunID)
    | Steer(runID: RunID, instruction: string)
    | FollowUp(runID: RunID, userPrompt: string, maxSteps: int, tools: seq<ToolDefinition>)
  {
    function Kind(): CommandKind {
      match this
      case Start(_) => StartKind
      case Continue(_, _, _, _, _) => ContinueKind
      case Cancel(_) => CancelKind
      case Steer(_, _) => SteerKind
      case FollowUp(_, _, _, _) => FollowUpKind
    }

    function Tools(): seq<ToolDefinition> {
      match this
      case Start(input) => input.tools
      case Continue(_, _, _, tools, _) => tools
      case FollowUp(_, _, _, tools) => tools
      case _ => []
    }
  }

  /** The surroundings of one command: the oracles and the caller's context. */
  datatype World = World(oracles: Oracles, ctx: Context)

  /** A commit changes a run in one of three ways; Start commits twice. */
  datatype Mutation = Creates(input: RunInput) | FirstSlice(input: RunInput) | Applies(command: Command)

  // ---------------------------------------------------------------- command checks

  /** Every tool has a name and no name occurs twice. */
  ghost predicate DistinctTools(tools: seq<ToolDefinition>) {
    && (forall i | 0 <= i < |tools| :: tools[i].name != "")
    && (forall i, j | 0 <= i < j < |tools| :: tools[i].name != tools[j].name)
  }

  function ToolNames(tools: seq<ToolDefinition>): set<string> {
    set i | 0 <= i < |tools| :: tools[i].name
  }

  function ToolsErr(tools: seq<ToolDefinition>, i: nat): Errors
    requires i <= |tools|
    decreases |tools| - i
  {
    if i == |tools| then {}
    else if tools[i].name == "" || tools[i].name in ToolNames(tools[..i]) then {ErrToolDefinitionsInvalid}
    else ToolsErr(tools, i + 1)
  }

  /** validateToolDefinitions, with its map of names seen so far. */
  method ValidateToolDefinitions(tools: seq<ToolDefinition>) returns (err: Errors)
    ensures err == ToolsErr(tools, 0)
    ensures err == {} <==> DistinctTools(tools)
    ensures err == {} || err == {ErrToolDefinitionsInvalid}
  {
    var seen: set<string> := {};
    for i := 0 to |tools|
      invariant seen == ToolNames(tools[..i])
      invariant ToolsErr(tools, i) == ToolsErr(tools, 0)
      invariant DistinctTools(tools[..i])
    {
      var name := tools[i].name;
      if name == "" {
        return {ErrToolDefinitionsInvalid};
      }
      if name in seen {
        return {ErrToolDefinitionsInvalid};
      }
      seen := seen + {name};
      assert forall k | 0 <= k < i :: tools[..i + 1][k] == tools[..i][k];
      assert tools[..i + 1][i] == tools[i];
    }
    assert tools[..|tools|] == tools;
    err := {};
  }

  function ValidateContinueResolution(state: RunState, resolution: Option<Resolution>): Errors {
    if state.status != Suspended then if resolution.Some? then {ErrResolutionUnexpected} else {}
    else if resolution.None? then {ErrResolutionRequired}
    else ValidateResolutionFor(resolution, state.pendingRequirement)
  }

  /** approvedToolCallReplayOverrideForContinue. */
  function ApprovedOverride(resolution: Option<Resolution>, requirement: Option<PendingRequirement>): Option<Override> {
    if resolution.None? || requirement.None? then None
    else if resolution.value.outcome != Approved || requirement.value.origin != ToolOrigin then None
    else Some(Override(requirement.value.toolCallID, requirement.value.fingerprint))
  }

  // ---------------------------------------------------------------- the engine contract

  predicate HasAssistantRequirement(messages: seq<Message>, requirement: PendingRequirement) {
    exists k | 0 <= k < |messages| ::
      && messages[k].role == Assistant
      && messages[k].requirement.Some?
      && messages[k].requirement.value.id == requirement.id
      && messages[k].requirement.value.kind == requirement.kind
      && messages[k].requirement.value.origin == requirement.origin
  }

  predicate HasObservation(messages: seq<Message>, id: string) {
    id != "" && exists k | 0 <= k < |messages| :: messages[k].role == Tool && messages[k].toolCallID == id
  }

  predicate HasCall(messages: seq<Message>, id: string) {
    id != "" && exists k | 0 <= k < |messages| :: Declares(messages[k], id)
  }

  function ValidateProvenance(prev: RunState, next: RunState): Errors
    requires |prev.messages| <= |next.messages|
  {
    if next.status != Suspended || next.pendingRequirement.None? then {}
    else
      var additions := next.messages[|prev.messages|..];
      var requirement := next.pendingRequirement.value;
      if additions == [] then {ErrEngineOutputContractViolation}
      else
        match requirement.origin
        case ModelOrigin =>
          if !HasAssistantRequirement(additions, requirement) then {ErrEngineOutputContractViolation} else {}
        case ToolOrigin =>
          if !HasObservation(additions, requirement.toolCallID) then {ErrEngineOutputContractViolation}
          else if !HasCall(next.messages, requirement.toolCallID) then {ErrEngineOutputContractViolation}
          else {}
        case _ => {ErrEngineOutputContractViolation}
  }

  function ValidateEngineOutput(prev: RunState, next: RunState): Errors {
    if next.id != prev.id || next.step < prev.step then {ErrEngineOutputContractViolation}
    else if |next.messages| < |prev.messages| then {ErrEngineOutputContractViolation}
    else if next.messages[..|prev.messages|] != prev.messages then {ErrEngineOutputContractViolation}
    else ValidateProvenance(prev, next)
  }

  // ---------------------------------------------------------------- admission

  /** What a command does with the state it loaded: refuse with a result, run the engine, or save. */
  datatype Admission =
    | Refused(result: RunState, err: Errors)
    | ToEngine(handed: RunState, ctx: Context, input: Input)
    | ToStore(state: RunState)

  function InitialState(input: RunInput, runID: RunID): RunState {
    var created := RunState(runID, 0, 0, Pending, None, "", {}, []);
    created.(messages := (if input.systemPrompt != "" then [TextMessage(System, input.systemPrompt)] else [])
                     + (if input.userPrompt != "" then [TextMessage(User, input.userPrompt)] else []))
  }

  function AdmitContinue(ctx: Context, loaded: RunState, command: Command): (admission: Admission)
    requires command.Continue?
    ensures !admission.ToStore?
  {
    var resolutionErr := ValidateContinueResolution(loaded, command.resolution);
    if IsTerminal(loaded.status) then Refused(loaded, {ErrRunNotContinuable})
    else if resolutionErr != {} then Refused(loaded, resolutionErr)
    else if loaded.status == Suspended then
      var (moved, err) := Transition(loaded.(pendingRequirement := None), Running);
      if err != {} then Refused(moved, err)
      else
        var override := ApprovedOverride(command.resolution, loaded.pendingRequirement);
        ToEngine(moved, if override.Some? then WithOverride(ctx, override.value) else ctx,
                 Input(command.maxSteps, command.tools, command.resolution, loaded.pendingRequirement))
    else ToEngine(loaded, ctx, Input(command.maxSteps, command.tools, command.resolution, None))
  }

  function AdmitCancel(loaded: RunState): Admission {
    if IsTerminal(loaded.status) then Refused(loaded, {ErrRunNotCancellable})
    else
      var cleared := if loaded.status == Suspended then loaded.(pendingRequirement := None) else loaded;
      var (moved, err) := Transition(cleared, Cancelled);
      if err != {} then Refused(moved, err) else ToStore(moved)
  }

  /** Steer and FollowUp append a user message to a run that is neither suspended nor terminal. */
  function AdmitPrompt(ctx: Context, loaded: RunState, command: Command): Admission
    requires command.Steer? || command.FollowUp?
  {
    if loaded.status == Suspended then Refused(loaded, {ErrResolutionRequired})
    else if IsTerminal(loaded.status) then Refused(loaded, {ErrRunNotContinuable})
    else
      var text := if command.Steer? then command.instruction else command.userPrompt;
      var prompted := loaded.(messages := loaded.messages + [TextMessage(User, text)]);
      if command.Steer? then ToStore(prompted)
      else ToEngine(prompted, ctx, Input(command.maxSteps, command.tools, None, None))
  }

  function Admit(mutation: Mutation, ctx: Context, loaded: RunState): Admission {
    match mutation
    case Creates(_) => Refused(loaded, {ErrOther})
    case FirstSlice(input) => ToEngine(loaded, ctx, Input(input.maxSteps, input.tools, None, None))
    case Applies(command) =>
      match command
      case Start(_) => Refused(loaded, {ErrOther})
      case Continue(_, _, _, _, _) => AdmitContinue(ctx, loaded, command)
      case Cancel(_) => AdmitCancel(loaded)
      case Steer(_, _) => AdmitPrompt(ctx, loaded, command)
      case FollowUp(_, _, _, _) => AdmitPrompt(ctx, loaded, command)
  }

  // ---------------------------------------------------------------- proposal

  datatype Proposal =
    | Declined(result: Option<RunState>, err: Errors, trace: seq<Obs>)
    | Proposed(state: RunState, runErr: Errors, trace: seq<Obs>)

  /** The state a command wants to save over the state it loaded. */
  function Propose(mutation: Mutation, world: World, loaded: RunState): Proposal {
    match Admit(mutation, world.ctx, loaded)
    case Refused(result, err) => Declined(Some(result), err, [])
    case ToStore(state) => Proposed(state, {}, [])
    case ToEngine(handed, ctx, input) =>
      var outcome := Execution(world.oracles, ctx, handed, input);
      var contractErr := ValidateEngineOutput(handed, outcome.state);
      if contractErr != {} then Declined(None, contractErr, outcome.trace)
      else Proposed(outcome.state, outcome.err, outcome.trace)
  }

  /** What the runner publishes after a successful save. */
  function AfterSave(kind: CommandKind, state: RunState): seq<Event> {
    var applied := Event(state.id, state.step, CommandApplied, Some(kind), None, None);
    var cancelled := PlainEvent(state.id, state.step, RunCancelled);
    var suspended := PlainEvent(state.id, state.step, RunSuspended);
    var checkpoint := PlainEvent(state.id, state.step, RunCheckpoint);
    match kind
    case CancelKind => [cancelled, applied]
    case SteerKind => [checkpoint, applied]
    case _ =>
      (if state.status == Cancelled then [cancelled] else [])
      + (if state.status == Suspended then [suspended] else [])
      + [checkpoint, applied]
  }

  predicate RunsEngine(kind: CommandKind) {
    kind == StartKind || kind == ContinueKind || kind == FollowUpKind
  }

  predicate Announces(events: seq<Event>, kind: EventType) {
    exists k | 0 <= k < |events| :: events[k].kind == kind
  }

  /** What a save is followed by: the command itself, last and once; a checkpoint unless it is a
      Cancel; and the two outcomes that the engine leaves to the runner. */
  lemma AfterSaveAnnounces(kind: CommandKind, state: RunState)
    ensures var events := AfterSave(kind, state);
      && events != []
      && events[|events| - 1] == Event(state.id, state.step, CommandApplied, Some(kind), None, None)
      && (forall k | 0 <= k < |events| - 1 :: events[k] == PlainEvent(state.id, state.step, events[k].kind))
      && (forall i, j | 0 <= i < j < |events| :: events[i].kind != events[j].kind)
      && (Announces(events, RunSuspended) <==> RunsEngine(kind) && state.status == Suspended)
      && (Announces(events, RunCancelled) <==> kind == CancelKind || (RunsEngine(kind) && state.status == Cancelled))
      && (Announces(events, RunCheckpoint) <==> kind != CancelKind)
  {
    var events := AfterSave(kind, state);
    assert forall k | 0 <= k < |events| ::
        || events[k].kind == RunCancelled || events[k].kind == RunSuspended
        || events[k].kind == RunCheckpoint || events[k].kind == CommandApplied;
    assert kind == CancelKind ==> events[0].kind == RunCancelled;
    assert kind != CancelKind ==> events[|events| - 2].kind == RunCheckpoint;
    assert RunsEngine(kind) && state.status == Suspended ==> events[0].kind == RunSuspended;
    assert RunsEngine(kind) && state.status == Cancelled ==> events[0].kind == RunCancelled;
  }
}
