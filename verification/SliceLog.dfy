/** Why a slice did what it did, and why it ended, read off its log.

    Nothing here follows the control flow of the engine. `Grounded` says of a single entry of the log
    when it may stand there, given the entries before it and the answers to them; `EndingOf` says what
    the end of a slice is, given its whole log; `Ends` says what an ending means for the state, the error
    and the closing event. `SliceExplained` proves that every slice has such a log.
  */
module SliceLog {
  import opened Domain
  import opened ReplayContext
  import opened ReactLoop
  import opened Transcript
  import opened EngineLaws

  /** A slice: its surroundings and the running state it entered with. */
  datatype Frame = Frame(env: Oracles, ctx: Context, input: Input, entry: RunState)

  function FrameOf(env: Oracles, ctx: Context, state: RunState, input: Input): Frame {
    Frame(env, ctx, input,
          state.(status := Running, messages := state.messages + ResolutionMessages(input.resolution)))
  }

  function Budget(input: Input): int {
    if input.maxSteps > 0 then input.maxSteps else 8
  }

  // ---------------------------------------------------------------- reading a log

  function Messages(f: Frame, log: seq<Obs>): seq<Message> {
    f.entry.messages + Mirror(log)
  }

  function Steps(f: Frame, log: seq<Obs>): int {
    f.entry.step + ModelCalls(log)
  }

  /** The clock of the next question. A tool call that failed is followed by a look at the context. */
  function Due(env: Oracles, log: seq<Obs>): nat {
    if log == [] then 0
    else
      match log[|log| - 1]
      case ModelCalled(clock, _) => clock + 1
      case ToolCalled(clock, ctx, call) => if env.tool(clock, ctx, call).err == {} then clock + 1 else clock + 2
      case Published(clock, _) => clock + 1
  }

  /** What the sink answered to the events of the log. */
  function SinkErrs(env: Oracles, log: seq<Obs>): Errors {
    if log == [] then {}
    else
      var last := log[|log| - 1];
      SinkErrs(env, log[..|log| - 1])
      + if last.Published? && env.sink(last.clock, last.event) != {}
        then {ErrEventPublish} + env.sink(last.clock, last.event) else {}
  }

  /** The last definition of the name. */
  ghost predicate Defines(tools: seq<ToolDefinition>, name: string, k: int) {
    && 0 <= k < |tools| && tools[k].name == name
    && forall j | k < j < |tools| :: tools[j].name != name
  }

  ghost predicate Callable(f: Frame, call: ToolCall) {
    exists k :: Defines(f.input.tools, call.name, k) && f.env.argumentErr(call, f.input.tools[k]) == {}
  }

  ghost predicate Undefined(f: Frame, call: ToolCall) {
    forall k | 0 <= k < |f.input.tools| :: f.input.tools[k].name != call.name
  }

  /** The assistant message `a` of this slice asked for tools as it should, and only answers follow it. */
  ghost predicate InTurn(f: Frame, messages: seq<Message>, a: int) {
    && |f.entry.messages| <= a
    && AnsweredUpTo(messages, a, |messages| - a - 1)
    && messages[a].requirement.None? && messages[a].toolCalls != [] && WellShaped(messages[a].toolCalls)
  }

  /** The next call to be answered. */
  ghost predicate Owes(f: Frame, messages: seq<Message>, call: ToolCall) {
    exists a :: InTurn(f, messages, a) && OwedAt(messages, a, call)
  }

  ghost predicate OwedAt(messages: seq<Message>, a: int, call: ToolCall) {
    && 0 <= a < |messages|
    && |messages| - a - 1 < |messages[a].toolCalls| && messages[a].toolCalls[|messages| - a - 1] == call
  }

  /** No call waits for its answer: the model has said nothing yet, or all its calls are answered. */
  ghost predicate Rests(f: Frame, messages: seq<Message>) {
    || (forall k | |f.entry.messages| <= k < |messages| :: messages[k].role != Assistant)
    || (exists a :: InTurn(f, messages, a) && |messages| - a - 1 == |messages[a].toolCalls|)
  }

  // ---------------------------------------------------------------- replays

  /** The caller approved what a tool had asked for. */
  predicate Approves(input: Input) {
    && input.resolution.Some? && input.resolvedRequirement.Some?
    && input.resolution.value.kind == Approval && input.resolution.value.outcome == Approved
    && input.resolvedRequirement.value.origin == ToolOrigin
  }

  /** The approval is for this complete requirement, and the context carries exactly its override. */
  predicate Covers(ctx: Context, input: Input)
    requires Approves(input)
  {
    var r := input.resolvedRequirement.value;
    && r.kind == Approval && r.id != "" && r.toolCallID != "" && r.fingerprint != ""
    && input.resolution.value.requirementID == r.id
    && OverrideOf(ctx) == Some(Override(r.toolCallID, r.fingerprint))
  }

  /** A slice replays a call if and only if the caller approved it, context and requirement agree, and
      the transcript declares it; an approval that falls short is an error, and without one there is
      no replay. */
  lemma ReplayIff(ctx: Context, state: RunState, input: Input)
    requires state.id != "" && state.step >= 0 && state.version >= 0
    ensures var target := ReplayTarget(ctx, state, input);
      && (target.NoReplay? <==> !Approves(input))
      && (target.Replay? <==>
            && Approves(input) && Covers(ctx, input)
            && DeclaredBefore(state.messages, |state.messages|, input.resolvedRequirement.value.toolCallID))
      && (target.Replay? ==> target.call.id == input.resolvedRequirement.value.toolCallID)
      && (target.ReplayRefused? ==> target.err == {ErrRunStateInvalid})
  {
    if input.resolvedRequirement.Some? {
      FoundCall(state.messages, input.resolvedRequirement.value.toolCallID);
    }
    hide FindCall, DeclaredBefore;
  }

  // ---------------------------------------------------------------- answers

  /** The cancellation behind an error seen at clock `n`, if there is one: the context's own, or the error's. */
  function Cancellation(env: Oracles, n: nat, err: Errors): Errors {
    if env.ctxErr(n) != {} then env.ctxErr(n)
    else if ErrCanceled in err then {ErrCanceled}
    else err * {ErrDeadlineExceeded}
  }

  /** A tool may ask to suspend on a complete requirement of its own, for the call it was given. */
  predicate AsksProperly(call: ToolCall, request: SuspendRequest) {
    && request.requirement.Some?
    && var r := request.requirement.value;
       && r.origin == ToolOrigin && (r.toolCallID == "" || r.toolCallID == call.id)
       && r.id != "" && !r.kind.OtherKind? && r.fingerprint != ""
  }

  predicate RequiresProperly(r: PendingRequirement) {
    r.origin == ModelOrigin && r.id != "" && !r.kind.OtherKind?
  }

  /** What is recorded of a tool's reply: its result if it is for this call, an error result otherwise. */
  function Recorded(call: ToolCall, reply: ToolReply): ToolResult {
    var r := reply.result;
    if reply.err == {} && r.callID in {"", call.id} && r.name in {"", call.name} then
      ToolResult(call.id, call.name, r.content, r.isError, r.reason)
    else if reply.err != {} && reply.suspend.Some? && AsksProperly(call, reply.suspend.value) then
      ErrorResult(call, SuspendedByTool)
    else ErrorResult(call, ExecutorError)
  }

  /** The last tool call asked to suspend, and its observation is on the log. */
  predicate Suspending(env: Oracles, log: seq<Obs>) {
    && |log| >= 2 && log[|log| - 2].ToolCalled?
    && var asked := log[|log| - 2];
       var reply := env.tool(asked.clock, asked.ctx, asked.call);
       reply.err != {} && reply.suspend.Some?
  }

  function Said(f: Frame, log: seq<Obs>, message: Message): Event {
    Event(f.entry.id, Steps(f, log), AssistantMessage, None, Some(message.(role := Assistant)), None)
  }

  function Noted(f: Frame, log: seq<Obs>, result: ToolResult): Event {
    Event(f.entry.id, Steps(f, log), ToolObservation, None, None, Some(result))
  }

  // ---------------------------------------------------------------- when an entry may stand

  /** The context was looked at just before and had not ended; nothing waits for a reply or an approval. */
  predicate Looked(f: Frame, before: seq<Obs>, clock: nat) {
    && f.env.ctxErr(Due(f.env, before)) == {} && clock == Due(f.env, before) + 1
    && !Suspending(f.env, before) && (before != [] ==> before[|before| - 1].Published?)
  }

  ghost predicate Grounded(f: Frame, before: seq<Obs>, obs: Obs) {
    var heard := Messages(f, before);
    match obs
    case ModelCalled(clock, messages) =>
      && Looked(f, before, clock)
      && Rests(f, heard) && Steps(f, before) < Budget(f.input)
      && messages == heard
    case ToolCalled(clock, ctx, call) =>
      if before == [] then ReplayTarget(f.ctx, f.entry, f.input) == Replay(call) && ctx == f.ctx && clock == 0
      else
        && Looked(f, before, clock)
        && Owes(f, heard, call) && Callable(f, call)
        && ctx == WithoutOverride(f.ctx)
    case Published(clock, event) =>
      && before != []
      && match before[|before| - 1]
         case ModelCalled(asked, messages) =>
           var reply := f.env.model(asked, messages);
           reply.err == {} && clock == Due(f.env, before) && event == Said(f, before, reply.message)
         case ToolCalled(asked, ctx, call) =>
           var reply := f.env.tool(asked, ctx, call);
           && (reply.err != {} ==> Cancellation(f.env, asked + 1, reply.err) == {})
           && clock == Due(f.env, before) && event == Noted(f, before, Recorded(call, reply))
         case Published(_, _) =>
           && Looked(f, before, clock)
           && exists call ::
                && Owes(f, heard, call) && !Callable(f, call)
                && event == Noted(f, before, ErrorResult(call, if Undefined(f, call) then UnknownTool
                                                               else InvalidArguments))
  }

  ghost predicate Logged(f: Frame, log: seq<Obs>) {
    forall k | 0 <= k < |log| :: Grounded(f, log[..k], log[k])
  }

  // ---------------------------------------------------------------- how a slice ends

  datatype Ending =
    | Completes(output: string)
    | Suspends(requirement: PendingRequirement)
    | Fails(error: Errors)
    | Cancels(error: Errors)
    | Exhausts

  function Broken(env: Oracles, n: nat, err: Errors): Ending {
    if Cancellation(env, n, err) != {} then Cancels(Cancellation(env, n, err)) else Fails(err)
  }

  /** The end of a slice that stopped before it asked for anything more. */
  ghost function Pause(f: Frame, log: seq<Obs>): Ending {
    if Rests(f, Messages(f, log)) && Steps(f, log) >= Budget(f.input) then Exhausts
    else Cancels(f.env.ctxErr(Due(f.env, log)))
  }

  ghost function AfterReply(f: Frame, log: seq<Obs>, reply: Message): Ending {
    if reply.requirement.Some? then
      if reply.toolCalls != [] then Fails({ErrOther})
      else if RequiresProperly(reply.requirement.value) then Suspends(reply.requirement.value)
      else Fails({ErrRunStateInvalid})
    else if reply.toolCalls == [] then Completes(reply.content)
    else if !WellShaped(reply.toolCalls) then Fails({ErrToolCallInvalid})
    else Pause(f, log)
  }

  ghost function EndingOf(f: Frame, log: seq<Obs>): Ending {
    if log == [] then
      var target := ReplayTarget(f.ctx, f.entry, f.input);
      if target.ReplayRefused? then Fails(target.err) else Pause(f, log)
    else
      match log[|log| - 1]
      case ModelCalled(asked, messages) => Broken(f.env, asked + 1, f.env.model(asked, messages).err)
      case ToolCalled(asked, ctx, call) =>
        var cancelled := Cancellation(f.env, asked + 1, f.env.tool(asked, ctx, call).err);
        if |log| > 1 then Cancels(cancelled)
        else Broken(f.env, asked + 2, if cancelled != {} then cancelled else {ErrRunStateInvalid})
      case Published(_, _) =>
        if |log| > 1 && log[|log| - 2].ModelCalled? then
          AfterReply(f, log, f.env.model(log[|log| - 2].clock, log[|log| - 2].messages).message)
        else if Suspending(f.env, log) then
          var asked := log[|log| - 2];
          var request := f.env.tool(asked.clock, asked.ctx, asked.call).suspend.value;
          if AsksProperly(asked.call, request) then Suspends(request.requirement.value.(toolCallID := asked.call.id))
          else Fails({ErrRunStateInvalid})
        else Pause(f, log)
  }

  /** The trace is the log and one closing event. */
  predicate Parts(log: seq<Obs>, trace: seq<Obs>, event: Event) {
    log <= trace && |trace| == |log| + 1 && trace[|log|].Published? && trace[|log|].event == event
  }

  ghost predicate Ends(f: Frame, log: seq<Obs>, ending: Ending, o: Outcome) {
    var step := Steps(f, log);
    var reached := f.entry.(step := step, messages := Messages(f, log));
    match ending
    case Completes(output) =>
      && o.state == reached.(status := Completed, output := output)
      && o.err == SinkErrs(f.env, o.trace)
      && Parts(log, o.trace, PlainEvent(f.entry.id, step, RunCompleted))
    case Suspends(requirement) =>
      && o.state == reached.(status := Suspended, pendingRequirement := Some(requirement))
      && o.err == SinkErrs(f.env, o.trace)
      && o.trace == log
    case Fails(error) =>
      && error != {}
      && o.state == reached.(status := Failed, error := error)
      && o.err == error + SinkErrs(f.env, o.trace)
      && Parts(log, o.trace, PlainEvent(f.entry.id, step, RunFailed))
    case Cancels(error) =>
      && error != {}
      && o.state == reached.(status := Cancelled, error := error)
      && o.err == error + SinkErrs(f.env, o.trace)
      && Parts(log, o.trace, PlainEvent(f.entry.id, step, RunCancelled))
    case Exhausts =>
      && o.state == reached.(status := MaxStepsExceeded, error := {ErrMaxStepsExceeded})
      && o.err == {ErrMaxStepsExceeded} + SinkErrs(f.env, o.trace)
      && Parts(log, o.trace, PlainEvent(f.entry.id, step, RunFailed))
  }

  ghost predicate Explained(f: Frame, log: seq<Obs>, o: Outcome) {
    Logged(f, log) && Ends(f, log, EndingOf(f, log), o)
  }

  // ---------------------------------------------------------------- a slice under way

  /** The slice is what its log says, but for the clock and what Tracks says. */
  ghost predicate Kept(f: Frame, m: Slice) {
    && Logged(f, m.trace)
    && m.eventErr == SinkErrs(f.env, m.trace)
  }

  /** Nothing is under way. */
  ghost predicate Settles(f: Frame, m: Slice) {
    && Kept(f, m)
    && m.clock == Due(f.env, m.trace)
    && !Suspending(f.env, m.trace)
    && (m.trace != [] ==> m.trace[|m.trace| - 1].Published?)
  }

  lemma LogAppend(f: Frame, log: seq<Obs>, obs: Obs)
    requires Logged(f, log) && Grounded(f, log, obs)
    ensures Logged(f, log + [obs])
  {
    hide Grounded;
    var all := log + [obs];
    assert forall k | 0 <= k < |log| :: all[..k] == log[..k];
    assert all[..|log|] == log;
  }

  lemma SinkErrsAppend(env: Oracles, log: seq<Obs>, obs: Obs)
    ensures SinkErrs(env, log + [obs])
         == SinkErrs(env, log) + if obs.Published? && env.sink(obs.clock, obs.event) != {}
                                 then {ErrEventPublish} + env.sink(obs.clock, obs.event) else {}
  {
    assert (log + [obs])[..|log|] == log;
  }

  /** A question that is no publish. */
  lemma AskKept(f: Frame, m: Slice, obs: Obs, next: Slice)
    requires Kept(f, m) && !obs.Published? && Grounded(f, m.trace, obs)
    requires next.trace == m.trace + [obs] && next.eventErr == m.eventErr
    ensures Kept(f, next)
  {
    hide Grounded, Logged;
    LogAppend(f, m.trace, obs);
    SinkErrsAppend(f.env, m.trace, obs);
  }

  lemma PublishKept(f: Frame, m: Slice, event: Event, said: Slice)
    requires Kept(f, m) && ValidateEvent(event) == {} && Grounded(f, m.trace, Published(m.clock, event))
    requires said.trace == m.trace && said.eventErr == m.eventErr && said.clock == m.clock
    ensures var next := Publish(f.env, said, event);
      Kept(f, next) && next.clock == Due(f.env, next.trace)
  {
    hide Grounded, Logged;
    LogAppend(f, m.trace, Published(m.clock, event));
    SinkErrsAppend(f.env, m.trace, Published(m.clock, event));
    hide ValidateEvent;
  }

  // ---------------------------------------------------------------- ends

  function EndStatus(ending: Ending): RunStatus
    requires !ending.Completes? && !ending.Suspends?
  {
    match ending
    case Fails(_) => Failed
    case Cancels(_) => Cancelled
    case _ => MaxStepsExceeded
  }

  function EndError(ending: Ending): Errors
    requires !ending.Completes? && !ending.Suspends?
  {
    match ending
    case Fails(error) => error
    case Cancels(error) => error
    case _ => {ErrMaxStepsExceeded}
  }

  /** A tracked slice is where its log leads to. */
  lemma Reached(f: Frame, m: Slice, lag: nat)
    requires Tracks(f.entry, m, lag)
    ensures m.state == f.entry.(step := Steps(f, m.trace), messages := Messages(f, m.trace))
    ensures m.state.id != "" && m.state.step >= 0 && m.state.status == Running && m.state.pendingRequirement.None?
  {
    hide EventsFit, RequestsExact, OverrideOnlyFirst, Mirror, ModelCalls, AssistantCount;
  }

  lemma EndRunEnds(f: Frame, m: Slice, lag: nat, ending: Ending)
    requires Tracks(f.entry, m, lag) && Kept(f, m)
    requires !ending.Completes? && !ending.Suspends? && EndError(ending) != {}
    ensures var to := EndStatus(ending);
      Ends(f, m.trace, ending, EndRun(f.env, m, to, EndError(ending), ClosingEvent(to)))
  {
    hide Tracks, Logged, Messages, Steps, SinkErrs;
    Reached(f, m, lag);
    var to := EndStatus(ending);
    SinkErrsAppend(f.env, m.trace, Published(m.clock, PlainEvent(f.entry.id, m.state.step, ClosingEvent(to))));
  }

  lemma CompleteEnds(f: Frame, m: Slice, output: string)
    requires Tracks(f.entry, m, 0) && Kept(f, m)
    ensures Ends(f, m.trace, Completes(output), Complete(f.env, m, output))
  {
    hide Tracks, Logged, Messages, Steps, SinkErrs;
    Reached(f, m, 0);
    SinkErrsAppend(f.env, m.trace, Published(m.clock, PlainEvent(f.entry.id, m.state.step, RunCompleted)));
  }

  lemma SuspendEnds(f: Frame, m: Slice, requirement: PendingRequirement)
    requires Tracks(f.entry, m, 0) && Kept(f, m)
    requires ValidatePendingRequirement(Some(requirement)) == {}
    ensures Ends(f, m.trace, Suspends(requirement), Suspend(f.env, m, requirement))
  {
    hide Tracks, Logged, Messages, Steps, SinkErrs;
    Reached(f, m, 0);
  }

  // ---------------------------------------------------------------- one tool call

  lemma {:induction false} LookupMeans(tools: seq<ToolDefinition>, name: string)
    ensures LookupTool(tools, name).None? <==> forall k | 0 <= k < |tools| :: tools[k].name != name
    ensures LookupTool(tools, name).Some? ==>
      exists k :: Defines(tools, name, k) && LookupTool(tools, name) == Some(tools[k])
  {
    if tools != [] {
      var init := tools[..|tools| - 1];
      LookupMeans(init, name);
      if tools[|tools| - 1].name == name {
        assert Defines(tools, name, |tools| - 1);
      } else if LookupTool(init, name).Some? {
        var k :| Defines(init, name, k) && LookupTool(init, name) == Some(init[k]);
        assert Defines(tools, name, k);
      }
    }
  }

  /** A call is handed to its tool exactly when the lookup finds a definition its arguments fit. */
  lemma CallableMeans(f: Frame, call: ToolCall)
    ensures var found := LookupTool(f.input.tools, call.name);
      && (Undefined(f, call) <==> found.None?)
      && (Callable(f, call) <==> found.Some? && f.env.argumentErr(call, found.value) == {})
  {
    LookupMeans(f.input.tools, call.name);
    var found := LookupTool(f.input.tools, call.name);
    if found.Some? {
      var k :| Defines(f.input.tools, call.name, k) && found == Some(f.input.tools[k]);
      assert forall j | Defines(f.input.tools, call.name, j) :: j == k;
    }
  }

  lemma CancellationMeans(env: Oracles, n: nat, err: Errors)
    ensures CancellationError(env, n, err) == Cancellation(env, n, err)
  {
    assert err * {ErrDeadlineExceeded} == if ErrDeadlineExceeded in err then {ErrDeadlineExceeded} else {};
  }

  lemma SuspendRequestMeans(state: RunState, call: ToolCall, request: SuspendRequest)
    requires state.id != "" && state.step >= 0 && state.version >= 0 && call.id != ""
    ensures ValidateSuspendRequest(state, call, request)
         == if AsksProperly(call, request) then (Some(request.requirement.value.(toolCallID := call.id)), {})
            else (None, {ErrRunStateInvalid})
  {
  }

  lemma RecordedMeans(call: ToolCall, reply: ToolReply)
    requires reply.err == {}
    ensures var kept := if IdentityOK(call, reply.result) then reply.result else ErrorResult(call, ExecutorError);
      FillIdentity(call, kept) == Recorded(call, reply)
  {
  }

  /** What the loop makes of the reply to a call it handed to its tool. */
  lemma ObservedReply(f: Frame, call: ToolCall, m: Slice)
    requires m.state.id != "" && m.state.step >= 0 && m.state.version >= 0 && call.id != "" && Callable(f, call)
    ensures var ctx := WithoutOverride(f.ctx);
      var reply := f.env.tool(m.clock, ctx, call);
      var cancelled := Cancellation(f.env, m.clock + 1, reply.err);
      var (asked, observation) := Observe(f.env, f.input, ctx, call, m);
      && asked == m.(clock := if reply.err == {} then m.clock + 1 else m.clock + 2,
                     trace := m.trace + [ToolCalled(m.clock, ctx, call)])
      && (observation.Interrupted? <==> reply.err != {} && cancelled != {})
      && (observation.Interrupted? ==> observation.err == cancelled)
      && (observation.Observed? ==>
            && FillIdentity(call, observation.result) == Recorded(call, reply)
            && observation.verdict
               == if reply.err == {} || reply.suspend.None? then Proceed
                  else if AsksProperly(call, reply.suspend.value)
                  then SuspendOn(reply.suspend.value.requirement.value.(toolCallID := call.id))
                  else BadSuspend({ErrRunStateInvalid}))
  {
    var reply := f.env.tool(m.clock, WithoutOverride(f.ctx), call);
    CallableMeans(f, call);
    CancellationMeans(f.env, m.clock + 1, reply.err);
    if reply.err == {} {
      RecordedMeans(call, reply);
    } else if reply.suspend.Some? {
      SuspendRequestMeans(m.state, call, reply.suspend.value);
    }
    hide LookupTool, Callable, Cancellation, CancellationError, ValidateSuspendRequest, IdentityOK;
  }

  /** A call that is not handed to a tool is answered all the same. */
  lemma ObservedRefusal(f: Frame, call: ToolCall, m: Slice)
    requires !Callable(f, call)
    ensures var (asked, observation) := Observe(f.env, f.input, WithoutOverride(f.ctx), call, m);
      && asked == m && observation.Observed? && observation.verdict == Proceed
      && FillIdentity(call, observation.result)
         == ErrorResult(call, if Undefined(f, call) then UnknownTool else InvalidArguments)
  {
    CallableMeans(f, call);
  }

  /** The turn of the message at `a` goes on with its call `n`. */
  ghost predicate Turning(f: Frame, m: Slice, a: int, n: int, calls: seq<ToolCall>) {
    && Answering(f.entry, m, a, n, calls)
    && Settles(f, m) && m.trace != []
    && calls != [] && WellShaped(calls) && m.state.messages[a].requirement.None?
  }

  lemma TurningParts(f: Frame, m: Slice, a: int, n: int, calls: seq<ToolCall>)
    requires Turning(f, m, a, n, calls)
    ensures Settles(f, m)
    ensures Kept(f, m) && m.clock == Due(f.env, m.trace) && m.trace != [] && !Suspending(f.env, m.trace)
    ensures Answering(f.entry, m, a, n, calls) && WellShaped(calls)
  {
  }

  lemma TurningOwes(f: Frame, m: Slice, a: int, n: int, calls: seq<ToolCall>)
    requires Turning(f, m, a, n, calls)
    ensures Messages(f, m.trace) == m.state.messages && Steps(f, m.trace) == m.state.step
    ensures n < |calls| ==> Owes(f, m.state.messages, calls[n])
    ensures n == |calls| ==> Rests(f, m.state.messages)
    ensures n < |calls| ==> !Rests(f, m.state.messages)
    ensures m.state.id == f.entry.id != "" && m.state.step >= 0 && m.state.version >= 0
  {
    hide WellShaped, Settles, EventsFit, RequestsExact, OverrideOnlyFirst, Mirror, ModelCalls, AssistantCount, Healthy,
      AllAnswered;
    assert InTurn(f, m.state.messages, a);
    forall b | InTurn(f, m.state.messages, b)
      ensures b == a
    {
      assert m.state.messages[b].role == Assistant && m.state.messages[a].role == Assistant;
    }
    if n < |calls| {
      assert OwedAt(m.state.messages, a, calls[n]);
    }
  }

  lemma AskIsGrounded(f: Frame, m: Slice, a: int, n: int, calls: seq<ToolCall>)
    requires Turning(f, m, a, n, calls) && n < |calls| && Callable(f, calls[n]) && f.env.ctxErr(m.clock) == {}
    ensures Grounded(f, m.trace, ToolCalled(m.clock + 1, WithoutOverride(f.ctx), calls[n]))
  {
    hide Answering, Turning, Kept, Callable, Owes, Logged, Rests, Messages, Steps, WellShaped, Due, Suspending;
    TurningParts(f, m, a, n, calls);
    TurningOwes(f, m, a, n, calls);
  }

  /** The log right after the tool was called. */
  lemma AskedTool(f: Frame, m: Slice, a: int, n: int, calls: seq<ToolCall>) returns (asked: Slice)
    requires Turning(f, m, a, n, calls) && 0 <= n < |calls| && Callable(f, calls[n]) && f.env.ctxErr(m.clock) == {}
    requires calls[n].id != ""
    ensures var obs := ToolCalled(m.clock + 1, WithoutOverride(f.ctx), calls[n]);
      && asked == Observe(f.env, f.input, WithoutOverride(f.ctx), calls[n], Tick(m)).0
      && asked.trace == m.trace + [obs]
      && Kept(f, asked) && asked.clock == Due(f.env, asked.trace)
      && Answering(f.entry, asked, a, n, calls)
      && Steps(f, asked.trace) == m.state.step
  {
    hide Observe, Answering, Callable, Owes, Logged, Suspending, Mirror, ModelCalls, Grounded, WellShaped, Rests,
      Cancellation, AsksProperly, Recorded, Kept, Turning, Settles, Messages, Tracks;
    var ctx := WithoutOverride(f.ctx);
    var obs := ToolCalled(m.clock + 1, ctx, calls[n]);
    TurningParts(f, m, a, n, calls);
    AskIsGrounded(f, m, a, n, calls);
    TurningOwes(f, m, a, n, calls);
    TickAnswering(f.entry, m, a, n, calls);
    TraceAppend(m.trace, obs);
    ObservedReply(f, calls[n], Tick(m));
    ObserveKeeps(f.env, f.entry, f.input, ctx, Tick(m), a, n, calls);
    asked := Observe(f.env, f.input, ctx, calls[n], Tick(m)).0;
    AskKept(f, m, obs, asked);
  }

  lemma ShapedCall(f: Frame, m: Slice, a: int, n: int, calls: seq<ToolCall>)
    requires Answering(f.entry, m, a, n, calls) && 0 <= n < |calls| && WellShaped(calls)
    ensures calls[n].id != "" && calls[n].name != "" && 0 <= a < |m.state.messages|
    ensures m.state.id == f.entry.id != "" && m.state.step >= 0
  {
  }

  lemma NotedIsValid(f: Frame, log: seq<Obs>, result: ToolResult)
    requires f.entry.id != "" && Steps(f, log) >= 0 && result.callID != "" && result.name != ""
    ensures ValidateEvent(Noted(f, log, result)) == {}
  {
  }

  /** The log right after the answer to a call was published. */
  lemma NotedAnswer(f: Frame, m: Slice, a: int, n: int, calls: seq<ToolCall>, result: ToolResult)
    requires Kept(f, m) && Answering(f.entry, m, a, n, calls) && 0 <= n < |calls| && WellShaped(calls)
    requires result.callID == calls[n].id && result.name == calls[n].name
    requires Grounded(f, m.trace, Published(m.clock, Noted(f, m.trace, result)))
    requires Steps(f, m.trace) == m.state.step
    ensures var next := Record(f.env, m, result);
      && Answering(f.entry, next, a, n + 1, calls)
      && Kept(f, next) && next.clock == Due(f.env, next.trace)
      && next.trace == m.trace + [Published(m.clock, Noted(f, m.trace, result))]
      && |m.state.messages| > a >= 0 && next.state.messages == m.state.messages + [ToolResultMessage(result)]
  {
    hide Answering, Grounded, Kept, WellShaped, Logged, Mirror, ModelCalls, Suspending, Steps, ValidateEvent, Due;
    ShapedCall(f, m, a, n, calls);
    RecordAnswers(f.env, f.entry, m, a, n, calls, result);
    NotedIsValid(f, m.trace, result);
    PublishKept(f, m, Noted(f, m.trace, result), Append(m, ToolResultMessage(result)));
  }

  lemma LastGrounded(f: Frame, log: seq<Obs>)
    requires Logged(f, log) && log != []
    ensures Grounded(f, log[..|log| - 1], log[|log| - 1])
  {
  }

  lemma ReplyIsPublished(f: Frame, before: seq<Obs>, obs: Obs)
    requires Grounded(f, before, obs) && obs.Published? && before != [] && before[|before| - 1].ModelCalled?
    ensures var reply := f.env.model(before[|before| - 1].clock, before[|before| - 1].messages);
      reply.err == {} && MirrorOf(obs) == [reply.message.(role := Assistant)]
  {
    hide Rests, Owes, Callable, Steps, Messages;
  }

  /** A heard reply is the last message of the transcript. */
  lemma HeardIsLast(f: Frame, log: seq<Obs>)
    requires Logged(f, log) && |log| > 1 && log[|log| - 2].ModelCalled? && log[|log| - 1].Published?
    ensures var reply := f.env.model(log[|log| - 2].clock, log[|log| - 2].messages);
      && reply.err == {} && |Messages(f, log)| > |f.entry.messages|
      && Messages(f, log)[|Messages(f, log)| - 1] == reply.message.(role := Assistant)
  {
    hide Logged, Grounded, Mirror, MirrorOf;
    var before := log[..|log| - 1];
    assert log == before + [log[|log| - 1]];
    LastGrounded(f, log);
    ReplyIsPublished(f, before, log[|log| - 1]);
    TraceAppend(before, log[|log| - 1]);
  }

  /** Inside a turn a slice can only be interrupted by its context. */
  lemma TurningPauses(f: Frame, m: Slice, a: int, n: int, calls: seq<ToolCall>)
    requires Turning(f, m, a, n, calls)
    ensures EndingOf(f, m.trace) == Pause(f, m.trace)
    ensures n < |calls| ==> Pause(f, m.trace) == Cancels(f.env.ctxErr(m.clock))
  {
    hide Logged, Owes, Rests, Tracks, Turning, Answering, Settles, Kept, WellShaped, Suspending, Due, Messages, Steps,
      Cancellation, ReplayTarget, AsksProperly, RequiresProperly;
    TurningOwes(f, m, a, n, calls);
    TurningParts(f, m, a, n, calls);
    var log := m.trace;
    assert log[|log| - 1].Published? by { hide *; TurningPublished(f, m, a, n, calls); }
    if |log| > 1 && log[|log| - 2].ModelCalled? {
      KeptIsLogged(f, m);
      HeardIsLast(f, log);
      HeardOpens(f, m, a, n, calls);
    }
  }

  lemma TurningPublished(f: Frame, m: Slice, a: int, n: int, calls: seq<ToolCall>)
    requires Turning(f, m, a, n, calls)
    ensures m.trace[|m.trace| - 1].Published?
  {
  }

  /** Only the assistant message of the turn is an assistant's. */
  lemma HeardOpens(f: Frame, m: Slice, a: int, n: int, calls: seq<ToolCall>)
    requires Turning(f, m, a, n, calls)
    requires m.state.messages != [] && m.state.messages[|m.state.messages| - 1].role == Assistant
    ensures var message := m.state.messages[|m.state.messages| - 1];
      message.toolCalls == calls && message.requirement.None? && calls != [] && WellShaped(calls)
  {
    hide Tracks, Settles, WellShaped;
    assert a == |m.state.messages| - 1;
  }

  /** A call nobody can be asked for is answered and the turn goes on. */
  lemma RefusedCall(f: Frame, m: Slice, a: int, n: int, calls: seq<ToolCall>)
    requires Turning(f, m, a, n, calls) && 0 <= n < |calls| && !Callable(f, calls[n]) && f.env.ctxErr(m.clock) == {}
    ensures var p := CallStep(f.env, f.input, WithoutOverride(f.ctx), calls[n], m);
      p.Go? && Turning(f, p.slice, a, n + 1, calls)
  {
    hide Answering, Callable, Owes, Logged, Suspending, Mirror, ModelCalls, WellShaped, Rests, Kept, Turning, Settles,
      Messages, Tracks, Observe, Undefined, Due, Grounded, Steps;
    var result := ErrorResult(calls[n], if Undefined(f, calls[n]) then UnknownTool else InvalidArguments);
    TurningParts(f, m, a, n, calls);
    TurningOwes(f, m, a, n, calls);
    ShapedCall(f, m, a, n, calls);
    ObservedRefusal(f, calls[n], Tick(m));
    RefusalIsGrounded(f, m, calls[n]);
    TickAnswering(f.entry, m, a, n, calls);
    TickKept(f, m);
    NotedAnswer(f, Tick(m), a, n, calls, result);
    PublishedTwice(f, m, a, n, calls, Record(f.env, Tick(m), result));
  }

  lemma TickKept(f: Frame, m: Slice)
    requires Kept(f, m)
    ensures Kept(f, Tick(m))
  {
  }

  lemma RefusalIsGrounded(f: Frame, m: Slice, call: ToolCall)
    requires Settles(f, m) && m.trace != [] && f.env.ctxErr(m.clock) == {} && !Callable(f, call)
    requires Owes(f, Messages(f, m.trace), call)
    ensures var result := ErrorResult(call, if Undefined(f, call) then UnknownTool else InvalidArguments);
      Grounded(f, m.trace, Published(m.clock + 1, Noted(f, m.trace, result)))
  {
    hide Callable, Undefined, Owes, Kept, Messages, Steps, Suspending;
  }

  /** After two publishes in a row no suspend request is pending. */
  lemma PublishedTwice(f: Frame, m: Slice, a: int, n: int, calls: seq<ToolCall>, next: Slice)
    requires Turning(f, m, a, n, calls) && n < |calls|
    requires Answering(f.entry, next, a, n + 1, calls) && Kept(f, next) && next.clock == Due(f.env, next.trace)
    requires |next.trace| == |m.trace| + 1 && next.trace[..|m.trace|] == m.trace && next.trace[|m.trace|].Published?
    requires a < |m.state.messages| < |next.state.messages|
    requires next.state.messages[..|m.state.messages|] == m.state.messages
    ensures Turning(f, next, a, n + 1, calls)
  {
    assert next.trace[|next.trace| - 2] == m.trace[|m.trace| - 1];
    assert next.state.messages[a] == m.state.messages[a];
    hide Answering, Kept, WellShaped, Due;
  }

  lemma InterruptedEnding(f: Frame, before: seq<Obs>, call: ToolCall, clock: nat)
    requires before != []
    ensures var ctx := WithoutOverride(f.ctx);
      EndingOf(f, before + [ToolCalled(clock, ctx, call)])
      == Cancels(Cancellation(f.env, clock + 1, f.env.tool(clock, ctx, call).err))
  {
    hide Cancellation, Pause, ReplayTarget;
  }

  lemma AnsweringTracks(f: Frame, m: Slice, a: int, n: int, calls: seq<ToolCall>)
    requires Answering(f.entry, m, a, n, calls)
    ensures Tracks(f.entry, m, 0)
  {
  }

  /** A call whose tool was interrupted ends the slice. */
  lemma InterruptedCall(f: Frame, m: Slice, a: int, n: int, calls: seq<ToolCall>, asked: Slice, err: Errors)
    requires m.trace != [] && err != {} && 0 <= n < |calls|
    requires asked.trace == m.trace + [ToolCalled(m.clock + 1, WithoutOverride(f.ctx), calls[n])]
    requires Kept(f, asked) && Answering(f.entry, asked, a, n, calls)
    requires err == Cancellation(f.env, m.clock + 2, f.env.tool(m.clock + 1, WithoutOverride(f.ctx), calls[n]).err)
    ensures Explained(f, asked.trace, CancelRun(f.env, asked, err))
  {
    hide EndingOf, Ends, EndRun, Tracks, Logged, Cancellation, Kept, Answering, WellShaped, OverrideOf;
    InterruptedEnding(f, m.trace, calls[n], m.clock + 1);
    KeptIsLogged(f, asked);
    AnsweringTracks(f, asked, a, n, calls);
    EndRunEnds(f, asked, 0, Cancels(err));
  }

  lemma ReplyIsGrounded(f: Frame, m: Slice, call: ToolCall, asked: Slice)
    requires asked.trace == m.trace + [ToolCalled(m.clock + 1, WithoutOverride(f.ctx), call)]
    requires asked.clock == Due(f.env, asked.trace)
    requires var reply := f.env.tool(m.clock + 1, WithoutOverride(f.ctx), call);
      reply.err != {} ==> Cancellation(f.env, m.clock + 2, reply.err) == {}
    ensures var reply := f.env.tool(m.clock + 1, WithoutOverride(f.ctx), call);
      Grounded(f, asked.trace, Published(asked.clock, Noted(f, asked.trace, Recorded(call, reply))))
  {
    hide Recorded, Cancellation, Steps, Messages;
    assert asked.trace[|asked.trace| - 1] == ToolCalled(m.clock + 1, WithoutOverride(f.ctx), call);
  }

  /** A call that was handed to its tool and not interrupted: its answer is on the log. */
  lemma AnsweredCall(f: Frame, m: Slice, a: int, n: int, calls: seq<ToolCall>, asked: Slice) returns (noted: Slice)
    requires Turning(f, m, a, n, calls) && 0 <= n < |calls|
    requires asked.trace == m.trace + [ToolCalled(m.clock + 1, WithoutOverride(f.ctx), calls[n])]
    requires Kept(f, asked) && asked.clock == Due(f.env, asked.trace) && Answering(f.entry, asked, a, n, calls)
    requires Steps(f, asked.trace) == m.state.step && asked.state == m.state
    requires var reply := f.env.tool(m.clock + 1, WithoutOverride(f.ctx), calls[n]);
      reply.err != {} ==> Cancellation(f.env, m.clock + 2, reply.err) == {}
    ensures var reply := f.env.tool(m.clock + 1, WithoutOverride(f.ctx), calls[n]);
      && noted == Record(f.env, asked, Recorded(calls[n], reply))
      && Kept(f, noted) && noted.clock == Due(f.env, noted.trace)
      && |noted.trace| > 2 && noted.trace[|noted.trace| - 1].Published?
      && noted.trace[|noted.trace| - 2] == ToolCalled(m.clock + 1, WithoutOverride(f.ctx), calls[n])
      && Answering(f.entry, noted, a, n + 1, calls)
      && ((reply.err == {} || reply.suspend.None?) ==> Turning(f, noted, a, n + 1, calls))
  {
    hide Answering, Callable, Owes, Logged, Mirror, ModelCalls, Rests, Kept, Turning, Settles, Messages, Tracks, Due,
      Grounded, Steps, Cancellation, AsksProperly, WellShaped;
    var reply := f.env.tool(m.clock + 1, WithoutOverride(f.ctx), calls[n]);
    TurningParts(f, m, a, n, calls);
    ShapedCall(f, m, a, n, calls);
    ReplyIsGrounded(f, m, calls[n], asked);
    NotedAnswer(f, asked, a, n, calls, Recorded(calls[n], reply));
    noted := Record(f.env, asked, Recorded(calls[n], reply));
    if reply.err == {} || reply.suspend.None? {
      TurnGoesOn(f, m, a, n, calls, noted);
    }
  }

  lemma TurnGoesOn(f: Frame, m: Slice, a: int, n: int, calls: seq<ToolCall>, next: Slice)
    requires Turning(f, m, a, n, calls) && 0 <= n < |calls|
    requires Answering(f.entry, next, a, n + 1, calls) && Kept(f, next) && next.clock == Due(f.env, next.trace)
    requires !Suspending(f.env, next.trace) && next.trace != [] && next.trace[|next.trace| - 1].Published?
    requires a < |m.state.messages| < |next.state.messages|
    requires next.state.messages[..|m.state.messages|] == m.state.messages
    ensures Turning(f, next, a, n + 1, calls)
  {
    assert next.state.messages[a] == m.state.messages[a];
    hide Answering, Kept, WellShaped, Due, Suspending;
  }

  /** A suspend request ends the slice: suspended, or failed when the request is not a proper one. */
  lemma SuspendingCall(f: Frame, m: Slice, a: int, n: int, calls: seq<ToolCall>, noted: Slice)
    requires 0 <= n < |calls| && calls[n].id != ""
    requires Kept(f, noted) && Answering(f.entry, noted, a, n + 1, calls)
    requires |noted.trace| > 2 && noted.trace[|noted.trace| - 1].Published?
    requires noted.trace[|noted.trace| - 2] == ToolCalled(m.clock + 1, WithoutOverride(f.ctx), calls[n])
    requires var reply := f.env.tool(m.clock + 1, WithoutOverride(f.ctx), calls[n]);
      reply.err != {} && reply.suspend.Some?
    ensures var request := f.env.tool(m.clock + 1, WithoutOverride(f.ctx), calls[n]).suspend.value;
      Explained(f, noted.trace,
        if AsksProperly(calls[n], request)
        then Suspend(f.env, noted, request.requirement.value.(toolCallID := calls[n].id))
        else FailRun(f.env, noted, {ErrRunStateInvalid}))
  {
    var request := f.env.tool(m.clock + 1, WithoutOverride(f.ctx), calls[n]).suspend.value;
    assert Tracks(f.entry, noted, 0);
    hide Answering, Logged, Tracks, Kept, Mirror, ModelCalls, EndRun, Suspend;
    assert Suspending(f.env, noted.trace);
    if AsksProperly(calls[n], request) {
      SuspendEnds(f, noted, request.requirement.value.(toolCallID := calls[n].id));
    } else {
      EndRunEnds(f, noted, 0, Fails({ErrRunStateInvalid}));
    }
    KeptIsLogged(f, noted);
  }

  lemma KeptIsLogged(f: Frame, m: Slice)
    requires Kept(f, m)
    ensures Logged(f, m.trace)
  {
  }

  /** A call that is handed to its tool. */
  lemma MadeCall(f: Frame, m: Slice, a: int, n: int, calls: seq<ToolCall>) returns (log: seq<Obs>)
    requires Turning(f, m, a, n, calls) && 0 <= n < |calls| && Callable(f, calls[n]) && f.env.ctxErr(m.clock) == {}
    ensures var p := CallStep(f.env, f.input, WithoutOverride(f.ctx), calls[n], m);
      if p.Go? then Turning(f, p.slice, a, n + 1, calls) else Explained(f, log, p.outcome)
  {
    hide Answering, Callable, Owes, Logged, Mirror, ModelCalls, Rests, Kept, Turning, Settles, Messages, Tracks, Due,
      Grounded, Steps, Cancellation, AsksProperly, WellShaped, Observe, Recorded, Record, FillIdentity, Suspend, EndRun,
      Explained, Suspending;
    TurningParts(f, m, a, n, calls);
    ShapedCall(f, m, a, n, calls);
    TurningOwes(f, m, a, n, calls);
    var asked := AskedTool(f, m, a, n, calls);
    var reply := f.env.tool(m.clock + 1, WithoutOverride(f.ctx), calls[n]);
    ObservedReply(f, calls[n], Tick(m));
    var cancelled := Cancellation(f.env, m.clock + 2, reply.err);
    log := asked.trace;
    if reply.err != {} && cancelled != {} {
      InterruptedCall(f, m, a, n, calls, asked, cancelled);
    } else {
      var noted := AnsweredCall(f, m, a, n, calls, asked);
      log := noted.trace;
      if reply.err != {} && reply.suspend.Some? {
        SuspendingCall(f, m, a, n, calls, noted);
      }
    }
  }

  lemma CallStepExplained(f: Frame, m: Slice, a: int, n: int, calls: seq<ToolCall>) returns (log: seq<Obs>)
    requires Turning(f, m, a, n, calls) && 0 <= n < |calls|
    ensures var p := CallStep(f.env, f.input, WithoutOverride(f.ctx), calls[n], m);
      if p.Go? then Turning(f, p.slice, a, n + 1, calls) else Explained(f, log, p.outcome)
  {
    if f.env.ctxErr(m.clock) != {} {
      log := m.trace;
      TurningPauses(f, m, a, n, calls);
      TickedTracks(f, m, a, n, calls);
      EndRunEnds(f, Tick(m), 0, Cancels(f.env.ctxErr(m.clock)));
      hide Turning, Ends, EndRun, Pause, EndingOf, Kept, Tracks;
      KeptIsLogged(f, Tick(m));
    } else if Callable(f, calls[n]) {
      log := MadeCall(f, m, a, n, calls);
    } else {
      log := m.trace;
      RefusedCall(f, m, a, n, calls);
    }
  }

  lemma TickedTracks(f: Frame, m: Slice, a: int, n: int, calls: seq<ToolCall>)
    requires Turning(f, m, a, n, calls)
    ensures Kept(f, Tick(m)) && Tracks(f.entry, Tick(m), 0)
  {
  }

  lemma {:induction false} CallLoopExplained(f: Frame, m: Slice, a: int, n: nat, calls: seq<ToolCall>)
    returns (log: seq<Obs>)
    requires Turning(f, m, a, n, calls) && n <= |calls|
    ensures var p := CallLoop(f.env, f.input, WithoutOverride(f.ctx), calls, n, m);
      if p.Go? then Turning(f, p.slice, a, |calls|, calls) else Explained(f, log, p.outcome)
    decreases |calls| - n
  {
    hide Turning, CallStep, Explained;
    log := m.trace;
    if n < |calls| {
      log := CallStepExplained(f, m, a, n, calls);
      var p := CallStep(f.env, f.input, WithoutOverride(f.ctx), calls[n], m);
      if p.Go? {
        log := CallLoopExplained(f, p.slice, a, n + 1, calls);
      }
    }
  }

  // ---------------------------------------------------------------- one model step

  /** Between two turns. */
  ghost predicate Resting(f: Frame, m: Slice) {
    && Steady(f.entry, m)
    && Settles(f, m)
    && Rests(f, m.state.messages)
    && EndingOf(f, m.trace) == Pause(f, m.trace)
  }

  lemma RestingParts(f: Frame, m: Slice)
    requires Resting(f, m)
    ensures Kept(f, m) && Kept(f, Tick(m)) && m.clock == Due(f.env, m.trace) && !Suspending(f.env, m.trace)
    ensures m.trace != [] ==> m.trace[|m.trace| - 1].Published?
    ensures Steady(f.entry, m) && Tracks(f.entry, m, 0) && Tracks(f.entry, Tick(m), 0)
    ensures Messages(f, m.trace) == m.state.messages && Steps(f, m.trace) == m.state.step
    ensures Rests(f, m.state.messages) && EndingOf(f, m.trace) == Pause(f, m.trace)
    ensures m.state.id == f.entry.id != "" && m.state.step >= 0 && m.state.version >= 0
    ensures m.state.status == Running && m.state.pendingRequirement.None?
  {
    hide Logged, Rests, EndingOf, Pause, Due, Suspending, Mirror, ModelCalls, AssistantCount;
  }

  /** The log right after the model was asked. */
  lemma AskedModel(f: Frame, m: Slice)
    requires Resting(f, m) && m.state.step < Budget(f.input) && f.env.ctxErr(m.clock) == {}
    ensures var asked := AskModel(Tick(m));
      && Kept(f, asked) && Tracks(f.entry, asked, 1)
      && asked.trace == m.trace + [ModelCalled(m.clock + 1, m.state.messages)]
      && asked.clock == Due(f.env, asked.trace)
      && Messages(f, asked.trace) == m.state.messages && Steps(f, asked.trace) == m.state.step + 1
  {
    hide Resting, Steady, Kept, Tracks, Suspending, Rests, Logged, Mirror, ModelCalls, EndingOf, Pause;
    RestingParts(f, m);
    var obs := ModelCalled(m.clock + 1, m.state.messages);
    TraceAppend(m.trace, obs);
    AskTracks(f.entry, Tick(m));
    AskKept(f, m, obs, AskModel(Tick(m)));
  }

  /** A model call that failed ends the slice by its cause. */
  lemma BrokenReply(f: Frame, m: Slice)
    requires Resting(f, m) && m.state.step < Budget(f.input) && f.env.ctxErr(m.clock) == {}
    requires f.env.model(m.clock + 1, m.state.messages).err != {}
    ensures var asked := AskModel(Tick(m));
      Explained(f, asked.trace, CancelOrFail(f.env, asked, f.env.model(m.clock + 1, m.state.messages).err))
  {
    hide Resting, Kept, Tracks, Logged, Messages, Steps, Ends, EndRun;
    AskedModel(f, m);
    var asked := AskModel(Tick(m));
    BrokenOffEnds(f, asked, 1, f.env.model(m.clock + 1, m.state.messages).err);
    KeptIsLogged(f, asked);
  }

  /** CancelOrFail ends a slice the way `Broken` says. */
  lemma BrokenOffEnds(f: Frame, m: Slice, lag: nat, err: Errors)
    requires Kept(f, m) && Tracks(f.entry, m, lag) && err != {}
    ensures Ends(f, m.trace, Broken(f.env, m.clock, err), CancelOrFail(f.env, m, err))
  {
    TickedKept(f, m, lag);
    hide Kept, Tracks, Ends, EndRun, Cancellation, CancellationError;
    CancellationMeans(f.env, m.clock, err);
    EndRunEnds(f, Tick(m), lag, Broken(f.env, m.clock, err));
  }

  lemma TickedKept(f: Frame, m: Slice, lag: nat)
    requires Kept(f, m) && Tracks(f.entry, m, lag)
    ensures Kept(f, Tick(m)) && Tracks(f.entry, Tick(m), lag)
  {
  }

  /** The log right after the model's reply was published. */
  lemma HeardReply(f: Frame, m: Slice) returns (heard: Slice, assistant: Message)
    requires Resting(f, m) && m.state.step < Budget(f.input) && f.env.ctxErr(m.clock) == {}
    requires SpeaksAsAssistant(f.env) && f.env.model(m.clock + 1, m.state.messages).err == {}
    ensures assistant == f.env.model(m.clock + 1, m.state.messages).message.(role := Assistant)
    ensures assistant == Spoken(f.env.model(m.clock + 1, m.state.messages).message)
    ensures heard == Hear(f.env, AskModel(Tick(m)), assistant)
    ensures Kept(f, heard) && heard.clock == Due(f.env, heard.trace)
    ensures Answering(f.entry, heard, |m.state.messages|, 0, assistant.toolCalls)
    ensures heard.state.messages == m.state.messages + [assistant]
    ensures |heard.trace| > 1 && heard.trace[|heard.trace| - 2] == ModelCalled(m.clock + 1, m.state.messages)
    ensures heard.trace[|heard.trace| - 1].Published? && Steps(f, heard.trace) == heard.state.step
  {
    hide Resting, Steady, Kept, Tracks, Suspending, Rests, Logged, Mirror, EndingOf, Pause, ModelCalls, Due, Answering;
    var reply := f.env.model(m.clock + 1, m.state.messages);
    assistant := Spoken(reply.message);
    assert assistant == reply.message.(role := Assistant);
    RestingParts(f, m);
    AskedModel(f, m);
    TickSteady(f.entry, m);
    TurnOpens(f.env, f.entry, Tick(m), assistant);
    var asked := AskModel(Tick(m));
    var event := Said(f, asked.trace, reply.message);
    TraceAppend(asked.trace, Published(asked.clock, event));
    ReplyGrounded(f, m, asked, reply);
    PublishKept(f, asked, event, Append(asked, assistant));
    heard := Hear(f.env, asked, assistant);
  }

  lemma ReplyGrounded(f: Frame, m: Slice, asked: Slice, reply: ModelReply)
    requires asked.trace == m.trace + [ModelCalled(m.clock + 1, m.state.messages)]
    requires asked.clock == Due(f.env, asked.trace)
    requires reply == f.env.model(m.clock + 1, m.state.messages) && reply.err == {}
    requires f.entry.id != "" && Steps(f, asked.trace) >= 0
    ensures var event := Said(f, asked.trace, reply.message);
      ValidateEvent(event) == {} && Grounded(f, asked.trace, Published(asked.clock, event))
  {
    assert asked.trace[|asked.trace| - 1] == ModelCalled(m.clock + 1, m.state.messages);
    hide Steps, Messages;
  }

  lemma {:induction false} ShapeErrIsOne(calls: seq<ToolCall>, i: nat)
    requires i <= |calls|
    ensures ShapeErr(calls, i) == {} || ShapeErr(calls, i) == {ErrToolCallInvalid}
    ensures WellShaped(calls) ==> ShapeErr(calls, i) == {}
    decreases |calls| - i
  {
    if i < |calls| {
      ShapeErrIsOne(calls, i + 1);
      assert forall j | 0 <= j < i :: calls[..i][j] == calls[j];
    }
  }

  lemma ShapeMeans(calls: seq<ToolCall>)
    ensures ShapeErr(calls, 0) == if WellShaped(calls) then {} else {ErrToolCallInvalid}
  {
    ShapeErrIsOne(calls, 0);
    if ShapeErr(calls, 0) == {} {
      assert WellShaped(calls[..0]);
      ShapeOK(calls, 0);
    }
  }

  lemma ModelRequirementMeans(state: RunState, r: PendingRequirement)
    requires state.id != "" && state.step >= 0 && state.version >= 0
    ensures ValidateModelRequirement(state, r) == if RequiresProperly(r) then {} else {ErrRunStateInvalid}
    ensures RequiresProperly(r) ==> ValidatePendingRequirement(Some(r)) == {}
  {
  }

  /** What the log of a heard reply says about the end. */
  lemma HeardEnding(f: Frame, m: Slice, heard: Slice, assistant: Message)
    requires |heard.trace| > 1 && heard.trace[|heard.trace| - 2] == ModelCalled(m.clock + 1, m.state.messages)
    requires heard.trace[|heard.trace| - 1].Published?
    requires assistant == f.env.model(m.clock + 1, m.state.messages).message.(role := Assistant)
    ensures EndingOf(f, heard.trace) == AfterReply(f, heard.trace, assistant)
  {
    hide Pause;
  }

  /** A reply that asks for tools properly opens a turn; any other reply ends the slice. */
  lemma ActExplained(f: Frame, m: Slice, heard: Slice, assistant: Message) returns (log: seq<Obs>)
    requires Kept(f, heard) && heard.clock == Due(f.env, heard.trace)
    requires Answering(f.entry, heard, |heard.state.messages| - 1, 0, assistant.toolCalls)
    requires heard.state.messages != [] && heard.state.messages[|heard.state.messages| - 1] == assistant
    requires |heard.trace| > 1 && heard.trace[|heard.trace| - 2] == ModelCalled(m.clock + 1, m.state.messages)
    requires heard.trace[|heard.trace| - 1].Published?
    requires assistant == f.env.model(m.clock + 1, m.state.messages).message.(role := Assistant)
    ensures var p := Act(f.env, f.input, WithoutOverride(f.ctx), assistant, heard);
      if p.Go? then
        Turning(f, p.slice, |heard.state.messages| - 1, |assistant.toolCalls|, assistant.toolCalls)
      else Explained(f, log, p.outcome)
  {
    hide Answering, Logged, Kept, Tracks, Ends, EndRun, Suspend, Complete, EndingOf, WellShaped, Due, AfterReply,
      ValidateModelRequirement, ValidatePendingRequirement, RequiresProperly, CallLoop, ShapeErr, Turning, Suspending;
    log := heard.trace;
    var calls := assistant.toolCalls;
    AnsweringRuns(f, heard, |heard.state.messages| - 1, calls);
    if assistant.requirement.None? && calls != [] && WellShaped(calls) {
      ShapeMeans(calls);
      TurnBegins(f, m, heard, assistant);
      log := CallLoopExplained(f, heard, |heard.state.messages| - 1, 0, calls);
    } else {
      HeardEnding(f, m, heard, assistant);
      KeptIsLogged(f, heard);
      ReplyEnds(f, heard, assistant);
    }
  }

  lemma TurnBegins(f: Frame, m: Slice, heard: Slice, assistant: Message)
    requires Kept(f, heard) && heard.clock == Due(f.env, heard.trace)
    requires Answering(f.entry, heard, |heard.state.messages| - 1, 0, assistant.toolCalls)
    requires heard.state.messages != [] && heard.state.messages[|heard.state.messages| - 1] == assistant
    requires |heard.trace| > 1 && heard.trace[|heard.trace| - 2] == ModelCalled(m.clock + 1, m.state.messages)
    requires heard.trace[|heard.trace| - 1].Published?
    requires assistant.requirement.None? && assistant.toolCalls != [] && WellShaped(assistant.toolCalls)
    ensures Turning(f, heard, |heard.state.messages| - 1, 0, assistant.toolCalls)
  {
    hide Answering, Kept, WellShaped, Due;
  }

  lemma AnsweringRuns(f: Frame, m: Slice, a: int, calls: seq<ToolCall>)
    requires Answering(f.entry, m, a, 0, calls)
    ensures Tracks(f.entry, m, 0) && m.state.id != "" && m.state.step >= 0 && m.state.version >= 0
  {
  }

  lemma ReplyEnds(f: Frame, heard: Slice, assistant: Message)
    requires Kept(f, heard) && Tracks(f.entry, heard, 0)
    requires heard.state.id != "" && heard.state.step >= 0 && heard.state.version >= 0
    requires assistant.requirement.Some? || assistant.toolCalls == [] || !WellShaped(assistant.toolCalls)
    ensures var p := Act(f.env, f.input, WithoutOverride(f.ctx), assistant, heard);
      p.Stop? && Ends(f, heard.trace, AfterReply(f, heard.trace, assistant), p.outcome)
  {
    hide Kept, Tracks, Ends, EndRun, Suspend, Complete, WellShaped, ValidateModelRequirement,
      ValidatePendingRequirement, RequiresProperly, CallLoop, ShapeErr;
    ShapeMeans(assistant.toolCalls);
    if assistant.requirement.Some? {
      ModelRequirementMeans(heard.state, assistant.requirement.value);
      if assistant.toolCalls != [] {
        EndRunEnds(f, heard, 0, Fails({ErrOther}));
      } else if RequiresProperly(assistant.requirement.value) {
        SuspendEnds(f, heard, assistant.requirement.value);
      } else {
        EndRunEnds(f, heard, 0, Fails({ErrRunStateInvalid}));
      }
    } else if assistant.toolCalls == [] {
      CompleteEnds(f, heard, assistant.content);
    } else {
      EndRunEnds(f, heard, 0, Fails({ErrToolCallInvalid}));
    }
  }

  lemma ClosedTurnRests(f: Frame, m: Slice, a: int, calls: seq<ToolCall>)
    requires Turning(f, m, a, |calls|, calls)
    ensures Resting(f, m)
  {
    hide Logged, Mirror, ModelCalls, Pause, EndingOf, Due, Kept, Rests, Suspending, WellShaped;
    TurningOwes(f, m, a, |calls|, calls);
    TurningPauses(f, m, a, |calls|, calls);
    ClosedTurnIsSteady(f.entry, m, a, calls);
  }

  lemma TurnExplained(f: Frame, m: Slice) returns (log: seq<Obs>)
    requires SpeaksAsAssistant(f.env)
    requires Resting(f, m) && m.state.step < Budget(f.input) && f.env.ctxErr(m.clock) == {}
    ensures var p := Turn(f.env, f.input, WithoutOverride(f.ctx), Tick(m));
      if p.Go? then Resting(f, p.slice) else Explained(f, log, p.outcome)
  {
    hide Resting, Explained, Turning, Kept, Answering, Act, Hear, AskModel, CancelOrFail, SpeaksAsAssistant, Due, Steps;
    if f.env.model(m.clock + 1, m.state.messages).err != {} {
      BrokenReply(f, m);
      log := AskModel(Tick(m)).trace;
    } else {
      var heard, assistant := HeardReply(f, m);
      log := ActExplained(f, m, heard, assistant);
      var p := Act(f.env, f.input, WithoutOverride(f.ctx), assistant, heard);
      if p.Go? {
        ClosedTurnRests(f, p.slice, |m.state.messages|, assistant.toolCalls);
      }
    }
  }

  lemma PauseExplained(f: Frame, m: Slice)
    requires Resting(f, m)
    ensures m.state.step >= Budget(f.input) ==> Explained(f, m.trace, ExhaustRun(f.env, m))
    ensures m.state.step < Budget(f.input) && f.env.ctxErr(m.clock) != {} ==>
      Explained(f, m.trace, CancelRun(f.env, Tick(m), f.env.ctxErr(m.clock)))
  {
    hide Resting, Kept, Tracks, Ends, EndRun, Rests, Due, Messages, Steps, Suspending, EndingOf, Logged;
    RestingParts(f, m);
    KeptIsLogged(f, m);
    if m.state.step >= Budget(f.input) {
      EndRunEnds(f, m, 0, Exhausts);
    } else if f.env.ctxErr(m.clock) != {} {
      EndRunEnds(f, Tick(m), 0, Cancels(f.env.ctxErr(m.clock)));
    }
  }

  lemma {:induction false} LoopExplained(f: Frame, m: Slice) returns (log: seq<Obs>)
    requires SpeaksAsAssistant(f.env) && Resting(f, m)
    ensures Explained(f, log, Loop(f.env, f.input, Limit(f.input), WithoutOverride(f.ctx), m))
    decreases Limit(f.input) - m.state.step
  {
    hide Resting, Explained, Turn, ExhaustRun, CancelRun, SpeaksAsAssistant;
    log := m.trace;
    PauseExplained(f, m);
    if m.state.step < Limit(f.input) && f.env.ctxErr(m.clock) == {} {
      log := TurnExplained(f, m);
      var p := Turn(f.env, f.input, WithoutOverride(f.ctx), Tick(m));
      if p.Go? {
        log := LoopExplained(f, p.slice);
      }
    }
  }

  // ---------------------------------------------------------------- replay and whole slices

  /** The slice when it starts. */
  function Opening(f: Frame): Slice {
    Slice(f.entry, 0, {}, [])
  }

  lemma OpeningRests(f: Frame)
    requires Steady(f.entry, Opening(f)) && ReplayTarget(f.ctx, f.entry, f.input).NoReplay?
    ensures Resting(f, Opening(f))
  {
    hide Pause, ReplayTarget;
    assert f.entry.messages + [] == f.entry.messages;
  }

  lemma RefusalExplained(f: Frame, err: Errors)
    requires Steady(f.entry, Opening(f)) && ReplayTarget(f.ctx, f.entry, f.input) == ReplayRefused(err) && err != {}
    ensures Explained(f, [], FailRun(f.env, Opening(f), err))
  {
    hide ReplayTarget;
    EndRunEnds(f, Opening(f), 0, Fails(err));
  }

  lemma ReplayAsked(f: Frame, call: ToolCall, clock: nat)
    requires Steady(f.entry, Opening(f)) && ReplayTarget(f.ctx, f.entry, f.input) == Replay(call)
    ensures var asked := Slice(f.entry, clock, {}, [ToolCalled(0, f.ctx, call)]);
      Kept(f, asked) && Tracks(f.entry, asked, 0) && Steps(f, asked.trace) == f.entry.step
  {
    hide ReplayTarget;
    ToolCallTracks(f.entry, Opening(f), f.ctx, call, clock);
    TraceAppend([], ToolCalled(0, f.ctx, call));
    assert [] + [ToolCalled(0, f.ctx, call)] == [ToolCalled(0, f.ctx, call)];
    AskKept(f, Opening(f), ToolCalled(0, f.ctx, call), Slice(f.entry, clock, {}, [ToolCalled(0, f.ctx, call)]));
  }

  /** A replay that is not interrupted leaves its answer and the loop goes on. */
  lemma ReplayRests(f: Frame, call: ToolCall)
    requires Steady(f.entry, Opening(f)) && ReplayTarget(f.ctx, f.entry, f.input) == Replay(call)
    requires call.id != "" && call.name != "" && f.entry.id != "" && f.entry.step >= 0
    requires var reply := f.env.tool(0, f.ctx, call);
      reply.err != {} ==> Cancellation(f.env, 1, reply.err) == {} && reply.suspend.None?
    requires var reply := f.env.tool(0, f.ctx, call);
      var asked := Slice(f.entry, if reply.err == {} then 1 else 2, {}, [ToolCalled(0, f.ctx, call)]);
      Steady(f.entry, Record(f.env, asked, Recorded(call, reply)))
    ensures var reply := f.env.tool(0, f.ctx, call);
      var asked := Slice(f.entry, if reply.err == {} then 1 else 2, {}, [ToolCalled(0, f.ctx, call)]);
      Resting(f, Record(f.env, asked, Recorded(call, reply)))
  {
    hide Steady, ReplayTarget, Recorded, Grounded, Kept, Pause, Tracks, Cancellation, Steps, Record, EndingOf, Rests,
      Suspending, Resting, Settles, Messages;
    var reply := f.env.tool(0, f.ctx, call);
    var asked := Slice(f.entry, if reply.err == {} then 1 else 2, {}, [ToolCalled(0, f.ctx, call)]);
    ReplayAsked(f, call, asked.clock);
    ReplyToReplay(f, call, asked);
    RecordedNamed(call, reply);
    ReplayNoted(f, call, asked, Recorded(call, reply));
    ReplayPauses(f, call, Record(f.env, asked, Recorded(call, reply)));
  }

  lemma RecordedNamed(call: ToolCall, reply: ToolReply)
    ensures Recorded(call, reply).callID == call.id && Recorded(call, reply).name == call.name
  {
  }

  lemma ReplyToReplay(f: Frame, call: ToolCall, asked: Slice)
    requires asked.trace == [ToolCalled(0, f.ctx, call)] && asked.clock == Due(f.env, asked.trace)
    requires var reply := f.env.tool(0, f.ctx, call);
      reply.err != {} ==> Cancellation(f.env, 1, reply.err) == {}
    ensures var event := Noted(f, asked.trace, Recorded(call, f.env.tool(0, f.ctx, call)));
      Grounded(f, asked.trace, Published(asked.clock, event))
  {
    hide Recorded, Cancellation, Steps, Messages;
  }

  lemma ReplayNoted(f: Frame, call: ToolCall, asked: Slice, result: ToolResult)
    requires asked.trace == [ToolCalled(0, f.ctx, call)] && asked.state == f.entry
    requires Kept(f, asked) && f.entry.id != "" && Steps(f, asked.trace) == f.entry.step >= 0
    requires Grounded(f, asked.trace, Published(asked.clock, Noted(f, asked.trace, result)))
    requires result.callID != "" && result.name != ""
    ensures var next := Record(f.env, asked, result);
      && Kept(f, next) && next.clock == Due(f.env, next.trace)
      && next.trace == [asked.trace[0], Published(asked.clock, Noted(f, asked.trace, result))]
      && next.state.messages == f.entry.messages + [ToolResultMessage(result)]
  {
    hide Grounded, Kept, Steps, ValidateEvent, Due;
    NotedIsValid(f, asked.trace, result);
    PublishKept(f, asked, Noted(f, asked.trace, result), Append(asked, ToolResultMessage(result)));
  }

  lemma ReplayPauses(f: Frame, call: ToolCall, m: Slice)
    requires Steady(f.entry, m) && Kept(f, m) && m.clock == Due(f.env, m.trace)
    requires |m.trace| == 2 && m.trace[0] == ToolCalled(0, f.ctx, call) && m.trace[1].Published?
    requires var reply := f.env.tool(0, f.ctx, call); reply.err != {} ==> reply.suspend.None?
    requires |m.state.messages| == |f.entry.messages| + 1
    requires m.state.messages[..|f.entry.messages|] == f.entry.messages
    requires m.state.messages[|f.entry.messages|].role == Tool
    ensures Resting(f, m)
  {
    hide Steady, Kept, Due, Pause, ReplayTarget;
  }

  lemma ReplayExplained(f: Frame, call: ToolCall) returns (log: seq<Obs>)
    requires Steady(f.entry, Opening(f)) && ReplayTarget(f.ctx, f.entry, f.input) == Replay(call)
    requires call.id != "" && call.name != "" && DeclaredBefore(f.entry.messages, |f.entry.messages|, call.id)
    requires f.entry.id != "" && f.entry.step >= 0
    requires f.entry.messages != [] && f.entry.messages[|f.entry.messages| - 1].role == User
    ensures var p := ReplayStep(f.env, f.ctx, call, Opening(f));
      if p.Go? then Resting(f, p.slice) else Explained(f, log, p.outcome)
  {
    hide Steady, ReplayTarget, Recorded, Grounded, Kept, Pause, Tracks, Resting, Cancellation, CancellationError,
      CancelOrFail, Ends, Logged, DeclaredBefore, Record, FillIdentity, IdentityOK, Steps, ErrorResult;
    var reply := f.env.tool(0, f.ctx, call);
    log := [ToolCalled(0, f.ctx, call)];
    assert [] + log == log;
    var last := ReplayLaw(f.env, f.ctx, call, f.entry, Opening(f));
    CancellationMeans(f.env, 1, reply.err);
    ReplayAsked(f, call, 2);
    var asked := Slice(f.entry, 2, {}, log);
    KeptIsLogged(f, asked);
    if reply.err == {} {
      RecordedMeans(call, reply);
      ReplayRests(f, call);
    } else if Cancellation(f.env, 1, reply.err) != {} {
      BrokenOffEnds(f, asked, 0, Cancellation(f.env, 1, reply.err));
    } else if reply.suspend.Some? {
      BrokenOffEnds(f, asked, 0, {ErrRunStateInvalid});
    } else {
      FailedIsRecorded(call, reply);
      ReplayRests(f, call);
    }
  }

  lemma FailedIsRecorded(call: ToolCall, reply: ToolReply)
    requires reply.err != {} && reply.suspend.None?
    ensures Recorded(call, reply) == ErrorResult(call, ExecutorError)
  {
  }

  /** Every slice has a log that accounts for all it did, and ends the way that log says. */
  lemma SliceExplained(env: Oracles, ctx: Context, state: RunState, input: Input) returns (log: seq<Obs>)
    requires SpeaksAsAssistant(env) && Handed(state) && NamedTarget(ctx, state, input)
    ensures Logged(FrameOf(env, ctx, state, input), log)
    ensures Ends(FrameOf(env, ctx, state, input), log, EndingOf(FrameOf(env, ctx, state, input), log),
                 Execution(env, ctx, state, input))
  {
    hide Steady, ReplayStep, Loop, ReplayTarget, Healthy, EndRun, SpeaksAsAssistant, Resting, Logged, Ends, EndingOf,
      DeclaredBefore;
    var f := FrameOf(env, ctx, state, input);
    var last, lag := ExecutionLaw(env, ctx, state, input);
    EnterSteady(state, input);
    TargetIsDeclared(ctx, f.entry, input);
    RefusalHasCause(ctx, f.entry, input);
    match ReplayTarget(ctx, f.entry, input) {
      case ReplayRefused(err) =>
        log := [];
        RefusalExplained(f, err);
      case NoReplay =>
        OpeningRests(f);
        log := LoopExplained(f, Opening(f));
      case Replay(call) =>
        log := ReplayExplained(f, call);
        var p := ReplayStep(env, ctx, call, Opening(f));
        if p.Go? {
          log := LoopExplained(f, p.slice);
        }
    }
  }

  // ---------------------------------------------------------------- what replies leave on the transcript

  /** The message an answered question leaves: the model's own, or the result of the tool. */
  function Leaves(f: Frame, obs: Obs): Message
    requires !obs.Published?
  {
    match obs
    case ModelCalled(clock, messages) => f.env.model(clock, messages).message.(role := Assistant)
    case ToolCalled(clock, ctx, call) =>
      var result := Recorded(call, f.env.tool(clock, ctx, call));
      Message(Tool, result.content, call.name, call.id, [], None)
  }

  /** Every question that was answered is followed by its message on the transcript, and by nothing else. */
  lemma RepliesStand(f: Frame, log: seq<Obs>, k: nat)
    requires Logged(f, log) && k + 1 < |log| && !log[k].Published?
    ensures Messages(f, log[..k + 2]) == Messages(f, log[..k]) + [Leaves(f, log[k])]
    ensures log[k + 1].Published?
  {
    hide Logged, Mirror, Grounded, Leaves, MirrorOf;
    GroundedAt(f, log, k + 1);
    var asked := log[..k + 1];
    assert asked == log[..k] + [log[k]] && log[..k + 2] == asked + [log[k + 1]];
    TraceAppend(log[..k], log[k]);
    TraceAppend(asked, log[k + 1]);
    AnswerPublished(f, asked, log[k + 1]);
    QuestionsSayNothing(log[k]);
  }

  lemma GroundedAt(f: Frame, log: seq<Obs>, k: nat)
    requires Logged(f, log) && k < |log|
    ensures Grounded(f, log[..k], log[k])
  {
  }

  lemma QuestionsSayNothing(obs: Obs)
    requires !obs.Published?
    ensures MirrorOf(obs) == []
  {
  }

  lemma AnswerPublished(f: Frame, before: seq<Obs>, obs: Obs)
    requires Grounded(f, before, obs) && before != [] && !before[|before| - 1].Published?
    ensures obs.Published? && MirrorOf(obs) == [Leaves(f, before[|before| - 1])]
  {
    hide Mirror, ModelCalls, AsksProperly, Rests, Owes, Callable, Steps, Messages, Suspending, Cancellation;
  }

  // ---------------------------------------------------------------- which end a slice has

  /** The model's reply was the last thing that happened. */
  predicate HeardLast(log: seq<Obs>) {
    |log| > 1 && log[|log| - 2].ModelCalled? && log[|log| - 1].Published?
  }

  function LastReply(f: Frame, log: seq<Obs>): Message
    requires HeardLast(log)
  {
    f.env.model(log[|log| - 2].clock, log[|log| - 2].messages).message
  }

  function LastToolReply(f: Frame, log: seq<Obs>): ToolReply
    requires |log| > 1 && log[|log| - 2].ToolCalled?
  {
    f.env.tool(log[|log| - 2].clock, log[|log| - 2].ctx, log[|log| - 2].call)
  }

  /** No question waits for its answer, no suspend request was made, and no replay was refused. */
  predicate Unhindered(f: Frame, log: seq<Obs>) {
    && !Suspending(f.env, log)
    && if log == [] then !ReplayTarget(f.ctx, f.entry, f.input).ReplayRefused? else log[|log| - 1].Published?
  }

  /** The cancellation behind a failed model call. */
  function Breaks(env: Oracles, obs: Obs): Errors
    requires obs.ModelCalled?
  {
    Cancellation(env, obs.clock + 1, env.model(obs.clock, obs.messages).err)
  }

  /** The cancellation behind a failed replay, which is looked for twice. */
  function BreaksReplay(env: Oracles, obs: Obs): Errors
    requires obs.ToolCalled?
  {
    var first := Cancellation(env, obs.clock + 1, env.tool(obs.clock, obs.ctx, obs.call).err);
    Cancellation(env, obs.clock + 2, if first != {} then first else {ErrRunStateInvalid})
  }

  /** After a reply the turn is open, or there is none. */
  lemma HeardOwes(f: Frame, log: seq<Obs>)
    requires Logged(f, log) && HeardLast(log)
    ensures !Rests(f, Messages(f, log))
  {
    hide Logged, Rests, Mirror, Messages;
    HeardIsLast(f, log);
    SpeechIsNoRest(f, Messages(f, log));
  }

  lemma SpeechIsNoRest(f: Frame, messages: seq<Message>)
    requires |messages| > |f.entry.messages| && messages[|messages| - 1].role == Assistant
    ensures !Rests(f, messages)
  {
    hide WellShaped;
  }

  lemma RepliesEnd(f: Frame, log: seq<Obs>)
    ensures var ending := EndingOf(f, log);
      && (ending.Completes? <==>
            HeardLast(log) && LastReply(f, log).requirement.None? && LastReply(f, log).toolCalls == [])
      && (ending.Suspends? <==>
            || (&& HeardLast(log) && LastReply(f, log).toolCalls == [] && LastReply(f, log).requirement.Some?
                && RequiresProperly(LastReply(f, log).requirement.value))
            || (&& Suspending(f.env, log) && log[|log| - 1].Published?
                && AsksProperly(log[|log| - 2].call, LastToolReply(f, log).suspend.value)))
  {
    hide Messages, Steps, WellShaped, Rests, Due, RequiresProperly, AsksProperly, ReplayTarget, Cancellation;
  }

  /** The reply asks for tools, and as it should. */
  ghost predicate OpensTurn(reply: Message) {
    reply.requirement.None? && reply.toolCalls != [] && WellShaped(reply.toolCalls)
  }

  lemma UnhinderedEnding(f: Frame, log: seq<Obs>)
    requires Unhindered(f, log)
    ensures EndingOf(f, log) == if HeardLast(log) then AfterReply(f, log, LastReply(f, log)) else Pause(f, log)
  {
    hide Pause, AfterReply, ReplayTarget;
  }

  lemma HinderedEnding(f: Frame, log: seq<Obs>)
    requires !Unhindered(f, log)
    ensures !EndingOf(f, log).Exhausts?
    ensures EndingOf(f, log).Cancels? <==>
      || (log != [] && log[|log| - 1].ModelCalled? && Breaks(f.env, log[|log| - 1]) != {})
      || (log != [] && log[|log| - 1].ToolCalled? && (|log| > 1 || BreaksReplay(f.env, log[0]) != {}))
  {
    hide Pause, AfterReply, ReplayTarget, Cancellation, AsksProperly;
  }

  lemma ReplyEnding(f: Frame, log: seq<Obs>, reply: Message)
    ensures var ending := AfterReply(f, log, reply);
      if OpensTurn(reply) then ending == Pause(f, log) else !ending.Exhausts? && !ending.Cancels?
  {
    hide Pause, RequiresProperly, WellShaped;
  }

  lemma PausesEnd(f: Frame, log: seq<Obs>)
    requires Logged(f, log)
    ensures var ending := EndingOf(f, log);
      var spent := Rests(f, Messages(f, log)) && Steps(f, log) >= Budget(f.input);
      && (ending.Exhausts? <==> Unhindered(f, log) && spent)
      && (ending.Cancels? <==>
            || (Unhindered(f, log) && if HeardLast(log) then OpensTurn(LastReply(f, log)) else !spent)
            || (log != [] && log[|log| - 1].ModelCalled? && Breaks(f.env, log[|log| - 1]) != {})
            || (log != [] && log[|log| - 1].ToolCalled? && (|log| > 1 || BreaksReplay(f.env, log[0]) != {})))
      && (ending.Cancels? && Unhindered(f, log) ==> ending.error == f.env.ctxErr(Due(f.env, log)))
  {
    hide Logged, Messages, Steps, OpensTurn, Rests, Due, Cancellation, Breaks, BreaksReplay, EndingOf, AfterReply,
      ReplayTarget, Suspending;
    if !Unhindered(f, log) {
      HinderedEnding(f, log);
    } else {
      UnhinderedEnding(f, log);
      if HeardLast(log) {
        HeardOwes(f, log);
        ReplyEnding(f, log, LastReply(f, log));
      }
    }
  }

  lemma EndsMeans(f: Frame, log: seq<Obs>, ending: Ending, o: Outcome)
    requires Ends(f, log, ending, o)
    ensures o.state.messages == Messages(f, log) && o.state.step == Steps(f, log)
    ensures o.state.status == Completed <==> ending.Completes?
    ensures o.state.status == Suspended <==> ending.Suspends?
    ensures o.state.status == MaxStepsExceeded <==> ending.Exhausts?
    ensures o.state.status == Cancelled <==> ending.Cancels?
    ensures o.state.status == Failed <==> ending.Fails?
    ensures ending.Cancels? ==> ending.error != {}
  {
    hide Messages, Steps, SinkErrs, Parts;
  }

  /** Which of its ends a slice has. Completed: exactly after a reply without calls and requirement.
      Suspended: exactly after a proper requirement of the model or of a tool. Out of steps: exactly
      when the budget is reached with every call answered. Cancelled: exactly when a cancellation
      stands behind the last error, or the context has ended before the next question. Any other
      end is a failure. */
  lemma SliceEnds(env: Oracles, ctx: Context, state: RunState, input: Input) returns (log: seq<Obs>)
    requires SpeaksAsAssistant(env) && Handed(state) && NamedTarget(ctx, state, input)
    ensures var f := FrameOf(env, ctx, state, input);
      var o := Execution(env, ctx, state, input);
      && Explained(f, log, o)
      && (o.state.status == Completed <==>
            HeardLast(log) && LastReply(f, log).requirement.None? && LastReply(f, log).toolCalls == [])
      && (o.state.status == Suspended <==>
            || (&& HeardLast(log) && LastReply(f, log).toolCalls == [] && LastReply(f, log).requirement.Some?
                && RequiresProperly(LastReply(f, log).requirement.value))
            || (&& Suspending(env, log) && log[|log| - 1].Published?
                && AsksProperly(log[|log| - 2].call, LastToolReply(f, log).suspend.value)))
      && (o.state.status == MaxStepsExceeded <==>
            Unhindered(f, log) && Rests(f, o.state.messages) && o.state.step >= Budget(input))
      && (o.state.status == Cancelled <==>
            || (&& Unhindered(f, log) && env.ctxErr(Due(env, log)) != {}
                && if HeardLast(log) then OpensTurn(LastReply(f, log))
                   else !(Rests(f, o.state.messages) && o.state.step >= Budget(input)))
            || (log != [] && log[|log| - 1].ModelCalled? && Breaks(env, log[|log| - 1]) != {})
            || (log != [] && log[|log| - 1].ToolCalled? && (|log| > 1 || BreaksReplay(env, log[0]) != {})))
      && (o.state.status in {Completed, Suspended, MaxStepsExceeded, Cancelled, Failed})
  {
    log := SliceExplained(env, ctx, state, input);
    var f := FrameOf(env, ctx, state, input);
    hide Logged, Execution, SpeaksAsAssistant, Handed, NamedTarget, ReplayTarget, EndingOf, Rests, Suspending, FrameOf,
      RequiresProperly, AsksProperly, OpensTurn, Cancellation, Ends;
    RepliesEnd(f, log);
    PausesEnd(f, log);
    EndsMeans(f, log, EndingOf(f, log), Execution(env, ctx, state, input));
  }

  /** A slice never steps past its budget, so it runs out of steps exactly there. */
  lemma BudgetIsExact(env: Oracles, ctx: Context, state: RunState, input: Input)
    requires SpeaksAsAssistant(env) && Handed(state) && NamedTarget(ctx, state, input)
    ensures var o := Execution(env, ctx, state, input);
      o.state.status == MaxStepsExceeded ==>
        o.state.step == if state.step > Budget(input) then state.step else Budget(input)
  {
    var log := SliceEnds(env, ctx, state, input);
  }

  /** A state the engine cannot run comes back as it was, with the reason. */
  lemma ExecutionRefuses(env: Oracles, ctx: Context, state: RunState, input: Input)
    requires ValidateRunState(state) != {} || state.status == Suspended || IsTerminal(state.status)
    ensures Execution(env, ctx, state, input)
         == Outcome(state, if ValidateRunState(state) != {} then ValidateRunState(state)
                           else if state.status == Suspended then {ErrResolutionRequired}
                           else {ErrInvalidRunStateTransition}, [])
  {
  }
}
