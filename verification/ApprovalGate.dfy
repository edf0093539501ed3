/** The approval gate from end to end: a denied command suspends its slice, and approving it runs it. */
module ApprovalGate {
  import opened Domain
  import opened ReplayContext
  import opened ReactLoop
  import opened EngineLaws
  import EngineGrowth
  import opened Commands
  import opened History
  import opened HistoryLaws
  import opened Suspensions
  import opened Toolset
  import opened Protocol
  import ProtocolInv
  import ProtocolIdem
  import ProtocolReplay
  import ProtocolCount
  import ProtocolLaws

  // ---------------------------------------------------------------- denied commands

  /** What a denied call is suspended on. */
  function RequirementOf(x: Executor, call: ToolCall): PendingRequirement
    requires Denied(call)
  {
    RequirementFor(call, FingerprintOf(x, call, CommandOf(call.arguments).value))
  }

  /** A denied command was handed to the executor without approval. */
  predicate Unapproved(obs: Obs) {
    obs.ToolCalled? && OverrideOf(obs.ctx).None? && Denied(obs.call)
  }

  ghost predicate Clean(trace: seq<Obs>) {
    forall k | 0 <= k < |trace| :: !Unapproved(trace[k])
  }

  predicate OfEndedContext(err: Errors) {
    ErrCanceled in err || ErrDeadlineExceeded in err
  }

  /** The caller's context answers like a context. */
  ghost predicate InContext(env: Oracles) {
    forall n: nat :: IsContextErr(env.ctxErr(n))
  }

  /** The executor is `x` and contexts behave as contexts; with `steady`, no context ever ends. */
  ghost predicate Operates(env: Oracles, x: Executor, steady: bool) {
    && InContext(env)
    && exists machine :: RunsOn(env, x, machine) && (steady ==> Steadily(env, machine))
  }

  ghost predicate Steadily(env: Oracles, machine: Machine) {
    forall n: nat :: env.ctxErr(n) == {} && machine.ctxErr(n) == {}
  }

  /** An unapproved denied command is the last call of its slice, and the slice ends suspended on
      exactly the requirement for that command. The one way out is a context that ended: the run is
      then cancelled with that error. */
  ghost predicate Gated(x: Executor, steady: bool, trace: seq<Obs>, s: RunState) {
    forall k | 0 <= k < |trace| && Unapproved(trace[k]) ::
      && k == |trace| - 2
      && (|| (s.status == Suspended && s.pendingRequirement == Some(RequirementOf(x, trace[k].call)))
          || (!steady && s.status == Cancelled && OfEndedContext(s.error)))
  }

  ghost predicate Alive(m: Slice) {
    Live(m) && m.state.id != "" && m.state.step >= 0 && m.state.version >= 0
  }

  /** A slice that goes on has met no denied command; one that stops is gated. */
  ghost predicate Guarded(x: Executor, steady: bool, p: Progress) {
    match p
    case Go(next) => Alive(next) && Clean(next.trace)
    case Stop(o) => Gated(x, steady, o.trace, o.state)
  }

  lemma CleanAppend(trace: seq<Obs>, obs: Obs)
    requires Clean(trace) && !Unapproved(obs)
    ensures Clean(trace + [obs])
  {
    hide Unapproved;
  }

  lemma CleanIsGated(x: Executor, steady: bool, trace: seq<Obs>, s: RunState)
    requires Clean(trace)
    ensures Gated(x, steady, trace, s)
  {
    hide Unapproved;
  }

  lemma PublishClean(env: Oracles, m: Slice, event: Event)
    requires Clean(m.trace)
    ensures Clean(Publish(env, m, event).trace)
  {
    CleanAppend(m.trace, Published(m.clock, event));
  }

  lemma EndRunGuarded(env: Oracles, x: Executor, steady: bool, m: Slice, to: RunStatus, err: Errors, kind: EventType)
    requires Clean(m.trace)
    ensures Guarded(x, steady, Stop(EndRun(env, m, to, err, kind)))
  {
    hide Clean, Gated, ValidateEvent, Denied;
    var (moved, transitionErr) := Transition(m.state, to);
    PublishClean(env, m.(state := moved.(error := err)), PlainEvent(moved.id, moved.step, kind));
    var o := EndRun(env, m, to, err, kind);
    assert Clean(o.trace);
    CleanIsGated(x, steady, o.trace, o.state);
  }

  lemma CompleteGuarded(env: Oracles, x: Executor, steady: bool, m: Slice, output: string)
    requires Clean(m.trace)
    ensures Guarded(x, steady, Stop(Complete(env, m, output)))
  {
    hide Clean, Gated, ValidateEvent, Denied;
    var (moved, transitionErr) := Transition(m.state, Completed);
    PublishClean(env, m.(state := moved.(output := output)), PlainEvent(moved.id, moved.step, RunCompleted));
    var o := Complete(env, m, output);
    assert Clean(o.trace);
    CleanIsGated(x, steady, o.trace, o.state);
  }

  lemma SuspendGuarded(env: Oracles, x: Executor, steady: bool, m: Slice, requirement: PendingRequirement)
    requires Clean(m.trace)
    ensures Guarded(x, steady, Stop(Suspend(env, m, requirement)))
  {
    hide Clean, Gated, EndRun, Denied;
    var (moved, err) := Transition(m.state.(pendingRequirement := Some(requirement)), Suspended);
    EndRunGuarded(env, x, steady, m.(state := m.state.(pendingRequirement := None)), Failed,
      if err == {} then {ErrOther} else err,
                  RunFailed);
    CleanIsGated(x, steady, m.trace, moved);
  }

  lemma FailGuarded(env: Oracles, x: Executor, steady: bool, m: Slice, err: Errors)
    requires Clean(m.trace)
    ensures Guarded(x, steady, Stop(FailRun(env, m, err)))
    ensures Guarded(x, steady, Stop(CancelRun(env, m, err)))
    ensures Guarded(x, steady, Stop(CancelOrFail(env, m, err)))
  {
    hide Clean, Guarded, EndRun, CancellationError;
    var failure := if err == {} then {ErrOther} else err;
    var cancelled := CancellationError(env, m.clock, err);
    EndRunGuarded(env, x, steady, m, Failed, failure, RunFailed);
    EndRunGuarded(env, x, steady, m, Cancelled, if err == {} then {ErrCanceled} else err, RunCancelled);
    EndRunGuarded(env, x, steady, Tick(m), Failed, failure, RunFailed);
    EndRunGuarded(env, x, steady, Tick(m), Cancelled,
      if cancelled == {} then {ErrCanceled} else cancelled, RunCancelled);
  }

  // ---------------------------------------------------------------- one call

  /** The executor's answer to an unapproved denied command: a request to suspend, or the error of an
      ended context. */
  lemma DeniedReply(env: Oracles, x: Executor, steady: bool, n: nat, ctx: Context, call: ToolCall)
    requires Operates(env, x, steady) && Denied(call) && OverrideOf(ctx).None?
    ensures var reply := env.tool(n, ctx, call);
      || (reply.err == {ErrBashCommandDenied}
          && reply.suspend == Some(SuspendRequest(Some(RequirementOf(x, call)))))
      || (!steady && OfEndedContext(reply.err) && reply.suspend.None?)
  {
    hide Trim, Contains, FirstField, ValidateBashCommand, CommandOf, RunsOn, InContext;
    var machine :| RunsOn(env, x, machine) && (steady ==> Steadily(env, machine));
    RunsOnAt(env, x, machine, n, ctx, call);
    DenialsAreDenials(CommandOf(call.arguments));
  }

  lemma RequirementIsValid(x: Executor, call: ToolCall, state: RunState)
    requires Denied(call) && call.id != "" && state.id != "" && state.step >= 0 && state.version >= 0
    ensures var requirement := Some(RequirementOf(x, call));
      && ValidateSuspendRequest(state, call, SuspendRequest(requirement)) == (requirement, {})
      && ValidatePendingRequirement(requirement) == {}
  {
    hide Trim, Contains, FirstField, ValidateBashCommand, CommandOf;
    assert RequirementOf(x, call).id != "";
  }

  /** What the loop takes for a cancellation is one; in a steady context a denial is none. */
  lemma WhenInterrupted(env: Oracles, x: Executor, steady: bool, n: nat)
    requires Operates(env, x, steady)
    ensures forall err | CancellationError(env, n, err) != {} :: OfEndedContext(CancellationError(env, n, err))
    ensures steady ==> CancellationError(env, n, {ErrBashCommandDenied}) == {}
  {
    hide RunsOn;
  }

  /** Of an unapproved denied command the loop observes a suspension on its requirement, or an interruption. */
  lemma DeniedObserved(env: Oracles, x: Executor, steady: bool, input: Input, ctx: Context, call: ToolCall, m: Slice)
    requires Alive(m) && Operates(env, x, steady) && Denied(call) && OverrideOf(ctx).None? && call.id != ""
    ensures var (asked, observation) := Observe(env, input, ctx, call, m);
      || (asked.trace == m.trace && observation.Observed? && observation.verdict.Proceed?)
      || (asked.trace == m.trace + [ToolCalled(m.clock, ctx, call)]
          && (|| (observation.Interrupted? && !steady && OfEndedContext(observation.err))
              || (observation.Observed? && observation.verdict == SuspendOn(RequirementOf(x, call)))))
  {
    hide Operates, Denied, RequirementOf, ValidateSuspendRequest;
    WhenInterrupted(env, x, steady, m.clock + 1);
    DeniedReply(env, x, steady, m.clock, ctx, call);
    RequirementIsValid(x, call, m.state);
  }

  lemma ObserveAlive(env: Oracles, input: Input, ctx: Context, call: ToolCall, m: Slice)
    requires Alive(m)
    ensures var (asked, observation) := Observe(env, input, ctx, call, m);
      && asked.state == m.state
      && (asked.trace == m.trace || asked.trace == m.trace + [ToolCalled(m.clock, ctx, call)])
  {
  }

  lemma CallStepGuarded(env: Oracles, x: Executor, steady: bool, input: Input, ctx: Context, call: ToolCall, m: Slice)
    requires Alive(m) && Clean(m.trace) && Operates(env, x, steady) && OverrideOf(ctx).None? && call.id != ""
    ensures Guarded(x, steady, CallStep(env, input, ctx, call, m))
  {
    hide Operates, Denied, Clean, Gated, Observe, EndRun, Suspend, FillIdentity, OverrideOf, RequirementOf;
    if env.ctxErr(m.clock) != {} {
      FailGuarded(env, x, steady, Tick(m), env.ctxErr(m.clock));
    } else {
      ObserveAlive(env, input, ctx, call, Tick(m));
      var (asked, observation) := Observe(env, input, ctx, call, Tick(m));
      if asked.trace != m.trace && Denied(call) {
        DeniedObserved(env, x, steady, input, ctx, call, Tick(m));
        DeniedStops(env, x, steady, ctx, call, m, asked, observation);
      } else {
        if asked.trace != m.trace {
          CleanAppend(m.trace, ToolCalled(m.clock + 1, ctx, call));
        }
        match observation {
          case Interrupted(err) => FailGuarded(env, x, steady, asked, err);
          case Observed(result, verdict) =>
            RecordAlive(env, asked, FillIdentity(call, result));
            var recorded := Record(env, asked, FillIdentity(call, result));
            match verdict {
              case Proceed =>
              case BadSuspend(err) => FailGuarded(env, x, steady, recorded, err);
              case SuspendOn(requirement) => SuspendGuarded(env, x, steady, recorded, requirement);
            }
        }
      }
    }
  }

  lemma RecordAlive(env: Oracles, m: Slice, result: ToolResult)
    requires Alive(m) && Clean(m.trace)
    ensures Alive(Record(env, m, result)) && Clean(Record(env, m, result).trace)
  {
    hide Clean, ValidateEvent;
    var event := Event(m.state.id, m.state.step, ToolObservation, None, None, Some(result));
    PublishClean(env, Append(m, ToolResultMessage(result)), event);
  }

  /** The step of an unapproved denied command: it stops, gated. */
  lemma DeniedStops(env: Oracles, x: Executor, steady: bool, ctx: Context, call: ToolCall, m: Slice, asked: Slice,
                    observation: Observation)
    requires Alive(m) && Clean(m.trace) && Denied(call) && OverrideOf(ctx).None? && call.id != ""
    requires asked.state == m.state && asked.trace == m.trace + [ToolCalled(m.clock + 1, ctx, call)]
    requires (observation.Interrupted? && !steady && OfEndedContext(observation.err))
          || (observation.Observed? && observation.verdict == SuspendOn(RequirementOf(x, call)))
    ensures observation.Interrupted? ==> Guarded(x, steady, Stop(CancelRun(env, asked, observation.err)))
    ensures observation.Observed? ==>
      Guarded(x, steady, Stop(Suspend(env, Record(env, asked, FillIdentity(call, observation.result)),
        RequirementOf(x, call))))
  {
    hide Denied, RequirementOf, FillIdentity, OverrideOf;
    RequirementIsValid(x, call, m.state);
    hide ValidatePendingRequirement, ValidateEvent;
  }

  lemma {:induction false} CallLoopGuarded(env: Oracles, x: Executor, steady: bool, input: Input, ctx: Context,
      calls: seq<ToolCall>, i: nat, m: Slice)
    requires i <= |calls| && Alive(m) && Clean(m.trace) && Operates(env, x, steady) && OverrideOf(ctx).None?
    requires forall k | 0 <= k < |calls| :: calls[k].id != ""
    ensures Guarded(x, steady, CallLoop(env, input, ctx, calls, i, m))
    decreases |calls| - i
  {
    hide CallStep, Clean, Gated, Alive, Operates, OverrideOf;
    if i < |calls| {
      CallStepGuarded(env, x, steady, input, ctx, calls[i], m);
      var p := CallStep(env, input, ctx, calls[i], m);
      if p.Go? {
        CallLoopGuarded(env, x, steady, input, ctx, calls, i + 1, p.slice);
      }
    }
  }

  // ---------------------------------------------------------------- the slice

  lemma ActGuarded(env: Oracles, x: Executor, steady: bool, input: Input, ctx: Context, assistant: Message, m: Slice)
    requires Alive(m) && Clean(m.trace) && Operates(env, x, steady) && OverrideOf(ctx).None?
    ensures Guarded(x, steady, Act(env, input, ctx, assistant, m))
  {
    hide CallLoop, EndRun, Suspend, ShapeErr, Guarded, Complete, ValidateRequirementContract, Clean, Operates,
      OverrideOf, Alive;
    forall err: Errors
      ensures Guarded(x, steady, Stop(FailRun(env, m, err)))
    {
      FailGuarded(env, x, steady, m, err);
    }
    if assistant.requirement.Some? {
      SuspendGuarded(env, x, steady, m, assistant.requirement.value);
    } else if assistant.toolCalls == [] {
      CompleteGuarded(env, x, steady, m, assistant.content);
    } else if ShapeErr(assistant.toolCalls, 0) == {} {
      ShapeOK(assistant.toolCalls, 0);
      CallLoopGuarded(env, x, steady, input, ctx, assistant.toolCalls, 0, m);
    }
  }

  lemma HearAlive(env: Oracles, m: Slice, assistant: Message)
    requires Alive(m) && Clean(m.trace)
    ensures Alive(Hear(env, AskModel(m), assistant)) && Clean(Hear(env, AskModel(m), assistant).trace)
    ensures Clean(AskModel(m).trace)
  {
    hide Clean, ValidateEvent;
    CleanAppend(m.trace, ModelCalled(m.clock, m.state.messages));
    var asked := AskModel(m);
    PublishClean(env, Append(asked, assistant),
                 Event(asked.state.id, asked.state.step, AssistantMessage, None, Some(assistant), None));
  }

  lemma TurnGuarded(env: Oracles, x: Executor, steady: bool, input: Input, ctx: Context, m: Slice)
    requires Alive(m) && Clean(m.trace) && Operates(env, x, steady) && OverrideOf(ctx).None?
    ensures Guarded(x, steady, Turn(env, input, ctx, m))
  {
    hide Act, CancelOrFail, Guarded, Spoken, Clean, Operates, OverrideOf, Alive, Hear, AskModel;
    var reply := env.model(m.clock, m.state.messages);
    HearAlive(env, m, Spoken(reply.message));
    if reply.err != {} {
      FailGuarded(env, x, steady, AskModel(m), reply.err);
    } else {
      ActGuarded(env, x, steady, input, ctx, Spoken(reply.message), Hear(env, AskModel(m), Spoken(reply.message)));
    }
  }

  lemma {:induction false} LoopGuarded(env: Oracles, x: Executor, steady: bool, input: Input, limit: int, ctx: Context,
      m: Slice)
    requires Alive(m) && Clean(m.trace) && Operates(env, x, steady) && OverrideOf(ctx).None?
    ensures Guarded(x, steady, Stop(Loop(env, input, limit, ctx, m)))
    decreases limit - m.state.step
  {
    hide Turn, EndRun, Gated, Clean, Operates, OverrideOf;
    if m.state.step >= limit {
      EndRunGuarded(env, x, steady, m, MaxStepsExceeded, {ErrMaxStepsExceeded}, RunFailed);
    } else if env.ctxErr(m.clock) != {} {
      FailGuarded(env, x, steady, Tick(m), env.ctxErr(m.clock));
    } else {
      TurnGuarded(env, x, steady, input, ctx, Tick(m));
      var p := Turn(env, input, ctx, Tick(m));
      if p.Go? {
        LoopGuarded(env, x, steady, input, limit, ctx, p.slice);
      }
    }
  }

  lemma ReplayGuarded(env: Oracles, x: Executor, steady: bool, ctx: Context, call: ToolCall, m: Slice)
    requires Alive(m) && Clean(m.trace) && OverrideOf(ctx).Some?
    ensures Guarded(x, steady, ReplayStep(env, ctx, call, m))
  {
    hide Clean, Gated, CancelOrFail, Denied, OverrideOf, FillIdentity;
    var reply := env.tool(m.clock, ctx, call);
    CleanAppend(m.trace, ToolCalled(m.clock, ctx, call));
    var asked := Tick(m).(trace := m.trace + [ToolCalled(m.clock, ctx, call)]);
    FailGuarded(env, x, steady, Tick(asked), CancellationError(env, asked.clock, reply.err));
    FailGuarded(env, x, steady, Tick(asked), {ErrRunStateInvalid});
    RecordAlive(env, asked, FillIdentity(call, if IdentityOK(call, reply.result) then reply.result
                                               else ErrorResult(call, ExecutorError)));
    RecordAlive(env, Tick(asked), ErrorResult(call, ExecutorError));
  }

  lemma ReplayTargetHasOverride(ctx: Context, state: RunState, input: Input)
    requires ReplayTarget(ctx, state, input).Replay?
    ensures OverrideOf(ctx) == Some(Override(input.resolvedRequirement.value.toolCallID,
                                             input.resolvedRequirement.value.fingerprint))
  {
  }

  lemma SlicesGuarded(env: Oracles, x: Executor, steady: bool, ctx: Context, handed: RunState, input: Input)
    requires Alive(Enter(handed, input)) && Operates(env, x, steady)
    ensures Guarded(x, steady, Stop(Slices(env, ctx, handed, input)))
  {
    hide Loop, ReplayStep, FailRun, ReplayTarget, Gated, Operates, Unapproved;
    var m := Enter(handed, input);
    assert Clean(m.trace);
    assert OverrideOf(WithoutOverride(ctx)).None?;
    hide Clean;
    match ReplayTarget(ctx, m.state, input) {
      case ReplayRefused(err) => FailGuarded(env, x, steady, m, err);
      case NoReplay => LoopGuarded(env, x, steady, input, Limit(input), WithoutOverride(ctx), m);
      case Replay(call) =>
        ReplayTargetHasOverride(ctx, m.state, input);
        ReplayGuarded(env, x, steady, ctx, call, m);
        var p := ReplayStep(env, ctx, call, m);
        if p.Go? {
          LoopGuarded(env, x, steady, input, Limit(input), WithoutOverride(ctx), p.slice);
        }
    }
  }

  lemma HandedIsAlive(handed: RunState, input: Input)
    requires Handed(handed)
    ensures Alive(Enter(handed, input))
  {
  }

  /** With this executor a denied command that the loop hands over without approval ends its slice
      suspended on exactly the requirement for that command; only a context that ends meanwhile can
      cancel the run instead, with its error, and in a steady context nothing can. */
  lemma DeniedCommandSuspendsItsSlice(env: Oracles, x: Executor, steady: bool, ctx: Context, handed: RunState,
      input: Input)
    requires Handed(handed) && Operates(env, x, steady)
    ensures var o := Execution(env, ctx, handed, input);
      Gated(x, steady, o.trace, o.state)
  {
    hide Slices, Gated, Operates, Enter, Handed, Alive;
    EngineGrowth.HandedRuns(env, ctx, handed, input);
    HandedIsAlive(handed, input);
    SlicesGuarded(env, x, steady, ctx, handed, input);
  }

  /** The same for whatever a command proposes over a committed state. */
  lemma ProposalsAreGated(runID: RunID, h: seq<Commit>, version: int, mutation: Mutation, world: World, x: Executor,
      steady: bool)
    requires Legal(runID, h) && 1 <= version <= |h|
    requires SpeaksAsAssistant(world.oracles) && Operates(world.oracles, x, steady) && !mutation.Creates?
    requires mutation.FirstSlice? ==> version == 1
    ensures var p := Propose(mutation, world, h[version - 1].state);
      p.Proposed? ==> Gated(x, steady, p.trace, p.state)
  {
    hide Legal, Resumable, SoundStep, SoundState, Execution, ValidateEngineOutput, Handed, NamedTarget, Admit,
      Gated, Operates, SpeaksAsAssistant;
    var base := h[version - 1].state;
    LegalSound(runID, h, version - 1);
    SoundVersion(runID, version, base);
    var admission := Admit(mutation, world.ctx, base);
    match admission {
      case Refused(_, _) =>
      case ToStore(state) => NoTraceIsGated(x, steady, state);
      case ToEngine(_, _, _) =>
        AdmittedIsHanded(runID, version, mutation, world.ctx, base);
        DeniedCommandSuspendsItsSlice(world.oracles, x, steady, admission.ctx, admission.handed, admission.input);
    }
  }

  lemma NoTraceIsGated(x: Executor, steady: bool, state: RunState)
    ensures Gated(x, steady, [], state)
  {
  }

  /** Under every interleaving: a slice in which a denied command was handed to the executor without
      approval proposes the run suspended on that command, or cancelled with the error of a
      context that ended; in a steady context it is always suspended. */
  lemma DeniedCommandsSuspendEverywhere(actions: seq<Action>, t: nat, world: World, x: Executor, steady: bool)
    requires SpeaksAsAssistant(world.oracles) && Operates(world.oracles, x, steady)
    requires t in Run(actions).threads && Run(actions).threads[t].stage.Slicing?
    ensures var thread := Run(actions).threads[t];
      var p := Propose(MutationOf(thread.command), world, thread.stage.base);
      p.Proposed? ==> Gated(x, steady, p.trace, p.state)
  {
    hide Run, Legal, Propose, SpeaksAsAssistant, Operates, Gated, ProtocolInv.SeatsOK, ProtocolInv.StoreOK,
      ProtocolInv.ThreadsBased, ProtocolIdem.IdemOK, ProtocolReplay.ReplaysOK, ProtocolCount.CountOK;
    ProtocolLaws.RunOKAlways(actions);
    var s := Run(actions);
    var thread := s.threads[t];
    ProtocolInv.BasedOf(s, t);
    ProtocolInv.InHistoryInStates(s, thread.runID);
    ProtocolInv.RunFacts(s, thread.runID);
    ProposalsAreGated(thread.runID, s.history[thread.runID], thread.stage.base.version, MutationOf(thread.command),
      world, x, steady);
  }

  // ---------------------------------------------------------------- approved commands

  /** The replay at clock `n` was cut short by a cancellation. */
  predicate Interrupts(env: Oracles, n: nat, reply: ToolReply) {
    reply.err != {} && CancellationError(env, n + 1, reply.err) != {}
  }

  /** What the transcript says of the replay. */
  function ReplayResult(call: ToolCall, reply: ToolReply): ToolResult {
    if reply.err == {} then reply.result else ErrorResult(call, ExecutorError)
  }

  /** What the executor says to an approved call at clock `n`: what its machine gives for running it,
      unless the context has ended. */
  function Response(machine: Machine, n: nat, call: ToolCall): ToolReply {
    if machine.ctxErr(n) != {} then ToolReply(NoResult(), machine.ctxErr(n), None)
    else Answer(call, machine.run(n, call))
  }

  lemma ApprovedReply(env: Oracles, x: Executor, machine: Machine, n: nat, ctx: Context, call: ToolCall)
    requires RunsOn(env, x, machine) && Denied(call)
    requires OverrideOf(ctx) == Some(Override(call.id, RequirementOf(x, call).fingerprint))
    ensures env.tool(n, ctx, call) == Response(machine, n, call)
    ensures machine.ctxErr(n) != {} ==> OfEndedContext(Response(machine, n, call).err)
  {
    hide Trim, Contains, FirstField, ValidateBashCommand, CommandOf, RunsOn, Answer;
    RunsOnAt(env, x, machine, n, ctx, call);
    if machine.ctxErr(n) == {} {
      ApprovedCommandRuns(x, ctx, call, machine.run(n, call));
    }
  }

  lemma AnswerKeepsIdentity(call: ToolCall, ran: Ran)
    ensures Answer(call, ran).suspend.None?
    ensures Answer(call, ran).err == {} ==>
      var result := Answer(call, ran).result;
      IdentityOK(call, result) && FillIdentity(call, result) == result
  {
  }

  lemma CancelledReplayCancels(env: Oracles, m: Slice, err: Errors)
    requires Live(m) && InContext(env) && OfEndedContext(err)
    ensures var o := CancelOrFail(env, m, err);
      o.state.status == Cancelled && o.state.messages == m.state.messages
  {
    hide InContext, ValidateEvent;
    assert CancellationError(env, m.clock, err) != {};
  }

  lemma CancellationIsTagged(env: Oracles, n: nat, err: Errors)
    requires InContext(env) && CancellationError(env, n, err) != {}
    ensures OfEndedContext(CancellationError(env, n, err))
  {
  }

  /** A replay of a denied command under its own approval: the reply is what running the command gave,
      or the error of a context that had ended. Unless a cancellation cuts the replay short the
      command has run and its answer is on the transcript; if one does, the run is cancelled. There
      is no third way, through the refusal of the command or of a suspend request. */
  lemma ApprovedReplayRuns(env: Oracles, x: Executor, machine: Machine, ctx: Context, call: ToolCall, m: Slice)
    requires Live(m) && RunsOn(env, x, machine) && Denied(call)
    requires OverrideOf(ctx) == Some(Override(call.id, RequirementOf(x, call).fingerprint))
    ensures var ran := machine.run(m.clock, call);
      var reply := env.tool(m.clock, ctx, call);
      var p := ReplayStep(env, ctx, call, m);
      && reply == Response(machine, m.clock, call)
      && (p.Go? <==> !Interrupts(env, m.clock, reply))
      && (p.Go? ==>
            && machine.ctxErr(m.clock) == {}
            && p.slice.state.messages
               == m.state.messages + [ToolResultMessage(ReplayResult(call, Answer(call, ran)))])
      && (p.Stop? && InContext(env) ==>
            p.outcome.state.status == Cancelled && p.outcome.state.messages == m.state.messages)
  {
    hide RunsOn, Denied, RequirementOf, Answer, OverrideOf, CancelOrFail, FillIdentity, InContext;
    ApprovedReply(env, x, machine, m.clock, ctx, call);
    AnswerKeepsIdentity(call, machine.run(m.clock, call));
    var reply := env.tool(m.clock, ctx, call);
    if Interrupts(env, m.clock, reply) && InContext(env) {
      var asked := Tick(Tick(m).(trace := m.trace + [ToolCalled(m.clock, ctx, call)]));
      CancellationIsTagged(env, m.clock + 1, reply.err);
      CancelledReplayCancels(env, asked, CancellationError(env, m.clock + 1, reply.err));
    }
  }

  /** The slice around the replay: it goes on from the machine's answer, or ends cancelled. */
  lemma ApprovedSliceRuns(env: Oracles, x: Executor, machine: Machine, ctx: Context, handed: RunState, input: Input)
    requires Handed(handed) && RunsOn(env, x, machine)
    requires var target := ReplayTarget(ctx, Enter(handed, input).state, input);
      && target.Replay? && Denied(target.call)
      && OverrideOf(ctx) == Some(Override(target.call.id, RequirementOf(x, target.call).fingerprint))
    ensures var entered := Enter(handed, input).state.messages;
      var call := ReplayTarget(ctx, Enter(handed, input).state, input).call;
      var reply := Response(machine, 0, call);
      var o := Execution(env, ctx, handed, input);
      && env.tool(0, ctx, call) == reply
      && (!Interrupts(env, 0, reply) ==>
            var result := ReplayResult(call, Answer(call, machine.run(0, call)));
            && machine.ctxErr(0) == {}
            && entered + [ToolResultMessage(result)] <= o.state.messages)
      && (Interrupts(env, 0, reply) && InContext(env) ==>
            o.state.status == Cancelled && o.state.messages == entered)
  {
    hide RunsOn, Denied, RequirementOf, Answer, OverrideOf, InContext, ReplayStep, ReplayTarget, Loop, Interrupts,
      Handed;
    var m := Enter(handed, input);
    var call := ReplayTarget(ctx, m.state, input).call;
    EngineGrowth.HandedRuns(env, ctx, handed, input);
    HandedIsAlive(handed, input);
    ApprovedReplayRuns(env, x, machine, ctx, call, m);
    var p := ReplayStep(env, ctx, call, m);
    if p.Go? {
      EngineGrowth.LoopGrown(env, input, Limit(input), WithoutOverride(ctx), p.slice);
    }
  }

  /** The slice of an approving Continue over `prev`, whose first tool call is `obs`: the executor's
      reply is what its machine gave for running that very call, and this answer stands on the
      transcript right after the resolution; or the context ended meanwhile and the run is cancelled. */
  ghost predicate Resumed(prev: RunState, c: Commit, obs: Obs, machine: Machine)
    requires ApprovingContinue(c.mutation)
  {
    var env := c.world.oracles;
    var answered := prev.messages + ResolutionMessages(c.mutation.command.resolution);
    && obs.ToolCalled?
    && var reply := env.tool(obs.clock, obs.ctx, obs.call);
       && reply == Response(machine, obs.clock, obs.call)
       && (!Interrupts(env, obs.clock, reply) ==>
             && machine.ctxErr(obs.clock) == {}
             && var ran := Answer(obs.call, machine.run(obs.clock, obs.call));
                answered + [ToolResultMessage(ReplayResult(obs.call, ran))] <= c.state.messages)
       && (Interrupts(env, obs.clock, reply) && InContext(env) ==>
             c.state.status == Cancelled && c.state.messages == answered)
  }

  /** What the engine is handed by an approving Continue over a tool suspension. */
  lemma ApprovingAdmission(runID: RunID, version: int, prev: RunState, c: Commit)
    requires SoundState(runID, version, prev) && Resumable(prev) && ToolSuspended(prev)
    requires Succeeds(prev, c) && ApprovingContinue(c.mutation)
    ensures var admission := AdmitContinue(c.world.ctx, prev, c.mutation.command);
      && admission.ToEngine?
      && Handed(admission.handed)
      && var target := ReplayTarget(admission.ctx, Enter(admission.handed, admission.input).state, admission.input);
         var o := Execution(c.world.oracles, admission.ctx, admission.handed, admission.input);
         && target.Replay?
         && OverrideOf(admission.ctx)
            == Some(Override(prev.pendingRequirement.value.toolCallID, prev.pendingRequirement.value.fingerprint))
         && Enter(admission.handed, admission.input).state.messages
            == prev.messages + ResolutionMessages(c.mutation.command.resolution)
         && c.state.messages == o.state.messages && c.state.status == o.state.status
         && Propose(c.mutation, c.world, prev).trace == o.trace
         && |o.trace| >= 1 && o.trace[0] == ToolCalled(0, admission.ctx, target.call)
  {
    var command := c.mutation.command;
    var admission := AdmitContinue(c.world.ctx, prev, command);
    assert Admit(c.mutation, c.world.ctx, prev) == admission;
    assert ValidateRunState(prev) == {};
    assert admission.ToEngine?;
    ResumeTarget(prev, command, c.world.ctx);
    AdmittedIsHanded(runID, version, c.mutation, c.world.ctx, prev);
    assert admission.handed.messages == prev.messages && admission.input.resolution == command.resolution;
    hide SoundState, Resumable, Execution, ReplayTarget, FindCall, ValidateEngineOutput, ValidateRunState, Handed,
      NamedTarget;
    EngineGrowth.OnlyReplaySeesOverride(c.world.oracles, admission.ctx, admission.handed, admission.input);
  }

  lemma ApprovedCommitRuns(runID: RunID, version: int, prev: RunState, c: Commit, x: Executor, machine: Machine,
                           call: ToolCall)
    requires SoundState(runID, version, prev) && Resumable(prev) && ToolSuspended(prev)
    requires Succeeds(prev, c) && ApprovingContinue(c.mutation) && RunsOn(c.world.oracles, x, machine)
    requires Denied(call) && call.id == prev.pendingRequirement.value.toolCallID
    requires prev.pendingRequirement.value.fingerprint == RequirementOf(x, call).fingerprint
    requires StartsReplaying(Propose(c.mutation, c.world, prev).trace, call, prev.pendingRequirement.value)
    ensures Resumed(prev, c, Propose(c.mutation, c.world, prev).trace[0], machine)
  {
    hide SoundState, Resumable, Execution, ReplayTarget, FindCall, Handed, NamedTarget, Propose, Succeeds,
      AdmitContinue, RunsOn, Denied, RequirementOf, Response, Answer, InContext, Interrupts, Enter;
    ApprovingAdmission(runID, version, prev, c);
    var admission := AdmitContinue(c.world.ctx, prev, c.mutation.command);
    ApprovedSliceRuns(c.world.oracles, x, machine, admission.ctx, admission.handed, admission.input);
  }

  /** Approving a bash suspension runs the command instead of suspending again. The replayed call is
      the blocked one, so its recomputed fingerprint is the approved one; the machine under the
      resumed slice's executor runs it, and its answer follows the resolution on the transcript. */
  lemma ApprovalRunsTheCommand(runID: RunID, h: seq<Commit>, i: nat, x: Executor, machine: Machine)
    returns (call: ToolCall)
    requires Legal(runID, h) && 1 <= i < |h|
    requires Uses(h[i - 1].world.oracles, x) && RunsOn(h[i].world.oracles, x, machine)
    requires ToolSuspended(h[i - 1].state) && ApprovingContinue(h[i].mutation)
    ensures i >= 2 && EndsBlockedOn(TraceAt(h, i - 1), call) && Denied(call)
    ensures h[i - 1].state.pendingRequirement.value.fingerprint == RequirementOf(x, call).fingerprint
    ensures StartsReplaying(TraceAt(h, i), call, h[i - 1].state.pendingRequirement.value)
    ensures Resumed(h[i - 1].state, h[i], TraceAt(h, i)[0], machine)
  {
    hide Legal, Uses, RunsOn, Denied, CommandOf, ApprovingContinue, Propose, Succeeds, SoundState, SoundStep,
      Resumable, Resumed, AskedFor;
    var requirement := h[i - 1].state.pendingRequirement.value;
    call := ApprovalReplaysBlockedCall(runID, h, i);
    CommittedSuspensionsAreRequested(runID, h, i - 1);
    var last := TraceAt(h, i - 1)[|TraceAt(h, i - 1)| - 2];
    AskedForIsDenied(h[i - 1].world.oracles, x, last.clock, last.ctx, last.call, requirement);
    LegalSound(runID, h, i - 1);
    CommitSucceeds(runID, h, i);
    ApprovedCommitRuns(runID, i, h[i - 1].state, h[i], x, machine, call);
  }

  /** Under every interleaving: in the history of every stored run, every approved bash suspension was
      followed by a slice whose machine ran the blocked command. */
  lemma ApprovedCommandsRunEverywhere(actions: seq<Action>, r: RunID, i: nat, x: Executor, machine: Machine)
    returns (call: ToolCall)
    requires r in Run(actions).history && 1 <= i < |Run(actions).history[r]|
    requires var h := Run(actions).history[r];
      && Uses(h[i - 1].world.oracles, x) && RunsOn(h[i].world.oracles, x, machine)
      && ToolSuspended(h[i - 1].state) && ApprovingContinue(h[i].mutation)
    ensures var h := Run(actions).history[r];
      && i >= 2 && EndsBlockedOn(TraceAt(h, i - 1), call) && Denied(call)
      && StartsReplaying(TraceAt(h, i), call, h[i - 1].state.pendingRequirement.value)
      && Resumed(h[i - 1].state, h[i], TraceAt(h, i)[0], machine)
  {
    hide Run, Legal, Uses, RunsOn, ApprovingContinue, Resumed, Denied, EndsBlockedOn, TraceAt;
    ProtocolLaws.StoreIsLegal(actions, r);
    call := ApprovalRunsTheCommand(r, Run(actions).history[r], i, x, machine);
  }
}
