/** Every tool suspension was requested by the tool: the requirement on the run is the one the last
    tool call asked for, linked to that call.
  */
module Suspensions {
  import opened Domain
  import opened ReplayContext
  import opened ReactLoop
  import opened EngineLaws
  import opened Commands
  import opened History
  import opened HistoryLaws
  import EngineGrowth

  /** Called at clock `n`, the tool answered with a request for this requirement. */
  ghost predicate AskedFor(env: Oracles, n: nat, ctx: Context, call: ToolCall, requirement: PendingRequirement) {
    var reply := env.tool(n, ctx, call);
    && reply.err != {} && reply.suspend.Some? && reply.suspend.value.requirement.Some?
    && requirement == reply.suspend.value.requirement.value.(toolCallID := call.id)
  }

  /** The reply to the last tool call of the trace asked for the requirement. */
  ghost predicate LastCallAsked(env: Oracles, trace: seq<Obs>, requirement: PendingRequirement) {
    && |trace| >= 2
    && var last := trace[|trace| - 2];
       last.ToolCalled? && AskedFor(env, last.clock, last.ctx, last.call, requirement)
  }

  ghost predicate Requested(env: Oracles, trace: seq<Obs>, s: RunState) {
    s.pendingRequirement.Some? && LastCallAsked(env, trace, s.pendingRequirement.value)
  }

  ghost predicate Live(m: Slice) {
    m.state.status == Running && m.state.pendingRequirement.None?
  }

  /** A slice that goes on is live, and one that stops suspended by a tool was asked to. */
  ghost predicate Honest(env: Oracles, p: Progress) {
    match p
    case Go(next) => Live(next)
    case Stop(o) => ToolSuspended(o.state) ==> Requested(env, o.trace, o.state)
  }

  lemma EndRunHonest(env: Oracles, m: Slice, to: RunStatus, err: Errors, kind: EventType)
    requires Live(m) && to != Suspended
    ensures Honest(env, Stop(EndRun(env, m, to, err, kind)))
  {
  }

  lemma CompleteHonest(env: Oracles, m: Slice, output: string)
    requires Live(m)
    ensures Honest(env, Stop(Complete(env, m, output)))
  {
  }

  lemma SuspendHonest(env: Oracles, m: Slice, requirement: PendingRequirement)
    requires Live(m)
    requires requirement.origin == ToolOrigin ==> LastCallAsked(env, m.trace, requirement)
    ensures Honest(env, Stop(Suspend(env, m, requirement)))
  {
    EndRunHonest(env, m, Failed, Transition(m.state.(pendingRequirement := Some(requirement)), Suspended).1, RunFailed);
    hide LastCallAsked, EndRun;
    var (moved, err) := Transition(m.state.(pendingRequirement := Some(requirement)), Suspended);
    if err != {} {
      assert m.state.(pendingRequirement := None) == m.state;
    }
  }

  lemma ObserveHonest(env: Oracles, input: Input, ctx: Context, call: ToolCall, m: Slice)
    requires Live(m)
    ensures var (asked, observation) := Observe(env, input, ctx, call, m);
      && Live(asked)
      && (observation.Observed? && observation.verdict.SuspendOn? ==>
            && |asked.trace| >= 1 && asked.trace[|asked.trace| - 1] == ToolCalled(m.clock, ctx, call)
            && AskedFor(env, m.clock, ctx, call, observation.verdict.requirement))
  {
  }

  lemma CallStepHonest(env: Oracles, input: Input, ctx: Context, call: ToolCall, m: Slice)
    requires Live(m)
    ensures Honest(env, CallStep(env, input, ctx, call, m))
  {
    ObserveHonest(env, input, ctx, call, Tick(m));
    hide Observe, AskedFor, EndRun, Suspend, FillIdentity, Honest;
    if env.ctxErr(m.clock) != {} {
      EndRunHonest(env, Tick(m), Cancelled, env.ctxErr(m.clock), RunCancelled);
    } else {
      var (asked, observation) := Observe(env, input, ctx, call, Tick(m));
      match observation {
        case Interrupted(err) =>
          EndRunHonest(env, asked, Cancelled, if err == {} then {ErrCanceled} else err, RunCancelled);
        case Observed(result, verdict) =>
          var recorded := Record(env, asked, FillIdentity(call, result));
          match verdict {
            case Proceed => LiveHonest(env, recorded);
            case BadSuspend(err) =>
              EndRunHonest(env, recorded, Failed, if err == {} then {ErrOther} else err, RunFailed);
            case SuspendOn(requirement) =>
              assert recorded.trace[|recorded.trace| - 2] == ToolCalled(m.clock + 1, ctx, call);
              SuspendHonest(env, recorded, requirement);
          }
      }
    }
  }

  lemma LiveHonest(env: Oracles, m: Slice)
    requires Live(m)
    ensures Honest(env, Go(m))
  {
  }

  lemma LiveOf(env: Oracles, p: Progress)
    requires Honest(env, p) && p.Go?
    ensures Live(p.slice)
  {
  }

  lemma {:induction false} CallLoopHonest(env: Oracles, input: Input, ctx: Context, calls: seq<ToolCall>, i: nat,
      m: Slice)
    requires i <= |calls| && Live(m)
    ensures Honest(env, CallLoop(env, input, ctx, calls, i, m))
    decreases |calls| - i
  {
    hide CallStep, Honest, Live;
    if i == |calls| {
      LiveHonest(env, m);
    } else {
      CallStepHonest(env, input, ctx, calls[i], m);
      var p := CallStep(env, input, ctx, calls[i], m);
      if p.Go? {
        LiveOf(env, p);
        CallLoopHonest(env, input, ctx, calls, i + 1, p.slice);
      }
    }
  }

  lemma ActHonest(env: Oracles, input: Input, ctx: Context, assistant: Message, m: Slice)
    requires Live(m)
    ensures Honest(env, Act(env, input, ctx, assistant, m))
  {
    hide CallLoop, EndRun, Suspend, ShapeErr, Honest, Complete, AskedFor, ValidateRequirementContract, Live;
    CallLoopHonest(env, input, ctx, assistant.toolCalls, 0, m);
    CompleteHonest(env, m, assistant.content);
    if assistant.requirement.Some? && assistant.requirement.value.origin == ModelOrigin {
      SuspendHonest(env, m, assistant.requirement.value);
    }
    forall err: Errors {
      EndRunHonest(env, m, Failed, err, RunFailed);
    }
  }

  lemma FailHonest(env: Oracles, m: Slice, err: Errors)
    requires Live(m)
    ensures Honest(env, Stop(CancelOrFail(env, m, err)))
    ensures Honest(env, Stop(FailRun(env, m, err)))
  {
    hide EndRun, Honest;
    var cancelled := CancellationError(env, m.clock, err);
    var failure := if err == {} then {ErrOther} else err;
    EndRunHonest(env, m, Failed, failure, RunFailed);
    EndRunHonest(env, Tick(m), Failed, failure, RunFailed);
    EndRunHonest(env, Tick(m), Cancelled, cancelled, RunCancelled);
  }

  lemma TurnHonest(env: Oracles, input: Input, ctx: Context, m: Slice)
    requires Live(m)
    ensures Honest(env, Turn(env, input, ctx, m))
  {
    hide Act, CancelOrFail, Honest, Spoken, EndRun;
    var reply := env.model(m.clock, m.state.messages);
    var asked := AskModel(m);
    if reply.err != {} {
      FailHonest(env, asked, reply.err);
    } else {
      ActHonest(env, input, ctx, Spoken(reply.message), Hear(env, asked, Spoken(reply.message)));
    }
  }

  lemma {:induction false} LoopHonest(env: Oracles, input: Input, limit: int, ctx: Context, m: Slice)
    requires Live(m)
    ensures Honest(env, Stop(Loop(env, input, limit, ctx, m)))
    decreases limit - m.state.step
  {
    hide Turn, EndRun, Honest;
    if m.state.step >= limit {
      EndRunHonest(env, m, MaxStepsExceeded, {ErrMaxStepsExceeded}, RunFailed);
    } else if env.ctxErr(m.clock) != {} {
      EndRunHonest(env, Tick(m), Cancelled, env.ctxErr(m.clock), RunCancelled);
    } else {
      TurnHonest(env, input, ctx, Tick(m));
      var p := Turn(env, input, ctx, Tick(m));
      if p.Go? {
        LiveOf(env, p);
        LoopHonest(env, input, limit, ctx, p.slice);
      }
    }
  }

  lemma ReplayHonest(env: Oracles, ctx: Context, call: ToolCall, m: Slice)
    requires Live(m)
    ensures Honest(env, ReplayStep(env, ctx, call, m))
  {
    hide CancelOrFail, Honest;
    var reply := env.tool(m.clock, ctx, call);
    var asked := Tick(m).(trace := m.trace + [ToolCalled(m.clock, ctx, call)]);
    var p := ReplayStep(env, ctx, call, m);
    if p.Go? {
      LiveHonest(env, p.slice);
    } else {
      FailHonest(env, Tick(asked), CancellationError(env, asked.clock, reply.err));
      FailHonest(env, Tick(asked), {ErrRunStateInvalid});
    }
  }

  lemma SlicesHonest(env: Oracles, ctx: Context, handed: RunState, input: Input)
    requires handed.pendingRequirement.None?
    ensures Honest(env, Stop(Slices(env, ctx, handed, input)))
  {
    hide Loop, ReplayStep, FailRun, ReplayTarget, Honest;
    var m := Enter(handed, input);
    match ReplayTarget(ctx, m.state, input) {
      case ReplayRefused(err) => FailHonest(env, m, err);
      case NoReplay => LoopHonest(env, input, Limit(input), WithoutOverride(ctx), m);
      case Replay(call) =>
        ReplayHonest(env, ctx, call, m);
        var p := ReplayStep(env, ctx, call, m);
        if p.Go? {
          LiveOf(env, p);
          LoopHonest(env, input, Limit(input), WithoutOverride(ctx), p.slice);
        }
    }
  }

  /** The requirement of a slice suspended by a tool is what its last tool call asked for. */
  lemma ToolSuspensionsAreRequested(env: Oracles, ctx: Context, handed: RunState, input: Input)
    requires Handed(handed)
    ensures var o := Execution(env, ctx, handed, input);
      ToolSuspended(o.state) ==> Requested(env, o.trace, o.state)
  {
    EngineGrowth.HandedRuns(env, ctx, handed, input);
    hide Slices;
    SlicesHonest(env, ctx, handed, input);
  }

  /** In a legal history a tool suspension stands for a request of the slice that made it. */
  lemma CommittedSuspensionsAreRequested(runID: RunID, h: seq<Commit>, i: nat)
    requires Legal(runID, h) && i < |h| && ToolSuspended(h[i].state)
    ensures i >= 1 && Requested(h[i].world.oracles, TraceAt(h, i), h[i].state)
  {
    hide Legal, SoundState, Resumable, SoundStep, Execution, ValidateEngineOutput, Handed, NamedTarget, Requested,
      Admit, ValidateRunState, SpeaksAsAssistant;
    SecondCommitOn(runID, h, i);
    LegalSound(runID, h, i - 1);
    CommitSucceeds(runID, h, i);
    var prev, c := h[i - 1].state, h[i];
    var admission := Admit(c.mutation, c.world.ctx, prev);
    if admission.ToEngine? {
      SoundVersion(runID, i, prev);
      AdmittedIsHanded(runID, i, c.mutation, c.world.ctx, prev);
      ToolSuspensionsAreRequested(c.world.oracles, admission.ctx, admission.handed, admission.input);
      RequestedAnyVersion(c.world.oracles, TraceAt(h, i), Propose(c.mutation, c.world, prev).state, i + 1);
    } else {
      StoreCommit(runID, i, prev, c.world.ctx, c.mutation);
    }
  }

  lemma RequestedAnyVersion(env: Oracles, trace: seq<Obs>, s: RunState, version: int)
    requires Requested(env, trace, s)
    ensures Requested(env, trace, s.(version := version))
  {
  }
}
