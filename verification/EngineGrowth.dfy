/** A slice only appends: to the transcript and to what it has done. Every tool call of the loop is
    made in the loop's context, so only the replay can see an override.
  */
module EngineGrowth {
  import opened Domain
  import opened ReplayContext
  import opened ReactLoop
  import opened EngineLaws

  /** `messages` and `trace` continue those of `m`, with tool calls made in `ctx` only. */
  ghost predicate Grown(m: Slice, messages: seq<Message>, trace: seq<Obs>, ctx: Context) {
    && m.state.messages <= messages
    && m.trace <= trace
    && forall k | |m.trace| <= k < |trace| && trace[k].ToolCalled? :: trace[k].ctx == ctx
  }

  ghost predicate GrownBy(m: Slice, p: Progress, ctx: Context) {
    match p
    case Go(next) => Grown(m, next.state.messages, next.trace, ctx)
    case Stop(o) => Grown(m, o.state.messages, o.trace, ctx)
  }

  lemma GrownTrans(m: Slice, next: Slice, messages: seq<Message>, trace: seq<Obs>, ctx: Context)
    requires Grown(m, next.state.messages, next.trace, ctx) && Grown(next, messages, trace, ctx)
    ensures Grown(m, messages, trace, ctx)
  {
    assert forall k | 0 <= k < |next.trace| :: trace[k] == next.trace[k];
  }

  lemma EndRunGrown(env: Oracles, m: Slice, to: RunStatus, err: Errors, kind: EventType, ctx: Context)
    ensures GrownBy(m, Stop(EndRun(env, m, to, err, kind)), ctx)
  {
  }

  lemma CallStepGrown(env: Oracles, input: Input, ctx: Context, call: ToolCall, m: Slice)
    ensures GrownBy(m, CallStep(env, input, ctx, call, m), ctx)
  {
    if env.ctxErr(m.clock) == {} {
      var (asked, observation) := Observe(env, input, ctx, call, Tick(m));
      assert Grown(m, asked.state.messages, asked.trace, ctx);
      if observation.Observed? {
        var recorded := Record(env, asked, FillIdentity(call, observation.result));
        assert Grown(m, recorded.state.messages, recorded.trace, ctx);
        match observation.verdict {
          case Proceed =>
          case BadSuspend(err) => SuspendOrFailGrown(env, recorded, err, ctx);
          case SuspendOn(requirement) => SuspendGrown(env, recorded, requirement, ctx);
        }
        hide Observe, FillIdentity, Record, Suspend, FailRun, Grown;
        GrownByTrans(m, recorded, CallStep(env, input, ctx, call, m), ctx);
      }
    }
  }

  lemma SuspendOrFailGrown(env: Oracles, m: Slice, err: Errors, ctx: Context)
    ensures GrownBy(m, Stop(FailRun(env, m, err)), ctx)
  {
  }

  lemma SuspendGrown(env: Oracles, m: Slice, requirement: PendingRequirement, ctx: Context)
    ensures GrownBy(m, Stop(Suspend(env, m, requirement)), ctx)
  {
  }

  lemma {:induction false} CallLoopGrown(env: Oracles, input: Input, ctx: Context, calls: seq<ToolCall>, i: nat,
      m: Slice)
    requires i <= |calls|
    ensures GrownBy(m, CallLoop(env, input, ctx, calls, i, m), ctx)
    decreases |calls| - i
  {
    hide CallStep, Grown;
    if i == |calls| {
      GrownSelf(m, ctx);
    } else {
      CallStepGrown(env, input, ctx, calls[i], m);
      var p := CallStep(env, input, ctx, calls[i], m);
      if p.Go? {
        CallLoopGrown(env, input, ctx, calls, i + 1, p.slice);
        GrownByTrans(m, p.slice, CallLoop(env, input, ctx, calls, i + 1, p.slice), ctx);
      }
    }
  }

  lemma GrownSelf(m: Slice, ctx: Context)
    ensures Grown(m, m.state.messages, m.trace, ctx)
  {
  }

  lemma GrownByTrans(m: Slice, next: Slice, p: Progress, ctx: Context)
    requires Grown(m, next.state.messages, next.trace, ctx) && GrownBy(next, p, ctx)
    ensures GrownBy(m, p, ctx)
  {
    if p.Go? {
      GrownTrans(m, next, p.slice.state.messages, p.slice.trace, ctx);
    } else {
      GrownTrans(m, next, p.outcome.state.messages, p.outcome.trace, ctx);
    }
  }

  lemma CompleteGrown(env: Oracles, m: Slice, output: string, ctx: Context)
    ensures GrownBy(m, Stop(Complete(env, m, output)), ctx)
  {
  }

  lemma ActGrown(env: Oracles, input: Input, ctx: Context, assistant: Message, m: Slice)
    ensures GrownBy(m, Act(env, input, ctx, assistant, m), ctx)
  {
    hide CallLoop, EndRun, Suspend, ShapeErr, Grown, Complete;
    CallLoopGrown(env, input, ctx, assistant.toolCalls, 0, m);
    CompleteGrown(env, m, assistant.content, ctx);
    if assistant.requirement.Some? {
      SuspendGrown(env, m, assistant.requirement.value, ctx);
    }
    forall err: Errors {
      EndRunGrown(env, m, Failed, err, RunFailed, ctx);
    }
  }

  /** A turn either ends without a message, or begins with the assistant's. */
  ghost predicate Opens(m: Slice, messages: seq<Message>) {
    messages == m.state.messages || (|m.state.messages| < |messages| && messages[|m.state.messages|].role == Assistant)
  }

  lemma HearGrown(env: Oracles, m: Slice, assistant: Message, ctx: Context)
    ensures var heard := Hear(env, AskModel(m), assistant);
      Grown(m, heard.state.messages, heard.trace, ctx)
  {
  }

  lemma BrokenGrown(env: Oracles, m: Slice, err: Errors, ctx: Context)
    ensures GrownBy(m, Stop(CancelOrFail(env, AskModel(m), err)), ctx)
  {
  }

  lemma TurnGrown(env: Oracles, input: Input, ctx: Context, m: Slice)
    ensures GrownBy(m, Turn(env, input, ctx, m), ctx)
  {
    hide Grown, Act, Hear, AskModel, Spoken, CancelOrFail;
    var reply := env.model(m.clock, m.state.messages);
    if reply.err == {} {
      var heard := Hear(env, AskModel(m), Spoken(reply.message));
      HearGrown(env, m, Spoken(reply.message), ctx);
      ActGrown(env, input, ctx, Spoken(reply.message), heard);
      GrownByTrans(m, heard, Act(env, input, ctx, Spoken(reply.message), heard), ctx);
    } else {
      BrokenGrown(env, m, reply.err, ctx);
    }
  }

  lemma {:induction false} LoopGrown(env: Oracles, input: Input, limit: int, ctx: Context, m: Slice)
    ensures GrownBy(m, Stop(Loop(env, input, limit, ctx, m)), ctx)
    decreases limit - m.state.step
  {
    hide Turn, Grown, EndRun;
    if m.state.step >= limit {
      EndRunGrown(env, m, MaxStepsExceeded, {ErrMaxStepsExceeded}, RunFailed, ctx);
    } else {
      GrownSelf(m, ctx);
      TickGrown(m, ctx);
      if env.ctxErr(m.clock) != {} {
        EndRunGrown(env, Tick(m), Cancelled, env.ctxErr(m.clock), RunCancelled, ctx);
        GrownByTrans(m, Tick(m), Stop(Loop(env, input, limit, ctx, m)), ctx);
      } else {
        TurnGrown(env, input, ctx, Tick(m));
        var p := Turn(env, input, ctx, Tick(m));
        GrownByTrans(m, Tick(m), p, ctx);
        if p.Go? {
          LoopGrown(env, input, limit, ctx, p.slice);
          GrownByTrans(m, p.slice, Stop(Loop(env, input, limit, ctx, p.slice)), ctx);
        }
      }
    }
  }

  lemma TickGrown(m: Slice, ctx: Context)
    ensures Grown(m, Tick(m).state.messages, Tick(m).trace, ctx)
  {
  }

  lemma TurnOpens(env: Oracles, input: Input, ctx: Context, m: Slice)
    requires Spoken(env.model(m.clock, m.state.messages).message).role == Assistant
    ensures var p := Turn(env, input, ctx, m);
      match p
      case Stop(o) => Opens(m, o.state.messages)
      case Go(next) => |m.state.messages| < |next.state.messages| && Opens(m, next.state.messages)
  {
    var reply := env.model(m.clock, m.state.messages);
    if reply.err == {} {
      var assistant := Spoken(reply.message);
      var heard := Hear(env, AskModel(m), assistant);
      assert heard.state.messages == m.state.messages + [assistant];
      ActGrown(env, input, ctx, assistant, heard);
      hide Act, Hear, AskModel, Spoken;
    }
  }

  /** The first message a loop appends is an assistant message. */
  lemma LoopOpens(env: Oracles, input: Input, limit: int, ctx: Context, m: Slice)
    requires Spoken(env.model(m.clock + 1, m.state.messages).message).role == Assistant
    ensures Opens(m, Loop(env, input, limit, ctx, m).state.messages)
  {
    if m.state.step < limit && env.ctxErr(m.clock) == {} {
      TurnOpens(env, input, ctx, Tick(m));
      LoopUnfolds(env, input, limit, ctx, m);
      hide Turn, Loop;
      var p := Turn(env, input, ctx, Tick(m));
      if p.Go? {
        LoopGrown(env, input, limit, ctx, p.slice);
      }
    }
  }

  lemma LoopUnfolds(env: Oracles, input: Input, limit: int, ctx: Context, m: Slice)
    requires m.state.step < limit && env.ctxErr(m.clock) == {}
    ensures var p := Turn(env, input, ctx, Tick(m));
      Loop(env, input, limit, ctx, m) == if p.Stop? then p.outcome else Loop(env, input, limit, ctx, p.slice)
  {
  }

  // ---------------------------------------------------------------- whole slices

  /** A replay is the first thing a slice does, in the context it was handed. */
  lemma ReplayStepIsFirst(env: Oracles, ctx: Context, call: ToolCall, m: Slice)
    requires m.trace == []
    ensures match ReplayStep(env, ctx, call, m)
      case Go(next) => |next.trace| >= 1 && next.trace[0] == ToolCalled(m.clock, ctx, call)
                       && (forall k | 0 < k < |next.trace| :: !next.trace[k].ToolCalled?)
      case Stop(o) => |o.trace| >= 1 && o.trace[0] == ToolCalled(m.clock, ctx, call)
                      && (forall k | 0 < k < |o.trace| :: !o.trace[k].ToolCalled?)
  {
  }

  /** What a slice does with the tools: an approved replay comes first and sees the context of the
      slice; every other tool call sees a context without override. */
  lemma OnlyReplaySeesOverride(env: Oracles, ctx: Context, handed: RunState, input: Input)
    requires Handed(handed)
    ensures var o := Execution(env, ctx, handed, input);
      var target := ReplayTarget(ctx, Enter(handed, input).state, input);
      && (target.Replay? ==> |o.trace| >= 1 && o.trace[0] == ToolCalled(0, ctx, target.call))
      && (forall k | 0 <= k < |o.trace| && o.trace[k].ToolCalled? ::
            OverrideOf(o.trace[k].ctx).None? || (k == 0 && target.Replay?))
  {
    var m := Enter(handed, input);
    var loopCtx := WithoutOverride(ctx);
    var target := ReplayTarget(ctx, m.state, input);
    hide Handed, ReplayTarget, Loop, ReplayStep;
    match target {
      case ReplayRefused(err) =>
      case NoReplay =>
        LoopGrown(env, input, Limit(input), loopCtx, m);
      case Replay(call) =>
        ReplayStepIsFirst(env, ctx, call, m);
        var p := ReplayStep(env, ctx, call, m);
        if p.Go? {
          LoopGrown(env, input, Limit(input), loopCtx, p.slice);
        }
    }
    HandedRuns(env, ctx, handed, input);
  }

  lemma HandedRuns(env: Oracles, ctx: Context, handed: RunState, input: Input)
    requires Handed(handed)
    ensures Execution(env, ctx, handed, input) == Slices(env, ctx, handed, input)
  {
  }

  /** Without a resolution the first message a slice appends is an assistant message. */
  lemma SliceOpens(env: Oracles, ctx: Context, handed: RunState, input: Input)
    requires Handed(handed) && input.resolution.None? && SpeaksAsAssistant(env)
    ensures Opens(Slice(handed, 0, {}, []), Execution(env, ctx, handed, input).state.messages)
  {
    HandedRuns(env, ctx, handed, input);
    var m := Enter(handed, input);
    assert m.state.messages == handed.messages;
    var next := env.model(m.clock + 1, m.state.messages);
    assert Spoken(next.message).role == Assistant;
    LoopOpens(env, input, Limit(input), WithoutOverride(ctx), m);
    hide Loop, Handed, SpeaksAsAssistant, Execution;
  }
}
