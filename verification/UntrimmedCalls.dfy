/** Runs in which call identifiers with white space reach a model: one whose request the provider's
    normaliser refuses, and one whose request it accepts and robs of an observation.
  */
module UntrimmedCalls {
  import opened Domain
  import opened ReplayContext
  import opened ReactLoop
  import opened EngineLaws
  import opened EngineGrowth
  import opened Commands
  import Normalize
  import Overtaken
  import opened Protocol

  /** A model that always asks for the same calls, and nothing that interrupts it. */
  function Insisting(ids: seq<string>): Oracles {
    Oracles(n => {},
            (n, messages) => ModelReply(Normalize.Asking(ids), {}),
            (n, ctx, call) => ToolReply(ToolResult("", "", "", false, NoFailure), {}, None),
            (n, event) => {},
            (call, definition) => {})
  }

  function Unknown(calls: seq<ToolCall>): seq<Message> {
    seq(|calls|, i requires 0 <= i < |calls| => ToolResultMessage(ErrorResult(calls[i], UnknownTool)))
  }

  /** Without tools every call is answered by an error, in order. */
  lemma {:induction false} CallsAreAnswered(ids: seq<string>, input: Input, ctx: Context, calls: seq<ToolCall>,
                                            i: nat, m: Slice)
    requires input.tools == [] && i <= |calls|
    requires forall k | 0 <= k < |calls| :: calls[k].id != "" && calls[k].name != ""
    ensures var p := CallLoop(Insisting(ids), input, ctx, calls, i, m);
      && p.Go?
      && p.slice.state.messages == m.state.messages + Unknown(calls)[i..]
      && p.slice.state.step == m.state.step
    decreases |calls| - i
  {
    if i < |calls| {
      OneCallIsAnswered(ids, input, ctx, calls[i], m);
      var p := CallStep(Insisting(ids), input, ctx, calls[i], m);
      hide CallStep;
      CallsAreAnswered(ids, input, ctx, calls, i + 1, p.slice);
      assert Unknown(calls)[i..] == [Unknown(calls)[i]] + Unknown(calls)[i + 1..];
    }
  }

  lemma OneCallIsAnswered(ids: seq<string>, input: Input, ctx: Context, call: ToolCall, m: Slice)
    requires input.tools == [] && call.id != "" && call.name != ""
    ensures var p := CallStep(Insisting(ids), input, ctx, call, m);
      && p.Go?
      && p.slice.state.messages == m.state.messages + [ToolResultMessage(ErrorResult(call, UnknownTool))]
      && p.slice.state.step == m.state.step
  {
  }

  /** A turn starts by handing the model the transcript. */
  lemma TurnAsks(env: Oracles, input: Input, ctx: Context, m: Slice)
    requires env.model(m.clock, m.state.messages).err == {}
    ensures var p := Turn(env, input, ctx, m);
      var trace := if p.Go? then p.slice.trace else p.outcome.trace;
      |m.trace| < |trace| && trace[|m.trace|] == ModelCalled(m.clock, m.state.messages)
  {
    var reply := env.model(m.clock, m.state.messages);
    var heard := Hear(env, AskModel(m), Spoken(reply.message));
    ActGrown(env, input, ctx, Spoken(reply.message), heard);
    assert heard.trace[|m.trace|] == ModelCalled(m.clock, m.state.messages);
    hide Act, Hear, AskModel, Spoken;
  }

  lemma LoopAsks(ids: seq<string>, input: Input, limit: int, ctx: Context, m: Slice)
    requires m.state.step < limit
    ensures var o := Loop(Insisting(ids), input, limit, ctx, m);
      |m.trace| < |o.trace| && o.trace[|m.trace|] == ModelCalled(m.clock + 1, m.state.messages)
  {
    var env := Insisting(ids);
    TurnAsks(env, input, ctx, Tick(m));
    LoopUnfolds(env, input, limit, ctx, m);
    hide Turn, Loop;
    var p := Turn(env, input, ctx, Tick(m));
    if p.Go? {
      LoopGrown(env, input, limit, ctx, p.slice);
    }
  }

  lemma AskingIsWellShaped(ids: seq<string>)
    requires ids != [] && "" !in ids && forall i, j | 0 <= i < j < |ids| :: ids[i] != ids[j]
    ensures WellShaped(Normalize.Asking(ids).toolCalls)
  {
  }

  lemma ShapedIsAccepted(calls: seq<ToolCall>)
    requires WellShaped(calls)
    ensures ShapeErr(calls, 0) == {}
  {
    ShapedFrom(calls, 0);
  }

  lemma {:induction false} ShapedFrom(calls: seq<ToolCall>, i: nat)
    requires WellShaped(calls) && i <= |calls|
    ensures ShapeErr(calls, i) == {}
    decreases |calls| - i
  {
    if i < |calls| {
      ShapedFrom(calls, i + 1);
    }
  }

  lemma TurnAnswers(ids: seq<string>, input: Input, ctx: Context, m: Slice)
    requires input.tools == [] && ids != [] && "" !in ids && forall i, j | 0 <= i < j < |ids| :: ids[i] != ids[j]
    ensures var asking := Normalize.Asking(ids);
      var p := Turn(Insisting(ids), input, ctx, m);
      && p.Go?
      && p.slice.state.step == m.state.step + 1
      && p.slice.state.messages == m.state.messages + [asking] + Unknown(asking.toolCalls)
  {
    var asking := Normalize.Asking(ids);
    var heard := Hear(Insisting(ids), AskModel(m), asking);
    AskingIsWellShaped(ids);
    ShapedIsAccepted(asking.toolCalls);
    CallsAreAnswered(ids, input, ctx, asking.toolCalls, 0, heard);
    hide CallLoop, ShapeErr;
  }

  /** The second request of a slice that started with an empty transcript. */
  lemma SecondRequest(ids: seq<string>, ctx: Context, handed: RunState, input: Input) returns (k: nat)
    requires Handed(handed) && handed.step == 0 && handed.messages == []
    requires input.tools == [] && input.resolution.None? && input.maxSteps == 0
    requires ids != [] && "" !in ids && forall i, j | 0 <= i < j < |ids| :: ids[i] != ids[j]
    ensures var asking := Normalize.Asking(ids);
      var trace := Execution(Insisting(ids), ctx, handed, input).trace;
      k < |trace| && trace[k].ModelCalled? && trace[k].messages == [asking] + Unknown(asking.toolCalls)
  {
    hide Loop, Turn, Unknown, Normalize.Asking;
    var env, m, loopCtx := Insisting(ids), Enter(handed, input), WithoutOverride(ctx);
    HandedRuns(env, ctx, handed, input);
    TurnAnswers(ids, input, loopCtx, Tick(m));
    LoopUnfolds(env, input, Limit(input), loopCtx, m);
    var next := Turn(env, input, loopCtx, Tick(m)).slice;
    LoopAsks(ids, input, Limit(input), loopCtx, next);
    k := |next.trace|;
    var asking := Normalize.Asking(ids);
    assert [] + [asking] + Unknown(asking.toolCalls) == [asking] + Unknown(asking.toolCalls);
  }

  lemma EmptyIsHanded(base: RunState)
    requires base.id != "" && base.step == 0 && base.version >= 0 && base.messages == []
    requires base.status == Pending && base.pendingRequirement.None?
    ensures Handed(base)
  {
  }

  lemma InsistingSpeaks(ids: seq<string>)
    ensures SpeaksAsAssistant(Insisting(ids))
  {
  }

  /** A reachable thread whose slice sends this transcript to its model. */
  ghost predicate Sends(actions: seq<Action>, world: World, messages: seq<Message>) {
    var s := Run(actions);
    && SpeaksAsAssistant(world.oracles)
    && 0 in s.threads && s.threads[0].stage.Slicing?
    && var trace := Propose(MutationOf(s.threads[0].command), world, s.threads[0].stage.base).trace;
       exists k :: 0 <= k < |trace| && trace[k].ModelCalled? && trace[k].messages == messages
  }

  lemma Sent(ids: seq<string>) returns (actions: seq<Action>, world: World)
    requires ids != [] && "" !in ids && forall i, j | 0 <= i < j < |ids| :: ids[i] != ids[j]
    ensures var asking := Normalize.Asking(ids);
      Sends(actions, world, [asking] + Unknown(asking.toolCalls))
  {
    hide Run, SpeaksAsAssistant, Execution, ValidateEngineOutput, Unknown, Normalize.Asking;
    world := World(Insisting(ids), Background);
    InsistingSpeaks(ids);
    actions := Overtaken.StartIsSlicing(world);
    var base := Run(actions).threads[0].stage.base;
    EmptyIsHanded(base);
    var k := SecondRequest(ids, world.ctx, base, Input(0, [], None, None));
  }

  /** A run whose model names a call with a leading blank: the runtime answers the call, and the
      next request is refused by the normaliser. */
  lemma BlankCallIsRefused() returns (actions: seq<Action>, world: World, messages: seq<Message>)
    ensures Sends(actions, world, messages)
    ensures !Normalize.Accepted(messages)
  {
    hide Sends, Normalize.Accepted, Run;
    actions, world := Sent([" a"]);
    var asking := Normalize.Asking([" a"]);
    messages := [asking] + Unknown(asking.toolCalls);
    var answer := Unknown(asking.toolCalls)[0];
    assert messages == [asking, answer];
    Normalize.BlankBreaksAcceptance(answer);
  }

  /** A run whose model makes two calls that differ in a blank: both are answered, the next request
      is accepted, and the normaliser leaves the first answer out. */
  lemma BlankCallIsMerged() returns (actions: seq<Action>, world: World, messages: seq<Message>)
    ensures Sends(actions, world, messages)
    ensures Normalize.Accepted(messages)
    ensures Normalize.Observes(messages, " a") && !Normalize.Observes(Normalize.Normal(messages), " a")
  {
    hide Sends, Normalize.Accepted, Run, Normalize.Normal;
    actions, world := Sent([" a", "a"]);
    var asking := Normalize.Asking([" a", "a"]);
    messages := [asking] + Unknown(asking.toolCalls);
    var first, second := Unknown(asking.toolCalls)[0], Unknown(asking.toolCalls)[1];
    assert messages == [asking, first, second];
    Normalize.BlankMergesObservations(first, second);
  }
}
