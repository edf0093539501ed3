/** Which commands a run lets through, what they hand to the engine, and what they leave behind, said
    without the branches of the admission functions.
  */
module Admissions {
  import opened Domain
  import opened ReplayContext
  import opened ReactLoop
  import opened EngineLaws
  import opened Commands
  import opened History
  import opened HistoryLaws
  import opened Validation
  import SliceLog

  function UserMessage(text: string): Message {
    Message(User, text, "", "", [], None)
  }

  predicate Over(loaded: RunState) {
    loaded.status in {Completed, Failed, Cancelled}
  }

  /** The resolution of a Continue answers what the run waits for, and is missing if it waits for nothing. */
  predicate Fitting(loaded: RunState, resolution: Option<Resolution>) {
    match loaded.pendingRequirement
    case None => resolution.None?
    case Some(requirement) =>
      && resolution.Some?
      && resolution.value.requirementID == requirement.id
      && resolution.value.kind == requirement.kind
      && Answers(resolution.value.kind, resolution.value.outcome)
  }

  /** The commands a run lets through. */
  predicate LetsThrough(loaded: RunState, command: Command) {
    && !Over(loaded)
    && match command
       case Continue(_, _, _, _, resolution) => Fitting(loaded, resolution)
       case Cancel(_) => true
       case _ => loaded.status != Suspended
  }

  /** Why it refuses the others. */
  function Reason(loaded: RunState, command: Command): Errors {
    if Over(loaded) then {if command.Cancel? then ErrRunNotCancellable else ErrRunNotContinuable}
    else if loaded.status != Suspended then {ErrResolutionUnexpected}
    else if command.Continue? && command.resolution.Some? then {ErrResolutionInvalid}
    else {ErrResolutionRequired}
  }

  // ---------------------------------------------------------------- what a command works with

  /** The state an engine command hands over: a suspension is lifted, a prompt is added. */
  function Given(loaded: RunState, command: Command): RunState {
    if command.FollowUp? then loaded.(messages := loaded.messages + [UserMessage(command.userPrompt)])
    else if loaded.status == Suspended then loaded.(status := Running, pendingRequirement := None)
    else loaded
  }

  /** Its context: approving what a tool asked for gives the override for exactly that call. */
  function GivenContext(loaded: RunState, command: Command, ctx: Context): Context {
    if && command.Continue? && command.resolution.Some? && command.resolution.value.outcome == Approved
       && loaded.pendingRequirement.Some? && loaded.pendingRequirement.value.origin == ToolOrigin
    then Carrying(ctx, Some(Override(loaded.pendingRequirement.value.toolCallID,
                                     loaded.pendingRequirement.value.fingerprint)))
    else ctx
  }

  function GivenInput(loaded: RunState, command: Command): Input {
    match command
    case Continue(_, _, maxSteps, tools, resolution) => Input(maxSteps, tools, resolution, loaded.pendingRequirement)
    case _ => Input(if command.FollowUp? then command.maxSteps else 0, command.Tools(), None, None)
  }

  /** What a command makes of a run that lets it through. */
  function Work(loaded: RunState, command: Command, world: World): Outcome
    requires !command.Start?
  {
    match command
    case Steer(_, instruction) =>
      Outcome(loaded.(messages := loaded.messages + [UserMessage(instruction)]), {}, [])
    case Cancel(_) => Outcome(loaded.(status := Cancelled, pendingRequirement := None), {}, [])
    case _ =>
      Execution(world.oracles, GivenContext(loaded, command, world.ctx), Given(loaded, command),
                GivenInput(loaded, command))
  }

  /** Cancel and Steer run nothing. */
  lemma DirectWork(loaded: RunState, command: Command, world: World)
    requires command.Cancel? || command.Steer?
    ensures Work(loaded, command, world).err == {} && Work(loaded, command, world).trace == []
  {
  }

  // ---------------------------------------------------------------- the laws

  /** A valid run refuses a command if and only if it does not let it through, and then comes back as
      it was, with the reason. */
  lemma RefusedIff(loaded: RunState, command: Command, ctx: Context)
    requires ValidateRunState(loaded) == {} && !command.Start?
    ensures var admission := Admit(Applies(command), ctx, loaded);
      if LetsThrough(loaded, command) then !admission.Refused?
      else admission == Refused(loaded, Reason(loaded, command))
  {
    if command.Continue? {
      AcceptedResolutionMeans(loaded, command.resolution);
    }
  }

  /** A command that is let through goes on with exactly this. */
  lemma AdmittedWith(loaded: RunState, command: Command, ctx: Context)
    requires ValidateRunState(loaded) == {} && !command.Start? && LetsThrough(loaded, command)
    ensures var admission := Admit(Applies(command), ctx, loaded);
      if command.Continue? || command.FollowUp? then
        admission == ToEngine(Given(loaded, command), GivenContext(loaded, command, ctx), GivenInput(loaded, command))
      else forall world :: admission == ToStore(Work(loaded, command, world).state)
  {
    if command.Continue? {
      AcceptedResolutionMeans(loaded, command.resolution);
    }
    hide Execution;
  }

  /** What a command proposes over a committed state, in full. */
  lemma ProposedIff(runID: RunID, h: seq<Commit>, version: int, command: Command, world: World)
    requires Legal(runID, h) && 1 <= version <= |h|
    requires SpeaksAsAssistant(world.oracles) && !command.Start?
    ensures var base := h[version - 1].state;
      var o := Work(base, command, world);
      Propose(Applies(command), world, base)
      == if LetsThrough(base, command) then Proposed(o.state, o.err, o.trace)
         else Declined(Some(base), Reason(base, command), [])
  {
    hide Legal, Execution, ValidateEngineOutput, SoundState, SoundStep, Resumable, LetsThrough, Reason, Succeeds;
    var base := h[version - 1].state;
    LegalSound(runID, h, version - 1);
    SoundVersion(runID, version, base);
    ProposalLaw(runID, h, version, Applies(command), world);
    RefusedIff(base, command, world.ctx);
    if LetsThrough(base, command) {
      AdmittedWith(base, command, world.ctx);
    }
  }

  // ---------------------------------------------------------------- commits

  lemma CommitOf(runID: RunID, h: seq<Commit>, i: nat)
    requires Legal(runID, h) && 1 <= i < |h| && h[i].mutation.Applies? && !h[i].mutation.command.Start?
    ensures LetsThrough(h[i - 1].state, h[i].mutation.command)
    ensures h[i].state == Work(h[i - 1].state, h[i].mutation.command, h[i].world).state.(version := i + 1)
    ensures h[i - 1].state.version == i && ValidateRunState(h[i - 1].state) == {}
    ensures SpeaksAsAssistant(h[i].world.oracles)
  {
    hide Legal, Work, LetsThrough, Reason, Propose, SoundState, SoundStep, Resumable, SpeaksAsAssistant;
    CommitSucceeds(runID, h, i);
    LegalSound(runID, h, i - 1);
    SoundVersion(runID, i, h[i - 1].state);
    ProposedIff(runID, h, i, h[i].mutation.command, h[i].world);
  }

  /** A committed Steer added exactly its instruction. */
  lemma SteerCommitted(runID: RunID, h: seq<Commit>, i: nat)
    requires Legal(runID, h) && 1 <= i < |h| && h[i].mutation.Applies? && h[i].mutation.command.Steer?
    ensures var prev := h[i - 1].state;
      && prev.status != Suspended && !Over(prev)
      && h[i].state == prev.(messages := prev.messages + [UserMessage(h[i].mutation.command.instruction)],
                             version := prev.version + 1)
  {
    hide Legal;
    CommitOf(runID, h, i);
  }

  /** A committed Cancel changed nothing but the status, and what the run waited for. */
  lemma CancelCommitted(runID: RunID, h: seq<Commit>, i: nat)
    requires Legal(runID, h) && 1 <= i < |h| && h[i].mutation.Applies? && h[i].mutation.command.Cancel?
    ensures var prev := h[i - 1].state;
      && !Over(prev)
      && h[i].state == prev.(status := Cancelled, pendingRequirement := None, version := prev.version + 1)
  {
    hide Legal;
    CommitOf(runID, h, i);
  }

  /** A committed FollowUp or Continue went on from the prompt or the resolution: the transcript
      begins with what it was before and that one message. */
  lemma SliceCommitted(runID: RunID, h: seq<Commit>, i: nat)
    requires Legal(runID, h) && 1 <= i < |h| && h[i].mutation.Applies?
    requires h[i].mutation.command.FollowUp? || h[i].mutation.command.Continue?
    ensures var prev, command := h[i - 1].state, h[i].mutation.command;
      var added := if command.FollowUp? then [UserMessage(command.userPrompt)]
                   else ResolutionMessages(command.resolution);
      && LetsThrough(prev, command)
      && prev.messages + added <= h[i].state.messages
      && (command.Continue? && command.resolution.None? <==> added == [])
      && h[i].state.status in {Completed, Suspended, MaxStepsExceeded, Cancelled, Failed}
  {
    hide Legal, Execution, LetsThrough, SoundState, Resumable, Handed, NamedTarget, SpeaksAsAssistant;
    CommitOf(runID, h, i);
    var prev, command, world := h[i - 1].state, h[i].mutation.command, h[i].world;
    LegalSound(runID, h, i - 1);
    AdmittedWith(prev, command, world.ctx);
    AdmittedIsHanded(runID, i, Applies(command), world.ctx, prev);
    var handed, input := Given(prev, command), GivenInput(prev, command);
    var ctx := GivenContext(prev, command, world.ctx);
    SliceGrows(world.oracles, ctx, handed, input);
  }

  lemma SliceGrows(env: Oracles, ctx: Context, handed: RunState, input: Input)
    requires SpeaksAsAssistant(env) && Handed(handed) && NamedTarget(ctx, handed, input)
    ensures var o := Execution(env, ctx, handed, input);
      && handed.messages + ResolutionMessages(input.resolution) <= o.state.messages
      && o.state.status in {Completed, Suspended, MaxStepsExceeded, Cancelled, Failed}
  {
    hide Execution, Handed, NamedTarget, SpeaksAsAssistant, SliceLog.Logged, SliceLog.EndingOf, SliceLog.Messages;
    var f := SliceLog.FrameOf(env, ctx, handed, input);
    var log := SliceLog.SliceEnds(env, ctx, handed, input);
    SliceLog.EndsMeans(f, log, SliceLog.EndingOf(f, log), Execution(env, ctx, handed, input));
    assert f.entry.messages <= SliceLog.Messages(f, log) by { MessagesGrow(f, log); }
  }

  lemma MessagesGrow(f: SliceLog.Frame, log: seq<Obs>)
    ensures f.entry.messages <= SliceLog.Messages(f, log)
  {
  }
}
