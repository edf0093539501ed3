/** The step budget of the HTTP handlers, and what it means for stored runs. */
module PolicyLimit {
  import opened Domain
  import opened ReactLoop
  import opened EngineLaws
  import opened Commands
  import opened History
  import opened HistoryLaws
  import Store
  import opened Protocol
  import ProtocolLaws

  const DEFAULT_MAX_COMMAND_STEPS := 8

  datatype Budget = Granted(maxSteps: int) | Exceeded | NotPositive

  /** `input` is the optional max_steps of the request; a granted 0 leaves the budget to the engine. */
  function NormalizeCommandMaxSteps(input: Option<int>, maxAllowed: int): Budget {
    var ceiling := if maxAllowed <= 0 then DEFAULT_MAX_COMMAND_STEPS else maxAllowed;
    match input
    case None => if DEFAULT_MAX_COMMAND_STEPS > ceiling then Exceeded else Granted(0)
    case Some(n) => if n <= 0 then NotPositive else if n > ceiling then Exceeded else Granted(n)
  }

  function Ceiling(maxAllowed: int): int {
    if maxAllowed <= 0 then DEFAULT_MAX_COMMAND_STEPS else maxAllowed
  }

  /** What the client asks for: its own number, or the engine's default. */
  function Asked(input: Option<int>): int {
    if input.Some? then input.value else DEFAULT_MAX_STEPS
  }

  /** A budget is granted exactly when what the engine will make of it is positive and within the
      policy; in particular the implicit default is checked too. */
  lemma GrantedIsWithinPolicy(input: Option<int>, maxAllowed: int, engineInput: Input)
    ensures var budget := NormalizeCommandMaxSteps(input, maxAllowed);
      && (budget.Granted? <==> 1 <= Asked(input) <= Ceiling(maxAllowed))
      && (budget.Granted? ==> Limit(engineInput.(maxSteps := budget.maxSteps)) == Asked(input))
      && (budget.NotPositive? <==> Asked(input) < 1)
  {
  }

  // ---------------------------------------------------------------- one history

  /** The command carries a budget that the handlers granted. */
  ghost predicate Within(command: Command, maxAllowed: int) {
    match command
    case Start(input) => exists asked :: NormalizeCommandMaxSteps(asked, maxAllowed) == Granted(input.maxSteps)
    case Continue(_, _, maxSteps, _, _) =>
      exists asked :: NormalizeCommandMaxSteps(asked, maxAllowed) == Granted(maxSteps)
    case FollowUp(_, _, maxSteps, _) =>
      exists asked :: NormalizeCommandMaxSteps(asked, maxAllowed) == Granted(maxSteps)
    case _ => true
  }

  ghost predicate MutationWithin(mutation: Mutation, maxAllowed: int) {
    match mutation
    case Creates(_) => true
    case FirstSlice(input) => Within(Start(input), maxAllowed)
    case Applies(command) => Within(command, maxAllowed)
  }

  lemma ProposalWithin(mutation: Mutation, world: World, base: RunState, maxAllowed: int)
    requires MutationWithin(mutation, maxAllowed) && base.step <= Ceiling(maxAllowed)
    requires Propose(mutation, world, base).Proposed?
    ensures Propose(mutation, world, base).state.step <= Ceiling(maxAllowed)
  {
    hide Execution, ValidateEngineOutput, ValidateRunState;
  }

  /** If every command of a history came through the handlers, no state ever exceeds the policy. */
  lemma {:induction false} HistoryWithin(runID: RunID, h: seq<Commit>, i: nat, maxAllowed: int)
    requires Legal(runID, h) && i < |h|
    requires forall k | 0 <= k < |h| :: MutationWithin(h[k].mutation, maxAllowed)
    ensures h[i].state.step <= Ceiling(maxAllowed)
  {
    hide Legal, MutationWithin, Propose;
    if i == 0 {
      CreatedAtZero(runID, h);
    } else {
      HistoryWithin(runID, h, i - 1, maxAllowed);
      CommitSucceeds(runID, h, i);
      ProposalWithin(h[i].mutation, h[i].world, h[i - 1].state, maxAllowed);
    }
  }

  lemma CreatedAtZero(runID: RunID, h: seq<Commit>)
    requires Legal(runID, h)
    ensures h[0].state.step == 0
  {
    InitialPrompts(h[0].mutation.input, runID);
  }

  // ---------------------------------------------------------------- all interleavings

  ghost predicate Driven(actions: seq<Action>, maxAllowed: int) {
    forall k | 0 <= k < |actions| && actions[k].Begin? :: Within(actions[k].command, maxAllowed)
  }

  ghost predicate ThreadWithin(thread: Thread, maxAllowed: int) {
    Within(thread.command, maxAllowed)
  }

  ghost predicate AllWithin(s: Sys, maxAllowed: int) {
    && (forall t | t in s.threads :: ThreadWithin(s.threads[t], maxAllowed))
    && (forall r, k | r in s.history && 0 <= k < |s.history[r]| :: MutationWithin(s.history[r][k].mutation, maxAllowed))
  }

  /** What a step does to threads and histories, seen from the budgets. */
  ghost predicate Extends(s: Sys, after: Sys, t: nat) {
    && t in s.threads
    && (forall u | u in after.threads ::
          u in s.threads && after.threads[u].command == s.threads[u].command)
    && (forall r, k | r in after.history && 0 <= k < |after.history[r]| ::
          || after.history[r][k].mutation.Creates?
          || after.history[r][k].mutation == MutationOf(s.threads[t].command)
          || (r in s.history && k < |s.history[r]| && after.history[r][k] == s.history[r][k]))
  }

  lemma QuietExtends(s: Sys, after: Sys, t: nat)
    requires t in s.threads && after.history == s.history
    requires after.threads == s.threads
          || after.threads == s.threads - {t}
          || (t in after.threads && after.threads == s.threads[t := s.threads[t].(stage := after.threads[t].stage)])
    ensures Extends(s, after, t)
  {
  }

  lemma SavingExtends(s: Sys, t: nat)
    requires t in s.threads && s.threads[t].stage.Saving?
    ensures Extends(s, StepSaving(s, t), t)
  {
    hide AfterSave, Store.SaveErr, Store.SavedState;
  }

  lemma CreatingExtends(s: Sys, t: nat, world: World)
    requires t in s.threads && s.threads[t].stage.Creating?
    ensures Extends(s, StepCreating(s, t, world), t)
  {
    hide InitialState, Store.SaveErr, Store.SavedState;
  }

  lemma StepExtends(s: Sys, t: nat, world: World, sinkErr: Errors)
    requires t in s.threads
    ensures Extends(s, StepThread(s, t, world, sinkErr), t)
  {
    hide Extends, StepCreating, StepChecking, StepLoading, StepSlicing, StepSaving, StepPublishing, StepRecording,
      StepQueued, StepFinished;
    match s.threads[t].stage {
      case Creating(_) => CreatingExtends(s, t, world);
      case Saving(_, _, _, _, _, _) => SavingExtends(s, t);
      case Queued => QueuedExtends(s, t);
      case _ => QuietExtends(s, StepThread(s, t, world, sinkErr), t);
    }
  }

  lemma QueuedExtends(s: Sys, t: nat)
    requires t in s.threads
    ensures Extends(s, StepQueued(s, t), t)
  {
    hide StepQueued;
    var after := StepQueued(s, t);
    if after.threads != s.threads {
      assert t in after.threads;
    }
    QuietExtends(s, after, t);
  }

  lemma StepWithin(s: Sys, t: nat, world: World, sinkErr: Errors, maxAllowed: int)
    requires AllWithin(s, maxAllowed) && t in s.threads
    ensures AllWithin(StepThread(s, t, world, sinkErr), maxAllowed)
  {
    hide StepThread, Within;
    StepExtends(s, t, world, sinkErr);
    assert ThreadWithin(s.threads[t], maxAllowed);
    assert MutationOf(s.threads[t].command).FirstSlice? ==>
      s.threads[t].command == Start(s.threads[t].command.input);
    assert MutationWithin(MutationOf(s.threads[t].command), maxAllowed);
  }

  lemma {:induction false} RunWithin(actions: seq<Action>, maxAllowed: int)
    requires Driven(actions, maxAllowed)
    ensures AllWithin(Run(actions), maxAllowed)
  {
    hide Within, StepThread, SpeaksAsAssistant, BeginThread;
    if actions != [] {
      var init, last := actions[..|actions| - 1], actions[|actions| - 1];
      assert forall k | 0 <= k < |init| :: init[k] == actions[k];
      RunWithin(init, maxAllowed);
      if last.Advance? && last.t in Run(init).threads {
        StepWithin(Run(init), last.t, last.world, last.sinkErr, maxAllowed);
      }
      if last.Begin? {
        BegunWithin(last.command, last.generated, last.generatorErr, maxAllowed);
      }
    }
  }

  lemma BegunWithin(command: Command, generated: RunID, generatorErr: Errors, maxAllowed: int)
    requires Within(command, maxAllowed)
    ensures ThreadWithin(BeginThread(command, generated, generatorErr), maxAllowed)
  {
    hide Within, ToolsErr;
  }

  /** However commands interleave, the step count of a stored run never exceeds the policy. */
  lemma StepsNeverExceedPolicy(actions: seq<Action>, maxAllowed: int, r: RunID)
    requires Driven(actions, maxAllowed) && r in Run(actions).states
    ensures Run(actions).states[r].step <= Ceiling(maxAllowed)
  {
    hide Run, Legal, MutationWithin;
    RunWithin(actions, maxAllowed);
    ProtocolLaws.StoreIsLegal(actions, r);
    var h := Run(actions).history[r];
    HistoryWithin(r, h, |h| - 1, maxAllowed);
  }
}
