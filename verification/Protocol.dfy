/** The runner under concurrency: any number of threads, each dispatching one command, interleaved
    at the atomic steps of the source.

    A thread takes and gives back the lock of its run (not for Start), looks up and records
    idempotent outcomes (Continue only), loads, runs the command, saves and publishes. The fields
    `history` and `replays` record what happened and are read by no step.
  */
module Protocol {
  import opened Domain
  import opened ReactLoop
  import opened EngineLaws
  import opened Commands
  import opened History
  import Store
  import opened LockTable

  /** Idempotency keys exist for Continue only. */
  datatype Key = Key(runID: RunID, commandID: string)

  datatype Recorded = Recorded(state: RunState, err: Errors)

  datatype Stage =
    | Queued                                              // wants the run's lock
    | Creating(input: RunInput)                           // Start: saves the created run
    | Checking                                            // Continue: looks up its key
    | Loading
    | Slicing(base: RunState, carried: Errors)            // runs the command on the loaded state
    | Saving(base: RunState, carried: Errors, world: World, out: RunState, runErr: Errors, trace: seq<Obs>)
    | Publishing(saved: RunState, queue: seq<Event>, err: Errors, more: bool)
    | Recording(saved: RunState, err: Errors)             // Continue: records its outcome
    | Finished(result: Option<RunState>, err: Errors)

  datatype Thread = Thread(command: Command, runID: RunID, stage: Stage)

  /** An approved replay that was executed: the run and the version of the suspension it answers. */
  datatype ReplayMark = ReplayMark(runID: RunID, version: int)

  datatype Sys = Sys(
    locks: LockTable, states: map<RunID, RunState>, outcomes: map<Key, Recorded>,
    threads: map<ThreadID, Thread>, log: seq<Event>,
    history: map<RunID, seq<Commit>>, replays: seq<ReplayMark>)

  const INIT := Sys(EMPTY, map[], map[], map[], [], map[], [])

  datatype Action =
    | Begin(t: ThreadID, command: Command, generated: RunID, generatorErr: Errors)
    | Advance(t: ThreadID, world: World, sinkErr: Errors)

  // ---------------------------------------------------------------- keys and mutations

  /** continueIdempotencyKey. */
  function KeyOf(command: Command): Option<Key> {
    if command.Continue? && command.runID != "" && Trim(command.commandID) != ""
    then Some(Key(command.runID, Trim(command.commandID)))
    else None
  }

  function MutationOf(command: Command): Mutation {
    if command.Start? then FirstSlice(command.input) else Applies(command)
  }

  function SaveError(command: Command, err: Errors): Errors {
    if command.Steer? then err else Store.NormalizeSaveErr(err)
  }

  function EventsOf(trace: seq<Obs>): seq<Event> {
    if trace == [] then []
    else
      var last := trace[|trace| - 1];
      EventsOf(trace[..|trace| - 1]) + (if last.Published? then [last.event] else [])
  }

  /** The replay a slice starts with, if it is an approved resumption. */
  function ReplayOf(mutation: Mutation, world: World, base: RunState): Option<ToolCall> {
    match Admit(mutation, world.ctx, base)
    case ToEngine(handed, ctx, input) =>
      var target := ReplayTarget(ctx, Enter(handed, input).state, input);
      if target.Replay? then Some(target.call) else None
    case _ => None
  }

  // ---------------------------------------------------------------- steps

  function Put(s: Sys, t: ThreadID, stage: Stage): Sys
    requires t in s.threads
  {
    s.(threads := s.threads[t := s.threads[t].(stage := stage)])
  }

  /** Only the stage of `t` changes among threads and locks. */
  ghost predicate Moves(s: Sys, after: Sys, t: ThreadID) {
    && t in s.threads && t in after.threads
    && after.locks == s.locks
    && after.threads == s.threads[t := s.threads[t].(stage := after.threads[t].stage)]
  }

  /** The step writes neither store nor history. */
  ghost predicate Quiet(s: Sys, after: Sys) {
    after.states == s.states && after.history == s.history
  }

  function BeginThread(command: Command, generated: RunID, generatorErr: Errors): Thread {
    if command.Start? then
      var toolsErr := ToolsErr(command.input.tools, 0);
      var runID := if command.input.runID != "" then command.input.runID else generated;
      if toolsErr != {} then Thread(command, runID, Finished(None, toolsErr))
      else if command.input.runID == "" && generatorErr != {} then Thread(command, runID, Finished(None, generatorErr))
      else if runID == "" then Thread(command, runID, Finished(None, {ErrInvalidRunID}))
      else Thread(command, runID, Creating(command.input))
    else if command.runID == "" then Thread(command, "", Finished(None, {ErrInvalidRunID}))
    else Thread(command, command.runID, Queued)
  }

  /** Take a reference to the run's lock, then the lock itself once it is free. */
  function StepQueued(s: Sys, t: ThreadID): (after: Sys)
    requires t in s.threads
    ensures after.outcomes == s.outcomes
    ensures Quiet(s, after)
    ensures after.threads == s.threads
         || after.threads == s.threads[t := s.threads[t].(stage := Checking)]
         || after.threads == s.threads[t := s.threads[t].(stage := Loading)]
  {
    var command := s.threads[t].command;
    if t !in s.locks.seats then s.(locks := AcquireRef(s.locks, t, s.threads[t].runID))
    else if CanEnter(s.locks, t) then
      Put(s.(locks := EnterLock(s.locks, t)), t, if command.Continue? then Checking else Loading)
    else s
  }

  /** Save the created run and go on to its first slice. */
  function StepCreating(s: Sys, t: ThreadID, world: World): (after: Sys)
    requires t in s.threads && s.threads[t].stage.Creating?
    ensures after.outcomes == s.outcomes
    ensures Moves(s, after, t)
    ensures after.threads[t].stage.Publishing? || after.threads[t].stage.Finished?
  {
    var input := s.threads[t].stage.input;
    var runID := s.threads[t].runID;
    var created := InitialState(input, runID);
    var err := Store.SaveErr(s.states, created);
    if err != {} then Put(s, t, Finished(None, SaveError(s.threads[t].command, err)))
    else
      var saved := Store.SavedState(s.states, created);
      Put(s.(states := s.states[runID := saved],
             history := s.history[runID := [Commit(Creates(input), world, saved)]]),
          t, Publishing(saved, [PlainEvent(runID, 0, RunStarted)], {}, true))
  }

  function StepChecking(s: Sys, t: ThreadID): (after: Sys)
    requires t in s.threads
    ensures after.outcomes == s.outcomes
    ensures Moves(s, after, t) && Quiet(s, after)
    ensures after.threads[t].stage.Loading? || after.threads[t].stage.Finished?
  {
    var key := KeyOf(s.threads[t].command);
    if key.Some? && key.value in s.outcomes then
      Put(s, t, Finished(Some(s.outcomes[key.value].state), s.outcomes[key.value].err))
    else Put(s, t, Loading)
  }

  function StepLoading(s: Sys, t: ThreadID): (after: Sys)
    requires t in s.threads
    ensures after.outcomes == s.outcomes
    ensures Moves(s, after, t) && Quiet(s, after)
    ensures after.threads[t].stage.Slicing? || after.threads[t].stage.Finished?
  {
    var thread := s.threads[t];
    var toolsErr := ToolsErr(thread.command.Tools(), 0);
    var loadErr := Store.LoadErr(s.states, thread.runID);
    if toolsErr != {} then Put(s, t, Finished(None, toolsErr))
    else if loadErr != {} then Put(s, t, Finished(None, loadErr))
    else Put(s, t, Slicing(s.states[thread.runID], {}))
  }

  /** Run the command; what the engine publishes goes to the log. */
  function StepSlicing(s: Sys, t: ThreadID, world: World): (after: Sys)
    requires t in s.threads && s.threads[t].stage.Slicing?
    ensures after.outcomes == s.outcomes
    ensures Moves(s, after, t) && Quiet(s, after)
    ensures after.threads[t].stage.Saving? || after.threads[t].stage.Finished?
  {
    var thread := s.threads[t];
    var base, carried := thread.stage.base, thread.stage.carried;
    var mutation := MutationOf(thread.command);
    var proposal := Propose(mutation, world, base);
    var noted := s.(log := s.log + EventsOf(proposal.trace),
                    replays := s.replays + (if ReplayOf(mutation, world, base).Some?
                                            then [ReplayMark(thread.runID, base.version)] else []));
    match proposal
    case Declined(result, err, _) => Put(noted, t, Finished(result, err + carried))
    case Proposed(out, runErr, trace) => Put(noted, t, Saving(base, carried, world, out, runErr, trace))
  }

  function StepSaving(s: Sys, t: ThreadID): (after: Sys)
    requires t in s.threads && s.threads[t].stage.Saving?
    ensures after.outcomes == s.outcomes
    ensures Moves(s, after, t)
    ensures after.threads[t].stage.Publishing? || after.threads[t].stage.Finished?
  {
    var thread := s.threads[t];
    var stage := thread.stage;
    var err := Store.SaveErr(s.states, stage.out);
    if err != {} then Put(s, t, Finished(None, stage.runErr + SaveError(thread.command, err) + stage.carried))
    else
      var saved := Store.SavedState(s.states, stage.out);
      var past := if saved.id in s.history then s.history[saved.id] else [];
      Put(s.(states := s.states[saved.id := saved],
             history := s.history[saved.id := past + [Commit(MutationOf(thread.command), stage.world, saved)]]),
          t, Publishing(saved, AfterSave(thread.command.Kind(), saved), stage.runErr + stage.carried, false))
  }

  function StepPublishing(s: Sys, t: ThreadID, sinkErr: Errors): (after: Sys)
    requires t in s.threads && s.threads[t].stage.Publishing?
    ensures after.outcomes == s.outcomes
    ensures Moves(s, after, t) && Quiet(s, after)
    ensures var next := after.threads[t].stage;
      next.Publishing? || next.Slicing? || next.Finished? || (next.Recording? && s.threads[t].command.Continue?)
  {
    var thread := s.threads[t];
    var stage := thread.stage;
    if stage.queue != [] then
      var event := stage.queue[0];
      var err := if ValidateEvent(event) != {} then ValidateEvent(event)
                 else if sinkErr != {} then {ErrEventPublish} + sinkErr else {};
      Put(s.(log := s.log + [event]), t, Publishing(stage.saved, stage.queue[1..], stage.err + err, stage.more))
    else if stage.more then Put(s, t, Slicing(stage.saved, stage.err))
    else if KeyOf(thread.command).Some? then Put(s, t, Recording(stage.saved, stage.err))
    else Put(s, t, Finished(Some(stage.saved), stage.err))
  }

  function StepRecording(s: Sys, t: ThreadID): (after: Sys)
    requires t in s.threads && s.threads[t].stage.Recording?
    ensures Moves(s, after, t) && Quiet(s, after)
    ensures after.threads[t].stage.Finished?
  {
    var stage := s.threads[t].stage;
    var key := KeyOf(s.threads[t].command);
    var recorded := if key.Some? then s.(outcomes := s.outcomes[key.value := Recorded(stage.saved, stage.err)]) else s;
    Put(recorded, t, Finished(Some(stage.saved), stage.err))
  }

  /** Give back the mutex, then the reference, and return. */
  function StepFinished(s: Sys, t: ThreadID): (after: Sys)
    requires t in s.threads
    ensures after.outcomes == s.outcomes
    ensures Quiet(s, after)
    ensures after.threads == s.threads || after.threads == s.threads - {t}
  {
    if t in s.locks.seats && s.locks.seats[t].phase == Holding then s.(locks := ExitLock(s.locks, t))
    else if t in s.locks.seats && s.locks.seats[t].lock in s.locks.refs then
      s.(locks := ReleaseRef(s.locks, t), threads := s.threads - {t})
    else s.(threads := s.threads - {t})
  }

  function StepThread(s: Sys, t: ThreadID, world: World, sinkErr: Errors): Sys
    requires t in s.threads
  {
    match s.threads[t].stage
    case Queued => StepQueued(s, t)
    case Creating(_) => StepCreating(s, t, world)
    case Checking => StepChecking(s, t)
    case Loading => StepLoading(s, t)
    case Slicing(_, _) => StepSlicing(s, t, world)
    case Saving(_, _, _, _, _, _) => StepSaving(s, t)
    case Publishing(_, _, _, _) => StepPublishing(s, t, sinkErr)
    case Recording(_, _) => StepRecording(s, t)
    case Finished(_, _) => StepFinished(s, t)
  }

  /** One action; an action that is not enabled changes nothing. */
  ghost function Next(s: Sys, a: Action): Sys {
    match a
    case Begin(t, command, generated, generatorErr) =>
      if t in s.threads then s
      else s.(threads := s.threads[t := BeginThread(command, generated, generatorErr)])
    case Advance(t, world, sinkErr) =>
      if t !in s.threads || !SpeaksAsAssistant(world.oracles) then s else StepThread(s, t, world, sinkErr)
  }

  /** Any interleaving is a sequence of actions from the empty system. */
  ghost function Run(actions: seq<Action>): Sys {
    if actions == [] then INIT else Next(Run(actions[..|actions| - 1]), actions[|actions| - 1])
  }
}
