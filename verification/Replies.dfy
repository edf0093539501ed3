/** What one dispatch answers and leaves behind when no other command comes in between, in full: the
    state and the error it returns, and what becomes of store, recorded outcomes and event log.
  */
module Replies {
  import opened Domain
  import opened ReplayContext
  import opened ReactLoop
  import opened EngineLaws
  import opened Commands
  import opened Protocol
  import opened Admissions
  import opened HistoryLaws
  import EngineContract
  import Store
  import ProtocolLaws

  /** What the commands share. */
  datatype Shared = Shared(states: map<RunID, RunState>, outcomes: map<Key, Recorded>, log: seq<Event>)

  /** No sink refuses an event. */
  ghost predicate Silent(sinkErr: nat -> Errors) {
    forall n: nat :: sinkErr(n) == {}
  }

  /** The error is the command's own, joined with what the sink answered. */
  ghost predicate ErrorIs(err: Errors, own: Errors, sinkErr: nat -> Errors) {
    own <= err && (Silent(sinkErr) ==> err == own)
  }

  ghost predicate Refuses(was: Shared, now: Shared, result: Option<RunState>, err: Errors, reason: Errors) {
    result == None && err == reason && now == was
  }

  /** The run is saved as its next version, and everything is announced in order. */
  ghost predicate Commits(kind: CommandKind, o: Outcome, version: int, opening: seq<Event>, sinkErr: nat -> Errors,
      was: Shared, now: Shared, result: Option<RunState>, err: Errors)
  {
    var saved := o.state.(version := version);
    && result == Some(saved)
    && ErrorIs(err, o.err, sinkErr)
    && now.states == was.states[saved.id := saved]
    && now.log == was.log + opening + EventsOf(o.trace) + AfterSave(kind, saved)
  }

  /** The outcome of a Continue with a key is recorded; nothing else is. */
  ghost predicate Records(command: Command, was: Shared, now: Shared, result: Option<RunState>, err: Errors) {
    now.outcomes == match KeyOf(command)
                    case None => was.outcomes
                    case Some(key) =>
                      if result.Some? then was.outcomes[key := Recorded(result.value, err)] else was.outcomes
  }

  /** The command is turned away before any work is done. */
  ghost predicate TurnsAway(command: Command, was: Shared, result: Option<RunState>, err: Errors)
    requires !command.Start?
  {
    if !DistinctTools(command.Tools()) then result == None && err == {ErrToolDefinitionsInvalid}
    else if command.runID !in was.states then result == None && err == {ErrRunNotFound}
    else
      var loaded := was.states[command.runID];
      !LetsThrough(loaded, command) && result == Some(loaded) && err == Reason(loaded, command)
  }

  /** The command goes through to the stored run. */
  ghost predicate GoesThrough(command: Command, was: Shared)
    requires !command.Start?
  {
    DistinctTools(command.Tools()) && command.runID in was.states && LetsThrough(was.states[command.runID], command)
  }

  /** A command that looks at its run. */
  ghost predicate Worked(command: Command, world: World, sinkErr: nat -> Errors,
      was: Shared, now: Shared, result: Option<RunState>, err: Errors)
    requires !command.Start?
  {
    if !GoesThrough(command, was) then TurnsAway(command, was, result, err) && now == was
    else
      var loaded := was.states[command.runID];
      && Commits(command.Kind(), Work(loaded, command, world), loaded.version + 1, [], sinkErr, was, now, result, err)
      && Records(command, was, now, result, err)
  }

  /** Every command but Start. */
  ghost predicate Answered(command: Command, world: World, sinkErr: nat -> Errors,
      was: Shared, now: Shared, result: Option<RunState>, err: Errors)
    requires !command.Start?
  {
    if command.runID == "" then Refuses(was, now, result, err, {ErrInvalidRunID})
    else if KeyOf(command).Some? && KeyOf(command).value in was.outcomes then
      var recorded := was.outcomes[KeyOf(command).value];
      result == Some(recorded.state) && err == recorded.err && now == was
    else Worked(command, world, sinkErr, was, now, result, err)
  }

  function Started(input: RunInput, runID: RunID): RunState {
    InitialState(input, runID).(version := 1)
  }

  /** A Start with an identifier: the run is stored, announced, and its first slice committed as version 2. */
  ghost predicate StartWorked(input: RunInput, runID: RunID, world: World, sinkErr: nat -> Errors,
      was: Shared, now: Shared, result: Option<RunState>, err: Errors)
  {
    if runID in was.states then Refuses(was, now, result, err, {ErrRunVersionConflict, ErrCommandConflict})
    else
      var created := Started(input, runID);
      var o := Execution(world.oracles, world.ctx, created, Input(input.maxSteps, input.tools, None, None));
      && Commits(StartKind, o, 2, [PlainEvent(runID, 0, RunStarted)], sinkErr, was, now, result, err)
      && now.outcomes == was.outcomes
  }

  ghost predicate StartAnswered(input: RunInput, generated: RunID, generatorErr: Errors, world: World,
      sinkErr: nat -> Errors, was: Shared, now: Shared, result: Option<RunState>, err: Errors)
  {
    var runID := if input.runID == "" then generated else input.runID;
    if !DistinctTools(input.tools) then Refuses(was, now, result, err, {ErrToolDefinitionsInvalid})
    else if input.runID == "" && generatorErr != {} then Refuses(was, now, result, err, generatorErr)
    else if runID == "" then Refuses(was, now, result, err, {ErrInvalidRunID})
    else StartWorked(input, runID, world, sinkErr, was, now, result, err)
  }

  /** Saving over the created run is the same to the store as saving over nothing. */
  lemma CommitsOverCreated(o: Outcome, created: RunState, opening: seq<Event>, sinkErr: nat -> Errors,
      was: Shared, now: Shared, result: Option<RunState>, err: Errors)
    requires o.state.id == created.id
    requires var stored := was.(states := was.states[created.id := created]);
      Commits(StartKind, o, 2, opening, sinkErr, stored, now, result, err)
    ensures Commits(StartKind, o, 2, opening, sinkErr, was, now, result, err)
  {
    hide AfterSave, EventsOf;
    var saved := o.state.(version := 2);
    assert was.states[created.id := created][saved.id := saved] == was.states[saved.id := saved];
  }

  // ---------------------------------------------------------------- reading the log

  /** The messages somebody who follows the event log writes down. */
  function ReadBack(events: seq<Event>): seq<Message> {
    if events == [] then [] else ReadBack(events[..|events| - 1]) + MessageOf(events[|events| - 1])
  }

  lemma {:induction false} LogMirrors(trace: seq<Obs>)
    ensures ReadBack(EventsOf(trace)) == Mirror(trace)
  {
    if trace != [] {
      var init, last := trace[..|trace| - 1], trace[|trace| - 1];
      LogMirrors(init);
      if last.Published? {
        assert EventsOf(trace) == EventsOf(init) + [last.event];
        assert EventsOf(trace)[..|EventsOf(trace)| - 1] == EventsOf(init);
      } else {
        assert EventsOf(trace) == EventsOf(init);
        assert Mirror(trace) == Mirror(init);
      }
    }
  }

  /** What a slice adds to the log reads back as exactly what it adds to the transcript. */
  lemma SliceReadsBack(env: Oracles, ctx: Context, handed: RunState, input: Input)
    requires SpeaksAsAssistant(env) && Handed(handed) && NamedTarget(ctx, handed, input)
    ensures var o := Execution(env, ctx, handed, input);
      o.state.messages == handed.messages + ResolutionMessages(input.resolution) + ReadBack(EventsOf(o.trace))
  {
    hide Execution, SpeaksAsAssistant, Handed, NamedTarget, EventsOf, Mirror;
    EngineContract.EventsMirrorTranscript(env, ctx, handed, input);
    LogMirrors(Execution(env, ctx, handed, input).trace);
  }

  // ---------------------------------------------------------------- proposals over the store

  /** What the command of a thread proposes over a stored run can be saved. */
  lemma ProposalSaves(actions: seq<Action>, r: RunID, command: Command, world: World)
    requires r in Run(actions).states && SpeaksAsAssistant(world.oracles) && !command.Start?
    ensures var states := Run(actions).states;
      var base := states[r];
      var o := Work(base, command, world);
      var p := Propose(Applies(command), world, base);
      && p == (if LetsThrough(base, command) then Proposed(o.state, o.err, o.trace)
               else Declined(Some(base), Reason(base, command), []))
      && (p.Proposed? ==> Savable(states, r, o.state))
  {
    hide Run, LetsThrough, Reason, Work, Propose, SpeaksAsAssistant, ValidateSuspension;
    ProtocolLaws.StoreIsLegal(actions, r);
    var h := Run(actions).history[r];
    ProposedIff(r, h, |h|, command, world);
    ProposalLaw(r, h, |h|, Applies(command), world);
  }

  /** The same for the first slice of a run nobody has touched. */
  lemma FirstProposalSaves(actions: seq<Action>, r: RunID, input: RunInput, world: World)
    requires r in Run(actions).states && Run(actions).states[r].version == 1 && SpeaksAsAssistant(world.oracles)
    ensures var states := Run(actions).states;
      var o := Execution(world.oracles, world.ctx, states[r], Input(input.maxSteps, input.tools, None, None));
      && Propose(FirstSlice(input), world, states[r]) == Proposed(o.state, o.err, o.trace)
      && Savable(states, r, o.state)
  {
    hide Run, Execution, SpeaksAsAssistant, ValidateSuspension, ValidateEngineOutput;
    ProtocolLaws.StoreIsLegal(actions, r);
    var h := Run(actions).history[r];
    ProposalLaw(r, h, |h|, FirstSlice(input), world);
  }

  ghost predicate Savable(states: map<RunID, RunState>, r: RunID, out: RunState) {
    && out.id == r != "" && r in states && out.version == states[r].version && out.step >= 0
    && Store.SaveErr(states, out) == {}
  }

  /** The events a save is followed by are valid. */
  lemma ClosingEventsAreValid(kind: CommandKind, saved: RunState)
    requires saved.id != "" && saved.step >= 0
    ensures ValidateEvent(Event(saved.id, saved.step, CommandApplied, Some(kind), None, None)) == {}
    ensures forall t | t in {RunStarted, RunCancelled, RunSuspended, RunCheckpoint} ::
      ValidateEvent(PlainEvent(saved.id, saved.step, t)) == {}
  {
  }

  /** What the engine leaves to the runner to announce. */
  function Outcomes(saved: RunState): seq<Event> {
    if saved.status == Cancelled then [PlainEvent(saved.id, saved.step, RunCancelled)]
    else if saved.status == Suspended then [PlainEvent(saved.id, saved.step, RunSuspended)]
    else []
  }

  lemma AfterSaveParts(kind: CommandKind, saved: RunState)
    ensures var applied := Event(saved.id, saved.step, CommandApplied, Some(kind), None, None);
      && (kind == CancelKind || kind == SteerKind ==>
            var first := if kind == CancelKind then RunCancelled else RunCheckpoint;
            AfterSave(kind, saved) == [PlainEvent(saved.id, saved.step, first), applied])
      && (kind != CancelKind && kind != SteerKind ==>
            AfterSave(kind, saved) == Outcomes(saved) + [PlainEvent(saved.id, saved.step, RunCheckpoint), applied])
  {
  }

  lemma CreatedIsValid(input: RunInput, runID: RunID)
    requires runID != ""
    ensures ValidateRunState(InitialState(input, runID)) == {} && InitialState(input, runID).version == 0
  {
  }

  lemma CommitsBySaving(kind: CommandKind, o: Outcome, sinkErr: nat -> Errors, was: Shared, now: Shared,
      saved: RunState, err: Errors)
    requires saved == o.state.(version := o.state.version + 1)
    requires now.states == was.states[o.state.id := saved]
    requires now.log == was.log + EventsOf(o.trace) + AfterSave(kind, saved)
    requires ErrorIs(err, o.err, sinkErr)
    ensures Commits(kind, o, o.state.version + 1, [], sinkErr, was, now, Some(saved), err)
  {
    hide EventsOf, AfterSave, ErrorIs;
    assert was.log + [] == was.log;
  }

  /** What was saved and announced is what the command had to leave behind. */
  lemma WorkedBySaving(command: Command, world: World, sinkErr: nat -> Errors, was: Shared, now: Shared, o: Outcome,
      saved: RunState, err: Errors)
    requires !command.Start? && GoesThrough(command, was) && o == Work(was.states[command.runID], command, world)
    requires Savable(was.states, command.runID, o.state) && saved == o.state.(version := o.state.version + 1)
    requires now.states == was.states[o.state.id := saved]
    requires now.log == was.log + EventsOf(o.trace) + AfterSave(command.Kind(), saved)
    requires ErrorIs(err, o.err, sinkErr) && Records(command, was, now, Some(saved), err)
    ensures Worked(command, world, sinkErr, was, now, Some(saved), err)
  {
    hide GoesThrough, Work, EventsOf, AfterSave, ErrorIs, Records, Commits, Store.SaveErr;
    CommitsBySaving(command.Kind(), o, sinkErr, was, now, saved, err);
  }

  lemma WorkedByTurningAway(command: Command, world: World, sinkErr: nat -> Errors, was: Shared,
      result: Option<RunState>, err: Errors)
    requires !command.Start? && !GoesThrough(command, was) && TurnsAway(command, was, result, err)
    ensures Worked(command, world, sinkErr, was, was, result, err)
  {
  }

  /** Without a key nothing is recorded or looked up. */
  lemma KeylessAnswer(command: Command, world: World, sinkErr: nat -> Errors, was: Shared, now: Shared,
      result: Option<RunState>, err: Errors)
    requires !command.Start? && !command.Continue? && command.runID != ""
    requires Worked(command, world, sinkErr, was, now, result, err)
    ensures Answered(command, world, sinkErr, was, now, result, err)
  {
    hide Worked;
  }
}
