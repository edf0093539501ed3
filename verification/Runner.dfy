/** The runner as an object: its store, its lock table, its table of idempotent outcomes and its
    event sink, changed step by step by the five dispatch methods.

    `trail` is the interleaving of `Protocol` that has led to the object's present state, with
    `sys` the state of the machine after it, so whatever is proved of all interleavings holds
    of the object. A dispatch extends the trail by steps of its own thread and returns what that
    thread finishes with.
  */
module Runner {
  import opened Domain
  import opened ReplayContext
  import opened ReactLoop
  import opened EngineLaws
  import opened Commands
  import opened Lifecycle
  import Store
  import LT = LockTable
  import opened CommandLocks
  import opened Protocol
  import ProtocolLaws
  import opened Admissions
  import opened Replies

  /** The outcomes of committed Continue commands, by key. */
  class CommandIdempotencyStore {
    var entries: map<Key, Recorded>

    constructor ()
      ensures entries == map[]
    {
      entries := map[];
    }

    method Lookup(key: Key) returns (outcome: Option<Recorded>)
      ensures outcome == if key in entries then Some(entries[key]) else None
    {
      if key !in entries {
        return None;
      }
      outcome := Some(entries[key]);
    }

    method Record(key: Key, state: RunState, err: Errors)
      modifies this
      ensures entries == old(entries)[key := Recorded(state, err)]
    {
      entries := entries[key := Recorded(state, err)];
    }
  }

  /** The sink's log holds every attempt to publish. */
  class EventSink {
    var log: seq<Event>

    constructor ()
      ensures log == []
    {
      log := [];
    }

    /** publishEvent; `sinkErr` is what the sink answers. */
    method Publish(event: Event, sinkErr: Errors) returns (err: Errors)
      modifies this
      ensures log == old(log) + [event]
      ensures err == if ValidateEvent(event) != {} then ValidateEvent(event)
                     else if sinkErr != {} then {ErrEventPublish} + sinkErr else {}
    {
      log := log + [event];
      err := ValidateEvent(event);
      if err == {} && sinkErr != {} {
        err := {ErrEventPublish} + sinkErr;
      }
    }

    /** What the engine publishes in one slice. */
    method Collect(trace: seq<Obs>)
      modifies this
      ensures log == old(log) + EventsOf(trace)
    {
      log := log + EventsOf(trace);
    }
  }

  // ---------------------------------------------------------------- admission, step by step

  method PrepareContinue(ctx: Context, loaded: RunState, command: Command) returns (admission: Admission)
    requires command.Continue?
    ensures admission == AdmitContinue(ctx, loaded, command)
  {
    if IsTerminal(loaded.status) {
      return Refused(loaded, {ErrRunNotContinuable});
    }
    var err := ValidateContinueResolution(loaded, command.resolution);
    if err != {} {
      return Refused(loaded, err);
    }
    var run := new RunCell(loaded);
    var resolved: Option<PendingRequirement> := None;
    if loaded.status == Suspended {
      resolved := loaded.pendingRequirement;
      run.state := run.state.(pendingRequirement := None);
      err := TransitionRunStatus(run, Running);
      if err != {} {
        return Refused(run.state, err);
      }
    }
    var continueCtx := ctx;
    var override := ApprovedOverride(command.resolution, resolved);
    if override.Some? {
      continueCtx := WithOverride(continueCtx, override.value);
    }
    admission := ToEngine(run.state, continueCtx, Input(command.maxSteps, command.tools, command.resolution, resolved));
  }

  method PrepareCancel(loaded: RunState) returns (admission: Admission)
    ensures admission == AdmitCancel(loaded)
  {
    if IsTerminal(loaded.status) {
      return Refused(loaded, {ErrRunNotCancellable});
    }
    var run := new RunCell(loaded);
    if loaded.status == Suspended {
      run.state := run.state.(pendingRequirement := None);
    }
    var err := TransitionRunStatus(run, Cancelled);
    if err != {} {
      return Refused(run.state, err);
    }
    admission := ToStore(run.state);
  }

  method PreparePrompt(ctx: Context, loaded: RunState, command: Command) returns (admission: Admission)
    requires command.Steer? || command.FollowUp?
    ensures admission == AdmitPrompt(ctx, loaded, command)
  {
    if loaded.status == Suspended {
      return Refused(loaded, {ErrResolutionRequired});
    }
    if IsTerminal(loaded.status) {
      return Refused(loaded, {ErrRunNotContinuable});
    }
    var run := new RunCell(loaded);
    if command.Steer? {
      run.state := run.state.(messages := run.state.messages + [TextMessage(User, command.instruction)]);
      return ToStore(run.state);
    }
    run.state := run.state.(messages := run.state.messages + [TextMessage(User, command.userPrompt)]);
    admission := ToEngine(run.state, ctx, Input(command.maxSteps, command.tools, None, None));
  }

  /** The engine's slice and the check of its output. */
  method RunEngine(oracles: Oracles, ctx: Context, handed: RunState, input: Input) returns (p: Proposal)
    ensures var o := Execution(oracles, ctx, handed, input);
      var contractErr := ValidateEngineOutput(handed, o.state);
      p == if contractErr != {} then Declined(None, contractErr, o.trace) else Proposed(o.state, o.err, o.trace)
  {
    hide Execution, ValidateEngineOutput;
    var o := Execute(oracles, ctx, handed, input);
    var contractErr := ValidateEngineOutput(handed, o.state);
    if contractErr != {} {
      return Declined(None, contractErr, o.trace);
    }
    p := Proposed(o.state, o.err, o.trace);
  }

  /** The state of a run that has just been started. */
  method NewRunState(input: RunInput, runID: RunID) returns (state: RunState)
    ensures state == InitialState(input, runID)
    ensures state.id == runID && state.version == 0
  {
    var run := new RunCell(RunState(runID, 0, 0, Unset, None, "", {}, []));
    var err := TransitionRunStatus(run, Pending);
    if input.systemPrompt != "" {
      run.state := run.state.(messages := run.state.messages + [TextMessage(System, input.systemPrompt)]);
    }
    if input.userPrompt != "" {
      run.state := run.state.(messages := run.state.messages + [TextMessage(User, input.userPrompt)]);
    }
    state := run.state;
  }

  // ---------------------------------------------------------------- the runner

  class Runner {
    const store: Store.RunStore
    const outcomes: CommandIdempotencyStore
    const locks: RunCommandLocks
    const sink: EventSink
    ghost var sys: Sys
    ghost var trail: seq<Action>

    /** The object is in the state its trail leads to. */
    ghost predicate Valid()
      reads this, store, outcomes, locks, locks.Repr, sink
    {
      && Coupled()
      && locks.Valid() && locks.model == sys.locks
    }

    /** What the commands share. */
    ghost function Now(): Shared
      reads store, outcomes, sink
    {
      Shared(store.states, outcomes.entries, sink.log)
    }

    /** All but the locks. */
    ghost predicate Coupled()
      reads this, store, outcomes, sink
    {
      && sys == Run(trail)
      && store.Valid() && store.states == sys.states
      && outcomes.entries == sys.outcomes
      && sink.log == sys.log
    }

    constructor ()
      ensures Valid() && trail == [] && fresh(store) && fresh(outcomes) && fresh(locks) && fresh(locks.Repr)
      ensures fresh(sink)
    {
      store := new Store.RunStore();
      outcomes := new CommandIdempotencyStore();
      locks := new RunCommandLocks();
      sink := new EventSink();
      sys, trail := INIT, [];
    }

    /** The trail has grown by steps of thread `t`, which now is at `stage`; every other thread and
        the locks are as they were. */
    twostate predicate Stepped(t: LT.ThreadID, stage: Stage)
      reads this
    {
      && old(trail) <= trail
      && (forall k | |old(trail)| <= k < |trail| :: trail[k].t == t)
      && t in old(sys.threads) && t in sys.threads
      && sys.threads[t] == old(sys.threads[t]).(stage := stage)
      && sys.threads - {t} == old(sys.threads) - {t}
      && sys.locks == old(sys.locks)
    }

    /** The machine takes one step of thread `t`. */
    ghost method Tick(t: LT.ThreadID, world: World, sinkErr: Errors)
      requires sys == Run(trail) && t in sys.threads && SpeaksAsAssistant(world.oracles)
      modifies this`sys, this`trail
      ensures sys == Run(trail) && trail == old(trail) + [Advance(t, world, sinkErr)]
      ensures sys == StepThread(old(sys), t, world, sinkErr)
    {
      hide StepThread, SpeaksAsAssistant;
      trail := trail + [Advance(t, world, sinkErr)];
      assert trail[..|trail| - 1] == old(trail);
      sys := Run(trail);
    }

    /** A step that moves only the thread keeps the coupling. */
    ghost method TickQuietly(t: LT.ThreadID, world: World, stage: Stage)
      requires Coupled() && t in sys.threads && SpeaksAsAssistant(world.oracles)
      requires StepThread(sys, t, world, {}) == Put(sys, t, stage)
      modifies this`sys, this`trail
      ensures Coupled() && Stepped(t, stage)
    {
      hide StepThread, SpeaksAsAssistant, Run;
      Tick(t, world, {});
    }

    /** The last event is published: a start goes on to its slice, a Continue with a key records. */
    ghost method Drained(t: LT.ThreadID, command: Command, saved: RunState, err: Errors, more: bool, world: World)
      requires Coupled() && t in sys.threads && SpeaksAsAssistant(world.oracles)
      requires sys.threads[t].stage == Publishing(saved, [], err, more) && sys.threads[t].command == command
      modifies this`sys, this`trail
      ensures Coupled()
      ensures Stepped(t, if more then Slicing(saved, err) else if KeyOf(command).Some? then Recording(saved, err)
                         else Finished(Some(saved), err))
    {
      hide SpeaksAsAssistant, Run, KeyOf;
      TickQuietly(t, world, if more then Slicing(saved, err) else if KeyOf(command).Some? then Recording(saved, err)
                            else Finished(Some(saved), err));
    }

    /** commandOutcomes.store. */
    method RecordOutcome(ghost t: LT.ThreadID, key: Key, saved: RunState, err: Errors, ghost world: World)
      requires Coupled() && t in sys.threads && SpeaksAsAssistant(world.oracles)
      requires sys.threads[t].stage == Recording(saved, err) && KeyOf(sys.threads[t].command) == Some(key)
      modifies this`sys, this`trail, outcomes
      ensures Coupled()
      ensures Now() == old(Now()).(outcomes := old(Now()).outcomes[key := Recorded(saved, err)])
      ensures Stepped(t, Finished(Some(saved), err))
    {
      hide SpeaksAsAssistant, Run, KeyOf;
      outcomes.Record(key, saved, err);
      Tick(t, world, {});
    }

    /** commandOutcomes.load, for a Continue with a key. */
    method LookupOutcome(ghost t: LT.ThreadID, key: Option<Key>, ghost world: World) returns (cached: Option<Recorded>)
      requires Coupled() && t in sys.threads && SpeaksAsAssistant(world.oracles)
      requires sys.threads[t].stage == Checking && KeyOf(sys.threads[t].command) == key
      modifies this`sys, this`trail
      ensures Coupled()
      ensures cached == match key
                        case None => None
                        case Some(k) => if k in Now().outcomes then Some(Now().outcomes[k]) else None
      ensures Stepped(t, if cached.Some? then Finished(Some(cached.value.state), cached.value.err) else Loading)
    {
      hide SpeaksAsAssistant, Run, KeyOf;
      cached := None;
      if key.Some? {
        cached := outcomes.Lookup(key.value);
      }
      Tick(t, world, {});
    }

    // -------------------------------------------------------------- the parts of a dispatch

    method Load(ghost t: LT.ThreadID, command: Command, runID: RunID, ghost world: World)
      returns (loaded: RunState, err: Errors)
      requires Coupled() && t in sys.threads && SpeaksAsAssistant(world.oracles)
      requires sys.threads[t] == Thread(command, runID, Loading)
      modifies this`sys, this`trail
      ensures Coupled() && Now() == old(Now())
      ensures err == if !DistinctTools(command.Tools()) then {ErrToolDefinitionsInvalid}
                     else Store.LoadErr(Now().states, runID)
      ensures err == {} ==> runID in Now().states && loaded == Now().states[runID]
      ensures Stepped(t, if err != {} then Finished(None, err) else Slicing(loaded, {}))
    {
      hide SpeaksAsAssistant, ToolsErr, Run;
      err := ValidateToolDefinitions(command.Tools());
      var found: Option<RunState> := None;
      if err == {} {
        found, err := store.Load({}, runID);
      }
      loaded := if found.Some? then found.value else RunState(runID, 0, 0, Unset, None, "", {}, []);
      Tick(t, world, {});
    }

    method Slice(ghost t: LT.ThreadID, mutation: Mutation, base: RunState, ghost carried: Errors, world: World)
      returns (p: Proposal)
      requires Coupled() && t in sys.threads && SpeaksAsAssistant(world.oracles)
      requires mutation == MutationOf(sys.threads[t].command) && sys.threads[t].stage == Slicing(base, carried)
      modifies this`sys, this`trail, sink
      ensures Coupled()
      ensures p == Propose(mutation, world, base)
      ensures Now() == old(Now()).(log := old(Now()).log + EventsOf(p.trace))
      ensures Stepped(t, match p
                         case Declined(result, err, _) => Finished(result, err + carried)
                         case Proposed(out, runErr, trace) => Saving(base, carried, world, out, runErr, trace))
    {
      hide SpeaksAsAssistant, Run, Execution, ValidateEngineOutput, ReplayOf, EventsOf, AdmitContinue, AdmitCancel,
        AdmitPrompt;
      var admission := Prepare(mutation, world.ctx, base);
      match admission {
        case Refused(result, err) => p := Declined(Some(result), err, []);
        case ToStore(state) => p := Proposed(state, {}, []);
        case ToEngine(handed, ctx, input) => p := RunEngine(world.oracles, ctx, handed, input);
      }
      sink.Collect(p.trace);
      Tick(t, world, {});
    }

    method Prepare(mutation: Mutation, ctx: Context, base: RunState) returns (admission: Admission)
      requires !mutation.Creates? && (mutation.Applies? ==> !mutation.command.Start?)
      ensures admission == Admit(mutation, ctx, base)
    {
      hide AdmitContinue, AdmitCancel, AdmitPrompt;
      match mutation {
        case FirstSlice(input) => admission := ToEngine(base, ctx, Input(input.maxSteps, input.tools, None, None));
        case Applies(command) =>
          match command {
            case Continue(_, _, _, _, _) => admission := PrepareContinue(ctx, base, command);
            case Cancel(_) => admission := PrepareCancel(base);
            case _ => admission := PreparePrompt(ctx, base, command);
          }
      }
    }

    /** Saves what the command proposes; on a conflict the thread is finished with an error. */
    method Save(ghost t: LT.ThreadID, command: Command, ghost stage: Stage, out: RunState, runErr: Errors,
                carried: Errors, ghost world: World)
      returns (saved: RunState, err: Errors)
      requires Coupled() && t in sys.threads && SpeaksAsAssistant(world.oracles)
      requires sys.threads[t].stage == stage && sys.threads[t].command == command
      requires stage.Saving? && stage.out == out && stage.runErr == runErr && stage.carried == carried
      modifies this`sys, this`trail, store
      ensures Coupled()
      ensures Stepped(t, if err != {} then Finished(None, err)
                         else Publishing(saved, AfterSave(command.Kind(), saved), runErr + carried, false))
      ensures err == {} ==> saved.version == out.version + 1 && saved == out.(version := saved.version)
      ensures Store.SaveErr(old(Now()).states, out) == {} ==> err == {}
      ensures err == {} ==> Now() == old(Now()).(states := old(Now()).states[saved.id := saved])
    {
      hide SpeaksAsAssistant, Run, AfterSave, ValidateRunState, StepQueued, StepCreating, StepChecking, StepLoading,
        StepSlicing, StepPublishing, StepRecording, StepFinished, Store.SaveErr, Propose;
      var saveErr := store.Save({}, out);
      saved := out.(version := out.version + 1);
      err := {};
      if saveErr != {} {
        if !command.Steer? {
          saveErr := Store.NormalizeSaveErr(saveErr);
        }
        err := runErr + saveErr + carried;
      }
      Tick(t, world, {});
    }

    /** Publishes the next event the thread owes. */
    method Announce(ghost t: LT.ThreadID, ghost stage: Stage, event: Event, sinkErr: Errors, before: Errors,
                    ghost world: World)
      returns (err: Errors)
      requires Coupled() && t in sys.threads && SpeaksAsAssistant(world.oracles)
      requires stage.Publishing? && stage.queue != [] && stage.queue[0] == event && stage.err == before
      requires sys.threads[t].stage == stage
      modifies this`sys, this`trail, sink
      ensures Coupled()
      ensures Stepped(t, Publishing(stage.saved, stage.queue[1..], err, stage.more))
      ensures Now() == old(Now()).(log := old(Now()).log + [event])
      ensures before <= err && (ValidateEvent(event) == {} && sinkErr == {} ==> err == before)
    {
      hide SpeaksAsAssistant, Run, ValidateEvent;
      var publishErr := sink.Publish(event, sinkErr);
      err := before + publishErr;
      Tick(t, world, sinkErr);
    }

    /** What follows the save of an engine slice. */
    method AnnounceSlice(ghost t: LT.ThreadID, kind: CommandKind, saved: RunState, before: Errors,
        sinkErr: nat -> Errors, ghost world: World)
      returns (err: Errors)
      requires Coupled() && t in sys.threads && SpeaksAsAssistant(world.oracles)
      requires kind != CancelKind && kind != SteerKind
      requires sys.threads[t].stage == Publishing(saved, AfterSave(kind, saved), before, false)
      modifies this`sys, this`trail, sink
      ensures Coupled()
      ensures Stepped(t, Publishing(saved, [], err, false))
      ensures Now() == old(Now()).(log := old(Now()).log + AfterSave(kind, saved))
      ensures saved.id != "" && saved.step >= 0 ==> ErrorIs(err, before, sinkErr)
    {
      hide StepThread, SpeaksAsAssistant, Run, ValidateEvent, AfterSave;
      AfterSaveParts(kind, saved);
      if saved.id != "" && saved.step >= 0 {
        ClosingEventsAreValid(kind, saved);
      }
      err := AnnounceOutcome(t, kind, saved, before, sinkErr, world);
      err := AnnounceApplied(t, kind, saved, PlainEvent(saved.id, saved.step, RunCheckpoint), err, sinkErr, world);
    }

    /** A slice that was cancelled or suspended is announced as such. */
    method AnnounceOutcome(ghost t: LT.ThreadID, kind: CommandKind, saved: RunState, before: Errors,
        sinkErr: nat -> Errors, ghost world: World)
      returns (err: Errors)
      requires Coupled() && t in sys.threads && SpeaksAsAssistant(world.oracles)
      requires var last := [PlainEvent(saved.id, saved.step, RunCheckpoint),
                            Event(saved.id, saved.step, CommandApplied, Some(kind), None, None)];
        sys.threads[t].stage == Publishing(saved, Outcomes(saved) + last, before, false)
      modifies this`sys, this`trail, sink
      ensures Coupled()
      ensures var last := [PlainEvent(saved.id, saved.step, RunCheckpoint),
                           Event(saved.id, saved.step, CommandApplied, Some(kind), None, None)];
        Stepped(t, Publishing(saved, last, err, false))
      ensures Now() == old(Now()).(log := old(Now()).log + Outcomes(saved))
      ensures saved.id != "" && saved.step >= 0 ==> ErrorIs(err, before, sinkErr)
    {
      hide StepThread, SpeaksAsAssistant, Run, ValidateEvent;
      err := before;
      if saved.id != "" && saved.step >= 0 {
        ClosingEventsAreValid(kind, saved);
      }
      if saved.status == Cancelled {
        err := Announce(t, sys.threads[t].stage, PlainEvent(saved.id, saved.step, RunCancelled), sinkErr(0),
          err, world);
      }
      if saved.status == Suspended {
        err := Announce(t, sys.threads[t].stage, PlainEvent(saved.id, saved.step, RunSuspended), sinkErr(1),
          err, world);
      }
    }

    /** The last two events of every command. */
    method AnnounceApplied(ghost t: LT.ThreadID, kind: CommandKind, saved: RunState, first: Event, before: Errors,
                           sinkErr: nat -> Errors, ghost world: World)
      returns (err: Errors)
      requires Coupled() && t in sys.threads && SpeaksAsAssistant(world.oracles)
      requires sys.threads[t].stage
            == Publishing(
                 saved, [first, Event(saved.id, saved.step, CommandApplied, Some(kind), None, None)], before, false)
      modifies this`sys, this`trail, sink
      ensures Coupled()
      ensures Stepped(t, Publishing(saved, [], err, false))
      ensures Now() == old(Now()).(log := old(Now()).log
                + [first, Event(saved.id, saved.step, CommandApplied, Some(kind), None, None)])
      ensures saved.id != "" && saved.step >= 0 && ValidateEvent(first) == {} ==> ErrorIs(err, before, sinkErr)
    {
      hide StepThread, SpeaksAsAssistant, Run, ValidateEvent;
      var applied := Event(saved.id, saved.step, CommandApplied, Some(kind), None, None);
      if saved.id != "" && saved.step >= 0 {
        ClosingEventsAreValid(kind, saved);
      }
      assert [first, applied][1..] == [applied] && [applied][1..] == [];
      err := Announce(t, sys.threads[t].stage, first, sinkErr(2), before, world);
      err := Announce(t, sys.threads[t].stage, applied, sinkErr(3), err, world);
    }

    /** The common end of the commands that run the engine: save, then publish. */
    method CommitSlice(ghost t: LT.ThreadID, command: Command, out: RunState, runErr: Errors, carried: Errors,
                       sinkErr: nat -> Errors, ghost world: World)
      returns (saved: RunState, err: Errors, ok: bool)
      requires Coupled() && t in sys.threads && SpeaksAsAssistant(world.oracles)
      requires command.Start? || command.Continue? || command.FollowUp?
      requires sys.threads[t].command == command
      requires var stage := sys.threads[t].stage;
        stage.Saving? && stage.out == out && stage.runErr == runErr && stage.carried == carried
      modifies this`sys, this`trail, store, sink
      ensures Coupled()
      ensures Stepped(t, if ok then Publishing(saved, [], err, false) else Finished(None, err))
      ensures Savable(old(Now()).states, out.id, out) ==>
        && ok && saved == out.(version := out.version + 1)
        && Now() == old(Now()).(states := old(Now()).states[out.id := saved],
                                log := old(Now()).log + AfterSave(command.Kind(), saved))
        && ErrorIs(err, runErr + carried, sinkErr)
    {
      hide StepThread, SpeaksAsAssistant, Run, AfterSave;
      saved, err := Save(t, command, sys.threads[t].stage, out, runErr, carried, world);
      ok := err == {};
      if ok {
        err := AnnounceSlice(t, command.Kind(), saved, runErr + carried, sinkErr, world);
      }
    }

    /** Loads the run and runs the command on it: either it is turned away, or it has something to save. */
    method Attempt(ghost t: LT.ThreadID, command: Command, world: World)
      returns (result: Option<RunState>, err: Errors, o: Option<Outcome>)
      requires Coupled() && t in sys.threads && SpeaksAsAssistant(world.oracles)
      requires !command.Start? && command.runID != "" && sys.threads[t] == Thread(command, command.runID, Loading)
      modifies this`sys, this`trail, sink
      ensures Coupled()
      ensures o.Some? <==> GoesThrough(command, old(Now()))
      ensures o.None? ==>
        Stepped(t, Finished(result, err)) && Now() == old(Now()) && TurnsAway(command, old(Now()), result, err)
      ensures o.Some? ==>
        var loaded := old(Now()).states[command.runID];
        && o.value == Work(loaded, command, world)
        && Stepped(t, Saving(loaded, {}, world, o.value.state, o.value.err, o.value.trace))
        && Now() == old(Now()).(log := old(Now()).log + EventsOf(o.value.trace))
        && Savable(Now().states, command.runID, o.value.state)
    {
      hide StepThread, SpeaksAsAssistant, Run, Propose, Work, LetsThrough, Reason, Savable;
      var state;
      state, err := Load(t, command, command.runID, world);
      if err != {} {
        return None, err, None;
      }
      ProposalSaves(trail, command.runID, command, world);
      var p := Slice(t, Applies(command), state, {}, world);
      if p.Declined? {
        assert p.err + {} == p.err;
        return p.result, p.err, None;
      }
      result, o := None, Some(Outcome(p.state, p.runErr, p.trace));
    }

    /** The end of a Cancel and of a Steer: save, then publish. */
    method CommitDirect(ghost t: LT.ThreadID, command: Command, out: RunState, sinkErr: nat -> Errors,
                        ghost world: World)
      returns (saved: RunState, err: Errors, ok: bool)
      requires Coupled() && t in sys.threads && SpeaksAsAssistant(world.oracles)
      requires (command.Cancel? || command.Steer?) && sys.threads[t].command == command
      requires var stage := sys.threads[t].stage;
        stage.Saving? && stage.out == out && stage.runErr == {} && stage.carried == {}
      modifies this`sys, this`trail, store, sink
      ensures Coupled()
      ensures Stepped(t, if ok then Publishing(saved, [], err, false) else Finished(None, err))
      ensures Savable(old(Now()).states, out.id, out) ==>
        && ok && saved == out.(version := out.version + 1)
        && Now() == old(Now()).(states := old(Now()).states[out.id := saved],
                                log := old(Now()).log + AfterSave(command.Kind(), saved))
        && ErrorIs(err, {}, sinkErr)
    {
      hide StepThread, SpeaksAsAssistant, Run, AfterSave, ValidateEvent, Coupled, Now;
      saved, err := Save(t, command, sys.threads[t].stage, out, {}, {}, world);
      ok := err == {};
      if ok {
        AfterSaveParts(command.Kind(), saved);
        if saved.id != "" && saved.step >= 0 {
          ClosingEventsAreValid(command.Kind(), saved);
        }
        var first := PlainEvent(saved.id, saved.step, if command.Cancel? then RunCancelled else RunCheckpoint);
        err := AnnounceApplied(t, command.Kind(), saved, first, {}, sinkErr, world);
      }
    }

    // -------------------------------------------------------------- the five commands

    method DispatchStart(ghost t: LT.ThreadID, command: Command, generated: RunID, generatorErr: Errors, world: World,
                         sinkErr: nat -> Errors)
      returns (result: Option<RunState>, err: Errors)
      requires Coupled() && t in sys.threads && SpeaksAsAssistant(world.oracles)
      requires command.Start? && sys.threads[t] == BeginThread(command, generated, generatorErr)
      modifies this`sys, this`trail, store, sink
      ensures Coupled()
      ensures Stepped(t, Finished(result, err))
      ensures StartAnswered(command.input, generated, generatorErr, world, sinkErr, old(Now()), Now(), result, err)
    {
      hide StepThread, SpeaksAsAssistant, Run, ToolsErr, Coupled, Now, StartWorked, DistinctTools;
      var input := command.input;
      err := ValidateToolDefinitions(input.tools);
      if err != {} {
        return None, err;
      }
      var runID := input.runID;
      if runID == "" {
        if generatorErr != {} {
          return None, generatorErr;
        }
        runID := generated;
        if runID == "" {
          return None, {ErrInvalidRunID};
        }
      }
      result, err := StartRun(t, command, runID, world, sinkErr);
    }

    /** A start whose run has its identifier. */
    method StartRun(ghost t: LT.ThreadID, command: Command, runID: RunID, world: World, sinkErr: nat -> Errors)
      returns (result: Option<RunState>, err: Errors)
      requires Coupled() && t in sys.threads && SpeaksAsAssistant(world.oracles)
      requires command.Start? && runID != "" && sys.threads[t] == Thread(command, runID, Creating(command.input))
      modifies this`sys, this`trail, store, sink
      ensures Coupled()
      ensures Stepped(t, Finished(result, err))
      ensures StartWorked(command.input, runID, world, sinkErr, old(Now()), Now(), result, err)
    {
      hide StepThread, SpeaksAsAssistant, Run, Coupled, Now, Execution, Commits, InitialState;
      var state, ok;
      state, err, ok := Create(t, command, runID, world);
      if !ok {
        return None, err;
      }
      result, err := RunFirstSlice(t, command, runID, state, world, sinkErr);
      var input := command.input;
      ghost var o := Execution(world.oracles, world.ctx, state, Input(input.maxSteps, input.tools, None, None));
      CommitsOverCreated(o, state, [PlainEvent(runID, 0, RunStarted)], sinkErr, old(Now()), Now(), result, err);
    }

    /** The first half of a start: the run is stored before anything else is done with it. */
    method Create(ghost t: LT.ThreadID, command: Command, runID: RunID, ghost world: World)
      returns (state: RunState, err: Errors, ok: bool)
      requires Coupled() && t in sys.threads && SpeaksAsAssistant(world.oracles)
      requires command.Start? && runID != "" && sys.threads[t] == Thread(command, runID, Creating(command.input))
      modifies this`sys, this`trail, store
      ensures Coupled()
      ensures Stepped(t,
        if ok then Publishing(state, [PlainEvent(runID, 0, RunStarted)], {}, true) else Finished(None, err))
      ensures ok <==> runID !in old(Now()).states
      ensures ok ==> state == Started(command.input, runID) && state.id == runID
      ensures ok ==> Now() == old(Now()).(states := old(Now()).states[runID := state])
      ensures !ok ==> Now() == old(Now()) && err == {ErrRunVersionConflict, ErrCommandConflict}
    {
      hide SpeaksAsAssistant, Run, InitialState, ValidateRunState;
      CreatedIsValid(command.input, runID);
      var created := NewRunState(command.input, runID);
      var saveErr := store.Save({}, created);
      state := created.(version := created.version + 1);
      err, ok := Store.NormalizeSaveErr(saveErr), saveErr == {};
      Tick(t, world, {});
    }

    /** The second half of a start, once the run is stored. */
    method RunFirstSlice(ghost t: LT.ThreadID, command: Command, runID: RunID, state: RunState, world: World,
                         sinkErr: nat -> Errors)
      returns (result: Option<RunState>, err: Errors)
      requires Coupled() && t in sys.threads && SpeaksAsAssistant(world.oracles)
      requires command.Start? && sys.threads[t].command == command
      requires sys.threads[t].stage == Publishing(state, [PlainEvent(runID, 0, RunStarted)], {}, true)
      requires runID != "" && runID in Now().states && Now().states[runID] == state && state.version == 1
      modifies this`sys, this`trail, store, sink
      ensures Coupled()
      ensures Stepped(t, Finished(result, err))
      ensures var input := command.input;
        var o := Execution(world.oracles, world.ctx, state, Input(input.maxSteps, input.tools, None, None));
        && o.state.id == runID
        && Commits(StartKind, o, 2, [PlainEvent(runID, 0, RunStarted)], sinkErr, old(Now()), Now(), result, err)
      ensures Now().outcomes == old(Now()).outcomes
    {
      hide StepThread, SpeaksAsAssistant, Run, ValidateEvent, Propose, Coupled, Now, Execution, AfterSave, KeyOf;
      var eventErr := AnnounceStart(t, command, runID, state, sinkErr, world);
      result, err := SliceCreated(t, command, runID, state, eventErr, world, sinkErr);
    }

    /** The run is announced, and its first slice is next. */
    method AnnounceStart(ghost t: LT.ThreadID, command: Command, runID: RunID, state: RunState,
                         sinkErr: nat -> Errors, ghost world: World)
      returns (err: Errors)
      requires Coupled() && t in sys.threads && SpeaksAsAssistant(world.oracles)
      requires command.Start? && sys.threads[t].command == command && runID != ""
      requires sys.threads[t].stage == Publishing(state, [PlainEvent(runID, 0, RunStarted)], {}, true)
      modifies this`sys, this`trail, sink
      ensures Coupled()
      ensures Stepped(t, Slicing(state, err))
      ensures Now() == old(Now()).(log := old(Now()).log + [PlainEvent(runID, 0, RunStarted)])
      ensures ErrorIs(err, {}, sinkErr)
    {
      hide StepThread, SpeaksAsAssistant, Run, Coupled, Now, KeyOf;
      err := Announce(t, sys.threads[t].stage, PlainEvent(runID, 0, RunStarted), sinkErr(4), {}, world);
      Drained(t, command, state, err, true, world);
    }

    /** The first slice of a stored run and the save of what it did. */
    method SliceCreated(ghost t: LT.ThreadID, command: Command, runID: RunID, state: RunState, eventErr: Errors,
                        world: World, sinkErr: nat -> Errors)
      returns (result: Option<RunState>, err: Errors)
      requires Coupled() && t in sys.threads && SpeaksAsAssistant(world.oracles)
      requires command.Start? && sys.threads[t].command == command
      requires sys.threads[t].stage == Slicing(state, eventErr)
      requires runID != "" && runID in Now().states && Now().states[runID] == state && state.version == 1
      modifies this`sys, this`trail, store, sink
      ensures Coupled()
      ensures Stepped(t, Finished(result, err))
      ensures var input := command.input;
        var o := Execution(world.oracles, world.ctx, state, Input(input.maxSteps, input.tools, None, None));
        && o.state.id == runID
        && Commits(StartKind, o.(err := o.err + eventErr), 2, [], sinkErr, old(Now()), Now(), result, err)
      ensures Now().outcomes == old(Now()).outcomes
    {
      hide StepThread, SpeaksAsAssistant, Run, ValidateEvent, Propose, Coupled, Now, Execution, AfterSave,
        Commits, Store.SaveErr, EventsOf, ErrorIs, Trim;
      StoredFirst(runID, command.input, world);
      var p := Slice(t, FirstSlice(command.input), state, eventErr, world);
      result, err := None, eventErr;
      if p.Proposed? {
        var saved, ok;
        saved, err, ok := CommitSlice(t, command, p.state, p.runErr, eventErr, sinkErr, world);
        if ok {
          Drained(t, command, saved, err, false, world);
          result := Some(saved);
          ghost var o := Outcome(p.state, p.runErr + eventErr, p.trace);
          CommitsBySaving(StartKind, o, sinkErr, old(Now()), Now(), saved, err);
        }
      }
    }

    /** The first slice of a stored run has something to save. */
    lemma StoredFirst(runID: RunID, input: RunInput, world: World)
      requires Coupled() && runID in Now().states && Now().states[runID].version == 1
      requires SpeaksAsAssistant(world.oracles)
      ensures var o := Execution(world.oracles, world.ctx, Now().states[runID],
                                 Input(input.maxSteps, input.tools, None, None));
        && Propose(FirstSlice(input), world, Now().states[runID]) == Proposed(o.state, o.err, o.trace)
        && Savable(Now().states, runID, o.state)
    {
      hide Run, Execution, Propose, SpeaksAsAssistant, Savable;
      FirstProposalSaves(trail, runID, input, world);
    }

    method DispatchContinue(ghost t: LT.ThreadID, command: Command, world: World, sinkErr: nat -> Errors)
      returns (result: Option<RunState>, err: Errors)
      requires Coupled() && t in sys.threads && SpeaksAsAssistant(world.oracles)
      requires command.Continue? && command.runID != "" && sys.threads[t] == Thread(command, command.runID, Checking)
      modifies this`sys, this`trail, store, outcomes, sink
      ensures Coupled()
      ensures Stepped(t, Finished(result, err))
      ensures Answered(command, world, sinkErr, old(Now()), Now(), result, err)
    {
      hide StepThread, SpeaksAsAssistant, Run, ValidateEvent, Propose, AfterSave, KeyOf, Worked;
      var key := KeyOf(command);
      var cached := LookupOutcome(t, key, world);
      if cached.Some? {
        return Some(cached.value.state), cached.value.err;
      }
      result, err := RunContinue(t, command, key, world, sinkErr);
    }

    /** The rest of a Continue whose key, if it has one, is not recorded. */
    method RunContinue(ghost t: LT.ThreadID, command: Command, key: Option<Key>, world: World, sinkErr: nat -> Errors)
      returns (result: Option<RunState>, err: Errors)
      requires Coupled() && t in sys.threads && SpeaksAsAssistant(world.oracles)
      requires command.Continue? && command.runID != ""
      requires key == KeyOf(command) && sys.threads[t] == Thread(command, command.runID, Loading)
      modifies this`sys, this`trail, store, outcomes, sink
      ensures Coupled()
      ensures Stepped(t, Finished(result, err))
      ensures Worked(command, world, sinkErr, old(Now()), Now(), result, err)
    {
      hide StepThread, SpeaksAsAssistant, Run, ValidateEvent, Propose, AfterSave, KeyOf, Work, TurnsAway, LetsThrough,
        DistinctTools, Coupled, Now, Worked, Answered, ErrorIs, Store.SaveErr, EventsOf;
      var o;
      result, err, o := Attempt(t, command, world);
      if o.None? {
        WorkedByTurningAway(command, world, sinkErr, old(Now()), result, err);
        return;
      }
      var saved, ok;
      assert o.value.err + {} == o.value.err;
      saved, err, ok := CommitSlice(t, command, o.value.state, o.value.err, {}, sinkErr, world);
      if ok {
        Drained(t, command, saved, err, false, world);
        result := Some(saved);
        if key.Some? {
          RecordOutcome(t, key.value, saved, err, world);
        }
        WorkedBySaving(command, world, sinkErr, old(Now()), Now(), o.value, saved, err);
      }
    }

    method DispatchFollowUp(ghost t: LT.ThreadID, command: Command, world: World, sinkErr: nat -> Errors)
      returns (result: Option<RunState>, err: Errors)
      requires Coupled() && t in sys.threads && SpeaksAsAssistant(world.oracles)
      requires command.FollowUp? && command.runID != "" && sys.threads[t] == Thread(command, command.runID, Loading)
      modifies this`sys, this`trail, store, sink
      ensures Coupled()
      ensures Stepped(t, Finished(result, err))
      ensures Answered(command, world, sinkErr, old(Now()), Now(), result, err)
    {
      hide StepThread, SpeaksAsAssistant, Run, ValidateEvent, Propose, AfterSave, Trim, Work, TurnsAway, LetsThrough,
        DistinctTools, Coupled, Now, Worked, Answered, ErrorIs, Store.SaveErr, EventsOf;
      var o;
      result, err, o := Attempt(t, command, world);
      if o.None? {
        WorkedByTurningAway(command, world, sinkErr, old(Now()), result, err);
        KeylessAnswer(command, world, sinkErr, old(Now()), Now(), result, err);
        return;
      }
      var saved, ok;
      assert o.value.err + {} == o.value.err;
      saved, err, ok := CommitSlice(t, command, o.value.state, o.value.err, {}, sinkErr, world);
      if ok {
        Drained(t, command, saved, err, false, world);
        result := Some(saved);
        WorkedBySaving(command, world, sinkErr, old(Now()), Now(), o.value, saved, err);
        KeylessAnswer(command, world, sinkErr, old(Now()), Now(), result, err);
      }
    }

    /** Cancel and Steer run no engine. */
    method DispatchDirect(ghost t: LT.ThreadID, command: Command, world: World, sinkErr: nat -> Errors)
      returns (result: Option<RunState>, err: Errors)
      requires Coupled() && t in sys.threads && SpeaksAsAssistant(world.oracles)
      requires (command.Cancel? || command.Steer?) && command.runID != ""
      requires sys.threads[t] == Thread(command, command.runID, Loading)
      modifies this`sys, this`trail, store, sink
      ensures Coupled()
      ensures Stepped(t, Finished(result, err))
      ensures Answered(command, world, sinkErr, old(Now()), Now(), result, err)
    {
      hide StepThread, SpeaksAsAssistant, Run, ValidateEvent, Propose, AfterSave, Trim, Work, TurnsAway, LetsThrough,
        DistinctTools, Coupled, Now, Worked, Answered, ErrorIs, Store.SaveErr, EventsOf;
      var o;
      result, err, o := Attempt(t, command, world);
      if o.None? {
        WorkedByTurningAway(command, world, sinkErr, old(Now()), result, err);
        KeylessAnswer(command, world, sinkErr, old(Now()), Now(), result, err);
        return;
      }
      var saved, ok;
      DirectWork(old(Now()).states[command.runID], command, world);
      saved, err, ok := CommitDirect(t, command, o.value.state, sinkErr, world);
      if ok {
        Drained(t, command, saved, err, false, world);
        result := Some(saved);
        WorkedBySaving(command, world, sinkErr, old(Now()), Now(), o.value, saved, err);
        KeylessAnswer(command, world, sinkErr, old(Now()), Now(), result, err);
      }
    }

    // -------------------------------------------------------------- Dispatch

    /** Nobody holds the lock the command needs, so taking it does not block. */
    ghost predicate Free(command: Command)
      reads this
    {
      command.Start? || command.runID !in sys.locks.entries || sys.locks.entries[command.runID] !in sys.locks.owners
    }

    /** A dispatch of `command` by a thread `t` that was idle: what it returns is what the machine's
        thread finishes with, at the moment `done` of the trail; by the end the thread is gone and
        has given back its lock. */
    method Dispatch(ghost t: LT.ThreadID, command: Command, generated: RunID, generatorErr: Errors, world: World,
                    sinkErr: nat -> Errors)
      returns (result: Option<RunState>, err: Errors, ghost done: nat)
      requires Valid() && t !in sys.threads && SpeaksAsAssistant(world.oracles) && Free(command)
      modifies this`sys, this`trail, store, outcomes, sink, locks, locks.Repr
      ensures Valid() && fresh(locks.Repr - old(locks.Repr))
      ensures old(trail) <= trail && |old(trail)| < done <= |trail|
      ensures trail[|old(trail)|] == Begin(t, command, generated, generatorErr)
      ensures forall k | |old(trail)| <= k < |trail| :: trail[k].t == t
      ensures t in Run(trail[..done]).threads
      ensures Run(trail[..done]).threads[t].stage == Finished(result, err)
      ensures sys.threads == old(sys.threads)
      ensures if command.Start?
        then StartAnswered(command.input, generated, generatorErr, world, sinkErr, old(Now()), Now(), result, err)
        else Answered(command, world, sinkErr, old(Now()), Now(), result, err)
    {
      hide StepThread, SpeaksAsAssistant, Run, BeginThread, LT.Inv, RunCommandLocks.Valid, ProtocolLaws.SysOK, Now,
        Answered, StartAnswered;
      ProtocolLaws.RunOKAlways(trail);
      IdleThreadIsUnseated(sys, t);
      WhereThreadsBegin(command, generated, generatorErr);
      BeginDispatch(t, command, generated, generatorErr);
      if !command.Start? && command.runID != "" {
        result, err, done := DispatchLocked(t, command, world, sinkErr);
      } else {
        result, err, done := DispatchUnlocked(t, command, generated, generatorErr, world, sinkErr);
      }
    }

    /** A start, or a command without run: neither takes a lock. */
    method DispatchUnlocked(ghost t: LT.ThreadID, command: Command, generated: RunID, generatorErr: Errors,
        world: World, sinkErr: nat -> Errors)
      returns (result: Option<RunState>, err: Errors, ghost done: nat)
      requires Valid() && t in sys.threads && t !in sys.locks.seats && SpeaksAsAssistant(world.oracles)
      requires sys.threads[t] == BeginThread(command, generated, generatorErr) && !sys.threads[t].stage.Queued?
      modifies this`sys, this`trail, store, outcomes, sink
      ensures Valid()
      ensures old(trail) <= trail && |old(trail)| <= done <= |trail|
      ensures forall k | |old(trail)| <= k < |trail| :: trail[k].t == t
      ensures t in Run(trail[..done]).threads
      ensures Run(trail[..done]).threads[t].stage == Finished(result, err)
      ensures sys.threads == old(sys.threads) - {t}
      ensures if command.Start?
        then StartAnswered(command.input, generated, generatorErr, world, sinkErr, old(Now()), Now(), result, err)
        else Answered(command, world, sinkErr, old(Now()), Now(), result, err)
    {
      hide StepThread, SpeaksAsAssistant, Run, LT.Inv, RunCommandLocks.Valid, ToolsErr, Now, StartAnswered, Worked;
      result, err := None, {ErrInvalidRunID};
      if command.Start? {
        result, err := DispatchStart(t, command, generated, generatorErr, world, sinkErr);
      }
      done := |trail|;
      ghost var reached := trail;
      Leave(t, world);
      assert trail[..done] == reached;
    }

    /** The command under the lock. */
    method DispatchHolding(ghost t: LT.ThreadID, command: Command, world: World, sinkErr: nat -> Errors)
      returns (result: Option<RunState>, err: Errors)
      requires Coupled() && t in sys.threads && SpeaksAsAssistant(world.oracles)
      requires !command.Start? && command.runID != ""
      requires sys.threads[t] == Thread(command, command.runID, if command.Continue? then Checking else Loading)
      modifies this`sys, this`trail, store, outcomes, sink
      ensures Coupled()
      ensures Stepped(t, Finished(result, err))
      ensures Answered(command, world, sinkErr, old(Now()), Now(), result, err)
    {
      hide StepThread, SpeaksAsAssistant, Run, Coupled, Stepped, Now, Answered;
      if command.Continue? {
        result, err := DispatchContinue(t, command, world, sinkErr);
      } else if command.FollowUp? {
        result, err := DispatchFollowUp(t, command, world, sinkErr);
      } else {
        result, err := DispatchDirect(t, command, world, sinkErr);
      }
    }

    /** A command that takes its run's lock, works under it and gives it back. */
    method DispatchLocked(ghost t: LT.ThreadID, command: Command, world: World, sinkErr: nat -> Errors)
      returns (result: Option<RunState>, err: Errors, ghost done: nat)
      requires Valid() && t in sys.threads && t !in sys.locks.seats && SpeaksAsAssistant(world.oracles) && Free(command)
      requires !command.Start? && command.runID != "" && sys.threads[t] == Thread(command, command.runID, Queued)
      modifies this`sys, this`trail, store, outcomes, sink, locks, locks.Repr
      ensures Valid() && fresh(locks.Repr - old(locks.Repr))
      ensures old(trail) <= trail && |old(trail)| < done <= |trail|
      ensures forall k | |old(trail)| <= k < |trail| :: trail[k].t == t
      ensures t in Run(trail[..done]).threads
      ensures Run(trail[..done]).threads[t].stage == Finished(result, err)
      ensures sys.threads == old(sys.threads) - {t}
      ensures Answered(command, world, sinkErr, old(Now()), Now(), result, err)
    {
      hide StepThread, SpeaksAsAssistant, Run, LT.Inv, RunCommandLocks.Valid, Now, Answered;
      var lock := Lock(t, command, world);
      result, err := DispatchHolding(t, command, world, sinkErr);
      done := |trail|;
      ghost var reached := trail;
      Unlock(t, command, lock, world);
      assert trail[..done] == reached;
    }

    /** runCommandLocks.lock: waits for nobody, since the lock is free. */
    method Lock(ghost t: LT.ThreadID, command: Command, ghost world: World) returns (lock: RunCommandLock)
      requires Valid() && t in sys.threads && t !in sys.locks.seats && SpeaksAsAssistant(world.oracles) && Free(command)
      requires !command.Start? && sys.threads[t] == Thread(command, command.runID, Queued)
      modifies this`sys, this`trail, locks, locks.Repr
      ensures Valid() && fresh(locks.Repr - old(locks.Repr)) && lock in locks.Repr
      ensures trail == old(trail) + [Advance(t, world, {}), Advance(t, world, {})]
      ensures sys.threads
           == old(sys.threads)[t := Thread(command, command.runID, if command.Continue? then Checking else Loading)]
      ensures Held(t, command.runID, lock)
    {
      hide StepThread, SpeaksAsAssistant, Run, LT.Inv, RunCommandLocks.Valid, LT.AcquireRef, LT.CanEnter, Free;
      lock := Refer(t, command, world);
      CanEnterMeans(sys.locks, t);
      locks.SeatedObject(t);
      locks.Enter(t, lock);
      assert LT.CanEnter(sys.locks, t);
      TickQueued(t, command, world);
    }

    lemma CanEnterMeans(lt: LT.LockTable, t: LT.ThreadID)
      requires LT.CanEnter(lt, t)
      ensures t in lt.seats && lt.seats[t].phase == LT.Waiting && lt.seats[t].lock !in lt.owners
    {
    }

    /** Takes a reference to the lock of the run. */
    method Refer(ghost t: LT.ThreadID, command: Command, ghost world: World) returns (lock: RunCommandLock)
      requires Valid() && t in sys.threads && t !in sys.locks.seats && SpeaksAsAssistant(world.oracles) && Free(command)
      requires !command.Start? && sys.threads[t] == Thread(command, command.runID, Queued)
      modifies this`sys, this`trail, locks, locks.Repr
      ensures Valid() && fresh(locks.Repr - old(locks.Repr)) && lock in locks.Repr
      ensures trail == old(trail) + [Advance(t, world, {})]
      ensures sys.threads == old(sys.threads)
      ensures LT.CanEnter(sys.locks, t) && sys.locks.seats[t].runID == command.runID && lock == locks.LockOf(t)
    {
      hide SpeaksAsAssistant, Run, LT.Inv, RunCommandLocks.Valid, LT.AcquireRef, LT.CanEnter, StepCreating,
        StepChecking, StepLoading, StepSlicing, StepSaving, StepPublishing, StepRecording, StepFinished;
      locks.InvOf();
      FreshSeat(sys.locks, t, command.runID);
      lock := locks.Acquire(t, command.runID);
      Tick(t, world, {});
    }

    /** The machine's side of entering the lock. */
    ghost method TickQueued(t: LT.ThreadID, command: Command, world: World)
      requires Coupled() && t in sys.threads && SpeaksAsAssistant(world.oracles)
      requires sys.threads[t].stage == Queued && sys.threads[t].command == command && LT.CanEnter(sys.locks, t)
      modifies this`sys, this`trail
      ensures Coupled() && trail == old(trail) + [Advance(t, world, {})]
      ensures LT.CanEnter(old(sys.locks), t) && sys.locks == LT.EnterLock(old(sys.locks), t)
      ensures sys.threads
           == old(sys.threads)[t := old(sys.threads[t]).(stage := if command.Continue? then Checking else Loading)]
    {
      hide SpeaksAsAssistant, Run, LT.EnterLock, StepCreating, StepChecking, StepLoading, StepSlicing, StepSaving,
        StepPublishing, StepRecording, StepFinished;
      Tick(t, world, {});
    }

    /** The thread holds its run's lock, which is this object. */
    ghost predicate Held(t: LT.ThreadID, runID: RunID, lock: RunCommandLock)
      requires locks.Valid()
      reads this, locks, locks.Repr
    {
      && t in locks.model.seats && locks.model.seats[t].phase == LT.Holding
      && locks.model.seats[t].runID == runID
      && lock == locks.LockOf(t) && lock in locks.Repr
    }

    /** A thread that has just taken a reference waits for a mutex that is as free as before. */
    lemma FreshSeat(lt: LT.LockTable, t: LT.ThreadID, runID: RunID)
      requires LT.Inv(lt) && t !in lt.seats
      requires runID !in lt.entries || lt.entries[runID] !in lt.owners
      ensures var after := LT.AcquireRef(lt, t, runID);
        LT.CanEnter(after, t) && after.seats[t] == LT.Seat(runID, after.seats[t].lock, LT.Waiting)
    {
      LT.NextIsUnowned(lt);
      hide LT.Inv;
    }

    /** The function that lock returned: gives back the mutex, then the reference. */
    method Unlock(ghost t: LT.ThreadID, command: Command, lock: RunCommandLock, ghost world: World)
      requires Valid() && t in sys.threads && SpeaksAsAssistant(world.oracles)
      requires !command.Start? && Held(t, command.runID, lock)
      requires sys.threads[t].stage.Finished?
      modifies this`sys, this`trail, locks, lock
      ensures Valid() && locks.Repr == old(locks.Repr)
      ensures trail == old(trail) + [Advance(t, world, {}), Advance(t, world, {})]
      ensures sys.threads == old(sys.threads) - {t}
    {
      hide SpeaksAsAssistant, Run, LT.Inv, RunCommandLocks.Valid, StepQueued, StepCreating, StepChecking,
        StepLoading, StepSlicing, StepSaving, StepPublishing, StepRecording;
      locks.Exit(t, lock);
      Tick(t, world, {});
      locks.Release(t, command.runID, lock);
      Tick(t, world, {});
    }

    lemma WhereThreadsBegin(command: Command, generated: RunID, generatorErr: Errors)
      ensures var thread := BeginThread(command, generated, generatorErr);
        && thread.command == command
        && (!command.Start? && command.runID != "" ==> thread == Thread(command, command.runID, Queued))
        && (command.Start? || command.runID == "" ==> !thread.stage.Queued?)
    {
      hide ToolsErr;
    }

    /** A thread without lock returns. */
    ghost method Leave(t: LT.ThreadID, world: World)
      requires Coupled() && t in sys.threads && t !in sys.locks.seats && SpeaksAsAssistant(world.oracles)
      requires sys.threads[t].stage.Finished?
      modifies this`sys, this`trail
      ensures Coupled() && sys.locks == old(sys.locks)
      ensures trail == old(trail) + [Advance(t, world, {})]
      ensures sys.threads == old(sys.threads) - {t}
    {
      hide SpeaksAsAssistant, Run;
      Tick(t, world, {});
    }

    lemma IdleThreadIsUnseated(s: Sys, t: LT.ThreadID)
      requires ProtocolLaws.SysOK(s) && t !in s.threads
      ensures t !in s.locks.seats
    {
    }

    ghost method BeginDispatch(t: LT.ThreadID, command: Command, generated: RunID, generatorErr: Errors)
      requires sys == Run(trail) && t !in sys.threads
      modifies this`sys, this`trail
      ensures sys == Run(trail) && trail == old(trail) + [Begin(t, command, generated, generatorErr)]
      ensures sys == old(sys).(threads := old(sys).threads[t := BeginThread(command, generated, generatorErr)])
    {
      hide BeginThread;
      trail := trail + [Begin(t, command, generated, generatorErr)];
      assert trail[..|trail| - 1] == old(trail);
      sys := Run(trail);
    }
  }
}
