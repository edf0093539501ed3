/** A start can lose its first slice: it takes no lock, so a Cancel may commit in between. */
module Overtaken {
  import opened Domain
  import opened ReplayContext
  import opened ReactLoop
  import opened EngineLaws
  import opened Commands
  import opened History
  import Store
  import opened LockTable
  import opened Protocol
  import ProtocolInv
  import ProtocolIdem
  import ProtocolReplay
  import ProtocolCount
  import opened ProtocolLaws

  lemma RunAppend(actions: seq<Action>, a: Action)
    ensures Run(actions + [a]) == Next(Run(actions), a)
  {
    hide Next;
    assert (actions + [a])[..|actions|] == actions;
  }

  lemma RunAdvance(actions: seq<Action>, t: ThreadID, world: World)
    requires t in Run(actions).threads && SpeaksAsAssistant(world.oracles)
    ensures Run(actions + [Advance(t, world, {})]) == StepThread(Run(actions), t, world, {})
  {
    hide Run, StepThread, SpeaksAsAssistant;
    RunAppend(actions, Advance(t, world, {}));
  }

  const STARTED := RunInput("r", "", "", 0, [])

  function Quietly(): Oracles {
    Oracles(n => {},
            (n, messages) => ModelReply(Message(Assistant, "", "", "", [], None), {}),
            (n, ctx, call) => ToolReply(ToolResult("", "", "", false, NoFailure), {}, None),
            (n, event) => {},
            (call, definition) => {})
  }

  /** Thread 0 has created run r and works from version 1; nobody else is there. */
  ghost predicate Created(s: Sys) {
    && s.threads.Keys == {0}
    && s.threads[0].command == Start(STARTED) && s.threads[0].runID == "r"
    && "r" in s.states && s.states["r"].version == 1 && s.states["r"].status == Pending
    && s.states["r"].id == "r" && s.states["r"].pendingRequirement.None? && s.states["r"].messages == []
    && s.states["r"].step == 0
    && s.locks == EMPTY
  }

  lemma StartCreates(world: World) returns (actions: seq<Action>)
    requires SpeaksAsAssistant(world.oracles)
    ensures var s := Run(actions);
      Created(s) && s.threads[0].stage.Publishing? && s.threads[0].stage.more
      && s.threads[0].stage.queue == [PlainEvent("r", 0, RunStarted)] && s.threads[0].stage.saved == s.states["r"]
  {
    hide SpeaksAsAssistant;
    var begin := Begin(0, Start(STARTED), "", {});
    RunAppend([], begin);
    assert Run([]) == INIT;
    assert [] + [begin] == [begin];
    RunAdvance([begin], 0, world);
    actions := [begin] + [Advance(0, world, {})];
  }

  /** The created run is handed to its first slice as it was saved. */
  lemma StartIsSlicing(world: World) returns (actions: seq<Action>)
    requires SpeaksAsAssistant(world.oracles)
    ensures var s := Run(actions);
      Created(s) && s.threads[0].stage.Slicing? && s.threads[0].stage.base == s.states["r"]
  {
    hide Run, SpeaksAsAssistant, ValidateEvent, KeyOf;
    actions := StartCreates(world);
    RunAdvance(actions, 0, world);
    actions := actions + [Advance(0, world, {})];
    RunAdvance(actions, 0, world);
    actions := actions + [Advance(0, world, {})];
  }

  lemma StartSlices(world: World) returns (actions: seq<Action>)
    requires SpeaksAsAssistant(world.oracles)
    ensures var s := Run(actions);
      Created(s) && s.threads[0].stage.Saving? && s.threads[0].stage.base.version == 1
  {
    hide Run, SpeaksAsAssistant, Propose, ReplayOf, EventsOf;
    actions := StartIsSlicing(world);
    StartIsProposed(actions, world);
    RunAdvance(actions, 0, world);
    actions := actions + [Advance(0, world, {})];
  }

  lemma StartIsProposed(actions: seq<Action>, world: World)
    requires SpeaksAsAssistant(world.oracles)
    requires 0 in Run(actions).threads && Run(actions).threads[0].stage.Slicing?
    requires Run(actions).threads[0].command.Start?
    ensures var thread := Run(actions).threads[0];
      Propose(MutationOf(thread.command), world, thread.stage.base).Proposed?
  {
    hide Run, SpeaksAsAssistant, Propose;
    ContractChecksNeverFire(actions, 0, world);
  }

  /** Thread 0 waits to save over version 1 while thread 1 cancels the same run. */
  ghost predicate Racing(s: Sys, stage: Stage) {
    && s.threads.Keys == {0, 1}
    && s.threads[0].command == Start(STARTED) && s.threads[0].runID == "r"
    && s.threads[0].stage.Saving? && s.threads[0].stage.base.version == 1
    && s.threads[1] == Thread(Cancel("r"), "r", stage)
    && "r" in s.states && s.states["r"].version == 1 && s.states["r"].status == Pending
    && s.states["r"].pendingRequirement.None?
  }

  lemma CancelTakesTheLock(world: World) returns (actions: seq<Action>)
    requires SpeaksAsAssistant(world.oracles)
    ensures Racing(Run(actions), Loading)
  {
    hide Run, SpeaksAsAssistant, Propose;
    actions := StartSlices(world);
    var begin := Begin(1, Cancel("r"), "", {});
    RunAppend(actions, begin);
    actions := actions + [begin];
    RunAdvance(actions, 1, world);
    actions := actions + [Advance(1, world, {})];
    RunAdvance(actions, 1, world);
    actions := actions + [Advance(1, world, {})];
  }

  lemma CancelIsReady(world: World) returns (actions: seq<Action>)
    requires SpeaksAsAssistant(world.oracles)
    ensures var s := Run(actions);
      1 in s.threads && s.threads[1].stage.Saving? && s.threads[1].stage.base.version == 1
      && Racing(s, s.threads[1].stage)
  {
    hide Run, SpeaksAsAssistant, EventsOf;
    actions := CancelTakesTheLock(world);
    RunAdvance(actions, 1, world);
    actions := actions + [Advance(1, world, {})];
    RunAdvance(actions, 1, world);
    actions := actions + [Advance(1, world, {})];
  }

  /** The start runs its first slice, the cancellation commits, and the start's save conflicts. */
  lemma StartCanBeOvertaken() returns (actions: seq<Action>)
    ensures var s := Run(actions);
      && 0 in s.threads && s.threads[0].stage.Saving? && s.threads[0].command.Start?
      && Store.SaveErr(s.states, s.threads[0].stage.out) == {ErrRunVersionConflict}
  {
    hide Run, Propose, AfterSave, Store.SaveErr, Store.SavedState, Legal;
    var world := World(Quietly(), Background);
    actions := CancelIsReady(world);
    SavesConflictOnlyOverVersionOne(actions, 1);
    var before := actions;
    RunAdvance(actions, 1, world);
    actions := actions + [Advance(1, world, {})];
    SavedVersion(Run(before).states, Run(before).threads[1].stage.out);
    OutIsOfTheRun(before);
    SavesConflictOnlyOverVersionOne(actions, 0);
  }

  lemma SavedVersion(states: map<RunID, RunState>, out: RunState)
    ensures Store.SavedState(states, out).id == out.id
    ensures out.id in states ==> Store.SavedState(states, out).version == states[out.id].version + 1
  {
  }

  lemma OutIsOfTheRun(actions: seq<Action>)
    requires 1 in Run(actions).threads && Run(actions).threads[1].stage.Saving? && Run(actions).threads[1].runID == "r"
    ensures Run(actions).threads[1].stage.out.id == "r"
  {
    hide Run, ProtocolInv.SeatsOK, ProtocolInv.StoreOK, ProtocolInv.ThreadsBased, ProtocolIdem.IdemOK,
      ProtocolReplay.ReplaysOK, ProtocolCount.CountOK, Store.SaveErr, Propose, Succeeds;
    RunOKAlways(actions);
    ProtocolInv.SavingSucceeds(Run(actions), 1);
  }
}
