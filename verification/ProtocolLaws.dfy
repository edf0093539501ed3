/** What holds of every interleaving of any number of commands on any number of runs. */
module ProtocolLaws {
  import opened Domain
  import opened ReplayContext
  import opened ReactLoop
  import opened EngineLaws
  import opened Commands
  import opened History
  import opened HistoryLaws
  import Store
  import opened LockTable
  import opened Protocol
  import opened ProtocolInv
  import opened ProtocolIdem
  import opened ProtocolReplay
  import opened ProtocolCount
  import Text

  ghost predicate SysOK(s: Sys) {
    SeatsOK(s) && StoreOK(s) && ThreadsBased(s) && IdemOK(s) && ReplaysOK(s) && CountOK(s)
  }

  // ---------------------------------------------------------------- induction over runs

  lemma InitOK()
    ensures SysOK(INIT)
  {
    EmptyInv();
    assert SeatsOK(INIT);
    assert forall r, kind :: Debtors(INIT, r, kind) == {};
  }

  lemma BeginKeepsSeats(s: Sys, t: ThreadID, thread: Thread)
    requires SeatsOK(s) && t !in s.threads
    requires thread.stage.Queued? || thread.stage.Creating? || thread.stage.Finished?
    requires thread.stage.Queued? ==> !thread.command.Start?
    requires thread.stage.Creating? ==> thread.command.Start?
    requires !thread.stage.Finished? ==> thread.runID != ""
    requires !thread.command.Start? ==> thread.runID == thread.command.runID
    ensures SeatsOK(s.(threads := s.threads[t := thread]))
  {
    hide Inv;
    var after := s.(threads := s.threads[t := thread]);
    forall u | u in after.threads
      ensures ThreadSeated(after, u)
    {
      assert u != t ==> ThreadSeated(s, u);
    }
  }

  lemma BeginOK(s: Sys, t: ThreadID, command: Command, generated: RunID, generatorErr: Errors)
    requires SysOK(s) && t !in s.threads
    ensures SysOK(Next(s, Begin(t, command, generated, generatorErr)))
  {
    hide SeatsOK, StoreOK, ThreadsBased, IdemOK, ReplaysOK, CountOK, ToolsErr;
    var after := Next(s, Begin(t, command, generated, generatorErr));
    var thread := BeginThread(command, generated, generatorErr);
    BeginKeepsSeats(s, t, thread);
    StoreSame(s, after);
    assert after.threads - {t} == s.threads - {t};
    assert !Inside(thread.stage);
    hide BeginThread;
    QuietKeepsBased(s, after, t);
    QuietKeepsIdem(s, after, t);
    QuietKeepsReplays(s, after, t);
    NothingLogged(s, after, t);
  }

  lemma StepOK(s: Sys, t: ThreadID, world: World, sinkErr: Errors)
    requires SysOK(s) && t in s.threads && SpeaksAsAssistant(world.oracles)
    ensures SysOK(StepThread(s, t, world, sinkErr))
  {
    hide SeatsOK, StoreOK, ThreadsBased, IdemOK, ReplaysOK, CountOK, StepThread, SpeaksAsAssistant;
    StepKeepsSeats(s, t, world, sinkErr);
    StepKeepsStore(s, t, world, sinkErr);
    StepKeepsIdem(s, t, world, sinkErr);
    StepKeepsReplays(s, t, world, sinkErr);
    StepKeepsCount(s, t, world, sinkErr);
  }

  lemma NextOK(s: Sys, a: Action)
    requires SysOK(s)
    ensures SysOK(Next(s, a))
  {
    hide SysOK, StepThread, BeginThread, SpeaksAsAssistant;
    match a {
      case Begin(t, command, generated, generatorErr) =>
        if t !in s.threads {
          BeginOK(s, t, command, generated, generatorErr);
        }
      case Advance(t, world, sinkErr) =>
        if t in s.threads && SpeaksAsAssistant(world.oracles) {
          StepOK(s, t, world, sinkErr);
        }
    }
  }

  /** Every invariant holds after every interleaving. */
  lemma {:induction false} RunOKAlways(actions: seq<Action>)
    ensures SysOK(Run(actions))
  {
    hide SysOK, Next;
    if actions == [] {
      InitOK();
    } else {
      RunOKAlways(actions[..|actions| - 1]);
      NextOK(Run(actions[..|actions| - 1]), actions[|actions| - 1]);
    }
  }

  // ---------------------------------------------------------------- the store is a legal history

  /** Every stored state is the last of a legal history of its run, and its version is the number
      of commits: what is proved of legal histories holds under every interleaving. */
  lemma StoreIsLegal(actions: seq<Action>, r: RunID)
    ensures var s := Run(actions);
      && (r in s.states <==> r in s.history)
      && (r in s.states ==>
            && Legal(r, s.history[r]) && |s.history[r]| >= 1
            && s.states[r] == s.history[r][|s.history[r]| - 1].state
            && s.states[r].version == |s.history[r]|)
  {
    hide Legal, Run, SeatsOK, ThreadsBased, IdemOK, ReplaysOK, CountOK, RunOK;
    RunOKAlways(actions);
    if r in Run(actions).states {
      RunFacts(Run(actions), r);
    }
  }

  // ---------------------------------------------------------------- locks

  /** Two commands working on one run are one command, unless one of them is a Start. */
  lemma OneCommandARun(actions: seq<Action>, t: ThreadID, u: ThreadID)
    requires var s := Run(actions);
      && t in s.threads && u in s.threads
      && Inside(s.threads[t].stage) && Inside(s.threads[u].stage)
      && !s.threads[t].command.Start? && !s.threads[u].command.Start?
      && s.threads[t].runID == s.threads[u].runID
    ensures t == u
  {
    hide Run, SeatsOK, StoreOK, ThreadsBased, IdemOK, ReplaysOK, CountOK, Inv;
    var s := Run(actions);
    RunOKAlways(actions);
    SeatOf(s, t);
    SeatOf(s, u);
    MutualExclusion(s.locks, t, u, s.threads[t].runID);
  }

  /** The lock table: one live lock a run, counted by the threads between acquire and release, never
      deleted under a holder or a waiter, and gone when no command is in flight. */
  lemma LockTableExact(actions: seq<Action>)
    ensures var s := Run(actions);
      var lt := s.locks;
      && (forall t | t in lt.seats ::
            lt.seats[t].runID in lt.entries && lt.entries[lt.seats[t].runID] == lt.seats[t].lock)
      && (forall r | r in lt.entries ::
            lt.entries[r] in lt.refs && lt.refs[lt.entries[r]] == |lt.Users(lt.entries[r])| > 0)
      && (s.threads == map[] ==> lt.entries == map[] && lt.owners == map[])
  {
    hide Run, StoreOK, ThreadsBased, IdemOK, ReplaysOK, CountOK;
    RunOKAlways(actions);
    var s := Run(actions);
    assert forall r | r in s.locks.entries :: Counts(s.locks, s.locks.entries[r]);
    if s.threads == map[] {
      assert s.locks.seats == map[];
      EmptyWhenIdle(s.locks);
    }
  }

  /** A save conflicts exactly when the run has moved on since it was loaded, and that can happen
      only to a command that works from the first version: a Start, which takes no lock, or one
      that a Start overtakes. From version 2 on a command that was loaded is saved, even against
      an unlocked Start. */
  lemma SavesConflictOnlyOverVersionOne(actions: seq<Action>, t: ThreadID)
    requires t in Run(actions).threads && Run(actions).threads[t].stage.Saving?
    ensures var s := Run(actions);
      var thread := s.threads[t];
      var err := Store.SaveErr(s.states, thread.stage.out);
      && thread.runID in s.states
      && (err == {} <==> thread.stage.base.version == s.states[thread.runID].version)
      && (err != {} ==> err == {ErrRunVersionConflict} && thread.stage.base.version == 1)
  {
    hide Run, SeatsOK, StoreOK, ThreadsBased, IdemOK, ReplaysOK, CountOK, Store.SaveErr, Propose, Succeeds;
    RunOKAlways(actions);
    var s := Run(actions);
    BasedOf(s, t);
    SavingSucceeds(s, t);
  }

  // ---------------------------------------------------------------- replays

  /** A suspension is replayed at most once, and a replayed suspension has been answered by a commit
      or is about to be: the thread that replayed is the one that saves, and its save succeeds. */
  lemma AtMostOneReplay(actions: seq<Action>, i: nat, j: nat)
    requires i < |Run(actions).replays| && j < |Run(actions).replays|
    requires Run(actions).replays[i] == Run(actions).replays[j]
    ensures i == j
    ensures var s := Run(actions);
      var m := s.replays[i];
      && m.runID in s.history
      && (|| ReplayCommitted(s.history[m.runID], m.version)
          || exists t :: t in s.threads && Replaying(s.threads[t], m)
                         && Store.SaveErr(s.states, s.threads[t].stage.out) == {})
  {
    hide Run, SeatsOK, StoreOK, ThreadsBased, IdemOK, CountOK, ReplayCommitted, Replaying, Store.SaveErr;
    RunOKAlways(actions);
    var s := Run(actions);
    var m := s.replays[i];
    assert MarkOK(s, m);
    if !ReplayCommitted(s.history[m.runID], m.version) {
      var t :| t in s.threads && Replaying(s.threads[t], m);
      ReplayerMaySave(s, t, m);
    }
  }

  ghost predicate SeesOverride(trace: seq<Obs>) {
    exists k :: 0 <= k < |trace| && trace[k].ToolCalled? && OverrideOf(trace[k].ctx).Some?
  }

  /** The marks are the replays: a slice leaves one exactly when one of its tool calls, the first
      thing it does, is made under an override. */
  lemma MarksAreOverriddenCalls(actions: seq<Action>, t: ThreadID, world: World)
    requires SpeaksAsAssistant(world.oracles)
    requires t in Run(actions).threads && Run(actions).threads[t].stage.Slicing?
    ensures var s := Run(actions);
      var thread := s.threads[t];
      var trace := Propose(MutationOf(thread.command), world, thread.stage.base).trace;
      StepSlicing(s, t, world).replays
      == s.replays + if SeesOverride(trace) then [ReplayMark(thread.runID, thread.stage.base.version)] else []
  {
    hide Run, SeatsOK, StoreOK, ThreadsBased, IdemOK, ReplaysOK, CountOK, Propose, SpeaksAsAssistant, Legal,
      ReplayOf, Admit, EventsOf, Handed, NamedTarget, SoundState, SoundStep, Resumable, OverrideOf;
    RunOKAlways(actions);
    var s := Run(actions);
    var thread := s.threads[t];
    BasedOf(s, t);
    InHistoryInStates(s, thread.runID);
    RunFacts(s, thread.runID);
    var h, version := s.history[thread.runID], thread.stage.base.version;
    LegalSound(thread.runID, h, version - 1);
    SoundVersion(thread.runID, version, thread.stage.base);
    if Admit(MutationOf(thread.command), world.ctx, thread.stage.base).ToEngine? {
      AdmittedIsHanded(thread.runID, version, MutationOf(thread.command), world.ctx, thread.stage.base);
    }
    MarkMeansReplay(MutationOf(thread.command), world, thread.stage.base);
  }

  /** No thread ever reaches an error branch of the replay contract, and no engine output is ever
      rejected by the runner. */
  lemma ContractChecksNeverFire(actions: seq<Action>, t: ThreadID, world: World)
    requires SpeaksAsAssistant(world.oracles)
    requires t in Run(actions).threads && Run(actions).threads[t].stage.Slicing?
    ensures var thread := Run(actions).threads[t];
      var mutation, base := MutationOf(thread.command), thread.stage.base;
      var admission := Admit(mutation, world.ctx, base);
      && (Propose(mutation, world, base).Proposed? <==> !admission.Refused?)
      && (admission.ToEngine? ==>
            var entered := Enter(admission.handed, admission.input).state;
            !ReplayTarget(admission.ctx, entered, admission.input).ReplayRefused?)
  {
    hide Run, SeatsOK, StoreOK, ThreadsBased, IdemOK, ReplaysOK, CountOK, Propose, SpeaksAsAssistant, Legal,
      AdmitContinue, Enter;
    RunOKAlways(actions);
    var s := Run(actions);
    var thread := s.threads[t];
    BasedOf(s, t);
    InHistoryInStates(s, thread.runID);
    RunFacts(s, thread.runID);
    var h, version := s.history[thread.runID], thread.stage.base.version;
    ProposalLaw(thread.runID, h, version, MutationOf(thread.command), world);
    if thread.command.Continue? {
      ReplayContractNeverRefuses(thread.runID, h, version - 1, thread.command, world.ctx);
    }
  }

  // ---------------------------------------------------------------- idempotency

  /** Two commands share a key if and only if they continue the same run under identifiers that are the
      same non-empty text but for white space around it. */
  lemma SharedKeyIff(c: Command, d: Command)
    ensures KeyOf(c).Some? && KeyOf(c) == KeyOf(d) <==>
      && c.Continue? && d.Continue? && c.runID == d.runID != ""
      && exists id :: id != "" && Text.Neat(id) && Text.Around(c.commandID, id) && Text.Around(d.commandID, id)
  {
    if c.Continue? && d.Continue? {
      forall id
        ensures Trim(c.commandID) == id <==> Text.Neat(id) && Text.Around(c.commandID, id)
        ensures Trim(d.commandID) == id <==> Text.Neat(id) && Text.Around(d.commandID, id)
      {
        Text.TrimIff(c.commandID, id);
        Text.TrimIff(d.commandID, id);
      }
      hide Trim, Text.Around, Text.Neat;
      assert Text.Neat(Trim(c.commandID)) && Text.Around(c.commandID, Trim(c.commandID));
    }
  }

  /** At most one commit is made under a key. */
  lemma AtMostOneCommitAKey(actions: seq<Action>, r: RunID, q: RunID, i: nat, j: nat, key: Key)
    requires var s := Run(actions);
      && r in s.history && q in s.history && i < |s.history[r]| && j < |s.history[q]|
      && Keyed(s.history[r][i], key) && Keyed(s.history[q][j], key)
    ensures r == q == key.runID && i == j
  {
    hide Run, SeatsOK, StoreOK, ThreadsBased, ReplaysOK, CountOK, OutcomesOK, ThreadKeysOK;
    RunOKAlways(actions);
    var s := Run(actions);
    assert Addressed(r, s.history[r][i]) && Addressed(q, s.history[q][j]);
    assert KeysUnique(s.history[r]);
  }

  // ---------------------------------------------------------------- time

  /** What one action keeps: histories only grow and recorded outcomes never change. */
  ghost predicate Follows(s: Sys, after: Sys) {
    && (forall r | r in s.history :: r in after.history && s.history[r] <= after.history[r])
    && (forall key | key in s.outcomes :: key in after.outcomes && after.outcomes[key] == s.outcomes[key])
  }

  lemma SavingFollows(s: Sys, t: ThreadID)
    requires StoreOK(s) && ThreadsBased(s) && t in s.threads && s.threads[t].stage.Saving?
    ensures Follows(s, StepSaving(s, t))
  {
    hide StoreOK, ThreadsBased, Propose, Succeeds, Store.SaveErr, AfterSave;
    SavingSucceeds(s, t);
  }

  lemma CreatingFollows(s: Sys, t: ThreadID, world: World)
    requires StoreOK(s) && t in s.threads && s.threads[t].stage.Creating?
    ensures Follows(s, StepCreating(s, t, world))
  {
    hide StoreOK, ValidateRunState;
    var r := s.threads[t].runID;
    InitialPrompts(s.threads[t].stage.input, r);
    if r in s.states {
      RunFacts(s, r);
    } else {
      NotInHistory(s, r);
    }
  }

  lemma RecordingFollows(s: Sys, t: ThreadID)
    requires ThreadKeysOK(s) && t in s.threads && s.threads[t].stage.Recording?
    ensures Follows(s, StepRecording(s, t))
  {
    hide ThreadKeysOK, KeyOf;
    ThreadKeyOf(s, t);
  }

  lemma NextFollows(s: Sys, a: Action)
    requires SysOK(s)
    ensures Follows(s, Next(s, a))
  {
    hide SeatsOK, StoreOK, ThreadsBased, CommitsAccounted, AllKeysUnique, OutcomesOK, ThreadKeysOK, ReplaysOK,
      CountOK, StepCreating, StepSaving, StepRecording, BeginThread, SpeaksAsAssistant, Propose, ReplayOf, ToolsErr,
      ValidateEvent, KeyOf, AcquireRef, EnterLock, ExitLock, ReleaseRef;
    if a.Advance? && a.t in s.threads && SpeaksAsAssistant(a.world.oracles) {
      match s.threads[a.t].stage {
        case Creating(_) => CreatingFollows(s, a.t, a.world);
        case Saving(_, _, _, _, _, _) => SavingFollows(s, a.t);
        case Recording(_, _) => RecordingFollows(s, a.t);
        case _ =>
      }
    }
  }

  lemma {:induction false} RunFollows(actions: seq<Action>, more: seq<Action>)
    ensures Follows(Run(actions), Run(actions + more))
  {
    hide Next, SysOK;
    if more == [] {
      assert actions + more == actions;
    } else {
      var init := more[..|more| - 1];
      assert (actions + more)[..|actions + more| - 1] == actions + init;
      RunFollows(actions, init);
      RunOKAlways(actions + init);
      NextFollows(Run(actions + init), more[|more| - 1]);
    }
  }

  /** Between any two moments no update is lost: the stored state later on is the earlier one or is
      reached from it by commits. Its transcript extends the earlier one, its status is reachable
      by the transition table, its step has not decreased; a terminal run never changes again. */
  lemma StoredRunsOnlyAdvance(actions: seq<Action>, more: seq<Action>, r: RunID)
    requires r in Run(actions).states
    ensures var before := Run(actions).states[r];
      && r in Run(actions + more).states
      && var after := Run(actions + more).states[r];
         && before.version <= after.version
         && (before.version == after.version ==> before == after)
         && before.messages <= after.messages
         && before.step <= after.step
         && Reaches(before.status, after.status)
         && (IsTerminal(before.status) ==> after == before)
  {
    hide Run, Legal, Reaches;
    StoreIsLegal(actions, r);
    StoreIsLegal(actions + more, r);
    RunFollows(actions, more);
    var h, g := Run(actions).history[r], Run(actions + more).history[r];
    assert h <= g;
    NoLostUpdates(r, g, |h| - 1, |g| - 1);
  }

  // ---------------------------------------------------------------- repeated commands

  /** Outcomes are recorded in one way only: by a Continue that has committed, with what it returns. */
  lemma RecordedOnlyByCommitters(s: Sys, a: Action, key: Key)
    requires SysOK(s) && key !in s.outcomes && key in Next(s, a).outcomes
    ensures a.Advance? && a.t in s.threads && s.threads[a.t].stage.Recording?
    ensures KeyOf(s.threads[a.t].command) == Some(key)
    ensures var after := Next(s, a);
      && a.t in after.threads
      && after.threads[a.t].stage == Finished(Some(after.outcomes[key].state), after.outcomes[key].err)
  {
    hide SysOK, BeginThread, SpeaksAsAssistant, KeyOf, StepQueued, StepCreating, StepChecking, StepLoading,
      StepSlicing, StepSaving, StepPublishing, StepFinished;
  }

  /** The thread `c` has committed under the key, and its `n`-th step of the run returns what is recorded. */
  ghost predicate AnsweredBy(actions: seq<Action>, key: Key, n: nat, c: ThreadID, answer: Recorded) {
    && n < |actions|
    && var s, after := Run(actions[..n]), Run(actions[..n + 1]);
       && c in s.threads && s.threads[c].stage.Recording? && KeyOf(s.threads[c].command) == Some(key)
       && c in after.threads && after.threads[c].stage == Finished(Some(answer.state), answer.err)
  }

  lemma {:induction false} OutcomeIsItsCommittersAnswer(actions: seq<Action>, key: Key) returns (n: nat, c: ThreadID)
    requires key in Run(actions).outcomes
    ensures AnsweredBy(actions, key, n, c, Run(actions).outcomes[key])
  {
    hide Next, SysOK, KeyOf;
    assert Run([]).outcomes == map[];
    var init, last := actions[..|actions| - 1], actions[|actions| - 1];
    RunOKAlways(init);
    if key in Run(init).outcomes {
      n, c := OutcomeIsItsCommittersAnswer(init, key);
      NextFollows(Run(init), last);
      assert actions[..n] == init[..n] && actions[..n + 1] == init[..n + 1];
    } else {
      RecordedOnlyByCommitters(Run(init), last, key);
      n, c := |actions| - 1, last.t;
      assert actions[..n + 1] == actions;
    }
  }

  /** A Continue whose key was committed before gets exactly what the committing Continue returned:
      the state it committed and the error it finished with, without any store write, engine call or
      event, however far the run has advanced since. */
  lemma RepeatedContinueIsRecorded(actions: seq<Action>, t: ThreadID, key: Key, i: nat)
    returns (n: nat, c: ThreadID, err: Errors)
    requires var s := Run(actions);
      && t in s.threads && s.threads[t].stage.Checking?
      && KeyOf(s.threads[t].command) == Some(key)
      && key.runID in s.history && i < |s.history[key.runID]| && Keyed(s.history[key.runID][i], key)
    ensures var s := Run(actions);
      && AnsweredBy(actions, key, n, c, Recorded(s.history[key.runID][i].state, err))
      && StepChecking(s, t) == Put(s, t, Finished(Some(s.history[key.runID][i].state), err))
  {
    hide Run, SeatsOK, StoreOK, ThreadsBased, ReplaysOK, CountOK, ThreadKeysOK, KeyOf;
    RunOKAlways(actions);
    var s := Run(actions);
    assert Accounted(s, s.history[key.runID][i]);
    if key !in s.outcomes {
      var u :| u in s.threads && InTransit(s.threads[u], key);
      OthersHaveOtherKeys(s, t, u, key);
      assert false;
    }
    assert RecordsCommit(s, key, s.outcomes[key].state);
    AtMostOneCommitAKey(actions, key.runID, key.runID, i, s.outcomes[key].state.version - 1, key);
    n, c := OutcomeIsItsCommittersAnswer(actions, key);
    err := s.outcomes[key].err;
  }

  // ---------------------------------------------------------------- conservation

  /** With no command in flight the version of a run is the number of its run_started events, which
      is one, plus its command_applied events; a run that is not stored has neither. Every event
      is valid. */
  lemma VersionsCountEvents(actions: seq<Action>, r: RunID)
    requires Run(actions).threads == map[]
    ensures var s := Run(actions);
      && (if r in s.states then
            && Count(s.log, r, RunStarted) == 1
            && s.states[r].version == 1 + Count(s.log, r, CommandApplied)
          else Count(s.log, r, RunStarted) == 0 && Count(s.log, r, CommandApplied) == 0)
      && forall k | 0 <= k < |s.log| :: ValidateEvent(s.log[k]) == {}
  {
    hide Run, Legal, SeatsOK, StoreOK, ThreadsBased, IdemOK, ReplaysOK, ValidateEvent;
    RunOKAlways(actions);
    StoreIsLegal(actions, r);
    var s := Run(actions);
    assert Balanced(s, r, RunStarted) && Balanced(s, r, CommandApplied);
    assert Debtors(s, r, RunStarted) == {} && Debtors(s, r, CommandApplied) == {};
  }
}
