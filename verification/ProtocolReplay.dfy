/** Replays under concurrency: an approved call runs at most once for a suspension, and the slice
    that ran it commits. */
module ProtocolReplay {
  import opened Domain
  import opened ReplayContext
  import opened ReactLoop
  import opened EngineLaws
  import opened Commands
  import opened History
  import opened HistoryLaws
  import Store
  import opened LockTable
  import opened Protocol
  import opened ProtocolInv

  /** The commit after version `m.version` of the run is the one whose slice replayed. */
  ghost predicate ReplayCommitted(h: seq<Commit>, version: int) {
    1 <= version < |h| && ReplayOf(h[version].mutation, h[version].world, h[version - 1].state).Some?
  }

  /** The thread has replayed and is about to save. */
  ghost predicate Replaying(thread: Thread, m: ReplayMark) {
    && thread.stage.Saving? && !thread.command.Start?
    && thread.runID == m.runID
    && thread.stage.base.version == m.version
    && ReplayOf(MutationOf(thread.command), thread.stage.world, thread.stage.base).Some?
  }

  ghost predicate SomeReplaying(s: Sys, m: ReplayMark) {
    exists t :: t in s.threads && Replaying(s.threads[t], m)
  }

  ghost predicate MarkOK(s: Sys, m: ReplayMark) {
    && m.version >= 2
    && m.runID in s.history
    && m.version <= |s.history[m.runID]|
    && (ReplayCommitted(s.history[m.runID], m.version)
        || (m.version == |s.history[m.runID]| && SomeReplaying(s, m)))
  }

  ghost predicate Distinct(marks: seq<ReplayMark>) {
    forall i, j | 0 <= i < j < |marks| :: marks[i] != marks[j]
  }

  ghost predicate ReplaysOK(s: Sys) {
    Distinct(s.replays) && forall m | m in s.replays :: MarkOK(s, m)
  }

  /** A slice replays only when an approving Continue resumes a tool suspension. */
  lemma ReplayNeedsSuspension(mutation: Mutation, world: World, base: RunState)
    requires ReplayOf(mutation, world, base).Some?
    ensures mutation.Applies? && mutation.command.Continue? && base.status == Suspended
    ensures !Admit(mutation, world.ctx, base).Refused?
  {
  }

  lemma ReplayHasOverride(mutation: Mutation, world: World, base: RunState)
    requires ReplayOf(mutation, world, base).Some?
    ensures OverrideOf(Admit(mutation, world.ctx, base).ctx).Some?
  {
  }

  /** The mark is set exactly when some tool call of the slice saw an override. */
  lemma MarkMeansReplay(mutation: Mutation, world: World, base: RunState)
    requires var admission := Admit(mutation, world.ctx, base);
      admission.ToEngine? ==> EngineLaws.Handed(admission.handed)
    ensures var proposal := Propose(mutation, world, base);
      && (ReplayOf(mutation, world, base).Some? ==>
            && |proposal.trace| >= 1 && proposal.trace[0].ToolCalled?
            && proposal.trace[0].call == ReplayOf(mutation, world, base).value
            && OverrideOf(proposal.trace[0].ctx).Some?)
      && (forall k | 0 <= k < |proposal.trace| && proposal.trace[k].ToolCalled? ::
            OverrideOf(proposal.trace[k].ctx).None? || (k == 0 && ReplayOf(mutation, world, base).Some?))
  {
    if ReplayOf(mutation, world, base).Some? {
      ReplayHasOverride(mutation, world, base);
    }
    var admission := Admit(mutation, world.ctx, base);
    hide Execution, ValidateEngineOutput, ReplayTarget, Handed, Admit;
    if admission.ToEngine? {
      EngineGrowth.OnlyReplaySeesOverride(world.oracles, admission.ctx, admission.handed, admission.input);
    }
  }

  // ---------------------------------------------------------------- steps that neither replay nor commit

  lemma SomeReplayingKept(s: Sys, after: Sys, t: ThreadID, m: ReplayMark)
    requires SomeReplaying(s, m) && after.threads - {t} == s.threads - {t}
    requires t in s.threads ==> !Replaying(s.threads[t], m)
    ensures SomeReplaying(after, m)
  {
    hide Replaying;
    var u :| u in s.threads && Replaying(s.threads[u], m);
    assert u in s.threads - {t};
    assert s.threads[u] == (s.threads - {t})[u] == (after.threads - {t})[u] == after.threads[u];
  }

  lemma QuietKeepsMark(s: Sys, after: Sys, t: ThreadID, m: ReplayMark)
    requires MarkOK(s, m) && after.history == s.history && after.threads - {t} == s.threads - {t}
    requires t in s.threads ==> !Replaying(s.threads[t], m)
    ensures MarkOK(after, m)
  {
    hide SomeReplaying, ReplayCommitted, Replaying;
    if SomeReplaying(s, m) {
      SomeReplayingKept(s, after, t, m);
    }
  }

  lemma QuietKeepsReplays(s: Sys, after: Sys, t: ThreadID)
    requires ReplaysOK(s) && Quiet(s, after) && after.threads - {t} == s.threads - {t}
    requires after.replays == s.replays && (t in s.threads ==> !s.threads[t].stage.Saving?)
    ensures ReplaysOK(after)
  {
    hide MarkOK, Distinct;
    forall m | m in after.replays
      ensures MarkOK(after, m)
    {
      QuietKeepsMark(s, after, t, m);
    }
  }

  // ---------------------------------------------------------------- the step that replays

  lemma BaseIsLater(s: Sys, t: ThreadID, world: World)
    requires StoreOK(s) && ThreadsBased(s) && t in s.threads && s.threads[t].stage.Slicing?
    requires SpeaksAsAssistant(world.oracles)
    requires ReplayOf(MutationOf(s.threads[t].command), world, s.threads[t].stage.base).Some?
    ensures var base := s.threads[t].stage.base;
      && !s.threads[t].command.Start?
      && s.threads[t].runID in s.history
      && 2 <= base.version == |s.history[s.threads[t].runID]|
      && Propose(MutationOf(s.threads[t].command), world, base).Proposed?
  {
    hide StoreOK, ThreadsBased, ReplayOf, Propose, Legal, SpeaksAsAssistant, ValidateRunState;
    var thread := s.threads[t];
    BasedOf(s, t);
    InHistoryInStates(s, thread.runID);
    RunFacts(s, thread.runID);
    ReplayNeedsSuspension(MutationOf(thread.command), world, thread.stage.base);
    LegalVersion(thread.runID, s.history[thread.runID], thread.stage.base.version);
    ProposalLaw(thread.runID, s.history[thread.runID], thread.stage.base.version, MutationOf(thread.command), world);
  }

  lemma LegalVersion(r: RunID, h: seq<Commit>, version: int)
    requires Legal(r, h) && 1 <= version <= |h|
    ensures h[version - 1].state.version == version
    ensures version == 1 ==> h[0].state.status == Pending
  {
    LegalSound(r, h, version - 1);
    SoundVersion(r, version, h[version - 1].state);
    hide Legal, SoundState, SoundStep, Resumable;
  }

  /** Nobody has replayed this suspension before: its commit would have moved the run on, and a
      thread about to save would hold the lock this thread holds. */
  lemma NotYetReplayed(s: Sys, t: ThreadID, m: ReplayMark)
    requires SeatsOK(s) && MarkOK(s, m) && t in s.threads && s.threads[t].stage.Slicing? && !s.threads[t].command.Start?
    requires s.threads[t].runID == m.runID
    ensures m.version < |s.history[m.runID]|
  {
    hide SeatsOK, Inv, ReplayOf;
    if SomeReplaying(s, m) {
      var u :| u in s.threads && Replaying(s.threads[u], m);
      SeatOf(s, t);
      SeatOf(s, u);
      if m.version == |s.history[m.runID]| {
        MutualExclusion(s.locks, t, u, m.runID);
      }
    }
  }

  lemma DistinctAppend(marks: seq<ReplayMark>, m: ReplayMark)
    requires Distinct(marks) && m !in marks
    ensures Distinct(marks + [m])
  {
  }

  lemma SlicingKeepsReplays(s: Sys, t: ThreadID, world: World)
    requires ReplaysOK(s) && SeatsOK(s) && StoreOK(s) && ThreadsBased(s)
    requires t in s.threads && s.threads[t].stage.Slicing? && SpeaksAsAssistant(world.oracles)
    ensures ReplaysOK(StepSlicing(s, t, world))
  {
    hide SeatsOK, StoreOK, ThreadsBased, MarkOK, Distinct, Propose, ReplayOf, SpeaksAsAssistant, EventsOf;
    var after := StepSlicing(s, t, world);
    var thread := s.threads[t];
    if ReplayOf(MutationOf(thread.command), world, thread.stage.base).Some? {
      BaseIsLater(s, t, world);
      var m := ReplayMark(thread.runID, thread.stage.base.version);
      if m in s.replays {
        NotYetReplayed(s, t, m);
        assert false;
      }
      DistinctAppend(s.replays, m);
      NewMark(s, after, t, m);
      assert after.replays == s.replays + [m];
    } else {
      assert after.replays == s.replays;
    }
    forall m | m in s.replays
      ensures MarkOK(after, m)
    {
      QuietKeepsMark(s, after, t, m);
    }
  }

  lemma NewMark(s: Sys, after: Sys, t: ThreadID, m: ReplayMark)
    requires after.history == s.history && m.runID in s.history && 2 <= m.version == |s.history[m.runID]|
    requires t in after.threads && Replaying(after.threads[t], m)
    ensures MarkOK(after, m)
  {
    hide Replaying;
  }

  // ---------------------------------------------------------------- the steps that commit

  lemma MarkGrows(s: Sys, after: Sys, r: RunID, t: ThreadID, m: ReplayMark)
    requires MarkOK(s, m) && after.threads - {t} == s.threads - {t}
    requires r in after.history && (r in s.history ==> s.history[r] <= after.history[r])
    requires forall q | q in s.history && q != r :: q in after.history && after.history[q] == s.history[q]
    requires r == m.runID && r in s.history && m.version == |s.history[r]| ==>
      ReplayCommitted(after.history[r], m.version)
    requires r != m.runID && t in s.threads ==> !Replaying(s.threads[t], m)
    ensures MarkOK(after, m)
  {
    hide ReplayOf;
    if r != m.runID && SomeReplaying(s, m) {
      SomeReplayingKept(s, after, t, m);
    }
  }

  lemma CreatingKeepsReplays(s: Sys, t: ThreadID, world: World)
    requires ReplaysOK(s) && SeatsOK(s) && StoreOK(s) && t in s.threads && s.threads[t].stage.Creating?
    ensures ReplaysOK(StepCreating(s, t, world))
  {
    hide SeatsOK, StoreOK, MarkOK, Distinct, InitialState, ValidateRunState, Replaying;
    var after := StepCreating(s, t, world);
    var r := s.threads[t].runID;
    var created := InitialState(s.threads[t].stage.input, r);
    InitialPrompts(s.threads[t].stage.input, r);
    SeatOf(s, t);
    InitialVersion(s.threads[t].stage.input, r);
    if r in s.states {
      RunFacts(s, r);
    }
    if Store.SaveErr(s.states, created) == {} {
      NotInHistory(s, r);
      forall m | m in s.replays
        ensures MarkOK(after, m)
      {
        OnlySavingReplays(s.threads[t], m);
        MarkGrows(s, after, r, t, m);
      }
    } else {
      QuietKeepsReplays(s, after, t);
    }
  }

  lemma OnlySavingReplays(thread: Thread, m: ReplayMark)
    ensures Replaying(thread, m) ==> thread.stage.Saving?
  {
  }

  /** If a mark waits for its commit, the thread that may commit now is the one that replayed. */
  lemma SaverIsReplayer(s: Sys, t: ThreadID, m: ReplayMark)
    requires SeatsOK(s) && StoreOK(s) && MarkOK(s, m) && ThreadsBased(s) && t in s.threads && s.threads[t].stage.Saving?
    requires s.threads[t].runID == m.runID
    requires m.version == |s.history[m.runID]| == s.threads[t].stage.base.version
    ensures Replaying(s.threads[t], m)
  {
    hide SeatsOK, Inv, StoreOK, ThreadsBased, ReplayOf, Propose;
    BasedOf(s, t);
    SeatOf(s, t);
    var u :| u in s.threads && Replaying(s.threads[u], m);
    SeatOf(s, u);
    MutualExclusion(s.locks, t, u, m.runID);
  }

  lemma ReplayerMaySave(s: Sys, t: ThreadID, m: ReplayMark)
    requires StoreOK(s) && ThreadsBased(s) && MarkOK(s, m) && t in s.threads && Replaying(s.threads[t], m)
    ensures m.version == |s.history[m.runID]| && Store.SaveErr(s.states, s.threads[t].stage.out) == {}
  {
    hide StoreOK, ThreadsBased, ReplayOf, Propose, MarkOK, Succeeds, Store.SaveErr;
    BasedOf(s, t);
    SavingSucceeds(s, t);
    MarkVersion(s, m);
  }

  lemma MarkVersion(s: Sys, m: ReplayMark)
    requires MarkOK(s, m)
    ensures m.version >= 2 && m.runID in s.history && m.version <= |s.history[m.runID]|
  {
  }

  lemma SavingKeepsReplays(s: Sys, t: ThreadID)
    requires ReplaysOK(s) && SeatsOK(s) && StoreOK(s) && ThreadsBased(s) && t in s.threads && s.threads[t].stage.Saving?
    ensures ReplaysOK(StepSaving(s, t))
  {
    hide SeatsOK, StoreOK, ThreadsBased, MarkOK, Distinct, Propose, Succeeds, AfterSave, ValidateRunState, Inv,
      Replaying, ReplayCommitted;
    var after := StepSaving(s, t);
    var stage := s.threads[t].stage;
    var r := s.threads[t].runID;
    SavingSucceeds(s, t);
    forall m | m in s.replays
      ensures MarkOK(after, m)
    {
      MarkVersion(s, m);
      if Store.SaveErr(s.states, stage.out) == {} {
        if m.runID == r && m.version == |s.history[r]| {
          SaverIsReplayer(s, t, m);
          ReplayIsCommitted(s, after, t, m, after.history[r][|s.history[r]|]);
        }
        OtherRunReplays(s.threads[t], m);
        MarkGrows(s, after, r, t, m);
      } else {
        if Replaying(s.threads[t], m) {
          ReplayerMaySave(s, t, m);
        }
        QuietKeepsMark(s, after, t, m);
      }
    }
  }

  lemma OtherRunReplays(thread: Thread, m: ReplayMark)
    ensures thread.runID != m.runID ==> !Replaying(thread, m)
  {
  }

  lemma ReplayIsCommitted(s: Sys, after: Sys, t: ThreadID, m: ReplayMark, c: Commit)
    requires ThreadsBased(s) && t in s.threads && Replaying(s.threads[t], m)
    requires m.runID in s.history && m.version == |s.history[m.runID]| >= 1 && m.runID in after.history
    requires c.mutation == MutationOf(s.threads[t].command) && c.world == s.threads[t].stage.world
    requires after.history[m.runID] == s.history[m.runID] + [c]
    ensures ReplayCommitted(after.history[m.runID], m.version)
  {
    hide ThreadsBased, ReplayOf, Propose;
    BasedOf(s, t);
  }

  lemma StepKeepsReplays(s: Sys, t: ThreadID, world: World, sinkErr: Errors)
    requires ReplaysOK(s) && SeatsOK(s) && StoreOK(s) && ThreadsBased(s) && t in s.threads
    requires SpeaksAsAssistant(world.oracles)
    ensures ReplaysOK(StepThread(s, t, world, sinkErr))
  {
    hide ReplaysOK, SeatsOK, StoreOK, ThreadsBased, SpeaksAsAssistant, StepCreating, StepSlicing, StepSaving,
      ToolsErr, AcquireRef, EnterLock, ExitLock, ReleaseRef, CanEnter, KeyOf, ValidateEvent;
    if s.threads[t].stage.Creating? {
      CreatingKeepsReplays(s, t, world);
    } else if s.threads[t].stage.Slicing? {
      SlicingKeepsReplays(s, t, world);
    } else if s.threads[t].stage.Saving? {
      SavingKeepsReplays(s, t);
    } else {
      QuietKeepsReplays(s, StepThread(s, t, world, sinkErr), t);
    }
  }
}
