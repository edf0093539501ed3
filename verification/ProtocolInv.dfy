/** Inductive invariants of the concurrent runner. */
module ProtocolInv {
  import opened Domain
  import opened EngineLaws
  import opened Commands
  import opened History
  import opened HistoryLaws
  import Store
  import opened LockTable
  import opened Protocol

  // ---------------------------------------------------------------- who holds which lock

  predicate Inside(stage: Stage) {
    !stage.Queued? && !stage.Creating? && !stage.Finished?
  }

  /** A thread's place in the lock table fits its command and stage. */
  ghost predicate ThreadSeated(s: Sys, t: ThreadID)
    requires t in s.threads
  {
    var thread := s.threads[t];
    && (t in s.locks.seats ==> !thread.command.Start? && s.locks.seats[t].runID == thread.runID)
    && (t in s.locks.seats && s.locks.seats[t].phase == Waiting ==> thread.stage.Queued?)
    && (t in s.locks.seats && s.locks.seats[t].phase == Leaving ==> thread.stage.Finished?)
    && (t in s.locks.seats && thread.stage.Queued? ==> s.locks.seats[t].phase == Waiting)
    && (!thread.command.Start? && Inside(thread.stage) ==> s.locks.Holds(t, thread.runID))
    && (thread.stage.Queued? ==> !thread.command.Start?)
    && (thread.stage.Creating? ==> thread.command.Start?)
    && (thread.stage.Creating? || thread.stage.Queued? || Inside(thread.stage) ==> thread.runID != "")
    && (thread.stage.Checking? || thread.stage.Recording? ==> thread.command.Continue?)
    && (thread.stage.Loading? ==> !thread.command.Start?)
    && (!thread.command.Start? ==> thread.runID == thread.command.runID)
  }

  ghost predicate SeatsOK(s: Sys) {
    && Inv(s.locks)
    && (forall t | t in s.locks.seats :: t in s.threads)
    && (forall t | t in s.threads :: ThreadSeated(s, t))
  }

  lemma SeatOf(s: Sys, t: ThreadID)
    requires SeatsOK(s) && t in s.threads
    ensures ThreadSeated(s, t) && Inv(s.locks)
  {
    hide Inv, ThreadSeated;
  }

  lemma MoveKeepsSeats(s: Sys, after: Sys, t: ThreadID)
    requires SeatsOK(s) && Moves(s, after, t)
    requires s.threads[t].stage.Creating? || Inside(s.threads[t].stage)
    requires var next := after.threads[t].stage;
      && (Inside(next) || next.Finished?)
      && !next.Checking?
      && (next.Recording? ==> s.threads[t].command.Continue?)
      && (next.Loading? ==> !s.threads[t].command.Start?)
    ensures SeatsOK(after)
  {
    hide Inv;
    assert ThreadSeated(s, t);
    forall u | u in after.threads
      ensures ThreadSeated(after, u)
    {
      assert ThreadSeated(s, u);
    }
  }

  /** The lock table and one thread change; every other thread and seat stays. */
  lemma SeatChangeKeepsSeats(s: Sys, after: Sys, t: ThreadID)
    requires SeatsOK(s) && t in s.threads && Inv(after.locks)
    requires after.threads - {t} == s.threads - {t} && after.locks.seats - {t} == s.locks.seats - {t}
    requires t in after.locks.seats ==> t in after.threads
    requires t in after.threads ==> ThreadSeated(after, t)
    ensures SeatsOK(after)
  {
    hide Inv;
    forall u | u in after.locks.seats
      ensures u in after.threads
    {
      if u != t {
        assert u in after.locks.seats - {t};
        assert u in s.threads - {t};
      }
    }
    forall u | u in after.threads
      ensures ThreadSeated(after, u)
    {
      if u != t {
        assert u in after.threads - {t};
        assert u in after.locks.seats ==> u in after.locks.seats - {t};
        assert u in s.locks.seats ==> u in s.locks.seats - {t};
        assert ThreadSeated(s, u);
        assert after.threads[u] == (after.threads - {t})[u] == s.threads[u];
      }
    }
  }

  lemma AcquireKeepsSeats(s: Sys, t: ThreadID)
    requires SeatsOK(s) && t in s.threads && s.threads[t].stage.Queued? && t !in s.locks.seats
    ensures SeatsOK(s.(locks := AcquireRef(s.locks, t, s.threads[t].runID)))
  {
    hide SeatsOK, Inv;
    SeatOf(s, t);
    AcquireKeeps(s.locks, t, s.threads[t].runID);
    SeatChangeKeepsSeats(s, s.(locks := AcquireRef(s.locks, t, s.threads[t].runID)), t);
  }

  lemma EnterKeepsSeats(s: Sys, t: ThreadID, stage: Stage)
    requires SeatsOK(s) && t in s.threads && s.threads[t].stage.Queued? && CanEnter(s.locks, t)
    requires if s.threads[t].command.Continue? then stage == Checking else stage == Loading
    ensures SeatsOK(Put(s.(locks := EnterLock(s.locks, t)), t, stage))
  {
    hide SeatsOK, Inv;
    SeatOf(s, t);
    EnterKeeps(s.locks, t);
    SeatChangeKeepsSeats(s, Put(s.(locks := EnterLock(s.locks, t)), t, stage), t);
  }

  lemma QueuedKeepsSeats(s: Sys, t: ThreadID)
    requires SeatsOK(s) && t in s.threads && s.threads[t].stage.Queued?
    ensures SeatsOK(StepQueued(s, t))
  {
    hide SeatsOK, AcquireRef, EnterLock, CanEnter, Put;
    if t !in s.locks.seats {
      AcquireKeepsSeats(s, t);
    } else if CanEnter(s.locks, t) {
      EnterKeepsSeats(s, t, if s.threads[t].command.Continue? then Checking else Loading);
    }
  }

  lemma FinishedKeepsSeats(s: Sys, t: ThreadID)
    requires SeatsOK(s) && t in s.threads && s.threads[t].stage.Finished?
    ensures SeatsOK(StepFinished(s, t))
    ensures t in s.locks.seats && s.locks.seats[t].phase == Leaving ==> s.locks.seats[t].lock in s.locks.refs
  {
    hide SeatsOK, Inv;
    SeatOf(s, t);
    var after := StepFinished(s, t);
    if t !in s.locks.seats {
      SeatChangeKeepsSeats(s, after, t);
    } else if s.locks.seats[t].phase == Holding {
      ExitKeeps(s.locks, t);
      SeatChangeKeepsSeats(s, after, t);
    } else {
      ReleaseKeeps(s.locks, t);
      SeatChangeKeepsSeats(s, after, t);
    }
  }

  lemma StepKeepsSeats(s: Sys, t: ThreadID, world: World, sinkErr: Errors)
    requires SeatsOK(s) && t in s.threads
    ensures SeatsOK(StepThread(s, t, world, sinkErr))
  {
    hide SeatsOK, Moves, Inv, StepQueued, StepCreating, StepChecking, StepLoading, StepSlicing, StepSaving,
      StepPublishing, StepRecording, StepFinished;
    SeatOf(s, t);
    var after := StepThread(s, t, world, sinkErr);
    match s.threads[t].stage {
      case Queued => QueuedKeepsSeats(s, t);
      case Finished(_, _) => FinishedKeepsSeats(s, t);
      case _ => MoveKeepsSeats(s, after, t);
    }
  }

  // ---------------------------------------------------------------- the store and its history

  /** The store holds the last commit of every run's history, and every history is legal. */
  ghost predicate StoreOK(s: Sys) {
    && s.states.Keys == s.history.Keys
    && forall r | r in s.history :: RunOK(r, s.history[r], s.states[r])
  }

  ghost predicate RunOK(r: RunID, h: seq<Commit>, current: RunState) {
    Legal(r, h) && current == h[|h| - 1].state
  }

  ghost predicate Committed(s: Sys, r: RunID, saved: RunState) {
    r in s.history && 1 <= saved.version <= |s.history[r]| && s.history[r][saved.version - 1].state == saved
  }

  /** The state a thread works from is a commit of its run. Start works from the first commit; a
      thread that holds the lock and works from a later one works from the current one. */
  ghost predicate Based(s: Sys, thread: Thread, base: RunState) {
    && Committed(s, thread.runID, base)
    && (thread.command.Start? ==> base.version == 1)
    && (!thread.command.Start? && base.version >= 2 ==> base.version == |s.history[thread.runID]|)
  }

  ghost predicate ThreadBased(s: Sys, thread: Thread) {
    match thread.stage
    case Slicing(base, _) => Based(s, thread, base)
    case Saving(base, _, world, out, runErr, trace) =>
      && Based(s, thread, base)
      && SpeaksAsAssistant(world.oracles)
      && Propose(MutationOf(thread.command), world, base) == Proposed(out, runErr, trace)
    case Publishing(saved, _, _, more) =>
      && Committed(s, thread.runID, saved)
      && (more ==> thread.command.Start? && saved.version == 1)
    case Recording(saved, _) => Committed(s, thread.runID, saved)
    case _ => true
  }

  ghost predicate ThreadsBased(s: Sys) {
    forall t | t in s.threads :: ThreadBased(s, s.threads[t])
  }

  lemma RunFacts(s: Sys, r: RunID)
    requires StoreOK(s) && r in s.states
    ensures r in s.history && Legal(r, s.history[r]) && |s.history[r]| >= 1
    ensures s.states[r] == s.history[r][|s.history[r]| - 1].state
    ensures s.states[r].version == |s.history[r]| && s.states[r].id == r
    ensures ValidateRunState(s.states[r]) == {}
  {
    hide Resumable, SoundStep, SoundState, Legal;
    assert RunOK(r, s.history[r], s.states[r]);
    LegalNonEmpty(r, s.history[r]);
    LegalSound(r, s.history[r], |s.history[r]| - 1);
    SoundVersion(r, |s.history[r]|, s.states[r]);
  }

  /** A step that writes neither store nor history keeps what other threads rely on. */
  lemma QuietKeepsBased(s: Sys, after: Sys, t: ThreadID)
    requires ThreadsBased(s) && after.history == s.history
    requires after.threads - {t} == s.threads - {t}
    requires t in after.threads ==> ThreadBased(after, after.threads[t])
    ensures ThreadsBased(after)
  {
    forall u | u in after.threads
      ensures ThreadBased(after, after.threads[u])
    {
      if u != t {
        assert u in after.threads - {t};
        assert after.threads[u] == (after.threads - {t})[u] == (s.threads - {t})[u] == s.threads[u];
        assert ThreadBased(s, s.threads[u]);
        hide Propose, SpeaksAsAssistant;
      }
    }
  }

  lemma LoadingKeepsBased(s: Sys, t: ThreadID)
    requires StoreOK(s) && ThreadsBased(s) && t in s.threads && !s.threads[t].command.Start?
    ensures ThreadsBased(StepLoading(s, t))
  {
    hide StoreOK, ThreadsBased, ToolsErr;
    if s.threads[t].runID in s.states {
      RunFacts(s, s.threads[t].runID);
    }
    QuietKeepsBased(s, StepLoading(s, t), t);
  }

  lemma SlicingKeepsBased(s: Sys, t: ThreadID, world: World)
    requires ThreadsBased(s) && t in s.threads && s.threads[t].stage.Slicing? && SpeaksAsAssistant(world.oracles)
    ensures ThreadsBased(StepSlicing(s, t, world))
  {
    hide ThreadsBased, Propose, ReplayOf, SpeaksAsAssistant, EventsOf;
    BasedOf(s, t);
    QuietKeepsBased(s, StepSlicing(s, t, world), t);
  }

  lemma PublishingKeepsBased(s: Sys, t: ThreadID, sinkErr: Errors)
    requires ThreadsBased(s) && t in s.threads && s.threads[t].stage.Publishing?
    ensures ThreadsBased(StepPublishing(s, t, sinkErr))
  {
    hide ThreadsBased, ValidateEvent, KeyOf;
    BasedOf(s, t);
    QuietKeepsBased(s, StepPublishing(s, t, sinkErr), t);
  }

  lemma BasedOf(s: Sys, t: ThreadID)
    requires ThreadsBased(s) && t in s.threads
    ensures ThreadBased(s, s.threads[t])
  {
    hide ThreadBased;
  }

  // ---------------------------------------------------------------- the two steps that save

  lemma CommittedGrows(s: Sys, after: Sys, r: RunID, q: RunID, saved: RunState)
    requires Committed(s, q, saved)
    requires r in after.history && (r in s.history ==> s.history[r] <= after.history[r])
    requires q != r ==> q in after.history && after.history[q] == s.history[q]
    ensures Committed(after, q, saved)
  {
  }

  /** A commit to `r` leaves a thread alone unless it holds the lock of `r` over a later version. */
  lemma CommitLeavesAlone(s: Sys, after: Sys, r: RunID, thread: Thread)
    requires ThreadBased(s, thread)
    requires r in after.history && (r in s.history ==> s.history[r] <= after.history[r])
    requires forall q | q in s.history && q != r :: q in after.history && after.history[q] == s.history[q]
    requires thread.runID == r && !thread.command.Start? ==>
      match thread.stage
      case Slicing(base, _) => base.version < 2
      case Saving(base, _, _, _, _, _) => base.version < 2
      case _ => true
    ensures ThreadBased(after, thread)
  {
    hide Propose, SpeaksAsAssistant;
    match thread.stage {
      case Slicing(base, _) => CommittedGrows(s, after, r, thread.runID, base);
      case Saving(base, _, _, _, _, _) => CommittedGrows(s, after, r, thread.runID, base);
      case Publishing(saved, _, _, _) => CommittedGrows(s, after, r, thread.runID, saved);
      case Recording(saved, _) => CommittedGrows(s, after, r, thread.runID, saved);
      case _ =>
    }
  }

  lemma StoreOKExtends(s: Sys, after: Sys, r: RunID, h: seq<Commit>)
    requires StoreOK(s) && Legal(r, h) && |h| >= 1
    requires after.history == s.history[r := h] && after.states == s.states[r := h[|h| - 1].state]
    ensures StoreOK(after)
  {
    hide Legal;
    forall q | q in after.history
      ensures RunOK(q, after.history[q], after.states[q])
    {
      if q != r {
        assert RunOK(q, s.history[q], s.states[q]);
      }
    }
  }

  lemma CreatingKeepsStore(s: Sys, t: ThreadID, world: World)
    requires StoreOK(s) && ThreadsBased(s) && SeatsOK(s)
    requires t in s.threads && s.threads[t].stage.Creating?
    ensures StoreOK(StepCreating(s, t, world)) && ThreadsBased(StepCreating(s, t, world))
  {
    hide StoreOK, ThreadsBased, SeatsOK, Inv, InitialState;
    var after := StepCreating(s, t, world);
    var r := s.threads[t].runID;
    SeatOf(s, t);
    var created := InitialState(s.threads[t].stage.input, r);
    InitialPrompts(s.threads[t].stage.input, r);
    InitialVersion(s.threads[t].stage.input, r);
    if r in s.states {
      RunFacts(s, r);
    }
    if Store.SaveErr(s.states, created) == {} {
      assert r !in s.states;
      NotInHistory(s, r);
      var founded := [Commit(Creates(s.threads[t].stage.input), world, created.(version := 1))];
      FoundedLegal(r, founded);
      StoreOKExtends(s, after, r, founded);
      assert after.history == s.history[r := founded];
      forall u | u in after.threads
        ensures ThreadBased(after, after.threads[u])
      {
        if u != t {
          BasedOf(s, u);
          NotInHistoryUnbased(s, r, s.threads[u]);
          CommitLeavesAlone(s, after, r, s.threads[u]);
        }
      }
      AllBased(after);
    } else {
      StoreSame(s, after);
      QuietKeepsBased(s, after, t);
    }
  }

  lemma InitialVersion(input: RunInput, runID: RunID)
    requires runID != ""
    ensures InitialState(input, runID).version == 0 && ValidateRunState(InitialState(input, runID)) == {}
  {
  }

  lemma NotInHistory(s: Sys, r: RunID)
    requires StoreOK(s) && r !in s.states
    ensures r !in s.history
  {
    hide RunOK;
  }

  lemma NotInHistoryUnbased(s: Sys, r: RunID, thread: Thread)
    requires r !in s.history && ThreadBased(s, thread)
    ensures thread.stage.Slicing? || thread.stage.Saving? ==> thread.runID != r
  {
    hide Propose, SpeaksAsAssistant;
  }

  lemma FoundedLegal(r: RunID, h: seq<Commit>)
    requires |h| == 1 && Founds(r, h[0])
    ensures Legal(r, h)
  {
  }

  lemma AllBased(s: Sys)
    requires forall t | t in s.threads :: ThreadBased(s, s.threads[t])
    ensures ThreadsBased(s)
  {
  }

  lemma StoreSame(s: Sys, after: Sys)
    requires StoreOK(s) && after.states == s.states && after.history == s.history
    ensures StoreOK(after)
  {
    hide RunOK;
  }

  /** Two different threads are never both based on a later version of a run one of them commits to. */
  lemma NobodyElseRelies(s: Sys, t: ThreadID, u: ThreadID, version: int)
    requires SeatsOK(s) && ThreadsBased(s) && t in s.threads && u in s.threads && t != u
    requires s.threads[t].stage.Saving? && s.threads[t].runID == s.threads[u].runID
    requires s.threads[t].runID in s.history
    requires s.threads[t].stage.base.version == |s.history[s.threads[t].runID]|
    requires !s.threads[u].command.Start?
    ensures match s.threads[u].stage
      case Slicing(base, _) => base.version < 2
      case Saving(base, _, _, _, _, _) => base.version < 2
      case _ => true
  {
    hide Propose, SpeaksAsAssistant, Inv, SeatsOK, ThreadsBased;
    SeatOf(s, t);
    SeatOf(s, u);
    BasedOf(s, t);
    BasedOf(s, u);
    if !s.threads[t].command.Start? && Inside(s.threads[u].stage) {
      MutualExclusion(s.locks, t, u, s.threads[t].runID);
    }
  }

  lemma SavingSucceeds(s: Sys, t: ThreadID)
    requires StoreOK(s) && ThreadsBased(s) && t in s.threads && s.threads[t].stage.Saving?
    ensures var thread := s.threads[t];
      var stage := thread.stage;
      && thread.runID in s.states && thread.runID in s.history
      && stage.out.id == thread.runID
      && stage.out.version == stage.base.version
      && (Store.SaveErr(s.states, stage.out) == {} <==> stage.base.version == |s.history[thread.runID]|)
      && (Store.SaveErr(s.states, stage.out) != {} ==> Store.SaveErr(s.states, stage.out) == {ErrRunVersionConflict})
      && |s.history[thread.runID]| == s.states[thread.runID].version
      && Succeeds(stage.base, Commit(MutationOf(thread.command), stage.world,
                                     stage.out.(version := stage.base.version + 1)))
  {
    hide StoreOK, ThreadsBased, Propose, SpeaksAsAssistant, Succeeds, Legal, ValidateRunState;
    var thread := s.threads[t];
    BasedOf(s, t);
    InHistoryInStates(s, thread.runID);
    RunFacts(s, thread.runID);
    ProposalLaw(thread.runID, s.history[thread.runID], thread.stage.base.version, MutationOf(thread.command),
                thread.stage.world);
  }

  lemma InHistoryInStates(s: Sys, r: RunID)
    requires StoreOK(s) && r in s.history
    ensures r in s.states
  {
    hide RunOK;
  }

  lemma SavingKeepsStore(s: Sys, t: ThreadID)
    requires StoreOK(s) && ThreadsBased(s) && SeatsOK(s)
    requires t in s.threads && s.threads[t].stage.Saving?
    ensures StoreOK(StepSaving(s, t)) && ThreadsBased(StepSaving(s, t))
  {
    hide StoreOK, ThreadsBased, SeatsOK, Propose, SpeaksAsAssistant, Succeeds, Legal, AfterSave, ValidateRunState;
    var after := StepSaving(s, t);
    var stage := s.threads[t].stage;
    var r := s.threads[t].runID;
    SavingSucceeds(s, t);
    RunFacts(s, r);
    BasedOf(s, t);
    if Store.SaveErr(s.states, stage.out) == {} {
      var c := Commit(MutationOf(s.threads[t].command), stage.world, stage.out.(version := stage.base.version + 1));
      LegalExtends(r, s.history[r], c);
      assert after.history == s.history[r := s.history[r] + [c]];
      StoreOKExtends(s, after, r, s.history[r] + [c]);
      forall u | u in after.threads
        ensures ThreadBased(after, after.threads[u])
      {
        if u != t {
          BasedOf(s, u);
          if s.threads[u].runID == r && !s.threads[u].command.Start? {
            NobodyElseRelies(s, t, u, stage.base.version);
          }
          CommitLeavesAlone(s, after, r, s.threads[u]);
        }
      }
      AllBased(after);
    } else {
      StoreSame(s, after);
      QuietKeepsBased(s, after, t);
    }
  }

  /** A step after which its thread relies on nothing. */
  lemma IdleKeepsBased(s: Sys, after: Sys, t: ThreadID)
    requires ThreadsBased(s) && Quiet(s, after) && t in s.threads
    requires after.threads - {t} == s.threads - {t}
    requires t in after.threads ==>
      var next := after.threads[t].stage;
      after.threads[t] == s.threads[t] || next.Checking? || next.Loading? || next.Finished?
    ensures ThreadsBased(after)
  {
    hide ThreadsBased, Propose, SpeaksAsAssistant;
    BasedOf(s, t);
    QuietKeepsBased(s, after, t);
  }

  lemma StepKeepsStore(s: Sys, t: ThreadID, world: World, sinkErr: Errors)
    requires StoreOK(s) && ThreadsBased(s) && SeatsOK(s) && t in s.threads && SpeaksAsAssistant(world.oracles)
    ensures StoreOK(StepThread(s, t, world, sinkErr)) && ThreadsBased(StepThread(s, t, world, sinkErr))
  {
    hide StoreOK, ThreadsBased, SeatsOK, SpeaksAsAssistant, StepQueued, StepCreating, StepChecking, StepLoading,
      StepSlicing, StepSaving, StepPublishing, StepRecording, StepFinished;
    SeatOf(s, t);
    var after := StepThread(s, t, world, sinkErr);
    match s.threads[t].stage {
      case Creating(_) => CreatingKeepsStore(s, t, world);
      case Saving(_, _, _, _, _, _) => SavingKeepsStore(s, t);
      case Loading =>
        StoreSame(s, after);
        LoadingKeepsBased(s, t);
      case Slicing(_, _) =>
        StoreSame(s, after);
        SlicingKeepsBased(s, t, world);
      case Publishing(_, _, _, _) =>
        StoreSame(s, after);
        PublishingKeepsBased(s, t, sinkErr);
      case _ =>
        StoreSame(s, after);
        IdleKeepsBased(s, after, t);
    }
  }
}
