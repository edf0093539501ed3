/** No deadlock: from every reachable system the commands in flight can all be brought to their end. */
module ProtocolProgress {
  import opened Domain
  import opened EngineLaws
  import opened Commands
  import Store
  import opened LockTable
  import opened Protocol
  import opened ProtocolInv
  import opened ProtocolIdem
  import opened ProtocolReplay
  import opened ProtocolCount
  import opened ProtocolLaws

  /** An upper bound on the steps a thread has left once nobody is in its way. */
  function StepsToGo(s: Sys, t: ThreadID): nat
    requires t in s.threads
  {
    match s.threads[t].stage
    case Queued => if t in s.locks.seats then 40 else 41
    case Creating(_) => 39
    case Checking => 38
    case Loading => 37
    case Publishing(_, queue, _, more) => (if more then 30 else 10) + |queue|
    case Slicing(_, _) => 29
    case Saving(_, _, _, _, _, _) => 28
    case Recording(_, _) => 9
    case Finished(_, _) =>
      if t !in s.locks.seats then 1 else if s.locks.seats[t].phase == Holding then 3 else 2
  }

  /** The thread waits for no lock that is taken. */
  ghost predicate Unhindered(s: Sys, t: ThreadID) {
    t in s.threads && (s.threads[t].stage.Queued? ==> s.locks.owners == map[])
  }

  /** The thread has returned, or has fewer steps to go; the others are where they were. */
  ghost predicate Nearer(s: Sys, after: Sys, t: ThreadID) {
    && t in s.threads
    && after.threads - {t} == s.threads - {t}
    && (t in after.threads ==> Unhindered(after, t) && StepsToGo(after, t) < StepsToGo(s, t))
  }

  lemma QueuedNearer(s: Sys, t: ThreadID)
    requires SeatsOK(s) && Unhindered(s, t) && s.threads[t].stage.Queued?
    ensures Nearer(s, StepQueued(s, t), t)
  {
    hide Inv;
    SeatOf(s, t);
  }

  lemma FinishedNearer(s: Sys, t: ThreadID)
    requires SeatsOK(s) && t in s.threads && s.threads[t].stage.Finished?
    ensures Nearer(s, StepFinished(s, t), t)
  {
    hide Inv;
    SeatOf(s, t);
  }

  lemma PublishingNearer(s: Sys, t: ThreadID, sinkErr: Errors)
    requires t in s.threads && s.threads[t].stage.Publishing?
    ensures Nearer(s, StepPublishing(s, t, sinkErr), t)
  {
    hide ValidateEvent, KeyOf;
  }

  lemma SavingNearer(s: Sys, t: ThreadID)
    requires t in s.threads && s.threads[t].stage.Saving?
    ensures Nearer(s, StepSaving(s, t), t)
  {
    hide Store.SaveErr, Store.SavedState;
  }

  lemma OtherNearer(s: Sys, after: Sys, t: ThreadID)
    requires Moves(s, after, t)
    requires var stage, next := s.threads[t].stage, after.threads[t].stage;
      || (stage.Creating? && (next.Finished? || (next.Publishing? && |next.queue| <= 1)))
      || (stage.Checking? && (next.Finished? || next.Loading?))
      || (stage.Loading? && (next.Finished? || next.Slicing?))
      || (stage.Slicing? && (next.Finished? || next.Saving?))
      || (stage.Recording? && next.Finished?)
    ensures Nearer(s, after, t)
  {
  }

  lemma CreatingQueuesOne(s: Sys, t: ThreadID, world: World)
    requires t in s.threads && s.threads[t].stage.Creating?
    ensures var next := StepCreating(s, t, world).threads[t].stage;
      next.Publishing? ==> |next.queue| <= 1
  {
    hide InitialState, Store.SaveErr, Store.SavedState;
  }

  lemma StepNearer(s: Sys, t: ThreadID, world: World)
    requires SeatsOK(s) && Unhindered(s, t)
    ensures Nearer(s, StepThread(s, t, world, {}), t)
  {
    hide SeatsOK, Nearer, StepsToGo, StepQueued, StepCreating, StepChecking, StepLoading, StepSlicing, StepSaving,
      StepPublishing, StepRecording, StepFinished;
    match s.threads[t].stage {
      case Queued => QueuedNearer(s, t);
      case Creating(_) =>
        CreatingQueuesOne(s, t, world);
        OtherNearer(s, StepCreating(s, t, world), t);
      case Checking => OtherNearer(s, StepChecking(s, t), t);
      case Loading => OtherNearer(s, StepLoading(s, t), t);
      case Slicing(_, _) => OtherNearer(s, StepSlicing(s, t, world), t);
      case Saving(_, _, _, _, _, _) => SavingNearer(s, t);
      case Publishing(_, _, _, _) => PublishingNearer(s, t, {});
      case Recording(_, _) => OtherNearer(s, StepRecording(s, t), t);
      case Finished(_, _) => FinishedNearer(s, t);
    }
  }

  // ---------------------------------------------------------------- who may go

  /** Some thread waits for nobody: the holder of a lock, or anyone if no lock is held. */
  lemma SomeoneIsUnhindered(s: Sys) returns (t: ThreadID)
    requires SeatsOK(s) && s.threads != map[]
    ensures Unhindered(s, t)
  {
    if holder :| holder in s.locks.seats && s.locks.seats[holder].phase == Holding {
      t := holder;
      SeatOf(s, t);
    } else {
      NobodyHolds(s.locks);
      t :| t in s.threads;
    }
  }

  lemma NobodyHolds(lt: LockTable)
    requires Inv(lt) && forall t | t in lt.seats :: lt.seats[t].phase != Holding
    ensures lt.owners == map[]
  {
    hide Seated, Counted, Injective;
  }

  /** In every reachable system with commands in flight some thread's next step changes the system. */
  lemma SomeThreadCanStep(actions: seq<Action>, world: World) returns (t: ThreadID)
    requires SpeaksAsAssistant(world.oracles) && Run(actions).threads != map[]
    ensures t in Run(actions).threads
    ensures StepThread(Run(actions), t, world, {}) != Run(actions)
  {
    hide Run, StepThread, SeatsOK, StoreOK, ThreadsBased, IdemOK, ReplaysOK, CountOK, StepsToGo, SpeaksAsAssistant;
    RunOKAlways(actions);
    t := SomeoneIsUnhindered(Run(actions));
    StepNearer(Run(actions), t, world);
  }

  // ---------------------------------------------------------------- running to the end

  lemma Advances(actions: seq<Action>, t: ThreadID, world: World)
    requires SpeaksAsAssistant(world.oracles) && t in Run(actions).threads
    ensures Run(actions + [Advance(t, world, {})]) == StepThread(Run(actions), t, world, {})
  {
    hide StepThread, SpeaksAsAssistant;
    var all := actions + [Advance(t, world, {})];
    assert all[..|all| - 1] == actions;
  }

  ghost predicate AllAdvance(actions: seq<Action>) {
    forall k | 0 <= k < |actions| :: actions[k].Advance?
  }

  lemma {:induction false} ThreadRunsToItsEnd(actions: seq<Action>, t: ThreadID, world: World)
    returns (more: seq<Action>)
    requires SpeaksAsAssistant(world.oracles) && Unhindered(Run(actions), t)
    ensures AllAdvance(more)
    ensures Run(actions + more).threads == Run(actions).threads - {t}
    decreases StepsToGo(Run(actions), t)
  {
    hide Run, StepThread, SeatsOK, StoreOK, ThreadsBased, IdemOK, ReplaysOK, CountOK, StepsToGo, SpeaksAsAssistant;
    var s := Run(actions);
    var step := [Advance(t, world, {})];
    RunOKAlways(actions);
    StepNearer(s, t, world);
    Advances(actions, t, world);
    var after := Run(actions + step);
    if t in after.threads {
      var rest := ThreadRunsToItsEnd(actions + step, t, world);
      more := step + rest;
      assert actions + more == actions + step + rest;
    } else {
      more := step;
      assert after.threads == after.threads - {t};
    }
  }

  /** No command waits for a lock that nobody will give back: from every reachable system there is a
      way to finish all commands in flight, by steps of their own threads only. */
  lemma {:induction false} EveryCommandCanFinish(actions: seq<Action>, world: World) returns (more: seq<Action>)
    requires SpeaksAsAssistant(world.oracles)
    ensures AllAdvance(more)
    ensures Run(actions + more).threads == map[]
    decreases |Run(actions).threads|
  {
    hide Run, SeatsOK, StoreOK, ThreadsBased, IdemOK, ReplaysOK, CountOK, SpeaksAsAssistant;
    if Run(actions).threads == map[] {
      more := [];
      assert actions + more == actions;
    } else {
      RunOKAlways(actions);
      var t := SomeoneIsUnhindered(Run(actions));
      var first := ThreadRunsToItsEnd(actions, t, world);
      OneThreadLess(Run(actions).threads, t);
      var rest := EveryCommandCanFinish(actions + first, world);
      more := first + rest;
      assert actions + more == actions + first + rest;
    }
  }

  lemma OneThreadLess(threads: map<ThreadID, Thread>, t: ThreadID)
    requires t in threads
    ensures |threads - {t}| < |threads|
  {
    assert (threads - {t}).Keys == threads.Keys - {t};
    assert |threads| == |threads.Keys| && |threads - {t}| == |(threads - {t}).Keys|;
  }
}
