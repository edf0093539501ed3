/** Idempotent Continue: at most one commit a key, and its outcome is what every repetition gets. */
module ProtocolIdem {
  import opened Domain
  import opened Commands
  import opened History
  import opened HistoryLaws
  import Store
  import opened LockTable
  import opened Protocol
  import opened ProtocolInv

  ghost predicate Keyed(c: Commit, key: Key) {
    c.mutation.Applies? && KeyOf(c.mutation.command) == Some(key)
  }

  /** Commands in a history were addressed to its run. */
  ghost predicate Addressed(r: RunID, c: Commit) {
    c.mutation.Applies? ==> !c.mutation.command.Start? && c.mutation.command.runID == r
  }

  /** The thread has committed under `key` and has not recorded the outcome yet. */
  ghost predicate InTransit(thread: Thread, key: Key) {
    KeyOf(thread.command) == Some(key) && ((thread.stage.Publishing? && !thread.stage.more) || thread.stage.Recording?)
  }

  ghost predicate SomeInTransit(s: Sys, key: Key) {
    exists t :: t in s.threads && InTransit(s.threads[t], key)
  }

  /** A keyed commit is recorded, or its thread is on the way to record it. */
  ghost predicate Accounted(s: Sys, c: Commit) {
    forall key | Keyed(c, key) :: key in s.outcomes || SomeInTransit(s, key)
  }

  ghost predicate CommitsAccounted(s: Sys) {
    forall r, i | r in s.history && 0 <= i < |s.history[r]| ::
      Addressed(r, s.history[r][i]) && Accounted(s, s.history[r][i])
  }

  /** No two commits of a run share a key. */
  ghost predicate KeysUnique(h: seq<Commit>) {
    forall i, j, key | 0 <= i < j < |h| && Keyed(h[i], key) :: !Keyed(h[j], key)
  }

  ghost predicate AllKeysUnique(s: Sys) {
    forall r | r in s.history :: KeysUnique(s.history[r])
  }

  /** A recorded outcome is the state of the commit made under its key. */
  ghost predicate RecordsCommit(s: Sys, key: Key, state: RunState) {
    && Committed(s, key.runID, state)
    && Keyed(s.history[key.runID][state.version - 1], key)
  }

  ghost predicate OutcomesOK(s: Sys) {
    forall key | key in s.outcomes :: RecordsCommit(s, key, s.outcomes[key].state)
  }

  /** A thread past the lookup runs under a key nobody has recorded, and a thread past its save has
      committed under its own key. */
  ghost predicate ThreadKeyOK(s: Sys, thread: Thread) {
    forall key | KeyOf(thread.command) == Some(key) ::
      && (thread.stage.Loading? || thread.stage.Slicing? || thread.stage.Saving? || InTransit(thread, key) ==>
            key !in s.outcomes)
      && (InTransit(thread, key) ==> RecordsCommit(s, key, thread.stage.saved))
  }

  ghost predicate ThreadKeysOK(s: Sys) {
    forall t | t in s.threads :: ThreadKeyOK(s, s.threads[t])
  }

  ghost predicate IdemOK(s: Sys) {
    CommitsAccounted(s) && AllKeysUnique(s) && OutcomesOK(s) && ThreadKeysOK(s)
  }

  // ---------------------------------------------------------------- steps without commit or record

  lemma ThreadKeyOf(s: Sys, t: ThreadID)
    requires ThreadKeysOK(s) && t in s.threads
    ensures ThreadKeyOK(s, s.threads[t])
  {
    hide ThreadKeyOK;
  }

  lemma QuietKeepsKeys(s: Sys, after: Sys, t: ThreadID)
    requires ThreadKeysOK(s) && Quiet(s, after) && after.outcomes == s.outcomes
    requires after.threads - {t} == s.threads - {t}
    requires t in after.threads ==> ThreadKeyOK(after, after.threads[t])
    ensures ThreadKeysOK(after)
  {
    hide ThreadKeysOK, KeyOf;
    forall u | u in after.threads
      ensures ThreadKeyOK(after, after.threads[u])
    {
      if u != t {
        assert u in after.threads - {t};
        assert after.threads[u] == (after.threads - {t})[u] == (s.threads - {t})[u] == s.threads[u];
        ThreadKeyOf(s, u);
      }
    }
    AllThreadKeys(after);
  }

  lemma AllThreadKeys(s: Sys)
    requires forall t | t in s.threads :: ThreadKeyOK(s, s.threads[t])
    ensures ThreadKeysOK(s)
  {
    hide ThreadKeyOK;
  }

  lemma QuietKeepsAccounts(s: Sys, after: Sys, t: ThreadID)
    requires CommitsAccounted(s) && Quiet(s, after) && after.outcomes == s.outcomes
    requires after.threads - {t} == s.threads - {t}
    requires t in s.threads ==>
      forall key | InTransit(s.threads[t], key) :: t in after.threads && InTransit(after.threads[t], key)
    ensures CommitsAccounted(after)
  {
    hide InTransit, Keyed, Addressed;
    forall r, i | r in after.history && 0 <= i < |after.history[r]|
      ensures Addressed(r, after.history[r][i]) && Accounted(after, after.history[r][i])
    {
      var c := after.history[r][i];
      assert Accounted(s, s.history[r][i]);
      forall key | Keyed(c, key) && key !in after.outcomes
        ensures SomeInTransit(after, key)
      {
        TransitKept(s, after, t, key);
      }
    }
  }

  lemma TransitKept(s: Sys, after: Sys, t: ThreadID, key: Key)
    requires SomeInTransit(s, key) && after.threads - {t} == s.threads - {t}
    requires t in s.threads && InTransit(s.threads[t], key) ==> t in after.threads && InTransit(after.threads[t], key)
    ensures SomeInTransit(after, key)
  {
    hide InTransit;
    var u :| u in s.threads && InTransit(s.threads[u], key);
    if u != t {
      assert u in s.threads - {t};
      assert s.threads[u] == (s.threads - {t})[u] == (after.threads - {t})[u] == after.threads[u];
    }
  }

  lemma QuietKeepsOutcomes(s: Sys, after: Sys)
    requires OutcomesOK(s) && AllKeysUnique(s) && Quiet(s, after) && after.outcomes == s.outcomes
    ensures OutcomesOK(after) && AllKeysUnique(after)
  {
    hide KeysUnique, Keyed;
  }

  lemma QuietKeepsIdem(s: Sys, after: Sys, t: ThreadID)
    requires IdemOK(s) && Quiet(s, after) && after.outcomes == s.outcomes
    requires after.threads - {t} == s.threads - {t}
    requires t in s.threads ==>
      forall key | InTransit(s.threads[t], key) :: t in after.threads && InTransit(after.threads[t], key)
    requires t in after.threads ==> ThreadKeyOK(after, after.threads[t])
    ensures IdemOK(after)
  {
    hide CommitsAccounted, AllKeysUnique, OutcomesOK, ThreadKeysOK, ThreadKeyOK;
    QuietKeepsAccounts(s, after, t);
    QuietKeepsOutcomes(s, after);
    QuietKeepsKeys(s, after, t);
  }

  // ---------------------------------------------------------------- commit

  /** Past the lookup, a thread's key has been committed by nobody. */
  lemma KeyNotCommitted(s: Sys, t: ThreadID, key: Key, i: int)
    requires IdemOK(s) && SeatsOK(s) && t in s.threads && s.threads[t].stage.Saving?
    requires KeyOf(s.threads[t].command) == Some(key)
    requires s.threads[t].runID in s.history && 0 <= i < |s.history[s.threads[t].runID]|
    ensures !Keyed(s.history[s.threads[t].runID][i], key)
  {
    hide SeatsOK, Inv, AllKeysUnique, OutcomesOK, ThreadKeysOK, Addressed;
    var r := s.threads[t].runID;
    SeatOf(s, t);
    ThreadKeyOf(s, t);
    assert Accounted(s, s.history[r][i]);
    if Keyed(s.history[r][i], key) {
      var u :| u in s.threads && InTransit(s.threads[u], key);
      SeatOf(s, u);
      MutualExclusion(s.locks, t, u, r);
    }
  }

  lemma CommitKeepsUnique(h: seq<Commit>, c: Commit)
    requires KeysUnique(h)
    requires forall key, i | 0 <= i < |h| && Keyed(c, key) :: !Keyed(h[i], key)
    ensures KeysUnique(h + [c])
  {
    hide Keyed;
  }

  lemma RecordsGrow(s: Sys, after: Sys, r: RunID, key: Key, state: RunState)
    requires RecordsCommit(s, key, state)
    requires r in after.history && (r in s.history ==> s.history[r] <= after.history[r])
    requires forall q | q in s.history && q != r :: q in after.history && after.history[q] == s.history[q]
    ensures RecordsCommit(after, key, state)
  {
    hide Keyed;
  }

  /** A commit by `t` to run `r`, seen from the keys. */
  ghost predicate Commits(s: Sys, after: Sys, t: ThreadID, r: RunID, c: Commit) {
    && t in s.threads && t in after.threads
    && after.outcomes == s.outcomes
    && after.threads - {t} == s.threads - {t}
    && (forall key :: !InTransit(s.threads[t], key))
    && after.history == s.history[r := (if r in s.history then s.history[r] else []) + [c]]
  }

  lemma CommitKeepsThreadKeys(s: Sys, after: Sys, t: ThreadID, r: RunID, c: Commit)
    requires ThreadKeysOK(s) && OutcomesOK(s) && Commits(s, after, t, r, c) && ThreadKeyOK(after, after.threads[t])
    ensures ThreadKeysOK(after) && OutcomesOK(after)
  {
    hide ThreadKeysOK, KeyOf, RecordsCommit;
    forall u | u in after.threads
      ensures ThreadKeyOK(after, after.threads[u])
    {
      if u != t {
        assert u in after.threads - {t};
        assert after.threads[u] == (after.threads - {t})[u] == (s.threads - {t})[u] == s.threads[u];
        ThreadKeyOf(s, u);
        forall key | InTransit(s.threads[u], key) && KeyOf(s.threads[u].command) == Some(key) {
          RecordsGrow(s, after, r, key, s.threads[u].stage.saved);
        }
      }
    }
    AllThreadKeys(after);
    forall key | key in after.outcomes
      ensures RecordsCommit(after, key, after.outcomes[key].state)
    {
      RecordsGrow(s, after, r, key, s.outcomes[key].state);
    }
  }

  lemma CommitKeepsAccounts(s: Sys, after: Sys, t: ThreadID, r: RunID, c: Commit)
    requires CommitsAccounted(s) && Commits(s, after, t, r, c)
    requires Addressed(r, c)
    requires forall key | Keyed(c, key) :: InTransit(after.threads[t], key)
    ensures CommitsAccounted(after)
  {
    hide Keyed, Addressed, InTransit;
    forall q, i | q in after.history && 0 <= i < |after.history[q]|
      ensures Addressed(q, after.history[q][i]) && Accounted(after, after.history[q][i])
    {
      var d := after.history[q][i];
      if q in s.history && i < |s.history[q]| {
        assert d == s.history[q][i];
        assert Addressed(q, s.history[q][i]) && Accounted(s, s.history[q][i]);
        forall key | Keyed(d, key) && key !in after.outcomes
          ensures SomeInTransit(after, key)
        {
          TransitKept(s, after, t, key);
        }
      } else {
        assert q == r && d == c;
      }
    }
  }

  lemma CommitKeepsIdem(s: Sys, after: Sys, t: ThreadID, r: RunID, c: Commit)
    requires IdemOK(s) && Commits(s, after, t, r, c) && Addressed(r, c)
    requires ThreadKeyOK(after, after.threads[t])
    requires forall key | Keyed(c, key) :: InTransit(after.threads[t], key)
    requires r in s.history ==> forall key, i | 0 <= i < |s.history[r]| && Keyed(c, key) :: !Keyed(s.history[r][i], key)
    ensures IdemOK(after)
  {
    hide CommitsAccounted, OutcomesOK, ThreadKeysOK, ThreadKeyOK, KeysUnique, Keyed, Addressed, InTransit;
    CommitKeepsThreadKeys(s, after, t, r, c);
    CommitKeepsAccounts(s, after, t, r, c);
    if r in s.history {
      assert KeysUnique(s.history[r]);
      CommitKeepsUnique(s.history[r], c);
    } else {
      assert [] + [c] == [c];
      SingleUnique([c]);
    }
  }

  lemma SingleUnique(h: seq<Commit>)
    requires |h| == 1
    ensures KeysUnique(h)
  {
    hide Keyed;
  }

  // ---------------------------------------------------------------- the steps

  /** A thread that was not in transit, moving to a stage that claims nothing new. */
  lemma PlainKeepsIdem(s: Sys, after: Sys, t: ThreadID)
    requires IdemOK(s) && Quiet(s, after) && after.outcomes == s.outcomes && t in s.threads
    requires after.threads - {t} == s.threads - {t}
    requires !s.threads[t].stage.Publishing? && !s.threads[t].stage.Recording?
    requires t in after.threads ==>
      && after.threads[t].command == s.threads[t].command
      && var next := after.threads[t].stage;
         || next == s.threads[t].stage || next.Checking? || next.Finished?
         || (KeyOf(s.threads[t].command).None? && next.Loading?)
         || (s.threads[t].stage.Checking? && next.Loading?
             && forall key | KeyOf(s.threads[t].command) == Some(key) :: key !in s.outcomes)
         || (s.threads[t].stage.Loading? && next.Slicing?)
         || (s.threads[t].stage.Slicing? && next.Saving?)
    ensures IdemOK(after)
  {
    hide CommitsAccounted, AllKeysUnique, OutcomesOK, ThreadKeysOK, KeyOf, RecordsCommit;
    ThreadKeyOf(s, t);
    QuietKeepsIdem(s, after, t);
  }

  lemma CheckingKeepsIdem(s: Sys, t: ThreadID)
    requires IdemOK(s) && t in s.threads && s.threads[t].stage.Checking?
    ensures IdemOK(StepChecking(s, t))
  {
    hide IdemOK, KeyOf;
    PlainKeepsIdem(s, StepChecking(s, t), t);
  }

  lemma QueuedKeepsIdem(s: Sys, t: ThreadID)
    requires IdemOK(s) && t in s.threads && s.threads[t].stage.Queued?
    ensures IdemOK(StepQueued(s, t))
  {
    hide IdemOK, AcquireRef, EnterLock, CanEnter;
    PlainKeepsIdem(s, StepQueued(s, t), t);
  }

  lemma LoadingKeepsIdem(s: Sys, t: ThreadID)
    requires IdemOK(s) && t in s.threads && s.threads[t].stage.Loading?
    ensures IdemOK(StepLoading(s, t))
  {
    hide IdemOK, KeyOf, ToolsErr, Store.LoadErr;
    PlainKeepsIdem(s, StepLoading(s, t), t);
  }

  lemma SlicingKeepsIdem(s: Sys, t: ThreadID, world: World)
    requires IdemOK(s) && t in s.threads && s.threads[t].stage.Slicing?
    ensures IdemOK(StepSlicing(s, t, world))
  {
    hide IdemOK, KeyOf, Propose, ReplayOf, EventsOf;
    PlainKeepsIdem(s, StepSlicing(s, t, world), t);
  }

  lemma FinishedKeepsIdem(s: Sys, t: ThreadID)
    requires IdemOK(s) && t in s.threads && s.threads[t].stage.Finished?
    ensures IdemOK(StepFinished(s, t))
  {
    hide IdemOK, KeyOf, ExitLock, ReleaseRef;
    PlainKeepsIdem(s, StepFinished(s, t), t);
  }

  lemma StartHasNoKey(s: Sys, t: ThreadID)
    requires SeatsOK(s) && t in s.threads && s.threads[t].stage.Creating?
    ensures KeyOf(s.threads[t].command).None?
  {
    SeatOf(s, t);
  }

  lemma CreatingKeepsIdem(s: Sys, t: ThreadID, world: World)
    requires IdemOK(s) && SeatsOK(s) && StoreOK(s) && t in s.threads && s.threads[t].stage.Creating?
    ensures IdemOK(StepCreating(s, t, world))
  {
    hide IdemOK, SeatsOK, StoreOK, KeyOf, InitialState, ValidateRunState;
    var after := StepCreating(s, t, world);
    var r := s.threads[t].runID;
    var created := InitialState(s.threads[t].stage.input, r);
    StartHasNoKey(s, t);
    InitialPrompts(s.threads[t].stage.input, r);
    SeatOf(s, t);
    InitialVersion(s.threads[t].stage.input, r);
    if r in s.states {
      RunFacts(s, r);
    }
    if Store.SaveErr(s.states, created) == {} {
      NotInHistory(s, r);
      var c := Commit(Creates(s.threads[t].stage.input), world, Store.SavedState(s.states, created));
      assert [] + [c] == [c];
      CommitKeepsIdem(s, after, t, r, c);
    } else {
      PlainKeepsIdem(s, after, t);
    }
  }

  lemma SavingKeepsIdem(s: Sys, t: ThreadID)
    requires IdemOK(s) && SeatsOK(s) && StoreOK(s) && ThreadsBased(s) && t in s.threads && s.threads[t].stage.Saving?
    ensures IdemOK(StepSaving(s, t))
  {
    hide IdemOK, SeatsOK, StoreOK, ThreadsBased, KeyOf, Propose, Succeeds, AfterSave, ValidateRunState, Inv;
    var after := StepSaving(s, t);
    var stage := s.threads[t].stage;
    var r := s.threads[t].runID;
    SavingSucceeds(s, t);
    SeatOf(s, t);
    if Store.SaveErr(s.states, stage.out) == {} {
      var c := Commit(MutationOf(s.threads[t].command), stage.world, Store.SavedState(s.states, stage.out));
      SavedThreadKey(s, after, t, c);
      KeysFreshForCommit(s, t, c);
      CommitKeepsIdem(s, after, t, r, c);
    } else {
      PlainKeepsIdem(s, after, t);
    }
  }

  lemma KeysFreshForCommit(s: Sys, t: ThreadID, c: Commit)
    requires IdemOK(s) && SeatsOK(s) && t in s.threads && s.threads[t].stage.Saving?
    requires s.threads[t].runID in s.history && c.mutation == MutationOf(s.threads[t].command)
    ensures var h := s.history[s.threads[t].runID];
      forall key, i | 0 <= i < |h| && Keyed(c, key) :: !Keyed(h[i], key)
  {
    hide IdemOK, SeatsOK, KeyOf;
    var h := s.history[s.threads[t].runID];
    forall key, i | 0 <= i < |h| && Keyed(c, key)
      ensures !Keyed(h[i], key)
    {
      KeyNotCommitted(s, t, key, i);
    }
  }

  lemma SavedThreadKey(s: Sys, after: Sys, t: ThreadID, c: Commit)
    requires IdemOK(s) && t in s.threads && s.threads[t].stage.Saving?
    requires s.threads[t].runID in s.history && after.outcomes == s.outcomes
    requires var r := s.threads[t].runID;
      && after.history == s.history[r := s.history[r] + [c]]
      && c.mutation == MutationOf(s.threads[t].command)
      && c.state.version == |s.history[r]| + 1
    requires !s.threads[t].command.Start? ==> s.threads[t].runID == s.threads[t].command.runID
    requires t in after.threads && after.threads[t].command == s.threads[t].command
    requires after.threads[t].stage.Publishing? && after.threads[t].stage.saved == c.state
    ensures ThreadKeyOK(after, after.threads[t])
  {
    hide CommitsAccounted, AllKeysUnique, OutcomesOK, ThreadKeysOK;
    ThreadKeyOf(s, t);
  }

  lemma PublishingKeepsIdem(s: Sys, t: ThreadID, sinkErr: Errors)
    requires IdemOK(s) && SeatsOK(s) && ThreadsBased(s) && t in s.threads && s.threads[t].stage.Publishing?
    ensures IdemOK(StepPublishing(s, t, sinkErr))
  {
    hide CommitsAccounted, AllKeysUnique, OutcomesOK, ThreadKeysOK, SeatsOK, ThreadsBased, ValidateEvent, RecordsCommit,
      Committed;
    BasedOf(s, t);
    ThreadKeyOf(s, t);
    RecordsSameHistory(s, StepPublishing(s, t, sinkErr));
    QuietKeepsIdem(s, StepPublishing(s, t, sinkErr), t);
  }

  // ---------------------------------------------------------------- recording

  /** While `t` records, no other thread works under its key. */
  lemma OthersHaveOtherKeys(s: Sys, t: ThreadID, u: ThreadID, key: Key)
    requires SeatsOK(s) && t in s.threads && u in s.threads && t != u
    requires Inside(s.threads[t].stage) && Inside(s.threads[u].stage)
    requires KeyOf(s.threads[t].command) == Some(key)
    ensures KeyOf(s.threads[u].command) != Some(key)
  {
    hide SeatsOK, Inv;
    SeatOf(s, t);
    SeatOf(s, u);
    if KeyOf(s.threads[u].command) == Some(key) {
      MutualExclusion(s.locks, t, u, key.runID);
    }
  }

  /** What the recording step does. */
  ghost predicate Records(s: Sys, after: Sys, t: ThreadID, key: Key) {
    && t in s.threads && t in after.threads
    && s.threads[t].stage.Recording? && after.threads[t].stage.Finished?
    && KeyOf(s.threads[t].command) == Some(key)
    && Quiet(s, after)
    && after.threads - {t} == s.threads - {t}
    && key in after.outcomes && after.outcomes - {key} == s.outcomes - {key}
    && after.outcomes[key].state == s.threads[t].stage.saved
  }

  lemma RecordingKeepsThreadKeys(s: Sys, after: Sys, t: ThreadID, key: Key)
    requires ThreadKeysOK(s) && SeatsOK(s) && Records(s, after, t, key)
    ensures ThreadKeysOK(after)
  {
    hide ThreadKeysOK, SeatsOK, KeyOf, RecordsCommit;
    forall u | u in after.threads
      ensures ThreadKeyOK(after, after.threads[u])
    {
      if u != t {
        assert u in after.threads - {t};
        assert after.threads[u] == (after.threads - {t})[u] == (s.threads - {t})[u] == s.threads[u];
        ThreadKeyOf(s, u);
        if Inside(s.threads[u].stage) {
          OthersHaveOtherKeys(s, t, u, key);
        }
        OtherKeysStay(s, after, key);
        RecordsSameHistory(s, after);
      }
    }
    AllThreadKeys(after);
  }

  lemma OtherKeysStay(s: Sys, after: Sys, key: Key)
    requires after.outcomes - {key} == s.outcomes - {key}
    ensures forall k | k != key :: k in after.outcomes <==> k in s.outcomes
    ensures forall k | k != key && k in s.outcomes :: after.outcomes[k] == s.outcomes[k]
  {
    forall k | k != key
      ensures k in after.outcomes <==> k in s.outcomes
      ensures k in s.outcomes ==> after.outcomes[k] == s.outcomes[k]
    {
      assert k in after.outcomes <==> k in after.outcomes - {key};
      assert k in s.outcomes <==> k in s.outcomes - {key};
      if k in s.outcomes {
        assert after.outcomes[k] == (after.outcomes - {key})[k] == (s.outcomes - {key})[k];
      }
    }
  }

  lemma RecordsSameHistory(s: Sys, after: Sys)
    requires after.history == s.history
    ensures forall key, state :: RecordsCommit(s, key, state) == RecordsCommit(after, key, state)
  {
  }

  lemma RecordingKeepsAccounts(s: Sys, after: Sys, t: ThreadID, key: Key)
    requires CommitsAccounted(s) && Records(s, after, t, key)
    ensures CommitsAccounted(after)
  {
    OtherKeysStay(s, after, key);
    hide Keyed, Addressed, KeyOf;
    forall r, i | r in after.history && 0 <= i < |after.history[r]|
      ensures Addressed(r, after.history[r][i]) && Accounted(after, after.history[r][i])
    {
      var c := after.history[r][i];
      assert Accounted(s, s.history[r][i]);
      forall k | Keyed(c, k) && k !in after.outcomes
        ensures SomeInTransit(after, k)
      {
        TransitKept(s, after, t, k);
      }
    }
  }

  lemma RecordingKeepsIdem(s: Sys, t: ThreadID)
    requires IdemOK(s) && SeatsOK(s) && t in s.threads && s.threads[t].stage.Recording?
    ensures IdemOK(StepRecording(s, t))
  {
    hide CommitsAccounted, AllKeysUnique, OutcomesOK, ThreadKeysOK, SeatsOK, KeyOf, RecordsCommit;
    var after := StepRecording(s, t);
    ThreadKeyOf(s, t);
    var key := KeyOf(s.threads[t].command);
    if key.Some? {
      assert Records(s, after, t, key.value);
      RecordingKeepsThreadKeys(s, after, t, key.value);
      RecordingKeepsAccounts(s, after, t, key.value);
      RecordingKeepsOutcomes(s, after, t, key.value);
    } else {
      assert forall k :: !InTransit(s.threads[t], k);
      QuietKeepsIdem(s, after, t);
    }
  }

  lemma RecordingKeepsOutcomes(s: Sys, after: Sys, t: ThreadID, key: Key)
    requires OutcomesOK(s) && AllKeysUnique(s) && Records(s, after, t, key)
    requires RecordsCommit(s, key, s.threads[t].stage.saved)
    ensures OutcomesOK(after) && AllKeysUnique(after)
  {
    hide KeysUnique, Keyed, KeyOf, RecordsCommit;
    OtherKeysStay(s, after, key);
    RecordsSameHistory(s, after);
  }

  lemma StepKeepsIdem(s: Sys, t: ThreadID, world: World, sinkErr: Errors)
    requires IdemOK(s) && SeatsOK(s) && StoreOK(s) && ThreadsBased(s) && t in s.threads
    ensures IdemOK(StepThread(s, t, world, sinkErr))
  {
    hide IdemOK, SeatsOK, StoreOK, ThreadsBased, StepQueued, StepCreating, StepChecking, StepLoading,
      StepSlicing, StepSaving, StepPublishing, StepRecording, StepFinished;
    match s.threads[t].stage {
      case Queued => QueuedKeepsIdem(s, t);
      case Creating(_) => CreatingKeepsIdem(s, t, world);
      case Checking => CheckingKeepsIdem(s, t);
      case Loading => LoadingKeepsIdem(s, t);
      case Slicing(_, _) => SlicingKeepsIdem(s, t, world);
      case Saving(_, _, _, _, _, _) => SavingKeepsIdem(s, t);
      case Publishing(_, _, _, _) => PublishingKeepsIdem(s, t, sinkErr);
      case Recording(_, _) => RecordingKeepsIdem(s, t);
      case Finished(_, _) => FinishedKeepsIdem(s, t);
    }
  }
}
