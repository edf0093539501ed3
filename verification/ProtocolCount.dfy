/** Conservation between the store and the event log. */
module ProtocolCount {
  import opened Domain
  import opened ReactLoop
  import opened EngineLaws
  import opened EngineContract
  import opened Commands
  import opened History
  import opened HistoryLaws
  import Store
  import opened LockTable
  import opened Protocol
  import opened ProtocolInv

  function Count(events: seq<Event>, r: RunID, kind: EventType): nat {
    if events == [] then 0
    else (if events[0].runID == r && events[0].kind == kind then 1 else 0) + Count(events[1..], r, kind)
  }

  /** The two kinds that account for commits. */
  predicate Accounting(kind: EventType) {
    kind == RunStarted || kind == CommandApplied
  }

  lemma {:induction false} CountConcat(a: seq<Event>, b: seq<Event>, r: RunID, kind: EventType)
    ensures Count(a + b, r, kind) == Count(a, r, kind) + Count(b, r, kind)
  {
    if a == [] {
      assert a + b == b;
    } else {
      assert (a + b)[1..] == a[1..] + b;
      CountConcat(a[1..], b, r, kind);
    }
  }

  lemma {:induction false} CountNone(events: seq<Event>, r: RunID, kind: EventType)
    requires forall k | 0 <= k < |events| :: events[k].runID != r || events[k].kind != kind
    ensures Count(events, r, kind) == 0
  {
    if events != [] {
      CountNone(events[1..], r, kind);
    }
  }

  // ---------------------------------------------------------------- who still owes an event

  ghost predicate Owes(thread: Thread, r: RunID, kind: EventType) {
    thread.stage.Publishing? && Count(thread.stage.queue, r, kind) > 0
  }

  ghost function Debtors(s: Sys, r: RunID, kind: EventType): set<ThreadID> {
    set t | t in s.threads && Owes(s.threads[t], r, kind)
  }

  ghost predicate AllValid(events: seq<Event>) {
    forall k | 0 <= k < |events| :: ValidateEvent(events[k]) == {}
  }

  ghost predicate Scarce(queue: seq<Event>) {
    forall r, kind | Accounting(kind) :: Count(queue, r, kind) <= 1
  }

  ghost predicate QueueOK(thread: Thread) {
    thread.stage.Publishing? ==> AllValid(thread.stage.queue) && Scarce(thread.stage.queue)
  }

  ghost function Due(s: Sys, r: RunID, kind: EventType): int {
    if r !in s.history then 0 else if kind == RunStarted then 1 else |s.history[r]| - 1
  }

  ghost predicate Balanced(s: Sys, r: RunID, kind: EventType) {
    Count(s.log, r, kind) + |Debtors(s, r, kind)| == Due(s, r, kind)
  }

  /** Every commit is announced exactly once: the first by run_started, each later one by
      command_applied; what is not in the log yet is in exactly one queue. */
  ghost predicate CountOK(s: Sys) {
    && (forall t | t in s.threads :: QueueOK(s.threads[t]))
    && (forall r, kind | Accounting(kind) :: Balanced(s, r, kind))
    && AllValid(s.log)
  }

  function One(b: bool): nat {
    if b then 1 else 0
  }

  lemma CardinalityChange(a: set<ThreadID>, b: set<ThreadID>, t: ThreadID)
    requires a - {t} == b - {t}
    ensures |b| + One(t in a) == |a| + One(t in b)
  {
    assert a == if t in a then a - {t} + {t} else a - {t};
    assert b == if t in b then b - {t} + {t} else b - {t};
  }

  lemma SameOtherDebtors(s: Sys, after: Sys, t: ThreadID, r: RunID, kind: EventType, u: ThreadID)
    requires after.threads - {t} == s.threads - {t} && u != t
    ensures u in Debtors(s, r, kind) <==> u in Debtors(after, r, kind)
  {
    hide Owes;
    assert u in s.threads <==> u in s.threads - {t};
    assert u in after.threads <==> u in after.threads - {t};
    if u in s.threads {
      assert s.threads[u] == (s.threads - {t})[u] == (after.threads - {t})[u] == after.threads[u];
    }
  }

  /** Only thread `t` changes its debt. */
  lemma DebtChange(s: Sys, after: Sys, t: ThreadID, r: RunID, kind: EventType)
    requires after.threads - {t} == s.threads - {t}
    ensures |Debtors(after, r, kind)| + One(t in s.threads && Owes(s.threads[t], r, kind))
         == |Debtors(s, r, kind)| + One(t in after.threads && Owes(after.threads[t], r, kind))
  {
    hide Owes;
    var a, b := Debtors(s, r, kind), Debtors(after, r, kind);
    forall u | u != t
      ensures u in a <==> u in b
    {
      SameOtherDebtors(s, after, t, r, kind, u);
    }
    assert a - {t} == b - {t};
    CardinalityChange(a, b, t);
  }

  lemma QueuesKept(s: Sys, after: Sys, t: ThreadID)
    requires CountOK(s) && after.threads - {t} == s.threads - {t}
    requires t in after.threads ==> QueueOK(after.threads[t])
    ensures forall u | u in after.threads :: QueueOK(after.threads[u])
  {
    hide QueueOK, Balanced, AllValid;
    forall u | u in after.threads
      ensures QueueOK(after.threads[u])
    {
      if u != t {
        assert u in after.threads - {t};
        assert after.threads[u] == (after.threads - {t})[u] == (s.threads - {t})[u] == s.threads[u];
      }
    }
  }

  lemma CountParts(s: Sys)
    requires CountOK(s)
    ensures forall t | t in s.threads :: QueueOK(s.threads[t])
    ensures forall r, kind | Accounting(kind) :: Balanced(s, r, kind)
    ensures AllValid(s.log)
  {
    hide QueueOK, Balanced, AllValid;
  }

  /** A step of `t` that owes nothing before and after, and logs nothing that counts. */
  lemma SilentKeepsCount(s: Sys, after: Sys, t: ThreadID, more: seq<Event>)
    requires CountOK(s) && after.history == s.history && after.threads - {t} == s.threads - {t}
    requires t in s.threads ==> !s.threads[t].stage.Publishing?
    requires t in after.threads ==> !after.threads[t].stage.Publishing?
    requires after.log == s.log + more && AllValid(more)
    requires forall k | 0 <= k < |more| :: !Accounting(more[k].kind)
    ensures CountOK(after)
  {
    hide CountOK, Accounting;
    QueuesKept(s, after, t);
    CountParts(s);
    forall r, kind | Accounting(kind)
      ensures Balanced(after, r, kind)
    {
      assert Balanced(s, r, kind);
      DebtChange(s, after, t, r, kind);
      CountConcat(s.log, more, r, kind);
      CountNone(more, r, kind);
    }
    AllCount(after);
  }

  lemma AllCount(s: Sys)
    requires forall t | t in s.threads :: QueueOK(s.threads[t])
    requires forall r, kind | Accounting(kind) :: Balanced(s, r, kind)
    requires AllValid(s.log)
    ensures CountOK(s)
  {
    hide QueueOK, Balanced, AllValid;
  }

  // ---------------------------------------------------------------- publishing

  lemma PublishingKeepsCount(s: Sys, t: ThreadID, sinkErr: Errors)
    requires CountOK(s) && t in s.threads && s.threads[t].stage.Publishing?
    ensures CountOK(StepPublishing(s, t, sinkErr))
  {
    hide CountOK, KeyOf, Accounting, ValidateEvent;
    var after := StepPublishing(s, t, sinkErr);
    var queue := s.threads[t].stage.queue;
    CountParts(s);
    assert QueueOK(s.threads[t]);
    if queue == [] {
      forall r, kind | Accounting(kind)
        ensures Balanced(after, r, kind)
      {
        assert Balanced(s, r, kind);
        DebtChange(s, after, t, r, kind);
      }
    } else {
      TailOK(queue);
      forall r, kind | Accounting(kind)
        ensures Balanced(after, r, kind)
      {
        assert Balanced(s, r, kind);
        assert Count(queue, r, kind) <= 1;
        DebtChange(s, after, t, r, kind);
        CountConcat(s.log, [queue[0]], r, kind);
        assert [queue[0]][1..] == [];
      }
    }
    QueuesKept(s, after, t);
    AllCount(after);
  }

  lemma TailOK(queue: seq<Event>)
    requires queue != [] && AllValid(queue) && Scarce(queue)
    ensures AllValid(queue[1..]) && Scarce(queue[1..])
  {
    forall r, kind | Accounting(kind)
      ensures Count(queue[1..], r, kind) <= 1
    {
      assert Count(queue, r, kind) <= 1;
    }
  }

  // ---------------------------------------------------------------- slices

  lemma {:induction false} EventsOfTrace(trace: seq<Obs>)
    requires forall k | 0 <= k < |trace| && trace[k].Published? ::
      ValidateEvent(trace[k].event) == {} && OfSlice(trace[k].event.kind)
    ensures AllValid(EventsOf(trace))
    ensures forall k | 0 <= k < |EventsOf(trace)| :: !Accounting(EventsOf(trace)[k].kind)
  {
    hide ValidateEvent;
    if trace != [] {
      var init := trace[..|trace| - 1];
      assert forall k | 0 <= k < |init| :: init[k] == trace[k];
      EventsOfTrace(init);
    }
  }

  lemma SlicingKeepsCount(s: Sys, t: ThreadID, world: World)
    requires CountOK(s) && StoreOK(s) && ThreadsBased(s) && t in s.threads && s.threads[t].stage.Slicing?
    requires SpeaksAsAssistant(world.oracles)
    ensures CountOK(StepSlicing(s, t, world))
  {
    hide CountOK, StoreOK, ThreadsBased, Propose, ReplayOf, EventsOf, SpeaksAsAssistant, Legal, ValidateEvent,
      OfSlice, Accounting, ValidateRunState, AllValid;
    var thread := s.threads[t];
    BasedOf(s, t);
    InHistoryInStates(s, thread.runID);
    RunFacts(s, thread.runID);
    var trace := Propose(MutationOf(thread.command), world, thread.stage.base).trace;
    ProposalEvents(thread.runID, s.history[thread.runID], thread.stage.base.version, MutationOf(thread.command), world);
    EventsOfTrace(trace);
    SilentKeepsCount(s, StepSlicing(s, t, world), t, EventsOf(trace));
  }

  // ---------------------------------------------------------------- commits

  lemma AfterSaveCounts(kind: CommandKind, state: RunState, r: RunID, k: EventType)
    requires Accounting(k)
    ensures Count(AfterSave(kind, state), r, k) == One(r == state.id && k == CommandApplied)
  {
    var applied := Event(state.id, state.step, CommandApplied, Some(kind), None, None);
    var all := AfterSave(kind, state);
    var init := all[..|all| - 1];
    assert all == init + [applied];
    assert forall i | 0 <= i < |init| :: !Accounting(init[i].kind);
    CountConcat(init, [applied], r, k);
    CountNone(init, r, k);
    assert [applied][1..] == [];
  }

  lemma AfterSaveOK(kind: CommandKind, state: RunState)
    requires ValidateRunState(state) == {}
    ensures AllValid(AfterSave(kind, state)) && Scarce(AfterSave(kind, state))
  {
    AfterSaveValid(kind, state);
    hide AfterSave, Accounting;
    forall r, k | Accounting(k)
      ensures Count(AfterSave(kind, state), r, k) <= 1
    {
      AfterSaveCounts(kind, state, r, k);
    }
  }

  lemma AfterSaveValid(kind: CommandKind, state: RunState)
    requires ValidateRunState(state) == {}
    ensures AllValid(AfterSave(kind, state))
  {
    hide ValidateEvent, ValidateRunState;
    ValidStateIsAddressed(state);
    AppliedValid(state.id, state.step, kind);
    PlainEventValid(state.id, state.step, RunCancelled);
    PlainEventValid(state.id, state.step, RunSuspended);
    PlainEventValid(state.id, state.step, RunCheckpoint);
  }

  lemma ValidStateIsAddressed(state: RunState)
    requires ValidateRunState(state) == {}
    ensures state.id != "" && state.step >= 0
  {
  }

  lemma AppliedValid(runID: RunID, step: int, kind: CommandKind)
    requires runID != "" && step >= 0
    ensures ValidateEvent(Event(runID, step, CommandApplied, Some(kind), None, None)) == {}
  {
  }

  lemma SavingKeepsCount(s: Sys, t: ThreadID)
    requires CountOK(s) && StoreOK(s) && ThreadsBased(s) && t in s.threads && s.threads[t].stage.Saving?
    ensures CountOK(StepSaving(s, t))
  {
    hide CountOK, StoreOK, ThreadsBased, Propose, Succeeds, AfterSave, Accounting, ValidateRunState;
    var after := StepSaving(s, t);
    var stage := s.threads[t].stage;
    SavingSucceeds(s, t);
    if Store.SaveErr(s.states, stage.out) == {} {
      var saved := Store.SavedState(s.states, stage.out);
      SameButVersion(stage.out, saved.version);
      AfterSaveOK(s.threads[t].command.Kind(), saved);
      CountParts(s);
      forall r, kind | Accounting(kind)
        ensures Balanced(after, r, kind)
      {
        assert Balanced(s, r, kind);
        DebtChange(s, after, t, r, kind);
        AfterSaveCounts(s.threads[t].command.Kind(), saved, r, kind);
        OnlyTwoKinds(kind);
      }
      QueuesKept(s, after, t);
      AllCount(after);
    } else {
      NothingLogged(s, after, t);
    }
  }

  lemma OnlyTwoKinds(kind: EventType)
    requires Accounting(kind)
    ensures kind == RunStarted || kind == CommandApplied
  {
  }

  lemma NothingLogged(s: Sys, after: Sys, t: ThreadID)
    requires CountOK(s) && after.history == s.history && after.threads - {t} == s.threads - {t} && after.log == s.log
    requires t in s.threads ==> !s.threads[t].stage.Publishing?
    requires t in after.threads ==> !after.threads[t].stage.Publishing?
    ensures CountOK(after)
  {
    hide CountOK;
    assert s.log + [] == s.log;
    SilentKeepsCount(s, after, t, []);
  }

  lemma SameButVersion(state: RunState, version: int)
    requires ValidateRunState(state) == {} && version >= 0
    ensures ValidateRunState(state.(version := version)) == {}
  {
  }

  lemma CreatingKeepsCount(s: Sys, t: ThreadID, world: World)
    requires CountOK(s) && SeatsOK(s) && StoreOK(s) && t in s.threads && s.threads[t].stage.Creating?
    ensures CountOK(StepCreating(s, t, world))
  {
    hide CountOK, SeatsOK, StoreOK, InitialState, ValidateRunState, Accounting;
    var after := StepCreating(s, t, world);
    var r := s.threads[t].runID;
    var created := InitialState(s.threads[t].stage.input, r);
    InitialPrompts(s.threads[t].stage.input, r);
    SeatOf(s, t);
    InitialVersion(s.threads[t].stage.input, r);
    if r in s.states {
      RunFacts(s, r);
    }
    if Store.SaveErr(s.states, created) == {} {
      assert r !in s.states;
      NotInHistory(s, r);
      PlainEventValid(r, 0, RunStarted);
      var started := PlainEvent(r, 0, RunStarted);
      StartedScarce(started);
      CountParts(s);
      forall q, kind | Accounting(kind)
        ensures Balanced(after, q, kind)
      {
        assert Balanced(s, q, kind);
        DebtChange(s, after, t, q, kind);
        CountSingle(started, q, kind);
        OnlyTwoKinds(kind);
        assert q != r ==> (q in after.history <==> q in s.history);
      }
      QueuesKept(s, after, t);
      AllCount(after);
    } else {
      NothingLogged(s, after, t);
    }
  }

  lemma CountSingle(event: Event, r: RunID, kind: EventType)
    ensures Count([event], r, kind) == One(event.runID == r && event.kind == kind)
  {
    assert [event][1..] == [];
  }

  lemma StartedScarce(started: Event)
    ensures Scarce([started])
  {
    assert [started][1..] == [];
  }

  lemma StepKeepsCount(s: Sys, t: ThreadID, world: World, sinkErr: Errors)
    requires CountOK(s) && SeatsOK(s) && StoreOK(s) && ThreadsBased(s) && t in s.threads
    requires SpeaksAsAssistant(world.oracles)
    ensures CountOK(StepThread(s, t, world, sinkErr))
  {
    hide CountOK, SeatsOK, StoreOK, ThreadsBased, SpeaksAsAssistant, StepCreating, StepSlicing, StepSaving,
      StepPublishing;
    match s.threads[t].stage {
      case Creating(_) => CreatingKeepsCount(s, t, world);
      case Slicing(_, _) => SlicingKeepsCount(s, t, world);
      case Saving(_, _, _, _, _, _) => SavingKeepsCount(s, t);
      case Publishing(_, _, _, _) => PublishingKeepsCount(s, t, sinkErr);
      case _ => NothingLogged(s, StepThread(s, t, world, sinkErr), t);
    }
  }
}
