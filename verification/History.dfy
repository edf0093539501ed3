/** The life of one run as the sequence of its commits.

    A history is legal when its first commit creates the run and every later commit saves what one
    command proposes for the state of the commit before it. `Protocol` proves that concurrent
    execution produces legal histories only; this module proves what legal histories guarantee.
  */
module History {
  import opened Domain
  import opened ReplayContext
  import opened ReactLoop
  import opened Transcript
  import opened EngineLaws
  import opened EngineGrowth
  import opened Commands
  import opened EngineContract

  datatype Commit = Commit(mutation: Mutation, world: World, state: RunState)

  ghost predicate Founds(runID: RunID, c: Commit) {
    && c.mutation.Creates?
    && runID != ""
    && c.state == InitialState(c.mutation.input, runID).(version := 1)
  }

  /** The commit saves what its mutation proposes for `prev`. */
  ghost predicate Succeeds(prev: RunState, c: Commit) {
    && !c.mutation.Creates?
    && SpeaksAsAssistant(c.world.oracles)
    && (c.mutation.FirstSlice? ==> prev.version == 1)
    && var proposal := Propose(c.mutation, c.world, prev);
       && proposal.Proposed?
       && ValidateRunState(proposal.state) == {}
       && c.state == proposal.state.(version := prev.version + 1)
  }

  ghost predicate Legal(runID: RunID, h: seq<Commit>) {
    && |h| >= 1
    && Founds(runID, h[0])
    && forall i | 1 <= i < |h| :: Succeeds(h[i - 1].state, h[i])
  }

  /** What the engine did for commit `i`. */
  ghost function TraceAt(h: seq<Commit>, i: nat): seq<Obs>
    requires 1 <= i < |h|
  {
    Propose(h[i].mutation, h[i].world, h[i - 1].state).trace
  }

  // ---------------------------------------------------------------- sound states

  /** One assistant message a step; a failed or cancelled run may end before the message of its last step. */
  ghost predicate CountMatches(s: RunState) {
    || AssistantCount(s.messages) == s.step
    || ((s.status == Failed || s.status == Cancelled) && AssistantCount(s.messages) == s.step - 1)
  }

  ghost predicate SoundState(runID: RunID, version: int, s: RunState) {
    && s.id == runID && s.version == version
    && ValidateRunState(s) == {}
    && (Settled(s.status) || (s.status == Pending && s.step == 0))
    && Healthy(s.messages)
    && CountMatches(s)
    && (version == 1 ==> s.status == Pending)
  }

  /** The slice with this trace suspended the run on `call`, and the transcript leads back to it. */
  ghost predicate Blocked(trace: seq<Obs>, s: RunState, call: ToolCall) {
    && s.pendingRequirement.Some?
    && call.id == s.pendingRequirement.value.toolCallID
    && call.name != ""
    && FindCall(s.messages, call.id) == Some(call)
    && |trace| >= 2
    && trace[|trace| - 2].ToolCalled?
    && trace[|trace| - 2].call == call
    && OverrideOf(trace[|trace| - 2].ctx).None?
  }

  ghost predicate ToolSuspended(s: RunState) {
    s.status == Suspended && s.pendingRequirement.Some? && s.pendingRequirement.value.origin == ToolOrigin
  }

  ghost predicate Retraceable(trace: seq<Obs>, s: RunState) {
    ToolSuspended(s) ==> exists call :: Blocked(trace, s, call)
  }

  /** A statement about resuming needs a named blocked call, whatever trace blocked it. */
  ghost predicate Resumable(s: RunState) {
    ToolSuspended(s) ==>
      var found := FindCall(s.messages, s.pendingRequirement.value.toolCallID);
      found.Some? && found.value.name != ""
  }

  lemma RetraceableIsResumable(trace: seq<Obs>, s: RunState)
    requires Retraceable(trace, s)
    ensures Resumable(s)
  {
    if ToolSuspended(s) {
      var call :| Blocked(trace, s, call);
    }
  }

  // ---------------------------------------------------------------- the edge between two commits

  ghost predicate StatusPath(path: seq<RunStatus>, from: RunStatus, to: RunStatus) {
    && |path| >= 1 && path[0] == from && path[|path| - 1] == to
    && forall k | 0 < k < |path| :: AllowedEdge(path[k - 1], path[k])
  }

  /** The transition table leads from one status to the other. */
  ghost predicate Reaches(from: RunStatus, to: RunStatus) {
    exists path :: StatusPath(path, from, to)
  }

  ghost predicate CommitEdge(prev: RunState, next: RunState) {
    && next.id == prev.id
    && next.version == prev.version + 1
    && prev.step <= next.step
    && |prev.messages| <= |next.messages| && next.messages[..|prev.messages|] == prev.messages
    && (|prev.messages| < |next.messages| ==> next.messages[|prev.messages|].role != Tool)
    && Reaches(prev.status, next.status)
    && !IsTerminal(prev.status)
  }

  lemma ReachesVia(from: RunStatus, to: RunStatus)
    requires from == Pending || from == Running || from == Suspended || from == MaxStepsExceeded
    requires Settled(to)
    ensures Reaches(from, to)
  {
    var path := if from == Running then [Running, to] else [from, Running, to];
    assert StatusPath(path, from, to);
  }

  // ---------------------------------------------------------------- the replay target

  /** Messages that are no assistant messages hide no call. */
  lemma {:induction false} FindCallSkips(messages: seq<Message>, more: seq<Message>, id: string)
    requires forall k | 0 <= k < |more| :: more[k].role != Assistant
    ensures FindCall(messages + more, id) == FindCall(messages, id)
  {
    if more == [] {
      assert messages + more == messages;
    } else {
      assert (messages + more)[..|messages + more| - 1] == messages + more[..|more| - 1];
      FindCallSkips(messages, more[..|more| - 1], id);
    }
  }

  lemma {:induction false} FindUniqueCall(calls: seq<ToolCall>, n: int)
    requires WellShaped(calls) && 0 <= n < |calls|
    ensures FindInCalls(calls, calls[n].id) == Some(calls[n])
  {
    if n < |calls| - 1 {
      assert calls[|calls| - 1].id != calls[n].id;
      assert WellShaped(calls[..|calls| - 1]);
      FindUniqueCall(calls[..|calls| - 1], n);
    }
  }

  /** The search for the blocked identifier finds the blocked call, even if older messages reuse it. */
  lemma BlockedIsFound(entry: RunState, m: Slice, call: ToolCall, a: int, n: int)
    requires Blocks(entry, m, call, a, n)
    ensures FindCall(m.state.messages, call.id) == Some(call) && call.name != ""
  {
    var messages := m.state.messages;
    FindUniqueCall(messages[a].toolCalls, n);
    assert messages == messages[..a + 1] + messages[a + 1..];
    FindCallSkips(messages[..a + 1], messages[a + 1..], call.id);
    assert messages[..a + 1][..a] == messages[..a];
  }

  /** A resumed tool suspension never trips the replay contract, and its target is the call the
      transcript leads to. */
  lemma ResumeTarget(prev: RunState, command: Command, ctx: Context)
    requires ValidateRunState(prev) == {} && Resumable(prev)
    requires command.Continue? && AdmitContinue(ctx, prev, command).ToEngine?
    ensures var admission := AdmitContinue(ctx, prev, command);
      var target := ReplayTarget(admission.ctx, Enter(admission.handed, admission.input).state, admission.input);
      && !target.ReplayRefused?
      && (target.Replay? <==> ToolSuspended(prev) && command.resolution.value.outcome == Approved)
      && (target.Replay? ==>
            && FindCall(prev.messages, prev.pendingRequirement.value.toolCallID) == Some(target.call)
            && OverrideOf(admission.ctx)
               == Some(Override(prev.pendingRequirement.value.toolCallID, prev.pendingRequirement.value.fingerprint)))
  {
    var admission := AdmitContinue(ctx, prev, command);
    if ToolSuspended(prev) {
      FindCallSkips(prev.messages, ResolutionMessages(command.resolution), prev.pendingRequirement.value.toolCallID);
    }
  }

  // ---------------------------------------------------------------- one mutation

  /** The admission hands the engine a state and a target the engine laws apply to: the loaded
      run, perhaps with user messages added. */
  ghost predicate Hands(prev: RunState, admission: Admission) {
    && admission.ToEngine?
    && Handed(admission.handed)
    && NamedTarget(admission.ctx, admission.handed, admission.input)
    && admission.handed.id == prev.id
    && admission.handed.version == prev.version
    && admission.handed.step == prev.step
    && AssistantCount(admission.handed.messages) == prev.step
    && |prev.messages| <= |admission.handed.messages|
    && admission.handed.messages[..|prev.messages|] == prev.messages
    && (forall k | |prev.messages| <= k < |admission.handed.messages| :: admission.handed.messages[k].role == User)
    && (admission.input.resolution.Some? ==> prev.status == Suspended)
    && (prev.status == Suspended ==> admission.input.resolution.Some?)
    && !IsTerminal(prev.status)
  }

  lemma ContinueHands(runID: RunID, version: int, ctx: Context, prev: RunState, command: Command)
    requires SoundState(runID, version, prev) && Resumable(prev)
    requires command.Continue? && AdmitContinue(ctx, prev, command).ToEngine?
    ensures Hands(prev, AdmitContinue(ctx, prev, command))
  {
    var admission := AdmitContinue(ctx, prev, command);
    ResumeTarget(prev, command, ctx);
    if ToolSuspended(prev) {
      FindCallSkips(prev.messages, ResolutionMessages(command.resolution), prev.pendingRequirement.value.toolCallID);
    }
    hide Resumable, FindCall, Healthy;
    assert admission.handed.messages == prev.messages;
  }

  lemma FollowUpHands(runID: RunID, version: int, ctx: Context, prev: RunState, command: Command)
    requires SoundState(runID, version, prev)
    requires command.FollowUp? && AdmitPrompt(ctx, prev, command).ToEngine?
    ensures Hands(prev, AdmitPrompt(ctx, prev, command))
  {
    var prompt := TextMessage(User, command.userPrompt);
    AppendSpeech(prev.messages, prompt);
    CountAppend(prev.messages, prompt);
    hide Healthy, AssistantCount;
  }

  lemma AdmittedIsHanded(runID: RunID, version: int, mutation: Mutation, ctx: Context, prev: RunState)
    requires SoundState(runID, version, prev) && Resumable(prev)
    requires mutation.FirstSlice? ==> prev.status == Pending
    requires Admit(mutation, ctx, prev).ToEngine?
    ensures Hands(prev, Admit(mutation, ctx, prev))
  {
    hide Resumable, Healthy, AssistantCount;
    if mutation.Applies? && mutation.command.Continue? {
      ContinueHands(runID, version, ctx, prev, mutation.command);
    } else if mutation.Applies? && mutation.command.FollowUp? {
      FollowUpHands(runID, version, ctx, prev, mutation.command);
    }
  }

  lemma SliceSuspendsRetraceably(entry: RunState, m: Slice, lag: nat, o: Outcome)
    requires Ended(entry, m, lag, o)
    ensures Retraceable(o.trace, o.state)
  {
    hide Healthy, CutOnlyAtEnd, Tracks, FindCall, WellShaped;
    if ToolSuspended(o.state) {
      var call, a, n :| Blocks(entry, m, call, a, n) && call.id == o.state.pendingRequirement.value.toolCallID;
      BlockedIsFound(entry, m, call, a, n);
      assert Blocked(o.trace, o.state, call);
    }
  }

  lemma SliceCounts(handed: RunState, input: Input, m: Slice, lag: nat, o: Outcome)
    requires Ended(Enter(handed, input).state, m, lag, o)
    requires AssistantCount(handed.messages) == handed.step
    ensures CountMatches(o.state)
    ensures Healthy(o.state.messages)
    ensures o.state.step >= handed.step
  {
    hide Healthy, CutOnlyAtEnd, RequestsExact, EventsFit, OverrideOnlyFirst, Mirror, Evidence, AssistantCount,
      ModelCalls;
    CountAppendPlain(handed.messages, ResolutionMessages(input.resolution));
  }

  /** No commit begins with a tool message. */
  lemma SliceStartsWithSpeech(prev: RunState, world: World, admission: Admission)
    requires SpeaksAsAssistant(world.oracles) && Hands(prev, admission)
    ensures var next := Execution(world.oracles, admission.ctx, admission.handed, admission.input).state;
      && (|prev.messages| < |next.messages| ==> next.messages[|prev.messages|].role != Tool)
      && (prev.status == Suspended ==> |prev.messages| < |next.messages|)
  {
    var handed, input := admission.handed, admission.input;
    var m, lag := ExecutionLaw(world.oracles, admission.ctx, handed, input);
    var o := Execution(world.oracles, admission.ctx, handed, input);
    EndedAppends(handed, input, m, lag, o);
    if input.resolution.None? {
      SliceOpens(world.oracles, admission.ctx, handed, input);
    }
    hide Ended, Healthy, Execution, NamedTarget, SpeaksAsAssistant, AssistantCount;
    assert m.state.messages[..|handed.messages|] == handed.messages;
    var entered := Enter(handed, input).state.messages;
    assert m.state.messages[..|entered|] == entered;
    assert |prev.messages| < |entered| ==> entered[|prev.messages|].role == User;
  }

  lemma EnteredSpeech(prev: RunState, admission: Admission)
    requires Hands(prev, admission)
    ensures var entered := Enter(admission.handed, admission.input).state.messages;
      && |prev.messages| <= |entered|
      && (forall k | |prev.messages| <= k < |entered| :: entered[k].role == User)
  {
    hide Handed, NamedTarget, AssistantCount;
  }

  /** Only the turn a slice stopped in may lack answers. */
  lemma SliceCutsAtEnd(prev: RunState, world: World, admission: Admission)
    requires SpeaksAsAssistant(world.oracles) && Hands(prev, admission)
    ensures var next := Execution(world.oracles, admission.ctx, admission.handed, admission.input).state;
      CutOnlyAtEnd(next.messages, |prev.messages|, next.status)
  {
    var handed, input := admission.handed, admission.input;
    var m, lag := ExecutionLaw(world.oracles, admission.ctx, handed, input);
    EnteredSpeech(prev, admission);
    hide Hands, Ended, Execution, SpeaksAsAssistant, CutOnlyAtEnd, Enter;
    var o := Execution(world.oracles, admission.ctx, handed, input);
    EndedAppends(handed, input, m, lag, o);
    CutsAtEndOf(handed, input, m, lag, o);
    var entered := Enter(handed, input).state.messages;
    assert forall k | 0 <= k < |entered| :: m.state.messages[..|entered|][k] == m.state.messages[k];
    CutsFromEarlier(m.state.messages, |prev.messages|, |entered|, o.state.status);
  }

  lemma CutsFromEarlier(messages: seq<Message>, from: int, later: int, status: RunStatus)
    requires CutOnlyAtEnd(messages, later, status) && later <= |messages|
    requires forall k | from <= k < later && 0 <= k :: messages[k].role == User
    ensures CutOnlyAtEnd(messages, from, status)
  {
  }

  lemma CutsAtEndOf(handed: RunState, input: Input, m: Slice, lag: nat, o: Outcome)
    requires Ended(Enter(handed, input).state, m, lag, o)
    ensures CutOnlyAtEnd(o.state.messages, |Enter(handed, input).state.messages|, o.state.status)
  {
  }

  lemma SoundVersion(runID: RunID, version: int, s: RunState)
    requires SoundState(runID, version, s)
    ensures s.id == runID && s.version == version && (version == 1 ==> s.status == Pending)
    ensures ValidateRunState(s) == {}
  {
  }

  lemma SoundStatus(runID: RunID, version: int, s: RunState)
    requires SoundState(runID, version, s)
    ensures s.status == Pending || Settled(s.status)
  {
  }

  lemma SoundAfterSave(runID: RunID, version: int, s: RunState)
    requires s.id == runID && s.version == version >= 1
    requires ValidateRunState(s) == {} && Settled(s.status) && Healthy(s.messages) && CountMatches(s)
    ensures SoundState(runID, version + 1, s.(version := version + 1))
  {
    hide Healthy, AssistantCount;
  }

  /** A slice turns a sound state into a sound state, over an edge every commit may take. */
  lemma EngineCommit(runID: RunID, version: int, prev: RunState, world: World, admission: Admission)
    requires SoundState(runID, version, prev) && version >= 1
    requires SpeaksAsAssistant(world.oracles)
    requires Hands(prev, admission)
    ensures var o := Execution(world.oracles, admission.ctx, admission.handed, admission.input);
      && ValidateEngineOutput(admission.handed, o.state) == {}
      && ValidateRunState(o.state) == {}
      && o.state.version == version
      && SoundState(runID, version + 1, o.state.(version := version + 1))
      && Settled(o.state.status)
      && Retraceable(o.trace, o.state)
      && CommitEdge(prev, o.state.(version := version + 1))
      && CutOnlyAtEnd(o.state.messages, |prev.messages|, o.state.status)
      && (prev.status == Suspended ==> |prev.messages| < |o.state.messages|)
  {
    hide Ended, CutOnlyAtEnd, Healthy, Retraceable, Reaches, AssistantCount, NamedTarget, Execution,
      ValidateEngineOutput, Handed, SpeaksAsAssistant, ValidateRunState, CountMatches, Enter, SoundState;
    SoundVersion(runID, version, prev);
    SliceStartsWithSpeech(prev, world, admission);
    SliceCutsAtEnd(prev, world, admission);
    var handed, input := admission.handed, admission.input;
    var o := Execution(world.oracles, admission.ctx, handed, input);
    var m, lag := ExecutionLaw(world.oracles, admission.ctx, handed, input);
    ContractHolds(handed, input, m, lag, o);
    EndedAppends(handed, input, m, lag, o);
    SliceSuspendsRetraceably(Enter(handed, input).state, m, lag, o);
    SliceCounts(handed, input, m, lag, o);
    assert prev.status == Pending || Settled(prev.status) by { SoundStatus(runID, version, prev); }
    ReachesVia(prev.status, o.state.status);
    SoundAfterSave(runID, version, o.state);
    assert o.state.messages[..|prev.messages|] == handed.messages[..|prev.messages|];
  }

  lemma StoreCommit(runID: RunID, version: int, prev: RunState, ctx: Context, mutation: Mutation)
    requires SoundState(runID, version, prev) && version >= 1
    requires Admit(mutation, ctx, prev).ToStore?
    ensures StoredSoundly(runID, version, prev, Admit(mutation, ctx, prev).state)
  {
    hide StoredSoundly, SoundState, AdmitContinue;
    if mutation.command.Steer? {
      SteerCommit(runID, version, prev, mutation.command);
    } else {
      CancelCommit(runID, version, prev);
    }
  }

  /** What a command that runs no engine saves over `prev`. */
  ghost predicate StoredSoundly(runID: RunID, version: int, prev: RunState, next: RunState) {
    && ValidateRunState(next) == {}
    && next.version == version
    && SoundState(runID, version + 1, next.(version := version + 1))
    && next.status != Suspended
    && CommitEdge(prev, next.(version := version + 1))
    && (forall k | |prev.messages| <= k < |next.messages| :: next.messages[k].role == User)
    && (prev.status == Suspended ==> next.status == Cancelled)
  }

  lemma SteerCommit(runID: RunID, version: int, prev: RunState, command: Command)
    requires SoundState(runID, version, prev) && version >= 1 && command.Steer?
    requires AdmitPrompt(Background, prev, command).ToStore?
    ensures StoredSoundly(runID, version, prev, AdmitPrompt(Background, prev, command).state)
  {
    var prompt := TextMessage(User, command.instruction);
    AppendSpeech(prev.messages, prompt);
    CountAppend(prev.messages, prompt);
    assert StatusPath([prev.status], prev.status, prev.status);
    hide Healthy, AssistantCount, Reaches;
  }

  lemma CancelCommit(runID: RunID, version: int, prev: RunState)
    requires SoundState(runID, version, prev) && version >= 1
    requires AdmitCancel(prev).ToStore?
    ensures StoredSoundly(runID, version, prev, AdmitCancel(prev).state)
  {
    assert StatusPath([prev.status, Cancelled], prev.status, Cancelled);
    hide Healthy, AssistantCount, Reaches;
  }

  /** What is true of the step from one commit to the next. */
  ghost predicate SoundStep(runID: RunID, version: int, prev: RunState, trace: seq<Obs>, next: RunState) {
    && SoundState(runID, version + 1, next)
    && CommitEdge(prev, next)
    && Retraceable(trace, next)
    && CutOnlyAtEnd(next.messages, |prev.messages|, next.status)
    && (prev.status == Suspended ==> |prev.messages| < |next.messages| || next.status == Cancelled)
  }

  lemma CommitLaw(runID: RunID, version: int, prev: RunState, c: Commit)
    requires SoundState(runID, version, prev) && version >= 1 && Resumable(prev)
    requires Succeeds(prev, c)
    ensures SoundStep(runID, version, prev, Propose(c.mutation, c.world, prev).trace, c.state)
  {
    hide SoundState, Resumable, CommitEdge, Retraceable, CutOnlyAtEnd, Execution, ValidateEngineOutput,
      SpeaksAsAssistant, Hands, AdmitContinue, AdmitCancel, AdmitPrompt;
    var admission := Admit(c.mutation, c.world.ctx, prev);
    assert version == prev.version && (c.mutation.FirstSlice? ==> prev.status == Pending) by {
      FirstSliceIsPending(runID, version, prev, c);
    }
    if admission.ToEngine? {
      AdmittedIsHanded(runID, version, c.mutation, c.world.ctx, prev);
      EngineCommit(runID, version, prev, c.world, admission);
      RetraceAnyVersion(Propose(c.mutation, c.world, prev).trace, Propose(c.mutation, c.world, prev).state,
        version + 1);
    } else {
      StoreCommit(runID, version, prev, c.world.ctx, c.mutation);
      NoCutsWithoutSlice(prev.messages, c.state.messages, c.state.status);
      NotSuspendedRetraces(c.state);
      EdgeGrows(prev, c.state);
    }
  }

  lemma EdgeGrows(prev: RunState, next: RunState)
    requires CommitEdge(prev, next)
    ensures |prev.messages| <= |next.messages| && next.messages[..|prev.messages|] == prev.messages
  {
  }

  lemma FirstSliceIsPending(runID: RunID, version: int, prev: RunState, c: Commit)
    requires SoundState(runID, version, prev) && Succeeds(prev, c)
    ensures version == prev.version && (c.mutation.FirstSlice? ==> prev.status == Pending)
  {
  }

  lemma RetraceAnyVersion(trace: seq<Obs>, s: RunState, version: int)
    requires Retraceable(trace, s)
    ensures Retraceable(trace, s.(version := version))
  {
    if ToolSuspended(s) {
      var call :| Blocked(trace, s, call);
      assert Blocked(trace, s.(version := version), call);
    }
  }

  lemma NotSuspendedRetraces(s: RunState)
    requires s.status != Suspended
    ensures Retraceable([], s)
  {
  }

  lemma NoCutsWithoutSlice(before: seq<Message>, after: seq<Message>, status: RunStatus)
    requires forall k | |before| <= k < |after| :: after[k].role == User
    ensures CutOnlyAtEnd(after, |before|, status)
  {
  }
}
