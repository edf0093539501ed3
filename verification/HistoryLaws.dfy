/** What every legal history of a run guarantees. */
module HistoryLaws {
  import opened Domain
  import opened ReplayContext
  import opened ReactLoop
  import opened Transcript
  import opened EngineLaws
  import opened EngineGrowth
  import opened Commands
  import opened EngineContract
  import opened History

  /** Every commit of a legal history is sound, and so is every step between two commits. */
  lemma {:induction false} LegalSound(runID: RunID, h: seq<Commit>, i: nat)
    requires Legal(runID, h) && i < |h|
    ensures SoundState(runID, i + 1, h[i].state)
    ensures Resumable(h[i].state)
    ensures i >= 1 ==> SoundStep(runID, i, h[i - 1].state, TraceAt(h, i), h[i].state)
  {
    if i == 0 {
      CreatedSound(runID, h[0]);
    } else {
      LegalSound(runID, h, i - 1);
      assert Succeeds(h[i - 1].state, h[i]);
      CommitLaw(runID, i, h[i - 1].state, h[i]);
      RetraceableIsResumable(TraceAt(h, i), h[i].state);
    }
  }

  lemma CreatedSound(runID: RunID, c: Commit)
    requires Founds(runID, c)
    ensures SoundState(runID, 1, c.state)
    ensures Resumable(c.state)
  {
    hide Healthy, AssistantCount, InitialState;
    InitialPrompts(c.mutation.input, runID);
  }

  lemma InitialPrompts(input: RunInput, runID: RunID)
    ensures var s := InitialState(input, runID);
      && s.id == runID && s.step == 0 && s.status == Pending && s.pendingRequirement.None?
      && Healthy(s.messages) && AssistantCount(s.messages) == 0
      && forall k | 0 <= k < |s.messages| :: s.messages[k].role != Assistant
  {
    var messages := InitialState(input, runID).messages;
    assert forall k | 0 <= k < |messages| :: messages[k].role == System || messages[k].role == User;
    assert [] + messages == messages;
    CountAppendPlain([], messages);
    PromptsAreHealthy(messages);
    hide Healthy, AssistantCount;
  }

  lemma PromptsAreHealthy(messages: seq<Message>)
    requires forall k | 0 <= k < |messages| :: messages[k].role == System || messages[k].role == User
    ensures Healthy(messages)
  {
  }

  // ---------------------------------------------------------------- no lost updates

  lemma ReachesTrans(a: RunStatus, b: RunStatus, c: RunStatus)
    requires Reaches(a, b) && Reaches(b, c)
    ensures Reaches(a, c)
  {
    var p :| StatusPath(p, a, b);
    var q :| StatusPath(q, b, c);
    var path := p + q[1..];
    assert forall k | 0 <= k < |q| :: path[|p| - 1 + k] == q[k];
    assert StatusPath(path, a, c);
  }

  /** Version i + 1 is the i-th commit, and everything later extends it: the transcript grows at
      its end, the step does not decrease, the status moves along the transition table, and a
      terminal state is the last one. */
  lemma {:induction false} NoLostUpdates(runID: RunID, h: seq<Commit>, i: nat, j: nat)
    requires Legal(runID, h) && i <= j < |h|
    ensures h[i].state.id == runID && h[i].state.version == i + 1
    ensures h[i].state.messages <= h[j].state.messages
    ensures h[i].state.step <= h[j].state.step
    ensures Reaches(h[i].state.status, h[j].state.status)
    ensures IsTerminal(h[i].state.status) ==> i == |h| - 1
    decreases j - i
  {
    LegalSound(runID, h, i);
    if i + 1 < |h| {
      LegalSound(runID, h, i + 1);
    }
    if i == j {
      assert StatusPath([h[i].state.status], h[i].state.status, h[i].state.status);
    } else {
      NoLostUpdates(runID, h, i + 1, j);
      ReachesTrans(h[i].state.status, h[i + 1].state.status, h[j].state.status);
    }
  }

  // ---------------------------------------------------------------- approval replays the blocked call

  ghost predicate ApprovingContinue(mutation: Mutation) {
    && mutation.Applies? && mutation.command.Continue?
    && mutation.command.resolution.Some? && mutation.command.resolution.value.outcome == Approved
  }

  lemma SecondCommitOn(runID: RunID, h: seq<Commit>, i: nat)
    requires Legal(runID, h) && i < |h| && ToolSuspended(h[i].state)
    ensures i >= 1 && ValidateRunState(h[i].state) == {}
    ensures Retraceable(TraceAt(h, i), h[i].state)
  {
    LegalSound(runID, h, i);
  }

  lemma CommitSucceeds(runID: RunID, h: seq<Commit>, i: nat)
    requires Legal(runID, h) && 1 <= i < |h|
    ensures Succeeds(h[i - 1].state, h[i])
  {
  }

  lemma BlockedCall(trace: seq<Obs>, s: RunState) returns (call: ToolCall)
    requires Retraceable(trace, s) && ToolSuspended(s)
    ensures call.id == s.pendingRequirement.value.toolCallID
    ensures FindCall(s.messages, call.id) == Some(call)
    ensures EndsBlockedOn(trace, call)
  {
    call :| Blocked(trace, s, call);
  }

  /** The slice with this trace made `call` last, without override, and was suspended by it. */
  ghost predicate EndsBlockedOn(trace: seq<Obs>, call: ToolCall) {
    && |trace| >= 2 && trace[|trace| - 2].ToolCalled?
    && trace[|trace| - 2].call == call
    && OverrideOf(trace[|trace| - 2].ctx).None?
  }

  /** The slice with this trace made `call` first, under the override of the requirement, and ran
      everything else without override. */
  ghost predicate StartsReplaying(trace: seq<Obs>, call: ToolCall, requirement: PendingRequirement) {
    && |trace| >= 1 && trace[0].ToolCalled? && trace[0].call == call
    && OverrideOf(trace[0].ctx) == Some(Override(requirement.toolCallID, requirement.fingerprint))
    && (forall k | 0 < k < |trace| && trace[k].ToolCalled? :: OverrideOf(trace[k].ctx).None?)
  }

  /** Approving a tool suspension runs exactly the call that was blocked. */
  lemma ApprovalReplaysBlockedCall(runID: RunID, h: seq<Commit>, i: nat) returns (call: ToolCall)
    requires Legal(runID, h) && 1 <= i < |h|
    requires ToolSuspended(h[i - 1].state) && ApprovingContinue(h[i].mutation)
    ensures i >= 2 && EndsBlockedOn(TraceAt(h, i - 1), call)
    ensures StartsReplaying(TraceAt(h, i), call, h[i - 1].state.pendingRequirement.value)
    ensures call.id == h[i - 1].state.pendingRequirement.value.toolCallID
  {
    hide Legal, SoundState, SoundStep, Succeeds, Resumable, FindCall, ValidateRunState, Propose, Retraceable,
      Blocked, OverrideOf, EndsBlockedOn, StartsReplaying, ApprovingContinue;
    var prev := h[i - 1].state;
    LegalSound(runID, h, i - 1);
    SecondCommitOn(runID, h, i - 1);
    call := BlockedCall(TraceAt(h, i - 1), prev);
    CommitSucceeds(runID, h, i);
    ResumedTrace(runID, i, prev, h[i], call);
  }

  /** The slice of an approving Continue starts with the call the requirement leads to. */
  lemma ResumedTrace(runID: RunID, version: int, prev: RunState, c: Commit, call: ToolCall)
    requires SoundState(runID, version, prev) && Resumable(prev) && ToolSuspended(prev)
    requires Succeeds(prev, c) && ApprovingContinue(c.mutation)
    requires FindCall(prev.messages, prev.pendingRequirement.value.toolCallID) == Some(call)
    ensures StartsReplaying(Propose(c.mutation, c.world, prev).trace, call, prev.pendingRequirement.value)
  {
    var admission := Admit(c.mutation, c.world.ctx, prev);
    assert ValidateRunState(prev) == {};
    assert admission.ToEngine?;
    ResumeTarget(prev, c.mutation.command, c.world.ctx);
    AdmittedIsHanded(runID, version, c.mutation, c.world.ctx, prev);
    hide SoundState, Resumable, Execution, ReplayTarget, FindCall, ValidateEngineOutput, ValidateRunState, Handed,
      AssistantCount, NamedTarget;
    OnlyReplaySeesOverride(c.world.oracles, admission.ctx, admission.handed, admission.input);
  }

  /** Whatever resolution a caller offers to a committed state, no error branch of the replay
      contract can fire: either the command is refused, or the engine knows what to replay. */
  lemma ReplayContractNeverRefuses(runID: RunID, h: seq<Commit>, i: nat, command: Command, ctx: Context)
    requires Legal(runID, h) && i < |h| && command.Continue?
    ensures var admission := AdmitContinue(ctx, h[i].state, command);
      admission.ToEngine? ==>
        !ReplayTarget(admission.ctx, Enter(admission.handed, admission.input).state, admission.input).ReplayRefused?
  {
    LegalSound(runID, h, i);
    if AdmitContinue(ctx, h[i].state, command).ToEngine? {
      ResumeTarget(h[i].state, command, ctx);
    }
  }

  // ---------------------------------------------------------------- the grammar of transcripts

  /** Some commit up to `j` ended its transcript at `end` with a status that may cut a turn. */
  ghost predicate EndsSlice(h: seq<Commit>, j: int, end: int) {
    exists w | 0 <= w <= j && w < |h| :: MayCut(h[w].state.status) && |h[w].state.messages| == end
  }

  /** The assistant message `a` of commit `j` has its calls answered in order, all of them or as
      far as a slice got that was suspended, failed or cancelled. */
  ghost predicate TurnSettled(h: seq<Commit>, j: nat, a: int)
    requires j < |h|
  {
    || Answered(h[j].state.messages, a)
    || exists end :: CutAt(h[j].state.messages, a, end) && EndsSlice(h, j, end)
  }

  /** In every committed transcript the tool messages after an assistant message answer its calls in
      order, and they stop short only where a slice suspended, failed or was cancelled. */
  lemma {:induction false} TurnsStopOnlyWhereSlicesEnd(runID: RunID, h: seq<Commit>, j: nat, a: int)
    requires Legal(runID, h) && j < |h|
    requires 0 <= a < |h[j].state.messages| && h[j].state.messages[a].role == Assistant
    ensures InOrder(h[j].state.messages)
    ensures TurnSettled(h, j, a)
  {
    hide Legal, InOrder, TurnSettled, CutOnlyAtEnd;
    CommitTurns(runID, h, j);
    if j == 0 {
      CreatedWithoutAssistant(runID, h, a);
    } else if a >= |h[j - 1].state.messages| {
      NewTurnSettled(h, j, a);
    } else {
      TurnsStopOnlyWhereSlicesEnd(runID, h, j - 1, a);
      OldTurnSettled(h, j, a);
    }
  }

  lemma NewTurnSettled(h: seq<Commit>, j: nat, a: int)
    requires 1 <= j < |h| && |h[j - 1].state.messages| <= a < |h[j].state.messages|
    requires h[j].state.messages[a].role == Assistant
    requires CutOnlyAtEnd(h[j].state.messages, |h[j - 1].state.messages|, h[j].state.status)
    ensures TurnSettled(h, j, a)
  {
    hide AnsweredUpTo;
    if !Answered(h[j].state.messages, a) {
      assert EndsSlice(h, j, |h[j].state.messages|);
      assert CutAt(h[j].state.messages, a, |h[j].state.messages|);
    }
  }

  lemma OldTurnSettled(h: seq<Commit>, j: nat, a: int)
    requires 1 <= j < |h| && TurnSettled(h, j - 1, a)
    requires h[j - 1].state.messages <= h[j].state.messages
    requires |h[j - 1].state.messages| < |h[j].state.messages| ==>
      h[j].state.messages[|h[j - 1].state.messages|].role != Tool
    ensures TurnSettled(h, j, a)
  {
    hide AnsweredUpTo, EndsSlice;
    var before, messages := h[j - 1].state.messages, h[j].state.messages;
    if Answered(before, a) {
      AnsweredPersists(before, messages, a, |before[a].toolCalls|);
    } else {
      var end :| CutAt(before, a, end) && EndsSlice(h, j - 1, end);
      CutPersists(before, messages, a, end);
      EndsSliceLater(h, j - 1, end);
    }
  }

  lemma CommitTurns(runID: RunID, h: seq<Commit>, j: nat)
    requires Legal(runID, h) && j < |h|
    ensures InOrder(h[j].state.messages)
    ensures j >= 1 ==>
      var before, messages := h[j - 1].state.messages, h[j].state.messages;
      && before <= messages
      && (|before| < |messages| ==> messages[|before|].role != Tool)
      && CutOnlyAtEnd(messages, |before|, h[j].state.status)
  {
    LegalSound(runID, h, j);
    hide Legal, InOrder, Declared, CutOnlyAtEnd, Resumable, Reaches, Retraceable, CountMatches;
  }

  lemma CreatedWithoutAssistant(runID: RunID, h: seq<Commit>, a: int)
    requires Legal(runID, h) && 0 <= a < |h[0].state.messages|
    ensures h[0].state.messages[a].role != Assistant
  {
    InitialPrompts(h[0].mutation.input, runID);
  }

  lemma CutPersists(before: seq<Message>, messages: seq<Message>, a: int, end: int)
    requires before <= messages && CutAt(before, a, end)
    requires |before| < |messages| ==> messages[|before|].role != Tool
    ensures CutAt(messages, a, end)
  {
  }

  lemma AnsweredPersists(before: seq<Message>, messages: seq<Message>, a: int, n: int)
    requires before <= messages && AnsweredUpTo(before, a, n)
    ensures AnsweredUpTo(messages, a, n)
  {
  }

  lemma EndsSliceLater(h: seq<Commit>, j: int, end: int)
    requires EndsSlice(h, j, end) && 0 <= j
    ensures EndsSlice(h, j + 1, end)
  {
  }

  /** One assistant message a step, and every tool message names a call declared before it. */
  lemma TranscriptsCountAndDeclare(runID: RunID, h: seq<Commit>, j: nat)
    requires Legal(runID, h) && j < |h|
    ensures Declared(h[j].state.messages)
    ensures CountMatches(h[j].state)
  {
    LegalSound(runID, h, j);
  }

  // ---------------------------------------------------------------- proposals over committed states

  /** A command run on a committed state is refused at admission, or proposes a valid state of the
      same run and version. The engine's output is never rejected. */
  lemma ProposalLaw(runID: RunID, h: seq<Commit>, version: int, mutation: Mutation, world: World)
    requires Legal(runID, h) && 1 <= version <= |h|
    requires SpeaksAsAssistant(world.oracles) && !mutation.Creates?
    requires mutation.FirstSlice? ==> version == 1
    ensures var base := h[version - 1].state;
      var proposal := Propose(mutation, world, base);
      && base.version == version
      && (proposal.Proposed? <==> !Admit(mutation, world.ctx, base).Refused?)
      && (proposal.Proposed? ==>
            && proposal.state.id == runID && proposal.state.version == version
            && ValidateRunState(proposal.state) == {}
            && Succeeds(base, Commit(mutation, world, proposal.state.(version := version + 1))))
  {
    hide Legal, Resumable, SoundStep, SoundState, Execution, ValidateEngineOutput, Retraceable, CommitEdge,
      CutOnlyAtEnd, Hands, Admit;
    var base := h[version - 1].state;
    LegalSound(runID, h, version - 1);
    SoundVersion(runID, version, base);
    var admission := Admit(mutation, world.ctx, base);
    match admission {
      case Refused(_, _) =>
      case ToStore(_) =>
        StoreCommit(runID, version, base, world.ctx, mutation);
        SoundID(runID, version + 1, Admit(mutation, world.ctx, base).state.(version := version + 1));
      case ToEngine(_, _, _) =>
        AdmittedIsHanded(runID, version, mutation, world.ctx, base);
        EngineCommit(runID, version, base, world, admission);
        var o := Execution(world.oracles, admission.ctx, admission.handed, admission.input);
        SoundID(runID, version + 1, o.state.(version := version + 1));
    }
  }

  /** What a command publishes while it runs on a committed state is valid and belongs to its run. */
  lemma ProposalEvents(runID: RunID, h: seq<Commit>, version: int, mutation: Mutation, world: World)
    requires Legal(runID, h) && 1 <= version <= |h|
    requires SpeaksAsAssistant(world.oracles) && !mutation.Creates?
    requires mutation.FirstSlice? ==> version == 1
    ensures var trace := Propose(mutation, world, h[version - 1].state).trace;
      forall k | 0 <= k < |trace| && trace[k].Published? ::
        ValidateEvent(trace[k].event) == {} && trace[k].event.runID == runID && OfSlice(trace[k].event.kind)
  {
    hide Legal, Resumable, SoundStep, SoundState, Execution, ValidateEngineOutput, Retraceable, CommitEdge, Handed,
      NamedTarget, Admit, AssistantCount, ValidateEvent;
    var base := h[version - 1].state;
    LegalSound(runID, h, version - 1);
    SoundVersion(runID, version, base);
    var admission := Admit(mutation, world.ctx, base);
    if admission.ToEngine? {
      AdmittedIsHanded(runID, version, mutation, world.ctx, base);
      EventsMirrorTranscript(world.oracles, admission.ctx, admission.handed, admission.input);
    }
  }

  lemma LegalNonEmpty(runID: RunID, h: seq<Commit>)
    requires Legal(runID, h)
    ensures |h| >= 1
  {
  }

  lemma SoundID(runID: RunID, version: int, s: RunState)
    requires SoundState(runID, version, s)
    ensures s.id == runID
  {
  }

  lemma LegalExtends(runID: RunID, h: seq<Commit>, c: Commit)
    requires Legal(runID, h) && Succeeds(h[|h| - 1].state, c)
    ensures Legal(runID, h + [c])
  {
    hide Succeeds, Founds;
    var all := h + [c];
    forall i | 1 <= i < |all|
      ensures Succeeds(all[i - 1].state, all[i])
    {
      if i < |h| {
        assert Succeeds(h[i - 1].state, h[i]);
      }
    }
  }
}
