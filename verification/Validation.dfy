/** What the checks of the runtime mean, said without their branches. */
module Validation {
  import opened Domain
  import opened ReplayContext
  import opened ReactLoop
  import opened Commands
  import opened History
  import Store
  import opened Text

  /** A valid event carries exactly the payload of its kind. */
  lemma ValidEventMeans(event: Event)
    ensures ValidateEvent(event) == {} <==>
      && event.runID != "" && event.step >= 0 && !event.kind.OtherType?
      && (event.commandKind.Some? <==> event.kind == CommandApplied)
      && (event.message.Some? <==> event.kind == AssistantMessage)
      && (event.toolResult.Some? <==> event.kind == ToolObservation)
      && (event.toolResult.Some? ==> event.toolResult.value.callID != "" && event.toolResult.value.name != "")
  {
  }

  /** A requirement is complete, and one a tool made names its call and its fingerprint. */
  ghost predicate Complete(r: PendingRequirement) {
    && r.id != "" && !r.kind.OtherKind? && !r.origin.OtherOrigin?
    && (r.origin == ToolOrigin ==> r.toolCallID != "" && r.fingerprint != "")
  }

  /** A valid state is identified and pending on a complete requirement exactly when it is suspended. */
  lemma ValidStateMeans(state: RunState)
    ensures ValidateRunState(state) == {} <==>
      && state.id != "" && state.step >= 0 && state.version >= 0 && KnownStatus(state.status)
      && (state.pendingRequirement.Some? <==> state.status == Suspended)
      && (state.pendingRequirement.Some? ==> Complete(state.pendingRequirement.value))
  {
  }

  predicate Answers(kind: RequirementKind, outcome: ResolutionOutcome) {
    match kind
    case Approval => outcome == Approved || outcome == Rejected
    case UserInput => outcome == Provided
    case ExternalExecution => outcome == Fulfilled
    case _ => false
  }

  /** A resolution is accepted for a suspended run exactly when it answers the pending requirement in
      kind; any other run accepts none. */
  lemma AcceptedResolutionMeans(state: RunState, resolution: Option<Resolution>)
    requires ValidateRunState(state) == {}
    ensures ValidateContinueResolution(state, resolution) == {} <==>
      if state.status == Suspended then
        && resolution.Some?
        && resolution.value.requirementID == state.pendingRequirement.value.id
        && resolution.value.kind == state.pendingRequirement.value.kind
        && Answers(resolution.value.kind, resolution.value.outcome)
      else resolution.None?
  {
  }

  function ValueText(value: string): string {
    if value != "" then " value=" + Quoted(value) else ""
  }

  lemma ResolutionText(r: Resolution)
    ensures ResolutionMessages(Some(r))
         == [TextMessage(User, "[resolution] requirement_id=" + (Quoted(r.requirementID) + (" kind=" + (KindText(r.kind)
              + (" outcome=" + (OutcomeText(r.outcome) + ValueText(r.value)))))))]
  {
    Regroup("[resolution] requirement_id=", Quoted(r.requirementID), " kind=", KindText(r.kind), " outcome=",
      OutcomeText(r.outcome), ValueText(r.value));
  }

  /** What stands for one character cannot be mistaken for what stands for another. */
  lemma EscapedLeads(c: char, u: string, d: char, v: string)
    requires Escaped(c) + u == Escaped(d) + v
    ensures c == d && u == v
  {
    assert (Escaped(c) + u)[0] == Escaped(c)[0] && (Escaped(d) + v)[0] == Escaped(d)[0];
    assert |Escaped(c)| == 2 ==> (Escaped(c) + u)[1] == Escaped(c)[1];
    assert |Escaped(d)| == 2 ==> (Escaped(d) + v)[1] == Escaped(d)[1];
    assert c == d;
    DropPrefix(Escaped(c), u, v);
  }

  /** An escaped text ends at the first quote that is not escaped. */
  lemma {:induction false} EscapedTextLeads(x: string, u: string, y: string, v: string)
    requires EscapedText(x) + ("\"" + u) == EscapedText(y) + ("\"" + v)
    ensures x == y && u == v
  {
    hide Escaped;
    if x == "" {
      QuoteFirst(y, v);
      assert u == ("\"" + u)[1..] && v == ("\"" + v)[1..];
    } else if y == "" {
      QuoteFirst(x, u);
    } else {
      var r, q := EscapedText(x[1..]) + ("\"" + u), EscapedText(y[1..]) + ("\"" + v);
      assert EscapedText(x) + ("\"" + u) == Escaped(x[0]) + r;
      assert EscapedText(y) + ("\"" + v) == Escaped(y[0]) + q;
      EscapedLeads(x[0], r, y[0], q);
      EscapedTextLeads(x[1..], u, y[1..], v);
      assert x == [x[0]] + x[1..] && y == [y[0]] + y[1..];
    }
  }

  lemma QuoteFirst(x: string, u: string)
    ensures x != "" ==> (EscapedText(x) + ("\"" + u))[0] != '"'
    ensures x == "" ==> EscapedText(x) + ("\"" + u) == "\"" + u
  {
  }

  lemma QuotedForm(x: string, u: string)
    ensures Quoted(x) + u == "\"" + (EscapedText(x) + ("\"" + u))
  {
    hide EscapedText;
    var e := EscapedText(x);
    assert "\"" + e + "\"" + u == "\"" + e + ("\"" + u);
    assert "\"" + e + ("\"" + u) == "\"" + (e + ("\"" + u));
  }

  lemma QuotedLeads(x: string, u: string, y: string, v: string)
    requires Quoted(x) + u == Quoted(y) + v
    ensures x == y && u == v
  {
    hide EscapedText, Quoted;
    QuotedForm(x, u);
    QuotedForm(y, v);
    DropPrefix("\"", EscapedText(x) + ("\"" + u), EscapedText(y) + ("\"" + v));
    EscapedTextLeads(x, u, y, v);
  }

  /** The message a model reads about a resolution says everything about it: it tells apart any two
      resolutions that are valid. */
  lemma ResolutionTextIff(r: Resolution, q: Resolution)
    requires ValidateResolution(Some(r)) == {} && ValidateResolution(Some(q)) == {}
    ensures ResolutionMessages(Some(r)) == ResolutionMessages(Some(q)) <==> r == q
  {
    if ResolutionMessages(Some(r)) == ResolutionMessages(Some(q)) {
      ResolutionText(r);
      ResolutionText(q);
      hide ResolutionMessages;
      var rv, qv := ValueText(r.value), ValueText(q.value);
      var ro, qo := OutcomeText(r.outcome) + rv, OutcomeText(q.outcome) + qv;
      var rk, qk := KindText(r.kind) + (" outcome=" + ro), KindText(q.kind) + (" outcome=" + qo);
      var rest, quest := " kind=" + rk, " kind=" + qk;
      DropPrefix("[resolution] requirement_id=", Quoted(r.requirementID) + rest, Quoted(q.requirementID) + quest);
      QuotedLeads(r.requirementID, rest, q.requirementID, quest);
      DropPrefix(" kind=", rk, qk);
      KindLeads(r.kind, " outcome=" + ro, q.kind, " outcome=" + qo);
      DropPrefix(" outcome=", ro, qo);
      OutcomeLeads(r.outcome, rv, q.outcome, qv);
      ValueTells(r.value, q.value);
    }
  }

  lemma KindLeads(k: RequirementKind, u: string, l: RequirementKind, v: string)
    requires !k.OtherKind? && !l.OtherKind? && KindText(k) + u == KindText(l) + v
    ensures k == l && u == v
  {
    assert (KindText(k) + u)[0] == KindText(k)[0] && (KindText(l) + v)[0] == KindText(l)[0];
    assert k == l;
    DropPrefix(KindText(k), u, v);
  }

  lemma OutcomeLeads(o: ResolutionOutcome, u: string, p: ResolutionOutcome, v: string)
    requires !o.OtherOutcome? && !p.OtherOutcome? && OutcomeText(o) + u == OutcomeText(p) + v
    ensures o == p && u == v
  {
    assert (OutcomeText(o) + u)[0] == OutcomeText(o)[0] && (OutcomeText(p) + v)[0] == OutcomeText(p)[0];
    assert o == p;
    DropPrefix(OutcomeText(o), u, v);
  }

  lemma ValueTells(u: string, v: string)
    requires ValueText(u) == ValueText(v)
    ensures u == v
  {
    if u != "" && v != "" {
      DropPrefix(" value=", Quoted(u), Quoted(v));
      assert Quoted(u) + "" == Quoted(v) + "";
      QuotedLeads(u, "", v, "");
    }
  }

  /** The override of a resumption exists exactly for approved tool requirements, and names their call. */
  lemma OverrideMeans(state: RunState, resolution: Option<Resolution>, ctx: Context)
    requires ValidateRunState(state) == {} && state.status == Suspended
    requires ValidateContinueResolution(state, resolution) == {}
    ensures var override := ApprovedOverride(resolution, state.pendingRequirement);
      && (override.Some? <==> resolution.value.outcome == Approved && ToolSuspended(state))
      && (override.Some? ==>
            OverrideOf(WithOverride(ctx, override.value))
            == Some(Override(state.pendingRequirement.value.toolCallID, state.pendingRequirement.value.fingerprint)))
      && (forall other :: OverrideOf(WithoutOverride(WithOverride(ctx, other))) == None)
      && (forall other :: OverrideOf(WithOverride(WithoutOverride(ctx), other)) == Some(other))
  {
  }

  /** A created run says what it was asked to, the system's part first, and leaves out what is empty. */
  lemma CreatedTranscriptMeans(input: RunInput, runID: RunID)
    ensures var messages := InitialState(input, runID).messages;
      && |messages| <= 2
      && (forall k | 0 <= k < |messages| ::
            messages[k] == TextMessage(System, input.systemPrompt)
              || messages[k] == TextMessage(User, input.userPrompt))
      && (input.systemPrompt != "" <==> messages != [] && messages[0].role == System)
      && (input.userPrompt != "" <==> messages != [] && messages[|messages| - 1].role == User)
      && (|messages| == 2 ==> messages[0].role != messages[1].role)
  {
  }

  /** An assistant message that `next` has added asks for the requirement. */
  ghost predicate AskedByModel(prev: RunState, next: RunState, r: PendingRequirement) {
    exists k | |prev.messages| <= k < |next.messages| ::
      var message := next.messages[k];
      && message.role == Assistant && message.requirement.Some?
      && message.requirement.value.id == r.id
      && message.requirement.value.kind == r.kind
      && message.requirement.value.origin == r.origin
  }

  /** A tool message that `next` has added observes the call of the requirement, which some message declares. */
  ghost predicate AskedByTool(prev: RunState, next: RunState, r: PendingRequirement) {
    && r.toolCallID != ""
    && (exists k | |prev.messages| <= k < |next.messages| ::
          next.messages[k].role == Tool && next.messages[k].toolCallID == r.toolCallID)
    && (exists k | 0 <= k < |next.messages| :: Declares(next.messages[k], r.toolCallID))
  }

  /** The output check accepts exactly the outputs that keep the identity, do not step back, extend
      the transcript, and show in what they added where a pending requirement comes from. */
  lemma AcceptedOutputMeans(prev: RunState, next: RunState)
    ensures ValidateEngineOutput(prev, next) == {} <==>
      && next.id == prev.id && prev.step <= next.step && prev.messages <= next.messages
      && (next.status == Suspended && next.pendingRequirement.Some? ==>
            var r := next.pendingRequirement.value;
            match r.origin
            case ModelOrigin => AskedByModel(prev, next, r)
            case ToolOrigin => AskedByTool(prev, next, r)
            case _ => false)
  {
    if prev.messages <= next.messages {
      var n := |prev.messages|;
      var additions := next.messages[n..];
      assert forall k | n <= k < |next.messages| :: next.messages[k] == additions[k - n];
    }
  }

  /** The version of an output makes no difference to the output check. */
  lemma OutputCheckIgnoresVersion(prev: RunState, next: RunState, version: int)
    ensures ValidateEngineOutput(prev, next.(version := version)) == ValidateEngineOutput(prev, next)
  {
  }

  /** The store does notice: over the state it holds, a valid output is saved under that state's
      version and conflicts under any other. */
  lemma ChangedVersionConflicts(states: map<RunID, RunState>, prev: RunState, next: RunState)
    requires prev.id in states && states[prev.id].version == prev.version
    requires next.id == prev.id && ValidateRunState(next) == {}
    ensures Store.SaveErr(states, next) == if next.version == prev.version then {} else {ErrRunVersionConflict}
  {
  }

  /** Only a running run comes to an end or to a halt; a run that has not begun or has halted can only
      run on or be cancelled; a run that is over does not move. */
  lemma EdgesAre(from: RunStatus, to: RunStatus)
    ensures AllowedEdge(from, to) <==>
      || (from == Unset && to == Pending)
      || (from in {Pending, Suspended, MaxStepsExceeded} && to in {Running, Cancelled})
      || (from == Running && KnownStatus(to) && to != Pending && to != Running)
  {
  }

  /** The transition table keeps terminal runs where they are, and lets every other run reach every
      settled status. */
  lemma TableReaches(from: RunStatus, to: RunStatus)
    requires KnownStatus(from) && KnownStatus(to)
    ensures Reaches(from, to) <==>
      || from == to
      || (!IsTerminal(from) && to != Pending)
  {
    if from == to {
      assert StatusPath([from], from, to);
    } else if !IsTerminal(from) && to != Pending {
      if to == Running || to == Cancelled || from == Running {
        assert StatusPath([from, to], from, to);
      } else {
        assert StatusPath([from, Running, to], from, to);
      }
    } else {
      forall path | StatusPath(path, from, to)
        ensures |path| == 1
      {
        PathLeavesPending(path, |path| - 1);
      }
    }
  }

  /** From a known status on, a path never comes back to pending, and it ends at a terminal status. */
  lemma {:induction false} PathLeavesPending(path: seq<RunStatus>, k: nat)
    requires k < |path| && KnownStatus(path[0])
    requires forall j | 0 < j < |path| :: AllowedEdge(path[j - 1], path[j])
    ensures KnownStatus(path[k])
    ensures k > 0 ==> path[k] != Pending && !IsTerminal(path[0])
  {
    if k > 0 {
      PathLeavesPending(path, k - 1);
      assert AllowedEdge(path[0], path[1]);
      assert AllowedEdge(path[k - 1], path[k]);
    }
  }

  /** What no check stops is a status the table never leads to. Computed from a run that can still be
      worked on, an accepted output with such a status is committed if and only if it puts the run back
      to pending, is valid, and has the version it was computed from. */
  lemma UnreachableStatusCommittedIff(states: map<RunID, RunState>, prev: RunState, next: RunState)
    requires prev.id in states && states[prev.id].version == prev.version
    requires ValidateRunState(prev) == {} && !IsTerminal(prev.status)
    requires ValidateEngineOutput(prev, next) == {}
    ensures Store.SaveErr(states, next) == {} && !Reaches(prev.status, next.status) <==>
      && ValidateRunState(next) == {} && next.version == prev.version
      && next.status == Pending && prev.status != Pending
  {
    hide Reaches;
    AcceptedOutputMeans(prev, next);
    if ValidateRunState(next) == {} {
      ChangedVersionConflicts(states, prev, next);
      TableReaches(prev.status, next.status);
    }
  }

  /** Every stored run that has begun and is not at its end can be put back in this way. */
  lemma BegunRunCanBePutBack(states: map<RunID, RunState>, prev: RunState)
    requires prev.id in states && states[prev.id].version == prev.version
    requires ValidateRunState(prev) == {} && !IsTerminal(prev.status) && prev.status != Pending
    ensures var next := prev.(status := Pending, pendingRequirement := None);
      && ValidateEngineOutput(prev, next) == {}
      && Store.SaveErr(states, next) == {}
      && !Reaches(prev.status, next.status)
  {
    hide Reaches;
    var next := prev.(status := Pending, pendingRequirement := None);
    AcceptedOutputMeans(prev, next);
    UnreachableStatusCommittedIff(states, prev, next);
  }
}
