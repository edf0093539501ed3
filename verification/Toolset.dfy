/** The tool executor's approval gate for shell commands.

    SHA-256 over the JSON payload is a function `digest` of the payload's fields with a non-empty
    result; running a command, and every other tool, is an oracle.
  */
module Toolset {
  import opened Domain
  import opened ReplayContext
  import opened ReactLoop
  import opened Suspensions

  const TOOL_BASH := "bash"

  type Fingerprint = s: string | s != "" witness "0"

  datatype Policy = Policy(workspaceRoot: string, bashTimeout: int)

  datatype Payload = Payload(toolName: string, callID: string, command: string, workspaceRoot: string, bashTimeout: int)

  /** What running a tool that was not stopped gives; none of them asks to suspend. */
  datatype Ran = Ran(content: string, err: Errors)

  datatype Executor = Executor(policy: Policy, digest: Payload -> Fingerprint)

  // ---------------------------------------------------------------- the command policy

  predicate Contains(s: string, token: string) {
    token <= s || (s != "" && Contains(s[1..], token))
  }

  const FORBIDDEN := ["\n", "\r", ";", "&&", "||", "|", ">", "<", "`", "$", "(", ")"]

  const ALLOWED := {
    "cat", "echo", "find", "grep", "head", "ls", "pwd", "rg", "sed", "stat", "tail", "wc", "which", "printf"
  }

  /** The first field of strings.Fields, for a text that starts with no white space. */
  function FirstField(s: string): string {
    if s == "" || IsSpace(s[0]) then "" else [s[0]] + FirstField(s[1..])
  }

  /** Policy.ValidateBashCommand. */
  function ValidateBashCommand(command: string): Errors {
    var trimmed := Trim(command);
    if trimmed == "" then {ErrBashCommandEmpty}
    else if exists k | 0 <= k < |FORBIDDEN| :: Contains(trimmed, FORBIDDEN[k]) then {ErrBashCommandDenied}
    else if FirstField(trimmed) !in ALLOWED then {ErrBashCommandDenied}
    else {}
  }

  function CommandOf(arguments: map<string, Json>): Option<string> {
    if "command" in arguments && arguments["command"].JsonString? && Trim(arguments["command"].text) != ""
    then Some(arguments["command"].text)
    else None
  }

  /** The call names a command the policy does not let run without approval. */
  predicate Denied(call: ToolCall) {
    && call.name == TOOL_BASH
    && CommandOf(call.arguments).Some?
    && ErrBashCommandDenied in ValidateBashCommand(CommandOf(call.arguments).value)
  }

  // ---------------------------------------------------------------- the gate

  function FingerprintOf(x: Executor, call: ToolCall, command: string): Fingerprint {
    x.digest(Payload(call.name, call.id, Trim(command), x.policy.workspaceRoot, x.policy.bashTimeout))
  }

  function ApprovedBashReplay(ctx: Context, callID: string, fingerprint: string): bool {
    OverrideOf(ctx) == Some(Override(callID, fingerprint))
  }

  function ValidateApprovedBashReplay(ctx: Context, callID: string, fingerprint: string): Errors {
    match OverrideOf(ctx)
    case None => {}
    case Some(override) =>
      if override.toolCallID == callID && override.fingerprint == fingerprint then {} else {ErrBashReplayMismatch}
  }

  function NoResult(): ToolResult {
    ToolResult("", "", "", false, NoFailure)
  }

  function Answer(call: ToolCall, ran: Ran): ToolReply {
    if ran.err != {} then ToolReply(NoResult(), ran.err, None)
    else ToolReply(ToolResult(call.id, call.name, ran.content, false, NoFailure), {}, None)
  }

  function RequirementFor(call: ToolCall, fingerprint: string): PendingRequirement {
    PendingRequirement("req-bash-policy-" + call.id, Approval, ToolOrigin, call.id, fingerprint,
                       "approve bash command denied by policy")
  }

  function ExecuteBash(x: Executor, ctx: Context, call: ToolCall, ran: Ran): ToolReply {
    var command := CommandOf(call.arguments);
    if command.None? then ToolReply(NoResult(), {ErrArgumentInvalid}, None)
    else
      var verdict := ValidateBashCommand(command.value);
      if ErrBashCommandDenied in verdict then
        var fingerprint := FingerprintOf(x, call, command.value);
        var mismatch := ValidateApprovedBashReplay(ctx, call.id, fingerprint);
        if mismatch != {} then ToolReply(NoResult(), mismatch, None)
        else if !ApprovedBashReplay(ctx, call.id, fingerprint) then
          ToolReply(NoResult(), verdict, Some(SuspendRequest(Some(RequirementFor(call, fingerprint)))))
        else Answer(call, ran)
      else if verdict != {} then ToolReply(NoResult(), verdict, None)
      else Answer(call, ran)
  }

  /** Executor.Execute; `ctxErr` is what the context's Err() answers. */
  function Execute(x: Executor, ctxErr: Errors, ctx: Context, call: ToolCall, ran: Ran): ToolReply {
    if ctxErr != {} then ToolReply(NoResult(), ctxErr, None)
    else if call.name == TOOL_BASH then ExecuteBash(x, ctx, call, ran)
    else Answer(call, ran)
  }

  /** A context has no error, or it was cancelled, or its deadline has passed. */
  predicate IsContextErr(err: Errors) {
    err == {} || ErrCanceled in err || ErrDeadlineExceeded in err
  }

  /** What an executor runs on: what the context answers, and what running a call gives, at each clock. */
  datatype Machine = Machine(ctxErr: nat -> Errors, run: (nat, ToolCall) -> Ran)

  /** The engine's tool executor is `x`, running on `machine`. */
  ghost predicate RunsOn(env: Oracles, x: Executor, machine: Machine) {
    && (forall n: nat :: IsContextErr(machine.ctxErr(n)))
    && (forall n: nat, ctx, call ::
          env.tool(n, ctx, call) == Execute(x, machine.ctxErr(n), ctx, call, machine.run(n, call)))
  }

  ghost predicate Uses(env: Oracles, x: Executor) {
    exists machine :: RunsOn(env, x, machine)
  }

  // ---------------------------------------------------------------- what the policy denies

  lemma {:induction false} FindToken(s: string, token: string) returns (a: string, b: string)
    requires Contains(s, token)
    ensures s == a + token + b
  {
    if token <= s {
      a, b := "", s[|token|..];
    } else {
      a, b := FindToken(s[1..], token);
      a := [s[0]] + a;
      assert s == [s[0]] + s[1..];
    }
  }

  lemma {:induction false} TokenIsFound(a: string, token: string, b: string)
    ensures Contains(a + token + b, token)
  {
    var s := a + token + b;
    if a == "" {
      assert token <= s;
    } else {
      assert s[1..] == a[1..] + token + b;
      TokenIsFound(a[1..], token, b);
    }
  }

  /** A token is contained wherever it stands. */
  lemma ContainsIff(s: string, token: string)
    ensures Contains(s, token) <==> exists a, b :: s == a + token + b
  {
    if Contains(s, token) {
      var a, b := FindToken(s, token);
    }
    forall a, b | s == a + token + b {
      TokenIsFound(a, token, b);
    }
  }

  /** A character the policy takes for shell syntax. */
  predicate IsSyntax(c: char) {
    c in {'\n', '\r', ';', '|', '>', '<', '`', '$', '(', ')'}
  }

  /** Shell syntax stands at position `i`. */
  predicate SyntaxAt(text: string, i: int) {
    0 <= i < |text| && (IsSyntax(text[i]) || (text[i] == '&' && i + 1 < |text| && text[i + 1] == '&'))
  }

  /** The first word of the text is `verb`. */
  predicate OpensWith(text: string, verb: string) {
    && verb <= text && (forall k | 0 <= k < |verb| :: !IsSpace(verb[k]))
    && (|verb| < |text| ==> IsSpace(text[|verb|]))
  }

  lemma {:induction false} FirstFieldIff(s: string, verb: string)
    ensures FirstField(s) == verb <==> OpensWith(s, verb)
  {
    if s == "" || IsSpace(s[0]) {
      assert verb != "" && verb <= s ==> verb[0] == s[0];
    } else if verb == "" {
      assert !IsSpace(s[|verb|]);
    } else {
      FirstFieldIff(s[1..], verb[1..]);
      assert verb == [verb[0]] + verb[1..];
      assert s == [s[0]] + s[1..];
      if OpensWith(s, verb) {
        assert OpensWith(s[1..], verb[1..]);
      }
      if FirstField(s) == verb {
        assert FirstField(s)[1..] == FirstField(s[1..]);
      }
    }
  }

  lemma SyntaxIff(text: string)
    ensures (exists k | 0 <= k < |FORBIDDEN| :: Contains(text, FORBIDDEN[k])) <==> exists i :: SyntaxAt(text, i)
  {
    forall k | 0 <= k < |FORBIDDEN| {
      ContainsIff(text, FORBIDDEN[k]);
    }
    if exists k | 0 <= k < |FORBIDDEN| :: Contains(text, FORBIDDEN[k]) {
      var k :| 0 <= k < |FORBIDDEN| && Contains(text, FORBIDDEN[k]);
      var a, b :| text == a + FORBIDDEN[k] + b;
      TokenIsSyntax(a, k, b);
      assert SyntaxAt(text, |a|);
    }
    if i :| SyntaxAt(text, i) {
      SyntaxIsToken(text, i);
    }
  }

  lemma TokenIsSyntax(a: string, k: nat, b: string)
    requires k < |FORBIDDEN|
    ensures SyntaxAt(a + FORBIDDEN[k] + b, |a|)
  {
    var text := a + FORBIDDEN[k] + b;
    assert text[|a|] == FORBIDDEN[k][0];
    assert |FORBIDDEN[k]| > 1 ==> text[|a| + 1] == FORBIDDEN[k][1];
  }

  lemma SyntaxIsToken(text: string, i: int)
    requires SyntaxAt(text, i)
    ensures exists k | 0 <= k < |FORBIDDEN| :: Contains(text, FORBIDDEN[k])
  {
    var token := if IsSyntax(text[i]) then [text[i]] else "&&";
    assert text == text[..i] + token + text[i + |token|..];
    ContainsIff(text, token);
    assert FORBIDDEN[0] == "\n" && FORBIDDEN[1] == "\r" && FORBIDDEN[2] == ";" && FORBIDDEN[3] == "&&"
        && FORBIDDEN[5] == "|" && FORBIDDEN[6] == ">" && FORBIDDEN[7] == "<" && FORBIDDEN[8] == "`"
        && FORBIDDEN[9] == "$" && FORBIDDEN[10] == "(" && FORBIDDEN[11] == ")";
    assert exists k | 0 <= k < |FORBIDDEN| :: FORBIDDEN[k] == token;
  }

  /** A call is denied if and only if it names a command whose trimmed text holds shell syntax, or does
      not begin with one of the allowed words. */
  lemma DeniedIff(call: ToolCall)
    ensures Denied(call) <==>
      && call.name == "bash"
      && "command" in call.arguments && call.arguments["command"].JsonString?
      && var text := Trim(call.arguments["command"].text);
         && text != ""
         && ((exists i :: SyntaxAt(text, i)) || !exists verb :: verb in ALLOWED && OpensWith(text, verb))
  {
    if "command" in call.arguments && call.arguments["command"].JsonString? {
      var text := Trim(call.arguments["command"].text);
      SyntaxIff(text);
      forall verb {
        FirstFieldIff(text, verb);
      }
      hide SyntaxAt, OpensWith, FirstField, Contains, Trim;
      if FirstField(text) in ALLOWED {
        assert OpensWith(text, FirstField(text));
      }
    }
  }

  /** A call that is not denied runs, with or without an override, unless its context has ended or it
      names no command. */
  lemma PermittedRuns(x: Executor, ctxErr: Errors, ctx: Context, call: ToolCall, ran: Ran)
    requires !Denied(call)
    ensures Execute(x, ctxErr, ctx, call, ran)
         == if ctxErr != {} then ToolReply(NoResult(), ctxErr, None)
            else if call.name == "bash" && CommandOf(call.arguments).None?
            then ToolReply(NoResult(), {ErrArgumentInvalid}, None)
            else Answer(call, ran)
  {
    hide Trim, Contains, FirstField;
  }

  /** Fingerprints tell apart what is approved, as far as the digest tells its inputs apart: the tool,
      the call, the trimmed command and the policy it runs under. */
  lemma FingerprintIff(x: Executor, y: Executor, call: ToolCall, other: ToolCall, command: string, another: string)
    requires x.digest == y.digest && forall p, q :: x.digest(p) == x.digest(q) ==> p == q
    ensures FingerprintOf(x, call, command) == FingerprintOf(y, other, another) <==>
      && call.name == other.name && call.id == other.id && Trim(command) == Trim(another)
      && x.policy.workspaceRoot == y.policy.workspaceRoot && x.policy.bashTimeout == y.policy.bashTimeout
  {
    hide Trim;
  }

  // ---------------------------------------------------------------- laws of the gate

  /** Without override, and only then, a denied command suspends; the engine accepts the request as it is. */
  lemma SuspendsExactlyWhenDenied(x: Executor, ctxErr: Errors, ctx: Context, call: ToolCall, ran: Ran, state: RunState)
    requires state.id != "" && state.step >= 0 && state.version >= 0 && call.id != ""
    ensures var reply := Execute(x, ctxErr, ctx, call, ran);
      && (reply.suspend.Some? <==> ctxErr == {} && Denied(call) && OverrideOf(ctx).None?)
      && (reply.suspend.Some? ==>
            var requirement := RequirementFor(call, FingerprintOf(x, call, CommandOf(call.arguments).value));
            && reply.err == {ErrBashCommandDenied}
            && ValidateSuspendRequest(state, call, reply.suspend.value) == (Some(requirement), {}))
  {
    hide Trim, Contains, FirstField, ValidateBashCommand, CommandOf;
    DenialsAreDenials(CommandOf(call.arguments));
    assert RequirementFor(call, "x").id != "";
  }

  lemma DenialsAreDenials(command: Option<string>)
    ensures command.Some? && ErrBashCommandDenied in ValidateBashCommand(command.value) ==>
      ValidateBashCommand(command.value) == {ErrBashCommandDenied}
  {
    hide Trim, Contains, FirstField;
  }

  /** Approved: under the override of its own requirement a denied command runs. */
  lemma ApprovedCommandRuns(x: Executor, ctx: Context, call: ToolCall, ran: Ran)
    requires Denied(call)
    requires OverrideOf(ctx) == Some(Override(call.id, FingerprintOf(x, call, CommandOf(call.arguments).value)))
    ensures Execute(x, {}, ctx, call, ran) == Answer(call, ran)
  {
    hide Trim, Contains, FirstField, ValidateBashCommand, CommandOf;
  }

  /** An override approves one call of one command: under any other the denied command is refused,
      neither run nor suspended. */
  lemma OverrideApprovesNothingElse(x: Executor, ctx: Context, call: ToolCall, ran: Ran)
    requires Denied(call) && OverrideOf(ctx).Some?
    requires OverrideOf(ctx) != Some(Override(call.id, FingerprintOf(x, call, CommandOf(call.arguments).value)))
    ensures Execute(x, {}, ctx, call, ran) == ToolReply(NoResult(), {ErrBashReplayMismatch}, None)
  {
    hide Trim, Contains, FirstField, ValidateBashCommand, CommandOf;
  }

  // ---------------------------------------------------------------- laws of runs

  /** With this executor the engine never meets a suspend request during a replay. */
  lemma ReplayNeverSuspends(env: Oracles, x: Executor, ctx: Context, state: RunState, input: Input, n: nat)
    requires Uses(env, x) && ReplayTarget(ctx, state, input).Replay?
    ensures env.tool(n, ctx, ReplayTarget(ctx, state, input).call).suspend.None?
  {
    hide Execute, ExecuteBash, RunsOn;
    var machine :| RunsOn(env, x, machine);
    var call := ReplayTarget(ctx, state, input).call;
    RunsOnAt(env, x, machine, n, ctx, call);
    OverrideNeverSuspends(x, machine.ctxErr(n), ctx, call, machine.run(n, call));
  }

  lemma RunsOnAt(env: Oracles, x: Executor, machine: Machine, n: nat, ctx: Context, call: ToolCall)
    requires RunsOn(env, x, machine)
    ensures env.tool(n, ctx, call) == Execute(x, machine.ctxErr(n), ctx, call, machine.run(n, call))
    ensures IsContextErr(machine.ctxErr(n))
  {
    hide Execute;
  }

  lemma OverrideNeverSuspends(x: Executor, ctxErr: Errors, ctx: Context, call: ToolCall, ran: Ran)
    requires OverrideOf(ctx).Some?
    ensures Execute(x, ctxErr, ctx, call, ran).suspend.None?
  {
    hide Trim, Contains, FirstField, ValidateBashCommand, CommandOf;
  }

  /** A tool suspension made with this executor blocks a denied command, under its fingerprint. */
  lemma AskedForIsDenied(env: Oracles, x: Executor, n: nat, ctx: Context, call: ToolCall,
      requirement: PendingRequirement)
    requires Uses(env, x) && AskedFor(env, n, ctx, call, requirement)
    ensures Denied(call)
    ensures requirement.fingerprint == FingerprintOf(x, call, CommandOf(call.arguments).value)
  {
    hide Trim, Contains, FirstField, ValidateBashCommand, CommandOf, RunsOn;
    var machine :| RunsOn(env, x, machine);
    RunsOnAt(env, x, machine, n, ctx, call);
  }
}
