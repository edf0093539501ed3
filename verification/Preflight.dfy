/** What the runtime hands to a model is accepted by the provider's normaliser. */
module Preflight {
  import opened Domain
  import opened ReactLoop
  import opened Transcript
  import opened EngineLaws
  import opened Commands
  import opened History
  import opened HistoryLaws
  import opened Normalize
  import opened Protocol
  import ProtocolInv
  import ProtocolLaws
  import ProtocolIdem
  import ProtocolReplay
  import ProtocolCount
  import ReplayContext

  lemma {:induction false} MirrorPrefix(trace: seq<Obs>, k: nat)
    requires k <= |trace|
    ensures Mirror(trace[..k]) <= Mirror(trace)
  {
    if k == |trace| {
      assert trace[..k] == trace;
    } else {
      MirrorPrefix(trace[..|trace| - 1], k);
      assert trace[..|trace| - 1][..k] == trace[..k];
    }
  }

  lemma DeclaredPrefix(messages: seq<Message>, prefix: seq<Message>)
    requires Declared(messages) && prefix <= messages
    ensures Declared(prefix)
  {
    forall j | 0 <= j < |prefix| && prefix[j].role == Tool
      ensures prefix[j].toolCallID != "" && DeclaredBefore(prefix, j, prefix[j].toolCallID)
    {
      assert messages[j] == prefix[j];
      var i :| 0 <= i < j && Declares(messages[i], messages[j].toolCallID);
      assert Declares(prefix[i], prefix[j].toolCallID);
    }
  }

  /** Every transcript a slice hands to the model is a beginning of the one it returns. */
  lemma RequestsArePrefixes(env: Oracles, ctx: ReplayContext.Context, handed: RunState, input: Input)
    requires SpeaksAsAssistant(env) && Handed(handed) && NamedTarget(ctx, handed, input)
    ensures var o := Execution(env, ctx, handed, input);
      forall k | 0 <= k < |o.trace| && o.trace[k].ModelCalled? ::
        o.trace[k].messages <= o.state.messages && Declared(o.trace[k].messages)
  {
    hide Handed, NamedTarget, SpeaksAsAssistant, Execution, Declared, Ended, Mirror;
    var m, lag := ExecutionLaw(env, ctx, handed, input);
    var o := Execution(env, ctx, handed, input);
    EndedRequests(Enter(handed, input).state, m, lag, o);
  }

  lemma EndedRequests(entry: RunState, m: Slice, lag: nat, o: Outcome)
    requires Ended(entry, m, lag, o)
    ensures forall k | 0 <= k < |o.trace| && o.trace[k].ModelCalled? ::
      o.trace[k].messages <= o.state.messages && Declared(o.trace[k].messages)
  {
    hide CutOnlyAtEnd, OverrideOnlyFirst, EventsFit, Evidence, ModelCalls, AssistantCount, InOrder, Declared, Mirror;
    forall k | 0 <= k < |m.trace| && m.trace[k].ModelCalled?
      ensures m.trace[k].messages <= m.state.messages && Declared(m.trace[k].messages)
    {
      MirrorPrefix(m.trace, k);
      assert m.trace[k].messages == entry.messages + Mirror(m.trace[..k]);
      DeclaredPrefix(m.state.messages, m.trace[k].messages);
    }
    assert o.state.messages == m.state.messages;
    assert o.trace == m.trace
        || (o.trace == m.trace + [o.trace[|o.trace| - 1]] && !o.trace[|o.trace| - 1].ModelCalled?);
  }

  /** Whatever command runs on whatever committed state, through suspensions, replays, steers and
      follow-ups, and whether or not its save succeeds. */
  lemma RequestsAreDeclared(runID: RunID, h: seq<Commit>, version: int, mutation: Mutation, world: World)
    requires Legal(runID, h) && 1 <= version <= |h|
    requires SpeaksAsAssistant(world.oracles) && !mutation.Creates?
    requires mutation.FirstSlice? ==> version == 1
    ensures var trace := Propose(mutation, world, h[version - 1].state).trace;
      forall k | 0 <= k < |trace| && trace[k].ModelCalled? ::
        Declared(trace[k].messages) && (TrimmedCalls(trace[k].messages) ==> Accepted(trace[k].messages))
  {
    hide Legal, Resumable, SoundStep, SoundState, Execution, ValidateEngineOutput, Handed, NamedTarget, Admit,
      AssistantCount, Declared, Accepted, TrimmedCalls;
    var base := h[version - 1].state;
    LegalSound(runID, h, version - 1);
    SoundVersion(runID, version, base);
    var admission := Admit(mutation, world.ctx, base);
    if admission.ToEngine? {
      AdmittedIsHanded(runID, version, mutation, world.ctx, base);
      RequestsArePrefixes(world.oracles, admission.ctx, admission.handed, admission.input);
      var trace := Propose(mutation, world, base).trace;
      forall k | 0 <= k < |trace| && trace[k].ModelCalled? && TrimmedCalls(trace[k].messages)
        ensures Accepted(trace[k].messages)
      {
        DeclaredIsAccepted(trace[k].messages);
      }
    }
  }

  /** Under every interleaving, a provider that normalises what a thread's slice sends never refuses
      it, as long as call identifiers carry no surrounding white space. */
  lemma ProvidersNeverRefuse(actions: seq<Action>, t: nat, world: World)
    requires SpeaksAsAssistant(world.oracles)
    requires t in Run(actions).threads && Run(actions).threads[t].stage.Slicing?
    ensures var thread := Run(actions).threads[t];
      var trace := Propose(MutationOf(thread.command), world, thread.stage.base).trace;
      forall k | 0 <= k < |trace| && trace[k].ModelCalled? && TrimmedCalls(trace[k].messages) ::
        Accepted(trace[k].messages)
  {
    hide Run, Legal, Propose, SpeaksAsAssistant, Accepted, TrimmedCalls, Declared, ProtocolInv.SeatsOK,
      ProtocolInv.StoreOK, ProtocolInv.ThreadsBased, ProtocolIdem.IdemOK, ProtocolReplay.ReplaysOK,
      ProtocolCount.CountOK;
    ProtocolLaws.RunOKAlways(actions);
    var s := Run(actions);
    var thread := s.threads[t];
    ProtocolInv.BasedOf(s, t);
    ProtocolInv.InHistoryInStates(s, thread.runID);
    ProtocolInv.RunFacts(s, thread.runID);
    RequestsAreDeclared(thread.runID, s.history[thread.runID], thread.stage.base.version, MutationOf(thread.command),
      world);
  }
}
