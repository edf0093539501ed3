# The agent runtime, verified

A Dafny model of a durable agent runtime and of the parts of its coding-agent example that depend
on it, with proofs about every run, every interleaving and every input.

`dafny verify dfyconfig.toml` checks everything.

## What is modelled

* **The engine** (`ReactLoop.dfy`): model step, tool calls, observations, replay of an approved
  call, and the six ways a slice ends. Functions give the meaning; the methods with the nested loops
  of the source are proved equal to them. `EngineLaws.dfy`, `EngineGrowth.dfy`,
  `EngineContract.dfy` and `Suspensions.dfy` prove what every slice guarantees. `SliceLog.dfy` says what
  a slice does and how it ends from its log and the answers it got, without the control flow of the
  functions, and proves that every slice has such a log.
* **The runner** (`Commands.dfy`, `History.dfy`, `HistoryLaws.dfy`): what one command does to one run,
  and what follows for the sequence of commits of a run (`Legal`). `Admissions.dfy` says which commands
  are let through, with what, and what they leave behind, without the branches of admission.
* **The runner under concurrency** (`LockTable.dfy`, `Protocol.dfy`): any number of threads, each
  dispatching one command, interleaved at lock acquisition, idempotency lookup, load, slice, save,
  every single publish, recording and both halves of unlocking. `ProtocolInv.dfy`, `ProtocolIdem.dfy`,
  `ProtocolReplay.dfy` and `ProtocolCount.dfy` hold the inductive invariants, `ProtocolLaws.dfy` the
  theorems over all interleavings; `ProtocolProgress.dfy` proves that none of them gets stuck. In
  particular every stored state is the last of a legal history, so the theorems about histories hold
  under every interleaving.
* **The same runner as an object** (`Runner.dfy`, `CommandLocks.dfy`, `Store.dfy`, `Lifecycle.dfy`):
  classes whose methods change the store, the lock objects, the outcome table and the event log as
  the source does. A `Runner` is always in a state that some interleaving of `Protocol` leads to;
  `Replies.dfy` says in full what a dispatch answers and leaves behind.
* **The checks** (`Domain.dfy`, `Validation.dfy`, `Text.dfy`): states, events, requirements, resolutions, the
  transition table and the output check, and what they mean without their branches.
* **Transcripts** (`Transcript.dfy`, `Normalize.dfy`, `Preflight.dfy`, `UntrimmedCalls.dfy`): their
  grammar, the one-pass normalisation before a provider call, why it accepts what the runtime sends,
  and runs that show where it does not.
* **Events** (`RunStream.dfy`, `EventStream.dfy`): the bounded broker against the unbounded log it
  stands for, the server's send loop, the client's reconnect loop, and all their interleavings.
* **The approval gate** (`Toolset.dfy`, `ApprovalGate.dfy`), **the step budget** (`PolicyLimit.dfy`) and
  **cloning on the heap** (`HeapStore.dfy`).

## Assumptions

* The model answers with the role `assistant` or with none (`SpeaksAsAssistant`). The engine fills in
  only the missing role (agentreact/react_loop.go:165-167); another role would change what the
  grammar of transcripts means.
* Model, tools, event sink and the caller's context are oracles indexed by a clock, so that statements
  for all oracles cover every behaviour; the context may be done at any check.
* A side effect on the store or the event sink happens with a live context and is one step.
* Whole-run theorems start from an empty store that one runner uses. Integers are unbounded.
* Errors are finite sets of sentinel tags: `nil` is the empty set, `errors.Join` is union. Error texts,
  descriptions of events and the text of error results are not modelled.
* Messages are values, except in `HeapStore.dfy`; `ReactLoop` only appends to its transcript.
* An engine slice is one step of an interleaving. It shares nothing with other threads but the event
  sink, whose order across runs no theorem uses.
* In the laws of the approval gate a context's error is a cancellation or a passed deadline, as Go
  promises; everywhere else it may be anything.
* A digest over the fields of a bash approval stands for SHA-256 over their JSON form.

## Where the code and expectations differ

* Commands may lose the version race, but only over version 1: a Start takes no lock
  (`StartCanBeOvertaken` gives such a run, `SavesConflictOnlyOverVersionOne` says exactly when).
* A transcript of the runtime can be refused by the normaliser when a call identifier carries white
  space (`BlankCallIsRefused` gives such a run); `AcceptedIffObservedTrimmed` says exactly when. A
  transcript that is accepted can lose the observation of one call to another whose identifier
  differs in white space only (`BlankCallIsMerged`); `ObservationsKeptIffApart` says exactly when.
* The runner's check of an engine's output looks at neither the version nor the status
  (`AcceptedOutputMeans` says exactly what it looks at). A changed version is still refused, as a
  conflict, by the store (`ChangedVersionConflicts`). Nothing stops an output from taking a run that
  has begun back to pending, which no path of the transition table does:
  `UnreachableStatusCommittedIff` says exactly when a status the table does not lead to is committed,
  `BegunRunCanBePutBack` shows that it can happen to every stored run that is neither pending nor at
  its end. That `ReactLoop` never does it is a theorem about `ReactLoop`
  (`CommitLaw`), not about every engine.

## Model

| member | source | states |
|---|---|---|
| ReactLoop.Execute | agentreact/react_loop.go:91-304 | the method with the loops of the source returns the state, error and complete trace of model calls, tool calls and publishes that `Execution` assigns to a slice |
| ReactLoop.RunLoop | agentreact/react_loop.go:147-303 | the outer loop ends, by the variant budget minus step, with the outcome the recursive meaning of the loop assigns |
| ReactLoop.RunTurn | agentreact/react_loop.go:148-212 | one model step: cancellation, failure, model suspension, completion, malformed calls or the tool loop |
| ReactLoop.RunToolCalls | agentreact/react_loop.go:213-290 | the inner loop stops at the first call that ends the slice and otherwise answers all calls in order |
| ReactLoop.RunToolCall | agentreact/react_loop.go:214-289 | one call: unknown, invalid, executed, failed, cancelled, suspended or badly suspended |
| ReactLoop.ValidateToolCallShape | agentreact/react_loop.go:506-527 | succeeds if and only if every call has an identifier and a name and no identifier repeats |
| ReactLoop.FindToolCallByID | agentreact/react_loop.go:395-412 | the backward search finds the latest call with the identifier |
| ReactLoop.IndexToolDefinitions | agentreact/react_loop.go:110-110 | the index binds a name to its last definition and nothing else |
| ReactLoop.Execution | agentreact/react_loop.go:106-109 | no slice ever steps past its effective budget, whatever the oracles do |
| SliceLog.SliceExplained | agentreact/react_loop.go:91-304 | every slice has a log in which each model call, tool call and event stands for a reason that lies in the entries before it and the answers to them, and its state, error and closing event are those of the ending the log determines |
| SliceLog.SliceEnds | agentreact/react_loop.go:147-303 | which end a slice has: completed exactly after an error-free reply without calls and requirement, suspended exactly after a proper requirement, out of steps exactly when the budget is reached with every call answered, cancelled exactly by its cause, failed otherwise |
| SliceLog.RepliesStand | agentreact/react_loop.go:168-276 | what an answered question leaves on the transcript: the model's message as it is, or the tool's own result if it is for that call and an error result if not |
| SliceLog.BudgetIsExact | agentreact/react_loop.go:106-109 | a slice that runs out of steps does so exactly at its budget, or at the step it came with if that was higher |
| SliceLog.ReplayIff | agentreact/react_loop.go:326-393 | a call is replayed if and only if the caller approved a complete tool requirement, the context carries exactly its override and the transcript declares the call; an approval that falls short is an error, anything else no replay |
| SliceLog.ExecutionRefuses | agentreact/react_loop.go:95-117 | an invalid, suspended or terminal state comes back unchanged with its error |
| EngineLaws.ExecutionLaw | agentreact/react_loop.go:91-304 | every slice: one message a published event, every model call handed the transcript of that moment, calls answered in order, and exactly one way to close |
| EngineContract.ReactLoopMeetsContract | agent/runner.go:205-305 | from every state the runner hands over, the output keeps ID and version, is settled, and passes the output check, the provenance check and state validation |
| EngineContract.EventsMirrorTranscript | agentreact/react_loop.go:116-304 | read back, the events of a slice are exactly the messages it appended after the resolution; steps never decrease; a closing event appears once and last, unless the slice suspended |
| EngineContract.ModelCallsWithinBudget | agentreact/react_loop.go:147-158 | model calls equal the increase of the step and never exceed what the budget leaves |
| EngineGrowth.OnlyReplaySeesOverride | agentreact/react_loop.go:119-130 | an approved replay is the first thing a slice does, in its context; every other tool call sees no override |
| EngineGrowth.SliceOpens | agentreact/react_loop.go:147-168 | without a resolution the first message a slice appends is the assistant's |
| EngineGrowth.LoopGrown | agentreact/react_loop.go:147-291 | the loop only appends, to transcript and trace, and calls tools in its own context only |
| Suspensions.ToolSuspensionsAreRequested | agentreact/react_loop.go:241-289 | a slice suspended by a tool carries the requirement its last tool call asked for, linked to that call |
| Suspensions.CommittedSuspensionsAreRequested | agentreact/react_loop.go:458-491 | every tool suspension in a legal history carries the requirement that the last tool call of its slice asked for |
| Transcript.AppendAnswer | agentreact/react_loop.go:264-278 | answering the next call of the open assistant message keeps the grammar |
| Transcript.AppendReplay | agentreact/react_loop.go:132-145 | a replayed observation keeps the grammar: it follows the resolution, not an assistant message |
| Lifecycle.TransitionRunStatus | agent/lifecycle.go:196-207 | writes the status, and takes it back when the suspension invariant fails |
| Lifecycle.TransitionLaw | agent/lifecycle.go:180-235 | succeeds exactly along the transition table into a state whose requirement fits; nothing leaves a terminal state; otherwise nothing changes |
| Validation.ValidEventMeans | agent/event_validation.go:6-175 | an event is valid if and only if it is addressed and carries exactly the payload of its kind |
| Validation.ValidStateMeans | agent/run_validation.go:9-44 | a state is valid if and only if it is identified, known and pending on a complete requirement exactly when suspended |
| Validation.AcceptedResolutionMeans | agent/lifecycle.go:98-178 | a suspended run accepts exactly the resolutions that answer its requirement in kind, any other run none |
| Validation.OverrideMeans | agent/runner.go:426-443 | an override exists exactly for approved tool requirements, names their call, is read back as set and is gone when cleared |
| Validation.AcceptedOutputMeans | agent/runner.go:205-350 | an output is accepted if and only if it keeps the identity, does not step back, extends the transcript, and, when suspended on a requirement, has added the assistant request or the tool observation it comes from |
| Validation.OutputCheckIgnoresVersion | agent/runner.go:205-243 | the output check gives the same answer under every version |
| Validation.ChangedVersionConflicts | runstore/inmem/store.go:37-65 | over the state it was computed from a valid output is saved under that version and conflicts under every other |
| Validation.UnreachableStatusCommittedIff | agent/runner.go:205-243 | over every stored run that is not at its end, an accepted output is committed with a status no path of the table leads to if and only if it is valid, keeps the version, and takes a run that has begun back to pending |
| Validation.BegunRunCanBePutBack | agent/runner.go:205-243 | for every stored run that is neither pending nor at its end there is such an output, accepted and saved |
| Validation.TableReaches | agent/lifecycle.go:209-235 | along the transition table a terminal status reaches only itself and any other reaches everything but pending |
| Commands.ValidateToolDefinitions | agent/runner.go:352-376 | succeeds if and only if all tools are named and no name repeats |
| Commands.AfterSaveAnnounces | agent/runner.go:557-592 | what follows a save: the applied command last and once, a checkpoint unless cancelled, suspension and cancellation exactly when they are the outcome |
| History.ResumeTarget | agent/runner.go:634-656 | resuming a valid suspension never trips the replay contract, and an approval replays the call the transcript leads to under the override of its requirement |
| Admissions.RefusedIff | agent/runner.go:631-875 | a valid run refuses a command if and only if it is over, or waits for something the command does not answer, or is offered an answer it does not wait for; it comes back unchanged with the reason |
| Admissions.AdmittedWith | agent/runner.go:638-838 | a command that is let through hands over exactly the lifted suspension or the added prompt, the override of an approved tool call, and its own budget, tools and resolution; Steer and Cancel save exactly their change |
| Admissions.ProposedIff | agent/runner.go:631-838 | over every committed state a command proposes something exactly when it is let through, and then exactly its work |
| Admissions.SteerCommitted | agent/runner.go:767-785 | a committed Steer is the state before with one user message, the instruction, and the next version; nothing else changed |
| Admissions.CancelCommitted | agent/runner.go:718-735 | a committed Cancel is the state before with status cancelled, no requirement and the next version; nothing else changed |
| Admissions.SliceCommitted | agent/runner.go:638-675 | the transcript of a committed FollowUp or Continue begins with the one before and the prompt or the resolution, and its status is one a slice ends with |
| History.BlockedIsFound | agentreact/react_loop.go:395-412 | the search for a blocked identifier finds the blocked call even when older messages reuse the identifier |
| History.AdmittedIsHanded | agent/runner.go:612-661 | whatever a command hands the engine is a state the engine laws apply to |
| History.EngineCommit | agent/runner.go:500-594 | a slice turns a sound state into a sound state along an allowed path of statuses |
| History.StoreCommit | agent/runner.go:709-802 | Cancel and Steer, which run no engine, also turn a sound state into a sound state, adding user messages at most |
| History.CommitLaw | agent/runner.go:612-702 | the step between any two commits: identity, version, transcript, step, status and provenance |
| HistoryLaws.LegalSound | agent/runner.go:500-885 | every commit of a legal history is sound |
| HistoryLaws.NoLostUpdates | agent/runner.go:612-885 | commit i has version i+1, later commits extend its transcript, do not decrease its step and have a reachable status, and a terminal commit is the last |
| HistoryLaws.ApprovalReplaysBlockedCall | agentreact/react_loop.go:326-412 | approving a tool suspension runs first, under the override, exactly the call (ID, name, arguments) that the suspended slice made last without one |
| HistoryLaws.ReplayContractNeverRefuses | agentreact/react_loop.go:342-391 | no error branch of the replay contract fires on a committed state, whatever a caller sends |
| HistoryLaws.TurnsStopOnlyWhereSlicesEnd | agentreact/react_loop.go:213-291 | tool messages after an assistant message answer its calls in order, all of them or up to where a slice suspended, failed or was cancelled |
| HistoryLaws.TranscriptsCountAndDeclare | agentreact/react_loop.go:147-168 | one assistant message a step, or one fewer in a failed or cancelled run; every tool message names an earlier call |
| HistoryLaws.ProposalLaw | agent/runner.go:612-661 | on a committed state a command is refused at admission or proposes a valid state of the same run and version; the output check never rejects |
| HistoryLaws.ProposalEvents | agentreact/react_loop.go:140-304 | what a command publishes while it runs is valid and belongs to its run |
| HistoryLaws.InitialPrompts | agent/runner.go:519-536 | a created run is pending at step 0 and its transcript obeys the grammar without any assistant message |
| Validation.CreatedTranscriptMeans | agent/runner.go:525-536 | a created transcript holds the system prompt first and the user prompt last, each exactly when it is not empty |
| Validation.ResolutionTextIff | agentreact/react_loop.go:65-82 | the message about a resolution tells apart any two valid resolutions: identifier, kind, outcome and value can be read from it |
| Validation.EdgesAre | agent/lifecycle.go:209-235 | only a running run comes to an end or a halt, a halted or new one can only run on or be cancelled, and one that is over does not move |
| Text.TrimIff | examples/coding-agent/server/internal/toolset/policy.go:184-184 | trimming leaves exactly the text between the white space at both ends |
| LockTable.AcquireKeeps | agent/runner.go:93-101 | taking a reference, with or without a new entry, keeps the table exact: every user refers to the one live lock of its run, and the count is the number of users |
| LockTable.EnterKeeps | agent/runner.go:103-103 | taking the mutex, when it is free, keeps references counted and holders unique |
| LockTable.ExitKeeps | agent/runner.go:105-105 | giving the mutex back keeps the table exact; the thread stays counted |
| LockTable.ReleaseKeeps | agent/runner.go:107-112 | dropping the reference keeps the table exact: the entry is deleted only with its last user |
| LockTable.MutualExclusion | agent/runner.go:93-114 | two holders of a run's lock are one thread |
| LockTable.EmptyWhenIdle | agent/runner.go:107-112 | no thread in flight, no entry and no owner left |
| CommandLocks.RunCommandLocks.Acquire | agent/runner.go:93-101 | find or create the lock object and count this thread, as the table step says |
| CommandLocks.RunCommandLocks.Enter | agent/runner.go:103-103 | locks the object's mutex when it is free |
| CommandLocks.RunCommandLocks.Exit | agent/runner.go:105-105 | unlocks the object's mutex and leaves the thread counted |
| CommandLocks.RunCommandLocks.Release | agent/runner.go:107-112 | uncounts this thread and deletes the entry at zero |
| Store.RunStore.Save | runstore/inmem/store.go:23-66 | compare-and-swap on the version: writes the next version or changes nothing, with the error for each case |
| Store.RunStore.Load | runstore/inmem/store.go:68-87 | the stored state, or the error of an ended context, an empty identifier or an unknown run |
| ProtocolInv.StepKeepsSeats | agent/runner.go:446-484 | every step keeps each thread's place in the lock table in line with its stage |
| ProtocolInv.StepKeepsStore | agent/runner.go:500-885 | every step keeps the store equal to the last commit of a legal history, and every thread's base committed |
| ProtocolInv.SavingSucceeds | runstore/inmem/store.go:37-65 | a save succeeds exactly when the base is still current, and then extends the history by what the command proposed |
| ProtocolIdem.StepKeepsIdem | agent/runner.go:612-702 | every step keeps keys unique, commits accounted for and outcomes tied to their commit |
| ProtocolIdem.KeyNotCommitted | agent/runner.go:617-622 | past the lookup nobody else can have committed under the key |
| ProtocolReplay.StepKeepsReplays | agent/runner.go:612-702 | every step keeps replays distinct and answered by a commit or about to be |
| ProtocolReplay.NotYetReplayed | agent/runner.go:93-114 | a thread about to replay a suspension is the first to do so |
| ProtocolReplay.MarkMeansReplay | agentreact/react_loop.go:119-131 | a replay is recorded exactly when some tool call of the slice saw an override |
| ProtocolCount.StepKeepsCount | agent/runner.go:538-592 | every step keeps commits and their events in balance |
| ProtocolLaws.RunOKAlways | agent/runner.go:446-484 | every invariant holds after every interleaving of any number of commands on any number of runs |
| ProtocolLaws.StoreIsLegal | runstore/inmem/store.go:37-65 | the store always holds the last commit of a legal history whose length is the version |
| ProtocolLaws.OneCommandARun | agent/runner.go:456-477 | two locked commands working on one run are the same command |
| ProtocolLaws.LockTableExact | agent/runner.go:93-114 | one live lock a run, counted by its users, never deleted under them, gone when idle |
| ProtocolLaws.SavesConflictOnlyOverVersionOne | agent/runner.go:551-556 | a save conflicts if and only if the run has moved on, and only a command that works from version 1 can be overtaken |
| Overtaken.StartCanBeOvertaken | agent/runner.go:551-556 | an interleaving in which a Cancel commits between the two saves of a Start, and the second one conflicts |
| ProtocolLaws.AtMostOneReplay | agent/runner.go:652-661 | a suspension is replayed at most once, and the thread that replayed commits or is about to with a save that succeeds |
| ProtocolLaws.MarksAreOverriddenCalls | agentreact/react_loop.go:119-131 | under every interleaving a slice counts as a replay exactly when one of its tool calls is made under an override |
| ProtocolLaws.ContractChecksNeverFire | agent/runner.go:657-665 | no thread ever meets a replay contract error or a rejected engine output |
| ProtocolLaws.SharedKeyIff | agent/runner.go:404-418 | two commands share a key if and only if they continue the same run under identifiers that are the same non-empty text but for white space around it |
| ProtocolLaws.AtMostOneCommitAKey | agent/runner.go:68-91 | at most one Continue commits under a key |
| ProtocolLaws.OutcomeIsItsCommittersAnswer | agent/runner.go:696-702 | whatever is recorded under a key is the state and the error that the thread which committed under it finished with |
| ProtocolLaws.RepeatedContinueIsRecorded | agent/runner.go:617-622 | a later Continue with a committed key finishes with the committed state and the very error the committing Continue finished with, and changes nothing else |
| ProtocolLaws.RunFollows | agent/runner.go:81-91 | histories only grow and recorded outcomes never change |
| ProtocolLaws.StoredRunsOnlyAdvance | agent/runner.go:500-885 | between any two moments a stored run only advances, and a terminal one does not change |
| ProtocolLaws.VersionsCountEvents | agent/runner.go:538-592 | with no command in flight a version is one run_started plus the command_applied events, and every event is valid |
| ProtocolProgress.SomeThreadCanStep | agent/runner.go:93-114 | in every reachable system with commands in flight the next step of some thread changes the system |
| ProtocolProgress.EveryCommandCanFinish | agent/runner.go:93-114 | from every reachable system all commands in flight can be brought to their end by steps of their own threads: no lock is waited for that nobody gives back |
| Runner.Runner.DispatchStart | agent/runner.go:500-594 | a Start moves the object by steps of its own thread only and returns what that thread finishes with; every refusal has its error and changes nothing, and otherwise the run is stored, announced, and its first slice saved as version 2 and announced |
| Runner.Runner.DispatchContinue | agent/runner.go:612-702 | a Continue moves the object by steps of its own thread only; it answers a recorded key with the recorded outcome, refuses what the run does not let through, and otherwise saves the slice from the lifted suspension as the next version, announces it and records its outcome |
| Runner.Runner.DispatchDirect | agent/runner.go:709-802 | a Cancel or a Steer moves the object by steps of its own thread only; it returns, saves and announces exactly the state with its one change, or the unchanged state with the reason |
| Runner.Runner.DispatchFollowUp | agent/runner.go:813-885 | a FollowUp moves the object by steps of its own thread only; it returns, saves and announces the slice from the prompt, or the unchanged state with the reason |
| Runner.Runner.Dispatch | agent/runner.go:446-484 | a dispatch takes the lock where the source does, refines a thread of the interleaving machine from begin to end, leaves no thread behind, and its result, error, store, recorded outcomes and event log are those of the command in full |
| Replies.SliceReadsBack | agentreact/react_loop.go:139-276 | what a slice adds to the event log reads back as exactly what it adds to the transcript after the resolution |
| Normalize.NormalizeMessagesForProvider | examples/coding-agent/server/internal/modelprovider/preflight/normalize.go:11-51 | rejects exactly at the first tool message without an earlier call of its trimmed identifier, and otherwise returns the normal form |
| Normalize.NormalAt | examples/coding-agent/server/internal/modelprovider/preflight/normalize.go:21-47 | a surviving position keeps its own message, or, for a tool message, one that observes the same call |
| Normalize.NormalKeepsCalls | examples/coding-agent/server/internal/modelprovider/preflight/normalize.go:39-45 | the last observation of a call stands where its first one stood |
| Normalize.NormalIsUnique | examples/coding-agent/server/internal/modelprovider/preflight/normalize.go:39-45 | no call is observed twice |
| Normalize.NormalKeepsSpeech | examples/coding-agent/server/internal/modelprovider/preflight/normalize.go:21-48 | everything but tool messages keeps content and order |
| Normalize.NormalIsAccepted | examples/coding-agent/server/internal/modelprovider/preflight/normalize.go:32-38 | every tool message of the normal form still follows its assistant call |
| Normalize.NormalIsIdempotent | examples/coding-agent/server/internal/modelprovider/preflight/normalize.go:11-51 | normalising twice is normalising once |
| Normalize.DeclaredIsAccepted | examples/coding-agent/server/internal/modelprovider/preflight/normalize.go:27-38 | transcripts whose tool messages name earlier calls are accepted when call identifiers are trimmed |
| Normalize.AcceptedIffObservedTrimmed | examples/coding-agent/server/internal/modelprovider/preflight/normalize.go:27-38 | accepted if and only if every observed identifier trims to a call declared earlier; for transcripts of the runtime, if and only if it is trimmed already or its trimmed form names another earlier call |
| Normalize.ObservationsKeptIffApart | examples/coding-agent/server/internal/modelprovider/preflight/normalize.go:39-45 | every observed call keeps an observation if and only if no two observed identifiers have the same trimmed form |
| UntrimmedCalls.BlankCallIsRefused | examples/coding-agent/server/internal/modelprovider/preflight/normalize.go:28-38 | a reachable thread whose model named a call with a leading blank, whose call the runtime answered, and whose next request is refused |
| UntrimmedCalls.BlankCallIsMerged | examples/coding-agent/server/internal/modelprovider/preflight/normalize.go:28-45 | a reachable thread whose model made two calls that differ in a blank, whose next request is accepted, and whose first answer the normaliser leaves out |
| Preflight.RequestsAreDeclared | agentreact/react_loop.go:154-158 | every transcript handed to a model, by any command on any committed state, is accepted when call identifiers are trimmed |
| Preflight.ProvidersNeverRefuse | agentreact/react_loop.go:154-158 | under every interleaving, whatever a thread's slice hands a model is accepted when call identifiers are trimmed, whether or not the slice is committed |
| RunStream.RunHistory.Append | examples/coding-agent/server/internal/runstream/broker.go:60-70 | numbering, appending and cutting keep the history equal to its log truncated to the limit |
| RunStream.RunHistory.After | examples/coding-agent/server/internal/runstream/broker.go:92-124 | the scan answers a cursor as the unbounded log would |
| RunStream.Broker.Publish | examples/coding-agent/server/internal/runstream/broker.go:47-73 | appends to the log of the event's run only, or rejects and changes no log |
| RunStream.Broker.EventsAfter | examples/coding-agent/server/internal/runstream/broker.go:75-125 | the answer of the log, including runs without history and bad arguments |
| RunStream.RetainedShape | examples/coding-agent/server/internal/runstream/broker.go:58-71 | retained identifiers are contiguous, end with the last one given out, and number min(published, limit) |
| RunStream.AnswerMeans | examples/coding-agent/server/internal/runstream/broker.go:92-124 | invalid iff beyond the latest identifier, expired iff an event after the cursor was dropped, otherwise exactly the suffix |
| EventStream.Send | examples/coding-agent/server/internal/httpapi/handlers_run_events.go:56-61 | writes a prefix and moves the cursor to its last event |
| EventStream.HandleRunEvents | examples/coding-agent/server/internal/httpapi/handlers_run_events.go:34-83 | the body of a response is a span of the log from the requested cursor that reaches to the end of the log at the last answered poll, or stops before the first event that could not be written; it ends only there, at a refused poll, or when the client goes, and if nothing of this happens before, holds everything |
| EventStream.ReadFrames | examples/coding-agent/client/internal/cmd/cmd_events.go:56-87 | reads increasing identifiers, stops at the first that does not increase, and at the first frame it cannot write, which the cursor counts already |
| EventStream.RunEvents | examples/coding-agent/client/internal/cmd/cmd_events.go:44-97 | over all connections the client receives exactly the log between its first and last cursor; it reconnects after every stream that ends properly, having written all of it, and stops only for a refused or interrupted request, a broken stream, a failed write or the end of its context |
| EventStream.ClientHoldsExactSlice | examples/coding-agent/client/internal/cmd/cmd_events.go:46-97 | over every interleaving of publishes, polls, writes, reads, failed writes, disconnects and reconnects the client holds exactly the log between its first and current cursor, and its check for identifiers that do not increase never fires |
| EventStream.RefusedForCause | examples/coding-agent/client/internal/cmd/cmd_events.go:46-54 | opening a stream reports an unknown run or a failed request as it is; otherwise the client is turned away if and only if events it needs are gone or nobody has reached its cursor, and is connected in every other case |
| EventStream.ConnectedClientCatchesUp | examples/coding-agent/server/internal/httpapi/handlers_run_events.go:66-81 | a connected client that is behind by no more than the limit gets everything after one poll |
| EventStream.ReconnectedClientCatchesUp | examples/coding-agent/client/internal/cmd/cmd_events.go:44-97 | a client whose connection is gone reconnects and then holds the whole log, if it is behind by no more than the limit |
| Toolset.ContainsIff | examples/coding-agent/server/internal/toolset/policy.go:190-194 | a token is contained if and only if it stands somewhere in the text |
| Toolset.DeniedIff | examples/coding-agent/server/internal/toolset/policy.go:183-206 | a call is denied if and only if it names a command whose trimmed text holds shell syntax at some position, or does not begin with an allowed word |
| Toolset.SuspendsExactlyWhenDenied | examples/coding-agent/server/internal/toolset/bash.go:22-44 | a call suspends if and only if it is a denied command without override, and the engine accepts the request as it is |
| Toolset.ApprovedCommandRuns | examples/coding-agent/server/internal/toolset/bash.go:104-110 | under the override of its own requirement a denied command runs |
| Toolset.OverrideApprovesNothingElse | examples/coding-agent/server/internal/toolset/bash.go:112-128 | under any other override it is refused, neither run nor suspended |
| Toolset.PermittedRuns | examples/coding-agent/server/internal/toolset/bash.go:17-84 | a call that is not denied runs, override or not, unless its context has ended or it names no command |
| Toolset.FingerprintIff | examples/coding-agent/server/internal/toolset/bash.go:86-102 | under a digest that tells its inputs apart, fingerprints are equal if and only if tool, call, trimmed command and policy are |
| Toolset.ReplayNeverSuspends | agentreact/react_loop.go:414-434 | with this executor a replay never meets a suspend request |
| Toolset.AskedForIsDenied | examples/coding-agent/server/internal/toolset/bash.go:24-40 | a requirement made with this executor stands for a denied command and carries its fingerprint |
| ApprovalGate.DeniedCommandSuspendsItsSlice | examples/coding-agent/server/internal/toolset/bash.go:22-44 | a denied command that the loop hands over without approval is the last call of its slice, which ends suspended on exactly the requirement for that command; only a context that ended can cancel the run instead, with its error, and where no context ends every such slice ends suspended |
| ApprovalGate.DeniedCommandsSuspendEverywhere | examples/coding-agent/server/internal/toolset/bash.go:22-44 | under every interleaving whatever a slice with such a call proposes to save is suspended on that command, or cancelled with the error of a context that ended; without such an end it is always suspended |
| ApprovalGate.ApprovedReplayRuns | agentreact/react_loop.go:414-434 | a replay of a denied command under its own approval replies with what the machine gave for running that call at that moment, and this answer is appended, unless the context ended and the run is cancelled; neither the policy's refusal nor that of a suspend request is reached |
| ApprovalGate.ApprovalRunsTheCommand | examples/coding-agent/server/internal/toolset/bash.go:17-44 | in every legal history approving a bash suspension replays the blocked call; the reply is what the machine under the resumed slice's executor gave for running that very call, and this answer follows the resolution on the transcript, or the context ended and the run was cancelled |
| ApprovalGate.ApprovedCommandsRunEverywhere | agentreact/react_loop.go:124-146 | under every interleaving the same holds of every approved bash suspension in the history of a stored run |
| PolicyLimit.GrantedIsWithinPolicy | examples/coding-agent/server/internal/policylimit/middleware.go:61-90 | granted if and only if what the engine makes of it is positive and within the policy, the implicit default included; not positive if and only if it asks for less than one step |
| PolicyLimit.HistoryWithin | examples/coding-agent/server/internal/policylimit/middleware.go:61-90 | no state of a history driven by granted budgets exceeds the policy |
| PolicyLimit.StepsNeverExceedPolicy | examples/coding-agent/server/internal/httpapi/handlers_run_command.go:61-72 | under every interleaving of commands with granted budgets no stored run's step exceeds the policy |
| HeapStore.CloneValue | agent/tool.go:79-96 | cloning yields the same value on new objects only |
| HeapStore.CloneToolCall | agent/tool.go:68-77 | a cloned call denotes the same call, and its arguments live on new objects only |
| HeapStore.CloneMessage | agent/message.go:24-37 | a cloned message denotes the same message, with calls and requirement on new objects only |
| HeapStore.CloneMessages | agent/message.go:40-46 | a cloned transcript denotes the same messages on a new slice and new objects only |
| HeapStore.CloneRunState | agent/run.go:86-94 | a cloned state denotes the same state on new objects only |
| HeapStore.HeapStore.Save | runstore/inmem/store.go:23-66 | the store over heap states takes the steps of the store over values, on objects nobody else holds |
| HeapStore.HeapStore.Load | runstore/inmem/store.go:68-87 | what is loaded lives on new objects |
| HeapStore.LaterWritesAreInvisible | runstore/inmem/store.go:48-63 | arbitrary later writes to a saved or loaded state change nothing any Load returns |

## Left out

* HTTP routing, request decoding, authentication, request size and time limits, status codes,
  logging, shutdown: plumbing around the modelled calls.
* The validation of tool arguments (agentreact/tool_validation.go): an oracle; it only decides which
  error result is recorded.
* The OpenAI adapter, the mock model and mock tools, and the file tools: oracles behind the engine's
  two interfaces.
* Path resolution and the running of a shell command: decided by the file system and the process.
* The retry policy, the tool registry and the in-memory event sink: easy members; the sink is an
  append-only log.
* The client's prompts, renderer and line parser: user interface and text handling. Why a
  request for a stream fails on its way, or finds no run, is an oracle.
* Nil contexts and nil commands, and pointer payloads: ruled out by the types.
* Nil and empty slices are one value; spare capacity behind a slice is not modelled, so neither is
  aliasing through it.
* Escapes, inside the quoted parts of the resolution message, of unprintable characters other than line
  breaks and tabs.
- ReactLoop.Execute: cancellation is what the context's Err() answers at each check; the time at which a
  running model or tool call is interrupted is the oracle's.
- CommandLocks.RunCommandLocks.Enter: models the moment the mutex is obtained; the waiting itself is the absence of that step.
- Runner.Runner.Dispatch: is one caller's view, with the run's lock free; blocking on a held lock is covered by the
  interleaving machine, not by this method.
