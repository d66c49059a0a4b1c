# Session attention, notification delivery and quiescing of the Sylvops daemon

This project models how the Sylvops daemon decides that an agent Session needs its user, who is told
about it, and how the daemon comes to rest. It proves properties of whole runs under every interleaving.

## What is modelled

The core is a pipeline of four state machines.

- `CodexBridge` is the protocol automaton between the native terminal and the Codex backend
  (`InputTracker`, as a class) with the loop that forwards messages through it. Messages are a datatype
  that keeps exactly the fields the automaton looks at.
- `StatusMachine` with `SessionState` folds events, acknowledgements and process exits into a Session's
  lifecycle, activity and attention (`SessionStatusMachine`, as a class).
- `CodexHooks` is what the daemon makes of the ten Codex hooks.
- `CodexQuestions` says in terms of messages when an asynchronous question closes, and `CodexEvents` what
  every single message announces, refuses and remembers.
- `AttentionPipeline` joins them: backend and terminal messages, the event queue, its consumer, hooks
  behind their gate, reviews and the process exit, in any order. `PipelineEffects` says what each of these
  steps achieves, from the end of a turn to the row.
- `NotificationClaims` is the queue from which clients claim notifications (as a class), and
  `NotificationDelivery` the whole path from a row change to a returned notification, with any number of
  daemon tasks, per-Session locks and every interleaving of their steps, from any rows the database held at
  the start. `NotificationAnnouncements` adds that clients are woken once, `NotificationLosses` why a
  notification may be lost, `NotificationProvenance` that a client is only handed events newer than its
  connection, `NotificationProgress` that a request left to itself gets its answer.
- `PromptNotification` joins the attention pipeline and the delivery in one system.

Beside it stand the two shared counters and five self-contained parts.

- `Lifecycle`: quiescing, its wake-up and the client registration fence, one atomic operation at a time.
- `Capacity`: the Work Source semaphore and its compare-exchange release, likewise.
- `Lineage`: the walk that derives attempt numbers.
- `BrowseCache`: the GitHub cache compared with a timed map over everything ever stored (as a class).
- `Changes`, `PrintedDiff`, `AnyPatch`: reading unified diffs, the round trip with printing them, and what
  reading gives for any text at all.
- `SideBySide`: the split view's alignment.
- `Protocol`: the binary frame codec and the frame stream.

`Text` and `Wrappers` hold UTF-8 lengths, decimal numerals and the usual Option and Result types.

Each class method is proved equal to a specification function over the class's `Model()`; the whole-run
results are lemmas about those functions, and tables that are written without them say what each
operation does: which event, lifecycle, error or byte comes of which input, with the constants spelled out. Every atomic operation of `Lifecycle` and `Capacity` is one
sequentially consistent step; the code asks for acquire and release orderings, which are weaker.

## Where the code and its promises differ

The model follows the code. Each difference but the last has a lemma with a failing input and a lemma
with the exact condition.

- A test promises that only an answer restarts a question. `LeftoverAnswerClosesNextQuestion` is a run in
  which the answer to a question whose turn failed closes the next question unanswered.
  `QuestionClosesExactlyOnUntakenAnswer`: a turn closes the question exactly when some answer, to it or to an
  earlier question, has not been taken by a turn; an earlier one is left over exactly when the question's
  turn failed after it (`QuestionOpensStaleExactlyAfterFailedTurn`).
- The claim counter saturates at 2^64-1, where recorded events can no longer be claimed
  (`SaturatedCounterHidesEvents`); `RecordedEventIsNewExactlyBelowLimit` is the exact condition. By
  `QueueInvariantHolds` no history of fewer than 2^64-1 actions gets there.
- A frame that carries a correlation that is present but nil decodes to one without
  (`NilCorrelationIsLost`, `RoundTripIsExactUnlessNilCorrelation`).
- POSIX lets a printer write an empty unchanged line as an empty line. The diff reader takes it for a
  remark and loses count (`EmptyKeptLineIsMisread`, `RoundTripIsExactWithoutEmptyKept`).
- A file's counts are meant to be those of its lines. The line for which no text is left is counted but not
  shown (`UnshownLineIsCounted`); `CountsAreOfShownRowsExactly` is the exact condition.
- A new attention event is meant to reach the queue whenever somebody may hear of it
  (`NewEventIsQueuedExactlyWhenHeard`). A hook delivery that recovers a Claude Session returns early when its
  audit cannot be written, after the row and before the queue. That event is never recorded and never
  delivered (`AbandonedEventIsNeverRecorded`); later events of the Session are not affected.
- A terminal message that the tracker refuses does not end the bridge: with an identifier it is answered
  with an error and the bridge goes on; only without one does it end. `BridgeStep` does the same.

## Model

| member | source | states |
|---|---|---|
| `AttentionPipeline.OpenPromptIsShown` | crates/sylvops-daemon/src/daemon.rs:4218-4287 | In every run of bridge, queue, consumer, hooks, reviews and exit: once the queue is drained, a live Session with an open prompt is AwaitingInput with an unresolved input event, and reducer and row agree on a valid status. |
| `AttentionPipeline.PromptIsShownExactly` | crates/sylvops-daemon/src/daemon.rs:4218-4457 | In every run, whatever hooks, reviews and exits come in between: a settled Session is AwaitingInput, and has an unresolved input event, if and only if the tracker has a prompt open. |
| `AttentionPipeline.HookNeverTouchesPrompt` | crates/sylvops-daemon/src/daemon.rs:4290-4460 | From every consistent state, whatever Codex hook arrives, it neither shows nor hides a prompt and leaves bridge and queue alone. |
| `AttentionPipeline.GateHoldsBackWhatWouldHide` | crates/sylvops-daemon/src/daemon.rs:4365-4377 | Committed while a prompt is shown, a hook would hide it if and only if it is one of five (session start, prompt, permission, stop, interrupt), and the gate holds back each of them. |
| `CodexHooks.HooksNeverRaisePrompts` | crates/sylvops-daemon/src/provider.rs:1672-1729 | No Codex hook is normalized to an event that shows a prompt, and a turn starts only as the conversation the hook itself names, established. |
| `AttentionPipeline.RuntimeIsGivenUpOnlyFor` | crates/sylvops-daemon/src/daemon.rs:4190-4287 | A delivered event makes the daemon give the runtime up if and only if it names a conversation other than the stored one (and is no turn start marked Cleared or Resumed) or needs an attention identity when none is left; validation and the row never refuse. |
| `AttentionPipeline.CommitOutcome` | crates/sylvops-daemon/src/daemon.rs:4190-4287 | The exact failure condition of committing one event, spelled out over the stored and the named conversation; otherwise the new row, reducer and stored conversation, equal and valid. |
| `AttentionPipeline.MoveKeepsPromptShown` | crates/sylvops-daemon/src/daemon.rs:4218-4457 | Each single move keeps an open prompt shown. |
| `PipelineEffects.TurnEndIsShown` | crates/sylvops-daemon/src/daemon.rs:4218-4287 | When a settled Session's turn ends on its own, then whatever hooks and reviews come in between, delivering the one announced event drains the queue and shows Completed (or Working, with work left), Interrupted or RecoverableFailure as the turn's status says, unless the runtime is given up. |
| `PipelineEffects.FirstPromptIsShown` | crates/sylvops-daemon/src/codex_bridge.rs:338-500 | From the launch of a Session over binding its thread and starting a turn to the first approval request, whatever the identifiers: the row shows AwaitingInput with attention event 1, pending, stamped with the delivery, and the named conversation is stored. |
| `PipelineEffects.LaunchIsAtRest` | crates/sylvops-daemon/src/codex_bridge.rs:322-335 | What a run starts from: a bridge that listens with nothing open, and a row that shows a running process at rest. |
| `PipelineEffects.EveryEventIsTakenOnceInOrder` | crates/sylvops-daemon/src/daemon.rs:4218-4287 | In every run what the bridge announced is what the consumer took, in that order, followed by what is still queued: nothing is dropped, doubled or reordered. |
| `PipelineEffects.DeliveryTakesEffect` | crates/sylvops-daemon/src/daemon.rs:4218-4287 | What one delivery does: dropped after the Session's end, the runtime given up, or the event applied to reducer, row and stored conversation. |
| `PipelineEffects.StoredConversationNeverChanges` | crates/sylvops-daemon/src/daemon.rs:4190-4215 | In every run the stored conversation, once set, stays at every later point: nothing the bridge or a hook says replaces it. |
| `PipelineEffects.ForeignConversationGivesUp` | crates/sylvops-daemon/src/daemon.rs:4190-4287 | Delivering an event that names another conversation gives the runtime up and changes neither row, reducer nor stored conversation. |
| `PipelineEffects.NormalizeUnderstands` | crates/sylvops-daemon/src/provider.rs:1672-1729 | Which hook payloads are understood, for every payload, and whose conversation the result names. |
| `PipelineEffects.HookTakesEffectExactlyWhen` | crates/sylvops-daemon/src/daemon.rs:4290-4460 | For every hook at every moment: when it takes effect, and then the activity it shows, the subagents tracked and the conversation stored, by its name; else nothing changes. Subagent hooks get through while a prompt is shown. |
| `PipelineEffects.ReviewTakesEffect` | crates/sylvops-daemon/src/database.rs:2825-2884 | A review acknowledges exactly the named pending event, of the kind the action is for, in row and reducer, or changes nothing. |
| `PipelineEffects.ExitTakesEffect` | crates/sylvops-daemon/src/daemon.rs:4606-4640 | An exit leaves the lifecycle, open reason and failure of the exit table, unless a new event is due and no identity is left. |
| `CodexBridge.EveryRunKeepsInv` | crates/sylvops-daemon/src/codex_bridge.rs:338-571 | In every interleaving of terminal and backend messages: a prompt is open if and only if the last event emitted is InputRequestOpened, each request opens once, pending requests were seen, and the bounds 128, 4096 and 128 hold. |
| `CodexBridge.ServerStepIsSound` | crates/sylvops-daemon/src/codex_bridge.rs:416-571 | One backend message: whether a prompt is open afterwards is told by the last event it emits, a request key is new when announced, and a bound conversation stays. |
| `CodexBridge.ConversationNeverChanges` | crates/sylvops-daemon/src/codex_bridge.rs:396-414 | Once bound, the conversation is the same at every later point of every run. |
| `CodexBridge.EveryRunKeepsPauseInv` | crates/sylvops-daemon/src/codex_bridge.rs:322-571 | No identifier forwarded from the terminal looks like a pause identifier, and the n-th pause carries the number n. |
| `CodexBridge.PauseIdsAreDistinct` | crates/sylvops-daemon/src/codex_bridge.rs:374-386 | No two pauses of a run share an identifier, so a late answer is never taken for another pause's. |
| `CodexEvents.EveryMessageFollowsTable` | crates/sylvops-daemon/src/codex_bridge.rs:338-571 | In every run every message of either side does what a table over the message's fields says: which events it announces, whether it is refused or ends the bridge, and all that is remembered of it. |
| `CodexEvents.BackendStepFollowsTable` | crates/sylvops-daemon/src/codex_bridge.rs:416-571 | The same for one backend message from every state that keeps the invariant. |
| `CodexEvents.TerminalStepFollowsTable` | crates/sylvops-daemon/src/codex_bridge.rs:338-372 | Which terminal messages are refused, with or without a request pending, and what an accepted one leaves. |
| `CodexEvents.TurnEndIsAnnouncedByItsStatus` | crates/sylvops-daemon/src/codex_bridge.rs:498-530 | The end of the current turn with no question open grows the history by exactly one event of the bound conversation and turn: TurnStopped for completed, TurnInterrupted for interrupted, TurnFailed("provider_unavailable") for failed. |
| `CodexBridge.QuestionClosesExactlyOnAnswer` | crates/sylvops-daemon/src/codex_bridge.rs:434-470 | With a question open and no request pending (with one, every turn is refused), a new turn is accepted if and only if the terminal answered since it opened or an earlier answer was stored then. |
| `CodexBridge.LeftoverAnswerClosesNextQuestion` | crates/sylvops-daemon/src/codex_bridge.rs:434-470 | A concrete run in which an unanswered question is closed by a turn nobody asked for. |
| `CodexQuestions.QuestionClosesExactlyOnUntakenAnswer` | crates/sylvops-daemon/src/codex_bridge.rs:338-470 | In terms of messages: with a question open and no request pending (with one, every turn is refused), a new turn is accepted if and only if some answer of the terminal, to this question or an earlier one, has not been taken by a turn. |
| `CodexQuestions.QuestionOpensStaleExactlyAfterFailedTurn` | crates/sylvops-daemon/src/codex_bridge.rs:434-571 | Which message opened the open question; it is answered if and only if the terminal answered since; it opened with a stored answer if and only if an earlier question was answered, its turn then failed, and no turn took the answer. |
| `CodexBridge.InputTracker.OnClientMessage` | crates/sylvops-daemon/src/codex_bridge.rs:338-372 | Refuses exactly when the specification does, and then leaves the tracker untouched; otherwise its whole new state. |
| `CodexBridge.InputTracker.ConsumePrivateResponse` | crates/sylvops-daemon/src/codex_bridge.rs:374-386 | Fails exactly on an error answer to the current pause whose turn has not finished, and consumes exactly the answers to that pause. |
| `CodexBridge.InputTracker.Bind` | crates/sylvops-daemon/src/codex_bridge.rs:396-414 | Binds once, accepts the same identity again and refuses any other; new state and events as specified. |
| `CodexBridge.InputTracker.OnServerMessage` | crates/sylvops-daemon/src/codex_bridge.rs:416-571 | New state, events and refusal are those of the specification whose runs are proved above. |
| `StatusMachine.ApplyKeepsStatusValid` | crates/sylvops-core/src/status.rs:258-368 | From a valid status with a non-negative time, an event fails if and only if it needs a new identity and none is left; else the next status is valid, extends the history, and has a new identity exactly when one was needed. |
| `StatusMachine.ExitKeepsStatusValid` | crates/sylvops-core/src/status.rs:374-424 | The same for a process exit, which always leaves a terminal lifecycle. |
| `StatusMachine.LiveConditionOutcome` | crates/sylvops-core/src/status.rs:455-507 | The exact outcome of entering a live condition: when it fails, when it announces, that it is valid. |
| `StatusMachine.RunKeepsStatusValid` | crates/sylvops-core/src/status.rs:198-507 | Every run of events, exits, acknowledgements and resolutions from a valid status stays valid. |
| `StatusMachine.AttentionHistoryIsAppendOnly` | crates/sylvops-core/src/status.rs:235-251 | Between any two points of any run: identities never decrease and grow by at most one a step, one identity keeps reason and time, acknowledgement only moves forward. |
| `StatusMachine.ResolvedEventIsNeverRevived` | crates/sylvops-core/src/status.rs:481-515 | A resolved event is never open again under the same identity. |
| `StatusMachine.ActivityFollowsEvent` | crates/sylvops-core/src/status.rs:258-368 | What each of the fifteen events shows, as a table over the activity before and whether work is left, independent of the attention history. |
| `StatusMachine.AttentionFollowsEvent` | crates/sylvops-core/src/status.rs:258-368 | The whole attention after an event: a new pending event of the right reason and time, the old one resolved, or the old one as it was. |
| `StatusMachine.FailureFollowsEvent` | crates/sylvops-core/src/status.rs:258-368 | The failure category after each event, as a table. |
| `StatusMachine.ExitFollowsTable` | crates/sylvops-core/src/status.rs:374-424 | Every exit leaves the lifecycle, open reason and failure category of a table over plain shell, exit code, requested stop, activity and open reason before; it keeps, announces or resolves the event accordingly. |
| `StatusMachine.SettlingResolvesExactlyTheShownInput` | crates/sylvops-core/src/status.rs:439-453 | A confirmed answer to exactly the shown input event resolves it and shows work; any other changes nothing. |
| `StatusMachine.MirroringAcknowledgesExactlyTheNamed` | crates/sylvops-core/src/status.rs:235-251 | A mirrored acknowledgement changes exactly the named event, and only while it is pending. |
| `StatusMachine.CompletionIsAnnouncedOnce` | crates/sylvops-core/src/status.rs:353-424 | After a completion, the Session's end and the process exit, with any exit code, keep the identity and announce nothing more. |
| `StatusMachine.TerminalIsFinal` | crates/sylvops-core/src/status.rs:258-266 | Once the lifecycle is terminal, no sequence of Provider events changes anything. |
| `StatusMachine.BoundedTrackerRefinesIdeal` | crates/sylvops-core/src/status.rs:286-364 | In every run, against an unbounded record kept from the events alone: at most 256 subagents are tracked, all of them running, and all that run unless exhausted, which is so exactly when more than 256 ran at once; the remaining work is the last turn's report since the last prompt; Completed implies that nothing of that record is left. |
| `StatusMachine.CompletionIsShownExactlyWhenNothingIsLeft` | crates/sylvops-core/src/status.rs:326-364 | After any run, a turn that ends, or a Session that ends at rest, is shown as completed if and only if that record, with the turn's own report, has nothing left. |
| `StatusMachine.SessionStatusMachine.ApplyEvent` | crates/sylvops-core/src/status.rs:258-368 | New state and error are those of the specification for all fifteen events. |
| `StatusMachine.SessionStatusMachine.ApplyProcessExit` | crates/sylvops-core/src/status.rs:374-424 | New state and error of an exit. |
| `StatusMachine.SessionStatusMachine.AcknowledgeAttention` | crates/sylvops-core/src/status.rs:235-251 | Acknowledges exactly the named pending event. |
| `StatusMachine.SessionStatusMachine.RenewInputAttention` | crates/sylvops-core/src/status.rs:426-437 | A new input identity even over an open one, only while running. |
| `StatusMachine.SessionStatusMachine.ResolveInputAttention` | crates/sylvops-core/src/status.rs:439-453 | Resolves exactly the named input event. |
| `StatusMachine.SessionStatusMachine.SetLive` | crates/sylvops-core/src/status.rs:455-471 | New state and error of entering a live condition. |
| `StatusMachine.SessionStatusMachine.SetAttentionCondition` | crates/sylvops-core/src/status.rs:481-507 | Keeps an open event with the same reason unless materially new, else takes the next identity or fails without a change. |
| `SessionState.ValidateAcceptsExactlyTheTable` | crates/sylvops-core/src/session_state.rs:178-241 | Validation accepts exactly a table by lifecycle, and its last error arm is unreachable. |
| `SessionState.ValidateReportsExactly` | crates/sylvops-core/src/session_state.rs:178-241 | Which of several faults of a status is reported, for every status. |
| `SessionState.ReviewMovesOneEventForward` | crates/sylvops-daemon/src/database.rs:2825-2884 | When a review is granted (the named event is pending, and dismissing is for recoverable failures, opening for all others), and that it moves exactly that event to Acknowledged, validly, changing nothing else. |
| `SessionState.ClientCatchesUpWithReview` | crates/sylvops-core/src/session_state.rs:143-159 | A client that shows the reviewed status takes over exactly the daemon's result. |
| `SessionState.AcknowledgementLeavesNewerDataAlone` | crates/sylvops-core/src/session_state.rs:142-159 | For every shown status and every review: lifecycle and activity stay, the attention changes if and only if that very event is still shown as pending, newer data is left alone, and validity is kept. |
| `NotificationDelivery.EachEventIsDeliveredAtMostOnce` | crates/sylvops-daemon/src/daemon.rs:4670-4740 | In every history of any number of tasks each (Session, attention id) is recorded at most once and returned at most once over all clients, after its recording and its delay. |
| `NotificationDelivery.DeliveredEventIsCurrent` | crates/sylvops-daemon/src/daemon.rs:4670-4714 | When a notification is returned, that event is the Session's current pending event and no client has the Session in the foreground. |
| `NotificationLosses.NewEventIsQueuedExactlyWhenHeard` | crates/sylvops-daemon/src/daemon.rs:4716-4740 | In every history, a write that gave the Session a new event queues it with its delay if and only if some client is connected and none has the Session in the foreground. |
| `NotificationLosses.EntryLeavesQueueOnlyFor` | crates/sylvops-daemon/src/daemon.rs:116-227 | In every history an entry leaves the queue only into a claiming task's hands, for a new identity or a settled event of its Session, for focus on it, as the oldest of 256 when another new event is queued, or when no connected client could claim it; taken out for its own Session's sake it is one the row no longer shows as pending. |
| `NotificationLosses.HeldEntryIsDroppedOnlyFor` | crates/sylvops-daemon/src/daemon.rs:4670-4714 | An entry in a task's hands is returned to its client unless the row no longer shows it, the Session came to the foreground, or reading the row or the preferences failed. |
| `NotificationLosses.QueueIsBounded` | crates/sylvops-daemon/src/daemon.rs:165-186 | In every history, however long, the queue holds at most 256 entries. |
| `NotificationDelivery.EveryHistoryKeepsInv` | crates/sylvops-daemon/src/daemon.rs:4606-4740 | In every history, writes that never reach the queue included: a recorded event is in one place at most (queued, in one task's hands, delivered), and outside an unfinished write the queue holds only what the rows show, except for Sessions with such a lapsed write. |
| `NotificationLosses.AbandonedEventIsNeverRecorded` | crates/sylvops-daemon/src/daemon.rs:4505-4518 | A new event whose write was left before the queue was told is recorded and delivered in no later history. |
| `NotificationProgress.UndisturbedRequestIsAnswered` | crates/sylvops-daemon/src/daemon.rs:4670-4714 | After every history too short to saturate the counter, a claim request left to itself ends within its 256 rounds and returns the oldest notification its client may have, if and only if there is one. |
| `NotificationProgress.WriteTakesEffect` | crates/sylvops-daemon/src/daemon.rs:4218-4287 | A task that may write changes exactly that row as the reducer does and keeps the lock until the queue is told. |
| `NotificationProgress.ReviewClearsQueue` | crates/sylvops-daemon/src/daemon.rs:3080-3130 | A granted review acknowledges the event in the row and then takes exactly the Session's entry out of the queue. |
| `NotificationProgress.ToldQueueWithoutNews` | crates/sylvops-daemon/src/daemon.rs:4716-4733 | Telling the queue of a write without a new event clears a spent event's entry and leaves a pending one alone. |
| `NotificationProgress.ClientActionsTakeEffect` | crates/sylvops-daemon/src/daemon.rs:1337-1355 | Connecting, disconnecting, focus and blur reach the queue; a Session to be focused must exist and its lock be free. |
| `NotificationProgress.NothingIsToldAtStart` | crates/sylvops-daemon/src/daemon.rs:107-120 | The daemon starts with the rows it finds, no client, nothing queued, recorded or delivered, and clients may connect. |
| `NotificationProvenance.DeliveredEventIsNewToItsClient` | crates/sylvops-daemon/src/daemon.rs:116-204 | In every history each delivered notification stems from an event recorded after its client's last connection before the claim, saturated counter or not. |
| `PromptNotification.EveryRunIsBoth` | crates/sylvops-daemon/src/daemon.rs:4218-4740 | Every run of the system that joins pipeline and delivery is a run of the one and a history of the other, and both views of the Session agree. |
| `PromptNotification.PromptIsQueuedExactlyWhenHeard` | crates/sylvops-daemon/src/daemon.rs:4218-4287 | When a task commits the opening of a prompt, then whatever everyone else does until it tells the queue, the row keeps showing that new event, and an entry for it, due one second later, is queued if and only if a client is connected then and none has the Session in the foreground. |
| `PromptNotification.PromptEntryLeavesOnlyFor` | crates/sylvops-daemon/src/daemon.rs:116-227 | The Session's entry leaves the queue only by a claim, focus, eviction as the oldest of 256, for want of a client that could claim it, or as outdated; while the prompt is open and the consumer has caught up, outdated means reviewed or followed by a later prompt. |
| `NotificationDelivery.QueueInvariantHolds` | crates/sylvops-daemon/src/daemon.rs:115-227 | In every history too short to saturate the counter the claim-queue invariant holds, and the counter is at most the number of actions. |
| `NotificationDelivery.ActKeepsClaimsInv` | crates/sylvops-daemon/src/daemon.rs:115-227 | Each action keeps the claim-queue invariant and advances the counter by at most one. |
| `NotificationClaims.RecordKeepsInv` | crates/sylvops-daemon/src/daemon.rs:148-186 | Recording keeps the queue ordered, at most 256 long, one entry a Session, none in the foreground, each claimable by a registered client. |
| `NotificationClaims.RegisterKeepsInv` | crates/sylvops-daemon/src/daemon.rs:116-120 | Registering keeps that invariant. |
| `NotificationClaims.UnregisterKeepsInv` | crates/sylvops-daemon/src/daemon.rs:121-126 | Unregistering keeps it, dropping what nobody can claim any more. |
| `NotificationClaims.ReportFocusKeepsInv` | crates/sylvops-daemon/src/daemon.rs:127-142 | Focus keeps it, and leaves no entry for the focused Session. |
| `NotificationClaims.ClaimKeepsInv` | crates/sylvops-daemon/src/daemon.rs:188-204 | Claiming keeps it. |
| `NotificationClaims.AnnounceKeepsInv` | crates/sylvops-daemon/src/daemon.rs:205-215 | Announcing keeps it, and an immediate second call reports nothing. |
| `NotificationClaims.AnnouncementReportsExactlyWhatIsDue` | crates/sylvops-daemon/src/daemon.rs:205-215 | For every queue and time the answer is yes if and only if some entry has come due unannounced, and afterwards the entry at each position is announced if and only if it was before or is due. |
| `NotificationClaims.FocusTouchesOnlyItsClient` | crates/sylvops-daemon/src/daemon.rs:127-142 | After a focus or blur report of a registered client: what it shows, what every other client shows as before, and exactly which entries are gone; an unregistered client changes nothing. |
| `NotificationClaims.ConnectingTouchesOnlyItsClient` | crates/sylvops-daemon/src/daemon.rs:116-120 | Connecting sets that client's watermark to the counter, leaves every other client alone, and drops exactly the entries nobody can claim. |
| `NotificationClaims.DisconnectingTouchesOnlyItsClient` | crates/sylvops-daemon/src/daemon.rs:121-126 | Disconnecting forgets that client's watermark and focus, leaves every other client alone, and drops exactly the entries nobody can claim. |
| `NotificationClaims.RecordingReportsSuppression` | crates/sylvops-daemon/src/daemon.rs:148-186 | Recording reports suppression if and only if the event is pending and some client shows the Session. |
| `NotificationClaims.OnlyInputWaits` | crates/sylvops-daemon/src/daemon.rs:165-186 | An input request becomes due after exactly one second, any other event at once. |
| `NotificationAnnouncements.EachEventIsAnnouncedAtMostOnce` | crates/sylvops-daemon/src/daemon.rs:205-215 | In every history, two announcements at any times and with any steps in between never newly mark the same event of the same Session. |
| `NotificationAnnouncements.DueEventIsAnnouncedExactlyOnce` | crates/sylvops-daemon/src/daemon.rs:205-215 | In every history: an event still queued when an announcement finds it due has been announced by then by exactly one announcement, which answered yes. |
| `NotificationClaims.ClaimTakesOldestEligible` | crates/sylvops-daemon/src/daemon.rs:188-204 | A claim takes exactly the oldest due entry newer than the client's watermark, and is empty only when there is none. |
| `NotificationClaims.RecordedEventIsNewExactlyBelowLimit` | crates/sylvops-daemon/src/daemon.rs:165-186 | A recorded event can be claimed by every registered client if and only if none registered at the counter's limit. |
| `NotificationClaims.SaturatedCounterHidesEvents` | crates/sylvops-daemon/src/daemon.rs:165-186 | At the limit an event is queued that its only client can never claim. |
| `NotificationClaims.AttentionNotificationClaims.RegisterClient` | crates/sylvops-daemon/src/daemon.rs:116-120 | The whole new state: a watermark at the current sequence, unclaimable entries gone. |
| `NotificationClaims.AttentionNotificationClaims.UnregisterClient` | crates/sylvops-daemon/src/daemon.rs:121-126 | The whole new state: watermark, focus and unclaimable entries gone. |
| `NotificationClaims.AttentionNotificationClaims.Focus` | crates/sylvops-daemon/src/daemon.rs:127-142 | The whole new state; an unregistered client changes nothing. |
| `NotificationClaims.AttentionNotificationClaims.RecordAt` | crates/sylvops-daemon/src/daemon.rs:152-186 | The whole new state, and whether a client showing the Session suppressed the event. |
| `NotificationClaims.AttentionNotificationClaims.ClaimAt` | crates/sylvops-daemon/src/daemon.rs:192-204 | The whole new state and the entry taken. |
| `NotificationClaims.AttentionNotificationClaims.AnnounceDueEntries` | crates/sylvops-daemon/src/daemon.rs:205-215 | Marks exactly the due entries and reports whether one was newly due. |
| `NotificationClaims.AttentionNotificationClaims.ClaimDeliverable` | crates/sylvops-daemon/src/daemon.rs:4670-4714 | With nothing else touching the queue, 256 attempts find the oldest deliverable notification whenever there is one, and lose no deliverable one. |
| `Lifecycle.NothingRunsWhileQuiesced` | crates/sylvops-daemon/src/daemon.rs:319-394 | In every interleaving the counter is exact, at most one thread owns the flag, and no activity is live while a guard is held. |
| `Lifecycle.NothingRunsAfterCommit` | crates/sylvops-daemon/src/daemon.rs:382-394 | After a guard was committed the flag stays up and no activity is ever live again. |
| `Lifecycle.NoWakeUpIsLost` | crates/sylvops-daemon/src/daemon.rs:341-380 | Whenever a quiescer waits and nothing is counted, its notification has arrived and three steps of its own take the guard, or a thread stands right before sending it. |
| `Lifecycle.RegistrationIsFenced` | crates/sylvops-daemon/src/daemon.rs:1223-1245 | From the moment the registry was found clear until the guard is dropped uncommitted, no other process is registered, connected or able to get past the flag. |
| `Lifecycle.FenceFallsOnlyWithUncommittedGuard` | crates/sylvops-daemon/src/daemon.rs:386-394 | Only dropping an uncommitted guard, or a new survey by a guard's holder, changes the fence. |
| `Lifecycle.RegistryCountsConnections` | crates/sylvops-daemon/src/daemon.rs:5367-5388 | Each registry entry is exactly the number of that process's live connections, and a process is listed if and only if it has one. |
| `Lifecycle.EveryRunKeepsInv` | crates/sylvops-daemon/src/daemon.rs:303-394 | The joint invariant of counter, flag, wake-up, mutex, registry and fence in every interleaving. |
| `Lifecycle.EverythingIsOpenAfterStart` | crates/sylvops-daemon/src/daemon.rs:311-366 | After the start any thread left to itself begins an activity, or takes the guard. |
| `Lifecycle.AnyProcessMayRegisterAfterStart` | crates/sylvops-daemon/src/daemon.rs:5367-5378 | After the start any process registers. |
| `Lifecycle.BeginSucceedsExactlyUnderClearFlag` | crates/sylvops-daemon/src/daemon.rs:319-335 | `begin` left to itself counts one activity and succeeds while the flag is down, and does nothing while it is up. |
| `Lifecycle.LateFlagTurnsBeginBack` | crates/sylvops-daemon/src/daemon.rs:325-333 | A flag raised between the two looks sends the thread back with its count, and the last one wakes whoever waits. |
| `Lifecycle.DroppedActivityIsUncounted` | crates/sylvops-daemon/src/daemon.rs:368-374 | Dropping an activity counts one less, and the last one wakes everyone who waits. |
| `Lifecycle.QuiesceTakesGuardExactlyWhenQuiet` | crates/sylvops-daemon/src/daemon.rs:341-366 | `quiesce` left to itself takes the guard if nothing is counted, waits if something is, and does nothing while another has the flag. |
| `Lifecycle.DeadlineLowersFlag` | crates/sylvops-daemon/src/daemon.rs:355-363 | Giving up on the deadline lowers the flag and wakes everyone. |
| `Lifecycle.DroppedGuardLowersFlag` | crates/sylvops-daemon/src/daemon.rs:386-394 | Dropping an uncommitted guard lowers the flag and the fence and wakes everyone. |
| `Lifecycle.CommittedGuardKeepsFlag` | crates/sylvops-daemon/src/daemon.rs:381-394 | Dropping a committed guard leaves the flag up. |
| `Lifecycle.SurveyFindsExactlyTheRequester` | crates/sylvops-daemon/src/daemon.rs:1223-1245 | The holder of a guard finds the registry clear if and only if no process but the requester is registered. |
| `Lifecycle.RegistrationIsRefusedUnderFlag` | crates/sylvops-daemon/src/daemon.rs:5367-5378 | Registering is refused while the flag is up, and nothing changes. |
| `Lifecycle.RegistrationSucceedsUnderClearFlag` | crates/sylvops-daemon/src/daemon.rs:5367-5378 | Registering while the flag is down counts exactly one more connection of that process. |
| `Lifecycle.ClosingCountsOneLess` | crates/sylvops-daemon/src/daemon.rs:5379-5388 | Closing counts one connection of that process less; the last one takes it out of the registry. |
| `Capacity.CapacityIsConserved` | crates/sylvops-daemon/src/daemon.rs:4947-4966 | Under every interleaving: permits + held + active + releases in flight = maximum + excess, excess leaves no permit, and the active count never exceeds 170 or its startup value. |
| `Capacity.IdleSystemHasExactRoom` | crates/sylvops-daemon/src/daemon.rs:725-730 | With no task under way, permits and excess are again what a daemon started now would compute. |
| `Capacity.ReleaseTakesEffect` | crates/sylvops-daemon/src/daemon.rs:4947-4966 | A release left to itself lowers the excess by one or frees one permit. |
| `Capacity.ExchangeRetriesExactlyWhenBeaten` | crates/sylvops-daemon/src/daemon.rs:4947-4963 | A compare-exchange fails exactly when another release was faster, or spuriously, and then looks again. |
| `Capacity.StartupCountsWhatIsThere` | crates/sylvops-daemon/src/daemon.rs:725-730 | At startup permits and active sources are 170 plus the excess, and only one of permits and excess is positive. |
| `Lineage.SessionAttemptNumber` | crates/sylvops-core/src/domain.rs:288-312 | Some(n) if and only if the Session is linked and reaches a root after n-1 first-match lookups; None if and only if it is unlinked or its chain cycles. |
| `Lineage.WalkEndsOrCycles` | crates/sylvops-core/src/domain.rs:300-311 | The walk cycles if and only if it survives as many lookups as there are links plus one, and if and only if it reaches no root. |
| `Lineage.LongWalkCycles` | crates/sylvops-core/src/domain.rs:300-311 | By pigeonhole, more lookups than links revisit a Session. |
| `Lineage.OneRoundFewerIsTooFew` | crates/sylvops-core/src/domain.rs:300-311 | The round bound is tight for every number of links: the last Session of a chain of n links reaches its root after n lookups and no fewer. |
| `BrowseCache.CachedExactlyWhenRecentAndFresh` | crates/sylvops-daemon/src/github.rs:78-108 | With strictly increasing insertion times a key is cached if and only if it is among the 64 most recently stored and unexpired. |
| `BrowseCache.InsertKeepsSound` | crates/sylvops-daemon/src/github.rs:86-108 | With any times, every entry is the last value stored under its key and there are at most 64. |
| `BrowseCache.InsertKeepsWindow` | crates/sylvops-daemon/src/github.rs:86-108 | Inserting moves the window of the 64 most recent unexpired stores by exactly that store. |
| `BrowseCache.ExpiryKeepsWindow` | crates/sylvops-daemon/src/github.rs:79-84 | Expiry shortens the window to exactly its unexpired part. |
| `BrowseCache.BrowseCache.Get` | crates/sylvops-daemon/src/github.rs:79-84 | A hit if and only if the key was cached and stored at most 60 seconds ago, and then that value; expired entries are gone. |
| `BrowseCache.BrowseCache.Insert` | crates/sylvops-daemon/src/github.rs:86-108 | Keeps the invariant; evicts an oldest entry exactly when a new key finds 64 unexpired ones. |
| `PrintedDiff.RoundTripIsExactWithoutEmptyKept` | crates/sylvops-core/src/changes.rs:245-336 | For every well-formed patch of any number of files within the limits, reading the printed text gives every line's kind, text and numbers and the exact counts if and only if no unchanged line is printed empty. |
| `PrintedDiff.ReadOfPrint` | crates/sylvops-core/src/changes.rs:245-336 | What reading a printed patch gives in every case: empty unchanged lines come back as remarks on neither side; the next file's heading ends a hunk. |
| `PrintedDiff.EmptyKeptLineIsMisread` | crates/sylvops-core/src/changes.rs:276-283 | Every diff of one hunk with one empty unchanged line: the line is read as a remark without numbers instead of line n on both sides. |
| `PrintedDiff.MarkedTruncatedExactlyOverLimits` | crates/sylvops-core/src/changes.rs:262-331 | Any patch at all is marked truncated if and only if it was before or goes over the limits of 4000 lines, 8 KiB a line or 256 KiB of text. |
| `PrintedDiff.ReadableKind` | crates/sylvops-core/src/changes.rs:276-283 | Inside a hunk the first character gives the kind back, even when the content looks like a file header. |
| `PrintedDiff.ClassifierErrsExactlyOnLookalikes` | crates/sylvops-core/src/diff.rs:42-60 | The line classifier alone gets a printed body line's kind right if and only if its content does not complete a file header's marker, which is why the reader looks at the hunk first. |
| `PrintedDiff.HunkHeadFields` | crates/sylvops-core/src/changes.rs:387-389 | The header's start numbers are recovered from any printed header. |
| `PrintedDiff.SplitOfPrint` | crates/sylvops-core/src/changes.rs:261-267 | Splitting a printed text gives its lines back. |
| `AnyPatch.EveryRowFollows` | crates/sylvops-core/src/changes.rs:245-336 | Every row of any patch at all, by the place of its line: the kind by the hunk it stands in, the numbers as that hunk's start plus the lines between, modulo 2^32, the text as what the limits leave; rows are missing only after 4000 of them or 256 KiB. |
| `AnyPatch.CountsAreOfShownRowsExactly` | crates/sylvops-core/src/changes.rs:286-331 | The counts are those of the numbered rows shown if and only if the line for which no text was left is not an added or removed one; they are off by at most one. |
| `AnyPatch.UnshownLineIsCounted` | crates/sylvops-core/src/changes.rs:286-331 | The patches of 32 headers of 8 KiB and one added line: one addition is counted and none is shown. |
| `AnyPatch.ShownRowsAreBoundedAndHarmless` | crates/sylvops-core/src/changes.rs:313-331 | Whatever the patch: at most 4000 rows, 8 KiB each and 256 KiB in all, and no control character but tabs. |
| `AnyPatch.ShownTextIsHarmless` | crates/sylvops-core/src/changes.rs:391-402 | No escaped text holds a control character but tabs, and exactly the texts with such characters are changed. |
| `AnyPatch.CharacterIsShown` | crates/sylvops-core/src/changes.rs:391-402 | How each character is shown: itself, `\r`, `\n`, or `\u{...}` with the hexadecimal numeral of its code. |
| `AnyPatch.SplittingLosesNothing` | crates/sylvops-core/src/changes.rs:261-267 | For any text the pieces hold no newline and put together again are the text, its last line ended. |
| `AnyPatch.ClassifyFollowsTable` | crates/sylvops-core/src/diff.rs:42-60 | Which lines are of which kind outside a hunk, for every line. |
| `AnyPatch.RangeIsRead` | crates/sylvops-core/src/changes.rs:387-389 | A range of sign, digits and whatever follows a comma is read as its number, or refused when that needs more than 32 bits. |
| `AnyPatch.OnlyRangesAreRead` | crates/sylvops-core/src/changes.rs:268-275 | Nothing else is read as a number, and the hunk then starts at 0. |
| `Changes.ReadPatch` | crates/sylvops-core/src/changes.rs:245-336 | The loop computes the specification about which the round trip and the limits are proved. |
| `Changes.NumberLine` | crates/sylvops-core/src/changes.rs:267-312 | Kind, numbers and counts of one line. |
| `Changes.ReadLine` | crates/sylvops-core/src/changes.rs:261-333 | One pass of the loop, with the line cap, the line limit and the text budget. |
| `SideBySide.SplitRows` | crates/sylvops-core/src/changes.rs:352-384 | The loops compute the alignment about which the columns and rows are proved. |
| `SideBySide.ColumnsAreFaithful` | crates/sylvops-core/src/changes.rs:352-384 | The left column read downwards is exactly the lines that are not additions in order, the right one exactly those that are not removals. |
| `SideBySide.EveryRowCorresponds` | crates/sylvops-core/src/changes.rs:351-384 | Each row is one unchanged line beside itself or the n-th removal and the n-th addition of one maximal block of changes; no row is empty on both sides. |
| `Protocol.DecodeOfEncode` | crates/sylvops-core/src/protocol.rs:142-188 | Decoding an encoded frame gives what was sent, under either version policy, or the version error. |
| `Protocol.RoundTripIsExactUnlessNilCorrelation` | crates/sylvops-core/src/protocol.rs:142-283 | decode(encode(f)) = f if and only if the correlation is not an explicit nil. |
| `Protocol.NilCorrelationIsLost` | crates/sylvops-core/src/protocol.rs:142-283 | A concrete frame whose nil correlation is gone after the round trip. |
| `Protocol.EncodeOfDecode` | crates/sylvops-core/src/protocol.rs:204-283 | Every accepted byte string is the encoding of what it decodes to. |
| `Protocol.AcceptedExactlyEncodings` | crates/sylvops-core/src/protocol.rs:204-283 | The accepted byte strings are exactly the encodings of current-version frames. |
| `Protocol.DecodeFollowsTable` | crates/sylvops-core/src/protocol.rs:204-283 | What any byte string is decoded to, by the places of its fields on the wire, big-endian, and which of several faults is reported. |
| `Protocol.EncodeRefusesExactly` | crates/sylvops-core/src/protocol.rs:142-188 | Which frames are refused and why: a nil message identifier, then flags, then more than 1 MiB less the header. |
| `Protocol.ReadFollowsTable` | crates/sylvops-core/src/protocol.rs:308-334 | What the front of any stream is read as, and which error: too large, too short a frame, or the end of the stream. |
| `Protocol.ReadOfEncode` | crates/sylvops-core/src/protocol.rs:308-334 | Reading takes one frame off a stream and leaves the rest. |
| `Protocol.ReadAllOfEncodeAll` | crates/sylvops-core/src/protocol.rs:308-334 | Reading a concatenation of encoded frames gives exactly those frames and leaves nothing. |
| `Protocol.EncodeAllOfReadAll` | crates/sylvops-core/src/protocol.rs:308-334 | A stream that can be read to its end is the concatenation of the encodings of what was read. |
| `Protocol.EncodeFrame` | crates/sylvops-core/src/protocol.rs:142-188 | Appending the fields one by one builds the specified encoding, with the same errors in the same order. |
| `Protocol.DecodeFrameBody` | crates/sylvops-core/src/protocol.rs:235-283 | The cursor decodes exactly as specified by offsets, with the same errors in the same order. |
| `Protocol.TakeByte` | crates/sylvops-core/src/protocol.rs:1079-1083 | Takes the byte at the cursor and advances, or reports a truncated frame. |
| `Protocol.TakeU16` | crates/sylvops-core/src/protocol.rs:1085-1093 | Takes two bytes, big-endian, or reports a truncated frame. |
| `Protocol.TakeU32` | crates/sylvops-core/src/protocol.rs:1095-1103 | Takes four bytes, big-endian, or reports a truncated frame. |
| `Protocol.TakeUuid` | crates/sylvops-core/src/protocol.rs:1105-1113 | Takes sixteen bytes or reports a truncated frame. |
| `Protocol.ReadFrames` | crates/sylvops-core/src/protocol.rs:308-334 | Reading frame by frame gives the specified sequence or the first error. |

## Left out

- Weak memory: every atomic operation is one sequentially consistent step, so reorderings that acquire and release permit are not covered.
- `LifecycleCoordinator`, the registry and the Work Source semaphore as objects: shared between threads, they are state machines over values, and update in place by one thread is not a separate claim.
- The pipeline and the delivery path as objects: rows, locks, queue and tasks are values updated by steps; the three objects inside them are classes of their own.
- Deadlines: the quiescer's deadline is a step that may be taken at any time; task cancellation is not modelled.
- JSON, MessagePack, WebSocket framing, the message size limit and I/O timeouts of the bridge: messages are already parsed and every send succeeds.
- The consumer's queue bound: a bridge that would wait for room is not distinguished from one that runs later.
- Hook authentication, provider mismatch and de-duplication: whether they drop a hook is arbitrary. Hooks of other Providers reach Sessions without a bridge, which the pipeline does not model.
- Requests other than acknowledging, focusing and claiming, the database, git, terminals and processes: I/O.
- Lifecycle changes outside the pipeline (start, disconnect at daemon restart): a run begins at the running process; a Session row may be created and deleted at any unlocked moment.
- `Lifecycle.EveryRunKeepsInv`: asks for fewer than 2^32 threads, since the counter is 32 bits wide and wraps.
- `NotificationDelivery.QueueInvariantHolds`: asks for at most 2^64-1 actions, the point at which the counter saturates; what happens there is stated separately.
- `StatusMachine.ApplyKeepsStatusValid`: asks for a non-negative time, which the daemon's clock helper guarantees.
- `PrintedDiff.RoundTripIsExactWithoutEmptyKept`: line numbers below 2^32, no control characters but tabs; `AnyPatch.EveryRowFollows` covers every other text, but as what is shown, not as what was printed.
- `BrowseCache.BrowseCache.Insert`: among entries of equal age any one may be evicted, as the map's iteration order decides.
- `session_record_can_resume`, the cache's list and item wrappers, search building, syntax tokens and review navigation: easy or presentation only.
- Attachment streaming and terminal resynchronization: they depend on the session actor and the terminal emulator, which are not part of this model.
- The handoff of application mutations: its exclusion rests on the removal of a file.
