/**
 One Codex Session from its native terminal to the database: the bridge emits events into a queue,
 a consumer applies them under the Session lock, and hooks, reviews and the process exit take the
 same lock in between (crates/sylvops-daemon/src/daemon.rs:4050-4290, 4365-4457 and 4578-4650).
 */
module AttentionPipeline {
  import opened Wrappers
  import opened SessionState
  import opened StatusMachine
  import opened CodexBridge
  import opened CodexHooks

  /**
   `machine` is the live reducer, `persisted` the database row; the process runs exactly while the
   row's lifecycle is active. `consuming` turns false when the daemon gives the runtime up.
   */
  datatype Session = Session(
    bridge: Bridge,
    queue: seq<LifecycleEvent>,
    machine: Machine,
    persisted: SessionStatus,
    externalId: Option<string>,
    consuming: bool)

  /** A Codex hook as the daemon received it; `refused` says whether authentication or de-duplication dropped it. */
  datatype Hook = Hook(payload: HookPayload, refused: bool)

  datatype Move =
    | Speak(input: Input)
    | Deliver(at: nat)
    | Receive(hook: Hook, at: nat)
    | ReviewBy(id: AttentionId, action: ReviewAction)
    | ProcessExit(exitCode: Option<int>, stopRequested: bool, at: nat)

  /** A Session whose process was just marked running, new or resumed from an earlier conversation. */
  function Launched(resumed: Option<string>): Session {
    Session(STARTED, [], New(Running), SessionStatus(Running, Inactive, None), resumed, true)
  }

  function TransitionOf(event: ProviderEvent): Option<IdentityTransition> {
    if event.TurnStarted? && event.conversation.Some? then Some(event.conversation.value.transition) else None
  }

  /** The stored conversation identity may be set once and replaced only by an explicit clear or resume. */
  function ExternalIdUpdate(existing: Option<string>, received: Option<string>, transition: Option<IdentityTransition>)
    : Result<Option<string>, ()>
  {
    if received.None? then Ok(existing)
    else if existing.None? || existing == received then Ok(received)
    else if transition == Some(Cleared) || transition == Some(Resumed) then Ok(received)
    else Err(())
  }

  /** The database accepts Provider events only for a running row and a valid running status. */
  predicate RowAccepts(row: SessionStatus, next: SessionStatus) {
    next.lifecycle == Running && Validate(next).Pass? && row.lifecycle == Running
  }

  /** Applies one event to the reducer and the row, or fails without changing either. */
  function Commit(s: Session, event: ProviderEvent, conversation: Option<string>, at: nat): Result<Session, ()> {
    match (ExternalIdUpdate(s.externalId, conversation, TransitionOf(event)), Apply(s.machine, event, at))
    case (Ok(id), Ok(machine)) =>
      if RowAccepts(s.persisted, machine.status)
      then Ok(s.(machine := machine, persisted := machine.status, externalId := id))
      else Err(())
    case _ => Err(())
  }

  function SpeakStep(s: Session, input: Input): Session {
    var bridge := BridgeStep(s.bridge, input);
    s.(bridge := bridge,
       queue := s.queue + (if |s.bridge.emitted| <= |bridge.emitted| then bridge.emitted[|s.bridge.emitted|..] else []))
  }

  function DeliverStep(s: Session, at: nat): Session {
    if !s.consuming || s.queue == [] then s
    else
      var rest := s.(queue := s.queue[1..]);
      if !LifecycleIsActive(s.persisted.lifecycle) then rest
      else
        match Commit(rest, s.queue[0].event, s.queue[0].conversation, at)
        case Ok(next) => next
        case Err(_) => rest.(consuming := false)
  }

  /** While a structured prompt is shown, only subagent bookkeeping gets past the gate. */
  predicate Gated(s: Session, event: ProviderEvent) {
    s.persisted.activity == AwaitingInput && !event.SubagentStarted? && !event.SubagentStopped?
  }

  function ReceiveStep(s: Session, hook: Hook, at: nat): Session {
    if !LifecycleIsActive(s.persisted.lifecycle) then s
    else
      match Normalize(hook.payload)
      case Err(_) => s
      case Ok(normalized) =>
        if Gated(s, normalized.event) || hook.refused then s
        else Taken(s, normalized, at)
  }

  /** A hook behind the gate: it is committed or changes nothing. */
  function Taken(s: Session, hook: NormalizedHook, at: nat): Session {
    match Commit(s, hook.event, hook.conversation, at)
    case Ok(next) => next
    case Err(_) => s
  }

  function ReviewStep(s: Session, id: AttentionId, action: ReviewAction): Session {
    match Review(s.persisted, id, action)
    case Some(reviewed) =>
      s.(persisted := reviewed, machine := Acknowledge(s.machine, id, reviewed.attention.value.reason).0)
    case None => s
  }

  function ExitStep(s: Session, exitCode: Option<int>, stopRequested: bool, at: nat): Session {
    match ApplyExit(s.machine, false, exitCode, stopRequested, at)
    case Ok(machine) => s.(machine := machine, persisted := machine.status)
    case Err(_) => s
  }

  function MoveStep(s: Session, move: Move): Session {
    match move
    case Speak(input) => SpeakStep(s, input)
    case Deliver(at) => DeliverStep(s, at)
    case Receive(hook, at) => ReceiveStep(s, hook, at)
    case ReviewBy(id, action) => ReviewStep(s, id, action)
    case ProcessExit(code, stop, at) => ExitStep(s, code, stop, at)
  }

  function PipelineRun(resumed: Option<string>, moves: seq<Move>): Session {
    if moves == [] then Launched(resumed)
    else MoveStep(PipelineRun(resumed, moves[..|moves| - 1]), moves[|moves| - 1])
  }

  // ----- what every run keeps -------------------------------------------------------------------

  /** The Session runs, the consumer still listens, and it has caught up. */
  predicate Settled(s: Session) {
    LifecycleIsActive(s.persisted.lifecycle) && s.consuming && s.queue == []
  }

  ghost predicate Consistent(s: Session) {
    && BridgeInv(s.bridge)
    && Validate(s.persisted).Pass?
    && s.machine.status == s.persisted
    && (s.persisted.lifecycle == Running || LifecycleIsTerminal(s.persisted.lifecycle))
    && |s.queue| <= |s.bridge.emitted|
    && s.queue == s.bridge.emitted[|s.bridge.emitted| - |s.queue|..]
  }

  /** A settled Session is shown as awaiting input exactly while the tracker has a prompt open. */
  ghost predicate PromptShown(s: Session) {
    Consistent(s) && (Settled(s) ==> (Waiting(s.bridge.tracker) <==> s.persisted.activity == AwaitingInput))
  }

  /** What a bridge step may do to the bridge: events are only appended, and silence changes no prompt. */
  ghost predicate Grows(b: Bridge, next: Bridge) {
    && BridgeInv(next)
    && b.emitted <= next.emitted
    && (next.emitted == b.emitted ==> (Waiting(next.tracker) <==> Waiting(b.tracker)))
  }

  lemma TerminalStepGrows(b: Bridge, m: ClientMessage)
    requires BridgeInv(b)
    ensures Grows(b, TerminalStep(b, m))
  {
    TerminalStepKeepsInv(b, m);
  }

  lemma BackendStepGrows(b: Bridge, m: ServerMessage)
    requires BridgeInv(b)
    ensures Grows(b, BackendStep(b, m))
  {
    BackendStepKeepsInv(b, m);
  }

  lemma BridgeStepGrows(b: Bridge, input: Input)
    requires BridgeInv(b)
    ensures Grows(b, BridgeStep(b, input))
  {
    match input
    case Terminal(m) => TerminalStepGrows(b, m);
    case Backend(m) => BackendStepGrows(b, m);
  }

  lemma QueueStaysSuffix(before: seq<LifecycleEvent>, after: seq<LifecycleEvent>, queue: seq<LifecycleEvent>)
    requires before <= after
    requires |queue| <= |before| && queue == before[|before| - |queue|..]
    ensures var longer := queue + after[|before|..];
            && |longer| <= |after| && longer == after[|after| - |longer|..]
            && (longer == [] ==> queue == [] && after == before)
  {
    var cut := |before| - |queue|;
    assert after == before + after[|before|..];
    assert after[cut..] == before[cut..] + after[|before|..];
  }

  lemma SpeakKeepsConsistent(s: Session, input: Input)
    requires Consistent(s)
    ensures Consistent(SpeakStep(s, input))
    ensures SpeakStep(s, input).queue == [] ==>
              s.queue == [] && (Waiting(SpeakStep(s, input).bridge.tracker) <==> Waiting(s.bridge.tracker))
  {
    BridgeStepGrows(s.bridge, input);
    QueueStaysSuffix(s.bridge.emitted, BridgeStep(s.bridge, input).emitted, s.queue);
  }

  /**
   The event names a conversation other than the stored one, and is not the start of a turn that says that the
   conversation was cleared or resumed.
   */
  predicate NamesForeign(stored: Option<string>, named: Option<string>, event: ProviderEvent) {
    && stored.Some? && named.Some? && named.value != stored.value
    && !(event.TurnStarted? && event.conversation.Some?
         && (event.conversation.value.transition == Cleared || event.conversation.value.transition == Resumed))
  }

  /**
   Committing an event fails exactly for a foreign conversation or for want of an identity: the row is never the
   reason. Otherwise the row mirrors the reducer, and the stored conversation is the named one, if one is named.
   */
  lemma {:induction false} CommitOutcome(s: Session, event: ProviderEvent, conversation: Option<string>, at: nat)
    requires Consistent(s) && LifecycleIsActive(s.persisted.lifecycle)
    ensures Commit(s, event, conversation, at).Err? <==>
              || NamesForeign(s.externalId, conversation, event)
              || (NeedsNewIdentity(s.machine, event) && AtIdentityLimit(s.machine))
    ensures Commit(s, event, conversation, at).Ok? ==>
              && Apply(s.machine, event, at).Ok?
              && var next := Commit(s, event, conversation, at).value;
                 && next == s.(machine := Apply(s.machine, event, at).value,
                               persisted := Apply(s.machine, event, at).value.status,
                               externalId := if conversation.Some? then conversation else s.externalId)
                 && Consistent(next)
  {
    ApplyKeepsStatusValid(s.machine, event, at);
  }

  /** What one event does to the shown activity. */
  lemma ActivityAfter(m: Machine, event: ProviderEvent, at: nat)
    requires Validate(m.status).Pass? && m.status.lifecycle == Running && Apply(m, event, at).Ok?
    ensures var after := Apply(m, event, at).value.status.activity;
            && (event.InputRequestOpened? ==> after == AwaitingInput)
            && (FromTracker(event) && !event.InputRequestOpened? ==> after != AwaitingInput)
            && (event.SubagentStarted? || event.SubagentStopped?
                ==> (after == AwaitingInput <==> m.status.activity == AwaitingInput))
  {
  }

  lemma QueueHead(emitted: seq<LifecycleEvent>, queue: seq<LifecycleEvent>)
    requires queue != [] && |queue| <= |emitted| && queue == emitted[|emitted| - |queue|..]
    ensures queue[1..] == emitted[|emitted| - |queue[1..]|..] && queue[0] in emitted
    ensures queue[1..] == [] ==> queue[0] == emitted[|emitted| - 1]
  {
  }

  /** The event at the head of the queue, applied to the Session that no longer queues it. */
  lemma DeliveredEventShows(rest: Session, e: LifecycleEvent, at: nat)
    requires Consistent(rest) && LifecycleIsActive(rest.persisted.lifecycle) && FromTracker(e.event)
    ensures var r := Commit(rest, e.event, e.conversation, at);
            r.Ok? ==> && Consistent(r.value) && r.value.bridge == rest.bridge
                      && (r.value.persisted.activity == AwaitingInput <==> e.event.InputRequestOpened?)
  {
    CommitOutcome(rest, e.event, e.conversation, at);
    if Commit(rest, e.event, e.conversation, at).Ok? {
      ActivityAfter(rest.machine, e.event, at);
    }
  }

  lemma HeadIsTaken(s: Session) returns (rest: Session)
    requires Consistent(s) && s.queue != []
    ensures rest == s.(queue := s.queue[1..]) && Consistent(rest) && FromTracker(s.queue[0].event)
    ensures rest.queue == [] ==> (Waiting(s.bridge.tracker) <==> s.queue[0].event.InputRequestOpened?)
  {
    QueueHead(s.bridge.emitted, s.queue);
    rest := s.(queue := s.queue[1..]);
  }

  lemma DeliverKeeps(s: Session, at: nat)
    requires Consistent(s)
    ensures Consistent(DeliverStep(s, at))
    ensures s.consuming && s.queue != [] && Settled(DeliverStep(s, at)) ==>
              (Waiting(s.bridge.tracker) <==> DeliverStep(s, at).persisted.activity == AwaitingInput)
  {
    if s.consuming && s.queue != [] {
      var rest := HeadIsTaken(s);
      if LifecycleIsActive(s.persisted.lifecycle) {
        DeliveredEventShows(rest, s.queue[0], at);
      }
    }
  }

  /** Only a raising event turns an activity into AwaitingInput. */
  lemma HookActivity(m: Machine, event: ProviderEvent, at: nat)
    requires Validate(m.status).Pass? && m.status.lifecycle == Running && Apply(m, event, at).Ok?
    requires m.status.activity != AwaitingInput || event.SubagentStarted? || event.SubagentStopped?
    ensures Apply(m, event, at).value.status.activity == AwaitingInput
            <==> RaisesPrompt(event) || m.status.activity == AwaitingInput
  {
  }

  lemma TakenKeeps(s: Session, hook: NormalizedHook, at: nat)
    requires Consistent(s) && LifecycleIsActive(s.persisted.lifecycle)
    requires !Gated(s, hook.event) && !RaisesPrompt(hook.event)
    ensures Consistent(Taken(s, hook, at))
    ensures Taken(s, hook, at).(machine := s.machine, persisted := s.persisted, externalId := s.externalId) == s
    ensures Taken(s, hook, at).persisted.activity == AwaitingInput <==> s.persisted.activity == AwaitingInput
  {
    CommitOutcome(s, hook.event, hook.conversation, at);
    if Commit(s, hook.event, hook.conversation, at).Ok? {
      HookActivity(s.machine, hook.event, at);
    }
  }

  /** Whatever hook arrives at whatever moment, it neither shows nor hides a prompt. */
  lemma {:induction false} HookNeverTouchesPrompt(s: Session, hook: Hook, at: nat)
    requires Consistent(s)
    ensures var next := ReceiveStep(s, hook, at);
            && Consistent(next)
            && next.(machine := s.machine, persisted := s.persisted, externalId := s.externalId) == s
            && (LifecycleIsActive(next.persisted.lifecycle) <==> LifecycleIsActive(s.persisted.lifecycle))
            && (next.persisted.activity == AwaitingInput <==> s.persisted.activity == AwaitingInput)
  {
    if LifecycleIsActive(s.persisted.lifecycle) && Normalize(hook.payload).Ok? {
      HooksNeverRaisePrompts(hook.payload);
      if !Gated(s, Normalize(hook.payload).value.event) {
        TakenKeeps(s, Normalize(hook.payload).value, at);
      }
    }
  }

  /** The hooks that would hide an open prompt if they got past the gate. */
  predicate HidesPrompt(name: HookName) {
    || name.SessionStart? || name.UserPromptSubmit? || name.PermissionRequest? || name.Stop? || name.Interrupt?
  }

  lemma EventsThatHide(payload: HookPayload, workLeft: bool)
    requires Normalize(payload).Ok?
    ensures var event := Normalize(payload).value.event;
            && (ShownAfter(AwaitingInput, workLeft, event) != AwaitingInput <==> HidesPrompt(payload.name))
            && (HidesPrompt(payload.name) ==> !event.SubagentStarted? && !event.SubagentStopped?)
  {
  }

  /**
   What the gate is for: committed while a prompt is shown, a hook hides it exactly when it is one of five.
   Of the others the gate holds back the tool hooks and the Session's end, which would change no activity.
   */
  lemma {:induction false} GateHoldsBackWhatWouldHide(s: Session, payload: HookPayload, at: nat)
    requires Consistent(s) && LifecycleIsActive(s.persisted.lifecycle) && s.persisted.activity == AwaitingInput
    requires Normalize(payload).Ok?
    requires var hook := Normalize(payload).value; Commit(s, hook.event, hook.conversation, at).Ok?
    ensures Taken(s, Normalize(payload).value, at).persisted.activity != AwaitingInput <==> HidesPrompt(payload.name)
    ensures HidesPrompt(payload.name) ==> Gated(s, Normalize(payload).value.event)
  {
    var hook := Normalize(payload).value;
    EventsThatHide(payload, WorkLeft(s.machine, hook.event));
    CommittedShows(s, hook, at);
  }

  lemma CommittedShows(s: Session, hook: NormalizedHook, at: nat)
    requires Consistent(s) && LifecycleIsActive(s.persisted.lifecycle)
    requires Commit(s, hook.event, hook.conversation, at).Ok?
    ensures Taken(s, hook, at).persisted.activity
            == ShownAfter(s.persisted.activity, WorkLeft(s.machine, hook.event), hook.event)
  {
    CommitOutcome(s, hook.event, hook.conversation, at);
    ActivityFollowsEvent(s.machine, hook.event, at);
  }

  lemma ReviewKeeps(s: Session, id: AttentionId, action: ReviewAction)
    requires Consistent(s)
    ensures Consistent(ReviewStep(s, id, action))
    ensures ReviewStep(s, id, action).(machine := s.machine, persisted := s.persisted) == s
    ensures ReviewStep(s, id, action).persisted.activity == s.persisted.activity
    ensures ReviewStep(s, id, action).persisted.lifecycle == s.persisted.lifecycle
  {
    ReviewMovesOneEventForward(s.persisted, id, action);
  }

  lemma ExitKeeps(s: Session, exitCode: Option<int>, stopRequested: bool, at: nat)
    requires Consistent(s)
    ensures Consistent(ExitStep(s, exitCode, stopRequested, at))
    ensures Settled(ExitStep(s, exitCode, stopRequested, at)) ==> ExitStep(s, exitCode, stopRequested, at) == s
  {
    ExitKeepsStatusValid(s.machine, false, exitCode, stopRequested, at);
  }

  lemma {:induction false} MoveKeepsPromptShown(s: Session, move: Move)
    requires PromptShown(s)
    ensures PromptShown(MoveStep(s, move))
  {
    match move
    case Speak(input) => SpeakKeepsConsistent(s, input);
    case Deliver(at) => DeliverKeeps(s, at);
    case Receive(hook, at) => HookNeverTouchesPrompt(s, hook, at);
    case ReviewBy(id, action) => ReviewKeeps(s, id, action);
    case ProcessExit(code, stop, at) => ExitKeeps(s, code, stop, at);
  }

  lemma {:induction false} EveryRunKeepsPromptShown(resumed: Option<string>, moves: seq<Move>)
    ensures PromptShown(PipelineRun(resumed, moves))
  {
    if moves != [] {
      EveryRunKeepsPromptShown(resumed, moves[..|moves| - 1]);
      MoveKeepsPromptShown(PipelineRun(resumed, moves[..|moves| - 1]), moves[|moves| - 1]);
    }
  }

  /**
   Under every interleaving of backend and terminal messages, deliveries, hooks, reviews and exits:
   once the queue has drained, a live Session with an open prompt is shown as awaiting input, by an
   unresolved input event; and the reducer and the database row always agree.
   */
  lemma {:induction false} OpenPromptIsShown(resumed: Option<string>, moves: seq<Move>)
    ensures var s := PipelineRun(resumed, moves);
            && s.machine.status == s.persisted
            && Validate(s.persisted).Pass?
            && (Settled(s) && Waiting(s.bridge.tracker) ==>
                  s.persisted.activity == AwaitingInput && OpenReason(s.persisted.attention) == Some(InputRequested))
  {
    EveryRunKeepsPromptShown(resumed, moves);
  }

  /**
   The converse holds as well: whatever hooks, reviews and exits come in between, a settled Session is shown
   as awaiting input, and has an unresolved input event, if and only if the tracker has a prompt open.
   */
  lemma {:induction false} PromptIsShownExactly(resumed: Option<string>, moves: seq<Move>)
    ensures var s := PipelineRun(resumed, moves);
            Settled(s) ==>
              && (Waiting(s.bridge.tracker) <==> s.persisted.activity == AwaitingInput)
              && (Waiting(s.bridge.tracker) <==> OpenReason(s.persisted.attention) == Some(InputRequested))
  {
    EveryRunKeepsPromptShown(resumed, moves);
    ValidateAcceptsExactlyTheTable(PipelineRun(resumed, moves).persisted);
  }

  /**
   A runtime event makes the daemon give up the Session exactly when it names a conversation other than the stored
   one, or no attention identity is left: validation and the database row never refuse it.
   */
  lemma {:induction false} RuntimeIsGivenUpOnlyFor(resumed: Option<string>, moves: seq<Move>, at: nat)
    ensures var s := PipelineRun(resumed, moves);
            s.consuming && s.queue != [] && LifecycleIsActive(s.persisted.lifecycle) ==>
              var e := s.queue[0];
              (!DeliverStep(s, at).consuming <==>
                 || NamesForeign(s.externalId, e.conversation, e.event)
                 || (NeedsNewIdentity(s.machine, e.event) && AtIdentityLimit(s.machine)))
  {
    EveryRunKeepsPromptShown(resumed, moves);
    var s := PipelineRun(resumed, moves);
    if s.consuming && s.queue != [] && LifecycleIsActive(s.persisted.lifecycle) {
      QueueHead(s.bridge.emitted, s.queue);
      CommitOutcome(s.(queue := s.queue[1..]), s.queue[0].event, s.queue[0].conversation, at);
    }
  }
}
