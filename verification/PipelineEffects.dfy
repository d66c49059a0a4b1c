/**
 What every move of the attention pipeline does to the Session: deliveries in order, hooks by name, reviews, exits,
 and the stored conversation (crates/sylvops-daemon/src/daemon.rs:4190-4530 and 4606-4660).
 */
module PipelineEffects {
  import opened Wrappers
  import opened SessionState
  import opened StatusMachine
  import opened CodexBridge
  import opened CodexHooks
  import opened CodexEvents
  import opened AttentionPipeline

  // ----- the bridge's events reach the reducer once each and in order -------------------------------------

  function Inputs(moves: seq<Move>): seq<Input> {
    if moves == [] then []
    else
      var last := moves[|moves| - 1];
      Inputs(moves[..|moves| - 1]) + (if last.Speak? then [last.input] else [])
  }

  /** The events the consumer has taken, in the order it took them. */
  function Taken(resumed: Option<string>, moves: seq<Move>): seq<LifecycleEvent> {
    if moves == [] then []
    else
      var before, last := moves[..|moves| - 1], moves[|moves| - 1];
      Taken(resumed, before) + TakenIn(PipelineRun(resumed, before), last)
  }

  lemma RunSpeaks(inputs: seq<Input>, input: Input)
    ensures BridgeRun(inputs + [input]) == BridgeStep(BridgeRun(inputs), input) && inputs + [] == inputs
  {
    RunOfLonger(inputs, input);
  }

  lemma MoveKeepsBridge(s: Session, move: Move)
    ensures !move.Speak? ==> MoveStep(s, move).bridge == s.bridge
    ensures !move.Speak? && !move.Deliver? ==>
              MoveStep(s, move).queue == s.queue && MoveStep(s, move).consuming == s.consuming
    ensures move.Speak? ==>
              var next := MoveStep(s, move);
              next.bridge == BridgeStep(s.bridge, move.input) && next == s.(bridge := next.bridge, queue := next.queue)
  {
  }

  lemma SpokenEventsAreQueued(s: Session, input: Input)
    requires Consistent(s)
    ensures var next := MoveStep(s, Speak(input));
            s.bridge.emitted <= next.bridge.emitted && next.queue == s.queue + next.bridge.emitted[|s.bridge.emitted|..]
  {
    BridgeStepGrows(s.bridge, input);
  }

  lemma DeliveryTakesTheFirst(s: Session, at: nat)
    ensures var next := MoveStep(s, Deliver(at));
            && next.bridge == s.bridge
            && if s.consuming && s.queue != [] then next.queue == s.queue[1..] else next == s
  {
  }

  /** What the consumer takes in one move. */
  function TakenIn(s: Session, move: Move): seq<LifecycleEvent> {
    if move.Deliver? && s.consuming && s.queue != [] then [s.queue[0]] else []
  }

  lemma SpeakingAccounts(emitted: seq<LifecycleEvent>, later: seq<LifecycleEvent>, taken: seq<LifecycleEvent>,
      queue: seq<LifecycleEvent>)
    requires emitted == taken + queue && emitted <= later
    ensures later == taken + (queue + later[|emitted|..])
  {
  }

  lemma TakingAccounts(taken: seq<LifecycleEvent>, queue: seq<LifecycleEvent>)
    requires queue != []
    ensures taken + queue == (taken + [queue[0]]) + queue[1..]
  {
  }

  lemma MoveAccounts(s: Session, move: Move, taken: seq<LifecycleEvent>)
    requires Consistent(s) && s.bridge.emitted == taken + s.queue
    ensures MoveStep(s, move).bridge.emitted == (taken + TakenIn(s, move)) + MoveStep(s, move).queue
  {
    MoveKeepsBridge(s, move);
    assert taken + [] == taken;
    if move.Speak? {
      SpokenEventsAreQueued(s, move.input);
      SpeakingAccounts(s.bridge.emitted, MoveStep(s, move).bridge.emitted, taken, s.queue);
    } else if move.Deliver? {
      DeliveryTakesTheFirst(s, move.at);
      if s.consuming && s.queue != [] {
        TakingAccounts(taken, s.queue);
      }
    }
  }

  lemma {:induction false} BridgeHearsEverything(resumed: Option<string>, moves: seq<Move>)
    ensures PipelineRun(resumed, moves).bridge == BridgeRun(Inputs(moves))
  {
    if moves != [] {
      var before, last := moves[..|moves| - 1], moves[|moves| - 1];
      BridgeHearsEverything(resumed, before);
      MoveKeepsBridge(PipelineRun(resumed, before), last);
      if last.Speak? {
        RunSpeaks(Inputs(before), last.input);
      } else {
        assert Inputs(before) + [] == Inputs(before);
      }
    }
  }

  lemma {:induction false} TakenAndQueuedIsAll(resumed: Option<string>, moves: seq<Move>)
    ensures PipelineRun(resumed, moves).bridge.emitted == Taken(resumed, moves) + PipelineRun(resumed, moves).queue
  {
    if moves != [] {
      var before, last := moves[..|moves| - 1], moves[|moves| - 1];
      TakenAndQueuedIsAll(resumed, before);
      EveryRunKeepsPromptShown(resumed, before);
      MoveAccounts(PipelineRun(resumed, before), last, Taken(resumed, before));
    }
  }

  /**
   In every run the bridge has heard exactly the messages of the run, and what it ever announced is what the
   consumer has taken, in that order, followed by what is still queued: nothing is dropped, doubled or reordered.
   */
  lemma {:induction false} EveryEventIsTakenOnceInOrder(resumed: Option<string>, moves: seq<Move>)
    ensures var s := PipelineRun(resumed, moves);
            s.bridge == BridgeRun(Inputs(moves)) && s.bridge.emitted == Taken(resumed, moves) + s.queue
  {
    BridgeHearsEverything(resumed, moves);
    TakenAndQueuedIsAll(resumed, moves);
  }

  // ----- what a delivery does ------------------------------------------------------------------------------

  /** The event at the head is dropped once the Session has ended, gives the runtime up, or takes effect. */
  lemma {:induction false} DeliveryTakesEffect(s: Session, at: nat)
    requires Consistent(s) && s.consuming && s.queue != []
    ensures var (rest, e, next) := (s.(queue := s.queue[1..]), s.queue[0], MoveStep(s, Deliver(at)));
            if !LifecycleIsActive(s.persisted.lifecycle) then next == rest
            else if NamesForeign(s.externalId, e.conversation, e.event)
                    || (NeedsNewIdentity(s.machine, e.event) && AtIdentityLimit(s.machine)) then
              next == rest.(consuming := false)
            else
              && Apply(s.machine, e.event, at).Ok?
              && next == rest.(machine := Apply(s.machine, e.event, at).value,
                               persisted := Apply(s.machine, e.event, at).value.status,
                               externalId := if e.conversation.Some? then e.conversation else s.externalId)
  {
    QueueHead(s.bridge.emitted, s.queue);
    if LifecycleIsActive(s.persisted.lifecycle) {
      CommitOutcome(s.(queue := s.queue[1..]), s.queue[0].event, s.queue[0].conversation, at);
    }
  }

  function RunFrom(s: Session, moves: seq<Move>): Session {
    if moves == [] then s else MoveStep(RunFrom(s, moves[..|moves| - 1]), moves[|moves| - 1])
  }

  lemma {:induction false} HooksAndReviewsLeaveQueue(s: Session, moves: seq<Move>)
    requires Consistent(s) && LifecycleIsActive(s.persisted.lifecycle)
    requires forall move | move in moves :: move.Receive? || move.ReviewBy?
    ensures var next := RunFrom(s, moves);
            && Consistent(next) && next.bridge == s.bridge && next.queue == s.queue && next.consuming == s.consuming
            && LifecycleIsActive(next.persisted.lifecycle)
  {
    if moves != [] {
      var last := moves[|moves| - 1];
      assert last in moves;
      var before := RunFrom(s, moves[..|moves| - 1]);
      HooksAndReviewsLeaveQueue(s, moves[..|moves| - 1]);
      MoveKeepsBridge(before, last);
      match last
      case Receive(hook, at) => HookNeverTouchesPrompt(before, hook, at);
      case ReviewBy(id, action) => ReviewKeeps(before, id, action);
    }
  }

  /** What a turn that ended shows: work while a subagent runs or may run, else its own outcome. */
  predicate ShowsEnd(s: Session, before: Machine, status: TurnStatus) {
    match status
    case TurnOk =>
      s.persisted.activity == if before.subagents != {} || before.exhausted then Working else Completed
    case TurnCut => s.persisted.activity == Interrupted
    case _ => s.persisted.activity == Activity.RecoverableFailure && s.machine.failure == Some("provider_unavailable")
  }

  /**
   From the end of a turn to the row. When a settled Session's turn ends on its own, then whatever hooks and reviews
   come in between, delivering the one announced event drains the queue and shows the turn's outcome, unless the
   runtime is given up.
   */
  lemma {:induction false} TurnEndIsShown(s: Session, m: ServerMessage, others: seq<Move>, at: nat)
    requires Consistent(s) && Settled(s) && EndsPlainly(s.bridge, m) && m.turnStatus != OtherStatus
    requires forall move | move in others :: move.Receive? || move.ReviewBy?
    ensures var reached := RunFrom(MoveStep(s, Speak(Backend(m))), others);
            var next := MoveStep(reached, Deliver(at));
            && next.queue == [] && LifecycleIsActive(next.persisted.lifecycle)
            && (next.consuming ==> ShowsEnd(next, reached.machine, m.turnStatus))
  {
    var told := MoveStep(s, Speak(Backend(m)));
    var e := LifecycleEvent(EndEvent(m.turnStatus), s.bridge.tracker.conversation, s.bridge.tracker.turn);
    TurnEndIsAnnouncedByItsStatus(s.bridge, m);
    SpokenEventsAreQueued(s, Backend(m));
    SpeakKeepsConsistent(s, Backend(m));
    assert told.queue == [e];
    HooksAndReviewsLeaveQueue(told, others);
    var reached := RunFrom(told, others);
    DeliveryTakesEffect(reached, at);
    DeliveredEndShows(reached, e.event, m.turnStatus, at);
  }

  lemma DeliveredEndShows(s: Session, event: ProviderEvent, status: TurnStatus, at: nat)
    requires Consistent(s) && LifecycleIsActive(s.persisted.lifecycle) && event == EndEvent(status)
    ensures Apply(s.machine, event, at).Ok? ==>
              var after := Apply(s.machine, event, at).value;
              after.status.lifecycle == Running
              && ShowsEnd(s.(machine := after, persisted := after.status), s.machine, status)
  {
    if Apply(s.machine, event, at).Ok? {
      ApplyKeepsStatusValid(s.machine, event, at);
      ActivityFollowsEvent(s.machine, event, at);
      FailureFollowsEvent(s.machine, event, at);
    }
  }

  // ----- the first prompt of a Session ----------------------------------------------------------------------

  /** A backend message is heard and the one event it announces is delivered. */
  function Exchange(s: Session, m: ServerMessage, at: nat): Session {
    MoveStep(MoveStep(s, Speak(Backend(m))), Deliver(at))
  }

  lemma OneEventIsQueued(s: Session, m: ServerMessage, event: ProviderEvent) returns (told: Session)
    requires Consistent(s) && Settled(s) && s.bridge.alive && s.bridge.tracker.pauseId == None
    requires ToldOf(s.bridge.tracker, m) == Announces([event])
    ensures told == MoveStep(s, Speak(Backend(m))) && Consistent(told)
    ensures told.bridge.alive && FollowsTable(s.bridge.tracker, m, told.bridge.tracker)
    ensures told.queue == [LifecycleEvent(event, told.bridge.tracker.conversation, told.bridge.tracker.turn)]
    ensures told == s.(bridge := told.bridge, queue := told.queue)
  {
    told := MoveStep(s, Speak(Backend(m)));
    BackendStepFollowsTable(s.bridge, m);
    SpokenEventsAreQueued(s, Backend(m));
    SpeakKeepsConsistent(s, Backend(m));
    MoveKeepsBridge(s, Speak(Backend(m)));
  }

  lemma OneEventIsDelivered(s: Session, m: ServerMessage, event: ProviderEvent, at: nat) returns (next: Session)
    requires Consistent(s) && Settled(s) && s.bridge.alive && s.bridge.tracker.pauseId == None
    requires ToldOf(s.bridge.tracker, m) == Announces([event]) && IdentityOf(s.machine.status.attention) == 0
    requires var heard := BridgeStep(s.bridge, Backend(m)).tracker;
             !NamesForeign(s.externalId, heard.conversation, event)
    ensures next == Exchange(s, m, at) && Consistent(next) && Settled(next) && next.bridge.alive
    ensures FollowsTable(s.bridge.tracker, m, next.bridge.tracker)
    ensures Apply(s.machine, event, at).Ok? && next.machine == Apply(s.machine, event, at).value
    ensures next.persisted == next.machine.status
    ensures next.externalId
            == if next.bridge.tracker.conversation.Some? then next.bridge.tracker.conversation else s.externalId
  {
    var told := OneEventIsQueued(s, m, event);
    MoveKeepsBridge(s, Speak(Backend(m)));
    DeliveryTakesEffect(told, at);
    DeliverKeeps(told, at);
    MoveKeepsBridge(told, Deliver(at));
    ApplyKeepsStatusValid(s.machine, event, at);
    next := MoveStep(told, Deliver(at));
  }

  function Said(id: Json, verb: ServerMethod, resultThread: Json, thread: Json, turn: Json): ServerMessage {
    ServerMessage(id, verb, false, resultThread, thread, Missing, turn, OtherStatus, Missing, Missing)
  }

  /** The terminal starts a thread; the backend names it, starts a turn on it and asks for an approval. */
  function FirstPrompt(start: Json, conversation: string, turn: string, id: Json, kind: RequestKind, at: nat)
    : seq<Move>
  {
    var thread := Str(conversation);
    [Speak(Terminal(ClientMessage(start, ThreadStart, None, false))),
     Speak(Backend(Said(start, NoMethod, thread, Missing, Missing))), Deliver(at),
     Speak(Backend(Said(Missing, TurnStartedNote, Missing, thread, Str(turn)))), Deliver(at),
     Speak(Backend(Said(id, Request(kind), Missing, thread, Missing))), Deliver(at)]
  }

  lemma FirstPromptUnfolds(start: Json, conversation: string, turn: string, id: Json, kind: RequestKind, at: nat)
    ensures var s := MoveStep(Launched(None), Speak(Terminal(ClientMessage(start, ThreadStart, None, false))));
            var bound := Exchange(s, Said(start, NoMethod, Str(conversation), Missing, Missing), at);
            var working := Exchange(bound, Said(Missing, TurnStartedNote, Missing, Str(conversation), Str(turn)), at);
            PipelineRun(None, FirstPrompt(start, conversation, turn, id, kind, at))
            == Exchange(working, Said(id, Request(kind), Missing, Str(conversation), Missing), at)
  {
    var moves := FirstPrompt(start, conversation, turn, id, kind, at);
    assert moves[..7] == moves;
    forall n: nat | n < 7 ensures moves[..n + 1][..n] == moves[..n] {
    }
    assert PipelineRun(None, moves[..1]) == MoveStep(PipelineRun(None, moves[..0]), moves[0]);
    assert PipelineRun(None, moves[..2]) == MoveStep(PipelineRun(None, moves[..1]), moves[1]);
    assert PipelineRun(None, moves[..3]) == MoveStep(PipelineRun(None, moves[..2]), moves[2]);
    assert PipelineRun(None, moves[..4]) == MoveStep(PipelineRun(None, moves[..3]), moves[3]);
    assert PipelineRun(None, moves[..5]) == MoveStep(PipelineRun(None, moves[..4]), moves[4]);
    assert PipelineRun(None, moves[..6]) == MoveStep(PipelineRun(None, moves[..5]), moves[5]);
  }

  /** The Session is bound to its conversation, nothing is open and nothing was ever announced to the user. */
  ghost predicate Untold(s: Session, conversation: string) {
    && Consistent(s) && Settled(s) && s.bridge.alive && s.externalId == Some(conversation)
    && s.persisted == SessionStatus(Running, Working, None)
    && s.bridge.tracker.conversation == Some(conversation) && s.bridge.tracker.pauseId == None
    && s.bridge.tracker.pending == {} && s.bridge.tracker.seen == {} && s.bridge.tracker.question == None
  }

  lemma FirstStatus(m: Machine, event: ProviderEvent, at: nat)
    requires Apply(m, event, at).Ok?
    requires m.status == SessionStatus(Running, Inactive, None) || m.status == SessionStatus(Running, Working, None)
    ensures event.TurnStarted? || event.PromptSubmitted? ==>
              Apply(m, event, at).value.status == SessionStatus(Running, Working, None)
    ensures event.InputRequestOpened? ==>
              Apply(m, event, at).value.status
              == SessionStatus(Running, AwaitingInput, Some(AttentionEvent(1, InputRequested, Pending, at)))
  {
  }

  lemma ThreadIsBound(asked: Session, start: Json, conversation: string, m: ServerMessage, at: nat)
    returns (bound: Session)
    requires Consistent(asked) && Settled(asked) && asked.bridge.alive && asked.externalId == None
    requires asked.bridge.tracker == INITIAL.(threadRequests := {start}) && asked.machine == New(Running)
    requires Usable(start) && ValidConversation(conversation)
    requires m == Said(start, NoMethod, Str(conversation), Missing, Missing)
    ensures bound == Exchange(asked, m, at) && Untold(bound, conversation)
  {
    var event := TurnStarted(Some(ConversationIdentity(conversation, Established)));
    bound := OneEventIsDelivered(asked, m, event, at);
    FirstStatus(asked.machine, event, at);
  }

  lemma TurnIsStarted(bound: Session, conversation: string, turn: string, m: ServerMessage, at: nat)
    returns (working: Session)
    requires Untold(bound, conversation) && BoundedText(turn)
    requires m == Said(Missing, TurnStartedNote, Missing, Str(conversation), Str(turn))
    ensures working == Exchange(bound, m, at) && Untold(working, conversation)
    ensures working.bridge.tracker.turn == Some(turn)
  {
    BackendStepFollowsTable(bound.bridge, m);
    working := OneEventIsDelivered(bound, m, PromptSubmitted, at);
    FirstStatus(bound.machine, PromptSubmitted, at);
  }

  lemma ApprovalIsAsked(working: Session, conversation: string, m: ServerMessage, at: nat) returns (next: Session)
    requires Untold(working, conversation) && working.bridge.tracker.turn.Some?
    requires m.verb.Request? && Usable(m.id) && m.turnId == Missing && m.threadId == Str(conversation)
    ensures next == Exchange(working, m, at)
    ensures Settled(next) && Waiting(next.bridge.tracker) && next.externalId == Some(conversation)
    ensures next.persisted
            == SessionStatus(Running, AwaitingInput, Some(AttentionEvent(1, InputRequested, Pending, at)))
  {
    BackendStepFollowsTable(working.bridge, m);
    next := OneEventIsDelivered(working, m, InputRequestOpened, at);
    FirstStatus(working.machine, InputRequestOpened, at);
    assert m.id in next.bridge.tracker.pending;
  }

  /**
   From the start of the Session to its first prompt, whatever the identifiers: the row shows the Session awaiting
   input with the first attention event, pending, stamped with the delivery's time, and the stored conversation is
   the one the backend named.
   */
  lemma {:induction false} FirstPromptIsShown(
    start: Json, conversation: string, turn: string, id: Json, kind: RequestKind, at: nat)
    requires Usable(start) && !IsPauseId(start) && ValidConversation(conversation) && BoundedText(turn) && Usable(id)
    ensures var s := PipelineRun(None, FirstPrompt(start, conversation, turn, id, kind, at));
            && Settled(s) && Waiting(s.bridge.tracker) && s.externalId == Some(conversation)
            && s.persisted
               == SessionStatus(Running, AwaitingInput, Some(AttentionEvent(1, InputRequested, Pending, at)))
  {
    FirstPromptUnfolds(start, conversation, turn, id, kind, at);
    var launched := LaunchIsAtRest(None);
    var asked := ThreadIsAsked(launched, ClientMessage(start, ThreadStart, None, false));
    var bound := ThreadIsBound(
      asked, start, conversation, Said(start, NoMethod, Str(conversation), Missing, Missing), at);
    var working := TurnIsStarted(
      bound, conversation, turn, Said(Missing, TurnStartedNote, Missing, Str(conversation), Str(turn)), at);
    var prompted := ApprovalIsAsked(
      working, conversation, Said(id, Request(kind), Missing, Str(conversation), Missing), at);
  }

  /** A Session is launched at rest: its bridge listens, nothing is open and the row shows a process that runs. */
  lemma {:induction false} LaunchIsAtRest(resumed: Option<string>) returns (s: Session)
    ensures s == Launched(resumed) && Consistent(s) && Settled(s)
    ensures s.bridge.alive && s.bridge.tracker == INITIAL && s.bridge.emitted == []
    ensures s.externalId == resumed && s.machine == New(Running)
    ensures s.persisted == SessionStatus(Running, Inactive, None)
  {
    EveryRunKeepsPromptShown(resumed, []);
    s := PipelineRun(resumed, []);
  }

  lemma ThreadIsAsked(s: Session, m: ClientMessage) returns (next: Session)
    requires Consistent(s) && Settled(s) && s.bridge.alive && s.bridge.tracker == INITIAL
    requires m == ClientMessage(m.id, ThreadStart, None, false) && Usable(m.id) && !IsPauseId(m.id)
    ensures next == MoveStep(s, Speak(Terminal(m))) && Consistent(next) && Settled(next) && next.bridge.alive
    ensures next == s.(bridge := next.bridge) && next.bridge.tracker == INITIAL.(threadRequests := {m.id})
  {
    next := MoveStep(s, Speak(Terminal(m)));
    TerminalStepFollowsTable(s.bridge, m);
    SpokenEventsAreQueued(s, Terminal(m));
    SpeakKeepsConsistent(s, Terminal(m));
    MoveKeepsBridge(s, Speak(Terminal(m)));
  }

  // ----- what a hook does ----------------------------------------------------------------------------------

  /** A payload the daemon understands: identifiers, where present, are valid, and a start names its Session. */
  predicate Understood(p: HookPayload) {
    && (p.sessionId.Str? ==> ValidConversation(p.sessionId.text))
    && (p.turnId.Str? ==> ValidConversation(p.turnId.text))
    && p.name != UnknownHook && p.name != MissingHook
    && (p.name == SessionStart ==> p.sessionId.Str?)
  }

  predicate NamesSubagent(name: HookName) {
    name == SubagentStart || name == SubagentStop
  }

  /**
   Whether a hook takes effect: the Session runs, the hook is understood and neither refused nor from a foreign
   conversation, no identity is wanting, and while a prompt is shown the hook is about a subagent.
   */
  predicate TakesEffect(s: Session, hook: Hook) {
    && s.persisted.lifecycle == Running && !hook.refused && Understood(hook.payload)
    && (s.persisted.activity != AwaitingInput || NamesSubagent(hook.payload.name))
    && !(s.externalId.Some? && hook.payload.sessionId.Str? && hook.payload.sessionId.text != s.externalId.value)
    && !((hook.payload.name == Stop || hook.payload.name == SessionEnd)
         && AnnouncesCompletion(s.machine, hook.payload.name)
         && AtIdentityLimit(s.machine))
  }

  /** The only thing a hook can announce: a completion, with nothing tracked, forgotten or reported. */
  predicate AnnouncesCompletion(m: Machine, name: HookName) {
    && m.subagents == {} && !m.exhausted
    && (if name == Stop then m.status.activity != Completed
        else (m.status.activity == Inactive || m.status.activity == Working)
             && !m.remaining.subagents && !m.remaining.background && !m.remaining.scheduled)
  }

  /** What a hook shows when it takes effect, by its name alone, what was shown and whether work is left. */
  function HookShows(name: HookName, shown: Activity, m: Machine): Activity {
    match name
    case SessionStart => Working
    case UserPromptSubmit => Working
    case PermissionRequest => Working
    case SubagentStart => if shown == AwaitingInput then AwaitingInput else Working
    case Stop => if m.subagents == {} && !m.exhausted then Completed else Working
    case Interrupt => Interrupted
    case SessionEnd => if AnnouncesCompletion(m, SessionEnd) then Completed else shown
    case _ => shown
  }

  /** The subagents tracked after a hook that takes effect. */
  function HookTracks(p: HookPayload, m: Machine): set<string> {
    match p.name
    case SessionStart => {}
    case UserPromptSubmit => {}
    case SubagentStart => if |m.subagents| < 256 then m.subagents + {AgentName(p)} else m.subagents
    case SubagentStop => m.subagents - {AgentName(p)}
    case _ => m.subagents
  }

  function AgentName(p: HookPayload): string {
    if !p.agentId.Str? then "unknown" else if |p.agentId.text| <= 200 then p.agentId.text else p.agentId.text[..200]
  }

  /** Normalizing succeeds exactly for understood payloads, and names the conversation of the payload. */
  lemma {:induction false} NormalizeUnderstands(p: HookPayload)
    ensures Normalize(p).Ok? <==> Understood(p)
    ensures Normalize(p).Ok? ==> Normalize(p).value.conversation == AsStr(p.sessionId)
  {
  }

  lemma HookIdentity(s: Session, p: HookPayload)
    requires Normalize(p).Ok?
    ensures var hook := Normalize(p).value;
            && (NamesForeign(s.externalId, hook.conversation, hook.event)
                <==> s.externalId.Some? && p.sessionId.Str? && p.sessionId.text != s.externalId.value)
            && (!LifecycleIsTerminal(s.machine.status.lifecycle) ==>
                  (NeedsNewIdentity(s.machine, hook.event)
                   <==> (p.name == Stop || p.name == SessionEnd) && AnnouncesCompletion(s.machine, p.name)))
  {
    NormalizeUnderstands(p);
    HooksNeverRaisePrompts(p);
  }

  lemma ConditionKeepsTracked(m: Machine, activity: Activity, reason: Option<Reason>, at: nat)
    requires SetLiveCondition(m, activity, reason, at).Ok?
    ensures SetLiveCondition(m, activity, reason, at).value.subagents == m.subagents
  {
  }

  /** The subagents tracked after an event, on a live machine. */
  lemma EventTracks(m: Machine, event: ProviderEvent, at: nat)
    requires ApplyLive(m, event, at).Ok?
    requires !event.TurnFailed? && !RaisesPrompt(event)
    ensures ApplyLive(m, event, at).value.subagents
            == match event
               case PromptSubmitted => {}
               case TurnStarted(_) => {}
               case SubagentStarted(agent) => Track(m, agent).subagents
               case SubagentStopped(agent) => m.subagents - {agent}
               case _ => m.subagents
  {
  }

  lemma NamesTrack(m: Machine, p: HookPayload)
    requires Normalize(p).Ok?
    ensures HookTracks(p, m) == match Normalize(p).value.event
                                case PromptSubmitted => {}
                                case TurnStarted(_) => {}
                                case SubagentStarted(agent) => Track(m, agent).subagents
                                case SubagentStopped(agent) => m.subagents - {agent}
                                case _ => m.subagents
  {
    assert AgentName(p) == AgentId(p.agentId);
    if p.name == SubagentStart && AgentName(p) in m.subagents {
      assert m.subagents + {AgentName(p)} == m.subagents;
    }
  }

  lemma HookTracked(m: Machine, p: HookPayload, at: nat)
    requires Normalize(p).Ok? && m.status.lifecycle == Running
    requires Apply(m, Normalize(p).value.event, at).Ok?
    ensures Apply(m, Normalize(p).value.event, at).value.subagents == HookTracks(p, m)
  {
    assert m.(status := m.status.(lifecycle := Running)) == m;
    HooksNeverRaisePrompts(p);
    EventTracks(m, Normalize(p).value.event, at);
    NamesTrack(m, p);
  }

  lemma HookShown(m: Machine, p: HookPayload, at: nat)
    requires Normalize(p).Ok? && Validate(m.status).Pass? && m.status.lifecycle == Running
    requires Apply(m, Normalize(p).value.event, at).Ok?
    ensures Apply(m, Normalize(p).value.event, at).value.status.activity == HookShows(p.name, m.status.activity, m)
  {
    ActivityFollowsEvent(m, Normalize(p).value.event, at);
    NamesShow(p, m);
  }

  lemma NamesShow(p: HookPayload, m: Machine)
    requires Normalize(p).Ok?
    ensures var event := Normalize(p).value.event;
            HookShows(p.name, m.status.activity, m) == ShownAfter(m.status.activity, WorkLeft(m, event), event)
  {
  }

  lemma UnderstoodHookCommits(s: Session, hook: Hook, at: nat)
    requires Consistent(s) && Normalize(hook.payload).Ok? && LifecycleIsActive(s.persisted.lifecycle)
    ensures var (p, normalized) := (hook.payload, Normalize(hook.payload).value);
            var r := Commit(s, normalized.event, normalized.conversation, at);
            && (r.Ok? <==> !(s.externalId.Some? && p.sessionId.Str? && p.sessionId.text != s.externalId.value)
                           && !((p.name == Stop || p.name == SessionEnd) && AnnouncesCompletion(s.machine, p.name)
                                && AtIdentityLimit(s.machine)))
            && (r.Ok? ==>
                  && r.value == s.(machine := r.value.machine, persisted := r.value.machine.status,
                                   externalId := r.value.externalId)
                  && r.value.persisted.activity == HookShows(p.name, s.persisted.activity, s.machine)
                  && r.value.machine.subagents == HookTracks(p, s.machine)
                  && r.value.externalId == if p.sessionId.Str? then Some(p.sessionId.text) else s.externalId)
  {
    var normalized := Normalize(hook.payload).value;
    NormalizeUnderstands(hook.payload);
    HookIdentity(s, hook.payload);
    CommitOutcome(s, normalized.event, normalized.conversation, at);
    if Apply(s.machine, normalized.event, at).Ok? {
      HookShown(s.machine, hook.payload, at);
      HookTracked(s.machine, hook.payload, at);
    }
  }

  /**
   What a hook does at any moment: nothing, or exactly what its name says. So a subagent hook gets through while a
   prompt is shown, a stop completes only what is done, and an interruption is not a completion.
   */
  lemma {:induction false} HookTakesEffectExactlyWhen(s: Session, hook: Hook, at: nat)
    requires Consistent(s)
    ensures var next := MoveStep(s, Receive(hook, at));
            if TakesEffect(s, hook) then
              && next == s.(machine := next.machine, persisted := next.machine.status, externalId := next.externalId)
              && next.persisted.activity == HookShows(hook.payload.name, s.persisted.activity, s.machine)
              && next.machine.subagents == HookTracks(hook.payload, s.machine)
              && next.externalId == (if hook.payload.sessionId.Str? then Some(hook.payload.sessionId.text)
                  else s.externalId)
            else next == s
  {
    NormalizeUnderstands(hook.payload);
    if Normalize(hook.payload).Ok? && LifecycleIsActive(s.persisted.lifecycle) {
      UnderstoodHookCommits(s, hook, at);
      GateIsAboutSubagents(s, hook.payload);
    }
  }

  lemma GateIsAboutSubagents(s: Session, p: HookPayload)
    requires Normalize(p).Ok?
    ensures Gated(s, Normalize(p).value.event) <==> s.persisted.activity == AwaitingInput && !NamesSubagent(p.name)
  {
  }

  // ----- what a review and an exit do ------------------------------------------------------------------------

  /** A review acknowledges exactly the named pending event, of a kind the action is for, in row and reducer. */
  lemma {:induction false} ReviewTakesEffect(s: Session, id: AttentionId, action: ReviewAction)
    requires Consistent(s)
    ensures var (next, before) := (MoveStep(s, ReviewBy(id, action)), s.persisted.attention);
            if before.Some? && before.value.id == id && before.value.acknowledgement == Pending
               && (action == Dismissed <==> before.value.reason == Reason.RecoverableFailure) then
              && next == s.(machine := next.machine, persisted := next.persisted)
              && next.persisted == s.persisted.(attention := Some(before.value.(acknowledgement := Acknowledged)))
              && next.machine == s.machine.(status := next.persisted)
            else next == s
  {
    ReviewMovesOneEventForward(s.persisted, id, action);
  }

  /** An exit ends the Session as the exit table says, unless a new event is due and no identity is left. */
  lemma {:induction false} ExitTakesEffect(s: Session, exitCode: Option<int>, stopRequested: bool, at: nat)
    requires Consistent(s)
    ensures var next := MoveStep(s, ProcessExit(exitCode, stopRequested, at));
            var open := OpenReason(s.persisted.attention);
            var ending := EndingAfter(false, exitCode, stopRequested, s.persisted.activity, open);
            if ending.openReason.Some? && open != ending.openReason && AtIdentityLimit(s.machine) then next == s
            else
              && next == s.(machine := next.machine, persisted := next.machine.status)
              && next.persisted.lifecycle == ending.lifecycle && next.persisted.activity == Inactive
              && OpenReason(next.persisted.attention) == ending.openReason && next.machine.failure == ending.failure
  {
    ExitKeepsStatusValid(s.machine, false, exitCode, stopRequested, at);
    if ApplyExit(s.machine, false, exitCode, stopRequested, at).Ok? {
      ExitFollowsTable(s.machine, false, exitCode, stopRequested, at);
    }
  }

  // ----- the stored conversation -------------------------------------------------------------------------------

  lemma MoveKeepsStoredConversation(s: Session, move: Move)
    requires Consistent(s) && s.externalId.Some?
    ensures MoveStep(s, move).externalId == s.externalId
  {
    match move
    case Speak(input) => MoveKeepsBridge(s, move);
    case Deliver(at) =>
      if s.consuming && s.queue != [] {
        QueueHead(s.bridge.emitted, s.queue);
        DeliveryTakesEffect(s, at);
      }
    case Receive(hook, at) => HookTakesEffectExactlyWhen(s, hook, at);
    case ReviewBy(id, action) => ReviewTakesEffect(s, id, action);
    case ProcessExit(code, stop, at) => ExitTakesEffect(s, code, stop, at);
  }

  /**
   Once a conversation is stored it is stored for the rest of every run: neither the backend nor a hook of Codex
   ever clears or resumes one, and a foreign one is refused.
   */
  lemma {:induction false} StoredConversationNeverChanges(resumed: Option<string>, moves: seq<Move>, i: nat)
    requires i <= |moves| && PipelineRun(resumed, moves[..i]).externalId.Some?
    ensures PipelineRun(resumed, moves).externalId == PipelineRun(resumed, moves[..i]).externalId
  {
    if i == |moves| {
      assert moves[..i] == moves;
    } else {
      var before := moves[..|moves| - 1];
      assert before[..i] == moves[..i];
      StoredConversationNeverChanges(resumed, before, i);
      EveryRunKeepsPromptShown(resumed, before);
      MoveKeepsStoredConversation(PipelineRun(resumed, before), moves[|moves| - 1]);
    }
  }

  /** A Session resumed from one conversation whose backend starts another gives the runtime up and keeps the first. */
  lemma {:induction false} ForeignConversationGivesUp(s: Session, e: LifecycleEvent, at: nat)
    requires Consistent(s) && s.consuming && s.queue != [] && s.queue[0] == e
        && LifecycleIsActive(s.persisted.lifecycle)
    requires e.conversation.Some? && s.externalId.Some? && e.conversation != s.externalId
    ensures MoveStep(s, Deliver(at)) == s.(queue := s.queue[1..], consuming := false)
  {
    QueueHead(s.bridge.emitted, s.queue);
    DeliveryTakesEffect(s, at);
  }
}
