/**
 What each message does to the bridge, as tables over the tracker and the message's fields: what is announced,
 what is refused, what is forwarded and what is open afterwards
 (crates/sylvops-daemon/src/codex_bridge.rs:205-281 and 338-589).
 */
module CodexEvents {
  import opened Wrappers
  import opened StatusMachine
  import opened CodexBridge

  /** A message ends the bridge, or announces events in this order. */
  datatype Told = Dies | Announces(events: seq<ProviderEvent>)

  predicate OnThread(t: Tracker, m: ServerMessage) {
    t.conversation.Some? && m.threadId == Str(t.conversation.value)
  }

  /** A request of the backend, which nobody would answer if it were not understood. */
  predicate Asks(m: ServerMessage) {
    m.id != Missing && m.verb != NoMethod && m.verb != EmptyMethod
  }

  predicate Responds(m: ServerMessage) {
    m.id != Missing && m.verb == NoMethod
  }

  /** A response to a thread request that names a thread. */
  predicate NamesThread(t: Tracker, m: ServerMessage) {
    Responds(m) && m.id in t.threadRequests && m.resultThread != Missing && m.resultThread != Null
  }

  predicate Usable(id: Json) {
    id.Int? || (id.Str? && BoundedText(id.text))
  }

  /** A turn ends while the question it asked is open: only a failure closes the question. */
  predicate EndsTurn(t: Tracker, m: ServerMessage) {
    OnThread(t, m) && m.verb == TurnCompleted && t.turn == AsStr(m.turn)
  }

  function ToldOf(t: Tracker, m: ServerMessage): Told {
    if Responds(m) then
      if !Usable(m.id) then Dies
      else if !NamesThread(t, m) then Announces([])
      else if !m.resultThread.Str? || !ValidConversation(m.resultThread.text) then Dies
      else if t.conversation == None then
        Announces([TurnStarted(Some(ConversationIdentity(m.resultThread.text, Established)))])
      else if t.conversation == Some(m.resultThread.text) then Announces([])
      else Dies
    else if m.verb == ThreadStartedNote then Announces([])
    else if !OnThread(t, m) then if Asks(m) then Dies else Announces([])
    else
      match m.verb
      case TurnStartedNote =>
        if t.pending != {} || BoundedId(m.turn) == None || (t.question != None && t.answerRequest == None) then Dies
        else if t.question != None then Announces([InputRequestsResolved, PromptSubmitted])
        else Announces([PromptSubmitted])
      case Request(kind) =>
        if !Usable(m.id) || (t.turn == None && kind != Elicitation)
           || (m.turnId.Str? && t.turn != Some(m.turnId.text)) then Dies
        else if m.id in t.pending then Announces([])
        else if m.id in t.seen || |t.seen| >= 4096 || |t.pending| >= 128 then Dies
        else Announces([InputRequestOpened])
      case RequestResolved =>
        if !Usable(m.requestId) then Dies
        else if t.pending == {m.requestId} && t.question == None then Announces([InputRequestsResolved])
        else Announces([])
      case TurnCompleted =>
        if t.turn != AsStr(m.turn) then Announces([])
        else (
          match m.turnStatus
          case TurnOk => Announces(if t.question == None then [TurnStopped(RemainingWork(false, false, false))] else [])
          case TurnCut => Announces(if t.question == None then [TurnInterrupted] else [])
          case TurnBroken => Announces([TurnFailed("provider_unavailable")])
          case OtherStatus => Dies)
      case ItemCompleted(true) =>
        var item := BoundedId(m.item);
        if item == None then Dies
        else if t.question == item then Announces([])
        else if t.question != None || t.turn == None || AsStr(m.turnId) != t.turn
            || t.pauseSequence >= 0xFFFF_FFFF_FFFF_FFFF
        then Dies
        else Announces([InputRequestOpened])
      case _ => if Asks(m) then Dies else Announces([])
  }

  function Tagged(events: seq<ProviderEvent>, conversation: Option<string>, turn: Option<string>)
    : (r: seq<LifecycleEvent>)
    ensures |r| == |events|
  {
    seq(|events|, i requires 0 <= i < |events| => LifecycleEvent(events[i], conversation, turn))
  }

  predicate OpensQuestion(t: Tracker, m: ServerMessage) {
    t.question == None && m.verb == ItemCompleted(true) && ToldOf(t, m) == Announces([InputRequestOpened])
  }

  /** What is open after a message that does not end the bridge, field by field. */
  predicate FollowsTable(t: Tracker, m: ServerMessage, next: Tracker) {
    var onThread := OnThread(t, m) && !Responds(m);
    && next.conversation == (if NamesThread(t, m) then AsStr(m.resultThread) else t.conversation)
    && next.turn == (if onThread && m.verb == TurnStartedNote then AsStr(m.turn) else t.turn)
    && next.threadRequests == (if Responds(m) then t.threadRequests - {m.id} else t.threadRequests)
    && next.seen == (if onThread && m.verb.Request? then t.seen + {m.id} else t.seen)
    && next.pending
       == (if onThread && m.verb.Request? then t.pending + {m.id}
           else if onThread && m.verb == RequestResolved then t.pending - {m.requestId}
           else if EndsTurn(t, m) then {}
           else t.pending)
    && next.question
       == (if onThread && m.verb == TurnStartedNote then None
           else if OpensQuestion(t, m) then AsStr(m.item)
           else if EndsTurn(t, m) && m.turnStatus == TurnBroken then None
           else t.question)
    && next.answerRequest
       == (if onThread && m.verb == TurnStartedNote && t.question != None then None else t.answerRequest)
    && next.questionTurnFinished
       == (if (onThread && m.verb == TurnStartedNote && t.question != None) || OpensQuestion(t, m) then false
           else if EndsTurn(t, m) && t.question != None && m.turnStatus != TurnBroken then true
           else t.questionTurnFinished)
    && next.pauseId
       == (if onThread && m.verb == TurnStartedNote && t.question != None then None
           else if OpensQuestion(t, m) then Some(PauseId(t.pauseSequence + 1))
           else t.pauseId)
  }

  /** Once a question opens, the daemon interrupts the turn that asked it, on its thread. */
  predicate Pauses(t: Tracker, m: ServerMessage, pauses: seq<PauseRequest>) {
    if OpensQuestion(t, m) then
      && t.conversation.Some? && t.turn.Some?
      && pauses == [PauseRequest(PauseId(t.pauseSequence + 1), t.conversation.value, t.turn.value)]
    else pauses == []
  }

  ghost predicate StepFollows(t: Tracker, m: ServerMessage, v: Verdict) {
    && (v.Refused? <==> ToldOf(t, m).Dies?)
    && (v.Accepted? ==>
          && v.events == Tagged(ToldOf(t, m).events, v.next.conversation, v.next.turn)
          && FollowsTable(t, m, v.next)
          && Pauses(t, m, if v.next.pauseRequest.Some? then [v.next.pauseRequest.value] else []))
  }

  lemma TurnStartFollows(t: Tracker, m: ServerMessage)
    requires TrackerInv(t) && OnThread(t, m) && m.verb == TurnStartedNote
    ensures StepFollows(t, m, ServerStep(t, m))
  {
  }

  lemma RequestFollows(t: Tracker, m: ServerMessage)
    requires TrackerInv(t) && OnThread(t, m) && m.verb.Request?
    ensures StepFollows(t, m, ServerStep(t, m))
  {
  }

  lemma ResolutionFollows(t: Tracker, m: ServerMessage)
    requires TrackerInv(t) && OnThread(t, m) && m.verb == RequestResolved
    ensures StepFollows(t, m, ServerStep(t, m))
  {
    if m.requestId in t.pending && t.pending - {m.requestId} == {} {
      assert t.pending == {m.requestId};
    }
  }

  lemma TurnEndFollows(t: Tracker, m: ServerMessage)
    requires TrackerInv(t) && OnThread(t, m) && m.verb == TurnCompleted
    ensures StepFollows(t, m, ServerStep(t, m))
  {
  }

  lemma QuestionFollows(t: Tracker, m: ServerMessage)
    requires TrackerInv(t) && OnThread(t, m) && m.verb.ItemCompleted?
    ensures StepFollows(t, m, ServerStep(t, m))
  {
  }

  lemma BindingFollows(t: Tracker, m: ServerMessage)
    requires TrackerInv(t) && NamesThread(t, m)
    ensures StepFollows(t, m, ServerStep(t, m))
  {
  }

  lemma PlainResponseFollows(t: Tracker, m: ServerMessage)
    requires TrackerInv(t) && Responds(m) && !NamesThread(t, m)
    ensures StepFollows(t, m, ServerStep(t, m))
  {
    if m.id !in t.threadRequests {
      assert t.threadRequests - {m.id} == t.threadRequests;
    }
  }

  lemma OtherMessageFollows(t: Tracker, m: ServerMessage)
    requires TrackerInv(t) && !Responds(m)
    requires !OnThread(t, m) || m.verb == ThreadStartedNote || m.verb == NoMethod || m.verb == EmptyMethod
             || m.verb == UnknownMethod
    ensures StepFollows(t, m, ServerStep(t, m))
  {
  }

  lemma ServerStepFollows(t: Tracker, m: ServerMessage)
    requires TrackerInv(t)
    ensures StepFollows(t, m, ServerStep(t, m))
  {
    if NamesThread(t, m) {
      BindingFollows(t, m);
    } else if Responds(m) {
      PlainResponseFollows(t, m);
    } else if !OnThread(t, m) {
      OtherMessageFollows(t, m);
    } else {
      match m.verb
      case TurnStartedNote => TurnStartFollows(t, m);
      case Request(_) => RequestFollows(t, m);
      case RequestResolved => ResolutionFollows(t, m);
      case TurnCompleted => TurnEndFollows(t, m);
      case ItemCompleted(_) => QuestionFollows(t, m);
      case _ => OtherMessageFollows(t, m);
    }
  }

  // ----- the bridge -----------------------------------------------------------------------------------

  /**
   What a backend message does. An answer to the daemon's own pause is swallowed, and ends the bridge exactly when
   it is an error and the turn has not ended. Any other message ends the bridge, changing nothing else, or is
   forwarded to the terminal, announces the table's events on the bound conversation and turn, and leaves open
   what the table says.
   */
  ghost predicate BackendTable(b: Bridge, m: ServerMessage, next: Bridge) {
    if b.tracker.pauseId.Some? && m.id == Str(b.tracker.pauseId.value) then
      next == b.(alive := !m.hasError || b.tracker.questionTurnFinished)
    else if ToldOf(b.tracker, m).Dies? then
      next == b.(alive := false)
    else
      && next.alive
      && next.emitted == b.emitted + Tagged(ToldOf(b.tracker, m).events, next.tracker.conversation, next.tracker.turn)
      && next.toTerminal == b.toTerminal + [m.id] && next.toBackend == b.toBackend
      && FollowsTable(b.tracker, m, next.tracker)
      && b.pauses <= next.pauses && Pauses(b.tracker, m, next.pauses[|b.pauses|..])
  }

  lemma BackendStepFollowsTable(b: Bridge, m: ServerMessage)
    requires BridgeInv(b) && b.alive
    ensures BackendTable(b, m, BridgeStep(b, Backend(m)))
  {
    ServerStepFollows(b.tracker, m);
  }

  /** What keeps a terminal message from the backend. */
  predicate Refuses(t: Tracker, m: ClientMessage) {
    || IsPauseId(m.id)
    || (t.pending != {} && m.verb != ThreadStart && m.verb != OtherClientMethod)
    || (t.question != None && m.verb == TurnStart
        && (m.inputLength == None || m.inputLength == Some(0) || !Usable(m.id)))
    || ((m.verb == ThreadStart || m.verb == ThreadResume) && !m.ephemeral
        && (|t.threadRequests| >= 128 || !Usable(m.id)))
  }

  /**
   What a terminal message does: it is refused exactly for the reasons above, and then answered with an error if
   it has an identifier and ends the bridge if not; otherwise it is forwarded to the backend, remembered as the
   answer to an open question, or as a thread request, and changes nothing else.
   */
  ghost predicate TerminalTable(b: Bridge, m: ClientMessage, next: Bridge) {
    var thread := (m.verb == ThreadStart || m.verb == ThreadResume) && !m.ephemeral;
    if Refuses(b.tracker, m) then next == b.(alive := m.id != Missing)
    else
      && next.alive && next.toBackend == b.toBackend + [m.id] && next.toTerminal == b.toTerminal
      && next.emitted == b.emitted && next.pauses == b.pauses
      && next.tracker
         == b.tracker.(
              answerRequest := if b.tracker.question != None && m.verb == TurnStart then Some(m.id)
                               else b.tracker.answerRequest,
              threadRequests := b.tracker.threadRequests + if thread then {m.id} else {})
  }

  lemma TerminalStepFollowsTable(b: Bridge, m: ClientMessage)
    requires b.alive
    ensures TerminalTable(b, m, BridgeStep(b, Terminal(m)))
  {
    assert b.tracker.threadRequests + {} == b.tracker.threadRequests;
  }

  /** In every run every message does what its table says, and a bridge that has ended does nothing more. */
  lemma {:induction false} EveryMessageFollowsTable(inputs: seq<Input>, input: Input)
    ensures var (b, next) := (BridgeRun(inputs), BridgeRun(inputs + [input]));
            if !b.alive then next == b
            else
              match input
              case Terminal(m) => TerminalTable(b, m, next)
              case Backend(m) => BackendTable(b, m, next)
  {
    EveryRunKeepsInv(inputs);
    RunOfLonger(inputs, input);
    if BridgeRun(inputs).alive {
      match input
      case Terminal(m) => TerminalStepFollowsTable(BridgeRun(inputs), m);
      case Backend(m) => BackendStepFollowsTable(BridgeRun(inputs), m);
    }
  }

  /** A turn of the bound thread ends on its own, with no question open. */
  predicate EndsPlainly(b: Bridge, m: ServerMessage) {
    && b.alive && m.threadId.Str? && b.tracker.conversation == Some(m.threadId.text)
    && m.verb == TurnCompleted && m.turn.Str? && b.tracker.turn == Some(m.turn.text) && b.tracker.question == None
    && (b.tracker.pauseId == None || m.id != Str(b.tracker.pauseId.value))
  }

  function EndEvent(status: TurnStatus): ProviderEvent {
    match status
    case TurnOk => TurnStopped(RemainingWork(false, false, false))
    case TurnCut => TurnInterrupted
    case _ => TurnFailed("provider_unavailable")
  }

  /** It is announced by exactly one event, which its status alone decides. */
  lemma {:induction false} TurnEndIsAnnouncedByItsStatus(b: Bridge, m: ServerMessage)
    requires BridgeInv(b) && EndsPlainly(b, m) && m.turnStatus != OtherStatus
    ensures var next := BridgeStep(b, Backend(m));
            && next.alive && next.tracker.pending == {}
            && next.emitted
               == b.emitted + [LifecycleEvent(EndEvent(m.turnStatus), b.tracker.conversation, b.tracker.turn)]
  {
    BackendStepFollowsTable(b, m);
  }
}
