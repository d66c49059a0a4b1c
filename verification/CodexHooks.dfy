/**
 Codex lifecycle hooks and the events the daemon makes of them
 (crates/sylvops-daemon/src/provider.rs:1672-1756).
 */
module CodexHooks {
  import opened Wrappers
  import opened StatusMachine
  import opened CodexBridge

  const MAX_AGENT_ID: nat := 200

  /** The ten hooks a Codex profile installs; any other name, and none at all. */
  datatype HookName =
    | SessionStart
    | SessionEnd
    | UserPromptSubmit
    | PermissionRequest
    | PreToolUse
    | PostToolUse
    | SubagentStart
    | SubagentStop
    | Stop
    | Interrupt
    | UnknownHook
    | MissingHook

  datatype HookPayload = HookPayload(name: HookName, sessionId: Json, turnId: Json, agentId: Json)

  datatype NormalizedHook = NormalizedHook(event: ProviderEvent, conversation: Option<string>, turn: Option<string>)

  datatype HookError = InvalidIdentifier | MissingConversation | UnknownEvent | MissingEvent

  /** A string has to be a valid identifier; anything else counts as absent. */
  function Identifier(v: Json): Result<Option<string>, HookError> {
    match AsStr(v)
    case None => Ok(None)
    case Some(text) => if ValidConversation(text) then Ok(Some(text)) else Err(InvalidIdentifier)
  }

  function AgentId(v: Json): (id: string)
    ensures |id| <= MAX_AGENT_ID
  {
    var text := if v.Str? then v.text else "unknown";
    if |text| <= MAX_AGENT_ID then text else text[..MAX_AGENT_ID]
  }

  function EventOf(p: HookPayload, conversation: Option<string>): Result<ProviderEvent, HookError> {
    match p.name
    case SessionStart =>
      if conversation.None? then Err(MissingConversation)
      else Ok(TurnStarted(Some(ConversationIdentity(conversation.value, Established))))
    case SessionEnd => Ok(SessionEnded)
    case UserPromptSubmit => Ok(PromptSubmitted)
    case PermissionRequest => Ok(PermissionCheckStarted)
    case PreToolUse => Ok(ToolStarted)
    case PostToolUse => Ok(ToolCompleted)
    case SubagentStart => Ok(SubagentStarted(AgentId(p.agentId)))
    case SubagentStop => Ok(SubagentStopped(AgentId(p.agentId)))
    case Stop => Ok(TurnStopped(NO_WORK))
    case Interrupt => Ok(TurnInterrupted)
    case UnknownHook => Err(UnknownEvent)
    case MissingHook => Err(MissingEvent)
  }

  function Normalize(p: HookPayload): Result<NormalizedHook, HookError> {
    var conversation :- Identifier(p.sessionId);
    var turn :- Identifier(p.turnId);
    var event :- EventOf(p, conversation);
    Ok(NormalizedHook(event, conversation, turn))
  }

  /** Events that show a prompt whatever was shown before. */
  predicate RaisesPrompt(event: ProviderEvent) {
    event.InputRequestOpened? || event.PermissionRequested? || event.UserInputRequested?
  }

  /**
   No Codex hook becomes an event that shows a prompt: a permission hook only says that a check began.
   A hook starts a turn only as the conversation it names itself, which it never clears or resumes.
   */
  lemma HooksNeverRaisePrompts(p: HookPayload)
    requires Normalize(p).Ok?
    ensures var hook := Normalize(p).value;
            && !RaisesPrompt(hook.event)
            && (hook.event.TurnStarted? ==>
                  hook.conversation.Some?
                  && hook.event.conversation == Some(ConversationIdentity(hook.conversation.value, Established)))
  {
  }
}
