/**
 The automaton between the native terminal and the Codex backend
 (crates/sylvops-daemon/src/codex_bridge.rs:192-281 and 322-589).

 Messages are the JSON fields the tracker reads, not JSON text. `Tracker` and the functions over it
 say what each message does, the class ties the mutable tracker to them, and `Bridge` runs the
 forwarding loop around one tracker.
 */
module CodexBridge {
  import opened Wrappers
  import opened Text
  import opened StatusMachine

  const REQUEST_LIMIT: nat := 128
  const REQUEST_ID_LIMIT: nat := 4096
  const MAX_CONVERSATION_ID: nat := 200
  const MAX_BOUNDED_ID: nat := 256
  const PAUSE_PREFIX: string := "sylvops-input-pause-"

  // ----- messages -------------------------------------------------------------------------------

  /** A JSON field: `Int` is a number in the i64 or u64 range, `Other` any other number or a composite. */
  datatype Json = Missing | Null | Str(text: string) | Int(number: int) | Other

  datatype ClientMethod = TurnStart | TurnSteer | ThreadStart | ThreadResume | ThreadFork | OtherClientMethod

  /** `inputLength` is None when `params.input` is not an array. */
  datatype ClientMessage = ClientMessage(id: Json, verb: ClientMethod, inputLength: Option<nat>, ephemeral: bool)

  datatype RequestKind = CommandApproval | FileApproval | PermissionApproval | UserInputTool | Elicitation

  /** `EmptyMethod` is a method field that is not a non-empty string. */
  datatype ServerMethod =
    | NoMethod
    | EmptyMethod
    | ThreadStartedNote
    | TurnStartedNote
    | Request(kind: RequestKind)
    | RequestResolved
    | TurnCompleted
    | ItemCompleted(asyncQuestions: bool)
    | UnknownMethod

  datatype TurnStatus = TurnOk | TurnCut | TurnBroken | OtherStatus

  datatype ServerMessage = ServerMessage(
    id: Json,
    verb: ServerMethod,
    hasError: bool,
    resultThread: Json,
    threadId: Json,
    turnId: Json,
    turn: Json,
    turnStatus: TurnStatus,
    requestId: Json,
    item: Json)

  function AsStr(v: Json): Option<string> {
    if v.Str? then Some(v.text) else None
  }

  predicate BoundedText(s: string) {
    s != "" && Utf8Length(s) <= MAX_BOUNDED_ID && forall c | c in s :: !IsControl(c)
  }

  function BoundedId(v: Json): Option<string> {
    if v.Str? && BoundedText(v.text) then Some(v.text) else None
  }

  /** JSON text is injective on strings and integers, so a usable identifier is its own key. */
  function RequestKey(v: Json): Option<Json> {
    if (v.Str? && BoundedText(v.text)) || v.Int? then Some(v) else None
  }

  predicate ValidConversation(s: string) {
    && 1 <= Utf8Length(s) <= MAX_CONVERSATION_ID
    && forall c | c in s :: 'a' <= c <= 'z' || 'A' <= c <= 'Z' || IsDigit(c) || c == '-' || c == '_'
  }

  predicate IsPauseId(id: Json) {
    id.Str? && PAUSE_PREFIX <= id.text
  }

  function PauseId(sequence: nat): string {
    PAUSE_PREFIX + Decimal(sequence)
  }

  // ----- the tracker ----------------------------------------------------------------------------

  datatype PauseRequest = PauseRequest(id: string, thread: string, turn: string)

  datatype Tracker = Tracker(
    conversation: Option<string>,
    turn: Option<string>,
    pending: set<Json>,
    seen: set<Json>,
    threadRequests: set<Json>,
    question: Option<string>,
    pauseRequest: Option<PauseRequest>,
    pauseId: Option<string>,
    pauseSequence: nat,
    answerRequest: Option<Json>,
    questionTurnFinished: bool)

  const INITIAL := Tracker(None, None, {}, {}, {}, None, None, None, 0, None, false)

  /** A real prompt is open in the native client. */
  predicate Waiting(t: Tracker) {
    t.pending != {} || t.question.Some?
  }

  datatype LifecycleEvent = LifecycleEvent(event: ProviderEvent, conversation: Option<string>, turn: Option<string>)

  function Emit(t: Tracker, event: ProviderEvent): LifecycleEvent {
    LifecycleEvent(event, t.conversation, t.turn)
  }

  /** The next tracker, or None for a refusal. */
  function ClientStep(t: Tracker, m: ClientMessage): Option<Tracker> {
    if IsPauseId(m.id) then None
    else if t.pending != {} && (m.verb.TurnStart? || m.verb.TurnSteer? || m.verb.ThreadResume? || m.verb.ThreadFork?)
        then None
    else if t.question.Some? && m.verb == TurnStart then
      if m.inputLength.None? || m.inputLength.value == 0 || RequestKey(m.id).None? then None
      else Some(t.(answerRequest := RequestKey(m.id)))
    else if !m.ephemeral && (m.verb.ThreadStart? || m.verb.ThreadResume?) then
      if |t.threadRequests| >= REQUEST_LIMIT || RequestKey(m.id).None? then None
      else Some(t.(threadRequests := t.threadRequests + {m.id}))
    else Some(t)
  }

  datatype Verdict = Refused | Accepted(next: Tracker, events: seq<LifecycleEvent>)

  function Quietly(t: Tracker): Verdict {
    Accepted(t, [])
  }

  function Announce(t: Tracker, event: ProviderEvent): Verdict {
    Accepted(t, [Emit(t, event)])
  }

  function BindStep(t: Tracker, identity: Json): Verdict {
    if !identity.Str? || !ValidConversation(identity.text) then Refused
    else if t.conversation.Some? then
      if t.conversation.value == identity.text then Quietly(t) else Refused
    else
      Announce(t.(conversation := Some(identity.text)),
               TurnStarted(Some(ConversationIdentity(identity.text, Established))))
  }

  predicate Named(m: ServerMessage) {
    !m.id.Missing? && !m.verb.NoMethod? && !m.verb.EmptyMethod?
  }

  function ServerStep(t: Tracker, m: ServerMessage): Verdict {
    if m.id != Missing && m.verb == NoMethod then
      var key := RequestKey(m.id);
      if key.None? then Refused
      else if m.id in t.threadRequests then
        var answered := t.(threadRequests := t.threadRequests - {m.id});
        if m.resultThread.Missing? || m.resultThread.Null? then Dispatch(answered, m)
        else BindStep(answered, m.resultThread)
      else Dispatch(t, m)
    else Dispatch(t, m)
  }

  function Dispatch(t: Tracker, m: ServerMessage): Verdict {
    if m.verb == ThreadStartedNote then Quietly(t)
    else if t.conversation.None? || AsStr(m.threadId) != t.conversation then
      if Named(m) then Refused else Quietly(t)
    else
      match m.verb
      case TurnStartedNote => TurnStartedStep(t, m)
      case Request(kind) => RequestStep(t, m, kind)
      case RequestResolved => ResolvedStep(t, m)
      case TurnCompleted => TurnCompletedStep(t, m)
      case ItemCompleted(true) => QuestionStep(t, m)
      case _ => if Named(m) then Refused else Quietly(t)
  }

  function TurnStartedStep(t: Tracker, m: ServerMessage): Verdict {
    var turn := BoundedId(m.turn);
    if t.pending != {} then Refused
    else if t.question.Some? then
      if t.answerRequest.None? || turn.None? then Refused
      else
        var next := t.(answerRequest := None, question := None, pauseId := None, questionTurnFinished := false,
            turn := turn);
        Accepted(next, [Emit(next, InputRequestsResolved), Emit(next, PromptSubmitted)])
    else if turn.None? then Refused
    else Announce(t.(turn := turn), PromptSubmitted)
  }

  function RequestStep(t: Tracker, m: ServerMessage, kind: RequestKind): Verdict {
    if kind != Elicitation && t.turn.None? then Refused
    else if m.turnId.Str? && t.turn != Some(m.turnId.text) then Refused
    else if RequestKey(m.id).None? then Refused
    else if m.id in t.pending then Quietly(t)
    else if |t.seen| >= REQUEST_ID_LIMIT || m.id in t.seen then Refused
    else if |t.pending| >= REQUEST_LIMIT then Refused
    else Announce(t.(seen := t.seen + {m.id}, pending := t.pending + {m.id}), InputRequestOpened)
  }

  function ResolvedStep(t: Tracker, m: ServerMessage): Verdict {
    if RequestKey(m.requestId).None? then Refused
    else
      var next := t.(pending := t.pending - {m.requestId});
      if m.requestId in t.pending && next.pending == {} && t.question.None?
      then Announce(next, InputRequestsResolved)
      else Quietly(next)
  }

  function TurnCompletedStep(t: Tracker, m: ServerMessage): Verdict {
    if t.turn != AsStr(m.turn) then Quietly(t)
    else if t.question.Some? && (m.turnStatus.TurnOk? || m.turnStatus.TurnCut?) then
      Quietly(t.(pending := {}, questionTurnFinished := true))
    else
      var next := t.(pending := {}, question := None);
      match m.turnStatus
      case TurnOk => Announce(next, TurnStopped(NO_WORK))
      case TurnCut => Announce(next, TurnInterrupted)
      case TurnBroken => Announce(next, TurnFailed("provider_unavailable"))
      case OtherStatus => Refused
  }

  function QuestionStep(t: Tracker, m: ServerMessage): Verdict
    requires t.conversation.Some?
  {
    var item := BoundedId(m.item);
    if item.None? then Refused
    else if t.question == item then Quietly(t)
    else if t.question.Some? then Refused
    else if t.turn.None? || AsStr(m.turnId) != t.turn then Refused
    else if t.pauseSequence + 1 > U64_MAX then Refused
    else
      var id := PauseId(t.pauseSequence + 1);
      Announce(
        t.(pauseSequence := t.pauseSequence + 1,
           pauseRequest := Some(PauseRequest(id, t.conversation.value, t.turn.value)),
           pauseId := Some(id),
           question := item,
           questionTurnFinished := false),
        InputRequestOpened)
  }

  /** Whether a backend message answers the daemon's own pause request, and whether it may. */
  predicate AnswersPause(t: Tracker, m: ServerMessage) {
    t.pauseId.Some? && m.id == Str(t.pauseId.value)
  }

  predicate PauseFailed(t: Tracker, m: ServerMessage) {
    AnswersPause(t, m) && m.hasError && !t.questionTurnFinished
  }

  // ----- the forwarding loop --------------------------------------------------------------------

  datatype Input = Terminal(client: ClientMessage) | Backend(server: ServerMessage)

  /**
   One Session's bridge. Beside the tracker it records everything sent: events to the daemon,
   identifiers of messages forwarded each way, and pause requests. `asked` lists the requests
   announced as open; `answered` and `stale` say whether the terminal has answered the open
   question, and whether an earlier answer was still lying around when that question opened.
   */
  datatype Bridge = Bridge(
    tracker: Tracker,
    alive: bool,
    emitted: seq<LifecycleEvent>,
    toBackend: seq<Json>,
    toTerminal: seq<Json>,
    pauses: seq<PauseRequest>,
    asked: seq<Json>,
    answered: bool,
    stale: bool)

  const STARTED := Bridge(INITIAL, true, [], [], [], [], [], false, false)

  function BridgeStep(b: Bridge, input: Input): Bridge {
    if !b.alive then b
    else
      match input
      case Terminal(m) => TerminalStep(b, m)
      case Backend(m) => BackendStep(b, m)
  }

  /** A refused message with an identifier is answered with an error; without one the bridge ends. */
  function TerminalStep(b: Bridge, m: ClientMessage): Bridge {
    match ClientStep(b.tracker, m)
    case Some(next) =>
      b.(tracker := next,
         toBackend := b.toBackend + [m.id],
         answered := b.answered || (b.tracker.question.Some? && m.verb == TurnStart))
    case None => b.(alive := m.id != Missing)
  }

  function BackendStep(b: Bridge, m: ServerMessage): Bridge {
    if AnswersPause(b.tracker, m) then b.(alive := !PauseFailed(b.tracker, m))
    else
      match ServerStep(b.tracker, m)
      case Refused => b.(alive := false)
      case Accepted(next, events) =>
        var opensQuestion := next.question.Some? && b.tracker.question.None?;
        b.(tracker := next.(pauseRequest := None),
           emitted := b.emitted + events,
           toTerminal := b.toTerminal + [m.id],
           pauses := b.pauses + (if next.pauseRequest.Some? then [next.pauseRequest.value] else []),
           asked := b.asked + (if m.verb.Request? && events != [] then [m.id] else []),
           answered := if opensQuestion then false else b.answered,
           stale := if opensQuestion then b.tracker.answerRequest.Some? else b.stale)
  }

  function BridgeRun(inputs: seq<Input>): Bridge {
    if inputs == [] then STARTED else BridgeStep(BridgeRun(inputs[..|inputs| - 1]), inputs[|inputs| - 1])
  }

  // ----- what every run keeps -------------------------------------------------------------------

  ghost predicate Distinct<T(!new)>(s: seq<T>) {
    forall i, j | 0 <= i < j < |s| :: s[i] != s[j]
  }

  /** The only events a tracker ever emits. */
  predicate FromTracker(event: ProviderEvent) {
    || event.InputRequestOpened? || event.InputRequestsResolved? || event.PromptSubmitted?
    || (event.TurnStarted? && event.conversation.Some? && event.conversation.value.transition == Established)
    || event.TurnStopped? || event.TurnInterrupted? || event.TurnFailed?
  }

  ghost predicate TrackerInv(t: Tracker) {
    && |t.pending| <= 128
    && |t.seen| <= 4096
    && |t.threadRequests| <= 128
    && t.pending <= t.seen
    && (Waiting(t) ==> t.conversation.Some?)
    && t.pauseRequest.None?
  }

  ghost predicate BridgeInv(b: Bridge) {
    && TrackerInv(b.tracker)
    && EventsInv(b.tracker, b.emitted)
    && Distinct(b.asked)
    && (forall key :: key in b.asked <==> key in b.tracker.seen)
    && (b.tracker.question.Some? ==> (b.tracker.answerRequest.Some? <==> b.answered || b.stale))
  }

  ghost predicate Numbered(pauses: seq<PauseRequest>, count: nat) {
    |pauses| == count && forall i | 0 <= i < |pauses| :: pauses[i].id == PauseId(i + 1)
  }

  /** The terminal never speaks for the daemon, and the daemon's pauses are numbered from one. */
  ghost predicate PauseInv(b: Bridge) {
    && (forall id | id in b.toBackend :: !IsPauseId(id))
    && Numbered(b.pauses, b.tracker.pauseSequence)
    && (b.tracker.question.Some? ==> b.tracker.pauseId.Some?)
    && (b.tracker.pauseId.Some? ==> b.tracker.pauseId.value == PauseId(b.tracker.pauseSequence))
    && b.tracker.pauseRequest.None?
  }

  /** A terminal message touches only the thread requests and the pending answer. */
  lemma ClientStepTouches(t: Tracker, m: ClientMessage)
    requires TrackerInv(t) && ClientStep(t, m).Some?
    ensures var next := ClientStep(t, m).value;
            && TrackerInv(next) && !IsPauseId(m.id)
            && next == t.(threadRequests := next.threadRequests, answerRequest := next.answerRequest)
            && (next.answerRequest != t.answerRequest || (t.question.Some? && m.verb == TurnStart) ==>
                  t.question.Some? && m.verb == TurnStart && next.answerRequest.Some?)
  {
  }

  lemma TerminalStepKeepsInv(b: Bridge, m: ClientMessage)
    requires BridgeInv(b)
    ensures BridgeInv(TerminalStep(b, m))
  {
    if ClientStep(b.tracker, m).Some? {
      ClientStepTouches(b.tracker, m);
    }
  }

  /** What one accepted backend message may do to the tracker. */
  ghost predicate Sound(t: Tracker, m: ServerMessage, v: Verdict) {
    v.Accepted? ==>
      && var asks := m.verb.Request? && v.events != [];
      && TrackerInv(v.next.(pauseRequest := None))
      && (t.conversation.Some? ==> v.next.conversation == t.conversation)
      && (Waiting(v.next) <==> if v.events == [] then Waiting(t)
          else v.events[|v.events| - 1].event == InputRequestOpened)
      && (forall e | e in v.events :: FromTracker(e.event))
      && (asks ==> m.id !in t.seen && v.next.seen == t.seen + {m.id})
      && (!asks ==> v.next.seen == t.seen)
      && (v.next.question.Some? ==> v.next.answerRequest == t.answerRequest)
      && (v.next.question.Some? && t.question.Some? ==> v.next.question == t.question)
  }

  lemma TurnMessagesAreSound(t: Tracker, m: ServerMessage)
    requires TrackerInv(t) && t.conversation.Some?
    ensures m.verb == TurnStartedNote ==> Sound(t, m, TurnStartedStep(t, m))
    ensures m.verb == TurnCompleted ==> Sound(t, m, TurnCompletedStep(t, m))
  {
  }

  lemma RequestIsSound(t: Tracker, m: ServerMessage)
    requires TrackerInv(t) && t.conversation.Some? && m.verb.Request?
    ensures Sound(t, m, RequestStep(t, m, m.verb.kind))
  {
    if m.id !in t.seen {
      SizeOfAdding(t.seen, m.id);
      SizeOfAdding(t.pending, m.id);
    }
  }

  lemma ResolutionIsSound(t: Tracker, m: ServerMessage)
    requires TrackerInv(t) && t.conversation.Some? && m.verb == RequestResolved
    ensures Sound(t, m, ResolvedStep(t, m))
  {
    SizeOfRemoving(t.pending, m.requestId);
  }

  lemma SizeOfAdding<T>(s: set<T>, x: T)
    ensures |s + {x}| <= |s| + 1
  {
  }

  lemma SizeOfRemoving<T>(s: set<T>, x: T)
    ensures |s - {x}| <= |s|
  {
    if x in s {
      assert s == (s - {x}) + {x};
    } else {
      assert s - {x} == s;
    }
  }

  lemma QuestionMessagesAreSound(t: Tracker, m: ServerMessage)
    requires TrackerInv(t) && t.conversation.Some? && m.verb.ItemCompleted?
    ensures Sound(t, m, QuestionStep(t, m))
  {
  }

  lemma DispatchIsSound(t: Tracker, m: ServerMessage)
    requires TrackerInv(t)
    ensures Sound(t, m, Dispatch(t, m))
  {
    if t.conversation.Some? {
      TurnMessagesAreSound(t, m);
      match m.verb
      case Request(_) => RequestIsSound(t, m);
      case RequestResolved => ResolutionIsSound(t, m);
      case ItemCompleted(_) => QuestionMessagesAreSound(t, m);
      case _ =>
    }
  }

  lemma {:induction false} ServerStepIsSound(t: Tracker, m: ServerMessage)
    requires TrackerInv(t)
    ensures Sound(t, m, ServerStep(t, m))
  {
    DispatchIsSound(t, m);
    SizeOfRemoving(t.threadRequests, m.id);
    if m.id in t.threadRequests {
      DispatchIsSound(t.(threadRequests := t.threadRequests - {m.id}), m);
    }
  }

  /** What the history keeps says of the events sent so far. */
  ghost predicate EventsInv(t: Tracker, emitted: seq<LifecycleEvent>) {
    && (Waiting(t) <==> emitted != [] && emitted[|emitted| - 1].event == InputRequestOpened)
    && (forall e | e in emitted :: FromTracker(e.event))
  }

  lemma AcceptedKeepsEvents(b: Bridge, m: ServerMessage, v: Verdict)
    requires EventsInv(b.tracker, b.emitted) && v.Accepted? && Sound(b.tracker, m, v)
    ensures EventsInv(v.next, b.emitted + v.events)
  {
  }

  lemma AcceptedKeepsAsked(b: Bridge, m: ServerMessage, v: Verdict, asked: seq<Json>)
    requires Distinct(b.asked) && (forall key :: key in b.asked <==> key in b.tracker.seen)
    requires v.Accepted? && Sound(b.tracker, m, v)
    requires asked == b.asked + (if m.verb.Request? && v.events != [] then [m.id] else [])
    ensures Distinct(asked) && forall key :: key in asked <==> key in v.next.seen
  {
  }

  lemma BackendStepKeepsInv(b: Bridge, m: ServerMessage)
    requires BridgeInv(b)
    ensures BridgeInv(BackendStep(b, m))
  {
    var v := ServerStep(b.tracker, m);
    if !AnswersPause(b.tracker, m) && v.Accepted? {
      ServerStepIsSound(b.tracker, m);
      AcceptedKeepsEvents(b, m, v);
      AcceptedKeepsAsked(b, m, v, BackendStep(b, m).asked);
    }
  }

  /**
   Over every interleaving of terminal and backend messages: a prompt is open exactly while
   the last event emitted is InputRequestOpened; a request opens at most once; the bounds on
   pending, seen and thread requests hold; and every pending request was seen.
   */
  lemma {:induction false} EveryRunKeepsInv(inputs: seq<Input>)
    ensures BridgeInv(BridgeRun(inputs))
  {
    if inputs != [] {
      EveryRunKeepsInv(inputs[..|inputs| - 1]);
      var b := BridgeRun(inputs[..|inputs| - 1]);
      match inputs[|inputs| - 1]
      case Terminal(m) => TerminalStepKeepsInv(b, m);
      case Backend(m) => BackendStepKeepsInv(b, m);
    }
  }

  lemma StepKeepsConversation(b: Bridge, input: Input)
    requires BridgeInv(b) && b.tracker.conversation.Some?
    ensures BridgeStep(b, input).tracker.conversation == b.tracker.conversation
  {
    if input.Backend? {
      ServerStepIsSound(b.tracker, input.server);
    }
  }

  /** Once bound, the Session's conversation stays the same for the rest of every run. */
  lemma {:induction false} ConversationNeverChanges(inputs: seq<Input>, i: nat)
    requires i <= |inputs| && BridgeRun(inputs[..i]).tracker.conversation.Some?
    ensures BridgeRun(inputs).tracker.conversation == BridgeRun(inputs[..i]).tracker.conversation
  {
    if i == |inputs| {
      assert inputs[..i] == inputs;
    } else {
      var before := inputs[..|inputs| - 1];
      assert before[..i] == inputs[..i];
      ConversationNeverChanges(before, i);
      EveryRunKeepsInv(before);
      StepKeepsConversation(BridgeRun(before), inputs[|inputs| - 1]);
    }
  }

  lemma ServerStepPauses(t: Tracker, m: ServerMessage)
    requires t.pauseRequest.None? && ServerStep(t, m).Accepted?
    ensures var next := ServerStep(t, m).next;
            if next.pauseRequest.Some?
            then next.pauseSequence == t.pauseSequence + 1 && next.pauseRequest.value.id == PauseId(t.pauseSequence + 1)
                 && next.pauseId == Some(next.pauseRequest.value.id)
            else next.pauseSequence == t.pauseSequence
                 && (next.pauseId == t.pauseId || (next.pauseId.None? && next.question.None?))
                 && (next.question.Some? ==> t.question.Some?)
  {
  }

  lemma TerminalStepKeepsPauseInv(b: Bridge, m: ClientMessage)
    requires PauseInv(b)
    ensures PauseInv(TerminalStep(b, m))
  {
  }

  lemma NextPauseIsNumbered(pauses: seq<PauseRequest>, count: nat)
    requires Numbered(pauses, count)
    ensures forall pause: PauseRequest | pause.id == PauseId(count + 1) :: Numbered(pauses + [pause], count + 1)
    ensures pauses + [] == pauses
  {
  }

  lemma BackendStepKeepsPauseInv(b: Bridge, m: ServerMessage)
    requires PauseInv(b)
    ensures PauseInv(BackendStep(b, m))
  {
    if ServerStep(b.tracker, m).Accepted? {
      ServerStepPauses(b.tracker, m);
      NextPauseIsNumbered(b.pauses, b.tracker.pauseSequence);
    }
  }

  lemma StepKeepsPauseInv(b: Bridge, input: Input)
    requires PauseInv(b)
    ensures PauseInv(BridgeStep(b, input))
  {
    match input
    case Terminal(m) => TerminalStepKeepsPauseInv(b, m);
    case Backend(m) => BackendStepKeepsPauseInv(b, m);
  }

  /**
   In every run, no identifier forwarded from the terminal looks like a pause identifier, and the
   n-th pause carries the number n.
   */
  lemma {:induction false} EveryRunKeepsPauseInv(inputs: seq<Input>)
    ensures PauseInv(BridgeRun(inputs))
  {
    if inputs != [] {
      EveryRunKeepsPauseInv(inputs[..|inputs| - 1]);
      StepKeepsPauseInv(BridgeRun(inputs[..|inputs| - 1]), inputs[|inputs| - 1]);
    }
  }

  lemma PauseIdIsInjective(m: nat, n: nat)
    requires PauseId(m) == PauseId(n)
    ensures m == n
  {
    assert PauseId(m)[|PAUSE_PREFIX|..] == Decimal(m);
    assert PauseId(n)[|PAUSE_PREFIX|..] == Decimal(n);
    DecimalRoundTrip(m);
    DecimalRoundTrip(n);
  }

  /** Pauses never share an identifier, so a late answer to one is never taken for another. */
  lemma {:induction false} PauseIdsAreDistinct(inputs: seq<Input>)
    ensures var pauses := BridgeRun(inputs).pauses;
            forall i, j | 0 <= i < j < |pauses| :: pauses[i].id != pauses[j].id
  {
    EveryRunKeepsPauseInv(inputs);
    var pauses := BridgeRun(inputs).pauses;
    forall i, j | 0 <= i < j < |pauses|
      ensures pauses[i].id != pauses[j].id
    {
      if pauses[i].id == pauses[j].id {
        PauseIdIsInjective(i + 1, j + 1);
      }
    }
  }

  // ----- only an answer restarts a question: exactly when that is so ------------------------------

  /** A backend message that would start the turn answering the open question. */
  predicate StartsTurn(t: Tracker, m: ServerMessage) {
    m.verb == TurnStartedNote && t.conversation.Some? && AsStr(m.threadId) == t.conversation && BoundedId(m.turn).Some?
  }

  /**
   With a question open and no request pending, a new turn is accepted exactly when the terminal
   has answered since the question opened, or an answer to an earlier question was left over.
   */
  lemma {:induction false} QuestionClosesExactlyOnAnswer(inputs: seq<Input>, m: ServerMessage)
    requires var b := BridgeRun(inputs);
             b.alive && b.tracker.question.Some? && b.tracker.pending == {} && StartsTurn(b.tracker, m)
             && !AnswersPause(b.tracker, m)
    ensures var b := BridgeRun(inputs);
            BackendStep(b, m).alive <==> b.answered || b.stale
    ensures var b := BridgeRun(inputs);
            BackendStep(b, m).alive ==> !Waiting(BackendStep(b, m).tracker)
  {
    EveryRunKeepsInv(inputs);
  }

  const SILENT := ServerMessage(Missing, NoMethod, false, Missing, Str("c"), Missing, Missing, OtherStatus, Missing,
      Missing)

  function Note(verb: ServerMethod, turn: string, item: string): Input {
    Backend(SILENT.(verb := verb, turn := Str(turn), turnId := Str(turn), item := Str(item), turnStatus := TurnBroken))
  }

  /** A run in which the first question's turn fails after the terminal answered it. */
  const LEFTOVER_ANSWER: seq<Input> := [
    Terminal(ClientMessage(Int(0), ThreadStart, None, false)),
    Backend(SILENT.(id := Int(0), resultThread := Str("c"))),
    Note(TurnStartedNote, "t", ""),
    Note(ItemCompleted(true), "t", "p"),
    Terminal(ClientMessage(Int(1), TurnStart, Some(1), false)),
    Note(TurnCompleted, "t", ""),
    Note(TurnStartedNote, "u", ""),
    Note(ItemCompleted(true), "u", "q")
  ]

  lemma RunOfLonger(inputs: seq<Input>, input: Input)
    ensures BridgeRun(inputs + [input]) == BridgeStep(BridgeRun(inputs), input)
  {
    assert (inputs + [input])[..|inputs|] == inputs;
  }

  lemma OneLetterIsBounded(s: string)
    requires |s| == 1 && 'a' <= s[0] <= 'z'
    ensures BoundedText(s) && ValidConversation(s)
  {
    assert s[1..] == "";
    assert Utf8Length(s) == 1;
  }

  lemma BindsConversation()
    ensures var b := BridgeStep(BridgeStep(STARTED, LEFTOVER_ANSWER[0]), LEFTOVER_ANSWER[1]);
            b.alive && b.tracker == INITIAL.(conversation := Some("c"))
  {
    OneLetterIsBounded("c");
    var b := BridgeStep(STARTED, LEFTOVER_ANSWER[0]);
    assert b.tracker == INITIAL.(threadRequests := {Int(0)});
    assert {Int(0)} - {Int(0)} == {};
  }

  lemma AsksQuestion(b: Bridge, turn: string, item: string)
    requires b.alive && b.tracker.conversation == Some("c") && !Waiting(b.tracker)
    requires b.tracker.pauseRequest.None? && b.tracker.pauseSequence < 2
    requires |turn| == |item| == 1 && 'a' <= turn[0] <= 'z' && 'a' <= item[0] <= 'z'
    ensures var started := BridgeStep(b, Note(TurnStartedNote, turn, ""));
            var asked := BridgeStep(started, Note(ItemCompleted(true), turn, item));
            && asked.alive && !asked.answered
            && asked.tracker
               == b.tracker.(turn := Some(turn), question := Some(item), pauseSequence := b.tracker.pauseSequence + 1,
                             pauseId := Some(PauseId(b.tracker.pauseSequence + 1)), questionTurnFinished := false)
  {
    OneLetterIsBounded(turn);
    OneLetterIsBounded(item);
  }

  lemma AnswersThenFails(b: Bridge)
    requires b.alive && b.tracker.conversation == Some("c") && b.tracker.turn == Some("t")
    requires b.tracker.pending == {} && b.tracker.question.Some? && b.tracker.pauseRequest.None?
    ensures var failed := BridgeStep(BridgeStep(b, LEFTOVER_ANSWER[4]), LEFTOVER_ANSWER[5]);
            failed.alive && failed.tracker == b.tracker.(question := None, answerRequest := Some(Int(1)))
  {
  }

  lemma RunOfTwoMore(r: seq<Input>, k: nat)
    requires k + 2 <= |r|
    ensures BridgeRun(r[..k + 2]) == BridgeStep(BridgeStep(BridgeRun(r[..k]), r[k]), r[k + 1])
  {
    assert r[..k + 1] == r[..k] + [r[k]] && r[..k + 2] == r[..k + 1] + [r[k + 1]];
    RunOfLonger(r[..k], r[k]);
    RunOfLonger(r[..k + 1], r[k + 1]);
  }

  lemma RunOfEight(r: seq<Input>)
    requires |r| == 8
    ensures BridgeRun(r[..2]) == BridgeStep(BridgeStep(STARTED, r[0]), r[1])
    ensures BridgeRun(r[..4]) == BridgeStep(BridgeStep(BridgeRun(r[..2]), r[2]), r[3])
    ensures BridgeRun(r[..6]) == BridgeStep(BridgeStep(BridgeRun(r[..4]), r[4]), r[5])
    ensures BridgeRun(r) == BridgeStep(BridgeStep(BridgeRun(r[..6]), r[6]), r[7])
  {
    assert r[..0] == [] && r[..8] == r;
    RunOfTwoMore(r, 0);
    RunOfTwoMore(r, 2);
    RunOfTwoMore(r, 4);
    RunOfTwoMore(r, 6);
  }

  /** The run up to the second question: the answer to the first is still lying around. */
  lemma LeftoverAnswerIsKept()
    ensures var b := BridgeRun(LEFTOVER_ANSWER);
            && b.alive && !b.answered && b.tracker.conversation == Some("c") && b.tracker.pending == {}
            && b.tracker.question == Some("q") && b.tracker.pauseId == Some(PauseId(2))
            && b.tracker.answerRequest == Some(Int(1))
  {
    RunOfEight(LEFTOVER_ANSWER);
    BindsConversation();
    AsksQuestion(BridgeRun(LEFTOVER_ANSWER[..2]), "t", "p");
    AnswersThenFails(BridgeRun(LEFTOVER_ANSWER[..4]));
    AsksQuestion(BridgeRun(LEFTOVER_ANSWER[..6]), "u", "q");
  }

  /**
   "Only an answer restarts a question" is not true of every run: after LEFTOVER_ANSWER the second
   question is open and unanswered, yet a turn nobody asked for closes it.
   */
  lemma {:induction false} LeftoverAnswerClosesNextQuestion()
    ensures var b := BridgeRun(LEFTOVER_ANSWER);
            && b.alive && b.tracker.question == Some("q") && !b.answered
            && BridgeStep(b, Note(TurnStartedNote, "v", "")).alive
            && !Waiting(BridgeStep(b, Note(TurnStartedNote, "v", "")).tracker)
  {
    LeftoverAnswerIsKept();
    OneLetterIsBounded("v");
  }

  // ----- the mutable tracker ----------------------------------------------------------------------

  class InputTracker {
    var conversation: Option<string>
    var turn: Option<string>
    var pending: set<Json>
    var seenRequests: set<Json>
    var threadRequests: set<Json>
    var question: Option<string>
    var pauseRequest: Option<PauseRequest>
    var pauseId: Option<string>
    var pauseSequence: nat
    var answerRequest: Option<Json>
    var questionTurnFinished: bool

    ghost function Model(): Tracker
      reads this
    {
      Tracker(conversation, turn, pending, seenRequests, threadRequests, question, pauseRequest, pauseId,
              pauseSequence, answerRequest, questionTurnFinished)
    }

    constructor ()
      ensures Model() == INITIAL
    {
      conversation, turn, pending, seenRequests, threadRequests := None, None, {}, {}, {};
      question, pauseRequest, pauseId, pauseSequence := None, None, None, 0;
      answerRequest, questionTurnFinished := None, false;
    }

    /** A refusal leaves the tracker as it was, so the bridge may answer it and go on. */
    method OnClientMessage(m: ClientMessage) returns (ok: bool)
      modifies this
      ensures ok <==> ClientStep(old(Model()), m).Some?
      ensures Model() == if ok then ClientStep(old(Model()), m).value else old(Model())
    {
      if IsPauseId(m.id) {
        return false;
      }
      if pending != {} && (m.verb.TurnStart? || m.verb.TurnSteer? || m.verb.ThreadResume? || m.verb.ThreadFork?) {
        return false;
      }
      if question.Some? && m.verb.TurnStart? {
        if m.inputLength.None? || m.inputLength.value == 0 {
          return false;
        }
        var key := RequestKey(m.id);
        if key.None? {
          return false;
        }
        answerRequest := key;
      }
      if !m.ephemeral && (m.verb.ThreadStart? || m.verb.ThreadResume?) {
        if |threadRequests| >= REQUEST_LIMIT {
          return false;
        }
        var key := RequestKey(m.id);
        if key.None? {
          return false;
        }
        threadRequests := threadRequests + {key.value};
      }
      return true;
    }

    method ConsumePrivateResponse(m: ServerMessage) returns (ok: bool, consumed: bool)
      ensures ok <==> !PauseFailed(Model(), m)
      ensures ok ==> (consumed <==> AnswersPause(Model(), m))
    {
      if pauseId.Some? && m.id == Str(pauseId.value) {
        return questionTurnFinished || !m.hasError, true;
      }
      return true, false;
    }

    method Bind(identity: Json) returns (ok: bool, events: seq<LifecycleEvent>)
      modifies this
      ensures var v := BindStep(old(Model()), identity);
              if v.Accepted? then ok && Model() == v.next && events == v.events else !ok
    {
      events := [];
      if !identity.Str? || !ValidConversation(identity.text) {
        return false, [];
      }
      if conversation.Some? {
        return conversation.value == identity.text, [];
      }
      conversation := Some(identity.text);
      return true, [Announcement(TurnStarted(Some(ConversationIdentity(identity.text, Established))))];
    }

    function Announcement(event: ProviderEvent): LifecycleEvent
      reads this
    {
      LifecycleEvent(event, conversation, turn)
    }

    method OnServerMessage(m: ServerMessage) returns (ok: bool, events: seq<LifecycleEvent>)
      modifies this
      ensures var v := ServerStep(old(Model()), m);
              if v.Accepted? then ok && Model() == v.next && events == v.events else !ok
    {
      events := [];
      if !m.id.Missing? && m.verb.NoMethod? {
        if RequestKey(m.id).None? {
          return false, [];
        }
        if m.id in threadRequests {
          threadRequests := threadRequests - {m.id};
          if !m.resultThread.Missing? && !m.resultThread.Null? {
            ok, events := Bind(m.resultThread);
            return;
          }
        }
      }
      ok, events := OnNotification(m);
    }

    method OnNotification(m: ServerMessage) returns (ok: bool, events: seq<LifecycleEvent>)
      modifies this
      ensures var v := Dispatch(old(Model()), m);
              if v.Accepted? then ok && Model() == v.next && events == v.events else !ok
    {
      events := [];
      if m.verb == ThreadStartedNote {
        return true, [];
      }
      if conversation.None? || AsStr(m.threadId) != conversation {
        return !Named(m), [];
      }
      match m.verb {
        case TurnStartedNote =>
          ok, events := OnTurnStarted(m);
        case Request(kind) =>
          ok, events := OnRequest(m, kind);
        case RequestResolved =>
          if RequestKey(m.requestId).None? {
            return false, [];
          }
          var known := m.requestId in pending;
          pending := pending - {m.requestId};
          if known && pending == {} && question.None? {
            events := [Announcement(InputRequestsResolved)];
          }
          ok := true;
        case TurnCompleted =>
          ok, events := OnTurnCompleted(m);
        case ItemCompleted(asyncQuestions) =>
          if asyncQuestions {
            ok, events := OnQuestion(m);
          } else {
            ok := !Named(m);
          }
        case _ =>
          ok := !Named(m);
      }
    }

    method OnTurnStarted(m: ServerMessage) returns (ok: bool, events: seq<LifecycleEvent>)
      modifies this
      ensures var v := TurnStartedStep(old(Model()), m);
              if v.Accepted? then ok && Model() == v.next && events == v.events else !ok
    {
      events := [];
      if pending != {} {
        return false, [];
      }
      if question.Some? {
        var answer := answerRequest;
        answerRequest := None;
        if answer.None? {
          return false, [];
        }
        question, pauseId, questionTurnFinished := None, None, false;
        turn := BoundedId(m.turn);
        if turn.None? {
          return false, [];
        }
        return true, [Announcement(InputRequestsResolved), Announcement(PromptSubmitted)];
      }
      turn := BoundedId(m.turn);
      return turn.Some?, [Announcement(PromptSubmitted)];
    }

    method OnRequest(m: ServerMessage, kind: RequestKind) returns (ok: bool, events: seq<LifecycleEvent>)
      modifies this
      ensures var v := RequestStep(old(Model()), m, kind);
              if v.Accepted? then ok && Model() == v.next && events == v.events else !ok
    {
      events := [];
      if (kind != Elicitation && turn.None?) || (m.turnId.Str? && turn != Some(m.turnId.text)) {
        return false, [];
      }
      var key := RequestKey(m.id);
      if key.None? {
        return false, [];
      }
      if key.value in pending {
        return true, [];
      }
      if |seenRequests| >= REQUEST_ID_LIMIT || key.value in seenRequests {
        return false, [];
      }
      seenRequests := seenRequests + {key.value};
      if |pending| >= REQUEST_LIMIT {
        return false, [];
      }
      pending := pending + {key.value};
      return true, [Announcement(InputRequestOpened)];
    }

    method OnTurnCompleted(m: ServerMessage) returns (ok: bool, events: seq<LifecycleEvent>)
      modifies this
      ensures var v := TurnCompletedStep(old(Model()), m);
              if v.Accepted? then ok && Model() == v.next && events == v.events else !ok
    {
      events := [];
      if turn != AsStr(m.turn) {
        return true, [];
      }
      pending := {};
      if question.Some? && (m.turnStatus.TurnOk? || m.turnStatus.TurnCut?) {
        questionTurnFinished := true;
        return true, [];
      }
      question := None;
      match m.turnStatus {
        case TurnOk => return true, [Announcement(TurnStopped(NO_WORK))];
        case TurnCut => return true, [Announcement(TurnInterrupted)];
        case TurnBroken => return true, [Announcement(TurnFailed("provider_unavailable"))];
        case OtherStatus => return false, [];
      }
    }

    method OnQuestion(m: ServerMessage) returns (ok: bool, events: seq<LifecycleEvent>)
      requires conversation.Some?
      modifies this
      ensures var v := QuestionStep(old(Model()), m);
              if v.Accepted? then ok && Model() == v.next && events == v.events else !ok
    {
      events := [];
      var item := BoundedId(m.item);
      if item.None? {
        return false, [];
      }
      if question == item {
        return true, [];
      }
      if question.Some? || turn.None? || AsStr(m.turnId) != turn {
        return false, [];
      }
      if pauseSequence + 1 > U64_MAX {
        return false, [];
      }
      pauseSequence := pauseSequence + 1;
      var id := PauseId(pauseSequence);
      pauseRequest := Some(PauseRequest(id, conversation.value, turn.value));
      pauseId, question, questionTurnFinished := Some(id), item, false;
      return true, [Announcement(InputRequestOpened)];
    }
  }
}
