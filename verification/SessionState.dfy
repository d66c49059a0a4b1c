/**
 Session status: process lifecycle, Provider activity and the one retained Attention Event
 (crates/sylvops-core/src/session_state.rs).
 */
module SessionState {
  import opened Wrappers

  const I64_MAX: int := 0x7FFF_FFFF_FFFF_FFFF

  datatype Lifecycle = Fresh | Starting | Running | Exited | Failed | Terminated | Disconnected

  datatype Activity = Inactive | Working | AwaitingInput | Completed | Interrupted | RecoverableFailure

  datatype Reason = InputRequested | SuccessfulCompletion | RecoverableFailure | TerminalFailure

  datatype Acknowledgement = Pending | Acknowledged | Resolved

  /** Event identities live in SQLite's positive integer range. */
  type AttentionId = i: int | 1 <= i <= I64_MAX witness 1

  datatype AttentionEvent = AttentionEvent(
    id: AttentionId,
    reason: Reason,
    acknowledgement: Acknowledgement,
    occurredAt: int)

  datatype SessionStatus = SessionStatus(
    lifecycle: Lifecycle,
    activity: Activity,
    attention: Option<AttentionEvent>)

  datatype StatusError =
    | ActivityWithoutProcess
    | UnstartedAttention
    | ConditionDisagrees
    | InvalidTimestamp
    | AttentionMismatch
    | MissingAttention
    | InputRequiresRunning
    | IdentityExhausted

  predicate LifecycleIsActive(l: Lifecycle) {
    l == Starting || l == Running
  }

  predicate LifecycleIsTerminal(l: Lifecycle) {
    l == Exited || l == Failed || l == Terminated || l == Disconnected
  }

  /** The reason of the retained event, unless that event is resolved. */
  function OpenReason(a: Option<AttentionEvent>): Option<Reason> {
    if a.Some? && a.value.acknowledgement != Resolved then Some(a.value.reason) else None
  }

  /** The reason that a Provider condition must be explained by. */
  function ConditionReason(activity: Activity): Option<Reason> {
    match activity
    case AwaitingInput => Some(InputRequested)
    case Completed => Some(SuccessfulCompletion)
    case RecoverableFailure => Some(Reason.RecoverableFailure)
    case _ => None
  }

  /** The check run at every protocol and persistence boundary, in the order of the Rust code. */
  function Validate(s: SessionStatus): Outcome<StatusError> {
    if s.lifecycle != Running && s.activity != Inactive then Fail(ActivityWithoutProcess)
    else if (s.lifecycle == Fresh || s.lifecycle == Starting) && s.attention.Some? then Fail(UnstartedAttention)
    else if s.lifecycle == Running && OpenReason(s.attention) != ConditionReason(s.activity)
        then Fail(ConditionDisagrees)
    else if s.attention.Some? then
      var event := s.attention.value;
      if event.occurredAt < 0 then Fail(InvalidTimestamp)
      else if event.acknowledgement != Resolved && !ReasonFits(event.reason, s) then Fail(AttentionMismatch)
      else Pass
    else if s.activity == AwaitingInput || s.activity == Completed || s.activity == Activity.RecoverableFailure
        then Fail(MissingAttention)
    else Pass
  }

  predicate ReasonFits(reason: Reason, s: SessionStatus) {
    match reason
    case InputRequested => s.activity == AwaitingInput || s.lifecycle == Disconnected
    case RecoverableFailure => s.activity == Activity.RecoverableFailure || s.lifecycle == Disconnected
    case TerminalFailure => s.lifecycle == Failed || s.lifecycle == Disconnected
    case SuccessfulCompletion => s.activity == Completed || s.lifecycle == Exited || s.lifecycle == Disconnected
  }

  /** An event with that reason is retained and still pending or acknowledged. */
  predicate Open(a: Option<AttentionEvent>, reason: Reason) {
    a.Some? && a.value.reason == reason && (a.value.acknowledgement.Pending? || a.value.acknowledgement.Acknowledged?)
  }

  predicate Closed(a: Option<AttentionEvent>) {
    a.None? || a.value.acknowledgement.Resolved?
  }

  /** While the process runs, each activity is explained by its own reason. */
  predicate Explained(activity: Activity, a: Option<AttentionEvent>) {
    match activity
    case AwaitingInput => Open(a, InputRequested)
    case Completed => Open(a, SuccessfulCompletion)
    case RecoverableFailure => Open(a, Reason.RecoverableFailure)
    case Inactive | Working | Interrupted => Closed(a)
  }

  /** The legal combinations as a table by lifecycle. */
  predicate Coherent(s: SessionStatus) {
    && (s.attention.Some? ==> 0 <= s.attention.value.occurredAt)
    && match s.lifecycle
       case Fresh | Starting => s.activity == Inactive && s.attention == None
       case Running => Explained(s.activity, s.attention)
       case Exited => s.activity == Inactive && (Closed(s.attention) || Open(s.attention, SuccessfulCompletion))
       case Failed => s.activity == Inactive && (Closed(s.attention) || Open(s.attention, TerminalFailure))
       case Terminated => s.activity == Inactive && Closed(s.attention)
       case Disconnected => s.activity == Inactive
  }

  /** Validation accepts exactly the table, and its last error arm can never be reached. */
  lemma {:induction false} ValidateAcceptsExactlyTheTable(s: SessionStatus)
    ensures Validate(s).Pass? <==> Coherent(s)
    ensures Validate(s) != Fail(MissingAttention)
  {
  }

  /** Which of several faults is reported; any other incoherent status is a mismatch of reason and lifecycle. */
  lemma {:induction false} ValidateReportsExactly(s: SessionStatus)
    ensures Validate(s) == Fail(ActivityWithoutProcess) <==> s.lifecycle != Running && s.activity != Inactive
    ensures Validate(s) == Fail(UnstartedAttention)
            <==> (s.lifecycle == Fresh || s.lifecycle == Starting) && s.activity == Inactive && s.attention.Some?
    ensures Validate(s) == Fail(ConditionDisagrees) <==> s.lifecycle == Running && !Explained(s.activity, s.attention)
    ensures Validate(s) == Fail(InvalidTimestamp)
            <==> && s.attention.Some? && s.attention.value.occurredAt < 0
                 && (if s.lifecycle == Running then Explained(s.activity, s.attention)
                     else s.lifecycle != Fresh && s.lifecycle != Starting && s.activity == Inactive)
    ensures Validate(s) == Fail(AttentionMismatch)
            <==> && s.activity == Inactive && s.attention.Some? && 0 <= s.attention.value.occurredAt
                 && LifecycleIsTerminal(s.lifecycle) && !Coherent(s)
  {
  }

  /** How far an acknowledgement has moved. */
  function Progress(a: Acknowledgement): nat {
    match a
    case Pending => 0
    case Acknowledged => 1
    case Resolved => 2
  }

  /**
   `later` may follow `earlier` in one Session's attention history: an event never disappears,
   identities never decrease, one identity keeps its reason and timestamp, and its
   acknowledgement only moves forward.
   */
  predicate Follows(earlier: Option<AttentionEvent>, later: Option<AttentionEvent>) {
    earlier.Some? ==>
      && later.Some?
      && earlier.value.id <= later.value.id
      && (earlier.value.id == later.value.id ==>
            && earlier.value.reason == later.value.reason
            && earlier.value.occurredAt == later.value.occurredAt
            && Progress(earlier.value.acknowledgement) <= Progress(later.value.acknowledgement))
  }

  function IdentityOf(a: Option<AttentionEvent>): nat {
    if a.Some? then a.value.id else 0
  }

  /** One status change: the history grows by at most one event, which starts out pending. */
  predicate Extends(earlier: Option<AttentionEvent>, later: Option<AttentionEvent>) {
    && Follows(earlier, later)
    && IdentityOf(later) <= IdentityOf(earlier) + 1
    && (IdentityOf(later) > IdentityOf(earlier) ==> later.value.acknowledgement == Pending)
  }

  /** The database's acknowledgement request (crates/sylvops-daemon/src/database.rs:2825). */
  datatype ReviewAction = Opened | Dismissed

  predicate Reviewable(action: ReviewAction, reason: Reason) {
    match action
    case Opened => reason != Reason.RecoverableFailure
    case Dismissed => reason == Reason.RecoverableFailure
  }

  /** The status after acknowledging exactly the named pending event, or None when refused. */
  function Review(s: SessionStatus, id: AttentionId, action: ReviewAction): Option<SessionStatus> {
    if s.attention.Some? && s.attention.value.id == id && s.attention.value.acknowledgement == Pending
       && Reviewable(action, s.attention.value.reason)
    then
      var next := s.(attention := Some(s.attention.value.(acknowledgement := Acknowledged)));
      if Validate(next).Pass? then Some(next) else None
    else None
  }

  /** Reviewing a valid status moves one event forward and is never refused by validation. */
  lemma {:induction false} ReviewMovesOneEventForward(s: SessionStatus, id: AttentionId, action: ReviewAction)
    requires Validate(s).Pass?
    ensures Review(s, id, action).Some? <==>
            && s.attention.Some? && s.attention.value.id == id && s.attention.value.acknowledgement == Pending
            && (action == Dismissed <==> s.attention.value.reason == Reason.RecoverableFailure)
    ensures Review(s, id, action).Some? ==>
              var next := Review(s, id, action).value;
              && Validate(next).Pass?
              && Extends(s.attention, next.attention)
              && IdentityOf(next.attention) == IdentityOf(s.attention)
              && next.lifecycle == s.lifecycle && next.activity == s.activity
              && next.attention.value.acknowledgement == Acknowledged
  {
  }

  /**
   A client-side copy of a reviewed status: takes over only the acknowledgement, and only for the
   event it still shows as pending (crates/sylvops-core/src/session_state.rs:142-159).
   */
  function ApplyAcknowledgement(current: SessionStatus, reviewed: SessionStatus): (r: (SessionStatus, bool)) {
    if reviewed.attention.Some?
       && reviewed.attention.value.acknowledgement == Acknowledged
       && current.attention.Some?
       && current.attention.value.id == reviewed.attention.value.id
       && current.attention.value.reason == reviewed.attention.value.reason
       && current.attention.value.acknowledgement == Pending
    then (current.(attention := reviewed.attention), true)
    else (current, false)
  }

  /**
   Whatever a client shows and whatever review it hears of: lifecycle and activity stay, and the attention
   changes exactly when it still shows that very event as pending. In particular newer data is left alone,
   and a valid status stays valid.
   */
  lemma {:induction false} AcknowledgementLeavesNewerDataAlone(current: SessionStatus, reviewed: SessionStatus)
    ensures var (next, changed) := ApplyAcknowledgement(current, reviewed);
            && next.lifecycle == current.lifecycle && next.activity == current.activity
            && (changed <==>
                  && current.attention.Some? && reviewed.attention.Some?
                  && current.attention.value.id == reviewed.attention.value.id
                  && current.attention.value.reason == reviewed.attention.value.reason
                  && current.attention.value.acknowledgement == Pending
                  && reviewed.attention.value.acknowledgement == Acknowledged)
            && next.attention == (if changed then reviewed.attention else current.attention)
            && (IdentityOf(current.attention) != IdentityOf(reviewed.attention) ==> next == current)
            && (Validate(current).Pass? && Validate(reviewed).Pass? ==> Validate(next).Pass?)
            && (Follows(current.attention, reviewed.attention) ==> Follows(current.attention, next.attention))
  {
  }

  /** A client showing the status that was reviewed ends up with exactly the daemon's reviewed status. */
  lemma {:induction false} ClientCatchesUpWithReview(s: SessionStatus, id: AttentionId, action: ReviewAction)
    requires Review(s, id, action).Some?
    ensures ApplyAcknowledgement(s, Review(s, id, action).value) == (Review(s, id, action).value, true)
  {
  }
}
