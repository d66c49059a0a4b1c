/**
 The reducer that folds Provider events, acknowledgements and process exits into a Session status
 (crates/sylvops-core/src/status.rs:183-523).

 `Machine` and the functions over it say what each operation does; the class further down is the
 mutable object the daemon keeps, with every method tied to its function.
 */
module StatusMachine {
  import opened Wrappers
  import opened SessionState

  const MAX_TRACKED_SUBAGENTS: nat := 256

  datatype IdentityTransition = Established | Cleared | Resumed

  datatype ConversationIdentity = ConversationIdentity(id: string, transition: IdentityTransition)

  datatype RemainingWork = RemainingWork(subagents: bool, background: bool, scheduled: bool) {
    predicate Empty() {
      !subagents && !background && !scheduled
    }
  }

  const NO_WORK := RemainingWork(false, false, false)

  datatype ProviderEvent =
    | PromptSubmitted
    | TurnStarted(conversation: Option<ConversationIdentity>)
    | PermissionRequested
    | PermissionCheckStarted
    | UserInputRequested
    | InputRequestOpened
    | InputRequestsResolved
    | ToolStarted
    | ToolCompleted
    | SubagentStarted(agentId: string)
    | SubagentStopped(agentId: string)
    | TurnStopped(remaining: RemainingWork)
    | TurnFailed(category: string)
    | TurnInterrupted
    | SessionEnded

  datatype Machine = Machine(
    status: SessionStatus,
    failure: Option<string>,
    subagents: set<string>,
    exhausted: bool,
    remaining: RemainingWork)

  function New(lifecycle: Lifecycle): Machine {
    FromPersisted(SessionStatus(lifecycle, Inactive, None), None)
  }

  function FromPersisted(status: SessionStatus, failure: Option<string>): Machine {
    Machine(status, failure, {}, false, NO_WORK)
  }

  // ----- attention ------------------------------------------------------------------------------

  function ResolvedAttention(a: Option<AttentionEvent>): Option<AttentionEvent> {
    if a.Some? then Some(a.value.(acknowledgement := Resolved)) else None
  }

  /** Keeps an open event with the same reason unless the condition is materially new. */
  function RaisedAttention(a: Option<AttentionEvent>, reason: Reason, now: int, materiallyNew: bool)
    : Result<Option<AttentionEvent>, StatusError>
  {
    if !materiallyNew && OpenReason(a) == Some(reason) then Ok(a)
    else if IdentityOf(a) + 1 > I64_MAX then Err(IdentityExhausted)
    else Ok(Some(AttentionEvent(IdentityOf(a) + 1, reason, Pending, now)))
  }

  function SetLiveCondition(m: Machine, activity: Activity, reason: Option<Reason>, now: int)
    : Result<Machine, StatusError>
  {
    var failure := if activity != Activity.RecoverableFailure then None else m.failure;
    var attention :- if reason.Some? then RaisedAttention(m.status.attention, reason.value, now, false)
                     else Ok(ResolvedAttention(m.status.attention));
    var next := m.(status := m.status.(activity := activity, attention := attention), failure := failure);
    var _ :- Checked(next);
    Ok(next)
  }

  function Checked(m: Machine): Result<Machine, StatusError> {
    match Validate(m.status)
    case Pass => Ok(m)
    case Fail(e) => Err(e)
  }

  function RenewInput(m: Machine, now: int): Result<Machine, StatusError> {
    if m.status.lifecycle != Running then Err(InputRequiresRunning)
    else
      var attention :- RaisedAttention(m.status.attention, InputRequested, now, true);
      Checked(m.(status := m.status.(activity := AwaitingInput, attention := attention)))
  }

  function ResolveInput(m: Machine, id: AttentionId, now: int): Result<Machine, StatusError> {
    if m.status.activity == AwaitingInput && IdentityOf(m.status.attention) == id
    then SetLiveCondition(m, Working, None, now)
    else Ok(m)
  }

  function Acknowledge(m: Machine, id: AttentionId, reason: Reason): (Machine, bool) {
    if m.status.attention.Some? && m.status.attention.value.id == id && m.status.attention.value.reason == reason
       && m.status.attention.value.acknowledgement == Pending
    then (m.(status := m.status.(attention := Some(m.status.attention.value.(acknowledgement := Acknowledged)))), true)
    else (m, false)
  }

  // ----- events ---------------------------------------------------------------------------------

  function Track(m: Machine, agent: string): Machine {
    if agent in m.subagents then m
    else if |m.subagents| < MAX_TRACKED_SUBAGENTS then m.(subagents := m.subagents + {agent})
    else m.(exhausted := true)
  }

  /** No subagent is known to run, and none was dropped for lack of room. */
  predicate Quiet(m: Machine) {
    m.subagents == {} && !m.exhausted
  }

  function Apply(m: Machine, event: ProviderEvent, now: int): Result<Machine, StatusError> {
    if LifecycleIsTerminal(m.status.lifecycle) then Ok(m)
    else ApplyLive(m.(status := m.status.(lifecycle := Running)), event, now)
  }

  function ApplyLive(m: Machine, event: ProviderEvent, now: int): Result<Machine, StatusError> {
    match event
    case InputRequestOpened => RenewInput(m, now)
    case InputRequestsResolved => ResolveRequests(m, now)
    case ToolStarted => Ok(m)
    case ToolCompleted => Ok(m)
    case PermissionCheckStarted => SetLiveCondition(m, Working, None, now)
    case PromptSubmitted => SetLiveCondition(Forget(m), Working, None, now)
    case TurnStarted(_) => SetLiveCondition(Forget(m), Working, None, now)
    case PermissionRequested => SetLiveCondition(m, AwaitingInput, Some(InputRequested), now)
    case UserInputRequested => SetLiveCondition(m, AwaitingInput, Some(InputRequested), now)
    case TurnFailed(category) => FailTurn(m, category, now)
    case SubagentStarted(agent) => StartSubagent(m, agent, now)
    case SubagentStopped(agent) => Ok(m.(subagents := m.subagents - {agent}))
    case TurnStopped(remaining) => StopTurn(m, remaining, now)
    case TurnInterrupted => SetLiveCondition(m, Interrupted, None, now)
    case SessionEnded => EndSession(m, now)
  }

  function ResolveRequests(m: Machine, now: int): Result<Machine, StatusError> {
    if m.status.activity == AwaitingInput then SetLiveCondition(m, Working, None, now) else Ok(m)
  }

  predicate FailsAnew(m: Machine, category: string) {
    m.failure.Some? && m.failure.value != category
  }

  function FailTurn(m: Machine, category: string, now: int): Result<Machine, StatusError> {
    var attention :- RaisedAttention(m.status.attention, Reason.RecoverableFailure, now, FailsAnew(m, category));
    Checked(m.(status := m.status.(activity := Activity.RecoverableFailure, attention := attention),
               failure := Some(category)))
  }

  /** A new subagent does not hide a prompt that waits for the user. */
  function StartSubagent(m: Machine, agent: string, now: int): Result<Machine, StatusError> {
    if m.status.activity != AwaitingInput then SetLiveCondition(Track(m, agent), Working, None, now)
    else Ok(Track(m, agent))
  }

  function StopTurn(m: Machine, remaining: RemainingWork, now: int): Result<Machine, StatusError> {
    if Quiet(m) && remaining.Empty()
    then SetLiveCondition(m.(remaining := remaining), Completed, Some(SuccessfulCompletion), now)
    else SetLiveCondition(m.(remaining := remaining), Working, None, now)
  }

  predicate MayComplete(activity: Activity) {
    activity == Inactive || activity == Working
  }

  function EndSession(m: Machine, now: int): Result<Machine, StatusError> {
    if MayComplete(m.status.activity) && Quiet(m) && m.remaining.Empty()
    then SetLiveCondition(m, Completed, Some(SuccessfulCompletion), now)
    else Ok(m)
  }

  function Forget(m: Machine): Machine {
    m.(subagents := {}, exhausted := false, remaining := NO_WORK)
  }

  function ExitCategory(exitCode: Option<int>): string {
    if exitCode.Some? && exitCode.value != 0 then "process_exit_nonzero" else "process_exit_without_completion"
  }

  function ApplyExit(m: Machine, plainShell: bool, exitCode: Option<int>, stopRequested: bool, now: int)
    : Result<Machine, StatusError>
  {
    if stopRequested then
      Checked(m.(status := SessionStatus(Terminated, Inactive, ResolvedAttention(m.status.attention)), failure := None))
    else if (plainShell && exitCode == Some(0)) || OpenReason(m.status.attention) == Some(SuccessfulCompletion) then
      var attention :- RaisedAttention(m.status.attention, SuccessfulCompletion, now, false);
      Checked(m.(status := SessionStatus(Exited, Inactive, attention), failure := None))
    else if m.status.activity == Interrupted && exitCode == Some(0) then
      Checked(m.(status := SessionStatus(Exited, Inactive, ResolvedAttention(m.status.attention)), failure := None))
    else
      var attention :- RaisedAttention(m.status.attention, TerminalFailure, now, false);
      Checked(m.(status := SessionStatus(Failed, Inactive, attention), failure := Some(ExitCategory(exitCode))))
  }

  // ----- validity is inductive, and exhaustion is the only error --------------------------------

  /** Every identity the Session may use is taken. */
  predicate AtIdentityLimit(m: Machine) {
    IdentityOf(m.status.attention) == I64_MAX
  }

  /** Whether an event must announce something the user has not been told yet. */
  predicate NeedsNewIdentity(m: Machine, event: ProviderEvent) {
    !LifecycleIsTerminal(m.status.lifecycle) &&
    match event
    case InputRequestOpened => true
    case PermissionRequested | UserInputRequested => m.status.activity != AwaitingInput
    case TurnFailed(category) =>
      m.status.activity != Activity.RecoverableFailure || (m.failure.Some? && m.failure.value != category)
    case TurnStopped(remaining) => m.status.activity != Completed && !WorkLeft(m, event)
    case SessionEnded => (m.status.activity == Inactive || m.status.activity == Working) && !WorkLeft(m, event)
    case _ => false
  }

  /** What is still going on after an event, judged before it: subagents, lost track, reported work. */
  predicate WorkLeft(m: Machine, event: ProviderEvent) {
    var reported := if event.TurnStopped? then event.remaining else m.remaining;
    m.subagents != {} || m.exhausted || reported.subagents || reported.background || reported.scheduled
  }

  predicate ExitNeedsNewIdentity(m: Machine, plainShell: bool, exitCode: Option<int>, stopRequested: bool) {
    var open := OpenReason(m.status.attention);
    && !stopRequested
    && open != Some(SuccessfulCompletion)
    && ((plainShell && exitCode == Some(0))
        || (!(m.status.activity == Interrupted && exitCode == Some(0)) && open != Some(TerminalFailure)))
  }

  /** Entering a condition with its own reason: the outcome of every branch that ends in `SetLiveCondition`. */
  lemma {:induction false} LiveConditionOutcome(m: Machine, activity: Activity, reason: Option<Reason>, now: int)
    requires m.status.lifecycle == Running && 0 <= now && reason == ConditionReason(activity)
    requires m.status.attention.Some? ==> 0 <= m.status.attention.value.occurredAt
    ensures var r := SetLiveCondition(m, activity, reason, now);
            var raised := reason.Some? && OpenReason(m.status.attention) != reason;
            && (r.Err? <==> raised && AtIdentityLimit(m))
            && (r.Err? ==> r.error == IdentityExhausted)
            && (r.Ok? ==>
                  && r.value == m.(status := r.value.status, failure := r.value.failure)
                  && r.value.status.lifecycle == Running && r.value.status.activity == activity
                  && Validate(r.value.status).Pass?
                  && Extends(m.status.attention, r.value.status.attention)
                  && (IdentityOf(r.value.status.attention) > IdentityOf(m.status.attention) <==> raised))
  {
  }

  /** The outcome of a live step that announces something new exactly when `announces` says so. */
  ghost predicate EndsIn(m: Machine, r: Result<Machine, StatusError>, announces: bool) {
    && (r.Err? <==> announces && AtIdentityLimit(m))
    && (r.Err? ==> r.error == IdentityExhausted)
    && (r.Ok? ==>
          && Validate(r.value.status).Pass? && r.value.status.lifecycle == Running
          && Extends(m.status.attention, r.value.status.attention)
          && (IdentityOf(r.value.status.attention) > IdentityOf(m.status.attention) <==> announces))
  }

  ghost predicate ValidLive(m: Machine) {
    m.status.lifecycle == Running && Coherent(m.status)
  }

  lemma RenewInputOutcome(m: Machine, now: nat)
    requires ValidLive(m)
    ensures EndsIn(m, RenewInput(m, now), true)
  {
  }

  lemma FailTurnOutcome(m: Machine, category: string, now: nat)
    requires ValidLive(m)
    ensures EndsIn(m, FailTurn(m, category, now),
                    m.status.activity != Activity.RecoverableFailure
                        || (m.failure.Some? && m.failure.value != category))
  {
  }

  lemma StartSubagentOutcome(m: Machine, agent: string, now: nat)
    requires ValidLive(m)
    ensures EndsIn(m, StartSubagent(m, agent, now), false)
  {
    LiveConditionOutcome(Track(m, agent), Working, None, now);
    ValidateAcceptsExactlyTheTable(m.status);
  }

  lemma StopTurnOutcome(m: Machine, remaining: RemainingWork, now: nat)
    requires ValidLive(m)
    ensures EndsIn(m, StopTurn(m, remaining, now),
                   m.status.activity != Completed && !WorkLeft(m, TurnStopped(remaining)))
  {
    LiveConditionOutcome(m.(remaining := remaining), Working, None, now);
    LiveConditionOutcome(m.(remaining := remaining), Completed, Some(SuccessfulCompletion), now);
  }

  lemma EndSessionOutcome(m: Machine, now: nat)
    requires ValidLive(m)
    ensures EndsIn(m, EndSession(m, now),
                   (m.status.activity == Inactive || m.status.activity == Working) && !WorkLeft(m, SessionEnded))
  {
    LiveConditionOutcome(m, Completed, Some(SuccessfulCompletion), now);
    ValidateAcceptsExactlyTheTable(m.status);
  }

  lemma PlainConditionOutcome(m: Machine, activity: Activity, now: nat)
    requires ValidLive(m) && (activity == Working || activity == Interrupted || activity == AwaitingInput)
    ensures EndsIn(m, SetLiveCondition(m, activity, ConditionReason(activity), now),
                    activity == AwaitingInput && m.status.activity != AwaitingInput)
  {
    LiveConditionOutcome(m, activity, ConditionReason(activity), now);
  }

  lemma LiveOutcome(m: Machine, event: ProviderEvent, now: nat)
    requires ValidLive(m)
    ensures EndsIn(m, ApplyLive(m, event, now), NeedsNewIdentity(m, event))
  {
    ValidateAcceptsExactlyTheTable(m.status);
    match event
    case InputRequestOpened => RenewInputOutcome(m, now);
    case InputRequestsResolved => PlainConditionOutcome(m, Working, now);
    case PermissionCheckStarted => PlainConditionOutcome(m, Working, now);
    case PromptSubmitted => PlainConditionOutcome(Forget(m), Working, now);
    case TurnStarted(_) => PlainConditionOutcome(Forget(m), Working, now);
    case PermissionRequested => PlainConditionOutcome(m, AwaitingInput, now);
    case UserInputRequested => PlainConditionOutcome(m, AwaitingInput, now);
    case TurnFailed(category) => FailTurnOutcome(m, category, now);
    case SubagentStarted(agent) => StartSubagentOutcome(m, agent, now);
    case TurnStopped(remaining) => StopTurnOutcome(m, remaining, now);
    case TurnInterrupted => PlainConditionOutcome(m, Interrupted, now);
    case SessionEnded => EndSessionOutcome(m, now);
    case _ =>
  }

  /**
   From a valid status, an event fails exactly when it needs a new identity and none is left;
   otherwise the next status is valid, and it carries a new identity exactly when one was needed.
   */
  lemma {:induction false} ApplyKeepsStatusValid(m: Machine, event: ProviderEvent, now: int)
    requires Validate(m.status).Pass? && 0 <= now
    ensures Apply(m, event, now).Err? <==> NeedsNewIdentity(m, event) && AtIdentityLimit(m)
    ensures Apply(m, event, now).Err? ==> Apply(m, event, now).error == IdentityExhausted
    ensures Apply(m, event, now).Ok? ==>
              var next := Apply(m, event, now).value;
              && Validate(next.status).Pass?
              && Extends(m.status.attention, next.status.attention)
              && (IdentityOf(next.status.attention) > IdentityOf(m.status.attention) <==> NeedsNewIdentity(m, event))
              && next.status.lifecycle
                 == if LifecycleIsTerminal(m.status.lifecycle) then m.status.lifecycle else Running
  {
    ValidateAcceptsExactlyTheTable(m.status);
    if !LifecycleIsTerminal(m.status.lifecycle) {
      LiveOutcome(m.(status := m.status.(lifecycle := Running)), event, now);
    }
  }

  /** The same for a process exit, which always leaves a terminal lifecycle behind. */
  lemma {:induction false} ExitKeepsStatusValid(
    m: Machine, plainShell: bool, exitCode: Option<int>, stopRequested: bool, now: int)
    requires Validate(m.status).Pass? && 0 <= now
    ensures var r := ApplyExit(m, plainShell, exitCode, stopRequested, now);
            && (r.Err? <==> ExitNeedsNewIdentity(m, plainShell, exitCode, stopRequested) && AtIdentityLimit(m))
            && (r.Err? ==> r.error == IdentityExhausted)
            && (r.Ok? ==>
                  && Validate(r.value.status).Pass?
                  && Extends(m.status.attention, r.value.status.attention)
                  && (IdentityOf(r.value.status.attention) > IdentityOf(m.status.attention)
                      <==> ExitNeedsNewIdentity(m, plainShell, exitCode, stopRequested))
                  && LifecycleIsTerminal(r.value.status.lifecycle)
                  && (stopRequested ==> OpenReason(r.value.status.attention) == None))
  {
    ValidateAcceptsExactlyTheTable(m.status);
  }

  // ----- whole runs -----------------------------------------------------------------------------

  /** Everything that may happen to one machine, each with a non-negative daemon timestamp. */
  datatype Op =
    | Provide(event: ProviderEvent, at: nat)
    | Exit(plainShell: bool, exitCode: Option<int>, stopRequested: bool, at: nat)
    | Mirror(id: AttentionId, reason: Reason)
    | Settle(id: AttentionId, at: nat)

  function Attempt(m: Machine, op: Op): Result<Machine, StatusError> {
    match op
    case Provide(event, at) => Apply(m, event, at)
    case Exit(shell, code, stop, at) => ApplyExit(m, shell, code, stop, at)
    case Mirror(id, reason) => Ok(Acknowledge(m, id, reason).0)
    case Settle(id, at) => ResolveInput(m, id, at)
  }

  /** A failed candidate is thrown away. */
  function Step(m: Machine, op: Op): Machine {
    match Attempt(m, op)
    case Ok(next) => next
    case Err(_) => m
  }

  function Run(m: Machine, ops: seq<Op>): Machine {
    if ops == [] then m else Step(Run(m, ops[..|ops| - 1]), ops[|ops| - 1])
  }

  lemma StepKeepsStatusValid(m: Machine, op: Op)
    requires Validate(m.status).Pass?
    ensures Validate(Step(m, op).status).Pass?
    ensures Extends(m.status.attention, Step(m, op).status.attention)
  {
    match op
    case Provide(event, at) => ApplyKeepsStatusValid(m, event, at);
    case Exit(shell, code, stop, at) => ExitKeepsStatusValid(m, shell, code, stop, at);
    case Mirror(id, reason) =>
    case Settle(id, at) =>
  }

  lemma {:induction false} RunKeepsStatusValid(m: Machine, ops: seq<Op>)
    requires Validate(m.status).Pass?
    ensures Validate(Run(m, ops).status).Pass?
  {
    if ops != [] {
      RunKeepsStatusValid(m, ops[..|ops| - 1]);
      StepKeepsStatusValid(Run(m, ops[..|ops| - 1]), ops[|ops| - 1]);
    }
  }

  /** Over every run the attention history is an append-only log: any later status follows any earlier one. */
  lemma {:induction false} AttentionHistoryIsAppendOnly(m: Machine, ops: seq<Op>, i: nat)
    requires Validate(m.status).Pass?
    requires i <= |ops|
    ensures Follows(Run(m, ops[..i]).status.attention, Run(m, ops).status.attention)
    ensures IdentityOf(Run(m, ops).status.attention) <= IdentityOf(Run(m, ops[..i]).status.attention) + (|ops| - i)
  {
    if i == |ops| {
      assert ops[..i] == ops;
    } else {
      var before := ops[..|ops| - 1];
      assert before[..i] == ops[..i];
      AttentionHistoryIsAppendOnly(m, before, i);
      RunKeepsStatusValid(m, before);
      StepKeepsStatusValid(Run(m, before), ops[|ops| - 1]);
    }
  }

  /** An event that was resolved is never shown as open again. */
  lemma {:induction false} ResolvedEventIsNeverRevived(m: Machine, ops: seq<Op>, i: nat)
    requires Validate(m.status).Pass? && i <= |ops|
    ensures var earlier := Run(m, ops[..i]).status.attention;
            var later := Run(m, ops).status.attention;
            earlier.Some? && earlier.value.acknowledgement == Resolved && IdentityOf(earlier) == IdentityOf(later)
            ==> later == earlier
  {
    AttentionHistoryIsAppendOnly(m, ops, i);
  }

  // ----- what the user is shown ------------------------------------------------------------------

  /** The shown activity as a table over the activity before the event. */
  function ShownAfter(before: Activity, workLeft: bool, event: ProviderEvent): Activity {
    match event
    case InputRequestOpened => AwaitingInput
    case PermissionRequested => AwaitingInput
    case UserInputRequested => AwaitingInput
    case PermissionCheckStarted => Working
    case PromptSubmitted => Working
    case TurnStarted(_) => Working
    case TurnInterrupted => Interrupted
    case TurnFailed(_) => Activity.RecoverableFailure
    case TurnStopped(_) => if workLeft then Working else Completed
    case InputRequestsResolved => if before == AwaitingInput then Working else before
    case SubagentStarted(_) => if before == AwaitingInput then before else Working
    case SessionEnded => if (before == Inactive || before == Working) && !workLeft then Completed else before
    case ToolStarted => before
    case ToolCompleted => before
    case SubagentStopped(_) => before
  }

  /** Every event that takes effect shows what the table says, whatever the attention history. */
  lemma {:induction false} ActivityFollowsEvent(m: Machine, event: ProviderEvent, now: nat)
    requires Validate(m.status).Pass? && !LifecycleIsTerminal(m.status.lifecycle) && Apply(m, event, now).Ok?
    ensures Apply(m, event, now).value.status.activity == ShownAfter(m.status.activity, WorkLeft(m, event), event)
  {
    var live := m.(status := m.status.(lifecycle := Running));
    assert Quiet(live) == Quiet(m);
    match event
    case SubagentStarted(agent) => assert Track(live, agent).status == live.status;
    case _ =>
  }

  /** The reason a Provider event announces when it announces anything. */
  function AnnouncedReason(event: ProviderEvent): Reason {
    match event
    case TurnFailed(_) => Reason.RecoverableFailure
    case TurnStopped(_) => SuccessfulCompletion
    case SessionEnded => SuccessfulCompletion
    case _ => InputRequested
  }

  /**
   The whole attention after an event: a new pending event, stamped with its time, when one is announced;
   the old one, resolved, when the shown activity asks for none; else the old one as it was.
   */
  lemma {:induction false} AttentionFollowsEvent(m: Machine, event: ProviderEvent, now: nat)
    requires Validate(m.status).Pass? && !LifecycleIsTerminal(m.status.lifecycle) && Apply(m, event, now).Ok?
    ensures var (before, next) := (m.status.attention, Apply(m, event, now).value.status);
            if NeedsNewIdentity(m, event) then
              && next.attention.Some? && next.attention.value.id == IdentityOf(before) + 1
              && next.attention.value.reason == AnnouncedReason(event)
              && next.attention.value.acknowledgement == Pending && next.attention.value.occurredAt == now
            else if next.activity == AwaitingInput || next.activity == Completed
                    || next.activity == Activity.RecoverableFailure then
              next.attention == before
            else
              next.attention == if before.Some? then Some(before.value.(acknowledgement := Resolved)) else None
  {
    var live := m.(status := m.status.(lifecycle := Running));
    ValidateAcceptsExactlyTheTable(m.status);
    ApplyKeepsStatusValid(m, event, now);
    match event
    case SubagentStarted(agent) => assert Track(live, agent).status == live.status;
    case _ =>
  }

  /** The failure category as a table: a failed turn's own, none once another condition begins, else as before. */
  function FailureAfter(before: Option<string>, shown: Activity, workLeft: bool, event: ProviderEvent): Option<string> {
    match event
    case TurnFailed(category) => Some(category)
    case InputRequestOpened => before
    case InputRequestsResolved => if shown == AwaitingInput then None else before
    case SubagentStarted(_) => if shown == AwaitingInput then before else None
    case SessionEnded => if (shown == Inactive || shown == Working) && !workLeft then None else before
    case ToolStarted => before
    case ToolCompleted => before
    case SubagentStopped(_) => before
    case _ => None
  }

  lemma ConditionClearsFailure(m: Machine, activity: Activity, reason: Option<Reason>, now: nat)
    requires activity != Activity.RecoverableFailure && SetLiveCondition(m, activity, reason, now).Ok?
    ensures SetLiveCondition(m, activity, reason, now).value.failure == None
  {
  }

  lemma StartedSubagentKeepsFailure(m: Machine, agent: string, now: nat)
    requires StartSubagent(m, agent, now).Ok?
    ensures StartSubagent(m, agent, now).value.failure
            == if m.status.activity == AwaitingInput then m.failure else None
  {
    assert Track(m, agent).failure == m.failure;
    if m.status.activity != AwaitingInput {
      ConditionClearsFailure(Track(m, agent), Working, None, now);
    }
  }

  lemma {:induction false} FailureFollowsEvent(m: Machine, event: ProviderEvent, now: nat)
    requires Validate(m.status).Pass? && !LifecycleIsTerminal(m.status.lifecycle) && Apply(m, event, now).Ok?
    ensures Apply(m, event, now).value.failure
            == FailureAfter(m.failure, m.status.activity, WorkLeft(m, event), event)
  {
    var live := m.(status := m.status.(lifecycle := Running));
    match event
    case SubagentStarted(agent) => StartedSubagentKeepsFailure(live, agent, now);
    case _ =>
  }

  /** What an exit leaves behind: lifecycle, the reason still open and the failure category. */
  datatype Ending = Ending(lifecycle: Lifecycle, openReason: Option<Reason>, failure: Option<string>)

  function EndingAfter(plainShell: bool, exitCode: Option<int>, stopRequested: bool, shown: Activity,
      open: Option<Reason>): Ending
  {
    if stopRequested then Ending(Terminated, None, None)
    else if open == Some(SuccessfulCompletion) then Ending(Exited, Some(SuccessfulCompletion), None)
    else
      match exitCode
      case None => Ending(Failed, Some(TerminalFailure), Some("process_exit_without_completion"))
      case Some(code) =>
        if code != 0 then Ending(Failed, Some(TerminalFailure), Some("process_exit_nonzero"))
        else if plainShell then Ending(Exited, Some(SuccessfulCompletion), None)
        else if shown == Interrupted then Ending(Exited, None, None)
        else Ending(Failed, Some(TerminalFailure), Some("process_exit_without_completion"))
  }

  /**
   Every exit that takes effect leaves what the table says, inactive, with the same record of work; it keeps an
   open event of the right reason, announces a new one stamped with its time, or resolves the old one.
   */
  lemma {:induction false} ExitFollowsTable(
    m: Machine, plainShell: bool, exitCode: Option<int>, stopRequested: bool, now: nat)
    requires Validate(m.status).Pass? && ApplyExit(m, plainShell, exitCode, stopRequested, now).Ok?
    ensures var next := ApplyExit(m, plainShell, exitCode, stopRequested, now).value;
            var before := m.status.attention;
            var ending := EndingAfter(plainShell, exitCode, stopRequested, m.status.activity, OpenReason(before));
            && next == m.(status := next.status, failure := ending.failure)
            && next.status.lifecycle == ending.lifecycle && next.status.activity == Inactive
            && OpenReason(next.status.attention) == ending.openReason
            && (if ending.openReason.None? then
                  next.status.attention
                  == if before.Some? then Some(before.value.(acknowledgement := Resolved)) else None
                else if OpenReason(before) == ending.openReason then next.status.attention == before
                else next.status.attention.value.id == IdentityOf(before) + 1
                     && next.status.attention.value.occurredAt == now
                     && next.status.attention.value.acknowledgement == Pending)
  {
    ExitKeepsStatusValid(m, plainShell, exitCode, stopRequested, now);
  }

  /** A confirmed answer to exactly the shown input event resolves it and shows work; any other changes nothing. */
  lemma {:induction false} SettlingResolvesExactlyTheShownInput(m: Machine, id: AttentionId, now: nat)
    requires Validate(m.status).Pass?
    ensures var r := ResolveInput(m, id, now);
            && r.Ok?
            && (if m.status.activity == AwaitingInput && m.status.attention.value.id == id then
                  r.value == m.(status := SessionStatus(Running, Working,
                                            Some(m.status.attention.value.(acknowledgement := Resolved))),
                                failure := None)
                else r.value == m)
  {
    ValidateAcceptsExactlyTheTable(m.status);
  }

  /** A mirrored acknowledgement changes exactly the named event, and only while it is pending. */
  lemma {:induction false} MirroringAcknowledgesExactlyTheNamed(m: Machine, id: AttentionId, reason: Reason)
    ensures var ((next, changed), before) := (Acknowledge(m, id, reason), m.status.attention);
            && (changed <==> before.Some? && before.value.id == id && before.value.reason == reason
                             && before.value.acknowledgement == Pending)
            && (changed ==>
                  next == m.(status := m.status.(attention := Some(before.value.(acknowledgement := Acknowledged)))))
            && (!changed ==> next == m)
  {
  }

  /** A completed Session that ends and exits, with any exit code, announces nothing more and counts as exited. */
  lemma {:induction false} CompletionIsAnnouncedOnce(
    m: Machine, plainShell: bool, exitCode: Option<int>, ended: nat, exited: nat)
    requires Validate(m.status).Pass? && m.status.activity == Completed
    ensures Apply(m, SessionEnded, ended) == Ok(m)
    ensures ApplyExit(m, plainShell, exitCode, false, exited)
            == Ok(m.(status := SessionStatus(Exited, Inactive, m.status.attention), failure := None))
  {
    ValidateAcceptsExactlyTheTable(m.status);
    assert m.(status := m.status.(lifecycle := Running)) == m;
  }

  /** Once the process is gone no Provider event, however late, changes anything. */
  lemma {:induction false} TerminalIsFinal(m: Machine, ops: seq<Op>)
    requires LifecycleIsTerminal(m.status.lifecycle) && forall op | op in ops :: op.Provide?
    ensures Run(m, ops) == m
  {
    if ops != [] {
      TerminalIsFinal(m, ops[..|ops| - 1]);
      assert ops[|ops| - 1] in ops;
    }
  }

  // ----- the bounded subagent set refines an unbounded one ---------------------------------------

  /**
   What is really outstanding since the last prompt or turn start, counting only events that took effect: the
   subagents started and not stopped, whether more than 256 of them ever ran at once, and the last turn's report.
   */
  datatype Outstanding = Outstanding(subagents: set<string>, overflowed: bool, reported: RemainingWork)

  const NOTHING := Outstanding({}, false, RemainingWork(false, false, false))

  function OutstandingStep(o: Outstanding, m: Machine, op: Op): Outstanding {
    if !op.Provide? || LifecycleIsTerminal(m.status.lifecycle) || Attempt(m, op).Err? then o
    else
      match op.event
      case PromptSubmitted => NOTHING
      case TurnStarted(_) => NOTHING
      case SubagentStarted(agent) =>
        o.(subagents := o.subagents + {agent}, overflowed := o.overflowed || |o.subagents + {agent}| > 256)
      case SubagentStopped(agent) => o.(subagents := o.subagents - {agent})
      case TurnStopped(remaining) => o.(reported := remaining)
      case _ => o
  }

  function OutstandingAfter(m: Machine, ops: seq<Op>): Outstanding {
    if ops == [] then NOTHING
    else OutstandingStep(OutstandingAfter(m, ops[..|ops| - 1]), Run(m, ops[..|ops| - 1]), ops[|ops| - 1])
  }

  predicate NothingLeft(o: Outstanding) {
    o.subagents == {} && !o.overflowed && !o.reported.subagents && !o.reported.background && !o.reported.scheduled
  }

  predicate Refines(m: Machine, o: Outstanding) {
    && |m.subagents| <= 256
    && m.subagents <= o.subagents
    && (m.exhausted <==> o.overflowed)
    && (!o.overflowed ==> m.subagents == o.subagents)
    && m.remaining == o.reported
    && (m.status.activity == Completed ==> NothingLeft(o))
  }

  lemma StepRefines(m: Machine, o: Outstanding, op: Op)
    requires Validate(m.status).Pass? && Refines(m, o)
    ensures Refines(Step(m, op), OutstandingStep(o, m, op))
  {
    match op
    case Provide(event, at) => EventRefines(m, o, event, at);
    case Exit(shell, code, stop, at) => ExitKeepsStatusValid(m, shell, code, stop, at);
    case Mirror(id, reason) =>
    case Settle(id, at) =>
  }

  lemma EventRefines(m: Machine, o: Outstanding, event: ProviderEvent, at: nat)
    requires Validate(m.status).Pass? && Refines(m, o)
    ensures Refines(Step(m, Provide(event, at)), OutstandingStep(o, m, Provide(event, at)))
  {
    if Apply(m, event, at).Ok? && !LifecycleIsTerminal(m.status.lifecycle) {
      match event
      case SubagentStarted(agent) => StartRefines(m, o, agent, at);
      case SubagentStopped(agent) => StopRefines(m, o, agent, at);
      case _ => OtherEventRefines(m, o, event, at);
    }
  }

  lemma OtherEventRefines(m: Machine, o: Outstanding, event: ProviderEvent, at: nat)
    requires Validate(m.status).Pass? && Refines(m, o) && !LifecycleIsTerminal(m.status.lifecycle)
    requires !event.SubagentStarted? && !event.SubagentStopped? && Apply(m, event, at).Ok?
    ensures Refines(Step(m, Provide(event, at)), OutstandingStep(o, m, Provide(event, at)))
  {
    ActivityFollowsEvent(m, event, at);
  }

  lemma TrackRefines(m: Machine, o: Outstanding, agent: string)
    requires Refines(m, o)
    ensures var (tracked, next) := (Track(m, agent), o.(subagents := o.subagents + {agent},
                                                        overflowed := o.overflowed || |o.subagents + {agent}| > 256));
            && |tracked.subagents| <= 256 && tracked.subagents <= next.subagents
            && (tracked.exhausted <==> next.overflowed)
            && (!next.overflowed ==> tracked.subagents == next.subagents)
            && tracked == m.(subagents := tracked.subagents, exhausted := tracked.exhausted)
  {
    if agent in m.subagents {
      assert agent in o.subagents && o.subagents + {agent} == o.subagents;
    } else if !o.overflowed {
      assert |m.subagents + {agent}| == |m.subagents| + 1;
    }
  }

  lemma StartRefines(m: Machine, o: Outstanding, agent: string, at: nat)
    requires Validate(m.status).Pass? && Refines(m, o) && !LifecycleIsTerminal(m.status.lifecycle)
    requires Apply(m, SubagentStarted(agent), at).Ok?
    ensures var op := Provide(SubagentStarted(agent), at);
            Refines(Step(m, op), OutstandingStep(o, m, op))
  {
    var live := m.(status := m.status.(lifecycle := Running));
    TrackRefines(live, o, agent);
    LiveConditionOutcome(Track(live, agent), Working, None, at);
    ActivityFollowsEvent(m, SubagentStarted(agent), at);
  }

  lemma StopRefines(m: Machine, o: Outstanding, agent: string, at: nat)
    requires Validate(m.status).Pass? && Refines(m, o) && !LifecycleIsTerminal(m.status.lifecycle)
    ensures Apply(m, SubagentStopped(agent), at).Ok?
    ensures Refines(Apply(m, SubagentStopped(agent), at).value, o.(subagents := o.subagents - {agent}))
  {
    if agent in m.subagents {
      assert m.subagents == (m.subagents - {agent}) + {agent};
      assert |m.subagents| == |m.subagents - {agent}| + 1;
    } else {
      assert m.subagents - {agent} == m.subagents;
    }
  }

  /**
   For every run of a machine that starts with nothing tracked: at most 256 subagents are kept, all of them
   really running, and all that run unless more than 256 ever ran at once, which the exhausted flag says exactly;
   the remaining work is the last turn's report since the last prompt; and a Session is shown as completed only
   when no subagent and no other work is left.
   */
  lemma {:induction false} BoundedTrackerRefinesIdeal(m: Machine, ops: seq<Op>)
    requires Validate(m.status).Pass? && m == FromPersisted(m.status, m.failure)
    ensures Refines(Run(m, ops), OutstandingAfter(m, ops))
  {
    if ops != [] {
      var before := ops[..|ops| - 1];
      BoundedTrackerRefinesIdeal(m, before);
      RunKeepsStatusValid(m, before);
      StepRefines(Run(m, before), OutstandingAfter(m, before), ops[|ops| - 1]);
    }
  }

  /**
   A turn that ends, or a Session that ends at rest, is shown as completed exactly when nothing is outstanding:
   neither a tracked nor a forgotten subagent, nor work the turn itself or the last one reported.
   */
  lemma {:induction false} CompletionIsShownExactlyWhenNothingIsLeft(m: Machine, ops: seq<Op>,
      remaining: RemainingWork, at: nat)
    requires Validate(m.status).Pass? && m == FromPersisted(m.status, m.failure)
    ensures var (now, o) := (Run(m, ops), OutstandingAfter(m, ops));
            !LifecycleIsTerminal(now.status.lifecycle) ==>
              && (Apply(now, TurnStopped(remaining), at).Ok? ==>
                    (Apply(now, TurnStopped(remaining), at).value.status.activity == Completed
                     <==> NothingLeft(o.(reported := remaining))))
              && (Apply(now, SessionEnded, at).Ok?
                  && (now.status.activity == Inactive || now.status.activity == Working) ==>
                    (Apply(now, SessionEnded, at).value.status.activity == Completed <==> NothingLeft(o)))
  {
    var now := Run(m, ops);
    RunKeepsStatusValid(m, ops);
    BoundedTrackerRefinesIdeal(m, ops);
    if !LifecycleIsTerminal(now.status.lifecycle) {
      if Apply(now, TurnStopped(remaining), at).Ok? {
        ActivityFollowsEvent(now, TurnStopped(remaining), at);
      }
      if Apply(now, SessionEnded, at).Ok? {
        ActivityFollowsEvent(now, SessionEnded, at);
      }
    }
  }

  // ----- the object the daemon keeps per Session --------------------------------------------------

  class SessionStatusMachine {
    var status: SessionStatus
    var failureCategory: Option<string>
    var activeSubagents: set<string>
    var subagentCapacityExhausted: bool
    var remainingWork: RemainingWork

    ghost function Model(): Machine
      reads this
    {
      Machine(status, failureCategory, activeSubagents, subagentCapacityExhausted, remainingWork)
    }

    constructor (lifecycle: Lifecycle)
      ensures Model() == New(lifecycle)
    {
      status := SessionStatus(lifecycle, Inactive, None);
      failureCategory, activeSubagents, subagentCapacityExhausted, remainingWork := None, {}, false, NO_WORK;
    }

    constructor Persisted(status: SessionStatus, failure: Option<string>)
      ensures Model() == FromPersisted(status, failure)
    {
      this.status, failureCategory := status, failure;
      activeSubagents, subagentCapacityExhausted, remainingWork := {}, false, NO_WORK;
    }

    method AcknowledgeAttention(id: AttentionId, reason: Reason) returns (changed: bool)
      modifies this
      ensures (Model(), changed) == Acknowledge(old(Model()), id, reason)
    {
      if status.attention.None? {
        return false;
      }
      var event := status.attention.value;
      if event.id != id || event.reason != reason || event.acknowledgement != Pending {
        return false;
      }
      status := status.(attention := Some(event.(acknowledgement := Acknowledged)));
      return true;
    }

    method ApplyEvent(event: ProviderEvent, now: int) returns (r: Outcome<StatusError>)
      modifies this
      ensures match Apply(old(Model()), event, now)
              case Ok(next) => r.Pass? && Model() == next
              case Err(e) => r == Fail(e)
    {
      if LifecycleIsTerminal(status.lifecycle) {
        return Pass;
      }
      status := status.(lifecycle := Running);
      match event {
        case InputRequestOpened =>
          r := RenewInputAttention(now);
        case InputRequestsResolved =>
          r := Pass;
          if status.activity == AwaitingInput {
            r := SetLive(Working, None, now);
          }
        case ToolStarted =>
          r := Pass;
        case ToolCompleted =>
          r := Pass;
        case PermissionCheckStarted =>
          r := SetLive(Working, None, now);
        case PromptSubmitted =>
          ForgetWork();
          r := SetLive(Working, None, now);
        case TurnStarted(_) =>
          ForgetWork();
          r := SetLive(Working, None, now);
        case PermissionRequested =>
          r := SetLive(AwaitingInput, Some(InputRequested), now);
        case UserInputRequested =>
          r := SetLive(AwaitingInput, Some(InputRequested), now);
        case TurnFailed(category) =>
          r := ApplyTurnFailed(category, now);
        case SubagentStarted(agent) =>
          r := ApplySubagentStarted(agent, now);
        case SubagentStopped(agent) =>
          activeSubagents := activeSubagents - {agent};
          r := Pass;
        case TurnStopped(remaining) =>
          remainingWork := remaining;
          if activeSubagents == {} && !subagentCapacityExhausted && remaining.Empty() {
            r := SetLive(Completed, Some(SuccessfulCompletion), now);
          } else {
            r := SetLive(Working, None, now);
          }
        case TurnInterrupted =>
          r := SetLive(Interrupted, None, now);
        case SessionEnded =>
          r := Pass;
          if status.activity != Completed && status.activity != Interrupted && status.activity != AwaitingInput
             && status.activity != Activity.RecoverableFailure
             && activeSubagents == {} && !subagentCapacityExhausted && remainingWork.Empty()
          {
            r := SetLive(Completed, Some(SuccessfulCompletion), now);
          }
      }
    }

    method ApplyTurnFailed(category: string, now: int) returns (r: Outcome<StatusError>)
      modifies this
      ensures match FailTurn(old(Model()), category, now)
              case Ok(next) => r.Pass? && Model() == next
              case Err(e) => r == Fail(e)
    {
      var materiallyNew := failureCategory.Some? && failureCategory.value != category;
      failureCategory := Some(category);
      status := status.(activity := Activity.RecoverableFailure);
      r := SetAttentionCondition(Reason.RecoverableFailure, now, materiallyNew);
      if r.Pass? {
        r := Validate(status);
      }
    }

    method ApplySubagentStarted(agent: string, now: int) returns (r: Outcome<StatusError>)
      modifies this
      ensures match StartSubagent(old(Model()), agent, now)
              case Ok(next) => r.Pass? && Model() == next
              case Err(e) => r == Fail(e)
    {
      r := Pass;
      if agent !in activeSubagents {
        if |activeSubagents| < MAX_TRACKED_SUBAGENTS {
          activeSubagents := activeSubagents + {agent};
        } else {
          subagentCapacityExhausted := true;
        }
      }
      if status.activity != AwaitingInput {
        r := SetLive(Working, None, now);
      }
    }

    method ApplyProcessExit(plainShell: bool, exitCode: Option<int>, stopRequested: bool, now: int)
      returns (r: Outcome<StatusError>)
      modifies this
      ensures match ApplyExit(old(Model()), plainShell, exitCode, stopRequested, now)
              case Ok(next) => r.Pass? && Model() == next
              case Err(e) => r == Fail(e)
    {
      if stopRequested {
        status := status.(lifecycle := Terminated, activity := Inactive);
        failureCategory := None;
        ResolveAttention();
        return Validate(status);
      }
      var hasCompletion := status.attention.Some? && status.attention.value.reason == SuccessfulCompletion
                           && status.attention.value.acknowledgement != Resolved;
      if (plainShell && exitCode == Some(0)) || hasCompletion {
        status := status.(lifecycle := Exited, activity := Inactive);
        failureCategory := None;
        r := SetAttentionCondition(SuccessfulCompletion, now, false);
      } else if status.activity == Interrupted && exitCode == Some(0) {
        status := status.(lifecycle := Exited, activity := Inactive);
        failureCategory := None;
        ResolveAttention();
        r := Pass;
      } else {
        status := status.(lifecycle := Failed, activity := Inactive);
        failureCategory := Some(ExitCategory(exitCode));
        r := SetAttentionCondition(TerminalFailure, now, false);
      }
      if r.Pass? {
        r := Validate(status);
      }
    }

    method RenewInputAttention(now: int) returns (r: Outcome<StatusError>)
      modifies this
      ensures match RenewInput(old(Model()), now)
              case Ok(next) => r.Pass? && Model() == next
              case Err(e) => r == Fail(e)
    {
      if status.lifecycle != Running {
        return Fail(InputRequiresRunning);
      }
      status := status.(activity := AwaitingInput);
      r := SetAttentionCondition(InputRequested, now, true);
      if r.Pass? {
        r := Validate(status);
      }
    }

    method ResolveInputAttention(id: AttentionId, now: int) returns (r: Outcome<StatusError>)
      modifies this
      ensures match ResolveInput(old(Model()), id, now)
              case Ok(next) => r.Pass? && Model() == next
              case Err(e) => r == Fail(e)
    {
      r := Pass;
      if status.activity == AwaitingInput && status.attention.Some? && status.attention.value.id == id {
        r := SetLive(Working, None, now);
      }
    }

    method SetLive(activity: Activity, reason: Option<Reason>, now: int) returns (r: Outcome<StatusError>)
      modifies this
      ensures match SetLiveCondition(old(Model()), activity, reason, now)
              case Ok(next) => r.Pass? && Model() == next
              case Err(e) => r == Fail(e)
    {
      status := status.(activity := activity);
      if activity != Activity.RecoverableFailure {
        failureCategory := None;
      }
      if reason.Some? {
        r := SetAttentionCondition(reason.value, now, false);
        if r.Fail? {
          return;
        }
      } else {
        ResolveAttention();
      }
      r := Validate(status);
    }

    method SetAttentionCondition(reason: Reason, now: int, materiallyNew: bool) returns (r: Outcome<StatusError>)
      modifies this`status
      ensures match RaisedAttention(old(status.attention), reason, now, materiallyNew)
              case Ok(a) => r.Pass? && status == old(status).(attention := a)
              case Err(e) => r == Fail(e) && status == old(status)
    {
      if !materiallyNew && status.attention.Some? && status.attention.value.reason == reason
         && status.attention.value.acknowledgement != Resolved
      {
        return Pass;
      }
      var next := if status.attention.Some? then status.attention.value.id + 1 else 1;
      if next > I64_MAX {
        return Fail(IdentityExhausted);
      }
      status := status.(attention := Some(AttentionEvent(next, reason, Pending, now)));
      return Pass;
    }

    method ResolveAttention()
      modifies this`status
      ensures status == old(status).(attention := ResolvedAttention(old(status.attention)))
    {
      if status.attention.Some? {
        status := status.(attention := Some(status.attention.value.(acknowledgement := Resolved)));
      }
    }

    method ForgetWork()
      modifies this
      ensures Model() == Forget(old(Model()))
    {
      activeSubagents, subagentCapacityExhausted, remainingWork := {}, false, NO_WORK;
    }
  }
}
