/**
 The attention pipeline of one Codex Session and the delivery of notifications in one system: the pipeline's
 moves are the writes of that Session's row, by tasks that take its lock and tell the claim queue
 afterwards (crates/sylvops-daemon/src/daemon.rs:4218-4290, 4365-4518 and 4606-4740).
 */
module PromptNotification {
  import opened Wrappers
  import opened SessionState
  import opened StatusMachine
  import opened CodexBridge
  import opened CodexHooks
  import AP = AttentionPipeline
  import NC = NotificationClaims
  import opened NotificationDelivery
  import opened NotificationLosses

  type Claims = NC.Claims
  type Entry = NC.Entry
  type SessionId = NC.SessionId

  /** `me` is the Session the pipeline belongs to; it is not deleted while the system is looked at. */
  datatype System = System(me: SessionId, session: AP.Session, world: World)

  /** A move of the Session, taken by a task, or any other action of the daemon. */
  datatype Step = Own(task: TaskId, move: AP.Move) | Foreign(action: Action)

  function Launch(me: SessionId, resumed: Option<string>, rows: map<SessionId, Machine>): System {
    System(me, AP.Launched(resumed), Started(rows[me := New(Running)]))
  }

  predicate TouchesRow(a: Action, me: SessionId) {
    (a.Create? || a.Delete? || a.Write? || a.Acknowledge?) && a.session == me
  }

  /** The action by which a move changes the row, or None when it leaves the row alone. */
  function RowAction(x: System, t: TaskId, move: AP.Move): Option<Action> {
    var s := x.session;
    match move
    case Speak(_) => None
    case Deliver(at) =>
      if !s.consuming || s.queue == [] || !LifecycleIsActive(s.persisted.lifecycle)
         || AP.Commit(s.(queue := s.queue[1..]), s.queue[0].event, s.queue[0].conversation, at).Err? then None
      else Some(Write(t, x.me, Provide(s.queue[0].event, at)))
    case Receive(hook, at) =>
      if !LifecycleIsActive(s.persisted.lifecycle) || Normalize(hook.payload).Err? then None
      else
        var normalized := Normalize(hook.payload).value;
        if AP.Gated(s, normalized.event) || hook.refused
           || AP.Commit(s, normalized.event, normalized.conversation, at).Err? then None
        else Some(Write(t, x.me, Provide(normalized.event, at)))
    case ReviewBy(id, action) =>
      if Review(s.persisted, id, action).None? then None else Some(Acknowledge(t, x.me, id, action))
    case ProcessExit(code, stop, at) =>
      if ApplyExit(s.machine, false, code, stop, at).Err? then None
      else Some(Write(t, x.me, Exit(false, code, stop, at)))
  }

  /** A task that is busy, or a lock that is taken, keeps a move waiting. */
  predicate Waits(x: System, step: Step) {
    match step
    case Own(t, move) => !move.Speak? && (TaskAt(x.world, t) != Idle || Locked(x.world.tasks, x.me))
    case Foreign(a) => TouchesRow(a, x.me)
  }

  function WorldAction(x: System, step: Step): Option<Action> {
    if Waits(x, step) then None
    else
      match step
      case Own(t, move) => RowAction(x, t, move)
      case Foreign(a) => Some(a)
  }

  function Next(x: System, step: Step): System {
    if Waits(x, step) then x
    else
      x.(session := if step.Own? then AP.MoveStep(x.session, step.move) else x.session,
         world := if WorldAction(x, step).Some? then Act(x.world, WorldAction(x, step).value) else x.world)
  }

  function Run(x: System, steps: seq<Step>): System {
    if steps == [] then x else Next(Run(x, steps[..|steps| - 1]), steps[|steps| - 1])
  }

  // ----- the system is a run of the pipeline and a history of the daemon at once ----------------------

  function Moves(x: System, steps: seq<Step>): seq<AP.Move> {
    if steps == [] then []
    else
      var before, last := steps[..|steps| - 1], steps[|steps| - 1];
      Moves(x, before) + (if last.Own? && !Waits(Run(x, before), last) then [last.move] else [])
  }

  function Actions(x: System, steps: seq<Step>): seq<Action> {
    if steps == [] then []
    else
      var before, last := steps[..|steps| - 1], steps[|steps| - 1];
      var action := WorldAction(Run(x, before), last);
      Actions(x, before) + (if action.Some? then [action.value] else [])
  }

  /** The daemon's row of the Session is the pipeline's reducer, and mirrors the pipeline's row. */
  ghost predicate Mirrors(x: System) {
    && x.me in x.world.rows && x.world.rows[x.me] == x.session.machine
    && AP.PromptShown(x.session)
  }

  /** A row action does to the daemon's row what the move does to the pipeline's, and takes the lock. */
  ghost predicate Matches(x: System, t: TaskId, move: AP.Move, task: Task)
    requires RowAction(x, t, move).Some?
  {
    var (session, world) := (AP.MoveStep(x.session, move), Act(x.world, RowAction(x, t, move).value));
    && world.rows == x.world.rows[x.me := session.machine]
    && world.tasks == x.world.tasks[t := task]
  }

  lemma ProvidedEventMatches(x: System, t: TaskId, event: ProviderEvent, conversation: Option<string>, at: nat)
    requires Mirrors(x) && TaskAt(x.world, t) == Idle && !Locked(x.world.tasks, x.me)
    requires LifecycleIsActive(x.session.persisted.lifecycle)
    requires AP.Commit(x.session, event, conversation, at).Ok?
    ensures var world := WriteStep(x.world, t, x.me, Provide(event, at));
            && world.rows == x.world.rows[x.me := AP.Commit(x.session, event, conversation, at).value.machine]
            && world.tasks == x.world.tasks[t := Writing(x.me, x.session.persisted.attention)]
  {
  }

  lemma DeliverMatches(x: System, t: TaskId, at: nat)
    requires Mirrors(x) && TaskAt(x.world, t) == Idle && !Locked(x.world.tasks, x.me)
    requires RowAction(x, t, AP.Deliver(at)).Some?
    ensures Matches(x, t, AP.Deliver(at), Writing(x.me, x.session.persisted.attention))
  {
    var s := x.session;
    var rest := s.(queue := s.queue[1..]);
    assert AP.Commit(rest, s.queue[0].event, s.queue[0].conversation, at).value.machine
        == AP.Commit(s, s.queue[0].event, s.queue[0].conversation, at).value.machine;
    ProvidedEventMatches(x, t, s.queue[0].event, s.queue[0].conversation, at);
  }

  lemma ReceiveMatches(x: System, t: TaskId, hook: AP.Hook, at: nat)
    requires Mirrors(x) && TaskAt(x.world, t) == Idle && !Locked(x.world.tasks, x.me)
    requires RowAction(x, t, AP.Receive(hook, at)).Some?
    ensures Matches(x, t, AP.Receive(hook, at), Writing(x.me, x.session.persisted.attention))
  {
    var normalized := Normalize(hook.payload).value;
    ProvidedEventMatches(x, t, normalized.event, normalized.conversation, at);
  }

  lemma ReviewMatches(x: System, t: TaskId, id: AttentionId, action: ReviewAction)
    requires Mirrors(x) && TaskAt(x.world, t) == Idle && !Locked(x.world.tasks, x.me)
    requires RowAction(x, t, AP.ReviewBy(id, action)).Some?
    ensures Matches(x, t, AP.ReviewBy(id, action), Reviewing(x.me))
  {
    ReviewMovesOneEventForward(x.session.persisted, id, action);
  }

  lemma ExitMatches(x: System, t: TaskId, code: Option<int>, stop: bool, at: nat)
    requires Mirrors(x) && TaskAt(x.world, t) == Idle && !Locked(x.world.tasks, x.me)
    requires RowAction(x, t, AP.ProcessExit(code, stop, at)).Some?
    ensures Matches(x, t, AP.ProcessExit(code, stop, at), Writing(x.me, x.session.persisted.attention))
  {
  }

  /** A move without a row action changes neither reducer nor row. */
  lemma OtherMovesLeaveRow(x: System, t: TaskId, move: AP.Move)
    requires Mirrors(x) && RowAction(x, t, move).None?
    ensures AP.MoveStep(x.session, move).machine == x.session.machine
    ensures AP.MoveStep(x.session, move).persisted == x.session.persisted
  {
  }

  lemma RowActionMatches(x: System, t: TaskId, move: AP.Move) returns (task: Task)
    requires Mirrors(x) && TaskAt(x.world, t) == Idle && !Locked(x.world.tasks, x.me)
    requires RowAction(x, t, move).Some?
    ensures Matches(x, t, move, task)
  {
    match move
    case Deliver(at) =>
      DeliverMatches(x, t, at);
      task := Writing(x.me, x.session.persisted.attention);
    case Receive(hook, at) =>
      ReceiveMatches(x, t, hook, at);
      task := Writing(x.me, x.session.persisted.attention);
    case ReviewBy(id, action) =>
      ReviewMatches(x, t, id, action);
      task := Reviewing(x.me);
    case ProcessExit(code, stop, at) =>
      ExitMatches(x, t, code, stop, at);
      task := Writing(x.me, x.session.persisted.attention);
  }

  lemma OtherActionKeepsRow(w: World, a: Action, me: SessionId)
    requires !TouchesRow(a, me) && me in w.rows
    ensures me in Act(w, a).rows && Act(w, a).rows[me] == w.rows[me]
  {
  }

  lemma NextMirrors(x: System, step: Step)
    requires Mirrors(x)
    ensures Mirrors(Next(x, step))
  {
    if !Waits(x, step) {
      match step
      case Own(t, move) =>
        AP.MoveKeepsPromptShown(x.session, move);
        if RowAction(x, t, move).Some? {
          var task := RowActionMatches(x, t, move);
        } else {
          OtherMovesLeaveRow(x, t, move);
        }
      case Foreign(a) => OtherActionKeepsRow(x.world, a, x.me);
    }
  }

  lemma LaunchMirrors(me: SessionId, resumed: Option<string>, rows: map<SessionId, Machine>)
    ensures Mirrors(Launch(me, resumed, rows))
  {
    AP.EveryRunKeepsPromptShown(resumed, []);
  }

  lemma HistoryExtends(rows: map<SessionId, Machine>, actions: seq<Action>, a: Action)
    ensures History(rows, actions + [a]) == Act(History(rows, actions), a)
  {
    assert (actions + [a])[..|actions|] == actions;
  }

  lemma PipelineExtends(resumed: Option<string>, moves: seq<AP.Move>, move: AP.Move)
    ensures AP.PipelineRun(resumed, moves + [move]) == AP.MoveStep(AP.PipelineRun(resumed, moves), move)
  {
    assert (moves + [move])[..|moves|] == moves;
  }

  /**
   Every run of the joined system is a run of the pipeline and a history of the daemon, and its two views of
   the Session agree. So everything proved of either holds of the joined system.
   */
  lemma {:induction false} EveryRunIsBoth(
    me: SessionId, resumed: Option<string>, rows: map<SessionId, Machine>, steps: seq<Step>)
    ensures var (start, x) := (Launch(me, resumed, rows), Run(Launch(me, resumed, rows), steps));
            && x.me == me && Mirrors(x)
            && x.session == AP.PipelineRun(resumed, Moves(start, steps))
            && x.world == History(rows[me := New(Running)], Actions(start, steps))
  {
    var start := Launch(me, resumed, rows);
    if steps == [] {
      LaunchMirrors(me, resumed, rows);
    } else {
      var before, last := steps[..|steps| - 1], steps[|steps| - 1];
      var x := Run(start, before);
      EveryRunIsBoth(me, resumed, rows, before);
      NextMirrors(x, last);
      if last.Own? {
        PipelineExtends(resumed, Moves(start, before), last.move);
      }
      if WorldAction(x, last).Some? {
        HistoryExtends(rows[me := New(Running)], Actions(start, before), WorldAction(x, last).value);
      }
      assert Moves(start, before) + [] == Moves(start, before) && Actions(start, before) + [] == Actions(start, before);
    }
  }

  // ----- an open prompt reaches the queue ---------------------------------------------------------------

  predicate ByTask(a: Action, t: TaskId) {
    match a
    case Write(u, _, _) => u == t
    case Coordinate(u, _) => u == t
    case Abandon(u) => u == t
    case Acknowledge(u, _, _, _) => u == t
    case CancelReviewed(u) => u == t
    case BeginClaim(u, _) => u == t
    case Pop(u, _) => u == t
    case Check(u, _) => u == t
    case Hand(u, _) => u == t
    case _ => false
  }

  predicate OfTask(step: Step, t: TaskId) {
    step.Foreign? && ByTask(step.action, t)
  }

  /** Task `t` holds the Session's lock with the row written and the queue not yet told. */
  ghost predicate Pends(x: System, t: TaskId, previous: Option<AttentionEvent>, row: SessionStatus) {
    Mirrors(x) && TaskAt(x.world, t) == Writing(x.me, previous) && x.session.persisted == row
  }

  lemma OtherActionKeepsTask(w: World, a: Action, t: TaskId)
    requires !ByTask(a, t)
    ensures TaskAt(Act(w, a), t) == TaskAt(w, t)
  {
  }

  /** While the lock is held no step of anyone else's changes the row or the task. */
  lemma StepLeavesPending(x: System, step: Step, t: TaskId, previous: Option<AttentionEvent>, row: SessionStatus)
    requires Pends(x, t, previous, row) && !OfTask(step, t)
    ensures Pends(Next(x, step), t, previous, row)
  {
    NextMirrors(x, step);
    assert Holds(x.world.tasks[t], x.me) && Locked(x.world.tasks, x.me);
    if !Waits(x, step) && step.Foreign? {
      OtherActionKeepsTask(x.world, step.action, t);
    }
  }

  lemma {:induction false} RunLeavesPending(
    x: System, steps: seq<Step>, t: TaskId, previous: Option<AttentionEvent>, row: SessionStatus)
    requires Pends(x, t, previous, row) && forall step | step in steps :: !OfTask(step, t)
    ensures Pends(Run(x, steps), t, previous, row)
  {
    if steps != [] {
      RunLeavesPending(x, steps[..|steps| - 1], t, previous, row);
      StepLeavesPending(Run(x, steps[..|steps| - 1]), steps[|steps| - 1], t, previous, row);
    }
  }

  /** The opening of a prompt is at the head of the queue, and a task that can take the lock may commit it. */
  predicate OpensPrompt(x: System, t: TaskId, at: nat) {
    && x.session.queue != [] && x.session.queue[0].event.InputRequestOpened?
    && TaskAt(x.world, t) == Idle && !Locked(x.world.tasks, x.me)
    && RowAction(x, t, AP.Deliver(at)).Some?
  }

  predicate IsNewPrompt(earlier: Option<AttentionEvent>, later: Option<AttentionEvent>, at: nat) {
    && later.Some? && later.value.id == IdentityOf(earlier) + 1
    && later.value.reason == InputRequested && later.value.acknowledgement == Pending && later.value.occurredAt == at
  }

  /** The row after a prompt opened: a new, pending input request. */
  lemma DeliveredPromptIsNew(x: System, t: TaskId, at: nat)
    requires Mirrors(x) && OpensPrompt(x, t, at)
    ensures var next := Next(x, Own(t, AP.Deliver(at)));
            && Pends(next, t, x.session.persisted.attention, next.session.persisted)
            && next.session.persisted.activity == AwaitingInput
            && IsNewPrompt(x.session.persisted.attention, next.session.persisted.attention, at)
  {
    NextMirrors(x, Own(t, AP.Deliver(at)));
    DeliverMatches(x, t, at);
  }

  /** The queue right after the task told it: exactly if the event was heard, it holds the event's entry. */
  ghost predicate QueuedExactlyWhenHeard(x: System, t: TaskId, now: int)
    requires x.session.persisted.attention.Some?
  {
    var told := Next(x, Foreign(Coordinate(t, now)));
    InQueue(told.world.claims, x.me, x.session.persisted.attention.value, now + 1000)
    <==> x.world.claims.watermarks != map[] && !NC.InForeground(x.world.claims, x.me)
  }

  lemma CoordinatedPromptIsQueued(x: System, t: TaskId, previous: Option<AttentionEvent>, at: nat, now: int)
    requires Pends(x, t, previous, x.session.persisted) && IsNewPrompt(previous, x.session.persisted.attention, at)
    ensures QueuedExactlyWhenHeard(x, t, now)
  {
    RecordQueuesExactlyWhenHeard(x.world.claims, x.me, x.session.persisted.attention.value, now);
  }

  ghost predicate PromptReaches(told: System, previous: Option<AttentionEvent>, t: TaskId, at: nat, now: int) {
    && told.session.persisted.activity == AwaitingInput
    && IsNewPrompt(previous, told.session.persisted.attention, at)
    && QueuedExactlyWhenHeard(told, t, now)
  }

  lemma PendingPromptReachesQueue(
    next: System, previous: Option<AttentionEvent>, t: TaskId, at: nat, others: seq<Step>, now: int)
    requires Pends(next, t, previous, next.session.persisted) && next.session.persisted.activity == AwaitingInput
    requires IsNewPrompt(previous, next.session.persisted.attention, at)
    requires forall step | step in others :: !OfTask(step, t)
    ensures PromptReaches(Run(next, others), previous, t, at, now)
  {
    RunLeavesPending(next, others, t, previous, next.session.persisted);
    CoordinatedPromptIsQueued(Run(next, others), t, previous, at, now);
  }

  /**
   From a prompt to the queue. When a task commits the opening of a prompt, then whatever everyone else does
   until that task tells the queue, the row keeps showing that new event, and telling the queue leaves an entry
   for exactly it, due one second later, if and only if a client is connected then and none has the Session in
   the foreground.
   */
  lemma {:induction false} PromptIsQueuedExactlyWhenHeard(
    me: SessionId, resumed: Option<string>, rows: map<SessionId, Machine>,
    steps: seq<Step>, t: TaskId, at: nat, others: seq<Step>, now: int)
    requires OpensPrompt(Run(Launch(me, resumed, rows), steps), t, at)
    requires forall step | step in others :: !OfTask(step, t)
    ensures var x := Run(Launch(me, resumed, rows), steps);
            var told := Run(Next(x, Own(t, AP.Deliver(at))), others);
            told.me == me && PromptReaches(told, x.session.persisted.attention, t, at, now)
  {
    var x := Run(Launch(me, resumed, rows), steps);
    EveryRunIsBoth(me, resumed, rows, steps);
    DeliveredPromptIsNew(x, t, at);
    PendingPromptReachesQueue(Next(x, Own(t, AP.Deliver(at))), x.session.persisted.attention, t, at, others, now);
    RunKeepsMe(Next(x, Own(t, AP.Deliver(at))), others);
  }

  lemma {:induction false} RunKeepsMe(x: System, steps: seq<Step>)
    ensures Run(x, steps).me == x.me
  {
    if steps != [] {
      RunKeepsMe(x, steps[..|steps| - 1]);
    }
  }

  // ----- why a prompt's entry may leave the queue -------------------------------------------------------

  /** The row shows a later event, or shows this one as reviewed or resolved. */
  predicate Outdated(row: SessionStatus, event: AttentionEvent) {
    && row.attention.Some?
    && (event.id < row.attention.value.id
        || (event.id == row.attention.value.id && row.attention.value.acknowledgement != Pending))
  }

  /** Why an entry may leave the queue in one step of the joined system. */
  ghost predicate PromptMayLeave(x: System, step: Step, e: Entry) {
    match WorldAction(x, step)
    case None => false
    case Some(a) =>
      if a.CancelReviewed? || (a.Coordinate? && Holds(TaskAt(x.world, a.task), x.me))
      then Outdated(x.session.persisted, e.event)
      else MayLeave(x.world, a, e)
  }

  /** A queued event the row does not show any more is outdated: the row's history goes on from it. */
  lemma UnshownEntryIsOutdated(x: System, e: Entry)
    requires Mirrors(x) && WorldInv(x.world) && e in x.world.claims.pending && e.session == x.me
    requires NotShown(x.world.rows, e)
    ensures Outdated(x.session.persisted, e.event)
  {
    assert Plain(e) in Queued(x.world.claims) && Logged(x.world.log, Plain(e));
  }

  /** What an outdated event means for a prompt that is open while the consumer has caught up. */
  predicate ReviewedOrSucceeded(row: SessionStatus, event: AttentionEvent) {
    && OpenReason(row.attention) == Some(InputRequested)
    && (event.id < row.attention.value.id || row.attention.value.acknowledgement == Acknowledged)
  }

  lemma OpenPromptIsReviewedOrSucceeded(x: System, event: AttentionEvent)
    requires Mirrors(x) && Outdated(x.session.persisted, event)
    requires AP.Settled(x.session) && Waiting(x.session.bridge.tracker)
    ensures ReviewedOrSucceeded(x.session.persisted, event)
  {
    ValidateAcceptsExactlyTheTable(x.session.persisted);
  }

  /** An entry that leaves the queue in this step leaves for one of the reasons above. */
  ghost predicate LeavesForReason(x: System, step: Step, e: Entry) {
    e in x.world.claims.pending && !StillQueued(Next(x, step).world.claims.pending, e) ==>
      && PromptMayLeave(x, step, e)
      && (Outdated(x.session.persisted, e.event) && AP.Settled(x.session) && Waiting(x.session.bridge.tracker)
          ==> ReviewedOrSucceeded(x.session.persisted, e.event))
  }

  lemma LeavingEntryHasReason(
    x: System, step: Step, e: Entry, known: map<SessionId, Machine>, actions: seq<Action>)
    requires ValidRows(known) && x.world == History(known, actions) && Mirrors(x) && e.session == x.me
    ensures e in x.world.claims.pending && !StillQueued(Next(x, step).world.claims.pending, e)
            ==> PromptMayLeave(x, step, e)
  {
    if e in x.world.claims.pending {
      if WorldAction(x, step).None? {
        QueuedStays(x.world.claims.pending, e);
      } else {
        HistoryExtends(known, actions, WorldAction(x, step).value);
        EntryLeavesQueueOnlyFor(known, actions, WorldAction(x, step).value, e);
        EveryHistoryKeepsInv(known, actions);
        if NotShown(x.world.rows, e) {
          UnshownEntryIsOutdated(x, e);
        }
      }
    }
  }

  lemma EntryLeavesForReason(
    x: System, step: Step, e: Entry, known: map<SessionId, Machine>, actions: seq<Action>)
    requires ValidRows(known) && x.world == History(known, actions) && Mirrors(x) && e.session == x.me
    ensures LeavesForReason(x, step, e)
  {
    LeavingEntryHasReason(x, step, e, known, actions);
    if Outdated(x.session.persisted, e.event) && AP.Settled(x.session) && Waiting(x.session.bridge.tracker) {
      OpenPromptIsReviewedOrSucceeded(x, e.event);
    }
  }

  /**
   Why an entry of the Session may leave the queue before a client claims it: focus on the Session, eviction as
   the oldest of 256, no connected client that could claim it, or an outdated event. For a prompt that is still
   open and a consumer that has caught up, outdated means that the user reviewed it or that a later prompt
   took its place: nothing else the Session does takes the entry away.
   */
  lemma {:induction false} PromptEntryLeavesOnlyFor(
    me: SessionId, resumed: Option<string>, rows: map<SessionId, Machine>, steps: seq<Step>, step: Step, e: Entry)
    requires ValidRows(rows) && e.session == me
    ensures LeavesForReason(Run(Launch(me, resumed, rows), steps), step, e)
  {
    var start := Launch(me, resumed, rows);
    EveryRunIsBoth(me, resumed, rows, steps);
    EntryLeavesForReason(Run(start, steps), step, e, rows[me := New(Running)], Actions(start, steps));
  }
}
