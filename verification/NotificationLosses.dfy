/**
 Which events reach the queue, why a queued or claimed notification may be lost, and what a write costs
 that never reached the queue (crates/sylvops-daemon/src/daemon.rs:116-227, 4505-4518 and 4670-4740).
 */
module NotificationLosses {
  import opened Wrappers
  import opened SessionState
  import opened StatusMachine
  import opened NotificationClaims
  import opened NotificationDelivery

  ghost predicate InQueue(c: Claims, s: SessionId, event: AttentionEvent, readyAt: int) {
    exists e | e in c.pending :: e.session == s && e.event == event && e.readyAt == readyAt
  }

  /**
   When a write gave the Session a new event, telling the queue queues it with its delay exactly when
   some client is connected and none has the Session in the foreground.
   */
  lemma {:induction false} NewEventIsQueuedExactlyWhenHeard(rows: map<SessionId, Machine>, actions: seq<Action>,
      t: TaskId, now: int)
    requires ValidRows(rows)
    requires TaskAt(History(rows, actions), t).Writing?
    ensures var w := History(rows, actions);
            var Writing(s, previous) := w.tasks[t];
            && s in w.rows
            && var current := w.rows[s].status.attention;
               (IdentityOf(current) != IdentityOf(previous) ==>
                  && current.Some?
                  && (InQueue(CoordinateStep(w, t, now).claims, s, current.value,
                              now + if current.value.reason == InputRequested then 1000 else 0)
                      <==> w.claims.watermarks != map[] && !InForeground(w.claims, s)))
  {
    EveryHistoryKeepsInv(rows, actions);
    var w := History(rows, actions);
    var Writing(s, previous) := w.tasks[t];
    if IdentityOf(w.rows[s].status.attention) != IdentityOf(previous) {
      RecordQueuesExactlyWhenHeard(w.claims, s, w.rows[s].status.attention.value, now);
    }
  }

  lemma RecordQueuesExactlyWhenHeard(c: Claims, s: SessionId, event: AttentionEvent, now: int)
    requires event.acknowledgement == Pending
    ensures InQueue(Record(c, s, Some(event), now).0, s, event, now + Delay(event))
            <==> c.watermarks != map[] && !InForeground(c, s)
  {
    var next := Record(c, s, Some(event), now).0;
    if Queues(c, s, Some(event)) {
      assert next.pending[|next.pending| - 1] in next.pending;
    } else {
      assert next == Cancel(c, s);
    }
  }

  predicate NotShown(rows: map<SessionId, Machine>, e: Entry) {
    !(e.session in rows && Shows(rows[e.session].status, e.event))
  }

  /** The write leaves the Session nothing, or something other than before, to tell the user. */
  predicate Retires(w: World, t: TaskId, e: Entry) {
    && TaskAt(w, t).Writing? && w.tasks[t].session == e.session && e.session in w.rows
    && var current := w.rows[e.session].status.attention;
       IdentityOf(current) != IdentityOf(w.tasks[t].previous) || Spent(current)
  }

  /** The write queues a new event, the queue is full and the entry is its oldest. */
  predicate Evicts(w: World, t: TaskId, e: Entry) {
    && TaskAt(w, t).Writing? && w.tasks[t].session in w.rows
    && var (s, current) := (w.tasks[t].session, w.rows[w.tasks[t].session].status.attention);
       && IdentityOf(current) != IdentityOf(w.tasks[t].previous) && Queues(w.claims, s, current)
       && |w.claims.pending| >= 256 && w.claims.pending[0] == e
       && forall f | f in w.claims.pending :: f.session != s
  }

  /** Why an entry may leave the queue in one step. */
  ghost predicate MayLeave(w: World, a: Action, e: Entry) {
    match a
    case Coordinate(t, _) => Retires(w, t, e) || Evicts(w, t, e)
    case CancelReviewed(t) => TaskAt(w, t) == Reviewing(e.session)
    case Pop(t, now) =>
      && TaskAt(w, t).Seeking? && TaskAt(PopStep(w, t, now), t).Popped? && PopStep(w, t, now).tasks[t].entry == e
    case Focus(client, s) => s == e.session && client in w.claims.watermarks
    case Connect(client) => !Claimable(w.claims.watermarks[client := w.claims.sequence], e)
    case Disconnect(client) => !Claimable(w.claims.watermarks - {client}, e)
    case _ => false
  }

  /** A row under review has nothing left to tell until the lock is released. */
  ghost predicate ReviewsInv(rows: map<SessionId, Machine>, tasks: map<TaskId, Task>) {
    forall t | t in tasks && tasks[t].Reviewing? ::
      tasks[t].session in rows && Spent(rows[tasks[t].session].status.attention)
  }

  lemma ChangedRowKeepsReviews(w: World, s: SessionId, m: Machine, t: TaskId, task: Task)
    requires ReviewsInv(w.rows, w.tasks) && !Locked(w.tasks, s)
    requires task.Writing? || (task == Reviewing(s) && Spent(m.status.attention))
    ensures ReviewsInv(w.rows[s := m], w.tasks[t := task])
  {
    forall u | u in w.tasks && w.tasks[u].Reviewing?
      ensures w.tasks[u].session != s
    {
      assert Holds(w.tasks[u], w.tasks[u].session);
    }
  }

  lemma DeletionKeepsReviews(w: World, s: SessionId)
    requires ReviewsInv(w.rows, w.tasks)
    ensures ReviewsInv(DeleteStep(w, s).rows, w.tasks)
  {
    forall u | u in w.tasks && w.tasks[u].Reviewing?
      ensures w.tasks[u].session in DeleteStep(w, s).rows
    {
      assert Holds(w.tasks[u], w.tasks[u].session);
    }
  }

  lemma CreationKeepsReviews(w: World, s: SessionId)
    requires ReviewsInv(w.rows, w.tasks) && w.rows.Keys <= w.used
    ensures ReviewsInv(CreateStep(w, s).rows, w.tasks)
  {
  }

  lemma OtherTaskKeepsReviews(w: World, t: TaskId, task: Task)
    requires ReviewsInv(w.rows, w.tasks) && (task.Reviewing? ==> t in w.tasks && w.tasks[t] == task)
    ensures ReviewsInv(w.rows, w.tasks[t := task])
  {
  }

  lemma ActKeepsReviews(w: World, a: Action)
    requires ReviewsInv(w.rows, w.tasks) && w.rows.Keys <= w.used
    ensures ReviewsInv(Act(w, a).rows, Act(w, a).tasks)
  {
    match a
    case Create(s) => CreationKeepsReviews(w, s);
    case Delete(s) => DeletionKeepsReviews(w, s);
    case Write(t, s, op) =>
      if WriteStep(w, t, s, op) != w {
        ChangedRowKeepsReviews(w, s, Step(w.rows[s], op), t, Writing(s, w.rows[s].status.attention));
      }
    case Acknowledge(t, s, id, action) =>
      if AcknowledgeStep(w, t, s, id, action) != w {
        var reviewed := w.rows[s].(status := Review(w.rows[s].status, id, action).value);
        ChangedRowKeepsReviews(w, s, reviewed, t, Reviewing(s));
      }
    case Coordinate(t, now) => OtherTaskKeepsReviews(w, t, Idle);
    case Abandon(t) => OtherTaskKeepsReviews(w, t, Idle);
    case CancelReviewed(t) => OtherTaskKeepsReviews(w, t, Idle);
    case BeginClaim(t, client) => OtherTaskKeepsReviews(w, t, Seeking(client, CAPACITY));
    case Pop(t, now) => OtherTaskKeepsReviews(w, t, TaskAt(PopStep(w, t, now), t));
    case Check(t, failed) => OtherTaskKeepsReviews(w, t, TaskAt(CheckStep(w, t, failed), t));
    case Hand(t, failed) => OtherTaskKeepsReviews(w, t, TaskAt(HandStep(w, t, failed), t));
    case _ =>
  }

  lemma {:induction false} RetainAll(s: seq<Entry>, keep: Entry -> bool)
    requires |Retain(s, keep)| == |s|
    ensures Retain(s, keep) == s
  {
    if s != [] {
      RetainAll(s[1..], keep);
    }
  }

  lemma StepKeepsBound(w: World, a: Action)
    requires |w.claims.pending| <= CAPACITY
    ensures |Act(w, a).claims.pending| <= CAPACITY
  {
  }

  lemma {:induction false} QueueIsBounded(rows: map<SessionId, Machine>, actions: seq<Action>)
    ensures |History(rows, actions).claims.pending| <= 256
  {
    if actions != [] {
      QueueIsBounded(rows, actions[..|actions| - 1]);
      StepKeepsBound(History(rows, actions[..|actions| - 1]), actions[|actions| - 1]);
    }
  }

  lemma {:induction false} EveryHistoryKeepsReviews(rows: map<SessionId, Machine>, actions: seq<Action>)
    requires ValidRows(rows)
    ensures ReviewsInv(History(rows, actions).rows, History(rows, actions).tasks)
  {
    if actions != [] {
      var before := actions[..|actions| - 1];
      EveryHistoryKeepsReviews(rows, before);
      EveryHistoryKeepsInv(rows, before);
      ActKeepsReviews(History(rows, before), actions[|actions| - 1]);
    }
  }

  /** An entry taken out for its own Session's sake is one the row does not show. */
  lemma RetiredEntryIsNotShown(w: World, t: TaskId, e: Entry)
    requires WorldInv(w) && ReviewsInv(w.rows, w.tasks) && e in w.claims.pending
    requires Retires(w, t, e) || TaskAt(w, t) == Reviewing(e.session)
    ensures NotShown(w.rows, e)
  {
    assert Plain(e) in Queued(w.claims) && Logged(w.log, Plain(e));
  }

  /**
   An entry leaves the queue only into the hands of a claiming task, for a new or settled event of its
   Session, for the Session coming to the foreground, as the oldest of 256 when another event is queued, or
   because no connected client could claim it any more. Taken out for its own Session's sake, it is one the
   row no longer shows as pending.
   */
  lemma {:induction false} EntryLeavesQueueOnlyFor(rows: map<SessionId, Machine>, actions: seq<Action>, a: Action,
      e: Entry)
    requires ValidRows(rows)
    ensures var (w, next) := (History(rows, actions), History(rows, actions + [a]));
            e in w.claims.pending && !StillQueued(next.claims.pending, e) ==>
              && MayLeave(w, a, e)
              && (a.CancelReviewed? || (a.Coordinate? && w.tasks[a.task].session == e.session) ==> NotShown(w.rows, e))
  {
    var w := History(rows, actions);
    assert (actions + [a])[..|actions|] == actions;
    QueueIsBounded(rows, actions);
    EveryHistoryKeepsInv(rows, actions);
    EveryHistoryKeepsReviews(rows, actions);
    if e in w.claims.pending {
      if !MayLeave(w, a, e) {
        EntryStays(w, a, e);
      } else if (a.Coordinate? && Retires(w, a.task, e)) || a.CancelReviewed? {
        RetiredEntryIsNotShown(w, a.task, e);
      }
    }
  }

  /** The entry is still queued, announced or not. */
  ghost predicate StillQueued(pending: seq<Entry>, e: Entry) {
    exists f | f in pending :: Plain(f) == Plain(e)
  }

  lemma QueuedStays(pending: seq<Entry>, e: Entry)
    requires e in pending
    ensures StillQueued(pending, e)
  {
    assert Plain(e) == Plain(e);
  }

  lemma EntryStays(w: World, a: Action, e: Entry)
    requires |w.claims.pending| <= CAPACITY && e in w.claims.pending && !MayLeave(w, a, e)
    ensures StillQueued(Act(w, a).claims.pending, e)
  {
    match a
    case Coordinate(t, now) => EntryStaysOnCoordinate(w, t, now, e);
        QueuedStays(CoordinateStep(w, t, now).claims.pending, e);
    case CancelReviewed(t) => QueuedStays(CancelReviewedStep(w, t).claims.pending, e);
    case Pop(t, now) => EntryStaysOnPop(w, t, now, e); QueuedStays(PopStep(w, t, now).claims.pending, e);
    case Focus(client, s) => QueuedStays(FocusStep(w, client, s).claims.pending, e);
    case Blur(client) => QueuedStays(ReportFocus(w.claims, client, None).pending, e);
    case Connect(client) => QueuedStays(Register(w.claims, client).pending, e);
    case Disconnect(client) => QueuedStays(Unregister(w.claims, client).pending, e);
    case Tick(now) => EntryStaysOnTick(w.claims, now, e);
    case _ => QueuedStays(w.claims.pending, e);
  }

  lemma EntryStaysOnCoordinate(w: World, t: TaskId, now: int, e: Entry)
    requires |w.claims.pending| <= CAPACITY && e in w.claims.pending && !MayLeave(w, Coordinate(t, now), e)
    ensures e in CoordinateStep(w, t, now).claims.pending
  {
    if TaskAt(w, t).Writing? && w.tasks[t].session in w.rows {
      var Writing(s, previous) := w.tasks[t];
      var current := w.rows[s].status.attention;
      if IdentityOf(current) != IdentityOf(previous) {
        assert e in Cancel(w.claims, s).pending;
        if Queues(w.claims, s, current) {
          FullQueueDropsItsOldest(w.claims.pending, s, e);
        }
      }
    }
  }

  /** Making room costs the oldest entry only, and only when the Session itself had none to give up. */
  lemma FullQueueDropsItsOldest(pending: seq<Entry>, s: SessionId, e: Entry)
    requires |pending| <= CAPACITY && e in pending && e.session != s
    requires |pending| >= CAPACITY && pending[0] == e ==> exists f | f in pending :: f.session == s
    ensures var cleared := Without(pending, s);
            e in if |cleared| >= CAPACITY then cleared[1..] else cleared
  {
    var cleared := Without(pending, s);
    assert e in cleared;
    if |cleared| >= CAPACITY {
      RetainAll(pending, (e: Entry) => e.session != s);
      assert cleared == pending && cleared == [cleared[0]] + cleared[1..];
    }
  }

  lemma EntryStaysOnPop(w: World, t: TaskId, now: int, e: Entry)
    requires e in w.claims.pending && !MayLeave(w, Pop(t, now), e)
    ensures e in PopStep(w, t, now).claims.pending
  {
  }

  lemma EntryStaysOnTick(c: Claims, now: int, e: Entry)
    requires e in c.pending
    ensures StillQueued(AnnounceDue(c, now).0.pending, e)
  {
    var i :| 0 <= i < |c.pending| && c.pending[i] == e;
    var f := AnnounceDue(c, now).0.pending[i];
    assert f in AnnounceDue(c, now).0.pending && Plain(f) == Plain(e);
  }

  /** Why a task may let go of an entry without returning it. */
  predicate MayDrop(w: World, a: Action, t: TaskId)
    requires TaskAt(w, t).Popped? || TaskAt(w, t).Checked?
  {
    var e := w.tasks[t].entry;
    || (a.Check? && a.task == t && w.tasks[t].Popped? && (a.failed || NotShown(w.rows, e)))
    || (a.Hand? && a.task == t && w.tasks[t].Checked? && (a.failed || InForeground(w.claims, e.session)))
  }

  /**
   An entry in a task's hands stays there, or is returned to that task's client, or is dropped because the row
   no longer shows it, because the Session came to the foreground, or because row or preferences could not be read.
   */
  lemma {:induction false} HeldEntryIsDroppedOnlyFor(w: World, a: Action, t: TaskId)
    requires TaskAt(w, t).Popped? || TaskAt(w, t).Checked?
    ensures var (task, next) := (w.tasks[t], Act(w, a));
            || TaskAt(next, t) == task
            || (task.Popped? && TaskAt(next, t) == Checked(task.client, task.entry, task.at, task.left))
            || next.delivered == w.delivered + [Delivery(task.client, task.entry.session, task.entry.event, task.at)]
            || MayDrop(w, a, t)
  {
    match a
    case Check(u, failed) => assert u != t ==> TaskAt(CheckStep(w, u, failed), t) == w.tasks[t];
    case Hand(u, failed) => assert u != t ==> TaskAt(HandStep(w, u, failed), t) == w.tasks[t];
    case _ => assert TaskAt(Act(w, a), t) == w.tasks[t];
  }

  // ----- what a lapsed write costs ------------------------------------------------------------------

  /** An event that some row has had and that no task is about to record. */
  ghost predicate Missed(w: World, s: SessionId, id: int) {
    && s in w.used
    && (s in w.rows ==> id <= IdentityOf(w.rows[s].status.attention))
    && (forall i | 0 <= i < |w.log| :: !SameEvent(w.log[i], s, id))
    && (forall t | t in w.tasks && w.tasks[t].Writing? && w.tasks[t].session == s ::
        id <= IdentityOf(w.tasks[t].previous))
  }

  lemma WriteKeepsMissed(w: World, t: TaskId, session: SessionId, op: Op, s: SessionId, id: int)
    requires WorldInv(w) && Missed(w, s, id)
    ensures Missed(WriteStep(w, t, session, op), s, id)
  {
    if WriteStep(w, t, session, op) != w {
      StepKeepsStatusValid(w.rows[session], op);
    }
  }

  lemma AcknowledgeKeepsMissed(
    w: World, t: TaskId, session: SessionId, event: AttentionId, action: ReviewAction, s: SessionId, id: int)
    requires WorldInv(w) && Missed(w, s, id)
    ensures Missed(AcknowledgeStep(w, t, session, event, action), s, id)
  {
    if AcknowledgeStep(w, t, session, event, action) != w {
      ReviewMovesOneEventForward(w.rows[session].status, event, action);
    }
  }

  lemma CoordinateKeepsMissed(w: World, t: TaskId, now: int, s: SessionId, id: int)
    requires WorldInv(w) && Missed(w, s, id)
    ensures Missed(CoordinateStep(w, t, now), s, id)
  {
  }

  lemma ClaimKeepsMissed(w: World, a: Action, s: SessionId, id: int)
    requires Missed(w, s, id) && (a.BeginClaim? || a.Pop? || a.Check? || a.Hand?)
    ensures Missed(Act(w, a), s, id)
  {
  }

  lemma ActKeepsMissed(w: World, a: Action, s: SessionId, id: int)
    requires WorldInv(w) && Missed(w, s, id)
    ensures Missed(Act(w, a), s, id)
  {
    match a
    case Write(t, session, op) => WriteKeepsMissed(w, t, session, op, s, id);
    case Acknowledge(t, session, event, action) => AcknowledgeKeepsMissed(w, t, session, event, action, s, id);
    case Coordinate(t, now) => CoordinateKeepsMissed(w, t, now, s, id);
    case BeginClaim(_, _) => ClaimKeepsMissed(w, a, s, id);
    case Pop(_, _) => ClaimKeepsMissed(w, a, s, id);
    case Check(_, _) => ClaimKeepsMissed(w, a, s, id);
    case Hand(_, _) => ClaimKeepsMissed(w, a, s, id);
    case _ =>
  }

  lemma AbandonedEventIsMissed(w: World, t: TaskId)
    requires WorldInv(w) && TaskAt(w, t).Writing?
    requires var Writing(s, previous) := w.tasks[t];
             IdentityOf(w.rows[s].status.attention) != IdentityOf(previous)
    ensures var s := w.tasks[t].session; Missed(AbandonStep(w, t), s, IdentityOf(w.rows[s].status.attention))
  {
    forall u | u in w.tasks && u != t && w.tasks[u].Writing?
      ensures w.tasks[u].session != w.tasks[t].session
    {
      assert Holds(w.tasks[t], w.tasks[t].session) && Holds(w.tasks[u], w.tasks[u].session);
    }
  }

  lemma {:induction false} MissedStaysMissed(
    rows: map<SessionId, Machine>, actions: seq<Action>, i: nat, s: SessionId, id: int)
    requires ValidRows(rows) && i <= |actions| && Missed(History(rows, actions[..i]), s, id)
    ensures Missed(History(rows, actions), s, id)
  {
    if i == |actions| {
      assert actions[..i] == actions;
    } else {
      var before := actions[..|actions| - 1];
      assert before[..i] == actions[..i];
      MissedStaysMissed(rows, before, i, s, id);
      EveryHistoryKeepsInv(rows, before);
      ActKeepsMissed(History(rows, before), actions[|actions| - 1], s, id);
    }
  }

  /**
   A new event whose write lapsed is lost for good: in no later history is it recorded, and so it is never
   delivered. Later writes of the Session are not affected.
   */
  lemma {:induction false} AbandonedEventIsNeverRecorded(
    rows: map<SessionId, Machine>, actions: seq<Action>, i: nat, t: TaskId)
    requires ValidRows(rows) && i < |actions| && actions[i] == Abandon(t)
    ensures var (w, later) := (History(rows, actions[..i]), History(rows, actions));
            TaskAt(w, t).Writing? ==>
              var Writing(s, previous) := w.tasks[t];
              && s in w.rows
              && var id := IdentityOf(w.rows[s].status.attention);
                 (id != IdentityOf(previous) ==>
                    && (forall k | 0 <= k < |later.log| :: !SameEvent(later.log[k], s, id))
                    && NotDelivered(later.delivered, s, id))
  {
    var w, later := History(rows, actions[..i]), History(rows, actions);
    EveryHistoryKeepsInv(rows, actions[..i]);
    EveryHistoryKeepsInv(rows, actions);
    if TaskAt(w, t).Writing? {
      var Writing(s, previous) := w.tasks[t];
      var id := IdentityOf(w.rows[s].status.attention);
      if id != IdentityOf(previous) {
        AbandonedEventIsMissed(w, t);
        HistoryOfLonger(rows, actions, i);
        MissedStaysMissed(rows, actions, i + 1, s, id);
        UnrecordedIsUndelivered(later, s, id);
      }
    }
  }

  lemma UnrecordedIsUndelivered(w: World, s: SessionId, id: int)
    requires WorldInv(w) && forall k | 0 <= k < |w.log| :: !SameEvent(w.log[k], s, id)
    ensures NotDelivered(w.delivered, s, id)
  {
    forall j | 0 <= j < |w.delivered|
      ensures !IsDelivery(w.delivered[j], s, id)
    {
      assert WasRecorded(w.log, w.delivered[j]);
      var d := w.delivered[j];
      var i :| 0 <= i < |w.log| && w.log[i].session == d.session && w.log[i].event == d.event;
      assert !SameEvent(w.log[i], s, id);
    }
  }
}
