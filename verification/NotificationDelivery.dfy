/**
 Attention notifications end to end: any number of daemon tasks write Session rows, coordinate the
 claim queue and serve clients, with every interleaving of their atomic steps
 (crates/sylvops-daemon/src/daemon.rs:1062-1080, 1336-1352, 3088-3130, 4218-4287, 4606-4745).

 A row may be changed only by the task holding the Session's operation lock; each use of the claim
 queue is one step, because the queue sits behind its own mutex.
 */
module NotificationDelivery {
  import opened Wrappers
  import opened SessionState
  import opened StatusMachine
  import opened NotificationClaims

  type TaskId = nat

  /**
   Where a task stands. `Writing` holds the lock with the row written and the queue not yet told;
   `Reviewing` likewise after an acknowledgement; `Popped` has taken an entry off the queue and
   waits for the lock; `Checked` holds it and found the row still showing the entry.
   */
  datatype Task =
    | Idle
    | Writing(session: SessionId, previous: Option<AttentionEvent>)
    | Reviewing(session: SessionId)
    | Seeking(client: ClientId, left: nat)
    | Popped(client: ClientId, entry: Entry, at: int, left: nat)
    | Checked(client: ClientId, entry: Entry, at: int, left: nat)

  datatype Recorded = Recorded(session: SessionId, event: AttentionEvent, at: int)

  datatype Delivery = Delivery(client: ClientId, session: SessionId, event: AttentionEvent, at: int)

  /**
   `used`, `log` and `delivered` are history: Sessions ever created, events recorded, notifications returned.
   So is `lapsed`: Sessions with a write that never reached the queue and no write or review since that did.
   */
  datatype World = World(
    rows: map<SessionId, Machine>,
    claims: Claims,
    tasks: map<TaskId, Task>,
    used: set<SessionId>,
    log: seq<Recorded>,
    delivered: seq<Delivery>,
    lapsed: set<SessionId>)

  /** The daemon starts with whatever rows the database holds, an empty queue and no task under way. */
  function Started(rows: map<SessionId, Machine>): World {
    World(rows, EMPTY, map[], rows.Keys, [], [], {})
  }

  datatype Action =
    | Create(session: SessionId)
    | Delete(session: SessionId)
    | Write(task: TaskId, session: SessionId, op: Op)
    | Coordinate(task: TaskId, now: int)
    | Abandon(task: TaskId)
    | Acknowledge(task: TaskId, session: SessionId, id: AttentionId, action: ReviewAction)
    | CancelReviewed(task: TaskId)
    | BeginClaim(task: TaskId, client: ClientId)
    | Pop(task: TaskId, now: int)
    | Check(task: TaskId, failed: bool)
    | Hand(task: TaskId, failed: bool)
    | Focus(client: ClientId, session: SessionId)
    | Blur(client: ClientId)
    | Connect(client: ClientId)
    | Disconnect(client: ClientId)
    | Tick(now: int)

  function TaskAt(w: World, t: TaskId): Task {
    if t in w.tasks then w.tasks[t] else Idle
  }

  predicate Holds(task: Task, session: SessionId) {
    match task
    case Writing(s, _) => s == session
    case Reviewing(s) => s == session
    case Checked(_, entry, _, _) => entry.session == session
    case _ => false
  }

  predicate Locked(tasks: map<TaskId, Task>, session: SessionId) {
    exists t | t in tasks :: Holds(tasks[t], session)
  }

  predicate MayWrite(m: Machine, op: Op) {
    (op.Provide? && LifecycleIsActive(m.status.lifecycle)) || op.Exit?
  }

  function Act(w: World, a: Action): World {
    match a
    case Create(s) => CreateStep(w, s)
    case Delete(s) => DeleteStep(w, s)
    case Write(t, s, op) => WriteStep(w, t, s, op)
    case Coordinate(t, now) => CoordinateStep(w, t, now)
    case Abandon(t) => AbandonStep(w, t)
    case Acknowledge(t, s, id, action) => AcknowledgeStep(w, t, s, id, action)
    case CancelReviewed(t) => CancelReviewedStep(w, t)
    case BeginClaim(t, client) => BeginClaimStep(w, t, client)
    case Pop(t, now) => PopStep(w, t, now)
    case Check(t, failed) => CheckStep(w, t, failed)
    case Hand(t, failed) => HandStep(w, t, failed)
    case Focus(client, s) => FocusStep(w, client, s)
    case Blur(client) => w.(claims := ReportFocus(w.claims, client, None))
    case Connect(client) => w.(claims := Register(w.claims, client))
    case Disconnect(client) => w.(claims := Unregister(w.claims, client))
    case Tick(now) => w.(claims := AnnounceDue(w.claims, now).0)
  }

  function CreateStep(w: World, s: SessionId): World {
    if s in w.used then w else w.(rows := w.rows[s := New(Starting)], used := w.used + {s})
  }

  function DeleteStep(w: World, s: SessionId): World {
    if Locked(w.tasks, s) then w else w.(rows := w.rows - {s})
  }

  function WriteStep(w: World, t: TaskId, s: SessionId, op: Op): World {
    if TaskAt(w, t) != Idle || s !in w.rows || Locked(w.tasks, s) || !MayWrite(w.rows[s], op)
        || Attempt(w.rows[s], op).Err? then w
    else w.(rows := w.rows[s := Step(w.rows[s], op)], tasks := w.tasks[t := Writing(s, w.rows[s].status.attention)])
  }

  function AcknowledgeStep(w: World, t: TaskId, s: SessionId, id: AttentionId, action: ReviewAction): World {
    if TaskAt(w, t) != Idle || s !in w.rows || Locked(w.tasks, s) || Review(w.rows[s].status, id, action).None? then w
    else w.(rows := w.rows[s := w.rows[s].(status := Review(w.rows[s].status, id, action).value)],
            tasks := w.tasks[t := Reviewing(s)])
  }

  function CancelReviewedStep(w: World, t: TaskId): World {
    if !TaskAt(w, t).Reviewing? then w
    else w.(claims := Cancel(w.claims, w.tasks[t].session), tasks := w.tasks[t := Idle],
            lapsed := w.lapsed - {w.tasks[t].session})
  }

  function BeginClaimStep(w: World, t: TaskId, client: ClientId): World {
    if TaskAt(w, t) != Idle then w else w.(tasks := w.tasks[t := Seeking(client, CAPACITY)])
  }

  function FocusStep(w: World, client: ClientId, s: SessionId): World {
    if s !in w.rows || Locked(w.tasks, s) then w else w.(claims := ReportFocus(w.claims, client, Some(s)))
  }

  /** The claiming loop goes on without the entry when the row cannot be read or no longer shows it. */
  function CheckStep(w: World, t: TaskId, failed: bool): World {
    if !TaskAt(w, t).Popped? || Locked(w.tasks, w.tasks[t].entry.session) then w
    else
      var Popped(client, entry, at, left) := w.tasks[t];
      var shown := !failed && entry.session in w.rows && Shows(w.rows[entry.session].status, entry.event);
      w.(tasks := w.tasks[t := if shown then Checked(client, entry, at, left) else Seeking(client, left)])
  }

  /** The whole request fails when the preferences cannot be read. */
  function HandStep(w: World, t: TaskId, failed: bool): World {
    if !TaskAt(w, t).Checked? then w
    else
      var Checked(client, entry, at, left) := w.tasks[t];
      if failed then w.(tasks := w.tasks[t := Idle])
      else if InForeground(w.claims, entry.session) then w.(tasks := w.tasks[t := Seeking(client, left)])
      else w.(tasks := w.tasks[t := Idle],
              delivered := w.delivered + [Delivery(client, entry.session, entry.event, at)])
  }

  /** The queue hears of a status change: only a new identity is recorded, only a spent one cancelled. */
  function CoordinateStep(w: World, t: TaskId, now: int): World {
    if !TaskAt(w, t).Writing? || w.tasks[t].session !in w.rows then w
    else
      var Writing(s, previous) := w.tasks[t];
      var current := w.rows[s].status.attention;
      if IdentityOf(current) == IdentityOf(previous) then
        w.(claims := if Spent(current) then Cancel(w.claims, s) else w.claims,
           tasks := w.tasks[t := Idle],
           lapsed := if Spent(current) then w.lapsed - {s} else w.lapsed)
      else
        w.(claims := Record(w.claims, s, current, now).0,
           tasks := w.tasks[t := Idle],
           lapsed := w.lapsed - {s},
           log := w.log + (if current.Some? then [Recorded(s, current.value, now)] else []))
  }

  /** A hook delivery may fail after its row is written and before the queue hears of it. */
  function AbandonStep(w: World, t: TaskId): World {
    if !TaskAt(w, t).Writing? then w
    else w.(tasks := w.tasks[t := Idle], lapsed := w.lapsed + {w.tasks[t].session})
  }

  /** Nothing is left to tell the user. */
  predicate Spent(current: Option<AttentionEvent>) {
    current.None? || current.value.acknowledgement != Pending
  }

  function PopStep(w: World, t: TaskId, now: int): World {
    if !TaskAt(w, t).Seeking? then w
    else
      var Seeking(client, left) := w.tasks[t];
      if left == 0 then w.(tasks := w.tasks[t := Idle])
      else
        match Claim(w.claims, client, now)
        case (claims, None) => w.(tasks := w.tasks[t := Idle])
        case (claims, Some(entry)) => w.(claims := claims, tasks := w.tasks[t := Popped(client, entry, now, left - 1)])
  }

  function History(rows: map<SessionId, Machine>, actions: seq<Action>): World {
    if actions == [] then Started(rows) else Act(History(rows, actions[..|actions| - 1]), actions[|actions| - 1])
  }

  ghost predicate ValidRows(rows: map<SessionId, Machine>) {
    forall s | s in rows :: Validate(rows[s].status).Pass?
  }

  // ----- the queue as a set ---------------------------------------------------------------------

  /** Entries without the mark that only says whether clients were woken. */
  function Plain(e: Entry): Entry {
    e.(announced := false)
  }

  ghost predicate Unique(pending: seq<Entry>) {
    forall i, j | 0 <= i < j < |pending| :: pending[i].session != pending[j].session
  }

  ghost function Queued(c: Claims): set<Entry> {
    set e | e in c.pending :: Plain(e)
  }

  lemma {:induction false} RetainKeepsUnique(s: seq<Entry>, keep: Entry -> bool)
    requires Unique(s)
    ensures Unique(Retain(s, keep))
  {
    if s != [] {
      RetainKeepsUnique(s[1..], keep);
      var rest := Retain(s[1..], keep);
      forall j | 0 <= j < |rest|
        ensures s[0].session != rest[j].session
      {
        assert rest[j] in s[1..];
      }
    }
  }

  ghost predicate Shrinks(before: Claims, after: Claims) {
    Unique(before.pending) ==> Unique(after.pending) && Queued(after) <= Queued(before)
  }

  lemma RetainShrinks(c: Claims, keep: Entry -> bool, after: Claims)
    requires after.pending == Retain(c.pending, keep)
    ensures Shrinks(c, after)
  {
    if Unique(c.pending) {
      RetainKeepsUnique(c.pending, keep);
    }
  }

  lemma CancelShrinks(c: Claims, s: SessionId)
    ensures Shrinks(c, Cancel(c, s))
    ensures forall e | e in Queued(Cancel(c, s)) :: e.session != s
  {
    RetainShrinks(c, (e: Entry) => e.session != s, Cancel(c, s));
  }

  lemma PrunedShrinks(c: Claims)
    ensures Shrinks(c, Pruned(c))
  {
    if c.watermarks != map[] {
      RetainShrinks(c, (e: Entry) => Claimable(c.watermarks, e), Pruned(c));
    }
  }

  lemma ConnectionsShrinkQueue(c: Claims, client: ClientId)
    ensures Shrinks(c, Register(c, client)) && Shrinks(c, Unregister(c, client))
  {
    PrunedShrinks(c.(watermarks := c.watermarks[client := c.sequence]));
    PrunedShrinks(c.(watermarks := c.watermarks - {client}, foreground := c.foreground - {client}));
  }

  lemma FocusShrinksQueue(c: Claims, client: ClientId, focus: Option<SessionId>)
    ensures Shrinks(c, ReportFocus(c, client, focus))
  {
    if client in c.watermarks && focus.Some? {
      CancelShrinks(c, focus.value);
    }
  }

  lemma AnnouncingShrinksQueue(c: Claims, now: int)
    ensures Shrinks(c, AnnounceDue(c, now).0)
  {
    var after := AnnounceDue(c, now).0;
    forall e | e in after.pending
      ensures Plain(e) in Queued(c)
    {
      var i :| 0 <= i < |c.pending| && after.pending[i] == e;
      assert c.pending[i] in c.pending && Plain(c.pending[i]) == Plain(e);
    }
  }

  lemma QueuedEntryKeepsUnique(cleared: seq<Entry>, entry: Entry)
    requires Unique(cleared)
    requires forall e | e in cleared :: e.session != entry.session
    ensures var room := if |cleared| >= CAPACITY then cleared[1..] else cleared;
            Unique(room + [entry]) && forall e | e in room + [entry] :: e in cleared || e == entry
  {
  }

  lemma RecordAddsAtMostOne(c: Claims, s: SessionId, event: AttentionEvent, now: int)
    requires Unique(c.pending)
    ensures var next := Record(c, s, Some(event), now).0;
            && Unique(next.pending)
            && forall e | e in Queued(next) ::
                 if e.session == s then e.event == event && e.readyAt == now + Delay(event) else e in Queued(c)
  {
    var cleared := Cancel(c, s);
    RetainKeepsUnique(c.pending, (e: Entry) => e.session != s);
    if Queues(c, s, Some(event)) {
      QueuedEntryKeepsUnique(cleared.pending, Entry(NextSequence(c.sequence), s, event, now + Delay(event), false));
    }
  }

  lemma ClaimRemovesOne(c: Claims, client: ClientId, now: int)
    requires Unique(c.pending)
    ensures var (next, got) := Claim(c, client, now);
            && Unique(next.pending)
            && (got.None? ==> next == c)
            && (got.Some? ==> Plain(got.value) in Queued(c) && Queued(next) <= Queued(c)
                              && got.value.readyAt <= now
                              && forall e | e in Queued(next) :: e.session != got.value.session)
  {
    if client in c.watermarks {
      var i := FirstEligible(c.pending, c.watermarks[client], now);
      if i < |c.pending| {
        assert c.pending[i] in c.pending;
        forall e | e in Claim(c, client, now).0.pending
          ensures e in c.pending && e.session != c.pending[i].session
        {
          assert e in c.pending[..i] || e in c.pending[i + 1..];
        }
      }
    }
  }

  // ----- what every history keeps ---------------------------------------------------------------

  predicate SameEvent(r: Recorded, s: SessionId, id: int) {
    r.session == s && r.event.id == id
  }

  /** The entry stems from a recorded event and is ready its full delay after the recording. */
  ghost predicate Logged(log: seq<Recorded>, e: Entry) {
    exists i | 0 <= i < |log| :: log[i].session == e.session && log[i].event == e.event
        && e.readyAt == log[i].at + Delay(e.event)
  }

  predicate Carries(task: Task, s: SessionId, id: int) {
    (task.Popped? || task.Checked?) && task.entry.session == s && task.entry.event.id == id
  }

  predicate IsDelivery(d: Delivery, s: SessionId, id: int) {
    d.session == s && d.event.id == id
  }

  ghost predicate NotInHand(tasks: map<TaskId, Task>, s: SessionId, id: int) {
    forall t | t in tasks :: !Carries(tasks[t], s, id)
  }

  ghost predicate NotDelivered(delivered: seq<Delivery>, s: SessionId, id: int) {
    forall i | 0 <= i < |delivered| :: !IsDelivery(delivered[i], s, id)
  }

  /** Rows are valid and follow everything recorded about them; no event is recorded twice. */
  ghost predicate RowsInv(rows: map<SessionId, Machine>, used: set<SessionId>, log: seq<Recorded>) {
    && rows.Keys <= used
    && ValidRows(rows)
    && (forall i | 0 <= i < |log| ::
          && log[i].session in used
          && log[i].event.acknowledgement == Pending
          && (log[i].session in rows ==> Follows(Some(log[i].event), rows[log[i].session].status.attention)))
    && (forall i, j | 0 <= i < j < |log| :: !SameEvent(log[i], log[j].session, log[j].event.id))
  }

  ghost predicate Exclusive(tasks: map<TaskId, Task>) {
    forall t, u, s | t in tasks && u in tasks && Holds(tasks[t], s) && Holds(tasks[u], s) :: t == u
  }

  /** An unfinished write grew the history by at most one event, which is not recorded yet. */
  ghost predicate WritesInv(rows: map<SessionId, Machine>, tasks: map<TaskId, Task>, log: seq<Recorded>) {
    forall t | t in tasks && tasks[t].Writing? ::
      && tasks[t].session in rows
      && Extends(tasks[t].previous, rows[tasks[t].session].status.attention)
      && (forall i | 0 <= i < |log| && log[i].session == tasks[t].session ::
          log[i].event.id <= IdentityOf(tasks[t].previous))
  }

  /** A row that was checked under the lock still shows the entry. */
  ghost predicate ChecksInv(rows: map<SessionId, Machine>, tasks: map<TaskId, Task>) {
    forall t | t in tasks && tasks[t].Checked? ::
      tasks[t].entry.session in rows && Shows(rows[tasks[t].entry.session].status, tasks[t].entry.event)
  }

  /** One recorded event is in at most one place: queued, in one task's hands, or delivered once. */
  ghost predicate QueueInv(queued: set<Entry>, tasks: map<TaskId, Task>, log: seq<Recorded>, delivered: seq<Delivery>) {
    forall e | e in queued ::
      Logged(log, e) && NotInHand(tasks, e.session, e.event.id) && NotDelivered(delivered, e.session, e.event.id)
  }

  ghost predicate HandsInv(tasks: map<TaskId, Task>, log: seq<Recorded>, delivered: seq<Delivery>) {
    && (forall t | t in tasks && (tasks[t].Popped? || tasks[t].Checked?) ::
          && Logged(log, tasks[t].entry) && tasks[t].entry.readyAt <= tasks[t].at
          && NotDelivered(delivered, tasks[t].entry.session, tasks[t].entry.event.id))
    && (forall t, u, s, id | t in tasks && u in tasks && Carries(tasks[t], s, id) && Carries(tasks[u], s, id) :: t == u)
  }

  ghost predicate DeliveriesInv(log: seq<Recorded>, delivered: seq<Delivery>) {
    && (forall i, j | 0 <= i < j < |delivered| ::
        !IsDelivery(delivered[i], delivered[j].session, delivered[j].event.id))
    && (forall j | 0 <= j < |delivered| :: WasRecorded(log, delivered[j]))
  }

  /** The delivered event was recorded, and its delay had passed when it was claimed. */
  ghost predicate WasRecorded(log: seq<Recorded>, d: Delivery) {
    exists i | 0 <= i < |log| :: log[i].session == d.session && log[i].event == d.event
        && log[i].at + (if d.event.reason == InputRequested then 1000 else 0) <= d.at
  }

  /** Outside an unfinished write and a lapsed one, the queue only holds what the rows show as current and pending. */
  ghost predicate CurrentInv(
    queued: set<Entry>, rows: map<SessionId, Machine>, tasks: map<TaskId, Task>, lapsed: set<SessionId>)
  {
    && (forall e | e in queued && e.session !in lapsed && e.session in rows && !Locked(tasks, e.session) ::
        Shows(rows[e.session].status, e.event))
    && (forall e, t | e in queued && e.session !in lapsed && t in tasks && Holds(tasks[t], e.session) ::
          match tasks[t]
          case Writing(_, previous) => previous.Some? && previous.value.id == e.event.id
              && previous.value.reason == e.event.reason
          case Reviewing(_) => true
          case _ => e.session in rows && Shows(rows[e.session].status, e.event))
  }

  ghost predicate WorldInv(w: World) {
    && RowsInv(w.rows, w.used, w.log)
    && Exclusive(w.tasks)
    && WritesInv(w.rows, w.tasks, w.log)
    && ChecksInv(w.rows, w.tasks)
    && Unique(w.claims.pending)
    && QueueInv(Queued(w.claims), w.tasks, w.log, w.delivered)
    && HandsInv(w.tasks, w.log, w.delivered)
    && DeliveriesInv(w.log, w.delivered)
    && CurrentInv(Queued(w.claims), w.rows, w.tasks, w.lapsed)
  }

  lemma ShrinkingQueueKeepsInv(w: World, claims: Claims)
    requires WorldInv(w)
    requires Unique(claims.pending) && Queued(claims) <= Queued(w.claims)
    ensures WorldInv(w.(claims := claims))
  {
  }

  lemma CreateKeepsInv(w: World, s: SessionId)
    requires WorldInv(w)
    ensures WorldInv(CreateStep(w, s))
  {
    if s !in w.used {
      forall e | e in Queued(w.claims)
        ensures e.session != s
      {
        assert Logged(w.log, e);
      }
    }
  }

  lemma DeleteKeepsInv(w: World, s: SessionId)
    requires WorldInv(w)
    ensures WorldInv(DeleteStep(w, s))
  {
  }

  /** Taking a free lock and growing that row's history keeps everything recorded about it. */
  lemma ChangedRowKeepsRowsInv(w: World, s: SessionId, m: Machine)
    requires RowsInv(w.rows, w.used, w.log) && s in w.rows
    requires Validate(m.status).Pass? && Extends(w.rows[s].status.attention, m.status.attention)
    ensures RowsInv(w.rows[s := m], w.used, w.log)
  {
  }

  lemma TakenLockKeepsTasks(w: World, t: TaskId, s: SessionId, m: Machine, task: Task)
    requires WorldInv(w) && TaskAt(w, t) == Idle && s in w.rows && !Locked(w.tasks, s)
    requires task == Reviewing(s) || task == Writing(s, w.rows[s].status.attention)
    requires Extends(w.rows[s].status.attention, m.status.attention)
    ensures Exclusive(w.tasks[t := task])
    ensures WritesInv(w.rows[s := m], w.tasks[t := task], w.log)
    ensures ChecksInv(w.rows[s := m], w.tasks[t := task])
  {
    var tasks := w.tasks[t := task];
    forall u | u in tasks && u != t
      ensures !Holds(tasks[u], s)
    {
      assert u in w.tasks;
    }
  }

  lemma TakenLockKeepsTokens(w: World, t: TaskId, s: SessionId, task: Task)
    requires WorldInv(w) && TaskAt(w, t) == Idle && (task.Reviewing? || task.Writing?)
    ensures QueueInv(Queued(w.claims), w.tasks[t := task], w.log, w.delivered)
    ensures HandsInv(w.tasks[t := task], w.log, w.delivered)
  {
  }

  lemma TakenLockKeepsCurrent(w: World, t: TaskId, s: SessionId, m: Machine, task: Task)
    requires WorldInv(w) && TaskAt(w, t) == Idle && s in w.rows && !Locked(w.tasks, s)
    requires task == Reviewing(s) || task == Writing(s, w.rows[s].status.attention)
    ensures CurrentInv(Queued(w.claims), w.rows[s := m], w.tasks[t := task], w.lapsed)
  {
    var rows, tasks := w.rows[s := m], w.tasks[t := task];
    assert Holds(tasks[t], s) && Locked(tasks, s);
    forall e | e in Queued(w.claims) && e.session !in w.lapsed && e.session in rows && !Locked(tasks, e.session)
      ensures Shows(rows[e.session].status, e.event)
    {
      assert e.session != s;
      forall u | u in w.tasks
        ensures !Holds(w.tasks[u], e.session)
      {
        assert u != t ==> !Holds(tasks[u], e.session);
      }
    }
  }

  lemma WriteKeepsInv(w: World, t: TaskId, s: SessionId, op: Op)
    requires WorldInv(w)
    ensures WorldInv(WriteStep(w, t, s, op))
  {
    if WriteStep(w, t, s, op) != w {
      var m, task := Step(w.rows[s], op), Writing(s, w.rows[s].status.attention);
      StepKeepsStatusValid(w.rows[s], op);
      ChangedRowKeepsRowsInv(w, s, m);
      TakenLockKeepsTasks(w, t, s, m, task);
      TakenLockKeepsTokens(w, t, s, task);
      TakenLockKeepsCurrent(w, t, s, m, task);
    }
  }

  lemma AcknowledgeKeepsInv(w: World, t: TaskId, s: SessionId, id: AttentionId, action: ReviewAction)
    requires WorldInv(w)
    ensures WorldInv(AcknowledgeStep(w, t, s, id, action))
  {
    if AcknowledgeStep(w, t, s, id, action) != w {
      var m := w.rows[s].(status := Review(w.rows[s].status, id, action).value);
      ReviewMovesOneEventForward(w.rows[s].status, id, action);
      ChangedRowKeepsRowsInv(w, s, m);
      TakenLockKeepsTasks(w, t, s, m, Reviewing(s));
      TakenLockKeepsTokens(w, t, s, Reviewing(s));
      TakenLockKeepsCurrent(w, t, s, m, Reviewing(s));
    }
  }

  lemma CancelReviewedKeepsInv(w: World, t: TaskId)
    requires WorldInv(w)
    ensures WorldInv(CancelReviewedStep(w, t))
  {
    if TaskAt(w, t).Reviewing? {
      var s := w.tasks[t].session;
      CancelShrinks(w.claims, s);
      ReleasedLockKeepsInv(w, t, s, Cancel(w.claims, s), Idle, w.lapsed - {s});
    }
  }

  lemma ReleasedLockKeepsCurrent(
    w: World, t: TaskId, s: SessionId, claims: Claims, task: Task, lapsed: set<SessionId>)
    requires WorldInv(w) && t in w.tasks && Holds(w.tasks[t], s) && (task.Idle? || task.Seeking?)
    requires Queued(claims) <= Queued(w.claims) && w.lapsed - {s} <= lapsed
    requires s in lapsed
             || forall e | e in Queued(claims) && e.session == s :: s in w.rows && Shows(w.rows[s].status, e.event)
    ensures CurrentInv(Queued(claims), w.rows, w.tasks[t := task], lapsed)
  {
    var tasks := w.tasks[t := task];
    forall e | e in Queued(claims) && e.session !in lapsed && e.session in w.rows && !Locked(tasks, e.session)
      ensures Shows(w.rows[e.session].status, e.event)
    {
      if e.session != s {
        forall u | u in w.tasks
          ensures !Holds(w.tasks[u], e.session)
        {
          assert u != t ==> !Holds(tasks[u], e.session);
        }
      }
    }
  }

  /** Letting go of a lock when the queue holds nothing the row does not show, or the write lapsed. */
  lemma ReleasedLockKeepsInv(
    w: World, t: TaskId, s: SessionId, claims: Claims, task: Task, lapsed: set<SessionId>)
    requires WorldInv(w) && t in w.tasks && Holds(w.tasks[t], s) && (task.Idle? || task.Seeking?)
    requires Unique(claims.pending) && Queued(claims) <= Queued(w.claims) && w.lapsed - {s} <= lapsed
    requires s in lapsed
             || forall e | e in Queued(claims) && e.session == s :: s in w.rows && Shows(w.rows[s].status, e.event)
    ensures WorldInv(w.(claims := claims, tasks := w.tasks[t := task], lapsed := lapsed))
  {
    ReleasedLockKeepsCurrent(w, t, s, claims, task, lapsed);
  }

  lemma UnchangedIdentityKeepsInv(w: World, t: TaskId, now: int)
    requires WorldInv(w) && TaskAt(w, t).Writing?
    requires IdentityOf(w.rows[w.tasks[t].session].status.attention) == IdentityOf(w.tasks[t].previous)
    ensures WorldInv(CoordinateStep(w, t, now))
  {
    var Writing(s, previous) := w.tasks[t];
    CancelShrinks(w.claims, s);
    var next := CoordinateStep(w, t, now);
    forall e | e in Queued(next.claims) && e.session == s && s !in next.lapsed
      ensures Shows(w.rows[s].status, e.event)
    {
      assert Holds(w.tasks[t], e.session);
    }
    ReleasedLockKeepsInv(w, t, s, next.claims, Idle, next.lapsed);
  }

  lemma AbandonKeepsInv(w: World, t: TaskId)
    requires WorldInv(w)
    ensures WorldInv(AbandonStep(w, t))
  {
    if TaskAt(w, t).Writing? {
      ReleasedLockKeepsInv(w, t, w.tasks[t].session, w.claims, Idle, w.lapsed + {w.tasks[t].session});
    }
  }

  lemma LongerLogKeepsEntries(log: seq<Recorded>, r: Recorded, e: Entry)
    requires Logged(log, e)
    ensures Logged(log + [r], e)
  {
    var i :| 0 <= i < |log| && log[i].session == e.session && log[i].event == e.event
        && e.readyAt == log[i].at + Delay(e.event);
    assert (log + [r])[i] == log[i];
  }

  lemma LongerLogKeepsRest(w: World, r: Recorded)
    requires WorldInv(w) && r.session in w.rows && w.rows[r.session].status.attention == Some(r.event)
    requires r.event.acknowledgement == Pending
    requires forall i | 0 <= i < |w.log| && w.log[i].session == r.session :: w.log[i].event.id < r.event.id
    ensures RowsInv(w.rows, w.used, w.log + [r])
    ensures HandsInv(w.tasks, w.log + [r], w.delivered)
    ensures DeliveriesInv(w.log + [r], w.delivered)
    ensures forall e | e in Queued(w.claims) :: Logged(w.log + [r], e)
  {
    forall e | Logged(w.log, e)
      ensures Logged(w.log + [r], e)
    {
      LongerLogKeepsEntries(w.log, r, e);
    }
    forall j | 0 <= j < |w.delivered|
      ensures WasRecorded(w.log + [r], w.delivered[j])
    {
      assert WasRecorded(w.log, w.delivered[j]);
      var d := w.delivered[j];
      var i :| 0 <= i < |w.log| && w.log[i].session == d.session && w.log[i].event == d.event
          && w.log[i].at + Delay(d.event) <= d.at;
      assert (w.log + [r])[i] == w.log[i];
    }
  }

  /** A new event has never been queued, claimed or delivered before, because it has never been recorded. */
  lemma NewEventIsNowhere(w: World, s: SessionId, id: int)
    requires WorldInv(w)
    requires forall i | 0 <= i < |w.log| && w.log[i].session == s :: w.log[i].event.id < id
    ensures NotInHand(w.tasks, s, id) && NotDelivered(w.delivered, s, id)
  {
    forall t | t in w.tasks
      ensures !Carries(w.tasks[t], s, id)
    {
      if w.tasks[t].Popped? || w.tasks[t].Checked? {
        assert Logged(w.log, w.tasks[t].entry);
      }
    }
    forall j | 0 <= j < |w.delivered|
      ensures !IsDelivery(w.delivered[j], s, id)
    {
      assert WasRecorded(w.log, w.delivered[j]);
    }
  }

  lemma RecordedEventKeepsInv(w: World, t: TaskId, now: int)
    requires WorldInv(w) && TaskAt(w, t).Writing?
    requires IdentityOf(w.rows[w.tasks[t].session].status.attention) != IdentityOf(w.tasks[t].previous)
    ensures WorldInv(CoordinateStep(w, t, now))
  {
    var Writing(s, previous) := w.tasks[t];
    var event := w.rows[s].status.attention.value;
    var r := Recorded(s, event, now);
    var next := CoordinateStep(w, t, now);
    LongerLogKeepsRest(w, r);
    NewEventIsNowhere(w, s, event.id);
    RecordAddsAtMostOne(w.claims, s, event, now);
    var recorded := Entry(0, s, event, now + Delay(event), false);
    assert Logged(next.log, recorded) by {
      assert next.log[|w.log|] == r;
    }
    RecordedQueueKeepsInv(w, t, s, event, now, next.claims);
    ReleasedTaskKeepsRest(w, t, r);
  }

  lemma RecordedQueueKeepsInv(w: World, t: TaskId, s: SessionId, event: AttentionEvent, now: int, claims: Claims)
    requires WorldInv(w) && TaskAt(w, t).Writing? && w.tasks[t].session == s
    requires w.rows[s].status.attention == Some(event) && event.acknowledgement == Pending
    requires NotInHand(w.tasks, s, event.id) && NotDelivered(w.delivered, s, event.id)
    requires forall e | e in Queued(claims) ::
               if e.session == s then e.event == event && e.readyAt == now + Delay(event) else e in Queued(w.claims)
    requires forall e | e in Queued(w.claims) :: Logged(w.log + [Recorded(s, event, now)], e)
    ensures QueueInv(Queued(claims), w.tasks[t := Idle], w.log + [Recorded(s, event, now)], w.delivered)
    ensures CurrentInv(Queued(claims), w.rows, w.tasks[t := Idle], w.lapsed - {s})
  {
    var log, tasks := w.log + [Recorded(s, event, now)], w.tasks[t := Idle];
    assert log[|w.log|] == Recorded(s, event, now);
    forall u | u in tasks
      ensures !Holds(tasks[u], s)
    {
      assert Holds(w.tasks[t], s);
    }
    forall e | e in Queued(claims) && e.session !in w.lapsed - {s} && e.session in w.rows && !Locked(tasks, e.session)
      ensures Shows(w.rows[e.session].status, e.event)
    {
      if e.session != s {
        forall u | u in w.tasks
          ensures !Holds(w.tasks[u], e.session)
        {
          assert u != t ==> !Holds(tasks[u], e.session);
        }
      }
    }
  }

  lemma ReleasedTaskKeepsRest(w: World, t: TaskId, r: Recorded)
    requires WorldInv(w) && TaskAt(w, t).Writing? && w.tasks[t].session == r.session
    requires HandsInv(w.tasks, w.log + [r], w.delivered)
    ensures Exclusive(w.tasks[t := Idle])
    ensures WritesInv(w.rows, w.tasks[t := Idle], w.log + [r])
    ensures ChecksInv(w.rows, w.tasks[t := Idle])
    ensures HandsInv(w.tasks[t := Idle], w.log + [r], w.delivered)
  {
    forall u | u in w.tasks && u != t && w.tasks[u].Writing?
      ensures w.tasks[u].session != r.session
    {
      assert Holds(w.tasks[t], r.session) && Holds(w.tasks[u], w.tasks[u].session);
    }
  }

  lemma CoordinateKeepsInv(w: World, t: TaskId, now: int)
    requires WorldInv(w)
    ensures WorldInv(CoordinateStep(w, t, now))
  {
    if TaskAt(w, t).Writing? {
      var Writing(s, previous) := w.tasks[t];
      if IdentityOf(w.rows[s].status.attention) == IdentityOf(previous) {
        UnchangedIdentityKeepsInv(w, t, now);
      } else {
        RecordedEventKeepsInv(w, t, now);
      }
    }
  }

  /** A step that only moves a lock-free task to another lock-free state without an entry. */
  lemma FreeTaskKeepsInv(w: World, t: TaskId, task: Task)
    requires WorldInv(w) && (task.Idle? || task.Seeking?)
    requires TaskAt(w, t).Idle? || TaskAt(w, t).Seeking? || TaskAt(w, t).Popped?
    ensures WorldInv(w.(tasks := w.tasks[t := task]))
  {
    StaysLocked(w.tasks, t, task);
  }

  lemma StaysLocked(before: map<TaskId, Task>, t: TaskId, task: Task)
    requires t !in before || forall s :: !Holds(before[t], s)
    ensures forall s | Locked(before, s) :: Locked(before[t := task], s)
  {
    forall s | Locked(before, s)
      ensures Locked(before[t := task], s)
    {
      var u :| u in before && Holds(before[u], s);
      assert u in before[t := task] && Holds(before[t := task][u], s);
    }
  }

  /** A popped entry has left the queue and is in no other hands. */
  lemma PoppedEntryKeepsTokens(w: World, t: TaskId, claims: Claims, entry: Entry, task: Task)
    requires WorldInv(w) && TaskAt(w, t).Seeking?
    requires task.Popped? && task.entry == entry && entry.readyAt <= task.at
    requires Plain(entry) in Queued(w.claims) && Queued(claims) <= Queued(w.claims)
    requires forall e | e in Queued(claims) :: e.session != entry.session
    ensures QueueInv(Queued(claims), w.tasks[t := task], w.log, w.delivered)
    ensures HandsInv(w.tasks[t := task], w.log, w.delivered)
  {
    assert NotInHand(w.tasks, entry.session, entry.event.id)
        && NotDelivered(w.delivered, entry.session, entry.event.id);
    assert Logged(w.log, Plain(entry));
    assert Logged(w.log, entry);
  }

  lemma PoppedEntryKeepsLocks(w: World, t: TaskId, claims: Claims, task: Task)
    requires WorldInv(w) && TaskAt(w, t).Seeking? && task.Popped?
    requires Queued(claims) <= Queued(w.claims)
    ensures Exclusive(w.tasks[t := task])
    ensures WritesInv(w.rows, w.tasks[t := task], w.log)
    ensures ChecksInv(w.rows, w.tasks[t := task])
    ensures CurrentInv(Queued(claims), w.rows, w.tasks[t := task], w.lapsed)
  {
    StaysLocked(w.tasks, t, task);
  }

  /** Either nothing was taken, or one due entry left the queue for the task. */
  ghost predicate Moves(before: Claims, after: Claims, task: Task) {
    if task.Popped? then
      && task.entry.readyAt <= task.at && Unique(after.pending)
      && Plain(task.entry) in Queued(before) && Queued(after) <= Queued(before)
      && forall e | e in Queued(after) :: e.session != task.entry.session
    else task == Idle && after == before
  }

  /** What a pop does: nothing but ending the task, or moving one due entry into its hands. */
  lemma PopOutcome(w: World, t: TaskId, now: int) returns (claims: Claims, task: Task)
    requires Unique(w.claims.pending) && TaskAt(w, t).Seeking?
    ensures PopStep(w, t, now) == w.(claims := claims, tasks := w.tasks[t := task])
    ensures Moves(w.claims, claims, task)
  {
    var Seeking(client, left) := w.tasks[t];
    var (next, got) := Claim(w.claims, client, now);
    ClaimRemovesOne(w.claims, client, now);
    claims, task := if left == 0 then w.claims else next,
                    if left == 0 || got.None? then Idle else Popped(client, got.value, now, left - 1);
  }

  lemma MovedEntryKeepsInv(w: World, t: TaskId, claims: Claims, task: Task)
    requires WorldInv(w) && TaskAt(w, t).Seeking?
    requires Moves(w.claims, claims, task)
    ensures WorldInv(w.(claims := claims, tasks := w.tasks[t := task]))
  {
    if task.Idle? {
      FreeTaskKeepsInv(w, t, Idle);
    } else {
      PoppedEntryKeepsTokens(w, t, claims, task.entry, task);
      PoppedEntryKeepsLocks(w, t, claims, task);
    }
  }

  lemma PopKeepsInv(w: World, t: TaskId, now: int)
    requires WorldInv(w)
    ensures WorldInv(PopStep(w, t, now))
  {
    if TaskAt(w, t).Seeking? {
      var claims, task := PopOutcome(w, t, now);
      MovedEntryKeepsInv(w, t, claims, task);
    }
  }

  lemma CheckedRowKeepsLocks(w: World, t: TaskId, task: Task)
    requires WorldInv(w) && TaskAt(w, t).Popped? && !Locked(w.tasks, w.tasks[t].entry.session)
    requires task.Checked? && task.entry == w.tasks[t].entry && task.at == w.tasks[t].at
    requires task.entry.session in w.rows && Shows(w.rows[task.entry.session].status, task.entry.event)
    ensures Exclusive(w.tasks[t := task]) && ChecksInv(w.rows, w.tasks[t := task])
    ensures CurrentInv(Queued(w.claims), w.rows, w.tasks[t := task], w.lapsed)
  {
    var tasks := w.tasks[t := task];
    assert forall u | u in tasks && u != t :: !Holds(tasks[u], task.entry.session);
    StaysLocked(w.tasks, t, task);
  }

  lemma CheckedRowKeepsTokens(w: World, t: TaskId, task: Task)
    requires WorldInv(w) && TaskAt(w, t).Popped?
    requires task.Checked? && task.entry == w.tasks[t].entry && task.at == w.tasks[t].at
    ensures WritesInv(w.rows, w.tasks[t := task], w.log)
    ensures QueueInv(Queued(w.claims), w.tasks[t := task], w.log, w.delivered)
    ensures HandsInv(w.tasks[t := task], w.log, w.delivered)
  {
    assert forall s, id :: Carries(task, s, id) <==> Carries(w.tasks[t], s, id);
  }

  lemma CheckKeepsInv(w: World, t: TaskId, failed: bool)
    requires WorldInv(w)
    ensures WorldInv(CheckStep(w, t, failed))
  {
    if TaskAt(w, t).Popped? && !Locked(w.tasks, w.tasks[t].entry.session) {
      var Popped(client, entry, at, left) := w.tasks[t];
      if !failed && entry.session in w.rows && Shows(w.rows[entry.session].status, entry.event) {
        CheckedRowKeepsLocks(w, t, Checked(client, entry, at, left));
        CheckedRowKeepsTokens(w, t, Checked(client, entry, at, left));
      } else {
        FreeTaskKeepsInv(w, t, Seeking(client, left));
      }
    }
  }

  lemma HandKeepsInv(w: World, t: TaskId, failed: bool)
    requires WorldInv(w)
    ensures WorldInv(HandStep(w, t, failed))
  {
    if TaskAt(w, t).Checked? {
      var Checked(client, entry, at, left) := w.tasks[t];
      forall e | e in Queued(w.claims) && e.session == entry.session && e.session !in w.lapsed
        ensures Shows(w.rows[entry.session].status, e.event)
      {
        assert Holds(w.tasks[t], e.session);
      }
      ReleasedLockKeepsInv(w, t, entry.session, w.claims, Seeking(client, left), w.lapsed);
      ReleasedLockKeepsInv(w, t, entry.session, w.claims, Idle, w.lapsed);
      if !failed && !InForeground(w.claims, entry.session) {
        var d := Delivery(client, entry.session, entry.event, at);
        assert Logged(w.log, entry);
        assert WasRecorded(w.log, d);
        DeliveryKeepsInv(w, t, d);
      }
    }
  }

  lemma DeliveryKeepsInv(w: World, t: TaskId, d: Delivery)
    requires WorldInv(w) && TaskAt(w, t).Checked?
    requires d.session == w.tasks[t].entry.session && d.event == w.tasks[t].entry.event && WasRecorded(w.log, d)
    ensures DeliveriesInv(w.log, w.delivered + [d])
    ensures QueueInv(Queued(w.claims), w.tasks[t := Idle], w.log, w.delivered + [d])
    ensures HandsInv(w.tasks[t := Idle], w.log, w.delivered + [d])
  {
    assert Carries(w.tasks[t], d.session, d.event.id);
    assert NotDelivered(w.delivered, d.session, d.event.id);
    forall e | e in Queued(w.claims)
      ensures !IsDelivery(d, e.session, e.event.id)
    {
      assert NotInHand(w.tasks, e.session, e.event.id);
    }
  }

  lemma ActKeepsInv(w: World, a: Action)
    requires WorldInv(w)
    ensures WorldInv(Act(w, a))
  {
    if a.Create? || a.Delete? || a.Write? || a.Coordinate? || a.Abandon? || a.Acknowledge? || a.CancelReviewed? {
      RowActKeepsInv(w, a);
    } else if a.BeginClaim? || a.Pop? || a.Check? || a.Hand? {
      ClaimActKeepsInv(w, a);
    } else if a.Focus? || a.Blur? {
      FocusActKeepsInv(w, a);
    } else {
      QueueActKeepsInv(w, a);
    }
  }

  lemma RowActKeepsInv(w: World, a: Action)
    requires WorldInv(w)
    requires a.Create? || a.Delete? || a.Write? || a.Coordinate? || a.Abandon? || a.Acknowledge? || a.CancelReviewed?
    ensures WorldInv(Act(w, a))
  {
    match a
    case Create(s) => CreateKeepsInv(w, s);
    case Delete(s) => DeleteKeepsInv(w, s);
    case Write(t, s, op) => WriteKeepsInv(w, t, s, op);
    case Coordinate(t, now) => CoordinateKeepsInv(w, t, now);
    case Abandon(t) => AbandonKeepsInv(w, t);
    case Acknowledge(t, s, id, action) => AcknowledgeKeepsInv(w, t, s, id, action);
    case CancelReviewed(t) => CancelReviewedKeepsInv(w, t);
  }

  lemma ClaimActKeepsInv(w: World, a: Action)
    requires WorldInv(w) && (a.BeginClaim? || a.Pop? || a.Check? || a.Hand?)
    ensures WorldInv(Act(w, a))
  {
    match a
    case BeginClaim(t, client) => if TaskAt(w, t).Idle? { FreeTaskKeepsInv(w, t, Seeking(client, CAPACITY)); }
    case Pop(t, now) => PopKeepsInv(w, t, now);
    case Check(t, failed) => CheckKeepsInv(w, t, failed);
    case Hand(t, failed) => HandKeepsInv(w, t, failed);
  }

  lemma FocusActKeepsInv(w: World, a: Action)
    requires WorldInv(w) && (a.Focus? || a.Blur?)
    ensures WorldInv(Act(w, a))
  {
    match a
    case Focus(client, s) => FocusKeepsInv(w, client, Some(s));
    case Blur(client) => FocusKeepsInv(w, client, None);
  }

  lemma QueueActKeepsInv(w: World, a: Action)
    requires WorldInv(w) && (a.Connect? || a.Disconnect? || a.Tick?)
    ensures WorldInv(Act(w, a))
  {
    match a
    case Connect(client) => ConnectionsKeepInv(w, client);
    case Disconnect(client) => ConnectionsKeepInv(w, client);
    case Tick(now) => TickKeepsInv(w, now);
  }

  lemma FocusKeepsInv(w: World, client: ClientId, focus: Option<SessionId>)
    requires WorldInv(w)
    ensures WorldInv(w.(claims := ReportFocus(w.claims, client, focus)))
  {
    FocusShrinksQueue(w.claims, client, focus);
    ShrinkingQueueKeepsInv(w, ReportFocus(w.claims, client, focus));
  }

  lemma ConnectionsKeepInv(w: World, client: ClientId)
    requires WorldInv(w)
    ensures WorldInv(w.(claims := Register(w.claims, client))) && WorldInv(w.(claims := Unregister(w.claims, client)))
  {
    ConnectionsShrinkQueue(w.claims, client);
    ShrinkingQueueKeepsInv(w, Register(w.claims, client));
    ShrinkingQueueKeepsInv(w, Unregister(w.claims, client));
  }

  lemma TickKeepsInv(w: World, now: int)
    requires WorldInv(w)
    ensures WorldInv(w.(claims := AnnounceDue(w.claims, now).0))
  {
    AnnouncingShrinksQueue(w.claims, now);
    ShrinkingQueueKeepsInv(w, AnnounceDue(w.claims, now).0);
  }

  lemma {:induction false} EveryHistoryKeepsInv(rows: map<SessionId, Machine>, actions: seq<Action>)
    requires ValidRows(rows)
    ensures WorldInv(History(rows, actions))
  {
    if actions != [] {
      EveryHistoryKeepsInv(rows, actions[..|actions| - 1]);
      ActKeepsInv(History(rows, actions[..|actions| - 1]), actions[|actions| - 1]);
    }
  }

  // ----- main results ---------------------------------------------------------------------------

  /**
   In every history each (Session, event) pair is recorded at most once and delivered to at most one
   client, only after it was recorded, and an input event at least one second after that.
   */
  lemma {:induction false} EachEventIsDeliveredAtMostOnce(rows: map<SessionId, Machine>, actions: seq<Action>)
    requires ValidRows(rows)
    ensures var w := History(rows, actions);
            && (forall i, j | 0 <= i < j < |w.log| ::
                w.log[i].session != w.log[j].session || w.log[i].event.id != w.log[j].event.id)
            && (forall i, j | 0 <= i < j < |w.delivered| ::
                  w.delivered[i].session != w.delivered[j].session
                      || w.delivered[i].event.id != w.delivered[j].event.id)
            && (forall j | 0 <= j < |w.delivered| :: WasRecorded(w.log, w.delivered[j]))
  {
    EveryHistoryKeepsInv(rows, actions);
    var w := History(rows, actions);
    forall i, j | 0 <= i < j < |w.log|
      ensures w.log[i].session != w.log[j].session || w.log[i].event.id != w.log[j].event.id
    {
      assert !SameEvent(w.log[i], w.log[j].session, w.log[j].event.id);
    }
    forall i, j | 0 <= i < j < |w.delivered|
      ensures w.delivered[i].session != w.delivered[j].session || w.delivered[i].event.id != w.delivered[j].event.id
    {
      assert !IsDelivery(w.delivered[i], w.delivered[j].session, w.delivered[j].event.id);
    }
  }

  /**
   At the moment a notification is returned, that very event is the Session's current pending event
   and no client has the Session in the foreground.
   */
  lemma {:induction false} DeliveredEventIsCurrent(rows: map<SessionId, Machine>, actions: seq<Action>, t: TaskId,
      failed: bool)
    requires ValidRows(rows)
    ensures var w := History(rows, actions);
            var next := HandStep(w, t, failed);
            next.delivered != w.delivered ==>
              && |next.delivered| == |w.delivered| + 1
              && var d := next.delivered[|w.delivered|];
                 && d.session in next.rows
                 && next.rows[d.session].status.attention == Some(d.event)
                 && d.event.acknowledgement == Pending
                 && !InForeground(next.claims, d.session)
  {
    EveryHistoryKeepsInv(rows, actions);
    var w := History(rows, actions);
    if TaskAt(w, t).Checked? {
      var entry := w.tasks[t].entry;
      assert Logged(w.log, entry);
      var i :| 0 <= i < |w.log| && w.log[i].session == entry.session && w.log[i].event == entry.event
               && entry.readyAt == w.log[i].at + Delay(entry.event);
      assert Follows(Some(w.log[i].event), w.rows[entry.session].status.attention);
    }
  }

  lemma HistoryOfLonger(rows: map<SessionId, Machine>, actions: seq<Action>, i: nat)
    requires i < |actions|
    ensures History(rows, actions[..i + 1]) == Act(History(rows, actions[..i]), actions[i])
  {
    assert actions[..i + 1][..i] == actions[..i];
  }

  lemma CoordinateKeepsClaimsInv(w: World, t: TaskId, now: int)
    requires ClaimsInv(w.claims) && w.claims.sequence < U64_LIMIT
    ensures var next := CoordinateStep(w, t, now).claims;
            ClaimsInv(next) && next.sequence <= w.claims.sequence + 1
  {
    if TaskAt(w, t).Writing? && w.tasks[t].session in w.rows {
      var s := w.tasks[t].session;
      CancelKeepsInv(w.claims, s);
      RecordKeepsInv(w.claims, s, w.rows[s].status.attention, now);
    }
  }

  lemma PopKeepsClaimsInv(w: World, t: TaskId, now: int)
    requires ClaimsInv(w.claims)
    ensures ClaimsInv(PopStep(w, t, now).claims) && PopStep(w, t, now).claims.sequence == w.claims.sequence
  {
    if TaskAt(w, t).Seeking? {
      ClaimKeepsInv(w.claims, w.tasks[t].client, now);
    }
  }

  lemma {:induction false} ActKeepsClaimsInv(w: World, a: Action)
    requires ClaimsInv(w.claims) && w.claims.sequence < U64_LIMIT
    ensures ClaimsInv(Act(w, a).claims) && Act(w, a).claims.sequence <= w.claims.sequence + 1
  {
    match a
    case Coordinate(t, now) => CoordinateKeepsClaimsInv(w, t, now);
    case CancelReviewed(t) => if TaskAt(w, t).Reviewing? { CancelKeepsInv(w.claims, w.tasks[t].session); }
    case Pop(t, now) => PopKeepsClaimsInv(w, t, now);
    case Focus(client, s) => ReportFocusKeepsInv(w.claims, client, Some(s));
    case Blur(client) => ReportFocusKeepsInv(w.claims, client, None);
    case Connect(client) => RegisterKeepsInv(w.claims, client);
    case Disconnect(client) => UnregisterKeepsInv(w.claims, client);
    case Tick(now) => AnnounceKeepsInv(w.claims, now);
    case _ =>
  }

  /**
   In every history too short to saturate the 64-bit counter: the queue is ordered, bounded, has one
   entry per Session, none for a foreground Session, and every entry can still be claimed by someone.
   */
  lemma {:induction false} QueueInvariantHolds(rows: map<SessionId, Machine>, actions: seq<Action>)
    requires |actions| <= U64_LIMIT
    ensures ClaimsInv(History(rows, actions).claims) && History(rows, actions).claims.sequence <= |actions|
  {
    if actions != [] {
      QueueInvariantHolds(rows, actions[..|actions| - 1]);
      ActKeepsClaimsInv(History(rows, actions[..|actions| - 1]), actions[|actions| - 1]);
    }
  }
}
