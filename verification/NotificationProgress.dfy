/**
 What the daemon's actions bring about when nothing stands in their way: a claim request that runs undisturbed
 returns the oldest notification its client may have, and every enabled action takes effect
 (crates/sylvops-daemon/src/daemon.rs:1062-1080, 3088-3130 and 4670-4740).
 */
module NotificationProgress {
  import opened Wrappers
  import opened SessionState
  import opened StatusMachine
  import opened NotificationClaims
  import opened NotificationDelivery

  // ----- an undisturbed claim request -------------------------------------------------------------------

  ghost predicate NoLocks(w: World) {
    forall s :: !Locked(w.tasks, s)
  }

  /** What the client may be handed now: due, newer than its connection, shown by the row, on nobody's screen. */
  predicate MayHave(w: World, client: ClientId, now: int, e: Entry) {
    && e in w.claims.pending && e.readyAt <= now
    && client in w.claims.watermarks && w.claims.watermarks[client] < e.sequence
    && e.session in w.rows && Shows(w.rows[e.session].status, e.event)
    && !InForeground(w.claims, e.session)
  }

  ghost predicate Oldest(w: World, client: ClientId, now: int, e: Entry) {
    MayHave(w, client, now, e) && forall f | MayHave(w, client, now, f) :: e.sequence <= f.sequence
  }

  /** One round of the request's loop, with nobody else in between and no failure. */
  function Round(w: World, t: TaskId, now: int): World {
    Act(Act(Act(w, Pop(t, now)), Check(t, false)), Hand(t, false))
  }

  function Rounds(w: World, t: TaskId, now: int, n: nat): World
    decreases n
  {
    if n == 0 then w else Rounds(Round(w, t, now), t, now, n - 1)
  }

  /** The whole request: it begins and runs its loop for that many rounds. */
  function Request(w: World, t: TaskId, client: ClientId, now: int, rounds: nat): World {
    Rounds(Act(w, BeginClaim(t, client)), t, now, rounds)
  }

  lemma {:induction false} IdleRounds(w: World, t: TaskId, now: int, n: nat)
    requires TaskAt(w, t).Idle?
    ensures Rounds(w, t, now, n) == w
  {
    if n > 0 {
      IdleRounds(w, t, now, n - 1);
    }
  }

  ghost predicate SomeEligible(w: World, client: ClientId, now: int) {
    client in w.claims.watermarks && exists e | e in w.claims.pending :: Eligible(e, w.claims.watermarks[client], now)
  }

  lemma EntryTaken(c: Claims, client: ClientId, now: int) returns (e: Entry, next: Claims)
    requires ClaimsInv(c) && client in c.watermarks
    requires exists f | f in c.pending :: Eligible(f, c.watermarks[client], now)
    ensures Claim(c, client, now) == (next, Some(e))
    ensures ClaimsInv(next) && |next.pending| == |c.pending| - 1
    ensures next.watermarks == c.watermarks && next.foreground == c.foreground
    ensures e in c.pending && Eligible(e, c.watermarks[client], now)
    ensures forall f | f in c.pending && Eligible(f, c.watermarks[client], now) :: e.sequence <= f.sequence
    ensures forall f :: f in next.pending <==> f in c.pending && f != e
  {
    ClaimTakesOldestEligible(c, client, now);
    ClaimKeepsInv(c, client, now);
    var (left, got) := Claim(c, client, now);
    e, next := got.value, left;
  }

  /** The claim takes the oldest due entry newer than the connection, and nothing else changes. */
  lemma PopTakes(w: World, t: TaskId, client: ClientId, left: nat, now: int) returns (e: Entry, claims: Claims)
    requires ClaimsInv(w.claims) && TaskAt(w, t) == Seeking(client, left) && left > 0 && SomeEligible(w, client, now)
    ensures Act(w, Pop(t, now)) == w.(claims := claims, tasks := w.tasks[t := Popped(client, e, now, left - 1)])
    ensures ClaimsInv(claims) && |claims.pending| == |w.claims.pending| - 1
    ensures claims.watermarks == w.claims.watermarks && claims.foreground == w.claims.foreground
    ensures e in w.claims.pending && Eligible(e, w.claims.watermarks[client], now)
    ensures forall f | f in w.claims.pending && Eligible(f, w.claims.watermarks[client], now) ::
        e.sequence <= f.sequence
    ensures forall f :: f in claims.pending <==> f in w.claims.pending && f != e
  {
    e, claims := EntryTaken(w.claims, client, now);
  }

  lemma PopEnds(w: World, t: TaskId, client: ClientId, left: nat, now: int)
    requires ClaimsInv(w.claims) && TaskAt(w, t) == Seeking(client, left)
    requires left == 0 || !SomeEligible(w, client, now)
    ensures Act(w, Pop(t, now)) == w.(tasks := w.tasks[t := Idle])
  {
    ClaimTakesOldestEligible(w.claims, client, now);
  }

  lemma FreeOfLocks(w: World, t: TaskId, task: Task)
    requires NoLocks(w) && forall s :: !Holds(task, s)
    ensures NoLocks(w.(tasks := w.tasks[t := task]))
  {
    var tasks := w.tasks[t := task];
    forall s
      ensures !Locked(tasks, s)
    {
      if u :| u in tasks && Holds(tasks[u], s) {
        assert u != t && u in w.tasks && Holds(w.tasks[u], s) && Locked(w.tasks, s);
      }
    }
  }

  /** What the rest of a round makes of an entry in hand: it is handed over if it may be, else dropped. */
  lemma HeldEntryIsHanded(w: World, t: TaskId, client: ClientId, e: Entry, left: nat, now: int)
    requires NoLocks(w) && TaskAt(w, t) == Popped(client, e, now, left)
    ensures var next := Act(Act(w, Check(t, false)), Hand(t, false));
            if e.session in w.rows && Shows(w.rows[e.session].status, e.event)
                && !InForeground(w.claims, e.session) then
              next == w.(tasks := w.tasks[t := Idle],
                  delivered := w.delivered + [Delivery(client, e.session, e.event, now)])
            else next == w.(tasks := w.tasks[t := Seeking(client, left)])
  {
    assert !Locked(w.tasks, e.session);
    assert w.tasks[t := Checked(client, e, now, left)][t := Idle] == w.tasks[t := Idle];
    assert w.tasks[t := Checked(client, e, now, left)][t := Seeking(client, left)]
        == w.tasks[t := Seeking(client, left)];
  }

  /** The request's answer: the oldest notification the client may have, or none if there is none. */
  ghost predicate Answers(w: World, next: World, client: ClientId, now: int) {
    if exists e :: MayHave(w, client, now, e) then
      exists e ::
        Oldest(w, client, now, e) && next.delivered == w.delivered + [Delivery(client, e.session, e.event, now)]
    else next.delivered == w.delivered
  }

  /** The next round starts from the same world, less one entry the client may not have. */
  ghost predicate Drops(w: World, next: World, client: ClientId, now: int) {
    && next.claims.watermarks == w.claims.watermarks && next.claims.foreground == w.claims.foreground
    && next.rows == w.rows && next.delivered == w.delivered
    && exists e | !MayHave(w, client, now, e) ::
         forall f :: f in next.claims.pending <==> f in w.claims.pending && f != e
  }

  lemma DroppedEntryKeepsAnswer(w: World, w': World, next: World, client: ClientId, now: int)
    requires Drops(w, w', client, now) && Answers(w', next, client, now)
    ensures Answers(w, next, client, now)
  {
    var e :| !MayHave(w, client, now, e) && forall f :: f in w'.claims.pending <==> f in w.claims.pending && f != e;
    forall f
      ensures MayHave(w', client, now, f) <==> MayHave(w, client, now, f)
    {
      assert f == e ==> !MayHave(w, client, now, f);
    }
    if f :| MayHave(w, client, now, f) {
      assert MayHave(w', client, now, f);
      var g :|
        Oldest(w', client, now, g) && next.delivered == w'.delivered + [Delivery(client, g.session, g.event, now)];
      assert Oldest(w, client, now, g);
    }
  }

  ghost predicate Answered(w: World, next: World, t: TaskId, client: ClientId, now: int) {
    TaskAt(next, t) == Idle && Answers(w, next, client, now)
  }

  ghost predicate Ready(w: World, t: TaskId, client: ClientId, left: nat) {
    ClaimsInv(w.claims) && NoLocks(w) && TaskAt(w, t) == Seeking(client, left) && |w.claims.pending| <= left
  }

  /** One round answers the request and ends it, or drops one entry and goes on. */
  lemma RoundOutcome(w: World, t: TaskId, client: ClientId, left: nat, now: int) returns (next: World)
    requires Ready(w, t, client, left)
    ensures next == Round(w, t, now)
    ensures || Answered(w, next, t, client, now)
            || (left > 0 && Ready(next, t, client, left - 1) && Drops(w, next, client, now))
  {
    if !SomeEligible(w, client, now) {
      PopEnds(w, t, client, left, now);
      next := w.(tasks := w.tasks[t := Idle]);
    } else {
      next := EligibleRoundOutcome(w, t, client, left, now);
    }
  }

  lemma EligibleRoundOutcome(w: World, t: TaskId, client: ClientId, left: nat, now: int) returns (next: World)
    requires Ready(w, t, client, left) && SomeEligible(w, client, now)
    ensures next == Round(w, t, now)
    ensures || Answered(w, next, t, client, now)
            || (left > 0 && Ready(next, t, client, left - 1) && Drops(w, next, client, now))
  {
    var e, claims := PopTakes(w, t, client, left, now);
    var taken := w.(claims := claims, tasks := w.tasks[t := Popped(client, e, now, left - 1)]);
    FreeOfLocks(w.(claims := claims), t, Popped(client, e, now, left - 1));
    HeldEntryIsHanded(taken, t, client, e, left - 1, now);
    next := Round(w, t, now);
    if MayHave(w, client, now, e) {
      HandedEntryAnswers(w, client, now, e);
    } else {
      FreeOfLocks(taken, t, Seeking(client, left - 1));
    }
  }

  lemma RoundsGoOn(w: World, t: TaskId, now: int, n: nat, next: World)
    requires n > 0 && next == Round(w, t, now)
    ensures Rounds(w, t, now, n) == Rounds(next, t, now, n - 1)
  {
  }

  lemma FirstRound(w: World, t: TaskId, client: ClientId, left: nat, now: int, n: nat) returns (next: World)
    requires Ready(w, t, client, left) && n > 0
    ensures Rounds(w, t, now, n) == Rounds(next, t, now, n - 1)
    ensures Answered(w, next, t, client, now)
            || (left > 0 && Ready(next, t, client, left - 1) && Drops(w, next, client, now))
  {
    next := RoundOutcome(w, t, client, left, now);
    RoundsGoOn(w, t, now, n, next);
  }

  lemma {:induction false} RoundsAnswer(w: World, t: TaskId, client: ClientId, left: nat, now: int, n: nat)
    requires Ready(w, t, client, left) && left < n
    ensures Answered(w, Rounds(w, t, now, n), t, client, now)
    decreases n, 0
  {
    var next := FirstRound(w, t, client, left, now, n);
    if Answered(w, next, t, client, now) {
      IdleRounds(next, t, now, n - 1);
    } else {
      DroppedRoundsAnswer(w, next, t, client, left - 1, now, n - 1);
    }
  }

  lemma {:induction false} DroppedRoundsAnswer(
    w: World, next: World, t: TaskId, client: ClientId, left: nat, now: int, n: nat)
    requires Ready(next, t, client, left) && left < n && Drops(w, next, client, now)
    ensures Answered(w, Rounds(next, t, now, n), t, client, now)
    decreases n, 1
  {
    RoundsAnswer(next, t, client, left, now, n);
    DroppedEntryKeepsAnswer(w, next, Rounds(next, t, now, n), client, now);
  }

  lemma HandedEntryAnswers(w: World, client: ClientId, now: int, e: Entry)
    requires MayHave(w, client, now, e)
    requires forall f | f in w.claims.pending && Eligible(f, w.claims.watermarks[client], now) ::
        e.sequence <= f.sequence
    ensures Oldest(w, client, now, e)
  {
  }

  /**
   In every history too short to saturate the counter: a claim request that runs while nobody else acts and no lock
   is held ends by itself within its 256 rounds, and returns the oldest notification its client may have, if and
   only if there is one.
   */
  lemma {:induction false} UndisturbedRequestIsAnswered(
    rows: map<SessionId, Machine>, actions: seq<Action>, t: TaskId, client: ClientId, now: int, rounds: nat)
    requires rounds > 256 && |actions| <= U64_LIMIT
    requires NoLocks(History(rows, actions)) && TaskAt(History(rows, actions), t) == Idle
    ensures var (w, next) := (History(rows, actions), Request(History(rows, actions), t, client, now, rounds));
            TaskAt(next, t) == Idle && Answers(w, next, client, now)
  {
    var w := History(rows, actions);
    QueueInvariantHolds(rows, actions);
    var begun := Act(w, BeginClaim(t, client));
    FreeOfLocks(w, t, Seeking(client, 256));
    RoundsAnswer(begun, t, client, 256, now, rounds);
    SameAnswer(w, begun, Rounds(begun, t, now, rounds), client, now);
  }

  lemma SameAnswer(w: World, w': World, next: World, client: ClientId, now: int)
    requires w'.claims == w.claims && w'.rows == w.rows && w'.delivered == w.delivered && Answers(w', next, client, now)
    ensures Answers(w, next, client, now)
  {
    forall f
      ensures MayHave(w', client, now, f) <==> MayHave(w, client, now, f)
    {
    }
    if f :| MayHave(w, client, now, f) {
      assert MayHave(w', client, now, f);
      var g :|
        Oldest(w', client, now, g) && next.delivered == w'.delivered + [Delivery(client, g.session, g.event, now)];
      assert Oldest(w, client, now, g);
    }
  }

  // ----- enabled actions take effect ---------------------------------------------------------------------

  /** A Session is created once, running nothing and with nothing to tell, and deleted unless a task holds its lock. */
  lemma {:induction false} SessionsComeAndGo(w: World, s: SessionId)
    ensures s !in w.used ==>
              && Act(w, Create(s)).rows.Keys == w.rows.Keys + {s} && s in Act(w, Create(s)).used
              && Act(w, Create(s)).rows[s].status == SessionStatus(Starting, Inactive, None)
    ensures !Locked(w.tasks, s) ==> Act(w, Delete(s)).rows.Keys == w.rows.Keys - {s}
  {
  }

  /** A task that may write changes the row as the reducer does, and keeps the lock until the queue is told. */
  lemma {:induction false} WriteTakesEffect(w: World, t: TaskId, s: SessionId, op: Op)
    requires TaskAt(w, t) == Idle && s in w.rows && !Locked(w.tasks, s)
    requires op.Exit? || op.Provide?
    requires op.Provide? ==> w.rows[s].status.lifecycle == Starting || w.rows[s].status.lifecycle == Running
    ensures var next := Act(w, Write(t, s, op));
            if Attempt(w.rows[s], op).Ok? then
              && next.rows == w.rows[s := Attempt(w.rows[s], op).value]
              && next.tasks == w.tasks[t := Writing(s, w.rows[s].status.attention)]
              && next.claims == w.claims
            else next == w
  {
  }

  /** A granted review acknowledges the event in the row and then takes the Session's entry out of the queue. */
  lemma {:induction false} ReviewClearsQueue(w: World, t: TaskId, s: SessionId, id: AttentionId, action: ReviewAction)
    requires TaskAt(w, t) == Idle && s in w.rows && !Locked(w.tasks, s) && Review(w.rows[s].status, id, action).Some?
    ensures var reviewed := Act(w, Acknowledge(t, s, id, action));
            var next := Act(reviewed, CancelReviewed(t));
            && reviewed.rows == w.rows[s := w.rows[s].(status := Review(w.rows[s].status, id, action).value)]
            && next.rows == reviewed.rows && TaskAt(next, t) == Idle
            && forall e :: e in next.claims.pending <==> e in w.claims.pending && e.session != s
  {
  }

  /** Telling the queue of a write without news clears a spent event's entry, keeps a pending one, and ends the task. */
  lemma {:induction false} ToldQueueWithoutNews(w: World, t: TaskId, now: int)
    requires TaskAt(w, t).Writing? && w.tasks[t].session in w.rows
    requires var Writing(s, previous) := w.tasks[t]; IdentityOf(w.rows[s].status.attention) == IdentityOf(previous)
    ensures var (s, next) := (w.tasks[t].session, Act(w, Coordinate(t, now)));
            var current := w.rows[s].status.attention;
            && TaskAt(next, t) == Idle && next.rows == w.rows && next.log == w.log
            && if current.Some? && current.value.acknowledgement == Pending then next.claims == w.claims
               else forall e :: e in next.claims.pending <==> e in w.claims.pending && e.session != s
  {
  }

  /** Clients connect, disconnect and report focus; a Session to be focused must exist and its lock be free. */
  lemma {:induction false} ClientActionsTakeEffect(w: World, client: ClientId, s: SessionId)
    ensures Act(w, Connect(client)) == w.(claims := Register(w.claims, client))
    ensures Act(w, Disconnect(client)) == w.(claims := Unregister(w.claims, client))
    ensures Act(w, Blur(client)) == w.(claims := ReportFocus(w.claims, client, None))
    ensures s in w.rows && !Locked(w.tasks, s) ==>
              Act(w, Focus(client, s)) == w.(claims := ReportFocus(w.claims, client, Some(s)))
  {
  }

  /** The daemon starts with the rows it finds, no client, nothing queued and nothing told. */
  lemma {:induction false} NothingIsToldAtStart(rows: map<SessionId, Machine>, client: ClientId, t: TaskId)
    ensures var w := History(rows, []);
            && w.rows == rows && w.claims.pending == [] && w.claims.sequence == 0 && w.log == [] && w.delivered == []
            && TaskAt(w, t) == Idle && NoLocks(w) && !SomeEligible(w, client, 0)
            && MarkOf(w.claims, client) == None && ShownBy(w.claims, client) == None
            && MarkOf(Act(w, Connect(client)).claims, client) == Some(0)
  {
    ConnectingTouchesOnlyItsClient(History(rows, []).claims, client);
  }

  lemma {:induction false} AbandonedWriteLeavesQueue(w: World, t: TaskId)
    requires TaskAt(w, t).Writing?
    ensures var next := Act(w, Abandon(t));
            TaskAt(next, t) == Idle && next.claims == w.claims && next.rows == w.rows && next.log == w.log
  {
  }
}
