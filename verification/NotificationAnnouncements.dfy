/**
 Waking the clients for due notifications: no event wakes them twice
 (crates/sylvops-daemon/src/daemon.rs:205-215).
 */
module NotificationAnnouncements {
  import opened Wrappers
  import opened SessionState
  import opened StatusMachine
  import opened NotificationClaims
  import opened NotificationDelivery

  /** The entries an announcement at this time newly marks; clients are woken exactly when there is one. */
  predicate Marks(c: Claims, now: int, e: Entry) {
    e in c.pending && !e.announced && Due(e, now)
  }

  predicate Concerns(e: Entry, s: SessionId, id: int) {
    e.session == s && e.event.id == id
  }

  /** The event was recorded once, and whatever the queue still holds of it is marked. */
  ghost predicate Spoken(log: seq<Recorded>, pending: seq<Entry>, s: SessionId, id: int) {
    && (exists i | 0 <= i < |log| :: SameEvent(log[i], s, id))
    && (forall e | e in pending && Concerns(e, s, id) :: e.announced)
  }

  lemma QueuedEventIsRecorded(w: World, e: Entry)
    requires WorldInv(w) && e in w.claims.pending
    ensures exists i | 0 <= i < |w.log| :: SameEvent(w.log[i], e.session, e.event.id)
  {
    assert Plain(e) in Queued(w.claims) && Logged(w.log, Plain(e));
    var j :| 0 <= j < |w.log| && w.log[j].session == e.session && w.log[j].event == e.event;
    assert SameEvent(w.log[j], e.session, e.event.id);
  }

  lemma MarkingCoversTheEvent(c: Claims, now: int, e: Entry, f: Entry)
    requires Unique(c.pending) && Marks(c, now, e)
    requires f in AnnounceDue(c, now).0.pending && Concerns(f, e.session, e.event.id)
    ensures f.announced
  {
    var before, after := c.pending, AnnounceDue(c, now).0.pending;
    var i :| 0 <= i < |before| && before[i] == e;
    var k :| 0 <= k < |after| && after[k] == f;
    assert before[k].session == before[i].session;
  }

  lemma MarkedEventIsSpoken(w: World, now: int, e: Entry)
    requires WorldInv(w) && Marks(w.claims, now, e)
    ensures Spoken(w.log, AnnounceDue(w.claims, now).0.pending, e.session, e.event.id)
  {
    QueuedEventIsRecorded(w, e);
    forall f | f in AnnounceDue(w.claims, now).0.pending && Concerns(f, e.session, e.event.id)
      ensures f.announced
    {
      MarkingCoversTheEvent(w.claims, now, e, f);
    }
  }

  /** Whatever a step other than recording leaves in the queue was there before, possibly marked since. */
  ghost predicate OnlyMarks(before: seq<Entry>, after: seq<Entry>) {
    forall f | f in after :: exists e | e in before :: Plain(e) == Plain(f) && (e.announced ==> f.announced)
  }

  lemma KeptEntriesOnlyMark(before: seq<Entry>, after: seq<Entry>)
    requires forall f | f in after :: f in before
    ensures OnlyMarks(before, after)
  {
  }

  lemma AnnouncingOnlyMarks(c: Claims, now: int)
    ensures OnlyMarks(c.pending, AnnounceDue(c, now).0.pending)
  {
    var after := AnnounceDue(c, now).0.pending;
    forall f | f in after
      ensures exists e | e in c.pending :: Plain(e) == Plain(f) && (e.announced ==> f.announced)
    {
      var k :| 0 <= k < |after| && after[k] == f;
      assert c.pending[k] in c.pending && Plain(c.pending[k]) == Plain(f);
    }
  }

  lemma OnlyMarkedStaysSpoken(log: seq<Recorded>, before: seq<Entry>, after: seq<Entry>, s: SessionId, id: int)
    requires Spoken(log, before, s, id) && OnlyMarks(before, after)
    ensures Spoken(log, after, s, id)
  {
    forall f | f in after && Concerns(f, s, id)
      ensures f.announced
    {
      var e :| e in before && Plain(e) == Plain(f) && (e.announced ==> f.announced);
      assert Plain(e).session == s && Plain(e).event.id == id;
    }
  }

  lemma LongerLogStaysSpoken(log: seq<Recorded>, more: seq<Recorded>, pending: seq<Entry>, s: SessionId, id: int)
    requires Spoken(log, pending, s, id)
    ensures Spoken(log + more, pending, s, id)
  {
    var i :| 0 <= i < |log| && SameEvent(log[i], s, id);
    assert (log + more)[i] == log[i];
  }

  /** A recording adds an entry for a new event only. */
  lemma CoordinateStaysSpoken(w: World, t: TaskId, now: int, s: SessionId, id: int)
    requires WorldInv(w) && Spoken(w.log, w.claims.pending, s, id)
    ensures Spoken(CoordinateStep(w, t, now).log, CoordinateStep(w, t, now).claims.pending, s, id)
  {
    var next := CoordinateStep(w, t, now);
    if TaskAt(w, t).Writing? {
      var Writing(session, previous) := w.tasks[t];
      var current := w.rows[session].status.attention;
      if IdentityOf(current) == IdentityOf(previous) {
        KeptEntriesOnlyMark(w.claims.pending, next.claims.pending);
        OnlyMarkedStaysSpoken(w.log, w.claims.pending, next.claims.pending, s, id);
      } else {
        LongerLogStaysSpoken(w.log, [Recorded(session, current.value, now)], w.claims.pending, s, id);
        NewEventIsNotSpoken(w, t, s, id);
        RecordedEntries(w.claims, session, current.value, now);
      }
    }
  }

  lemma NewEventIsNotSpoken(w: World, t: TaskId, s: SessionId, id: int)
    requires WorldInv(w) && Spoken(w.log, w.claims.pending, s, id) && TaskAt(w, t).Writing?
    requires IdentityOf(w.rows[w.tasks[t].session].status.attention) != IdentityOf(w.tasks[t].previous)
    ensures w.tasks[t].session == s ==> w.rows[s].status.attention.value.id != id
  {
    var i :| 0 <= i < |w.log| && SameEvent(w.log[i], s, id);
  }

  lemma RecordedEntries(c: Claims, s: SessionId, event: AttentionEvent, now: int)
    ensures forall e | e in Record(c, s, Some(event), now).0.pending :: e in c.pending || Concerns(e, s, event.id)
  {
    var cleared := Without(c.pending, s);
    if Queues(c, s, Some(event)) {
      var entry := NewEntry(c.sequence, s, event, now);
      assert forall e | e in Enqueued(Cancel(c, s), entry).pending :: e in cleared || e == entry;
    }
  }

  lemma ActStaysSpoken(w: World, a: Action, s: SessionId, id: int)
    requires WorldInv(w) && Spoken(w.log, w.claims.pending, s, id)
    ensures Spoken(Act(w, a).log, Act(w, a).claims.pending, s, id)
  {
    if a.Coordinate? {
      CoordinateStaysSpoken(w, a.task, a.now, s, id);
    } else {
      StepOnlyMarks(w, a);
      OnlyMarkedStaysSpoken(w.log, w.claims.pending, Act(w, a).claims.pending, s, id);
    }
  }

  lemma StepOnlyMarks(w: World, a: Action)
    requires !a.Coordinate?
    ensures Act(w, a).log == w.log && OnlyMarks(w.claims.pending, Act(w, a).claims.pending)
  {
    match a
    case Tick(now) => AnnouncingOnlyMarks(w.claims, now);
    case Pop(t, now) => PopOnlyTakes(w, t, now);
        KeptEntriesOnlyMark(w.claims.pending, PopStep(w, t, now).claims.pending);
    case _ => KeptEntriesOnlyMark(w.claims.pending, Act(w, a).claims.pending);
  }

  lemma PopOnlyTakes(w: World, t: TaskId, now: int)
    ensures forall f | f in PopStep(w, t, now).claims.pending :: f in w.claims.pending
  {
  }

  lemma {:induction false} SpokenEventStaysSpoken(
    rows: map<SessionId, Machine>, actions: seq<Action>, i: nat, s: SessionId, id: int)
    requires ValidRows(rows) && i <= |actions|
    requires Spoken(History(rows, actions[..i]).log, History(rows, actions[..i]).claims.pending, s, id)
    ensures Spoken(History(rows, actions).log, History(rows, actions).claims.pending, s, id)
  {
    if i == |actions| {
      assert actions[..i] == actions;
    } else {
      var before := actions[..|actions| - 1];
      assert before[..i] == actions[..i];
      SpokenEventStaysSpoken(rows, before, i, s, id);
      EveryHistoryKeepsInv(rows, before);
      ActStaysSpoken(History(rows, before), actions[|actions| - 1], s, id);
    }
  }

  lemma TickSpeaks(w: World, now: int, e: Entry)
    requires WorldInv(w) && Marks(w.claims, now, e)
    ensures Spoken(Act(w, Tick(now)).log, Act(w, Tick(now)).claims.pending, e.session, e.event.id)
  {
    MarkedEventIsSpoken(w, now, e);
  }

  lemma AnnouncedEventStaysSpoken(rows: map<SessionId, Machine>, actions: seq<Action>, i: nat, e: Entry)
    requires ValidRows(rows) && i < |actions| && actions[i].Tick?
    requires Marks(History(rows, actions[..i]).claims, actions[i].now, e)
    ensures Spoken(History(rows, actions).log, History(rows, actions).claims.pending, e.session, e.event.id)
  {
    EveryHistoryKeepsInv(rows, actions[..i]);
    TickSpeaks(History(rows, actions[..i]), actions[i].now, e);
    HistoryOfLonger(rows, actions, i);
    SpokenEventStaysSpoken(rows, actions, i + 1, e.session, e.event.id);
  }

  /**
   Two announcements in one history, at any times and with any steps in between, never newly mark the same
   event of the same Session: each event wakes the clients at most once.
   */
  lemma {:induction false} EachEventIsAnnouncedAtMostOnce(
    rows: map<SessionId, Machine>, actions: seq<Action>, i: nat, j: nat, e: Entry, f: Entry)
    requires ValidRows(rows) && i < j < |actions| && actions[i].Tick? && actions[j].Tick?
    ensures && Marks(History(rows, actions[..i]).claims, actions[i].now, e)
            && Marks(History(rows, actions[..j]).claims, actions[j].now, f)
            ==> e.session != f.session || e.event.id != f.event.id
  {
    if Marks(History(rows, actions[..i]).claims, actions[i].now, e) {
      var later := actions[..j];
      assert later[..i] == actions[..i] && later[i] == actions[i];
      AnnouncedEventStaysSpoken(rows, later, i, e);
      assert Concerns(f, e.session, e.event.id) ==> !Marks(History(rows, later).claims, actions[j].now, f);
    }
  }

  // ----- and once it is due, it is announced ---------------------------------------------------------

  /** The k-th action is an announcement that newly marked this entry, and so answered yes. */
  ghost predicate AnnouncedAt(rows: map<SessionId, Machine>, actions: seq<Action>, k: nat, e: Entry) {
    && k < |actions| && actions[k].Tick?
    && AnnounceDue(History(rows, actions[..k]).claims, actions[k].now).1
    && exists f | Plain(f) == Plain(e) :: Marks(History(rows, actions[..k]).claims, actions[k].now, f)
  }

  lemma MarkedIsReported(c: Claims, now: int, e: Entry)
    requires Marks(c, now, e)
    ensures AnnounceDue(c, now).1
  {
  }

  /** Where an announced entry comes from: it was announced before, or this step announced it. */
  lemma AnnouncedSource(w: World, a: Action, e: Entry)
    requires e in Act(w, a).claims.pending && e.announced
    ensures || (exists f | f in w.claims.pending :: Plain(f) == Plain(e) && f.announced)
            || (a.Tick? && exists f | Plain(f) == Plain(e) :: Marks(w.claims, a.now, f))
  {
    if a.Tick? {
      var after := AnnounceDue(w.claims, a.now).0.pending;
      var i :| 0 <= i < |after| && after[i] == e;
      var f := w.claims.pending[i];
      assert Plain(f) == Plain(e) && f in w.claims.pending;
    } else {
      StepKeepsAnnounced(w, a, e);
    }
  }

  lemma StepKeepsAnnounced(w: World, a: Action, e: Entry)
    requires !a.Tick? && e in Act(w, a).claims.pending && e.announced
    ensures e in w.claims.pending
  {
  }

  lemma {:induction false} AnnouncedEntryWasReported(
    rows: map<SessionId, Machine>, actions: seq<Action>, n: nat, e: Entry) returns (k: nat)
    requires n <= |actions| && e in History(rows, actions[..n]).claims.pending && e.announced
    ensures k < n && AnnouncedAt(rows, actions, k, e)
  {
    assert n > 0 by { assert actions[..0] == []; }
    var w, a := History(rows, actions[..n - 1]), actions[n - 1];
    HistoryOfLonger(rows, actions, n - 1);
    AnnouncedSource(w, a, e);
    if f :| f in w.claims.pending && Plain(f) == Plain(e) && f.announced {
      k := AnnouncedEntryWasReported(rows, actions, n - 1, f);
    } else {
      k := n - 1;
      var f :| Plain(f) == Plain(e) && Marks(w.claims, a.now, f);
      MarkedIsReported(w.claims, a.now, f);
    }
  }

  /** The k-th action is an announcement that newly marks an entry of this event. */
  ghost predicate AnnouncesEvent(rows: map<SessionId, Machine>, actions: seq<Action>, k: nat, s: SessionId, id: int) {
    && k < |actions| && actions[k].Tick?
    && exists f | Concerns(f, s, id) :: Marks(History(rows, actions[..k]).claims, actions[k].now, f)
  }

  lemma TwoAnnouncementsDiffer(
    rows: map<SessionId, Machine>, actions: seq<Action>, k: nat, j: nat, s: SessionId, id: int)
    requires ValidRows(rows) && k != j && AnnouncesEvent(rows, actions, k, s, id)
    ensures !AnnouncesEvent(rows, actions, j, s, id)
  {
    if AnnouncesEvent(rows, actions, j, s, id) {
      var f :| Concerns(f, s, id) && Marks(History(rows, actions[..k]).claims, actions[k].now, f);
      var g :| Concerns(g, s, id) && Marks(History(rows, actions[..j]).claims, actions[j].now, g);
      if k < j {
        EachEventIsAnnouncedAtMostOnce(rows, actions, k, j, f, g);
      } else {
        EachEventIsAnnouncedAtMostOnce(rows, actions, j, k, g, f);
      }
    }
  }

  lemma AnnouncedEntryAnnouncesEvent(rows: map<SessionId, Machine>, actions: seq<Action>, k: nat, e: Entry)
    requires AnnouncedAt(rows, actions, k, e)
    ensures AnnouncesEvent(rows, actions, k, e.session, e.event.id)
  {
    var f :| Plain(f) == Plain(e) && Marks(History(rows, actions[..k]).claims, actions[k].now, f);
    assert Plain(f).session == f.session && Plain(f).event == f.event && Concerns(f, e.session, e.event.id);
  }

  lemma DueEntryWasReported(rows: map<SessionId, Machine>, actions: seq<Action>, j: nat, e: Entry) returns (k: nat)
    requires j < |actions| && actions[j].Tick?
    requires e in History(rows, actions[..j]).claims.pending && e.readyAt <= actions[j].now
    ensures k <= j && AnnouncedAt(rows, actions, k, e)
  {
    if e.announced {
      k := AnnouncedEntryWasReported(rows, actions, j, e);
    } else {
      k := j;
      MarkedIsReported(History(rows, actions[..j]).claims, actions[j].now, e);
      assert Plain(e) == Plain(e) && Marks(History(rows, actions[..j]).claims, actions[j].now, e);
    }
  }

  /**
   An event that is still queued when an announcement finds it due has been announced by then exactly once: by this
   announcement or an earlier one, which answered yes, and by no other announcement of the history.
   */
  lemma {:induction false} DueEventIsAnnouncedExactlyOnce(
    rows: map<SessionId, Machine>, actions: seq<Action>, j: nat, e: Entry) returns (k: nat)
    requires ValidRows(rows) && j < |actions| && actions[j].Tick?
    requires e in History(rows, actions[..j]).claims.pending && e.readyAt <= actions[j].now
    ensures k <= j && AnnouncedAt(rows, actions, k, e)
    ensures forall other: nat | other != k :: !AnnouncesEvent(rows, actions, other, e.session, e.event.id)
  {
    k := DueEntryWasReported(rows, actions, j, e);
    AnnouncedEntryAnnouncesEvent(rows, actions, k, e);
    forall other: nat | other != k
      ensures !AnnouncesEvent(rows, actions, other, e.session, e.event.id)
    {
      TwoAnnouncementsDiffer(rows, actions, k, other, e.session, e.event.id);
    }
  }
}
