/**
 What the watermarks are for: a client is only ever handed events that were recorded after it connected
 (crates/sylvops-daemon/src/daemon.rs:116-120, 165-204).
 */
module NotificationProvenance {
  import opened Wrappers
  import opened SessionState
  import opened StatusMachine
  import opened NotificationClaims
  import opened NotificationDelivery

  /** The world before the i-th action. */
  function Before(rows: map<SessionId, Machine>, actions: seq<Action>, i: nat): World
    requires i <= |actions|
  {
    History(rows, actions[..i])
  }

  predicate RecordsIn(w: World, a: Action, s: SessionId, event: AttentionEvent) {
    a.Coordinate? && Act(w, a).log == w.log + [Recorded(s, event, a.now)]
  }

  predicate TakesIn(w: World, a: Action, client: ClientId, e: Entry) {
    && a.Pop? && TaskAt(w, a.task).Seeking?
    && var task := TaskAt(Act(w, a), a.task);
       task.Popped? && task.client == client && task.entry == e
  }

  predicate InHand(task: Task, client: ClientId, e: Entry) {
    (task.Popped? || task.Checked?) && task.client == client && task.entry == e
  }

  /** The client neither connects nor disconnects from the i-th action up to the j-th. */
  predicate Untouched(actions: seq<Action>, client: ClientId, i: nat, j: nat) {
    forall k | i <= k < j && k < |actions| :: actions[k] != Connect(client) && actions[k] != Disconnect(client)
  }

  // ----- what one step may do -----------------------------------------------------------------------

  lemma StepSequence(w: World, a: Action)
    ensures w.claims.sequence <= Act(w, a).claims.sequence
  {
  }

  ghost predicate Resembles(pending: seq<Entry>, e: Entry) {
    exists f | f in pending :: Plain(f) == Plain(e)
  }

  lemma CoordinateEntrySource(w: World, t: TaskId, now: int, e: Entry)
    requires e in CoordinateStep(w, t, now).claims.pending && e !in w.claims.pending
    ensures RecordsIn(w, Coordinate(t, now), e.session, e.event)
    ensures CoordinateStep(w, t, now).claims.sequence == e.sequence
  {
    var Writing(s, previous) := w.tasks[t];
    var current := w.rows[s].status.attention;
    assert IdentityOf(current) != IdentityOf(previous) && Queues(w.claims, s, current);
    assert e == NewEntry(w.claims.sequence, s, current.value, now);
  }

  lemma EntrySource(w: World, a: Action, e: Entry)
    requires e in Act(w, a).claims.pending
    ensures Resembles(w.claims.pending, e)
            || (RecordsIn(w, a, e.session, e.event) && Act(w, a).claims.sequence == e.sequence)
  {
    if e in w.claims.pending {
      assert Plain(e) == Plain(e);
    } else {
      match a
      case Coordinate(t, now) => CoordinateEntrySource(w, t, now, e);
      case Tick(now) =>
        var i :| 0 <= i < |w.claims.pending| && AnnounceDue(w.claims, now).0.pending[i] == e;
        assert w.claims.pending[i] in w.claims.pending && Plain(w.claims.pending[i]) == Plain(e);
      case _ =>
    }
  }

  lemma WatermarkSource(w: World, a: Action, client: ClientId)
    requires client in Act(w, a).claims.watermarks
    ensures var mark := Act(w, a).claims.watermarks[client];
            || (a == Connect(client) && mark == w.claims.sequence)
            || (&& a != Connect(client) && a != Disconnect(client)
                && client in w.claims.watermarks && mark == w.claims.watermarks[client])
  {
  }

  lemma TakenEntryIsNew(w: World, a: Action, client: ClientId, e: Entry)
    requires TakesIn(w, a, client, e)
    ensures e in w.claims.pending && client in w.claims.watermarks && w.claims.watermarks[client] < e.sequence
  {
  }

  lemma HeldSource(w: World, a: Action, t: TaskId, client: ClientId, e: Entry)
    requires InHand(TaskAt(Act(w, a), t), client, e)
    ensures InHand(TaskAt(w, t), client, e) || (TakesIn(w, a, client, e) && a.task == t)
  {
  }

  lemma DeliverySource(w: World, a: Action)
    ensures || Act(w, a).delivered == w.delivered
            || (&& a.Hand? && TaskAt(w, a.task).Checked?
                && var task := TaskAt(w, a.task);
                   Act(w, a).delivered
                   == w.delivered + [Delivery(task.client, task.entry.session, task.entry.event, task.at)])
  {
  }

  // ----- where things come from ---------------------------------------------------------------------

  lemma {:induction false} SequenceGrows(rows: map<SessionId, Machine>, actions: seq<Action>, i: nat, j: nat)
    requires i <= j <= |actions|
    ensures Before(rows, actions, i).claims.sequence <= Before(rows, actions, j).claims.sequence
  {
    if i < j {
      SequenceGrows(rows, actions, i, j - 1);
      HistoryOfLonger(rows, actions, j - 1);
      StepSequence(Before(rows, actions, j - 1), actions[j - 1]);
    }
  }

  /** The action that recorded a queued entry, at which the counter stood at the entry's number. */
  lemma {:induction false} EntryHasRecording(rows: map<SessionId, Machine>, actions: seq<Action>, n: nat, e: Entry)
    returns (p: nat)
    requires n <= |actions| && e in Before(rows, actions, n).claims.pending
    ensures p < n && RecordsIn(Before(rows, actions, p), actions[p], e.session, e.event)
    ensures Before(rows, actions, p + 1).claims.sequence == e.sequence
  {
    assert n > 0 by { assert actions[..0] == []; }
    var w := Before(rows, actions, n - 1);
    HistoryOfLonger(rows, actions, n - 1);
    EntrySource(w, actions[n - 1], e);
    if f :| f in w.claims.pending && Plain(f) == Plain(e) {
      assert Plain(f).event == f.event && Plain(f).session == f.session && Plain(f).sequence == f.sequence;
      p := EntryHasRecording(rows, actions, n - 1, f);
    } else {
      p := n - 1;
    }
  }

  /** The connection that set a watermark, at which the counter stood at the watermark. */
  lemma {:induction false} WatermarkHasConnection(
    rows: map<SessionId, Machine>, actions: seq<Action>, n: nat, client: ClientId) returns (c: nat)
    requires n <= |actions| && client in Before(rows, actions, n).claims.watermarks
    ensures c < n && actions[c] == Connect(client) && Untouched(actions, client, c + 1, n)
    ensures Before(rows, actions, c).claims.sequence == Before(rows, actions, n).claims.watermarks[client]
  {
    assert n > 0 by { assert actions[..0] == []; }
    HistoryOfLonger(rows, actions, n - 1);
    WatermarkSource(Before(rows, actions, n - 1), actions[n - 1], client);
    if actions[n - 1] == Connect(client) {
      c := n - 1;
    } else {
      c := WatermarkHasConnection(rows, actions, n - 1, client);
    }
  }

  /** The c-th action connected the client for good, and the p-th recorded the event after that. */
  predicate NewTo(
    rows: map<SessionId, Machine>, actions: seq<Action>, client: ClientId, e: Entry, c: nat, p: nat, k: nat)
  {
    && c < p < k < |actions|
    && actions[c] == Connect(client) && Untouched(actions, client, c + 1, k)
    && RecordsIn(Before(rows, actions, p), actions[p], e.session, e.event)
    && TakesIn(Before(rows, actions, k), actions[k], client, e)
  }

  lemma TakenEntryCameAfterConnection(
    rows: map<SessionId, Machine>, actions: seq<Action>, client: ClientId, e: Entry, k: nat) returns (c: nat, p: nat)
    requires k < |actions| && TakesIn(Before(rows, actions, k), actions[k], client, e)
    ensures NewTo(rows, actions, client, e, c, p, k)
  {
    TakenEntryIsNew(Before(rows, actions, k), actions[k], client, e);
    c := WatermarkHasConnection(rows, actions, k, client);
    p := EntryHasRecording(rows, actions, k, e);
    if p < c {
      SequenceGrows(rows, actions, p + 1, c);
    }
  }

  lemma {:induction false} HeldEntryWasTaken(
    rows: map<SessionId, Machine>, actions: seq<Action>, n: nat, t: TaskId, client: ClientId, e: Entry)
    returns (k: nat)
    requires n <= |actions| && InHand(TaskAt(Before(rows, actions, n), t), client, e)
    ensures k < n && TakesIn(Before(rows, actions, k), actions[k], client, e)
  {
    assert n > 0 by { assert actions[..0] == []; }
    HistoryOfLonger(rows, actions, n - 1);
    HeldSource(Before(rows, actions, n - 1), actions[n - 1], t, client, e);
    if InHand(TaskAt(Before(rows, actions, n - 1), t), client, e) {
      k := HeldEntryWasTaken(rows, actions, n - 1, t, client, e);
    } else {
      k := n - 1;
    }
  }

  lemma {:induction false} DeliveryWasTaken(rows: map<SessionId, Machine>, actions: seq<Action>, n: nat, j: nat)
    returns (e: Entry, k: nat)
    requires n <= |actions| && j < |Before(rows, actions, n).delivered|
    ensures var d := Before(rows, actions, n).delivered[j];
            && e.session == d.session && e.event == d.event
            && k < n && TakesIn(Before(rows, actions, k), actions[k], d.client, e)
  {
    assert n > 0 by { assert actions[..0] == []; }
    var w := Before(rows, actions, n - 1);
    HistoryOfLonger(rows, actions, n - 1);
    DeliverySource(w, actions[n - 1]);
    if j < |w.delivered| {
      e, k := DeliveryWasTaken(rows, actions, n - 1, j);
    } else {
      var task := TaskAt(w, actions[n - 1].task);
      e := task.entry;
      k := HeldEntryWasTaken(rows, actions, n - 1, actions[n - 1].task, task.client, e);
    }
  }

  ghost predicate ClaimedAfterConnecting(rows: map<SessionId, Machine>, actions: seq<Action>, d: Delivery) {
    exists e: Entry, c, p, k ::
      e.session == d.session && e.event == d.event && NewTo(rows, actions, d.client, e, c, p, k)
  }

  /**
   In every history each delivered notification was claimed by its client while connected, and stems from an
   event recorded after that client's last connection before the claim. The saturation of the counter does
   not matter here: it hides events, but never shows an old one.
   */
  lemma {:induction false} DeliveredEventIsNewToItsClient(rows: map<SessionId, Machine>, actions: seq<Action>)
    ensures forall j | 0 <= j < |History(rows, actions).delivered| ::
              ClaimedAfterConnecting(rows, actions, History(rows, actions).delivered[j])
  {
    assert actions[..|actions|] == actions;
    forall j | 0 <= j < |History(rows, actions).delivered|
      ensures ClaimedAfterConnecting(rows, actions, History(rows, actions).delivered[j])
    {
      var e, k := DeliveryWasTaken(rows, actions, |actions|, j);
      var c, p := TakenEntryCameAfterConnection(rows, actions, History(rows, actions).delivered[j].client, e, k);
    }
  }
}
