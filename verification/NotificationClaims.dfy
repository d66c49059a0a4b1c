/**
 The queue from which connected clients claim attention notifications, each at most once
 (crates/sylvops-daemon/src/daemon.rs:98-227 and 4670-4715).

 Times are milliseconds on the daemon's monotonic clock.
 */
module NotificationClaims {
  import opened Wrappers
  import opened SessionState

  const CAPACITY: nat := 256
  const INPUT_DELAY: nat := 1000
  const U64_LIMIT: nat := 0xFFFF_FFFF_FFFF_FFFF

  type ClientId = nat
  type SessionId = nat

  datatype Entry = Entry(sequence: nat, session: SessionId, event: AttentionEvent, readyAt: int, announced: bool)

  datatype Claims = Claims(
    sequence: nat,
    watermarks: map<ClientId, nat>,
    foreground: map<ClientId, SessionId>,
    pending: seq<Entry>)

  const EMPTY := Claims(0, map[], map[], [])

  function Retain(s: seq<Entry>, keep: Entry -> bool): (r: seq<Entry>)
    ensures |r| <= |s|
    ensures forall e :: e in r <==> e in s && keep(e)
  {
    if s == [] then [] else (if keep(s[0]) then [s[0]] else []) + Retain(s[1..], keep)
  }

  // ----- operations -----------------------------------------------------------------------------

  predicate Claimable(watermarks: map<ClientId, nat>, e: Entry) {
    exists client | client in watermarks :: watermarks[client] < e.sequence
  }

  predicate InForeground(c: Claims, session: SessionId) {
    exists client | client in c.foreground :: c.foreground[client] == session
  }

  function Without(pending: seq<Entry>, session: SessionId): seq<Entry> {
    Retain(pending, (e: Entry) => e.session != session)
  }

  function Pruned(c: Claims): Claims {
    c.(pending := if c.watermarks == map[] then []
                  else Retain(c.pending, (e: Entry) => Claimable(c.watermarks, e)))
  }

  function Register(c: Claims, client: ClientId): Claims {
    Pruned(c.(watermarks := c.watermarks[client := c.sequence]))
  }

  function Unregister(c: Claims, client: ClientId): Claims {
    Pruned(c.(watermarks := c.watermarks - {client}, foreground := c.foreground - {client}))
  }

  function ReportFocus(c: Claims, client: ClientId, session: Option<SessionId>): Claims {
    if client !in c.watermarks then c
    else
      match session
      case Some(id) => c.(foreground := c.foreground[client := id], pending := Without(c.pending, id))
      case None => c.(foreground := c.foreground - {client})
  }

  function Cancel(c: Claims, session: SessionId): Claims {
    c.(pending := Without(c.pending, session))
  }

  function Delay(event: AttentionEvent): nat {
    if event.reason == InputRequested then INPUT_DELAY else 0
  }

  /** Whether recording would queue the event rather than drop or suppress it. */
  predicate Queues(c: Claims, session: SessionId, attention: Option<AttentionEvent>) {
    && attention.Some? && attention.value.acknowledgement == Pending
    && c.watermarks != map[] && !InForeground(c, session)
  }

  function NextSequence(sequence: nat): nat {
    if sequence >= U64_LIMIT then sequence else sequence + 1
  }

  /** The next queue, and whether a client showing the Session suppressed the notification. */
  function Record(c: Claims, session: SessionId, attention: Option<AttentionEvent>, now: int): (Claims, bool) {
    var cleared := Cancel(c, session);
    if !Queues(c, session, attention) then
      (cleared, attention.Some? && attention.value.acknowledgement == Pending && c.watermarks != map[])
    else
      (Enqueued(cleared, NewEntry(c.sequence, session, attention.value, now)), false)
  }

  function NewEntry(sequence: nat, session: SessionId, event: AttentionEvent, now: int): Entry {
    Entry(NextSequence(sequence), session, event, now + Delay(event), false)
  }

  /** A full queue drops its oldest entry to make room. */
  function Enqueued(c: Claims, entry: Entry): Claims {
    var room := if |c.pending| >= CAPACITY then c.pending[1..] else c.pending;
    c.(sequence := entry.sequence, pending := room + [entry])
  }

  predicate Due(e: Entry, now: int) {
    e.readyAt <= now
  }

  /** What a client with this watermark may be handed now. */
  predicate Eligible(e: Entry, watermark: nat, now: int) {
    e.sequence > watermark && Due(e, now)
  }

  function FirstEligible(pending: seq<Entry>, watermark: nat, now: int): (i: nat)
    ensures i <= |pending|
    ensures forall j | 0 <= j < i :: !Eligible(pending[j], watermark, now)
    ensures i < |pending| ==> Eligible(pending[i], watermark, now)
  {
    if pending == [] || Eligible(pending[0], watermark, now) then 0
    else 1 + FirstEligible(pending[1..], watermark, now)
  }

  function Claim(c: Claims, client: ClientId, now: int): (Claims, Option<Entry>) {
    if client !in c.watermarks then (c, None)
    else
      var i := FirstEligible(c.pending, c.watermarks[client], now);
      if i == |c.pending| then (c, None)
      else (c.(pending := c.pending[..i] + c.pending[i + 1..]), Some(c.pending[i]))
  }

  function Announce(e: Entry, now: int): Entry {
    e.(announced := e.announced || Due(e, now))
  }

  function Announced(pending: seq<Entry>, now: int): (r: seq<Entry>)
    ensures |r| == |pending|
    ensures forall i | 0 <= i < |r| :: r[i] == Announce(pending[i], now)
  {
    if pending == [] then [] else [Announce(pending[0], now)] + Announced(pending[1..], now)
  }

  function AnnounceDue(c: Claims, now: int): (Claims, bool) {
    (c.(pending := Announced(c.pending, now)), exists e | e in c.pending :: !e.announced && Due(e, now))
  }

  // ----- the queue invariant --------------------------------------------------------------------

  /** Oldest first, with strictly increasing sequence numbers and at most one entry per Session. */
  ghost predicate Ordered(pending: seq<Entry>) {
    forall i, j | 0 <= i < j < |pending| ::
      pending[i].sequence < pending[j].sequence && pending[i].session != pending[j].session
  }

  /** An entry that some client may claim and nobody has in the foreground. */
  ghost predicate Waits(c: Claims, e: Entry) {
    && e.sequence <= c.sequence
    && Claimable(c.watermarks, e)
    && !InForeground(c, e.session)
    && e.event.acknowledgement == Pending
  }

  ghost predicate ClaimsInv(c: Claims) {
    && Ordered(c.pending)
    && |c.pending| <= 256
    && (forall client | client in c.watermarks :: c.watermarks[client] <= c.sequence)
    && c.foreground.Keys <= c.watermarks.Keys
    && (forall e | e in c.pending :: Waits(c, e))
  }

  lemma {:induction false} RetainKeepsOrder(s: seq<Entry>, keep: Entry -> bool)
    requires Ordered(s)
    ensures Ordered(Retain(s, keep))
  {
    if s != [] {
      RetainKeepsOrder(s[1..], keep);
      var rest := Retain(s[1..], keep);
      forall j | 0 <= j < |rest|
        ensures s[0].sequence < rest[j].sequence && s[0].session != rest[j].session
      {
        assert rest[j] in s[1..];
      }
    }
  }

  lemma PrunedKeepsInv(c: Claims)
    requires Ordered(c.pending) && |c.pending| <= CAPACITY
    requires forall client | client in c.watermarks :: c.watermarks[client] <= c.sequence
    requires c.foreground.Keys <= c.watermarks.Keys
    requires forall e | e in c.pending ::
               e.sequence <= c.sequence && !InForeground(c, e.session) && e.event.acknowledgement == Pending
    ensures ClaimsInv(Pruned(c))
  {
    RetainKeepsOrder(c.pending, (e: Entry) => Claimable(c.watermarks, e));
  }

  lemma {:induction false} RegisterKeepsInv(c: Claims, client: ClientId)
    requires ClaimsInv(c)
    ensures ClaimsInv(Register(c, client))
  {
    PrunedKeepsInv(c.(watermarks := c.watermarks[client := c.sequence]));
  }

  lemma {:induction false} UnregisterKeepsInv(c: Claims, client: ClientId)
    requires ClaimsInv(c)
    ensures ClaimsInv(Unregister(c, client))
  {
    var left := c.(watermarks := c.watermarks - {client}, foreground := c.foreground - {client});
    forall e | e in c.pending
      ensures !InForeground(left, e.session)
    {
      assert forall other | other in left.foreground :: left.foreground[other] == c.foreground[other];
    }
    PrunedKeepsInv(left);
  }

  lemma {:induction false} ReportFocusKeepsInv(c: Claims, client: ClientId, session: Option<SessionId>)
    requires ClaimsInv(c)
    ensures ClaimsInv(ReportFocus(c, client, session))
    ensures client in c.watermarks && session.Some? ==>
              InForeground(ReportFocus(c, client, session), session.value)
              && forall e | e in ReportFocus(c, client, session).pending :: e.session != session.value
  {
    var next := ReportFocus(c, client, session);
    if client in c.watermarks {
      if session.Some? {
        RetainKeepsOrder(c.pending, (e: Entry) => e.session != session.value);
        assert next.foreground[client] == session.value;
      }
      forall e | e in next.pending
        ensures !InForeground(next, e.session)
      {
        assert e in c.pending && !InForeground(c, e.session);
        forall other | other in next.foreground
          ensures next.foreground[other] != e.session
        {
          assert other != client ==> next.foreground[other] == c.foreground[other];
        }
      }
    }
  }

  lemma CancelKeepsInv(c: Claims, session: SessionId)
    requires ClaimsInv(c)
    ensures ClaimsInv(Cancel(c, session))
  {
    RetainKeepsOrder(c.pending, (e: Entry) => e.session != session);
  }

  lemma QueuedEntryKeepsOrder(cleared: seq<Entry>, entry: Entry)
    requires Ordered(cleared) && |cleared| <= CAPACITY
    requires forall e | e in cleared :: e.sequence < entry.sequence && e.session != entry.session
    ensures var room := if |cleared| >= CAPACITY then cleared[1..] else cleared;
            Ordered(room + [entry]) && |room + [entry]| <= CAPACITY && forall e | e in room + [entry] ::
                e in cleared || e == entry
  {
  }

  lemma CancelClears(c: Claims, session: SessionId)
    requires ClaimsInv(c)
    ensures ClaimsInv(Cancel(c, session))
    ensures forall e | e in Cancel(c, session).pending :: e.session != session
  {
    CancelKeepsInv(c, session);
  }

  lemma EnqueuedKeepsInv(c: Claims, entry: Entry)
    requires ClaimsInv(c) && entry.sequence == c.sequence + 1 && entry.event.acknowledgement == Pending
    requires c.watermarks != map[] && !InForeground(c, entry.session)
    requires forall e | e in c.pending :: e.session != entry.session
    ensures ClaimsInv(Enqueued(c, entry))
  {
    var next := Enqueued(c, entry);
    QueuedEntryKeepsOrder(c.pending, entry);
    var client :| client in c.watermarks;
    assert c.watermarks[client] < entry.sequence;
    assert Waits(next, entry);
    forall e | e in next.pending
      ensures Waits(next, e)
    {
      assert e == entry || Waits(c, e);
    }
  }

  lemma {:induction false} RecordKeepsInv(c: Claims, session: SessionId, attention: Option<AttentionEvent>, now: int)
    requires ClaimsInv(c) && c.sequence < U64_LIMIT
    ensures ClaimsInv(Record(c, session, attention, now).0)
  {
    CancelClears(c, session);
    if Queues(c, session, attention) {
      EnqueuedKeepsInv(Cancel(c, session), NewEntry(c.sequence, session, attention.value, now));
    }
  }

  lemma RemovalTakesOne(pending: seq<Entry>, i: nat)
    requires Ordered(pending) && i < |pending|
    ensures var left := pending[..i] + pending[i + 1..];
            Ordered(left) && forall e :: e in left <==> e in pending && e != pending[i]
  {
    var left := pending[..i] + pending[i + 1..];
    assert forall j | 0 <= j < |left| :: left[j] == pending[if j < i then j else j + 1];
    forall e | e in pending && e != pending[i]
      ensures e in left
    {
      var j :| 0 <= j < |pending| && pending[j] == e;
      assert left[if j < i then j else j - 1] == e;
    }
  }

  lemma {:induction false} ClaimKeepsInv(c: Claims, client: ClientId, now: int)
    requires ClaimsInv(c)
    ensures ClaimsInv(Claim(c, client, now).0)
  {
    if client in c.watermarks {
      var i := FirstEligible(c.pending, c.watermarks[client], now);
      if i < |c.pending| {
        RemovalTakesOne(c.pending, i);
      }
    }
  }

  /**
   A claim hands out the oldest due entry newer than the client's watermark, takes exactly that
   entry out of the queue, and comes back empty only when there is none.
   */
  lemma {:induction false} ClaimTakesOldestEligible(c: Claims, client: ClientId, now: int)
    requires ClaimsInv(c)
    ensures var (next, got) := Claim(c, client, now);
            && (got.Some? <==> client in c.watermarks && exists e | e in c.pending ::
                Eligible(e, c.watermarks[client], now))
            && (got.Some? ==>
                  && got.value in c.pending && got.value !in next.pending
                  && Eligible(got.value, c.watermarks[client], now)
                  && (forall e | e in c.pending && Eligible(e, c.watermarks[client], now) ::
                      got.value.sequence <= e.sequence)
                  && (forall e :: e in next.pending <==> e in c.pending && e != got.value)
                  && |next.pending| == |c.pending| - 1)
            && (got.None? ==> next == c)
  {
    if client in c.watermarks {
      var i := FirstEligible(c.pending, c.watermarks[client], now);
      if i < |c.pending| {
        RemovalTakesOne(c.pending, i);
      }
    }
  }

  lemma {:induction false} AnnounceKeepsInv(c: Claims, now: int)
    requires ClaimsInv(c)
    ensures ClaimsInv(AnnounceDue(c, now).0)
    ensures !AnnounceDue(AnnounceDue(c, now).0, now).1
  {
    var next := AnnounceDue(c, now).0;
    forall e | e in next.pending
      ensures Waits(next, e) && (Due(e, now) ==> e.announced)
    {
      var i :| 0 <= i < |next.pending| && next.pending[i] == e;
      assert c.pending[i] in c.pending;
      AnnouncedEntryWaits(c, c.pending[i], now);
    }
  }

  lemma AnnouncedEntryWaits(c: Claims, e: Entry, now: int)
    requires Waits(c, e)
    ensures Waits(AnnounceDue(c, now).0, Announce(e, now))
  {
    var next := AnnounceDue(c, now).0;
    assert next.watermarks == c.watermarks && next.foreground == c.foreground;
    var client :| client in c.watermarks && c.watermarks[client] < e.sequence;
    assert client in next.watermarks && next.watermarks[client] < Announce(e, now).sequence;
  }

  /**
   The sequence counter saturates. A recorded event is new to every registered client exactly when
   no client registered at the last sequence number; below it that is always so.
   */
  lemma {:induction false} RecordedEventIsNewExactlyBelowLimit(c: Claims, session: SessionId,
      attention: Option<AttentionEvent>, now: int)
    requires ClaimsInv(c) && c.sequence <= U64_LIMIT && Queues(c, session, attention)
    ensures var next := Record(c, session, attention, now).0;
            var entry := next.pending[|next.pending| - 1];
            && entry.session == session && entry.event == attention.value
            && ((forall client | client in c.watermarks ::
                Eligible(entry, c.watermarks[client], now + Delay(attention.value)))
                <==> (forall client | client in c.watermarks :: c.watermarks[client] < U64_LIMIT))
  {
  }

  /** At the saturated counter an event can be queued that its only client can never claim. */
  lemma {:induction false} SaturatedCounterHidesEvents(event: AttentionEvent, later: int)
    requires event.acknowledgement == Pending
    ensures var c := Register(EMPTY.(sequence := U64_LIMIT), 0);
            var recorded := Record(c, 1, Some(event), 0).0;
            && ClaimsInv(c) && |recorded.pending| == 1 && Claim(recorded, 0, later).1.None?
  {
    var c := Register(EMPTY.(sequence := U64_LIMIT), 0);
    assert c.watermarks == map[0 := U64_LIMIT] && 0 in c.watermarks;
    assert c.pending == [];
    assert !InForeground(c, 1);
  }

  // ----- what each operation does, entry by entry and client by client ----------------------------

  function ShownBy(c: Claims, client: ClientId): Option<SessionId> {
    if client in c.foreground then Some(c.foreground[client]) else None
  }

  function MarkOf(c: Claims, client: ClientId): Option<nat> {
    if client in c.watermarks then Some(c.watermarks[client]) else None
  }

  /** Some connected client may still claim an entry with this number. */
  ghost predicate SomeoneMayClaim(c: Claims, sequence: nat) {
    exists client :: MarkOf(c, client).Some? && MarkOf(c, client).value < sequence
  }

  /**
   A focus report changes what exactly its own client shows, if that client is connected: a Session, whose entry it
   takes out of the queue, or nothing, which ends the suppression by this client. Nobody else is touched.
   */
  lemma {:induction false} FocusTouchesOnlyItsClient(c: Claims, client: ClientId, focus: Option<SessionId>)
    ensures var next := ReportFocus(c, client, focus);
            && (forall other :: ShownBy(next, other)
                                == if other == client && MarkOf(c, client).Some? then focus else ShownBy(c, other))
            && (forall other :: MarkOf(next, other) == MarkOf(c, other)) && next.sequence == c.sequence
            && (forall e :: e in next.pending
                            <==> e in c.pending && !(MarkOf(c, client).Some? && focus == Some(e.session)))
            && (forall s: SessionId :: InForeground(next, s) <==> exists other :: ShownBy(next, other) == Some(s))
  {
    var next := ReportFocus(c, client, focus);
    forall s: SessionId
      ensures InForeground(next, s) <==> exists other :: ShownBy(next, other) == Some(s)
    {
      ForegroundIsShown(next, s);
    }
  }

  lemma ForegroundIsShown(c: Claims, s: SessionId)
    ensures InForeground(c, s) <==> exists client :: ShownBy(c, client) == Some(s)
  {
    if client :| client in c.foreground && c.foreground[client] == s {
      assert ShownBy(c, client) == Some(s);
    }
    if client :| ShownBy(c, client) == Some(s) {
      assert client in c.foreground && c.foreground[client] == s;
    }
  }

  lemma ClaimableIsMarked(c: Claims, e: Entry)
    ensures Claimable(c.watermarks, e) <==> SomeoneMayClaim(c, e.sequence)
  {
    if client :| client in c.watermarks && c.watermarks[client] < e.sequence {
      assert MarkOf(c, client).Some? && MarkOf(c, client).value < e.sequence;
    }
    if client :| MarkOf(c, client).Some? && MarkOf(c, client).value < e.sequence {
      assert client in c.watermarks && c.watermarks[client] < e.sequence;
    }
  }

  lemma PrunedKeepsExactlyClaimable(c: Claims, e: Entry)
    ensures e in Pruned(c).pending <==> e in c.pending && SomeoneMayClaim(c, e.sequence)
  {
    ClaimableIsMarked(c, e);
  }

  /** A connection sets its own client's mark to the counter and drops exactly what nobody may claim any more. */
  lemma {:induction false} ConnectingTouchesOnlyItsClient(c: Claims, client: ClientId)
    ensures var next := Register(c, client);
            && (forall other :: MarkOf(next, other) == if other == client then Some(c.sequence) else MarkOf(c, other))
            && (forall other :: ShownBy(next, other) == ShownBy(c, other)) && next.sequence == c.sequence
            && (forall e :: e in next.pending <==> e in c.pending && SomeoneMayClaim(next, e.sequence))
  {
    var marked := c.(watermarks := c.watermarks[client := c.sequence]);
    forall e
      ensures e in Register(c, client).pending <==> e in c.pending && SomeoneMayClaim(Register(c, client), e.sequence)
    {
      PrunedKeepsExactlyClaimable(marked, e);
      ClaimableIsMarked(marked, e);
      ClaimableIsMarked(Register(c, client), e);
    }
  }

  /** A disconnection forgets mark and focus of its own client, and drops exactly what nobody may claim any more. */
  lemma {:induction false} DisconnectingTouchesOnlyItsClient(c: Claims, client: ClientId)
    ensures var next := Unregister(c, client);
            && (forall other :: MarkOf(next, other) == if other == client then None else MarkOf(c, other))
            && (forall other :: ShownBy(next, other) == if other == client then None else ShownBy(c, other))
            && next.sequence == c.sequence
            && (forall e :: e in next.pending <==> e in c.pending && SomeoneMayClaim(next, e.sequence))
  {
    var left := c.(watermarks := c.watermarks - {client}, foreground := c.foreground - {client});
    forall e
      ensures e in Unregister(c, client).pending
              <==> e in c.pending && SomeoneMayClaim(Unregister(c, client), e.sequence)
    {
      PrunedKeepsExactlyClaimable(left, e);
      ClaimableIsMarked(left, e);
      ClaimableIsMarked(Unregister(c, client), e);
    }
  }

  /**
   Recording changes no client's mark or focus. It reports a suppression exactly for a pending event that no client
   will hear of because one shows the Session.
   */
  lemma {:induction false} RecordingReportsSuppression(
    c: Claims, s: SessionId, attention: Option<AttentionEvent>, now: int)
    requires c.foreground.Keys <= c.watermarks.Keys
    ensures var (next, suppressed) := Record(c, s, attention, now);
            && next.watermarks == c.watermarks && next.foreground == c.foreground
            && (suppressed <==> && attention.Some? && attention.value.acknowledgement == Pending
                                && exists client :: ShownBy(c, client) == Some(s))
  {
    ForegroundIsShown(c, s);
  }

  /** An input request waits one second, so that a client may still take the Session to the foreground. */
  lemma {:induction false} OnlyInputWaits(s: SessionId, event: AttentionEvent, sequence: nat, now: int)
    ensures var e := NewEntry(sequence, s, event, now);
            && e.session == s && e.event == event && !e.announced
            && e.readyAt == now + if event.reason == InputRequested then 1000 else 0
  {
  }

  /**
   An announcement answers yes if and only if some entry has come due unannounced, and marks exactly the entries
   that are due: every other entry, and everything else about the queue, stays as it was.
   */
  lemma {:induction false} AnnouncementReportsExactlyWhatIsDue(c: Claims, now: int)
    ensures var (next, available) := AnnounceDue(c, now);
            && (available <==> exists i | 0 <= i < |c.pending| ::
                c.pending[i].readyAt <= now && !c.pending[i].announced)
            && next == c.(pending := next.pending) && |next.pending| == |c.pending|
            && forall i | 0 <= i < |c.pending| ::
                 && next.pending[i] == c.pending[i].(announced := next.pending[i].announced)
                 && (next.pending[i].announced <==> c.pending[i].announced || c.pending[i].readyAt <= now)
  {
    if e :| e in c.pending && !e.announced && Due(e, now) {
      var i :| 0 <= i < |c.pending| && c.pending[i] == e;
      assert c.pending[i].readyAt <= now && !c.pending[i].announced;
    }
    if i :| 0 <= i < |c.pending| && c.pending[i].readyAt <= now && !c.pending[i].announced {
      assert c.pending[i] in c.pending;
    }
  }

  // ----- the shared object ----------------------------------------------------------------------

  class AttentionNotificationClaims {
    var sequence: nat
    var clientWatermarks: map<ClientId, nat>
    var foregroundSessions: map<ClientId, SessionId>
    var pending: seq<Entry>

    ghost function Model(): Claims
      reads this
    {
      Claims(sequence, clientWatermarks, foregroundSessions, pending)
    }

    constructor ()
      ensures Model() == EMPTY
    {
      sequence, clientWatermarks, foregroundSessions, pending := 0, map[], map[], [];
    }

    method RegisterClient(client: ClientId)
      modifies this
      ensures Model() == Register(old(Model()), client)
    {
      clientWatermarks := clientWatermarks[client := sequence];
      PruneUnclaimable();
    }

    method UnregisterClient(client: ClientId)
      modifies this
      ensures Model() == Unregister(old(Model()), client)
    {
      clientWatermarks := clientWatermarks - {client};
      foregroundSessions := foregroundSessions - {client};
      PruneUnclaimable();
    }

    method PruneUnclaimable()
      modifies this`pending
      ensures Model() == Pruned(old(Model()))
    {
      if clientWatermarks == map[] {
        pending := [];
        return;
      }
      var watermarks := clientWatermarks;
      pending := Retain(pending, (e: Entry) => Claimable(watermarks, e));
    }

    method Focus(client: ClientId, session: Option<SessionId>)
      modifies this
      ensures Model() == ReportFocus(old(Model()), client, session)
    {
      if client !in clientWatermarks {
        return;
      }
      match session {
        case Some(id) =>
          foregroundSessions := foregroundSessions[client := id];
          CancelSession(id);
        case None =>
          foregroundSessions := foregroundSessions - {client};
      }
    }

    method CancelSession(session: SessionId)
      modifies this`pending
      ensures Model() == Cancel(old(Model()), session)
    {
      pending := Retain(pending, (e: Entry) => e.session != session);
    }

    method RecordAt(session: SessionId, attention: Option<AttentionEvent>, now: int) returns (suppressed: bool)
      modifies this
      ensures (Model(), suppressed) == Record(old(Model()), session, attention, now)
    {
      CancelSession(session);
      if attention.None? {
        return false;
      }
      if attention.value.acknowledgement != Pending || clientWatermarks == map[] {
        return false;
      }
      if exists client | client in foregroundSessions :: foregroundSessions[client] == session {
        return true;
      }
      sequence := NextSequence(sequence);
      if |pending| >= CAPACITY {
        pending := pending[1..];
      }
      pending := pending + [Entry(sequence, session, attention.value, now + Delay(attention.value), false)];
      return false;
    }

    method ClaimAt(client: ClientId, now: int) returns (got: Option<Entry>)
      modifies this`pending
      ensures (Model(), got) == Claim(old(Model()), client, now)
    {
      if client !in clientWatermarks {
        return None;
      }
      var watermark := clientWatermarks[client];
      var i := 0;
      while i < |pending| && !Eligible(pending[i], watermark, now)
        invariant 0 <= i <= |pending|
        invariant pending == old(pending)
        invariant FirstEligible(pending, watermark, now) == i + FirstEligible(pending[i..], watermark, now)
      {
        assert pending[i..][1..] == pending[i + 1..];
        i := i + 1;
      }
      if i == |pending| {
        return None;
      }
      got := Some(pending[i]);
      pending := pending[..i] + pending[i + 1..];
    }

    method AnnounceDueEntries(now: int) returns (available: bool)
      modifies this`pending
      ensures (Model(), available) == AnnounceDue(old(Model()), now)
    {
      ghost var was := pending;
      available := false;
      var i := 0;
      while i < |pending|
        invariant 0 <= i <= |pending| == |was|
        invariant forall j | 0 <= j < i :: pending[j] == Announce(was[j], now)
        invariant forall j | i <= j < |pending| :: pending[j] == was[j]
        invariant available <==> exists j | 0 <= j < i :: !was[j].announced && Due(was[j], now)
      {
        if !pending[i].announced && Due(pending[i], now) {
          pending := pending[i := pending[i].(announced := true)];
          available := true;
        }
        i := i + 1;
      }
      assert pending == Announced(was, now);
    }

    /**
     One client's whole claim request while nothing else touches the queue, the rows or the focus.
     The loop gives up after 256 attempts; because the queue never holds more entries than that, it
     still finds the oldest deliverable notification whenever there is one.
     */
    method ClaimDeliverable(client: ClientId, rows: map<SessionId, SessionStatus>, now: int)
        returns (got: Option<Entry>)
      requires ClaimsInv(Model())
      modifies this`pending
      ensures ClaimsInv(Model())
      ensures got.None? ==> forall e | e in old(pending) :: !Deliverable(old(Model()), client, rows, now, e)
      ensures got.Some? ==>
                && got.value in old(pending) && got.value !in pending
                && Deliverable(old(Model()), client, rows, now, got.value)
                && forall e | e in old(pending) && Deliverable(old(Model()), client, rows, now, e) ::
                    got.value.sequence <= e.sequence
      ensures forall e | e in old(pending) && e !in pending && Some(e) != got ::
          !Deliverable(old(Model()), client, rows, now, e)
      ensures forall e | e in pending :: e in old(pending)
    {
      for attempt := 0 to CAPACITY
        invariant ClaimsInv(Model())
        invariant Model() == old(Model()).(pending := pending)
        invariant |pending| <= |old(pending)| - attempt
        invariant forall e | e in pending :: e in old(pending)
        invariant forall e | e in old(pending) && Deliverable(old(Model()), client, rows, now, e) :: e in pending
      {
        ClaimTakesOldestEligible(Model(), client, now);
        ClaimKeepsInv(Model(), client, now);
        var candidate := ClaimAt(client, now);
        if candidate.None? {
          return None;
        }
        var entry := candidate.value;
        if entry.session !in rows || !Shows(rows[entry.session], entry.event) {
          continue;
        }
        if exists other | other in foregroundSessions :: foregroundSessions[other] == entry.session {
          continue;
        }
        return Some(entry);
      }
      return None;
    }
  }

  /** The row still shows this very event, unreviewed. */
  predicate Shows(row: SessionStatus, event: AttentionEvent) {
    && row.attention.Some?
    && row.attention.value.id == event.id
    && row.attention.value.reason == event.reason
    && row.attention.value.acknowledgement == Pending
  }

  predicate Deliverable(c: Claims, client: ClientId, rows: map<SessionId, SessionStatus>, now: int, e: Entry) {
    && client in c.watermarks && Eligible(e, c.watermarks[client], now)
    && e.session in rows && Shows(rows[e.session], e.event)
    && !InForeground(c, e.session)
  }
}
