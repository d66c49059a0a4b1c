/**
 When an asynchronous question closes, in terms of the messages of a run
 (crates/sylvops-daemon/src/codex_bridge.rs:338-571).
 */
module CodexQuestions {
  import opened Wrappers
  import opened CodexBridge

  /** The terminal's answer to the open question, accepted. */
  predicate Answers(b: Bridge, input: Input) {
    && b.alive && input.Terminal? && input.client.verb == TurnStart && b.tracker.question.Some?
    && ClientStep(b.tracker, input.client).Some?
  }

  /** An accepted turn, which takes the stored answer and closes the question. */
  predicate Takes(b: Bridge, input: Input) {
    && b.alive && input.Backend? && input.server.verb == TurnStartedNote && b.tracker.question.Some?
    && BridgeStep(b, input).tracker.question.None?
  }

  /** The question's own turn ends in failure, which closes the question but not the answer. */
  predicate Fails(b: Bridge, input: Input) {
    && b.alive && input.Backend? && input.server.verb == TurnCompleted && input.server.turnStatus == TurnBroken
    && b.tracker.question.Some? && BridgeStep(b, input).tracker.question.None?
  }

  predicate Opens(b: Bridge, input: Input) {
    b.tracker.question.None? && BridgeStep(b, input).tracker.question.Some?
  }

  /** What one message did about questions, and how things stand with them before and after. */
  datatype Happening = Happening(answers: bool, takes: bool, fails: bool, opens: bool)

  datatype Standing = Standing(questionOpen: bool, stored: bool, answered: bool, stale: bool)

  function HappeningOf(b: Bridge, input: Input): Happening {
    Happening(Answers(b, input), Takes(b, input), Fails(b, input), Opens(b, input))
  }

  function StandingOf(b: Bridge): Standing {
    Standing(b.tracker.question.Some?, b.tracker.answerRequest.Some?, b.answered, b.stale)
  }

  predicate QuestionEdge(s: Standing, h: Happening, next: Standing) {
    && (next.stored <==> h.answers || (s.stored && !h.takes))
    && (h.answers ==> s.questionOpen && next.questionOpen)
    && (s.questionOpen && !next.questionOpen ==> h.takes || h.fails)
    && (h.opens <==> !s.questionOpen && next.questionOpen)
    && (h.opens ==> !next.answered && next.stale == s.stored)
    && (!h.opens ==> next.stale == s.stale && (s.questionOpen ==> (next.answered <==> s.answered || h.answers)))
  }

  lemma TerminalFollowsQuestionEdge(b: Bridge, m: ClientMessage)
    requires BridgeInv(b)
    ensures QuestionEdge(StandingOf(b), HappeningOf(b, Terminal(m)), StandingOf(BridgeStep(b, Terminal(m))))
  {
    if ClientStep(b.tracker, m).Some? {
      ClientStepTouches(b.tracker, m);
    }
  }

  /** What an accepted backend message does to the question and the stored answer. */
  ghost predicate TouchesQuestion(t: Tracker, m: ServerMessage, v: Verdict) {
    v.Accepted? ==>
      var takes := t.question.Some? && m.verb == TurnStartedNote && v.next.question.None?;
      && v.next.answerRequest == (if takes then None else t.answerRequest)
      && (takes ==> t.answerRequest.Some?)
      && (t.question.Some? && v.next.question.None? ==>
            takes || (m.verb == TurnCompleted && m.turnStatus == TurnBroken))
  }

  lemma DispatchTouchesQuestion(t: Tracker, m: ServerMessage)
    requires t.conversation.Some? || !Waiting(t)
    ensures TouchesQuestion(t, m, Dispatch(t, m))
  {
  }

  lemma ServerStepTouchesQuestion(t: Tracker, m: ServerMessage)
    requires TrackerInv(t)
    ensures TouchesQuestion(t, m, ServerStep(t, m))
  {
    DispatchTouchesQuestion(t, m);
    DispatchTouchesQuestion(t.(threadRequests := t.threadRequests - {m.id}), m);
  }

  lemma BackendFollowsQuestionEdge(b: Bridge, m: ServerMessage)
    requires BridgeInv(b)
    ensures QuestionEdge(StandingOf(b), HappeningOf(b, Backend(m)), StandingOf(BridgeStep(b, Backend(m))))
  {
    ServerStepTouchesQuestion(b.tracker, m);
  }

  lemma FollowsQuestionEdge(b: Bridge, input: Input)
    requires BridgeInv(b)
    ensures QuestionEdge(StandingOf(b), HappeningOf(b, input), StandingOf(BridgeStep(b, input)))
  {
    match input
    case Terminal(m) => TerminalFollowsQuestionEdge(b, m);
    case Backend(m) => BackendFollowsQuestionEdge(b, m);
  }

  /** What each message of a run did, and how things stood before each and at the end. */
  function Happenings(inputs: seq<Input>): (hs: seq<Happening>)
    ensures |hs| == |inputs|
  {
    seq(|inputs|, k requires 0 <= k < |inputs| => HappeningOf(BridgeRun(inputs[..k]), inputs[k]))
  }

  function Standings(inputs: seq<Input>): (ss: seq<Standing>)
    ensures |ss| == |inputs| + 1
  {
    seq(|inputs| + 1, k requires 0 <= k <= |inputs| => StandingOf(BridgeRun(inputs[..k])))
  }

  ghost predicate Follow(ss: seq<Standing>, hs: seq<Happening>) {
    && |ss| == |hs| + 1
    && !ss[0].questionOpen && !ss[0].stored
    && forall k | 0 <= k < |hs| :: QuestionEdge(ss[k], hs[k], ss[k + 1])
  }

  lemma StartStands(inputs: seq<Input>)
    ensures Standings(inputs)[0] == StandingOf(STARTED)
    ensures Standings(inputs)[|inputs|] == StandingOf(BridgeRun(inputs))
  {
    assert inputs[..0] == [] && inputs[..|inputs|] == inputs;
  }

  lemma EdgeOfRun(inputs: seq<Input>, k: nat)
    requires k < |inputs|
    ensures QuestionEdge(Standings(inputs)[k], Happenings(inputs)[k], Standings(inputs)[k + 1])
  {
    MessageFollows(inputs, k);
  }

  lemma RunFollows(inputs: seq<Input>)
    ensures Follow(Standings(inputs), Happenings(inputs))
    ensures Standings(inputs)[|inputs|] == StandingOf(BridgeRun(inputs))
  {
    StartStands(inputs);
    forall k | 0 <= k < |inputs|
      ensures QuestionEdge(Standings(inputs)[k], Happenings(inputs)[k], Standings(inputs)[k + 1])
    {
      EdgeOfRun(inputs, k);
    }
  }

  lemma MessageFollows(inputs: seq<Input>, k: nat)
    requires k < |inputs|
    ensures var b := BridgeRun(inputs[..k]);
            QuestionEdge(StandingOf(b), HappeningOf(b, inputs[k]), StandingOf(BridgeRun(inputs[..k + 1])))
  {
    var before := inputs[..k];
    assert inputs[..k + 1] == before + [inputs[k]];
    RunOfLonger(before, inputs[k]);
    EveryRunKeepsInv(before);
    FollowsQuestionEdge(BridgeRun(before), inputs[k]);
  }

  /** The k-th message answered a question and no turn took the answer before the n-th message. */
  ghost predicate Untaken(hs: seq<Happening>, k: nat, n: nat) {
    k < n <= |hs| && hs[k].answers && forall j | k < j < n :: !hs[j].takes
  }

  /** An answer is stored exactly while one is untaken. */
  lemma {:induction false} StoredIsUntaken(ss: seq<Standing>, hs: seq<Happening>, n: nat)
    requires Follow(ss, hs) && n <= |hs|
    ensures ss[n].stored <==> exists k :: Untaken(hs, k, n)
  {
    if n > 0 {
      var last := n - 1;
      StoredIsUntaken(ss, hs, last);
      assert QuestionEdge(ss[last], hs[last], ss[n]);
      if hs[last].answers {
        assert Untaken(hs, last, n);
      } else if k: nat :| Untaken(hs, k, last) && !hs[last].takes {
        assert Untaken(hs, k, n);
      } else if k: nat :| Untaken(hs, k, n) {
        assert k < last && Untaken(hs, k, last);
      }
    }
  }

  /** An answer that outlives its question does so because the question's turn failed. */
  lemma {:induction false} UntakenAnswerSawFailure(ss: seq<Standing>, hs: seq<Happening>, k: nat, n: nat)
      returns (f: nat)
    requires Follow(ss, hs) && Untaken(hs, k, n) && !ss[n].questionOpen
    ensures k < f < n && hs[f].fails
  {
    assert QuestionEdge(ss[n - 1], hs[n - 1], ss[n]);
    if ss[n - 1].questionOpen {
      f := n - 1;
    } else {
      f := UntakenAnswerSawFailure(ss, hs, k, n - 1);
    }
  }

  /** The q-th message opened the question that is open before the n-th. */
  ghost predicate OpenSince(ss: seq<Standing>, hs: seq<Happening>, q: nat, n: nat) {
    && q < n <= |hs| < |ss| && hs[q].opens
    && forall j | q < j <= n :: ss[j].questionOpen
  }

  ghost predicate AnsweredSince(hs: seq<Happening>, q: nat, k: nat, n: nat) {
    q < k < n <= |hs| && hs[k].answers
  }

  lemma {:induction false} OpenQuestionHasOpening(ss: seq<Standing>, hs: seq<Happening>, n: nat) returns (q: nat)
    requires Follow(ss, hs) && n <= |hs| && ss[n].questionOpen
    ensures OpenSince(ss, hs, q, n) && ss[n].stale == ss[q].stored && !ss[q].questionOpen
    ensures ss[n].answered <==> exists k :: AnsweredSince(hs, q, k, n)
  {
    var last := n - 1;
    assert QuestionEdge(ss[last], hs[last], ss[n]);
    if ss[last].questionOpen {
      q := OpenQuestionHasOpening(ss, hs, last);
      if k: nat :| AnsweredSince(hs, q, k, last) {
        assert AnsweredSince(hs, q, k, n);
      } else if hs[last].answers {
        assert AnsweredSince(hs, q, last, n);
      } else if k: nat :| AnsweredSince(hs, q, k, n) {
        assert AnsweredSince(hs, q, k, last);
      }
    } else {
      q := last;
    }
  }

  /** An earlier question was answered, its turn failed, and no turn took the answer before the q-th message. */
  ghost predicate LeftOver(hs: seq<Happening>, k: nat, f: nat, q: nat) {
    k < f < q && Untaken(hs, k, q) && hs[f].fails
  }

  /**
   With a question open and no request pending, a new turn is accepted exactly when some answer of the
   terminal, to this question or an earlier one, has not been taken by a turn.
   */
  lemma {:induction false} QuestionClosesExactlyOnUntakenAnswer(inputs: seq<Input>, m: ServerMessage)
    requires var b := BridgeRun(inputs);
             b.alive && b.tracker.question.Some? && b.tracker.pending == {} && StartsTurn(b.tracker, m)
             && !AnswersPause(b.tracker, m)
    ensures BackendStep(BridgeRun(inputs), m).alive <==> exists k :: Untaken(Happenings(inputs), k, |inputs|)
  {
    QuestionClosesExactlyOnAnswer(inputs, m);
    EveryRunKeepsInv(inputs);
    RunFollows(inputs);
    StoredIsUntaken(Standings(inputs), Happenings(inputs), |inputs|);
  }

  /**
   The two flags in terms of messages. The open question is answered when the terminal answered it since it
   opened; it opened stale when an answer to an earlier question was left over because that question's turn
   failed and no turn took the answer.
   */
  lemma {:induction false} QuestionOpensStaleExactlyAfterFailedTurn(inputs: seq<Input>) returns (q: nat)
    requires BridgeRun(inputs).tracker.question.Some?
    ensures OpenSince(Standings(inputs), Happenings(inputs), q, |inputs|)
    ensures BridgeRun(inputs).answered <==> exists k :: AnsweredSince(Happenings(inputs), q, k, |inputs|)
    ensures BridgeRun(inputs).stale <==> exists k, f :: LeftOver(Happenings(inputs), k, f, q)
  {
    var ss, hs := Standings(inputs), Happenings(inputs);
    RunFollows(inputs);
    q := OpenQuestionHasOpening(ss, hs, |inputs|);
    StoredIsUntaken(ss, hs, q);
    if k: nat :| Untaken(hs, k, q) {
      var f := UntakenAnswerSawFailure(ss, hs, k, q);
      assert LeftOver(hs, k, f, q);
    }
  }
}
