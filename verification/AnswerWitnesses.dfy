/** Runs that show the answer guarantees are as strong as they can be: one revision receives two inputs when its
    question was closed in between, by a sighting or by the accepted answer itself, and input can start under
    a receipt that is already uncertain. */
module AnswerWitnesses {
  import opened Options
  import opened Envelopes
  import opened CommandStore
  import opened Submission
  import opened SubmissionInvariant
  import opened SubmissionSafety
  import opened Retries
  import opened Acceptance

  // ----- Two inputs for one revision -----

  const POLICY := Policy(1, MIN_RETENTION, 1, 5, 5)
  const PROMPT := SawPrompt(4, 2, 3, map[6 := 9])

  function Answering(rid: RequestId): Request {
    Request(rid, AnswerPending, Explicit(7), 6)
  }

  const FAIR := Choice(NoFault, Some(7), Resolved(7, Ready(Route(7, 5, 2, 3, 9))), Waits, None, Some(5), StRejected, NoVerdict, true, true)

  /** One more request reaches the pane. */
  lemma {:induction false} AnotherInput(acts: seq<Act>, pid: nat, rid: RequestId) returns (more: seq<Act>)
    requires var t := Run(Initial(POLICY), acts);
             && pid !in t.procs && rid !in t.core.db.receipts && Answerable(t.core, Answering(rid), 7)
             && AnswerWeather(t.core, Answering(rid), 7, FAIR)
    ensures more == [Enter(pid, Answering(rid))] + Goes(pid, FAIR, 6)
    ensures var (t, u) := (Run(Initial(POLICY), acts), Run(Initial(POLICY), acts + more));
            && OneMoreInput(t.core, u.core, Answering(rid), 7) && u.procs.Keys == t.procs.Keys + {pid}
            && rid in u.core.db.receipts && u.core.db.receipts == t.core.db.receipts[rid := u.core.db.receipts[rid]]
  {
    hide Run;
    more := [Enter(pid, Answering(rid))] + Goes(pid, FAIR, 6);
    var t := Run(Initial(POLICY), acts);
    RunOk(POLICY, acts);
    assert CoreOk(t.core) by { SystemIsOk(t); }
    hide SystemOk;
    hide CoreOk;
    RunJoined(Initial(POLICY), acts, more);
    DriveIsRun(t, pid, Answering(rid), FAIR, 6);
    var d, lease, hold := InputIsReached(t.core, Answering(rid), 7, FAIR);
    BegunIsOneMore(t.core, d, Answering(rid), 7, lease, FAIR);
  }

  /** One more request is answered and accepted. */
  lemma {:induction false} AnotherAnswer(acts: seq<Act>, pid: nat, rid: RequestId) returns (more: seq<Act>)
    requires var t := Run(Initial(POLICY), acts);
             && pid !in t.procs && rid !in t.core.db.receipts && Answerable(t.core, Answering(rid), 7)
             && AnswerWeather(t.core, Answering(rid), 7, FAIR)
    ensures more == [Enter(pid, Answering(rid))] + Goes(pid, FAIR, 8)
    ensures var (t, u) := (Run(Initial(POLICY), acts), Run(Initial(POLICY), acts + more));
            && OneMoreInput(t.core, u.core, Answering(rid), 7) && u.procs.Keys == t.procs.Keys + {pid}
            && rid in u.core.db.receipts && u.core.db.receipts == t.core.db.receipts[rid := u.core.db.receipts[rid]]
            && AcceptedAlone(t.core, u.core, Answering(rid), u.procs[pid].pc) && QuestionClosed(u.core, 7)
  {
    hide Run;
    more := [Enter(pid, Answering(rid))] + Goes(pid, FAIR, 8);
    var t := Run(Initial(POLICY), acts);
    RunOk(POLICY, acts);
    assert CoreOk(t.core) by { SystemIsOk(t); }
    hide SystemOk;
    hide CoreOk;
    RunJoined(Initial(POLICY), acts, more);
    DriveIsRun(t, pid, Answering(rid), FAIR, 8);
    AnswerIsAccepted(t.core, Answering(rid), 7, FAIR);
  }

  /** Seeing the prompt makes an unclaimed question answerable, whatever went before. */
  lemma {:induction false} Seen(acts: seq<Act>, rid: RequestId)
    requires var t := Run(Initial(POLICY), acts); rid !in t.core.db.receipts && 7 !in t.core.db.claims
    ensures var (t, u) := (Run(Initial(POLICY), acts), Run(Initial(POLICY), acts + [Sight(7, PROMPT)]));
            && u.procs == t.procs && u.core.hist == t.core.hist && u.core.db.receipts == t.core.db.receipts
            && Answerable(u.core, Answering(rid), 7) && AnswerWeather(u.core, Answering(rid), 7, FAIR)
            && u.core.db.pending[7].revision == 4
  {
    RunSnoc(Initial(POLICY), acts, Sight(7, PROMPT));
  }

  lemma {:induction false} SeenClosed(acts: seq<Act>)
    ensures var (t, u) := (Run(Initial(POLICY), acts), Run(Initial(POLICY), acts + [Sight(7, SawNone)]));
            && u.procs == t.procs && u.core.hist == t.core.hist && u.core.db.receipts == t.core.db.receipts
            && 7 !in u.core.db.claims
  {
    RunSnoc(Initial(POLICY), acts, Sight(7, SawNone));
  }

  lemma {:induction false} StartsEmpty()
    ensures var s := Run(Initial(POLICY), []);
            s.core.db.receipts == map[] && s.core.db.claims == map[] && s.core.hist.crossings == [] && s.procs == map[]
  {
  }

  predicate TwoCrossingsOfOneRevision(c: Core) {
    && |c.hist.crossings| == 2 && c.hist.crossings[0].rid != c.hist.crossings[1].rid
    && c.hist.crossings[0].worker == c.hist.crossings[1].worker && c.hist.crossings[0].revision == c.hist.crossings[1].revision
  }

  /** One input per question does not mean one per revision: when the same prompt is observed closed
      and then open again, a second request crosses for the same revision. */
  lemma {:induction false} FlickeringPromptIsAnsweredTwice()
    ensures ValidPolicy(POLICY)
    ensures exists acts :: TwoCrossingsOfOneRevision(Run(Initial(POLICY), acts).core)
  {
    hide Run;
    hide Answerable;
    StartsEmpty();
    Seen([], 0);
    var shown := [] + [Sight(7, PROMPT)];
    var first := AnotherInput(shown, 0, 0);
    var once := shown + first;
    SeenClosed(once);
    var closed := once + [Sight(7, SawNone)];
    Seen(closed, 1);
    var again := closed + [Sight(7, PROMPT)];
    var last := AnotherInput(again, 1, 1);
    assert TwoCrossingsOfOneRevision(Run(Initial(POLICY), again + last).core);
  }

  /** Every sighting in these acts shows this very prompt. */
  predicate OnlyPrompts(acts: seq<Act>) {
    forall i :: 0 <= i < |acts| && acts[i].Sight? ==> acts[i].saw == PROMPT
  }

  /** Nor does the prompt have to be seen closed: an accepted answer closes it, and if it is still on the
      screen at the next look, a second request is typed into it. */
  lemma {:induction false} StillShownPromptIsAnsweredTwice()
    ensures exists acts :: OnlyPrompts(acts) && TwoCrossingsOfOneRevision(Run(Initial(POLICY), acts).core)
                           && 0 in Run(Initial(POLICY), acts).core.db.receipts
                           && Run(Initial(POLICY), acts).core.db.receipts[0].state.Accepted?
  {
    hide Run;
    hide Answerable;
    StartsEmpty();
    Seen([], 0);
    var shown := [] + [Sight(7, PROMPT)];
    var first := AnotherAnswer(shown, 0, 0);
    var once := shown + first;
    Seen(once, 1);
    var again := once + [Sight(7, PROMPT)];
    var last := AnotherInput(again, 1, 1);
    assert OnlyPrompts(again + last);
    assert TwoCrossingsOfOneRevision(Run(Initial(POLICY), again + last).core);
  }

  // ----- Input under an uncertain receipt -----

  ghost predicate Reachable(s: System) {
    exists acts :: Run(Initial(POLICY), acts) == s
  }

  lemma {:induction false} Further(s: System, act: Act)
    requires Reachable(s)
    ensures Reachable(Step(s, act))
  {
    var acts :| Run(Initial(POLICY), acts) == s;
    RunSnoc(Initial(POLICY), acts, act);
  }

  const ASKED := Pending(ObservedOpen, true, 4, 2, 3, map[6 := 9])
  const ROUTE := Route(7, 5, 2, 3, 9)
  const CLAIMED := Claim(0, 4, 6, ROUTE, ClaimHeld, 10)
  const OWNED := Lease(CanonicalFor(Answering(0), 7), 0, 0)
  const STARTED := Receipt(CanonicalFor(Answering(0), 7), SendStarted, StPending, Doc(InProgressEnvelope(Answering(0))), Some(0),
                           Some(30), 0, Some(10), None, 10, None, 0)

  /** Submitter 0 reserved at second 0, claimed and started its send at second 10. */
  ghost predicate AboutToType(s: System) {
    && s.core.now == 10 && s.core.policy == POLICY && s.procs == map[0 := Proc(Answering(0), Started(OWNED, Some(Hold(0, ROUTE, 4, 10))))]
    && s.core.db.receipts == map[0 := STARTED] && s.core.db.claims == map[7 := CLAIMED] && s.core.db.pending == map[7 := ASKED]
    && s.core.db.ledger == map[] && s.core.hist.crossings == []
  }

  lemma {:induction false} SlowAnswer() returns (s: System)
    ensures Reachable(s) && AboutToType(s)
  {
    s := Initial(POLICY);
    assert Run(s, []) == s;
    Further(s, Sight(7, PROMPT)); s := Step(s, Sight(7, PROMPT));
    Further(s, Enter(0, Answering(0))); s := Step(s, Enter(0, Answering(0)));
    Further(s, Go(0, FAIR)); s := Step(s, Go(0, FAIR));
    s := ReserveAndWait(s);
    s := ClaimAndStart(s);
  }

  lemma {:induction false} ReserveAndWait(s: System) returns (t: System)
    requires Reachable(s) && s == System(Core(Db(map[], map[], map[7 := ASKED], map[], 0, 0, 0, s.core.db.episodes), 0, POLICY, History([], [], [], map[])),
                                         map[0 := Proc(Answering(0), Preparing(None))])
    ensures Reachable(t) && t.core.now == 10 && t.core.policy == POLICY
    ensures t.procs == map[0 := Proc(Answering(0), Claiming(OWNED, ROUTE))]
    ensures t.core.db.pending == map[7 := ASKED] && t.core.db.claims == map[] && t.core.db.claimTokens == 0
    ensures t.core.db.receipts == map[0 := STARTED.(state := Reserved, startedAt := None, updated := 0)]
    ensures t.core.db.ledger == map[] && t.core.hist.crossings == []
  {
    hide Reachable;
    Further(s, Go(0, FAIR)); t := Step(s, Go(0, FAIR));
    assert t.core == s.core && t.procs == map[0 := Proc(Answering(0), Reserving(OWNED.canon, Answer(ROUTE)))];
    ReservesFirst(s.core);
    hide StepReserving;
    Further(t, Go(0, FAIR)); t := Step(t, Go(0, FAIR));
    Further(t, Tick(10)); t := Step(t, Tick(10));
  }

  lemma {:induction false} ReservesFirst(c: Core)
    requires c.now == 0 && c.db.receipts == map[] && c.db.tokens == 0 && c.db.births == 0
    ensures var (d, pc) := StepReserving(c, Answering(0), OWNED.canon, Answer(ROUTE), FAIR);
            && pc == Claiming(OWNED, ROUTE) && d.now == 0 && d.policy == c.policy && d.hist.crossings == c.hist.crossings
            && d.db.receipts == map[0 := STARTED.(state := Reserved, startedAt := None, updated := 0)]
            && d.db.pending == c.db.pending && d.db.claims == c.db.claims && d.db.claimTokens == c.db.claimTokens && d.db.ledger == c.db.ledger
  {
  }

  lemma {:induction false} ClaimAndStart(s: System) returns (t: System)
    requires Reachable(s) && s.core.now == 10 && s.core.policy == POLICY
    requires s.procs == map[0 := Proc(Answering(0), Claiming(OWNED, ROUTE))]
    requires s.core.db.pending == map[7 := ASKED] && s.core.db.claims == map[] && s.core.db.claimTokens == 0
    requires s.core.db.receipts == map[0 := STARTED.(state := Reserved, startedAt := None, updated := 0)]
    requires s.core.db.ledger == map[] && s.core.hist.crossings == []
    ensures Reachable(t) && AboutToType(t)
  {
    Further(s, Go(0, FAIR)); t := Step(s, Go(0, FAIR));
    assert t.procs[0].pc == Marking(OWNED, Some(Hold(0, ROUTE, 4, 10)));
    Further(t, Go(0, FAIR)); t := Step(t, Go(0, FAIR));
  }

  /** A second submitter of the same request recovers the row once its owner's lease is over. */
  lemma {:induction false} Recovered(s: System) returns (t: System)
    requires Reachable(s) && AboutToType(s)
    ensures Reachable(t) && 0 in t.procs && t.procs[0] == s.procs[0]
    ensures t.core.now == 35 && t.core.db.claims == s.core.db.claims && t.core.db.pending == s.core.db.pending
            && t.core.hist.crossings == []
    ensures 0 in t.core.db.receipts && t.core.db.receipts[0].state.Uncertain?
  {
    Further(s, Tick(25)); t := Step(s, Tick(25));
    Further(t, Enter(1, Answering(0))); t := Step(t, Enter(1, Answering(0)));
    Further(t, Go(1, FAIR)); t := Step(t, Go(1, FAIR));
    assert t.procs[1].pc == Deciding(STARTED);
    t := RecoveredByAnother(t);
  }

  lemma {:induction false} RecoveredByAnother(s: System) returns (t: System)
    requires Reachable(s) && s.core.now == 35 && s.core.db.receipts == map[0 := STARTED] && s.core.hist.crossings == []
    requires 0 in s.procs && 1 in s.procs && s.procs[1] == Proc(Answering(0), Deciding(STARTED))
    ensures Reachable(t) && 0 in t.procs && t.procs[0] == s.procs[0]
    ensures t.core.now == 35 && t.core.db.claims == s.core.db.claims && t.core.db.pending == s.core.db.pending
            && t.core.hist.crossings == []
    ensures 0 in t.core.db.receipts && t.core.db.receipts[0].state.Uncertain?
  {
    Further(s, Go(1, FAIR)); t := Step(s, Go(1, FAIR));
    assert t.procs[1].pc == Recovering(OWNED.canon, STARTED, InProgressEnvelope(Answering(0)));
    Further(t, Go(1, FAIR)); t := Step(t, Go(1, FAIR));
  }

  /** The boundary is crossed, within the claim's lease, although the receipt is already uncertain. */
  lemma {:induction false} InputCanStartUnderAnUncertainReceipt()
    ensures exists s :: Reachable(s) && 0 in s.procs && 0 in s.core.db.receipts && s.core.db.receipts[0].state.Uncertain?
                        && Step(s, Go(0, FAIR)).core.hist.crossings != s.core.hist.crossings
  {
    var s := SlowAnswer();
    var t := Recovered(s);
    assert Step(t, Go(0, FAIR)).core.hist.crossings != t.core.hist.crossings;
  }
}
