/** What a retry can still get: after any number of failures before the first write, however long they
    took, the same request id can be accepted, whether it sends an instruction or answers a question, and
    whether it is new or an abandoned reservation. */
module Acceptance {
  import opened Options
  import opened Envelopes
  import opened CommandStore
  import opened Submission
  import opened SubmissionInvariant
  import opened SubmissionSteps
  import opened SubmissionSafety
  import opened Retries

  // ----- Up to the reservation -----

  /** No receipt, or an abandoned reservation of the very same mutation. */
  predicate Retryable(c: Core, req: Request, worker: WorkerId) {
    req.rid in c.db.receipts ==>
      var row := c.db.receipts[req.rid];
      row.state.Reserved? && !Live(row, c.now) && row.canon == CanonicalFor(req, worker)
  }

  /** The request can mean this worker; a decision always names its worker. */
  predicate Targets(req: Request, worker: WorkerId) {
    && (req.target.Explicit? ==> req.target.worker == worker)
    && (req.action.AnswerDecision? ==> req.target.Explicit?)
  }

  /** The store answers, the target resolves to `worker`, and the backend is ready. */
  predicate GoodWeather(worker: WorkerId, ch: Choice) {
    ch.fault.NoFault? && ch.authority == Some(worker) && ch.prep.Resolved? && ch.prep.worker == worker && ch.prep.how.Ready?
  }

  function PlanFor(req: Request, route: Route): Plan {
    if req.action.SendInstruction? then Prompt else Answer(route)
  }

  /** How many steps the receipt check takes. */
  function Checks(c: Core, req: Request): nat {
    if req.rid in c.db.receipts then 2 else 1
  }

  lemma {:induction false} RetryPrepares(c: Core, req: Request, worker: WorkerId, ch: Choice)
    requires CoreOk(c) && Retryable(c, req, worker) && Targets(req, worker) && GoodWeather(worker, ch)
    ensures Drive(c, req, Reading, ch, Checks(c, req) + 1) == (c, Reserving(CanonicalFor(req, worker), PlanFor(req, ch.prep.how.route)))
  {
    DriveSnoc(c, req, Reading, ch, Checks(c, req));
    DriveSnoc(c, req, Reading, ch, 0);
    if req.rid in c.db.receipts {
      assert RowOk(c, req.rid);
      assert Authority(req, c.db.receipts[req.rid], ch.authority, c.now) == TakeOver(worker);
      DriveSnoc(c, req, Reading, ch, 1);
    }
  }

  /** The row for this request stands in `state` under this lease; all other rows are as in `c`. */
  predicate Holds(c: Core, d: Core, req: Request, lease: Lease, state: ReceiptState) {
    && req.rid in d.db.receipts && d.db.receipts[req.rid].state == state
    && d.db.receipts[req.rid].owner == Some(lease.token) && d.db.receipts[req.rid].canon == lease.canon
    && d.db.receipts[req.rid].born == lease.born
    && d.db.receipts == c.db.receipts[req.rid := d.db.receipts[req.rid]]
    && d.hist.sends == c.hist.sends
  }

  predicate SameQuestions(c: Core, d: Core) {
    && d.now == c.now && d.policy == c.policy && d.db.pending == c.db.pending && d.db.claims == c.db.claims
    && d.db.claimTokens == c.db.claimTokens && d.db.episodes == c.db.episodes && d.hist.crossings == c.hist.crossings
  }

  lemma {:induction false} RetryReserves(c: Core, req: Request, worker: WorkerId, plan: Plan, ch: Choice)
    requires CoreOk(c) && Retryable(c, req, worker) && ch.fault.NoFault? && !plan.Refuse?
    ensures var canon := CanonicalFor(req, worker);
            var (d, pc) := StepReserving(c, req, canon, plan, ch);
            && req.rid in d.db.receipts
            && var lease := Lease(canon, c.db.tokens, d.db.receipts[req.rid].born);
               Holds(c, d, req, lease, Reserved) && SameQuestions(c, d) && pc == Planned(req, lease, plan)
  {
    if req.rid in c.db.receipts { assert RowOk(c, req.rid); }
  }

  lemma {:induction false} DriveReserves(c: Core, req: Request, worker: WorkerId, ch: Choice) returns (d: Core, lease: Lease)
    requires CoreOk(c) && Retryable(c, req, worker) && Targets(req, worker) && GoodWeather(worker, ch)
    ensures Drive(c, req, Reading, ch, Checks(c, req) + 2) == (d, Planned(req, lease, PlanFor(req, ch.prep.how.route)))
    ensures Holds(c, d, req, lease, Reserved) && SameQuestions(c, d)
    ensures lease.canon == CanonicalFor(req, worker) && lease.token == c.db.tokens
  {
    hide CoreOk;
    hide Holds;
    hide SameQuestions;
    var plan := PlanFor(req, ch.prep.how.route);
    RetryPrepares(c, req, worker, ch);
    DriveSnoc(c, req, Reading, ch, Checks(c, req) + 1);
    RetryReserves(c, req, worker, plan, ch);
    d := StepReserving(c, req, CanonicalFor(req, worker), plan, ch).0;
    lease := Lease(CanonicalFor(req, worker), c.db.tokens, d.db.receipts[req.rid].born);
  }

  /** The request is accepted with one new backend call, and its row alone has changed. */
  predicate AcceptedAlone(c: Core, d: Core, req: Request, pc: Pc) {
    && pc.Done? && pc.env.ok && pc.env.status.StAccepted?
    && |d.hist.sends| == |c.hist.sends| + 1 && d.hist.sends[|c.hist.sends|].rid == req.rid && c.hist.sends <= d.hist.sends
    && req.rid in d.db.receipts && d.db.receipts[req.rid].state.Accepted?
    && d.db.receipts == c.db.receipts[req.rid := d.db.receipts[req.rid]]
  }

  // ----- An instruction -----

  lemma {:induction false} RetryStarts(c: Core, d: Core, req: Request, lease: Lease, held: Option<Hold>, ch: Choice)
    requires Holds(c, d, req, lease, Reserved) && ch.fault.NoFault?
    ensures var (e, pc) := StepMarking(d, req, lease, held, ch);
            Holds(c, e, req, lease, SendStarted) && SameQuestions(d, e) && pc == Started(lease, held)
  {
  }

  /** The last two steps: the prompt, and the write of its outcome. */
  lemma {:induction false} RetryFinishes(c: Core, e: Core, req: Request, lease: Lease, ch: Choice)
    requires Holds(c, e, req, lease, SendStarted) && lease.canon.action == req.action
    requires ch.fault.NoFault? && ch.reply.Submitted?
    ensures var (f, pc) := StepPrompting(e, req, lease, ch);
            && f == Sent(e, req, lease, Prompted(Submitted)) && pc.Finishing?
            && var (g, done) := Advance(f, req, pc, ch);
               AcceptedAlone(c, g, req, done)
  {
    var env := Terminalized(req, AcceptedEnvelope(req, Submitted, ch.turn), Accepted);
    assert ValidEnvelope(env);
  }

  lemma {:induction false} DriveStarts(c: Core, req: Request, worker: WorkerId, ch: Choice) returns (e: Core, lease: Lease)
    requires CoreOk(c) && req.action.SendInstruction? && Retryable(c, req, worker) && Targets(req, worker) && GoodWeather(worker, ch)
    ensures Drive(c, req, Reading, ch, Checks(c, req) + 3) == (e, Started(lease, None)) && Holds(c, e, req, lease, SendStarted)
    ensures lease.canon == CanonicalFor(req, worker)
  {
    hide CoreOk;
    hide Holds;
    hide SameQuestions;
    hide Drive;
    var d;
    d, lease := DriveReserves(c, req, worker, ch);
    DriveSnoc(c, req, Reading, ch, Checks(c, req) + 2);
    RetryStarts(c, d, req, lease, None, ch);
    e := StepMarking(d, req, lease, None, ch).0;
  }

  lemma {:induction false} DriveAccepts(c: Core, req: Request, worker: WorkerId, ch: Choice)
    requires CoreOk(c) && req.action.SendInstruction? && Retryable(c, req, worker) && Targets(req, worker) && GoodWeather(worker, ch)
    requires ch.reply.Submitted?
    ensures var (d, pc) := Drive(c, req, Reading, ch, Checks(c, req) + 5); AcceptedAlone(c, d, req, pc)
  {
    hide CoreOk;
    hide Drive;
    hide AcceptedAlone;
    var e, lease := DriveStarts(c, req, worker, ch);
    DriveSnoc(c, req, Reading, ch, Checks(c, req) + 3);
    DriveSnoc(c, req, Reading, ch, Checks(c, req) + 4);
    RetryFinishes(c, e, req, lease, ch);
  }

  // ----- An answer -----

  /** The request can still be reserved, and the worker's question is open and lists its body. */
  predicate Asked(c: Core, req: Request, w: WorkerId) {
    && !req.action.SendInstruction? && Retryable(c, req, w) && Targets(req, w)
    && w in c.db.pending && c.db.pending[w].seen.ObservedOpen? && c.db.pending[w].current && req.body in c.db.pending[w].options
  }

  /** Asked, and no claim on the question is started or live. */
  predicate Answerable(c: Core, req: Request, w: WorkerId) {
    && Asked(c, req, w)
    && (w in c.db.claims ==> c.db.claims[w].state.ClaimHeld? && c.db.claims[w].claimedAt + CLAIM_LEASE <= c.now)
  }

  function RouteTo(c: Core, req: Request, w: WorkerId, fingerprint: nat): Route
    requires Answerable(c, req, w)
  {
    Route(w, fingerprint, c.db.pending[w].binding, c.db.pending[w].pane, c.db.pending[w].options[req.body])
  }

  predicate AnswerWeather(c: Core, req: Request, w: WorkerId, ch: Choice)
    requires Answerable(c, req, w)
  {
    && GoodWeather(w, ch) && ch.fingerprint.Some? && ch.typed && ch.prep.how.route == RouteTo(c, req, w, ch.fingerprint.value)
  }

  /** The state after the claim, the send start and the crossing. */
  ghost predicate InputBegun(c: Core, d: Core, req: Request, w: WorkerId, lease: Lease, ch: Choice)
    requires Answerable(c, req, w) && ch.fingerprint.Some?
  {
    var p := c.db.pending[w];
    && Holds(c, d, req, lease, SendStarted)
    && d.now == c.now && d.policy == c.policy && d.db.pending == c.db.pending && d.db.episodes == c.db.episodes
    && d.db.claims == c.db.claims[w := Claim(c.db.claimTokens, p.revision, req.body, RouteTo(c, req, w, ch.fingerprint.value), ClaimStarted, c.now)]
    && d.hist.crossings == c.hist.crossings
         + [Crossing(w, p.revision, EpisodeOf(c.db.episodes, w), c.db.claimTokens, req.rid, lease.token, lease.born, c.now)]
  }

  lemma {:induction false} ClaimIsGranted(c: Core, d: Core, req: Request, w: WorkerId, lease: Lease, ch: Choice)
    requires Answerable(c, req, w) && AnswerWeather(c, req, w, ch) && SameQuestions(c, d) && Holds(c, d, req, lease, Reserved)
    requires lease.canon == CanonicalFor(req, w)
    ensures var (e, pc) := StepClaiming(d, req, lease, ch.prep.how.route, ch);
            var hold := Hold(c.db.claimTokens, ch.prep.how.route, c.db.pending[w].revision, c.now);
            && pc == Marking(lease, Some(hold)) && Holds(c, e, req, lease, Reserved)
            && e.now == c.now && e.policy == c.policy && e.db.pending == c.db.pending && e.db.episodes == c.db.episodes
            && e.hist.crossings == c.hist.crossings
            && e.db.claims == c.db.claims[w := Claim(hold.claim, hold.revision, req.body, hold.route, ClaimHeld, c.now)]
  {
  }

  lemma {:induction false} BoundaryIsCrossed(c: Core, d: Core, e: Core, req: Request, w: WorkerId, lease: Lease, hold: Hold, ch: Choice)
    requires Answerable(c, req, w) && AnswerWeather(c, req, w, ch) && Holds(c, e, req, lease, SendStarted)
    requires hold == Hold(c.db.claimTokens, ch.prep.how.route, c.db.pending[w].revision, c.now)
    requires e.now == c.now && e.policy == c.policy && e.db.pending == c.db.pending && e.db.episodes == c.db.episodes
             && e.hist.crossings == c.hist.crossings
             && e.db.claims == c.db.claims[w := Claim(hold.claim, hold.revision, req.body, hold.route, ClaimHeld, c.now)]
    ensures var (f, pc) := StepCrossing(e, req, lease, hold, ch);
            pc == Typing(lease, hold) && InputBegun(c, f, req, w, lease, ch)
  {
  }

  /** An answer to an open question reaches the pane, in five steps after its receipt was checked. */
  lemma {:induction false} InputIsReached(c: Core, req: Request, w: WorkerId, ch: Choice) returns (d: Core, lease: Lease, hold: Hold)
    requires CoreOk(c) && Answerable(c, req, w) && AnswerWeather(c, req, w, ch)
    ensures Drive(c, req, Reading, ch, Checks(c, req) + 5) == (d, Typing(lease, hold)) && InputBegun(c, d, req, w, lease, ch)
    ensures hold.claim == c.db.claimTokens && hold.route.worker == w && lease.canon == CanonicalFor(req, w) && lease.token == c.db.tokens
  {
    hide CoreOk;
    hide Drive;
    hide Holds;
    hide InputBegun;
    hide SameQuestions;
    hide ClaimTx;
    hide StartClaimTx;
    hide MarkTx;
    var d2, d3, d4;
    d2, lease := DriveReserves(c, req, w, ch);
    hold := Hold(c.db.claimTokens, ch.prep.how.route, c.db.pending[w].revision, c.now);
    DriveSnoc(c, req, Reading, ch, Checks(c, req) + 2);
    ClaimIsGranted(c, d2, req, w, lease, ch);
    d3 := StepClaiming(d2, req, lease, ch.prep.how.route, ch).0;
    DriveSnoc(c, req, Reading, ch, Checks(c, req) + 3);
    RetryStarts(c, d3, req, lease, Some(hold), ch);
    d4 := StepMarking(d3, req, lease, Some(hold), ch).0;
    DriveSnoc(c, req, Reading, ch, Checks(c, req) + 4);
    BoundaryIsCrossed(c, d2, d4, req, w, lease, hold, ch);
    d := StepCrossing(d4, req, lease, hold, ch).0;
  }

  /** The question is closed and nobody claims it. */
  predicate QuestionClosed(c: Core, w: WorkerId) {
    w !in c.db.claims && w in c.db.pending && c.db.pending[w].seen.ObservedNone?
  }

  lemma {:induction false} FinishAnswers(db: Db, now: nat, rid: RequestId, canon: Canonical, token: nat, env: Envelope, claim: nat, w: WorkerId)
    requires env.status.StAccepted? && AnsweredEffect(db, claim, w).Some?
    requires rid in db.receipts && db.receipts[rid].state.SendStarted? && db.receipts[rid].owner == Some(token) && db.receipts[rid].canon == canon
    ensures var (db', reply) := FinishTx(db, now, rid, canon, token, SendStarted, Accepted, env, Some((claim, w)));
            && rid in db'.receipts && db'.receipts[rid] == TerminalRow(db.receipts[rid], now, Accepted, StAccepted, Doc(env))
            && db'.receipts == db.receipts[rid := db'.receipts[rid]] && reply == Reply(TTerminal, Some(db'.receipts[rid]), 0)
            && w !in db'.claims && w in db'.pending && db'.pending[w].seen.ObservedNone?
  {
  }

  /** The typed input is confirmed, the receipt accepted and the question closed. */
  lemma {:induction false} TypedInputFinishes(c: Core, d: Core, req: Request, lease: Lease, hold: Hold, w: WorkerId, ch: Choice)
    requires ch.typed && ch.fault.NoFault? && lease.canon.action == req.action && hold.route.worker == w
    requires Holds(c, d, req, lease, SendStarted) && AnsweredEffect(d.db, hold.claim, w).Some?
    ensures var (e, pc) := Advance(d, req, Typing(lease, hold), ch);
            && e == Sent(d, req, lease, Typed(hold.claim, true)) && pc.Finishing?
            && var (f, done) := Advance(e, req, pc, ch);
               && AcceptedAlone(c, f, req, done) && QuestionClosed(f, w)
               && f.hist.sends == e.hist.sends && f.hist.crossings == d.hist.crossings
  {
    var env := Terminalized(req, AcceptedEnvelope(req, NoVerdict, None), Accepted);
    assert ValidEnvelope(env);
    FinishAnswers(d.db, d.now, req.rid, lease.canon, lease.token, env, hold.claim, w);
  }

  lemma {:induction false} BegunCanFinish(c: Core, d: Core, req: Request, w: WorkerId, lease: Lease, ch: Choice)
    requires Answerable(c, req, w) && ch.fingerprint.Some? && InputBegun(c, d, req, w, lease, ch)
    ensures AnsweredEffect(d.db, c.db.claimTokens, w).Some? && Holds(c, d, req, lease, SendStarted)
  {
  }

  /** One more input has begun, for this request and the question that was open. */
  predicate OneMoreInput(c: Core, d: Core, req: Request, w: WorkerId)
    requires w in c.db.pending
  {
    && |d.hist.crossings| == |c.hist.crossings| + 1 && c.hist.crossings <= d.hist.crossings
    && d.hist.crossings[|c.hist.crossings|].rid == req.rid && d.hist.crossings[|c.hist.crossings|].worker == w
    && d.hist.crossings[|c.hist.crossings|].revision == c.db.pending[w].revision
  }

  lemma {:induction false} BegunIsOneMore(c: Core, d: Core, req: Request, w: WorkerId, lease: Lease, ch: Choice)
    requires Answerable(c, req, w) && ch.fingerprint.Some? && InputBegun(c, d, req, w, lease, ch)
    ensures OneMoreInput(c, d, req, w)
  {
  }

  /** A whole answer, of either kind, new or resumed: typed once, accepted, and its question closed. */
  lemma {:induction false} AnswerIsAccepted(c: Core, req: Request, w: WorkerId, ch: Choice)
    requires CoreOk(c) && Answerable(c, req, w) && AnswerWeather(c, req, w, ch)
    ensures var (f, pc) := Drive(c, req, Reading, ch, Checks(c, req) + 7);
            && AcceptedAlone(c, f, req, pc) && QuestionClosed(f, w) && f.hist.sends[|c.hist.sends|].outcome == Typed(c.db.claimTokens, true)
            && OneMoreInput(c, f, req, w)
  {
    hide CoreOk;
    hide Drive;
    var d, lease, hold := InputIsReached(c, req, w, ch);
    BegunCanFinish(c, d, req, w, lease, ch);
    BegunIsOneMore(c, d, req, w, lease, ch);
    DriveSnoc(c, req, Reading, ch, Checks(c, req) + 5);
    DriveSnoc(c, req, Reading, ch, Checks(c, req) + 6);
    hide InputBegun;
    hide Answerable;
    TypedInputFinishes(c, d, req, lease, hold, w, ch);
  }

  // ----- After failures -----

  /** The environment lets this request through: for an instruction the backend submits, for an answer the
      question is open and the route is its own. */
  predicate LetsThrough(c: Core, req: Request, worker: WorkerId, ch: Choice) {
    if req.action.SendInstruction?
    then Retryable(c, req, worker) && Targets(req, worker) && GoodWeather(worker, ch) && ch.reply.Submitted?
    else Answerable(c, req, worker) && AnswerWeather(c, req, worker, ch)
  }

  function StepsToAcceptance(c: Core, req: Request): nat {
    Checks(c, req) + if req.action.SendInstruction? then 5 else 7
  }

  /** Letting through does not wear off. */
  lemma {:induction false} StillLetsThrough(c: Core, later: nat, req: Request, worker: WorkerId, ch: Choice)
    requires LetsThrough(c, req, worker, ch) && c.now <= later
    ensures LetsThrough(c.(now := later), req, worker, ch)
  {
  }

  lemma {:induction false} LetThroughIsAccepted(c: Core, req: Request, worker: WorkerId, ch: Choice)
    requires CoreOk(c) && LetsThrough(c, req, worker, ch)
    ensures var (d, pc) := Drive(c, req, Reading, ch, StepsToAcceptance(c, req));
            AcceptedAlone(c, d, req, pc) && (!req.action.SendInstruction? ==> QuestionClosed(d, worker))
  {
    hide CoreOk;
    hide Drive;
    hide AcceptedAlone;
    hide QuestionClosed;
    if req.action.SendInstruction? { DriveAccepts(c, req, worker, ch); } else { AnswerIsAccepted(c, req, worker, ch); }
  }

  /** After any number of failures before the first write, however long they took, the same request id, new
      or reserved and abandoned, is accepted once the environment lets it through: with exactly one new
      backend call, no other receipt changed, and, if it is an answer, its question closed. */
  lemma {:induction false} RetryAfterFailuresIsAccepted(s: System, failures: seq<Act>, pid: nat, req: Request, worker: WorkerId, ch: Choice)
    requires CoreOk(s.core) && OnlyPreSendSteps(s, failures) && LetsThrough(s.core, req, worker, ch) && pid !in Run(s, failures).procs
    ensures var s' := Run(Run(s, failures), [Enter(pid, req)] + Goes(pid, ch, StepsToAcceptance(s.core, req)));
            && pid in s'.procs && AcceptedAlone(s.core, s'.core, req, s'.procs[pid].pc)
            && (!req.action.SendInstruction? ==> QuestionClosed(s'.core, worker))
  {
    hide CoreOk;
    hide AcceptedAlone;
    hide QuestionClosed;
    hide LetsThrough;
    hide Drive;
    var t := Run(s, failures);
    PreSendStepsCostNothing(s, failures);
    assert CoreOk(t.core) by { TickOk(s.core, t.core.now - s.core.now, None); }
    StillLetsThrough(s.core, t.core.now, req, worker, ch);
    DriveIsRun(t, pid, req, ch, StepsToAcceptance(s.core, req));
    LetThroughIsAccepted(t.core, req, worker, ch);
    SinceEarlier(s.core, t.core, Drive(t.core, req, Reading, ch, StepsToAcceptance(s.core, req)).0, req,
                 Drive(t.core, req, Reading, ch, StepsToAcceptance(s.core, req)).1);
  }

  lemma {:induction false} SinceEarlier(c: Core, d: Core, e: Core, req: Request, pc: Pc)
    requires d == c.(now := d.now) && AcceptedAlone(d, e, req, pc)
    ensures AcceptedAlone(c, e, req, pc)
  {
  }

  /** So some continuation always accepts it: the backend submits an instruction, and a question is seen
      closed and then open for an answer. */
  lemma {:induction false} SomeContinuationAccepts(s: System, failures: seq<Act>, pid: nat, req: Request, worker: WorkerId) returns (more: seq<Act>)
    requires SystemOk(s) && OnlyPreSendSteps(s, failures) && Retryable(s.core, req, worker) && Targets(req, worker)
    requires pid !in Run(s, failures).procs
    ensures var s' := Run(Run(s, failures), more);
            pid in s'.procs && AcceptedAlone(s.core, s'.core, req, s'.procs[pid].pc)
  {
    hide CoreOk;
    hide SystemOk;
    hide AcceptedAlone;
    hide Retryable;
    hide Drive;
    hide Advance;
    var t := Run(s, failures);
    PreSendStepsCostNothing(s, failures);
    assert CoreOk(s.core) by { SystemIsOk(s); }
    assert CoreOk(t.core) by { TickOk(s.core, t.core.now - s.core.now, None); }
    var shown := if req.action.SendInstruction? then [] else [Sight(worker, SawNone), Sight(worker, SawPrompt(0, 0, 0, map[req.body := 0]))];
    var u := Run(t, shown);
    var ch := Choice(NoFault, Some(worker), Submission.Resolved(worker, Ready(Route(worker, 0, 0, 0, 0))), Waits, None, Some(0), StRejected, Submitted, true, true);
    ShownIsLetThrough(s.core, t, req, worker, ch);
    more := shown + ([Enter(pid, req)] + Goes(pid, ch, StepsToAcceptance(u.core, req)));
    RunJoined(t, shown, [Enter(pid, req)] + Goes(pid, ch, StepsToAcceptance(u.core, req)));
    DriveIsRun(u, pid, req, ch, StepsToAcceptance(u.core, req));
    LetThroughIsAccepted(u.core, req, worker, ch);
    SinceShown(s.core, u.core, Drive(u.core, req, Reading, ch, StepsToAcceptance(u.core, req)).0, req,
               Drive(u.core, req, Reading, ch, StepsToAcceptance(u.core, req)).1);
  }

  lemma {:induction false} SinceShown(c: Core, d: Core, e: Core, req: Request, pc: Pc)
    requires d.db.receipts == c.db.receipts && d.hist.sends == c.hist.sends && AcceptedAlone(d, e, req, pc)
    ensures AcceptedAlone(c, e, req, pc)
  {
  }

  lemma {:induction false} ShownIsLetThrough(c: Core, t: System, req: Request, worker: WorkerId, ch: Choice)
    requires CoreOk(t.core) && t.core == c.(now := t.core.now) && c.now <= t.core.now && Retryable(c, req, worker) && Targets(req, worker)
    requires ch == Choice(NoFault, Some(worker), Submission.Resolved(worker, Ready(Route(worker, 0, 0, 0, 0))), Waits, None, Some(0), StRejected, Submitted, true, true)
    ensures var shown := if req.action.SendInstruction? then [] else [Sight(worker, SawNone), Sight(worker, SawPrompt(0, 0, 0, map[req.body := 0]))];
            var u := Run(t, shown);
            && CoreOk(u.core) && LetsThrough(u.core, req, worker, ch) && u.procs == t.procs
            && u.core.db.receipts == c.db.receipts && u.core.hist == c.hist
  {
    hide CoreOk;
    if !req.action.SendInstruction? {
      var shown := [Sight(worker, SawNone), Sight(worker, SawPrompt(0, 0, 0, map[req.body := 0]))];
      assert shown[..1] == [Sight(worker, SawNone)] && shown[..1][..0] == [];
      SightKeepsOk(t.core, worker, SawNone);
      var v := t.core.(db := ObserveTx(t.core.db, worker, SawNone));
      SightKeepsOk(v, worker, SawPrompt(0, 0, 0, map[req.body := 0]));
      assert Run(t, shown[..1]) == System(v, t.procs);
    }
  }

  lemma {:induction false} SightKeepsOk(c: Core, w: WorkerId, saw: Sighting)
    requires CoreOk(c)
    ensures CoreOk(c.(db := ObserveTx(c.db, w, saw))) && ObserveTx(c.db, w, saw).receipts == c.db.receipts
  {
    ObserveKeepsReceipts(c, w, saw);
    SameReceiptsOk(c, c.(db := ObserveTx(c.db, w, saw)), None);
  }
}
