/** Two-phase answers: the product of the receipt machine and the pending-claim machine. A worker's
    question goes through episodes, one ending whenever an authoritative observation or an answer
    closes or replaces it; the pane-input boundary is crossed at most once in each. */
module PendingAnswers {
  import opened Options
  import opened Envelopes
  import opened CommandStore
  import opened Submission
  import opened SubmissionInvariant
  import opened SubmissionSteps
  import opened SubmissionSafety

  // ----- The invariant of claims and crossings -----

  /** While the question crossed in is still the worker's current one, its claim stays started;
      whatever happens, a claim that was crossed under is never held again. */
  ghost predicate CrossingOk(c: Core, x: Crossing) {
    && x.claim < c.db.claimTokens && x.episode <= EpisodeOf(c.db.episodes, x.worker)
    && (x.episode == EpisodeOf(c.db.episodes, x.worker) ==>
          x.worker in c.db.claims && c.db.claims[x.worker].token == x.claim && c.db.claims[x.worker].state.ClaimStarted?)
    && (forall w :: w in c.db.claims && c.db.claims[w].token == x.claim ==> c.db.claims[w].state.ClaimStarted?)
  }

  predicate CrossedApart(x: Crossing, y: Crossing) {
    x.claim != y.claim && (x.worker == y.worker ==> x.episode < y.episode)
  }

  ghost predicate Crossed(c: Core, send: Send) {
    exists i :: 0 <= i < |c.hist.crossings| && c.hist.crossings[i].token == send.token
                && send.outcome.Typed? && c.hist.crossings[i].claim == send.outcome.claim
  }

  ghost predicate ClaimsOk(c: Core) {
    && (forall w :: w in c.db.claims ==>
          c.db.claims[w].token < c.db.claimTokens && c.db.claims[w].route.worker == w && c.db.claims[w].claimedAt <= c.now)
    && (forall w, v :: w in c.db.claims && v in c.db.claims && w != v ==> c.db.claims[w].token != c.db.claims[v].token)
    && (forall i :: 0 <= i < |c.hist.crossings| ==> CrossingOk(c, c.hist.crossings[i]))
    && (forall i, j :: 0 <= i < j < |c.hist.crossings| ==> CrossedApart(c.hist.crossings[i], c.hist.crossings[j]))
    && (forall k :: 0 <= k < |c.hist.sends| && c.hist.sends[k].outcome.Typed? ==> Crossed(c, c.hist.sends[k]))
  }

  function HoldOf(pc: Pc): Option<Hold> {
    match pc
    case Marking(_, held) => held
    case Releasing(_, hold, _, _) => Some(hold)
    case Started(_, held) => held
    case Typing(_, hold) => Some(hold)
    case Dropping(_, hold) => Some(hold)
    case Rereading(_, ThenRelease(_, hold)) => Some(hold)
    case _ => None
  }

  /** A submitter's hold names the claim it was granted, if that claim still stands. */
  ghost predicate HoldOk(c: Core, lease: Lease, hold: Hold) {
    && hold.claim < c.db.claimTokens && hold.route.worker == lease.canon.worker && hold.claimedAt <= c.now
    && (forall w :: w in c.db.claims && c.db.claims[w].token == hold.claim ==>
          c.db.claims[w].route == hold.route && c.db.claims[w].revision == hold.revision
          && c.db.claims[w].claimedAt == hold.claimedAt && c.db.claims[w].body == lease.canon.body)
  }

  ghost predicate CrossedUnder(c: Core, lease: Lease, hold: Hold) {
    exists i :: 0 <= i < |c.hist.crossings| && c.hist.crossings[i].token == lease.token && c.hist.crossings[i].claim == hold.claim
  }

  /** The send start an answer made under this lease came no earlier than its claim. */
  ghost predicate StartedAfterClaim(c: Core, lease: Lease, hold: Hold) {
    forall i :: 0 <= i < |c.hist.starts| && c.hist.starts[i].token == lease.token ==> hold.claimedAt <= c.hist.starts[i].at
  }

  ghost predicate AnswerOwnerOk(c: Core, req: Request, pc: Pc) {
    && (HoldOf(pc).Some? ==> LeaseOf(pc).Some? && HoldOk(c, LeaseOf(pc).value, HoldOf(pc).value) && !req.action.SendInstruction?)
    && match pc
       case Started(lease, Some(hold)) => StartedAfterClaim(c, lease, hold)
       case Typing(lease, hold) => CrossedUnder(c, lease, hold)
       case Reserving(_, plan) =>
         (plan.Prompt? ==> req.action.SendInstruction?) && (plan.Answer? ==> !req.action.SendInstruction?)
       case Marking(_, None) => req.action.SendInstruction?
       case Claiming(_, _) => !req.action.SendInstruction?
       case Started(_, None) => req.action.SendInstruction?
       case Finishing(lease, _, terminal, _, effect) =>
         terminal.Accepted? && !req.action.SendInstruction? ==> effect.Some? && effect.value.1 == lease.canon.worker
       case _ => true
  }

  ghost predicate AnswersOk(s: System) {
    && ClaimsOk(s.core)
    && (forall pid :: pid in s.procs ==> AnswerOwnerOk(s.core, s.procs[pid].req, s.procs[pid].pc))
    && (forall p, q :: p in s.procs && q in s.procs && p != q && HoldOf(s.procs[p].pc).Some? && HoldOf(s.procs[q].pc).Some? ==>
          HoldOf(s.procs[p].pc).value.claim != HoldOf(s.procs[q].pc).value.claim)
  }

  // ----- What a step may do to claims -----

  /** No old claim is granted again or changed in anything but its state. */
  ghost predicate ClaimsGrow(c: Core, d: Core) {
    && c.now <= d.now && c.db.claimTokens <= d.db.claimTokens && c.hist.crossings <= d.hist.crossings
    && (forall w :: w in d.db.claims && d.db.claims[w].token < c.db.claimTokens ==>
          w in c.db.claims && d.db.claims[w] == c.db.claims[w].(state := d.db.claims[w].state))
  }

  ghost predicate SameClaims(c: Core, d: Core) {
    && d.db.claims == c.db.claims && d.db.claimTokens == c.db.claimTokens && d.db.episodes == c.db.episodes
    && d.hist.crossings == c.hist.crossings && c.now <= d.now
  }

  lemma {:induction false} SameClaimsOk(c: Core, d: Core)
    requires ClaimsOk(c) && SameClaims(c, d) && d.hist.sends == c.hist.sends
    ensures ClaimsOk(d) && ClaimsGrow(c, d)
  {
    forall k | 0 <= k < |d.hist.sends| && d.hist.sends[k].outcome.Typed? ensures Crossed(d, d.hist.sends[k]) {
      assert Crossed(c, c.hist.sends[k]);
    }
  }

  /** Claims may be granted or dropped and episodes may end, but nothing is crossed. */
  lemma {:induction false} UncrossedOk(c: Core, d: Core)
    requires ClaimsOk(c) && d.hist == c.hist && d.now == c.now && c.db.claimTokens <= d.db.claimTokens
    requires forall w :: w in d.db.claims ==>
               d.db.claims[w].token < d.db.claimTokens && d.db.claims[w].route.worker == w && d.db.claims[w].claimedAt <= d.now
               && (if d.db.claims[w].token < c.db.claimTokens then w in c.db.claims && d.db.claims[w] == c.db.claims[w]
                   else w !in c.db.claims || c.db.claims[w].state.ClaimHeld?)
    requires forall w, v :: w in d.db.claims && v in d.db.claims && w != v ==> d.db.claims[w].token != d.db.claims[v].token
    requires forall w :: EpisodeOf(c.db.episodes, w) <= EpisodeOf(d.db.episodes, w)
    requires forall w :: (EpisodeOf(c.db.episodes, w) == EpisodeOf(d.db.episodes, w) && w in c.db.claims
                          && c.db.claims[w].state.ClaimStarted?) ==> w in d.db.claims && d.db.claims[w] == c.db.claims[w]
    ensures ClaimsOk(d) && ClaimsGrow(c, d)
  {
    forall i | 0 <= i < |d.hist.crossings| ensures CrossingOk(d, d.hist.crossings[i]) {
      assert CrossingOk(c, c.hist.crossings[i]);
    }
    forall k | 0 <= k < |d.hist.sends| && d.hist.sends[k].outcome.Typed? ensures Crossed(d, d.hist.sends[k]) {
      assert Crossed(c, c.hist.sends[k]);
    }
  }

  lemma {:induction false} ClaimTxOk(c: Core, worker: WorkerId, body: nat, fingerprint: Option<nat>)
    requires ClaimsOk(c)
    ensures var (db', verdict) := ClaimTx(c.db, c.now, worker, body, fingerprint);
            var d := c.(db := db');
            && ClaimsOk(d) && ClaimsGrow(c, d)
            && (verdict.ClaimGranted? ==>
                  && c.db.claimTokens <= verdict.token < d.db.claimTokens && verdict.route.worker == worker
                  && worker in d.db.claims && d.db.claims[worker].token == verdict.token && d.db.claims[worker].body == body
                  && d.db.claims[worker].route == verdict.route && d.db.claims[worker].revision == verdict.revision
                  && d.db.claims[worker].claimedAt == c.now)
  {
    UncrossedOk(c, c.(db := ClaimTx(c.db, c.now, worker, body, fingerprint).0));
  }

  lemma {:induction false} ReleaseOk(c: Core, worker: WorkerId, claim: nat)
    requires ClaimsOk(c)
    ensures var d := c.(db := ReleaseClaimTx(c.db, worker, claim).0); ClaimsOk(d) && ClaimsGrow(c, d)
  {
    UncrossedOk(c, c.(db := ReleaseClaimTx(c.db, worker, claim).0));
  }

  /** One worker's claim may go; if it was started, its question's episode ends with it. */
  lemma {:induction false} DroppedOk(c: Core, d: Core, w: WorkerId)
    requires ClaimsOk(c) && d.hist == c.hist && d.now == c.now && d.db.claimTokens == c.db.claimTokens
    requires d.db.claims == c.db.claims || d.db.claims == c.db.claims - {w}
    requires d.db.episodes == c.db.episodes || d.db.episodes == Bump(c.db.episodes, w)
    requires w in c.db.claims && c.db.claims[w].state.ClaimStarted? && w !in d.db.claims ==> d.db.episodes == Bump(c.db.episodes, w)
    ensures ClaimsOk(d) && ClaimsGrow(c, d)
  {
    UncrossedOk(c, d);
  }

  lemma {:induction false} ObserveOk(c: Core, w: WorkerId, saw: Sighting)
    requires ClaimsOk(c)
    ensures var d := c.(db := ObserveTx(c.db, w, saw)); ClaimsOk(d) && ClaimsGrow(c, d)
  {
    hide ClaimsOk;
    hide ClaimsGrow;
    hide ObserveTx;
    ObserveDrops(c.db, w, saw);
    DroppedOk(c, c.(db := ObserveTx(c.db, w, saw)), w);
  }

  lemma {:induction false} ObserveDrops(db: Db, w: WorkerId, saw: Sighting)
    ensures var d := ObserveTx(db, w, saw);
            && d.claimTokens == db.claimTokens && (d.claims == db.claims || d.claims == db.claims - {w})
            && (d.episodes == db.episodes || d.episodes == Bump(db.episodes, w))
            && (w in db.claims && db.claims[w].state.ClaimStarted? && w !in d.claims ==> d.episodes == Bump(db.episodes, w))
  {
    hide Bump;
    match saw
    case SawPrompt(_, _, _, _) =>
    case SawNone =>
    case SawInvalid =>
    case ReadFailed(_, _, _) =>
    case WorkerGone =>
  }

  lemma {:induction false} FinishClaimsOk(c: Core, rid: RequestId, canon: Canonical, token: nat, from: ReceiptState, terminal: ReceiptState,
                       env: Envelope, effect: Option<(nat, WorkerId)>)
    requires ClaimsOk(c)
    ensures var d := Committed(c, rid, FinishTx(c.db, c.now, rid, canon, token, from, terminal, env, effect).0);
            ClaimsOk(d) && ClaimsGrow(c, d)
  {
    FinishDrops(c.db, c.now, rid, canon, token, from, terminal, env, effect);
    hide FinishTx;
    hide ClaimsOk;
    hide ClaimsGrow;
    var d := Committed(c, rid, FinishTx(c.db, c.now, rid, canon, token, from, terminal, env, effect).0);
    var e := d.(hist := c.hist);
    DroppedOk(c, e, if effect.Some? then effect.value.1 else 0);
    SameClaimsOk(e, d);
    AsFar(c, e, d);
  }

  lemma {:induction false} AsFar(c: Core, e: Core, d: Core)
    requires ClaimsGrow(c, e) && d.db == e.db && d.now == e.now && d.hist.crossings == e.hist.crossings
    ensures ClaimsGrow(c, d)
  {
  }

  lemma {:induction false} FinishDrops(db: Db, now: nat, rid: RequestId, canon: Canonical, token: nat, from: ReceiptState, terminal: ReceiptState,
                                       env: Envelope, effect: Option<(nat, WorkerId)>)
    ensures var d := FinishTx(db, now, rid, canon, token, from, terminal, env, effect).0;
            && d.claimTokens == db.claimTokens
            && ((d.claims == db.claims && d.episodes == db.episodes)
                || (effect.Some? && d.claims == db.claims - {effect.value.1} && d.episodes == Bump(db.episodes, effect.value.1)))
  {
    hide Bump;
  }

  /** Crossing the boundary: the claim was held, so no crossing was ever made under it, and none in
      the question's current episode. */
  lemma {:induction false} CrossOk(c: Core, d: Core, x: Crossing, hold: Hold, fingerprint: Option<nat>)
    requires ClaimsOk(c) && StartClaimTx(c.db, c.now, hold.route.worker, hold.claim, fingerprint).1.Some?
    requires x.worker == hold.route.worker && x.claim == hold.claim && x.episode == EpisodeOf(c.db.episodes, x.worker)
    requires d == c.(db := StartClaimTx(c.db, c.now, hold.route.worker, hold.claim, fingerprint).0,
                     hist := c.hist.(crossings := c.hist.crossings + [x]))
    ensures ClaimsOk(d) && ClaimsGrow(c, d)
  {
    var n := |c.hist.crossings|;
    forall i | 0 <= i < |d.hist.crossings|
      ensures CrossingOk(d, d.hist.crossings[i]) && (i < n ==> CrossedApart(d.hist.crossings[i], x))
    {
      if i < n { assert CrossingOk(c, c.hist.crossings[i]); }
    }
    forall i, j | 0 <= i < j < |d.hist.crossings| ensures CrossedApart(d.hist.crossings[i], d.hist.crossings[j]) {
      if j < n { assert CrossedApart(c.hist.crossings[i], c.hist.crossings[j]); }
    }
    CrossedKept(c, d);
  }

  lemma {:induction false} CrossedKept(c: Core, d: Core)
    requires ClaimsOk(c) && c.hist.crossings <= d.hist.crossings && d.hist.sends == c.hist.sends
    ensures forall k :: 0 <= k < |d.hist.sends| && d.hist.sends[k].outcome.Typed? ==> Crossed(d, d.hist.sends[k])
  {
    forall k | 0 <= k < |d.hist.sends| && d.hist.sends[k].outcome.Typed? ensures Crossed(d, d.hist.sends[k]) {
      assert Crossed(c, c.hist.sends[k]);
      var i :| 0 <= i < |c.hist.crossings| && c.hist.crossings[i].token == d.hist.sends[k].token
               && c.hist.crossings[i].claim == d.hist.sends[k].outcome.claim;
      assert d.hist.crossings[i] == c.hist.crossings[i];
    }
  }

  // ----- Every step keeps it -----

  ghost predicate AnswerStepOk(c: Core, req: Request, pc: Pc, next: (Core, Pc)) {
    && ClaimsOk(next.0) && ClaimsGrow(c, next.0) && AnswerOwnerOk(next.0, req, next.1)
    && (HoldOf(next.1).Some? ==>
          HoldOf(pc) == HoldOf(next.1) || (HoldOf(pc).None? && HoldOf(next.1).value.claim >= c.db.claimTokens))
  }

  predicate SameDbClaims(db: Db, db': Db) {
    db'.claims == db.claims && db'.claimTokens == db.claimTokens && db'.episodes == db.episodes
  }

  lemma {:induction false} ReceiptTxKeepsClaims(c: Core, req: Request, canon: Canonical, token: nat, guard: Stored, st: ReceiptState, env: Envelope)
    ensures SameDbClaims(c.db, ReserveTx(c.db, c.now, req, canon).0)
    ensures SameDbClaims(c.db, QueueTx(c.db, c.now, req.rid, canon, token, env).0)
    ensures SameDbClaims(c.db, ConcludeTx(c.db, c.now, req.rid, canon, guard, env).0)
    ensures SameDbClaims(c.db, RecoverTx(c.db, c.now, req.rid, canon, guard, env).0)
    ensures forall proof :: SameDbClaims(c.db, ReplayTx(c.db, c.now, req.rid, canon, st, env, proof).0)
  {
  }

  /** Steps that touch neither claims nor the backend, and hold no claim before or after. */
  predicate AwayFromClaims(pc: Pc) {
    pc.Reading? || pc.Deciding? || pc.Replaying? || pc.Settling? || pc.Linking? || pc.Concluding? || pc.Recovering?
    || pc.Preparing? || pc.Reserving? || pc.Yielding? || pc.Queueing? || pc.Done?
  }

  ghost predicate StaysAway(c: Core, next: (Core, Pc)) {
    && SameClaims(c, next.0) && next.0.hist.sends == c.hist.sends && HoldOf(next.1).None?
    && !(next.1.Releasing? || next.1.Started? || next.1.Typing? || next.1.Dropping?)
  }

  lemma {:induction false} ConcludedAway(c: Core, req: Request, canon: Canonical, fault: Fault, tx: (Db, Reply), otherwise: Pc)
    requires SameDbClaims(c.db, tx.0) && (otherwise.Done? || otherwise == Rereading(canon, ThenReturn))
    ensures StaysAway(c, Concluded(c, req, canon, fault, tx, otherwise))
    ensures var pc := Concluded(c, req, canon, fault, tx, otherwise).1; pc.Done? || pc.Rereading?
  {
  }

  /** The steps that end in `Concluded`. */
  lemma {:induction false} TransactingAway(c: Core, req: Request, pc: Pc, ch: Choice)
    requires pc.Replaying? || pc.Concluding? || pc.Recovering? || pc.Queueing?
    ensures StaysAway(c, Advance(c, req, pc, ch))
    ensures Advance(c, req, pc, ch).1.Done? || Advance(c, req, pc, ch).1.Rereading?
  {
    match pc
    case Replaying(canon, seen, env) =>
      var (terminal, evidence) := ReplayEvidence(req, seen, env);
      ReceiptTxKeepsClaims(c, req, canon, 0, Opaque, terminal, evidence);
      ConcludedAway(c, req, canon, ch.fault, ReplayTx(c.db, c.now, req.rid, canon, terminal, evidence, seen.proof),
                    Rereading(canon, ThenReturn));
    case Concluding(canon, seen, env, verdict) =>
      ReceiptTxKeepsClaims(c, req, canon, 0, seen.result, Uncertain, verdict);
      ConcludedAway(c, req, canon, ch.fault, ConcludeTx(c.db, c.now, req.rid, canon, seen.result, verdict), Done(env, Some(seen.born)));
    case Recovering(canon, seen, env) =>
      ReceiptTxKeepsClaims(c, req, canon, 0, seen.result, Uncertain, RecoveredEnvelope(req));
      ConcludedAway(c, req, canon, ch.fault, RecoverTx(c.db, c.now, req.rid, canon, seen.result, RecoveredEnvelope(req)),
                    Done(env, Some(seen.born)));
    case Queueing(lease) =>
      ReceiptTxKeepsClaims(c, req, lease.canon, lease.token, Opaque, Uncertain, QueuedEnvelope(req));
      ConcludedAway(c, req, lease.canon, ch.fault, QueueTx(c.db, c.now, req.rid, lease.canon, lease.token, QueuedEnvelope(req)),
                    Rereading(lease.canon, ThenReturn));
  }

  lemma {:induction false} LocalAway(c: Core, req: Request, pc: Pc, ch: Choice)
    requires pc.Reading? || pc.Deciding? || pc.Settling? || pc.Linking? || pc.Preparing? || pc.Yielding? || pc.Done?
    ensures StaysAway(c, Advance(c, req, pc, ch))
    ensures var next := Advance(c, req, pc, ch).1;
            !next.Finishing? && !next.Marking? && !next.Claiming? && (next.Reserving? ==> pc.Preparing?)
  {
  }

  lemma {:induction false} ReservingAway(c: Core, req: Request, canon: Canonical, plan: Plan, ch: Choice)
    ensures StaysAway(c, StepReserving(c, req, canon, plan, ch))
  {
    ReceiptTxKeepsClaims(c, req, canon, 0, Opaque, Uncertain, InProgressEnvelope(req));
  }

  lemma {:induction false} AwayOk(c: Core, req: Request, pc: Pc, ch: Choice)
    requires ClaimsOk(c) && AnswerOwnerOk(c, req, pc) && AwayFromClaims(pc)
    ensures AnswerStepOk(c, req, pc, Advance(c, req, pc, ch))
  {
    hide ClaimsOk;
    if pc.Reserving? {
      ReservingAway(c, req, pc.canon, pc.plan, ch);
      PlansOk(c, req, pc.canon, pc.plan, ch);
    } else if pc.Replaying? || pc.Concluding? || pc.Recovering? || pc.Queueing? {
      TransactingAway(c, req, pc, ch);
    } else {
      LocalAway(c, req, pc, ch);
      if pc.Preparing? { PreparedOk(c, req, pc.takeover, ch); }
    }
    SameClaimsOk(c, Advance(c, req, pc, ch).0);
  }

  lemma {:induction false} PreparedOk(c: Core, req: Request, takeover: Option<WorkerId>, ch: Choice)
    ensures var next := StepPreparing(c, req, takeover, ch).1;
            next.Reserving? ==> (next.plan.Prompt? ==> req.action.SendInstruction?) && (next.plan.Answer? ==> !req.action.SendInstruction?)
  {
  }

  lemma {:induction false} PlansOk(c: Core, req: Request, canon: Canonical, plan: Plan, ch: Choice)
    requires (plan.Prompt? ==> req.action.SendInstruction?) && (plan.Answer? ==> !req.action.SendInstruction?)
    ensures var next := StepReserving(c, req, canon, plan, ch).1;
            && (next.Marking? ==> next.held.None? && req.action.SendInstruction?)
            && (next.Claiming? ==> !req.action.SendInstruction?)
            && (next.Finishing? ==> !next.terminal.Accepted?)
            && !next.Reserving?
  {
  }

  lemma {:induction false} MarkingStepOk(c: Core, req: Request, lease: Lease, held: Option<Hold>, ch: Choice)
    requires ClaimsOk(c) && AnswerOwnerOk(c, req, Marking(lease, held)) && NoStart(c, lease.token)
    ensures AnswerStepOk(c, req, Marking(lease, held), StepMarking(c, req, lease, held, ch))
  {
    hide ClaimsOk;
    var next := StepMarking(c, req, lease, held, ch);
    assert next.0 == c || next.0 == Marked(c, req, lease);
    MarkedSame(c, req, lease);
    SameClaimsOk(c, c);
    SameClaimsOk(c, Marked(c, req, lease));
  }

  lemma {:induction false} MarkedSame(c: Core, req: Request, lease: Lease)
    ensures SameClaims(c, Marked(c, req, lease)) && Marked(c, req, lease).hist.sends == c.hist.sends
    ensures c.hist.starts <= Marked(c, req, lease).hist.starts
    ensures forall i :: |c.hist.starts| <= i < |Marked(c, req, lease).hist.starts| ==> Marked(c, req, lease).hist.starts[i].at == c.now
  {
  }

  lemma {:induction false} RereadingStepOk(c: Core, req: Request, canon: Canonical, after: After, ch: Choice)
    requires ClaimsOk(c) && AnswerOwnerOk(c, req, Rereading(canon, after))
    ensures AnswerStepOk(c, req, Rereading(canon, after), StepRereading(c, req, canon, after, ch))
  {
    SameClaimsOk(c, c);
  }

  lemma {:induction false} ClaimingStepOk(c: Core, req: Request, lease: Lease, route: Route, ch: Choice)
    requires ClaimsOk(c) && AnswerOwnerOk(c, req, Claiming(lease, route))
    ensures AnswerStepOk(c, req, Claiming(lease, route), StepClaiming(c, req, lease, route, ch))
  {
    ClaimTxOk(c, lease.canon.worker, lease.canon.body, ch.fingerprint);
    SameClaimsOk(c, c);
    hide ClaimsOk;
    hide ClaimTx;
    hide ClaimsGrow;
  }

  lemma {:induction false} ReleasingStepOk(c: Core, req: Request, lease: Lease, hold: Hold, env: Envelope, born: Option<nat>, ch: Choice)
    requires ClaimsOk(c) && AnswerOwnerOk(c, req, Releasing(lease, hold, env, born))
    ensures AnswerStepOk(c, req, Releasing(lease, hold, env, born), StepReleasing(c, req, lease, hold, env, born, ch))
  {
    ReleaseOk(c, hold.route.worker, hold.claim);
    SameClaimsOk(c, c);
  }

  lemma {:induction false} DroppingStepOk(c: Core, req: Request, lease: Lease, hold: Hold, ch: Choice)
    requires ClaimsOk(c) && AnswerOwnerOk(c, req, Dropping(lease, hold))
    ensures AnswerStepOk(c, req, Dropping(lease, hold), StepDropping(c, req, lease, hold, ch))
  {
    ReleaseOk(c, hold.route.worker, hold.claim);
    SameClaimsOk(c, c);
  }

  lemma {:induction false} PromptingStepOk(c: Core, req: Request, lease: Lease, ch: Choice)
    requires ClaimsOk(c) && AnswerOwnerOk(c, req, Started(lease, None))
    ensures AnswerStepOk(c, req, Started(lease, None), StepPrompting(c, req, lease, ch))
  {
    hide ClaimsOk;
    PromptedOk(c, req, lease, ch.reply);
    assert StepPrompting(c, req, lease, ch).0 == Sent(c, req, lease, Prompted(ch.reply));
  }

  lemma {:induction false} PromptedOk(c: Core, req: Request, lease: Lease, reply: Verdict)
    requires ClaimsOk(c)
    ensures ClaimsOk(Sent(c, req, lease, Prompted(reply))) && ClaimsGrow(c, Sent(c, req, lease, Prompted(reply)))
  {
    var d := Sent(c, req, lease, Prompted(reply));
    forall k | 0 <= k < |d.hist.sends| && d.hist.sends[k].outcome.Typed? ensures Crossed(d, d.hist.sends[k]) {
      assert Crossed(c, c.hist.sends[k]);
    }
  }

  lemma {:induction false} TypingStepOk(c: Core, req: Request, lease: Lease, hold: Hold, ch: Choice)
    requires ClaimsOk(c) && AnswerOwnerOk(c, req, Typing(lease, hold))
    ensures AnswerStepOk(c, req, Typing(lease, hold), StepTyping(c, req, lease, hold, ch))
  {
    var d := Sent(c, req, lease, Typed(hold.claim, ch.typed));
    var n := |c.hist.sends|;
    forall k | 0 <= k < |d.hist.sends| && d.hist.sends[k].outcome.Typed? ensures Crossed(d, d.hist.sends[k]) {
      if k < n { assert Crossed(c, c.hist.sends[k]); }
      else {
        var i :| 0 <= i < |c.hist.crossings| && c.hist.crossings[i].token == lease.token && c.hist.crossings[i].claim == hold.claim;
        assert d.hist.crossings[i].claim == d.hist.sends[k].outcome.claim;
      }
    }
    assert ClaimsOk(d);
  }

  lemma {:induction false} CrossingStepOk(c: Core, req: Request, lease: Lease, hold: Hold, ch: Choice)
    requires ClaimsOk(c) && AnswerOwnerOk(c, req, Started(lease, Some(hold)))
    ensures AnswerStepOk(c, req, Started(lease, Some(hold)), StepCrossing(c, req, lease, hold, ch))
  {
    hide ClaimsOk;
    var next := StepCrossing(c, req, lease, hold, ch);
    var (db', route) := StartClaimTx(c.db, c.now, hold.route.worker, hold.claim, ch.fingerprint);
    assert next.1 == Typing(lease, hold) || next.1 == Dropping(lease, hold);
    if ch.fault.RaisedBefore? {
      SameClaimsOk(c, c);
      assert next == (c, Dropping(lease, hold));
    } else if route.Some? {
      CrossedOk(c, req, lease, hold, ch.fingerprint);
      assert next.0 == CrossedInto(c, req, lease, hold, ch.fingerprint);
    } else {
      NotCrossedOk(c, hold.route.worker, hold.claim, ch.fingerprint);
      assert next == (c.(db := db'), Dropping(lease, hold));
    }
  }

  /** The state just after the boundary was crossed. */
  function CrossedInto(c: Core, req: Request, lease: Lease, hold: Hold, fingerprint: Option<nat>): Core {
    var worker := hold.route.worker;
    c.(db := StartClaimTx(c.db, c.now, worker, hold.claim, fingerprint).0,
       hist := c.hist.(crossings := c.hist.crossings +
         [Crossing(worker, hold.revision, EpisodeOf(c.db.episodes, worker), hold.claim, req.rid, lease.token, lease.born, c.now)]))
  }

  lemma {:induction false} CrossedOk(c: Core, req: Request, lease: Lease, hold: Hold, fingerprint: Option<nat>)
    requires ClaimsOk(c) && StartClaimTx(c.db, c.now, hold.route.worker, hold.claim, fingerprint).1.Some?
    ensures var d := CrossedInto(c, req, lease, hold, fingerprint);
            ClaimsOk(d) && ClaimsGrow(c, d) && CrossedUnder(d, lease, hold)
  {
    var d := CrossedInto(c, req, lease, hold, fingerprint);
    var x := d.hist.crossings[|c.hist.crossings|];
    CrossOk(c, d, x, hold, fingerprint);
  }

  lemma {:induction false} NotCrossedOk(c: Core, worker: WorkerId, claim: nat, fingerprint: Option<nat>)
    requires ClaimsOk(c) && StartClaimTx(c.db, c.now, worker, claim, fingerprint).1.None?
    ensures var d := c.(db := StartClaimTx(c.db, c.now, worker, claim, fingerprint).0); ClaimsOk(d) && ClaimsGrow(c, d)
  {
    DroppedOk(c, c.(db := StartClaimTx(c.db, c.now, worker, claim, fingerprint).0), worker);
  }

  lemma {:induction false} FinishingStepOk(c: Core, req: Request, lease: Lease, from: ReceiptState, terminal: ReceiptState, env: Envelope,
                        effect: Option<(nat, WorkerId)>, ch: Choice)
    requires ClaimsOk(c)
    ensures AnswerStepOk(c, req, Finishing(lease, from, terminal, env, effect),
                         StepFinishing(c, req, lease, from, terminal, env, effect, ch))
  {
    FinishClaimsOk(c, req.rid, lease.canon, lease.token, from, terminal, env, effect);
    SameClaimsOk(c, c);
  }

  lemma {:induction false} AnswerAdvanceOk(c: Core, req: Request, pc: Pc, ch: Choice)
    requires ClaimsOk(c) && AnswerOwnerOk(c, req, pc) && ProcOk(c, req, pc)
    ensures AnswerStepOk(c, req, pc, Advance(c, req, pc, ch))
  {
    match pc
    case Claiming(lease, route) => ClaimingStepOk(c, req, lease, route, ch);
    case Marking(lease, held) => MarkingStepOk(c, req, lease, held, ch);
    case Releasing(lease, hold, env, born) => ReleasingStepOk(c, req, lease, hold, env, born, ch);
    case Started(lease, None) => PromptingStepOk(c, req, lease, ch);
    case Started(lease, Some(hold)) => CrossingStepOk(c, req, lease, hold, ch);
    case Typing(lease, hold) => TypingStepOk(c, req, lease, hold, ch);
    case Dropping(lease, hold) => DroppingStepOk(c, req, lease, hold, ch);
    case Finishing(lease, from, terminal, env, effect) => FinishingStepOk(c, req, lease, from, terminal, env, effect, ch);
    case Rereading(canon, after) => RereadingStepOk(c, req, canon, after, ch);
    case _ => AwayOk(c, req, pc, ch);
  }

  /** No other party can break what an answering submitter relies on. */
  lemma {:induction false} AnswerOwnerStable(c: Core, d: Core, t: Option<nat>, req: Request, pc: Pc)
    requires ClaimsGrow(c, d) && Grows(c, d, t) && AnswerOwnerOk(c, req, pc)
    requires LeaseOf(pc).Some? ==> t != Some(LeaseOf(pc).value.token)
    ensures AnswerOwnerOk(d, req, pc)
  {
    if pc.Typing? {
      var i :| 0 <= i < |c.hist.crossings| && c.hist.crossings[i].token == pc.lease.token && c.hist.crossings[i].claim == pc.hold.claim;
      assert d.hist.crossings[i] == c.hist.crossings[i];
    }
    if pc.Started? && pc.held.Some? {
      forall i | 0 <= i < |d.hist.starts| && d.hist.starts[i].token == pc.lease.token
        ensures pc.held.value.claimedAt <= d.hist.starts[i].at
      {
        if i < |c.hist.starts| { assert d.hist.starts[i] == c.hist.starts[i]; }
      }
    }
  }

  lemma {:induction false} BystandersOk(s: System, d: Core, t: Option<nat>)
    requires AnswersOk(s) && ClaimsOk(d) && ClaimsGrow(s.core, d) && Grows(s.core, d, t)
    requires forall pid :: pid in s.procs && LeaseOf(s.procs[pid].pc).Some? ==> Some(LeaseOf(s.procs[pid].pc).value.token) != t
    ensures AnswersOk(System(d, s.procs))
  {
    forall pid | pid in s.procs ensures AnswerOwnerOk(d, s.procs[pid].req, s.procs[pid].pc) {
      AnswerOwnerStable(s.core, d, t, s.procs[pid].req, s.procs[pid].pc);
    }
  }

  lemma {:induction false} AnswerGoOk(s: System, pid: nat, ch: Choice)
    requires SystemOk(s) && AnswersOk(s) && pid in s.procs
    ensures AnswersOk(Step(s, Go(pid, ch)))
  {
    var p := s.procs[pid];
    var t := Acting(s.core, p.pc);
    AdvanceOk(s.core, p.req, p.pc, ch);
    AnswerAdvanceOk(s.core, p.req, p.pc, ch);
    var (d, pc) := Advance(s.core, p.req, p.pc, ch);
    hide Advance;
    hide CoreOk;
    hide ClaimsOk;
    hide ClaimsGrow;
    hide Grows;
    hide AnswerOwnerOk;
    hide HoldOf;
    forall q | q in s.procs && q != pid
      ensures AnswerOwnerOk(d, s.procs[q].req, s.procs[q].pc)
      ensures HoldOf(pc).Some? && HoldOf(s.procs[q].pc).Some? ==> HoldOf(pc).value.claim != HoldOf(s.procs[q].pc).value.claim
    {
      assert ProcOk(s.core, s.procs[q].req, s.procs[q].pc);
      assert AnswerOwnerOk(s.core, s.procs[q].req, s.procs[q].pc);
      AnswerOwnerStable(s.core, d, t, s.procs[q].req, s.procs[q].pc);
    }
  }

  lemma {:induction false} QuietOk(s: System, d: Core)
    requires SystemOk(s) && AnswersOk(s) && SameClaims(s.core, d) && d.hist.sends == s.core.hist.sends && Grows(s.core, d, None)
    ensures AnswersOk(System(d, s.procs))
  {
    SameClaimsOk(s.core, d);
    BystandersOk(s, d, None);
  }

  lemma {:induction false} AnswersAreOk(s: System)
    requires AnswersOk(s)
    ensures ClaimsOk(s.core)
  {
  }

  lemma {:induction false} AnswerSightOk(s: System, w: WorkerId, saw: Sighting)
    requires SystemOk(s) && AnswersOk(s)
    ensures AnswersOk(Step(s, Sight(w, saw)))
  {
    hide CoreOk;
    hide SystemOk;
    hide AnswersOk;
    hide Grows;
    hide ObserveTx;
    assert CoreOk(s.core) by { SystemIsOk(s); }
    var d := s.core.(db := ObserveTx(s.core.db, w, saw));
    ObserveKeepsReceipts(s.core, w, saw);
    SameReceiptsOk(s.core, d, None);
    assert ClaimsOk(s.core) by { AnswersAreOk(s); }
    ObserveOk(s.core, w, saw);
    BystandersOk(s, d, None);
  }

  lemma {:induction false} AnswerSystemOk(s: System, act: Act)
    requires SystemOk(s) && AnswersOk(s)
    ensures AnswersOk(Step(s, act))
  {
    match act
    case Tick(n) => AnswerTickOk(s, n);
    case Enter(pid, req) =>
    case Go(pid, ch) => if pid in s.procs { AnswerGoOk(s, pid, ch); }
    case Sweep(rid, outcome) => AnswerSweepOk(s, rid, outcome);
    case Maintain(rid) => AnswerMaintainOk(s, rid);
    case Sight(w, saw) => AnswerSightOk(s, w, saw);
  }

  lemma {:induction false} AnswerTickOk(s: System, n: nat)
    requires SystemOk(s) && AnswersOk(s)
    ensures AnswersOk(Step(s, Tick(n)))
  {
    hide CoreOk;
    hide SystemOk;
    hide AnswersOk;
    hide Grows;
    assert CoreOk(s.core) by { SystemIsOk(s); }
    TickOk(s.core, n, None);
    QuietOk(s, s.core.(now := s.core.now + n));
  }

  lemma {:induction false} AnswerSweepOk(s: System, rid: RequestId, outcome: LinkOutcome)
    requires SystemOk(s) && AnswersOk(s)
    ensures AnswersOk(Step(s, Sweep(rid, outcome)))
  {
    hide CoreOk;
    hide SystemOk;
    hide AnswersOk;
    hide Grows;
    assert CoreOk(s.core) by { SystemIsOk(s); }
    SettleOk(s.core, rid, outcome, None);
    QuietOk(s, s.core.(db := SettleTx(s.core.db, s.core.now, rid, outcome)));
  }

  lemma {:induction false} AnswerMaintainOk(s: System, rid: RequestId)
    requires SystemOk(s) && AnswersOk(s)
    ensures AnswersOk(Step(s, Maintain(rid)))
  {
    hide CoreOk;
    hide SystemOk;
    hide AnswersOk;
    hide Grows;
    hide Deletable;
    assert CoreOk(s.core) by { SystemIsOk(s); }
    MaintainOk(s.core, rid, None);
    QuietOk(s, Committed(s.core, rid, MaintainTx(s.core.db, s.core.now, s.core.policy, rid)));
  }

  lemma {:induction false} AnswersRunOk(policy: Policy, acts: seq<Act>)
    requires ValidPolicy(policy)
    ensures SystemOk(Run(Initial(policy), acts)) && AnswersOk(Run(Initial(policy), acts))
    decreases |acts|
  {
    RunOk(policy, acts);
    if acts != [] {
      AnswersRunOk(policy, acts[..|acts| - 1]);
      AnswerSystemOk(Run(Initial(policy), acts[..|acts| - 1]), acts[|acts| - 1]);
    }
  }
}
