/** What every run keeps of a worker's pending question: one pane input per question, under both
    rows, and the accepted receipt and the answered question in one step. */
module AnswerTheorems {
  import opened Options
  import opened Envelopes
  import opened CommandStore
  import opened Submission
  import opened SubmissionInvariant
  import opened SubmissionSteps
  import opened SubmissionTheorems
  import opened PendingAnswers
  import opened SendTenure

  // ----- One input per question -----

  /** However many requests compete, the pane-input boundary is crossed at most once in each episode
      of a worker's question and at most once under each claim, and input is typed at most once
      under each crossing, by the submitter that crossed. */
  lemma {:induction false} AtMostOneInputPerQuestion(policy: Policy, acts: seq<Act>)
    requires ValidPolicy(policy)
    ensures var h := Run(Initial(policy), acts).core.hist;
            && (forall i, j :: 0 <= i < j < |h.crossings| ==>
                  h.crossings[i].claim != h.crossings[j].claim
                  && (h.crossings[i].worker == h.crossings[j].worker ==> h.crossings[i].episode < h.crossings[j].episode))
            && (forall k, l :: 0 <= k < l < |h.sends| && h.sends[k].outcome.Typed? && h.sends[l].outcome.Typed? ==>
                  h.sends[k].outcome.claim != h.sends[l].outcome.claim)
            && (forall k :: 0 <= k < |h.sends| && h.sends[k].outcome.Typed? ==>
                  Crossed(Run(Initial(policy), acts).core, h.sends[k]))
  {
    AnswersRunOk(policy, acts);
    var c := Run(Initial(policy), acts).core;
    forall i, j | 0 <= i < j < |c.hist.crossings|
      ensures c.hist.crossings[i].claim != c.hist.crossings[j].claim
              && (c.hist.crossings[i].worker == c.hist.crossings[j].worker ==> c.hist.crossings[i].episode < c.hist.crossings[j].episode)
    {
      assert CrossedApart(c.hist.crossings[i], c.hist.crossings[j]);
    }
    forall k, l | 0 <= k < l < |c.hist.sends| && c.hist.sends[k].outcome.Typed? && c.hist.sends[l].outcome.Typed?
      ensures c.hist.sends[k].outcome.claim != c.hist.sends[l].outcome.claim
    {
      TypedApart(c, k, l);
    }
  }

  lemma {:induction false} TypedApart(c: Core, k: nat, l: nat)
    requires CoreOk(c) && ClaimsOk(c) && k < l < |c.hist.sends| && c.hist.sends[k].outcome.Typed? && c.hist.sends[l].outcome.Typed?
    ensures c.hist.sends[k].outcome.claim != c.hist.sends[l].outcome.claim
  {
    assert Crossed(c, c.hist.sends[k]) && Crossed(c, c.hist.sends[l]);
    var i :| 0 <= i < |c.hist.crossings| && c.hist.crossings[i].token == c.hist.sends[k].token
             && c.hist.crossings[i].claim == c.hist.sends[k].outcome.claim;
    var j :| 0 <= j < |c.hist.crossings| && c.hist.crossings[j].token == c.hist.sends[l].token
             && c.hist.crossings[j].claim == c.hist.sends[l].outcome.claim;
    if i < j { assert CrossedApart(c.hist.crossings[i], c.hist.crossings[j]); }
    else if j < i { assert CrossedApart(c.hist.crossings[j], c.hist.crossings[i]); }
  }

  predicate SameQuestion(db: Db, w: WorkerId, saw: Sighting)
    requires saw.SawPrompt?
  {
    && w in db.pending && (db.pending[w].seen.ObservedOpen? || db.pending[w].seen.ObservedFailed?)
    && db.pending[w].revision == saw.revision
    && (w in db.claims ==> db.claims[w].revision == saw.revision && db.claims[w].route.binding == saw.binding
                           && db.claims[w].route.pane == saw.pane)
  }

  /** The act sees w's question closed or replaced, or commits an answer to it. */
  predicate Closes(s: System, act: Act, w: WorkerId) {
    || (act.Sight? && act.worker == w && !act.saw.ReadFailed? && (act.saw.SawPrompt? ==> !SameQuestion(s.core.db, w, act.saw)))
    || (act.Go? && act.pid in s.procs && s.procs[act.pid].pc.Finishing?
        && s.procs[act.pid].pc.effect.Some? && s.procs[act.pid].pc.effect.value.1 == w)
  }

  /** An episode of w's question ends only at an authoritative observation of w that closes or
      replaces the question, or at the step that commits an answer to it. */
  lemma {:induction false} EpisodesEndOnlyByClosing(s: System, act: Act, w: WorkerId)
    requires EpisodeOf(Step(s, act).core.db.episodes, w) != EpisodeOf(s.core.db.episodes, w)
    ensures Closes(s, act, w)
  {
    match act
    case Go(pid, ch) => if pid in s.procs { AdvanceEpisodes(s.core, s.procs[pid].req, s.procs[pid].pc, ch, w); }
    case Sight(v, saw) => SightEpisodes(s.core.db, v, saw, w);
    case _ =>
  }

  lemma {:induction false} SightEpisodes(db: Db, v: WorkerId, saw: Sighting, w: WorkerId)
    requires EpisodeOf(ObserveTx(db, v, saw).episodes, w) != EpisodeOf(db.episodes, w)
    ensures v == w && !saw.ReadFailed? && (saw.SawPrompt? ==> !SameQuestion(db, w, saw))
  {
  }

  lemma {:induction false} AdvanceEpisodes(c: Core, req: Request, pc: Pc, ch: Choice, w: WorkerId)
    requires EpisodeOf(Advance(c, req, pc, ch).0.db.episodes, w) != EpisodeOf(c.db.episodes, w)
    ensures pc.Finishing? && pc.effect.Some? && pc.effect.value.1 == w
  {
    hide EpisodeOf;
    match pc
    case Finishing(lease, from, terminal, env, effect) => FinishEpisodes(c, req, pc, ch, w);
    case Reserving(canon, plan) => ReservingAway(c, req, canon, plan, ch);
    case Marking(lease, held) => MarkedSame(c, req, lease);
    case Replaying(_, _, _) => TransactingAway(c, req, pc, ch);
    case Concluding(_, _, _, _) => TransactingAway(c, req, pc, ch);
    case Recovering(_, _, _) => TransactingAway(c, req, pc, ch);
    case Queueing(_) => TransactingAway(c, req, pc, ch);
    case _ => OtherEpisodes(c, req, pc, ch);
  }

  lemma {:induction false} OtherEpisodes(c: Core, req: Request, pc: Pc, ch: Choice)
    requires !(pc.Finishing? || pc.Reserving? || pc.Marking? || pc.Replaying? || pc.Concluding? || pc.Recovering? || pc.Queueing?)
    ensures Advance(c, req, pc, ch).0.db.episodes == c.db.episodes
  {
  }

  lemma {:induction false} FinishEpisodes(c: Core, req: Request, pc: Pc, ch: Choice, w: WorkerId)
    requires pc.Finishing? && EpisodeOf(Advance(c, req, pc, ch).0.db.episodes, w) != EpisodeOf(c.db.episodes, w)
    ensures pc.effect.Some? && pc.effect.value.1 == w
  {
    var tx := FinishTx(c.db, c.now, req.rid, pc.lease.canon, pc.lease.token, pc.from, pc.terminal, pc.env, pc.effect);
    assert EpisodeOf(tx.0.episodes, w) != EpisodeOf(c.db.episodes, w) ==> pc.effect.Some? && pc.effect.value.1 == w;
    hide FinishTx;
    hide EnvelopeFromReceipt;
    assert Advance(c, req, pc, ch).0.db == c.db || Advance(c, req, pc, ch).0.db == tx.0;
  }

  // ----- Both rows at the boundary -----

  /** When a submitter crosses into pane input, the claim is its own, live until that step and for
      the exact route it was granted, the question is still the one claimed, lists the claimed body with
      the claimed selection, the worker is still the claimed one by its fingerprint, and its receipt is in
      `send_started` under its own token, or else its owner's lease has run out or the retry horizon
      has passed and the receipt is at worst uncertain. */
  lemma {:induction false} InputNeedsBothRows(policy: Policy, acts: seq<Act>, pid: nat, ch: Choice)
    requires ValidPolicy(policy)
    requires var s := Run(Initial(policy), acts);
             && pid in s.procs && s.procs[pid].pc.Started? && s.procs[pid].pc.held.Some?
             && Step(s, Go(pid, ch)).core.hist.crossings != s.core.hist.crossings
    ensures var s := Run(Initial(policy), acts);
            var (req, lease, hold) := (s.procs[pid].req, s.procs[pid].pc.lease, s.procs[pid].pc.held.value);
            && BothRows(s.core, req, lease, hold) && SameRoute(s.core, lease, hold, ch.fingerprint)
            && var d := Step(s, Go(pid, ch)).core;
               && d.db.claims[lease.canon.worker] == s.core.db.claims[lease.canon.worker].(state := ClaimStarted)
               && d.hist.crossings == s.core.hist.crossings
                    + [Crossing(lease.canon.worker, hold.revision, EpisodeOf(s.core.db.episodes, lease.canon.worker), hold.claim,
                                req.rid, lease.token, lease.born, s.core.now)]
  {
    AnswersRunOk(policy, acts);
    var s := Run(Initial(policy), acts);
    var p := s.procs[pid];
    var i := CallsUnderOwnStart(policy, acts, pid);
    RunPolicy(policy, acts);
    assert AnswerOwnerOk(s.core, p.req, p.pc);
    ClaimAtCrossing(s.core, p.req, p.pc.lease, p.pc.held.value, ch);
    assert s.core.now <= s.core.hist.starts[i].at + policy.retention;
    assert s.core.hist.starts[i].token == p.pc.lease.token;
  }

  /** What is known now is the route that was claimed: the worker's fingerprint, the question with its binding
      and pane, and the selection that it lists for the body. */
  predicate SameRoute(c: Core, lease: Lease, hold: Hold, fingerprint: Option<nat>) {
    var w := lease.canon.worker;
    && fingerprint == Some(hold.route.fingerprint)
    && w in c.db.pending && c.db.pending[w].seen.ObservedOpen? && c.db.pending[w].current
    && c.db.pending[w].revision == hold.revision && c.db.pending[w].binding == hold.route.binding
    && c.db.pending[w].pane == hold.route.pane
    && lease.canon.body in c.db.pending[w].options && c.db.pending[w].options[lease.canon.body] == hold.route.selection
  }

  /** The submitter's claim stands, held and live. */
  predicate ClaimStands(c: Core, lease: Lease, hold: Hold) {
    var w := lease.canon.worker;
    && w in c.db.claims && c.db.claims[w].token == hold.claim && c.db.claims[w].state.ClaimHeld?
    && c.now < c.db.claims[w].claimedAt + CLAIM_LEASE
  }

  /** Input begins exactly then: when the call does not fail beforehand, the claim stands, and everything is
      still as it was claimed. Otherwise nothing is typed: no input and no send is recorded, and the answer
      goes on to be finished as uncertain. */
  lemma {:induction false} InputBeginsExactlyOnSameRoute(policy: Policy, acts: seq<Act>, pid: nat, ch: Choice)
    requires ValidPolicy(policy)
    requires var s := Run(Initial(policy), acts); pid in s.procs && s.procs[pid].pc.Started? && s.procs[pid].pc.held.Some?
    ensures var s := Run(Initial(policy), acts);
            var (req, lease, hold) := (s.procs[pid].req, s.procs[pid].pc.lease, s.procs[pid].pc.held.value);
            var t := Step(s, Go(pid, ch));
            var begins := !ch.fault.RaisedBefore? && ClaimStands(s.core, lease, hold) && SameRoute(s.core, lease, hold, ch.fingerprint);
            && (t.core.hist.crossings != s.core.hist.crossings <==> begins)
            && t.core.hist.sends == s.core.hist.sends
            && t.procs[pid].pc == (if begins && ch.fault.NoFault? then Typing(lease, hold) else Dropping(lease, hold))
  {
    AnswersRunOk(policy, acts);
    var s := Run(Initial(policy), acts);
    assert AnswerOwnerOk(s.core, s.procs[pid].req, s.procs[pid].pc);
    hide AnswersOk;
    hide SystemOk;
    CrossingExactly(s.core, s.procs[pid].req, s.procs[pid].pc.lease, s.procs[pid].pc.held.value, ch);
  }

  lemma {:induction false} CrossingExactly(c: Core, req: Request, lease: Lease, hold: Hold, ch: Choice)
    requires HoldOk(c, lease, hold)
    ensures var (d, next) := StepCrossing(c, req, lease, hold, ch);
            var begins := !ch.fault.RaisedBefore? && ClaimStands(c, lease, hold) && SameRoute(c, lease, hold, ch.fingerprint);
            && (d.hist.crossings != c.hist.crossings <==> begins) && d.hist.sends == c.hist.sends
            && next == (if begins && ch.fault.NoFault? then Typing(lease, hold) else Dropping(lease, hold))
  {
  }

  ghost predicate BothRows(c: Core, req: Request, lease: Lease, hold: Hold) {
    var w := lease.canon.worker;
    && w in c.db.claims && c.db.claims[w].token == hold.claim && c.db.claims[w].state.ClaimHeld?
    && c.db.claims[w].route == hold.route && c.now < c.db.claims[w].claimedAt + CLAIM_LEASE
    && w in c.db.pending && c.db.pending[w].seen.ObservedOpen? && c.db.pending[w].current
    && c.db.pending[w].revision == hold.revision && c.db.pending[w].binding == hold.route.binding
    && c.db.pending[w].pane == hold.route.pane
    && req.rid in c.db.receipts && c.db.receipts[req.rid].born == lease.born
    && (exists i :: 0 <= i < |c.hist.starts| && c.hist.starts[i].token == lease.token
          && (if c.now < c.hist.starts[i].until && c.now <= c.hist.starts[i].at + c.policy.horizon
              then c.db.receipts[req.rid].state.SendStarted? && c.db.receipts[req.rid].owner == Some(lease.token)
              else c.db.receipts[req.rid].state.SendStarted? || c.db.receipts[req.rid].state.Uncertain?))
  }

  lemma {:induction false} ClaimAtCrossing(c: Core, req: Request, lease: Lease, hold: Hold, ch: Choice)
    requires HoldOk(c, lease, hold) && StepCrossing(c, req, lease, hold, ch).0.hist.crossings != c.hist.crossings
    ensures var w := lease.canon.worker;
            && StartClaimTx(c.db, c.now, w, hold.claim, ch.fingerprint).1.Some?
            && w in c.db.claims && c.db.claims[w].token == hold.claim && c.db.claims[w].state.ClaimHeld?
            && c.db.claims[w].route == hold.route && c.now < c.db.claims[w].claimedAt + CLAIM_LEASE
            && c.db.claims[w].claimedAt == hold.claimedAt
            && w in c.db.pending && c.db.pending[w].seen.ObservedOpen? && c.db.pending[w].current
            && c.db.pending[w].revision == hold.revision && c.db.pending[w].binding == hold.route.binding
            && c.db.pending[w].pane == hold.route.pane && SameRoute(c, lease, hold, ch.fingerprint)
            && StepCrossing(c, req, lease, hold, ch).0 == CrossedInto(c, req, lease, hold, ch.fingerprint)
  {
  }

  // ----- Accepted receipt and answered question -----

  predicate NewlyAccepted(db: Db, db': Db, rid: RequestId) {
    rid in db'.receipts && db'.receipts[rid].state.Accepted? && (rid in db.receipts ==> !db.receipts[rid].state.Accepted?)
  }

  /** The started claim goes, the question it named is recorded as answered, its episode ends. */
  predicate AnswerClosed(db: Db, db': Db, w: WorkerId) {
    && w in db.claims && db.claims[w].state.ClaimStarted? && w in db.pending
    && db.pending[w].revision == db.claims[w].revision
    && w !in db'.claims && w in db'.pending && db'.pending[w].seen.ObservedNone? && db'.pending[w].options == map[]
    && EpisodeOf(db'.episodes, w) == EpisodeOf(db.episodes, w) + 1
  }

  /** A receipt of an answer becomes accepted only in a step that also closes the very question it
      answered. */
  lemma {:induction false} AnswerAcceptanceIsAtomic(policy: Policy, acts: seq<Act>, act: Act, rid: RequestId)
    requires ValidPolicy(policy)
    requires var (db, db') := (Run(Initial(policy), acts).core.db, Step(Run(Initial(policy), acts), act).core.db);
             NewlyAccepted(db, db', rid) && !db'.receipts[rid].canon.action.SendInstruction?
    ensures var (db, db') := (Run(Initial(policy), acts).core.db, Step(Run(Initial(policy), acts), act).core.db);
            && rid in db.receipts && db.receipts[rid].state.SendStarted?
            && AnswerClosed(db, db', db'.receipts[rid].canon.worker)
  {
    AnswersRunOk(policy, acts);
    var s := Run(Initial(policy), acts);
    OnlySubmittersAccept(s, act, rid);
    var p := s.procs[act.pid];
    assert ProcOk(s.core, p.req, p.pc) && AnswerOwnerOk(s.core, p.req, p.pc);
    AdvanceClosesAnswer(s.core, p.req, p.pc, act.choice, rid);
  }

  lemma {:induction false} OnlySubmittersAccept(s: System, act: Act, rid: RequestId)
    requires NewlyAccepted(s.core.db, Step(s, act).core.db, rid)
    ensures act.Go? && act.pid in s.procs
  {
  }

  lemma {:induction false} AdvanceClosesAnswer(c: Core, req: Request, pc: Pc, ch: Choice, rid: RequestId)
    requires CoreOk(c) && ProcOk(c, req, pc) && AnswerOwnerOk(c, req, pc)
    requires NewlyAccepted(c.db, Advance(c, req, pc, ch).0.db, rid)
    requires !Advance(c, req, pc, ch).0.db.receipts[rid].canon.action.SendInstruction?
    ensures var db' := Advance(c, req, pc, ch).0.db;
            && rid in c.db.receipts && c.db.receipts[rid].state.SendStarted?
            && AnswerClosed(c.db, db', db'.receipts[rid].canon.worker)
  {
    hide CoreOk;
    match pc
    case Concluding(canon, seen, env, verdict) =>
      if verdict.ok { QueuedNeverConcludes(c, req.rid, canon, seen, verdict); }
      ConcludesUncertain(c, req, pc, ch, rid);
    case Replaying(_, _, _) => ReplaysNothingAccepted(c, req, pc, ch, rid);
    case Finishing(_, _, _, _, _) => AcceptanceCloses(c, req, pc, ch, rid);
    case Reserving(canon, plan) => ReservesNothingAccepted(c, req, pc, ch, rid);
    case Recovering(canon, seen, env) => RecoversNothingAccepted(c, req, pc, ch, rid);
    case _ => OthersAcceptNothing(c, req, pc, ch, rid);
  }

  lemma {:induction false} ConcludesUncertain(c: Core, req: Request, pc: Pc, ch: Choice, rid: RequestId)
    requires pc.Concluding?
    requires pc.verdict.ok ==> FinishQueuedTx(c.db, c.now, req.rid, pc.canon, pc.seen.result, pc.verdict).0 == c.db
    ensures !NewlyAccepted(c.db, Advance(c, req, pc, ch).0.db, rid)
  {
  }

  lemma {:induction false} ReplaysNothingAccepted(c: Core, req: Request, pc: Pc, ch: Choice, rid: RequestId)
    requires pc.Replaying?
    ensures !NewlyAccepted(c.db, Advance(c, req, pc, ch).0.db, rid)
  {
  }

  lemma {:induction false} ReservesNothingAccepted(c: Core, req: Request, pc: Pc, ch: Choice, rid: RequestId)
    requires pc.Reserving?
    ensures !NewlyAccepted(c.db, Advance(c, req, pc, ch).0.db, rid)
  {
    var db' := ReserveTx(c.db, c.now, req, pc.canon).0;
    assert !NewlyAccepted(c.db, db', rid);
  }

  lemma {:induction false} RecoversNothingAccepted(c: Core, req: Request, pc: Pc, ch: Choice, rid: RequestId)
    requires pc.Recovering?
    ensures !NewlyAccepted(c.db, Advance(c, req, pc, ch).0.db, rid)
  {
    RecoverShape(c, req.rid, pc.canon, pc.seen.result, RecoveredEnvelope(req));
    var db' := RecoverTx(c.db, c.now, req.rid, pc.canon, pc.seen.result, RecoveredEnvelope(req)).0;
    assert !NewlyAccepted(c.db, db', rid);
  }

  lemma {:induction false} OthersAcceptNothing(c: Core, req: Request, pc: Pc, ch: Choice, rid: RequestId)
    requires !(pc.Concluding? || pc.Replaying? || pc.Finishing? || pc.Reserving? || pc.Recovering?)
    ensures !NewlyAccepted(c.db, Advance(c, req, pc, ch).0.db, rid)
  {
    if pc.Marking? { assert !NewlyAccepted(c.db, Marked(c, req, pc.lease).db, rid); }
    else if pc.Queueing? {
      assert !NewlyAccepted(c.db, QueueTx(c.db, c.now, req.rid, pc.lease.canon, pc.lease.token, QueuedEnvelope(req)).0, rid);
    } else { QuietReceipts(c, req, pc, ch); }
  }

  lemma {:induction false} QuietReceipts(c: Core, req: Request, pc: Pc, ch: Choice)
    requires !(pc.Concluding? || pc.Replaying? || pc.Finishing? || pc.Reserving? || pc.Recovering? || pc.Marking? || pc.Queueing?)
    ensures var db' := Advance(c, req, pc, ch).0.db;
            db'.receipts == c.db.receipts
            || (pc.Yielding? && req.rid in c.db.receipts && c.db.receipts[req.rid].state.Reserved?
                && db'.receipts == c.db.receipts[req.rid := c.db.receipts[req.rid].(expires := Some(c.now), updated := c.now)])
  {
  }

  lemma {:induction false} AcceptanceCloses(c: Core, req: Request, pc: Pc, ch: Choice, rid: RequestId)
    requires pc.Finishing? && AnswerOwnerOk(c, req, pc) && pc.lease.canon.action == req.action
    requires NewlyAccepted(c.db, Advance(c, req, pc, ch).0.db, rid)
    requires !Advance(c, req, pc, ch).0.db.receipts[rid].canon.action.SendInstruction?
    ensures var db' := Advance(c, req, pc, ch).0.db;
            && rid in c.db.receipts && c.db.receipts[rid].state.SendStarted?
            && AnswerClosed(c.db, db', db'.receipts[rid].canon.worker)
  {
    var Finishing(lease, from, terminal, env, effect) := pc;
    FinishShape(c, req.rid, lease.canon, lease.token, from, terminal, env, effect);
    var db' := FinishTx(c.db, c.now, req.rid, lease.canon, lease.token, from, terminal, env, effect).0;
    assert Advance(c, req, pc, ch).0.db == c.db || Advance(c, req, pc, ch).0.db == db';
    assert db' != c.db && rid == req.rid && terminal.Accepted?;
    FinishCloses(c.db, c.now, rid, lease.canon, lease.token, from, env, effect.value);
  }

  lemma {:induction false} FinishCloses(db: Db, now: nat, rid: RequestId, canon: Canonical, token: nat, from: ReceiptState, env: Envelope,
                     effect: (nat, WorkerId))
    requires FinishTx(db, now, rid, canon, token, from, Accepted, env, Some(effect)).0 != db
    ensures AnswerClosed(db, FinishTx(db, now, rid, canon, token, from, Accepted, env, Some(effect)).0, effect.1)
    ensures rid in db.receipts && db.receipts[rid].state.SendStarted?
  {
  }
}
