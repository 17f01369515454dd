/** The invariant over every run, and what it says: at most one backend send per receipt row, no
    conflicting final answers, truthful history. */
module SubmissionSafety {
  import opened Options
  import opened Envelopes
  import opened CommandStore
  import opened Submission
  import opened SubmissionInvariant
  import opened SubmissionSteps

  /** The token a submitter acts under: its lease's, or the next one if it holds none. */
  function Acting(c: Core, pc: Pc): Option<nat> {
    match LeaseOf(pc)
    case Some(lease) => Some(lease.token)
    case None => Some(c.db.tokens)
  }

  ghost predicate StepOk(c: Core, req: Request, pc: Pc, next: (Core, Pc)) {
    && CoreOk(next.0) && ProcOk(next.0, req, next.1) && Grows(c, next.0, Acting(c, pc))
    && (LeaseOf(next.1).Some? ==> Some(LeaseOf(next.1).value.token) == Acting(c, pc))
  }

  // ----- Answers -----

  lemma {:induction false} SeenAnswerOk(c: Core, req: Request, canon: Canonical, seen: Receipt)
    requires SeenOk(c, req.rid, seen)
    ensures AnswerOk(c, EnvelopeFromReceipt(req, canon, Some(seen)), Some(seen.born))
  {
    if SameRequest(req, canon, seen) { WrittenRowsDecode(req, canon, seen); }
  }

  lemma {:induction false} ReturnOk(c: Core, req: Request, canon: Canonical, row: Option<Receipt>)
    requires CoreOk(c)
    requires row.Some? ==> req.rid in c.db.receipts && row.value == c.db.receipts[req.rid]
    ensures AnswerOk(c, EnvelopeFromReceipt(req, canon, row), BornOf(row))
  {
    if row.Some? {
      assert RowOk(c, req.rid);
      SeenAnswerOk(c, req, canon, row.value);
    }
  }

  lemma {:induction false} FinishPcOk(c: Core, req: Request, lease: Lease, from: ReceiptState, terminal: ReceiptState, env: Envelope,
                   effect: Option<(nat, WorkerId)>)
    requires LeaseOk(c, req, lease) && LegalFinish(from, terminal, env.status) && ValidEnvelope(Terminalized(req, env, terminal))
    requires !FallbackNote(env.note)
    requires from.SendStarted? ==> StartedBy(c, req.rid, lease.token, lease.born)
    requires terminal.Accepted? ==> WasDelivered(c, lease.born)
    requires from.SendStarted? && terminal.Rejected? ==> WasRefused(c, lease.born)
    ensures ProcOk(c, req, FinishPc(req, lease, from, terminal, env, effect))
  {
  }

  /** Whatever the fault, an attempted transaction that is fine leaves a fine caller. */
  lemma {:induction false} ConcludedOk(c: Core, d: Core, req: Request, pc: Pc, canon: Canonical, fault: Fault, tx: (Db, Reply), otherwise: Pc)
    requires CoreOk(c) && ProcOk(c, req, otherwise) && LeaseOf(otherwise).None?
    requires d == Committed(c, req.rid, tx.0) && CoreOk(d) && Grows(c, d, Acting(c, pc))
    requires tx.1.row.Some? ==> req.rid in d.db.receipts && tx.1.row.value == d.db.receipts[req.rid]
    ensures StepOk(c, req, pc, Concluded(c, req, canon, fault, tx, otherwise))
  {
    hide CoreOk;
    ProcStable(c, d, Acting(c, pc), req, otherwise);
    IdleGrows(c, Acting(c, pc));
    ReturnOk(d, req, canon, tx.1.row);
  }

  lemma {:induction false} IdleGrows(c: Core, t: Option<nat>)
    ensures Grows(c, c, t)
  {
  }

  // ----- One lemma for each kind of step -----

  lemma {:induction false} ReadingOk(c: Core, req: Request, ch: Choice)
    requires CoreOk(c)
    ensures StepOk(c, req, Reading, StepReading(c, req, ch))
  {
    SameReceiptsOk(c, c, Some(c.db.tokens));
    if req.rid in c.db.receipts { assert RowOk(c, req.rid); }
  }

  lemma {:induction false} DecidingOk(c: Core, req: Request, seen: Receipt, ch: Choice)
    requires CoreOk(c) && ProcOk(c, req, Deciding(seen))
    ensures StepOk(c, req, Deciding(seen), StepDeciding(c, req, seen, ch))
  {
    SameReceiptsOk(c, c, Some(c.db.tokens));
    var proof := ProveWorker(req, seen, ch.authority);
    if proof.Proven? && seen.canon.action == req.action {
      var canon := CanonicalFor(req, proof.worker);
      SeenAnswerOk(c, req, canon, seen);
      if SameRequest(req, canon, seen) { WrittenRowsDecode(req, canon, seen); }
    }
  }

  lemma {:induction false} ReplayingOk(c: Core, req: Request, canon: Canonical, seen: Receipt, env: Envelope, ch: Choice)
    requires CoreOk(c) && ProcOk(c, req, Replaying(canon, seen, env))
    ensures StepOk(c, req, Replaying(canon, seen, env), StepReplaying(c, req, canon, seen, env, ch))
  {
    var (terminal, evidence) := ReplayEvidence(req, seen, env);
    ReplayOk(c, req, canon, seen, env);
    var tx := ReplayTx(c.db, c.now, req.rid, canon, terminal, evidence, seen.proof);
    ConcludedOk(c, Committed(c, req.rid, tx.0), req, Replaying(canon, seen, env), canon, ch.fault, tx, Rereading(canon, ThenReturn));
  }

  lemma {:induction false} SettlingOk(c: Core, req: Request, canon: Canonical, seen: Receipt, env: Envelope, ch: Choice)
    requires CoreOk(c) && ProcOk(c, req, Settling(canon, seen, env))
    ensures StepOk(c, req, Settling(canon, seen, env), StepSettling(c, req, canon, seen, env, ch))
  {
    SettleOk(c, req.rid, ch.link, Some(c.db.tokens));
    SameReceiptsOk(c, c, Some(c.db.tokens));
    SeenAnswerOk(c, req, canon, seen);
  }

  lemma {:induction false} LinkingOk(c: Core, req: Request, canon: Canonical, seen: Receipt, env: Envelope, settled: Option<LedgerState>, ch: Choice)
    requires CoreOk(c) && ProcOk(c, req, Linking(canon, seen, env, settled))
    ensures StepOk(c, req, Linking(canon, seen, env, settled), StepLinking(c, req, canon, seen, env, settled, ch))
  {
    SameReceiptsOk(c, c, Some(c.db.tokens));
    SeenAnswerOk(c, req, canon, seen);
  }

  lemma {:induction false} ConcludingOk(c: Core, req: Request, canon: Canonical, seen: Receipt, env: Envelope, verdict: Envelope, ch: Choice)
    requires CoreOk(c) && ProcOk(c, req, Concluding(canon, seen, env, verdict))
    ensures StepOk(c, req, Concluding(canon, seen, env, verdict), StepConcluding(c, req, canon, seen, env, verdict, ch))
  {
    hide CoreOk;
    ConcludeOk(c, req, canon, seen, verdict);
    SeenAnswerOk(c, req, canon, seen);
    var tx := ConcludeTx(c.db, c.now, req.rid, canon, seen.result, verdict);
    ConcludedOk(c, Committed(c, req.rid, tx.0), req, Concluding(canon, seen, env, verdict), canon, ch.fault, tx, Done(env, Some(seen.born)));
  }

  lemma {:induction false} RecoveringOk(c: Core, req: Request, canon: Canonical, seen: Receipt, env: Envelope, ch: Choice)
    requires CoreOk(c) && ProcOk(c, req, Recovering(canon, seen, env))
    ensures StepOk(c, req, Recovering(canon, seen, env), StepRecovering(c, req, canon, seen, env, ch))
  {
    RecoverOk(c, req, canon, seen.result);
    SeenAnswerOk(c, req, canon, seen);
    var tx := RecoverTx(c.db, c.now, req.rid, canon, seen.result, RecoveredEnvelope(req));
    ConcludedOk(c, Committed(c, req.rid, tx.0), req, Recovering(canon, seen, env), canon, ch.fault, tx, Done(env, Some(seen.born)));
  }

  lemma {:induction false} PreparingOk(c: Core, req: Request, takeover: Option<WorkerId>, ch: Choice)
    requires CoreOk(c)
    ensures StepOk(c, req, Preparing(takeover), StepPreparing(c, req, takeover, ch))
  {
    hide CoreOk;
    hide Grows;
    IdleGrows(c, Some(c.db.tokens));
    var next := StepPreparing(c, req, takeover, ch).1;
    assert next.Done? || next.Reserving?;
  }

  lemma {:induction false} PlannedOk(c: Core, req: Request, lease: Lease, plan: Plan)
    requires LeaseOk(c, req, lease) && NoStart(c, lease.token)
    requires (plan.Refuse? ==> DurableRejection(plan.status)) && (plan.Prompt? ==> req.action.SendInstruction?)
    ensures ProcOk(c, req, Planned(req, lease, plan)) && LeaseOf(Planned(req, lease, plan)) == Some(lease)
  {
    if plan.Refuse? { FinishPcOk(c, req, lease, Reserved, Rejected, Failure(req, plan.status), None); }
  }

  lemma {:induction false} AnswerlessOk(c: Core, req: Request)
    ensures AnswerOk(c, DuplicateEnvelope(req), None) && AnswerOk(c, Failure(req, StBackendUnavailable), None)
  {
  }

  lemma {:induction false} AfterReservingOk(c: Core, req: Request, canon: Canonical, plan: Plan, ch: Choice, tx: (Db, Reply))
    requires CoreOk(c) && ProcOk(c, req, Reserving(canon, plan))
    requires var d := Committed(c, req.rid, tx.0);
             && CoreOk(d) && Grows(c, d, Some(c.db.tokens))
             && tx.1.row.Some? && req.rid in d.db.receipts && tx.1.row.value == d.db.receipts[req.rid]
             && (tx.1.tag.TReserved? ==>
                   && tx.1.token == c.db.tokens
                   && LeaseOk(d, req, Lease(canon, tx.1.token, tx.1.row.value.born)) && NoStart(d, tx.1.token))
    ensures StepOk(c, req, Reserving(canon, plan), AfterReserving(c, req, canon, plan, ch, tx))
  {
    hide CoreOk;
    hide Grows;
    hide LeaseOk;
    hide NoStart;
    hide EnvelopeFromReceipt;
    hide Planned;
    hide AnswerOk;
    AnswerlessOk(c, req);
    AnswerlessOk(Committed(c, req.rid, tx.0), req);
    var d := Committed(c, req.rid, tx.0);
    var next := AfterReserving(c, req, canon, plan, ch, tx);
    var reply := Attempt(c, req.rid, ch.fault, tx).1;
    IdleGrows(c, Some(c.db.tokens));
    ReturnOk(d, req, canon, tx.1.row);
    ReturnOk(c, req, canon, Lookup(c.db.receipts, req.rid));
    if reply.None? {
      assert next.0 == c || next.0 == d;
      assert ProcOk(next.0, req, next.1);
    } else {
      assert next.0 == d;
      if tx.1.tag.TReserved? {
        PlannedOk(d, req, Lease(canon, tx.1.token, tx.1.row.value.born), plan);
      } else {
        assert ProcOk(d, req, next.1);
      }
    }
  }

  lemma {:induction false} ReservingOk(c: Core, req: Request, canon: Canonical, plan: Plan, ch: Choice)
    requires CoreOk(c) && ProcOk(c, req, Reserving(canon, plan))
    ensures StepOk(c, req, Reserving(canon, plan), StepReserving(c, req, canon, plan, ch))
  {
    ReserveOk(c, req, canon);
    AfterReservingOk(c, req, canon, plan, ch, ReserveTx(c.db, c.now, req, canon));
  }

  lemma {:induction false} RefusalsOk(c: Core, req: Request, lease: Lease, ch: Choice)
    requires LeaseOk(c, req, lease)
    ensures ProcOk(c, req, FinishPc(req, lease, Reserved, Uncertain, UncertainWith(req, ClaimUncertain), None))
    ensures ProcOk(c, req, FinishPc(req, lease, Reserved, Rejected, Failure(req, RefusalStatus(req, ch)), None))
  {
  }

  lemma {:induction false} ClaimingOk(c: Core, req: Request, lease: Lease, route: Route, ch: Choice)
    requires CoreOk(c) && ProcOk(c, req, Claiming(lease, route))
    ensures StepOk(c, req, Claiming(lease, route), StepClaiming(c, req, lease, route, ch))
  {
    var (db', verdict) := ClaimTx(c.db, c.now, lease.canon.worker, lease.canon.body, ch.fingerprint);
    var d := c.(db := db');
    SameReceiptsOk(c, d, Some(lease.token));
    IdleGrows(c, Some(lease.token));
    hide CoreOk;
    hide Grows;
    hide ClaimTx;
    RefusalsOk(c, req, lease, ch);
    RefusalsOk(d, req, lease, ch);
  }

  lemma {:induction false} YieldingOk(c: Core, req: Request, lease: Lease, ch: Choice)
    requires CoreOk(c) && ProcOk(c, req, Yielding(lease))
    ensures StepOk(c, req, Yielding(lease), StepYielding(c, req, lease, ch))
  {
    YieldOk(c, req.rid, lease.canon, lease.token, Some(lease.token));
    SameReceiptsOk(c, c, Some(lease.token));
  }

  lemma {:induction false} AfterMarkingOk(c: Core, d: Core, req: Request, lease: Lease, held: Option<Hold>, fault: Fault, reply: Reply)
    requires CoreOk(c) && ProcOk(c, req, Marking(lease, held))
    requires CoreOk(d) && Grows(c, d, Some(lease.token)) && LeaseOk(d, req, lease)
    requires reply.tag.TStarted? ==> StartedBy(d, req.rid, lease.token, lease.born) && NoSend(d, lease.token)
    requires reply.row.Some? ==> req.rid in d.db.receipts && reply.row.value == d.db.receipts[req.rid]
    ensures StepOk(c, req, Marking(lease, held), AfterMarking(c, d, req, lease, held, fault, reply))
  {
    hide CoreOk;
    IdleGrows(c, Some(lease.token));
    var reread := Rereading(lease.canon, if held.Some? then ThenRelease(lease, held.value) else ThenReturn);
    var next := AfterMarking(c, d, req, lease, held, fault, reply);
    if fault.RaisedBefore? { assert next == (c, reread); }
    else if fault.RaisedAfter? { assert next == (d, reread); }
    else if reply.tag.TStarted? { assert next == (d, Started(lease, held)); }
    else {
      assert next.0 == d;
      ReturnOk(d, req, lease.canon, reply.row);
      assert ProcOk(d, req, next.1);
    }
  }

  lemma {:induction false} MarkingOk(c: Core, req: Request, lease: Lease, held: Option<Hold>, ch: Choice)
    requires CoreOk(c) && ProcOk(c, req, Marking(lease, held))
    ensures StepOk(c, req, Marking(lease, held), StepMarking(c, req, lease, held, ch))
  {
    MarkOk(c, req, lease);
    var reply := MarkTx(c.db, c.now, req.rid, lease.canon, lease.token, c.policy.window, c.policy.ttl).1;
    AfterMarkingOk(c, Marked(c, req, lease), req, lease, held, ch.fault, reply);
  }

  lemma {:induction false} ReleasingOk(c: Core, req: Request, lease: Lease, hold: Hold, env: Envelope, born: Option<nat>, ch: Choice)
    requires CoreOk(c) && ProcOk(c, req, Releasing(lease, hold, env, born))
    ensures StepOk(c, req, Releasing(lease, hold, env, born), StepReleasing(c, req, lease, hold, env, born, ch))
  {
    var d := c.(db := ReleaseClaimTx(c.db, hold.route.worker, hold.claim).0);
    SameReceiptsOk(c, c, Some(lease.token));
    SameReceiptsOk(c, d, Some(lease.token));
    assert LeaseOk(d, req, lease);
    FinishPcOk(c, req, lease, Reserved, Uncertain, UncertainWith(req, ClaimNotReleased), None);
    FinishPcOk(d, req, lease, Reserved, Uncertain, UncertainWith(req, ClaimNotReleased), None);
  }

  lemma {:induction false} PromptingOk(c: Core, req: Request, lease: Lease, ch: Choice)
    requires CoreOk(c) && ProcOk(c, req, Started(lease, None))
    ensures StepOk(c, req, Started(lease, None), StepPrompting(c, req, lease, ch))
  {
    SentOk(c, req, lease, Prompted(ch.reply));
    hide CoreOk;
    hide Grows;
    hide LeaseOk;
    var d := Sent(c, req, lease, Prompted(ch.reply));
    var k := |c.hist.sends|;
    assert d.hist.sends[k] == Send(req.rid, lease.token, lease.born, Prompted(ch.reply));
    if ch.reply.Submitted? {
      FinishPcOk(d, req, lease, SendStarted, Accepted, AcceptedEnvelope(req, Submitted, ch.turn), None);
    } else if ch.reply.WrittenToPty? {
    } else if DefiniteNonDelivery(ch.reply) {
      FinishPcOk(d, req, lease, SendStarted, Rejected, NotDeliveredEnvelope(req, ch.reply), None);
    } else {
      FinishPcOk(d, req, lease, SendStarted, Uncertain,
                 UnknownDeliveryEnvelope(req, if ch.reply.PromptStalled? then PromptStalled else UnknownVerdict), None);
    }
  }

  lemma {:induction false} CrossingOk(c: Core, req: Request, lease: Lease, hold: Hold, ch: Choice)
    requires CoreOk(c) && ProcOk(c, req, Started(lease, Some(hold)))
    ensures StepOk(c, req, Started(lease, Some(hold)), StepCrossing(c, req, lease, hold, ch))
  {
    var d := StepCrossing(c, req, lease, hold, ch).0;
    SameReceiptsOk(c, d, Some(lease.token));
    HistoryGrows(c, d, Some(lease.token));
    assert LeaseOk(d, req, lease) && NoSend(d, lease.token);
  }

  lemma {:induction false} TypingOk(c: Core, req: Request, lease: Lease, hold: Hold, ch: Choice)
    requires CoreOk(c) && ProcOk(c, req, Typing(lease, hold))
    ensures StepOk(c, req, Typing(lease, hold), StepTyping(c, req, lease, hold, ch))
  {
    SentOk(c, req, lease, Typed(hold.claim, ch.typed));
    var d := Sent(c, req, lease, Typed(hold.claim, ch.typed));
    assert d.hist.sends[|c.hist.sends|].born == lease.born;
    if ch.typed {
      FinishPcOk(d, req, lease, SendStarted, Accepted, AcceptedEnvelope(req, NoVerdict, None), Some((hold.claim, hold.route.worker)));
    } else {
      FinishPcOk(d, req, lease, SendStarted, Uncertain, UncertainWith(req, InputUncertain), None);
    }
  }

  lemma {:induction false} DroppingOk(c: Core, req: Request, lease: Lease, hold: Hold, ch: Choice)
    requires CoreOk(c) && ProcOk(c, req, Dropping(lease, hold))
    ensures StepOk(c, req, Dropping(lease, hold), StepDropping(c, req, lease, hold, ch))
  {
    var d := StepDropping(c, req, lease, hold, ch).0;
    SameReceiptsOk(c, d, Some(lease.token));
    HistoryGrows(c, d, Some(lease.token));
    assert LeaseOk(d, req, lease);
    FinishPcOk(d, req, lease, SendStarted, Uncertain, UncertainWith(req, StartUncertain), None);
  }

  lemma {:induction false} QueueingOk(c: Core, req: Request, lease: Lease, ch: Choice)
    requires CoreOk(c) && ProcOk(c, req, Queueing(lease))
    ensures StepOk(c, req, Queueing(lease), StepQueueing(c, req, lease, ch))
  {
    QueueOk(c, req, lease);
    var tx := QueueTx(c.db, c.now, req.rid, lease.canon, lease.token, QueuedEnvelope(req));
    ConcludedOk(c, Committed(c, req.rid, tx.0), req, Queueing(lease), lease.canon, ch.fault, tx, Rereading(lease.canon, ThenReturn));
  }

  lemma {:induction false} FinishingOk(c: Core, req: Request, lease: Lease, from: ReceiptState, terminal: ReceiptState, env: Envelope,
                    effect: Option<(nat, WorkerId)>, ch: Choice)
    requires CoreOk(c) && ProcOk(c, req, Finishing(lease, from, terminal, env, effect))
    ensures StepOk(c, req, Finishing(lease, from, terminal, env, effect), StepFinishing(c, req, lease, from, terminal, env, effect, ch))
  {
    FinishOk(c, req, lease, from, terminal, env, effect);
    var tx := FinishTx(c.db, c.now, req.rid, lease.canon, lease.token, from, terminal, env, effect);
    ConcludedOk(c, Committed(c, req.rid, tx.0), req, Finishing(lease, from, terminal, env, effect), lease.canon, ch.fault, tx, Rereading(lease.canon, ThenReturn));
  }

  lemma {:induction false} RereadingOk(c: Core, req: Request, canon: Canonical, after: After, ch: Choice)
    requires CoreOk(c) && ProcOk(c, req, Rereading(canon, after))
    ensures StepOk(c, req, Rereading(canon, after), StepRereading(c, req, canon, after, ch))
  {
    SameReceiptsOk(c, c, Acting(c, Rereading(canon, after)));
    ReturnOk(c, req, canon, if ch.fault.NoFault? then Lookup(c.db.receipts, req.rid) else None);
  }

  lemma {:induction false} AdvanceReaderOk(c: Core, req: Request, pc: Pc, ch: Choice)
    requires CoreOk(c) && ProcOk(c, req, pc) && LeaseOf(pc).None?
    ensures StepOk(c, req, pc, Advance(c, req, pc, ch))
  {
    match pc
    case Reading => ReadingOk(c, req, ch);
    case Deciding(seen) => DecidingOk(c, req, seen, ch);
    case Replaying(canon, seen, env) => ReplayingOk(c, req, canon, seen, env, ch);
    case Settling(canon, seen, env) => SettlingOk(c, req, canon, seen, env, ch);
    case Linking(canon, seen, env, settled) => LinkingOk(c, req, canon, seen, env, settled, ch);
    case Concluding(canon, seen, env, verdict) => ConcludingOk(c, req, canon, seen, env, verdict, ch);
    case Recovering(canon, seen, env) => RecoveringOk(c, req, canon, seen, env, ch);
    case Preparing(takeover) => PreparingOk(c, req, takeover, ch);
    case Reserving(canon, plan) => ReservingOk(c, req, canon, plan, ch);
    case Rereading(canon, after) => RereadingOk(c, req, canon, after, ch);
    case Done(env, born) => IdleGrows(c, Acting(c, pc));
  }

  lemma {:induction false} AdvanceOwnerOk(c: Core, req: Request, pc: Pc, ch: Choice)
    requires CoreOk(c) && ProcOk(c, req, pc) && LeaseOf(pc).Some?
    ensures StepOk(c, req, pc, Advance(c, req, pc, ch))
  {
    match pc
    case Claiming(lease, route) => ClaimingOk(c, req, lease, route, ch);
    case Yielding(lease) => YieldingOk(c, req, lease, ch);
    case Marking(lease, held) => MarkingOk(c, req, lease, held, ch);
    case Releasing(lease, hold, env, born) => ReleasingOk(c, req, lease, hold, env, born, ch);
    case Started(lease, None) => PromptingOk(c, req, lease, ch);
    case Started(lease, Some(hold)) => CrossingOk(c, req, lease, hold, ch);
    case Typing(lease, hold) => TypingOk(c, req, lease, hold, ch);
    case Dropping(lease, hold) => DroppingOk(c, req, lease, hold, ch);
    case Queueing(lease) => QueueingOk(c, req, lease, ch);
    case Finishing(lease, from, terminal, env, effect) => FinishingOk(c, req, lease, from, terminal, env, effect, ch);
    case Rereading(canon, after) => RereadingOk(c, req, canon, after, ch);
  }

  lemma {:induction false} AdvanceOk(c: Core, req: Request, pc: Pc, ch: Choice)
    requires CoreOk(c) && ProcOk(c, req, pc)
    ensures StepOk(c, req, pc, Advance(c, req, pc, ch))
  {
    if LeaseOf(pc).None? { AdvanceReaderOk(c, req, pc, ch); } else { AdvanceOwnerOk(c, req, pc, ch); }
  }

  // ----- Every step of the system -----

  lemma {:induction false} SystemIsOk(s: System)
    requires SystemOk(s)
    ensures CoreOk(s.core)
  {
  }

  lemma {:induction false} OthersOk(s: System, d: Core, t: Option<nat>)
    requires SystemOk(s) && CoreOk(d) && Grows(s.core, d, t)
    requires forall pid :: pid in s.procs && LeaseOf(s.procs[pid].pc).Some? ==> Some(LeaseOf(s.procs[pid].pc).value.token) != t
    ensures SystemOk(System(d, s.procs))
  {
    forall pid | pid in s.procs ensures ProcOk(d, s.procs[pid].req, s.procs[pid].pc) {
      ProcStable(s.core, d, t, s.procs[pid].req, s.procs[pid].pc);
    }
  }

  lemma {:induction false} GoOk(s: System, pid: nat, ch: Choice)
    requires SystemOk(s) && pid in s.procs
    ensures SystemOk(Step(s, Go(pid, ch)))
  {
    var p := s.procs[pid];
    var t := Acting(s.core, p.pc);
    AdvanceOk(s.core, p.req, p.pc, ch);
    var (d, pc) := Advance(s.core, p.req, p.pc, ch);
    var s' := Step(s, Go(pid, ch));
    forall q | q in s.procs && q != pid
      ensures ProcOk(d, s.procs[q].req, s.procs[q].pc)
      ensures LeaseOf(s.procs[q].pc).Some? ==> Some(LeaseOf(s.procs[q].pc).value.token) != t
    {
      assert ProcOk(s.core, s.procs[q].req, s.procs[q].pc);
      ProcStable(s.core, d, t, s.procs[q].req, s.procs[q].pc);
    }
  }

  lemma {:induction false} SweepSystemOk(s: System, rid: RequestId, outcome: LinkOutcome)
    requires SystemOk(s)
    ensures SystemOk(Step(s, Sweep(rid, outcome)))
  {
    hide SystemOk;
    hide CoreOk;
    hide Grows;
    assert CoreOk(s.core) by { SystemIsOk(s); }
    SettleOk(s.core, rid, outcome, None);
    OthersOk(s, s.core.(db := SettleTx(s.core.db, s.core.now, rid, outcome)), None);
  }

  lemma {:induction false} MaintainSystemOk(s: System, rid: RequestId)
    requires SystemOk(s)
    ensures SystemOk(Step(s, Maintain(rid)))
  {
    hide SystemOk;
    hide CoreOk;
    hide Grows;
    assert CoreOk(s.core) by { SystemIsOk(s); }
    MaintainOk(s.core, rid, None);
    OthersOk(s, Committed(s.core, rid, MaintainTx(s.core.db, s.core.now, s.core.policy, rid)), None);
  }

  lemma {:induction false} ObserveKeepsReceipts(c: Core, w: WorkerId, saw: Sighting)
    ensures SameReceipts(c, c.(db := ObserveTx(c.db, w, saw)))
  {
  }

  lemma {:induction false} SightSystemOk(s: System, w: WorkerId, saw: Sighting)
    requires SystemOk(s)
    ensures SystemOk(Step(s, Sight(w, saw)))
  {
    hide SystemOk;
    hide CoreOk;
    hide Grows;
    assert CoreOk(s.core) by { SystemIsOk(s); }
    var d := s.core.(db := ObserveTx(s.core.db, w, saw));
    ObserveKeepsReceipts(s.core, w, saw);
    SameReceiptsOk(s.core, d, None);
    OthersOk(s, d, None);
  }

  lemma {:induction false} TickSystemOk(s: System, n: nat)
    requires SystemOk(s)
    ensures SystemOk(Step(s, Tick(n)))
  {
    hide SystemOk;
    hide CoreOk;
    hide Grows;
    assert CoreOk(s.core) by { SystemIsOk(s); }
    TickOk(s.core, n, None);
    OthersOk(s, s.core.(now := s.core.now + n), None);
  }

  lemma {:induction false} EnterSystemOk(s: System, pid: nat, req: Request)
    requires SystemOk(s)
    ensures SystemOk(Step(s, Enter(pid, req)))
  {
  }

  lemma {:induction false} StepSystemOk(s: System, act: Act)
    requires SystemOk(s)
    ensures SystemOk(Step(s, act))
  {
    hide SystemOk;
    match act
    case Tick(n) => TickSystemOk(s, n);
    case Enter(pid, req) => EnterSystemOk(s, pid, req);
    case Go(pid, ch) => if pid in s.procs { GoOk(s, pid, ch); }
    case Sweep(rid, outcome) => SweepSystemOk(s, rid, outcome);
    case Maintain(rid) => MaintainSystemOk(s, rid);
    case Sight(w, saw) => SightSystemOk(s, w, saw);
  }

  lemma {:induction false} RunOk(policy: Policy, acts: seq<Act>)
    requires ValidPolicy(policy)
    ensures SystemOk(Run(Initial(policy), acts))
    decreases |acts|
  {
    if acts != [] {
      RunOk(policy, acts[..|acts| - 1]);
      StepSystemOk(Run(Initial(policy), acts[..|acts| - 1]), acts[|acts| - 1]);
    }
  }
}
