/** Whose answer a caller gets: what is read from a row is told only to a caller who asked for that row's own
    mutation, and a request identifier that stands for another mutation is refused without effect. */
module OwnAnswers {
  import opened Options
  import opened Envelopes
  import opened CommandStore
  import opened Submission
  import opened SubmissionInvariant
  import opened SubmissionSafety
  import opened Retries
  import opened ReceiptReplay

  /** The row's mutation is the one that the caller asked for: the same action, the same body, and the worker that
      the caller names, if it names one by its id. (An answer to a pending choice takes no target.) */
  predicate AskedFor(req: Request, canon: Canonical) {
    && canon.action == req.action && canon.body == req.body
    && (!req.action.AnswerPending? && req.target.Explicit? ==> canon.worker == req.target.worker)
  }

  /** The answer reports a row, as opposed to saying that the identifier is taken or its target unprovable. */
  predicate SpeaksOfRow(env: Envelope) {
    !env.status.StDuplicateRequest? && !env.note.TargetUnprovable?
  }

  // ----- Rows that have stood -----

  /** A row as far as its mutation goes: under which identifier, which number, for what. */
  datatype Stand = Stand(rid: RequestId, born: nat, canon: Canonical)

  function StandOf(rid: RequestId, row: Receipt): Stand {
    Stand(rid, row.born, row.canon)
  }

  ghost predicate RowsIn(db: Db, stood: iset<Stand>) {
    forall rid :: rid in db.receipts ==> StandOf(rid, db.receipts[rid]) in stood
  }

  /** All rows of all states of the run. */
  ghost function Stood(policy: Policy, acts: seq<Act>): (stood: iset<Stand>)
    ensures RowsIn(Run(Initial(policy), acts).core.db, stood)
  {
    iset x | StoodAt(policy, acts, x, |acts|) || exists n: nat :: n < |acts| && StoodAt(policy, acts, x, n)
  }

  predicate StoodAt(policy: Policy, acts: seq<Act>, x: Stand, n: nat)
    requires n <= |acts|
  {
    var db := Run(Initial(policy), if n == |acts| then acts else acts[..n]).core.db;
    x.rid in db.receipts && StandOf(x.rid, db.receipts[x.rid]) == x
  }

  lemma {:induction false} StoodStill(policy: Policy, acts: seq<Act>, act: Act)
    ensures Stood(policy, acts) <= Stood(policy, acts + [act])
  {
    var more := acts + [act];
    forall x | x in Stood(policy, acts) ensures x in Stood(policy, more) {
      assert more[..|acts|] == acts;
      if StoodAt(policy, acts, x, |acts|) { assert StoodAt(policy, more, x, |acts|); }
      else {
        var n: nat :| n < |acts| && StoodAt(policy, acts, x, n);
        assert more[..n] == acts[..n];
        assert StoodAt(policy, more, x, n);
      }
    }
  }

  // ----- What a submitter carries is its own -----

  /** Every identity that the submitter works under is one that it asked for. */
  predicate OwnWork(req: Request, pc: Pc) {
    match pc
    case Replaying(canon, seen, _) => AskedFor(req, canon) && seen.canon == canon
    case Settling(canon, seen, _) => AskedFor(req, canon) && seen.canon == canon
    case Linking(canon, seen, _, _) => AskedFor(req, canon) && seen.canon == canon
    case Concluding(canon, seen, _, _) => AskedFor(req, canon) && seen.canon == canon
    case Recovering(canon, seen, _) => AskedFor(req, canon) && seen.canon == canon
    case Preparing(takeover) => takeover.Some? && NamedWorker(req).Some? ==> takeover == NamedWorker(req)
    case Reserving(canon, _) => AskedFor(req, canon)
    case Rereading(canon, after) => AskedFor(req, canon) && (after.ThenRelease? ==> AskedFor(req, after.lease.canon))
    case _ => LeaseOf(pc).Some? ==> AskedFor(req, LeaseOf(pc).value.canon)
  }

  /** What the answer says was read from a row of the caller's own mutation. */
  ghost predicate OwnAnswer(req: Request, env: Envelope, born: Option<nat>, stood: iset<Stand>) {
    SpeaksOfRow(env) && born.Some? ==> exists canon :: Stand(req.rid, born.value, canon) in stood && AskedFor(req, canon)
  }

  ghost predicate OwnCopies(req: Request, pc: Pc, stood: iset<Stand>) {
    match pc
    case Deciding(seen) => StandOf(req.rid, seen) in stood
    case Replaying(_, seen, _) => StandOf(req.rid, seen) in stood
    case Settling(_, seen, _) => StandOf(req.rid, seen) in stood
    case Linking(_, seen, _, _) => StandOf(req.rid, seen) in stood
    case Concluding(_, seen, _, _) => StandOf(req.rid, seen) in stood
    case Recovering(_, seen, _) => StandOf(req.rid, seen) in stood
    case Releasing(_, _, env, born) => OwnAnswer(req, env, born, stood)
    case Done(env, born) => OwnAnswer(req, env, born, stood)
    case _ => true
  }

  lemma {:induction false} CopiesStay(req: Request, pc: Pc, stood: iset<Stand>, more: iset<Stand>)
    requires stood <= more && OwnCopies(req, pc, stood)
    ensures OwnCopies(req, pc, more)
  {
  }

  /** What is read back under an own identity is an own answer. */
  lemma {:induction false} ReadBackIsOwn(req: Request, canon: Canonical, row: Option<Receipt>, stood: iset<Stand>)
    requires AskedFor(req, canon) && (row.Some? ==> StandOf(req.rid, row.value) in stood)
    ensures OwnAnswer(req, EnvelopeFromReceipt(req, canon, row), BornOf(row), stood)
  {
    if row.Some? && row.value.canon != canon { assert EnvelopeFromReceipt(req, canon, row) == DuplicateEnvelope(req); }
  }

  lemma {:induction false} CopyIsOwn(req: Request, env: Envelope, seen: Receipt, stood: iset<Stand>)
    requires AskedFor(req, seen.canon) && StandOf(req.rid, seen) in stood
    ensures OwnAnswer(req, env, Some(seen.born), stood)
  {
  }

  // ----- Every step keeps it -----

  /** The reply's row is the row as it stands after the transaction. */
  predicate RepliesRow(rid: RequestId, tx: (Db, Reply)) {
    tx.1.row.Some? ==> rid in tx.0.receipts && tx.0.receipts[rid] == tx.1.row.value
  }

  lemma {:induction false} MarkRepliesRow(db: Db, now: nat, rid: RequestId, canon: Canonical, token: nat, window: nat, ttl: nat)
    ensures RepliesRow(rid, MarkTx(db, now, rid, canon, token, window, ttl))
  {
  }

  lemma {:induction false} OwnerRepliesRow(db: Db, now: nat, rid: RequestId, canon: Canonical, token: nat, from: ReceiptState, terminal: ReceiptState,
                                           env: Envelope, effect: Option<(nat, WorkerId)>)
    ensures RepliesRow(rid, QueueTx(db, now, rid, canon, token, env))
    ensures RepliesRow(rid, FinishTx(db, now, rid, canon, token, from, terminal, env, effect))
  {
  }

  lemma {:induction false} GuardedRepliesRow(db: Db, now: nat, rid: RequestId, canon: Canonical, guard: Stored, env: Envelope)
    ensures RepliesRow(rid, ConcludeTx(db, now, rid, canon, guard, env)) && RepliesRow(rid, RecoverTx(db, now, rid, canon, guard, env))
    ensures forall st, proof :: RepliesRow(rid, ReplayTx(db, now, rid, canon, st, env, proof))
  {
  }

  lemma {:induction false} ReserveRepliesRow(db: Db, now: nat, req: Request, canon: Canonical)
    ensures RepliesRow(req.rid, ReserveTx(db, now, req, canon))
  {
  }

  ghost predicate OwnNext(req: Request, pc: Pc, stood: iset<Stand>) {
    OwnWork(req, pc) && OwnCopies(req, pc, stood)
  }

  lemma {:induction false} ConcludedIsOwn(c: Core, req: Request, canon: Canonical, fault: Fault, tx: (Db, Reply), otherwise: Pc, stood: iset<Stand>)
    requires AskedFor(req, canon) && RepliesRow(req.rid, tx) && OwnNext(req, otherwise, stood)
    requires RowsIn(Concluded(c, req, canon, fault, tx, otherwise).0.db, stood)
    ensures OwnNext(req, Concluded(c, req, canon, fault, tx, otherwise).1, stood)
  {
    hide EnvelopeFromReceipt;
    hide AskedFor;
    var (c', reply) := Attempt(c, req.rid, fault, tx);
    if reply.Some? { ReadBackIsOwn(req, canon, reply.value.row, stood); }
  }

  lemma {:induction false} DecidedIsOwn(c: Core, req: Request, seen: Receipt, ch: Choice, stood: iset<Stand>)
    requires StandOf(req.rid, seen) in stood
    ensures OwnNext(req, StepDeciding(c, req, seen, ch).1, stood)
  {
    var proof := ProveWorker(req, seen, ch.authority);
    if seen.canon.action == req.action && proof.Proven? {
      var canon := CanonicalFor(req, proof.worker);
      assert AskedFor(req, canon);
      if seen.canon == canon { CopyIsOwn(req, EnvelopeFromReceipt(req, canon, Some(seen)), seen, stood); }
      else { assert EnvelopeFromReceipt(req, canon, Some(seen)) == DuplicateEnvelope(req); }
      hide EnvelopeFromReceipt;
    }
  }

  lemma {:induction false} PreparedIsOwn(c: Core, req: Request, takeover: Option<WorkerId>, ch: Choice, stood: iset<Stand>)
    requires OwnWork(req, Preparing(takeover))
    ensures OwnNext(req, StepPreparing(c, req, takeover, ch).1, stood)
  {
  }

  lemma {:induction false} ReservedIsOwn(c: Core, req: Request, canon: Canonical, plan: Plan, ch: Choice, stood: iset<Stand>)
    requires AskedFor(req, canon) && RowsIn(StepReserving(c, req, canon, plan, ch).0.db, stood)
    ensures OwnNext(req, StepReserving(c, req, canon, plan, ch).1, stood)
  {
    var tx := ReserveTx(c.db, c.now, req, canon);
    ReserveRepliesRow(c.db, c.now, req, canon);
    hide ReserveTx;
    hide EnvelopeFromReceipt;
    hide AskedFor;
    var (d, reply) := Attempt(c, req.rid, ch.fault, tx);
    if reply.None? {
      if req.rid in d.db.receipts { ReadBackIsOwn(req, canon, Some(d.db.receipts[req.rid]), stood); }
    } else { ReadBackIsOwn(req, canon, reply.value.row, stood); }
  }

  lemma {:induction false} MarkedIsOwn(c: Core, req: Request, lease: Lease, held: Option<Hold>, ch: Choice, stood: iset<Stand>)
    requires AskedFor(req, lease.canon) && RowsIn(StepMarking(c, req, lease, held, ch).0.db, stood)
    ensures OwnNext(req, StepMarking(c, req, lease, held, ch).1, stood)
  {
    var tx := MarkTx(c.db, c.now, req.rid, lease.canon, lease.token, c.policy.window, c.policy.ttl);
    MarkRepliesRow(c.db, c.now, req.rid, lease.canon, lease.token, c.policy.window, c.policy.ttl);
    assert Marked(c, req, lease).db == tx.0;
    hide MarkTx;
    hide Marked;
    AfterMarkedIsOwn(c, Marked(c, req, lease), req, lease, held, ch.fault, tx.1, stood);
    hide AfterMarking;
  }

  lemma {:induction false} AfterMarkedIsOwn(c: Core, d: Core, req: Request, lease: Lease, held: Option<Hold>, fault: Fault, reply: Reply, stood: iset<Stand>)
    requires AskedFor(req, lease.canon) && RepliesRow(req.rid, (d.db, reply)) && RowsIn(AfterMarking(c, d, req, lease, held, fault, reply).0.db, stood)
    ensures OwnNext(req, AfterMarking(c, d, req, lease, held, fault, reply).1, stood)
  {
    hide EnvelopeFromReceipt;
    hide AskedFor;
    hide OwnAnswer;
    if fault.NoFault? { ReadBackIsOwn(req, lease.canon, reply.row, stood); }
  }

  lemma {:induction false} RereadIsOwn(c: Core, req: Request, canon: Canonical, after: After, ch: Choice, stood: iset<Stand>)
    requires OwnWork(req, Rereading(canon, after)) && RowsIn(c.db, stood)
    ensures OwnNext(req, StepRereading(c, req, canon, after, ch).1, stood)
  {
    hide EnvelopeFromReceipt;
    hide AskedFor;
    ReadBackIsOwn(req, canon, if ch.fault.NoFault? then Lookup(c.db.receipts, req.rid) else None, stood);
  }

  lemma {:induction false} ConcludingIsOwn(c: Core, req: Request, pc: Pc, ch: Choice, stood: iset<Stand>)
    requires pc.Replaying? || pc.Concluding? || pc.Recovering? || pc.Queueing? || pc.Finishing?
    requires OwnNext(req, pc, stood) && RowsIn(Advance(c, req, pc, ch).0.db, stood)
    ensures OwnNext(req, Advance(c, req, pc, ch).1, stood)
  {
    hide AskedFor;
    hide EnvelopeFromReceipt;
    hide Concluded;
    hide RowsIn;
    hide RepliesRow;
    hide OwnAnswer;
    hide ReplayTx;
    hide ConcludeTx;
    hide RecoverTx;
    hide QueueTx;
    hide FinishTx;
    match pc
    case Replaying(canon, seen, env) =>
      var (terminal, evidence) := ReplayEvidence(req, seen, env);
      GuardedRepliesRow(c.db, c.now, req.rid, canon, Opaque, evidence);
      ConcludedIsOwn(c, req, canon, ch.fault, ReplayTx(c.db, c.now, req.rid, canon, terminal, evidence, seen.proof), Rereading(canon, ThenReturn), stood);
    case Concluding(canon, seen, env, verdict) =>
      GuardedRepliesRow(c.db, c.now, req.rid, canon, seen.result, verdict);
      CopyIsOwn(req, env, seen, stood);
      ConcludedIsOwn(c, req, canon, ch.fault, ConcludeTx(c.db, c.now, req.rid, canon, seen.result, verdict), Done(env, Some(seen.born)), stood);
    case Recovering(canon, seen, env) =>
      GuardedRepliesRow(c.db, c.now, req.rid, canon, seen.result, RecoveredEnvelope(req));
      CopyIsOwn(req, env, seen, stood);
      ConcludedIsOwn(c, req, canon, ch.fault, RecoverTx(c.db, c.now, req.rid, canon, seen.result, RecoveredEnvelope(req)), Done(env, Some(seen.born)), stood);
    case Queueing(lease) =>
      OwnerRepliesRow(c.db, c.now, req.rid, lease.canon, lease.token, SendStarted, Uncertain, QueuedEnvelope(req), None);
      ConcludedIsOwn(c, req, lease.canon, ch.fault, QueueTx(c.db, c.now, req.rid, lease.canon, lease.token, QueuedEnvelope(req)),
                     Rereading(lease.canon, ThenReturn), stood);
    case Finishing(lease, from, terminal, env, effect) =>
      OwnerRepliesRow(c.db, c.now, req.rid, lease.canon, lease.token, from, terminal, env, effect);
      ConcludedIsOwn(c, req, lease.canon, ch.fault, FinishTx(c.db, c.now, req.rid, lease.canon, lease.token, from, terminal, env, effect),
                     Rereading(lease.canon, ThenReturn), stood);
  }

  lemma {:induction false} CopyingIsOwn(c: Core, req: Request, pc: Pc, ch: Choice, stood: iset<Stand>)
    requires (pc.Settling? || pc.Linking?) && OwnNext(req, pc, stood)
    ensures OwnNext(req, Advance(c, req, pc, ch).1, stood)
  {
    CopyIsOwn(req, pc.env, pc.seen, stood);
    hide AskedFor;
  }

  lemma {:induction false} OthersAreOwn(c: Core, req: Request, pc: Pc, ch: Choice, stood: iset<Stand>)
    requires pc.Reading? || pc.Claiming? || pc.Yielding? || pc.Releasing? || pc.Started? || pc.Typing? || pc.Dropping? || pc.Done?
    requires OwnNext(req, pc, stood) && RowsIn(c.db, stood)
    ensures OwnNext(req, Advance(c, req, pc, ch).1, stood)
  {
    hide AskedFor;
    hide OwnAnswer;
    hide ClaimTx;
    hide StartClaimTx;
    hide ReleaseClaimTx;
    hide YieldTx;
    if pc.Yielding? { assert OwnAnswer(req, AnsweredElsewhereEnvelope(req, true), None, stood) by { NoRowIsOwn(req, AnsweredElsewhereEnvelope(req, true), stood); } }
  }

  lemma {:induction false} NoRowIsOwn(req: Request, env: Envelope, stood: iset<Stand>)
    ensures OwnAnswer(req, env, None, stood)
  {
  }

  lemma {:induction false} AdvanceIsOwn(c: Core, req: Request, pc: Pc, ch: Choice, stood: iset<Stand>)
    requires OwnNext(req, pc, stood) && RowsIn(c.db, stood) && RowsIn(Advance(c, req, pc, ch).0.db, stood)
    ensures OwnNext(req, Advance(c, req, pc, ch).1, stood)
  {
    hide OwnNext;
    hide RowsIn;
    match pc
    case Deciding(seen) => assert StandOf(req.rid, seen) in stood by { CopiesOf(req, pc, stood); } DecidedIsOwn(c, req, seen, ch, stood);
    case Preparing(takeover) => CopiesOf(req, pc, stood); PreparedIsOwn(c, req, takeover, ch, stood);
    case Reserving(canon, plan) => CopiesOf(req, pc, stood); ReservedIsOwn(c, req, canon, plan, ch, stood);
    case Marking(lease, held) => CopiesOf(req, pc, stood); MarkedIsOwn(c, req, lease, held, ch, stood);
    case Rereading(canon, after) => CopiesOf(req, pc, stood); RereadIsOwn(c, req, canon, after, ch, stood);
    case Settling(_, _, _) => CopyingIsOwn(c, req, pc, ch, stood);
    case Linking(_, _, _, _) => CopyingIsOwn(c, req, pc, ch, stood);
    case Replaying(_, _, _) => ConcludingIsOwn(c, req, pc, ch, stood);
    case Concluding(_, _, _, _) => ConcludingIsOwn(c, req, pc, ch, stood);
    case Recovering(_, _, _) => ConcludingIsOwn(c, req, pc, ch, stood);
    case Queueing(_) => ConcludingIsOwn(c, req, pc, ch, stood);
    case Finishing(_, _, _, _, _) => ConcludingIsOwn(c, req, pc, ch, stood);
    case _ => OthersAreOwn(c, req, pc, ch, stood);
  }

  lemma {:induction false} CopiesOf(req: Request, pc: Pc, stood: iset<Stand>)
    requires OwnNext(req, pc, stood)
    ensures OwnWork(req, pc) && OwnCopies(req, pc, stood)
  {
  }

  ghost predicate AllOwn(s: System, stood: iset<Stand>) {
    forall pid :: pid in s.procs ==> OwnNext(s.procs[pid].req, s.procs[pid].pc, stood)
  }

  lemma {:induction false} StepIsOwn(s: System, act: Act, stood: iset<Stand>, more: iset<Stand>)
    requires AllOwn(s, stood) && stood <= more && RowsIn(s.core.db, more) && RowsIn(Step(s, act).core.db, more)
    ensures AllOwn(Step(s, act), more)
  {
    forall pid | pid in s.procs ensures OwnNext(s.procs[pid].req, s.procs[pid].pc, more) {
      CopiesStay(s.procs[pid].req, s.procs[pid].pc, stood, more);
    }
    hide OwnNext;
    hide RowsIn;
    match act
    case Go(pid, ch) =>
      hide Advance;
      if pid in s.procs { AdvanceIsOwn(s.core, s.procs[pid].req, s.procs[pid].pc, ch, more); }
    case Enter(pid, req) => ArrivesOwn(req, more);
    case _ =>
  }

  lemma {:induction false} ArrivesOwn(req: Request, stood: iset<Stand>)
    ensures OwnNext(req, Reading, stood)
  {
  }

  lemma {:induction false} RunIsOwn(policy: Policy, acts: seq<Act>)
    ensures AllOwn(Run(Initial(policy), acts), Stood(policy, acts))
    decreases |acts|
  {
    hide Step;
    hide OwnNext;
    hide Stood;
    hide RowsIn;
    if acts != [] {
      var init, act := acts[..|acts| - 1], acts[|acts| - 1];
      assert acts == init + [act];
      RunIsOwn(policy, init);
      StoodStill(policy, init, act);
      StoodHasRows(policy, init, acts);
      StepIsOwn(Run(Initial(policy), init), act, Stood(policy, init), Stood(policy, acts));
    }
  }

  lemma {:induction false} StoodHasRows(policy: Policy, init: seq<Act>, acts: seq<Act>)
    requires Stood(policy, init) <= Stood(policy, acts)
    ensures RowsIn(Run(Initial(policy), init).core.db, Stood(policy, acts))
  {
    hide Stood;
  }

  // ----- A row's mutation never changes -----

  /** A row whose number had been given out before stood before, under the same identifier, for the same. */
  ghost predicate KeepsMutations(db: Db, db': Db) {
    && db.births <= db'.births
    && forall rid :: rid in db'.receipts && db'.receipts[rid].born < db.births ==>
         rid in db.receipts && StandOf(rid, db'.receipts[rid]) == StandOf(rid, db.receipts[rid])
  }

  lemma {:induction false} StartKeepsMutations(db: Db, now: nat, rid: RequestId, canon: Canonical, token: nat, window: nat, ttl: nat)
    ensures KeepsMutations(db, MarkTx(db, now, rid, canon, token, window, ttl).0) && KeepsMutations(db, YieldTx(db, now, rid, canon, token))
  {
  }

  lemma {:induction false} QueueKeepsMutations(db: Db, now: nat, rid: RequestId, canon: Canonical, token: nat, env: Envelope)
    ensures KeepsMutations(db, QueueTx(db, now, rid, canon, token, env).0)
  {
  }

  lemma {:induction false} FinishKeepsMutations(db: Db, now: nat, rid: RequestId, canon: Canonical, token: nat, from: ReceiptState,
                                                terminal: ReceiptState, env: Envelope, effect: Option<(nat, WorkerId)>)
    ensures KeepsMutations(db, FinishTx(db, now, rid, canon, token, from, terminal, env, effect).0)
  {
  }

  lemma {:induction false} ConcludeKeepsMutations(db: Db, now: nat, rid: RequestId, canon: Canonical, guard: Stored, env: Envelope)
    ensures KeepsMutations(db, ConcludeTx(db, now, rid, canon, guard, env).0)
  {
  }

  lemma {:induction false} RecoverKeepsMutations(db: Db, now: nat, rid: RequestId, canon: Canonical, guard: Stored, env: Envelope)
    ensures KeepsMutations(db, RecoverTx(db, now, rid, canon, guard, env).0)
  {
  }

  lemma {:induction false} ReplayKeepsMutations(db: Db, now: nat, rid: RequestId, canon: Canonical, st: ReceiptState, env: Envelope, proof: Option<nat>)
    ensures KeepsMutations(db, ReplayTx(db, now, rid, canon, st, env, proof).0)
  {
  }

  lemma {:induction false} MaintainKeepsMutations(db: Db, now: nat, policy: Policy, rid: RequestId)
    ensures KeepsMutations(db, MaintainTx(db, now, policy, rid))
  {
    hide Deletable;
  }

  lemma {:induction false} ReserveKeepsMutations(db: Db, now: nat, req: Request, canon: Canonical)
    ensures KeepsMutations(db, ReserveTx(db, now, req, canon).0)
  {
  }

  lemma {:induction false} NothingKeepsMutations(db: Db)
    ensures KeepsMutations(db, db)
  {
  }

  lemma {:induction false} AdvanceKeepsMutations(c: Core, req: Request, pc: Pc, ch: Choice)
    ensures KeepsMutations(c.db, Advance(c, req, pc, ch).0.db)
  {
    if pc.Replaying? || pc.Concluding? || pc.Recovering? || pc.Queueing? || pc.Finishing? { ConcludingKeepsMutations(c, req, pc, ch); }
    else if pc.Reserving? || pc.Marking? || pc.Yielding? { OwningKeepsMutations(c, req, pc, ch); }
    else { OthersKeepMutations(c, req, pc, ch); }
    hide Advance;
  }

  lemma {:induction false} OwningKeepsMutations(c: Core, req: Request, pc: Pc, ch: Choice)
    requires pc.Reserving? || pc.Marking? || pc.Yielding?
    ensures KeepsMutations(c.db, Advance(c, req, pc, ch).0.db)
  {
    hide EnvelopeFromReceipt;
    hide KeepsMutations;
    hide ReserveTx;
    hide MarkTx;
    hide YieldTx;
    NothingKeepsMutations(c.db);
    match pc
    case Reserving(canon, plan) => ReserveKeepsMutations(c.db, c.now, req, canon);
    case Marking(lease, held) => StartKeepsMutations(c.db, c.now, req.rid, lease.canon, lease.token, c.policy.window, c.policy.ttl);
    case Yielding(lease) => StartKeepsMutations(c.db, c.now, req.rid, lease.canon, lease.token, 0, 0);
  }

  lemma {:induction false} ConcludingKeepsMutations(c: Core, req: Request, pc: Pc, ch: Choice)
    requires pc.Replaying? || pc.Concluding? || pc.Recovering? || pc.Queueing? || pc.Finishing?
    ensures KeepsMutations(c.db, Advance(c, req, pc, ch).0.db)
  {
    hide EnvelopeFromReceipt;
    hide KeepsMutations;
    hide ReplayTx;
    hide ConcludeTx;
    hide RecoverTx;
    hide QueueTx;
    hide FinishTx;
    NothingKeepsMutations(c.db);
    match pc
    case Replaying(canon, seen, env) =>
      var (terminal, evidence) := ReplayEvidence(req, seen, env);
      ReplayKeepsMutations(c.db, c.now, req.rid, canon, terminal, evidence, seen.proof);
    case Concluding(canon, seen, env, verdict) => ConcludeKeepsMutations(c.db, c.now, req.rid, canon, seen.result, verdict);
    case Recovering(canon, seen, env) => RecoverKeepsMutations(c.db, c.now, req.rid, canon, seen.result, RecoveredEnvelope(req));
    case Queueing(lease) => QueueKeepsMutations(c.db, c.now, req.rid, lease.canon, lease.token, QueuedEnvelope(req));
    case Finishing(lease, from, terminal, env, effect) =>
      FinishKeepsMutations(c.db, c.now, req.rid, lease.canon, lease.token, from, terminal, env, effect);
  }

  lemma {:induction false} OthersKeepMutations(c: Core, req: Request, pc: Pc, ch: Choice)
    requires !(pc.Replaying? || pc.Concluding? || pc.Recovering? || pc.Queueing? || pc.Finishing? || pc.Reserving? || pc.Marking? || pc.Yielding?)
    ensures KeepsMutations(c.db, Advance(c, req, pc, ch).0.db)
  {
    var d := Advance(c, req, pc, ch).0;
    assert d.db.receipts == c.db.receipts && d.db.births == c.db.births;
    hide Advance;
  }

  lemma {:induction false} StepKeepsMutations(s: System, act: Act)
    ensures KeepsMutations(s.core.db, Step(s, act).core.db)
  {
    match act
    case Go(pid, ch) =>
      hide Advance;
      if pid in s.procs { AdvanceKeepsMutations(s.core, s.procs[pid].req, s.procs[pid].pc, ch); }
    case Maintain(rid) =>
      MaintainKeepsMutations(s.core.db, s.core.now, s.core.policy, rid);
      hide MaintainTx;
    case Sight(w, saw) =>
      assert ObserveTx(s.core.db, w, saw).receipts == s.core.db.receipts && ObserveTx(s.core.db, w, saw).births == s.core.db.births;
      hide ObserveTx;
    case _ =>
  }

  /** Rows with one number, in whatever two states of a run, are of one identifier and one mutation. */
  lemma {:induction false} OneMutationPerRow(policy: Policy, acts: seq<Act>, m: nat, rid: RequestId, later: RequestId)
    requires ValidPolicy(policy) && m <= |acts|
    requires var (db, db') := (Run(Initial(policy), acts[..m]).core.db, Run(Initial(policy), acts).core.db);
             rid in db.receipts && later in db'.receipts && db.receipts[rid].born == db'.receipts[later].born
    ensures var (db, db') := (Run(Initial(policy), acts[..m]).core.db, Run(Initial(policy), acts).core.db);
            later == rid && db'.receipts[later].canon == db.receipts[rid].canon
    decreases |acts|
  {
    hide Step;
    var s := Run(Initial(policy), acts[..m]);
    RunOk(policy, acts[..m]);
    assert CoreOk(s.core) by { SystemIsOk(s); }
    assert RowOk(s.core, rid);
    if m == |acts| { assert acts[..m] == acts; }
    else {
      var init := acts[..|acts| - 1];
      assert init[..m] == acts[..m];
      BirthsGrow(policy, init, m);
      StepKeepsMutations(Run(Initial(policy), init), acts[|acts| - 1]);
      hide SystemOk;
      hide CoreOk;
      OneMutationPerRow(policy, init, m, rid, later);
    }
  }

  lemma {:induction false} BirthsGrow(policy: Policy, acts: seq<Act>, m: nat)
    requires m <= |acts|
    ensures Run(Initial(policy), acts[..m]).core.db.births <= Run(Initial(policy), acts).core.db.births
    decreases |acts|
  {
    hide Step;
    if m == |acts| { assert acts[..m] == acts; }
    else {
      assert acts[..|acts| - 1][..m] == acts[..m];
      BirthsGrow(policy, acts[..|acts| - 1], m);
      StepKeepsMutations(Run(Initial(policy), acts[..|acts| - 1]), acts[|acts| - 1]);
    }
  }

  // ----- Every caller is told of its own mutation -----

  /** In every run, whoever is told what a row says asked for that row's own mutation: the row stood at some
      point under the caller's identifier, and whenever a row of that number stands it is of the action, the
      body and the worker that this caller asked for. */
  lemma {:induction false} AnswersAreOwn(policy: Policy, acts: seq<Act>, pid: nat)
    requires ValidPolicy(policy)
    requires var s := Run(Initial(policy), acts);
             pid in s.procs && s.procs[pid].pc.Done? && SpeaksOfRow(s.procs[pid].pc.env) && s.procs[pid].pc.born.Some?
    ensures var p := Run(Initial(policy), acts).procs[pid];
            && (exists canon :: Stand(p.req.rid, p.pc.born.value, canon) in Stood(policy, acts) && AskedFor(p.req, canon))
            && (forall x :: x in Stood(policy, acts) && x.born == p.pc.born.value ==> x.rid == p.req.rid && AskedFor(p.req, x.canon))
  {
    RunIsOwn(policy, acts);
    var p := Run(Initial(policy), acts).procs[pid];
    assert OwnNext(p.req, p.pc, Stood(policy, acts));
    var canon :| Stand(p.req.rid, p.pc.born.value, canon) in Stood(policy, acts) && AskedFor(p.req, canon);
    var own := Stand(p.req.rid, p.pc.born.value, canon);
    hide AskedFor;
    forall x | x in Stood(policy, acts) && x.born == p.pc.born.value ensures x == own { StandsAreOne(policy, acts, own, x); }
  }

  lemma {:induction false} StandsAreOne(policy: Policy, acts: seq<Act>, x: Stand, y: Stand)
    requires ValidPolicy(policy) && x in Stood(policy, acts) && y in Stood(policy, acts) && x.born == y.born
    ensures x == y
  {
    var m := WhenStood(policy, acts, x);
    var n := WhenStood(policy, acts, y);
    if m <= n {
      assert acts[..n][..m] == acts[..m];
      OneMutationPerRow(policy, acts[..n], m, x.rid, y.rid);
    } else {
      assert acts[..m][..n] == acts[..n];
      OneMutationPerRow(policy, acts[..m], n, y.rid, x.rid);
    }
  }

  lemma {:induction false} WhenStood(policy: Policy, acts: seq<Act>, x: Stand) returns (n: nat)
    requires x in Stood(policy, acts)
    ensures n <= |acts|
    ensures var db := Run(Initial(policy), acts[..n]).core.db; x.rid in db.receipts && StandOf(x.rid, db.receipts[x.rid]) == x
  {
    if StoodAt(policy, acts, x, |acts|) { n := |acts|; assert acts[..n] == acts; }
    else { n :| n < |acts| && StoodAt(policy, acts, x, n); }
  }

  // ----- Another mutation under a taken identifier -----

  /** Stored evidence alone cannot tell whether the alias means the row's worker, and nothing else can now. */
  predicate Untold(req: Request, row: Receipt, authority: Option<WorkerId>) {
    req.action.SendInstruction? && row.canon.action.SendInstruction? && req.target.Alias? && row.proof != Some(req.target.selector) && authority.None?
  }

  /** Who submits another mutation under an identifier that has a row is told that the identifier is taken, or,
      exactly if its alias can no longer be resolved, that its target is unprovable. Nothing changes and nothing
      is sent. */
  lemma {:induction false} OtherMutationIsRefused(c: Core, req: Request, ch: Choice)
    requires req.rid in c.db.receipts && !AskedFor(req, c.db.receipts[req.rid].canon) && ch.fault.NoFault?
    ensures var row := c.db.receipts[req.rid];
            var (d, pc) := Drive(c, req, Reading, ch, 2);
            && d == c && pc.Done? && pc.born == Some(row.born)
            && (if Untold(req, row, ch.authority) then pc.env.status.StUncertain? && pc.env.note.TargetUnprovable?
                else pc.env.status.StDuplicateRequest?)
  {
    var row := c.db.receipts[req.rid];
    DriveSnoc(c, req, Reading, ch, 0);
    DriveSnoc(c, req, Reading, ch, 1);
    var proof := ProveWorker(req, row, ch.authority);
    if row.canon.action == req.action && proof.Proven? {
      var canon := CanonicalFor(req, proof.worker);
      assert row.canon != canon;
      assert EnvelopeFromReceipt(req, canon, Some(row)) == DuplicateEnvelope(req);
      hide EnvelopeFromReceipt;
    }
  }

  /** Nor does the reader answer such a request from the row; it answers exactly the row's own. (A decision always
      names its worker.) */
  lemma {:induction false} ReaderAnswersOwn(c: Core, req: Request)
    requires req.rid in c.db.receipts
    ensures var row := c.db.receipts[req.rid];
            && (AskedFor(req, row.canon) && !Untold(req, row, None) && (req.action.AnswerDecision? ==> req.target.Explicit?) ==>
                  ReplayReceipt(c, req) == Some(EnvelopeFromReceipt(req, row.canon, Some(row))))
            && (!AskedFor(req, row.canon) && !Untold(req, row, None) ==>
                  ReplayReceipt(c, req).Some? && ReplayReceipt(c, req).value.status.StDuplicateRequest?)
            && (Untold(req, row, None) ==> ReplayReceipt(c, req).None?)
  {
  }

  /** And whoever missed the row because it could not be read is stopped at the reservation: the rows stay as they
      are, nothing is sent, and the answer does not speak of the row. */
  lemma {:induction false} OtherMutationIsNotReserved(c: Core, req: Request, canon: Canonical, plan: Plan, ch: Choice)
    requires req.rid in c.db.receipts && AskedFor(req, canon) && !AskedFor(req, c.db.receipts[req.rid].canon)
    ensures var (d, pc) := StepReserving(c, req, canon, plan, ch);
            && d.db == c.db && d.hist.sends == c.hist.sends && d.hist.starts == c.hist.starts && pc.Done?
            && (if ch.fault.NoFault? || ch.readable then pc.env.status.StDuplicateRequest?
                else pc.env.status.StBackendUnavailable? && pc.env.disposition.NoReceipt? && pc.born.None?)
  {
    var row := c.db.receipts[req.rid];
    assert row.canon != canon;
    assert EnvelopeFromReceipt(req, canon, Some(row)) == DuplicateEnvelope(req);
    hide EnvelopeFromReceipt;
  }
}
