/** The read-only replay path (`replay_command_receipt`) and the negotiated response: on a finished
    request it answers exactly what a full submission would, and never writes a receipt. */
module ReceiptReplay {
  import opened Options
  import opened Envelopes
  import opened CommandStore
  import opened Submission
  import opened SubmissionInvariant
  import opened Retries

  /** Stored evidence only: a target that would need a current observation is left to the caller. */
  function ReplayReceipt(c: Core, req: Request): Option<Envelope> {
    if req.rid !in c.db.receipts then None
    else
      var row := c.db.receipts[req.rid];
      if row.canon.action != req.action then Some(DuplicateEnvelope(req))
      else
        match ProveWorker(req, row, None)
        case Different => Some(DuplicateEnvelope(req))
        case Unprovable => None
        case Proven(worker) => Some(EnvelopeFromReceipt(req, CanonicalFor(req, worker), Some(row)))
  }

  /** Whenever the read-only path answers for a final row, a full submission of the same request,
      whatever the current authority says, changes nothing, sends nothing and answers the same. */
  lemma {:induction false} ReplayRefinesSubmission(c: Core, req: Request, ch: Choice)
    requires CoreOk(c) && req.rid in c.db.receipts && IsTerminal(c.db.receipts[req.rid].state)
    requires ReplayReceipt(c, req).Some? && ch.fault.NoFault?
    ensures Drive(c, req, Reading, ch, 3) == (c, Done(ReplayReceipt(c, req).value, Some(c.db.receipts[req.rid].born)))
  {
    var row := c.db.receipts[req.rid];
    DriveSnoc(c, req, Reading, ch, 0);
    DriveSnoc(c, req, Reading, ch, 1);
    DriveSnoc(c, req, Reading, ch, 2);
    hide CoreOk;
    var proof := ProveWorker(req, row, None);
    assert row.canon.action == req.action ==> proof == ProveWorker(req, row, ch.authority);
    if row.canon.action == req.action && proof.Proven? {
      var canon := CanonicalFor(req, proof.worker);
      if SameRequest(req, canon, row) { FinishedRequestReplays(c, req, canon, ch); }
    }
  }

  /** It is only for final rows that the two agree: a started send whose owner's lease has run out
      is still in progress to a reader, and recovered as uncertain by a submission. */
  lemma {:induction false} ReaderDoesNotRecover(c: Core, req: Request, worker: WorkerId, ch: Choice)
    requires CoreOk(c) && req.rid in c.db.receipts && ch.fault.NoFault?
    requires var row := c.db.receipts[req.rid];
             && row.state.SendStarted? && !Live(row, c.now) && !Queued(req.rid, row) && row.canon == CanonicalFor(req, worker)
             && ProveWorker(req, row, None) == Proven(worker)
    ensures ReplayReceipt(c, req).Some? && ReplayReceipt(c, req).value.disposition.InProgress?
    ensures var (d, pc) := Drive(c, req, Reading, ch, 3);
            pc.Done? && pc.env.disposition.TerminalUncertain? && d.db.receipts[req.rid].state.Uncertain?
            && d.hist.sends == c.hist.sends && d.now == c.now && d.db.claims == c.db.claims && d.db.pending == c.db.pending
  {
    var row := c.db.receipts[req.rid];
    var canon := CanonicalFor(req, worker);
    assert RowOk(c, req.rid);
    WrittenRowsDecode(req, canon, row);
    assert ProveWorker(req, row, ch.authority) == Proven(worker);
    hide CoreOk;
    hide RowOk;
    hide ProveWorker;
    DriveSnoc(c, req, Reading, ch, 0);
    DriveSnoc(c, req, Reading, ch, 1);
    assert Drive(c, req, Reading, ch, 2) == (c, Recovering(canon, row, EnvelopeFromReceipt(req, canon, Some(row))));
    DriveSnoc(c, req, Reading, ch, 2);
    assert ValidEnvelope(RecoveredEnvelope(req));
  }

  // ----- Response negotiation -----

  /** A version 2 response, or a version 3 one that also reports the observed turn. */
  datatype Response = Plain(env: Envelope) | Observed(env: Envelope, turn: Option<nat>)

  predicate Negotiates(req: Request, v3: bool, env: Envelope) {
    v3 && req.action.SendInstruction? && env.action.SendInstruction? && env.disposition.TerminalAccepted? && env.status.StAccepted?
  }

  /** `_negotiated_submission_envelope`: settle the request's link, then read it. */
  function Negotiated(db: Db, now: nat, req: Request, v3: bool, env: Envelope, sweep: LinkOutcome, fault: Fault): (Db, Response) {
    if !Negotiates(req, v3, env) then (db, Plain(env))
    else
      var settled := SettleTx(db, now, req.rid, sweep);
      match fault
      case RaisedBefore => (db, Observed(env, None))
      case RaisedAfter => (settled, Observed(env, None))
      case NoFault =>
        (settled, Observed(env, if req.rid in settled.ledger && settled.ledger[req.rid].state.LLinked?
                                then settled.ledger[req.rid].linked else None))
  }

  /** The sweep decides something about an open ledger row. */
  predicate Decides(db: Db, now: nat, rid: RequestId, sweep: LinkOutcome) {
    && rid in db.ledger && LedgerOpen(db.ledger[rid])
    && (match sweep
        case Waits => false
        case Links(_) => !WithoutCandidates(db.ledger[rid])
        case TurnsAmbiguous => !WithoutCandidates(db.ledger[rid]) && db.ledger[rid].linkExpires <= now
        case RunsOut => db.ledger[rid].linkExpires <= now || db.ledger[rid].hardExpires <= now)
  }

  /** The replay path's whole effect on the store, and when it is none at all: it never touches a
      receipt, a question or a claim, but a version 3 caller's replay of an accepted instruction
      settles that instruction's ledger row, so it is read-only exactly when there is nothing to settle. */
  lemma {:induction false} ReplayWritesAtMostTheLedger(c: Core, req: Request, v3: bool, sweep: LinkOutcome, fault: Fault)
    requires ReplayReceipt(c, req).Some?
    ensures var (db', response) := Negotiated(c.db, c.now, req, v3, ReplayReceipt(c, req).value, sweep, fault);
            && response.env == ReplayReceipt(c, req).value
            && db' == c.db.(ledger := db'.ledger)
            && (forall r :: r != req.rid ==> Lookup(db'.ledger, r) == Lookup(c.db.ledger, r))
            && (db' == c.db <==>
                  !Negotiates(req, v3, ReplayReceipt(c, req).value) || fault.RaisedBefore? || !Decides(c.db, c.now, req.rid, sweep))
  {
    var db' := SettleTx(c.db, c.now, req.rid, sweep);
    if Decides(c.db, c.now, req.rid, sweep) { assert db'.ledger[req.rid] != c.db.ledger[req.rid]; }
  }

  /** With negotiation at the end of both paths the responses still agree, and so do the stores. */
  lemma {:induction false} NegotiatedReplayRefinesSubmission(c: Core, req: Request, v3: bool, sweep: LinkOutcome, fault: Fault, ch: Choice)
    requires CoreOk(c) && req.rid in c.db.receipts && IsTerminal(c.db.receipts[req.rid].state)
    requires ReplayReceipt(c, req).Some? && ch.fault.NoFault?
    ensures var (d, pc) := Drive(c, req, Reading, ch, 3);
            pc.Done? && Negotiated(d.db, d.now, req, v3, pc.env, sweep, fault)
                        == Negotiated(c.db, c.now, req, v3, ReplayReceipt(c, req).value, sweep, fault)
  {
    ReplayRefinesSubmission(c, req, ch);
  }
}
