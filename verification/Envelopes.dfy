/** Command envelopes and durable receipts: the values a submitter returns, the values a
    receipt row stores, and the decoders that turn the second into the first. */
module Envelopes {
  import opened Options

  type RequestId = nat
  type WorkerId = nat

  datatype Action = SendInstruction | AnswerPending | AnswerDecision

  datatype Status =
    | StAccepted | StRejected | StNotFound | StAmbiguousTarget | StStaleTarget
    | StBackendUnavailable | StBackendUnsupported | StAmbiguousBackendTarget | StBackendFailed
    | StDuplicateRequest | StUncertain | StInvalidRequest | StPending | StAnswerInProgress
    | StDecisionNotPending | StUnknownWorker | StInvalidSelection | StUnsupportedDecision

  datatype Disposition = NoReceipt | InProgress | TerminalAccepted | TerminalRejected | TerminalUncertain

  /** The submission verdict a stored result may carry. */
  datatype Verdict =
    | NoVerdict | Submitted | WrittenToPty
    | AgentNotReady | TargetAmbiguous | PromptNotReceived | PromptUnsubmitted | InputPending
    | PromptStalled | UnknownVerdict

  /** Which message an error carries; the decoders' own fallbacks are told apart. */
  datatype Note =
    | NoNote | AlreadyInProgress | QueuedForBoundary | NotDelivered | DeliveryUnknown
    | RecoveredUnknown | VerificationExpired | PreviousUncertain | EvidenceDisappeared
    | ReusedRequestId | AnsweredElsewhere | ClaimUncertain | ClaimNotReleased
    | StartUncertain | InputUncertain | TargetUnprovable | Cause
    | Malformed | Inconsistent | Unreadable | MissingReceipt

  datatype Envelope = Envelope(
    ok: bool, status: Status, disposition: Disposition, action: Action, rid: RequestId,
    dryRun: bool, verdict: Verdict, turn: Option<nat>, note: Note)

  /** What a mutation is, once its target is resolved to a public worker. */
  datatype Canonical = Canonical(action: Action, worker: WorkerId, body: nat)

  datatype Target = Explicit(worker: WorkerId) | Alias(selector: nat)

  datatype Request = Request(rid: RequestId, action: Action, target: Target, body: nat)

  function CanonicalFor(req: Request, worker: WorkerId): Canonical {
    Canonical(req.action, worker, req.body)
  }

  datatype ReceiptState = Reserved | SendStarted | Accepted | Rejected | Uncertain

  /** A result column: an encoded envelope, or text that is no envelope. */
  datatype Stored = Doc(env: Envelope) | Opaque

  /** One durable row. `born` numbers the insertion that created it. */
  datatype Receipt = Receipt(
    canon: Canonical, state: ReceiptState, status: Status, result: Stored,
    owner: Option<nat>, expires: Option<nat>, reservedAt: nat, startedAt: Option<nat>,
    terminalAt: Option<nat>, updated: nat, proof: Option<nat>, born: nat)

  predicate IsTerminal(state: ReceiptState) {
    state.Accepted? || state.Rejected? || state.Uncertain?
  }

  function DispositionOf(state: ReceiptState): Disposition {
    match state
    case Reserved => InProgress
    case SendStarted => InProgress
    case Accepted => TerminalAccepted
    case Rejected => TerminalRejected
    case Uncertain => TerminalUncertain
  }

  // ----- Validity of a live mutation's envelope (CommandEnvelope.__post_init__) -----

  predicate DurableRejection(st: Status) {
    st in {StRejected, StStaleTarget, StBackendUnavailable, StBackendUnsupported,
           StAmbiguousBackendTarget, StBackendFailed, StDuplicateRequest, StDecisionNotPending,
           StUnknownWorker, StInvalidSelection, StUnsupportedDecision}
  }

  predicate LiveFailure(st: Status) {
    st in {StInvalidRequest, StRejected, StNotFound, StAmbiguousTarget, StStaleTarget,
           StBackendUnavailable, StBackendUnsupported, StAmbiguousBackendTarget, StBackendFailed,
           StAnswerInProgress, StDecisionNotPending, StUnknownWorker, StInvalidSelection,
           StUnsupportedDecision}
  }

  predicate ValidEnvelope(e: Envelope) {
    && !e.dryRun
    && (match e.disposition
        case NoReceipt => !e.ok && LiveFailure(e.status)
        case InProgress => !e.ok && (e.status.StPending? || e.status.StAnswerInProgress?)
        case TerminalAccepted => e.ok && e.status.StAccepted?
        case TerminalRejected => !e.ok && DurableRejection(e.status)
        case TerminalUncertain => !e.ok && e.status.StUncertain?)
    && (e.status.StAnswerInProgress? ==> e.action.AnswerDecision? && (e.disposition.NoReceipt? || e.disposition.InProgress?))
    && (e.ok ==> e.note.NoNote?)
  }

  // ----- Envelope builders -----

  function Failure(req: Request, st: Status): Envelope {
    Envelope(false, st, NoReceipt, req.action, req.rid, false, NoVerdict, None, Cause)
  }

  function UncertainWith(req: Request, note: Note): Envelope {
    Envelope(false, StUncertain, TerminalUncertain, req.action, req.rid, false, NoVerdict, None, note)
  }

  function InProgressEnvelope(req: Request): Envelope {
    Envelope(false, StPending, InProgress, req.action, req.rid, false, NoVerdict, None, AlreadyInProgress)
  }

  function DuplicateEnvelope(req: Request): Envelope {
    Envelope(false, StDuplicateRequest, TerminalRejected, req.action, req.rid, false, NoVerdict, None, ReusedRequestId)
  }

  function AnsweredElsewhereEnvelope(req: Request, reserved: bool): Envelope {
    Envelope(false, StAnswerInProgress, if reserved then InProgress else NoReceipt,
             req.action, req.rid, false, NoVerdict, None, AnsweredElsewhere)
  }

  function AcceptedEnvelope(req: Request, verdict: Verdict, turn: Option<nat>): Envelope {
    Envelope(true, StAccepted, TerminalAccepted, req.action, req.rid, false, verdict, turn, NoNote)
  }

  function QueuedEnvelope(req: Request): Envelope {
    Envelope(false, StPending, InProgress, req.action, req.rid, false, WrittenToPty, None, QueuedForBoundary)
  }

  function NotDeliveredEnvelope(req: Request, verdict: Verdict): Envelope {
    Envelope(false, StRejected, TerminalRejected, req.action, req.rid, false, verdict, None, NotDelivered)
  }

  function UnknownDeliveryEnvelope(req: Request, verdict: Verdict): Envelope {
    Envelope(false, StUncertain, TerminalUncertain, req.action, req.rid, false, verdict, None, DeliveryUnknown)
  }

  function RecoveredEnvelope(req: Request): Envelope {
    Envelope(false, StUncertain, TerminalUncertain, req.action, req.rid, false, UnknownVerdict, None, RecoveredUnknown)
  }

  function ExpiredQueueEnvelope(req: Request): Envelope {
    Envelope(false, StUncertain, TerminalUncertain, req.action, req.rid, false, WrittenToPty, None, VerificationExpired)
  }

  /** `_terminal_envelope`: the same outcome under the disposition of the state being written. */
  function Terminalized(req: Request, e: Envelope, state: ReceiptState): Envelope
    requires IsTerminal(state)
  {
    Envelope(e.ok, e.status, DispositionOf(state), req.action, req.rid, false, e.verdict, e.turn, e.note)
  }

  // ----- Decoders -----

  predicate SameRequest(req: Request, canon: Canonical, row: Receipt) {
    row.canon == canon && canon.action == req.action
  }

  function StoredTerminalEnvelope(req: Request, row: Receipt): Envelope {
    match row.result
    case Opaque => UncertainWith(req, Malformed)
    case Doc(e) =>
      if !IsTerminal(row.state) || !ValidEnvelope(e) then UncertainWith(req, Malformed)
      else
        var identity := e.action == req.action && e.rid == req.rid && e.status == row.status
                        && e.disposition == DispositionOf(row.state);
        var terminal :=
          match row.state
          case Accepted => row.status.StAccepted? && e.ok
          case Rejected => row.status !in {StPending, StAccepted, StUncertain} && !e.ok
          case _ => row.status.StUncertain? && !e.ok;
        if identity && terminal then e else UncertainWith(req, Inconsistent)
  }

  function StoredInProgressEnvelope(req: Request, row: Receipt): Envelope {
    match row.result
    case Opaque => InProgressEnvelope(req)
    case Doc(e) =>
      if ValidEnvelope(e) && e.action == req.action && e.rid == req.rid && !e.ok
         && e.status.StPending? && e.disposition.InProgress? && row.status.StPending?
      then e else InProgressEnvelope(req)
  }

  /** `_envelope_from_receipt`: what a caller of `req` is told when this is the stored row. */
  function EnvelopeFromReceipt(req: Request, canon: Canonical, found: Option<Receipt>): Envelope {
    match found
    case None => UncertainWith(req, MissingReceipt)
    case Some(row) =>
      if !SameRequest(req, canon, row) then DuplicateEnvelope(req)
      else
        match row.state
        case Reserved =>
          if row.status.StPending? then StoredInProgressEnvelope(req, row) else UncertainWith(req, Inconsistent)
        case SendStarted =>
          if row.status.StPending? then StoredInProgressEnvelope(req, row) else UncertainWith(req, Inconsistent)
        case Uncertain =>
          if !row.status.StUncertain? then UncertainWith(req, Inconsistent)
          else
            var stored := StoredTerminalEnvelope(req, row);
            if req.action.SendInstruction? && !stored.verdict.NoVerdict? then stored
            else UncertainWith(req, PreviousUncertain)
        case _ => StoredTerminalEnvelope(req, row)
  }

  predicate FallbackNote(note: Note) {
    note in {Malformed, Inconsistent, Unreadable, MissingReceipt}
  }

  // ----- What the writers leave behind, and that the decoders read it back -----

  /** The five answers by which the backend says an instruction was definitely not delivered. */
  predicate DefiniteNonDelivery(v: Verdict) {
    v in {AgentNotReady, TargetAmbiguous, PromptNotReceived, PromptUnsubmitted, InputPending}
  }

  /** The (state, status, result) triples any store transaction writes for a request id. */
  predicate WellStored(rid: RequestId, row: Receipt) {
    match row.state
    case Reserved => row.status.StPending? && row.result.Doc? && row.result.env == PendingDoc(rid, row)
    case SendStarted =>
      row.status.StPending? && row.result.Doc? &&
      (row.result.env == PendingDoc(rid, row) || row.result.env == QueuedDoc(rid, row))
    case Uncertain =>
      row.status.StUncertain? && (row.result.Doc? ==> StoredDocOk(rid, row))
    case _ => row.result.Doc? && StoredDocOk(rid, row)
  }

  predicate StoredDocOk(rid: RequestId, row: Receipt)
    requires row.result.Doc?
  {
    var e := row.result.env;
    ValidEnvelope(e) && e.rid == rid && e.action == row.canon.action && e.status == row.status
    && e.disposition == DispositionOf(row.state) && !FallbackNote(e.note)
  }

  function PendingDoc(rid: RequestId, row: Receipt): Envelope {
    Envelope(false, StPending, InProgress, row.canon.action, rid, false, NoVerdict, None, AlreadyInProgress)
  }

  function QueuedDoc(rid: RequestId, row: Receipt): Envelope {
    Envelope(false, StPending, InProgress, row.canon.action, rid, false, WrittenToPty, None, QueuedForBoundary)
  }

  predicate Queued(rid: RequestId, row: Receipt) {
    row.state.SendStarted? && row.result == Doc(QueuedDoc(rid, row))
  }

  /** Reading back any row a writer produced reports that row's state and status, never a
      malformed-evidence fallback, and returns the stored envelope itself whenever the row holds
      a final verdict or an instruction's recorded delivery verdict. */
  lemma {:induction false} WrittenRowsDecode(req: Request, canon: Canonical, row: Receipt)
    requires SameRequest(req, canon, row) && WellStored(req.rid, row)
    ensures var e := EnvelopeFromReceipt(req, canon, Some(row));
            && ValidEnvelope(e)
            && e.status == row.status
            && e.disposition == DispositionOf(row.state)
            && !FallbackNote(e.note)
            && (!row.state.Uncertain? ==> row.result == Doc(e))
            && ((row.state.Uncertain? && row.result.Doc? && req.action.SendInstruction?
                 && !row.result.env.verdict.NoVerdict?) ==> row.result == Doc(e))
  {
    var stored := StoredTerminalEnvelope(req, row);
    match row.state
    case Reserved => assert ValidEnvelope(PendingDoc(req.rid, row));
    case SendStarted => assert ValidEnvelope(PendingDoc(req.rid, row)) && ValidEnvelope(QueuedDoc(req.rid, row));
    case Uncertain => if row.result.Doc? { assert stored == row.result.env; }
    case Rejected => assert stored == row.result.env;
    case Accepted =>
  }
}
