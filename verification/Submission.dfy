/** The submission path (src/tendwire/command_submission.py) as a step system. Any number of
    submitters share one store; each step is one store transaction, one backend call or one
    local decision, and between two steps of a submitter anything else may happen, including
    nothing ever again (a crash). */
module Submission {
  import opened Options
  import opened Envelopes
  import opened CommandStore

  // ----- History -----

  datatype Outcome = Prompted(verdict: Verdict) | Typed(claim: nat, done: bool)

  /** One `send_started` commit (`until` is when its owner's lease runs out), one backend call, one
      crossing of the pane-input boundary. */
  datatype Start = Start(rid: RequestId, token: nat, born: nat, at: nat, until: nat)
  datatype Send = Send(rid: RequestId, token: nat, born: nat, outcome: Outcome)
  datatype Crossing = Crossing(worker: WorkerId, revision: nat, episode: nat, claim: nat, rid: RequestId,
                               token: nat, born: nat, at: nat)

  /** `finals[b]` is the terminal state ever committed for the row numbered b. */
  datatype History = History(starts: seq<Start>, sends: seq<Send>, crossings: seq<Crossing>,
                             finals: map<nat, ReceiptState>)

  /** `now` is what a transaction takes for the time. The code reads its clock before the transaction begins;
      that the times of successive transactions never run backwards is an assumption of the model, and of
      every theorem about leases, horizon and retention. */
  datatype Core = Core(db: Db, now: nat, policy: Policy, hist: History)

  // ----- Submitters -----

  /** A granted reservation: what for, the fencing token, and the row it was granted on. */
  datatype Lease = Lease(canon: Canonical, token: nat, born: nat)
  datatype Hold = Hold(claim: nat, route: Route, revision: nat, claimedAt: nat)

  datatype Plan = Refuse(status: Status) | Prompt | Answer(route: Route)

  datatype After = ThenReturn | ThenRelease(lease: Lease, hold: Hold)

  datatype Pc =
    | Reading
    | Deciding(seen: Receipt)
    | Replaying(canon: Canonical, seen: Receipt, env: Envelope)
    | Settling(canon: Canonical, seen: Receipt, env: Envelope)
    | Linking(canon: Canonical, seen: Receipt, env: Envelope, settled: Option<LedgerState>)
    | Concluding(canon: Canonical, seen: Receipt, env: Envelope, verdict: Envelope)
    | Recovering(canon: Canonical, seen: Receipt, env: Envelope)
    | Preparing(takeover: Option<WorkerId>)
    | Reserving(canon: Canonical, plan: Plan)
    | Claiming(lease: Lease, route: Route)
    | Yielding(lease: Lease)
    | Marking(lease: Lease, held: Option<Hold>)
    | Releasing(lease: Lease, hold: Hold, env: Envelope, born: Option<nat>)
    | Started(lease: Lease, held: Option<Hold>)
    | Typing(lease: Lease, hold: Hold)
    | Dropping(lease: Lease, hold: Hold)
    | Queueing(lease: Lease)
    | Finishing(lease: Lease, from: ReceiptState, terminal: ReceiptState, env: Envelope,
                effect: Option<(nat, WorkerId)>)
    | Rereading(canon: Canonical, after: After)
    | Done(env: Envelope, born: Option<nat>)

  // ----- What the environment decides at a step -----

  datatype Fault = NoFault | RaisedBefore | RaisedAfter

  datatype How = Ready(route: Route) | Permanent(status: Status) | Transient

  datatype Prep = NoSnapshot | Unresolved(status: Status) | Resolved(worker: WorkerId, how: How)

  /** `authority` is the worker a healthy current snapshot resolves the target to; `reply` and
      `typed` are the backend's answers; `readable` says a fallback read succeeds. */
  datatype Choice = Choice(fault: Fault, authority: Option<WorkerId>, prep: Prep, link: LinkOutcome,
                           turn: Option<nat>, fingerprint: Option<nat>, refusal: Status,
                           reply: Verdict, typed: bool, readable: bool)

  // ----- Decisions over an existing receipt -----

  datatype Decision =
    | Tell(env: Envelope)
    | ReplayTerminal(canon: Canonical, env: Envelope)
    | SettleQueued(canon: Canonical, env: Envelope)
    | RecoverSend(canon: Canonical, env: Envelope)
    | TakeOver(worker: WorkerId)

  datatype Proof = Proven(worker: WorkerId) | Unprovable | Different

  /** The worker that a request names outright by its id; an answer to a pending choice takes no target. */
  function NamedWorker(req: Request): Option<WorkerId> {
    if req.action.AnswerPending? || req.target.Alias? then None else Some(req.target.worker)
  }

  /** Target resolution: an id resolves to the worker that has it, anything else to what was found. */
  function Meant(req: Request, found: WorkerId): WorkerId {
    if NamedWorker(req).Some? then NamedWorker(req).value else found
  }

  /** `_proven_replay_worker_id`: stored evidence first, current authority last. */
  function ProveWorker(req: Request, row: Receipt, authority: Option<WorkerId>): Proof {
    var stored := row.canon.worker;
    if req.action.AnswerPending? then Proven(stored)
    else if req.target.Explicit? then (if req.target.worker == stored then Proven(stored) else Different)
    else if req.action.AnswerDecision? then Different
    else if row.proof == Some(req.target.selector) then Proven(stored)
    else
      match authority
      case None => Unprovable
      case Some(w) => if w == stored then Proven(stored) else Different
  }

  /** `_receipt_authority`. */
  function Authority(req: Request, row: Receipt, authority: Option<WorkerId>, now: nat): Decision {
    if row.canon.action != req.action then Tell(DuplicateEnvelope(req))
    else
      match ProveWorker(req, row, authority)
      case Different => Tell(DuplicateEnvelope(req))
      case Unprovable => Tell(UncertainWith(req, TargetUnprovable))
      case Proven(worker) =>
        var canon := CanonicalFor(req, worker);
        var replay := EnvelopeFromReceipt(req, canon, Some(row));
        if IsTerminal(row.state) then
          (if replay.status.StDuplicateRequest? then Tell(replay) else ReplayTerminal(canon, replay))
        else if !replay.status.StPending? then Tell(replay)
        else if row.state.SendStarted? then
          if replay.verdict.WrittenToPty? then SettleQueued(canon, replay)
          else if Live(row, now) then Tell(replay)
          else RecoverSend(canon, replay)
        else if Live(row, now) then Tell(replay)
        else TakeOver(worker)
  }

  /** What `_reserve_terminal_replay` re-inserts if the row it read is gone. */
  function ReplayEvidence(req: Request, seen: Receipt, replay: Envelope): (ReceiptState, Envelope) {
    if seen.state.Rejected? && !replay.ok && replay.status !in {StPending, StAccepted, StUncertain}
    then (Rejected, replay)
    else (Uncertain, UncertainWith(req, EvidenceDisappeared))
  }

  // ----- One step of one submitter -----

  /** Commit a new database value, noting the terminal state of the row for `rid`, if it has one. */
  function Committed(c: Core, rid: RequestId, db: Db): Core {
    c.(db := db, hist := c.hist.(finals := Noted(c.hist.finals, rid, db)))
  }

  function Noted(finals: map<nat, ReceiptState>, rid: RequestId, db: Db): map<nat, ReceiptState> {
    if rid in db.receipts && IsTerminal(db.receipts[rid].state)
    then finals[db.receipts[rid].born := db.receipts[rid].state]
    else finals
  }

  /** Run a transaction under a fault: it may raise before or after its commit landed. */
  function Attempt(c: Core, rid: RequestId, fault: Fault, outcome: (Db, Reply)): (Core, Option<Reply>) {
    if fault.RaisedBefore? || outcome.1.tag.TRaised? then (c, None)
    else (Committed(c, rid, outcome.0), if fault.NoFault? then Some(outcome.1) else None)
  }

  function BornOf(row: Option<Receipt>): Option<nat> {
    match row
    case None => None
    case Some(r) => Some(r.born)
  }

  function Return(req: Request, canon: Canonical, row: Option<Receipt>): Pc {
    Done(EnvelopeFromReceipt(req, canon, row), BornOf(row))
  }

  /** Attempt a transaction and tell the caller what its row now says, or go on to `otherwise`. */
  function Concluded(c: Core, req: Request, canon: Canonical, fault: Fault, tx: (Db, Reply), otherwise: Pc): (Core, Pc) {
    var (c', reply) := Attempt(c, req.rid, fault, tx);
    match reply
    case None => (c', otherwise)
    case Some(r) => (c', Return(req, canon, r.row))
  }

  function FinishPc(req: Request, lease: Lease, from: ReceiptState, terminal: ReceiptState, env: Envelope,
                    effect: Option<(nat, WorkerId)>): Pc
    requires IsTerminal(terminal)
  {
    Finishing(lease, from, terminal, Terminalized(req, env, terminal), effect)
  }

  function StepReading(c: Core, req: Request, ch: Choice): (Core, Pc) {
    if ch.fault.NoFault? && req.rid in c.db.receipts then (c, Deciding(c.db.receipts[req.rid])) else (c, Preparing(None))
  }

  function StepDeciding(c: Core, req: Request, seen: Receipt, ch: Choice): (Core, Pc) {
    match Authority(req, seen, ch.authority, c.now)
    case Tell(env) => (c, Done(env, Some(seen.born)))
    case ReplayTerminal(canon, env) => (c, Replaying(canon, seen, env))
    case SettleQueued(canon, env) => (c, Settling(canon, seen, env))
    case RecoverSend(canon, env) => (c, Recovering(canon, seen, env))
    case TakeOver(worker) => (c, Preparing(Some(worker)))
  }

  function StepReplaying(c: Core, req: Request, canon: Canonical, seen: Receipt, env: Envelope, ch: Choice): (Core, Pc) {
    var (terminal, evidence) := ReplayEvidence(req, seen, env);
    Concluded(c, req, canon, ch.fault, ReplayTx(c.db, c.now, req.rid, canon, terminal, evidence, seen.proof),
              Rereading(canon, ThenReturn))
  }

  function StepSettling(c: Core, req: Request, canon: Canonical, seen: Receipt, env: Envelope, ch: Choice): (Core, Pc) {
    var db' := SettleTx(c.db, c.now, req.rid, ch.link);
    match ch.fault
    case RaisedBefore => (c, Done(env, Some(seen.born)))
    case RaisedAfter => (c.(db := db'), Done(env, Some(seen.born)))
    case NoFault =>
      (c.(db := db'),
       Linking(canon, seen, env, if req.rid in db'.ledger then Some(db'.ledger[req.rid].state) else None))
  }

  function StepLinking(c: Core, req: Request, canon: Canonical, seen: Receipt, env: Envelope,
                       settled: Option<LedgerState>, ch: Choice): (Core, Pc) {
    if !ch.fault.NoFault? then (c, Done(env, Some(seen.born)))
    else if req.rid in c.db.ledger && c.db.ledger[req.rid].state.LLinked? && ch.turn.Some? then
      (c, Concluding(canon, seen, env, AcceptedEnvelope(req, WrittenToPty, ch.turn)))
    else if settled == Some(LAmbiguous) || settled == Some(LExpired) then
      (c, Concluding(canon, seen, env, ExpiredQueueEnvelope(req)))
    else (c, Done(env, Some(seen.born)))
  }

  function ConcludeTx(db: Db, now: nat, rid: RequestId, canon: Canonical, guard: Stored, verdict: Envelope): (Db, Reply) {
    if verdict.ok then FinishQueuedTx(db, now, rid, canon, guard, verdict)
    else FinishUnverifiedTx(db, now, rid, canon, guard, verdict)
  }

  function StepConcluding(c: Core, req: Request, canon: Canonical, seen: Receipt, env: Envelope,
                          verdict: Envelope, ch: Choice): (Core, Pc) {
    Concluded(c, req, canon, ch.fault, ConcludeTx(c.db, c.now, req.rid, canon, seen.result, verdict),
              Done(env, Some(seen.born)))
  }

  function StepRecovering(c: Core, req: Request, canon: Canonical, seen: Receipt, env: Envelope, ch: Choice): (Core, Pc) {
    Concluded(c, req, canon, ch.fault, RecoverTx(c.db, c.now, req.rid, canon, seen.result, RecoveredEnvelope(req)),
              Done(env, Some(seen.born)))
  }

  /** Snapshot, target resolution, binding and socket work: no store write, no send. */
  function StepPreparing(c: Core, req: Request, takeover: Option<WorkerId>, ch: Choice): (Core, Pc) {
    var unready := if takeover.Some? then Done(InProgressEnvelope(req), None)
                   else Done(Failure(req, StBackendUnavailable), None);
    match ch.prep
    case NoSnapshot => (c, unready)
    case Unresolved(st) =>
      if takeover.Some? then
        if st.StAnswerInProgress? && req.action.AnswerDecision? then (c, Done(AnsweredElsewhereEnvelope(req, true), None))
        else if req.action.SendInstruction? || !DurableRejection(st) then (c, unready)
        else (c, Reserving(CanonicalFor(req, takeover.value), Refuse(st)))
      else if LiveFailure(st) && (st.StAnswerInProgress? ==> req.action.AnswerDecision?)
      then (c, Done(Failure(req, st), None))
      else (c, unready)
    case Resolved(found, how) =>
      var worker := Meant(req, found);
      if takeover.Some? && worker != takeover.value then
        if req.action.SendInstruction? then (c, Done(DuplicateEnvelope(req), None))
        else (c, Reserving(CanonicalFor(req, takeover.value), Refuse(StDuplicateRequest)))
      else
        var canon := CanonicalFor(req, worker);
        match how
        case Transient => (c, unready)
        case Permanent(st) => if DurableRejection(st) then (c, Reserving(canon, Refuse(st))) else (c, unready)
        case Ready(route) => (c, Reserving(canon, if req.action.SendInstruction? then Prompt else Answer(route)))
  }

  function StepReserving(c: Core, req: Request, canon: Canonical, plan: Plan, ch: Choice): (Core, Pc) {
    AfterReserving(c, req, canon, plan, ch, ReserveTx(c.db, c.now, req, canon))
  }

  function AfterReserving(c: Core, req: Request, canon: Canonical, plan: Plan, ch: Choice, tx: (Db, Reply)): (Core, Pc) {
    var (c', reply) := Attempt(c, req.rid, ch.fault, tx);
    match reply
    case None =>
      if ch.readable && req.rid in c'.db.receipts then (c', Return(req, canon, Some(c'.db.receipts[req.rid])))
      else (c', Done(Failure(req, StBackendUnavailable), None))
    case Some(r) =>
      if r.tag.TConflict? then (c', Done(DuplicateEnvelope(req), None))
      else if !r.tag.TReserved? || r.row.None? then (c', Return(req, canon, r.row))
      else (c', Planned(req, Lease(canon, r.token, r.row.value.born), plan))
  }

  function Planned(req: Request, lease: Lease, plan: Plan): Pc {
    match plan
    case Refuse(st) => FinishPc(req, lease, Reserved, Rejected, Failure(req, st), None)
    case Prompt => Marking(lease, None)
    case Answer(route) => Claiming(lease, route)
  }

  /** How a lost claim is reported: an answered choice changed; a decision has its own reasons. */
  function RefusalStatus(req: Request, ch: Choice): Status {
    if req.action.AnswerPending? then StStaleTarget
    else if DurableRejection(ch.refusal) then ch.refusal else StDecisionNotPending
  }

  function StepClaiming(c: Core, req: Request, lease: Lease, route: Route, ch: Choice): (Core, Pc) {
    var worker := lease.canon.worker;
    var (db', verdict) := ClaimTx(c.db, c.now, worker, lease.canon.body, ch.fingerprint);
    var unclaimed := FinishPc(req, lease, Reserved, Uncertain, UncertainWith(req, ClaimUncertain), None);
    var refused := FinishPc(req, lease, Reserved, Rejected, Failure(req, RefusalStatus(req, ch)), None);
    match ch.fault
    case RaisedBefore => (c, unclaimed)
    case RaisedAfter => (c.(db := db'), unclaimed)
    case NoFault =>
      match verdict
      case ClaimGranted(token, granted, revision) =>
        if granted == route then (c.(db := db'), Marking(lease, Some(Hold(token, granted, revision, c.now))))
        else (c.(db := db'), refused)
      case ClaimBusy => (c.(db := db'), if req.action.AnswerDecision? then Yielding(lease) else refused)
      case ClaimRefused => (c.(db := db'), refused)
  }

  function StepYielding(c: Core, req: Request, lease: Lease, ch: Choice): (Core, Pc) {
    var c' := if ch.fault.RaisedBefore? then c
              else c.(db := YieldTx(c.db, c.now, req.rid, lease.canon, lease.token));
    (c', Done(AnsweredElsewhereEnvelope(req, true), None))
  }

  function StepMarking(c: Core, req: Request, lease: Lease, held: Option<Hold>, ch: Choice): (Core, Pc) {
    var (_, reply) := MarkTx(c.db, c.now, req.rid, lease.canon, lease.token, c.policy.window, c.policy.ttl);
    AfterMarking(c, Marked(c, req, lease), req, lease, held, ch.fault, reply)
  }

  /** The send-start transaction, committed and put on record. */
  function Marked(c: Core, req: Request, lease: Lease): Core {
    var (db', reply) := MarkTx(c.db, c.now, req.rid, lease.canon, lease.token, c.policy.window, c.policy.ttl);
    var d := Committed(c, req.rid, db');
    if reply.tag.TStarted?
    then d.(hist := d.hist.(starts := d.hist.starts + [Start(req.rid, lease.token, lease.born, c.now, LeaseEnd(reply.row, c.now))]))
    else d
  }

  function LeaseEnd(row: Option<Receipt>, now: nat): nat {
    if row.Some? && row.value.expires.Some? then row.value.expires.value else now
  }

  function AfterMarking(c: Core, d: Core, req: Request, lease: Lease, held: Option<Hold>, fault: Fault, reply: Reply): (Core, Pc) {
    var reread := Rereading(lease.canon, if held.Some? then ThenRelease(lease, held.value) else ThenReturn);
    if fault.RaisedBefore? then (c, reread)
    else if fault.RaisedAfter? then (d, reread)
    else if reply.tag.TStarted? then (d, Started(lease, held))
    else if reply.row.None? then (d, reread)
    else
      var env := EnvelopeFromReceipt(req, lease.canon, reply.row);
      if env.status.StUncertain? && !(reply.row.value.state.SendStarted? || reply.row.value.state.Uncertain?) then (d, reread)
      else if held.Some? then (d, Releasing(lease, held.value, env, BornOf(reply.row)))
      else (d, Done(env, BornOf(reply.row)))
  }

  function StepReleasing(c: Core, req: Request, lease: Lease, hold: Hold, env: Envelope, born: Option<nat>, ch: Choice): (Core, Pc) {
    var (db', dropped) := ReleaseClaimTx(c.db, hold.route.worker, hold.claim);
    var released := ch.fault.NoFault? && dropped;
    var c' := if ch.fault.RaisedBefore? then c else c.(db := db');
    if env.status.StPending? && !released
    then (c', FinishPc(req, lease, Reserved, Uncertain, UncertainWith(req, ClaimNotReleased), None))
    else (c', Done(env, born))
  }

  function Sent(c: Core, req: Request, lease: Lease, outcome: Outcome): Core {
    c.(hist := c.hist.(sends := c.hist.sends + [Send(req.rid, lease.token, lease.born, outcome)]))
  }

  /** The external mutation of an instruction, and what its answer means. */
  function StepPrompting(c: Core, req: Request, lease: Lease, ch: Choice): (Core, Pc) {
    var c' := Sent(c, req, lease, Prompted(ch.reply));
    if ch.reply.Submitted? then
      (c', FinishPc(req, lease, SendStarted, Accepted, AcceptedEnvelope(req, Submitted, ch.turn), None))
    else if ch.reply.WrittenToPty? then (c', Queueing(lease))
    else if DefiniteNonDelivery(ch.reply) then
      (c', FinishPc(req, lease, SendStarted, Rejected, NotDeliveredEnvelope(req, ch.reply), None))
    else
      (c', FinishPc(req, lease, SendStarted, Uncertain,
                    UnknownDeliveryEnvelope(req, if ch.reply.PromptStalled? then PromptStalled else UnknownVerdict), None))
  }

  function StepCrossing(c: Core, req: Request, lease: Lease, hold: Hold, ch: Choice): (Core, Pc) {
    var worker := hold.route.worker;
    var (db', route) := StartClaimTx(c.db, c.now, worker, hold.claim, ch.fingerprint);
    var crossed := c.(db := db', hist := c.hist.(crossings := c.hist.crossings +
      [Crossing(worker, hold.revision, EpisodeOf(c.db.episodes, worker), hold.claim, req.rid, lease.token, lease.born, c.now)]));
    var c' := if ch.fault.RaisedBefore? then c else if route.Some? then crossed else c.(db := db');
    if ch.fault.NoFault? && route == Some(hold.route) then (c', Typing(lease, hold)) else (c', Dropping(lease, hold))
  }

  function StepTyping(c: Core, req: Request, lease: Lease, hold: Hold, ch: Choice): (Core, Pc) {
    var c' := Sent(c, req, lease, Typed(hold.claim, ch.typed));
    if ch.typed then
      (c', FinishPc(req, lease, SendStarted, Accepted, AcceptedEnvelope(req, NoVerdict, None),
                    Some((hold.claim, hold.route.worker))))
    else (c', FinishPc(req, lease, SendStarted, Uncertain, UncertainWith(req, InputUncertain), None))
  }

  function StepDropping(c: Core, req: Request, lease: Lease, hold: Hold, ch: Choice): (Core, Pc) {
    var (db', _) := ReleaseClaimTx(c.db, hold.route.worker, hold.claim);
    (if ch.fault.RaisedBefore? then c else c.(db := db'),
     FinishPc(req, lease, SendStarted, Uncertain, UncertainWith(req, StartUncertain), None))
  }

  function StepQueueing(c: Core, req: Request, lease: Lease, ch: Choice): (Core, Pc) {
    Concluded(c, req, lease.canon, ch.fault,
              QueueTx(c.db, c.now, req.rid, lease.canon, lease.token, QueuedEnvelope(req)), Rereading(lease.canon, ThenReturn))
  }

  function StepFinishing(c: Core, req: Request, lease: Lease, from: ReceiptState, terminal: ReceiptState,
                         env: Envelope, effect: Option<(nat, WorkerId)>, ch: Choice): (Core, Pc) {
    Concluded(c, req, lease.canon, ch.fault,
              FinishTx(c.db, c.now, req.rid, lease.canon, lease.token, from, terminal, env, effect),
              Rereading(lease.canon, ThenReturn))
  }

  function StepRereading(c: Core, req: Request, canon: Canonical, after: After, ch: Choice): (Core, Pc) {
    var row := if ch.fault.NoFault? then Lookup(c.db.receipts, req.rid) else None;
    var env := EnvelopeFromReceipt(req, canon, row);
    match after
    case ThenReturn => (c, Done(env, BornOf(row)))
    case ThenRelease(lease, hold) => (c, Releasing(lease, hold, env, BornOf(row)))
  }

  function Advance(c: Core, req: Request, pc: Pc, ch: Choice): (Core, Pc) {
    match pc
    case Reading => StepReading(c, req, ch)
    case Deciding(seen) => StepDeciding(c, req, seen, ch)
    case Replaying(canon, seen, env) => StepReplaying(c, req, canon, seen, env, ch)
    case Settling(canon, seen, env) => StepSettling(c, req, canon, seen, env, ch)
    case Linking(canon, seen, env, settled) => StepLinking(c, req, canon, seen, env, settled, ch)
    case Concluding(canon, seen, env, verdict) => StepConcluding(c, req, canon, seen, env, verdict, ch)
    case Recovering(canon, seen, env) => StepRecovering(c, req, canon, seen, env, ch)
    case Preparing(takeover) => StepPreparing(c, req, takeover, ch)
    case Reserving(canon, plan) => StepReserving(c, req, canon, plan, ch)
    case Claiming(lease, route) => StepClaiming(c, req, lease, route, ch)
    case Yielding(lease) => StepYielding(c, req, lease, ch)
    case Marking(lease, hold) => StepMarking(c, req, lease, hold, ch)
    case Releasing(lease, hold, env, born) => StepReleasing(c, req, lease, hold, env, born, ch)
    case Started(lease, None) => StepPrompting(c, req, lease, ch)
    case Started(lease, Some(hold)) => StepCrossing(c, req, lease, hold, ch)
    case Typing(lease, hold) => StepTyping(c, req, lease, hold, ch)
    case Dropping(lease, hold) => StepDropping(c, req, lease, hold, ch)
    case Queueing(lease) => StepQueueing(c, req, lease, ch)
    case Finishing(lease, from, terminal, env, effect) => StepFinishing(c, req, lease, from, terminal, env, effect, ch)
    case Rereading(canon, after) => StepRereading(c, req, canon, after, ch)
    case Done(_, _) => (c, pc)
  }

  // ----- The whole system -----

  datatype Proc = Proc(req: Request, pc: Pc)

  datatype System = System(core: Core, procs: map<nat, Proc>)

  datatype Act =
    | Tick(seconds: nat)
    | Enter(pid: nat, req: Request)
    | Go(pid: nat, choice: Choice)
    | Sweep(rid: RequestId, outcome: LinkOutcome)
    | Maintain(rid: RequestId)
    | Sight(worker: WorkerId, saw: Sighting)

  function Step(s: System, act: Act): System {
    match act
    case Tick(d) => s.(core := s.core.(now := s.core.now + d))
    case Enter(pid, req) => if pid in s.procs then s else s.(procs := s.procs[pid := Proc(req, Reading)])
    case Go(pid, ch) =>
      if pid !in s.procs then s
      else
        var p := s.procs[pid];
        var (core, pc) := Advance(s.core, p.req, p.pc, ch);
        System(core, s.procs[pid := Proc(p.req, pc)])
    case Sweep(rid, outcome) => s.(core := s.core.(db := SettleTx(s.core.db, s.core.now, rid, outcome)))
    case Maintain(rid) => s.(core := Committed(s.core, rid, MaintainTx(s.core.db, s.core.now, s.core.policy, rid)))
    case Sight(w, saw) => s.(core := s.core.(db := ObserveTx(s.core.db, w, saw)))
  }

  function Run(s: System, acts: seq<Act>): System
    decreases |acts|
  {
    if acts == [] then s else Step(Run(s, acts[..|acts| - 1]), acts[|acts| - 1])
  }

  lemma {:induction false} RunSnoc(s: System, acts: seq<Act>, act: Act)
    ensures Run(s, acts + [act]) == Step(Run(s, acts), act)
  {
    assert (acts + [act])[..|acts|] == acts;
  }

  lemma {:induction false} RunJoined(s: System, a: seq<Act>, b: seq<Act>)
    ensures Run(s, a + b) == Run(Run(s, a), b)
    decreases |b|
  {
    hide Step;
    if b == [] { assert a + b == a; }
    else {
      RunJoined(s, a, b[..|b| - 1]);
      assert (a + b)[..|a + b| - 1] == a + b[..|b| - 1];
    }
  }

  function Initial(policy: Policy): System {
    System(Core(Db(map[], map[], map[], map[], 0, 0, 0, map[]), 0, policy, History([], [], [], map[])), map[])
  }

  predicate NotOf(act: Act, me: nat) {
    (act.Go? ==> act.pid != me) && (act.Enter? ==> act.pid != me)
  }

  /** Nobody else acts under our number. */
  predicate ByOthers(acts: seq<Act>, me: nat) {
    forall i :: 0 <= i < |acts| ==> NotOf(acts[i], me)
  }

  lemma {:induction false} OthersLeaveUs(s: System, acts: seq<Act>, me: nat)
    requires ByOthers(acts, me)
    ensures me in Run(s, acts).procs <==> me in s.procs
    ensures me in s.procs ==> Run(s, acts).procs[me] == s.procs[me]
    decreases |acts|
  {
    hide Advance;
    if acts != [] {
      assert NotOf(acts[|acts| - 1], me);
      OthersLeaveUs(s, acts[..|acts| - 1], me);
    }
  }

  /** In these acts no time passes. */
  predicate NoTimePasses(acts: seq<Act>) {
    forall i :: 0 <= i < |acts| ==> !acts[i].Tick?
  }

  lemma {:induction false} ClockStands(s: System, acts: seq<Act>)
    requires NoTimePasses(acts)
    ensures Run(s, acts).core.now == s.core.now
    decreases |acts|
  {
    hide Advance;
    if acts != [] {
      var prior, act := Run(s, acts[..|acts| - 1]), acts[|acts| - 1];
      ClockStands(s, acts[..|acts| - 1]);
      if act.Go? && act.pid in prior.procs { AdvanceTakesNoTime(prior.core, prior.procs[act.pid].req, prior.procs[act.pid].pc, act.choice); }
    }
  }

  lemma {:induction false} AdvanceTakesNoTime(c: Core, req: Request, pc: Pc, ch: Choice)
    ensures Advance(c, req, pc, ch).0.now == c.now
  {
  }
}
