/** The command store's transactions (src/tendwire/store/sqlite.py) as functions from one
    database value to the next. Each is one BEGIN IMMEDIATE ... COMMIT. */
module CommandStore {
  import opened Options
  import opened Envelopes

  /** Seconds a reservation owner, and a pending claim, are protected for. */
  const OWNER_LEASE: nat := 30
  const CLAIM_LEASE: nat := 30
  const MIN_RETENTION: nat := 691200
  const MAX_RETRY_HORIZON: nat := 604800

  // ----- Rows -----

  datatype LedgerState = LSendStarted | LSubmitted | LUncertain | LLinked | LAmbiguous | LExpired | LCancelled

  /** The shadow ledger row of an instruction: has its turn been observed yet? */
  datatype Ledger = Ledger(state: LedgerState, submittedAt: Option<nat>, linked: Option<nat>,
                           linkExpires: nat, hardExpires: nat)

  /** Where an answer goes: the worker, its fingerprint, its private binding and pane, and the
      keystroke selection there. */
  datatype Route = Route(worker: WorkerId, fingerprint: nat, binding: nat, pane: nat, selection: nat)

  datatype Observation = ObservedOpen | ObservedNone | ObservedInvalid | ObservedFailed

  /** A worker's pending question. `options` maps a request body to the selection it names. */
  datatype Pending = Pending(seen: Observation, current: bool, revision: nat, binding: nat, pane: nat,
                             options: map<nat, nat>)

  datatype ClaimState = ClaimHeld | ClaimStarted

  datatype Claim = Claim(token: nat, revision: nat, body: nat, route: Route, state: ClaimState, claimedAt: nat)

  /** `tokens`, `claimTokens` and `births` are the next unused owner token, claim token and row
      number: random tokens never repeat. `episodes[w]` counts how often w's question was closed
      or replaced. */
  datatype Db = Db(
    receipts: map<RequestId, Receipt>, ledger: map<RequestId, Ledger>,
    pending: map<WorkerId, Pending>, claims: map<WorkerId, Claim>,
    tokens: nat, claimTokens: nat, births: nat, episodes: map<WorkerId, nat>)

  datatype Tag = TReserved | TConflict | TTerminal | TInProgress | TNotFound | TInvalid | TNotOwner
               | TStarted | TQueued | TRaised

  /** A store reply: a status word, the row as it now stands, and the token it granted. */
  datatype Reply = Reply(tag: Tag, row: Option<Receipt>, token: nat)

  function Lookup<V>(m: map<nat, V>, key: nat): Option<V> {
    if key in m then Some(m[key]) else None
  }

  function Put(db: Db, rid: RequestId, row: Receipt): Db {
    db.(receipts := db.receipts[rid := row])
  }

  predicate Live(row: Receipt, now: nat) {
    (row.state.Reserved? || row.state.SendStarted?) && (row.expires.Some? ==> row.expires.value > now)
  }

  // ----- Reservation -----

  function ReserveTx(db: Db, now: nat, req: Request, canon: Canonical): (Db, Reply) {
    var rid := req.rid;
    if rid in db.receipts then
      var row := db.receipts[rid];
      if row.canon != canon then (db, Reply(TConflict, Some(row), 0))
      else if IsTerminal(row.state) then (db, Reply(TTerminal, Some(row), 0))
      else if row.state.SendStarted? then (db, Reply(TInProgress, Some(row), 0))
      else if row.expires.Some? && row.expires.value > now then (db, Reply(TInProgress, Some(row), 0))
      else
        var row' := row.(owner := Some(db.tokens), expires := Some(now + OWNER_LEASE), status := StPending,
                         result := Doc(InProgressEnvelope(req)), reservedAt := now, startedAt := None,
                         updated := now);
        (Put(db, rid, row').(tokens := db.tokens + 1), Reply(TReserved, Some(row'), db.tokens))
    else
      var row' := Receipt(canon, Reserved, StPending, Doc(InProgressEnvelope(req)), Some(db.tokens),
                          Some(now + OWNER_LEASE), now, None, None, now, ProofOf(req), db.births);
      (Put(db, rid, row').(tokens := db.tokens + 1, births := db.births + 1),
       Reply(TReserved, Some(row'), db.tokens))
  }

  /** The spelling evidence stored beside a reservation; an explicit worker id needs none. */
  function ProofOf(req: Request): Option<nat> {
    match req.target
    case Explicit(_) => None
    case Alias(selector) => Some(selector)
  }

  /** Release an unsent reservation for immediate takeover. */
  function YieldTx(db: Db, now: nat, rid: RequestId, canon: Canonical, token: nat): Db {
    if rid in db.receipts && db.receipts[rid].canon == canon && db.receipts[rid].state.Reserved?
       && db.receipts[rid].owner == Some(token)
    then Put(db, rid, db.receipts[rid].(expires := Some(now), updated := now))
    else db
  }

  // ----- Owner transitions -----

  /** The checks every owner transition makes, in their order; None when they all pass. */
  function OwnerCheck(db: Db, rid: RequestId, canon: Canonical, token: nat, expected: ReceiptState): Option<Reply> {
    if rid !in db.receipts then Some(Reply(TNotFound, None, 0))
    else
      var row := db.receipts[rid];
      if row.canon != canon then Some(Reply(TConflict, Some(row), 0))
      else if IsTerminal(row.state) then Some(Reply(TTerminal, Some(row), 0))
      else if row.state != expected then Some(Reply(TInvalid, Some(row), 0))
      else if row.owner != Some(token) then Some(Reply(TNotOwner, Some(row), 0))
      else None
  }

  function MarkTx(db: Db, now: nat, rid: RequestId, canon: Canonical, token: nat, window: nat, ttl: nat): (Db, Reply) {
    match OwnerCheck(db, rid, canon, token, Reserved)
    case Some(refusal) => (db, refusal)
    case None =>
      var row := db.receipts[rid].(state := SendStarted, startedAt := Some(now), updated := now);
      var ledger := if canon.action.SendInstruction? && rid !in db.ledger
                    then db.ledger[rid := Ledger(LSendStarted, None, None, now + window, now + ttl)]
                    else db.ledger;
      (Put(db, rid, row).(ledger := ledger), Reply(TStarted, Some(row), token))
  }

  /** Record that the backend queued the instruction; raises when the ledger has moved on. */
  function QueueTx(db: Db, now: nat, rid: RequestId, canon: Canonical, token: nat, env: Envelope): (Db, Reply) {
    match OwnerCheck(db, rid, canon, token, SendStarted)
    case Some(refusal) => (db, refusal)
    case None =>
      if rid !in db.ledger || !(db.ledger[rid].state.LSendStarted? || db.ledger[rid].state.LLinked?)
      then (db, Reply(TRaised, None, 0))
      else
        var row := db.receipts[rid].(status := StPending, result := Doc(env), updated := now);
        var l := db.ledger[rid];
        var l' := Ledger(LSendStarted, Some(now), None, l.hardExpires, l.hardExpires);
        (Put(db, rid, row).(ledger := db.ledger[rid := l']), Reply(TQueued, Some(row), 0))
  }

  predicate LegalFinish(expected: ReceiptState, terminal: ReceiptState, st: Status) {
    && (match expected
        case Reserved => terminal.Rejected? || terminal.Uncertain?
        case SendStarted => IsTerminal(terminal)
        case _ => false)
    && (terminal.Accepted? ==> st.StAccepted?)
    && (terminal.Uncertain? ==> st.StUncertain?)
    && (terminal.Rejected? ==> st !in {StPending, StAnswerInProgress, StAccepted, StUncertain})
  }

  function TerminalRow(row: Receipt, now: nat, terminal: ReceiptState, st: Status, result: Stored): Receipt {
    row.(state := terminal, status := st, result := result, owner := None, expires := None,
         terminalAt := Some(now), updated := now)
  }

  function LedgerTerminalized(l: Ledger, now: nat, terminal: ReceiptState): Ledger {
    match terminal
    case Accepted => if l.state.LSendStarted? then l.(state := LSubmitted, submittedAt := Some(now)) else l
    case Rejected =>
      if l.state.LSendStarted? || l.state.LSubmitted? || l.state.LUncertain? then l.(state := LCancelled) else l
    case _ => if l.state.LSendStarted? then l.(state := LUncertain) else l
  }

  function WithLedger(db: Db, now: nat, rid: RequestId, terminal: ReceiptState): Db {
    if rid in db.ledger then db.(ledger := db.ledger[rid := LedgerTerminalized(db.ledger[rid], now, terminal)])
    else db
  }

  /** The accepted answer's effect: close the very question the claim names and drop the claim.
      None is the raise that rolls the whole transaction back. */
  function AnsweredEffect(db: Db, claimToken: nat, worker: WorkerId): Option<Db> {
    if worker in db.claims && db.claims[worker].token == claimToken && db.claims[worker].state.ClaimStarted?
       && worker in db.pending
       && (db.pending[worker].seen.ObservedOpen? || db.pending[worker].seen.ObservedFailed?)
       && db.pending[worker].revision == db.claims[worker].revision
       && db.pending[worker].binding == db.claims[worker].route.binding
       && db.pending[worker].pane == db.claims[worker].route.pane
    then
      var p := db.pending[worker];
      Some(db.(pending := db.pending[worker := p.(seen := ObservedNone, current := true, revision := 0, options := map[])],
               claims := db.claims - {worker}, episodes := Bump(db.episodes, worker)))
    else None
  }

  function EpisodeOf(episodes: map<WorkerId, nat>, w: WorkerId): nat {
    if w in episodes then episodes[w] else 0
  }

  function Bump(episodes: map<WorkerId, nat>, w: WorkerId): map<WorkerId, nat> {
    episodes[w := EpisodeOf(episodes, w) + 1]
  }

  /** The sole terminal writer. `effect` names the claim (and worker) an accepted answer closes. */
  function FinishTx(db: Db, now: nat, rid: RequestId, canon: Canonical, token: nat, expected: ReceiptState,
                    terminal: ReceiptState, env: Envelope, effect: Option<(nat, WorkerId)>): (Db, Reply) {
    if !LegalFinish(expected, terminal, env.status) then (db, Reply(TRaised, None, 0))
    else
      match OwnerCheck(db, rid, canon, token, expected)
      case Some(refusal) => (db, refusal)
      case None =>
        var row := TerminalRow(db.receipts[rid], now, terminal, env.status, Doc(env));
        var written := WithLedger(Put(db, rid, row), now, rid, terminal);
        match effect
        case None => (written, Reply(TTerminal, Some(row), 0))
        case Some((claimToken, worker)) =>
          match AnsweredEffect(written, claimToken, worker)
          case None => (db, Reply(TRaised, None, 0))
          case Some(closed) => (closed, Reply(TTerminal, Some(row), 0))
  }

  // ----- Transitions without an owner: compare-and-set on the stored result -----

  /** The checks of the result-guarded transitions; None when they all pass. */
  function ResultCheck(db: Db, rid: RequestId, canon: Canonical, guard: Stored): Option<Reply> {
    if rid !in db.receipts then Some(Reply(TNotFound, None, 0))
    else
      var row := db.receipts[rid];
      if row.canon != canon then Some(Reply(TConflict, Some(row), 0))
      else if IsTerminal(row.state) then Some(Reply(TTerminal, Some(row), 0))
      else if !row.state.SendStarted? || !row.status.StPending? || row.result != guard
      then Some(Reply(TInProgress, Some(row), 0))
      else None
  }

  function FinishQueuedTx(db: Db, now: nat, rid: RequestId, canon: Canonical, guard: Stored, env: Envelope): (Db, Reply) {
    match ResultCheck(db, rid, canon, guard)
    case Some(refusal) => (db, refusal)
    case None =>
      if rid !in db.ledger || !db.ledger[rid].state.LLinked? || db.ledger[rid].linked.None?
      then (db, Reply(TInProgress, Some(db.receipts[rid]), 0))
      else
        var row := TerminalRow(db.receipts[rid], now, Accepted, StAccepted, Doc(env));
        (Put(db, rid, row), Reply(TTerminal, Some(row), 0))
  }

  function FinishUnverifiedTx(db: Db, now: nat, rid: RequestId, canon: Canonical, guard: Stored, env: Envelope): (Db, Reply) {
    match ResultCheck(db, rid, canon, guard)
    case Some(refusal) => (db, refusal)
    case None =>
      if rid !in db.ledger || !(db.ledger[rid].state.LAmbiguous? || db.ledger[rid].state.LExpired?)
         || db.ledger[rid].linked.Some?
      then (db, Reply(TInProgress, Some(db.receipts[rid]), 0))
      else
        var row := TerminalRow(db.receipts[rid], now, Uncertain, StUncertain, Doc(env));
        (Put(db, rid, row), Reply(TTerminal, Some(row), 0))
  }

  function RecoverTx(db: Db, now: nat, rid: RequestId, canon: Canonical, guard: Stored, env: Envelope): (Db, Reply) {
    match ResultCheck(db, rid, canon, guard)
    case Some(refusal) => (db, refusal)
    case None =>
      var row := db.receipts[rid];
      if row.expires.None? || row.expires.value > now then (db, Reply(TInProgress, Some(row), 0))
      else
        var row' := TerminalRow(row, now, Uncertain, StUncertain, Doc(env));
        (WithLedger(Put(db, rid, row'), now, rid, Uncertain), Reply(TTerminal, Some(row'), 0))
  }

  /** Re-insert known terminal evidence when retention removed its row; never touches a row. */
  function ReplayTx(db: Db, now: nat, rid: RequestId, canon: Canonical, terminal: ReceiptState, env: Envelope,
                    proof: Option<nat>): (Db, Reply) {
    if rid in db.receipts then
      var row := db.receipts[rid];
      (db, Reply(if row.canon != canon then TConflict else if IsTerminal(row.state) then TTerminal else TInProgress,
                 Some(row), 0))
    else
      var row := Receipt(canon, terminal, env.status, Doc(env), None, None, now, None, Some(now), now, proof, db.births);
      (Put(db, rid, row).(births := db.births + 1), Reply(TTerminal, Some(row), 0))
  }

  // ----- Maintenance -----

  /** An accepted retention configuration. */
  datatype Policy = Policy(horizon: nat, retention: nat, keep: nat, window: nat, ttl: nat)

  predicate ValidPolicy(p: Policy) {
    0 < p.horizon <= MAX_RETRY_HORIZON && MIN_RETENTION <= p.retention && p.horizon < p.retention && 0 < p.keep
  }

  function RetainedAt(row: Receipt): nat {
    if row.terminalAt.Some? then row.terminalAt.value else row.updated
  }

  predicate InDeletionPool(row: Receipt, now: nat) {
    IsTerminal(row.state) || (row.state.Reserved? && row.expires.Some? && row.expires.value <= now)
  }

  /** Rows of the pool that outrank `rid`: retained later, or as late with a later number. */
  function Newer(db: Db, now: nat, rid: RequestId): set<RequestId>
    requires rid in db.receipts
  {
    var row := db.receipts[rid];
    set r | r in db.receipts && InDeletionPool(db.receipts[r], now)
            && (RetainedAt(db.receipts[r]) > RetainedAt(row)
                || (RetainedAt(db.receipts[r]) == RetainedAt(row) && db.receipts[r].born > row.born))
  }

  predicate Deletable(db: Db, now: nat, policy: Policy, rid: RequestId) {
    && rid in db.receipts && InDeletionPool(db.receipts[rid], now)
    && RetainedAt(db.receipts[rid]) + policy.retention < now
    && |Newer(db, now, rid)| >= policy.keep
  }

  /** One row's share of a maintenance pass: an old unresolved send becomes uncertain, a row that
      is both old and outranked is deleted with its ledger. */
  function MaintainTx(db: Db, now: nat, policy: Policy, rid: RequestId): Db {
    if rid !in db.receipts then db
    else
      var row := db.receipts[rid];
      if row.state.SendStarted? then
        var since := if row.startedAt.Some? then row.startedAt.value else row.updated;
        if since + policy.horizon < now then
          WithLedger(Put(db, rid, TerminalRow(row, now, Uncertain, StUncertain, Opaque)), now, rid, Uncertain)
        else db
      else if Deletable(db, now, policy, rid) then
        db.(receipts := db.receipts - {rid}, ledger := db.ledger - {rid})
      else db
  }

  // ----- The ledger's own transitions -----

  datatype LinkOutcome = Waits | Links(turn: nat) | TurnsAmbiguous | RunsOut

  predicate LedgerOpen(l: Ledger) {
    l.linked.None? && (l.state.LSendStarted? || l.state.LSubmitted? || l.state.LUncertain?)
  }

  /** A written-to-pty row has no candidate observations: it can only run out. */
  predicate WithoutCandidates(l: Ledger) {
    l.state.LSendStarted? && l.submittedAt.Some?
  }

  function SettleTx(db: Db, now: nat, rid: RequestId, outcome: LinkOutcome): Db {
    if rid !in db.ledger || !LedgerOpen(db.ledger[rid]) then db
    else
      var l := db.ledger[rid];
      match outcome
      case Waits => db
      case Links(turn) =>
        if WithoutCandidates(l) then db
        else db.(ledger := db.ledger[rid := l.(state := LLinked, linked := Some(turn))])
      case TurnsAmbiguous =>
        if WithoutCandidates(l) || now < l.linkExpires then db
        else db.(ledger := db.ledger[rid := l.(state := LAmbiguous)])
      case RunsOut =>
        if now < l.linkExpires && now < l.hardExpires then db
        else db.(ledger := db.ledger[rid := l.(state := LExpired)])
  }

  // ----- Pending claims -----

  datatype ClaimVerdict =
    | ClaimGranted(token: nat, route: Route, revision: nat) | ClaimBusy | ClaimRefused

  /** Claim a worker's question for one body; a body names the very question (id, fingerprint or
      decision reference) it answers, so only that question lists it. `fingerprint` is the worker fingerprint the current
      snapshot and binding yield, None when they no longer match. */
  function ClaimTx(db: Db, now: nat, worker: WorkerId, body: nat, fingerprint: Option<nat>): (Db, ClaimVerdict) {
    if worker !in db.pending || fingerprint.None? then (db, ClaimRefused)
    else
      var p := db.pending[worker];
      if !p.seen.ObservedOpen? || !p.current || body !in p.options then (db, ClaimRefused)
      else if worker in db.claims
              && !(db.claims[worker].state.ClaimHeld? && db.claims[worker].claimedAt + CLAIM_LEASE <= now)
      then (db, ClaimBusy)
      else
        var route := Route(worker, fingerprint.value, p.binding, p.pane, p.options[body]);
        var claim := Claim(db.claimTokens, p.revision, body, route, ClaimHeld, now);
        (db.(claims := db.claims[worker := claim], claimTokens := db.claimTokens + 1),
         ClaimGranted(db.claimTokens, route, p.revision))
  }

  /** Cross the pane-input boundary: the claim must be live and the question, binding and worker
      exactly as claimed. */
  function StartClaimTx(db: Db, now: nat, worker: WorkerId, claimToken: nat, fingerprint: Option<nat>): (Db, Option<Route>) {
    if worker !in db.claims || db.claims[worker].token != claimToken then (db, None)
    else
      var c := db.claims[worker];
      if c.state.ClaimHeld? && c.claimedAt + CLAIM_LEASE <= now then (db.(claims := db.claims - {worker}), None)
      else if !c.state.ClaimHeld? then (db, None)
      else if worker !in db.pending then (db, None)
      else
        var p := db.pending[worker];
        if !p.seen.ObservedOpen? || !p.current || p.revision != c.revision || p.binding != c.route.binding
           || p.pane != c.route.pane || c.body !in p.options || p.options[c.body] != c.route.selection
           || fingerprint != Some(c.route.fingerprint)
        then (db, None)
        else (db.(claims := db.claims[worker := c.(state := ClaimStarted)]), Some(c.route))
  }

  function ReleaseClaimTx(db: Db, worker: WorkerId, claimToken: nat): (Db, bool) {
    if worker in db.claims && db.claims[worker].token == claimToken && db.claims[worker].state.ClaimHeld?
    then (db.(claims := db.claims - {worker}), true)
    else (db, false)
  }

  // ----- Observations of the worker's pane -----

  datatype Sighting =
    | SawPrompt(revision: nat, binding: nat, pane: nat, options: map<nat, nat>)
    | SawNone | SawInvalid | ReadFailed(graceOver: bool, binding: nat, pane: nat) | WorkerGone

  function DropHeldClaim(db: Db, w: WorkerId): Db {
    if w in db.claims && db.claims[w].state.ClaimHeld? then db.(claims := db.claims - {w}) else db
  }

  function ObserveTx(db: Db, w: WorkerId, saw: Sighting): Db {
    match saw
    case SawPrompt(revision, binding, pane, options) =>
      var same := w in db.claims && db.claims[w].revision == revision
                  && db.claims[w].route.binding == binding && db.claims[w].route.pane == pane;
      var samePrompt := w in db.pending && (db.pending[w].seen.ObservedOpen? || db.pending[w].seen.ObservedFailed?)
                        && db.pending[w].revision == revision;
      db.(pending := db.pending[w := Pending(ObservedOpen, true, revision, binding, pane, options)],
          claims := if same then db.claims else db.claims - {w},
          episodes := if samePrompt && (w in db.claims ==> same) then db.episodes else Bump(db.episodes, w))
    case SawNone => Closed(db, w, ObservedNone, true)
    case SawInvalid => Closed(db, w, ObservedInvalid, false)
    case ReadFailed(graceOver, binding, pane) =>
      if w !in db.pending then
        db.(pending := db.pending[w := Pending(ObservedFailed, false, 0, binding, pane, map[])])
      else
        var p := db.pending[w];
        var stale := p.(current := false, binding := binding, pane := pane);
        if p.seen.ObservedOpen? && !p.current && graceOver then
          DropHeldClaim(db.(pending := db.pending[w := stale.(seen := ObservedFailed)]), w)
        else if !p.current then db
        else if p.seen.ObservedOpen? then DropHeldClaim(db.(pending := db.pending[w := stale]), w)
        else db.(pending := db.pending[w := stale])
    case WorkerGone =>
      if w in db.pending
      then db.(pending := db.pending - {w}, claims := db.claims - {w}, episodes := Bump(db.episodes, w))
      else db
  }

  function Closed(db: Db, w: WorkerId, seen: Observation, current: bool): Db {
    var p := if w in db.pending then db.pending[w] else Pending(seen, current, 0, 0, 0, map[]);
    db.(pending := db.pending[w := p.(seen := seen, current := current, revision := 0, options := map[])],
        claims := db.claims - {w}, episodes := Bump(db.episodes, w))
  }
}
