/** What every step of the submission system keeps. `CoreOk` is the invariant of the shared store
    and its history, `ProcOk` what one submitter may rely on, and `Grows` what any other party
    can do to the core: it never hands out, revives or acts under somebody else's token. */
module SubmissionInvariant {
  import opened Options
  import opened Envelopes
  import opened CommandStore
  import opened Submission

  // ----- The core invariant -----

  ghost predicate StartedBy(c: Core, rid: RequestId, token: nat, born: nat) {
    exists i :: 0 <= i < |c.hist.starts| && c.hist.starts[i].token == token
                && c.hist.starts[i].rid == rid && c.hist.starts[i].born == born
  }

  ghost predicate SentWith(c: Core, rid: RequestId, token: nat, born: nat, outcome: Outcome) {
    exists k :: 0 <= k < |c.hist.sends| && c.hist.sends[k] == Send(rid, token, born, outcome)
  }

  ghost predicate NoStart(c: Core, token: nat) {
    forall i :: 0 <= i < |c.hist.starts| ==> c.hist.starts[i].token != token
  }

  ghost predicate NoSend(c: Core, token: nat) {
    forall k :: 0 <= k < |c.hist.sends| ==> c.hist.sends[k].token != token
  }

  ghost predicate NeverStarted(c: Core, born: nat) {
    forall i :: 0 <= i < |c.hist.starts| ==> c.hist.starts[i].born != born
  }

  /** A written-to-pty instruction's ledger can only be waiting or have run out. */
  ghost predicate QueuedOk(c: Core, rid: RequestId, token: nat, born: nat) {
    && rid in c.db.ledger && c.db.ledger[rid].linked.None? && c.db.ledger[rid].submittedAt.Some?
    && (c.db.ledger[rid].state.LSendStarted? || c.db.ledger[rid].state.LExpired?)
    && SentWith(c, rid, token, born, Prompted(WrittenToPty))
  }

  ghost predicate RowOk(c: Core, rid: RequestId)
    requires rid in c.db.receipts
  {
    var row := c.db.receipts[rid];
    && WellStored(rid, row)
    && row.born < c.db.births && (row.owner.Some? ==> row.owner.value < c.db.tokens)
    && row.updated <= c.now
    && (row.terminalAt.Some? ==> row.terminalAt.value <= c.now)
    && (match row.state
        case Reserved =>
          row.owner.Some? && row.expires.Some? && row.startedAt.None? && row.terminalAt.None?
          && row.born !in c.hist.finals && NeverStarted(c, row.born)
        case SendStarted =>
          row.owner.Some? && row.expires.Some? && row.startedAt.Some? && row.terminalAt.None?
          && row.born !in c.hist.finals && StartedBy(c, rid, row.owner.value, row.born)
          && (Queued(rid, row) ==> QueuedOk(c, rid, row.owner.value, row.born))
        case _ =>
          row.owner.None? && row.terminalAt.Some?
          && row.born in c.hist.finals && c.hist.finals[row.born] == row.state)
  }

  /** The row a start belongs to is still there and past `reserved`, or it outlived retention. */
  ghost predicate StartOk(c: Core, i: nat)
    requires i < |c.hist.starts|
  {
    var st := c.hist.starts[i];
    && st.token < c.db.tokens && st.born < c.db.births && st.at <= c.now
    && (forall r :: r in c.db.receipts && c.db.receipts[r].born == st.born ==> r == st.rid)
    && (st.rid in c.db.receipts && c.db.receipts[st.rid].born == st.born ==>
          var row := c.db.receipts[st.rid];
          && !row.state.Reserved?
          && (row.state.SendStarted? ==> row.owner == Some(st.token) && row.startedAt == Some(st.at) && row.expires == Some(st.until))
          && (IsTerminal(row.state) ==> row.terminalAt.Some? && st.at <= row.terminalAt.value))
    && ((st.rid !in c.db.receipts || c.db.receipts[st.rid].born != st.born) ==>
          && st.at + c.policy.retention < c.now
          && (st.rid in c.db.receipts ==> st.born < c.db.receipts[st.rid].born))
  }

  ghost predicate SendOk(c: Core, k: nat)
    requires k < |c.hist.sends|
  {
    var sd := c.hist.sends[k];
    StartedBy(c, sd.rid, sd.token, sd.born)
  }

  ghost predicate WasDelivered(c: Core, born: nat) {
    exists k :: 0 <= k < |c.hist.sends| && c.hist.sends[k].born == born
                && (c.hist.sends[k].outcome == Prompted(Submitted)
                    || (c.hist.sends[k].outcome.Typed? && c.hist.sends[k].outcome.done))
  }

  ghost predicate WasRefused(c: Core, born: nat) {
    exists k :: 0 <= k < |c.hist.sends| && c.hist.sends[k].born == born
                && c.hist.sends[k].outcome.Prompted? && DefiniteNonDelivery(c.hist.sends[k].outcome.verdict)
  }

  ghost predicate FinalOk(c: Core, born: nat)
    requires born in c.hist.finals
  {
    && born < c.db.births && IsTerminal(c.hist.finals[born])
    && (c.hist.finals[born].Accepted? ==> WasDelivered(c, born))
    && (c.hist.finals[born].Rejected? ==> NeverStarted(c, born) || WasRefused(c, born))
  }

  ghost predicate CoreOk(c: Core) {
    && ValidPolicy(c.policy)
    && (forall rid :: rid in c.db.receipts ==> RowOk(c, rid))
    && (forall r, q :: r in c.db.receipts && q in c.db.receipts && r != q ==>
          c.db.receipts[r].born != c.db.receipts[q].born
          && (c.db.receipts[r].owner.Some? ==> c.db.receipts[r].owner != c.db.receipts[q].owner))
    && (forall i :: 0 <= i < |c.hist.starts| ==> StartOk(c, i))
    && (forall i, j :: 0 <= i < j < |c.hist.starts| ==> Apart(c.policy, c.hist.starts[i], c.hist.starts[j]))
    && (forall k :: 0 <= k < |c.hist.sends| ==> SendOk(c, k))
    && (forall k, l :: 0 <= k < l < |c.hist.sends| ==> c.hist.sends[k].token != c.hist.sends[l].token)
    && (forall b :: b in c.hist.finals ==> FinalOk(c, b))
  }

  predicate Apart(policy: Policy, a: Start, b: Start) {
    a.token != b.token && a.born != b.born && (a.rid == b.rid ==> a.at + policy.retention < b.at)
  }

  // ----- What one submitter may rely on -----

  function LeaseOf(pc: Pc): Option<Lease> {
    match pc
    case Claiming(lease, _) => Some(lease)
    case Yielding(lease) => Some(lease)
    case Marking(lease, _) => Some(lease)
    case Releasing(lease, _, _, _) => Some(lease)
    case Started(lease, _) => Some(lease)
    case Typing(lease, _) => Some(lease)
    case Dropping(lease, _) => Some(lease)
    case Queueing(lease) => Some(lease)
    case Finishing(lease, _, _, _, _) => Some(lease)
    case Rereading(_, ThenRelease(lease, _)) => Some(lease)
    case _ => None
  }

  ghost predicate LeaseOk(c: Core, req: Request, lease: Lease) {
    && lease.token < c.db.tokens && lease.born < c.db.births && lease.canon.action == req.action
    && (forall rid :: rid in c.db.receipts && c.db.receipts[rid].owner == Some(lease.token) ==>
          rid == req.rid && c.db.receipts[rid].born == lease.born && c.db.receipts[rid].canon == lease.canon)
    && (forall i :: 0 <= i < |c.hist.starts| && c.hist.starts[i].token == lease.token ==>
          c.hist.starts[i].rid == req.rid && c.hist.starts[i].born == lease.born)
  }

  /** A copy of a row read earlier: it may be outdated, but it was true. */
  ghost predicate SeenOk(c: Core, rid: RequestId, seen: Receipt) {
    && WellStored(rid, seen) && seen.born < c.db.births
    && (IsTerminal(seen.state) ==> seen.born in c.hist.finals && c.hist.finals[seen.born] == seen.state)
  }

  predicate FinalAnswer(env: Envelope) {
    env.disposition.TerminalAccepted? || (env.disposition.TerminalRejected? && !env.status.StDuplicateRequest?)
  }

  /** A final answer reports the terminal state committed for the very row it was read from. */
  ghost predicate AnswerOk(c: Core, env: Envelope, born: Option<nat>) {
    FinalAnswer(env) ==>
      born.Some? && born.value in c.hist.finals && env.disposition == DispositionOf(c.hist.finals[born.value])
  }

  predicate CopyOk(req: Request, canon: Canonical, seen: Receipt, env: Envelope) {
    SameRequest(req, canon, seen) && env == EnvelopeFromReceipt(req, canon, Some(seen))
  }

  predicate WritableEnvelope(req: Request, from: ReceiptState, terminal: ReceiptState, env: Envelope) {
    && LegalFinish(from, terminal, env.status) && ValidEnvelope(env) && env.action == req.action && env.rid == req.rid
    && env.disposition == DispositionOf(terminal) && !FallbackNote(env.note)
  }

  ghost predicate ProcOk(c: Core, req: Request, pc: Pc) {
    && (LeaseOf(pc).Some? ==> LeaseOk(c, req, LeaseOf(pc).value))
    && match pc
       case Reading => true
       case Deciding(seen) => SeenOk(c, req.rid, seen)
       case Replaying(canon, seen, env) => SeenOk(c, req.rid, seen) && IsTerminal(seen.state) && CopyOk(req, canon, seen, env)
       case Settling(canon, seen, env) => SeenOk(c, req.rid, seen) && Queued(req.rid, seen) && CopyOk(req, canon, seen, env)
       case Linking(canon, seen, env, _) => SeenOk(c, req.rid, seen) && Queued(req.rid, seen) && CopyOk(req, canon, seen, env)
       case Concluding(canon, seen, env, verdict) =>
         SeenOk(c, req.rid, seen) && Queued(req.rid, seen) && CopyOk(req, canon, seen, env)
         && (verdict.ok || verdict == ExpiredQueueEnvelope(req))
       case Recovering(canon, seen, env) =>
         SeenOk(c, req.rid, seen) && seen.state.SendStarted? && seen.result == Doc(PendingDoc(req.rid, seen))
         && CopyOk(req, canon, seen, env)
       case Preparing(_) => true
       case Reserving(canon, plan) =>
         canon.action == req.action && (plan.Refuse? ==> DurableRejection(plan.status))
         && (plan.Prompt? ==> req.action.SendInstruction?)
       case Claiming(lease, _) => NoStart(c, lease.token)
       case Yielding(lease) => true
       case Marking(lease, held) => NoStart(c, lease.token) && (held.None? ==> req.action.SendInstruction?)
       case Releasing(_, _, env, born) => AnswerOk(c, env, born)
       case Started(lease, held) =>
         StartedBy(c, req.rid, lease.token, lease.born) && NoSend(c, lease.token)
         && (held.None? ==> req.action.SendInstruction?)
       case Typing(lease, _) => StartedBy(c, req.rid, lease.token, lease.born) && NoSend(c, lease.token)
       case Dropping(lease, _) => StartedBy(c, req.rid, lease.token, lease.born)
       case Queueing(lease) =>
         StartedBy(c, req.rid, lease.token, lease.born) && req.action.SendInstruction?
         && SentWith(c, req.rid, lease.token, lease.born, Prompted(WrittenToPty))
       case Finishing(lease, from, terminal, env, effect) =>
         WritableEnvelope(req, from, terminal, env)
         && (from.SendStarted? ==> StartedBy(c, req.rid, lease.token, lease.born))
         && (terminal.Accepted? ==> WasDelivered(c, lease.born))
         && (from.SendStarted? && terminal.Rejected? ==> WasRefused(c, lease.born))
       case Rereading(canon, _) => canon.action == req.action
       case Done(env, born) => AnswerOk(c, env, born)
  }

  ghost predicate SystemOk(s: System) {
    && CoreOk(s.core)
    && (forall pid :: pid in s.procs ==> ProcOk(s.core, s.procs[pid].req, s.procs[pid].pc))
    && (forall p, q :: p in s.procs && q in s.procs && p != q && LeaseOf(s.procs[p].pc).Some?
                       && LeaseOf(s.procs[q].pc).Some? ==>
          LeaseOf(s.procs[p].pc).value.token != LeaseOf(s.procs[q].pc).value.token)
  }

  // ----- The rely -----

  /** What the party acting under token `t` may do to the core. */
  ghost predicate Grows(c: Core, d: Core, t: Option<nat>) {
    && c.policy == d.policy && c.now <= d.now && c.db.tokens <= d.db.tokens && c.db.births <= d.db.births
    && c.hist.starts <= d.hist.starts
    && (forall i :: |c.hist.starts| <= i < |d.hist.starts| ==> Some(d.hist.starts[i].token) == t)
    && c.hist.sends <= d.hist.sends
    && (forall k :: |c.hist.sends| <= k < |d.hist.sends| ==> Some(d.hist.sends[k].token) == t)
    && (forall b :: b in c.hist.finals ==> b in d.hist.finals && d.hist.finals[b] == c.hist.finals[b])
    && (forall rid :: rid in d.db.receipts && d.db.receipts[rid].owner.Some? && d.db.receipts[rid].owner != t ==>
          rid in c.db.receipts && c.db.receipts[rid].owner == d.db.receipts[rid].owner
          && c.db.receipts[rid].born == d.db.receipts[rid].born && c.db.receipts[rid].canon == d.db.receipts[rid].canon)
  }

  lemma {:induction false} HistoryGrows(c: Core, d: Core, t: Option<nat>)
    requires Grows(c, d, t)
    ensures forall rid, token, born :: StartedBy(c, rid, token, born) ==> StartedBy(d, rid, token, born)
    ensures forall rid, token, born, o :: SentWith(c, rid, token, born, o) ==> SentWith(d, rid, token, born, o)
    ensures forall born :: WasDelivered(c, born) ==> WasDelivered(d, born)
    ensures forall born :: WasRefused(c, born) ==> WasRefused(d, born)
  {
    forall rid, token, born | StartedBy(c, rid, token, born) ensures StartedBy(d, rid, token, born) {
      var i :| 0 <= i < |c.hist.starts| && c.hist.starts[i].token == token && c.hist.starts[i].rid == rid && c.hist.starts[i].born == born;
      assert d.hist.starts[i] == c.hist.starts[i];
    }
    forall rid, token, born, o | SentWith(c, rid, token, born, o) ensures SentWith(d, rid, token, born, o) {
      var k :| 0 <= k < |c.hist.sends| && c.hist.sends[k] == Send(rid, token, born, o);
      assert d.hist.sends[k] == c.hist.sends[k];
    }
    forall born | WasDelivered(c, born) ensures WasDelivered(d, born) {
      var k :| 0 <= k < |c.hist.sends| && c.hist.sends[k].born == born
        && (c.hist.sends[k].outcome == Prompted(Submitted) || (c.hist.sends[k].outcome.Typed? && c.hist.sends[k].outcome.done));
      assert d.hist.sends[k] == c.hist.sends[k];
    }
    forall born | WasRefused(c, born) ensures WasRefused(d, born) {
      var k :| 0 <= k < |c.hist.sends| && c.hist.sends[k].born == born
        && c.hist.sends[k].outcome.Prompted? && DefiniteNonDelivery(c.hist.sends[k].outcome.verdict);
      assert d.hist.sends[k] == c.hist.sends[k];
    }
  }

  lemma {:induction false} LeaseStable(c: Core, d: Core, t: Option<nat>, req: Request, lease: Lease)
    requires Grows(c, d, t) && LeaseOk(c, req, lease) && t != Some(lease.token)
    ensures LeaseOk(d, req, lease)
    ensures NoStart(c, lease.token) ==> NoStart(d, lease.token)
    ensures NoSend(c, lease.token) ==> NoSend(d, lease.token)
  {
    forall i | 0 <= i < |d.hist.starts| && d.hist.starts[i].token == lease.token
      ensures i < |c.hist.starts| && d.hist.starts[i] == c.hist.starts[i]
    {
      if i < |c.hist.starts| { assert d.hist.starts[i] == c.hist.starts[i]; }
    }
    forall k | 0 <= k < |d.hist.sends| && d.hist.sends[k].token == lease.token
      ensures k < |c.hist.sends| && d.hist.sends[k] == c.hist.sends[k]
    {
      if k < |c.hist.sends| { assert d.hist.sends[k] == c.hist.sends[k]; }
    }
  }

  /** No other party can break what a submitter relies on. */
  lemma {:induction false} ProcStable(c: Core, d: Core, t: Option<nat>, req: Request, pc: Pc)
    requires Grows(c, d, t) && ProcOk(c, req, pc)
    requires LeaseOf(pc).Some? ==> t != Some(LeaseOf(pc).value.token)
    ensures ProcOk(d, req, pc)
  {
    HistoryGrows(c, d, t);
    if LeaseOf(pc).Some? { LeaseStable(c, d, t, req, LeaseOf(pc).value); }
  }
}
