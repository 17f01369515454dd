/** What a retry costs and gets: failures before the first write leave no trace, a retry can still be
    accepted, and a finished request answers every later retry with the same envelope. */
module Retries {
  import opened Options
  import opened Envelopes
  import opened CommandStore
  import opened Submission
  import opened SubmissionInvariant
  import opened SubmissionSafety
  import opened SubmissionTheorems

  // ----- Failures before the first write -----

  predicate PreSend(pc: Pc) {
    pc.Reading? || pc.Deciding? || pc.Preparing?
  }

  /** A preparation that failed for a reason that proves nothing about the target. */
  predicate SafeTransient(prep: Prep) {
    prep.NoSnapshot? || (prep.Resolved? && prep.how.Transient?)
  }

  /** Every act is a submitter arriving, a step taken before its first write, or time passing. */
  ghost predicate OnlyPreSendSteps(s: System, acts: seq<Act>)
    decreases |acts|
  {
    acts == [] ||
    (var prior, act := Run(s, acts[..|acts| - 1]), acts[|acts| - 1];
     && OnlyPreSendSteps(s, acts[..|acts| - 1])
     && (act.Enter? || act.Tick? || (act.Go? && act.pid in prior.procs && PreSend(prior.procs[act.pid].pc))))
  }

  /** However many attempts fail before their first write, and however long that takes, the store and the
      send history are what they were. */
  lemma {:induction false} PreSendStepsCostNothing(s: System, acts: seq<Act>)
    requires OnlyPreSendSteps(s, acts)
    ensures Run(s, acts).core == s.core.(now := Run(s, acts).core.now) && s.core.now <= Run(s, acts).core.now
    decreases |acts|
  {
    if acts != [] { PreSendStepsCostNothing(s, acts[..|acts| - 1]); }
  }

  /** A safe transient failure ends the attempt there, with an answer that is not final and names
      no outcome: either no receipt, or the abandoned reservation still in progress. (A takeover whose
      target now differs is decided before the failure can matter.) */
  lemma {:induction false} TransientFailureStaysOpen(c: Core, req: Request, takeover: Option<WorkerId>, ch: Choice)
    requires SafeTransient(ch.prep)
    requires takeover.Some? && ch.prep.Resolved? ==> Meant(req, ch.prep.worker) == takeover.value
    ensures var next := StepPreparing(c, req, takeover, ch);
            && next.0 == c && next.1.Done?
            && next.1.env.disposition == (if takeover.Some? then InProgress else NoReceipt)
            && next.1.env.status == (if takeover.Some? then StPending else StBackendUnavailable)
  {
  }

  // ----- Driving one submitter -----

  function Drive(c: Core, req: Request, pc: Pc, ch: Choice, n: nat): (Core, Pc)
    decreases n
  {
    if n == 0 then (c, pc) else var (d, next) := Advance(c, req, pc, ch); Drive(d, req, next, ch, n - 1)
  }

  function Goes(pid: nat, ch: Choice, n: nat): seq<Act> {
    seq(n, _ => Go(pid, ch))
  }

  lemma {:induction false} DriveSnoc(c: Core, req: Request, pc: Pc, ch: Choice, n: nat)
    ensures Drive(c, req, pc, ch, n + 1) == Advance(Drive(c, req, pc, ch, n).0, req, Drive(c, req, pc, ch, n).1, ch)
    decreases n
  {
    hide Advance;
    if n > 0 {
      var (d, next) := Advance(c, req, pc, ch);
      DriveSnoc(d, req, next, ch, n - 1);
    }
  }

  /** A submitter that runs alone for n steps is the system running it for n steps. */
  lemma {:induction false} DriveIsRun(s: System, pid: nat, req: Request, ch: Choice, n: nat)
    requires pid !in s.procs
    ensures var (d, pc) := Drive(s.core, req, Reading, ch, n);
            Run(s, [Enter(pid, req)] + Goes(pid, ch, n)) == System(d, s.procs[pid := Proc(req, pc)])
    decreases n
  {
    hide Advance;
    if n == 0 {
      RunSnoc(s, [], Enter(pid, req));
      assert [Enter(pid, req)] + Goes(pid, ch, 0) == [] + [Enter(pid, req)];
    } else {
      DriveIsRun(s, pid, req, ch, n - 1);
      DriveSnoc(s.core, req, Reading, ch, n - 1);
      var prior := [Enter(pid, req)] + Goes(pid, ch, n - 1);
      assert [Enter(pid, req)] + Goes(pid, ch, n) == prior + [Go(pid, ch)];
      RunSnoc(s, prior, Go(pid, ch));
    }
  }

  // ----- A finished request answers the same for ever -----

  /** A retry of a request whose row is final is answered from that row, whatever its target proof
      was made from; it changes nothing and sends nothing. */
  lemma {:induction false} FinishedRequestReplays(c: Core, req: Request, canon: Canonical, ch: Choice)
    requires CoreOk(c) && req.rid in c.db.receipts && IsTerminal(c.db.receipts[req.rid].state)
    requires SameRequest(req, canon, c.db.receipts[req.rid]) && canon == CanonicalFor(req, canon.worker)
    requires ch.fault.NoFault? && ProveWorker(req, c.db.receipts[req.rid], ch.authority) == Proven(canon.worker)
    ensures var row := c.db.receipts[req.rid];
            Drive(c, req, Reading, ch, 3) == (c, Done(EnvelopeFromReceipt(req, canon, Some(row)), Some(row.born)))
  {
    var row := c.db.receipts[req.rid];
    assert RowOk(c, req.rid);
    WrittenRowsDecode(req, canon, row);
    var env := EnvelopeFromReceipt(req, canon, Some(row));
    DriveSnoc(c, req, Reading, ch, 0);
    DriveSnoc(c, req, Reading, ch, 1);
    assert Drive(c, req, Reading, ch, 2)
        == (c, if env.status.StDuplicateRequest? then Done(env, Some(row.born)) else Replaying(canon, row, env));
    DriveSnoc(c, req, Reading, ch, 2);
    assert Noted(c.hist.finals, req.rid, c.db) == c.hist.finals;
  }

  /** For ever, that is, in every continuation until the row's retention age has passed: whatever everybody
      does meanwhile, a retry that can still prove its target is told the same envelope, and changes and
      sends nothing. */
  lemma {:induction false} FinishedRequestReplaysForever(s: System, acts: seq<Act>, pid: nat, req: Request, canon: Canonical, ch: Choice)
    requires SystemOk(s) && req.rid in s.core.db.receipts && IsTerminal(s.core.db.receipts[req.rid].state)
    requires SameRequest(req, canon, s.core.db.receipts[req.rid]) && canon == CanonicalFor(req, canon.worker)
    requires s.core.db.receipts[req.rid].terminalAt.Some?
             && Run(s, acts).core.now <= s.core.db.receipts[req.rid].terminalAt.value + s.core.policy.retention
    requires ch.fault.NoFault? && ProveWorker(req, s.core.db.receipts[req.rid], ch.authority) == Proven(canon.worker)
    requires pid !in Run(s, acts).procs
    ensures var t, row := Run(s, acts), s.core.db.receipts[req.rid];
            Run(t, [Enter(pid, req)] + Goes(pid, ch, 3))
              == System(t.core, t.procs[pid := Proc(req, Done(EnvelopeFromReceipt(req, canon, Some(row)), Some(row.born)))])
  {
    hide SystemOk;
    hide CoreOk;
    hide ProveWorker;
    hide EnvelopeFromReceipt;
    hide Advance;
    FinalRowStaysUntilRetention(s, acts, req.rid);
    var t := Run(s, acts);
    assert CoreOk(t.core) by { SystemIsOk(t); }
    FinishedRequestReplays(t.core, req, canon, ch);
    DriveIsRun(t, pid, req, ch, 3);
  }

  /** A permanent failure after reservation is written as a rejection of the reserved row. The caller is
      told exactly that rejection and nothing is sent; and so is every later retry, in every continuation
      until the row's retention age has passed. */
  lemma {:induction false} PermanentFailureReplays(s: System, pid: nat, lease: Lease, st: Status, ch: Choice)
    requires SystemOk(s) && pid in s.procs && s.procs[pid].pc == Planned(s.procs[pid].req, lease, Refuse(st)) && DurableRejection(st)
    requires var req := s.procs[pid].req;
             && lease.canon == CanonicalFor(req, lease.canon.worker) && req.rid in s.core.db.receipts
             && s.core.db.receipts[req.rid].owner == Some(lease.token) && s.core.db.receipts[req.rid].state.Reserved?
    requires ch.fault.NoFault?
    ensures var (req, t) := (s.procs[pid].req, Step(s, Go(pid, ch)));
            var env := Terminalized(req, Failure(req, st), Rejected);
            && t.procs == s.procs[pid := Proc(req, Done(env, Some(lease.born)))]
            && t.core.hist.sends == s.core.hist.sends && t.core.hist.starts == s.core.hist.starts
            && env.status == st && env.disposition.TerminalRejected?
            && SystemOk(t) && RejectedAs(t.core, req, lease, env)
  {
    var req := s.procs[pid].req;
    assert CoreOk(s.core) && ProcOk(s.core, req, s.procs[pid].pc);
    StepSystemOk(s, Go(pid, ch));
    hide SystemOk;
    hide CoreOk;
    RejectionIsWritten(s.core, req, lease, st, ch);
  }

  /** The row is this very rejection, now. */
  predicate RejectedAs(c: Core, req: Request, lease: Lease, env: Envelope) {
    && req.rid in c.db.receipts && c.db.receipts[req.rid].state.Rejected? && c.db.receipts[req.rid].born == lease.born
    && SameRequest(req, lease.canon, c.db.receipts[req.rid]) && c.db.receipts[req.rid].terminalAt == Some(c.now)
    && EnvelopeFromReceipt(req, lease.canon, Some(c.db.receipts[req.rid])) == env
  }

  lemma {:induction false} RejectionIsWritten(c: Core, req: Request, lease: Lease, st: Status, ch: Choice)
    requires CoreOk(c) && ProcOk(c, req, Planned(req, lease, Refuse(st))) && DurableRejection(st)
    requires lease.canon == CanonicalFor(req, lease.canon.worker) && req.rid in c.db.receipts
    requires c.db.receipts[req.rid].owner == Some(lease.token) && c.db.receipts[req.rid].state.Reserved? && ch.fault.NoFault?
    ensures var (d, pc) := Advance(c, req, Planned(req, lease, Refuse(st)), ch);
            var env := Terminalized(req, Failure(req, st), Rejected);
            && pc == Done(env, Some(lease.born)) && d.hist.sends == c.hist.sends && d.hist.starts == c.hist.starts
            && RejectedAs(d, req, lease, env)
  {
    var d := Advance(c, req, Planned(req, lease, Refuse(st)), ch).0;
    assert c.db.receipts[req.rid].born == lease.born && c.db.receipts[req.rid].canon == lease.canon;
    assert CoreOk(d) by { AdvanceOk(c, req, Planned(req, lease, Refuse(st)), ch); }
    hide CoreOk;
    hide ProcOk;
    hide DurableRejection;
    RejectionIsFinished(c, req, lease, st, ch);
    assert WellStored(req.rid, d.db.receipts[req.rid]) by { StoredWell(d, req.rid); }
    hide WellStored;
    hide Advance;
    WrittenRowsDecode(req, lease.canon, d.db.receipts[req.rid]);
    hide EnvelopeFromReceipt;
  }

  lemma {:induction false} StoredWell(c: Core, rid: RequestId)
    requires CoreOk(c) && rid in c.db.receipts
    ensures WellStored(rid, c.db.receipts[rid])
  {
    assert RowOk(c, rid);
  }

  /** The owner check passes, and the row is written. */
  lemma {:induction false} RejectionIsFinished(c: Core, req: Request, lease: Lease, st: Status, ch: Choice)
    requires req.rid in c.db.receipts && DurableRejection(st) && ch.fault.NoFault?
    requires var row := c.db.receipts[req.rid];
             row.owner == Some(lease.token) && row.state.Reserved? && row.born == lease.born && row.canon == lease.canon
    ensures var (d, pc) := Advance(c, req, Planned(req, lease, Refuse(st)), ch);
            && req.rid in d.db.receipts && d.hist.sends == c.hist.sends && d.hist.starts == c.hist.starts && d.now == c.now
            && d.db.receipts[req.rid] == TerminalRow(c.db.receipts[req.rid], c.now, Rejected, st, Doc(Terminalized(req, Failure(req, st), Rejected)))
            && pc == Done(EnvelopeFromReceipt(req, lease.canon, Some(d.db.receipts[req.rid])), Some(lease.born))
  {
    hide EnvelopeFromReceipt;
  }

  lemma {:induction false} RejectionReplaysForever(s: System, lease: Lease, env: Envelope, acts: seq<Act>, pid: nat, req: Request, ch: Choice)
    requires SystemOk(s) && RejectedAs(s.core, req, lease, env) && lease.canon == CanonicalFor(req, lease.canon.worker)
    requires Run(s, acts).core.now <= s.core.now + s.core.policy.retention && pid !in Run(s, acts).procs
    requires ch.fault.NoFault? && ProveWorker(req, s.core.db.receipts[req.rid], ch.authority) == Proven(lease.canon.worker)
    ensures var t := Run(s, acts);
            Run(t, [Enter(pid, req)] + Goes(pid, ch, 3)) == System(t.core, t.procs[pid := Proc(req, Done(env, Some(lease.born)))])
  {
    hide SystemOk;
    hide ProveWorker;
    hide EnvelopeFromReceipt;
    FinishedRequestReplaysForever(s, acts, pid, req, lease.canon, ch);
  }
}
