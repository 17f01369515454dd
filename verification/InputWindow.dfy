/** How long a claimed answer is bound to reach the pane under its own send start, whatever everybody else does
    first: exactly as long as its owner's lease runs and the retry horizon has not passed. */
module InputWindow {
  import opened Options
  import opened Envelopes
  import opened CommandStore
  import opened Submission
  import opened SubmissionInvariant
  import opened SubmissionSafety
  import opened SubmissionTheorems
  import opened SendTenure
  import opened Retries
  import opened ReceiptReplay

  /** The receipt is in `send_started` under this very lease. */
  predicate UnderOwnStart(c: Core, req: Request, lease: Lease) {
    && req.rid in c.db.receipts && c.db.receipts[req.rid].born == lease.born && c.db.receipts[req.rid].state.SendStarted?
    && c.db.receipts[req.rid].owner == Some(lease.token)
  }

  /** The send start made under this lease is within its owner's lease and the retry horizon. */
  ghost predicate InWindow(c: Core, lease: Lease) {
    exists i :: 0 <= i < |c.hist.starts| && c.hist.starts[i].token == lease.token
                && c.now < c.hist.starts[i].until && c.now <= c.hist.starts[i].at + c.policy.horizon
  }

  /** Whatever others do at this moment, the receipt stays in `send_started`. */
  ghost predicate BoundToBeStarted(s: System, pid: nat, req: Request, lease: Lease) {
    forall more :: ByOthers(more, pid) && NoTimePasses(more) ==> UnderOwnStart(Run(s, more).core, req, lease)
  }

  // ----- Within the window -----

  lemma {:induction false} StartsStay(s: System, acts: seq<Act>)
    ensures s.core.hist.starts <= Run(s, acts).core.hist.starts
    decreases |acts|
  {
    hide Advance;
    if acts != [] {
      var prior, act := Run(s, acts[..|acts| - 1]), acts[|acts| - 1];
      StartsStay(s, acts[..|acts| - 1]);
      if act.Go? && act.pid in prior.procs { AdvanceKeepsStarts(prior.core, prior.procs[act.pid].req, prior.procs[act.pid].pc, act.choice); }
    }
  }

  lemma {:induction false} AdvanceKeepsStarts(c: Core, req: Request, pc: Pc, ch: Choice)
    ensures c.hist.starts <= Advance(c, req, pc, ch).0.hist.starts
  {
  }

  lemma {:induction false} StartedWithinWindow(policy: Policy, acts: seq<Act>, pid: nat, more: seq<Act>)
    requires ValidPolicy(policy) && ByOthers(more, pid) && NoTimePasses(more)
    requires var s := Run(Initial(policy), acts);
             pid in s.procs && s.procs[pid].pc.Started? && InWindow(s.core, s.procs[pid].pc.lease)
    ensures var s := Run(Initial(policy), acts); UnderOwnStart(Run(s, more).core, s.procs[pid].req, s.procs[pid].pc.lease)
  {
    var s, t := Run(Initial(policy), acts), Run(Run(Initial(policy), acts), more);
    var lease := s.procs[pid].pc.lease;
    var i :| 0 <= i < |s.core.hist.starts| && s.core.hist.starts[i].token == lease.token
             && s.core.now < s.core.hist.starts[i].until && s.core.now <= s.core.hist.starts[i].at + s.core.policy.horizon;
    OthersLeaveUs(s, more, pid);
    ClockStands(s, more);
    StartsStay(s, more);
    RunJoined(Initial(policy), acts, more);
    RunPolicy(policy, acts);
    RunOk(policy, acts + more);
    var j := CallsUnderOwnStart(policy, acts + more, pid);
    OneStartPerToken(t.core, i, j);
  }

  lemma {:induction false} OneStartPerToken(c: Core, i: nat, j: nat)
    requires CoreOk(c) && i < |c.hist.starts| && j < |c.hist.starts| && c.hist.starts[i].token == c.hist.starts[j].token
    ensures i == j
  {
    assert i < j ==> Apart(c.policy, c.hist.starts[i], c.hist.starts[j]);
    assert j < i ==> Apart(c.policy, c.hist.starts[j], c.hist.starts[i]);
  }

  // ----- Past the window -----

  const CALM := Choice(NoFault, None, NoSnapshot, Waits, None, None, StRejected, NoVerdict, false, true)

  lemma {:induction false} UnusedNumber(procs: map<nat, Proc>) returns (pid: nat)
    ensures pid !in procs
  {
    var keys := procs.Keys;
    pid := 0;
    while exists p :: p in keys && p >= pid
      invariant forall p :: p in procs && p >= pid ==> p in keys
      decreases keys
    {
      var p :| p in keys && p >= pid;
      keys := keys - {p};
      pid := p + 1;
    }
  }

  /** The maintenance pass gives the row up. */
  lemma {:induction false} MaintenanceGivesUp(s: System, rid: RequestId)
    requires rid in s.core.db.receipts && s.core.db.receipts[rid].state.SendStarted? && s.core.db.receipts[rid].startedAt.Some?
    requires s.core.db.receipts[rid].startedAt.value + s.core.policy.horizon < s.core.now
    ensures var t := Run(s, [Maintain(rid)]);
            && rid in t.core.db.receipts && t.core.db.receipts[rid].state.Uncertain? && t.procs == s.procs
            && t.core.db.claims == s.core.db.claims && t.core.db.pending == s.core.db.pending && t.core.now == s.core.now
  {
    assert [Maintain(rid)][..0] == [];
  }

  /** A started send that its owner has not queued can be recovered by anyone once the lease is over. */
  lemma {:induction false} RecoveryGivesUp(s: System, pid: nat, rid: RequestId)
    requires CoreOk(s.core) && pid !in s.procs && rid in s.core.db.receipts
    requires var row := s.core.db.receipts[rid]; row.state.SendStarted? && !Live(row, s.core.now) && !Queued(rid, row)
    ensures var row := s.core.db.receipts[rid];
            var t := Run(s, [Enter(pid, Request(rid, row.canon.action, Explicit(row.canon.worker), row.canon.body))] + Goes(pid, CALM, 3));
            && rid in t.core.db.receipts && t.core.db.receipts[rid].state.Uncertain?
            && (forall p :: p in s.procs ==> p in t.procs && t.procs[p] == s.procs[p])
            && t.core.db.claims == s.core.db.claims && t.core.db.pending == s.core.db.pending && t.core.now == s.core.now
  {
    hide CoreOk;
    var row := s.core.db.receipts[rid];
    var req := Request(rid, row.canon.action, Explicit(row.canon.worker), row.canon.body);
    assert row.canon == CanonicalFor(req, row.canon.worker);
    ReaderDoesNotRecover(s.core, req, row.canon.worker, CALM);
    DriveIsRun(s, pid, req, CALM, 3);
  }

  /** What the system knows of a started answer that has not reached the pane. */
  lemma {:induction false} StartOfAnswer(s: System, pid: nat) returns (i: nat)
    requires SystemOk(s) && pid in s.procs && s.procs[pid].pc.Started?
    requires UnderOwnStart(s.core, s.procs[pid].req, s.procs[pid].pc.lease)
    ensures var lease := s.procs[pid].pc.lease;
            var row := s.core.db.receipts[s.procs[pid].req.rid];
            && i < |s.core.hist.starts| && s.core.hist.starts[i].token == lease.token
            && row.startedAt == Some(s.core.hist.starts[i].at) && row.expires == Some(s.core.hist.starts[i].until)
            && !Queued(s.procs[pid].req.rid, row)
  {
    var (c, req, lease) := (s.core, s.procs[pid].req, s.procs[pid].pc.lease);
    assert ProcOk(c, req, s.procs[pid].pc) && RowOk(c, req.rid);
    i :| 0 <= i < |c.hist.starts| && c.hist.starts[i].token == lease.token && c.hist.starts[i].rid == req.rid && c.hist.starts[i].born == lease.born;
    assert StartOk(c, i);
  }

  /** Past the window others can give the receipt up on the spot, while the answer, its claim and its
      question stay as they are. */
  lemma {:induction false} GivenUpBehind(s: System, pid: nat) returns (more: seq<Act>)
    requires SystemOk(s) && pid in s.procs && s.procs[pid].pc.Started?
    requires UnderOwnStart(s.core, s.procs[pid].req, s.procs[pid].pc.lease) && !InWindow(s.core, s.procs[pid].pc.lease)
    ensures ByOthers(more, pid) && NoTimePasses(more)
    ensures var (t, rid) := (Run(s, more), s.procs[pid].req.rid);
            && rid in t.core.db.receipts && t.core.db.receipts[rid].state.Uncertain?
            && pid in t.procs && t.procs[pid] == s.procs[pid] && t.core.now == s.core.now
            && t.core.db.claims == s.core.db.claims && t.core.db.pending == s.core.db.pending
  {
    var i := StartOfAnswer(s, pid);
    assert CoreOk(s.core);
    hide SystemOk;
    hide CoreOk;
    hide Run;
    hide Queued;
    var rid := s.procs[pid].req.rid;
    var (c, st, row) := (s.core, s.core.hist.starts[i], s.core.db.receipts[s.procs[pid].req.rid]);
    if st.at + c.policy.horizon < c.now {
      more := [Maintain(rid)];
      MaintenanceGivesUp(s, rid);
    } else {
      assert st.until <= c.now;
      var other := UnusedNumber(s.procs);
      more := [Enter(other, Request(rid, row.canon.action, Explicit(row.canon.worker), row.canon.body))] + Goes(other, CALM, 3);
      RecoveryGivesUp(s, other, rid);
    }
  }

  /** The same step crosses the boundary in both, for the same claim. */
  lemma {:induction false} CrossingStaysOpen(s: System, t: System, pid: nat, ch: Choice)
    requires pid in s.procs && pid in t.procs && t.procs[pid] == s.procs[pid] && s.procs[pid].pc.Started? && s.procs[pid].pc.held.Some?
    requires t.core.db.claims == s.core.db.claims && t.core.db.pending == s.core.db.pending && t.core.now == s.core.now
    ensures Step(t, Go(pid, ch)).core.hist.crossings != t.core.hist.crossings <==> Step(s, Go(pid, ch)).core.hist.crossings != s.core.hist.crossings
  {
    var (lease, hold) := (s.procs[pid].pc.lease, s.procs[pid].pc.held.value);
    assert StartClaimTx(t.core.db, t.core.now, hold.route.worker, hold.claim, ch.fingerprint).1
        == StartClaimTx(s.core.db, s.core.now, hold.route.worker, hold.claim, ch.fingerprint).1;
  }

  // ----- The window is exact -----

  /** An answer that stands before the pane with its receipt started is bound to reach it under that started
      receipt, whatever others do first, if and only if its owner's lease has not run out and the retry
      horizon has not passed. */
  lemma {:induction false} BoundToBeStartedExactlyInWindow(policy: Policy, acts: seq<Act>, pid: nat)
    requires ValidPolicy(policy)
    requires var s := Run(Initial(policy), acts);
             && pid in s.procs && s.procs[pid].pc.Started? && s.procs[pid].pc.held.Some?
             && UnderOwnStart(s.core, s.procs[pid].req, s.procs[pid].pc.lease)
    ensures var s := Run(Initial(policy), acts);
            BoundToBeStarted(s, pid, s.procs[pid].req, s.procs[pid].pc.lease) <==> InWindow(s.core, s.procs[pid].pc.lease)
  {
    hide UnderOwnStart;
    hide InWindow;
    RunOk(policy, acts);
    var s := Run(Initial(policy), acts);
    var (req, lease) := (s.procs[pid].req, s.procs[pid].pc.lease);
    if InWindow(s.core, lease) {
      forall more | ByOthers(more, pid) && NoTimePasses(more) ensures UnderOwnStart(Run(s, more).core, req, lease) {
        StartedWithinWindow(policy, acts, pid, more);
      }
    } else {
      var more := GivenUpBehind(s, pid);
      assert !UnderOwnStart(Run(s, more).core, req, lease) by { UncertainIsNotStarted(Run(s, more).core, req, lease); }
    }
  }

  /** And past the window the loss is real: whenever the answer is about to cross, others can first make its
      receipt uncertain, and it crosses all the same. */
  lemma {:induction false} CrossesAfterGivenUp(policy: Policy, acts: seq<Act>, pid: nat, ch: Choice) returns (more: seq<Act>)
    requires ValidPolicy(policy)
    requires var s := Run(Initial(policy), acts);
             && pid in s.procs && s.procs[pid].pc.Started? && s.procs[pid].pc.held.Some?
             && UnderOwnStart(s.core, s.procs[pid].req, s.procs[pid].pc.lease) && !InWindow(s.core, s.procs[pid].pc.lease)
             && Step(s, Go(pid, ch)).core.hist.crossings != s.core.hist.crossings
    ensures ByOthers(more, pid) && NoTimePasses(more)
    ensures var (s, t) := (Run(Initial(policy), acts), Run(Initial(policy), acts + more));
            var rid := s.procs[pid].req.rid;
            && rid in t.core.db.receipts && t.core.db.receipts[rid].state.Uncertain?
            && Step(t, Go(pid, ch)).core.hist.crossings != t.core.hist.crossings
  {
    hide UnderOwnStart;
    hide InWindow;
    hide Step;
    var s := Run(Initial(policy), acts);
    RunOk(policy, acts);
    more := GivenUpBehind(s, pid);
    RunJoined(Initial(policy), acts, more);
    CrossingStaysOpen(s, Run(s, more), pid, ch);
  }

  lemma {:induction false} UncertainIsNotStarted(c: Core, req: Request, lease: Lease)
    requires req.rid in c.db.receipts && c.db.receipts[req.rid].state.Uncertain?
    ensures !UnderOwnStart(c, req, lease)
  {
  }
}
