/** What holds in every run of the submission system, whoever crashes, pauses, retries or takes
    over, and whatever the store and the backend do. */
module SubmissionTheorems {
  import opened Options
  import opened Envelopes
  import opened CommandStore
  import opened Submission
  import opened SubmissionInvariant
  import opened SubmissionSteps
  import opened SubmissionSafety

  // ----- At most one send -----

  /** No receipt row ever sees two send starts or two backend calls, and each call was preceded by
      its row's one send start under the same token. */
  lemma {:induction false} AtMostOneSend(policy: Policy, acts: seq<Act>)
    requires ValidPolicy(policy)
    ensures var h := Run(Initial(policy), acts).core.hist;
            && (forall i, j :: 0 <= i < j < |h.starts| ==> h.starts[i].born != h.starts[j].born)
            && (forall k, l :: 0 <= k < l < |h.sends| ==> h.sends[k].born != h.sends[l].born)
            && (forall k :: 0 <= k < |h.sends| ==>
                  StartedBy(Run(Initial(policy), acts).core, h.sends[k].rid, h.sends[k].token, h.sends[k].born))
  {
    RunOk(policy, acts);
    OneSendPerRow(Run(Initial(policy), acts).core);
  }

  lemma {:induction false} OneSendPerRow(c: Core)
    requires CoreOk(c)
    ensures forall k, l :: 0 <= k < l < |c.hist.sends| ==> c.hist.sends[k].born != c.hist.sends[l].born
    ensures forall k :: 0 <= k < |c.hist.sends| ==> StartedBy(c, c.hist.sends[k].rid, c.hist.sends[k].token, c.hist.sends[k].born)
    ensures forall i, j :: 0 <= i < j < |c.hist.starts| ==> c.hist.starts[i].born != c.hist.starts[j].born
  {
    var h := c.hist;
    forall i, j | 0 <= i < j < |h.starts| ensures h.starts[i].born != h.starts[j].born {
      assert Apart(c.policy, h.starts[i], h.starts[j]);
    }
    forall k | 0 <= k < |h.sends| ensures StartedBy(c, h.sends[k].rid, h.sends[k].token, h.sends[k].born) { assert SendOk(c, k); }
    forall k, l | 0 <= k < l < |h.sends| ensures h.sends[k].born != h.sends[l].born {
      assert SendOk(c, k) && SendOk(c, l);
      var i :| 0 <= i < |h.starts| && h.starts[i].token == h.sends[k].token && h.starts[i].rid == h.sends[k].rid && h.starts[i].born == h.sends[k].born;
      var j :| 0 <= j < |h.starts| && h.starts[j].token == h.sends[l].token && h.starts[j].rid == h.sends[l].rid && h.starts[j].born == h.sends[l].born;
      if i < j { assert Apart(c.policy, h.starts[i], h.starts[j]); }
      else if j < i { assert Apart(c.policy, h.starts[j], h.starts[i]); }
    }
  }

  /** Two send starts under one request id lie further apart than the whole retention age, which
      every accepted configuration keeps above the retry horizon. (Times are those of the transactions,
      which the model takes never to run backwards.) */
  lemma {:induction false} SecondSendOutlivesRetention(policy: Policy, acts: seq<Act>)
    requires ValidPolicy(policy)
    ensures var h := Run(Initial(policy), acts).core.hist;
            forall i, j :: 0 <= i < j < |h.starts| && h.starts[i].rid == h.starts[j].rid ==>
              h.starts[j].at > h.starts[i].at + policy.retention > h.starts[i].at + policy.horizon
  {
    RunOk(policy, acts);
    RunPolicy(policy, acts);
    var c := Run(Initial(policy), acts).core;
    forall i, j | 0 <= i < j < |c.hist.starts| && c.hist.starts[i].rid == c.hist.starts[j].rid
      ensures c.hist.starts[j].at > c.hist.starts[i].at + policy.retention
    {
      assert Apart(c.policy, c.hist.starts[i], c.hist.starts[j]);
    }
  }

  lemma {:induction false} RunPolicy(policy: Policy, acts: seq<Act>)
    ensures Run(Initial(policy), acts).core.policy == policy
    decreases |acts|
  {
    if acts != [] {
      RunPolicy(policy, acts[..|acts| - 1]);
      StepPolicy(Run(Initial(policy), acts[..|acts| - 1]), acts[|acts| - 1]);
    }
  }

  lemma {:induction false} StepPolicy(s: System, act: Act)
    ensures Step(s, act).core.policy == s.core.policy
  {
    if act.Go? && act.pid in s.procs {
      AdvancePolicy(s.core, s.procs[act.pid].req, s.procs[act.pid].pc, act.choice);
    }
  }

  lemma {:induction false} AdvancePolicy(c: Core, req: Request, pc: Pc, ch: Choice)
    ensures Advance(c, req, pc, ch).0.policy == c.policy
  {
  }

  /** Until the retention age has passed, the row of a started send is still there, past
      `reserved`, whatever maintenance has run. (Under the same assumption on the clock.) */
  lemma {:induction false} EvidenceOutlivesHorizon(policy: Policy, acts: seq<Act>, i: nat)
    requires ValidPolicy(policy)
    requires var c := Run(Initial(policy), acts).core;
             i < |c.hist.starts| && c.now <= c.hist.starts[i].at + policy.retention
    ensures var c := Run(Initial(policy), acts).core;
            var st := c.hist.starts[i];
            st.rid in c.db.receipts && c.db.receipts[st.rid].born == st.born && !c.db.receipts[st.rid].state.Reserved?
  {
    RunOk(policy, acts);
    RunPolicy(policy, acts);
    assert StartOk(Run(Initial(policy), acts).core, i);
  }

  // ----- Fencing -----

  /** A lease is superseded when the row of its request is not, or no longer, its token's. */
  predicate Superseded(c: Core, rid: RequestId, token: nat) {
    token < c.db.tokens && (rid in c.db.receipts ==> c.db.receipts[rid].owner != Some(token))
  }

  /** Past its own committed send start: the only place a call to the backend is made from. */
  predicate PastMark(pc: Pc) {
    pc.Started? || pc.Typing?
  }

  /** An owner whose token was superseded never moves a row, starts a send or, unless its own send
      start had committed before, reaches the backend. */
  lemma {:induction false} SupersededOwnerIsInert(policy: Policy, acts: seq<Act>, pid: nat, ch: Choice)
    requires ValidPolicy(policy)
    requires var s := Run(Initial(policy), acts);
             pid in s.procs && LeaseOf(s.procs[pid].pc).Some?
             && Superseded(s.core, s.procs[pid].req.rid, LeaseOf(s.procs[pid].pc).value.token)
    ensures var s := Run(Initial(policy), acts);
            var s' := Step(s, Go(pid, ch));
            && s'.core.db.receipts == s.core.db.receipts && s'.core.hist.starts == s.core.hist.starts
            && (!PastMark(s.procs[pid].pc) ==> s'.core.hist.sends == s.core.hist.sends)
  {
    var s := Run(Initial(policy), acts);
    InertStep(s.core, s.procs[pid].req, s.procs[pid].pc, ch);
  }

  lemma {:induction false} InertStep(c: Core, req: Request, pc: Pc, ch: Choice)
    requires LeaseOf(pc).Some? && Superseded(c, req.rid, LeaseOf(pc).value.token)
    ensures var d := Advance(c, req, pc, ch).0;
            && d.db.receipts == c.db.receipts && d.hist.starts == c.hist.starts
            && (!PastMark(pc) ==> d.hist.sends == c.hist.sends)
  {
    var lease := LeaseOf(pc).value;
    assert OwnerCheck(c.db, req.rid, lease.canon, lease.token, Reserved).Some?;
    assert OwnerCheck(c.db, req.rid, lease.canon, lease.token, SendStarted).Some?;
  }

  /** A superseded token stays superseded whatever happens next. */
  lemma {:induction false} SupersededForever(s: System, acts: seq<Act>, rid: RequestId, token: nat)
    requires SystemOk(s) && Superseded(s.core, rid, token)
    ensures SystemOk(Run(s, acts)) && Superseded(Run(s, acts).core, rid, token)
    decreases |acts|
  {
    if acts != [] {
      var prior, act := Run(s, acts[..|acts| - 1]), acts[|acts| - 1];
      SupersededForever(s, acts[..|acts| - 1], rid, token);
      StepSystemOk(prior, act);
      StepSupersedes(prior, act, rid, token);
    }
  }

  lemma {:induction false} StepSupersedes(s: System, act: Act, rid: RequestId, token: nat)
    requires SystemOk(s) && Superseded(s.core, rid, token)
    ensures Superseded(Step(s, act).core, rid, token)
  {
    var c := s.core;
    match act
    case Tick(n) =>
    case Enter(pid, req) =>
    case Go(pid, ch) =>
      if pid in s.procs {
        var p := s.procs[pid];
        AdvanceOk(c, p.req, p.pc, ch);
        ActingSupersedes(c, p.req, p.pc, ch);
      }
    case Sweep(r, outcome) =>
    case Maintain(r) =>
      MaintainOk(c, r, None);
      GrowsSupersedes(c, Committed(c, r, MaintainTx(c.db, c.now, c.policy, r)), None);
    case Sight(w, saw) => ObserveKeepsReceipts(c, w, saw);
  }

  lemma {:induction false} GrowsSupersedes(c: Core, d: Core, t: Option<nat>)
    requires Grows(c, d, t) && (t.Some? ==> t.value >= c.db.tokens)
    ensures forall rid, token :: Superseded(c, rid, token) ==> Superseded(d, rid, token)
  {
  }

  lemma {:induction false} ActingSupersedes(c: Core, req: Request, pc: Pc, ch: Choice)
    requires Grows(c, Advance(c, req, pc, ch).0, Acting(c, pc))
    requires ProcOk(c, req, pc)
    ensures forall rid, token :: Superseded(c, rid, token) ==> Superseded(Advance(c, req, pc, ch).0, rid, token)
  {
    var d := Advance(c, req, pc, ch).0;
    if LeaseOf(pc).None? { GrowsSupersedes(c, d, Acting(c, pc)); }
    else {
      var lease := LeaseOf(pc).value;
      forall rid, token | Superseded(c, rid, token) ensures Superseded(d, rid, token) {
        if token == lease.token { OwnTokenNotRevived(c, req, pc, ch, rid); }
      }
    }
  }

  lemma {:induction false} OwnTokenNotRevived(c: Core, req: Request, pc: Pc, ch: Choice, rid: RequestId)
    requires LeaseOf(pc).Some? && Superseded(c, rid, LeaseOf(pc).value.token)
    requires c.db.tokens <= Advance(c, req, pc, ch).0.db.tokens
    ensures Superseded(Advance(c, req, pc, ch).0, rid, LeaseOf(pc).value.token)
  {
    if rid == req.rid { InertStep(c, req, pc, ch); } else { OtherRowsKept(c, req, pc, ch, rid); }
  }

  /** An owner writes no row but its own request's. */
  lemma {:induction false} OtherRowsKept(c: Core, req: Request, pc: Pc, ch: Choice, rid: RequestId)
    requires LeaseOf(pc).Some? && rid != req.rid
    ensures Lookup(Advance(c, req, pc, ch).0.db.receipts, rid) == Lookup(c.db.receipts, rid)
  {
    hide EnvelopeFromReceipt;
    match pc
    case Finishing(lease, from, terminal, env, effect) =>
      var tx := FinishTx(c.db, c.now, req.rid, lease.canon, lease.token, from, terminal, env, effect);
      assert Lookup(tx.0.receipts, rid) == Lookup(c.db.receipts, rid);
      hide FinishTx;
    case Marking(lease, held) =>
      assert Lookup(Marked(c, req, lease).db.receipts, rid) == Lookup(c.db.receipts, rid);
      hide Marked;
      hide MarkTx;
    case Queueing(lease) =>
      var tx := QueueTx(c.db, c.now, req.rid, lease.canon, lease.token, QueuedEnvelope(req));
      assert Lookup(tx.0.receipts, rid) == Lookup(c.db.receipts, rid);
      hide QueueTx;
    case Yielding(_) =>
    case _ => OthersKeepReceipts(c, req, pc, ch);
  }

  // ----- Answers -----

  /** Across all callers and all replays, final answers read from one row agree: never an accepted
      and a rejected one. */
  lemma {:induction false} FinalAnswersAgree(policy: Policy, acts: seq<Act>, p: nat, q: nat)
    requires ValidPolicy(policy)
    requires var s := Run(Initial(policy), acts);
             && p in s.procs && s.procs[p].pc.Done? && FinalAnswer(s.procs[p].pc.env)
             && q in s.procs && s.procs[q].pc.Done? && FinalAnswer(s.procs[q].pc.env)
             && s.procs[p].pc.born == s.procs[q].pc.born
    ensures var s := Run(Initial(policy), acts);
            s.procs[p].pc.env.disposition == s.procs[q].pc.env.disposition
  {
    RunOk(policy, acts);
    var s := Run(Initial(policy), acts);
    assert ProcOk(s.core, s.procs[p].req, s.procs[p].pc) && ProcOk(s.core, s.procs[q].req, s.procs[q].pc);
  }

  /** A caller told `accepted` was told so of a row with exactly one backend call, a confirmed one;
      a caller told `rejected`, of a row that started no send or whose one call was definitely not
      delivered. The row itself may be long gone. */
  lemma {:induction false} FinalAnswersAreTrue(policy: Policy, acts: seq<Act>, pid: nat)
    requires ValidPolicy(policy)
    requires var s := Run(Initial(policy), acts);
             pid in s.procs && s.procs[pid].pc.Done? && FinalAnswer(s.procs[pid].pc.env)
    ensures var s := Run(Initial(policy), acts);
            var (env, row) := (s.procs[pid].pc.env, s.procs[pid].pc.born);
            && row.Some?
            && (env.disposition.TerminalAccepted? ==>
                  exists k: nat :: OnlySend(s.core, row.value, k) && MeansAccepted(s.core.hist.sends[k].outcome))
            && (env.disposition.TerminalRejected? ==>
                  NeverStarted(s.core, row.value)
                  || exists k: nat :: OnlySend(s.core, row.value, k) && MeansRejected(s.core.hist.sends[k].outcome))
  {
    RunOk(policy, acts);
    var s := Run(Initial(policy), acts);
    assert ProcOk(s.core, s.procs[pid].req, s.procs[pid].pc);
    FinalIsTrue(s.core, s.procs[pid].pc.born.value);
  }

  lemma {:induction false} FinalIsTrue(c: Core, born: nat)
    requires CoreOk(c) && born in c.hist.finals
    ensures c.hist.finals[born].Accepted? ==>
              exists k: nat :: OnlySend(c, born, k) && MeansAccepted(c.hist.sends[k].outcome)
    ensures c.hist.finals[born].Rejected? ==>
              NeverStarted(c, born) || exists k: nat :: OnlySend(c, born, k) && MeansRejected(c.hist.sends[k].outcome)
  {
    OneSendPerRow(c);
    assert FinalOk(c, born);
    if WasDelivered(c, born) {
      var k :| 0 <= k < |c.hist.sends| && c.hist.sends[k].born == born && MeansAccepted(c.hist.sends[k].outcome);
      assert OnlySend(c, born, k);
    }
    if WasRefused(c, born) {
      var k :| 0 <= k < |c.hist.sends| && c.hist.sends[k].born == born && MeansRejected(c.hist.sends[k].outcome);
      assert OnlySend(c, born, k);
    }
  }

  /** A replay that finds its row gone re-inserts accepted evidence as uncertain only and rejected
      evidence as the same rejection, and touches no row that exists. */
  lemma {:induction false} VanishedEvidenceOnlyWeakens(c: Core, req: Request, canon: Canonical, seen: Receipt, env: Envelope, ch: Choice)
    requires CoreOk(c) && ProcOk(c, req, Replaying(canon, seen, env))
    ensures var d := StepReplaying(c, req, canon, seen, env, ch).0;
            && (forall rid :: rid in c.db.receipts ==> rid in d.db.receipts && d.db.receipts[rid] == c.db.receipts[rid])
            && (d.db.receipts != c.db.receipts ==>
                  && req.rid !in c.db.receipts && d.db.receipts.Keys == c.db.receipts.Keys + {req.rid}
                  && (if seen.state.Rejected? then d.db.receipts[req.rid].state.Rejected? && d.db.receipts[req.rid].result == seen.result
                      else d.db.receipts[req.rid].state.Uncertain?))
  {
    WrittenRowsDecode(req, canon, seen);
    hide CoreOk;
    hide EnvelopeFromReceipt;
  }

  /** Crash recovery never overwrites a queued verdict the owner has recorded. */
  lemma {:induction false} RecoveryKeepsQueuedVerdict(policy: Policy, acts: seq<Act>, pid: nat, ch: Choice, rid: RequestId)
    requires ValidPolicy(policy)
    requires var s := Run(Initial(policy), acts);
             && pid in s.procs && s.procs[pid].pc.Recovering?
             && rid in s.core.db.receipts && Queued(rid, s.core.db.receipts[rid])
    ensures var s := Run(Initial(policy), acts);
            var s' := Step(s, Go(pid, ch));
            rid in s'.core.db.receipts && s'.core.db.receipts[rid] == s.core.db.receipts[rid]
  {
    RunOk(policy, acts);
    var s := Run(Initial(policy), acts);
    var p := s.procs[pid];
    assert ProcOk(s.core, p.req, p.pc);
    RecoveringSparesQueued(s.core, p.req, p.pc.canon, p.pc.seen, p.pc.env, ch, rid);
  }

  lemma {:induction false} RecoveringSparesQueued(c: Core, req: Request, canon: Canonical, seen: Receipt, env: Envelope, ch: Choice, rid: RequestId)
    requires seen.result == Doc(PendingDoc(req.rid, seen))
    requires rid in c.db.receipts && Queued(rid, c.db.receipts[rid])
    ensures var d := StepRecovering(c, req, canon, seen, env, ch).0;
            rid in d.db.receipts && d.db.receipts[rid] == c.db.receipts[rid]
  {
    RecoverShape(c, req.rid, canon, seen.result, RecoveredEnvelope(req));
    var db' := RecoverTx(c.db, c.now, req.rid, canon, seen.result, RecoveredEnvelope(req)).0;
    assert rid in db'.receipts && db'.receipts[rid] == c.db.receipts[rid];
  }

  // ----- Final rows are final -----

  /** The row is the same in both. */
  predicate SameRow(db: Db, db': Db, rid: RequestId) {
    rid in db.receipts && rid in db'.receipts && db'.receipts[rid] == db.receipts[rid]
  }

  /** No transaction changes a final row. */
  lemma {:induction false} TransactionsKeepFinalRows(c: Core, req: Request, canon: Canonical, lease: Lease, rid: RequestId)
    requires rid in c.db.receipts && IsTerminal(c.db.receipts[rid].state)
    ensures SameRow(c.db, ReserveTx(c.db, c.now, req, canon).0, rid) && SameRow(c.db, Marked(c, req, lease).db, rid)
    ensures SameRow(c.db, YieldTx(c.db, c.now, req.rid, lease.canon, lease.token), rid)
    ensures SameRow(c.db, QueueTx(c.db, c.now, req.rid, lease.canon, lease.token, QueuedEnvelope(req)).0, rid)
    ensures forall terminal, env, proof :: SameRow(c.db, ReplayTx(c.db, c.now, req.rid, canon, terminal, env, proof).0, rid)
  {
  }

  lemma {:induction false} FinishKeepsFinalRows(c: Core, req: Request, lease: Lease, from: ReceiptState, terminal: ReceiptState, env: Envelope,
                                                effect: Option<(nat, WorkerId)>, rid: RequestId)
    requires rid in c.db.receipts && IsTerminal(c.db.receipts[rid].state)
    ensures SameRow(c.db, FinishTx(c.db, c.now, req.rid, lease.canon, lease.token, from, terminal, env, effect).0, rid)
  {
  }

  lemma {:induction false} GuardedWritesKeepFinalRows(c: Core, req: Request, canon: Canonical, guard: Stored, verdict: Envelope, rid: RequestId)
    requires rid in c.db.receipts && IsTerminal(c.db.receipts[rid].state)
    ensures SameRow(c.db, ConcludeTx(c.db, c.now, req.rid, canon, guard, verdict).0, rid)
    ensures SameRow(c.db, RecoverTx(c.db, c.now, req.rid, canon, guard, verdict).0, rid)
  {
  }

  lemma {:induction false} AdvanceKeepsFinalRows(c: Core, req: Request, pc: Pc, ch: Choice, rid: RequestId)
    requires rid in c.db.receipts && IsTerminal(c.db.receipts[rid].state)
    ensures SameRow(c.db, Advance(c, req, pc, ch).0.db, rid)
  {
    match pc
    case Finishing(_, _, _, _, _) => ConcludedKeepsFinalRows(c, req, pc, ch, rid);
    case Concluding(_, _, _, _) => ConcludedKeepsFinalRows(c, req, pc, ch, rid);
    case Recovering(_, _, _) => ConcludedKeepsFinalRows(c, req, pc, ch, rid);
    case Replaying(_, _, _) => ConcludedKeepsFinalRows(c, req, pc, ch, rid);
    case Queueing(_) => ConcludedKeepsFinalRows(c, req, pc, ch, rid);
    case Reserving(canon, plan) => ReservingKeepsFinalRows(c, req, canon, plan, ch, rid);
    case Marking(lease, held) => MarkingKeepsFinalRows(c, req, lease, held, ch, rid);
    case Yielding(lease) => TransactionsKeepFinalRows(c, req, lease.canon, lease, rid);
    case _ =>
      OthersKeepReceipts(c, req, pc, ch);
      hide Advance;
  }

  /** The steps that end in `Concluded`. */
  lemma {:induction false} ConcludedKeepsFinalRows(c: Core, req: Request, pc: Pc, ch: Choice, rid: RequestId)
    requires pc.Finishing? || pc.Concluding? || pc.Recovering? || pc.Replaying? || pc.Queueing?
    requires rid in c.db.receipts && IsTerminal(c.db.receipts[rid].state)
    ensures SameRow(c.db, Advance(c, req, pc, ch).0.db, rid)
  {
    hide FinishTx;
    hide ConcludeTx;
    hide RecoverTx;
    hide ReplayTx;
    hide QueueTx;
    hide EnvelopeFromReceipt;
    match pc
    case Finishing(lease, from, terminal, env, effect) => FinishKeepsFinalRows(c, req, lease, from, terminal, env, effect, rid);
    case Concluding(canon, seen, env, verdict) => GuardedWritesKeepFinalRows(c, req, canon, seen.result, verdict, rid);
    case Recovering(canon, seen, env) => GuardedWritesKeepFinalRows(c, req, canon, seen.result, RecoveredEnvelope(req), rid);
    case Replaying(canon, _, _) => TransactionsKeepFinalRows(c, req, canon, Lease(canon, 0, 0), rid);
    case Queueing(lease) => TransactionsKeepFinalRows(c, req, lease.canon, lease, rid);
  }

  lemma {:induction false} ReservingKeepsFinalRows(c: Core, req: Request, canon: Canonical, plan: Plan, ch: Choice, rid: RequestId)
    requires rid in c.db.receipts && IsTerminal(c.db.receipts[rid].state)
    ensures SameRow(c.db, StepReserving(c, req, canon, plan, ch).0.db, rid)
  {
    hide ReserveTx;
    hide EnvelopeFromReceipt;
    TransactionsKeepFinalRows(c, req, canon, Lease(canon, 0, 0), rid);
  }

  lemma {:induction false} MarkingKeepsFinalRows(c: Core, req: Request, lease: Lease, held: Option<Hold>, ch: Choice, rid: RequestId)
    requires rid in c.db.receipts && IsTerminal(c.db.receipts[rid].state)
    ensures SameRow(c.db, StepMarking(c, req, lease, held, ch).0.db, rid)
  {
    hide MarkTx;
    hide Marked;
    hide EnvelopeFromReceipt;
    TransactionsKeepFinalRows(c, req, lease.canon, lease, rid);
  }

  lemma {:induction false} OthersKeepReceipts(c: Core, req: Request, pc: Pc, ch: Choice)
    requires !(pc.Finishing? || pc.Concluding? || pc.Recovering? || pc.Reserving? || pc.Replaying? || pc.Marking? || pc.Yielding? || pc.Queueing?)
    ensures Advance(c, req, pc, ch).0.db.receipts == c.db.receipts
  {
  }

  /** Nothing changes a final row; only maintenance takes it away, once its retention age has passed. */
  lemma {:induction false} FinalRowStays(s: System, act: Act, rid: RequestId)
    requires CoreOk(s.core) && rid in s.core.db.receipts && IsTerminal(s.core.db.receipts[rid].state)
    ensures SameRow(s.core.db, Step(s, act).core.db, rid)
            || (act == Maintain(rid) && s.core.db.receipts[rid].terminalAt.Some?
                && s.core.db.receipts[rid].terminalAt.value + s.core.policy.retention < s.core.now)
  {
    hide CoreOk;
    hide SameRow;
    FinalRowsAreDated(s.core, rid);
    if act.Go? && act.pid in s.procs {
      hide Advance;
      AdvanceKeepsFinalRows(s.core, s.procs[act.pid].req, s.procs[act.pid].pc, act.choice, rid);
    } else if act.Maintain? {
      MaintenanceOnlyDeletes(s.core, act.rid, rid);
    } else {
      hide Step;
      OtherActsKeepRows(s, act, rid);
    }
  }

  lemma {:induction false} FinalRowsAreDated(c: Core, rid: RequestId)
    requires CoreOk(c) && rid in c.db.receipts && IsTerminal(c.db.receipts[rid].state)
    ensures c.db.receipts[rid].terminalAt.Some?
  {
    assert RowOk(c, rid);
  }

  lemma {:induction false} OtherActsKeepRows(s: System, act: Act, rid: RequestId)
    requires !act.Maintain? && !(act.Go? && act.pid in s.procs) && rid in s.core.db.receipts
    ensures SameRow(s.core.db, Step(s, act).core.db, rid)
  {
    if act.Sight? {
      hide ObserveTx;
      ObserveKeepsReceipts(s.core, act.worker, act.saw);
    }
  }

  lemma {:induction false} MaintenanceOnlyDeletes(c: Core, r: RequestId, rid: RequestId)
    requires rid in c.db.receipts && IsTerminal(c.db.receipts[rid].state) && c.db.receipts[rid].terminalAt.Some?
    ensures SameRow(c.db, MaintainTx(c.db, c.now, c.policy, r), rid)
            || (r == rid && c.db.receipts[rid].terminalAt.value + c.policy.retention < c.now)
  {
  }

  lemma {:induction false} TimePasses(s: System, act: Act)
    ensures s.core.now <= Step(s, act).core.now
  {
    if act.Go? && act.pid in s.procs { AdvanceTakesNoTime(s.core, s.procs[act.pid].req, s.procs[act.pid].pc, act.choice); }
  }

  /** So a final row stays as it is in every continuation, at least until its retention age has passed. */
  lemma {:induction false} FinalRowStaysUntilRetention(s: System, acts: seq<Act>, rid: RequestId)
    requires SystemOk(s) && rid in s.core.db.receipts && IsTerminal(s.core.db.receipts[rid].state) && s.core.db.receipts[rid].terminalAt.Some?
    requires Run(s, acts).core.now <= s.core.db.receipts[rid].terminalAt.value + s.core.policy.retention
    ensures SystemOk(Run(s, acts)) && SameRow(s.core.db, Run(s, acts).core.db, rid) && Run(s, acts).core.policy == s.core.policy
    decreases |acts|
  {
    hide SystemOk;
    hide CoreOk;
    hide Step;
    if acts != [] {
      var prior, act := Run(s, acts[..|acts| - 1]), acts[|acts| - 1];
      TimePasses(prior, act);
      FinalRowStaysUntilRetention(s, acts[..|acts| - 1], rid);
      assert CoreOk(prior.core) by { SystemIsOk(prior); }
      FinalRowStays(prior, act, rid);
      StepPolicy(prior, act);
      StepSystemOk(prior, act);
    }
  }

  /** The other row is kept longer: it may be deleted too, and it was retained later, or as late under a later
      number. */
  predicate Outranks(other: Receipt, row: Receipt, now: nat) {
    && (other.state.Accepted? || other.state.Rejected? || other.state.Uncertain?
        || (other.state.Reserved? && other.expires.Some? && other.expires.value <= now))
    && var (a, b) := (if other.terminalAt.Some? then other.terminalAt.value else other.updated,
                      if row.terminalAt.Some? then row.terminalAt.value else row.updated);
       a > b || (a == b && other.born > row.born)
  }

  /** However old it is, a row that fewer than `keep` others outrank is never deleted. */
  lemma {:induction false} NewestRowsAreKept(s: System, act: Act, rid: RequestId)
    requires rid in s.core.db.receipts
    requires var rows := s.core.db.receipts; |set r | r in rows && Outranks(rows[r], rows[rid], s.core.now)| < s.core.policy.keep
    ensures rid in Step(s, act).core.db.receipts
  {
    match act
    case Maintain(r) =>
      var rows := s.core.db.receipts;
      assert Newer(s.core.db, s.core.now, rid) == set r | r in rows && Outranks(rows[r], rows[rid], s.core.now);
      hide Newer;
    case Go(pid, ch) =>
      hide Advance;
      if pid in s.procs { AdvanceKeepsRows(s.core, s.procs[pid].req, s.procs[pid].pc, ch, rid); }
    case Sight(w, saw) => ObserveKeepsReceipts(s.core, w, saw); hide ObserveTx;
    case _ =>
  }

  lemma {:induction false} AdvanceKeepsRows(c: Core, req: Request, pc: Pc, ch: Choice, rid: RequestId)
    requires rid in c.db.receipts
    ensures rid in Advance(c, req, pc, ch).0.db.receipts
  {
    match pc
    case Finishing(lease, from, terminal, env, effect) =>
      assert rid in FinishTx(c.db, c.now, req.rid, lease.canon, lease.token, from, terminal, env, effect).0.receipts;
      hide FinishTx;
      hide EnvelopeFromReceipt;
    case Reserving(canon, plan) =>
      assert rid in ReserveTx(c.db, c.now, req, canon).0.receipts;
      hide ReserveTx;
      hide EnvelopeFromReceipt;
    case Marking(lease, held) =>
      assert rid in Marked(c, req, lease).db.receipts;
      hide Marked;
      hide MarkTx;
      hide EnvelopeFromReceipt;
    case _ => OthersKeepRows(c, req, pc, ch, rid);
  }

  lemma {:induction false} OthersKeepRows(c: Core, req: Request, pc: Pc, ch: Choice, rid: RequestId)
    requires rid in c.db.receipts && !(pc.Finishing? || pc.Reserving? || pc.Marking?)
    ensures rid in Advance(c, req, pc, ch).0.db.receipts
  {
    if pc.Replaying? || pc.Concluding? || pc.Recovering? || pc.Queueing? { GuardedStepsKeepRows(c, req, pc, ch, rid); }
    else if pc.Yielding? {}
    else { OthersKeepReceipts(c, req, pc, ch); hide Advance; }
  }

  lemma {:induction false} GuardedStepsKeepRows(c: Core, req: Request, pc: Pc, ch: Choice, rid: RequestId)
    requires rid in c.db.receipts && (pc.Replaying? || pc.Concluding? || pc.Recovering? || pc.Queueing?)
    ensures rid in Advance(c, req, pc, ch).0.db.receipts
  {
    hide EnvelopeFromReceipt;
    match pc
    case Replaying(canon, seen, env) =>
      var (terminal, evidence) := ReplayEvidence(req, seen, env);
      assert rid in ReplayTx(c.db, c.now, req.rid, canon, terminal, evidence, seen.proof).0.receipts;
      hide ReplayTx;
    case Concluding(canon, seen, env, verdict) =>
      assert rid in ConcludeTx(c.db, c.now, req.rid, canon, seen.result, verdict).0.receipts;
      hide ConcludeTx;
    case Recovering(canon, seen, env) =>
      assert rid in RecoverTx(c.db, c.now, req.rid, canon, seen.result, RecoveredEnvelope(req)).0.receipts;
      hide RecoverTx;
    case Queueing(lease) =>
      assert rid in QueueTx(c.db, c.now, req.rid, lease.canon, lease.token, QueuedEnvelope(req)).0.receipts;
      hide QueueTx;
  }

  // ----- Truthful history -----

  /** Exactly one backend call was made for this row, and this was its outcome. */
  ghost predicate OnlySend(c: Core, born: nat, k: nat) {
    k < |c.hist.sends| && c.hist.sends[k].born == born
    && (forall l :: 0 <= l < |c.hist.sends| && c.hist.sends[l].born == born ==> l == k)
  }

  predicate MeansAccepted(o: Outcome) {
    o == Prompted(Submitted) || (o.Typed? && o.done)
  }

  /** The backend's five answers that exclude delivery. */
  predicate MeansRejected(o: Outcome) {
    o.Prompted? && o.verdict in {AgentNotReady, TargetAmbiguous, PromptNotReceived, PromptUnsubmitted, InputPending}
  }

  /** And the backend's answer to a prompt decides what is written next: submitted is accepted, the five are
      rejected, written to the terminal is queued, and everything else is uncertain. */
  lemma {:induction false} VerdictDecides(c: Core, req: Request, lease: Lease, ch: Choice)
    ensures var (d, next) := Advance(c, req, Started(lease, None), ch);
            && d.hist.sends == c.hist.sends + [Send(req.rid, lease.token, lease.born, Prompted(ch.reply))] && d.db == c.db
            && (next.Queueing? <==> ch.reply.WrittenToPty?) && (!ch.reply.WrittenToPty? ==> next.Finishing?)
            && (next.Finishing? ==>
                  && (next.terminal.Accepted? <==> ch.reply.Submitted?)
                  && (next.terminal.Rejected? <==> MeansRejected(Prompted(ch.reply)))
                  && (!ch.reply.Submitted? && !MeansRejected(Prompted(ch.reply)) ==> next.terminal.Uncertain?)
                  && next.from.SendStarted? && next.effect.None?)
  {
  }

  /** An accepted row had exactly one backend call, and the backend confirmed it; a rejected row
      had no send started, or one call that was definitely not delivered. */
  lemma {:induction false} TruthfulHistory(policy: Policy, acts: seq<Act>, rid: RequestId)
    requires ValidPolicy(policy) && rid in Run(Initial(policy), acts).core.db.receipts
    ensures var c := Run(Initial(policy), acts).core;
            var row := c.db.receipts[rid];
            && (row.state.Accepted? ==>
                  exists k: nat :: OnlySend(c, row.born, k) && MeansAccepted(c.hist.sends[k].outcome) && c.hist.sends[k].rid == rid)
            && (row.state.Rejected? ==>
                  NeverStarted(c, row.born) || exists k: nat :: OnlySend(c, row.born, k) && MeansRejected(c.hist.sends[k].outcome))
  {
    RunOk(policy, acts);
    var c := Run(Initial(policy), acts).core;
    var row := c.db.receipts[rid];
    assert RowOk(c, rid);
    if IsTerminal(row.state) { FinalIsTrue(c, row.born); }
    if row.state.Accepted? {
      var k: nat :| OnlySend(c, row.born, k) && MeansAccepted(c.hist.sends[k].outcome);
      SendsNameTheirRow(c, rid, k);
    }
  }

  lemma {:induction false} SendsNameTheirRow(c: Core, rid: RequestId, k: nat)
    requires CoreOk(c) && k < |c.hist.sends| && rid in c.db.receipts && c.hist.sends[k].born == c.db.receipts[rid].born
    ensures c.hist.sends[k].rid == rid
  {
    assert SendOk(c, k);
    var i :| 0 <= i < |c.hist.starts| && c.hist.starts[i].token == c.hist.sends[k].token
             && c.hist.starts[i].rid == c.hist.sends[k].rid && c.hist.starts[i].born == c.hist.sends[k].born;
    assert StartOk(c, i);
  }

  /** Although the store has a transition that accepts a queued send once its turn is linked, no
      run ever takes it: a send the backend queued is never accepted. */
  lemma {:induction false} QueuedSendNeverAccepted(policy: Policy, acts: seq<Act>, k: nat)
    requires ValidPolicy(policy)
    requires var c := Run(Initial(policy), acts).core;
             k < |c.hist.sends| && c.hist.sends[k].outcome == Prompted(WrittenToPty)
    ensures var c := Run(Initial(policy), acts).core;
            var born := c.hist.sends[k].born;
            born in c.hist.finals ==> c.hist.finals[born].Uncertain?
  {
    RunOk(policy, acts);
    var c := Run(Initial(policy), acts).core;
    if c.hist.sends[k].born in c.hist.finals { QueuedFinalIsUncertain(c, k); }
  }

  lemma {:induction false} QueuedFinalIsUncertain(c: Core, k: nat)
    requires CoreOk(c) && k < |c.hist.sends| && c.hist.sends[k].outcome == Prompted(WrittenToPty)
    requires c.hist.sends[k].born in c.hist.finals
    ensures c.hist.finals[c.hist.sends[k].born].Uncertain?
  {
    var born := c.hist.sends[k].born;
    OneSendPerRow(c);
    assert FinalOk(c, born);
    assert !WasDelivered(c, born) && !WasRefused(c, born) by {
      assert forall l :: 0 <= l < |c.hist.sends| && c.hist.sends[l].born == born ==> l == k;
    }
    var i :| 0 <= i < |c.hist.starts| && c.hist.starts[i].token == c.hist.sends[k].token
             && c.hist.starts[i].rid == c.hist.sends[k].rid && c.hist.starts[i].born == born;
  }

  /** Every row of every reachable state is read back as what it is. */
  lemma {:induction false} EveryRowDecodes(policy: Policy, acts: seq<Act>, req: Request, canon: Canonical)
    requires ValidPolicy(policy)
    requires var db := Run(Initial(policy), acts).core.db;
             req.rid in db.receipts && SameRequest(req, canon, db.receipts[req.rid])
    ensures var row := Run(Initial(policy), acts).core.db.receipts[req.rid];
            var e := EnvelopeFromReceipt(req, canon, Some(row));
            && ValidEnvelope(e) && e.status == row.status && e.disposition == DispositionOf(row.state) && !FallbackNote(e.note)
            && (!row.state.Uncertain? ==> row.result == Doc(e))
  {
    RunOk(policy, acts);
    var c := Run(Initial(policy), acts).core;
    assert RowOk(c, req.rid);
    WrittenRowsDecode(req, canon, c.db.receipts[req.rid]);
  }
}
