/** How long a committed send start is its owner's alone: nobody else moves the row while the owner's
    lease is live and the retry horizon has not passed, and what they may make of it afterwards. */
module SendTenure {
  import opened Options
  import opened Envelopes
  import opened CommandStore
  import opened Submission
  import opened SubmissionInvariant
  import opened SubmissionSteps
  import opened SubmissionSafety
  import opened SubmissionTheorems

  /** The row of a send start is either still as its owner left it, or was given up as uncertain
      once the lease had run out or the horizon had passed. */
  ghost predicate Tenure(c: Core, st: Start) {
    || st.at + c.policy.retention < c.now
    || (&& st.rid in c.db.receipts && c.db.receipts[st.rid].born == st.born
        && (|| c.db.receipts[st.rid].state.SendStarted?
            || (c.db.receipts[st.rid].state.Uncertain? && (st.until <= c.now || st.at + c.policy.horizon < c.now))))
  }

  ghost predicate TenureOk(c: Core, pc: Pc) {
    (pc.Started? || pc.Typing?) ==>
      forall i :: 0 <= i < |c.hist.starts| && c.hist.starts[i].token == LeaseOf(pc).value.token ==> Tenure(c, c.hist.starts[i])
  }

  /** What a party that is not its owner may make of a row in `send_started`. */
  ghost predicate Respected(c: Core, d: Core, rid: RequestId)
    requires rid in c.db.receipts
  {
    var row := c.db.receipts[rid];
    && rid in d.db.receipts
    && (|| d.db.receipts[rid] == row
        || (&& d.db.receipts[rid].state.Uncertain? && d.db.receipts[rid].born == row.born
            && (|| (row.expires.Some? && row.expires.value <= c.now)
                || (row.startedAt.Some? && row.startedAt.value + c.policy.horizon < c.now)
                || Queued(rid, row))))
  }

  ghost predicate Foreign(c: Core, rid: RequestId, pc: Pc) {
    && rid in c.db.receipts && c.db.receipts[rid].state.SendStarted?
    && (LeaseOf(pc).Some? ==> c.db.receipts[rid].owner != Some(LeaseOf(pc).value.token))
  }

  lemma {:induction false} OwnersRespect(c: Core, req: Request, pc: Pc, ch: Choice, rid: RequestId)
    requires LeaseOf(pc).Some? && Foreign(c, rid, pc)
    ensures Respected(c, Advance(c, req, pc, ch).0, rid)
  {
    if rid != req.rid { OtherRowsKept(c, req, pc, ch, rid); }
    else {
      var lease := LeaseOf(pc).value;
      assert OwnerCheck(c.db, rid, lease.canon, lease.token, Reserved).Some?;
      assert OwnerCheck(c.db, rid, lease.canon, lease.token, SendStarted).Some?;
    }
  }

  lemma {:induction false} ReadersRespect(c: Core, req: Request, pc: Pc, ch: Choice, rid: RequestId)
    requires CoreOk(c) && LeaseOf(pc).None? && ProcOk(c, req, pc) && Foreign(c, rid, pc)
    requires c.db.receipts[rid].expires.Some?
    ensures Respected(c, Advance(c, req, pc, ch).0, rid)
  {
    hide CoreOk;
    hide Respected;
    match pc
    case Concluding(canon, seen, env, verdict) => ConcludingRespects(c, req, canon, seen, env, verdict, ch, rid);
    case Recovering(canon, seen, env) => RecoveringRespects(c, req, canon, seen, env, ch, rid);
    case Replaying(canon, seen, env) => ReplayingRespects(c, req, canon, seen, env, ch, rid);
    case Reserving(canon, plan) => ReservingRespects(c, req, canon, plan, ch, rid);
    case _ => LocalRespects(c, req, pc, ch, rid);
  }

  lemma {:induction false} LocalKeepsReceipts(c: Core, req: Request, pc: Pc, ch: Choice)
    requires LeaseOf(pc).None?
    requires !(pc.Concluding? || pc.Recovering? || pc.Replaying? || pc.Reserving?)
    ensures Advance(c, req, pc, ch).0.db.receipts == c.db.receipts
  {
  }

  lemma {:induction false} LocalRespects(c: Core, req: Request, pc: Pc, ch: Choice, rid: RequestId)
    requires LeaseOf(pc).None? && rid in c.db.receipts
    requires !(pc.Concluding? || pc.Recovering? || pc.Replaying? || pc.Reserving?)
    ensures Respected(c, Advance(c, req, pc, ch).0, rid)
  {
    LocalKeepsReceipts(c, req, pc, ch);
  }

  lemma {:induction false} ReplayingRespects(c: Core, req: Request, canon: Canonical, seen: Receipt, env: Envelope, ch: Choice, rid: RequestId)
    requires rid in c.db.receipts
    ensures Respected(c, StepReplaying(c, req, canon, seen, env, ch).0, rid)
  {
  }

  lemma {:induction false} ReservingRespects(c: Core, req: Request, canon: Canonical, plan: Plan, ch: Choice, rid: RequestId)
    requires rid in c.db.receipts && c.db.receipts[rid].state.SendStarted?
    ensures Respected(c, StepReserving(c, req, canon, plan, ch).0, rid)
  {
    assert ReserveTx(c.db, c.now, req, canon).0.receipts[rid] == c.db.receipts[rid];
  }

  lemma {:induction false} ConcludingRespects(c: Core, req: Request, canon: Canonical, seen: Receipt, env: Envelope, verdict: Envelope, ch: Choice,
                           rid: RequestId)
    requires CoreOk(c) && Queued(req.rid, seen) && seen.canon == canon && rid in c.db.receipts && c.db.receipts[rid].state.SendStarted?
    ensures Respected(c, StepConcluding(c, req, canon, seen, env, verdict, ch).0, rid)
  {
    if verdict.ok { QueuedNeverConcludes(c, req.rid, canon, seen, verdict); }
    var tx := ConcludeTx(c.db, c.now, req.rid, canon, seen.result, verdict);
    if tx.0 == c.db || rid != req.rid { assert rid in tx.0.receipts && tx.0.receipts[rid] == c.db.receipts[rid]; }
    else { assert Queued(rid, c.db.receipts[rid]); }
  }

  lemma {:induction false} RecoveringRespects(c: Core, req: Request, canon: Canonical, seen: Receipt, env: Envelope, ch: Choice, rid: RequestId)
    requires rid in c.db.receipts && c.db.receipts[rid].state.SendStarted? && c.db.receipts[rid].expires.Some?
    ensures Respected(c, StepRecovering(c, req, canon, seen, env, ch).0, rid)
  {
    RecoverShape(c, req.rid, canon, seen.result, RecoveredEnvelope(req));
    var db' := RecoverTx(c.db, c.now, req.rid, canon, seen.result, RecoveredEnvelope(req)).0;
    if db' == c.db || rid != req.rid { assert rid in db'.receipts && db'.receipts[rid] == c.db.receipts[rid]; }
  }

  // ----- Tenure is stable -----

  lemma {:induction false} TenureStable(c: Core, d: Core, t: Option<nat>, st: Start)
    requires CoreOk(c) && CoreOk(d) && Grows(c, d, t) && Tenure(c, st) && st in c.hist.starts && Some(st.token) != t
    requires NoSend(c, st.token)
    requires st.rid in c.db.receipts && c.db.receipts[st.rid].born == st.born && c.db.receipts[st.rid].state.SendStarted? ==>
               Respected(c, d, st.rid)
    ensures Tenure(d, st)
  {
    var i :| 0 <= i < |c.hist.starts| && c.hist.starts[i] == st;
    assert d.hist.starts[i] == st;
    assert StartOk(c, i) && StartOk(d, i);
    if d.now <= st.at + d.policy.retention {
      assert RowOk(c, st.rid) && RowOk(d, st.rid);
      if c.db.receipts[st.rid].state.SendStarted? { NotQueued(c, st.rid); }
    }
  }

  lemma {:induction false} NotQueued(c: Core, rid: RequestId)
    requires CoreOk(c) && rid in c.db.receipts && c.db.receipts[rid].state.SendStarted? && c.db.receipts[rid].owner.Some?
    requires NoSend(c, c.db.receipts[rid].owner.value)
    ensures !Queued(rid, c.db.receipts[rid])
  {
    assert RowOk(c, rid);
  }

  ghost predicate AllRespected(c: Core, d: Core, t: Option<nat>) {
    forall rid :: rid in c.db.receipts && c.db.receipts[rid].state.SendStarted? && c.db.receipts[rid].owner != t ==> Respected(c, d, rid)
  }

  lemma {:induction false} TenureOkStable(c: Core, d: Core, t: Option<nat>, req: Request, pc: Pc)
    requires CoreOk(c) && CoreOk(d) && Grows(c, d, t) && AllRespected(c, d, t) && ProcOk(c, req, pc) && TenureOk(c, pc)
    requires LeaseOf(pc).Some? ==> t != Some(LeaseOf(pc).value.token)
    ensures TenureOk(d, pc)
  {
    if pc.Started? || pc.Typing? {
      var token := LeaseOf(pc).value.token;
      forall i | 0 <= i < |d.hist.starts| && d.hist.starts[i].token == token ensures Tenure(d, d.hist.starts[i]) {
        if i < |c.hist.starts| {
          var st := c.hist.starts[i];
          assert d.hist.starts[i] == st && StartOk(c, i);
          TenureStable(c, d, t, st);
        }
      }
    }
  }

  /** A submitter that enters, or stays in, its send phase holds its own row. */
  lemma {:induction false} OwnTenureOk(c: Core, req: Request, pc: Pc, ch: Choice)
    requires CoreOk(c) && ProcOk(c, req, pc) && TenureOk(c, pc)
    ensures TenureOk(Advance(c, req, pc, ch).0, Advance(c, req, pc, ch).1)
  {
    var (d, next) := Advance(c, req, pc, ch);
    if pc.Marking? && next.Started? { MarkedTenure(c, req, pc.lease, pc.held, ch); }
    else if next.Started? || next.Typing? { StillTyping(c, req, pc, ch); }
  }

  lemma {:induction false} MarkedTenure(c: Core, req: Request, lease: Lease, held: Option<Hold>, ch: Choice)
    requires CoreOk(c) && LeaseOk(c, req, lease) && NoStart(c, lease.token)
    requires StepMarking(c, req, lease, held, ch).1.Started?
    ensures TenureOk(StepMarking(c, req, lease, held, ch).0, Started(lease, held))
    ensures StepMarking(c, req, lease, held, ch).1 == Started(lease, held)
  {
    MarkShape(c, req, lease);
  }

  lemma {:induction false} StillTyping(c: Core, req: Request, pc: Pc, ch: Choice)
    requires !pc.Marking? && (Advance(c, req, pc, ch).1.Started? || Advance(c, req, pc, ch).1.Typing?)
    ensures var (d, next) := Advance(c, req, pc, ch);
            && pc.Started? && LeaseOf(pc) == LeaseOf(next)
            && d.db.receipts == c.db.receipts && d.hist.starts == c.hist.starts && d.now == c.now && d.policy == c.policy
  {
  }

  // ----- Every step -----

  ghost predicate TenuresOk(s: System) {
    forall pid :: pid in s.procs ==> TenureOk(s.core, s.procs[pid].pc)
  }

  lemma {:induction false} AdvanceRespects(c: Core, req: Request, pc: Pc, ch: Choice)
    requires CoreOk(c) && ProcOk(c, req, pc)
    ensures AllRespected(c, Advance(c, req, pc, ch).0, Acting(c, pc))
  {
    var d := Advance(c, req, pc, ch).0;
    forall rid | rid in c.db.receipts && c.db.receipts[rid].state.SendStarted? && c.db.receipts[rid].owner != Acting(c, pc)
      ensures Respected(c, d, rid)
    {
      assert RowOk(c, rid);
      if LeaseOf(pc).Some? { OwnersRespect(c, req, pc, ch, rid); } else { ReadersRespect(c, req, pc, ch, rid); }
    }
  }

  lemma {:induction false} TenureGoOk(s: System, pid: nat, ch: Choice)
    requires SystemOk(s) && TenuresOk(s) && pid in s.procs
    ensures TenuresOk(Step(s, Go(pid, ch)))
  {
    var p := s.procs[pid];
    var t := Acting(s.core, p.pc);
    AdvanceOk(s.core, p.req, p.pc, ch);
    AdvanceRespects(s.core, p.req, p.pc, ch);
    OwnTenureOk(s.core, p.req, p.pc, ch);
    var (d, pc) := Advance(s.core, p.req, p.pc, ch);
    forall q | q in s.procs && q != pid ensures TenureOk(d, s.procs[q].pc) {
      assert ProcOk(s.core, s.procs[q].req, s.procs[q].pc);
      TenureOkStable(s.core, d, t, s.procs[q].req, s.procs[q].pc);
    }
  }

  lemma {:induction false} OnlookersTenureOk(s: System, d: Core)
    requires SystemOk(s) && TenuresOk(s) && CoreOk(d) && Grows(s.core, d, None) && AllRespected(s.core, d, None)
    ensures TenuresOk(System(d, s.procs))
  {
    forall pid | pid in s.procs ensures TenureOk(d, s.procs[pid].pc) {
      TenureOkStable(s.core, d, None, s.procs[pid].req, s.procs[pid].pc);
    }
  }

  lemma {:induction false} MaintainRespects(c: Core, rid: RequestId)
    requires CoreOk(c)
    ensures AllRespected(c, Committed(c, rid, MaintainTx(c.db, c.now, c.policy, rid)), None)
  {
    if rid in c.db.receipts { assert RowOk(c, rid); }
  }

  lemma {:induction false} SameRowsTenureOk(s: System, d: Core)
    requires SystemOk(s) && TenuresOk(s) && CoreOk(d) && Grows(s.core, d, None) && d.db.receipts == s.core.db.receipts
    ensures TenuresOk(System(d, s.procs))
  {
    OnlookersTenureOk(s, d);
  }

  lemma {:induction false} TenureMaintainOk(s: System, rid: RequestId)
    requires SystemOk(s) && TenuresOk(s)
    ensures TenuresOk(Step(s, Maintain(rid)))
  {
    MaintainOk(s.core, rid, None);
    MaintainRespects(s.core, rid);
    OnlookersTenureOk(s, Committed(s.core, rid, MaintainTx(s.core.db, s.core.now, s.core.policy, rid)));
  }

  lemma {:induction false} TenureSightOk(s: System, w: WorkerId, saw: Sighting)
    requires SystemOk(s) && TenuresOk(s)
    ensures TenuresOk(Step(s, Sight(w, saw)))
  {
    var d := s.core.(db := ObserveTx(s.core.db, w, saw));
    ObserveKeepsReceipts(s.core, w, saw);
    SameReceiptsOk(s.core, d, None);
    SameRowsTenureOk(s, d);
  }

  lemma {:induction false} TenureTickOk(s: System, n: nat)
    requires SystemOk(s) && TenuresOk(s)
    ensures TenuresOk(Step(s, Tick(n)))
  {
    hide CoreOk;
    hide SystemOk;
    hide TenuresOk;
    hide Grows;
    assert CoreOk(s.core) by { SystemIsOk(s); }
    TickOk(s.core, n, None);
    SameRowsTenureOk(s, s.core.(now := s.core.now + n));
  }

  lemma {:induction false} TenureSweepOk(s: System, rid: RequestId, outcome: LinkOutcome)
    requires SystemOk(s) && TenuresOk(s)
    ensures TenuresOk(Step(s, Sweep(rid, outcome)))
  {
    assert CoreOk(s.core) by { SystemIsOk(s); }
    hide CoreOk;
    hide SystemOk;
    hide TenuresOk;
    hide Grows;
    SettleOk(s.core, rid, outcome, None);
    assert SettleTx(s.core.db, s.core.now, rid, outcome).receipts == s.core.db.receipts;
    hide SettleTx;
    SameRowsTenureOk(s, s.core.(db := SettleTx(s.core.db, s.core.now, rid, outcome)));
  }

  lemma {:induction false} TenureStepOk(s: System, act: Act)
    requires SystemOk(s) && TenuresOk(s)
    ensures TenuresOk(Step(s, act))
  {
    match act
    case Enter(pid, req) =>
    case Tick(n) => TenureTickOk(s, n);
    case Go(pid, ch) => if pid in s.procs { TenureGoOk(s, pid, ch); }
    case Sweep(rid, outcome) => TenureSweepOk(s, rid, outcome);
    case Maintain(rid) => TenureMaintainOk(s, rid);
    case Sight(w, saw) => TenureSightOk(s, w, saw);
  }

  lemma {:induction false} TenureRunOk(policy: Policy, acts: seq<Act>)
    requires ValidPolicy(policy)
    ensures SystemOk(Run(Initial(policy), acts)) && TenuresOk(Run(Initial(policy), acts))
    decreases |acts|
  {
    RunOk(policy, acts);
    if acts != [] {
      TenureRunOk(policy, acts[..|acts| - 1]);
      TenureStepOk(Run(Initial(policy), acts[..|acts| - 1]), acts[|acts| - 1]);
    }
  }

  /** Whenever a submitter is about to reach the backend, its send start is on record, and its row is
      still `send_started` under its own token unless its lease has run out or the retry horizon
      has passed, in which case the row can only have been given up as uncertain (or, beyond the
      retention age, deleted). */
  lemma {:induction false} CallsUnderOwnStart(policy: Policy, acts: seq<Act>, pid: nat) returns (i: nat)
    requires ValidPolicy(policy)
    requires var s := Run(Initial(policy), acts); pid in s.procs && PastMark(s.procs[pid].pc)
    ensures var s := Run(Initial(policy), acts);
            var (req, lease) := (s.procs[pid].req, LeaseOf(s.procs[pid].pc).value);
            && i < |s.core.hist.starts| && s.core.hist.starts[i].token == lease.token && s.core.hist.starts[i].rid == req.rid
            && var st := s.core.hist.starts[i];
               (s.core.now < st.until && s.core.now <= st.at + policy.horizon ==>
                  && req.rid in s.core.db.receipts && s.core.db.receipts[req.rid].born == lease.born
                  && s.core.db.receipts[req.rid].state.SendStarted? && s.core.db.receipts[req.rid].owner == Some(lease.token))
    ensures var s := Run(Initial(policy), acts);
            var (req, lease) := (s.procs[pid].req, LeaseOf(s.procs[pid].pc).value);
            s.core.now <= s.core.hist.starts[i].at + policy.retention ==>
              && req.rid in s.core.db.receipts && s.core.db.receipts[req.rid].born == lease.born
              && (s.core.db.receipts[req.rid].state.SendStarted? || s.core.db.receipts[req.rid].state.Uncertain?)
  {
    TenureRunOk(policy, acts);
    RunPolicy(policy, acts);
    var s := Run(Initial(policy), acts);
    var p := s.procs[pid];
    assert ProcOk(s.core, p.req, p.pc) && TenureOk(s.core, p.pc);
    var lease := LeaseOf(p.pc).value;
    i :| 0 <= i < |s.core.hist.starts| && s.core.hist.starts[i].token == lease.token
         && s.core.hist.starts[i].rid == p.req.rid && s.core.hist.starts[i].born == lease.born;
    assert StartOk(s.core, i) && Tenure(s.core, s.core.hist.starts[i]);
  }
}
