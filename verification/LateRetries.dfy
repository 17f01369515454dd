/** What the retry horizon promises a retry, and what it does not: a retry that comes within the horizon can
    start a second send if and only if it pauses beyond what is left of the retention age. Times are those
    of the store's transactions, which the model takes never to run backwards. */
module LateRetries {
  import opened Options
  import opened Envelopes
  import opened CommandStore
  import opened Submission
  import opened SubmissionInvariant
  import opened SubmissionSafety
  import opened SubmissionTheorems
  import opened InputWindow
  import opened Retries
  import opened Acceptance

  // ----- The bound -----

  /** The act has this submitter start a send for this request. */
  ghost predicate StartsSend(s: System, act: Act, pid: nat, rid: RequestId) {
    && act.Go? && act.pid == pid && pid in s.procs && s.procs[pid].req.rid == rid
    && Step(s, act).core.hist.starts != s.core.hist.starts
  }

  lemma {:induction false} NewStart(s: System, act: Act, pid: nat, rid: RequestId)
    requires StartsSend(s, act, pid, rid)
    ensures var xs := Step(s, act).core.hist.starts;
            |xs| == |s.core.hist.starts| + 1 && xs[|xs| - 1].rid == rid && xs[|xs| - 1].at == s.core.now
  {
    var p := s.procs[pid];
    AdvanceStarts(s.core, p.req, p.pc, act.choice);
    hide Advance;
  }

  lemma {:induction false} AdvanceStarts(c: Core, req: Request, pc: Pc, ch: Choice)
    ensures var xs := Advance(c, req, pc, ch).0.hist.starts;
            xs == c.hist.starts || (|xs| == |c.hist.starts| + 1 && xs[|xs| - 1].rid == req.rid && xs[|xs| - 1].at == c.now)
  {
  }

  /** In this run a submitter arrives `wait` seconds after a send start of its own request, and starts another
      send `pause` seconds after that. */
  ghost predicate StartsAgain(policy: Policy, acts: seq<Act>, m: nat, n: nat, pid: nat, req: Request, i: nat, wait: nat, pause: nat) {
    && m < n < |acts| && acts[m] == Enter(pid, req)
    && (var c := Run(Initial(policy), acts[..m]).core;
        && i < |c.hist.starts| && c.hist.starts[i].rid == req.rid && c.now == c.hist.starts[i].at + wait
        && Run(Initial(policy), acts[..n]).core.now == c.now + pause)
    && StartsSend(Run(Initial(policy), acts[..n]), acts[n], pid, req.rid)
  }

  /** Whoever starts another send has arrived and paused for longer than the retention age, together. */
  lemma {:induction false} OnlyALatePauseSendsAgain(policy: Policy, acts: seq<Act>, m: nat, n: nat, pid: nat, req: Request, i: nat,
                                                    wait: nat, pause: nat)
    requires ValidPolicy(policy) && StartsAgain(policy, acts, m, n, pid, req, i, wait, pause)
    ensures wait + pause > policy.retention
  {
    hide StartsSend;
    hide Step;
    var s, t := Run(Initial(policy), acts[..m]), Run(Initial(policy), acts[..n]);
    assert acts[..n] == acts[..m] + acts[m..n];
    RunJoined(Initial(policy), acts[..m], acts[m..n]);
    StartsStay(s, acts[m..n]);
    NewStart(t, acts[n], pid, req.rid);
    RunSnoc(Initial(policy), acts[..n], acts[n]);
    assert acts[..n] + [acts[n]] == acts[..n + 1];
    assert acts[..n + 1] == acts[..m] + acts[m..n + 1];
    RunJoined(Initial(policy), acts[..m], acts[m..n + 1]);
    StartsStay(s, acts[m..n + 1]);
    SecondSendOutlivesRetention(policy, acts[..n + 1]);
  }

  // ----- The bound is exact -----

  const PROCEED := Choice(NoFault, Some(7), Resolved(7, Ready(Route(7, 5, 2, 3, 9))), Waits, None, None, StRejected, Submitted, true, true)
  const UNREAD := PROCEED.(fault := RaisedBefore)

  function Telling(rid: RequestId): Request {
    Request(rid, SendInstruction, Explicit(7), 6)
  }

  lemma {:induction false} GoesAreRun(s: System, pid: nat, ch: Choice, n: nat)
    requires pid in s.procs
    ensures var (d, pc) := Drive(s.core, s.procs[pid].req, s.procs[pid].pc, ch, n);
            Run(s, Goes(pid, ch, n)) == System(d, s.procs[pid := Proc(s.procs[pid].req, pc)])
    decreases n
  {
    hide Advance;
    if n > 0 {
      GoesAreRun(s, pid, ch, n - 1);
      DriveSnoc(s.core, s.procs[pid].req, s.procs[pid].pc, ch, n - 1);
      assert Goes(pid, ch, n) == Goes(pid, ch, n - 1) + [Go(pid, ch)];
      RunSnoc(s, Goes(pid, ch, n - 1), Go(pid, ch));
    }
  }

  /** The first attempt is sent and accepted, in the first second. */
  ghost predicate SentOnce(s: System, policy: Policy, now: nat) {
    && s.core.now == now && s.core.policy == policy && s.procs.Keys == {0}
    && |s.core.hist.sends| == 1 && s.core.hist.sends[0].rid == 0 && FirstStart(s.core)
    && (forall rid: RequestId :: rid in s.core.db.receipts <==> rid == 0) && s.core.db.receipts[0].state.Accepted? && s.core.db.receipts[0].terminalAt == Some(0)
  }

  ghost predicate FirstStart(c: Core) {
    exists i :: 0 <= i < |c.hist.starts| && c.hist.starts[i].rid == 0 && c.hist.starts[i].at == 0
  }

  lemma {:induction false} FirstAttempt(policy: Policy) returns (acts: seq<Act>)
    requires ValidPolicy(policy)
    ensures SentOnce(Run(Initial(policy), acts), policy, 0)
  {
    acts := [Enter(0, Telling(0))] + Goes(0, PROCEED, 6);
    assert Run(Initial(policy), []) == Initial(policy);
    RunOk(policy, []);
    RunOk(policy, acts);
    RunPolicy(policy, acts);
    DriveIsRun(Initial(policy), 0, Telling(0), PROCEED, 6);
    DriveAccepts(Initial(policy).core, Telling(0), 7, PROCEED);
    ClockStands(Initial(policy), acts);
    FirstStarted(Run(Initial(policy), acts).core);
  }

  lemma {:induction false} FirstStarted(c: Core)
    requires CoreOk(c) && c.now == 0 && |c.hist.sends| == 1 && c.hist.sends[0].rid == 0
    requires 0 in c.db.receipts && c.db.receipts[0].state.Accepted?
    ensures FirstStart(c) && c.db.receipts[0].terminalAt == Some(0)
  {
    assert SendOk(c, 0) && RowOk(c, 0);
    var i :| 0 <= i < |c.hist.starts| && c.hist.starts[i].token == c.hist.sends[0].token && c.hist.starts[i].rid == 0;
    assert StartOk(c, i);
  }

  lemma {:induction false} TimeGoesBy(policy: Policy, acts: seq<Act>, now: nat, n: nat)
    requires SentOnce(Run(Initial(policy), acts), policy, now)
    ensures SentOnce(Run(Initial(policy), acts + [Tick(n)]), policy, now + n)
  {
    RunSnoc(Initial(policy), acts, Tick(n));
  }

  /** The retry has come, could not read the store, and pauses, while `crowd` other requests were reserved
      just now. */
  ghost predicate RetryWaits(s: System, policy: Policy, now: nat, crowd: nat) {
    && s.core.now == now && s.core.policy == policy && 1 in s.procs && s.procs[1] == Proc(Telling(0), Preparing(None))
    && (forall pid :: pid in s.procs ==> pid < crowd + 2)
    && |s.core.hist.sends| == 1 && s.core.hist.sends[0].rid == 0
    && 0 in s.core.db.receipts && s.core.db.receipts[0].state.Accepted? && s.core.db.receipts[0].terminalAt == Some(0)
    && (forall rid: RequestId :: rid in s.core.db.receipts <==> rid <= crowd)
    && (forall rid :: 0 < rid <= crowd ==> JustReserved(s.core.db, rid, now))
  }

  predicate JustReserved(db: Db, rid: RequestId, now: nat) {
    && rid in db.receipts && db.receipts[rid].state.Reserved? && db.receipts[rid].terminalAt.None?
    && db.receipts[rid].updated == now && db.receipts[rid].expires == Some(now + OWNER_LEASE)
  }

  lemma {:induction false} RetryComes(policy: Policy, acts: seq<Act>, now: nat)
    requires SentOnce(Run(Initial(policy), acts), policy, now)
    ensures RetryWaits(Run(Initial(policy), acts + [Enter(1, Telling(0))] + [Go(1, UNREAD)]), policy, now, 0)
  {
    RunSnoc(Initial(policy), acts, Enter(1, Telling(0)));
    RunSnoc(Initial(policy), acts + [Enter(1, Telling(0))], Go(1, UNREAD));
  }

  lemma {:induction false} RetryPauses(policy: Policy, acts: seq<Act>, now: nat, n: nat)
    requires RetryWaits(Run(Initial(policy), acts), policy, now, 0)
    ensures RetryWaits(Run(Initial(policy), acts + [Tick(n)]), policy, now + n, 0)
  {
    RunSnoc(Initial(policy), acts, Tick(n));
  }

  lemma {:induction false} FreshReserves(c: Core, rid: RequestId)
    requires rid !in c.db.receipts
    ensures var d := Drive(c, Telling(rid), Reading, PROCEED, 3).0;
            && JustReserved(d.db, rid, c.now) && d.db.receipts == c.db.receipts[rid := d.db.receipts[rid]]
            && d.now == c.now && d.policy == c.policy && d.hist.sends == c.hist.sends
  {
    hide EnvelopeFromReceipt;
    DriveSnoc(c, Telling(rid), Reading, PROCEED, 0);
    DriveSnoc(c, Telling(rid), Reading, PROCEED, 1);
    DriveSnoc(c, Telling(rid), Reading, PROCEED, 2);
  }

  /** One more request is reserved. */
  lemma {:induction false} OneMoreReserves(policy: Policy, acts: seq<Act>, now: nat, crowd: nat) returns (more: seq<Act>)
    requires RetryWaits(Run(Initial(policy), acts), policy, now, crowd)
    ensures RetryWaits(Run(Initial(policy), acts + more), policy, now, crowd + 1)
  {
    hide Run;
    hide Drive;
    var s := Run(Initial(policy), acts);
    more := [Enter(crowd + 2, Telling(crowd + 1))] + Goes(crowd + 2, PROCEED, 3);
    RunJoined(Initial(policy), acts, more);
    DriveIsRun(s, crowd + 2, Telling(crowd + 1), PROCEED, 3);
    FreshReserves(s.core, crowd + 1);
    var (d, pc) := Drive(s.core, Telling(crowd + 1), Reading, PROCEED, 3);
    assert Run(Initial(policy), acts + more) == System(d, s.procs[crowd + 2 := Proc(Telling(crowd + 1), pc)]);
    forall rid | 0 < rid <= crowd + 1 ensures JustReserved(d.db, rid, now) {
      if rid <= crowd { assert JustReserved(s.core.db, rid, now); }
    }
  }

  lemma {:induction false} CrowdReserves(policy: Policy, acts: seq<Act>, now: nat, crowd: nat) returns (more: seq<Act>)
    requires RetryWaits(Run(Initial(policy), acts), policy, now, 0)
    ensures RetryWaits(Run(Initial(policy), acts + more), policy, now, crowd)
    decreases crowd
  {
    hide Run;
    hide RetryWaits;
    if crowd == 0 { more := []; assert acts + [] == acts; }
    else {
      var some := CrowdReserves(policy, acts, now, crowd - 1);
      var one := OneMoreReserves(policy, acts + some, now, crowd - 1);
      more := some + one;
      assert acts + more == acts + some + one;
    }
  }

  /** Past retention, maintenance forgets the first receipt; the paused retry knows nothing of it. */
  ghost predicate Forgotten(s: System, now: nat) {
    && s.core.now == now && 0 !in s.core.db.receipts && 1 in s.procs && s.procs[1] == Proc(Telling(0), Preparing(None))
    && |s.core.hist.sends| == 1 && s.core.hist.sends[0].rid == 0
  }

  lemma {:induction false} MaintenanceForgets(policy: Policy, acts: seq<Act>, now: nat)
    requires RetryWaits(Run(Initial(policy), acts), policy, now, policy.keep) && 0 < now && now + OWNER_LEASE + 1 > policy.retention
    ensures Forgotten(Run(Initial(policy), acts + [Tick(OWNER_LEASE + 1)] + [Maintain(0)]), now + OWNER_LEASE + 1)
  {
    var s, later := Run(Initial(policy), acts), Tick(OWNER_LEASE + 1);
    RunSnoc(Initial(policy), acts, later);
    RunSnoc(Initial(policy), acts + [later], Maintain(0));
    OutrankedByCrowd(Step(s, later).core, now, policy.keep);
  }

  lemma {:induction false} OutrankedByCrowd(c: Core, now: nat, crowd: nat)
    requires 0 in c.db.receipts && c.db.receipts[0].state.Accepted? && c.db.receipts[0].terminalAt == Some(0)
    requires forall rid :: 0 < rid <= crowd ==> JustReserved(c.db, rid, now)
    requires 0 < now && c.now == now + OWNER_LEASE + 1 > c.policy.retention && c.policy.keep == crowd
    ensures Deletable(c.db, c.now, c.policy, 0)
  {
    var newer := Newer(c.db, c.now, 0);
    forall rid | rid in Upto(crowd) ensures rid in newer { assert JustReserved(c.db, rid, now); }
    SubsetIsSmaller(Upto(crowd), newer);
  }

  function Upto(n: nat): (s: set<nat>)
    ensures |s| == n && forall k :: k in s <==> 0 < k <= n
  {
    if n == 0 then {} else Upto(n - 1) + {n}
  }

  lemma {:induction false} SubsetIsSmaller(a: set<nat>, b: set<nat>)
    requires a <= b
    ensures |a| <= |b|
    decreases a
  {
    if x :| x in a { SubsetIsSmaller(a - {x}, b - {x}); }
  }

  /** The instruction was sent twice, and the retry was told it is accepted. */
  predicate SentTwice(s: System) {
    && |s.core.hist.sends| == 2 && s.core.hist.sends[0].rid == 0 && s.core.hist.sends[1].rid == 0
    && 1 in s.procs && s.procs[1].pc.Done? && s.procs[1].pc.env.status.StAccepted?
  }

  lemma {:induction false} SendsAgain(policy: Policy, acts: seq<Act>, now: nat)
    requires ValidPolicy(policy) && Forgotten(Run(Initial(policy), acts), now)
    ensures SentTwice(Run(Initial(policy), acts + Goes(1, PROCEED, 5)))
  {
    var s := Run(Initial(policy), acts);
    RunOk(policy, acts);
    RunJoined(Initial(policy), acts, Goes(1, PROCEED, 5));
    GoesAreRun(s, 1, PROCEED, 5);
    hide Run;
    hide CoreOk;
    DriveAccepts(s.core, Telling(0), 7, PROCEED);
    FromPreparing(s.core, 5);
  }

  /** A submitter that could not read goes on as one that found nothing. */
  lemma {:induction false} FromPreparing(c: Core, n: nat)
    requires 0 !in c.db.receipts
    ensures Drive(c, Telling(0), Preparing(None), PROCEED, n) == Drive(c, Telling(0), Reading, PROCEED, n + 1)
  {
    assert Advance(c, Telling(0), Reading, PROCEED) == (c, Preparing(None));
    hide Advance;
  }

  /** The third step from there starts the send, at once. */
  lemma {:induction false} StartsThere(policy: Policy, acts: seq<Act>, now: nat)
    requires ValidPolicy(policy) && Forgotten(Run(Initial(policy), acts), now)
    ensures var s := Run(Initial(policy), acts + Goes(1, PROCEED, 2)); s.core.now == now && StartsSend(s, Go(1, PROCEED), 1, 0)
  {
    var s := Run(Initial(policy), acts);
    RunOk(policy, acts);
    assert CoreOk(s.core) by { SystemIsOk(s); }
    RunJoined(Initial(policy), acts, Goes(1, PROCEED, 2));
    GoesAreRun(s, 1, PROCEED, 2);
    hide Run;
    hide SystemOk;
    hide CoreOk;
    FromPreparing(s.core, 2);
    var d, lease := DriveReserves(s.core, Telling(0), 7, PROCEED);
    hide Drive;
    ReservedStarts(s.core, d, lease);
  }

  lemma {:induction false} ReservedStarts(c: Core, d: Core, lease: Lease)
    requires Holds(c, d, Telling(0), lease, Reserved)
    ensures Advance(d, Telling(0), Marking(lease, None), PROCEED).0.hist.starts != d.hist.starts
  {
  }

  /** For every accepted policy, every retry within the horizon and every pause beyond what is left of the
      retention age, there is a run in which that retry sends an accepted instruction again. */
  lemma {:induction false} PausedRetrySendsAgain(policy: Policy, wait: nat, pause: nat) returns (acts: seq<Act>, m: nat, n: nat, i: nat)
    requires ValidPolicy(policy) && wait <= policy.horizon && wait + pause > policy.retention
    ensures StartsAgain(policy, acts, m, n, 1, Telling(0), i, wait, pause) && SentTwice(Run(Initial(policy), acts))
  {
    hide Run;
    hide RetryWaits;
    hide Forgotten;
    hide StartsSend;
    hide SentTwice;
    var first := FirstAttempt(policy);
    var waited := first + [Tick(wait)];
    TimeGoesBy(policy, first, 0, wait);
    m := |waited|;
    RetryComes(policy, waited, wait);
    var come := waited + [Enter(1, Telling(0))] + [Go(1, UNREAD)];
    var second := wait + (pause - OWNER_LEASE - 1);
    RetryPauses(policy, come, wait, pause - OWNER_LEASE - 1);
    var paused := come + [Tick(pause - OWNER_LEASE - 1)];
    var more := CrowdReserves(policy, paused, second, policy.keep);
    MaintenanceForgets(policy, paused + more, second);
    var forgotten := paused + more + [Tick(OWNER_LEASE + 1)] + [Maintain(0)];
    SendsAgain(policy, forgotten, wait + pause);
    StartsThere(policy, forgotten, wait + pause);
    acts := forgotten + Goes(1, PROCEED, 5);
    n := |forgotten| + 2;
    assert acts[..m] == waited && acts[m] == Enter(1, Telling(0));
    assert acts[..n] == forgotten + Goes(1, PROCEED, 2) && acts[n] == Go(1, PROCEED);
    var c := Run(Initial(policy), waited).core;
    i :| 0 <= i < |c.hist.starts| && c.hist.starts[i].rid == 0 && c.hist.starts[i].at == 0;
  }

  /** Some retry that arrives so long after a send start of its request, and pauses so long, starts another. */
  ghost predicate CanStartAgain(policy: Policy, wait: nat, pause: nat) {
    exists acts, m, n, pid, req, i :: StartsAgain(policy, acts, m, n, pid, req, i, wait, pause)
  }

  /** A retry within the horizon can start a second send exactly if it pauses beyond what is left of the
      retention age. */
  lemma {:induction false} SecondStartExactlyPastRetention(policy: Policy, wait: nat, pause: nat)
    requires ValidPolicy(policy) && wait <= policy.horizon
    ensures CanStartAgain(policy, wait, pause) <==> wait + pause > policy.retention
  {
    hide StartsAgain;
    if CanStartAgain(policy, wait, pause) {
      var acts, m, n, pid, req, i :| StartsAgain(policy, acts, m, n, pid, req, i, wait, pause);
      OnlyALatePauseSendsAgain(policy, acts, m, n, pid, req, i, wait, pause);
    }
    if wait + pause > policy.retention {
      var acts, m, n, i := PausedRetrySendsAgain(policy, wait, pause);
    }
  }

  /** So the horizon keeps retries safe whose pause is at most what retention exceeds it by, and no others. */
  lemma {:induction false} HorizonIsSafeForShortPauses(policy: Policy, pause: nat)
    requires ValidPolicy(policy)
    ensures (exists wait :: 0 <= wait <= policy.horizon && CanStartAgain(policy, wait, pause)) <==> pause > policy.retention - policy.horizon
  {
    hide CanStartAgain;
    forall wait | 0 <= wait <= policy.horizon ensures CanStartAgain(policy, wait, pause) <==> wait + pause > policy.retention {
      SecondStartExactlyPastRetention(policy, wait, pause);
    }
    if pause > policy.retention - policy.horizon { assert CanStartAgain(policy, policy.horizon, pause); }
  }
}
